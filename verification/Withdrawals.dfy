/** Withdrawals and their Solana payouts: creation, review, the automatic
    batch with its rolling budgets, submission and confirmation.

    `withdrawals` and `payouts` are tables with serial ids that are never
    deleted, so a table is a sequence and a row's id is its position. Rows carry
    one history column the database does not have, `approvedAt`: the time of
    the batch that approved the withdrawal. No operation reads it. */
module Withdrawals {
  import opened Basics

  datatype Status =
    Queued | ManualReview | Rejected | PayoutCreated | Submitted | Confirmed | Failed

  datatype Withdrawal = Withdrawal(
    account: nat,
    wallet: string,
    amount: int,
    status: Status,
    reason: string,
    signature: Option<string>,
    processedAt: Option<int>,
    confirmedAt: Option<int>,
    approvedAt: Option<int>)

  datatype PayoutStatus = Created | Sent | Settled | Broken

  datatype Payout = Payout(
    withdrawal: nat,
    wallet: string,
    amount: int,
    status: PayoutStatus,
    signature: Option<string>,
    attempts: nat,
    submittedAt: Option<int>,
    confirmedAt: Option<int>)

  datatype Kind = WithdrawalRequested | WithdrawalSubmitted | WithdrawalConfirmed

  datatype Entry = Entry(account: nat, kind: Kind, amount: int, ref: string)

  /** `withdrawable` holds account_tokens.withdrawable_balance; a missing row is 0. */
  datatype Db = Db(
    withdrawable: map<nat, int>,
    withdrawals: seq<Withdrawal>,
    payouts: seq<Payout>,
    ledger: seq<Entry>)

  datatype Limits = Limits(single: int, userDaily: int, hourly: int, daily: int)

  function Balance(m: map<nat, int>, account: nat): int {
    if account in m then m[account] else 0
  }

  // Times are seconds; an hour and a day are contiguous buckets of them.
  function Hour(t: int): int { t / 3600 }

  function Day(t: int): int { t / 86400 }

  // ---------------------------------------------------------------------
  // Requests and review
  // ---------------------------------------------------------------------

  function CreateWithdrawal(db: Db, account: nat, amount: int, wallet: string, manual: bool): Result<Db> {
    if amount <= 0 then Fail("amount must be positive")
    else if Balance(db.withdrawable, account) < amount then Fail("insufficient balance")
    else
      var row := Withdrawal(account,
                            if wallet == "" then "pending_wallet_for_account_" + Decimal(account) else wallet,
                            amount,
                            if manual then ManualReview else Queued,
                            if manual then "manual requested" else "",
                            None, None, None, None);
      Ok(db.(withdrawable := db.withdrawable[account := Balance(db.withdrawable, account) - amount],
             withdrawals := db.withdrawals + [row],
             ledger := db.ledger + [Entry(account, WithdrawalRequested, amount, "")]))
  }

  function ReviewWithdrawal(db: Db, id: nat, approve: bool, reason: string): Result<Db> {
    if id >= |db.withdrawals| then Fail("not found")
    else
      var row := db.withdrawals[id];
      if row.status != ManualReview then Fail("forbidden")
      else if approve then
        Ok(db.(withdrawals := db.withdrawals[id := row.(status := Queued, reason := "approved: " + reason)]))
      else
        Ok(db.(withdrawals := db.withdrawals[id := row.(status := Rejected, reason := reason)],
               withdrawable := db.withdrawable[row.account := Balance(db.withdrawable, row.account) + row.amount]))
  }

  // ---------------------------------------------------------------------
  // The automatic batch
  // ---------------------------------------------------------------------

  /** The running totals the batch compares with the limits. */
  datatype Budget = Budget(userDaily: map<nat, int>, hourly: int, daily: int)

  /** One row the batch selected, with the signature text stub mode would write. */
  datatype Pick = Pick(id: nat, signature: string)

  datatype Batch = Batch(db: Db, budget: Budget)

  predicate CountsForBudget(w: Withdrawal) {
    w.status in {PayoutCreated, Submitted, Confirmed} && w.processedAt.Some?
  }

  function AddProcessed(b: Budget, w: Withdrawal, now: int): Budget {
    if !CountsForBudget(w) then b
    else
      var b1 :=
        if Day(w.processedAt.value) == Day(now) then
          b.(userDaily := b.userDaily[w.account := Balance(b.userDaily, w.account) + w.amount],
             daily := b.daily + w.amount)
        else b;
      if Hour(w.processedAt.value) == Hour(now) then b1.(hourly := b1.hourly + w.amount) else b1
  }

  function BudgetOf(rows: seq<Withdrawal>, now: int): Budget {
    if |rows| == 0 then Budget(map[], 0, 0)
    else AddProcessed(BudgetOf(rows[..|rows| - 1], now), rows[|rows| - 1], now)
  }

  predicate HasPayout(payouts: seq<Payout>, id: nat) {
    exists j :: 0 <= j < |payouts| && payouts[j].withdrawal == id
  }

  predicate SignatureTaken(payouts: seq<Payout>, signature: string) {
    exists j :: 0 <= j < |payouts| && payouts[j].signature == Some(signature)
  }

  function SetRow(db: Db, id: nat, row: Withdrawal): Db
    requires id < |db.withdrawals|
  {
    db.(withdrawals := db.withdrawals[id := row])
  }

  /** Approval: a payout row is inserted (one per withdrawal, one per signature, both
      enforced by unique indexes); stub mode settles it at once. */
  function Approve(batch: Batch, pick: Pick, now: int, stub: bool): Result<Batch>
    requires pick.id < |batch.db.withdrawals|
  {
    var db, b := batch.db, batch.budget;
    var row := db.withdrawals[pick.id];
    if HasPayout(db.payouts, pick.id) then Fail("insert solana payout")
    else
      var budget := Budget(
        b.userDaily[row.account := Balance(b.userDaily, row.account) + row.amount],
        b.hourly + row.amount,
        b.daily + row.amount);
      if stub then
        if SignatureTaken(db.payouts, pick.signature) then Fail("update withdrawal")
        else
          var row' := row.(status := Confirmed, signature := Some(pick.signature),
                           processedAt := Some(now), confirmedAt := Some(now), approvedAt := Some(now));
          Ok(Batch(Db(db.withdrawable,
                      db.withdrawals[pick.id := row'],
                      db.payouts + [Payout(pick.id, row.wallet, row.amount, Settled, Some(pick.signature), 1,
                                           Some(now), Some(now))],
                      db.ledger + [Entry(row.account, WithdrawalConfirmed, row.amount, pick.signature)]),
                   budget))
      else
        var row' := row.(status := PayoutCreated, reason := "awaiting_chain_payout",
                         processedAt := Some(now), approvedAt := Some(now));
        Ok(Batch(Db(db.withdrawable,
                    db.withdrawals[pick.id := row'],
                    db.payouts + [Payout(pick.id, row.wallet, row.amount, Created, None, 0, None, None)],
                    db.ledger),
                 budget))
  }

  function ProcessOne(batch: Batch, pick: Pick, limits: Limits, now: int, stub: bool): Result<Batch>
    requires pick.id < |batch.db.withdrawals|
  {
    var db, b := batch.db, batch.budget;
    var row := db.withdrawals[pick.id];
    if row.amount > limits.single then
      Ok(batch.(db := SetRow(db, pick.id, row.(status := ManualReview, reason := "single limit exceeded"))))
    else if Balance(b.userDaily, row.account) + row.amount > limits.userDaily then
      Ok(batch.(db := SetRow(db, pick.id, row.(status := ManualReview, reason := "user daily limit exceeded"))))
    else if b.hourly + row.amount > limits.hourly then
      Ok(batch.(db := SetRow(db, pick.id, row.(reason := "global hourly limit delayed"))))
    else if b.daily + row.amount > limits.daily then
      Ok(batch.(db := SetRow(db, pick.id, row.(status := ManualReview, reason := "global daily limit exceeded"))))
    else
      Approve(batch, pick, now, stub)
  }

  function ProcessPicks(db: Db, picks: seq<Pick>, limits: Limits, now: int, stub: bool): (r: Result<Batch>)
    requires forall k :: 0 <= k < |picks| ==> picks[k].id < |db.withdrawals|
    ensures r.Ok? ==> |r.value.db.withdrawals| == |db.withdrawals|
  {
    if |picks| == 0 then Ok(Batch(db, BudgetOf(db.withdrawals, now)))
    else
      var n := |picks| - 1;
      var batch :- ProcessPicks(db, picks[..n], limits, now, stub);
      ProcessOne(batch, picks[n], limits, now, stub)
  }

  /** What the locking query may return: distinct queued rows. The order and the
      number are left open, which covers every limit, tie and skipped lock. */
  predicate SelectsQueued(db: Db, picks: seq<Pick>) {
    && (forall k :: 0 <= k < |picks| ==>
          picks[k].id < |db.withdrawals| && db.withdrawals[picks[k].id].status == Queued)
    && (forall j, k :: 0 <= j < k < |picks| ==> picks[j].id != picks[k].id)
  }

  function Process(db: Db, picks: seq<Pick>, limits: Limits, now: int, stub: bool): Db {
    if !SelectsQueued(db, picks) then db
    else
      match ProcessPicks(db, picks, limits, now, stub)
      case Ok(batch) => batch.db
      case Fail(_) => db
  }

  // ---------------------------------------------------------------------
  // Submission
  // ---------------------------------------------------------------------

  /** What sending one transfer gave: a signature, a recipient without a token
      account, a configuration error that pauses payouts and ends the batch, or
      any other error. */
  datatype SendOutcome = Accepted(signature: string) | AccountMissing | ConfigError | SendError

  datatype Sending = Sending(payout: nat, outcome: SendOutcome)

  function SubmitOne(db: Db, s: Sending, now: int): Result<Db>
    requires s.payout < |db.payouts| && db.payouts[s.payout].withdrawal < |db.withdrawals|
  {
    var p := db.payouts[s.payout];
    var w := db.withdrawals[p.withdrawal];
    match s.outcome
    case Accepted(signature) =>
      if SignatureTaken(db.payouts, signature) then Fail("duplicate signature")
      else
        Ok(db.(payouts := db.payouts[s.payout := p.(status := Sent, signature := Some(signature),
                                                   submittedAt := Some(now), attempts := p.attempts + 1)],
               withdrawals := db.withdrawals[p.withdrawal := w.(status := Submitted, signature := Some(signature),
                                                               processedAt := Some(now), reason := "")],
               ledger := db.ledger + [Entry(w.account, WithdrawalSubmitted, p.amount, signature)]))
    case AccountMissing =>
      Ok(db.(payouts := db.payouts[s.payout := p.(status := Broken, attempts := p.attempts + 1)],
             withdrawals := db.withdrawals[p.withdrawal := w.(status := Failed, reason := "recipient ATA missing")]))
    case _ =>
      Ok(db.(payouts := db.payouts[s.payout := p.(attempts := p.attempts + 1)]))
  }

  /** Everything up to and including the first configuration error. */
  function UntilConfigError(list: seq<Sending>): seq<Sending> {
    if |list| == 0 then []
    else if list[0].outcome.ConfigError? then [list[0]]
    else [list[0]] + UntilConfigError(list[1..])
  }

  function SubmitAll(db: Db, list: seq<Sending>, now: int): (r: Result<Db>)
    requires forall k :: 0 <= k < |list| ==> list[k].payout < |db.payouts|
    requires PayoutsPoint(db)
    ensures r.Ok? ==> |r.value.payouts| == |db.payouts| && |r.value.withdrawals| == |db.withdrawals|
    ensures r.Ok? ==> forall j :: 0 <= j < |db.payouts| ==> r.value.payouts[j].withdrawal == db.payouts[j].withdrawal
  {
    if |list| == 0 then Ok(db)
    else
      var n := |list| - 1;
      var db' :- SubmitAll(db, list[..n], now);
      SubmitOne(db', list[n], now)
  }

  predicate PayoutsPoint(db: Db) {
    forall j :: 0 <= j < |db.payouts| ==> db.payouts[j].withdrawal < |db.withdrawals|
  }

  predicate SelectsPayouts(db: Db, ids: seq<nat>, status: PayoutStatus) {
    && (forall k :: 0 <= k < |ids| ==> ids[k] < |db.payouts| && db.payouts[ids[k]].status == status)
    && (forall j, k :: 0 <= j < k < |ids| ==> ids[j] != ids[k])
  }

  function SendingIds(list: seq<Sending>): seq<nat> { seq(|list|, k requires 0 <= k < |list| => list[k].payout) }

  function Submit(db: Db, list: seq<Sending>, now: int): Db {
    if !PayoutsPoint(db) || !SelectsPayouts(db, SendingIds(list), Created) then db
    else
      match SubmitAll(db, SubmittedPart(db, list), now)
      case Ok(db') => db'
      case Fail(_) => db
  }

  function SubmittedPart(db: Db, list: seq<Sending>): (part: seq<Sending>)
    requires SelectsPayouts(db, SendingIds(list), Created)
    ensures forall k :: 0 <= k < |part| ==> part[k].payout < |db.payouts|
    ensures part <= list
  {
    UntilConfigErrorIsPrefix(list);
    var part := UntilConfigError(list);
    assert forall k :: 0 <= k < |part| ==> part[k] == list[k] && SendingIds(list)[k] == list[k].payout;
    part
  }

  lemma {:induction false} UntilConfigErrorIsPrefix(list: seq<Sending>)
    ensures UntilConfigError(list) <= list
    ensures forall k :: 0 <= k < |UntilConfigError(list)| - 1 ==> !list[k].outcome.ConfigError?
    ensures |UntilConfigError(list)| < |list| ==>
      |UntilConfigError(list)| > 0 && list[|UntilConfigError(list)| - 1].outcome.ConfigError?
  {
    if |list| > 0 && !list[0].outcome.ConfigError? {
      UntilConfigErrorIsPrefix(list[1..]);
    }
  }

  // ---------------------------------------------------------------------
  // Confirmation
  // ---------------------------------------------------------------------

  /** What the chain says about a submitted signature. */
  datatype ChainStatus = Errored | Final | Pending

  datatype Check = Check(payout: nat, status: ChainStatus)

  function ConfirmOne(db: Db, c: Check, now: int): Db
    requires c.payout < |db.payouts| && db.payouts[c.payout].withdrawal < |db.withdrawals|
  {
    var p := db.payouts[c.payout];
    var w := db.withdrawals[p.withdrawal];
    match c.status
    case Errored =>
      db.(payouts := db.payouts[c.payout := p.(status := Broken)],
          withdrawals := db.withdrawals[p.withdrawal := w.(status := Failed, reason := "payout signature failed")])
    case Pending => db
    case Final =>
      db.(payouts := db.payouts[c.payout := p.(status := Settled, confirmedAt := Some(now))],
          withdrawals := db.withdrawals[p.withdrawal := w.(status := Confirmed, confirmedAt := Some(now))],
          ledger := db.ledger + [Entry(w.account, WithdrawalConfirmed, p.amount,
                                       if p.signature.Some? then p.signature.value else "")])
  }

  function ConfirmAll(db: Db, list: seq<Check>, now: int): (r: Db)
    requires forall k :: 0 <= k < |list| ==> list[k].payout < |db.payouts|
    requires PayoutsPoint(db)
    ensures |r.payouts| == |db.payouts| && PayoutsPoint(r)
  {
    if |list| == 0 then db
    else
      var n := |list| - 1;
      ConfirmOne(ConfirmAll(db, list[..n], now), list[n], now)
  }

  function CheckIds(list: seq<Check>): seq<nat> { seq(|list|, k requires 0 <= k < |list| => list[k].payout) }

  predicate SelectsSubmitted(db: Db, list: seq<Check>) {
    && SelectsPayouts(db, CheckIds(list), Sent)
    && (forall k :: 0 <= k < |list| ==>
          list[k].payout < |db.payouts| && db.payouts[list[k].payout].signature.Some?)
  }

  function Confirm(db: Db, list: seq<Check>, now: int): Db {
    if !PayoutsPoint(db) || !SelectsSubmitted(db, list) then db else ConfirmAll(db, list, now)
  }

  // ---------------------------------------------------------------------
  // Runs
  // ---------------------------------------------------------------------

  /** Income from outside: unlocked or granted tokens become withdrawable. */
  function Earn(db: Db, account: nat, tokens: nat): Db {
    db.(withdrawable := db.withdrawable[account := Balance(db.withdrawable, account) + tokens])
  }

  datatype Step =
    | EarnStep(account: nat, tokens: nat)
    | RequestStep(account: nat, amount: int, wallet: string, manual: bool)
    | ReviewStep(id: nat, approve: bool, reason: string)
    | ProcessStep(picks: seq<Pick>, stub: bool)
    | SubmitStep(sendings: seq<Sending>)
    | ConfirmStep(checks: seq<Check>)

  datatype Timed = Timed(now: int, step: Step)

  function Commit(db: Db, r: Result<Db>): Db { if r.Ok? then r.value else db }

  function Apply(db: Db, limits: Limits, now: int, step: Step): Db {
    match step
    case EarnStep(account, tokens) => Earn(db, account, tokens)
    case RequestStep(account, amount, wallet, manual) =>
      Commit(db, CreateWithdrawal(db, account, amount, wallet, manual))
    case ReviewStep(id, approve, reason) => Commit(db, ReviewWithdrawal(db, id, approve, reason))
    case ProcessStep(picks, stub) => Process(db, picks, limits, now, stub)
    case SubmitStep(sendings) => Submit(db, sendings, now)
    case ConfirmStep(checks) => Confirm(db, checks, now)
  }

  function Run(db: Db, limits: Limits, steps: seq<Timed>): Db {
    if |steps| == 0 then db
    else
      var n := |steps| - 1;
      Apply(Run(db, limits, steps[..n]), limits, steps[n].now, steps[n].step)
  }

  /** The clock never goes back, starting from `start`. */
  predicate ClockForward(start: int, steps: seq<Timed>) {
    && (forall k :: 0 <= k < |steps| ==> start <= steps[k].now)
    && (forall j, k :: 0 <= j < k < |steps| ==> steps[j].now <= steps[k].now)
  }

  function LastTime(start: int, steps: seq<Timed>): int {
    if |steps| == 0 then start else steps[|steps| - 1].now
  }
}
