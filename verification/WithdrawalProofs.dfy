/** What every run of the withdrawal steps keeps: budgets over approval time,
    withdrawal and payout in lockstep, one confirmation entry per confirmed
    withdrawal, and conservation of the withdrawable balance. */
module WithdrawalProofs {
  import opened Basics
  import opened Withdrawals

  // ---------------------------------------------------------------------
  // Weights
  // ---------------------------------------------------------------------

  predicate Approved(w: Withdrawal) { w.status in {PayoutCreated, Submitted, Confirmed, Failed} }

  /** Approved at time `t` for some `t` of the bucket, and not failed since. */
  predicate LiveApproval(w: Withdrawal) { w.status in {PayoutCreated, Submitted, Confirmed} && w.approvedAt.Some? }

  function ApprovedInHour(h: int): Withdrawal -> int {
    (w: Withdrawal) => if LiveApproval(w) && Hour(w.approvedAt.value) == h then w.amount else 0
  }

  function ApprovedInDay(d: int): Withdrawal -> int {
    (w: Withdrawal) => if LiveApproval(w) && Day(w.approvedAt.value) == d then w.amount else 0
  }

  function ApprovedForUser(account: nat, d: int): Withdrawal -> int {
    (w: Withdrawal) =>
      if LiveApproval(w) && w.account == account && Day(w.approvedAt.value) == d then w.amount else 0
  }

  /** In a live status, with a processing time: what the budget query selects. */
  predicate LiveProcessed(w: Withdrawal) { w.status in {PayoutCreated, Submitted, Confirmed} && w.processedAt.Some? }

  function ProcessedInHour(h: int): Withdrawal -> int {
    (w: Withdrawal) => if LiveProcessed(w) && Hour(w.processedAt.value) == h then w.amount else 0
  }

  function ProcessedInDay(d: int): Withdrawal -> int {
    (w: Withdrawal) => if LiveProcessed(w) && Day(w.processedAt.value) == d then w.amount else 0
  }

  function ProcessedForUser(account: nat, d: int): Withdrawal -> int {
    (w: Withdrawal) =>
      if LiveProcessed(w) && w.account == account && Day(w.processedAt.value) == d then w.amount else 0
  }

  function PayoutFor(id: nat): Payout -> int { (p: Payout) => Indicator(p.withdrawal == id) }

  function PayoutWith(signature: string): Payout -> int { (p: Payout) => Indicator(p.signature == Some(signature)) }

  /** `who` narrows the count to an account and an amount. */
  function ConfirmedEntry(signature: string, who: Option<(nat, int)>): Entry -> int {
    (e: Entry) => Indicator(e.kind == WithdrawalConfirmed && e.ref == signature
                            && (who.None? || who.value == (e.account, e.amount)))
  }

  function ConfirmedRow(signature: string, who: Option<(nat, int)>): Withdrawal -> int {
    (w: Withdrawal) => Indicator(w.status == Confirmed && w.signature == Some(signature)
                                 && (who.None? || who.value == (w.account, w.amount)))
  }

  function Outstanding(account: nat): Withdrawal -> int {
    (w: Withdrawal) => if w.account == account && w.status != Rejected then w.amount else 0
  }

  // ---------------------------------------------------------------------
  // Invariants
  // ---------------------------------------------------------------------

  /** A row at clock `t`: approved rows were approved before they were last
      processed, and neither lies in the future. */
  predicate RowSound(w: Withdrawal, t: int) {
    && w.amount > 0
    && (Approved(w) <==> w.approvedAt.Some?)
    && (Approved(w) ==> w.processedAt.Some? && w.approvedAt.value <= w.processedAt.value <= t)
    && (!Approved(w) ==> w.signature.None?)
  }

  predicate StatusesAgree(w: Status, p: PayoutStatus) {
    match p
    case Created => w == PayoutCreated
    case Sent => w == Submitted
    case Settled => w == Confirmed
    case Broken => w == Failed
  }

  predicate Paired(w: Withdrawal, p: Payout) {
    && p.wallet == w.wallet && p.amount == w.amount && p.signature == w.signature
    && StatusesAgree(w.status, p.status)
    && (p.status == Created ==> p.signature.None?)
    && (p.status in {Sent, Settled} ==> p.signature.Some?)
  }

  ghost predicate RowsSound(db: Db, t: int) {
    forall i :: 0 <= i < |db.withdrawals| ==> RowSound(db.withdrawals[i], t)
  }

  ghost predicate PayoutsPaired(db: Db) {
    && PayoutsPoint(db)
    && (forall j :: 0 <= j < |db.payouts| ==> Paired(db.withdrawals[db.payouts[j].withdrawal], db.payouts[j]))
  }

  /** A withdrawal has exactly one payout when approved and none before. */
  ghost predicate OnePayoutEach(db: Db) {
    forall id: nat :: id < |db.withdrawals| ==>
      Sum(db.payouts, PayoutFor(id)) == Indicator(Approved(db.withdrawals[id]))
  }

  ghost predicate SignaturesUnique(db: Db) {
    forall s :: Sum(db.payouts, PayoutWith(s)) <= 1
  }

  ghost predicate ConfirmationsRecorded(db: Db) {
    forall s, who :: Sum(db.ledger, ConfirmedEntry(s, who)) == Sum(db.withdrawals, ConfirmedRow(s, who))
  }

  ghost predicate Sound(db: Db, t: int) {
    RowsSound(db, t) && PayoutsPaired(db) && OnePayoutEach(db) && SignaturesUnique(db) && ConfirmationsRecorded(db)
  }

  /** A total that is zero, or within the limit. */
  predicate Within(total: int, limit: int) { total > 0 ==> total <= limit }

  ghost predicate BudgetsHeld(db: Db, limits: Limits) {
    && (forall h :: Within(Sum(db.withdrawals, ApprovedInHour(h)), limits.hourly))
    && (forall d :: Within(Sum(db.withdrawals, ApprovedInDay(d)), limits.daily))
    && (forall a, d :: Within(Sum(db.withdrawals, ApprovedForUser(a, d)), limits.userDaily))
  }

  /** Per account: what can still be withdrawn plus everything asked for and not rejected. */
  ghost function Entitled(db: Db, account: nat): int {
    Balance(db.withdrawable, account) + Sum(db.withdrawals, Outstanding(account))
  }

  // ---------------------------------------------------------------------
  // The budget the batch computes covers the approvals of the current hour and day
  // ---------------------------------------------------------------------

  lemma {:induction false} BudgetIsSum(rows: seq<Withdrawal>, now: int)
    ensures BudgetOf(rows, now).hourly == Sum(rows, ProcessedInHour(Hour(now)))
    ensures BudgetOf(rows, now).daily == Sum(rows, ProcessedInDay(Day(now)))
    ensures forall a: nat :: Balance(BudgetOf(rows, now).userDaily, a) == Sum(rows, ProcessedForUser(a, Day(now)))
  {
    if |rows| > 0 {
      BudgetIsSum(rows[..|rows| - 1], now);
    }
  }

  /** Buckets are contiguous: what lies between two times of one bucket lies in it. */
  lemma BucketsContiguous(a: int, b: int, now: int)
    requires a <= b <= now
    ensures Hour(a) == Hour(now) ==> Hour(b) == Hour(now)
    ensures Day(a) == Day(now) ==> Day(b) == Day(now)
    ensures 3600 * Hour(now) <= now < 3600 * (Hour(now) + 1) && 24 * Day(now) <= Hour(now) < 24 * (Day(now) + 1)
  {
  }

  ghost predicate Covers(batch: Batch, now: int) {
    && Sum(batch.db.withdrawals, ApprovedInHour(Hour(now))) <= batch.budget.hourly
    && Sum(batch.db.withdrawals, ApprovedInDay(Day(now))) <= batch.budget.daily
    && (forall a :: Sum(batch.db.withdrawals, ApprovedForUser(a, Day(now))) <= Balance(batch.budget.userDaily, a))
  }

  /** Submission may have moved `processed_at` forward, never out of the past: the
      batch counts every approval of the current hour and day. */
  lemma BudgetCoversApprovals(db: Db, t: int, now: int)
    requires RowsSound(db, t) && t <= now
    ensures Covers(Batch(db, BudgetOf(db.withdrawals, now)), now)
  {
    var ws := db.withdrawals;
    BudgetIsSum(ws, now);
    forall i | 0 <= i < |ws| && LiveApproval(ws[i])
      ensures Hour(ws[i].approvedAt.value) == Hour(now) ==> Hour(ws[i].processedAt.value) == Hour(now)
      ensures Day(ws[i].approvedAt.value) == Day(now) ==> Day(ws[i].processedAt.value) == Day(now)
    {
      BucketsContiguous(ws[i].approvedAt.value, ws[i].processedAt.value, now);
    }
    SumAtMost(ws, ApprovedInHour(Hour(now)), ProcessedInHour(Hour(now)));
    SumAtMost(ws, ApprovedInDay(Day(now)), ProcessedInDay(Day(now)));
    forall a ensures Sum(ws, ApprovedForUser(a, Day(now))) <= Balance(BudgetOf(ws, now).userDaily, a) {
      SumAtMost(ws, ApprovedForUser(a, Day(now)), ProcessedForUser(a, Day(now)));
    }
  }

  // ---------------------------------------------------------------------
  // Effect of writing one row
  // ---------------------------------------------------------------------

  /** A row write that adds no live approval lowers no budget. */
  lemma BudgetsAfterWrite(db: Db, limits: Limits, id: nat, row: Withdrawal)
    requires BudgetsHeld(db, limits) && id < |db.withdrawals|
    requires row.account == db.withdrawals[id].account && row.amount == db.withdrawals[id].amount > 0
    requires LiveApproval(row) ==> LiveApproval(db.withdrawals[id]) && row.approvedAt == db.withdrawals[id].approvedAt
    ensures BudgetsHeld(SetRow(db, id, row), limits)
  {
    var ws := db.withdrawals;
    forall h ensures Within(Sum(ws[id := row], ApprovedInHour(h)), limits.hourly) {
      SumUpdate(ws, id, row, ApprovedInHour(h));
    }
    forall d ensures Within(Sum(ws[id := row], ApprovedInDay(d)), limits.daily) {
      SumUpdate(ws, id, row, ApprovedInDay(d));
    }
    forall a, d ensures Within(Sum(ws[id := row], ApprovedForUser(a, d)), limits.userDaily) {
      SumUpdate(ws, id, row, ApprovedForUser(a, d));
    }
  }

  /** A row write that changes neither status nor identity keeps the batch covered. */
  lemma CoversAfterWrite(batch: Batch, now: int, id: nat, row: Withdrawal)
    requires Covers(batch, now) && id < |batch.db.withdrawals|
    requires !LiveApproval(row) && !LiveApproval(batch.db.withdrawals[id])
    ensures Covers(batch.(db := SetRow(batch.db, id, row)), now)
  {
    var ws := batch.db.withdrawals;
    SumUpdate(ws, id, row, ApprovedInHour(Hour(now)));
    SumUpdate(ws, id, row, ApprovedInDay(Day(now)));
    forall a ensures Sum(ws[id := row], ApprovedForUser(a, Day(now))) == Sum(ws, ApprovedForUser(a, Day(now))) {
      SumUpdate(ws, id, row, ApprovedForUser(a, Day(now)));
    }
  }

  /** Approving within the three remaining budgets keeps all three limits. */
  lemma BudgetsAfterApproval(batch: Batch, limits: Limits, now: int, id: nat, row: Withdrawal, b: Budget)
    requires BudgetsHeld(batch.db, limits) && Covers(batch, now) && id < |batch.db.withdrawals|
    requires !LiveApproval(batch.db.withdrawals[id]) && LiveApproval(row) && row.approvedAt == Some(now)
    requires b.hourly == batch.budget.hourly + row.amount <= limits.hourly
    requires b.daily == batch.budget.daily + row.amount <= limits.daily
    requires b.userDaily == batch.budget.userDaily[row.account := Balance(batch.budget.userDaily, row.account) + row.amount]
    requires Balance(b.userDaily, row.account) <= limits.userDaily
    ensures BudgetsHeld(SetRow(batch.db, id, row), limits)
    ensures Covers(Batch(SetRow(batch.db, id, row), b), now)
  {
    var ws := batch.db.withdrawals;
    forall h ensures Sum(ws[id := row], ApprovedInHour(h)) ==
      Sum(ws, ApprovedInHour(h)) + if h == Hour(now) then row.amount else 0
    {
      SumUpdate(ws, id, row, ApprovedInHour(h));
    }
    forall d ensures Sum(ws[id := row], ApprovedInDay(d)) ==
      Sum(ws, ApprovedInDay(d)) + if d == Day(now) then row.amount else 0
    {
      SumUpdate(ws, id, row, ApprovedInDay(d));
    }
    forall a, d ensures Sum(ws[id := row], ApprovedForUser(a, d)) ==
      Sum(ws, ApprovedForUser(a, d)) + if a == row.account && d == Day(now) then row.amount else 0
    {
      SumUpdate(ws, id, row, ApprovedForUser(a, d));
    }
  }

  // ---------------------------------------------------------------------
  // Lockstep after writing one row
  // ---------------------------------------------------------------------

  lemma NoPayoutBeforeApproval(db: Db, id: nat)
    requires OnePayoutEach(db) && id < |db.withdrawals| && !Approved(db.withdrawals[id])
    ensures forall j :: 0 <= j < |db.payouts| ==> db.payouts[j].withdrawal != id
  {
    forall j | 0 <= j < |db.payouts| ensures db.payouts[j].withdrawal != id {
      SumOneRow(db.payouts, j, PayoutFor(id));
    }
  }

  lemma OnlyPayout(db: Db, j: nat, k: nat)
    requires PayoutsPaired(db) && OnePayoutEach(db)
    requires j < |db.payouts| && k < |db.payouts| && j != k
    ensures db.payouts[j].withdrawal != db.payouts[k].withdrawal
  {
    var id := db.payouts[j].withdrawal;
    SumTwoRows(db.payouts, Min(j, k), Max(j, k), PayoutFor(id));
  }

  lemma SoundLater(db: Db, t: int, t': int)
    requires Sound(db, t) && t <= t'
    ensures Sound(db, t')
  {
  }

  /** Rewriting a row that is not approved, before and after. */
  lemma SoundAfterQuietWrite(db: Db, t: int, id: nat, row: Withdrawal)
    requires Sound(db, t) && id < |db.withdrawals|
    requires !Approved(db.withdrawals[id]) && !Approved(row) && RowSound(row, t)
    ensures Sound(SetRow(db, id, row), t)
  {
    NoPayoutBeforeApproval(db, id);
    forall s, who ensures Sum(db.withdrawals[id := row], ConfirmedRow(s, who)) == Sum(db.withdrawals, ConfirmedRow(s, who)) {
      SumUpdate(db.withdrawals, id, row, ConfirmedRow(s, who));
    }
  }

  /** The ledger grew by exactly the confirmations that row `w` becoming `w'` adds. */
  ghost predicate LedgerFollows(ledger: seq<Entry>, ledger': seq<Entry>, w: Withdrawal, w': Withdrawal) {
    forall s, who ::
      Sum(ledger', ConfirmedEntry(s, who)) ==
      Sum(ledger, ConfirmedEntry(s, who)) + ConfirmedRow(s, who)(w') - ConfirmedRow(s, who)(w)
  }

  lemma LedgerFollowsEntry(ledger: seq<Entry>, e: Entry, w: Withdrawal, w': Withdrawal)
    requires w.status != Confirmed
    requires e.kind == WithdrawalConfirmed ==>
      w'.status == Confirmed && w'.signature == Some(e.ref) && (w'.account, w'.amount) == (e.account, e.amount)
    requires e.kind != WithdrawalConfirmed ==> w'.status != Confirmed
    ensures LedgerFollows(ledger, ledger + [e], w, w')
  {
  }

  lemma RecordedAfterWrite(db: Db, id: nat, row: Withdrawal, ledger': seq<Entry>)
    requires ConfirmationsRecorded(db) && id < |db.withdrawals|
    requires LedgerFollows(db.ledger, ledger', db.withdrawals[id], row)
    ensures ConfirmationsRecorded(db.(withdrawals := db.withdrawals[id := row], ledger := ledger'))
  {
    forall s, who ensures Sum(ledger', ConfirmedEntry(s, who)) == Sum(db.withdrawals[id := row], ConfirmedRow(s, who)) {
      SumUpdate(db.withdrawals, id, row, ConfirmedRow(s, who));
    }
  }

  lemma FreshSignature(payouts: seq<Payout>, signature: string)
    requires !SignatureTaken(payouts, signature)
    ensures Sum(payouts, PayoutWith(signature)) == 0
  {
  }

  /** Approving row `id`: it gets its one payout. */
  lemma SoundAfterApproval(db: Db, t: int, id: nat, row: Withdrawal, p: Payout, ledger': seq<Entry>)
    requires Sound(db, t) && id < |db.withdrawals|
    requires !Approved(db.withdrawals[id]) && Approved(row) && RowSound(row, t)
    requires p.withdrawal == id && Paired(row, p)
    requires p.signature.Some? ==> !SignatureTaken(db.payouts, p.signature.value)
    requires LedgerFollows(db.ledger, ledger', db.withdrawals[id], row)
    ensures Sound(Db(db.withdrawable, db.withdrawals[id := row], db.payouts + [p], ledger'), t)
  {
    NoPayoutBeforeApproval(db, id);
    RecordedAfterWrite(db, id, row, ledger');
    forall w: nat | w < |db.withdrawals| ensures Sum(db.payouts + [p], PayoutFor(w)) == Sum(db.payouts, PayoutFor(w)) + Indicator(w == id) {
      SumAppend(db.payouts, p, PayoutFor(w));
    }
    forall s ensures Sum(db.payouts + [p], PayoutWith(s)) <= 1 {
      SumAppend(db.payouts, p, PayoutWith(s));
      if p.signature == Some(s) { FreshSignature(db.payouts, s); }
    }
  }

  /** Moving payout `j` and its withdrawal together. */
  lemma SoundAfterMove(db: Db, t: int, j: nat, p: Payout, row: Withdrawal, ledger': seq<Entry>)
    requires Sound(db, t) && j < |db.payouts|
    requires p.withdrawal == db.payouts[j].withdrawal
    requires Approved(row) && RowSound(row, t) && Paired(row, p)
    requires p.signature == db.payouts[j].signature || (p.signature.Some? && !SignatureTaken(db.payouts, p.signature.value))
    requires LedgerFollows(db.ledger, ledger', db.withdrawals[p.withdrawal], row)
    ensures Sound(Db(db.withdrawable, db.withdrawals[p.withdrawal := row], db.payouts[j := p], ledger'), t)
  {
    var id := p.withdrawal;
    var payouts' := db.payouts[j := p];
    RecordedAfterWrite(db, id, row, ledger');
    forall k | 0 <= k < |db.payouts| && k != j ensures db.payouts[k].withdrawal != id {
      OnlyPayout(db, j, k);
    }
    forall w: nat | w < |db.withdrawals| ensures Sum(payouts', PayoutFor(w)) == Sum(db.payouts, PayoutFor(w)) {
      SumUpdate(db.payouts, j, p, PayoutFor(w));
    }
    forall s ensures Sum(payouts', PayoutWith(s)) <= 1 {
      SumUpdate(db.payouts, j, p, PayoutWith(s));
      if p.signature == Some(s) && p.signature != db.payouts[j].signature { FreshSignature(db.payouts, s); }
    }
    assert Approved(db.withdrawals[id]) by {
      assert Paired(db.withdrawals[id], db.payouts[j]);
    }
  }

  // ---------------------------------------------------------------------
  // Every step keeps the invariants
  // ---------------------------------------------------------------------

  lemma SoundAfterRequest(db: Db, db': Db, t: int, row: Withdrawal, e: Entry)
    requires Sound(db, t) && !Approved(row) && RowSound(row, t) && e.kind != WithdrawalConfirmed
    requires db'.withdrawals == db.withdrawals + [row] && db'.payouts == db.payouts && db'.ledger == db.ledger + [e]
    ensures Sound(db', t)
  {
    var ws := db.withdrawals;
    forall id: nat | id < |db'.withdrawals| ensures Sum(db'.payouts, PayoutFor(id)) == Indicator(Approved(db'.withdrawals[id])) {
      if id == |ws| && Sum(db.payouts, PayoutFor(id)) != 0 {
        var j := SumWitness(db.payouts, PayoutFor(id));
      }
    }
    forall s, who ensures Sum(db'.ledger, ConfirmedEntry(s, who)) == Sum(db'.withdrawals, ConfirmedRow(s, who)) {
      SumAppend(ws, row, ConfirmedRow(s, who));
      SumAppend(db.ledger, e, ConfirmedEntry(s, who));
    }
  }

  lemma BudgetsAfterRequest(db: Db, db': Db, limits: Limits, row: Withdrawal)
    requires BudgetsHeld(db, limits) && !LiveApproval(row) && db'.withdrawals == db.withdrawals + [row]
    ensures BudgetsHeld(db', limits)
  {
    var ws := db.withdrawals;
    forall h ensures Within(Sum(db'.withdrawals, ApprovedInHour(h)), limits.hourly) { SumAppend(ws, row, ApprovedInHour(h)); }
    forall d ensures Within(Sum(db'.withdrawals, ApprovedInDay(d)), limits.daily) { SumAppend(ws, row, ApprovedInDay(d)); }
    forall a, d ensures Within(Sum(db'.withdrawals, ApprovedForUser(a, d)), limits.userDaily) {
      SumAppend(ws, row, ApprovedForUser(a, d));
    }
  }

  lemma EntitledAfterRequest(db: Db, db': Db, row: Withdrawal)
    requires row.status != Rejected && db'.withdrawals == db.withdrawals + [row]
    requires db'.withdrawable == db.withdrawable[row.account := Balance(db.withdrawable, row.account) - row.amount]
    ensures forall a :: Entitled(db', a) == Entitled(db, a)
  {
    forall a ensures Entitled(db', a) == Entitled(db, a) { SumAppend(db.withdrawals, row, Outstanding(a)); }
  }

  lemma RequestKeeps(db: Db, limits: Limits, t: int, account: nat, amount: int, wallet: string, manual: bool, db': Db)
    requires Sound(db, t) && BudgetsHeld(db, limits)
    requires CreateWithdrawal(db, account, amount, wallet, manual) == Ok(db')
    ensures Keeps(db, db', limits, t)
  {
    var row := db'.withdrawals[|db.withdrawals|];
    SoundAfterRequest(db, db', t, row, Entry(account, WithdrawalRequested, amount, ""));
    BudgetsAfterRequest(db, db', limits, row);
    EntitledAfterRequest(db, db', row);
  }

  lemma EntitledAfterReview(db: Db, db': Db, id: nat, row: Withdrawal)
    requires id < |db.withdrawals| && db'.withdrawals == db.withdrawals[id := row] && db.withdrawals[id].status != Rejected
    requires row.account == db.withdrawals[id].account && row.amount == db.withdrawals[id].amount
    requires db'.withdrawable == if row.status == Rejected
                                 then db.withdrawable[row.account := Balance(db.withdrawable, row.account) + row.amount] else db.withdrawable
    ensures forall a :: Entitled(db', a) == Entitled(db, a)
  {
    forall a ensures Entitled(db', a) == Entitled(db, a) { SumUpdate(db.withdrawals, id, row, Outstanding(a)); }
  }

  lemma ReviewKeeps(db: Db, limits: Limits, t: int, id: nat, approve: bool, reason: string, db': Db)
    requires Sound(db, t) && BudgetsHeld(db, limits)
    requires ReviewWithdrawal(db, id, approve, reason) == Ok(db')
    ensures Keeps(db, db', limits, t)
  {
    var row := db'.withdrawals[id];
    assert RowSound(db.withdrawals[id], t);
    SoundAfterQuietWrite(db, t, id, row);
    BalancesDoNotMatter(SetRow(db, id, row), db', t);
    BudgetsAfterWrite(db, limits, id, row);
    EntitledAfterReview(db, db', id, row);
  }

  /** The invariants do not look at the withdrawable balances. */
  lemma BalancesDoNotMatter(db: Db, db': Db, t: int)
    requires Sound(db, t) && db' == db.(withdrawable := db'.withdrawable)
    ensures Sound(db', t)
  {
  }

  /** What every step keeps, from `db` to `db'`. */
  ghost predicate Keeps(db: Db, db': Db, limits: Limits, t: int) {
    Sound(db', t) && BudgetsHeld(db', limits) && forall a :: Entitled(db', a) == Entitled(db, a)
  }

  lemma EntitledAfterWrite(db: Db, db': Db, id: nat, row: Withdrawal)
    requires id < |db.withdrawals| && db'.withdrawals == db.withdrawals[id := row] && db'.withdrawable == db.withdrawable
    requires row.account == db.withdrawals[id].account && row.amount == db.withdrawals[id].amount
    requires row.status != Rejected && db.withdrawals[id].status != Rejected
    ensures forall a :: Entitled(db', a) == Entitled(db, a)
  {
    forall a ensures Entitled(db', a) == Entitled(db, a) { SumUpdate(db.withdrawals, id, row, Outstanding(a)); }
  }

  lemma ApproveLedger(batch: Batch, pick: Pick, now: int, stub: bool, batch': Batch)
    requires pick.id < |batch.db.withdrawals| && batch.db.withdrawals[pick.id].status == Queued
    requires Approve(batch, pick, now, stub) == Ok(batch')
    ensures LedgerFollows(batch.db.ledger, batch'.db.ledger, batch.db.withdrawals[pick.id], batch'.db.withdrawals[pick.id])
  {
    var w, row := batch.db.withdrawals[pick.id], batch'.db.withdrawals[pick.id];
    if stub {
      LedgerFollowsEntry(batch.db.ledger, Entry(w.account, WithdrawalConfirmed, w.amount, pick.signature), w, row);
    }
  }

  lemma ApproveKeeps(batch: Batch, pick: Pick, limits: Limits, now: int, stub: bool, batch': Batch)
    requires pick.id < |batch.db.withdrawals| && batch.db.withdrawals[pick.id].status == Queued
    requires Sound(batch.db, now) && BudgetsHeld(batch.db, limits) && Covers(batch, now)
    requires var row := batch.db.withdrawals[pick.id];
      && Balance(batch.budget.userDaily, row.account) + row.amount <= limits.userDaily
      && batch.budget.hourly + row.amount <= limits.hourly
      && batch.budget.daily + row.amount <= limits.daily
    requires Approve(batch, pick, now, stub) == Ok(batch')
    ensures Keeps(batch.db, batch'.db, limits, now) && Covers(batch', now)
  {
    var db, id := batch.db, pick.id;
    var p := batch'.db.payouts[|db.payouts|];
    assert RowSound(db.withdrawals[id], now);
    ApproveLedger(batch, pick, now, stub, batch');
    ApprovedKeeps(batch, limits, now, id, batch'.db.withdrawals[id], p, batch');
  }

  /** The invariants after a row was approved with its payout. */
  lemma ApprovedKeeps(batch: Batch, limits: Limits, now: int, id: nat, row: Withdrawal, p: Payout, batch': Batch)
    requires id < |batch.db.withdrawals| && batch.db.withdrawals[id].status == Queued
    requires Sound(batch.db, now) && BudgetsHeld(batch.db, limits) && Covers(batch, now)
    requires batch'.db == Db(batch.db.withdrawable, batch.db.withdrawals[id := row], batch.db.payouts + [p], batch'.db.ledger)
    requires Approved(row) && LiveApproval(row) && row.approvedAt == Some(now) && RowSound(row, now) && row.status != Rejected
    requires row.account == batch.db.withdrawals[id].account && row.amount == batch.db.withdrawals[id].amount
    requires p.withdrawal == id && Paired(row, p) && (p.signature.Some? ==> !SignatureTaken(batch.db.payouts, p.signature.value))
    requires LedgerFollows(batch.db.ledger, batch'.db.ledger, batch.db.withdrawals[id], row)
    requires batch'.budget.hourly == batch.budget.hourly + row.amount <= limits.hourly
    requires batch'.budget.daily == batch.budget.daily + row.amount <= limits.daily
    requires batch'.budget.userDaily == batch.budget.userDaily[row.account := Balance(batch.budget.userDaily, row.account) + row.amount]
    requires Balance(batch'.budget.userDaily, row.account) <= limits.userDaily
    ensures Keeps(batch.db, batch'.db, limits, now) && Covers(batch', now)
  {
    SoundAfterApproval(batch.db, now, id, row, p, batch'.db.ledger);
    BudgetsAfterApproval(batch, limits, now, id, row, batch'.budget);
    EntitledAfterWrite(batch.db, batch'.db, id, row);
  }

  /** A picked row is approved within every limit, or delayed, or handed to a reviewer. */
  predicate Delayed(batch: Batch, batch': Batch, id: nat, row: Withdrawal) {
    && id < |batch.db.withdrawals| && batch' == batch.(db := SetRow(batch.db, id, row))
    && row == batch.db.withdrawals[id].(status := row.status, reason := row.reason)
    && (row.status == batch.db.withdrawals[id].status || row.status == ManualReview)
  }

  predicate FitsAll(batch: Batch, limits: Limits, w: Withdrawal) {
    && Balance(batch.budget.userDaily, w.account) + w.amount <= limits.userDaily
    && batch.budget.hourly + w.amount <= limits.hourly && batch.budget.daily + w.amount <= limits.daily
  }

  lemma ProcessOneShape(batch: Batch, pick: Pick, limits: Limits, now: int, stub: bool, batch': Batch)
    requires pick.id < |batch.db.withdrawals| && ProcessOne(batch, pick, limits, now, stub) == Ok(batch')
    ensures pick.id < |batch'.db.withdrawals|
    ensures if Approved(batch'.db.withdrawals[pick.id]) && !Approved(batch.db.withdrawals[pick.id])
            then Approve(batch, pick, now, stub) == Ok(batch') && FitsAll(batch, limits, batch.db.withdrawals[pick.id])
            else Delayed(batch, batch', pick.id, batch'.db.withdrawals[pick.id]) || Approved(batch.db.withdrawals[pick.id])
  {
  }

  lemma ProcessOneKeeps(batch: Batch, pick: Pick, limits: Limits, now: int, stub: bool)
    requires pick.id < |batch.db.withdrawals| && batch.db.withdrawals[pick.id].status == Queued
    requires Sound(batch.db, now) && BudgetsHeld(batch.db, limits) && Covers(batch, now)
    requires ProcessOne(batch, pick, limits, now, stub).Ok?
    ensures var batch' := ProcessOne(batch, pick, limits, now, stub).value;
      Keeps(batch.db, batch'.db, limits, now) && Covers(batch', now)
  {
    var batch' := ProcessOne(batch, pick, limits, now, stub).value;
    var row := batch'.db.withdrawals[pick.id];
    ProcessOneShape(batch, pick, limits, now, stub, batch');
    if Approved(row) {
      ApproveKeeps(batch, pick, limits, now, stub, batch');
    } else {
      DelayKeeps(batch, limits, now, pick.id, row);
    }
  }

  /** A queued row is delayed or handed to a reviewer. */
  lemma DelayKeeps(batch: Batch, limits: Limits, now: int, id: nat, row: Withdrawal)
    requires id < |batch.db.withdrawals| && batch.db.withdrawals[id].status == Queued
    requires Sound(batch.db, now) && BudgetsHeld(batch.db, limits) && Covers(batch, now)
    requires row == batch.db.withdrawals[id].(status := row.status, reason := row.reason)
    requires row.status == Queued || row.status == ManualReview
    ensures var batch' := batch.(db := SetRow(batch.db, id, row));
      Keeps(batch.db, batch'.db, limits, now) && Covers(batch', now)
  {
    assert RowSound(batch.db.withdrawals[id], now);
    SoundAfterQuietWrite(batch.db, now, id, row);
    BudgetsAfterWrite(batch.db, limits, id, row);
    CoversAfterWrite(batch, now, id, row);
    EntitledAfterWrite(batch.db, SetRow(batch.db, id, row), id, row);
  }

  lemma KeepsThrough(db: Db, mid: Db, db': Db, limits: Limits, t: int)
    requires Keeps(db, mid, limits, t) && Keeps(mid, db', limits, t)
    ensures Keeps(db, db', limits, t)
  {
  }

  lemma ProcessOneFrame(batch: Batch, pick: Pick, limits: Limits, now: int, stub: bool, batch': Batch)
    requires pick.id < |batch.db.withdrawals| && ProcessOne(batch, pick, limits, now, stub) == Ok(batch')
    ensures |batch'.db.withdrawals| == |batch.db.withdrawals|
    ensures forall i :: 0 <= i < |batch.db.withdrawals| && i != pick.id ==> batch'.db.withdrawals[i] == batch.db.withdrawals[i]
  {
  }

  /** Rows the batch did not select are not written. */
  lemma {:induction false} ProcessPicksFrame(db: Db, picks: seq<Pick>, limits: Limits, now: int, stub: bool, i: nat)
    requires forall k :: 0 <= k < |picks| ==> picks[k].id < |db.withdrawals| && picks[k].id != i
    requires i < |db.withdrawals|
    requires ProcessPicks(db, picks, limits, now, stub).Ok?
    ensures ProcessPicks(db, picks, limits, now, stub).value.db.withdrawals[i] == db.withdrawals[i]
  {
    if |picks| > 0 {
      var n := |picks| - 1;
      ProcessPicksFrame(db, picks[..n], limits, now, stub, i);
      var mid := ProcessPicks(db, picks[..n], limits, now, stub).value;
      ProcessOneFrame(mid, picks[n], limits, now, stub, ProcessPicks(db, picks, limits, now, stub).value);
    }
  }

  lemma {:induction false} ProcessPicksKeeps(
      db: Db, picks: seq<Pick>, limits: Limits, now: int, stub: bool, batch: Batch)
    requires SelectsQueued(db, picks)
    requires Sound(db, now) && BudgetsHeld(db, limits)
    requires ProcessPicks(db, picks, limits, now, stub) == Ok(batch)
    ensures Keeps(db, batch.db, limits, now) && Covers(batch, now)
  {
    if |picks| == 0 {
      BudgetCoversApprovals(db, now, now);
    } else {
      var n := |picks| - 1;
      var head := picks[..n];
      var mid := ProcessPicks(db, head, limits, now, stub).value;
      assert SelectsQueued(db, head);
      ProcessPicksKeeps(db, head, limits, now, stub, mid);
      ProcessPicksFrame(db, head, limits, now, stub, picks[n].id);
      ProcessOneKeeps(mid, picks[n], limits, now, stub);
      KeepsThrough(db, mid.db, batch.db, limits, now);
    }
  }

  /** The running totals are exactly the sums over the rows as they stand in the batch. */
  ghost predicate Exact(batch: Batch, now: int) {
    var ws := batch.db.withdrawals;
    && batch.budget.hourly == Sum(ws, ProcessedInHour(Hour(now)))
    && batch.budget.daily == Sum(ws, ProcessedInDay(Day(now)))
    && (forall a: nat :: Balance(batch.budget.userDaily, a) == Sum(ws, ProcessedForUser(a, Day(now))))
  }

  lemma ExactAfterWrite(batch: Batch, now: int, id: nat, row: Withdrawal, batch': Batch)
    requires Exact(batch, now) && id < |batch.db.withdrawals| && !CountsForBudget(batch.db.withdrawals[id])
    requires batch'.db.withdrawals == batch.db.withdrawals[id := row]
    requires batch'.budget == AddProcessed(batch.budget, row, now)
    ensures Exact(batch', now)
  {
    var ws := batch.db.withdrawals;
    SumUpdate(ws, id, row, ProcessedInHour(Hour(now)));
    SumUpdate(ws, id, row, ProcessedInDay(Day(now)));
    forall a: nat ensures Sum(ws[id := row], ProcessedForUser(a, Day(now))) ==
      Sum(ws, ProcessedForUser(a, Day(now))) + ProcessedForUser(a, Day(now))(row)
    {
      SumUpdate(ws, id, row, ProcessedForUser(a, Day(now)));
    }
  }

  lemma ProcessOneExact(batch: Batch, pick: Pick, limits: Limits, now: int, stub: bool, batch': Batch)
    requires Exact(batch, now) && pick.id < |batch.db.withdrawals| && batch.db.withdrawals[pick.id].status == Queued
    requires ProcessOne(batch, pick, limits, now, stub) == Ok(batch')
    ensures Exact(batch', now)
  {
    if Approve(batch, pick, now, stub) == Ok(batch') {
      ApproveExact(batch, pick, now, stub, batch');
    } else {
      ExactAfterWrite(batch, now, pick.id, batch'.db.withdrawals[pick.id], batch');
    }
  }

  lemma ApproveExact(batch: Batch, pick: Pick, now: int, stub: bool, batch': Batch)
    requires Exact(batch, now) && pick.id < |batch.db.withdrawals| && batch.db.withdrawals[pick.id].status == Queued
    requires Approve(batch, pick, now, stub) == Ok(batch')
    ensures Exact(batch', now)
  {
    var row := batch'.db.withdrawals[pick.id];
    assert CountsForBudget(row) && row.processedAt == Some(now);
    ExactAfterWrite(batch, now, pick.id, row, batch');
  }

  /** Within a batch the running totals never drift from the rows. */
  lemma {:induction false} RunningBudgetExact(db: Db, picks: seq<Pick>, limits: Limits, now: int, stub: bool, batch: Batch)
    requires SelectsQueued(db, picks) && ProcessPicks(db, picks, limits, now, stub) == Ok(batch)
    ensures Exact(batch, now)
  {
    if |picks| == 0 {
      BudgetIsSum(db.withdrawals, now);
    } else {
      var n := |picks| - 1;
      var mid := ProcessPicks(db, picks[..n], limits, now, stub).value;
      RunningBudgetExact(db, picks[..n], limits, now, stub, mid);
      ProcessPicksFrame(db, picks[..n], limits, now, stub, picks[n].id);
      ProcessOneExact(mid, picks[n], limits, now, stub, batch);
    }
  }

  /** The last row of a batch is approved exactly when it is within the single limit and, added to
      what the rows already show for its account's day, the hour and the day, within those limits. */
  lemma ApprovedIffWithinLimits(db: Db, picks: seq<Pick>, limits: Limits, now: int, stub: bool, mid: Batch, batch: Batch)
    requires SelectsQueued(db, picks) && |picks| > 0
    requires ProcessPicks(db, picks[..|picks| - 1], limits, now, stub) == Ok(mid)
    requires ProcessPicks(db, picks, limits, now, stub) == Ok(batch)
    ensures var id := picks[|picks| - 1].id;
      var ws, row := mid.db.withdrawals, db.withdrawals[id];
      Approved(batch.db.withdrawals[id]) <==>
      (row.amount <= limits.single
       && Sum(ws, ProcessedForUser(row.account, Day(now))) + row.amount <= limits.userDaily
       && Sum(ws, ProcessedInHour(Hour(now))) + row.amount <= limits.hourly
       && Sum(ws, ProcessedInDay(Day(now))) + row.amount <= limits.daily)
  {
    var n := |picks| - 1;
    RunningBudgetExact(db, picks[..n], limits, now, stub, mid);
    ProcessPicksFrame(db, picks[..n], limits, now, stub, picks[n].id);
    DecidedByLimits(mid, picks[n], limits, now, stub, batch);
  }

  lemma DecidedByLimits(batch: Batch, pick: Pick, limits: Limits, now: int, stub: bool, batch': Batch)
    requires pick.id < |batch.db.withdrawals| && batch.db.withdrawals[pick.id].status == Queued
    requires ProcessOne(batch, pick, limits, now, stub) == Ok(batch')
    ensures pick.id < |batch'.db.withdrawals|
    ensures Approved(batch'.db.withdrawals[pick.id]) <==>
      batch.db.withdrawals[pick.id].amount <= limits.single && FitsAll(batch, limits, batch.db.withdrawals[pick.id])
  {
  }

  /** A payout and its withdrawal move together. */
  lemma MoveKeeps(db: Db, db': Db, limits: Limits, now: int, j: nat, p: Payout, w: Withdrawal)
    requires Sound(db, now) && BudgetsHeld(db, limits) && j < |db.payouts| && p.withdrawal == db.payouts[j].withdrawal < |db.withdrawals|
    requires db' == Db(db.withdrawable, db.withdrawals[p.withdrawal := w], db.payouts[j := p], db'.ledger)
    requires var old_ := db.withdrawals[p.withdrawal];
      && w.account == old_.account && w.amount == old_.amount && w.status != Rejected && old_.status != Rejected
      && (LiveApproval(w) ==> LiveApproval(old_) && w.approvedAt == old_.approvedAt)
      && LedgerFollows(db.ledger, db'.ledger, old_, w)
    requires Approved(w) && RowSound(w, now) && Paired(w, p)
    requires p.signature == db.payouts[j].signature || (p.signature.Some? && !SignatureTaken(db.payouts, p.signature.value))
    ensures Keeps(db, db', limits, now)
  {
    SoundAfterMove(db, now, j, p, w, db'.ledger);
    BudgetsAfterWrite(db, limits, p.withdrawal, w);
    EntitledAfterWrite(db, db', p.withdrawal, w);
  }

  lemma SubmitOneKeeps(db: Db, s: Sending, limits: Limits, now: int, db': Db)
    requires Sound(db, now) && BudgetsHeld(db, limits)
    requires s.payout < |db.payouts| && db.payouts[s.payout].status == Created
    requires SubmitOne(db, s, now) == Ok(db')
    ensures Keeps(db, db', limits, now)
  {
    var p, p' := db.payouts[s.payout], db'.payouts[s.payout];
    var w, w' := db.withdrawals[p.withdrawal], db'.withdrawals[p.withdrawal];
    assert Paired(w, p) && RowSound(w, now);
    SubmitLedger(db, s, now, db');
    SubmitShape(db, s, now, db', w, w');
    MoveKeeps(db, db', limits, now, s.payout, p', w');
  }

  /** What one submission writes. */
  lemma SubmitShape(db: Db, s: Sending, now: int, db': Db, w: Withdrawal, w': Withdrawal)
    requires s.payout < |db.payouts| && db.payouts[s.payout].withdrawal < |db.withdrawals| && SubmitOne(db, s, now) == Ok(db')
    requires w == db.withdrawals[db.payouts[s.payout].withdrawal] && w' == db'.withdrawals[db.payouts[s.payout].withdrawal]
    requires db.payouts[s.payout].status == Created && Paired(w, db.payouts[s.payout]) && RowSound(w, now)
    ensures s.payout < |db'.payouts|
    ensures var p, p' := db.payouts[s.payout], db'.payouts[s.payout];
      && db' == Db(db.withdrawable, db.withdrawals[p.withdrawal := w'], db.payouts[s.payout := p'], db'.ledger)
      && p'.withdrawal == p.withdrawal && Paired(w', p') && RowSound(w', now)
      && w'.account == w.account && w'.amount == w.amount && Approved(w') && w'.approvedAt == w.approvedAt
      && (p'.signature == p.signature || (p'.signature.Some? && !SignatureTaken(db.payouts, p'.signature.value)))
  {
    assert db.withdrawals[db.payouts[s.payout].withdrawal := w] == db.withdrawals;
  }

  lemma SubmitLedger(db: Db, s: Sending, now: int, db': Db)
    requires s.payout < |db.payouts| && db.payouts[s.payout].withdrawal < |db.withdrawals| && SubmitOne(db, s, now) == Ok(db')
    requires db.withdrawals[db.payouts[s.payout].withdrawal].status == PayoutCreated
    ensures var id := db.payouts[s.payout].withdrawal;
      LedgerFollows(db.ledger, db'.ledger, db.withdrawals[id], db'.withdrawals[id])
  {
    var p := db.payouts[s.payout];
    var w, w' := db.withdrawals[p.withdrawal], db'.withdrawals[p.withdrawal];
    if s.outcome.Accepted? {
      LedgerFollowsEntry(db.ledger, Entry(w.account, WithdrawalSubmitted, p.amount, s.outcome.signature), w, w');
    }
  }

  lemma {:induction false} SubmitAllFrame(db: Db, list: seq<Sending>, now: int, j: nat)
    requires PayoutsPoint(db) && j < |db.payouts|
    requires forall k :: 0 <= k < |list| ==> list[k].payout < |db.payouts| && list[k].payout != j
    requires SubmitAll(db, list, now).Ok?
    ensures SubmitAll(db, list, now).value.payouts[j] == db.payouts[j]
  {
    if |list| > 0 {
      SubmitAllFrame(db, list[..|list| - 1], now, j);
    }
  }

  /** Different payouts of one status. */
  predicate PicksOnly(db: Db, list: seq<Sending>) {
    && (forall k :: 0 <= k < |list| ==> list[k].payout < |db.payouts| && db.payouts[list[k].payout].status == Created)
    && (forall j, k :: 0 <= j < k < |list| ==> list[j].payout != list[k].payout)
  }

  lemma LastUntouched(db: Db, list: seq<Sending>, now: int, mid: Db)
    requires PayoutsPoint(db) && |list| > 0 && PicksOnly(db, list) && SubmitAll(db, list[..|list| - 1], now) == Ok(mid)
    ensures PicksOnly(db, list[..|list| - 1])
    ensures list[|list| - 1].payout < |mid.payouts| && mid.payouts[list[|list| - 1].payout].status == Created
  {
    SubmitAllFrame(db, list[..|list| - 1], now, list[|list| - 1].payout);
  }

  lemma {:induction false} SubmitAllKeeps(db: Db, list: seq<Sending>, limits: Limits, now: int, db': Db)
    requires Sound(db, now) && BudgetsHeld(db, limits) && PicksOnly(db, list) && SubmitAll(db, list, now) == Ok(db')
    ensures Keeps(db, db', limits, now)
  {
    if |list| > 0 {
      var n := |list| - 1;
      var mid := SubmitAll(db, list[..n], now).value;
      LastUntouched(db, list, now, mid);
      SubmitAllKeeps(db, list[..n], limits, now, mid);
      SubmitOneKeeps(mid, list[n], limits, now, db');
      KeepsThrough(db, mid, db', limits, now);
    }
  }

  lemma ConfirmOneKeeps(db: Db, c: Check, limits: Limits, now: int, db': Db)
    requires Sound(db, now) && BudgetsHeld(db, limits)
    requires c.payout < |db.payouts| && db.payouts[c.payout].status == Sent && PayoutsPoint(db)
    requires db' == ConfirmOne(db, c, now)
    ensures Keeps(db, db', limits, now)
  {
    var p, p' := db.payouts[c.payout], db'.payouts[c.payout];
    var w, w' := db.withdrawals[p.withdrawal], db'.withdrawals[p.withdrawal];
    assert Paired(w, p) && RowSound(w, now);
    if c.status.Final? {
      LedgerFollowsEntry(db.ledger, Entry(w.account, WithdrawalConfirmed, p.amount, p.signature.value), w, w');
    }
    if !c.status.Pending? {
      MoveKeeps(db, db', limits, now, c.payout, p', w');
    }
  }

  lemma {:induction false} ConfirmAllFrame(db: Db, list: seq<Check>, now: int, j: nat)
    requires PayoutsPoint(db) && j < |db.payouts|
    requires forall k :: 0 <= k < |list| ==> list[k].payout < |db.payouts| && list[k].payout != j
    ensures ConfirmAll(db, list, now).payouts[j] == db.payouts[j]
  {
    if |list| > 0 {
      ConfirmAllFrame(db, list[..|list| - 1], now, j);
    }
  }

  lemma {:induction false} ConfirmAllKeeps(db: Db, list: seq<Check>, limits: Limits, now: int)
    requires Sound(db, now) && BudgetsHeld(db, limits)
    requires forall k :: 0 <= k < |list| ==> list[k].payout < |db.payouts| && db.payouts[list[k].payout].status == Sent
    requires forall j, k :: 0 <= j < k < |list| ==> list[j].payout != list[k].payout
    ensures Keeps(db, ConfirmAll(db, list, now), limits, now)
  {
    if |list| > 0 {
      var n := |list| - 1;
      var mid := ConfirmAll(db, list[..n], now);
      ConfirmAllKeeps(db, list[..n], limits, now);
      ConfirmAllFrame(db, list[..n], now, list[n].payout);
      ConfirmOneKeeps(mid, list[n], limits, now, ConfirmAll(db, list, now));
      KeepsThrough(db, mid, ConfirmAll(db, list, now), limits, now);
    }
  }

  lemma ProcessKeeps(db: Db, limits: Limits, now: int, picks: seq<Pick>, stub: bool)
    requires Sound(db, now) && BudgetsHeld(db, limits)
    ensures Keeps(db, Process(db, picks, limits, now, stub), limits, now)
  {
    if SelectsQueued(db, picks) {
      var r := ProcessPicks(db, picks, limits, now, stub);
      if r.Ok? { ProcessPicksKeeps(db, picks, limits, now, stub, r.value); }
    }
  }

  lemma SubmitKeeps(db: Db, limits: Limits, now: int, sendings: seq<Sending>)
    requires Sound(db, now) && BudgetsHeld(db, limits)
    ensures Keeps(db, Submit(db, sendings, now), limits, now)
  {
    if SelectsPayouts(db, SendingIds(sendings), Created) {
      var part := SubmittedPart(db, sendings);
      assert forall k :: 0 <= k < |part| ==> part[k] == sendings[k] && SendingIds(sendings)[k] == part[k].payout;
      var r := SubmitAll(db, part, now);
      if r.Ok? { SubmitAllKeeps(db, part, limits, now, r.value); }
    }
  }

  lemma ConfirmKeeps(db: Db, limits: Limits, now: int, checks: seq<Check>)
    requires Sound(db, now) && BudgetsHeld(db, limits)
    ensures Keeps(db, Confirm(db, checks, now), limits, now)
  {
    if SelectsSubmitted(db, checks) {
      assert forall k :: 0 <= k < |checks| ==> CheckIds(checks)[k] == checks[k].payout;
      ConfirmAllKeeps(db, checks, limits, now);
    }
  }

  lemma RequestStepKeeps(db: Db, limits: Limits, t: int, account: nat, amount: int, wallet: string, manual: bool)
    requires Sound(db, t) && BudgetsHeld(db, limits)
    ensures Keeps(db, Commit(db, CreateWithdrawal(db, account, amount, wallet, manual)), limits, t)
  {
    var r := CreateWithdrawal(db, account, amount, wallet, manual);
    if r.Ok? { RequestKeeps(db, limits, t, account, amount, wallet, manual, r.value); }
  }

  lemma ReviewStepKeeps(db: Db, limits: Limits, t: int, id: nat, approve: bool, reason: string)
    requires Sound(db, t) && BudgetsHeld(db, limits)
    ensures Keeps(db, Commit(db, ReviewWithdrawal(db, id, approve, reason)), limits, t)
  {
    var r := ReviewWithdrawal(db, id, approve, reason);
    if r.Ok? { ReviewKeeps(db, limits, t, id, approve, reason, r.value); }
  }

  /** What a step brings an account from outside. */
  function Earned(account: nat): Timed -> int {
    (s: Timed) => if s.step.EarnStep? && s.step.account == account then s.step.tokens else 0
  }

  lemma EarnKeeps(db: Db, limits: Limits, now: int, account: nat, tokens: nat)
    requires Sound(db, now) && BudgetsHeld(db, limits)
    ensures var db' := Earn(db, account, tokens);
      && Sound(db', now) && BudgetsHeld(db', limits)
      && forall a :: Entitled(db', a) == Entitled(db, a) + if a == account then tokens else 0
  {
    BalancesDoNotMatter(db, Earn(db, account, tokens), now);
  }

  /** Every step, at a clock that does not go back, keeps lockstep and budgets, and each account's
      entitlement changes by what it earned. */
  lemma StepKeeps(db: Db, limits: Limits, t: int, now: int, step: Step)
    requires Sound(db, t) && BudgetsHeld(db, limits) && t <= now
    ensures var db' := Apply(db, limits, now, step);
      && Sound(db', now) && BudgetsHeld(db', limits)
      && forall a :: Entitled(db', a) == Entitled(db, a) + Earned(a)(Timed(now, step))
  {
    SoundLater(db, t, now);
    match step
    case EarnStep(account, tokens) => EarnKeeps(db, limits, now, account, tokens);
    case RequestStep(account, amount, wallet, manual) => RequestStepKeeps(db, limits, now, account, amount, wallet, manual);
    case ReviewStep(id, approve, reason) => ReviewStepKeeps(db, limits, now, id, approve, reason);
    case ProcessStep(picks, stub) => ProcessKeeps(db, limits, now, picks, stub);
    case SubmitStep(sendings) => SubmitKeeps(db, limits, now, sendings);
    case ConfirmStep(checks) => ConfirmKeeps(db, limits, now, checks);
  }

  // ---------------------------------------------------------------------
  // Whole runs
  // ---------------------------------------------------------------------

  /** The main result: over every run with a forward clock and fixed limits, whatever
      the interleaving of requests, reviews, batches, submissions and confirmations. */
  lemma {:induction false} RunKeeps(db: Db, limits: Limits, start: int, steps: seq<Timed>)
    requires Sound(db, start) && BudgetsHeld(db, limits) && ClockForward(start, steps)
    ensures var db' := Run(db, limits, steps);
      && Sound(db', LastTime(start, steps)) && BudgetsHeld(db', limits)
      && forall a :: Entitled(db', a) == Entitled(db, a) + Sum(steps, Earned(a))
  {
    if |steps| > 0 {
      var n := |steps| - 1;
      RunKeeps(db, limits, start, steps[..n]);
      StepKeeps(Run(db, limits, steps[..n]), limits, LastTime(start, steps[..n]), steps[n].now, steps[n].step);
    }
  }

  // ---------------------------------------------------------------------
  // What a reader may conclude in a reachable state
  // ---------------------------------------------------------------------

  /** No withdrawal yet; accounts may hold anything. */
  predicate Fresh(db: Db) { db.withdrawals == [] && db.payouts == [] && db.ledger == [] }

  lemma FreshIsSound(db: Db, t: int, limits: Limits)
    requires Fresh(db)
    ensures Sound(db, t) && BudgetsHeld(db, limits)
  {
  }

  /** From tables without withdrawals, whatever the balances: never more approved in an hour, in
      a day, or for one account in a day than the limits allow, failed withdrawals not counted. */
  lemma BudgetsOverRuns(db: Db, limits: Limits, start: int, steps: seq<Timed>, h: int, d: int, a: nat)
    requires Fresh(db) && ClockForward(start, steps)
    ensures var ws := Run(db, limits, steps).withdrawals;
      && Within(Sum(ws, ApprovedInHour(h)), limits.hourly)
      && Within(Sum(ws, ApprovedInDay(d)), limits.daily)
      && Within(Sum(ws, ApprovedForUser(a, d)), limits.userDaily)
  {
    FreshIsSound(db, start, limits);
    RunKeeps(db, limits, start, steps);
  }

  /** An approved withdrawal has one and only one payout, and the two agree on
      amount, wallet, status and signature. */
  lemma ApprovedHasItsPayout(db: Db, t: int, id: nat) returns (j: nat)
    requires Sound(db, t) && id < |db.withdrawals| && Approved(db.withdrawals[id])
    ensures j < |db.payouts| && db.payouts[j].withdrawal == id && Paired(db.withdrawals[id], db.payouts[j])
    ensures forall k :: 0 <= k < |db.payouts| && k != j ==> db.payouts[k].withdrawal != id
  {
    j := SumWitness(db.payouts, PayoutFor(id));
    forall k | 0 <= k < |db.payouts| && k != j ensures db.payouts[k].withdrawal != id {
      OnlyPayout(db, j, k);
    }
  }

  /** No two withdrawals carry the same chain signature. */
  lemma SignatureNamesOneWithdrawal(db: Db, t: int, a: nat, b: nat)
    requires Sound(db, t) && a < |db.withdrawals| && b < |db.withdrawals| && a != b
    requires db.withdrawals[a].signature.Some?
    ensures db.withdrawals[a].signature != db.withdrawals[b].signature
  {
    if db.withdrawals[a].signature == db.withdrawals[b].signature {
      assert RowSound(db.withdrawals[a], t) && RowSound(db.withdrawals[b], t);
      var i := ApprovedHasItsPayout(db, t, a);
      var j := ApprovedHasItsPayout(db, t, b);
      SumTwoRows(db.payouts, Min(i, j), Max(i, j), PayoutWith(db.withdrawals[a].signature.value));
    }
  }

  /** One WITHDRAWAL_CONFIRMED entry for a confirmed withdrawal, with its account and
      amount, and none for the signature of a failed or pending one. */
  lemma ConfirmedEntryExactlyOnce(db: Db, t: int, id: nat)
    requires Sound(db, t) && id < |db.withdrawals| && db.withdrawals[id].signature.Some?
    ensures var w := db.withdrawals[id];
      && Sum(db.ledger, ConfirmedEntry(w.signature.value, None)) == Indicator(w.status == Confirmed)
      && Sum(db.ledger, ConfirmedEntry(w.signature.value, Some((w.account, w.amount)))) == Indicator(w.status == Confirmed)
  {
    var w := db.withdrawals[id];
    var s := w.signature.value;
    forall who: Option<(nat, int)> | who.None? || who.value == (w.account, w.amount)
      ensures Sum(db.withdrawals, ConfirmedRow(s, who)) == Indicator(w.status == Confirmed)
    {
      var rest := db.withdrawals[id := w.(signature := None)];
      SumUpdate(db.withdrawals, id, w.(signature := None), ConfirmedRow(s, who));
      if Sum(rest, ConfirmedRow(s, who)) != 0 {
        var other := SumWitness(rest, ConfirmedRow(s, who));
        SignatureNamesOneWithdrawal(db, t, id, other);
      }
    }
  }

  // ---------------------------------------------------------------------
  // CONFIRMED and FAILED are final
  // ---------------------------------------------------------------------

  predicate Finished(w: Withdrawal) { w.status in {Confirmed, Failed} }

  /** Only the rows the selected payouts point to are written, and no payout is re-pointed. */
  lemma {:induction false} SubmitRowFrame(db: Db, list: seq<Sending>, now: int, i: nat)
    requires PayoutsPoint(db) && i < |db.withdrawals|
    requires forall k :: 0 <= k < |list| ==> list[k].payout < |db.payouts| && db.payouts[list[k].payout].withdrawal != i
    requires SubmitAll(db, list, now).Ok?
    ensures var db' := SubmitAll(db, list, now).value;
      && |db'.withdrawals| == |db.withdrawals| && db'.withdrawals[i] == db.withdrawals[i]
      && forall j :: 0 <= j < |db.payouts| ==> db'.payouts[j].withdrawal == db.payouts[j].withdrawal
  {
    if |list| > 0 {
      SubmitRowFrame(db, list[..|list| - 1], now, i);
    }
  }

  /** Only the rows the selected payouts point to are written, and no payout is re-pointed. */
  lemma {:induction false} ConfirmRowFrame(db: Db, list: seq<Check>, now: int, i: nat)
    requires PayoutsPoint(db) && i < |db.withdrawals|
    requires forall k :: 0 <= k < |list| ==> list[k].payout < |db.payouts| && db.payouts[list[k].payout].withdrawal != i
    ensures var db' := ConfirmAll(db, list, now);
      && |db'.withdrawals| == |db.withdrawals| && db'.withdrawals[i] == db.withdrawals[i]
      && forall j :: 0 <= j < |db.payouts| ==> db'.payouts[j].withdrawal == db.payouts[j].withdrawal
  {
    if |list| > 0 {
      ConfirmRowFrame(db, list[..|list| - 1], now, i);
    }
  }

  lemma SubmitLeavesFinished(db: Db, t: int, now: int, sendings: seq<Sending>, i: nat)
    requires Sound(db, t) && i < |db.withdrawals| && Finished(db.withdrawals[i])
    ensures var db' := Submit(db, sendings, now);
      i < |db'.withdrawals| && db'.withdrawals[i] == db.withdrawals[i]
  {
    if SelectsPayouts(db, SendingIds(sendings), Created) {
      var part := SubmittedPart(db, sendings);
      forall k | 0 <= k < |part| ensures part[k].payout < |db.payouts| && db.payouts[part[k].payout].withdrawal != i {
        assert SendingIds(sendings)[k] == part[k].payout;
        assert Paired(db.withdrawals[db.payouts[part[k].payout].withdrawal], db.payouts[part[k].payout]);
      }
      if SubmitAll(db, part, now).Ok? { SubmitRowFrame(db, part, now, i); }
    }
  }

  lemma ConfirmLeavesFinished(db: Db, t: int, now: int, checks: seq<Check>, i: nat)
    requires Sound(db, t) && i < |db.withdrawals| && Finished(db.withdrawals[i])
    ensures var db' := Confirm(db, checks, now);
      i < |db'.withdrawals| && db'.withdrawals[i] == db.withdrawals[i]
  {
    if SelectsSubmitted(db, checks) {
      forall k | 0 <= k < |checks| ensures checks[k].payout < |db.payouts| && db.payouts[checks[k].payout].withdrawal != i {
        assert CheckIds(checks)[k] == checks[k].payout;
        assert Paired(db.withdrawals[db.payouts[checks[k].payout].withdrawal], db.payouts[checks[k].payout]);
      }
      ConfirmRowFrame(db, checks, now, i);
    }
  }

  lemma StepLeavesFinished(db: Db, limits: Limits, t: int, now: int, step: Step, i: nat)
    requires Sound(db, t) && i < |db.withdrawals| && Finished(db.withdrawals[i])
    ensures var db' := Apply(db, limits, now, step);
      i < |db'.withdrawals| && db'.withdrawals[i] == db.withdrawals[i]
  {
    match step
    case EarnStep(_, _) =>
    case RequestStep(_, _, _, _) =>
    case ReviewStep(_, _, _) =>
    case ProcessStep(picks, stub) =>
      if SelectsQueued(db, picks) && ProcessPicks(db, picks, limits, now, stub).Ok? {
        ProcessPicksFrame(db, picks, limits, now, stub, i);
      }
    case SubmitStep(sendings) => SubmitLeavesFinished(db, t, now, sendings, i);
    case ConfirmStep(checks) => ConfirmLeavesFinished(db, t, now, checks, i);
  }

  /** A confirmed or failed withdrawal is never written again, however the run goes on. */
  lemma {:induction false} FinishedForever(db: Db, limits: Limits, start: int, steps: seq<Timed>, i: nat)
    requires Sound(db, start) && BudgetsHeld(db, limits) && ClockForward(start, steps)
    requires i < |db.withdrawals| && Finished(db.withdrawals[i])
    ensures var db' := Run(db, limits, steps);
      i < |db'.withdrawals| && db'.withdrawals[i] == db.withdrawals[i]
  {
    if |steps| > 0 {
      var n := |steps| - 1;
      FinishedForever(db, limits, start, steps[..n], i);
      RunKeeps(db, limits, start, steps[..n]);
      StepLeavesFinished(Run(db, limits, steps[..n]), limits, LastTime(start, steps[..n]), steps[n].now, steps[n].step, i);
    }
  }

  // ---------------------------------------------------------------------
  // The same in every state a run reaches
  // ---------------------------------------------------------------------

  /** In every state reached from tables without withdrawals: an approved withdrawal has exactly
      one payout that agrees with it, one not approved has none, a signature names one withdrawal,
      and there is one WITHDRAWAL_CONFIRMED entry for it exactly when it is confirmed. */
  lemma LockstepOverRuns(db0: Db, limits: Limits, start: int, steps: seq<Timed>, db: Db, id: nat) returns (j: nat)
    requires Fresh(db0) && ClockForward(start, steps) && db == Run(db0, limits, steps) && id < |db.withdrawals|
    ensures Sum(db.payouts, PayoutFor(id)) == Indicator(Approved(db.withdrawals[id]))
    ensures Approved(db.withdrawals[id]) ==>
      j < |db.payouts| && db.payouts[j].withdrawal == id && Paired(db.withdrawals[id], db.payouts[j])
    ensures var w := db.withdrawals[id];
      w.signature.Some? ==>
        && Sum(db.ledger, ConfirmedEntry(w.signature.value, Some((w.account, w.amount)))) == Indicator(w.status == Confirmed)
        && Sum(db.ledger, ConfirmedEntry(w.signature.value, None)) == Indicator(w.status == Confirmed)
        && forall k :: 0 <= k < |db.withdrawals| && k != id ==> db.withdrawals[k].signature != w.signature
  {
    FreshIsSound(db0, start, limits);
    RunKeeps(db0, limits, start, steps);
    var t := LastTime(start, steps);
    j := 0;
    if Approved(db.withdrawals[id]) { j := ApprovedHasItsPayout(db, t, id); }
    if db.withdrawals[id].signature.Some? {
      ConfirmedEntryExactlyOnce(db, t, id);
      forall k: nat | k < |db.withdrawals| && k != id ensures db.withdrawals[k].signature != db.withdrawals[id].signature {
        SignatureNamesOneWithdrawal(db, t, id, k);
      }
    }
  }

  lemma {:induction false} RunSplits(db: Db, limits: Limits, first: seq<Timed>, more: seq<Timed>)
    ensures Run(db, limits, first + more) == Run(Run(db, limits, first), limits, more)
  {
    if |more| == 0 {
      assert first + more == first;
    } else {
      var n := |more| - 1;
      assert (first + more)[..|first| + n] == first + more[..n];
      RunSplits(db, limits, first, more[..n]);
    }
  }

  /** In every run from tables without withdrawals, a withdrawal once CONFIRMED or FAILED stays as it is. */
  lemma FinishedOverRuns(db: Db, limits: Limits, start: int, first: seq<Timed>, more: seq<Timed>, i: nat)
    requires Fresh(db) && ClockForward(start, first + more)
    requires i < |Run(db, limits, first).withdrawals| && Finished(Run(db, limits, first).withdrawals[i])
    ensures var ws := Run(db, limits, first + more).withdrawals;
      i < |ws| && ws[i] == Run(db, limits, first).withdrawals[i]
  {
    var all := first + more;
    assert forall k :: 0 <= k < |first| ==> first[k] == all[k];
    assert forall k :: 0 <= k < |more| ==> more[k] == all[|first| + k];
    FreshIsSound(db, start, limits);
    RunKeeps(db, limits, start, first);
    FinishedForever(Run(db, limits, first), limits, LastTime(start, first), more, i);
    RunSplits(db, limits, first, more);
  }
}
