/** Totals by `processed_at`, the column the batch reads. Submission rewrites it, so
    these totals may pass a limit that the approvals respect; here is exactly when. */
module WithdrawalProcessed {
  import opened Basics
  import opened Withdrawals
  import opened WithdrawalProofs

  /** An hour, a day, or one account's day. */
  datatype Bucket = InHour(h: int) | InDay(d: int) | ForUser(account: nat, d: int)

  function Processed(b: Bucket): Withdrawal -> int {
    match b
    case InHour(h) => ProcessedInHour(h)
    case InDay(d) => ProcessedInDay(d)
    case ForUser(a, d) => ProcessedForUser(a, d)
  }

  function LimitOf(limits: Limits, b: Bucket): int {
    match b
    case InHour(_) => limits.hourly
    case InDay(_) => limits.daily
    case ForUser(_, _) => limits.userDaily
  }

  /** A withdrawal of `account` processed at time `t` falls into the bucket. */
  predicate Holds(b: Bucket, account: nat, t: int) {
    match b
    case InHour(h) => Hour(t) == h
    case InDay(d) => Day(t) == d
    case ForUser(a, d) => account == a && Day(t) == d
  }

  /** A bucket of the current time. */
  predicate Current(b: Bucket, now: int) {
    match b
    case InHour(h) => Hour(now) == h
    case InDay(d) => Day(now) == d
    case ForUser(_, d) => Day(now) == d
  }

  ghost predicate ProcessedHeld(db: Db, limits: Limits) {
    forall b :: Within(Sum(db.withdrawals, Processed(b)), LimitOf(limits, b))
  }

  lemma ProcessedIs(b: Bucket, w: Withdrawal)
    ensures Processed(b)(w) == if CountsForBudget(w) && Holds(b, w.account, w.processedAt.value) then w.amount else 0
  {
  }

  // ---------------------------------------------------------------------
  // What a submission moves
  // ---------------------------------------------------------------------

  /** What one sending moves into a bucket, known before it is sent: an accepted one brings its
      amount to the buckets of `now` and takes it from those of its old time; one without a token
      account takes it away; any other moves nothing. */
  function Moves(db: Db, b: Bucket, now: int): Sending -> int {
    (s: Sending) =>
      if s.payout >= |db.payouts| || db.payouts[s.payout].withdrawal >= |db.withdrawals| then 0
      else
        var w := db.withdrawals[db.payouts[s.payout].withdrawal];
        match s.outcome
        case Accepted(_) => (if Holds(b, w.account, now) then w.amount else 0) - Processed(b)(w)
        case AccountMissing => -Processed(b)(w)
        case _ => 0
  }

  lemma SubmitOneMoves(db: Db, s: Sending, now: int, b: Bucket, db': Db)
    requires s.payout < |db.payouts| && db.payouts[s.payout].withdrawal < |db.withdrawals|
    requires SubmitOne(db, s, now) == Ok(db')
    ensures Sum(db'.withdrawals, Processed(b)) == Sum(db.withdrawals, Processed(b)) + Moves(db, b, now)(s)
  {
    var id := db.payouts[s.payout].withdrawal;
    var w, w' := db.withdrawals[id], db'.withdrawals[id];
    assert db'.withdrawals == db.withdrawals[id := w'];
    SumUpdate(db.withdrawals, id, w', Processed(b));
    ProcessedIs(b, w);
    ProcessedIs(b, w');
  }

  /** The batch selects different payouts, and they belong to different withdrawals. */
  predicate Separate(db: Db, list: seq<Sending>) {
    && (forall k :: 0 <= k < |list| ==> list[k].payout < |db.payouts|)
    && (forall j, k :: 0 <= j < k < |list| ==> db.payouts[list[j].payout].withdrawal != db.payouts[list[k].payout].withdrawal)
  }

  lemma {:induction false} SubmitAllMoves(db: Db, list: seq<Sending>, now: int, b: Bucket, db': Db)
    requires PayoutsPoint(db) && Separate(db, list) && SubmitAll(db, list, now) == Ok(db')
    ensures Sum(db'.withdrawals, Processed(b)) == Sum(db.withdrawals, Processed(b)) + Sum(list, Moves(db, b, now))
  {
    if |list| > 0 {
      var n := |list| - 1;
      var mid := SubmitAll(db, list[..n], now).value;
      SubmitAllMoves(db, list[..n], now, b, mid);
      SubmitRowFrame(db, list[..n], now, db.payouts[list[n].payout].withdrawal);
      SameMoves(db, mid, b, now, list[n]);
      SubmitOneMoves(mid, list[n], now, b, db');
    }
  }

  lemma SameMoves(db: Db, mid: Db, b: Bucket, now: int, s: Sending)
    requires s.payout < |db.payouts| == |mid.payouts| && |mid.withdrawals| == |db.withdrawals|
    requires var id := db.payouts[s.payout].withdrawal;
      mid.payouts[s.payout].withdrawal == id < |db.withdrawals| && mid.withdrawals[id] == db.withdrawals[id]
    ensures Moves(mid, b, now)(s) == Moves(db, b, now)(s)
  {
  }

  lemma SelectedAreSeparate(db: Db, t: int, sendings: seq<Sending>, part: seq<Sending>)
    requires Sound(db, t) && SelectsPayouts(db, SendingIds(sendings), Created) && part <= sendings
    ensures Separate(db, part)
  {
    assert forall k :: 0 <= k < |part| ==> SendingIds(sendings)[k] == part[k].payout;
    forall j, k | 0 <= j < k < |part|
      ensures db.payouts[part[j].payout].withdrawal != db.payouts[part[k].payout].withdrawal
    {
      OnlyPayout(db, part[j].payout, part[k].payout);
    }
  }

  /** A submission that commits changes each total by exactly what its sendings move. */
  lemma ProcessedAfterSubmit(db: Db, t: int, now: int, sendings: seq<Sending>, b: Bucket, db': Db)
    requires Sound(db, t) && SelectsPayouts(db, SendingIds(sendings), Created)
    requires SubmitAll(db, SubmittedPart(db, sendings), now) == Ok(db')
    ensures Sum(db'.withdrawals, Processed(b)) == Sum(db.withdrawals, Processed(b)) + Sum(SubmittedPart(db, sendings), Moves(db, b, now))
  {
    SelectedAreSeparate(db, t, sendings, SubmittedPart(db, sendings));
    SubmitAllMoves(db, SubmittedPart(db, sendings), now, b, db');
  }

  /** The guard: with what the sendings move, the totals of the current hour, day and
      account days are within their limits, or the batch does not commit. */
  ghost predicate SubmitFits(db: Db, limits: Limits, now: int, sendings: seq<Sending>) {
    SelectsPayouts(db, SendingIds(sendings), Created) && PayoutsPoint(db) && SubmitAll(db, SubmittedPart(db, sendings), now).Ok? ==>
      forall b :: Current(b, now) ==>
        Within(Sum(db.withdrawals, Processed(b)) + Sum(SubmittedPart(db, sendings), Moves(db, b, now)), LimitOf(limits, b))
  }

  lemma OldBucketsFall(db: Db, now: int, list: seq<Sending>, b: Bucket)
    requires !Current(b, now) && RowsSound(db, now)
    ensures Sum(list, Moves(db, b, now)) <= 0
  {
    forall k | 0 <= k < |list| ensures Moves(db, b, now)(list[k]) <= 0 {
      var s := list[k];
      if s.payout < |db.payouts| && db.payouts[s.payout].withdrawal < |db.withdrawals| {
        var w := db.withdrawals[db.payouts[s.payout].withdrawal];
        assert RowSound(w, now);
        ProcessedIs(b, w);
      }
    }
    SumAtMost(list, Moves(db, b, now), (s: Sending) => 0);
    NothingSums(list);
  }

  lemma {:induction false} NothingSums(list: seq<Sending>)
    ensures Sum(list, (s: Sending) => 0) == 0
  {
    if |list| > 0 { NothingSums(list[..|list| - 1]); }
  }

  lemma SubmitHeldIff(db: Db, limits: Limits, now: int, sendings: seq<Sending>)
    requires Sound(db, now) && ProcessedHeld(db, limits)
    ensures ProcessedHeld(Submit(db, sendings, now), limits) <==> SubmitFits(db, limits, now, sendings)
  {
    if SelectsPayouts(db, SendingIds(sendings), Created) && SubmitAll(db, SubmittedPart(db, sendings), now).Ok? {
      var db' := SubmitAll(db, SubmittedPart(db, sendings), now).value;
      forall b ensures Sum(db'.withdrawals, Processed(b)) ==
        Sum(db.withdrawals, Processed(b)) + Sum(SubmittedPart(db, sendings), Moves(db, b, now))
      {
        ProcessedAfterSubmit(db, now, now, sendings, b, db');
      }
      forall b | !Current(b, now) ensures Sum(db'.withdrawals, Processed(b)) <= Sum(db.withdrawals, Processed(b)) {
        OldBucketsFall(db, now, SubmittedPart(db, sendings), b);
      }
      if SubmitFits(db, limits, now, sendings) {
        forall b ensures Within(Sum(db'.withdrawals, Processed(b)), LimitOf(limits, b)) {
          assert Within(Sum(db.withdrawals, Processed(b)), LimitOf(limits, b));
        }
      }
    }
  }

  // ---------------------------------------------------------------------
  // No other step can pass a limit
  // ---------------------------------------------------------------------

  /** A row that is not counted before the write adds what it counts after it. */
  lemma HeldAfterWrite(db: Db, db': Db, limits: Limits, id: nat, row: Withdrawal)
    requires ProcessedHeld(db, limits) && id < |db.withdrawals| && db'.withdrawals == db.withdrawals[id := row]
    requires forall b :: Processed(b)(row) > Processed(b)(db.withdrawals[id]) ==>
      Sum(db.withdrawals, Processed(b)) - Processed(b)(db.withdrawals[id]) + Processed(b)(row) <= LimitOf(limits, b)
    ensures ProcessedHeld(db', limits)
  {
    forall b ensures Within(Sum(db'.withdrawals, Processed(b)), LimitOf(limits, b)) {
      assert Within(Sum(db.withdrawals, Processed(b)), LimitOf(limits, b));
      SumUpdate(db.withdrawals, id, row, Processed(b));
    }
  }

  lemma ProcessOneHeld(batch: Batch, pick: Pick, limits: Limits, now: int, stub: bool, batch': Batch)
    requires Exact(batch, now) && ProcessedHeld(batch.db, limits)
    requires pick.id < |batch.db.withdrawals| && batch.db.withdrawals[pick.id].status == Queued
    requires ProcessOne(batch, pick, limits, now, stub) == Ok(batch')
    ensures ProcessedHeld(batch'.db, limits)
  {
    ProcessOneShape(batch, pick, limits, now, stub, batch');
    if Approved(batch'.db.withdrawals[pick.id]) {
      ApproveHeld(batch, pick, limits, now, stub, batch');
    } else {
      DelayHeld(batch, limits, pick.id, batch'.db.withdrawals[pick.id], batch');
    }
  }

  lemma DelayHeld(batch: Batch, limits: Limits, id: nat, row: Withdrawal, batch': Batch)
    requires ProcessedHeld(batch.db, limits) && Delayed(batch, batch', id, row) && batch.db.withdrawals[id].status == Queued
    ensures ProcessedHeld(batch'.db, limits)
  {
    forall b ensures Processed(b)(row) == 0 {
      ProcessedIs(b, row);
    }
    forall b ensures Processed(b)(batch.db.withdrawals[id]) == 0 {
      ProcessedIs(b, batch.db.withdrawals[id]);
    }
    HeldAfterWrite(batch.db, batch'.db, limits, id, row);
  }

  lemma ApproveHeld(batch: Batch, pick: Pick, limits: Limits, now: int, stub: bool, batch': Batch)
    requires Exact(batch, now) && ProcessedHeld(batch.db, limits)
    requires pick.id < |batch.db.withdrawals| && batch.db.withdrawals[pick.id].status == Queued
    requires Approve(batch, pick, now, stub) == Ok(batch') && FitsAll(batch, limits, batch.db.withdrawals[pick.id])
    ensures ProcessedHeld(batch'.db, limits)
  {
    var ws := batch.db.withdrawals;
    var w, row := ws[pick.id], batch'.db.withdrawals[pick.id];
    assert CountsForBudget(row) && row.processedAt == Some(now);
    forall b ensures Processed(b)(row) > Processed(b)(w) ==>
      Sum(ws, Processed(b)) - Processed(b)(w) + Processed(b)(row) <= LimitOf(limits, b)
    {
      ApprovalFits(batch, limits, now, w, row, b);
    }
    HeldAfterWrite(batch.db, batch'.db, limits, pick.id, row);
  }

  lemma ApprovalFits(batch: Batch, limits: Limits, now: int, w: Withdrawal, row: Withdrawal, b: Bucket)
    requires Exact(batch, now) && w.status == Queued && CountsForBudget(row) && row.processedAt == Some(now)
    requires Balance(batch.budget.userDaily, row.account) + row.amount <= limits.userDaily
    requires batch.budget.hourly + row.amount <= limits.hourly && batch.budget.daily + row.amount <= limits.daily
    ensures Processed(b)(row) > Processed(b)(w) ==>
      Sum(batch.db.withdrawals, Processed(b)) - Processed(b)(w) + Processed(b)(row) <= LimitOf(limits, b)
  {
    ProcessedIs(b, w);
    ProcessedIs(b, row);
  }

  lemma {:induction false} ProcessPicksHeld(db: Db, picks: seq<Pick>, limits: Limits, now: int, stub: bool, batch: Batch)
    requires SelectsQueued(db, picks) && ProcessedHeld(db, limits) && ProcessPicks(db, picks, limits, now, stub) == Ok(batch)
    ensures ProcessedHeld(batch.db, limits)
  {
    if |picks| > 0 {
      var n := |picks| - 1;
      var mid := ProcessPicks(db, picks[..n], limits, now, stub).value;
      ProcessPicksHeld(db, picks[..n], limits, now, stub, mid);
      RunningBudgetExact(db, picks[..n], limits, now, stub, mid);
      ProcessPicksFrame(db, picks[..n], limits, now, stub, picks[n].id);
      ProcessOneHeld(mid, picks[n], limits, now, stub, batch);
    }
  }

  lemma ConfirmOneHeld(db: Db, c: Check, limits: Limits, now: int, t: int)
    requires ProcessedHeld(db, limits) && RowsSound(db, t)
    requires c.payout < |db.payouts| && db.payouts[c.payout].withdrawal < |db.withdrawals|
    requires db.withdrawals[db.payouts[c.payout].withdrawal].status == Submitted
    ensures ProcessedHeld(ConfirmOne(db, c, now), limits)
  {
    var id := db.payouts[c.payout].withdrawal;
    var db' := ConfirmOne(db, c, now);
    var w, w' := db.withdrawals[id], db'.withdrawals[id];
    assert RowSound(w, t);
    forall b ensures Processed(b)(w') <= Processed(b)(w) {
      ProcessedIs(b, w);
      ProcessedIs(b, w');
    }
    HeldAfterWrite(db, db', limits, id, w');
  }

  lemma {:induction false} ConfirmAllHeld(db: Db, list: seq<Check>, limits: Limits, now: int)
    requires Sound(db, now) && BudgetsHeld(db, limits) && ProcessedHeld(db, limits)
    requires forall k :: 0 <= k < |list| ==> list[k].payout < |db.payouts| && db.payouts[list[k].payout].status == Sent
    requires forall j, k :: 0 <= j < k < |list| ==> list[j].payout != list[k].payout
    ensures ProcessedHeld(ConfirmAll(db, list, now), limits)
  {
    if |list| > 0 {
      var n := |list| - 1;
      ConfirmAllHeld(db, list[..n], limits, now);
      ConfirmAllKeeps(db, list[..n], limits, now);
      ConfirmAllFrame(db, list[..n], now, list[n].payout);
      var mid := ConfirmAll(db, list[..n], now);
      assert Paired(mid.withdrawals[mid.payouts[list[n].payout].withdrawal], mid.payouts[list[n].payout]);
      ConfirmOneHeld(mid, list[n], limits, now, now);
    }
  }

  lemma RequestHeld(db: Db, limits: Limits, account: nat, amount: int, wallet: string, manual: bool)
    requires ProcessedHeld(db, limits)
    ensures ProcessedHeld(Commit(db, CreateWithdrawal(db, account, amount, wallet, manual)), limits)
  {
    var r := CreateWithdrawal(db, account, amount, wallet, manual);
    if r.Ok? {
      var row := r.value.withdrawals[|db.withdrawals|];
      forall b ensures Within(Sum(r.value.withdrawals, Processed(b)), LimitOf(limits, b)) {
        assert Within(Sum(db.withdrawals, Processed(b)), LimitOf(limits, b));
        SumAppend(db.withdrawals, row, Processed(b));
        ProcessedIs(b, row);
      }
    }
  }

  lemma ReviewHeld(db: Db, limits: Limits, t: int, id: nat, approve: bool, reason: string)
    requires ProcessedHeld(db, limits) && RowsSound(db, t)
    ensures ProcessedHeld(Commit(db, ReviewWithdrawal(db, id, approve, reason)), limits)
  {
    var r := ReviewWithdrawal(db, id, approve, reason);
    if r.Ok? {
      var row := r.value.withdrawals[id];
      forall b ensures Processed(b)(row) <= Processed(b)(db.withdrawals[id]) {
        ProcessedIs(b, db.withdrawals[id]);
        ProcessedIs(b, row);
      }
      HeldAfterWrite(db, r.value, limits, id, row);
    }
  }

  // ---------------------------------------------------------------------
  // Steps and runs
  // ---------------------------------------------------------------------

  ghost predicate StepFits(db: Db, limits: Limits, now: int, step: Step) {
    step.SubmitStep? ==> SubmitFits(db, limits, now, step.sendings)
  }

  /** Every step keeps the totals by `processed_at` within the limits, except exactly a
      submission that does not fit. */
  lemma StepHeldIff(db: Db, limits: Limits, t: int, now: int, step: Step)
    requires Sound(db, t) && BudgetsHeld(db, limits) && ProcessedHeld(db, limits) && t <= now
    ensures ProcessedHeld(Apply(db, limits, now, step), limits) <==> StepFits(db, limits, now, step)
  {
    SoundLater(db, t, now);
    match step
    case EarnStep(account, tokens) => assert Earn(db, account, tokens).withdrawals == db.withdrawals;
    case RequestStep(account, amount, wallet, manual) => RequestHeld(db, limits, account, amount, wallet, manual);
    case ReviewStep(id, approve, reason) => ReviewHeld(db, limits, now, id, approve, reason);
    case ProcessStep(picks, stub) => ProcessHeld(db, limits, now, picks, stub);
    case SubmitStep(sendings) => SubmitHeldIff(db, limits, now, sendings);
    case ConfirmStep(checks) => ConfirmHeld(db, limits, now, checks);
  }

  lemma ProcessHeld(db: Db, limits: Limits, now: int, picks: seq<Pick>, stub: bool)
    requires ProcessedHeld(db, limits)
    ensures ProcessedHeld(Process(db, picks, limits, now, stub), limits)
  {
    if SelectsQueued(db, picks) {
      var r := ProcessPicks(db, picks, limits, now, stub);
      if r.Ok? { ProcessPicksHeld(db, picks, limits, now, stub, r.value); }
    }
  }

  lemma ConfirmHeld(db: Db, limits: Limits, now: int, checks: seq<Check>)
    requires Sound(db, now) && BudgetsHeld(db, limits) && ProcessedHeld(db, limits)
    ensures ProcessedHeld(Confirm(db, checks, now), limits)
  {
    if SelectsSubmitted(db, checks) {
      assert forall k :: 0 <= k < |checks| ==> CheckIds(checks)[k] == checks[k].payout;
      ConfirmAllHeld(db, checks, limits, now);
    }
  }

  /** In every state of the run the totals are within the limits. */
  ghost predicate AlwaysHeld(db: Db, limits: Limits, steps: seq<Timed>) {
    forall n :: 0 <= n <= |steps| ==> ProcessedHeld(Run(db, limits, steps[..n]), limits)
  }

  /** Every submission of the run fits when it is made. */
  ghost predicate AllFit(db: Db, limits: Limits, steps: seq<Timed>) {
    forall n :: 0 <= n < |steps| ==> StepFits(Run(db, limits, steps[..n]), limits, steps[n].now, steps[n].step)
  }

  lemma PrefixStep(db: Db, limits: Limits, steps: seq<Timed>, n: nat)
    requires n < |steps|
    ensures Run(db, limits, steps[..n + 1]) == Apply(Run(db, limits, steps[..n]), limits, steps[n].now, steps[n].step)
  {
    assert steps[..n + 1][..n] == steps[..n];
  }

  lemma PrefixHeldIff(db: Db, limits: Limits, start: int, steps: seq<Timed>, n: nat)
    requires Sound(db, start) && BudgetsHeld(db, limits) && ClockForward(start, steps) && n < |steps|
    requires ProcessedHeld(Run(db, limits, steps[..n]), limits)
    ensures ProcessedHeld(Run(db, limits, steps[..n + 1]), limits) <==>
      StepFits(Run(db, limits, steps[..n]), limits, steps[n].now, steps[n].step)
  {
    RunKeeps(db, limits, start, steps[..n]);
    PrefixStep(db, limits, steps, n);
    StepHeldIff(Run(db, limits, steps[..n]), limits, LastTime(start, steps[..n]), steps[n].now, steps[n].step);
  }

  lemma {:induction false} HeldWhileFitting(db: Db, limits: Limits, start: int, steps: seq<Timed>, n: nat)
    requires Sound(db, start) && BudgetsHeld(db, limits) && ProcessedHeld(db, limits) && ClockForward(start, steps)
    requires n <= |steps| && AllFit(db, limits, steps)
    ensures ProcessedHeld(Run(db, limits, steps[..n]), limits)
  {
    if n > 0 {
      HeldWhileFitting(db, limits, start, steps, n - 1);
      PrefixHeldIff(db, limits, start, steps, n - 1);
    }
  }

  /** From tables without withdrawals: the totals by `processed_at` stay within the limits
      throughout a run exactly when every submission in it fits. */
  lemma ProcessedHeldIff(db: Db, limits: Limits, start: int, steps: seq<Timed>)
    requires Fresh(db) && ClockForward(start, steps)
    ensures AlwaysHeld(db, limits, steps) <==> AllFit(db, limits, steps)
  {
    FreshIsSound(db, start, limits);
    assert ProcessedHeld(db, limits);
    if AlwaysHeld(db, limits, steps) {
      forall n: nat | n < |steps| ensures StepFits(Run(db, limits, steps[..n]), limits, steps[n].now, steps[n].step) {
        assert ProcessedHeld(Run(db, limits, steps[..n + 1]), limits);
        PrefixHeldIff(db, limits, start, steps, n);
      }
    }
    if AllFit(db, limits, steps) {
      forall n: nat | n <= |steps| ensures ProcessedHeld(Run(db, limits, steps[..n]), limits) {
        HeldWhileFitting(db, limits, start, steps, n);
      }
    }
  }
}
