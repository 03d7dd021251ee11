/** A run from an account with 200 tokens that approves two withdrawals of 100 in
    different hours and submits the first one late. */
module WithdrawalExample {
  import opened Basics
  import opened Withdrawals
  import opened WithdrawalProofs
  import opened WithdrawalProcessed

  function Funded(): Db { Db(map[7 := 200], [], [], []) }

  function OneHundredAnHour(): Limits { Limits(100, 1000, 100, 1000) }

  function Asked(): Withdrawal { Withdrawal(7, "w", 100, Queued, "", None, None, None, None) }

  function ApprovedAt(t: int): Withdrawal {
    Asked().(status := PayoutCreated, reason := "awaiting_chain_payout", processedAt := Some(t), approvedAt := Some(t))
  }

  function PayoutOf(id: nat): Payout { Payout(id, "w", 100, Created, None, 0, None, None) }

  function Requested(): seq<Entry> { [Entry(7, WithdrawalRequested, 100, ""), Entry(7, WithdrawalRequested, 100, "")] }

  /** Both asked for; the first approved in hour 0; the second approved in hour 1. */
  function BothAsked(): Db { Db(map[7 := 0], [Asked(), Asked()], [], Requested()) }

  function FirstApproved(): Db { Db(map[7 := 0], [ApprovedAt(0), Asked()], [PayoutOf(0)], Requested()) }

  function BothApproved(): Db { Db(map[7 := 0], [ApprovedAt(0), ApprovedAt(3600)], [PayoutOf(0), PayoutOf(1)], Requested()) }

  function Sendings(): seq<Sending> { [Sending(0, Accepted("sig"))] }

  function AskSteps(): seq<Timed> {
    [Timed(0, RequestStep(7, 100, "w", false)), Timed(0, RequestStep(7, 100, "w", false))]
  }

  function ApproveSteps(): seq<Timed> {
    [Timed(0, ProcessStep([Pick(0, "")], false)), Timed(3600, ProcessStep([Pick(1, "")], false))]
  }

  lemma RunOfTwo(db: Db, limits: Limits, a: Timed, b: Timed)
    ensures Run(db, limits, [a, b]) == Apply(Apply(db, limits, a.now, a.step), limits, b.now, b.step)
  {
    assert [a, b][..1] == [a] && [a][..0] == [];
    assert Run(db, limits, [a]) == Apply(Run(db, limits, []), limits, a.now, a.step);
  }

  lemma Asking()
    ensures Run(Funded(), OneHundredAnHour(), AskSteps()) == BothAsked()
  {
    var step := AskSteps()[0].step;
    var one := Db(map[7 := 100], [Asked()], [], [Entry(7, WithdrawalRequested, 100, "")]);
    assert Apply(Funded(), OneHundredAnHour(), 0, step) == one;
    assert Apply(one, OneHundredAnHour(), 0, step) == BothAsked();
    RunOfTwo(Funded(), OneHundredAnHour(), AskSteps()[0], AskSteps()[1]);
  }

  /** One pick of a queued row that is within every limit. */
  lemma OnePick(db: Db, limits: Limits, now: int, id: nat)
    requires id < |db.withdrawals| && db.withdrawals[id].status == Queued && !HasPayout(db.payouts, id)
    requires var w := db.withdrawals[id];
      && w.amount <= limits.single
      && Sum(db.withdrawals, ProcessedForUser(w.account, Day(now))) + w.amount <= limits.userDaily
      && Sum(db.withdrawals, ProcessedInHour(Hour(now))) + w.amount <= limits.hourly
      && Sum(db.withdrawals, ProcessedInDay(Day(now))) + w.amount <= limits.daily
    ensures var w := db.withdrawals[id];
      Apply(db, limits, now, ProcessStep([Pick(id, "")], false)) ==
      db.(withdrawals := db.withdrawals[id := w.(status := PayoutCreated, reason := "awaiting_chain_payout",
                                                 processedAt := Some(now), approvedAt := Some(now))],
          payouts := db.payouts + [Payout(id, w.wallet, w.amount, Created, None, 0, None, None)])
  {
    var picks := [Pick(id, "")];
    BudgetIsSum(db.withdrawals, now);
    assert picks[..0] == [] && SelectsQueued(db, picks);
    var start := Batch(db, BudgetOf(db.withdrawals, now));
    assert ProcessPicks(db, picks[..0], limits, now, false) == Ok(start);
    assert ProcessPicks(db, picks, limits, now, false) == ProcessOne(start, picks[0], limits, now, false);
  }

  lemma SumOfTwo<T>(a: T, b: T, weight: T -> int)
    ensures Sum([a, b], weight) == weight(a) + weight(b)
  {
    SumAppend([a], b, weight);
    SumAppend([], a, weight);
    assert [a] + [b] == [a, b] && [] + [a] == [a];
  }

  lemma FirstPick()
    ensures Apply(BothAsked(), OneHundredAnHour(), 0, ProcessStep([Pick(0, "")], false)) == FirstApproved()
  {
    forall weight: Withdrawal -> int ensures Sum(BothAsked().withdrawals, weight) == weight(Asked()) + weight(Asked()) {
      SumOfTwo(Asked(), Asked(), weight);
    }
    OnePick(BothAsked(), OneHundredAnHour(), 0, 0);
  }

  lemma SecondPick()
    ensures Apply(FirstApproved(), OneHundredAnHour(), 3600, ProcessStep([Pick(1, "")], false)) == BothApproved()
  {
    forall weight: Withdrawal -> int ensures Sum(FirstApproved().withdrawals, weight) == weight(ApprovedAt(0)) + weight(Asked()) {
      SumOfTwo(ApprovedAt(0), Asked(), weight);
    }
    OnePick(FirstApproved(), OneHundredAnHour(), 3600, 1);
  }

  lemma Approving()
    ensures Run(BothAsked(), OneHundredAnHour(), ApproveSteps()) == BothApproved()
  {
    FirstPick();
    SecondPick();
    RunOfTwo(BothAsked(), OneHundredAnHour(), ApproveSteps()[0], ApproveSteps()[1]);
  }

  lemma OneSending(db: Db, limits: Limits, now: int, s: string)
    requires PayoutsPoint(db) && |db.payouts| > 0 && db.payouts[0].status == Created && !SignatureTaken(db.payouts, s)
    ensures var id := db.payouts[0].withdrawal;
      Apply(db, limits, now, SubmitStep([Sending(0, Accepted(s))])).withdrawals ==
      db.withdrawals[id := db.withdrawals[id].(status := Submitted, signature := Some(s), processedAt := Some(now), reason := "")]
  {
    var list := [Sending(0, Accepted(s))];
    assert list[1..] == [] && UntilConfigError([]) == [] && UntilConfigError(list) == list;
    assert SendingIds(list) == [0] && SelectsPayouts(db, SendingIds(list), Created);
    assert list[..0] == [] && SubmitAll(db, list[..0], now) == Ok(db);
  }

  lemma Submitting(db: Db)
    requires db == Apply(BothApproved(), OneHundredAnHour(), 3600, SubmitStep(Sendings()))
    ensures Sum(db.withdrawals, ProcessedInHour(1)) == 200
  {
    OneSending(BothApproved(), OneHundredAnHour(), 3600, "sig");
    var w := ApprovedAt(0).(status := Submitted, signature := Some("sig"), processedAt := Some(3600), reason := "");
    assert db.withdrawals == [w, ApprovedAt(3600)];
    SumOfTwo(w, ApprovedAt(3600), ProcessedInHour(1));
  }

  lemma RunInParts(db0: Db, db1: Db, db2: Db, limits: Limits, a: seq<Timed>, b: seq<Timed>, c: Timed)
    requires Run(db0, limits, a) == db1 && Run(db1, limits, b) == db2
    ensures Run(db0, limits, a + b) == db2 && Run(db0, limits, a + b + [c]) == Apply(db2, limits, c.now, c.step)
  {
    RunSplits(db0, limits, a, b);
    assert (a + b + [c])[..|a + b|] == a + b;
  }

  function LateSubmit(): Timed { Timed(3600, SubmitStep(Sendings())) }

  lemma ClockRuns()
    ensures ClockForward(0, AskSteps() + ApproveSteps() + [LateSubmit()])
  {
  }

  /** A run from tables without withdrawals that approves 100 in each of two hours, as the limit
      allows, and after which hour 1 holds 200 by `processed_at`. */
  lemma ProcessedAtMayExceedTheHour(before: seq<Timed>, whole: seq<Timed>)
    requires before == AskSteps() + ApproveSteps() && whole == before + [LateSubmit()]
    ensures Fresh(Funded()) && ClockForward(0, whole) && OneHundredAnHour().hourly == 100
    ensures Sum(Run(Funded(), OneHundredAnHour(), before).withdrawals, ApprovedInHour(1)) == 100
    ensures Sum(Run(Funded(), OneHundredAnHour(), whole).withdrawals, ProcessedInHour(1)) == 200
  {
    Asking();
    Approving();
    RunInParts(Funded(), BothAsked(), BothApproved(), OneHundredAnHour(), AskSteps(), ApproveSteps(), LateSubmit());
    SumOfTwo(ApprovedAt(0), ApprovedAt(3600), ApprovedInHour(1));
    Submitting(Apply(BothApproved(), OneHundredAnHour(), 3600, SubmitStep(Sendings())));
    ClockRuns();
  }
}
