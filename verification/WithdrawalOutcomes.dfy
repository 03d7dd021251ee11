/** What each batch does to each row, exactly: which picked withdrawals are approved, delayed or
    handed to a reviewer, what a sending and a report of the chain make of a withdrawal, and when
    a batch rolls back. */
module WithdrawalOutcomes {
  import opened Basics
  import opened Withdrawals
  import opened WithdrawalProofs
  import opened WithdrawalProcessed

  // ---------------------------------------------------------------------
  // The automatic batch
  // ---------------------------------------------------------------------

  /** The limits a picked row is held against, with `ws` the rows as they stand. */
  predicate WithinDay(ws: seq<Withdrawal>, row: Withdrawal, limits: Limits, now: int) {
    Sum(ws, ProcessedForUser(row.account, Day(now))) + row.amount <= limits.userDaily
  }

  predicate WithinHour(ws: seq<Withdrawal>, row: Withdrawal, limits: Limits, now: int) {
    Sum(ws, ProcessedInHour(Hour(now))) + row.amount <= limits.hourly
  }

  predicate WithinAll(ws: seq<Withdrawal>, row: Withdrawal, limits: Limits, now: int) {
    Sum(ws, ProcessedInDay(Day(now))) + row.amount <= limits.daily
  }

  /** The reason names the first limit that refused the row. */
  predicate ReasonNames(reason: string, single: bool, day: bool, hour: bool, all: bool) {
    && (!single ==> reason == "single limit exceeded")
    && (single && !day ==> reason == "user daily limit exceeded")
    && (single && day && !hour ==> reason == "global hourly limit delayed")
    && (single && day && hour && !all ==> reason == "global daily limit exceeded")
  }

  /** An approved row, settled at once in stub mode and awaiting its payout otherwise. */
  predicate ApprovedAs(row: Withdrawal, row': Withdrawal, now: int, stub: bool, signature: string) {
    if stub then
      row' == row.(status := Confirmed, signature := Some(signature), processedAt := Some(now), confirmedAt := Some(now), approvedAt := Some(now))
    else
      row' == row.(status := PayoutCreated, reason := "awaiting_chain_payout", processedAt := Some(now), approvedAt := Some(now))
  }

  /** What the batch makes of a picked row, given the other rows when its turn comes. */
  ghost predicate Decided(row: Withdrawal, row': Withdrawal, ws: seq<Withdrawal>, limits: Limits, now: int, stub: bool, signature: string) {
    var single, day, hour, all := row.amount <= limits.single, WithinDay(ws, row, limits, now), WithinHour(ws, row, limits, now), WithinAll(ws, row, limits, now);
    && (row'.status == ManualReview <==> !single || !day || (hour && !all))
    && (row'.status == Queued <==> single && day && !hour)
    && (row'.status !in {Queued, ManualReview} <==> single && day && hour && all)
    && if row'.status in {Queued, ManualReview}
       then row' == row.(status := row'.status, reason := row'.reason) && ReasonNames(row'.reason, single, day, hour, all)
       else ApprovedAs(row, row', now, stub, signature)
  }

  lemma ProcessOneDecides(batch: Batch, pick: Pick, limits: Limits, now: int, stub: bool, batch': Batch)
    requires Exact(batch, now) && pick.id < |batch.db.withdrawals| && batch.db.withdrawals[pick.id].status == Queued
    requires ProcessOne(batch, pick, limits, now, stub) == Ok(batch')
    ensures pick.id < |batch'.db.withdrawals|
    ensures Decided(batch.db.withdrawals[pick.id], batch'.db.withdrawals[pick.id], batch.db.withdrawals, limits, now, stub, pick.signature)
  {
  }

  /** The first picks of a batch that commits committed too. */
  lemma {:induction false} PrefixRuns(db: Db, picks: seq<Pick>, limits: Limits, now: int, stub: bool, k: nat, batch: Batch) returns (mid: Batch)
    requires SelectsQueued(db, picks) && k <= |picks| && ProcessPicks(db, picks, limits, now, stub) == Ok(batch)
    ensures ProcessPicks(db, picks[..k], limits, now, stub) == Ok(mid)
    ensures forall i :: 0 <= i < |db.withdrawals| && (forall j :: k <= j < |picks| ==> picks[j].id != i) ==>
      |mid.db.withdrawals| == |db.withdrawals| && batch.db.withdrawals[i] == mid.db.withdrawals[i]
    decreases |picks|
  {
    if k == |picks| {
      assert picks[..k] == picks;
      mid := batch;
    } else {
      var n := |picks| - 1;
      var last := ProcessPicks(db, picks[..n], limits, now, stub).value;
      assert picks[..n][..k] == picks[..k];
      mid := PrefixRuns(db, picks[..n], limits, now, stub, k, last);
      ProcessOneFrame(last, picks[n], limits, now, stub, batch);
    }
  }

  /** Every row that a committed batch picked: handed to a reviewer exactly when it is above the single
      limit, its account's day, or within the hour but above the day; left in the queue exactly when
      only the hour refuses it; approved exactly when all four limits admit it. A refused row keeps
      account, wallet and amount, and its reason names the limit. */
  lemma PickedRowOutcome(db: Db, picks: seq<Pick>, limits: Limits, now: int, stub: bool, batch: Batch, k: nat) returns (mid: Batch)
    requires SelectsQueued(db, picks) && k < |picks| && ProcessPicks(db, picks, limits, now, stub) == Ok(batch)
    ensures ProcessPicks(db, picks[..k], limits, now, stub) == Ok(mid)
    ensures var id := picks[k].id;
      Decided(db.withdrawals[id], batch.db.withdrawals[id], mid.db.withdrawals, limits, now, stub, picks[k].signature)
  {
    var id := picks[k].id;
    mid := PrefixRuns(db, picks, limits, now, stub, k, batch);
    var next := PrefixRuns(db, picks, limits, now, stub, k + 1, batch);
    ProcessPicksFrame(db, picks[..k], limits, now, stub, id);
    RunningBudgetExact(db, picks[..k], limits, now, stub, mid);
    assert picks[..k + 1][..k] == picks[..k];
    ProcessOneDecides(mid, picks[k], limits, now, stub, next);
  }

  // ---------------------------------------------------------------------
  // When the batch rolls back
  // ---------------------------------------------------------------------

  /** All four limits admit the row. */
  ghost predicate Admitted(ws: seq<Withdrawal>, row: Withdrawal, limits: Limits, now: int) {
    row.amount <= limits.single && WithinDay(ws, row, limits, now) && WithinHour(ws, row, limits, now) && WithinAll(ws, row, limits, now)
  }

  lemma ProcessOneFailsIff(batch: Batch, pick: Pick, limits: Limits, now: int, stub: bool)
    requires Sound(batch.db, now) && Exact(batch, now) && pick.id < |batch.db.withdrawals| && batch.db.withdrawals[pick.id].status == Queued
    ensures ProcessOne(batch, pick, limits, now, stub).Fail? <==>
      stub && Admitted(batch.db.withdrawals, batch.db.withdrawals[pick.id], limits, now) && SignatureTaken(batch.db.payouts, pick.signature)
  {
    NoPayoutBeforeApproval(batch.db, pick.id);
  }

  /** Pick `k` is admitted, and stub mode would give it a signature that a payout has. */
  ghost predicate Clashes(db: Db, picks: seq<Pick>, limits: Limits, now: int, k: nat)
    requires SelectsQueued(db, picks) && k < |picks|
  {
    ProcessPicks(db, picks[..k], limits, now, true).Ok?
    && var mid := ProcessPicks(db, picks[..k], limits, now, true).value.db;
       Admitted(mid.withdrawals, db.withdrawals[picks[k].id], limits, now) && SignatureTaken(mid.payouts, picks[k].signature)
  }

  lemma LastFailsIff(db: Db, picks: seq<Pick>, limits: Limits, now: int, stub: bool, mid: Batch)
    requires Sound(db, now) && BudgetsHeld(db, limits) && SelectsQueued(db, picks) && |picks| > 0
    requires ProcessPicks(db, picks[..|picks| - 1], limits, now, stub) == Ok(mid)
    ensures ProcessPicks(db, picks, limits, now, stub).Fail? <==>
      stub && Admitted(mid.db.withdrawals, db.withdrawals[picks[|picks| - 1].id], limits, now) && SignatureTaken(mid.db.payouts, picks[|picks| - 1].signature)
  {
    var n := |picks| - 1;
    ProcessPicksKeeps(db, picks[..n], limits, now, stub, mid);
    ProcessPicksFrame(db, picks[..n], limits, now, stub, picks[n].id);
    RunningBudgetExact(db, picks[..n], limits, now, stub, mid);
    ProcessOneFailsIff(mid, picks[n], limits, now, stub);
  }

  lemma ClashesInPrefix(db: Db, picks: seq<Pick>, limits: Limits, now: int, n: nat, k: nat)
    requires k < n <= |picks| && SelectsQueued(db, picks) && SelectsQueued(db, picks[..n])
    ensures Clashes(db, picks[..n], limits, now, k) == Clashes(db, picks, limits, now, k)
  {
    assert picks[..n][..k] == picks[..k];
  }

  lemma {:induction false} FailsWithClash(db: Db, picks: seq<Pick>, limits: Limits, now: int, stub: bool) returns (k: nat)
    requires Sound(db, now) && BudgetsHeld(db, limits) && SelectsQueued(db, picks)
    requires ProcessPicks(db, picks, limits, now, stub).Fail?
    ensures stub && k < |picks| && Clashes(db, picks, limits, now, k)
  {
    var n := |picks| - 1;
    var before := ProcessPicks(db, picks[..n], limits, now, stub);
    if before.Ok? {
      k := n;
      LastFailsIff(db, picks, limits, now, stub, before.value);
    } else {
      k := FailsWithClash(db, picks[..n], limits, now, stub);
      ClashesInPrefix(db, picks, limits, now, n, k);
    }
  }

  lemma ClashFails(db: Db, picks: seq<Pick>, limits: Limits, now: int, k: nat)
    requires Sound(db, now) && BudgetsHeld(db, limits) && SelectsQueued(db, picks) && k < |picks| && Clashes(db, picks, limits, now, k)
    ensures ProcessPicks(db, picks, limits, now, true).Fail?
  {
    var first := picks[..k + 1];
    assert first[..k] == picks[..k];
    LastFailsIff(db, first, limits, now, true, ProcessPicks(db, picks[..k], limits, now, true).value);
    var r := ProcessPicks(db, picks, limits, now, true);
    if r.Ok? { var mid := PrefixRuns(db, picks, limits, now, true, k + 1, r.value); }
  }

  /** A batch rolls back only in stub mode, and exactly when a row that the limits admit would get a
      signature that another payout has. */
  lemma BatchFailsIff(db: Db, picks: seq<Pick>, limits: Limits, now: int, stub: bool)
    requires Sound(db, now) && BudgetsHeld(db, limits) && SelectsQueued(db, picks)
    ensures ProcessPicks(db, picks, limits, now, stub).Fail? <==>
      stub && exists k :: 0 <= k < |picks| && Clashes(db, picks, limits, now, k)
  {
    if ProcessPicks(db, picks, limits, now, stub).Fail? {
      var k := FailsWithClash(db, picks, limits, now, stub);
    }
    if stub {
      forall k: nat | k < |picks| && Clashes(db, picks, limits, now, k) ensures ProcessPicks(db, picks, limits, now, stub).Fail? {
        ClashFails(db, picks, limits, now, k);
      }
    }
  }

  // ---------------------------------------------------------------------
  // Submission
  // ---------------------------------------------------------------------

  /** What a sending makes of its withdrawal and its payout. */
  predicate SentAs(w: Withdrawal, w': Withdrawal, p: Payout, p': Payout, outcome: SendOutcome, now: int) {
    match outcome
    case Accepted(s) =>
      && w' == w.(status := Submitted, signature := Some(s), processedAt := Some(now), reason := "")
      && p' == p.(status := Sent, signature := Some(s), submittedAt := Some(now), attempts := p.attempts + 1)
    case AccountMissing =>
      && w' == w.(status := Failed, reason := w'.reason) && p' == p.(status := Broken, attempts := p.attempts + 1)
    case ConfigError => w' == w && p' == p.(attempts := p.attempts + 1)
    case SendError => w' == w && p' == p.(attempts := p.attempts + 1)
  }

  ghost predicate SentRow(db: Db, db': Db, s: Sending, now: int) {
    && s.payout < |db.payouts| == |db'.payouts| && db.payouts[s.payout].withdrawal < |db.withdrawals| == |db'.withdrawals|
    && var id := db.payouts[s.payout].withdrawal;
       SentAs(db.withdrawals[id], db'.withdrawals[id], db.payouts[s.payout], db'.payouts[s.payout], s.outcome, now)
  }

  /** Rows `j` and `i` are the same in both. */
  predicate SameRows(db: Db, db': Db, j: nat, i: nat) {
    && |db'.payouts| == |db.payouts| && |db'.withdrawals| == |db.withdrawals| && j < |db.payouts| && i < |db.withdrawals|
    && db'.payouts[j] == db.payouts[j] && db'.withdrawals[i] == db.withdrawals[i]
  }

  /** One more sending leaves the rows of another payout and another withdrawal alone. */
  lemma SubmitOneFrame(db: Db, s: Sending, now: int, db': Db, j: nat, i: nat)
    requires s.payout < |db.payouts| && db.payouts[s.payout].withdrawal < |db.withdrawals| && SubmitOne(db, s, now) == Ok(db')
    requires j < |db.payouts| && i < |db.withdrawals| && s.payout != j && db.payouts[s.payout].withdrawal != i
    ensures |db'.payouts| == |db.payouts| && |db'.withdrawals| == |db.withdrawals|
    ensures db'.payouts[j] == db.payouts[j] && db'.withdrawals[i] == db.withdrawals[i]
  {
  }

  lemma SubmitOneSends(db: Db, s: Sending, now: int, db': Db)
    requires s.payout < |db.payouts| && db.payouts[s.payout].withdrawal < |db.withdrawals| && SubmitOne(db, s, now) == Ok(db')
    ensures SentRow(db, db', s, now)
  {
  }

  lemma SubmitPrefix(db: Db, list: seq<Sending>, now: int, db': Db) returns (mid: Db)
    requires PayoutsPoint(db) && Separate(db, list) && |list| > 0 && SubmitAll(db, list, now) == Ok(db')
    ensures SubmitAll(db, list[..|list| - 1], now) == Ok(mid)
    ensures list[|list| - 1].payout < |mid.payouts| && mid.payouts[list[|list| - 1].payout].withdrawal < |mid.withdrawals|
    ensures SubmitOne(mid, list[|list| - 1], now) == Ok(db')
    ensures SameRows(db, mid, list[|list| - 1].payout, db.payouts[list[|list| - 1].payout].withdrawal)
  {
    var n := |list| - 1;
    mid := SubmitAll(db, list[..n], now).value;
    SubmitRowFrame(db, list[..n], now, db.payouts[list[n].payout].withdrawal);
    SubmitAllFrame(db, list[..n], now, list[n].payout);
  }

  lemma SentThrough(db: Db, mid: Db, db': Db, s: Sending, now: int)
    requires SentRow(db, mid, s, now) && SameRows(mid, db', s.payout, db.payouts[s.payout].withdrawal)
    ensures SentRow(db, db', s, now)
  {
  }

  lemma SentFrom(db: Db, mid: Db, db': Db, s: Sending, now: int)
    requires s.payout < |db.payouts| && SameRows(db, mid, s.payout, db.payouts[s.payout].withdrawal) && SentRow(mid, db', s, now)
    ensures SentRow(db, db', s, now)
  {
  }

  /** Each sending of the list has its effect on its own withdrawal and payout. */
  lemma {:induction false} SubmitAllRow(db: Db, list: seq<Sending>, now: int, db': Db, k: nat)
    requires PayoutsPoint(db) && Separate(db, list) && SubmitAll(db, list, now) == Ok(db') && k < |list|
    ensures SentRow(db, db', list[k], now)
  {
    var n := |list| - 1;
    var mid := SubmitPrefix(db, list, now, db');
    if k < n {
      SubmitAllRow(db, list[..n], now, mid, k);
      SubmitOneFrame(mid, list[n], now, db', list[k].payout, db.payouts[list[k].payout].withdrawal);
      SentThrough(db, mid, db', list[k], now);
    } else {
      SubmitOneSends(mid, list[n], now, db');
      SentFrom(db, mid, db', list[n], now);
    }
  }

  /** The entry of one sending: WITHDRAWAL_SUBMITTED when it was accepted, none otherwise. */
  function SubmittedEntry(w: Withdrawal, p: Payout, s: Sending): seq<Entry> {
    if s.outcome.Accepted? then [Entry(w.account, WithdrawalSubmitted, p.amount, s.outcome.signature)] else []
  }

  /** The entries of a list of sendings, in their order. */
  function SubmittedEntries(db: Db, list: seq<Sending>): seq<Entry>
    requires PayoutsPoint(db) && forall k :: 0 <= k < |list| ==> list[k].payout < |db.payouts|
  {
    if |list| == 0 then []
    else
      var s := list[|list| - 1];
      var p := db.payouts[s.payout];
      SubmittedEntries(db, list[..|list| - 1]) + SubmittedEntry(db.withdrawals[p.withdrawal], p, s)
  }

  lemma SubmitOneLedger(db: Db, s: Sending, now: int, db': Db)
    requires s.payout < |db.payouts| && db.payouts[s.payout].withdrawal < |db.withdrawals| && SubmitOne(db, s, now) == Ok(db')
    ensures var p := db.payouts[s.payout];
      db'.ledger == db.ledger + SubmittedEntry(db.withdrawals[p.withdrawal], p, s) && db'.withdrawable == db.withdrawable
  {
  }

  lemma SubmittedMore(db: Db, list: seq<Sending>)
    requires PayoutsPoint(db) && |list| > 0 && forall k :: 0 <= k < |list| ==> list[k].payout < |db.payouts|
    ensures var s := list[|list| - 1];
      SubmittedEntries(db, list) ==
      SubmittedEntries(db, list[..|list| - 1]) + SubmittedEntry(db.withdrawals[db.payouts[s.payout].withdrawal], db.payouts[s.payout], s)
  {
  }

  lemma {:induction false} SubmittedThrough(db: Db, mid: Db, db': Db, list: seq<Sending>, s: Sending)
    requires PayoutsPoint(db) && |list| > 0 && forall k :: 0 <= k < |list| ==> list[k].payout < |db.payouts|
    requires s == list[|list| - 1] && SameRows(db, mid, s.payout, db.payouts[s.payout].withdrawal)
    requires mid.ledger == db.ledger + SubmittedEntries(db, list[..|list| - 1])
    requires db'.ledger == mid.ledger + SubmittedEntry(mid.withdrawals[db.payouts[s.payout].withdrawal], mid.payouts[s.payout], s)
    ensures db'.ledger == db.ledger + SubmittedEntries(db, list)
  {
    SubmittedMore(db, list);
  }

  lemma {:induction false} SubmitAllLedger(db: Db, list: seq<Sending>, now: int, db': Db)
    requires PayoutsPoint(db) && Separate(db, list) && SubmitAll(db, list, now) == Ok(db')
    ensures db'.ledger == db.ledger + SubmittedEntries(db, list) && db'.withdrawable == db.withdrawable
  {
    if |list| > 0 {
      var n := |list| - 1;
      var mid := SubmitPrefix(db, list, now, db');
      SubmitAllLedger(db, list[..n], now, mid);
      SubmitOneLedger(mid, list[n], now, db');
      SubmittedThrough(db, mid, db', list, list[n]);
    }
  }

  // ---------------------------------------------------------------------
  // When a submission rolls back
  // ---------------------------------------------------------------------

  predicate SentWith(list: seq<Sending>, signature: string) { exists k :: 0 <= k < |list| && list[k].outcome == Accepted(signature) }

  /** No accepted signature is one that a payout has, or that an earlier sending got. */
  predicate SignaturesNew(db: Db, list: seq<Sending>) {
    forall k :: 0 <= k < |list| && list[k].outcome.Accepted? ==>
      !SignatureTaken(db.payouts, list[k].outcome.signature) && !SentWith(list[..k], list[k].outcome.signature)
  }

  lemma TakenAfterOne(db: Db, s: Sending, now: int, db': Db, x: string)
    requires s.payout < |db.payouts| && db.payouts[s.payout].withdrawal < |db.withdrawals| && SubmitOne(db, s, now) == Ok(db')
    requires db.payouts[s.payout].signature.None?
    ensures SignatureTaken(db'.payouts, x) <==> SignatureTaken(db.payouts, x) || s.outcome == Accepted(x)
  {
    if s.outcome == Accepted(x) { assert db'.payouts[s.payout].signature == Some(x); }
    if SignatureTaken(db.payouts, x) {
      var j :| 0 <= j < |db.payouts| && db.payouts[j].signature == Some(x);
      assert db'.payouts[j].signature == Some(x);
    }
  }

  lemma SentWithMore(list: seq<Sending>, x: string)
    requires |list| > 0
    ensures SentWith(list, x) <==> SentWith(list[..|list| - 1], x) || list[|list| - 1].outcome == Accepted(x)
  {
    var n := |list| - 1;
    assert forall k :: 0 <= k < n ==> list[..n][k] == list[k];
  }

  /** A created payout has no signature yet. */
  predicate Unsigned(db: Db, list: seq<Sending>) {
    forall k :: 0 <= k < |list| ==> list[k].payout < |db.payouts| && db.payouts[list[k].payout].signature.None?
  }

  lemma {:induction false} TakenAfterAll(db: Db, list: seq<Sending>, now: int, db': Db, x: string)
    requires PayoutsPoint(db) && Separate(db, list) && Unsigned(db, list) && SubmitAll(db, list, now) == Ok(db')
    ensures SignatureTaken(db'.payouts, x) <==> SignatureTaken(db.payouts, x) || SentWith(list, x)
  {
    if |list| > 0 {
      var n := |list| - 1;
      var mid := SubmitAll(db, list[..n], now).value;
      TakenAfterAll(db, list[..n], now, mid, x);
      SubmitAllFrame(db, list[..n], now, list[n].payout);
      TakenAfterOne(mid, list[n], now, db', x);
      SentWithMore(list, x);
    }
  }

  lemma SignaturesNewMore(db: Db, list: seq<Sending>)
    requires |list| > 0
    ensures var n := |list| - 1;
      SignaturesNew(db, list) <==>
      (SignaturesNew(db, list[..n])
       && (list[n].outcome.Accepted? ==>
             !SignatureTaken(db.payouts, list[n].outcome.signature) && !SentWith(list[..n], list[n].outcome.signature)))
  {
    var n := |list| - 1;
    assert forall k :: 0 <= k < n ==> list[..n][..k] == list[..k] && list[..n][k] == list[k];
  }

  lemma LastCommitsIff(db: Db, list: seq<Sending>, now: int, mid: Db)
    requires PayoutsPoint(db) && Separate(db, list) && Unsigned(db, list) && |list| > 0 && SubmitAll(db, list[..|list| - 1], now) == Ok(mid)
    ensures var s := list[|list| - 1];
      SubmitAll(db, list, now).Ok? <==>
      (s.outcome.Accepted? ==> !SignatureTaken(db.payouts, s.outcome.signature) && !SentWith(list[..|list| - 1], s.outcome.signature))
  {
    var s := list[|list| - 1];
    if s.outcome.Accepted? { TakenAfterAll(db, list[..|list| - 1], now, mid, s.outcome.signature); }
  }

  lemma PrefixUnsigned(db: Db, list: seq<Sending>, n: nat)
    requires n <= |list| && Separate(db, list) && Unsigned(db, list)
    ensures Separate(db, list[..n]) && Unsigned(db, list[..n])
  {
  }

  /** A submission commits exactly when all signatures it got are new and different. */
  lemma {:induction false} SubmitCommitsIff(db: Db, list: seq<Sending>, now: int)
    requires PayoutsPoint(db) && Separate(db, list) && Unsigned(db, list)
    ensures SubmitAll(db, list, now).Ok? <==> SignaturesNew(db, list)
  {
    if |list| > 0 {
      var n := |list| - 1;
      PrefixUnsigned(db, list, n);
      SubmitCommitsIff(db, list[..n], now);
      SignaturesNewMore(db, list);
      var before := SubmitAll(db, list[..n], now);
      if before.Ok? { LastCommitsIff(db, list, now, before.value); }
    }
  }

  // ---------------------------------------------------------------------
  // The submission job
  // ---------------------------------------------------------------------

  lemma SelectedPart(db: Db, t: int, sendings: seq<Sending>)
    requires Sound(db, t) && SelectsPayouts(db, SendingIds(sendings), Created)
    ensures var part := SubmittedPart(db, sendings);
      Separate(db, part) && Unsigned(db, part)
      && forall k :: 0 <= k < |part| ==> db.withdrawals[db.payouts[part[k].payout].withdrawal].status == PayoutCreated
  {
    var part := SubmittedPart(db, sendings);
    SelectedAreSeparate(db, t, sendings, part);
    forall k | 0 <= k < |part|
      ensures db.payouts[part[k].payout].signature.None? && db.withdrawals[db.payouts[part[k].payout].withdrawal].status == PayoutCreated
    {
      assert SendingIds(sendings)[k] == part[k].payout;
      assert Paired(db.withdrawals[db.payouts[part[k].payout].withdrawal], db.payouts[part[k].payout]);
    }
  }

  /** A submission job commits exactly when the signatures it got are new and different; then each
      withdrawal it sent is SUBMITTED with exactly its signature when the transfer was accepted,
      FAILED when the recipient has no token account, and as before otherwise, with one entry for
      each accepted one. The sendings after a configuration error are not among them. */
  lemma SubmitOutcome(db: Db, t: int, now: int, sendings: seq<Sending>, k: nat)
    requires Sound(db, t) && SelectsPayouts(db, SendingIds(sendings), Created) && k < |SubmittedPart(db, sendings)|
    ensures var part, db' := SubmittedPart(db, sendings), Submit(db, sendings, now);
      var id := db.payouts[part[k].payout].withdrawal;
      if !SignaturesNew(db, part) then db' == db
      else
        && SentRow(db, db', part[k], now)
        && (forall s :: db'.withdrawals[id].status == Submitted && db'.withdrawals[id].signature == Some(s) <==> part[k].outcome == Accepted(s))
        && (db'.withdrawals[id].status == Failed <==> part[k].outcome == AccountMissing)
        && (db'.withdrawals[id] == db.withdrawals[id] <==> part[k].outcome in {ConfigError, SendError})
        && db'.ledger == db.ledger + SubmittedEntries(db, part) && db'.withdrawable == db.withdrawable
  {
    var part := SubmittedPart(db, sendings);
    SelectedPart(db, t, sendings);
    SubmitCommitsIff(db, part, now);
    var r := SubmitAll(db, part, now);
    if r.Ok? {
      SubmitAllRow(db, part, now, r.value, k);
      SubmitAllLedger(db, part, now, r.value);
    }
  }

  /** A submission job writes no payout that it did not send, and no withdrawal of another payout. */
  lemma SubmitFrame(db: Db, now: int, sendings: seq<Sending>, j: nat, i: nat)
    requires PayoutsPoint(db) && SelectsPayouts(db, SendingIds(sendings), Created) && j < |db.payouts| && i < |db.withdrawals|
    requires forall k :: 0 <= k < |SubmittedPart(db, sendings)| ==>
      SubmittedPart(db, sendings)[k].payout != j && db.payouts[SubmittedPart(db, sendings)[k].payout].withdrawal != i
    ensures var db' := Submit(db, sendings, now);
      |db'.payouts| == |db.payouts| && |db'.withdrawals| == |db.withdrawals| && db'.payouts[j] == db.payouts[j] && db'.withdrawals[i] == db.withdrawals[i]
  {
    var part := SubmittedPart(db, sendings);
    if SubmitAll(db, part, now).Ok? {
      SubmitAllFrame(db, part, now, j);
      SubmitRowFrame(db, part, now, i);
    }
  }

  // ---------------------------------------------------------------------
  // The confirmation job
  // ---------------------------------------------------------------------

  /** What a report of the chain makes of its withdrawal and its payout. */
  predicate ReportedAs(w: Withdrawal, w': Withdrawal, p: Payout, p': Payout, status: ChainStatus, now: int) {
    match status
    case Final => w' == w.(status := Confirmed, confirmedAt := Some(now)) && p' == p.(status := Settled, confirmedAt := Some(now))
    case Errored => w' == w.(status := Failed, reason := "payout signature failed") && p' == p.(status := Broken)
    case Pending => w' == w && p' == p
  }

  ghost predicate ReportedRow(db: Db, db': Db, c: Check, now: int) {
    && c.payout < |db.payouts| == |db'.payouts| && db.payouts[c.payout].withdrawal < |db.withdrawals| == |db'.withdrawals|
    && var id := db.payouts[c.payout].withdrawal;
       ReportedAs(db.withdrawals[id], db'.withdrawals[id], db.payouts[c.payout], db'.payouts[c.payout], c.status, now)
  }

  predicate SeparateChecks(db: Db, list: seq<Check>) {
    && (forall k :: 0 <= k < |list| ==> list[k].payout < |db.payouts|)
    && (forall j, k :: 0 <= j < k < |list| ==> db.payouts[list[j].payout].withdrawal != db.payouts[list[k].payout].withdrawal)
  }

  lemma ConfirmOneFrame(db: Db, c: Check, now: int, j: nat, i: nat)
    requires c.payout < |db.payouts| && db.payouts[c.payout].withdrawal < |db.withdrawals|
    requires j < |db.payouts| && i < |db.withdrawals| && c.payout != j && db.payouts[c.payout].withdrawal != i
    ensures var db' := ConfirmOne(db, c, now);
      |db'.payouts| == |db.payouts| && |db'.withdrawals| == |db.withdrawals| && db'.payouts[j] == db.payouts[j] && db'.withdrawals[i] == db.withdrawals[i]
  {
  }

  lemma ConfirmOneReports(db: Db, c: Check, now: int)
    requires c.payout < |db.payouts| && db.payouts[c.payout].withdrawal < |db.withdrawals|
    ensures ReportedRow(db, ConfirmOne(db, c, now), c, now)
  {
  }

  lemma ConfirmPrefix(db: Db, list: seq<Check>, now: int) returns (mid: Db)
    requires PayoutsPoint(db) && SeparateChecks(db, list) && |list| > 0
    ensures mid == ConfirmAll(db, list[..|list| - 1], now)
    ensures list[|list| - 1].payout < |mid.payouts| && mid.payouts[list[|list| - 1].payout].withdrawal < |mid.withdrawals|
    ensures ConfirmAll(db, list, now) == ConfirmOne(mid, list[|list| - 1], now)
    ensures SameRows(db, mid, list[|list| - 1].payout, db.payouts[list[|list| - 1].payout].withdrawal)
  {
    var n := |list| - 1;
    mid := ConfirmAll(db, list[..n], now);
    ConfirmRowFrame(db, list[..n], now, db.payouts[list[n].payout].withdrawal);
    ConfirmAllFrame(db, list[..n], now, list[n].payout);
  }

  lemma ReportedThrough(db: Db, mid: Db, db': Db, c: Check, now: int)
    requires ReportedRow(db, mid, c, now) && SameRows(mid, db', c.payout, db.payouts[c.payout].withdrawal)
    ensures ReportedRow(db, db', c, now)
  {
  }

  lemma ReportedFrom(db: Db, mid: Db, db': Db, c: Check, now: int)
    requires c.payout < |db.payouts| && SameRows(db, mid, c.payout, db.payouts[c.payout].withdrawal) && ReportedRow(mid, db', c, now)
    ensures ReportedRow(db, db', c, now)
  {
  }

  lemma {:induction false} ConfirmAllRow(db: Db, list: seq<Check>, now: int, db': Db, k: nat)
    requires PayoutsPoint(db) && SeparateChecks(db, list) && k < |list| && db' == ConfirmAll(db, list, now)
    ensures ReportedRow(db, db', list[k], now)
  {
    var n := |list| - 1;
    var mid := ConfirmPrefix(db, list, now);
    if k < n {
      ConfirmAllRow(db, list[..n], now, mid, k);
      ConfirmOneFrame(mid, list[n], now, list[k].payout, db.payouts[list[k].payout].withdrawal);
      ReportedThrough(db, mid, db', list[k], now);
    } else {
      ConfirmOneReports(mid, list[n], now);
      ReportedFrom(db, mid, db', list[n], now);
    }
  }

  /** The entry of one report: WITHDRAWAL_CONFIRMED when the signature is finalized, none otherwise. */
  function ReportEntry(w: Withdrawal, p: Payout, c: Check): seq<Entry>
    requires p.signature.Some?
  {
    if c.status.Final? then [Entry(w.account, WithdrawalConfirmed, p.amount, p.signature.value)] else []
  }

  predicate Signed(db: Db, list: seq<Check>) {
    forall k :: 0 <= k < |list| ==> list[k].payout < |db.payouts| && db.payouts[list[k].payout].signature.Some?
  }

  /** The entries of a list of reports, in their order. */
  function ReportEntries(db: Db, list: seq<Check>): seq<Entry>
    requires PayoutsPoint(db) && Signed(db, list)
  {
    if |list| == 0 then []
    else
      var c := list[|list| - 1];
      var p := db.payouts[c.payout];
      ReportEntries(db, list[..|list| - 1]) + ReportEntry(db.withdrawals[p.withdrawal], p, c)
  }

  lemma ConfirmOneLedger(db: Db, c: Check, now: int)
    requires c.payout < |db.payouts| && db.payouts[c.payout].withdrawal < |db.withdrawals| && db.payouts[c.payout].signature.Some?
    ensures var p, db' := db.payouts[c.payout], ConfirmOne(db, c, now);
      db'.ledger == db.ledger + ReportEntry(db.withdrawals[p.withdrawal], p, c) && db'.withdrawable == db.withdrawable
  {
  }

  lemma ReportMore(db: Db, list: seq<Check>)
    requires PayoutsPoint(db) && |list| > 0 && Signed(db, list)
    ensures var c := list[|list| - 1];
      ReportEntries(db, list) ==
      ReportEntries(db, list[..|list| - 1]) + ReportEntry(db.withdrawals[db.payouts[c.payout].withdrawal], db.payouts[c.payout], c)
  {
  }

  lemma {:induction false} ReportedThroughout(db: Db, mid: Db, db': Db, list: seq<Check>, c: Check)
    requires PayoutsPoint(db) && |list| > 0 && Signed(db, list)
    requires c == list[|list| - 1] && SameRows(db, mid, c.payout, db.payouts[c.payout].withdrawal)
    requires mid.ledger == db.ledger + ReportEntries(db, list[..|list| - 1])
    requires db'.ledger == mid.ledger + ReportEntry(mid.withdrawals[db.payouts[c.payout].withdrawal], mid.payouts[c.payout], c)
    ensures db'.ledger == db.ledger + ReportEntries(db, list)
  {
    ReportMore(db, list);
  }

  lemma {:induction false} ConfirmAllLedger(db: Db, list: seq<Check>, now: int, db': Db)
    requires PayoutsPoint(db) && SeparateChecks(db, list) && Signed(db, list) && db' == ConfirmAll(db, list, now)
    ensures db'.ledger == db.ledger + ReportEntries(db, list) && db'.withdrawable == db.withdrawable
  {
    if |list| > 0 {
      var n := |list| - 1;
      var mid := ConfirmPrefix(db, list, now);
      ConfirmAllLedger(db, list[..n], now, mid);
      ConfirmOneLedger(mid, list[n], now);
      ReportedThroughout(db, mid, db', list, list[n]);
    }
  }

  lemma SelectedChecks(db: Db, t: int, checks: seq<Check>)
    requires Sound(db, t) && SelectsSubmitted(db, checks)
    ensures SeparateChecks(db, checks)
    ensures forall k :: 0 <= k < |checks| ==> db.withdrawals[db.payouts[checks[k].payout].withdrawal].status == Submitted
  {
    assert forall k :: 0 <= k < |checks| ==> CheckIds(checks)[k] == checks[k].payout;
    forall j, k | 0 <= j < k < |checks| ensures db.payouts[checks[j].payout].withdrawal != db.payouts[checks[k].payout].withdrawal {
      OnlyPayout(db, checks[j].payout, checks[k].payout);
    }
    forall k | 0 <= k < |checks| ensures db.withdrawals[db.payouts[checks[k].payout].withdrawal].status == Submitted {
      assert Paired(db.withdrawals[db.payouts[checks[k].payout].withdrawal], db.payouts[checks[k].payout]);
    }
  }

  /** The confirmation job follows the chain's reports: a withdrawal it selected is CONFIRMED now exactly
      when its signature is finalized, FAILED exactly when it errored, and as before exactly when it
      is pending; one entry for each finalized one, with its account, amount and signature. */
  lemma ConfirmOutcome(db: Db, t: int, now: int, checks: seq<Check>, k: nat)
    requires Sound(db, t) && SelectsSubmitted(db, checks) && k < |checks|
    ensures var db' := Confirm(db, checks, now);
      var id := db.payouts[checks[k].payout].withdrawal;
      && ReportedRow(db, db', checks[k], now)
      && (db'.withdrawals[id].status == Confirmed && db'.withdrawals[id].confirmedAt == Some(now) <==> checks[k].status.Final?)
      && (db'.withdrawals[id].status == Failed <==> checks[k].status.Errored?)
      && (db'.withdrawals[id] == db.withdrawals[id] && db'.payouts[checks[k].payout] == db.payouts[checks[k].payout] <==> checks[k].status.Pending?)
      && db'.ledger == db.ledger + ReportEntries(db, checks) && db'.withdrawable == db.withdrawable
  {
    SelectedChecks(db, t, checks);
    ConfirmAllRow(db, checks, now, Confirm(db, checks, now), k);
    ConfirmAllLedger(db, checks, now, Confirm(db, checks, now));
  }

  /** The confirmation job writes no payout that it did not select, and no withdrawal of another payout. */
  lemma ConfirmFrame(db: Db, now: int, checks: seq<Check>, j: nat, i: nat)
    requires PayoutsPoint(db) && SelectsSubmitted(db, checks) && j < |db.payouts| && i < |db.withdrawals|
    requires forall k :: 0 <= k < |checks| ==> checks[k].payout != j && db.payouts[checks[k].payout].withdrawal != i
    ensures var db' := Confirm(db, checks, now);
      |db'.payouts| == |db.payouts| && |db'.withdrawals| == |db.withdrawals| && db'.payouts[j] == db.payouts[j] && db'.withdrawals[i] == db.withdrawals[i]
  {
    ConfirmAllFrame(db, checks, now, j);
    ConfirmRowFrame(db, checks, now, i);
  }

  // ---------------------------------------------------------------------
  // Over whole runs: a request is never rewritten
  // ---------------------------------------------------------------------

  predicate SameRequest(w: Withdrawal, w': Withdrawal) { w'.account == w.account && w'.wallet == w.wallet && w'.amount == w.amount }

  ghost predicate RequestsStay(db: Db, db': Db) {
    && |db.withdrawals| <= |db'.withdrawals|
    && forall i :: 0 <= i < |db.withdrawals| ==> SameRequest(db.withdrawals[i], db'.withdrawals[i])
  }

  lemma ProcessOneKeepsRequest(batch: Batch, pick: Pick, limits: Limits, now: int, stub: bool, batch': Batch)
    requires pick.id < |batch.db.withdrawals| && ProcessOne(batch, pick, limits, now, stub) == Ok(batch')
    ensures RequestsStay(batch.db, batch'.db)
  {
    ProcessOneFrame(batch, pick, limits, now, stub, batch');
    assert SameRequest(batch.db.withdrawals[pick.id], batch'.db.withdrawals[pick.id]);
  }

  lemma RequestsStayThrough(db: Db, mid: Db, db': Db)
    requires RequestsStay(db, mid) && RequestsStay(mid, db')
    ensures RequestsStay(db, db')
  {
    forall i | 0 <= i < |db.withdrawals| ensures SameRequest(db.withdrawals[i], db'.withdrawals[i]) {
      assert SameRequest(db.withdrawals[i], mid.withdrawals[i]);
    }
  }

  lemma {:induction false} ProcessKeepsRequests(db: Db, picks: seq<Pick>, limits: Limits, now: int, stub: bool, batch: Batch)
    requires forall k :: 0 <= k < |picks| ==> picks[k].id < |db.withdrawals|
    requires ProcessPicks(db, picks, limits, now, stub) == Ok(batch)
    ensures RequestsStay(db, batch.db)
  {
    if |picks| > 0 {
      var n := |picks| - 1;
      var mid := ProcessPicks(db, picks[..n], limits, now, stub).value;
      ProcessKeepsRequests(db, picks[..n], limits, now, stub, mid);
      ProcessOneKeepsRequest(mid, picks[n], limits, now, stub, batch);
      RequestsStayThrough(db, mid.db, batch.db);
    }
  }

  lemma {:induction false} SubmitKeepsRequests(db: Db, list: seq<Sending>, now: int, db': Db)
    requires PayoutsPoint(db) && forall k :: 0 <= k < |list| ==> list[k].payout < |db.payouts|
    requires SubmitAll(db, list, now) == Ok(db')
    ensures RequestsStay(db, db')
  {
    if |list| > 0 {
      var n := |list| - 1;
      SubmitKeepsRequests(db, list[..n], now, SubmitAll(db, list[..n], now).value);
    }
  }

  lemma {:induction false} ConfirmKeepsRequests(db: Db, list: seq<Check>, now: int)
    requires PayoutsPoint(db) && forall k :: 0 <= k < |list| ==> list[k].payout < |db.payouts|
    ensures RequestsStay(db, ConfirmAll(db, list, now))
  {
    if |list| > 0 { ConfirmKeepsRequests(db, list[..|list| - 1], now); }
  }

  lemma StepKeepsRequests(db: Db, limits: Limits, now: int, step: Step)
    ensures RequestsStay(db, Apply(db, limits, now, step))
  {
    match step
    case ProcessStep(picks, stub) =>
      if SelectsQueued(db, picks) && ProcessPicks(db, picks, limits, now, stub).Ok? {
        ProcessKeepsRequests(db, picks, limits, now, stub, ProcessPicks(db, picks, limits, now, stub).value);
      }
    case SubmitStep(sendings) =>
      if PayoutsPoint(db) && SelectsPayouts(db, SendingIds(sendings), Created) && SubmitAll(db, SubmittedPart(db, sendings), now).Ok? {
        SubmitKeepsRequests(db, SubmittedPart(db, sendings), now, Submit(db, sendings, now));
      }
    case ConfirmStep(checks) =>
      if PayoutsPoint(db) && SelectsSubmitted(db, checks) { ConfirmKeepsRequests(db, checks, now); }
    case _ =>
  }

  /** However a run goes on, a withdrawal keeps the account, the wallet and the amount it was asked for
      with, so its payout, which agrees with it, goes to the wallet of the request. */
  lemma {:induction false} RequestsOverRuns(db: Db, limits: Limits, steps: seq<Timed>)
    ensures RequestsStay(db, Run(db, limits, steps))
  {
    if |steps| > 0 {
      var n := |steps| - 1;
      var mid := Run(db, limits, steps[..n]);
      RequestsOverRuns(db, limits, steps[..n]);
      StepKeepsRequests(mid, limits, steps[n].now, steps[n].step);
      RequestsStayThrough(db, mid, Run(db, limits, steps));
    }
  }
}
