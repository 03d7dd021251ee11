/** The worker jobs as they run: loops over rows that update the tables in
    place and roll back on the first database error. */
module WithdrawalStore {
  import opened Basics
  import opened Withdrawals

  /** A batch that failed on a prefix of its rows fails as a whole. */
  lemma {:induction false} ProcessFailsFrom(db: Db, picks: seq<Pick>, limits: Limits, now: int, stub: bool, k: nat)
    requires forall i :: 0 <= i < |picks| ==> picks[i].id < |db.withdrawals|
    requires k <= |picks| && ProcessPicks(db, picks[..k], limits, now, stub).Fail?
    ensures ProcessPicks(db, picks, limits, now, stub).Fail?
    decreases |picks|
  {
    if k == |picks| {
      assert picks[..k] == picks;
    } else {
      assert picks[..|picks| - 1][..k] == picks[..k];
      ProcessFailsFrom(db, picks[..|picks| - 1], limits, now, stub, k);
    }
  }

  lemma ProcessPrefix(db: Db, picks: seq<Pick>, limits: Limits, now: int, stub: bool, k: nat, batch: Batch)
    requires forall i :: 0 <= i < |picks| ==> picks[i].id < |db.withdrawals|
    requires k < |picks| && ProcessPicks(db, picks[..k], limits, now, stub) == Ok(batch)
    ensures picks[k].id < |batch.db.withdrawals|
    ensures ProcessPicks(db, picks[..k + 1], limits, now, stub) == ProcessOne(batch, picks[k], limits, now, stub)
  {
    assert picks[..k + 1][..k] == picks[..k];
  }

  lemma SubmitPrefix(db: Db, list: seq<Sending>, now: int, k: nat, mid: Db)
    requires PayoutsPoint(db) && forall i :: 0 <= i < |list| ==> list[i].payout < |db.payouts|
    requires k < |list| && SubmitAll(db, list[..k], now) == Ok(mid)
    ensures list[k].payout < |mid.payouts| && mid.payouts[list[k].payout].withdrawal < |mid.withdrawals|
    ensures SubmitAll(db, list[..k + 1], now) == SubmitOne(mid, list[k], now)
  {
    assert list[..k + 1][..k] == list[..k];
  }

  lemma {:induction false} SubmitFailsFrom(db: Db, list: seq<Sending>, now: int, k: nat)
    requires PayoutsPoint(db) && forall i :: 0 <= i < |list| ==> list[i].payout < |db.payouts|
    requires k <= |list| && SubmitAll(db, list[..k], now).Fail?
    ensures SubmitAll(db, list, now).Fail?
    decreases |list|
  {
    if k == |list| {
      assert list[..k] == list;
    } else {
      assert list[..|list| - 1][..k] == list[..k];
      SubmitFailsFrom(db, list[..|list| - 1], now, k);
    }
  }

  class WithdrawalJobs {
    var withdrawable: map<nat, int>
    var withdrawals: seq<Withdrawal>
    var payouts: seq<Payout>
    var ledger: seq<Entry>

    function State(): Db
      reads this
    {
      Db(withdrawable, withdrawals, payouts, ledger)
    }

    constructor ()
      ensures State() == Db(map[], [], [], [])
    {
      withdrawable, withdrawals, payouts, ledger := map[], [], [], [];
    }

    method Rollback(saved: Db)
      modifies this
      ensures State() == saved
    {
      withdrawable, withdrawals, payouts, ledger := saved.withdrawable, saved.withdrawals, saved.payouts, saved.ledger;
    }

    method CreateWithdrawalRow(account: nat, amount: int, wallet: string, manual: bool) returns (ok: bool)
      modifies this
      ensures ok ==> CreateWithdrawal(old(State()), account, amount, wallet, manual) == Ok(State())
      ensures !ok ==> CreateWithdrawal(old(State()), account, amount, wallet, manual).Fail? && State() == old(State())
      ensures ok <==> 0 < amount <= Balance(old(withdrawable), account)
      ensures ok ==> forall a: nat :: Balance(withdrawable, a) == Balance(old(withdrawable), a) - if a == account then amount else 0
      ensures ok ==> |withdrawals| == old(|withdrawals|) + 1 && withdrawals[..old(|withdrawals|)] == old(withdrawals)
      ensures ok ==> withdrawals[old(|withdrawals|)].account == account && withdrawals[old(|withdrawals|)].amount == amount
      ensures ok ==> withdrawals[old(|withdrawals|)].wallet == if wallet == "" then "pending_wallet_for_account_" + Decimal(account) else wallet
      ensures ok ==> withdrawals[old(|withdrawals|)].status == if manual then ManualReview else Queued
      ensures ok ==> withdrawals[old(|withdrawals|)].signature.None? && withdrawals[old(|withdrawals|)].processedAt.None?
      ensures ok ==> ledger == old(ledger) + [Entry(account, WithdrawalRequested, amount, "")] && payouts == old(payouts)
    {
      if amount <= 0 || Balance(withdrawable, account) < amount {
        return false;
      }
      withdrawable := withdrawable[account := Balance(withdrawable, account) - amount];
      var status, reason := Queued, "";
      if manual {
        status, reason := ManualReview, "manual requested";
      }
      var target := if wallet == "" then "pending_wallet_for_account_" + Decimal(account) else wallet;
      withdrawals := withdrawals + [Withdrawal(account, target, amount, status, reason, None, None, None, None)];
      ledger := ledger + [Entry(account, WithdrawalRequested, amount, "")];
      ok := true;
    }

    method ReviewWithdrawalRow(id: nat, approve: bool, reason: string) returns (ok: bool)
      modifies this
      ensures ok ==> ReviewWithdrawal(old(State()), id, approve, reason) == Ok(State())
      ensures !ok ==> ReviewWithdrawal(old(State()), id, approve, reason).Fail? && State() == old(State())
      ensures ok <==> id < old(|withdrawals|) && old(withdrawals)[id].status == ManualReview
      ensures ok ==> |withdrawals| == old(|withdrawals|) && withdrawals[id].status == if approve then Queued else Rejected
      ensures ok ==> withdrawals[id] == old(withdrawals)[id].(status := withdrawals[id].status, reason := withdrawals[id].reason)
      ensures ok ==> ledger == old(ledger) && payouts == old(payouts)
      ensures ok ==> forall i :: 0 <= i < |withdrawals| && i != id ==> withdrawals[i] == old(withdrawals)[i]
      ensures ok ==> forall a: nat :: Balance(withdrawable, a) == Balance(old(withdrawable), a)
                                      + if !approve && a == old(withdrawals)[id].account then old(withdrawals)[id].amount else 0
    {
      if id >= |withdrawals| || withdrawals[id].status != ManualReview {
        return false;
      }
      var row := withdrawals[id];
      if approve {
        withdrawals := withdrawals[id := row.(status := Queued, reason := "approved: " + reason)];
      } else {
        withdrawals := withdrawals[id := row.(status := Rejected, reason := reason)];
        withdrawable := withdrawable[row.account := Balance(withdrawable, row.account) + row.amount];
      }
      ok := true;
    }

    /** The totals already spent in the hour and the day of `now`. */
    method SpentBudgets(now: int) returns (b: Budget)
      ensures b == BudgetOf(withdrawals, now)
    {
      var userDaily: map<nat, int> := map[];
      var hourly, daily := 0, 0;
      for i := 0 to |withdrawals|
        invariant Budget(userDaily, hourly, daily) == BudgetOf(withdrawals[..i], now)
      {
        var w := withdrawals[i];
        assert withdrawals[..i + 1][..i] == withdrawals[..i];
        if CountsForBudget(w) {
          if Day(w.processedAt.value) == Day(now) {
            userDaily := userDaily[w.account := Balance(userDaily, w.account) + w.amount];
            daily := daily + w.amount;
          }
          if Hour(w.processedAt.value) == Hour(now) {
            hourly := hourly + w.amount;
          }
        }
      }
      assert withdrawals[..|withdrawals|] == withdrawals;
      b := Budget(userDaily, hourly, daily);
    }

    /** One row of the batch: the limits in the order the worker checks them. */
    method ProcessRow(pick: Pick, b: Budget, limits: Limits, now: int, stub: bool) returns (ok: bool, b': Budget)
      requires pick.id < |withdrawals|
      modifies this
      ensures ok ==> ProcessOne(Batch(old(State()), b), pick, limits, now, stub) == Ok(Batch(State(), b'))
      ensures !ok ==> ProcessOne(Batch(old(State()), b), pick, limits, now, stub).Fail?
    {
      ok, b' := true, b;
      var row := withdrawals[pick.id];
      if row.amount > limits.single {
        withdrawals := withdrawals[pick.id := row.(status := ManualReview, reason := "single limit exceeded")];
      } else if Balance(b.userDaily, row.account) + row.amount > limits.userDaily {
        withdrawals := withdrawals[pick.id := row.(status := ManualReview, reason := "user daily limit exceeded")];
      } else if b.hourly + row.amount > limits.hourly {
        withdrawals := withdrawals[pick.id := row.(reason := "global hourly limit delayed")];
      } else if b.daily + row.amount > limits.daily {
        withdrawals := withdrawals[pick.id := row.(status := ManualReview, reason := "global daily limit exceeded")];
      } else if HasPayout(payouts, pick.id) || (stub && SignatureTaken(payouts, pick.signature)) {
        ok := false;
      } else {
        b' := Budget(b.userDaily[row.account := Balance(b.userDaily, row.account) + row.amount],
                     b.hourly + row.amount, b.daily + row.amount);
        if stub {
          payouts := payouts + [Payout(pick.id, row.wallet, row.amount, Settled, Some(pick.signature), 1, Some(now), Some(now))];
          withdrawals := withdrawals[pick.id := row.(status := Confirmed, signature := Some(pick.signature),
                                                     processedAt := Some(now), confirmedAt := Some(now),
                                                     approvedAt := Some(now))];
          ledger := ledger + [Entry(row.account, WithdrawalConfirmed, row.amount, pick.signature)];
        } else {
          payouts := payouts + [Payout(pick.id, row.wallet, row.amount, Created, None, 0, None, None)];
          withdrawals := withdrawals[pick.id := row.(status := PayoutCreated, reason := "awaiting_chain_payout",
                                                     processedAt := Some(now), approvedAt := Some(now))];
        }
      }
    }

    /** Processes the rows the locking query returned, in its order. */
    method ProcessAutoWithdrawals(picks: seq<Pick>, limits: Limits, now: int, stub: bool) returns (committed: bool)
      requires SelectsQueued(State(), picks)
      modifies this
      ensures State() == Process(old(State()), picks, limits, now, stub)
      ensures committed <==> ProcessPicks(old(State()), picks, limits, now, stub).Ok?
      ensures !committed ==> State() == old(State())
    {
      var saved := State();
      committed := ProcessRows(picks, limits, now, stub);
      if !committed {
        Rollback(saved);
      }
    }

    method ProcessRows(picks: seq<Pick>, limits: Limits, now: int, stub: bool) returns (ok: bool)
      requires forall k :: 0 <= k < |picks| ==> picks[k].id < |withdrawals|
      modifies this
      ensures ok ==> ProcessPicks(old(State()), picks, limits, now, stub).Ok?
                     && ProcessPicks(old(State()), picks, limits, now, stub).value.db == State()
      ensures !ok ==> ProcessPicks(old(State()), picks, limits, now, stub).Fail?
    {
      ghost var saved := State();
      var b := SpentBudgets(now);
      for i := 0 to |picks|
        invariant |withdrawals| == |saved.withdrawals|
        invariant ProcessPicks(saved, picks[..i], limits, now, stub) == Ok(Batch(State(), b))
      {
        ProcessPrefix(saved, picks, limits, now, stub, i, Batch(State(), b));
        ok, b := ProcessRow(picks[i], b, limits, now, stub);
        if !ok {
          ProcessFailsFrom(saved, picks, limits, now, stub, i + 1);
          return;
        }
      }
      assert picks[..|picks|] == picks;
      ok := true;
    }

    /** One payout of the batch, with what sending it gave. */
    method SubmitRow(s: Sending, now: int) returns (ok: bool)
      requires s.payout < |payouts| && payouts[s.payout].withdrawal < |withdrawals|
      modifies this
      ensures ok ==> SubmitOne(old(State()), s, now) == Ok(State())
      ensures !ok ==> SubmitOne(old(State()), s, now).Fail?
      ensures ok && old(PayoutsPoint(State())) ==> PayoutsPoint(State()) && |payouts| == old(|payouts|)
    {
      ok := true;
      var p := payouts[s.payout];
      var w := withdrawals[p.withdrawal];
      match s.outcome {
        case Accepted(signature) =>
          if SignatureTaken(payouts, signature) {
            return false;
          }
          payouts := payouts[s.payout := p.(status := Sent, signature := Some(signature),
                                            submittedAt := Some(now), attempts := p.attempts + 1)];
          withdrawals := withdrawals[p.withdrawal := w.(status := Submitted, signature := Some(signature),
                                                        processedAt := Some(now), reason := "")];
          ledger := ledger + [Entry(w.account, WithdrawalSubmitted, p.amount, signature)];
        case AccountMissing =>
          payouts := payouts[s.payout := p.(status := Broken, attempts := p.attempts + 1)];
          withdrawals := withdrawals[p.withdrawal := w.(status := Failed, reason := "recipient ATA missing")];
        case _ =>
          payouts := payouts[s.payout := p.(attempts := p.attempts + 1)];
      }
    }

    /** The sending loop; `part` is the prefix that ends with the first configuration error. */
    method SubmitRows(list: seq<Sending>, now: int, ghost part: seq<Sending>) returns (ok: bool)
      requires PayoutsPoint(State()) && part == UntilConfigError(list)
      requires forall k :: 0 <= k < |list| ==> list[k].payout < |payouts|
      modifies this
      ensures part <= list
      ensures ok ==> SubmitAll(old(State()), part, now) == Ok(State())
      ensures !ok ==> SubmitAll(old(State()), part, now).Fail?
    {
      ghost var saved := State();
      UntilConfigErrorIsPrefix(list);
      for i := 0 to |list|
        invariant i <= |part|
        invariant |payouts| == |saved.payouts| && PayoutsPoint(State())
        invariant SubmitAll(saved, part[..i], now) == Ok(State())
        invariant i > 0 ==> !list[i - 1].outcome.ConfigError?
      {
        SubmitPrefix(saved, part, now, i, State());
        ok := SubmitRow(list[i], now);
        if !ok {
          SubmitFailsFrom(saved, part, now, i + 1);
          return;
        }
        if list[i].outcome.ConfigError? {
          assert part[..i + 1] == part;
          return;
        }
      }
      assert part[..|list|] == part;
      ok := true;
    }

    /** Sends the selected payouts until a configuration error ends the batch. */
    method SubmitSolanaPayouts(list: seq<Sending>, now: int) returns (committed: bool)
      requires PayoutsPoint(State()) && SelectsPayouts(State(), SendingIds(list), Created)
      modifies this
      ensures State() == Submit(old(State()), list, now)
      ensures !committed ==> State() == old(State())
    {
      var saved := State();
      assert forall k :: 0 <= k < |list| ==> SendingIds(list)[k] == list[k].payout;
      committed := SubmitRows(list, now, UntilConfigError(list));
      if !committed {
        Rollback(saved);
      }
    }

    /** Applies the statuses the chain reported for the selected signatures. */
    method ConfirmSolanaPayouts(list: seq<Check>, now: int)
      requires PayoutsPoint(State()) && SelectsSubmitted(State(), list)
      modifies this
      ensures State() == Confirm(old(State()), list, now)
    {
      var saved := State();
      for i := 0 to |list|
        invariant |payouts| == |saved.payouts| && PayoutsPoint(State())
        invariant ConfirmAll(saved, list[..i], now) == State()
      {
        var c := list[i];
        var p := payouts[c.payout];
        var w := withdrawals[p.withdrawal];
        assert list[..i + 1][..i] == list[..i];
        if c.status.Errored? {
          payouts := payouts[c.payout := p.(status := Broken)];
          withdrawals := withdrawals[p.withdrawal := w.(status := Failed, reason := "payout signature failed")];
        } else if c.status.Final? {
          payouts := payouts[c.payout := p.(status := Settled, confirmedAt := Some(now))];
          withdrawals := withdrawals[p.withdrawal := w.(status := Confirmed, confirmedAt := Some(now))];
          ledger := ledger + [Entry(w.account, WithdrawalConfirmed, p.amount,
                                    if p.signature.Some? then p.signature.value else "")];
        }
      }
      assert list[..|list|] == list;
    }
  }
}
