/** A concrete run that shows where the exactly-once claim ends. */
module BridgeExample {
  import opened Basics
  import opened Credits
  import opened Bridge
  import opened BridgeProofs

  // One transfer of 100 from an account with an open order of another amount.
  ghost const TRANSFER := Credit("A", "D", 100)
  ghost const EXAMPLE_WORLD := World(_ => [TRANSFER], 0)
  ghost const EXAMPLE_ENV := Env(5, _ => true, _ => true)
  ghost const EXAMPLE_RULES := Rules(10, 50, 600, 5, 100, 600, 100, 600)
  ghost const EXAMPLE_ORDER := Order(0, None, TradingLicense, 7, PendingPayment, None, 0, 600, None)
  ghost const EXAMPLE_DB := Db([Account("A", true, false, 0, 0, 0)], [], [EXAMPLE_ORDER], [], [], "")
  ghost const EXAMPLE_HISTORY := [SignatureInfo("x", false)]
  ghost const PAID := PaymentFulfilled(0, 7, 0)
  ghost const DONE_ORDER := EXAMPLE_ORDER.(status := Fulfilled, signature := Some("x"), submittedAt := Some(5))
  ghost const TRUSTED_DB := EXAMPLE_DB.(accounts := [Account("A", true, true, 0, 0, 0)], orders := [DONE_ORDER], ledger := [PAID])

  lemma TrustedAndConfirmed()
    ensures Run(System(EXAMPLE_DB, EXAMPLE_HISTORY), EXAMPLE_WORLD, EXAMPLE_RULES,
                [UnverifiedStep(0, 0, "x", 5), ConfirmStep(0, EXAMPLE_ENV)]) == System(TRUSTED_DB, EXAMPLE_HISTORY)
  {
    var sys := System(EXAMPLE_DB, EXAMPLE_HISTORY);
    var s1, s2 := UnverifiedStep(0, 0, "x", 5), ConfirmStep(0, EXAMPLE_ENV);
    assert Trim("x") == "x";
    var db1 := EXAMPLE_DB.(orders := [DONE_ORDER.(status := OrderSubmitted)]);
    assert Apply(sys, EXAMPLE_WORLD, EXAMPLE_RULES, s1).db == db1;
    assert Apply(System(db1, EXAMPLE_HISTORY), EXAMPLE_WORLD, EXAMPLE_RULES, s2).db == TRUSTED_DB;
    assert [s1][..0] == [] && [s1, s2][..1] == [s1];
    assert Run(sys, EXAMPLE_WORLD, EXAMPLE_RULES, [s1]) == System(db1, EXAMPLE_HISTORY);
  }

  lemma ScannedAfterwards()
    ensures Scan(TRUSTED_DB, EXAMPLE_HISTORY, EXAMPLE_WORLD, EXAMPLE_ENV) ==
      Ok(TRUSTED_DB.(accounts := [Account("A", true, true, 0, 100, 100)],
                     receipts := [Receipt("x", Some(0), "A", 100, Credited)],
                     ledger := [PAID, DepositCredited(0, 100, "x")], cursor := "x"))
  {
    var db, w, env := TRUSTED_DB, EXAMPLE_WORLD, EXAMPLE_ENV;
    assert Trim("A") == "A" && RawToGame(TRANSFER.raw, 0) == Ok(100);
    assert MatchOrder(db, "A", 100, "x", env) == Ok(Matching(db, false)) by {
      assert BestMatch(db.orders[..0], 0, 100, "x", 5) == None;
    }
    var credited := db.(accounts := [Account("A", true, true, 0, 100, 100)],
                        receipts := [Receipt("x", Some(0), "A", 100, Credited)],
                        ledger := [PAID, DepositCredited(0, 100, "x")]);
    assert CreditDeposit(db, "A", 100, "x") == credited by {
      assert FindActive(db.accounts, "A") == Some(0);
    }
    assert ProcessCredit(db, TRANSFER, "x", w, env) == Ok(credited);
    assert [TRANSFER][..0] == [] && ProcessCredits(db, [TRANSFER], "x", w, env) == ProcessCredit(db, TRANSFER, "x", w, env);
    assert NewerThan(EXAMPLE_HISTORY, "") == EXAMPLE_HISTORY by { assert NewerThan(EXAMPLE_HISTORY[1..], "") == []; }
    assert EXAMPLE_HISTORY[..0] == [];
    assert ProcessRows(db, EXAMPLE_HISTORY, w, env) == ProcessSignature(db, EXAMPLE_HISTORY[0], w, env);
  }

  lemma TwoEffects(db: Db)
    requires db.orders == [DONE_ORDER] && db.ledger == [PAID, DepositCredited(0, 100, "x")]
    ensures EffectsOf(db, "x") == 2
  {
    SumAppend([PAID], DepositCredited(0, 100, "x"), CreditEntry("x"));
    SumAppend([], PAID, CreditEntry("x"));
    SumAppend([], DONE_ORDER, FulfilledWith("x"));
    assert [] + [PAID] == [PAID] && [] + [DONE_ORDER] == [DONE_ORDER];
    assert [PAID] + [DepositCredited(0, 100, "x")] == db.ledger;
  }

  /** Why the claim is for runs with the RPC node on. While the node is off a signature is taken
      on trust and confirmed, which fulfils an order; then the node is switched on, and the
      first scan credits the balance as well. */
  lemma TrustedSignatureMayCountTwice(first: seq<Step>, steps: seq<Step>)
    requires first == [UnverifiedStep(0, 0, "x", 5), ConfirmStep(0, EXAMPLE_ENV)]
    requires steps == first + [ScanStep(EXAMPLE_ENV)]
    ensures var sys := System(EXAMPLE_DB, EXAMPLE_HISTORY);
      && Fresh(sys, EXAMPLE_WORLD) && !RpcOn(steps)
      && EffectsOf(Run(sys, EXAMPLE_WORLD, EXAMPLE_RULES, steps).db, "x") == 2
  {
    var sys := System(EXAMPLE_DB, EXAMPLE_HISTORY);
    assert steps[..|steps| - 1] == first && steps[0].UnverifiedStep?;
    TrustedAndConfirmed();
    ScannedAfterwards();
    TwoEffects(Run(sys, EXAMPLE_WORLD, EXAMPLE_RULES, steps).db);
  }
}
