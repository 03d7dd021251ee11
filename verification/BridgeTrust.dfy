/** Signatures taken on trust while the RPC node is off: exactly when they still count
    once, step by step and over whole runs in any mode. */
module BridgeTrust {
  import opened Basics
  import opened Credits
  import opened Bridge
  import opened BridgeProofs

  // ---------------------------------------------------------------------
  // What holds in any mode
  // ---------------------------------------------------------------------

  /** tx_signature is unique among the orders. */
  ghost predicate SignaturesDiffer(orders: seq<Order>) {
    forall i, j :: 0 <= i < |orders| && 0 <= j < |orders| && i != j && orders[i].signature.Some? ==>
      orders[i].signature != orders[j].signature
  }

  ghost predicate Traced(db: Db) { SignaturesDiffer(db.orders) && ReceiptsUnique(db) && CreditsRecorded(db) }

  /** Every chain signature has at most one effect. */
  ghost predicate AtMostOnce(db: Db) { forall s :: EffectsOf(db, s) <= 1 }

  lemma FulfilledAtMostOnce(orders: seq<Order>, s: string)
    requires SignaturesDiffer(orders)
    ensures 0 <= Sum(orders, FulfilledWith(s)) <= 1
  {
    SumNonNegative(orders, FulfilledWith(s));
    if Sum(orders, FulfilledWith(s)) != 0 {
      var i := SumWitness(orders, FulfilledWith(s));
      var o := orders[i].(signature := None);
      SumUpdate(orders, i, o, FulfilledWith(s));
      if Sum(orders[i := o], FulfilledWith(s)) != 0 {
        var j := SumWitness(orders[i := o], FulfilledWith(s));
      }
    }
  }

  /** An open order carries the signature, so no fulfilled one does. */
  lemma CarriedByOpen(orders: seq<Order>, id: nat, s: string)
    requires SignaturesDiffer(orders) && id < |orders| && Open(orders[id]) && orders[id].signature == Some(s)
    ensures Sum(orders, FulfilledWith(s)) == 0
  {
    if Sum(orders, FulfilledWith(s)) != 0 {
      var i := SumWitness(orders, FulfilledWith(s));
    }
  }

  /** A signature free for an open order is carried by no fulfilled one. */
  lemma FreeMeansNone(orders: seq<Order>, id: nat, s: string)
    requires id < |orders| && Open(orders[id]) && SignatureFreeFor(orders, id, s)
    ensures Sum(orders, FulfilledWith(s)) == 0
  {
    if Sum(orders, FulfilledWith(s)) != 0 {
      var i := SumWitness(orders, FulfilledWith(s));
    }
  }

  lemma NoCreditYet(db: Db, s: string)
    requires CreditsRecorded(db) && !HasReceipt(db.receipts, s)
    ensures Sum(db.ledger, CreditEntry(s)) == 0
  {
    NoReceiptYet(db.receipts, s);
    EffectsAreReceipts(db.receipts, s);
    SumNonNegative(db.receipts, ReceiptWith(s, Credited));
    SumNonNegative(db.receipts, ReceiptWith(s, PaymentMatched));
  }

  // ---------------------------------------------------------------------
  // What one transaction touches
  // ---------------------------------------------------------------------

  /** Nothing about signature `x` differs. */
  ghost predicate SameFor(db: Db, db': Db, x: string) {
    && EffectsOf(db', x) == EffectsOf(db, x)
    && Sum(db'.orders, FulfilledWith(x)) == Sum(db.orders, FulfilledWith(x))
    && HasReceipt(db'.receipts, x) == HasReceipt(db.receipts, x)
  }

  predicate SameWallets(db: Db, db': Db) {
    && |db'.accounts| == |db.accounts|
    && forall a :: 0 <= a < |db.accounts| ==>
         db'.accounts[a].wallet == db.accounts[a].wallet && db'.accounts[a].active == db.accounts[a].active
  }

  ghost predicate OnlyFor(db: Db, db': Db, s: string) {
    SameWallets(db, db') && forall x :: x != s ==> SameFor(db, db', x)
  }

  lemma {:induction false} FindActiveSame(accounts: seq<Account>, accounts': seq<Account>, wallet: string)
    requires |accounts'| == |accounts|
    requires forall a :: 0 <= a < |accounts| ==> accounts'[a].wallet == accounts[a].wallet && accounts'[a].active == accounts[a].active
    ensures FindActive(accounts', wallet) == FindActive(accounts, wallet)
  {
    if |accounts| > 0 {
      var n := |accounts| - 1;
      FindActiveSame(accounts[..n], accounts'[..n], wallet);
    }
  }

  lemma HasReceiptAppend(receipts: seq<Receipt>, r: Receipt, x: string)
    ensures HasReceipt(receipts + [r], x) <==> HasReceipt(receipts, x) || x == r.signature
  {
    if HasReceipt(receipts, x) {
      var i :| 0 <= i < |receipts| && receipts[i].signature == x;
      assert (receipts + [r])[i].signature == x;
    }
    assert (receipts + [r])[|receipts|] == r;
  }

  /** Fulfilling an order adds one effect of its signature. */
  lemma FulfilledEffect(db: Db, db': Db, id: nat, s: string)
    requires id < |db.orders| && id < |db'.orders| && FulfilsOne(db, db', id, db'.orders[id]) && db'.orders[id].signature == Some(s)
    ensures Sum(db'.orders, FulfilledWith(s)) == Sum(db.orders, FulfilledWith(s)) + 1
    ensures forall x :: Sum(db'.ledger, CreditEntry(x)) == Sum(db.ledger, CreditEntry(x))
    ensures forall x :: x != s ==> Sum(db'.orders, FulfilledWith(x)) == Sum(db.orders, FulfilledWith(x))
  {
    var o' := db'.orders[id];
    forall x ensures Sum(db'.ledger, CreditEntry(x)) == Sum(db.ledger, CreditEntry(x)) {
      SumAppend(db.ledger, PaymentFulfilled(o'.account, o'.amount, id), CreditEntry(x));
    }
    forall x ensures Sum(db'.orders, FulfilledWith(x)) == Sum(db.orders, FulfilledWith(x)) + Indicator(x == s) {
      SumUpdate(db.orders, id, o', FulfilledWith(x));
    }
  }

  lemma DifferAfterWrite(orders: seq<Order>, id: nat, o': Order, s: string)
    requires SignaturesDiffer(orders) && id < |orders| && o'.signature == Some(s) && SignatureFreeFor(orders, id, s)
    ensures SignaturesDiffer(orders[id := o'])
  {
  }

  /** A matched receipt: the order's one effect, and the signature's only one. */
  lemma ConsumeEffect(db: Db, id: nat, r: Receipt, env: Env, db': Db)
    requires Traced(db) && id < |db.orders| && Open(db.orders[id]) && ConsumeReceipt(db, id, r, env) == Ok(db')
    requires r.status == PaymentMatched && !HasReceipt(db.receipts, r.signature)
    ensures Traced(db') && OnlyFor(db, db', r.signature) && HasReceipt(db'.receipts, r.signature)
    ensures EffectsOf(db', r.signature) == 1 && Sum(db.orders, FulfilledWith(r.signature)) == 0
  {
    var s := r.signature;
    ConsumeIsOne(db, id, r, env);
    FulfilledEffect(db, db', id, s);
    FreeMeansNone(db.orders, id, s);
    NoCreditYet(db, s);
    DifferAfterWrite(db.orders, id, db'.orders[id], s);
    MatchedReceipt(db, db', r);
  }

  lemma MatchedReceipt(db: Db, db': Db, r: Receipt)
    requires ReceiptsUnique(db) && CreditsRecorded(db) && !HasReceipt(db.receipts, r.signature)
    requires db'.receipts == db.receipts + [r] && r.status == PaymentMatched
    requires forall x :: Sum(db'.ledger, CreditEntry(x)) == Sum(db.ledger, CreditEntry(x))
    ensures ReceiptsUnique(db') && CreditsRecorded(db')
    ensures forall x :: HasReceipt(db'.receipts, x) <==> HasReceipt(db.receipts, x) || x == r.signature
  {
    ReceiptsUniqueAfter(db, db', r);
    forall x ensures HasReceipt(db'.receipts, x) <==> HasReceipt(db.receipts, x) || x == r.signature { HasReceiptAppend(db.receipts, r, x); }
    forall x ensures Sum(db'.receipts, ReceiptWith(x, Credited)) == Sum(db.receipts, ReceiptWith(x, Credited)) {
      SumAppend(db.receipts, r, ReceiptWith(x, Credited));
    }
  }

  /** A fresh signature credited: one effect more when the wallet is an active account's, none otherwise. */
  lemma CreditEffect(db: Db, wallet: string, amount: int, s: string, db': Db)
    requires Traced(db) && !HasReceipt(db.receipts, s) && db' == CreditDeposit(db, wallet, amount, s)
    ensures Traced(db') && OnlyFor(db, db', s) && HasReceipt(db'.receipts, s)
    ensures EffectsOf(db', s) == EffectsOf(db, s) + Indicator(FindActive(db.accounts, wallet).Some?)
  {
    var r := db'.receipts[|db.receipts|];
    var credited := FindActive(db.accounts, wallet).Some?;
    if credited { EntryAdded(db.ledger, db'.ledger[|db.ledger|], s); }
    ReceiptEffect(db, db', r, s, credited);
  }

  lemma EntryAdded(ledger: seq<Entry>, e: Entry, s: string)
    requires e.DepositCredited? && e.signature == s
    ensures forall x :: Sum(ledger + [e], CreditEntry(x)) == Sum(ledger, CreditEntry(x)) + Indicator(x == s)
  {
    forall x ensures Sum(ledger + [e], CreditEntry(x)) == Sum(ledger, CreditEntry(x)) + Indicator(x == s) {
      SumAppend(ledger, e, CreditEntry(x));
    }
  }

  lemma ReceiptEffect(db: Db, db': Db, r: Receipt, s: string, credited: bool)
    requires Traced(db) && !HasReceipt(db.receipts, s) && SameWallets(db, db')
    requires db'.orders == db.orders && db'.receipts == db.receipts + [r] && r.signature == s
    requires r.status == if credited then Credited else Ignored
    requires forall x :: Sum(db'.ledger, CreditEntry(x)) == Sum(db.ledger, CreditEntry(x)) + Indicator(credited && x == s)
    ensures Traced(db') && OnlyFor(db, db', s) && HasReceipt(db'.receipts, s)
    ensures EffectsOf(db', s) == EffectsOf(db, s) + Indicator(credited)
  {
    ReceiptsUniqueAfter(db, db', r);
    forall x ensures HasReceipt(db'.receipts, x) <==> HasReceipt(db.receipts, x) || x == s { HasReceiptAppend(db.receipts, r, x); }
    forall x ensures Sum(db'.receipts, ReceiptWith(x, Credited)) == Sum(db.receipts, ReceiptWith(x, Credited)) + Indicator(credited && x == s) {
      SumAppend(db.receipts, r, ReceiptWith(x, Credited));
    }
  }

  /** The guard of one credit: a fulfilled order already carries the signature, and the payer is an active account. */
  ghost predicate CreditDoubles(db: Db, c: Credit, s: string) {
    Sum(db.orders, FulfilledWith(s)) > 0 && FindActive(db.accounts, Trim(c.payer)).Some?
  }

  lemma ProcessCreditEffect(db: Db, c: Credit, s: string, w: World, env: Env, db': Db)
    requires Traced(db) && !HasReceipt(db.receipts, s) && Creditable(c, w.decimals) && ProcessCredit(db, c, s, w, env) == Ok(db')
    ensures Traced(db') && OnlyFor(db, db', s) && HasReceipt(db'.receipts, s)
    ensures EffectsOf(db', s) <= 1 <==> !CreditDoubles(db, c, s)
  {
    var wallet, amount := Trim(c.payer), RawToGame(c.raw, w.decimals).value;
    var m := MatchOrder(db, wallet, amount, s, env).value;
    if m.matched {
      var account := FindActive(db.accounts, wallet);
      var id := BestMatch(db.orders, account.value, amount, s, env.now).value;
      ConsumeEffect(db, id, Receipt(s, account, wallet, amount, PaymentMatched), env, db');
    } else {
      CreditEffect(db, wallet, amount, s, db');
      NoCreditYet(db, s);
      FulfilledAtMostOnce(db.orders, s);
    }
  }

  // ---------------------------------------------------------------------
  // A whole signature, and a whole scan
  // ---------------------------------------------------------------------

  /** The first transfer that counts: of a positive amount, from a payer with a name. */
  function FirstCreditable(credits: seq<Credit>, decimals: int): (r: Option<nat>)
    ensures r.Some? ==>
      && r.value < |credits| && Trim(credits[r.value].payer) != ""
      && RawToGame(credits[r.value].raw, decimals).Ok? && RawToGame(credits[r.value].raw, decimals).value > 0
    ensures forall k :: 0 <= k < (if r.Some? then r.value else |credits|) ==>
      || Trim(credits[k].payer) == "" || RawToGame(credits[k].raw, decimals).Fail? || RawToGame(credits[k].raw, decimals).value <= 0
  {
    if |credits| == 0 then None
    else
      var n := |credits| - 1;
      var first := FirstCreditable(credits[..n], decimals);
      if first.Some? then first else if Creditable(credits[n], decimals) then Some(n) else None
  }

  /** The guard of a signature, known before the scan: it has no receipt, a fulfilled order carries
      it, and the first credit that counts comes from an active account. */
  ghost predicate Doubles(db: Db, s: string, w: World) {
    var first := FirstCreditable(w.credits(s), w.decimals);
    !HasReceipt(db.receipts, s) && first.Some? && CreditDoubles(db, w.credits(s)[first.value], s)
  }

  lemma {:induction false} CreditsEffect(db: Db, credits: seq<Credit>, s: string, w: World, env: Env, db': Db)
    requires Traced(db) && !HasReceipt(db.receipts, s) && ProcessCredits(db, credits, s, w, env) == Ok(db')
    ensures var first := FirstCreditable(credits, w.decimals);
      if first.None? then db' == db
      else
        && Traced(db') && OnlyFor(db, db', s) && HasReceipt(db'.receipts, s)
        && (EffectsOf(db', s) <= 1 <==> !CreditDoubles(db, credits[first.value], s))
  {
    if |credits| > 0 {
      var n := |credits| - 1;
      var mid := ProcessCredits(db, credits[..n], s, w, env).value;
      CreditsEffect(db, credits[..n], s, w, env, mid);
      if FirstCreditable(credits[..n], w.decimals).None? && Creditable(credits[n], w.decimals) {
        ProcessCreditEffect(db, credits[n], s, w, env, db');
      }
    }
  }

  lemma NothingTouched(db: Db, s: string)
    ensures OnlyFor(db, db, s)
  {
  }

  lemma SignatureEffect(db: Db, row: SignatureInfo, w: World, env: Env, db': Db)
    requires Traced(db) && EffectsOf(db, row.signature) <= 1 && ProcessSignature(db, row, w, env) == Ok(db')
    ensures Traced(db') && OnlyFor(db, db', row.signature)
    ensures EffectsOf(db', row.signature) <= 1 <==> row.failed || !Doubles(db, row.signature, w)
  {
    var s := row.signature;
    NothingTouched(db, s);
    if !row.failed {
      if HasReceipt(db.receipts, s) {
        ReceiptStopsCredits(db, w.credits(s), s, w, env);
      } else {
        CreditsEffect(db, w.credits(s), s, w, env, db');
      }
    }
  }

  ghost predicate RowsSafe(db: Db, rows: seq<SignatureInfo>, w: World) {
    forall k :: 0 <= k < |rows| ==> rows[k].failed || !Doubles(db, rows[k].signature, w)
  }

  ghost predicate OnlyForRows(db: Db, db': Db, rows: seq<SignatureInfo>) {
    SameWallets(db, db') && forall x :: (forall k :: 0 <= k < |rows| ==> rows[k].signature != x) ==> SameFor(db, db', x)
  }

  lemma DoublesSame(db: Db, db': Db, s: string, w: World)
    requires SameWallets(db, db') && SameFor(db, db', s)
    ensures Doubles(db', s, w) == Doubles(db, s, w)
  {
    var first := FirstCreditable(w.credits(s), w.decimals);
    if first.Some? { FindActiveSame(db.accounts, db'.accounts, Trim(w.credits(s)[first.value].payer)); }
  }

  lemma OnlyForMore(db: Db, mid: Db, db': Db, rows: seq<SignatureInfo>)
    requires |rows| > 0 && OnlyForRows(db, mid, rows[..|rows| - 1]) && OnlyFor(mid, db', rows[|rows| - 1].signature)
    ensures OnlyForRows(db, db', rows)
  {
    var head := rows[..|rows| - 1];
    forall x | forall k :: 0 <= k < |rows| ==> rows[k].signature != x ensures SameFor(db, db', x) {
      assert forall k :: 0 <= k < |head| ==> head[k].signature != x;
      assert SameFor(db, mid, x) && SameFor(mid, db', x);
    }
  }

  lemma OnceAfterRow(mid: Db, db': Db, s: string)
    requires OnlyFor(mid, db', s) && EffectsOf(mid, s) <= 1
    ensures AtMostOnce(db') <==> AtMostOnce(mid) && EffectsOf(db', s) <= 1
  {
    if AtMostOnce(db') {
      forall x ensures EffectsOf(mid, x) <= 1 {
        if x != s { assert SameFor(mid, db', x); }
      }
    }
    if AtMostOnce(mid) && EffectsOf(db', s) <= 1 {
      forall x ensures EffectsOf(db', x) <= 1 {
        if x != s { assert SameFor(mid, db', x); }
      }
    }
  }

  lemma {:induction false} RowsEffect(db: Db, rows: seq<SignatureInfo>, w: World, env: Env, db': Db)
    requires Traced(db) && AtMostOnce(db) && Distinct(rows) && ProcessRows(db, rows, w, env) == Ok(db')
    ensures Traced(db') && OnlyForRows(db, db', rows)
    ensures AtMostOnce(db') <==> RowsSafe(db, rows, w)
  {
    if |rows| > 0 {
      var n := |rows| - 1;
      var mid := ProcessRows(db, rows[..n], w, env).value;
      RowsEffect(db, rows[..n], w, env, mid);
      var s := rows[n].signature;
      assert SameFor(db, mid, s);
      SignatureEffect(mid, rows[n], w, env, db');
      OnlyForMore(db, mid, db', rows);
      OnceAfterRow(mid, db', s);
      DoublesSame(db, mid, s, w);
      SafeMore(db, rows, w);
    }
  }

  lemma SafeMore(db: Db, rows: seq<SignatureInfo>, w: World)
    requires |rows| > 0
    ensures var n := |rows| - 1;
      RowsSafe(db, rows, w) <==> RowsSafe(db, rows[..n], w) && (rows[n].failed || !Doubles(db, rows[n].signature, w))
  {
    var n := |rows| - 1;
    assert forall k :: 0 <= k < n ==> rows[..n][k] == rows[k];
  }

  // ---------------------------------------------------------------------
  // Confirming an order on trust
  // ---------------------------------------------------------------------

  /** The guard of a confirmation: the order's signature was credited to a balance before. */
  ghost predicate ConfirmDoubles(db: Db, id: nat) {
    && id < |db.orders| && Open(db.orders[id]) && db.orders[id].signature.Some?
    && Sum(db.receipts, ReceiptWith(db.orders[id].signature.value, Credited)) > 0
  }

  /** Rewriting an open order that stays open has no effect. */
  lemma OpenWriteEffect(db: Db, id: nat, o': Order, db': Db)
    requires id < |db.orders| && Open(db.orders[id]) && Open(o') && db' == db.(orders := db.orders[id := o'])
    ensures forall x :: SameFor(db, db', x)
  {
    forall x ensures SameFor(db, db', x) {
      SumUpdate(db.orders, id, o', FulfilledWith(x));
    }
  }

  lemma ConfirmEffect(db: Db, id: nat, env: Env, db': Db)
    requires Traced(db) && AtMostOnce(db) && ConfirmOrder(db, id, env) == Ok(db')
    ensures Traced(db') && (AtMostOnce(db') <==> !ConfirmDoubles(db, id))
  {
    var o := db.orders[id];
    if o.status != Fulfilled {
      var s := o.signature.value;
      var mid := db.(orders := db.orders[id := o.(status := OrderConfirmed)]);
      OpenWriteEffect(db, id, o.(status := OrderConfirmed), mid);
      FulfilIsOne(mid, id, env);
      ConfirmedEffect(db, mid, db', id, s);
    }
  }

  lemma ConfirmedEffect(db: Db, mid: Db, db': Db, id: nat, s: string)
    requires Traced(db) && AtMostOnce(db) && id < |db.orders| && Open(db.orders[id]) && db.orders[id].signature == Some(s)
    requires (forall x :: SameFor(db, mid, x)) && mid.receipts == db.receipts && mid.ledger == db.ledger
    requires mid.orders == db.orders[id := db.orders[id].(status := OrderConfirmed)]
    requires FulfilsOne(mid, db', id, mid.orders[id].(status := Fulfilled)) && db'.receipts == mid.receipts
    ensures Traced(db') && (AtMostOnce(db') <==> Sum(db.receipts, ReceiptWith(s, Credited)) <= 0)
  {
    FulfilledEffect(mid, db', id, s);
    CarriedByOpen(db.orders, id, s);
    ConfirmCounts(db, mid, db', s);
  }

  lemma ConfirmCounts(db: Db, mid: Db, db': Db, s: string)
    requires CreditsRecorded(db) && AtMostOnce(db) && (forall x :: SameFor(db, mid, x)) && Sum(db.orders, FulfilledWith(s)) == 0
    requires Sum(db'.orders, FulfilledWith(s)) == Sum(mid.orders, FulfilledWith(s)) + 1
    requires forall x :: Sum(db'.ledger, CreditEntry(x)) == Sum(mid.ledger, CreditEntry(x))
    requires forall x :: x != s ==> Sum(db'.orders, FulfilledWith(x)) == Sum(mid.orders, FulfilledWith(x))
    ensures AtMostOnce(db') <==> Sum(db.receipts, ReceiptWith(s, Credited)) <= 0
  {
    assert SameFor(db, mid, s);
    assert EffectsOf(db', s) == Sum(db.receipts, ReceiptWith(s, Credited)) + 1;
    forall x | x != s ensures EffectsOf(db', x) <= 1 {
      assert SameFor(db, mid, x) && EffectsOf(db, x) <= 1;
    }
  }

  // ---------------------------------------------------------------------
  // Steps and runs
  // ---------------------------------------------------------------------

  /** Known before the step: a committed scan or confirmation meets no signature that would count again. */
  ghost predicate SafeStep(sys: System, w: World, step: Step) {
    match step
    case ScanStep(env) => Scan(sys.db, sys.history, w, env).Ok? ==> RowsSafe(sys.db, NewerThan(sys.history, sys.db.cursor), w)
    case ConfirmStep(id, env) => ConfirmOrder(sys.db, id, env).Ok? ==> !ConfirmDoubles(sys.db, id)
    case _ => true
  }

  lemma UnverifiedEffect(db: Db, account: nat, id: nat, text: string, now: int, db': Db)
    requires Traced(db) && AtMostOnce(db) && SubmitUnverified(db, account, id, text, now) == Ok(db')
    ensures Traced(db') && AtMostOnce(db')
  {
    var o' := db'.orders[id];
    OpenWriteEffect(db, id, o', db');
    DifferAfterWrite(db.orders, id, o', Trim(text));
    forall x ensures EffectsOf(db', x) <= 1 { assert SameFor(db, db', x); }
  }

  lemma VerifiedEffect(db: Db, account: nat, id: nat, text: string, w: World, env: Env, db': Db)
    requires Traced(db) && AtMostOnce(db) && SubmitVerified(db, account, id, text, w, env) == Ok(db')
    ensures Traced(db') && AtMostOnce(db')
  {
    var checked := VerifyOrder(db, account, id, text, w, env).value;
    if checked.Some? {
      ConsumeEffect(db, id, checked.value, env, db');
      OnceAfterRow(db, db', checked.value.signature);
    }
  }

  lemma InsertEffect(db: Db, account: nat, character: Option<nat>, purpose: Purpose, amount: int, now: int, timeout: int)
    requires Traced(db) && AtMostOnce(db)
    ensures var db' := InsertOrder(db, account, character, purpose, amount, now, timeout);
      Traced(db') && AtMostOnce(db')
  {
    var db' := InsertOrder(db, account, character, purpose, amount, now, timeout);
    forall x ensures EffectsOf(db', x) == EffectsOf(db, x) {
      SumAppend(db.orders, db'.orders[|db.orders|], FulfilledWith(x));
    }
  }

  lemma ScanEffect(sys: System, w: World, env: Env, db': Db)
    requires Traced(sys.db) && AtMostOnce(sys.db) && Distinct(sys.history) && Scan(sys.db, sys.history, w, env) == Ok(db')
    ensures Traced(db') && (AtMostOnce(db') <==> RowsSafe(sys.db, NewerThan(sys.history, sys.db.cursor), w))
  {
    var rows := NewerThan(sys.history, sys.db.cursor);
    var db1 := ProcessRows(sys.db, rows, w, env).value;
    RowsEffect(sys.db, rows, w, env, db1);
    assert forall x :: EffectsOf(db', x) == EffectsOf(db1, x);
  }

  /** Steps that submit or confirm an order. */
  lemma OrderStepEffect(sys: System, w: World, rules: Rules, step: Step)
    requires Traced(sys.db) && AtMostOnce(sys.db) && (step.VerifiedStep? || step.UnverifiedStep? || step.ConfirmStep?)
    ensures var db' := Apply(sys, w, rules, step).db;
      Traced(db') && (AtMostOnce(db') <==> SafeStep(sys, w, step))
  {
    var db := sys.db;
    match step
    case VerifiedStep(account, id, text, env) =>
      var r := SubmitVerified(db, account, id, text, w, env);
      if r.Ok? { VerifiedEffect(db, account, id, text, w, env, r.value); }
    case UnverifiedStep(account, id, text, now) =>
      var r := SubmitUnverified(db, account, id, text, now);
      if r.Ok? { UnverifiedEffect(db, account, id, text, now, r.value); }
    case ConfirmStep(id, env) =>
      var r := ConfirmOrder(db, id, env);
      if r.Ok? { ConfirmEffect(db, id, env, r.value); }
  }

  /** Steps that create orders or change accounts and characters. */
  lemma OtherStepEffect(sys: System, w: World, rules: Rules, step: Step)
    requires Traced(sys.db) && AtMostOnce(sys.db)
    requires !step.ScanStep? && !step.VerifiedStep? && !step.UnverifiedStep? && !step.ConfirmStep?
    ensures var db' := Apply(sys, w, rules, step).db;
      Traced(db') && AtMostOnce(db')
  {
    var db, r := sys.db, WithDefaults(rules);
    match step
    case BagStep(account, character, now) => InsertEffect(db, account, Some(character), BagExpand, r.bagPrice, now, r.bagTimeout);
    case WalletStep(account, character, now) => InsertEffect(db, account, Some(character), WalletExpand, r.walletPrice, now, r.walletTimeout);
    case LicenseStep(account, character, now) => InsertEffect(db, account, character, TradingLicense, r.licensePrice, now, r.licenseTimeout);
    case OtherOrderStep(account, character, purpose, amount, now, timeout) =>
      InsertEffect(db, account, character, purpose, amount, now, timeout);
    case Arrive(_) =>
    case AccountStep(_, _, _) => SameRecords(db, Apply(sys, w, rules, step).db);
    case CharacterStep(_, _) => SameRecords(db, Apply(sys, w, rules, step).db);
  }

  lemma SameRecords(db: Db, db': Db)
    requires Traced(db) && AtMostOnce(db) && db'.orders == db.orders && db'.receipts == db.receipts && db'.ledger == db.ledger
    ensures Traced(db') && AtMostOnce(db')
  {
    forall s ensures EffectsOf(db', s) <= 1 { assert EffectsOf(db, s) <= 1; }
  }

  /** In any mode, a step keeps "at most one effect per signature" exactly when it is safe. */
  lemma StepCountsOnceIff(sys: System, w: World, rules: Rules, step: Step)
    requires Traced(sys.db) && AtMostOnce(sys.db) && Distinct(sys.history)
    ensures var sys' := Apply(sys, w, rules, step);
      Traced(sys'.db) && Distinct(sys'.history) && (AtMostOnce(sys'.db) <==> SafeStep(sys, w, step))
  {
    if step.ScanStep? {
      var r := Scan(sys.db, sys.history, w, step.env);
      if r.Ok? { ScanEffect(sys, w, step.env, r.value); }
    } else if step.VerifiedStep? || step.UnverifiedStep? || step.ConfirmStep? {
      OrderStepEffect(sys, w, rules, step);
    } else {
      OtherStepEffect(sys, w, rules, step);
    }
  }

  ghost predicate AlwaysOnce(sys: System, w: World, rules: Rules, steps: seq<Step>) {
    forall n :: 0 <= n <= |steps| ==> AtMostOnce(Run(sys, w, rules, steps[..n]).db)
  }

  ghost predicate AllSafe(sys: System, w: World, rules: Rules, steps: seq<Step>) {
    forall n :: 0 <= n < |steps| ==> SafeStep(Run(sys, w, rules, steps[..n]), w, steps[n])
  }

  ghost predicate OnceUpTo(sys: System, w: World, rules: Rules, steps: seq<Step>, n: nat)
    requires n <= |steps|
  {
    forall k :: 0 <= k <= n ==> AtMostOnce(Run(sys, w, rules, steps[..k]).db)
  }

  /** As long as nothing counts twice, the next state is safe exactly when the next step is. */
  lemma {:induction false} PrefixOnceIff(sys: System, w: World, rules: Rules, steps: seq<Step>, n: nat)
    requires Traced(sys.db) && Distinct(sys.history) && n < |steps| && OnceUpTo(sys, w, rules, steps, n)
    ensures var mid := Run(sys, w, rules, steps[..n]);
      && Traced(mid.db) && Distinct(mid.history)
      && (AtMostOnce(Run(sys, w, rules, steps[..n + 1]).db) <==> SafeStep(mid, w, steps[n]))
  {
    if n > 0 {
      PrefixOnceIff(sys, w, rules, steps, n - 1);
      NextState(sys, w, rules, steps, n - 1);
      StepCountsOnceIff(Run(sys, w, rules, steps[..n - 1]), w, rules, steps[n - 1]);
    }
    NextState(sys, w, rules, steps, n);
    StepCountsOnceIff(Run(sys, w, rules, steps[..n]), w, rules, steps[n]);
  }

  lemma {:induction false} OnceWhileSafe(sys: System, w: World, rules: Rules, steps: seq<Step>, n: nat)
    requires Traced(sys.db) && AtMostOnce(sys.db) && Distinct(sys.history) && AllSafe(sys, w, rules, steps) && n <= |steps|
    ensures OnceUpTo(sys, w, rules, steps, n)
  {
    if n > 0 {
      OnceWhileSafe(sys, w, rules, steps, n - 1);
      PrefixOnceIff(sys, w, rules, steps, n - 1);
      OnceMore(sys, w, rules, steps, n - 1);
    }
  }

  lemma OnceMore(sys: System, w: World, rules: Rules, steps: seq<Step>, n: nat)
    requires n < |steps| && OnceUpTo(sys, w, rules, steps, n) && AtMostOnce(Run(sys, w, rules, steps[..n + 1]).db)
    ensures OnceUpTo(sys, w, rules, steps, n + 1)
  {
  }

  lemma NextState(sys: System, w: World, rules: Rules, steps: seq<Step>, n: nat)
    requires n < |steps|
    ensures Run(sys, w, rules, steps[..n + 1]) == Apply(Run(sys, w, rules, steps[..n]), w, rules, steps[n])
  {
    assert steps[..n + 1][..n] == steps[..n];
  }

  /** From a fresh system, in any mode: every signature has at most one effect throughout a run
      exactly when no committed confirmation meets a credited signature and no committed scan meets
      an unreceipted one of a fulfilled order that it would credit. */
  lemma CountsOnceIff(sys: System, w: World, rules: Rules, steps: seq<Step>)
    requires Fresh(sys, w)
    ensures AlwaysOnce(sys, w, rules, steps) <==> AllSafe(sys, w, rules, steps)
  {
    FreshIsOnce(sys, w);
    assert Traced(sys.db) && AtMostOnce(sys.db) by {
      forall s ensures EffectsOf(sys.db, s) <= 1 { SignatureCountsOnce(sys.db, w, s); }
    }
    if AlwaysOnce(sys, w, rules, steps) {
      forall n: nat | n < |steps| ensures SafeStep(Run(sys, w, rules, steps[..n]), w, steps[n]) {
        PrefixOnceIff(sys, w, rules, steps, n);
        assert AtMostOnce(Run(sys, w, rules, steps[..n + 1]).db);
      }
    }
    if AllSafe(sys, w, rules, steps) { OnceWhileSafe(sys, w, rules, steps, |steps|); }
  }
}
