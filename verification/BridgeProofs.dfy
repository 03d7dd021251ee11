/** What every run of the bridge keeps: a signature counts once, an order is
    fulfilled once, credited balances equal credited receipts, nothing older
    than the cursor is missed, and purchase caps hold. */
module BridgeProofs {
  import opened Basics
  import opened Credits
  import opened Bridge

  // ---------------------------------------------------------------------
  // Weights
  // ---------------------------------------------------------------------

  function ReceiptFor(s: string): Receipt -> int { (r: Receipt) => Indicator(r.signature == s) }

  function ReceiptWith(s: string, status: ReceiptStatus): Receipt -> int {
    (r: Receipt) => Indicator(r.signature == s && r.status == status)
  }

  function CreditedTo(account: nat): Receipt -> int {
    (r: Receipt) => if r.status == Credited && r.account == Some(account) then r.amount else 0
  }

  function FulfilledWith(s: string): Order -> int {
    (o: Order) => Indicator(o.status == Fulfilled && o.signature == Some(s))
  }

  function FulfilledFor(account: nat, character: Option<nat>, purpose: Purpose): Order -> int {
    (o: Order) => Indicator(o.status == Fulfilled && o.account == account && o.purpose == purpose
                            && (character.None? || o.character == character))
  }

  function CreditEntry(s: string): Entry -> int { (e: Entry) => Indicator(e.DepositCredited? && e.signature == s) }

  function FulfilEntry(id: nat): Entry -> int { (e: Entry) => Indicator(e.PaymentFulfilled? && e.order == id) }

  // ---------------------------------------------------------------------
  // Exactly once
  // ---------------------------------------------------------------------

  /** While the RPC node is on, an order has a signature exactly when it is fulfilled. */
  predicate OrderClean(o: Order) {
    if o.status == Fulfilled then o.signature.Some? else o.status == PendingPayment && o.signature.None?
  }

  ghost predicate OrdersClean(db: Db) { forall i :: 0 <= i < |db.orders| ==> OrderClean(db.orders[i]) }

  ghost predicate ReceiptsUnique(db: Db) { forall s :: Sum(db.receipts, ReceiptFor(s)) <= 1 }

  ghost predicate MatchesFulfil(db: Db) {
    forall s :: Sum(db.orders, FulfilledWith(s)) == Sum(db.receipts, ReceiptWith(s, PaymentMatched))
  }

  ghost predicate CreditsRecorded(db: Db) {
    forall s :: Sum(db.ledger, CreditEntry(s)) == Sum(db.receipts, ReceiptWith(s, Credited))
  }

  ghost predicate FulfilmentsRecorded(db: Db) {
    forall id: nat :: Sum(db.ledger, FulfilEntry(id)) == Indicator(id < |db.orders| && db.orders[id].status == Fulfilled)
  }

  /** A credited receipt is backed by a transfer on chain of that amount from that wallet. */
  ghost predicate Backed(r: Receipt, w: World) {
    r.status == Credited ==>
      exists i :: 0 <= i < |w.credits(r.signature)|
        && RawToGame(w.credits(r.signature)[i].raw, w.decimals) == Ok(r.amount) && r.amount > 0
        && Trim(w.credits(r.signature)[i].payer) == r.wallet
  }

  ghost predicate CreditsBacked(db: Db, w: World) {
    forall i :: 0 <= i < |db.receipts| ==> Backed(db.receipts[i], w)
  }

  /** A transfer on chain that pays `amount`: from that wallet or from an unknown payer, of exactly
      the amount or of at least it. */
  predicate Pays(c: Credit, amount: int, wallet: string, decimals: int) {
    && (Trim(c.payer) == wallet || PayerAcceptable(c, Trim(wallet)))
    && (RawToGame(c.raw, decimals) == Ok(amount) || (GameToRaw(amount, decimals).Ok? && c.raw >= GameToRaw(amount, decimals).value))
  }

  /** The receipt that a fulfilled order was paid with, and the transfer behind it. */
  ghost predicate ReceiptPays(r: Receipt, o: Order, w: World) {
    && r.status == PaymentMatched && o.signature == Some(r.signature) && r.account == Some(o.account) && r.amount == o.amount
    && exists k :: 0 <= k < |w.credits(r.signature)| && Pays(w.credits(r.signature)[k], r.amount, r.wallet, w.decimals)
  }

  ghost predicate OrderPaid(o: Order, receipts: seq<Receipt>, w: World) {
    exists i :: 0 <= i < |receipts| && ReceiptPays(receipts[i], o, w)
  }

  /** Every fulfilled order was paid for on chain. */
  ghost predicate OrdersPaid(db: Db, w: World) {
    forall i :: 0 <= i < |db.orders| && db.orders[i].status == Fulfilled ==> OrderPaid(db.orders[i], db.receipts, w)
  }

  ghost predicate Once(db: Db, w: World) {
    && OrdersClean(db) && ReceiptsUnique(db) && MatchesFulfil(db) && CreditsRecorded(db)
    && FulfilmentsRecorded(db) && CreditsBacked(db, w) && OrdersPaid(db, w)
  }

  // ---------------------------------------------------------------------
  // Conserved quantities
  // ---------------------------------------------------------------------

  ghost function ExternalBase(db: Db, a: nat): int
    requires a < |db.accounts|
  {
    db.accounts[a].external - Sum(db.receipts, CreditedTo(a))
  }

  ghost function TokenBase(db: Db, a: nat): int
    requires a < |db.accounts|
  {
    db.accounts[a].token - Sum(db.receipts, CreditedTo(a))
  }

  ghost function WalletBase(db: Db, a: nat): int
    requires a < |db.accounts|
  {
    db.accounts[a].walletExpands - Sum(db.orders, FulfilledFor(a, None, WalletExpand))
  }

  ghost function BagBase(db: Db, c: nat): int
    requires c < |db.characters|
  {
    db.characters[c].bagExpands - Sum(db.orders, FulfilledFor(db.characters[c].account, Some(c), BagExpand))
  }

  /** Balances move with credited receipts only, expansions with fulfilled orders only. */
  ghost predicate Balanced(db: Db, db': Db) {
    && |db'.accounts| == |db.accounts| && |db'.characters| == |db.characters|
    && (forall a: nat :: a < |db.accounts| ==>
          ExternalBase(db', a) == ExternalBase(db, a) && TokenBase(db', a) == TokenBase(db, a))
    && (forall a: nat :: a < |db.accounts| ==> WalletBase(db', a) == WalletBase(db, a))
    && (forall c: nat :: c < |db.characters| ==>
          db'.characters[c].account == db.characters[c].account && BagBase(db', c) == BagBase(db, c))
  }

  /** Bought expansions plus open orders stay within the configured number of times. */
  ghost predicate CapsHeld(db: Db, rules: Rules) {
    && (forall a: nat :: a < |db.accounts| ==>
          db.accounts[a].walletExpands + Sum(db.orders, OpenFor(a, None, WalletExpand)) <= WithDefaults(rules).walletMax)
    && (forall c: nat :: c < |db.characters| ==>
          db.characters[c].bagExpands + Sum(db.orders, OpenFor(db.characters[c].account, Some(c), BagExpand)) <= WithDefaults(rules).bagMax)
  }

  // ---------------------------------------------------------------------
  // Fulfilment
  // ---------------------------------------------------------------------

  predicate SameOrder(o: Order, o': Order) {
    o'.account == o.account && o'.character == o.character && o'.purpose == o.purpose && o'.amount == o.amount
  }

  /** The tables after order `id` became `o'`, fulfilled, with the effect of its purpose. */
  ghost predicate FulfilsOne(db: Db, db': Db, id: nat, o': Order) {
    && id < |db.orders| && SameOrder(db.orders[id], o') && Open(db.orders[id]) && o'.status == Fulfilled
    && db'.orders == db.orders[id := o']
    && db'.ledger == db.ledger + [PaymentFulfilled(o'.account, o'.amount, id)]
    && |db'.accounts| == |db.accounts| && |db'.characters| == |db.characters|
    && (forall a :: 0 <= a < |db.accounts| ==>
          && db'.accounts[a].external == db.accounts[a].external && db'.accounts[a].token == db.accounts[a].token
          && db'.accounts[a].wallet == db.accounts[a].wallet && db'.accounts[a].active == db.accounts[a].active
          && db'.accounts[a].licensed == (db.accounts[a].licensed || (o'.purpose == TradingLicense && o'.account == a))
          && db'.accounts[a].walletExpands ==
             db.accounts[a].walletExpands + Indicator(o'.purpose == WalletExpand && o'.account == a))
    && (forall c :: 0 <= c < |db.characters| ==>
          && db'.characters[c].account == db.characters[c].account
          && db'.characters[c].bagExpands == db.characters[c].bagExpands +
             Indicator(o'.purpose == BagExpand && o'.character == Some(c) && o'.account == db.characters[c].account))
  }

  lemma FulfilIsOne(db: Db, id: nat, env: Env)
    requires id < |db.orders| && Open(db.orders[id]) && Fulfil(db, id, env).Ok?
    ensures var db' := Fulfil(db, id, env).value;
      && FulfilsOne(db, db', id, db.orders[id].(status := Fulfilled))
      && db'.receipts == db.receipts && db'.cursor == db.cursor
  {
    PurposeEffect(db, id, env, ApplyPurpose(db, id, env).value);
  }

  /** The effect of each purpose: one expansion, the licence, or nothing in these tables. */
  lemma PurposeEffect(db: Db, id: nat, env: Env, db1: Db)
    requires id < |db.orders| && ApplyPurpose(db, id, env) == Ok(db1)
    ensures |db1.accounts| == |db.accounts| && |db1.characters| == |db.characters|
    ensures forall a :: 0 <= a < |db.accounts| ==>
      db1.accounts[a] == db.accounts[a].(walletExpands := db.accounts[a].walletExpands
                                           + Indicator(db.orders[id].purpose == WalletExpand && db.orders[id].account == a),
                                         licensed := db.accounts[a].licensed
                                           || (db.orders[id].purpose == TradingLicense && db.orders[id].account == a))
    ensures forall c :: 0 <= c < |db.characters| ==>
      db1.characters[c] == db.characters[c].(bagExpands := db.characters[c].bagExpands
                                               + Indicator(db.orders[id].purpose == BagExpand && db.orders[id].character == Some(c)
                                                           && db.orders[id].account == db.characters[c].account))
  {
  }

  lemma BalancedAfterFulfil(db: Db, db': Db, id: nat, o': Order)
    requires FulfilsOne(db, db', id, o')
    requires forall a: nat :: Sum(db'.receipts, CreditedTo(a)) == Sum(db.receipts, CreditedTo(a))
    ensures Balanced(db, db')
  {
    forall a: nat | a < |db.accounts| ensures WalletBase(db', a) == WalletBase(db, a) {
      SumUpdate(db.orders, id, o', FulfilledFor(a, None, WalletExpand));
    }
    forall c: nat | c < |db.characters| ensures BagBase(db', c) == BagBase(db, c) {
      SumUpdate(db.orders, id, o', FulfilledFor(db.characters[c].account, Some(c), BagExpand));
    }
  }

  lemma CapsAfterFulfil(db: Db, db': Db, id: nat, o': Order, rules: Rules)
    requires FulfilsOne(db, db', id, o') && CapsHeld(db, rules)
    ensures CapsHeld(db', rules)
  {
    forall a: nat | a < |db.accounts|
      ensures db'.accounts[a].walletExpands + Sum(db'.orders, OpenFor(a, None, WalletExpand)) <= WithDefaults(rules).walletMax
    {
      SumUpdate(db.orders, id, o', OpenFor(a, None, WalletExpand));
    }
    forall c: nat | c < |db.characters|
      ensures db'.characters[c].bagExpands + Sum(db'.orders, OpenFor(db'.characters[c].account, Some(c), BagExpand)) <= WithDefaults(rules).bagMax
    {
      SumUpdate(db.orders, id, o', OpenFor(db.characters[c].account, Some(c), BagExpand));
    }
  }

  lemma NoReceiptYet(receipts: seq<Receipt>, s: string)
    requires !HasReceipt(receipts, s)
    ensures Sum(receipts, ReceiptFor(s)) == 0
  {
  }

  lemma ReceiptsUniqueAfter(db: Db, db': Db, r: Receipt)
    requires ReceiptsUnique(db) && !HasReceipt(db.receipts, r.signature) && db'.receipts == db.receipts + [r]
    ensures ReceiptsUnique(db')
  {
    NoReceiptYet(db.receipts, r.signature);
    forall s ensures Sum(db'.receipts, ReceiptFor(s)) <= 1 { SumAppend(db.receipts, r, ReceiptFor(s)); }
  }

  // ---------------------------------------------------------------------
  // Consuming a receipt for an order
  // ---------------------------------------------------------------------

  lemma ConsumeIsOne(db: Db, id: nat, r: Receipt, env: Env)
    requires id < |db.orders| && Open(db.orders[id]) && ConsumeReceipt(db, id, r, env).Ok?
    ensures var db' := ConsumeReceipt(db, id, r, env).value;
      && id < |db'.orders| && FulfilsOne(db, db', id, db'.orders[id]) && db'.orders[id].signature == Some(r.signature)
      && db'.receipts == db.receipts + [r] && db'.cursor == db.cursor
  {
    var o := db.orders[id];
    var o1 := o.(status := OrderSubmitted, signature := Some(r.signature),
                 submittedAt := if o.submittedAt.Some? then o.submittedAt else Some(env.now));
    FulfilIsOne(db.(receipts := db.receipts + [r], orders := db.orders[id := o1]), id, env);
    assert db.orders[id := o1][id := o1.(status := Fulfilled)] == db.orders[id := o1.(status := Fulfilled)];
  }

  /** Paid orders stay paid while receipts are only added. */
  lemma PaidAfter(db: Db, db': Db, r: Receipt, w: World)
    requires OrdersPaid(db, w) && db'.receipts == db.receipts + [r] && |db'.orders| == |db.orders|
    requires forall i :: 0 <= i < |db.orders| ==> db'.orders[i] == db.orders[i] || ReceiptPays(r, db'.orders[i], w)
    ensures OrdersPaid(db', w)
  {
    forall i | 0 <= i < |db'.orders| && db'.orders[i].status == Fulfilled ensures OrderPaid(db'.orders[i], db'.receipts, w) {
      if db'.orders[i] == db.orders[i] {
        assert OrderPaid(db.orders[i], db.receipts, w);
        var k :| 0 <= k < |db.receipts| && ReceiptPays(db.receipts[k], db.orders[i], w);
        assert ReceiptPays(db'.receipts[k], db'.orders[i], w);
      } else {
        assert ReceiptPays(db'.receipts[|db.receipts|], db'.orders[i], w);
      }
    }
  }

  /** An order that gets a fresh matched receipt and is fulfilled in the same transaction. */
  lemma OnceAfterConsume(db: Db, db': Db, id: nat, r: Receipt, w: World)
    requires Once(db, w) && id < |db'.orders| && FulfilsOne(db, db', id, db'.orders[id])
    requires db'.orders[id].signature == Some(r.signature) && db'.receipts == db.receipts + [r]
    requires ReceiptPays(r, db'.orders[id], w) && !HasReceipt(db.receipts, r.signature)
    ensures Once(db', w)
  {
    var o' := db'.orders[id];
    PaidAfter(db, db', r, w);
    var e := PaymentFulfilled(o'.account, o'.amount, id);
    ReceiptsUniqueAfter(db, db', r);
    forall s ensures Sum(db'.orders, FulfilledWith(s)) == Sum(db'.receipts, ReceiptWith(s, PaymentMatched)) {
      SumUpdate(db.orders, id, o', FulfilledWith(s));
      SumAppend(db.receipts, r, ReceiptWith(s, PaymentMatched));
    }
    forall s ensures Sum(db'.ledger, CreditEntry(s)) == Sum(db'.receipts, ReceiptWith(s, Credited)) {
      SumAppend(db.ledger, e, CreditEntry(s));
      SumAppend(db.receipts, r, ReceiptWith(s, Credited));
    }
    forall k: nat ensures Sum(db'.ledger, FulfilEntry(k)) == Indicator(k < |db'.orders| && db'.orders[k].status == Fulfilled) {
      SumAppend(db.ledger, e, FulfilEntry(k));
    }
  }

  lemma CreditedUnchangedByMatch(receipts: seq<Receipt>, r: Receipt)
    requires r.status != Credited
    ensures forall a: nat :: Sum(receipts + [r], CreditedTo(a)) == Sum(receipts, CreditedTo(a))
  {
  }

  /** An order that the deposit may pay is found, and it is the first of the query: no order that
      it may pay carries the signature instead, or is older among its equals. */
  lemma {:induction false} BestMatchIsFirst(orders: seq<Order>, account: nat, amount: int, s: string, now: int, k: nat)
    requires k < |orders| && orders[k].account == account && orders[k].amount == amount && now < orders[k].expiresAt
    requires orders[k].status in {PendingPayment, OrderSubmitted} && (orders[k].signature.None? || orders[k].signature == Some(s))
    ensures var best := BestMatch(orders, account, amount, s, now);
      && best.Some?
      && (orders[k].signature == Some(s) ==> orders[best.value].signature == Some(s))
      && (orders[k].signature == orders[best.value].signature ==> orders[best.value].createdAt <= orders[k].createdAt)
  {
    var n := |orders| - 1;
    if k < n { BestMatchIsFirst(orders[..n], account, amount, s, now, k); }
  }

  // ---------------------------------------------------------------------
  // Crediting a deposit
  // ---------------------------------------------------------------------

  /** A fresh receipt that fulfils no order, with the ledger entry it calls for. */
  lemma OnceAfterReceipt(db: Db, db': Db, r: Receipt, w: World)
    requires Once(db, w) && !HasReceipt(db.receipts, r.signature) && Backed(r, w) && r.status != PaymentMatched
    requires db'.orders == db.orders && db'.receipts == db.receipts + [r]
    requires if r.status == Credited then exists a, n :: db'.ledger == db.ledger + [DepositCredited(a, n, r.signature)]
             else db'.ledger == db.ledger
    ensures Once(db', w)
  {
    ReceiptsUniqueAfter(db, db', r);
    PaidAfter(db, db', r, w);
    forall k ensures Sum(db'.orders, FulfilledWith(k)) == Sum(db'.receipts, ReceiptWith(k, PaymentMatched)) {
      SumAppend(db.receipts, r, ReceiptWith(k, PaymentMatched));
    }
    forall k ensures Sum(db'.ledger, CreditEntry(k)) == Sum(db'.receipts, ReceiptWith(k, Credited)) {
      SumAppend(db.receipts, r, ReceiptWith(k, Credited));
      if r.status == Credited { SumAppend(db.ledger, db'.ledger[|db.ledger|], CreditEntry(k)); }
    }
    forall id: nat ensures Sum(db'.ledger, FulfilEntry(id)) == Sum(db.ledger, FulfilEntry(id)) {
      if r.status == Credited { SumAppend(db.ledger, db'.ledger[|db.ledger|], FulfilEntry(id)); }
    }
  }

  lemma OnceAfterCredit(db: Db, wallet: string, amount: int, s: string, w: World, i: nat)
    requires Once(db, w) && !HasReceipt(db.receipts, s)
    requires i < |w.credits(s)| && RawToGame(w.credits(s)[i].raw, w.decimals) == Ok(amount) && amount > 0
    requires Trim(w.credits(s)[i].payer) == wallet
    ensures Once(CreditDeposit(db, wallet, amount, s), w)
  {
    var db' := CreditDeposit(db, wallet, amount, s);
    OnceAfterReceipt(db, db', db'.receipts[|db.receipts|], w);
  }

  lemma BalancedAfterCredit(db: Db, wallet: string, amount: int, s: string)
    ensures Balanced(db, CreditDeposit(db, wallet, amount, s))
  {
  }

  // ---------------------------------------------------------------------
  // One credit, one signature, one scan
  // ---------------------------------------------------------------------

  /** What holds between the tables before and after any step, whatever the RPC mode. */
  ghost predicate Advances(db: Db, db': Db, rules: Rules) {
    Balanced(db, db') && (CapsHeld(db, rules) ==> CapsHeld(db', rules)) && db.receipts <= db'.receipts
  }

  lemma AdvancesThrough(db: Db, mid: Db, db': Db, rules: Rules)
    requires Advances(db, mid, rules) && Advances(mid, db', rules)
    ensures Advances(db, db', rules)
  {
  }

  lemma ConsumeAdvances(db: Db, id: nat, r: Receipt, env: Env, rules: Rules)
    requires id < |db.orders| && Open(db.orders[id]) && r.status == PaymentMatched
    requires ConsumeReceipt(db, id, r, env).Ok?
    ensures var db' := ConsumeReceipt(db, id, r, env).value;
      Advances(db, db', rules) && db'.cursor == db.cursor && HasReceipt(db'.receipts, r.signature)
  {
    var db' := ConsumeReceipt(db, id, r, env).value;
    ConsumeIsOne(db, id, r, env);
    CreditedUnchangedByMatch(db.receipts, r);
    BalancedAfterFulfil(db, db', id, db'.orders[id]);
    if CapsHeld(db, rules) { CapsAfterFulfil(db, db', id, db'.orders[id], rules); }
    assert db'.receipts[|db.receipts|].signature == r.signature;
  }

  lemma CreditAdvances(db: Db, wallet: string, amount: int, s: string, rules: Rules)
    ensures var db' := CreditDeposit(db, wallet, amount, s);
      Advances(db, db', rules) && db'.cursor == db.cursor && HasReceipt(db'.receipts, s)
  {
    var db' := CreditDeposit(db, wallet, amount, s);
    BalancedAfterCredit(db, wallet, amount, s);
    if !HasReceipt(db.receipts, s) { assert db'.receipts[|db.receipts|].signature == s; }
  }

  lemma ProcessCreditAdvances(db: Db, c: Credit, s: string, w: World, env: Env, rules: Rules)
    requires ProcessCredit(db, c, s, w, env).Ok?
    ensures var db' := ProcessCredit(db, c, s, w, env).value;
      && Advances(db, db', rules) && db'.cursor == db.cursor
      && (Creditable(c, w.decimals) ==> HasReceipt(db'.receipts, s))
  {
    if Creditable(c, w.decimals) {
      var wallet, amount := Trim(c.payer), RawToGame(c.raw, w.decimals).value;
      var m := MatchOrder(db, wallet, amount, s, env).value;
      if m.matched {
        var account := FindActive(db.accounts, wallet);
        var id := BestMatch(db.orders, account.value, amount, s, env.now).value;
        ConsumeAdvances(db, id, Receipt(s, account, wallet, amount, PaymentMatched), env, rules);
      } else {
        CreditAdvances(db, wallet, amount, s, rules);
      }
    }
  }

  lemma ProcessCreditOnce(db: Db, s: string, i: nat, w: World, env: Env)
    requires Once(db, w) && i < |w.credits(s)| && ProcessCredit(db, w.credits(s)[i], s, w, env).Ok?
    ensures Once(ProcessCredit(db, w.credits(s)[i], s, w, env).value, w)
  {
    var c := w.credits(s)[i];
    if Creditable(c, w.decimals) && !HasReceipt(db.receipts, s) {
      var wallet, amount := Trim(c.payer), RawToGame(c.raw, w.decimals).value;
      var m := MatchOrder(db, wallet, amount, s, env).value;
      if m.matched {
        var account := FindActive(db.accounts, wallet);
        var id := BestMatch(db.orders, account.value, amount, s, env.now).value;
        var r := Receipt(s, account, wallet, amount, PaymentMatched);
        ConsumeIsOne(db, id, r, env);
        assert Pays(w.credits(s)[i], amount, wallet, w.decimals);
        OnceAfterConsume(db, m.db, id, r, w);
      } else {
        OnceAfterCredit(db, wallet, amount, s, w, i);
      }
    }
  }

  lemma HasReceiptKept(db: Db, db': Db, s: string)
    requires db.receipts <= db'.receipts && HasReceipt(db.receipts, s)
    ensures HasReceipt(db'.receipts, s)
  {
  }

  /** What the first `n` credits of a signature did. */
  ghost predicate CreditsDone(db: Db, db': Db, s: string, n: nat, w: World, rules: Rules)
    requires n <= |w.credits(s)|
  {
    && StepDone(db, db', w, rules)
    && ((exists k :: 0 <= k < n && Creditable(w.credits(s)[k], w.decimals)) ==> HasReceipt(db'.receipts, s))
  }

  lemma CreditDone(db: Db, mid: Db, s: string, n: nat, w: World, env: Env, rules: Rules, db': Db)
    requires n < |w.credits(s)| && CreditsDone(db, mid, s, n, w, rules) && ProcessCredit(mid, w.credits(s)[n], s, w, env) == Ok(db')
    ensures CreditsDone(db, db', s, n + 1, w, rules)
  {
    ProcessCreditAdvances(mid, w.credits(s)[n], s, w, env, rules);
    AdvancesThrough(db, mid, db', rules);
    if Once(mid, w) { ProcessCreditOnce(mid, s, n, w, env); }
    if HasReceipt(mid.receipts, s) { HasReceiptKept(mid, db', s); }
  }

  lemma {:induction false} ProcessCreditsKeep(db: Db, s: string, n: nat, w: World, env: Env, rules: Rules, db': Db)
    requires n <= |w.credits(s)| && ProcessCredits(db, w.credits(s)[..n], s, w, env) == Ok(db')
    ensures CreditsDone(db, db', s, n, w, rules)
  {
    var credits := w.credits(s);
    if n == 0 {
      NothingDone(db, w, rules);
    } else {
      assert credits[..n][..n - 1] == credits[..n - 1];
      var mid := ProcessCredits(db, credits[..n - 1], s, w, env).value;
      ProcessCreditsKeep(db, s, n - 1, w, env, rules, mid);
      CreditDone(db, mid, s, n - 1, w, env, rules, db');
    }
  }

  /** Nothing is left to do for a signature: it failed on chain, it brings nothing that
      could be credited, or its receipt has been written. */
  ghost predicate Settled(db: Db, s: SignatureInfo, w: World) {
    || s.failed
    || (forall k :: 0 <= k < |w.credits(s.signature)| ==> !Creditable(w.credits(s.signature)[k], w.decimals))
    || HasReceipt(db.receipts, s.signature)
  }

  lemma SettledKept(db: Db, db': Db, s: SignatureInfo, w: World)
    requires db.receipts <= db'.receipts && Settled(db, s, w)
    ensures Settled(db', s, w)
  {
  }

  lemma ProcessSignatureKeeps(db: Db, s: SignatureInfo, w: World, env: Env, rules: Rules)
    requires ProcessSignature(db, s, w, env).Ok?
    ensures var db' := ProcessSignature(db, s, w, env).value;
      && Advances(db, db', rules) && db'.cursor == db.cursor && (Once(db, w) ==> Once(db', w)) && Settled(db', s, w)
  {
    if !s.failed {
      var credits := w.credits(s.signature);
      assert credits[..|credits|] == credits;
      ProcessCreditsKeep(db, s.signature, |credits|, w, env, rules, ProcessSignature(db, s, w, env).value);
    }
  }

  lemma ProcessSignatureCursor(db: Db, s: SignatureInfo, w: World, env: Env)
    requires ProcessSignature(db, s, w, env).Ok?
    ensures ProcessSignature(db, s, w, env).value.cursor == db.cursor
  {
    ProcessSignatureKeeps(db, s, w, env, Rules(1, 1, 1, 1, 1, 1, 1, 1));
  }

  lemma StepsDone(db: Db, mid: Db, db': Db, w: World, rules: Rules)
    requires StepDone(db, mid, w, rules) && StepDone(mid, db', w, rules)
    ensures StepDone(db, db', w, rules)
  {
    AdvancesThrough(db, mid, db', rules);
  }

  /** What processing rows of the history keeps. */
  lemma {:induction false} ProcessRowsKeep(db: Db, rows: seq<SignatureInfo>, w: World, env: Env, rules: Rules, db': Db)
    requires ProcessRows(db, rows, w, env) == Ok(db')
    ensures StepDone(db, db', w, rules)
  {
    if |rows| == 0 {
      NothingDone(db, w, rules);
    } else {
      var n := |rows| - 1;
      var mid := ProcessRows(db, rows[..n], w, env).value;
      ProcessRowsKeep(db, rows[..n], w, env, rules, mid);
      ProcessSignatureKeeps(mid, rows[n], w, env, rules);
      StepsDone(db, mid, db', w, rules);
    }
  }

  /** After rows have been processed all of them are settled. */
  lemma {:induction false} ProcessRowsSettle(db: Db, rows: seq<SignatureInfo>, w: World, env: Env, db': Db)
    requires ProcessRows(db, rows, w, env) == Ok(db')
    ensures forall k :: 0 <= k < |rows| ==> Settled(db', rows[k], w)
  {
    if |rows| > 0 {
      var n := |rows| - 1;
      var mid := ProcessRows(db, rows[..n], w, env).value;
      ProcessRowsSettle(db, rows[..n], w, env, mid);
      ProcessSignatureSettles(mid, rows[n], w, env, db');
      StaySettled(mid, db', rows[..n], w);
    }
  }

  lemma ProcessSignatureSettles(db: Db, s: SignatureInfo, w: World, env: Env, db': Db)
    requires ProcessSignature(db, s, w, env) == Ok(db')
    ensures db.receipts <= db'.receipts && Settled(db', s, w)
  {
    ProcessSignatureKeeps(db, s, w, env, Rules(1, 1, 1, 1, 1, 1, 1, 1));
  }

  lemma StaySettled(mid: Db, db': Db, rows: seq<SignatureInfo>, w: World)
    requires mid.receipts <= db'.receipts && forall k :: 0 <= k < |rows| ==> Settled(mid, rows[k], w)
    ensures forall k :: 0 <= k < |rows| ==> Settled(db', rows[k], w)
  {
    forall k | 0 <= k < |rows| ensures Settled(db', rows[k], w) { SettledKept(mid, db', rows[k], w); }
  }

  lemma {:induction false} NewerThanStopsAtCursor(rows: seq<SignatureInfo>, cursor: string)
    ensures var n := |NewerThan(rows, cursor)|;
      && n <= |rows|
      && (n < |rows| ==> cursor != "" && rows[n].signature == cursor)
      && (forall k :: 0 <= k < n ==> cursor == "" || rows[k].signature != cursor)
  {
    if |rows| > 0 && !(cursor != "" && rows[0].signature == cursor) {
      NewerThanStopsAtCursor(rows[1..], cursor);
    }
  }

  /** Every signature at or older than a stored cursor is settled. */
  ghost predicate NothingMissed(sys: System, w: World) {
    && Distinct(sys.history)
    && (sys.db.cursor != "" ==>
          exists i :: 0 <= i < |sys.history| && sys.history[i].signature == sys.db.cursor
            && forall j :: i <= j < |sys.history| ==> Settled(sys.db, sys.history[j], w))
  }

  lemma CursorMoves(db: Db, cursor: string, w: World, rules: Rules)
    ensures Advances(db, db.(cursor := cursor), rules) && (Once(db, w) ==> Once(db.(cursor := cursor), w))
  {
  }

  /** After a committed scan the whole history it saw is settled. */
  lemma ScanSettles(sys: System, w: World, env: Env, rules: Rules)
    requires NothingMissed(sys, w) && Scan(sys.db, sys.history, w, env).Ok?
    ensures var db' := Scan(sys.db, sys.history, w, env).value;
      && Advances(sys.db, db', rules) && (Once(sys.db, w) ==> Once(db', w))
      && (forall k :: 0 <= k < |sys.history| ==> Settled(db', sys.history[k], w))
  {
    var db, rows := sys.db, sys.history;
    var newer := NewerThan(rows, db.cursor);
    var db1 := ProcessRows(db, newer, w, env).value;
    var db' := Scan(db, rows, w, env).value;
    ProcessRowsKeep(db, newer, w, env, rules, db1);
    ProcessRowsSettle(db, newer, w, env, db1);
    NewerThanStopsAtCursor(rows, db.cursor);
    CursorMoves(db1, db'.cursor, w, rules);
    AdvancesThrough(db, db1, db', rules);
    forall k | 0 <= k < |rows| ensures Settled(db', rows[k], w) {
      if k < |newer| {
        assert Settled(db1, newer[k], w);
      } else {
        assert Settled(db, rows[k], w);
        SettledKept(db, db', rows[k], w);
      }
    }
  }

  lemma ScanKeeps(sys: System, w: World, env: Env, rules: Rules)
    requires NothingMissed(sys, w) && Scan(sys.db, sys.history, w, env).Ok?
    ensures var db' := Scan(sys.db, sys.history, w, env).value;
      && Advances(sys.db, db', rules) && (Once(sys.db, w) ==> Once(db', w)) && NothingMissed(sys.(db := db'), w)
  {
    ScanSettles(sys, w, env, rules);
  }

  // ---------------------------------------------------------------------
  // Orders
  // ---------------------------------------------------------------------

  lemma VerifiedPays(o: Order, r: Receipt, w: World)
    requires VerifyPayment(w.credits(r.signature), r.wallet, o.amount, w.decimals).Ok?
    requires r.status == PaymentMatched && r.account == Some(o.account) && r.amount == o.amount
    ensures forall o' :: SameOrder(o, o') && o'.signature == Some(r.signature) ==> ReceiptPays(r, o', w)
  {
    var credits := w.credits(r.signature);
    var i :| 0 <= i < |credits| && credits[i].raw >= GameToRaw(o.amount, w.decimals).value && PayerAcceptable(credits[i], Trim(r.wallet));
    assert Pays(credits[i], r.amount, r.wallet, w.decimals);
  }

  lemma VerifiedKeeps(db: Db, account: nat, id: nat, text: string, w: World, env: Env, rules: Rules)
    requires SubmitVerified(db, account, id, text, w, env).Ok?
    ensures StepDone(db, SubmitVerified(db, account, id, text, w, env).value, w, rules)
  {
    var db' := SubmitVerified(db, account, id, text, w, env).value;
    NothingDone(db, w, rules);
    var checked := VerifyOrder(db, account, id, text, w, env).value;
    if checked.Some? {
      ConsumeAdvances(db, id, checked.value, env, rules);
      if Once(db, w) { VerifiedOnce(db, db', id, checked.value, w, env); }
    }
  }

  lemma VerifiedOnce(db: Db, db': Db, id: nat, r: Receipt, w: World, env: Env)
    requires Once(db, w) && id < |db.orders| && Open(db.orders[id]) && ConsumeReceipt(db, id, r, env) == Ok(db')
    requires VerifyPayment(w.credits(r.signature), r.wallet, r.amount, w.decimals).Ok?
    requires r.status == PaymentMatched && r.account == Some(db.orders[id].account) && r.amount == db.orders[id].amount
    requires !HasReceipt(db.receipts, r.signature)
    ensures Once(db', w)
  {
    ConsumeIsOne(db, id, r, env);
    VerifiedPays(db.orders[id], r, w);
    OnceAfterConsume(db, db', id, r, w);
  }

  /** Writing an open order that stays open moves no count. */
  lemma OpenWriteAdvances(db: Db, id: nat, o': Order, rules: Rules)
    requires id < |db.orders| && Open(db.orders[id]) && Open(o') && SameOrder(db.orders[id], o')
    ensures Advances(db, db.(orders := db.orders[id := o']), rules)
  {
    forall a, c, p ensures Sum(db.orders[id := o'], OpenFor(a, c, p)) == Sum(db.orders, OpenFor(a, c, p)) {
      SumUpdate(db.orders, id, o', OpenFor(a, c, p));
    }
    forall a, c, p ensures Sum(db.orders[id := o'], FulfilledFor(a, c, p)) == Sum(db.orders, FulfilledFor(a, c, p)) {
      SumUpdate(db.orders, id, o', FulfilledFor(a, c, p));
    }
  }

  lemma ConfirmAdvances(db: Db, id: nat, env: Env, rules: Rules)
    requires ConfirmOrder(db, id, env).Ok?
    ensures var db' := ConfirmOrder(db, id, env).value;
      Advances(db, db', rules) && db'.cursor == db.cursor
  {
    var o := db.orders[id];
    if o.status != Fulfilled {
      var o1 := o.(status := OrderConfirmed);
      var mid := db.(orders := db.orders[id := o1]);
      var db' := Fulfil(mid, id, env).value;
      OpenWriteAdvances(db, id, o1, rules);
      FulfilIsOne(mid, id, env);
      BalancedAfterFulfil(mid, db', id, db'.orders[id]);
      if CapsHeld(mid, rules) { CapsAfterFulfil(mid, db', id, db'.orders[id], rules); }
      AdvancesThrough(db, mid, db', rules);
    }
  }

  /** A new pending order; for the capped purposes the count must still be below the cap. */
  lemma InsertKeeps(db: Db, account: nat, character: Option<nat>, purpose: Purpose, amount: int, now: int, timeout: int,
                    w: World, rules: Rules)
    requires purpose == WalletExpand ==>
      && account < |db.accounts| && db.accounts[account].walletExpands < WithDefaults(rules).walletMax
      && Sum(db.orders, OpenFor(account, None, WalletExpand)) <= 0
    requires purpose == BagExpand ==>
      && character.Some? && OwnsCharacter(db, account, character.value)
      && db.characters[character.value].bagExpands < WithDefaults(rules).bagMax
      && Sum(db.orders, OpenFor(account, character, BagExpand)) <= 0
    ensures StepDone(db, InsertOrder(db, account, character, purpose, amount, now, timeout), w, rules)
  {
    var db' := InsertOrder(db, account, character, purpose, amount, now, timeout);
    var o := db'.orders[|db.orders|];
    forall a, c, p ensures Sum(db'.orders, OpenFor(a, c, p)) == Sum(db.orders, OpenFor(a, c, p)) + OpenFor(a, c, p)(o) {
      SumAppend(db.orders, o, OpenFor(a, c, p));
    }
    BalancedAfterInsert(db, db', o);
    if CapsHeld(db, rules) { CapsAfterInsert(db, db', o, rules); }
    if Once(db, w) { OnceAfterInsert(db, db', o, w); }
  }

  lemma BalancedAfterInsert(db: Db, db': Db, o: Order)
    requires db' == db.(orders := db.orders + [o]) && Open(o)
    ensures Balanced(db, db')
  {
    forall a, c, p ensures Sum(db'.orders, FulfilledFor(a, c, p)) == Sum(db.orders, FulfilledFor(a, c, p)) {
      SumAppend(db.orders, o, FulfilledFor(a, c, p));
    }
  }

  lemma CapsAfterInsert(db: Db, db': Db, o: Order, rules: Rules)
    requires CapsHeld(db, rules) && db' == db.(orders := db.orders + [o]) && Open(o)
    requires forall a, c, p :: Sum(db'.orders, OpenFor(a, c, p)) == Sum(db.orders, OpenFor(a, c, p)) + OpenFor(a, c, p)(o)
    requires o.purpose == WalletExpand ==>
      && o.account < |db.accounts| && db.accounts[o.account].walletExpands < WithDefaults(rules).walletMax
      && Sum(db.orders, OpenFor(o.account, None, WalletExpand)) <= 0
    requires o.purpose == BagExpand ==>
      && o.character.Some? && OwnsCharacter(db, o.account, o.character.value)
      && db.characters[o.character.value].bagExpands < WithDefaults(rules).bagMax
      && Sum(db.orders, OpenFor(o.account, o.character, BagExpand)) <= 0
    ensures CapsHeld(db', rules)
  {
  }

  lemma OnceAfterInsert(db: Db, db': Db, o: Order, w: World)
    requires Once(db, w) && db' == db.(orders := db.orders + [o]) && o.status == PendingPayment && o.signature.None?
    ensures Once(db', w)
  {
    forall s ensures Sum(db'.orders, FulfilledWith(s)) == Sum(db.orders, FulfilledWith(s)) {
      SumAppend(db.orders, o, FulfilledWith(s));
    }
  }

  // ---------------------------------------------------------------------
  // Runs
  // ---------------------------------------------------------------------

  lemma NothingMissedKept(sys: System, db': Db, w: World)
    requires NothingMissed(sys, w) && sys.db.receipts <= db'.receipts && db'.cursor == sys.db.cursor
    ensures NothingMissed(sys.(db := db'), w)
  {
  }

  lemma ArriveKeeps(sys: System, rows: seq<SignatureInfo>, w: World)
    requires NothingMissed(sys, w) && Distinct(rows + sys.history)
    ensures NothingMissed(sys.(history := rows + sys.history), w)
  {
    if sys.db.cursor != "" {
      var i :| 0 <= i < |sys.history| && sys.history[i].signature == sys.db.cursor
        && forall j :: i <= j < |sys.history| ==> Settled(sys.db, sys.history[j], w);
      var h := rows + sys.history;
      assert h[|rows| + i].signature == sys.db.cursor;
      forall j | |rows| + i <= j < |h| ensures Settled(sys.db, h[j], w) { assert h[j] == sys.history[j - |rows|]; }
    }
  }

  /** What a step keeps that leaves the cursor alone. */
  ghost predicate StepDone(db: Db, db': Db, w: World, rules: Rules) {
    Advances(db, db', rules) && db'.cursor == db.cursor && (Once(db, w) ==> Once(db', w))
  }

  lemma NothingDone(db: Db, w: World, rules: Rules)
    ensures StepDone(db, db, w, rules)
  {
  }

  lemma BagDone(db: Db, h: seq<SignatureInfo>, w: World, rules: Rules, account: nat, character: nat, now: int)
    ensures StepDone(db, Apply(System(db, h), w, rules, BagStep(account, character, now)).db, w, rules)
  {
    var r := WithDefaults(rules);
    NothingDone(db, w, rules);
    if CreateBagExpand(db, account, character, rules, now).Ok? {
      InsertKeeps(db, account, Some(character), BagExpand, r.bagPrice, now, r.bagTimeout, w, rules);
    }
  }

  lemma WalletDone(db: Db, h: seq<SignatureInfo>, w: World, rules: Rules, account: nat, character: nat, now: int)
    ensures StepDone(db, Apply(System(db, h), w, rules, WalletStep(account, character, now)).db, w, rules)
  {
    var r := WithDefaults(rules);
    NothingDone(db, w, rules);
    if CreateWalletExpand(db, account, character, rules, now).Ok? {
      InsertKeeps(db, account, Some(character), WalletExpand, r.walletPrice, now, r.walletTimeout, w, rules);
    }
  }

  lemma LicenseDone(db: Db, h: seq<SignatureInfo>, w: World, rules: Rules, account: nat, character: Option<nat>, now: int)
    ensures StepDone(db, Apply(System(db, h), w, rules, LicenseStep(account, character, now)).db, w, rules)
  {
    var r := WithDefaults(rules);
    NothingDone(db, w, rules);
    if CreateLicense(db, account, character, rules, now).Ok? {
      InsertKeeps(db, account, character, TradingLicense, r.licensePrice, now, r.licenseTimeout, w, rules);
    }
  }

  lemma OtherDone(db: Db, h: seq<SignatureInfo>, w: World, rules: Rules,
                  account: nat, character: Option<nat>, purpose: Purpose, amount: int, now: int, timeout: int)
    ensures StepDone(db, Apply(System(db, h), w, rules, OtherOrderStep(account, character, purpose, amount, now, timeout)).db, w, rules)
  {
    NothingDone(db, w, rules);
    if purpose !in {WalletExpand, BagExpand, TradingLicense} {
      InsertKeeps(db, account, character, purpose, amount, now, timeout, w, rules);
    }
  }

  /** Steps that create an order. */
  lemma CreateStepKeeps(db: Db, h: seq<SignatureInfo>, w: World, rules: Rules, step: Step)
    requires step.BagStep? || step.WalletStep? || step.LicenseStep? || step.OtherOrderStep?
    ensures StepDone(db, Apply(System(db, h), w, rules, step).db, w, rules)
  {
    match step
    case BagStep(account, character, now) => BagDone(db, h, w, rules, account, character, now);
    case WalletStep(account, character, now) => WalletDone(db, h, w, rules, account, character, now);
    case LicenseStep(account, character, now) => LicenseDone(db, h, w, rules, account, character, now);
    case OtherOrderStep(account, character, purpose, amount, now, timeout) =>
      OtherDone(db, h, w, rules, account, character, purpose, amount, now, timeout);
  }

  /** Wallets and status flags of accounts, and deletion marks of characters, are no one's count. */
  lemma FlagsDone(db: Db, db': Db, w: World, rules: Rules)
    requires db' == db.(accounts := db'.accounts, characters := db'.characters)
    requires |db'.accounts| == |db.accounts| && |db'.characters| == |db.characters|
    requires forall a :: 0 <= a < |db.accounts| ==>
      db'.accounts[a] == db.accounts[a].(wallet := db'.accounts[a].wallet, active := db'.accounts[a].active)
    requires forall c :: 0 <= c < |db.characters| ==> db'.characters[c] == db.characters[c].(deleted := db'.characters[c].deleted)
    ensures StepDone(db, db', w, rules)
  {
  }

  /** Renamed or suspended accounts and deleted characters. */
  lemma FlagStepKeeps(db: Db, h: seq<SignatureInfo>, w: World, rules: Rules, step: Step)
    requires step.AccountStep? || step.CharacterStep?
    ensures StepDone(db, Apply(System(db, h), w, rules, step).db, w, rules)
  {
    FlagsDone(db, Apply(System(db, h), w, rules, step).db, w, rules);
  }

  lemma ConfirmDone(db: Db, w: World, rules: Rules, id: nat, env: Env, db': Db)
    requires ConfirmOrder(db, id, env) == Ok(db')
    ensures StepDone(db, db', w, rules)
  {
    NothingDone(db, w, rules);
    ConfirmAdvances(db, id, env, rules);
    if OrdersClean(db) { assert OrderClean(db.orders[id]); }
  }

  /** Steps that submit or confirm an order. */
  lemma OrderStepKeeps(db: Db, h: seq<SignatureInfo>, w: World, rules: Rules, step: Step)
    requires step.VerifiedStep? || step.UnverifiedStep? || step.ConfirmStep?
    ensures var db' := Apply(System(db, h), w, rules, step).db;
      && Advances(db, db', rules) && db'.cursor == db.cursor
      && (!step.UnverifiedStep? && Once(db, w) ==> Once(db', w))
  {
    NothingDone(db, w, rules);
    match step
    case VerifiedStep(account, id, text, env) =>
      if SubmitVerified(db, account, id, text, w, env).Ok? { VerifiedKeeps(db, account, id, text, w, env, rules); }
    case UnverifiedStep(account, id, text, now) =>
      var attempt := SubmitUnverified(db, account, id, text, now);
      if attempt.Ok? { OpenWriteAdvances(db, id, attempt.value.orders[id], rules); }
    case ConfirmStep(id, env) =>
      var attempt := ConfirmOrder(db, id, env);
      if attempt.Ok? { ConfirmDone(db, w, rules, id, env, attempt.value); }
  }

  /** Every step, in any RPC mode: nothing is missed, balances and expansions are
      accounted for and the caps hold. With the RPC node on, effects happen once. */
  lemma StepKeeps(sys: System, w: World, rules: Rules, step: Step)
    requires NothingMissed(sys, w)
    ensures var sys' := Apply(sys, w, rules, step);
      && NothingMissed(sys', w) && Advances(sys.db, sys'.db, rules)
      && (!step.UnverifiedStep? && Once(sys.db, w) ==> Once(sys'.db, w))
  {
    if step.Arrive? {
      if Distinct(step.rows + sys.history) { ArriveKeeps(sys, step.rows, w); }
    } else if step.ScanStep? {
      if Scan(sys.db, sys.history, w, step.env).Ok? { ScanKeeps(sys, w, step.env, rules); }
    } else {
      if step.VerifiedStep? || step.UnverifiedStep? || step.ConfirmStep? {
        OrderStepKeeps(sys.db, sys.history, w, rules, step);
      } else if step.AccountStep? || step.CharacterStep? {
        FlagStepKeeps(sys.db, sys.history, w, rules, step);
      } else {
        CreateStepKeeps(sys.db, sys.history, w, rules, step);
      }
      NothingMissedKept(sys, Apply(sys, w, rules, step).db, w);
    }
  }

  /** The main result over whole runs, whatever the interleaving. */
  lemma {:induction false} RunKeeps(sys: System, w: World, rules: Rules, steps: seq<Step>)
    requires NothingMissed(sys, w)
    ensures var sys' := Run(sys, w, rules, steps);
      && NothingMissed(sys', w) && Advances(sys.db, sys'.db, rules)
      && (RpcOn(steps) && Once(sys.db, w) ==> Once(sys'.db, w))
  {
    if |steps| > 0 {
      var n := |steps| - 1;
      RunKeeps(sys, w, rules, steps[..n]);
      var mid := Run(sys, w, rules, steps[..n]);
      StepKeeps(mid, w, rules, steps[n]);
      AdvancesThrough(sys.db, mid.db, Run(sys, w, rules, steps).db, rules);
    }
  }

  // ---------------------------------------------------------------------
  // What a reader may conclude in a reachable state
  // ---------------------------------------------------------------------

  /** Effects of a signature: external-balance credits plus fulfilled orders. */
  ghost function EffectsOf(db: Db, s: string): int {
    Sum(db.ledger, CreditEntry(s)) + Sum(db.orders, FulfilledWith(s))
  }

  /** A chain signature has at most one effect, and none without a receipt. */
  lemma SignatureCountsOnce(db: Db, w: World, s: string)
    requires Once(db, w)
    ensures 0 <= EffectsOf(db, s) <= 1
    ensures EffectsOf(db, s) == 1 ==> HasReceipt(db.receipts, s)
  {
    var rs := db.receipts;
    SumNonNegative(rs, ReceiptWith(s, Credited));
    SumNonNegative(rs, ReceiptWith(s, PaymentMatched));
    EffectsAreReceipts(rs, s);
    if EffectsOf(db, s) == 1 {
      var i := SumWitness(rs, ReceiptFor(s));
      assert rs[i].signature == s;
    }
  }

  lemma {:induction false} EffectsAreReceipts(rs: seq<Receipt>, s: string)
    ensures Sum(rs, ReceiptWith(s, Credited)) + Sum(rs, ReceiptWith(s, PaymentMatched)) <= Sum(rs, ReceiptFor(s))
  {
    if |rs| > 0 { EffectsAreReceipts(rs[..|rs| - 1], s); }
  }

  /** A system that starts with pending orders, no receipts and no entries. */
  ghost predicate Fresh(sys: System, w: World) {
    && sys.db.receipts == [] && sys.db.ledger == [] && sys.db.cursor == "" && Distinct(sys.history)
    && forall i :: 0 <= i < |sys.db.orders| ==> sys.db.orders[i].status == PendingPayment && sys.db.orders[i].signature.None?
  }

  lemma FreshIsOnce(sys: System, w: World)
    requires Fresh(sys, w)
    ensures Once(sys.db, w) && NothingMissed(sys, w)
  {
    var db := sys.db;
    forall s ensures Sum(db.orders, FulfilledWith(s)) == 0 {
      if Sum(db.orders, FulfilledWith(s)) != 0 { var i := SumWitness(db.orders, FulfilledWith(s)); }
    }
  }

  /** From a fresh system, over every run with the RPC node on: at most one effect per
      signature, at most one fulfilment entry per order, every fulfilled order paid on chain, and
      external balances grew by exactly the sum of the credited receipts. */
  lemma ExactlyOnceOverRuns(sys: System, w: World, rules: Rules, steps: seq<Step>, s: string, id: nat, a: nat)
    requires Fresh(sys, w) && RpcOn(steps) && a < |sys.db.accounts|
    ensures var db := Run(sys, w, rules, steps).db;
      && EffectsOf(db, s) <= 1
      && Sum(db.ledger, FulfilEntry(id)) == Indicator(id < |db.orders| && db.orders[id].status == Fulfilled)
      && (id < |db.orders| && db.orders[id].status == Fulfilled ==> OrderPaid(db.orders[id], db.receipts, w))
      && |db.accounts| == |sys.db.accounts|
      && db.accounts[a].external == sys.db.accounts[a].external + Sum(db.receipts, CreditedTo(a))
      && db.accounts[a].token == sys.db.accounts[a].token + Sum(db.receipts, CreditedTo(a))
  {
    FreshIsOnce(sys, w);
    RunKeeps(sys, w, rules, steps);
    var db := Run(sys, w, rules, steps).db;
    SignatureCountsOnce(db, w, s);
    assert ExternalBase(db, a) == ExternalBase(sys.db, a) && TokenBase(db, a) == TokenBase(sys.db, a);
  }

  /** From a fresh system, over every run in any RPC mode: whenever the stored cursor is not
      empty, it names a signature of the history, and that one and every older one is settled. */
  lemma NothingMissedOverRuns(sys: System, w: World, rules: Rules, steps: seq<Step>) returns (i: nat)
    requires Fresh(sys, w) && Run(sys, w, rules, steps).db.cursor != ""
    ensures var sys' := Run(sys, w, rules, steps);
      && i < |sys'.history| && sys'.history[i].signature == sys'.db.cursor
      && forall j :: i <= j < |sys'.history| ==> Settled(sys'.db, sys'.history[j], w)
  {
    FreshIsOnce(sys, w);
    RunKeeps(sys, w, rules, steps);
    var sys' := Run(sys, w, rules, steps);
    i :| 0 <= i < |sys'.history| && sys'.history[i].signature == sys'.db.cursor
      && forall j :: i <= j < |sys'.history| ==> Settled(sys'.db, sys'.history[j], w);
  }

  /** Over every run with fixed rules: expansions bought plus open orders for more never exceed the maximum. */
  lemma CapsOverRuns(sys: System, w: World, rules: Rules, steps: seq<Step>, a: nat, c: nat)
    requires NothingMissed(sys, w) && CapsHeld(sys.db, rules) && a < |sys.db.accounts| && c < |sys.db.characters|
    ensures var db := Run(sys, w, rules, steps).db;
      && |db.accounts| == |sys.db.accounts| && |db.characters| == |sys.db.characters|
      && db.accounts[a].walletExpands + Sum(db.orders, OpenFor(a, None, WalletExpand)) <= WithDefaults(rules).walletMax
      && db.characters[c].bagExpands + Sum(db.orders, OpenFor(db.characters[c].account, Some(c), BagExpand)) <= WithDefaults(rules).bagMax
  {
    RunKeeps(sys, w, rules, steps);
  }

  /** A signature that has its receipt changes nothing when it is scanned again, however many
      credits it carries: of several credits in one transaction only the first counts. */
  lemma {:induction false} ReceiptStopsCredits(db: Db, credits: seq<Credit>, s: string, w: World, env: Env)
    requires HasReceipt(db.receipts, s) && ProcessCredits(db, credits, s, w, env).Ok?
    ensures ProcessCredits(db, credits, s, w, env) == Ok(db)
  {
    if |credits| > 0 {
      ReceiptStopsCredits(db, credits[..|credits| - 1], s, w, env);
    }
  }
}
