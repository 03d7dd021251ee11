/** What each transaction of the bridge does, exactly: whose account a deposit reaches, which
    order it pays, when an order is fulfilled, and when a transaction fails. */
module BridgeOutcomes {
  import opened Basics
  import opened Credits
  import opened Bridge
  import opened BridgeProofs
  import opened BridgeTrust

  // ---------------------------------------------------------------------
  // Fulfilment
  // ---------------------------------------------------------------------

  /** What the order is for can be delivered. */
  predicate Deliverable(db: Db, o: Order, id: nat, env: Env) {
    match o.purpose
    case WalletExpand => o.account < |db.accounts|
    case BagExpand => o.character.Some? && OwnsCharacter(db, o.account, o.character.value)
    case TradingLicense => true
    case LotteryDraw => o.character.Some? && env.delivers(id)
    case ShopBuy => o.character.Some? && env.delivers(id)
    case BountySlotUnlock => env.delivers(id)
    case BountyPremiumRefresh => env.delivers(id)
    case Unsupported => false
  }

  lemma FulfilSucceedsIff(db: Db, id: nat, env: Env)
    ensures Fulfil(db, id, env).Ok? <==>
      id < |db.orders| && (db.orders[id].status == Fulfilled || Deliverable(db, db.orders[id], id, env))
  {
  }

  // ---------------------------------------------------------------------
  // One deposit
  // ---------------------------------------------------------------------

  /** The order after a payment with signature `s`. */
  function PaidOrder(o: Order, s: string, now: int): Order {
    o.(status := Fulfilled, signature := Some(s), submittedAt := if o.submittedAt.Some? then o.submittedAt else Some(now))
  }

  /** An open order was paid with the receipt: its row, its effect, its entry, and no balance. */
  ghost predicate PaidWith(db: Db, db': Db, id: nat, r: Receipt, now: int) {
    && id < |db.orders| && FulfilsOne(db, db', id, PaidOrder(db.orders[id], r.signature, now))
    && db'.receipts == db.receipts + [r] && db'.cursor == db.cursor
  }

  lemma ConsumeOutcome(db: Db, id: nat, r: Receipt, env: Env, db': Db)
    requires id < |db.orders| && Open(db.orders[id]) && ConsumeReceipt(db, id, r, env) == Ok(db')
    ensures PaidWith(db, db', id, r, env.now)
  {
    var o := db.orders[id];
    var o1 := PaidOrder(o, r.signature, env.now).(status := OrderSubmitted);
    FulfilIsOne(db.(receipts := db.receipts + [r], orders := db.orders[id := o1]), id, env);
    assert db.orders[id := o1][id := o1.(status := Fulfilled)] == db.orders[id := o1.(status := Fulfilled)];
  }

  lemma ConsumeSucceedsIff(db: Db, id: nat, r: Receipt, env: Env)
    requires id < |db.orders| && Open(db.orders[id])
    ensures ConsumeReceipt(db, id, r, env).Ok? <==>
      SignatureFreeFor(db.orders, id, r.signature) && Deliverable(db, db.orders[id], id, env)
  {
    var o1 := PaidOrder(db.orders[id], r.signature, env.now).(status := OrderSubmitted);
    FulfilSucceedsIff(db.(receipts := db.receipts + [r], orders := db.orders[id := o1]), id, env);
  }

  predicate NoActive(accounts: seq<Account>, wallet: string) {
    forall i :: 0 <= i < |accounts| ==> accounts[i].wallet != wallet || !accounts[i].active
  }

  /** Some order of the account may be paid with the amount. */
  predicate Payable(db: Db, a: nat, amount: int, s: string, now: int) {
    exists k :: 0 <= k < |db.orders| && Candidate(db.orders[k], a, amount, s, now)
  }

  /** Order `id` is the one the query puts first. */
  ghost predicate First(db: Db, id: nat, a: nat, amount: int, s: string, now: int) {
    && id < |db.orders| && Candidate(db.orders[id], a, amount, s, now)
    && forall k :: 0 <= k < |db.orders| && Candidate(db.orders[k], a, amount, s, now) ==> !Precedes(db.orders[k], db.orders[id], s)
  }

  lemma BestIsFirst(db: Db, a: nat, amount: int, s: string, now: int)
    ensures var best := BestMatch(db.orders, a, amount, s, now);
      if Payable(db, a, amount, s, now) then best.Some? && First(db, best.value, a, amount, s, now) else best.None?
  {
    forall k: nat | k < |db.orders| && Candidate(db.orders[k], a, amount, s, now)
      ensures var best := BestMatch(db.orders, a, amount, s, now); best.Some? && !Precedes(db.orders[k], db.orders[best.value], s)
    {
      BestMatchIsFirst(db.orders, a, amount, s, now, k);
    }
  }

  /** The balances and the entry of a credited deposit, and nothing else. */
  predicate Gains(db: Db, db': Db, a: nat, r: Receipt)
    requires a < |db.accounts|
  {
    db' == db.(receipts := db.receipts + [r],
               accounts := db.accounts[a := db.accounts[a].(external := db.accounts[a].external + r.amount,
                                                            token := db.accounts[a].token + r.amount)],
               ledger := db.ledger + [DepositCredited(a, r.amount, r.signature)])
  }

  /** A deposit with receipt `r`: it pays the first order of the payer's account that it may pay;
      without one it is credited to that account; and without an account only the receipt is written. */
  ghost predicate Deposited(db: Db, db': Db, r: Receipt, now: int) {
    match r.account
    case None => r.status == Ignored && NoActive(db.accounts, r.wallet) && db' == db.(receipts := db.receipts + [r])
    case Some(a) =>
      && a < |db.accounts| && db.accounts[a].wallet == r.wallet && db.accounts[a].active
      && if Payable(db, a, r.amount, r.signature, now)
         then r.status == PaymentMatched
              && exists id :: First(db, id, a, r.amount, r.signature, now) && PaidWith(db, db', id, r, now)
         else r.status == Credited && Gains(db, db', a, r)
  }

  lemma CreditOutcome(db: Db, c: Credit, s: string, w: World, env: Env, db': Db) returns (r: Receipt)
    requires !HasReceipt(db.receipts, s) && Creditable(c, w.decimals) && ProcessCredit(db, c, s, w, env) == Ok(db')
    ensures r.signature == s && r.wallet == Trim(c.payer) && RawToGame(c.raw, w.decimals) == Ok(r.amount)
    ensures Deposited(db, db', r, env.now)
  {
    var wallet, amount := Trim(c.payer), RawToGame(c.raw, w.decimals).value;
    var account := FindActive(db.accounts, wallet);
    if account.None? {
      r := Receipt(s, None, wallet, amount, Ignored);
    } else {
      BestIsFirst(db, account.value, amount, s, env.now);
      var id := BestMatch(db.orders, account.value, amount, s, env.now);
      if id.Some? {
        r := Receipt(s, account, wallet, amount, PaymentMatched);
        ConsumeOutcome(db, id.value, r, env, db');
      } else {
        r := Receipt(s, account, wallet, amount, Credited);
      }
    }
  }

  // ---------------------------------------------------------------------
  // One signature
  // ---------------------------------------------------------------------

  /** The transfer that decides what a signature does. */
  ghost predicate Decides(c: Credit, r: Receipt, s: string, decimals: int) {
    r.signature == s && r.wallet == Trim(c.payer) && RawToGame(c.raw, decimals) == Ok(r.amount) && r.amount > 0
  }

  ghost predicate DepositedFrom(db: Db, db': Db, c: Credit, s: string, w: World, now: int) {
    exists r :: Decides(c, r, s, w.decimals) && Deposited(db, db', r, now)
  }

  lemma {:induction false} CreditsOutcome(db: Db, credits: seq<Credit>, s: string, w: World, env: Env, db': Db)
    requires !HasReceipt(db.receipts, s) && ProcessCredits(db, credits, s, w, env) == Ok(db')
    ensures var first := FirstCreditable(credits, w.decimals);
      if first.None? then db' == db else DepositedFrom(db, db', credits[first.value], s, w, env.now) && HasReceipt(db'.receipts, s)
  {
    if |credits| > 0 {
      var n := |credits| - 1;
      var mid := ProcessCredits(db, credits[..n], s, w, env).value;
      CreditsOutcome(db, credits[..n], s, w, env, mid);
      if FirstCreditable(credits[..n], w.decimals).Some? {
        assert credits[n..] == [credits[n]];
        ReceiptStopsCredits(mid, [credits[n]], s, w, env);
      } else if Creditable(credits[n], w.decimals) {
        var r := CreditOutcome(db, credits[n], s, w, env, db');
        assert db'.receipts[|db.receipts|] == r;
      }
    }
  }

  /** What one signature of the history does: nothing if it failed on chain, has a receipt or brings
      nothing that counts; otherwise its first transfer that counts is deposited, once. */
  lemma SignatureOutcome(db: Db, row: SignatureInfo, w: World, env: Env, db': Db)
    requires ProcessSignature(db, row, w, env) == Ok(db')
    ensures var s := row.signature;
      var first := FirstCreditable(w.credits(s), w.decimals);
      if row.failed || HasReceipt(db.receipts, s) || first.None? then db' == db
      else DepositedFrom(db, db', w.credits(s)[first.value], s, w, env.now)
  {
    var s := row.signature;
    if !row.failed {
      if HasReceipt(db.receipts, s) {
        ReceiptStopsCredits(db, w.credits(s), s, w, env);
      } else {
        CreditsOutcome(db, w.credits(s), s, w, env, db');
      }
    }
  }

  /** The deposit pays an order, and that order cannot be fulfilled with this signature. */
  ghost predicate Blocked(db: Db, c: Credit, s: string, w: World, env: Env)
    requires Creditable(c, w.decimals)
  {
    var account, amount := FindActive(db.accounts, Trim(c.payer)), RawToGame(c.raw, w.decimals).value;
    account.Some?
    && var id := BestMatch(db.orders, account.value, amount, s, env.now);
       id.Some? && !(SignatureFreeFor(db.orders, id.value, s) && Deliverable(db, db.orders[id.value], id.value, env))
  }

  lemma CreditFailsIff(db: Db, c: Credit, s: string, w: World, env: Env)
    ensures ProcessCredit(db, c, s, w, env).Fail? <==>
      || RawToGame(c.raw, w.decimals).Fail?
      || (Creditable(c, w.decimals) && !HasReceipt(db.receipts, s) && Blocked(db, c, s, w, env))
  {
    if Creditable(c, w.decimals) && !HasReceipt(db.receipts, s) {
      var wallet, amount := Trim(c.payer), RawToGame(c.raw, w.decimals).value;
      var account := FindActive(db.accounts, wallet);
      if account.Some? {
        BestIsFirst(db, account.value, amount, s, env.now);
        var id := BestMatch(db.orders, account.value, amount, s, env.now);
        if id.Some? { ConsumeSucceedsIff(db, id.value, Receipt(s, account, wallet, amount, PaymentMatched), env); }
      }
    }
  }

  predicate Unconvertible(credits: seq<Credit>, decimals: int) {
    exists k :: 0 <= k < |credits| && RawToGame(credits[k].raw, decimals).Fail?
  }

  lemma UnconvertibleMore(credits: seq<Credit>, decimals: int)
    requires |credits| > 0
    ensures var n := |credits| - 1;
      Unconvertible(credits, decimals) <==> Unconvertible(credits[..n], decimals) || RawToGame(credits[n].raw, decimals).Fail?
  {
    var n := |credits| - 1;
    assert forall k :: 0 <= k < n ==> credits[..n][k] == credits[k];
  }

  lemma {:induction false} CreditsFailIff(db: Db, credits: seq<Credit>, s: string, w: World, env: Env)
    requires !HasReceipt(db.receipts, s)
    ensures var first := FirstCreditable(credits, w.decimals);
      ProcessCredits(db, credits, s, w, env).Fail? <==>
      Unconvertible(credits, w.decimals) || (first.Some? && Blocked(db, credits[first.value], s, w, env))
  {
    if |credits| > 0 {
      var n := |credits| - 1;
      UnconvertibleMore(credits, w.decimals);
      CreditsFailIff(db, credits[..n], s, w, env);
      var before := ProcessCredits(db, credits[..n], s, w, env);
      if before.Ok? {
        CreditsOutcome(db, credits[..n], s, w, env, before.value);
        CreditFailsIff(before.value, credits[n], s, w, env);
      }
    }
  }

  lemma {:induction false} ReceiptedFailIff(db: Db, credits: seq<Credit>, s: string, w: World, env: Env)
    requires HasReceipt(db.receipts, s)
    ensures ProcessCredits(db, credits, s, w, env).Fail? <==> Unconvertible(credits, w.decimals)
  {
    if |credits| > 0 {
      var n := |credits| - 1;
      UnconvertibleMore(credits, w.decimals);
      ReceiptedFailIff(db, credits[..n], s, w, env);
      if ProcessCredits(db, credits[..n], s, w, env).Ok? {
        ReceiptStopsCredits(db, credits[..n], s, w, env);
        CreditFailsIff(db, credits[n], s, w, env);
      }
    }
  }

  /** A signature makes the scan fail exactly when it succeeded on chain and the node does not serve
      it, an amount cannot be converted, or the order that its deposit pays cannot be fulfilled. */
  lemma SignatureFailsIff(db: Db, row: SignatureInfo, w: World, env: Env)
    ensures var s := row.signature;
      var first := FirstCreditable(w.credits(s), w.decimals);
      ProcessSignature(db, row, w, env).Fail? <==>
      (!row.failed
       && (|| !env.reachable(s) || Unconvertible(w.credits(s), w.decimals)
           || (!HasReceipt(db.receipts, s) && first.Some? && Blocked(db, w.credits(s)[first.value], s, w, env))))
  {
    var s := row.signature;
    if HasReceipt(db.receipts, s) {
      ReceiptedFailIff(db, w.credits(s), s, w, env);
    } else {
      CreditsFailIff(db, w.credits(s), s, w, env);
    }
  }

  // ---------------------------------------------------------------------
  // A whole scan
  // ---------------------------------------------------------------------

  /** The receipt names the account of the payer: the active one bound to the wallet, or none. */
  ghost predicate NamesPayer(accounts: seq<Account>, r: Receipt) {
    match r.account
    case None => r.status == Ignored && NoActive(accounts, r.wallet)
    case Some(a) => r.status != Ignored && a < |accounts| && accounts[a].wallet == r.wallet && accounts[a].active
  }

  /** Receipt `r` is what the first transfer of row `row` that counts calls for. */
  ghost predicate ReceiptRight(accounts: seq<Account>, r: Receipt, row: SignatureInfo, w: World) {
    var first := FirstCreditable(w.credits(row.signature), w.decimals);
    !row.failed && first.Some? && Decides(w.credits(row.signature)[first.value], r, row.signature, w.decimals) && NamesPayer(accounts, r)
  }

  ghost predicate FromRows(accounts: seq<Account>, r: Receipt, rows: seq<SignatureInfo>, w: World) {
    exists j :: 0 <= j < |rows| && ReceiptRight(accounts, r, rows[j], w)
  }

  /** Only receipts for the rows were added, and no account was bound otherwise. */
  ghost predicate ReceiptsFrom(db: Db, db': Db, rows: seq<SignatureInfo>, w: World) {
    && SameWallets(db, db') && db.receipts <= db'.receipts
    && forall k :: |db.receipts| <= k < |db'.receipts| ==> FromRows(db.accounts, db'.receipts[k], rows, w)
  }

  lemma DepositedAdds(db: Db, db': Db, r: Receipt, now: int)
    requires Deposited(db, db', r, now)
    ensures SameWallets(db, db') && db'.receipts == db.receipts + [r] && NamesPayer(db.accounts, r)
  {
  }

  lemma SignatureReceipts(db: Db, row: SignatureInfo, w: World, env: Env, db': Db)
    requires ProcessSignature(db, row, w, env) == Ok(db')
    ensures ReceiptsFrom(db, db', [row], w)
  {
    SignatureOutcome(db, row, w, env, db');
    if db' != db {
      var s := row.signature;
      var c := w.credits(s)[FirstCreditable(w.credits(s), w.decimals).value];
      var r :| Decides(c, r, s, w.decimals) && Deposited(db, db', r, env.now);
      DepositedAdds(db, db', r, env.now);
      assert ReceiptRight(db.accounts, r, [row][0], w);
    }
  }

  lemma SamePayer(accounts: seq<Account>, accounts': seq<Account>, r: Receipt)
    requires |accounts'| == |accounts|
    requires forall a :: 0 <= a < |accounts| ==> accounts'[a].wallet == accounts[a].wallet && accounts'[a].active == accounts[a].active
    ensures NamesPayer(accounts', r) == NamesPayer(accounts, r)
  {
  }

  lemma ReceiptsMore(db: Db, mid: Db, db': Db, rows: seq<SignatureInfo>, w: World)
    requires |rows| > 0 && ReceiptsFrom(db, mid, rows[..|rows| - 1], w) && ReceiptsFrom(mid, db', [rows[|rows| - 1]], w)
    ensures ReceiptsFrom(db, db', rows, w)
  {
    var n := |rows| - 1;
    forall k | |db.receipts| <= k < |db'.receipts| ensures FromRows(db.accounts, db'.receipts[k], rows, w) {
      var r := db'.receipts[k];
      if k < |mid.receipts| {
        assert r == mid.receipts[k] && FromRows(db.accounts, r, rows[..n], w);
        var j :| 0 <= j < n && ReceiptRight(db.accounts, r, rows[..n][j], w);
        assert ReceiptRight(db.accounts, r, rows[j], w);
      } else {
        assert FromRows(mid.accounts, r, [rows[n]], w);
        SamePayer(db.accounts, mid.accounts, r);
        assert ReceiptRight(db.accounts, r, rows[n], w);
      }
    }
  }

  lemma {:induction false} RowsReceipts(db: Db, rows: seq<SignatureInfo>, w: World, env: Env, db': Db)
    requires ProcessRows(db, rows, w, env) == Ok(db')
    ensures ReceiptsFrom(db, db', rows, w)
  {
    if |rows| > 0 {
      var n := |rows| - 1;
      var mid := ProcessRows(db, rows[..n], w, env).value;
      RowsReceipts(db, rows[..n], w, env, mid);
      SignatureReceipts(mid, rows[n], w, env, db');
      ReceiptsMore(db, mid, db', rows, w);
    }
  }

  /** The balances of `a` grew by exactly the CREDITED receipts of `a` that were added. */
  ghost predicate Grows(db: Db, db': Db, a: nat)
    requires a < |db.accounts|
  {
    && |db'.accounts| == |db.accounts| && |db.receipts| <= |db'.receipts|
    && var gain := Sum(db'.receipts[|db.receipts|..], CreditedTo(a));
       db'.accounts[a].external == db.accounts[a].external + gain && db'.accounts[a].token == db.accounts[a].token + gain
  }

  lemma BalancedGrows(db: Db, db': Db, a: nat)
    requires a < |db.accounts| && db.receipts <= db'.receipts && Balanced(db, db')
    ensures Grows(db, db', a)
  {
    assert ExternalBase(db', a) == ExternalBase(db, a) && TokenBase(db', a) == TokenBase(db, a);
    SumConcat(db.receipts, db'.receipts[|db.receipts|..], CreditedTo(a));
    assert db'.receipts == db.receipts + db'.receipts[|db.receipts|..];
  }

  lemma RowsBalanced(db: Db, rows: seq<SignatureInfo>, w: World, env: Env, db': Db)
    requires ProcessRows(db, rows, w, env) == Ok(db')
    ensures Balanced(db, db')
  {
    ProcessRowsKeep(db, rows, w, env, Rules(1, 1, 1, 1, 1, 1, 1, 1), db');
  }

  lemma ScanIs(db: Db, history: seq<SignatureInfo>, w: World, env: Env, db': Db) returns (db1: Db)
    requires Scan(db, history, w, env) == Ok(db')
    ensures ProcessRows(db, NewerThan(history, db.cursor), w, env) == Ok(db1)
    ensures db' == db1.(cursor := if |history| == 0 then "" else history[0].signature)
  {
    db1 := ProcessRows(db, NewerThan(history, db.cursor), w, env).value;
  }

  /** What a committed scan does: the cursor stands at the head; each new receipt is for the first
      transfer that counts of a row newer than the old cursor, and names the payer's own active
      account or none; each balance grows by exactly the CREDITED receipts of its account. */
  lemma ScanOutcome(db: Db, history: seq<SignatureInfo>, w: World, env: Env, db': Db, a: nat)
    requires Scan(db, history, w, env) == Ok(db') && a < |db.accounts|
    ensures db'.cursor == if |history| == 0 then "" else history[0].signature
    ensures ReceiptsFrom(db, db', NewerThan(history, db.cursor), w)
    ensures Grows(db, db', a)
  {
    var db1 := ScanIs(db, history, w, env, db');
    RowsReceipts(db, NewerThan(history, db.cursor), w, env, db1);
    RowsBalanced(db, NewerThan(history, db.cursor), w, env, db1);
    BalancedGrows(db, db1, a);
  }

  /** The first transfer that counts of row `row` comes from the wallet. */
  ghost predicate PaidFrom(row: SignatureInfo, wallet: string, w: World) {
    var first := FirstCreditable(w.credits(row.signature), w.decimals);
    !row.failed && first.Some? && Trim(w.credits(row.signature)[first.value].payer) == wallet
  }

  lemma NothingFor(receipts: seq<Receipt>, a: nat)
    requires forall k :: 0 <= k < |receipts| ==> receipts[k].account != Some(a)
    ensures Sum(receipts, CreditedTo(a)) == 0
  {
    if Sum(receipts, CreditedTo(a)) != 0 { var k := SumWitness(receipts, CreditedTo(a)); }
  }

  ghost predicate NoOnePaid(rows: seq<SignatureInfo>, wallet: string, w: World) {
    forall j :: 0 <= j < |rows| ==> !PaidFrom(rows[j], wallet, w)
  }

  lemma NotNamed(accounts: seq<Account>, r: Receipt, rows: seq<SignatureInfo>, w: World, a: nat)
    requires a < |accounts| && FromRows(accounts, r, rows, w)
    requires !accounts[a].active || NoOnePaid(rows, accounts[a].wallet, w)
    ensures r.account != Some(a)
  {
    var j :| 0 <= j < |rows| && ReceiptRight(accounts, r, rows[j], w);
    assert PaidFrom(rows[j], r.wallet, w);
  }

  /** Only an active account whose own wallet sent a transfer gains by a scan: a payer without an
      active account changes no balance. */
  lemma OnlyPayersGain(db: Db, history: seq<SignatureInfo>, w: World, env: Env, db': Db, a: nat)
    requires Scan(db, history, w, env) == Ok(db') && a < |db.accounts|
    requires !db.accounts[a].active || NoOnePaid(NewerThan(history, db.cursor), db.accounts[a].wallet, w)
    ensures a < |db'.accounts| && db'.accounts[a].external == db.accounts[a].external && db'.accounts[a].token == db.accounts[a].token
  {
    ScanOutcome(db, history, w, env, db', a);
    NoneNamed(db, db', NewerThan(history, db.cursor), w, a);
  }

  lemma NoneNamed(db: Db, db': Db, rows: seq<SignatureInfo>, w: World, a: nat)
    requires a < |db.accounts| && ReceiptsFrom(db, db', rows, w)
    requires !db.accounts[a].active || NoOnePaid(rows, db.accounts[a].wallet, w)
    ensures Sum(db'.receipts[|db.receipts|..], CreditedTo(a)) == 0
  {
    var added := db'.receipts[|db.receipts|..];
    forall k | 0 <= k < |added| ensures added[k].account != Some(a) {
      NotNamed(db.accounts, db'.receipts[|db.receipts| + k], rows, w, a);
    }
    NothingFor(added, a);
  }

  // ---------------------------------------------------------------------
  // Orders
  // ---------------------------------------------------------------------

  /** A transfer of at least the amount, in raw units, from the wallet or from nobody known. */
  predicate PaidOnChain(credits: seq<Credit>, wallet: string, amount: int, decimals: int) {
    && Representable(amount, decimals)
    && exists i :: 0 <= i < |credits| && credits[i].raw >= amount * Pow10(decimals) && (credits[i].payer == "" || credits[i].payer == wallet)
  }

  lemma PaidIffVerified(credits: seq<Credit>, wallet: string, amount: int, decimals: int)
    requires Trim(wallet) == wallet != ""
    ensures VerifyPayment(credits, wallet, amount, decimals).Ok? <==> PaidOnChain(credits, wallet, amount, decimals)
  {
    if PaidOnChain(credits, wallet, amount, decimals) {
      var i :| 0 <= i < |credits| && credits[i].raw >= amount * Pow10(decimals) && (credits[i].payer == "" || credits[i].payer == wallet);
      assert PayerAcceptable(credits[i], Trim(wallet));
    }
  }

  /** The order may be submitted with a signature: the account's own, of a known purpose, open for
      a signature and not expired. */
  predicate Submittable(o: Order, account: nat, now: int) {
    && o.account == account && o.purpose != Unsupported
    && (o.status == PendingPayment || o.status == OrderSubmitted) && now <= o.expiresAt
  }

  /** The account has a bound wallet, and the node serves a transaction that pays from it. */
  predicate PaysFromWallet(db: Db, account: nat, amount: int, s: string, w: World, env: Env) {
    && account < |db.accounts| && Trim(db.accounts[account].wallet) != "" && env.reachable(s)
    && PaidOnChain(w.credits(s), Trim(db.accounts[account].wallet), amount, w.decimals)
  }

  function VerifiedReceipt(db: Db, account: nat, id: nat, text: string): Receipt
    requires id < |db.orders| && account < |db.accounts|
  {
    Receipt(Trim(text), Some(account), Trim(db.accounts[account].wallet), db.orders[id].amount, PaymentMatched)
  }

  lemma CheckedIff(db: Db, account: nat, id: nat, text: string, w: World, env: Env)
    requires id < |db.orders| && Open(db.orders[id])
    ensures var checked := VerifyOrder(db, account, id, text, w, env);
      && (checked.Ok? <==> Trim(text) != "" && Submittable(db.orders[id], account, env.now)
                           && PaysFromWallet(db, account, db.orders[id].amount, Trim(text), w, env) && !HasReceipt(db.receipts, Trim(text)))
      && (checked.Ok? ==> checked.value == Some(VerifiedReceipt(db, account, id, text)))
  {
    if account < |db.accounts| {
      TrimTwice(db.accounts[account].wallet);
      if Trim(db.accounts[account].wallet) != "" {
        PaidIffVerified(w.credits(Trim(text)), Trim(db.accounts[account].wallet), db.orders[id].amount, w.decimals);
      }
    }
  }

  /** A verified submission of an order that is not fulfilled succeeds exactly when the order may be
      submitted, the transaction pays for it from the bound wallet, its signature was not used before
      and no other order carries it, and the purpose can be delivered; then the order is fulfilled
      with that signature. */
  lemma VerifiedSucceedsIff(db: Db, account: nat, id: nat, text: string, w: World, env: Env)
    requires id < |db.orders| && Open(db.orders[id])
    ensures var r := SubmitVerified(db, account, id, text, w, env);
      && (r.Ok? <==>
          && Trim(text) != "" && Submittable(db.orders[id], account, env.now)
          && PaysFromWallet(db, account, db.orders[id].amount, Trim(text), w, env)
          && !HasReceipt(db.receipts, Trim(text)) && SignatureFreeFor(db.orders, id, Trim(text))
          && Deliverable(db, db.orders[id], id, env))
      && (r.Ok? ==> PaidWith(db, r.value, id, VerifiedReceipt(db, account, id, text), env.now))
  {
    CheckedIff(db, account, id, text, w, env);
    if VerifyOrder(db, account, id, text, w, env).Ok? {
      var receipt := VerifiedReceipt(db, account, id, text);
      ConsumeSucceedsIff(db, id, receipt, env);
      if ConsumeReceipt(db, id, receipt, env).Ok? { ConsumeOutcome(db, id, receipt, env, ConsumeReceipt(db, id, receipt, env).value); }
    }
  }

  /** Submitting an order again that is fulfilled already answers its owner and changes nothing. */
  lemma VerifiedAgain(db: Db, account: nat, id: nat, text: string, w: World, env: Env)
    requires id < |db.orders| && db.orders[id].status == Fulfilled
    ensures var r := SubmitVerified(db, account, id, text, w, env);
      && (r.Ok? <==> Trim(text) != "" && db.orders[id].account == account && db.orders[id].purpose != Unsupported)
      && (r.Ok? ==> r.value == db)
  {
  }

  /** A confirmation succeeds exactly for an order that is fulfilled already, or was submitted with a
      signature and can be delivered; then the order is fulfilled, with its effect and entry only. */
  lemma ConfirmSucceedsIff(db: Db, id: nat, env: Env)
    requires id < |db.orders|
    ensures var o, r := db.orders[id], ConfirmOrder(db, id, env);
      && (r.Ok? <==>
          || o.status == Fulfilled
          || (&& (o.status == OrderSubmitted || o.status == OrderConfirmed)
              && o.signature.Some? && Trim(o.signature.value) != "" && o.submittedAt.Some? && Deliverable(db, o, id, env)))
      && (r.Ok? && o.status == Fulfilled ==> r.value == db)
      && (r.Ok? && o.status != Fulfilled ==>
          FulfilsOne(db, r.value, id, o.(status := Fulfilled)) && r.value.receipts == db.receipts && r.value.cursor == db.cursor)
  {
    var o := db.orders[id];
    var mid := db.(orders := db.orders[id := o.(status := OrderConfirmed)]);
    FulfilSucceedsIff(mid, id, env);
    if o.status != Fulfilled && ConfirmOrder(db, id, env).Ok? {
      FulfilIsOne(mid, id, env);
      ConfirmedIs(db, mid, ConfirmOrder(db, id, env).value, id);
    }
  }

  lemma ConfirmedIs(db: Db, mid: Db, db': Db, id: nat)
    requires id < |db.orders| && Open(db.orders[id])
    requires mid == db.(orders := db.orders[id := db.orders[id].(status := OrderConfirmed)])
    requires FulfilsOne(mid, db', id, mid.orders[id].(status := Fulfilled))
    ensures FulfilsOne(db, db', id, db.orders[id].(status := Fulfilled))
  {
    assert mid.orders[id := mid.orders[id].(status := Fulfilled)] == db.orders[id := db.orders[id].(status := Fulfilled)];
  }

  /** A submission on trust succeeds exactly for an order that may be submitted with a signature no
      other order carries; it writes the signature and nothing else. */
  lemma UnverifiedSucceedsIff(db: Db, account: nat, id: nat, text: string, now: int)
    requires id < |db.orders|
    ensures var o, r := db.orders[id], SubmitUnverified(db, account, id, text, now);
      && (r.Ok? <==> Trim(text) != "" && Submittable(o, account, now) && SignatureFreeFor(db.orders, id, Trim(text)))
      && (r.Ok? ==> r.value == db.(orders := db.orders[id := o.(status := OrderSubmitted, signature := Some(Trim(text)), submittedAt := Some(now))]))
  {
  }

  // ---------------------------------------------------------------------
  // Over whole runs: every receipt names its payer
  // ---------------------------------------------------------------------

  ghost predicate WalletsDiffer(accounts: seq<Account>) {
    forall a, b :: 0 <= a < b < |accounts| && accounts[a].wallet != "" ==> accounts[a].wallet != accounts[b].wallet
  }

  lemma WalletsStay(db: Db, db': Db)
    requires WalletsDiffer(db.accounts) && SameWallets(db, db')
    ensures WalletsDiffer(db'.accounts)
  {
  }

  lemma FulfilledWallets(db: Db, db': Db, id: nat, o': Order)
    requires FulfilsOne(db, db', id, o')
    ensures SameWallets(db, db')
  {
  }

  /** What a step adds to the receipts: a scan those of ScanOutcome, a verified submission its own, no other step any. */
  ghost predicate StepReceipts(sys: System, step: Step, r: Receipt, w: World) {
    match step
    case ScanStep(_) => FromRows(sys.db.accounts, r, NewerThan(sys.history, sys.db.cursor), w)
    case VerifiedStep(account, id, text, env) =>
      && id < |sys.db.orders| && account < |sys.db.accounts| && r == VerifiedReceipt(sys.db, account, id, text)
      && sys.db.orders[id].account == account && PaysFromWallet(sys.db, account, r.amount, r.signature, w, env)
    case _ => false
  }

  /** After a step: nothing but new receipts of that kind, and no account bound otherwise. */
  ghost predicate StepAdds(sys: System, step: Step, db': Db, w: World) {
    && sys.db.receipts <= db'.receipts && SameWallets(sys.db, db')
    && forall k :: |sys.db.receipts| <= k < |db'.receipts| ==> StepReceipts(sys, step, db'.receipts[k], w)
  }

  lemma PaidAdds(db: Db, db': Db, id: nat, r: Receipt, now: int)
    requires PaidWith(db, db', id, r, now)
    ensures SameWallets(db, db') && db'.receipts == db.receipts + [r]
  {
  }

  lemma VerifiedAdds(sys: System, account: nat, id: nat, text: string, w: World, env: Env, db': Db)
    requires SubmitVerified(sys.db, account, id, text, w, env) == Ok(db')
    ensures StepAdds(sys, VerifiedStep(account, id, text, env), db', w)
  {
    var db := sys.db;
    if db.orders[id].status == Fulfilled {
      VerifiedAgain(db, account, id, text, w, env);
    } else {
      VerifiedSucceedsIff(db, account, id, text, w, env);
      PaidAdds(db, db', id, VerifiedReceipt(db, account, id, text), env.now);
    }
  }

  lemma ConfirmAdds(sys: System, id: nat, env: Env, db': Db, w: World)
    requires ConfirmOrder(sys.db, id, env) == Ok(db')
    ensures StepAdds(sys, ConfirmStep(id, env), db', w)
  {
    ConfirmSucceedsIff(sys.db, id, env);
    if sys.db.orders[id].status != Fulfilled { FulfilledWallets(sys.db, db', id, sys.db.orders[id].(status := Fulfilled)); }
  }

  lemma ScanAdds(sys: System, w: World, env: Env, db': Db)
    requires Scan(sys.db, sys.history, w, env) == Ok(db')
    ensures StepAdds(sys, ScanStep(env), db', w)
  {
    var db1 := ScanIs(sys.db, sys.history, w, env, db');
    RowsReceipts(sys.db, NewerThan(sys.history, sys.db.cursor), w, env, db1);
  }

  lemma NothingAdded(sys: System, step: Step, db': Db, w: World)
    requires db'.receipts == sys.db.receipts && db'.accounts == sys.db.accounts
    ensures StepAdds(sys, step, db', w)
  {
  }

  lemma CreateAdds(sys: System, w: World, rules: Rules, step: Step)
    requires step.BagStep? || step.WalletStep? || step.LicenseStep?
    ensures StepAdds(sys, step, Apply(sys, w, rules, step).db, w)
  {
    NothingAdded(sys, step, Apply(sys, w, rules, step).db, w);
  }

  lemma QuietAdds(sys: System, w: World, rules: Rules, step: Step)
    requires step.Arrive? || step.UnverifiedStep? || step.OtherOrderStep? || step.CharacterStep?
    ensures StepAdds(sys, step, Apply(sys, w, rules, step).db, w)
  {
    NothingAdded(sys, step, Apply(sys, w, rules, step).db, w);
  }

  lemma StepNamesPayers(sys: System, w: World, rules: Rules, step: Step)
    requires !step.AccountStep?
    ensures StepAdds(sys, step, Apply(sys, w, rules, step).db, w)
  {
    var db' := Apply(sys, w, rules, step).db;
    match step
    case ScanStep(env) => if Scan(sys.db, sys.history, w, env).Ok? { ScanAdds(sys, w, env, db'); }
    case VerifiedStep(account, id, text, env) =>
      if SubmitVerified(sys.db, account, id, text, w, env).Ok? { VerifiedAdds(sys, account, id, text, w, env, db'); }
    case ConfirmStep(id, env) => if ConfirmOrder(sys.db, id, env).Ok? { ConfirmAdds(sys, id, env, db', w); }
    case BagStep(_, _, _) => CreateAdds(sys, w, rules, step);
    case WalletStep(_, _, _) => CreateAdds(sys, w, rules, step);
    case LicenseStep(_, _, _) => CreateAdds(sys, w, rules, step);
    case _ => QuietAdds(sys, w, rules, step);
  }

  lemma {:induction false} WalletsOverRuns(sys: System, w: World, rules: Rules, steps: seq<Step>)
    requires WalletsDiffer(sys.db.accounts)
    ensures WalletsDiffer(Run(sys, w, rules, steps).db.accounts)
  {
    if |steps| > 0 {
      var n := |steps| - 1;
      var mid := Run(sys, w, rules, steps[..n]);
      WalletsOverRuns(sys, w, rules, steps[..n]);
      if !steps[n].AccountStep? {
        StepNamesPayers(mid, w, rules, steps[n]);
        WalletsStay(mid.db, Run(sys, w, rules, steps).db);
      }
    }
  }

  /** No other active account is bound to the receipt's wallet. */
  ghost predicate OnlyPayer(accounts: seq<Account>, r: Receipt) {
    forall a :: 0 <= a < |accounts| && accounts[a].wallet == r.wallet && accounts[a].active && r.wallet != "" ==> r.account == Some(a)
  }

  /** Over every run, in any RPC mode: each receipt was written by a step of the run, and at that time
      named the account of the payer. A scan wrote it for a transfer on chain of that amount from that
      wallet, to which that account and no other was bound, or none; a verified submission wrote it for
      its own account, from whose wallet the transaction paid. */
  lemma {:induction false} EveryReceiptNamesItsPayer(sys: System, w: World, rules: Rules, steps: seq<Step>, k: nat) returns (n: nat)
    requires sys.db.receipts == [] && WalletsDiffer(sys.db.accounts) && k < |Run(sys, w, rules, steps).db.receipts|
    ensures n < |steps|
    ensures var before, r := Run(sys, w, rules, steps[..n]), Run(sys, w, rules, steps).db.receipts[k];
      && |before.db.receipts| <= k
      && StepReceipts(before, steps[n], r, w)
      && (steps[n].ScanStep? ==> OnlyPayer(before.db.accounts, r))
  {
    var m := |steps| - 1;
    var mid := Run(sys, w, rules, steps[..m]);
    if !steps[m].AccountStep? { StepNamesPayers(mid, w, rules, steps[m]); }
    if k < |mid.db.receipts| {
      n := EveryReceiptNamesItsPayer(sys, w, rules, steps[..m], k);
      assert steps[..m][..n] == steps[..n];
    } else {
      n := m;
      WalletsOverRuns(sys, w, rules, steps[..m]);
      if steps[m].ScanStep? {
        ScannedPayer(mid.db.accounts, Run(sys, w, rules, steps).db.receipts[k], NewerThan(mid.history, mid.db.cursor), w);
      }
    }
  }

  lemma ScannedPayer(accounts: seq<Account>, r: Receipt, rows: seq<SignatureInfo>, w: World)
    requires WalletsDiffer(accounts) && FromRows(accounts, r, rows, w)
    ensures OnlyPayer(accounts, r)
  {
  }
}
