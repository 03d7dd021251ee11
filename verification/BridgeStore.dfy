/** The bridge as it runs: tables updated in place, the credit loop of one
    signature, and the paged scan with its cursor. */
module BridgeStore {
  import opened Basics
  import opened Credits
  import opened Bridge
  import BridgeProofs

  // ---------------------------------------------------------------------
  // Pages of the signature history
  // ---------------------------------------------------------------------

  /** The rows after `before` in a list that is newest first; all rows when it is empty. */
  function After(rows: seq<SignatureInfo>, before: string): seq<SignatureInfo> {
    if before == "" then rows
    else if |rows| == 0 then []
    else if rows[0].signature == before then rows[1..]
    else After(rows[1..], before)
  }

  function Page(rows: seq<SignatureInfo>, before: string, limit: nat): seq<SignatureInfo> {
    var rest := After(rows, before);
    if 0 < limit < |rest| then rest[..limit] else rest
  }

  /** The paging the scan relies on, as the in-memory RPC node does it. */
  method GetSignaturesForAddress(rows: seq<SignatureInfo>, before: string, limit: nat) returns (page: seq<SignatureInfo>)
    requires Distinct(rows)
    ensures page == Page(rows, before, limit)
  {
    page := rows;
    if before != "" {
      var filtered := [];
      var skip := true;
      for i := 0 to |rows|
        invariant skip ==> filtered == [] && After(rows, before) == After(rows[i..], before)
        invariant !skip ==> After(rows, before) == filtered + rows[i..]
        invariant !skip ==> forall k :: i <= k < |rows| ==> rows[k].signature != before
      {
        assert rows[i..][1..] == rows[i + 1..];
        if rows[i].signature == before {
          skip := false;
        } else if !skip {
          filtered := filtered + [rows[i]];
        }
      }
      page := filtered;
    }
    if limit > 0 && |page| > limit {
      page := page[..limit];
    }
  }

  lemma {:induction false} AfterPosition(rows: seq<SignatureInfo>, p: nat)
    requires Distinct(rows) && p < |rows|
    ensures After(rows, rows[p].signature) == rows[p + 1..]
  {
    if p > 0 {
      assert rows[1..][p - 1] == rows[p] && rows[1..][p..] == rows[p + 1..];
      AfterPosition(rows[1..], p - 1);
    }
  }

  predicate Suffix(old_: seq<SignatureInfo>, now: seq<SignatureInfo>) {
    |old_| <= |now| && now[|now| - |old_|..] == old_
  }

  /** What successive RPC calls return: nothing on an error, otherwise a history without
      repetitions that only grows at its head. */
  ghost predicate AppendOnly(views: nat -> Option<seq<SignatureInfo>>) {
    && (forall k :: views(k).Some? ==> Distinct(views(k).value))
    && (forall i, j :: i <= j && views(i).Some? && views(j).Some? ==> Suffix(views(i).value, views(j).value))
  }

  /** However many signatures arrive between two pages, the page after a row of the
      first history continues that history. */
  lemma PageContinues(base: seq<SignatureInfo>, now: seq<SignatureInfo>, done: nat)
    requires Distinct(now) && Suffix(base, now) && 0 < done <= |base|
    ensures After(now, base[done - 1].signature) == base[done..]
  {
    var p := |now| - |base| + done - 1;
    assert now[p] == now[|now| - |base|..][done - 1];
    AfterPosition(now, p);
    assert now[p + 1..] == now[|now| - |base|..][done..];
  }

  /** The cursor is not among the first `n` rows. */
  predicate Unseen(rows: seq<SignatureInfo>, n: nat, cursor: string) {
    n <= |rows| && forall k :: 0 <= k < n ==> cursor == "" || rows[k].signature != cursor
  }

  predicate AtCursor(rows: seq<SignatureInfo>, n: nat, cursor: string) {
    n < |rows| && cursor != "" && rows[n].signature == cursor
  }

  lemma {:induction false} NewerThanIs(rows: seq<SignatureInfo>, cursor: string, n: nat)
    requires Unseen(rows, n, cursor) && (n < |rows| ==> AtCursor(rows, n, cursor))
    ensures NewerThan(rows, cursor) == rows[..n]
  {
    if n > 0 {
      NewerThanIs(rows[1..], cursor, n - 1);
      assert [rows[0]] + rows[1..][..n - 1] == rows[..n];
    }
  }

  lemma {:induction false} ProcessFailsFrom(db: Db, rows: seq<SignatureInfo>, k: nat, w: World, env: Env)
    requires k <= |rows| && ProcessRows(db, rows[..k], w, env).Fail?
    ensures ProcessRows(db, rows, w, env).Fail?
    decreases |rows|
  {
    if k == |rows| {
      assert rows[..k] == rows;
    } else {
      assert rows[..|rows| - 1][..k] == rows[..k];
      ProcessFailsFrom(db, rows[..|rows| - 1], k, w, env);
    }
  }

  /** The first `n` rows of the history are processed, and none of them is the cursor. */
  ghost predicate Scanned(saved: Db, db: Db, rows: seq<SignatureInfo>, n: nat, w: World, env: Env) {
    Unseen(rows, n, saved.cursor) && ProcessRows(saved, rows[..n], w, env) == Ok(db) && db.cursor == saved.cursor
  }

  predicate Continues(page: seq<SignatureInfo>, rows: seq<SignatureInfo>, seen: nat) {
    seen + |page| <= |rows| && forall i :: 0 <= i < |page| ==> page[i] == rows[seen + i]
  }

  /** Where the paging loop stands after `seen` rows. */
  predicate Position(rows: seq<SignatureInfo>, seen: nat, calls: nat, before: string, head: string) {
    && seen <= |rows| && (seen > 0 <==> calls > 0)
    && if seen == 0 then before == head == "" else before == rows[seen - 1].signature && head == rows[0].signature
  }

  lemma ScanEnds(saved: Db, db: Db, rows: seq<SignatureInfo>, n: nat, w: World, env: Env)
    requires Scanned(saved, db, rows, n, w, env) && (n < |rows| ==> AtCursor(rows, n, saved.cursor))
    ensures ProcessRows(saved, NewerThan(rows, saved.cursor), w, env) == Ok(db)
  {
    NewerThanIs(rows, saved.cursor, n);
  }

  /** One row more, which is not the cursor: processed, or the whole prefix fails. */
  lemma RowScanned(saved: Db, db: Db, rows: seq<SignatureInfo>, n: nat, w: World, env: Env)
    requires Scanned(saved, db, rows, n, w, env) && n < |rows| && (saved.cursor != "" ==> rows[n].signature != saved.cursor)
    ensures Unseen(rows, n + 1, saved.cursor)
    ensures var r := ProcessSignature(db, rows[n], w, env);
      if r.Ok? then Scanned(saved, r.value, rows, n + 1, w, env) else ProcessRows(saved, rows[..n + 1], w, env).Fail?
  {
    RowsStep(saved, rows, n, w, env, db);
    if ProcessSignature(db, rows[n], w, env).Ok? { BridgeProofs.ProcessSignatureCursor(db, rows[n], w, env); }
  }

  lemma RowsStep(db: Db, rows: seq<SignatureInfo>, k: nat, w: World, env: Env, mid: Db)
    requires k < |rows| && ProcessRows(db, rows[..k], w, env) == Ok(mid)
    ensures ProcessRows(db, rows[..k + 1], w, env) == ProcessSignature(mid, rows[k], w, env)
  {
    assert rows[..k + 1][..k] == rows[..k];
  }

  lemma {:induction false} CreditsFailFrom(db: Db, credits: seq<Credit>, k: nat, s: string, w: World, env: Env)
    requires k <= |credits| && ProcessCredits(db, credits[..k], s, w, env).Fail?
    ensures ProcessCredits(db, credits, s, w, env).Fail?
    decreases |credits|
  {
    if k == |credits| {
      assert credits[..k] == credits;
    } else {
      assert credits[..|credits| - 1][..k] == credits[..k];
      CreditsFailFrom(db, credits[..|credits| - 1], k, s, w, env);
    }
  }

  class BridgeJobs {
    var accounts: seq<Account>
    var characters: seq<Character>
    var orders: seq<Order>
    var receipts: seq<Receipt>
    var ledger: seq<Entry>
    var cursor: string

    function State(): Db
      reads this
    {
      Db(accounts, characters, orders, receipts, ledger, cursor)
    }

    constructor (db: Db)
      ensures State() == db
    {
      accounts, characters, orders, receipts, ledger, cursor :=
        db.accounts, db.characters, db.orders, db.receipts, db.ledger, db.cursor;
    }

    method Rollback(saved: Db)
      modifies this
      ensures State() == saved
    {
      accounts, characters, orders, receipts, ledger, cursor :=
        saved.accounts, saved.characters, saved.orders, saved.receipts, saved.ledger, saved.cursor;
    }

    /** The effect of the purpose, the status and the ledger entry. */
    method FulfillPaymentOrder(id: nat, env: Env) returns (ok: bool)
      modifies this
      ensures ok ==> Fulfil(old(State()), id, env) == Ok(State())
      ensures !ok ==> Fulfil(old(State()), id, env).Fail?
    {
      if id >= |orders| { return false; }
      var o := orders[id];
      if o.status == Fulfilled { return true; }
      match o.purpose {
        case WalletExpand =>
          if o.account >= |accounts| { return false; }
          var a := accounts[o.account];
          accounts := accounts[o.account := a.(walletExpands := a.walletExpands + 1)];
        case BagExpand =>
          if o.character.None? { return false; }
          var c := o.character.value;
          if c >= |characters| || characters[c].account != o.account || characters[c].deleted { return false; }
          characters := characters[c := characters[c].(bagExpands := characters[c].bagExpands + 1)];
        case TradingLicense =>
          if o.account < |accounts| {
            accounts := accounts[o.account := accounts[o.account].(licensed := true)];
          }
        case LotteryDraw => if o.character.None? || !env.delivers(id) { return false; }
        case ShopBuy => if o.character.None? || !env.delivers(id) { return false; }
        case BountySlotUnlock => if !env.delivers(id) { return false; }
        case BountyPremiumRefresh => if !env.delivers(id) { return false; }
        case Unsupported => return false;
      }
      orders := orders[id := o.(status := Fulfilled)];
      ledger := ledger + [PaymentFulfilled(o.account, o.amount, id)];
      ok := true;
    }

    /** The receipt, the signature on the order, the fulfilment. */
    method UseReceipt(id: nat, r: Receipt, env: Env) returns (ok: bool)
      requires id < |orders|
      modifies this
      ensures ok ==> ConsumeReceipt(old(State()), id, r, env) == Ok(State())
      ensures !ok ==> ConsumeReceipt(old(State()), id, r, env).Fail?
    {
      receipts := receipts + [r];
      if !SignatureFreeFor(orders, id, r.signature) { return false; }
      var o := orders[id];
      orders := orders[id := o.(status := OrderSubmitted, signature := Some(r.signature),
                                submittedAt := if o.submittedAt.Some? then o.submittedAt else Some(env.now))];
      ok := FulfillPaymentOrder(id, env);
    }

    method MatchPaymentOrderFromDeposit(wallet: string, amount: int, signature: string, env: Env)
      returns (ok: bool, matched: bool)
      modifies this
      ensures ok ==> MatchOrder(old(State()), wallet, amount, signature, env) == Ok(Matching(State(), matched))
      ensures !ok ==> MatchOrder(old(State()), wallet, amount, signature, env).Fail?
    {
      var account := FindActive(accounts, wallet);
      if account.None? { return true, false; }
      var id := BestMatch(orders, account.value, amount, signature, env.now);
      if id.None? || HasReceipt(receipts, signature) { return true, false; }
      ok := UseReceipt(id.value, Receipt(signature, account, wallet, amount, PaymentMatched), env);
      matched := ok;
    }

    method CreditSolanaDeposit(wallet: string, amount: int, signature: string) returns (credited: bool)
      modifies this
      ensures State() == CreditDeposit(old(State()), wallet, amount, signature)
      ensures credited <==> State().ledger != old(State().ledger)
    {
      var account := FindActive(accounts, wallet);
      if HasReceipt(receipts, signature) { return false; }
      receipts := receipts + [Receipt(signature, account, wallet, amount, if account.Some? then Credited else Ignored)];
      if account.None? { return false; }
      var a := accounts[account.value];
      accounts := accounts[account.value := a.(external := a.external + amount, token := a.token + amount)];
      ledger := ledger + [DepositCredited(account.value, amount, signature)];
      credited := true;
    }

    method ProcessOneCredit(c: Credit, signature: string, w: World, env: Env) returns (ok: bool)
      modifies this
      ensures ok ==> ProcessCredit(old(State()), c, signature, w, env) == Ok(State())
      ensures !ok ==> ProcessCredit(old(State()), c, signature, w, env).Fail?
    {
      var amount := RawToGame(c.raw, w.decimals);
      if amount.Fail? { return false; }
      if amount.value <= 0 || Trim(c.payer) == "" { return true; }
      var matched;
      ok, matched := MatchPaymentOrderFromDeposit(Trim(c.payer), amount.value, signature, env);
      if ok && !matched {
        var _ := CreditSolanaDeposit(Trim(c.payer), amount.value, signature);
      }
    }

    method ProcessDepositSignature(s: SignatureInfo, w: World, env: Env) returns (ok: bool)
      modifies this
      ensures ok ==> ProcessSignature(old(State()), s, w, env) == Ok(State())
      ensures !ok ==> ProcessSignature(old(State()), s, w, env).Fail?
    {
      if s.failed { return true; }
      if !env.reachable(s.signature) { return false; }
      var credits := w.credits(s.signature);
      ghost var saved := State();
      for i := 0 to |credits|
        invariant ProcessCredits(saved, credits[..i], s.signature, w, env) == Ok(State())
      {
        assert credits[..i + 1][..i] == credits[..i];
        ok := ProcessOneCredit(credits[i], s.signature, w, env);
        if !ok {
          CreditsFailFrom(saved, credits, i + 1, s.signature, w, env);
          return;
        }
      }
      assert credits[..|credits|] == credits;
      ok := true;
    }

    /** One row of the history that is not the cursor. */
    method ScanRow(row: SignatureInfo, w: World, env: Env, ghost saved: Db, ghost base: seq<SignatureInfo>, ghost n: nat) returns (ok: bool)
      requires Scanned(saved, State(), base, n, w, env) && n < |base| && base[n] == row
      requires saved.cursor != "" ==> row.signature != saved.cursor
      modifies this
      ensures Unseen(base, n + 1, saved.cursor)
      ensures if ok then Scanned(saved, State(), base, n + 1, w, env) else ProcessRows(saved, base[..n + 1], w, env).Fail?
    {
      RowScanned(saved, State(), base, n, w, env);
      ok := ProcessDepositSignature(row, w, env);
    }

    /** One page: processed up to the cursor or to its end. `seen` rows of `base`, of which
        the page is the continuation, were processed before. */
    method ScanPage(page: seq<SignatureInfo>, w: World, env: Env,
                    ghost saved: Db, ghost base: seq<SignatureInfo>, ghost seen: nat)
      returns (ok: bool, stop: bool, ghost seen': nat)
      requires Continues(page, base, seen) && Scanned(saved, State(), base, seen, w, env)
      modifies this
      ensures seen <= seen' <= seen + |page|
      ensures !ok ==> Unseen(base, seen', saved.cursor) && ProcessRows(saved, base[..seen'], w, env).Fail?
      ensures ok ==> Scanned(saved, State(), base, seen', w, env)
      ensures ok ==> if stop then AtCursor(base, seen', saved.cursor) else seen' == seen + |page|
    {
      stop, seen' := false, seen;
      for i := 0 to |page|
        invariant seen' == seen + i && Scanned(saved, State(), base, seen', w, env)
      {
        if cursor != "" && page[i].signature == cursor {
          return true, true, seen';
        }
        ok := ScanRow(page[i], w, env, saved, base, seen');
        seen' := seen' + 1;
        if !ok { return; }
      }
      ok := true;
    }

    /** The paging loop: backwards from the head until the cursor, the end of the history
        or an error. Signatures may arrive between the calls. */
    method ScanPages(views: nat -> Option<seq<SignatureInfo>>, limit: nat, w: World, env: Env)
      returns (ok: bool, head: string)
      requires AppendOnly(views) && limit > 0
      modifies this
      ensures ok ==> views(0).Some?
      ensures ok ==> ProcessRows(old(State()), NewerThan(views(0).value, old(cursor)), w, env) == Ok(State())
      ensures ok ==> head == if |views(0).value| == 0 then "" else views(0).value[0].signature
      ensures (forall k :: views(k).Some?) && !ok ==> Scan(old(State()), views(0).value, w, env).Fail?
    {
      ghost var saved := State();
      head := "";
      if views(0).None? { return false, ""; }
      ghost var base := views(0).value;
      ghost var seen := 0;
      var before, calls := "", 0;
      while true
        invariant Scanned(saved, State(), base, seen, w, env) && Position(base, seen, calls, before, head)
        decreases |base| - seen
      {
        var view := views(calls);
        if view.None? { return false, ""; }
        var page := GetSignaturesForAddress(view.value, before, limit);
        PageIsNext(views, calls, base, seen, before, limit, page);
        if |page| == 0 { break; }
        if head == "" { head := page[0].signature; }
        var stop;
        ghost var now;
        ok, stop, now := ScanPage(page, w, env, saved, base, seen);
        if !ok {
          ScanFails(saved, base, now, w, env);
          return;
        }
        calls, seen := calls + 1, now;
        if stop || |page| < limit { break; }
        before := page[|page| - 1].signature;
      }
      ScanEnds(saved, State(), base, seen, w, env);
      ok := true;
    }

    /** ScanAndCreditDeposits: a committed scan is the simple scan of the history as the
        first call saw it, whatever arrived between the pages. */
    method ScanAndCreditDeposits(views: nat -> Option<seq<SignatureInfo>>, scanLimit: int, w: World, env: Env)
      returns (committed: bool)
      requires AppendOnly(views)
      modifies this
      ensures committed ==> views(0).Some? && Scan(old(State()), views(0).value, w, env) == Ok(State())
      ensures !committed ==> State() == old(State())
      ensures (forall k :: views(k).Some?) ==> (committed <==> Scan(old(State()), views(0).value, w, env).Ok?)
    {
      var saved := State();
      var head;
      committed, head := ScanPages(views, if scanLimit <= 0 then 50 else scanLimit, w, env);
      if committed {
        cursor := head;
      } else {
        Rollback(saved);
      }
    }

    /** The checks of a verified submission, in their order. */
    method CheckOrder(account: nat, id: nat, text: string, w: World, env: Env) returns (r: Result<Option<Receipt>>)
      ensures r.Ok? ==> r == VerifyOrder(State(), account, id, text, w, env)
      ensures r.Fail? ==> VerifyOrder(State(), account, id, text, w, env).Fail?
    {
      var signature := Trim(text);
      if signature == "" || id >= |orders| { return Fail("not found"); }
      var o := orders[id];
      if o.account != account || !Supported(o.purpose) { return Fail("forbidden"); }
      if o.status == Fulfilled { return Ok(None); }
      if (o.status != PendingPayment && o.status != OrderSubmitted) || env.now > o.expiresAt { return Fail("cannot accept signature"); }
      if account >= |accounts| || Trim(accounts[account].wallet) == "" || !env.reachable(signature) { return Fail("no wallet"); }
      var wallet := Trim(accounts[account].wallet);
      var verdict := VerifyInboundPayment(w.credits(signature), wallet, o.amount, w.decimals);
      if verdict.Fail? || HasReceipt(receipts, signature) { return Fail("not verified"); }
      r := Ok(Some(Receipt(signature, Some(account), wallet, o.amount, PaymentMatched)));
    }

    /** SubmitPaymentOrderVerified: the checks, then the receipt and the fulfilment. */
    method SubmitPaymentOrderVerified(account: nat, id: nat, text: string, w: World, env: Env) returns (committed: bool)
      modifies this
      ensures committed ==> SubmitVerified(old(State()), account, id, text, w, env) == Ok(State())
      ensures !committed ==> SubmitVerified(old(State()), account, id, text, w, env).Fail? && State() == old(State())
    {
      var checked := CheckOrder(account, id, text, w, env);
      if checked.Fail? { return false; }
      if checked.value.None? { return true; }
      var saved := State();
      committed := UseReceipt(id, checked.value.value, env);
      if !committed { Rollback(saved); }
    }

    /** ConfirmPaymentOrder: only an order that already carries a chain receipt. */
    method ConfirmPaymentOrder(id: nat, env: Env) returns (committed: bool)
      modifies this
      ensures committed ==> ConfirmOrder(old(State()), id, env) == Ok(State())
      ensures !committed ==> ConfirmOrder(old(State()), id, env).Fail? && State() == old(State())
    {
      if id >= |orders| { return false; }
      var o := orders[id];
      if o.status == Fulfilled { return true; }
      if o.status != OrderSubmitted && o.status != OrderConfirmed { return false; }
      if o.signature.None? || Trim(o.signature.value) == "" || o.submittedAt.None? { return false; }
      var saved := State();
      orders := orders[id := o.(status := OrderConfirmed)];
      committed := FulfillPaymentOrder(id, env);
      if !committed { Rollback(saved); }
    }

    /** MarketplaceSubmitWalletExpandPayment, which takes the signature on trust. */
    method SubmitWalletExpandPayment(account: nat, id: nat, text: string, now: int) returns (committed: bool)
      modifies this`orders
      ensures committed ==> SubmitUnverified(old(State()), account, id, text, now) == Ok(State())
      ensures !committed ==> SubmitUnverified(old(State()), account, id, text, now).Fail? && State() == old(State())
      ensures committed ==> |orders| == old(|orders|) && id < |orders| && orders[id].signature == Some(Trim(text)) && Open(orders[id])
      ensures committed ==> forall k :: 0 <= k < |orders| && k != id ==> orders[k] == old(orders)[k] && orders[k].signature != Some(Trim(text))
    {
      var signature := Trim(text);
      if signature == "" || id >= |orders| { return false; }
      var o := orders[id];
      if o.account != account || !Supported(o.purpose) { return false; }
      if (o.status != PendingPayment && o.status != OrderSubmitted) || now > o.expiresAt { return false; }
      if !SignatureFreeFor(orders, id, signature) { return false; }
      orders := orders[id := o.(status := OrderSubmitted, signature := Some(signature), submittedAt := Some(now))];
      committed := true;
    }

    method InsertPaymentOrder(account: nat, character: Option<nat>, purpose: Purpose, amount: int, now: int, timeout: int)
      modifies this`orders
      ensures State() == InsertOrder(old(State()), account, character, purpose, amount, now, timeout)
    {
      orders := orders + [Order(account, character, purpose, amount, PendingPayment, None, now, now + timeout, None)];
    }

    method CreateBagExpandPayment(account: nat, character: nat, rules: Rules, now: int) returns (committed: bool)
      modifies this`orders
      ensures committed ==> CreateBagExpand(old(State()), account, character, rules, now) == Ok(State())
      ensures !committed ==> CreateBagExpand(old(State()), account, character, rules, now).Fail? && State() == old(State())
      ensures committed <==>
        (old(OwnsCharacter(State(), account, character)) && old(characters)[character].bagExpands < (if rules.bagMax > 0 then rules.bagMax else 10)
         && Sum(old(orders), OpenFor(account, Some(character), BagExpand)) == 0)
      ensures committed ==> Sum(orders, OpenFor(account, Some(character), BagExpand)) == 1
      ensures committed ==> orders == old(orders) + [
        Order(account, Some(character), BagExpand, if rules.bagPrice > 0 then rules.bagPrice else 50, PendingPayment, None,
              now, now + if rules.bagTimeout > 0 then rules.bagTimeout else 600, None)]
    {
      var r := WithDefaults(rules);
      if !OwnsCharacter(State(), account, character) || characters[character].bagExpands >= r.bagMax { return false; }
      SumNonNegative(orders, OpenFor(account, Some(character), BagExpand));
      if Sum(orders, OpenFor(account, Some(character), BagExpand)) > 0 { return false; }
      InsertPaymentOrder(account, Some(character), BagExpand, r.bagPrice, now, r.bagTimeout);
      SumAppend(old(orders), orders[old(|orders|)], OpenFor(account, Some(character), BagExpand));
      committed := true;
    }

    method ExpandWalletSlots(account: nat, character: nat, rules: Rules, now: int) returns (committed: bool)
      modifies this`orders
      ensures committed ==> CreateWalletExpand(old(State()), account, character, rules, now) == Ok(State())
      ensures !committed ==> CreateWalletExpand(old(State()), account, character, rules, now).Fail? && State() == old(State())
      ensures committed <==>
        (old(OwnsCharacter(State(), account, character)) && account < old(|accounts|)
         && old(accounts)[account].walletExpands < (if rules.walletMax > 0 then rules.walletMax else 5)
         && Sum(old(orders), OpenFor(account, None, WalletExpand)) == 0)
      ensures committed ==> Sum(orders, OpenFor(account, None, WalletExpand)) == 1
      ensures committed ==> orders == old(orders) + [
        Order(account, Some(character), WalletExpand, if rules.walletPrice > 0 then rules.walletPrice else 100, PendingPayment, None,
              now, now + if rules.walletTimeout > 0 then rules.walletTimeout else 600, None)]
    {
      var r := WithDefaults(rules);
      if !OwnsCharacter(State(), account, character) || account >= |accounts| { return false; }
      if accounts[account].walletExpands >= r.walletMax { return false; }
      SumNonNegative(orders, OpenFor(account, None, WalletExpand));
      if Sum(orders, OpenFor(account, None, WalletExpand)) > 0 { return false; }
      InsertPaymentOrder(account, Some(character), WalletExpand, r.walletPrice, now, r.walletTimeout);
      SumAppend(old(orders), orders[old(|orders|)], OpenFor(account, None, WalletExpand));
      committed := true;
    }

    method CreateTradingLicensePayment(account: nat, character: Option<nat>, rules: Rules, now: int) returns (committed: bool)
      modifies this`orders
      ensures committed ==> CreateLicense(old(State()), account, character, rules, now) == Ok(State())
      ensures !committed ==> CreateLicense(old(State()), account, character, rules, now).Fail? && State() == old(State())
      ensures committed <==> account < old(|accounts|) && !old(accounts)[account].licensed && Sum(old(orders), OpenFor(account, None, TradingLicense)) == 0
      ensures committed ==> Sum(orders, OpenFor(account, None, TradingLicense)) == 1
      ensures committed ==> orders == old(orders) + [
        Order(account, character, TradingLicense, if rules.licensePrice > 0 then rules.licensePrice else 100, PendingPayment, None,
              now, now + if rules.licenseTimeout > 0 then rules.licenseTimeout else 600, None)]
    {
      var r := WithDefaults(rules);
      if account >= |accounts| || accounts[account].licensed { return false; }
      SumNonNegative(orders, OpenFor(account, None, TradingLicense));
      if Sum(orders, OpenFor(account, None, TradingLicense)) > 0 { return false; }
      InsertPaymentOrder(account, character, TradingLicense, r.licensePrice, now, r.licenseTimeout);
      SumAppend(old(orders), orders[old(|orders|)], OpenFor(account, None, TradingLicense));
      committed := true;
    }
  }

  /** The k-th call returns the rows that follow the `seen` rows already processed. */
  lemma PageIsNext(views: nat -> Option<seq<SignatureInfo>>, calls: nat, base: seq<SignatureInfo>, seen: nat,
                   before: string, limit: nat, page: seq<SignatureInfo>)
    requires AppendOnly(views) && views(0) == Some(base) && views(calls).Some? && limit > 0
    requires seen <= |base| && (seen > 0 <==> calls > 0)
    requires before == if seen == 0 then "" else base[seen - 1].signature
    requires page == Page(views(calls).value, before, limit)
    ensures page == base[seen..seen + Min(limit, |base| - seen)]
    ensures |page| > 0 ==> page[0] == base[seen] && page[|page| - 1] == base[seen + |page| - 1] && page[0].signature != ""
  {
    assert Distinct(base);
    if seen > 0 {
      assert base[seen - 1].signature != "";
      PageContinues(base, views(calls).value, seen);
    }
  }

  /** A row that fails before the cursor makes the whole scan fail. */
  lemma ScanFails(db: Db, base: seq<SignatureInfo>, now: nat, w: World, env: Env)
    requires now <= |base| && ProcessRows(db, base[..now], w, env).Fail?
    requires Unseen(base, now, db.cursor)
    ensures Scan(db, base, w, env).Fail?
  {
    BridgeProofs.NewerThanStopsAtCursor(base, db.cursor);
    var newer := NewerThan(base, db.cursor);
    assert |newer| >= now;
    assert newer[..now] == base[..now];
    ProcessFailsFrom(db, newer, now, w, env);
  }
}
