/** The inbound side of the chain bridge: deposit scans, the receipt table,
    payment orders and the three places that fulfil them.

    Every function is one database transaction: it gives the new tables, or
    fails and the caller keeps the old ones. Tables with serial or generated
    ids are sequences whose position is the id. */
module Bridge {
  import opened Basics
  import opened Credits

  datatype Purpose =
    | WalletExpand | BagExpand | TradingLicense
    | LotteryDraw | ShopBuy | BountySlotUnlock | BountyPremiumRefresh
    | Unsupported

  datatype OrderStatus = PendingPayment | OrderSubmitted | OrderConfirmed | Fulfilled

  datatype Order = Order(
    account: nat,
    character: Option<nat>,
    purpose: Purpose,
    amount: int,
    status: OrderStatus,
    signature: Option<string>,
    createdAt: int,
    expiresAt: int,
    submittedAt: Option<int>)

  datatype ReceiptStatus = Credited | Ignored | PaymentMatched

  /** A row of solana_deposits. */
  datatype Receipt = Receipt(signature: string, account: Option<nat>, wallet: string, amount: int, status: ReceiptStatus)

  /** The columns of accounts, account_tokens and account_market_slots that the bridge touches. */
  datatype Account = Account(wallet: string, active: bool, licensed: bool, walletExpands: nat, external: int, token: int)

  datatype Character = Character(account: nat, deleted: bool, bagExpands: nat)

  datatype Entry =
    | DepositCredited(account: nat, amount: int, signature: string)
    | PaymentFulfilled(account: nat, amount: int, order: nat)

  datatype Db = Db(
    accounts: seq<Account>,
    characters: seq<Character>,
    orders: seq<Order>,
    receipts: seq<Receipt>,
    ledger: seq<Entry>,
    cursor: string)

  /** What does not change: the transactions on chain, as the inbound credits they
      contain, and the decimals of the token. */
  datatype World = World(credits: string -> seq<Credit>, decimals: int)

  /** What one transaction meets: the time, which signatures the RPC node can serve,
      and which lottery, shop and bounty orders their own code can deliver. */
  datatype Env = Env(now: int, reachable: string -> bool, delivers: nat -> bool)

  datatype SignatureInfo = SignatureInfo(signature: string, failed: bool)

  // ---------------------------------------------------------------------
  // Fulfilment
  // ---------------------------------------------------------------------

  predicate Supported(p: Purpose) { p != Unsupported }

  predicate Open(o: Order) { o.status != Fulfilled }

  /** fulfillPaymentOrderTx: the effect of the purpose, then FULFILLED and one ledger entry. */
  function Fulfil(db: Db, id: nat, env: Env): Result<Db> {
    if id >= |db.orders| then Fail("not found")
    else
      var o := db.orders[id];
      if o.status == Fulfilled then Ok(db)
      else
        var db1 :- ApplyPurpose(db, id, env);
        Ok(db1.(orders := db1.orders[id := o.(status := Fulfilled)],
                ledger := db1.ledger + [PaymentFulfilled(o.account, o.amount, id)]))
  }

  function ApplyPurpose(db: Db, id: nat, env: Env): (r: Result<Db>)
    requires id < |db.orders|
    ensures r.Ok? ==> r.value == db.(accounts := r.value.accounts, characters := r.value.characters)
  {
    var o := db.orders[id];
    match o.purpose
    case WalletExpand =>
      if o.account >= |db.accounts| then Fail("market slots row missing")
      else
        var a := db.accounts[o.account];
        Ok(db.(accounts := db.accounts[o.account := a.(walletExpands := a.walletExpands + 1)]))
    case BagExpand =>
      if o.character.None? then Fail("bag expand order missing characterId")
      else
        var c := o.character.value;
        if c >= |db.characters| || db.characters[c].account != o.account || db.characters[c].deleted
        then Fail("character missing for bag expand")
        else
          var row := db.characters[c];
          Ok(db.(characters := db.characters[c := row.(bagExpands := row.bagExpands + 1)]))
    case TradingLicense =>
      if o.account >= |db.accounts| then Ok(db)
      else Ok(db.(accounts := db.accounts[o.account := db.accounts[o.account].(licensed := true)]))
    case LotteryDraw =>
      if o.character.None? then Fail("lottery order missing characterId")
      else if !env.delivers(id) then Fail("lottery") else Ok(db)
    case ShopBuy =>
      if o.character.None? then Fail("shop buy order missing characterId")
      else if !env.delivers(id) then Fail("shop") else Ok(db)
    case BountySlotUnlock => if !env.delivers(id) then Fail("bounty") else Ok(db)
    case BountyPremiumRefresh => if !env.delivers(id) then Fail("bounty") else Ok(db)
    case Unsupported => Fail("unsupported payment purpose")
  }

  // ---------------------------------------------------------------------
  // Receipts
  // ---------------------------------------------------------------------

  predicate HasReceipt(receipts: seq<Receipt>, signature: string) {
    exists i :: 0 <= i < |receipts| && receipts[i].signature == signature
  }

  /** tx_signature is unique among the orders. */
  predicate SignatureFreeFor(orders: seq<Order>, id: nat, signature: string) {
    forall k :: 0 <= k < |orders| && k != id ==> orders[k].signature != Some(signature)
  }

  /** solana_wallet_address is unique; an account without a wallet has the empty one. */
  predicate WalletFreeFor(accounts: seq<Account>, a: nat, wallet: string) {
    wallet == "" || forall k :: 0 <= k < |accounts| && k != a ==> accounts[k].wallet != wallet
  }

  /** The active account bound to a wallet, if there is one. */
  function FindActive(accounts: seq<Account>, wallet: string): (r: Option<nat>)
    ensures r.Some? ==> r.value < |accounts| && accounts[r.value].wallet == wallet && accounts[r.value].active
    ensures r.None? ==> forall i :: 0 <= i < |accounts| ==> accounts[i].wallet != wallet || !accounts[i].active
  {
    if |accounts| == 0 then None
    else
      var n := |accounts| - 1;
      if accounts[n].wallet == wallet && accounts[n].active then Some(n) else FindActive(accounts[..n], wallet)
  }

  predicate Candidate(o: Order, account: nat, amount: int, signature: string, now: int) {
    && o.account == account && o.status in {PendingPayment, OrderSubmitted} && o.amount == amount
    && (o.signature.None? || o.signature == Some(signature))
    && o.expiresAt > now
  }

  /** The order of the query: orders that carry the signature first, then the oldest. */
  predicate Precedes(a: Order, b: Order, signature: string) {
    if (a.signature == Some(signature)) != (b.signature == Some(signature)) then a.signature == Some(signature)
    else a.createdAt < b.createdAt
  }

  function BestMatch(orders: seq<Order>, account: nat, amount: int, signature: string, now: int): (r: Option<nat>)
    ensures r.Some? ==>
      && r.value < |orders| && orders[r.value].account == account && orders[r.value].amount == amount
      && orders[r.value].status in {PendingPayment, OrderSubmitted} && now < orders[r.value].expiresAt
      && (orders[r.value].signature.None? || orders[r.value].signature == Some(signature))
  {
    if |orders| == 0 then None
    else
      var n := |orders| - 1;
      var best := BestMatch(orders[..n], account, amount, signature, now);
      if Candidate(orders[n], account, amount, signature, now)
         && (best.None? || Precedes(orders[n], orders[best.value], signature))
      then Some(n) else best
  }

  datatype Matching = Matching(db: Db, matched: bool)

  /** A receipt, the signature written on the order, and its fulfilment, in one transaction. */
  function ConsumeReceipt(db: Db, id: nat, r: Receipt, env: Env): Result<Db>
    requires id < |db.orders|
  {
    if !SignatureFreeFor(db.orders, id, r.signature) then Fail("duplicate tx_signature")
    else
      var o := db.orders[id];
      var o' := o.(status := OrderSubmitted, signature := Some(r.signature),
                   submittedAt := if o.submittedAt.Some? then o.submittedAt else Some(env.now));
      Fulfil(db.(receipts := db.receipts + [r], orders := db.orders[id := o']), id, env)
  }

  /** matchPaymentOrderFromDeposit. */
  function MatchOrder(db: Db, wallet: string, amount: int, signature: string, env: Env): Result<Matching> {
    var account := FindActive(db.accounts, wallet);
    if account.None? then Ok(Matching(db, false))
    else
      var id := BestMatch(db.orders, account.value, amount, signature, env.now);
      if id.None? || HasReceipt(db.receipts, signature) then Ok(Matching(db, false))
      else
        var r := Receipt(signature, account, wallet, amount, PaymentMatched);
        var db' :- ConsumeReceipt(db, id.value, r, env);
        Ok(Matching(db', true))
  }

  /** creditSolanaDeposit. */
  function CreditDeposit(db: Db, wallet: string, amount: int, signature: string): Db {
    var account := FindActive(db.accounts, wallet);
    if HasReceipt(db.receipts, signature) then db
    else if account.None? then
      db.(receipts := db.receipts + [Receipt(signature, None, wallet, amount, Ignored)])
    else
      var a := db.accounts[account.value];
      db.(receipts := db.receipts + [Receipt(signature, account, wallet, amount, Credited)],
          accounts := db.accounts[account.value := a.(external := a.external + amount, token := a.token + amount)],
          ledger := db.ledger + [DepositCredited(account.value, amount, signature)])
  }

  // ---------------------------------------------------------------------
  // The deposit scan
  // ---------------------------------------------------------------------

  /** A credit that reaches the receipt table: a positive amount and a named payer. */
  predicate Creditable(c: Credit, decimals: int) {
    RawToGame(c.raw, decimals).Ok? && RawToGame(c.raw, decimals).value > 0 && Trim(c.payer) != ""
  }

  function ProcessCredit(db: Db, c: Credit, signature: string, w: World, env: Env): Result<Db> {
    var amount :- RawToGame(c.raw, w.decimals);
    if !Creditable(c, w.decimals) then Ok(db)
    else
      var m :- MatchOrder(db, Trim(c.payer), amount, signature, env);
      if m.matched then Ok(m.db) else Ok(CreditDeposit(m.db, Trim(c.payer), amount, signature))
  }

  function ProcessCredits(db: Db, credits: seq<Credit>, signature: string, w: World, env: Env): Result<Db> {
    if |credits| == 0 then Ok(db)
    else
      var n := |credits| - 1;
      var db' :- ProcessCredits(db, credits[..n], signature, w, env);
      ProcessCredit(db', credits[n], signature, w, env)
  }

  /** processDepositSignature. */
  function ProcessSignature(db: Db, s: SignatureInfo, w: World, env: Env): Result<Db> {
    if s.failed then Ok(db)
    else if !env.reachable(s.signature) then Fail("rpc")
    else ProcessCredits(db, w.credits(s.signature), s.signature, w, env)
  }

  function ProcessRows(db: Db, rows: seq<SignatureInfo>, w: World, env: Env): Result<Db> {
    if |rows| == 0 then Ok(db)
    else
      var n := |rows| - 1;
      var db' :- ProcessRows(db, rows[..n], w, env);
      ProcessSignature(db', rows[n], w, env)
  }

  /** The rows newer than the cursor; `rows` is newest first. An empty cursor stops nowhere. */
  function NewerThan(rows: seq<SignatureInfo>, cursor: string): (newer: seq<SignatureInfo>)
    ensures newer <= rows
  {
    if |rows| == 0 || (cursor != "" && rows[0].signature == cursor) then []
    else [rows[0]] + NewerThan(rows[1..], cursor)
  }

  /** The simple form of a scan over a history that is newest first: process what is
      newer than the cursor, then move the cursor to the head. */
  function Scan(db: Db, history: seq<SignatureInfo>, w: World, env: Env): Result<Db> {
    var db' :- ProcessRows(db, NewerThan(history, db.cursor), w, env);
    Ok(db'.(cursor := if |history| == 0 then "" else history[0].signature))
  }

  // ---------------------------------------------------------------------
  // Orders
  // ---------------------------------------------------------------------

  /** The checks of SubmitPaymentOrderVerified: an error, an order that is fulfilled already, or
      the receipt to write. */
  function VerifyOrder(db: Db, account: nat, id: nat, text: string, w: World, env: Env): (r: Result<Option<Receipt>>)
    ensures r.Ok? ==> id < |db.orders|
    ensures r.Ok? && r.value.Some? ==> Open(db.orders[id]) && !HasReceipt(db.receipts, r.value.value.signature)
    ensures r.Ok? && r.value.Some? ==>
      VerifyPayment(w.credits(r.value.value.signature), r.value.value.wallet, r.value.value.amount, w.decimals).Ok?
    ensures r.Ok? && r.value.Some? ==>
      r.value.value.status == PaymentMatched && r.value.value.account == Some(db.orders[id].account) && r.value.value.amount == db.orders[id].amount
  {
    var signature := Trim(text);
    if signature == "" then Fail("txSignature is required")
    else if id >= |db.orders| then Fail("not found")
    else
      var o := db.orders[id];
      if o.account != account then Fail("forbidden")
      else if !Supported(o.purpose) then Fail("order purpose mismatch")
      else if o.status == Fulfilled then Ok(None)
      else if o.status != PendingPayment && o.status != OrderSubmitted then Fail("cannot accept signature")
      else if env.now > o.expiresAt then Fail("payment order expired")
      else if account >= |db.accounts| || Trim(db.accounts[account].wallet) == "" then Fail("no bound solana wallet")
      else if !env.reachable(signature) then Fail("rpc")
      else
        var wallet := Trim(db.accounts[account].wallet);
        var verdict := VerifyPayment(w.credits(signature), wallet, o.amount, w.decimals);
        if verdict.Fail? then Fail(verdict.reason)
        else if HasReceipt(db.receipts, signature) then Fail("chain receipt was already consumed")
        else Ok(Some(Receipt(signature, Some(account), wallet, o.amount, PaymentMatched)))
  }

  /** SubmitPaymentOrderVerified. */
  function SubmitVerified(db: Db, account: nat, id: nat, text: string, w: World, env: Env): Result<Db> {
    var receipt :- VerifyOrder(db, account, id, text, w, env);
    if receipt.None? then Ok(db) else ConsumeReceipt(db, id, receipt.value, env)
  }

  /** MarketplaceSubmitWalletExpandPayment, used only while the RPC node is switched off:
      it takes the signature on trust. */
  function SubmitUnverified(db: Db, account: nat, id: nat, text: string, now: int): Result<Db> {
    var signature := Trim(text);
    if signature == "" then Fail("txSignature is required")
    else if id >= |db.orders| then Fail("not found")
    else
      var o := db.orders[id];
      if o.account != account then Fail("forbidden")
      else if !Supported(o.purpose) then Fail("order purpose mismatch")
      else if o.status != PendingPayment && o.status != OrderSubmitted then Fail("cannot accept signature")
      else if now > o.expiresAt then Fail("payment order expired")
      else if !SignatureFreeFor(db.orders, id, signature) then Fail("duplicate tx_signature")
      else Ok(db.(orders := db.orders[id := o.(status := OrderSubmitted, signature := Some(signature), submittedAt := Some(now))]))
  }

  /** ConfirmPaymentOrder. */
  function ConfirmOrder(db: Db, id: nat, env: Env): Result<Db> {
    if id >= |db.orders| then Fail("not found")
    else
      var o := db.orders[id];
      if o.status == Fulfilled then Ok(db)
      else if o.status != OrderSubmitted && o.status != OrderConfirmed then Fail("cannot be confirmed")
      else if o.signature.None? || Trim(o.signature.value) == "" || o.submittedAt.None? then Fail("missing its chain receipt")
      else Fulfil(db.(orders := db.orders[id := o.(status := OrderConfirmed)]), id, env)
  }

  datatype Rules = Rules(
    bagMax: int, bagPrice: int, bagTimeout: int,
    walletMax: int, walletPrice: int, walletTimeout: int,
    licensePrice: int, licenseTimeout: int)

  /** The defaults that replace values which are not positive. */
  function WithDefaults(r: Rules): Rules {
    Rules(if r.bagMax <= 0 then 10 else r.bagMax,
          if r.bagPrice <= 0 then 50 else r.bagPrice,
          if r.bagTimeout <= 0 then 600 else r.bagTimeout,
          if r.walletMax <= 0 then 5 else r.walletMax,
          if r.walletPrice <= 0 then 100 else r.walletPrice,
          if r.walletTimeout <= 0 then 600 else r.walletTimeout,
          if r.licensePrice <= 0 then 100 else r.licensePrice,
          if r.licenseTimeout <= 0 then 600 else r.licenseTimeout)
  }

  function OpenFor(account: nat, character: Option<nat>, purpose: Purpose): Order -> int {
    (o: Order) => Indicator(Open(o) && o.account == account && o.purpose == purpose
                            && (character.None? || o.character == character))
  }

  function InsertOrder(db: Db, account: nat, character: Option<nat>, purpose: Purpose, amount: int, now: int, timeout: int): Db {
    db.(orders := db.orders + [Order(account, character, purpose, amount, PendingPayment, None, now, now + timeout, None)])
  }

  predicate OwnsCharacter(db: Db, account: nat, character: nat) {
    character < |db.characters| && db.characters[character].account == account && !db.characters[character].deleted
  }

  /** CreateBagExpandPayment. */
  function CreateBagExpand(db: Db, account: nat, character: nat, rules: Rules, now: int): Result<Db> {
    var r := WithDefaults(rules);
    if !OwnsCharacter(db, account, character) then Fail("not found")
    else if db.characters[character].bagExpands >= r.bagMax then Fail("bag expands exhausted")
    else if Sum(db.orders, OpenFor(account, Some(character), BagExpand)) > 0 then Fail("open bag expand payment already exists")
    else Ok(InsertOrder(db, account, Some(character), BagExpand, r.bagPrice, now, r.bagTimeout))
  }

  /** MarketplaceExpandWalletSlots. */
  function CreateWalletExpand(db: Db, account: nat, character: nat, rules: Rules, now: int): Result<Db> {
    var r := WithDefaults(rules);
    if !OwnsCharacter(db, account, character) || account >= |db.accounts| then Fail("not found")
    else if db.accounts[account].walletExpands >= r.walletMax then Fail("wallet market slot expands exhausted")
    else if Sum(db.orders, OpenFor(account, None, WalletExpand)) > 0 then Fail("open wallet expand payment already exists")
    else Ok(InsertOrder(db, account, Some(character), WalletExpand, r.walletPrice, now, r.walletTimeout))
  }

  /** CreateTradingLicensePayment. */
  function CreateLicense(db: Db, account: nat, character: Option<nat>, rules: Rules, now: int): Result<Db> {
    var r := WithDefaults(rules);
    if account >= |db.accounts| then Fail("not found")
    else if db.accounts[account].licensed then Fail("trading license already owned")
    else if Sum(db.orders, OpenFor(account, None, TradingLicense)) > 0 then Fail("open trading license payment already exists")
    else Ok(InsertOrder(db, account, character, TradingLicense, r.licensePrice, now, r.licenseTimeout))
  }

  // ---------------------------------------------------------------------
  // Runs
  // ---------------------------------------------------------------------

  datatype Step =
    | Arrive(rows: seq<SignatureInfo>)
    | ScanStep(env: Env)
    | VerifiedStep(account: nat, id: nat, text: string, env: Env)
    | UnverifiedStep(account: nat, id: nat, text: string, now: int)
    | ConfirmStep(id: nat, env: Env)
    | BagStep(account: nat, character: nat, now: int)
    | WalletStep(account: nat, character: nat, now: int)
    | LicenseStep(account: nat, forCharacter: Option<nat>, now: int)
    | OtherOrderStep(account: nat, forCharacter: Option<nat>, purpose: Purpose, amount: int, now: int, timeout: int)
    | AccountStep(account: nat, wallet: string, active: bool)
    | CharacterStep(character: nat, deleted: bool)

  /** The tables together with the deposit wallet's signature history, newest first. */
  datatype System = System(db: Db, history: seq<SignatureInfo>)

  predicate Distinct(rows: seq<SignatureInfo>) {
    && (forall i :: 0 <= i < |rows| ==> rows[i].signature != "")
    && (forall i, j :: 0 <= i < j < |rows| ==> rows[i].signature != rows[j].signature)
  }

  function Commit(db: Db, r: Result<Db>): Db { if r.Ok? then r.value else db }

  function Apply(sys: System, w: World, rules: Rules, step: Step): System {
    var db := sys.db;
    match step
    case Arrive(rows) => if Distinct(rows + sys.history) then sys.(history := rows + sys.history) else sys
    case ScanStep(env) => sys.(db := Commit(db, Scan(db, sys.history, w, env)))
    case VerifiedStep(account, id, text, env) => sys.(db := Commit(db, SubmitVerified(db, account, id, text, w, env)))
    case UnverifiedStep(account, id, text, now) => sys.(db := Commit(db, SubmitUnverified(db, account, id, text, now)))
    case ConfirmStep(id, env) => sys.(db := Commit(db, ConfirmOrder(db, id, env)))
    case BagStep(account, character, now) => sys.(db := Commit(db, CreateBagExpand(db, account, character, rules, now)))
    case WalletStep(account, character, now) => sys.(db := Commit(db, CreateWalletExpand(db, account, character, rules, now)))
    case LicenseStep(account, character, now) => sys.(db := Commit(db, CreateLicense(db, account, character, rules, now)))
    case OtherOrderStep(account, character, purpose, amount, now, timeout) =>
      if purpose in {WalletExpand, BagExpand, TradingLicense} then sys
      else sys.(db := InsertOrder(db, account, character, purpose, amount, now, timeout))
    case AccountStep(account, wallet, active) =>
      if account >= |db.accounts| || !WalletFreeFor(db.accounts, account, wallet) then sys
      else sys.(db := db.(accounts := db.accounts[account := db.accounts[account].(wallet := wallet, active := active)]))
    case CharacterStep(character, deleted) =>
      if character >= |db.characters| then sys
      else sys.(db := db.(characters := db.characters[character := db.characters[character].(deleted := deleted)]))
  }

  function Run(sys: System, w: World, rules: Rules, steps: seq<Step>): System {
    if |steps| == 0 then sys
    else Apply(Run(sys, w, rules, steps[..|steps| - 1]), w, rules, steps[|steps| - 1])
  }

  /** The RPC node is on: no signature is taken on trust. */
  predicate RpcOn(steps: seq<Step>) { forall k :: 0 <= k < |steps| ==> !steps[k].UnverifiedStep? }
}
