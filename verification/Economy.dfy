/** The marketplace and NFT minting over one set of tables: listings, sales,
    equipment, item stacks, mint requests and the token purse. Each function is
    one transaction: the new tables, or a failure that keeps the old ones. */
module Economy {
  import opened Basics
  import opened Tokens

  /** Where a piece of equipment or an item stack is. */
  datatype Place = InBag | InWarehouse | Equipped | Listed | MintPending | OnChain | Elsewhere

  datatype Equipment = Equipment(
    account: nat, character: nat, item: string, place: Place, slot: Option<nat>, unbound: bool, rarity: int, nft: Option<nat>)

  datatype Stack = Stack(character: nat, item: string, quantity: int, place: Place, slot: Option<nat>, unbound: bool)

  datatype Character = Character(account: nat, deleted: bool)

  datatype ListingStatus = OnSale | Sold | Cancelled

  datatype AssetKind = EquipmentAsset | ItemAsset

  datatype Listing = Listing(
    seller: nat, sellerCharacter: nat, kind: AssetKind, asset: nat, item: string, quantity: int,
    price: int, deposit: int, status: ListingStatus)

  /** A row of marketplace_orders. */
  datatype Sale = Sale(
    listing: nat, buyer: nat, amount: int, fee: int, burn: int, treasury: int, rewards: int, proceeds: int, depositReturned: int)

  datatype NftStatus = MintRequested | Minted | NftCancelled

  datatype NftAsset = NftAsset(account: nat, equipment: nat, status: NftStatus)

  datatype RequestStatus = Paid | MintConfirmed | MintCancelled

  datatype MintRequest = MintRequest(account: nat, asset: nat, equipment: nat, fee: int, spend: Spend, status: RequestStatus)

  /** A row of account_market_slots. */
  datatype Slots = Slots(material: nat, wallet: nat)

  datatype Db = Db(
    purse: Purse,
    characters: seq<Character>,
    equipment: seq<Equipment>,
    stacks: seq<Stack>,
    listings: seq<Listing>,
    sales: seq<Sale>,
    nfts: seq<NftAsset>,
    requests: seq<MintRequest>,
    slots: seq<Slots>,
    tradable: set<string>)

  // ---------------------------------------------------------------------
  // Rules
  // ---------------------------------------------------------------------

  datatype Rules = Rules(
    minPrice: int, feeBps: int, burnBps: int, treasuryBps: int, depositBps: int,
    baseSlots: int, materialSlots: int, walletSlots: int,
    minRarity: int, mintFees: map<int, int>)

  function Or(value: int, default: int): int { if value <= 0 then default else value }

  function WithDefaults(r: Rules): Rules {
    r.(minPrice := Or(r.minPrice, 1), feeBps := Or(r.feeBps, 500), burnBps := Or(r.burnBps, 100),
       treasuryBps := Or(r.treasuryBps, 300), depositBps := Or(r.depositBps, 100),
       baseSlots := Or(r.baseSlots, 5), materialSlots := Or(r.materialSlots, 2), walletSlots := Or(r.walletSlots, 2),
       minRarity := Or(r.minRarity, 3),
       mintFees := if r.mintFees == map[] then map[3 := 500, 4 := 2000, 5 := 10000] else r.mintFees)
  }

  function BpsAmount(amount: int, bps: int): int {
    if amount <= 0 || bps <= 0 then 0 else amount * bps / 10000
  }

  function BpsCeil(amount: int, bps: int): int {
    if amount <= 0 || bps <= 0 then 0 else Max(1, (amount * bps + 9999) / 10000)
  }

  function SlotCapacity(r: Rules, s: Slots): int {
    r.baseSlots + s.material * r.materialSlots + s.wallet * r.walletSlots
  }

  /** The fee of the highest configured rarity that is not above `rarity`. */
  function FeeUpTo(fees: map<int, int>, minRarity: int, rarity: int): int
    decreases rarity - minRarity
  {
    if rarity < minRarity then 0
    else if rarity in fees && fees[rarity] > 0 then fees[rarity]
    else FeeUpTo(fees, minRarity, rarity - 1)
  }

  // ---------------------------------------------------------------------
  // Slots of a bag
  // ---------------------------------------------------------------------

  predicate Owns(db: Db, account: nat, character: nat) {
    character < |db.characters| && db.characters[character].account == account && !db.characters[character].deleted
  }

  function StackIn(character: nat, place: Place, slot: nat): Stack -> int {
    (s: Stack) => Indicator(s.character == character && s.place == place && s.slot == Some(slot))
  }

  function EquipmentIn(character: nat, place: Place, slot: nat): Equipment -> int {
    (e: Equipment) => Indicator(e.character == character && e.place == place && e.slot == Some(slot))
  }

  /** How many rows storageSlotFree counts in a slot. */
  function Occupants(db: Db, character: nat, place: Place, slot: nat): int {
    Sum(db.stacks, StackIn(character, place, slot)) + Sum(db.equipment, EquipmentIn(character, place, slot))
  }

  predicate FirstFree(db: Db, character: nat, slot: nat) {
    Occupants(db, character, InBag, slot) == 0 && forall lower: nat :: lower < slot ==> Occupants(db, character, InBag, lower) != 0
  }

  /** resolveStorageSlot without a requested slot: the first free one below 1000. */
  function FreeSlot(db: Db, character: nat): (r: Result<nat>)
    ensures r.Ok? ==> Occupants(db, character, InBag, r.value) == 0
  {
    if exists slot: nat :: slot < 1000 && FirstFree(db, character, slot) then
      var slot: nat :| slot < 1000 && FirstFree(db, character, slot);
      Ok(slot)
    else Fail("no available slot")
  }

  /** The stack in a slot; a unique index allows at most one. */
  function FindStack(stacks: seq<Stack>, character: nat, place: Place, slot: nat): (r: Option<nat>)
    ensures r.Some? ==> r.value < |stacks| && StackIn(character, place, slot)(stacks[r.value]) == 1
  {
    if |stacks| == 0 then None
    else
      var n := |stacks| - 1;
      if StackIn(character, place, slot)(stacks[n]) == 1 then Some(n) else FindStack(stacks[..n], character, place, slot)
  }

  // ---------------------------------------------------------------------
  // Listing
  // ---------------------------------------------------------------------

  datatype Offer =
    | OfferEquipment(equipment: nat)
    | OfferItem(place: Place, slot: nat, quantity: int)

  function ActiveOf(account: nat): Listing -> int {
    (l: Listing) => Indicator(l.seller == account && l.status == OnSale)
  }

  /** MarketplaceCreateListing. `allowed` stands for the switches that do not touch these
      tables: enabled, licence, restrictions and the daily limit. */
  function CreateListing(db: Db, account: nat, character: nat, offer: Offer, price: int, rules: Rules, allowed: bool): (r: Result<Db>)
    ensures r.Ok? ==> OnlyLists(db.(purse := r.value.purse), r.value)
  {
    var r := WithDefaults(rules);
    if !allowed || !Owns(db, account, character) || account >= |db.slots| then Fail("not allowed")
    else if price < r.minPrice then Fail("price below minimum")
    else if Sum(db.listings, ActiveOf(account)) >= SlotCapacity(r, db.slots[account]) then Fail("active listings at capacity")
    else
      var deposit := BpsCeil(price, r.depositBps);
      var paid :- SpendTokens(db.purse, account, deposit);
      var db1 := db.(purse := paid.purse);
      match offer
      case OfferEquipment(id) => LockEquipment(db1, account, character, id, price, deposit)
      case OfferItem(place, slot, quantity) => LockItem(db1, account, character, place, slot, quantity, price, deposit)
  }

  /** Nothing but the goods and the listings differs. */
  predicate OnlyLists(db: Db, db': Db) {
    db' == db.(equipment := db'.equipment, stacks := db'.stacks, listings := db'.listings)
  }

  function LockEquipment(db: Db, account: nat, character: nat, id: nat, price: int, deposit: int): (r: Result<Db>)
    ensures r.Ok? ==> OnlyLists(db, r.value)
  {
    if id >= |db.equipment| || db.equipment[id].account != account || db.equipment[id].character != character
    then Fail("not found")
    else
      var e := db.equipment[id];
      if e.place != InBag && e.place != InWarehouse then Fail("equipment must be in bag or warehouse to list")
      else if !e.unbound then Fail("only UNBOUND equipment can be listed")
      else if e.item !in db.tradable then Fail("equipment item is not tradable")
      else
        Ok(db.(equipment := db.equipment[id := e.(place := Listed, slot := None)],
               listings := db.listings + [Listing(account, character, EquipmentAsset, id, e.item, 1, price, deposit, OnSale)]))
  }

  function LockItem(db: Db, account: nat, character: nat, place: Place, slot: nat, quantity: int, price: int, deposit: int): (r: Result<Db>)
    ensures r.Ok? ==> OnlyLists(db, r.value)
  {
    if quantity <= 0 then Fail("quantity must be positive")
    else if place != InBag && place != InWarehouse then Fail("sourceLocation must be BAG or WAREHOUSE")
    else
      var found := FindStack(db.stacks, character, place, slot);
      if found.None? then Fail("not found")
      else
        var id := found.value;
        var s := db.stacks[id];
        if !s.unbound then Fail("only UNBOUND items can be listed")
        else if s.item !in db.tradable then Fail("item is not tradable")
        else if quantity > s.quantity then Fail("insufficient balance")
        else if quantity == s.quantity then
          Ok(db.(stacks := db.stacks[id := s.(place := Listed, slot := None)],
                 listings := db.listings + [Listing(account, character, ItemAsset, id, s.item, quantity, price, deposit, OnSale)]))
        else
          Ok(db.(stacks := db.stacks[id := s.(quantity := s.quantity - quantity)]
                           + [Stack(character, s.item, quantity, Listed, None, true)],
                 listings := db.listings + [Listing(account, character, ItemAsset, |db.stacks|, s.item, quantity, price, deposit, OnSale)]))
  }

  // ---------------------------------------------------------------------
  // Buying and cancelling
  // ---------------------------------------------------------------------

  /** The listed asset moves to a free slot of a bag; `owner` is the new account of equipment. */
  function DeliverAsset(db: Db, l: Listing, owner: nat, character: nat): (r: Result<Db>)
    ensures r.Ok? ==> r.value == db.(equipment := r.value.equipment, stacks := r.value.stacks)
  {
    var slot :- FreeSlot(db, character);
    match l.kind
    case EquipmentAsset =>
      if l.asset >= |db.equipment| || db.equipment[l.asset].place != Listed then Fail("listed equipment missing")
      else
        var e := db.equipment[l.asset];
        Ok(db.(equipment := db.equipment[l.asset := e.(account := owner, character := character, place := InBag, slot := Some(slot))]))
    case ItemAsset =>
      if l.asset >= |db.stacks| || db.stacks[l.asset].place != Listed then Fail("listed item missing")
      else
        var s := db.stacks[l.asset];
        Ok(db.(stacks := db.stacks[l.asset := s.(character := character, place := InBag, slot := Some(slot))]))
  }

  /** The order row of a purchase: the fee, how it is split, and what the seller gets. */
  function SaleRow(r: Rules, buyer: nat, id: nat, l: Listing): Sale {
    var fee := BpsAmount(l.price, r.feeBps);
    var burn := BpsAmount(l.price, r.burnBps);
    var treasury := BpsAmount(l.price, r.treasuryBps);
    Sale(id, buyer, l.price, fee, burn, treasury, Max(0, fee - burn - treasury), l.price - fee, l.deposit)
  }

  /** The buyer pays; the proceeds and the deposit are granted to the seller. */
  function SettlePurchase(p: Purse, seller: nat, s: Sale, unlockAt: int): (r: Result<Purse>)
    ensures r.Ok? ==> |r.value.balances| == |p.balances|
  {
    var paid :- SpendTokens(p, s.buyer, s.amount);
    if seller >= |p.balances| then Fail("seller missing")
    else Ok(GrantLocked(GrantLocked(paid.purse, seller, s.proceeds, unlockAt), seller, s.depositReturned, unlockAt))
  }

  /** MarketplaceBuy. */
  function Buy(db: Db, buyer: nat, character: nat, id: nat, rules: Rules, allowed: bool, unlockAt: int): Result<Db> {
    if !allowed || !Owns(db, buyer, character) then Fail("not allowed")
    else if id >= |db.listings| then Fail("not found")
    else
      var l := db.listings[id];
      if l.status != OnSale then Fail("listing is not available")
      else if l.seller == buyer then Fail("cannot buy own listing")
      else
        var sale := SaleRow(WithDefaults(rules), buyer, id, l);
        var purse :- SettlePurchase(db.purse, l.seller, sale, unlockAt);
        var db1 :- DeliverAsset(db.(purse := purse), l, buyer, character);
        Ok(db1.(listings := db.listings[id := l.(status := Sold)], sales := db.sales + [sale]))
  }

  /** MarketplaceCancel: the asset goes back, the deposit stays with the treasury. */
  function Cancel(db: Db, account: nat, id: nat, allowed: bool): (r: Result<Db>)
    ensures r.Ok? ==> OnlyLists(db, r.value)
  {
    if !allowed then Fail("not allowed")
    else if id >= |db.listings| then Fail("not found")
    else
      var l := db.listings[id];
      if l.seller != account then Fail("forbidden")
      else if l.status != OnSale then Fail("listing is not cancellable")
      else if !Owns(db, account, l.sellerCharacter) then Fail("not found")
      else if l.kind == EquipmentAsset && (l.asset >= |db.equipment| || db.equipment[l.asset].account != account)
      then Fail("listed equipment missing")
      else
        var db1 :- DeliverAsset(db, l, account, l.sellerCharacter);
        Ok(db1.(listings := db.listings[id := l.(status := Cancelled)]))
  }

  // ---------------------------------------------------------------------
  // Minting
  // ---------------------------------------------------------------------

  function LiveNft(equipment: nat): NftAsset -> int {
    (n: NftAsset) => Indicator(n.equipment == equipment && n.status != NftCancelled)
  }

  /** Nothing but the purse, the equipment and the mint records differs. */
  predicate OnlyMints(db: Db, db': Db) {
    db' == db.(purse := db'.purse, equipment := db'.equipment, nfts := db'.nfts, requests := db'.requests)
  }

  /** The checks of a mint request, and the fee it must pay. */
  function MintFeeDue(db: Db, account: nat, character: nat, id: nat, rules: Rules): (r: Result<int>)
    ensures r.Ok? ==> id < |db.equipment| && r.value > 0
  {
    var r := WithDefaults(rules);
    if !Owns(db, account, character) then Fail("not found")
    else if id >= |db.equipment| || db.equipment[id].account != account || db.equipment[id].character != character
    then Fail("not found")
    else
      var e := db.equipment[id];
      if e.place != InBag && e.place != InWarehouse then Fail("equipment location cannot be minted")
      else if e.rarity < r.minRarity then Fail("equipment rarity below mint minimum")
      else
        var fee := FeeUpTo(r.mintFees, r.minRarity, e.rarity);
        if fee <= 0 then Fail("equipment rarity has no configured AEB mint fee")
        else if Sum(db.nfts, LiveNft(id)) > 0 then Fail("equipment already has an nft record")
        else Ok(fee)
  }

  /** RequestNFTMint. */
  function RequestMint(db: Db, account: nat, character: nat, id: nat, rules: Rules): (r: Result<Db>)
    ensures r.Ok? ==> OnlyMints(db, r.value)
  {
    var fee :- MintFeeDue(db, account, character, id, rules);
    var paid :- SpendTokens(db.purse, account, fee);
    Ok(db.(purse := paid.purse,
           nfts := db.nfts + [NftAsset(account, id, MintRequested)],
           requests := db.requests + [MintRequest(account, |db.nfts|, id, fee, paid.spend, Paid)],
           equipment := db.equipment[id := db.equipment[id].(place := MintPending, slot := None)]))
  }

  /** ConfirmNFTMint; a confirmed request stays as it is. */
  function ConfirmMint(db: Db, id: nat): (r: Result<Db>)
    ensures r.Ok? ==> OnlyMints(db, r.value) && r.value.purse == db.purse
  {
    if id >= |db.requests| then Fail("not found")
    else
      var q := db.requests[id];
      if q.status == MintConfirmed then Ok(db)
      else if q.status != Paid then Fail("request cannot be confirmed")
      else if q.asset >= |db.nfts| || q.equipment >= |db.equipment| then Fail("not found")
      else
        var e := db.equipment[q.equipment];
        Ok(db.(requests := db.requests[id := q.(status := MintConfirmed)],
               nfts := db.nfts[q.asset := db.nfts[q.asset].(status := Minted)],
               equipment := db.equipment[q.equipment := if e.place == MintPending then e.(place := OnChain, nft := Some(q.asset)) else e]))
  }

  /** CancelNFTMint. */
  function CancelMint(db: Db, account: nat, id: nat): (r: Result<Db>)
    ensures r.Ok? ==> OnlyMints(db, r.value)
  {
    if id >= |db.requests| then Fail("not found")
    else
      var q := db.requests[id];
      if q.account != account then Fail("forbidden")
      else if q.status != Paid then Fail("request cannot be cancelled")
      else if q.asset >= |db.nfts| || q.equipment >= |db.equipment| then Fail("not found")
      else
        var e := db.equipment[q.equipment];
        var e' :- (if e.place == MintPending then ReturnToBag(db, e) else Ok(e));
        var purse :- Refund(db.purse, account, q.fee, q.spend);
        Ok(db.(purse := purse,
               requests := db.requests[id := q.(status := MintCancelled)],
               nfts := db.nfts[q.asset := db.nfts[q.asset].(status := NftCancelled)],
               equipment := db.equipment[q.equipment := e']))
  }

  function ReturnToBag(db: Db, e: Equipment): Result<Equipment> {
    var slot :- FreeSlot(db, e.character);
    Ok(e.(place := InBag, slot := Some(slot)))
  }

  // ---------------------------------------------------------------------
  // Runs
  // ---------------------------------------------------------------------

  datatype Step =
    | ListStep(account: nat, character: nat, offer: Offer, price: int, allowed: bool)
    | BuyStep(account: nat, character: nat, id: nat, allowed: bool, unlockAt: int)
    | CancelStep(account: nat, id: nat, allowed: bool)
    | MintStep(account: nat, character: nat, equipment: nat)
    | ConfirmMintStep(id: nat)
    | CancelMintStep(account: nat, id: nat)
    | WidenStep(account: nat, more: Slots)

  function Attempt(db: Db, rules: Rules, step: Step): Result<Db> {
    match step
    case ListStep(account, character, offer, price, allowed) => CreateListing(db, account, character, offer, price, rules, allowed)
    case BuyStep(account, character, id, allowed, unlockAt) =>
      if unlockAt == 0 then Fail("zero time") else Buy(db, account, character, id, rules, allowed, unlockAt)
    case CancelStep(account, id, allowed) => Cancel(db, account, id, allowed)
    case MintStep(account, character, equipment) => RequestMint(db, account, character, equipment, rules)
    case ConfirmMintStep(id) => ConfirmMint(db, id)
    case CancelMintStep(account, id) => CancelMint(db, account, id)
    case WidenStep(account, more) =>
      if account >= |db.slots| then Fail("not found")
      else
        var s := db.slots[account];
        Ok(db.(slots := db.slots[account := Slots(s.material + more.material, s.wallet + more.wallet)]))
  }

  function Apply(db: Db, rules: Rules, step: Step): Db {
    var r := Attempt(db, rules, step);
    if r.Ok? then r.value else db
  }

  function Run(db: Db, rules: Rules, steps: seq<Step>): Db {
    if |steps| == 0 then db
    else Apply(Run(db, rules, steps[..|steps| - 1]), rules, steps[|steps| - 1])
  }
}
