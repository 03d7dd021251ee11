/** Conservation and safety over every interleaved run of the marketplace and
    NFT minting. */
module EconomyRuns {
  import opened Basics
  import opened Tokens
  import opened Economy
  import opened EconomyProofs

  // ---------------------------------------------------------------------
  // What is conserved
  // ---------------------------------------------------------------------

  function Quantity(item: string, unbound: bool): Stack -> int {
    (s: Stack) => if s.item == item && s.unbound == unbound then s.quantity else 0
  }

  /** The deposit of a listing that is still LISTED or was CANCELLED. */
  function DepositHeld(): Listing -> int { (l: Listing) => if l.status != Sold then l.deposit else 0 }

  function SaleFee(): Sale -> int { (s: Sale) => s.fee }

  /** The part of a fee above the price, which no one paid. */
  function Unfunded(): Sale -> int { (s: Sale) => Max(0, s.fee - s.amount) }

  function MintFeeHeld(): MintRequest -> int { (q: MintRequest) => if q.status != MintCancelled then q.fee else 0 }

  /** All balances, deposits not returned, fees of sold listings and mint fees not refunded. */
  ghost function Wealth(db: Db): int {
    Sum(db.purse.balances, Worth()) + Sum(db.listings, DepositHeld()) + Sum(db.sales, SaleFee()) + Sum(db.requests, MintFeeHeld())
  }

  predicate SameMake(a: Equipment, b: Equipment) { a.item == b.item && a.rarity == b.rarity && a.unbound == b.unbound }

  /** No item quantity is lost or made, and equipment stays what it is. */
  ghost predicate SameGoods(db: Db, db': Db) {
    && (forall item, unbound :: Sum(db'.stacks, Quantity(item, unbound)) == Sum(db.stacks, Quantity(item, unbound)))
    && |db'.equipment| == |db.equipment|
    && (forall i :: 0 <= i < |db.equipment| ==> SameMake(db.equipment[i], db'.equipment[i]))
  }

  predicate ListingFollows(l: Listing, l': Listing) { l' == l || (l.status == OnSale && l' == l.(status := l'.status)) }

  predicate RequestFollows(q: MintRequest, q': MintRequest) { q' == q || (q.status == Paid && q' == q.(status := q'.status)) }

  /** Records keep everything but their status, finished ones keep that too, and sales are only added. */
  ghost predicate Extends(db: Db, db': Db) {
    && |db.listings| <= |db'.listings| && |db.requests| <= |db'.requests|
    && (forall k :: 0 <= k < |db.listings| ==> ListingFollows(db.listings[k], db'.listings[k]))
    && (forall k :: 0 <= k < |db.requests| ==> RequestFollows(db.requests[k], db'.requests[k]))
    && |db.sales| <= |db'.sales| && db'.sales[..|db.sales|] == db.sales
  }

  /** Account `account` gains `amount`, in its buckets and in token_balance alike; nobody else is touched. */
  ghost predicate Pays(p: Purse, p': Purse, account: nat, amount: int) {
    && account < |p.balances| == |p'.balances|
    && (forall a :: 0 <= a < |p.balances| && a != account ==> p'.balances[a] == p.balances[a])
    && Worth()(p'.balances[account]) == Worth()(p.balances[account]) + amount
    && p'.balances[account].total == p.balances[account].total + amount
  }

  /** token_balance differs from the sum of the buckets by what it did before. */
  ghost predicate SameGap(p: Purse, p': Purse) {
    && |p'.balances| == |p.balances|
    && (forall a :: 0 <= a < |p.balances| ==>
          p'.balances[a].total - Worth()(p'.balances[a]) == p.balances[a].total - Worth()(p.balances[a]))
  }

  ghost predicate Conserves(db: Db, db': Db) {
    && SameGoods(db, db') && Extends(db, db') && SameGap(db.purse, db'.purse)
    && Wealth(db') - Sum(db'.sales, Unfunded()) == Wealth(db) - Sum(db.sales, Unfunded())
  }

  lemma PaysSum(p: Purse, p': Purse, account: nat, amount: int)
    requires Pays(p, p', account, amount)
    ensures Sum(p'.balances, Worth()) == Sum(p.balances, Worth()) + amount && SameGap(p, p')
  {
    assert p'.balances == p.balances[account := p'.balances[account]];
    SumUpdate(p.balances, account, p'.balances[account], Worth());
  }

  lemma PaysTwice(p: Purse, p1: Purse, p2: Purse, account: nat, first: int, second: int)
    requires Pays(p, p1, account, first) && Pays(p1, p2, account, second)
    ensures Pays(p, p2, account, first + second)
  {
  }

  lemma ConservesTrans(a: Db, b: Db, c: Db)
    requires Conserves(a, b) && Conserves(b, c)
    ensures Conserves(a, c)
  {
    forall i | 0 <= i < |a.equipment| ensures SameMake(a.equipment[i], c.equipment[i]) {
      assert SameMake(a.equipment[i], b.equipment[i]) && SameMake(b.equipment[i], c.equipment[i]);
    }
    forall k | 0 <= k < |a.listings| ensures ListingFollows(a.listings[k], c.listings[k]) {
      assert ListingFollows(a.listings[k], b.listings[k]) && ListingFollows(b.listings[k], c.listings[k]);
    }
    forall k | 0 <= k < |a.requests| ensures RequestFollows(a.requests[k], c.requests[k]) {
      assert RequestFollows(a.requests[k], b.requests[k]) && RequestFollows(b.requests[k], c.requests[k]);
    }
    assert c.sales[..|a.sales|] == c.sales[..|b.sales|][..|a.sales|];
    forall x | 0 <= x < |a.purse.balances|
      ensures c.purse.balances[x].total - Worth()(c.purse.balances[x]) == a.purse.balances[x].total - Worth()(a.purse.balances[x])
    {
      assert b.purse.balances[x].total - Worth()(b.purse.balances[x]) == a.purse.balances[x].total - Worth()(a.purse.balances[x]);
    }
  }

  // ---------------------------------------------------------------------
  // The purse
  // ---------------------------------------------------------------------

  lemma SpendPays(p: Purse, account: nat, amount: int, r: Spending)
    requires PurseSound(p) && SpendTokens(p, account, amount) == Ok(r)
    ensures PurseSound(r.purse) && Pays(p, r.purse, account, -amount) && SpendSound(r.spend, amount)
  {
    SpendTakes(p, account, amount);
  }

  lemma GrantPays(p: Purse, account: nat, amount: int, unlockAt: int)
    requires PurseSound(p) && account < |p.balances| && unlockAt != 0
    ensures PurseSound(GrantLocked(p, account, amount, unlockAt))
    ensures Pays(p, GrantLocked(p, account, amount, unlockAt), account, Max(0, amount))
  {
    if amount > 0 { GrantGives(p, account, amount, unlockAt); }
  }

  /** Another purse over the same accounts leaves every other part of the invariant. */
  lemma PurseSwap(db: Db, rules: Rules, p: Purse)
    requires Sound(db, rules) && PurseSound(p) && |p.balances| == |db.purse.balances|
    ensures Sound(db.(purse := p), rules)
  {
    var db' := db.(purse := p);
    forall c: nat, place: Place, slot: nat | Stored(place) ensures Occupants(db', c, place, slot) <= 1 {
      assert Occupants(db, c, place, slot) <= 1;
    }
  }

  // ---------------------------------------------------------------------
  // Listing
  // ---------------------------------------------------------------------

  ghost predicate RoomFor(db: Db, rules: Rules, account: nat) {
    account < |db.slots| && Sum(db.listings, ActiveOf(account)) < SlotCapacity(WithDefaults(rules), db.slots[account])
  }

  /** An asset went into escrow under a new listing with the given deposit. */
  ghost predicate Locks(db: Db, db': Db, rules: Rules, deposit: int) {
    && Sound(db', rules) && SameGoods(db, db') && Extends(db, db') && Wealth(db') == Wealth(db) + deposit
    && db'.purse == db.purse && db'.sales == db.sales
  }

  /** What adding a listing does besides moving the asset. */
  lemma ListingAdded(db: Db, db': Db, rules: Rules, l: Listing)
    requires SalesSound(db.sales, db.listings) && Priced(db.listings) && WithinCapacity(db.listings, db.slots, rules)
    requires RoomFor(db, rules, l.seller) && l.status == OnSale && l.price > 0 && l.deposit >= 0
    requires db'.listings == db.listings + [l] && db'.slots == db.slots
    requires db'.sales == db.sales && db'.requests == db.requests && db'.purse == db.purse
    ensures SalesSound(db'.sales, db'.listings) && Priced(db'.listings) && WithinCapacity(db'.listings, db'.slots, rules)
    ensures Wealth(db') == Wealth(db) + l.deposit && Extends(db, db')
  {
    SalesListing(db.sales, db.listings, l);
    CapacityOpens(db.listings, db.slots, rules, l);
    DepositAdded(db, db', l);
  }

  lemma DepositAdded(db: Db, db': Db, l: Listing)
    requires db'.listings == db.listings + [l] && l.status == OnSale
    requires db'.sales == db.sales && db'.requests == db.requests && db'.purse == db.purse
    ensures Wealth(db') == Wealth(db) + l.deposit && Extends(db, db')
  {
    SumAppend(db.listings, l, DepositHeld());
  }

  lemma LockEquipmentKeeps(db: Db, db': Db, rules: Rules, account: nat, character: nat, id: nat, price: int, deposit: int)
    requires Sound(db, rules) && RoomFor(db, rules, account) && price > 0 && deposit >= 0
    requires LockEquipment(db, account, character, id, price, deposit) == Ok(db')
    ensures Locks(db, db', rules, deposit)
  {
    var l := Listing(account, character, EquipmentAsset, id, db.equipment[id].item, 1, price, deposit, OnSale);
    EquipmentPutUp(db, db', id, l);
    ListingAdded(db, db', rules, l);
  }

  /** A piece of equipment goes into escrow. */
  lemma EquipmentPutUp(db: Db, db': Db, id: nat, l: Listing)
    requires GoodsSound(db) && l.status == OnSale
    requires id < |db.equipment| && Stored(db.equipment[id].place) && db.equipment[id].unbound && db.equipment[id].account == l.seller
    requires l.kind == EquipmentAsset && l.asset == id && l.item == db.equipment[id].item && l.quantity == 1
    requires db' == db.(equipment := db.equipment[id := db.equipment[id].(place := Listed, slot := None)], listings := db.listings + [l])
    ensures GoodsSound(db') && SameGoods(db, db')
  {
    var e' := db.equipment[id].(place := Listed, slot := None);
    EquipmentOpens(db.listings, l, db.equipment, e');
    EscrowOpensOther(db.listings, l, ItemAsset, OfStacks(db.stacks));
    MintEdits(db.requests, db.nfts, db.equipment, |db.purse.balances|, id, e');
    SlotsEquipmentTo(db, db', id, e');
  }

  lemma EquipmentOpens(listings: seq<Listing>, l: Listing, rows: seq<Equipment>, e: Equipment)
    requires Escrow(listings, EquipmentAsset, OfEquipment(rows)) && l.status == OnSale && l.kind == EquipmentAsset
    requires l.asset < |rows| && rows[l.asset].place != Listed && Backs(EquipmentHolding(e), l)
    ensures Escrow(listings + [l], EquipmentAsset, OfEquipment(rows[l.asset := e]))
  {
    EscrowOpens(listings, l, EquipmentAsset, OfEquipment(rows), EquipmentHolding(e));
    assert OfEquipment(rows[l.asset := e]) == OfEquipment(rows)[l.asset := EquipmentHolding(e)];
  }

  /** Slots only depend on stacks and equipment. */
  lemma SlotsSame(db: Db, db': Db)
    requires SlotsDistinct(db) && db'.stacks == db.stacks && db'.equipment == db.equipment
    ensures SlotsDistinct(db')
  {
    forall c: nat, p: Place, slot: nat | Stored(p) ensures Occupants(db', c, p, slot) <= 1 {
      assert Occupants(db, c, p, slot) <= 1;
    }
  }

  lemma QuantityUpdated(stacks: seq<Stack>, id: nat, s: Stack)
    requires id < |stacks| && s.item == stacks[id].item && s.unbound == stacks[id].unbound
    ensures forall item, unbound ::
              Sum(stacks[id := s], Quantity(item, unbound)) == Sum(stacks, Quantity(item, unbound))
              + if item == s.item && unbound == s.unbound then s.quantity - stacks[id].quantity else 0
  {
    forall item, unbound ensures Sum(stacks[id := s], Quantity(item, unbound)) ==
      Sum(stacks, Quantity(item, unbound)) - Quantity(item, unbound)(stacks[id]) + Quantity(item, unbound)(s)
    {
      SumUpdate(stacks, id, s, Quantity(item, unbound));
    }
  }

  /** The whole stack goes into escrow. */
  lemma LockWholeKeeps(db: Db, db': Db, id: nat, l: Listing)
    requires GoodsSound(db)
    requires id < |db.stacks| && Stored(db.stacks[id].place) && db.stacks[id].unbound
    requires l.kind == ItemAsset && l.asset == id && l.item == db.stacks[id].item && l.quantity == db.stacks[id].quantity && l.status == OnSale
    requires db' == db.(stacks := db.stacks[id := db.stacks[id].(place := Listed, slot := None)], listings := db.listings + [l])
    ensures GoodsSound(db') && SameGoods(db, db')
  {
    var s' := db.stacks[id].(place := Listed, slot := None);
    EscrowOpens(db.listings, l, ItemAsset, OfStacks(db.stacks), StackHolding(s'));
    assert OfStacks(db.stacks[id := s']) == OfStacks(db.stacks)[id := StackHolding(s')];
    EscrowOpensOther(db.listings, l, EquipmentAsset, OfEquipment(db.equipment));
    SlotsStack(db, id, s');
    SlotsSame(db.(stacks := db.stacks[id := s']), db');
    QuantityUpdated(db.stacks, id, s');
  }

  /** Part of a stack is split off into escrow. */
  lemma LockPartKeeps(db: Db, db': Db, id: nat, l: Listing)
    requires GoodsSound(db)
    requires id < |db.stacks| && Stored(db.stacks[id].place) && db.stacks[id].unbound && 0 < l.quantity < db.stacks[id].quantity
    requires l.kind == ItemAsset && l.asset == |db.stacks| && l.item == db.stacks[id].item && l.status == OnSale
    requires db' == db.(stacks := db.stacks[id := db.stacks[id].(quantity := db.stacks[id].quantity - l.quantity)]
                                  + [Stack(l.sellerCharacter, l.item, l.quantity, Listed, None, true)],
                        listings := db.listings + [l])
    ensures GoodsSound(db') && SameGoods(db, db')
  {
    var s := db.stacks[id];
    var rest := s.(quantity := s.quantity - l.quantity);
    var part := Stack(l.sellerCharacter, l.item, l.quantity, Listed, None, true);
    PartEscrow(db.listings, db.stacks, id, rest, part, l);
    EscrowOpensOther(db.listings, l, EquipmentAsset, OfEquipment(db.equipment));
    PartSlots(db, db', id, rest, part);
    PartQuantity(db.stacks, id, rest, part);
  }

  lemma PartSlots(db: Db, db': Db, id: nat, rest: Stack, part: Stack)
    requires SlotsDistinct(db) && id < |db.stacks| && rest == db.stacks[id].(quantity := rest.quantity) && part.slot.None?
    requires db'.stacks == db.stacks[id := rest] + [part] && db'.equipment == db.equipment
    ensures SlotsDistinct(db')
  {
    SlotsStack(db, id, rest);
    var db1 := db.(stacks := db.stacks[id := rest]);
    SlotsNewStack(db1, part);
    SlotsSame(db1.(stacks := db1.stacks + [part]), db');
  }

  /** Splitting a stack loses nothing. */
  lemma PartQuantity(stacks: seq<Stack>, id: nat, rest: Stack, part: Stack)
    requires id < |stacks| && rest == stacks[id].(quantity := stacks[id].quantity - part.quantity)
    requires part.item == rest.item && part.unbound == rest.unbound
    ensures forall item, unbound ::
              Sum(stacks[id := rest] + [part], Quantity(item, unbound)) == Sum(stacks, Quantity(item, unbound))
  {
    QuantityUpdated(stacks, id, rest);
    forall item, unbound
      ensures Sum(stacks[id := rest] + [part], Quantity(item, unbound)) == Sum(stacks, Quantity(item, unbound))
    {
      SumAppend(stacks[id := rest], part, Quantity(item, unbound));
    }
  }

  lemma PartEscrow(listings: seq<Listing>, stacks: seq<Stack>, id: nat, rest: Stack, part: Stack, l: Listing)
    requires Escrow(listings, ItemAsset, OfStacks(stacks)) && id < |stacks| && stacks[id].place != Listed && rest.place != Listed
    requires l.status == OnSale && l.kind == ItemAsset && l.asset == |stacks| && Backs(StackHolding(part), l)
    ensures Escrow(listings + [l], ItemAsset, OfStacks(stacks[id := rest] + [part]))
  {
    var unlisted := StackHolding(part).(listed := false);
    EscrowEdits(listings, ItemAsset, OfStacks(stacks), id, StackHolding(rest));
    assert OfStacks(stacks[id := rest]) == OfStacks(stacks)[id := StackHolding(rest)];
    EscrowGrows(listings, ItemAsset, OfStacks(stacks[id := rest]), unlisted);
    EscrowOpens(listings, l, ItemAsset, OfStacks(stacks[id := rest]) + [unlisted], StackHolding(part));
    assert OfStacks(stacks[id := rest] + [part]) == (OfStacks(stacks[id := rest]) + [unlisted])[l.asset := StackHolding(part)];
  }

  lemma LockItemGoods(db: Db, db': Db, account: nat, character: nat, place: Place, slot: nat, quantity: int, price: int, deposit: int)
    returns (l: Listing)
    requires GoodsSound(db) && LockItem(db, account, character, place, slot, quantity, price, deposit) == Ok(db')
    ensures GoodsSound(db') && SameGoods(db, db') && db'.listings == db.listings + [l]
    ensures l.seller == account && l.status == OnSale && l.price == price && l.deposit == deposit
  {
    var id := FindStack(db.stacks, character, place, slot).value;
    var s := db.stacks[id];
    l := Listing(account, character, ItemAsset, if quantity == s.quantity then id else |db.stacks|, s.item, quantity, price, deposit, OnSale);
    if quantity == s.quantity {
      LockWholeKeeps(db, db', id, l);
    } else {
      LockPartKeeps(db, db', id, l);
    }
  }

  lemma LockItemKeeps(db: Db, db': Db, rules: Rules, account: nat, character: nat, place: Place, slot: nat, quantity: int, price: int, deposit: int)
    requires Sound(db, rules) && RoomFor(db, rules, account) && price > 0 && deposit >= 0
    requires LockItem(db, account, character, place, slot, quantity, price, deposit) == Ok(db')
    ensures Locks(db, db', rules, deposit)
  {
    var l := LockItemGoods(db, db', account, character, place, slot, quantity, price, deposit);
    ListingAdded(db, db', rules, l);
  }

  lemma SpendThenLock(db: Db, db1: Db, db': Db, rules: Rules, account: nat, deposit: int)
    requires db1 == db.(purse := db1.purse) && Pays(db.purse, db1.purse, account, -deposit) && Locks(db1, db', rules, deposit)
    ensures Conserves(db, db')
  {
    PaysSum(db.purse, db1.purse, account, -deposit);
  }

  /** A listing takes exactly the deposit from its seller and conserves everything. */
  lemma ListKeeps(db: Db, db': Db, rules: Rules, account: nat, character: nat, offer: Offer, price: int, allowed: bool)
    requires Sound(db, rules) && CreateListing(db, account, character, offer, price, rules, allowed) == Ok(db')
    ensures Sound(db', rules) && Conserves(db, db')
    ensures Pays(db.purse, db'.purse, account, -BpsCeil(price, WithDefaults(rules).depositBps))
  {
    var deposit := BpsCeil(price, WithDefaults(rules).depositBps);
    var paid := SpendTokens(db.purse, account, deposit).value;
    SpendPays(db.purse, account, deposit, paid);
    var db1 := db.(purse := paid.purse);
    PurseSwap(db, rules, paid.purse);
    match offer {
      case OfferEquipment(id) => LockEquipmentKeeps(db1, db', rules, account, character, id, price, deposit);
      case OfferItem(place, slot, quantity) =>
        LockItemKeeps(db1, db', rules, account, character, place, slot, quantity, price, deposit);
    }
    SpendThenLock(db, db1, db', rules, account, deposit);
  }

  // ---------------------------------------------------------------------
  // Delivery, buying, cancelling
  // ---------------------------------------------------------------------

  /** What a listing promised is in the character's bag, and belongs to `owner`. */
  predicate Received(db: Db, l: Listing, owner: nat, character: nat) {
    match l.kind
    case EquipmentAsset =>
      l.asset < |db.equipment| &&
      var e := db.equipment[l.asset];
      e.account == owner && e.character == character && e.place == InBag && e.slot.Some? && e.item == l.item && l.quantity == 1
    case ItemAsset =>
      l.asset < |db.stacks| &&
      var s := db.stacks[l.asset];
      s.character == character && s.place == InBag && s.slot.Some? && s.item == l.item && s.quantity == l.quantity
  }

  predicate Closes(db: Db, db': Db, k: nat, status: ListingStatus) {
    && k < |db.listings| && db.listings[k].status == OnSale && status != OnSale
    && db'.listings == db.listings[k := db.listings[k].(status := status)]
    && db'.slots == db.slots && db'.requests == db.requests && db'.nfts == db.nfts && db'.purse == db.purse
  }

  ghost predicate SalesGrow(db: Db, db': Db) {
    SalesSound(db'.sales, db'.listings) && |db.sales| <= |db'.sales| && db'.sales[..|db.sales|] == db.sales
  }

  /** What closing a listing does besides moving the asset. */
  lemma ListingClosed(db: Db, db': Db, rules: Rules, k: nat, status: ListingStatus)
    requires Priced(db.listings) && WithinCapacity(db.listings, db.slots, rules) && Closes(db, db', k, status) && SalesGrow(db, db')
    ensures Priced(db'.listings) && WithinCapacity(db'.listings, db'.slots, rules) && Extends(db, db')
  {
    CapacityCloses(db.listings, db.slots, rules, k, status);
  }

  lemma DeliverEquipmentKeeps(db: Db, db': Db, k: nat, status: ListingStatus, e: Equipment)
    requires GoodsSound(db) && Closes(db, db', k, status) && db.listings[k].kind == EquipmentAsset
    requires var asset := db.listings[k].asset;
      asset < |db.equipment| && db.equipment[asset].place == Listed && SameMake(db.equipment[asset], e)
      && db'.equipment == db.equipment[asset := e] && db'.stacks == db.stacks
    requires e.place == InBag && e.slot.Some? && Occupants(db, e.character, InBag, e.slot.value) == 0
    ensures GoodsSound(db') && SameGoods(db, db') && Received(db', db.listings[k], e.account, e.character)
  {
    var asset := db.listings[k].asset;
    EquipmentCloses(db.listings, k, status, db.equipment, e);
    EscrowClosesOther(db.listings, k, status, ItemAsset, OfStacks(db.stacks));
    MintEdits(db.requests, db.nfts, db.equipment, |db.purse.balances|, asset, e);
    SlotsEquipmentTo(db, db', asset, e);
  }

  lemma EquipmentCloses(listings: seq<Listing>, k: nat, status: ListingStatus, rows: seq<Equipment>, e: Equipment)
    requires Escrow(listings, EquipmentAsset, OfEquipment(rows)) && k < |listings| && listings[k].status == OnSale
    requires listings[k].kind == EquipmentAsset && status != OnSale && e.place != Listed
    ensures listings[k].asset < |rows|
    ensures Escrow(listings[k := listings[k].(status := status)], EquipmentAsset, OfEquipment(rows[listings[k].asset := e]))
  {
    EscrowCloses(listings, k, status, EquipmentAsset, OfEquipment(rows), EquipmentHolding(e));
    assert OfEquipment(rows[listings[k].asset := e]) == OfEquipment(rows)[listings[k].asset := EquipmentHolding(e)];
  }

  lemma StackCloses(listings: seq<Listing>, k: nat, status: ListingStatus, rows: seq<Stack>, s: Stack)
    requires Escrow(listings, ItemAsset, OfStacks(rows)) && k < |listings| && listings[k].status == OnSale
    requires listings[k].kind == ItemAsset && status != OnSale && s.place != Listed
    ensures listings[k].asset < |rows|
    ensures Escrow(listings[k := listings[k].(status := status)], ItemAsset, OfStacks(rows[listings[k].asset := s]))
  {
    EscrowCloses(listings, k, status, ItemAsset, OfStacks(rows), StackHolding(s));
    assert OfStacks(rows[listings[k].asset := s]) == OfStacks(rows)[listings[k].asset := StackHolding(s)];
  }

  lemma SlotsEquipmentTo(db: Db, db': Db, id: nat, e: Equipment)
    requires SlotsDistinct(db) && id < |db.equipment| && db'.equipment == db.equipment[id := e] && db'.stacks == db.stacks
    requires !Stored(e.place) || e.slot.None? || Occupants(db, e.character, e.place, e.slot.value) == 0
    ensures SlotsDistinct(db')
  {
    SlotsEquipment(db, id, e);
    SlotsSame(db.(equipment := db.equipment[id := e]), db');
  }

  lemma DeliverStackKeeps(db: Db, db': Db, k: nat, status: ListingStatus, owner: nat, s: Stack)
    requires GoodsSound(db) && Closes(db, db', k, status) && db.listings[k].kind == ItemAsset
    requires var asset := db.listings[k].asset;
      asset < |db.stacks| && s.item == db.stacks[asset].item && s.quantity == db.stacks[asset].quantity && s.unbound == db.stacks[asset].unbound
      && db'.stacks == db.stacks[asset := s] && db'.equipment == db.equipment
    requires s.place == InBag && s.slot.Some? && Occupants(db, s.character, InBag, s.slot.value) == 0
    ensures GoodsSound(db') && SameGoods(db, db') && Received(db', db.listings[k], owner, s.character)
  {
    var asset := db.listings[k].asset;
    StackCloses(db.listings, k, status, db.stacks, s);
    EscrowClosesOther(db.listings, k, status, EquipmentAsset, OfEquipment(db.equipment));
    SlotsStackTo(db, db', asset, s);
    QuantityUpdated(db.stacks, asset, s);
  }

  lemma SlotsStackTo(db: Db, db': Db, id: nat, s: Stack)
    requires SlotsDistinct(db) && id < |db.stacks| && db'.stacks == db.stacks[id := s] && db'.equipment == db.equipment
    requires s.slot.Some? && Occupants(db, s.character, s.place, s.slot.value) == 0
    ensures SlotsDistinct(db')
  {
    SlotsStack(db, id, s);
    SlotsSame(db.(stacks := db.stacks[id := s]), db');
  }

  lemma DeliverKeeps(db: Db, db1: Db, db': Db, k: nat, owner: nat, character: nat, status: ListingStatus)
    requires GoodsSound(db) && Closes(db, db', k, status)
    requires DeliverAsset(db, db.listings[k], owner, character) == Ok(db1)
    requires db'.equipment == db1.equipment && db'.stacks == db1.stacks
    ensures GoodsSound(db') && SameGoods(db, db') && Received(db', db.listings[k], owner, character)
  {
    var asset := db.listings[k].asset;
    if db.listings[k].kind == EquipmentAsset {
      DeliverEquipmentKeeps(db, db', k, status, db1.equipment[asset]);
    } else {
      DeliverStackKeeps(db, db', k, status, owner, db1.stacks[asset]);
    }
  }

  lemma CloseKeeps(db: Db, db1: Db, db': Db, rules: Rules, k: nat, owner: nat, character: nat, status: ListingStatus)
    requires Sound(db, rules) && Closes(db, db', k, status) && SalesGrow(db, db')
    requires DeliverAsset(db, db.listings[k], owner, character) == Ok(db1)
    requires db'.equipment == db1.equipment && db'.stacks == db1.stacks
    ensures Sound(db', rules) && SameGoods(db, db') && Extends(db, db') && Received(db', db.listings[k], owner, character)
  {
    DeliverKeeps(db, db1, db', k, owner, character, status);
    ListingClosed(db, db', rules, k, status);
  }

  /** A cancelled listing gives the asset back and moves no tokens. */
  lemma CancelKeeps(db: Db, db': Db, rules: Rules, account: nat, id: nat, allowed: bool)
    requires Sound(db, rules) && Cancel(db, account, id, allowed) == Ok(db')
    ensures Sound(db', rules) && Conserves(db, db') && db'.purse == db.purse
    ensures Received(db', db.listings[id], account, db.listings[id].sellerCharacter)
  {
    var db1 := CancelIs(db, db', account, id, allowed);
    Withdrawn(db, db1, db', rules, id, account, db.listings[id].sellerCharacter);
  }

  lemma CancelIs(db: Db, db': Db, account: nat, id: nat, allowed: bool) returns (db1: Db)
    requires Cancel(db, account, id, allowed) == Ok(db')
    ensures id < |db.listings| && db.listings[id].status == OnSale
    ensures DeliverAsset(db, db.listings[id], account, db.listings[id].sellerCharacter) == Ok(db1)
    ensures db' == db1.(listings := db.listings[id := db.listings[id].(status := Cancelled)])
  {
    db1 := DeliverAsset(db, db.listings[id], account, db.listings[id].sellerCharacter).value;
  }

  lemma Withdrawn(db: Db, db1: Db, db': Db, rules: Rules, id: nat, account: nat, character: nat)
    requires Sound(db, rules) && id < |db.listings| && db.listings[id].status == OnSale
    requires DeliverAsset(db, db.listings[id], account, character) == Ok(db1)
    requires db' == db1.(listings := db.listings[id := db.listings[id].(status := Cancelled)])
    ensures Sound(db', rules) && Conserves(db, db') && Received(db', db.listings[id], account, character)
  {
    SalesCancelled(db.sales, db.listings, id);
    CloseKeeps(db, db1, db', rules, id, account, character, Cancelled);
    CancelConserves(db, db', id);
  }

  lemma CancelConserves(db: Db, db': Db, id: nat)
    requires id < |db.listings| && db.listings[id].status == OnSale && SameGoods(db, db') && Extends(db, db')
    requires db'.listings == db.listings[id := db.listings[id].(status := Cancelled)]
    requires db'.sales == db.sales && db'.requests == db.requests && db'.purse == db.purse
    ensures Conserves(db, db')
  {
    SumUpdate(db.listings, id, db.listings[id].(status := Cancelled), DepositHeld());
  }

  lemma BpsBounds(amount: int, bps: int)
    requires amount > 0
    ensures 0 <= BpsAmount(amount, bps)
    ensures bps <= 10000 ==> BpsAmount(amount, bps) <= amount
    ensures bps > 10000 && amount >= 10000 ==> BpsAmount(amount, bps) > amount
  {
  }

  /** What a purchase does to the purse: the buyer pays the price; the seller, someone
      else, gets the price less the fee and the deposit back. */
  ghost predicate Settles(p: Purse, p': Purse, buyer: nat, seller: nat, price: int, gain: int) {
    && buyer != seller && buyer < |p.balances| == |p'.balances| && seller < |p.balances|
    && (forall a :: 0 <= a < |p.balances| && a != buyer && a != seller ==> p'.balances[a] == p.balances[a])
    && Worth()(p'.balances[buyer]) == Worth()(p.balances[buyer]) - price
    && Worth()(p'.balances[seller]) == Worth()(p.balances[seller]) + gain
    && Sum(p'.balances, Worth()) == Sum(p.balances, Worth()) - price + gain
    && SameGap(p, p')
  }

  lemma PurchaseSettles(p: Purse, p': Purse, l: Listing, s: Sale, unlockAt: int)
    requires PurseSound(p) && SettlePurchase(p, l.seller, s, unlockAt) == Ok(p') && SaleSound(s, l)
    requires unlockAt != 0 && l.deposit >= 0
    ensures PurseSound(p') && Settles(p, p', s.buyer, l.seller, l.price, Max(0, l.price - s.fee) + l.deposit)
  {
    var paid := SettleIs(p, p', l, s, unlockAt);
    SpendPays(p, s.buyer, l.price, paid);
    GrantsPay(paid.purse, l.seller, l.price - s.fee, l.deposit, unlockAt, p');
    TwoPay(p, paid.purse, p', s.buyer, l.seller, l.price, Max(0, l.price - s.fee) + l.deposit);
  }

  lemma SettleIs(p: Purse, p': Purse, l: Listing, s: Sale, unlockAt: int) returns (paid: Spending)
    requires SettlePurchase(p, l.seller, s, unlockAt) == Ok(p') && SaleSound(s, l)
    ensures SpendTokens(p, s.buyer, l.price) == Ok(paid) && l.seller < |paid.purse.balances|
    ensures p' == GrantLocked(GrantLocked(paid.purse, l.seller, l.price - s.fee, unlockAt), l.seller, l.deposit, unlockAt)
  {
    paid := SpendTokens(p, s.buyer, l.price).value;
  }

  lemma GrantsPay(p: Purse, seller: nat, net: int, deposit: int, unlockAt: int, p': Purse)
    requires PurseSound(p) && seller < |p.balances| && unlockAt != 0 && deposit >= 0
    requires p' == GrantLocked(GrantLocked(p, seller, net, unlockAt), seller, deposit, unlockAt)
    ensures PurseSound(p') && Pays(p, p', seller, Max(0, net) + deposit)
  {
    var p1 := GrantLocked(p, seller, net, unlockAt);
    GrantPays(p, seller, net, unlockAt);
    GrantPays(p1, seller, deposit, unlockAt);
    PaysTwice(p, p1, p', seller, Max(0, net), deposit);
  }

  lemma TwoPay(p: Purse, p1: Purse, p2: Purse, buyer: nat, seller: nat, price: int, gain: int)
    requires Pays(p, p1, buyer, -price) && Pays(p1, p2, seller, gain) && buyer != seller
    ensures Settles(p, p2, buyer, seller, price, gain)
  {
    PaysSum(p, p1, buyer, -price);
    PaysSum(p1, p2, seller, gain);
  }

  function FeeOf(rules: Rules, price: int): int { BpsAmount(price, WithDefaults(rules).feeBps) }

  /** The buyer's character holds the asset, the buyer pays the price, the seller gets the price
      less the fee and the deposit, and wealth grows by a fee above the price only. */
  ghost predicate Purchased(db: Db, db': Db, l: Listing, buyer: nat, character: nat, fee: int) {
    && Received(db', l, buyer, character)
    && Settles(db.purse, db'.purse, buyer, l.seller, l.price, Max(0, l.price - fee) + l.deposit)
    && Wealth(db') == Wealth(db) + Max(0, fee - l.price)
  }

  lemma SaleWealth(db: Db, db': Db, s: Sale)
    requires s.listing < |db.listings| && db.listings[s.listing].status == OnSale && db.listings[s.listing].deposit == s.depositReturned
    requires db'.listings == db.listings[s.listing := db.listings[s.listing].(status := Sold)]
    requires db'.sales == db.sales + [s] && db'.requests == db.requests && s.proceeds == s.amount - s.fee
    requires Sum(db'.purse.balances, Worth()) == Sum(db.purse.balances, Worth()) - s.amount + Max(0, s.proceeds) + s.depositReturned
    ensures Wealth(db') == Wealth(db) + Max(0, s.fee - s.amount)
    ensures Wealth(db') - Sum(db'.sales, Unfunded()) == Wealth(db) - Sum(db.sales, Unfunded())
  {
    SumUpdate(db.listings, s.listing, db.listings[s.listing].(status := Sold), DepositHeld());
    SumAppend(db.sales, s, SaleFee());
    SumAppend(db.sales, s, Unfunded());
  }

  lemma SaleRowSound(r: Rules, buyer: nat, id: nat, l: Listing)
    requires l.price > 0 && l.seller != buyer
    ensures SaleSound(SaleRow(r, buyer, id, l), l)
  {
  }

  /** The successful path of a purchase: settle the purse, deliver, record the sale. */
  ghost predicate Bought(db: Db, db': Db, db1: Db, l: Listing, character: nat, s: Sale, unlockAt: int) {
    && s.listing < |db.listings| && db.listings[s.listing] == l && l.status == OnSale && l.seller != s.buyer
    && SettlePurchase(db.purse, l.seller, s, unlockAt) == Ok(db'.purse)
    && DeliverAsset(db.(purse := db'.purse), l, s.buyer, character) == Ok(db1)
    && db' == db1.(listings := db.listings[s.listing := l.(status := Sold)], sales := db.sales + [s])
  }

  lemma BuyIs(db: Db, db': Db, rules: Rules, buyer: nat, character: nat, id: nat, allowed: bool, unlockAt: int) returns (db1: Db, s: Sale)
    requires Buy(db, buyer, character, id, rules, allowed, unlockAt) == Ok(db')
    ensures id < |db.listings| && s == SaleRow(WithDefaults(rules), buyer, id, db.listings[id])
    ensures Bought(db, db', db1, db.listings[id], character, s, unlockAt)
  {
    var l := db.listings[id];
    s := SaleRow(WithDefaults(rules), buyer, id, l);
    var purse := SettlePurchase(db.purse, l.seller, s, unlockAt).value;
    db1 := DeliverAsset(db.(purse := purse), l, buyer, character).value;
  }

  lemma BoughtKeeps(db: Db, db': Db, db1: Db, rules: Rules, l: Listing, character: nat, s: Sale)
    requires Sound(db, rules) && PurseSound(db'.purse) && |db'.purse.balances| == |db.purse.balances|
    requires s.listing < |db.listings| && db.listings[s.listing] == l && l.status == OnSale && SaleSound(s, l)
    requires DeliverAsset(db.(purse := db'.purse), l, s.buyer, character) == Ok(db1)
    requires db' == db1.(listings := db.listings[s.listing := l.(status := Sold)], sales := db.sales + [s])
    ensures Sound(db', rules) && SameGoods(db, db') && Extends(db, db') && Received(db', l, s.buyer, character)
  {
    SalesSold(db.sales, db.listings, s);
    PurseSwap(db, rules, db'.purse);
    CloseKeeps(db.(purse := db'.purse), db1, db', rules, s.listing, s.buyer, character, Sold);
  }

  lemma BoughtConserves(db: Db, db': Db, s: Sale)
    requires SameGoods(db, db') && Extends(db, db') && SameGap(db.purse, db'.purse)
    requires s.listing < |db.listings| && db.listings[s.listing].status == OnSale && SaleSound(s, db.listings[s.listing])
    requires db'.listings == db.listings[s.listing := db.listings[s.listing].(status := Sold)]
    requires db'.sales == db.sales + [s] && db'.requests == db.requests
    requires Sum(db'.purse.balances, Worth()) == Sum(db.purse.balances, Worth()) - s.amount + Max(0, s.amount - s.fee) + s.depositReturned
    ensures Conserves(db, db') && Wealth(db') == Wealth(db) + Max(0, s.fee - s.amount)
  {
    SaleWealth(db, db', s);
  }

  lemma BoughtGoods(db: Db, db': Db, db1: Db, rules: Rules, l: Listing, character: nat, s: Sale, unlockAt: int)
    requires Sound(db, rules) && unlockAt != 0 && Bought(db, db', db1, l, character, s, unlockAt) && SaleSound(s, l)
    ensures Sound(db', rules) && SameGoods(db, db') && Extends(db, db') && Received(db', l, s.buyer, character)
  {
    PurchaseSettles(db.purse, db'.purse, l, s, unlockAt);
    BoughtKeeps(db, db', db1, rules, l, character, s);
  }

  lemma BoughtMoney(db: Db, db': Db, l: Listing, character: nat, s: Sale, unlockAt: int)
    requires PurseSound(db.purse) && unlockAt != 0 && l.deposit >= 0 && SaleSound(s, l)
    requires s.listing < |db.listings| && db.listings[s.listing] == l && l.status == OnSale
    requires SettlePurchase(db.purse, l.seller, s, unlockAt) == Ok(db'.purse)
    requires db'.listings == db.listings[s.listing := l.(status := Sold)] && db'.sales == db.sales + [s] && db'.requests == db.requests
    requires SameGoods(db, db') && Extends(db, db') && Received(db', l, s.buyer, character)
    ensures Conserves(db, db') && Purchased(db, db', l, s.buyer, character, s.fee)
  {
    PurchaseSettles(db.purse, db'.purse, l, s, unlockAt);
    BoughtConserves(db, db', s);
  }

  lemma BoughtAll(db: Db, db': Db, db1: Db, rules: Rules, l: Listing, character: nat, s: Sale, unlockAt: int)
    requires Sound(db, rules) && unlockAt != 0 && Bought(db, db', db1, l, character, s, unlockAt) && SaleSound(s, l)
    ensures Sound(db', rules) && Conserves(db, db') && Purchased(db, db', l, s.buyer, character, s.fee)
  {
    BoughtGoods(db, db', db1, rules, l, character, s, unlockAt);
    BoughtMoney(db, db', l, character, s, unlockAt);
  }

  lemma BuyKeeps(db: Db, db': Db, rules: Rules, buyer: nat, character: nat, id: nat, allowed: bool, unlockAt: int)
    requires Sound(db, rules) && unlockAt != 0 && Buy(db, buyer, character, id, rules, allowed, unlockAt) == Ok(db')
    ensures Sound(db', rules) && Conserves(db, db')
  {
    var db1, s := BuyIs(db, db', rules, buyer, character, id, allowed, unlockAt);
    SaleRowSound(WithDefaults(rules), buyer, id, db.listings[id]);
    BoughtAll(db, db', db1, rules, db.listings[id], character, s, unlockAt);
  }

  /** A purchase moves the asset, the price, the fee and the deposit as promised. */
  lemma BuyMoves(db: Db, db': Db, rules: Rules, buyer: nat, character: nat, id: nat, allowed: bool, unlockAt: int)
    requires Sound(db, rules) && unlockAt != 0 && Buy(db, buyer, character, id, rules, allowed, unlockAt) == Ok(db')
    ensures id < |db.listings| && Purchased(db, db', db.listings[id], buyer, character, FeeOf(rules, db.listings[id].price))
  {
    var db1, s := BuyIs(db, db', rules, buyer, character, id, allowed, unlockAt);
    SaleRowSound(WithDefaults(rules), buyer, id, db.listings[id]);
    BoughtAll(db, db', db1, rules, db.listings[id], character, s, unlockAt);
  }

  // ---------------------------------------------------------------------
  // Minting
  // ---------------------------------------------------------------------

  /** Everything but requests, equipment `id` and the purse stays as it is. */
  ghost predicate MintsOne(db: Db, db': Db, id: nat) {
    && db'.listings == db.listings && db'.stacks == db.stacks && db'.sales == db.sales && db'.slots == db.slots
    && id < |db.equipment| == |db'.equipment| && db'.equipment == db.equipment[id := db'.equipment[id]]
    && db.equipment[id].place != Listed && db'.equipment[id].place != Listed && SameMake(db.equipment[id], db'.equipment[id])
  }

  lemma MintsOneKeeps(db: Db, db': Db, id: nat)
    requires GoodsSound(db) && MintsOne(db, db', id)
    requires var e' := db'.equipment[id];
      !Stored(e'.place) || e'.slot.None? || Occupants(db, e'.character, e'.place, e'.slot.value) == 0
    requires MintSound(db'.requests, db'.nfts, db'.equipment, |db'.purse.balances|)
    ensures GoodsSound(db') && SameGoods(db, db')
  {
    var e' := db'.equipment[id];
    EscrowEdits(db.listings, EquipmentAsset, OfEquipment(db.equipment), id, EquipmentHolding(e'));
    assert OfEquipment(db'.equipment) == OfEquipment(db.equipment)[id := EquipmentHolding(e')];
    SlotsEquipmentTo(db, db', id, e');
  }

  lemma MintFees(db: Db, db': Db, change: int)
    requires db'.listings == db.listings && db'.sales == db.sales
    requires SameGoods(db, db') && Extends(db, db') && SameGap(db.purse, db'.purse)
    requires Sum(db'.purse.balances, Worth()) == Sum(db.purse.balances, Worth()) - change
    requires Sum(db'.requests, MintFeeHeld()) == Sum(db.requests, MintFeeHeld()) + change
    ensures Conserves(db, db')
  {
  }

  lemma MintKeeps(db: Db, db': Db, rules: Rules, account: nat, character: nat, id: nat)
    requires Sound(db, rules) && RequestMint(db, account, character, id, rules) == Ok(db')
    ensures Sound(db', rules) && Conserves(db, db')
  {
    var paid, q := MintIs(db, db', rules, account, character, id);
    Requested(db, db', rules, paid, q);
  }

  lemma MintIs(db: Db, db': Db, rules: Rules, account: nat, character: nat, id: nat) returns (paid: Spending, q: MintRequest)
    requires RequestMint(db, account, character, id, rules) == Ok(db')
    ensures RequestRecorded(db, db', paid, q) && q.account == account && q.equipment == id
  {
    var fee := MintFeeDue(db, account, character, id, rules).value;
    paid := SpendTokens(db.purse, account, fee).value;
    q := MintRequest(account, |db.nfts|, id, fee, paid.spend, Paid);
  }

  /** The tables after a paid request `q` was recorded. */
  ghost predicate RequestRecorded(db: Db, db': Db, paid: Spending, q: MintRequest) {
    && SpendTokens(db.purse, q.account, q.fee) == Ok(paid)
    && q.spend == paid.spend && q.asset == |db.nfts| && q.status == Paid
    && q.equipment < |db.equipment| && db.equipment[q.equipment].account == q.account && Stored(db.equipment[q.equipment].place)
    && db' == db.(purse := paid.purse, nfts := db.nfts + [NftAsset(q.account, q.equipment, MintRequested)], requests := db.requests + [q],
                  equipment := db.equipment[q.equipment := db.equipment[q.equipment].(place := MintPending, slot := None)])
  }

  lemma Requested(db: Db, db': Db, rules: Rules, paid: Spending, q: MintRequest)
    requires Sound(db, rules) && RequestRecorded(db, db', paid, q)
    ensures Sound(db', rules) && Conserves(db, db')
  {
    SpendPays(db.purse, q.account, q.fee, paid);
    MintOpens(db.requests, db.nfts, db.equipment, |db.purse.balances|, q);
    MintsOneKeeps(db, db', q.equipment);
    RequestedConserves(db, db', q);
  }

  lemma RequestedConserves(db: Db, db': Db, q: MintRequest)
    requires Pays(db.purse, db'.purse, q.account, -q.fee) && SameGoods(db, db') && q.status == Paid
    requires db'.requests == db.requests + [q] && db'.listings == db.listings && db'.sales == db.sales
    ensures Conserves(db, db')
  {
    PaysSum(db.purse, db'.purse, q.account, -q.fee);
    SumAppend(db.requests, q, MintFeeHeld());
    MintFees(db, db', q.fee);
  }

  /** A paid request ends with the given equipment row; records and goods agree again. */
  lemma RequestEnds(db: Db, db': Db, id: nat, status: RequestStatus, e: Equipment)
    requires GoodsSound(db) && id < |db.requests| && db.requests[id].status == Paid && status != Paid
    requires var q := db.requests[id];
      q.equipment < |db.equipment| && id < |db.nfts| && SameMake(db.equipment[q.equipment], e)
      && db' == db.(purse := db'.purse, requests := db.requests[id := q.(status := status)],
                    nfts := db.nfts[id := db.nfts[id].(status := NftStatusOf(status))], equipment := db.equipment[q.equipment := e])
    requires status == MintConfirmed ==> e.place == OnChain && e.nft == Some(id)
    requires status == MintCancelled ==> e.place == InBag && e.slot.Some? && Occupants(db, e.character, InBag, e.slot.value) == 0
    requires |db'.purse.balances| == |db.purse.balances|
    ensures GoodsSound(db') && SameGoods(db, db') && Extends(db, db')
  {
    NotMinting(db.requests, db.nfts, db.equipment, |db.purse.balances|, id);
    MintEnds(db.requests, db.nfts, db.equipment, |db.purse.balances|, id, status, e);
    MintsOneKeeps(db, db', db.requests[id].equipment);
    StatusExtends(db, db', id, status);
  }

  lemma StatusExtends(db: Db, db': Db, id: nat, status: RequestStatus)
    requires id < |db.requests| && db.requests[id].status == Paid && db'.listings == db.listings && db'.sales == db.sales
    requires db'.requests == db.requests[id := db.requests[id].(status := status)]
    ensures Extends(db, db')
  {
  }

  /** A request confirmed: only a paid one, with its equipment MINT_PENDING in every sound state. */
  lemma ConfirmMintIs(db: Db, db': Db, id: nat)
    requires GoodsSound(db) && ConfirmMint(db, id) == Ok(db') && db.requests[id].status == Paid
    ensures var q := db.requests[id];
      && q.equipment < |db.equipment| && id < |db.nfts|
      && db' == db.(requests := db.requests[id := q.(status := MintConfirmed)], nfts := db.nfts[id := db.nfts[id].(status := Minted)],
                    equipment := db.equipment[q.equipment := db.equipment[q.equipment].(place := OnChain, nft := Some(id))])
  {
    assert RequestSound(db.requests[id], id, db.nfts[id], db.equipment, |db.purse.balances|);
    NotMinting(db.requests, db.nfts, db.equipment, |db.purse.balances|, id);
  }

  lemma ConfirmMintKeeps(db: Db, db': Db, rules: Rules, id: nat)
    requires Sound(db, rules) && ConfirmMint(db, id) == Ok(db')
    ensures Sound(db', rules) && Conserves(db, db') && db'.purse == db.purse
  {
    var q := db.requests[id];
    if q.status == Paid {
      ConfirmMintIs(db, db', id);
      RequestEnds(db, db', id, MintConfirmed, db'.equipment[q.equipment]);
      ConfirmConserves(db, db', id);
    }
  }

  lemma ConfirmConserves(db: Db, db': Db, id: nat)
    requires id < |db.requests| && db.requests[id].status == Paid && SameGoods(db, db') && Extends(db, db') && OnlyMints(db, db')
    requires db'.requests == db.requests[id := db.requests[id].(status := MintConfirmed)] && db'.purse == db.purse
    ensures Conserves(db, db')
  {
    SumUpdate(db.requests, id, db.requests[id].(status := MintConfirmed), MintFeeHeld());
    MintFees(db, db', 0);
  }

  lemma CancelMintAssets(db: Db, db': Db, account: nat, id: nat)
    requires GoodsSound(db) && CancelMint(db, account, id) == Ok(db') && |db'.purse.balances| == |db.purse.balances|
    ensures GoodsSound(db') && SameGoods(db, db') && Extends(db, db')
  {
    var q := db.requests[id];
    assert RequestSound(q, id, db.nfts[id], db.equipment, |db.purse.balances|);
    NotMinting(db.requests, db.nfts, db.equipment, |db.purse.balances|, id);
    RequestEnds(db, db', id, MintCancelled, db'.equipment[q.equipment]);
  }

  /** `p'` has in each bucket, and at each unlock time, exactly what the spend took back again. */
  ghost predicate GivesBack(p: Purse, p': Purse, account: nat, fee: int, s: Spend) {
    Moves(p, p', account, s.locked, s.withdrawable, s.external, fee, s.segments, 1)
  }

  /** `p'` lacks in each bucket, and at each unlock time, exactly what the spend records. */
  ghost predicate TakesAway(p: Purse, p': Purse, account: nat, fee: int, s: Spend) {
    Moves(p, p', account, -s.locked, -s.withdrawable, -s.external, -fee, s.segments, -1)
  }

  /** In a sound state the refund of a paid request cannot fail. */
  lemma CancelMintKeeps(db: Db, db': Db, rules: Rules, account: nat, id: nat)
    requires Sound(db, rules) && CancelMint(db, account, id) == Ok(db')
    ensures Sound(db', rules) && Conserves(db, db')
    ensures GivesBack(db.purse, db'.purse, account, db.requests[id].fee, db.requests[id].spend)
  {
    var q := db.requests[id];
    assert RequestSound(q, id, db.nfts[id], db.equipment, |db.purse.balances|);
    RefundReturns(db.purse, account, q.fee, q.spend);
    CancelMintAssets(db, db', account, id);
    CancelMintConserves(db, db', account, id);
  }

  lemma CancelMintConserves(db: Db, db': Db, account: nat, id: nat)
    requires id < |db.requests| && db.requests[id].status == Paid && SpendSound(db.requests[id].spend, db.requests[id].fee)
    requires GivesBack(db.purse, db'.purse, account, db.requests[id].fee, db.requests[id].spend)
    requires SameGoods(db, db') && Extends(db, db') && OnlyMints(db, db')
    requires db'.requests == db.requests[id := db.requests[id].(status := MintCancelled)]
    ensures Conserves(db, db')
  {
    var q := db.requests[id];
    PaysSum(db.purse, db'.purse, account, q.fee);
    SumUpdate(db.requests, id, q.(status := MintCancelled), MintFeeHeld());
    MintFees(db, db', -q.fee);
  }

  // ---------------------------------------------------------------------
  // Runs
  // ---------------------------------------------------------------------

  lemma MarketStepKeeps(db: Db, db': Db, rules: Rules, step: Step)
    requires Sound(db, rules) && Attempt(db, rules, step) == Ok(db') && (step.ListStep? || step.BuyStep? || step.CancelStep?)
    ensures Sound(db', rules) && Conserves(db, db')
  {
    match step {
      case ListStep(account, character, offer, price, allowed) => ListKeeps(db, db', rules, account, character, offer, price, allowed);
      case BuyStep(account, character, id, allowed, unlockAt) => BuyKeeps(db, db', rules, account, character, id, allowed, unlockAt);
      case CancelStep(account, id, allowed) => CancelKeeps(db, db', rules, account, id, allowed);
    }
  }

  lemma MintStepKeeps(db: Db, db': Db, rules: Rules, step: Step)
    requires Sound(db, rules) && Attempt(db, rules, step) == Ok(db') && (step.MintStep? || step.ConfirmMintStep? || step.CancelMintStep?)
    ensures Sound(db', rules) && Conserves(db, db')
  {
    match step {
      case MintStep(account, character, equipment) => MintKeeps(db, db', rules, account, character, equipment);
      case ConfirmMintStep(id) => ConfirmMintKeeps(db, db', rules, id);
      case CancelMintStep(account, id) => CancelMintKeeps(db, db', rules, account, id);
    }
  }

  lemma WidenStepKeeps(db: Db, db': Db, rules: Rules, step: Step)
    requires Sound(db, rules) && step.WidenStep? && Attempt(db, rules, step) == Ok(db')
    ensures Sound(db', rules) && Conserves(db, db')
  {
    CapacityWidens(db.listings, db.slots, rules, step.account, step.more);
    OnlySlots(db, db');
  }

  lemma OnlySlots(db: Db, db': Db)
    requires GoodsSound(db) && db' == db.(slots := db'.slots)
    ensures GoodsSound(db') && Conserves(db, db')
  {
    SlotsSame(db, db');
  }

  lemma AttemptKeeps(db: Db, db': Db, rules: Rules, step: Step)
    requires Sound(db, rules) && Attempt(db, rules, step) == Ok(db')
    ensures Sound(db', rules) && Conserves(db, db')
  {
    if step.ListStep? || step.BuyStep? || step.CancelStep? {
      MarketStepKeeps(db, db', rules, step);
    } else if step.WidenStep? {
      WidenStepKeeps(db, db', rules, step);
    } else {
      MintStepKeeps(db, db', rules, step);
    }
  }

  lemma StepKeeps(db: Db, rules: Rules, step: Step)
    requires Sound(db, rules)
    ensures Sound(Apply(db, rules, step), rules) && Conserves(db, Apply(db, rules, step))
  {
    var r := Attempt(db, rules, step);
    if r.Ok? { AttemptKeeps(db, r.value, rules, step); }
  }

  /** Over every run: escrow and minting agree with their records, bag slots stay
      distinct, listings stay within capacity, and wealth and goods are conserved. */
  lemma {:induction false} RunKeeps(db: Db, rules: Rules, steps: seq<Step>)
    requires Sound(db, rules)
    ensures Sound(Run(db, rules, steps), rules) && Conserves(db, Run(db, rules, steps))
  {
    if |steps| > 0 {
      var n := |steps| - 1;
      var mid := Run(db, rules, steps[..n]);
      RunKeeps(db, rules, steps[..n]);
      StepKeeps(mid, rules, steps[n]);
      ConservesTrans(db, mid, Run(db, rules, steps));
    }
  }

  lemma UnfundedIsZeroIff(sales: seq<Sale>)
    ensures Sum(sales, Unfunded()) == 0 <==> forall i :: 0 <= i < |sales| ==> sales[i].fee <= sales[i].amount
  {
    if Sum(sales, Unfunded()) != 0 {
      var i := SumWitness(sales, Unfunded());
    } else {
      forall i | 0 <= i < |sales| ensures sales[i].fee <= sales[i].amount {
        SumOneRow(sales, i, Unfunded());
      }
    }
  }

  lemma ConservedIff(db: Db, db': Db)
    requires Conserves(db, db')
    ensures Wealth(db') == Wealth(db) <==> forall i :: |db.sales| <= i < |db'.sales| ==> db'.sales[i].fee <= db'.sales[i].amount
  {
    var added := db'.sales[|db.sales|..];
    assert db'.sales == db.sales + added;
    SumConcat(db.sales, added, Unfunded());
    UnfundedIsZeroIff(added);
    assert forall i :: |db.sales| <= i < |db'.sales| ==> db'.sales[i] == added[i - |db.sales|];
  }

  /** Tokens are conserved by a run exactly when no sale in it had a fee above its price. */
  lemma WealthConservedIff(db: Db, db': Db, rules: Rules, steps: seq<Step>)
    requires Sound(db, rules) && db' == Run(db, rules, steps)
    ensures Wealth(db') == Wealth(db) <==> forall i :: |db.sales| <= i < |db'.sales| ==> db'.sales[i].fee <= db'.sales[i].amount
  {
    RunKeeps(db, rules, steps);
    ConservedIff(db, db');
  }
}
