/** What every run of listing, buying, cancelling and minting keeps: assets in
    escrow agree with live records, tokens and items are conserved, bag slots
    hold one thing each, and finished records never change. */
module EconomyProofs {
  import opened Basics
  import opened Tokens
  import opened Economy

  // ---------------------------------------------------------------------
  // Escrow: an asset is LISTED exactly when one live listing names it
  // ---------------------------------------------------------------------

  /** What a listing must agree with, of equipment or of a stack. */
  datatype Holding = Holding(listed: bool, item: string, quantity: int, unbound: bool, owner: Option<nat>)

  function EquipmentHolding(e: Equipment): Holding { Holding(e.place == Listed, e.item, 1, e.unbound, Some(e.account)) }

  function StackHolding(s: Stack): Holding { Holding(s.place == Listed, s.item, s.quantity, s.unbound, None) }

  function Holdings<T>(rows: seq<T>, f: T -> Holding): (hs: seq<Holding>)
    ensures |hs| == |rows| && forall i :: 0 <= i < |rows| ==> hs[i] == f(rows[i])
  {
    seq(|rows|, i requires 0 <= i < |rows| => f(rows[i]))
  }

  function OfEquipment(rows: seq<Equipment>): seq<Holding> { Holdings(rows, EquipmentHolding) }

  function OfStacks(rows: seq<Stack>): seq<Holding> { Holdings(rows, StackHolding) }

  function Names(kind: AssetKind, asset: nat): Listing -> int {
    (l: Listing) => Indicator(l.status == OnSale && l.kind == kind && l.asset == asset)
  }

  predicate Backs(h: Holding, l: Listing) {
    h.listed && h.unbound && h.item == l.item && h.quantity == l.quantity && (h.owner.Some? ==> h.owner.value == l.seller)
  }

  ghost predicate Escrow(listings: seq<Listing>, kind: AssetKind, hs: seq<Holding>) {
    && (forall i: nat :: i < |hs| ==> Sum(listings, Names(kind, i)) == Indicator(hs[i].listed))
    && (forall k :: 0 <= k < |listings| && listings[k].status == OnSale && listings[k].kind == kind ==>
          listings[k].asset < |hs| && Backs(hs[listings[k].asset], listings[k]))
  }

  /** A new listing of an asset that was not listed. */
  lemma EscrowOpens(listings: seq<Listing>, l: Listing, kind: AssetKind, hs: seq<Holding>, h: Holding)
    requires Escrow(listings, kind, hs) && l.status == OnSale && l.kind == kind && l.asset < |hs|
    requires !hs[l.asset].listed && Backs(h, l)
    ensures Escrow(listings + [l], kind, hs[l.asset := h])
  {
  }

  /** A new asset row, listed or not yet. */
  lemma EscrowGrows(listings: seq<Listing>, kind: AssetKind, hs: seq<Holding>, h: Holding)
    requires Escrow(listings, kind, hs) && !h.listed
    ensures Escrow(listings, kind, hs + [h])
  {
    if Sum(listings, Names(kind, |hs|)) != 0 {
      var k := SumWitness(listings, Names(kind, |hs|));
    }
  }

  /** A listing of the other kind. */
  lemma EscrowOpensOther(listings: seq<Listing>, l: Listing, kind: AssetKind, hs: seq<Holding>)
    requires Escrow(listings, kind, hs) && l.kind != kind
    ensures Escrow(listings + [l], kind, hs)
  {
  }

  /** A live listing is closed and its asset delivered. */
  lemma EscrowCloses(listings: seq<Listing>, k: nat, status: ListingStatus, kind: AssetKind, hs: seq<Holding>, h: Holding)
    requires Escrow(listings, kind, hs) && k < |listings| && listings[k].status == OnSale && listings[k].kind == kind
    requires status != OnSale && !h.listed
    ensures Escrow(listings[k := listings[k].(status := status)], kind, hs[listings[k].asset := h])
  {
    var asset := listings[k].asset;
    var l' := listings[k].(status := status);
    forall i: nat | i < |hs| ensures Sum(listings[k := l'], Names(kind, i)) == Indicator(hs[asset := h][i].listed) {
      SumUpdate(listings, k, l', Names(kind, i));
    }
    forall j: nat | j < |listings| && j != k && listings[j].status == OnSale && listings[j].kind == kind
      ensures listings[j].asset != asset
    {
      SumTwoRows(listings, if j < k then j else k, if j < k then k else j, Names(kind, asset));
    }
  }

  lemma EscrowClosesOther(listings: seq<Listing>, k: nat, status: ListingStatus, kind: AssetKind, hs: seq<Holding>)
    requires Escrow(listings, kind, hs) && k < |listings| && listings[k].kind != kind && status != OnSale
    ensures Escrow(listings[k := listings[k].(status := status)], kind, hs)
  {
    var l' := listings[k].(status := status);
    forall i: nat | i < |hs| ensures Sum(listings[k := l'], Names(kind, i)) == Indicator(hs[i].listed) {
      SumUpdate(listings, k, l', Names(kind, i));
    }
  }

  /** An unlisted asset changes otherwise: no live listing names it. */
  lemma EscrowEdits(listings: seq<Listing>, kind: AssetKind, hs: seq<Holding>, i: nat, h: Holding)
    requires Escrow(listings, kind, hs) && i < |hs| && !hs[i].listed && !h.listed
    ensures Escrow(listings, kind, hs[i := h])
  {
  }

  // ---------------------------------------------------------------------
  // Minting: locations agree with requests, requests with NFT records
  // ---------------------------------------------------------------------

  function RequestIs(equipment: nat, status: RequestStatus): MintRequest -> int {
    (q: MintRequest) => Indicator(q.equipment == equipment && q.status == status)
  }

  function NftStatusOf(status: RequestStatus): NftStatus {
    match status
    case Paid => MintRequested
    case MintConfirmed => Minted
    case MintCancelled => NftCancelled
  }

  ghost predicate RequestSound(q: MintRequest, id: nat, n: NftAsset, equipment: seq<Equipment>, accounts: nat) {
    && q.asset == id && q.account < accounts && q.equipment < |equipment|
    && n == NftAsset(q.account, q.equipment, NftStatusOf(q.status))
    && SpendSound(q.spend, q.fee)
    && (q.status == Paid ==> equipment[q.equipment].account == q.account)
    && (q.status == MintConfirmed ==> equipment[q.equipment].nft == Some(id))
  }

  ghost predicate MintSound(requests: seq<MintRequest>, nfts: seq<NftAsset>, equipment: seq<Equipment>, accounts: nat) {
    && |nfts| == |requests|
    && (forall i: nat :: i < |requests| ==> RequestSound(requests[i], i, nfts[i], equipment, accounts))
    && (forall e: nat :: e < |equipment| ==>
          && Sum(requests, RequestIs(e, Paid)) == Indicator(equipment[e].place == MintPending)
          && Sum(requests, RequestIs(e, MintConfirmed)) == Indicator(equipment[e].place == OnChain))
  }

  /** Live NFT records are exactly the paid and the confirmed requests. */
  lemma {:induction false} LiveNftsAreRequests(requests: seq<MintRequest>, nfts: seq<NftAsset>, e: nat)
    requires |nfts| == |requests|
    requires forall i :: 0 <= i < |requests| ==>
      nfts[i].equipment == requests[i].equipment && nfts[i].status == NftStatusOf(requests[i].status)
    ensures Sum(nfts, LiveNft(e)) == Sum(requests, RequestIs(e, Paid)) + Sum(requests, RequestIs(e, MintConfirmed))
  {
    if |nfts| > 0 {
      var n := |nfts| - 1;
      LiveNftsAreRequests(requests[..n], nfts[..n], e);
    }
  }

  /** Each equipment has at most one live NFT record, and has one exactly while it is
      MINT_PENDING or ON_CHAIN. */
  lemma OneLiveNft(db: Db, e: nat)
    requires MintSound(db.requests, db.nfts, db.equipment, |db.purse.balances|) && e < |db.equipment|
    ensures Sum(db.nfts, LiveNft(e)) == Indicator(db.equipment[e].place == MintPending || db.equipment[e].place == OnChain)
  {
    forall i: nat | i < |db.requests|
      ensures db.nfts[i].equipment == db.requests[i].equipment && db.nfts[i].status == NftStatusOf(db.requests[i].status)
    {
      assert RequestSound(db.requests[i], i, db.nfts[i], db.equipment, |db.purse.balances|);
    }
    LiveNftsAreRequests(db.requests, db.nfts, e);
  }

  predicate Minting(p: Place) { p == MintPending || p == OnChain }

  /** No paid or confirmed request names equipment that is not in minting. */
  lemma NotMinting(requests: seq<MintRequest>, nfts: seq<NftAsset>, equipment: seq<Equipment>, accounts: nat, i: nat)
    requires MintSound(requests, nfts, equipment, accounts) && i < |requests| && requests[i].status != MintCancelled
    ensures equipment[requests[i].equipment].place == if requests[i].status == Paid then MintPending else OnChain
  {
    assert RequestSound(requests[i], i, nfts[i], equipment, accounts);
    SumOneRow(requests, i, RequestIs(requests[i].equipment, requests[i].status));
  }

  /** Equipment outside minting moves about: requests are not concerned. */
  lemma MintEdits(requests: seq<MintRequest>, nfts: seq<NftAsset>, equipment: seq<Equipment>, accounts: nat, id: nat, e: Equipment)
    requires MintSound(requests, nfts, equipment, accounts) && id < |equipment|
    requires !Minting(equipment[id].place) && !Minting(e.place)
    ensures MintSound(requests, nfts, equipment[id := e], accounts)
  {
    forall i: nat | i < |requests| ensures RequestSound(requests[i], i, nfts[i], equipment[id := e], accounts) {
      assert RequestSound(requests[i], i, nfts[i], equipment, accounts);
      if requests[i].status != MintCancelled { NotMinting(requests, nfts, equipment, accounts, i); }
    }
  }

  lemma MintOpens(requests: seq<MintRequest>, nfts: seq<NftAsset>, equipment: seq<Equipment>, accounts: nat, q: MintRequest)
    requires MintSound(requests, nfts, equipment, accounts) && q.equipment < |equipment| && !Minting(equipment[q.equipment].place)
    requires q.asset == |requests| && q.status == Paid && q.account == equipment[q.equipment].account < accounts && SpendSound(q.spend, q.fee)
    ensures MintSound(requests + [q], nfts + [NftAsset(q.account, q.equipment, MintRequested)],
                      equipment[q.equipment := equipment[q.equipment].(place := MintPending, slot := None)], accounts)
  {
    var equipment' := equipment[q.equipment := equipment[q.equipment].(place := MintPending, slot := None)];
    forall i: nat | i < |requests| ensures RequestSound(requests[i], i, nfts[i], equipment', accounts) {
      assert RequestSound(requests[i], i, nfts[i], equipment, accounts);
    }
    forall e: nat | e < |equipment|
      ensures Sum(requests + [q], RequestIs(e, Paid)) == Indicator(equipment'[e].place == MintPending)
      ensures Sum(requests + [q], RequestIs(e, MintConfirmed)) == Indicator(equipment'[e].place == OnChain)
    {
      SumAppend(requests, q, RequestIs(e, Paid));
      SumAppend(requests, q, RequestIs(e, MintConfirmed));
    }
  }

  /** A paid request ends: confirmed with the equipment on chain, or cancelled with it out of minting. */
  lemma MintEnds(requests: seq<MintRequest>, nfts: seq<NftAsset>, equipment: seq<Equipment>, accounts: nat,
                 id: nat, status: RequestStatus, e: Equipment)
    requires MintSound(requests, nfts, equipment, accounts) && id < |requests| && requests[id].status == Paid && status != Paid
    requires status == MintConfirmed ==> e.place == OnChain && e.nft == Some(id)
    requires status == MintCancelled ==> !Minting(e.place)
    ensures MintSound(requests[id := requests[id].(status := status)], nfts[id := nfts[id].(status := NftStatusOf(status))],
                      equipment[requests[id].equipment := e], accounts)
  {
    var q := requests[id];
    var q' := q.(status := status);
    assert RequestSound(q, id, nfts[id], equipment, accounts);
    NotMinting(requests, nfts, equipment, accounts, id);
    var equipment' := equipment[q.equipment := e];
    var requests' := requests[id := q'];
    var nfts' := nfts[id := nfts[id].(status := NftStatusOf(status))];
    forall i: nat | i < |requests| ensures RequestSound(requests'[i], i, nfts'[i], equipment', accounts)
    {
      assert RequestSound(requests[i], i, nfts[i], equipment, accounts);
      if i != id && requests[i].equipment == q.equipment && requests[i].status != MintCancelled {
        NotMinting(requests, nfts, equipment, accounts, i);
        SumTwoRows(requests, if i < id then i else id, if i < id then id else i, RequestIs(q.equipment, Paid));
      }
    }
    forall x: nat | x < |equipment|
      ensures Sum(requests[id := q'], RequestIs(x, Paid)) == Indicator(equipment'[x].place == MintPending)
      ensures Sum(requests[id := q'], RequestIs(x, MintConfirmed)) == Indicator(equipment'[x].place == OnChain)
    {
      SumUpdate(requests, id, q', RequestIs(x, Paid));
      SumUpdate(requests, id, q', RequestIs(x, MintConfirmed));
    }
  }

  // ---------------------------------------------------------------------
  // Bag and warehouse slots, stack quantities
  // ---------------------------------------------------------------------

  predicate Stored(p: Place) { p == InBag || p == InWarehouse }

  ghost predicate SlotsDistinct(db: Db) {
    forall c: nat, p: Place, slot: nat :: Stored(p) ==> Occupants(db, c, p, slot) <= 1
  }

  lemma OccupantsEquipment(db: Db, id: nat, e: Equipment, c: nat, p: Place, slot: nat)
    requires id < |db.equipment|
    ensures Occupants(db.(equipment := db.equipment[id := e]), c, p, slot) ==
      Occupants(db, c, p, slot) - EquipmentIn(c, p, slot)(db.equipment[id]) + EquipmentIn(c, p, slot)(e)
  {
    SumUpdate(db.equipment, id, e, EquipmentIn(c, p, slot));
  }

  lemma OccupantsStack(db: Db, id: nat, s: Stack, c: nat, p: Place, slot: nat)
    requires id < |db.stacks|
    ensures Occupants(db.(stacks := db.stacks[id := s]), c, p, slot) ==
      Occupants(db, c, p, slot) - StackIn(c, p, slot)(db.stacks[id]) + StackIn(c, p, slot)(s)
  {
    SumUpdate(db.stacks, id, s, StackIn(c, p, slot));
  }

  /** Moving equipment out of storage, or into a free slot, keeps slots distinct. */
  lemma SlotsEquipment(db: Db, id: nat, e: Equipment)
    requires SlotsDistinct(db) && id < |db.equipment|
    requires !Stored(e.place) || e.slot.None? || Occupants(db, e.character, e.place, e.slot.value) == 0
    ensures SlotsDistinct(db.(equipment := db.equipment[id := e]))
  {
    var db' := db.(equipment := db.equipment[id := e]);
    forall c: nat, p: Place, slot: nat | Stored(p) ensures Occupants(db', c, p, slot) <= 1 {
      OccupantsEquipment(db, id, e, c, p, slot);
    }
  }

  lemma SlotsStack(db: Db, id: nat, s: Stack)
    requires SlotsDistinct(db) && id < |db.stacks|
    requires || !Stored(s.place) || s.slot.None? || Occupants(db, s.character, s.place, s.slot.value) == 0
             || s == db.stacks[id].(quantity := s.quantity)
    ensures SlotsDistinct(db.(stacks := db.stacks[id := s]))
  {
    var db' := db.(stacks := db.stacks[id := s]);
    forall c: nat, p: Place, slot: nat | Stored(p) ensures Occupants(db', c, p, slot) <= 1 {
      OccupantsStack(db, id, s, c, p, slot);
    }
  }

  lemma SlotsNewStack(db: Db, s: Stack)
    requires SlotsDistinct(db) && s.slot.None?
    ensures SlotsDistinct(db.(stacks := db.stacks + [s]))
  {
    var db' := db.(stacks := db.stacks + [s]);
    forall c: nat, p: Place, slot: nat | Stored(p) ensures Occupants(db', c, p, slot) <= 1 {
      assert Occupants(db, c, p, slot) <= 1;
      SumAppend(db.stacks, s, StackIn(c, p, slot));
    }
  }

  predicate Stocked(stacks: seq<Stack>) { forall i :: 0 <= i < |stacks| ==> stacks[i].quantity > 0 }

  // ---------------------------------------------------------------------
  // Sales and capacity
  // ---------------------------------------------------------------------

  function SaleOf(listing: nat): Sale -> int { (s: Sale) => Indicator(s.listing == listing) }

  predicate SaleSound(s: Sale, l: Listing) {
    && s.amount == l.price && s.depositReturned == l.deposit && s.fee >= 0 && s.proceeds + s.fee == s.amount
    && s.rewards >= 0 && s.burn + s.treasury + s.rewards >= s.fee && s.buyer != l.seller
  }

  /** A listing is SOLD exactly when one order names it, with the listing's price and deposit. */
  ghost predicate SalesSound(sales: seq<Sale>, listings: seq<Listing>) {
    && (forall k: nat :: k < |listings| ==> Sum(sales, SaleOf(k)) == Indicator(listings[k].status == Sold))
    && (forall i :: 0 <= i < |sales| ==> sales[i].listing < |listings| && SaleSound(sales[i], listings[sales[i].listing]))
  }

  predicate Priced(listings: seq<Listing>) { forall k :: 0 <= k < |listings| ==> listings[k].price > 0 && listings[k].deposit >= 0 }

  lemma SalesListing(sales: seq<Sale>, listings: seq<Listing>, l: Listing)
    requires SalesSound(sales, listings) && l.status == OnSale
    ensures SalesSound(sales, listings + [l])
  {
    if Sum(sales, SaleOf(|listings|)) != 0 {
      var i := SumWitness(sales, SaleOf(|listings|));
    }
  }

  lemma SalesCancelled(sales: seq<Sale>, listings: seq<Listing>, k: nat)
    requires SalesSound(sales, listings) && k < |listings| && listings[k].status == OnSale
    ensures SalesSound(sales, listings[k := listings[k].(status := Cancelled)])
  {
  }

  lemma SalesSold(sales: seq<Sale>, listings: seq<Listing>, s: Sale)
    requires SalesSound(sales, listings) && s.listing < |listings| && listings[s.listing].status == OnSale
    requires SaleSound(s, listings[s.listing])
    ensures SalesSound(sales + [s], listings[s.listing := listings[s.listing].(status := Sold)])
  {
  }

  ghost predicate WithinCapacity(listings: seq<Listing>, slots: seq<Slots>, rules: Rules) {
    forall a: nat :: a < |slots| ==> Sum(listings, ActiveOf(a)) <= SlotCapacity(WithDefaults(rules), slots[a])
  }

  lemma CapacityOpens(listings: seq<Listing>, slots: seq<Slots>, rules: Rules, l: Listing)
    requires WithinCapacity(listings, slots, rules) && l.seller < |slots|
    requires Sum(listings, ActiveOf(l.seller)) < SlotCapacity(WithDefaults(rules), slots[l.seller])
    ensures WithinCapacity(listings + [l], slots, rules)
  {
  }

  lemma CapacityCloses(listings: seq<Listing>, slots: seq<Slots>, rules: Rules, k: nat, status: ListingStatus)
    requires WithinCapacity(listings, slots, rules) && k < |listings| && status != OnSale
    ensures WithinCapacity(listings[k := listings[k].(status := status)], slots, rules)
  {
    forall a: nat | a < |slots|
      ensures Sum(listings[k := listings[k].(status := status)], ActiveOf(a)) <= SlotCapacity(WithDefaults(rules), slots[a])
    {
      SumUpdate(listings, k, listings[k].(status := status), ActiveOf(a));
    }
  }

  lemma CapacityWidens(listings: seq<Listing>, slots: seq<Slots>, rules: Rules, a: nat, more: Slots)
    requires WithinCapacity(listings, slots, rules) && a < |slots|
    ensures WithinCapacity(listings, slots[a := Slots(slots[a].material + more.material, slots[a].wallet + more.wallet)], rules)
  {
    var r := WithDefaults(rules);
    assert (slots[a].material + more.material) * r.materialSlots >= slots[a].material * r.materialSlots;
    assert (slots[a].wallet + more.wallet) * r.walletSlots >= slots[a].wallet * r.walletSlots;
  }

  // ---------------------------------------------------------------------
  // The whole invariant
  // ---------------------------------------------------------------------

  /** Escrow, minting, slots and stacks agree with their records. */
  ghost predicate GoodsSound(db: Db) {
    && Escrow(db.listings, EquipmentAsset, OfEquipment(db.equipment))
    && Escrow(db.listings, ItemAsset, OfStacks(db.stacks))
    && MintSound(db.requests, db.nfts, db.equipment, |db.purse.balances|)
    && SlotsDistinct(db)
    && Stocked(db.stacks)
  }

  ghost predicate Sound(db: Db, rules: Rules) {
    && PurseSound(db.purse) && GoodsSound(db)
    && SalesSound(db.sales, db.listings) && Priced(db.listings)
    && WithinCapacity(db.listings, db.slots, rules)
  }
}
