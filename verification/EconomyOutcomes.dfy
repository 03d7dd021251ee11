/** What each transaction of the marketplace and of minting writes, exactly: which row, at which
    price, with which fees, into which slot, and that nothing else is written. */
module EconomyOutcomes {
  import opened Basics
  import opened Tokens
  import opened Economy
  import opened EconomyProofs
  import opened EconomyRuns
  import opened EconomyTheorems

  // ---------------------------------------------------------------------
  // Rounding, the mint fee, the free slot
  // ---------------------------------------------------------------------

  /** Fees are rounded down, deposits up, and a deposit is at least 1. */
  lemma BpsRounds(amount: int, bps: int)
    ensures amount > 0 && bps > 0 ==>
      && 10000 * BpsAmount(amount, bps) <= amount * bps < 10000 * (BpsAmount(amount, bps) + 1)
      && 10000 * (BpsCeil(amount, bps) - 1) < amount * bps <= 10000 * BpsCeil(amount, bps) && BpsCeil(amount, bps) >= 1
    ensures amount <= 0 || bps <= 0 ==> BpsAmount(amount, bps) == BpsCeil(amount, bps) == 0
  {
    if amount > 0 && bps > 0 { RoundedCeil(amount * bps); }
  }

  lemma RoundedCeil(n: int)
    requires n > 0
    ensures var up := (n + 9999) / 10000; 10000 * (up - 1) < n <= 10000 * up && up >= 1
  {
  }

  /** The mint fee is the one of the highest rarity, not above the equipment's, that has one. */
  lemma {:induction false} FeeUpToIs(fees: map<int, int>, minRarity: int, rarity: int, r: int)
    requires minRarity <= r <= rarity && r in fees && fees[r] > 0
    requires forall h :: h in fees && r < h <= rarity ==> fees[h] <= 0
    ensures FeeUpTo(fees, minRarity, rarity) == fees[r]
    decreases rarity - minRarity
  {
    if r < rarity { FeeUpToIs(fees, minRarity, rarity - 1, r); }
  }

  /** Without one there is no fee, and minting is refused. */
  lemma {:induction false} NoFeeUpTo(fees: map<int, int>, minRarity: int, rarity: int)
    requires forall h :: h in fees && minRarity <= h <= rarity ==> fees[h] <= 0
    ensures FeeUpTo(fees, minRarity, rarity) == 0
    decreases rarity - minRarity
  {
    if rarity >= minRarity { NoFeeUpTo(fees, minRarity, rarity - 1); }
  }

  /** Slot `slot` of the bag, below 1000, is held by nothing, and every lower one by something. */
  ghost predicate LowestFree(db: Db, character: nat, slot: nat) {
    && slot < 1000 && Occupants(db, character, InBag, slot) == 0
    && forall lower: nat :: lower < slot ==> Occupants(db, character, InBag, lower) != 0
  }

  lemma {:induction false} LowestExists(db: Db, character: nat, slot: nat) returns (lowest: nat)
    requires slot < 1000 && Occupants(db, character, InBag, slot) == 0
    ensures LowestFree(db, character, lowest)
  {
    if lower: nat :| lower < slot && Occupants(db, character, InBag, lower) == 0 {
      lowest := LowestExists(db, character, lower);
    } else {
      lowest := slot;
    }
  }

  /** The slot found is the lowest free one; none is found exactly when all 1000 are held. */
  lemma FreeSlotIs(db: Db, character: nat)
    ensures var r := FreeSlot(db, character);
      && (r.Ok? ==> LowestFree(db, character, r.value))
      && (r.Ok? <==> exists slot: nat :: slot < 1000 && Occupants(db, character, InBag, slot) == 0)
  {
    if slot: nat :| slot < 1000 && Occupants(db, character, InBag, slot) == 0 {
      var lowest := LowestExists(db, character, slot);
      assert FirstFree(db, character, lowest);
    }
  }

  // ---------------------------------------------------------------------
  // Listing
  // ---------------------------------------------------------------------

  /** Stack `i` is the one in the slot, and gives the quantity to the asset of the listing. */
  predicate StackOffered(db: Db, db': Db, l: Listing, i: nat, character: nat, place: Place, slot: nat, quantity: int) {
    && i < |db.stacks| && db.stacks[i].character == character && db.stacks[i].place == place && db.stacks[i].slot == Some(slot)
    && l.item == db.stacks[i].item && 0 < quantity <= db.stacks[i].quantity
    && if quantity == db.stacks[i].quantity
       then l.asset == i && db'.stacks == db.stacks[i := db.stacks[i].(place := Listed, slot := None)]
       else l.asset == |db.stacks| && db'.stacks == db.stacks[i := db.stacks[i].(quantity := db.stacks[i].quantity - quantity)]
                                                    + [Stack(character, l.item, quantity, Listed, None, true)]
  }

  /** The listing names what was offered, which is in escrow now; no other asset was touched. */
  ghost predicate Offers(db: Db, db': Db, l: Listing, character: nat, offer: Offer) {
    match offer
    case OfferEquipment(id) =>
      && id < |db.equipment| && l.kind == EquipmentAsset && l.asset == id && l.item == db.equipment[id].item && l.quantity == 1
      && db'.equipment == db.equipment[id := db.equipment[id].(place := Listed, slot := None)] && db'.stacks == db.stacks
    case OfferItem(place, slot, quantity) =>
      && l.kind == ItemAsset && l.quantity == quantity && db'.equipment == db.equipment
      && exists i :: StackOffered(db, db', l, i, character, place, slot, quantity)
  }

  lemma LockItemOutcome(db: Db, db': Db, account: nat, character: nat, place: Place, slot: nat, quantity: int, price: int, deposit: int) returns (l: Listing)
    requires LockItem(db, account, character, place, slot, quantity, price, deposit) == Ok(db')
    ensures db'.listings == db.listings + [l] && Offers(db, db', l, character, OfferItem(place, slot, quantity))
    ensures l.seller == account && l.sellerCharacter == character && l.price == price && l.deposit == deposit && l.status == OnSale
  {
    var i := FindStack(db.stacks, character, place, slot).value;
    l := db'.listings[|db.listings|];
    assert StackOffered(db, db', l, i, character, place, slot, quantity);
  }

  lemma LockEquipmentOutcome(db: Db, db': Db, account: nat, character: nat, id: nat, price: int, deposit: int) returns (l: Listing)
    requires LockEquipment(db, account, character, id, price, deposit) == Ok(db')
    ensures db'.listings == db.listings + [l] && Offers(db, db', l, character, OfferEquipment(id))
    ensures l.seller == account && l.sellerCharacter == character && l.price == price && l.deposit == deposit && l.status == OnSale
  {
    l := db'.listings[|db.listings|];
  }

  function DepositFor(rules: Rules, price: int): int { BpsCeil(price, if rules.depositBps > 0 then rules.depositBps else 100) }

  /** A committed listing adds one row, for the seller and character that asked, naming the goods offered
      at the price asked for and with its deposit; earlier rows and all other goods are as before. */
  lemma ListingOutcome(db: Db, db': Db, rules: Rules, account: nat, character: nat, offer: Offer, price: int, allowed: bool) returns (l: Listing)
    requires CreateListing(db, account, character, offer, price, rules, allowed) == Ok(db')
    ensures db'.listings == db.listings + [l] && Offers(db, db', l, character, offer)
    ensures l.seller == account && l.sellerCharacter == character && l.price == price && l.deposit == DepositFor(rules, price) && l.status == OnSale
    ensures db' == db.(purse := db'.purse, equipment := db'.equipment, stacks := db'.stacks, listings := db'.listings)
  {
    var deposit := DepositFor(rules, price);
    var db1 := db.(purse := SpendTokens(db.purse, account, deposit).value.purse);
    match offer {
      case OfferEquipment(id) => l := LockEquipmentOutcome(db1, db', account, character, id, price, deposit);
      case OfferItem(place, slot, quantity) => l := LockItemOutcome(db1, db', account, character, place, slot, quantity, price, deposit);
    }
    SameOffer(db, db1, db', l, character, offer);
  }

  lemma SameOffer(db: Db, db1: Db, db': Db, l: Listing, character: nat, offer: Offer)
    requires db1 == db.(purse := db1.purse) && Offers(db1, db', l, character, offer)
    ensures Offers(db, db', l, character, offer)
  {
    if offer.OfferItem? {
      var i :| StackOffered(db1, db', l, i, character, offer.place, offer.slot, offer.quantity);
      assert StackOffered(db, db', l, i, character, offer.place, offer.slot, offer.quantity);
    }
  }

  // ---------------------------------------------------------------------
  // Delivery, buying, cancelling
  // ---------------------------------------------------------------------

  /** The listed asset is in the lowest free slot of the character's bag, equipment under its new owner;
      no other asset was touched. */
  ghost predicate Delivered(db: Db, db': Db, l: Listing, owner: nat, character: nat) {
    exists slot: nat :: LowestFree(db, character, slot) &&
      match l.kind
      case EquipmentAsset =>
        && l.asset < |db.equipment| && db'.stacks == db.stacks
        && db'.equipment == db.equipment[l.asset := db.equipment[l.asset].(account := owner, character := character, place := InBag, slot := Some(slot))]
      case ItemAsset =>
        && l.asset < |db.stacks| && db'.equipment == db.equipment
        && db'.stacks == db.stacks[l.asset := db.stacks[l.asset].(character := character, place := InBag, slot := Some(slot))]
  }

  lemma DeliverOutcome(db: Db, l: Listing, owner: nat, character: nat, db1: Db)
    requires DeliverAsset(db, l, owner, character) == Ok(db1)
    ensures Delivered(db, db1, l, owner, character) && db1 == db.(equipment := db1.equipment, stacks := db1.stacks)
  {
    FreeSlotIs(db, character);
    var slot := FreeSlot(db, character).value;
    assert LowestFree(db, character, slot);
  }

  /** Slots only depend on the goods. */
  lemma SameLowest(db: Db, db1: Db, character: nat, slot: nat)
    requires db1.stacks == db.stacks && db1.equipment == db.equipment
    ensures LowestFree(db1, character, slot) == LowestFree(db, character, slot)
  {
    forall s: nat ensures Occupants(db1, character, InBag, s) == Occupants(db, character, InBag, s) {}
  }

  lemma SameDelivery(db: Db, db1: Db, db': Db, db'': Db, l: Listing, owner: nat, character: nat)
    requires db1.stacks == db.stacks && db1.equipment == db.equipment && Delivered(db1, db', l, owner, character)
    requires db''.stacks == db'.stacks && db''.equipment == db'.equipment
    ensures Delivered(db, db'', l, owner, character)
  {
    forall slot: nat ensures LowestFree(db1, character, slot) == LowestFree(db, character, slot) { SameLowest(db, db1, character, slot); }
  }

  function Share(price: int, configured: int, default: int): int { BpsAmount(price, if configured > 0 then configured else default) }

  /** The record of a purchase: price, fee, its burned and treasury parts at their own rates, the rest for
      rewards, and what the seller gets. */
  predicate RecordOf(s: Sale, l: Listing, id: nat, buyer: nat, rules: Rules) {
    && s.listing == id && s.buyer == buyer && s.amount == l.price
    && s.fee == Share(l.price, rules.feeBps, 500) && s.burn == Share(l.price, rules.burnBps, 100)
    && s.treasury == Share(l.price, rules.treasuryBps, 300) && s.rewards == Max(0, s.fee - s.burn - s.treasury)
    && s.proceeds == l.price - s.fee && s.depositReturned == l.deposit
  }

  /** A committed purchase: one record, the listing SOLD, the asset with the buyer, and nothing else but the purse. */
  lemma BuyOutcome(db: Db, db': Db, rules: Rules, buyer: nat, character: nat, id: nat, allowed: bool, unlockAt: int) returns (s: Sale)
    requires Buy(db, buyer, character, id, rules, allowed, unlockAt) == Ok(db')
    ensures id < |db.listings| && RecordOf(s, db.listings[id], id, buyer, rules)
    ensures db' == db.(purse := db'.purse, equipment := db'.equipment, stacks := db'.stacks, sales := db.sales + [s],
                       listings := db.listings[id := db.listings[id].(status := Sold)])
    ensures Delivered(db, db', db.listings[id], buyer, character)
  {
    var db1;
    db1, s := BuyIs(db, db', rules, buyer, character, id, allowed, unlockAt);
    DeliverOutcome(db.(purse := db'.purse), db.listings[id], buyer, character, db1);
    SameDelivery(db, db.(purse := db'.purse), db1, db', db.listings[id], buyer, character);
  }

  /** A grant adds to the locked bucket, under its unlock time. */
  ghost predicate LocksUp(p: Purse, p': Purse, account: nat, amount: int, unlockAt: int) {
    && account < |p.balances| == |p'.balances|
    && p'.balances[account] == p.balances[account].(locked := p.balances[account].locked + amount, total := p.balances[account].total + amount)
    && forall t :: Sum(p'.locks, LiveAt(account, t)) == Sum(p.locks, LiveAt(account, t)) + if t == unlockAt then amount else 0
  }

  lemma GrantLocksUp(p: Purse, account: nat, amount: int, unlockAt: int)
    requires PurseSound(p) && account < |p.balances| && unlockAt != 0
    ensures PurseSound(GrantLocked(p, account, amount, unlockAt))
    ensures LocksUp(p, GrantLocked(p, account, amount, unlockAt), account, Max(0, amount), unlockAt)
  {
    if amount > 0 {
      GrantGives(p, account, amount, unlockAt);
      forall t ensures Sum([Segment(amount, unlockAt)], SegmentAt(t)) == if t == unlockAt then amount else 0 {
        SegmentsCons(Segment(amount, unlockAt), [], SegmentAt(t));
        assert [Segment(amount, unlockAt)] + [] == [Segment(amount, unlockAt)];
      }
    }
  }

  lemma LocksUpTwice(p: Purse, p1: Purse, p2: Purse, account: nat, first: int, second: int, unlockAt: int)
    requires LocksUp(p, p1, account, first, unlockAt) && LocksUp(p1, p2, account, second, unlockAt)
    ensures LocksUp(p, p2, account, first + second, unlockAt)
  {
  }

  lemma SettledLocks(p: Purse, p': Purse, seller: nat, s: Sale, unlockAt: int)
    requires PurseSound(p) && SettlePurchase(p, seller, s, unlockAt) == Ok(p') && unlockAt != 0 && seller != s.buyer && s.depositReturned >= 0
    ensures LocksUp(p, p', seller, Max(0, s.proceeds) + s.depositReturned, unlockAt)
  {
    var paid := SpendTokens(p, s.buyer, s.amount).value;
    SpendTakes(p, s.buyer, s.amount);
    var p1 := GrantLocked(paid.purse, seller, s.proceeds, unlockAt);
    GrantLocksUp(paid.purse, seller, s.proceeds, unlockAt);
    GrantLocksUp(p1, seller, s.depositReturned, unlockAt);
    LocksUpTwice(paid.purse, p1, p', seller, Max(0, s.proceeds), s.depositReturned, unlockAt);
  }

  lemma SaleRowIs(rules: Rules, buyer: nat, id: nat, l: Listing)
    ensures RecordOf(SaleRow(WithDefaults(rules), buyer, id, l), l, id, buyer, rules)
  {
  }

  lemma DepositsCount(db: Db, rules: Rules, id: nat)
    requires Sound(db, rules) && id < |db.listings|
    ensures PurseSound(db.purse) && db.listings[id].deposit >= 0
  {
  }

  /** What the seller of `l` gets, the price less the fee and the deposit, is locked until `unlockAt`. */
  ghost predicate ProceedsLocked(p: Purse, p': Purse, rules: Rules, l: Listing, unlockAt: int) {
    LocksUp(p, p', l.seller, Max(0, l.price - Share(l.price, rules.feeBps, 500)) + l.deposit, unlockAt)
  }

  lemma SettledAs(p: Purse, p': Purse, s: Sale, l: Listing, id: nat, buyer: nat, rules: Rules, unlockAt: int)
    requires PurseSound(p) && SettlePurchase(p, l.seller, s, unlockAt) == Ok(p') && unlockAt != 0
    requires RecordOf(s, l, id, buyer, rules) && l.seller != buyer && l.deposit >= 0
    ensures ProceedsLocked(p, p', rules, l, unlockAt)
  {
    SettledLocks(p, p', l.seller, s, unlockAt);
  }

  lemma BuySettles(db: Db, db': Db, rules: Rules, buyer: nat, character: nat, id: nat, allowed: bool, unlockAt: int) returns (s: Sale)
    requires Buy(db, buyer, character, id, rules, allowed, unlockAt) == Ok(db')
    ensures id < |db.listings| && db.listings[id].seller != buyer && RecordOf(s, db.listings[id], id, buyer, rules)
    ensures SettlePurchase(db.purse, db.listings[id].seller, s, unlockAt) == Ok(db'.purse)
  {
    var db1;
    db1, s := BuyIs(db, db', rules, buyer, character, id, allowed, unlockAt);
    SaleRowIs(rules, buyer, id, db.listings[id]);
  }

  /** The seller's proceeds and deposit are locked tokens, and unlock exactly at the time given. */
  lemma ProceedsAreLocked(db: Db, db': Db, rules: Rules, buyer: nat, character: nat, id: nat, allowed: bool, unlockAt: int)
    requires Sound(db, rules) && unlockAt != 0 && Buy(db, buyer, character, id, rules, allowed, unlockAt) == Ok(db')
    ensures id < |db.listings| && ProceedsLocked(db.purse, db'.purse, rules, db.listings[id], unlockAt)
  {
    var s := BuySettles(db, db', rules, buyer, character, id, allowed, unlockAt);
    DepositsCount(db, rules, id);
    SettledAs(db.purse, db'.purse, s, db.listings[id], id, buyer, rules, unlockAt);
  }

  /** A committed cancel: the listing CANCELLED, the asset back with the seller's character, and nothing else. */
  lemma CancelOutcome(db: Db, db': Db, account: nat, id: nat, allowed: bool)
    requires Cancel(db, account, id, allowed) == Ok(db')
    ensures id < |db.listings| && db.listings[id].seller == account
    ensures db' == db.(equipment := db'.equipment, stacks := db'.stacks, listings := db.listings[id := db.listings[id].(status := Cancelled)])
    ensures Delivered(db, db', db.listings[id], account, db.listings[id].sellerCharacter)
  {
    var l := db.listings[id];
    var db1 := CancelIs(db, db', account, id, allowed);
    DeliverOutcome(db, l, account, l.sellerCharacter, db1);
    SameDelivery(db, db, db1, db', l, account, l.sellerCharacter);
  }

  // ---------------------------------------------------------------------
  // Minting
  // ---------------------------------------------------------------------

  /** The fee of a mint for equipment of a rarity. */
  function MintFee(rules: Rules, rarity: int): int {
    FeeUpTo(if rules.mintFees == map[] then map[3 := 500, 4 := 2000, 5 := 10000] else rules.mintFees,
            if rules.minRarity > 0 then rules.minRarity else 3, rarity)
  }

  /** A committed request: one PAID request at the fee of the rarity, one NFT record, the equipment
      MINT_PENDING out of its slot, the fee spent, and nothing else. */
  lemma MintOutcome(db: Db, db': Db, rules: Rules, account: nat, character: nat, id: nat) returns (paid: Spending)
    requires RequestMint(db, account, character, id, rules) == Ok(db')
    ensures id < |db.equipment|
    ensures var fee := MintFee(rules, db.equipment[id].rarity);
      && SpendTokens(db.purse, account, fee) == Ok(paid)
      && db' == db.(purse := paid.purse,
                    requests := db.requests + [MintRequest(account, |db.nfts|, id, fee, paid.spend, Paid)],
                    nfts := db.nfts + [NftAsset(account, id, MintRequested)],
                    equipment := db.equipment[id := db.equipment[id].(place := MintPending, slot := None)])
  {
    paid := SpendTokens(db.purse, account, MintFee(rules, db.equipment[id].rarity)).value;
  }

  /** A confirmation succeeds exactly for a PAID or CONFIRMED request. It puts the equipment ON_CHAIN with
      its NFT record, and does nothing the second time. */
  lemma ConfirmMintOutcome(db: Db, rules: Rules, id: nat)
    requires Sound(db, rules) && id < |db.requests|
    ensures var q, r := db.requests[id], ConfirmMint(db, id);
      && (r.Ok? <==> q.status in {Paid, MintConfirmed})
      && (q.status == MintConfirmed ==> r == Ok(db))
      && (q.status == Paid ==>
          && q.equipment < |db.equipment| && id < |db.nfts|
          && r == Ok(db.(requests := db.requests[id := q.(status := MintConfirmed)], nfts := db.nfts[id := db.nfts[id].(status := Minted)],
                         equipment := db.equipment[q.equipment := db.equipment[q.equipment].(place := OnChain, nft := Some(id))])))
  {
    assert RequestSound(db.requests[id], id, db.nfts[id], db.equipment, |db.purse.balances|);
    if db.requests[id].status == Paid { ConfirmMintIs(db, ConfirmMint(db, id).value, id); }
  }

  /** A committed cancel of a mint: the request and its NFT record cancelled, the equipment in the lowest free
      slot of its character's bag, and nothing else but the purse, which CancelMintKeeps describes. */
  lemma CancelMintOutcome(db: Db, db': Db, rules: Rules, account: nat, id: nat) returns (slot: nat)
    requires Sound(db, rules) && CancelMint(db, account, id) == Ok(db')
    ensures id < |db.requests| && id < |db.nfts| && db.requests[id].equipment < |db.equipment|
    ensures var q := db.requests[id];
      var e := db.equipment[q.equipment];
      && LowestFree(db, e.character, slot)
      && db' == db.(purse := db'.purse, requests := db.requests[id := q.(status := MintCancelled)],
                    nfts := db.nfts[id := db.nfts[id].(status := NftCancelled)],
                    equipment := db.equipment[q.equipment := e.(place := InBag, slot := Some(slot))])
  {
    var q := db.requests[id];
    assert RequestSound(q, id, db.nfts[id], db.equipment, |db.purse.balances|);
    NotMinting(db.requests, db.nfts, db.equipment, |db.purse.balances|, id);
    FreeSlotIs(db, db.equipment[q.equipment].character);
    slot := FreeSlot(db, db.equipment[q.equipment].character).value;
  }

  // ---------------------------------------------------------------------
  // Over runs: the price asked is the price paid
  // ---------------------------------------------------------------------

  lemma ListingSurvives(db: Db, db': Db, rules: Rules, steps: seq<Step>, id: nat)
    requires Sound(db, rules) && db' == Run(db, rules, steps) && id < |db.listings|
    ensures Sound(db', rules) && id < |db'.listings| && ListingFollows(db.listings[id], db'.listings[id])
  {
    RunKeeps(db, rules, steps);
  }

  /** Tokens and goods of a purchase of listing `l`. */
  ghost predicate PaidAsAsked(db: Db, db': Db, rules: Rules, l: Listing, buyer: nat, receiver: nat, unlockAt: int) {
    var gain := Max(0, l.price - Share(l.price, rules.feeBps, 500)) + l.deposit;
    && Settles(db.purse, db'.purse, buyer, l.seller, l.price, gain) && ProceedsLocked(db.purse, db'.purse, rules, l, unlockAt)
    && Received(db', l, buyer, receiver)
  }

  lemma StillListed(db: Db, db': Db, rules: Rules, l: Listing, id: nat, buyer: nat, receiver: nat, ok: bool, unlockAt: int)
    requires id < |db.listings| && l.status == OnSale && ListingFollows(l, db.listings[id])
    requires Buy(db, buyer, receiver, id, rules, ok, unlockAt) == Ok(db')
    ensures db.listings[id] == l
  {
    var db1, s := BuyIs(db, db', rules, buyer, receiver, id, ok, unlockAt);
  }

  lemma MovesAsAsked(db: Db, db': Db, rules: Rules, l: Listing, id: nat, buyer: nat, receiver: nat, ok: bool, unlockAt: int)
    requires Sound(db, rules) && unlockAt != 0 && id < |db.listings| && db.listings[id] == l
    requires Buy(db, buyer, receiver, id, rules, ok, unlockAt) == Ok(db')
    ensures Purchased(db, db', l, buyer, receiver, Share(l.price, rules.feeBps, 500))
  {
    BuyMoves(db, db', rules, buyer, receiver, id, ok, unlockAt);
  }

  lemma AsAsked(db: Db, db': Db, rules: Rules, l: Listing, buyer: nat, receiver: nat, unlockAt: int)
    requires Purchased(db, db', l, buyer, receiver, Share(l.price, rules.feeBps, 500))
    requires ProceedsLocked(db.purse, db'.purse, rules, l, unlockAt)
    ensures PaidAsAsked(db, db', rules, l, buyer, receiver, unlockAt)
  {
  }

  lemma LockedAsAsked(db: Db, db': Db, rules: Rules, l: Listing, id: nat, buyer: nat, receiver: nat, ok: bool, unlockAt: int)
    requires Sound(db, rules) && unlockAt != 0 && id < |db.listings| && db.listings[id] == l
    requires Buy(db, buyer, receiver, id, rules, ok, unlockAt) == Ok(db')
    ensures ProceedsLocked(db.purse, db'.purse, rules, l, unlockAt)
  {
    ProceedsAreLocked(db, db', rules, buyer, receiver, id, ok, unlockAt);
  }

  lemma BoughtAsAsked(db: Db, db': Db, rules: Rules, l: Listing, id: nat, buyer: nat, receiver: nat, ok: bool, unlockAt: int)
    requires Sound(db, rules) && unlockAt != 0 && id < |db.listings| && l.status == OnSale && ListingFollows(l, db.listings[id])
    requires Buy(db, buyer, receiver, id, rules, ok, unlockAt) == Ok(db')
    ensures PaidAsAsked(db, db', rules, l, buyer, receiver, unlockAt)
  {
    StillListed(db, db', rules, l, id, buyer, receiver, ok, unlockAt);
    MovesAsAsked(db, db', rules, l, id, buyer, receiver, ok, unlockAt);
    LockedAsAsked(db, db', rules, l, id, buyer, receiver, ok, unlockAt);
    AsAsked(db, db', rules, l, buyer, receiver, unlockAt);
  }

  lemma ListedSound(db0: Db, db1: Db, rules: Rules, account: nat, character: nat, offer: Offer, price: int, allowed: bool)
    requires Sound(db0, rules) && CreateListing(db0, account, character, offer, price, rules, allowed) == Ok(db1)
    ensures Sound(db1, rules)
  {
    ListKeeps(db0, db1, rules, account, character, offer, price, allowed);
  }

  /** However a run goes on after a listing, whoever buys it pays exactly the price its seller asked for;
      the seller gets that price less the fee, with the deposit, locked until the time given; and what the
      buyer holds is the asset that was offered. */
  lemma AskedPriceIsPaid(db0: Db, db1: Db, db2: Db, db3: Db, rules: Rules, account: nat, character: nat, offer: Offer, price: int, allowed: bool,
                         steps: seq<Step>, buyer: nat, receiver: nat, ok: bool, unlockAt: int) returns (l: Listing)
    requires Sound(db0, rules) && unlockAt != 0 && CreateListing(db0, account, character, offer, price, rules, allowed) == Ok(db1)
    requires db2 == Run(db1, rules, steps) && Buy(db2, buyer, receiver, |db0.listings|, rules, ok, unlockAt) == Ok(db3)
    ensures Offers(db0, db1, l, character, offer) && l.seller == account && l.price == price && l.deposit == DepositFor(rules, price)
    ensures PaidAsAsked(db2, db3, rules, l, buyer, receiver, unlockAt)
  {
    l := ListingOutcome(db0, db1, rules, account, character, offer, price, allowed);
    ListedSound(db0, db1, rules, account, character, offer, price, allowed);
    ListingSurvives(db1, db2, rules, steps, |db0.listings|);
    BoughtAsAsked(db2, db3, rules, l, |db0.listings|, buyer, receiver, ok, unlockAt);
  }
}
