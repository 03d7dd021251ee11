/** The promises of the marketplace and of minting in their readable form, drawn
    from the invariant and from conservation over runs. */
module EconomyTheorems {
  import opened Basics
  import opened Tokens
  import opened Economy
  import opened EconomyProofs
  import opened EconomyRuns

  // ---------------------------------------------------------------------
  // Counts of one
  // ---------------------------------------------------------------------

  /** A count that is 0 or 1 says whether a row exists and that it is the only one. */
  lemma CountIsOne<T>(rows: seq<T>, weight: T -> int, one: bool)
    requires forall k :: 0 <= k < |rows| ==> 0 <= weight(rows[k]) <= 1
    requires Sum(rows, weight) == Indicator(one)
    ensures one <==> exists k :: 0 <= k < |rows| && weight(rows[k]) == 1
    ensures forall j, k :: 0 <= j < k < |rows| ==> weight(rows[j]) == 0 || weight(rows[k]) == 0
  {
    if one {
      var k := SumWitness(rows, weight);
    } else if k :| 0 <= k < |rows| && weight(rows[k]) == 1 {
      SumOneRow(rows, k, weight);
    }
    forall j, k | 0 <= j < k < |rows| ensures weight(rows[j]) == 0 || weight(rows[k]) == 0 {
      SumTwoRows(rows, j, k, weight);
    }
  }

  predicate OnSaleAs(l: Listing, kind: AssetKind, asset: nat) { l.status == OnSale && l.kind == kind && l.asset == asset }

  /** In every reachable state equipment is LISTED exactly when one live listing names it. */
  lemma ListedEquipment(db: Db, rules: Rules, steps: seq<Step>, db': Db, e: nat)
    requires Sound(db, rules) && db' == Run(db, rules, steps) && e < |db'.equipment|
    ensures db'.equipment[e].place == Listed <==> exists k :: 0 <= k < |db'.listings| && OnSaleAs(db'.listings[k], EquipmentAsset, e)
    ensures forall j, k :: 0 <= j < k < |db'.listings| && OnSaleAs(db'.listings[j], EquipmentAsset, e) ==>
      !OnSaleAs(db'.listings[k], EquipmentAsset, e)
  {
    RunKeeps(db, rules, steps);
    EquipmentListed(db'.listings, db'.equipment, e);
  }

  lemma EquipmentListed(listings: seq<Listing>, rows: seq<Equipment>, e: nat)
    requires Escrow(listings, EquipmentAsset, OfEquipment(rows)) && e < |rows|
    ensures rows[e].place == Listed <==> exists k :: 0 <= k < |listings| && OnSaleAs(listings[k], EquipmentAsset, e)
    ensures forall j, k :: 0 <= j < k < |listings| && OnSaleAs(listings[j], EquipmentAsset, e) ==> !OnSaleAs(listings[k], EquipmentAsset, e)
  {
    assert OfEquipment(rows)[e] == EquipmentHolding(rows[e]);
    CountIsOne(listings, Names(EquipmentAsset, e), rows[e].place == Listed);
    if rows[e].place == Listed {
      var k :| 0 <= k < |listings| && Names(EquipmentAsset, e)(listings[k]) == 1;
      assert OnSaleAs(listings[k], EquipmentAsset, e);
    }
    if k :| 0 <= k < |listings| && OnSaleAs(listings[k], EquipmentAsset, e) {
      assert Names(EquipmentAsset, e)(listings[k]) == 1;
    }
  }

  /** In every reachable state a stack is LISTED exactly when one live listing names it,
      and that listing has the stack's item and its whole quantity. */
  lemma ListedStack(db: Db, rules: Rules, steps: seq<Step>, db': Db, s: nat)
    requires Sound(db, rules) && db' == Run(db, rules, steps) && s < |db'.stacks|
    ensures db'.stacks[s].place == Listed <==> exists k :: 0 <= k < |db'.listings| && OnSaleAs(db'.listings[k], ItemAsset, s)
    ensures forall j, k :: 0 <= j < k < |db'.listings| && OnSaleAs(db'.listings[j], ItemAsset, s) ==>
      !OnSaleAs(db'.listings[k], ItemAsset, s)
    ensures forall k :: 0 <= k < |db'.listings| && OnSaleAs(db'.listings[k], ItemAsset, s) ==>
      db'.listings[k].quantity == db'.stacks[s].quantity > 0 && db'.listings[k].item == db'.stacks[s].item
  {
    RunKeeps(db, rules, steps);
    StackListed(db'.listings, db'.stacks, s);
  }

  lemma StackListed(listings: seq<Listing>, rows: seq<Stack>, s: nat)
    requires Escrow(listings, ItemAsset, OfStacks(rows)) && s < |rows|
    ensures rows[s].place == Listed <==> exists k :: 0 <= k < |listings| && OnSaleAs(listings[k], ItemAsset, s)
    ensures forall j, k :: 0 <= j < k < |listings| && OnSaleAs(listings[j], ItemAsset, s) ==> !OnSaleAs(listings[k], ItemAsset, s)
    ensures forall k :: 0 <= k < |listings| && OnSaleAs(listings[k], ItemAsset, s) ==>
      listings[k].quantity == rows[s].quantity && listings[k].item == rows[s].item
  {
    assert OfStacks(rows)[s] == StackHolding(rows[s]);
    CountIsOne(listings, Names(ItemAsset, s), rows[s].place == Listed);
    if rows[s].place == Listed {
      var k :| 0 <= k < |listings| && Names(ItemAsset, s)(listings[k]) == 1;
      assert OnSaleAs(listings[k], ItemAsset, s);
    }
    if k :| 0 <= k < |listings| && OnSaleAs(listings[k], ItemAsset, s) {
      assert Names(ItemAsset, s)(listings[k]) == 1;
    }
  }

  predicate RequestedAs(q: MintRequest, e: nat, status: RequestStatus) { q.equipment == e && q.status == status }

  lemma RequestCount(requests: seq<MintRequest>, e: nat, status: RequestStatus, one: bool)
    requires Sum(requests, RequestIs(e, status)) == Indicator(one)
    ensures one <==> exists k :: 0 <= k < |requests| && RequestedAs(requests[k], e, status)
    ensures forall j, k :: 0 <= j < k < |requests| && RequestedAs(requests[j], e, status) ==> !RequestedAs(requests[k], e, status)
  {
    CountIsOne(requests, RequestIs(e, status), one);
    if one {
      var k :| 0 <= k < |requests| && RequestIs(e, status)(requests[k]) == 1;
      assert RequestedAs(requests[k], e, status);
    }
    if k :| 0 <= k < |requests| && RequestedAs(requests[k], e, status) {
      assert RequestIs(e, status)(requests[k]) == 1;
    }
  }

  /** In every reachable state MINT_PENDING equipment has exactly one PAID request, ON_CHAIN
      equipment exactly one CONFIRMED request, and there is at most one live NFT record. */
  lemma MintLifecycle(db: Db, rules: Rules, steps: seq<Step>, db': Db, e: nat)
    requires Sound(db, rules) && db' == Run(db, rules, steps) && e < |db'.equipment|
    ensures db'.equipment[e].place == MintPending <==> exists k :: 0 <= k < |db'.requests| && RequestedAs(db'.requests[k], e, Paid)
    ensures db'.equipment[e].place == OnChain <==> exists k :: 0 <= k < |db'.requests| && RequestedAs(db'.requests[k], e, MintConfirmed)
    ensures forall j, k :: 0 <= j < k < |db'.requests| && RequestedAs(db'.requests[j], e, Paid) ==> !RequestedAs(db'.requests[k], e, Paid)
    ensures forall j, k :: 0 <= j < k < |db'.requests| && RequestedAs(db'.requests[j], e, MintConfirmed) ==>
      !RequestedAs(db'.requests[k], e, MintConfirmed)
    ensures Sum(db'.nfts, LiveNft(e)) == Indicator(db'.equipment[e].place == MintPending || db'.equipment[e].place == OnChain)
  {
    RunKeeps(db, rules, steps);
    MintLifecycleOf(db', e);
  }

  lemma MintLifecycleOf(db: Db, e: nat)
    requires MintSound(db.requests, db.nfts, db.equipment, |db.purse.balances|) && e < |db.equipment|
    ensures db.equipment[e].place == MintPending <==> exists k :: 0 <= k < |db.requests| && RequestedAs(db.requests[k], e, Paid)
    ensures db.equipment[e].place == OnChain <==> exists k :: 0 <= k < |db.requests| && RequestedAs(db.requests[k], e, MintConfirmed)
    ensures forall j, k :: 0 <= j < k < |db.requests| && RequestedAs(db.requests[j], e, Paid) ==> !RequestedAs(db.requests[k], e, Paid)
    ensures forall j, k :: 0 <= j < k < |db.requests| && RequestedAs(db.requests[j], e, MintConfirmed) ==>
      !RequestedAs(db.requests[k], e, MintConfirmed)
    ensures Sum(db.nfts, LiveNft(e)) == Indicator(db.equipment[e].place == MintPending || db.equipment[e].place == OnChain)
  {
    OneLiveNft(db, e);
    RequestCount(db.requests, e, Paid, db.equipment[e].place == MintPending);
    RequestCount(db.requests, e, MintConfirmed, db.equipment[e].place == OnChain);
  }

  // ---------------------------------------------------------------------
  // Tokens
  // ---------------------------------------------------------------------

  /** A purchase conserves tokens exactly when the fee is not above the price. */
  lemma BuyConservesIff(db: Db, db': Db, rules: Rules, buyer: nat, character: nat, id: nat, allowed: bool, unlockAt: int)
    requires Sound(db, rules) && unlockAt != 0 && Buy(db, buyer, character, id, rules, allowed, unlockAt) == Ok(db')
    ensures id < |db.listings| && (Wealth(db') == Wealth(db) <==> FeeOf(rules, db.listings[id].price) <= db.listings[id].price)
  {
    BuyMoves(db, db', rules, buyer, character, id, allowed, unlockAt);
  }

  /** The fee is within the price for every price exactly when it is at most 10000 basis points. */
  lemma FeeWithinPriceIff(rules: Rules)
    ensures (forall price :: price > 0 ==> FeeOf(rules, price) <= price) <==> WithDefaults(rules).feeBps <= 10000
  {
    var bps := WithDefaults(rules).feeBps;
    if bps <= 10000 {
      forall price | price > 0 ensures FeeOf(rules, price) <= price { BpsBounds(price, bps); }
    } else {
      BpsBounds(10000, bps);
      assert FeeOf(rules, 10000) > 10000;
    }
  }

  lemma StepWealth(db: Db, db': Db, rules: Rules, step: Step)
    requires Sound(db, rules) && WithDefaults(rules).feeBps <= 10000 && Attempt(db, rules, step) == Ok(db')
    ensures Wealth(db') == Wealth(db)
  {
    if step.BuyStep? {
      BuyMoves(db, db', rules, step.account, step.character, step.id, step.allowed, step.unlockAt);
      BpsBounds(db.listings[step.id].price, WithDefaults(rules).feeBps);
    } else {
      StepKeeps(db, rules, step);
      SalesOnlyByBuying(db, db', rules, step);
    }
  }

  lemma SalesOnlyByBuying(db: Db, db': Db, rules: Rules, step: Step)
    requires Attempt(db, rules, step) == Ok(db') && !step.BuyStep?
    ensures db'.sales == db.sales
  {
  }

  /** With a fee of at most 10000 basis points, every run of listing, buying, cancelling and
      minting keeps balances + deposits of LISTED and CANCELLED listings + fees of SOLD
      listings + mint fees not refunded constant. */
  lemma {:induction false} WealthConserved(db: Db, rules: Rules, steps: seq<Step>)
    requires Sound(db, rules) && WithDefaults(rules).feeBps <= 10000
    ensures Wealth(Run(db, rules, steps)) == Wealth(db)
  {
    if |steps| > 0 {
      var n := |steps| - 1;
      WealthConserved(db, rules, steps[..n]);
      RunKeeps(db, rules, steps[..n]);
      var mid := Run(db, rules, steps[..n]);
      if Attempt(mid, rules, steps[n]).Ok? {
        StepWealth(mid, Attempt(mid, rules, steps[n]).value, rules, steps[n]);
      }
    }
  }

  // ---------------------------------------------------------------------
  // Mint refunds over runs
  // ---------------------------------------------------------------------

  lemma MintTakes(db: Db, db': Db, rules: Rules, account: nat, character: nat, e: nat) returns (q: MintRequest)
    requires PurseSound(db.purse) && RequestMint(db, account, character, e, rules) == Ok(db')
    ensures db'.requests == db.requests + [q] && q.account == account && q.equipment == e && q.status == Paid
    ensures TakesAway(db.purse, db'.purse, account, q.fee, q.spend) && SpendSound(q.spend, q.fee)
  {
    var paid;
    paid, q := MintIs(db, db', rules, account, character, e);
    SpendTakes(db.purse, account, q.fee);
  }

  lemma RequestSurvives(db: Db, db': Db, rules: Rules, steps: seq<Step>, id: nat)
    requires Sound(db, rules) && db' == Run(db, rules, steps) && id < |db.requests|
    ensures Sound(db', rules) && id < |db'.requests| && RequestFollows(db.requests[id], db'.requests[id])
  {
    RunKeeps(db, rules, steps);
  }

  lemma RefundOf(db: Db, db': Db, rules: Rules, payer: nat, id: nat, q: MintRequest)
    requires Sound(db, rules) && CancelMint(db, payer, id) == Ok(db') && RequestFollows(q, db.requests[id])
    ensures payer == q.account && GivesBack(db.purse, db'.purse, q.account, q.fee, q.spend)
  {
    CancelMintKeeps(db, db', rules, payer, id);
  }

  /** However the run goes on, a later cancel puts into each bucket and at each unlock time
      exactly what the request took, for the account that paid. */
  lemma MintRefundExact(db0: Db, db1: Db, db2: Db, db3: Db, rules: Rules, account: nat, character: nat, e: nat, steps: seq<Step>, payer: nat)
    returns (fee: int, spend: Spend)
    requires Sound(db0, rules) && RequestMint(db0, account, character, e, rules) == Ok(db1)
    requires db2 == Run(db1, rules, steps) && CancelMint(db2, payer, |db0.requests|) == Ok(db3)
    ensures payer == account && SpendSound(spend, fee)
    ensures TakesAway(db0.purse, db1.purse, account, fee, spend)
    ensures GivesBack(db2.purse, db3.purse, account, fee, spend)
  {
    var q := MintTakes(db0, db1, rules, account, character, e);
    fee, spend := q.fee, q.spend;
    MintKeeps(db0, db1, rules, account, character, e);
    assert db1.requests[|db0.requests|] == q;
    RequestSurvives(db1, db2, rules, steps, |db0.requests|);
    RefundOf(db2, db3, rules, payer, |db0.requests|, q);
  }

  /** A mint request cancelled at once leaves every bucket and every unlock time as it was. */
  lemma MintThenCancelRestores(db0: Db, db1: Db, db3: Db, rules: Rules, account: nat, character: nat, e: nat)
    requires Sound(db0, rules) && RequestMint(db0, account, character, e, rules) == Ok(db1)
    requires CancelMint(db1, account, |db0.requests|) == Ok(db3)
    ensures db3.purse.balances == db0.purse.balances
    ensures forall a: nat, t :: Sum(db3.purse.locks, LiveAt(a, t)) == Sum(db0.purse.locks, LiveAt(a, t))
  {
    var fee, spend := MintRefundExact(db0, db1, db1, db3, rules, account, character, e, [], account);
    BackAgain(db0.purse, db1.purse, db3.purse, account, fee, spend);
  }

  lemma BackAgain(p0: Purse, p1: Purse, p2: Purse, account: nat, fee: int, s: Spend)
    requires TakesAway(p0, p1, account, fee, s) && GivesBack(p1, p2, account, fee, s)
    ensures p2.balances == p0.balances
    ensures forall a: nat, t :: Sum(p2.locks, LiveAt(a, t)) == Sum(p0.locks, LiveAt(a, t))
  {
  }

  // ---------------------------------------------------------------------
  // When operations succeed
  // ---------------------------------------------------------------------

  lemma SameFreeSlot(db: Db, p: Purse, character: nat)
    ensures FreeSlot(db.(purse := p), character) == FreeSlot(db, character)
  {
    var db' := db.(purse := p);
    forall slot: nat ensures FirstFree(db', character, slot) <==> FirstFree(db, character, slot) {
      forall s: nat ensures Occupants(db', character, InBag, s) == Occupants(db, character, InBag, s) {}
      if FirstFree(db, character, slot) {
        forall lower: nat | lower < slot ensures Occupants(db', character, InBag, lower) != 0 {
          assert Occupants(db, character, InBag, lower) != 0;
        }
      }
      if FirstFree(db', character, slot) {
        forall lower: nat | lower < slot ensures Occupants(db, character, InBag, lower) != 0 {
          assert Occupants(db', character, InBag, lower) != 0;
        }
      }
    }
    forall x: nat, y: nat | FirstFree(db, character, x) && FirstFree(db, character, y) ensures x == y {}
  }

  /** Escrow never loses an asset: delivering a live listing fails only for want of a free slot. */
  lemma DeliverSucceedsIff(db: Db, rules: Rules, k: nat, owner: nat, character: nat)
    requires Sound(db, rules) && k < |db.listings| && db.listings[k].status == OnSale
    ensures DeliverAsset(db, db.listings[k], owner, character).Ok? <==> FreeSlot(db, character).Ok?
  {
  }

  /** A seller can cancel a live listing exactly when the character's bag has a free slot. */
  lemma CancelSucceedsIff(db: Db, rules: Rules, account: nat, id: nat)
    requires Sound(db, rules)
    ensures Cancel(db, account, id, true).Ok? <==>
      (id < |db.listings| && db.listings[id].seller == account && db.listings[id].status == OnSale
       && Owns(db, account, db.listings[id].sellerCharacter) && FreeSlot(db, db.listings[id].sellerCharacter).Ok?)
  {
  }

  /** What may be put on sale: own, stored, unbound, tradable, and enough of it. */
  predicate Offerable(db: Db, account: nat, character: nat, offer: Offer) {
    match offer
    case OfferEquipment(id) =>
      && id < |db.equipment| && db.equipment[id].account == account && db.equipment[id].character == character
      && Stored(db.equipment[id].place) && db.equipment[id].unbound && db.equipment[id].item in db.tradable
    case OfferItem(place, slot, quantity) =>
      && quantity > 0 && Stored(place)
      && exists i :: 0 <= i < |db.stacks| && StackIn(character, place, slot)(db.stacks[i]) == 1
           && db.stacks[i].unbound && db.stacks[i].item in db.tradable && quantity <= db.stacks[i].quantity
  }

  lemma {:induction false} FindsTheStack(stacks: seq<Stack>, character: nat, place: Place, slot: nat, i: nat)
    requires Sum(stacks, StackIn(character, place, slot)) <= 1 && i < |stacks| && StackIn(character, place, slot)(stacks[i]) == 1
    ensures FindStack(stacks, character, place, slot) == Some(i)
  {
    var weight := StackIn(character, place, slot);
    var n := |stacks| - 1;
    SumNonNegative(stacks[..n], weight);
    if i < n {
      if weight(stacks[n]) == 1 { SumTwoRows(stacks, i, n, weight); }
      FindsTheStack(stacks[..n], character, place, slot, i);
    }
  }

  lemma OfferableIff(db: Db, account: nat, character: nat, offer: Offer, price: int, deposit: int)
    requires SlotsDistinct(db)
    ensures (match offer
             case OfferEquipment(id) => LockEquipment(db, account, character, id, price, deposit).Ok?
             case OfferItem(place, slot, quantity) => LockItem(db, account, character, place, slot, quantity, price, deposit).Ok?)
            <==> Offerable(db, account, character, offer)
  {
    if offer.OfferItem? && Stored(offer.place) {
      assert Occupants(db, character, offer.place, offer.slot) <= 1;
      SumNonNegative(db.equipment, EquipmentIn(character, offer.place, offer.slot));
      forall i: nat | i < |db.stacks| && StackIn(character, offer.place, offer.slot)(db.stacks[i]) == 1
        ensures FindStack(db.stacks, character, offer.place, offer.slot) == Some(i)
      {
        FindsTheStack(db.stacks, character, offer.place, offer.slot, i);
      }
    }
  }

  lemma ListSucceedsBy(db: Db, rules: Rules, account: nat, character: nat, offer: Offer, price: int, allowed: bool)
    requires Sound(db, rules) && account < |db.purse.balances| && account < |db.slots|
    ensures var r := WithDefaults(rules);
      var deposit := BpsCeil(price, r.depositBps);
      CreateListing(db, account, character, offer, price, rules, allowed).Ok? <==>
      (allowed && Owns(db, account, character) && price >= r.minPrice
       && Sum(db.listings, ActiveOf(account)) < SlotCapacity(r, db.slots[account])
       && Worth()(db.purse.balances[account]) >= deposit && db.purse.balances[account].total >= deposit
       && Offerable(db, account, character, offer))
  {
    var r := WithDefaults(rules);
    var deposit := BpsCeil(price, r.depositBps);
    if price >= r.minPrice {
      SpendSucceedsIff(db.purse, account, deposit);
      var paid := SpendTokens(db.purse, account, deposit);
      if paid.Ok? {
        var db1 := db.(purse := paid.value.purse);
        SlotsSame(db, db1);
        OfferableIff(db1, account, character, offer, price, deposit);
        SameOfferable(db, paid.value.purse, account, character, offer);
      }
    }
  }

  /** A listing is created exactly when the seller may, has a free market slot, asks at least the
      minimum, can pay the deposit and offers something that can be put on sale. */
  lemma ListSucceedsIff(db: Db, rules: Rules, account: nat, character: nat, offer: Offer, price: int, allowed: bool)
    requires Sound(db, rules) && account < |db.purse.balances| && account < |db.slots|
    ensures var deposit := BpsCeil(price, if rules.depositBps > 0 then rules.depositBps else 100);
      CreateListing(db, account, character, offer, price, rules, allowed).Ok? <==>
      (allowed && character < |db.characters| && db.characters[character].account == account && !db.characters[character].deleted
       && price >= (if rules.minPrice > 0 then rules.minPrice else 1)
       && Sum(db.listings, ActiveOf(account)) < (if rules.baseSlots > 0 then rules.baseSlots else 5)
            + db.slots[account].material * (if rules.materialSlots > 0 then rules.materialSlots else 2)
            + db.slots[account].wallet * (if rules.walletSlots > 0 then rules.walletSlots else 2)
       && Worth()(db.purse.balances[account]) >= deposit && db.purse.balances[account].total >= deposit
       && Offerable(db, account, character, offer))
  {
    ListSucceedsBy(db, rules, account, character, offer, price, allowed);
  }

  lemma SameOfferable(db: Db, p: Purse, account: nat, character: nat, offer: Offer)
    ensures Offerable(db.(purse := p), account, character, offer) == Offerable(db, account, character, offer)
  {
  }

  /** Equipment that is stored has no live NFT record: the check for one never refuses. */
  lemma MintSucceedsIff(db: Db, rules: Rules, account: nat, character: nat, id: nat)
    requires Sound(db, rules) && account < |db.purse.balances| && id < |db.equipment|
    ensures var e, minRarity := db.equipment[id], if rules.minRarity > 0 then rules.minRarity else 3;
      var fee := FeeUpTo(if rules.mintFees == map[] then map[3 := 500, 4 := 2000, 5 := 10000] else rules.mintFees, minRarity, e.rarity);
      RequestMint(db, account, character, id, rules).Ok? <==>
      (Owns(db, account, character) && e.account == account && e.character == character && Stored(e.place)
       && e.rarity >= minRarity && fee > 0
       && Worth()(db.purse.balances[account]) >= fee && db.purse.balances[account].total >= fee)
  {
    var r, e := WithDefaults(rules), db.equipment[id];
    var fee := FeeUpTo(r.mintFees, r.minRarity, e.rarity);
    OneLiveNft(db, id);
    if fee > 0 { SpendSucceedsIff(db.purse, account, fee); }
  }

  /** The quantity in one slot of a character's storage. */
  function InSlot(character: nat, place: Place, slot: nat): Stack -> int {
    (s: Stack) => if StackIn(character, place, slot)(s) == 1 then s.quantity else 0
  }

  /** The quantity of an item that is on sale. */
  function OnOffer(item: string): Stack -> int { (s: Stack) => if s.place == Listed && s.item == item then s.quantity else 0 }

  lemma WholeStackMoves(stacks: seq<Stack>, id: nat, character: nat, place: Place, slot: nat)
    requires id < |stacks| && Stored(place) && StackIn(character, place, slot)(stacks[id]) == 1
    ensures var after := stacks[id := stacks[id].(place := Listed, slot := None)];
      && Sum(after, InSlot(character, place, slot)) == Sum(stacks, InSlot(character, place, slot)) - stacks[id].quantity
      && Sum(after, OnOffer(stacks[id].item)) == Sum(stacks, OnOffer(stacks[id].item)) + stacks[id].quantity
  {
    var s := stacks[id].(place := Listed, slot := None);
    SumUpdate(stacks, id, s, InSlot(character, place, slot));
    SumUpdate(stacks, id, s, OnOffer(s.item));
  }

  lemma PartStackMoves(stacks: seq<Stack>, id: nat, character: nat, place: Place, slot: nat, quantity: int)
    requires id < |stacks| && Stored(place) && StackIn(character, place, slot)(stacks[id]) == 1
    ensures var s := stacks[id];
      var after := stacks[id := s.(quantity := s.quantity - quantity)] + [Stack(character, s.item, quantity, Listed, None, true)];
      && Sum(after, InSlot(character, place, slot)) == Sum(stacks, InSlot(character, place, slot)) - quantity
      && Sum(after, OnOffer(s.item)) == Sum(stacks, OnOffer(s.item)) + quantity
  {
    var s := stacks[id];
    var rest, part := s.(quantity := s.quantity - quantity), Stack(character, s.item, quantity, Listed, None, true);
    SumUpdate(stacks, id, rest, InSlot(character, place, slot));
    SumUpdate(stacks, id, rest, OnOffer(s.item));
    SumAppend(stacks[id := rest], part, InSlot(character, place, slot));
    SumAppend(stacks[id := rest], part, OnOffer(s.item));
  }

  /** The slot asked for gives exactly the quantity asked for, and exactly that goes on sale. */
  lemma LockItemTakes(db: Db, db': Db, account: nat, character: nat, place: Place, slot: nat, quantity: int, price: int, deposit: int)
    requires LockItem(db, account, character, place, slot, quantity, price, deposit) == Ok(db')
    ensures |db'.listings| == |db.listings| + 1
    ensures var l := db'.listings[|db.listings|];
      && l.quantity == quantity
      && Sum(db'.stacks, InSlot(character, place, slot)) == Sum(db.stacks, InSlot(character, place, slot)) - quantity
      && Sum(db'.stacks, OnOffer(l.item)) == Sum(db.stacks, OnOffer(l.item)) + quantity
  {
    var id := FindStack(db.stacks, character, place, slot).value;
    if quantity == db.stacks[id].quantity {
      WholeStackMoves(db.stacks, id, character, place, slot);
    } else {
      PartStackMoves(db.stacks, id, character, place, slot, quantity);
    }
  }

  /** A purchase of a live listing succeeds exactly when the buyer can pay and has a free slot. */
  lemma BuySucceedsIff(db: Db, rules: Rules, buyer: nat, character: nat, id: nat, unlockAt: int)
    requires Sound(db, rules) && unlockAt != 0 && buyer < |db.purse.balances|
    requires id < |db.listings| && db.listings[id].seller < |db.purse.balances|
    ensures var l := db.listings[id];
      Buy(db, buyer, character, id, rules, true, unlockAt).Ok? <==>
      (Owns(db, buyer, character) && l.status == OnSale && l.seller != buyer && FreeSlot(db, character).Ok?
       && Worth()(db.purse.balances[buyer]) >= l.price && db.purse.balances[buyer].total >= l.price)
  {
    var l := db.listings[id];
    var s := SaleRow(WithDefaults(rules), buyer, id, l);
    SpendSucceedsIff(db.purse, buyer, l.price);
    var settled := SettlePurchase(db.purse, l.seller, s, unlockAt);
    if l.status == OnSale && l.seller != buyer && settled.Ok? {
      SaleRowSound(WithDefaults(rules), buyer, id, l);
      PurchaseSettles(db.purse, settled.value, l, s, unlockAt);
      PurseSwap(db, rules, settled.value);
      SameFreeSlot(db, settled.value, character);
      DeliverSucceedsIff(db.(purse := settled.value), rules, id, buyer, character);
    }
  }

  /** The payer of a request that is still PAID can cancel exactly when the bag has a free slot:
      the recorded fee is never inconsistent. */
  lemma CancelMintSucceedsIff(db: Db, rules: Rules, account: nat, id: nat)
    requires Sound(db, rules) && id < |db.requests| && db.requests[id].equipment < |db.equipment|
    ensures CancelMint(db, account, id).Ok? <==>
      (db.requests[id].account == account && db.requests[id].status == Paid
       && FreeSlot(db, db.equipment[db.requests[id].equipment].character).Ok?)
  {
    var q := db.requests[id];
    assert RequestSound(q, id, db.nfts[id], db.equipment, |db.purse.balances|);
    if q.status == Paid && q.account == account {
      NotMinting(db.requests, db.nfts, db.equipment, |db.purse.balances|, id);
      RefundReturns(db.purse, account, q.fee, q.spend);
    }
  }

  // ---------------------------------------------------------------------
  // Where runs start, and how a fee is split
  // ---------------------------------------------------------------------

  /** No listing, sale, NFT record or request yet, and nothing in escrow. */
  ghost predicate Fresh(db: Db) {
    && PurseSound(db.purse) && db.listings == [] && db.sales == [] && db.nfts == [] && db.requests == []
    && (forall i :: 0 <= i < |db.equipment| ==> db.equipment[i].place != Listed && !Minting(db.equipment[i].place))
    && (forall i :: 0 <= i < |db.stacks| ==> db.stacks[i].place != Listed)
    && Stocked(db.stacks) && SlotsDistinct(db)
  }

  lemma FreshIsSound(db: Db, rules: Rules)
    requires Fresh(db)
    ensures Sound(db, rules)
  {
  }

  lemma SharesFit(amount: int, a: int, b: int, whole: int)
    requires amount > 0 && a + b <= whole && whole > 0
    requires a > 0 && b > 0
    ensures BpsAmount(amount, a) + BpsAmount(amount, b) <= BpsAmount(amount, whole)
  {
  }

  predicate AddsUp(s: Sale) { s.burn + s.treasury + s.rewards == s.fee }

  /** Burned, treasury and reward parts add up to the fee of every sale exactly when the
      configured shares do not exceed the configured fee. */
  lemma FeeSplitIff(rules: Rules, buyer: nat, id: nat, l: Listing)
    ensures var r := WithDefaults(rules);
      (forall price: int :: price > 0 ==> AddsUp(SaleRow(r, buyer, id, l.(price := price)))) <==> r.burnBps + r.treasuryBps <= r.feeBps
  {
    var r := WithDefaults(rules);
    if r.burnBps + r.treasuryBps <= r.feeBps {
      forall price: int | price > 0 ensures AddsUp(SaleRow(r, buyer, id, l.(price := price))) {
        SharesFit(price, r.burnBps, r.treasuryBps, r.feeBps);
      }
    } else {
      assert !AddsUp(SaleRow(r, buyer, id, l.(price := 10000)));
    }
  }
}
