/** The marketplace and minting as they run: rows updated in place, step by
    step, each action a transaction that rolls back on its first error. */
module EconomyStore {
  import opened Basics
  import opened Tokens
  import opened Economy

  // ---------------------------------------------------------------------
  // The result set of the FIFO query
  // ---------------------------------------------------------------------

  predicate Precedes(locks: seq<Lock>, a: nat, b: nat)
    requires a < |locks| && b < |locks|
  {
    locks[a].unlockAt < locks[b].unlockAt || (locks[a].unlockAt == locks[b].unlockAt && a < b)
  }

  /** `ids` is SELECT ... WHERE usable ORDER BY unlock_at, id, over the first `n` records. */
  ghost predicate Selected(ids: seq<nat>, locks: seq<Lock>, account: nat, n: nat) {
    && n <= |locks|
    && (forall i :: 0 <= i < |ids| ==> ids[i] < n && Usable(locks[ids[i]], account))
    && (forall k: nat :: k < n && Usable(locks[k], account) ==> k in ids)
    && (forall i, j :: 0 <= i < j < |ids| ==> Precedes(locks, ids[i], ids[j]))
  }

  method SelectLocks(locks: seq<Lock>, account: nat) returns (ids: seq<nat>)
    ensures Selected(ids, locks, account, |locks|)
  {
    ids := [];
    for k := 0 to |locks|
      invariant Selected(ids, locks, account, k)
    {
      if Usable(locks[k], account) {
        ids := InsertLock(ids, locks, account, k);
      }
    }
  }

  method InsertLock(ids: seq<nat>, locks: seq<Lock>, account: nat, k: nat) returns (out: seq<nat>)
    requires k < |locks| && Usable(locks[k], account) && Selected(ids, locks, account, k)
    ensures Selected(out, locks, account, k + 1)
  {
    var i := |ids|;
    while i > 0 && locks[k].unlockAt < locks[ids[i - 1]].unlockAt
      invariant 0 <= i <= |ids|
      invariant forall j :: i <= j < |ids| ==> locks[k].unlockAt < locks[ids[j]].unlockAt
    {
      i := i - 1;
    }
    out := ids[..i] + [k] + ids[i..];
    InsertedAt(ids, locks, account, k, i);
  }

  lemma InsertedAt(ids: seq<nat>, locks: seq<Lock>, account: nat, k: nat, i: nat)
    requires k < |locks| && Usable(locks[k], account) && Selected(ids, locks, account, k) && i <= |ids|
    requires forall j :: i <= j < |ids| ==> locks[k].unlockAt < locks[ids[j]].unlockAt
    requires i > 0 ==> locks[ids[i - 1]].unlockAt <= locks[k].unlockAt
    ensures Selected(ids[..i] + [k] + ids[i..], locks, account, k + 1)
  {
    var out := ids[..i] + [k] + ids[i..];
    forall a, b | 0 <= a < b < |out| ensures Precedes(locks, out[a], out[b]) {
      InsertedOrder(ids, locks, account, k, i, a, b);
    }
    InsertedMembers(ids, k, i);
    forall a | 0 <= a < |out| ensures out[a] < k + 1 && Usable(locks[out[a]], account) {
      assert out[a] in out;
    }
  }

  lemma InsertedMembers(ids: seq<nat>, k: nat, i: nat)
    requires i <= |ids|
    ensures forall id :: id in ids[..i] + [k] + ids[i..] <==> id in ids || id == k
  {
    forall id ensures id in ids <==> id in ids[..i] || id in ids[i..] { assert ids == ids[..i] + ids[i..]; }
  }

  lemma InsertedOrder(ids: seq<nat>, locks: seq<Lock>, account: nat, k: nat, i: nat, a: nat, b: nat)
    requires k < |locks| && Selected(ids, locks, account, k) && i <= |ids|
    requires forall j :: i <= j < |ids| ==> locks[k].unlockAt < locks[ids[j]].unlockAt
    requires i > 0 ==> locks[ids[i - 1]].unlockAt <= locks[k].unlockAt
    requires a < b <= |ids|
    ensures var out := ids[..i] + [k] + ids[i..];
      out[a] < |locks| && out[b] < |locks| && Precedes(locks, out[a], out[b])
  {
  }

  lemma SelectedFirst(ids: seq<nat>, locks: seq<Lock>, account: nat)
    requires Selected(ids, locks, account, |locks|)
    ensures Earliest(locks, account) == if |ids| == 0 then None else Some(ids[0])
  {
    var e := Earliest(locks, account);
    if |ids| > 0 {
      EarliestIsFirst(locks, account, ids[0]);
    }
    if e.Some? {
      var j :| 0 <= j < |ids| && ids[j] == e.value;
    }
  }

  lemma SelectedRest(ids: seq<nat>, locks: seq<Lock>, account: nat)
    requires Selected(ids, locks, account, |locks|) && |ids| > 0
    ensures Selected(ids[1..], TakeFrom(locks, ids[0], locks[ids[0]].remaining), account, |locks|)
  {
  }

  /** What the FIFO loop still has to do, after the segments it already has. */
  function Prepend(segments: seq<Segment>, rest: Result<Consumed>): Result<Consumed> {
    if rest.Ok? then Ok(Consumed(rest.value.locks, segments + rest.value.segments)) else rest
  }

  lemma PrependNothing(rest: Result<Consumed>)
    ensures Prepend([], rest) == rest
  {
    if rest.Ok? { assert [] + rest.value.segments == rest.value.segments; }
  }

  /** One row of the result set: its segment joins those already taken. */
  lemma FifoRow(segments: seq<Segment>, locks: seq<Lock>, account: nat, remaining: nat, id: nat, take: nat)
    requires remaining > 0 && Earliest(locks, account) == Some(id) && id < |locks| && take == Min(remaining, locks[id].remaining)
    ensures Prepend(segments + [Segment(take, locks[id].unlockAt)], ConsumeFifo(TakeFrom(locks, id, take), account, remaining - take)) ==
      Prepend(segments, ConsumeFifo(locks, account, remaining))
  {
    var s := Segment(take, locks[id].unlockAt);
    var rest := ConsumeFifo(TakeFrom(locks, id, take), account, remaining - take);
    if rest.Ok? { assert (segments + [s]) + rest.value.segments == segments + ([s] + rest.value.segments); }
  }

  // ---------------------------------------------------------------------
  // Fee lookup
  // ---------------------------------------------------------------------

  lemma {:induction false} FeeUpToSkips(fees: map<int, int>, minRarity: int, rarity: int, best: int)
    requires best <= rarity && forall r :: best < r <= rarity && r >= minRarity && r in fees ==> fees[r] <= 0
    ensures FeeUpTo(fees, minRarity, rarity) == FeeUpTo(fees, minRarity, best)
    decreases rarity - best
  {
    if best < rarity && rarity >= minRarity {
      FeeUpToSkips(fees, minRarity, rarity - 1, best);
    } else if best < rarity {
    }
  }

  /** The next key of a map that is gone through in no particular order. */
  method AnyKey(keys: set<int>) returns (key: int)
    requires keys != {}
    ensures key in keys
  {
    assert exists k :: k in keys by {
      if forall k :: k !in keys { assert false; }
    }
    key :| key in keys;
  }

  /** Whatever order the map gives its entries in, the fee found is the one of the highest
      configured rarity not above `rarity`. */
  method MintFeeForRarity(fees: map<int, int>, minRarity: int, rarity: int) returns (fee: int)
    requires minRarity > 0
    ensures fee == FeeUpTo(fees, minRarity, rarity)
  {
    var best := -1;
    fee := 0;
    var todo: set<int> := fees.Keys;
    while todo != {}
      invariant todo <= fees.Keys
      invariant best == -1 ==> fee == 0
      invariant best != -1 ==> best in fees && minRarity <= best <= rarity && fee == fees[best] > 0
      invariant forall r :: r in fees && r !in todo && r > best && minRarity <= r <= rarity ==> fees[r] <= 0
      decreases todo
    {
      var r := AnyKey(todo);
      todo := todo - {r};
      if r >= minRarity && r <= rarity && r > best && fees[r] > 0 {
        best, fee := r, fees[r];
      }
    }
    if best == -1 {
      if rarity >= minRarity { FeeUpToSkips(fees, minRarity, rarity, minRarity - 1); }
    } else {
      FeeUpToSkips(fees, minRarity, rarity, best);
    }
  }

  class MarketStore {
    var purse: Purse
    var characters: seq<Character>
    var equipment: seq<Equipment>
    var stacks: seq<Stack>
    var listings: seq<Listing>
    var sales: seq<Sale>
    var nfts: seq<NftAsset>
    var requests: seq<MintRequest>
    var slots: seq<Slots>
    var tradable: set<string>

    function State(): Db
      reads this
    {
      Db(purse, characters, equipment, stacks, listings, sales, nfts, requests, slots, tradable)
    }

    constructor (start: Db)
      ensures State() == start
    {
      purse, characters, equipment, stacks := start.purse, start.characters, start.equipment, start.stacks;
      listings, sales, nfts, requests := start.listings, start.sales, start.nfts, start.requests;
      slots, tradable := start.slots, start.tradable;
    }

    method Rollback(saved: Db)
      modifies this
      ensures State() == saved
    {
      purse, characters, equipment, stacks := saved.purse, saved.characters, saved.equipment, saved.stacks;
      listings, sales, nfts, requests := saved.listings, saved.sales, saved.nfts, saved.requests;
      slots, tradable := saved.slots, saved.tradable;
    }

    // -------------------------------------------------------------------
    // Tokens
    // -------------------------------------------------------------------

    /** Goes once through the ordered result set, as many rows as the amount needs. */
    method ConsumeLockedTokenFifo(account: nat, amount: nat) returns (ok: bool, segments: seq<Segment>)
      modifies this`purse
      ensures ok ==> ConsumeFifo(old(purse.locks), account, amount) == Ok(Consumed(purse.locks, segments))
      ensures ok ==> purse.balances == old(purse.balances)
      ensures !ok ==> ConsumeFifo(old(purse.locks), account, amount).Fail?
    {
      var rows := SelectLocks(purse.locks, account);
      var remaining := amount;
      segments := [];
      PrependNothing(ConsumeFifo(purse.locks, account, amount));
      while |rows| > 0 && remaining > 0
        invariant 0 <= remaining <= amount && purse.balances == old(purse.balances)
        invariant remaining > 0 ==> Selected(rows, purse.locks, account, |purse.locks|)
        invariant Prepend(segments, ConsumeFifo(purse.locks, account, remaining)) == ConsumeFifo(old(purse.locks), account, amount)
        decreases |rows|
      {
        SelectedFirst(rows, purse.locks, account);
        var row := purse.locks[rows[0]];
        var take := Min(remaining, row.remaining);
        FifoRow(segments, purse.locks, account, remaining, rows[0], take);
        if take < remaining { SelectedRest(rows, purse.locks, account); }
        purse := purse.(locks := TakeFrom(purse.locks, rows[0], take));
        segments := segments + [Segment(take, row.unlockAt)];
        remaining := remaining - take;
        rows := rows[1..];
      }
      if remaining > 0 {
        SelectedFirst(rows, purse.locks, account);
      }
      assert segments + [] == segments;
      ok := remaining == 0;
    }

    method SpendTokenInTx(account: nat, amount: int) returns (r: Result<Spend>)
      modifies this`purse
      ensures r.Ok? ==> SpendTokens(old(purse), account, amount) == Ok(Spending(purse, r.value))
      ensures r.Fail? ==> SpendTokens(old(purse), account, amount).Fail?
    {
      if amount <= 0 || account >= |purse.balances| {
        return Fail("no such spend");
      }
      var b := purse.balances[account];
      if b.locked + b.withdrawable + b.external < amount {
        return Fail("insufficient balance");
      }
      var remaining: nat := amount;
      var locked: nat := 0;
      var segments := [];
      if b.locked > 0 {
        locked := Min(remaining, b.locked);
        var ok;
        ok, segments := ConsumeLockedTokenFifo(account, locked);
        if !ok {
          return Fail("insufficient balance: locked token records");
        }
        remaining := remaining - locked;
      }
      var withdrawable := 0;
      if remaining > 0 && b.withdrawable > 0 {
        withdrawable := Min(remaining, b.withdrawable);
        remaining := remaining - withdrawable;
      }
      var external := remaining;
      if external > 0 && external > b.external {
        return Fail("insufficient balance");
      }
      if b.locked < locked || b.withdrawable < withdrawable || b.external < external || b.total < amount {
        return Fail("insufficient balance");
      }
      purse := purse.(balances := purse.balances[account := Balance(b.locked - locked, b.withdrawable - withdrawable,
                                                                    b.external - external, b.total - amount)]);
      r := Ok(Spend(locked, withdrawable, external, segments));
    }

    /** Inserts one lock record for each recorded segment, then adds to the buckets. */
    method RefundMintFee(account: nat, fee: int, recorded: Spend) returns (ok: bool)
      modifies this`purse
      ensures ok ==> Refund(old(purse), account, fee, recorded) == Ok(purse)
      ensures !ok ==> Refund(old(purse), account, fee, recorded).Fail?
    {
      var spend := EffectiveSpend(recorded, fee);
      if spend.locked + spend.withdrawable + spend.external != fee {
        return false;
      }
      var total := 0;
      for i := 0 to |spend.segments|
        invariant forall k :: 0 <= k < i ==> SegmentValid(spend.segments[k])
        invariant total == Sum(spend.segments[..i], SegmentAmount())
        invariant purse == old(purse).(locks := old(purse.locks) + LocksOf(account, spend.segments[..i]))
      {
        var s := spend.segments[i];
        if s.amount <= 0 || s.unlockAt == 0 {
          return false;
        }
        assert spend.segments[..i + 1][..i] == spend.segments[..i];
        assert LocksOf(account, spend.segments[..i + 1]) ==
          LocksOf(account, spend.segments[..i]) + [Lock(account, s.amount, s.unlockAt, true)];
        total := total + s.amount;
        purse := purse.(locks := purse.locks + [Lock(account, s.amount, s.unlockAt, true)]);
      }
      assert spend.segments[..|spend.segments|] == spend.segments;
      if total != spend.locked || account >= |purse.balances| {
        return false;
      }
      var b := purse.balances[account];
      purse := purse.(balances := purse.balances[account := Balance(b.locked + spend.locked, b.withdrawable + spend.withdrawable,
                                                                    b.external + spend.external, b.total + fee)]);
      ok := true;
    }

    // -------------------------------------------------------------------
    // Bag slots
    // -------------------------------------------------------------------

    /** Tries slots 0 to 999 in turn. */
    method ResolveStorageSlot(character: nat) returns (r: Result<nat>)
      ensures r.Ok? ==> FreeSlot(State(), character) == r
      ensures r.Fail? ==> FreeSlot(State(), character).Fail?
    {
      for slot := 0 to 1000
        invariant forall lower: nat :: lower < slot ==> Occupants(State(), character, InBag, lower) != 0
      {
        if Occupants(State(), character, InBag, slot) == 0 {
          assert FirstFree(State(), character, slot);
          return Ok(slot);
        }
      }
      r := Fail("no available slot");
    }

    // -------------------------------------------------------------------
    // Marketplace
    // -------------------------------------------------------------------

    method LockEquipmentForListing(account: nat, character: nat, id: nat, price: int, deposit: int) returns (ok: bool)
      modifies this`equipment, this`listings
      ensures ok ==> LockEquipment(old(State()), account, character, id, price, deposit) == Ok(State())
      ensures !ok ==> LockEquipment(old(State()), account, character, id, price, deposit).Fail?
    {
      if id >= |equipment| || equipment[id].account != account || equipment[id].character != character {
        return false;
      }
      var e := equipment[id];
      if (e.place != InBag && e.place != InWarehouse) || !e.unbound || e.item !in tradable {
        return false;
      }
      equipment := equipment[id := e.(place := Listed, slot := None)];
      listings := listings + [Listing(account, character, EquipmentAsset, id, e.item, 1, price, deposit, OnSale)];
      ok := true;
    }

    /** The whole stack, or a new one split off from it, becomes LISTED. */
    method TakeToList(id: nat, quantity: int, character: nat) returns (listed: nat)
      requires id < |stacks|
      modifies this`stacks
      ensures var s := old(stacks)[id];
        if quantity == s.quantity then listed == id && stacks == old(stacks)[id := s.(place := Listed, slot := None)]
        else
          && listed == old(|stacks|)
          && stacks == old(stacks)[id := s.(quantity := s.quantity - quantity)] + [Stack(character, s.item, quantity, Listed, None, true)]
    {
      var s := stacks[id];
      listed := id;
      if quantity == s.quantity {
        stacks := stacks[id := s.(place := Listed, slot := None)];
      } else {
        stacks := stacks[id := s.(quantity := s.quantity - quantity)];
        listed := |stacks|;
        stacks := stacks + [Stack(character, s.item, quantity, Listed, None, true)];
      }
    }

    method LockItemForListing(account: nat, character: nat, place: Place, slot: nat, quantity: int, price: int, deposit: int)
      returns (ok: bool)
      modifies this`stacks, this`listings
      ensures ok ==> LockItem(old(State()), account, character, place, slot, quantity, price, deposit) == Ok(State())
      ensures !ok ==> LockItem(old(State()), account, character, place, slot, quantity, price, deposit).Fail?
    {
      if quantity <= 0 || (place != InBag && place != InWarehouse) {
        return false;
      }
      var found := FindStack(stacks, character, place, slot);
      if found.None? {
        return false;
      }
      var id := found.value;
      var s := stacks[id];
      if !s.unbound || s.item !in tradable || quantity > s.quantity {
        return false;
      }
      var listed := TakeToList(id, quantity, character);
      listings := listings + [Listing(account, character, ItemAsset, listed, s.item, quantity, price, deposit, OnSale)];
      ok := true;
    }

    method MarketplaceCreateListing(account: nat, character: nat, offer: Offer, price: int, rules: Rules, allowed: bool) returns (ok: bool)
      modifies this
      ensures ok == CreateListing(old(State()), account, character, offer, price, rules, allowed).Ok?
      ensures ok ==> CreateListing(old(State()), account, character, offer, price, rules, allowed) == Ok(State())
      ensures !ok ==> State() == old(State())
    {
      var saved := State();
      var r := WithDefaults(rules);
      if !allowed || !Owns(State(), account, character) || account >= |slots| || price < r.minPrice {
        return false;
      }
      if Sum(listings, ActiveOf(account)) >= SlotCapacity(r, slots[account]) {
        return false;
      }
      var deposit := BpsCeil(price, r.depositBps);
      var spend := SpendTokenInTx(account, deposit);
      if spend.Fail? {
        Rollback(saved);
        return false;
      }
      match offer {
        case OfferEquipment(id) => ok := LockEquipmentForListing(account, character, id, price, deposit);
        case OfferItem(place, slot, quantity) => ok := LockItemForListing(account, character, place, slot, quantity, price, deposit);
      }
      if !ok {
        Rollback(saved);
      }
    }

    /** The listed asset goes to a free slot of the character's bag. */
    method TransferListedAsset(l: Listing, owner: nat, character: nat) returns (ok: bool)
      modifies this`equipment, this`stacks
      ensures ok ==> DeliverAsset(old(State()), l, owner, character) == Ok(State())
      ensures !ok ==> DeliverAsset(old(State()), l, owner, character).Fail?
    {
      var slot := ResolveStorageSlot(character);
      if slot.Fail? {
        return false;
      }
      match l.kind {
        case EquipmentAsset =>
          ok := l.asset < |equipment| && equipment[l.asset].place == Listed;
          if ok {
            var e := equipment[l.asset];
            equipment := equipment[l.asset := e.(account := owner, character := character, place := InBag, slot := Some(slot.value))];
          }
        case ItemAsset =>
          ok := l.asset < |stacks| && stacks[l.asset].place == Listed;
          if ok {
            var s := stacks[l.asset];
            stacks := stacks[l.asset := s.(character := character, place := InBag, slot := Some(slot.value))];
          }
      }
    }

    method PayForListing(seller: nat, s: Sale, unlockAt: int) returns (ok: bool)
      modifies this`purse
      ensures ok ==> SettlePurchase(old(purse), seller, s, unlockAt) == Ok(purse)
      ensures !ok ==> SettlePurchase(old(purse), seller, s, unlockAt).Fail?
    {
      var accounts := |purse.balances|;
      var spend := SpendTokenInTx(s.buyer, s.amount);
      ok := spend.Ok? && seller < accounts;
      if ok {
        purse := GrantLocked(purse, seller, s.proceeds, unlockAt);
        purse := GrantLocked(purse, seller, s.depositReturned, unlockAt);
      }
    }

    method MarketplaceBuy(buyer: nat, character: nat, id: nat, rules: Rules, allowed: bool, unlockAt: int) returns (ok: bool)
      modifies this
      ensures ok == Buy(old(State()), buyer, character, id, rules, allowed, unlockAt).Ok?
      ensures ok ==> Buy(old(State()), buyer, character, id, rules, allowed, unlockAt) == Ok(State())
      ensures !ok ==> State() == old(State())
    {
      var saved := State();
      if !allowed || !Owns(State(), buyer, character) || id >= |listings| {
        return false;
      }
      var l := listings[id];
      if l.status != OnSale || l.seller == buyer {
        return false;
      }
      var sale := SaleRow(WithDefaults(rules), buyer, id, l);
      ok := PayForListing(l.seller, sale, unlockAt);
      if ok {
        ok := TransferListedAsset(l, buyer, character);
      }
      if !ok {
        Rollback(saved);
        return;
      }
      listings := listings[id := l.(status := Sold)];
      sales := sales + [sale];
    }

    method MarketplaceCancel(account: nat, id: nat, allowed: bool) returns (ok: bool)
      modifies this
      ensures ok == Cancel(old(State()), account, id, allowed).Ok?
      ensures ok ==> Cancel(old(State()), account, id, allowed) == Ok(State())
      ensures !ok ==> State() == old(State())
    {
      var saved := State();
      if !allowed || id >= |listings| {
        return false;
      }
      var l := listings[id];
      if l.seller != account || l.status != OnSale || !Owns(State(), account, l.sellerCharacter) {
        return false;
      }
      if l.kind == EquipmentAsset && (l.asset >= |equipment| || equipment[l.asset].account != account) {
        return false;
      }
      ok := TransferListedAsset(l, account, l.sellerCharacter);
      if !ok {
        Rollback(saved);
        return;
      }
      listings := listings[id := l.(status := Cancelled)];
    }

    // -------------------------------------------------------------------
    // Minting
    // -------------------------------------------------------------------

    /** The checks of a mint request, with the fee of the highest configured rarity. */
    method CheckMint(account: nat, character: nat, id: nat, rules: Rules) returns (r: Result<int>)
      ensures r.Ok? ==> r == MintFeeDue(State(), account, character, id, rules)
      ensures r.Fail? ==> MintFeeDue(State(), account, character, id, rules).Fail?
    {
      var w := WithDefaults(rules);
      if !Owns(State(), account, character) || id >= |equipment| || equipment[id].account != account || equipment[id].character != character {
        return Fail("not found");
      }
      var e := equipment[id];
      if (e.place != InBag && e.place != InWarehouse) || e.rarity < w.minRarity {
        return Fail("cannot be minted");
      }
      var fee := MintFeeForRarity(w.mintFees, w.minRarity, e.rarity);
      if fee <= 0 || Sum(nfts, LiveNft(id)) > 0 {
        return Fail("no fee, or minted already");
      }
      r := Ok(fee);
    }

    method RequestNftMint(account: nat, character: nat, id: nat, rules: Rules) returns (ok: bool)
      modifies this
      ensures ok == RequestMint(old(State()), account, character, id, rules).Ok?
      ensures ok ==> RequestMint(old(State()), account, character, id, rules) == Ok(State())
      ensures !ok ==> State() == old(State())
    {
      var fee := CheckMint(account, character, id, rules);
      if fee.Fail? {
        return false;
      }
      var saved := State();
      var spend := SpendTokenInTx(account, fee.value);
      if spend.Fail? {
        Rollback(saved);
        return false;
      }
      RecordMint(account, id, fee.value, spend.value);
      ok := true;
    }

    method RecordMint(account: nat, id: nat, fee: int, spend: Spend)
      requires id < |equipment|
      modifies this`requests, this`nfts, this`equipment
      ensures requests == old(requests) + [MintRequest(account, old(|nfts|), id, fee, spend, Paid)]
      ensures nfts == old(nfts) + [NftAsset(account, id, MintRequested)]
      ensures equipment == old(equipment)[id := old(equipment)[id].(place := MintPending, slot := None)]
    {
      requests := requests + [MintRequest(account, |nfts|, id, fee, spend, Paid)];
      nfts := nfts + [NftAsset(account, id, MintRequested)];
      equipment := equipment[id := equipment[id].(place := MintPending, slot := None)];
    }

    method ConfirmNftMint(id: nat) returns (ok: bool)
      modifies this
      ensures ok == ConfirmMint(old(State()), id).Ok?
      ensures ok ==> ConfirmMint(old(State()), id) == Ok(State())
      ensures !ok ==> State() == old(State())
      ensures ok ==> |requests| == old(|requests|) && requests[id].status == MintConfirmed && purse == old(purse)
      ensures ok ==> forall k :: 0 <= k < |requests| && k != id ==> requests[k] == old(requests)[k]
      ensures ok && old(requests)[id].status == MintConfirmed ==> State() == old(State())
      ensures ok && old(requests)[id].status == Paid ==> nfts[requests[id].asset].status == Minted
    {
      if id >= |requests| {
        return false;
      }
      var q := requests[id];
      if q.status == MintConfirmed {
        return true;
      }
      if q.status != Paid || q.asset >= |nfts| || q.equipment >= |equipment| {
        return false;
      }
      requests := requests[id := q.(status := MintConfirmed)];
      nfts := nfts[q.asset := nfts[q.asset].(status := Minted)];
      var e := equipment[q.equipment];
      equipment := equipment[q.equipment := if e.place == MintPending then e.(place := OnChain, nft := Some(q.asset)) else e];
      ok := true;
    }

    method CancelNftMint(account: nat, id: nat) returns (ok: bool)
      modifies this
      ensures ok == CancelMint(old(State()), account, id).Ok?
      ensures ok ==> CancelMint(old(State()), account, id) == Ok(State())
      ensures !ok ==> State() == old(State())
    {
      var saved := State();
      if id >= |requests| {
        return false;
      }
      var q := requests[id];
      if q.account != account || q.status != Paid || q.asset >= |nfts| || q.equipment >= |equipment| {
        return false;
      }
      var returned := ReturnEquipment(equipment[q.equipment]);
      if returned.Fail? {
        return false;
      }
      ok := RefundMintFee(account, q.fee, q.spend);
      if !ok {
        Rollback(saved);
        return;
      }
      requests := requests[id := q.(status := MintCancelled)];
      nfts := nfts[q.asset := nfts[q.asset].(status := NftCancelled)];
      equipment := equipment[q.equipment := returned.value];
    }

    /** Equipment that waits for its mint goes back to a free slot of the bag. */
    method ReturnEquipment(e: Equipment) returns (r: Result<Equipment>)
      ensures r.Ok? ==> (if e.place == MintPending then ReturnToBag(State(), e) else Ok(e)) == r
      ensures r.Fail? ==> (if e.place == MintPending then ReturnToBag(State(), e) else Ok(e)).Fail?
    {
      r := Ok(e);
      if e.place == MintPending {
        var slot := ResolveStorageSlot(e.character);
        if slot.Fail? {
          return Fail("no available slot");
        }
        r := Ok(e.(place := InBag, slot := Some(slot.value)));
      }
    }
  }
}
