/** A configuration above 10000 basis points makes a sale record a fee that nobody
    paid: a concrete purchase. */
module EconomyExample {
  import opened Basics
  import opened Tokens
  import opened Economy
  import opened EconomyProofs
  import opened EconomyRuns
  import opened EconomyTheorems

  function HighFee(): Rules { Rules(1, 20000, 100, 300, 100, 5, 2, 2, 3, map[3 := 500]) }

  /** Account 0 sells one piece of equipment for 10000 tokens; account 1 has exactly those. */
  function OneListing(): Db {
    Db(Purse([Balance(0, 0, 0, 0), Balance(0, 10000, 0, 10000)], []),
       [Character(0, false), Character(1, false)],
       [Equipment(0, 0, "sword", Listed, None, true, 3, None)],
       [],
       [Listing(0, 0, EquipmentAsset, 0, "sword", 1, 10000, 100, OnSale)],
       [], [], [],
       [Slots(0, 0), Slots(0, 0)],
       {"sword"})
  }

  lemma SumOfOne<T>(row: T, weight: T -> int)
    ensures Sum([row], weight) == weight(row)
  {
  }

  lemma OneListingSound()
    ensures Sound(OneListing(), HighFee())
  {
    var db := OneListing();
    forall i: nat, kind: AssetKind ensures Sum(db.listings, Names(kind, i)) == Indicator(i == 0 && kind == EquipmentAsset) {
      SumOfOne(db.listings[0], Names(kind, i));
    }
    forall a: nat ensures Sum(db.listings, ActiveOf(a)) <= 1 {
      SumOfOne(db.listings[0], ActiveOf(a));
    }
    forall c: nat, p: Place, slot: nat | Stored(p) ensures Occupants(db, c, p, slot) <= 1 {
      SumOfOne(db.equipment[0], EquipmentIn(c, p, slot));
    }
    assert OfEquipment(db.equipment) == [EquipmentHolding(db.equipment[0])];
    assert OfStacks(db.stacks) == [];
  }

  /** The buyer can pay, has the first slot free, and the fee is `gap` above the price. */
  ghost predicate Overcharged(db: Db, rules: Rules, buyer: nat, character: nat, id: nat, gap: int) {
    && Sound(db, rules) && id < |db.listings| && buyer < |db.purse.balances| && gap > 0
    && db.listings[id].seller < |db.purse.balances| && db.listings[id].seller != buyer && db.listings[id].status == OnSale
    && Worth()(db.purse.balances[buyer]) >= db.listings[id].price && db.purse.balances[buyer].total >= db.listings[id].price
    && Owns(db, buyer, character) && FirstFree(db, character, 0)
    && FeeOf(rules, db.listings[id].price) == db.listings[id].price + gap
  }

  /** Such a purchase goes through, and afterwards `gap` tokens more are accounted for. */
  lemma OverchargeMakesTokens(db: Db, rules: Rules, buyer: nat, character: nat, id: nat, gap: int, unlockAt: int) returns (db': Db)
    requires Overcharged(db, rules, buyer, character, id, gap) && unlockAt != 0
    ensures Buy(db, buyer, character, id, rules, true, unlockAt) == Ok(db') && Wealth(db') == Wealth(db) + gap
  {
    BuySucceedsIff(db, rules, buyer, character, id, unlockAt);
    db' := Buy(db, buyer, character, id, rules, true, unlockAt).value;
    BuyMoves(db, db', rules, buyer, character, id, true, unlockAt);
  }

  /** One listing under the high fee is such a case. */
  lemma OneListingOvercharged() returns (db: Db, rules: Rules)
    ensures Overcharged(db, rules, 1, 1, 0, 10000)
  {
    db, rules := OneListing(), HighFee();
    OneListingSound();
    SumOfOne(db.equipment[0], EquipmentIn(1, InBag, 0));
    assert FeeOf(rules, 10000) == 20000;
  }

  /** A sound state, OneListing under HighFee, and a purchase after which 10000 tokens more are
      accounted for than before. */
  lemma FeeAbovePriceMakesTokens(unlockAt: int) returns (db: Db, rules: Rules, db': Db)
    requires unlockAt != 0
    ensures Sound(db, rules) && Buy(db, 1, 1, 0, rules, true, unlockAt) == Ok(db') && Wealth(db') == Wealth(db) + 10000
  {
    db, rules := OneListingOvercharged();
    db' := OverchargeMakesTokens(db, rules, 1, 1, 0, 10000, unlockAt);
  }
}
