/** Organizing a bag or warehouse: stacks are grouped, split, sorted and put
    into slots 0, 1, 2, ... with equipment after them. */
module Storage {
  import opened Basics
  import opened Sorting

  datatype Stack = Stack(item: string, bind: string, quantity: int)

  datatype Row = Row(stack: Stack, slot: Option<nat>)

  /** item_catalog: whether an item is stackable. */
  type Catalog = map<string, bool>

  predicate ValidBind(bind: string) { bind == "BOUND" || bind == "ACCOUNT_BOUND" || bind == "UNBOUND" }

  function MaxStack(catalog: Catalog, item: string): (m: int)
    ensures m > 0
  {
    if item in catalog && !catalog[item] then 1 else 999
  }

  function Join(item: string, bind: string): string { item + "|" + bind }

  function Key(s: Stack): string { Join(s.item, s.bind) }

  // ---------------------------------------------------------------------
  // Splitting a key
  // ---------------------------------------------------------------------

  function FirstBar(key: string): (i: nat)
    ensures i <= |key| && '|' !in key[..i] && (i < |key| ==> key[i] == '|')
  {
    if |key| == 0 || key[0] == '|' then 0
    else
      var i := 1 + FirstBar(key[1..]);
      assert key[..i] == [key[0]] + key[1..][..i - 1];
      i
  }

  function SplitPair(key: string): (string, string) {
    var i := FirstBar(key);
    if i < |key| then (key[..i], key[i + 1..]) else (key, "BOUND")
  }

  method SplitPairScan(key: string) returns (pair: (string, string))
    ensures pair == SplitPair(key)
  {
    for i := 0 to |key|
      invariant '|' !in key[..i]
    {
      assert key[..i + 1] == key[..i] + [key[i]];
      if key[i] == '|' {
        FirstBarIs(key, i);
        return (key[..i], key[i + 1..]);
      }
    }
    assert key[..|key|] == key;
    FirstBarIs(key, |key|);
    pair := (key, "BOUND");
  }

  lemma FirstBarIs(key: string, i: nat)
    requires i <= |key| && '|' !in key[..i] && (i < |key| ==> key[i] == '|')
    ensures FirstBar(key) == i
  {
  }

  /** A key splits into the pair it was joined from exactly when the item id has no bar. */
  lemma SplitJoinIff(item: string, bind: string)
    ensures SplitPair(Join(item, bind)) == (item, bind) <==> '|' !in item
    ensures '|' in item ==> '|' in SplitPair(Join(item, bind)).1
  {
    var key := Join(item, bind);
    var i := FirstBar(key);
    if '|' !in item {
      assert key[..|item|] == item && key[|item| + 1..] == bind;
      FirstBarIs(key, |item|);
    } else {
      var k :| 0 <= k < |item| && item[k] == '|';
      assert key[k] == '|';
      assert i <= k by { assert forall j :: 0 <= j < i ==> key[j] in key[..i]; }
      assert key[i + 1..][|item| - i - 1] == '|';
    }
  }

  lemma JoinSplit(key: string)
    requires '|' in key
    ensures Join(SplitPair(key).0, SplitPair(key).1) == key && '|' !in SplitPair(key).0
  {
  }

  // ---------------------------------------------------------------------
  // Totals
  // ---------------------------------------------------------------------

  function KeyQuantity(key: string): Stack -> int { (s: Stack) => if Key(s) == key then s.quantity else 0 }

  function PairQuantity(item: string, bind: string): Stack -> int {
    (s: Stack) => if s.item == item && s.bind == bind then s.quantity else 0
  }

  function PairCount(item: string, bind: string): Stack -> int { (s: Stack) => Indicator(s.item == item && s.bind == bind) }

  function Quantity(): Stack -> int { (s: Stack) => s.quantity }

  /** Same quantity of every item under every binding. */
  ghost predicate SameTotals(a: seq<Stack>, b: seq<Stack>) {
    forall item, bind :: Sum(a, PairQuantity(item, bind)) == Sum(b, PairQuantity(item, bind))
  }

  predicate LegalStack(s: Stack, catalog: Catalog) { 0 < s.quantity <= MaxStack(catalog, s.item) && ValidBind(s.bind) }

  predicate Legal(stacks: seq<Stack>, catalog: Catalog) { forall i :: 0 <= i < |stacks| ==> LegalStack(stacks[i], catalog) }

  predicate NoBar(stacks: seq<Stack>) { forall i :: 0 <= i < |stacks| ==> '|' !in stacks[i].item }

  /** What the table's constraints promise of every row. */
  predicate Stored(stacks: seq<Stack>) { forall i :: 0 <= i < |stacks| ==> stacks[i].quantity > 0 && ValidBind(stacks[i].bind) }

  /** The number of stacks of at most `max` that `total` needs. */
  function CeilDiv(total: int, max: int): int
    requires max > 0
    decreases total
  {
    if total <= 0 then 0 else 1 + CeilDiv(total - max, max)
  }

  // ---------------------------------------------------------------------
  // Grouping
  // ---------------------------------------------------------------------

  function Get(groups: map<string, int>, key: string): int { if key in groups then groups[key] else 0 }

  /** The map holds each key's total, for exactly the keys that occur. */
  ghost predicate Grouped(stacks: seq<Stack>, groups: map<string, int>) {
    && (forall key :: Get(groups, key) == Sum(stacks, KeyQuantity(key)))
    && (forall key :: key in groups ==> groups[key] > 0 && Occurs(stacks, key))
    && (forall i :: 0 <= i < |stacks| ==> Key(stacks[i]) in groups)
  }

  predicate Occurs(stacks: seq<Stack>, key: string) { exists i :: 0 <= i < |stacks| && Key(stacks[i]) == key }

  lemma GroupedMore(stacks: seq<Stack>, s: Stack, groups: map<string, int>)
    requires Grouped(stacks, groups) && s.quantity > 0
    ensures Grouped(stacks + [s], groups[Key(s) := Get(groups, Key(s)) + s.quantity])
  {
    var more, groups' := stacks + [s], groups[Key(s) := Get(groups, Key(s)) + s.quantity];
    forall key ensures Get(groups', key) == Sum(more, KeyQuantity(key)) {
      SumAppend(stacks, s, KeyQuantity(key));
    }
    forall key | key in groups' ensures groups'[key] > 0 && Occurs(more, key) {
      if key == Key(s) {
        assert Key(more[|stacks|]) == key;
      } else {
        var i :| 0 <= i < |stacks| && Key(stacks[i]) == key;
        assert Key(more[i]) == key;
      }
    }
  }

  method GroupStacks(stacks: seq<Stack>) returns (groups: map<string, int>)
    requires Stored(stacks)
    ensures Grouped(stacks, groups)
  {
    groups := map[];
    for i := 0 to |stacks|
      invariant Grouped(stacks[..i], groups)
    {
      assert stacks[..i + 1] == stacks[..i] + [stacks[i]];
      GroupedMore(stacks[..i], stacks[i], groups);
      var key := Key(stacks[i]);
      groups := groups[key := Get(groups, key) + stacks[i].quantity];
    }
    assert stacks[..|stacks|] == stacks;
  }

  // ---------------------------------------------------------------------
  // Splitting groups into stacks
  // ---------------------------------------------------------------------

  predicate AllOf(pieces: seq<Stack>, item: string, bind: string, max: int) {
    forall i :: 0 <= i < |pieces| ==> pieces[i].item == item && pieces[i].bind == bind && 0 < pieces[i].quantity <= max
  }

  predicate AllButLastFull(pieces: seq<Stack>, max: int) { forall i :: 0 <= i < |pieces| - 1 ==> pieces[i].quantity == max }

  lemma PieceAdded(pieces: seq<Stack>, item: string, bind: string, quantity: int, max: int)
    requires AllOf(pieces, item, bind, max) && AllButLastFull(pieces, max) && 0 < quantity <= max
    requires |pieces| > 0 ==> pieces[|pieces| - 1].quantity == max
    ensures var more := pieces + [Stack(item, bind, quantity)];
      AllOf(more, item, bind, max) && AllButLastFull(more, max) && Sum(more, Quantity()) == Sum(pieces, Quantity()) + quantity
  {
    SumAppend(pieces, Stack(item, bind, quantity), Quantity());
  }

  method SplitGroup(item: string, bind: string, total: int, max: int) returns (pieces: seq<Stack>)
    requires max > 0 && total >= 0
    ensures AllOf(pieces, item, bind, max) && Sum(pieces, Quantity()) == total && |pieces| == CeilDiv(total, max)
    ensures AllButLastFull(pieces, max)
  {
    pieces := [];
    var remaining := total;
    while remaining > 0
      invariant 0 <= remaining <= total && AllOf(pieces, item, bind, max) && AllButLastFull(pieces, max)
      invariant remaining > 0 && |pieces| > 0 ==> pieces[|pieces| - 1].quantity == max
      invariant Sum(pieces, Quantity()) == total - remaining
      invariant |pieces| + CeilDiv(remaining, max) == CeilDiv(total, max)
    {
      var quantity := remaining;
      if quantity > max {
        quantity := max;
      }
      PieceAdded(pieces, item, bind, quantity, max);
      pieces := pieces + [Stack(item, bind, quantity)];
      remaining := remaining - quantity;
    }
  }

  lemma {:induction false} AllOfSums(pieces: seq<Stack>, item: string, bind: string, max: int, i: string, b: string)
    requires AllOf(pieces, item, bind, max)
    ensures Sum(pieces, PairQuantity(i, b)) == if i == item && b == bind then Sum(pieces, Quantity()) else 0
    ensures Sum(pieces, PairCount(i, b)) == if i == item && b == bind then |pieces| else 0
  {
    if |pieces| > 0 { AllOfSums(pieces[..|pieces| - 1], item, bind, max, i, b); }
  }

  /** Counts the stacks of a pair that have room left. */
  function Partial(item: string, bind: string, catalog: Catalog): Stack -> int {
    (s: Stack) => Indicator(s.item == item && s.bind == bind && s.quantity < MaxStack(catalog, item))
  }

  lemma {:induction false} PartialPieces(pieces: seq<Stack>, item: string, bind: string, catalog: Catalog, i: string, b: string)
    requires AllOf(pieces, item, bind, MaxStack(catalog, item)) && AllButLastFull(pieces, MaxStack(catalog, item))
    ensures Sum(pieces, Partial(i, b, catalog)) <= if i == item && b == bind then 1 else 0
  {
    if |pieces| > 0 {
      var head := pieces[..|pieces| - 1];
      forall k | 0 <= k < |head| ensures Partial(i, b, catalog)(head[k]) <= 0 { assert head[k] == pieces[k]; }
      SumAtMost(head, Partial(i, b, catalog), (s: Stack) => 0);
      NothingSums(head);
    }
  }

  lemma {:induction false} NothingSums(stacks: seq<Stack>)
    ensures Sum(stacks, (s: Stack) => 0) == 0
  {
    if |stacks| > 0 { NothingSums(stacks[..|stacks| - 1]); }
  }

  /** At most one stack of each pair has room left. */
  ghost predicate Filled(pieces: seq<Stack>, catalog: Catalog) {
    forall item, bind :: Sum(pieces, Partial(item, bind, catalog)) <= 1
  }

  /** Pieces of a pair that has none yet. */
  lemma FilledMore(merged: seq<Stack>, pieces: seq<Stack>, item: string, bind: string, catalog: Catalog)
    requires Filled(merged, catalog) && Sum(merged, PairCount(item, bind)) == 0
    requires AllOf(pieces, item, bind, MaxStack(catalog, item)) && AllButLastFull(pieces, MaxStack(catalog, item))
    ensures Filled(merged + pieces, catalog)
  {
    SumAtMost(merged, Partial(item, bind, catalog), PairCount(item, bind));
    forall i, b ensures Sum(merged + pieces, Partial(i, b, catalog)) <= 1 {
      SumConcat(merged, pieces, Partial(i, b, catalog));
      PartialPieces(pieces, item, bind, catalog, i, b);
    }
  }

  /** The pieces hold, for each pair done, its group's total in the fewest stacks. */
  ghost predicate Merged(pieces: seq<Stack>, groups: map<string, int>, todo: set<string>, catalog: Catalog) {
    && (forall i :: 0 <= i < |pieces| ==>
          0 < pieces[i].quantity <= MaxStack(catalog, pieces[i].item) && '|' !in pieces[i].item && Key(pieces[i]) in groups)
    && (forall item, bind :: Sum(pieces, PairQuantity(item, bind)) == Share(groups, todo, item, bind))
    && (forall item, bind :: Sum(pieces, PairCount(item, bind)) == CeilDiv(Share(groups, todo, item, bind), MaxStack(catalog, item)))
  }

  function Share(groups: map<string, int>, todo: set<string>, item: string, bind: string): int {
    if '|' in item || Join(item, bind) in todo then 0 else Get(groups, Join(item, bind))
  }

  method MergeGroups(groups: map<string, int>, catalog: Catalog) returns (merged: seq<Stack>)
    requires forall key :: key in groups ==> groups[key] > 0 && '|' in key
    ensures Merged(merged, groups, {}, catalog) && Filled(merged, catalog)
  {
    merged := [];
    var todo := groups.Keys;
    while todo != {}
      invariant todo <= groups.Keys && Merged(merged, groups, todo, catalog) && Filled(merged, catalog)
      decreases todo
    {
      var key :| key in todo;
      merged := MergeOne(merged, groups, todo, key, catalog);
      todo := todo - {key};
    }
  }

  method MergeOne(merged: seq<Stack>, groups: map<string, int>, todo: set<string>, key: string, catalog: Catalog) returns (more: seq<Stack>)
    requires key in todo && todo <= groups.Keys && groups[key] > 0 && '|' in key
    requires Merged(merged, groups, todo, catalog) && Filled(merged, catalog)
    ensures Merged(more, groups, todo - {key}, catalog) && Filled(more, catalog)
  {
    var pair := SplitPairScan(key);
    var pieces := SplitGroup(pair.0, pair.1, groups[key], MaxStack(catalog, pair.0));
    more := merged + pieces;
    MergedMore(merged, groups, todo, key, catalog, pieces);
    NoneYet(merged, groups, todo, key, catalog);
    FilledMore(merged, pieces, pair.0, pair.1, catalog);
  }

  lemma NoneYet(merged: seq<Stack>, groups: map<string, int>, todo: set<string>, key: string, catalog: Catalog)
    requires key in todo && '|' in key && Merged(merged, groups, todo, catalog)
    ensures Sum(merged, PairCount(SplitPair(key).0, SplitPair(key).1)) == 0
  {
    JoinSplit(key);
  }

  lemma MergedMore(merged: seq<Stack>, groups: map<string, int>, todo: set<string>, key: string, catalog: Catalog, pieces: seq<Stack>)
    requires key in todo && todo <= groups.Keys && groups[key] > 0 && '|' in key
    requires Merged(merged, groups, todo, catalog)
    requires var pair := SplitPair(key);
      var max := MaxStack(catalog, pair.0);
      AllOf(pieces, pair.0, pair.1, max) && Sum(pieces, Quantity()) == groups[key] && |pieces| == CeilDiv(groups[key], max)
    ensures Merged(merged + pieces, groups, todo - {key}, catalog)
  {
    var pair := SplitPair(key);
    JoinSplit(key);
    forall item, bind
      ensures Sum(merged + pieces, PairQuantity(item, bind)) == Share(groups, todo - {key}, item, bind)
      ensures Sum(merged + pieces, PairCount(item, bind)) ==
        CeilDiv(Share(groups, todo - {key}, item, bind), MaxStack(catalog, item))
    {
      SumConcat(merged, pieces, PairQuantity(item, bind));
      SumConcat(merged, pieces, PairCount(item, bind));
      AllOfSums(pieces, pair.0, pair.1, MaxStack(catalog, pair.0), item, bind);
      if '|' !in item && Join(item, bind) == key { SplitJoinIff(item, bind); }
    }
  }

  // ---------------------------------------------------------------------
  // No legal layout is smaller
  // ---------------------------------------------------------------------

  lemma {:induction false} CountCovers(stacks: seq<Stack>, catalog: Catalog, item: string, bind: string)
    requires Legal(stacks, catalog)
    ensures Sum(stacks, PairQuantity(item, bind)) <= Sum(stacks, PairCount(item, bind)) * MaxStack(catalog, item)
  {
    if |stacks| > 0 {
      CountCovers(stacks[..|stacks| - 1], catalog, item, bind);
      assert LegalStack(stacks[|stacks| - 1], catalog);
    }
  }

  lemma {:induction false} CeilDivLeast(total: int, max: int, count: int)
    requires max > 0 && total <= count * max && count >= 0
    ensures CeilDiv(total, max) <= count
    decreases total
  {
    if total > 0 {
      assert count > 0 && total - max <= (count - 1) * max;
      CeilDivLeast(total - max, max, count - 1);
    }
  }

  /** If no pair is counted more often in `a`, then `a` is not longer. */
  lemma {:induction false} CountsBound(a: seq<Stack>, b: seq<Stack>)
    requires forall item, bind :: Sum(a, PairCount(item, bind)) <= Sum(b, PairCount(item, bind))
    ensures |a| <= |b|
    decreases |a|
  {
    if |a| > 0 {
      var n := |a| - 1;
      var weight := PairCount(a[n].item, a[n].bind);
      SumNonNegative(a[..n], weight);
      assert Sum(b, weight) > 0;
      var j := SumWitness(b, weight);
      var left, right := b[..j], b[j + 1..];
      assert b == left + [b[j]] + right;
      forall item, bind ensures Sum(a[..n], PairCount(item, bind)) <= Sum(left + right, PairCount(item, bind)) {
        SumMiddle(left, b[j], right, PairCount(item, bind));
        assert Sum(a, PairCount(item, bind)) <= Sum(b, PairCount(item, bind));
      }
      CountsBound(a[..n], left + right);
    }
  }

  /** Every pair in the fewest stacks makes the fewest stacks of all legal layouts. */
  lemma FewestStacks(a: seq<Stack>, b: seq<Stack>, catalog: Catalog)
    requires forall item, bind ::
      Sum(a, PairCount(item, bind)) == CeilDiv(Sum(a, PairQuantity(item, bind)), MaxStack(catalog, item))
    requires Legal(b, catalog) && SameTotals(a, b)
    ensures |a| <= |b|
  {
    forall item, bind ensures Sum(a, PairCount(item, bind)) <= Sum(b, PairCount(item, bind)) {
      CountCovers(b, catalog, item, bind);
      SumNonNegative(b, PairCount(item, bind));
      CeilDivLeast(Sum(b, PairQuantity(item, bind)), MaxStack(catalog, item), Sum(b, PairCount(item, bind)));
    }
    CountsBound(a, b);
  }

  // ---------------------------------------------------------------------
  // Sorting, and what the constraints accept
  // ---------------------------------------------------------------------

  predicate StackAtMost(a: Stack, b: Stack) {
    if a.item == b.item then StringAtMost(a.bind, b.bind) else StringAtMost(a.item, b.item)
  }

  lemma StackOrder()
    ensures TotalPreorder(StackAtMost)
  {
    forall a, b ensures StackAtMost(a, b) || StackAtMost(b, a) {
      StringTotal(a.item, b.item);
      StringTotal(a.bind, b.bind);
    }
    forall a, b, c | StackAtMost(a, b) && StackAtMost(b, c) ensures StackAtMost(a, c) {
      if a.item == b.item == c.item {
        StringTransitive(a.bind, b.bind, c.bind);
      } else if a.item != b.item && b.item != c.item {
        StringTransitive(a.item, b.item, c.item);
        StringTotal(a.item, b.item);
      }
    }
  }

  lemma MergedPermuted(a: seq<Stack>, b: seq<Stack>, groups: map<string, int>, catalog: Catalog)
    requires Merged(a, groups, {}, catalog) && multiset(a) == multiset(b)
    ensures Merged(b, groups, {}, catalog)
  {
    forall i | 0 <= i < |b|
      ensures 0 < b[i].quantity <= MaxStack(catalog, b[i].item) && '|' !in b[i].item && Key(b[i]) in groups
    {
      assert b[i] in multiset(a);
    }
    forall item, bind
      ensures Sum(b, PairQuantity(item, bind)) == Sum(a, PairQuantity(item, bind))
      ensures Sum(b, PairCount(item, bind)) == Sum(a, PairCount(item, bind))
    {
      SumPermuted(a, b, PairQuantity(item, bind));
      SumPermuted(a, b, PairCount(item, bind));
    }
  }

  lemma KeysHaveBar(stacks: seq<Stack>, groups: map<string, int>)
    requires Grouped(stacks, groups)
    ensures forall key :: key in groups ==> '|' in key
  {
    forall key | key in groups ensures '|' in key {
      assert Occurs(stacks, key);
      var i :| 0 <= i < |stacks| && Key(stacks[i]) == key;
      assert key[|stacks[i].item|] == '|';
    }
  }

  /** An item id with a bar makes a stack whose binding the table refuses. */
  lemma BarIsRefused(stacks: seq<Stack>, groups: map<string, int>, merged: seq<Stack>, catalog: Catalog, i: nat)
    requires Grouped(stacks, groups) && Merged(merged, groups, {}, catalog)
    requires i < |stacks| && '|' in stacks[i].item
    ensures exists j :: 0 <= j < |merged| && !ValidBind(merged[j].bind)
  {
    var key := Key(stacks[i]);
    var pair := SplitPair(key);
    SplitJoinIff(stacks[i].item, stacks[i].bind);
    KeysHaveBar(stacks, groups);
    JoinSplit(key);
    assert Sum(merged, PairQuantity(pair.0, pair.1)) == groups[key];
    var j := SumWitness(merged, PairQuantity(pair.0, pair.1));
    BindHasNoBar(merged[j].bind);
  }

  lemma BindHasNoBar(bind: string)
    ensures ValidBind(bind) ==> '|' !in bind
  {
  }

  lemma SameKeySamePair(a: Stack, b: Stack)
    requires '|' !in a.item && '|' !in b.item && Key(a) == Key(b)
    ensures a.item == b.item && a.bind == b.bind
  {
    SplitJoinIff(a.item, a.bind);
    SplitJoinIff(b.item, b.bind);
  }

  lemma KeyTotals(stacks: seq<Stack>, item: string, bind: string)
    requires NoBar(stacks)
    ensures Sum(stacks, PairQuantity(item, bind)) == if '|' in item then 0 else Sum(stacks, KeyQuantity(Join(item, bind)))
  {
    if '|' in item {
      if Sum(stacks, PairQuantity(item, bind)) != 0 {
        var i := SumWitness(stacks, PairQuantity(item, bind));
      }
    } else {
      forall i | 0 <= i < |stacks|
        ensures PairQuantity(item, bind)(stacks[i]) == KeyQuantity(Join(item, bind))(stacks[i])
      {
        if Key(stacks[i]) == Join(item, bind) { SameKeySamePair(stacks[i], Stack(item, bind, 1)); }
      }
      SumSame(stacks, PairQuantity(item, bind), KeyQuantity(Join(item, bind)));
    }
  }

  /** Without bars the merged stacks are legal and lose nothing. */
  lemma NoBarIsLossless(stacks: seq<Stack>, groups: map<string, int>, merged: seq<Stack>, catalog: Catalog)
    requires Stored(stacks) && NoBar(stacks) && Grouped(stacks, groups) && Merged(merged, groups, {}, catalog)
    ensures Legal(merged, catalog) && SameTotals(stacks, merged)
  {
    forall j | 0 <= j < |merged| ensures LegalStack(merged[j], catalog) {
      assert Occurs(stacks, Key(merged[j]));
      var i :| 0 <= i < |stacks| && Key(stacks[i]) == Key(merged[j]);
      SameKeySamePair(stacks[i], merged[j]);
    }
    forall item, bind ensures Sum(stacks, PairQuantity(item, bind)) == Sum(merged, PairQuantity(item, bind)) {
      KeyTotals(stacks, item, bind);
    }
  }

  /** Some legal layout of the same items needs at most `room` stacks. */
  ghost predicate Fits(stacks: seq<Stack>, catalog: Catalog, room: int) {
    exists layout :: Legal(layout, catalog) && SameTotals(stacks, layout) && |layout| <= room
  }

  lemma MergedIsFewest(stacks: seq<Stack>, groups: map<string, int>, merged: seq<Stack>, catalog: Catalog)
    requires Merged(merged, groups, {}, catalog) && SameTotals(stacks, merged)
    ensures forall layout :: Legal(layout, catalog) && SameTotals(stacks, layout) ==> |merged| <= |layout|
  {
    forall layout | Legal(layout, catalog) && SameTotals(stacks, layout) ensures |merged| <= |layout| {
      assert SameTotals(merged, layout) by {
        forall item, bind ensures Sum(merged, PairQuantity(item, bind)) == Sum(layout, PairQuantity(item, bind)) {
          assert Sum(stacks, PairQuantity(item, bind)) == Sum(layout, PairQuantity(item, bind));
        }
      }
      FewestStacks(merged, layout, catalog);
    }
  }

  /** Stacks of items that do not stack hold 1, others at most 999; and of two stacks of an item under
      one binding at most one has room left. */
  predicate Tight(stacks: seq<Stack>, catalog: Catalog) {
    && (forall i :: 0 <= i < |stacks| ==>
          0 < stacks[i].quantity <= if stacks[i].item in catalog && !catalog[stacks[i].item] then 1 else 999)
    && (forall i, j :: 0 <= i < j < |stacks| && stacks[i].item == stacks[j].item && stacks[i].bind == stacks[j].bind ==>
          Max(stacks[i].quantity, stacks[j].quantity) == if stacks[i].item in catalog && !catalog[stacks[i].item] then 1 else 999)
  }

  lemma FilledIsTight(stacks: seq<Stack>, catalog: Catalog)
    requires Filled(stacks, catalog) && forall i :: 0 <= i < |stacks| ==> 0 < stacks[i].quantity <= MaxStack(catalog, stacks[i].item)
    ensures Tight(stacks, catalog)
  {
    forall i, j | 0 <= i < j < |stacks| && stacks[i].item == stacks[j].item && stacks[i].bind == stacks[j].bind
      ensures Max(stacks[i].quantity, stacks[j].quantity) == MaxStack(catalog, stacks[i].item)
    {
      SumTwoRows(stacks, i, j, Partial(stacks[i].item, stacks[i].bind, catalog));
    }
  }

  lemma FilledPermuted(a: seq<Stack>, b: seq<Stack>, catalog: Catalog)
    requires Filled(a, catalog) && multiset(a) == multiset(b)
    ensures Filled(b, catalog)
  {
    forall item, bind ensures Sum(b, Partial(item, bind, catalog)) <= 1 { SumPermuted(a, b, Partial(item, bind, catalog)); }
  }

  predicate AllValidBinds(stacks: seq<Stack>) { forall i :: 0 <= i < |stacks| ==> ValidBind(stacks[i].bind) }

  /** What the stacks to insert are: a best layout, or one that the table refuses. */
  ghost predicate Planned(stacks: seq<Stack>, merged: seq<Stack>, catalog: Catalog) {
    && SortedBy(merged, StackAtMost) && (AllValidBinds(merged) <==> NoBar(stacks))
    && (NoBar(stacks) ==>
          && Legal(merged, catalog) && SameTotals(stacks, merged)
          && forall layout :: Legal(layout, catalog) && SameTotals(stacks, layout) ==> |merged| <= |layout|)
  }

  lemma PlanIs(stacks: seq<Stack>, groups: map<string, int>, merged: seq<Stack>, catalog: Catalog)
    requires Stored(stacks) && Grouped(stacks, groups) && Merged(merged, groups, {}, catalog) && SortedBy(merged, StackAtMost)
    ensures Planned(stacks, merged, catalog)
  {
    if NoBar(stacks) {
      NoBarIsLossless(stacks, groups, merged, catalog);
      MergedIsFewest(stacks, groups, merged, catalog);
      forall j | 0 <= j < |merged| ensures ValidBind(merged[j].bind) {
        assert LegalStack(merged[j], catalog);
      }
    } else {
      var i :| 0 <= i < |stacks| && '|' in stacks[i].item;
      BarIsRefused(stacks, groups, merged, catalog, i);
    }
  }

  method PlanStacks(stacks: seq<Stack>, catalog: Catalog) returns (merged: seq<Stack>)
    requires Stored(stacks)
    ensures Planned(stacks, merged, catalog) && Tight(merged, catalog)
  {
    var groups := GroupStacks(stacks);
    KeysHaveBar(stacks, groups);
    var pieces := MergeGroups(groups, catalog);
    StackOrder();
    merged := Sort(pieces, StackAtMost);
    MergedPermuted(pieces, merged, groups, catalog);
    PlanIs(stacks, groups, merged, catalog);
    FilledPermuted(pieces, merged, catalog);
    FilledIsTight(merged, catalog);
  }

  lemma FitsIff(stacks: seq<Stack>, merged: seq<Stack>, catalog: Catalog, room: int)
    requires Planned(stacks, merged, catalog)
    ensures NoBar(stacks) && Fits(stacks, catalog, room) <==> AllValidBinds(merged) && |merged| <= room
  {
  }

  function Stacks(rows: seq<Row>): seq<Stack> {
    seq(|rows|, i requires 0 <= i < |rows| => rows[i].stack)
  }

  /** Slots 0, 1, 2, ... in order. */
  predicate Numbered(rows: seq<Row>) { forall i :: 0 <= i < |rows| ==> rows[i].slot == Some(i) }

  /** The storage after organizing: a sorted, legal, lossless, tight layout in the fewest stacks,
      in slots 0 to n - 1, with equipment in the slots after that. */
  ghost predicate Organized(before: seq<Stack>, rows: seq<Row>, equipment: seq<Option<nat>>, catalog: Catalog) {
    && Legal(Stacks(rows), catalog) && SameTotals(before, Stacks(rows)) && SortedBy(Stacks(rows), StackAtMost)
    && (forall layout :: Legal(layout, catalog) && SameTotals(before, layout) ==> |rows| <= |layout|)
    && Tight(Stacks(rows), catalog) && Numbered(rows) && forall i :: 0 <= i < |equipment| ==> equipment[i] == Some(|rows| + i)
  }

  lemma OrganizedIs(stacks: seq<Stack>, merged: seq<Stack>, rows: seq<Row>, equipment: seq<Option<nat>>, catalog: Catalog)
    requires Planned(stacks, merged, catalog) && Tight(merged, catalog) && NoBar(stacks) && Stacks(rows) == merged && Numbered(rows)
    requires forall i :: 0 <= i < |equipment| ==> equipment[i] == Some(|merged| + i)
    ensures Organized(stacks, rows, equipment, catalog)
  {
    assert |rows| == |Stacks(rows)|;
  }

  /** One bag or warehouse: its stack rows, and the slots of its equipment in id order. */
  class StorageTable {
    var rows: seq<Row>
    var equipment: seq<Option<nat>>

    constructor (rows: seq<Row>, equipment: seq<Option<nat>>)
      ensures this.rows == rows && this.equipment == equipment
    {
      this.rows, this.equipment := rows, equipment;
    }

    /** Inserts the stacks in order; the first one the table refuses ends it. */
    method InsertStacks(stacks: seq<Stack>) returns (ok: bool)
      modifies this`rows
      ensures ok <==> AllValidBinds(stacks)
      ensures ok ==> Stacks(rows) == stacks && Numbered(rows)
    {
      rows := [];
      for slot := 0 to |stacks|
        invariant |rows| == slot && Numbered(rows)
        invariant forall i :: 0 <= i < slot ==> rows[i].stack == stacks[i] && ValidBind(stacks[i].bind)
      {
        if !ValidBind(stacks[slot].bind) {
          return false;
        }
        rows := rows + [Row(stacks[slot], Some(slot))];
      }
      ok := true;
    }

    method PlaceEquipment(first: nat)
      modifies this`equipment
      ensures |equipment| == old(|equipment|) && forall i :: 0 <= i < |equipment| ==> equipment[i] == Some(first + i)
    {
      equipment := seq(|equipment|, _ => None);
      for i := 0 to |equipment|
        invariant |equipment| == old(|equipment|) && forall k :: 0 <= k < i ==> equipment[k] == Some(first + k)
      {
        equipment := equipment[i := Some(first + i)];
      }
    }

    method OrganizeStorage(catalog: Catalog, slotLimit: int) returns (ok: bool)
      requires Stored(Stacks(rows))
      modifies this
      ensures ok <==> NoBar(old(Stacks(rows))) && Fits(old(Stacks(rows)), catalog, slotLimit - old(|equipment|))
      ensures ok ==> Organized(old(Stacks(rows)), rows, equipment, catalog) && |equipment| == old(|equipment|)
      ensures !ok ==> rows == old(rows) && equipment == old(equipment)
    {
      var savedRows, stacks := rows, Stacks(rows);
      var merged := PlanStacks(stacks, catalog);
      FitsIff(stacks, merged, catalog, slotLimit - |equipment|);
      if |merged| + |equipment| > slotLimit {
        return false;
      }
      ok := InsertStacks(merged);
      if !ok {
        rows := savedRows;
        return;
      }
      PlaceEquipment(|merged|);
      OrganizedIs(stacks, merged, rows, equipment, catalog);
    }
  }
}
