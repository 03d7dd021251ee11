/** Consuming materials from the stacks of a bag, one item after another, as
    crafting does with the inputs of a recipe. */
module Materials {
  import opened Basics
  import opened Sorting

  /** A row of inventory_items of one character; a row that left the bag was consumed. */
  datatype BagRow = BagRow(item: string, quantity: int, inBag: bool, slot: Option<nat>)

  datatype Cost = Cost(item: string, quantity: int)

  /** A row of the query result. */
  datatype Candidate = Candidate(id: nat, available: int, slot: Option<nat>)

  function Held(item: string): BagRow -> int { (r: BagRow) => if r.inBag && r.item == item then r.quantity else 0 }

  predicate Positive(rows: seq<BagRow>) { forall i :: 0 <= i < |rows| ==> rows[i].quantity > 0 }

  // ---------------------------------------------------------------------
  // The query: stacks of the item by slot, rows without a slot last, then by id
  // ---------------------------------------------------------------------

  predicate SlotBefore(a: Option<nat>, b: Option<nat>) { a.Some? && (b.None? || a.value < b.value) }

  predicate CandidateAtMost(a: Candidate, b: Candidate) { SlotBefore(a.slot, b.slot) || (a.slot == b.slot && a.id <= b.id) }

  lemma CandidateOrder()
    ensures TotalPreorder(CandidateAtMost)
  {
  }

  function Available(): Candidate -> int { (c: Candidate) => c.available }

  function IsId(id: nat): Candidate -> int { (c: Candidate) => Indicator(c.id == id) }

  predicate OfItem(r: BagRow, item: string) { r.inBag && r.item == item }

  /** `list` holds each bag row of the item once. */
  ghost predicate Lists(list: seq<Candidate>, rows: seq<BagRow>, item: string, n: nat) {
    && n <= |rows|
    && (forall i :: 0 <= i < |list| ==> list[i].id < n && OfItem(rows[list[i].id], item)
                                        && list[i].available == rows[list[i].id].quantity && list[i].slot == rows[list[i].id].slot)
    && (forall id: nat :: id < n ==> Sum(list, IsId(id)) == Indicator(OfItem(rows[id], item)))
    && Sum(list, Available()) == Sum(rows[..n], Held(item))
  }

  lemma NoSuchId(list: seq<Candidate>, id: nat)
    requires forall i :: 0 <= i < |list| ==> list[i].id != id
    ensures Sum(list, IsId(id)) == 0
  {
  }

  method SelectStacks(rows: seq<BagRow>, item: string) returns (list: seq<Candidate>)
    ensures Lists(list, rows, item, |rows|) && SortedBy(list, CandidateAtMost)
  {
    var found: seq<Candidate> := [];
    for id := 0 to |rows|
      invariant Lists(found, rows, item, id)
    {
      ListsMore(found, rows, item, id);
      if OfItem(rows[id], item) {
        found := found + [Candidate(id, rows[id].quantity, rows[id].slot)];
      }
    }
    assert rows[..|rows|] == rows;
    CandidateOrder();
    list := Sort(found, CandidateAtMost);
    ListsPermuted(found, list, rows, item);
  }

  lemma ListsMore(found: seq<Candidate>, rows: seq<BagRow>, item: string, id: nat)
    requires Lists(found, rows, item, id) && id < |rows|
    ensures Lists(if OfItem(rows[id], item) then found + [Candidate(id, rows[id].quantity, rows[id].slot)] else found, rows, item, id + 1)
  {
    HeldUpTo(rows, item, id);
    NoSuchId(found, id);
    if OfItem(rows[id], item) {
      var c := Candidate(id, rows[id].quantity, rows[id].slot);
      SumAppend(found, c, Available());
      forall k: nat | k < id + 1 ensures Sum(found + [c], IsId(k)) == Indicator(OfItem(rows[k], item)) {
        SumAppend(found, c, IsId(k));
      }
    }
  }

  lemma HeldUpTo(rows: seq<BagRow>, item: string, id: nat)
    requires id < |rows|
    ensures Sum(rows[..id + 1], Held(item)) == Sum(rows[..id], Held(item)) + Held(item)(rows[id])
  {
    assert rows[..id + 1] == rows[..id] + [rows[id]];
    SumAppend(rows[..id], rows[id], Held(item));
  }

  lemma ListsPermuted(a: seq<Candidate>, b: seq<Candidate>, rows: seq<BagRow>, item: string)
    requires Lists(a, rows, item, |rows|) && multiset(a) == multiset(b)
    ensures Lists(b, rows, item, |rows|)
  {
    forall i | 0 <= i < |b| ensures b[i].id < |rows| && OfItem(rows[b[i].id], item)
      && b[i].available == rows[b[i].id].quantity && b[i].slot == rows[b[i].id].slot
    {
      assert b[i] in multiset(a);
    }
    forall id: nat | id < |rows| ensures Sum(b, IsId(id)) == Indicator(OfItem(rows[id], item)) {
      SumPermuted(a, b, IsId(id));
    }
    SumPermuted(a, b, Available());
  }

  lemma IdsDiffer(list: seq<Candidate>, rows: seq<BagRow>, item: string, i: nat, j: nat)
    requires Lists(list, rows, item, |rows|) && i < j < |list|
    ensures list[i].id != list[j].id
  {
    if list[i].id == list[j].id {
      SumTwoRows(list, i, j, IsId(list[i].id));
    }
  }

  // ---------------------------------------------------------------------
  // Using up rows
  // ---------------------------------------------------------------------

  function UseRow(r: BagRow, use: int): BagRow {
    if use == r.quantity then r.(inBag := false, slot := None) else r.(quantity := r.quantity - use)
  }

  /** What the loop has done to the table after the first `i` candidates. */
  ghost predicate UsedUp(before: seq<BagRow>, rows: seq<BagRow>, list: seq<Candidate>, i: nat) {
    && |rows| == |before| && i <= |list|
    && (forall id :: 0 <= id < |rows| && (forall k :: 0 <= k < i ==> list[k].id != id) ==> rows[id] == before[id])
    && (forall k :: 0 <= k < i && list[k].id < |rows| ==>
          rows[list[k].id] == before[list[k].id].(inBag := false, slot := None))
  }

  /** A row is as before, or left the bag, or has fewer but some items. */
  predicate MayUse(r: BagRow, r': BagRow, item: string) {
    r' == r || (OfItem(r, item) && (r' == r.(inBag := false, slot := None) || (0 < r'.quantity < r.quantity && r' == r.(quantity := r'.quantity))))
  }

  /** `quantity` of the item was taken, first slots first, and nothing else was touched. */
  ghost predicate Took(before: seq<BagRow>, rows: seq<BagRow>, item: string, quantity: int) {
    && |rows| == |before| && (forall i :: 0 <= i < |rows| ==> MayUse(before[i], rows[i], item))
    && Sum(rows, Held(item)) == Sum(before, Held(item)) - quantity
    && (forall i, j :: 0 <= i < |rows| && 0 <= j < |rows| && OfItem(before[i], item) && rows[j] != before[j] && Earlier(before, i, j) ==>
          !rows[i].inBag)
  }

  predicate Earlier(rows: seq<BagRow>, i: nat, j: nat)
    requires i < |rows| && j < |rows|
  {
    SlotBefore(rows[i].slot, rows[j].slot) || (rows[i].slot == rows[j].slot && i < j)
  }

  /** All of the first `i` candidates are used up, and they held `used` together. */
  ghost predicate Progress(before: seq<BagRow>, rows: seq<BagRow>, list: seq<Candidate>, i: nat, item: string, used: int) {
    && UsedUp(before, rows, list, i) && Sum(list[..i], Available()) == used
    && Sum(rows, Held(item)) == Sum(before, Held(item)) - used
  }

  ghost predicate Reached(before: seq<BagRow>, rows: seq<BagRow>, list: seq<Candidate>, i: nat, item: string, quantity: int, remaining: int) {
    if remaining > 0 then i <= |list| && Progress(before, rows, list, i, item, quantity - remaining)
    else Took(before, rows, item, quantity) && quantity <= Sum(before, Held(item))
  }

  class Bag {
    var rows: seq<BagRow>

    constructor (rows: seq<BagRow>)
      ensures this.rows == rows
    {
      this.rows := rows;
    }

    method ConsumeBagItem(item: string, quantity: int) returns (ok: bool)
      requires Positive(rows)
      modifies this
      ensures ok <==> 0 < quantity <= Sum(old(rows), Held(item))
      ensures ok ==> Took(old(rows), rows, item, quantity)
    {
      if quantity <= 0 {
        return false;
      }
      ghost var before := rows;
      var list := SelectStacks(rows, item);
      var remaining := quantity;
      var i := 0;
      while i < |list| && remaining > 0
        invariant 0 <= i <= |list| && 0 <= remaining <= quantity
        invariant Reached(before, rows, list, i, item, quantity, remaining)
      {
        StepReached(before, rows, list, i, item, quantity, remaining);
        var use := list[i].available;
        if use > remaining {
          use := remaining;
        }
        rows := rows[list[i].id := UseRow(rows[list[i].id], use)];
        remaining := remaining - use;
        i := i + 1;
      }
      EndReached(before, rows, list, i, item, quantity, remaining);
      ok := remaining == 0;
    }

    /** Consumes the inputs of a recipe in turn; any shortage undoes them all. */
    method ConsumeInputs(inputs: seq<Cost>) returns (ok: bool)
      requires Positive(rows)
      modifies this
      ensures ok <==> Affordable(old(rows), inputs)
      ensures ok ==> |rows| == old(|rows|) && Positive(rows)
      ensures ok ==> forall item :: Sum(rows, Held(item)) == Sum(old(rows), Held(item)) - Sum(inputs, Needs(item))
      ensures ok ==> forall i :: 0 <= i < |rows| && (forall k :: 0 <= k < |inputs| ==> inputs[k].item != old(rows)[i].item) ==>
        rows[i] == old(rows)[i]
      ensures !ok ==> rows == old(rows)
    {
      var saved := rows;
      for k := 0 to |inputs|
        invariant AfterInputs(saved, rows, inputs[..k])
      {
        assert inputs[..k + 1] == inputs[..k] + [inputs[k]];
        ghost var mid := rows;
        ok := ConsumeBagItem(inputs[k].item, inputs[k].quantity);
        if !ok {
          InputRefused(saved, mid, inputs, k);
          rows := saved;
          return;
        }
        InputTaken(saved, mid, rows, inputs[..k], inputs[k]);
      }
      assert inputs[..|inputs|] == inputs;
      ok := true;
      forall item ensures Sum(inputs, Needs(item)) <= Sum(saved, Held(item)) {
        SumNonNegative(rows, Held(item));
      }
    }
  }

  function Needs(item: string): Cost -> int { (c: Cost) => if c.item == item then c.quantity else 0 }

  predicate AllPositive(inputs: seq<Cost>) { forall k :: 0 <= k < |inputs| ==> inputs[k].quantity > 0 }

  /** Every input is positive, and the bag covers each item's inputs together. */
  ghost predicate Affordable(rows: seq<BagRow>, inputs: seq<Cost>) {
    AllPositive(inputs) && forall item :: Sum(inputs, Needs(item)) <= Sum(rows, Held(item))
  }

  ghost predicate AfterInputs(before: seq<BagRow>, rows: seq<BagRow>, inputs: seq<Cost>) {
    && |rows| == |before| && Positive(rows) && AllPositive(inputs)
    && (forall item :: Sum(rows, Held(item)) == Sum(before, Held(item)) - Sum(inputs, Needs(item)))
    && (forall i :: 0 <= i < |rows| ==> rows[i].item == before[i].item)
    && (forall i :: 0 <= i < |rows| && (forall k :: 0 <= k < |inputs| ==> inputs[k].item != before[i].item) ==> rows[i] == before[i])
  }

  lemma OthersHeld(before: seq<BagRow>, rows: seq<BagRow>, item: string, quantity: int, other: string)
    requires Took(before, rows, item, quantity) && other != item
    ensures Sum(rows, Held(other)) == Sum(before, Held(other))
  {
    SumSameRows(before, rows, Held(other));
  }

  lemma {:induction false} SumSameRows(a: seq<BagRow>, b: seq<BagRow>, weight: BagRow -> int)
    requires |a| == |b| && forall i :: 0 <= i < |a| ==> weight(a[i]) == weight(b[i])
    ensures Sum(a, weight) == Sum(b, weight)
  {
    if |a| > 0 { SumSameRows(a[..|a| - 1], b[..|b| - 1], weight); }
  }

  lemma InputTaken(before: seq<BagRow>, mid: seq<BagRow>, rows: seq<BagRow>, inputs: seq<Cost>, c: Cost)
    requires AfterInputs(before, mid, inputs) && c.quantity > 0 && Took(mid, rows, c.item, c.quantity)
    ensures AfterInputs(before, rows, inputs + [c])
  {
    forall item ensures Sum(rows, Held(item)) == Sum(before, Held(item)) - Sum(inputs + [c], Needs(item)) {
      SumAppend(inputs, c, Needs(item));
      if item != c.item { OthersHeld(mid, rows, c.item, c.quantity, item); }
    }
    forall i | 0 <= i < |rows| ensures rows[i].quantity > 0 && rows[i].item == before[i].item {
      assert MayUse(mid[i], rows[i], c.item);
    }
    forall i | 0 <= i < |rows| && (forall k :: 0 <= k < |inputs + [c]| ==> (inputs + [c])[k].item != before[i].item)
      ensures rows[i] == before[i]
    {
      assert (inputs + [c])[|inputs|] == c;
      forall k | 0 <= k < |inputs| ensures inputs[k].item != before[i].item { assert (inputs + [c])[k] == inputs[k]; }
      assert MayUse(mid[i], rows[i], c.item);
    }
  }

  lemma InputRefused(before: seq<BagRow>, mid: seq<BagRow>, inputs: seq<Cost>, k: nat)
    requires k < |inputs| && AfterInputs(before, mid, inputs[..k])
    requires !(0 < inputs[k].quantity <= Sum(mid, Held(inputs[k].item)))
    ensures !Affordable(before, inputs)
  {
    if AllPositive(inputs) {
      var weight := Needs(inputs[k].item);
      assert inputs == inputs[..k] + [inputs[k]] + inputs[k + 1..];
      SumConcat(inputs[..k] + [inputs[k]], inputs[k + 1..], weight);
      SumAppend(inputs[..k], inputs[k], weight);
      SumNonNegative(inputs[k + 1..], weight);
    }
  }

  lemma RowUntouched(before: seq<BagRow>, rows: seq<BagRow>, list: seq<Candidate>, i: nat, item: string)
    requires Lists(list, before, item, |before|) && UsedUp(before, rows, list, i) && i < |list|
    ensures rows[list[i].id] == before[list[i].id]
  {
    forall k | 0 <= k < i ensures list[k].id != list[i].id { IdsDiffer(list, before, item, k, i); }
  }

  lemma UseLowers(rows: seq<BagRow>, id: nat, item: string, use: int)
    requires id < |rows| && OfItem(rows[id], item)
    ensures Sum(rows[id := UseRow(rows[id], use)], Held(item)) == Sum(rows, Held(item)) - use
  {
    SumUpdate(rows, id, UseRow(rows[id], use), Held(item));
  }

  lemma ProgressMore(before: seq<BagRow>, rows: seq<BagRow>, list: seq<Candidate>, i: nat, item: string, used: int)
    requires Lists(list, before, item, |before|) && i < |list| && Progress(before, rows, list, i, item, used)
    ensures Progress(before, rows[list[i].id := UseRow(rows[list[i].id], list[i].available)], list, i + 1, item, used + list[i].available)
  {
    RowUntouched(before, rows, list, i, item);
    UseLowers(rows, list[i].id, item, list[i].available);
    assert list[..i + 1] == list[..i] + [list[i]];
    SumAppend(list[..i], list[i], Available());
    UsedUpMore(before, rows, list, i, item);
  }

  lemma UsedUpMore(before: seq<BagRow>, rows: seq<BagRow>, list: seq<Candidate>, i: nat, item: string)
    requires Lists(list, before, item, |before|) && i < |list| && UsedUp(before, rows, list, i)
    ensures UsedUp(before, rows[list[i].id := before[list[i].id].(inBag := false, slot := None)], list, i + 1)
  {
  }

  lemma StepReached(before: seq<BagRow>, rows: seq<BagRow>, list: seq<Candidate>, i: nat, item: string, quantity: int, remaining: int)
    requires Positive(before) && Lists(list, before, item, |before|) && SortedBy(list, CandidateAtMost)
    requires i < |list| && remaining > 0 && Reached(before, rows, list, i, item, quantity, remaining)
    ensures list[i].id < |rows|
    ensures var use := Min(list[i].available, remaining);
      0 < use && Reached(before, rows[list[i].id := UseRow(rows[list[i].id], use)], list, i + 1, item, quantity, remaining - use)
  {
    if list[i].available < remaining {
      ProgressMore(before, rows, list, i, item, quantity - remaining);
    } else {
      EnoughUsed(before, rows, list, i, item, remaining, quantity - remaining);
    }
  }

  lemma EndReached(before: seq<BagRow>, rows: seq<BagRow>, list: seq<Candidate>, i: nat, item: string, quantity: int, remaining: int)
    requires Lists(list, before, item, |before|) && Reached(before, rows, list, i, item, quantity, remaining)
    requires remaining > 0 ==> i == |list|
    ensures remaining > 0 ==> quantity > Sum(before, Held(item))
    ensures remaining <= 0 ==> Took(before, rows, item, quantity) && quantity <= Sum(before, Held(item))
  {
    assert list[..|list|] == list && before[..|before|] == before;
  }

  /** The row that covers the rest: everything before it was used up, nothing after it was touched. */
  lemma EnoughUsed(before: seq<BagRow>, mid: seq<BagRow>, list: seq<Candidate>, i: nat, item: string, use: int, used: int)
    requires Positive(before) && Lists(list, before, item, |before|) && SortedBy(list, CandidateAtMost)
    requires i < |list| && Progress(before, mid, list, i, item, used) && 0 < use <= list[i].available
    ensures var rows := mid[list[i].id := UseRow(mid[list[i].id], use)];
      Took(before, rows, item, used + use) && used + use <= Sum(before, Held(item))
  {
    RowUntouched(before, mid, list, i, item);
    UseLowers(mid, list[i].id, item, use);
    var row := UseRow(mid[list[i].id], use);
    var rows := mid[list[i].id := row];
    forall id: nat | id < |rows| ensures MayUse(before[id], rows[id], item) {
      if k :| 0 <= k < i && list[k].id == id { }
    }
    SumNonNegative(rows, Held(item));
    forall a: nat, b: nat | a < |rows| && b < |rows| && OfItem(before[a], item) && rows[b] != before[b] && Earlier(before, a, b)
      ensures !rows[a].inBag
    {
      UsedInOrder(before, mid, row, list, i, item, a, b);
    }
  }

  lemma UsedInOrder(before: seq<BagRow>, mid: seq<BagRow>, row: BagRow, list: seq<Candidate>, i: nat, item: string, a: nat, b: nat)
    requires Lists(list, before, item, |before|) && SortedBy(list, CandidateAtMost)
    requires i < |list| && UsedUp(before, mid, list, i) && a < |before| && b < |before| && OfItem(before[a], item)
    requires mid[list[i].id := row][b] != before[b] && Earlier(before, a, b)
    ensures !mid[list[i].id := row][a].inBag
  {
    var x := SumWitness(list, IsId(a));
    var y: nat := i;
    if list[i].id != b {
      y :| 0 <= y < i && list[y].id == b;
    }
    InListOrder(list, before, item, x, y);
    IdsDiffer(list, before, item, x, i);
  }

  lemma InListOrder(list: seq<Candidate>, rows: seq<BagRow>, item: string, x: nat, y: nat)
    requires Lists(list, rows, item, |rows|) && SortedBy(list, CandidateAtMost) && x < |list| && y < |list|
    requires Earlier(rows, list[x].id, list[y].id)
    ensures x < y
  {
  }
}
