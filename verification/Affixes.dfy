/** Weighted affix rolls in which no affix id may occur more than twice. */
module Affixes {
  import opened Basics

  datatype Affix = Affix(id: string, weight: int)

  type Counts = map<string, nat>

  function CountOf(counts: Counts, id: string): nat { if id in counts then counts[id] else 0 }

  predicate Eligible(row: Affix, counts: Counts) { row.weight > 0 && CountOf(counts, row.id) < 2 }

  function EligibleWeight(counts: Counts): Affix -> int { (row: Affix) => if Eligible(row, counts) then row.weight else 0 }

  /** The weight of the eligible rows before row `i`. */
  function Before(rows: seq<Affix>, counts: Counts, i: nat): int
    requires i <= |rows|
  {
    Sum(rows[..i], EligibleWeight(counts))
  }

  /** The eligible row that a pick selects, walking down the weights from row `i`. */
  function ChosenFrom(rows: seq<Affix>, counts: Counts, pick: int, i: nat): Option<nat>
    requires i <= |rows|
    decreases |rows| - i
  {
    if i == |rows| then None
    else if !Eligible(rows[i], counts) then ChosenFrom(rows, counts, pick, i + 1)
    else if pick < rows[i].weight then Some(i)
    else ChosenFrom(rows, counts, pick - rows[i].weight, i + 1)
  }

  function Chosen(rows: seq<Affix>, counts: Counts, pick: int): Option<nat> { ChosenFrom(rows, counts, pick, 0) }

  // ---------------------------------------------------------------------
  // Each row is selected by exactly as many picks as its weight
  // ---------------------------------------------------------------------

  lemma BeforeStep(rows: seq<Affix>, counts: Counts, i: nat)
    requires i < |rows|
    ensures Before(rows, counts, i + 1) == Before(rows, counts, i) + EligibleWeight(counts)(rows[i])
  {
    assert rows[..i + 1] == rows[..i] + [rows[i]];
    SumAppend(rows[..i], rows[i], EligibleWeight(counts));
  }

  lemma {:induction false} BeforeRises(rows: seq<Affix>, counts: Counts, i: nat, j: nat)
    requires i <= j <= |rows|
    ensures Before(rows, counts, i) <= Before(rows, counts, j)
  {
    if i < j {
      BeforeRises(rows, counts, i, j - 1);
      BeforeStep(rows, counts, j - 1);
    }
  }

  /** A pick selects row `k` exactly when it falls into the row's share of the total. */
  lemma {:induction false} ChosenIff(rows: seq<Affix>, counts: Counts, pick: int, i: nat, k: nat)
    requires i <= |rows| && k < |rows| && pick >= Before(rows, counts, i)
    ensures ChosenFrom(rows, counts, pick - Before(rows, counts, i), i) == Some(k) <==>
      i <= k && Eligible(rows[k], counts) && Before(rows, counts, k) <= pick < Before(rows, counts, k + 1)
    decreases |rows| - i
  {
    BeforeStep(rows, counts, k);
    if i < |rows| {
      BeforeStep(rows, counts, i);
      if pick < Before(rows, counts, i + 1) {
        if i < k { BeforeRises(rows, counts, i + 1, k); }
      } else {
        ChosenIff(rows, counts, pick, i + 1, k);
      }
    }
  }

  function Picks(low: int, high: int): (picks: set<int>)
    ensures forall p :: p in picks <==> low <= p < high
    decreases high - low
  {
    if low >= high then {} else Picks(low, high - 1) + {high - 1}
  }

  lemma {:induction false} PicksSize(low: int, high: int)
    requires low <= high
    ensures |Picks(low, high)| == high - low
    decreases high - low
  {
    if low < high { PicksSize(low, high - 1); }
  }

  /** The draw is fair: of all picks, exactly `weight` many select an eligible row, none another. */
  lemma PicksPerRow(rows: seq<Affix>, counts: Counts, k: nat)
    requires k < |rows|
    ensures |set p | 0 <= p < Before(rows, counts, |rows|) && Chosen(rows, counts, p) == Some(k)| == EligibleWeight(counts)(rows[k])
  {
    var total := Before(rows, counts, |rows|);
    assert rows[..0] == [];
    BeforeStep(rows, counts, k);
    BeforeRises(rows, counts, 0, k);
    BeforeRises(rows, counts, k + 1, |rows|);
    var selecting := set p | 0 <= p < total && Chosen(rows, counts, p) == Some(k);
    var share := Picks(Before(rows, counts, k), Before(rows, counts, k + 1));
    forall p ensures p in selecting <==> p in share {
      if 0 <= p { ChosenIff(rows, counts, p, 0, k); }
    }
    assert selecting == share;
    PicksSize(Before(rows, counts, k), Before(rows, counts, k + 1));
  }

  // ---------------------------------------------------------------------
  // The draw
  // ---------------------------------------------------------------------

  method WeightedEligibleAffix(rows: seq<Affix>, counts: Counts) returns (r: Option<nat>, pick: int)
    ensures r.None? <==> Before(rows, counts, |rows|) == 0
    ensures r.Some? ==> 0 <= pick < Before(rows, counts, |rows|) && Chosen(rows, counts, pick) == r
                        && r.value < |rows| && Eligible(rows[r.value], counts)
  {
    var total := 0;
    for i := 0 to |rows|
      invariant total == Before(rows, counts, i) >= 0
    {
      BeforeStep(rows, counts, i);
      if rows[i].weight > 0 && CountOf(counts, rows[i].id) < 2 {
        total := total + rows[i].weight;
      }
    }
    if total <= 0 {
      return None, 0;
    }
    pick :| 0 <= pick < total;
    var rest := pick;
    for i := 0 to |rows|
      invariant rest == pick - Before(rows, counts, i) >= 0
      invariant Chosen(rows, counts, pick) == ChosenFrom(rows, counts, rest, i)
    {
      BeforeStep(rows, counts, i);
      if rows[i].weight <= 0 || CountOf(counts, rows[i].id) >= 2 {
        continue;
      }
      if rest < rows[i].weight {
        return Some(i), pick;
      }
      rest := rest - rows[i].weight;
    }
    assert false;
  }

  // ---------------------------------------------------------------------
  // The roll
  // ---------------------------------------------------------------------

  function IsId(id: string): string -> int { (x: string) => Indicator(x == id) }

  /** The distinct ids with a positive weight. */
  function PositiveIds(rows: seq<Affix>): set<string> { set i | 0 <= i < |rows| && rows[i].weight > 0 :: rows[i].id }

  predicate Within(out: seq<string>, ids: set<string>) { forall i :: 0 <= i < |out| ==> out[i] in ids }

  function Without(out: seq<string>, id: string): seq<string> {
    if |out| == 0 then []
    else
      var n := |out| - 1;
      Without(out[..n], id) + if out[n] == id then [] else [out[n]]
  }

  lemma {:induction false} WithoutCounts(out: seq<string>, id: string, ids: set<string>)
    requires Within(out, ids)
    ensures |Without(out, id)| == |out| - Sum(out, IsId(id)) && Within(Without(out, id), ids - {id})
    ensures forall x :: x != id ==> Sum(Without(out, id), IsId(x)) == Sum(out, IsId(x))
  {
    if |out| > 0 {
      var n := |out| - 1;
      WithoutCounts(out[..n], id, ids);
      forall x | x != id ensures Sum(Without(out, id), IsId(x)) == Sum(out, IsId(x)) {
        if out[n] != id { SumAppend(Without(out[..n], id), out[n], IsId(x)); }
        assert Without(out[..n], id) + [] == Without(out[..n], id);
      }
    }
  }

  /** If no id occurs more than twice there are at most twice as many as ids, and
      exactly that many when each occurs twice. */
  lemma {:induction false} TwicePerId(out: seq<string>, ids: set<string>)
    requires Within(out, ids) && forall id :: id in ids ==> Sum(out, IsId(id)) <= 2
    ensures |out| <= 2 * |ids|
    ensures (forall id :: id in ids ==> Sum(out, IsId(id)) == 2) ==> |out| == 2 * |ids|
    decreases |ids|
  {
    if |out| > 0 { assert out[0] in ids; }
    if ids != {} {
      var id :| id in ids;
      WithoutCounts(out, id, ids);
      var rest, fewer := Without(out, id), ids - {id};
      assert |fewer| == |ids| - 1;
      forall x | x in fewer ensures Sum(rest, IsId(x)) == Sum(out, IsId(x)) {}
      TwicePerId(rest, fewer);
    }
  }

  /** No id more than twice, counted by `counts`. */
  ghost predicate Rolled(out: seq<string>, counts: Counts, rows: seq<Affix>) {
    Within(out, PositiveIds(rows)) && forall id :: Sum(out, IsId(id)) == CountOf(counts, id) <= 2
  }

  lemma RollOne(out: seq<string>, counts: Counts, rows: seq<Affix>, k: nat)
    requires Rolled(out, counts, rows) && k < |rows| && Eligible(rows[k], counts)
    ensures Rolled(out + [rows[k].id], counts[rows[k].id := CountOf(counts, rows[k].id) + 1], rows)
  {
  }

  lemma NothingLeft(out: seq<string>, counts: Counts, rows: seq<Affix>)
    requires Rolled(out, counts, rows) && Before(rows, counts, |rows|) == 0
    ensures |out| == 2 * |PositiveIds(rows)|
  {
    assert rows[..|rows|] == rows;
    forall id | id in PositiveIds(rows) ensures Sum(out, IsId(id)) == 2 {
      var i :| 0 <= i < |rows| && rows[i].weight > 0 && rows[i].id == id;
      SumOneRow(rows, i, EligibleWeight(counts));
    }
    TwicePerId(out, PositiveIds(rows));
  }

  /** Whatever the random picks, the roll has no id more than twice and is as long as the
      rarity asks or the pool allows. */
  method RollEquipmentAffixes(pool: Option<seq<Affix>>, affixCount: Option<int>) returns (out: seq<string>)
    ensures pool.None? || affixCount.None? ==> out == []
    ensures pool.Some? && affixCount.Some? ==>
      && |out| == Min(Max(0, affixCount.value), 2 * |PositiveIds(pool.value)|)
      && Within(out, PositiveIds(pool.value)) && forall id :: Sum(out, IsId(id)) <= 2
  {
    out := [];
    if pool.None? || affixCount.None? {
      return;
    }
    var rows := pool.value;
    var counts: Counts := map[];
    var i := 0;
    while i < affixCount.value
      invariant 0 <= i == |out| <= Max(0, affixCount.value) && Rolled(out, counts, rows)
    {
      var drawn, pick := WeightedEligibleAffix(rows, counts);
      if drawn.None? {
        NothingLeft(out, counts, rows);
        break;
      }
      var id := rows[drawn.value].id;
      RollOne(out, counts, rows, drawn.value);
      counts := counts[id := CountOf(counts, id) + 1];
      out := out + [id];
      i := i + 1;
    }
    TwicePerId(out, PositiveIds(rows));
  }
}
