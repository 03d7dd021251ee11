/** The administrator's character timeline: each source gives only its newest
    rows, the rows are merged, sorted and sliced. The page is compared with the
    slice of the full sorted merge. */
module Timeline {
  import opened Basics
  import opened Sorting

  datatype Kind = Ledger | Audit | Risk

  datatype Item = Item(kind: Kind, id: nat, at: int)

  function Prefix(kind: Kind): string {
    match kind
    case Ledger => "ledger:"
    case Audit => "audit:"
    case Risk => "risk:"
  }

  /** The id shown for an item, by which the merged page breaks ties. */
  function Label(x: Item): string { Prefix(x.kind) + Decimal(x.id) }

  // ---------------------------------------------------------------------
  // The order of the merged page
  // ---------------------------------------------------------------------

  predicate Newer(a: Item, b: Item) { a.at > b.at || (a.at == b.at && StringLess(Label(b), Label(a))) }

  predicate NotOlder(a: Item, b: Item) { !Newer(b, a) }

  lemma NewerTransitive(a: Item, b: Item, c: Item)
    requires Newer(a, b) && Newer(b, c)
    ensures Newer(a, c)
  {
    if a.at == b.at == c.at {
      StringTotal(Label(a), Label(b));
      StringTotal(Label(b), Label(c));
      StringTotal(Label(a), Label(c));
      if StringAtMost(Label(a), Label(c)) { StringTransitive(Label(a), Label(c), Label(b)); }
    }
  }

  lemma NotOlderOrder()
    ensures TotalPreorder(NotOlder)
  {
    forall a, b ensures NotOlder(a, b) || NotOlder(b, a) { StringTotal(Label(a), Label(b)); }
    forall a, b, c | NotOlder(a, b) && NotOlder(b, c) ensures NotOlder(a, c) {
      if a.at == b.at == c.at { StringTransitive(Label(c), Label(b), Label(a)); }
    }
  }

  // ---------------------------------------------------------------------
  // Different rows have different labels
  // ---------------------------------------------------------------------

  lemma {:induction false} DecimalInjective(m: nat, n: nat)
    requires Decimal(m) == Decimal(n)
    ensures m == n
  {
    LastDigit(m);
    LastDigit(n);
    if m >= 10 && n >= 10 {
      assert Decimal(m)[..|Decimal(m)| - 1] == Decimal(m / 10) && Decimal(n)[..|Decimal(n)| - 1] == Decimal(n / 10);
      DecimalInjective(m / 10, n / 10);
    }
  }

  lemma LastDigit(n: nat)
    ensures |Decimal(n)| > 0 && Decimal(n)[|Decimal(n)| - 1] == '0' + (n % 10) as char
    ensures n >= 10 ==> |Decimal(n)| > 1
  {
  }

  lemma LabelInjective(a: Item, b: Item)
    requires Label(a) == Label(b)
    ensures a.kind == b.kind && a.id == b.id
  {
    assert Label(a)[0] == Prefix(a.kind)[0] && Label(b)[0] == Prefix(b.kind)[0];
    assert Label(a)[|Prefix(a.kind)|..] == Decimal(a.id) && Label(b)[|Prefix(b.kind)|..] == Decimal(b.id);
    DecimalInjective(a.id, b.id);
  }

  lemma NewerOrSame(a: Item, b: Item)
    ensures Newer(a, b) || Newer(b, a) || (a.kind == b.kind && a.id == b.id)
    ensures !(Newer(a, b) && Newer(b, a))
  {
    StringTotal(Label(a), Label(b));
    if Label(a) == Label(b) { LabelInjective(a, b); }
  }

  // ---------------------------------------------------------------------
  // Sources
  // ---------------------------------------------------------------------

  /** The order in which a source's query returns its rows: newest first, then by number. */
  predicate QueryOrder(rows: seq<Item>) {
    forall i, j :: 0 <= i < j < |rows| ==> rows[i].at > rows[j].at || (rows[i].at == rows[j].at && rows[i].id > rows[j].id)
  }

  function All(sources: seq<seq<Item>>): seq<Item> {
    if |sources| == 0 then [] else All(sources[..|sources| - 1]) + sources[|sources| - 1]
  }

  function Cut(rows: seq<Item>, k: nat): nat { if k < |rows| then k else |rows| }

  function Fetched(sources: seq<seq<Item>>, k: nat): seq<Item> {
    if |sources| == 0 then []
    else
      var rows := sources[|sources| - 1];
      Fetched(sources[..|sources| - 1], k) + rows[..Cut(rows, k)]
  }

  function Dropped(sources: seq<seq<Item>>, k: nat): seq<Item> {
    if |sources| == 0 then []
    else
      var rows := sources[|sources| - 1];
      Dropped(sources[..|sources| - 1], k) + rows[Cut(rows, k)..]
  }

  function IsRow(kind: Kind, id: nat): Item -> int { (x: Item) => Indicator(x.kind == kind && x.id == id) }

  function NewerThan(x: Item): Item -> int { (y: Item) => Indicator(Newer(y, x)) }

  /** Ids are primary keys of their source. */
  ghost predicate Keyed(rows: seq<Item>) { forall kind, id :: Sum(rows, IsRow(kind, id)) <= 1 }

  ghost predicate Sources(sources: seq<seq<Item>>) {
    Keyed(All(sources)) && forall s :: 0 <= s < |sources| ==> QueryOrder(sources[s])
  }

  lemma {:induction false} FetchedOrDropped(sources: seq<seq<Item>>, k: nat, weight: Item -> int)
    ensures Sum(All(sources), weight) == Sum(Fetched(sources, k), weight) + Sum(Dropped(sources, k), weight)
  {
    if |sources| > 0 {
      var n := |sources| - 1;
      var rows := sources[n];
      FetchedOrDropped(sources[..n], k, weight);
      SumConcat(All(sources[..n]), rows, weight);
      SumConcat(Fetched(sources[..n], k), rows[..Cut(rows, k)], weight);
      SumConcat(Dropped(sources[..n], k), rows[Cut(rows, k)..], weight);
      SumConcat(rows[..Cut(rows, k)], rows[Cut(rows, k)..], weight);
      assert rows == rows[..Cut(rows, k)] + rows[Cut(rows, k)..];
    }
  }

  function One(): Item -> int { (x: Item) => 1 }

  lemma {:induction false} CountAll(rows: seq<Item>)
    ensures Sum(rows, One()) == |rows|
  {
    if |rows| > 0 { CountAll(rows[..|rows| - 1]); }
  }

  lemma LengthsAdd(sources: seq<seq<Item>>, k: nat)
    ensures |All(sources)| == |Fetched(sources, k)| + |Dropped(sources, k)|
  {
    FetchedOrDropped(sources, k, One());
    CountAll(All(sources));
    CountAll(Fetched(sources, k));
    CountAll(Dropped(sources, k));
  }

  // ---------------------------------------------------------------------
  // Sorted merges and ranks
  // ---------------------------------------------------------------------

  /** `sorted` is the merge of `rows`, newest first. */
  predicate MergeOf(sorted: seq<Item>, rows: seq<Item>) { SortedBy(sorted, NotOlder) && multiset(sorted) == multiset(rows) }

  lemma SumAll<T>(rows: seq<T>, weight: T -> int, each: int)
    requires forall i :: 0 <= i < |rows| ==> weight(rows[i]) == each
    ensures Sum(rows, weight) == each * |rows|
  {
    if |rows| > 0 {
      SumAll(rows[..|rows| - 1], weight, each);
      assert each * |rows| == each * (|rows| - 1) + each;
    }
  }

  /** A merge without repetitions is strictly ordered. */
  lemma StrictOrder(sorted: seq<Item>, rows: seq<Item>, i: nat, j: nat)
    requires MergeOf(sorted, rows) && Keyed(rows) && i < j < |sorted|
    ensures Newer(sorted[i], sorted[j]) && !Newer(sorted[j], sorted[i])
  {
    var x := sorted[i];
    NewerOrSame(x, sorted[j]);
    assert NotOlder(x, sorted[j]);
    SumPermuted(sorted, rows, IsRow(x.kind, x.id));
    if x.kind == sorted[j].kind && x.id == sorted[j].id {
      SumTwoRows(sorted, i, j, IsRow(x.kind, x.id));
    }
  }

  /** In a merge without repetitions, the position of a row is the number of newer rows. */
  lemma RankIsIndex(sorted: seq<Item>, rows: seq<Item>, i: nat)
    requires MergeOf(sorted, rows) && Keyed(rows) && i < |sorted|
    ensures Sum(rows, NewerThan(sorted[i])) == i
  {
    var x := sorted[i];
    forall j: nat | j < |sorted| ensures Newer(sorted[j], x) <==> j < i {
      if j < i { StrictOrder(sorted, rows, j, i); } else if i < j { StrictOrder(sorted, rows, i, j); } else { NewerOrSame(x, x); }
    }
    FirstOnes(sorted, i, x);
    SumPermuted(sorted, rows, NewerThan(x));
  }

  lemma FirstOnes(sorted: seq<Item>, i: nat, x: Item)
    requires i <= |sorted| && forall j: nat :: j < |sorted| ==> (Newer(sorted[j], x) <==> j < i)
    ensures Sum(sorted, NewerThan(x)) == i
  {
    var before, after := sorted[..i], sorted[i..];
    SumAll(before, NewerThan(x), 1);
    SumAll(after, NewerThan(x), 0);
    SumConcat(before, after, NewerThan(x));
    assert sorted == before + after;
  }

  function Is(x: Item): Item -> int { (y: Item) => Indicator(y == x) }

  lemma Member(rows: seq<Item>, x: Item)
    ensures x in rows <==> Sum(rows, Is(x)) > 0
  {
    if x in rows {
      var i :| 0 <= i < |rows| && rows[i] == x;
      SumOneRow(rows, i, Is(x));
    } else if Sum(rows, Is(x)) != 0 {
      var i := SumWitness(rows, Is(x));
    }
  }

  lemma MergeMembers(sorted: seq<Item>, rows: seq<Item>)
    requires MergeOf(sorted, rows)
    ensures |sorted| == |rows| && forall x :: x in sorted <==> x in rows
  {
    PermutedLength(sorted, rows);
    forall x ensures x in sorted <==> x in rows {
      assert x in multiset(sorted) <==> x in multiset(rows);
    }
  }

  lemma KeyedFetched(sources: seq<seq<Item>>, k: nat)
    requires Keyed(All(sources))
    ensures Keyed(Fetched(sources, k))
  {
    forall kind, id ensures Sum(Fetched(sources, k), IsRow(kind, id)) <= 1 {
      FetchedOrDropped(sources, k, IsRow(kind, id));
      SumNonNegative(Dropped(sources, k), IsRow(kind, id));
    }
  }

  // ---------------------------------------------------------------------
  // When the page is right
  // ---------------------------------------------------------------------

  /** Every dropped row has at least `k` newer ones. */
  ghost predicate Late(sources: seq<seq<Item>>, k: nat) {
    forall x :: x in Dropped(sources, k) ==> Sum(All(sources), NewerThan(x)) >= k
  }

  lemma RankRises(rows: seq<Item>, x: Item, y: Item)
    requires Newer(x, y)
    ensures Sum(rows, NewerThan(x)) <= Sum(rows, NewerThan(y))
  {
    forall i | 0 <= i < |rows| ensures NewerThan(x)(rows[i]) <= NewerThan(y)(rows[i]) {
      if Newer(rows[i], x) { NewerTransitive(rows[i], x, y); }
    }
    SumAtMost(rows, NewerThan(x), NewerThan(y));
  }

  lemma NoneDroppedBefore(sources: seq<seq<Item>>, k: nat, x: Item)
    requires Late(sources, k) && Sum(All(sources), NewerThan(x)) < k
    ensures Sum(Fetched(sources, k), NewerThan(x)) == Sum(All(sources), NewerThan(x)) && x !in Dropped(sources, k)
  {
    FetchedOrDropped(sources, k, NewerThan(x));
    if Sum(Dropped(sources, k), NewerThan(x)) != 0 {
      var d := SumWitness(Dropped(sources, k), NewerThan(x));
      RankRises(All(sources), Dropped(sources, k)[d], x);
    }
  }

  lemma EarlyIsFetched(sources: seq<seq<Item>>, k: nat, x: Item)
    requires x in All(sources) && x !in Dropped(sources, k)
    ensures x in Fetched(sources, k)
  {
  }

  /** If dropped rows come late, the two merges agree on their first `k` rows. */
  lemma LateAgrees(sources: seq<seq<Item>>, k: nat, full: seq<Item>, fast: seq<Item>, i: nat)
    requires Keyed(All(sources)) && Late(sources, k)
    requires MergeOf(full, All(sources)) && MergeOf(fast, Fetched(sources, k)) && i < k && i < |full|
    ensures i < |fast| && fast[i] == full[i]
  {
    var x := full[i];
    RankIsIndex(full, All(sources), i);
    NoneDroppedBefore(sources, k, x);
    MergeMembers(full, All(sources));
    EarlyIsFetched(sources, k, x);
    MergeMembers(fast, Fetched(sources, k));
    var p: nat :| p < |fast| && fast[p] == x;
    KeyedFetched(sources, k);
    RankIsIndex(fast, Fetched(sources, k), p);
  }

  /** A dropped row that is newer is missing from the count of newer rows fetched. */
  lemma MissingLowers(sources: seq<seq<Item>>, k: nat, x: Item, y: Item)
    requires x in Dropped(sources, k) && Newer(x, y)
    ensures Sum(Fetched(sources, k), NewerThan(y)) < Sum(All(sources), NewerThan(y))
  {
    FetchedOrDropped(sources, k, NewerThan(y));
    var d :| 0 <= d < |Dropped(sources, k)| && Dropped(sources, k)[d] == x;
    SumOneRow(Dropped(sources, k), d, NewerThan(y));
  }

  lemma FastRank(sources: seq<seq<Item>>, k: nat, fast: seq<Item>, i: nat)
    requires Keyed(All(sources)) && MergeOf(fast, Fetched(sources, k)) && i < |fast|
    ensures Sum(Fetched(sources, k), NewerThan(fast[i])) == i && fast[i] in Fetched(sources, k)
  {
    KeyedFetched(sources, k);
    RankIsIndex(fast, Fetched(sources, k), i);
    MergeMembers(fast, Fetched(sources, k));
    assert fast[i] in fast;
  }

  /** If a dropped row comes early, the merges differ from its position on. */
  lemma EarlyDisagrees(sources: seq<seq<Item>>, k: nat, full: seq<Item>, fast: seq<Item>, x: Item, i: nat)
    requires Keyed(All(sources)) && x in Dropped(sources, k) && Sum(All(sources), NewerThan(x)) <= i
    requires MergeOf(full, All(sources)) && MergeOf(fast, Fetched(sources, k)) && i < |full| && i < |fast|
    ensures fast[i] != full[i]
  {
    FastRank(sources, k, fast, i);
    RankIsIndex(full, All(sources), i);
    NotFetchedTwice(sources, k, x);
    if full[i] != x {
      DroppedIsNewer(sources, k, full, x, i);
      MissingLowers(sources, k, x, full[i]);
    }
  }

  lemma NotFetchedTwice(sources: seq<seq<Item>>, k: nat, x: Item)
    requires Keyed(All(sources)) && x in Dropped(sources, k)
    ensures x !in Fetched(sources, k) && x in All(sources)
  {
    FetchedOrDropped(sources, k, Is(x));
    Member(Dropped(sources, k), x);
    Member(Fetched(sources, k), x);
    Member(All(sources), x);
    SumNonNegative(Fetched(sources, k), Is(x));
    OnlyOnce(All(sources), x);
  }

  lemma OnlyOnce(rows: seq<Item>, x: Item)
    requires Keyed(rows)
    ensures Sum(rows, Is(x)) <= 1
  {
    SumAtMost(rows, Is(x), IsRow(x.kind, x.id));
  }

  lemma DroppedIsNewer(sources: seq<seq<Item>>, k: nat, full: seq<Item>, x: Item, i: nat)
    requires Keyed(All(sources)) && x in All(sources) && Sum(All(sources), NewerThan(x)) <= i < |full|
    requires MergeOf(full, All(sources)) && full[i] != x
    ensures Newer(x, full[i])
  {
    MergeMembers(full, All(sources));
    var r: nat :| r < |full| && full[r] == x;
    RankIsIndex(full, All(sources), r);
    StrictOrder(full, All(sources), r, i);
  }

  // ---------------------------------------------------------------------
  // Only rows tied with the last fetched one can be missed
  // ---------------------------------------------------------------------

  /** Row `j` was dropped although it has the time of the last row fetched. */
  predicate Tied(rows: seq<Item>, k: nat, j: nat) { 0 < k <= j < |rows| && rows[j].at == rows[k - 1].at }

  /** Each row that ties with its source's cut has at least `k` newer rows in the timeline. */
  ghost predicate CutsClean(sources: seq<seq<Item>>, k: nat) {
    forall s, j: nat :: 0 <= s < |sources| && Tied(sources[s], k, j) ==> Sum(All(sources), NewerThan(sources[s][j])) >= k
  }

  lemma {:induction false} DroppedFrom(sources: seq<seq<Item>>, k: nat, x: Item) returns (s: nat, j: nat)
    requires x in Dropped(sources, k)
    ensures s < |sources| && k <= j < |sources[s]| && sources[s][j] == x
  {
    var n := |sources| - 1;
    var rows := sources[n];
    if x in rows[Cut(rows, k)..] {
      var i :| 0 <= i < |rows[Cut(rows, k)..]| && rows[Cut(rows, k)..][i] == x;
      s, j := n, Cut(rows, k) + i;
    } else {
      s, j := DroppedFrom(sources[..n], k, x);
    }
  }

  lemma {:induction false} DroppedHas(sources: seq<seq<Item>>, k: nat, s: nat, j: nat)
    requires s < |sources| && k <= j < |sources[s]|
    ensures sources[s][j] in Dropped(sources, k)
  {
    var n := |sources| - 1;
    if s == n {
      assert sources[n][Cut(sources[n], k)..][j - k] == sources[s][j];
    } else {
      DroppedHas(sources[..n], k, s, j);
    }
  }

  lemma {:induction false} SourceInAll(sources: seq<seq<Item>>, s: nat, x: Item)
    requires s < |sources|
    ensures Sum(sources[s], NewerThan(x)) <= Sum(All(sources), NewerThan(x))
  {
    var n := |sources| - 1;
    SumConcat(All(sources[..n]), sources[n], NewerThan(x));
    if s == n {
      SumNonNegative(All(sources[..n]), NewerThan(x));
    } else {
      SourceInAll(sources[..n], s, x);
      SumNonNegative(sources[n], NewerThan(x));
    }
  }

  lemma UntiedIsLate(sources: seq<seq<Item>>, k: nat, s: nat, j: nat)
    requires s < |sources| && QueryOrder(sources[s]) && k <= j < |sources[s]| && !Tied(sources[s], k, j)
    ensures Sum(All(sources), NewerThan(sources[s][j])) >= k
  {
    var rows := sources[s];
    var x := rows[j];
    SourceInAll(sources, s, x);
    forall i | 0 <= i < k ensures Newer(rows[i], x) {
      assert rows[i].at >= rows[k - 1].at > x.at;
    }
    AllNewer(rows, k, x);
  }

  lemma AllNewer(rows: seq<Item>, k: nat, x: Item)
    requires k <= |rows| && forall i :: 0 <= i < k ==> Newer(rows[i], x)
    ensures Sum(rows, NewerThan(x)) >= k
  {
    var head, tail := rows[..k], rows[k..];
    SumAll(head, NewerThan(x), 1);
    SumConcat(head, tail, NewerThan(x));
    SumNonNegative(tail, NewerThan(x));
    assert rows == head + tail;
  }

  lemma LateIff(sources: seq<seq<Item>>, k: nat)
    requires Sources(sources)
    ensures Late(sources, k) <==> CutsClean(sources, k)
  {
    if Late(sources, k) {
      forall s: nat, j: nat | s < |sources| && Tied(sources[s], k, j) ensures Sum(All(sources), NewerThan(sources[s][j])) >= k {
        DroppedHas(sources, k, s, j);
      }
    }
    if CutsClean(sources, k) {
      forall x | x in Dropped(sources, k) ensures Sum(All(sources), NewerThan(x)) >= k {
        var s, j := DroppedFrom(sources, k, x);
        if !Tied(sources[s], k, j) { UntiedIsLate(sources, k, s, j); }
      }
    }
  }

  // ---------------------------------------------------------------------
  // Pages
  // ---------------------------------------------------------------------

  const MaxInt: int := 0x7FFF_FFFF_FFFF_FFFF

  function ClampLimit(limit: int): (r: nat)
    ensures 1 <= r <= 200
  {
    if limit <= 0 then 50 else if limit > 200 then 200 else limit
  }

  /** limit + offset in 64 bits; a sum that wrapped around is replaced by the limit. */
  function FetchLimit(limit: nat, offset: nat): nat { if limit + offset > MaxInt then limit else limit + offset }

  /** At most `limit` items, those from position `offset` on. */
  function Slice(items: seq<Item>, offset: nat, limit: nat): (page: seq<Item>)
    ensures |page| == Min(limit, Max(0, |items| - offset)) && forall i :: 0 <= i < |page| ==> page[i] == items[offset + i]
  {
    if offset >= |items| then []
    else if offset + limit > |items| then items[offset..]
    else items[offset..offset + limit]
  }

  predicate SameAt(full: seq<Item>, fast: seq<Item>, i: nat) { i < |fast| && i < |full| && fast[i] == full[i] }

  predicate AgreeUpTo(full: seq<Item>, fast: seq<Item>, k: nat) {
    forall i: nat :: i < k && i < |full| ==> SameAt(full, fast, i)
  }

  lemma SlicesAgree(full: seq<Item>, fast: seq<Item>, offset: nat, limit: nat)
    requires |fast| <= |full| && AgreeUpTo(full, fast, offset + limit)
    ensures Slice(fast, offset, limit) == Slice(full, offset, limit)
  {
    if |full| > 0 && offset + limit > 0 {
      var last := Min(offset + limit, |full|) - 1;
      assert SameAt(full, fast, last);
      forall i: nat | offset <= i <= last ensures fast[i] == full[i] { assert SameAt(full, fast, i); }
    }
  }

  /** The page is the slice of the full merge exactly when no tie at a cut hides a row that
      belongs among the first limit + offset. */
  lemma PageRightIff(sources: seq<seq<Item>>, limit: nat, offset: nat, full: seq<Item>, fast: seq<Item>)
    requires Sources(sources) && limit > 0 && limit + offset <= MaxInt
    requires MergeOf(full, All(sources)) && MergeOf(fast, Fetched(sources, FetchLimit(limit, offset)))
    ensures Slice(fast, offset, limit) == Slice(full, offset, limit) <==> CutsClean(sources, FetchLimit(limit, offset))
  {
    var k := FetchLimit(limit, offset);
    LateIff(sources, k);
    LengthsAdd(sources, k);
    MergeMembers(full, All(sources));
    MergeMembers(fast, Fetched(sources, k));
    if Late(sources, k) {
      forall i: nat | i < k && i < |full| ensures SameAt(full, fast, i) {
        LateAgrees(sources, k, full, fast, i);
      }
      assert AgreeUpTo(full, fast, k);
      SlicesAgree(full, fast, offset, limit);
    } else {
      var x :| x in Dropped(sources, k) && Sum(All(sources), NewerThan(x)) < k;
      EarlyPage(sources, limit, offset, full, fast, x);
    }
  }

  lemma EnoughFetched(sources: seq<seq<Item>>, k: nat, x: Item)
    requires x in Dropped(sources, k)
    ensures |Fetched(sources, k)| >= k
  {
    var s, j := DroppedFrom(sources, k, x);
    FetchedFrom(sources, k, s);
  }

  lemma {:induction false} FetchedFrom(sources: seq<seq<Item>>, k: nat, s: nat)
    requires s < |sources| && k <= |sources[s]|
    ensures |Fetched(sources, k)| >= k
  {
    if s < |sources| - 1 { FetchedFrom(sources[..|sources| - 1], k, s); }
  }

  lemma EarlyPage(sources: seq<seq<Item>>, limit: nat, offset: nat, full: seq<Item>, fast: seq<Item>, x: Item)
    requires Keyed(All(sources)) && limit > 0 && x in Dropped(sources, limit + offset)
    requires Sum(All(sources), NewerThan(x)) < limit + offset
    requires MergeOf(full, All(sources)) && MergeOf(fast, Fetched(sources, limit + offset))
    ensures Slice(fast, offset, limit) != Slice(full, offset, limit)
  {
    var k := limit + offset;
    EnoughFetched(sources, k, x);
    LengthsAdd(sources, k);
    MergeMembers(full, All(sources));
    MergeMembers(fast, Fetched(sources, k));
    SumNonNegative(All(sources), NewerThan(x));
    var i := Max(offset, Sum(All(sources), NewerThan(x)));
    EarlyDisagrees(sources, k, full, fast, x, i);
    SliceAt(full, offset, limit, i);
    SliceAt(fast, offset, limit, i);
  }

  lemma SliceAt(items: seq<Item>, offset: nat, limit: nat, i: nat)
    requires offset <= i < offset + limit && i < |items|
    ensures i - offset < |Slice(items, offset, limit)| && Slice(items, offset, limit)[i - offset] == items[i]
  {
  }

  /** An offset so large that the sum wraps gives the empty page, which is right. */
  lemma HugeOffset(sources: seq<seq<Item>>, limit: nat, offset: nat, full: seq<Item>, fast: seq<Item>)
    requires limit + offset > MaxInt && |All(sources)| + limit <= MaxInt
    requires MergeOf(full, All(sources)) && MergeOf(fast, Fetched(sources, FetchLimit(limit, offset)))
    ensures Slice(fast, offset, limit) == Slice(full, offset, limit) == []
  {
    LengthsAdd(sources, FetchLimit(limit, offset));
    MergeMembers(full, All(sources));
    MergeMembers(fast, Fetched(sources, FetchLimit(limit, offset)));
  }

  /** With different times within each source the page is always right. */
  lemma DistinctTimesAreClean(sources: seq<seq<Item>>, k: nat)
    requires forall s, i, j :: 0 <= s < |sources| && 0 <= i < j < |sources[s]| ==> sources[s][i].at != sources[s][j].at
    ensures CutsClean(sources, k)
  {
  }

  // ---------------------------------------------------------------------
  // The handler
  // ---------------------------------------------------------------------

  datatype Page = Page(items: seq<Item>, total: nat, limit: nat, offset: nat)

  method FetchRows(sources: seq<seq<Item>>, fetch: nat) returns (items: seq<Item>, total: nat)
    ensures items == Fetched(sources, fetch) && total == |All(sources)|
  {
    items, total := [], 0;
    for s := 0 to |sources|
      invariant items == Fetched(sources[..s], fetch) && total == |All(sources[..s])|
    {
      assert sources[..s + 1][..s] == sources[..s];
      total := total + |sources[s]|;
      items := items + sources[s][..Cut(sources[s], fetch)];
    }
    assert sources[..|sources|] == sources;
  }

  /** The page is right for every offset: exactly when the cuts are clean, or the sum wrapped. */
  ghost predicate RightIff(sources: seq<seq<Item>>, items: seq<Item>, offset: nat, limit: nat) {
    forall full :: MergeOf(full, All(sources)) ==>
      (items == Slice(full, offset, limit) <==> limit + offset > MaxInt || CutsClean(sources, limit + offset))
  }

  lemma PageIs(sources: seq<seq<Item>>, limit: nat, offset: nat, fast: seq<Item>)
    requires Sources(sources) && 0 < limit <= 200 && |All(sources)| + 200 <= MaxInt
    requires MergeOf(fast, Fetched(sources, FetchLimit(limit, offset)))
    ensures RightIff(sources, Slice(fast, offset, limit), offset, limit)
  {
    forall full | MergeOf(full, All(sources))
      ensures Slice(fast, offset, limit) == Slice(full, offset, limit) <==> limit + offset > MaxInt || CutsClean(sources, limit + offset)
    {
      if limit + offset > MaxInt {
        HugeOffset(sources, limit, offset, full, fast);
      } else {
        PageRightIff(sources, limit, offset, full, fast);
      }
    }
  }

  /** AdminCharacterTimeline over the rows of the selected sources, each in query order. */
  method AdminCharacterTimeline(sources: seq<seq<Item>>, requestedLimit: int, requestedOffset: int) returns (page: Page)
    requires Sources(sources) && requestedOffset <= MaxInt && |All(sources)| + 200 <= MaxInt
    ensures page.limit == if requestedLimit <= 0 then 50 else Min(requestedLimit, 200)
    ensures page.offset == Max(0, requestedOffset) && page.total == |All(sources)|
    ensures RightIff(sources, page.items, page.offset, page.limit)
  {
    var limit := ClampLimit(requestedLimit);
    var offset: nat := 0;
    if requestedOffset > 0 {
      offset := requestedOffset;
    }
    var items, total := FetchRows(sources, FetchLimit(limit, offset));
    NotOlderOrder();
    var sorted := Sort(items, NotOlder);
    PageIs(sources, limit, offset, sorted);
    page := Page(Slice(sorted, offset, limit), total, limit, offset);
  }

  function Nine(): Item { Item(Ledger, 9, 0) }

  function Ten(): Item { Item(Ledger, 10, 0) }

  lemma TieSources()
    ensures All([[Ten(), Nine()]]) == [Ten(), Nine()] && Fetched([[Ten(), Nine()]], 1) == [Ten()]
    ensures Sources([[Ten(), Nine()]])
  {
    var sources := [[Ten(), Nine()]];
    assert sources[..0] == [] && All([]) == [] && Fetched([], 1) == [];
    assert [Ten(), Nine()][..1] == [Ten()];
    PairKeyed(Ten(), Nine());
  }

  /** Two ledger rows of one instant: the query keeps number 10, but the page order puts
      "ledger:9" before "ledger:10". */
  lemma TieGivesTheWrongPage()
    ensures Sources([[Ten(), Nine()]])
    ensures MergeOf([Nine(), Ten()], All([[Ten(), Nine()]])) && MergeOf([Ten()], Fetched([[Ten(), Nine()]], 1))
    ensures Slice([Ten()], 0, 1) != Slice([Nine(), Ten()], 0, 1)
  {
    TieSources();
    TenBeforeNine();
    TwoSorted(Nine(), Ten());
  }

  lemma TwoSorted(a: Item, b: Item)
    requires Newer(a, b) && !Newer(b, a)
    ensures MergeOf([a, b], [b, a]) && MergeOf([b], [b]) && Slice([b], 0, 1) != Slice([a, b], 0, 1)
  {
  }

  lemma PairKeyed(a: Item, b: Item)
    requires a.id != b.id
    ensures Keyed([a, b])
  {
    forall kind, id ensures Sum([a, b], IsRow(kind, id)) <= 1 {
      SumConcat([a], [b], IsRow(kind, id));
      assert [a] + [b] == [a, b];
      SumAll([a], IsRow(kind, id), IsRow(kind, id)(a));
      SumAll([b], IsRow(kind, id), IsRow(kind, id)(b));
    }
  }

  lemma TenBeforeNine()
    ensures Newer(Nine(), Ten()) && !Newer(Ten(), Nine())
  {
    assert Decimal(9) == "9";
    assert Decimal(10) == Decimal(1) + ["0123456789"[0]] == "10";
    SamePrefix("ledger:", "10", "9");
    SamePrefix("ledger:", "9", "10");
  }

  lemma {:induction false} SamePrefix(prefix: string, a: string, b: string)
    ensures StringAtMost(prefix + a, prefix + b) == StringAtMost(a, b)
  {
    if |prefix| == 0 {
      assert prefix + a == a && prefix + b == b;
    } else {
      assert (prefix + a)[1..] == prefix[1..] + a && (prefix + b)[1..] == prefix[1..] + b;
      SamePrefix(prefix[1..], a, b);
    }
  }
}
