/** Ordering of strings by code point, and sorting by any total preorder. */
module Sorting {
  import opened Basics

  /** Lexicographic order, as Go and SQL compare strings. */
  predicate StringAtMost(a: string, b: string) {
    |a| == 0 || (|b| > 0 && (a[0] < b[0] || (a[0] == b[0] && StringAtMost(a[1..], b[1..]))))
  }

  predicate StringLess(a: string, b: string) { !StringAtMost(b, a) }

  lemma {:induction false} StringTotal(a: string, b: string)
    ensures StringAtMost(a, b) || StringAtMost(b, a)
    ensures StringAtMost(a, b) && StringAtMost(b, a) ==> a == b
  {
    if |a| > 0 && |b| > 0 {
      StringTotal(a[1..], b[1..]);
      if a[0] == b[0] && a[1..] == b[1..] { assert a == [a[0]] + a[1..] && b == [b[0]] + b[1..]; }
    }
  }

  lemma {:induction false} StringTransitive(a: string, b: string, c: string)
    requires StringAtMost(a, b) && StringAtMost(b, c)
    ensures StringAtMost(a, c)
  {
    if |a| > 0 && a[0] == b[0] == c[0] {
      StringTransitive(a[1..], b[1..], c[1..]);
    }
  }

  ghost predicate TotalPreorder<T(!new)>(le: (T, T) -> bool) {
    && (forall a, b :: le(a, b) || le(b, a))
    && (forall a, b, c :: le(a, b) && le(b, c) ==> le(a, c))
  }

  predicate SortedBy<T>(s: seq<T>, le: (T, T) -> bool) {
    forall i, j :: 0 <= i < j < |s| ==> le(s[i], s[j])
  }

  lemma MultisetMiddle<T>(left: seq<T>, x: T, right: seq<T>)
    ensures multiset(left + [x] + right) == multiset(left + right) + multiset{x}
  {
  }

  /** Sorts; rows that compare equal may come in any order. */
  method Sort<T(!new)>(s: seq<T>, le: (T, T) -> bool) returns (out: seq<T>)
    requires TotalPreorder(le)
    ensures SortedBy(out, le) && multiset(out) == multiset(s)
  {
    out := [];
    for n := 0 to |s|
      invariant SortedBy(out, le) && multiset(out) == multiset(s[..n])
    {
      out := Insert(out, s[n], le);
      assert s[..n + 1] == s[..n] + [s[n]];
    }
    assert s[..|s|] == s;
  }

  method Insert<T(!new)>(s: seq<T>, x: T, le: (T, T) -> bool) returns (out: seq<T>)
    requires TotalPreorder(le) && SortedBy(s, le)
    ensures SortedBy(out, le) && multiset(out) == multiset(s) + multiset{x}
  {
    var i := |s|;
    while i > 0 && !le(s[i - 1], x)
      invariant 0 <= i <= |s|
      invariant forall k :: i <= k < |s| ==> le(x, s[k])
    {
      i := i - 1;
    }
    var left, right := s[..i], s[i..];
    assert left + right == s;
    MultisetMiddle(left, x, right);
    out := left + [x] + right;
    SortedMiddle(left, x, right, le);
  }

  lemma SortedMiddle<T(!new)>(left: seq<T>, x: T, right: seq<T>, le: (T, T) -> bool)
    requires TotalPreorder(le) && SortedBy(left + right, le)
    requires |left| > 0 ==> le(left[|left| - 1], x)
    requires forall k :: 0 <= k < |right| ==> le(x, right[k])
    ensures SortedBy(left + [x] + right, le)
  {
    var s, out := left + right, left + [x] + right;
    forall k | 0 <= k < |left| ensures le(left[k], x) {
      if k < |left| - 1 { assert le(s[k], s[|left| - 1]); }
    }
    forall a, b | 0 <= a < b < |out| ensures le(out[a], out[b]) {
      if a != |left| && b != |left| {
        assert le(s[if a < |left| then a else a - 1], s[if b < |left| then b else b - 1]);
      }
    }
  }

  lemma SumMiddle<T>(left: seq<T>, x: T, right: seq<T>, weight: T -> int)
    ensures Sum(left + [x] + right, weight) == Sum(left + right, weight) + weight(x)
  {
    SumConcat(left + [x], right, weight);
    SumAppend(left, x, weight);
    SumConcat(left, right, weight);
  }

  lemma WithoutOne<T>(b: seq<T>, x: T) returns (left: seq<T>, right: seq<T>)
    requires x in multiset(b)
    ensures b == left + [x] + right && multiset(left + right) == multiset(b) - multiset{x}
  {
    var j :| 0 <= j < |b| && b[j] == x;
    left, right := b[..j], b[j + 1..];
    assert b == left + [x] + right;
    MultisetMiddle(left, x, right);
  }

  lemma WithoutLast<T>(a: seq<T>)
    requires |a| > 0
    ensures multiset(a[..|a| - 1]) == multiset(a) - multiset{a[|a| - 1]}
  {
    var n := |a| - 1;
    assert a == a[..n] + [a[n]];
  }

  /** A sum does not depend on the order of the rows. */
  lemma {:induction false} SumPermuted<T>(a: seq<T>, b: seq<T>, weight: T -> int)
    requires multiset(a) == multiset(b)
    ensures Sum(a, weight) == Sum(b, weight)
  {
    PermutedLength(a, b);
    if |a| > 0 {
      var n := |a| - 1;
      assert a[n] in multiset(a);
      var left, right := WithoutOne(b, a[n]);
      WithoutLast(a);
      SumPermuted(a[..n], left + right, weight);
      SumMiddle(left, a[n], right, weight);
    }
  }

  lemma PermutedLength<T>(a: seq<T>, b: seq<T>)
    requires multiset(a) == multiset(b)
    ensures |a| == |b|
  {
    assert |multiset(a)| == |a| && |multiset(b)| == |b|;
  }
}
