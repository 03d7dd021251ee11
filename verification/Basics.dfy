/** Small helpers shared by every module: optional values, results of
    transactions, and sums over the rows of a table. */
module Basics {

  datatype Option<+T> = None | Some(value: T)

  /** The outcome of a transaction body: the new value, or the reason for which
      the deferred rollback discards everything the body did. */
  datatype Result<+T> = Ok(value: T) | Fail(reason: string) {
    predicate IsFailure() { Fail? }

    function PropagateFailure<U>(): Result<U>
      requires Fail?
    {
      Fail(reason)
    }

    function Extract(): T
      requires Ok?
    {
      value
    }
  }

  function Max(a: int, b: int): int { if a < b then b else a }

  function Min(a: int, b: int): int { if a < b then a else b }

  lemma MulMonotone(a: nat, b: nat, d: nat)
    requires a <= b
    ensures a * d <= b * d
  {
  }

  function Indicator(b: bool): int { if b then 1 else 0 }

  /** The decimal numeral of a natural number, as %d prints it. */
  function Decimal(n: nat): string {
    if n < 10 then ["0123456789"[n]] else Decimal(n / 10) + ["0123456789"[n % 10]]
  }

  /** White space as Unicode defines it, which strings.TrimSpace removes. */
  predicate IsSpace(c: char) {
    || c == '\t' || c == '\n' || c == '\U{0B}' || c == '\U{0C}' || c == '\r' || c == ' '
    || c == '\U{85}' || c == '\U{A0}' || c == '\U{1680}'
    || '\U{2000}' <= c <= '\U{200A}'
    || c == '\U{2028}' || c == '\U{2029}' || c == '\U{202F}' || c == '\U{205F}' || c == '\U{3000}'
  }

  function Trim(text: string): string {
    if |text| > 0 && IsSpace(text[0]) then Trim(text[1..])
    else if |text| > 0 && IsSpace(text[|text| - 1]) then Trim(text[..|text| - 1])
    else text
  }

  /** Trimming takes white space off both ends, all of it, and nothing else. */
  lemma {:induction false} TrimIs(text: string) returns (i: nat, j: nat)
    ensures i <= j <= |text| && Trim(text) == text[i..j]
    ensures forall k :: 0 <= k < i || j <= k < |text| ==> IsSpace(text[k])
    ensures Trim(text) != "" ==> !IsSpace(Trim(text)[0]) && !IsSpace(Trim(text)[|Trim(text)| - 1])
    decreases |text|
  {
    if |text| > 0 && IsSpace(text[0]) {
      i, j := TrimIs(text[1..]);
      assert text[1..][i..j] == text[i + 1..j + 1];
      i, j := i + 1, j + 1;
    } else if |text| > 0 && IsSpace(text[|text| - 1]) {
      i, j := TrimIs(text[..|text| - 1]);
      assert text[..|text| - 1][i..j] == text[i..j];
    } else {
      i, j := 0, |text|;
      assert text[0..|text|] == text;
    }
  }

  lemma TrimTwice(text: string)
    ensures Trim(Trim(text)) == Trim(text)
  {
    var i, j := TrimIs(text);
  }

  /** The sum of a weight over all rows of a table. Counting rows is the case of
      a weight that is 0 or 1. */
  function Sum<T>(rows: seq<T>, weight: T -> int): int {
    if |rows| == 0 then 0
    else Sum(rows[..|rows| - 1], weight) + weight(rows[|rows| - 1])
  }

  lemma SumAppend<T>(rows: seq<T>, row: T, weight: T -> int)
    ensures Sum(rows + [row], weight) == Sum(rows, weight) + weight(row)
  {
  }

  lemma {:induction false} SumUpdate<T>(rows: seq<T>, i: nat, row: T, weight: T -> int)
    requires i < |rows|
    ensures Sum(rows[i := row], weight) == Sum(rows, weight) - weight(rows[i]) + weight(row)
  {
    var n := |rows| - 1;
    if i == n {
      assert rows[i := row][..n] == rows[..n];
    } else {
      assert rows[i := row][..n] == rows[..n][i := row];
      SumUpdate(rows[..n], i, row, weight);
    }
  }

  lemma {:induction false} SumConcat<T>(left: seq<T>, right: seq<T>, weight: T -> int)
    ensures Sum(left + right, weight) == Sum(left, weight) + Sum(right, weight)
  {
    if |right| == 0 {
      assert left + right == left;
    } else {
      var n := |right| - 1;
      SumConcat(left, right[..n], weight);
      assert (left + right)[..|left + right| - 1] == left + right[..n];
    }
  }

  lemma {:induction false} SumAtMost<T>(rows: seq<T>, lower: T -> int, upper: T -> int)
    requires forall i :: 0 <= i < |rows| ==> lower(rows[i]) <= upper(rows[i])
    ensures Sum(rows, lower) <= Sum(rows, upper)
  {
    if |rows| > 0 {
      SumAtMost(rows[..|rows| - 1], lower, upper);
    }
  }

  lemma SumSame<T>(rows: seq<T>, a: T -> int, b: T -> int)
    requires forall i :: 0 <= i < |rows| ==> a(rows[i]) == b(rows[i])
    ensures Sum(rows, a) == Sum(rows, b)
  {
  }

  lemma {:induction false} SumNonNegative<T>(rows: seq<T>, weight: T -> int)
    requires forall i :: 0 <= i < |rows| ==> weight(rows[i]) >= 0
    ensures Sum(rows, weight) >= 0
  {
    if |rows| > 0 {
      SumNonNegative(rows[..|rows| - 1], weight);
    }
  }

  /** Non-negative weights: no single row outweighs the table. */
  lemma {:induction false} SumOneRow<T>(rows: seq<T>, i: nat, weight: T -> int)
    requires i < |rows|
    requires forall k :: 0 <= k < |rows| ==> weight(rows[k]) >= 0
    ensures weight(rows[i]) <= Sum(rows, weight)
  {
    var n := |rows| - 1;
    if i == n {
      SumNonNegative(rows[..n], weight);
    } else {
      SumOneRow(rows[..n], i, weight);
    }
  }

  /** Non-negative weights: two different rows do not outweigh the table. */
  lemma {:induction false} SumTwoRows<T>(rows: seq<T>, i: nat, j: nat, weight: T -> int)
    requires i < j < |rows|
    requires forall k :: 0 <= k < |rows| ==> weight(rows[k]) >= 0
    ensures weight(rows[i]) + weight(rows[j]) <= Sum(rows, weight)
  {
    var n := |rows| - 1;
    if j == n {
      SumOneRow(rows[..n], i, weight);
    } else {
      SumTwoRows(rows[..n], i, j, weight);
    }
  }

  /** A sum that is not zero has a row that is not zero. */
  lemma {:induction false} SumWitness<T>(rows: seq<T>, weight: T -> int) returns (i: nat)
    requires Sum(rows, weight) != 0
    ensures i < |rows| && weight(rows[i]) != 0
  {
    var n := |rows| - 1;
    if weight(rows[n]) != 0 {
      i := n;
    } else {
      i := SumWitness(rows[..n], weight);
    }
  }
}
