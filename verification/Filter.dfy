/** The compensation filter compiled to a WHERE clause with numbered
    placeholders, under SQL's three-valued logic. */
module Filter {
  import opened Basics

  /** AdminCompensationFilter; a bound of zero is no bound. */
  datatype Filter = Filter(
    minLevel: int, maxLevel: int, loginFrom: Option<int>, loginTo: Option<int>,
    minChapter: int, minFloor: int, minClears: int, license: Option<bool>)

  /** A row of characters joined with accounts; last_login_at may be NULL. */
  datatype Row = Row(
    deleted: bool, active: bool, level: int, lastLogin: Option<int>,
    chapter: int, floor: int, clears: int, license: bool)

  // ---------------------------------------------------------------------
  // Conditions and their meaning
  // ---------------------------------------------------------------------

  datatype Truth = True | False | Unknown

  function Of(b: bool): Truth { if b then True else False }

  function And(a: Truth, b: Truth): Truth {
    if a == False || b == False then False else if a == True && b == True then True else Unknown
  }

  function Or(a: Truth, b: Truth): Truth {
    if a == True || b == True then True else if a == False && b == False then False else Unknown
  }

  datatype Value = Number(n: int) | Time(t: int) | Flag(b: bool) | Null

  datatype Column = Level | LastLogin | Chapter | Floor | Clears | License

  datatype Operator = AtLeast | AtMost | Equal | Greater

  datatype Condition =
    | NotDeleted
    | IsActive
    | Compare(column: Column, op: Operator, placeholder: nat)
    | Both(left: Condition, right: Condition)
    | Either(left: Condition, right: Condition)

  function Fetch(column: Column, row: Row): Value {
    match column
    case Level => Number(row.level)
    case LastLogin => if row.lastLogin.None? then Null else Time(row.lastLogin.value)
    case Chapter => Number(row.chapter)
    case Floor => Number(row.floor)
    case Clears => Number(row.clears)
    case License => Flag(row.license)
  }

  function Order(op: Operator, a: int, b: int): bool {
    match op
    case AtLeast => a >= b
    case AtMost => a <= b
    case Equal => a == b
    case Greater => a > b
  }

  /** A comparison; NULL makes it unknown, values of different types are an error. */
  function CompareValues(op: Operator, a: Value, b: Value): Result<Truth> {
    match (a, b)
    case (Null, _) => Ok(Unknown)
    case (Number(x), Number(y)) => Ok(Of(Order(op, x, y)))
    case (Time(x), Time(y)) => Ok(Of(Order(op, x, y)))
    case (Flag(x), Flag(y)) => if op == Equal then Ok(Of(x == y)) else Fail("operator does not exist")
    case _ => Fail("operator does not exist")
  }

  /** Evaluates a condition; a placeholder is $1, $2, ... into `args`. */
  function Eval(c: Condition, args: seq<Value>, row: Row): Result<Truth> {
    match c
    case NotDeleted => Ok(Of(!row.deleted))
    case IsActive => Ok(Of(row.active))
    case Compare(column, op, n) =>
      if n == 0 || n > |args| then Fail("there is no such parameter") else CompareValues(op, Fetch(column, row), args[n - 1])
    case Both(left, right) =>
      var a :- Eval(left, args, row);
      var b :- Eval(right, args, row);
      Ok(And(a, b))
    case Either(left, right) =>
      var a :- Eval(left, args, row);
      var b :- Eval(right, args, row);
      Ok(Or(a, b))
  }

  /** The clauses joined with AND. */
  function Joined(clauses: seq<Condition>): Condition
    requires |clauses| > 0
  {
    if |clauses| == 1 then clauses[0] else Both(Joined(clauses[..|clauses| - 1]), clauses[|clauses| - 1])
  }

  /** The row is selected: the WHERE clause is true, not false and not unknown. */
  predicate Selects(clauses: seq<Condition>, args: seq<Value>, row: Row)
    requires |clauses| > 0
  {
    Eval(Joined(clauses), args, row) == Ok(True)
  }

  // ---------------------------------------------------------------------
  // What a filter means
  // ---------------------------------------------------------------------

  /** Progress is ordered by chapter first, then by floor. */
  predicate ProgressAtLeast(chapter: int, floor: int, minChapter: int, minFloor: int) {
    chapter > minChapter || (chapter == minChapter && floor >= minFloor)
  }

  predicate Satisfies(f: Filter, row: Row) {
    && !row.deleted && row.active
    && (f.minLevel > 0 ==> row.level >= f.minLevel)
    && (f.maxLevel > 0 ==> row.level <= f.maxLevel)
    && (f.loginFrom.Some? ==> row.lastLogin.Some? && row.lastLogin.value >= f.loginFrom.value)
    && (f.loginTo.Some? ==> row.lastLogin.Some? && row.lastLogin.value <= f.loginTo.value)
    && (f.minChapter > 0 || f.minFloor > 0 ==> ProgressAtLeast(row.chapter, row.floor, f.minChapter, f.minFloor))
    && (f.minClears > 0 ==> row.clears >= f.minClears)
    && (f.license.Some? ==> row.license == f.license.value)
  }

  predicate Accepted(f: Filter) {
    && f.minLevel >= 0 && f.maxLevel >= 0 && f.minClears >= 0 && f.minChapter >= 0 && f.minFloor >= 0
    && !(f.maxLevel > 0 && f.maxLevel < f.minLevel)
  }

  // ---------------------------------------------------------------------
  // Placeholders
  // ---------------------------------------------------------------------

  predicate Mentions(c: Condition, n: nat) {
    match c
    case NotDeleted => false
    case IsActive => false
    case Compare(_, _, m) => m == n
    case Both(left, right) => Mentions(left, n) || Mentions(right, n)
    case Either(left, right) => Mentions(left, n) || Mentions(right, n)
  }

  predicate InRange(c: Condition, count: nat) {
    match c
    case NotDeleted => true
    case IsActive => true
    case Compare(_, _, m) => 1 <= m <= count
    case Both(left, right) => InRange(left, count) && InRange(right, count)
    case Either(left, right) => InRange(left, count) && InRange(right, count)
  }

  /** Further arguments do not change a condition whose placeholders are in range. */
  lemma {:induction false} MoreArguments(c: Condition, args: seq<Value>, more: seq<Value>, row: Row)
    requires InRange(c, |args|)
    ensures Eval(c, args + more, row) == Eval(c, args, row) && InRange(c, |args + more|)
  {
    match c
    case Both(left, right) =>
      MoreArguments(left, args, more, row);
      MoreArguments(right, args, more, row);
    case Either(left, right) =>
      MoreArguments(left, args, more, row);
      MoreArguments(right, args, more, row);
    case Compare(_, _, m) => assert (args + more)[m - 1] == args[m - 1];
    case _ =>
  }

  // ---------------------------------------------------------------------
  // Building clauses one by one
  // ---------------------------------------------------------------------

  /** The `k`-th of the seven optional conditions. */
  predicate Says(f: Filter, k: nat, row: Row) {
    match k
    case 0 => f.minLevel > 0 ==> row.level >= f.minLevel
    case 1 => f.maxLevel > 0 ==> row.level <= f.maxLevel
    case 2 => f.loginFrom.Some? ==> row.lastLogin.Some? && row.lastLogin.value >= f.loginFrom.value
    case 3 => f.loginTo.Some? ==> row.lastLogin.Some? && row.lastLogin.value <= f.loginTo.value
    case 4 => f.minChapter > 0 || f.minFloor > 0 ==> ProgressAtLeast(row.chapter, row.floor, f.minChapter, f.minFloor)
    case 5 => f.minClears > 0 ==> row.clears >= f.minClears
    case _ => f.license.Some? ==> row.license == f.license.value
  }

  predicate SatisfiesUpTo(f: Filter, k: nat, row: Row) {
    if k == 0 then !row.deleted && row.active else SatisfiesUpTo(f, k - 1, row) && Says(f, k - 1, row)
  }

  lemma AllSeven(f: Filter, row: Row)
    ensures SatisfiesUpTo(f, 7, row) <==> Satisfies(f, row)
  {
    assert SatisfiesUpTo(f, 1, row) <==> SatisfiesUpTo(f, 0, row) && Says(f, 0, row);
    assert SatisfiesUpTo(f, 2, row) <==> SatisfiesUpTo(f, 1, row) && Says(f, 1, row);
    assert SatisfiesUpTo(f, 3, row) <==> SatisfiesUpTo(f, 2, row) && Says(f, 2, row);
    assert SatisfiesUpTo(f, 4, row) <==> SatisfiesUpTo(f, 3, row) && Says(f, 3, row);
    assert SatisfiesUpTo(f, 5, row) <==> SatisfiesUpTo(f, 4, row) && Says(f, 4, row);
    assert SatisfiesUpTo(f, 6, row) <==> SatisfiesUpTo(f, 5, row) && Says(f, 5, row);
  }

  predicate Used(clauses: seq<Condition>, n: nat) { exists i :: 0 <= i < |clauses| && Mentions(clauses[i], n) }

  /** Placeholders are in range and every argument is used. */
  ghost predicate WellNumbered(clauses: seq<Condition>, args: seq<Value>) {
    && (forall i :: 0 <= i < |clauses| ==> InRange(clauses[i], |args|))
    && (forall n: nat :: 1 <= n <= |args| ==> Used(clauses, n))
  }

  /** The clauses so far say the first `k` conditions and never fail. */
  ghost predicate Built(clauses: seq<Condition>, args: seq<Value>, f: Filter, k: nat) {
    && |clauses| > 0 && WellNumbered(clauses, args)
    && (forall row :: Eval(Joined(clauses), args, row).Ok? && (Selects(clauses, args, row) <==> SatisfiesUpTo(f, k, row)))
  }

  /** A new clause over new arguments adds what it says. */
  lemma BuiltMore(clauses: seq<Condition>, args: seq<Value>, f: Filter, k: nat, c: Condition, more: seq<Value>)
    requires Built(clauses, args, f, k) && InRange(c, |args + more|)
    requires forall n: nat :: |args| < n <= |args + more| ==> Mentions(c, n)
    requires forall row :: Eval(c, args + more, row).Ok? && (Eval(c, args + more, row) == Ok(True) <==> Says(f, k, row))
    ensures Built(clauses + [c], args + more, f, k + 1)
  {
    var clauses', args' := clauses + [c], args + more;
    assert clauses'[..|clauses|] == clauses;
    JoinedInRange(clauses, |args|);
    forall row ensures Eval(Joined(clauses'), args', row).Ok? && (Selects(clauses', args', row) <==> SatisfiesUpTo(f, k + 1, row)) {
      MoreArguments(Joined(clauses), args, more, row);
      assert Selects(clauses, args, row) <==> SatisfiesUpTo(f, k, row);
      assert Eval(c, args + more, row).Ok?;
    }
    NumberedMore(clauses, args, c, more);
  }

  lemma NumberedMore(clauses: seq<Condition>, args: seq<Value>, c: Condition, more: seq<Value>)
    requires WellNumbered(clauses, args) && InRange(c, |args + more|)
    requires forall n: nat :: |args| < n <= |args + more| ==> Mentions(c, n)
    ensures WellNumbered(clauses + [c], args + more)
  {
    var clauses', args' := clauses + [c], args + more;
    forall i | 0 <= i < |clauses'| ensures InRange(clauses'[i], |args'|) {
      if i < |clauses| { MoreArguments(clauses[i], args, more, Row(false, false, 0, None, 0, 0, 0, false)); }
    }
    forall n: nat | 1 <= n <= |args'| ensures Used(clauses', n) {
      if n <= |args| {
        assert Used(clauses, n);
        var i :| 0 <= i < |clauses| && Mentions(clauses[i], n);
        assert Mentions(clauses'[i], n);
      } else {
        assert Mentions(clauses'[|clauses|], n);
      }
    }
  }

  lemma {:induction false} JoinedInRange(clauses: seq<Condition>, count: nat)
    requires |clauses| > 0 && forall i :: 0 <= i < |clauses| ==> InRange(clauses[i], count)
    ensures InRange(Joined(clauses), count)
  {
    if |clauses| > 1 { JoinedInRange(clauses[..|clauses| - 1], count); }
  }

  lemma BuiltSkips(clauses: seq<Condition>, args: seq<Value>, f: Filter, k: nat)
    requires Built(clauses, args, f, k) && forall row :: Says(f, k, row)
    ensures Built(clauses, args, f, k + 1)
  {
  }

  /** The closure `add`, for an optional condition: one argument and one clause that compares
      a column with it, or nothing when there is no value. */
  method AddIf(clauses: seq<Condition>, args: seq<Value>, column: Column, op: Operator, value: Option<Value>, ghost f: Filter, ghost k: nat)
    returns (clauses': seq<Condition>, args': seq<Value>)
    requires Built(clauses, args, f, k)
    requires value.None? ==> forall row :: Says(f, k, row)
    requires value.Some? ==> forall row :: CompareValues(op, Fetch(column, row), value.value).Ok?
    requires value.Some? ==> forall row :: CompareValues(op, Fetch(column, row), value.value) == Ok(True) <==> Says(f, k, row)
    ensures Built(clauses', args', f, k + 1)
  {
    if value.None? {
      BuiltSkips(clauses, args, f, k);
      return clauses, args;
    }
    args' := args + [value.value];
    var c := Compare(column, op, |args'|);
    clauses' := clauses + [c];
    forall row ensures Eval(c, args + [value.value], row) == CompareValues(op, Fetch(column, row), value.value) {}
    BuiltMore(clauses, args, f, k, c, [value.value]);
  }

  /** The progress clause: two arguments, the first of them used twice. */
  method AddProgress(clauses: seq<Condition>, args: seq<Value>, f: Filter) returns (clauses': seq<Condition>, args': seq<Value>)
    requires Built(clauses, args, f, 4)
    ensures Built(clauses', args', f, 5)
  {
    if !(f.minChapter > 0 || f.minFloor > 0) {
      BuiltSkips(clauses, args, f, 4);
      return clauses, args;
    }
    args' := args + [Number(f.minChapter), Number(f.minFloor)];
    var n := |args'|;
    var c := ProgressCondition(n);
    ProgressNumbers(n);
    clauses' := clauses + [c];
    forall row ensures Eval(c, args', row).Ok? && (Eval(c, args', row) == Ok(True) <==> Says(f, 4, row)) {
      ProgressClause(args', f, row);
    }
    BuiltMore(clauses, args, f, 4, c, [Number(f.minChapter), Number(f.minFloor)]);
  }

  /** (chapter > $n-1 OR (chapter = $n-1 AND floor >= $n)) */
  function ProgressCondition(n: nat): Condition
    requires n >= 1
  {
    Either(Compare(Chapter, Greater, n - 1), Both(Compare(Chapter, Equal, n - 1), Compare(Floor, AtLeast, n)))
  }

  lemma ProgressNumbers(n: nat)
    requires n >= 2
    ensures InRange(ProgressCondition(n), n) && Mentions(ProgressCondition(n), n - 1) && Mentions(ProgressCondition(n), n)
  {
  }

  lemma NumberCompared(args: seq<Value>, n: nat, column: Column, op: Operator, row: Row, a: int, b: int)
    requires 1 <= n <= |args| && args[n - 1] == Number(b) && Fetch(column, row) == Number(a)
    ensures Eval(Compare(column, op, n), args, row) == Ok(Of(Order(op, a, b)))
  {
  }

  lemma ProgressClause(args: seq<Value>, f: Filter, row: Row)
    requires |args| >= 2 && args[|args| - 2] == Number(f.minChapter) && args[|args| - 1] == Number(f.minFloor)
    ensures Eval(ProgressCondition(|args|), args, row) == Ok(Of(ProgressAtLeast(row.chapter, row.floor, f.minChapter, f.minFloor)))
  {
    var n := |args|;
    NumberCompared(args, n - 1, Chapter, Greater, row, row.chapter, f.minChapter);
    NumberCompared(args, n - 1, Chapter, Equal, row, row.chapter, f.minChapter);
    NumberCompared(args, n, Floor, AtLeast, row, row.floor, f.minFloor);
    BothIs(Compare(Chapter, Equal, n - 1), Compare(Floor, AtLeast, n), args, row, row.chapter == f.minChapter, row.floor >= f.minFloor);
  }

  lemma BothIs(left: Condition, right: Condition, args: seq<Value>, row: Row, a: bool, b: bool)
    requires Eval(left, args, row) == Ok(Of(a)) && Eval(right, args, row) == Ok(Of(b))
    ensures Eval(Both(left, right), args, row) == Ok(Of(a && b))
  {
  }

  function Bound(n: int): Option<Value> { if n > 0 then Some(Number(n)) else None }

  function Moment(t: Option<int>): Option<Value> { if t.Some? then Some(Time(t.value)) else None }

  datatype Where = Where(clauses: seq<Condition>, args: seq<Value>)

  /** compensationWhere: a rejected filter is refused; an accepted one gives clauses that
      select exactly the rows satisfying it. */
  method CompensationWhere(f: Filter) returns (r: Result<Where>)
    ensures r.Ok? <==> Accepted(f)
    ensures r.Ok? ==> |r.value.clauses| > 0 && WellNumbered(r.value.clauses, r.value.args)
    ensures r.Ok? ==> forall row :: Eval(Joined(r.value.clauses), r.value.args, row).Ok?
    ensures r.Ok? ==> forall row :: Selects(r.value.clauses, r.value.args, row) <==> Satisfies(f, row)
  {
    if f.minLevel < 0 || f.maxLevel < 0 || f.minClears < 0 || f.minChapter < 0 || f.minFloor < 0 {
      return Fail("compensation filters must be non-negative");
    }
    if f.maxLevel > 0 && f.maxLevel < f.minLevel {
      return Fail("maxLevel must be >= minLevel");
    }
    var clauses, args := AddBounds(f);
    clauses, args := AddProgress(clauses, args, f);
    clauses, args := AddIf(clauses, args, Clears, AtLeast, Bound(f.minClears), f, 5);
    clauses, args := AddIf(clauses, args, License, Equal, if f.license.Some? then Some(Flag(f.license.value)) else None, f, 6);
    forall row ensures Selects(clauses, args, row) <==> Satisfies(f, row) {
      AllSeven(f, row);
    }
    r := Ok(Where(clauses, args));
  }

  /** The fixed clauses, then the level and login bounds. */
  method AddBounds(f: Filter) returns (clauses: seq<Condition>, args: seq<Value>)
    ensures Built(clauses, args, f, 4)
  {
    clauses, args := [NotDeleted, IsActive], [];
    StartIsBuilt(f);
    clauses, args := AddIf(clauses, args, Level, AtLeast, Bound(f.minLevel), f, 0);
    clauses, args := AddIf(clauses, args, Level, AtMost, Bound(f.maxLevel), f, 1);
    clauses, args := AddIf(clauses, args, LastLogin, AtLeast, Moment(f.loginFrom), f, 2);
    clauses, args := AddIf(clauses, args, LastLogin, AtMost, Moment(f.loginTo), f, 3);
  }

  lemma StartIsBuilt(f: Filter)
    ensures Built([NotDeleted, IsActive], [], f, 0)
  {
    var clauses := [NotDeleted, IsActive];
    assert clauses[..1] == [NotDeleted];
    forall row ensures Eval(Joined(clauses), [], row) == Ok(Of(!row.deleted && row.active)) {
      assert Joined(clauses) == Both(Joined([NotDeleted]), IsActive) == Both(NotDeleted, IsActive);
    }
  }
}
