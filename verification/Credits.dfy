/** Token amounts on chain and in the game, inbound credits of a transaction,
    who paid them, and whether they settle a payment. */
module Credits {
  import opened Basics

  const U64: nat := 0x1_0000_0000_0000_0000
  const I64: nat := 0x8000_0000_0000_0000

  type uint64 = x: int | 0 <= x < 0x1_0000_0000_0000_0000

  // ---------------------------------------------------------------------
  // Amounts
  // ---------------------------------------------------------------------

  function Pow10(n: nat): nat { if n == 0 then 1 else 10 * Pow10(n - 1) }

  /** The Go conversion int64(u) of an unsigned 64-bit value. */
  function AsInt64(u: uint64): int {
    if u < I64 then u else u - U64
  }

  function GameToRaw(amount: int, decimals: int): Result<uint64> {
    if amount <= 0 then Fail("amount must be positive")
    else if decimals < 0 || decimals > 18 then Fail("decimals out of range")
    else if amount * Pow10(decimals) >= U64 then Fail("amount overflows uint64 raw units")
    else Ok(amount * Pow10(decimals))
  }

  /** The divisor after `decimals` multiplications that wrap at 64 bits. */
  function Divisor(decimals: nat): uint64 {
    if decimals == 0 then 1 else Divisor(decimals - 1) * 10 % U64
  }

  function RawToGame(raw: uint64, decimals: int): Result<int> {
    if decimals <= 0 then Ok(AsInt64(raw))
    else if Divisor(decimals) == 0 then Fail("integer divide by zero")
    else Ok(AsInt64(Quotient(raw, Divisor(decimals))))
  }

  function Quotient(raw: uint64, d: nat): (q: uint64)
    requires d > 0
    ensures q * d <= raw < (q + 1) * d
  {
    var q := raw / d;
    DivisionBounds(raw, d, q);
    q
  }

  lemma DivisionBounds(n: nat, d: nat, q: nat)
    requires d > 0 && q == n / d
    ensures q * d <= n < (q + 1) * d && q <= n
  {
    QuotientBounds(n, d, q, n % d);
  }

  lemma QuotientBounds(n: nat, d: nat, q: nat, r: nat)
    requires n == d * q + r && r < d
    ensures q * d <= n < (q + 1) * d && q <= n
  {
    MulMonotone(1, d, q);
  }

  /** The loop of RawToGameAmount, with its wrapping divisor. */
  method RawToGameAmount(raw: uint64, decimals: int) returns (r: Result<int>)
    ensures r == RawToGame(raw, decimals)
  {
    if decimals <= 0 {
      return Ok(AsInt64(raw));
    }
    var div := 1;
    for i := 0 to decimals
      invariant div == Divisor(i)
    {
      div := div * 10 % U64;
    }
    if div == 0 {
      return Fail("integer divide by zero");
    }
    r := Ok(AsInt64(Quotient(raw, div)));
  }

  lemma {:induction false} Pow10Grows(m: nat, n: nat)
    requires m <= n
    ensures 1 <= Pow10(m) <= Pow10(n)
    decreases n
  {
    if m < n {
      Pow10Grows(m, n - 1);
    } else if n > 0 {
      Pow10Grows(n - 1, n - 1);
    }
  }

  lemma Pow10At18()
    ensures Pow10(18) == 1_000_000_000_000_000_000
  {
    assert Pow10(6) == 1_000_000;
    assert Pow10(12) == 1_000_000_000_000;
  }

  lemma {:induction false} DivisorIsPower(decimals: nat)
    requires decimals <= 18
    ensures Divisor(decimals) == Pow10(decimals)
  {
    if decimals > 0 {
      DivisorIsPower(decimals - 1);
      Pow10Small(decimals);
      NoWrap(Divisor(decimals - 1) * 10);
    }
  }

  lemma NoWrap(n: nat)
    requires n < U64
    ensures n % U64 == n
  {
  }

  lemma Pow10Small(n: nat)
    requires n <= 18
    ensures Pow10(n) < U64
  {
    Pow10Grows(n, 18);
    Pow10At18();
  }

  lemma QuotientOf(a: nat, d: nat, q: nat)
    requires d > 0 && q * d <= a * d < (q + 1) * d
    ensures q == a
  {
  }

  /** Converting to raw units and back gives the amount. */
  lemma AmountRoundTrip(amount: int, decimals: int)
    requires amount < I64 && GameToRaw(amount, decimals).Ok?
    ensures RawToGame(GameToRaw(amount, decimals).value, decimals) == Ok(amount)
  {
    if decimals > 0 {
      DivisorIsPower(decimals);
      Pow10Grows(0, decimals);
      QuotientOf(amount, Pow10(decimals), Quotient(amount * Pow10(decimals), Pow10(decimals)));
    }
  }

  // ---------------------------------------------------------------------
  // Transactions and payers
  // ---------------------------------------------------------------------

  datatype TokenBalance = TokenBalance(owner: string, mint: string, amount: uint64)

  datatype Transaction = Transaction(pre: seq<TokenBalance>, post: seq<TokenBalance>)

  /** An inbound credit; `payer` is "" when nobody could be named. */
  datatype Credit = Credit(payer: string, receiver: string, raw: uint64)

  predicate OfMint(row: TokenBalance, mint: string) { mint == "" || row.mint == mint }

  /** The amount the last matching row gives an owner; 0 without a row. */
  function Held(rows: seq<TokenBalance>, mint: string, owner: string): uint64 {
    if |rows| == 0 then 0
    else
      var row := rows[|rows| - 1];
      if OfMint(row, mint) && row.owner == owner then row.amount
      else Held(rows[..|rows| - 1], mint, owner)
  }

  ghost predicate OneRowEach(rows: seq<TokenBalance>, mint: string) {
    forall i, j :: 0 <= i < j < |rows| && OfMint(rows[i], mint) && OfMint(rows[j], mint) ==> rows[i].owner != rows[j].owner
  }

  /** Somebody else whose holding of the mint fell. */
  ghost predicate Lost(tx: Transaction, mint: string, exclude: string, owner: string) {
    owner != exclude && Held(tx.pre, mint, owner) > Held(tx.post, mint, owner)
  }

  lemma {:induction false} HeldAtRow(rows: seq<TokenBalance>, mint: string, i: nat)
    requires OneRowEach(rows, mint) && i < |rows| && OfMint(rows[i], mint)
    ensures Held(rows, mint, rows[i].owner) == rows[i].amount
  {
    var n := |rows| - 1;
    if i < n {
      HeldAtRow(rows[..n], mint, i);
    }
  }

  lemma {:induction false} HeldWithoutRow(rows: seq<TokenBalance>, mint: string, owner: string)
    requires !HasRow(rows, mint, owner)
    ensures Held(rows, mint, owner) == 0
  {
    if |rows| > 0 {
      HeldWithoutRow(rows[..|rows| - 1], mint, owner);
    }
  }

  predicate HasRow(rows: seq<TokenBalance>, mint: string, owner: string) {
    exists k :: 0 <= k < |rows| && OfMint(rows[k], mint) && rows[k].owner == owner
  }

  function Lookup(m: map<string, uint64>, key: string): uint64 { if key in m then m[key] else 0 }

  /** findDecreasedOwner. The second pass walks a Go map, whose order is arbitrary:
      each turn takes any owner that is left. */
  method FindDecreasedOwner(tx: Transaction, mint: string, exclude: string, delta: nat) returns (owner: string)
    requires delta > 0
    ensures OneRowEach(tx.post, mint) ==>
      || Lost(tx, mint, exclude, owner)
      || (owner == "" && forall o :: !Lost(tx, mint, exclude, o))
  {
    var pre: map<string, uint64> := map[];
    for i := 0 to |tx.pre|
      invariant forall o :: Lookup(pre, o) == Held(tx.pre[..i], mint, o)
    {
      assert tx.pre[..i + 1][..i] == tx.pre[..i];
      if OfMint(tx.pre[i], mint) {
        pre := pre[tx.pre[i].owner := tx.pre[i].amount];
      }
    }
    assert tx.pre[..|tx.pre|] == tx.pre;
    for i := 0 to |tx.post| {
      var row := tx.post[i];
      if OfMint(row, mint) && row.owner != exclude {
        var before := Lookup(pre, row.owner);
        if before >= row.amount && before - row.amount == delta {
          if OneRowEach(tx.post, mint) { HeldAtRow(tx.post, mint, i); }
          return row.owner;
        }
      }
    }
    var left := pre.Keys;
    while left != {}
      invariant left <= pre.Keys
      invariant OneRowEach(tx.post, mint) ==>
        forall o :: o in pre.Keys && o !in left ==> !Lost(tx, mint, exclude, o)
      decreases left
    {
      var o :| o in left;
      left := left - {o};
      if o != exclude {
        var lost := LostIt(tx, mint, o, pre[o]);
        if lost {
          return o;
        }
      }
    }
    return "";
  }

  /** The inner loop: did `owner`, who held `before`, end with less? */
  method LostIt(tx: Transaction, mint: string, owner: string, before: uint64) returns (lost: bool)
    ensures OneRowEach(tx.post, mint) ==> (lost <==> before > Held(tx.post, mint, owner))
  {
    var found := false;
    for i := 0 to |tx.post|
      invariant !found ==> forall k :: 0 <= k < i && OfMint(tx.post[k], mint) ==> tx.post[k].owner != owner
      invariant OneRowEach(tx.post, mint) && found ==> before <= Held(tx.post, mint, owner)
    {
      var row := tx.post[i];
      if row.owner == owner && OfMint(row, mint) {
        found := true;
        if OneRowEach(tx.post, mint) { HeldAtRow(tx.post, mint, i); }
        if before > row.amount {
          return true;
        }
      }
    }
    if !found { HeldWithoutRow(tx.post, mint, owner); }
    lost := !found && before > 0;
  }

  function Key(owner: string, mint: string): string { owner + "|" + mint }

  lemma KeyNamesOwner(a: string, b: string, mint: string)
    ensures Key(a, mint) == Key(b, mint) ==> a == b
  {
    if Key(a, mint) == Key(b, mint) {
      assert |a| == |b|;
      assert a == Key(a, mint)[..|a|] && b == Key(b, mint)[..|b|];
    }
  }

  /** What a credit of the deposit owner means: it is the owner's whole gain, and a
      named payer is another owner who lost tokens; none is named only if nobody did. */
  ghost predicate CreditRight(tx: Transaction, mint: string, receiver: string, c: Credit) {
    && c.receiver == receiver
    && c.raw == Held(tx.post, mint, receiver) - Held(tx.pre, mint, receiver) > 0
    && (Lost(tx, mint, receiver, c.payer) || (c.payer == "" && forall o :: !Lost(tx, mint, receiver, o)))
  }

  /** The balances before, by owner and mint. */
  method BalancesByKey(rows: seq<TokenBalance>, mint: string) returns (m: map<string, uint64>)
    ensures mint != "" ==> forall o :: Lookup(m, Key(o, mint)) == Held(rows, mint, o)
  {
    m := map[];
    for i := 0 to |rows|
      invariant mint != "" ==> forall o :: Lookup(m, Key(o, mint)) == Held(rows[..i], mint, o)
    {
      assert rows[..i + 1][..i] == rows[..i];
      var row := rows[i];
      if OfMint(row, mint) {
        forall o ensures Key(o, mint) == Key(row.owner, mint) ==> o == row.owner { KeyNamesOwner(o, row.owner, mint); }
        m := m[Key(row.owner, row.mint) := row.amount];
      }
    }
    assert rows[..|rows|] == rows;
  }

  /** The credits that may be reported for a mint and a deposit owner: one for the owner's gain. */
  ghost predicate CreditsRight(tx: Transaction, mint: string, owner: string, credits: seq<Credit>) {
    && |credits| == Indicator(Held(tx.post, mint, owner) > Held(tx.pre, mint, owner))
    && (forall i :: 0 <= i < |credits| ==> CreditRight(tx, mint, owner, credits[i]))
  }

  /** InboundTokenCredits for one mint and one deposit owner. */
  method InboundTokenCredits(tx: Transaction, depositOwner: string, mintText: string) returns (credits: seq<Credit>)
    ensures forall i :: 0 <= i < |credits| ==> credits[i].raw > 0
    ensures
      var owner, mint := Trim(depositOwner), Trim(mintText);
      owner != "" && mint != "" && OneRowEach(tx.post, mint) ==> CreditsRight(tx, mint, owner, credits)
  {
    var owner, mint := Trim(depositOwner), Trim(mintText);
    var pre := BalancesByKey(tx.pre, mint);
    credits := [];
    ghost var named := owner != "" && mint != "" && OneRowEach(tx.post, mint);
    for i := 0 to |tx.post|
      invariant forall k :: 0 <= k < |credits| ==> credits[k].raw > 0
      invariant named ==> forall k :: 0 <= k < |credits| ==> CreditRight(tx, mint, owner, credits[k])
      invariant named ==>
        |credits| == Indicator(HasRow(tx.post[..i], mint, owner) && Held(tx.post, mint, owner) > Held(tx.pre, mint, owner))
    {
      var row := tx.post[i];
      if OfMint(row, mint) && (owner == "" || row.owner == owner) {
        if named { HeldAtRow(tx.post, mint, i); }
        var before := Lookup(pre, Key(row.owner, row.mint));
        if row.amount > before {
          var payer := FindDecreasedOwner(tx, mint, row.owner, row.amount - before);
          credits := credits + [Credit(payer, row.owner, row.amount - before)];
        }
      }
    }
    assert tx.post[..|tx.post|] == tx.post;
    if !HasRow(tx.post, mint, owner) {
      HeldWithoutRow(tx.post, mint, owner);
    }
  }

  /** A token account without a named owner that lost tokens hides the payer: on this
      transaction every credit list that may be reported names nobody, although the owner
      without a name did lose tokens. */
  lemma EmptyOwnerHidesThePayer(tx: Transaction)
    requires tx == Transaction([TokenBalance("", "M", 5)], [TokenBalance("", "M", 0), TokenBalance("D", "M", 5)])
    ensures OneRowEach(tx.post, "M") && Lost(tx, "M", "D", "")
    ensures forall credits: seq<Credit> :: CreditsRight(tx, "M", "D", credits) ==> |credits| == 1 && credits[0].payer == ""
  {
    var pre, post := tx.pre, tx.post;
    forall o ensures Held(pre, "M", o) == if o == "" then 5 else 0 {
      assert Held(pre[..0], "M", o) == 0;
    }
    forall o ensures Held(post, "M", o) == if o == "D" then 5 else 0 {
      assert Held(post[..1][..0], "M", o) == 0;
      assert Held(post[..1], "M", o) == 0;
    }
  }

  /** Exactly when the empty name means that nobody lost tokens: the empty name is
      not itself the name of a loser. */
  lemma EmptyPayerMeansNobody(tx: Transaction, mint: string, receiver: string, c: Credit)
    requires CreditRight(tx, mint, receiver, c) && c.payer == ""
    ensures (forall o :: !Lost(tx, mint, receiver, o)) <==> !Lost(tx, mint, receiver, "")
  {
  }

  // ---------------------------------------------------------------------
  // Verifying a payment
  // ---------------------------------------------------------------------

  predicate PayerAcceptable(c: Credit, expected: string) { expected == "" || c.payer == "" || c.payer == expected }

  /** VerifyInboundPayment after the credits of the transaction have been collected. */
  function VerifyPayment(credits: seq<Credit>, expectedPayer: string, minAmount: int, decimals: int): Result<()> {
    if |credits| == 0 then Fail("transaction has no inbound token transfer to deposit wallet")
    else
      var need :- GameToRaw(minAmount, decimals);
      if exists i :: 0 <= i < |credits| && credits[i].raw >= need && PayerAcceptable(credits[i], Trim(expectedPayer))
      then Ok(())
      else Fail("payment amount/payer mismatch")
  }

  method VerifyInboundPayment(credits: seq<Credit>, expectedPayer: string, minAmount: int, decimals: int)
    returns (r: Result<()>)
    ensures r == VerifyPayment(credits, expectedPayer, minAmount, decimals)
  {
    if |credits| == 0 {
      return Fail("transaction has no inbound token transfer to deposit wallet");
    }
    var conversion := GameToRaw(minAmount, decimals);
    if conversion.Fail? {
      return Fail(conversion.reason);
    }
    var need, expected := conversion.value, Trim(expectedPayer);
    for i := 0 to |credits|
      invariant forall k :: 0 <= k < i ==> !(credits[k].raw >= need && PayerAcceptable(credits[k], expected))
    {
      if credits[i].raw >= need && !(expected != "" && credits[i].payer != "" && credits[i].payer != expected) {
        return Ok(());
      }
    }
    return Fail("payment amount/payer mismatch");
  }

  /** With decimals the quotient never reaches the sign bit. */
  lemma QuotientPositive(raw: uint64, decimals: nat)
    requires 1 <= decimals <= 18
    ensures Divisor(decimals) == Pow10(decimals) >= 10
    ensures Quotient(raw, Pow10(decimals)) < I64
  {
    DivisorIsPower(decimals);
    Pow10Grows(1, decimals);
    assert Pow10(1) == 10;
    var q := Quotient(raw, Pow10(decimals));
    MulMonotone(10, Pow10(decimals), q);
    assert q * Pow10(decimals) == Pow10(decimals) * q;
  }

  lemma RawCoversGame(raw: uint64, amount: nat, d: nat)
    requires d > 0
    ensures raw >= amount * d <==> Quotient(raw, d) >= amount
  {
  }

  predicate CoversAmount(c: Credit, amount: int, decimals: int) {
    RawToGame(c.raw, decimals).Ok? && RawToGame(c.raw, decimals).value >= amount
  }

  /** The reference: some credit is worth the amount in game units, and its payer is
      unknown or the expected one. */
  predicate Settles(credits: seq<Credit>, expectedPayer: string, amount: int, decimals: int) {
    exists i :: 0 <= i < |credits| && CoversAmount(credits[i], amount, decimals)
                && PayerAcceptable(credits[i], Trim(expectedPayer))
  }

  /** A credit so large that it reads as negative in game units; possible only when
      a game unit is a raw unit. */
  predicate Wraps(c: Credit, decimals: int) { decimals == 0 && c.raw >= I64 }

  lemma CoverageAgrees(c: Credit, amount: int, decimals: int)
    requires GameToRaw(amount, decimals).Ok?
    ensures c.raw >= GameToRaw(amount, decimals).value <==> CoversAmount(c, amount, decimals) || (Wraps(c, decimals) && c.raw >= amount)
  {
    if decimals > 0 {
      QuotientPositive(c.raw, decimals);
      RawCoversGame(c.raw, amount, Pow10(decimals));
    }
  }

  /** A payment that raw units can express. */
  predicate Representable(amount: int, decimals: int) {
    0 < amount && 0 <= decimals <= 18 && amount * Pow10(decimals) < 0x1_0000_0000_0000_0000
  }

  /** A payment that raw units cannot express is refused. For 1 to 18 decimals any other is accepted
      exactly when it settles the amount. For 0 decimals the two also agree unless a wrapping credit
      is what the verification accepted. */
  lemma AcceptedIffSettled(credits: seq<Credit>, expectedPayer: string, amount: int, decimals: int)
    ensures VerifyPayment(credits, expectedPayer, amount, decimals).Ok? <==>
      Representable(amount, decimals)
      && (|| Settles(credits, expectedPayer, amount, decimals)
          || exists i :: 0 <= i < |credits| && Wraps(credits[i], decimals) && credits[i].raw >= amount
                         && PayerAcceptable(credits[i], Trim(expectedPayer)))
    ensures decimals > 0 ==>
      (VerifyPayment(credits, expectedPayer, amount, decimals).Ok? <==>
       Representable(amount, decimals) && Settles(credits, expectedPayer, amount, decimals))
  {
    if Representable(amount, decimals) {
      forall i | 0 <= i < |credits|
        ensures credits[i].raw >= GameToRaw(amount, decimals).value <==>
          CoversAmount(credits[i], amount, decimals) || (Wraps(credits[i], decimals) && credits[i].raw >= amount)
      {
        CoverageAgrees(credits[i], amount, decimals);
      }
    }
  }

  /** With 0 decimals and 2^63 raw units, the payment is accepted although the credit
      reads as a negative amount. */
  lemma AcceptedThoughNegative()
    ensures exists credits: seq<Credit> ::
      && |credits| == 1
      && VerifyPayment(credits, "p", 1, 0).Ok? && RawToGame(credits[0].raw, 0) == Ok(-(I64 as int))
  {
    var credits := [Credit("p", "d", I64)];
    assert Pow10(0) == 1;
    assert Trim("p") == "p";
    assert credits[0].raw >= 1 && PayerAcceptable(credits[0], Trim("p"));
    assert VerifyPayment(credits, "p", 1, 0).Ok?;
  }
}
