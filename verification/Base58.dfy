/** The Base58 codec of addresses and signatures: a change of base on big
    integers that keeps leading zeros. */
module Base58 {
  import opened Basics

  // ---------------------------------------------------------------------
  // Numerals, most significant digit first
  // ---------------------------------------------------------------------

  predicate AllBelow(digits: seq<nat>, base: nat) { forall i :: 0 <= i < |digits| ==> digits[i] < base }

  function Value(digits: seq<nat>, base: nat): nat {
    if |digits| == 0 then 0 else Value(digits[..|digits| - 1], base) * base + digits[|digits| - 1]
  }

  /** The numeral of `n` without leading zeros; empty for zero. */
  function Digits(n: nat, base: nat): (digits: seq<nat>)
    requires base >= 2
    ensures AllBelow(digits, base)
    ensures |digits| > 0 ==> digits[0] != 0
    ensures n > 0 ==> |digits| > 0
  {
    if n == 0 then [] else Digits(n / base, base) + [n % base]
  }

  function LeadingZeros(digits: seq<nat>): (z: nat)
    ensures z <= |digits| && (z < |digits| ==> digits[z] != 0) && forall i :: 0 <= i < z ==> digits[i] == 0
  {
    if |digits| == 0 || digits[0] != 0 then 0 else 1 + LeadingZeros(digits[1..])
  }

  function Zeros(z: nat): seq<nat> { seq(z, _ => 0) }

  /** The same number in another base, with as many leading zeros as before. */
  function ChangeBase(digits: seq<nat>, from: nat, to: nat): seq<nat>
    requires to >= 2
  {
    Zeros(LeadingZeros(digits)) + Digits(Value(digits, from), to)
  }

  lemma Euclid(n: nat, base: nat)
    requires base >= 2
    ensures n / base * base + n % base == n
  {
  }

  lemma {:induction false} ValueOfDigits(n: nat, base: nat)
    requires base >= 2
    ensures Value(Digits(n, base), base) == n
  {
    if n > 0 {
      var q, r := n / base, n % base;
      Euclid(n, base);
      QuotientLess(n, q, r, base);
      ValueOfDigits(q, base);
      ValueAppend(Digits(q, base), r, base);
    }
  }

  lemma QuotientLess(n: nat, q: nat, r: nat, base: nat)
    requires base >= 2 && q * base + r == n > 0
    ensures q < n
  {
    MulMonotone(2, base, q);
  }

  lemma ValueAppend(digits: seq<nat>, d: nat, base: nat)
    ensures Value(digits + [d], base) == Value(digits, base) * base + d
  {
    assert (digits + [d])[..|digits|] == digits;
  }

  lemma {:induction false} ValueOfZeros(z: nat, digits: seq<nat>, base: nat)
    ensures Value(Zeros(z) + digits, base) == Value(digits, base)
  {
    if |digits| == 0 {
      assert Zeros(z) + digits == Zeros(z);
      if z > 0 {
        assert Zeros(z)[..z - 1] == Zeros(z - 1) + [];
        ValueOfZeros(z - 1, [], base);
      }
    } else {
      var n := |digits| - 1;
      assert (Zeros(z) + digits)[..z + n] == Zeros(z) + digits[..n];
      ValueOfZeros(z, digits[..n], base);
    }
  }

  lemma DivMod(q: nat, r: nat, base: nat)
    requires base >= 2 && r < base
    ensures (q * base + r) / base == q && (q * base + r) % base == r
  {
    var d, m := (q * base + r) / base, (q * base + r) % base;
    Euclid(q * base + r, base);
    Unique(d, m, q, r, base);
  }

  lemma Unique(d: nat, m: nat, q: nat, r: nat, base: nat)
    requires d * base + m == q * base + r && m < base && r < base
    ensures d == q && m == r
  {
    if d < q { MulMonotone(d + 1, q, base); }
    if q < d { MulMonotone(q + 1, d, base); }
  }

  lemma DigitsAppend(q: nat, d: nat, base: nat)
    requires base >= 2 && d < base && (q > 0 || d > 0)
    ensures Digits(q * base + d, base) == Digits(q, base) + [d]
  {
    MulMonotone(if q > 0 then 1 else 0, q, base);
    DivMod(q, d, base);
  }

  /** A numeral that does not start with zero is the numeral of its value. */
  lemma {:induction false} DigitsOfValue(digits: seq<nat>, base: nat)
    requires base >= 2 && AllBelow(digits, base) && (|digits| > 0 ==> digits[0] != 0)
    ensures Digits(Value(digits, base), base) == digits
  {
    if |digits| > 0 {
      var n := |digits| - 1;
      DigitsOfValue(digits[..n], base);
      DigitsAppend(Value(digits[..n], base), digits[n], base);
      assert digits == digits[..n] + [digits[n]];
    }
  }

  lemma {:induction false} LeadingZerosIs(digits: seq<nat>, z: nat)
    requires z <= |digits| && (z < |digits| ==> digits[z] != 0) && forall i :: 0 <= i < z ==> digits[i] == 0
    ensures LeadingZeros(digits) == z
  {
    if z > 0 { LeadingZerosIs(digits[1..], z - 1); }
  }

  lemma {:induction false} ZerosInFront(z: nat, digits: seq<nat>)
    requires |digits| > 0 ==> digits[0] != 0
    ensures LeadingZeros(Zeros(z) + digits) == z
  {
    if z == 0 {
      assert Zeros(0) + digits == digits;
    } else {
      assert (Zeros(z) + digits)[1..] == Zeros(z - 1) + digits;
      ZerosInFront(z - 1, digits);
    }
  }

  /** Changing the base and back gives the same digits, leading zeros included. */
  lemma ChangeBaseBack(digits: seq<nat>, from: nat, to: nat)
    requires from >= 2 && to >= 2 && AllBelow(digits, from)
    ensures ChangeBase(ChangeBase(digits, from, to), to, from) == digits
  {
    var z := LeadingZeros(digits);
    var rest := digits[z..];
    assert digits == Zeros(z) + rest;
    ValueOfZeros(z, rest, from);
    var v := Value(rest, from);
    ZerosInFront(z, Digits(v, to));
    ValueOfZeros(z, Digits(v, to), to);
    ValueOfDigits(v, to);
    DigitsOfValue(rest, from);
  }

  // ---------------------------------------------------------------------
  // Characters
  // ---------------------------------------------------------------------

  function IndexIn(alphabet: string, c: char): (r: Option<nat>)
    ensures r.Some? ==> r.value < |alphabet| && alphabet[r.value] == c
    ensures r.None? ==> c !in alphabet
  {
    if |alphabet| == 0 then None
    else if alphabet[0] == c then Some(0)
    else
      var r := IndexIn(alphabet[1..], c);
      if r.None? then None else Some(r.value + 1)
  }

  /** 58 different characters, none of them white space. */
  predicate IsAlphabet(alphabet: string) {
    && |alphabet| == 58
    && (forall i, j :: 0 <= i < j < 58 ==> alphabet[i] != alphabet[j])
    && (forall i :: 0 <= i < 58 ==> !IsSpace(alphabet[i]))
  }

  predicate Over(alphabet: string, text: string) { forall i :: 0 <= i < |text| ==> text[i] in alphabet }

  function DigitOf(alphabet: string, c: char): nat
    requires c in alphabet
  {
    IndexIn(alphabet, c).value
  }

  function DigitsIn(alphabet: string, text: string): (digits: seq<nat>)
    requires IsAlphabet(alphabet) && Over(alphabet, text)
    ensures |digits| == |text| && AllBelow(digits, 58)
  {
    seq(|text|, i requires 0 <= i < |text| => DigitOf(alphabet, text[i]))
  }

  function TextOf(alphabet: string, digits: seq<nat>): (text: string)
    requires |alphabet| == 58 && AllBelow(digits, 58)
    ensures |text| == |digits|
  {
    seq(|digits|, i requires 0 <= i < |digits| => alphabet[digits[i]])
  }

  lemma TextBack(alphabet: string, digits: seq<nat>)
    requires IsAlphabet(alphabet) && AllBelow(digits, 58)
    ensures Over(alphabet, TextOf(alphabet, digits)) && DigitsIn(alphabet, TextOf(alphabet, digits)) == digits
  {
  }

  lemma TrimKeeps(alphabet: string, text: string)
    requires IsAlphabet(alphabet) && Over(alphabet, text)
    ensures Trim(text) == text
  {
  }

  // ---------------------------------------------------------------------
  // The codec
  // ---------------------------------------------------------------------

  predicate IsBytes(data: seq<nat>) { AllBelow(data, 256) }

  function Encode(alphabet: string, data: seq<nat>): string
    requires IsAlphabet(alphabet)
  {
    TextOf(alphabet, ChangeBase(data, 256, 58))
  }

  function Decode(alphabet: string, value: string): Result<seq<nat>>
    requires IsAlphabet(alphabet)
  {
    var text := Trim(value);
    if text == "" then Fail("base58 value is required")
    else if !Over(alphabet, text) then Fail("base58 value contains invalid character")
    else Ok(ChangeBase(DigitsIn(alphabet, text), 58, 256))
  }

  /** Decoding the encoding of any non-empty byte string gives it back. */
  lemma DecodeEncode(alphabet: string, data: seq<nat>)
    requires IsAlphabet(alphabet) && IsBytes(data) && |data| > 0
    ensures Decode(alphabet, Encode(alphabet, data)) == Ok(data)
  {
    var digits := ChangeBase(data, 256, 58);
    TextBack(alphabet, digits);
    TrimKeeps(alphabet, TextOf(alphabet, digits));
    ChangeBaseBack(data, 256, 58);
    assert |digits| > 0 by { assert ChangeBase([], 58, 256) == []; }
  }

  /** Encoding what any accepted string decodes to gives that string, without the
      white space around it. */
  lemma EncodeDecode(alphabet: string, value: string)
    requires IsAlphabet(alphabet) && Decode(alphabet, value).Ok?
    ensures IsBytes(Decode(alphabet, value).value) && Encode(alphabet, Decode(alphabet, value).value) == Trim(value)
  {
    var text := Trim(value);
    ChangeBaseBack(DigitsIn(alphabet, text), 58, 256);
    assert TextOf(alphabet, DigitsIn(alphabet, text)) == text;
  }

  // ---------------------------------------------------------------------
  // The loops
  // ---------------------------------------------------------------------

  function Reversed(s: string): string { seq(|s|, i requires 0 <= i < |s| => s[|s| - 1 - i]) }

  method ReverseInPlace(encoded: array<char>)
    modifies encoded
    ensures encoded[..] == Reversed(old(encoded[..]))
  {
    var i, j := 0, encoded.Length - 1;
    while i < j
      invariant 0 <= i <= encoded.Length && j == encoded.Length - 1 - i
      invariant forall k :: 0 <= k < encoded.Length && (k < i || k > j) ==> encoded[k] == old(encoded[encoded.Length - 1 - k])
      invariant forall k :: i <= k <= j ==> encoded[k] == old(encoded[k])
    {
      encoded[i], encoded[j] := encoded[j], encoded[i];
      i, j := i + 1, j - 1;
    }
  }

  method DecodeWith(alphabet: string, value: string) returns (r: Result<seq<nat>>)
    requires IsAlphabet(alphabet)
    ensures r == Decode(alphabet, value)
  {
    var text := Trim(value);
    if text == "" {
      return Fail("base58 value is required");
    }
    var result := ParseNumber(alphabet, text);
    if result.None? {
      return Fail("base58 value contains invalid character");
    }
    var decoded := PrependZeros(alphabet, text, Digits(result.value, 256));
    r := Ok(decoded);
  }

  method ParseNumber(alphabet: string, text: string) returns (r: Option<nat>)
    requires IsAlphabet(alphabet)
    ensures r.Some? <==> Over(alphabet, text)
    ensures r.Some? ==> r.value == Value(DigitsIn(alphabet, text), 58)
  {
    var result: nat := 0;
    for i := 0 to |text|
      invariant Over(alphabet, text[..i]) && result == Value(DigitsIn(alphabet, text[..i]), 58)
    {
      var index := IndexIn(alphabet, text[i]);
      if index.None? {
        return None;
      }
      DigitsMore(alphabet, text, i, index.value);
      result := result * 58 + index.value;
    }
    assert text[..|text|] == text;
    r := Some(result);
  }

  /** One leading '1', one more zero byte in front. */
  method PrependZeros(alphabet: string, text: string, bytes: seq<nat>) returns (decoded: seq<nat>)
    requires IsAlphabet(alphabet) && Over(alphabet, text)
    ensures decoded == Zeros(LeadingZeros(DigitsIn(alphabet, text))) + bytes
  {
    decoded := bytes;
    var i := 0;
    while i < |text| && text[i] == alphabet[0]
      invariant 0 <= i <= |text|
      invariant forall k :: 0 <= k < i ==> text[k] == alphabet[0]
      invariant decoded == Zeros(i) + bytes
    {
      assert [0] + Zeros(i) == Zeros(i + 1);
      decoded := [0] + decoded;
      i := i + 1;
    }
    OnesAreZeros(alphabet, text, i);
  }

  lemma DigitsMore(alphabet: string, text: string, i: nat, d: nat)
    requires IsAlphabet(alphabet) && i < |text| && Over(alphabet, text[..i]) && IndexIn(alphabet, text[i]) == Some(d)
    ensures Over(alphabet, text[..i + 1])
    ensures Value(DigitsIn(alphabet, text[..i + 1]), 58) == Value(DigitsIn(alphabet, text[..i]), 58) * 58 + d
  {
    assert text[..i + 1] == text[..i] + [text[i]];
    assert DigitsIn(alphabet, text[..i + 1]) == DigitsIn(alphabet, text[..i]) + [d];
    ValueAppend(DigitsIn(alphabet, text[..i]), d, 58);
  }

  lemma OnesAreZeros(alphabet: string, text: string, i: nat)
    requires IsAlphabet(alphabet) && Over(alphabet, text) && i <= |text|
    requires (forall k :: 0 <= k < i ==> text[k] == alphabet[0]) && (i < |text| ==> text[i] != alphabet[0])
    ensures LeadingZeros(DigitsIn(alphabet, text)) == i
  {
    LeadingZerosIs(DigitsIn(alphabet, text), i);
  }

  method EncodeWith(alphabet: string, data: seq<nat>) returns (text: string)
    requires IsAlphabet(alphabet) && IsBytes(data)
    ensures text == Encode(alphabet, data)
  {
    if |data| == 0 {
      return "";
    }
    var numeral := ReversedNumeral(alphabet, Value(data, 256));
    var encoded := AppendOnes(alphabet, data, numeral);
    TextConcat(alphabet, Zeros(LeadingZeros(data)), Digits(Value(data, 256), 58));
    text := ReverseBuffer(encoded);
  }

  lemma TextConcat(alphabet: string, left: seq<nat>, right: seq<nat>)
    requires |alphabet| == 58 && AllBelow(left, 58) && AllBelow(right, 58)
    ensures TextOf(alphabet, left + right) == TextOf(alphabet, left) + TextOf(alphabet, right)
  {
  }

  method ReverseBuffer(encoded: string) returns (text: string)
    ensures text == Reversed(encoded)
  {
    var buffer := new char[|encoded|](k requires 0 <= k < |encoded| => encoded[k]);
    assert buffer[..] == encoded;
    ReverseInPlace(buffer);
    text := buffer[..];
  }

  /** One leading zero byte, one more '1' at the end of the reversed text. */
  method AppendOnes(alphabet: string, data: seq<nat>, numeral: string) returns (encoded: string)
    requires IsAlphabet(alphabet)
    ensures Reversed(encoded) == TextOf(alphabet, Zeros(LeadingZeros(data))) + Reversed(numeral)
  {
    encoded := numeral;
    var i := 0;
    while i < |data| && data[i] == 0
      invariant 0 <= i <= |data|
      invariant forall k :: 0 <= k < i ==> data[k] == 0
      invariant Reversed(encoded) == TextOf(alphabet, Zeros(i)) + Reversed(numeral)
    {
      assert Reversed(encoded + [alphabet[0]]) == [alphabet[0]] + Reversed(encoded);
      assert TextOf(alphabet, Zeros(i + 1)) == [alphabet[0]] + TextOf(alphabet, Zeros(i));
      encoded := encoded + [alphabet[0]];
      i := i + 1;
    }
    LeadingZerosIs(data, i);
  }

  /** Repeated division gives the digits from the last to the first. */
  method ReversedNumeral(alphabet: string, n: nat) returns (encoded: string)
    requires IsAlphabet(alphabet)
    ensures Reversed(encoded) == TextOf(alphabet, Digits(n, 58))
  {
    var value := n;
    encoded := "";
    assert Reversed("") == "";
    while value > 0
      invariant TextOf(alphabet, Digits(n, 58)) == TextOf(alphabet, Digits(value, 58)) + Reversed(encoded)
    {
      var c := alphabet[value % 58];
      assert Reversed(encoded + [c]) == [c] + Reversed(encoded);
      assert TextOf(alphabet, Digits(value, 58)) == TextOf(alphabet, Digits(value / 58, 58)) + [c];
      value := value / 58;
      encoded := encoded + [c];
    }
  }

  // ---------------------------------------------------------------------
  // The alphabet in use
  // ---------------------------------------------------------------------

  /** The characters from `first` to `last`. */
  function Range(first: char, last: char): (text: string)
    requires first <= last <= 'z'
    ensures |text| == last as int - first as int + 1
  {
    seq(last as int - first as int + 1, i requires 0 <= i <= last as int - first as int => (first as int + i) as char)
  }

  const Numerals: string := Range('1', '9')
  const Capitals: string := Range('A', 'H') + Range('J', 'N') + Range('P', 'Z')
  const SmallLetters: string := Range('a', 'k') + Range('m', 'z')
  const SolanaAlphabet: string := Numerals + Capitals + SmallLetters

  predicate Rising(text: string) { forall i, j :: 0 <= i < j < |text| ==> text[i] < text[j] }

  /** The numerals, capitals and small letters, without those that look alike: 0, O, I and l. */
  predicate InAlphabet(c: char) {
    || '1' <= c <= '9'
    || ('A' <= c <= 'Z' && c != 'I' && c != 'O')
    || ('a' <= c <= 'z' && c != 'l')
  }

  lemma RangeHas(first: char, last: char)
    requires first <= last <= 'z'
    ensures Rising(Range(first, last)) && forall c :: c in Range(first, last) <==> first <= c <= last
  {
    forall c: char | first <= c <= last ensures c in Range(first, last) {
      assert Range(first, last)[c as int - first as int] == c;
    }
  }

  lemma RisingJoin(left: string, right: string)
    requires Rising(left) && Rising(right) && |left| > 0 && |right| > 0 && left[|left| - 1] < right[0]
    ensures Rising(left + right) && forall c :: c in left + right <==> c in left || c in right
  {
  }

  lemma CapitalsAre()
    ensures |Capitals| == 24 && Rising(Capitals) && Capitals[0] == 'A' && Capitals[23] == 'Z'
    ensures forall c :: c in Capitals <==> 'A' <= c <= 'Z' && c != 'I' && c != 'O'
  {
    RangeHas('A', 'H');
    RangeHas('J', 'N');
    RangeHas('P', 'Z');
    RisingJoin(Range('A', 'H'), Range('J', 'N'));
    RisingJoin(Range('A', 'H') + Range('J', 'N'), Range('P', 'Z'));
  }

  lemma SmallLettersAre()
    ensures |SmallLetters| == 25 && Rising(SmallLetters) && SmallLetters[0] == 'a' && SmallLetters[24] == 'z'
    ensures forall c :: c in SmallLetters <==> 'a' <= c <= 'z' && c != 'l'
  {
    RangeHas('a', 'k');
    RangeHas('m', 'z');
    RisingJoin(Range('a', 'k'), Range('m', 'z'));
  }

  lemma RisingIsAlphabet(text: string)
    requires Rising(text) && |text| == 58 && text[0] == '1' && text[57] == 'z'
    ensures IsAlphabet(text)
  {
  }

  /** The alphabet is the rising row of all these characters, and no others; so it is one, and starts with '1'. */
  lemma AlphabetIsOne()
    ensures IsAlphabet(SolanaAlphabet) && SolanaAlphabet[0] == '1'
    ensures Rising(SolanaAlphabet) && forall c :: c in SolanaAlphabet <==> InAlphabet(c)
  {
    RangeHas('1', '9');
    CapitalsAre();
    SmallLettersAre();
    RisingJoin(Numerals, Capitals);
    RisingJoin(Numerals + Capitals, SmallLetters);
    RisingIsAlphabet(SolanaAlphabet);
  }

  method DecodeBase58(value: string) returns (r: Result<seq<nat>>)
    ensures IsAlphabet(SolanaAlphabet) && r == Decode(SolanaAlphabet, value)
  {
    AlphabetIsOne();
    r := DecodeWith(SolanaAlphabet, value);
  }

  method EncodeBase58(data: seq<nat>) returns (text: string)
    requires IsBytes(data)
    ensures IsAlphabet(SolanaAlphabet) && text == Encode(SolanaAlphabet, data)
  {
    AlphabetIsOne();
    text := EncodeWith(SolanaAlphabet, data);
  }

  /** Both round trips for the alphabet in use, on all inputs. */
  lemma RoundTrips(data: seq<nat>, text: string)
    requires IsBytes(data) && |data| > 0 && text != "" && Over(SolanaAlphabet, text)
    ensures IsAlphabet(SolanaAlphabet)
    ensures Decode(SolanaAlphabet, Encode(SolanaAlphabet, data)) == Ok(data)
    ensures Decode(SolanaAlphabet, text).Ok? && Encode(SolanaAlphabet, Decode(SolanaAlphabet, text).value) == text
  {
    AlphabetIsOne();
    DecodeEncode(SolanaAlphabet, data);
    TrimKeeps(SolanaAlphabet, text);
    EncodeDecode(SolanaAlphabet, text);
  }
}
