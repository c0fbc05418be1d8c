/**
 * Positional numerals as JavaScript prints and reads them: `n.toString(b)`, `BigInt(digits)`,
 * `padStart(k, '0')`, and the two ways redundant zeros are trimmed. The base is 10 or 16.
 */
module Numerals {
  import opened JsValues

  datatype Base = Dec | Hex
  {
    function Size(): nat { if Dec? then 10 else 16 }

    /** n times the base, written so that it stays linear for the verifier. */
    function Times(n: int): int { if Dec? then 10 * n else 16 * n }

    function Quotient(n: nat): (q: nat)
      ensures n >= Size() ==> 0 < q < n
    {
      if Dec? then n / 10 else n / 16
    }

    function Remainder(n: nat): (r: nat)
      ensures r < Size() && n == Times(Quotient(n)) + r
    {
      if Dec? then n % 10 else n % 16
    }
  }

  function Pow(b: Base, k: nat): (p: nat)
    ensures p > 0
  {
    if k == 0 then 1 else b.Times(Pow(b, k - 1))
  }

  function DigitValue(c: char): nat {
    if '0' <= c <= '9' then c as int - '0' as int
    else if 'a' <= c <= 'f' then c as int - 'a' as int + 10
    else if 'A' <= c <= 'F' then c as int - 'A' as int + 10
    else 99
  }

  function DigitChar(d: nat): (c: char)
    requires d < 16
    ensures DigitValue(c) == d && LowerChar(c) == c
  {
    if d < 10 then ('0' as int + d) as char else ('a' as int + d - 10) as char
  }

  lemma HexDigitIff(c: char)
    ensures DigitValue(c) < 16 <==> c in "0123456789abcdefABCDEF"
  {
    var all := "0123456789abcdefABCDEF";
    if DigitValue(c) < 16 {
      var i := if '0' <= c <= '9' then DigitValue(c) else if 'a' <= c <= 'f' then DigitValue(c) else DigitValue(c) + 6;
      assert all[i] == c;
    }
  }

  predicate IsNumeral(s: string, b: Base) {
    forall i :: 0 <= i < |s| ==> DigitValue(s[i]) < b.Size()
  }

  /** A 20-byte address: `^0x[0-9a-fA-F]{40}$`. */
  predicate IsAddress(s: string) {
    |s| == 42 && s[..2] == "0x" && IsNumeral(s[2..], Hex)
  }

  function Value(s: string, b: Base): nat
    requires IsNumeral(s, b)
  {
    if s == "" then 0 else b.Times(Value(s[..|s| - 1], b)) + DigitValue(s[|s| - 1])
  }

  /** `n.toString(b)` for n >= 0. */
  function Digits(n: nat, b: Base): (s: string)
    ensures s != "" && IsNumeral(s, b)
  {
    if n < b.Size() then [DigitChar(n)] else Digits(b.Quotient(n), b) + [DigitChar(b.Remainder(n))]
  }

  function Zeros(k: nat): (z: string)
    ensures |z| == k
    ensures forall i :: 0 <= i < k ==> z[i] == '0'
  {
    seq(k, i => '0')
  }

  function PadStart(s: string, k: nat): string {
    if |s| >= k then s else Zeros(k - |s|) + s
  }

  /** `.replace(/0+$/, '')` */
  function StripTrailing(s: string): (r: string)
    ensures |r| <= |s| && r == s[..|r|]
    ensures forall i :: |r| <= i < |s| ==> s[i] == '0'
    ensures r == "" || r[|r| - 1] != '0'
  {
    if s == "" || s[|s| - 1] != '0' then s else StripTrailing(s[..|s| - 1])
  }

  /** A numeral without its redundant leading zeros; a numeral of zeros only becomes "0". */
  function StripLeading(s: string): string {
    if s == "" then "0" else if s[0] == '0' then StripLeading(s[1..]) else s
  }

  // ---------------------------------------------------------------- laws

  lemma ValueSnoc(s: string, c: char, b: Base)
    requires IsNumeral(s, b) && DigitValue(c) < b.Size()
    ensures IsNumeral(s + [c], b)
    ensures Value(s + [c], b) == b.Times(Value(s, b)) + DigitValue(c)
  {
    assert (s + [c])[..|s|] == s;
  }

  lemma ValueOne(c: char, b: Base)
    requires DigitValue(c) < b.Size()
    ensures Value([c], b) == DigitValue(c)
  {
    ValueSnoc("", c, b);
    assert "" + [c] == [c];
  }

  /** Reading what was printed gives the number back. */
  lemma {:induction false} ValueOfDigits(n: nat, b: Base)
    ensures Value(Digits(n, b), b) == n
  {
    if n < b.Size() {
      ValueOne(DigitChar(n), b);
    } else {
      ValueOfDigits(b.Quotient(n), b);
      ValueSnoc(Digits(b.Quotient(n), b), DigitChar(b.Remainder(n)), b);
    }
  }

  lemma {:induction false} PrintedDigits(n: nat, b: Base)
    ensures Lower(Digits(n, b)) == Digits(n, b)
    ensures Digits(n, b)[0] == '0' <==> n == 0
    ensures n == 0 ==> Digits(n, b) == "0"
  {
    if n >= b.Size() {
      var init := Digits(b.Quotient(n), b);
      PrintedDigits(b.Quotient(n), b);
      assert Lower(init + [DigitChar(b.Remainder(n))]) == Lower(init) + [DigitChar(b.Remainder(n))];
    }
  }

  lemma {:induction false} ValueBound(s: string, b: Base)
    requires IsNumeral(s, b)
    ensures Value(s, b) < Pow(b, |s|)
  {
    if s != "" {
      ValueBound(s[..|s| - 1], b);
    }
  }

  lemma {:induction false} ValuePadStart(s: string, k: nat, b: Base)
    requires IsNumeral(s, b)
    ensures IsNumeral(PadStart(s, k), b) && Value(PadStart(s, k), b) == Value(s, b)
  {
    if |s| < k {
      LeadingZeros(k - |s|, s, b);
    }
  }

  lemma {:induction false} LeadingZeros(k: nat, s: string, b: Base)
    requires IsNumeral(s, b)
    ensures IsNumeral(Zeros(k) + s, b) && Value(Zeros(k) + s, b) == Value(s, b)
  {
    if s != "" {
      LeadingZeros(k, s[..|s| - 1], b);
      assert Zeros(k) + s == (Zeros(k) + s[..|s| - 1]) + [s[|s| - 1]];
      ValueSnoc(Zeros(k) + s[..|s| - 1], s[|s| - 1], b);
    } else if k > 0 {
      LeadingZeros(k - 1, "", b);
      assert Zeros(k) + "" == (Zeros(k - 1) + "") + ['0'];
      ValueSnoc(Zeros(k - 1) + "", '0', b);
    }
  }

  lemma LowerSnoc(s: string, c: char)
    ensures Lower(s + [c]) == Lower(s) + [LowerChar(c)]
  {
  }

  lemma SameDigit(b: Base, v: nat, c: char, w: nat, d: char)
    requires DigitValue(c) < b.Size() && DigitValue(d) < b.Size()
    requires b.Times(v) + DigitValue(c) == b.Times(w) + DigitValue(d)
    ensures v == w && LowerChar(c) == LowerChar(d)
  {
    assert v == w;
    assert LowerChar(c) == DigitChar(DigitValue(c)) == LowerChar(d);
  }

  /** Two numerals of one length and one value spell the same digits, up to letter case. */
  lemma {:induction false} SameLengthSameValue(x: string, y: string, b: Base)
    requires IsNumeral(x, b) && IsNumeral(y, b)
    requires |x| == |y| && Value(x, b) == Value(y, b)
    ensures Lower(x) == Lower(y)
  {
    hide DigitValue, LowerChar, Lower;
    if x != "" {
      var x', c, y', d := x[..|x| - 1], x[|x| - 1], y[..|x| - 1], y[|x| - 1];
      SameDigit(b, Value(x', b), c, Value(y', b), d);
      SameLengthSameValue(x', y', b);
      LowerSnoc(x', c);
      LowerSnoc(y', d);
      assert x == x' + [c] && y == y' + [d];
    }
  }

  lemma {:induction false} DigitsLength(n: nat, b: Base, k: nat)
    requires k > 0
    ensures |Digits(n, b)| <= k <==> n < Pow(b, k)
  {
    assert Pow(b, k) == b.Times(Pow(b, k - 1));
    if k > 1 && n >= b.Size() {
      DigitsLength(b.Quotient(n), b, k - 1);
    }
  }

  lemma {:induction false} ValuePositive(s: string, b: Base)
    requires s != "" && IsNumeral(s, b) && s[0] != '0'
    ensures Value(s, b) > 0
  {
    if |s| > 1 {
      ValuePositive(s[..|s| - 1], b);
    }
  }

  lemma DigitsStep(q: nat, d: nat, b: Base)
    requires q > 0 && d < b.Size()
    ensures Digits(b.Times(q) + d, b) == Digits(q, b) + [DigitChar(d)]
  {
    var n := b.Times(q) + d;
    assert b.Quotient(n) == q && b.Remainder(n) == d;
  }

  /** A numeral whose first digit is not zero is what printing its value gives (in lower case). */
  lemma {:induction false} DigitsOfValue(s: string, b: Base)
    requires s != "" && IsNumeral(s, b) && s[0] != '0'
    ensures Digits(Value(s, b), b) == Lower(s)
  {
    var init, c := s[..|s| - 1], s[|s| - 1];
    assert s == init + [c];
    assert Lower(s) == Lower(init) + [LowerChar(c)];
    assert DigitChar(DigitValue(c)) == LowerChar(c);
    if init == "" {
      ValueOne(c, b);
    } else {
      DigitsOfValue(init, b);
      ValuePositive(init, b);
      DigitsStep(Value(init, b), DigitValue(c), b);
    }
  }

  lemma {:induction false} DigitsOfDecimal(s: string)
    requires IsNumeral(s, Dec)
    ensures Digits(Value(s, Dec), Dec) == StripLeading(s)
  {
    if s != "" {
      if s[0] != '0' {
        DigitsOfValue(s, Dec);
        assert Lower(s) == s;
      } else {
        assert s == Zeros(1) + s[1..];
        LeadingZeros(1, s[1..], Dec);
        DigitsOfDecimal(s[1..]);
      }
    }
  }

  /** Printing a numeral's value at the numeral's own width gives it back in lower case. */
  lemma FixedWidth(x: string, b: Base)
    requires x != "" && IsNumeral(x, b)
    ensures PadStart(Digits(Value(x, b), b), |x|) == Lower(x)
  {
    hide Pow, Digits, Value;
    var v := Value(x, b);
    var p := PadStart(Digits(v, b), |x|);
    ValueBound(x, b);
    DigitsLength(v, b, |x|);
    ValueOfDigits(v, b);
    ValuePadStart(Digits(v, b), |x|, b);
    SameLengthSameValue(p, x, b);
    PrintedDigits(v, b);
    assert Lower(p) == p by {
      assert forall i :: 0 <= i < |Digits(v, b)| ==> LowerChar(Digits(v, b)[i]) == Lower(Digits(v, b))[i];
    }
  }

  lemma {:induction false} ValueZeroIffZeros(s: string, b: Base)
    requires IsNumeral(s, b)
    ensures Value(s, b) == 0 <==> StripTrailing(s) == ""
  {
    if s != "" {
      ValueZeroIffZeros(s[..|s| - 1], b);
    }
  }

  lemma {:induction false} StripTrailingPadded(s: string, k: nat)
    ensures StripTrailing(s + Zeros(k)) == StripTrailing(s)
  {
    if k == 0 {
      assert s + Zeros(0) == s;
    } else {
      assert (s + Zeros(k))[..|s| + k - 1] == s + Zeros(k - 1);
      StripTrailingPadded(s, k - 1);
    }
  }
}

/** `BigInt(text)` and `bigint.toString()`. */
module BigInts {
  import opened JsValues
  import opened Numerals

  function ToText(n: int): string {
    if n < 0 then "-" + Digits(-n, Dec) else Digits(n, Dec)
  }

  /** White space and line terminators of ECMAScript. */
  predicate IsSpace(c: char) {
    || c in {' ', '\t', '\n', '\r', '\U{000B}', '\U{000C}', '\U{00A0}', '\U{1680}'}
    || c in {'\U{2028}', '\U{2029}', '\U{202F}', '\U{205F}', '\U{3000}', '\U{FEFF}'}
    || '\U{2000}' <= c <= '\U{200A}'
  }

  function TrimStart(s: string): string {
    if s != "" && IsSpace(s[0]) then TrimStart(s[1..]) else s
  }

  function TrimEnd(s: string): string {
    if s != "" && IsSpace(s[|s| - 1]) then TrimEnd(s[..|s| - 1]) else s
  }

  function Trim(s: string): string {
    TrimEnd(TrimStart(s))
  }

  /** The value of a string of binary or octal digits. */
  function PowerOfTwoValue(s: string, radix: nat): Option<int>
    requires radix == 2 || radix == 8
  {
    if s == "" then Some(0)
    else
      var init, d := PowerOfTwoValue(s[..|s| - 1], radix), DigitValue(s[|s| - 1]);
      if init.None? || d >= radix then None else Some((if radix == 2 then 2 * init.value else 8 * init.value) + d)
  }

  /** `BigInt(s)`; None where the source's call throws a SyntaxError. */
  function FromText(s: string): Option<int> {
    FromTrimmed(Trim(s))
  }

  function FromTrimmed(s: string): Option<int> {
    if s == "" then
      Some(0)
    else if |s| > 2 && s[0] == '0' && s[1] in "xX" then
      if IsNumeral(s[2..], Hex) then Some(Value(s[2..], Hex)) else None
    else if |s| > 2 && s[0] == '0' && s[1] in "oO" then
      PowerOfTwoValue(s[2..], 8)
    else if |s| > 2 && s[0] == '0' && s[1] in "bB" then
      PowerOfTwoValue(s[2..], 2)
    else if |s| > 1 && s[0] in "+-" then
      if IsNumeral(s[1..], Dec) then
        var n: int := Value(s[1..], Dec);
        Some(if s[0] == '-' then -n else n)
      else
        None
    else
      if IsNumeral(s, Dec) then Some(Value(s, Dec)) else None
  }

  lemma NumeralCharacters(d: string)
    requires IsNumeral(d, Dec)
    ensures forall i :: 0 <= i < |d| ==> d[i] !in "+-xXoObB" && !IsSpace(d[i])
  {
    forall i | 0 <= i < |d| ensures '0' <= d[i] <= '9' {
      assert DigitValue(d[i]) < 10;
    }
  }

  /** A base-10 string written by one side is read as the same integer by the other. */
  lemma RoundTrip(n: int)
    ensures FromText(ToText(n)) == Some(n)
  {
    hide IsSpace, PowerOfTwoValue;
    var m := if n < 0 then -n else n;
    var d := Digits(m, Dec);
    ValueOfDigits(m, Dec);
    NumeralCharacters(d);
    MinusIsNoSpace();
    if n < 0 {
      assert ("-" + d)[1..] == d;
    }
    assert Trim(ToText(n)) == ToText(n);
  }

  lemma MinusIsNoSpace()
    ensures !IsSpace('-')
  {
  }
}
