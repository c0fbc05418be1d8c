/**
 * Decimal amount strings: src/flare/direct-minting.ts (XRP, exactly six decimals, zero refused) and
 * src/initia/assets.ts (any number of decimals, excess digits cut off).
 */
module DecimalAmounts {
  import opened JsValues
  import opened Numerals
  import opened BigInts
  import Arithmetic

  datatype AmountError = InvalidAmount | ZeroAmount | NegativeAmount

  const XRP_DECIMALS: nat := 6

  /** What `split('.')` leaves of a string that matches `^[0-9]+(\.[0-9]+)?$`. */
  datatype Decimal = Decimal(whole: string, frac: string)

  ghost predicate WellFormed(p: Decimal) {
    p.whole != "" && IsNumeral(p.whole, Dec) && IsNumeral(p.frac, Dec)
  }

  function FirstDot(s: string): (i: nat)
    ensures i <= |s|
    ensures i < |s| ==> s[i] == '.'
    ensures forall k :: 0 <= k < i ==> s[k] != '.'
  {
    if s == "" || s[0] == '.' then 0 else 1 + FirstDot(s[1..])
  }

  function Split(s: string): (r: Option<Decimal>)
    ensures r.Some? ==> WellFormed(r.value)
    ensures r.Some? ==> s == if r.value.frac == "" then r.value.whole else r.value.whole + "." + r.value.frac
  {
    var i := FirstDot(s);
    if i == 0 || !IsNumeral(s[..i], Dec) then None
    else if i == |s| then Some(Decimal(s, ""))
    else if i + 1 == |s| || !IsNumeral(s[i + 1..], Dec) then None
    else Some(Decimal(s[..i], s[i + 1..]))
  }

  /** `(frac + '0'.repeat(d)).slice(0, d)` */
  function Padded(frac: string, d: nat): (p: string)
    requires IsNumeral(frac, Dec)
    ensures |p| == d && IsNumeral(p, Dec)
  {
    (frac + Zeros(d))[..d]
  }

  /** The number of base units a decimal denotes. */
  function Units(p: Decimal, d: nat): nat
    requires WellFormed(p)
  {
    Value(p.whole, Dec) * Pow(Dec, d) + Value(Padded(p.frac, d), Dec)
  }

  function ParseXrp(s: string): Result<nat, AmountError> {
    match Split(s)
    case None => Err(InvalidAmount)
    case Some(p) =>
      if |p.frac| > XRP_DECIMALS then Err(InvalidAmount)
      else if Units(p, XRP_DECIMALS) == 0 then Err(ZeroAmount)
      else Ok(Units(p, XRP_DECIMALS))
  }

  function ParseInitia(s: string, d: nat): Result<nat, AmountError> {
    match Split(s)
    case None => Err(InvalidAmount)
    case Some(p) => Ok(Units(p, d))
  }

  /** bigint division and remainder: both truncate toward zero. */
  function TruncatedQuotient(n: int, m: nat): int
    requires m > 0
  {
    if n < 0 then -(-n / m) else n / m
  }

  function TruncatedRemainder(n: int, m: nat): int
    requires m > 0
  {
    if n < 0 then -(-n % m) else n % m
  }

  /** The text for a whole part and a fractional part of d digits. */
  function Render(whole: int, frac: int, d: nat): string {
    if frac == 0 then ToText(whole)
    else ToText(whole) + "." + StripTrailing(PadStart(ToText(frac), d))
  }

  function FormatInitia(n: int, d: nat): string {
    Render(TruncatedQuotient(n, Pow(Dec, d)), TruncatedRemainder(n, Pow(Dec, d)), d)
  }

  function FormatXrp(n: int): Result<string, AmountError> {
    if n < 0 then Err(NegativeAmount) else Ok(FormatInitia(n, XRP_DECIMALS))
  }

  /** The canonical spelling of a decimal: no redundant zero on either side, at most d decimals. */
  function Canonical(p: Decimal, d: nat): string {
    var frac := StripTrailing(p.frac[..Min(|p.frac|, d)]);
    StripLeading(p.whole) + if frac == "" then "" else "." + frac
  }

  // ---------------------------------------------------------------- proofs

  lemma {:induction false} DotAfter(w: string, f: string)
    requires '.' !in w
    ensures FirstDot(w) == |w|
    ensures FirstDot(w + "." + f) == |w|
  {
    if w != "" {
      DotAfter(w[1..], f);
      assert (w + "." + f)[1..] == w[1..] + "." + f;
    }
  }

  lemma NumeralHasNoDot(s: string, b: Base)
    requires IsNumeral(s, b)
    ensures '.' !in s && '-' !in s
  {
  }

  lemma SplitOf(whole: string, frac: string)
    requires whole != "" && IsNumeral(whole, Dec)
    ensures Split(whole) == Some(Decimal(whole, ""))
    ensures frac != "" ==>
              Split(whole + "." + frac) == if IsNumeral(frac, Dec) then Some(Decimal(whole, frac)) else None
  {
    NumeralHasNoDot(whole, Dec);
    DotAfter(whole, frac);
    assert whole[..|whole|] == whole;
    var s := whole + "." + frac;
    assert s[..|whole|] == whole && s[|whole| + 1..] == frac;
  }

  lemma PaddedStripped(x: string)
    requires IsNumeral(x, Dec)
    ensures IsNumeral(StripTrailing(x), Dec)
    ensures Padded(StripTrailing(x), |x|) == x
  {
    var r := StripTrailing(x);
    assert (r + Zeros(|x|))[..|x|] == x;
  }

  lemma FractionDigits(frac: nat, d: nat)
    requires 0 < frac < Pow(Dec, d)
    ensures var p := PadStart(ToText(frac), d);
            |p| == d && IsNumeral(p, Dec) && Value(p, Dec) == frac && StripTrailing(p) != ""
  {
    var p := PadStart(ToText(frac), d);
    assert d > 0;
    DigitsLength(frac, Dec, d);
    ValueOfDigits(frac, Dec);
    ValuePadStart(ToText(frac), d, Dec);
    ValueZeroIffZeros(p, Dec);
  }

  lemma RenderReads(whole: nat, frac: nat, d: nat)
    requires frac < Pow(Dec, d)
    ensures Split(Render(whole, frac, d)).Some?
    ensures var p := Split(Render(whole, frac, d)).value;
            |p.frac| <= d && Value(p.whole, Dec) == whole && Value(Padded(p.frac, d), Dec) == frac
  {
    var w := ToText(whole);
    ValueOfDigits(whole, Dec);
    if frac == 0 {
      SplitOf(w, "");
      LeadingZeros(d, "", Dec);
      assert Padded("", d) == Zeros(d) + "";
    } else {
      FractionDigits(frac, d);
      var p := PadStart(ToText(frac), d);
      PaddedStripped(p);
      SplitOf(w, StripTrailing(p));
    }
  }

  lemma UnitsOfFormatted(n: nat, d: nat)
    ensures Split(FormatInitia(n, d)).Some?
    ensures |Split(FormatInitia(n, d)).value.frac| <= d
    ensures Units(Split(FormatInitia(n, d)).value, d) == n
  {
    hide Pow, Value, Digits;
    Arithmetic.DivMod(n, Pow(Dec, d));
    RenderReads(n / Pow(Dec, d), n % Pow(Dec, d), d);
  }

  /** Padding a negative number and trimming zeros leaves its minus sign inside. */
  lemma MinusInside(n: int, d: nat)
    requires n < 0
    ensures StripTrailing(PadStart(ToText(n), d)) != ""
    ensures !IsNumeral(StripTrailing(PadStart(ToText(n), d)), Dec)
  {
    hide Digits;
    var t := ToText(n);
    var p := PadStart(t, d);
    var r := StripTrailing(p);
    var i := |p| - |t|;
    assert t[0] == '-' && p[i] == t[0];
    assert i < |r| && r[i] == '-';
    assert DigitValue(r[i]) == 99;
  }

  lemma NegativeIsUnreadable(whole: int, frac: int, d: nat)
    requires whole <= 0 && frac <= 0 && (whole < 0 || frac < 0)
    ensures Split(Render(whole, frac, d)).None?
  {
    hide Digits, Split, StripTrailing, PadStart;
    if whole < 0 {
      MinusFirst(whole, StripTrailing(PadStart(ToText(frac), d)));
    } else {
      PrintedDigits(0, Dec);
      MinusInside(frac, d);
      SplitOf("0", StripTrailing(PadStart(ToText(frac), d)));
    }
  }

  lemma MinusFirst(whole: int, f: string)
    requires whole < 0
    ensures Split(ToText(whole)).None? && Split(ToText(whole) + "." + f).None?
  {
    var w := ToText(whole);
    NumeralHasNoDot(w[1..], Dec);
    assert '.' !in w;
    DotAfter(w, f);
    assert w[..|w|] == w && (w + "." + f)[..|w|] == w;
    assert DigitValue(w[0]) == 99;
  }

  lemma FormattedNegative(n: int, d: nat)
    requires n < 0
    ensures Split(FormatInitia(n, d)).None?
  {
    hide Pow, Value, Digits, Split, Render;
    var m := Pow(Dec, d);
    Arithmetic.DivMod(-n, m);
    assert -n / m > 0 || -n % m > 0 by {
      if -n / m == 0 {
        assert -n / m * m == 0;
      }
    }
    NegativeIsUnreadable(TruncatedQuotient(n, m), TruncatedRemainder(n, m), d);
  }

  /** bigint division: what is left over has the dividend's sign and is smaller than the divisor. */
  lemma TruncatesTowardZero(n: int, m: nat)
    requires m > 0
    ensures var q, r := TruncatedQuotient(n, m), TruncatedRemainder(n, m);
            n == q * m + r && r < m && -r < m && (n >= 0 ==> r >= 0 && q >= 0) && (n <= 0 ==> r <= 0 && q <= 0)
  {
    if n < 0 {
      Arithmetic.DivMod(-n, m);
      Negated(-n / m, m);
    } else {
      Arithmetic.DivMod(n, m);
    }
  }

  lemma Negated(q: int, m: int)
    ensures -q * m == -(q * m)
  {
  }

  /** What an amount is refused for: its form, more than six decimals of XRP, or an XRP amount of zero. */
  lemma AmountRefusedFor(s: string, d: nat)
    ensures ParseInitia(s, d) == Err(InvalidAmount) <==> Split(s).None?
    ensures ParseInitia(s, d).Ok? <==> Split(s).Some?
    ensures ParseXrp(s) == Err(InvalidAmount) <==> Split(s).None? || |Split(s).value.frac| > 6
    ensures ParseXrp(s) == Err(ZeroAmount) <==> Split(s).Some? && |Split(s).value.frac| <= 6 && Units(Split(s).value, 6) == 0
    ensures ParseXrp(s).Ok? <==> Split(s).Some? && |Split(s).value.frac| <= 6 && Units(Split(s).value, 6) > 0
  {
    hide Split, Units;
  }

  /** A printed Initia amount reads back as itself, for every number of decimals, exactly when n >= 0. */
  lemma InitiaRoundTrip(n: int, d: nat)
    ensures ParseInitia(FormatInitia(n, d), d) == Ok(n) <==> n >= 0
  {
    hide FormatInitia, Split, Units;
    if n >= 0 {
      UnitsOfFormatted(n, d);
    } else {
      FormattedNegative(n, d);
    }
  }

  /** A printed XRP amount reads back as itself exactly when it is positive; zero prints but is refused. */
  lemma XrpRoundTrip(n: int)
    ensures FormatXrp(n) == Err(NegativeAmount) <==> n < 0
    ensures FormatXrp(n).Ok? <==> n >= 0
    ensures n >= 0 ==> ParseXrp(FormatXrp(n).value) == if n == 0 then Err(ZeroAmount) else Ok(n)
  {
    if n >= 0 {
      UnitsOfFormatted(n, XRP_DECIMALS);
    }
  }

  lemma PaddedIsCut(frac: string, d: nat)
    requires IsNumeral(frac, Dec)
    ensures StripTrailing(Padded(frac, d)) == StripTrailing(frac[..Min(|frac|, d)])
  {
    var cut := frac[..Min(|frac|, d)];
    StripTrailingPadded(cut, d - |cut|);
    assert Padded(frac, d) == cut + Zeros(d - |cut|);
  }

  lemma PadOfValue(x: string)
    requires IsNumeral(x, Dec) && Value(x, Dec) > 0
    ensures PadStart(ToText(Value(x, Dec)), |x|) == x
  {
    hide Pow, Digits;
    var v := Value(x, Dec);
    var p := PadStart(ToText(v), |x|);
    assert x != "";
    ValueBound(x, Dec);
    DigitsLength(v, Dec, |x|);
    ValueOfDigits(v, Dec);
    ValuePadStart(ToText(v), |x|, Dec);
    SameLengthSameValue(p, x, Dec);
    assert Lower(p) == p && Lower(x) == x;
  }

  lemma RenderOfRead(p: Decimal, d: nat)
    requires WellFormed(p)
    ensures Render(Value(p.whole, Dec), Value(Padded(p.frac, d), Dec), d) == Canonical(p, d)
  {
    var x := Padded(p.frac, d);
    DigitsOfDecimal(p.whole);
    ValueZeroIffZeros(x, Dec);
    PaddedIsCut(p.frac, d);
    if Value(x, Dec) > 0 {
      PadOfValue(x);
    } else {
      assert StripLeading(p.whole) + "" == StripLeading(p.whole);
    }
  }

  /** Printing what was read gives the canonical spelling of the same decimal. */
  lemma CanonicalForm(s: string, d: nat)
    requires Split(s).Some?
    ensures ParseInitia(s, d).Ok?
    ensures FormatInitia(ParseInitia(s, d).value, d) == Canonical(Split(s).value, d)
  {
    var p := Split(s).value;
    var x := Padded(p.frac, d);
    ValueBound(x, Dec);
    Arithmetic.QuotientUnique(Units(p, d), Pow(Dec, d), Value(p.whole, Dec), Value(x, Dec));
    RenderOfRead(p, d);
  }

  /** The same for XRP amounts, which are never cut. */
  lemma XrpCanonicalForm(s: string)
    requires ParseXrp(s).Ok?
    ensures FormatXrp(ParseXrp(s).value) == Ok(Canonical(Split(s).value, XRP_DECIMALS))
    ensures ParseXrp(Canonical(Split(s).value, XRP_DECIMALS)) == ParseXrp(s)
  {
    CanonicalForm(s, XRP_DECIMALS);
    XrpRoundTrip(ParseXrp(s).value);
  }
}
