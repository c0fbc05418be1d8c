/** src/flare/direct-minting.ts: the 32-byte memo that names the recipient of a direct mint, and its hex text. */
module DirectMintMemo {
  import opened JsValues
  import opened Numerals

  const PREFIX := "4642505266410018"

  type Byte = b: int | 0 <= b < 256

  datatype Error = InvalidAddress

  /** `parseInt` of the i-th pair of digits. */
  function HexPair(h: string, i: nat): (b: Byte)
    requires IsNumeral(h, Hex) && 2 * i + 2 <= |h|
  {
    var pair := h[2 * i..2 * i + 2];
    PairBound(pair);
    Value(pair, Hex)
  }

  lemma PairBound(pair: string)
    requires |pair| == 2 && IsNumeral(pair, Hex)
    ensures Value(pair, Hex) < 256
  {
    ValueBound(pair, Hex);
    assert Pow(Hex, 1) == 16 && Pow(Hex, 2) == 256;
  }

  function FromHex(h: string): (b: seq<Byte>)
    requires IsNumeral(h, Hex) && |h| % 2 == 0
    ensures |b| == |h| / 2
  {
    seq(|h| / 2, i requires 0 <= i < |h| / 2 => HexPair(h, i))
  }

  function ByteText(b: Byte): string {
    PadStart(Digits(b, Hex), 2)
  }

  function ToHex(bytes: seq<Byte>): string {
    if bytes == [] then "" else ToHex(bytes[..|bytes| - 1]) + ByteText(bytes[|bytes| - 1])
  }

  lemma PrefixIsHex()
    ensures IsNumeral(PREFIX, Hex) && |PREFIX| == 16
  {
  }

  function Memo(recipient: string): (m: seq<Byte>)
    requires IsAddress(recipient)
    ensures |m| == 32
  {
    PrefixIsHex();
    LowerIsHex(recipient[2..]);
    FromHex(PREFIX) + [0, 0, 0, 0] + FromHex(Lower(recipient[2..]))
  }

  lemma LowerIsHex(h: string)
    requires IsNumeral(h, Hex)
    ensures IsNumeral(Lower(h), Hex)
  {
  }

  method EncodeDirectMintingMemo32(recipient: string) returns (r: Result<array<Byte>, Error>)
    ensures r.Ok? <==> IsAddress(recipient)
    ensures r.Ok? ==> fresh(r.value) && r.value[..] == Memo(recipient)
  {
    hide HexPair, Value;
    if !IsAddress(recipient) {
      return Err(InvalidAddress);
    }
    var bytes := new Byte[32](_ => 0);
    PrefixIsHex();
    for i := 0 to 8
      invariant forall k :: 0 <= k < i ==> bytes[k] == HexPair(PREFIX, k)
      invariant forall k :: 8 <= k < 32 ==> bytes[k] == 0
    {
      bytes[i] := HexPair(PREFIX, i);
    }
    var hex := Lower(recipient[2..]);
    LowerIsHex(recipient[2..]);
    for i := 0 to 20
      invariant forall k :: 0 <= k < 8 ==> bytes[k] == HexPair(PREFIX, k)
      invariant forall k :: 8 <= k < 12 ==> bytes[k] == 0
      invariant forall k :: 0 <= k < i ==> bytes[12 + k] == HexPair(hex, k)
    {
      bytes[12 + i] := HexPair(hex, i);
    }
    assert bytes[..] == Memo(recipient) by {
      forall k | 0 <= k < 32 ensures bytes[k] == Memo(recipient)[k] {
        if k >= 12 {
          assert bytes[12 + (k - 12)] == HexPair(hex, k - 12);
        }
      }
    }
    return Ok(bytes);
  }

  method ToXrplMemoHex(bytes: array<Byte>) returns (text: string)
    ensures text == Upper(ToHex(bytes[..]))
  {
    hide ByteText;
    var out := "";
    for i := 0 to bytes.Length
      invariant out == ToHex(bytes[..i])
    {
      assert bytes[..i + 1][..i] == bytes[..i];
      out := out + ByteText(bytes[i]);
    }
    assert bytes[..bytes.Length] == bytes[..];
    text := Upper(out);
  }

  // ---------------------------------------------------------------- theorems

  /** The memo's text is the prefix, eight zeros, and the recipient's digits in upper case. */
  lemma MemoText(recipient: string)
    requires IsAddress(recipient)
    ensures Upper(ToHex(Memo(recipient))) == PREFIX + "00000000" + Upper(recipient[2..])
  {
    hide FromHex, ToHex, IsNumeral;
    var digits := Lower(recipient[2..]);
    var zeros: seq<Byte> := [0, 0, 0, 0];
    PrefixIsHex();
    LowerIsHex(recipient[2..]);
    HexRoundTrip(PREFIX);
    HexRoundTrip(digits);
    FourZeros();
    ToHexAppend(FromHex(PREFIX), zeros);
    ToHexAppend(FromHex(PREFIX) + zeros, FromHex(digits));
    LowerIdempotent(recipient[2..]);
    LowerOfUpper(recipient[2..]);
    UpperParts(PREFIX, digits);
  }

  /** It names its recipient, up to letter case, and no other. */
  lemma MemoNamesRecipient(recipient: string, other: string)
    requires IsAddress(recipient) && IsAddress(other)
    ensures var text := Upper(ToHex(Memo(recipient)));
            |text| == 64 && text[..16] == PREFIX && "0x" + Lower(text[24..]) == Lower(recipient)
    ensures Memo(recipient) == Memo(other) <==> Lower(recipient) == Lower(other)
  {
    hide Memo, ToHex;
    MemoText(recipient);
    MemoText(other);
    AddressText(recipient);
    AddressText(other);
    if Lower(recipient) == Lower(other) {
      assert Lower(recipient[2..]) == Lower(recipient)[2..] == Lower(other)[2..] == Lower(other[2..]);
      SameDigitsSameMemo(recipient, other);
    }
  }

  // ---------------------------------------------------------------- proofs

  lemma SameDigitsSameMemo(recipient: string, other: string)
    requires IsAddress(recipient) && IsAddress(other) && Lower(recipient[2..]) == Lower(other[2..])
    ensures Memo(recipient) == Memo(other)
  {
    hide FromHex;
  }

  lemma AddressText(recipient: string)
    requires IsAddress(recipient)
    ensures var text := PREFIX + "00000000" + Upper(recipient[2..]);
            |text| == 64 && text[..16] == PREFIX && text[24..] == Upper(recipient[2..])
            && "0x" + Lower(text[24..]) == Lower(recipient)
  {
    LowerOfUpper(recipient[2..]);
    PrefixIsHex();
    assert recipient == "0x" + recipient[2..];
  }

  lemma UpperParts(prefix: string, digits: string)
    requires prefix == PREFIX
    ensures Upper(Lower(prefix) + "00000000" + digits) == PREFIX + "00000000" + Upper(digits)
  {
    assert forall i :: 0 <= i < |PREFIX| ==> '0' <= PREFIX[i] <= '9';
  }

  lemma FourZeros()
    ensures var zeros: seq<Byte> := [0, 0, 0, 0]; ToHex(zeros) == "00000000"
  {
    var b: Byte := 0;
    assert ByteText(b) == "00";
    assert [b, b, b, b][..3] == [b, b, b] && [b, b, b][..2] == [b, b] && [b, b][..1] == [b] && [b][..0] == [];
    assert ToHex([b]) == "00";
    assert ToHex([b, b]) == "0000";
    assert ToHex([b, b, b]) == "000000";
  }

  lemma {:induction false} ToHexAppend(a: seq<Byte>, b: seq<Byte>)
    ensures ToHex(a + b) == ToHex(a) + ToHex(b)
  {
    hide ByteText;
    if b == [] {
      assert a + b == a;
    } else {
      assert (a + b)[..|a + b| - 1] == a + b[..|b| - 1];
      ToHexAppend(a, b[..|b| - 1]);
    }
  }

  /** Digits read as bytes and printed again are the same digits in lower case. */
  lemma {:induction false} HexRoundTrip(h: string)
    requires IsNumeral(h, Hex) && |h| % 2 == 0
    ensures ToHex(FromHex(h)) == Lower(h)
  {
    hide ByteText, HexPair, Value;
    if h != "" {
      var init, pair := h[..|h| - 2], h[|h| - 2..];
      HexRoundTrip(init);
      assert FromHex(h)[..|h| / 2 - 1] == FromHex(init) by {
        forall i | 0 <= i < |h| / 2 - 1 ensures FromHex(h)[i] == FromHex(init)[i] {
          SamePair(h, init, i);
        }
      }
      PairText(h);
      assert Lower(h) == Lower(init) + Lower(pair);
    }
  }

  lemma SamePair(h: string, init: string, i: nat)
    requires IsNumeral(h, Hex) && |h| >= 2 && init == h[..|h| - 2] && 2 * i + 2 <= |init|
    ensures IsNumeral(init, Hex) && HexPair(h, i) == HexPair(init, i)
  {
    assert h[2 * i..2 * i + 2] == init[2 * i..2 * i + 2];
  }

  lemma PairText(h: string)
    requires IsNumeral(h, Hex) && |h| >= 2 && |h| % 2 == 0
    ensures ByteText(HexPair(h, |h| / 2 - 1)) == Lower(h[|h| - 2..])
  {
    hide Digits, Value;
    var pair := h[|h| - 2..];
    assert h[2 * (|h| / 2 - 1)..2 * (|h| / 2 - 1) + 2] == pair;
    FixedWidth(pair, Hex);
  }
}
