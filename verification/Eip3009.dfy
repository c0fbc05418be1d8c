/** src/morph/eip3009.ts: the authorization, its JSON form, the signed typed data, the split signature. */
module Eip3009 {
  import opened JsValues
  import opened Numerals
  import opened BigInts

  datatype Authorization = Authorization(
    from: string, to: string, value: int, validAfter: int, validBefore: int, nonce: string)

  /** The JSON form; None stands for a field that is missing or not a string. */
  datatype WireAuthorization = WireAuthorization(
    from: Option<string>, to: Option<string>, value: Option<string>,
    validAfter: Option<string>, validBefore: Option<string>, nonce: Option<string>)

  datatype Domain = Domain(name: string, version: string, chainId: int, verifyingContract: string)

  datatype TypedData = TypedData(domain: Domain, message: Authorization)

  function Encode(a: Authorization): WireAuthorization {
    WireAuthorization(Some(a.from), Some(a.to), Some(ToText(a.value)),
                      Some(ToText(a.validAfter)), Some(ToText(a.validBefore)), Some(a.nonce))
  }

  /** None where the source throws: a field that is not a string, or not an integer literal. */
  function Decode(w: WireAuthorization): Option<Authorization> {
    if w.from.None? || w.to.None? || w.value.None? || w.validAfter.None? || w.validBefore.None? || w.nonce.None?
    then None
    else
      var value, after, before :=
        FromText(w.value.value), FromText(w.validAfter.value), FromText(w.validBefore.value);
      if value.None? || after.None? || before.None? then None
      else Some(Authorization(w.from.value, w.to.value, value.value, after.value, before.value, w.nonce.value))
  }

  /** Decoding succeeds exactly when no field is missing and the three numbers can be read, and takes each field over. */
  lemma DecodeIff(w: WireAuthorization, a: Authorization)
    ensures Decode(w) == Some(a) <==>
              && w.from == Some(a.from) && w.to == Some(a.to) && w.nonce == Some(a.nonce)
              && w.value.Some? && FromText(w.value.value) == Some(a.value)
              && w.validAfter.Some? && FromText(w.validAfter.value) == Some(a.validAfter)
              && w.validBefore.Some? && FromText(w.validBefore.value) == Some(a.validBefore)
  {
    hide FromText;
  }

  lemma DecodeEncode(a: Authorization)
    ensures Decode(Encode(a)) == Some(a)
  {
    RoundTrip(a.value);
    RoundTrip(a.validAfter);
    RoundTrip(a.validBefore);
  }

  /** Domain defaults are those of Circle's FiatTokenV2. */
  function BuildTypedData(verifyingContract: string, chainId: int, tokenName: Option<string>,
                          tokenVersion: Option<string>, a: Authorization): TypedData
  {
    TypedData(Domain(tokenName.GetOr("USD Coin"), tokenVersion.GetOr("2"), chainId, verifyingContract), a)
  }

  /** What EIP-712 hashes: addresses and the nonce count as bytes, so letter case does not matter. */
  function SignedBytes(td: TypedData): TypedData {
    TypedData(td.domain.(verifyingContract := Lower(td.domain.verifyingContract)),
              td.message.(from := Lower(td.message.from), to := Lower(td.message.to),
                          nonce := Lower(td.message.nonce)))
  }

  /** The same bytes are hashed exactly for the same token, chain, amount and times, addresses and nonce in any case. */
  lemma SignedBytesIff(x: TypedData, y: TypedData)
    ensures SignedBytes(x) == SignedBytes(y) <==>
              && x.domain.name == y.domain.name && x.domain.version == y.domain.version && x.domain.chainId == y.domain.chainId
              && Lower(x.domain.verifyingContract) == Lower(y.domain.verifyingContract)
              && Lower(x.message.from) == Lower(y.message.from) && Lower(x.message.to) == Lower(y.message.to)
              && x.message.value == y.message.value && x.message.validAfter == y.message.validAfter
              && x.message.validBefore == y.message.validBefore && Lower(x.message.nonce) == Lower(y.message.nonce)
  {
    hide Lower;
  }

  datatype Signature = Signature(v: nat, r: string, s: string)

  /** None where the source throws: not 65 bytes, or a recovery byte that is not hexadecimal. */
  function SplitSignature(signature: string): Option<Signature> {
    if |signature| != 132 || !IsNumeral(signature[130..132], Hex) then None
    else Some(Signature(Value(signature[130..132], Hex), "0x" + signature[2..66], "0x" + signature[66..130]))
  }

  /** A signature splits exactly when it has 65 bytes, two digits each behind "0x", and the last two are digits. */
  lemma SplitIff(signature: string)
    ensures SplitSignature(signature).Some? <==>
              |signature| == 2 + 2 * 65 && signature[130] in "0123456789abcdefABCDEF" && signature[131] in "0123456789abcdefABCDEF"
  {
    if |signature| == 132 {
      HexDigitIff(signature[130]);
      HexDigitIff(signature[131]);
      var tail := signature[130..132];
      assert tail[0] == signature[130] && tail[1] == signature[131];
    }
  }

  function JoinSignature(sig: Signature): string
    requires |sig.r| >= 2 && |sig.s| >= 2
  {
    sig.r + sig.s[2..] + PadStart(Digits(sig.v, Hex), 2)
  }

  /** Splitting loses nothing: r, s and v put back together are the signature that was split. */
  lemma SplitJoin(signature: string)
    requires SplitSignature(signature).Some? && signature[..2] == "0x"
    ensures var sig := SplitSignature(signature).value;
            |sig.r| == 66 && |sig.s| == 66 && sig.v < 256
            && Lower(JoinSignature(sig)) == Lower(signature)
  {
    var sig := SplitSignature(signature).value;
    var tail := signature[130..132];
    var printed := PadStart(Digits(sig.v, Hex), 2);
    ValueBound(tail, Hex);
    assert Pow(Hex, 2) == 256 by {
      assert Pow(Hex, 1) == 16 by { assert Pow(Hex, 0) == 1; }
    }
    DigitsLength(sig.v, Hex, 2);
    ValueOfDigits(sig.v, Hex);
    ValuePadStart(Digits(sig.v, Hex), 2, Hex);
    SameLengthSameValue(printed, tail, Hex);
    var head := signature[..130];
    assert JoinSignature(sig) == head + printed && signature == head + tail;
    assert Lower(head + printed) == Lower(head) + Lower(printed);
    assert Lower(head + tail) == Lower(head) + Lower(tail);
  }
}
