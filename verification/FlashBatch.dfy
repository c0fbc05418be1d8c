/** src/aave/flash.ts: payments collected for one flash mint, and the calldata that lists them. */
module FlashBatch {
  import opened JsValues
  import opened Numerals

  const WORD: nat := 64   // hexadecimal digits of a 256-bit word

  datatype Payment = Payment(recipient: string, amount: nat)

  datatype Error = InvalidAmount | Empty | Unsupported

  datatype Batch = Batch(totalAmount: nat, paymentCount: nat, minter: string, data: string)

  function Total(payments: seq<Payment>): nat {
    if payments == [] then 0 else Total(payments[..|payments| - 1]) + payments[|payments| - 1].amount
  }

  function SliceFrom2(s: string): string {
    if |s| <= 2 then "" else s[2..]
  }

  function Part(p: Payment): string {
    PadStart(SliceFrom2(p.recipient), WORD) + PadStart(Digits(p.amount, Hex), WORD)
  }

  function Encode(payments: seq<Payment>): string {
    if payments == [] then "" else Part(payments[0]) + Encode(payments[1..])
  }

  /** What the receiver reads: blocks of two words, an address in the low 40 digits of the first. */
  function Decode(data: string): Option<seq<Payment>> {
    if data == "" then Some([])
    else if |data| < 2 * WORD || !IsNumeral(data[WORD..2 * WORD], Hex) then None
    else
      var first := Payment("0x" + data[WORD - 40..WORD], Value(data[WORD..2 * WORD], Hex));
      match Decode(data[2 * WORD..])
      case None => None
      case Some(rest) => Some([first] + rest)
  }

  class FlashMintBatcher {
    const minter: Option<string>
    var pending: seq<Payment>

    constructor (minter: Option<string>)
      ensures this.minter == minter && pending == []
    {
      this.minter, pending := minter, [];
    }

    method AddPayment(recipient: string, amount: int) returns (error: Option<Error>)
      modifies this
      ensures error == if amount <= 0 then Some(InvalidAmount) else None
      ensures pending == old(pending) + if amount <= 0 then [] else [Payment(recipient, amount)]
    {
      if amount <= 0 {
        return Some(InvalidAmount);
      }
      pending := pending + [Payment(recipient, amount)];
      return None;
    }

    method PendingTotal() returns (sum: nat)
      ensures sum == Total(pending)
    {
      sum := 0;
      for k := 0 to |pending|
        invariant sum == Total(pending[..k])
      {
        assert pending[..k + 1][..k] == pending[..k];
        sum := sum + pending[k].amount;
      }
      assert pending[..|pending|] == pending;
    }

    /** A batch takes all pending payments; an error leaves them pending. */
    method BuildBatchTx() returns (r: Result<Batch, Error>)
      modifies this
      ensures r.Err? ==> pending == old(pending)
      ensures r == if old(pending) == [] then Err(Empty)
                   else if minter.None? then Err(Unsupported)
                   else Ok(Batch(Total(old(pending)), |old(pending)|, minter.value, "0x" + Encode(old(pending))))
      ensures r.Ok? ==> pending == []
    {
      if pending == [] {
        return Err(Empty);
      }
      if minter.None? {
        return Err(Unsupported);
      }
      var total := PendingTotal();
      var data := "0x" + Encode(pending);
      r := Ok(Batch(total, |pending|, minter.value, data));
      pending := [];
    }

    method Clear()
      modifies this
      ensures pending == []
    {
      pending := [];
    }
  }

  // ---------------------------------------------------------------- theorems

  predicate Fits(amount: nat) {
    amount < Pow(Hex, WORD)
  }

  /** For 20-byte addresses the receiver reads back the very list of payments exactly when every amount fits a word. */
  lemma RoundTripIff(payments: seq<Payment>)
    requires forall i :: 0 <= i < |payments| ==> IsAddress(payments[i].recipient)
    ensures Decode(Encode(payments)) == Some(payments) <==> forall i :: 0 <= i < |payments| ==> Fits(payments[i].amount)
  {
    hide Decode, Encode, Fits;
    if forall i :: 0 <= i < |payments| ==> Fits(payments[i].amount) {
      ReadsBack(payments);
    }
    if Decode(Encode(payments)) == Some(payments) {
      DecodedLength(Encode(payments), payments);
      LengthOfEncoding(payments);
    }
  }

  /** The calldata has 128 digits for each payment exactly when every amount fits a word, and more otherwise. */
  lemma EncodedLengthIff(payments: seq<Payment>)
    requires forall i :: 0 <= i < |payments| ==> IsAddress(payments[i].recipient)
    ensures |Encode(payments)| >= 128 * |payments|
    ensures |Encode(payments)| == 128 * |payments| <==> forall i :: 0 <= i < |payments| ==> Fits(payments[i].amount)
  {
    LengthOfEncoding(payments);
  }

  /** The total is that of the list, one payment after the other. */
  lemma TotalIs(payments: seq<Payment>, p: Payment)
    ensures Total([]) == 0 && Total(payments + [p]) == Total(payments) + p.amount
  {
    assert (payments + [p])[..|payments|] == payments;
  }

  /** So the amount borrowed is what the receiver pays out. */
  lemma BorrowedIsPaidOut(payments: seq<Payment>)
    requires forall i :: 0 <= i < |payments| ==> IsAddress(payments[i].recipient) && Fits(payments[i].amount)
    ensures Decode(Encode(payments)).Some? && Total(Decode(Encode(payments)).value) == Total(payments)
  {
    RoundTripIff(payments);
  }

  // ---------------------------------------------------------------- proofs

  lemma {:induction false} ReadsBack(payments: seq<Payment>)
    requires forall i :: 0 <= i < |payments| ==> IsAddress(payments[i].recipient)
    requires forall i :: 0 <= i < |payments| ==> Fits(payments[i].amount)
    ensures Decode(Encode(payments)) == Some(payments)
  {
    hide Decode, Part, Fits, IsAddress;
    DecodeNothing();
    if payments != [] {
      var p, rest := payments[0], payments[1..];
      ReadsBack(rest);
      BlockReads(p, Encode(rest));
      assert payments == [p] + rest;
    }
  }

  lemma DecodeNothing()
    ensures Decode("") == Some([])
  {
  }

  lemma BlockReads(p: Payment, rest: string)
    requires IsAddress(p.recipient) && Fits(p.amount)
    ensures Decode(Part(p) + rest) ==
            match Decode(rest) case None => None case Some(l) => Some([p] + l)
  {
    hide Pow, Digits, Value;
    PartIs(p);
    var data := Part(p) + rest;
    var address, amount := PadStart(p.recipient[2..], WORD), PadStart(Digits(p.amount, Hex), WORD);
    assert data[WORD..2 * WORD] == amount && data[2 * WORD..] == rest;
    assert data[WORD - 40..WORD] == p.recipient[2..];
    assert "0x" + p.recipient[2..] == p.recipient[..2] + p.recipient[2..] == p.recipient;
    DecodeOne(data, p, rest);
  }

  lemma DecodeOne(data: string, p: Payment, rest: string)
    requires |data| >= 2 * WORD && IsNumeral(data[WORD..2 * WORD], Hex) && data[2 * WORD..] == rest
    requires p.amount == Value(data[WORD..2 * WORD], Hex) && p.recipient == "0x" + data[WORD - 40..WORD]
    ensures Decode(data) == match Decode(rest) case None => None case Some(l) => Some([p] + l)
  {
    hide Value;
  }

  lemma PartIs(p: Payment)
    requires IsAddress(p.recipient) && Fits(p.amount)
    ensures var address, amount := PadStart(p.recipient[2..], WORD), PadStart(Digits(p.amount, Hex), WORD);
            && Part(p) == address + amount && |address| == |amount| == WORD
            && address[WORD - 40..] == p.recipient[2..]
            && IsNumeral(amount, Hex) && Value(amount, Hex) == p.amount
  {
    hide Pow, Digits, Value;
    DigitsLength(p.amount, Hex, WORD);
    ValueOfDigits(p.amount, Hex);
    ValuePadStart(Digits(p.amount, Hex), WORD, Hex);
  }

  lemma PartLength(p: Payment)
    requires IsAddress(p.recipient)
    ensures |Part(p)| >= 2 * WORD
    ensures |Part(p)| == 2 * WORD <==> Fits(p.amount)
  {
    hide Pow, Digits;
    DigitsLength(p.amount, Hex, WORD);
  }

  lemma {:induction false} LengthOfEncoding(payments: seq<Payment>)
    requires forall i :: 0 <= i < |payments| ==> IsAddress(payments[i].recipient)
    ensures |Encode(payments)| >= 2 * WORD * |payments|
    ensures |Encode(payments)| == 2 * WORD * |payments| <==> forall i :: 0 <= i < |payments| ==> Fits(payments[i].amount)
  {
    hide Part, Fits;
    if payments != [] {
      LengthOfEncoding(payments[1..]);
      PartLength(payments[0]);
    }
  }

  lemma {:induction false} DecodedLength(data: string, payments: seq<Payment>)
    requires Decode(data) == Some(payments)
    ensures |data| == 2 * WORD * |payments|
  {
    hide Value;
    if data != "" {
      DecodedLength(data[2 * WORD..], payments[1..]);
    }
  }
}
