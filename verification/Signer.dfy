/** The signer's reading of a transaction (`parseTxFields`, cmd/crypto/handlers.go), and
    its agreement with what the service prints. */
module Signer {
  import opened Base
  import opened Text
  import opened Hex
  import opened Decimal
  import opened Requests
  import Fees

  const MAX_DECIMAL_DIGITS := 78
  const MAX_CALLDATA_BYTES := 32 * 1024

  // 2^256, the first number an EVM word cannot hold.
  const WORD: nat := 0x1_0000_0000_0000_0000_0000_0000_0000_0000_0000_0000_0000_0000_0000_0000_0000_0000

  /** The JSON body: large amounts are decimal strings. */
  datatype TxJson = TxJson(
    chainId: nat, nonce: nat, to: string, value: string, gasLimit: nat,
    maxFee: string, maxPriority: string, data: string)

  datatype TxFields = TxFields(
    chainId: nat, nonce: nat, to: string, value: int, gasLimit: nat,
    maxFee: int, maxPriority: int, data: seq<Byte>)

  datatype Refusal =
    | ChainIdMissing
    | TooLong(field: Amount)
    | NotANumber(field: Amount)
    | OutOfRange(field: Amount)
    | GasLimitMissing
    | BadAddress
    | DataTooLong
    | DataNotHex

  datatype Amount = TheValue | TheMaxFee | TheMaxPriority

  datatype Read<T> = Accepted(value: T) | Refused(reason: Refusal)

  /** One amount: the length is checked before the number is read, the sign afterwards. */
  function ParseAmount(s: string, least: int, field: Amount): Read<int> {
    if |s| > MAX_DECIMAL_DIGITS then Refused(TooLong(field))
    else
      match SetString(s)
      case None => Refused(NotANumber(field))
      case Some(n) => if n < least then Refused(OutOfRange(field)) else Accepted(n)
  }

  function ParseData(s: string): Read<seq<Byte>> {
    if s == "" || s == "0x" then Accepted([])
    else if |s| > 2 + MAX_CALLDATA_BYTES * 2 then Refused(DataTooLong)
    else
      match DecodeString(TrimPrefix(s, "0x"))
      case None => Refused(DataNotHex)
      case Some(bytes) => Accepted(bytes)
  }

  function ParseTxFields(json: TxJson): Read<TxFields> {
    if json.chainId == 0 then Refused(ChainIdMissing)
    else
      var value := ParseAmount(json.value, 0, TheValue);
      var maxFee := ParseAmount(json.maxFee, 1, TheMaxFee);
      var maxPriority := ParseAmount(json.maxPriority, 0, TheMaxPriority);
      if value.Refused? then Refused(value.reason)
      else if maxFee.Refused? then Refused(maxFee.reason)
      else if maxPriority.Refused? then Refused(maxPriority.reason)
      else if json.gasLimit == 0 then Refused(GasLimitMissing)
      else if json.to != "" && !IsHexAddress(json.to) then Refused(BadAddress)
      else
        var data := ParseData(json.data);
        if data.Refused? then Refused(data.reason)
        else Accepted(TxFields(json.chainId, json.nonce, json.to, value.value, json.gasLimit,
                               maxFee.value, maxPriority.value, data.value))
  }

  // -------------------------------------------------------------------------
  // Amounts
  // -------------------------------------------------------------------------

  lemma {:induction false} SetStringBound(s: string)
    requires SetString(s).Some?
    ensures 0 - Pow10(|s|) < SetString(s).value < Pow10(|s|)
  {
    var digits := if s[0] == '+' || s[0] == '-' then s[1..] else s;
    ValueBound(digits);
    Pow10Monotone(|digits|, |s|);
  }

  /** Every amount the signer accepts lies between its least value and 10^78. */
  lemma AmountInRange(s: string, least: int, field: Amount)
    requires ParseAmount(s, least, field).Accepted?
    ensures least <= ParseAmount(s, least, field).value < Pow10(MAX_DECIMAL_DIGITS)
  {
    SetStringBound(s);
    Pow10Monotone(|s|, MAX_DECIMAL_DIGITS);
  }

  lemma {:induction false} SetStringPrint(n: nat)
    ensures SetString(Print(n)) == Some(n)
  {
    PrintCanonical(n);
    ValuePrint(n);
  }

  /** An amount the service prints is read back as the same number, and is refused exactly
      when it is below the least value or at least 10^78. */
  lemma {:induction false} PrintedAmount(n: nat, least: nat, field: Amount)
    ensures ParseAmount(Print(n), least, field).Accepted? <==> least <= n < Pow10(MAX_DECIMAL_DIGITS)
    ensures ParseAmount(Print(n), least, field).Accepted? ==> ParseAmount(Print(n), least, field).value == n
  {
    PrintLength(n, MAX_DECIMAL_DIGITS);
    SetStringPrint(n);
  }

  /** The length check lets through more than the 256 bits of an EVM word. */
  lemma WordOverflowAccepted(field: Amount)
    ensures ParseAmount(Print(WORD), 0, field).Accepted?
  {
    hide Print, SetString, Pow10;
    WordBelowLimit();
    PrintedAmount(WORD, 0, field);
  }

  lemma WordBelowLimit()
    ensures WORD < Pow10(MAX_DECIMAL_DIGITS)
  {
    assert Pow10(6) == 1000000;
    hide Pow10;
    assert Pow10(13) == 10000000000000 by {
      Pow10Sum(6, 7);
      Pow10Sum(6, 1);
      Pow10One();
    }
    assert Pow10(26) == 100000000000000000000000000 by {
      Pow10Sum(13, 13);
    }
    assert Pow10(52) == 10000000000000000000000000000000000000000000000000000 by {
      Pow10Sum(26, 26);
    }
    Pow10Sum(52, 26);
  }

  lemma Pow10One()
    ensures Pow10(1) == 10
  {
  }

  lemma {:induction false} Pow10Sum(j: nat, k: nat)
    ensures Pow10(j + k) == Pow10(j) * Pow10(k)
  {
    if j > 0 {
      Pow10Sum(j - 1, k);
    }
  }

  // -------------------------------------------------------------------------
  // Acceptance, exactly
  // -------------------------------------------------------------------------

  /** What the service sends for a request, a nonce and fees. */
  function Printed(req: SignRequest, nonce: nat, quote: Fees.FeeQuote): TxJson {
    TxJson(req.chainId, nonce, req.to, req.value, quote.gasLimit, Print(quote.maxFee), Print(quote.maxPriority),
           req.data)
  }

  lemma DtoAddress(to: string)
    requires IsEthereumAddress(to)
    ensures HasHexPrefix(to) && IsHexAddress(to)
  {
  }

  lemma DtoData(data: string)
    requires IsHexData(data) && |data| <= 2 + DATA_MAX_BYTES * 2
    ensures EvenHex(data[2..]) && ParseData(data) == Accepted(Decode(data[2..]))
  {
    if data == "0x" {
      assert Decode(data[2..]) == [];
    }
  }

  /** Every request the API lets through reaches the signature unchanged: the signer refuses
      it exactly for a fee or gas limit out of range, and otherwise reads the amounts printed,
      the address and the calldata bytes as they were sent. */
  lemma RequestSurvives(req: SignRequest, nonce: nat, quote: Fees.FeeQuote)
    requires DtoValid(req)
    ensures ParseTxFields(Printed(req, nonce, quote)).Accepted? <==>
            1 <= quote.maxFee < Pow10(MAX_DECIMAL_DIGITS) && quote.maxPriority < Pow10(MAX_DECIMAL_DIGITS)
                && quote.gasLimit > 0
    ensures EvenHex(req.data[2..])
    ensures ParseTxFields(Printed(req, nonce, quote)).Accepted? ==>
              ParseTxFields(Printed(req, nonce, quote)).value ==
              TxFields(req.chainId, nonce, req.to, Value(req.value), quote.gasLimit,
                       quote.maxFee, quote.maxPriority, Decode(req.data[2..]))
  {
    hide SetString, Print, ParseData;
    DtoAddress(req.to);
    DtoData(req.data);
    CanonicalPrint(req.value);
    CanonicalBelow(req.value);
    PrintedAmount(Value(req.value), 0, TheValue);
    PrintedAmount(quote.maxFee, 1, TheMaxFee);
    PrintedAmount(quote.maxPriority, 0, TheMaxPriority);
  }

  lemma {:induction false} CanonicalBelow(s: string)
    requires Canonical(s) && |s| <= MAX_DECIMAL_DIGITS
    ensures Value(s) < Pow10(MAX_DECIMAL_DIGITS)
  {
    ValueBound(s);
    Pow10Monotone(|s|, MAX_DECIMAL_DIGITS);
  }

  /** Whatever body comes in, an accepted transaction has a chain, gas, amounts within range,
      an address or none, and calldata that re-encodes to the digits received. The length
      check counts two characters for a prefix, so a body without one may carry one byte
      more. */
  lemma AcceptedIsSane(json: TxJson)
    requires ParseTxFields(json).Accepted?
    ensures var tx := ParseTxFields(json).value;
            && tx.chainId > 0 && tx.gasLimit > 0
            && 0 <= tx.value < Pow10(MAX_DECIMAL_DIGITS)
            && 1 <= tx.maxFee < Pow10(MAX_DECIMAL_DIGITS)
            && 0 <= tx.maxPriority < Pow10(MAX_DECIMAL_DIGITS)
            && (tx.to == "" || IsHexAddress(tx.to))
            && Encode(tx.data) == Lower(TrimPrefix(json.data, "0x"))
            && |tx.data| <= MAX_CALLDATA_BYTES + (if HasPrefix(json.data, "0x") then 0 else 1)
  {
    hide SetString;
    AmountInRange(json.value, 0, TheValue);
    AmountInRange(json.maxFee, 1, TheMaxFee);
    AmountInRange(json.maxPriority, 0, TheMaxPriority);
    if json.data != "" && json.data != "0x" {
      EncodeDecode(TrimPrefix(json.data, "0x"));
    }
  }

  predicate HasSign(s: string) {
    s != "" && (s[0] == '+' || s[0] == '-')
  }

  /** A decimal integer of at most 78 characters, with a sign or without. */
  predicate IsAmount(s: string) {
    && |s| <= 78
    && if HasSign(s) then |s| > 1 && AllDigits(s[1..]) else s != "" && AllDigits(s)
  }

  function AmountOf(s: string): int
    requires IsAmount(s)
  {
    if !HasSign(s) then Value(s) else if s[0] == '-' then 0 - Value(s[1..]) else Value(s[1..])
  }

  /** No calldata, or whole bytes in hexadecimal, with the prefix "0x" or without. */
  predicate IsCalldata(s: string) {
    |s| <= 65538 && EvenHex(TrimPrefix(s, "0x"))
  }

  lemma ReadsAmount(s: string, least: int, field: Amount)
    ensures ParseAmount(s, least, field).Accepted? <==> IsAmount(s) && AmountOf(s) >= least
    ensures IsAmount(s) && AmountOf(s) >= least ==> ParseAmount(s, least, field).value == AmountOf(s)
  {
    hide Value;
  }

  lemma ReadsCalldata(s: string)
    ensures ParseData(s).Accepted? <==> IsCalldata(s)
    ensures IsCalldata(s) ==> ParseData(s).value == Decode(TrimPrefix(s, "0x"))
  {
    if s == "0x" {
      assert TrimPrefix(s, "0x") == "";
    } else if s == "" {
      assert TrimPrefix(s, "0x") == "";
    }
  }

  /** Whatever body comes in: it is accepted exactly when it has a chain, gas, three amounts within
      their ranges, an address or none, and calldata that can be read; and then every field of the
      transaction to be signed is the body's. */
  lemma AcceptsExactly(json: TxJson)
    ensures ParseTxFields(json).Accepted? <==>
            && json.chainId > 0 && json.gasLimit > 0
            && (IsAmount(json.value) && AmountOf(json.value) >= 0)
            && (IsAmount(json.maxFee) && AmountOf(json.maxFee) > 0)
            && (IsAmount(json.maxPriority) && AmountOf(json.maxPriority) >= 0)
            && (json.to == "" || IsHexAddress(json.to)) && IsCalldata(json.data)
    ensures ParseTxFields(json).Accepted? ==>
              ParseTxFields(json).value ==
              TxFields(json.chainId, json.nonce, json.to, AmountOf(json.value), json.gasLimit, AmountOf(json.maxFee),
                       AmountOf(json.maxPriority), Decode(TrimPrefix(json.data, "0x")))
  {
    hide ParseAmount, ParseData, IsAmount, IsHexAddress;
    ReadsAmount(json.value, 0, TheValue);
    ReadsAmount(json.maxFee, 1, TheMaxFee);
    ReadsAmount(json.maxPriority, 0, TheMaxPriority);
    ReadsCalldata(json.data);
  }
}
