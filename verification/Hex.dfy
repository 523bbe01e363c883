/** Hexadecimal strings and bytes: Go's `encoding/hex` and go-ethereum's addresses. */
module Hex {
  import opened Base
  import opened Text

  type Byte = b: int | 0 <= b < 256

  const ADDRESS_DIGITS := 40

  function Nibble(c: char): (v: nat)
    requires IsHexChar(c)
    ensures v < 16
  {
    if IsDigit(c) then c as int - '0' as int
    else if 'a' <= c <= 'f' then c as int - 'a' as int + 10
    else c as int - 'A' as int + 10
  }

  function NibbleChar(v: nat): (c: char)
    requires v < 16
  {
    if v < 10 then ('0' as int + v) as char else ('a' as int + v - 10) as char
  }

  lemma NibbleRoundTrip(c: char, v: nat)
    ensures IsHexChar(c) ==> NibbleChar(Nibble(c)) == LowerChar(c)
    ensures v < 16 ==> IsHexChar(NibbleChar(v)) && Nibble(NibbleChar(v)) == v
  {
  }

  predicate EvenHex(s: string) {
    |s| % 2 == 0 && AllHex(s)
  }

  /** `hex.EncodeToString`: lower-case digits. */
  function Encode(bytes: seq<Byte>): (s: string)
    ensures |s| == 2 * |bytes|
  {
    if bytes == [] then "" else [NibbleChar(bytes[0] / 16), NibbleChar(bytes[0] % 16)] + Encode(bytes[1..])
  }

  function Decode(s: string): (bytes: seq<Byte>)
    requires EvenHex(s)
    ensures 2 * |bytes| == |s|
  {
    if s == "" then [] else [16 * Nibble(s[0]) + Nibble(s[1])] + Decode(s[2..])
  }

  /** `hex.DecodeString`: either letter case, an even number of digits, nothing else. */
  function DecodeString(s: string): Option<seq<Byte>> {
    if EvenHex(s) then Some(Decode(s)) else None
  }

  /** Encoding what was decoded gives the lower-case form. */
  lemma {:induction false} EncodeDecode(s: string)
    requires EvenHex(s)
    ensures Encode(Decode(s)) == Lower(s)
  {
    if s != "" {
      EncodeDecode(s[2..]);
      NibbleRoundTrip(s[0], 0);
      NibbleRoundTrip(s[1], 0);
      assert Lower(s) == [LowerChar(s[0]), LowerChar(s[1])] + Lower(s[2..]);
    }
  }

  /** Decoding what was encoded gives the bytes back. */
  lemma {:induction false} DecodeEncode(bytes: seq<Byte>)
    ensures EvenHex(Encode(bytes)) && Decode(Encode(bytes)) == bytes
  {
    if bytes != [] {
      DecodeEncode(bytes[1..]);
      NibbleRoundTrip('0', bytes[0] / 16);
      NibbleRoundTrip('0', bytes[0] % 16);
      assert Encode(bytes)[2..] == Encode(bytes[1..]);
    }
  }

  /** The first bytes are the decoding of the first digits. */
  lemma {:induction false} DecodePrefix(s: string, count: nat)
    requires EvenHex(s) && 2 * count <= |s|
    ensures EvenHex(s[..2 * count]) && Decode(s)[..count] == Decode(s[..2 * count])
  {
    if count > 0 {
      DecodePrefix(s[2..], count - 1);
      assert s[..2 * count][2..] == s[2..][..2 * (count - 1)];
    }
  }

  // -------------------------------------------------------------------------
  // Addresses
  // -------------------------------------------------------------------------

  predicate HasHexPrefix(s: string) {
    |s| >= 2 && s[0] == '0' && (s[1] == 'x' || s[1] == 'X')
  }

  function StripHexPrefix(s: string): string {
    if HasHexPrefix(s) then s[2..] else s
  }

  /** `common.IsHexAddress`: forty hexadecimal digits, with or without a prefix. */
  predicate IsHexAddress(s: string) {
    var digits := StripHexPrefix(s);
    |digits| == ADDRESS_DIGITS && AllHex(digits)
  }

  /** `common.HexToAddress`, on the strings that are addresses. */
  function HexToAddress(s: string): (address: seq<Byte>)
    requires IsHexAddress(s)
    ensures |address| == 20
  {
    Decode(StripHexPrefix(s))
  }

  /** `strings.ToLower(address.Hex())`: lowering removes the checksum's letter case. */
  function LowerAddress(address: seq<Byte>): (s: string)
    ensures |s| == 2 + 2 * |address|
  {
    "0x" + Encode(address)
  }

  /** The signer's form of a prefixed address is the API's: the string in lower case. */
  lemma LowerAddressAgrees(s: string)
    requires HasHexPrefix(s) && IsHexAddress(s)
    ensures LowerAddress(HexToAddress(s)) == Lower(s)
  {
    EncodeDecode(s[2..]);
    assert Lower(s) == "0x" + Lower(s[2..]);
  }
}
