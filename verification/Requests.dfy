/** What a client asks for, what the DTO layer lets through, and the idempotency key.
    The key is a SHA-256 digest; the hash is taken as injective, so the preimage stands
    for the key. */
module Requests {
  import opened Text
  import Decimal

  datatype SignRequest = SignRequest(chainId: nat, to: string, value: string, data: string)

  const VALUE_MAX_DIGITS := 78
  const DATA_MAX_BYTES := 32 * 1024

  /** The address validator matches without regard to letter case, so the prefix may be "0X". */
  predicate IsEthereumAddress(s: string) {
    |s| == 42 && s[0] == '0' && (s[1] == 'x' || s[1] == 'X') && AllHex(s[2..])
  }

  predicate IsHexData(s: string) {
    |s| >= 2 && HasPrefix(s, "0x") && AllHex(s[2..]) && |s| % 2 == 0
  }

  /** The validators of `TxFieldsDto`. */
  predicate DtoValid(req: SignRequest) {
    && 1 <= req.chainId <= 99999999
    && IsEthereumAddress(req.to)
    && Decimal.Canonical(req.value) && |req.value| <= VALUE_MAX_DIGITS
    && IsHexData(req.data) && |req.data| <= 2 + DATA_MAX_BYTES * 2
  }

  predicate WalletIdValid(walletId: string) {
    ':' !in walletId
  }

  function Preimage(walletId: string, req: SignRequest): string {
    Join([walletId, Decimal.Print(req.chainId), req.to, req.value, req.data], ':')
  }

  lemma FieldsColonFree(walletId: string, req: SignRequest)
    requires WalletIdValid(walletId) && DtoValid(req)
    ensures forall p :: p in [walletId, Decimal.Print(req.chainId), req.to, req.value, req.data] ==> ':' !in p
  {
    Decimal.PrintCanonical(req.chainId);
    HexColonFree(req.to);
    HexColonFree(req.data);
  }

  lemma HexColonFree(s: string)
    requires |s| >= 2 && s[0] == '0' && (s[1] == 'x' || s[1] == 'X') && AllHex(s[2..])
    ensures ':' !in s
  {
    forall i | 0 <= i < |s|
      ensures s[i] != ':'
    {
      if i >= 2 {
        assert IsHexChar(s[2..][i - 2]);
      }
    }
  }

  /** Equal keys mean equal requests: the key determines wallet, chain, destination,
      value and calldata, and nothing else enters it. */
  lemma PreimageInjective(w1: string, r1: SignRequest, w2: string, r2: SignRequest)
    requires WalletIdValid(w1) && DtoValid(r1) && WalletIdValid(w2) && DtoValid(r2)
    ensures Preimage(w1, r1) == Preimage(w2, r2) <==> w1 == w2 && r1 == r2
  {
    var p1 := [w1, Decimal.Print(r1.chainId), r1.to, r1.value, r1.data];
    var p2 := [w2, Decimal.Print(r2.chainId), r2.to, r2.value, r2.data];
    FieldsColonFree(w1, r1);
    FieldsColonFree(w2, r2);
    SplitJoin(p1, ':');
    SplitJoin(p2, ':');
    if Preimage(w1, r1) == Preimage(w2, r2) {
      assert p1 == p2;
      assert p1[0] == p2[0] && p1[1] == p2[1] && p1[2] == p2[2] && p1[3] == p2[3] && p1[4] == p2[4];
      Decimal.PrintInjective(r1.chainId, r2.chainId);
    }
  }
}
