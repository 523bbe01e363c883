/** BIP-44 derivation paths: printed by HandleDeriveWallet and by onboarding, read back by
    parseDerivIndex when a transaction is signed. */
module Derivation {
  import opened Base
  import opened Text
  import opened Decimal

  const UINT32_LIMIT := 0x1_0000_0000
  const PATH_PREFIX := "m/44'/60'/0'/0/"

  /** fmt.Sprintf("m/44'/60'/0'/0/%d", index) */
  function Path(index: nat): string {
    PATH_PREFIX + Print(index)
  }

  /** parseDerivIndex: six parts, a fixed prefix, and a 32-bit decimal index. */
  function ParseIndex(path: string): Option<nat> {
    var parts := Split(path, '/');
    if |parts| != 6 || parts[0] != "m" || parts[1] != "44'" || parts[2] != "60'" || parts[3] != "0'" || parts[4] != "0"
        then None
    else ParseUint(parts[5], UINT32_LIMIT)
  }

  function PathParts(last: string): seq<string> {
    ["m", "44'", "60'", "0'", "0", last]
  }

  lemma PathIsJoin(last: string)
    ensures Join(PathParts(last), '/') == PATH_PREFIX + last
  {
    var parts := PathParts(last);
    assert parts[1..] == ["44'", "60'", "0'", "0", last];
    assert parts[1..][1..] == ["60'", "0'", "0", last];
    assert parts[1..][1..][1..] == ["0'", "0", last];
    assert parts[1..][1..][1..][1..] == ["0", last];
    assert parts[1..][1..][1..][1..][1..] == [last];
    assert Join([last], '/') == last;
    assert Join(["0", last], '/') == "0/" + last;
    assert Join(["0'", "0", last], '/') == "0'/0/" + last;
    assert Join(["60'", "0'", "0", last], '/') == "60'/0'/0/" + last;
    assert Join(["44'", "60'", "0'", "0", last], '/') == "44'/60'/0'/0/" + last;
  }

  lemma DigitsSlashFree(s: string)
    requires AllDigits(s)
    ensures '/' !in s
  {
  }

  /** A nonempty string of digits, leading zeros included, that denotes the number. */
  predicate IsNumeral(digits: string, n: nat) {
    digits != "" && AllDigits(digits) && Value(digits) == n
  }

  /** The parser accepts exactly the fixed prefix followed by a nonempty digit string, leading
      zeros included, that denotes a number below 2^32, and returns that number. */
  lemma ParsesExactly(path: string, index: nat)
    ensures ParseIndex(path) == Some(index)
            <==> exists digits :: path == PATH_PREFIX + digits && IsNumeral(digits, index) && index < UINT32_LIMIT
  {
    if ParseIndex(path) == Some(index) {
      var parts := Split(path, '/');
      JoinSplit(path, '/');
      assert parts == PathParts(parts[5]);
      PathIsJoin(parts[5]);
      assert path == PATH_PREFIX + parts[5];
    }
    if digits :| path == PATH_PREFIX + digits && IsNumeral(digits, index) && index < UINT32_LIMIT {
      DigitsSlashFree(digits);
      PathIsJoin(digits);
      SplitJoin(PathParts(digits), '/');
    }
  }

  /** Reading a printed path gives the index back, for every 32-bit index. */
  lemma PathRoundTrip(index: nat)
    requires index < UINT32_LIMIT
    ensures ParseIndex(Path(index)) == Some(index)
  {
    PrintCanonical(index);
    ValuePrint(index);
    assert Path(index) == PATH_PREFIX + Print(index);
    ParsesExactly(Path(index), index);
  }

  /** Distinct indices have distinct paths, so the unique index on the path is one on the
      derivation index. */
  lemma PathInjective(i: nat, j: nat)
    ensures Path(i) == Path(j) <==> i == j
  {
    if Path(i) == Path(j) {
      assert Path(i)[|PATH_PREFIX|..] == Print(i);
      assert Path(j)[|PATH_PREFIX|..] == Print(j);
      PrintInjective(i, j);
    }
  }

  /** The path onboarding stores literally is the one of index zero. */
  lemma OnboardingPath()
    ensures Path(0) == "m/44'/60'/0'/0/0"
  {
  }
}
