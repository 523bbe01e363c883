/** cmd/crypto/limits.go: reading the signer's limits from its environment, and the checks
    every transaction passes before key material is touched. */
module SignerLimits {
  import opened Base
  import opened Text
  import opened Hex
  import opened Decimal
  import Signer

  const UINT64_LIMIT: nat := 0x1_0000_0000_0000_0000
  const INT64_LIMIT: nat := 0x8000_0000_0000_0000
  const DEFAULT_MAX_GAS: nat := 1_000_000

  datatype Limits = Limits(
    maxValue: nat, chainIds: set<nat>, destinations: set<string>, selectors: set<string>,
    allowCreation: bool, allowHashSigning: bool, maxGas: nat)

  /** The environment variables; an unset one is the empty string. */
  datatype Environment = Environment(
    maxValue: string, chainIds: string, destinations: string, selectors: string,
    allowCreation: string, allowHashSigning: string, maxGas: string)

  // -------------------------------------------------------------------------
  // Lists
  // -------------------------------------------------------------------------

  predicate IsSpace(c: char) {
    c == ' ' || '\t' <= c <= '\r' || c == '\U{85}' || c == '\U{A0}'
  }

  function TrimLeft(s: string): (t: string)
    ensures t == "" || !IsSpace(t[0])
  {
    if s != "" && IsSpace(s[0]) then TrimLeft(s[1..]) else s
  }

  function TrimRight(s: string): (t: string)
    ensures t <= s
    ensures t == "" || !IsSpace(t[|t| - 1])
  {
    if s == "" || !IsSpace(s[|s| - 1]) then s else TrimRight(s[..|s| - 1])
  }

  function TrimSpace(s: string): (t: string)
    ensures t == "" || (!IsSpace(t[0]) && !IsSpace(t[|t| - 1]))
  {
    TrimRight(TrimLeft(s))
  }

  predicate Trimmed(s: string) {
    s == "" || (!IsSpace(s[0]) && !IsSpace(s[|s| - 1]))
  }

  lemma TrimTrimmed(s: string)
    requires Trimmed(s)
    ensures TrimSpace(s) == s
  {
  }

  lemma {:induction false} BlankIsSpaces(s: string)
    requires TrimSpace(s) == ""
    ensures forall i :: 0 <= i < |s| ==> IsSpace(s[i])
  {
    if s != "" && IsSpace(s[0]) {
      BlankIsSpaces(s[1..]);
      assert forall i :: 1 <= i < |s| ==> s[i] == s[1..][i - 1];
    } else if s != "" {
      TrimKeepsFirst(s);
    }
  }

  lemma {:induction false} TrimKeepsFirst(s: string)
    requires s != "" && !IsSpace(s[0])
    ensures TrimRight(s) != ""
  {
    if IsSpace(s[|s| - 1]) {
      TrimKeepsFirst(s[..|s| - 1]);
    }
  }

  /** The trimmed pieces that are not blank. */
  function NonBlank(parts: seq<string>): (kept: seq<string>)
    ensures forall e :: e in kept ==> e != "" && Trimmed(e)
  {
    if parts == [] then []
    else
      var last := TrimSpace(parts[|parts| - 1]);
      NonBlank(parts[..|parts| - 1]) + (if last != "" then [last] else [])
  }

  /** The entries of a comma-separated list. */
  function Entries(raw: string): seq<string> {
    NonBlank(Split(raw, ','))
  }

  /** `splitList`. The early return for a blank list agrees with the loop. */
  method SplitList(raw: string) returns (entries: seq<string>)
    ensures entries == Entries(raw)
  {
    entries := [];
    if TrimSpace(raw) == "" {
      BlankList(raw);
      return;
    }
    hide TrimSpace;
    var parts := Split(raw, ',');
    for i := 0 to |parts|
      invariant entries == NonBlank(parts[..i])
    {
      assert parts[..i + 1][..i] == parts[..i];
      var trimmed := TrimSpace(parts[i]);
      if trimmed != "" {
        entries := entries + [trimmed];
      }
    }
    assert parts[..|parts|] == parts;
  }

  lemma BlankList(raw: string)
    requires TrimSpace(raw) == ""
    ensures Entries(raw) == []
  {
    BlankIsSpaces(raw);
    SplitPiece(raw, ',');
    assert [raw][..0] == [];
  }

  /** A list written with commas reads back as the entries it was written from. */
  lemma {:induction false} EntriesOfJoin(entries: seq<string>)
    requires entries != []
    requires forall e :: e in entries ==> e != "" && Trimmed(e) && ',' !in e
    ensures Entries(Join(entries, ',')) == entries
  {
    SplitJoin(entries, ',');
    NonBlankOfTrimmed(entries);
  }

  lemma {:induction false} NonBlankOfTrimmed(entries: seq<string>)
    requires forall e :: e in entries ==> e != "" && Trimmed(e)
    ensures NonBlank(entries) == entries
  {
    if entries != [] {
      var front := entries[..|entries| - 1];
      assert forall e :: e in front ==> e in entries;
      NonBlankOfTrimmed(front);
      TrimTrimmed(entries[|entries| - 1]);
      hide TrimSpace, Trimmed;
      assert NonBlank(entries) == front + [entries[|entries| - 1]];
    }
  }

  // -------------------------------------------------------------------------
  // Entries
  // -------------------------------------------------------------------------

  datatype SelectorEntry = SelectorEntry(to: seq<Byte>, selector: string)

  /** `parseSelectorEntry`: an address, a colon, and a four-byte selector. */
  function ParseSelectorEntry(entry: string): (parsed: Option<SelectorEntry>)
    ensures parsed.Some? ==> |parsed.value.to| == 20
  {
    var parts := Split(entry, ':');
    if |parts| != 2 || !IsHexAddress(parts[0]) then None
    else
      var selector := Lower(TrimSpace(parts[1]));
      if |selector| != 10 || !HasPrefix(selector, "0x") then None
      else if DecodeString(TrimPrefix(selector, "0x")).None? then None
      else Some(SelectorEntry(HexToAddress(parts[0]), selector))
  }

  function SelectorKey(to: seq<Byte>, selector: string): string {
    LowerAddress(to) + ":" + Lower(selector)
  }

  /** Keys are as good as pairs: twenty bytes and a selector can be read back from one. */
  lemma SelectorKeyInjective(a: seq<Byte>, s: string, b: seq<Byte>, t: string)
    requires |a| == 20 == |b|
    ensures SelectorKey(a, s) == SelectorKey(b, t) <==> a == b && Lower(s) == Lower(t)
  {
    if SelectorKey(a, s) == SelectorKey(b, t) {
      assert LowerAddress(a) == SelectorKey(a, s)[..42] == LowerAddress(b);
      assert Encode(a) == LowerAddress(a)[2..] == LowerAddress(b)[2..] == Encode(b);
      assert Lower(s) == SelectorKey(a, s)[43..] == Lower(t);
      DecodeEncode(a);
      DecodeEncode(b);
    }
  }

  predicate AllUints(entries: seq<string>) {
    forall i :: 0 <= i < |entries| ==> ParseUint(entries[i], UINT64_LIMIT).Some?
  }

  predicate AllAddresses(entries: seq<string>) {
    forall i :: 0 <= i < |entries| ==> IsHexAddress(entries[i])
  }

  predicate AllSelectors(entries: seq<string>) {
    forall i :: 0 <= i < |entries| ==> ParseSelectorEntry(entries[i]).Some?
  }

  predicate NamesChain(entry: string, chain: nat) {
    ParseUint(entry, UINT64_LIMIT) == Some(chain)
  }

  predicate NamesAddress(entry: string, key: string) {
    IsHexAddress(entry) && key == LowerAddress(HexToAddress(entry))
  }

  predicate NamesSelector(entry: string, key: string) {
    var parsed := ParseSelectorEntry(entry);
    parsed.Some? && key == SelectorKey(parsed.value.to, parsed.value.selector)
  }

  /** A set holds what the entries name, and nothing else. */
  ghost predicate NamedBy<T(!new)>(entries: seq<string>, found: set<T>, names: (string, T) -> bool) {
    forall k :: k in found <==> exists e :: e in entries && names(e, k)
  }

  lemma NamedByGrows<T(!new)>(entries: seq<string>, i: nat, found: set<T>, added: T, names: (string, T) -> bool)
    requires i < |entries| && NamedBy(entries[..i], found, names)
    requires forall k :: names(entries[i], k) <==> k == added
    ensures NamedBy(entries[..i + 1], found + {added}, names)
  {
    var longer := entries[..i + 1];
    assert longer == entries[..i] + [entries[i]];
    assert entries[i] in longer;
    assert forall e :: e in longer <==> e in entries[..i] || e == entries[i];
    forall k | k in found + {added}
      ensures exists e :: e in longer && names(e, k)
    {
      if k != added {
        var e :| e in entries[..i] && names(e, k);
        assert e in longer;
      } else {
        assert names(entries[i], k);
      }
    }
  }

  lemma NamedByNone<T(!new)>(names: (string, T) -> bool)
    ensures NamedBy([], {}, names)
  {
  }

  /** `parseUintSet`. */
  method ParseUintSet(raw: string) returns (chains: Option<set<nat>>)
    ensures chains.Some? <==> AllUints(Entries(raw))
    ensures chains.Some? ==> NamedBy(Entries(raw), chains.value, NamesChain)
  {
    hide ParseUint, NamedBy;
    var entries := SplitList(raw);
    var found: set<nat> := {};
    NamedByNone(NamesChain);
    for i := 0 to |entries|
      invariant forall k :: 0 <= k < i ==> ParseUint(entries[k], UINT64_LIMIT).Some?
      invariant NamedBy(entries[..i], found, NamesChain)
    {
      var value := ParseUint(entries[i], UINT64_LIMIT);
      if value.None? {
        return None;
      }
      NamedByGrows(entries, i, found, value.value, NamesChain);
      found := found + {value.value};
    }
    assert entries[..|entries|] == entries;
    return Some(found);
  }

  method ParseAddressSet(raw: string) returns (keys: Option<set<string>>)
    ensures keys.Some? <==> AllAddresses(Entries(raw))
    ensures keys.Some? ==> NamedBy(Entries(raw), keys.value, NamesAddress)
  {
    hide IsHexAddress, HexToAddress, LowerAddress, NamedBy;
    var entries := SplitList(raw);
    var found: set<string> := {};
    NamedByNone(NamesAddress);
    for i := 0 to |entries|
      invariant forall k :: 0 <= k < i ==> IsHexAddress(entries[k])
      invariant NamedBy(entries[..i], found, NamesAddress)
    {
      if !IsHexAddress(entries[i]) {
        return None;
      }
      NamedByGrows(entries, i, found, LowerAddress(HexToAddress(entries[i])), NamesAddress);
      found := found + {LowerAddress(HexToAddress(entries[i]))};
    }
    assert entries[..|entries|] == entries;
    return Some(found);
  }

  method ParseSelectorSet(raw: string) returns (keys: Option<set<string>>)
    ensures keys.Some? <==> AllSelectors(Entries(raw))
    ensures keys.Some? ==> NamedBy(Entries(raw), keys.value, NamesSelector)
  {
    hide ParseSelectorEntry, SelectorKey, NamedBy;
    var entries := SplitList(raw);
    var found: set<string> := {};
    NamedByNone(NamesSelector);
    for i := 0 to |entries|
      invariant forall k :: 0 <= k < i ==> ParseSelectorEntry(entries[k]).Some?
      invariant NamedBy(entries[..i], found, NamesSelector)
    {
      var parsed := ParseSelectorEntry(entries[i]);
      if parsed.None? {
        return None;
      }
      NamedByGrows(entries, i, found, SelectorKey(parsed.value.to, parsed.value.selector), NamesSelector);
      found := found + {SelectorKey(parsed.value.to, parsed.value.selector)};
    }
    assert entries[..|entries|] == entries;
    return Some(found);
  }

  // -------------------------------------------------------------------------
  // Loading
  // -------------------------------------------------------------------------

  /** `strconv.ParseBool`, and the fallback for a blank variable. */
  function EnvBool(raw: string, fallback: bool): Option<bool> {
    var text := TrimSpace(raw);
    if text == "" then Some(fallback)
    else if text in ["1", "t", "T", "TRUE", "true", "True"] then Some(true)
    else if text in ["0", "f", "F", "FALSE", "false", "False"] then Some(false)
    else None
  }

  function MaxValue(raw: string): Option<nat> {
    var text := if TrimSpace(raw) == "" then "0" else TrimSpace(raw);
    if |text| > Signer.MAX_DECIMAL_DIGITS then None
    else
      match SetString(text)
      case None => None
      case Some(n) => if n < 0 then None else Some(n as nat)
  }

  function MaxGas(raw: string): Option<nat> {
    var text := TrimSpace(raw);
    if text == "" then Some(DEFAULT_MAX_GAS) else ParseUint(text, UINT64_LIMIT)
  }

  predicate EnvironmentValid(env: Environment) {
    && MaxValue(env.maxValue).Some? && MaxGas(env.maxGas).Some?
    && AllUints(Entries(env.chainIds)) && AllAddresses(Entries(env.destinations))
        && AllSelectors(Entries(env.selectors))
    && EnvBool(env.allowCreation, false).Some? && EnvBool(env.allowHashSigning, false).Some?
  }

  ghost predicate LimitsFrom(env: Environment, limits: Limits) {
    && MaxValue(env.maxValue) == Some(limits.maxValue) && MaxGas(env.maxGas) == Some(limits.maxGas)
    && NamedBy(Entries(env.chainIds), limits.chainIds, NamesChain)
    && NamedBy(Entries(env.destinations), limits.destinations, NamesAddress)
    && NamedBy(Entries(env.selectors), limits.selectors, NamesSelector)
    && EnvBool(env.allowCreation, false) == Some(limits.allowCreation)
    && EnvBool(env.allowHashSigning, false) == Some(limits.allowHashSigning)
  }

  /** `loadSignerLimits`: all or nothing. */
  method LoadSignerLimits(env: Environment) returns (limits: Option<Limits>)
    ensures limits.Some? <==> EnvironmentValid(env)
    ensures limits.Some? ==> LimitsFrom(env, limits.value)
  {
    hide AllUints, AllAddresses, AllSelectors, NamedBy, MaxValue, MaxGas, EnvBool, Entries;
    var maxValue := MaxValue(env.maxValue);
    if maxValue.None? {
      return None;
    }
    var chainIds := ParseUintSet(env.chainIds);
    if chainIds.None? {
      return None;
    }
    var destinations := ParseAddressSet(env.destinations);
    if destinations.None? {
      return None;
    }
    var selectors := ParseSelectorSet(env.selectors);
    if selectors.None? {
      return None;
    }
    var allowCreation := EnvBool(env.allowCreation, false);
    if allowCreation.None? {
      return None;
    }
    var allowHashSigning := EnvBool(env.allowHashSigning, false);
    if allowHashSigning.None? {
      return None;
    }
    var maxGas := MaxGas(env.maxGas);
    if maxGas.None? {
      return None;
    }
    return Some(Limits(maxValue.value, chainIds.value, destinations.value, selectors.value,
                       allowCreation.value, allowHashSigning.value, maxGas.value));
  }

  /** The environment determines the limits. */
  lemma LimitsUnique(env: Environment, l1: Limits, l2: Limits)
    requires LimitsFrom(env, l1) && LimitsFrom(env, l2)
    ensures l1 == l2
  {
    hide ParseUint, NamesAddress, NamesSelector, Entries;
    assert l1.chainIds == l2.chainIds;
    assert l1.destinations == l2.destinations;
    assert l1.selectors == l2.selectors;
  }

  // -------------------------------------------------------------------------
  // The checks
  // -------------------------------------------------------------------------

  datatype LimitRefusal =
    | ValueOverLimit
    | ChainNotAllowed
    | GasOverLimit
    | CreationNotAllowed
    | DestinationNotAllowed
    | CalldataOnCreation
    | SelectorNotAllowed

  /** Transactions as `parseTxFields` hands them over. */
  predicate Wellformed(tx: Signer.TxFields) {
    tx.to == "" || IsHexAddress(tx.to)
  }

  function CheckCalldata(limits: Limits, tx: Signer.TxFields): Option<LimitRefusal>
    requires Wellformed(tx)
  {
    if |tx.data| == 0 then None
    else if tx.to == "" then Some(CalldataOnCreation)
    else if limits.selectors == {} || |tx.data| < 4 then Some(SelectorNotAllowed)
    else if SelectorKey(HexToAddress(tx.to), "0x" + Encode(tx.data[..4])) !in limits.selectors
        then Some(SelectorNotAllowed)
    else None
  }

  function CheckDestination(limits: Limits, tx: Signer.TxFields): Option<LimitRefusal>
    requires Wellformed(tx)
  {
    if tx.to == "" then
      if limits.allowCreation then None else Some(CreationNotAllowed)
    else if limits.destinations != {} && LowerAddress(HexToAddress(tx.to)) !in limits.destinations
        then Some(DestinationNotAllowed)
    else None
  }

  /** `validateSignTxLimits`: the first check that fails. */
  function ValidateSignTxLimits(limits: Limits, tx: Signer.TxFields): Option<LimitRefusal>
    requires Wellformed(tx)
  {
    if tx.value > limits.maxValue then Some(ValueOverLimit)
    else if limits.chainIds != {} && (tx.chainId >= INT64_LIMIT || tx.chainId !in limits.chainIds)
        then Some(ChainNotAllowed)
    else if tx.gasLimit > limits.maxGas then Some(GasOverLimit)
    else if CheckDestination(limits, tx).Some? then CheckDestination(limits, tx)
    else CheckCalldata(limits, tx)
  }

  /** A signer started without configuration signs calls that move nothing: no value, no
      calldata, a destination, and gas within the default. */
  lemma DefaultsFailClosed(limits: Limits, tx: Signer.TxFields)
    requires LimitsFrom(Environment("", "", "", "", "", "", ""), limits) && Wellformed(tx)
    ensures ValidateSignTxLimits(limits, tx).None? <==>
            tx.value <= 0 && tx.gasLimit <= DEFAULT_MAX_GAS && tx.to != "" && tx.data == []
    ensures !limits.allowHashSigning
  {
    hide IsHexAddress, HexToAddress, LowerAddress, Encode, ParseSelectorEntry, SelectorKey, ParseUint;
    EmptyList();
    assert limits.chainIds == {} && limits.destinations == {} && limits.selectors == {};
    ZeroText();
  }

  lemma EmptyList()
    ensures Entries("") == []
  {
    assert Split("", ',') == [""];
    assert NonBlank([""][..0]) == [];
  }

  lemma ZeroText()
    ensures MaxValue("") == Some(0)
  {
    ValuePrint(0);
    assert Print(0) == "0";
  }

  // -------------------------------------------------------------------------
  // From the environment to the verdict
  // -------------------------------------------------------------------------

  /** Two addresses are the same, whatever their prefix and letter case. */
  predicate SameAddress(a: string, b: string) {
    IsHexAddress(a) && IsHexAddress(b) && Lower(StripHexPrefix(a)) == Lower(StripHexPrefix(b))
  }

  lemma KeysAreAddresses(entry: string, to: string)
    requires IsHexAddress(to)
    ensures NamesAddress(entry, LowerAddress(HexToAddress(to))) <==> SameAddress(entry, to)
  {
    EncodeDecode(StripHexPrefix(to));
    if IsHexAddress(entry) {
      EncodeDecode(StripHexPrefix(entry));
      assert LowerAddress(HexToAddress(to))[2..] == Encode(HexToAddress(to));
      assert LowerAddress(HexToAddress(entry))[2..] == Encode(HexToAddress(entry));
    }
  }

  /** The entry names the destination and the first four bytes of the calldata. */
  predicate NamesCall(entry: string, tx: Signer.TxFields)
    requires |tx.data| >= 4
  {
    var parsed := ParseSelectorEntry(entry);
    && parsed.Some? && IsHexAddress(tx.to) && parsed.value.to == HexToAddress(tx.to)
    && Lower(parsed.value.selector) == "0x" + Encode(tx.data[..4])
  }

  lemma KeysAreCalls(entry: string, tx: Signer.TxFields)
    requires IsHexAddress(tx.to) && |tx.data| >= 4
    ensures NamesSelector(entry, SelectorKey(HexToAddress(tx.to), "0x" + Encode(tx.data[..4]))) <==>
            NamesCall(entry, tx)
  {
    EncodedIsLower(tx.data[..4]);
    var parsed := ParseSelectorEntry(entry);
    if parsed.Some? {
      SelectorKeyInjective(parsed.value.to, parsed.value.selector, HexToAddress(tx.to), "0x" + Encode(tx.data[..4]));
    }
    hide ParseSelectorEntry, SelectorKey, Encode, HexToAddress, IsHexAddress;
  }

  lemma {:induction false} EncodedIsLower(bytes: seq<Byte>)
    ensures Lower("0x" + Encode(bytes)) == "0x" + Encode(bytes)
  {
    if bytes != [] {
      EncodedIsLower(bytes[1..]);
      var rest := Encode(bytes[1..]);
      assert Encode(bytes) == [NibbleChar(bytes[0] / 16), NibbleChar(bytes[0] % 16)] + rest;
      assert forall i :: 0 <= i < |rest| ==> ("0x" + rest)[i + 2] == rest[i];
      assert forall i :: 0 <= i < |rest| ==> LowerChar(rest[i]) == rest[i];
    }
  }

  /** The chain is one of those the variable names, or it names none. */
  ghost predicate ChainListed(env: Environment, chain: nat) {
    Entries(env.chainIds) == []
    || (chain < INT64_LIMIT && exists e :: e in Entries(env.chainIds) && ParseUint(e, UINT64_LIMIT) == Some(chain))
  }

  ghost predicate DestinationListed(env: Environment, to: string) {
    Entries(env.destinations) == [] || exists e :: e in Entries(env.destinations) && SameAddress(e, to)
  }

  ghost predicate CallListed(env: Environment, tx: Signer.TxFields) {
    |tx.data| >= 4 && exists e :: e in Entries(env.selectors) && NamesCall(e, tx)
  }

  /** A switch is on when its trimmed text says so, and not otherwise. */
  predicate IsOn(raw: string) {
    TrimSpace(raw) in {"1", "t", "T", "true", "TRUE", "True"}
  }

  /** The two switches of a signer that has started: blank is off, and any other text than the
      twelve that are known keeps it from starting. */
  lemma SwitchesExactly(env: Environment, limits: Limits)
    ensures LimitsFrom(env, limits) ==>
              limits.allowCreation == IsOn(env.allowCreation) && limits.allowHashSigning == IsOn(env.allowHashSigning)
    ensures EnvironmentValid(env) ==> forall raw :: raw in [env.allowCreation, env.allowHashSigning] ==>
              IsOn(raw) || TrimSpace(raw) in {"", "0", "f", "F", "false", "FALSE", "False"}
  {
    hide TrimSpace, NamedBy, MaxValue, MaxGas, AllUints, AllAddresses, AllSelectors;
  }

  /** What the environment lets a transaction be. */
  ghost predicate Permitted(env: Environment, tx: Signer.TxFields) {
    && MaxValue(env.maxValue).Some? && tx.value <= MaxValue(env.maxValue).value
    && MaxGas(env.maxGas).Some? && tx.gasLimit <= MaxGas(env.maxGas).value
    && ChainListed(env, tx.chainId)
    && (if tx.to == "" then IsOn(env.allowCreation) && tx.data == []
        else DestinationListed(env, tx.to) && (tx.data == [] || CallListed(env, tx)))
  }

  /** For every configured signer: a transaction passes exactly when the environment permits it. */
  lemma PassesExactly(env: Environment, limits: Limits, tx: Signer.TxFields)
    requires EnvironmentValid(env) && LimitsFrom(env, limits) && Wellformed(tx)
    ensures ValidateSignTxLimits(limits, tx).None? <==> Permitted(env, tx)
  {
    hide Entries, ParseUint, IsHexAddress, NamesAddress, NamesSelector, MaxValue, MaxGas, EnvBool, IsOn,
        ParseSelectorEntry,
        SelectorKey, HexToAddress, LowerAddress, Encode, SameAddress, NamesCall;
    SwitchesExactly(env, limits);
    ChainsPass(env, limits, tx.chainId);
    if tx.to != "" {
      DestinationsPass(env, limits, tx.to);
      CallsPass(env, limits, tx);
    }
    hide ChainListed, DestinationListed, CallListed, NamedBy, EnvironmentValid;
  }

  lemma ChainsPass(env: Environment, limits: Limits, chain: nat)
    requires AllUints(Entries(env.chainIds)) && NamedBy(Entries(env.chainIds), limits.chainIds, NamesChain)
    ensures limits.chainIds == {} || (chain < INT64_LIMIT && chain in limits.chainIds) <==> ChainListed(env, chain)
  {
    hide Entries, ParseUint;
    var entries := Entries(env.chainIds);
    if entries != [] {
      assert entries[0] in entries && NamesChain(entries[0], ParseUint(entries[0], UINT64_LIMIT).value);
      assert ParseUint(entries[0], UINT64_LIMIT).value in limits.chainIds;
    } else {
      assert limits.chainIds == {};
    }
    assert chain in limits.chainIds <==> exists e :: e in entries && NamesChain(e, chain);
  }

  lemma DestinationsPass(env: Environment, limits: Limits, to: string)
    requires AllAddresses(Entries(env.destinations)) && IsHexAddress(to)
    requires NamedBy(Entries(env.destinations), limits.destinations, NamesAddress)
    ensures limits.destinations == {} || LowerAddress(HexToAddress(to)) in limits.destinations <==>
              DestinationListed(env, to)
  {
    var entries := Entries(env.destinations);
    hide Entries, HexToAddress, LowerAddress, IsHexAddress, SameAddress;
    if entries != [] {
      assert entries[0] in entries && NamesAddress(entries[0], LowerAddress(HexToAddress(entries[0])));
      assert LowerAddress(HexToAddress(entries[0])) in limits.destinations;
    } else {
      assert limits.destinations == {};
    }
    forall e | e in entries
      ensures NamesAddress(e, LowerAddress(HexToAddress(to))) <==> SameAddress(e, to)
    {
      KeysAreAddresses(e, to);
    }
    hide NamesAddress;
  }

  lemma CallsPass(env: Environment, limits: Limits, tx: Signer.TxFields)
    requires NamedBy(Entries(env.selectors), limits.selectors, NamesSelector) && IsHexAddress(tx.to)
    ensures |tx.data| >= 4 && SelectorKey(HexToAddress(tx.to), "0x" + Encode(tx.data[..4])) in limits.selectors <==>
              CallListed(env, tx)
  {
    hide Entries, HexToAddress, IsHexAddress, NamesSelector, NamesCall, SelectorKey, Encode;
    if |tx.data| >= 4 {
      forall e | e in Entries(env.selectors)
        ensures NamesSelector(e, SelectorKey(HexToAddress(tx.to), "0x" + Encode(tx.data[..4]))) <==> NamesCall(e, tx)
      {
        KeysAreCalls(e, tx);
      }
    }
  }

  // -------------------------------------------------------------------------
  // The numbers of the environment
  // -------------------------------------------------------------------------

  /** A number written as the service prints numbers is read as that number, up to the digits the
      signer takes; a blank variable is the default. */
  lemma {:induction false} NumbersAreRead(n: nat)
    ensures MaxValue(Print(n)) == if n < Pow10(78) then Some(n) else None
    ensures MaxGas(Print(n)) == if n < 0x1_0000_0000_0000_0000 then Some(n) else None
    ensures MaxValue("") == Some(0) && MaxGas("") == Some(1_000_000)
  {
    PrintCanonical(n);
    ValuePrint(n);
    PrintTrimmed(n);
    PrintLength(n, 78);
    Signer.SetStringPrint(n);
    ZeroText();
    hide Print, SetString, Canonical, TrimSpace;
  }

  lemma {:induction false} PrintTrimmed(n: nat)
    ensures Print(n) != "" && TrimSpace(Print(n)) == Print(n)
  {
    PrintCanonical(n);
    TrimTrimmed(Print(n));
  }
}
