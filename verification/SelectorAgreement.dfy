/** The calldata allowlist is enforced twice: by the API's policy, which compares strings,
    and by the signer, which decodes and re-encodes bytes. For one list of entries, written
    in any letter case on either side, the two decide alike on every calldata of at least
    four bytes; they part exactly on one to three bytes. */
module SelectorAgreement {
  import opened Base
  import opened Decimal
  import opened Text
  import opened Hex
  import opened Requests
  import opened Policy
  import opened SignerLimits
  import opened Signer
  import Fees

  /** An allowlist entry as an operator writes it. */
  datatype Entry = Entry(to: string, selector: string)

  /** Both sides take the entry: an address with its prefix, and a four-byte selector. */
  predicate EntryValid(e: Entry) {
    |e.to| == 42 && HasPrefix(e.to, "0x") && AllHex(e.to[2..]) && IsSelector(e.selector)
  }

  function ToJson(e: Entry): (j: Json)
    ensures IsEntry(j)
  {
    Obj(map["to" := Str(e.to), "selector" := Str(e.selector)])
  }

  /** The policy's rule configuration. */
  function ApiConfig(entries: seq<Entry>): Json {
    Obj(map["entries" := Arr(seq(|entries|, i requires 0 <= i < |entries| => ToJson(entries[i])))])
  }

  function Render(e: Entry): string {
    e.to + ":" + e.selector
  }

  function RenderAll(entries: seq<Entry>): (texts: seq<string>)
    ensures |texts| == |entries| && forall i :: 0 <= i < |entries| ==> texts[i] == Render(entries[i])
  {
    seq(|entries|, i requires 0 <= i < |entries| => Render(entries[i]))
  }

  /** The signer's environment variable. */
  function SignerText(entries: seq<Entry>): string {
    if entries == [] then "" else Join(RenderAll(entries), ',')
  }

  predicate SameEntry(a: Entry, b: Entry) {
    Lower(a.to) == Lower(b.to) && Lower(a.selector) == Lower(b.selector)
  }

  /** The same list, up to letter case. */
  predicate SameEntries(api: seq<Entry>, signer: seq<Entry>) {
    |api| == |signer| && forall i :: 0 <= i < |api| ==> SameEntry(api[i], signer[i])
  }

  predicate Permits(e: Entry, req: SignRequest)
    requires |req.data| >= 10
  {
    Lower(e.to) == Lower(req.to) && Lower(e.selector) == Lower(req.data[..10])
  }

  ghost predicate Listed(entries: seq<Entry>, req: SignRequest)
    requires |req.data| >= 10
  {
    exists i :: 0 <= i < |entries| && Permits(entries[i], req)
  }

  // -------------------------------------------------------------------------
  // The API's side
  // -------------------------------------------------------------------------

  lemma ApiDecision(env: Env, rule: Rule, entries: seq<Entry>, req: SignRequest)
    requires DtoValid(req) && |req.data| >= 10
    requires rule.ruleType == "calldata_allowlist"
    requires ValidateRuleConfig(env, rule.ruleType, ApiConfig(entries)) == Some(rule.config)
    ensures EvaluateRule(env, rule, PayloadOf(req)).Allow? <==> Listed(entries, req)
  {
    var items := ApiConfig(entries).fields["entries"].items;
    var stored := LowerEntries(items);
    assert rule.config["entries"] == Arr(stored);
    var cut := Lower(req.data[..10]);
    LowerTwice(req.data[..10]);
    assert |cut| == 10;
    forall i | 0 <= i < |entries|
      ensures Matches(stored[i], Lower(req.to), Lower(cut)) <==> Permits(entries[i], req)
    {
      assert items[i] == ToJson(entries[i]);
    }
  }

  // -------------------------------------------------------------------------
  // The signer's side
  // -------------------------------------------------------------------------

  lemma RenderedClean(e: Entry)
    requires EntryValid(e)
    ensures Render(e) != "" && Trimmed(Render(e)) && ',' !in Render(e)
    ensures ':' !in e.to && ':' !in e.selector
  {
    HexText(e.to);
    HexText(e.selector);
    assert Render(e)[0] == '0';
    assert Render(e)[|Render(e)| - 1] == e.selector[9];
  }

  lemma HexText(s: string)
    requires |s| >= 2 && HasPrefix(s, "0x") && AllHex(s[2..])
    ensures forall i :: 0 <= i < |s| ==> s[i] == 'x' || IsHexChar(s[i])
    ensures ':' !in s && ',' !in s
  {
    assert s[0] == '0' && s[1] == 'x';
    forall i | 0 <= i < |s|
      ensures s[i] == 'x' || IsHexChar(s[i])
    {
      assert i >= 2 ==> s[i] == s[2..][i - 2];
    }
  }

  function EntryKey(e: Entry): string {
    Lower(e.to) + ":" + Lower(e.selector)
  }

  /** The signer reads a rendered entry as one key: both parts in lower case. */
  lemma RenderedKey(e: Entry, key: string)
    requires EntryValid(e)
    ensures NamesSelector(Render(e), key) <==> key == EntryKey(e)
  {
    RenderedClean(e);
    RenderedSplits(e);
    SelectorReads(e.selector);
    assert HasHexPrefix(e.to) && IsHexAddress(e.to);
    LowerAddressAgrees(e.to);
    LowerTwice(e.selector);
  }

  lemma RenderedSplits(e: Entry)
    requires ':' !in e.to && ':' !in e.selector
    ensures Split(Render(e), ':') == [e.to, e.selector]
  {
    SplitJoin([e.to, e.selector], ':');
    assert Join([e.to, e.selector][1..], ':') == e.selector;
    assert Render(e) == e.to + [':'] + e.selector;
  }

  lemma SelectorReads(selector: string)
    requires IsSelector(selector)
    ensures TrimSpace(selector) == selector
    ensures HasPrefix(Lower(selector), "0x") && DecodeString(TrimPrefix(Lower(selector), "0x")).Some?
  {
    HexText(selector);
    TrimTrimmed(selector);
    LowerSelector(selector);
  }

  lemma KeyInjective(e: Entry, f: Entry)
    requires |e.to| == 42 == |f.to|
    ensures EntryKey(e) == EntryKey(f) <==> SameEntry(e, f)
  {
    if EntryKey(e) == EntryKey(f) {
      assert Lower(e.to) == EntryKey(e)[..42] == Lower(f.to);
      assert Lower(e.selector) == EntryKey(e)[43..] == Lower(f.selector);
    }
  }

  lemma SignerEntries(entries: seq<Entry>)
    requires forall i :: 0 <= i < |entries| ==> EntryValid(entries[i])
    ensures Entries(SignerText(entries)) == RenderAll(entries)
  {
    if entries == [] {
      EmptyList();
    } else {
      var texts := RenderAll(entries);
      forall t | t in texts
        ensures t != "" && Trimmed(t) && ',' !in t
      {
        var i :| 0 <= i < |texts| && texts[i] == t;
        RenderedClean(entries[i]);
      }
      EntriesOfJoin(texts);
    }
  }

  /** Decoding calldata, cutting four bytes and encoding them is cutting ten characters and
      lowering them. */
  lemma SelectorOfBytes(data: string)
    requires IsHexData(data) && |data| >= 10
    ensures EvenHex(data[2..]) && |Decode(data[2..])| >= 4
    ensures "0x" + Encode(Decode(data[2..])[..4]) == Lower(data[..10])
  {
    var digits := data[2..];
    DecodePrefix(digits, 4);
    EncodeDecode(digits[..8]);
    assert digits[..8] == data[2..10];
    assert Lower(data[..10]) == "0x" + Lower(data[2..10]);
  }

  lemma SignerDecision(limits: Limits, entries: seq<Entry>, req: SignRequest, tx: TxFields)
    requires DtoValid(req) && |req.data| >= 10
    requires forall i :: 0 <= i < |entries| ==> EntryValid(entries[i])
    requires NamedBy(Entries(SignerText(entries)), limits.selectors, NamesSelector)
    requires tx.to == req.to && EvenHex(req.data[2..]) && tx.data == Decode(req.data[2..])
    ensures Wellformed(tx)
    ensures CheckCalldata(limits, tx).None? <==> Listed(entries, req)
  {
    var asked := Entry(req.to, req.data[..10]);
    KeyOfRequest(req);
    SignerListed(limits.selectors, entries, req);
    hide EntryKey, Listed, SelectorKey, HexToAddress, IsHexAddress, Decode, Encode, EvenHex;
    hide NamedBy, Entries, SignerText, DtoValid, EntryValid;
    assert CheckCalldata(limits, tx).None? <==> EntryKey(asked) in limits.selectors;
  }

  /** The request's key is among the signer's exactly when an entry permits the request. */
  lemma SignerListed(keys: set<string>, entries: seq<Entry>, req: SignRequest)
    requires DtoValid(req) && |req.data| >= 10
    requires forall i :: 0 <= i < |entries| ==> EntryValid(entries[i])
    requires NamedBy(Entries(SignerText(entries)), keys, NamesSelector)
    ensures EntryKey(Entry(req.to, req.data[..10])) in keys <==> Listed(entries, req)
  {
    var asked := Entry(req.to, req.data[..10]);
    SignerEntries(entries);
    KeyListed(entries, asked, keys);
    hide NamedBy, Entries, SignerText, DtoValid, EntryValid, EntryKey;
    assert forall i :: 0 <= i < |entries| ==> (Permits(entries[i], req) <==> SameEntry(entries[i], asked));
  }

  /** The key the signer looks up is the one the API's strings spell. */
  lemma KeyOfRequest(req: SignRequest)
    requires DtoValid(req) && |req.data| >= 10
    ensures IsHexAddress(req.to) && EvenHex(req.data[2..]) && |Decode(req.data[2..])| >= 4
    ensures SelectorKey(HexToAddress(req.to), "0x" + Encode(Decode(req.data[2..])[..4]))
              == EntryKey(Entry(req.to, req.data[..10]))
  {
    DtoAddress(req.to);
    SelectorOfBytes(req.data);
    LowerAddressAgrees(req.to);
    LowerTwice(req.data[..10]);
  }

  lemma KeyListed(entries: seq<Entry>, asked: Entry, keys: set<string>)
    requires forall i :: 0 <= i < |entries| ==> EntryValid(entries[i])
    requires |asked.to| == 42
    requires NamedBy(RenderAll(entries), keys, NamesSelector)
    ensures EntryKey(asked) in keys <==> exists i :: 0 <= i < |entries| && SameEntry(entries[i], asked)
  {
    var texts := RenderAll(entries);
    hide NamesSelector, EntryKey, SameEntry, Render;
    forall i | 0 <= i < |entries|
      ensures NamesSelector(texts[i], EntryKey(asked)) <==> SameEntry(entries[i], asked)
    {
      RenderedKey(entries[i], EntryKey(asked));
      KeyInjective(entries[i], asked);
    }
    if EntryKey(asked) in keys {
      var t :| t in texts && NamesSelector(t, EntryKey(asked));
      var i :| 0 <= i < |texts| && texts[i] == t;
      assert SameEntry(entries[i], asked);
    }
    if i :| 0 <= i < |entries| && SameEntry(entries[i], asked) {
      assert texts[i] in texts && NamesSelector(texts[i], EntryKey(asked));
    }
  }

  // -------------------------------------------------------------------------
  // Agreement
  // -------------------------------------------------------------------------

  lemma ListedIgnoresCase(api: seq<Entry>, signer: seq<Entry>, req: SignRequest)
    requires SameEntries(api, signer) && |req.data| >= 10
    ensures Listed(api, req) <==> Listed(signer, req)
  {
    assert forall i :: 0 <= i < |api| ==>
        SameEntry(api[i], signer[i]) && (Permits(api[i], req) <==> Permits(signer[i], req));
  }

  /** The two decisions on a request the API lets through and the signer reads agree exactly
      when its calldata does not have one, two or three bytes: there the API sees no selector
      and passes it as a plain transfer, and the signer refuses it. */
  lemma DecisionsAgree(env: Env, rule: Rule, api: seq<Entry>, limits: Limits, signer: seq<Entry>,
                       req: SignRequest, nonce: nat, quote: Fees.FeeQuote, tx: TxFields)
    requires DtoValid(req)
    requires rule.ruleType == "calldata_allowlist"
    requires ValidateRuleConfig(env, rule.ruleType, ApiConfig(api)) == Some(rule.config)
    requires forall i :: 0 <= i < |signer| ==> EntryValid(signer[i])
    requires NamedBy(Entries(SignerText(signer)), limits.selectors, NamesSelector)
    requires SameEntries(api, signer)
    requires ParseTxFields(Printed(req, nonce, quote)) == Accepted(tx)
    ensures Wellformed(tx)
    ensures (EvaluateRule(env, rule, PayloadOf(req)).Allow? <==> CheckCalldata(limits, tx).None?)
              <==> |tx.data| !in {1, 2, 3}
    ensures |tx.data| in {1, 2, 3} ==> EvaluateRule(env, rule, PayloadOf(req)).Allow?
    ensures |tx.data| >= 4 <==> |req.data| >= 10
    ensures |req.data| >= 10 ==> (CheckCalldata(limits, tx).None? <==> Listed(signer, req))
  {
    hide Listed, NamedBy, SelectorKey, ParseTxFields, SameEntries, EvaluateRule, ValidateRuleConfig;
    RequestSurvives(req, nonce, quote);
    DtoAddress(req.to);
    if |req.data| >= 10 {
      ApiDecision(env, rule, api, req);
      SignerDecision(limits, signer, req, tx);
      ListedIgnoresCase(api, signer, req);
    } else {
      ShortAllowed(env, rule, api, req);
    }
  }

  lemma ShortAllowed(env: Env, rule: Rule, entries: seq<Entry>, req: SignRequest)
    requires DtoValid(req) && |req.data| < 10
    requires rule.ruleType == "calldata_allowlist"
    requires ValidateRuleConfig(env, rule.ruleType, ApiConfig(entries)) == Some(rule.config)
    ensures EvaluateRule(env, rule, PayloadOf(req)).Allow?
  {
    assert Validated(env, rule);
    ValidatedIsReadable(env, rule, PayloadOf(req));
  }

  const ZeroAddress: string := "0x" + seq(ADDRESS_DIGITS, _ => '0')
  const OneByteCall := SignRequest(1, ZeroAddress, "0", "0xab")

  /** The smallest disagreement: a call with one byte of calldata passes a policy whose
      allowlist is empty, and is refused by the signer under any limits. */
  lemma OneByteDisagrees(env: Env, rule: Rule, limits: Limits)
    requires rule.ruleType == "calldata_allowlist"
    requires Some(rule.config) == ValidateRuleConfig(env, rule.ruleType, ApiConfig([]))
    ensures DtoValid(OneByteCall) && EvaluateRule(env, rule, PayloadOf(OneByteCall)) == Allow
    ensures var parsed := ParseTxFields(Printed(OneByteCall, 0, Fees.FeeQuote(21000, 1, 1)));
            parsed.Accepted? && Wellformed(parsed.value)
                && CheckCalldata(limits, parsed.value) == Some(SelectorNotAllowed)
  {
    OneByteValid();
    ShortAllowed(env, rule, [], OneByteCall);
    OneByteParsed();
    RequestSurvives(OneByteCall, 0, Fees.FeeQuote(21000, 1, 1));
    DtoAddress(OneByteCall.to);
    hide ParseTxFields, EvaluateRule, SelectorKey;
    assert |Decode(OneByteCall.data[2..])| == 1;
  }

  lemma OneByteValid()
    ensures DtoValid(OneByteCall)
  {
    assert forall i :: 2 <= i < 42 ==> ZeroAddress[i] == '0';
  }

  lemma OneByteParsed()
    ensures 1 < Pow10(MAX_DECIMAL_DIGITS)
  {
    Pow10Monotone(1, MAX_DECIMAL_DIGITS);
    Pow10One();
  }
}
