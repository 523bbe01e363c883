/** libs/policy/src/policy.service.ts: what a rule configuration may look like, how one rule
    judges a transaction, and the default-deny decision over a wallet's policies. */
module Policy {
  import opened Base
  import opened Text
  import opened Decimal
  import opened Requests

  datatype Json =
    | Null
    | Bool(b: bool)
    | Number(n: int)
    | Str(s: string)
    | Arr(items: seq<Json>)
    | Obj(fields: map<string, Json>)

  /** Library calls and the clock: viem's `isAddress`, `new Date(text).getTime()` with no
      value for NaN, and the instant at which a policy's rule is evaluated. */
  datatype Env = Env(isAddress: string -> bool, parseDate: string -> Option<int>, clock: string -> int)

  datatype Rule = Rule(
    id: string, org: string, ruleType: string, config: map<string, Json>,
    appliesTo: string, target: Option<string>, priority: int, active: bool)

  datatype TxPayload = TxPayload(to: string, value: string, chainId: nat, selector: Option<string>)

  datatype Reason =
    | NoApplicablePolicy
    | InvalidConfig(policy: string)
    | Blocklisted(to: string)
    | NotAllowlisted(to: string)
    | OverLimit(value: nat, limit: nat)
    | SelectorNotAllowlisted(selector: string, to: string)
    | OutsideWindow

  datatype Verdict = Allow | Deny(reason: Reason)

  /** What the signing path shows to the policies: selectors are cut from calldata of at least
      four bytes and lowered. */
  function PayloadOf(req: SignRequest): TxPayload {
    TxPayload(req.to, req.value, req.chainId,
              if |req.data| >= 10 then Some(Lower(req.data[..10])) else None)
  }

  // -------------------------------------------------------------------------
  // Shapes of configuration
  // -------------------------------------------------------------------------

  function Field(config: map<string, Json>, name: string): Option<Json> {
    if name in config then Some(config[name]) else None
  }

  predicate IsText(value: Option<Json>) {
    value.Some? && value.value.Str?
  }

  predicate IsList(value: Option<Json>) {
    value.Some? && value.value.Arr?
  }

  predicate IsAddressList(value: Option<Json>) {
    IsList(value) && forall i :: 0 <= i < |value.value.items| ==> value.value.items[i].Str?
  }

  predicate IsEntry(entry: Json) {
    entry.Obj? && IsText(Field(entry.fields, "to")) && IsText(Field(entry.fields, "selector"))
  }

  predicate IsCalldataAllowlist(value: Option<Json>) {
    IsList(value) && forall i :: 0 <= i < |value.value.items| ==> IsEntry(value.value.items[i])
  }

  predicate IsAmount(value: Option<Json>) {
    IsText(value) && Canonical(value.value.s)
  }

  predicate IsWindow(env: Env, start: Option<Json>, end: Option<Json>) {
    && IsText(start) && IsText(end)
    && var from := env.parseDate(start.value.s);
       var until := env.parseDate(end.value.s);
       from.Some? && until.Some? && from.value < until.value
  }

  /** The regular expression /^0x[0-9a-fA-F]{8}$/. */
  predicate IsSelector(s: string) {
    |s| == 10 && HasPrefix(s, "0x") && AllHex(s[2..])
  }

  // -------------------------------------------------------------------------
  // Evaluating one rule
  // -------------------------------------------------------------------------

  predicate Lists(items: seq<Json>, text: string) {
    Str(text) in items
  }

  predicate Matches(entry: Json, to: string, selector: string) {
    IsEntry(entry) && entry.fields["to"] == Str(to) && entry.fields["selector"] == Str(selector)
  }

  predicate AnyMatches(items: seq<Json>, to: string, selector: string) {
    exists i :: 0 <= i < |items| && Matches(items[i], to, selector)
  }

  function EvaluateRule(env: Env, rule: Rule, tx: TxPayload): Verdict
    requires Canonical(tx.value)
  {
    var invalid := Deny(InvalidConfig(rule.id));
    match rule.ruleType
    case "address_blocklist" =>
      var list := Field(rule.config, "addresses");
      if !IsAddressList(list) then invalid
      else if Lists(list.value.items, Lower(tx.to)) then Deny(Blocklisted(tx.to))
      else Allow
    case "address_allowlist" =>
      var list := Field(rule.config, "addresses");
      if !IsAddressList(list) then invalid
      else if |list.value.items| > 0 && !Lists(list.value.items, Lower(tx.to)) then Deny(NotAllowlisted(tx.to))
      else Allow
    case "spend_limit" =>
      var amount := Field(rule.config, "max_amount_wei");
      if !IsAmount(amount) then invalid
      else if Value(tx.value) > Value(amount.value.s) then Deny(OverLimit(Value(tx.value), Value(amount.value.s)))
      else Allow
    case "calldata_allowlist" =>
      var entries := Field(rule.config, "entries");
      if !IsCalldataAllowlist(entries) then invalid
      else if tx.selector.None? || tx.selector.value == "" then Allow
      else if AnyMatches(entries.value.items, Lower(tx.to), Lower(tx.selector.value)) then Allow
      else Deny(SelectorNotAllowlisted(tx.selector.value, tx.to))
    case "time_lock" =>
      var start := Field(rule.config, "start_time");
      var end := Field(rule.config, "end_time");
      if !IsWindow(env, start, end) then invalid
      else if env.clock(rule.id) < env.parseDate(start.value.s).value
          || env.clock(rule.id) > env.parseDate(end.value.s).value then Deny(OutsideWindow)
      else Allow
    case _ => invalid
  }

  // -------------------------------------------------------------------------
  // Validating a submitted configuration
  // -------------------------------------------------------------------------

  predicate IsChecksummedList(env: Env, value: Option<Json>) {
    IsList(value) && forall i :: 0 <= i < |value.value.items| ==>
        value.value.items[i].Str? && env.isAddress(value.value.items[i].s)
  }

  predicate IsStrictEntry(env: Env, entry: Json) {
    IsEntry(entry) && env.isAddress(entry.fields["to"].s) && IsSelector(entry.fields["selector"].s)
  }

  predicate IsStrictAllowlist(env: Env, value: Option<Json>) {
    IsList(value) && forall i :: 0 <= i < |value.value.items| ==> IsStrictEntry(env, value.value.items[i])
  }

  function LowerItems(items: seq<Json>): (lowered: seq<Json>)
    requires forall i :: 0 <= i < |items| ==> items[i].Str?
    ensures |lowered| == |items| && forall i :: 0 <= i < |items| ==> lowered[i] == Str(Lower(items[i].s))
  {
    seq(|items|, i requires 0 <= i < |items| => Str(Lower(items[i].s)))
  }

  function LowerEntry(entry: Json): (lowered: Json)
    requires IsEntry(entry)
    ensures IsEntry(lowered)
  {
    Obj(map["to" := Str(Lower(entry.fields["to"].s)), "selector" := Str(Lower(entry.fields["selector"].s))])
  }

  function LowerEntries(items: seq<Json>): (lowered: seq<Json>)
    requires forall i :: 0 <= i < |items| ==> IsEntry(items[i])
    ensures |lowered| == |items| && forall i :: 0 <= i < |items| ==> lowered[i] == LowerEntry(items[i])
  {
    seq(|items|, i requires 0 <= i < |items| => LowerEntry(items[i]))
  }

  /** The configuration to store, or none when it is refused. Unknown fields are dropped. */
  function ValidateRuleConfig(env: Env, ruleType: string, submitted: Json): Option<map<string, Json>> {
    if !submitted.Obj? then None
    else
      var config := submitted.fields;
      match ruleType
      case "address_allowlist" => ValidateAddresses(env, config)
      case "address_blocklist" => ValidateAddresses(env, config)
      case "spend_limit" =>
        var amount := Field(config, "max_amount_wei");
        if IsAmount(amount) then Some(map["max_amount_wei" := amount.value]) else None
      case "calldata_allowlist" =>
        var entries := Field(config, "entries");
        if IsStrictAllowlist(env, entries) then Some(map["entries" := Arr(LowerEntries(entries.value.items))]) else None
      case "time_lock" =>
        var start := Field(config, "start_time");
        var end := Field(config, "end_time");
        if IsWindow(env, start, end) then Some(map["start_time" := start.value, "end_time" := end.value]) else None
      case _ => None
  }

  function ValidateAddresses(env: Env, config: map<string, Json>): Option<map<string, Json>> {
    var addresses := Field(config, "addresses");
    if IsChecksummedList(env, addresses) then Some(map["addresses" := Arr(LowerItems(addresses.value.items))]) else None
  }

  /** A rule whose configuration went through validation. */
  ghost predicate Validated(env: Env, rule: Rule) {
    exists submitted :: ValidateRuleConfig(env, rule.ruleType, submitted) == Some(rule.config)
  }

  /** What validation stores, evaluation can read: such a rule never fails closed for its
      configuration, whatever the transaction. */
  lemma ValidatedIsReadable(env: Env, rule: Rule, tx: TxPayload)
    requires Validated(env, rule) && Canonical(tx.value)
    ensures EvaluateRule(env, rule, tx) != Deny(InvalidConfig(rule.id))
  {
    var submitted :| ValidateRuleConfig(env, rule.ruleType, submitted) == Some(rule.config);
  }

  /** An address validator that takes the lower-case form of every address it takes. */
  ghost predicate LowerCaseTaken(env: Env) {
    forall s :: env.isAddress(s) ==> env.isAddress(Lower(s))
  }

  lemma LowerTwice(s: string)
    ensures Lower(Lower(s)) == Lower(s)
  {
  }

  /** Validation is a normal form: validating what it stored changes nothing. */
  lemma ValidateIdempotent(env: Env, ruleType: string, submitted: Json)
    requires LowerCaseTaken(env)
    requires ValidateRuleConfig(env, ruleType, submitted).Some?
    ensures var stored := ValidateRuleConfig(env, ruleType, submitted).value;
            ValidateRuleConfig(env, ruleType, Obj(stored)) == Some(stored)
  {
    var stored := ValidateRuleConfig(env, ruleType, submitted).value;
    if ruleType == "address_allowlist" || ruleType == "address_blocklist" {
      AddressesIdempotent(env, submitted.fields);
    } else if ruleType == "calldata_allowlist" {
      EntriesIdempotent(env, submitted.fields["entries"].items);
    }
  }

  lemma AddressesIdempotent(env: Env, config: map<string, Json>)
    requires LowerCaseTaken(env) && ValidateAddresses(env, config).Some?
    ensures var stored := ValidateAddresses(env, config).value;
            ValidateAddresses(env, stored) == Some(stored)
  {
    var items := config["addresses"].items;
    var lowered := LowerItems(items);
    forall i | 0 <= i < |items|
      ensures env.isAddress(lowered[i].s) && Lower(lowered[i].s) == lowered[i].s
    {
      LowerTwice(items[i].s);
    }
    assert LowerItems(lowered) == lowered;
  }

  lemma EntriesIdempotent(env: Env, items: seq<Json>)
    requires LowerCaseTaken(env) && IsStrictAllowlist(env, Some(Arr(items)))
    ensures IsStrictAllowlist(env, Some(Arr(LowerEntries(items))))
              && LowerEntries(LowerEntries(items)) == LowerEntries(items)
  {
    var lowered := LowerEntries(items);
    forall i | 0 <= i < |items|
      ensures IsStrictEntry(env, lowered[i]) && LowerEntry(lowered[i]) == lowered[i]
    {
      LowerTwice(items[i].fields["to"].s);
      LowerTwice(items[i].fields["selector"].s);
      LowerSelector(items[i].fields["selector"].s);
    }
    assert LowerEntries(lowered) == lowered;
  }

  lemma LowerSelector(s: string)
    requires IsSelector(s)
    ensures IsSelector(Lower(s))
  {
    assert forall i :: 0 <= i < 8 ==> IsHexChar(s[2..][i]);
  }

  /** From the list an operator submits to the verdict on a transaction, letter case plays no
      part: an allowlist passes the destinations it names in any letter case (an empty one
      passes all), a blocklist stops exactly those. */
  lemma AddressListMeaning(env: Env, rule: Rule, submitted: Json, tx: TxPayload)
    requires Canonical(tx.value)
    requires ValidateRuleConfig(env, rule.ruleType, submitted) == Some(rule.config)
    requires rule.ruleType in ["address_allowlist", "address_blocklist"]
    ensures var items := submitted.fields["addresses"].items;
            var named := exists i :: 0 <= i < |items| && Lower(items[i].s) == Lower(tx.to);
            EvaluateRule(env, rule, tx)
            == if rule.ruleType == "address_allowlist"
               then if items == [] || named then Allow else Deny(NotAllowlisted(tx.to))
               else if named then Deny(Blocklisted(tx.to)) else Allow
  {
    var items := submitted.fields["addresses"].items;
    var lowered := LowerItems(items);
    assert rule.config["addresses"] == Arr(lowered);
    if Lists(lowered, Lower(tx.to)) {
      var i :| 0 <= i < |lowered| && lowered[i] == Str(Lower(tx.to));
      assert Lower(items[i].s) == Lower(tx.to);
    }
    if i :| 0 <= i < |items| && Lower(items[i].s) == Lower(tx.to) {
      assert lowered[i] == Str(Lower(tx.to));
    }
  }

  /** From the amount an operator submits to the verdict on a request: the request is allowed
      exactly when it moves no more than that amount. */
  lemma SpendLimitMeaning(env: Env, rule: Rule, submitted: Json, req: SignRequest)
    requires DtoValid(req) && rule.ruleType == "spend_limit"
    requires ValidateRuleConfig(env, rule.ruleType, submitted) == Some(rule.config)
    ensures submitted.Obj? && "max_amount_wei" in submitted.fields && submitted.fields["max_amount_wei"].Str?
    ensures var limit := submitted.fields["max_amount_wei"].s;
            && rule.config == map["max_amount_wei" := Str(limit)]
            && EvaluateRule(env, rule, PayloadOf(req))
                == if Value(req.value) <= Value(limit) then Allow
                   else Deny(OverLimit(Value(req.value), Value(limit)))
  {
  }

  /** From the two instants an operator submits to the verdict: allowed exactly from the first to
      the second, both included. */
  lemma TimeLockMeaning(env: Env, rule: Rule, submitted: Json, tx: TxPayload)
    requires Canonical(tx.value) && rule.ruleType == "time_lock"
    requires ValidateRuleConfig(env, rule.ruleType, submitted) == Some(rule.config)
    ensures submitted.Obj? && "start_time" in submitted.fields && "end_time" in submitted.fields
    ensures submitted.fields["start_time"].Str? && submitted.fields["end_time"].Str?
    ensures var start, end := submitted.fields["start_time"].s, submitted.fields["end_time"].s;
            && rule.config == map["start_time" := Str(start), "end_time" := Str(end)]
            && env.parseDate(start).Some? && env.parseDate(end).Some?
            && env.parseDate(start).value < env.parseDate(end).value
            && EvaluateRule(env, rule, tx)
                == if env.parseDate(start).value <= env.clock(rule.id) <= env.parseDate(end).value then Allow
                   else Deny(OutsideWindow)
  {
  }

  /** The entry is an object that names this destination and selector, up to letter case. */
  predicate Names(entry: Json, to: string, selector: string) {
    && entry.Obj? && "to" in entry.fields && entry.fields["to"].Str?
    && "selector" in entry.fields && entry.fields["selector"].Str?
    && Lower(entry.fields["to"].s) == Lower(to) && Lower(entry.fields["selector"].s) == Lower(selector)
  }

  /** From the entries an operator submits to the verdict: a request with less than four bytes of
      calldata passes, any other exactly when an entry names its destination and selector. */
  lemma CalldataMeaning(env: Env, rule: Rule, submitted: Json, req: SignRequest)
    requires DtoValid(req) && rule.ruleType == "calldata_allowlist"
    requires ValidateRuleConfig(env, rule.ruleType, submitted) == Some(rule.config)
    ensures submitted.Obj? && "entries" in submitted.fields && submitted.fields["entries"].Arr?
    ensures var items := submitted.fields["entries"].items;
            var named := exists i :: 0 <= i < |items| && |req.data| >= 10 && Names(items[i], req.to, req.data[..10]);
            EvaluateRule(env, rule, PayloadOf(req))
            == if |req.data| < 10 || named then Allow
               else Deny(SelectorNotAllowlisted(Lower(req.data[..10]), req.to))
  {
    var items := submitted.fields["entries"].items;
    var stored := LowerEntries(items);
    assert rule.config["entries"] == Arr(stored);
    if |req.data| >= 10 {
      var cut := Lower(req.data[..10]);
      LowerTwice(req.data[..10]);
      assert |cut| == 10;
      forall i | 0 <= i < |items|
        ensures Matches(stored[i], Lower(req.to), Lower(cut)) <==> Names(items[i], req.to, req.data[..10])
      {
      }
    }
  }

  /** A configuration is accepted exactly in the form of its rule type. */
  lemma AcceptedExactly(env: Env, ruleType: string, submitted: Json)
    ensures ValidateRuleConfig(env, ruleType, submitted).Some? <==>
            && submitted.Obj?
            && match ruleType
               case "address_allowlist" => IsListOf(submitted.fields, "addresses", j => IsAddressText(env, j))
               case "address_blocklist" => IsListOf(submitted.fields, "addresses", j => IsAddressText(env, j))
               case "spend_limit" =>
                 "max_amount_wei" in submitted.fields && submitted.fields["max_amount_wei"].Str?
                     && Canonical(submitted.fields["max_amount_wei"].s)
               case "calldata_allowlist" => IsListOf(submitted.fields, "entries", j => IsEntryText(env, j))
               case "time_lock" => IsOrdered(env, submitted.fields)
               case _ => false
  {
  }

  /** The field is a list, and every item is as asked. */
  predicate IsListOf(fields: map<string, Json>, name: string, isItem: Json -> bool) {
    && name in fields && fields[name].Arr?
    && forall i :: 0 <= i < |fields[name].items| ==> isItem(fields[name].items[i])
  }

  predicate IsAddressText(env: Env, item: Json) {
    item.Str? && env.isAddress(item.s)
  }

  predicate IsEntryText(env: Env, item: Json) {
    && item.Obj? && "to" in item.fields && IsAddressText(env, item.fields["to"])
    && "selector" in item.fields && item.fields["selector"].Str?
    && var selector := item.fields["selector"].s;
       |selector| == 10 && selector[..2] == "0x" && forall i :: 2 <= i < 10 ==> IsHexChar(selector[i])
  }

  /** Two texts that denote instants, the first before the second. */
  predicate IsOrdered(env: Env, fields: map<string, Json>) {
    && "start_time" in fields && fields["start_time"].Str? && "end_time" in fields && fields["end_time"].Str?
    && var from, until := env.parseDate(fields["start_time"].s), env.parseDate(fields["end_time"].s);
       from.Some? && until.Some? && from.value < until.value
  }

  /** A rule fails closed exactly when its configuration is not in the form of its type, or the
      type is unknown. */
  lemma UnreadableExactly(env: Env, rule: Rule, tx: TxPayload)
    requires Canonical(tx.value)
    ensures EvaluateRule(env, rule, tx) == Deny(InvalidConfig(rule.id)) <==>
            !match rule.ruleType
             case "address_blocklist" => IsListOf(rule.config, "addresses", (j: Json) => j.Str?)
             case "address_allowlist" => IsListOf(rule.config, "addresses", (j: Json) => j.Str?)
             case "spend_limit" =>
               "max_amount_wei" in rule.config && rule.config["max_amount_wei"].Str?
                   && Canonical(rule.config["max_amount_wei"].s)
             case "calldata_allowlist" => IsListOf(rule.config, "entries", HasTexts)
             case "time_lock" => IsOrdered(env, rule.config)
             case _ => false
  {
  }

  predicate HasTexts(item: Json) {
    item.Obj? && "to" in item.fields && item.fields["to"].Str? && "selector" in item.fields
        && item.fields["selector"].Str?
  }

  // -------------------------------------------------------------------------
  // The decision over a wallet's policies
  // -------------------------------------------------------------------------

  predicate AppliesToWallet(rule: Rule, wallet: string) {
    rule.appliesTo == "all" || (rule.appliesTo == "wallet" && rule.target == Some(wallet))
  }

  /** An active policy of the organisation that covers the wallet. */
  predicate Covers(rule: Rule, org: string, wallet: string) {
    rule.active && rule.org == org && AppliesToWallet(rule, wallet)
  }

  /** Default deny: some policy covers the wallet, and every one that does allows. */
  ghost predicate Authorized(env: Env, rules: seq<Rule>, org: string, wallet: string, tx: TxPayload)
    requires Canonical(tx.value)
  {
    && (exists r :: r in rules && Covers(r, org, wallet))
    && (forall r :: r in rules && Covers(r, org, wallet) ==> EvaluateRule(env, r, tx) == Allow)
  }

  /** The stored policies are those that came of these submissions. */
  ghost predicate CameOf(env: Env, rules: seq<Rule>, submitted: seq<Json>) {
    |rules| == |submitted| && forall i :: 0 <= i < |rules| ==>
        ValidateRuleConfig(env, rules[i].ruleType, submitted[i]) == Some(rules[i].config)
  }

  /** The request is within what the operator submitted for a policy. */
  ghost predicate Meets(env: Env, rule: Rule, submitted: Json, req: SignRequest)
    requires DtoValid(req) && ValidateRuleConfig(env, rule.ruleType, submitted).Some?
  {
    match rule.ruleType
    case "address_allowlist" =>
      var items := submitted.fields["addresses"].items;
      items == [] || exists i :: 0 <= i < |items| && Lower(items[i].s) == Lower(req.to)
    case "address_blocklist" =>
      var items := submitted.fields["addresses"].items;
      forall i :: 0 <= i < |items| ==> Lower(items[i].s) != Lower(req.to)
    case "spend_limit" => Value(req.value) <= Value(submitted.fields["max_amount_wei"].s)
    case "calldata_allowlist" =>
      var items := submitted.fields["entries"].items;
      |req.data| < 10 || exists i :: 0 <= i < |items| && Names(items[i], req.to, req.data[..10])
    case "time_lock" =>
      var from := env.parseDate(submitted.fields["start_time"].s).value;
      var until := env.parseDate(submitted.fields["end_time"].s).value;
      from <= env.clock(rule.id) <= until
    case _ => false
  }

  lemma RuleExactly(env: Env, rule: Rule, submitted: Json, req: SignRequest)
    requires DtoValid(req) && ValidateRuleConfig(env, rule.ruleType, submitted) == Some(rule.config)
    ensures EvaluateRule(env, rule, PayloadOf(req)) == Allow <==> Meets(env, rule, submitted, req)
  {
    match rule.ruleType
    case "address_allowlist" => AddressListMeaning(env, rule, submitted, PayloadOf(req));
    case "address_blocklist" => AddressListMeaning(env, rule, submitted, PayloadOf(req));
    case "spend_limit" => SpendLimitMeaning(env, rule, submitted, req);
    case "calldata_allowlist" => CalldataMeaning(env, rule, submitted, req);
    case "time_lock" => TimeLockMeaning(env, rule, submitted, PayloadOf(req));
    case _ =>
  }

  /** From what the operators submitted to the decision: a request is authorised exactly when some
      policy covers the wallet and the request is within what was submitted for each that does. */
  lemma DecisionExactly(env: Env, rules: seq<Rule>, submitted: seq<Json>, org: string, wallet: string, req: SignRequest)
    requires DtoValid(req) && CameOf(env, rules, submitted)
    ensures Authorized(env, rules, org, wallet, PayloadOf(req)) <==>
            && (exists i :: 0 <= i < |rules| && Covers(rules[i], org, wallet))
            && (forall i :: 0 <= i < |rules| && Covers(rules[i], org, wallet) ==>
                  Meets(env, rules[i], submitted[i], req))
  {
    forall i | 0 <= i < |rules|
      ensures EvaluateRule(env, rules[i], PayloadOf(req)) == Allow <==> Meets(env, rules[i], submitted[i], req)
    {
      RuleExactly(env, rules[i], submitted[i], req);
    }
    hide EvaluateRule, Covers, Meets, ValidateRuleConfig;
    assert forall i :: 0 <= i < |rules| ==> rules[i] in rules;
  }

  /** One more covering policy: it must allow, and beyond that it changes the decision only
      where no policy covered the wallet before. Elsewhere a denial stays a denial. */
  lemma OneMorePolicy(env: Env, rules: seq<Rule>, added: Rule, org: string, wallet: string, tx: TxPayload)
    requires Canonical(tx.value) && added.active && added.org == org
    requires added.appliesTo == "all" || (added.appliesTo == "wallet" && added.target == Some(wallet))
    ensures Authorized(env, rules + [added], org, wallet, tx) <==>
            EvaluateRule(env, added, tx) == Allow
            && ((exists r :: r in rules && Covers(r, org, wallet)) ==> Authorized(env, rules, org, wallet, tx))
  {
    assert Covers(added, org, wallet);
    hide EvaluateRule, Covers;
    var all := rules + [added];
    assert added in all;
    assert forall r :: r in all <==> r in rules || r == added;
  }

  /** A policy that is inactive, another organisation's, or another wallet's changes nothing. */
  lemma UnrelatedPolicy(env: Env, rules: seq<Rule>, added: Rule, org: string, wallet: string, tx: TxPayload)
    requires Canonical(tx.value)
    requires !added.active || added.org != org || (added.appliesTo != "all" && added.target != Some(wallet))
               || (added.appliesTo != "all" && added.appliesTo != "wallet")
    ensures Authorized(env, rules + [added], org, wallet, tx) <==> Authorized(env, rules, org, wallet, tx)
  {
    assert !Covers(added, org, wallet);
    hide EvaluateRule, Covers;
    assert forall r :: r in rules + [added] <==> r in rules || r == added;
  }

  /** The policies of an organisation that are active. */
  function ActiveOf(rules: seq<Rule>, org: string): (found: seq<Rule>)
    ensures forall r :: r in found <==> r in rules && r.active && r.org == org
  {
    if rules == [] then []
    else (if rules[0].active && rules[0].org == org then [rules[0]] else []) + ActiveOf(rules[1..], org)
  }

  function Applicable(listed: seq<Rule>, wallet: string): (found: seq<Rule>)
    ensures forall r :: r in found <==> r in listed && AppliesToWallet(r, wallet)
  {
    if listed == [] then []
    else (if AppliesToWallet(listed[0], wallet) then [listed[0]] else []) + Applicable(listed[1..], wallet)
  }

  datatype AuditEntry =
    | EvaluationDenied(org: string, wallet: string, deniedBy: Option<string>, reason: Reason, tx: TxPayload)
    | EvaluationAllowed(org: string, wallet: string, policiesChecked: nat, tx: TxPayload)
    | PolicyDeleted(org: string, id: string)

  datatype DeleteResult = Deleted | NotFound | NotYours

  class PolicyService {
    const env: Env
    var rules: seq<Rule>
    var audit: seq<AuditEntry>

    /** Every stored policy went through validation, and ids are unique. */
    ghost predicate Valid()
      reads this
    {
      && (forall r :: r in rules ==> Validated(env, r))
      && (forall i, j :: 0 <= i < j < |rules| ==> rules[i].id != rules[j].id)
    }

    constructor (env: Env)
      ensures Valid() && this.env == env && rules == [] && audit == []
    {
      this.env := env;
      rules, audit := [], [];
    }

    /** Stores the normal form of the configuration, or refuses and stores nothing. */
    method CreatePolicy(rule: Rule, submitted: Json) returns (stored: Option<Rule>)
      requires Valid() && forall r :: r in rules ==> r.id != rule.id
      modifies this`rules
      ensures Valid()
      ensures stored.Some? <==> ValidateRuleConfig(env, rule.ruleType, submitted).Some?
      ensures stored.Some? ==>
        && stored.value == rule.(config := stored.value.config)
        && Some(stored.value.config) == ValidateRuleConfig(env, rule.ruleType, submitted)
      ensures rules == if stored.Some? then old(rules) + [stored.value] else old(rules)
    {
      var config := ValidateRuleConfig(env, rule.ruleType, submitted);
      if config.None? {
        return None;
      }
      var kept := rule.(config := config.value);
      assert Validated(env, kept);
      rules := rules + [kept];
      return Some(kept);
    }

    /** Deactivates a policy of the organisation and leaves every other row alone. */
    method DeletePolicy(org: string, id: string) returns (result: DeleteResult)
      requires Valid()
      modifies this
      ensures Valid()
      ensures result == NotFound <==> forall r :: r in old(rules) ==> r.id != id
      ensures result == NotYours <==> exists r :: r in old(rules) && r.id == id && r.org != org
      ensures |rules| == |old(rules)|
      ensures forall i :: 0 <= i < |rules| ==>
        rules[i] == if result == Deleted && old(rules)[i].id == id then old(rules)[i].(active := false)
            else old(rules)[i]
      ensures audit == if result == Deleted then old(audit) + [PolicyDeleted(org, id)] else old(audit)
    {
      for i := 0 to |rules|
        invariant rules == old(rules) && audit == old(audit)
        invariant forall k :: 0 <= k < i ==> rules[k].id != id
      {
        if rules[i].id == id {
          if rules[i].org != org {
            return NotYours;
          }
          StillValidated(env, rules[i]);
          rules := rules[i := rules[i].(active := false)];
          audit := audit + [PolicyDeleted(org, id)];
          return Deleted;
        }
      }
      return NotFound;
    }

    /** The rows of the organisation that are active, in the order the database lists them:
        by falling priority, ties in any order. */
    ghost predicate Listing(listed: seq<Rule>, org: string)
      reads this
    {
      && multiset(listed) == multiset(ActiveOf(rules, org))
      && forall i, j :: 0 <= i < j < |listed| ==> listed[i].priority >= listed[j].priority
    }

    /** The decision: allowed exactly when authorised, whatever order the rows come in; one
        audit entry, which names the verdict and the policy that denied; and never a denial
        for an unreadable configuration. */
    method Evaluate(org: string, wallet: string, tx: TxPayload, listed: seq<Rule>) returns (verdict: Verdict)
      requires Valid() && Canonical(tx.value) && Listing(listed, org)
      modifies this`audit
      ensures Valid()
      ensures verdict == Allow <==> Authorized(env, rules, org, wallet, tx)
      ensures verdict.Deny? ==> !verdict.reason.InvalidConfig?
      ensures verdict == Deny(NoApplicablePolicy) <==> forall r :: r in rules ==> !Covers(r, org, wallet)
      ensures |audit| == |old(audit)| + 1 && old(audit) <= audit
      ensures verdict == Allow ==>
                audit[|old(audit)|] == EvaluationAllowed(org, wallet, |Applicable(listed, wallet)|, tx)
      ensures verdict.Deny? ==>
        var entry := audit[|old(audit)|];
        && entry.EvaluationDenied? && entry == EvaluationDenied(org, wallet, entry.deniedBy, verdict.reason, tx)
        && (entry.deniedBy.None? <==> verdict.reason == NoApplicablePolicy)
        && (entry.deniedBy.Some? ==>
            exists r :: r in rules && r.id == entry.deniedBy.value && Covers(r, org, wallet)
                && EvaluateRule(env, r, tx) == verdict)
    {
      hide EvaluateRule, Covers, Validated, ActiveOf;
      ListingCovers(listed, org, wallet);
      var applicable := Applicable(listed, wallet);
      if |applicable| == 0 {
        assert forall r :: r in rules ==> !Covers(r, org, wallet) by {
          assert forall r :: r in rules && Covers(r, org, wallet) ==> r in applicable;
        }
        audit := audit + [EvaluationDenied(org, wallet, None, NoApplicablePolicy, tx)];
        return Deny(NoApplicablePolicy);
      }
      assert applicable[0] in applicable;
      for i := 0 to |applicable|
        invariant audit == old(audit)
        invariant forall k :: 0 <= k < i ==> EvaluateRule(env, applicable[k], tx) == Allow
      {
        assert applicable[i] in applicable;
        verdict := EvaluateRule(env, applicable[i], tx);
        if verdict.Deny? {
          DenialReason(env, applicable[i], tx);
          audit := audit + [EvaluationDenied(org, wallet, Some(applicable[i].id), verdict.reason, tx)];
          return;
        }
      }
      audit := audit + [EvaluationAllowed(org, wallet, |applicable|, tx)];
      return Allow;
    }

    lemma {:induction false} ListingCovers(listed: seq<Rule>, org: string, wallet: string)
      requires Listing(listed, org)
      ensures forall r :: r in Applicable(listed, wallet) <==> r in rules && Covers(r, org, wallet)
    {
      assert forall r :: r in listed <==> r in multiset(listed);
      assert forall r :: r in ActiveOf(rules, org) <==> r in multiset(ActiveOf(rules, org));
    }
  }

  lemma StillValidated(env: Env, rule: Rule)
    requires Validated(env, rule)
    ensures Validated(env, rule.(active := false))
  {
    var submitted :| ValidateRuleConfig(env, rule.ruleType, submitted) == Some(rule.config);
    assert ValidateRuleConfig(env, rule.(active := false).ruleType, submitted) == Some(rule.(active := false).config);
  }

  /** A rule denies for its own grounds only. */
  lemma DenialReason(env: Env, rule: Rule, tx: TxPayload)
    requires Validated(env, rule) && Canonical(tx.value) && EvaluateRule(env, rule, tx).Deny?
    ensures EvaluateRule(env, rule, tx).reason != NoApplicablePolicy
    ensures !EvaluateRule(env, rule, tx).reason.InvalidConfig?
  {
    ValidatedIsReadable(env, rule, tx);
  }
}
