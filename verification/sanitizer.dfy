/**
 * Parameter sanitisation of the workflow generator (generate/route.ts):
 * per node type an allow-list of parameter keys, a schedule-rule shape check,
 * and the type-version table used when the model gives no `typeVersion`.
 *
 * The node type is looked up by the property key it converts to
 * (`JsValues.KeyOf`), so a missing type reads as "undefined".
 */
module ParameterSanitizer {
  import opened JsValues

  const BasePrefix := "n8n-nodes-base."
  const LangChainPrefix := "@n8n/n8n-nodes-langchain."

  /**
   * The allow-list table `safeKeys` of route.ts:452-497, looked up by node
   * type; `None` for a type the table does not list.
   */
  function AllowList(typeKey: string): Option<seq<string>> {
    if BasePrefix <= typeKey then BaseAllowList(typeKey[|BasePrefix|..])
    else if LangChainPrefix <= typeKey then LangChainAllowList(typeKey[|LangChainPrefix|..])
    else None
  }

  /** The entries for the `n8n-nodes-base.` types. */
  function BaseAllowList(name: string): Option<seq<string>> {
    match name
    case "stickyNote" => Some(["content", "width", "height", "color"])
    case "webhook" => Some(["httpMethod", "path", "responseMode"])
    case "scheduleTrigger" => Some(["rule"])
    case "manualTrigger" => Some([])
    case "errorTrigger" => Some([])
    case "gmailTrigger" => Some([])
    case "googleCalendarTrigger" => Some([])
    case "httpRequest" => Some(["method", "url", "options"])
    case "if" => Some([])
    case "switch" => Some([])
    case "code" => Some(["jsCode", "language", "mode"])
    case "set" => Some([])
    case "merge" => Some(["mode"])
    case "splitInBatches" => Some(["batchSize"])
    case "filter" => Some([])
    case "aggregate" => Some([])
    case "respondToWebhook" => Some([])
    case "wait" => Some(["amount", "unit"])
    case "slack" => Some(["resource", "operation"])
    case "discord" => Some(["resource", "operation"])
    case "telegram" => Some(["resource", "operation"])
    case "emailSend" => Some([])
    case "gmail" => Some(["resource", "operation"])
    case "twilio" => Some(["resource", "operation"])
    case "googleSheets" => Some(["operation"])
    case "airtable" => Some(["operation"])
    case "notion" => Some(["resource", "operation"])
    case "postgres" => Some(["operation", "query"])
    case "mysql" => Some(["operation", "query"])
    case "mongoDb" => Some(["operation", "collection"])
    case "redis" => Some(["operation", "key"])
    case "salesforce" => Some(["resource", "operation"])
    case "hubspot" => Some(["resource", "operation"])
    case "jira" => Some(["resource", "operation"])
    case "stripe" => Some(["resource", "operation"])
    case "googleDrive" => Some(["resource", "operation"])
    case "googleDocs" => Some(["resource", "operation"])
    case "googleCalendar" => Some(["resource", "operation"])
    case "googleSlides" => Some(["resource", "operation"])
    case "awsS3" => Some(["operation"])
    case _ => None
  }

  /** The entries for the `@n8n/n8n-nodes-langchain.` types. */
  function LangChainAllowList(name: string): Option<seq<string>> {
    match name
    case "agent" => Some(["agent", "promptType", "text"])
    case "lmChatOpenAi" => Some(["model", "options"])
    case "lmChatAnthropic" => Some(["model", "options"])
    case "memoryBufferWindow" => Some(["contextWindowLength"])
    case _ => None
  }

  /** The table `versionMap` of route.ts:556-581. */
  const VersionMap: map<string, real> := map[
    "n8n-nodes-base.set" := 3.4,
    "n8n-nodes-base.code" := 2.0,
    "n8n-nodes-base.if" := 2.0,
    "n8n-nodes-base.switch" := 3.0,
    "n8n-nodes-base.merge" := 3.0,
    "n8n-nodes-base.httpRequest" := 4.2,
    "n8n-nodes-base.webhook" := 2.0,
    "n8n-nodes-base.respondToWebhook" := 1.1,
    "n8n-nodes-base.slack" := 2.2,
    "n8n-nodes-base.gmail" := 2.1,
    "n8n-nodes-base.googleSheets" := 4.5,
    "n8n-nodes-base.postgres" := 2.5,
    "n8n-nodes-base.mysql" := 2.4,
    "n8n-nodes-base.mongoDb" := 1.1,
    "n8n-nodes-base.stickyNote" := 1.0,
    "n8n-nodes-base.scheduleTrigger" := 1.2,
    "n8n-nodes-base.gmailTrigger" := 1.2,
    "n8n-nodes-base.googleCalendarTrigger" := 1.2,
    "n8n-nodes-base.googleDocs" := 2.0,
    "n8n-nodes-base.googleCalendar" := 1.2,
    "@n8n/n8n-nodes-langchain.agent" := 1.7,
    "@n8n/n8n-nodes-langchain.lmChatOpenAi" := 1.2,
    "@n8n/n8n-nodes-langchain.lmChatAnthropic" := 1.3,
    "@n8n/n8n-nodes-langchain.memoryBufferWindow" := 1.3
  ]

  /** The rule put in place of a schedule rule of the wrong shape: every day at 9. */
  const DefaultRule: map<string, Json> :=
    map["interval" := JArr([JObj(map["field" := JStr("hours"), "triggerAtHour" := JNum(9.0)])])]

  /** `getDefaultTypeVersion`: the table entry, or 1 for a type not in the table. */
  function DefaultTypeVersion(typeKey: string): (v: real)
    ensures v >= 1.0
    ensures typeKey in VersionMap ==> v == VersionMap[typeKey]
    ensures typeKey !in VersionMap ==> v == 1.0
  {
    VersionsAtLeastOne();
    if typeKey in VersionMap && VersionMap[typeKey] != 0.0 then VersionMap[typeKey] else 1.0
  }

  /** No entry of the version table is 0, so `|| 1` only applies to a type not in the table. */
  lemma VersionsAtLeastOne()
    ensures forall t :: t in VersionMap ==> VersionMap[t] >= 1.0
  {
  }

  /** The entries of `m` whose values are strings, numbers or booleans. */
  function ScalarEntries(m: map<string, Json>): map<string, Json> {
    map k | k in m && IsScalar(m[k]) :: m[k]
  }

  /**
   * The loops of route.ts:503-507 and 528-532: copy the scalar-valued entries
   * into a fresh object.
   */
  method KeepScalars(entries: map<string, Json>) returns (safe: map<string, Json>)
    ensures safe.Keys <= entries.Keys
    ensures forall k :: k in safe ==> safe[k] == entries[k] && IsScalar(entries[k])
    ensures forall k :: k in entries && IsScalar(entries[k]) ==> k in safe
    ensures safe == ScalarEntries(entries)
  {
    safe := map[];
    var todo := entries.Keys;
    while todo != {}
      invariant todo <= entries.Keys
      invariant safe.Keys == set k | k in entries && k !in todo && IsScalar(entries[k])
      invariant forall k :: k in safe ==> safe[k] == entries[k]
      decreases |todo|
    {
      var k :| k in todo;
      if IsScalar(entries[k]) {
        safe := safe[k := entries[k]];
      }
      todo := todo - {k};
    }
  }

  /**
   * `sanitizeScheduleRule`: `{interval: r.interval}` when `r` is an object whose
   * `interval` is an array, the default rule otherwise (null, arrays and other
   * values included).
   */
  function SanitizeScheduleRule(rule: Json): (r: map<string, Json>)
    ensures r.Keys == {"interval"} && r["interval"].JArr?
    ensures (rule.JObj? && "interval" in rule.fields && rule.fields["interval"].JArr?) ==>
      r == map["interval" := rule.fields["interval"]]
    ensures !(rule.JObj? && "interval" in rule.fields && rule.fields["interval"].JArr?) ==>
      r == DefaultRule
  {
    if !IsTruthy(rule) || !IsObjectType(rule) then DefaultRule
    else
      match Get(rule, "interval")
      case Some(JArr(items)) => map["interval" := JArr(items)]
      case _ => DefaultRule
  }

  /** A rule that has been sanitised once is left as it is. */
  lemma ScheduleRuleFixedPoint(rule: Json)
    ensures SanitizeScheduleRule(JObj(SanitizeScheduleRule(rule))) == SanitizeScheduleRule(rule)
  {
    var r := SanitizeScheduleRule(rule);
    assert "interval" in r;
  }

  /** `typeof v === 'string' || ... 'number' || ... 'boolean'`, or one of the two object keys handled specially. */
  predicate Keeps(key: string, v: Json) {
    IsScalar(v) || (key == "rule" && IsObjectType(v)) || (key == "options" && IsObjectType(v))
  }

  /** The `options` object reduced to its scalar entries; `{}` when it is null. */
  function OptionEntries(v: Json): map<string, Json> {
    if IsTruthy(v) && IsObjectType(v) then ScalarEntries(Entries(v)) else map[]
  }

  /** What is stored under an allow-listed key whose value passes `Keeps`. */
  function Cleaned(key: string, v: Json): Json {
    if IsScalar(v) then v
    else if key == "rule" then JObj(SanitizeScheduleRule(v))
    else JObj(OptionEntries(v))
  }

  /**
   * `key in params` for an allow-listed key. Only objects answer yes: no
   * allow-listed key is an array index, `length` or a method of arrays.
   */
  predicate Has(params: Json, key: string) {
    params.JObj? && key in params.fields
  }

  /** The result of the loop of route.ts:515-538 over the allow-list `keys`. */
  function Allowed(keys: seq<string>, params: Json): map<string, Json> {
    map k | k in keys && Has(params, k) && Keeps(k, params.fields[k]) :: Cleaned(k, params.fields[k])
  }

  /** `sanitizeParameters(nodeType, params)`, route.ts:448-541. */
  function Sanitized(typeKey: string, params: Json): map<string, Json> {
    if !IsTruthy(params) || !IsObjectType(params) then map[]
    else
      match AllowList(typeKey)
      case None => ScalarEntries(Entries(params))
      case Some(keys) => if keys == [] then map[] else Allowed(keys, params)
  }

  /** Processing one more allow-listed key adds at most that key. */
  lemma AllowedStep(keys: seq<string>, key: string, params: Json)
    ensures Allowed(keys + [key], params) ==
      if Has(params, key) && Keeps(key, params.fields[key])
      then Allowed(keys, params)[key := Cleaned(key, params.fields[key])]
      else Allowed(keys, params)
  {
  }

  /** The loop of route.ts:515-538 over a non-empty allow-list. */
  method CopyAllowed(allowed: seq<string>, params: Json) returns (safe: map<string, Json>)
    ensures safe == Allowed(allowed, params)
  {
    safe := map[];
    for i := 0 to |allowed|
      invariant safe == Allowed(allowed[..i], params)
    {
      var key := allowed[i];
      assert allowed[..i + 1] == allowed[..i] + [key];
      AllowedStep(allowed[..i], key, params);
      if Has(params, key) {
        var value := params.fields[key];
        if IsScalar(value) {
          safe := safe[key := value];
        } else if key == "rule" && IsObjectType(value) {
          safe := safe[key := JObj(SanitizeScheduleRule(value))];
        } else if key == "options" && IsObjectType(value) {
          var safeOpts: map<string, Json> := map[];
          if IsTruthy(value) && IsObjectType(value) {
            safeOpts := KeepScalars(Entries(value));
          }
          safe := safe[key := JObj(safeOpts)];
        }
      }
    }
    assert allowed[..|allowed|] == allowed;
  }

  /** `sanitizeParameters`, filling `safe` (and `safeOpts`) key by key. */
  method SanitizeParameters(typeKey: string, params: Json) returns (safe: map<string, Json>)
    ensures safe == Sanitized(typeKey, params)
  {
    if !IsTruthy(params) || !IsObjectType(params) {
      return map[];
    }
    var allowedKeys := AllowList(typeKey);
    if allowedKeys.None? {
      safe := KeepScalars(Entries(params));
      return;
    }
    var allowed := allowedKeys.value;
    if |allowed| == 0 {
      return map[];
    }
    safe := CopyAllowed(allowed, params);
  }

  /** Parameters that are not an object (or are falsy) sanitise to `{}`, whatever the type. */
  lemma NonObjectParams(typeKey: string, params: Json)
    requires !params.JArr? && !params.JObj?
    ensures Sanitized(typeKey, params) == map[]
  {
  }

  /** A type whose allow-list is empty (`if`, `set`, `switch`, the triggers, ...) always gets `{}`. */
  lemma EmptyAllowList(typeKey: string, params: Json)
    requires AllowList(typeKey) == Some([])
    ensures Sanitized(typeKey, params) == map[]
  {
  }

  /** `if`, `set` and `switch` nodes lose all their parameters. */
  lemma BranchNodesLoseParameters(params: Json)
    ensures Sanitized("n8n-nodes-base.if", params) == map[]
    ensures Sanitized("n8n-nodes-base.set", params) == map[]
    ensures Sanitized("n8n-nodes-base.switch", params) == map[]
  {
    EmptyAllowList("n8n-nodes-base.if", params);
    EmptyAllowList("n8n-nodes-base.set", params);
    EmptyAllowList("n8n-nodes-base.switch", params);
  }

  /** For a type not in the table, exactly the top-level scalar entries survive. */
  lemma UnknownTypeKeepsScalars(typeKey: string, fields: map<string, Json>)
    requires AllowList(typeKey).None?
    ensures Sanitized(typeKey, JObj(fields)).Keys == set k | k in fields && IsScalar(fields[k])
    ensures forall k :: k in Sanitized(typeKey, JObj(fields)) ==> Sanitized(typeKey, JObj(fields))[k] == fields[k]
  {
  }

  /** A custom node keeps its string parameter and loses the nested object. */
  lemma CustomNodeExample()
    ensures Sanitized("acme.customNode", JObj(map["foo" := JStr("bar"), "nested" := JObj(map["x" := JNum(1.0)])]))
      == map["foo" := JStr("bar")]
  {
    var fields := map["foo" := JStr("bar"), "nested" := JObj(map["x" := JNum(1.0)])];
    assert AllowList("acme.customNode").None?;
    var r := Sanitized("acme.customNode", JObj(fields));
    assert r == ScalarEntries(fields);
    assert r.Keys == {"foo"};
  }

  /**
   * For a type in the table: only allow-listed keys appear; scalars are kept
   * unchanged; an object-typed `rule` goes through `SanitizeScheduleRule`; an
   * object-typed `options` keeps its scalar entries; anything else is dropped.
   */
  lemma RegisteredTypeContract(typeKey: string, fields: map<string, Json>)
    requires AllowList(typeKey).Some?
    ensures forall k :: k in Sanitized(typeKey, JObj(fields)) ==> k in AllowList(typeKey).value && k in fields
    ensures forall k :: k in AllowList(typeKey).value && k in fields && IsScalar(fields[k]) ==>
      k in Sanitized(typeKey, JObj(fields)) && Sanitized(typeKey, JObj(fields))[k] == fields[k]
    ensures "rule" in AllowList(typeKey).value && "rule" in fields && IsObjectType(fields["rule"]) ==>
      "rule" in Sanitized(typeKey, JObj(fields)) &&
      Sanitized(typeKey, JObj(fields))["rule"] == JObj(SanitizeScheduleRule(fields["rule"]))
    ensures "options" in AllowList(typeKey).value && "options" in fields && IsObjectType(fields["options"]) ==>
      "options" in Sanitized(typeKey, JObj(fields)) &&
      Sanitized(typeKey, JObj(fields))["options"] == JObj(OptionEntries(fields["options"]))
    ensures forall k :: k in fields && !IsScalar(fields[k]) && k != "rule" && k != "options" ==>
      k !in Sanitized(typeKey, JObj(fields))
  {
  }

  /** `options: null` becomes `{}`, and array-valued options are filtered by index key. */
  lemma OptionsQuirks(items: seq<Json>)
    ensures OptionEntries(JNull) == map[]
    ensures OptionEntries(JArr(items)) == ScalarEntries(ItemEntries(items))
  {
  }

  lemma ScalarEntriesFixedPoint(m: map<string, Json>)
    ensures ScalarEntries(ScalarEntries(m)) == ScalarEntries(m)
  {
  }

  lemma OptionEntriesFixedPoint(v: Json)
    ensures OptionEntries(JObj(OptionEntries(v))) == OptionEntries(v)
  {
    var once := OptionEntries(v);
    OptionEntriesOfObject(once);
    match v
    case JObj(fields) => ScalarEntriesFixedPoint(fields);
    case JArr(items) => ScalarEntriesFixedPoint(ItemEntries(items));
    case _ => assert once == map[];
  }

  lemma OptionEntriesOfObject(m: map<string, Json>)
    ensures OptionEntries(JObj(m)) == ScalarEntries(m)
  {
  }

  /** A cleaned value passes the same filter again and cleans to itself. */
  lemma CleanedFixedPoint(key: string, v: Json)
    requires Keeps(key, v)
    ensures Keeps(key, Cleaned(key, v)) && Cleaned(key, Cleaned(key, v)) == Cleaned(key, v)
  {
    if !IsScalar(v) && key == "rule" {
      ScheduleRuleFixedPoint(v);
    } else if !IsScalar(v) {
      OptionEntriesFixedPoint(v);
    }
  }

  /** Sanitising twice gives what sanitising once gives. */
  lemma {:induction false} SanitizeIdempotent(typeKey: string, params: Json)
    ensures Sanitized(typeKey, JObj(Sanitized(typeKey, params))) == Sanitized(typeKey, params)
  {
    var once := Sanitized(typeKey, params);
    if AllowList(typeKey).Some? && AllowList(typeKey).value != [] && IsTruthy(params) && IsObjectType(params) {
      var keys := AllowList(typeKey).value;
      forall k | k in once ensures Keeps(k, once[k]) && Cleaned(k, once[k]) == once[k] {
        CleanedFixedPoint(k, params.fields[k]);
      }
      var twice := Sanitized(typeKey, JObj(once));
      assert twice.Keys == once.Keys;
    } else if AllowList(typeKey).None? && IsTruthy(params) && IsObjectType(params) {
      ScalarEntriesFixedPoint(Entries(params));
    }
  }
}
