/**
 The wire schema of the ten event types and the skeleton plan of each.

 A validator is data: what each field must be, and whether it must be there.
 A plan says which fields a skeleton keeps. `Fits` relates the two; it holds for
 every event type (`PlansFit`), and it is what makes a skeleton valid.
 */
module Schema {
  import opened Utf16
  import opened Json
  import opened JsNumber

  function Ascii(s: string): (t: Text)
    requires forall i | 0 <= i < |s| :: s[i] as int < 128
    ensures |t| == |s| && forall i | 0 <= i < |s| :: t[i] == s[i] as int
  {
    seq(|s|, i requires 0 <= i < |s| => s[i] as int)
  }

  const MAX_SAFE_INTEGER := 0x1F_FFFF_FFFF_FFFF   // 2^53 - 1

  // ---- validators ----

  datatype Check =
    | AnyText
    | AnyBool
    | NonnegNumber
    | NonnegInt
    | PositiveInt
    | Anything
    | OneOf(values: seq<Text>)
    | ListOf(item: Check)
    | Record(rules: seq<Rule>)

  datatype Rule = Rule(key: Text, required: bool, check: Check)

  predicate IsNonnegInt(token: Text)
  {
    IsNumberToken(token) && AllDigits(token) && ToNat(token) <= MAX_SAFE_INTEGER
  }

  predicate Valid(check: Check, v: Json)
    decreases check
  {
    match check
    case AnyText => v.Str?
    case AnyBool => v.Bool?
    case NonnegNumber => v.Number? && v.token != [] && v.token[0] != MINUS
    case NonnegInt => v.Number? && IsNonnegInt(v.token)
    case PositiveInt => v.Number? && IsNonnegInt(v.token) && ToNat(v.token) > 0
    case Anything => true
    case OneOf(values) => v.Str? && v.text in values
    case ListOf(item) => v.Arr? && forall i | 0 <= i < |v.items| :: Valid(item, v.items[i])
    case Record(rules) => v.Obj? && forall i | 0 <= i < |rules| :: Obeys(rules[i], v.fields)
  }

  predicate Obeys(rule: Rule, fields: seq<Field>)
    decreases rule
  {
    match Get(fields, rule.key)
    case None => !rule.required
    case Some(v) => Valid(rule.check, v)
  }

  function Must(key: Text, check: Check): Rule { Rule(key, true, check) }

  function May(key: Text, check: Check): Rule { Rule(key, false, check) }

  // ---- keys ----

  const ACTION := Ascii("action")
  const AFTER := Ascii("after")
  const APP := Ascii("app")
  const CACHE_READ_TOKENS := Ascii("cacheReadTokens")
  const CACHE_WRITE_TOKENS := Ascii("cacheWriteTokens")
  const CODE := Ascii("code")
  const COLLAPSED := Ascii("collapsed")
  const COUNT := Ascii("count")
  const DELTAS := Ascii("deltas")
  const DETAIL := Ascii("detail")
  const DURATION_MS := Ascii("durationMs")
  const EDITABLE := Ascii("editable")
  const EDITED := Ascii("edited")
  const ERROR := Ascii("error")
  const FINGERPRINT := Ascii("fingerprint")
  const FIRST_SEQ := Ascii("firstSeq")
  const HELD_MS := Ascii("heldMs")
  const INCLUSIVE := Ascii("inclusive")
  const INPUT := Ascii("input")
  const INPUT_TOKENS := Ascii("inputTokens")
  const INSTANCE_ID := Ascii("instanceId")
  const KEYS := Ascii("keys")
  const KIND := Ascii("kind")
  const LAPS := Ascii("laps")
  const LAST_SEQ := Ascii("lastSeq")
  const LOOP := Ascii("loop")
  const MESSAGE := Ascii("message")
  const META := Ascii("meta")
  const NAME := Ascii("name")
  const NODE_ID := Ascii("nodeId")
  const NODES := Ascii("nodes")
  const OUTPUT := Ascii("output")
  const OUTPUT_TOKENS := Ascii("outputTokens")
  const PARENT_ID := Ascii("parentId")
  const PAUSE_ID := Ascii("pauseId")
  const PERIOD := Ascii("period")
  const POINT := Ascii("point")
  const PRINCIPAL := Ascii("principal")
  const REASON := Ascii("reason")
  const REASONING_TOKENS := Ascii("reasoningTokens")
  const REDACTION := Ascii("redaction")
  const REPEATS := Ascii("repeats")
  const REQUEST_ID := Ascii("requestId")
  const RULE := Ascii("rule")
  const SDK := Ascii("sdk")
  const SMART := Ascii("smart")
  const STACK := Ascii("stack")
  const STATUS := Ascii("status")
  const TYPE_KEY := Ascii("t")
  const USAGE := Ascii("usage")
  const VALUE_KEY := Ascii("v")
  const VERSION := Ascii("version")

  // ---- the ten event types ----

  datatype EventType =
    | RunStarted | RunFinished | GraphHint | NodeStarted | NodeToken | NodeFinished | NodeError
    | ExecPaused | ExecRefused | ExecResumed
    | Unknown

  const NODE_KINDS: seq<Text> :=
    [Ascii("agent"), Ascii("llm"), Ascii("tool"), Ascii("chain"), Ascii("retriever"), Ascii("server"),
     Ascii("resource"), Ascii("prompt"), Ascii("custom")]
  const RUN_STATUSES: seq<Text> := [Ascii("ok"), Ascii("error"), Ascii("aborted")]
  const PAUSE_POINTS: seq<Text> := [Ascii("before"), Ascii("after"), Ascii("error")]
  const RESUME_ACTIONS: seq<Text> := [Ascii("continue"), Ascii("retry"), Ascii("inject"), Ascii("abort")]
  const PAUSE_REASONS: seq<Text> := [Ascii("breakpoint"), Ascii("error"), Ascii("step"), Ascii("loop")]
  const LOOP_KINDS: seq<Text> := [Ascii("repeat"), Ascii("cycle"), Ascii("error-repeat")]
  const SMART_RULES: seq<Text> := [Ascii("error-result"), Ascii("truncated-tool-call")]
  const REFUSAL_CODES: seq<Text> :=
    [Ascii("schema"), Ascii("shape"), Ascii("placeholder"), Ascii("truncated"), Ascii("disabled"), Ascii("unsupported")]
  const TOKEN_CHANNELS: seq<Text> := [Ascii("text"), Ascii("reasoning"), Ascii("tool-args")]

  const ERROR_INFO := Record([Must(NAME, AnyText), Must(MESSAGE, AnyText), May(STACK, AnyText)])
  const REDACTION_SUMMARY := Record([Must(COUNT, NonnegInt), Must(KEYS, ListOf(AnyText))])
  const USAGE_COUNTS :=
    Record([Must(INPUT_TOKENS, NonnegInt), Must(OUTPUT_TOKENS, NonnegInt), May(INCLUSIVE, AnyBool),
            May(CACHE_READ_TOKENS, NonnegInt), May(CACHE_WRITE_TOKENS, NonnegInt), May(REASONING_TOKENS, NonnegInt)])
  const LOOP_INFO :=
    Record([Must(REPEATS, NonnegInt), Must(FIRST_SEQ, NonnegInt), Must(LAST_SEQ, NonnegInt), Must(FINGERPRINT, AnyText),
            May(KIND, OneOf(LOOP_KINDS)), May(PERIOD, PositiveInt), May(LAPS, PositiveInt)])
  const SMART_INFO := Record([Must(RULE, OneOf(SMART_RULES)), May(DETAIL, AnyText)])
  const GRAPH_NODE :=
    Record([Must(NODE_ID, AnyText), Must(KIND, OneOf(NODE_KINDS)), Must(NAME, AnyText), May(PARENT_ID, AnyText)])
  const TOKEN_DELTA := Record([Must(TYPE_KEY, OneOf(TOKEN_CHANNELS)), Must(VALUE_KEY, AnyText)])
  const SDK_INFO := Record([Must(NAME, AnyText), Must(VERSION, AnyText)])

  function Rules(t: EventType): seq<Rule>
    requires t != Unknown
  {
    match t
    case RunStarted => [Must(APP, AnyText), Must(SDK, SDK_INFO), May(META, Record([]))]
    case RunFinished => [Must(STATUS, OneOf(RUN_STATUSES)), May(ERROR, ERROR_INFO)]
    case GraphHint => [Must(NODES, ListOf(GRAPH_NODE))]
    case NodeStarted =>
      [Must(NODE_ID, AnyText), May(PARENT_ID, AnyText), Must(KIND, OneOf(NODE_KINDS)), Must(NAME, AnyText),
       Must(INSTANCE_ID, AnyText), May(COLLAPSED, AnyBool), May(REDACTION, REDACTION_SUMMARY)]
    case NodeToken =>
      [Must(NODE_ID, AnyText), Must(DELTAS, ListOf(TOKEN_DELTA)), May(REDACTION, REDACTION_SUMMARY)]
    case NodeFinished =>
      [Must(NODE_ID, AnyText), May(INSTANCE_ID, AnyText), May(USAGE, USAGE_COUNTS), Must(DURATION_MS, NonnegNumber),
       May(HELD_MS, NonnegNumber), Must(STATUS, OneOf(RUN_STATUSES)), May(REDACTION, REDACTION_SUMMARY)]
    case NodeError =>
      [Must(NODE_ID, AnyText), May(INSTANCE_ID, AnyText), Must(ERROR, ERROR_INFO), May(HELD_MS, NonnegNumber)]
    case ExecPaused =>
      [Must(PAUSE_ID, AnyText), Must(NODE_ID, AnyText), Must(POINT, OneOf(PAUSE_POINTS)), May(REASON, OneOf(PAUSE_REASONS)),
       May(LOOP, LOOP_INFO), May(SMART, SMART_INFO), May(EDITABLE, AnyBool), May(INSTANCE_ID, AnyText)]
    case ExecRefused =>
      [Must(PAUSE_ID, AnyText), Must(CODE, OneOf(REFUSAL_CODES)), May(MESSAGE, AnyText), May(REQUEST_ID, AnyText)]
    case ExecResumed =>
      [Must(PAUSE_ID, AnyText), Must(ACTION, OneOf(RESUME_ACTIONS)), May(EDITED, Record([Must(AFTER, Anything)])),
       May(REQUEST_ID, AnyText), May(PRINCIPAL, AnyText)]
  }

  /** is_valid_event_payload: an unknown type is not judged. */
  predicate IsValidEvent(t: EventType, payload: Json)
  {
    t == Unknown || Valid(Record(Rules(t)), payload)
  }

  // ---- skeleton plans ----

  /** What a skeleton keeps of one field. */
  datatype Entry =
    | Keep(key: Text)
    | Nested(key: Text, plan: seq<Entry>)
    | Optional(key: Text)

  function Plan(t: EventType): seq<Entry>
    requires t != Unknown
  {
    match t
    case RunStarted => [Keep(APP), Nested(SDK, [Keep(NAME), Keep(VERSION)]), Optional(META)]
    case RunFinished => [Keep(STATUS), Optional(ERROR)]
    case GraphHint => [Keep(NODES)]
    case NodeStarted =>
      [Keep(NODE_ID), Optional(PARENT_ID), Keep(KIND), Keep(NAME), Keep(INSTANCE_ID), Optional(INPUT),
       Optional(COLLAPSED), Optional(REDACTION)]
    case NodeToken => [Keep(NODE_ID), Keep(DELTAS), Optional(REDACTION)]
    case NodeFinished =>
      [Keep(NODE_ID), Optional(INSTANCE_ID), Optional(OUTPUT), Optional(USAGE), Keep(DURATION_MS), Optional(HELD_MS),
       Keep(STATUS), Optional(REDACTION)]
    case NodeError =>
      [Keep(NODE_ID), Optional(INSTANCE_ID), Nested(ERROR, [Keep(NAME), Keep(MESSAGE), Optional(STACK)]), Optional(HELD_MS)]
    case ExecPaused =>
      [Keep(PAUSE_ID), Keep(NODE_ID), Keep(POINT), Optional(REASON), Optional(LOOP), Optional(SMART), Optional(EDITABLE),
       Optional(INSTANCE_ID)]
    case ExecRefused => [Keep(PAUSE_ID), Keep(CODE), Optional(MESSAGE), Optional(REQUEST_ID)]
    case ExecResumed => [Keep(PAUSE_ID), Keep(ACTION), Optional(EDITED), Optional(REQUEST_ID), Optional(PRINCIPAL)]
  }

  // ---- a plan that fits its schema ----

  const SHORTEST_CUT := 32

  /** Cutting a text at 32 units or more keeps this check: the texts it lists are shorter. */
  predicate CutSafe(check: Check)
  {
    check.OneOf? ==> forall i | 0 <= i < |check.values| :: |check.values[i]| <= SHORTEST_CUT
  }

  predicate DistinctKeys(plan: seq<Entry>) { forall i, j | 0 <= i < j < |plan| :: plan[i].key != plan[j].key }

  ghost predicate Fits(plan: seq<Entry>, rules: seq<Rule>)
    decreases plan, 1
  {
    DistinctKeys(plan) && forall i | 0 <= i < |rules| :: Keeps(plan, rules[i])
  }

  /** Some entry of the plan keeps what this rule requires. */
  ghost predicate Keeps(plan: seq<Entry>, rule: Rule)
    decreases plan, 0
  {
    exists j | 0 <= j < |plan| :: FitsRule(plan[j], rule)
  }

  ghost predicate FitsRule(e: Entry, rule: Rule)
    decreases e
  {
    && e.key == rule.key
    && CutSafe(rule.check)
    && match e
       case Keep(_) => !rule.check.Record? && !rule.check.Anything?
       case Nested(_, plan) => rule.check.Record? && Fits(plan, rule.check.rules)
       case Optional(_) => !rule.required
  }
}
