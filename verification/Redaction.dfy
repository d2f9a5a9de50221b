/**
 The redactor: what it sends for each event, and what it remembers.

 `Mask` erases every value a switch hides. `NonInterference` says that what is
 sent and remembered depends on the erased event only; `RedactionKeepsValid`
 that a valid payload stays valid, `FailedFormValid` that the form sent instead
 of an uninspectable one is valid too.
 */
module Redaction {
  import opened Utf16
  import opened Json
  import opened JsNumber
  import opened Schema
  import opened ShrinkSpec
  import opened OrderedDict

  const REDACTED := Ascii("__REDACTED__")
  const TOOL := Ascii("tool")
  const TOOL_PREFIX := Ascii("tool:")
  const TOOL_ARGS := Ascii("tool-args")
  const TOOL_CALLS := Ascii("toolCalls")
  const OUTPUT_TOOL_CALLS := Ascii("output.toolCalls")
  const CHARS := Ascii("chars")
  const FAILED := Ascii("failed")

  /** The fields of a requested tool call that carry its arguments. */
  const ARG_KEYS: seq<Text> := [INPUT, Ascii("inputText"), Ascii("arguments"), Ascii("args")]

  const MAX_TRACKED_NODES := 10000

  datatype Switches = Switches(hideInputs: bool, hideOutputs: bool, hideToolArgs: bool, hideToolResults: bool)
  {
    predicate Any() { hideInputs || hideOutputs || hideToolArgs || hideToolResults }
  }

  /** A host's payload: a dictionary, a mapping whose `items` raises, or something else. */
  datatype Payload = Dictionary(fields: seq<Field>) | Hostile(answers: map<Text, Json>, raising: set<Text>) | NotMapping

  datatype Event = Event(t: EventType, payload: Payload, run: Text, nodeKind: Option<Text>)

  datatype Out = Unchanged | Sent(payload: Json) | Dropped

  // ---- what is remembered ----

  type NodeKey = (Text, Text)
  type InstanceKey = (Text, Text, Text)

  datatype Tracking = Tracking(max: nat, nodes: Dict<NodeKey, Text>, instances: Dict<InstanceKey, Text>)

  /** Oldest first out, until at most n are left. */
  function Newest<K, V>(d: Dict<K, V>, n: nat): Dict<K, V> { if |d| > n then d[|d| - n..] else d }

  function Remember(st: Tracking, run: Text, node: Text, id: Option<Text>, kind: Text): Tracking
  {
    var nodes := Newest(Put(Remove(st.nodes, (run, node)), (run, node), kind), MAX_TRACKED_NODES);
    if id.None? then st.(nodes := nodes)
    else st.(nodes := nodes, instances := Newest(Put(st.instances, (run, node, id.value), kind), st.max))
  }

  function ForgetInstance(st: Tracking, run: Text, node: Option<Text>, id: Option<Text>): Tracking
  {
    if node.None? || id.None? then st else st.(instances := Remove(st.instances, (run, node.value, id.value)))
  }

  predicate IsToolNode(node: Text) { StartsWith(node, TOOL_PREFIX) }

  function KindOf(st: Tracking, run: Text, node: Text, id: Option<Text>): Option<Text>
  {
    var byInstance := if id.Some? then Find(st.instances, (run, node, id.value)) else None;
    var byNode := Find(st.nodes, (run, node));
    if byInstance.Some? then byInstance
    else if byNode.Some? then byNode
    else if IsToolNode(node) then Some(TOOL) else None
  }

  // ---- reading a payload ----

  datatype Inspect<+T> = Bad | Good(value: T)

  predicate IsPlaceholder(v: Json) { v == Str(REDACTED) }

  /** An identity field: absent or null is nothing, a text is itself, anything else cannot be inspected. */
  function Identity(fs: seq<Field>, key: Text): Inspect<Option<Text>>
  {
    match Get(fs, key)
    case None => Good(None)
    case Some(v) => if v.Null? then Good(None) else if v.Str? then Good(Some(v.text)) else Bad
  }

  function PlainTexts(items: seq<Json>): seq<Text>
  {
    if items == [] then [] else (if items[0].Str? then [items[0].text] else []) + PlainTexts(items[1..])
  }

  function PriorCount(v: Json): nat { if v.Number? && IsNonnegInt(v.token) then ToNat(v.token) else 0 }

  function Summary(count: nat, keys: seq<Text>): Json { Obj([Field(COUNT, Count(count)), Field(KEYS, Texts(keys))]) }

  function MergeSummary(existing: Option<Json>, count: nat, key: Text): Json
  {
    if existing.Some? && existing.value.Obj? then
      var c := Get(existing.value.fields, COUNT);
      var k := Get(existing.value.fields, KEYS);
      if c.Some? && (c.value.Number? || c.value.NonFinite?) && k.Some? && k.value.Arr? then
        var prior := PlainTexts(k.value.items);
        var total := PriorCount(c.value) + count;
        Summary(if total <= MAX_SAFE_INTEGER then total else count, if key in prior then prior else prior + [key])
      else Summary(count, [key])
    else Summary(count, [key])
  }

  /** The payload with one field hidden and the summary merged. */
  function HideField(fs: seq<Field>, key: Text, v: Json): Json
  {
    Obj(SetKey(SetKey(fs, key, v), REDACTION, MergeSummary(Get(fs, REDACTION), 1, key)))
  }

  // ---- node.started ----

  predicate HidesInput(sw: Switches, kind: Option<Text>) { sw.hideInputs || (sw.hideToolArgs && kind == Some(TOOL)) }

  predicate Visible(fs: seq<Field>, key: Text) { Get(fs, key).Some? && !IsPlaceholder(Get(fs, key).value) }

  predicate FinishReadable(fs: seq<Field>) { Identity(fs, NODE_ID).Good? && Identity(fs, INSTANCE_ID).Good? }

  predicate StartReadable(fs: seq<Field>) { Identity(fs, KIND).Good? && FinishReadable(fs) }

  function IdOf(fs: seq<Field>, key: Text): Option<Text>
  {
    if Identity(fs, key).Good? then Identity(fs, key).value else None
  }

  function OnStarted(sw: Switches, fs: seq<Field>): Inspect<Json>
  {
    if !StartReadable(fs) then Bad
    else if HidesInput(sw, IdOf(fs, KIND)) && Visible(fs, INPUT) then Good(HideField(fs, INPUT, Str(REDACTED)))
    else Good(Obj(fs))
  }

  function AfterStarted(st: Tracking, fs: seq<Field>, run: Text): Tracking
  {
    var node, kind := IdOf(fs, NODE_ID), IdOf(fs, KIND);
    if node.Some? && kind.Some? then Remember(st, run, node.value, IdOf(fs, INSTANCE_ID), kind.value) else st
  }

  // ---- node.finished ----

  function KindHere(st: Tracking, fs: seq<Field>, run: Text): Option<Text>
  {
    var node := IdOf(fs, NODE_ID);
    if node.Some? then KindOf(st, run, node.value, IdOf(fs, INSTANCE_ID)) else None
  }

  predicate HidesOutput(sw: Switches, kind: Option<Text>) { sw.hideOutputs || (sw.hideToolResults && kind == Some(TOOL)) }

  /** One requested call with its argument fields hidden, and how many there were. */
  function HideArgs(fs: seq<Field>, keys: seq<Text>): (r: (seq<Field>, nat))
    ensures r.1 <= |keys|
    decreases |keys|
  {
    if keys == [] then (fs, 0)
    else if Visible(fs, keys[0]) then
      var (rest, n) := HideArgs(SetKey(fs, keys[0], Str(REDACTED)), keys[1..]);
      (rest, n + 1)
    else HideArgs(fs, keys[1..])
  }

  function HideCall(call: Json): (r: (Json, nat))
    ensures r.1 <= 4
  {
    if call.Null? || IsPlaceholder(call) then (call, 0)
    else if !call.Obj? then (Str(REDACTED), 1)
    else
      var (entry, n) := HideArgs(call.fields, ARG_KEYS);
      (Obj(entry), n)
  }

  function HideCalls(calls: seq<Json>): (r: (seq<Json>, nat))
    ensures |r.0| == |calls| && r.1 <= 4 * |calls|
  {
    if calls == [] then ([], 0)
    else
      var (first, n) := HideCall(calls[0]);
      var (rest, m) := HideCalls(calls[1..]);
      ([first] + rest, n + m)
  }

  /** A list of calls entry by entry; anything else is replaced whole. */
  function HideCallList(calls: Json): (Json, nat)
  {
    if !calls.Arr? then (Str(REDACTED), 1)
    else
      var (items, n) := HideCalls(calls.items);
      (Arr(items), n)
  }

  /** The output is a mapping with tool calls to look at. */
  predicate CarriesCalls(fs: seq<Field>)
  {
    var output := Get(fs, OUTPUT);
    output.Some? && output.value.Obj? && Visible(output.value.fields, TOOL_CALLS) && !Get(output.value.fields, TOOL_CALLS).value.Null?
  }

  function WithCalls(fs: seq<Field>, inner: seq<Field>, hidden: Json, count: nat): Json
  {
    var out := SetKey(fs, OUTPUT, Obj(SetKey(inner, TOOL_CALLS, hidden)));
    if count == 0 then Obj(out) else Obj(SetKey(out, REDACTION, MergeSummary(Get(fs, REDACTION), count, OUTPUT_TOOL_CALLS)))
  }

  function HideToolCallArgs(fs: seq<Field>): Json
  {
    if !CarriesCalls(fs) then Obj(fs)
    else
      var inner := Get(fs, OUTPUT).value.fields;
      var (hidden, count) := HideCallList(Get(inner, TOOL_CALLS).value);
      WithCalls(fs, inner, hidden, count)
  }

  function OnFinished(sw: Switches, st: Tracking, fs: seq<Field>, run: Text): Inspect<Json>
  {
    if !FinishReadable(fs) then Bad
    else if HidesOutput(sw, KindHere(st, fs, run)) then
      if Visible(fs, OUTPUT) then Good(HideField(fs, OUTPUT, Str(REDACTED))) else Good(Obj(fs))
    else if sw.hideToolArgs || sw.hideInputs then Good(HideToolCallArgs(fs))
    else Good(Obj(fs))
  }

  // ---- node.token ----

  function HideDelta(d: Json, all: bool, args: bool): Inspect<(Json, nat)>
  {
    if d.Null? then Good((d, 0))
    else if !d.Obj? || Identity(d.fields, TYPE_KEY).Bad? then Bad
    else if !(all || (args && IdOf(d.fields, TYPE_KEY) == Some(TOOL_ARGS))) then Good((d, 0))
    else
      match Get(d.fields, VALUE_KEY)
      case None => Good((d, 0))
      case Some(v) =>
        if !v.Str? then Bad
        else if v.text == [] then Good((d, 0))
        else Good((Obj(SetKey(SetKey(d.fields, VALUE_KEY, Str([])), CHARS, Count(|v.text|))), 1))
  }

  function Prefixed(first: Inspect<(Json, nat)>, rest: Inspect<(seq<Json>, nat)>): Inspect<(seq<Json>, nat)>
  {
    if first.Bad? || rest.Bad? then Bad else Good(([first.value.0] + rest.value.0, first.value.1 + rest.value.1))
  }

  function HideDeltas(ds: seq<Json>, all: bool, args: bool): (r: Inspect<(seq<Json>, nat)>)
    ensures r.Good? ==> |r.value.0| == |ds| && r.value.1 <= |ds|
  {
    if ds == [] then Good(([], 0)) else Prefixed(HideDelta(ds[0], all, args), HideDeltas(ds[1..], all, args))
  }

  predicate HidesAllDeltas(sw: Switches, st: Tracking, fs: seq<Field>, run: Text)
  {
    sw.hideOutputs || (sw.hideToolResults && IdOf(fs, NODE_ID).Some? && KindOf(st, run, IdOf(fs, NODE_ID).value, None) == Some(TOOL))
  }

  function HideTokens(fs: seq<Field>, all: bool, args: bool): Inspect<Json>
  {
    var deltas := Get(fs, DELTAS);
    if deltas.None? || !deltas.value.Arr? then Bad
    else
      var hidden := HideDeltas(deltas.value.items, all, args);
      if hidden.Bad? then Bad
      else
        var out := SetKey(fs, DELTAS, Arr(hidden.value.0));
        if hidden.value.1 == 0 then Good(Obj(out))
        else Good(Obj(SetKey(out, REDACTION, MergeSummary(Get(fs, REDACTION), hidden.value.1, DELTAS))))
  }

  function OnToken(sw: Switches, st: Tracking, fs: seq<Field>, run: Text): Inspect<Json>
  {
    if Identity(fs, NODE_ID).Bad? then Bad
    else
      var all := HidesAllDeltas(sw, st, fs, run);
      var args := sw.hideToolArgs || sw.hideInputs;
      if !all && !args then Good(Obj(fs)) else HideTokens(fs, all, args)
  }

  // ---- exec.resumed and exec.refused ----

  predicate CoversPauseInput(sw: Switches, kind: Option<Text>)
  {
    sw.hideInputs || (sw.hideToolArgs && (kind.None? || kind.value == TOOL))
  }

  const HIDDEN_EDIT := Obj([Field(AFTER, Str(REDACTED))])

  predicate EditHidden(v: Json) { v.Obj? && |v.fields| == 1 && v.fields[0] == Field(AFTER, Str(REDACTED)) }

  function RemoveKey(fs: seq<Field>, key: Text): seq<Field>
  {
    if fs == [] then [] else (if fs[0].key == key then [] else [fs[0]]) + RemoveKey(fs[1..], key)
  }

  function OnAnswer(t: EventType, fs: seq<Field>): Inspect<Json>
  {
    if Identity(fs, PAUSE_ID).Bad? then Bad
    else if t == ExecResumed then
      var edited := Get(fs, EDITED);
      if edited.None? || EditHidden(edited.value) then Good(Obj(fs)) else Good(HideField(fs, EDITED, HIDDEN_EDIT))
    else if Get(fs, MESSAGE).None? then Good(Obj(fs))
    else Good(Obj(RemoveKey(SetKey(fs, REDACTION, MergeSummary(Get(fs, REDACTION), 1, MESSAGE)), MESSAGE)))
  }

  // ---- the failed forms ----

  /** mapping[key], nothing when it is absent or the read raises. */
  function Read(p: Payload, key: Text): Option<Json>
  {
    match p
    case Dictionary(fields) => Get(fields, key)
    case Hostile(answers, _) => if key in answers then Some(answers[key]) else None
    case NotMapping => None
  }

  function ReadText(p: Payload, key: Text): Option<Text>
  {
    var v := Read(p, key);
    if v.Some? && v.value.Str? then Some(v.value.text) else None
  }

  predicate IsDuration(v: Option<Json>) { v.Some? && v.value.Number? && Valid(NonnegNumber, v.value) }

  predicate IsTokenCount(v: Option<Json>) { v.Some? && v.value.Number? && IsNonnegInt(v.value.token) }

  function OptionalText(p: Payload, key: Text): seq<Field>
  {
    var v := ReadText(p, key);
    if v.Some? then [Field(key, Str(v.value))] else []
  }

  function OptionalCount(fs: seq<Field>, key: Text): seq<Field>
  {
    if IsTokenCount(Get(fs, key)) then [Field(key, Get(fs, key).value)] else []
  }

  /** The counts and the inclusive mark of a usage, nothing when the two required counts are not there. */
  function UsageForm(usage: Option<Json>): seq<Field>
  {
    if usage.None? || !usage.value.Obj? then []
    else
      var fs := usage.value.fields;
      if !IsTokenCount(Get(fs, INPUT_TOKENS)) || !IsTokenCount(Get(fs, OUTPUT_TOKENS)) then []
      else
        var inclusive := Get(fs, INCLUSIVE);
        [Field(USAGE, Obj(
          [Field(INPUT_TOKENS, Get(fs, INPUT_TOKENS).value), Field(OUTPUT_TOKENS, Get(fs, OUTPUT_TOKENS).value)]
          + (if inclusive.Some? && inclusive.value.Bool? then [Field(INCLUSIVE, inclusive.value)] else [])
          + OptionalCount(fs, CACHE_READ_TOKENS) + OptionalCount(fs, CACHE_WRITE_TOKENS) + OptionalCount(fs, REASONING_TOKENS)))]
  }

  function FailedSummary(keys: seq<Text>): Json
  {
    Obj([Field(COUNT, Count(0)), Field(KEYS, Texts(keys)), Field(FAILED, Bool(true))])
  }

  const NODE_FAILED: seq<Text> := [INPUT, OUTPUT, DELTAS]

  function FailedStarted(p: Payload): Option<Json>
  {
    var kind, name, id := ReadText(p, KIND), ReadText(p, NAME), ReadText(p, INSTANCE_ID);
    if kind.None? || kind.value !in NODE_KINDS || name.None? || id.None? || ReadText(p, NODE_ID).None? then None
    else
      Some(Obj([Field(NODE_ID, Str(ReadText(p, NODE_ID).value))] + OptionalText(p, PARENT_ID)
               + [Field(KIND, Str(kind.value)), Field(NAME, Str(name.value)), Field(INSTANCE_ID, Str(id.value)),
                  Field(INPUT, Str(REDACTED)), Field(REDACTION, FailedSummary(NODE_FAILED))]))
  }

  function OptionalHeld(held: Option<Json>): seq<Field> { if IsDuration(held) then [Field(HELD_MS, held.value)] else [] }

  function FailedFinished(p: Payload): Option<Json>
  {
    var duration, status, held := Read(p, DURATION_MS), ReadText(p, STATUS), Read(p, HELD_MS);
    if ReadText(p, NODE_ID).None? || !IsDuration(duration) || status.None? || status.value !in RUN_STATUSES then None
    else
      Some(Obj([Field(NODE_ID, Str(ReadText(p, NODE_ID).value))]
               + (OptionalText(p, INSTANCE_ID)
                  + ([Field(DURATION_MS, duration.value)]
                     + (OptionalHeld(held)
                        + ([Field(STATUS, Str(status.value))]
                           + (UsageForm(Read(p, USAGE))
                              + [Field(OUTPUT, Str(REDACTED)), Field(REDACTION, FailedSummary(NODE_FAILED))])))))))
  }

  function FailedToken(p: Payload): Option<Json>
  {
    if ReadText(p, NODE_ID).None? then None
    else
      Some(Obj([Field(NODE_ID, Str(ReadText(p, NODE_ID).value))] + OptionalText(p, INSTANCE_ID)
               + [Field(DELTAS, Arr([])), Field(REDACTION, FailedSummary(NODE_FAILED))]))
  }

  /** An edit that cannot be ruled out counts as there. */
  predicate MayHaveEdit(p: Payload) { Read(p, EDITED).Some? || (p.Hostile? && EDITED in p.raising) }

  function FailedResumed(p: Payload): Option<Json>
  {
    var pause, action := ReadText(p, PAUSE_ID), ReadText(p, ACTION);
    if pause.None? || action.None? || action.value !in RESUME_ACTIONS then None
    else
      Some(Obj([Field(PAUSE_ID, Str(pause.value)), Field(ACTION, Str(action.value))]
               + (if MayHaveEdit(p) then [Field(EDITED, HIDDEN_EDIT)] else []) + OptionalText(p, REQUEST_ID)
               + [Field(REDACTION, FailedSummary([EDITED]))]))
  }

  function FailedRefused(p: Payload): Option<Json>
  {
    var pause, code := ReadText(p, PAUSE_ID), ReadText(p, CODE);
    if pause.None? || code.None? || code.value !in REFUSAL_CODES then None
    else
      Some(Obj([Field(PAUSE_ID, Str(pause.value)), Field(CODE, Str(code.value))] + OptionalText(p, REQUEST_ID)
               + [Field(REDACTION, FailedSummary([MESSAGE]))]))
  }

  function FailedForm(t: EventType, p: Payload): Option<Json>
  {
    match t
    case NodeStarted => FailedStarted(p)
    case NodeFinished => FailedFinished(p)
    case NodeToken => FailedToken(p)
    case ExecResumed => FailedResumed(p)
    case ExecRefused => FailedRefused(p)
    case _ => None
  }

  function AfterFailed(st: Tracking, t: EventType, p: Payload, run: Text): Tracking
  {
    var node, id := ReadText(p, NODE_ID), ReadText(p, INSTANCE_ID);
    if t == NodeStarted && FailedStarted(p).Some? then Remember(st, run, node.value, id, ReadText(p, KIND).value)
    else if t == NodeFinished then ForgetInstance(st, run, node, id)
    else st
  }

  // ---- one event ----

  predicate IsNodeEvent(t: EventType) { t == NodeStarted || t == NodeFinished || t == NodeToken }

  predicate IsAnswer(t: EventType) { t == ExecResumed || t == ExecRefused }

  /** A switch may apply to this event. */
  predicate Inspected(sw: Switches, e: Event)
  {
    sw.Any() && (IsNodeEvent(e.t) || (IsAnswer(e.t) && CoversPauseInput(sw, e.nodeKind)))
  }

  function Handle(sw: Switches, st: Tracking, e: Event): Inspect<Json>
  {
    if !e.payload.Dictionary? then Bad
    else
      match e.t
      case NodeStarted => OnStarted(sw, e.payload.fields)
      case NodeFinished => OnFinished(sw, st, e.payload.fields, e.run)
      case NodeToken => OnToken(sw, st, e.payload.fields, e.run)
      case _ => OnAnswer(e.t, e.payload.fields)
  }

  function AfterHandled(st: Tracking, e: Event): Tracking
    requires e.payload.Dictionary?
  {
    var fs := e.payload.fields;
    match e.t
    case NodeStarted => AfterStarted(st, fs, e.run)
    case NodeFinished => ForgetInstance(st, e.run, IdOf(fs, NODE_ID), IdOf(fs, INSTANCE_ID))
    case _ => st
  }

  function Apply(sw: Switches, st: Tracking, e: Event): (Out, Tracking)
  {
    if !Inspected(sw, e) then (Unchanged, st)
    else
      var r := Handle(sw, st, e);
      if r.Good? then (Sent(r.value), AfterHandled(st, e))
      else
        var form := FailedForm(e.t, e.payload);
        (if form.Some? then Sent(form.value) else Dropped, AfterFailed(st, e.t, e.payload, e.run))
  }

  /** A whole stream: what is sent for each event, and what is remembered after it. */
  function ApplyAll(sw: Switches, st: Tracking, es: seq<Event>): (seq<Out>, Tracking)
    decreases |es|
  {
    if es == [] then ([], st)
    else
      var (out, next) := Apply(sw, st, es[0]);
      var (outs, last) := ApplyAll(sw, next, es[1..]);
      ([out] + outs, last)
  }
}
