/**
 What each switch hides, said from the switches and the event alone.

 For every event a switch covers, what is sent lacks the value or shows the
 placeholder, whether the payload could be inspected or not. What no switch
 covers is sent as it was, and the rest of a covered payload is untouched.
 */
module RedactionPolicy {
  import opened Utf16
  import opened Json
  import opened JsNumber
  import opened Schema
  import opened ShrinkSpec
  import opened Budget
  import opened OrderedDict
  import opened Redaction
  import opened RedactionPrivacy
  import RedactionValid

  // ---- what is sent ----

  predicate Absent(fs: seq<Field>, key: Text) { Get(fs, key).None? }

  predicate AbsentOrPlaceholder(fs: seq<Field>, key: Text) { Absent(fs, key) || Get(fs, key) == Some(Str(REDACTED)) }

  /** Nothing is sent, or a payload without the value. */
  predicate FieldHidden(out: Out, key: Text)
  {
    out.Dropped? || (out.Sent? && out.payload.Obj? && AbsentOrPlaceholder(out.payload.fields, key))
  }

  predicate SentAsIs(out: Out, fs: seq<Field>) { out.Unchanged? || out == Sent(Obj(fs)) }

  /** Every field but one and the summary is the same. */
  ghost predicate OnlyChanges(fs: seq<Field>, r: seq<Field>, key: Text)
  {
    forall k | k != key && k != REDACTION :: Get(r, k) == Get(fs, k)
  }

  /** An identity field that can be read: absent, null or a text. */
  predicate Legible(fs: seq<Field>, key: Text)
  {
    var v := Get(fs, key);
    v.None? || v.value.Null? || v.value.Str?
  }

  lemma LegibleIdentity(fs: seq<Field>, key: Text)
    ensures Identity(fs, key).Good? <==> Legible(fs, key)
    ensures IdOf(fs, key) == ReadText(Dictionary(fs), key)
  {
  }

  // ---- node.started ----

  predicate CoversStart(sw: Switches, e: Event) { sw.hideInputs || (sw.hideToolArgs && ReadText(e.payload, KIND) == Some(TOOL)) }

  predicate LegibleStart(fs: seq<Field>) { Legible(fs, KIND) && Legible(fs, NODE_ID) && Legible(fs, INSTANCE_ID) }

  lemma HiddenFieldEffect(fs: seq<Field>, key: Text, v: Json)
    requires key != REDACTION
    ensures var r := HideField(fs, key, v).fields;
            && Get(r, key) == Some(v) && OnlyChanges(fs, r, key)
            && Get(r, REDACTION) == Some(MergeSummary(Get(fs, REDACTION), 1, key))
  {
    hide MergeSummary;
    var summary := MergeSummary(Get(fs, REDACTION), 1, key);
    forall k ensures Get(HideField(fs, key, v).fields, k) ==
                     if k == REDACTION then Some(summary) else if k == key then Some(v) else Get(fs, k)
    {
      GetSetKey(SetKey(fs, key, v), REDACTION, summary, k);
      GetSetKey(fs, key, v, k);
    }
  }

  /** The first field with its key is the one that is read. */
  lemma {:induction false} GetFirst(fs: seq<Field>, i: nat)
    requires i < |fs| && forall j | 0 <= j < i :: fs[j].key != fs[i].key
    ensures Get(fs, fs[i].key) == Some(fs[i].value)
  {
    if i > 0 {
      assert fs[1..][i - 1] == fs[i];
      assert forall j | 0 <= j < i - 1 :: fs[1..][j] == fs[j + 1];
      GetFirst(fs[1..], i - 1);
    }
  }

  lemma InputAt(front: Field, parent: seq<Field>, rest: seq<Field>)
    requires front.key != INPUT && Lacks(parent, INPUT) && |rest| == 5 && rest[3] == Field(INPUT, Str(REDACTED))
    requires rest[0].key != INPUT && rest[1].key != INPUT && rest[2].key != INPUT
    ensures Get([front] + parent + rest, INPUT) == Some(Str(REDACTED))
  {
    hide Get;
    assert Lacks([front], INPUT);
    SkipField(parent, rest, INPUT);
    SkipField([front], parent + rest, INPUT);
    assert [front] + parent + rest == [front] + (parent + rest);
    GetFirst(rest, 3);
  }

  lemma FailedStartHides(p: Payload)
    requires FailedStarted(p).Some?
    ensures Get(FailedStarted(p).value.fields, INPUT) == Some(Str(REDACTED))
  {
    hide Get, ReadText, FailedSummary, NODE_KINDS, OptionalText, Lacks;
    InputFollows(p);
    InputAt(Field(NODE_ID, Str(ReadText(p, NODE_ID).value)), OptionalText(p, PARENT_ID),
            [Field(KIND, Str(ReadText(p, KIND).value)), Field(NAME, Str(ReadText(p, NAME).value)),
             Field(INSTANCE_ID, Str(ReadText(p, INSTANCE_ID).value)), Field(INPUT, Str(REDACTED)),
             Field(REDACTION, FailedSummary(NODE_FAILED))]);
  }

  lemma InputFollows(p: Payload)
    ensures Lacks(OptionalText(p, PARENT_ID), INPUT)
    ensures INPUT != NODE_ID && INPUT != KIND && INPUT != NAME && INPUT != INSTANCE_ID
  {
    HiddenApart();
  }

  /** `hideInputs` hides every input, `hideToolArgs` a tool's; other starts are sent as they were. */
  lemma StartPolicy(sw: Switches, st: Tracking, e: Event)
    requires e.t == NodeStarted
    ensures CoversStart(sw, e) ==> FieldHidden(Apply(sw, st, e).0, INPUT)
    ensures e.payload.Dictionary? && LegibleStart(e.payload.fields) ==>
              var fs, out := e.payload.fields, Apply(sw, st, e).0;
              if !CoversStart(sw, e) || AbsentOrPlaceholder(fs, INPUT) then SentAsIs(out, fs)
              else
                out.Sent? && out.payload.Obj? && Get(out.payload.fields, INPUT) == Some(Str(REDACTED))
                && OnlyChanges(fs, out.payload.fields, INPUT)
                && Get(out.payload.fields, REDACTION) == Some(MergeSummary(Get(fs, REDACTION), 1, INPUT))
  {
    hide MergeSummary, Remember, FailedStarted, OnlyChanges, HideField, Legible, Identity;
    HiddenApart();
    if e.payload.Dictionary? {
      var fs := e.payload.fields;
      LegibleIdentity(fs, KIND);
      LegibleIdentity(fs, NODE_ID);
      LegibleIdentity(fs, INSTANCE_ID);
      HiddenFieldEffect(fs, INPUT, Str(REDACTED));
      HidesObject(fs, INPUT);
    }
    if FailedStarted(e.payload).Some? {
      FailedStartHides(e.payload);
      FailedStartObject(e.payload);
    }
  }

  lemma HidesObject(fs: seq<Field>, key: Text)
    ensures HideField(fs, key, Str(REDACTED)).Obj?
  {
  }

  lemma FailedStartObject(p: Payload)
    requires FailedStarted(p).Some?
    ensures FailedStarted(p).value.Obj?
  {
  }

  // ---- what a node's kind is ----

  /** What is remembered of the instance, else of the node, else what the node's name says. */
  predicate KnownAsTool(st: Tracking, run: Text, node: Text, id: Option<Text>)
  {
    if id.Some? && Has(st.instances, (run, node, id.value)) then Find(st.instances, (run, node, id.value)) == Some(TOOL)
    else if Has(st.nodes, (run, node)) then Find(st.nodes, (run, node)) == Some(TOOL)
    else |node| >= 5 && node[..5] == TOOL_PREFIX
  }

  lemma KnownKind(st: Tracking, run: Text, node: Text, id: Option<Text>)
    ensures KindOf(st, run, node, id) == Some(TOOL) <==> KnownAsTool(st, run, node, id)
  {
  }

  // ---- node.finished ----

  predicate CoversFinish(sw: Switches, st: Tracking, e: Event)
  {
    sw.hideOutputs
    || (sw.hideToolResults && ReadText(e.payload, NODE_ID).Some?
        && KnownAsTool(st, e.run, ReadText(e.payload, NODE_ID).value, ReadText(e.payload, INSTANCE_ID)))
  }

  predicate CoversArgs(sw: Switches) { sw.hideToolArgs || sw.hideInputs }

  predicate LegibleFinish(fs: seq<Field>) { Legible(fs, NODE_ID) && Legible(fs, INSTANCE_ID) }

  /** A requested call without arguments to see. */
  predicate CallHidden(call: Json)
  {
    || call.Null? || call == Str(REDACTED)
    || (call.Obj? && forall i | 0 <= i < |ARG_KEYS| :: AbsentOrPlaceholder(call.fields, ARG_KEYS[i]))
  }

  /** The calls a model requested: none, a placeholder, or a list of calls without arguments. */
  predicate CallsHidden(calls: Json)
  {
    calls.Null? || calls == Str(REDACTED) || (calls.Arr? && forall i | 0 <= i < |calls.items| :: CallHidden(calls.items[i]))
  }

  predicate ArgumentsHidden(out: Out)
  {
    out.Dropped? || (out.Sent? && out.payload.Obj? &&
      var output := Get(out.payload.fields, OUTPUT);
      output.Some? && output.value.Obj? && Get(output.value.fields, TOOL_CALLS).Some? ==>
        CallsHidden(Get(output.value.fields, TOOL_CALLS).value))
  }

  lemma {:induction false} HideArgsOthers(fs: seq<Field>, keys: seq<Text>, key: Text)
    requires key !in keys
    ensures Get(HideArgs(fs, keys).0, key) == Get(fs, key)
    decreases |keys|
  {
    if keys != [] {
      if Visible(fs, keys[0]) {
        GetSetKey(fs, keys[0], Str(REDACTED), key);
        HideArgsOthers(SetKey(fs, keys[0], Str(REDACTED)), keys[1..], key);
      } else {
        HideArgsOthers(fs, keys[1..], key);
      }
    }
  }

  lemma {:induction false} HideArgsHides(fs: seq<Field>, keys: seq<Text>, key: Text)
    requires key in keys && forall i, j | 0 <= i < j < |keys| :: keys[i] != keys[j]
    ensures AbsentOrPlaceholder(HideArgs(fs, keys).0, key)
    decreases |keys|
  {
    var rest := keys[1..];
    var next := if Visible(fs, keys[0]) then SetKey(fs, keys[0], Str(REDACTED)) else fs;
    GetSetKey(fs, keys[0], Str(REDACTED), keys[0]);
    if key == keys[0] {
      HideArgsOthers(next, rest, key);
    } else {
      HideArgsHides(next, rest, key);
    }
  }

  lemma CallBecomesHidden(call: Json)
    ensures CallHidden(HideCall(call).0)
  {
    if call.Obj? {
      ArgKeysDiffer();
      forall i | 0 <= i < |ARG_KEYS| ensures AbsentOrPlaceholder(HideArgs(call.fields, ARG_KEYS).0, ARG_KEYS[i]) {
        HideArgsHides(call.fields, ARG_KEYS, ARG_KEYS[i]);
      }
    }
  }

  lemma {:induction false} CallsBecomeHidden(calls: seq<Json>)
    ensures forall i | 0 <= i < |calls| :: CallHidden(HideCalls(calls).0[i])
  {
    if calls != [] {
      CallBecomesHidden(calls[0]);
      CallsBecomeHidden(calls[1..]);
    }
  }

  lemma CallListBecomesHidden(calls: Json)
    ensures CallsHidden(HideCallList(calls).0)
  {
    if calls.Arr? {
      CallsBecomeHidden(calls.items);
    }
  }

  lemma ToolCallArgsHidden(fs: seq<Field>)
    ensures var r := HideToolCallArgs(fs); r.Obj? && ArgumentsHidden(Sent(r)) && OnlyChanges(fs, r.fields, OUTPUT)
  {
    hide CallsHidden, HideCallList, MergeSummary;
    if CarriesCalls(fs) {
      HiddenApart();
      var inner := Get(fs, OUTPUT).value.fields;
      var (hidden, count) := HideCallList(Get(inner, TOOL_CALLS).value);
      var output := Obj(SetKey(inner, TOOL_CALLS, hidden));
      CallListBecomesHidden(Get(inner, TOOL_CALLS).value);
      GetSetKey(inner, TOOL_CALLS, hidden, TOOL_CALLS);
      WithCallsReads(fs, inner, hidden, count);
    } else {
      CallsAlreadyHidden(fs);
    }
  }

  lemma CallsAlreadyHidden(fs: seq<Field>)
    requires !CarriesCalls(fs)
    ensures ArgumentsHidden(Sent(Obj(fs)))
  {
  }

  /** One requested call before and after. */
  ghost predicate CallIs(call: Json, r: Json)
  {
    if call.Null? || call == Str(REDACTED) then r == call
    else if !call.Obj? then r == Str(REDACTED)
    else
      r.Obj? && forall k :: Get(r.fields, k) == if k in ARG_KEYS && Get(call.fields, k).Some? then Some(Str(REDACTED)) else Get(call.fields, k)
  }

  lemma CallRewritten(call: Json)
    ensures CallIs(call, HideCall(call).0)
  {
    if call.Obj? {
      ArgKeysDiffer();
      forall k
        ensures Get(HideArgs(call.fields, ARG_KEYS).0, k) ==
                if k in ARG_KEYS && Get(call.fields, k).Some? then Some(Str(REDACTED)) else Get(call.fields, k)
      {
        if k in ARG_KEYS {
          HideArgsHides(call.fields, ARG_KEYS, k);
          HideArgsKeepsKeys(call.fields, ARG_KEYS, k);
        } else {
          HideArgsOthers(call.fields, ARG_KEYS, k);
        }
      }
    }
  }

  lemma {:induction false} CallsRewritten(calls: seq<Json>)
    ensures forall i | 0 <= i < |calls| :: CallIs(calls[i], HideCalls(calls).0[i])
  {
    hide CallIs;
    if calls != [] {
      CallRewritten(calls[0]);
      CallsRewritten(calls[1..]);
    }
  }

  /** A finish before and after its requested calls lost their arguments. */
  ghost predicate FinishRewritten(fs: seq<Field>, r: seq<Field>)
  {
    && OnlyChanges(fs, r, OUTPUT)
    && if !CarriesCalls(fs) then Get(r, OUTPUT) == Get(fs, OUTPUT)
       else
         var inner, calls := Get(fs, OUTPUT).value.fields, Get(Get(fs, OUTPUT).value.fields, TOOL_CALLS).value;
         && Get(r, OUTPUT).Some? && Get(r, OUTPUT).value.Obj?
         && var after := Get(r, OUTPUT).value.fields;
            && (forall k | k != TOOL_CALLS :: Get(after, k) == Get(inner, k))
            && Get(after, TOOL_CALLS).Some?
            && CallListIs(calls, Get(after, TOOL_CALLS).value)
  }

  ghost predicate CallListIs(calls: Json, r: Json)
  {
    if !calls.Arr? then r == Str(REDACTED)
    else r.Arr? && |r.items| == |calls.items| && forall i | 0 <= i < |calls.items| :: CallIs(calls.items[i], r.items[i])
  }

  lemma CallListRewritten(calls: Json)
    ensures CallListIs(calls, HideCallList(calls).0)
  {
    hide CallIs;
    if calls.Arr? {
      CallsRewritten(calls.items);
    }
  }

  lemma ToolCallsRewritten(fs: seq<Field>)
    ensures HideToolCallArgs(fs).Obj? && FinishRewritten(fs, HideToolCallArgs(fs).fields)
  {
    hide CallListIs, HideCallList, MergeSummary, OnlyChanges;
    if CarriesCalls(fs) {
      var inner := Get(fs, OUTPUT).value.fields;
      var calls := Get(inner, TOOL_CALLS).value;
      var (hidden, count) := HideCallList(calls);
      CallListRewritten(calls);
      WithCallsReads(fs, inner, hidden, count);
      forall k ensures Get(SetKey(inner, TOOL_CALLS, hidden), k) == if k == TOOL_CALLS then Some(hidden) else Get(inner, k) {
        GetSetKey(inner, TOOL_CALLS, hidden, k);
      }
    } else {
      NothingChanges(fs, OUTPUT);
    }
  }

  lemma NothingChanges(fs: seq<Field>, key: Text)
    ensures OnlyChanges(fs, fs, key)
  {
  }

  lemma WithCallsReads(fs: seq<Field>, inner: seq<Field>, hidden: Json, count: nat)
    ensures var r := WithCalls(fs, inner, hidden, count);
            && r.Obj? && Get(r.fields, OUTPUT) == Some(Obj(SetKey(inner, TOOL_CALLS, hidden)))
            && OnlyChanges(fs, r.fields, OUTPUT)
  {
    hide MergeSummary;
    HiddenApart();
    var output := Obj(SetKey(inner, TOOL_CALLS, hidden));
    var summary := MergeSummary(Get(fs, REDACTION), count, OUTPUT_TOOL_CALLS);
    forall k | k != REDACTION ensures Get(WithCalls(fs, inner, hidden, count).fields, k) == if k == OUTPUT then Some(output) else Get(fs, k) {
      GetSetKey(fs, OUTPUT, output, k);
      GetSetKey(SetKey(fs, OUTPUT, output), REDACTION, summary, k);
    }
  }

  lemma FailedFinishHides(p: Payload)
    requires FailedFinished(p).Some?
    ensures FailedFinished(p).value.Obj? && Get(FailedFinished(p).value.fields, OUTPUT) == Some(Str(REDACTED))
  {
    FailedOutputHidden(p);
  }

  /**
   A covered output is hidden. Elsewhere the argument switches hide the arguments
   of the calls a model requested, and without them the finish is sent as it was.
   */
  lemma FinishPolicy(sw: Switches, st: Tracking, e: Event)
    requires e.t == NodeFinished
    ensures CoversFinish(sw, st, e) ==> FieldHidden(Apply(sw, st, e).0, OUTPUT)
    ensures CoversArgs(sw) ==> ArgumentsHidden(Apply(sw, st, e).0)
    ensures e.payload.Dictionary? && LegibleFinish(e.payload.fields) ==>
              var fs, out := e.payload.fields, Apply(sw, st, e).0;
              if CoversFinish(sw, st, e) && !AbsentOrPlaceholder(fs, OUTPUT) then
                out.Sent? && out.payload.Obj? && Get(out.payload.fields, OUTPUT) == Some(Str(REDACTED))
                && OnlyChanges(fs, out.payload.fields, OUTPUT)
                && Get(out.payload.fields, REDACTION) == Some(MergeSummary(Get(fs, REDACTION), 1, OUTPUT))
              else if CoversArgs(sw) && !CoversFinish(sw, st, e) then
                out.Sent? && out.payload.Obj? && FinishRewritten(fs, out.payload.fields)
              else SentAsIs(out, fs)
  {
    hide MergeSummary, FailedFinished, FinishRewritten, OnlyChanges, HideField, HideToolCallArgs, Legible, Identity, KindOf, KnownAsTool, ArgumentsHidden, IdOf;
    HiddenApart();
    if e.payload.Dictionary? {
      var fs := e.payload.fields;
      LegibleIdentity(fs, NODE_ID);
      LegibleIdentity(fs, INSTANCE_ID);
      HiddenFieldEffect(fs, OUTPUT, Str(REDACTED));
      HidesObject(fs, OUTPUT);
      ToolCallArgsHidden(fs);
      ToolCallsRewritten(fs);
      if IdOf(fs, NODE_ID).Some? {
        KnownKind(st, e.run, IdOf(fs, NODE_ID).value, IdOf(fs, INSTANCE_ID));
      }
    }
    if FailedFinished(e.payload).Some? {
      FailedFinishHides(e.payload);
    }
    HiddenOutputHidesArguments(Apply(sw, st, e).0);
  }

  lemma HiddenOutputHidesArguments(out: Out)
    ensures FieldHidden(out, OUTPUT) ==> ArgumentsHidden(out)
  {
  }

  lemma {:induction false} HideArgsKeepsKeys(fs: seq<Field>, keys: seq<Text>, key: Text)
    ensures Get(HideArgs(fs, keys).0, key).Some? == Get(fs, key).Some?
    decreases |keys|
  {
    if keys != [] {
      if Visible(fs, keys[0]) {
        GetSetKey(fs, keys[0], Str(REDACTED), key);
        HideArgsKeepsKeys(SetKey(fs, keys[0], Str(REDACTED)), keys[1..], key);
      } else {
        HideArgsKeepsKeys(fs, keys[1..], key);
      }
    }
  }

  // ---- node.token ----

  predicate CoversTokens(sw: Switches, st: Tracking, e: Event)
  {
    sw.hideOutputs
    || (sw.hideToolResults && ReadText(e.payload, NODE_ID).Some? && KnownAsTool(st, e.run, ReadText(e.payload, NODE_ID).value, None))
  }

  predicate OnArgsChannel(d: Json) { d.Obj? && Get(d.fields, TYPE_KEY) == Some(Str(TOOL_ARGS)) }

  /** Every delta of the tool-args channel shows no text. */
  predicate ArgsDeltasHidden(out: Out)
  {
    out.Dropped? || (out.Sent? && out.payload.Obj? &&
      var deltas := Get(out.payload.fields, DELTAS);
      deltas.Some? && deltas.value.Arr?
      && forall i | 0 <= i < |deltas.value.items| && OnArgsChannel(deltas.value.items[i]) :: ShowsNothing(deltas.value.items[i]))
  }

  /** A delta before and after: what is covered loses its text and shows its length, the rest is as it was. */
  ghost predicate DeltaRewritten(d: Json, r: Json, covered: bool)
  {
    if !covered || !d.Obj? || Get(d.fields, VALUE_KEY).None? || Get(d.fields, VALUE_KEY) == Some(Str([])) then r == d
    else
      && r.Obj? && Get(d.fields, VALUE_KEY).value.Str?
      && Get(r.fields, VALUE_KEY) == Some(Str([]))
      && Get(r.fields, CHARS) == Some(Count(|Get(d.fields, VALUE_KEY).value.text|))
      && forall k | k != VALUE_KEY && k != CHARS :: Get(r.fields, k) == Get(d.fields, k)
  }

  lemma CharsApart()
    ensures CHARS != VALUE_KEY && CHARS != TYPE_KEY && VALUE_KEY != TYPE_KEY
  {
    assert CHARS[0] == 'c' as int && VALUE_KEY[0] == 'v' as int && TYPE_KEY[0] == 't' as int;
  }

  lemma DeltaPolicy(d: Json, all: bool, args: bool)
    requires HideDelta(d, all, args).Good?
    ensures DeltaRewritten(d, HideDelta(d, all, args).value.0, all || (args && OnArgsChannel(d)))
  {
    hide Count;
    if HideDelta(d, all, args).value.1 == 1 {
      CharsApart();
      var n := Count(|Get(d.fields, VALUE_KEY).value.text|);
      forall k ensures Get(HideDelta(d, all, args).value.0.fields, k) ==
                       if k == CHARS then Some(n) else if k == VALUE_KEY then Some(Str([])) else Get(d.fields, k)
      {
        GetSetKey(d.fields, VALUE_KEY, Str([]), k);
        GetSetKey(SetKey(d.fields, VALUE_KEY, Str([])), CHARS, n, k);
      }
    }
  }

  lemma {:induction false} DeltasPolicy(ds: seq<Json>, all: bool, args: bool)
    requires HideDeltas(ds, all, args).Good?
    ensures forall i | 0 <= i < |ds| ::
              DeltaRewritten(ds[i], HideDeltas(ds, all, args).value.0[i], all || (args && OnArgsChannel(ds[i])))
  {
    hide DeltaRewritten, OnArgsChannel, HideDelta;
    if ds != [] {
      DeltaPolicy(ds[0], all, args);
      DeltasPolicy(ds[1..], all, args);
    }
  }

  lemma RewrittenShows(d: Json, r: Json, covered: bool)
    requires DeltaRewritten(d, r, covered) && (d.Null? || d.Obj?)
    ensures covered ==> ShowsNothing(r)
    ensures OnArgsChannel(r) <==> OnArgsChannel(d)
  {
    CharsApart();
  }

  /** The deltas of a token event before and after. */
  ghost predicate TokensRewritten(fs: seq<Field>, r: seq<Field>, all: bool, args: bool)
  {
    var a, b := Get(fs, DELTAS), Get(r, DELTAS);
    && a.Some? && a.value.Arr? && b.Some? && b.value.Arr? && |a.value.items| == |b.value.items|
    && (forall i | 0 <= i < |a.value.items| :: a.value.items[i].Null? || a.value.items[i].Obj?)
    && (forall i | 0 <= i < |a.value.items| ::
          DeltaRewritten(a.value.items[i], b.value.items[i], all || (args && OnArgsChannel(a.value.items[i]))))
    && OnlyChanges(fs, r, DELTAS)
  }

  lemma {:induction false} GoodDeltas(ds: seq<Json>, all: bool, args: bool)
    requires HideDeltas(ds, all, args).Good?
    ensures forall i | 0 <= i < |ds| :: ds[i].Null? || ds[i].Obj?
  {
    if ds != [] {
      GoodDeltas(ds[1..], all, args);
    }
  }

  /** Every delta can be read: nothing, or a mapping whose channel, and whose text where it is covered, is a text. */
  predicate LegibleDeltas(ds: seq<Json>, all: bool, args: bool)
  {
    forall i | 0 <= i < |ds| ::
      ds[i].Null? || (ds[i].Obj? && Legible(ds[i].fields, TYPE_KEY)
                      && (all || (args && OnArgsChannel(ds[i])) ==>
                            Get(ds[i].fields, VALUE_KEY).None? || Get(ds[i].fields, VALUE_KEY).value.Str?))
  }

  predicate LegibleTokens(fs: seq<Field>, all: bool, args: bool)
  {
    Get(fs, DELTAS).Some? && Get(fs, DELTAS).value.Arr? && LegibleDeltas(Get(fs, DELTAS).value.items, all, args)
  }

  lemma {:induction false} LegibleDeltasGood(ds: seq<Json>, all: bool, args: bool)
    ensures HideDeltas(ds, all, args).Good? <==> LegibleDeltas(ds, all, args)
  {
    if ds != [] {
      LegibleDeltasGood(ds[1..], all, args);
      if ds[0].Obj? {
        LegibleIdentity(ds[0].fields, TYPE_KEY);
      }
      assert forall i | 0 < i < |ds| :: ds[i] == ds[1..][i - 1];
      assert forall i | 0 <= i < |ds[1..]| :: ds[1..][i] == ds[i + 1];
    }
  }

  lemma HideTokensRewrites(fs: seq<Field>, all: bool, args: bool)
    requires HideTokens(fs, all, args).Good?
    ensures var r := HideTokens(fs, all, args).value; r.Obj? && TokensRewritten(fs, r.fields, all, args)
  {
    hide HideDeltas, MergeSummary, DeltaRewritten, OnArgsChannel;
    HiddenApart();
    var items := Get(fs, DELTAS).value.items;
    DeltasPolicy(items, all, args);
    GoodDeltas(items, all, args);
    var hidden := HideDeltas(items, all, args).value;
    var summary := MergeSummary(Get(fs, REDACTION), hidden.1, DELTAS);
    forall k | k != REDACTION
      ensures Get(HideTokens(fs, all, args).value.fields, k) == if k == DELTAS then Some(Arr(hidden.0)) else Get(fs, k)
    {
      GetSetKey(fs, DELTAS, Arr(hidden.0), k);
      GetSetKey(SetKey(fs, DELTAS, Arr(hidden.0)), REDACTION, summary, k);
    }
  }

  lemma RewrittenTokensHide(fs: seq<Field>, r: seq<Field>, all: bool, args: bool)
    requires TokensRewritten(fs, r, all, args)
    ensures all ==> DeltasHidden(Sent(Obj(r)))
    ensures all || args ==> ArgsDeltasHidden(Sent(Obj(r)))
  {
    hide DeltaRewritten, OnArgsChannel, ShowsNothing, OnlyChanges;
    var a, b := Get(fs, DELTAS).value.items, Get(r, DELTAS).value.items;
    forall i | 0 <= i < |b|
      ensures all ==> ShowsNothing(b[i])
      ensures (all || args) && OnArgsChannel(b[i]) ==> ShowsNothing(b[i])
    {
      RewrittenShows(a[i], b[i], all || (args && OnArgsChannel(a[i])));
    }
  }

  lemma FailedTokenHides(p: Payload)
    requires FailedToken(p).Some?
    ensures DeltasHidden(Sent(FailedToken(p).value)) && ArgsDeltasHidden(Sent(FailedToken(p).value))
  {
    FailedTokenShows(p);
    NothingShownHidesArgs(Sent(FailedToken(p).value));
  }

  lemma NothingShownHidesArgs(out: Out)
    requires DeltasHidden(out)
    ensures ArgsDeltasHidden(out)
  {
  }

  /**
   Covered deltas lose their text, the failed form included; the others are sent
   as they were, and without a covering switch so is the event.
   */
  lemma TokenPolicy(sw: Switches, st: Tracking, e: Event)
    requires e.t == NodeToken
    ensures CoversTokens(sw, st, e) ==> DeltasHidden(Apply(sw, st, e).0)
    ensures CoversArgs(sw) ==> ArgsDeltasHidden(Apply(sw, st, e).0)
    ensures e.payload.Dictionary? && Legible(e.payload.fields, NODE_ID) && !CoversTokens(sw, st, e) && !CoversArgs(sw) ==>
              SentAsIs(Apply(sw, st, e).0, e.payload.fields)
    ensures var out := Apply(sw, st, e).0;
            e.payload.Dictionary? && Legible(e.payload.fields, NODE_ID) && (CoversTokens(sw, st, e) || CoversArgs(sw))
            && LegibleTokens(e.payload.fields, CoversTokens(sw, st, e), CoversArgs(sw)) ==>
              out.Sent? && out.payload.Obj? && TokensRewritten(e.payload.fields, out.payload.fields, CoversTokens(sw, st, e), CoversArgs(sw))
  {
    hide HideTokens, LegibleTokens, Legible, Identity, KindOf, KnownAsTool, DeltasHidden, ArgsDeltasHidden, TokensRewritten, FailedToken, IdOf;
    if e.payload.Dictionary? {
      var fs := e.payload.fields;
      LegibleIdentity(fs, NODE_ID);
      if IdOf(fs, NODE_ID).Some? {
        KnownKind(st, e.run, IdOf(fs, NODE_ID).value, None);
      }
      var all, args := CoversTokens(sw, st, e), CoversArgs(sw);
      TokensGood(fs, all, args);
      if HideTokens(fs, all, args).Good? {
        HideTokensRewrites(fs, all, args);
        RewrittenTokensHide(fs, HideTokens(fs, all, args).value.fields, all, args);
      }
    }
    if FailedToken(e.payload).Some? {
      FailedTokenHides(e.payload);
    }
    DroppedHides();
  }

  lemma TokensGood(fs: seq<Field>, all: bool, args: bool)
    ensures HideTokens(fs, all, args).Good? <==> LegibleTokens(fs, all, args)
  {
    hide LegibleDeltas, HideDeltas, MergeSummary;
    if Get(fs, DELTAS).Some? && Get(fs, DELTAS).value.Arr? {
      LegibleDeltasGood(Get(fs, DELTAS).value.items, all, args);
    }
  }

  lemma DroppedHides()
    ensures DeltasHidden(Dropped) && ArgsDeltasHidden(Dropped)
  {
  }

  // ---- exec.resumed and exec.refused ----

  /** The switches that cover a paused node's input; an unknown kind counts as a tool. */
  predicate CoversAnswer(sw: Switches, e: Event) { sw.hideInputs || (sw.hideToolArgs && (e.nodeKind.None? || e.nodeKind == Some(TOOL))) }

  predicate EditNotShown(out: Out)
  {
    out.Dropped? || (out.Sent? && out.payload.Obj? &&
      var edited := Get(out.payload.fields, EDITED); edited.None? || edited == Some(Obj([Field(AFTER, Str(REDACTED))])))
  }

  predicate MessageNotShown(out: Out) { out.Dropped? || (out.Sent? && out.payload.Obj? && Absent(out.payload.fields, MESSAGE)) }

  lemma {:induction false} RemovedAbsent(fs: seq<Field>, key: Text)
    ensures Absent(RemoveKey(fs, key), key)
  {
    if fs != [] {
      RemovedAbsent(fs[1..], key);
      GetAppend(if fs[0].key == key then [] else [fs[0]], RemoveKey(fs[1..], key), key);
    }
  }

  lemma {:induction false} RemovedOthers(fs: seq<Field>, key: Text, other: Text)
    requires other != key
    ensures Get(RemoveKey(fs, key), other) == Get(fs, other)
  {
    if fs != [] {
      RemovedOthers(fs[1..], key, other);
      assert [] + RemoveKey(fs[1..], key) == RemoveKey(fs[1..], key);
    }
  }

  lemma FailedAnswerHides(p: Payload)
    ensures FailedResumed(p).Some? ==> EditNotShown(Sent(FailedResumed(p).value))
    ensures FailedRefused(p).Some? ==> MessageNotShown(Sent(FailedRefused(p).value))
  {
    hide ReadText, FailedSummary, RESUME_ACTIONS, REFUSAL_CODES, OptionalText, MayHaveEdit, Lacks, Get;
    AnswerApart();
    RequestLacks(p);
    if FailedResumed(p).Some? {
      EditAt([Field(PAUSE_ID, Str(ReadText(p, PAUSE_ID).value)), Field(ACTION, Str(ReadText(p, ACTION).value))], MayHaveEdit(p),
             OptionalText(p, REQUEST_ID), [Field(REDACTION, FailedSummary([EDITED]))]);
    }
    if FailedRefused(p).Some? {
      MessageAt([Field(PAUSE_ID, Str(ReadText(p, PAUSE_ID).value)), Field(CODE, Str(ReadText(p, CODE).value))],
                OptionalText(p, REQUEST_ID), [Field(REDACTION, FailedSummary([MESSAGE]))]);
    }
  }

  lemma RequestLacks(p: Payload)
    ensures Lacks(OptionalText(p, REQUEST_ID), EDITED) && Lacks(OptionalText(p, REQUEST_ID), MESSAGE)
  {
    AnswerApart();
  }

  lemma {:induction false} LackingAbsent(fs: seq<Field>, key: Text)
    requires Lacks(fs, key)
    ensures Get(fs, key) == None
  {
    if fs != [] {
      assert forall i | 0 <= i < |fs[1..]| :: fs[1..][i] == fs[i + 1];
      LackingAbsent(fs[1..], key);
    }
  }

  lemma Grouped(a: seq<Field>, b: seq<Field>, c: seq<Field>, d: seq<Field>)
    ensures a + b + c + d == a + (b + (c + d)) && b + c + d == b + (c + d)
  {
  }

  /** What is read under a key that only one part may have. */
  lemma ReadPart(front: seq<Field>, part: Option<Json>, request: seq<Field>, last: seq<Field>, key: Text)
    requires Lacks(front, key) && Lacks(request, key) && Lacks(last, key)
    ensures Get(front + (if part.Some? then [Field(key, part.value)] else []) + request + last, key) == part
  {
    hide Get, Lacks;
    var edit := if part.Some? then [Field(key, part.value)] else [];
    Grouped(front, edit, request, last);
    SkipField(front, edit + (request + last), key);
    if part.Some? {
      GetFirst(edit + (request + last), 0);
    } else {
      assert edit + (request + last) == request + last;
      SkipField(request, last, key);
      LackingAbsent(last, key);
    }
  }

  lemma EditAt(front: seq<Field>, shown: bool, request: seq<Field>, last: seq<Field>)
    requires |front| == 2 && front[0].key != EDITED && front[1].key != EDITED && Lacks(request, EDITED)
    requires |last| == 1 && last[0].key != EDITED
    ensures Get(front + (if shown then [Field(EDITED, HIDDEN_EDIT)] else []) + request + last, EDITED) ==
            if shown then Some(HIDDEN_EDIT) else None
  {
    hide Get;
    ReadPart(front, if shown then Some(HIDDEN_EDIT) else None, request, last, EDITED);
  }

  lemma MessageAt(front: seq<Field>, request: seq<Field>, last: seq<Field>)
    requires |front| == 2 && front[0].key != MESSAGE && front[1].key != MESSAGE && Lacks(request, MESSAGE)
    requires |last| == 1 && last[0].key != MESSAGE
    ensures Get(front + request + last, MESSAGE) == None
  {
    hide Get;
    assert front + request + last == front + (request + last);
    SkipField(front, request + last, MESSAGE);
    SkipField(request, last, MESSAGE);
    LackingAbsent(last, MESSAGE);
  }

  lemma AnswerEffect(t: EventType, fs: seq<Field>)
    requires IsAnswer(t) && OnAnswer(t, fs).Good?
    ensures var r := OnAnswer(t, fs).value;
            && r.Obj?
            && (t == ExecResumed ==> EditNotShown(Sent(r)) && OnlyChanges(fs, r.fields, EDITED) && Get(r.fields, EDITED).Some? == Get(fs, EDITED).Some?)
            && (t == ExecRefused ==> MessageNotShown(Sent(r)) && OnlyChanges(fs, r.fields, MESSAGE))
  {
    hide MergeSummary, HideField, Identity, Legible, RemoveKey;
    AnswerApart();
    if t == ExecResumed {
      HiddenFieldEffect(fs, EDITED, HIDDEN_EDIT);
      HidesEdit(fs);
    } else if Get(fs, MESSAGE).Some? {
      var summary := MergeSummary(Get(fs, REDACTION), 1, MESSAGE);
      RemovedAbsent(SetKey(fs, REDACTION, summary), MESSAGE);
      forall k | k != MESSAGE && k != REDACTION ensures Get(RemoveKey(SetKey(fs, REDACTION, summary), MESSAGE), k) == Get(fs, k) {
        RemovedOthers(SetKey(fs, REDACTION, summary), MESSAGE, k);
        GetSetKey(fs, REDACTION, summary, k);
      }
    }
  }

  lemma HidesEdit(fs: seq<Field>)
    ensures HideField(fs, EDITED, HIDDEN_EDIT).Obj?
    ensures forall v :: EditHidden(v) <==> v == HIDDEN_EDIT
  {
  }

  /** A covered answer shows neither the edit nor the refusal's message; another is sent as it was. */
  lemma AnswerPolicy(sw: Switches, st: Tracking, e: Event)
    requires e.t == ExecResumed || e.t == ExecRefused
    ensures CoversAnswer(sw, e) ==>
              if e.t == ExecResumed then EditNotShown(Apply(sw, st, e).0) else MessageNotShown(Apply(sw, st, e).0)
    ensures !CoversAnswer(sw, e) ==> Apply(sw, st, e).0 == Unchanged
    ensures CoversAnswer(sw, e) && e.payload.Dictionary? && Legible(e.payload.fields, PAUSE_ID) ==>
              var out := Apply(sw, st, e).0;
              out.Sent? && out.payload.Obj?
              && OnlyChanges(e.payload.fields, out.payload.fields, if e.t == ExecResumed then EDITED else MESSAGE)
              && (e.t == ExecResumed ==> Get(out.payload.fields, EDITED).Some? == Get(e.payload.fields, EDITED).Some?)
  {
    hide EditNotShown, MessageNotShown, OnlyChanges, MergeSummary, HideField, FailedResumed, FailedRefused, Legible, Identity, Get, SetKey, RemoveKey;
    NothingSentHides();
    FailedAnswerHides(e.payload);
    if e.payload.Dictionary? {
      LegibleIdentity(e.payload.fields, PAUSE_ID);
      AnswerReadable(e.t, e.payload.fields);
      if OnAnswer(e.t, e.payload.fields).Good? {
        AnswerEffect(e.t, e.payload.fields);
      }
    }
  }

  lemma NothingSentHides()
    ensures EditNotShown(Dropped) && MessageNotShown(Dropped)
  {
  }

  lemma AnswerReadable(t: EventType, fs: seq<Field>)
    ensures OnAnswer(t, fs).Good? <==> Identity(fs, PAUSE_ID).Good?
  {
  }

  /** No switch touches any other event. */
  lemma OthersPolicy(sw: Switches, st: Tracking, e: Event)
    requires e.t != NodeStarted && e.t != NodeFinished && e.t != NodeToken && e.t != ExecResumed && e.t != ExecRefused
    ensures Apply(sw, st, e) == (Unchanged, st)
  {
  }

  // ---- the summary ----

  lemma {:induction false} PlainTextsOf(keys: seq<Text>)
    ensures PlainTexts(Texts(keys).items) == keys
  {
    if keys != [] {
      PlainTextsOf(keys[1..]);
      assert Texts(keys).items[1..] == Texts(keys[1..]).items;
    }
  }

  lemma CountReads(n: nat)
    requires n <= MAX_SAFE_INTEGER
    ensures PriorCount(Count(n)) == n
  {
    NatDigitsRoundTrip(n);
    RedactionValid.CountValid(n);
  }

  /** A summary says how many values were hidden and where; an earlier one is added to, as long as the sum is a safe integer. */
  lemma SummaryExact(prior: nat, keys: seq<Text>, count: nat, key: Text)
    requires prior <= MAX_SAFE_INTEGER
    ensures MergeSummary(None, count, key) == Obj([Field(COUNT, Count(count)), Field(KEYS, Texts([key]))])
    ensures MergeSummary(Some(Obj([Field(COUNT, Count(prior)), Field(KEYS, Texts(keys))])), count, key) ==
            Obj([Field(COUNT, Count(if prior + count <= MAX_SAFE_INTEGER then prior + count else count)),
                 Field(KEYS, Texts(if key in keys then keys else keys + [key]))])
  {
    hide Count, Texts, PriorCount;
    CountReads(prior);
    PlainTextsOf(keys);
    SummaryFields(prior, keys);
  }

  lemma SummaryFields(prior: nat, keys: seq<Text>)
    ensures var fs := [Field(COUNT, Count(prior)), Field(KEYS, Texts(keys))];
            && Get(fs, COUNT) == Some(Count(prior)) && Get(fs, KEYS) == Some(Texts(keys)) && Count(prior).Number? && Texts(keys).Arr?
  {
    assert COUNT[0] == 'c' as int && KEYS[0] == 'k' as int;
    var fs := [Field(COUNT, Count(prior)), Field(KEYS, Texts(keys))];
    assert fs[1..][0] == fs[1];
  }

  // ---- the memory of kinds ----

  predicate Tracked(st: Tracking) { st.max > 0 && Unique(st.nodes) && Unique(st.instances) && |st.instances| <= st.max }

  lemma NewestKeepsLast<K, V>(d: Dict<K, V>, k: K, v: V, n: nat)
    requires n > 0 && !Has(d, k)
    ensures Find(Newest(d + [(k, v)], n), k) == Some(v)
  {
    var all := d + [(k, v)];
    var kept := if |all| > n then d[|all| - n..] else d;
    assert Newest(all, n) == kept + [(k, v)];
    assert forall i | 0 <= i < |kept| :: kept[i] in d;
    FindAppend(kept, k, v, k);
  }

  lemma FindPutNewest<K, V>(d: Dict<K, V>, k: K, v: V, n: nat)
    requires n > 0 && Unique(d) && |d| <= n
    ensures Find(Newest(Put(d, k, v), n), k) == Some(v)
  {
    if Has(d, k) {
      PutUnique(d, k, v);
      FindPut(d, k, v, k);
    } else {
      PutAbsent(d, k, v);
      NewestKeepsLast(d, k, v, n);
    }
  }

  /** A start that can be read decides its instance's kind, and its node's. */
  lemma StartRemembered(sw: Switches, st: Tracking, e: Event, node: Text, kind: Text)
    requires sw.Any() && Tracked(st) && e.t == NodeStarted && e.payload.Dictionary? && LegibleStart(e.payload.fields)
    requires ReadText(e.payload, NODE_ID) == Some(node) && ReadText(e.payload, KIND) == Some(kind)
    ensures var r := Apply(sw, st, e).1;
            && (KnownAsTool(r, e.run, node, ReadText(e.payload, INSTANCE_ID)) <==> kind == TOOL)
            && (KnownAsTool(r, e.run, node, None) <==> kind == TOOL)
  {
    hide Legible, Identity, Remember, KnownAsTool, HideField;
    var fs := e.payload.fields;
    LegibleIdentity(fs, KIND);
    LegibleIdentity(fs, NODE_ID);
    LegibleIdentity(fs, INSTANCE_ID);
    RememberKind(st, e.run, node, IdOf(fs, INSTANCE_ID), kind);
  }

  lemma RememberKind(st: Tracking, run: Text, node: Text, id: Option<Text>, kind: Text)
    requires Tracked(st)
    ensures var r := Remember(st, run, node, id, kind);
            && (KnownAsTool(r, run, node, id) <==> kind == TOOL) && (KnownAsTool(r, run, node, None) <==> kind == TOOL)
  {
    hide Put, Remove, Newest, Find, Unique;
    var rest := Remove(st.nodes, (run, node));
    RemoveUnique(st.nodes, (run, node));
    PutAbsent(rest, (run, node), kind);
    NewestKeepsLast(rest, (run, node), kind, MAX_TRACKED_NODES);
    if id.Some? {
      FindPutNewest(st.instances, (run, node, id.value), kind, st.max);
    }
  }

  lemma NewestUnique<K, V>(d: Dict<K, V>, n: nat)
    requires Unique(d)
    ensures Unique(Newest(d, n)) && |Newest(d, n)| <= n
  {
  }

  lemma RememberTracked(st: Tracking, run: Text, node: Text, id: Option<Text>, kind: Text)
    requires Tracked(st)
    ensures Tracked(Remember(st, run, node, id, kind))
  {
    hide Put, Remove, Newest, Unique;
    RemoveUnique(st.nodes, (run, node));
    PutUnique(Remove(st.nodes, (run, node)), (run, node), kind);
    NewestUnique(Put(Remove(st.nodes, (run, node)), (run, node), kind), MAX_TRACKED_NODES);
    if id.Some? {
      PutUnique(st.instances, (run, node, id.value), kind);
      NewestUnique(Put(st.instances, (run, node, id.value), kind), st.max);
    }
  }

  lemma ForgetTracked(st: Tracking, run: Text, node: Option<Text>, id: Option<Text>)
    requires Tracked(st)
    ensures Tracked(ForgetInstance(st, run, node, id))
  {
    hide Remove, Unique;
    if node.Some? && id.Some? {
      RemoveUnique(st.instances, (run, node.value, id.value));
    }
  }

  /** What is remembered stays within its bounds, one entry a key. */
  lemma ApplyTracked(sw: Switches, st: Tracking, e: Event)
    requires Tracked(st)
    ensures Tracked(Apply(sw, st, e).1)
  {
    hide Tracked, Remember, ForgetInstance, OnStarted, OnFinished, OnToken, OnAnswer, Inspected;
    var node, id, kind := ReadText(e.payload, NODE_ID), ReadText(e.payload, INSTANCE_ID), ReadText(e.payload, KIND);
    if Inspected(sw, e) {
      if Handle(sw, st, e).Good? {
        var fs := e.payload.fields;
        ForgetTracked(st, e.run, IdOf(fs, NODE_ID), IdOf(fs, INSTANCE_ID));
        if IdOf(fs, NODE_ID).Some? && IdOf(fs, KIND).Some? {
          RememberTracked(st, e.run, IdOf(fs, NODE_ID).value, IdOf(fs, INSTANCE_ID), IdOf(fs, KIND).value);
        }
      } else {
        ForgetTracked(st, e.run, node, id);
        if node.Some? && kind.Some? {
          RememberTracked(st, e.run, node.value, id, kind.value);
        }
        FailedStartNamed(e.payload);
      }
    }
  }

  lemma FailedStartNamed(p: Payload)
    ensures FailedStarted(p).Some? ==> ReadText(p, NODE_ID).Some? && ReadText(p, KIND).Some?
  {
  }
}
