/**
 What a redacted stream reveals.

 `Mask` erases every present, non-placeholder value a switch hides, and the
 fields that are never read of a payload that cannot be inspected. What is sent
 and what is remembered is the same for an event and its mask.
 */
module RedactionPrivacy {
  import opened Utf16
  import opened Json
  import opened Schema
  import opened ShrinkSpec
  import opened Budget
  import opened OrderedDict
  import opened Redaction

  // ---- the mask ----

  /** A present value replaced by null. */
  function Erase(fs: seq<Field>, key: Text): seq<Field> { if Get(fs, key).Some? then SetKey(fs, key, Null) else fs }

  function Blank(n: nat): (t: Text)
    ensures |t| == n
  {
    seq(n, i => 32)
  }

  function MaskArgs(fs: seq<Field>, keys: seq<Text>): seq<Field>
    decreases |keys|
  {
    if keys == [] then fs
    else if Visible(fs, keys[0]) then MaskArgs(SetKey(fs, keys[0], Null), keys[1..])
    else MaskArgs(fs, keys[1..])
  }

  function MaskCall(call: Json): Json
  {
    if call.Null? || IsPlaceholder(call) then call
    else if !call.Obj? then Bool(false)
    else Obj(MaskArgs(call.fields, ARG_KEYS))
  }

  function MaskCalls(calls: seq<Json>): seq<Json>
  {
    if calls == [] then [] else [MaskCall(calls[0])] + MaskCalls(calls[1..])
  }

  function MaskCallList(calls: Json): Json { if calls.Arr? then Arr(MaskCalls(calls.items)) else Bool(false) }

  function MaskToolCalls(fs: seq<Field>): seq<Field>
  {
    if !CarriesCalls(fs) then fs
    else
      var inner := Get(fs, OUTPUT).value.fields;
      SetKey(fs, OUTPUT, Obj(SetKey(inner, TOOL_CALLS, MaskCallList(Get(inner, TOOL_CALLS).value))))
  }

  /** A hidden text becomes blanks of its length, which is what stays visible of it. */
  function MaskDelta(d: Json, all: bool, args: bool): Json
  {
    if !d.Obj? || Identity(d.fields, TYPE_KEY).Bad? || !(all || (args && IdOf(d.fields, TYPE_KEY) == Some(TOOL_ARGS))) then d
    else
      match Get(d.fields, VALUE_KEY)
      case None => d
      case Some(v) => if v.Str? && v.text != [] then Obj(SetKey(d.fields, VALUE_KEY, Str(Blank(|v.text|)))) else d
  }

  function MaskDeltas(ds: seq<Json>, all: bool, args: bool): seq<Json>
  {
    if ds == [] then [] else [MaskDelta(ds[0], all, args)] + MaskDeltas(ds[1..], all, args)
  }

  function MaskInspected(sw: Switches, st: Tracking, e: Event): seq<Field>
    requires e.payload.Dictionary?
  {
    var fs := e.payload.fields;
    match e.t
    case NodeStarted => if HidesInput(sw, IdOf(fs, KIND)) && Visible(fs, INPUT) then SetKey(fs, INPUT, Null) else fs
    case NodeFinished =>
      if HidesOutput(sw, KindHere(st, fs, e.run)) then if Visible(fs, OUTPUT) then SetKey(fs, OUTPUT, Null) else fs
      else if sw.hideToolArgs || sw.hideInputs then MaskToolCalls(fs) else fs
    case NodeToken =>
      var all, args := HidesAllDeltas(sw, st, fs, e.run), sw.hideToolArgs || sw.hideInputs;
      if (all || args) && Get(fs, DELTAS).Some? && Get(fs, DELTAS).value.Arr?
      then SetKey(fs, DELTAS, Arr(MaskDeltas(Get(fs, DELTAS).value.items, all, args))) else fs
    case ExecResumed =>
      if Get(fs, EDITED).Some? && !EditHidden(Get(fs, EDITED).value) then SetKey(fs, EDITED, Null) else fs
    case _ => Erase(fs, MESSAGE)
  }

  function MaskUninspected(t: EventType, fs: seq<Field>): seq<Field>
  {
    if IsAnswer(t) then Erase(Erase(fs, EDITED), MESSAGE) else Erase(Erase(Erase(fs, INPUT), OUTPUT), DELTAS)
  }

  function MaskHostile(t: EventType, answers: map<Text, Json>): map<Text, Json>
  {
    if IsAnswer(t) then (if EDITED in answers then answers[EDITED := Null] else answers) - {MESSAGE}
    else answers - {INPUT, OUTPUT, DELTAS}
  }

  function Mask(sw: Switches, st: Tracking, e: Event): Event
  {
    if !Inspected(sw, e) then e
    else
      match e.payload
      case Dictionary(fields) =>
        e.(payload := Dictionary(if Handle(sw, st, e).Good? then MaskInspected(sw, st, e) else MaskUninspected(e.t, fields)))
      case Hostile(answers, raising) => e.(payload := Hostile(MaskHostile(e.t, answers), raising))
      case NotMapping => e
  }

  // ---- dictionary laws ----

  lemma {:induction false} SetKeyTwice(fs: seq<Field>, key: Text, a: Json, b: Json)
    ensures SetKey(SetKey(fs, key, a), key, b) == SetKey(fs, key, b)
  {
    if fs != [] && fs[0].key != key {
      SetKeyTwice(fs[1..], key, a, b);
    }
  }

  lemma SetOther(fs: seq<Field>, key: Text, v: Json, other: Text)
    requires other != key
    ensures Get(SetKey(fs, key, v), other) == Get(fs, other)
    ensures Identity(SetKey(fs, key, v), other) == Identity(fs, other) && IdOf(SetKey(fs, key, v), other) == IdOf(fs, other)
    ensures Visible(SetKey(fs, key, v), other) == Visible(fs, other)
  {
    GetSetKey(fs, key, v, other);
  }

  /** The fields a switch can hide are none of those that decide or identify. */
  predicate Apart(hidden: Text)
  {
    && hidden != KIND && hidden != NODE_ID && hidden != INSTANCE_ID && hidden != REDACTION && hidden != PARENT_ID && hidden != NAME
    && hidden != DURATION_MS && hidden != STATUS && hidden != HELD_MS && hidden != USAGE
  }

  lemma HiddenApart()
    ensures Apart(INPUT) && Apart(OUTPUT) && Apart(DELTAS)
    ensures INPUT != OUTPUT && INPUT != DELTAS && OUTPUT != DELTAS
  {
    assert INPUT[0] == 'i' as int && OUTPUT[0] == 'o' as int && DELTAS[0] == 'd' as int;
    assert NODE_ID[0] == 'n' as int && STATUS[0] == 's' as int && HELD_MS[0] == 'h' as int && USAGE[0] == 'u' as int;
  }

  predicate ApartFromAnswer(hidden: Text)
  {
    hidden != PAUSE_ID && hidden != REDACTION && hidden != ACTION && hidden != CODE && hidden != REQUEST_ID
  }

  lemma AnswerApart()
    ensures ApartFromAnswer(EDITED) && ApartFromAnswer(MESSAGE) && EDITED != MESSAGE
  {
    assert EDITED[0] == 'e' as int && ACTION[0] == 'a' as int && MESSAGE[0] == 'm' as int && PAUSE_ID[0] == 'p' as int;
  }

  lemma DeltaKeysApart()
    ensures TYPE_KEY != VALUE_KEY
  {
    assert TYPE_KEY[0] == 't' as int && VALUE_KEY[0] == 'v' as int;
  }

  /** Two dictionaries that identify alike. */
  predicate SameIds(a: seq<Field>, b: seq<Field>)
  {
    && Identity(a, KIND) == Identity(b, KIND) && Identity(a, NODE_ID) == Identity(b, NODE_ID)
    && Identity(a, INSTANCE_ID) == Identity(b, INSTANCE_ID) && Get(a, REDACTION) == Get(b, REDACTION)
  }

  lemma SetKeepsIds(fs: seq<Field>, key: Text, v: Json)
    requires Apart(key)
    ensures SameIds(SetKey(fs, key, v), fs)
  {
    SetOther(fs, key, v, KIND);
    SetOther(fs, key, v, NODE_ID);
    SetOther(fs, key, v, INSTANCE_ID);
    GetSetKey(fs, key, v, REDACTION);
  }

  lemma IdentitiesApart(fs: seq<Field>, key: Text, v: Json)
    requires Apart(key)
    ensures SameIds(SetKey(fs, key, v), fs)
    ensures StartReadable(SetKey(fs, key, v)) == StartReadable(fs)
    ensures FinishReadable(SetKey(fs, key, v)) == FinishReadable(fs)
  {
    SetKeepsIds(fs, key, v);
  }

  // ---- handlers ----

  lemma StartedMasked(sw: Switches, fs: seq<Field>, v: Json)
    requires StartReadable(fs) && HidesInput(sw, IdOf(fs, KIND)) && Visible(fs, INPUT) && !IsPlaceholder(v)
    ensures OnStarted(sw, SetKey(fs, INPUT, v)) == OnStarted(sw, fs)
  {
    HiddenApart();
    IdentitiesApart(fs, INPUT, v);
    GetSetKey(fs, INPUT, v, INPUT);
    SetKeyTwice(fs, INPUT, v, Str(REDACTED));
  }

  lemma FinishedMasked(sw: Switches, st: Tracking, fs: seq<Field>, run: Text, v: Json)
    requires FinishReadable(fs) && HidesOutput(sw, KindHere(st, fs, run)) && Visible(fs, OUTPUT) && !IsPlaceholder(v)
    ensures OnFinished(sw, st, SetKey(fs, OUTPUT, v), run) == OnFinished(sw, st, fs, run)
  {
    HiddenApart();
    IdentitiesApart(fs, OUTPUT, v);
    GetSetKey(fs, OUTPUT, v, OUTPUT);
    SetKeyTwice(fs, OUTPUT, v, Str(REDACTED));
  }

  lemma ArgKeysDiffer()
    ensures forall i, j | 0 <= i < j < |ARG_KEYS| :: ARG_KEYS[i] != ARG_KEYS[j]
  {
    assert ARG_KEYS[1] == Ascii("inputText") && ARG_KEYS[2] == Ascii("arguments") && ARG_KEYS[3] == Ascii("args");
    assert ARG_KEYS[1][0] == 'i' as int && ARG_KEYS[2][0] == 'a' as int;
  }

  lemma {:induction false} ArgsApart(fs: seq<Field>, keys: seq<Text>, key: Text)
    requires key !in keys
    ensures Get(MaskArgs(fs, keys), key) == Get(fs, key)
    decreases |keys|
  {
    if keys != [] {
      if Visible(fs, keys[0]) {
        SetOther(fs, keys[0], Null, key);
        ArgsApart(SetKey(fs, keys[0], Null), keys[1..], key);
      } else {
        ArgsApart(fs, keys[1..], key);
      }
    }
  }

  lemma {:induction false} SetKeysCommute(fs: seq<Field>, a: Text, v: Json, b: Text, w: Json)
    requires a != b && Get(fs, a).Some? && Get(fs, b).Some?
    ensures SetKey(SetKey(fs, a, v), b, w) == SetKey(SetKey(fs, b, w), a, v)
  {
    if fs[0].key == a || fs[0].key == b {
    } else {
      SetKeysCommute(fs[1..], a, v, b, w);
    }
  }

  /** Masking one field first changes nothing that masking or hiding the others does. */
  lemma {:induction false} MaskArgsSet(fs: seq<Field>, keys: seq<Text>, key: Text, v: Json)
    requires key !in keys && Get(fs, key).Some?
    ensures MaskArgs(SetKey(fs, key, v), keys) == SetKey(MaskArgs(fs, keys), key, v)
    decreases |keys|
  {
    if keys != [] {
      SetOther(fs, key, v, keys[0]);
      if Visible(fs, keys[0]) {
        SetKeysCommute(fs, key, v, keys[0], Null);
        SetOther(fs, keys[0], Null, key);
        MaskArgsSet(SetKey(fs, keys[0], Null), keys[1..], key, v);
      } else {
        MaskArgsSet(fs, keys[1..], key, v);
      }
    }
  }

  lemma {:induction false} ArgsMasked(fs: seq<Field>, keys: seq<Text>)
    requires forall i, j | 0 <= i < j < |keys| :: keys[i] != keys[j]
    ensures HideArgs(MaskArgs(fs, keys), keys) == HideArgs(fs, keys)
    decreases |keys|
  {
    if keys != [] {
      var rest := keys[1..];
      var masked := MaskArgs(fs, keys);
      if Visible(fs, keys[0]) {
        ArgsApart(SetKey(fs, keys[0], Null), rest, keys[0]);
        GetSetKey(fs, keys[0], Null, keys[0]);
        MaskArgsSet(fs, rest, keys[0], Null);
        SetKeyTwice(MaskArgs(fs, rest), keys[0], Null, Str(REDACTED));
        MaskArgsSet(fs, rest, keys[0], Str(REDACTED));
        ArgsMasked(SetKey(fs, keys[0], Str(REDACTED)), rest);
      } else {
        ArgsApart(fs, rest, keys[0]);
        ArgsMasked(fs, rest);
      }
    }
  }

  lemma CallMasked(call: Json)
    ensures HideCall(MaskCall(call)) == HideCall(call)
  {
    if call.Obj? {
      ArgKeysDiffer();
      ArgsMasked(call.fields, ARG_KEYS);
    }
  }

  lemma {:induction false} CallsMasked(calls: seq<Json>)
    ensures HideCalls(MaskCalls(calls)) == HideCalls(calls)
  {
    if calls != [] {
      CallMasked(calls[0]);
      CallsMasked(calls[1..]);
      assert MaskCalls(calls)[1..] == MaskCalls(calls[1..]);
    }
  }

  lemma CallListMasked(calls: Json)
    requires !calls.Null? && !IsPlaceholder(calls)
    ensures HideCallList(MaskCallList(calls)) == HideCallList(calls)
    ensures !MaskCallList(calls).Null? && !IsPlaceholder(MaskCallList(calls))
  {
    if calls.Arr? {
      CallsMasked(calls.items);
    }
  }

  lemma WithCallsMasked(fs: seq<Field>, inner: seq<Field>, m: Json, hidden: Json, count: nat)
    ensures WithCalls(SetKey(fs, OUTPUT, Obj(SetKey(inner, TOOL_CALLS, m))), SetKey(inner, TOOL_CALLS, m), hidden, count)
            == WithCalls(fs, inner, hidden, count)
  {
    HiddenApart();
    SetOther(fs, OUTPUT, Obj(SetKey(inner, TOOL_CALLS, m)), REDACTION);
    SetKeyTwice(inner, TOOL_CALLS, m, hidden);
    SetKeyTwice(fs, OUTPUT, Obj(SetKey(inner, TOOL_CALLS, m)), Obj(SetKey(inner, TOOL_CALLS, hidden)));
  }

  lemma ToolCallsMasked(fs: seq<Field>)
    ensures HideToolCallArgs(MaskToolCalls(fs)) == HideToolCallArgs(fs)
    ensures SameIds(MaskToolCalls(fs), fs)
  {
    if CarriesCalls(fs) {
      HiddenApart();
      var inner := Get(fs, OUTPUT).value.fields;
      var calls := Get(inner, TOOL_CALLS).value;
      var m := MaskCallList(calls);
      var output := Obj(SetKey(inner, TOOL_CALLS, m));
      GetSetKey(fs, OUTPUT, output, OUTPUT);
      GetSetKey(inner, TOOL_CALLS, m, TOOL_CALLS);
      CallListMasked(calls);
      WithCallsMasked(fs, inner, m, HideCallList(calls).0, HideCallList(calls).1);
      SetKeepsIds(fs, OUTPUT, output);
    }
  }

  lemma DeltaMasked(d: Json, all: bool, args: bool)
    ensures HideDelta(MaskDelta(d, all, args), all, args) == HideDelta(d, all, args)
  {
    var m := MaskDelta(d, all, args);
    if m != d {
      DeltaKeysApart();
      var v := Get(d.fields, VALUE_KEY).value;
      var blank := Str(Blank(|v.text|));
      SetOther(d.fields, VALUE_KEY, blank, TYPE_KEY);
      GetSetKey(d.fields, VALUE_KEY, blank, VALUE_KEY);
      SetKeyTwice(d.fields, VALUE_KEY, blank, Str([]));
    }
  }

  lemma {:induction false} DeltasMasked(ds: seq<Json>, all: bool, args: bool)
    ensures HideDeltas(MaskDeltas(ds, all, args), all, args) == HideDeltas(ds, all, args)
  {
    if ds != [] {
      DeltaMasked(ds[0], all, args);
      DeltasMasked(ds[1..], all, args);
      assert MaskDeltas(ds, all, args)[1..] == MaskDeltas(ds[1..], all, args);
    }
  }

  lemma RedactionApart()
    ensures DELTAS != REDACTION
  {
    HiddenApart();
  }

  /** Deltas that are hidden alike are sent alike. */
  lemma TokensAlike(fs: seq<Field>, ds: seq<Json>, all: bool, args: bool)
    requires Get(fs, DELTAS).Some? && Get(fs, DELTAS).value.Arr?
    requires HideDeltas(ds, all, args) == HideDeltas(Get(fs, DELTAS).value.items, all, args)
    ensures HideTokens(SetKey(fs, DELTAS, Arr(ds)), all, args) == HideTokens(fs, all, args)
  {
    hide HideDeltas, MergeSummary, SetKey, Get, Apart, Visible, Identity;
    HiddenApart();
    RedactionApart();
    SetOther(fs, DELTAS, Arr(ds), REDACTION);
    GetSetKey(fs, DELTAS, Arr(ds), DELTAS);
    var hidden := HideDeltas(ds, all, args);
    if hidden.Good? {
      SetKeyTwice(fs, DELTAS, Arr(ds), Arr(hidden.value.0));
    }
  }

  lemma TokensMasked(fs: seq<Field>, all: bool, args: bool)
    requires Get(fs, DELTAS).Some? && Get(fs, DELTAS).value.Arr?
    ensures HideTokens(SetKey(fs, DELTAS, Arr(MaskDeltas(Get(fs, DELTAS).value.items, all, args))), all, args) == HideTokens(fs, all, args)
  {
    hide HideTokens, HideDeltas, MaskDeltas;
    var items := Get(fs, DELTAS).value.items;
    DeltasMasked(items, all, args);
    TokensAlike(fs, MaskDeltas(items, all, args), all, args);
  }

  lemma TokenMasked(sw: Switches, st: Tracking, fs: seq<Field>, run: Text, v: Json)
    ensures var all, args := HidesAllDeltas(sw, st, fs, run), sw.hideToolArgs || sw.hideInputs;
            var masked := SetKey(fs, DELTAS, v);
            HideTokens(masked, all, args) == HideTokens(fs, all, args) && (all || args) ==>
              OnToken(sw, st, masked, run) == OnToken(sw, st, fs, run)
  {
    HiddenApart();
    SetKeepsIds(fs, DELTAS, v);
  }

  lemma {:induction false} RemoveSet(fs: seq<Field>, key: Text, v: Json)
    requires Get(fs, key).Some?
    ensures RemoveKey(SetKey(fs, key, v), key) == RemoveKey(fs, key)
  {
    if fs[0].key != key {
      RemoveSet(fs[1..], key, v);
    }
  }

  lemma {:induction false} RemoveAfterSet(fs: seq<Field>, key: Text, v: Json, other: Text)
    requires other != key
    ensures RemoveKey(SetKey(fs, key, v), other) == SetKey(RemoveKey(fs, other), key, v)
  {
    if fs != [] {
      var rest := fs[1..];
      assert ([Field(key, v)] + rest)[1..] == rest;
      assert ([fs[0]] + SetKey(rest, key, v))[1..] == SetKey(rest, key, v);
      assert ([fs[0]] + RemoveKey(rest, other))[1..] == RemoveKey(rest, other);
      assert [] + RemoveKey(rest, other) == RemoveKey(rest, other);
      assert [] + RemoveKey(SetKey(rest, key, v), other) == RemoveKey(SetKey(rest, key, v), other);
      if fs[0].key != key {
        RemoveAfterSet(rest, key, v, other);
      }
    }
  }

  lemma ResumedMasked(fs: seq<Field>, v: Json)
    requires Get(fs, EDITED).Some? && !EditHidden(Get(fs, EDITED).value) && !EditHidden(v)
    ensures OnAnswer(ExecResumed, SetKey(fs, EDITED, v)) == OnAnswer(ExecResumed, fs)
  {
    hide MergeSummary, SetKey, Visible;
    AnswerApart();
    SetOther(fs, EDITED, v, PAUSE_ID);
    SetOther(fs, EDITED, v, REDACTION);
    GetSetKey(fs, EDITED, v, EDITED);
    SetKeyTwice(fs, EDITED, v, HIDDEN_EDIT);
  }

  lemma RefusedMasked(fs: seq<Field>, v: Json)
    requires Get(fs, MESSAGE).Some?
    ensures OnAnswer(ExecRefused, SetKey(fs, MESSAGE, v)) == OnAnswer(ExecRefused, fs)
  {
    AnswerApart();
    SetOther(fs, MESSAGE, v, PAUSE_ID);
    SetOther(fs, MESSAGE, v, REDACTION);
    GetSetKey(fs, MESSAGE, v, MESSAGE);
    var summary := MergeSummary(Get(fs, REDACTION), 1, MESSAGE);
    RemoveAfterSet(SetKey(fs, MESSAGE, v), REDACTION, summary, MESSAGE);
    RemoveAfterSet(fs, REDACTION, summary, MESSAGE);
    RemoveSet(fs, MESSAGE, v);
  }

  // ---- payloads that cannot be inspected ----

  lemma EraseKeeps(fs: seq<Field>, key: Text, other: Text)
    ensures other != key ==> Get(Erase(fs, key), other) == Get(fs, other)
    ensures Get(Erase(fs, key), key).Some? == Get(fs, key).Some?
    ensures Get(Erase(fs, key), key).Some? ==> Get(Erase(fs, key), key).value.Null?
  {
    GetSetKey(fs, key, Null, other);
    GetSetKey(fs, key, Null, key);
  }

  /** A node event's identity and failed form are read from the same values. */
  predicate SameNodeReads(a: Payload, b: Payload)
  {
    && Read(a, NODE_ID) == Read(b, NODE_ID) && Read(a, PARENT_ID) == Read(b, PARENT_ID) && Read(a, KIND) == Read(b, KIND)
    && Read(a, NAME) == Read(b, NAME) && Read(a, INSTANCE_ID) == Read(b, INSTANCE_ID)
    && Read(a, DURATION_MS) == Read(b, DURATION_MS) && Read(a, STATUS) == Read(b, STATUS)
    && Read(a, HELD_MS) == Read(b, HELD_MS) && Read(a, USAGE) == Read(b, USAGE)
  }

  predicate SameAnswerReads(a: Payload, b: Payload)
  {
    && Read(a, PAUSE_ID) == Read(b, PAUSE_ID) && Read(a, ACTION) == Read(b, ACTION) && Read(a, CODE) == Read(b, CODE)
    && Read(a, REQUEST_ID) == Read(b, REQUEST_ID) && MayHaveEdit(a) == MayHaveEdit(b)
  }

  lemma KeyErased(fs: seq<Field>, t: EventType, key: Text)
    requires !IsAnswer(t) && key != INPUT && key != OUTPUT && key != DELTAS
    ensures Get(MaskUninspected(t, fs), key) == Get(fs, key)
  {
    EraseKeeps(fs, INPUT, key);
    EraseKeeps(Erase(fs, INPUT), OUTPUT, key);
    EraseKeeps(Erase(Erase(fs, INPUT), OUTPUT), DELTAS, key);
  }

  lemma NodeReadsErased(fs: seq<Field>, t: EventType)
    requires !IsAnswer(t)
    ensures SameNodeReads(Dictionary(MaskUninspected(t, fs)), Dictionary(fs))
    ensures Get(MaskUninspected(t, fs), DELTAS).Some? ==> Get(MaskUninspected(t, fs), DELTAS).value.Null?
  {
    HiddenApart();
    KeyErased(fs, t, NODE_ID);
    KeyErased(fs, t, PARENT_ID);
    KeyErased(fs, t, KIND);
    KeyErased(fs, t, NAME);
    KeyErased(fs, t, INSTANCE_ID);
    KeyErased(fs, t, DURATION_MS);
    KeyErased(fs, t, STATUS);
    KeyErased(fs, t, HELD_MS);
    KeyErased(fs, t, USAGE);
    EraseKeeps(Erase(Erase(fs, INPUT), OUTPUT), DELTAS, DELTAS);
  }

  lemma AnswerKeyErased(fs: seq<Field>, t: EventType, key: Text)
    requires IsAnswer(t) && key != EDITED && key != MESSAGE
    ensures Get(MaskUninspected(t, fs), key) == Get(fs, key)
  {
    EraseKeeps(fs, EDITED, key);
    EraseKeeps(Erase(fs, EDITED), MESSAGE, key);
  }

  lemma AnswerReadsErased(fs: seq<Field>, t: EventType)
    requires IsAnswer(t)
    ensures SameAnswerReads(Dictionary(MaskUninspected(t, fs)), Dictionary(fs))
  {
    AnswerApart();
    AnswerKeyErased(fs, t, PAUSE_ID);
    AnswerKeyErased(fs, t, ACTION);
    AnswerKeyErased(fs, t, CODE);
    AnswerKeyErased(fs, t, REQUEST_ID);
    EraseKeeps(fs, EDITED, EDITED);
    EraseKeeps(Erase(fs, EDITED), MESSAGE, EDITED);
  }

  lemma HostileReads(t: EventType, answers: map<Text, Json>, raising: set<Text>)
    ensures var a, b := Hostile(MaskHostile(t, answers), raising), Hostile(answers, raising);
            (!IsAnswer(t) ==> SameNodeReads(a, b)) && (IsAnswer(t) ==> SameAnswerReads(a, b))
  {
    HiddenApart();
    AnswerApart();
  }

  lemma TextFromRead(a: Payload, b: Payload, key: Text)
    requires Read(a, key) == Read(b, key)
    ensures ReadText(a, key) == ReadText(b, key) && OptionalText(a, key) == OptionalText(b, key)
  {
  }

  lemma StartedFormFromReads(a: Payload, b: Payload)
    requires SameNodeReads(a, b)
    ensures FailedStarted(a) == FailedStarted(b)
  {
    TextFromRead(a, b, NODE_ID);
    TextFromRead(a, b, PARENT_ID);
    TextFromRead(a, b, KIND);
    TextFromRead(a, b, NAME);
    TextFromRead(a, b, INSTANCE_ID);
  }

  lemma FinishedFormFromReads(a: Payload, b: Payload)
    requires SameNodeReads(a, b)
    ensures FailedFinished(a) == FailedFinished(b) && FailedToken(a) == FailedToken(b)
  {
    TextFromRead(a, b, NODE_ID);
    TextFromRead(a, b, INSTANCE_ID);
    TextFromRead(a, b, STATUS);
  }

  lemma AnswerFormsFromReads(a: Payload, b: Payload)
    requires SameAnswerReads(a, b)
    ensures FailedResumed(a) == FailedResumed(b) && FailedRefused(a) == FailedRefused(b)
  {
    TextFromRead(a, b, PAUSE_ID);
    TextFromRead(a, b, ACTION);
    TextFromRead(a, b, CODE);
    TextFromRead(a, b, REQUEST_ID);
  }

  lemma EffectsFromReads(t: EventType, a: Payload, b: Payload, st: Tracking, run: Text)
    requires IsNodeEvent(t) ==> SameNodeReads(a, b) && FailedStarted(a) == FailedStarted(b)
    ensures AfterFailed(st, t, a, run) == AfterFailed(st, t, b, run)
  {
    if IsNodeEvent(t) {
      TextFromRead(a, b, NODE_ID);
      TextFromRead(a, b, KIND);
      TextFromRead(a, b, INSTANCE_ID);
    }
  }

  lemma FormFromReads(t: EventType, a: Payload, b: Payload, st: Tracking, run: Text)
    requires IsNodeEvent(t) || IsAnswer(t)
    requires (!IsAnswer(t) ==> SameNodeReads(a, b)) && (IsAnswer(t) ==> SameAnswerReads(a, b))
    ensures FailedForm(t, a) == FailedForm(t, b) && AfterFailed(st, t, a, run) == AfterFailed(st, t, b, run)
  {
    if IsAnswer(t) {
      AnswerFormsFromReads(a, b);
    } else {
      StartedFormFromReads(a, b);
      FinishedFormFromReads(a, b);
    }
    EffectsFromReads(t, a, b, st, run);
  }

  /** Erasing what is not read leaves a payload uninspectable. */
  lemma StillBad(sw: Switches, st: Tracking, e: Event)
    requires Inspected(sw, e) && e.payload.Dictionary? && Handle(sw, st, e).Bad?
    ensures Handle(sw, st, e.(payload := Dictionary(MaskUninspected(e.t, e.payload.fields)))).Bad?
  {
    var fs := e.payload.fields;
    var m := MaskUninspected(e.t, fs);
    if IsAnswer(e.t) {
      AnswerReadsErased(fs, e.t);
      AnswerStillBad(e.t, fs, m);
    } else {
      NodeReadsErased(fs, e.t);
      NodeStillBad(sw, st, fs, m, e.run);
    }
  }

  lemma AnswerStillBad(t: EventType, fs: seq<Field>, m: seq<Field>)
    requires SameAnswerReads(Dictionary(m), Dictionary(fs)) && OnAnswer(t, fs).Bad?
    ensures OnAnswer(t, m).Bad?
  {
    hide HideField, RemoveKey, MergeSummary, SetKey;
    assert Get(m, PAUSE_ID) == Get(fs, PAUSE_ID);
  }

  lemma NodeIds(fs: seq<Field>, m: seq<Field>)
    requires Get(m, KIND) == Get(fs, KIND) && Get(m, NODE_ID) == Get(fs, NODE_ID) && Get(m, INSTANCE_ID) == Get(fs, INSTANCE_ID)
    ensures Identity(m, NODE_ID) == Identity(fs, NODE_ID)
    ensures StartReadable(m) == StartReadable(fs) && FinishReadable(m) == FinishReadable(fs)
  {
    IdentityFromGet(fs, m, KIND);
    IdentityFromGet(fs, m, NODE_ID);
    IdentityFromGet(fs, m, INSTANCE_ID);
  }

  lemma IdentityFromGet(fs: seq<Field>, m: seq<Field>, key: Text)
    requires Get(m, key) == Get(fs, key)
    ensures Identity(m, key) == Identity(fs, key)
  {
  }

  lemma TokenStillBad(sw: Switches, st: Tracking, fs: seq<Field>, m: seq<Field>, run: Text)
    requires Identity(m, NODE_ID) == Identity(fs, NODE_ID) && (Get(m, DELTAS).Some? ==> Get(m, DELTAS).value.Null?)
    ensures OnToken(sw, st, fs, run).Bad? ==> OnToken(sw, st, m, run).Bad?
  {
  }

  lemma NodeStillBad(sw: Switches, st: Tracking, fs: seq<Field>, m: seq<Field>, run: Text)
    requires SameNodeReads(Dictionary(m), Dictionary(fs)) && (Get(m, DELTAS).Some? ==> Get(m, DELTAS).value.Null?)
    ensures OnStarted(sw, fs).Bad? ==> OnStarted(sw, m).Bad?
    ensures OnFinished(sw, st, fs, run).Bad? ==> OnFinished(sw, st, m, run).Bad?
    ensures OnToken(sw, st, fs, run).Bad? ==> OnToken(sw, st, m, run).Bad?
  {
    assert Get(m, KIND) == Get(fs, KIND) && Get(m, NODE_ID) == Get(fs, NODE_ID) && Get(m, INSTANCE_ID) == Get(fs, INSTANCE_ID);
    NodeIds(fs, m);
    TokenStillBad(sw, st, fs, m, run);
  }

  lemma UninspectedMasked(sw: Switches, st: Tracking, e: Event)
    requires Inspected(sw, e) && e.payload.Dictionary? && Handle(sw, st, e).Bad?
    ensures Apply(sw, st, Mask(sw, st, e)) == Apply(sw, st, e)
  {
    var fs := e.payload.fields;
    StillBad(sw, st, e);
    if IsAnswer(e.t) {
      AnswerReadsErased(fs, e.t);
    } else {
      NodeReadsErased(fs, e.t);
    }
    FormFromReads(e.t, Dictionary(MaskUninspected(e.t, fs)), e.payload, st, e.run);
  }

  lemma HostileMasked(sw: Switches, st: Tracking, e: Event)
    requires Inspected(sw, e) && e.payload.Hostile?
    ensures Apply(sw, st, Mask(sw, st, e)) == Apply(sw, st, e)
  {
    HostileReads(e.t, e.payload.answers, e.payload.raising);
    FormFromReads(e.t, Hostile(MaskHostile(e.t, e.payload.answers), e.payload.raising), e.payload, st, e.run);
  }

  // ---- payloads that can ----

  lemma EffectsFromIds(st: Tracking, e: Event, masked: seq<Field>)
    requires e.payload.Dictionary? && (IsNodeEvent(e.t) ==> SameIds(masked, e.payload.fields))
    ensures AfterHandled(st, e.(payload := Dictionary(masked))) == AfterHandled(st, e)
  {
  }

  lemma StartedEventMasked(sw: Switches, st: Tracking, e: Event)
    requires e.t == NodeStarted && e.payload.Dictionary? && Handle(sw, st, e).Good?
    ensures var m := MaskInspected(sw, st, e);
            OnStarted(sw, m) == OnStarted(sw, e.payload.fields) && SameIds(m, e.payload.fields)
  {
    var fs := e.payload.fields;
    HiddenApart();
    SetKeepsIds(fs, INPUT, Null);
    if HidesInput(sw, IdOf(fs, KIND)) && Visible(fs, INPUT) {
      StartedMasked(sw, fs, Null);
    }
  }

  lemma FinishedEventMasked(sw: Switches, st: Tracking, e: Event)
    requires e.t == NodeFinished && e.payload.Dictionary? && Handle(sw, st, e).Good?
    ensures var m := MaskInspected(sw, st, e);
            OnFinished(sw, st, m, e.run) == OnFinished(sw, st, e.payload.fields, e.run) && SameIds(m, e.payload.fields)
  {
    var fs := e.payload.fields;
    HiddenApart();
    SetKeepsIds(fs, OUTPUT, Null);
    if HidesOutput(sw, KindHere(st, fs, e.run)) {
      if Visible(fs, OUTPUT) {
        FinishedMasked(sw, st, fs, e.run, Null);
      }
    } else if sw.hideToolArgs || sw.hideInputs {
      ToolCallsMasked(fs);
    }
  }

  lemma TokenEventMasked(sw: Switches, st: Tracking, e: Event)
    requires e.t == NodeToken && e.payload.Dictionary? && Handle(sw, st, e).Good?
    ensures var m := MaskInspected(sw, st, e);
            OnToken(sw, st, m, e.run) == OnToken(sw, st, e.payload.fields, e.run) && SameIds(m, e.payload.fields)
  {
    var fs := e.payload.fields;
    var m := MaskInspected(sw, st, e);
    if m != fs {
      var all, args := HidesAllDeltas(sw, st, fs, e.run), sw.hideToolArgs || sw.hideInputs;
      var v := Arr(MaskDeltas(Get(fs, DELTAS).value.items, all, args));
      HiddenApart();
      TokensMasked(fs, all, args);
      TokenMasked(sw, st, fs, e.run, v);
      SetKeepsIds(fs, DELTAS, v);
    }
  }

  lemma AnswerEventMasked(sw: Switches, st: Tracking, e: Event)
    requires IsAnswer(e.t) && e.payload.Dictionary?
    ensures OnAnswer(e.t, MaskInspected(sw, st, e)) == OnAnswer(e.t, e.payload.fields)
  {
    hide Identity, HideField, MergeSummary, RemoveKey, SetKey;
    var fs := e.payload.fields;
    if e.t == ExecResumed {
      if Get(fs, EDITED).Some? && !EditHidden(Get(fs, EDITED).value) {
        ResumedMasked(fs, Null);
      }
    } else if Get(fs, MESSAGE).Some? {
      RefusedMasked(fs, Null);
    }
  }

  lemma InspectedMasked(sw: Switches, st: Tracking, e: Event)
    requires Inspected(sw, e) && e.payload.Dictionary? && Handle(sw, st, e).Good?
    ensures Apply(sw, st, Mask(sw, st, e)) == Apply(sw, st, e)
  {
    var m := MaskInspected(sw, st, e);
    if e.t == NodeStarted {
      StartedEventMasked(sw, st, e);
    } else if e.t == NodeFinished {
      FinishedEventMasked(sw, st, e);
    } else if e.t == NodeToken {
      TokenEventMasked(sw, st, e);
    } else {
      AnswerEventMasked(sw, st, e);
    }
    EffectsFromIds(st, e, m);
  }

  // ---- the main results ----

  /** An event and its mask are sent and remembered alike. */
  lemma MaskUnseen(sw: Switches, st: Tracking, e: Event)
    ensures Apply(sw, st, Mask(sw, st, e)) == Apply(sw, st, e)
  {
    if Inspected(sw, e) {
      if e.payload.Hostile? {
        HostileMasked(sw, st, e);
      } else if e.payload.Dictionary? {
        if Handle(sw, st, e).Good? {
          InspectedMasked(sw, st, e);
        } else {
          UninspectedMasked(sw, st, e);
        }
      }
    }
  }

  /** Two streams that differ only in what the switches hide. */
  predicate SameButHidden(sw: Switches, st: Tracking, xs: seq<Event>, ys: seq<Event>)
    decreases |xs|
  {
    && |xs| == |ys|
    && (xs != [] ==>
          && Mask(sw, st, xs[0]) == Mask(sw, st, ys[0])
          && SameButHidden(sw, Apply(sw, st, xs[0]).1, xs[1..], ys[1..]))
  }

  lemma {:induction false} NonInterference(sw: Switches, st: Tracking, xs: seq<Event>, ys: seq<Event>)
    requires SameButHidden(sw, st, xs, ys)
    ensures ApplyAll(sw, st, xs) == ApplyAll(sw, st, ys)
    decreases |xs|
  {
    if xs != [] {
      MaskUnseen(sw, st, xs[0]);
      MaskUnseen(sw, st, ys[0]);
      NonInterference(sw, Apply(sw, st, xs[0]).1, xs[1..], ys[1..]);
    }
  }

  /** Any two hidden inputs are the same to the mask. */
  lemma HiddenInputMasked(sw: Switches, st: Tracking, e: Event, v: Json)
    requires e.t == NodeStarted && Inspected(sw, e) && e.payload.Dictionary? && Handle(sw, st, e).Good?
    requires HidesInput(sw, IdOf(e.payload.fields, KIND)) && Visible(e.payload.fields, INPUT) && !IsPlaceholder(v)
    ensures Mask(sw, st, e.(payload := Dictionary(SetKey(e.payload.fields, INPUT, v)))) == Mask(sw, st, e)
  {
    var fs := e.payload.fields;
    HiddenApart();
    SetKeepsIds(fs, INPUT, v);
    StartedMasked(sw, fs, v);
    GetSetKey(fs, INPUT, v, INPUT);
    SetKeyTwice(fs, INPUT, v, Null);
  }

  /** Any two hidden outputs are the same to the mask. */
  lemma HiddenOutputMasked(sw: Switches, st: Tracking, e: Event, v: Json)
    requires e.t == NodeFinished && Inspected(sw, e) && e.payload.Dictionary? && Handle(sw, st, e).Good?
    requires HidesOutput(sw, KindHere(st, e.payload.fields, e.run)) && Visible(e.payload.fields, OUTPUT) && !IsPlaceholder(v)
    ensures Mask(sw, st, e.(payload := Dictionary(SetKey(e.payload.fields, OUTPUT, v)))) == Mask(sw, st, e)
  {
    var fs := e.payload.fields;
    HiddenApart();
    SetKeepsIds(fs, OUTPUT, v);
    FinishedMasked(sw, st, fs, e.run, v);
    GetSetKey(fs, OUTPUT, v, OUTPUT);
    SetKeyTwice(fs, OUTPUT, v, Null);
  }

  /** A switch covers this delta's text. */
  predicate Covered(fs: seq<Field>, all: bool, args: bool) { all || (args && IdOf(fs, TYPE_KEY) == Some(TOOL_ARGS)) }

  /** Two hidden delta texts of one length are the same to the mask. */
  lemma HiddenDeltaMasked(fs: seq<Field>, v: Text, all: bool, args: bool)
    requires Identity(fs, TYPE_KEY).Good? && Covered(fs, all, args) && Get(fs, VALUE_KEY).Some? && Get(fs, VALUE_KEY).value.Str?
    requires var w := Get(fs, VALUE_KEY).value.text; |v| == |w| > 0
    ensures MaskDelta(Obj(SetKey(fs, VALUE_KEY, Str(v))), all, args) == MaskDelta(Obj(fs), all, args)
  {
    DeltaKeysApart();
    SetOther(fs, VALUE_KEY, Str(v), TYPE_KEY);
    GetSetKey(fs, VALUE_KEY, Str(v), VALUE_KEY);
    SetKeyTwice(fs, VALUE_KEY, Str(v), Str(Blank(|v|)));
  }

  lemma {:induction false} MaskDeltasAt(ds: seq<Json>, j: nat, d: Json, all: bool, args: bool)
    requires j < |ds| && MaskDelta(d, all, args) == MaskDelta(ds[j], all, args)
    ensures MaskDeltas(ds[j := d], all, args) == MaskDeltas(ds, all, args)
  {
    if j > 0 {
      assert ds[j := d][1..] == ds[1..][j - 1 := d];
      MaskDeltasAt(ds[1..], j - 1, d, all, args);
    } else {
      assert ds[j := d][1..] == ds[1..];
    }
  }

  /** The text of one hidden delta of a token event, replaced by another of its length. */
  function WithDelta(fs: seq<Field>, j: nat, v: Text): seq<Field>
    requires Get(fs, DELTAS).Some? && Get(fs, DELTAS).value.Arr? && j < |Get(fs, DELTAS).value.items|
  {
    var items := Get(fs, DELTAS).value.items;
    SetKey(fs, DELTAS, Arr(items[j := if items[j].Obj? then Obj(SetKey(items[j].fields, VALUE_KEY, Str(v))) else items[j]]))
  }

  /** Any two hidden delta texts of one length are the same to the mask. */
  lemma HiddenTokenMasked(sw: Switches, st: Tracking, e: Event, j: nat, v: Text)
    requires e.t == NodeToken && Inspected(sw, e) && e.payload.Dictionary? && Handle(sw, st, e).Good?
    requires Get(e.payload.fields, DELTAS).Some? && Get(e.payload.fields, DELTAS).value.Arr?
    requires var items := Get(e.payload.fields, DELTAS).value.items;
             && j < |items| && items[j].Obj? && Identity(items[j].fields, TYPE_KEY).Good?
             && Covered(items[j].fields, HidesAllDeltas(sw, st, e.payload.fields, e.run), sw.hideToolArgs || sw.hideInputs)
             && var w := Get(items[j].fields, VALUE_KEY); w.Some? && w.value.Str? && |v| == |w.value.text| > 0
    ensures Mask(sw, st, e.(payload := Dictionary(WithDelta(e.payload.fields, j, v)))) == Mask(sw, st, e)
  {
    hide Covered, MaskDelta, HideDeltas, MaskDeltas, HideTokens, HidesAllDeltas, Identity, KindOf, SetKey, Get, CoversPauseInput;
    var fs := e.payload.fields;
    var items := Get(fs, DELTAS).value.items;
    var all, args := HidesAllDeltas(sw, st, fs, e.run), sw.hideToolArgs || sw.hideInputs;
    var d := Obj(SetKey(items[j].fields, VALUE_KEY, Str(v)));
    var changed := Arr(items[j := d]);
    HiddenApart();
    CoveredAny(items[j].fields, all, args);
    HiddenDeltaMasked(items[j].fields, v, all, args);
    MaskDeltasAt(items, j, d, all, args);
    DeltasMasked(items, all, args);
    DeltasMasked(items[j := d], all, args);
    TokensAlike(fs, items[j := d], all, args);
    TokenMasked(sw, st, fs, e.run, changed);
    HidesAllAlike(sw, st, fs, changed, e.run);
    GetSetKey(fs, DELTAS, changed, DELTAS);
    SetKeyTwice(fs, DELTAS, changed, Arr(MaskDeltas(items, all, args)));
  }

  lemma CoveredAny(fs: seq<Field>, all: bool, args: bool)
    requires Covered(fs, all, args)
    ensures all || args
  {
  }

  lemma HidesAllAlike(sw: Switches, st: Tracking, fs: seq<Field>, v: Json, run: Text)
    ensures HidesAllDeltas(sw, st, SetKey(fs, DELTAS, v), run) == HidesAllDeltas(sw, st, fs, run)
  {
    HiddenApart();
    SetOther(fs, DELTAS, v, NODE_ID);
  }

  /** Any two edits that are not the hidden one are the same to the mask. */
  lemma HiddenEditMasked(sw: Switches, st: Tracking, e: Event, v: Json)
    requires e.t == ExecResumed && Inspected(sw, e) && e.payload.Dictionary? && Handle(sw, st, e).Good?
    requires Get(e.payload.fields, EDITED).Some? && !EditHidden(Get(e.payload.fields, EDITED).value) && !EditHidden(v)
    ensures Mask(sw, st, e.(payload := Dictionary(SetKey(e.payload.fields, EDITED, v)))) == Mask(sw, st, e)
  {
    hide HideField, MergeSummary, CoversPauseInput, Identity, Apart, EditHidden;
    var fs := e.payload.fields;
    ResumedMasked(fs, v);
    GetSetKey(fs, EDITED, v, EDITED);
    SetKeyTwice(fs, EDITED, v, Null);
  }

  /** Any two refusal messages are the same to the mask. */
  lemma HiddenMessageMasked(sw: Switches, st: Tracking, e: Event, v: Json)
    requires e.t == ExecRefused && Inspected(sw, e) && e.payload.Dictionary? && Handle(sw, st, e).Good?
    requires Get(e.payload.fields, MESSAGE).Some?
    ensures Mask(sw, st, e.(payload := Dictionary(SetKey(e.payload.fields, MESSAGE, v)))) == Mask(sw, st, e)
  {
    hide RemoveKey, MergeSummary, CoversPauseInput, Identity;
    var fs := e.payload.fields;
    RefusedMasked(fs, v);
    GetSetKey(fs, MESSAGE, v, MESSAGE);
    SetKeyTwice(fs, MESSAGE, v, Null);
  }

  lemma {:induction false} MaskArgsHides(fs: seq<Field>, keys: seq<Text>, key: Text, v: Json)
    requires key in keys && (forall i, j | 0 <= i < j < |keys| :: keys[i] != keys[j])
    requires Visible(fs, key) && !IsPlaceholder(v)
    ensures MaskArgs(SetKey(fs, key, v), keys) == MaskArgs(fs, keys)
    decreases |keys|
  {
    var first, rest := keys[0], keys[1..];
    GetSetKey(fs, key, v, first);
    if first == key {
      SetKeyTwice(fs, key, v, Null);
    } else if Visible(fs, first) {
      SetKeysCommute(fs, key, v, first, Null);
      SetOther(fs, first, Null, key);
      MaskArgsHides(SetKey(fs, first, Null), rest, key, v);
    } else {
      MaskArgsHides(fs, rest, key, v);
    }
  }

  /** Any two hidden arguments of a requested call are the same to the mask. */
  lemma HiddenArgumentMasked(fs: seq<Field>, key: Text, v: Json)
    requires key in ARG_KEYS && Visible(fs, key) && !IsPlaceholder(v)
    ensures MaskCall(Obj(SetKey(fs, key, v))) == MaskCall(Obj(fs))
  {
    ArgKeysDiffer();
    MaskArgsHides(fs, ARG_KEYS, key, v);
  }

  lemma {:induction false} MaskCallsAt(calls: seq<Json>, j: nat, c: Json)
    requires j < |calls| && MaskCall(c) == MaskCall(calls[j])
    ensures MaskCalls(calls[j := c]) == MaskCalls(calls)
  {
    if j > 0 {
      assert calls[j := c][1..] == calls[1..][j - 1 := c];
      MaskCallsAt(calls[1..], j - 1, c);
    } else {
      assert calls[j := c][1..] == calls[1..];
    }
  }

  /** The output of an event with another list of requested calls. */
  function WithCallList(fs: seq<Field>, calls: Json): seq<Field>
    requires CarriesCalls(fs)
  {
    SetKey(fs, OUTPUT, Obj(SetKey(Get(fs, OUTPUT).value.fields, TOOL_CALLS, calls)))
  }

  lemma CallListsAlike(fs: seq<Field>, calls: Json)
    requires CarriesCalls(fs) && !calls.Null? && !IsPlaceholder(calls)
    requires MaskCallList(calls) == MaskCallList(Get(Get(fs, OUTPUT).value.fields, TOOL_CALLS).value)
    ensures MaskToolCalls(WithCallList(fs, calls)) == MaskToolCalls(fs) && SameIds(WithCallList(fs, calls), fs)
  {
    hide MaskCallList, SameIds;
    var inner := Get(fs, OUTPUT).value.fields;
    var output := Obj(SetKey(inner, TOOL_CALLS, calls));
    HiddenApart();
    SetKeepsIds(fs, OUTPUT, output);
    GetSetKey(fs, OUTPUT, output, OUTPUT);
    GetSetKey(inner, TOOL_CALLS, calls, TOOL_CALLS);
    var m := MaskCallList(calls);
    SetKeyTwice(inner, TOOL_CALLS, calls, m);
    SetKeyTwice(fs, OUTPUT, output, Obj(SetKey(inner, TOOL_CALLS, m)));
  }

  /** Two lists of requested calls that differ only in hidden arguments are the same to the mask. */
  lemma HiddenCallsMasked(sw: Switches, st: Tracking, e: Event, calls: Json)
    requires e.t == NodeFinished && Inspected(sw, e) && e.payload.Dictionary? && Handle(sw, st, e).Good?
    requires CarriesCalls(e.payload.fields) && (sw.hideToolArgs || sw.hideInputs)
    requires !HidesOutput(sw, KindHere(st, e.payload.fields, e.run)) && !calls.Null? && !IsPlaceholder(calls)
    requires MaskCallList(calls) == MaskCallList(Get(Get(e.payload.fields, OUTPUT).value.fields, TOOL_CALLS).value)
    ensures Mask(sw, st, e.(payload := Dictionary(WithCallList(e.payload.fields, calls)))) == Mask(sw, st, e)
  {
    hide WithCallList, CarriesCalls, MaskToolCalls, HideToolCallArgs, KindOf, Identity, HideField, Visible;
    CallListsAlike(e.payload.fields, calls);
  }

  /** One argument of one requested call. */
  lemma HiddenCallArgumentMasked(sw: Switches, st: Tracking, e: Event, j: nat, key: Text, v: Json)
    requires e.t == NodeFinished && Inspected(sw, e) && e.payload.Dictionary? && Handle(sw, st, e).Good?
    requires CarriesCalls(e.payload.fields) && (sw.hideToolArgs || sw.hideInputs)
    requires !HidesOutput(sw, KindHere(st, e.payload.fields, e.run))
    requires var calls := Get(Get(e.payload.fields, OUTPUT).value.fields, TOOL_CALLS).value;
             calls.Arr? && j < |calls.items| && calls.items[j].Obj? && Visible(calls.items[j].fields, key)
    requires key in ARG_KEYS && !IsPlaceholder(v)
    ensures var calls := Get(Get(e.payload.fields, OUTPUT).value.fields, TOOL_CALLS).value.items;
            var changed := Arr(calls[j := Obj(SetKey(calls[j].fields, key, v))]);
            Mask(sw, st, e.(payload := Dictionary(WithCallList(e.payload.fields, changed)))) == Mask(sw, st, e)
  {
    hide Mask, Handle, MaskCall, MaskCalls, HidesOutput, Inspected, WithCallList;
    var calls := Get(Get(e.payload.fields, OUTPUT).value.fields, TOOL_CALLS).value.items;
    var c := Obj(SetKey(calls[j].fields, key, v));
    HiddenArgumentMasked(calls[j].fields, key, v);
    MaskCallsAt(calls, j, c);
    HiddenCallsMasked(sw, st, e, Arr(calls[j := c]));
  }

  // ---- a payload that cannot be inspected ----

  lemma EraseSet(fs: seq<Field>, key: Text, v: Json, other: Text)
    requires Get(fs, key).Some?
    ensures Erase(SetKey(fs, key, v), other) == if other == key then Erase(fs, key) else SetKey(Erase(fs, other), key, v)
  {
    GetSetKey(fs, key, v, other);
    if other == key {
      SetKeyTwice(fs, key, v, Null);
    } else if Get(fs, other).Some? {
      SetKeysCommute(fs, key, v, other, Null);
    }
  }

  /** The fields a failed form never reads. */
  predicate Unread(t: EventType, key: Text) { if IsAnswer(t) then key == EDITED || key == MESSAGE else key == INPUT || key == OUTPUT || key == DELTAS }

  /** Any two values of a field that is not read of a payload that cannot be inspected are the same to the mask. */
  lemma UnreadMasked(t: EventType, fs: seq<Field>, key: Text, v: Json)
    requires Unread(t, key) && Get(fs, key).Some?
    ensures MaskUninspected(t, SetKey(fs, key, v)) == MaskUninspected(t, fs)
  {
    HiddenApart();
    AnswerApart();
    if IsAnswer(t) {
      EraseSet(fs, key, v, EDITED);
      EraseKeeps(fs, EDITED, key);
      EraseSet(Erase(fs, EDITED), key, v, MESSAGE);
    } else {
      var a := Erase(fs, INPUT);
      EraseSet(fs, key, v, INPUT);
      EraseKeeps(fs, INPUT, key);
      EraseSet(a, key, v, OUTPUT);
      EraseKeeps(a, OUTPUT, key);
      EraseSet(Erase(a, OUTPUT), key, v, DELTAS);
    }
  }

  // ---- tool results ----

  /** Every start of a node named as a tool says it is one. */
  predicate StartsAsTool(e: Event)
  {
    e.t == NodeStarted ==>
      var node, kind := ReadText(e.payload, NODE_ID), ReadText(e.payload, KIND);
      node.Some? && IsToolNode(node.value) && kind.Some? ==> kind.value == TOOL
  }

  predicate ToolsKnown(st: Tracking)
  {
    && (forall i | 0 <= i < |st.nodes| :: IsToolNode(st.nodes[i].0.1) ==> st.nodes[i].1 == TOOL)
    && (forall i | 0 <= i < |st.instances| :: IsToolNode(st.instances[i].0.1) ==> st.instances[i].1 == TOOL)
  }

  lemma PutAll<K, V>(d: Dict<K, V>, k: K, v: V, i: nat)
    requires i < |Put(d, k, v)|
    ensures Put(d, k, v)[i] == (k, v) || Put(d, k, v)[i] in d
  {
    PutMembers(d, k, v, Put(d, k, v)[i]);
  }

  lemma RemoveAll<K, V>(d: Dict<K, V>, k: K, i: nat)
    requires i < |Remove(d, k)|
    ensures Remove(d, k)[i] in d
  {
    RemoveMembers(d, k, Remove(d, k)[i]);
  }

  lemma RememberTools(st: Tracking, run: Text, node: Text, id: Option<Text>, kind: Text)
    requires ToolsKnown(st) && (IsToolNode(node) ==> kind == TOOL)
    ensures ToolsKnown(Remember(st, run, node, id, kind))
  {
    var rest := Remove(st.nodes, (run, node));
    var put := Put(rest, (run, node), kind);
    forall i | 0 <= i < |put| ensures IsToolNode(put[i].0.1) ==> put[i].1 == TOOL {
      PutAll(rest, (run, node), kind, i);
      if put[i] in rest {
        var j :| 0 <= j < |rest| && rest[j] == put[i];
        RemoveAll(st.nodes, (run, node), j);
      }
    }
    if id.Some? {
      var puti := Put(st.instances, (run, node, id.value), kind);
      forall i | 0 <= i < |puti| ensures IsToolNode(puti[i].0.1) ==> puti[i].1 == TOOL {
        PutAll(st.instances, (run, node, id.value), kind, i);
      }
    }
  }

  lemma ForgetTools(st: Tracking, run: Text, node: Option<Text>, id: Option<Text>)
    requires ToolsKnown(st)
    ensures ToolsKnown(ForgetInstance(st, run, node, id))
  {
    if node.Some? && id.Some? {
      var r := Remove(st.instances, (run, node.value, id.value));
      forall i | 0 <= i < |r| ensures IsToolNode(r[i].0.1) ==> r[i].1 == TOOL {
        RemoveAll(st.instances, (run, node.value, id.value), i);
      }
    }
  }

  lemma ApplyTools(sw: Switches, st: Tracking, e: Event)
    requires ToolsKnown(st) && StartsAsTool(e)
    ensures ToolsKnown(Apply(sw, st, e).1)
  {
    hide ToolsKnown, Remember, ForgetInstance, OnStarted, OnFinished, OnToken, OnAnswer, Inspected;
    var node, id, kind := ReadText(e.payload, NODE_ID), ReadText(e.payload, INSTANCE_ID), ReadText(e.payload, KIND);
    if Inspected(sw, e) {
      if Handle(sw, st, e).Good? {
        var fs := e.payload.fields;
        ForgetTools(st, e.run, IdOf(fs, NODE_ID), IdOf(fs, INSTANCE_ID));
        if e.t == NodeStarted && IdOf(fs, NODE_ID).Some? && IdOf(fs, KIND).Some? {
          RememberTools(st, e.run, IdOf(fs, NODE_ID).value, IdOf(fs, INSTANCE_ID), IdOf(fs, KIND).value);
        }
      } else {
        ForgetTools(st, e.run, node, id);
        if e.t == NodeStarted && FailedStarted(e.payload).Some? {
          RememberTools(st, e.run, node.value, id, kind.value);
        }
      }
    }
  }

  lemma ToolKind(st: Tracking, run: Text, node: Text, id: Option<Text>)
    requires ToolsKnown(st) && IsToolNode(node)
    ensures KindOf(st, run, node, id) == Some(TOOL)
  {
  }

  /** The output of what is sent is absent or the placeholder. */
  predicate OutputHidden(out: Out)
  {
    out.Dropped? || (out.Sent? && out.payload.Obj? &&
      var output := Get(out.payload.fields, OUTPUT); output.None? || IsPlaceholder(output.value))
  }

  lemma HiddenFieldShows(fs: seq<Field>)
    ensures Get(HideField(fs, OUTPUT, Str(REDACTED)).fields, OUTPUT) == Some(Str(REDACTED))
  {
    HiddenApart();
    GetSetKey(fs, OUTPUT, Str(REDACTED), OUTPUT);
    GetSetKey(SetKey(fs, OUTPUT, Str(REDACTED)), REDACTION, MergeSummary(Get(fs, REDACTION), 1, OUTPUT), OUTPUT);
  }

  predicate Lacks(fs: seq<Field>, key: Text) { forall i | 0 <= i < |fs| :: fs[i].key != key }

  lemma SkipField(front: seq<Field>, rest: seq<Field>, key: Text)
    requires Lacks(front, key)
    ensures Get(front + rest, key) == Get(rest, key)
  {
    GetAppend(front, rest, key);
  }

  lemma SkipSix(a: seq<Field>, b: seq<Field>, c: seq<Field>, d: seq<Field>, e: seq<Field>, f: seq<Field>, r: seq<Field>, key: Text)
    requires Lacks(a, key) && Lacks(b, key) && Lacks(c, key) && Lacks(d, key) && Lacks(e, key) && Lacks(f, key)
    ensures Get(a + (b + (c + (d + (e + (f + r))))), key) == Get(r, key)
  {
    SkipField(f, r, key);
    SkipField(e, f + r, key);
    SkipField(d, e + (f + r), key);
    SkipField(c, d + (e + (f + r)), key);
    SkipField(b, c + (d + (e + (f + r))), key);
    SkipField(a, b + (c + (d + (e + (f + r)))), key);
  }

  lemma FailedOutputHidden(p: Payload)
    requires FailedFinished(p).Some?
    ensures Get(FailedFinished(p).value.fields, OUTPUT) == Some(Str(REDACTED))
  {
    HiddenApart();
    var usage, held, id := UsageForm(Read(p, USAGE)), OptionalHeld(Read(p, HELD_MS)), OptionalText(p, INSTANCE_ID);
    FinishedPieces(p, usage, held, id);
    SkipSix([Field(NODE_ID, Str(ReadText(p, NODE_ID).value))], id, [Field(DURATION_MS, Read(p, DURATION_MS).value)], held,
            [Field(STATUS, Str(ReadText(p, STATUS).value))], usage,
            [Field(OUTPUT, Str(REDACTED)), Field(REDACTION, FailedSummary(NODE_FAILED))], OUTPUT);
  }

  lemma FinishedPieces(p: Payload, usage: seq<Field>, held: seq<Field>, id: seq<Field>)
    requires usage == UsageForm(Read(p, USAGE)) && held == OptionalHeld(Read(p, HELD_MS)) && id == OptionalText(p, INSTANCE_ID)
    ensures Lacks(usage, OUTPUT) && Lacks(held, OUTPUT) && Lacks(id, OUTPUT)
  {
    HiddenApart();
  }

  lemma ToolResultHidden(sw: Switches, st: Tracking, e: Event)
    requires sw.hideToolResults && ToolsKnown(st) && e.t == NodeFinished
    requires ReadText(e.payload, NODE_ID).Some? && IsToolNode(ReadText(e.payload, NODE_ID).value)
    ensures OutputHidden(Apply(sw, st, e).0)
  {
    if Handle(sw, st, e).Good? {
      var fs := e.payload.fields;
      ToolKind(st, e.run, IdOf(fs, NODE_ID).value, IdOf(fs, INSTANCE_ID));
      HiddenFieldShows(fs);
    } else if FailedFinished(e.payload).Some? {
      FailedOutputHidden(e.payload);
    }
  }

  /** A delta that shows no text. */
  predicate ShowsNothing(d: Json) { d.Null? || (d.Obj? && var v := Get(d.fields, VALUE_KEY); v.None? || v.value == Str([])) }

  predicate ShowNothing(ds: seq<Json>) { forall i | 0 <= i < |ds| :: ShowsNothing(ds[i]) }

  /** What is sent of a batch of deltas shows no text. */
  predicate DeltasHidden(out: Out)
  {
    out.Dropped? || (out.Sent? && out.payload.Obj? &&
      var deltas := Get(out.payload.fields, DELTAS); deltas.Some? && deltas.value.Arr? && ShowNothing(deltas.value.items))
  }

  lemma HiddenDeltaShows(d: Json, args: bool)
    requires HideDelta(d, true, args).Good?
    ensures ShowsNothing(HideDelta(d, true, args).value.0)
  {
    var r := HideDelta(d, true, args).value;
    if r.1 == 1 {
      DeltaKeysApart();
      assert CHARS != VALUE_KEY by {
        assert CHARS[0] == 'c' as int && VALUE_KEY[0] == 'v' as int;
      }
      GetSetKey(d.fields, VALUE_KEY, Str([]), VALUE_KEY);
      GetSetKey(SetKey(d.fields, VALUE_KEY, Str([])), CHARS, Count(|Get(d.fields, VALUE_KEY).value.text|), VALUE_KEY);
    }
  }

  lemma {:induction false} HiddenDeltasShow(ds: seq<Json>, args: bool)
    requires HideDeltas(ds, true, args).Good?
    ensures ShowNothing(HideDeltas(ds, true, args).value.0)
  {
    if ds != [] {
      HiddenDeltaShows(ds[0], args);
      HiddenDeltasShow(ds[1..], args);
    }
  }

  lemma HiddenTokensShow(fs: seq<Field>, args: bool)
    requires HideTokens(fs, true, args).Good?
    ensures DeltasHidden(Sent(HideTokens(fs, true, args).value))
  {
    hide HideDeltas, ShowNothing, MergeSummary;
    HiddenApart();
    var items := Get(fs, DELTAS).value.items;
    HiddenDeltasShow(items, args);
    var hidden := HideDeltas(items, true, args).value;
    var out := SetKey(fs, DELTAS, Arr(hidden.0));
    GetSetKey(fs, DELTAS, Arr(hidden.0), DELTAS);
    GetSetKey(out, REDACTION, MergeSummary(Get(fs, REDACTION), hidden.1, DELTAS), DELTAS);
  }

  lemma TextLacks(p: Payload, key: Text, other: Text)
    requires other != key
    ensures Lacks(OptionalText(p, key), other)
  {
  }

  lemma NodeIdLacks(v: Json)
    ensures Lacks([Field(NODE_ID, v)], DELTAS)
  {
    HiddenApart();
  }

  lemma TokenFormDeltas(front: Field, id: seq<Field>, summary: Json)
    requires Lacks([front], DELTAS) && Lacks(id, DELTAS)
    ensures Get([front] + id + [Field(DELTAS, Arr([])), Field(REDACTION, summary)], DELTAS) == Some(Arr([]))
  {
    hide Lacks;
    var last := [Field(DELTAS, Arr([])), Field(REDACTION, summary)];
    SkipField(id, last, DELTAS);
    SkipField([front], id + last, DELTAS);
    assert [front] + id + last == [front] + (id + last);
  }

  lemma FailedTokenShows(p: Payload)
    requires FailedToken(p).Some?
    ensures DeltasHidden(Sent(FailedToken(p).value))
  {
    hide OptionalText, ReadText, FailedSummary, Lacks, Get;
    HiddenApart();
    TextLacks(p, INSTANCE_ID, DELTAS);
    NodeIdLacks(Str(ReadText(p, NODE_ID).value));
    TokenFormDeltas(Field(NODE_ID, Str(ReadText(p, NODE_ID).value)), OptionalText(p, INSTANCE_ID), FailedSummary(NODE_FAILED));
  }

  /** The deltas a tool node streams are hidden with its result. */
  lemma ToolTokensHidden(sw: Switches, st: Tracking, e: Event)
    requires sw.hideToolResults && ToolsKnown(st) && e.t == NodeToken
    requires ReadText(e.payload, NODE_ID).Some? && IsToolNode(ReadText(e.payload, NODE_ID).value)
    ensures DeltasHidden(Apply(sw, st, e).0)
  {
    hide ToolsKnown, KindOf, IsToolNode, DeltasHidden, HideTokens;
    if Handle(sw, st, e).Good? {
      var fs := e.payload.fields;
      ToolKind(st, e.run, IdOf(fs, NODE_ID).value, None);
      HiddenTokensShow(fs, sw.hideToolArgs || sw.hideInputs);
    } else if FailedToken(e.payload).Some? {
      FailedTokenShows(e.payload);
    } else {
      DroppedShows();
    }
  }

  lemma DroppedShows()
    ensures DeltasHidden(Dropped)
  {
  }

  /** An event of a node named as a tool that carries its result: the finish, or a batch of streamed deltas. */
  predicate CarriesToolResult(e: Event)
  {
    && (e.t == NodeFinished || e.t == NodeToken)
    && ReadText(e.payload, NODE_ID).Some? && IsToolNode(ReadText(e.payload, NODE_ID).value)
  }

  predicate ResultHidden(t: EventType, out: Out) { if t == NodeFinished then OutputHidden(out) else DeltasHidden(out) }

  /** However many instances were forgotten in between, a hidden tool result is never sent: not at once, and not streamed. */
  lemma {:induction false} ToolResultsStayHidden(sw: Switches, st: Tracking, es: seq<Event>, i: nat)
    requires sw.hideToolResults && ToolsKnown(st) && i < |es|
    requires forall j | 0 <= j < |es| :: StartsAsTool(es[j])
    requires CarriesToolResult(es[i])
    ensures i < |ApplyAll(sw, st, es).0| && ResultHidden(es[i].t, ApplyAll(sw, st, es).0[i])
    decreases |es|
  {
    hide ToolsKnown, StartsAsTool, OutputHidden, DeltasHidden, Apply;
    assert StartsAsTool(es[0]);
    ApplyTools(sw, st, es[0]);
    if i > 0 {
      ToolResultsStayHidden(sw, Apply(sw, st, es[0]).1, es[1..], i - 1);
    } else if es[0].t == NodeFinished {
      ToolResultHidden(sw, st, es[0]);
    } else {
      ToolTokensHidden(sw, st, es[0]);
    }
  }
}
