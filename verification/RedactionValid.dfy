/**
 Redaction keeps events valid: a valid payload stays valid whatever the switches,
 and the form sent instead of an uninspectable payload is valid for its type.
 */
module RedactionValid {
  import opened Utf16
  import opened Json
  import opened JsNumber
  import opened Schema
  import opened ShrinkSpec
  import opened Budget
  import opened Redaction

  // ---- one field set or removed ----

  predicate FieldFits(f: Field, rules: seq<Rule>)
  {
    forall j | 0 <= j < |rules| && rules[j].key == f.key :: Valid(rules[j].check, f.value)
  }

  lemma SetKeyValid(rules: seq<Rule>, fs: seq<Field>, key: Text, v: Json)
    requires Valid(Record(rules), Obj(fs)) && FieldFits(Field(key, v), rules)
    ensures Valid(Record(rules), Obj(SetKey(fs, key, v)))
  {
    forall i | 0 <= i < |rules| ensures Obeys(rules[i], SetKey(fs, key, v)) {
      assert Obeys(rules[i], fs);
      GetSetKey(fs, key, v, rules[i].key);
    }
  }

  lemma {:induction false} GetRemoved(fs: seq<Field>, key: Text, other: Text)
    requires other != key
    ensures Get(RemoveKey(fs, key), other) == Get(fs, other)
  {
    if fs != [] {
      GetRemoved(fs[1..], key, other);
      var rest := RemoveKey(fs[1..], key);
      assert [] + rest == rest;
      assert ([fs[0]] + rest)[1..] == rest;
    }
  }

  lemma {:induction false} GetRemovedKey(fs: seq<Field>, key: Text)
    ensures Get(RemoveKey(fs, key), key) == None
  {
    if fs != [] {
      GetRemovedKey(fs[1..], key);
      var rest := RemoveKey(fs[1..], key);
      assert [] + rest == rest;
      assert ([fs[0]] + rest)[1..] == rest;
    }
  }

  lemma RemoveKeyValid(rules: seq<Rule>, fs: seq<Field>, key: Text)
    requires Valid(Record(rules), Obj(fs)) && forall j | 0 <= j < |rules| && rules[j].key == key :: !rules[j].required
    ensures Valid(Record(rules), Obj(RemoveKey(fs, key)))
  {
    forall i | 0 <= i < |rules| ensures Obeys(rules[i], RemoveKey(fs, key)) {
      assert Obeys(rules[i], fs);
      if rules[i].key == key {
        GetRemovedKey(fs, key);
      } else {
        GetRemoved(fs, key, rules[i].key);
      }
    }
  }

  // ---- summaries ----

  lemma {:induction false} DigitsDropped(ds: Text)
    requires AllDigits(ds)
    ensures DropDigits(ds) == []
  {
    if ds != [] {
      DigitsDropped(ds[1..]);
    }
  }

  lemma CountValid(n: nat)
    requires n <= MAX_SAFE_INTEGER
    ensures Valid(NonnegInt, Count(n))
  {
    NatDigitsRoundTrip(n);
    var ds := NatDigits(n);
    DigitsDropped(ds);
    if ds[0] == ZERO {
      assert n == 0;
      assert ds[1..] == [];
    }
  }

  lemma TextsValid(keys: seq<Text>)
    ensures Valid(ListOf(AnyText), Texts(keys))
  {
  }

  lemma KeysApart()
    ensures COUNT != KEYS && FAILED != COUNT && FAILED != KEYS
  {
  }

  lemma SummaryRules(fs: seq<Field>, n: nat, keys: seq<Text>)
    requires n <= MAX_SAFE_INTEGER && Get(fs, COUNT) == Some(Count(n)) && Get(fs, KEYS) == Some(Texts(keys))
    ensures Valid(REDACTION_SUMMARY, Obj(fs))
  {
    CountValid(n);
    TextsValid(keys);
    var rules := REDACTION_SUMMARY.rules;
    assert rules[0] == Must(COUNT, NonnegInt) && rules[1] == Must(KEYS, ListOf(AnyText)) && |rules| == 2;
    assert Obeys(rules[0], fs) && Obeys(rules[1], fs);
  }

  lemma SummaryValid(n: nat, keys: seq<Text>)
    requires n <= MAX_SAFE_INTEGER
    ensures Valid(REDACTION_SUMMARY, Summary(n, keys)) && Valid(REDACTION_SUMMARY, FailedSummary(keys))
  {
    KeysApart();
    var a, b, c := Field(COUNT, Count(n)), Field(KEYS, Texts(keys)), Field(FAILED, Bool(true));
    assert [a, b][1..] == [b];
    SummaryRules([a, b], n, keys);
    var z := Field(COUNT, Count(0));
    assert [z, b, c][1..] == [b, c];
    SummaryRules([z, b, c], 0, keys);
  }

  lemma MergedValid(existing: Option<Json>, count: nat, key: Text)
    requires count <= MAX_SAFE_INTEGER
    ensures Valid(REDACTION_SUMMARY, MergeSummary(existing, count, key))
  {
    SummaryValid(count, [key]);
    if existing.Some? && existing.value.Obj? {
      var c, k := Get(existing.value.fields, COUNT), Get(existing.value.fields, KEYS);
      if c.Some? && (c.value.Number? || c.value.NonFinite?) && k.Some? && k.value.Arr? {
        var prior := PlainTexts(k.value.items);
        var total := PriorCount(c.value) + count;
        SummaryValid(if total <= MAX_SAFE_INTEGER then total else count, if key in prior then prior else prior + [key]);
      }
    }
  }

  // ---- which rules name which field ----

  /** The rules of a key all are this check, if there are any. */
  predicate Named(rules: seq<Rule>, key: Text, check: Check)
  {
    forall j | 0 <= j < |rules| && rules[j].key == key :: rules[j].check == check
  }

  predicate Unnamed(rules: seq<Rule>, key: Text) { forall j | 0 <= j < |rules| :: rules[j].key != key }

  lemma NamedFits(rules: seq<Rule>, key: Text, check: Check, v: Json)
    requires Named(rules, key, check) && Valid(check, v)
    ensures FieldFits(Field(key, v), rules)
  {
  }

  lemma StartedNames()
    ensures Unnamed(Rules(NodeStarted), INPUT) && Named(Rules(NodeStarted), REDACTION, REDACTION_SUMMARY)
  {
    assert COLLAPSED[0] != REDACTION[0];
  }

  lemma FinishedNames()
    ensures Unnamed(Rules(NodeFinished), OUTPUT) && Named(Rules(NodeFinished), REDACTION, REDACTION_SUMMARY)
  {
    assert OUTPUT[0] == 'o' as int && NODE_ID[0] == 'n' as int && HELD_MS[0] == 'h' as int && STATUS[0] == 's' as int;
  }

  lemma TokenNames()
    ensures Named(Rules(NodeToken), DELTAS, ListOf(TOKEN_DELTA)) && Named(Rules(NodeToken), REDACTION, REDACTION_SUMMARY)
  {
    assert DELTAS[0] == 'd' as int && NODE_ID[0] == 'n' as int;
  }

  lemma AnswerNames()
    ensures Unnamed(Rules(ExecResumed), REDACTION) && Unnamed(Rules(ExecRefused), REDACTION)
    ensures Named(Rules(ExecResumed), EDITED, Record([Must(AFTER, Anything)]))
    ensures forall j | 0 <= j < |Rules(ExecRefused)| && Rules(ExecRefused)[j].key == MESSAGE :: !Rules(ExecRefused)[j].required
  {
    assert REDACTION[0] == 'r' as int && REDACTION[2] == 'd' as int && REQUEST_ID[2] == 'q' as int && PRINCIPAL[0] == 'p' as int;
    assert EDITED[0] == 'e' as int && ACTION[0] == 'a' as int && MESSAGE[0] == 'm' as int && PAUSE_ID[0] == 'p' as int;
  }

  // ---- handlers ----

  lemma HiddenFieldValid(rules: seq<Rule>, fs: seq<Field>, key: Text, v: Json)
    requires Valid(Record(rules), Obj(fs)) && FieldFits(Field(key, v), rules) && Named(rules, REDACTION, REDACTION_SUMMARY)
    ensures Valid(Record(rules), HideField(fs, key, v))
  {
    SetKeyValid(rules, fs, key, v);
    var summary := MergeSummary(Get(fs, REDACTION), 1, key);
    MergedValid(Get(fs, REDACTION), 1, key);
    NamedFits(rules, REDACTION, REDACTION_SUMMARY, summary);
    SetKeyValid(rules, SetKey(fs, key, v), REDACTION, summary);
  }

  lemma SummarizedValid(rules: seq<Rule>, fs: seq<Field>, existing: Option<Json>, count: nat, key: Text)
    requires Valid(Record(rules), Obj(fs)) && Named(rules, REDACTION, REDACTION_SUMMARY) && count <= MAX_SAFE_INTEGER
    ensures Valid(Record(rules), Obj(SetKey(fs, REDACTION, MergeSummary(existing, count, key))))
  {
    MergedValid(existing, count, key);
    NamedFits(rules, REDACTION, REDACTION_SUMMARY, MergeSummary(existing, count, key));
    SetKeyValid(rules, fs, REDACTION, MergeSummary(existing, count, key));
  }

  lemma StartedValid(sw: Switches, fs: seq<Field>)
    requires Valid(Record(Rules(NodeStarted)), Obj(fs)) && OnStarted(sw, fs).Good?
    ensures Valid(Record(Rules(NodeStarted)), OnStarted(sw, fs).value)
  {
    StartedNames();
    HiddenFieldValid(Rules(NodeStarted), fs, INPUT, Str(REDACTED));
  }

  /** A list with at most this many entries, so that counting them stays a safe integer. */
  const MAX_LIST := 0x4_0000_0000_0000

  predicate Listed(v: Option<Json>) { v.Some? && v.value.Arr? ==> |v.value.items| <= MAX_LIST }

  /** The lists a summary counts over. */
  predicate Countable(fs: seq<Field>)
  {
    && Listed(Get(fs, DELTAS))
    && (Get(fs, OUTPUT).Some? && Get(fs, OUTPUT).value.Obj? ==> Listed(Get(Get(fs, OUTPUT).value.fields, TOOL_CALLS)))
  }

  lemma FinishedValid(sw: Switches, st: Tracking, fs: seq<Field>, run: Text)
    requires Valid(Record(Rules(NodeFinished)), Obj(fs)) && OnFinished(sw, st, fs, run).Good? && Countable(fs)
    ensures Valid(Record(Rules(NodeFinished)), OnFinished(sw, st, fs, run).value)
  {
    FinishedNames();
    HiddenFieldValid(Rules(NodeFinished), fs, OUTPUT, Str(REDACTED));
    if CarriesCalls(fs) {
      var inner := Get(fs, OUTPUT).value.fields;
      var calls := Get(inner, TOOL_CALLS).value;
      CallsValid(fs, inner, HideCallList(calls).0, HideCallList(calls).1);
    }
  }

  lemma CallsValid(fs: seq<Field>, inner: seq<Field>, hidden: Json, count: nat)
    requires Valid(Record(Rules(NodeFinished)), Obj(fs)) && count <= MAX_SAFE_INTEGER
    ensures Valid(Record(Rules(NodeFinished)), WithCalls(fs, inner, hidden, count))
  {
    FinishedNames();
    var output := Obj(SetKey(inner, TOOL_CALLS, hidden));
    SetKeyValid(Rules(NodeFinished), fs, OUTPUT, output);
    SummarizedValid(Rules(NodeFinished), SetKey(fs, OUTPUT, output), Get(fs, REDACTION), count, OUTPUT_TOOL_CALLS);
  }

  lemma DeltaNames()
    ensures Named(TOKEN_DELTA.rules, VALUE_KEY, AnyText) && Unnamed(TOKEN_DELTA.rules, CHARS)
  {
    assert TYPE_KEY[0] == 't' as int && VALUE_KEY[0] == 'v' as int;
  }

  lemma DeltaValid(d: Json, all: bool, args: bool)
    requires Valid(TOKEN_DELTA, d) && HideDelta(d, all, args).Good?
    ensures Valid(TOKEN_DELTA, HideDelta(d, all, args).value.0)
  {
    DeltaNames();
    var rules := TOKEN_DELTA.rules;
    NamedFits(rules, VALUE_KEY, AnyText, Str([]));
    SetKeyValid(rules, d.fields, VALUE_KEY, Str([]));
    if HideDelta(d, all, args).value.1 == 1 {
      var n := Count(|Get(d.fields, VALUE_KEY).value.text|);
      SetKeyValid(rules, SetKey(d.fields, VALUE_KEY, Str([])), CHARS, n);
    }
  }

  lemma {:induction false} DeltasValid(ds: seq<Json>, all: bool, args: bool)
    requires HideDeltas(ds, all, args).Good? && forall i | 0 <= i < |ds| :: Valid(TOKEN_DELTA, ds[i])
    ensures forall i | 0 <= i < |ds| :: Valid(TOKEN_DELTA, HideDeltas(ds, all, args).value.0[i])
  {
    if ds != [] {
      DeltaValid(ds[0], all, args);
      DeltasValid(ds[1..], all, args);
    }
  }

  lemma TokensValid(rules: seq<Rule>, fs: seq<Field>, all: bool, args: bool)
    requires Valid(Record(rules), Obj(fs)) && HideTokens(fs, all, args).Good? && Listed(Get(fs, DELTAS))
    requires Named(rules, DELTAS, ListOf(TOKEN_DELTA)) && Named(rules, REDACTION, REDACTION_SUMMARY)
    requires Valid(ListOf(TOKEN_DELTA), Get(fs, DELTAS).value)
    ensures Valid(Record(rules), HideTokens(fs, all, args).value)
  {
    var items := Get(fs, DELTAS).value.items;
    DeltasValid(items, all, args);
    var hidden := HideDeltas(items, all, args).value;
    NamedFits(rules, DELTAS, ListOf(TOKEN_DELTA), Arr(hidden.0));
    SetKeyValid(rules, fs, DELTAS, Arr(hidden.0));
    SummarizedValid(rules, SetKey(fs, DELTAS, Arr(hidden.0)), Get(fs, REDACTION), hidden.1, DELTAS);
  }

  lemma DeltasOfValid(fs: seq<Field>)
    requires Valid(Record(Rules(NodeToken)), Obj(fs))
    ensures Get(fs, DELTAS).Some? && Valid(ListOf(TOKEN_DELTA), Get(fs, DELTAS).value)
  {
    var rules := Rules(NodeToken);
    assert rules[1] == Must(DELTAS, ListOf(TOKEN_DELTA)) && Obeys(rules[1], fs);
  }

  lemma TokenValid(sw: Switches, st: Tracking, fs: seq<Field>, run: Text)
    requires Valid(Record(Rules(NodeToken)), Obj(fs)) && OnToken(sw, st, fs, run).Good? && Countable(fs)
    ensures Valid(Record(Rules(NodeToken)), OnToken(sw, st, fs, run).value)
  {
    if OnToken(sw, st, fs, run) != Good(Obj(fs)) {
      TokenNames();
      DeltasOfValid(fs);
      TokensValid(Rules(NodeToken), fs, HidesAllDeltas(sw, st, fs, run), sw.hideToolArgs || sw.hideInputs);
    }
  }

  lemma EditValid()
    ensures Valid(Record([Must(AFTER, Anything)]), HIDDEN_EDIT)
  {
  }

  lemma AnswerValid(t: EventType, fs: seq<Field>)
    requires IsAnswer(t) && Valid(Record(Rules(t)), Obj(fs)) && OnAnswer(t, fs).Good?
    ensures Valid(Record(Rules(t)), OnAnswer(t, fs).value)
  {
    AnswerNames();
    EditValid();
    if t == ExecResumed {
      NamedFits(Rules(t), EDITED, Record([Must(AFTER, Anything)]), HIDDEN_EDIT);
      SetKeyValid(Rules(t), fs, EDITED, HIDDEN_EDIT);
      SetKeyValid(Rules(t), SetKey(fs, EDITED, HIDDEN_EDIT), REDACTION, MergeSummary(Get(fs, REDACTION), 1, EDITED));
    } else {
      var summary := MergeSummary(Get(fs, REDACTION), 1, MESSAGE);
      SetKeyValid(Rules(t), fs, REDACTION, summary);
      RemoveKeyValid(Rules(t), SetKey(fs, REDACTION, summary), MESSAGE);
    }
  }

  lemma HandledValid(sw: Switches, st: Tracking, t: EventType, fs: seq<Field>, run: Text, r: Inspect<Json>)
    requires IsNodeEvent(t) || IsAnswer(t)
    requires r == (match t
                   case NodeStarted => OnStarted(sw, fs)
                   case NodeFinished => OnFinished(sw, st, fs, run)
                   case NodeToken => OnToken(sw, st, fs, run)
                   case _ => OnAnswer(t, fs))
    requires Valid(Record(Rules(t)), Obj(fs)) && Countable(fs)
    ensures r.Good? && Valid(Record(Rules(t)), r.value)
  {
    if t == NodeStarted {
      StartedInspectable(sw, fs);
      StartedValid(sw, fs);
    } else if t == NodeFinished {
      FinishedInspectable(sw, st, fs, run);
      FinishedValid(sw, st, fs, run);
    } else if t == NodeToken {
      TokenInspectable(sw, st, fs, run);
      TokenValid(sw, st, fs, run);
    } else {
      AnswerInspectable(t, fs);
      AnswerValid(t, fs);
    }
  }

  lemma IdentityOfValid(rules: seq<Rule>, i: nat, fs: seq<Field>)
    requires i < |rules| && Valid(Record(rules), Obj(fs)) && (rules[i].check == AnyText || rules[i].check.OneOf?)
    ensures Identity(fs, rules[i].key).Good?
  {
    var v := Get(fs, rules[i].key);
    assert Obeys(rules[i], fs);
    if v.Some? {
      assert Valid(rules[i].check, v.value);
      assert v.value.Str?;
    }
  }

  lemma StartedInspectable(sw: Switches, fs: seq<Field>)
    requires Valid(Record(Rules(NodeStarted)), Obj(fs))
    ensures OnStarted(sw, fs).Good?
  {
    IdentityOfValid(Rules(NodeStarted), 0, fs);
    IdentityOfValid(Rules(NodeStarted), 2, fs);
    IdentityOfValid(Rules(NodeStarted), 4, fs);
  }

  lemma FinishedInspectable(sw: Switches, st: Tracking, fs: seq<Field>, run: Text)
    requires Valid(Record(Rules(NodeFinished)), Obj(fs))
    ensures OnFinished(sw, st, fs, run).Good?
  {
    IdentityOfValid(Rules(NodeFinished), 0, fs);
    IdentityOfValid(Rules(NodeFinished), 1, fs);
  }

  lemma {:induction false} DeltasInspectable(ds: seq<Json>, all: bool, args: bool)
    requires forall i | 0 <= i < |ds| :: Valid(TOKEN_DELTA, ds[i])
    ensures HideDeltas(ds, all, args).Good?
  {
    if ds != [] {
      var d := ds[0];
      var rules := TOKEN_DELTA.rules;
      assert rules[0] == Must(TYPE_KEY, OneOf(TOKEN_CHANNELS)) && rules[1] == Must(VALUE_KEY, AnyText);
      assert Valid(Record(rules), d) && Obeys(rules[1], d.fields);
      IdentityOfValid(rules, 0, d.fields);
      DeltasInspectable(ds[1..], all, args);
    }
  }

  lemma TokenInspectable(sw: Switches, st: Tracking, fs: seq<Field>, run: Text)
    requires Valid(Record(Rules(NodeToken)), Obj(fs))
    ensures OnToken(sw, st, fs, run).Good?
  {
    hide HideDeltas, HidesAllDeltas;
    IdentityOfValid(Rules(NodeToken), 0, fs);
    DeltasOfValid(fs);
    DeltasInspectable(Get(fs, DELTAS).value.items, HidesAllDeltas(sw, st, fs, run), sw.hideToolArgs || sw.hideInputs);
  }

  lemma AnswerInspectable(t: EventType, fs: seq<Field>)
    requires IsAnswer(t) && Valid(Record(Rules(t)), Obj(fs))
    ensures OnAnswer(t, fs).Good?
  {
    IdentityOfValid(Rules(t), 0, fs);
  }

  /** A valid event is sent, and sent valid, whatever the switches and whatever is remembered. */
  lemma RedactionKeepsValid(sw: Switches, st: Tracking, e: Event)
    requires e.payload.Dictionary? && IsValidEvent(e.t, Obj(e.payload.fields)) && Countable(e.payload.fields)
    ensures var out := Apply(sw, st, e).0; out.Unchanged? || (out.Sent? && IsValidEvent(e.t, out.payload))
  {
    if Inspected(sw, e) {
      var r := Handle(sw, st, e);
      HandledValid(sw, st, e.t, e.payload.fields, e.run, r);
      assert Apply(sw, st, e).0 == Sent(r.value);
    }
  }

  // ---- the failed forms ----

  predicate AllFit(fs: seq<Field>, rules: seq<Rule>) { forall i | 0 <= i < |fs| :: FieldFits(fs[i], rules) }

  /** Every required field is there, and every field is what its rules ask. */
  lemma FormValid(fs: seq<Field>, rules: seq<Rule>)
    requires AllFit(fs, rules) && forall j | 0 <= j < |rules| && rules[j].required :: HasKey(fs, rules[j].key)
    ensures Valid(Record(rules), Obj(fs))
  {
    forall j | 0 <= j < |rules| ensures Obeys(rules[j], fs) {
      var v := Get(fs, rules[j].key);
      if v.Some? {
        var i :| 0 <= i < |fs| && fs[i] == Field(rules[j].key, v.value);
        assert FieldFits(fs[i], rules);
      }
    }
  }

  lemma AppendFits(a: seq<Field>, b: seq<Field>, rules: seq<Rule>)
    requires AllFit(a, rules) && AllFit(b, rules)
    ensures AllFit(a + b, rules)
  {
  }

  lemma OneFits(key: Text, v: Json, rules: seq<Rule>, check: Check)
    requires Named(rules, key, check) && Valid(check, v)
    ensures AllFit([Field(key, v)], rules)
  {
  }

  lemma FreeFits(key: Text, v: Json, rules: seq<Rule>)
    requires Unnamed(rules, key)
    ensures AllFit([Field(key, v)], rules)
  {
  }

  lemma TextFits(p: Payload, key: Text, rules: seq<Rule>)
    requires Named(rules, key, AnyText)
    ensures AllFit(OptionalText(p, key), rules)
  {
  }

  lemma HasFront(a: seq<Field>, b: seq<Field>, key: Text)
    ensures HasKey(a, key) || HasKey(b, key) ==> HasKey(a + b, key)
  {
    if HasKey(a, key) {
      var i :| 0 <= i < |a| && a[i].key == key;
      assert (a + b)[i].key == key;
    } else if HasKey(b, key) {
      var i :| 0 <= i < |b| && b[i].key == key;
      assert (a + b)[|a| + i].key == key;
    }
  }

  predicate Requires(rules: seq<Rule>, keys: seq<Text>)
  {
    forall j | 0 <= j < |rules| && rules[j].required :: rules[j].key in keys
  }

  lemma RequiredFormValid(fs: seq<Field>, rules: seq<Rule>, keys: seq<Text>)
    requires AllFit(fs, rules) && Requires(rules, keys) && forall i | 0 <= i < |keys| :: HasKey(fs, keys[i])
    ensures Valid(Record(rules), Obj(fs))
  {
    FormValid(fs, rules);
  }

  lemma StartedKeys()
    ensures var rules := Rules(NodeStarted);
            && Named(rules, NODE_ID, AnyText) && Named(rules, PARENT_ID, AnyText) && Named(rules, KIND, OneOf(NODE_KINDS))
            && Named(rules, NAME, AnyText) && Named(rules, INSTANCE_ID, AnyText)
            && Requires(rules, [NODE_ID, KIND, NAME, INSTANCE_ID])
  {
    assert KIND[0] != NAME[0] && COLLAPSED[0] != REDACTION[0];
  }

  lemma FailedStartedValid(p: Payload)
    requires FailedStarted(p).Some?
    ensures Valid(Record(Rules(NodeStarted)), FailedStarted(p).value)
  {
    hide FailedSummary, NODE_KINDS, RESUME_ACTIONS, RUN_STATUSES, AllFit, Named, Unnamed, Requires, FieldFits, OptionalText, Rules;
    var rules := Rules(NodeStarted);
    StartedNames();
    StartedKeys();
    SummaryValid(0, NODE_FAILED);
    var node, parent := [Field(NODE_ID, Str(ReadText(p, NODE_ID).value))], OptionalText(p, PARENT_ID);
    var kind, name, id := Str(ReadText(p, KIND).value), Str(ReadText(p, NAME).value), Str(ReadText(p, INSTANCE_ID).value);
    StartedTail(rules, kind, name, id);
    TextFits(p, PARENT_ID, rules);
    OneFits(NODE_ID, Str(ReadText(p, NODE_ID).value), rules, AnyText);
    var rest := StartedRest(kind, name, id);
    AppendFits(node, parent, rules);
    AppendFits(node + parent, rest, rules);
    assert node[0].key == NODE_ID && rest[0].key == KIND && rest[1].key == NAME && rest[2].key == INSTANCE_ID;
    HasFront(node, parent, NODE_ID);
    HasFront(node + parent, rest, NODE_ID);
    HasFront(node + parent, rest, KIND);
    HasFront(node + parent, rest, NAME);
    HasFront(node + parent, rest, INSTANCE_ID);
    RequiredFormValid(node + parent + rest, rules, [NODE_ID, KIND, NAME, INSTANCE_ID]);
  }

  function StartedRest(kind: Json, name: Json, id: Json): seq<Field>
  {
    [Field(KIND, kind), Field(NAME, name), Field(INSTANCE_ID, id), Field(INPUT, Str(REDACTED)),
     Field(REDACTION, FailedSummary(NODE_FAILED))]
  }

  lemma StartedTail(rules: seq<Rule>, kind: Json, name: Json, id: Json)
    requires Named(rules, KIND, OneOf(NODE_KINDS)) && Named(rules, NAME, AnyText) && Named(rules, INSTANCE_ID, AnyText)
    requires Unnamed(rules, INPUT) && Named(rules, REDACTION, REDACTION_SUMMARY)
    requires Valid(OneOf(NODE_KINDS), kind) && name.Str? && id.Str?
    requires Valid(REDACTION_SUMMARY, FailedSummary(NODE_FAILED))
    ensures AllFit(StartedRest(kind, name, id), rules)
  {
    NamedFits(rules, KIND, OneOf(NODE_KINDS), kind);
    NamedFits(rules, NAME, AnyText, name);
    NamedFits(rules, INSTANCE_ID, AnyText, id);
    NamedFits(rules, REDACTION, REDACTION_SUMMARY, FailedSummary(NODE_FAILED));
    FreeFits(INPUT, Str(REDACTED), rules);
    assert FieldFits(Field(INPUT, Str(REDACTED)), rules);
  }

  lemma FinishedKeys()
    ensures var rules := Rules(NodeFinished);
            && Named(rules, NODE_ID, AnyText) && Named(rules, INSTANCE_ID, AnyText) && Named(rules, DURATION_MS, NonnegNumber)
            && Named(rules, HELD_MS, NonnegNumber) && Named(rules, STATUS, OneOf(RUN_STATUSES)) && Named(rules, USAGE, USAGE_COUNTS)
  {
    assert NODE_ID[0] == 'n' as int && HELD_MS[0] == 'h' as int && STATUS[0] == 's' as int;
    assert INSTANCE_ID[0] == 'i' as int && DURATION_MS[0] == 'd' as int;
  }

  lemma FinishedRequires()
    ensures Requires(Rules(NodeFinished), [NODE_ID, DURATION_MS, STATUS])
  {
  }

  lemma UsageKeys()
    ensures var rules := USAGE_COUNTS.rules;
            && Named(rules, INPUT_TOKENS, NonnegInt) && Named(rules, OUTPUT_TOKENS, NonnegInt) && Named(rules, INCLUSIVE, AnyBool)
            && Named(rules, CACHE_READ_TOKENS, NonnegInt) && Named(rules, CACHE_WRITE_TOKENS, NonnegInt)
            && Named(rules, REASONING_TOKENS, NonnegInt) && Requires(rules, [INPUT_TOKENS, OUTPUT_TOKENS])
  {
  }

  lemma CountFits(fs: seq<Field>, key: Text, rules: seq<Rule>)
    requires Named(rules, key, NonnegInt)
    ensures AllFit(OptionalCount(fs, key), rules)
  {
  }

  lemma NothingFits(rules: seq<Rule>)
    ensures AllFit([], rules)
  {
  }

  lemma UsageValid(usage: Option<Json>)
    ensures var r := UsageForm(usage); r == [] || (|r| == 1 && r[0].key == USAGE && Valid(USAGE_COUNTS, r[0].value))
  {
    hide AllFit, Named, Requires, FieldFits, OptionalCount, Get, HasKey;
    if UsageForm(usage) != [] {
      UsageKeys();
      var rules := USAGE_COUNTS.rules;
      var fs := usage.value.fields;
      var inclusive := Get(fs, INCLUSIVE);
      var a := [Field(INPUT_TOKENS, Get(fs, INPUT_TOKENS).value), Field(OUTPUT_TOKENS, Get(fs, OUTPUT_TOKENS).value)];
      var b := if inclusive.Some? && inclusive.value.Bool? then [Field(INCLUSIVE, inclusive.value)] else [];
      var c, d, e := OptionalCount(fs, CACHE_READ_TOKENS), OptionalCount(fs, CACHE_WRITE_TOKENS), OptionalCount(fs, REASONING_TOKENS);
      OneFits(INPUT_TOKENS, a[0].value, rules, NonnegInt);
      OneFits(OUTPUT_TOKENS, a[1].value, rules, NonnegInt);
      if b == [] {
        NothingFits(rules);
      } else {
        OneFits(INCLUSIVE, inclusive.value, rules, AnyBool);
      }
      CountFits(fs, CACHE_READ_TOKENS, rules);
      CountFits(fs, CACHE_WRITE_TOKENS, rules);
      CountFits(fs, REASONING_TOKENS, rules);
      assert [a[0]] + [a[1]] == a;
      AppendFits([a[0]], [a[1]], rules);
      AppendFits(a, b, rules);
      AppendFits(a + b, c, rules);
      AppendFits(a + b + c, d, rules);
      AppendFits(a + b + c + d, e, rules);
      UsageHas(a, b, c, d, e);
      RequiredFormValid(a + b + c + d + e, rules, [INPUT_TOKENS, OUTPUT_TOKENS]);
    }
  }

  lemma UsageHas(a: seq<Field>, b: seq<Field>, c: seq<Field>, d: seq<Field>, e: seq<Field>)
    requires |a| == 2 && a[0].key == INPUT_TOKENS && a[1].key == OUTPUT_TOKENS
    ensures HasKey(a + b + c + d + e, INPUT_TOKENS) && HasKey(a + b + c + d + e, OUTPUT_TOKENS)
  {
    var all := a + b + c + d + e;
    assert all[0] == a[0] && all[1] == a[1];
  }

  lemma FailedFinishedValid(p: Payload)
    requires FailedFinished(p).Some?
    ensures Valid(Record(Rules(NodeFinished)), FailedFinished(p).value)
  {
    hide FailedSummary, NODE_KINDS, RESUME_ACTIONS, RUN_STATUSES, AllFit, Named, Unnamed, Requires, FieldFits, OptionalText, Rules;
    var rules := Rules(NodeFinished);
    FinishedNames();
    FinishedKeys();
    FinishedRequires();
    SummaryValid(0, NODE_FAILED);
    UsageValid(Redaction.Read(p, USAGE));
    TextFits(p, INSTANCE_ID, rules);
    var duration, status := Redaction.Read(p, DURATION_MS).value, Str(ReadText(p, STATUS).value);
    var last := [Field(OUTPUT, Str(REDACTED)), Field(REDACTION, FailedSummary(NODE_FAILED))];
    FreeFits(OUTPUT, Str(REDACTED), rules);
    OneFits(REDACTION, FailedSummary(NODE_FAILED), rules, REDACTION_SUMMARY);
    AppendFits([last[0]], [last[1]], rules);
    assert [last[0]] + [last[1]] == last;
    OneFits(NODE_ID, Str(ReadText(p, NODE_ID).value), rules, AnyText);
    OneFits(DURATION_MS, duration, rules, NonnegNumber);
    OneFits(STATUS, status, rules, OneOf(RUN_STATUSES));
    FinishedPiecesFit(rules, UsageForm(Redaction.Read(p, USAGE)), Redaction.Read(p, HELD_MS));
    FinishedFits(rules, [Field(NODE_ID, Str(ReadText(p, NODE_ID).value))], OptionalText(p, INSTANCE_ID),
                 [Field(DURATION_MS, duration)], OptionalHeld(Redaction.Read(p, HELD_MS)), [Field(STATUS, status)],
                 UsageForm(Redaction.Read(p, USAGE)), last);
  }

  lemma FinishedPiecesFit(rules: seq<Rule>, usage: seq<Field>, held: Option<Json>)
    requires Named(rules, USAGE, USAGE_COUNTS) && Named(rules, HELD_MS, NonnegNumber)
    requires usage == [] || (|usage| == 1 && usage[0].key == USAGE && Valid(USAGE_COUNTS, usage[0].value))
    ensures AllFit(usage, rules) && AllFit(OptionalHeld(held), rules)
  {
    if usage != [] {
      NamedFits(rules, USAGE, USAGE_COUNTS, usage[0].value);
    }
  }

  lemma FinishedFits(rules: seq<Rule>, a: seq<Field>, b: seq<Field>, c: seq<Field>, d: seq<Field>, e: seq<Field>, f: seq<Field>, r: seq<Field>)
    requires AllFit(a, rules) && AllFit(b, rules) && AllFit(c, rules) && AllFit(d, rules) && AllFit(e, rules) && AllFit(f, rules) && AllFit(r, rules)
    requires |a| == |c| == |e| == 1 && a[0].key == NODE_ID && c[0].key == DURATION_MS && e[0].key == STATUS
    requires Requires(rules, [NODE_ID, DURATION_MS, STATUS])
    ensures Valid(Record(rules), Obj(a + (b + (c + (d + (e + (f + r)))))))
  {
    AppendFits(f, r, rules);
    AppendFits(e, f + r, rules);
    AppendFits(d, e + (f + r), rules);
    AppendFits(c, d + (e + (f + r)), rules);
    AppendFits(b, c + (d + (e + (f + r))), rules);
    AppendFits(a, b + (c + (d + (e + (f + r)))), rules);
    HasFront(e, f + r, STATUS);
    HasFront(d, e + (f + r), STATUS);
    HasFront(c, d + (e + (f + r)), STATUS);
    HasFront(c, d + (e + (f + r)), DURATION_MS);
    HasFront(b, c + (d + (e + (f + r))), STATUS);
    HasFront(b, c + (d + (e + (f + r))), DURATION_MS);
    var all := a + (b + (c + (d + (e + (f + r)))));
    HasFront(a, b + (c + (d + (e + (f + r)))), STATUS);
    HasFront(a, b + (c + (d + (e + (f + r)))), DURATION_MS);
    HasFront(a, b + (c + (d + (e + (f + r)))), NODE_ID);
    RequiredFormValid(all, rules, [NODE_ID, DURATION_MS, STATUS]);
  }

  lemma TokenKeys()
    ensures var rules := Rules(NodeToken);
            Named(rules, NODE_ID, AnyText) && Unnamed(rules, INSTANCE_ID) && Requires(rules, [NODE_ID, DELTAS])
  {
    assert DELTAS[0] == 'd' as int && NODE_ID[0] == 'n' as int;
  }

  lemma FailedTokenValid(p: Payload)
    requires FailedToken(p).Some?
    ensures Valid(Record(Rules(NodeToken)), FailedToken(p).value)
  {
    var rules := Rules(NodeToken);
    TokenNames();
    TokenKeys();
    SummaryValid(0, NODE_FAILED);
    var node, id := [Field(NODE_ID, Str(ReadText(p, NODE_ID).value))], OptionalText(p, INSTANCE_ID);
    var rest := [Field(DELTAS, Arr([])), Field(REDACTION, FailedSummary(NODE_FAILED))];
    OneFits(NODE_ID, node[0].value, rules, AnyText);
    NamedFits(rules, DELTAS, ListOf(TOKEN_DELTA), Arr([]));
    NamedFits(rules, REDACTION, REDACTION_SUMMARY, FailedSummary(NODE_FAILED));
    assert AllFit(rest, rules);
    AppendFits(node, id, rules);
    AppendFits(node + id, rest, rules);
    assert rest[0].key == DELTAS && node[0].key == NODE_ID;
    HasFront(node, id, NODE_ID);
    HasFront(node + id, rest, NODE_ID);
    HasFront(node + id, rest, DELTAS);
    RequiredFormValid(node + id + rest, rules, [NODE_ID, DELTAS]);
  }

  lemma ResumedKeys()
    ensures var rules := Rules(ExecResumed);
            && Named(rules, PAUSE_ID, AnyText) && Named(rules, ACTION, OneOf(RESUME_ACTIONS)) && Named(rules, REQUEST_ID, AnyText)
            && Requires(rules, [PAUSE_ID, ACTION])
  {
    assert EDITED[0] == 'e' as int && ACTION[0] == 'a' as int && PAUSE_ID[0] == 'p' as int;
    assert REQUEST_ID[0] == 'r' as int && PRINCIPAL[0] == 'p' as int;
  }

  lemma RefusedKeys()
    ensures var rules := Rules(ExecRefused);
            && Named(rules, PAUSE_ID, AnyText) && Named(rules, CODE, OneOf(REFUSAL_CODES)) && Named(rules, REQUEST_ID, AnyText)
            && Requires(rules, [PAUSE_ID, CODE])
  {
    assert MESSAGE[0] == 'm' as int && PAUSE_ID[0] == 'p' as int && REQUEST_ID[0] == 'r' as int;
  }

  lemma FailedResumedValid(p: Payload)
    requires FailedResumed(p).Some?
    ensures Valid(Record(Rules(ExecResumed)), FailedResumed(p).value)
  {
    hide FailedSummary, NODE_KINDS, RESUME_ACTIONS, RUN_STATUSES, AllFit, Named, Unnamed, Requires, FieldFits, OptionalText, Rules, MayHaveEdit;
    var rules := Rules(ExecResumed);
    AnswerNames();
    ResumedKeys();
    EditValid();
    var front := [Field(PAUSE_ID, Str(ReadText(p, PAUSE_ID).value)), Field(ACTION, Str(ReadText(p, ACTION).value))];
    var edited := if MayHaveEdit(p) then [Field(EDITED, HIDDEN_EDIT)] else [];
    var request, last := OptionalText(p, REQUEST_ID), [Field(REDACTION, FailedSummary([EDITED]))];
    NamedFits(rules, PAUSE_ID, AnyText, front[0].value);
    NamedFits(rules, ACTION, OneOf(RESUME_ACTIONS), front[1].value);
    OneFits(EDITED, HIDDEN_EDIT, rules, Record([Must(AFTER, Anything)]));
    TextFits(p, REQUEST_ID, rules);
    FreeFits(REDACTION, last[0].value, rules);
    AnswerFits(rules, front, edited + request, last, ACTION);
    assert front + edited + request + last == front + (edited + request) + last;
  }

  lemma FailedRefusedValid(p: Payload)
    requires FailedRefused(p).Some?
    ensures Valid(Record(Rules(ExecRefused)), FailedRefused(p).value)
  {
    var rules := Rules(ExecRefused);
    AnswerNames();
    RefusedKeys();
    var front := [Field(PAUSE_ID, Str(ReadText(p, PAUSE_ID).value)), Field(CODE, Str(ReadText(p, CODE).value))];
    var last := [Field(REDACTION, FailedSummary([MESSAGE]))];
    NamedFits(rules, PAUSE_ID, AnyText, front[0].value);
    NamedFits(rules, CODE, OneOf(REFUSAL_CODES), front[1].value);
    TextFits(p, REQUEST_ID, rules);
    FreeFits(REDACTION, last[0].value, rules);
    AnswerFits(rules, front, OptionalText(p, REQUEST_ID), last, CODE);
  }

  lemma AnswerFits(rules: seq<Rule>, front: seq<Field>, middle: seq<Field>, last: seq<Field>, second: Text)
    requires |front| == 2 && front[0].key == PAUSE_ID && front[1].key == second
    requires AllFit(front, rules) && AllFit(middle, rules) && AllFit(last, rules) && Requires(rules, [PAUSE_ID, second])
    ensures Valid(Record(rules), Obj(front + middle + last))
  {
    AppendFits(front, middle, rules);
    AppendFits(front + middle, last, rules);
    var all := front + middle + last;
    assert all[0] == front[0] && all[1] == front[1];
    RequiredFormValid(all, rules, [PAUSE_ID, second]);
  }

  lemma FormsValid(t: EventType, p: Payload)
    requires (IsNodeEvent(t) || IsAnswer(t)) && FailedForm(t, p).Some?
    ensures Valid(Record(Rules(t)), FailedForm(t, p).value)
  {
    if t == NodeStarted {
      FailedStartedValid(p);
    } else if t == NodeFinished {
      FailedFinishedValid(p);
    } else if t == NodeToken {
      FailedTokenValid(p);
    } else if t == ExecResumed {
      FailedResumedValid(p);
    } else {
      FailedRefusedValid(p);
    }
  }

  /** An uninspectable event is sent in a valid form, or not at all. */
  lemma FailedFormValid(sw: Switches, st: Tracking, e: Event)
    requires Inspected(sw, e) && Handle(sw, st, e).Bad?
    ensures var out := Apply(sw, st, e).0; out.Dropped? || (out.Sent? && IsValidEvent(e.t, out.payload))
  {
    var form := FailedForm(e.t, e.payload);
    assert Apply(sw, st, e).0 == if form.Some? then Sent(form.value) else Dropped;
    if form.Some? {
      FormsValid(e.t, e.payload);
    }
  }
}
