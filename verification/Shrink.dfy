/**
 `serialize_payload` as the client runs it: loops that grow a dictionary, break
 early and slice spans, each proved equal to its function in `ShrinkSpec`.
 */
module Shrink {
  import opened Utf16
  import opened Json
  import opened JsNumber
  import opened Schema
  import opened ShrinkSpec
  import opened Budget
  import opened FieldTrim
  import opened Spans

  // ---- tier 2: one value ----

  /** `encoded` is the value's text when the caller already has it. */
  method ShrinkOne(v: Json, depth: nat, encoded: Option<Text>) returns (r: Json)
    requires encoded.Some? ==> Serializable(v) && encoded.value == Print(v)
    ensures r == ShrinkValue(v, depth)
    decreases MAX_SHRINK_DEPTH - depth
  {
    hide Print, Prefix, SetKey, Count, Serializable, Cut, Marker;
    if v.Str? {
      return Str(Cut(v.text, PREVIEW_CHARS));
    }
    if v.Arr? {
      return Arr([]);
    }
    if !v.Obj? {
      return v;
    }
    if depth >= MAX_SHRINK_DEPTH {
      return Marker(0, Ascii("[deeply nested]"));
    }
    var first := Take(v.fields, MAX_SHRINK_KEYS);
    var shrunk: seq<Field> := [];
    var i := 0;
    while i < |first|
      invariant i <= |first| && shrunk == ShrinkFields(first[..i], depth)
    {
      var item := ShrinkOne(first[i].value, depth + 1, None);
      assert first[..i + 1][..i] == first[..i];
      shrunk := SetKey(shrunk, first[i].key, item);
      i := i + 1;
    }
    assert first[..i] == first;
    var dropped := if |v.fields| > MAX_SHRINK_KEYS then |v.fields| - MAX_SHRINK_KEYS else 0;
    if depth > 0 {
      if dropped > 0 {
        shrunk := SetKey(shrunk, TRUNCATED, Bool(true));
        shrunk := SetKey(shrunk, KEYS_DROPPED, Count(dropped));
      }
      return Obj(shrunk);
    }
    var text := if encoded.Some? then encoded else if Serializable(v) then Some(Print(v)) else None;
    shrunk := SetKey(shrunk, TRUNCATED, Bool(true));
    shrunk := SetKey(shrunk, BYTES, Count(if text.None? then 0 else |text.value|));
    shrunk := SetKey(shrunk, PREVIEW, Str(if text.None? then Ascii("[unserializable field]") else Prefix(text.value, PREVIEW_CHARS)));
    if dropped > 0 {
      shrunk := SetKey(shrunk, KEYS_DROPPED, Count(dropped));
    }
    return Obj(shrunk);
  }

  // ---- tier 2: the field trim ----

  datatype Sized = Sized(key: Text, size: nat, encoded: Option<Text>)

  function SizedField(f: Field): Sized
  {
    Sized(f.key, Size(f.value), if Serializable(f.value) then Some(Print(f.value)) else None)
  }

  function SizedFields(fs: seq<Field>): (r: seq<Sized>)
    ensures |r| == |fs| && forall i | 0 <= i < |fs| :: r[i] == SizedField(fs[i])
  {
    if fs == [] then [] else [SizedField(fs[0])] + SizedFields(fs[1..])
  }

  function InsertSized(e: Sized, es: seq<Sized>): seq<Sized>
  {
    if es == [] || e.size >= es[0].size then [e] + es else [es[0]] + InsertSized(e, es[1..])
  }

  /** The stable sort by descending size. */
  function SortSized(es: seq<Sized>): seq<Sized>
  {
    if es == [] then [] else InsertSized(es[0], SortSized(es[1..]))
  }

  lemma {:induction false} InsertSizedFields(f: Field, fs: seq<Field>)
    ensures InsertSized(SizedField(f), SizedFields(fs)) == SizedFields(InsertBySize(f, fs))
  {
    if fs == [] || Size(f.value) >= Size(fs[0].value) {
      assert ([f] + fs)[1..] == fs;
    } else {
      InsertSizedFields(f, fs[1..]);
      var rest := InsertBySize(f, fs[1..]);
      assert ([fs[0]] + rest)[1..] == rest;
    }
  }

  lemma {:induction false} SortSizedFields(fs: seq<Field>)
    ensures SortSized(SizedFields(fs)) == SizedFields(BiggestFirst(fs))
  {
    if fs != [] {
      SortSizedFields(fs[1..]);
      InsertSizedFields(fs[0], BiggestFirst(fs[1..]));
    }
  }

  /** One field's entry, its text sliced from the payload's where a span is at hand. */
  function MeasureField(f: Field, spans: Option<map<Text, Text>>): Sized
  {
    var encoded :=
      if spans.Some? && f.key in spans.value then Some(spans.value[f.key])
      else if Serializable(f.value) then Some(Print(f.value)) else None;
    Sized(f.key, if encoded.None? then MAX_SAFE_INTEGER else |encoded.value|, encoded)
  }

  lemma MeasureFieldExact(fs: seq<Field>, i: nat, spans: Option<map<Text, Text>>)
    requires WellFormed(Obj(fs)) && i < |fs|
    requires spans.None? || spans == SpansOf(Print(Obj(fs)))
    ensures MeasureField(fs[i], spans) == SizedField(fs[i])
  {
    WellFormedSerializable(fs[i].value);
    if spans.Some? {
      SpansOfPrinted(fs);
    }
  }

  lemma {:induction false} SizedFieldsAppend(fs: seq<Field>, f: Field)
    ensures SizedFields(fs + [f]) == SizedFields(fs) + [SizedField(f)]
  {
    if fs == [] {
      assert [] + [f] == [f];
    } else {
      assert (fs + [f])[1..] == fs[1..] + [f];
      SizedFieldsAppend(fs[1..], f);
    }
  }

  /** Sizes from the payload's text when it has spans for every field, else by printing each field. */
  method Measure(fs: seq<Field>, text: Text, clean: bool) returns (sizes: seq<Sized>)
    requires WellFormed(Obj(fs)) && text == Print(Obj(fs))
    ensures sizes == SizedFields(fs)
  {
    var spans := None;
    if !clean {
      spans := TopLevelSpans(text);
    }
    if spans.Some? && |spans.value| != |fs| {
      spans := None;
    }
    sizes := [];
    var i := 0;
    while i < |fs|
      invariant i <= |fs| && sizes == SizedFields(fs[..i])
    {
      MeasureFieldExact(fs, i, spans);
      SizedFieldsAppend(fs[..i], fs[i]);
      assert fs[..i + 1] == fs[..i] + [fs[i]];
      sizes := sizes + [MeasureField(fs[i], spans)];
      i := i + 1;
    }
    assert fs[..i] == fs;
  }

  lemma {:induction false} WellFormedSerializable(j: Json)
    requires WellFormed(j)
    ensures Serializable(j)
  {
    match j
    case Arr(items) =>
      forall i | 0 <= i < |items| ensures Serializable(items[i]) {
        WellFormedSerializable(items[i]);
      }
    case Obj(fields) =>
      forall i | 0 <= i < |fields| ensures Serializable(fields[i].value) {
        WellFormedSerializable(fields[i].value);
      }
    case _ =>
  }

  /** One more key trimmed in place. */
  lemma {:induction false} TrimOneMore(fs: seq<Field>, keys: seq<Text>, i: nat)
    requires UniqueKeys(fs) && i < |fs|
    ensures SetKey(TrimKeys(fs, keys), fs[i].key, ShrinkValue(fs[i].value, 0)) == TrimKeys(fs, keys + [fs[i].key])
  {
    var key := fs[i].key;
    var v := ShrinkValue(fs[i].value, 0);
    var trimmed := TrimKeys(fs, keys);
    SetKeyAt(trimmed, i, v);
    var after := TrimKeys(fs, keys + [key]);
    assert forall j | 0 <= j < |fs| :: fs[j].key in keys + [key] <==> fs[j].key in keys || fs[j].key == key;
    assert trimmed[i := Field(key, v)] == after;
  }

  lemma {:induction false} SetKeyAt(fs: seq<Field>, i: nat, v: Json)
    requires i < |fs| && forall j | 0 <= j < i :: fs[j].key != fs[i].key
    ensures SetKey(fs, fs[i].key, v) == fs[i := Field(fs[i].key, v)]
  {
    if i > 0 {
      SetKeyAt(fs[1..], i - 1, v);
      assert fs[i := Field(fs[i].key, v)] == [fs[0]] + fs[1..][i - 1 := Field(fs[i].key, v)];
    }
  }

  lemma {:induction false} SetKeyAbsent(fs: seq<Field>, key: Text, v: Json)
    requires !HasKey(fs, key)
    ensures SetKey(fs, key, v) == fs + [Field(key, v)]
  {
    if fs != [] {
      assert fs[0].key != key;
      assert forall i | 0 <= i < |fs[1..]| :: fs[1..][i] == fs[i + 1];
      SetKeyAbsent(fs[1..], key, v);
      assert fs + [Field(key, v)] == [fs[0]] + (fs[1..] + [Field(key, v)]);
    }
  }

  lemma {:induction false} TrimCountBreaks(order: seq<Field>, total: int, max: int, k: nat)
    requires k <= |order|
    requires forall j | 0 <= j < k :: 2 * (total - SumTo(order, j)) > max
    requires k == |order| || 2 * (total - SumTo(order, k)) <= max
    ensures TrimCount(order, total, max) == k
  {
    if k > 0 {
      assert SumTo(order, 0) == 0;
      assert 2 * (total - SumTo(order, 0)) > max;
      var rest := order[1..];
      var left := total - Size(order[0].value);
      forall j | 0 <= j < |order| ensures total - SumTo(order, j + 1) == left - SumTo(rest, j) {
        SumToTail(order, j);
      }
      TrimCountBreaks(rest, left, max, k - 1);
    }
  }

  function SumTo(order: seq<Field>, k: nat): nat
    requires k <= |order|
  {
    if k == 0 then 0 else SumTo(order, k - 1) + Size(order[k - 1].value)
  }

  lemma {:induction false} SumToTail(order: seq<Field>, j: nat)
    requires j < |order|
    ensures SumTo(order, j + 1) == Size(order[0].value) + SumTo(order[1..], j)
  {
    if j > 0 {
      SumToTail(order, j - 1);
    }
  }

  lemma BiggestFirstMember(fs: seq<Field>, k: nat) returns (i: nat)
    requires k < |BiggestFirst(fs)|
    ensures i < |fs| && fs[i] == BiggestFirst(fs)[k]
  {
    BiggestFirstOrder(fs, 0);
    var f := BiggestFirst(fs)[k];
    assert f in multiset(BiggestFirst(fs));
    assert f in fs;
    i :| 0 <= i < |fs| && fs[i] == f;
  }

  lemma KeysOfStep(order: seq<Field>, k: nat)
    requires k < |order|
    ensures KeysOf(order[..k + 1]) == KeysOf(order[..k]) + [order[k].key]
  {
  }

  /** Trims fields biggest first until what remains is at most half the budget. */
  method TrimBiggest(fs: seq<Field>, sizes: seq<Sized>, max: int, total: nat) returns (trimmed: seq<Field>, dropped: seq<Text>)
    requires UniqueKeys(fs) && sizes == SizedFields(BiggestFirst(fs))
    ensures dropped == DroppedKeys(fs, max, total) && trimmed == TrimKeys(fs, dropped)
  {
    ghost var order := BiggestFirst(fs);
    var remaining := total as int;
    var k := 0;
    trimmed, dropped := fs, [];
    assert TrimKeys(fs, []) == fs;
    while k < |sizes| && 2 * remaining > max
      invariant k <= |sizes| && remaining == total - SumTo(order, k)
      invariant forall j | 0 <= j < k :: 2 * (total - SumTo(order, j)) > max
      invariant dropped == KeysOf(order[..k]) && trimmed == TrimKeys(fs, dropped)
    {
      KeysOfStep(order, k);
      trimmed := TrimField(fs, trimmed, dropped, sizes[k], k);
      dropped := dropped + [sizes[k].key];
      remaining := remaining - sizes[k].size;
      k := k + 1;
    }
    TrimCountBreaks(order, total, max, k);
  }

  method TrimField(fs: seq<Field>, trimmed: seq<Field>, ghost dropped: seq<Text>, e: Sized, ghost k: nat)
    returns (r: seq<Field>)
    requires UniqueKeys(fs) && trimmed == TrimKeys(fs, dropped)
    requires k < |BiggestFirst(fs)| && e == SizedField(BiggestFirst(fs)[k])
    ensures r == TrimKeys(fs, dropped + [e.key])
  {
    ghost var i := BiggestFirstMember(fs, k);
    GetAt(fs, i);
    var shrunk := ShrinkOne(Get(fs, e.key).value, 0, e.encoded);
    TrimOneMore(fs, dropped, i);
    r := SetKey(trimmed, e.key, shrunk);
  }

  method TrimFields(fs: seq<Field>, max: int, total: nat, text: Text, clean: bool) returns (r: Option<Json>)
    requires WellFormed(Obj(fs)) && text == Print(Obj(fs))
    ensures r == TruncateFields(fs, max, total, text)
  {
    var sizes := Measure(fs, text, clean);
    SortSizedFields(fs);
    var trimmed, dropped := TrimBiggest(fs, SortSized(sizes), max, total);
    if dropped == [] {
      return None;
    }
    var marked := AddMarker(trimmed, total, text, dropped);
    return if FitsBudget(Obj(marked), max) then Some(Obj(marked)) else None;
  }

  /** A host object becomes a marker in place; its key is listed. */
  method TrimUnserializable(fs: seq<Field>) returns (r: Option<seq<Field>>)
    requires UniqueKeys(fs)
    ensures r == TruncateUnserializable(fs)
  {
    var trimmed, dropped := ListUnserializable(fs);
    if dropped == [] {
      return None;
    }
    return Some(SetKey(SetKey(trimmed, TRUNCATED, Bool(true)), FIELDS, Texts(dropped)));
  }

  method ListUnserializable(fs: seq<Field>) returns (trimmed: seq<Field>, dropped: seq<Text>)
    ensures trimmed == TrimOpaque(fs) && dropped == OpaqueKeys(fs)
  {
    trimmed, dropped := [], [];
    ghost var goal := TrimOpaque(fs);
    var i := 0;
    while i < |fs|
      invariant i <= |fs| && trimmed == goal[..i]
      invariant OpaqueKeys(fs) == dropped + OpaqueKeys(fs[i..])
    {
      var item := fs[i].value;
      assert fs[i..][1..] == fs[i + 1..];
      if Serializable(item) {
        trimmed := trimmed + [Field(fs[i].key, item)];
      } else {
        dropped := dropped + [fs[i].key];
        trimmed := trimmed + [Field(fs[i].key, OpaqueForm(item))];
      }
      i := i + 1;
    }
  }

  // ---- tier 3: the skeleton ----

  /** A plan is a dictionary: its keys differ, at every level. */
  predicate PlanKeysDiffer(plan: seq<Entry>)
    decreases plan
  {
    DistinctKeys(plan) && forall i | 0 <= i < |plan| && plan[i].Nested? :: PlanKeysDiffer(plan[i].plan)
  }

  lemma {:induction false} KeptKeys(fs: seq<Field>, plan: seq<Entry>, chars: nat, j: nat) returns (i: nat)
    requires j < |ShrinkSpec.KeepPlanned(fs, plan, chars)|
    ensures i < |plan| && ShrinkSpec.KeepPlanned(fs, plan, chars)[j].field.key == plan[i].key
  {
    var kept := ShrinkSpec.KeepPlanned(fs, plan, chars);
    var rest := ShrinkSpec.KeepPlanned(fs, plan[1..], chars);
    if kept == rest {
      i := KeptKeys(fs, plan[1..], chars, j);
      i := i + 1;
    } else if j == 0 {
      i := 0;
    } else {
      i := KeptKeys(fs, plan[1..], chars, j - 1);
      i := i + 1;
    }
  }

  /** Keys kept verbatim are distinct, so counting them tells whether all are. */
  lemma {:induction false} VerbatimCount(fs: seq<Field>, plan: seq<Entry>, chars: nat)
    requires DistinctKeys(plan)
    ensures var kept := ShrinkSpec.KeepPlanned(fs, plan, chars);
            |VerbatimKeys(kept)| <= |kept| && (|VerbatimKeys(kept)| == |kept| <==> AllVerbatim(kept))
  {
    if plan != [] {
      var kept := ShrinkSpec.KeepPlanned(fs, plan, chars);
      var rest := ShrinkSpec.KeepPlanned(fs, plan[1..], chars);
      VerbatimCount(fs, plan[1..], chars);
      if kept != rest {
        assert kept == [kept[0]] + rest;
        VerbatimHead(kept[0], rest);
        forall j | 0 <= j < |rest| ensures rest[j].field.key != plan[0].key {
          var i := KeptKeys(fs, plan[1..], chars, j);
          assert plan[1..][i] == plan[i + 1];
        }
      }
    }
  }

  lemma VerbatimHead(k: Kept, ks: seq<Kept>)
    ensures VerbatimKeys([k] + ks) == (if k.verbatim then {k.field.key} else {}) + VerbatimKeys(ks)
    ensures AllVerbatim([k] + ks) <==> k.verbatim && AllVerbatim(ks)
  {
    var all := [k] + ks;
    assert all[0] == k && forall i | 0 <= i < |ks| :: all[i + 1] == ks[i];
    assert forall i | 0 < i < |all| :: all[i] == ks[i - 1];
    forall key | key in VerbatimKeys(all) ensures key in (if k.verbatim then {k.field.key} else {}) + VerbatimKeys(ks) {
      var i :| 0 <= i < |all| && all[i].verbatim && all[i].field.key == key;
      assert i > 0 ==> ks[i - 1].verbatim && ks[i - 1].field.key == key;
    }
    forall key | key in (if k.verbatim then {k.field.key} else {}) + VerbatimKeys(ks) ensures key in VerbatimKeys(all) {
      if k.verbatim && key == k.field.key {
        assert all[0].verbatim;
      } else {
        var i :| 0 <= i < |ks| && ks[i].verbatim && ks[i].field.key == key;
        assert all[i + 1].verbatim && all[i + 1].field.key == key;
      }
    }
  }

  lemma KeptStep(ks: seq<Kept>, k: Kept)
    ensures KeptFields(ks + [k]) == KeptFields(ks) + [k.field]
    ensures VerbatimKeys(ks + [k]) == VerbatimKeys(ks) + if k.verbatim then {k.field.key} else {}
  {
    var all := ks + [k];
    assert all[|ks|] == k && forall i | 0 <= i < |ks| :: all[i] == ks[i];
    forall key | key in VerbatimKeys(ks) ensures key in VerbatimKeys(all) {
      var i :| 0 <= i < |ks| && ks[i].verbatim && ks[i].field.key == key;
      assert all[i].verbatim && all[i].field.key == key;
    }
    assert k.verbatim ==> all[|ks|].field.key in VerbatimKeys(all);
  }

  method HardShrinkOne(v: Json, e: Entry, chars: nat) returns (r: Json, verbatim: bool)
    requires e.Nested? ==> PlanKeysDiffer(e.plan)
    ensures (r, verbatim) == KeepEntry(e, v, chars)
    decreases e
  {
    if v.Obj? && e.Nested? {
      var out, keys, kept := KeepPlannedFields(v.fields, e.plan, chars);
      VerbatimCount(v.fields, e.plan, chars);
      return Obj(out), |keys| == kept && |v.fields| <= kept;
    }
    var leaf := HardShrink(v, chars);
    return leaf.0, leaf.1;
  }

  /** One entry of a plan. */
  lemma PlannedNext(fs: seq<Field>, plan: seq<Entry>, chars: nat, i: nat)
    requires i <= |plan|
    ensures i == |plan| ==> ShrinkSpec.KeepPlanned(fs, plan[i..], chars) == []
    ensures i < |plan| ==>
              var rest := ShrinkSpec.KeepPlanned(fs, plan[i + 1..], chars);
              var child := Get(fs, plan[i].key);
              ShrinkSpec.KeepPlanned(fs, plan[i..], chars) ==
              if child.None? || Skips(plan[i], child.value) then rest
              else
                var kept := KeepEntry(plan[i], child.value, chars);
                [Kept(Field(plan[i].key, kept.0), kept.1)] + rest
  {
    if i < |plan| {
      assert plan[i..][1..] == plan[i + 1..];
    }
  }

  lemma NothingKept()
    ensures KeptFields([]) == [] && VerbatimKeys([]) == {}
  {
  }

  /** The planned fields of a dictionary, the keys among them kept verbatim, and how many were kept. */
  method KeepPlannedFields(fs: seq<Field>, plan: seq<Entry>, chars: nat)
    returns (out: seq<Field>, verbatim: set<Text>, kept: nat)
    requires PlanKeysDiffer(plan)
    ensures var ks := ShrinkSpec.KeepPlanned(fs, plan, chars);
            out == KeptFields(ks) && verbatim == VerbatimKeys(ks) && kept == |ks|
    decreases plan
  {
    hide Skips, KeptFields, VerbatimKeys, ShrinkSpec.KeepPlanned, KeepEntry;
    out, verbatim, kept := [], {}, 0;
    NothingKept();
    ghost var ks: seq<Kept> := [];
    var i := 0;
    while i < |plan|
      invariant i <= |plan|
      invariant ShrinkSpec.KeepPlanned(fs, plan, chars) == ks + ShrinkSpec.KeepPlanned(fs, plan[i..], chars)
      invariant out == KeptFields(ks) && verbatim == VerbatimKeys(ks) && kept == |ks|
    {
      var e := plan[i];
      var child := Get(fs, e.key);
      PlannedNext(fs, plan, chars, i);
      i := i + 1;
      if child.None? || Skips(e, child.value) {
        continue;
      }
      var shrunk, same := HardShrinkOne(child.value, e, chars);
      KeptStep(ks, Kept(Field(e.key, shrunk), same));
      ks := ks + [Kept(Field(e.key, shrunk), same)];
      out := out + [Field(e.key, shrunk)];
      kept := kept + 1;
      if same {
        verbatim := verbatim + {e.key};
      }
    }
    PlannedNext(fs, plan, chars, i);
    assert ks + [] == ks;
  }

  lemma {:induction false} UnitsAppend(a: seq<Text>, b: seq<Text>)
    ensures Units(a + b) == Units(a) + Units(b)
  {
    if a == [] {
      assert a + b == b;
    } else {
      assert (a + b)[1..] == a[1..] + b;
      UnitsAppend(a[1..], b);
    }
  }

  lemma LostNext(fs: seq<Field>, verbatim: set<Text>, i: nat)
    requires i <= |fs|
    ensures i < |fs| ==>
              LostKeys(fs[i..], verbatim) == (if fs[i].key in verbatim then [] else [fs[i].key]) + LostKeys(fs[i + 1..], verbatim)
    ensures i == |fs| ==> LostKeys(fs[i..], verbatim) == []
  {
    if i < |fs| {
      assert fs[i..][1..] == fs[i + 1..];
    }
  }

  lemma UnitsNext(keys: seq<Text>, key: Text)
    ensures Units(keys + [key]) == Units(keys) + |key| && Units([]) == 0
  {
    UnitsAppend(keys, [key]);
  }

  /** The keys a skeleton lost; gives up once they alone are over the budget. */
  method ListLost(fs: seq<Field>, verbatim: set<Text>, max: int) returns (fields: seq<Text>, units: int)
    ensures units > max <==> Units(LostKeys(fs, verbatim)) > max
    ensures units <= max ==> fields == LostKeys(fs, verbatim)
  {
    hide LostKeys, Units;
    fields, units := [], 0;
    UnitsNext([], []);
    var i := 0;
    while i < |fs|
      invariant i <= |fs| && units == Units(fields)
      invariant LostKeys(fs, verbatim) == fields + LostKeys(fs[i..], verbatim)
    {
      var key := fs[i].key;
      LostNext(fs, verbatim, i);
      i := i + 1;
      if key in verbatim {
        continue;
      }
      UnitsNext(fields, key);
      assert fields + ([key] + LostKeys(fs[i..], verbatim)) == fields + [key] + LostKeys(fs[i..], verbatim);
      fields := fields + [key];
      units := units + |key|;
      if units > max {
        break;
      }
    }
    UnitsAppend(fields, LostKeys(fs[i..], verbatim));
    LostNext(fs, verbatim, i);
    assert fields + [] == fields;
  }

  lemma FlatPlanKeys(plan: seq<Entry>)
    requires DistinctKeys(plan) && forall i | 0 <= i < |plan| :: !plan[i].Nested?
    ensures PlanKeysDiffer(plan)
  {
  }

  lemma NestedPlanKeys(plan: seq<Entry>, j: nat)
    requires DistinctKeys(plan) && j < |plan| && plan[j].Nested? && PlanKeysDiffer(plan[j].plan)
    requires forall i | 0 <= i < |plan| && i != j :: !plan[i].Nested?
    ensures PlanKeysDiffer(plan)
  {
  }

  lemma FitsDistinct(plan: seq<Entry>, rules: seq<Rule>)
    requires Fits(plan, rules)
    ensures DistinctKeys(plan)
  {
  }

  lemma NestedPlanAt(t: EventType)
    requires t.RunStarted? || t.NodeError?
    ensures var j := if t.RunStarted? then 1 else 2;
            && j < |Plan(t)| && Plan(t)[j].Nested?
            && Plan(t)[j].plan == (if t.RunStarted? then [Keep(NAME), Keep(VERSION)] else [Keep(NAME), Keep(MESSAGE), Optional(STACK)])
            && forall i | 0 <= i < |Plan(t)| && i != j :: !Plan(t)[i].Nested?
  {
  }

  lemma FlatPlanAt(t: EventType)
    requires t != Unknown && !t.RunStarted? && !t.NodeError?
    ensures forall i | 0 <= i < |Plan(t)| :: !Plan(t)[i].Nested?
  {
  }

  lemma NestedPlanDistinct(t: EventType)
    requires t.RunStarted? || t.NodeError?
    ensures PlanKeysDiffer(if t.RunStarted? then [Keep(NAME), Keep(VERSION)] else [Keep(NAME), Keep(MESSAGE), Optional(STACK)])
  {
    NestedPlansFit();
    FitsDistinct([Keep(NAME), Keep(VERSION)], SDK_INFO.rules);
    FitsDistinct([Keep(NAME), Keep(MESSAGE), Optional(STACK)], ERROR_INFO.rules);
    if t.RunStarted? {
      FlatPlanKeys([Keep(NAME), Keep(VERSION)]);
    } else {
      FlatPlanKeys([Keep(NAME), Keep(MESSAGE), Optional(STACK)]);
    }
  }

  lemma PlanDistinct(t: EventType)
    requires t != Unknown
    ensures DistinctKeys(Plan(t))
  {
    PlansFit(t);
    FitsDistinct(Plan(t), Rules(t));
  }

  lemma PlanKeysPlain(t: EventType)
    requires t != Unknown
    ensures PlanKeysDiffer(Plan(t))
  {
    PlanDistinct(t);
    if t.RunStarted? || t.NodeError? {
      NestedPlanAt(t);
      NestedPlanDistinct(t);
      NestedPlanKeys(Plan(t), if t.RunStarted? then 1 else 2);
    } else {
      FlatPlanAt(t);
      FlatPlanKeys(Plan(t));
    }
  }

  predicate PlanUnlikeMarkers(plan: seq<Entry>) { forall i | 0 <= i < |plan| :: UnlikeMarker(plan[i].key) }

  lemma NodePlansUnlike(t: EventType)
    requires t.NodeStarted? || t.NodeToken? || t.NodeFinished? || t.NodeError?
    ensures PlanUnlikeMarkers(Plan(t))
  {
  }

  lemma OtherPlansUnlike(t: EventType)
    requires t != Unknown && !t.NodeStarted? && !t.NodeToken? && !t.NodeFinished? && !t.NodeError?
    ensures PlanUnlikeMarkers(Plan(t))
  {
  }

  lemma PlansUnlikeMarkers(t: EventType)
    requires t != Unknown
    ensures PlanUnlikeMarkers(Plan(t))
  {
    hide Plan, UnlikeMarker;
    match t
    case NodeStarted | NodeToken | NodeFinished | NodeError => NodePlansUnlike(t);
    case _ => OtherPlansUnlike(t);
  }

  predicate NoMarker(out: seq<Field>)
  {
    !HasKey(out, TRUNCATED) && !HasKey(out, BYTES) && !HasKey(out, PREVIEW) && !HasKey(out, FIELDS)
  }

  lemma AppendOne(fs: seq<Field>, more: seq<Field>, f: Field)
    requires !HasKey(fs, f.key) && forall i | 0 <= i < |more| :: more[i].key != f.key
    ensures SetKey(fs + more, f.key, f.value) == fs + (more + [f])
  {
    SetKeyAbsent(fs + more, f.key, f.value);
    assert fs + more + [f] == fs + (more + [f]);
  }

  /** Setting a marker on a dictionary without one appends it. */
  lemma AppendMarkers(out: seq<Field>, total: nat, preview: Text)
    requires NoMarker(out)
    ensures SetKey(SetKey(SetKey(out, TRUNCATED, Bool(true)), BYTES, Count(total)), PREVIEW, Str(preview))
            == out + Marker(total, preview).fields
  {
    var a, b, c := Field(TRUNCATED, Bool(true)), Field(BYTES, Count(total)), Field(PREVIEW, Str(preview));
    assert [] + [a] == [a] && [a] + [b] == [a, b] && [a, b] + [c] == [a, b, c] && out + [] == out;
    AppendOne(out, [], a);
    AppendOne(out, [a], b);
    AppendOne(out, [a, b], c);
  }

  lemma AppendLost(out: seq<Field>, total: nat, preview: Text, lost: seq<Text>)
    requires NoMarker(out)
    ensures SetKey(out + Marker(total, preview).fields, FIELDS, Texts(lost))
            == out + (Marker(total, preview).fields + [Field(FIELDS, Texts(lost))])
  {
    assert TRUNCATED[0] == '_' as int && BYTES[0] == 'b' as int && PREVIEW[0] == 'p' as int && FIELDS[0] == 'f' as int;
    AppendOne(out, Marker(total, preview).fields, Field(FIELDS, Texts(lost)));
  }

  /** A plan's fields are never named like the markers. */
  lemma KeptAvoidMarkers(fs: seq<Field>, plan: seq<Entry>, chars: nat)
    requires PlanUnlikeMarkers(plan)
    ensures NoMarker(KeptFields(ShrinkSpec.KeepPlanned(fs, plan, chars)))
  {
    var out := KeptFields(ShrinkSpec.KeepPlanned(fs, plan, chars));
    forall j | 0 <= j < |out|
      ensures out[j].key != TRUNCATED && out[j].key != BYTES && out[j].key != PREVIEW && out[j].key != FIELDS
    {
      var i := KeptKeys(fs, plan, chars, j);
      UnlikeMarkers(plan[i].key);
      assert MARKER_KEYS[0] == TRUNCATED && MARKER_KEYS[1] == BYTES && MARKER_KEYS[2] == PREVIEW && MARKER_KEYS[3] == FIELDS;
    }
  }

  /** The attempts in order; the first that fits and is valid. */
  method SkeletonOf(fs: seq<Field>, t: EventType, max: int, total: nat, preview: Text) returns (r: Option<Json>)
    requires t != Unknown
    ensures r == Skeleton(fs, t, max, total, preview, ATTEMPTS)
  {
    hide AttemptFits, SkeletonForm, Plan;
    PlanKeysPlain(t);
    PlansUnlikeMarkers(t);
    var n := 0;
    while n < |ATTEMPTS|
      invariant n <= |ATTEMPTS|
      invariant Skeleton(fs, t, max, total, preview, ATTEMPTS) == Skeleton(fs, t, max, total, preview, ATTEMPTS[n..])
    {
      var chars, full := ATTEMPTS[n].0, ATTEMPTS[n].1;
      assert ATTEMPTS[n..][1..] == ATTEMPTS[n + 1..];
      n := n + 1;
      r := Attempt(fs, t, max, total, preview, chars, full);
      if r.Some? {
        return;
      }
    }
    return None;
  }

  method Attempt(fs: seq<Field>, t: EventType, max: int, total: nat, preview: Text, chars: nat, full: bool)
    returns (r: Option<Json>)
    requires t != Unknown && PlanKeysDiffer(Plan(t)) && PlanUnlikeMarkers(Plan(t))
    ensures r == if AttemptFits(fs, t, max, total, preview, chars, full)
                 then Some(SkeletonForm(fs, Plan(t), total, preview, chars, full)) else None
  {
    hide SkeletonForm, KeepPlanned, LostKeys, Units, VerbatimKeys, FitsBudget, IsValidEvent, Plan;
    var form := AttemptForm(fs, Plan(t), max, total, preview, chars, full);
    if form.None? {
      return None;
    }
    return if FitsBudget(form.value, max) && IsValidEvent(t, form.value) then form else None;
  }

  method AttemptForm(fs: seq<Field>, plan: seq<Entry>, max: int, total: nat, preview: Text, chars: nat, full: bool)
    returns (r: Option<Json>)
    requires PlanKeysDiffer(plan) && PlanUnlikeMarkers(plan)
    ensures r == if full && Units(LostKeys(fs, VerbatimKeys(ShrinkSpec.KeepPlanned(fs, plan, chars)))) > max then None
                 else Some(SkeletonForm(fs, plan, total, preview, chars, full))
  {
    var out, verbatim, _ := KeepPlannedFields(fs, plan, chars);
    var shown := if full then preview else [];
    var form := SetKey(SetKey(SetKey(out, TRUNCATED, Bool(true)), BYTES, Count(total)), PREVIEW, Str(shown));
    KeptAvoidMarkers(fs, plan, chars);
    AppendMarkers(out, total, shown);
    if full {
      var fields, units := ListLost(fs, verbatim, max);
      if units > max {
        return None;
      }
      AppendLost(out, total, shown, fields);
      return Some(Obj(SetKey(form, FIELDS, Texts(fields))));
    }
    assert Marker(total, shown).fields + [] == Marker(total, shown).fields;
    return Some(Obj(form));
  }

  // ---- the entry point ----

  lemma {:induction false} ShapedWellFormed(j: Json)
    requires Shaped(j) && Serializable(j)
    ensures WellFormed(j)
  {
    match j
    case Arr(items) =>
      forall i | 0 <= i < |items| ensures WellFormed(items[i]) {
        ShapedWellFormed(items[i]);
      }
    case Obj(fields) =>
      forall i | 0 <= i < |fields| ensures WellFormed(fields[i].value) {
        ShapedWellFormed(fields[i].value);
      }
    case _ =>
  }

  predicate Printed(payload: Json, text: Text) { Shaped(payload) && Serializable(payload) && text == Print(payload) }

  /** The four tiers; `clean` tells whether Python's own text needed no rewriting. */
  method SerializePayload(payload: Json, max: int, t: EventType, clean: bool) returns (r: Outcome)
    requires Shaped(payload)
    ensures r == Serialize(payload, max, t)
  {
    if !Serializable(payload) {
      var shrunk := SerializeOpaque(payload, max, t);
      return Outcome(shrunk, true);
    }
    var text := Print(payload);
    var total := Utf8Length(text);
    if total <= max {
      return Outcome(payload, false);
    }
    var shrunk := DegradePayload(payload, max, t, text, total, clean);
    return Outcome(shrunk, true);
  }

  method DegradePayload(payload: Json, max: int, t: EventType, text: Text, total: nat, clean: bool) returns (r: Json)
    requires Printed(payload, text)
    ensures r == Degrade(payload, max, t, text, total)
  {
    var trimmed := TrimPayload(payload, max, t, text, total, clean);
    if trimmed.Some? {
      return trimmed.value;
    }
    r := SkeletonOrMarker(payload, max, t, text, total);
  }

  method TrimPayload(payload: Json, max: int, t: EventType, text: Text, total: nat, clean: bool) returns (r: Option<Json>)
    requires Printed(payload, text)
    ensures r == TrimTier(payload, max, t, text, total)
  {
    hide TruncateFields, IsValidEvent;
    if payload.Obj? && |payload.fields| <= MAX_TRIM_FIELDS {
      ShapedWellFormed(payload);
      r := TrimFields(payload.fields, max, total, text, clean);
      if r.Some? && IsValidEvent(t, r.value) {
        return;
      }
    }
    return None;
  }

  method SkeletonOrMarker(payload: Json, max: int, t: EventType, text: Text, total: nat) returns (r: Json)
    ensures r == SkeletonTier(payload, max, t, text, total)
  {
    if payload.Obj? && t != Unknown {
      var skeleton := SkeletonOf(payload.fields, t, max, total, Prefix(text, PREVIEW_CHARS));
      if skeleton.Some? {
        return skeleton.value;
      }
    }
    return Marker(total, Prefix(text, PREVIEW_CHARS));
  }

  method SerializeOpaque(payload: Json, max: int, t: EventType) returns (r: Json)
    requires Shaped(payload) && !Serializable(payload)
    ensures r == SerializeUnserializable(payload, max, t)
  {
    hide Skeleton, FitUnserializable, TruncateUnserializable, Marker, UNSERIALIZABLE;
    if payload.Obj? {
      var trimmed := TrimUnserializable(payload.fields);
      if trimmed.Some? && t == Unknown {
        return Obj(trimmed.value);
      }
      if trimmed.Some? {
        TrimmedWellFormed(payload.fields);
        var fitted := FitTrimmed(trimmed.value, max, t);
        if fitted.Some? {
          return fitted.value;
        }
      }
      if t != Unknown {
        var skeleton := SkeletonOf(payload.fields, t, max, 0, UNSERIALIZABLE);
        if skeleton.Some? {
          return skeleton.value;
        }
      }
    }
    return Marker(0, UNSERIALIZABLE);
  }

  method FitTrimmed(fs: seq<Field>, max: int, t: EventType) returns (r: Option<Json>)
    requires WellFormed(Obj(fs))
    ensures r == FitUnserializable(fs, max, t)
  {
    hide Print, TruncateFields, IsValidEvent, WellFormed, Utf8Length;
    var text := Print(Obj(fs));
    var size := Utf8Length(text);
    if size <= max && IsValidEvent(t, Obj(fs)) {
      return Some(Obj(fs));
    }
    if size > max && |fs| <= MAX_TRIM_FIELDS {
      var fitted := TrimFields(fs, max, size, text, false);
      if fitted.Some? && IsValidEvent(t, fitted.value) {
        return fitted;
      }
    }
    return None;
  }

  lemma {:induction false} SetKeyUnique(fs: seq<Field>, key: Text, v: Json)
    requires UniqueKeys(fs)
    ensures UniqueKeys(SetKey(fs, key, v))
  {
    if fs != [] && fs[0].key != key {
      SetKeyUnique(fs[1..], key, v);
      var r := SetKey(fs[1..], key, v);
      forall i | 0 <= i < |r| ensures r[i].key != fs[0].key {
        SetKeyMembers(fs[1..], key, v, r[i]);
        assert forall j | 0 <= j < |fs[1..]| :: fs[1..][j] == fs[j + 1];
      }
    }
  }

  lemma SetKeyWellFormed(fs: seq<Field>, key: Text, v: Json)
    requires WellFormed(Obj(fs)) && WellFormed(v)
    ensures WellFormed(Obj(SetKey(fs, key, v)))
  {
    SetKeyUnique(fs, key, v);
    var r := SetKey(fs, key, v);
    forall i | 0 <= i < |r| ensures WellFormed(r[i].value) {
      SetKeyMembers(fs, key, v, r[i]);
    }
  }

  lemma TrimmedWellFormed(fs: seq<Field>)
    requires Shaped(Obj(fs))
    ensures var r := TruncateUnserializable(fs); r.Some? ==> WellFormed(Obj(r.value))
  {
    var trimmed := TrimOpaque(fs);
    forall i | 0 <= i < |fs| ensures WellFormed(trimmed[i].value) {
      if Serializable(fs[i].value) {
        ShapedWellFormed(fs[i].value);
      } else {
        MarkerWellFormed(0, Ascii("[unserializable value]"));
      }
    }
    SetKeyWellFormed(trimmed, TRUNCATED, Bool(true));
    SetKeyWellFormed(SetKey(trimmed, TRUNCATED, Bool(true)), FIELDS, Texts(OpaqueKeys(fs)));
  }

  lemma MarkerWellFormed(bytes: nat, preview: Text)
    ensures WellFormed(Marker(bytes, preview))
  {
    CountWellFormed(bytes);
    assert TRUNCATED[0] == '_' as int && BYTES[0] == 'b' as int && PREVIEW[0] == 'p' as int;
  }

  lemma CountWellFormed(n: nat)
    ensures WellFormed(Count(n))
  {
    NatDigitsRoundTrip(n);
    var ds := NatDigits(n);
    DropAllDigits(ds);
    if ds[0] == ZERO {
      assert ds[1..] == [];
    }
  }

  lemma {:induction false} DropAllDigits(ds: Text)
    requires AllDigits(ds)
    ensures DropDigits(ds) == []
  {
    if ds != [] {
      DropAllDigits(ds[1..]);
    }
  }
}
