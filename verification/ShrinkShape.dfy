/**
 What a degraded payload holds: the trimmed value of each type, the skeleton's
 leaves and the keys it lists, and which tier answers.

 `TrimmedTo` and `KeptAs` are relations between a value and what stands for it,
 written from the payload alone.
 */
module ShrinkShape {
  import opened Utf16
  import opened Json
  import opened JsNumber
  import opened Schema
  import opened ShrinkSpec
  import opened Budget
  import opened FieldTrim
  import opened Shrink

  /** A text of at most n units, or its first n units and the suffix. */
  predicate CutTo(t: Text, r: Text, n: nat) { if |t| <= n then r == t else r == t[..n] + TRUNCATION_SUFFIX }

  predicate MarkerWith(r: Json, bytes: nat, preview: Text)
  {
    r == Obj([Field(TRUNCATED, Bool(true)), Field(BYTES, Number(NatDigits(bytes))), Field(PREVIEW, Str(preview))])
  }

  // ---- the field trim ----

  /** Fields of a dictionary past the 256th. */
  function Excess(fs: seq<Field>): nat { if |fs| > 256 then |fs| - 256 else 0 }

  function Kept256(fs: seq<Field>): seq<Field> { if |fs| > 256 then fs[..256] else fs }

  /** The keys a trimmed dictionary gets of its own. */
  predicate Added(key: Text, depth: nat, excess: nat)
  {
    || (key == TRUNCATED && (depth == 0 || excess > 0))
    || ((key == BYTES || key == PREVIEW) && depth == 0)
    || (key == KEYS_DROPPED && excess > 0)
  }

  /** What stands for a trimmed value, `depth` dictionaries below the field. */
  ghost predicate TrimmedTo(v: Json, r: Json, depth: nat)
    decreases v, 1
  {
    match v
    case Str(text) => r.Str? && CutTo(text, r.text, 2000)
    case Arr(_) => r == Arr([])
    case Obj(_) => if depth >= 6 then MarkerWith(r, 0, Ascii("[deeply nested]")) else r.Obj? && DictionaryTrimmedTo(v, r, depth)
    case _ => r == v
  }

  /** The trimmed value of each of the first 256 fields, the markers, and nothing else. */
  ghost predicate DictionaryTrimmedTo(v: Json, r: Json, depth: nat)
    requires v.Obj? && r.Obj?
    decreases v, 0
  {
    var kept, excess := Kept256(v.fields), Excess(v.fields);
    && (forall i | 0 <= i < |kept| && !Added(kept[i].key, depth, excess) ::
          Get(r.fields, kept[i].key).Some? && TrimmedTo(kept[i].value, Get(r.fields, kept[i].key).value, depth + 1))
    && (forall key | !Added(key, depth, excess) && Get(r.fields, key).Some? :: HasKey(kept, key))
    && MarkersTrimmedTo(v, r.fields, depth)
  }

  /** The markers of a trimmed dictionary: at the top its own size and preview, below it how many keys it lost. */
  ghost predicate MarkersTrimmedTo(v: Json, r: seq<Field>, depth: nat)
    requires v.Obj?
  {
    && (depth == 0 || Excess(v.fields) > 0 ==> Get(r, TRUNCATED) == Some(Bool(true)))
    && (depth == 0 ==>
          && Get(r, BYTES) == Some(Count(if Serializable(v) then |Print(v)| else 0))
          && Get(r, PREVIEW) ==
             Some(Str(if !Serializable(v) then Ascii("[unserializable field]")
                      else if |Print(v)| <= 2000 then Print(v) else Print(v)[..2000])))
    && (Excess(v.fields) > 0 ==> Get(r, KEYS_DROPPED) == Some(Count(Excess(v.fields))))
  }

  lemma MarkerKeysApart()
    ensures TRUNCATED != BYTES && TRUNCATED != PREVIEW && TRUNCATED != KEYS_DROPPED && BYTES != PREVIEW
    ensures BYTES != KEYS_DROPPED && PREVIEW != KEYS_DROPPED && FIELDS != TRUNCATED && FIELDS != BYTES && FIELDS != PREVIEW
  {
    assert TRUNCATED[0] == '_' as int && BYTES[0] == 'b' as int && PREVIEW[0] == 'p' as int && KEYS_DROPPED[0] == 'k' as int;
    assert FIELDS[0] == 'f' as int;
  }

  /** Fields shrunk one by one keep their keys, each with its shrunk value. */
  lemma {:induction false} ShrunkFields(fs: seq<Field>, depth: nat, key: Text)
    requires UniqueKeys(fs) && depth < MAX_SHRINK_DEPTH
    ensures Get(ShrinkFields(fs, depth), key) ==
            if HasKey(fs, key) then Some(ShrinkValue(Get(fs, key).value, depth + 1)) else None
    decreases |fs|
  {
    hide ShrinkValue;
    if fs != [] {
      var n := |fs| - 1;
      var front, last := fs[..n], fs[n];
      assert forall i | 0 <= i < n :: front[i] == fs[i];
      ShrunkFields(front, depth, key);
      GetSetKey(ShrinkFields(front, depth), last.key, ShrinkValue(last.value, depth + 1), key);
      GetOfFront(fs, key);
    }
  }

  lemma GetOfFront(fs: seq<Field>, key: Text)
    requires fs != [] && UniqueKeys(fs)
    ensures var n := |fs| - 1;
            if key == fs[n].key then HasKey(fs, key) && Get(fs, key) == Some(fs[n].value)
            else (HasKey(fs, key) <==> HasKey(fs[..n], key)) && Get(fs, key) == Get(fs[..n], key)
  {
    var n := |fs| - 1;
    var front := fs[..n];
    assert fs == front + [fs[n]];
    GetAppend(front, [fs[n]], key);
    assert forall i | 0 <= i < n :: front[i] == fs[i];
    if key == fs[n].key {
      GetAt(fs, n);
    }
  }

  /** What is read under a key of a trimmed dictionary. */
  ghost function ReadAt(v: Json, depth: nat, key: Text): Option<Json>
    requires v.Obj? && depth < MAX_SHRINK_DEPTH
  {
    if key == KEYS_DROPPED && Excess(v.fields) > 0 then Some(Count(Excess(v.fields)))
    else if key == TRUNCATED && (depth == 0 || Excess(v.fields) > 0) then Some(Bool(true))
    else if key == BYTES && depth == 0 then Some(Count(if Serializable(v) then |Print(v)| else 0))
    else if key == PREVIEW && depth == 0 then
      Some(Str(if Serializable(v) then Prefix(Print(v), PREVIEW_CHARS) else Ascii("[unserializable field]")))
    else Get(ShrinkFields(Kept256(v.fields), depth), key)
  }

  /** The markers of a trimmed dictionary, on top of its shrunk fields. */
  lemma MarkedReads(v: Json, depth: nat, key: Text)
    requires v.Obj? && depth < MAX_SHRINK_DEPTH
    ensures ShrinkValue(v, depth).Obj? && Get(ShrinkValue(v, depth).fields, key) == ReadAt(v, depth, key)
  {
    hide ShrinkFields, Serializable, Print, Prefix, Count, Ascii, Get;
    MarkerKeysApart();
    var shrunk := ShrinkFields(Kept256(v.fields), depth);
    var bytes := Count(if Serializable(v) then |Print(v)| else 0);
    var preview := Str(if Serializable(v) then Prefix(Print(v), PREVIEW_CHARS) else Ascii("[unserializable field]"));
    var dropped := Count(Excess(v.fields));
    var a := SetKey(shrunk, TRUNCATED, Bool(true));
    var b := SetKey(a, BYTES, bytes);
    var c := SetKey(b, PREVIEW, preview);
    GetSetKey(shrunk, TRUNCATED, Bool(true), key);
    GetSetKey(shrunk, KEYS_DROPPED, dropped, key);
    GetSetKey(a, BYTES, bytes, key);
    GetSetKey(b, PREVIEW, preview, key);
    GetSetKey(a, KEYS_DROPPED, dropped, key);
    GetSetKey(c, KEYS_DROPPED, dropped, key);
  }

  lemma KeptUnique(fs: seq<Field>)
    requires UniqueKeys(fs)
    ensures UniqueKeys(Kept256(fs))
  {
  }

  /** One kept field of a trimmed dictionary. */
  lemma KeptReads(v: Json, depth: nat, i: nat)
    requires v.Obj? && UniqueKeys(v.fields) && depth < MAX_SHRINK_DEPTH && i < |Kept256(v.fields)|
    requires !Added(v.fields[i].key, depth, Excess(v.fields))
    ensures Get(ShrinkValue(v, depth).fields, v.fields[i].key) == Some(ShrinkValue(v.fields[i].value, depth + 1))
  {
    hide ShrinkFields, Serializable, Print, Count;
    var kept := Kept256(v.fields);
    KeptUnique(v.fields);
    MarkedReads(v, depth, v.fields[i].key);
    assert kept[i] == v.fields[i];
    ShrunkFields(kept, depth, kept[i].key);
    GetAt(kept, i);
  }

  lemma OnlyKept(v: Json, depth: nat, key: Text)
    requires v.Obj? && UniqueKeys(v.fields) && depth < MAX_SHRINK_DEPTH && !Added(key, depth, Excess(v.fields))
    requires Get(ShrinkValue(v, depth).fields, key).Some?
    ensures HasKey(Kept256(v.fields), key)
  {
    hide ShrinkFields, ShrinkValue, Serializable, Print, Count;
    KeptUnique(v.fields);
    MarkedReads(v, depth, key);
    ShrunkFields(Kept256(v.fields), depth, key);
  }

  lemma DictionaryTrims(v: Json, depth: nat)
    requires v.Obj? && UniqueKeys(v.fields) && depth < 6
    requires forall i | 0 <= i < |v.fields| :: TrimmedTo(v.fields[i].value, ShrinkValue(v.fields[i].value, depth + 1), depth + 1)
    ensures DictionaryTrimmedTo(v, ShrinkValue(v, depth), depth)
  {
    hide ShrinkValue, TrimmedTo, Serializable, Print, Count, Get, HasKey, Added, Ascii;
    var fields := v.fields;
    var kept, excess, r := Kept256(fields), Excess(fields), ShrinkValue(v, depth);
    MarkerReads(v, depth);
    forall i | 0 <= i < |kept| && !Added(kept[i].key, depth, excess)
      ensures Get(r.fields, kept[i].key).Some? && TrimmedTo(kept[i].value, Get(r.fields, kept[i].key).value, depth + 1)
    {
      assert kept[i] == fields[i];
      KeptReads(v, depth, i);
    }
    forall key | !Added(key, depth, excess) && Get(r.fields, key).Some? ensures HasKey(kept, key) {
      OnlyKept(v, depth, key);
    }
  }

  lemma MarkerReads(v: Json, depth: nat)
    requires v.Obj? && depth < MAX_SHRINK_DEPTH
    ensures ShrinkValue(v, depth).Obj? && MarkersTrimmedTo(v, ShrinkValue(v, depth).fields, depth)
  {
    hide ShrinkValue, Serializable, Print, Count, Get, Ascii;
    MarkedReads(v, depth, TRUNCATED);
    MarkedReads(v, depth, BYTES);
    MarkedReads(v, depth, PREVIEW);
    MarkedReads(v, depth, KEYS_DROPPED);
    MarkerKeysApart();
  }

  /** A value is trimmed to its own cut, list, marker or dictionary of trimmed values. */
  lemma {:induction false} ShrinkTrims(v: Json, depth: nat)
    requires Shaped(v)
    ensures TrimmedTo(v, ShrinkValue(v, depth), depth)
    decreases v
  {
    if v.Obj? && depth < 6 {
      hide ShrinkValue, DictionaryTrimmedTo;
      forall i | 0 <= i < |v.fields|
        ensures TrimmedTo(v.fields[i].value, ShrinkValue(v.fields[i].value, depth + 1), depth + 1)
      {
        ShrinkTrims(v.fields[i].value, depth + 1);
      }
      DictionaryTrims(v, depth);
      MarkerReads(v, depth);
    } else {
      ShrinkLeaf(v, depth);
    }
  }

  lemma ShrinkLeaf(v: Json, depth: nat)
    requires !v.Obj? || depth >= 6
    ensures TrimmedTo(v, ShrinkValue(v, depth), depth)
  {
  }

  /** Every trimmed field of a trimmed payload holds what its value is trimmed to. */
  lemma TrimHolds(fs: seq<Field>, max: int, total: nat, text: Text, i: nat)
    requires Shaped(Obj(fs)) && i < |fs| && fs[i].key !in MARKER_KEYS
    requires TruncateFields(fs, max, total, text).Some?
    ensures var after := Get(TruncateFields(fs, max, total, text).value.fields, fs[i].key);
            && after.Some?
            && if fs[i].key in DroppedKeys(fs, max, total) then TrimmedTo(fs[i].value, after.value, 0) else after.value == fs[i].value
  {
    hide TruncateFields, DroppedKeys, TrimmedTo, ShrinkValue;
    TrimEffect(fs, max, total, text, i);
    ShrinkTrims(fs[i].value, 0);
  }

  // ---- the skeleton ----

  /** What a skeleton keeps of a planned value, with texts of at most `chars` units. */
  ghost predicate KeptAs(e: Entry, v: Json, r: Json, chars: nat)
    decreases e
  {
    match v
    case Str(text) => r.Str? && CutTo(text, r.text, chars)
    case Arr(_) => r == Arr([])
    case Opaque => MarkerWith(r, 0, Ascii("[omitted]"))
    case Obj(fields) =>
      if !e.Nested? then MarkerWith(r, 0, Ascii("[omitted]"))
      else r.Obj? && PlanKeptAs(fields, e.plan, r.fields, chars)
    case _ => r == v
  }

  /** A plan's fields: each that is there, unless it is optional and not a text, a number or a truth value; nothing else. */
  ghost predicate PlanKeptAs(fs: seq<Field>, plan: seq<Entry>, r: seq<Field>, chars: nat)
    decreases plan
  {
    && (forall j | 0 <= j < |plan| ::
          var v, kept := Get(fs, plan[j].key), Get(r, plan[j].key);
          if v.None? || (plan[j].Optional? && !v.value.Str? && !v.value.Number? && !v.value.NonFinite? && !v.value.Bool?) then kept.None?
          else kept.Some? && KeptAs(plan[j], v.value, kept.value, chars))
    && (forall key | Get(r, key).Some? :: PlansKey(plan, key))
  }

  predicate PlansKey(plan: seq<Entry>, key: Text) { exists j | 0 <= j < |plan| :: plan[j].key == key }

  lemma {:induction false} KeptPlanned(fs: seq<Field>, plan: seq<Entry>, chars: nat, key: Text)
    ensures Get(KeptFields(ShrinkSpec.KeepPlanned(fs, plan, chars)), key).Some? ==> PlansKey(plan, key)
  {
    if !PlansKey(plan, key) {
      GetUnplanned(fs, plan, chars, key);
    }
  }

  lemma {:induction false} KeepsAs(e: Entry, v: Json, chars: nat)
    requires e.Nested? ==> PlanKeysDiffer(e.plan)
    ensures KeptAs(e, v, KeepEntry(e, v, chars).0, chars)
    decreases e
  {
    if v.Obj? && e.Nested? {
      KeepsPlan(v.fields, e.plan, chars);
    }
  }

  lemma {:induction false} KeepsPlan(fs: seq<Field>, plan: seq<Entry>, chars: nat)
    requires PlanKeysDiffer(plan)
    ensures PlanKeptAs(fs, plan, KeptFields(ShrinkSpec.KeepPlanned(fs, plan, chars)), chars)
    decreases plan
  {
    hide KeptAs, KeepEntry, ShrinkSpec.KeepPlanned, PlansKey;
    var r := KeptFields(ShrinkSpec.KeepPlanned(fs, plan, chars));
    forall j | 0 <= j < |plan|
      ensures var v, kept := Get(fs, plan[j].key), Get(r, plan[j].key);
              if v.None? || (plan[j].Optional? && !v.value.Str? && !v.value.Number? && !v.value.NonFinite? && !v.value.Bool?) then kept.None?
              else kept.Some? && KeptAs(plan[j], v.value, kept.value, chars)
    {
      GetKept(fs, plan, chars, j);
      if Get(fs, plan[j].key).Some? {
        KeepsAs(plan[j], Get(fs, plan[j].key).value, chars);
      }
    }
    forall key | Get(r, key).Some? ensures PlansKey(plan, key) {
      KeptPlanned(fs, plan, chars, key);
    }
  }

  // ---- the keys a skeleton lists ----

  /** Kept as it was: a short text, a scalar, an empty list, or a dictionary whose every field is planned and whole. */
  ghost predicate Whole(e: Entry, v: Json, chars: nat)
    decreases e
  {
    match v
    case Str(text) => |text| <= chars
    case Arr(items) => items == []
    case Opaque => false
    case Obj(fields) => e.Nested? && PlanWhole(fields, e.plan, chars)
    case _ => true
  }

  ghost predicate PlanWhole(fs: seq<Field>, plan: seq<Entry>, chars: nat)
    decreases plan
  {
    && (forall j | 0 <= j < |plan| && Get(fs, plan[j].key).Some? ::
          !Skips(plan[j], Get(fs, plan[j].key).value) && Whole(plan[j], Get(fs, plan[j].key).value, chars))
    && (forall i | 0 <= i < |fs| :: PlansKey(plan, fs[i].key))
  }

  /** Places of a sequence, in order. */
  ghost predicate Places(pos: seq<nat>, n: nat) { (forall j | 0 <= j < |pos| :: pos[j] < n) && forall i, j | 0 <= i < j < |pos| :: pos[i] < pos[j] }

  /** The keys at the places where the field is not among those kept whole, in payload order. */
  lemma {:induction false} LostExactly(fs: seq<Field>, whole: set<Text>) returns (pos: seq<nat>)
    ensures Places(pos, |fs|) && |LostKeys(fs, whole)| == |pos|
    ensures forall j | 0 <= j < |pos| :: LostKeys(fs, whole)[j] == fs[pos[j]].key
    ensures forall i | 0 <= i < |fs| :: i in pos <==> fs[i].key !in whole
    decreases |fs|
  {
    if fs == [] {
      pos := [];
    } else {
      var n := |fs| - 1;
      var front := fs[..n];
      pos := LostExactly(front, whole);
      LostAppend(front, fs[n], whole);
      assert fs == front + [fs[n]];
      if fs[n].key !in whole {
        pos := pos + [n];
      }
    }
  }

  lemma {:induction false} LostAppend(fs: seq<Field>, f: Field, whole: set<Text>)
    ensures LostKeys(fs + [f], whole) == LostKeys(fs, whole) + if f.key in whole then [] else [f.key]
  {
    if fs == [] {
      assert [] + [f] == [f] && [f][1..] == [];
    } else {
      assert (fs + [f])[1..] == fs[1..] + [f];
      LostAppend(fs[1..], f, whole);
    }
  }

  /** An entry that was kept, and its place in the plan. */
  lemma {:induction false} KeptFrom(fs: seq<Field>, plan: seq<Entry>, chars: nat, i: nat) returns (j: nat)
    requires i < |ShrinkSpec.KeepPlanned(fs, plan, chars)|
    ensures j < |plan|
    ensures var k, v := ShrinkSpec.KeepPlanned(fs, plan, chars)[i], Get(fs, plan[j].key);
            && k.field.key == plan[j].key && v.Some? && !Skips(plan[j], v.value)
            && k.verbatim == KeepEntry(plan[j], v.value, chars).1
    decreases |plan|
  {
    hide Skips, KeepEntry;
    PlannedNext(fs, plan, chars, 0);
    assert plan[0..] == plan;
    var kept := ShrinkSpec.KeepPlanned(fs, plan, chars);
    var rest := ShrinkSpec.KeepPlanned(fs, plan[1..], chars);
    if kept == rest {
      j := KeptFrom(fs, plan[1..], chars, i);
      j := j + 1;
    } else if i == 0 {
      j := 0;
    } else {
      j := KeptFrom(fs, plan[1..], chars, i - 1);
      j := j + 1;
    }
  }

  lemma {:induction false} KeptTo(fs: seq<Field>, plan: seq<Entry>, chars: nat, j: nat) returns (i: nat)
    requires j < |plan| && Get(fs, plan[j].key).Some? && !Skips(plan[j], Get(fs, plan[j].key).value)
    ensures i < |ShrinkSpec.KeepPlanned(fs, plan, chars)|
    ensures var k := ShrinkSpec.KeepPlanned(fs, plan, chars)[i];
            k.field.key == plan[j].key && k.verbatim == KeepEntry(plan[j], Get(fs, plan[j].key).value, chars).1
    decreases |plan|
  {
    hide Skips, KeepEntry;
    PlannedNext(fs, plan, chars, 0);
    assert plan[0..] == plan;
    var kept := ShrinkSpec.KeepPlanned(fs, plan, chars);
    var rest := ShrinkSpec.KeepPlanned(fs, plan[1..], chars);
    if j == 0 {
      i := 0;
    } else {
      i := KeptTo(fs, plan[1..], chars, j - 1);
      if kept != rest {
        i := i + 1;
      }
    }
  }

  function KeptNames(ks: seq<Kept>): set<Text> { set i | 0 <= i < |ks| :: ks[i].field.key }

  function Names(fs: seq<Field>): set<Text> { set i | 0 <= i < |fs| :: fs[i].key }

  lemma {:induction false} NamesCard(fs: seq<Field>)
    requires UniqueKeys(fs)
    ensures |Names(fs)| == |fs|
  {
    if fs != [] {
      var n := |fs| - 1;
      var front := fs[..n];
      assert forall i | 0 <= i < n :: front[i] == fs[i];
      NamesCard(front);
      assert Names(fs) == Names(front) + {fs[n].key};
    }
  }

  lemma NamesCons(k: Kept, ks: seq<Kept>)
    ensures KeptNames([k] + ks) == {k.field.key} + KeptNames(ks)
  {
    var all := [k] + ks;
    assert all[0] == k && forall i | 0 <= i < |ks| :: all[i + 1] == ks[i];
    assert forall i | 0 < i < |all| :: all[i] == ks[i - 1];
  }

  lemma {:induction false} KeptCard(fs: seq<Field>, plan: seq<Entry>, chars: nat)
    requires DistinctKeys(plan)
    ensures var ks := ShrinkSpec.KeepPlanned(fs, plan, chars); |KeptNames(ks)| == |ks|
    decreases |plan|
  {
    if plan != [] {
      hide Skips, KeepEntry, ShrinkSpec.KeepPlanned, KeptNames;
      PlannedNext(fs, plan, chars, 0);
      assert plan[0..] == plan;
      var kept := ShrinkSpec.KeepPlanned(fs, plan, chars);
      var rest := ShrinkSpec.KeepPlanned(fs, plan[1..], chars);
      KeptCard(fs, plan[1..], chars);
      if kept != rest {
        assert kept == [kept[0]] + rest;
        NamesCons(kept[0], rest);
        HeadApart(fs, plan, chars);
      }
    }
  }

  lemma HeadApart(fs: seq<Field>, plan: seq<Entry>, chars: nat)
    requires plan != [] && DistinctKeys(plan)
    ensures plan[0].key !in KeptNames(ShrinkSpec.KeepPlanned(fs, plan[1..], chars))
  {
    hide Skips, KeepEntry, ShrinkSpec.KeepPlanned;
    var rest := ShrinkSpec.KeepPlanned(fs, plan[1..], chars);
    forall i | 0 <= i < |rest| ensures rest[i].field.key != plan[0].key {
      var j := KeptFrom(fs, plan[1..], chars, i);
      assert plan[1..][j] == plan[j + 1];
    }
  }

  lemma {:induction false} LargeSubset(a: set<Text>, b: set<Text>)
    requires a <= b && |b| <= |a|
    ensures a == b
    decreases |b|
  {
    if a == {} {
      assert |b| == 0;
    } else {
      var x :| x in a;
      LargeSubset(a - {x}, b - {x});
      assert a == (a - {x}) + {x} && b == (b - {x}) + {x};
    }
  }

  /** Every field was kept exactly when their number says so. */
  lemma KeptAll(fs: seq<Field>, plan: seq<Entry>, chars: nat)
    requires DistinctKeys(plan) && UniqueKeys(fs)
    ensures var ks := ShrinkSpec.KeepPlanned(fs, plan, chars); |fs| <= |ks| <==> Names(fs) == KeptNames(ks)
  {
    hide Skips, KeepEntry;
    var ks := ShrinkSpec.KeepPlanned(fs, plan, chars);
    NamesCard(fs);
    KeptCard(fs, plan, chars);
    forall i | 0 <= i < |ks| ensures ks[i].field.key in Names(fs) {
      var j := KeptFrom(fs, plan, chars, i);
      var n := GetPlace(fs, plan[j].key);
    }
    if |fs| <= |ks| {
      LargeSubset(KeptNames(ks), Names(fs));
    }
  }

  lemma {:induction false} GetPlace(fs: seq<Field>, key: Text) returns (i: nat)
    requires Get(fs, key).Some?
    ensures i < |fs| && fs[i].key == key
  {
    if fs[0].key == key {
      i := 0;
    } else {
      i := GetPlace(fs[1..], key);
      i := i + 1;
    }
  }

  /** What the code counts as kept verbatim is what was kept whole. */
  lemma {:induction false} VerbatimWhole(e: Entry, v: Json, chars: nat)
    requires Shaped(v) && (e.Nested? ==> PlanKeysDiffer(e.plan))
    ensures KeepEntry(e, v, chars).1 <==> Whole(e, v, chars)
    decreases e, 0
  {
    if v.Obj? && e.Nested? {
      PlanVerbatim(v.fields, e.plan, chars);
    }
  }

  lemma GetShaped(fs: seq<Field>, key: Text)
    requires Shaped(Obj(fs)) && Get(fs, key).Some?
    ensures Shaped(Get(fs, key).value)
  {
    var i := GetPlace(fs, key);
    GetAt(fs, i);
  }

  lemma {:induction false} PlanVerbatim(fs: seq<Field>, plan: seq<Entry>, chars: nat)
    requires Shaped(Obj(fs)) && PlanKeysDiffer(plan)
    ensures var ks := ShrinkSpec.KeepPlanned(fs, plan, chars);
            AllVerbatim(ks) && |fs| <= |ks| <==> PlanWhole(fs, plan, chars)
    decreases plan, 1
  {
    hide Skips, KeepEntry, Whole, ShrinkSpec.KeepPlanned, Shaped;
    var ks := ShrinkSpec.KeepPlanned(fs, plan, chars);
    ShapedUnique(fs);
    KeptAll(fs, plan, chars);
    forall j | 0 <= j < |plan| && Get(fs, plan[j].key).Some?
      ensures KeepEntry(plan[j], Get(fs, plan[j].key).value, chars).1 <==> Whole(plan[j], Get(fs, plan[j].key).value, chars)
    {
      GetShaped(fs, plan[j].key);
      VerbatimWhole(plan[j], Get(fs, plan[j].key).value, chars);
    }
    if AllVerbatim(ks) && |fs| <= |ks| {
      WholeWhenAllKept(fs, plan, chars);
    }
    if PlanWhole(fs, plan, chars) {
      AllKeptWhenWhole(fs, plan, chars);
    }
  }

  lemma ShapedUnique(fs: seq<Field>)
    requires Shaped(Obj(fs))
    ensures UniqueKeys(fs)
  {
  }

  lemma WholeWhenAllKept(fs: seq<Field>, plan: seq<Entry>, chars: nat)
    requires DistinctKeys(plan) && UniqueKeys(fs)
    requires var ks := ShrinkSpec.KeepPlanned(fs, plan, chars); AllVerbatim(ks) && Names(fs) == KeptNames(ks)
    requires forall j | 0 <= j < |plan| && Get(fs, plan[j].key).Some? ::
               KeepEntry(plan[j], Get(fs, plan[j].key).value, chars).1 <==> Whole(plan[j], Get(fs, plan[j].key).value, chars)
    ensures PlanWhole(fs, plan, chars)
  {
    hide Skips, KeepEntry, Whole, ShrinkSpec.KeepPlanned;
    var ks := ShrinkSpec.KeepPlanned(fs, plan, chars);
    forall key | key in Names(fs)
      ensures exists j | 0 <= j < |plan| :: plan[j].key == key && Get(fs, key).Some? && !Skips(plan[j], Get(fs, key).value)
                                              && Whole(plan[j], Get(fs, key).value, chars)
    {
      var i :| 0 <= i < |ks| && ks[i].field.key == key;
      var j := KeptFrom(fs, plan, chars, i);
      assert plan[j].key == key;
    }
    forall j | 0 <= j < |plan| && Get(fs, plan[j].key).Some?
      ensures !Skips(plan[j], Get(fs, plan[j].key).value) && Whole(plan[j], Get(fs, plan[j].key).value, chars)
    {
      var n := GetPlace(fs, plan[j].key);
      assert plan[j].key in Names(fs);
      var k :| 0 <= k < |plan| && plan[k].key == plan[j].key && !Skips(plan[k], Get(fs, plan[k].key).value)
               && Whole(plan[k], Get(fs, plan[k].key).value, chars);
      assert k == j;
    }
    forall i | 0 <= i < |fs| ensures PlansKey(plan, fs[i].key) {
      assert fs[i].key in Names(fs);
    }
  }

  lemma AllKeptWhenWhole(fs: seq<Field>, plan: seq<Entry>, chars: nat)
    requires DistinctKeys(plan) && UniqueKeys(fs) && PlanWhole(fs, plan, chars)
    requires forall j | 0 <= j < |plan| && Get(fs, plan[j].key).Some? ::
               KeepEntry(plan[j], Get(fs, plan[j].key).value, chars).1 <==> Whole(plan[j], Get(fs, plan[j].key).value, chars)
    ensures var ks := ShrinkSpec.KeepPlanned(fs, plan, chars); AllVerbatim(ks) && |fs| <= |ks|
  {
    hide Skips, KeepEntry, Whole, ShrinkSpec.KeepPlanned;
    var ks := ShrinkSpec.KeepPlanned(fs, plan, chars);
    forall i | 0 <= i < |ks| ensures ks[i].verbatim {
      var j := KeptFrom(fs, plan, chars, i);
    }
    forall i | 0 <= i < |fs| ensures fs[i].key in KeptNames(ks) {
      var j :| 0 <= j < |plan| && plan[j].key == fs[i].key;
      GetAt(fs, i);
      var k := KeptTo(fs, plan, chars, j);
    }
    forall i | 0 <= i < |ks| ensures ks[i].field.key in Names(fs) {
      var j := KeptFrom(fs, plan, chars, i);
      var n := GetPlace(fs, plan[j].key);
    }
    assert KeptNames(ks) == Names(fs);
    KeptAll(fs, plan, chars);
  }

  /** A leaf that is not whole comes out equal only if it looks cut or omitted already. */
  lemma EqualThoughListed(e: Entry, v: Json, chars: nat)
    requires !(e.Nested? && v.Obj?)
    ensures Whole(e, v, chars) ==> KeepEntry(e, v, chars).0 == v
    ensures !Whole(e, v, chars) ==>
              (KeepEntry(e, v, chars).0 == v <==>
                 || (v.Str? && v.text == v.text[..chars] + TRUNCATION_SUFFIX)
                 || MarkerWith(v, 0, Ascii("[omitted]")))
  {
  }

  /** A key of the payload that the plan kept whole. */
  ghost predicate KeptWhole(fs: seq<Field>, plan: seq<Entry>, chars: nat, key: Text)
  {
    exists j | 0 <= j < |plan| ::
      plan[j].key == key && Get(fs, key).Some? && !Skips(plan[j], Get(fs, key).value) && Whole(plan[j], Get(fs, key).value, chars)
  }

  lemma VerbatimExactly(fs: seq<Field>, plan: seq<Entry>, chars: nat, key: Text)
    requires Shaped(Obj(fs)) && PlanKeysDiffer(plan)
    ensures key in VerbatimKeys(ShrinkSpec.KeepPlanned(fs, plan, chars)) <==> KeptWhole(fs, plan, chars, key)
  {
    hide Skips, KeepEntry, Whole, ShrinkSpec.KeepPlanned, Shaped;
    var ks := ShrinkSpec.KeepPlanned(fs, plan, chars);
    if key in VerbatimKeys(ks) {
      var i :| 0 <= i < |ks| && ks[i].verbatim && ks[i].field.key == key;
      var j := KeptFrom(fs, plan, chars, i);
      GetShaped(fs, key);
      VerbatimWhole(plan[j], Get(fs, key).value, chars);
      assert plan[j].key == key;
    }
    if KeptWhole(fs, plan, chars, key) {
      var j :| 0 <= j < |plan| && plan[j].key == key && !Skips(plan[j], Get(fs, key).value) && Whole(plan[j], Get(fs, key).value, chars);
      GetShaped(fs, key);
      VerbatimWhole(plan[j], Get(fs, key).value, chars);
      var i := KeptTo(fs, plan, chars, j);
      assert ks[i].verbatim && ks[i].field.key == key;
    }
  }

  /**
   A skeleton: what the plan kept, the markers, and when it is a full one the
   keys of the payload, in their order, that were not kept whole.
   */
  lemma SkeletonHolds(fs: seq<Field>, t: EventType, total: nat, preview: Text, chars: nat, full: bool) returns (lost: seq<nat>)
    requires t != Unknown && Shaped(Obj(fs))
    ensures Places(lost, |fs|) && forall i | 0 <= i < |fs| :: i in lost <==> !KeptWhole(fs, Plan(t), chars, fs[i].key)
    ensures var form := SkeletonForm(fs, Plan(t), total, preview, chars, full);
            && form.Obj?
            && (exists kept: seq<Field> :: PlanKeptAs(fs, Plan(t), kept, chars)
                  && form.fields == kept + [Field(TRUNCATED, Bool(true)), Field(BYTES, Count(total)), Field(PREVIEW, Str(if full then preview else []))]
                                    + if full then [Field(FIELDS, Texts(LostAt(fs, lost)))] else [])
  {
    hide Shaped, PlanKeptAs, KeptWhole, Plan, VerbatimKeys, ShrinkSpec.KeepPlanned, LostKeys;
    PlanKeysPlain(t);
    var ks := ShrinkSpec.KeepPlanned(fs, Plan(t), chars);
    KeepsPlan(fs, Plan(t), chars);
    lost := LostExactly(fs, VerbatimKeys(ks));
    forall i | 0 <= i < |fs| ensures i in lost <==> !KeptWhole(fs, Plan(t), chars, fs[i].key) {
      VerbatimExactly(fs, Plan(t), chars, fs[i].key);
    }
    assert LostKeys(fs, VerbatimKeys(ks)) == LostAt(fs, lost);
    var kept := KeptFields(ks);
    var markers := [Field(TRUNCATED, Bool(true)), Field(BYTES, Count(total)), Field(PREVIEW, Str(if full then preview else []))];
    var tail := if full then [Field(FIELDS, Texts(LostAt(fs, lost)))] else [];
    assert kept + (markers + tail) == kept + markers + tail;
    assert SkeletonForm(fs, Plan(t), total, preview, chars, full).fields == kept + markers + tail;
  }

  function LostAt(fs: seq<Field>, pos: seq<nat>): (r: seq<Text>)
    requires forall j | 0 <= j < |pos| :: pos[j] < |fs|
    ensures |r| == |pos| && forall j | 0 <= j < |pos| :: r[j] == fs[pos[j]].key
  {
    seq(|pos|, j requires 0 <= j < |pos| => fs[pos[j]].key)
  }
}
