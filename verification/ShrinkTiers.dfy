/**
 Which tier answers: the field trim whenever it fits and is valid, then the first
 skeleton that fits and is valid, then the marker.
 */
module ShrinkTiers {
  import opened Utf16
  import opened Json
  import opened JsNumber
  import opened Schema
  import opened ShrinkSpec
  import opened Budget
  import opened FieldTrim
  import opened ShrinkShape

  // ---- the field trim ----

  /** The payload with its k biggest fields trimmed. */
  function TrimForm(fs: seq<Field>, k: nat, total: nat, text: Text): Json
    requires k <= |fs|
  {
    BiggestLength(fs);
    var dropped := KeysOf(BiggestFirst(fs)[..k]);
    Obj(AddMarker(TrimKeys(fs, dropped), total, text, dropped))
  }

  lemma {:induction false} BiggestLength(fs: seq<Field>)
    ensures |BiggestFirst(fs)| == |fs|
  {
    if fs != [] {
      BiggestLength(fs[1..]);
      InsertLength(fs[0], BiggestFirst(fs[1..]));
    }
  }

  lemma {:induction false} InsertLength(f: Field, fs: seq<Field>)
    ensures |InsertBySize(f, fs)| == |fs| + 1
  {
    if fs != [] && Size(f.value) < Size(fs[0].value) {
      InsertLength(f, fs[1..]);
    }
  }

  /** Trimming k fields is enough, fewer are not, and what comes out fits and is valid. */
  predicate TrimAnswers(payload: Json, k: nat, total: nat, text: Text, max: int, t: EventType)
  {
    && payload.Obj? && |payload.fields| <= 4096 && k <= |payload.fields|
    && |BiggestFirst(payload.fields)| == |payload.fields|
    && ShortestEnough(BiggestFirst(payload.fields), k, total, max)
    && var form := TrimForm(payload.fields, k, total, text);
       FitsBudget(form, max) && (t == Unknown || Valid(Record(Rules(t)), form))
  }

  /** Two shortest sufficient prefixes are one. */
  lemma ShortestOnce(order: seq<Field>, j: nat, k: nat, total: int, max: int)
    requires ShortestEnough(order, j, total, max) && ShortestEnough(order, k, total, max)
    ensures j == k
  {
  }

  lemma ShortestFound(order: seq<Field>, total: int, max: int)
    requires TrimCount(order, total, max) > 0
    ensures ShortestEnough(order, TrimCount(order, total, max), total, max)
  {
    hide Enough;
    TrimCountShortest(order, total, max);
  }

  lemma SomeTrimmed(order: seq<Field>, k: nat, total: int, max: int)
    requires ShortestEnough(order, k, total, max)
    ensures TrimCount(order, total, max) == k
  {
    assert order[..0] == [];
    ShortestFound(order, total, max);
    ShortestOnce(order, k, TrimCount(order, total, max), total, max);
  }

  /** The first tier answers exactly when some number of trimmed fields does. */
  lemma TrimTierExactly(payload: Json, total: nat, text: Text, max: int, t: EventType, k: nat)
    ensures TrimAnswers(payload, k, total, text, max, t) ==>
              TrimTier(payload, max, t, text, total) == Some(TrimForm(payload.fields, k, total, text))
    ensures TrimTier(payload, max, t, text, total).Some? ==>
              TrimAnswers(payload, TrimCount(BiggestFirst(payload.fields), total, max), total, text, max, t)
  {
    hide FitsBudget, Valid, TrimKeys, AddMarker, BiggestFirst, TrimCount, ShortestEnough;
    if payload.Obj? {
      var order := BiggestFirst(payload.fields);
      BiggestLength(payload.fields);
      NoneDropped(order, total, max);
      if TrimAnswers(payload, k, total, text, max, t) {
        SomeTrimmed(order, k, total, max);
        PositiveTrim(order, k, total, max);
      }
      if TrimCount(order, total, max) > 0 {
        ShortestFound(order, total, max);
      }
    }
  }

  lemma NoneDropped(order: seq<Field>, total: int, max: int)
    ensures KeysOf(order[..TrimCount(order, total, max)]) == [] <==> TrimCount(order, total, max) == 0
  {
  }

  lemma PositiveTrim(order: seq<Field>, k: nat, total: int, max: int)
    requires ShortestEnough(order, k, total, max)
    ensures 0 < k <= |order|
  {
  }

  // ---- the skeleton ----

  /** An attempt fits and is valid, and if it is a full one its list of keys is no longer than the budget. */
  predicate AttemptAnswers(fs: seq<Field>, t: EventType, max: int, total: nat, preview: Text, chars: nat, full: bool)
    requires t != Unknown
  {
    var form := SkeletonForm(fs, Plan(t), total, preview, chars, full);
    && FitsBudget(form, max) && Valid(Record(Rules(t)), form)
    && (full ==> Units(LostKeys(fs, VerbatimKeys(ShrinkSpec.KeepPlanned(fs, Plan(t), chars)))) <= max)
  }

  /** The attempts in order: 256 units in full, 256 units without the preview and the list, 32 units without. */
  function SkeletonAnswer(fs: seq<Field>, t: EventType, max: int, total: nat, preview: Text): Option<Json>
    requires t != Unknown
  {
    if AttemptAnswers(fs, t, max, total, preview, 256, true) then Some(SkeletonForm(fs, Plan(t), total, preview, 256, true))
    else if AttemptAnswers(fs, t, max, total, preview, 256, false) then Some(SkeletonForm(fs, Plan(t), total, preview, 256, false))
    else if AttemptAnswers(fs, t, max, total, preview, 32, false) then Some(SkeletonForm(fs, Plan(t), total, preview, 32, false))
    else None
  }

  lemma AttemptMeans(fs: seq<Field>, t: EventType, max: int, total: nat, preview: Text, chars: nat, full: bool)
    requires t != Unknown
    ensures AttemptFits(fs, t, max, total, preview, chars, full) <==> AttemptAnswers(fs, t, max, total, preview, chars, full)
  {
    hide SkeletonForm, FitsBudget, Valid, Units, LostKeys, VerbatimKeys, Plan, Rules;
  }

  lemma FirstAttempt(fs: seq<Field>, t: EventType, max: int, total: nat, preview: Text, chars: nat, full: bool, rest: seq<(nat, bool)>)
    requires t != Unknown
    ensures Skeleton(fs, t, max, total, preview, [(chars, full)] + rest) ==
            if AttemptAnswers(fs, t, max, total, preview, chars, full) then Some(SkeletonForm(fs, Plan(t), total, preview, chars, full))
            else Skeleton(fs, t, max, total, preview, rest)
  {
    hide AttemptFits, AttemptAnswers, SkeletonForm, Plan;
    AttemptMeans(fs, t, max, total, preview, chars, full);
    assert ([(chars, full)] + rest)[1..] == rest;
  }

  lemma SkeletonExactly(fs: seq<Field>, t: EventType, max: int, total: nat, preview: Text)
    requires t != Unknown
    ensures Skeleton(fs, t, max, total, preview, ATTEMPTS) == SkeletonAnswer(fs, t, max, total, preview)
  {
    var third := [(SKELETON_MIN_CHARS, false)];
    var second := [(SKELETON_CHARS, false)] + third;
    assert ATTEMPTS == [(SKELETON_CHARS, true)] + second;
    NoAttempt(fs, t, max, total, preview);
    hide Skeleton, AttemptAnswers, SkeletonForm, Plan;
    FirstAttempt(fs, t, max, total, preview, SKELETON_CHARS, true, second);
    FirstAttempt(fs, t, max, total, preview, SKELETON_CHARS, false, third);
    FirstAttempt(fs, t, max, total, preview, SKELETON_MIN_CHARS, false, []);
    assert third + [] == third;
  }

  lemma NoAttempt(fs: seq<Field>, t: EventType, max: int, total: nat, preview: Text)
    requires t != Unknown
    ensures Skeleton(fs, t, max, total, preview, []) == None
  {
  }

  // ---- which tier answers ----

  function Preview(text: Text): Text { if |text| <= 2000 then text else text[..2000] }

  /** A payload with a JSON text: itself within the budget; else the trim, the skeleton, the marker, in this order. */
  lemma SerializeAnswers(payload: Json, max: int, t: EventType, k: nat)
    requires Serializable(payload)
    ensures var r, text := Serialize(payload, max, t), Print(payload);
            var total := Utf8Length(text);
            && (total <= max ==> r == Outcome(payload, false))
            && (total > max && TrimAnswers(payload, k, total, text, max, t) ==>
                  r == Outcome(TrimForm(payload.fields, k, total, text), true))
            && (total > max && (forall n :: !TrimAnswers(payload, n, total, text, max, t)) ==>
                  var skeleton := if payload.Obj? && t != Unknown then SkeletonAnswer(payload.fields, t, max, total, Preview(text)) else None;
                  r.truncated && if skeleton.Some? then r.payload == skeleton.value else MarkerWith(r.payload, total, Preview(text)))
  {
    hide TrimAnswers, TrimTier, Skeleton, SkeletonAnswer, Print, Utf8Length, Serializable, TrimForm;
    var text, total := Print(payload), Utf8Length(Print(payload));
    TrimTierExactly(payload, total, text, max, t, k);
    if payload.Obj? && t != Unknown {
      SkeletonExactly(payload.fields, t, max, total, Preview(text));
    }
  }

  // ---- host objects ----

  /** A field of a payload with its host objects taken out: a list that holds one is emptied, another becomes a marker. */
  predicate HostFreeAs(f: Field, r: seq<Field>)
  {
    var v := Get(r, f.key);
    && v.Some?
    && if Serializable(f.value) then v.value == f.value
       else if f.value.Arr? then v.value == Arr([])
       else MarkerWith(v.value, 0, Ascii("[unserializable value]"))
  }

  lemma HostFreeField(fs: seq<Field>, i: nat, lost: seq<Text>)
    requires UniqueKeys(fs) && i < |fs| && fs[i].key != TRUNCATED && fs[i].key != FIELDS
    ensures HostFreeAs(fs[i], SetKey(SetKey(TrimOpaque(fs), TRUNCATED, Bool(true)), FIELDS, Texts(lost)))
  {
    hide Serializable, Texts, Get;
    var trimmed := TrimOpaque(fs);
    var marked := SetKey(trimmed, TRUNCATED, Bool(true));
    GetSetKey(trimmed, TRUNCATED, Bool(true), fs[i].key);
    GetSetKey(marked, FIELDS, Texts(lost), fs[i].key);
    assert trimmed[i].key == fs[i].key;
    GetAt(trimmed, i);
  }

  /** Host objects are taken out in place, and their keys listed in order. */
  lemma HostObjectsTrimmed(fs: seq<Field>) returns (lost: seq<nat>, r: seq<Field>)
    requires !Serializable(Obj(fs)) && UniqueKeys(fs)
    ensures TruncateUnserializable(fs) == Some(r)
    ensures Places(lost, |fs|) && forall n | 0 <= n < |fs| :: n in lost <==> !Serializable(fs[n].value)
    ensures Get(r, TRUNCATED) == Some(Bool(true)) && Get(r, FIELDS) == Some(Texts(LostAt(fs, lost)))
    ensures forall i | 0 <= i < |fs| && fs[i].key != TRUNCATED && fs[i].key != FIELDS :: HostFreeAs(fs[i], r)
  {
    hide Serializable, Texts, Get, HostFreeAs, Places;
    OpaqueTrimmed(fs);
    MarkerKeysApart();
    lost := OpaqueExactly(fs);
    LostTexts(fs, lost);
    var trimmed := TrimOpaque(fs);
    var marked := SetKey(trimmed, TRUNCATED, Bool(true));
    r := SetKey(marked, FIELDS, Texts(OpaqueKeys(fs)));
    GetSetKey(trimmed, TRUNCATED, Bool(true), TRUNCATED);
    GetSetKey(marked, FIELDS, Texts(OpaqueKeys(fs)), TRUNCATED);
    GetSetKey(marked, FIELDS, Texts(OpaqueKeys(fs)), FIELDS);
    forall i | 0 <= i < |fs| && fs[i].key != TRUNCATED && fs[i].key != FIELDS ensures HostFreeAs(fs[i], r) {
      HostFreeField(fs, i, OpaqueKeys(fs));
    }
  }

  lemma LostTexts(fs: seq<Field>, pos: seq<nat>)
    requires Places(pos, |fs|) && |OpaqueKeys(fs)| == |pos| && forall j | 0 <= j < |pos| :: OpaqueKeys(fs)[j] == fs[pos[j]].key
    ensures LostAt(fs, pos) == OpaqueKeys(fs)
  {
  }

  lemma {:induction false} OpaqueExactly(fs: seq<Field>) returns (pos: seq<nat>)
    ensures Places(pos, |fs|) && |OpaqueKeys(fs)| == |pos|
    ensures forall j | 0 <= j < |pos| :: OpaqueKeys(fs)[j] == fs[pos[j]].key
    ensures forall i | 0 <= i < |fs| :: i in pos <==> !Serializable(fs[i].value)
    decreases |fs|
  {
    hide Serializable;
    if fs == [] {
      pos := [];
    } else {
      var n := |fs| - 1;
      var front := fs[..n];
      pos := OpaqueExactly(front);
      OpaqueAppend(front, fs[n]);
      assert fs == front + [fs[n]];
      if !Serializable(fs[n].value) {
        pos := pos + [n];
      }
    }
  }

  lemma {:induction false} OpaqueAppend(fs: seq<Field>, f: Field)
    ensures OpaqueKeys(fs + [f]) == OpaqueKeys(fs) + if Serializable(f.value) then [] else [f.key]
  {
    hide Serializable;
    if fs == [] {
      assert [] + [f] == [f] && [f][1..] == [];
    } else {
      assert (fs + [f])[1..] == fs[1..] + [f];
      OpaqueAppend(fs[1..], f);
    }
  }

  /** Host objects in a dictionary of a known type: the trimmed form when it fits and is valid, a further trim of it, the skeleton, the marker. */
  lemma UnserializableAnswers(fs: seq<Field>, max: int, t: EventType, k: nat)
    requires t != Unknown && !Serializable(Obj(fs)) && TruncateUnserializable(fs).Some?
    ensures var r, trimmed := Serialize(Obj(fs), max, t), Obj(TruncateUnserializable(fs).value);
            var text := Print(trimmed);
            var size := Utf8Length(text);
            && r.truncated
            && (size <= max && Valid(Record(Rules(t)), trimmed) ==> r.payload == trimmed)
            && (size > max && TrimAnswers(trimmed, k, size, text, max, t) ==> r.payload == TrimForm(trimmed.fields, k, size, text))
            && (!(size <= max && Valid(Record(Rules(t)), trimmed))
                && (size <= max || forall n :: !TrimAnswers(trimmed, n, size, text, max, t)) ==>
                  var skeleton := SkeletonAnswer(fs, t, max, 0, UNSERIALIZABLE);
                  if skeleton.Some? then r.payload == skeleton.value else MarkerWith(r.payload, 0, UNSERIALIZABLE))
  {
    hide TrimAnswers, Skeleton, SkeletonAnswer, Print, Utf8Length, Serializable, TrimForm, TruncateFields, Valid, Rules, TruncateUnserializable, UNSERIALIZABLE;
    var trimmed := Obj(TruncateUnserializable(fs).value);
    var text, size := Print(trimmed), Utf8Length(Print(trimmed));
    TrimTierExactly(trimmed, size, text, max, t, k);
    SkeletonExactly(fs, t, max, 0, UNSERIALIZABLE);
  }

  /** Any other payload without a JSON text: the marker, or for an unknown type the trimmed dictionary as it is. */
  lemma UnserializableOthers(payload: Json, max: int, t: EventType)
    requires !Serializable(payload) && (t == Unknown || !payload.Obj?)
    ensures var r := Serialize(payload, max, t);
            && r.truncated
            && if payload.Obj? then TruncateUnserializable(payload.fields).Some? && r.payload == Obj(TruncateUnserializable(payload.fields).value)
               else MarkerWith(r.payload, 0, Ascii("[unserializable payload]"))
  {
    hide TruncateUnserializable, Serializable;
    if payload.Obj? {
      OpaqueTrimmed(payload.fields);
    }
  }

  // ---- the order of the trim ----

  /** A field weighs the UTF-16 units of its own text; one with no text weighs 2^53 - 1. */
  lemma SizeMeans(v: Json)
    ensures Serializable(v) ==> Size(v) == |Print(v)|
    ensures !Serializable(v) ==> Size(v) == 9007199254740991
  {
  }
}
