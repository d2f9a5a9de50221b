/**
 What the payload budget returns: the four tiers of `serialize_payload` as functions.

 A payload over its byte budget is degraded in order: the field trim, the
 skeleton of its event type, the whole-payload marker.
 */
module ShrinkSpec {
  import opened Utf16
  import opened Json
  import opened JsNumber
  import opened Schema

  const PREVIEW_CHARS := 2000
  const MAX_SHRINK_DEPTH := 6
  const MAX_SHRINK_KEYS := 256
  const MAX_TRIM_FIELDS := 4096
  const SKELETON_CHARS := 256
  const SKELETON_MIN_CHARS := 32

  const TRUNCATED := Ascii("__graphmindTruncated")
  const BYTES := Ascii("bytes")
  const PREVIEW := Ascii("preview")
  const FIELDS := Ascii("fields")
  const KEYS_DROPPED := Ascii("keysDropped")

  const MARKER_KEYS: seq<Text> := [TRUNCATED, BYTES, PREVIEW, FIELDS]

  /** No host object anywhere: JSON.stringify succeeds. */
  predicate Serializable(j: Json)
  {
    match j
    case Opaque => false
    case Arr(items) => forall i | 0 <= i < |items| :: Serializable(items[i])
    case Obj(fields) => forall i | 0 <= i < |fields| :: Serializable(fields[i].value)
    case _ => true
  }

  /** A payload as the client holds it: unique keys, number tokens no longer than a double's. */
  predicate Shaped(j: Json)
  {
    match j
    case Number(token) => IsNumberToken(token) && |token| <= MAX_TOKEN
    case Arr(items) => forall i | 0 <= i < |items| :: Shaped(items[i])
    case Obj(fields) => UniqueKeys(fields) && forall i | 0 <= i < |fields| :: Shaped(fields[i].value)
    case _ => true
  }

  function Count(n: nat): Json { Number(NatDigits(n)) }

  /** dict[key] = value: in place when the key is there, else at the end. */
  function SetKey(fs: seq<Field>, key: Text, v: Json): seq<Field>
  {
    if fs == [] then [Field(key, v)]
    else if fs[0].key == key then [Field(key, v)] + fs[1..]
    else [fs[0]] + SetKey(fs[1..], key, v)
  }

  /** The whole-payload marker; also the form of an omitted or too deep value. */
  function Marker(bytes: nat, preview: Text): Json
  {
    Obj([Field(TRUNCATED, Bool(true)), Field(BYTES, Count(bytes)), Field(PREVIEW, Str(preview))])
  }

  // ---- tier 2: the field trim ----

  function Take<T>(s: seq<T>, n: nat): seq<T> { if n < |s| then s[..n] else s }

  function ShrinkValue(v: Json, depth: nat): Json
    decreases MAX_SHRINK_DEPTH - depth, 1, 0
  {
    match v
    case Str(text) => Str(Cut(text, PREVIEW_CHARS))
    case Arr(_) => Arr([])
    case Obj(fields) =>
      if depth >= MAX_SHRINK_DEPTH then Marker(0, Ascii("[deeply nested]"))
      else
        var shrunk := ShrinkFields(Take(fields, MAX_SHRINK_KEYS), depth);
        var dropped := if |fields| > MAX_SHRINK_KEYS then |fields| - MAX_SHRINK_KEYS else 0;
        var marked :=
          if depth > 0 then if dropped > 0 then SetKey(shrunk, TRUNCATED, Bool(true)) else shrunk
          else
            var s := SetKey(shrunk, TRUNCATED, Bool(true));
            var s := SetKey(s, BYTES, Count(if Serializable(v) then |Print(v)| else 0));
            SetKey(s, PREVIEW, Str(if Serializable(v) then Prefix(Print(v), PREVIEW_CHARS) else Ascii("[unserializable field]")));
        Obj(if dropped > 0 then SetKey(marked, KEYS_DROPPED, Count(dropped)) else marked)
    case _ => v
  }

  function ShrinkFields(fs: seq<Field>, depth: nat): seq<Field>
    requires depth < MAX_SHRINK_DEPTH
    decreases MAX_SHRINK_DEPTH - depth, 0, |fs|
  {
    if fs == [] then [] else SetKey(ShrinkFields(fs[..|fs| - 1], depth), fs[|fs| - 1].key, ShrinkValue(fs[|fs| - 1].value, depth + 1))
  }

  /** UTF-16 units of a value's text; a value with none counts as the largest. */
  function Size(v: Json): nat { if Serializable(v) then |Print(v)| else MAX_SAFE_INTEGER }

  function InsertBySize(f: Field, fs: seq<Field>): seq<Field>
  {
    if fs == [] || Size(f.value) >= Size(fs[0].value) then [f] + fs else [fs[0]] + InsertBySize(f, fs[1..])
  }

  /** Biggest first, ties in payload order. */
  function BiggestFirst(fs: seq<Field>): seq<Field>
  {
    if fs == [] then [] else InsertBySize(fs[0], BiggestFirst(fs[1..]))
  }

  /** How many of the fields must be trimmed before the rest is at most half the budget. */
  function TrimCount(order: seq<Field>, remaining: int, max: int): (k: nat)
    ensures k <= |order|
  {
    if order == [] || 2 * remaining <= max then 0
    else 1 + TrimCount(order[1..], remaining - Size(order[0].value), max)
  }

  function KeysOf(fs: seq<Field>): (keys: seq<Text>)
    ensures |keys| == |fs| && forall i | 0 <= i < |fs| :: keys[i] == fs[i].key
  {
    seq(|fs|, i requires 0 <= i < |fs| => fs[i].key)
  }

  /** Every field whose key is listed shrunk in place. */
  function TrimKeys(fs: seq<Field>, keys: seq<Text>): (r: seq<Field>)
    ensures |r| == |fs|
    ensures forall i | 0 <= i < |fs| ::
              r[i] == if fs[i].key in keys then Field(fs[i].key, ShrinkValue(fs[i].value, 0)) else fs[i]
  {
    seq(|fs|, i requires 0 <= i < |fs| =>
      if fs[i].key in keys then Field(fs[i].key, ShrinkValue(fs[i].value, 0)) else fs[i])
  }

  function Texts(keys: seq<Text>): Json { Arr(seq(|keys|, i requires 0 <= i < |keys| => Str(keys[i]))) }

  function AddMarker(fs: seq<Field>, total: nat, text: Text, dropped: seq<Text>): seq<Field>
  {
    var s := SetKey(fs, TRUNCATED, Bool(true));
    var s := SetKey(s, BYTES, Count(total));
    var s := SetKey(s, PREVIEW, Str(Prefix(text, PREVIEW_CHARS)));
    SetKey(s, FIELDS, Texts(dropped))
  }

  predicate FitsBudget(j: Json, max: int) { Serializable(j) && Utf8Length(Print(j)) <= max }

  function DroppedKeys(fs: seq<Field>, max: int, total: nat): seq<Text>
  {
    var order := BiggestFirst(fs);
    KeysOf(order[..TrimCount(order, total, max)])
  }

  function TruncateFields(fs: seq<Field>, max: int, total: nat, text: Text): Option<Json>
  {
    var dropped := DroppedKeys(fs, max, total);
    if dropped == [] then None
    else
      var r := Obj(AddMarker(TrimKeys(fs, dropped), total, text, dropped));
      if FitsBudget(r, max) then Some(r) else None
  }

  /** A host object becomes a marker, a list holding one becomes empty. */
  function OpaqueForm(v: Json): Json { if v.Arr? then Arr([]) else Marker(0, Ascii("[unserializable value]")) }

  function TrimOpaque(fs: seq<Field>): (r: seq<Field>)
    ensures |r| == |fs| && forall i | 0 <= i < |fs| :: r[i].key == fs[i].key
    ensures forall i | 0 <= i < |fs| :: r[i].value == if Serializable(fs[i].value) then fs[i].value else OpaqueForm(fs[i].value)
  {
    seq(|fs|, i requires 0 <= i < |fs| =>
      if Serializable(fs[i].value) then fs[i] else Field(fs[i].key, OpaqueForm(fs[i].value)))
  }

  function OpaqueKeys(fs: seq<Field>): seq<Text>
  {
    if fs == [] then [] else (if Serializable(fs[0].value) then [] else [fs[0].key]) + OpaqueKeys(fs[1..])
  }

  function TruncateUnserializable(fs: seq<Field>): Option<seq<Field>>
  {
    var dropped := OpaqueKeys(fs);
    if dropped == [] then None
    else Some(SetKey(SetKey(TrimOpaque(fs), TRUNCATED, Bool(true)), FIELDS, Texts(dropped)))
  }

  // ---- tier 3: the skeleton ----

  datatype Kept = Kept(field: Field, verbatim: bool)

  function KeptFields(ks: seq<Kept>): (r: seq<Field>)
    ensures |r| == |ks| && forall i | 0 <= i < |ks| :: r[i] == ks[i].field
  {
    seq(|ks|, i requires 0 <= i < |ks| => ks[i].field)
  }

  predicate AllVerbatim(ks: seq<Kept>) { forall i | 0 <= i < |ks| :: ks[i].verbatim }

  function VerbatimKeys(ks: seq<Kept>): set<Text> { set i | 0 <= i < |ks| && ks[i].verbatim :: ks[i].field.key }

  function Omitted(): Json { Marker(0, Ascii("[omitted]")) }

  /** A value without a plan of its own, and whether it was kept as it is. */
  function HardShrink(v: Json, chars: nat): (Json, bool)
  {
    match v
    case Str(text) => (Str(Cut(text, chars)), |text| <= chars)
    case Arr(items) => (Arr([]), items == [])
    case Obj(_) => (Omitted(), false)
    case Opaque => (Omitted(), false)
    case _ => (v, true)
  }

  function KeepEntry(e: Entry, v: Json, chars: nat): (Json, bool)
    decreases e
  {
    if e.Nested? && v.Obj? then
      var kept := KeepPlanned(v.fields, e.plan, chars);
      (Obj(KeptFields(kept)), AllVerbatim(kept) && |v.fields| <= |kept|)
    else HardShrink(v, chars)
  }

  /** An optional field is kept only as a string, a number or a boolean. */
  predicate Skips(e: Entry, v: Json) { e.Optional? && !v.Str? && !v.Number? && !v.NonFinite? && !v.Bool? }

  function KeepPlanned(fs: seq<Field>, plan: seq<Entry>, chars: nat): (ks: seq<Kept>)
    ensures |ks| <= |plan|
    decreases plan
  {
    if plan == [] then []
    else
      var rest := KeepPlanned(fs, plan[1..], chars);
      match Get(fs, plan[0].key)
      case None => rest
      case Some(v) =>
        if Skips(plan[0], v) then rest
        else
          var (shrunk, verbatim) := KeepEntry(plan[0], v, chars);
          [Kept(Field(plan[0].key, shrunk), verbatim)] + rest
  }

  /** Payload keys the skeleton did not keep as they were. */
  function LostKeys(fs: seq<Field>, verbatim: set<Text>): seq<Text>
  {
    if fs == [] then []
    else (if fs[0].key in verbatim then [] else [fs[0].key]) + LostKeys(fs[1..], verbatim)
  }

  function Units(keys: seq<Text>): nat { if keys == [] then 0 else |keys[0]| + Units(keys[1..]) }

  function SkeletonForm(fs: seq<Field>, plan: seq<Entry>, total: nat, preview: Text, chars: nat, full: bool): Json
  {
    var kept := KeepPlanned(fs, plan, chars);
    var marker := [Field(TRUNCATED, Bool(true)), Field(BYTES, Count(total)), Field(PREVIEW, Str(if full then preview else []))];
    Obj(KeptFields(kept) + (marker + if full then [Field(FIELDS, Texts(LostKeys(fs, VerbatimKeys(kept))))] else []))
  }

  predicate AttemptFits(fs: seq<Field>, t: EventType, max: int, total: nat, preview: Text, chars: nat, full: bool)
    requires t != Unknown
  {
    var form := SkeletonForm(fs, Plan(t), total, preview, chars, full);
    && (full ==> Units(LostKeys(fs, VerbatimKeys(KeepPlanned(fs, Plan(t), chars)))) <= max)
    && FitsBudget(form, max) && IsValidEvent(t, form)
  }

  const ATTEMPTS: seq<(nat, bool)> := [(SKELETON_CHARS, true), (SKELETON_CHARS, false), (SKELETON_MIN_CHARS, false)]

  /** The first attempt that fits and is valid. */
  function Skeleton(fs: seq<Field>, t: EventType, max: int, total: nat, preview: Text, attempts: seq<(nat, bool)>): Option<Json>
    requires t != Unknown
  {
    if attempts == [] then None
    else if AttemptFits(fs, t, max, total, preview, attempts[0].0, attempts[0].1) then
      Some(SkeletonForm(fs, Plan(t), total, preview, attempts[0].0, attempts[0].1))
    else Skeleton(fs, t, max, total, preview, attempts[1..])
  }

  // ---- the entry point ----

  datatype Outcome = Outcome(payload: Json, truncated: bool)

  function Serialize(payload: Json, max: int, t: EventType): Outcome
  {
    if !Serializable(payload) then Outcome(SerializeUnserializable(payload, max, t), true)
    else
      var text := Print(payload);
      var total := Utf8Length(text);
      if total <= max then Outcome(payload, false) else Outcome(Degrade(payload, max, t, text, total), true)
  }

  function Degrade(payload: Json, max: int, t: EventType, text: Text, total: nat): Json
  {
    var trimmed := TrimTier(payload, max, t, text, total);
    if trimmed.Some? then trimmed.value else SkeletonTier(payload, max, t, text, total)
  }

  /** The field trim, when it fits and is valid. */
  function TrimTier(payload: Json, max: int, t: EventType, text: Text, total: nat): Option<Json>
  {
    var trimmed :=
      if payload.Obj? && |payload.fields| <= MAX_TRIM_FIELDS then TruncateFields(payload.fields, max, total, text) else None;
    if trimmed.Some? && IsValidEvent(t, trimmed.value) then trimmed else None
  }

  function SkeletonTier(payload: Json, max: int, t: EventType, text: Text, total: nat): Json
  {
    var preview := Prefix(text, PREVIEW_CHARS);
    var skeleton := if payload.Obj? && t != Unknown then Skeleton(payload.fields, t, max, total, preview, ATTEMPTS) else None;
    if skeleton.Some? then skeleton.value else Marker(total, preview)
  }

  const UNSERIALIZABLE := Ascii("[unserializable payload]")

  function SerializeUnserializable(payload: Json, max: int, t: EventType): Json
  {
    if !payload.Obj? then Marker(0, UNSERIALIZABLE)
    else
      var trimmed := TruncateUnserializable(payload.fields);
      if t == Unknown then if trimmed.Some? then Obj(trimmed.value) else Marker(0, UNSERIALIZABLE)
      else
        var fitted := if trimmed.Some? then FitUnserializable(trimmed.value, max, t) else None;
        if fitted.Some? then fitted.value
        else
          var skeleton := Skeleton(payload.fields, t, max, 0, UNSERIALIZABLE, ATTEMPTS);
          if skeleton.Some? then skeleton.value else Marker(0, UNSERIALIZABLE)
  }

  function FitUnserializable(fs: seq<Field>, max: int, t: EventType): Option<Json>
  {
    var text := Print(Obj(fs));
    var size := Utf8Length(text);
    var fitted := if size > max && |fs| <= MAX_TRIM_FIELDS then TruncateFields(fs, max, size, text) else None;
    if size <= max && IsValidEvent(t, Obj(fs)) then Some(Obj(fs))
    else if fitted.Some? && IsValidEvent(t, fitted.value) then fitted
    else None
  }
}
