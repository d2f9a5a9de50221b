/**
 The promises of the payload budget.

 `SerializeWithinBudget`: a valid payload of a known type stays valid and comes
 within any budget of 4096 bytes or more. `SerializeIdempotent`: from 16384
 bytes on, exactly when a result fed back in comes back unchanged.
 */
module Budget {
  import opened Utf16
  import opened Json
  import opened JsNumber
  import opened Schema
  import opened ShrinkSpec

  // ---- dictionary updates ----

  lemma {:induction false} GetSetKey(fs: seq<Field>, key: Text, v: Json, k: Text)
    ensures Get(SetKey(fs, key, v), k) == if k == key then Some(v) else Get(fs, k)
  {
    if fs != [] && fs[0].key != key {
      GetSetKey(fs[1..], key, v, k);
    }
  }

  lemma {:induction false} GetAppend(a: seq<Field>, b: seq<Field>, k: Text)
    ensures Get(a + b, k) == if HasKey(a, k) then Get(a, k) else Get(b, k)
  {
    if a == [] {
      assert a + b == b;
    } else {
      assert (a + b)[1..] == a[1..] + b;
      GetAppend(a[1..], b, k);
      if a[0].key != k {
        assert HasKey(a, k) <==> HasKey(a[1..], k) by {
          assert forall i | 0 < i < |a| :: a[i] == a[1..][i - 1];
          assert forall i | 0 <= i < |a[1..]| :: a[1..][i] == a[i + 1];
        }
      }
    }
  }

  lemma {:induction false} SetKeyMembers(fs: seq<Field>, key: Text, v: Json, g: Field)
    ensures g in SetKey(fs, key, v) ==> g == Field(key, v) || g in fs
  {
    if fs != [] && fs[0].key != key {
      SetKeyMembers(fs[1..], key, v, g);
    }
  }

  lemma SetKeySerializable(fs: seq<Field>, key: Text, v: Json)
    requires Serializable(Obj(fs)) && Serializable(v)
    ensures Serializable(Obj(SetKey(fs, key, v)))
  {
    var r := SetKey(fs, key, v);
    forall i | 0 <= i < |r| ensures Serializable(r[i].value) {
      SetKeyMembers(fs, key, v, r[i]);
    }
  }

  // ---- byte bounds ----

  /** An upper bound on the UTF-8 bytes of a value's text: no unit takes more than six. */
  function Bound(j: Json): nat
    decreases j, 0
  {
    match j
    case Null => 4
    case NonFinite => 4
    case Bool(_) => 5
    case Number(token) => 3 * |token|
    case Str(text) => 6 * |text| + 2
    case Opaque => 0
    case Arr(items) => 2 + ItemsBound(items)
    case Obj(fields) => 2 + FieldsBound(fields)
  }

  function ItemsBound(items: seq<Json>): nat
    decreases items, 0
  {
    if items == [] then 0 else Bound(items[0]) + 1 + ItemsBound(items[1..])
  }

  function FieldsBound(fs: seq<Field>): nat
    decreases fs, 0
  {
    if fs == [] then 0 else 6 * |fs[0].key| + 4 + Bound(fs[0].value) + FieldsBound(fs[1..])
  }

  lemma {:induction false} FieldsBoundAppend(a: seq<Field>, b: seq<Field>)
    ensures FieldsBound(a + b) == FieldsBound(a) + FieldsBound(b)
  {
    if a == [] {
      assert a + b == b;
    } else {
      assert (a + b)[1..] == a[1..] + b;
      FieldsBoundAppend(a[1..], b);
    }
  }

  lemma AsciiBytes(t: Text)
    requires forall i | 0 <= i < |t| :: t[i] < 0x80
    ensures Utf8Length(t) == |t|
  {
    Utf8LengthOfAscii(t);
  }

  lemma JoinBytes(a: Text, b: Text, m: nat, n: nat)
    requires Utf8Length(a) <= m && Utf8Length(b) <= n
    ensures Utf8Length(a + b) <= m + n
  {
    Utf8LengthSubadditive(a, b);
  }

  lemma {:induction false} QuoteBodyBytes(t: Text)
    ensures Utf8Length(QuoteBody(t)) <= 6 * |t|
    decreases |t|
  {
    if t == [] {
    } else if StartsWithPair(t) {
      QuoteBodyBytes(t[2..]);
      Utf8LengthAtMostTriple([t[0], t[1]]);
      JoinBytes([t[0], t[1]], QuoteBody(t[2..]), 6, 6 * |t[2..]|);
    } else {
      QuoteBodyBytes(t[1..]);
      EscapeBytes(t[0]);
      JoinBytes(EscapeUnit(t[0]), QuoteBody(t[1..]), 6, 6 * |t[1..]|);
    }
  }

  lemma EscapeBytes(u: Unit)
    ensures Utf8Length(EscapeUnit(u)) <= 6
  {
    var e := EscapeUnit(u);
    if |e| == 1 {
      Utf8LengthAtMostTriple(e);
    } else {
      AsciiBytes(e);
    }
  }

  lemma QuoteBytes(t: Text)
    ensures Utf8Length(Quote(t)) <= 6 * |t| + 2
  {
    QuoteBodyBytes(t);
    AsciiBytes([QUOTE]);
    JoinBytes([QUOTE], QuoteBody(t), 1, 6 * |t|);
    JoinBytes([QUOTE] + QuoteBody(t), [QUOTE], 6 * |t| + 1, 1);
  }

  lemma {:induction false} PrintBytes(j: Json)
    ensures Utf8Length(Print(j)) <= Bound(j)
    decreases j, 0
  {
    match j
    case Number(token) => Utf8LengthAtMostTriple(token);
    case Str(text) => QuoteBytes(text);
    case Arr(items) =>
      AsciiBytes([LBRACKET]);
      if items == [] {
        AsciiBytes([LBRACKET, RBRACKET]);
      } else {
        PrintBytes(items[0]);
        ItemsTailBytes(items[1..]);
        JoinBytes([LBRACKET], Print(items[0]), 1, Bound(items[0]));
        JoinBytes([LBRACKET] + Print(items[0]), ItemsTail(items[1..]), 1 + Bound(items[0]), 1 + ItemsBound(items[1..]));
      }
    case Obj(fields) =>
      AsciiBytes([LBRACE]);
      if fields == [] {
        AsciiBytes([LBRACE, RBRACE]);
      } else {
        var head := 6 * |fields[0].key| + 3 + Bound(fields[0].value);
        FieldBytes(fields[0]);
        FieldsTailBytes(fields[1..]);
        JoinBytes([LBRACE], PrintField(fields[0]), 1, head);
        JoinBytes([LBRACE] + PrintField(fields[0]), FieldsTail(fields[1..]), 1 + head, 1 + FieldsBound(fields[1..]));
      }
    case Bool(b) => AsciiBytes(if b then TRUE_TEXT else FALSE_TEXT);
    case Opaque =>
    case _ => AsciiBytes(NULL_TEXT);
  }

  lemma {:induction false} ItemsTailBytes(items: seq<Json>)
    ensures Utf8Length(ItemsTail(items)) <= 1 + ItemsBound(items)
    decreases items, 0
  {
    AsciiBytes([COMMA]);
    if items == [] {
      AsciiBytes([RBRACKET]);
    } else {
      PrintBytes(items[0]);
      ItemsTailBytes(items[1..]);
      JoinBytes([COMMA], Print(items[0]), 1, Bound(items[0]));
      JoinBytes([COMMA] + Print(items[0]), ItemsTail(items[1..]), 1 + Bound(items[0]), 1 + ItemsBound(items[1..]));
    }
  }

  lemma {:induction false} FieldBytes(f: Field)
    ensures Utf8Length(PrintField(f)) <= 6 * |f.key| + 3 + Bound(f.value)
    decreases f, 1
  {
    QuoteBytes(f.key);
    AsciiBytes([COLON]);
    PrintBytes(f.value);
    JoinBytes(Quote(f.key), [COLON], 6 * |f.key| + 2, 1);
    JoinBytes(Quote(f.key) + [COLON], Print(f.value), 6 * |f.key| + 3, Bound(f.value));
  }

  lemma {:induction false} FieldsTailBytes(fs: seq<Field>)
    ensures Utf8Length(FieldsTail(fs)) <= 1 + FieldsBound(fs)
    decreases fs, 0
  {
    AsciiBytes([COMMA]);
    if fs == [] {
      AsciiBytes([RBRACE]);
    } else {
      var head := 6 * |fs[0].key| + 3 + Bound(fs[0].value);
      FieldBytes(fs[0]);
      FieldsTailBytes(fs[1..]);
      JoinBytes([COMMA], PrintField(fs[0]), 1, head);
      JoinBytes([COMMA] + PrintField(fs[0]), FieldsTail(fs[1..]), 1 + head, 1 + FieldsBound(fs[1..]));
    }
  }

  /** A payload whose text a machine can hold: its byte count is a safe integer. */
  predicate Measurable(payload: Json) { Serializable(payload) ==> Utf8Length(Print(payload)) <= MAX_SAFE_INTEGER }

  lemma CountBound(n: nat)
    requires n <= MAX_SAFE_INTEGER
    ensures Bound(Count(n)) <= 48
  {
    assert Power10(4) == 10000 && Power10(8) == 100000000 && Power10(12) == 1000000000000 by {
      assert Power10(2) == 100 && Power10(6) == 1000000 && Power10(10) == 10000000000;
    }
    assert Power10(14) == 100000000000000;
    NatDigitsLength(n, 16);
  }

  lemma ThreeFieldsBound(fs: seq<Field>)
    requires |fs| == 3
    ensures FieldsBound(fs) ==
            (6 * |fs[0].key| + 4 + Bound(fs[0].value)) + (6 * |fs[1].key| + 4 + Bound(fs[1].value))
            + (6 * |fs[2].key| + 4 + Bound(fs[2].value))
  {
    assert fs[1..][1..] == fs[2..] && fs[2..][1..] == [];
    assert FieldsBound(fs[2..]) == 6 * |fs[2].key| + 4 + Bound(fs[2].value);
    assert FieldsBound(fs[1..]) == 6 * |fs[1].key| + 4 + Bound(fs[1].value) + FieldsBound(fs[2..]);
  }

  lemma MarkerBound(bytes: nat, preview: Text)
    requires bytes <= MAX_SAFE_INTEGER
    ensures Bound(Marker(bytes, preview)) <= 261 + 6 * |preview|
    ensures Serializable(Marker(bytes, preview))
  {
    CountBound(bytes);
    var fs := Marker(bytes, preview).fields;
    ThreeFieldsBound(fs);
  }

  // ---- the skeleton is within its weight ----

  const LEAF_WEIGHT := 332

  function EntryWeight(e: Entry): nat
    decreases e, 0
  {
    6 * |e.key| + 4 + LEAF_WEIGHT + if e.Nested? then 2 + PlanWeight(e.plan) else 0
  }

  function PlanWeight(plan: seq<Entry>): nat
    decreases plan, 1
  {
    if plan == [] then 0 else EntryWeight(plan[0]) + PlanWeight(plan[1..])
  }

  lemma HardShrinkBound(v: Json)
    requires Shaped(v)
    ensures Bound(HardShrink(v, SKELETON_MIN_CHARS).0) <= LEAF_WEIGHT && Serializable(HardShrink(v, SKELETON_MIN_CHARS).0)
  {
    match v
    case Obj(_) => MarkerBound(0, Ascii("[omitted]"));
    case Opaque => MarkerBound(0, Ascii("[omitted]"));
    case _ =>
  }

  lemma {:induction false} KeptBound(fs: seq<Field>, plan: seq<Entry>)
    requires Shaped(Obj(fs))
    ensures var out := KeptFields(KeepPlanned(fs, plan, SKELETON_MIN_CHARS));
            FieldsBound(out) <= PlanWeight(plan) && Serializable(Obj(out))
    decreases plan
  {
    if plan != [] {
      KeptBound(fs, plan[1..]);
      var kept := KeepPlanned(fs, plan, SKELETON_MIN_CHARS);
      var rest := KeepPlanned(fs, plan[1..], SKELETON_MIN_CHARS);
      if kept != rest {
        var v := Get(fs, plan[0].key).value;
        KeptEntryBound(plan[0], v);
        assert KeptFields(kept) == [kept[0].field] + KeptFields(rest);
      }
    }
  }

  lemma {:induction false} KeptEntryBound(e: Entry, v: Json)
    requires Shaped(v)
    ensures var r := KeepEntry(e, v, SKELETON_MIN_CHARS).0;
            6 * |e.key| + 4 + Bound(r) <= EntryWeight(e) && Serializable(r)
    decreases e
  {
    if e.Nested? && v.Obj? {
      KeptBound(v.fields, e.plan);
    } else {
      HardShrinkBound(v);
    }
  }

  // ---- the skeleton is valid ----

  lemma {:induction false} GetKept(fs: seq<Field>, plan: seq<Entry>, chars: nat, j: nat)
    requires DistinctKeys(plan) && j < |plan|
    ensures var v := Get(fs, plan[j].key);
            Get(KeptFields(KeepPlanned(fs, plan, chars)), plan[j].key) ==
            if v.None? || Skips(plan[j], v.value) then None else Some(KeepEntry(plan[j], v.value, chars).0)
  {
    var kept := KeepPlanned(fs, plan, chars);
    var rest := KeepPlanned(fs, plan[1..], chars);
    if kept != rest {
      assert KeptFields(kept) == [kept[0].field] + KeptFields(rest);
    }
    if j == 0 {
      GetUnplanned(fs, plan[1..], chars, plan[0].key);
    } else {
      GetKept(fs, plan[1..], chars, j - 1);
    }
  }

  lemma {:induction false} GetUnplanned(fs: seq<Field>, plan: seq<Entry>, chars: nat, key: Text)
    requires forall i | 0 <= i < |plan| :: plan[i].key != key
    ensures Get(KeptFields(KeepPlanned(fs, plan, chars)), key) == None
  {
    if plan != [] {
      GetUnplanned(fs, plan[1..], chars, key);
      var kept := KeepPlanned(fs, plan, chars);
      var rest := KeepPlanned(fs, plan[1..], chars);
      if kept != rest {
        assert KeptFields(kept) == [kept[0].field] + KeptFields(rest);
      }
    }
  }

  /** A leaf that a rule without a record accepts is still accepted once shrunk. */
  lemma LeafStaysValid(check: Check, v: Json, chars: nat)
    requires Valid(check, v) && CutSafe(check) && chars >= SHORTEST_CUT
    requires !v.Obj? && !v.Opaque? && !check.Anything?
    ensures Valid(check, HardShrink(v, chars).0)
  {
  }

  lemma {:induction false} KeptValid(fs: seq<Field>, plan: seq<Entry>, rules: seq<Rule>, chars: nat)
    requires Fits(plan, rules) && Valid(Record(rules), Obj(fs)) && chars >= SHORTEST_CUT
    ensures Valid(Record(rules), Obj(KeptFields(KeepPlanned(fs, plan, chars))))
    decreases plan
  {
    var out := KeptFields(KeepPlanned(fs, plan, chars));
    forall i | 0 <= i < |rules| ensures Obeys(rules[i], out) {
      assert Keeps(plan, rules[i]);
      var j :| 0 <= j < |plan| && FitsRule(plan[j], rules[i]);
      GetKept(fs, plan, chars, j);
      assert Obeys(rules[i], fs);
      if Get(fs, plan[j].key).Some? && !Skips(plan[j], Get(fs, plan[j].key).value) {
        EntryStaysValid(plan[j], rules[i], fs, chars);
      }
    }
  }

  lemma {:induction false} EntryStaysValid(e: Entry, rule: Rule, fs: seq<Field>, chars: nat)
    requires FitsRule(e, rule) && Obeys(rule, fs) && chars >= SHORTEST_CUT
    requires Get(fs, e.key).Some? && !Skips(e, Get(fs, e.key).value)
    ensures Valid(rule.check, KeepEntry(e, Get(fs, e.key).value, chars).0)
    decreases e
  {
    var v := Get(fs, e.key).value;
    if e.Nested? {
      KeptValid(v.fields, e.plan, rule.check.rules, chars);
    } else if rule.check.Anything? {
    } else {
      assert Valid(rule.check, v);
      LeafStaysValid(rule.check, v, chars);
    }
  }

  lemma MarkersKeepValid(fs: seq<Field>, marks: seq<Field>, rules: seq<Rule>)
    requires Valid(Record(rules), Obj(fs))
    requires forall i, m | 0 <= i < |rules| && 0 <= m < |marks| :: rules[i].key != marks[m].key
    ensures Valid(Record(rules), Obj(fs + marks))
  {
    forall i | 0 <= i < |rules| ensures Obeys(rules[i], fs + marks) {
      assert Obeys(rules[i], fs);
      GetAppend(fs, marks, rules[i].key);
    }
  }

  // ---- every plan fits its schema ----

  lemma KeptAt(plan: seq<Entry>, rule: Rule, j: nat)
    requires j < |plan| && FitsRule(plan[j], rule)
    ensures Keeps(plan, rule)
  {
  }

  lemma FitsRules(plan: seq<Entry>, rules: seq<Rule>, at: seq<nat>)
    requires DistinctKeys(plan) && |at| == |rules|
    requires forall i | 0 <= i < |rules| :: at[i] < |plan| && FitsRule(plan[at[i]], rules[i])
    ensures Fits(plan, rules)
  {
    hide Keeps, FitsRule;
    forall i | 0 <= i < |rules| ensures Keeps(plan, rules[i]) {
      KeptAt(plan, rules[i], at[i]);
    }
  }

  predicate NoMarkerKey(rules: seq<Rule>)
  {
    forall i, m | 0 <= i < |rules| && 0 <= m < |MARKER_KEYS| :: rules[i].key != MARKER_KEYS[m]
  }

  lemma NestedPlansFit()
    ensures Fits([Keep(NAME), Keep(VERSION)], SDK_INFO.rules)
    ensures Fits([Keep(NAME), Keep(MESSAGE), Optional(STACK)], ERROR_INFO.rules)
  {
    FitsRules([Keep(NAME), Keep(VERSION)], SDK_INFO.rules, [0, 1]);
    FitsRules([Keep(NAME), Keep(MESSAGE), Optional(STACK)], ERROR_INFO.rules, [0, 1, 2]);
  }

  // Keys of one length within a plan start differently.

  lemma RunPlansFit(t: EventType)
    requires t.RunStarted? || t.RunFinished? || t.GraphHint?
    ensures Fits(Plan(t), Rules(t))
  {
    NestedPlansFit();
    match t
    case RunStarted =>
      assert APP[0] != SDK[0];
      FitsRules(Plan(t), Rules(t), [0, 1, 2]);
    case RunFinished =>
      FitsRules(Plan(t), Rules(t), [0, 1]);
    case GraphHint =>
      FitsRules(Plan(t), Rules(t), [0]);
  }

  lemma NodeStartedPlanFits(t: EventType)
    requires t.NodeStarted?
    ensures Fits(Plan(t), Rules(t))
  {
    hide DistinctKeys, NODE_KINDS;
    NodeStartedKeys();
    FitsRules(Plan(t), Rules(t), [0, 1, 2, 3, 4, 6, 7]);
  }

  lemma NodeStartedKeys()
    ensures DistinctKeys(Plan(NodeStarted))
    ensures CutSafe(OneOf(NODE_KINDS))
  {
    assert NAME[0] != KIND[0] && COLLAPSED[0] != REDACTION[0];
  }

  lemma NodeTokenPlanFits(t: EventType)
    requires t.NodeToken?
    ensures Fits(Plan(t), Rules(t))
  {
    assert NODE_ID[0] != DELTAS[0];
    FitsRules(Plan(t), Rules(t), [0, 1, 2]);
  }

  lemma NodeFinishedKeys()
    ensures DistinctKeys(Plan(NodeFinished))
  {
    assert NODE_ID[0] != OUTPUT[0] && NODE_ID[0] != HELD_MS[0] && NODE_ID[0] != STATUS[0] && OUTPUT[0] != HELD_MS[0];
    assert OUTPUT[0] != STATUS[0] && HELD_MS[0] != STATUS[0] && INSTANCE_ID[0] != DURATION_MS[0];
  }

  lemma NodeEndPlansFit(t: EventType)
    requires t.NodeFinished?
    ensures Fits(Plan(t), Rules(t))
  {
    hide DistinctKeys;
    NodeFinishedKeys();
    FitsRules(Plan(t), Rules(t), [0, 1, 3, 4, 5, 6, 7]);
  }

  lemma NodeErrorPlanFits(t: EventType)
    requires t.NodeError?
    ensures Fits(Plan(t), Rules(t))
  {
    NestedPlansFit();
    assert NODE_ID[0] != HELD_MS[0];
    FitsRules(Plan(t), Rules(t), [0, 1, 2, 3]);
  }

  lemma PausedKeys()
    ensures DistinctKeys(Plan(ExecPaused))
  {
    assert NODE_ID[0] != REASON[0] && POINT[0] != SMART[0];
  }

  lemma PausedPlanFits(t: EventType)
    requires t.ExecPaused?
    ensures Fits(Plan(t), Rules(t))
  {
    hide DistinctKeys;
    PausedKeys();
    FitsRules(Plan(t), Rules(t), [0, 1, 2, 3, 4, 5, 6, 7]);
  }

  lemma RefusedPlanFits(t: EventType)
    requires t.ExecRefused?
    ensures Fits(Plan(t), Rules(t))
  {
    assert PAUSE_ID[0] != MESSAGE[0];
    FitsRules(Plan(t), Rules(t), [0, 1, 2, 3]);
  }

  lemma ResumedPlanFits(t: EventType)
    requires t.ExecResumed?
    ensures Fits(Plan(t), Rules(t))
  {
    assert ACTION[0] != EDITED[0] && REQUEST_ID[0] != PRINCIPAL[0];
    FitsRules(Plan(t), Rules(t), [0, 1, 2, 3, 4]);
  }

  /** Every plan keeps what its schema requires, in a form the schema still accepts. */
  lemma PlansFit(t: EventType)
    requires t != Unknown
    ensures Fits(Plan(t), Rules(t))
  {
    match t
    case RunStarted | RunFinished | GraphHint => RunPlansFit(t);
    case NodeStarted => NodeStartedPlanFits(t);
    case NodeToken => NodeTokenPlanFits(t);
    case NodeFinished => NodeEndPlansFit(t);
    case NodeError => NodeErrorPlanFits(t);
    case ExecPaused => PausedPlanFits(t);
    case ExecRefused => RefusedPlanFits(t);
    case ExecResumed => ResumedPlanFits(t);
  }

  /** No key like this is __graphmindTruncated, bytes, preview or fields: its head differs. */
  predicate UnlikeMarker(key: Text)
  {
    && key != [] && key[0] != '_' as int && key[0] != 'b' as int && key[0] != 'f' as int
    && (key[0] == 'p' as int ==> |key| != 7 || key[1] == 'a' as int)
  }

  lemma UnlikeMarkers(key: Text)
    requires UnlikeMarker(key)
    ensures forall m | 0 <= m < |MARKER_KEYS| :: key != MARKER_KEYS[m]
  {
    assert TRUNCATED[0] == '_' as int && BYTES[0] == 'b' as int && FIELDS[0] == 'f' as int;
    assert PREVIEW[0] == 'p' as int && PREVIEW[1] == 'r' as int;
  }

  predicate UnlikeAll(rules: seq<Rule>) { forall i | 0 <= i < |rules| :: UnlikeMarker(rules[i].key) }

  lemma RunRulesUnlike(t: EventType)
    requires t.RunStarted? || t.RunFinished? || t.GraphHint? || t.NodeError?
    ensures UnlikeAll(Rules(t))
  {
  }

  lemma NodeRulesUnlike(t: EventType)
    requires t.NodeStarted? || t.NodeToken? || t.NodeFinished?
    ensures UnlikeAll(Rules(t))
  {
  }

  lemma ExecRulesUnlike(t: EventType)
    requires t.ExecPaused? || t.ExecRefused? || t.ExecResumed?
    ensures UnlikeAll(Rules(t))
  {
  }

  lemma RulesAvoidMarkers(t: EventType)
    requires t != Unknown
    ensures NoMarkerKey(Rules(t))
  {
    hide Rules, UnlikeMarker;
    match t {
      case RunStarted | RunFinished | GraphHint | NodeError => RunRulesUnlike(t);
      case NodeStarted | NodeToken | NodeFinished => NodeRulesUnlike(t);
      case _ => ExecRulesUnlike(t);
    }
    forall i | 0 <= i < |Rules(t)| {
      UnlikeMarkers(Rules(t)[i].key);
    }
  }

  lemma {:induction false} FlatPlanWeight(plan: seq<Entry>)
    requires forall i | 0 <= i < |plan| :: !plan[i].Nested? && |plan[i].key| <= 10
    ensures PlanWeight(plan) <= 396 * |plan|
  {
    if plan != [] {
      FlatPlanWeight(plan[1..]);
    }
  }

  /** One nested entry among flat ones. */
  lemma NestedPlanWeight(plan: seq<Entry>, j: nat)
    requires j < |plan| && plan[j].Nested? && |plan[j].key| <= 10
    requires forall i | 0 <= i < |plan| && i != j :: !plan[i].Nested? && |plan[i].key| <= 10
    requires forall i | 0 <= i < |plan[j].plan| :: !plan[j].plan[i].Nested? && |plan[j].plan[i].key| <= 10
    ensures PlanWeight(plan) <= 396 * (|plan| + |plan[j].plan|) + 2
  {
    if j == 0 {
      FlatPlanWeight(plan[1..]);
      FlatPlanWeight(plan[0].plan);
    } else {
      NestedPlanWeight(plan[1..], j - 1);
    }
  }

  lemma PlanWeights(t: EventType)
    requires t != Unknown
    ensures PlanWeight(Plan(t)) <= 3600
  {
    hide PlanWeight;
    if t.RunStarted? {
      NestedPlanWeight(Plan(t), 1);
    } else if t.NodeError? {
      NestedPlanWeight(Plan(t), 2);
    } else {
      FlatPlanWeight(Plan(t));
    }
  }

  // ---- the main results ----

  lemma SmallestSkeletonValid(fs: seq<Field>, plan: seq<Entry>, rules: seq<Rule>, marks: seq<Field>)
    requires Fits(plan, rules) && NoMarkerKey(rules) && Valid(Record(rules), Obj(fs))
    requires forall m | 0 <= m < |marks| :: marks[m].key in MARKER_KEYS
    ensures Valid(Record(rules), Obj(KeptFields(KeepPlanned(fs, plan, SKELETON_MIN_CHARS)) + marks))
  {
    KeptValid(fs, plan, rules, SKELETON_MIN_CHARS);
    MarkersKeepValid(KeptFields(KeepPlanned(fs, plan, SKELETON_MIN_CHARS)), marks, rules);
  }

  lemma SmallestSkeletonBytes(fs: seq<Field>, plan: seq<Entry>, total: nat, max: int)
    requires Shaped(Obj(fs)) && PlanWeight(plan) <= 3600 && total <= MAX_SAFE_INTEGER && max >= 4096
    ensures FitsBudget(Obj(KeptFields(KeepPlanned(fs, plan, SKELETON_MIN_CHARS)) + Marker(total, []).fields), max)
  {
    var out := KeptFields(KeepPlanned(fs, plan, SKELETON_MIN_CHARS));
    var marks := Marker(total, []).fields;
    KeptBound(fs, plan);
    MarkerBound(total, []);
    FieldsBoundAppend(out, marks);
    PrintBytes(Obj(out + marks));
  }

  /** The smallest skeleton of a valid payload is valid and within 4096 bytes. */
  lemma SmallestSkeletonFits(fs: seq<Field>, t: EventType, max: int, total: nat, preview: Text)
    requires t != Unknown && Shaped(Obj(fs)) && IsValidEvent(t, Obj(fs)) && max >= 4096 && total <= MAX_SAFE_INTEGER
    ensures AttemptFits(fs, t, max, total, preview, SKELETON_MIN_CHARS, false)
  {
    var out := KeptFields(KeepPlanned(fs, Plan(t), SKELETON_MIN_CHARS));
    var marks := Marker(total, []).fields;
    assert marks + [] == marks;
    assert SkeletonForm(fs, Plan(t), total, preview, SKELETON_MIN_CHARS, false) == Obj(out + marks);
    PlansFit(t);
    RulesAvoidMarkers(t);
    SmallestSkeletonValid(fs, Plan(t), Rules(t), marks);
    PlanWeights(t);
    SmallestSkeletonBytes(fs, Plan(t), total, max);
  }

  lemma {:induction false} SkeletonFits(fs: seq<Field>, t: EventType, max: int, total: nat, preview: Text, attempts: seq<(nat, bool)>)
    requires t != Unknown
    ensures var r := Skeleton(fs, t, max, total, preview, attempts);
            r.Some? ==> FitsBudget(r.value, max) && IsValidEvent(t, r.value)
  {
    if attempts != [] {
      SkeletonFits(fs, t, max, total, preview, attempts[1..]);
    }
  }

  lemma {:induction false} SkeletonFound(fs: seq<Field>, t: EventType, max: int, total: nat, preview: Text, attempts: seq<(nat, bool)>, i: nat)
    requires t != Unknown && i < |attempts| && AttemptFits(fs, t, max, total, preview, attempts[i].0, attempts[i].1)
    ensures Skeleton(fs, t, max, total, preview, attempts).Some?
  {
    if i > 0 {
      SkeletonFound(fs, t, max, total, preview, attempts[1..], i - 1);
    }
  }

  /** For a valid payload of a known type the skeleton never fails. */
  lemma SkeletonOfValid(fs: seq<Field>, t: EventType, max: int, total: nat, preview: Text)
    requires t != Unknown && Shaped(Obj(fs)) && IsValidEvent(t, Obj(fs)) && max >= 4096 && total <= MAX_SAFE_INTEGER
    ensures var r := Skeleton(fs, t, max, total, preview, ATTEMPTS);
            r.Some? && FitsBudget(r.value, max) && IsValidEvent(t, r.value)
  {
    SmallestSkeletonFits(fs, t, max, total, preview);
    SkeletonFound(fs, t, max, total, preview, ATTEMPTS, 2);
    SkeletonFits(fs, t, max, total, preview, ATTEMPTS);
  }

  lemma TruncatedFits(fs: seq<Field>, max: int, total: nat, text: Text)
    ensures var r := TruncateFields(fs, max, total, text); r.Some? ==> FitsBudget(r.value, max)
  {
    hide FitsBudget, TrimKeys, AddMarker, DroppedKeys;
  }

  predicate Acceptable(j: Json, max: int, t: EventType) { FitsBudget(j, max) && IsValidEvent(t, j) }

  lemma DegradeAcceptable(payload: Json, max: int, t: EventType, text: Text, total: nat)
    requires t != Unknown && payload.Obj?
    requires var r := Skeleton(payload.fields, t, max, total, Prefix(text, PREVIEW_CHARS), ATTEMPTS);
             r.Some? && Acceptable(r.value, max, t)
    ensures Acceptable(Degrade(payload, max, t, text, total), max, t)
  {
    hide Skeleton, TruncateFields, FitsBudget, Marker, IsValidEvent, Prefix;
    if |payload.fields| <= MAX_TRIM_FIELDS {
      TruncatedFits(payload.fields, max, total, text);
    }
  }

  lemma FittedAcceptable(fs: seq<Field>, max: int, t: EventType)
    requires t != Unknown
    ensures var trimmed := TruncateUnserializable(fs);
            trimmed.Some? ==>
              var r := FitUnserializable(trimmed.value, max, t); r.Some? ==> Acceptable(r.value, max, t)
  {
    hide IsValidEvent, TruncateUnserializable, TruncateFields, Print;
    TrimmedSerializable(fs);
    var trimmed := TruncateUnserializable(fs);
    if trimmed.Some? {
      var text := Print(Obj(trimmed.value));
      TruncatedFits(trimmed.value, max, Utf8Length(text), text);
    }
  }

  lemma UnserializableAcceptable(payload: Json, max: int, t: EventType)
    requires t != Unknown && payload.Obj?
    requires var r := Skeleton(payload.fields, t, max, 0, UNSERIALIZABLE, ATTEMPTS); r.Some? && Acceptable(r.value, max, t)
    ensures Acceptable(SerializeUnserializable(payload, max, t), max, t)
  {
    hide Skeleton, FitUnserializable, FitsBudget, Marker, IsValidEvent, TruncateUnserializable, UNSERIALIZABLE, ATTEMPTS;
    FittedAcceptable(payload.fields, max, t);
  }

  lemma ValidEventIsObject(payload: Json, t: EventType)
    requires t != Unknown && IsValidEvent(t, payload)
    ensures payload.Obj?
  {
    hide Rules;
  }

  /** A valid payload of a known type comes out valid and within the budget, host objects or not. */
  lemma SerializeWithinBudget(payload: Json, max: int, t: EventType)
    requires t != Unknown && Shaped(payload) && IsValidEvent(t, payload) && max >= 4096 && Measurable(payload)
    ensures Acceptable(Serialize(payload, max, t).payload, max, t)
  {
    hide Skeleton, Degrade, SerializeUnserializable, Valid, Prefix, Print, ATTEMPTS, UNSERIALIZABLE;
    ValidEventIsObject(payload, t);
    if Serializable(payload) {
      var text := Print(payload);
      SkeletonOfValid(payload.fields, t, max, Utf8Length(text), Prefix(text, PREVIEW_CHARS));
      DegradeAcceptable(payload, max, t, text, Utf8Length(text));
    } else {
      SkeletonOfValid(payload.fields, t, max, 0, UNSERIALIZABLE);
      UnserializableAcceptable(payload, max, t);
    }
  }

  lemma TextsSerializable(keys: seq<Text>)
    ensures Serializable(Texts(keys))
  {
  }

  lemma TrimmedSerializable(fs: seq<Field>)
    ensures var r := TruncateUnserializable(fs); r.Some? ==> Serializable(Obj(r.value))
  {
    var dropped := OpaqueKeys(fs);
    MarkerBound(0, Ascii("[unserializable value]"));
    assert Serializable(Obj(TrimOpaque(fs)));
    TextsSerializable(dropped);
    SetKeySerializable(TrimOpaque(fs), TRUNCATED, Bool(true));
    SetKeySerializable(SetKey(TrimOpaque(fs), TRUNCATED, Bool(true)), FIELDS, Texts(dropped));
  }

  // ---- idempotence ----

  /** A value comes back unchanged exactly when it has a JSON text within the budget. */
  lemma UnchangedExactly(payload: Json, max: int, t: EventType)
    ensures Serialize(payload, max, t) == Outcome(payload, false) <==> FitsBudget(payload, max)
  {
  }

  lemma PrefixLength(t: Text, n: nat)
    ensures |Prefix(t, n)| <= n
  {
  }

  lemma MarkerFits(total: nat, preview: Text, max: int)
    requires total <= MAX_SAFE_INTEGER && |preview| <= PREVIEW_CHARS && max >= 16384
    ensures FitsBudget(Marker(total, preview), max)
  {
    MarkerBound(total, preview);
    PrintBytes(Marker(total, preview));
  }

  lemma DegradeFits(payload: Json, max: int, t: EventType, text: Text, total: nat)
    requires max >= 16384 && total <= MAX_SAFE_INTEGER
    ensures FitsBudget(Degrade(payload, max, t, text, total), max)
  {
    hide Skeleton, TruncateFields, FitsBudget, Marker, IsValidEvent, Prefix;
    var preview := Prefix(text, PREVIEW_CHARS);
    PrefixLength(text, PREVIEW_CHARS);
    MarkerFits(total, preview, max);
    if payload.Obj? {
      TruncatedFits(payload.fields, max, total, text);
      if t != Unknown {
        SkeletonFits(payload.fields, t, max, total, preview, ATTEMPTS);
      }
    }
  }

  lemma UnserializableFits(payload: Json, max: int, t: EventType)
    requires max >= 16384 && t != Unknown
    ensures FitsBudget(SerializeUnserializable(payload, max, t), max)
  {
    hide Skeleton, FitUnserializable, FitsBudget, Marker, IsValidEvent, TruncateUnserializable, ATTEMPTS;
    MarkerFits(0, UNSERIALIZABLE, max);
    if payload.Obj? {
      FittedAcceptable(payload.fields, max, t);
      SkeletonFits(payload.fields, t, max, 0, UNSERIALIZABLE, ATTEMPTS);
    }
  }

  lemma {:induction false} OpaqueKeyFound(fs: seq<Field>, i: nat)
    requires i < |fs| && !Serializable(fs[i].value)
    ensures OpaqueKeys(fs) != []
  {
    if i > 0 {
      OpaqueKeyFound(fs[1..], i - 1);
    }
  }

  /** A payload with a host object has a field to trim. */
  lemma OpaqueTrimmed(fs: seq<Field>)
    requires !Serializable(Obj(fs))
    ensures TruncateUnserializable(fs).Some? && Serializable(Obj(TruncateUnserializable(fs).value))
  {
    var i :| 0 <= i < |fs| && !Serializable(fs[i].value);
    OpaqueKeyFound(fs, i);
    TrimmedSerializable(fs);
  }

  /** Host objects in a dictionary of an unknown type: it is returned trimmed, and its size is not checked. */
  predicate TrimmedUnchecked(payload: Json, t: EventType) { payload.Obj? && !Serializable(payload) && t == Unknown }

  /**
   From 16384 bytes on a result comes back unchanged exactly when it is not a
   trimmed dictionary of an unknown type that is still over the budget.
   */
  lemma SerializeIdempotent(payload: Json, max: int, t: EventType)
    requires max >= 16384 && Measurable(payload)
    ensures TrimmedUnchecked(payload, t) ==> TruncateUnserializable(payload.fields).Some?
    ensures var r := Serialize(payload, max, t).payload;
            var fits := TrimmedUnchecked(payload, t) ==> Utf8Length(Print(Obj(TruncateUnserializable(payload.fields).value))) <= max;
            (Serialize(r, max, t) == Outcome(r, false) <==> fits) && (FitsBudget(r, max) <==> fits)
  {
    hide Serializable, Print, TruncateUnserializable, Marker, Degrade, UNSERIALIZABLE;
    if Serializable(payload) {
      if Utf8Length(Print(payload)) > max {
        DegradeFits(payload, max, t, Print(payload), Utf8Length(Print(payload)));
      }
    } else if t != Unknown {
      UnserializableFits(payload, max, t);
    } else if payload.Obj? {
      OpaqueTrimmed(payload.fields);
    } else {
      UnserializableMarkerFits(max);
    }
    UnchangedExactly(Serialize(payload, max, t).payload, max, t);
  }

  lemma UnserializableMarkerFits(max: int)
    requires max >= 16384
    ensures FitsBudget(Marker(0, UNSERIALIZABLE), max)
  {
    MarkerFits(0, UNSERIALIZABLE, max);
  }
}
