/**
 The canonical JSON a loop fingerprint hashes.

 `Canon` walks a value as the guard does: ignored keys dropped, the remaining
 keys sorted by UTF-16 unit, containers below the depth limit replaced by a
 marker. `Equivalent` says, without any text or order, when two calls pass the
 same arguments, and `CanonicalCallExact` proves that the canonical strings are
 equal exactly then.
 */
module Canonical {
  import opened Utf16
  import opened Json

  const MAX_DEPTH := 64
  const DEPTH_MARKER: Text := [91, 100, 101, 112, 116, 104, 93]   // [depth]

  // ---- key order ----

  predicate KeyLess(a: Text, b: Text)
  {
    b != [] && (a == [] || a[0] < b[0] || (a[0] == b[0] && KeyLess(a[1..], b[1..])))
  }

  lemma {:induction false} KeyLessTotal(a: Text, b: Text)
    requires a != b
    ensures KeyLess(a, b) || KeyLess(b, a)
  {
    if a != [] && b != [] && a[0] == b[0] {
      assert a == [a[0]] + a[1..] && b == [b[0]] + b[1..];
      KeyLessTotal(a[1..], b[1..]);
    }
  }

  lemma {:induction false} KeyLessTransitive(a: Text, b: Text, c: Text)
    requires KeyLess(a, b) && KeyLess(b, c)
    ensures KeyLess(a, c)
  {
    if a != [] && a[0] == b[0] && b[0] == c[0] {
      KeyLessTransitive(a[1..], b[1..], c[1..]);
    }
  }

  lemma {:induction false} KeyLessIrreflexive(a: Text)
    ensures !KeyLess(a, a)
  {
    if a != [] {
      KeyLessIrreflexive(a[1..]);
    }
  }

  predicate Sorted(fs: seq<Field>) { forall i, j | 0 <= i < j < |fs| :: KeyLess(fs[i].key, fs[j].key) }

  function Insert(f: Field, fs: seq<Field>): (r: seq<Field>)
    ensures forall g :: g in r <==> g == f || g in fs
    ensures |r| == |fs| + 1
  {
    if fs == [] then [f]
    else if KeyLess(f.key, fs[0].key) then [f] + fs
    else [fs[0]] + Insert(f, fs[1..])
  }

  function Sort(fs: seq<Field>): (r: seq<Field>)
    ensures forall g :: g in r <==> g in fs
    ensures |r| == |fs|
  {
    if fs == [] then [] else Insert(fs[0], Sort(fs[1..]))
  }

  lemma {:induction false} InsertSorted(f: Field, fs: seq<Field>)
    requires Sorted(fs) && forall g | g in fs :: g.key != f.key
    ensures Sorted(Insert(f, fs))
  {
    if fs == [] {
    } else if KeyLess(f.key, fs[0].key) {
      forall j | 0 < j < |fs| ensures KeyLess(f.key, fs[j].key) {
        KeyLessTransitive(f.key, fs[0].key, fs[j].key);
      }
    } else {
      KeyLessTotal(f.key, fs[0].key);
      InsertSorted(f, fs[1..]);
      var r := Insert(f, fs[1..]);
      forall j | 0 <= j < |r| ensures KeyLess(fs[0].key, r[j].key) {
        assert r[j] in r;
        if r[j] != f {
          var i :| 0 <= i < |fs[1..]| && fs[1..][i] == r[j];
          assert fs[i + 1] == r[j];
        }
      }
    }
  }

  lemma {:induction false} SortSorted(fs: seq<Field>)
    requires UniqueKeys(fs)
    ensures Sorted(Sort(fs))
  {
    if fs != [] {
      SortSorted(fs[1..]);
      InsertSorted(fs[0], Sort(fs[1..]));
    }
  }

  /** A strictly sorted sequence is determined by the fields it holds. */
  lemma {:induction false} SortedUnique(a: seq<Field>, b: seq<Field>)
    requires Sorted(a) && Sorted(b)
    requires forall g :: g in a <==> g in b
    ensures a == b
  {
    assert b != [] ==> b[0] in b;
    if a != [] {
      assert a[0] in b;
      assert b[0] in a;
      if a[0] != b[0] {
        var i :| 0 <= i < |a| && a[i] == b[0];
        var j :| 0 <= j < |b| && b[j] == a[0];
        KeyLessTransitive(a[0].key, b[0].key, a[0].key);
        KeyLessIrreflexive(a[0].key);
      }
      forall g ensures g in a[1..] <==> g in b[1..] {
        TailMembers(a, g);
        TailMembers(b, g);
      }
      SortedUnique(a[1..], b[1..]);
      assert a == [a[0]] + a[1..] && b == [b[0]] + b[1..];
    }
  }

  lemma TailMembers(a: seq<Field>, g: Field)
    requires Sorted(a) && a != []
    ensures g in a[1..] <==> g in a && g != a[0]
  {
    KeyLessIrreflexive(a[0].key);
    if g in a && g != a[0] {
      var i :| 0 <= i < |a| && a[i] == g;
      assert a[1..][i - 1] == g;
    }
  }

  // ---- the canonical walk ----

  /** Fields whose key is not ignored, in their order. */
  function Kept(fs: seq<Field>, ignore: set<Text>): (r: seq<Field>)
    ensures forall g :: g in r <==> g in fs && g.key !in ignore
  {
    if fs == [] then []
    else if fs[0].key in ignore then Kept(fs[1..], ignore)
    else [fs[0]] + Kept(fs[1..], ignore)
  }

  function Canon(v: Json, ignore: set<Text>, depth: nat): Text
    decreases MAX_DEPTH + 1 - depth, 1, 0
  {
    if !v.Arr? && !v.Obj? then Print(v)
    else if depth > MAX_DEPTH then Quote(DEPTH_MARKER)
    else if v.Obj? then
      var entries := Sort(Kept(v.fields, ignore));
      [LBRACE] + CanonFields(entries, ignore, depth + 1) + [RBRACE]
    else [LBRACKET] + CanonItems(v.items, ignore, depth + 1) + [RBRACKET]
  }

  /** Values separated by commas. */
  function CanonItems(items: seq<Json>, ignore: set<Text>, depth: nat): Text
    decreases MAX_DEPTH + 1 - depth, 2, |items|
  {
    if items == [] then []
    else if |items| == 1 then Canon(items[0], ignore, depth)
    else Canon(items[0], ignore, depth) + [COMMA] + CanonItems(items[1..], ignore, depth)
  }

  function CanonField(f: Field, ignore: set<Text>, depth: nat): Text
    decreases MAX_DEPTH + 1 - depth, 2, 0
  {
    Quote(f.key) + [COLON] + Canon(f.value, ignore, depth)
  }

  function CanonFields(fs: seq<Field>, ignore: set<Text>, depth: nat): Text
    decreases MAX_DEPTH + 1 - depth, 3, |fs|
  {
    if fs == [] then []
    else if |fs| == 1 then CanonField(fs[0], ignore, depth)
    else CanonField(fs[0], ignore, depth) + [COMMA] + CanonFields(fs[1..], ignore, depth)
  }

  /** The string that is hashed for one call: [nodeId, input]. */
  function CanonicalCall(nodeId: Text, input: Json, ignore: set<Text>): Text
  {
    [LBRACKET] + Quote(nodeId) + [COMMA] + Canon(input, ignore, 0) + [RBRACKET]
  }

  // ---- what the walk means ----

  /** Levels of containers. */
  function Levels(v: Json): nat
    decreases v, 0
  {
    match v
    case Arr(items) => 1 + MaxLevels(items)
    case Obj(fields) => 1 + MaxFieldLevels(fields)
    case _ => 0
  }

  function MaxLevels(items: seq<Json>): (m: nat)
    ensures forall i | 0 <= i < |items| :: Levels(items[i]) <= m
    decreases items, 0
  {
    if items == [] then 0
    else
      var m := MaxLevels(items[1..]);
      assert forall i | 0 < i < |items| :: items[i] == items[1..][i - 1];
      if Levels(items[0]) > m then Levels(items[0]) else m
  }

  function MaxFieldLevels(fs: seq<Field>): (m: nat)
    ensures forall i | 0 <= i < |fs| :: Levels(fs[i].value) <= m
    decreases fs, 0
  {
    if fs == [] then 0
    else
      var m := MaxFieldLevels(fs[1..]);
      assert forall i | 0 < i < |fs| :: fs[i] == fs[1..][i - 1];
      if Levels(fs[0].value) > m then Levels(fs[0].value) else m
  }

  /** The two values pass the same arguments: equal up to key order and ignored keys. */
  ghost predicate Equivalent(a: Json, b: Json, ignore: set<Text>)
    decreases a
  {
    match a
    case Arr(xs) =>
      b.Arr? && |xs| == |b.items| && forall i | 0 <= i < |xs| :: Equivalent(xs[i], b.items[i], ignore)
    case Obj(fs) =>
      && b.Obj?
      && (forall i | 0 <= i < |fs| && fs[i].key !in ignore :: HasKey(b.fields, fs[i].key))
      && (forall j | 0 <= j < |b.fields| && b.fields[j].key !in ignore :: HasKey(fs, b.fields[j].key))
      && (forall i, j | 0 <= i < |fs| && 0 <= j < |b.fields| && fs[i].key == b.fields[j].key && fs[i].key !in ignore ::
            Equivalent(fs[i].value, b.fields[j].value, ignore))
    case _ => (if a.NonFinite? then Null else a) == (if b.NonFinite? then Null else b)
  }

  /** A value with ignored keys dropped and keys sorted at every level. */
  function Norm(v: Json, ignore: set<Text>): Json
    decreases v, 0
  {
    match v
    case NonFinite => Null
    case Arr(items) => Arr(NormItems(items, ignore))
    case Obj(fields) => Obj(Sort(NormFields(fields, ignore)))
    case _ => v
  }

  function NormItems(items: seq<Json>, ignore: set<Text>): (r: seq<Json>)
    ensures |r| == |items|
    ensures forall i | 0 <= i < |r| :: r[i] == Norm(items[i], ignore)
    decreases items, 0
  {
    if items == [] then [] else [Norm(items[0], ignore)] + NormItems(items[1..], ignore)
  }

  function NormFields(fs: seq<Field>, ignore: set<Text>): (r: seq<Field>)
    decreases fs, 0
  {
    if fs == [] then []
    else if fs[0].key in ignore then NormFields(fs[1..], ignore)
    else [Field(fs[0].key, Norm(fs[0].value, ignore))] + NormFields(fs[1..], ignore)
  }

  lemma {:induction false} NormFieldsMembers(fs: seq<Field>, ignore: set<Text>, g: Field)
    ensures g in NormFields(fs, ignore) <==>
            exists i | 0 <= i < |fs| :: fs[i].key !in ignore && g == Field(fs[i].key, Norm(fs[i].value, ignore))
  {
    if fs != [] {
      NormFieldsMembers(fs[1..], ignore, g);
      assert forall i | 0 < i < |fs| :: fs[i] == fs[1..][i - 1];
      assert forall i | 0 <= i < |fs[1..]| :: fs[1..][i] == fs[i + 1];
    }
  }

  lemma {:induction false} NormFieldsUnique(fs: seq<Field>, ignore: set<Text>)
    requires UniqueKeys(fs)
    ensures UniqueKeys(NormFields(fs, ignore))
  {
    if fs != [] {
      NormFieldsUnique(fs[1..], ignore);
      var r := NormFields(fs[1..], ignore);
      forall j | 0 <= j < |r| ensures r[j].key != fs[0].key {
        NormFieldsMembers(fs[1..], ignore, r[j]);
      }
    }
  }

  /** Sorting and rewriting the values commute. */
  lemma {:induction false} SortNormCommute(fs: seq<Field>, ignore: set<Text>)
    requires UniqueKeys(fs)
    ensures Sort(NormFields(fs, ignore)) == NormFields(Sort(Kept(fs, ignore)), ignore)
  {
    hide Sort, Norm, UniqueKeys;
    var a := Sort(NormFields(fs, ignore));
    var sorted := Sort(Kept(fs, ignore));
    var b := NormFields(sorted, ignore);
    NormFieldsUnique(fs, ignore);
    SortSorted(NormFields(fs, ignore));
    KeptUnique(fs, ignore);
    SortSorted(Kept(fs, ignore));
    NormFieldsOfKept(sorted, ignore);
    forall g ensures g in a <==> g in b {
      NormFieldsMembers(fs, ignore, g);
      NormFieldsMembers(sorted, ignore, g);
      if g in a {
        var i :| 0 <= i < |fs| && fs[i].key !in ignore && g == Field(fs[i].key, Norm(fs[i].value, ignore));
        assert fs[i] in sorted;
      }
      if g in b {
        var i :| 0 <= i < |sorted| && sorted[i].key !in ignore && g == Field(sorted[i].key, Norm(sorted[i].value, ignore));
        assert sorted[i] in fs;
      }
    }
    SortedUnique(a, b);
  }

  lemma {:induction false} KeptUnique(fs: seq<Field>, ignore: set<Text>)
    requires UniqueKeys(fs)
    ensures UniqueKeys(Kept(fs, ignore))
  {
    if fs != [] {
      KeptUnique(fs[1..], ignore);
      var r := Kept(fs[1..], ignore);
      forall j | 0 <= j < |r| ensures r[j].key != fs[0].key {
        assert r[j] in r && r[j] in fs[1..];
      }
    }
  }

  lemma {:induction false} NormFieldsOfKept(fs: seq<Field>, ignore: set<Text>)
    requires forall g | g in fs :: g.key !in ignore
    ensures |NormFields(fs, ignore)| == |fs|
    ensures forall i | 0 <= i < |fs| ::
              NormFields(fs, ignore)[i] == Field(fs[i].key, Norm(fs[i].value, ignore))
  {
    if fs != [] {
      assert fs[0] in fs;
      NormFieldsOfKept(fs[1..], ignore);
    }
  }

  // ---- the walk prints the normal form ----

  lemma CanonLeaf(v: Json, ignore: set<Text>, depth: nat)
    requires WellFormed(v) && !v.Arr? && !v.Obj? && depth <= MAX_DEPTH + 1
    ensures Canon(v, ignore, depth) == Print(Norm(v, ignore))
  {
  }

  lemma CanonArray(items: seq<Json>, ignore: set<Text>, depth: nat)
    requires depth <= MAX_DEPTH
    requires forall i | 0 <= i < |items| :: Canon(items[i], ignore, depth + 1) == Print(Norm(items[i], ignore))
    ensures Canon(Arr(items), ignore, depth) == Print(Norm(Arr(items), ignore))
  {
    hide Print, NormItems, CanonItems;
    CanonArrayIsPrint(items, ignore, depth + 1);
  }

  lemma CanonObject(fields: seq<Field>, ignore: set<Text>, depth: nat)
    requires depth <= MAX_DEPTH && UniqueKeys(fields)
    requires forall g | g in fields :: Canon(g.value, ignore, depth + 1) == Print(Norm(g.value, ignore))
    ensures Canon(Obj(fields), ignore, depth) == Print(Norm(Obj(fields), ignore))
  {
    hide Print, Sort, NormFields, CanonFields, UniqueKeys;
    SortNormCommute(fields, ignore);
    var sorted := Sort(Kept(fields, ignore));
    CanonObjectIsPrint(sorted, ignore, depth + 1);
  }

  lemma {:induction false} CanonIsPrint(v: Json, ignore: set<Text>, depth: nat)
    requires WellFormed(v) && depth + Levels(v) <= MAX_DEPTH + 1
    ensures Canon(v, ignore, depth) == Print(Norm(v, ignore))
    decreases v
  {
    hide Canon, Norm, Print;
    match v
    case Arr(items) =>
      forall i | 0 <= i < |items|
        ensures Canon(items[i], ignore, depth + 1) == Print(Norm(items[i], ignore))
      {
        CanonIsPrint(items[i], ignore, depth + 1);
      }
      CanonArray(items, ignore, depth);
    case Obj(fields) =>
      forall g | g in fields
        ensures Canon(g.value, ignore, depth + 1) == Print(Norm(g.value, ignore))
      {
        CanonIsPrint(g.value, ignore, depth + 1);
      }
      CanonObject(fields, ignore, depth);
    case _ => CanonLeaf(v, ignore, depth);
  }

  lemma PrintedArray(items: seq<Json>)
    ensures items == [] ==> Print(Arr(items)) == [LBRACKET] + [] + [RBRACKET]
    ensures items != [] ==> Print(Arr(items)) == [LBRACKET] + (Print(items[0]) + ItemsTail(items[1..]))
  {
    assert items != [] ==> [LBRACKET] + Print(items[0]) + ItemsTail(items[1..]) == [LBRACKET] + (Print(items[0]) + ItemsTail(items[1..]));
  }

  lemma CanonArrayIsPrint(items: seq<Json>, ignore: set<Text>, depth: nat)
    requires forall i | 0 <= i < |items| :: Canon(items[i], ignore, depth) == Print(Norm(items[i], ignore))
    ensures [LBRACKET] + CanonItems(items, ignore, depth) + [RBRACKET] == Print(Arr(NormItems(items, ignore)))
  {
    hide Canon, Norm, Print, ItemsTail;
    PrintedArray(NormItems(items, ignore));
    if items != [] {
      CanonItemsArePrinted(items, ignore, depth);
      assert [LBRACKET] + CanonItems(items, ignore, depth) + [RBRACKET]
          == [LBRACKET] + (CanonItems(items, ignore, depth) + [RBRACKET]);
    }
  }

  lemma Associate(a: Text, b: Text, c: Text)
    ensures a + [COMMA] + b + c == a + ([COMMA] + (b + c))
    ensures [COMMA] + b + c == [COMMA] + (b + c)
  {
  }

  lemma {:induction false} CanonItemsArePrinted(items: seq<Json>, ignore: set<Text>, depth: nat)
    requires items != []
    requires forall i | 0 <= i < |items| :: Canon(items[i], ignore, depth) == Print(Norm(items[i], ignore))
    ensures CanonItems(items, ignore, depth) + [RBRACKET] ==
            Print(Norm(items[0], ignore)) + ItemsTail(NormItems(items, ignore)[1..])
    decreases |items|
  {
    var rest := items[1..];
    var head := Canon(items[0], ignore, depth);
    var printed := NormItems(rest, ignore);
    assert NormItems(items, ignore)[1..] == printed;
    if rest != [] {
      Associate(head, CanonItems(rest, ignore, depth), [RBRACKET]);
      Associate([], Print(printed[0]), ItemsTail(printed[1..]));
      CanonItemsArePrinted(rest, ignore, depth);
    }
  }

  predicate PrintsField(f: Field, ignore: set<Text>, depth: nat)
  {
    f.key !in ignore && Canon(f.value, ignore, depth) == Print(Norm(f.value, ignore))
  }

  lemma CanonObjectIsPrint(fs: seq<Field>, ignore: set<Text>, depth: nat)
    requires forall g | g in fs :: PrintsField(g, ignore, depth)
    ensures [LBRACE] + CanonFields(fs, ignore, depth) + [RBRACE] == Print(Obj(NormFields(fs, ignore)))
  {
    if fs != [] {
      CanonFieldsArePrinted(fs, ignore, depth);
      assert fs[0] in fs;
      var printed := NormFields(fs, ignore);
      assert printed[1..] == NormFields(fs[1..], ignore);
      assert [LBRACE] + CanonFields(fs, ignore, depth) + [RBRACE]
          == [LBRACE] + (CanonFields(fs, ignore, depth) + [RBRACE]);
      assert [LBRACE] + (PrintField(printed[0]) + FieldsTail(printed[1..])) == Print(Obj(printed));
    }
  }

  lemma {:induction false} CanonFieldsArePrinted(fs: seq<Field>, ignore: set<Text>, depth: nat)
    requires fs != [] && forall g | g in fs :: PrintsField(g, ignore, depth)
    ensures CanonFields(fs, ignore, depth) + [RBRACE] ==
            PrintField(Field(fs[0].key, Norm(fs[0].value, ignore))) + FieldsTail(NormFields(fs[1..], ignore))
    decreases |fs|
  {
    assert fs[0] in fs;
    var rest := fs[1..];
    var head := CanonField(fs[0], ignore, depth);
    assert head == PrintField(Field(fs[0].key, Norm(fs[0].value, ignore)));
    if rest != [] {
      assert rest[0] in fs;
      CanonFieldsArePrinted(rest, ignore, depth);
      var next := Field(rest[0].key, Norm(rest[0].value, ignore));
      var tail := NormFields(rest[1..], ignore);
      assert NormFields(rest, ignore) == [next] + tail;
      assert ([next] + tail)[1..] == tail;
      Associate(head, CanonFields(rest, ignore, depth), [RBRACE]);
      Associate([], PrintField(next), FieldsTail(tail));
    }
  }

  // ---- the normal form is exactly the equivalence ----

  lemma {:induction false} NormExact(a: Json, b: Json, ignore: set<Text>)
    requires WellFormed(a) && WellFormed(b)
    ensures Equivalent(a, b, ignore) <==> Norm(a, ignore) == Norm(b, ignore)
    decreases a
  {
    match a
    case Arr(xs) =>
      if b.Arr? && |xs| == |b.items| {
        forall i | 0 <= i < |xs|
          ensures Equivalent(xs[i], b.items[i], ignore) <==> Norm(xs[i], ignore) == Norm(b.items[i], ignore)
        {
          NormExact(xs[i], b.items[i], ignore);
        }
      }
    case Obj(fs) =>
      if b.Obj? {
        forall i, j | 0 <= i < |fs| && 0 <= j < |b.fields|
          ensures Equivalent(fs[i].value, b.fields[j].value, ignore) <==>
                  Norm(fs[i].value, ignore) == Norm(b.fields[j].value, ignore)
        {
          NormExact(fs[i].value, b.fields[j].value, ignore);
        }
        NormExactObjects(fs, b.fields, ignore);
      }
    case _ =>
  }

  ghost predicate SameFields(fs: seq<Field>, gs: seq<Field>, ignore: set<Text>)
  {
    && (forall i | 0 <= i < |fs| && fs[i].key !in ignore :: HasKey(gs, fs[i].key))
    && (forall j | 0 <= j < |gs| && gs[j].key !in ignore :: HasKey(fs, gs[j].key))
    && (forall i, j | 0 <= i < |fs| && 0 <= j < |gs| && fs[i].key == gs[j].key && fs[i].key !in ignore ::
          Norm(fs[i].value, ignore) == Norm(gs[j].value, ignore))
  }

  lemma {:induction false} NormExactObjects(fs: seq<Field>, gs: seq<Field>, ignore: set<Text>)
    requires UniqueKeys(fs) && UniqueKeys(gs)
    ensures SameFields(fs, gs, ignore) <==> Sort(NormFields(fs, ignore)) == Sort(NormFields(gs, ignore))
  {
    var a := NormFields(fs, ignore);
    var b := NormFields(gs, ignore);
    NormFieldsUnique(fs, ignore);
    NormFieldsUnique(gs, ignore);
    SortSorted(a);
    SortSorted(b);
    if SameFields(fs, gs, ignore) {
      forall g ensures g in Sort(a) <==> g in Sort(b) {
        SameFieldsMember(fs, gs, ignore, g);
        SameFieldsMember(gs, fs, ignore, g);
        assert (g in Sort(a) <==> g in a) && (g in Sort(b) <==> g in b);
      }
      SortedUnique(Sort(a), Sort(b));
    }
    if Sort(a) == Sort(b) {
      forall g ensures g in a <==> g in b {
        assert g in Sort(a) <==> g in Sort(b);
      }
      EqualMembersSame(fs, gs, ignore);
    }
  }

  lemma SameFieldsMember(fs: seq<Field>, gs: seq<Field>, ignore: set<Text>, g: Field)
    requires SameFields(fs, gs, ignore)
    ensures g in NormFields(fs, ignore) ==> g in NormFields(gs, ignore)
  {
    NormFieldsMembers(fs, ignore, g);
    NormFieldsMembers(gs, ignore, g);
    if g in NormFields(fs, ignore) {
      var i :| 0 <= i < |fs| && fs[i].key !in ignore && g == Field(fs[i].key, Norm(fs[i].value, ignore));
      var j :| 0 <= j < |gs| && gs[j].key == fs[i].key;
      assert g == Field(gs[j].key, Norm(gs[j].value, ignore));
    }
  }

  lemma EqualMembersSame(fs: seq<Field>, gs: seq<Field>, ignore: set<Text>)
    requires UniqueKeys(fs) && UniqueKeys(gs)
    requires forall g :: g in NormFields(fs, ignore) <==> g in NormFields(gs, ignore)
    ensures SameFields(fs, gs, ignore)
  {
    forall i | 0 <= i < |fs| && fs[i].key !in ignore
      ensures exists j :: 0 <= j < |gs| && gs[j].key == fs[i].key && Norm(gs[j].value, ignore) == Norm(fs[i].value, ignore)
    {
      var g := Field(fs[i].key, Norm(fs[i].value, ignore));
      NormFieldsMembers(fs, ignore, g);
      NormFieldsMembers(gs, ignore, g);
    }
    forall j | 0 <= j < |gs| && gs[j].key !in ignore ensures HasKey(fs, gs[j].key) {
      var g := Field(gs[j].key, Norm(gs[j].value, ignore));
      NormFieldsMembers(fs, ignore, g);
      NormFieldsMembers(gs, ignore, g);
    }
  }

  // ---- the main results ----

  lemma {:induction false} NormPlain(v: Json, ignore: set<Text>)
    requires WellFormed(v)
    ensures WellFormed(Norm(v, ignore)) && Plain(Norm(v, ignore)) == Norm(v, ignore)
    decreases v
  {
    match v
    case Arr(items) =>
      forall i | 0 <= i < |items|
        ensures WellFormed(Norm(items[i], ignore)) && Plain(Norm(items[i], ignore)) == Norm(items[i], ignore)
      {
        NormPlain(items[i], ignore);
      }
      PlainItemsFixed(NormItems(items, ignore));
    case Obj(fields) =>
      var sorted := Sort(NormFields(fields, ignore));
      forall g | g in sorted ensures WellFormed(g.value) && Plain(g.value) == g.value {
        NormFieldsMembers(fields, ignore, g);
        var i :| 0 <= i < |fields| && fields[i].key !in ignore && g == Field(fields[i].key, Norm(fields[i].value, ignore));
        NormPlain(fields[i].value, ignore);
      }
      NormFieldsUnique(fields, ignore);
      SortSorted(NormFields(fields, ignore));
      forall i, j | 0 <= i < j < |sorted| ensures sorted[i].key != sorted[j].key {
        KeyLessIrreflexive(sorted[i].key);
      }
      PlainFieldsFixed(sorted);
    case _ =>
  }

  lemma {:induction false} PlainItemsFixed(items: seq<Json>)
    requires forall i | 0 <= i < |items| :: Plain(items[i]) == items[i]
    ensures PlainItems(items) == items
  {
    if items != [] {
      PlainItemsFixed(items[1..]);
      assert items == [items[0]] + items[1..];
    }
  }

  lemma {:induction false} PlainFieldsFixed(fs: seq<Field>)
    requires forall g | g in fs :: Plain(g.value) == g.value
    ensures PlainFields(fs) == fs
  {
    if fs != [] {
      assert fs[0] in fs;
      PlainFieldsFixed(fs[1..]);
      assert fs == [fs[0]] + fs[1..];
    }
  }

  lemma CanonicalCallIsPrint(nodeId: Text, input: Json, ignore: set<Text>)
    requires WellFormed(input) && Levels(input) <= MAX_DEPTH + 1
    ensures CanonicalCall(nodeId, input, ignore) == Print(Arr([Str(nodeId), Norm(input, ignore)]))
  {
    CanonIsPrint(input, ignore, 0);
    var items := [Str(nodeId), Norm(input, ignore)];
    assert items[1..] == [Norm(input, ignore)];
    assert ItemsTail(items[1..]) == [COMMA] + Print(Norm(input, ignore)) + ItemsTail([]) by {
      assert items[1..][1..] == [];
    }
  }

  /** Two calls have the same canonical string exactly when node and arguments are the same. */
  lemma CanonicalCallExact(nodeA: Text, a: Json, nodeB: Text, b: Json, ignore: set<Text>)
    requires WellFormed(a) && Levels(a) <= MAX_DEPTH + 1
    requires WellFormed(b) && Levels(b) <= MAX_DEPTH + 1
    ensures CanonicalCall(nodeA, a, ignore) == CanonicalCall(nodeB, b, ignore)
            <==> nodeA == nodeB && Equivalent(a, b, ignore)
  {
    CanonicalCallIsPrint(nodeA, a, ignore);
    CanonicalCallIsPrint(nodeB, b, ignore);
    NormPlain(a, ignore);
    NormPlain(b, ignore);
    NormExact(a, b, ignore);
    var x := [Str(nodeA), Norm(a, ignore)];
    var y := [Str(nodeB), Norm(b, ignore)];
    PlainItemsFixed(x);
    PlainItemsFixed(y);
    PrintInjective(Arr(x), Arr(y));
    assert x == y <==> x[0] == y[0] && x[1] == y[1];
  }

  // ---- past the depth limit ----

  function Nest(levels: nat, v: Json): Json { if levels == 0 then v else Arr([Nest(levels - 1, v)]) }

  lemma {:induction false} CanonBelowLimit(levels: nat, v: Json, w: Json, ignore: set<Text>, depth: nat)
    requires levels + depth == MAX_DEPTH + 1
    requires (v.Arr? || v.Obj?) && (w.Arr? || w.Obj?)
    ensures Canon(Nest(levels, v), ignore, depth) == Canon(Nest(levels, w), ignore, depth)
    decreases levels
  {
    if levels > 0 {
      CanonBelowLimit(levels - 1, v, w, ignore, depth + 1);
      var x := [Nest(levels - 1, v)];
      var y := [Nest(levels - 1, w)];
      assert CanonItems(x, ignore, depth + 1) == CanonItems(y, ignore, depth + 1);
    }
  }

  /** One level deeper, any two containers are confused: the limit above is the exact one. */
  lemma DepthLimitTight(nodeId: Text, v: Json, w: Json, ignore: set<Text>)
    requires (v.Arr? || v.Obj?) && (w.Arr? || w.Obj?)
    ensures CanonicalCall(nodeId, Nest(MAX_DEPTH + 1, v), ignore) == CanonicalCall(nodeId, Nest(MAX_DEPTH + 1, w), ignore)
  {
    CanonBelowLimit(MAX_DEPTH + 1, v, w, ignore, 0);
  }

  // ---- escaping ----

  predicate LowerHex(u: int) { IsDigit(u) || 97 <= u <= 102 }

  lemma HexDigits(u: Unit)
    ensures forall i | 0 <= i < 4 :: LowerHex(Hex4(u)[i])
  {
  }

  /** One unit that is not part of a pair, by the table of section 25.5.2 of ECMA-262. */
  lemma EscapeTable(u: Unit)
    ensures var r := EscapeUnit(u);
            if u == 0x22 || u == 0x5C then r == [0x5C, u]
            else if u == 0x08 then r == [0x5C, 'b' as int]
            else if u == 0x09 then r == [0x5C, 't' as int]
            else if u == 0x0A then r == [0x5C, 'n' as int]
            else if u == 0x0C then r == [0x5C, 'f' as int]
            else if u == 0x0D then r == [0x5C, 'r' as int]
            else if u < 0x20 || 0xD800 <= u < 0xE000 then
              |r| == 6 && r[..2] == [0x5C, 'u' as int] && Hex4Value(r[2..]) == u && forall i | 2 <= i < 6 :: LowerHex(r[i])
            else r == [u]
  {
    var r := EscapeUnit(u);
    HexRoundTrip(u);
    HexDigits(u);
    if |r| == 6 {
      assert r[2..] == Hex4(u);
    }
  }

  /** A surrogate pair stays as it is. */
  lemma PairsRaw(t: Text)
    ensures t != [] && StartsWithPair(t) ==> QuoteBody(t) == t[..2] + QuoteBody(t[2..])
    ensures t != [] && !StartsWithPair(t) ==> QuoteBody(t) == EscapeUnit(t[0]) + QuoteBody(t[1..])
    ensures Quote(t) == [0x22] + QuoteBody(t) + [0x22]
  {
  }

  // ---- the order of the printed keys ----

  /** A proper prefix, or smaller at the first unit that differs. */
  predicate Precedes(a: Text, b: Text)
  {
    || (|a| < |b| && b[..|a|] == a)
    || exists i | 0 <= i < |a| && i < |b| :: a[..i] == b[..i] && a[i] < b[i]
  }

  lemma {:induction false} KeyLessPrecedes(a: Text, b: Text)
    requires KeyLess(a, b)
    ensures Precedes(a, b)
  {
    if a == [] {
      assert b[..0] == a;
    } else if a[0] < b[0] {
      assert a[..0] == b[..0];
    } else {
      KeyLessPrecedes(a[1..], b[1..]);
      PrecedesAfter(a, b);
    }
  }

  lemma PrecedesAfter(a: Text, b: Text)
    requires a != [] && b != [] && a[0] == b[0] && Precedes(a[1..], b[1..])
    ensures Precedes(a, b)
  {
    var x, y := a[1..], b[1..];
    if |x| < |y| && y[..|x|] == x {
      assert b[..|a|] == [b[0]] + y[..|x|] && a == [a[0]] + x;
    } else {
      var i :| 0 <= i < |x| && i < |y| && x[..i] == y[..i] && x[i] < y[i];
      assert a[..i + 1] == [a[0]] + x[..i] && b[..i + 1] == [b[0]] + y[..i];
      assert a[i + 1] < b[i + 1];
    }
  }

  /** What is printed of a dictionary: the fields that are not ignored, their keys ascending by UTF-16 unit. */
  lemma KeysAscend(fields: seq<Field>, ignore: set<Text>, depth: nat)
    requires WellFormed(Obj(fields)) && depth + Levels(Obj(fields)) <= MAX_DEPTH + 1
    ensures Norm(Obj(fields), ignore).Obj? && Canon(Obj(fields), ignore, depth) == Print(Norm(Obj(fields), ignore))
    ensures var r := Norm(Obj(fields), ignore).fields;
            && (forall i, j | 0 <= i < j < |r| :: Precedes(r[i].key, r[j].key))
            && (forall i | 0 <= i < |r| :: r[i].key !in ignore)
  {
    hide Precedes, Canon, Print, Sort, KeyLess, Levels;
    CanonIsPrint(Obj(fields), ignore, depth);
    NormFieldsUnique(fields, ignore);
    SortSorted(NormFields(fields, ignore));
    var r := Norm(Obj(fields), ignore).fields;
    forall i, j | 0 <= i < j < |r| ensures Precedes(r[i].key, r[j].key) {
      KeyLessPrecedes(r[i].key, r[j].key);
    }
    forall i | 0 <= i < |r| ensures r[i].key !in ignore {
      assert r[i] in r;
      NormFieldsMembers(fields, ignore, r[i]);
    }
  }
}
