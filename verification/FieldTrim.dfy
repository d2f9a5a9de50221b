/**
 What the field trim changes, and what it leaves alone.

 Fields are taken biggest first, ties in payload order, and only as many as it
 takes to bring the rest under half the budget.
 */
module FieldTrim {
  import opened Utf16
  import opened Json
  import opened Schema
  import opened ShrinkSpec
  import opened Budget

  // ---- biggest first ----

  predicate Descending(fs: seq<Field>)
  {
    forall i, j | 0 <= i < j < |fs| :: Size(fs[i].value) >= Size(fs[j].value)
  }

  /** The fields of one size, in their order. */
  function WithSize(fs: seq<Field>, size: nat): seq<Field>
  {
    if fs == [] then [] else (if Size(fs[0].value) == size then [fs[0]] else []) + WithSize(fs[1..], size)
  }

  lemma {:induction false} InsertMembers(f: Field, fs: seq<Field>)
    ensures multiset(InsertBySize(f, fs)) == multiset{f} + multiset(fs)
  {
    if fs != [] && Size(f.value) < Size(fs[0].value) {
      InsertMembers(f, fs[1..]);
      assert fs == [fs[0]] + fs[1..];
    }
  }

  lemma DescendingTail(head: Field, tail: seq<Field>)
    requires Descending(tail) && forall g: Field | g in multiset(tail) :: Size(head.value) >= Size(g.value)
    ensures Descending([head] + tail)
  {
    forall j | 0 <= j < |tail| ensures Size(head.value) >= Size(tail[j].value) {
      assert tail[j] in multiset(tail);
    }
  }

  lemma {:induction false} InsertDescending(f: Field, fs: seq<Field>)
    requires Descending(fs)
    ensures Descending(InsertBySize(f, fs))
  {
    if fs == [] {
    } else if Size(f.value) >= Size(fs[0].value) {
      DescendingTail(f, fs);
    } else {
      var tail := InsertBySize(f, fs[1..]);
      InsertDescending(f, fs[1..]);
      InsertMembers(f, fs[1..]);
      forall g: Field | g in multiset(tail) ensures Size(fs[0].value) >= Size(g.value) {
        if g != f {
          assert g in fs[1..];
        }
      }
      DescendingTail(fs[0], tail);
    }
  }

  lemma WithSizeHead(f: Field, fs: seq<Field>, size: nat)
    ensures WithSize([f] + fs, size) == (if Size(f.value) == size then [f] else []) + WithSize(fs, size)
  {
    assert ([f] + fs)[1..] == fs;
  }

  lemma {:induction false} InsertKeepsOrder(f: Field, fs: seq<Field>, size: nat)
    ensures WithSize(InsertBySize(f, fs), size) == WithSize([f] + fs, size)
  {
    WithSizeHead(f, fs, size);
    if fs != [] && Size(f.value) < Size(fs[0].value) {
      InsertKeepsOrder(f, fs[1..], size);
      WithSizeHead(f, fs[1..], size);
      WithSizeHead(fs[0], InsertBySize(f, fs[1..]), size);
    }
  }

  /** A stable sort by size: descending, the same fields, ties in payload order. */
  lemma {:induction false} BiggestFirstOrder(fs: seq<Field>, size: nat)
    ensures Descending(BiggestFirst(fs)) && multiset(BiggestFirst(fs)) == multiset(fs)
    ensures WithSize(BiggestFirst(fs), size) == WithSize(fs, size)
  {
    if fs != [] {
      var rest := BiggestFirst(fs[1..]);
      BiggestFirstOrder(fs[1..], size);
      InsertDescending(fs[0], rest);
      InsertMembers(fs[0], rest);
      InsertKeepsOrder(fs[0], rest, size);
      WithSizeHead(fs[0], rest, size);
      assert fs == [fs[0]] + fs[1..];
    }
  }

  // ---- the shortest prefix ----

  function SumSizes(fs: seq<Field>): nat
  {
    if fs == [] then 0 else Size(fs[0].value) + SumSizes(fs[1..])
  }

  /** Trimming these fields is enough: what remains is at most half the budget. */
  predicate Enough(trimmed: seq<Field>, total: int, max: int) { 2 * (total - SumSizes(trimmed)) <= max }

  lemma {:induction false} TrimCountShortest(order: seq<Field>, total: int, max: int)
    ensures var k := TrimCount(order, total, max);
            && (forall j | 0 <= j < k :: !Enough(order[..j], total, max))
            && (Enough(order[..k], total, max) || k == |order|)
  {
    var k := TrimCount(order, total, max);
    if k > 0 {
      var rest := order[1..];
      var left := total - Size(order[0].value);
      TrimCountShortest(rest, left, max);
      forall j | 0 < j <= k ensures Enough(order[..j], total, max) <==> Enough(rest[..j - 1], left, max) {
        assert order[..j][1..] == rest[..j - 1];
      }
    }
  }

  // ---- the effect on the payload ----

  predicate SameType(a: Json, b: Json)
  {
    && (a.Null? <==> b.Null?) && (a.Bool? <==> b.Bool?) && (a.Number? <==> b.Number?) && (a.NonFinite? <==> b.NonFinite?)
    && (a.Str? <==> b.Str?) && (a.Arr? <==> b.Arr?) && (a.Obj? <==> b.Obj?)
  }

  lemma GetMarked(fs: seq<Field>, total: nat, text: Text, dropped: seq<Text>, key: Text)
    requires key !in MARKER_KEYS
    ensures Get(AddMarker(fs, total, text, dropped), key) == Get(fs, key)
  {
    assert MARKER_KEYS[0] == TRUNCATED && MARKER_KEYS[1] == BYTES && MARKER_KEYS[2] == PREVIEW && MARKER_KEYS[3] == FIELDS;
    var s1 := SetKey(fs, TRUNCATED, Bool(true));
    var s2 := SetKey(s1, BYTES, Count(total));
    var s3 := SetKey(s2, PREVIEW, Str(Prefix(text, PREVIEW_CHARS)));
    GetSetKey(fs, TRUNCATED, Bool(true), key);
    GetSetKey(s1, BYTES, Count(total), key);
    GetSetKey(s2, PREVIEW, Str(Prefix(text, PREVIEW_CHARS)), key);
    GetSetKey(s3, FIELDS, Texts(dropped), key);
  }

  lemma GetMarkers(fs: seq<Field>, total: nat, text: Text, dropped: seq<Text>, key: Text)
    requires key in MARKER_KEYS
    ensures Get(AddMarker(fs, total, text, dropped), key) ==
            Some(if key == TRUNCATED then Bool(true)
                 else if key == BYTES then Count(total)
                 else if key == PREVIEW then Str(Prefix(text, PREVIEW_CHARS))
                 else Texts(dropped))
  {
    var s1 := SetKey(fs, TRUNCATED, Bool(true));
    var s2 := SetKey(s1, BYTES, Count(total));
    var s3 := SetKey(s2, PREVIEW, Str(Prefix(text, PREVIEW_CHARS)));
    assert BYTES[0] == 'b' as int && PREVIEW[0] == 'p' as int && FIELDS[0] == 'f' as int;
    GetSetKey(fs, TRUNCATED, Bool(true), key);
    GetSetKey(s1, BYTES, Count(total), key);
    GetSetKey(s2, PREVIEW, Str(Prefix(text, PREVIEW_CHARS)), key);
    GetSetKey(s3, FIELDS, Texts(dropped), key);
  }

  lemma GetTrimmed(fs: seq<Field>, keys: seq<Text>, i: nat)
    requires UniqueKeys(fs) && i < |fs|
    ensures Get(TrimKeys(fs, keys), fs[i].key) ==
            Some(if fs[i].key in keys then ShrinkValue(fs[i].value, 0) else fs[i].value)
  {
    var r := TrimKeys(fs, keys);
    assert r[i].key == fs[i].key;
    GetAt(r, i);
  }

  /** The first k fields of a trimming order are enough, or all there are, and no fewer are enough. */
  predicate ShortestEnough(order: seq<Field>, k: nat, total: int, max: int)
  {
    && 0 < k <= |order|
    && (forall j | 0 <= j < k :: !Enough(order[..j], total, max))
    && (Enough(order[..k], total, max) || k == |order|)
  }

  /** The trimmed fields are the shortest sufficient prefix of the biggest-first order. */
  lemma TrimShortest(fs: seq<Field>, max: int, total: nat, text: Text) returns (k: nat)
    requires TruncateFields(fs, max, total, text).Some?
    ensures ShortestEnough(BiggestFirst(fs), k, total, max) && DroppedKeys(fs, max, total) == KeysOf(BiggestFirst(fs)[..k])
  {
    k := TrimCount(BiggestFirst(fs), total, max);
    TrimCountShortest(BiggestFirst(fs), total, max);
  }

  /** The marker keys say what happened. */
  lemma TrimMarked(fs: seq<Field>, max: int, total: nat, text: Text)
    requires TruncateFields(fs, max, total, text).Some?
    ensures var r := TruncateFields(fs, max, total, text).value.fields;
            && Get(r, TRUNCATED) == Some(Bool(true)) && Get(r, BYTES) == Some(Count(total))
            && Get(r, PREVIEW) == Some(Str(Prefix(text, PREVIEW_CHARS)))
            && Get(r, FIELDS) == Some(Texts(DroppedKeys(fs, max, total)))
  {
    var dropped := DroppedKeys(fs, max, total);
    MarkedAll(TrimKeys(fs, dropped), total, text, dropped);
  }

  lemma MarkedAll(fs: seq<Field>, total: nat, text: Text, dropped: seq<Text>)
    ensures var r := AddMarker(fs, total, text, dropped);
            && Get(r, TRUNCATED) == Some(Bool(true)) && Get(r, BYTES) == Some(Count(total))
            && Get(r, PREVIEW) == Some(Str(Prefix(text, PREVIEW_CHARS))) && Get(r, FIELDS) == Some(Texts(dropped))
  {
    assert MARKER_KEYS[0] == TRUNCATED && MARKER_KEYS[1] == BYTES && MARKER_KEYS[2] == PREVIEW && MARKER_KEYS[3] == FIELDS;
    assert TRUNCATED[0] == '_' as int && BYTES[0] == 'b' as int && PREVIEW[0] == 'p' as int && FIELDS[0] == 'f' as int;
    GetMarkers(fs, total, text, dropped, TRUNCATED);
    GetMarkers(fs, total, text, dropped, BYTES);
    GetMarkers(fs, total, text, dropped, PREVIEW);
    GetMarkers(fs, total, text, dropped, FIELDS);
  }

  /** Every field but the markers: kept as it was, or shrunk to a value of its own type. */
  lemma TrimEffect(fs: seq<Field>, max: int, total: nat, text: Text, i: nat)
    requires UniqueKeys(fs) && i < |fs| && fs[i].key !in MARKER_KEYS
    requires TruncateFields(fs, max, total, text).Some?
    ensures var after := Get(TruncateFields(fs, max, total, text).value.fields, fs[i].key);
            && after.Some? && SameType(after.value, fs[i].value)
            && after.value == if fs[i].key in DroppedKeys(fs, max, total) then ShrinkValue(fs[i].value, 0) else fs[i].value
  {
    var dropped := DroppedKeys(fs, max, total);
    GetMarked(TrimKeys(fs, dropped), total, text, dropped, fs[i].key);
    GetTrimmed(fs, dropped, i);
  }

  /** Nothing appears that was not in the payload but the markers. */
  lemma TrimAddsNothing(fs: seq<Field>, max: int, total: nat, text: Text, key: Text)
    requires TruncateFields(fs, max, total, text).Some? && key !in MARKER_KEYS
    ensures HasKey(TruncateFields(fs, max, total, text).value.fields, key) <==> HasKey(fs, key)
  {
    var dropped := DroppedKeys(fs, max, total);
    var r := TrimKeys(fs, dropped);
    GetMarked(r, total, text, dropped, key);
    assert forall i | 0 <= i < |fs| :: r[i].key == fs[i].key;
    assert HasKey(r, key) <==> HasKey(fs, key);
  }
}
