/**
 Shrinking twice, for every payload and budget.

 The module documentation of the client calls its shrinking idempotent. Two
 families of results are returned with no check of their size: a whole-payload
 marker, and a trimmed dictionary that held host objects and is of no known
 type. `IdempotentExactly` says when a result comes back as it is;
 `SmallBudgetNotIdempotent` and `UnknownTypeNotIdempotent` give a payload of
 each family that does not, the second at any budget.
 */
module Idempotence {
  import opened Utf16
  import opened Json
  import opened JsNumber
  import opened Schema
  import opened ShrinkSpec
  import opened Budget

  /** Neither the field trim nor a skeleton stands in for the payload. */
  predicate NeedsMarker(payload: Json, max: int, t: EventType, text: Text, total: nat)
  {
    && (payload.Obj? && |payload.fields| <= MAX_TRIM_FIELDS ==>
          var trimmed := TruncateFields(payload.fields, max, total, text);
          trimmed.None? || !IsValidEvent(t, trimmed.value))
    && (payload.Obj? && t != Unknown ==>
          Skeleton(payload.fields, t, max, total, Prefix(text, PREVIEW_CHARS), ATTEMPTS).None?)
  }

  lemma DegradeCases(payload: Json, max: int, t: EventType, text: Text, total: nat)
    ensures var r := Degrade(payload, max, t, text, total);
            if NeedsMarker(payload, max, t, text, total) then r == Marker(total, Prefix(text, PREVIEW_CHARS))
            else FitsBudget(r, max)
  {
    hide Skeleton, TruncateFields, FitsBudget, Marker, IsValidEvent, Prefix;
    if payload.Obj? {
      TruncatedFits(payload.fields, max, total, text);
      if t != Unknown {
        SkeletonFits(payload.fields, t, max, total, Prefix(text, PREVIEW_CHARS), ATTEMPTS);
      }
    }
  }

  lemma MarkerSerializable(total: nat, preview: Text)
    ensures Serializable(Marker(total, preview))
  {
  }

  /** Host objects that no trim and no skeleton took out of the way. */
  predicate NeedsUnserializableMarker(payload: Json, max: int, t: EventType)
  {
    payload.Obj? && t != Unknown ==>
      && (var trimmed := TruncateUnserializable(payload.fields);
          trimmed.Some? ==> FitUnserializable(trimmed.value, max, t).None?)
      && Skeleton(payload.fields, t, max, 0, UNSERIALIZABLE, ATTEMPTS).None?
  }

  /** What is returned with no check of its size, if anything is. */
  function Unchecked(payload: Json, max: int, t: EventType): Option<Json>
  {
    if Serializable(payload) then
      var text := Print(payload);
      var total := Utf8Length(text);
      if total > max && NeedsMarker(payload, max, t, text, total) then Some(Marker(total, Prefix(text, PREVIEW_CHARS))) else None
    else if TrimmedUnchecked(payload, t) && TruncateUnserializable(payload.fields).Some? then
      Some(Obj(TruncateUnserializable(payload.fields).value))
    else if NeedsUnserializableMarker(payload, max, t) then Some(Marker(0, UNSERIALIZABLE))
    else None
  }

  lemma SerializableCases(payload: Json, max: int, t: EventType)
    requires Serializable(payload)
    ensures var r, u := Serialize(payload, max, t).payload, Unchecked(payload, max, t);
            if u.Some? then r == u.value && Serializable(r) else FitsBudget(r, max)
  {
    hide Degrade, NeedsMarker, Marker, Print, Utf8Length, Prefix;
    var text, total := Print(payload), Utf8Length(Print(payload));
    if total > max {
      DegradeCases(payload, max, t, text, total);
      MarkerSerializable(total, Prefix(text, PREVIEW_CHARS));
    }
  }

  lemma UnserializableCases(payload: Json, max: int, t: EventType)
    requires !Serializable(payload)
    ensures var r, u := Serialize(payload, max, t).payload, Unchecked(payload, max, t);
            if u.Some? then r == u.value && Serializable(r) else FitsBudget(r, max)
  {
    hide Serializable, Skeleton, FitUnserializable, Marker, Print, TruncateUnserializable, IsValidEvent, UNSERIALIZABLE, ATTEMPTS;
    MarkerSerializable(0, UNSERIALIZABLE);
    if payload.Obj? {
      OpaqueTrimmed(payload.fields);
      if t != Unknown {
        FittedAcceptable(payload.fields, max, t);
        SkeletonFits(payload.fields, t, max, 0, UNSERIALIZABLE, ATTEMPTS);
      }
    }
  }

  /** For every payload and budget a result comes back as it is unless it was returned unchecked and is over the budget. */
  lemma IdempotentExactly(payload: Json, max: int, t: EventType)
    ensures var r, u := Serialize(payload, max, t).payload, Unchecked(payload, max, t);
            && (u.Some? ==> r == u.value)
            && (Serialize(r, max, t) == Outcome(r, false) <==> (u.Some? ==> Utf8Length(Print(u.value)) <= max))
  {
    hide Serialize, Unchecked, Print, Utf8Length, Serializable;
    UnchangedExactly(Serialize(payload, max, t).payload, max, t);
    if Serializable(payload) {
      SerializableCases(payload, max, t);
    } else {
      UnserializableCases(payload, max, t);
    }
  }

  // ---- host objects of an unknown type: no budget is large enough ----

  lemma FirstFieldWithin(fs: seq<Field>)
    requires fs != []
    ensures |Print(Obj(fs))| >= |Print(fs[0].value)|
  {
  }

  lemma FirstKept(f: Field, fs: seq<Field>)
    requires Serializable(f.value) && f.key != TRUNCATED && f.key != FIELDS && !Serializable(Obj([f] + fs))
    ensures var r := TruncateUnserializable([f] + fs); r.Some? && r.value != [] && r.value[0] == f
  {
    var all := [f] + fs;
    OpaqueTrimmed(all);
    assert TrimOpaque(all)[0] == f;
  }

  /** A long text beside a host object: whatever the budget, the trimmed dictionary is shrunk again. */
  lemma UnknownTypeNotIdempotent(max: nat)
    ensures var payload := Obj([Field(INPUT, Str(Han(max))), Field(OUTPUT, Opaque)]);
            var r := Serialize(payload, max, Unknown).payload;
            Serialize(r, max, Unknown) != Outcome(r, false)
  {
    hide Print, Utf8Length, TruncateUnserializable, Serialize;
    var f := Field(INPUT, Str(Han(max)));
    var fs := [f, Field(OUTPUT, Opaque)];
    var payload := Obj(fs);
    assert !Serializable(payload) by {
      assert !Serializable(fs[1].value);
    }
    assert [f] + [Field(OUTPUT, Opaque)] == fs;
    assert INPUT[0] == 'i' as int && TRUNCATED[0] == '_' as int && FIELDS[0] == 'f' as int;
    FirstKept(f, [Field(OUTPUT, Opaque)]);
    var trimmed := TruncateUnserializable(fs).value;
    FirstFieldWithin(trimmed);
    HanText(max);
    Utf8LengthAtLeastUnits(Print(Obj(trimmed)));
    IdempotentExactly(payload, max, Unknown);
  }

  // ---- a budget too small for the marker ----

  lemma {:induction false} Utf8LengthJoin(a: Text, b: Text)
    requires b != [] ==> !IsLow(b[0])
    ensures Utf8Length(a + b) == Utf8Length(a) + Utf8Length(b)
    decreases |a|
  {
    if a == [] {
      assert a + b == b;
    } else if StartsWithPair(a) {
      assert (a + b)[2..] == a[2..] + b;
      Utf8LengthJoin(a[2..], b);
    } else {
      assert (a + b)[1..] == a[1..] + b;
      Utf8LengthJoin(a[1..], b);
    }
  }

  /** n copies of U+4E2D, three bytes each. */
  function Han(n: nat): (t: Text)
    ensures |t| == n
  {
    if n == 0 then [] else [0x4E2D] + Han(n - 1)
  }

  lemma {:induction false} HanPrinted(n: nat)
    ensures QuoteBody(Han(n)) == Han(n) && Utf8Length(Han(n)) == 3 * n
  {
    if n > 0 {
      HanPrinted(n - 1);
      assert Han(n)[1..] == Han(n - 1);
      assert n > 1 ==> Han(n)[1] == Han(n - 1)[0];
    }
  }

  lemma {:induction false} HanPrefix(n: nat, k: nat)
    requires k <= n
    ensures Han(n)[..k] == Han(k)
  {
    if k > 0 {
      HanPrefix(n - 1, k - 1);
      assert Han(n)[..k] == [0x4E2D] + Han(n - 1)[..k - 1];
    }
  }

  lemma Around(a: Text, q: Text, z: Text)
    requires (q != [] ==> !IsLow(q[0])) && z != [] && !IsLow(z[0])
    ensures Utf8Length(a + q + z) == Utf8Length(a) + Utf8Length(q) + Utf8Length(z)
  {
    hide Utf8Length;
    assert a + q + z == a + (q + z);
    Utf8LengthJoin(q, z);
    assert q == [] ==> q + z == z;
    Utf8LengthJoin(a, q + z);
  }

  lemma LastFieldText(f: Field)
    ensures FieldsTail([f]) == [COMMA] + PrintField(f) + [RBRACE]
  {
    assert [f][1..] == [];
  }

  lemma FieldText(f: Field, preview: Text)
    requires f.value == Str(preview)
    ensures PrintField(f) == (Quote(f.key) + [COLON]) + Quote(preview)
  {
  }

  /** The text of an object of three fields ends with its last value and a brace. */
  lemma ThreeFieldText(a: Field, b: Field, c: Field) returns (before: Text)
    ensures Print(Obj([a, b, c])) == before + PrintField(c) + [RBRACE]
  {
    var fs := [a, b, c];
    assert fs[1..] == [b, c] && [b, c][1..] == [c];
    LastFieldText(c);
    before := [LBRACE] + PrintField(a) + ([COMMA] + PrintField(b)) + [COMMA];
    Regroup([LBRACE] + PrintField(a), [COMMA] + PrintField(b), [COMMA], PrintField(c), [RBRACE]);
  }

  lemma Regroup(a: Text, b: Text, c: Text, d: Text, e: Text)
    ensures a + (b + (c + d + e)) == (a + b + c) + d + e
  {
  }

  /** A marker is at least as long as its preview. */
  lemma MarkerAtLeastPreview(total: nat, preview: Text)
    ensures Utf8Length(Print(Marker(total, preview))) >= Utf8Length(Quote(preview))
  {
    hide Utf8Length, Count, FieldsTail, Print, PrintField, QuoteBody;
    var fs := Marker(total, preview).fields;
    var before := ThreeFieldText(fs[0], fs[1], fs[2]);
    FieldText(fs[2], preview);
    var head := Quote(PREVIEW) + [COLON];
    var q := Quote(preview);
    assert before + (head + q) + [RBRACE] == (before + head) + q + [RBRACE];
    Around(before + head, q, [RBRACE]);
  }

  lemma HanText(n: nat)
    ensures Print(Str(Han(n))) == [QUOTE] + Han(n) + [QUOTE]
    ensures Utf8Length([QUOTE] + Han(n) + [QUOTE]) == 3 * n + 2
  {
    HanPrinted(n);
    assert [QUOTE] + Han(n) + [QUOTE] == [QUOTE] + (Han(n) + [QUOTE]);
    Utf8LengthJoin(Han(n), [QUOTE]);
    assert n > 0 ==> (Han(n) + [QUOTE])[0] == 0x4E2D;
    Utf8LengthJoin([QUOTE], Han(n) + [QUOTE]);
  }

  lemma HanTextPrefix(n: nat, k: nat)
    requires k <= n
    ensures ([QUOTE] + Han(n) + [QUOTE])[..k + 1] == [QUOTE] + Han(k)
  {
    HanPrefix(n, k);
    assert ([QUOTE] + Han(n) + [QUOTE])[..k + 1] == [QUOTE] + Han(n)[..k];
  }

  lemma QuotedQuote(t: Text)
    requires t != [] && t[0] == QUOTE
    ensures QuoteBody(t) == [BACKSLASH, QUOTE] + QuoteBody(t[1..])
  {
  }

  lemma QuotedHanText(k: nat)
    ensures Utf8Length(Quote([QUOTE] + Han(k))) == 3 * k + 4
  {
    hide Utf8Length, QuoteBody;
    HanPrinted(k);
    var p := [QUOTE] + Han(k);
    assert p[1..] == Han(k);
    QuotedQuote(p);
    var head := [QUOTE, BACKSLASH, QUOTE];
    AsciiBytes(head);
    AsciiBytes([QUOTE]);
    assert k > 0 ==> Han(k)[0] == 0x4E2D;
    Around(head, Han(k), [QUOTE]);
    assert [QUOTE] + ([BACKSLASH, QUOTE] + Han(k)) + [QUOTE] == head + Han(k) + [QUOTE];
  }

  /** With 4096 bytes, a string of 3000 Han characters leaves a marker that is shrunk again. */
  lemma SmallBudgetNotIdempotent()
    ensures var r := Serialize(Str(Han(3000)), 4096, Unknown).payload;
            Serialize(r, 4096, Unknown) != Outcome(r, false)
  {
    hide Serialize, Quote, QuoteBody, Utf8Length, Print;
    HanText(3000);
    HanTextPrefix(3000, 1999);
    ShrunkAgain(Str(Han(3000)), Print(Str(Han(3000))), [QUOTE] + Han(1999));
    QuotedHanText(1999);
  }

  lemma ShrunkAgain(payload: Json, text: Text, preview: Text)
    requires payload.Str? && text == Print(payload) && Utf8Length(text) > 4096 && preview == Prefix(text, PREVIEW_CHARS)
    ensures var r := Serialize(payload, 4096, Unknown).payload;
            Utf8Length(Quote(preview)) > 4096 ==> Serialize(r, 4096, Unknown) != Outcome(r, false)
  {
    var total := Utf8Length(text);
    IdempotentExactly(payload, 4096, Unknown);
    MarkerAtLeastPreview(total, preview);
  }
}
