/**
 The span scanner: each top-level field's value text, sliced out of an object's
 text instead of being printed a second time.
 */
module Spans {
  import opened Utf16
  import opened Json

  /** The fields from the next key on, added to `spans`; none when the text is no such object. */
  function SpansFrom(spans: map<Text, Text>, s: Text): Option<map<Text, Text>>
    decreases |s|
  {
    if s == [] || s[0] != QUOTE then None
    else
      match ParseBody(s[1..])
      case Failed => None
      case Parsed(key, colon) =>
        if colon == [] || colon[0] != COLON then None
        else
          var value := colon[1..];
          match ParseValue(value)
          case Failed => None
          case Parsed(_, after) =>
            var spans' := spans[key := value[..|value| - |after|]];
            if after == [] then None
            else if after[0] == RBRACE then if |after| == 1 then Some(spans') else None
            else if after[0] != COMMA then None
            else SpansFrom(spans', after[1..])
  }

  function SpansOf(text: Text): Option<map<Text, Text>>
  {
    if text == [] || text[0] != LBRACE then None
    else if text == [LBRACE, RBRACE] then Some(map[])
    else SpansFrom(map[], text[1..])
  }

  /** The scanning loop; `left` is the text from the cursor on. */
  method TopLevelSpans(text: Text) returns (r: Option<map<Text, Text>>)
    ensures r == SpansOf(text)
  {
    if text == [] || text[0] != LBRACE {
      return None;
    }
    var spans: map<Text, Text> := map[];
    if text == [LBRACE, RBRACE] {
      return Some(spans);
    }
    var left := text[1..];
    while left != []
      invariant SpansOf(text) == SpansFrom(spans, left)
      decreases |left|
    {
      if left[0] != QUOTE {
        return None;
      }
      var key := ParseBody(left[1..]);
      if key.Failed? || key.rest == [] || key.rest[0] != COLON {
        return None;
      }
      var value := key.rest[1..];
      var parsed := ParseValue(value);
      if parsed.Failed? {
        return None;
      }
      var end := parsed.rest;
      spans := spans[key.value := value[..|value| - |end|]];
      if end == [] {
        return None;
      }
      if end[0] == RBRACE {
        return if |end| == 1 then Some(spans) else None;
      }
      if end[0] != COMMA {
        return None;
      }
      left := end[1..];
    }
    return None;
  }

  // ---- on printed objects ----

  /** Each field's key with the text its value prints to. */
  function PrintedFields(spans: map<Text, Text>, fs: seq<Field>): map<Text, Text>
    decreases |fs|
  {
    if fs == [] then spans else PrintedFields(spans[fs[0].key := Print(fs[0].value)], fs[1..])
  }

  predicate AllWellFormed(fs: seq<Field>) { forall i | 0 <= i < |fs| :: WellFormed(fs[i].value) }

  /** One printed field read by the scanner, whatever delimiter follows. */
  lemma ScanField(f: Field, after: Text) returns (colon: Text)
    requires WellFormed(f.value) && Delimited(after)
    ensures var s := PrintField(f) + after; s != [] && s[0] == QUOTE && ParseBody(s[1..]) == Parsed(f.key, colon)
    ensures colon != [] && colon[0] == COLON
    ensures var value := colon[1..];
            ParseValue(value) == Parsed(Plain(f.value), after) && value[..|value| - |after|] == Print(f.value)
  {
    colon := [COLON] + (Print(f.value) + after);
    assert PrintField(f) + after == Quote(f.key) + colon;
    ParseQuoted(f.key, colon);
    assert colon[1..] == Print(f.value) + after;
    ParsePrinted(f.value, after);
  }

  lemma ScanStep(spans: map<Text, Text>, s: Text, key: Text, colon: Text, v: Json, after: Text)
    requires s != [] && s[0] == QUOTE && ParseBody(s[1..]) == Parsed(key, colon)
    requires colon != [] && colon[0] == COLON && ParseValue(colon[1..]) == Parsed(v, after)
    requires after != [] && (after[0] == COMMA || after == [RBRACE])
    ensures var spans' := spans[key := colon[1..][..|colon| - 1 - |after|]];
            SpansFrom(spans, s) == if after[0] == COMMA then SpansFrom(spans', after[1..]) else Some(spans')
  {
    hide ParseBody, ParseValue;
  }

  lemma FieldsTailShape(fs: seq<Field>)
    ensures fs == [] ==> FieldsTail(fs) == [RBRACE]
    ensures fs != [] ==> FieldsTail(fs) == [COMMA] + (PrintField(fs[0]) + FieldsTail(fs[1..]))
  {
  }

  lemma {:induction false} ScanFields(spans: map<Text, Text>, fs: seq<Field>, s: Text)
    requires fs != [] && AllWellFormed(fs) && s == PrintField(fs[0]) + FieldsTail(fs[1..])
    ensures SpansFrom(spans, s) == Some(PrintedFields(spans, fs))
    decreases |fs|
  {
    hide ParseBody, ParseValue, PrintField, Print, FieldsTail, SpansFrom, Plain;
    var after := FieldsTail(fs[1..]);
    FieldsTailShape(fs[1..]);
    var colon := ScanField(fs[0], after);
    ScanStep(spans, s, fs[0].key, colon, Plain(fs[0].value), after);
    if |fs| > 1 {
      ScanFields(spans[fs[0].key := Print(fs[0].value)], fs[1..], after[1..]);
    }
  }

  lemma {:induction false} PrintedFieldsAt(spans: map<Text, Text>, fs: seq<Field>, key: Text)
    requires UniqueKeys(fs)
    ensures var r := PrintedFields(spans, fs);
            && (key in r <==> key in spans || HasKey(fs, key))
            && (key in r ==> r[key] == if HasKey(fs, key) then Print(Get(fs, key).value) else spans[key])
    decreases |fs|
  {
    if fs != [] {
      PrintedFieldsAt(spans[fs[0].key := Print(fs[0].value)], fs[1..], key);
      GetOfTail(fs, key);
    }
  }

  lemma GetOfTail(fs: seq<Field>, key: Text)
    requires fs != [] && UniqueKeys(fs)
    ensures HasKey(fs, key) <==> key == fs[0].key || HasKey(fs[1..], key)
    ensures key == fs[0].key ==> !HasKey(fs[1..], key)
  {
    assert forall i | 0 < i < |fs| :: fs[i] == fs[1..][i - 1];
    assert forall i | 0 <= i < |fs[1..]| :: fs[1..][i] == fs[i + 1];
  }

  /** On the text of any object the scanner finds every key, with exactly the text its value prints to. */
  lemma SpansOfPrinted(fs: seq<Field>)
    requires WellFormed(Obj(fs))
    ensures SpansOf(Print(Obj(fs))).Some?
    ensures var spans := SpansOf(Print(Obj(fs))).value;
            && (forall i | 0 <= i < |fs| :: fs[i].key in spans && spans[fs[i].key] == Print(fs[i].value))
            && (forall key | key in spans :: HasKey(fs, key))
  {
    hide ParseBody, ParseValue, SpansFrom, PrintedFields;
    if fs != [] {
      var text := Print(Obj(fs));
      assert text[1..] == PrintField(fs[0]) + FieldsTail(fs[1..]);
      ScanFields(map[], fs, text[1..]);
      assert |PrintField(fs[0])| > 1;
      forall i | 0 <= i < |fs|
        ensures fs[i].key in PrintedFields(map[], fs) && PrintedFields(map[], fs)[fs[i].key] == Print(fs[i].value)
      {
        PrintedFieldsAt(map[], fs, fs[i].key);
        GetAt(fs, i);
      }
      forall key | key in PrintedFields(map[], fs) ensures HasKey(fs, key) {
        PrintedFieldsAt(map[], fs, key);
      }
    }
  }

  // ---- on any text ----

  lemma ValueStart(s: Text)
    requires s != [] && IsSpace(s[0])
    ensures ParseValue(s).Failed?
  {
    assert !StartsWith(s, NULL_TEXT) && !StartsWith(s, TRUE_TEXT) && !StartsWith(s, FALSE_TEXT) by {
      assert NULL_TEXT[0] == 110 && TRUE_TEXT[0] == 116 && FALSE_TEXT[0] == 102;
      assert |s| >= 4 ==> s[..4][0] == s[0];
      assert |s| >= 5 ==> s[..5][0] == s[0];
    }
  }

  lemma FieldStep(s: Text, key: Text, colon: Text, v: Json, after: Text)
    requires s != [] && s[0] == QUOTE && ParseBody(s[1..]) == Parsed(key, colon)
    requires colon != [] && colon[0] == COLON && ParseValue(colon[1..]) == Parsed(v, after)
    ensures SkipSpace(s) == s && ParseField(s) == Parsed(Field(key, v), after)
  {
    if colon[1..] != [] && IsSpace(colon[1..][0]) {
      ValueStart(colon[1..]);
    }
    assert SkipSpace(colon) == colon;
  }

  lemma TailStep(s: Text, f: Field, rest: Text, fs: seq<Field>)
    requires s != [] && s[0] == COMMA && SkipSpace(s[1..]) == s[1..]
    requires ParseField(s[1..]) == Parsed(f, rest) && ParseFieldsTail(rest) == Parsed(fs, [])
    ensures ParseFieldsTail(s) == Parsed([f] + fs, [])
  {
  }

  lemma ObjectStep(text: Text, f: Field, rest: Text, fs: seq<Field>)
    requires |text| > 1 && text[0] == LBRACE && text[1] == QUOTE && SkipSpace(text[1..]) == text[1..]
    requires ParseField(text[1..]) == Parsed(f, rest) && ParseFieldsTail(rest) == Parsed(fs, [])
    ensures ParseValue(text) == Parsed(Obj([f] + fs), [])
  {
    assert text[1..][0] == QUOTE;
  }

  lemma EmptyObject()
    ensures ParseValue([LBRACE, RBRACE]) == Parsed(Obj([]), [])
  {
    var text: Text := [LBRACE, RBRACE];
    assert text[1..] == [RBRACE];
    assert text[1..][1..] == [];
  }

  function KeySet(fs: seq<Field>): set<Text> { if fs == [] then {} else {fs[0].key} + KeySet(fs[1..]) }

  lemma {:induction false} KeySetMembers(fs: seq<Field>, key: Text)
    ensures key in KeySet(fs) <==> HasKey(fs, key)
  {
    if fs != [] {
      KeySetMembers(fs[1..], key);
      assert forall i | 0 < i < |fs| :: fs[i] == fs[1..][i - 1];
      assert forall i | 0 <= i < |fs[1..]| :: fs[1..][i] == fs[i + 1];
    }
  }

  lemma Closed(rest: Text)
    requires rest == [RBRACE]
    ensures ParseFieldsTail(rest) == Parsed([], [])
  {
    assert rest[1..] == [];
  }

  /** Whatever the scanner accepts is a JSON object text, and its keys are the object's. */
  lemma SpansSound(text: Text)
    requires SpansOf(text).Some?
    ensures var p := ParseValue(text);
            p.Parsed? && p.value.Obj? && p.rest == []
            && forall key :: key in SpansOf(text).value <==> HasKey(p.value.fields, key)
  {
    if text == [LBRACE, RBRACE] {
      EmptyObject();
    } else {
      var f, rest, fs := SpansFromSound(map[], text[1..]);
      ObjectStep(text, f, rest, fs);
      assert ([f] + fs)[1..] == fs;
      forall key ensures key in SpansOf(text).value <==> HasKey([f] + fs, key) {
        KeySetMembers([f] + fs, key);
      }
    }
  }

  lemma {:induction false} SpansFromSound(spans: map<Text, Text>, s: Text) returns (f: Field, rest: Text, fs: seq<Field>)
    requires SpansFrom(spans, s).Some?
    ensures s != [] && s[0] == QUOTE && SkipSpace(s) == s
    ensures ParseField(s) == Parsed(f, rest) && ParseFieldsTail(rest) == Parsed(fs, [])
    ensures SpansFrom(spans, s).value.Keys == spans.Keys + {f.key} + KeySet(fs)
    decreases |s|
  {
    var key := ParseBody(s[1..]);
    var value := key.rest[1..];
    var parsed := ParseValue(value);
    f, rest, fs := Field(key.value, parsed.value), parsed.rest, [];
    FieldStep(s, key.value, key.rest, parsed.value, rest);
    if rest[0] == RBRACE {
      Closed(rest);
    } else {
      var g, rest', more := SpansFromSound(spans[key.value := value[..|value| - |rest|]], rest[1..]);
      TailStep(rest, g, rest', more);
      fs := [g] + more;
      assert fs[1..] == more;
    }
  }
}
