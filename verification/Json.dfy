/**
 JSON values, their JSON.stringify text and a scanner for it.

 Objects keep insertion order, so they are sequences of fields. A number is the
 token it prints to. `Print` is the compact text of ECMA-262 section 25.5.2,
 `ParseValue` reads the grammar of sections 2 to 7 of RFC 8259, and
 `ParsePrinted` connects the two.
 */
module Json {
  import opened Utf16

  datatype Option<+T> = None | Some(value: T)

  datatype Json =
    | Null
    | Bool(b: bool)
    | Number(token: Text)
    | NonFinite                  // NaN, an infinity or an overlong integer: prints as null
    | Str(text: Text)
    | Arr(items: seq<Json>)
    | Obj(fields: seq<Field>)
    | Opaque                     // a host object with no JSON form

  datatype Field = Field(key: Text, value: Json)

  // ---- dictionary reading of an object ----

  predicate HasKey(fs: seq<Field>, key: Text) { exists i | 0 <= i < |fs| :: fs[i].key == key }

  /** The value of a key; a key is looked up only where keys are unique. */
  function Get(fs: seq<Field>, key: Text): (r: Option<Json>)
    ensures r.Some? <==> HasKey(fs, key)
    ensures r.Some? ==> exists i | 0 <= i < |fs| :: fs[i] == Field(key, r.value)
  {
    if fs == [] then None
    else if fs[0].key == key then assert fs[0] == Field(key, fs[0].value); Some(fs[0].value)
    else
      var r := Get(fs[1..], key);
      assert forall i | 0 <= i < |fs[1..]| :: fs[1..][i] == fs[i + 1];
      assert HasKey(fs, key) ==> HasKey(fs[1..], key) by {
        if i :| 0 <= i < |fs| && fs[i].key == key { assert fs[1..][i - 1].key == key; }
      }
      r
  }

  predicate UniqueKeys(fs: seq<Field>) { forall i, j | 0 <= i < j < |fs| :: fs[i].key != fs[j].key }

  lemma {:induction false} GetAt(fs: seq<Field>, i: nat)
    requires UniqueKeys(fs) && i < |fs|
    ensures Get(fs, fs[i].key) == Some(fs[i].value)
  {
    if i > 0 {
      GetAt(fs[1..], i - 1);
    }
  }

  // ---- characters ----

  const QUOTE := 34
  const BACKSLASH := 92
  const COMMA := 44
  const COLON := 58
  const LBRACKET := 91
  const RBRACKET := 93
  const LBRACE := 123
  const RBRACE := 125
  const MINUS := 45
  const PLUS := 43
  const DOT := 46
  const ZERO := 48
  const LOWER_E := 101
  const UPPER_E := 69
  const LOWER_U := 117

  const NULL_TEXT: Text := [110, 117, 108, 108]
  const TRUE_TEXT: Text := [116, 114, 117, 101]
  const FALSE_TEXT: Text := [102, 97, 108, 115, 101]

  predicate IsDigit(u: int) { 48 <= u <= 57 }

  predicate IsSpace(u: int) { u == 32 || u == 9 || u == 10 || u == 13 }

  // ---- strings ----

  function HexDigit(n: nat): Unit
    requires n < 16
  {
    if n < 10 then 48 + n else 87 + n
  }

  predicate IsHex(u: int) { IsDigit(u) || 65 <= u <= 70 || 97 <= u <= 102 }

  function HexValue(u: int): (v: nat)
    requires IsHex(u)
    ensures v < 16
  {
    if IsDigit(u) then u - 48 else if u <= 70 then u - 55 else u - 87
  }

  function Hex4(u: Unit): Text
  {
    [HexDigit(u / 16 / 16 / 16), HexDigit(u / 16 / 16 % 16), HexDigit(u / 16 % 16), HexDigit(u % 16)]
  }

  function Hex4Value(h: Text): (u: Unit)
    requires |h| == 4 && forall i | 0 <= i < 4 :: IsHex(h[i])
  {
    HexValue(h[0]) * 0x1000 + HexValue(h[1]) * 0x100 + HexValue(h[2]) * 16 + HexValue(h[3])
  }

  /** One unit inside a string literal; a surrogate reaching this point is a lone one. */
  function EscapeUnit(u: Unit): Text
  {
    if u == QUOTE || u == BACKSLASH then [BACKSLASH, u]
    else if u == 8 then [BACKSLASH, 98]
    else if u == 9 then [BACKSLASH, 116]
    else if u == 10 then [BACKSLASH, 110]
    else if u == 12 then [BACKSLASH, 102]
    else if u == 13 then [BACKSLASH, 114]
    else if u < 0x20 || IsSurrogate(u) then [BACKSLASH, LOWER_U] + Hex4(u)
    else [u]
  }

  function QuoteBody(t: Text): Text
  {
    if t == [] then []
    else if StartsWithPair(t) then [t[0], t[1]] + QuoteBody(t[2..])
    else EscapeUnit(t[0]) + QuoteBody(t[1..])
  }

  function Quote(t: Text): Text { [QUOTE] + QuoteBody(t) + [QUOTE] }

  // ---- printing ----

  function Print(j: Json): Text
    decreases j, 0
  {
    match j
    case Null => NULL_TEXT
    case Bool(b) => if b then TRUE_TEXT else FALSE_TEXT
    case Number(token) => token
    case NonFinite => NULL_TEXT
    case Str(text) => Quote(text)
    case Opaque => []
    case Arr(items) =>
      if items == [] then [LBRACKET, RBRACKET] else [LBRACKET] + Print(items[0]) + ItemsTail(items[1..])
    case Obj(fields) =>
      if fields == [] then [LBRACE, RBRACE] else [LBRACE] + PrintField(fields[0]) + FieldsTail(fields[1..])
  }

  function ItemsTail(items: seq<Json>): Text
    decreases items, 0
  {
    if items == [] then [RBRACKET] else [COMMA] + Print(items[0]) + ItemsTail(items[1..])
  }

  function PrintField(f: Field): Text
    decreases f, 1
  {
    Quote(f.key) + [COLON] + Print(f.value)
  }

  function FieldsTail(fs: seq<Field>): Text
    decreases fs, 0
  {
    if fs == [] then [RBRACE] else [COMMA] + PrintField(fs[0]) + FieldsTail(fs[1..])
  }

  /** What reading a printed value back gives: a non-finite number has become null. */
  function Plain(j: Json): Json
  {
    match j
    case NonFinite => Null
    case Arr(items) => Arr(PlainItems(items))
    case Obj(fields) => Obj(PlainFields(fields))
    case _ => j
  }

  function PlainItems(items: seq<Json>): (r: seq<Json>)
    ensures |r| == |items|
  {
    if items == [] then [] else [Plain(items[0])] + PlainItems(items[1..])
  }

  function PlainFields(fs: seq<Field>): (r: seq<Field>)
    ensures |r| == |fs|
  {
    if fs == [] then [] else [Field(fs[0].key, Plain(fs[0].value))] + PlainFields(fs[1..])
  }

  // ---- number tokens: -?(0|[1-9][0-9]*)(\.[0-9]+)?([eE][+-]?[0-9]+)? ----

  predicate StartsDigit(s: Text) { s != [] && IsDigit(s[0]) }

  function DropDigits(s: Text): (r: Text)
    ensures |r| <= |s| && (StartsDigit(s) ==> |r| < |s|)
  {
    if StartsDigit(s) then DropDigits(s[1..]) else s
  }

  function DropInteger(s: Text): (r: Text)
    ensures |r| <= |s| && (StartsDigit(s) ==> |r| < |s|)
  {
    if StartsDigit(s) && s[0] == ZERO then s[1..] else DropDigits(s)
  }

  function DropFraction(s: Text): (r: Text)
    ensures |r| <= |s|
  {
    if |s| >= 2 && s[0] == DOT && IsDigit(s[1]) then DropDigits(s[1..]) else s
  }

  function DropSign(s: Text): Text { if s != [] && (s[0] == PLUS || s[0] == MINUS) then s[1..] else s }

  function DropExponent(s: Text): (r: Text)
    ensures |r| <= |s|
  {
    if s != [] && (s[0] == LOWER_E || s[0] == UPPER_E) && StartsDigit(DropSign(s[1..])) then
      DropDigits(DropSign(s[1..]))
    else s
  }

  function DropMinus(s: Text): Text { if s != [] && s[0] == MINUS then s[1..] else s }

  /** What follows the longest number token at the start of s; s itself when there is none. */
  function DropNumber(s: Text): (r: Text)
    ensures |r| <= |s|
  {
    var u := DropMinus(s);
    if !StartsDigit(u) then s else DropExponent(DropFraction(DropInteger(u)))
  }

  predicate IsNumberToken(t: Text) { t != [] && DropNumber(t) == [] }

  /** A JSON value proper: grammatical number tokens, unique keys, no host objects. */
  predicate WellFormed(j: Json)
  {
    match j
    case Opaque => false
    case Number(token) => IsNumberToken(token)
    case Arr(items) => forall i | 0 <= i < |items| :: WellFormed(items[i])
    case Obj(fields) => UniqueKeys(fields) && forall i | 0 <= i < |fields| :: WellFormed(fields[i].value)
    case _ => true
  }

  /** What may follow a value inside a compact JSON text. */
  predicate Delimited(rest: Text)
  {
    rest == [] || rest[0] == COMMA || rest[0] == RBRACKET || rest[0] == RBRACE
  }

  // ---- scanning ----

  datatype Parsed<+T> = Failed | Parsed(value: T, rest: Text)

  function SkipSpace(s: Text): (r: Text)
    ensures |r| <= |s|
  {
    if s != [] && IsSpace(s[0]) then SkipSpace(s[1..]) else s
  }

  function SimpleEscape(u: Unit): Option<Unit>
  {
    if u == QUOTE || u == BACKSLASH || u == 47 then Some(u)
    else if u == 98 then Some(8)
    else if u == 102 then Some(12)
    else if u == 110 then Some(10)
    else if u == 114 then Some(13)
    else if u == 116 then Some(9)
    else None
  }

  function Prepend(u: Unit, p: Parsed<Text>): (r: Parsed<Text>)
    ensures r.Parsed? <==> p.Parsed?
    ensures r.Parsed? ==> r.rest == p.rest
  {
    match p
    case Failed => Failed
    case Parsed(t, rest) => Parsed([u] + t, rest)
  }

  /** A string literal after its opening quote. */
  function ParseBody(s: Text): (p: Parsed<Text>)
    ensures p.Parsed? ==> |p.rest| < |s|
    decreases |s|
  {
    if s == [] then Failed
    else if s[0] == QUOTE then Parsed([], s[1..])
    else if s[0] == BACKSLASH then
      if |s| >= 6 && s[1] == LOWER_U && IsHex(s[2]) && IsHex(s[3]) && IsHex(s[4]) && IsHex(s[5]) then
        Prepend(Hex4Value(s[2..6]), ParseBody(s[6..]))
      else if |s| >= 2 && SimpleEscape(s[1]).Some? then
        Prepend(SimpleEscape(s[1]).value, ParseBody(s[2..]))
      else Failed
    else if s[0] < 0x20 then Failed
    else Prepend(s[0], ParseBody(s[1..]))
  }

  predicate StartsWith(s: Text, p: Text) { |p| <= |s| && s[..|p|] == p }

  /** A literal name or a number. */
  function ParseScalar(s: Text): (p: Parsed<Json>)
    ensures p.Parsed? ==> |p.rest| < |s|
  {
    if StartsWith(s, NULL_TEXT) then Parsed(Null, s[4..])
    else if StartsWith(s, TRUE_TEXT) then Parsed(Bool(true), s[4..])
    else if StartsWith(s, FALSE_TEXT) then Parsed(Bool(false), s[5..])
    else
      var rest := DropNumber(s);
      if |rest| == |s| then Failed else Parsed(Number(s[..|s| - |rest|]), rest)
  }

  function ParseValue(s: Text): (p: Parsed<Json>)
    ensures p.Parsed? ==> |p.rest| < |s|
    decreases |s|, 1
  {
    if s == [] then Failed
    else if s[0] == QUOTE then
      match ParseBody(s[1..])
      case Failed => Failed
      case Parsed(t, rest) => Parsed(Str(t), rest)
    else if s[0] == LBRACKET then
      var s1 := SkipSpace(s[1..]);
      if s1 != [] && s1[0] == RBRACKET then Parsed(Arr([]), s1[1..])
      else
        match ParseValue(s1)
        case Failed => Failed
        case Parsed(item, rest) =>
          match ParseItemsTail(rest)
          case Failed => Failed
          case Parsed(items, rest') => Parsed(Arr([item] + items), rest')
    else if s[0] == LBRACE then
      var s1 := SkipSpace(s[1..]);
      if s1 != [] && s1[0] == RBRACE then Parsed(Obj([]), s1[1..])
      else
        match ParseField(s1)
        case Failed => Failed
        case Parsed(f, rest) =>
          match ParseFieldsTail(rest)
          case Failed => Failed
          case Parsed(fs, rest') => Parsed(Obj([f] + fs), rest')
    else ParseScalar(s)
  }

  function ParseItemsTail(s0: Text): (p: Parsed<seq<Json>>)
    ensures p.Parsed? ==> |p.rest| < |s0|
    decreases |s0|, 0
  {
    var s := SkipSpace(s0);
    if s == [] then Failed
    else if s[0] == RBRACKET then Parsed([], s[1..])
    else if s[0] != COMMA then Failed
    else
      match ParseValue(SkipSpace(s[1..]))
      case Failed => Failed
      case Parsed(item, rest) =>
        match ParseItemsTail(rest)
        case Failed => Failed
        case Parsed(items, rest') => Parsed([item] + items, rest')
  }

  function ParseField(s: Text): (p: Parsed<Field>)
    ensures p.Parsed? ==> |p.rest| < |s|
    decreases |s|, 2
  {
    if s == [] || s[0] != QUOTE then Failed
    else
      match ParseBody(s[1..])
      case Failed => Failed
      case Parsed(key, rest) =>
        var colon := SkipSpace(rest);
        if colon == [] || colon[0] != COLON then Failed
        else
          match ParseValue(SkipSpace(colon[1..]))
          case Failed => Failed
          case Parsed(v, rest') => Parsed(Field(key, v), rest')
  }

  function ParseFieldsTail(s0: Text): (p: Parsed<seq<Field>>)
    ensures p.Parsed? ==> |p.rest| < |s0|
    decreases |s0|, 0
  {
    var s := SkipSpace(s0);
    if s == [] then Failed
    else if s[0] == RBRACE then Parsed([], s[1..])
    else if s[0] != COMMA then Failed
    else
      match ParseField(SkipSpace(s[1..]))
      case Failed => Failed
      case Parsed(f, rest) =>
        match ParseFieldsTail(rest)
        case Failed => Failed
        case Parsed(fs, rest') => Parsed([f] + fs, rest')
  }

  // ---- the round trip ----

  lemma HexDigitRoundTrip(n: nat)
    requires n < 16
    ensures IsHex(HexDigit(n)) && HexValue(HexDigit(n)) == n
  {
  }

  lemma HexRoundTrip(u: Unit)
    ensures (forall i | 0 <= i < 4 :: IsHex(Hex4(u)[i])) && Hex4Value(Hex4(u)) == u
  {
    var a := u / 16;
    var b := a / 16;
    var c := b / 16;
    HexDigitRoundTrip(u % 16);
    HexDigitRoundTrip(a % 16);
    HexDigitRoundTrip(b % 16);
    HexDigitRoundTrip(c);
    assert u == 16 * a + u % 16 && a == 16 * b + a % 16 && b == 16 * c + b % 16;
  }

  lemma ParseEscaped(u: Unit, s: Text)
    ensures ParseBody(EscapeUnit(u) + s) == Prepend(u, ParseBody(s))
  {
    hide HexDigit, HexValue;
    var e := EscapeUnit(u);
    assert (e + s)[|e|..] == s;
    if |e| == 6 {
      HexRoundTrip(u);
      assert e[2..] == Hex4(u);
    }
  }

  lemma ParseRaw(u: Unit, s: Text)
    requires u != QUOTE && u != BACKSLASH && u >= 0x20
    ensures ParseBody([u] + s) == Prepend(u, ParseBody(s))
  {
    assert ([u] + s)[1..] == s;
  }

  lemma PairFirst(a: Unit, b: Unit, r: Text, close: Text)
    ensures [a, b] + r + close == [a] + ([b] + (r + close))
  {
  }

  lemma OneFirst(e: Text, r: Text, close: Text)
    ensures e + r + close == e + (r + close)
  {
  }

  lemma QuoteBodyStep(t: Text, close: Text)
    requires t != []
    ensures StartsWithPair(t) ==>
              QuoteBody(t) + close == [t[0]] + ([t[1]] + (QuoteBody(t[2..]) + close)) && t == [t[0]] + ([t[1]] + t[2..])
    ensures !StartsWithPair(t) ==>
              QuoteBody(t) + close == EscapeUnit(t[0]) + (QuoteBody(t[1..]) + close) && t == [t[0]] + t[1..]
  {
    hide EscapeUnit;
    if StartsWithPair(t) {
      PairFirst(t[0], t[1], QuoteBody(t[2..]), close);
      PairFirst(t[0], t[1], t[2..], []);
      assert t == [t[0], t[1]] + t[2..] && t[2..] + [] == t[2..] && t + [] == t;
    } else {
      OneFirst(EscapeUnit(t[0]), QuoteBody(t[1..]), close);
    }
  }

  lemma {:induction false} ParseQuotedBody(t: Text, close: Text)
    requires close != [] && close[0] == QUOTE
    ensures ParseBody(QuoteBody(t) + close) == Parsed(t, close[1..])
    decreases |t|
  {
    if t == [] {
      assert QuoteBody(t) + close == close;
    } else {
      QuoteBodyStep(t, close);
      if StartsWithPair(t) {
        var inner := QuoteBody(t[2..]) + close;
        ParseQuotedBody(t[2..], close);
        ParseRaw(t[1], inner);
        ParseRaw(t[0], [t[1]] + inner);
      } else {
        ParseQuotedBody(t[1..], close);
        ParseEscaped(t[0], QuoteBody(t[1..]) + close);
      }
    }
  }

  lemma QuoteShape(t: Text, rest: Text)
    ensures Quote(t) + rest == [QUOTE] + (QuoteBody(t) + ([QUOTE] + rest))
  {
  }

  lemma ParseQuoted(t: Text, rest: Text)
    ensures Quote(t) + rest != [] && (Quote(t) + rest)[0] == QUOTE
    ensures ParseBody((Quote(t) + rest)[1..]) == Parsed(t, rest)
  {
    QuoteShape(t, rest);
    ParseQuotedBody(t, [QUOTE] + rest);
    assert (Quote(t) + rest)[1..] == QuoteBody(t) + ([QUOTE] + rest);
  }

  lemma {:induction false} DropDigitsAppend(t: Text, rest: Text)
    requires Delimited(rest)
    ensures DropDigits(t + rest) == DropDigits(t) + rest
  {
    if StartsDigit(t) {
      DropDigitsAppend(t[1..], rest);
      assert (t + rest)[1..] == t[1..] + rest;
    }
  }

  lemma DropIntegerAppend(t: Text, rest: Text)
    requires Delimited(rest)
    ensures DropInteger(t + rest) == DropInteger(t) + rest
  {
    DropDigitsAppend(t, rest);
    if t != [] {
      assert (t + rest)[1..] == t[1..] + rest;
    }
  }

  lemma DropFractionAppend(t: Text, rest: Text)
    requires Delimited(rest)
    ensures DropFraction(t + rest) == DropFraction(t) + rest
  {
    if t != [] {
      assert (t + rest)[1..] == t[1..] + rest;
      DropDigitsAppend(t[1..], rest);
    }
  }

  lemma DropExponentAppend(t: Text, rest: Text)
    requires Delimited(rest)
    ensures DropExponent(t + rest) == DropExponent(t) + rest
  {
    if t != [] {
      var u := t[1..];
      assert (t + rest)[1..] == u + rest;
      if u != [] {
        assert (u + rest)[1..] == u[1..] + rest;
      }
      assert DropSign(u + rest) == DropSign(u) + rest;
      DropDigitsAppend(DropSign(u), rest);
    }
  }

  lemma DropNumberAppend(t: Text, rest: Text)
    requires IsNumberToken(t) && Delimited(rest)
    ensures DropNumber(t + rest) == rest
  {
    assert (t + rest)[1..] == t[1..] + rest;
    var u := DropMinus(t);
    assert DropMinus(t + rest) == u + rest;
    DropIntegerAppend(u, rest);
    DropFractionAppend(DropInteger(u), rest);
    DropExponentAppend(DropFraction(DropInteger(u)), rest);
    assert StartsDigit(u);
    assert [] + rest == rest;
  }

  /** A printed value never starts with white space, a closing bracket or nothing. */
  lemma PrintStart(j: Json)
    requires WellFormed(j)
    ensures Print(j) != []
    ensures var c := Print(j)[0]; !IsSpace(c) && c != RBRACKET && c != RBRACE
  {
  }

  /** No literal name starts with a digit or a minus. */
  lemma NoLiteral(s: Text)
    requires s != [] && (IsDigit(s[0]) || s[0] == MINUS)
    ensures !StartsWith(s, NULL_TEXT) && !StartsWith(s, TRUE_TEXT) && !StartsWith(s, FALSE_TEXT)
  {
    assert NULL_TEXT[0] == 110 && TRUE_TEXT[0] == 116 && FALSE_TEXT[0] == 102;
    assert |s| >= 4 ==> s[..4][0] == s[0];
    assert |s| >= 5 ==> s[..5][0] == s[0];
  }

  lemma ParsesScalar(s: Text)
    requires s != [] && s[0] != QUOTE && s[0] != LBRACKET && s[0] != LBRACE
    ensures ParseValue(s) == ParseScalar(s)
  {
    hide ParseScalar, ParseBody, ParseField, ParseItemsTail, ParseFieldsTail, SkipSpace;
  }

  /** What starts with a digit or a minus is scanned as a number. */
  lemma ScanNumber(s: Text, rest: Text)
    requires s != [] && (IsDigit(s[0]) || s[0] == MINUS) && DropNumber(s) == rest && |rest| < |s|
    ensures ParseValue(s) == Parsed(Number(s[..|s| - |rest|]), rest)
  {
    hide StartsWith, DropNumber, ParseValue;
    NoLiteral(s);
    ParsesScalar(s);
  }

  lemma NumberStart(token: Text)
    requires IsNumberToken(token)
    ensures IsDigit(token[0]) || token[0] == MINUS
  {
  }

  lemma ParsePrintedNumber(token: Text, rest: Text)
    requires IsNumberToken(token) && Delimited(rest)
    ensures ParseValue(token + rest) == Parsed(Number(token), rest)
  {
    hide ParseValue, DropNumber;
    var s := token + rest;
    assert s[..|token|] == token;
    assert s[0] == token[0];
    DropNumberAppend(token, rest);
    NumberStart(token);
    ScanNumber(s, rest);
  }

  lemma {:induction false} ParsePrinted(j: Json, rest: Text)
    requires WellFormed(j) && Delimited(rest)
    ensures ParseValue(Print(j) + rest) == Parsed(Plain(j), rest)
    decreases j, 0
  {
    var s := Print(j) + rest;
    assert s[|Print(j)|..] == rest;
    match j
    case Null => assert s[..4] == NULL_TEXT;
    case Bool(b) => assert s[..|Print(j)|] == Print(j);
    case NonFinite => assert s[..4] == NULL_TEXT;
    case Number(token) => ParsePrintedNumber(token, rest);
    case Str(text) => ParseQuoted(text, rest);
    case Arr(items) => ParsePrintedArray(items, rest);
    case Obj(fields) => ParsePrintedObject(fields, rest);
  }

  lemma {:induction false} ParsePrintedArray(items: seq<Json>, rest: Text)
    requires forall i | 0 <= i < |items| :: WellFormed(items[i])
    ensures ParseValue(Print(Arr(items)) + rest) == Parsed(Arr(PlainItems(items)), rest)
    decreases items, 2
  {
    var s := Print(Arr(items)) + rest;
    if items == [] {
      assert s[1..] == [RBRACKET] + rest;
      assert ([RBRACKET] + rest)[1..] == rest;
    } else {
      var after := ItemsTail(items[1..]) + rest;
      assert s == [LBRACKET] + (Print(items[0]) + after);
      assert s[1..] == Print(items[0]) + after;
      PrintStart(items[0]);
      ParsePrinted(items[0], after);
      ParseItems(items[1..], rest);
    }
  }

  lemma ScanObject(body: Text, f: Field, after: Text, fs: seq<Field>, rest: Text)
    requires body != [] && body[0] == QUOTE && ParseField(body) == Parsed(f, after) && ParseFieldsTail(after) == Parsed(fs, rest)
    ensures ParseValue([LBRACE] + body) == Parsed(Obj([f] + fs), rest)
  {
    hide ParseField, ParseFieldsTail, ParseItemsTail, ParseBody, DropNumber;
    assert ([LBRACE] + body)[1..] == body;
    assert SkipSpace(body) == body;
  }

  lemma PrintedObject(fields: seq<Field>, rest: Text)
    requires fields != []
    ensures Print(Obj(fields)) + rest == [LBRACE] + (PrintField(fields[0]) + (FieldsTail(fields[1..]) + rest))
  {
    hide PrintField, FieldsTail;
  }

  lemma {:induction false} ParsePrintedObject(fields: seq<Field>, rest: Text)
    requires forall i | 0 <= i < |fields| :: WellFormed(fields[i].value)
    ensures ParseValue(Print(Obj(fields)) + rest) == Parsed(Obj(PlainFields(fields)), rest)
    decreases fields, 2
  {
    if fields == [] {
      var s := Print(Obj(fields)) + rest;
      assert s[1..] == [RBRACE] + rest;
      assert ([RBRACE] + rest)[1..] == rest;
    } else {
      hide ParseValue, ParseField, ParseFieldsTail, Print, PrintField, FieldsTail;
      var after := FieldsTail(fields[1..]) + rest;
      PrintedObject(fields, rest);
      ParsePrintedField(fields[0], after);
      ParseFields(fields[1..], rest);
      ScanObject(PrintField(fields[0]) + after, Field(fields[0].key, Plain(fields[0].value)), after, PlainFields(fields[1..]), rest);
    }
  }

  lemma {:induction false} ParseItems(items: seq<Json>, rest: Text)
    requires forall i | 0 <= i < |items| :: WellFormed(items[i])
    ensures ParseItemsTail(ItemsTail(items) + rest) == Parsed(PlainItems(items), rest)
    decreases items, 0
  {
    var s := ItemsTail(items) + rest;
    if items == [] {
      assert s[1..] == rest;
    } else {
      var after := ItemsTail(items[1..]) + rest;
      assert s == [COMMA] + (Print(items[0]) + after);
      assert s[1..] == Print(items[0]) + after;
      PrintStart(items[0]);
      ParsePrinted(items[0], after);
      ParseItems(items[1..], rest);
    }
  }

  lemma {:induction false} ParsePrintedField(f: Field, rest: Text)
    requires WellFormed(f.value) && Delimited(rest)
    ensures PrintField(f) + rest != [] && (PrintField(f) + rest)[0] == QUOTE
    ensures ParseField(PrintField(f) + rest) == Parsed(Field(f.key, Plain(f.value)), rest)
    decreases f, 1
  {
    hide Print, Quote, ParseBody, ParseValue, Plain;
    var after := [COLON] + (Print(f.value) + rest);
    assert PrintField(f) + rest == Quote(f.key) + after;
    ParseQuoted(f.key, after);
    assert after[1..] == Print(f.value) + rest;
    PrintStart(f.value);
    ParsePrinted(f.value, rest);
  }

  lemma {:induction false} ParseFields(fs: seq<Field>, rest: Text)
    requires forall i | 0 <= i < |fs| :: WellFormed(fs[i].value)
    ensures ParseFieldsTail(FieldsTail(fs) + rest) == Parsed(PlainFields(fs), rest)
    decreases fs, 0
  {
    var s := FieldsTail(fs) + rest;
    if fs == [] {
      assert s[1..] == rest;
    } else {
      var after := FieldsTail(fs[1..]) + rest;
      assert s == [COMMA] + (PrintField(fs[0]) + after);
      assert s[1..] == PrintField(fs[0]) + after;
      ParsePrintedField(fs[0], after);
      ParseFields(fs[1..], rest);
    }
  }

  /** Two values print to the same text exactly when they read back as the same value. */
  lemma PrintInjective(a: Json, b: Json)
    requires WellFormed(a) && WellFormed(b)
    ensures Print(a) == Print(b) <==> Plain(a) == Plain(b)
  {
    ParsePrinted(a, []);
    ParsePrinted(b, []);
    assert Print(a) + [] == Print(a) && Print(b) + [] == Print(b);
    PrintPlain(a);
    PrintPlain(b);
  }

  lemma {:induction false} PrintPlain(j: Json)
    ensures Print(Plain(j)) == Print(j)
    decreases j, 0
  {
    match j
    case Arr(items) =>
      if items != [] {
        PrintPlain(items[0]);
        PrintPlainItems(items[1..]);
      }
    case Obj(fields) =>
      if fields != [] {
        PrintPlain(fields[0].value);
        PrintPlainFields(fields[1..]);
      }
    case _ =>
  }

  lemma {:induction false} PrintPlainItems(items: seq<Json>)
    ensures ItemsTail(PlainItems(items)) == ItemsTail(items)
    decreases items, 0
  {
    if items != [] {
      PrintPlain(items[0]);
      PrintPlainItems(items[1..]);
    }
  }

  lemma {:induction false} PrintPlainFields(fs: seq<Field>)
    ensures FieldsTail(PlainFields(fs)) == FieldsTail(fs)
    decreases fs, 0
  {
    if fs != [] {
      PrintPlain(fs[0].value);
      PrintPlainFields(fs[1..]);
    }
  }
}
