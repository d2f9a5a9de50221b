/**
 Text as JavaScript measures it and as Python stores it.

 JavaScript strings are sequences of UTF-16 units; a Python `str` is a sequence
 of code points in which surrogates may also stand alone. The payload budget
 counts the former while holding the latter, so each fast measure below is
 proved equal to its definition on units.
 */
module Utf16 {

  type Unit = u: int | 0 <= u < 0x1_0000
  type Text = seq<Unit>

  type CodePoint = c: int | 0 <= c < 0x11_0000
  type PyStr = seq<CodePoint>

  predicate IsHigh(c: int) { 0xD800 <= c < 0xDC00 }

  predicate IsLow(c: int) { 0xDC00 <= c < 0xE000 }

  predicate IsSurrogate(c: int) { 0xD800 <= c < 0xE000 }

  /** The units start with a surrogate pair: one character of UTF-8. */
  predicate StartsWithPair(t: seq<int>) { |t| >= 2 && IsHigh(t[0]) && IsLow(t[1]) }

  // ---- definitions on units ----

  /** UTF-8 bytes of one unit that is not part of a pair (a lone surrogate is U+FFFD, 3 bytes). */
  function UnitBytes(u: Unit): nat { if u < 0x80 then 1 else if u < 0x800 then 2 else 3 }

  /** UTF-8 bytes of a text: 4 for each surrogate pair, 3 for each lone surrogate. */
  function Utf8Length(t: Text): nat
  {
    if t == [] then 0
    else if StartsWithPair(t) then 4 + Utf8Length(t[2..])
    else UnitBytes(t[0]) + Utf8Length(t[1..])
  }

  function Prefix(t: Text, n: nat): Text { if n < |t| then t[..n] else t }

  lemma {:induction false} Utf8LengthSubadditive(a: Text, b: Text)
    ensures Utf8Length(a + b) <= Utf8Length(a) + Utf8Length(b)
    decreases |a|
  {
    if a == [] {
      assert a + b == b;
    } else if StartsWithPair(a) {
      assert (a + b)[2..] == a[2..] + b;
      Utf8LengthSubadditive(a[2..], b);
    } else if |a| == 1 && StartsWithPair(a + b) {
      assert (a + b)[2..] == b[1..];
      assert !StartsWithPair(b);
    } else {
      assert (a + b)[1..] == a[1..] + b;
      Utf8LengthSubadditive(a[1..], b);
    }
  }

  lemma {:induction false} Utf8LengthAtMostTriple(t: Text)
    ensures Utf8Length(t) <= 3 * |t|
    decreases |t|
  {
    if t == [] {
    } else if StartsWithPair(t) {
      Utf8LengthAtMostTriple(t[2..]);
    } else {
      Utf8LengthAtMostTriple(t[1..]);
    }
  }

  lemma {:induction false} Utf8LengthAtLeastUnits(t: Text)
    ensures Utf8Length(t) >= |t|
    decreases |t|
  {
    if t == [] {
    } else if StartsWithPair(t) {
      Utf8LengthAtLeastUnits(t[2..]);
    } else {
      Utf8LengthAtLeastUnits(t[1..]);
    }
  }

  lemma {:induction false} Utf8LengthOfAscii(t: Text)
    requires forall i | 0 <= i < |t| :: t[i] < 0x80
    ensures Utf8Length(t) == |t|
  {
    if t != [] {
      Utf8LengthOfAscii(t[1..]);
    }
  }

  // ---- code points ----

  function EncodePoint(c: CodePoint): Text
  {
    if c < 0x1_0000 then [c]
    else [0xD800 + (c - 0x1_0000) / 0x400, 0xDC00 + (c - 0x1_0000) % 0x400]
  }

  /** The units of a Python string, every surrogate passed through. */
  function Encode(s: PyStr): Text
  {
    if s == [] then [] else EncodePoint(s[0]) + Encode(s[1..])
  }

  function JoinPair(high: int, low: int): CodePoint
    requires IsHigh(high) && IsLow(low)
  {
    0x1_0000 + (high - 0xD800) * 0x400 + (low - 0xDC00)
  }

  /** UTF-16 decoding with surrogates passed through: pairs join, the rest stand alone. */
  function Decode(t: Text): PyStr
  {
    if t == [] then []
    else if StartsWithPair(t) then [JoinPair(t[0], t[1])] + Decode(t[2..])
    else [t[0]] + Decode(t[1..])
  }

  lemma {:induction false} EncodeDecode(t: Text)
    ensures Encode(Decode(t)) == t
    decreases |t|
  {
    if t == [] {
    } else if StartsWithPair(t) {
      EncodeDecode(t[2..]);
      var c := JoinPair(t[0], t[1]);
      assert EncodePoint(c) == t[..2];
      assert Decode(t) == [c] + Decode(t[2..]);
    } else {
      EncodeDecode(t[1..]);
      assert Decode(t) == [t[0]] + Decode(t[1..]);
    }
  }

  lemma {:induction false} EncodeAppend(a: PyStr, b: PyStr)
    ensures Encode(a + b) == Encode(a) + Encode(b)
  {
    hide EncodePoint;
    if a == [] {
      assert a + b == b;
    } else {
      EncodeAppend(a[1..], b);
      assert (a + b)[1..] == a[1..] + b;
      var first, rest := EncodePoint(a[0]), Encode(a[1..]);
      assert first + (rest + Encode(b)) == first + rest + Encode(b);
    }
  }

  lemma {:induction false} EncodeLength(s: PyStr)
    ensures |s| <= |Encode(s)| <= 2 * |s|
  {
    if s != [] {
      EncodeLength(s[1..]);
    }
  }

  predicate IsAscii(s: PyStr) { forall i | 0 <= i < |s| :: s[i] < 0x80 }

  predicate HasSurrogate(s: PyStr) { exists i | 0 <= i < |s| :: IsSurrogate(s[i]) }

  lemma {:induction false} EncodeAscii(s: PyStr)
    requires forall i | 0 <= i < |s| :: s[i] < 0x80
    ensures Encode(s) == s
  {
    if s != [] {
      EncodeAscii(s[1..]);
      assert s == [s[0]] + s[1..];
    }
  }

  // ---- Python's UTF-8 ----

  /** UTF-8 bytes of one code point, a surrogate written as its own 3 bytes. */
  function PointBytes(c: CodePoint): seq<nat>
  {
    if c < 0x80 then [c]
    else if c < 0x800 then [0xC0 + c / 0x40, 0x80 + c % 0x40]
    else if c < 0x1_0000 then [0xE0 + c / 0x1000, 0x80 + c / 0x40 % 0x40, 0x80 + c % 0x40]
    else [0xF0 + c / 0x4_0000, 0x80 + c / 0x1000 % 0x40, 0x80 + c / 0x40 % 0x40, 0x80 + c % 0x40]
  }

  function Utf8Bytes(s: PyStr): seq<nat>
  {
    if s == [] then [] else PointBytes(s[0]) + Utf8Bytes(s[1..])
  }

  /** Occurrences of the lead bytes F0 to F4 in a byte string. */
  function AstralLeads(bytes: seq<nat>): nat
  {
    if bytes == [] then 0 else (if 0xF0 <= bytes[0] <= 0xF4 then 1 else 0) + AstralLeads(bytes[1..])
  }

  lemma {:induction false} AstralLeadsAppend(a: seq<nat>, b: seq<nat>)
    ensures AstralLeads(a + b) == AstralLeads(a) + AstralLeads(b)
  {
    if a == [] {
      assert a + b == b;
    } else {
      AstralLeadsAppend(a[1..], b);
      assert (a + b)[1..] == a[1..] + b;
    }
  }

  /** Matches of a high surrogate directly followed by a low one, left to right without overlap. */
  function PairMatches(s: PyStr): nat
  {
    if |s| < 2 then 0
    else if StartsWithPair(s) then 1 + PairMatches(s[2..])
    else PairMatches(s[1..])
  }

  // ---- the fast measures ----

  function PyUtf16Length(s: PyStr): nat
  {
    if IsAscii(s) then |s|
    else if !HasSurrogate(s) then (2 * |Encode(s)|) / 2
    else |s| + AstralLeads(Utf8Bytes(s))
  }

  function PyUtf16Prefix(s: PyStr, n: nat): PyStr
  {
    var head := if n < |s| then s[..n] else s;
    if IsAscii(head) then head else Decode(Prefix(Encode(head), n))
  }

  function PyUtf8Length(s: PyStr): int
  {
    if IsAscii(s) then |s|
    else if !HasSurrogate(s) then |Utf8Bytes(s)|
    else |Utf8Bytes(s)| - 2 * PairMatches(s)
  }

  lemma {:induction false} LeadsCountAstral(s: PyStr)
    ensures |s| + AstralLeads(Utf8Bytes(s)) == |Encode(s)|
  {
    if s != [] {
      LeadsCountAstral(s[1..]);
      AstralLeadsAppend(PointBytes(s[0]), Utf8Bytes(s[1..]));
      PointLeads(s[0]);
    }
  }

  lemma PointLeads(c: CodePoint)
    ensures AstralLeads(PointBytes(c)) == |EncodePoint(c)| - 1
  {
    var b := PointBytes(c);
    forall i | 0 < i < |b| ensures b[i] < 0xF0 {
    }
    LeadsOfContinuation(b[1..]);
  }

  lemma {:induction false} LeadsOfContinuation(b: seq<nat>)
    requires forall i | 0 <= i < |b| :: b[i] < 0xF0
    ensures AstralLeads(b) == 0
  {
    if b != [] {
      LeadsOfContinuation(b[1..]);
    }
  }

  /** utf16_length is the number of UTF-16 units. */
  lemma Utf16LengthExact(s: PyStr)
    ensures PyUtf16Length(s) == |Encode(s)|
  {
    if IsAscii(s) {
      EncodeAscii(s);
    } else {
      LeadsCountAstral(s);
    }
  }

  /** utf16_prefix keeps exactly the first n units, splitting a pair when the cut falls inside one. */
  lemma Utf16PrefixExact(s: PyStr, n: nat)
    ensures Encode(PyUtf16Prefix(s, n)) == Prefix(Encode(s), n)
  {
    var head := if n < |s| then s[..n] else s;
    EncodeLength(head);
    if n < |s| {
      assert s == s[..n] + s[n..];
      EncodeAppend(s[..n], s[n..]);
    }
    assert Prefix(Encode(head), n) == Prefix(Encode(s), n);
    if IsAscii(head) {
      EncodeAscii(head);
    } else {
      EncodeDecode(Prefix(Encode(head), n));
    }
  }

  lemma {:induction false} PairsAdjustBytes(s: PyStr)
    ensures |Utf8Bytes(s)| - 2 * PairMatches(s) == Utf8Length(Encode(s))
    decreases |s|
  {
    if s == [] {
    } else if StartsWithPair(s) {
      var rest := s[2..];
      PairsAdjustBytes(rest);
      assert s[1..][1..] == rest;
      assert Encode(s) == [s[0], s[1]] + Encode(rest);
      assert Encode(s)[2..] == Encode(rest);
    } else {
      var rest := s[1..];
      PairsAdjustBytes(rest);
      assert PairMatches(s) == PairMatches(rest);
      if s[0] >= 0x1_0000 {
        assert Encode(s)[2..] == Encode(rest);
      } else {
        assert Encode(s)[1..] == Encode(rest);
        if rest != [] {
          assert Encode(rest)[0] == EncodePoint(rest[0])[0];
        }
        assert !StartsWithPair(Encode(s));
      }
    }
  }

  lemma {:induction false} NoPairWithoutSurrogate(s: PyStr)
    requires !HasSurrogate(s)
    ensures PairMatches(s) == 0
  {
    if |s| >= 2 {
      assert !IsSurrogate(s[0]);
      forall i | 0 <= i < |s[1..]| ensures !IsSurrogate(s[1..][i]) {
        assert s[1..][i] == s[i + 1];
      }
      NoPairWithoutSurrogate(s[1..]);
    }
  }

  /** utf8_length counts 4 bytes for a pair, joined or split, and 3 for a lone surrogate. */
  lemma Utf8LengthExact(s: PyStr)
    ensures PyUtf8Length(s) == Utf8Length(Encode(s))
  {
    PairsAdjustBytes(s);
    if IsAscii(s) {
      EncodeAscii(s);
      Utf8LengthOfAscii(Encode(s));
    } else if !HasSurrogate(s) {
      NoPairWithoutSurrogate(s);
    }
  }

  // ---- cutting ----

  const TRUNCATION_SUFFIX: Text :=
    [0x2026, 91, 103, 114, 97, 112, 104, 109, 105, 110, 100, 58, 32,
     116, 114, 117, 110, 99, 97, 116, 101, 100, 93]

  /** A text of more than n units becomes its prefix and the truncation suffix. */
  function Cut(t: Text, n: nat): Text
  {
    if |t| <= n then t else t[..n] + TRUNCATION_SUFFIX
  }

  /** The shape of _cut on a Python string: the length test is tried before the measure. */
  function PyCut(s: PyStr, n: nat): PyStr
  {
    if |s| <= n / 2 || PyUtf16Length(s) <= n then s else PyUtf16Prefix(s, n) + TRUNCATION_SUFFIX
  }

  lemma CutExact(s: PyStr, n: nat)
    ensures Encode(PyCut(s, n)) == Cut(Encode(s), n)
  {
    hide Encode, PyUtf16Prefix;
    EncodeLength(s);
    Utf16LengthExact(s);
    if |s| <= n / 2 || PyUtf16Length(s) <= n {
    } else {
      Utf16PrefixExact(s, n);
      EncodeAppend(PyUtf16Prefix(s, n), TRUNCATION_SUFFIX);
      assert Encode(TRUNCATION_SUFFIX) == TRUNCATION_SUFFIX by { EncodeBmp(TRUNCATION_SUFFIX); }
    }
  }

  lemma {:induction false} EncodeBmp(s: PyStr)
    requires forall i | 0 <= i < |s| :: s[i] < 0x1_0000
    ensures Encode(s) == s
  {
    if s != [] {
      EncodeBmp(s[1..]);
      assert s == [s[0]] + s[1..];
    }
  }
}
