/**
 Number::toString of ECMA-262 section 6.1.6.1.20, as `js_number` writes it.

 A finite double arrives as the digits and exponent of its shortest decimal.
 `JsNumberExact` reads the printed text back to the very same real value, and
 `JsNumberInjective` says two numbers print alike exactly when they are equal.
 */
module JsNumber {
  import opened Utf16
  import opened Json

  // ---- digit strings ----

  predicate AllDigits(t: Text) { forall i | 0 <= i < |t| :: IsDigit(t[i]) }

  function DigitValue(u: int): nat { if IsDigit(u) then u - 48 else 0 }

  function ToNat(ds: Text): nat
  {
    if ds == [] then 0 else ToNat(ds[..|ds| - 1]) * 10 + DigitValue(ds[|ds| - 1])
  }

  /** The decimal spelling of a natural number. */
  function NatDigits(n: nat): (t: Text)
    ensures AllDigits(t) && t != []
  {
    if n < 10 then [48 + n] else NatDigits(n / 10) + [48 + n % 10]
  }

  lemma {:induction false} NatDigitsRoundTrip(n: nat)
    ensures ToNat(NatDigits(n)) == n
    ensures n > 0 ==> NatDigits(n)[0] != ZERO
  {
    var t := NatDigits(n);
    if n < 10 {
      assert t[..0] == [];
    } else {
      NatDigitsRoundTrip(n / 10);
      assert t[..|t| - 1] == NatDigits(n / 10);
    }
  }

  function Zeros(n: nat): (t: Text)
    ensures |t| == n && forall i | 0 <= i < n :: t[i] == ZERO
  {
    if n == 0 then [] else Zeros(n - 1) + [ZERO]
  }

  function StripLeading(ds: Text): (r: Text)
    ensures r != [] ==> r[0] != ZERO
    ensures AllDigits(ds) ==> AllDigits(r)
  {
    if ds != [] && ds[0] == ZERO then StripLeading(ds[1..]) else ds
  }

  function StripTrailing(ds: Text): (r: Text)
    ensures |r| <= |ds| && r == ds[..|r|]
    ensures r != [] ==> r[|r| - 1] != ZERO
  {
    if ds != [] && ds[|ds| - 1] == ZERO then StripTrailing(ds[..|ds| - 1]) else ds
  }

  // ---- printing ----

  /** The text of 0.d1..dk times ten to the n, in the four layouts of Number::toString. */
  function Format(digits: Text, n: int): Text
    requires digits != []
  {
    var k := |digits|;
    if k <= n <= 21 then digits + Zeros(n - k)
    else if 0 < n <= 21 then digits[..n] + ([DOT] + digits[n..])
    else if -6 < n <= 0 then [ZERO] + ([DOT] + (Zeros(-n) + digits))
    else
      var e := n - 1;
      var mantissa := if k == 1 then digits else [digits[0]] + ([DOT] + digits[1..]);
      mantissa + ([LOWER_E, if e >= 0 then PLUS else MINUS] + NatDigits(if e >= 0 then e else -e))
  }

  function Signed(negative: bool): Text { if negative then [MINUS] else [] }

  /** js_number of the double whose shortest decimal is +-ds times ten to the exponent. */
  function JsNumber(negative: bool, ds: Text, exponent: int): Text
  {
    var leading := StripLeading(ds);
    var digits := StripTrailing(leading);
    if digits == [] then [ZERO]
    else Signed(negative) + Format(digits, |digits| + exponent + (|leading| - |digits|))
  }

  // ---- values ----

  /** m times ten to the e. */
  function Scaled(m: nat, e: int): real
    decreases if e < 0 then -e else e
  {
    if e == 0 then m as real else if e > 0 then 10.0 * Scaled(m, e - 1) else 0.1 * Scaled(m, e + 1)
  }

  lemma {:induction false} ScaledTen(m: nat, e: int)
    ensures Scaled(10 * m, e) == Scaled(m, e + 1)
    decreases if e < 0 then -e else e
  {
    if e > 0 {
      ScaledTen(m, e - 1);
    } else if e < 0 {
      ScaledTen(m, e + 1);
    }
  }

  lemma {:induction false} ScaledOrder(a: nat, b: nat, e: int)
    ensures a < b <==> Scaled(a, e) < Scaled(b, e)
    ensures Scaled(0, e) == 0.0
    decreases if e < 0 then -e else e
  {
    if e > 0 {
      ScaledOrder(a, b, e - 1);
    } else if e < 0 {
      ScaledOrder(a, b, e + 1);
    }
  }

  datatype Decimal = Decimal(negative: bool, mantissa: nat, exponent: int) {
    function Value(): real { if negative then -Scaled(mantissa, exponent) else Scaled(mantissa, exponent) }
  }

  function TakeDigits(s: Text): Text { if StartsDigit(s) then [s[0]] + TakeDigits(s[1..]) else [] }

  /** Reading a number token: whole digits, fraction digits, then the exponent. */
  function Read(t: Text): Decimal
  {
    var d := ReadUnsigned(DropMinus(t));
    d.(negative := t != [] && t[0] == MINUS)
  }

  function ReadUnsigned(u: Text): Decimal
  {
    var tail := DropDigits(u);
    var fd := if tail != [] && tail[0] == DOT then TakeDigits(tail[1..]) else [];
    Decimal(false, ToNat(TakeDigits(u) + fd), ReadExponent(DropFraction(tail)) - |fd|)
  }

  function ReadExponent(x: Text): int
  {
    if |x| < 2 then 0
    else if x[1] == MINUS then -(ToNat(x[2..]) as int)
    else if x[1] == PLUS then ToNat(x[2..])
    else ToNat(x[1..])
  }

  lemma {:induction false} DigitRun(d: Text, rest: Text)
    requires AllDigits(d) && !StartsDigit(rest)
    ensures TakeDigits(d + rest) == d && DropDigits(d + rest) == rest
  {
    if d == [] {
      assert d + rest == rest;
    } else {
      DigitRun(d[1..], rest);
      assert (d + rest)[1..] == d[1..] + rest;
      assert d == [d[0]] + d[1..];
    }
  }

  // ---- values of digit strings ----

  lemma {:induction false} LeadingZero(ds: Text)
    requires AllDigits(ds)
    ensures AllDigits([ZERO] + ds) && ToNat([ZERO] + ds) == ToNat(ds)
  {
    var z := [ZERO] + ds;
    if ds == [] {
      assert z[..0] == [];
    } else {
      LeadingZero(ds[..|ds| - 1]);
      assert z[..|z| - 1] == [ZERO] + ds[..|ds| - 1];
    }
  }

  lemma {:induction false} StripLeadingValue(ds: Text)
    requires AllDigits(ds)
    ensures ToNat(StripLeading(ds)) == ToNat(ds)
  {
    if ds != [] && ds[0] == ZERO {
      StripLeadingValue(ds[1..]);
      LeadingZero(ds[1..]);
      assert ds == [ZERO] + ds[1..];
    }
  }

  lemma {:induction false} LeadingZeros(n: nat, ds: Text)
    requires AllDigits(ds)
    ensures AllDigits(Zeros(n) + ds) && ToNat(Zeros(n) + ds) == ToNat(ds)
  {
    if n == 0 {
      assert Zeros(n) + ds == ds;
    } else {
      LeadingZero(ds);
      LeadingZeros(n - 1, [ZERO] + ds);
      assert Zeros(n) + ds == Zeros(n - 1) + ([ZERO] + ds);
    }
  }

  /** Appending n zeros multiplies by ten to the n. */
  lemma {:induction false} TrailingZeros(ds: Text, n: nat, e: int)
    requires AllDigits(ds)
    ensures AllDigits(ds + Zeros(n))
    ensures Scaled(ToNat(ds + Zeros(n)), e) == Scaled(ToNat(ds), e + n)
  {
    hide ToNat, Scaled;
    if n == 0 {
      assert ds + Zeros(n) == ds;
    } else {
      TrailingZeros(ds, n - 1, e + 1);
      AppendZero(ds + Zeros(n - 1));
      assert ds + Zeros(n) == ds + Zeros(n - 1) + [ZERO];
      ScaledTen(ToNat(ds + Zeros(n - 1)), e);
    }
  }

  lemma AppendZero(ds: Text)
    requires AllDigits(ds)
    ensures AllDigits(ds + [ZERO]) && ToNat(ds + [ZERO]) == 10 * ToNat(ds)
  {
    var z := ds + [ZERO];
    assert z[..|z| - 1] == ds;
  }

  lemma {:induction false} StripTrailingZeros(ds: Text)
    ensures ds == StripTrailing(ds) + Zeros(|ds| - |StripTrailing(ds)|)
  {
    var r := StripTrailing(ds);
    if ds != [] && ds[|ds| - 1] == ZERO {
      var front := ds[..|ds| - 1];
      StripTrailingZeros(front);
      assert ds == front + [ZERO];
      assert r + Zeros(|ds| - |r|) == r + Zeros(|front| - |r|) + [ZERO];
    }
  }

  lemma AllRun(d: Text)
    requires AllDigits(d)
    ensures TakeDigits(d) == d && DropDigits(d) == []
  {
    DigitRun(d, []);
    assert d + [] == d;
  }

  /** Whole digits that are not a superfluous zero followed by more. */
  predicate IsWhole(w: Text) { w != [] && AllDigits(w) && (w == [ZERO] || w[0] != ZERO) }

  lemma WholeRun(w: Text, rest: Text)
    requires IsWhole(w) && !StartsDigit(rest)
    ensures TakeDigits(w + rest) == w && DropDigits(w + rest) == rest && DropInteger(w + rest) == rest
    ensures StartsDigit(w + rest)
  {
    DigitRun(w, rest);
    if w == [ZERO] {
      assert (w + rest)[1..] == rest;
    }
  }

  lemma ReadWhole(w: Text)
    requires IsWhole(w)
    ensures ReadUnsigned(w) == Decimal(false, ToNat(w), 0) && DropNumber(w) == []
  {
    WholeRun(w, []);
    assert w + [] == w;
  }

  /** A fraction point, its digits, then nothing or an exponent. */
  lemma ReadPoint(w: Text, fd: Text, x: Text)
    requires IsWhole(w) && fd != [] && AllDigits(fd) && (x != [] ==> x[0] == LOWER_E)
    ensures var u := w + ([DOT] + (fd + x));
            && ReadUnsigned(u) == Decimal(false, ToNat(w + fd), ReadExponent(x) - |fd|)
            && StartsDigit(u) && DropNumber(u) == DropExponent(x)
  {
    var tail := [DOT] + (fd + x);
    WholeRun(w, tail);
    assert tail[1..] == fd + x;
    DigitRun(fd, x);
  }

  lemma ReadNoPoint(w: Text, x: Text)
    requires IsWhole(w) && x != [] && x[0] == LOWER_E
    ensures ReadUnsigned(w + x) == Decimal(false, ToNat(w), ReadExponent(x)) && DropNumber(w + x) == DropExponent(x)
    ensures StartsDigit(w + x)
  {
    WholeRun(w, x);
    assert w + [] == w;
  }

  lemma ReadPower(sign: Unit, pd: Text)
    requires pd != [] && AllDigits(pd) && (sign == PLUS || sign == MINUS)
    ensures var x := [LOWER_E, sign] + pd;
            && ReadExponent(x) == (if sign == MINUS then -(ToNat(pd) as int) else ToNat(pd))
            && DropExponent(x) == []
  {
    var x := [LOWER_E, sign] + pd;
    assert x[2..] == pd;
    assert x[1..][1..] == pd;
    AllRun(pd);
  }

  // ---- the four layouts ----

  predicate Significant(digits: Text)
  {
    digits != [] && AllDigits(digits) && digits[0] != ZERO && digits[|digits| - 1] != ZERO
  }

  /** The unsigned text u is a number token with the value of the digits around their point. */
  ghost predicate Prints(u: Text, digits: Text, n: int)
  {
    && StartsDigit(u) && DropNumber(u) == []
    && ReadUnsigned(u).Value() == Decimal(false, ToNat(digits), n - |digits|).Value()
  }

  lemma IntegerLayout(digits: Text, n: int, w: Text)
    requires Significant(digits) && |digits| <= n && w == digits + Zeros(n - |digits|)
    ensures Prints(w, digits, n)
  {
    hide ToNat, DropNumber, ReadUnsigned, Zeros;
    ReadWhole(w);
    TrailingZeros(digits, n - |digits|, 0);
  }

  lemma ExactPrints(u: Text, digits: Text, n: int)
    requires StartsDigit(u) && DropNumber(u) == []
    requires ReadUnsigned(u) == Decimal(false, ToNat(digits), n - |digits|)
    ensures Prints(u, digits, n)
  {
  }

  lemma PointLayout(digits: Text, n: int, w: Text, fd: Text, u: Text)
    requires IsWhole(w) && fd != [] && AllDigits(fd) && u == w + ([DOT] + fd)
    requires ToNat(w + fd) == ToNat(digits) && |fd| == |digits| - n
    ensures Prints(u, digits, n)
  {
    assert fd + [] == fd;
    ReadPoint(w, fd, []);
    ExactPrints(u, digits, n);
  }

  lemma SmallValue(digits: Text, zeros: nat)
    requires AllDigits(digits)
    ensures AllDigits(Zeros(zeros) + digits)
    ensures ToNat([ZERO] + (Zeros(zeros) + digits)) == ToNat(digits)
  {
    LeadingZeros(zeros, digits);
    LeadingZero(Zeros(zeros) + digits);
  }

  lemma PowerLayout(digits: Text, n: int, x: Text, pd: Text, u: Text)
    requires Significant(digits) && |digits| == 1 && u == digits + x
    requires pd != [] && AllDigits(pd) && x == [LOWER_E, if n >= 1 then PLUS else MINUS] + pd
    requires ToNat(pd) == if n >= 1 then n - 1 else 1 - n
    ensures Prints(u, digits, n)
  {
    ReadPower(x[1], pd);
    ReadNoPoint(digits, x);
    ExactPrints(u, digits, n);
  }

  lemma PointPowerLayout(digits: Text, n: int, w: Text, fd: Text, x: Text, pd: Text, u: Text)
    requires IsWhole(w) && fd != [] && AllDigits(fd) && u == w + ([DOT] + (fd + x))
    requires ToNat(w + fd) == ToNat(digits) && |fd| == |digits| - 1
    requires pd != [] && AllDigits(pd) && x == [LOWER_E, if n >= 1 then PLUS else MINUS] + pd
    requires ToNat(pd) == if n >= 1 then n - 1 else 1 - n
    ensures Prints(u, digits, n)
  {
    ReadPower(x[1], pd);
    ReadPoint(w, fd, x);
    ExactPrints(u, digits, n);
  }

  lemma ExponentialLayout(digits: Text, n: int, u: Text)
    requires Significant(digits) && (n > 21 || n <= -6) && u == Format(digits, n)
    ensures Prints(u, digits, n)
  {
    var power: nat := if n >= 1 then n - 1 else 1 - n;
    var pd := NatDigits(power);
    var x := [LOWER_E, if n >= 1 then PLUS else MINUS] + pd;
    var w, fd := digits[..1], digits[1..];
    assert w + fd == digits;
    assert |digits| == 1 ==> u == digits + x;
    assert |digits| > 1 ==> u == w + ([DOT] + (fd + x));
    NatDigitsRoundTrip(power);
    if |digits| == 1 {
      PowerLayout(digits, n, x, pd, u);
    } else {
      PointPowerLayout(digits, n, w, fd, x, pd, u);
    }
  }

  lemma FormatUnsigned(digits: Text, n: int, u: Text)
    requires Significant(digits) && u == Format(digits, n)
    ensures Prints(u, digits, n)
  {
    if |digits| <= n <= 21 {
      IntegerLayout(digits, n, u);
    } else if 0 < n <= 21 {
      assert digits[..n] + digits[n..] == digits;
      PointLayout(digits, n, digits[..n], digits[n..], u);
    } else if -6 < n <= 0 {
      SmallValue(digits, -n);
      PointLayout(digits, n, [ZERO], Zeros(-n) + digits, u);
    } else {
      ExponentialLayout(digits, n, u);
    }
  }

  /** Adding a sign to an unsigned token. */
  lemma AddSign(negative: bool, u: Text, d: Decimal)
    requires StartsDigit(u) && DropNumber(u) == [] && !d.negative && ReadUnsigned(u).Value() == d.Value()
    ensures IsNumberToken(Signed(negative) + u)
    ensures Read(Signed(negative) + u).Value() == d.(negative := negative).Value()
  {
    var t := Signed(negative) + u;
    assert DropMinus(t) == u;
    assert Read(t) == ReadUnsigned(u).(negative := negative);
  }

  /** Whatever the layout, the text is a number token and reads back as the value printed. */
  lemma FormatExact(t: Text, negative: bool, digits: Text, n: int, d: Decimal)
    requires Significant(digits) && t == Signed(negative) + Format(digits, n)
    requires d == Decimal(negative, ToNat(digits), n - |digits|)
    ensures IsNumberToken(t) && Read(t).Value() == d.Value()
  {
    hide Format, ToNat, ReadUnsigned, DropNumber, Read, IsNumberToken, Scaled;
    FormatUnsigned(digits, n, Format(digits, n));
    AddSign(negative, Format(digits, n), d.(negative := false));
  }

  lemma ZeroExact()
    ensures IsNumberToken([ZERO]) && Read([ZERO]).Value() == 0.0
  {
    assert Signed(false) + [ZERO] == [ZERO] && [ZERO] + [] == [ZERO];
    LeadingZero([]);
    assert ToNat([ZERO]) == 0;
    ReadWhole([ZERO]);
    AddSign(false, [ZERO], Decimal(false, 0, 0));
  }

  lemma StripValue(ds: Text, exponent: int, digits: Text, x: int)
    requires AllDigits(ds) && digits == StripTrailing(StripLeading(ds))
    requires x == exponent + (|StripLeading(ds)| - |digits|)
    ensures AllDigits(digits) && (digits != [] ==> digits[0] != ZERO)
    ensures Scaled(ToNat(digits), x) == Scaled(ToNat(ds), exponent)
  {
    StripLeadingValue(ds);
    StripTrailingZeros(StripLeading(ds));
    TrailingZeros(digits, x - exponent, exponent);
  }

  lemma SameMagnitude(negative: bool, m: nat, e: int, m': nat, e': int)
    requires Scaled(m, e) == Scaled(m', e')
    ensures Decimal(negative, m, e).Value() == Decimal(negative, m', e').Value()
  {
  }

  /** The printed text is a JSON number and reads back as exactly the number printed. */
  lemma JsNumberExact(negative: bool, ds: Text, exponent: int)
    requires AllDigits(ds)
    ensures IsNumberToken(JsNumber(negative, ds, exponent))
    ensures Read(JsNumber(negative, ds, exponent)).Value() == Decimal(negative, ToNat(ds), exponent).Value()
  {
    ReadsAs(JsNumber(negative, ds, exponent), negative, ds, exponent, Decimal(negative, ToNat(ds), exponent));
  }

  lemma ReadsAs(t: Text, negative: bool, ds: Text, exponent: int, d: Decimal)
    requires AllDigits(ds) && t == JsNumber(negative, ds, exponent) && d == Decimal(negative, ToNat(ds), exponent)
    ensures IsNumberToken(t) && Read(t).Value() == d.Value()
  {
    var leading := StripLeading(ds);
    var digits := StripTrailing(leading);
    var x := exponent + (|leading| - |digits|);
    StripValue(ds, exponent, digits, x);
    SameMagnitude(negative, ToNat(digits), x, ToNat(ds), exponent);
    if digits == [] {
      ScaledOrder(0, 0, x);
      ZeroExact();
    } else {
      FormatExact(t, negative, digits, |digits| + x, Decimal(negative, ToNat(digits), x));
    }
  }

  // ---- injectivity ----

  lemma {:induction false} PositiveValue(ds: Text)
    requires AllDigits(ds) && ds != [] && ds[0] != ZERO
    ensures ToNat(ds) > 0
  {
    if |ds| > 1 {
      PositiveValue(ds[..|ds| - 1]);
    }
  }

  lemma {:induction false} ToNatInjective(a: Text, b: Text)
    requires AllDigits(a) && AllDigits(b)
    requires (a != [] ==> a[0] != ZERO) && (b != [] ==> b[0] != ZERO)
    requires ToNat(a) == ToNat(b)
    ensures a == b
  {
    if a == [] {
      if b != [] { PositiveValue(b); }
    } else if b == [] {
      PositiveValue(a);
    } else {
      var a' := a[..|a| - 1];
      var b' := b[..|b| - 1];
      ToNatInjective(a', b');
      assert a == a' + [a[|a| - 1]] && b == b' + [b[|b| - 1]];
    }
  }

  lemma TenTimes(q: nat)
    ensures 10 * q % 10 == 0
  {
  }

  lemma {:induction false} ScaleDown(m: nat, n: nat, e: int) returns (p: nat)
    ensures Scaled(m, e + n) == Scaled(p, e)
    ensures n > 0 ==> p % 10 == 0
    ensures n == 0 ==> p == m
  {
    hide Scaled;
    if n == 0 {
      p := m;
    } else {
      var q := ScaleDown(m, n - 1, e + 1);
      ScaledTen(q, e);
      p := 10 * q;
      TenTimes(q);
    }
  }

  lemma SameExponent(m1: nat, e1: int, m2: nat, e2: int)
    requires m1 % 10 != 0 && m2 % 10 != 0 && e1 <= e2
    requires Scaled(m1, e1) == Scaled(m2, e2)
    ensures m1 == m2 && e1 == e2
  {
    var p := ScaleDown(m2, e2 - e1, e1);
    ScaledOrder(m1, p, e1);
    ScaledOrder(p, m1, e1);
  }

  /** Digits without outer zeros and their decimal point are determined by the value. */
  lemma NormalUnique(a: Text, xa: int, b: Text, xb: int)
    requires Significant(a) && Significant(b)
    requires Scaled(ToNat(a), xa) == Scaled(ToNat(b), xb)
    ensures a == b && xa == xb
  {
    if xa <= xb { SameExponent(ToNat(a), xa, ToNat(b), xb); } else { SameExponent(ToNat(b), xb, ToNat(a), xa); }
    ToNatInjective(a, b);
  }

  lemma SignOfScaled(ds: Text, e: int)
    requires AllDigits(ds) && (ds != [] ==> ds[0] != ZERO)
    ensures if ds == [] then Scaled(ToNat(ds), e) == 0.0 else Scaled(ToNat(ds), e) > 0.0
  {
    if ds != [] { PositiveValue(ds); }
    ScaledOrder(0, ToNat(ds), e);
  }

  /** The stripped digits and their exponent are determined by the value. */
  lemma SameValueSameDigits(a: Text, ea: int, b: Text, eb: int)
    requires AllDigits(a) && AllDigits(b) && Scaled(ToNat(a), ea) == Scaled(ToNat(b), eb)
    ensures var la, lb := StripLeading(a), StripLeading(b);
            var da, db := StripTrailing(la), StripTrailing(lb);
            da == db && (da != [] ==> ea + (|la| - |da|) == eb + (|lb| - |db|))
  {
    var la, lb := StripLeading(a), StripLeading(b);
    var da, db := StripTrailing(la), StripTrailing(lb);
    var xa, xb := ea + (|la| - |da|), eb + (|lb| - |db|);
    StripValue(a, ea, da, xa);
    StripValue(b, eb, db, xb);
    SignOfScaled(da, xa);
    SignOfScaled(db, xb);
    if da != [] && db != [] {
      NormalUnique(da, xa, db, xb);
    }
  }

  /** A value has a sign unless it is zero, and zero prints without one. */
  lemma SignOfValue(negative: bool, ds: Text, e: int)
    requires AllDigits(ds)
    ensures var v := Decimal(negative, ToNat(ds), e).Value();
            if StripTrailing(StripLeading(ds)) == [] then v == 0.0 else if negative then v < 0.0 else v > 0.0
  {
    var la := StripLeading(ds);
    var da := StripTrailing(la);
    var x := e + (|la| - |da|);
    StripValue(ds, e, da, x);
    SignOfScaled(da, x);
  }

  /** Two numbers print to the same text exactly when they are the same number. */
  lemma JsNumberInjective(negativeA: bool, a: Text, ea: int, negativeB: bool, b: Text, eb: int)
    requires AllDigits(a) && AllDigits(b)
    ensures JsNumber(negativeA, a, ea) == JsNumber(negativeB, b, eb)
            <==> Decimal(negativeA, ToNat(a), ea).Value() == Decimal(negativeB, ToNat(b), eb).Value()
  {
    hide ToNat, StripLeading, StripTrailing, Read, IsNumberToken, Format, NatDigits;
    JsNumberExact(negativeA, a, ea);
    JsNumberExact(negativeB, b, eb);
    if Decimal(negativeA, ToNat(a), ea).Value() == Decimal(negativeB, ToNat(b), eb).Value() {
      SignOfValue(negativeA, a, ea);
      SignOfValue(negativeB, b, eb);
      SameValueSameDigits(a, ea, b, eb);
    }
  }

  /** Longest token of a double: 17 significant digits, decimal point between 10^-324 and 10^309. */
  const MAX_TOKEN := 25

  function Power10(k: nat): nat { if k == 0 then 1 else 10 * Power10(k - 1) }

  lemma {:induction false} NatDigitsLength(n: nat, k: nat)
    requires n < Power10(k) && k > 0
    ensures |NatDigits(n)| <= k
  {
    if n >= 10 {
      NatDigitsLength(n / 10, k - 1);
    }
  }

  lemma Power10Of3()
    ensures Power10(3) == 1000
  {
  }

  lemma DoubleTokenLength(negative: bool, ds: Text, exponent: int)
    requires AllDigits(ds) && |ds| <= 17 && -324 < |ds| + exponent < 310
    ensures |JsNumber(negative, ds, exponent)| <= MAX_TOKEN
  {
    hide ToNat, NatDigits, StripLeading, StripTrailing, Power10;
    var leading := StripLeading(ds);
    StripLeadingShorter(ds);
    var digits := StripTrailing(leading);
    if digits != [] {
      var e := |digits| + exponent + (|leading| - |digits|) - 1;
      if -400 < e < 400 {
        Power10Of3();
        NatDigitsLength(if e >= 0 then e else -e, 3);
      }
    }
  }

  lemma {:induction false} StripLeadingShorter(ds: Text)
    ensures |StripLeading(ds)| <= |ds|
  {
    if ds != [] && ds[0] == ZERO {
      StripLeadingShorter(ds[1..]);
    }
  }
}
