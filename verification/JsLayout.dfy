/**
 Which of the four layouts a number is printed in, said from its value: with an
 exponent from 10^21 on and below 10^-6, with a point when it is no integer, and
 without a digit too many.
 */
module JsLayout {
  import opened Utf16
  import opened Json
  import opened JsNumber

  // ---- how large a number is ----

  lemma {:induction false} DigitBounds(ds: Text)
    requires AllDigits(ds) && ds != [] && ds[0] != ZERO
    ensures Power10(|ds| - 1) <= ToNat(ds) < Power10(|ds|)
  {
    var n := |ds| - 1;
    if n == 0 {
      assert ds[..0] == [];
    } else {
      DigitBounds(ds[..n]);
    }
  }

  lemma {:induction false} PowerScaled(k: nat, e: int)
    ensures Scaled(Power10(k), e) == Scaled(1, e + k)
  {
    if k > 0 {
      ScaledTen(Power10(k - 1), e);
      PowerScaled(k - 1, e + 1);
    }
  }

  lemma PowerAboveOne(k: nat)
    requires k > 0
    ensures Power10(k) > 1
  {
    if k > 1 {
      PowerAboveOne(k - 1);
    }
  }

  lemma UnitOrder(a: int, b: int)
    requires a <= b
    ensures Scaled(1, a) <= Scaled(1, b)
  {
    if a < b {
      PowerScaled(b - a, a);
      PowerAboveOne(b - a);
      ScaledOrder(1, Power10(b - a), a);
    }
  }

  lemma AtMostScaled(a: nat, b: nat, e: int)
    requires a <= b
    ensures Scaled(a, e) <= Scaled(b, e)
  {
    if a < b {
      ScaledOrder(a, b, e);
    }
  }

  /** 0.d1d2.. times ten to the n lies between the (n-1)-th and the n-th power of ten. */
  lemma Magnitude(digits: Text, n: int)
    requires Significant(digits)
    ensures Scaled(1, n - 1) <= Scaled(ToNat(digits), n - |digits|) < Scaled(1, n)
  {
    hide Scaled, ToNat, Power10;
    var k := |digits|;
    DigitBounds(digits);
    PowerScaled(k - 1, n - k);
    PowerScaled(k, n - k);
    AtMostScaled(Power10(k - 1), ToNat(digits), n - k);
    ScaledOrder(ToNat(digits), Power10(k), n - k);
  }

  lemma Extremes(digits: Text, n: int)
    requires Significant(digits)
    ensures var v := Scaled(ToNat(digits), n - |digits|);
            (v >= Scaled(1, 21) <==> n > 21) && (v < Scaled(1, -6) <==> n <= -6)
  {
    hide Scaled, ToNat;
    Magnitude(digits, n);
    if n > 21 { UnitOrder(21, n - 1); } else { UnitOrder(n, 21); }
    if n <= -6 { UnitOrder(n, -6); } else { UnitOrder(-6, n - 1); }
  }

  // ---- whether it is an integer ----

  lemma {:induction false} ScaledWhole(m: nat, e: nat)
    ensures Scaled(m, e) == (m * Power10(e)) as real
  {
    if e > 0 {
      ScaledWhole(m, e - 1);
      assert m * Power10(e) == 10 * (m * Power10(e - 1));
    }
  }

  lemma LastDigit(digits: Text)
    requires Significant(digits)
    ensures ToNat(digits) % 10 != 0
  {
  }

  lemma WholeExactly(digits: Text, n: int)
    requires Significant(digits)
    ensures var v := Scaled(ToNat(digits), n - |digits|); v.Floor as real == v <==> |digits| <= n
  {
    hide ToNat;
    var m, e := ToNat(digits), n - |digits|;
    var v := Scaled(m, e);
    if e >= 0 {
      ScaledWhole(m, e);
    } else if v.Floor as real == v {
      Magnitude(digits, n);
      ScaledOrder(0, 1, n - 1);
      var i: nat := v.Floor;
      var p := ScaleDown(i, -e, e);
      ScaledWhole(i, 0);
      LastDigit(digits);
      ScaledOrder(p, m, e);
      ScaledOrder(m, p, e);
      assert false;
    }
  }

  // ---- the printed text ----

  predicate EndsAt(u: Text, e: nat) { e <= |u| && (forall i | 0 <= i < e :: u[i] != LOWER_E) && (e < |u| ==> u[e] == LOWER_E) }

  /** No digit too many: no leading zero but before a point, no trailing zero behind one, one digit before the point of an exponent. */
  predicate Tight(u: Text)
  {
    && u != [] && (u[0] == ZERO ==> |u| >= 2 && u[1] == DOT)
    && (forall e | 0 <= e <= |u| && EndsAt(u, e) && DOT in u :: e >= 1 && u[e - 1] != ZERO)
    && (forall i | 0 <= i < |u| && u[i] == LOWER_E ::
          u[0] != ZERO && (i == 1 || (i > 2 && u[1] == DOT)) && i + 2 < |u| && (u[i + 1] == PLUS || u[i + 1] == MINUS) && u[i + 2] != ZERO)
  }

  lemma PlainDigits(d: Text)
    requires AllDigits(d)
    ensures DOT !in d && LOWER_E !in d
  {
  }

  lemma IntegerText(digits: Text, n: int)
    requires Significant(digits) && |digits| <= n <= 21
    ensures var u := Format(digits, n); Tight(u) && LOWER_E !in u && DOT !in u
  {
    var zeros := Zeros(n - |digits|);
    PlainDigits(digits);
    PlainDigits(zeros);
    assert Format(digits, n) == digits + zeros;
  }

  lemma PointText(w: Text, fd: Text)
    requires AllDigits(w) && AllDigits(fd) && w != [] && fd != [] && fd[|fd| - 1] != ZERO && (w == [ZERO] || w[0] != ZERO)
    ensures var u := w + ([DOT] + fd); Tight(u) && LOWER_E !in u && DOT in u
  {
    var u := w + ([DOT] + fd);
    PlainDigits(w);
    PlainDigits(fd);
    assert u[|w|] == DOT && u[|u| - 1] == fd[|fd| - 1];
    forall i | 0 <= i < |u| ensures u[i] != LOWER_E {
      if i < |w| {
        assert u[i] == w[i];
      } else if i > |w| {
        assert u[i] == fd[i - |w| - 1];
      }
    }
    assert w == [ZERO] ==> u[1] == DOT;
  }

  lemma ExponentText(m: Text, sign: Unit, pd: Text)
    requires (sign == PLUS || sign == MINUS) && AllDigits(pd) && pd != [] && pd[0] != ZERO
    requires m != [] && m[0] != ZERO && (|m| == 1 || (|m| > 2 && m[1] == DOT && m[|m| - 1] != ZERO))
    requires forall i | 0 <= i < |m| :: m[i] != LOWER_E && (i != 1 ==> m[i] != DOT)
    ensures var u := m + ([LOWER_E, sign] + pd); Tight(u) && LOWER_E in u
  {
    var u := m + ([LOWER_E, sign] + pd);
    PlainDigits(pd);
    assert u[|m|] == LOWER_E && u[|m| + 1] == sign && u[|m| + 2] == pd[0];
    forall i | 0 <= i < |u| && i != |m| ensures u[i] != LOWER_E && (u[i] == DOT ==> |m| > 1) {
      if i < |m| {
        assert u[i] == m[i];
      } else if i > |m| + 1 {
        assert u[i] == pd[i - |m| - 2];
      }
    }
    forall e | 0 <= e <= |u| && EndsAt(u, e) && DOT in u ensures e >= 1 && u[e - 1] != ZERO {
      assert e == |m|;
      var i :| 0 <= i < |u| && u[i] == DOT;
    }
  }

  /** One digit, or one digit, a point and the rest. */
  function Mantissa(digits: Text): Text
    requires digits != []
  {
    if |digits| == 1 then digits else [digits[0]] + ([DOT] + digits[1..])
  }

  lemma MantissaText(digits: Text)
    requires Significant(digits)
    ensures var m := Mantissa(digits);
            && m[0] != ZERO && (|m| == 1 || (|m| > 2 && m[1] == DOT && m[|m| - 1] != ZERO))
            && forall i | 0 <= i < |m| :: m[i] != LOWER_E && (i != 1 ==> m[i] != DOT)
  {
    var m, k := Mantissa(digits), |digits|;
    PlainDigits(digits);
    forall i | 0 <= i < |m| ensures m[i] != LOWER_E && (i != 1 ==> m[i] != DOT) {
      if k > 1 && i > 1 {
        assert m[i] == digits[i - 1];
      }
    }
    assert k > 1 ==> m[|m| - 1] == digits[k - 1];
  }

  lemma FormatPower(digits: Text, n: int)
    requires Significant(digits) && (n > 21 || n <= -6)
    ensures var u := Format(digits, n); Tight(u) && LOWER_E in u
  {
    hide Tight, NatDigits;
    var e := if n >= 1 then n - 1 else 1 - n;
    NatDigitsRoundTrip(e);
    MantissaText(digits);
    ExponentText(Mantissa(digits), if n >= 1 then PLUS else MINUS, NatDigits(e));
  }

  lemma FormatText(digits: Text, n: int)
    requires Significant(digits)
    ensures var u := Format(digits, n);
            && Tight(u)
            && (LOWER_E in u <==> n > 21 || n <= -6)
            && (LOWER_E !in u ==> (DOT in u <==> n < |digits|))
  {
    hide Tight, NatDigits;
    var k := |digits|;
    if k <= n <= 21 {
      IntegerText(digits, n);
    } else if 0 < n <= 21 {
      PointText(digits[..n], digits[n..]);
    } else if -6 < n <= 0 {
      var fd := Zeros(-n) + digits;
      assert fd[|fd| - 1] == digits[k - 1];
      PointText([ZERO], fd);
    } else {
      FormatPower(digits, n);
    }
  }

  /** Every number other than zero: its sign, then a tight text, with an exponent or a point exactly when its value asks for one. */
  lemma LayoutExact(negative: bool, ds: Text, exponent: int)
    requires AllDigits(ds)
    ensures var t, v := JsNumber.JsNumber(negative, ds, exponent), Scaled(ToNat(ds), exponent);
            if v == 0.0 then t == [ZERO]
            else
              exists u: Text :: t == (if negative then [MINUS] else []) + u && Tight(u)
                && (LOWER_E in u <==> v >= Scaled(1, 21) || v < Scaled(1, -6))
                && (LOWER_E !in u ==> (DOT in u <==> v.Floor as real != v))
  {
    hide Scaled, ToNat, Tight, Format;
    var leading := StripLeading(ds);
    var digits := StripTrailing(leading);
    var x := exponent + (|leading| - |digits|);
    StripValue(ds, exponent, digits, x);
    SignOfScaled(digits, x);
    if digits != [] {
      var n := |digits| + x;
      Extremes(digits, n);
      WholeExactly(digits, n);
      FormatText(digits, n);
      var u := Format(digits, n);
      assert JsNumber.JsNumber(negative, ds, exponent) == (if negative then [MINUS] else []) + u;
    }
  }
}
