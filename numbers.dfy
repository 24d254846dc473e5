/** JavaScript's rendering of the numbers an abandoned-cart payload carries (`${n}`,
    `n.toString()`), for numbers with a finite decimal expansion. */
module Numbers {

  /** A number held exactly as `mantissa / 10^scale`. */
  datatype Decimal = Decimal(mantissa: int, scale: nat)

  function Pow10(k: nat): (p: nat)
    ensures p >= 1
  {
    if k == 0 then 1 else 10 * Pow10(k - 1)
  }

  function DigitChar(d: nat): char
    requires d < 10
  {
    "0123456789"[d]
  }

  predicate IsDigit(c: char) {
    '0' <= c <= '9'
  }

  /** The decimal digits of `n`, most significant first, with no leading zero. */
  function NatToString(n: nat): (s: string)
    ensures |s| >= 1 && forall i :: 0 <= i < |s| ==> IsDigit(s[i])
    ensures |s| > 1 ==> s[0] != '0'
    decreases n
  {
    if n < 10 then [DigitChar(n)] else NatToString(n / 10) + [DigitChar(n % 10)]
  }

  /** The number a string of decimal digits denotes. */
  function ParseNat(s: string): nat
    requires forall i :: 0 <= i < |s| ==> IsDigit(s[i])
  {
    if s == [] then 0
    else
      var last := s[|s| - 1];
      assert IsDigit(last);
      ParseNat(s[..|s| - 1]) * 10 + (last as int - '0' as int)
  }

  /** Reading back the digits of `n` gives `n`: the rendering loses nothing. */
  lemma {:induction false} ParseNatToString(n: nat)
    ensures ParseNat(NatToString(n)) == n
    decreases n
  {
    if n >= 10 {
      var s := NatToString(n);
      ParseNatToString(n / 10);
      assert s[..|s| - 1] == NatToString(n / 10);
    }
  }

  /** `d` with trailing zero digits of its fraction removed. */
  function Normalize(d: Decimal): (n: Decimal)
    ensures n.scale <= d.scale
    ensures n.scale > 0 ==> n.mantissa % 10 != 0
    decreases d.scale
  {
    if d.scale > 0 && d.mantissa % 10 == 0 then Normalize(Decimal(d.mantissa / 10, d.scale - 1)) else d
  }

  /** Normalising keeps the value: only factors of ten move from the mantissa to the scale. */
  lemma {:induction false} NormalizeKeepsValue(d: Decimal)
    ensures d.mantissa == Normalize(d).mantissa * Pow10(d.scale - Normalize(d).scale)
    decreases d.scale
  {
    if d.scale > 0 && d.mantissa % 10 == 0 {
      var d' := Decimal(d.mantissa / 10, d.scale - 1);
      var n := Normalize(d');
      NormalizeKeepsValue(d');
      assert Normalize(d) == n;
      var p := Pow10(d'.scale - n.scale);
      assert Pow10(d.scale - n.scale) == 10 * p;
      calc {
        n.mantissa * Pow10(d.scale - n.scale);
        n.mantissa * (10 * p);
        { assert n.mantissa * (10 * p) == 10 * (n.mantissa * p); }
        10 * d'.mantissa;
        d.mantissa;
      }
    }
  }

  /** `r`, written with exactly `width` digits (leading zeros added). */
  function PadDigits(r: nat, width: nat): (s: string)
    ensures |s| == width || (|s| > width && s == NatToString(r))
  {
    var digits := NatToString(r);
    if |digits| >= width then digits else seq(width - |digits|, _ => '0') + digits
  }

  /** `String(x)`: an optional minus sign, the integer part, and, when the value is not
      whole, a point followed by the fraction without trailing zeros. */
  function NumberToString(d: Decimal): string {
    var n := Normalize(d);
    var sign := if n.mantissa < 0 then "-" else "";
    var a := Magnitude(n.mantissa);
    if n.scale == 0 then sign + NatToString(a)
    else
      var p := Pow10(n.scale);
      sign + NatToString(Quotient(a, p)) + "." + PadDigits(a - Quotient(a, p) * p, n.scale)
  }

  function Magnitude(m: int): nat {
    if m < 0 then -m else m
  }

  /** `a / p` for a positive divisor, with the bounds of its remainder. */
  function Quotient(a: nat, p: nat): (q: nat)
    requires p >= 1
    ensures q * p <= a < q * p + p
  {
    a / p
  }

  /** A whole number renders without a point: a minus sign exactly when it is negative,
      then digits that read back as its magnitude. */
  lemma NumberToStringWhole(m: int)
    ensures var s := NumberToString(Decimal(m, 0));
      var digits := if m < 0 then s[1..] else s;
      && |s| >= 1
      && '.' !in s
      && (s[0] == '-' <==> m < 0)
      && (forall i :: 0 <= i < |digits| ==> IsDigit(digits[i]))
      && ParseNat(digits) == Magnitude(m)
  {
    var n := NatToString(Magnitude(m));
    WholeRendering(m);
    ParseNatToString(Magnitude(m));
    assert IsDigit(n[0]);
    assert forall i :: 0 <= i < |n| ==> n[i] != '.';
    var s := NumberToString(Decimal(m, 0));
    if m < 0 {
      assert s == "-" + n;
      assert s[1..] == n;
      assert forall i :: 1 <= i < |s| ==> s[i] == n[i - 1];
      assert forall i :: 0 <= i < |s| ==> s[i] != '.';
    } else {
      assert s == n;
      assert n[0] != '-';
    }
  }

  /** The scale-0 case of the rendering, unfolded. */
  lemma WholeRendering(m: int)
    ensures NumberToString(Decimal(m, 0)) == (if m < 0 then "-" else "") + NatToString(Magnitude(m))
  {
    assert Normalize(Decimal(m, 0)) == Decimal(m, 0);
  }

  /** The rendering depends on the value only: a trailing zero in the fraction changes nothing. */
  lemma {:induction false} NumberToStringScale(m: int, k: nat)
    ensures NumberToString(Decimal(m * 10, k + 1)) == NumberToString(Decimal(m, k))
  {
    assert (m * 10) % 10 == 0 && (m * 10) / 10 == m;
    assert Normalize(Decimal(m * 10, k + 1)) == Normalize(Decimal(m, k));
  }

  /** 9.5 renders as "9.5", however many trailing zeros the payload carried. */
  lemma NumberToStringExample()
    ensures NumberToString(Decimal(95, 1)) == "9.5"
  {
    assert Normalize(Decimal(95, 1)) == Decimal(95, 1);
    assert Quotient(95, 10) == 9;
    assert NatToString(9) == "9" && NatToString(5) == "5";
    assert PadDigits(5, 1) == "5";
  }

  /** A payload that wrote 9.500 renders the same as one that wrote 9.5. */
  lemma NumberToStringTrailingZeros()
    ensures NumberToString(Decimal(9500, 3)) == NumberToString(Decimal(95, 1))
  {
    NumberToStringScale(950, 2);
    NumberToStringScale(95, 1);
  }

  /** A negative amount with a leading zero in its fraction. */
  lemma NumberToStringNegativeExample()
    ensures NumberToString(Decimal(-1005, 2)) == "-10.05"
  {
    assert Normalize(Decimal(-1005, 2)) == Decimal(-1005, 2);
    assert Magnitude(-1005) == 1005;
    assert Quotient(1005, 100) == 10;
    assert NatToString(10) == "10" && NatToString(5) == "5";
    assert PadDigits(5, 2) == "05";
  }
}
