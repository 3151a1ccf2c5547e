/** Numbers as the JavaScript sources use them: draws of Math.random(),
    Math.round, the truncation that `new Date(ms)` applies, clamping,
    a number that may be NaN, and decimal rendering of naturals. */
module Numeric {

  datatype Option<T> = None | Some(value: T)

  /** A value of Math.random(): uniform in [0, 1). */
  type Draw = r: real | 0.0 <= r < 1.0

  /** An hour of the day as Date.getHours() returns it. */
  type Hour = h: int | 0 <= h < 24

  /** A JavaScript number that may be NaN (0/0 on an empty input). */
  datatype Number = Num(value: real) | NaN

  const MsPerMinute: int := 60000
  const MsPerHour: int := 3600000
  const MsPerDay: int := 86400000

  /** Math.round: the nearest integer, halves rounded up. */
  function Round(x: real): (n: int)
    ensures x - 0.5 < n as real <= x + 0.5
  {
    (x + 0.5).Floor
  }

  /** Math.floor on a real. */
  function Floor(x: real): (n: int)
    ensures n as real <= x < n as real + 1.0
  {
    x.Floor
  }

  /** ToIntegerOrInfinity as used by `new Date(ms)`: truncation toward zero. */
  function Trunc(x: real): (n: int)
    ensures 0.0 <= x ==> n == x.Floor
    ensures x < 0.0 ==> n == -((-x).Floor)
  {
    if x >= 0.0 then x.Floor else -((-x).Floor)
  }

  lemma TruncMonotonic(x: real, y: real)
    requires x <= y
    ensures Trunc(x) <= Trunc(y)
  {
  }

  /** Math.max(0, Math.min(1, x)). */
  function Clamp01(x: real): (c: real)
    ensures 0.0 <= c <= 1.0
    ensures 0.0 <= x <= 1.0 ==> c == x
    ensures x < 0.0 ==> c == 0.0
    ensures x > 1.0 ==> c == 1.0
  {
    if x < 0.0 then 0.0 else if x > 1.0 then 1.0 else x
  }

  /** Math.round(x * 100) / 100. */
  function Round2(x: real): real
  {
    Round(x * 100.0) as real / 100.0
  }

  /** Math.round(x * 10) / 10. */
  function Round1(x: real): real
  {
    Round(x * 10.0) as real / 10.0
  }

  /** Rounding an amount between 0 and a whole bound stays within them. */
  lemma RoundWithin(x: real, bound: int)
    requires 0.0 <= x <= bound as real
    ensures 0 <= Round(x) <= bound
  {
  }

  /** Rounding to hundredths keeps a congestion level in [0, 1]. */
  lemma Round2Unit(x: real)
    requires 0.0 <= x <= 1.0
    ensures 0.0 <= Round2(x) <= 1.0
  {
    RoundWithin(x * 100.0, 100);
  }

  lemma RoundMonotonic(x: real, y: real)
    requires x <= y
    ensures Round(x) <= Round(y)
  {
  }

  lemma Round2Monotonic(x: real, y: real)
    requires x <= y
    ensures Round2(x) <= Round2(y)
  {
    RoundMonotonic(x * 100.0, y * 100.0);
    var a, b := Round(x * 100.0), Round(y * 100.0);
    assert a as real <= b as real;
    assert Round2(x) == a as real / 100.0;
    assert Round2(y) == b as real / 100.0;
  }

  lemma Round1Monotonic(x: real, y: real)
    requires x <= y
    ensures Round1(x) <= Round1(y)
  {
    RoundMonotonic(x * 10.0, y * 10.0);
    var a, b := Round(x * 10.0), Round(y * 10.0);
    assert a as real <= b as real;
    assert Round1(x) == a as real / 10.0;
    assert Round1(y) == b as real / 10.0;
  }

  lemma Round1NonNegative(x: real)
    requires 0.0 <= x
    ensures 0.0 <= Round1(x)
  {
  }

  lemma MulNonNeg(a: real, b: real)
    requires 0.0 <= a && 0.0 <= b
    ensures 0.0 <= a * b
  {
  }

  /** k * f for a factor f in [0, 1]: between zero and k. */
  function Scale(k: real, f: real): (d: real)
    requires 0.0 <= f <= 1.0
    ensures 0.0 <= k ==> 0.0 <= d <= k
    ensures k <= 0.0 ==> k <= d <= 0.0
  {
    ScaleWithin(k, f);
    k * f
  }

  /** Scaling by a factor in [0, 1] moves a quantity towards zero, not past it. */
  lemma ScaleWithin(k: real, f: real)
    requires 0.0 <= f <= 1.0
    ensures 0.0 <= k ==> 0.0 <= k * f <= k
    ensures k <= 0.0 ==> k <= k * f <= 0.0
    ensures 0.0 < k && 0.0 < f ==> 0.0 < k * f
  {
    if 0.0 <= k {
      MulNonNeg(k, f);
      MulNonNeg(k, 1.0 - f);
      assert k * (1.0 - f) == k - k * f;
    } else {
      MulNonNeg(-k, f);
      MulNonNeg(-k, 1.0 - f);
      assert (-k) * (1.0 - f) == k * f - k;
      assert (-k) * f == - (k * f);
    }
  }

  /** Dividing by a larger positive number gives a smaller quotient. */
  lemma DivAntitone(x: real, a: real, b: real)
    requires 0.0 <= x && 0.0 < a <= b
    ensures x / b <= x / a
  {
    var p, q := x / a, x / b;
    assert p * a == x;
    assert q * b == x;
    assert q * a <= q * b by { assert q >= 0.0; assert q * (b - a) >= 0.0; }
  }

  /** Math.floor(d * n) for a draw d picks an index of an n-element list. */
  lemma PickInRange(d: Draw, n: nat)
    requires 0 < n
    ensures 0 <= Floor(d * n as real) < n
  {
    assert (1.0 - d) * n as real > 0.0;
    assert d * n as real < n as real;
  }

  /** The decimal digit character for d. */
  function Digit(d: int): char
    requires 0 <= d < 10
  {
    ('0' as int + d) as char
  }

  /** A natural number in decimal, as template literals render it. */
  function NatToString(n: nat): (s: string)
    ensures |s| >= 1
    ensures forall i :: 0 <= i < |s| ==> '0' <= s[i] <= '9'
    ensures n >= 10 ==> |s| >= 2
  {
    if n < 10 then [Digit(n)] else NatToString(n / 10) + [Digit(n % 10)]
  }

  /** Distinct naturals render as distinct strings. */
  lemma {:induction false} NatToStringInjective(m: nat, n: nat)
    requires m != n
    ensures NatToString(m) != NatToString(n)
    decreases m + n
  {
    var sm, sn := NatToString(m), NatToString(n);
    if m < 10 || n < 10 {
      if m >= 10 || n >= 10 {
        assert |sm| != |sn|;
      } else {
        assert sm[0] != sn[0];
      }
    } else {
      var qm, rm, qn, rn := m / 10, m % 10, n / 10, n % 10;
      assert sm == NatToString(qm) + [Digit(rm)];
      assert sn == NatToString(qn) + [Digit(rn)];
      if rm != rn {
        assert sm[|sm| - 1] != sn[|sn| - 1];
      } else {
        assert qm != qn;
        NatToStringInjective(qm, qn);
        assert sm[..|sm| - 1] == NatToString(qm);
        assert sn[..|sn| - 1] == NatToString(qn);
      }
    }
  }
}
