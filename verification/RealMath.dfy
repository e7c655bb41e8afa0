/** Floors and remainders of reals.  Products appear as `Times(a, b)`: the solver reasons about them
    through the few laws stated here rather than by nonlinear arithmetic. */
module RealMath {

  function Times(a: real, b: real): real { a * b }

  lemma TimesAdd(a: real, b: real, m: real)
    ensures Times(a + b, m) == Times(a, m) + Times(b, m)
    ensures Times(a - b, m) == Times(a, m) - Times(b, m)
  {}

  lemma TimesSign(a: real, m: real)
    requires m > 0.0
    ensures a > 0.0 <==> Times(a, m) > 0.0
    ensures a < 0.0 <==> Times(a, m) < 0.0
  {}

  lemma TimesOrder(a: real, b: real, m: real)
    requires m > 0.0
    ensures a < b <==> Times(a, m) < Times(b, m)
  {
    TimesAdd(a, b, m);
    TimesSign(a - b, m);
  }

  lemma TimesOne(m: real)
    ensures Times(1.0, m) == m && Times(m, 1.0) == m && Times(0.0, m) == 0.0 && Times(-1.0, m) == -m
  {}

  lemma TimesDiv(x: real, m: real)
    requires m != 0.0
    ensures Times(x / m, m) == x
  {}

  lemma TimesAssoc(a: real, b: real, c: real)
    ensures Times(Times(a, b), c) == Times(a, Times(b, c)) == Times(b, Times(a, c))
    ensures Times(a, b) == Times(b, a)
  {}

  lemma IntAdd(a: int, b: int)
    ensures (a + b) as real == a as real + b as real && (a - b) as real == a as real - b as real
  {}

  /** How many whole m there are in x. */
  function Whole(x: real, m: real): int
    requires m != 0.0
  {
    (x / m).Floor
  }

  /** The C remainder: the quotient is truncated toward zero. */
  function Fmod(x: real, m: real): real
    requires m > 0.0
  {
    if x >= 0.0 then x - Times(Whole(x, m) as real, m) else -((-x) - Times(Whole(-x, m) as real, m))
  }

  /** The remainder in [0, m). */
  function Mod(x: real, m: real): (r: real)
    requires m > 0.0
    ensures 0.0 <= r < m
  {
    WholeBounds(x, m);
    x - Times(Whole(x, m) as real, m)
  }

  lemma WholeBounds(x: real, m: real)
    requires m > 0.0
    ensures 0.0 <= x - Times(Whole(x, m) as real, m) < m
  {
    var t, q := x / m, Whole(x, m) as real;
    TimesDiv(x, m);
    TimesOrder(t, q, m);
    TimesOrder(t, q + 1.0, m);
    TimesAdd(q, 1.0, m);
    TimesOne(m);
  }

  /** An integer multiple of m smaller than m in magnitude is zero. */
  lemma SmallMultiple(n: int, m: real, r: real)
    requires m > 0.0 && -m < r < m && r == Times(n as real, m)
    ensures n == 0
  {
    TimesOne(m);
    TimesOrder(n as real, 1.0, m);
    TimesOrder(-1.0, n as real, m);
  }

  /** The remainder is the only number in [0, m) that differs from x by an integer multiple of m. */
  lemma ModUnique(x: real, m: real, y: real, n: int)
    requires m > 0.0 && 0.0 <= y < m && x == y + Times(n as real, m)
    ensures Mod(x, m) == y && Whole(x, m) == n
  {
    var k := Whole(x, m);
    TimesAdd(n as real, k as real, m);
    IntAdd(n, k);
    SmallMultiple(n - k, m, Mod(x, m) - y);
  }

  /** Adding before or after taking the remainder comes to the same. */
  lemma ModAdd(x: real, r: real, m: real)
    requires m > 0.0
    ensures Mod(Mod(x, m) + r, m) == Mod(x + r, m)
  {
    var k, j := Whole(x, m), Whole(x + r, m);
    TimesAdd(j as real, k as real, m);
    IntAdd(j, k);
    ModUnique(Mod(x, m) + r, m, Mod(x + r, m), j - k);
  }

  lemma ModSmall(x: real, m: real)
    requires 0.0 <= x < m
    ensures Mod(x, m) == x
  {
    TimesOne(m);
    ModUnique(x, m, x, 0);
  }

  /** The usual way of making a C remainder non-negative gives the remainder in [0, m). */
  lemma FmodIsMod(x: real, m: real)
    requires m > 0.0
    ensures x >= 0.0 ==> Fmod(x, m) == Mod(x, m)
    ensures Mod(x, m) == if Fmod(x, m) < 0.0 then Fmod(x, m) + m else Fmod(x, m)
  {
    if x < 0.0 {
      var k := Whole(-x, m);
      var f := Fmod(x, m);
      assert f == -Mod(-x, m);
      IntAdd(-k, 1);
      TimesAdd(0.0, k as real, m);
      TimesAdd(-(k as real), 1.0, m);
      TimesOne(m);
      ModUnique(x, m, if f < 0.0 then f + m else f, if f < 0.0 then -k - 1 else -k);
    }
  }
}
