/** The benchmark statistics in exact arithmetic: mid-p McNemar, and the Wilson and Newcombe intervals. */
module Statistics {

  // ----- Binomial coefficients -----

  function Factorial(n: nat): (f: nat)
    ensures f >= 1
  {
    if n == 0 then 1 else n * Factorial(n - 1)
  }

  /** The number of ways to choose `k` of `n`; none when `k` is larger. */
  function Comb(n: nat, k: nat): nat {
    if k == 0 then 1 else if n == 0 then 0 else Comb(n - 1, k - 1) + Comb(n - 1, k)
  }

  lemma {:induction false} CombBeyond(n: nat, k: nat)
    requires k > n
    ensures Comb(n, k) == 0
  {
    if n > 0 {
      CombBeyond(n - 1, k - 1);
      CombBeyond(n - 1, k);
    }
  }

  lemma {:induction false} CombPositive(n: nat, k: nat)
    requires k <= n
    ensures Comb(n, k) >= 1
  {
    if k > 0 { CombPositive(n - 1, k - 1); }
  }

  /** Rows read the same from both ends. */
  lemma {:induction false} CombSymmetric(n: nat, k: nat)
    requires k <= n
    ensures Comb(n, k) == Comb(n, n - k)
  {
    if 0 < k < n {
      CombSymmetric(n - 1, k - 1);
      CombSymmetric(n - 1, k);
    } else if k == n && n > 0 {
      CombSymmetric(n - 1, n - 1);
      CombBeyond(n - 1, n);
    } else if n > 0 {
      CombSymmetric(n - 1, 0);
      CombBeyond(n - 1, n);
    }
  }

  lemma {:induction false} CombByFactorials(n: nat, k: nat)
    requires k <= n
    ensures Comb(n, k) * (Factorial(k) * Factorial(n - k)) == Factorial(n)
  {
    if k == n && n > 0 {
      CombByFactorials(n - 1, n - 1);
      CombBeyond(n - 1, n);
      FirstPart(Comb(n - 1, n - 1), n, Factorial(n - 1), 1);
    } else if 0 < k {
      CombByFactorials(n - 1, k - 1);
      CombByFactorials(n - 1, k);
      FirstPart(Comb(n - 1, k - 1), k, Factorial(k - 1), Factorial(n - k));
      SecondPart(Comb(n - 1, k), n - k, Factorial(k), Factorial(n - k - 1));
      Distributes(Comb(n - 1, k - 1), Comb(n - 1, k), Factorial(k) * Factorial(n - k));
      Distributes(k, n - k, Factorial(n - 1));
    }
  }

  lemma FirstPart(c: nat, k: nat, f: nat, g: nat)
    ensures c * ((k * f) * g) == k * (c * (f * g))
  {
  }

  lemma SecondPart(c: nat, m: nat, f: nat, g: nat)
    ensures c * (f * (m * g)) == m * (c * (f * g))
  {
  }

  lemma Distributes(a: nat, b: nat, c: nat)
    ensures (a + b) * c == a * c + b * c
  {
  }

  // ----- Rows of the triangle -----

  function Power2(n: nat): (p: nat)
    ensures p >= 1
  {
    if n == 0 then 1 else 2 * Power2(n - 1)
  }

  /** The first `k` coefficients of the n-th row together. */
  function RowSum(n: nat, k: nat): nat {
    if k == 0 then 0 else RowSum(n, k - 1) + Comb(n, k - 1)
  }

  lemma {:induction false} RowSumPascal(n: nat, k: nat)
    requires n > 0 && k > 0
    ensures RowSum(n, k) == RowSum(n - 1, k) + RowSum(n - 1, k - 1)
  {
    if k > 1 { RowSumPascal(n, k - 1); }
  }

  /** The whole row sums to a power of two. */
  lemma {:induction false} WholeRow(n: nat)
    ensures RowSum(n, n + 1) == Power2(n)
  {
    if n == 0 {
      assert RowSum(0, 1) == RowSum(0, 0) + Comb(0, 0);
    } else {
      WholeRow(n - 1);
      RowSumPascal(n, n + 1);
      CombBeyond(n - 1, n);
    }
  }

  /** The first `k` coefficients and the first `n + 1 - k` coefficients make the whole row. */
  lemma {:induction false} RowSplits(n: nat, k: nat)
    requires k <= n + 1
    ensures RowSum(n, k) + RowSum(n, n + 1 - k) == Power2(n)
  {
    if k == 0 {
      WholeRow(n);
    } else {
      RowSplits(n, k - 1);
      CombSymmetric(n, k - 1);
    }
  }

  // ----- Mid-p -----

  /** Twice the tail below `k`, and the weight of `k` itself, in units of one outcome. */
  function MidWeight(n: nat, k: nat): nat {
    2 * RowSum(n, k) + Comb(n, k)
  }

  lemma MidWeightStep(n: nat, k: nat)
    requires k < n
    ensures MidWeight(n, k) < MidWeight(n, k + 1)
  {
    CombPositive(n, k);
    CombPositive(n, k + 1);
  }

  lemma {:induction false} MidWeightIncreases(n: nat, k: nat, l: nat)
    requires k < l <= n
    ensures MidWeight(n, k) < MidWeight(n, l)
    decreases l
  {
    MidWeightStep(n, l - 1);
    if k < l - 1 { MidWeightIncreases(n, k, l - 1); }
  }

  /** The two tails together weigh twice the whole. */
  lemma MidWeightsBalance(n: nat, k: nat)
    requires k <= n
    ensures MidWeight(n, k) + MidWeight(n, n - k) == 2 * Power2(n)
  {
    RowSplits(n, k);
    CombSymmetric(n, k);
    assert RowSum(n, n + 1 - k) == RowSum(n, n - k) + Comb(n, n - k);
  }

  /** Half to the power of `n`. */
  function HalfPower(n: nat): (h: real)
    ensures h > 0.0
  {
    if n == 0 then 1.0 else HalfPower(n - 1) / 2.0
  }

  /** `unit` is the share of one of `whole` equally likely outcomes. */
  predicate IsUnit(unit: real, whole: nat) {
    unit > 0.0 && unit * (whole as real) == 1.0
  }

  lemma {:induction false} HalfPowerIsUnit(n: nat)
    ensures IsUnit(HalfPower(n), Power2(n))
  {
    if n > 0 {
      HalfPowerIsUnit(n - 1);
      Halved(HalfPower(n - 1), Power2(n - 1) as real);
    }
  }

  lemma Halved(h: real, p: real)
    ensures (h / 2.0) * (2.0 * p) == h * p
  {
  }

  function Pmf(n: nat, x: nat, unit: real): real {
    (Comb(n, x) as real) * unit
  }

  function Tail(n: nat, k: nat, unit: real): real {
    if k == 0 then 0.0 else Tail(n, k - 1, unit) + Pmf(n, k - 1, unit)
  }

  /** The value before it is clamped to one. */
  function Unclamped(n: nat, k: nat, unit: real): real {
    2.0 * (Tail(n, k, unit) + 0.5 * Pmf(n, k, unit))
  }

  function Min(b: nat, c: nat): nat {
    if b <= c then b else c
  }

  function MidP(b: nat, c: nat): real {
    if b + c == 0 then 1.0
    else
      var p := Unclamped(b + c, Min(b, c), HalfPower(b + c));
      if p < 1.0 then p else 1.0
  }

  lemma {:induction false} TailIsRowSum(n: nat, k: nat, unit: real)
    ensures Tail(n, k, unit) == (RowSum(n, k) as real) * unit
  {
    if k > 0 {
      TailIsRowSum(n, k - 1, unit);
      Adds(RowSum(n, k - 1) as real, Comb(n, k - 1) as real, unit);
    }
  }

  lemma Adds(a: real, b: real, h: real)
    ensures (a + b) * h == a * h + b * h
  {
  }

  lemma UnclampedIsWeight(n: nat, k: nat, unit: real)
    ensures Unclamped(n, k, unit) == (MidWeight(n, k) as real) * unit
  {
    TailIsRowSum(n, k, unit);
    Weighs(RowSum(n, k) as real, Comb(n, k) as real, unit);
  }

  lemma Weighs(s: real, w: real, h: real)
    ensures 2.0 * (s * h + 0.5 * (w * h)) == (2.0 * s + w) * h
  {
  }

  /** Comparing after multiplication by a positive number. */
  lemma Scales(a: real, b: real, h: real)
    requires h > 0.0
    ensures a < b <==> a * h < b * h
    ensures a == b <==> a * h == b * h
  {
    Adds(a, b - a, h);
    Adds(b, a - b, h);
    if a < b { Positive(b - a, h); }
    if b < a { Positive(a - b, h); }
  }

  lemma MidWeightRange(n: nat, k: nat)
    requires k <= n - k
    ensures 0 < MidWeight(n, k) <= Power2(n)
    ensures MidWeight(n, k) == Power2(n) <==> k == n - k
  {
    CombPositive(n, k);
    MidWeightsBalance(n, k);
    if k < n - k { MidWeightIncreases(n, k, n - k); }
  }

  lemma ShareOfWhole(x: real, w: nat, whole: nat, unit: real)
    requires IsUnit(unit, whole) && 0 < w <= whole && x == (w as real) * unit
    ensures 0.0 < x <= 1.0
    ensures x == 1.0 <==> w == whole
  {
    Scales(w as real, whole as real, unit);
    Positive(w as real, unit);
  }

  /** The value of a count that stands for it. */
  predicate Stands(x: real, w: nat, unit: real) {
    x == (w as real) * unit
  }

  lemma UnclampedStands(n: nat, k: nat, unit: real) returns (w: nat)
    ensures w == MidWeight(n, k) && Stands(Unclamped(n, k, unit), w, unit)
  {
    w := MidWeight(n, k);
    UnclampedIsWeight(n, k, unit);
  }

  lemma StandingRange(x: real, w: nat, n: nat, k: nat, unit: real)
    requires k <= n - k && IsUnit(unit, Power2(n)) && w == MidWeight(n, k) && Stands(x, w, unit)
    ensures 0.0 < x <= 1.0
    ensures x == 1.0 <==> k == n - k
  {
    MidWeightRange(n, k);
    ShareOfWhole(x, w, Power2(n), unit);
  }

  lemma UnclampedRange(n: nat, k: nat, unit: real)
    requires k <= n - k && IsUnit(unit, Power2(n))
    ensures 0.0 < Unclamped(n, k, unit) <= 1.0
    ensures Unclamped(n, k, unit) == 1.0 <==> k == n - k
  {
    var w := UnclampedStands(n, k, unit);
    StandingRange(Unclamped(n, k, unit), w, n, k, unit);
  }

  lemma UnclampedIncreases(n: nat, k: nat, l: nat, unit: real)
    requires k < l <= n && unit > 0.0
    ensures Unclamped(n, k, unit) < Unclamped(n, l, unit)
  {
    UnclampedIsWeight(n, k, unit);
    UnclampedIsWeight(n, l, unit);
    MidWeightIncreases(n, k, l);
    Scales(MidWeight(n, k) as real, MidWeight(n, l) as real, unit);
  }

  /** The value is a probability that is never zero, is one exactly for equal counts, and the clamp never acts. */
  lemma MidPRange(b: nat, c: nat)
    ensures 0.0 < MidP(b, c) <= 1.0
    ensures b + c > 0 ==> MidP(b, c) == Unclamped(b + c, Min(b, c), HalfPower(b + c))
    ensures MidP(b, c) == 1.0 <==> b == c
  {
    HalfPowerIsUnit(b + c);
    UnclampedRange(b + c, Min(b, c), HalfPower(b + c));
  }

  lemma MidPSymmetric(b: nat, c: nat)
    ensures MidP(b, c) == MidP(c, b)
  {
  }

  function Distance(b: nat, c: nat): nat {
    if b <= c then c - b else b - c
  }

  /** Among equal numbers of discordant pairs, the value falls strictly as the counts move apart. */
  lemma MidPDecreases(b: nat, c: nat, b': nat, c': nat)
    requires b + c == b' + c' && Distance(b, c) < Distance(b', c')
    ensures MidP(b', c') < MidP(b, c)
  {
    MidPRange(b, c);
    MidPRange(b', c');
    UnclampedIncreases(b + c, Min(b', c'), Min(b, c), HalfPower(b + c));
  }

  // ----- Intervals over the reals -----

  datatype Interval = Interval(lower: real, upper: real)

  /** The square root by its meaning. */
  predicate IsRoot(square: real, root: real) {
    root >= 0.0 && root * root == square
  }

  lemma SmallerSquare(x: real, y: real)
    requires y >= 0.0 && x * x <= y * y
    ensures -y <= x <= y
  {
    if x > y {
      Positive(x - y, x + y);
      Squares(x, y);
    }
    if x < -y {
      Positive(-x - y, -x + y);
      Squares(-x, y);
    }
  }

  lemma Positive(x: real, y: real)
    requires x > 0.0 && y > 0.0
    ensures x * y > 0.0
  {
  }

  lemma NonNegative(x: real, y: real)
    requires x >= 0.0 && y >= 0.0
    ensures x * y >= 0.0
  {
  }

  lemma Squares(x: real, y: real)
    ensures (x - y) * (x + y) == x * x - y * y
    ensures (-x) * (-x) == x * x
  {
  }

  lemma OneRoot(square: real, a: real, b: real)
    requires IsRoot(square, a) && IsRoot(square, b)
    ensures a == b
  {
    SmallerSquare(a, b);
    SmallerSquare(b, a);
  }

  /** The share of successes. */
  function Share(k: nat, n: nat): real
    requires n > 0
  {
    (k as real) / (n as real)
  }

  /** What stands under the root. */
  function Spread(k: nat, n: nat, z: real): real
    requires n > 0
  {
    var p, m := Share(k, n), n as real;
    p * (1.0 - p) / m + z * z / (4.0 * m * m)
  }

  function WilsonCi(k: nat, n: nat, z: real, root: real): Interval {
    if n == 0 then Interval(0.0, 0.0)
    else
      var p, m := Share(k, n), n as real;
      var d := 1.0 + z * z / m;
      var c := (p + z * z / (2.0 * m)) / d;
      var h := z * root / d;
      Interval(c - h, c + h)
  }

  lemma ShareInUnit(k: nat, n: nat)
    requires k <= n && n > 0
    ensures 0.0 <= Share(k, n) <= 1.0
  {
    var m, x := n as real, k as real;
    assert x / m * m == x;
    AtMostBy(0.0, x / m, m, 0.0, x);
    AtMostBy(x / m, 1.0, m, x, m);
  }

  /** The interval in terms of the share p, a = z * z / n and the scaled root. */
  lemma Bounds(p: real, a: real, d: real, c: real, h: real)
    requires 0.0 <= p <= 1.0 && a >= 0.0 && d == 1.0 + a && h >= 0.0
    requires c * d == p + a / 2.0
    requires (h * d) * (h * d) == a * (p * (1.0 - p)) + a * a / 4.0
    ensures 0.0 <= c - h <= p <= c + h <= 1.0
  {
    var u, lower, upper := h * d, c - h, c + h;
    NonNegative(h, d);
    ContainsShare(p, a, u);
    WithinUnit(p, a, u);
    Divided(c, h, d, p + a / 2.0, u);
    AtMostBy(0.0, lower, d, 0.0, p + a / 2.0 - u);
    AtMostBy(lower, p, d, p + a / 2.0 - u, p + a * p);
    AtMostBy(p, upper, d, p + a * p, p + a / 2.0 + u);
    AtMostBy(upper, 1.0, d, p + a / 2.0 + u, 1.0 + a);
  }

  lemma Divided(c: real, h: real, d: real, x: real, u: real)
    requires c * d == x && h * d == u
    ensures (c - h) * d == x - u && (c + h) * d == x + u
  {
  }

  /** Comparing by what the numbers are after multiplication by a positive one. */
  lemma AtMostBy(x: real, y: real, d: real, xd: real, yd: real)
    requires d >= 1.0 && x * d == xd && y * d == yd && xd <= yd
    ensures x <= y
  {
    if x > y {
      Positive(x - y, d);
      Divided(x, y, d, xd, yd);
    }
  }

  lemma ContainsShare(p: real, a: real, u: real)
    requires 0.0 <= p <= 1.0 && a >= 0.0 && u >= 0.0 && u * u == a * (p * (1.0 - p)) + a * a / 4.0
    ensures p + a / 2.0 - u <= p + a * p <= p + a / 2.0 + u
  {
    var q := p * (1.0 - p);
    var x := a * (0.5 - p);
    NonNegative(p, 1.0 - p);
    NonNegative(a, a);
    NonNegative(a * a, q);
    NonNegative(a, q);
    assert (0.5 - p) * (0.5 - p) == 0.25 - q;
    Square(a, 0.5 - p);
    assert (a * a) * (0.25 - q) == a * a / 4.0 - (a * a) * q;
    SmallerSquare(x, u);
    assert x == a / 2.0 - a * p;
  }

  lemma Square(a: real, b: real)
    ensures (a * b) * (a * b) == (a * a) * (b * b)
  {
  }

  lemma WithinUnit(p: real, a: real, u: real)
    requires 0.0 <= p <= 1.0 && a >= 0.0 && u >= 0.0 && u * u == a * (p * (1.0 - p)) + a * a / 4.0
    ensures p + a / 2.0 - u >= 0.0
    ensures p + a / 2.0 + u <= 1.0 + a
  {
    OneSide(p, a, u);
    OneSide(1.0 - p, a, u);
  }

  lemma OneSide(p: real, a: real, u: real)
    requires 0.0 <= p <= 1.0 && a >= 0.0 && u >= 0.0 && u * u == a * (p * (1.0 - p)) + a * a / 4.0
    ensures u <= p + a / 2.0
  {
    var y := p + a / 2.0;
    assert y * y == p * p + a * p + a * a / 4.0;
    assert a * (p * (1.0 - p)) == a * p - a * (p * p);
    NonNegative(p, p);
    NonNegative(a, p * p);
    SmallerSquare(u, y);
  }

  lemma WilsonPieces(k: nat, n: nat, z: real, root: real)
    requires k <= n && n > 0 && z >= 0.0 && IsRoot(Spread(k, n, z), root)
    ensures var p, a := Share(k, n), z * z / (n as real);
      var d := 1.0 + a;
      var c, h := (p + z * z / (2.0 * (n as real))) / d, z * root / d;
      && a >= 0.0 && h >= 0.0 && c * d == p + a / 2.0
      && (h * d) * (h * d) == a * (p * (1.0 - p)) + a * a / 4.0
  {
    var p, m := Share(k, n), n as real;
    var a := z * z / m;
    var d := 1.0 + a;
    NonNegative(z, z);
    Quotient(z * z, m);
    Nested(z * z, m, 2.0);
    var x := z * root;
    NonNegative(z, root);
    Quotient(x, d);
    assert x / d * d == x;
    Square(z, root);
    SpreadScaled(z * z, m, p * (1.0 - p));
  }

  lemma Quotient(x: real, y: real)
    requires x >= 0.0 && y > 0.0
    ensures x / y >= 0.0
  {
  }

  /** Dividing by a product. */
  lemma Nested(s: real, m: real, t: real)
    requires m > 0.0 && t > 0.0
    ensures t * m > 0.0 && s / (t * m) == (s / m) / t
  {
    Positive(t, m);
    var r := (s / m) / t;
    assert r * t == s / m;
    assert (s / m) * m == s;
    assert r * (t * m) == (r * t) * m;
    assert s / (t * m) == r * (t * m) / (t * m);
  }

  lemma SpreadScaled(s: real, m: real, q: real)
    requires m > 0.0
    ensures s * (q / m + s / (4.0 * m * m)) == (s / m) * q + (s / m) * (s / m) / 4.0
  {
    var a, r := s / m, s / (4.0 * m * m);
    Positive(m, m);
    assert s == a * m;
    assert q / m * m == q;
    assert s * (q / m) == a * (m * (q / m));
    assert r * (4.0 * m * m) == s;
    assert (4.0 * (m * r) - a) * m == 0.0;
    assert 4.0 * (m * r) == a;
    assert s * r == a * (m * r);
  }

  /** The interval contains the observed share and stays within zero and one. */
  lemma WilsonContainsShare(k: nat, n: nat, z: real, root: real)
    requires k <= n && n > 0 && z >= 0.0 && IsRoot(Spread(k, n, z), root)
    ensures var i := WilsonCi(k, n, z, root); 0.0 <= i.lower <= Share(k, n) <= i.upper <= 1.0
  {
    var p, a := Share(k, n), z * z / (n as real);
    var d := 1.0 + a;
    WilsonPieces(k, n, z, root);
    ShareInUnit(k, n);
    Bounds(p, a, d, (p + z * z / (2.0 * (n as real))) / d, z * root / d);
  }

  /** Both ends solve the equation of the score test. */
  predicate SolvesScore(x: real, p: real, z: real, n: nat) {
    (n as real) * ((x - p) * (x - p)) == z * z * (x * (1.0 - x))
  }

  /** The equation of the score test after multiplication by d, in terms of y = x * d. */
  lemma ScaledScore(p: real, a: real, d: real, x: real, y: real, u: real)
    requires d == 1.0 + a && d > 0.0 && x * d == y && (y - (p + a / 2.0)) * (y - (p + a / 2.0)) == u * u
    requires u * u == a * (p * (1.0 - p)) + a * a / 4.0
    ensures (x - p) * (x - p) == a * (x * (1.0 - x))
  {
    var half := p + a / 2.0;
    assert half * half == p * p + p * a + a * a / 4.0;
    assert (y - half) * (y - half) == y * y - 2.0 * (y * half) + half * half;
    assert a * (p * (1.0 - p)) == a * p - a * (p * p);
    assert y * y - 2.0 * (y * half) + (p * p) * d == 0.0;
    var q := (x - p) * (x - p) - a * (x * (1.0 - x));
    ScoreByParts(p, a, d, x, y, q);
    assert q * d == 0.0;
    ZeroFactor(q, d);
  }

  lemma Negated(q: real, d: real)
    ensures (-q) * d == -(q * d)
  {
  }

  lemma ZeroFactor(q: real, d: real)
    requires d > 0.0 && q * d == 0.0
    ensures q == 0.0
  {
    Negated(q, d);
    if q > 0.0 { Positive(q, d); }
    if q < 0.0 { Positive(-q, d); }
  }

  lemma ScoreByParts(p: real, a: real, d: real, x: real, y: real, q: real)
    requires d == 1.0 + a && x * d == y && q == (x - p) * (x - p) - a * (x * (1.0 - x))
    ensures q * d == y * y - 2.0 * (y * (p + a / 2.0)) + (p * p) * d
  {
    assert (x - p) * (x - p) == x * x - 2.0 * (x * p) + p * p;
    assert a * (x * (1.0 - x)) == a * x - a * (x * x);
    assert q == (x * x) * d - x * (2.0 * p + a) + p * p by {
      assert (x * x) * d == x * x + a * (x * x);
      assert x * (2.0 * p + a) == 2.0 * (x * p) + a * x;
    }
    assert ((x * x) * d) * d == y * y by { assert (x * d) * (x * d) == ((x * x) * d) * d; }
    assert (x * (2.0 * p + a)) * d == y * (2.0 * p + a);
    assert y * (2.0 * p + a) == 2.0 * (y * (p + a / 2.0));
    assert q * d == ((x * x) * d) * d - (x * (2.0 * p + a)) * d + (p * p) * d;
  }

  lemma ScoreOfShare(x: real, p: real, z: real, n: nat)
    requires n > 0 && (x - p) * (x - p) == (z * z / (n as real)) * (x * (1.0 - x))
    ensures SolvesScore(x, p, z, n)
  {
    var m, s, r := n as real, z * z, x * (1.0 - x);
    assert (s / m) * m == s;
    assert m * ((s / m) * r) == ((s / m) * m) * r;
  }

  /** The ends of an interval around c with half width h, in terms of the share and a = z * z / n. */
  lemma EndsSolve(p: real, a: real, d: real, c: real, h: real)
    requires a >= 0.0 && d == 1.0 + a && c * d == p + a / 2.0
    requires (h * d) * (h * d) == a * (p * (1.0 - p)) + a * a / 4.0
    ensures (c - h - p) * (c - h - p) == a * ((c - h) * (1.0 - (c - h)))
    ensures (c + h - p) * (c + h - p) == a * ((c + h) * (1.0 - (c + h)))
  {
    var u := h * d;
    Divided(c, h, d, p + a / 2.0, u);
    Squares(u, 0.0);
    ScaledScore(p, a, d, c - h, p + a / 2.0 - u, u);
    ScaledScore(p, a, d, c + h, p + a / 2.0 + u, u);
  }

  /** The two ends are the two solutions of n (x - p)^2 = z^2 x (1 - x). */
  lemma WilsonEndsSolveScore(k: nat, n: nat, z: real, root: real)
    requires k <= n && n > 0 && z >= 0.0 && IsRoot(Spread(k, n, z), root)
    ensures var i := WilsonCi(k, n, z, root);
      SolvesScore(i.lower, Share(k, n), z, n) && SolvesScore(i.upper, Share(k, n), z, n)
  {
    var p, a := Share(k, n), z * z / (n as real);
    var d := 1.0 + a;
    var c, h := (p + z * z / (2.0 * (n as real))) / d, z * root / d;
    WilsonPieces(k, n, z, root);
    EndsSolve(p, a, d, c, h);
    ScoreOfShare(c - h, p, z, n);
    ScoreOfShare(c + h, p, z, n);
  }

  lemma RootIsPositive(square: real, root: real)
    requires IsRoot(square, root) && square > 0.0
    ensures root > 0.0
  {
  }

  lemma PositiveProduct(x: real, y: real, p: real)
    requires x > 0.0 && y > 0.0 && p == x * y
    ensures p > 0.0
  {
    Positive(x, y);
  }

  lemma PositiveRatio(s: real, t: real, z: real, m: real)
    requires z > 0.0 && m > 0.0 && s == z * z && t == 4.0 * m * m
    ensures s > 0.0 && t > 0.0 && s / t > 0.0
  {
    PositiveProduct(z, z, s);
    PositiveProduct(m, m, m * m);
    assert t == 4.0 * (m * m);
    PositiveQuotient(s, t);
  }

  lemma ScorePartPositive(z: real, m: real)
    requires z > 0.0 && m > 0.0
    ensures z * z / (4.0 * m * m) > 0.0
  {
    PositiveRatio(z * z, 4.0 * m * m, z, m);
  }

  lemma SpreadPositive(k: nat, n: nat, z: real)
    requires k <= n && n > 0 && z > 0.0
    ensures Spread(k, n, z) > 0.0
  {
    var m, p := n as real, Share(k, n);
    ShareInUnit(k, n);
    NonNegative(p, 1.0 - p);
    Quotient(p * (1.0 - p), m);
    ScorePartPositive(z, m);
  }

  lemma HalfWidthPositive(z: real, root: real, m: real)
    requires z > 0.0 && root > 0.0 && m > 0.0
    ensures z * root / (1.0 + z * z / m) > 0.0
  {
    Positive(z, z);
    Positive(z, root);
    Quotient(z * z, m);
    PositiveQuotient(z * root, 1.0 + z * z / m);
  }

  /** So the ends are the two different solutions. */
  lemma WilsonEndsDiffer(k: nat, n: nat, z: real, root: real)
    requires k <= n && n > 0 && z > 0.0 && IsRoot(Spread(k, n, z), root)
    ensures var i := WilsonCi(k, n, z, root); i.lower < i.upper
  {
    SpreadPositive(k, n, z);
    RootIsPositive(Spread(k, n, z), root);
    HalfWidthPositive(z, root, n as real);
  }

  lemma PositiveQuotient(x: real, y: real)
    requires x > 0.0 && y > 0.0
    ensures x / y > 0.0
  {
    var q := x / y;
    assert q * y == x;
    if q < 0.0 { Positive(-q, y); Negated(q, y); }
  }

  // ----- The difference of two shares -----

  function NewcombeCi(p1: real, i1: Interval, p2: real, i2: Interval, below: real, above: real): Interval {
    Interval(p1 - p2 - below, p1 - p2 + above)
  }

  /** The squares under the two roots. */
  function BelowSquare(p1: real, i1: Interval, p2: real, i2: Interval): real {
    (p1 - i1.lower) * (p1 - i1.lower) + (i2.upper - p2) * (i2.upper - p2)
  }

  function AboveSquare(p1: real, i1: Interval, p2: real, i2: Interval): real {
    (i1.upper - p1) * (i1.upper - p1) + (p2 - i2.lower) * (p2 - i2.lower)
  }

  predicate Holds(i: Interval, p: real) {
    0.0 <= i.lower <= p <= i.upper <= 1.0
  }

  lemma RootOfSum(x: real, y: real, x': real, y': real, root: real)
    requires 0.0 <= x <= x' && 0.0 <= y <= y' && IsRoot(x * x + y * y, root)
    ensures root <= x' + y'
  {
    var s := x + y;
    assert x * y >= 0.0;
    assert s * s == x * x + y * y + 2.0 * (x * y);
    SmallerSquare(root, s);
  }

  /**
    The square of the distance from the difference to each end is the sum of the squares of the distances from the
    shares to the ends of their intervals that lie that way.
   */
  lemma NewcombeWidths(p1: real, i1: Interval, p2: real, i2: Interval, below: real, above: real)
    requires IsRoot(BelowSquare(p1, i1, p2, i2), below) && IsRoot(AboveSquare(p1, i1, p2, i2), above)
    ensures var i := NewcombeCi(p1, i1, p2, i2, below, above);
      && (p1 - p2 - i.lower) * (p1 - p2 - i.lower)
           == (p1 - i1.lower) * (p1 - i1.lower) + (i2.upper - p2) * (i2.upper - p2)
      && (i.upper - (p1 - p2)) * (i.upper - (p1 - p2))
           == (i1.upper - p1) * (i1.upper - p1) + (p2 - i2.lower) * (p2 - i2.lower)
  {
    var i := NewcombeCi(p1, i1, p2, i2, below, above);
    assert p1 - p2 - i.lower == below && i.upper - (p1 - p2) == above;
  }

  /** The interval of a difference contains it, stays within minus one and one, and turns around with its arms. */
  lemma NewcombeOfIntervals(p1: real, i1: Interval, p2: real, i2: Interval, below: real, above: real, below': real, above': real)
    requires Holds(i1, p1) && Holds(i2, p2)
    requires IsRoot(BelowSquare(p1, i1, p2, i2), below) && IsRoot(AboveSquare(p1, i1, p2, i2), above)
    requires IsRoot(BelowSquare(p2, i2, p1, i1), below') && IsRoot(AboveSquare(p2, i2, p1, i1), above')
    ensures var i := NewcombeCi(p1, i1, p2, i2, below, above);
      && -1.0 <= i.lower <= p1 - p2 <= i.upper <= 1.0
      && NewcombeCi(p2, i2, p1, i1, below', above') == Interval(-i.upper, -i.lower)
  {
    RootOfSum(p1 - i1.lower, i2.upper - p2, p1, 1.0 - p2, below);
    RootOfSum(i1.upper - p1, p2 - i2.lower, 1.0 - p1, p2, above);
    OneRoot(AboveSquare(p1, i1, p2, i2), above, below');
    OneRoot(BelowSquare(p1, i1, p2, i2), below, above');
  }

  /** An observed share and its Wilson interval. */
  predicate Observed(k: nat, n: nat, z: real, root: real, p: real, i: Interval) {
    k <= n && n > 0 && z >= 0.0 && IsRoot(Spread(k, n, z), root) && p == Share(k, n) && i == WilsonCi(k, n, z, root)
  }

  lemma ObservedHolds(k: nat, n: nat, z: real, root: real, p: real, i: Interval)
    requires Observed(k, n, z, root, p, i)
    ensures Holds(i, p)
  {
    WilsonContainsShare(k, n, z, root);
  }

  /**
    The interval for two observed shares contains their difference, stays within minus one and one, and is
    turned around when the arms are swapped.
   */
  lemma NewcombeContainsDifference(
    k1: nat, n1: nat, k2: nat, n2: nat, z: real, root1: real, root2: real, below: real, above: real,
    p1: real, i1: Interval, p2: real, i2: Interval)
    requires Observed(k1, n1, z, root1, p1, i1) && Observed(k2, n2, z, root2, p2, i2)
    requires IsRoot(BelowSquare(p1, i1, p2, i2), below) && IsRoot(AboveSquare(p1, i1, p2, i2), above)
    ensures var i := NewcombeCi(p1, i1, p2, i2, below, above);
      && -1.0 <= i.lower <= p1 - p2 <= i.upper <= 1.0
      && IsRoot(BelowSquare(p2, i2, p1, i1), above) && IsRoot(AboveSquare(p2, i2, p1, i1), below)
      && NewcombeCi(p2, i2, p1, i1, above, below) == Interval(-i.upper, -i.lower)
  {
    ObservedHolds(k1, n1, z, root1, p1, i1);
    ObservedHolds(k2, n2, z, root2, p2, i2);
    NewcombeOfIntervals(p1, i1, p2, i2, below, above, above, below);
  }
}
