/**
  Integer sums and the truncating float-to-int cast shared by the balancing model.
  The source computes its quotients in `float`/`double` and casts them back with `(int)`;
  here the quotients are exact reals and the cast is `Trunc`.
*/
module Numeric {

  /** LINQ's `Sum` over a list of ints. */
  function Sum(s: seq<int>): int
  {
    if s == [] then 0 else Sum(s[..|s| - 1]) + s[|s| - 1]
  }

  /** Sum of the squares of the elements. */
  function SumOfSquares(s: seq<int>): int
  {
    if s == [] then 0 else SumOfSquares(s[..|s| - 1]) + s[|s| - 1] * s[|s| - 1]
  }

  /** The sum over every position except `i`: a `Where(kvp => kvp.Key != team).Sum(...)`. */
  function SumExcept(s: seq<int>, i: nat): int
    requires i < |s|
  {
    Sum(s[..i]) + Sum(s[i + 1..])
  }

  /** `Math.Max` on ints. */
  function Max(a: int, b: int): (m: int)
    ensures a <= m && b <= m && (m == a || m == b)
  {
    if a >= b then a else b
  }

  /** C#'s `(int)` cast of a float or a double: truncation toward zero. */
  function Trunc(x: real): int
  {
    if x >= 0.0 then x.Floor else -((-x).Floor)
  }

  /** The cast drops the fraction: it moves x toward zero by less than 1. */
  lemma TruncBounds(x: real)
    ensures 0.0 <= x ==> 0 <= Trunc(x) && Trunc(x) as real <= x < Trunc(x) as real + 1.0
    ensures x < 0.0 ==> Trunc(x) <= 0 && Trunc(x) as real - 1.0 < x <= Trunc(x) as real
  {
  }

  lemma {:induction false} SumAppend(a: seq<int>, b: seq<int>)
    ensures Sum(a + b) == Sum(a) + Sum(b)
  {
    if b == [] {
      assert a + b == a;
    } else {
      SumAppend(a, b[..|b| - 1]);
      assert (a + b)[..|a + b| - 1] == a + b[..|b| - 1];
    }
  }

  /** The sum over the other positions is the total minus the excluded element. */
  lemma SumExceptIsDifference(s: seq<int>, i: nat)
    requires i < |s|
    ensures SumExcept(s, i) == Sum(s) - s[i]
  {
    assert s == s[..i] + s[i..];
    SumAppend(s[..i], s[i..]);
    assert s[i..] == [s[i]] + s[i + 1..];
    SumAppend([s[i]], s[i + 1..]);
    assert Sum([s[i]]) == Sum([]) + s[i];
  }

  lemma {:induction false} SumAtLeast(s: seq<int>, lo: int)
    requires forall i :: 0 <= i < |s| ==> lo <= s[i]
    ensures |s| * lo <= Sum(s)
  {
    if s != [] {
      SumAtLeast(s[..|s| - 1], lo);
    }
  }

  lemma {:induction false} SumNonNegative(s: seq<int>)
    requires forall i :: 0 <= i < |s| ==> 0 <= s[i]
    ensures 0 <= Sum(s)
  {
    SumAtLeast(s, 0);
  }

  /** Every element of a sequence of non-negative numbers is at most their sum. */
  lemma ElementAtMostSum(s: seq<int>, i: nat)
    requires forall k :: 0 <= k < |s| ==> 0 <= s[k]
    requires i < |s|
    ensures s[i] <= Sum(s)
  {
    SumExceptIsDifference(s, i);
    SumNonNegative(s[..i]);
    SumNonNegative(s[i + 1..]);
  }

  /** The sum of a constant sequence. */
  lemma {:induction false} SumOfConstant(s: seq<int>, v: int)
    requires forall i :: 0 <= i < |s| ==> s[i] == v
    ensures Sum(s) == |s| * v
    ensures SumOfSquares(s) == |s| * (v * v)
  {
    if s != [] {
      SumOfConstant(s[..|s| - 1], v);
    }
  }

  /** Sum over the elements of (v - x)^2, expanded. It is a sum of squares, hence non-negative. */
  lemma {:induction false} SquaredDeviationNonNegative(s: seq<int>, x: int)
    ensures 0 <= SumOfSquares(s) - 2 * x * Sum(s) + |s| * (x * x)
  {
    if s != [] {
      var t, v := s[..|s| - 1], s[|s| - 1];
      SquaredDeviationNonNegative(t, x);
      assert t + [v] == s;
      DeviationStep(SumOfSquares(t), Sum(t), |t|, v, x, SumOfSquares(s), Sum(s), |s|);
    }
  }

  /** One step of the expansion of the sum of (v - x)^2: adding v adds (v - x)^2. */
  lemma DeviationStep(q: int, sum: int, n: int, v: int, x: int, q': int, sum': int, n': int)
    requires q' == q + v * v && sum' == sum + v && n' == n + 1
    requires 0 <= q - 2 * x * sum + n * (x * x)
    ensures 0 <= q' - 2 * x * sum' + n' * (x * x)
  {
    assert 2 * x * sum' == 2 * x * sum + 2 * x * v;
    assert n' * (x * x) == n * (x * x) + x * x;
    assert 0 <= (v - x) * (v - x) == v * v - 2 * x * v + x * x;
  }

  /** Cauchy-Schwarz for sums: n * (sum of squares) >= (sum)^2. */
  lemma {:induction false} CauchySchwarz(s: seq<int>)
    ensures Sum(s) * Sum(s) <= |s| * SumOfSquares(s)
  {
    if s != [] {
      var t, v := s[..|s| - 1], s[|s| - 1];
      assert t + [v] == s;
      CauchySchwarz(t);
      SquaredDeviationNonNegative(t, v);
      CauchySchwarzStep(|t|, Sum(t), SumOfSquares(t), v, |s|, Sum(s), SumOfSquares(s));
    }
  }

  /** One step of Cauchy-Schwarz: the arithmetic alone. */
  lemma CauchySchwarzStep(n: int, sum: int, q: int, v: int, n': int, sum': int, q': int)
    requires n' == n + 1 && sum' == sum + v && q' == q + v * v
    requires sum * sum <= n * q
    requires 0 <= q - 2 * v * sum + n * (v * v)
    ensures sum' * sum' <= n' * q'
  {
    assert n' * q' == n * q + q + n * (v * v) + v * v;
    assert sum' * sum' == sum * sum + 2 * v * sum + v * v;
  }

  /** The cast leaves whole numbers alone. */
  lemma TruncOfWhole(k: int)
    ensures Trunc(k as real) == k
  {
  }

  /** The cast is monotone. */
  lemma TruncMonotone(x: real, y: real)
    requires x <= y
    ensures Trunc(x) <= Trunc(y)
  {
    if 0.0 <= x {
      assert x.Floor as real <= y;
    } else if y < 0.0 {
      assert (-y).Floor as real <= -x;
    }
  }

  /** Casting and then clamping to at least 1 stays below any bound of at least 1 above x. */
  lemma ClampedTruncAtMost(x: real, bound: real)
    requires x <= bound && 1.0 <= bound
    ensures Max(Trunc(x), 1) as real <= bound
  {
  }

  /** A mean of values that are each at least 1 is at least 1. */
  lemma MeanAtLeastOne(s: real, n: real)
    requires 0.0 < n <= s
    ensures 1.0 <= s / n
  {
    RealDivMonotone(n, s, n);
    assert n / n == 1.0;
  }

  /**
    The cast `(int)(num / den)` of a quotient of two whole numbers held as floats, with a
    positive denominator: integer division rounded toward zero (see `TruncQuotientIsCast`).
  */
  function TruncQuotient(num: int, den: int): int
    requires 0 < den
  {
    if 0 <= num then num / den else -((-num) / den)
  }

  /** The floor of a non-negative quotient of integers is their integer quotient. */
  lemma FloorOfQuotient(num: int, den: int)
    requires 0 <= num && 0 < den
    ensures (num as real / den as real).Floor == num / den
  {
    var q, r := num / den, num % den;
    assert num == q * den + r && 0 <= r < den;
    var x := num as real / den as real;
    assert x == q as real + r as real / den as real;
    assert 0.0 <= r as real / den as real < 1.0;
  }

  /** `TruncQuotient` is the truncating cast of the exact real quotient. */
  lemma TruncQuotientIsCast(num: int, den: int)
    requires 0 < den
    ensures TruncQuotient(num, den) == Trunc(num as real / den as real)
  {
    if 0 <= num {
      FloorOfQuotient(num, den);
    } else {
      FloorOfQuotient(-num, den);
      assert -(num as real / den as real) == (-num) as real / den as real;
    }
  }

  /** A larger numerator over the same positive denominator never casts to less. */
  lemma TruncQuotientMonotone(n1: int, n2: int, den: int)
    requires n1 <= n2 && 0 < den
    ensures TruncQuotient(n1, den) <= TruncQuotient(n2, den)
  {
    TruncQuotientIsCast(n1, den);
    TruncQuotientIsCast(n2, den);
    RealDivMonotone(n1 as real, n2 as real, den as real);
    TruncMonotone(n1 as real / den as real, n2 as real / den as real);
  }

  /**
    If each q[i] is at most c[i] / den, the sums keep that relation: the sum of the
    truncated shares never exceeds the truncated share of the sum.
  */
  lemma {:induction false} SumOfBoundedQuotients(q: seq<int>, c: seq<int>, den: int)
    requires |q| == |c| && 0 < den
    requires forall i :: 0 <= i < |q| ==> q[i] * den <= c[i]
    ensures Sum(q) * den <= Sum(c)
  {
    if q != [] {
      SumOfBoundedQuotients(q[..|q| - 1], c[..|c| - 1], den);
    }
  }

  /** The same bound with one position left out of both sums. */
  lemma SumExceptOfBoundedQuotients(q: seq<int>, c: seq<int>, den: int, k: nat)
    requires |q| == |c| && k < |q| && 0 < den
    requires forall i :: 0 <= i < |q| ==> q[i] * den <= c[i]
    ensures SumExcept(q, k) * den <= SumExcept(c, k)
  {
    SumOfBoundedQuotients(q[..k], c[..k], den);
    SumOfBoundedQuotients(q[k + 1..], c[k + 1..], den);
    assert (Sum(q[..k]) + Sum(q[k + 1..])) * den == Sum(q[..k]) * den + Sum(q[k + 1..]) * den;
  }

  /** Each q[i] times the denominator d is at most b (Sum(w) - w[i]). */
  ghost predicate QuotientsWithin(q: seq<int>, w: seq<int>, b: int, d: int)
  {
    |q| == |w| && forall i :: 0 <= i < |q| ==> q[i] * d <= b * (Sum(w) - w[i])
  }

  /**
    Quotients that each take at most b (a - w[i]) / ((n - 2) a) of a budget b, where a is the
    sum of the n weights w and w[k] is 0, add up to at most b once position k is left out.
  */
  lemma ComplementQuotientsExceptOne(q: seq<int>, w: seq<int>, b: int, k: nat)
    requires 3 <= |w| && k < |w|
    requires w[k] == 0 && 0 < Sum(w) && 0 <= b
    requires QuotientsWithin(q, w, b, (|w| - 2) * Sum(w))
    ensures SumExcept(q, k) <= b
  {
    var a, n := Sum(w), |w|;
    var d := (n - 2) * a;
    PositiveProduct(n - 2, a);
    assert |q| == n;
    var c := seq(n, i requires 0 <= i < n => b * (a - w[i]));
    forall i | 0 <= i < n
      ensures q[i] * d <= c[i]
    {
      assert c[i] == b * (a - w[i]);
    }
    SumExceptOfBoundedQuotients(q, c, d, k);
    assert SumExcept(c, k) == b * d by {
      SumOfScaledComplements(c, w, b, a);
      SumExceptIsDifference(c, k);
      ComplementIdentity(b, n, a);
    }
    CancelPositiveFactor(SumExcept(q, k), b, d);
  }

  /** Integer division loses less than one whole: x < (x / d) * d + d. */
  lemma DivTimesAbove(x: int, d: int)
    requires 0 < d
    ensures x < (x / d) * d + d
  {
    assert d * (x / d) + x % d == x;
  }

  /** Each q[i] is b (Sum(w) - w[i]) / d rounded down at worst: q[i] + 1 times d exceeds it. */
  ghost predicate QuotientsAbove(q: seq<int>, w: seq<int>, b: int, d: int)
  {
    |q| == |w| && forall i :: 0 <= i < |q| ==> b * (Sum(w) - w[i]) < q[i] * d + d
  }

  /** Summing c[i] < (q[i] + 1) den: the c[i] add up to at most Sum(q) den plus den - 1 per element. */
  lemma {:induction false} SumOfQuotientsFromBelow(q: seq<int>, c: seq<int>, den: int)
    requires |q| == |c| && 0 < den
    requires forall i :: 0 <= i < |q| ==> c[i] < q[i] * den + den
    ensures Sum(c) <= Sum(q) * den + |q| * (den - 1)
  {
    if q != [] {
      var n := |q| - 1;
      SumOfQuotientsFromBelow(q[..n], c[..n], den);
      assert c[n] <= q[n] * den + (den - 1);
      assert Sum(q) * den == Sum(q[..n]) * den + q[n] * den;
      assert |q| * (den - 1) == n * (den - 1) + (den - 1);
    }
  }

  /** The same bound with one position left out of both sums. */
  lemma SumExceptOfQuotientsFromBelow(q: seq<int>, c: seq<int>, den: int, k: nat)
    requires |q| == |c| && k < |q| && 0 < den
    requires forall i :: 0 <= i < |q| ==> c[i] < q[i] * den + den
    ensures SumExcept(c, k) <= SumExcept(q, k) * den + (|q| - 1) * (den - 1)
  {
    SumOfQuotientsFromBelow(q[..k], c[..k], den);
    SumOfQuotientsFromBelow(q[k + 1..], c[k + 1..], den);
    assert (Sum(q[..k]) + Sum(q[k + 1..])) * den == Sum(q[..k]) * den + Sum(q[k + 1..]) * den;
    assert (|q| - 1) * (den - 1) == k * (den - 1) + (|q| - 1 - k) * (den - 1);
  }

  /**
    The counterpart of `ComplementQuotientsExceptOne`: quotients that each keep at least
    b (a - w[i]) / ((n - 2) a) rounded down lose less than one apiece, so leaving out position
    k, where w[k] is 0, they add up to at least b - (n - 2).
  */
  lemma ComplementQuotientsExceptOneFromBelow(q: seq<int>, w: seq<int>, b: int, k: nat)
    requires 3 <= |w| && k < |w|
    requires w[k] == 0 && 0 < Sum(w) && 0 <= b
    requires QuotientsAbove(q, w, b, (|w| - 2) * Sum(w))
    ensures b - (|w| - 2) <= SumExcept(q, k)
  {
    var a, n := Sum(w), |w|;
    var d := (n - 2) * a;
    PositiveProduct(n - 2, a);
    assert |q| == n;
    var c := seq(n, i requires 0 <= i < n => b * (a - w[i]));
    forall i | 0 <= i < n
      ensures c[i] < q[i] * d + d
    {
      assert c[i] == b * (a - w[i]);
    }
    SumExceptOfQuotientsFromBelow(q, c, d, k);
    assert SumExcept(c, k) == b * d by {
      SumOfScaledComplements(c, w, b, a);
      SumExceptIsDifference(c, k);
      ComplementIdentity(b, n, a);
    }
    QuotientSumFromBelow(SumExcept(q, k), b, d, n - 1);
  }

  /** If b d <= x d + m (d - 1) with m positive, the loss b - x is less than m. */
  lemma QuotientSumFromBelow(x: int, b: int, d: int, m: int)
    requires 0 < d && 0 < m
    requires b * d <= x * d + m * (d - 1)
    ensures b - m < x
  {
    if x <= b - m {
      MulLeftMonotone(x, b - m, d);
      assert false;
    }
  }

  /**
    Quotients that each take at most b (a - w[i]) / (a (n - 1)) of b, where a is the sum of
    the n >= 2 weights w, add up to at most b.
  */
  lemma ComplementQuotients(q: seq<int>, w: seq<int>, b: int)
    requires |q| == |w| && 2 <= |w| && 0 < Sum(w)
    requires forall i :: 0 <= i < |q| ==> q[i] * (Sum(w) * (|w| - 1)) <= b * (Sum(w) - w[i])
    ensures Sum(q) <= b
  {
    var a, n := Sum(w), |w|;
    var d := a * (n - 1);
    MulLeftMonotone(1, n - 1, a);
    var c := seq(n, i requires 0 <= i < n => b * (a - w[i]));
    SumOfBoundedQuotients(q, c, d);
    assert Sum(c) == b * d by {
      SumOfScaledComplements(c, w, b, a);
      OneLessIdentity(b, n, a);
    }
    CancelPositiveFactor(Sum(q), b, d);
  }

  /** b (n a - a) == b (a (n - 1)). */
  lemma OneLessIdentity(b: int, n: int, a: int)
    ensures b * (n * a - a) == b * (a * (n - 1))
  {
    assert a * (n - 1) == n * a - a;
  }

  /** b (n a - a) - b a == b ((n - 2) a). */
  lemma ComplementIdentity(b: int, n: int, a: int)
    ensures b * (n * a - a) - b * a == b * ((n - 2) * a)
  {
    assert (n - 2) * a == n * a - a - a;
  }

  /** The sum of the elements b * (a - s[i]). */
  lemma {:induction false} SumOfScaledComplements(c: seq<int>, s: seq<int>, b: int, a: int)
    requires |c| == |s|
    requires forall i :: 0 <= i < |c| ==> c[i] == b * (a - s[i])
    ensures Sum(c) == b * (|s| * a - Sum(s))
  {
    if c != [] {
      var n := |c| - 1;
      SumOfScaledComplements(c[..n], s[..n], b, a);
      assert b * (|s| * a - Sum(s)) == b * (n * a - Sum(s[..n])) + b * (a - s[n]);
    }
  }

  lemma PositiveProduct(x: int, y: int)
    requires 0 < x && 0 < y
    ensures 0 < x * y
  {
    MulLeftMonotone(1, x, y);
  }

  lemma MulLeftMonotone(a: int, b: int, c: int)
    requires a <= b && 0 <= c
    ensures c * a <= c * b
  {
  }

  /** From s * d <= b * d with d positive, s <= b. */
  lemma CancelPositiveFactor(s: int, b: int, d: int)
    requires 0 < d && s * d <= b * d
    ensures s <= b
  {
    if s > b {
      MulLeftMonotone(b + 1, s, d);
    }
  }

  /** A non-negative x at most b * d divided by the positive d is at most b. */
  lemma DivAtMost(x: int, b: int, d: int)
    requires 0 <= x <= b * d && 0 < d
    ensures 0 <= x / d <= b
  {
    assert d * (x / d) + x % d == x;
    CancelPositiveFactor(x / d, b, d);
  }

  lemma RealMulLeftMonotone(a: real, b: real, c: real)
    requires a <= b && 0.0 <= c
    ensures c * a <= c * b
  {
  }

  /** A fraction b x / (n a) with 0 <= x <= a and n >= 1 lies between 0 and b. */
  lemma FractionOfWholeAtMost(b: int, x: int, a: int, n: int)
    requires 0 <= b && 0 <= x <= a && 0 < n * a
    ensures 0 <= (b * x) / (n * a) <= b
  {
    if n <= 0 {
      MulLeftMonotone(n, 0, a);
    }
    MulLeftMonotone(1, n, a);
    MulLeftMonotone(x, n * a, b);
    MulLeftMonotone(0, x, b);
    DivAtMost(b * x, b, n * a);
  }

  /** Integer division rounds down: (x / d) * d <= x. */
  lemma DivTimesAtMost(x: int, d: int)
    requires 0 < d
    ensures (x / d) * d <= x
  {
    assert d * (x / d) + x % d == x;
  }

  lemma RealDivMonotone(a: real, b: real, d: real)
    requires a <= b && 0.0 < d
    ensures a / d <= b / d
  {
    assert b / d - a / d == (b - a) / d;
  }

  /**
    The variance-corrected average is at most the mean:
    s^2 <= n q implies (s - q / s) / (n - 1) <= s / n.
  */
  lemma CorrectedAverageAtMostMean(s: real, q: real, n: real)
    requires 0.0 < s && 2.0 <= n && s * s <= n * q
    ensures (s - q / s) / (n - 1.0) <= s / n
  {
    var a := q / s;
    MeanAtMostQuotient(s, q, n, a);
    RealDivMonotone(s - a, s - s / n, n - 1.0);
    MeanRest(s, n);
  }

  /** From s^2 <= n q: the mean s / n is at most q / s. */
  lemma MeanAtMostQuotient(s: real, q: real, n: real, a: real)
    requires 0.0 < s && 2.0 <= n && s * s <= n * q && a == q / s
    ensures s / n <= a
  {
    assert a * s == q;
    assert s * s <= (n * a) * s;
    if n * a < s {
      RealMulLeftMonotone(n * a, s, s);
    }
    RealDivMonotone(s, n * a, n);
  }

  /** (s - s / n) / (n - 1) == s / n. */
  lemma MeanRest(s: real, n: real)
    requires 2.0 <= n
    ensures (s - s / n) / (n - 1.0) == s / n
  {
    assert s - s / n == (s / n) * (n - 1.0);
  }

  /** For n equal values v: (n v - n v^2 / (n v)) / (n - 1) == v. */
  lemma CorrectedAverageOfEqualValues(n: real, v: real)
    requires 2.0 <= n && 0.0 < v
    ensures (n * v - (n * (v * v)) / (n * v)) / (n - 1.0) == v
  {
    assert (n * (v * v)) / (n * v) == v;
    assert n * v - v == v * (n - 1.0);
  }

  /** q (1 - v / s) / m as one fraction. */
  lemma ShareFraction(q: real, s: real, v: real, m: real)
    requires 0.0 < s && 0.0 < m
    ensures q * (1.0 - v / s) / m == (q * (s - v)) / (s * m)
  {
    assert s / s == 1.0;
    assert (s - v) / s == s / s - v / s;
    assert q * ((s - v) / s) == (q * (s - v)) / s;
    assert (q * (s - v)) / s / m == (q * (s - v)) / (s * m);
  }

  /** The quotient q (1 - v / s) / m, evaluated over the reals. */
  function ShareQuotient(q: int, s: int, v: int, m: int): real
    requires 0 < s && 0 < m
  {
    q as real * (1.0 - v as real / s as real) / m as real
  }

  /** The cast `(int)(q * (1 - v / s) / m)`. */
  function TruncShare(q: int, s: int, v: int, m: int): int
    requires 0 < s && 0 < m
  {
    Trunc(ShareQuotient(q, s, v, m))
  }

  /** q (1 - v / s) / m never grows as v grows. */
  lemma ComplementShareMonotone(q: real, s: real, v1: real, v2: real, m: real)
    requires 0.0 < s && 0.0 <= q && 0.0 < m && v1 <= v2
    ensures q * (1.0 - v2 / s) / m <= q * (1.0 - v1 / s) / m
  {
    RealDivMonotone(v1, v2, s);
    RealMulLeftMonotone(1.0 - v2 / s, 1.0 - v1 / s, q);
    RealDivMonotone(q * (1.0 - v2 / s), q * (1.0 - v1 / s), m);
  }

  /** The real quotient behind a share, brought to one fraction of integers. */
  lemma ShareAsFraction(q: int, s: int, v: int, m: int)
    requires 0 < s && 0 < m
    ensures ShareQuotient(q, s, v, m) == (q * (s - v)) as real / (s * m) as real
  {
    var qr, sr, vr, mr := q as real, s as real, v as real, m as real;
    ShareFraction(qr, sr, vr, mr);
    assert (q * (s - v)) as real == qr * (sr - vr);
    assert (s * m) as real == sr * mr;
  }

  /** With 0 <= v <= s and q >= 0 the share is the integer quotient q (s - v) / (s m). */
  lemma TruncShareAsDivision(q: int, s: int, v: int, m: int)
    requires 0 < s && 0 < m && 0 <= q && 0 <= v <= s
    ensures 0 < s * m
    ensures TruncShare(q, s, v, m) == (q * (s - v)) / (s * m)
  {
    MulLeftMonotone(1, m, s);
    ShareAsFraction(q, s, v, m);
    MulLeftMonotone(0, s - v, q);
    TruncQuotientIsCast(q * (s - v), s * m);
  }

  /** The share never grows as v grows. */
  lemma TruncShareMonotone(q: int, s: int, v1: int, v2: int, m: int)
    requires 0 < s && 0 < m && 0 <= q && v1 <= v2
    ensures TruncShare(q, s, v2, m) <= TruncShare(q, s, v1, m)
  {
    assert ShareQuotient(q, s, v2, m) <= ShareQuotient(q, s, v1, m) by {
      ComplementShareMonotone(q as real, s as real, v1 as real, v2 as real, m as real);
    }
    TruncMonotone(ShareQuotient(q, s, v2, m), ShareQuotient(q, s, v1, m));
  }

  /** (s - q / s) / (n - 1), evaluated over the reals. */
  function CorrectedAverage(s: int, q: int, n: int): real
    requires 0 < s && 1 < n
  {
    (s as real - q as real / s as real) / (n - 1) as real
  }

  /** With s^2 <= n q (Cauchy-Schwarz for a sum s and sum of squares q) it is at most s / n. */
  lemma CorrectedAverageBelowMean(s: int, q: int, n: int)
    requires 0 < s && 2 <= n && s * s <= n * q
    ensures CorrectedAverage(s, q, n) <= s as real / n as real
  {
    var sr, qr, nr := s as real, q as real, n as real;
    assert sr * sr <= nr * qr by {
      assert (s * s) as real == sr * sr;
      assert (n * q) as real == nr * qr;
    }
    CorrectedAverageAtMostMean(sr, qr, nr);
    assert (n - 1) as real == nr - 1.0;
  }

  /** For n equal values v it is v itself. */
  lemma CorrectedAverageOfEqual(n: int, v: int)
    requires 2 <= n && 1 <= v
    ensures 0 < n * v
    ensures CorrectedAverage(n * v, n * (v * v), n) == v as real
  {
    MulLeftMonotone(1, v, n);
    var nr, vr := n as real, v as real;
    assert (n * v) as real == nr * vr;
    assert (n * (v * v)) as real == nr * (vr * vr);
    assert (n - 1) as real == nr - 1.0;
    CorrectedAverageOfEqualValues(nr, vr);
  }
}
