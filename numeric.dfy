/** Arithmetic shared by every module: Python's float operators that Dafny does not have
    (`%` with a positive modulus, `int()` truncation), sums and population statistics as numpy
    computes them, and the math library (`math.sin`, `math.sqrt`, ...), which is not computable
    over the reals and is therefore passed in as a record of functions together with the facts
    about it that the proofs rely on. */
module Numeric {

  /** `math.pi` */
  const PI: real := 3.141592653589793

  /** `math.radians` / `math.degrees` */
  function Radians(deg: real): real { deg * PI / 180.0 }
  function Degrees(rad: real): real { rad * 180.0 / PI }

  /** The part of Python's `math` module the core uses. The model fixes no exact values;
      `Valid` gathers the facts the proofs use, each true of the real functions, and each
      member requires only the ones it needs. */
  datatype MathLib = MathLib(
    sin: real -> real,
    cos: real -> real,
    tan: real -> real,
    asin: real -> real,
    acos: real -> real,
    atan2: (real, real) -> real,
    exp: real -> real,
    sqrt: real -> real,
    pow: (real, real) -> real)
  {
    ghost predicate Valid() {
      TrigBounded() && TrigAtZero() && CosPositive() && SinPositive() && InverseRanges()
      && ExpFacts() && SqrtExact() && PowFacts()
    }

    ghost predicate TrigBounded() {
      && (forall x :: -1.0 <= sin(x) <= 1.0)
      && (forall x :: -1.0 <= cos(x) <= 1.0)
    }

    ghost predicate TrigAtZero() {
      sin(0.0) == 0.0 && cos(0.0) == 1.0
    }

    /** cos is non-negative on [-pi/2, pi/2] and positive inside it. */
    ghost predicate CosPositive() {
      && (forall x :: -PI / 2.0 <= x <= PI / 2.0 ==> cos(x) >= 0.0)
      && (forall x :: -PI / 2.0 < x < PI / 2.0 ==> cos(x) > 0.0)
    }

    ghost predicate SinPositive() {
      forall x :: 0.0 < x < PI ==> sin(x) > 0.0
    }

    /** The ranges of the inverse functions; acos maps [0, 1] into [0, pi/2]. */
    ghost predicate InverseRanges() {
      && (forall x :: -PI / 2.0 <= asin(x) <= PI / 2.0)
      && (forall x :: 0.0 <= acos(x) <= PI)
      && (forall x :: 0.0 <= x <= 1.0 ==> acos(x) <= PI / 2.0)
      && (forall y, x :: -PI < atan2(y, x) <= PI)
    }

    /** exp is positive, and at most 1 on non-positive arguments. */
    ghost predicate ExpFacts() {
      && (forall x :: exp(x) > 0.0)
      && (forall x :: x <= 0.0 ==> exp(x) <= 1.0)
    }

    ghost predicate SqrtExact() {
      forall x :: x >= 0.0 ==> sqrt(x) >= 0.0 && sqrt(x) * sqrt(x) == x
    }

    /** A positive base gives a positive power; a zero base with a positive exponent gives 0. */
    ghost predicate PowFacts() {
      && (forall x, y :: x > 0.0 ==> pow(x, y) > 0.0)
      && (forall x, y :: x >= 0.0 && y > 0.0 ==> pow(x, y) >= 0.0)
    }
  }

  function Abs(x: real): real { if x < 0.0 then -x else x }
  function Min(a: real, b: real): real { if a <= b then a else b }
  function Max(a: real, b: real): real { if a >= b then a else b }

  /** Python's `int(x)` on a float: truncation toward zero. */
  function Trunc(x: real): (r: int)
    ensures x >= 0.0 ==> 0 <= r && r as real <= x < r as real + 1.0
    ensures x < 0.0 ==> r <= 0 && r as real - 1.0 < x <= r as real
  {
    if x >= 0.0 then x.Floor else -((-x).Floor)
  }

  lemma MulLe(a: real, b: real, c: real)
    requires a <= b && c >= 0.0
    ensures a * c <= b * c
  {}

  lemma MulLt(a: real, b: real, c: real)
    requires a < b && c > 0.0
    ensures a * c < b * c
  {}

  lemma DivNonNegative(x: real, y: real)
    requires x >= 0.0 && y > 0.0
    ensures x / y >= 0.0
  {
    assert x / y * y == x;
  }

  lemma SquareLt(a: real, b: real)
    requires 0.0 <= b < a
    ensures b * b < a * a
  {
    calc {
      b * b;
    <= { MulLe(b, a, b); }
      a * b;
    < { MulLt(b, a, a); }
      a * a;
    }
  }

  lemma Distribute(a: real, b: real, c: real)
    ensures (a - b) * c == a * c - b * c
  {}

  lemma FloorRemainder(x: real, m: real)
    requires m > 0.0
    ensures 0.0 <= x - ((x / m).Floor as real) * m < m
  {
    var q := x / m;
    var f := q.Floor as real;
    assert q * m == x;
    assert f * m <= q * m;
    assert (q - f) * m < m;
    Distribute(q, f, m);
    calc {
      x - f * m;
    ==
      q * m - f * m;
    ==
      (q - f) * m;
    <
      m;
    }
  }

  /** Python's `x % m` for a float `x` and a positive float `m`: the result has the sign of
      `m`, so it lies in [0, m). */
  function PyMod(x: real, m: real): (r: real)
    requires m > 0.0
    ensures 0.0 <= r < m
  {
    FloorRemainder(x, m);
    x - ((x / m).Floor as real) * m
  }

  /** The remainder is the one value in [0, m) that differs from `x` by a whole multiple of
      `m`. */
  lemma PyModUnique(x: real, m: real, r: real, k: int)
    requires m > 0.0 && 0.0 <= r < m && x == r + (k as real) * m
    ensures PyMod(x, m) == r
  {
    var q := x / m;
    var d := q - k as real;
    assert q * m == x;
    assert d * m == r by { Distribute(q, k as real, m); }
    if d < 0.0 {
      MulLt(d, 0.0, m);
    } else if d >= 1.0 {
      MulLe(1.0, d, m);
    }
    assert 0.0 <= d < 1.0;
    assert q.Floor == k;
  }

  /** Adding a whole number of periods does not change the remainder. */
  lemma PyModShift(x: real, m: real, j: int)
    requires m > 0.0
    ensures PyMod(x + (j as real) * m, m) == PyMod(x, m)
  {
    var f := (x / m).Floor;
    PyModUnique(x + (j as real) * m, m, PyMod(x, m), f + j);
  }

  /** Reducing before an addition gives the same remainder as reducing after it. */
  lemma PyModAdd(x: real, y: real, m: real)
    requires m > 0.0
    ensures PyMod(PyMod(x, m) + y, m) == PyMod(x + y, m)
  {
    var f := (x / m).Floor;
    var g := ((x + y) / m).Floor;
    PyModUnique(PyMod(x, m) + y, m, PyMod(x + y, m), g - f);
  }

  lemma SqrtMonotone(m: MathLib, a: real, b: real)
    requires m.SqrtExact() && 0.0 <= a <= b
    ensures m.sqrt(a) <= m.sqrt(b)
  {
    if m.sqrt(a) > m.sqrt(b) {
      SquareLt(m.sqrt(a), m.sqrt(b));
    }
  }

  /** With an exact square root, comparing a standard deviation with a multiple of a positive
      mean is the same as comparing the variance with the squared bound. */
  lemma SqrtLessIff(m: MathLib, v: real, bound: real)
    requires m.SqrtExact() && v >= 0.0 && bound > 0.0
    ensures m.sqrt(v) < bound <==> v < bound * bound
  {
    var s := m.sqrt(v);
    if s < bound {
      SquareLt(bound, s);
    } else {
      calc {
        bound * bound;
      <= { MulLe(bound, s, bound); }
        s * bound;
      == bound * s;
      <= { MulLe(bound, s, s); }
        s * s;
      }
    }
  }

  /** `sum(xs)`, accumulated left to right. */
  function Sum(xs: seq<real>): real
  {
    if xs == [] then 0.0 else Sum(xs[..|xs| - 1]) + xs[|xs| - 1]
  }

  lemma SumAppend(xs: seq<real>, x: real)
    ensures Sum(xs + [x]) == Sum(xs) + x
  {
    assert (xs + [x])[..|xs|] == xs;
  }

  lemma {:induction false} SumPositive(xs: seq<real>)
    requires forall i :: 0 <= i < |xs| ==> xs[i] > 0.0
    ensures xs != [] ==> Sum(xs) > 0.0
    ensures Sum(xs) >= 0.0
  {
    if xs != [] {
      SumPositive(xs[..|xs| - 1]);
    }
  }

  lemma {:induction false} SumBounds(xs: seq<real>, lo: real, hi: real)
    requires forall i :: 0 <= i < |xs| ==> lo <= xs[i] <= hi
    ensures lo * |xs| as real <= Sum(xs) <= hi * |xs| as real
  {
    if xs != [] {
      SumBounds(xs[..|xs| - 1], lo, hi);
    }
  }

  /** `np.mean(xs)` of a non-empty list. */
  function Mean(xs: seq<real>): real
    requires xs != []
  {
    Sum(xs) / |xs| as real
  }

  lemma MeanBounds(xs: seq<real>, lo: real, hi: real)
    requires xs != []
    requires forall i :: 0 <= i < |xs| ==> lo <= xs[i] <= hi
    ensures lo <= Mean(xs) <= hi
  {
    SumBounds(xs, lo, hi);
  }

  lemma MeanPositive(xs: seq<real>)
    requires xs != []
    requires forall i :: 0 <= i < |xs| ==> xs[i] > 0.0
    ensures Mean(xs) > 0.0
  {
    SumPositive(xs);
  }

  /** Sum of squared deviations from `c`. */
  function SquaredDeviations(xs: seq<real>, c: real): (r: real)
    ensures r >= 0.0
  {
    if xs == [] then 0.0
    else
      var d := xs[|xs| - 1] - c;
      SquaredDeviations(xs[..|xs| - 1], c) + d * d
  }

  /** The population variance `np.var(xs)` (ddof = 0); `np.std` is its square root. */
  function PopVariance(xs: seq<real>): (r: real)
    requires xs != []
    ensures r >= 0.0
  {
    SquaredDeviations(xs, Mean(xs)) / |xs| as real
  }

  /** `np.std(xs)` */
  function PopStd(m: MathLib, xs: seq<real>): real
    requires xs != []
  {
    m.sqrt(PopVariance(xs))
  }

  /** `np.min` / `np.max` of a non-empty list. */
  function SeqMin(xs: seq<real>): (r: real)
    requires xs != []
    ensures forall i :: 0 <= i < |xs| ==> r <= xs[i]
    ensures exists i :: 0 <= i < |xs| && r == xs[i]
  {
    if |xs| == 1 then xs[0]
    else
      var rest := SeqMin(xs[..|xs| - 1]);
      if xs[|xs| - 1] < rest then xs[|xs| - 1] else rest
  }

  function SeqMax(xs: seq<real>): (r: real)
    requires xs != []
    ensures forall i :: 0 <= i < |xs| ==> xs[i] <= r
    ensures exists i :: 0 <= i < |xs| && r == xs[i]
  {
    if |xs| == 1 then xs[0]
    else
      var rest := SeqMax(xs[..|xs| - 1]);
      if xs[|xs| - 1] > rest then xs[|xs| - 1] else rest
  }

  /** k is where a left-to-right scan `if x > best: best = x` started from best = 0 ends: the
      first index of the maximum when that maximum is positive, and -1 when no element is
      positive. The longest-edge scans and the orientation grid search are such scans. */
  predicate IsFirstMax(xs: seq<real>, k: int)
  {
    if k < 0 then k == -1 && forall j :: 0 <= j < |xs| ==> xs[j] <= 0.0
    else
      && k < |xs|
      && xs[k] > 0.0
      && (forall j :: 0 <= j < |xs| ==> xs[j] <= xs[k])
      && (forall j :: 0 <= j < k ==> xs[j] < xs[k])
  }

  /** The result of that scan, computed element by element in scan order. */
  function FirstMax(xs: seq<real>): (k: int)
    ensures IsFirstMax(xs, k)
  {
    if xs == [] then -1
    else
      var k := FirstMax(xs[..|xs| - 1]);
      var best := if k < 0 then 0.0 else xs[k];
      if xs[|xs| - 1] > best then |xs| - 1 else k
  }

  /** One step of the scan: the next element replaces the current best only when it is
      strictly greater. */
  lemma FirstMaxStep(xs: seq<real>, n: nat)
    requires n < |xs|
    ensures var k := FirstMax(xs[..n]);
      var best := if k < 0 then 0.0 else xs[k];
      FirstMax(xs[..n + 1]) == if xs[n] > best then n else k
  {
    assert xs[..n + 1][..n] == xs[..n];
  }

  /** The value the scan ends with: the maximum, or the initial 0. */
  function FirstMaxValue(xs: seq<real>): (v: real)
    ensures v >= 0.0 && forall j :: 0 <= j < |xs| ==> xs[j] <= v
  {
    var k := FirstMax(xs);
    if k < 0 then 0.0 else xs[k]
  }

  /** The specification pins the scan's result down: at most one index satisfies it. */
  lemma FirstMaxUnique(xs: seq<real>, k1: int, k2: int)
    requires IsFirstMax(xs, k1) && IsFirstMax(xs, k2)
    ensures k1 == k2
  {
  }
}
