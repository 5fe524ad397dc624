/** Numeric primitives the detector borrows from mxnet, numpy and Python:
    the transcendental functions, the logistic sigmoid, `int()` on a float,
    `clip`, first-occurrence `argmax`/`argmin` and sums over vectors.
    Floating point is modelled by `real`. */
module Numerics {

  /** The transcendental functions of the math libraries. They are not defined
      here: every member that needs them takes them as a parameter and demands
      only the laws listed in `Lawful`. */
  datatype Transcendentals = Transcendentals(
    exp: real -> real,
    log: real -> real,
    sin: real -> real,
    cos: real -> real,
    arccos: real -> real)

  /** The laws of exp, log, sin, cos and arccos that the proofs rely on. */
  ghost predicate Lawful(t: Transcendentals) {
    && (forall x :: t.exp(x) > 0.0)
    && (forall x, y {:trigger ExpBelow(t, x, y)} :: x < y ==> ExpBelow(t, x, y))
    && (forall y {:trigger t.exp(t.log(y))} :: y > 0.0 ==> t.exp(t.log(y)) == y)
    && (forall x {:trigger t.log(t.exp(x))} :: t.log(t.exp(x)) == x)
    && (forall x :: t.sin(x) * t.sin(x) + t.cos(x) * t.cos(x) == 1.0)
    && t.sin(0.0) == 0.0 && t.cos(0.0) == 1.0
    && (forall c :: -1.0 <= c <= 1.0 ==> 0.0 <= t.arccos(c))
  }

  /** exp(x) < exp(y). Monotonicity of exp is stated through this predicate
      so that it is applied only where a proof asks for it. */
  ghost predicate ExpBelow(t: Transcendentals, x: real, y: real) {
    t.exp(x) < t.exp(y)
  }

  /** Python's `math.pi` (the double closest to pi). */
  const Pi: real := 3.141592653589793

  /** Degrees to radians, as `deg * math.pi / 180.`. */
  function DegToRad(deg: real): real {
    deg * Pi / 180.0
  }

  /** mxnet's `nd.sigmoid`: the logistic function 1 / (1 + e^-x). */
  function Sigmoid(t: Transcendentals, x: real): (r: real)
    requires Lawful(t)
    ensures 0.0 < r < 1.0
  {
    1.0 / (1.0 + t.exp(-x))
  }

  /** The sigmoid is strictly increasing. */
  lemma SigmoidStrictlyIncreasing(t: Transcendentals, x: real, y: real)
    requires Lawful(t) && x < y
    ensures Sigmoid(t, x) < Sigmoid(t, y)
  {
    assert ExpBelow(t, -y, -x);
    ReciprocalDecreasing(1.0 + t.exp(-y), 1.0 + t.exp(-x));
  }

  lemma ReciprocalDecreasing(a: real, b: real)
    requires 0.0 < a < b
    ensures 1.0 / b < 1.0 / a
  {
    var ra, rb := 1.0 / a, 1.0 / b;
    assert ra * a == 1.0 && rb * b == 1.0;
    assert ra > 0.0;
  }

  /** Python's `int(x)` on a float: truncation toward zero. */
  function Trunc(x: real): (r: int)
    ensures 0.0 <= x ==> 0 <= r && r as real <= x < r as real + 1.0
    ensures x < 0.0 ==> r <= 0 && r as real - 1.0 < x <= r as real
  {
    if x >= 0.0 then x.Floor else -((-x).Floor)
  }

  /** `nd.clip(x, lo, hi)` on a scalar. */
  function Clip(x: real, lo: real, hi: real): (r: real)
    requires lo <= hi
    ensures lo <= r <= hi
    ensures lo <= x <= hi ==> r == x
    ensures x < lo ==> r == lo
    ensures hi < x ==> r == hi
  {
    if x < lo then lo else if hi < x then hi else x
  }

  /** `np.clip(k, lo, hi)` on an integer: Clip for the int plate-grid
      indices, since Dafny keeps int and real apart. */
  function ClipInt(k: int, lo: int, hi: int): (r: int)
    requires lo <= hi
    ensures lo <= r <= hi
    ensures lo <= k <= hi ==> r == k
    ensures k < lo ==> r == lo
    ensures hi < k ==> r == hi
  {
    if k < lo then lo else if hi < k then hi else k
  }

  function Min(a: real, b: real): real { if a <= b then a else b }

  function Max(a: real, b: real): real { if a >= b then a else b }

  /** `argmax` of mxnet and numpy over a flat vector: the FIRST index holding
      the largest value. */
  function ArgMax(s: seq<real>): (k: nat)
    requires |s| > 0
    ensures k < |s|
    ensures forall i :: 0 <= i < |s| ==> s[i] <= s[k]
    ensures forall i :: 0 <= i < k ==> s[i] < s[k]
  {
    if |s| == 1 then 0
    else
      var k := ArgMax(s[..|s| - 1]);
      if s[k] < s[|s| - 1] then |s| - 1 else k
  }

  /** `np.argmin`: the FIRST index holding the smallest value. */
  function ArgMin(s: seq<real>): (k: nat)
    requires |s| > 0
    ensures k < |s|
    ensures forall i :: 0 <= i < |s| ==> s[k] <= s[i]
    ensures forall i :: 0 <= i < k ==> s[k] < s[i]
  {
    if |s| == 1 then 0
    else
      var k := ArgMin(s[..|s| - 1]);
      if s[|s| - 1] < s[k] then |s| - 1 else k
  }

  /** The two properties in ArgMax's contract determine it: any index with
      them is the argmax. */
  lemma ArgMaxUnique(s: seq<real>, k: nat)
    requires k < |s|
    requires forall i :: 0 <= i < |s| ==> s[i] <= s[k]
    requires forall i :: 0 <= i < k ==> s[i] < s[k]
    ensures ArgMax(s) == k
  {
  }

  /** Sum of a vector, accumulated left to right. */
  function Sum(s: seq<real>): real {
    if s == [] then 0.0 else Sum(s[..|s| - 1]) + s[|s| - 1]
  }

  /** Every entry of the vector divided by `c`. */
  function DivideAll(s: seq<real>, c: real): (r: seq<real>)
    requires c != 0.0
    ensures |r| == |s|
    ensures forall i :: 0 <= i < |s| ==> r[i] == s[i] / c
  {
    seq(|s|, i requires 0 <= i < |s| => s[i] / c)
  }

  /** A vector of positive entries has a positive sum (if it is not empty). */
  lemma {:induction false} SumPositive(s: seq<real>)
    requires |s| > 0
    requires forall i :: 0 <= i < |s| ==> s[i] > 0.0
    ensures Sum(s) > 0.0
  {
    if |s| > 1 {
      SumPositive(s[..|s| - 1]);
    }
  }

  /** Dividing every entry by `c` divides the sum by `c`. */
  lemma {:induction false} SumDivideAll(s: seq<real>, c: real)
    requires c != 0.0
    ensures Sum(DivideAll(s, c)) == Sum(s) / c
  {
    if s != [] {
      var init, d := s[..|s| - 1], DivideAll(s, c);
      assert d[..|d| - 1] == DivideAll(init, c);
      SumDivideAll(init, c);
      assert Sum(d) == Sum(DivideAll(init, c)) + s[|s| - 1] / c;
      AddDiv(Sum(init), s[|s| - 1], c);
    }
  }

  lemma AddDiv(a: real, b: real, c: real)
    requires c != 0.0
    ensures a / c + b / c == (a + b) / c
  {
  }

  // Integer division facts the index arithmetic needs.

  lemma MulAtLeast(d: int, n: int)
    requires d >= 1 && n > 0
    ensures d * n >= n
  {
  }

  lemma MulSmall(d: int, n: int)
    requires n > 0 && -n < d * n < n
    ensures d == 0
  {
    if d >= 1 {
      MulAtLeast(d, n);
    } else if d <= -1 {
      MulAtLeast(-d, n);
    }
  }

  /** Quotient and remainder are the only decomposition `q * n + r` with
      `0 <= r < n`. */
  lemma DivModUnique(e: int, n: int, q: int, r: int)
    requires n > 0 && 0 <= r < n && e == q * n + r
    ensures e / n == q && e % n == r
  {
    var q', r' := e / n, e % n;
    assert q' * n + r' == e;
    assert (q - q') * n == r' - r;
    MulSmall(q - q', n);
  }

  lemma DivBound(k: nat, a: nat, b: nat)
    requires b > 0 && k < a * b
    ensures k / b < a
  {
  }

  /** A two-digit mixed-radix number stays below its range: q * b + r < a * b
      when q < a and r < b. */
  lemma MixedRadixBound(q: nat, r: nat, a: nat, b: nat)
    requires q < a && r < b
    ensures 0 <= q * b + r < a * b
  {
    assert (q + 1) * b <= a * b;
  }

  lemma DivMod(e: int, n: int)
    requires n > 0
    ensures (e / n) * n + e % n == e
    ensures 0 <= e % n < n
  {
  }

  /** Index arithmetic of numpy's `repeat` and `tile`: entry k of a vector
      of m values each repeated n times is value k / (n * m) ... and entry k of
      that vector tiled is value (k mod (n * m)) / n; both are the digits
      (k / n) / m and (k / n) mod m. */
  lemma RepeatTile(k: nat, n: nat, m: nat)
    requires n > 0 && m > 0
    ensures k / (n * m) == k / n / m
    ensures (k % (n * m)) / n == (k / n) % m
  {
    var q, r := k / n, k % n;
    DivMod(k, n);
    DivMod(q, m);
    var low := (q % m) * n + r;
    MixedRadixBound(q % m, r, m, n);
    assert k == (q / m) * (n * m) + low;
    DivModUnique(k, n * m, q / m, low);
    DivModUnique(low, n, q % m, r);
  }

  lemma MulLe(a: nat, b: nat, n: nat)
    requires a <= b
    ensures a * n <= b * n
  {
  }

  lemma MulAddDistrib(a: nat, b: nat, n: nat)
    ensures (a + b) * n == a * n + b * n
  {
  }
}
