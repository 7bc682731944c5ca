/** Integer index arithmetic of the collision operator: the row-major
    flattening of an N x N x N grid, its decoding as written in the C loops,
    the toroidal partner index of the convolution, and the trapezoidal
    quadrature weights along one axis. */
module Grid {

  /** Number of nodes of the 3-D grid, `N * N * N` in the loops' bounds. */
  function Cube(N: int): int {
    N * N * N
  }

  /** A grid coordinate (i, j, k), each along one axis. */
  datatype Coord = Coord(i: int, j: int, k: int)

  /** The row-major flattened index `k + N*(j + N*i)`. */
  function Flatten(N: int, c: Coord): int {
    c.k + N * (c.j + N * c.i)
  }

  predicate InAxis(N: int, x: int) {
    0 <= x < N
  }

  predicate InGrid(N: int, c: Coord) {
    InAxis(N, c.i) && InAxis(N, c.j) && InAxis(N, c.k)
  }

  /** The decoding every loop over `index` performs:
      `i = index/(N*N); j = (index - i*N*N)/N; k = index - N*(j + N*i)`.
      Operands are non-negative, so C's truncating division agrees with
      Dafny's. Every decoded coordinate lies on the grid, and flattening
      it gives back `index`. */
  function Decode(N: int, index: int): (c: Coord)
    requires 1 <= N && 0 <= index < Cube(N)
    ensures InGrid(N, c)
    ensures Flatten(N, c) == index
  {
    var i := index / (N * N);
    var j := (index - i * N * N) / N;
    var k := index - N * (j + N * i);
    DecodeBounds(N, index, i, j, k);
    Coord(i, j, k)
  }

  lemma DecodeBounds(N: int, index: int, i: int, j: int, k: int)
    requires 1 <= N && 0 <= index < Cube(N)
    requires i == index / (N * N)
    requires j == (index - i * N * N) / N
    requires k == index - N * (j + N * i)
    ensures 0 <= i < N && 0 <= j < N && 0 <= k < N
  {
    var NN := N * N;
    MulMono(N, 1, N);
    assert NN * N == Cube(N);
    DivBelow(NN, index, N, i);
    var r := index - NN * i;
    DivDigit(NN, index, i, r);
    Regroup(N, i, j);
    assert j == r / N;
    assert k == r - N * j;
    DivBelow(N, r, N, j);
    DivDigit(N, r, j, k);
  }

  lemma Regroup(N: int, i: int, j: int)
    ensures i * N * N == (N * N) * i
    ensures N * (j + N * i) == N * j + (N * N) * i
  {
  }

  /** Every on-grid coordinate flattens to an index inside `[0, N^3)`. */
  lemma FlattenInRange(N: int, c: Coord)
    requires InGrid(N, c)
    ensures 0 <= Flatten(N, c) < Cube(N)
  {
    var inner := c.j + N * c.i;
    MulNonneg(N, c.i);
    MulMono(N, c.i, N - 1);
    Distrib(N, N, 1);
    assert 0 <= inner <= N * N - 1;
    MulNonneg(N, inner);
    MulMono(N, inner, N * N - 1);
    Distrib(N, N * N, 1);
    assert N * (N * N) == Cube(N);
  }

  /** The grid has at least one node when an axis has. */
  lemma CubePositive(N: int)
    requires 1 <= N
    ensures N <= Cube(N)
  {
    MulMono(N, 1, N);
    MulMono(N * N, 1, N);
    MulMono(N, 1, N * N);
  }

  /** Decoding undoes flattening: the other half of the round trip. */
  lemma DecodeFlatten(N: int, c: Coord)
    requires InGrid(N, c)
    ensures 0 <= Flatten(N, c) < Cube(N)
    ensures Decode(N, Flatten(N, c)) == c
  {
    FlattenInRange(N, c);
    var d := Decode(N, Flatten(N, c));
    FlattenInjective(N, c, d);
  }

  /** Two on-grid coordinates with the same flattened index are equal. */
  lemma FlattenInjective(N: int, c: Coord, d: Coord)
    requires InGrid(N, c) && InGrid(N, d)
    requires Flatten(N, c) == Flatten(N, d)
    ensures c == d
  {
    var a := c.j + N * c.i;
    var b := d.j + N * d.i;
    DigitUnique(N, a, c.k, b, d.k);
    DigitUnique(N, c.i, c.j, d.i, d.j);
  }

  /** Base-N digits are unique: `lo + N*hi` determines `lo` and `hi`. */
  lemma DigitUnique(N: int, hi1: int, lo1: int, hi2: int, lo2: int)
    requires 0 <= lo1 < N && 0 <= lo2 < N
    requires lo1 + N * hi1 == lo2 + N * hi2
    ensures hi1 == hi2 && lo1 == lo2
  {
    if hi1 < hi2 {
      MulMono(N, hi1 + 1, hi2);
      Distrib(N, hi1 + 1, 1);
    } else if hi2 < hi1 {
      MulMono(N, hi2 + 1, hi1);
      Distrib(N, hi2 + 1, 1);
    }
  }

  /** The partner coordinate along one axis, as the convolution's inner
      loops compute it: `x = i + N/2 - l`, corrected by one `if/else if`. */
  function Wrap(N: int, i: int, l: int): (x: int)
    requires InAxis(N, i) && InAxis(N, l)
    ensures InAxis(N, x)
    ensures x == (i + N / 2 - l) % N
  {
    var x := i + N / 2 - l;
    if x < 0 then
      ModShift(N, x, 1);
      N + x
    else if x > N - 1 then
      ModShift(N, x, -1);
      x - N
    else
      ModShift(N, x, 0);
      x
  }

  lemma ModShift(N: int, x: int, q: int)
    requires 0 < N && 0 <= x + q * N < N
    ensures x % N == x + q * N
  {
    var r := x % N;
    var d := x / N;
    assert x == N * d + r && 0 <= r < N;
    assert N * (-q) == - (q * N);
    DigitUnique(N, d, r, -q, x + q * N);
  }

  /** The pair (partner, offset) lies on the fixed-sum line: along every axis,
      `Wrap(i, l) + l` is congruent to `i + N/2` modulo N. */
  lemma WrapSum(N: int, i: int, l: int)
    requires InAxis(N, i) && InAxis(N, l)
    ensures (Wrap(N, i, l) + l) % N == (i + N / 2) % N
  {
    var s := i + N / 2;
    var x := Wrap(N, i, l);
    var d := (s - l) / N;
    assert s - l == N * d + x;
    ModSubMultiple(N, s, d);
  }

  /** Different offsets along an axis have different partners: no node is
      paired twice. */
  lemma WrapInjective(N: int, i: int, l1: int, l2: int)
    requires InAxis(N, i) && InAxis(N, l1) && InAxis(N, l2)
    requires Wrap(N, i, l1) == Wrap(N, i, l2)
    ensures l1 == l2
  {
  }

  /** The partner of the partner is the offset itself, so every node along
      an axis is the partner of some offset. */
  lemma WrapInvolution(N: int, i: int, x: int)
    requires InAxis(N, i) && InAxis(N, x)
    ensures Wrap(N, i, Wrap(N, i, x)) == x
  {
  }

  lemma ModSubMultiple(N: int, a: int, d: int)
    requires 0 < N
    ensures (a - N * d) % N == a % N
  {
    var q := a / N;
    var r := a % N;
    assert a == N * q + r;
    Distrib(N, q, d);
    assert (q - d) * N == N * (q - d);
    ModShift(N, a - N * d, -(q - d));
  }

  // ---- small steps of non-linear arithmetic, spelled out for the solver ----

  lemma MulNonneg(a: int, b: int)
    requires 0 <= a && 0 <= b
    ensures 0 <= a * b
  {
  }

  lemma Distrib(a: int, b: int, c: int)
    ensures a * (b - c) == a * b - a * c
  {
  }

  lemma MulMono(a: int, b: int, c: int)
    requires 0 <= a && b <= c
    ensures a * b <= a * c
  {
    Distrib(a, c, b);
    MulNonneg(a, c - b);
  }

  /** The remainder left by truncating division of a non-negative number. */
  lemma DivDigit(d: int, a: int, q: int, r: int)
    requires 0 < d && q == a / d && r == a - d * q
    ensures 0 <= r < d
  {
  }

  lemma DivBelow(d: int, a: int, b: int, q: int)
    requires 0 < d && 0 <= a < d * b && q == a / d
    ensures 0 <= q < b
  {
    var r := a - d * q;
    DivDigit(d, a, q, r);
    if q < 0 { MulMono(d, q, -1); }
    if q >= b { MulMono(d, b, q); }
  }

  /** The trapezoidal weight of node `i` on one axis: one half at both ends,
      one inside. */
  function TrapezoidWeight(N: int, i: int): real {
    if i == 0 || i == N - 1 then 0.5 else 1.0
  }

  function WeightSum(w: seq<real>): real {
    if w == [] then 0.0 else WeightSum(w[..|w| - 1]) + w[|w| - 1]
  }

  /** The weights of an axis with N >= 2 nodes add up to N - 1, the number of
      cells: composite trapezoidal integration of a constant is exact. */
  lemma {:induction false} TrapezoidSum(N: int, w: seq<real>)
    requires 2 <= N && |w| == N
    requires forall t :: 0 <= t < N ==> w[t] == TrapezoidWeight(N, t)
    ensures WeightSum(w) == (N - 1) as real
  {
    InteriorSum(N, w, N - 1);
  }

  lemma {:induction false} InteriorSum(N: int, w: seq<real>, n: int)
    requires 2 <= N && |w| == N && 1 <= n <= N - 1
    requires forall t :: 0 <= t < N ==> w[t] == TrapezoidWeight(N, t)
    ensures WeightSum(w[..n]) == (n as real) - 0.5
  {
    if n == 1 {
      assert w[..1][..0] == [];
    } else {
      InteriorSum(N, w, n - 1);
      assert w[..n][..n - 1] == w[..n - 1];
    }
  }
}
