/** Complex numbers as (re, im) pairs of reals, the way `fftw_complex`
    (a `double[2]`) is used by the collision operator, and pointwise
    operations on fields of them. Over `real` every operation is exact. */
module ComplexArith {

  datatype Complex = Complex(re: real, im: real)

  const Zero: Complex := Complex(0.0, 0.0)

  function Add(a: Complex, b: Complex): Complex {
    Complex(a.re + b.re, a.im + b.im)
  }

  /** The product the accumulation writes out component by component. */
  function Mul(a: Complex, b: Complex): Complex {
    Complex(a.re * b.re - a.im * b.im, a.re * b.im + a.im * b.re)
  }

  /** Multiplication by a real weight. */
  function Scale(c: real, a: Complex): Complex {
    Complex(c * a.re, c * a.im)
  }

  /** A real sample loaded as a complex value with imaginary part zero. */
  function FromReal(x: real): Complex {
    Complex(x, 0.0)
  }

  lemma MulAddRight(a: Complex, b1: Complex, b2: Complex)
    ensures Mul(a, Add(b1, b2)) == Add(Mul(a, b1), Mul(a, b2))
  {
  }

  lemma MulAddLeft(a1: Complex, a2: Complex, b: Complex)
    ensures Mul(Add(a1, a2), b) == Add(Mul(a1, b), Mul(a2, b))
  {
  }

  lemma MulScaleRight(c: real, a: Complex, b: Complex)
    ensures Mul(a, Scale(c, b)) == Scale(c, Mul(a, b))
  {
  }

  lemma MulScaleLeft(c: real, a: Complex, b: Complex)
    ensures Mul(Scale(c, a), b) == Scale(c, Mul(a, b))
  {
  }

  lemma ScaleAddScale(w: real, a: Complex, c: real, b: Complex)
    ensures Scale(w, Add(a, Scale(c, b))) == Add(Scale(w, a), Scale(c, Scale(w, b)))
  {
  }

  /** Adding a term to a partial sum adds it to the total. */
  lemma AddRegroup(q: Complex, a: Complex, t: Complex)
    ensures Add(q, Add(a, t)) == Add(Add(q, a), t)
  {
  }

  // ---- fields: sequences of samples, combined pointwise ----

  function Zeros(len: nat): seq<Complex>
  {
    seq(len, _ => Zero)
  }

  function AddField(a: seq<Complex>, b: seq<Complex>): seq<Complex>
    requires |a| == |b|
  {
    seq(|a|, t requires 0 <= t < |a| => Add(a[t], b[t]))
  }

  function ScaleField(c: real, a: seq<Complex>): seq<Complex>
  {
    seq(|a|, t requires 0 <= t < |a| => Scale(c, a[t]))
  }

  /** `f(0) + f(1) + ... + f(n-1)`, added from the left as an accumulating
      loop adds them. */
  function FoldSum(n: int, f: int -> Complex): Complex
    requires 0 <= n
  {
    if n == 0 then Zero else Add(FoldSum(n - 1, f), f(n - 1))
  }

  /** A sum of pointwise sums is the sum of the two sums. */
  lemma {:induction false} FoldSumAdd(n: int, f: int -> Complex, g: int -> Complex, h: int -> Complex)
    requires 0 <= n
    requires forall x :: 0 <= x < n ==> h(x) == Add(f(x), g(x))
    ensures FoldSum(n, h) == Add(FoldSum(n, f), FoldSum(n, g))
  {
    if n > 0 {
      FoldSumAdd(n - 1, f, g, h);
      var a, b := FoldSum(n - 1, f), FoldSum(n - 1, g);
      assert FoldSum(n, h) == Add(Add(a, b), Add(f(n - 1), g(n - 1)));
    }
  }

  /** A common real factor comes out of the sum. */
  lemma {:induction false} FoldSumScale(n: int, c: real, f: int -> Complex, h: int -> Complex)
    requires 0 <= n
    requires forall x :: 0 <= x < n ==> h(x) == Scale(c, f(x))
    ensures FoldSum(n, h) == Scale(c, FoldSum(n, f))
  {
    if n > 0 {
      FoldSumScale(n - 1, c, f, h);
    }
  }

  /** The sum is linear in its terms. */
  lemma FoldSumLinear(n: int, c: real, f: int -> Complex, g: int -> Complex, h: int -> Complex)
    requires 0 <= n
    requires forall x :: 0 <= x < n ==> h(x) == Add(f(x), Scale(c, g(x)))
    ensures FoldSum(n, h) == Add(FoldSum(n, f), Scale(c, FoldSum(n, g)))
  {
    var s := x => Scale(c, g(x));
    FoldSumAdd(n, f, s, h);
    FoldSumScale(n, c, g, s);
  }

  /** A sum of zeros is zero. */
  lemma {:induction false} FoldSumZero(n: int, f: int -> Complex)
    requires 0 <= n
    requires forall x :: 0 <= x < n ==> f(x) == Zero
    ensures FoldSum(n, f) == Zero
  {
    if n > 0 {
      FoldSumZero(n - 1, f);
    }
  }

  /** The load loop of the convolution: real samples, imaginary parts zero. */
  function Embed(f: seq<real>): seq<Complex>
  {
    seq(|f|, t requires 0 <= t < |f| => FromReal(f[t]))
  }

  /** The output loops of the operator: the real part of every slot. */
  function RealPart(a: seq<Complex>): seq<real>
  {
    seq(|a|, t requires 0 <= t < |a| => a[t].re)
  }

  // ---- real fields ----

  function AddReal(a: seq<real>, b: seq<real>): seq<real>
    requires |a| == |b|
  {
    seq(|a|, t requires 0 <= t < |a| => a[t] + b[t])
  }

  function SubReal(a: seq<real>, b: seq<real>): seq<real>
    requires |a| == |b|
  {
    seq(|a|, t requires 0 <= t < |a| => a[t] - b[t])
  }

  function ScaleReal(c: real, a: seq<real>): seq<real>
  {
    seq(|a|, t requires 0 <= t < |a| => c * a[t])
  }

  function RealZeros(len: nat): seq<real>
  {
    seq(len, _ => 0.0)
  }

  // ---- how the loads and stores combine with sums and multiples ----

  /** Loading a combination of real fields loads the same combination. */
  lemma EmbedLinear(f1: seq<real>, f2: seq<real>, c: real)
    requires |f1| == |f2|
    ensures Embed(AddReal(f1, ScaleReal(c, f2))) == AddField(Embed(f1), ScaleField(c, Embed(f2)))
  {
    var l, r := Embed(AddReal(f1, ScaleReal(c, f2))), AddField(Embed(f1), ScaleField(c, Embed(f2)));
    forall t | 0 <= t < |f1| ensures l[t] == r[t] {
      var e1, e2 := Embed(f1)[t], Embed(f2)[t];
      assert r[t] == Add(e1, Scale(c, e2));
      assert l[t].re == f1[t] + c * f2[t] == r[t].re;
      assert l[t].im == 0.0 == r[t].im;
    }
  }

  /** Taking real parts commutes with combinations of complex fields. */
  lemma RealPartLinear(a: seq<Complex>, b: seq<Complex>, c: real)
    requires |a| == |b|
    ensures RealPart(AddField(a, ScaleField(c, b))) == AddReal(RealPart(a), ScaleReal(c, RealPart(b)))
  {
    var l, r := RealPart(AddField(a, ScaleField(c, b))), AddReal(RealPart(a), ScaleReal(c, RealPart(b)));
    forall t | 0 <= t < |a| ensures l[t] == r[t] {
      assert AddField(a, ScaleField(c, b))[t] == Add(a[t], Scale(c, b[t]));
    }
  }

  /** A difference is the combination with factor -1. */
  lemma SubAsCombination(a: seq<real>, b: seq<real>)
    requires |a| == |b|
    ensures SubReal(a, b) == AddReal(a, ScaleReal(-1.0, b))
  {
  }

  lemma EmbedZero(len: nat)
    ensures Embed(RealZeros(len)) == Zeros(len)
  {
  }

  lemma RealPartZero(len: nat)
    ensures RealPart(Zeros(len)) == RealZeros(len)
  {
  }
}
