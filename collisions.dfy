/** The collision module: its state (grid, quadrature weights and the
    working buffers of the spectral method), `initialize_coll`,
    `find_maxwellians`, `compute_Qhat`, `ComputeQ` and `ComputeQ_maxPreserve`.

    The module-level static variables of the C file become the fields of one
    engine object. Everything the C code gets from code outside this file is a
    parameter of the engine, fixed when it is built: the domain-corrected
    forward and inverse 3-D transforms (`fft3D`, `ifft3D`, built around FFTW
    and `cos`/`sin`), the moment routines, and the Maxwellian formula. */
module Collisions {
  import opened ComplexArith
  import opened Grid
  import opened Convolution

  /** Density, bulk velocity and temperature of a distribution. */
  datatype Moments = Moments(rho: real, ux: real, uy: real, uz: real, temperature: real)

  /** A map on complex fields: stands for `fft3D` or `ifft3D`. */
  type Transform = seq<Complex> -> seq<Complex>

  ghost predicate KeepsLength(T: Transform, len: int) {
    forall a: seq<Complex> :: |a| == len ==> |T(a)| == len
  }

  /** Linear over the reals, as the discrete Fourier transform and the
      pointwise phase rotations around it are. */
  ghost predicate Linear(T: Transform, len: int) {
    KeepsLength(T, len) &&
    forall a: seq<Complex>, b: seq<Complex>, c: real :: |a| == len && |b| == len ==>
      T(AddField(a, ScaleField(c, b))) == AddField(T(a), ScaleField(c, T(b)))
  }

  /** A linear transform sends the zero field to the zero field. */
  lemma LinearZero(T: Transform, len: nat)
    requires Linear(T, len)
    ensures T(Zeros(len)) == Zeros(len)
  {
    var z := Zeros(len);
    assert AddField(z, ScaleField(-1.0, z)) == z;
    var r := T(z);
    assert r == AddField(r, ScaleField(-1.0, r));
    forall t | 0 <= t < len ensures r[t] == Zero {
      assert r[t] == Add(r[t], Scale(-1.0, r[t]));
    }
  }

  class CollisionEngine {
    /** Nodes per axis. */
    const N: int
    /** Half-length of the velocity domain (`L_v`). */
    const lV: real
    /** Velocity grid (`v`) and its spacing (`dv`). */
    const v: seq<real>
    const dv: real
    /** Fourier grid (`eta`), its spacing (`deta`) and half-length (`L_eta`). */
    const eta: seq<real>
    const deta: real
    const lEta: real
    /** Trapezoidal weights along one axis (`wtN`). */
    const wtN: array<real>

    /** Transform inputs and outputs, and the accumulator (`fftIn_f`,
        `fftOut_f`, `fftIn_g`, `fftOut_g`, `qHat`). */
    const fftInF: array<Complex>
    const fftOutF: array<Complex>
    const fftInG: array<Complex>
    const fftOutG: array<Complex>
    const qHat: array<Complex>
    /** Maxwellians and perturbations of the two arguments (`M_i`, `M_j`,
        `g_i`, `g_j`). */
    const mI: array<real>
    const mJ: array<real>
    const gI: array<real>
    const gJ: array<real>

    /** `fft3D` and `ifft3D` over this engine's grids. */
    const fft: Transform
    const ifft: Transform
    /** The moment routines applied to a distribution. */
    const moments: seq<real> -> Moments
    /** The Maxwellian with the given moments at velocity (vx, vy, vz). */
    const maxwellian: (Moments, real, real, real) -> real

    ghost predicate Valid() {
      && 2 <= N && |v| == N && |eta| == N && wtN.Length == N
      && fftInF.Length == Cube(N) && fftOutF.Length == Cube(N)
      && fftInG.Length == Cube(N) && fftOutG.Length == Cube(N) && qHat.Length == Cube(N)
      && mI.Length == Cube(N) && mJ.Length == Cube(N)
      && gI.Length == Cube(N) && gJ.Length == Cube(N)
      // every buffer is a separate allocation
      && fftInF != fftOutF && fftInF != fftInG && fftInF != fftOutG && fftInF != qHat
      && fftOutF != fftInG && fftOutF != fftOutG && fftOutF != qHat
      && fftInG != fftOutG && fftInG != qHat && fftOutG != qHat
      && mI != mJ && mI != gI && mI != gJ && mJ != gI && mJ != gJ && gI != gJ
      && KeepsLength(fft, Cube(N)) && KeepsLength(ifft, Cube(N))
    }

    /** `initialize_coll`: records the grids, builds the trapezoidal weights
        and allocates the buffers. */
    constructor (nodes: int, length: real, vel: seq<real>, zeta: seq<real>,
                 fft: Transform, ifft: Transform,
                 moments: seq<real> -> Moments, maxwellian: (Moments, real, real, real) -> real)
      requires 2 <= nodes && |vel| == nodes && |zeta| == nodes
      requires KeepsLength(fft, Cube(nodes)) && KeepsLength(ifft, Cube(nodes))
      ensures Valid()
      ensures N == nodes && lV == length && v == vel && dv == vel[1] - vel[0]
      ensures eta == zeta && deta == zeta[1] - zeta[0] && lEta == -zeta[0]
      ensures forall i :: 0 <= i < N ==> wtN[i] == TrapezoidWeight(N, i)
      ensures this.fft == fft && this.ifft == ifft
      ensures this.moments == moments && this.maxwellian == maxwellian
      ensures fresh(wtN) && fresh(fftInF) && fresh(fftOutF) && fresh(fftInG) && fresh(fftOutG)
      ensures fresh(qHat) && fresh(mI) && fresh(mJ) && fresh(gI) && fresh(gJ)
    {
      N := nodes;
      lV := length;
      v := vel;
      dv := vel[1] - vel[0];
      eta := zeta;
      deta := zeta[1] - zeta[0];
      lEta := -zeta[0];

      var w := new real[nodes];
      w[0] := 0.5;
      var i := 1;
      while i < nodes - 1
        invariant 1 <= i <= nodes - 1
        invariant w[0] == 0.5
        invariant forall t :: 1 <= t < i ==> w[t] == 1.0
      {
        w[i] := 1.0;
        i := i + 1;
      }
      w[nodes - 1] := 0.5;
      wtN := w;

      CubePositive(nodes);
      var size := Cube(nodes);
      fftInF := new Complex[size];
      fftOutF := new Complex[size];
      fftInG := new Complex[size];
      fftOutG := new Complex[size];
      qHat := new Complex[size];
      this.fft := fft;
      this.ifft := ifft;
      mI := new real[size];
      mJ := new real[size];
      gI := new real[size];
      gJ := new real[size];
      this.moments := moments;
      this.maxwellian := maxwellian;
    }

    // ---- the transforms ----

    /** `fft3D(in, out)`: `out` receives the transform of `in`. */
    method Fft3D(input: array<Complex>, output: array<Complex>)
      requires Valid() && input.Length == Cube(N) && output.Length == Cube(N)
      modifies output
      ensures output[..] == fft(old(input[..]))
    {
      var r := fft(input[..]);
      forall t | 0 <= t < Cube(N) {
        output[t] := r[t];
      }
    }

    /** `ifft3D(in, out)`: `out` receives the inverse transform of `in`. */
    method Ifft3D(input: array<Complex>, output: array<Complex>)
      requires Valid() && input.Length == Cube(N) && output.Length == Cube(N)
      modifies output
      ensures output[..] == ifft(old(input[..]))
    {
      var r := ifft(input[..]);
      forall t | 0 <= t < Cube(N) {
        output[t] := r[t];
      }
    }

    // ---- Maxwellian decomposition ----

    /** The Maxwellian built from the moments of `mat`, sampled on the grid. */
    function MaxwellianField(mat: seq<real>): (m: seq<real>)
      requires Valid()
      ensures |m| == Cube(N)
    {
      var mom := moments(mat);
      seq(Cube(N), index requires 0 <= index < Cube(N) =>
        var c := Decode(N, index);
        maxwellian(mom, v[c.i], v[c.j], v[c.k]))
    }

    /** `find_maxwellians(M_mat, g_mat, mat)`, called with (M_i, g_i, f) and
        (M_j, g_j, g). The perturbation subtracts the buffer `M_i`, whatever
        `M_mat` is: on the second call it is taken against the Maxwellian of
        the first call's distribution. */
    method FindMaxwellians(mMat: array<real>, gMat: array<real>, mat: array<real>)
      requires Valid() && mat.Length == Cube(N)
      requires (mMat == mI && gMat == gI) || (mMat == mJ && gMat == gJ)
      requires mat != mI && mat != mJ && mat != gI && mat != gJ
      modifies mMat, gMat
      ensures mMat[..] == MaxwellianField(old(mat[..]))
      ensures gMat[..] == SubReal(old(mat[..]), mI[..])
    {
      var mom := moments(mat[..]);
      for index := 0 to Cube(N)
        invariant forall t :: 0 <= t < index ==> mMat[t] == MaxwellianField(mat[..])[t]
        invariant forall t :: 0 <= t < index ==> gMat[t] == mat[t] - mI[t]
      {
        var c := Decode(N, index);
        mMat[index] := maxwellian(mom, v[c.i], v[c.j], v[c.k]);
        gMat[index] := mat[index] - mI[index];
      }
    }

    // ---- compute_Qhat ----

    /** The first loop of `compute_Qhat`: zero the accumulator and load both
        inputs as complex values with imaginary part zero. */
    method LoadInputs(f: seq<real>, g: seq<real>)
      requires Valid() && |f| == Cube(N) && |g| == Cube(N)
      modifies qHat, fftInF, fftInG
      ensures qHat[..] == Zeros(Cube(N))
      ensures fftInF[..] == Embed(f) && fftInG[..] == Embed(g)
    {
      for index := 0 to Cube(N)
        invariant forall t :: 0 <= t < index ==> qHat[t] == Zero
        invariant forall t :: 0 <= t < index ==> fftInF[t] == FromReal(f[t]) && fftInG[t] == FromReal(g[t])
      {
        qHat[index] := qHat[index].(re := 0.0);
        qHat[index] := qHat[index].(im := 0.0);
        fftInF[index] := fftInF[index].(re := f[index]);
        fftInF[index] := fftInF[index].(im := 0.0);
        fftInG[index] := fftInG[index].(re := g[index]);
        fftInG[index] := fftInG[index].(im := 0.0);
      }
    }

    /** The body of the innermost loop of `compute_Qhat`: slot `index`
        receives `w * (gt (x) fp)`, real and imaginary part in turn. */
    method AddProduct(index: int, w: real, gt: Complex, fp: Complex)
      requires 0 <= index < qHat.Length
      modifies qHat
      ensures qHat[index] == Add(old(qHat[index]), Scale(w, Mul(gt, fp)))
      ensures forall s :: 0 <= s < qHat.Length && s != index ==> qHat[s] == old(qHat[s])
    {
      qHat[index] := qHat[index].(re := qHat[index].re + w * (gt.re * fp.re - gt.im * fp.im));
      qHat[index] := qHat[index].(im := qHat[index].im + w * (gt.re * fp.im + gt.im * fp.re));
    }

    /** The loop over `n` of `compute_Qhat`, for slot `index` = (i, j, k) and
        outer offsets `l`, `m` whose partners are `x`, `y`: the slot receives
        the line sum, and no other slot changes. */
    method AccumulateLine(chunk: seq<real>, index: int, i: int, j: int, k: int, l: int, m: int, x: int, y: int)
      requires Valid() && Operands(N, chunk, fftOutF[..], fftOutG[..])
      requires 0 <= index < Cube(N) && InGrid(N, Coord(i, j, k)) && InAxis(N, l) && InAxis(N, m)
      requires x == Wrap(N, i, l) && y == Wrap(N, j, m)
      modifies qHat
      ensures qHat[index] == Add(old(qHat[index]),
                                 LineSum(N, chunk, fftOutF[..], fftOutG[..], Coord(i, j, k), l, m, N))
      ensures forall s :: 0 <= s < Cube(N) && s != index ==> qHat[s] == old(qHat[s])
    {
      ghost var c := Coord(i, j, k);
      ghost var Fh, Gh := fftOutF[..], fftOutG[..];
      ghost var q0 := qHat[index];
      var n2 := N / 2;
      var n := 0;
      while n < N
        invariant 0 <= n <= N
        invariant qHat[index] == Add(q0, LineSum(N, chunk, Fh, Gh, c, l, m, n))
        invariant forall s :: 0 <= s < Cube(N) && s != index ==> qHat[s] == old(qHat[s])
      {
        var z := k + n2 - n;
        if z < 0 {
          z := N + z;
        } else if z > N - 1 {
          z := z - N;
        }
        assert z == Wrap(N, k, n);
        FlattenInRange(N, Coord(l, m, n));
        FlattenInRange(N, Coord(x, y, z));
        var t := n + N * (m + N * l);
        var p := z + N * (y + N * x);
        var w, gt, fp := chunk[t], fftOutG[t], fftOutF[p];
        ghost var term := Scale(w, Mul(gt, fp));
        ghost var o := Coord(l, m, n);
        assert PartnerCoord(N, c, o) == Coord(x, y, z);
        assert TermAt(N, chunk, Fh, Gh, c, o) == term;
        assert LineTerms(N, chunk, Fh, Gh, c, l, m)(n) == term;
        ghost var line := LineSum(N, chunk, Fh, Gh, c, l, m, n);
        assert LineSum(N, chunk, Fh, Gh, c, l, m, n + 1) == Add(line, term);
        AddRegroup(q0, line, term);
        AddProduct(index, w, gt, fp);
        n := n + 1;
      }
    }

    /** The loop over `m` of `compute_Qhat`, for slot (i, j, k) and outer
        offset `l` with partner `x`: the slot receives the plane sum. */
    method AccumulatePlane(chunk: seq<real>, index: int, i: int, j: int, k: int, l: int, x: int)
      requires Valid() && Operands(N, chunk, fftOutF[..], fftOutG[..])
      requires 0 <= index < Cube(N) && InGrid(N, Coord(i, j, k)) && InAxis(N, l)
      requires x == Wrap(N, i, l)
      modifies qHat
      ensures qHat[index] == Add(old(qHat[index]),
                                 PlaneSum(N, chunk, fftOutF[..], fftOutG[..], Coord(i, j, k), l, N))
      ensures forall s :: 0 <= s < Cube(N) && s != index ==> qHat[s] == old(qHat[s])
    {
      ghost var c := Coord(i, j, k);
      ghost var Fh, Gh := fftOutF[..], fftOutG[..];
      ghost var q0 := qHat[index];
      var n2 := N / 2;
      var m := 0;
      while m < N
        invariant 0 <= m <= N
        invariant qHat[index] == Add(q0, PlaneSum(N, chunk, Fh, Gh, c, l, m))
        invariant forall s :: 0 <= s < Cube(N) && s != index ==> qHat[s] == old(qHat[s])
      {
        var y := j + n2 - m;
        if y < 0 {
          y := N + y;
        } else if y > N - 1 {
          y := y - N;
        }
        assert y == Wrap(N, j, m);
        ghost var plane := PlaneSum(N, chunk, Fh, Gh, c, l, m);
        ghost var line := LineSum(N, chunk, Fh, Gh, c, l, m, N);
        assert PlaneSum(N, chunk, Fh, Gh, c, l, m + 1) == Add(plane, line);
        AddRegroup(q0, plane, line);
        AccumulateLine(chunk, index, i, j, k, l, m, x, y);
        m := m + 1;
      }
    }

    /** One iteration of the parallel loop of `compute_Qhat`: slot `index`
        decodes to (i, j, k) and accumulates its N^3 weighted products in
        loop order; no other slot changes. */
    method AccumulateSlot(W: seq<seq<real>>, index: int)
      requires Valid() && WeightsShape(N, W) && 0 <= index < Cube(N)
      modifies qHat
      ensures qHat[index] == Add(old(qHat[index]),
                                 SlotSum(N, W[index], fftOutF[..], fftOutG[..], Decode(N, index), N))
      ensures forall s :: 0 <= s < Cube(N) && s != index ==> qHat[s] == old(qHat[s])
    {
      var i := index / (N * N);
      var j := (index - i * N * N) / N;
      var k := index - N * (j + i * N);
      ghost var c := Decode(N, index);
      assert i == c.i && j == c.j && k == c.k;
      var slot := k + N * (j + N * i);
      assert slot == index;
      var chunk := W[index];
      ghost var Fh, Gh := fftOutF[..], fftOutG[..];
      ghost var q0 := qHat[index];
      var n2 := N / 2;
      var l := 0;
      while l < N
        invariant 0 <= l <= N
        invariant qHat[index] == Add(q0, SlotSum(N, chunk, Fh, Gh, c, l))
        invariant forall s :: 0 <= s < Cube(N) && s != index ==> qHat[s] == old(qHat[s])
      {
        var x := i + n2 - l;
        if x < 0 {
          x := N + x;
        } else if x > N - 1 {
          x := x - N;
        }
        assert x == Wrap(N, i, l);
        ghost var done := SlotSum(N, chunk, Fh, Gh, c, l);
        ghost var plane := PlaneSum(N, chunk, Fh, Gh, c, l, N);
        assert SlotSum(N, chunk, Fh, Gh, c, l + 1) == Add(done, plane);
        AddRegroup(q0, done, plane);
        AccumulatePlane(chunk, slot, i, j, k, l, x);
        l := l + 1;
      }
    }

    /** The parallel loop of `compute_Qhat`, run in index order: every slot
        receives its sum; the transformed inputs are only read. */
    method AccumulateAll(W: seq<seq<real>>)
      requires Valid() && WeightsShape(N, W)
      modifies qHat
      ensures forall s :: 0 <= s < Cube(N) ==>
        qHat[s] == Add(old(qHat[s]), Qhat(N, W, fftOutF[..], fftOutG[..])[s])
    {
      for index := 0 to Cube(N)
        invariant forall s :: 0 <= s < index ==>
          qHat[s] == Add(old(qHat[s]), Qhat(N, W, fftOutF[..], fftOutG[..])[s])
        invariant forall s :: index <= s < Cube(N) ==> qHat[s] == old(qHat[s])
      {
        AccumulateSlot(W, index);
      }
    }

    /** What `compute_Qhat` leaves in `fftOut_f`: the inverse transform of the
        weighted sum of the transforms of `f` and `g`. */
    function Collide(W: seq<seq<real>>, f: seq<real>, g: seq<real>): (r: seq<Complex>)
      requires Valid() && WeightsShape(N, W) && |f| == Cube(N) && |g| == Cube(N)
      ensures |r| == Cube(N)
    {
      ifft(Qhat(N, W, fft(Embed(f)), fft(Embed(g))))
    }

    /** `compute_Qhat(conv_weights, f_mat, g_mat)`. */
    method ComputeQhat(W: seq<seq<real>>, f: seq<real>, g: seq<real>)
      requires Valid() && WeightsShape(N, W) && |f| == Cube(N) && |g| == Cube(N)
      modifies fftInF, fftOutF, fftInG, fftOutG, qHat
      ensures fftInF[..] == Embed(f) && fftInG[..] == Embed(g)
      ensures fftOutG[..] == fft(Embed(g))
      ensures qHat[..] == Qhat(N, W, fft(Embed(f)), fft(Embed(g)))
      ensures fftOutF[..] == Collide(W, f, g)
    {
      LoadInputs(f, g);
      Fft3D(fftInF, fftOutF);
      Fft3D(fftInG, fftOutG);
      ghost var q := Qhat(N, W, fftOutF[..], fftOutG[..]);
      AccumulateAll(W);
      assert qHat[..] == q;
      Ifft3D(qHat, fftOutF);
    }

    // ---- the two operators ----

    /** The collision output `ComputeQ(f, g)` writes: real parts of `Collide`. */
    function Contribution(W: seq<seq<real>>, f: seq<real>, g: seq<real>): (q: seq<real>)
      requires Valid() && WeightsShape(N, W) && |f| == Cube(N) && |g| == Cube(N)
      ensures |q| == Cube(N)
    {
      RealPart(Collide(W, f, g))
    }

    /** The output loop of `ComputeQ`: `Q` receives the real parts of
        `fftOut_f`. */
    method StoreOutput(Q: array<real>)
      requires Valid() && Q.Length == Cube(N)
      modifies Q
      ensures Q[..] == RealPart(fftOutF[..])
    {
      for index := 0 to Cube(N)
        invariant forall t :: 0 <= t < index ==> Q[t] == fftOutF[t].re
      {
        Q[index] := fftOutF[index].re;
      }
    }

    /** The later output loops of `ComputeQ_maxPreserve`: the real parts of
        `fftOut_f` are added to `Q`. */
    method AddOutput(Q: array<real>)
      requires Valid() && Q.Length == Cube(N)
      modifies Q
      ensures Q[..] == AddReal(old(Q[..]), RealPart(fftOutF[..]))
    {
      for index := 0 to Cube(N)
        invariant forall t :: 0 <= t < index ==> Q[t] == old(Q[t]) + fftOutF[t].re
        invariant forall t :: index <= t < Cube(N) ==> Q[t] == old(Q[t])
      {
        Q[index] := Q[index] + fftOutF[index].re;
      }
    }

    /** `ComputeQ(f, g, Q, conv_weights)`. */
    method ComputeQ(f: array<real>, g: array<real>, Q: array<real>, W: seq<seq<real>>)
      requires Valid() && WeightsShape(N, W)
      requires f.Length == Cube(N) && g.Length == Cube(N) && Q.Length == Cube(N)
      modifies Q, fftInF, fftOutF, fftInG, fftOutG, qHat
      ensures Q[..] == Contribution(W, old(f[..]), old(g[..]))
    {
      ComputeQhat(W, f[..], g[..]);
      StoreOutput(Q);
    }

    /** The result of `ComputeQ_maxPreserve(f, g)` as written: with
        `M_i, g_i` the Maxwellian and perturbation of `f`, `M_j` the
        Maxwellian of `g` and `g_j = g - M_i`, the sum of the contributions of
        (M_i, g_j), (g_i, M_j) and (g_i, g_j). No (M_i, M_j) term. */
    function MaxPreserve(W: seq<seq<real>>, f: seq<real>, g: seq<real>): (q: seq<real>)
      requires Valid() && WeightsShape(N, W) && |f| == Cube(N) && |g| == Cube(N)
      ensures |q| == Cube(N)
    {
      var mf := MaxwellianField(f);
      var gf := SubReal(f, mf);
      var mg := MaxwellianField(g);
      var gg := SubReal(g, mf);
      AddReal(AddReal(Contribution(W, mf, gg), Contribution(W, gf, mg)), Contribution(W, gf, gg))
    }

    /** `ComputeQ_maxPreserve(f, g, Q, conv_weights)`. */
    method ComputeQMaxPreserve(f: array<real>, g: array<real>, Q: array<real>, W: seq<seq<real>>)
      requires Valid() && WeightsShape(N, W)
      requires f.Length == Cube(N) && g.Length == Cube(N) && Q.Length == Cube(N)
      requires f != mI && f != mJ && f != gI && f != gJ
      requires g != mI && g != mJ && g != gI && g != gJ
      requires Q != mI && Q != mJ && Q != gI && Q != gJ
      modifies mI, mJ, gI, gJ, Q, fftInF, fftOutF, fftInG, fftOutG, qHat
      ensures mI[..] == MaxwellianField(old(f[..])) && gI[..] == SubReal(old(f[..]), mI[..])
      ensures mJ[..] == MaxwellianField(old(g[..])) && gJ[..] == SubReal(old(g[..]), mI[..])
      ensures Q[..] == MaxPreserve(W, old(f[..]), old(g[..]))
    {
      ghost var f0, g0 := f[..], g[..];
      FindMaxwellians(mI, gI, f);
      FindMaxwellians(mJ, gJ, g);
      var mf, gf, mg, gg := mI[..], gI[..], mJ[..], gJ[..];
      ghost var c1 := Contribution(W, mf, gg);
      ghost var c2 := Contribution(W, gf, mg);
      ghost var c3 := Contribution(W, gf, gg);
      assert MaxPreserve(W, f0, g0) == AddReal(AddReal(c1, c2), c3);

      ComputeQhat(W, mf, gg);
      StoreOutput(Q);
      ComputeQhat(W, gf, mg);
      AddOutput(Q);
      ComputeQhat(W, gf, gg);
      AddOutput(Q);
      assert Q[..] == AddReal(AddReal(c1, c2), c3);
    }
 
    // ---- what the operators compute, under linear transforms ----

    /** The contribution is linear in its first argument. */
    lemma ContributionLinearF(W: seq<seq<real>>, f1: seq<real>, f2: seq<real>, c: real, g: seq<real>)
      requires Valid() && WeightsShape(N, W) && |f1| == Cube(N) && |f2| == Cube(N) && |g| == Cube(N)
      requires Linear(fft, Cube(N)) && Linear(ifft, Cube(N))
      ensures Contribution(W, AddReal(f1, ScaleReal(c, f2)), g)
           == AddReal(Contribution(W, f1, g), ScaleReal(c, Contribution(W, f2, g)))
    {
      var E1, E2, Gh := Embed(f1), Embed(f2), fft(Embed(g));
      EmbedLinear(f1, f2, c);
      assert fft(AddField(E1, ScaleField(c, E2))) == AddField(fft(E1), ScaleField(c, fft(E2)));
      QhatLinearF(N, W, fft(E1), fft(E2), c, Gh);
      var q1, q2 := Qhat(N, W, fft(E1), Gh), Qhat(N, W, fft(E2), Gh);
      assert ifft(AddField(q1, ScaleField(c, q2))) == AddField(ifft(q1), ScaleField(c, ifft(q2)));
      RealPartLinear(ifft(q1), ifft(q2), c);
    }

    /** The contribution is linear in its second argument. */
    lemma ContributionLinearG(W: seq<seq<real>>, f: seq<real>, g1: seq<real>, g2: seq<real>, c: real)
      requires Valid() && WeightsShape(N, W) && |f| == Cube(N) && |g1| == Cube(N) && |g2| == Cube(N)
      requires Linear(fft, Cube(N)) && Linear(ifft, Cube(N))
      ensures Contribution(W, f, AddReal(g1, ScaleReal(c, g2)))
           == AddReal(Contribution(W, f, g1), ScaleReal(c, Contribution(W, f, g2)))
    {
      var Fh, E1, E2 := fft(Embed(f)), Embed(g1), Embed(g2);
      EmbedLinear(g1, g2, c);
      assert fft(AddField(E1, ScaleField(c, E2))) == AddField(fft(E1), ScaleField(c, fft(E2)));
      QhatLinearG(N, W, Fh, fft(E1), fft(E2), c);
      var q1, q2 := Qhat(N, W, Fh, fft(E1)), Qhat(N, W, Fh, fft(E2));
      assert ifft(AddField(q1, ScaleField(c, q2))) == AddField(ifft(q1), ScaleField(c, ifft(q2)));
      RealPartLinear(ifft(q1), ifft(q2), c);
    }

    lemma ContributionSubF(W: seq<seq<real>>, f1: seq<real>, f2: seq<real>, g: seq<real>)
      requires Valid() && WeightsShape(N, W) && |f1| == Cube(N) && |f2| == Cube(N) && |g| == Cube(N)
      requires Linear(fft, Cube(N)) && Linear(ifft, Cube(N))
      ensures Contribution(W, SubReal(f1, f2), g) == SubReal(Contribution(W, f1, g), Contribution(W, f2, g))
    {
      SubAsCombination(f1, f2);
      ContributionLinearF(W, f1, f2, -1.0, g);
      SubAsCombination(Contribution(W, f1, g), Contribution(W, f2, g));
    }

    lemma ContributionSubG(W: seq<seq<real>>, f: seq<real>, g1: seq<real>, g2: seq<real>)
      requires Valid() && WeightsShape(N, W) && |f| == Cube(N) && |g1| == Cube(N) && |g2| == Cube(N)
      requires Linear(fft, Cube(N)) && Linear(ifft, Cube(N))
      ensures Contribution(W, f, SubReal(g1, g2)) == SubReal(Contribution(W, f, g1), Contribution(W, f, g2))
    {
      SubAsCombination(g1, g2);
      ContributionLinearG(W, f, g1, g2, -1.0);
      SubAsCombination(Contribution(W, f, g1), Contribution(W, f, g2));
    }

    /** A zero distribution on either side contributes nothing. */
    lemma ContributionZero(W: seq<seq<real>>, f: seq<real>, g: seq<real>)
      requires Valid() && WeightsShape(N, W) && |f| == Cube(N) && |g| == Cube(N)
      requires Linear(fft, Cube(N)) && Linear(ifft, Cube(N))
      requires f == RealZeros(Cube(N)) || g == RealZeros(Cube(N))
      ensures Contribution(W, f, g) == RealZeros(Cube(N))
    {
      EmbedZero(Cube(N));
      LinearZero(fft, Cube(N));
      QhatZero(N, W, fft(Embed(f)), fft(Embed(g)));
      LinearZero(ifft, Cube(N));
      RealPartZero(Cube(N));
    }

    /** What `ComputeQ_maxPreserve` computes: the full operator Q(f, g)
        without the Maxwellian-Maxwellian part Q(M_f, M_g), plus the error
        Q(f, M_g - M_f) left by taking `g_j` against `M_i`. */
    lemma MaxPreserveExpansion(W: seq<seq<real>>, f: seq<real>, g: seq<real>)
      requires Valid() && WeightsShape(N, W) && |f| == Cube(N) && |g| == Cube(N)
      requires Linear(fft, Cube(N)) && Linear(ifft, Cube(N))
      ensures var mf, mg := MaxwellianField(f), MaxwellianField(g);
        MaxPreserve(W, f, g)
          == AddReal(SubReal(Contribution(W, f, g), Contribution(W, mf, mg)),
                     Contribution(W, f, SubReal(mg, mf)))
    {
      var mf, mg := MaxwellianField(f), MaxwellianField(g);
      var gf, gg := SubReal(f, mf), SubReal(g, mf);
      ContributionSubG(W, mf, g, mf);
      ContributionSubF(W, f, mf, mg);
      ContributionSubF(W, f, mf, gg);
      ContributionSubG(W, f, g, mf);
      ContributionSubG(W, f, mg, mf);
      var l := MaxPreserve(W, f, g);
      var r := AddReal(SubReal(Contribution(W, f, g), Contribution(W, mf, mg)),
                       Contribution(W, f, SubReal(mg, mf)));
      forall t | 0 <= t < Cube(N) ensures l[t] == r[t] {
      }
    }

    /** When both arguments have the same Maxwellian, in particular when
        `ComputeQ_maxPreserve(f, f)` is called, the result is exactly
        Q(f, g) - Q(M_f, M_g). */
    lemma MaxPreserveSameMaxwellian(W: seq<seq<real>>, f: seq<real>, g: seq<real>)
      requires Valid() && WeightsShape(N, W) && |f| == Cube(N) && |g| == Cube(N)
      requires Linear(fft, Cube(N)) && Linear(ifft, Cube(N))
      requires MaxwellianField(f) == MaxwellianField(g)
      ensures MaxPreserve(W, f, g)
           == SubReal(Contribution(W, f, g), Contribution(W, MaxwellianField(f), MaxwellianField(g)))
    {
      var mf := MaxwellianField(f);
      MaxPreserveExpansion(W, f, g);
      assert SubReal(mf, mf) == RealZeros(Cube(N));
      ContributionZero(W, f, SubReal(mf, mf));
      var s := SubReal(Contribution(W, f, g), Contribution(W, mf, mf));
      assert AddReal(s, RealZeros(Cube(N))) == s;
    }

    /** A distribution that is its own Maxwellian is an exact equilibrium of
        `ComputeQ_maxPreserve`: all three contributions vanish. */
    lemma MaxPreserveEquilibrium(W: seq<seq<real>>, f: seq<real>)
      requires Valid() && WeightsShape(N, W) && |f| == Cube(N)
      requires Linear(fft, Cube(N)) && Linear(ifft, Cube(N))
      requires MaxwellianField(f) == f
      ensures MaxPreserve(W, f, f) == RealZeros(Cube(N))
    {
      var mf := MaxwellianField(f);
      var z := SubReal(f, mf);
      assert z == RealZeros(Cube(N));
      ContributionZero(W, mf, z);
      ContributionZero(W, z, mf);
      ContributionZero(W, z, z);
    }
  }
}
