/** The frequency-domain weighted sum of the spectral collision operator,
    as a function of the two transformed fields. Slot `c = (i,j,k)` of the
    result is the sum, over every offset `o = (l,m,n)` of the grid, of
    `W[c][o] * (Gh[o] (x) Fh[partner])`, where `(x)` is complex
    multiplication and the partner is `(i + N/2 - l, j + N/2 - m, k + N/2 - n)`
    wrapped onto the torus. The sum is nested as the loops are: `n` innermost
    (a line), then `m` (a plane), then `l` (the whole slot). */
module Convolution {
  import opened ComplexArith
  import opened Grid

  /** A convolution weight table: one row of N^3 weights per output slot. */
  ghost predicate WeightsShape(N: int, W: seq<seq<real>>) {
    |W| == Cube(N) && forall r :: 0 <= r < |W| ==> |W[r]| == Cube(N)
  }

  /** One weight row and two transformed fields, all of length N^3. */
  ghost predicate Operands(N: int, row: seq<real>, Fh: seq<Complex>, Gh: seq<Complex>) {
    1 <= N && |row| == Cube(N) && |Fh| == Cube(N) && |Gh| == Cube(N)
  }

  /** The toroidal partner of offset `o` for slot `c`, axis by axis. */
  function PartnerCoord(N: int, c: Coord, o: Coord): (p: Coord)
    requires InGrid(N, c) && InGrid(N, o)
    ensures InGrid(N, p)
  {
    Coord(Wrap(N, c.i, o.i), Wrap(N, c.j, o.j), Wrap(N, c.k, o.k))
  }

  /** Partner and offset add up, axis by axis and modulo N, to the slot
      shifted by N/2: the sum runs over the frequency pairs with that fixed
      sum. */
  lemma PartnerSum(N: int, c: Coord, o: Coord)
    requires InGrid(N, c) && InGrid(N, o)
    ensures var p := PartnerCoord(N, c, o);
      && (p.i + o.i) % N == (c.i + N / 2) % N
      && (p.j + o.j) % N == (c.j + N / 2) % N
      && (p.k + o.k) % N == (c.k + N / 2) % N
  {
    WrapSum(N, c.i, o.i);
    WrapSum(N, c.j, o.j);
    WrapSum(N, c.k, o.k);
  }

  /** Distinct offsets have distinct partners: no node of `Fh` is used
      twice in one slot's sum. */
  lemma PartnerInjective(N: int, c: Coord, o1: Coord, o2: Coord)
    requires InGrid(N, c) && InGrid(N, o1) && InGrid(N, o2)
    requires PartnerCoord(N, c, o1) == PartnerCoord(N, c, o2)
    ensures o1 == o2
  {
    WrapInjective(N, c.i, o1.i, o2.i);
    WrapInjective(N, c.j, o1.j, o2.j);
    WrapInjective(N, c.k, o1.k, o2.k);
  }

  /** Every node `p` is the partner of the offset `PartnerCoord(c, p)`:
      with `PartnerInjective`, each node of `Fh` is used exactly once in
      one slot's sum. */
  lemma PartnerInvolution(N: int, c: Coord, p: Coord)
    requires InGrid(N, c) && InGrid(N, p)
    ensures PartnerCoord(N, c, PartnerCoord(N, c, p)) == p
  {
    WrapInvolution(N, c.i, p.i);
    WrapInvolution(N, c.j, p.j);
    WrapInvolution(N, c.k, p.k);
  }

  /** The term for offset `o` of slot `c`: weight times the product of
      `Gh` at the offset and `Fh` at the partner. */
  function TermAt(N: int, row: seq<real>, Fh: seq<Complex>, Gh: seq<Complex>, c: Coord, o: Coord): Complex
    requires Operands(N, row, Fh, Gh) && InGrid(N, c) && InGrid(N, o)
  {
    var p := PartnerCoord(N, c, o);
    FlattenInRange(N, o);
    FlattenInRange(N, p);
    var t := Flatten(N, o);
    Scale(row[t], Mul(Gh[t], Fh[Flatten(N, p)]))
  }

  /** The terms of the innermost loop, over `n`, for fixed `l` and `m`. */
  function LineTerms(N: int, row: seq<real>, Fh: seq<Complex>, Gh: seq<Complex>, c: Coord, l: int, m: int): int -> Complex
    requires Operands(N, row, Fh, Gh) && InGrid(N, c) && InAxis(N, l) && InAxis(N, m)
  {
    n => if 0 <= n < N then TermAt(N, row, Fh, Gh, c, Coord(l, m, n)) else Zero
  }

  /** What the loop over `n` has added after `n` steps. */
  function LineSum(N: int, row: seq<real>, Fh: seq<Complex>, Gh: seq<Complex>, c: Coord, l: int, m: int, n: int): Complex
    requires Operands(N, row, Fh, Gh) && InGrid(N, c) && InAxis(N, l) && InAxis(N, m) && 0 <= n <= N
  {
    FoldSum(n, LineTerms(N, row, Fh, Gh, c, l, m))
  }

  /** The complete lines of the loop over `m`, for fixed `l`. */
  function PlaneTerms(N: int, row: seq<real>, Fh: seq<Complex>, Gh: seq<Complex>, c: Coord, l: int): int -> Complex
    requires Operands(N, row, Fh, Gh) && InGrid(N, c) && InAxis(N, l)
  {
    m => if 0 <= m < N then LineSum(N, row, Fh, Gh, c, l, m, N) else Zero
  }

  /** What the loop over `m` has added after `m` complete lines. */
  function PlaneSum(N: int, row: seq<real>, Fh: seq<Complex>, Gh: seq<Complex>, c: Coord, l: int, m: int): Complex
    requires Operands(N, row, Fh, Gh) && InGrid(N, c) && InAxis(N, l) && 0 <= m <= N
  {
    FoldSum(m, PlaneTerms(N, row, Fh, Gh, c, l))
  }

  /** The complete planes of the loop over `l`. */
  function SlotTerms(N: int, row: seq<real>, Fh: seq<Complex>, Gh: seq<Complex>, c: Coord): int -> Complex
    requires Operands(N, row, Fh, Gh) && InGrid(N, c)
  {
    l => if 0 <= l < N then PlaneSum(N, row, Fh, Gh, c, l, N) else Zero
  }

  /** What the loop over `l` has added after `l` complete planes. */
  function SlotSum(N: int, row: seq<real>, Fh: seq<Complex>, Gh: seq<Complex>, c: Coord, l: int): Complex
    requires Operands(N, row, Fh, Gh) && InGrid(N, c) && 0 <= l <= N
  {
    FoldSum(l, SlotTerms(N, row, Fh, Gh, c))
  }

  /** The accumulator `qHat` once every slot has been summed: slot `index`
      holds the complete sum of the slot it decodes to. */
  function Qhat(N: int, W: seq<seq<real>>, Fh: seq<Complex>, Gh: seq<Complex>): (q: seq<Complex>)
    requires 1 <= N && WeightsShape(N, W) && |Fh| == Cube(N) && |Gh| == Cube(N)
    ensures |q| == Cube(N)
  {
    seq(Cube(N), index requires 0 <= index < Cube(N) =>
      SlotSum(N, W[index], Fh, Gh, Decode(N, index), N))
  }

  // ---- bilinearity ----

  lemma TermLinearF(N: int, row: seq<real>, F1: seq<Complex>, F2: seq<Complex>, c: real,
                     Gh: seq<Complex>, s: Coord, o: Coord)
    requires Operands(N, row, F1, Gh) && |F2| == Cube(N) && InGrid(N, s) && InGrid(N, o)
    ensures TermAt(N, row, AddField(F1, ScaleField(c, F2)), Gh, s, o)
         == Add(TermAt(N, row, F1, Gh, s, o), Scale(c, TermAt(N, row, F2, Gh, s, o)))
  {
    var p := PartnerCoord(N, s, o);
    FlattenInRange(N, o);
    FlattenInRange(N, p);
    var t, u := Flatten(N, o), Flatten(N, p);
    var g := Gh[t];
    MulAddRight(g, F1[u], Scale(c, F2[u]));
    MulScaleRight(c, g, F2[u]);
    ScaleAddScale(row[t], Mul(g, F1[u]), c, Mul(g, F2[u]));
  }

  lemma TermLinearG(N: int, row: seq<real>, Fh: seq<Complex>, G1: seq<Complex>, G2: seq<Complex>, c: real,
                     s: Coord, o: Coord)
    requires Operands(N, row, Fh, G1) && |G2| == Cube(N) && InGrid(N, s) && InGrid(N, o)
    ensures TermAt(N, row, Fh, AddField(G1, ScaleField(c, G2)), s, o)
         == Add(TermAt(N, row, Fh, G1, s, o), Scale(c, TermAt(N, row, Fh, G2, s, o)))
  {
    var p := PartnerCoord(N, s, o);
    FlattenInRange(N, o);
    FlattenInRange(N, p);
    var t, u := Flatten(N, o), Flatten(N, p);
    var f := Fh[u];
    MulAddLeft(G1[t], Scale(c, G2[t]), f);
    MulScaleLeft(c, G2[t], f);
    ScaleAddScale(row[t], Mul(G1[t], f), c, Mul(G2[t], f));
  }

  /** For fixed `Gh` the sum of one slot is linear in `Fh`. */
  lemma SlotSumLinearF(N: int, row: seq<real>, F1: seq<Complex>, F2: seq<Complex>, c: real,
                        Gh: seq<Complex>, s: Coord)
    requires Operands(N, row, F1, Gh) && |F2| == Cube(N) && InGrid(N, s)
    ensures SlotSum(N, row, AddField(F1, ScaleField(c, F2)), Gh, s, N)
         == Add(SlotSum(N, row, F1, Gh, s, N), Scale(c, SlotSum(N, row, F2, Gh, s, N)))
  {
    var F := AddField(F1, ScaleField(c, F2));
    forall l | 0 <= l < N
      ensures PlaneSum(N, row, F, Gh, s, l, N)
           == Add(PlaneSum(N, row, F1, Gh, s, l, N), Scale(c, PlaneSum(N, row, F2, Gh, s, l, N)))
    {
      forall m | 0 <= m < N
        ensures LineSum(N, row, F, Gh, s, l, m, N)
             == Add(LineSum(N, row, F1, Gh, s, l, m, N), Scale(c, LineSum(N, row, F2, Gh, s, l, m, N)))
      {
        forall n | 0 <= n < N {
          TermLinearF(N, row, F1, F2, c, Gh, s, Coord(l, m, n));
        }
        FoldSumLinear(N, c, LineTerms(N, row, F1, Gh, s, l, m), LineTerms(N, row, F2, Gh, s, l, m),
                      LineTerms(N, row, F, Gh, s, l, m));
      }
      FoldSumLinear(N, c, PlaneTerms(N, row, F1, Gh, s, l), PlaneTerms(N, row, F2, Gh, s, l),
                    PlaneTerms(N, row, F, Gh, s, l));
    }
    FoldSumLinear(N, c, SlotTerms(N, row, F1, Gh, s), SlotTerms(N, row, F2, Gh, s),
                  SlotTerms(N, row, F, Gh, s));
  }

  /** For fixed `Fh` the sum of one slot is linear in `Gh`. */
  lemma SlotSumLinearG(N: int, row: seq<real>, Fh: seq<Complex>, G1: seq<Complex>, G2: seq<Complex>, c: real,
                        s: Coord)
    requires Operands(N, row, Fh, G1) && |G2| == Cube(N) && InGrid(N, s)
    ensures SlotSum(N, row, Fh, AddField(G1, ScaleField(c, G2)), s, N)
         == Add(SlotSum(N, row, Fh, G1, s, N), Scale(c, SlotSum(N, row, Fh, G2, s, N)))
  {
    var G := AddField(G1, ScaleField(c, G2));
    forall l | 0 <= l < N
      ensures PlaneSum(N, row, Fh, G, s, l, N)
           == Add(PlaneSum(N, row, Fh, G1, s, l, N), Scale(c, PlaneSum(N, row, Fh, G2, s, l, N)))
    {
      forall m | 0 <= m < N
        ensures LineSum(N, row, Fh, G, s, l, m, N)
             == Add(LineSum(N, row, Fh, G1, s, l, m, N), Scale(c, LineSum(N, row, Fh, G2, s, l, m, N)))
      {
        forall n | 0 <= n < N {
          TermLinearG(N, row, Fh, G1, G2, c, s, Coord(l, m, n));
        }
        FoldSumLinear(N, c, LineTerms(N, row, Fh, G1, s, l, m), LineTerms(N, row, Fh, G2, s, l, m),
                      LineTerms(N, row, Fh, G, s, l, m));
      }
      FoldSumLinear(N, c, PlaneTerms(N, row, Fh, G1, s, l), PlaneTerms(N, row, Fh, G2, s, l),
                    PlaneTerms(N, row, Fh, G, s, l));
    }
    FoldSumLinear(N, c, SlotTerms(N, row, Fh, G1, s), SlotTerms(N, row, Fh, G2, s),
                  SlotTerms(N, row, Fh, G, s));
  }

  /** For fixed `Gh` the accumulated field is linear in `Fh`. */
  lemma QhatLinearF(N: int, W: seq<seq<real>>, F1: seq<Complex>, F2: seq<Complex>, c: real, Gh: seq<Complex>)
    requires 1 <= N && WeightsShape(N, W) && |F1| == Cube(N) && |F2| == Cube(N) && |Gh| == Cube(N)
    ensures Qhat(N, W, AddField(F1, ScaleField(c, F2)), Gh)
         == AddField(Qhat(N, W, F1, Gh), ScaleField(c, Qhat(N, W, F2, Gh)))
  {
    forall index | 0 <= index < Cube(N)
      ensures Qhat(N, W, AddField(F1, ScaleField(c, F2)), Gh)[index]
           == Add(Qhat(N, W, F1, Gh)[index], Scale(c, Qhat(N, W, F2, Gh)[index]))
    {
      SlotSumLinearF(N, W[index], F1, F2, c, Gh, Decode(N, index));
    }
  }

  /** For fixed `Fh` the accumulated field is linear in `Gh`. */
  lemma QhatLinearG(N: int, W: seq<seq<real>>, Fh: seq<Complex>, G1: seq<Complex>, G2: seq<Complex>, c: real)
    requires 1 <= N && WeightsShape(N, W) && |Fh| == Cube(N) && |G1| == Cube(N) && |G2| == Cube(N)
    ensures Qhat(N, W, Fh, AddField(G1, ScaleField(c, G2)))
         == AddField(Qhat(N, W, Fh, G1), ScaleField(c, Qhat(N, W, Fh, G2)))
  {
    forall index | 0 <= index < Cube(N)
      ensures Qhat(N, W, Fh, AddField(G1, ScaleField(c, G2)))[index]
           == Add(Qhat(N, W, Fh, G1)[index], Scale(c, Qhat(N, W, Fh, G2)[index]))
    {
      SlotSumLinearG(N, W[index], Fh, G1, G2, c, Decode(N, index));
    }
  }

  /** A zero field on either side makes every term zero. */
  lemma TermZero(N: int, row: seq<real>, Fh: seq<Complex>, Gh: seq<Complex>, s: Coord, o: Coord)
    requires Operands(N, row, Fh, Gh) && InGrid(N, s) && InGrid(N, o)
    requires Fh == Zeros(Cube(N)) || Gh == Zeros(Cube(N))
    ensures TermAt(N, row, Fh, Gh, s, o) == Zero
  {
    var p := PartnerCoord(N, s, o);
    FlattenInRange(N, o);
    FlattenInRange(N, p);
    assert Fh[Flatten(N, p)] == Zero || Gh[Flatten(N, o)] == Zero;
  }

  /** ... and so every line sum. */
  lemma LineSumZero(N: int, row: seq<real>, Fh: seq<Complex>, Gh: seq<Complex>, s: Coord, l: int, m: int)
    requires Operands(N, row, Fh, Gh) && InGrid(N, s) && InAxis(N, l) && InAxis(N, m)
    requires Fh == Zeros(Cube(N)) || Gh == Zeros(Cube(N))
    ensures LineSum(N, row, Fh, Gh, s, l, m, N) == Zero
  {
    forall n | 0 <= n < N ensures LineTerms(N, row, Fh, Gh, s, l, m)(n) == Zero {
      TermZero(N, row, Fh, Gh, s, Coord(l, m, n));
    }
    FoldSumZero(N, LineTerms(N, row, Fh, Gh, s, l, m));
  }

  /** ... and so the sum of every slot. */
  lemma SlotSumZero(N: int, row: seq<real>, Fh: seq<Complex>, Gh: seq<Complex>, s: Coord)
    requires Operands(N, row, Fh, Gh) && InGrid(N, s)
    requires Fh == Zeros(Cube(N)) || Gh == Zeros(Cube(N))
    ensures SlotSum(N, row, Fh, Gh, s, N) == Zero
  {
    forall l | 0 <= l < N ensures SlotTerms(N, row, Fh, Gh, s)(l) == Zero {
      forall m | 0 <= m < N ensures PlaneTerms(N, row, Fh, Gh, s, l)(m) == Zero {
        LineSumZero(N, row, Fh, Gh, s, l, m);
      }
      FoldSumZero(N, PlaneTerms(N, row, Fh, Gh, s, l));
    }
    FoldSumZero(N, SlotTerms(N, row, Fh, Gh, s));
  }

  /** A zero field on either side gives a zero accumulator. */
  lemma QhatZero(N: int, W: seq<seq<real>>, Fh: seq<Complex>, Gh: seq<Complex>)
    requires 1 <= N && WeightsShape(N, W) && |Fh| == Cube(N) && |Gh| == Cube(N)
    requires Fh == Zeros(Cube(N)) || Gh == Zeros(Cube(N))
    ensures Qhat(N, W, Fh, Gh) == Zeros(Cube(N))
  {
    forall index | 0 <= index < Cube(N)
      ensures Qhat(N, W, Fh, Gh)[index] == Zero
    {
      SlotSumZero(N, W[index], Fh, Gh, Decode(N, index));
    }
  }
}
