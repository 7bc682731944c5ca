# Spectral collision operator: index logic and weighted convolution

This project models the core of `src/collisions.c` of SpectralBTE, the part
of a spectral Boltzmann solver that evaluates the collision operator
`Q(f, g)` on an `N x N x N` velocity grid:

- `initialize_coll` records the velocity and Fourier grids, builds the
  trapezoidal weights `wtN` and allocates the working buffers. The C file's
  static variables become the fields of one engine object
  (`Collisions.CollisionEngine`).
- The flattened index `index = k + N*(j + N*i)` and its decoding
  `i = index/(N*N)`, `j = (index - i*N*N)/N`, `k = index - N*(j + N*i)`
  (`Grid`).
- `compute_Qhat` zeroes `qHat` and loads both inputs as complex values with
  imaginary part zero. It transforms them, and for every output slot
  `(i,j,k)` accumulates over all offsets `(l,m,n)` the product
  `w[index][lmn] * (G[lmn] (x) F[x,y,z])`. Here `(x)` is complex
  multiplication on (re, im) pairs, and `x = i + N/2 - l` is wrapped onto
  the torus by one `if / else if`, as are `y` and `z`. At the end it
  inverse-transforms `qHat` into `fftOut_f`.
  - `Convolution` gives the value of each slot as nested sums (line,
    plane, slot) in the loops' order.
  - `CollisionEngine.AccumulateLine`, `AccumulatePlane` and
    `AccumulateSlot` are the three loops, proved against those sums.
- `find_maxwellians` fills the Maxwellian of a distribution and its
  perturbation. `ComputeQ` stores the real part of the result.
  `ComputeQ_maxPreserve` adds the contributions of `(M_i, g_j)`,
  `(g_i, M_j)` and `(g_i, g_j)`, leaving out the Maxwellian-Maxwellian
  pair.

Some parts are parameters of the engine, fixed at construction:

- The forward and inverse 3-D transforms `fft3D`/`ifft3D`, built on FFTW
  and `cos`/`sin` phase rotations.
- The moment routines.
- The Maxwellian formula.

Every property that depends on the transforms assumes only that they are
real-linear maps that keep the field length (`Collisions.Linear`).
Arithmetic is over `real`, so every sum is exact.

`find_maxwellians` takes the perturbation against the buffer `M_i`
(`src/collisions.c:104`), not against its own `M_mat` argument. On the
second call (`src/collisions.c:178`) this makes `g_j = g - M_i`, where
`M_i` is the Maxwellian of `f`. The model keeps this behaviour as written.
`MaxPreserveExpansion` shows what it does to the result:

- `ComputeQ_maxPreserve(f, g)` equals `Q(f,g) - Q(M_f,M_g) + Q(f, M_g - M_f)`.
- The extra term vanishes when `f` and `g` have the same Maxwellian
  (`MaxPreserveSameMaxwellian`). This covers the call with `g = f`.

## Model

| member | source | states |
|---|---|---|
| Grid.Decode | src/collisions.c:99-102 | for `0 <= index < N^3`, the decoded `i`, `j`, `k` each lie in `[0, N)`, and `k + N*(j + N*i)` gives back `index` |
| Grid.Flatten | src/collisions.c:158-159 | the row-major index `k + N*(j + N*i)` that the accumulation uses for the slot, the offset and the partner |
| Grid.DecodeFlatten | src/collisions.c:127-129 | decoding the flattened index of an on-grid coordinate returns that coordinate, so index and coordinate determine each other |
| Grid.FlattenInRange | src/collisions.c:158-159 | every flattened index `n + N*(m + N*l)` and `z + N*(y + N*x)` of on-grid coordinates lies in `[0, N^3)`, so every buffer access is in bounds |
| Grid.FlattenInjective | src/collisions.c:158-159 | two on-grid coordinates with the same flattened index are equal |
| Grid.Wrap | src/collisions.c:135-139 | for `i`, `l` in `[0, N)`, one `if / else if` correction of `i + N/2 - l` already lands in `[0, N)`, and the result is `(i + N/2 - l) mod N` |
| Grid.WrapSum | src/collisions.c:134-155 | partner and offset add up to `i + N/2` modulo N on every axis |
| Grid.WrapInjective | src/collisions.c:134-155 | distinct offsets along an axis have distinct partners |
| Grid.WrapInvolution | src/collisions.c:134-155 | wrapping twice with the same `i` gives back the offset, so every node along an axis is the partner of some offset |
| Grid.TrapezoidSum | src/collisions.c:48-54 | weights that are 0.5 at both ends and 1.0 inside, on `N >= 2` nodes, add up to `N - 1` |
| Grid.TrapezoidWeight | src/collisions.c:48-54 | the weight `wtN[i]`: 0.5 at `i = 0` and `i = N-1`, 1.0 at every interior node |
| ComplexArith.Mul | src/collisions.c:158-159 | the complex product on (re, im) pairs that the two `+=` lines write out: `re*re - im*im` and `re*im + im*re` |
| ComplexArith.EmbedLinear | src/collisions.c:115-118 | loading a linear combination of real fields loads the same combination of complex fields |
| ComplexArith.RealPartLinear | src/collisions.c:214-216 | taking real parts commutes with linear combinations |
| Convolution.PartnerCoord | src/collisions.c:134-155 | the partner of an on-grid offset is on the grid |
| Convolution.PartnerSum | src/collisions.c:134-159 | the partner pairs with offset `(l,m,n)` lie on the fixed-sum plane `partner + offset = slot + N/2` (mod N, per axis) |
| Convolution.PartnerInjective | src/collisions.c:134-159 | distinct offsets have distinct partners, so no node of `F` is used twice in one slot's sum |
| Convolution.PartnerInvolution | src/collisions.c:134-159 | every node `p` is the partner of the offset `PartnerCoord(c, p)`; with `PartnerInjective`, every node of `F` is used exactly once in one slot's sum |
| Convolution.TermAt | src/collisions.c:158-159 | the product added for offset `o` of slot `c`: `w[o] * (G[o] (x) F[partner])`, with `o` and the partner flattened as in the source |
| Convolution.LineSum | src/collisions.c:149-160 | the sum of the first `n` terms of the loop over `n`, for fixed `l`, `m`, added from the left |
| Convolution.PlaneSum | src/collisions.c:141-160 | the sum of the first `m` complete lines of the loop over `m`, for fixed `l` |
| Convolution.SlotSum | src/collisions.c:134-161 | the sum of the first `l` complete planes of the loop over `l`; at `l = N` it is everything one iteration of the parallel loop adds |
| Convolution.Qhat | src/collisions.c:125-161 | `qHat` after the parallel loop: slot `index` holds the complete sum of the slot it decodes to, with weight row `W[index]` |
| Convolution.TermLinearF | src/collisions.c:158-159 | one weighted product is linear in `F` |
| Convolution.TermLinearG | src/collisions.c:158-159 | one weighted product is linear in `G` |
| Convolution.SlotSumLinearF | src/collisions.c:134-161 | the sum accumulated into one slot is linear in `F` for fixed `G` |
| Convolution.SlotSumLinearG | src/collisions.c:134-161 | the sum accumulated into one slot is linear in `G` for fixed `F` |
| Convolution.QhatLinearF | src/collisions.c:125-161 | the whole accumulated field is linear in the transformed `f` for fixed `g` |
| Convolution.QhatLinearG | src/collisions.c:125-161 | the whole accumulated field is linear in the transformed `g` for fixed `f` |
| Convolution.QhatZero | src/collisions.c:125-161 | a zero field on either side accumulates zero in every slot |
| Collisions.CollisionEngine.constructor | src/collisions.c:33-74 | the grids, spacings `dv = v[1]-v[0]`, `deta = eta[1]-eta[0]`, `L_eta = -eta[0]` are recorded; `wtN` is 0.5 at both ends and 1.0 inside; every buffer has `N^3` entries and is a fresh, separate allocation |
| Collisions.CollisionEngine.Fft3D | src/collisions.c:228-268 | the output buffer receives the transform of the input buffer |
| Collisions.CollisionEngine.Ifft3D | src/collisions.c:279-311 | the output buffer receives the inverse transform of the input buffer |
| Collisions.CollisionEngine.MaxwellianField | src/collisions.c:95-103 | the Maxwellian with the moments of `mat`, sampled at `(v[i], v[j], v[k])` for the decoded `(i, j, k)` of every index |
| Collisions.CollisionEngine.FindMaxwellians | src/collisions.c:91-106 | `M_mat` receives the Maxwellian of `mat` sampled at every decoded grid node; `g_mat` receives `mat - M_i` (the buffer `M_i`, as written) |
| Collisions.CollisionEngine.LoadInputs | src/collisions.c:112-119 | `qHat` is all zero, and `fftIn_f`, `fftIn_g` hold the real inputs with imaginary parts zero |
| Collisions.CollisionEngine.AddProduct | src/collisions.c:158-159 | the two `+=` lines add `w * (G (x) F)` to the slot, and no other slot changes |
| Collisions.CollisionEngine.AccumulateLine | src/collisions.c:149-160 | the loop over `n` adds the line sum for `(l, m)` to the slot, and leaves every other slot as it was |
| Collisions.CollisionEngine.AccumulatePlane | src/collisions.c:141-160 | the loop over `m` adds the plane sum for `l` to the slot, and leaves every other slot as it was |
| Collisions.CollisionEngine.AccumulateSlot | src/collisions.c:126-161 | iteration `index` adds the full weighted sum of its decoded slot to `qHat[index]` and writes no other slot, which is what makes the parallel loop race-free |
| Collisions.CollisionEngine.AccumulateAll | src/collisions.c:125-161 | every slot of `qHat` receives its own sum; `fftOut_f` and `fftOut_g` are only read |
| Collisions.CollisionEngine.ComputeQhat | src/collisions.c:108-165 | the inputs are loaded, `fftOut_g` holds the transform of `g`, `qHat` holds the weighted sums of the two transforms, and `fftOut_f` holds the inverse transform of `qHat` |
| Collisions.CollisionEngine.Collide | src/collisions.c:108-165 | what `fftOut_f` holds after `compute_Qhat(f, g)`: the inverse transform of `Qhat` of the transforms of the loaded `f` and `g` |
| Collisions.CollisionEngine.StoreOutput | src/collisions.c:214-216 | `Q` receives the real parts of `fftOut_f` |
| Collisions.CollisionEngine.AddOutput | src/collisions.c:188-190 | the real parts of `fftOut_f` are added to `Q` |
| Collisions.CollisionEngine.Contribution | src/collisions.c:208-217 | what `ComputeQ(f, g)` stores in `Q`: the real parts of `Collide(f, g)` |
| Collisions.CollisionEngine.ComputeQ | src/collisions.c:208-217 | `Q` is the real part of the inverse transform of the weighted sum of the transforms of `f` and `g` |
| Collisions.CollisionEngine.MaxPreserve | src/collisions.c:174-206 | what `ComputeQ_maxPreserve(f, g)` stores in `Q`: with `M_f`, `M_g` the Maxwellians of `f` and `g`, the sum of the contributions of `(M_f, g - M_f)`, `(f - M_f, M_g)` and `(f - M_f, g - M_f)`; `g - M_f` is the `g_j` that line 104 computes |
| Collisions.CollisionEngine.ComputeQMaxPreserve | src/collisions.c:174-206 | `M_i`, `g_i`, `M_j`, `g_j` are filled as written (`g_j = g - M_i`), and `Q` is the sum of the contributions of `(M_i, g_j)`, `(g_i, M_j)` and `(g_i, g_j)` |
| Collisions.CollisionEngine.ContributionLinearF | src/collisions.c:208-217 | under linear transforms, the output of `ComputeQ` is linear in `f` |
| Collisions.CollisionEngine.ContributionLinearG | src/collisions.c:208-217 | under linear transforms, the output of `ComputeQ` is linear in `g` |
| Collisions.CollisionEngine.ContributionSubF | src/collisions.c:208-217 | the output for `f1 - f2` is the difference of the outputs |
| Collisions.CollisionEngine.ContributionSubG | src/collisions.c:208-217 | the output for `g1 - g2` is the difference of the outputs |
| Collisions.CollisionEngine.ContributionZero | src/collisions.c:208-217 | a zero distribution on either side gives a zero output |
| Collisions.CollisionEngine.MaxPreserveExpansion | src/collisions.c:174-206 | the result of `ComputeQ_maxPreserve(f, g)` is `Q(f,g) - Q(M_f,M_g) + Q(f, M_g - M_f)`: the full operator without the Maxwellian-Maxwellian part, plus the error from `g_j = g - M_i` |
| Collisions.CollisionEngine.MaxPreserveSameMaxwellian | src/collisions.c:174-206 | when `f` and `g` have the same Maxwellian (in particular `g = f`), the result is exactly `Q(f,g) - Q(M_f,M_g)` |
| Collisions.CollisionEngine.MaxPreserveEquilibrium | src/collisions.c:198-205 | a distribution equal to its own Maxwellian gives a zero result: leaving out the `(M_i, M_j)` term makes Maxwellians exact equilibria |

## Left out

- The internals of `fft3D`/`ifft3D` (`src/collisions.c:228-311`) are not modelled. They are floating-point `cos`/`sin` phase rotations around the foreign FFTW routine. Both are parameters of the engine, and only their linearity is assumed, and only where a lemma says so.
- The FFTW plans, the `temp` buffer and `scale3` are not modelled, because they are used only inside the transforms.
- The Maxwellian formula (`pow`/`exp`) and the moment routines `getDensity`, `getBulkVelocity` and `getTemperature` are not modelled. `momentRoutines.h` and the code behind it are not part of this model. Both are parameters of the engine.
- The OpenMP `parallel for` runs as a sequential loop in index order. `AccumulateSlot` shows that each iteration writes only its own slot.
- `malloc`/`fftw_malloc` failure, `dealloc_coll` and the never-freed `M_i`, `M_j`, `g_i`, `g_j` are not modelled. Allocation is Dafny's `new`.
- `src/collisions.h` and `src/collisions_fft3d_cpu.h` are not modelled, because they only declare.
- Collisions.CollisionEngine.ComputeQ: `int` overflow of `N*N*N` and of the flattened indices is not modelled, because integers are unbounded here. The model requires only `N >= 2`.
- Collisions.CollisionEngine.ComputeQ: floating-point rounding is not modelled, because reals are exact. Grouping the accumulation into line, plane and slot sums is therefore the same as the C code's single running sum.
- Collisions.CollisionEngine.ComputeQhat: `conv_weights` is an immutable sequence of rows rather than an array of pointers, because the C code only reads it.
- Collisions.CollisionEngine.ComputeQhat: `f_mat` and `g_mat` are passed as values, because `compute_Qhat` only reads them.
- No conservation or symmetry property of the continuous collision operator is proved, because it depends on the weights and transforms, which are parameters here.
- Collisions.CollisionEngine.constructor: `initialize_coll` keeps the caller's pointers (`v = vel`, `eta = zeta`), so a later write by the caller to `vel` would change the Maxwellians `find_maxwellians` samples. The engine keeps `v` and `eta` as immutable values taken at construction, so that aliasing is not captured.
- The velocity grid `v` and the Fourier grid `eta` are stored as given and not checked to be uniform, because the C code does not check them either.
