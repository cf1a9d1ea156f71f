# Layer units of a small back-propagation library, in Dafny

This project models the layer units of `src/layers.rs`. Each unit computes a forward
transformation and, given the upstream gradient, a backward transformation. The units are:

- `AffineLayer`. It keeps weights `w` and a bias `b`. `forward` caches its input `x` and
  returns `x·w + b`, with the bias added to every row. `backward(dout)` returns
  `dout·wᵗ` and stores `dw = xᵗ·dout` and `db` = the column sums of `dout`.
- `SoftMaxWithLossLayer`. It caches the target `t`, the softmax output `y` and the
  element-wise cross-entropy loss. `backward()` returns `(y − t) / rows(t)`.
- `AddLayer`. It is stateless: the sum forward, and `(dout, dout)` backward. Its two
  methods are the functions `Layers.AddForward` and `Layers.AddBackward`.
- `MulLayer`. It caches both operands. `backward(dout)` returns `(dout·y, dout·x)`.

Numbers are exact `real`s standing in for `f64`. A matrix is a sequence of rows
(`seq<seq<real>>`) and a vector is a `seq<real>`. The ndarray operations the layers use
(`dot`, `t()`, `sum_axis(Axis(0))`, the bias broadcast, element-wise `-` and `/`) are pure
functions in module `Matrices`. A sequence with no rows has no column count, so operations
that need one take it as an argument. Each stateful layer is a class. Its `Option` fields are
the source's cached state. An `unwrap` in `backward` becomes the precondition that the field
is present, and a shape mismatch that ndarray would panic on becomes a precondition too.

Files:

- `option.dfy`: the `Option` datatype.
- `matrices.dfy`: the array operations.
- `functions.dfy`: the shape contract assumed of `softmax` and `cross_entropy_err`.
- `layers.dfy`: the four units.
- `gradients.dfy`: the affine layer's backward pass is the exact gradient of its forward pass.
- `layer_tests.dfy`: the two test scenarios of `src/layers.rs`, plus one forward/backward
  round of each array layer.

The main results:

- Each gradient that `AffineLayer::backward` produces is exact. Take the loss
  `L(out) = Σ dout ⊙ out` and move `x`, `w` or `b` by any perturbation of the right shape.
  Then `L` changes by exactly the inner product of that perturbation with `dx`, `dw` or
  `db`. There is no higher-order term, because `x·w + b` is affine in each argument.
- The softmax-with-loss gradient is `(softmax(x) − t) / rows(t)`. Each of its rows and
  columns sums to the difference of the softmax mass and the target mass, divided by the
  batch size.
- The scalar nodes' gradients are the exact partial derivatives.
- The tests' chained values hold as equalities: 220, 2.2, 110 and 200; then 715, 110, 2.2,
  3.3, 165 and 650.

## Model

| member | source | states |
|---|---|---|
| `Matrices.Transpose` | src/layers.rs:33-34 | `t()` of an `r × c` matrix is `c × r`, and entry `[j][i]` is entry `[i][j]` of the input |
| `Matrices.VecMat` | src/layers.rs:30 | a row vector times a `k × c` matrix, built row by row: `c` entries, entry `j` is `Σ_k v[k]·m[k][j]` |
| `Matrices.Dot` | src/layers.rs:30 | `dot` of `n × k` and `k × c` matrices is `n × c`, and entry `[i][j]` is `Σ_k a[i][k]·b[k][j]` |
| `Matrices.ColumnSums` | src/layers.rs:35 | `sum_axis(Axis(0))`, accumulated row by row, has one entry per column, and entry `j` is the sum of column `j` |
| `Matrices.MatSub` | src/layers.rs:66 | the element-wise `y − t` keeps the shape of `y`, and entry `[i][j]` is `a[i][j] − b[i][j]` |
| `Matrices.MatDiv` | src/layers.rs:66 | the element-wise division by `s` keeps the shape, and each entry times `s` gives back the input's entry |
| `Matrices.AddRow` | src/layers.rs:30 | adding the bias broadcasts it: entry `[i][j]` is `m[i][j] + b[j]`, and the shape is kept |
| `Layers.Affine` | src/layers.rs:30 | the value `forward` returns is `rows(x) × cols(w)`, and entry `[i][j]` is `Σ_k x[i][k]·w[k][j] + b[j]` |
| `Layers.AffineLayer.constructor` | src/layers.rs:19-27 | `new` stores `w` and `b` unchanged; `x`, `dw` and `db` are absent |
| `Layers.AffineLayer.Forward` | src/layers.rs:28-31 | needs `cols(x) == rows(w)` and `len(b) == cols(w)`; caches `x`; returns `x·w + b` entry by entry; leaves `w`, `b`, `dw` and `db` unchanged; keeps the shape invariant |
| `Layers.AffineLayer.Backward` | src/layers.rs:32-37 | needs a cached `x` and `dout` of shape `rows(x) × cols(w)`; returns `dout·wᵗ` of shape `rows(dout) × rows(w)`; stores `dw = xᵗ·dout` with the shape of `w` and `db` = column sums of `dout` with the length of `b`; leaves `w`, `b` and `x` unchanged |
| `Layers.SoftMaxWithLossLayer.constructor` | src/layers.rs:48-54 | `new` leaves `loss`, `y` and `t` absent |
| `Layers.SoftMaxWithLossLayer.Forward` | src/layers.rs:55-63 | needs `shape(x) == shape(t)` and at least one row and one column, since `softmax` unwraps the maximum of its input (src/functions.rs:6) and panics on an empty array; overwrites `t`, sets `y = softmax(x)` and `loss = cross_entropy_err(y, t)`; returns the stored loss, which has the shape of `t` |
| `Layers.SoftMaxWithLossLayer.Backward` | src/layers.rs:64-67 | needs a prior forward; reads the layer without changing it; returns a matrix of the shape of `t` whose entry `[i][j]` is `(y[i][j] − t[i][j]) / rows(t)` |
| `Layers.LossGradientRowSum` | src/layers.rs:64-67 | each row of the backward result sums to `(Σ y[i] − Σ t[i]) / rows(t)`; this is zero when the two rows have equal mass |
| `Layers.LossGradientColumnSum` | src/layers.rs:64-67 | each column of the backward result sums to `(Σ_i y[i][j] − Σ_i t[i][j]) / rows(t)` |
| `Layers.AddForward` | src/layers.rs:76-78 | `forward(x, y)` is the sum: taking away either addend gives back the other |
| `Layers.AddBackward` | src/layers.rs:79-81 | `backward(dout)` hands `dout` unchanged to both addends |
| `Layers.AddBackwardIsGradient` | src/layers.rs:75-82 | moving either addend by `h` moves `dout·(x + y)` by exactly the matching component of `backward(dout)` times `h` |
| `Layers.MulLayer.constructor` | src/layers.rs:90-92 | `new` leaves both operands absent |
| `Layers.MulLayer.Forward` | src/layers.rs:93-97 | overwrites both cached operands and returns their product |
| `Layers.MulLayer.Backward` | src/layers.rs:98-100 | needs both cached operands; returns the swapped-operand pair `(dout·y, dout·x)` without changing the layer |
| `Layers.MulBackwardIsGradient` | src/layers.rs:98-100 | `backward(dout)` on the cached operands gives the exact partial derivatives of `dout·x·y`: `(dout·y, dout·x)` |
| `Gradients.InputGradientIsExact` | src/layers.rs:33 | for every perturbation `δ` of `x`: `L(forward(x + δ)) − L(forward(x)) = ⟨dout·wᵗ, δ⟩` |
| `Gradients.WeightGradientIsExact` | src/layers.rs:34 | for every perturbation `Δ` of `w`: the change of `L` is `⟨xᵗ·dout, Δ⟩` |
| `Gradients.BiasGradientIsExact` | src/layers.rs:35 | for every perturbation `β` of `b`: the change of `L` is `⟨column sums of dout, β⟩` |
| `LayerTests.MulChain` | src/layers.rs:108-121 | the `mul` test holds exactly: 220, then `da = 2.2`, `dan = 110` and `dt = 200` |
| `LayerTests.AddAndMulChain` | src/layers.rs:123-143 | the `add_and_mul` test holds exactly: 715, then `dan = 110`, `da = 2.2`, `dor = 3.3`, `don = 165` and `dt = 650` |
| `LayerTests.AffineRound` | src/layers.rs:19-37 | `new`, then `forward`, then `backward`: `dw` and `db` have the shapes of `w` and `b`, and `dx`, `dw` and `db` are the exact gradients for the given perturbations |
| `LayerTests.SoftMaxLossRound` | src/layers.rs:48-67 | `new`, then `forward(x, t)` on a non-empty target, then `backward()`: the loss is `cross_entropy_err(softmax(x), t)` and the gradient is `(softmax(x) − t) / rows(t)` entry by entry |

## Left out

- The bodies of `softmax`, `sigmoid` and `cross_entropy_err` (src/functions.rs:5-18). They
  use `exp`, `ln` and the constant `EPS`, which exact reals cannot express. The loss layer
  takes `softmax` and `cross_entropy_err` as function values. `Valid()` assumes only that
  they keep the shape of their input. `sigmoid` is not used by the layers.
  Note that the source's `softmax` normalises each column (`sum_axis(Axis(0))`), not each
  row. This is why both the row sum and the column sum of the loss gradient are stated in
  terms of `y`.
- `Layers.SoftMaxWithLossLayer.constructor` takes the two primitives as arguments. The
  source's `new()` takes none, because it calls the global functions.
- `f64` rounding and the tests' `assert_approx_eq!(…, EPS)` tolerances. Over exact reals the
  tested values are equalities. `crate::constants` is not part of this model.
- The `Layer` trait (src/layers.rs:4-7). It is declared but never implemented.
- The generic parameters of `AddLayer` and `MulLayer`, since only `f64` is used. Also the
  unused `x` and `y` fields of `AddLayer`.
- Panics. A shape mismatch that ndarray cannot broadcast, an `unwrap` of an absent cache, or
  an empty batch handed to `softmax` is a precondition, not a modelled failure. The source
  panics on these rather than returning an error value.
- `Layers.SoftMaxWithLossLayer.Forward` requires `x` and `t` to have equal shapes. This rules
  out inputs that ndarray would broadcast: the product `t * ln(y + EPS)` in
  `cross_entropy_err` (src/functions.rs:17) accepts a `1 × m` or `n × 1` `softmax(x)` against
  an `n × m` target, and so does `y - t` in `backward` (src/layers.rs:66). The model covers
  only the equal-shape use.
- ndarray's broadcasting of a length-1 bias. `Layers.AffineLayer.Forward` requires the bias
  length to equal the number of weight columns.
- The type of the stored loss. The source declares it `Option<Array1<f64>>`, but it assigns
  the two-dimensional result of `cross_entropy_err`. The model stores and returns a matrix of
  the shape of `t`.
- Rust's move semantics for the arrays passed to `forward`. Sequences are values here, so a
  cached input cannot be aliased.
- The derived `Clone`, `Debug` and `PartialEq` implementations.
