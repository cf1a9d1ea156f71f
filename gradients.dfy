/**
 What `AffineLayer::backward` computes is the exact gradient of its forward pass.

 Take any loss that, near the current point, is read off the layer's output through the
 upstream gradient `dout`: `L(out) = Σ_i Σ_j dout[i][j]·out[i][j]`. Because `x·w + b` is
 affine in each of `x`, `w` and `b` separately, moving one of them by a perturbation changes
 `L` by exactly the inner product of that perturbation with the matching gradient
 (`dx = dout·wᵗ`, `dw = xᵗ·dout`, `db = column sums of dout`), with no higher-order term.
 */
module Gradients {
  import opened Matrices
  import opened Layers

  /** The Frobenius inner product `Σ_i Σ_j a[i][j]·b[i][j]`. */
  function Frobenius(a: Matrix, b: Matrix): real
    requires SameShape(a, b)
  {
    if a == [] then 0.0 else Inner(a[0], b[0]) + Frobenius(a[1..], b[1..])
  }

  /** `m·u` for a matrix `m` whose rows have the length of `u`. */
  function MatVec(m: Matrix, u: Vector): (r: Vector)
    requires forall k :: 0 <= k < |m| ==> |m[k]| == |u|
  {
    seq(|m|, k requires 0 <= k < |m| => Inner(u, m[k]))
  }

  /** The outer product `u·vᵗ`. */
  function Outer(u: Vector, v: Vector): Matrix {
    seq(|u|, k requires 0 <= k < |u| => Scale(u[k], v))
  }

  /** The row `v` repeated `n` times: how a bias is broadcast over a batch of `n` rows. */
  function Rows(v: Vector, n: nat): Matrix {
    seq(n, _ => v)
  }

  // ----- linearity of the inner product -----

  lemma {:induction false} InnerComm(u: Vector, v: Vector)
    requires |u| == |v|
    ensures Inner(u, v) == Inner(v, u)
  {
    if u != [] {
      InnerComm(u[1..], v[1..]);
    }
  }

  lemma {:induction false} InnerAddRight(u: Vector, v: Vector, w: Vector)
    requires |u| == |v| == |w|
    ensures Inner(u, VecAdd(v, w)) == Inner(u, v) + Inner(u, w)
  {
    if u != [] {
      assert VecAdd(v, w)[1..] == VecAdd(v[1..], w[1..]);
      InnerAddRight(u[1..], v[1..], w[1..]);
    }
  }

  lemma InnerAddLeft(u: Vector, v: Vector, w: Vector)
    requires |u| == |v| == |w|
    ensures Inner(VecAdd(u, v), w) == Inner(u, w) + Inner(v, w)
  {
    InnerComm(VecAdd(u, v), w);
    InnerAddRight(w, u, v);
    InnerComm(u, w);
    InnerComm(v, w);
  }

  lemma {:induction false} InnerScaleRight(u: Vector, c: real, v: Vector)
    requires |u| == |v|
    ensures Inner(u, Scale(c, v)) == c * Inner(u, v)
  {
    if u != [] {
      assert forall k :: 0 <= k < |v| - 1 ==> Scale(c, v)[1..][k] == Scale(c, v[1..])[k];
      assert Scale(c, v)[1..] == Scale(c, v[1..]);
      InnerScaleRight(u[1..], c, v[1..]);
    }
  }

  lemma InnerScaleLeft(c: real, u: Vector, v: Vector)
    requires |u| == |v|
    ensures Inner(Scale(c, u), v) == c * Inner(u, v)
  {
    var su := Scale(c, u);
    InnerComm(su, v);
    InnerScaleRight(v, c, u);
    InnerComm(u, v);
    assert Inner(su, v) == Inner(v, su) == c * Inner(v, u);
  }

  lemma {:induction false} InnerZeroLeft(u: Vector, v: Vector)
    requires |u| == |v|
    requires forall k :: 0 <= k < |u| ==> u[k] == 0.0
    ensures Inner(u, v) == 0.0
  {
    if u != [] {
      InnerZeroLeft(u[1..], v[1..]);
    }
  }

  // ----- the Frobenius inner product -----

  lemma {:induction false} FrobeniusAddRight(d: Matrix, p: Matrix, q: Matrix)
    requires SameShape(d, p) && SameShape(p, q)
    ensures SameShape(d, MatAdd(p, q))
    ensures Frobenius(d, MatAdd(p, q)) == Frobenius(d, p) + Frobenius(d, q)
  {
    if d != [] {
      assert MatAdd(p, q)[1..] == MatAdd(p[1..], q[1..]);
      InnerAddRight(d[0], p[0], q[0]);
      FrobeniusAddRight(d[1..], p[1..], q[1..]);
    }
  }

  lemma {:induction false} FrobeniusAddLeft(p: Matrix, q: Matrix, d: Matrix)
    requires SameShape(p, q) && SameShape(q, d)
    ensures SameShape(MatAdd(p, q), d)
    ensures Frobenius(MatAdd(p, q), d) == Frobenius(p, d) + Frobenius(q, d)
  {
    if p != [] {
      assert MatAdd(p, q)[1..] == MatAdd(p[1..], q[1..]);
      InnerAddLeft(p[0], q[0], d[0]);
      FrobeniusAddLeft(p[1..], q[1..], d[1..]);
    }
  }

  lemma {:induction false} FrobeniusZeroLeft(z: Matrix, d: Matrix)
    requires SameShape(z, d)
    requires forall i, j :: 0 <= i < |z| && 0 <= j < |z[i]| ==> z[i][j] == 0.0
    ensures Frobenius(z, d) == 0.0
  {
    if z != [] {
      InnerZeroLeft(z[0], d[0]);
      FrobeniusZeroLeft(z[1..], d[1..]);
    }
  }

  // ----- adjoints of the products the layer uses -----

  /** Row form of the adjoint identity: `⟨u, v·W⟩ = ⟨W·u, v⟩`. */
  lemma {:induction false} VecMatAdjoint(u: Vector, v: Vector, w: Matrix, m: nat)
    requires |v| == |w| && IsMatrix(w, |w|, m) && |u| == m
    ensures Inner(u, VecMat(v, w, m)) == Inner(MatVec(w, u), v)
  {
    if v == [] {
      InnerComm(u, Zeros(m));
      InnerZeroLeft(Zeros(m), u);
    } else {
      var rest := VecMat(v[1..], w[1..], m);
      assert VecMat(v, w, m) == VecAdd(Scale(v[0], w[0]), rest);
      InnerAddRight(u, Scale(v[0], w[0]), rest);
      InnerScaleRight(u, v[0], w[0]);
      VecMatAdjoint(u, v[1..], w[1..], m);
      assert MatVec(w, u)[1..] == MatVec(w[1..], u);
    }
  }

  /** Multiplying a row by `wᵗ` is the same as applying `w` to it. */
  lemma VecMatTranspose(u: Vector, w: Matrix, m: nat)
    requires IsMatrix(w, |w|, m) && |u| == m
    ensures VecMat(u, Transpose(w, m), |w|) == MatVec(w, u)
  {
    var t := Transpose(w, m);
    forall k | 0 <= k < |w|
      ensures VecMat(u, t, |w|)[k] == MatVec(w, u)[k]
    {
      assert Column(t, k) == w[k];
    }
  }

  /** `⟨d, δ·w⟩ = ⟨d·wᵗ, δ⟩`. */
  lemma {:induction false} DotRightAdjoint(d: Matrix, delta: Matrix, w: Matrix, m: nat)
    requires IsMatrix(w, |w|, m) && IsMatrix(delta, |delta|, |w|) && IsMatrix(d, |delta|, m)
    ensures Frobenius(d, Dot(delta, w, m)) == Frobenius(Dot(d, Transpose(w, m), |w|), delta)
  {
    if d != [] {
      var t := Transpose(w, m);
      assert Dot(delta, w, m)[1..] == Dot(delta[1..], w, m);
      assert Dot(d, t, |w|)[1..] == Dot(d[1..], t, |w|);
      VecMatAdjoint(d[0], delta[0], w, m);
      VecMatTranspose(d[0], w, m);
      InnerComm(MatVec(w, d[0]), delta[0]);
      DotRightAdjoint(d[1..], delta[1..], w, m);
    }
  }

  /** `⟨u·vᵗ, δ⟩ = ⟨u, δ·v⟩`. */
  lemma {:induction false} FrobeniusOuter(u: Vector, v: Vector, delta: Matrix)
    requires IsMatrix(delta, |u|, |v|)
    ensures SameShape(Outer(u, v), delta)
    ensures Frobenius(Outer(u, v), delta) == Inner(u, MatVec(delta, v))
  {
    if u != [] {
      assert Outer(u, v)[1..] == Outer(u[1..], v);
      assert MatVec(delta, v)[1..] == MatVec(delta[1..], v);
      InnerScaleLeft(u[0], v, delta[0]);
      FrobeniusOuter(u[1..], v, delta[1..]);
    }
  }

  /** The rows of a batch contribute to `xᵗ·d` one outer product at a time. */
  lemma TransposeDotSplit(x: Matrix, d: Matrix, k: nat, m: nat)
    requires IsMatrix(x, |x|, k) && IsMatrix(d, |x|, m) && x != []
    ensures Dot(Transpose(x, k), d, m)
              == MatAdd(Outer(x[0], d[0]), Dot(Transpose(x[1..], k), d[1..], m))
  {
    var g := Dot(Transpose(x, k), d, m);
    var g' := Dot(Transpose(x[1..], k), d[1..], m);
    var s := MatAdd(Outer(x[0], d[0]), g');
    forall a | 0 <= a < k
      ensures g[a] == s[a]
    {
      forall j | 0 <= j < m
        ensures g[a][j] == s[a][j]
      {
        assert Transpose(x, k)[a] == Column(x, a);
        assert Transpose(x[1..], k)[a] == Column(x[1..], a);
        assert Column(x, a)[1..] == Column(x[1..], a);
        assert Column(d, j)[1..] == Column(d[1..], j);
      }
    }
  }

  /** `⟨d, x·δ⟩ = ⟨xᵗ·d, δ⟩`. */
  lemma {:induction false} DotLeftAdjoint(d: Matrix, x: Matrix, delta: Matrix, k: nat, m: nat)
    requires IsMatrix(x, |x|, k) && IsMatrix(delta, k, m) && IsMatrix(d, |x|, m)
    ensures Frobenius(d, Dot(x, delta, m)) == Frobenius(Dot(Transpose(x, k), d, m), delta)
  {
    var g := Dot(Transpose(x, k), d, m);
    if x == [] {
      forall a, j | 0 <= a < |g| && 0 <= j < |g[a]|
        ensures g[a][j] == 0.0
      {
        assert Transpose(x, k)[a] == [];
      }
      FrobeniusZeroLeft(g, delta);
    } else {
      var g' := Dot(Transpose(x[1..], k), d[1..], m);
      assert Dot(x, delta, m)[1..] == Dot(x[1..], delta, m);
      DotLeftAdjoint(d[1..], x[1..], delta, k, m);
      VecMatAdjoint(d[0], x[0], delta, m);
      InnerComm(MatVec(delta, d[0]), x[0]);
      FrobeniusOuter(x[0], d[0], delta);
      TransposeDotSplit(x, d, k, m);
      FrobeniusAddLeft(Outer(x[0], d[0]), g', delta);
    }
  }

  /** `⟨d, β broadcast over the rows⟩ = ⟨column sums of d, β⟩`. */
  lemma {:induction false} RowsAdjoint(d: Matrix, beta: Vector)
    requires IsMatrix(d, |d|, |beta|)
    ensures Frobenius(d, Rows(beta, |d|)) == Inner(ColumnSums(d, |beta|), beta)
  {
    if d == [] {
      InnerZeroLeft(Zeros(|beta|), beta);
    } else {
      assert Rows(beta, |d|)[1..] == Rows(beta, |d| - 1);
      RowsAdjoint(d[1..], beta);
      InnerAddLeft(d[0], ColumnSums(d[1..], |beta|), beta);
    }
  }

  // ----- the forward pass under a perturbation of one argument -----

  lemma AffineInputShift(x: Matrix, delta: Matrix, w: Matrix, b: Vector)
    requires IsMatrix(w, |w|, |b|) && IsMatrix(x, |x|, |w|) && IsMatrix(delta, |x|, |w|)
    ensures IsMatrix(MatAdd(x, delta), |x|, |w|)
    ensures Affine(MatAdd(x, delta), w, b) == MatAdd(Affine(x, w, b), Dot(delta, w, |b|))
  {
    var lhs := Affine(MatAdd(x, delta), w, b);
    var rhs := MatAdd(Affine(x, w, b), Dot(delta, w, |b|));
    forall i | 0 <= i < |x|
      ensures lhs[i] == rhs[i]
    {
      forall j | 0 <= j < |b|
        ensures lhs[i][j] == rhs[i][j]
      {
        InnerAddLeft(x[i], delta[i], Column(w, j));
      }
    }
  }

  lemma AffineWeightShift(x: Matrix, w: Matrix, delta: Matrix, b: Vector)
    requires IsMatrix(w, |w|, |b|) && IsMatrix(delta, |w|, |b|) && IsMatrix(x, |x|, |w|)
    ensures IsMatrix(MatAdd(w, delta), |w|, |b|)
    ensures Affine(x, MatAdd(w, delta), b) == MatAdd(Affine(x, w, b), Dot(x, delta, |b|))
  {
    var lhs := Affine(x, MatAdd(w, delta), b);
    var rhs := MatAdd(Affine(x, w, b), Dot(x, delta, |b|));
    forall i | 0 <= i < |x|
      ensures lhs[i] == rhs[i]
    {
      forall j | 0 <= j < |b|
        ensures lhs[i][j] == rhs[i][j]
      {
        assert Column(MatAdd(w, delta), j) == VecAdd(Column(w, j), Column(delta, j));
        InnerAddRight(x[i], Column(w, j), Column(delta, j));
      }
    }
  }

  lemma AffineBiasShift(x: Matrix, w: Matrix, b: Vector, beta: Vector)
    requires IsMatrix(w, |w|, |b|) && IsMatrix(x, |x|, |w|) && |beta| == |b|
    ensures Affine(x, w, VecAdd(b, beta)) == MatAdd(Affine(x, w, b), Rows(beta, |x|))
  {
    var lhs := Affine(x, w, VecAdd(b, beta));
    var rhs := MatAdd(Affine(x, w, b), Rows(beta, |x|));
    forall i | 0 <= i < |x|
      ensures lhs[i] == rhs[i]
    {
    }
  }

  // ----- the three gradients of AffineLayer::backward -----

  /** `dx = dout·wᵗ` is the exact gradient with respect to the input. */
  lemma InputGradientIsExact(x: Matrix, delta: Matrix, w: Matrix, b: Vector, dout: Matrix)
    requires IsMatrix(w, |w|, |b|) && IsMatrix(x, |x|, |w|)
    requires IsMatrix(delta, |x|, |w|) && IsMatrix(dout, |x|, |b|)
    ensures IsMatrix(MatAdd(x, delta), |x|, |w|)
    ensures Frobenius(dout, Affine(MatAdd(x, delta), w, b)) - Frobenius(dout, Affine(x, w, b))
              == Frobenius(Dot(dout, Transpose(w, |b|), |w|), delta)
  {
    AffineInputShift(x, delta, w, b);
    FrobeniusAddRight(dout, Affine(x, w, b), Dot(delta, w, |b|));
    DotRightAdjoint(dout, delta, w, |b|);
  }

  /** `dw = xᵗ·dout` is the exact gradient with respect to the weights. */
  lemma WeightGradientIsExact(x: Matrix, w: Matrix, delta: Matrix, b: Vector, dout: Matrix)
    requires IsMatrix(w, |w|, |b|) && IsMatrix(x, |x|, |w|)
    requires IsMatrix(delta, |w|, |b|) && IsMatrix(dout, |x|, |b|)
    ensures IsMatrix(MatAdd(w, delta), |w|, |b|)
    ensures Frobenius(dout, Affine(x, MatAdd(w, delta), b)) - Frobenius(dout, Affine(x, w, b))
              == Frobenius(Dot(Transpose(x, |w|), dout, |b|), delta)
  {
    AffineWeightShift(x, w, delta, b);
    FrobeniusAddRight(dout, Affine(x, w, b), Dot(x, delta, |b|));
    DotLeftAdjoint(dout, x, delta, |w|, |b|);
  }

  /** `db = column sums of dout` is the exact gradient with respect to the bias. */
  lemma BiasGradientIsExact(x: Matrix, w: Matrix, b: Vector, beta: Vector, dout: Matrix)
    requires IsMatrix(w, |w|, |b|) && IsMatrix(x, |x|, |w|)
    requires |beta| == |b| && IsMatrix(dout, |x|, |b|)
    ensures Frobenius(dout, Affine(x, w, VecAdd(b, beta))) - Frobenius(dout, Affine(x, w, b))
              == Inner(ColumnSums(dout, |b|), beta)
  {
    AffineBiasShift(x, w, b, beta);
    FrobeniusAddRight(dout, Affine(x, w, b), Rows(beta, |x|));
    RowsAdjoint(dout, beta);
  }

}
