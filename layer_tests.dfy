/**
 The chained scenarios of src/layers.rs's tests, and one forward/backward round of each array
 layer, as methods whose postconditions state the values the round produces. Over exact reals
 the tests' approximate comparisons are equalities.
 */
module LayerTests {
  import opened Matrices
  import opened Functions
  import opened Layers
  import opened Gradients

  /** The `mul` test: `100 · 2 · 1.1` through two product nodes, then back from `1.0`. */
  method MulChain() returns (ans: real, da: real, dan: real, dt: real)
    ensures ans == 220.0
    ensures da == 2.2 && dan == 110.0 && dt == 200.0
  {
    var a := new MulLayer();
    var b := new MulLayer();
    var tmp := a.Forward(100.0, 2.0);
    ans := b.Forward(tmp, 1.1);
    var bGrads := b.Backward(1.0);
    dt := bGrads.1;
    var aGrads := a.Backward(bGrads.0);
    da, dan := aGrads.0, aGrads.1;
  }

  /** The `add_and_mul` test: `(100 · 2 + 150 · 3) · 1.1`, then back from `1.0`. */
  method AddAndMulChain() returns (p: real, dan: real, da: real, dor: real, don: real, dt: real)
    ensures p == 715.0
    ensures dan == 110.0 && da == 2.2 && dor == 3.3 && don == 165.0 && dt == 650.0
  {
    var al := new MulLayer();
    var ol := new MulLayer();
    var tl := new MulLayer();
    var ap := al.Forward(100.0, 2.0);
    var op := ol.Forward(150.0, 3.0);
    var allP := AddForward(ap, op);
    p := tl.Forward(allP, 1.1);
    var tGrads := tl.Backward(1.0);
    dt := tGrads.1;
    var addGrads := AddBackward(tGrads.0);
    var oGrads := ol.Backward(addGrads.1);
    dor, don := oGrads.0, oGrads.1;
    var aGrads := al.Backward(addGrads.0);
    da, dan := aGrads.0, aGrads.1;
  }

  /**
   A fresh affine layer run forward on `x` and backward on `dout`: the gradients it stores
   have the shapes of `w` and `b`, and `dx`, `dw` and `db` are the exact gradients of
   `Σ dout ⊙ out` with respect to `x`, `w` and `b`, checked against arbitrary perturbations
   `dX`, `dW` and `dB` of each.
   */
  method AffineRound(w: Matrix, b: Vector, x: Matrix, dout: Matrix, dX: Matrix, dW: Matrix, dB: Vector)
    returns (out: Matrix, dx: Matrix, dw: Matrix, db: Vector)
    requires IsMatrix(w, |w|, |b|) && IsMatrix(x, |x|, |w|) && IsMatrix(dout, |x|, |b|)
    requires IsMatrix(dX, |x|, |w|) && IsMatrix(dW, |w|, |b|) && |dB| == |b|
    ensures out == Affine(x, w, b)
    ensures IsMatrix(dx, |x|, |w|) && IsMatrix(dw, |w|, |b|) && |db| == |b|
    ensures IsMatrix(MatAdd(x, dX), |x|, |w|) && IsMatrix(MatAdd(w, dW), |w|, |b|)
    ensures Frobenius(dout, Affine(MatAdd(x, dX), w, b)) - Frobenius(dout, out) == Frobenius(dx, dX)
    ensures Frobenius(dout, Affine(x, MatAdd(w, dW), b)) - Frobenius(dout, out) == Frobenius(dw, dW)
    ensures Frobenius(dout, Affine(x, w, VecAdd(b, dB))) - Frobenius(dout, out) == Inner(db, dB)
  {
    var layer := new AffineLayer(w, b);
    out := layer.Forward(x);
    dx := layer.Backward(dout);
    dw, db := layer.dw.value, layer.db.value;
    InputGradientIsExact(x, dX, w, b, dout);
    WeightGradientIsExact(x, w, dW, b, dout);
    BiasGradientIsExact(x, w, b, dB, dout);
  }

  /**
   A fresh softmax-with-loss layer run forward on `(x, t)` and then backward: the loss is the
   cross-entropy of `softmax(x)` against `t`, and the gradient is `(softmax(x) - t) / rows(t)`.
   */
  method SoftMaxLossRound(softmax: Matrix -> Matrix, crossEntropyErr: (Matrix, Matrix) -> Matrix,
                          x: Matrix, t: Matrix)
    returns (loss: Matrix, dx: Matrix)
    requires PreservesShape(softmax) && PreservesShape2(crossEntropyErr)
    requires Rectangular(t) && IsMatrix(x, |t|, Cols(t))
    requires |t| > 0 && Cols(t) > 0
    ensures loss == crossEntropyErr(softmax(x), t)
    ensures IsMatrix(dx, |t|, Cols(t))
    ensures forall i, j :: 0 <= i < |t| && 0 <= j < Cols(t) ==>
              dx[i][j] == (softmax(x)[i][j] - t[i][j]) / (|t| as real)
  {
    var layer := new SoftMaxWithLossLayer(softmax, crossEntropyErr);
    loss := layer.Forward(x, t);
    dx := layer.Backward();
  }

}
