/**
 The layer units of src/layers.rs: the affine layer, the fused softmax-with-loss layer, and the
 scalar add and multiply nodes. A cached `Option` field that the source unwraps in `backward`
 is a precondition of `Backward` here.
 */
module Layers {
  import opened Optional
  import opened Matrices
  import opened Functions

  /** What `AffineLayer::forward` returns: `x·w + b`, with `b` added to every row. */
  function Affine(x: Matrix, w: Matrix, b: Vector): (r: Matrix)
    requires IsMatrix(w, |w|, |b|) && IsMatrix(x, |x|, |w|)
    ensures IsMatrix(r, |x|, |b|)
    ensures forall i, j :: 0 <= i < |x| && 0 <= j < |b| ==> r[i][j] == Inner(x[i], Column(w, j)) + b[j]
  {
    AddRow(Dot(x, w, |b|), b)
  }

  /** A linear layer with weights `w` (`k × m`) and bias `b` (length `m`). */
  class AffineLayer {
    var w: Matrix
    var b: Vector
    /** The input of the last `Forward`. */
    var x: Option<Matrix>
    /** The gradients computed by the last `Backward`. */
    var dw: Option<Matrix>
    var db: Option<Vector>

    /**
     Once an input is cached, `w` is `k × m` with `m == |b|` and the input has `k` columns;
     stored gradients have the shapes of `w` and `b`.
     */
    ghost predicate Valid()
      reads this
    {
      && (x.Some? ==> IsMatrix(w, |w|, |b|) && IsMatrix(x.value, |x.value|, |w|))
      && (dw.Some? ==> IsMatrix(dw.value, |w|, |b|))
      && (db.Some? ==> |db.value| == |b|)
    }

    constructor (w: Matrix, b: Vector)
      ensures Valid()
      ensures this.w == w && this.b == b
      ensures x == None && dw == None && db == None
    {
      this.w := w;
      this.b := b;
      x := None;
      dw := None;
      db := None;
    }

    method Forward(x: Matrix) returns (out: Matrix)
      requires Valid()
      requires IsMatrix(w, |w|, |b|) && IsMatrix(x, |x|, |w|)
      modifies this
      ensures Valid()
      ensures this.x == Some(x)
      ensures w == old(w) && b == old(b) && dw == old(dw) && db == old(db)
      ensures out == Affine(x, w, b)
      ensures IsMatrix(out, |x|, |b|)
      ensures forall i, j :: 0 <= i < |x| && 0 <= j < |b| ==> out[i][j] == Inner(x[i], Column(w, j)) + b[j]
    {
      this.x := Some(x);
      out := Affine(x, w, b);
    }

    method Backward(dout: Matrix) returns (dx: Matrix)
      requires Valid() && x.Some?
      requires IsMatrix(dout, |x.value|, |b|)
      modifies this
      ensures Valid()
      ensures w == old(w) && b == old(b) && x == old(x)
      ensures dx == Dot(dout, Transpose(w, |b|), |w|)
      ensures IsMatrix(dx, |dout|, |w|)
      ensures dw == Some(Dot(Transpose(x.value, |w|), dout, |b|))
      ensures IsMatrix(dw.value, |w|, |b|)
      ensures db == Some(ColumnSums(dout, |b|))
      ensures |db.value| == |b|
    {
      dx := Dot(dout, Transpose(w, |b|), |w|);
      dw := Some(Dot(Transpose(x.value, |w|), dout, |b|));
      db := Some(ColumnSums(dout, |b|));
    }
  }

  /**
   Softmax followed by cross-entropy loss, with the two numeric primitives supplied as
   function values.
   */
  class SoftMaxWithLossLayer {
    const softmax: Matrix -> Matrix
    const crossEntropyErr: (Matrix, Matrix) -> Matrix
    /** The element-wise loss, the softmax output and the target of the last `Forward`. */
    var loss: Option<Matrix>
    var y: Option<Matrix>
    var t: Option<Matrix>

    /** A target and a softmax output of the same shape are cached: `Backward` can run. */
    ghost predicate Ready()
      reads this
    {
      && y.Some? && t.Some?
      && Rectangular(t.value)
      && IsMatrix(y.value, |t.value|, Cols(t.value))
    }

    /** The three caches are set together, and share the shape of the target. */
    ghost predicate Valid()
      reads this
    {
      && PreservesShape(softmax)
      && PreservesShape2(crossEntropyErr)
      && y.Some? == t.Some? && loss.Some? == t.Some?
      && (t.Some? ==> Ready() && IsMatrix(loss.value, |t.value|, Cols(t.value)))
    }

    constructor (softmax: Matrix -> Matrix, crossEntropyErr: (Matrix, Matrix) -> Matrix)
      requires PreservesShape(softmax) && PreservesShape2(crossEntropyErr)
      ensures Valid()
      ensures this.softmax == softmax && this.crossEntropyErr == crossEntropyErr
      ensures loss == None && y == None && t == None
    {
      this.softmax := softmax;
      this.crossEntropyErr := crossEntropyErr;
      loss := None;
      y := None;
      t := None;
    }

    method Forward(x: Matrix, t: Matrix) returns (out: Matrix)
      requires Valid()
      requires Rectangular(t) && IsMatrix(x, |t|, Cols(t))
      requires |t| > 0 && Cols(t) > 0
      modifies this
      ensures Valid() && Ready()
      ensures this.t == Some(t)
      ensures y == Some(softmax(x))
      ensures loss == Some(crossEntropyErr(softmax(x), t))
      ensures out == loss.value
      ensures IsMatrix(out, |t|, Cols(t))
    {
      this.t := Some(t);
      y := Some(softmax(x));
      loss := Some(crossEntropyErr(y.value, this.t.value));
      out := loss.value;
    }

    /** The gradient of the loss with respect to the layer's input, averaged over the batch. */
    function Backward(): (dx: Matrix)
      reads this
      requires Ready()
      ensures IsMatrix(dx, |t.value|, Cols(t.value))
      ensures forall i, j :: 0 <= i < |t.value| && 0 <= j < Cols(t.value) ==>
                dx[i][j] == (y.value[i][j] - t.value[i][j]) / (|t.value| as real)
    {
      var batchSize := |t.value| as real;
      MatDiv(MatSub(y.value, t.value), batchSize)
    }
  }

  /** Summing `(a[k] - b[k]) / s` is dividing the difference of the two sums by `s`. */
  lemma {:induction false} SumOfScaledDifference(r: Vector, a: Vector, b: Vector, s: real)
    requires |r| == |a| == |b| && s != 0.0
    requires forall k :: 0 <= k < |r| ==> r[k] == (a[k] - b[k]) / s
    ensures Sum(r) == (Sum(a) - Sum(b)) / s
  {
    if r != [] {
      SumOfScaledDifference(r[1..], a[1..], b[1..], s);
    }
  }

  /**
   Each sample's gradient sums to that sample's softmax mass minus its target mass, over
   the batch size; it sums to zero whenever both rows are distributions of equal mass.
   */
  lemma LossGradientRowSum(l: SoftMaxWithLossLayer, i: nat)
    requires l.Ready() && i < |l.t.value|
    ensures Sum(l.Backward()[i]) == (Sum(l.y.value[i]) - Sum(l.t.value[i])) / (|l.t.value| as real)
  {
    SumOfScaledDifference(l.Backward()[i], l.y.value[i], l.t.value[i], |l.t.value| as real);
  }

  /**
   Each class column of the gradient sums to the column's softmax mass minus its target
   mass, over the batch size.
   */
  lemma LossGradientColumnSum(l: SoftMaxWithLossLayer, j: nat)
    requires l.Ready() && j < Cols(l.t.value)
    ensures Sum(Column(l.Backward(), j))
              == (Sum(Column(l.y.value, j)) - Sum(Column(l.t.value, j))) / (|l.t.value| as real)
  {
    var t := l.t.value;
    if t != [] {
      SumOfScaledDifference(Column(l.Backward(), j), Column(l.y.value, j), Column(t, j), |t| as real);
    }
  }

  /** `AddLayer::forward`. */
  function AddForward(x: real, y: real): (r: real)
    ensures r - y == x && r - x == y
  {
    x + y
  }

  /** `AddLayer::backward`: the upstream gradient goes unchanged to both addends. */
  function AddBackward(dout: real): (r: (real, real))
    ensures r.0 == dout && r.1 == dout
  {
    (dout, dout)
  }

  /**
   Each gradient `AddBackward` hands out is exact: moving one addend by `h` moves the
   output by `h`, so the loss moves by `dout·h`.
   */
  lemma AddBackwardIsGradient(x: real, y: real, dout: real, h: real)
    ensures dout * (AddForward(x + h, y) - AddForward(x, y)) == AddBackward(dout).0 * h
    ensures dout * (AddForward(x, y + h) - AddForward(x, y)) == AddBackward(dout).1 * h
  {
  }

  /** A product node that caches both operands of its last `Forward`. */
  class MulLayer {
    var x: Option<real>
    var y: Option<real>

    constructor ()
      ensures x == None && y == None
    {
      x := None;
      y := None;
    }

    method Forward(x: real, y: real) returns (out: real)
      modifies this
      ensures this.x == Some(x) && this.y == Some(y)
      ensures out == x * y
    {
      this.x := Some(x);
      this.y := Some(y);
      out := x * y;
    }

    /** The swapped-operand rule: `(dout·y, dout·x)`. */
    function Backward(dout: real): (r: (real, real))
      reads this
      requires x.Some? && y.Some?
      ensures r.0 == dout * y.value && r.1 == dout * x.value
    {
      (dout * y.value, dout * x.value)
    }
  }

  /**
   `MulLayer::backward` returns the exact partial derivatives of the product at the cached
   operands: since `x·y` is linear in each operand, moving one of them by `h` moves the
   loss by exactly the gradient times `h`.
   */
  lemma MulBackwardIsGradient(l: MulLayer, dout: real, h: real)
    requires l.x.Some? && l.y.Some?
    ensures dout * ((l.x.value + h) * l.y.value - l.x.value * l.y.value) == l.Backward(dout).0 * h
    ensures dout * (l.x.value * (l.y.value + h) - l.x.value * l.y.value) == l.Backward(dout).1 * h
  {
  }

}
