/**
 The numeric primitives of src/functions.rs that the loss layer calls. Their bodies
 (exponentials, logarithms, an epsilon) are outside this model: the layer receives them as
 function values, and all it relies on is that they keep the shape of their input.
 */
module Functions {
  import opened Matrices

  /** The shape contract assumed of `softmax`: an `r × c` input gives an `r × c` output. */
  ghost predicate PreservesShape(f: Matrix -> Matrix) {
    forall m: Matrix, c: nat :: IsMatrix(m, |m|, c) ==> IsMatrix(f(m), |m|, c)
  }

  /** The shape contract assumed of `cross_entropy_err`: two `r × c` inputs give an `r × c` output. */
  ghost predicate PreservesShape2(f: (Matrix, Matrix) -> Matrix) {
    forall y: Matrix, t: Matrix, c: nat :: IsMatrix(y, |t|, c) && IsMatrix(t, |t|, c) ==> IsMatrix(f(y, t), |t|, c)
  }

}
