/** Shapes shared by the box loss and the encoder: tensors of rank two are
    sequences of rows. */
module Tensors {

  /** Every row of `m` has `cols` entries. */
  predicate Rect<T>(m: seq<seq<T>>, cols: nat) {
    forall i :: 0 <= i < |m| ==> |m[i]| == cols
  }

  /** `m` has shape (rows x cols). */
  predicate IsMatrix<T>(m: seq<seq<T>>, rows: nat, cols: nat) {
    |m| == rows && Rect(m, cols)
  }

  /** `reshape(-1)` of a rank-two tensor: the rows one after another. */
  function Flatten<T>(xss: seq<seq<T>>): seq<T> {
    if |xss| == 0 then [] else xss[0] + Flatten(xss[1..])
  }
}
