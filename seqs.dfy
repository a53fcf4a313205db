/** Row-major flattening of a grid, as the nested `for i ... for j ...` loops of the source produce it. */
module Seqs {

  /** The position of cell (i, j) in a row-major enumeration of a grid with `nCols` columns. */
  function RowMajorIndex(i: nat, j: nat, nCols: nat): nat {
    i * nCols + j
  }

  /** The rows of a grid concatenated in order. */
  function Flatten<T>(rows: seq<seq<T>>): seq<T> {
    if rows == [] then [] else Flatten(rows[..|rows| - 1]) + rows[|rows| - 1]
  }

  lemma FlattenSnoc<T>(rows: seq<seq<T>>, i: nat)
    requires i < |rows|
    ensures Flatten(rows[..i + 1]) == Flatten(rows[..i]) + rows[i]
  {
    assert rows[..i + 1][..i] == rows[..i];
  }

  lemma MulStep(i: nat, n: nat)
    ensures (i + 1) * n == i * n + n
  {
  }

  lemma MulMonotone(a: nat, b: nat, n: nat)
    requires a <= b
    ensures a * n <= b * n
  {
  }

  lemma {:induction false} FlattenLength<T>(rows: seq<seq<T>>, n: nat)
    requires forall r :: 0 <= r < |rows| ==> |rows[r]| == n
    ensures |Flatten(rows)| == |rows| * n
    decreases |rows|
  {
    if rows != [] {
      FlattenLength(rows[..|rows| - 1], n);
      MulStep(|rows| - 1, n);
    }
  }

  /** In a grid whose rows all have `n` entries, cell (i, j) sits at `RowMajorIndex(i, j, n)` of the flattening. */
  lemma {:induction false} FlattenAt<T>(rows: seq<seq<T>>, n: nat, i: nat, j: nat)
    requires forall r :: 0 <= r < |rows| ==> |rows[r]| == n
    requires i < |rows| && j < n
    ensures |Flatten(rows)| == |rows| * n
    ensures RowMajorIndex(i, j, n) < |Flatten(rows)|
    ensures Flatten(rows)[RowMajorIndex(i, j, n)] == rows[i][j]
    decreases |rows|
  {
    var last := |rows| - 1;
    var front := rows[..last];
    FlattenLength(rows, n);
    FlattenLength(front, n);
    MulStep(i, n);
    MulMonotone(i + 1, |rows|, n);
    if i < last {
      FlattenAt(front, n, i, j);
    } else {
      assert |Flatten(front)| == i * n;
    }
  }
}
