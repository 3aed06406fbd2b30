/** Row-major flat buffers and their two-dimensional views. A buffer of shape
    [rows, width] stores cell (b, i) at offset b * width + i. */
module Tensors {
  import opened Wrappers
  import opened Errors

  /** Every row of `rows` has exactly `width` entries. */
  predicate Rectangular<T>(rows: seq<seq<T>>, width: nat) {
    forall b :: 0 <= b < |rows| ==> |rows[b]| == width
  }

  /** Cell (b, i) of a [rows, width] buffer lies inside the buffer. */
  lemma RowOffsetBound(b: nat, i: nat, rows: nat, width: nat)
    requires b < rows && i < width
    ensures b * width + i < rows * width
  {
    assert (b + 1) * width <= rows * width;
  }

  /** Concatenation of the rows, first row first. */
  function Flatten<T>(rows: seq<seq<T>>): seq<T> {
    if |rows| == 0 then [] else Flatten(rows[..|rows| - 1]) + rows[|rows| - 1]
  }

  /** Flattening a rectangular [n, width] matrix gives n * width cells. */
  lemma {:induction false} FlattenLength<T>(rows: seq<seq<T>>, width: nat)
    requires Rectangular(rows, width)
    ensures |Flatten(rows)| == |rows| * width
  {
    if |rows| > 0 {
      var n := |rows| - 1;
      FlattenLength(rows[..n], width);
      assert |Flatten(rows)| == n * width + width;
    }
  }

  /** Cell (b, i) of the flattened matrix, at offset b * width + i, is rows[b][i]. */
  lemma {:induction false} FlattenCell<T>(rows: seq<seq<T>>, width: nat, b: nat, i: nat)
    requires Rectangular(rows, width)
    requires b < |rows| && i < width
    ensures b * width + i < |Flatten(rows)|
    ensures Flatten(rows)[b * width + i] == rows[b][i]
  {
    var n := |rows| - 1;
    var front := rows[..n];
    FlattenLength(rows, width);
    FlattenLength(front, width);
    RowOffsetBound(b, i, |rows|, width);
    if b < n {
      FlattenCell(front, width, b, i);
      RowOffsetBound(b, i, n, width);
    } else {
      assert b * width + i == |Flatten(front)| + i;
    }
  }

  /** Flattening one more row appends that row. */
  lemma FlattenSnoc<T>(rows: seq<seq<T>>, k: nat)
    requires k < |rows|
    ensures Flatten(rows[..k + 1]) == Flatten(rows[..k]) + rows[k]
  {
    assert rows[..k + 1][..k] == rows[..k];
  }

  /** The `batchSize` consecutive rows of `width` cells of a flat buffer, in
      buffer order; each row is a copy of its slice of the buffer. */
  function Rows<T>(flat: seq<T>, batchSize: nat, width: nat): seq<seq<T>>
    requires |flat| == batchSize * width
  {
    if batchSize == 0 then []
    else
      var start := |flat| - width;
      assert start == (batchSize - 1) * width;
      Rows(flat[..start], batchSize - 1, width) + [flat[start..]]
  }

  /** Rows has the requested shape and flattens back to the buffer. */
  lemma {:induction false} RowsInvertFlatten<T>(flat: seq<T>, batchSize: nat, width: nat)
    requires |flat| == batchSize * width
    ensures |Rows(flat, batchSize, width)| == batchSize
    ensures Rectangular(Rows(flat, batchSize, width), width)
    ensures Flatten(Rows(flat, batchSize, width)) == flat
  {
    if batchSize > 0 {
      var start := |flat| - width;
      assert start == (batchSize - 1) * width;
      var front := Rows(flat[..start], batchSize - 1, width);
      RowsInvertFlatten(flat[..start], batchSize - 1, width);
      var rows := Rows(flat, batchSize, width);
      assert rows == front + [flat[start..]];
      assert rows[..|rows| - 1] == front;
      assert flat[..start] + flat[start..] == flat;
    }
  }

  /** Splits a flat engine output into `batchSize` rows of `width` cells, in
      batch order, after checking its element count. The rows are exactly the
      buffer cut into pieces: flattening them gives the buffer back. */
  function Reshape<T>(flat: seq<T>, batchSize: nat, width: nat): (r: Result<seq<seq<T>>, Error>)
    ensures r.Err? <==> |flat| != batchSize * width
    ensures r.Err? ==> r.error == OutputSizeMismatch(|flat|, batchSize * width)
    ensures r.Ok? ==> |r.value| == batchSize && Rectangular(r.value, width)
    ensures r.Ok? ==> Flatten(r.value) == flat
  {
    if |flat| != batchSize * width then
      Err(OutputSizeMismatch(|flat|, batchSize * width))
    else
      RowsInvertFlatten(flat, batchSize, width);
      Ok(Rows(flat, batchSize, width))
  }

  /** Row b of a successful Reshape copies the cells at offsets
      b * width .. b * width + width - 1 of the buffer. */
  lemma ReshapeCell<T>(flat: seq<T>, batchSize: nat, width: nat, b: nat, i: nat)
    requires Reshape(flat, batchSize, width).Ok?
    requires b < batchSize && i < width
    ensures b * width + i < |flat|
    ensures Reshape(flat, batchSize, width).value[b][i] == flat[b * width + i]
  {
    FlattenCell(Reshape(flat, batchSize, width).value, width, b, i);
  }

  /** Reshape inverts Flatten on a rectangular [batchSize, width] matrix. */
  lemma {:induction false} FlattenThenReshape<T>(rows: seq<seq<T>>, width: nat)
    requires Rectangular(rows, width)
    ensures Reshape(Flatten(rows), |rows|, width) == Ok(rows)
  {
    FlattenLength(rows, width);
    var r := Reshape(Flatten(rows), |rows|, width).value;
    forall b | 0 <= b < |rows|
      ensures r[b] == rows[b]
    {
      assert |r[b]| == width == |rows[b]|;
      forall i | 0 <= i < width
        ensures r[b][i] == rows[b][i]
      {
        ReshapeCell(Flatten(rows), |rows|, width, b, i);
        FlattenCell(rows, width, b, i);
      }
    }
    assert r == rows;
  }
}
