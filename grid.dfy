/**
 * The fixed evaluation domain and the matrix vocabulary shared by the
 * loader and the metric engine: a sample is a matrix with one row per grid
 * point and one column per forecast day, stored as a sequence of rows.
 */
module Grid {

  import opened Wrappers

  /** Grid points of the evaluation domain: 354 latitudes by 360 longitudes. */
  const GRID_POINTS: nat := 354 * 360

  /** Forecast days every sample is reshaped to. */
  const HORIZON_DAYS: nat := 7

  type Matrix = seq<seq<real>>

  function Min(a: nat, b: nat): nat
  {
    if a <= b then a else b
  }

  predicate IsShape(m: Matrix, rows: nat, cols: nat)
  {
    |m| == rows && forall i :: 0 <= i < |m| ==> |m[i]| == cols
  }

  /** A numpy 2-D array with at least one row: every row has the first row's length. */
  predicate Rectangular(m: Matrix)
  {
    |m| > 0 && forall i :: 0 <= i < |m| ==> |m[i]| == |m[0]|
  }

  /** `shape[1]` of a non-empty 2-D array. */
  function Width(m: Matrix): nat
    requires |m| > 0
  {
    |m[0]|
  }

  // ---------------------------------------------------------------- sums

  function Sum(s: seq<real>): real
  {
    if s == [] then 0.0 else Sum(s[..|s| - 1]) + s[|s| - 1]
  }

  function Mean(s: seq<real>): real
    requires |s| > 0
  {
    Sum(s) / |s| as real
  }

  lemma {:induction false} SumNonnegative(s: seq<real>)
    requires forall i :: 0 <= i < |s| ==> s[i] >= 0.0
    ensures Sum(s) >= 0.0
  {
    if s != [] {
      SumNonnegative(s[..|s| - 1]);
    }
  }

  /** A sum of non-negative terms vanishes exactly when every term does. */
  lemma {:induction false} SumZeroIff(s: seq<real>)
    requires forall i :: 0 <= i < |s| ==> s[i] >= 0.0
    ensures Sum(s) == 0.0 <==> forall i :: 0 <= i < |s| ==> s[i] == 0.0
  {
    if s != [] {
      var init := s[..|s| - 1];
      SumZeroIff(init);
      SumNonnegative(init);
      if Sum(s) == 0.0 {
        forall i | 0 <= i < |s| ensures s[i] == 0.0 {
          if i < |s| - 1 {
            assert s[i] == init[i];
          }
        }
      } else {
        assert !(forall i :: 0 <= i < |init| ==> init[i] == 0.0) || s[|s| - 1] != 0.0;
      }
    }
  }

  /** Summing `n` copies of `c` gives `n * c`. */
  lemma {:induction false} SumConstant(s: seq<real>, c: real)
    requires forall i :: 0 <= i < |s| ==> s[i] == c
    ensures Sum(s) == |s| as real * c
  {
    if s != [] {
      SumConstant(s[..|s| - 1], c);
    }
  }

  lemma MeanNonnegative(s: seq<real>)
    requires |s| > 0
    requires forall i :: 0 <= i < |s| ==> s[i] >= 0.0
    ensures Mean(s) >= 0.0
  {
    SumNonnegative(s);
  }

  /** The mean of `n` copies of `c` is `c`. */
  lemma MeanConstant(s: seq<real>, c: real)
    requires |s| > 0
    requires forall i :: 0 <= i < |s| ==> s[i] == c
    ensures Mean(s) == c
  {
    SumConstant(s, c);
    QuotientOfMultiple(|s|, c);
  }

  lemma QuotientOfMultiple(n: nat, c: real)
    requires n > 0
    ensures (n as real * c) / n as real == c
  {
  }

  /** The mean of non-negative terms vanishes exactly when every term does. */
  lemma MeanZeroIff(s: seq<real>)
    requires |s| > 0
    requires forall i :: 0 <= i < |s| ==> s[i] >= 0.0
    ensures Mean(s) == 0.0 <==> forall i :: 0 <= i < |s| ==> s[i] == 0.0
  {
    SumNonnegative(s);
    SumZeroIff(s);
    QuotientZeroIff(Sum(s), |s|);
  }

  lemma QuotientZeroIff(x: real, n: nat)
    requires n > 0
    ensures x / n as real == 0.0 <==> x == 0.0
  {
  }

  /** `x ** n` for a natural exponent. */
  function Power(x: real, n: nat): real
  {
    if n == 0 then 1.0 else x * Power(x, n - 1)
  }

  /** A real square is non-negative and vanishes only at zero. */
  lemma SquareFacts(x: real)
    ensures Power(x, 2) >= 0.0
    ensures Power(x, 2) == 0.0 <==> x == 0.0
  {
    assert Power(x, 1) == x;
    if x > 0.0 {
      ProductPositive(x, Power(x, 1));
    } else if x < 0.0 {
      ProductPositive(-x, -Power(x, 1));
    }
  }

  lemma ProductPositive(x: real, y: real)
    requires x > 0.0 && y > 0.0
    ensures x * y > 0.0
  {
  }

  // ------------------------------------------------------------- columns

  /** Column `d` of a matrix: `m[:, d]`. */
  function Column(m: Matrix, d: nat): (c: seq<real>)
    requires forall i :: 0 <= i < |m| ==> d < |m[i]|
    ensures |c| == |m|
    ensures forall i :: 0 <= i < |m| ==> c[i] == m[i][d]
  {
    seq(|m|, i requires 0 <= i < |m| => m[i][d])
  }

  /** numpy's `m[:, :k]`: every row cut to its first `k` entries (fewer if the row is shorter). */
  function TakeColumns(m: Matrix, k: nat): (r: Matrix)
    ensures |r| == |m|
    ensures forall i :: 0 <= i < |m| ==> |r[i]| <= k && r[i] <= m[i]
  {
    seq(|m|, i requires 0 <= i < |m| => m[i][..Min(k, |m[i]|)])
  }

  /**
   * Cutting a matrix of width at least `k` to `k` columns gives a matrix of
   * width exactly `k` whose columns are the leading columns of the original.
   */
  lemma TakeColumnsKeepsLeading(m: Matrix, w: nat, k: nat)
    requires IsShape(m, |m|, w) && k <= w
    ensures IsShape(TakeColumns(m, k), |m|, k)
    ensures forall i, j :: 0 <= i < |m| && 0 <= j < k ==> TakeColumns(m, k)[i][j] == m[i][j]
    ensures forall d :: 0 <= d < k ==> Column(TakeColumns(m, k), d) == Column(m, d)
  {
    var r := TakeColumns(m, k);
    forall d | 0 <= d < k ensures Column(r, d) == Column(m, d) {
      assert forall i :: 0 <= i < |m| ==> Column(r, d)[i] == Column(m, d)[i];
    }
  }

  /** Cutting to at least the full width changes nothing. */
  lemma TakeColumnsFullWidth(m: Matrix, w: nat, k: nat)
    requires IsShape(m, |m|, w) && w <= k
    ensures TakeColumns(m, k) == m
  {
    var r := TakeColumns(m, k);
    forall i | 0 <= i < |m| ensures r[i] == m[i] {
      assert m[i][..w] == m[i];
    }
  }

  // ------------------------------------------------------------- reshape

  /** The rows of a matrix laid end to end (numpy's row-major order). */
  function Flatten(m: Matrix): (flat: seq<real>)
  {
    if m == [] then [] else m[0] + Flatten(m[1..])
  }

  lemma {:induction false} FlattenLength(m: Matrix, rows: nat, cols: nat)
    requires IsShape(m, rows, cols)
    ensures |Flatten(m)| == rows * cols
  {
    if m != [] {
      FlattenLength(m[1..], rows - 1, cols);
    }
  }

  /** Cuts `rows * cols` values into `rows` consecutive rows of `cols` values. */
  function Chunk(flat: seq<real>, rows: nat, cols: nat): (m: Matrix)
    requires |flat| == rows * cols
    ensures IsShape(m, rows, cols)
    decreases rows
  {
    if rows == 0 then []
    else [flat[..cols]] + Chunk(flat[cols..], rows - 1, cols)
  }

  /** Entry `(i, j)` of the chunked matrix is value `i * cols + j` of the flat sequence. */
  lemma {:induction false} ChunkAt(flat: seq<real>, rows: nat, cols: nat, i: nat, j: nat)
    requires |flat| == rows * cols && i < rows && j < cols
    ensures i * cols + j < |flat|
    ensures Chunk(flat, rows, cols)[i][j] == flat[i * cols + j]
    decreases i
  {
    if i > 0 {
      ChunkAt(flat[cols..], rows - 1, cols, i - 1, j);
      assert (i - 1) * cols + j + cols == i * cols + j;
    }
  }

  lemma {:induction false} FlattenChunk(flat: seq<real>, rows: nat, cols: nat)
    requires |flat| == rows * cols
    ensures Flatten(Chunk(flat, rows, cols)) == flat
    decreases rows
  {
    if rows > 0 {
      var m := Chunk(flat, rows, cols);
      FlattenChunk(flat[cols..], rows - 1, cols);
      assert m[1..] == Chunk(flat[cols..], rows - 1, cols);
      assert flat == flat[..cols] + flat[cols..];
    }
  }

  lemma {:induction false} ChunkFlatten(m: Matrix, rows: nat, cols: nat)
    requires IsShape(m, rows, cols)
    ensures |Flatten(m)| == rows * cols
    ensures Chunk(Flatten(m), rows, cols) == m
    decreases rows
  {
    FlattenLength(m, rows, cols);
    if rows > 0 {
      ChunkFlatten(m[1..], rows - 1, cols);
      var flat := Flatten(m);
      assert flat[..cols] == m[0];
      assert flat[cols..] == Flatten(m[1..]);
      assert m == [m[0]] + m[1..];
    }
  }

  /**
   * numpy's `np.asarray(values).reshape(rows, cols)`: it succeeds exactly when
   * the element count is `rows * cols`, and it keeps row-major order.
   */
  function Reshape(flat: seq<real>, rows: nat, cols: nat): (r: Option<Matrix>)
    ensures r.Some? <==> |flat| == rows * cols
    ensures r.Some? ==> IsShape(r.value, rows, cols) && Flatten(r.value) == flat
  {
    if |flat| == rows * cols then
      FlattenChunk(flat, rows, cols);
      Some(Chunk(flat, rows, cols))
    else
      None
  }

  /** Reshape is row-major: entry `(i, j)` is value `i * cols + j`. */
  lemma ReshapeRowMajor(flat: seq<real>, rows: nat, cols: nat, i: nat, j: nat)
    requires |flat| == rows * cols && i < rows && j < cols
    ensures i * cols + j < |flat|
    ensures Reshape(flat, rows, cols).value[i][j] == flat[i * cols + j]
  {
    ChunkAt(flat, rows, cols, i, j);
  }

  /** Flattening a matrix and reshaping it back to its own shape gives the matrix again. */
  lemma ReshapeFlatten(m: Matrix, rows: nat, cols: nat)
    requires IsShape(m, rows, cols)
    ensures Reshape(Flatten(m), rows, cols) == Some(m)
  {
    ChunkFlatten(m, rows, cols);
  }
}
