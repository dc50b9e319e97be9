/** A 3-row by 2-column matrix that wraps a two-dimensional buffer.
    The element type is `real`: the source stores doubles but does no arithmetic
    on them, so only the cells' identity matters. */
module Matrices {

  /** Number of columns a buffer must have. */
  const Columns: nat := 2
  /** Number of rows a buffer must have. */
  const Rows: nat := 3

  /** The two ways the validated constructor can reject a buffer; each carries the
      offending dimension as it was read from the buffer. */
  datatype ShapeError =
    | WrongRows(rows: nat)
    | WrongColumns(columns: nat)

  datatype Result<+R, +E> = Success(value: R) | Failure(error: E)

  /** Row `i` of `a`, left to right. */
  function Row(a: array2<real>, i: nat): (s: seq<real>)
    reads a
    requires i < a.Length0
    ensures |s| == a.Length1
    ensures forall j :: 0 <= j < a.Length1 ==> s[j] == a[i, j]
  {
    seq(a.Length1, j requires 0 <= j < a.Length1 reads a => a[i, j])
  }

  /** The first `n` rows of `a`, laid end to end in row-major order. */
  function RowMajor(a: array2<real>, n: nat): (s: seq<real>)
    reads a
    requires n <= a.Length0
    ensures |s| == n * a.Length1
  {
    if n == 0 then [] else RowMajor(a, n - 1) + Row(a, n - 1)
  }

  /** In the row-major layout, cell (i, j) sits at position i * columns + j. */
  lemma {:induction false} RowMajorAt(a: array2<real>, n: nat, i: nat, j: nat)
    requires n <= a.Length0 && i < n && j < a.Length1
    ensures i * a.Length1 + j < |RowMajor(a, n)|
    ensures RowMajor(a, n)[i * a.Length1 + j] == a[i, j]
  {
    var c := a.Length1;
    if i < n - 1 {
      RowMajorAt(a, n - 1, i, j);
      assert i * c + j < |RowMajor(a, n - 1)|;
    } else {
      assert |RowMajor(a, n - 1)| == i * c;
    }
  }

  class Matrix3x2F {
    /** The buffer; fixed for the instance's lifetime, possibly shared with
        whoever supplied it to the validated constructor. */
    const values: array2<real>

    /** Every instance's buffer is exactly 3 x 2. */
    predicate Valid()
    {
      values.Length0 == Rows && values.Length1 == Columns
    }

    /** The six cells in row-major order: M11, M12, M21, M22, M31, M32. */
    function Elements(): (s: seq<real>)
      reads values
      requires Valid()
      ensures |s| == Rows * Columns
    {
      RowMajor(values, Rows)
    }

    /** The row-major layout, cell by cell. */
    lemma ElementsAreCells()
      requires Valid()
      ensures Elements() == [values[0, 0], values[0, 1],
                             values[1, 0], values[1, 1],
                             values[2, 0], values[2, 1]]
    {
      RowMajorAt(values, Rows, 0, 0);
      RowMajorAt(values, Rows, 0, 1);
      RowMajorAt(values, Rows, 1, 0);
      RowMajorAt(values, Rows, 1, 1);
      RowMajorAt(values, Rows, 2, 0);
      RowMajorAt(values, Rows, 2, 1);
    }

    /** The parameterless constructor: a fresh, all-zero 3 x 2 buffer. */
    constructor ()
      ensures Valid() && fresh(values)
      ensures Elements() == [0.0, 0.0, 0.0, 0.0, 0.0, 0.0]
    {
      values := new real[Rows, Columns]((_, _) => 0.0);
      new;
      ElementsAreCells();
    }

    /** The final step of the validated constructor, reached only once both
        dimensions have been checked: the buffer is adopted as it is, not copied. */
    constructor Adopt(values: array2<real>)
      requires values.Length0 == Rows && values.Length1 == Columns
      ensures Valid() && this.values == values
    {
      this.values := values;
    }

    /** The validated constructor. The row count is checked before the column
        count, so a buffer wrong in both dimensions reports its rows. On success
        the instance shares the caller's buffer. */
    static method Create(values: array2<real>) returns (r: Result<Matrix3x2F, ShapeError>)
      ensures values.Length0 != Rows ==> r == Failure(WrongRows(values.Length0))
      ensures values.Length0 == Rows && values.Length1 != Columns ==> r == Failure(WrongColumns(values.Length1))
      ensures r.Success? <==> values.Length0 == Rows && values.Length1 == Columns
      ensures r.Success? ==> r.value.Valid() && r.value.values == values && fresh(r.value)
    {
      var rows := values.Length0;
      if rows != Rows {
        return Failure(WrongRows(rows));
      }
      var columns := values.Length1;
      if columns != Columns {
        return Failure(WrongColumns(columns));
      }
      var m := new Matrix3x2F.Adopt(values);
      return Success(m);
    }

    /** A new instance holding the identity values {{1, 0}, {0, 1}, {0, 0}}. */
    static method Identity() returns (m: Matrix3x2F)
      ensures m.Valid() && fresh(m) && fresh(m.values)
      ensures m.Elements() == [1.0, 0.0, 0.0, 1.0, 0.0, 0.0]
      ensures m.M11() == 1.0 && m.M12() == 0.0
      ensures m.M21() == 0.0 && m.M22() == 1.0
      ensures m.M31() == 0.0 && m.M32() == 0.0
    {
      var grid := new real[Rows, Columns];
      grid[0, 0], grid[0, 1] := 1.0, 0.0;
      grid[1, 0], grid[1, 1] := 0.0, 1.0;
      grid[2, 0], grid[2, 1] := 0.0, 0.0;
      var r := Create(grid);
      m := r.value;
      m.ElementsAreCells();
    }

    function M11(): (r: real)
      reads values
      requires Valid()
      ensures r == Elements()[0]
    {
      ElementsAreCells();
      values[0, 0]
    }

    function M12(): (r: real)
      reads values
      requires Valid()
      ensures r == Elements()[1]
    {
      ElementsAreCells();
      values[0, 1]
    }

    function M21(): (r: real)
      reads values
      requires Valid()
      ensures r == Elements()[2]
    {
      ElementsAreCells();
      values[1, 0]
    }

    function M22(): (r: real)
      reads values
      requires Valid()
      ensures r == Elements()[3]
    {
      ElementsAreCells();
      values[1, 1]
    }

    function M31(): (r: real)
      reads values
      requires Valid()
      ensures r == Elements()[4]
    {
      ElementsAreCells();
      values[2, 0]
    }

    function M32(): (r: real)
      reads values
      requires Valid()
      ensures r == Elements()[5]
    {
      ElementsAreCells();
      values[2, 1]
    }

    method SetM11(x: real)
      requires Valid()
      modifies values
      ensures Elements() == old(Elements())[0 := x]
    {
      ElementsAreCells();
      values[0, 0] := x;
      ElementsAreCells();
    }

    method SetM12(x: real)
      requires Valid()
      modifies values
      ensures Elements() == old(Elements())[1 := x]
    {
      ElementsAreCells();
      values[0, 1] := x;
      ElementsAreCells();
    }

    method SetM21(x: real)
      requires Valid()
      modifies values
      ensures Elements() == old(Elements())[2 := x]
    {
      ElementsAreCells();
      values[1, 0] := x;
      ElementsAreCells();
    }

    method SetM22(x: real)
      requires Valid()
      modifies values
      ensures Elements() == old(Elements())[3 := x]
    {
      ElementsAreCells();
      values[1, 1] := x;
      ElementsAreCells();
    }

    method SetM31(x: real)
      requires Valid()
      modifies values
      ensures Elements() == old(Elements())[4 := x]
    {
      ElementsAreCells();
      values[2, 0] := x;
      ElementsAreCells();
    }

    method SetM32(x: real)
      requires Valid()
      modifies values
      ensures Elements() == old(Elements())[5 := x]
    {
      ElementsAreCells();
      values[2, 1] := x;
      ElementsAreCells();
    }

    /** A new instance over a freshly allocated copy of the buffer; this
        instance and its buffer are left as they were (no modifies clause). */
    method Clone() returns (c: Matrix3x2F)
      requires Valid()
      ensures c.Valid() && fresh(c) && fresh(c.values)
      ensures c.values != values
      ensures c.Elements() == Elements()
    {
      var valuesCopy := new real[values.Length0, values.Length1](
        (i, j) requires 0 <= i < values.Length0 && 0 <= j < values.Length1 reads values => values[i, j]);
      var r := Create(valuesCopy);
      c := r.value;
      ElementsAreCells();
      c.ElementsAreCells();
    }
  }

  /** The six accessors, in declaration order, are exactly the row-major cells;
      a corollary of the accessors' postconditions. */
  lemma AccessorsAreElements(m: Matrix3x2F)
    requires m.Valid()
    ensures m.Elements() == [m.M11(), m.M12(), m.M21(), m.M22(), m.M31(), m.M32()]
  {
  }

  /** A clone shares no storage with its original: writing a cell of the clone's
      buffer changes that one cell of the clone and nothing of the original. */
  method CloneIsIndependent(m: Matrix3x2F, i: nat, j: nat, x: real) returns (c: Matrix3x2F)
    requires m.Valid() && i < Rows && j < Columns
    ensures c.Valid() && c != m && c.values != m.values
    ensures c.Elements() == m.Elements()[i * Columns + j := x]
  {
    c := m.Clone();
    ghost var original := m.Elements();
    m.ElementsAreCells();
    c.ElementsAreCells();
    c.values[i, j] := x;
    c.ElementsAreCells();
    m.ElementsAreCells();
    assert m.Elements() == original;
  }

  /** The validated constructor aliases its argument: a later write to the
      caller's buffer shows through the instance's accessors. */
  method CallerWriteShowsThrough(values: array2<real>, x: real) returns (r: Result<Matrix3x2F, ShapeError>)
    requires values.Length0 == Rows && values.Length1 == Columns
    modifies values
    ensures r.Success? && r.value.values == values
    ensures r.value.M11() == x
  {
    r := Matrix3x2F.Create(values);
    values[0, 0] := x;
  }
}
