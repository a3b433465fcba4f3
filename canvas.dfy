/**
 * The element grid: a rectangle of elements held in one contiguous block,
 * row-major, with [0,0] at the top left. Elements are of an arbitrary type
 * T; `blank` stands for a default-constructed element.
 */
module Grid {
  import opened Geometry

  /** The storage index of (column, row): row-major. */
  function Offset(size: Extent, column: nat, row: nat): (i: nat)
    requires column < size.width && row < size.height
    ensures i < size.width * size.height
  {
    OffsetBound(size, column, row);
    row * size.width + column
  }

  lemma OffsetBound(size: Extent, column: nat, row: nat)
    requires column < size.width && row < size.height
    ensures row * size.width + column < size.width * size.height
  {
    calc {
      row * size.width + column;
    <
      row * size.width + size.width;
    ==
      (row + 1) * size.width;
    <=
      size.height * size.width;
    }
  }

  lemma MulStrict(a: nat, b: nat, w: nat)
    requires a < b
    ensures a * w + w <= b * w
  {
    var k := b - a - 1;
    assert b * w == a * w + w + k * w;
  }

  /** Row-major order: a cell's column and row are recovered from its index. */
  lemma OffsetInverse(size: Extent, column: nat, row: nat)
    requires column < size.width && row < size.height
    ensures Offset(size, column, row) / size.width == row
    ensures Offset(size, column, row) % size.width == column
  {
    var i := Offset(size, column, row);
    var q, r := i / size.width, i % size.width;
    assert i == q * size.width + r;
    if q < row {
      MulStrict(q, row, size.width);
      assert false;
    } else if q > row {
      MulStrict(row, q, size.width);
      assert false;
    }
  }

  /** Distinct cells occupy distinct storage. */
  lemma OffsetInjective(size: Extent, c0: nat, r0: nat, c1: nat, r1: nat)
    requires c0 < size.width && r0 < size.height
    requires c1 < size.width && r1 < size.height
    ensures Offset(size, c0, r0) == Offset(size, c1, r1) <==> c0 == c1 && r0 == r1
  {
    OffsetInverse(size, c0, r0);
    OffsetInverse(size, c1, r1);
  }

  /** Every storage index belongs to some cell. */
  lemma OffsetCovers(size: Extent, i: nat)
    requires i < size.width * size.height
    ensures size.width > 0
    ensures i % size.width < size.width && i / size.width < size.height
    ensures Offset(size, i % size.width, i / size.width) == i
  {
  }

  class Canvas<T> {
    const size: Extent
    const grid: array<T>
    /** Contents[column][row] is the element at (column, row). */
    ghost var Contents: seq<seq<T>>

    ghost predicate Valid()
      reads this, grid
    {
      && grid.Length == size.width * size.height
      && |Contents| == size.width
      && (forall c :: 0 <= c < size.width ==> |Contents[c]| == size.height)
      && (forall c: nat, r: nat :: c < size.width && r < size.height ==>
            grid[Offset(size, c, r)] == Contents[c][r])
    }

    /** canvas(extent): width × height default elements. */
    constructor (extent: Extent, blank: T)
      ensures Valid() && fresh(grid)
      ensures size == extent
      ensures forall c, r :: 0 <= c < extent.width && 0 <= r < extent.height ==> Contents[c][r] == blank
    {
      size := extent;
      grid := new T[extent.width * extent.height](_ => blank);
      Contents := seq(extent.width, _ => seq(extent.height, _ => blank));
    }

    /** size(): the extent the canvas was built with. */
    function Size(): (e: Extent)
      reads this, grid
      requires Valid()
      ensures e == size
      ensures e.width * e.height == grid.Length
      ensures |Contents| == e.width
      ensures forall c :: 0 <= c < e.width ==> |Contents[c]| == e.height
    {
      size
    }

    /** begin() .. end(): every element, in storage order. */
    function Elements(): (s: seq<T>)
      reads this, grid
      requires Valid()
      ensures |s| == size.width * size.height
      ensures forall c: nat, r: nat :: c < size.width && r < size.height ==>
                s[Offset(size, c, r)] == Contents[c][r]
    {
      grid[..]
    }

    /** get_element(column, row). */
    function GetElement(column: nat, row: nat): (v: T)
      reads this, grid
      requires Valid() && column < size.width && row < size.height
      ensures v == Contents[column][row]
    {
      grid[Offset(size, column, row)]
    }

    /** set_element(column, row, value): only that cell changes. */
    method SetElement(column: nat, row: nat, value: T)
      requires Valid() && column < size.width && row < size.height
      modifies this, grid
      ensures Valid()
      ensures Contents == old(Contents)[column := old(Contents)[column][row := value]]
    {
      var i := Offset(size, column, row);
      grid[i] := value;
      Contents := Contents[column := Contents[column][row := value]];
      forall c: nat, r: nat | c < size.width && r < size.height
        ensures grid[Offset(size, c, r)] == Contents[c][r]
      {
        OffsetInjective(size, c, r, column, row);
      }
    }

    /** operator[](column): a proxy into one column. */
    function Column(column: nat): (p: ColumnProxy<T>)
      ensures p.canvas == this && p.column == column
    {
      ColumnProxy(this, column)
    }

    /** operator[](column) const: a read-only proxy into one column. */
    function ConstColumn(column: nat): (p: ConstColumnProxy<T>)
      ensures p.canvas == this && p.column == column
    {
      ConstColumnProxy(this, column)
    }
  }

  /** canvas::column_proxy. */
  datatype ColumnProxy<T> = ColumnProxy(canvas: Canvas<T>, column: nat) {
    /** operator[](row): a proxy onto one cell. */
    function Row(row: nat): (p: RowProxy<T>)
      ensures p.canvas == canvas && p.column == column && p.row == row
    {
      RowProxy(canvas, column, row)
    }
  }

  /** canvas::row_proxy: one cell, by column and row. */
  datatype RowProxy<T> = RowProxy(canvas: Canvas<T>, column: nat, row: nat) {
    ghost predicate InRange()
      reads canvas, canvas.grid
    {
      canvas.Valid() && column < canvas.size.width && row < canvas.size.height
    }

    /** operator=(value): the same as canvas.set_element(column, row, value). */
    method Assign(value: T)
      requires InRange()
      modifies canvas, canvas.grid
      ensures InRange()
      ensures canvas.Contents == old(canvas.Contents)[column := old(canvas.Contents)[column][row := value]]
    {
      canvas.SetElement(column, row, value);
    }

    /** operator element&(): the same as canvas.get_element(column, row). */
    function Value(): (v: T)
      reads canvas, canvas.grid
      requires InRange()
      ensures v == canvas.Contents[column][row]
    {
      canvas.GetElement(column, row)
    }
  }

  /** canvas::const_column_proxy: reads only, so it cannot change the grid. */
  datatype ConstColumnProxy<T> = ConstColumnProxy(canvas: Canvas<T>, column: nat) {
    /** operator[](row) const. */
    function At(row: nat): (v: T)
      reads canvas, canvas.grid
      requires canvas.Valid() && column < canvas.size.width && row < canvas.size.height
      ensures v == canvas.Contents[column][row]
    {
      canvas.GetElement(column, row)
    }
  }

  /** cvs[c][r] = v writes exactly the cell that cvs[c][r] then reads back. */
  method AssignThroughProxies<T>(cvs: Canvas<T>, c: nat, r: nat, v: T)
    requires cvs.Valid() && c < cvs.size.width && r < cvs.size.height
    modifies cvs, cvs.grid
    ensures cvs.Valid()
    ensures cvs.GetElement(c, r) == v
    ensures forall c', r' :: 0 <= c' < cvs.size.width && 0 <= r' < cvs.size.height && (c', r') != (c, r) ==>
              cvs.GetElement(c', r') == old(cvs.GetElement(c', r'))
  {
    cvs.Column(c).Row(r).Assign(v);
  }
}
