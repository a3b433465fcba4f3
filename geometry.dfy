/** Zero-based cell coordinates and rectangular extents. */
module Geometry {
  /** A terminal cell, addressed by zero-based column and row. */
  datatype Point = Point(column: nat, row: nat)

  /** The size of a rectangular area, in columns and rows. */
  datatype Extent = Extent(width: nat, height: nat)

  const Origin: Point := Point(0, 0)
}
