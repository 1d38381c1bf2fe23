/** The value types of System.Drawing that the converter uses: points, sizes and rectangles. */
module Drawing {

  /** A point in page coordinates. */
  datatype Point = Point(x: int, y: int)

  /** Point.Empty, the origin. */
  const EmptyPoint: Point := Point(0, 0)

  datatype Size = Size(width: int, height: int)

  datatype Rectangle = Rectangle(location: Point, size: Size)
}
