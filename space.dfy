/** Grid coordinates, as mesa stores them in an agent's `pos`. */
module Space {

  /** A cell of the grid: the tuple `(x, y)`. */
  datatype Pos = Pos(x: int, y: int)

}
