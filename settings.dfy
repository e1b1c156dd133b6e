/** The constants of the arena (`WindowSettings`) and the four unit directions. */
module Settings {

  const WIDTH: real := 1280.0
  const HEIGHT: real := 720.0
  const MARGIN: real := 15.0

  /** A unit step on the grid, as the named tuple `Direction(x, y)`. */
  datatype Direction = Direction(x: int, y: int)

  const UP: Direction := Direction(0, -1)
  const DOWN: Direction := Direction(0, 1)
  const RIGHT: Direction := Direction(1, 0)
  const LEFT: Direction := Direction(-1, 0)

  /** A display colour; no logic of the simulation reads it. */
  datatype Rgb = Rgb(r: real, g: real, b: real)
}
