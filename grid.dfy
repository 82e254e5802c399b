/** The 8x8 board storage shared by the move generator and the board:
    squares, cells and the bounds check. */
module Grid {

  /** Handle of a piece: its index in the board's arena of pieces, in order of creation. */
  type PieceId = nat

  /** A square `(x, y)`, column first, as the source's tuples; also used for relative vectors. */
  type Pos = (int, int)

  /** What a grid cell holds: the string "empty" or a reference to a piece. */
  datatype Cell = Empty | Occupied(id: PieceId)

  /** `Board._inbounds`: both coordinates lie in 0..7. */
  function InBounds(position: Pos): (inbounds: bool)
    ensures inbounds <==> 0 <= position.0 < 8 && 0 <= position.1 < 8
  {
    if position.0 < 0 || 7 < position.0 then false
    else if position.1 < 0 || 7 < position.1 then false
    else true
  }

  /** The grid is a list of 8 rows of 8 cells, indexed `grid[y][x]`. */
  ghost predicate Shaped(grid: seq<seq<Cell>>) {
    |grid| == 8 && forall y | 0 <= y < 8 :: |grid[y]| == 8
  }

  /** `grid[position[1]][position[0]]`. */
  function At(grid: seq<seq<Cell>>, position: Pos): Cell
    requires Shaped(grid) && InBounds(position)
  {
    grid[position.1][position.0]
  }

  /** `grid[position[1]][position[0]] = cell`, a write to one cell. */
  function SetCell(grid: seq<seq<Cell>>, position: Pos, cell: Cell): (updated: seq<seq<Cell>>)
    requires Shaped(grid) && InBounds(position)
    ensures Shaped(updated)
    ensures At(updated, position) == cell
    ensures forall q | InBounds(q) && q != position :: At(updated, q) == At(grid, q)
  {
    grid[position.1 := grid[position.1][position.0 := cell]]
  }

  /** The square reached from `position` by the relative vector `vector`. */
  function Add(position: Pos, vector: Pos): Pos {
    (position.0 + vector.0, position.1 + vector.1)
  }
}
