/** The collaborators the driver uses but does not define: the hexagonal tile map
    and the path-search algorithm. Both live in a library that is not part of this
    model, so they appear here only through what the driver can observe. */
module Algorithm {

  datatype Option<T> = None | Some(value: T)

  /** A tile of the map. The driver compares tiles by address; a tile's row and
      column identify it the same way, so two tiles are the same tile exactly when
      they are equal values. `x` and `y` are the pixel coordinates of its centre and
      a weight of 0 means impassable. */
  datatype Tile = Tile(row: int, column: int, x: real, y: real, weight: nat)

  /** A rectangular grid of tiles, row-major, with the shared tile radius. */
  datatype TileMap = TileMap(tiles: seq<seq<Tile>>, columnCount: nat, radius: real)
  {
    function RowCount(): nat
    {
      |tiles|
    }

    /** Every row has `columnCount` tiles, each tile knows its own position, and a
        map without rows has no columns either. */
    predicate Valid()
    {
      && (|tiles| == 0 <==> columnCount == 0)
      && (forall r :: 0 <= r < |tiles| ==> |tiles[r]| == columnCount)
      && (forall r, c :: 0 <= r < |tiles| && 0 <= c < |tiles[r]| ==>
            tiles[r][c].row == r && tiles[r][c].column == c)
    }

    predicate IsEmpty()
    {
      |tiles| == 0
    }

    predicate InRange(row: int, column: int)
    {
      0 <= row < |tiles| && 0 <= column < columnCount
    }

    /** `TileMap::getTile`, defined only inside the grid. */
    function GetTile(row: int, column: int): (t: Tile)
      requires Valid() && InRange(row, column)
      ensures t.row == row && t.column == column
    {
      tiles[row][column]
    }

    /** `TileMap::reset`: the map loses all of its tiles. */
    function Cleared(): (m: TileMap)
      ensures m.Valid() && m.IsEmpty()
    {
      TileMap([], 0, radius)
    }
  }

  /** The hooks of the algorithm the driver calls, with their arguments. */
  datatype Call =
    | Initialize
    | Enter(startRow: int, startColumn: int, goalRow: int, goalColumn: int)
    | Update(budget: int)
    | Exit
    | Shutdown

  /** What the driver can read back: `isDone()` and `getSolution()` (goal first, start last). */
  datatype Observation = Observation(done: bool, solution: seq<Tile>)

  /** The algorithm as the driver sees it. Its internal search is not modelled:
      after each hook call it shows the next observation of `script` (an exhausted
      script leaves what it shows unchanged), so any behaviour of the real algorithm
      is one choice of script. `calls` records every hook call in order. */
  datatype PathSearch = PathSearch(done: bool, solution: seq<Tile>, script: seq<Observation>, calls: seq<Call>)

  /** One hook call: it is appended to the record of calls and the algorithm moves
      on to its next scripted observation. */
  function Hook(a: PathSearch, c: Call): (r: PathSearch)
    ensures r.calls == a.calls + [c]
    ensures |r.script| == if a.script == [] then 0 else |a.script| - 1
  {
    if a.script == [] then
      a.(calls := a.calls + [c])
    else
      PathSearch(a.script[0].done, a.script[0].solution, a.script[1..], a.calls + [c])
  }
}
