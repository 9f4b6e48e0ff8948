/** `MapMatrix`: one map's grid, built once, with bounds-checked queries. */
module Matrix {
  import opened Options
  import opened MapNames
  import opened GridSpec
  import opened GridFill
  import Transitions

  class MapMatrix {
    const mapId: string
    const matrix: array2<int>

    ghost predicate Valid()
      reads this, matrix
    {
      IsGrid(matrix) && forall i, j :: InGrid(i, j) ==> matrix[i, j] == CellFor(mapId, i, j)
    }

    constructor (mapId: string)
      ensures Valid() && this.mapId == mapId && fresh(matrix)
    {
      this.mapId := mapId;
      var m := GetMatrixForMap(mapId);
      matrix := m;
    }

    /** The cell under `(x, y)` (row `y`), or -1 off the map. */
    function GetValueAt(x: int, y: int): (r: int)
      requires Valid()
      reads this, matrix
      ensures InGrid(y, x) ==> r == CellFor(mapId, y, x)
      ensures !InGrid(y, x) ==> r == -1
    {
      if 0 <= x < MAP_WIDTH && 0 <= y < MAP_HEIGHT then matrix[y, x] else -1
    }

    /** A player may stand at `(x, y)`: it is on the map and neither wall nor
        obstacle, that is, path or interactive. */
    predicate IsValidPosition(x: int, y: int): (b: bool)
      requires Valid()
      reads this, matrix
      ensures b <==> InGrid(y, x) && Walkable(CellFor(mapId, y, x))
      ensures b <==> GetValueAt(x, y) == PATH || GetValueAt(x, y) == INTERACTIVE
    {
      0 <= x < MAP_WIDTH && 0 <= y < MAP_HEIGHT && matrix[y, x] != WALL && matrix[y, x] != INACCESSIBLE
    }

    /** `(x, y)` is on the map and interactive; such a cell is always a
        valid position. */
    predicate IsInteractivePosition(x: int, y: int): (b: bool)
      requires Valid()
      reads this, matrix
      ensures b <==> GetValueAt(x, y) == INTERACTIVE
      ensures b ==> IsValidPosition(x, y)
    {
      0 <= x < MAP_WIDTH && 0 <= y < MAP_HEIGHT && matrix[y, x] == INTERACTIVE
    }

    /** The exit at `(x, y)` of this map, if any. */
    function IsMapTransitionPoint(x: int, y: int): (r: Option<string>)
      ensures r == Transitions.IsMapTransitionPoint(mapId, x, y)
      ensures r.Some? ==> r.value in CanonicalMaps && r.value != mapId
    {
      Transitions.IsMapTransitionPoint(mapId, x, y)
    }
  }
}
