/** The hard-coded exits between maps (`isMapTransitionPoint`) and the
    spawn table (`getInitialPositionForMap`). Positions are `(x, y)`; the
    grid cell under a position is `CellFor(mapId, y, x)`. */
module Transitions {
  import opened Options
  import opened MapNames
  import opened GridSpec

  /** The map a player at `(x, y)` on `mapId` may travel to, if any. The
      table is fixed: it never looks at the grid. */
  function IsMapTransitionPoint(mapId: string, x: int, y: int): (r: Option<string>)
    ensures r.Some? ==> mapId in CanonicalMaps && r.value in CanonicalMaps && r.value != mapId
  {
    if mapId == MAP_MAIN then
      if x == 15 && y == 10 then Some(MAP_BUILDING2)
      else if x == 33 && y == 34 then Some(MAP_CAFETERIA)
      else if x == 25 && y == 5 then Some(MAP_ESTACIONAMIENTO)
      else None
    else if mapId == MAP_BUILDING2 then
      if (14 <= x <= 16 && 15 <= y <= 17) || (x == 20 && y == 20) || (x == 25 && y == 16) then Some(MAP_SALON2009)
      else if x == 2 && y == 5 then Some(MAP_SALON2010)
      else if x == 5 && y == 5 then Some(MAP_MAIN)
      else None
    else if mapId == MAP_SALON2009 then
      if x == 1 && y == 20 then Some(MAP_BUILDING2) else None
    else if mapId == MAP_SALON2010 then
      if x == 5 && y == 5 then Some(MAP_BUILDING2)
      else if x == 10 && y == 10 then Some(MAP_MAIN)
      else None
    else if mapId == MAP_ESTACIONAMIENTO then
      if x == 20 && y == 38 then Some(MAP_MAIN)
      else if x == 35 && y == 20 then Some(MAP_TRAS_PLAZA)
      else None
    else if mapId == MAP_TRAS_PLAZA then
      if x == 5 && y == 20 then Some(MAP_ESTACIONAMIENTO)
      else if x == 35 && y == 20 then Some(MAP_LINDAVISTA)
      else None
    else if mapId == MAP_LINDAVISTA then
      if x == 5 && y == 20 then Some(MAP_TRAS_PLAZA)
      else if x == 35 && y == 20 then Some(MAP_TURISMO)
      else None
    else if mapId == MAP_TURISMO then
      if x == 5 && y == 20 then Some(MAP_LINDAVISTA)
      else if x == 35 && y == 20 then Some(MAP_FUENTE)
      else None
    else if mapId == MAP_FUENTE then
      if x == 5 && y == 20 then Some(MAP_TURISMO) else None
    else None
  }

  /** Where a player appears on entering `mapId`: a fixed cell per map, the
      centre for any other identifier. */
  function GetInitialPositionForMap(mapId: string): (p: (int, int))
    ensures InGrid(p.1, p.0)
    ensures mapId !in CanonicalMaps ==> p == (MAP_WIDTH / 2, MAP_HEIGHT / 2)
    ensures mapId == MAP_FUENTE ==> p == (MAP_WIDTH / 2, MAP_HEIGHT / 2)
  {
    if mapId == MAP_MAIN then (15, 15)
    else if mapId == MAP_BUILDING2 then (20, 16)
    else if mapId == MAP_SALON2009 then (20, 20)
    else if mapId == MAP_SALON2010 then (20, 20)
    else if mapId == MAP_CAFETERIA then (2, 2)
    else if mapId == MAP_ESTACIONAMIENTO then (20, 30)
    else if mapId == MAP_TRAS_PLAZA then (20, 20)
    else if mapId == MAP_LINDAVISTA then (20, 20)
    else if mapId == MAP_TURISMO then (20, 30)
    else if mapId == MAP_FUENTE then (20, 20)
    else (MAP_WIDTH / 2, MAP_HEIGHT / 2)
  }

  /** The five outdoor maps, walked in this order from the main campus. */
  const LINEAR_ROUTE: seq<string> := [MAP_ESTACIONAMIENTO, MAP_TRAS_PLAZA, MAP_LINDAVISTA, MAP_TURISMO, MAP_FUENTE]

  /** Each step of the route is reciprocal: (35, 20) leads forward and
      (5, 20) on the next map leads back. */
  lemma LinearRouteIsReciprocal(k: nat)
    requires k + 1 < |LINEAR_ROUTE|
    ensures IsMapTransitionPoint(LINEAR_ROUTE[k], 35, 20) == Some(LINEAR_ROUTE[k + 1])
    ensures IsMapTransitionPoint(LINEAR_ROUTE[k + 1], 5, 20) == Some(LINEAR_ROUTE[k])
  {
  }

  /** The route hangs off the main campus at (25, 5), and its first map
      leads back there from (20, 38). */
  lemma MainParkingLink()
    ensures IsMapTransitionPoint(MAP_MAIN, 25, 5) == Some(MAP_ESTACIONAMIENTO)
    ensures IsMapTransitionPoint(MAP_ESTACIONAMIENTO, 20, 38) == Some(MAP_MAIN)
  {
  }

  /** On the route maps, only the listed exits lead anywhere. */
  lemma RouteExitsOnly(mapId: string, x: int, y: int)
    requires mapId in LINEAR_ROUTE
    ensures mapId == MAP_ESTACIONAMIENTO ==>
      (IsMapTransitionPoint(mapId, x, y).Some? <==> (x, y) == (20, 38) || (x, y) == (35, 20))
    ensures mapId in {MAP_TRAS_PLAZA, MAP_LINDAVISTA, MAP_TURISMO} ==>
      (IsMapTransitionPoint(mapId, x, y).Some? <==> (x, y) == (5, 20) || (x, y) == (35, 20))
    ensures mapId == MAP_FUENTE ==>
      (IsMapTransitionPoint(mapId, x, y).Some? <==> (x, y) == (5, 20))
  {
  }

  /** Building 2 leads to salon 2009 from the whole 3 x 3 block around
      (15, 16) and from two alternative cells; its other two exits lie
      outside that block. */
  lemma Building2Exits(x: int, y: int)
    ensures (14 <= x <= 16 && 15 <= y <= 17) || (x, y) == (20, 20) || (x, y) == (25, 16) ==>
      IsMapTransitionPoint(MAP_BUILDING2, x, y) == Some(MAP_SALON2009)
    ensures IsMapTransitionPoint(MAP_BUILDING2, 2, 5) == Some(MAP_SALON2010)
    ensures IsMapTransitionPoint(MAP_BUILDING2, 5, 5) == Some(MAP_MAIN)
  {
  }

  /** On the parking lot, the plaza and Lindavista every exit is marked
      interactive in the grid. */
  lemma RouteExitsMarked(mapId: string, x: int, y: int)
    requires mapId in {MAP_ESTACIONAMIENTO, MAP_TRAS_PLAZA, MAP_LINDAVISTA}
    requires IsMapTransitionPoint(mapId, x, y).Some?
    ensures CellFor(mapId, y, x) == INTERACTIVE
  {
  }

  /** On Turismo and Fuente the markers are transposed: the cells painted
      interactive are (x 20, y 5) and (x 20, y 35), which lead nowhere,
      while the exits at (5, 20) and (35, 20) are plain path. */
  lemma TurismoFuenteMarkersTransposed()
    ensures CellFor(MAP_TURISMO, 5, 20) == INTERACTIVE && IsMapTransitionPoint(MAP_TURISMO, 20, 5).None?
    ensures CellFor(MAP_TURISMO, 35, 20) == INTERACTIVE && IsMapTransitionPoint(MAP_TURISMO, 20, 35).None?
    ensures CellFor(MAP_TURISMO, 20, 5) == PATH && CellFor(MAP_TURISMO, 20, 35) == PATH
    ensures CellFor(MAP_FUENTE, 5, 20) == INTERACTIVE && IsMapTransitionPoint(MAP_FUENTE, 20, 5).None?
    ensures CellFor(MAP_FUENTE, 20, 5) == PATH
  {
  }

  /** The table does not consult the grid: exits sit on interactive cells,
      plain path and even walls. */
  lemma ExitsIgnoreCellKind()
    ensures IsMapTransitionPoint(MAP_MAIN, 15, 10).Some? && CellFor(MAP_MAIN, 10, 15) == INTERACTIVE
    ensures IsMapTransitionPoint(MAP_MAIN, 33, 34).Some? && CellFor(MAP_MAIN, 34, 33) == PATH
    ensures IsMapTransitionPoint(MAP_SALON2009, 1, 20).Some? && CellFor(MAP_SALON2009, 20, 1) == WALL
  {
  }

  /** Spawns on the campus, the salons, the plaza, Lindavista and Fuente,
      and for unknown maps, are on cells a player may stand on. */
  lemma SpawnWalkable(mapId: string)
    requires mapId !in {MAP_BUILDING2, MAP_CAFETERIA, MAP_ESTACIONAMIENTO, MAP_TURISMO}
    ensures Walkable(CellFor(mapId, GetInitialPositionForMap(mapId).1, GetInitialPositionForMap(mapId).0))
  {
  }

  /** The other four spawns are on blocked cells: building 2's in the wall
      above the corridor, the cafeteria's in the kitchen wall, the parking
      lot's in the guard booth and Turismo's outside its U-shaped path. */
  lemma SpawnBlocked(mapId: string)
    requires mapId in {MAP_BUILDING2, MAP_CAFETERIA, MAP_ESTACIONAMIENTO, MAP_TURISMO}
    ensures !Walkable(CellFor(mapId, GetInitialPositionForMap(mapId).1, GetInitialPositionForMap(mapId).0))
  {
  }
}
