/** What every generated map grid holds, cell by cell (`MapMatrixProvider`'s
    `create*Matrix` functions). Cell `(i, j)` is row `i` (the `y` coordinate)
    and column `j` (the `x` coordinate), as in the Kotlin `matrix[i][j]`.
    Where features overlap, the one the generator paints last is listed
    first. */
module GridSpec {
  import opened MapNames

  const INTERACTIVE := 0
  const WALL := 1
  const PATH := 2
  const INACCESSIBLE := 3

  const MAP_WIDTH := 40
  const MAP_HEIGHT := 40

  predicate InGrid(i: int, j: int) {
    0 <= i < MAP_HEIGHT && 0 <= j < MAP_WIDTH
  }

  predicate IsBorder(i: int, j: int) {
    i == 0 || i == MAP_HEIGHT - 1 || j == 0 || j == MAP_WIDTH - 1
  }

  /** A player may stand on a cell unless it is a wall or an obstacle. */
  predicate Walkable(c: int) {
    c != WALL && c != INACCESSIBLE
  }

  /** Any map without a layout of its own: a wall around open ground. */
  function DefaultCell(i: int, j: int): int {
    if IsBorder(i, j) then WALL else PATH
  }

  /** The campus grounds shared by the main map and salon 2010: walled,
      with the building-2 entrance at row 10 column 15, a tree every 7th row
      and 8th column, and a cleared square in the middle. */
  function CampusCell(i: int, j: int): int {
    if 15 <= i <= 25 && 15 <= j <= 25 then PATH
    else if IsBorder(i, j) then WALL
    else if i == 10 && j == 15 then INTERACTIVE
    else if i % 7 == 0 && j % 8 == 0 then INACCESSIBLE
    else PATH
  }

  /** The main campus also marks the way to the car park at row 5 column 25. */
  function MainCell(i: int, j: int): int {
    if i == 5 && j == 25 then INTERACTIVE else CampusCell(i, j)
  }

  function Salon2010Cell(i: int, j: int): int {
    CampusCell(i, j)
  }

  /** Columns inside the six classrooms of building 2 (every room but the
      staircase, which spans columns 16..20). */
  predicate ClassroomColumn(j: int) {
    2 <= j <= 35 && j % 5 != 1 && !(16 <= j <= 20)
  }

  /** Columns of the three-cell doors from the classrooms into the corridor. */
  predicate DoorColumn(j: int) {
    2 <= j <= 34 && j % 5 >= 2 && !(17 <= j <= 19)
  }

  /** Building 2: a row of classrooms (rows 8..16) above a corridor
      (rows 17..19), with the staircase in the fourth bay. */
  function Building2Cell(i: int, j: int): int {
    if 9 <= i <= 15 && ClassroomColumn(j) then PATH
    else if i == 18 && j in {2, 13, 18, 20, 26} then INTERACTIVE
    else if 17 <= i <= 19 && 1 <= j <= 38 then PATH
    else if i == 16 && DoorColumn(j) then PATH
    else if 11 <= i <= 13 && 17 <= j <= 19 then INTERACTIVE
    else if 9 <= i <= 15 && 16 <= j <= 20 then PATH
    else if (i == 8 || i == 16) && 1 <= j <= 38 then WALL
    else if 8 <= i <= 15 && 1 <= j <= 36 && j % 5 == 1 then WALL
    else if 7 <= i <= 21 && (j == 0 || j == 39) then WALL
    else if i == 7 || i == 21 then WALL
    else PATH
  }

  /** The 4 x 5 student desks of salon 2009, each two rows by three columns. */
  predicate StudentDesk(i: int, j: int) {
    13 <= i <= 26 && (i - 13) % 4 <= 1 && 8 <= j <= 30 && (j - 8) % 5 <= 2
  }

  /** Salon 2009: a classroom (rows 5..29, columns 5..34) inside solid wall,
      with blackboard, teacher's desk, student desks and a door at column 1. */
  function Salon2009Cell(i: int, j: int): int {
    if StudentDesk(i, j) then INACCESSIBLE
    else if 8 <= i <= 10 && 15 <= j <= 24 then INACCESSIBLE
    else if i == 6 && j == 20 then INTERACTIVE
    else if i == 6 && 7 <= j <= 32 then INACCESSIBLE
    else if i == 17 && j == 1 then INTERACTIVE
    else if 5 <= i <= 29 && 5 <= j <= 34 then PATH
    else WALL
  }

  /** The nine long tables of the cafeteria, three by three. */
  predicate CafeTable(i: int, j: int) {
    12 <= i <= 30 && (i - 12) % 8 <= 2 && 10 <= j <= 38 && (j - 10) % 10 <= 8
  }

  /** The eight dishes on offer (tacos, burritos, guacamole, chile). */
  predicate CafeDish(i: int, j: int) {
    || (i == 12 && j in {8, 32, 33})
    || (i == 28 && j in {8, 32, 33})
    || (i == 20 && j in {8, 32})
  }

  function CafeteriaCell(i: int, j: int): int {
    if CafeDish(i, j) then INTERACTIVE
    else if 37 <= i <= 38 && 15 <= j <= 25 then INTERACTIVE
    else if 30 <= i <= 33 && 15 <= j <= 19 then INACCESSIBLE
    else if CafeTable(i, j) then INACCESSIBLE
    else if 4 <= i <= 6 && 4 <= j <= 13 then INACCESSIBLE
    else if 2 <= i <= 8 && 2 <= j <= 15 && (i == 2 || i == 8 || j == 2 || j == 15) then WALL
    else if IsBorder(i, j) then WALL
    else PATH
  }

  /** Four bands of parked cars, three rows deep, one every fifth column. */
  predicate ParkedCar(i: int, j: int) {
    10 <= i <= 33 && (i - 10) % 7 <= 2 && 8 <= j <= 31 && j % 5 == 0
  }

  function EstacionamientoCell(i: int, j: int): int {
    if (i == 38 && j == 20) || (i == 20 && j == 35) then INTERACTIVE
    else if 30 <= i <= 33 && 15 <= j <= 20 then INACCESSIBLE
    else if ParkedCar(i, j) then INACCESSIBLE
    else if 5 <= i <= 34 && 5 <= j <= 34 then PATH
    else WALL
  }

  function TrasPlazaCell(i: int, j: int): int {
    if (i == 20 && j == 5) || (i == 20 && j == 35) || (i == 10 && j == 30) then INTERACTIVE
    else if (i == 17 || i == 23) && j in {10, 20, 30} then INACCESSIBLE
    else if 25 <= i <= 35 && 25 <= j <= 35 then INACCESSIBLE
    else if 5 <= i <= 15 && 5 <= j <= 15 then INACCESSIBLE
    else if 18 <= i <= 22 then PATH
    else WALL
  }

  function LindavistaCell(i: int, j: int): int {
    if i == 20 && j in {5, 10, 35} then INTERACTIVE
    else if (5 <= i <= 15 || 25 <= i <= 35) && (5 <= j <= 15 || 25 <= j <= 35) then INACCESSIBLE
    else if IsBorder(i, j) then WALL
    else PATH
  }

  function TurismoCell(i: int, j: int): int {
    if (i == 10 && j == 20) || (i == 25 && j in {15, 25}) || (i in {5, 35} && j == 20) then INTERACTIVE
    else if 15 <= i <= 25 && 5 <= j <= 35 then PATH
    else if (i == 5 || i == 35) && 5 <= j <= 34 then PATH
    else if 5 <= i <= 35 && (j == 5 || j == 35) then PATH
    else WALL
  }

  /** Squared distance from the fountain at the centre of the map. */
  function FountainDistance2(i: int, j: int): int {
    (i - MAP_HEIGHT / 2) * (i - MAP_HEIGHT / 2) + (j - MAP_WIDTH / 2) * (j - MAP_WIDTH / 2)
  }

  /** The eight benches, twelve cells from the centre at every 45 degrees
      (the source computes them with `cos`/`sin`; see README). */
  predicate FountainBench(i: int, j: int) {
    || (i == 20 && j in {8, 32})
    || (i == 28 && j in {12, 28})
    || (i == 12 && j in {12, 28})
    || (j == 20 && i in {8, 32})
  }

  function FuenteCell(i: int, j: int): int {
    if (i == 5 && j == 20) || (i == 20 && j == 20) then INTERACTIVE
    else if FountainBench(i, j) then INACCESSIBLE
    else if 10 <= i <= 30 && 10 <= j <= 30 && 64 <= FountainDistance2(i, j) <= 100 then PATH
    else if FountainDistance2(i, j) < 64 then INACCESSIBLE
    else if IsBorder(i, j) then WALL
    else PATH
  }

  /** `getMatrixForMap`: the grid of a map identifier, the default grid for
      any identifier that is not one of the ten. Every cell is one of the
      four cell kinds. */
  function CellFor(mapId: string, i: int, j: int): (c: int)
    ensures INTERACTIVE <= c <= INACCESSIBLE
  {
    if mapId == MAP_MAIN then MainCell(i, j)
    else if mapId == MAP_BUILDING2 then Building2Cell(i, j)
    else if mapId == MAP_SALON2009 then Salon2009Cell(i, j)
    else if mapId == MAP_SALON2010 then Salon2010Cell(i, j)
    else if mapId == MAP_CAFETERIA then CafeteriaCell(i, j)
    else if mapId == MAP_ESTACIONAMIENTO then EstacionamientoCell(i, j)
    else if mapId == MAP_TRAS_PLAZA then TrasPlazaCell(i, j)
    else if mapId == MAP_LINDAVISTA then LindavistaCell(i, j)
    else if mapId == MAP_TURISMO then TurismoCell(i, j)
    else if mapId == MAP_FUENTE then FuenteCell(i, j)
    else DefaultCell(i, j)
  }

  /** Any identifier that is not one of the ten maps gets a grid that is
      wall exactly on its border and open everywhere else. */
  lemma UnknownMapGrid(mapId: string, i: int, j: int)
    requires mapId !in CanonicalMaps && InGrid(i, j)
    ensures CellFor(mapId, i, j) == WALL <==> IsBorder(i, j)
    ensures CellFor(mapId, i, j) != WALL ==> CellFor(mapId, i, j) == PATH
  {
  }

  /** The fountain map is walled all round, its basin (every cell closer
      than eight to the centre) is blocked, and the centre itself is the
      wishing well. */
  lemma {:induction false} FuenteGrid(i: int, j: int)
    requires InGrid(i, j)
    ensures IsBorder(i, j) ==> FuenteCell(i, j) == WALL
    ensures 0 < FountainDistance2(i, j) < 64 ==> FuenteCell(i, j) == INACCESSIBLE
    ensures FuenteCell(20, 20) == INTERACTIVE
  {
    if IsBorder(i, j) {
      if i == 0 || i == MAP_HEIGHT - 1 {
        assert (i - 20) * (i - 20) >= 361;
      } else {
        assert (j - 20) * (j - 20) >= 361;
      }
    }
  }

  /** The Fuente grid as it would be without the pass that paints the walk
      around the basin. */
  function FuenteCellWithoutWalk(i: int, j: int): int {
    if (i == 5 && j == 20) || (i == 20 && j == 20) then INTERACTIVE
    else if FountainBench(i, j) then INACCESSIBLE
    else if FountainDistance2(i, j) < 64 then INACCESSIBLE
    else if IsBorder(i, j) then WALL
    else PATH
  }

  /** The walk pass repaints only open ground: dropping it leaves every
      cell as it was. */
  lemma FountainWalkChangesNothing(i: int, j: int)
    requires InGrid(i, j)
    ensures FuenteCell(i, j) == FuenteCellWithoutWalk(i, j)
  {
  }
}
