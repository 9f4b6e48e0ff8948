/** The map generators of `MapMatrixProvider`: each allocates a fresh
    40 x 40 grid and paints it feature by feature, in the source's order.
    Each is proved to produce the closed-form grid of `GridSpec`. */
module GridFill {
  import opened Options
  import opened MapNames
  import opened GridSpec

  predicate IsGrid(m: array2<int>) {
    m.Length0 == MAP_HEIGHT && m.Length1 == MAP_WIDTH
  }

  /** `Array(MAP_HEIGHT) { Array(MAP_WIDTH) { v } }` */
  method NewGrid(v: int) returns (m: array2<int>)
    ensures fresh(m) && IsGrid(m)
    ensures forall i, j :: InGrid(i, j) ==> m[i, j] == v
  {
    m := new int[MAP_HEIGHT, MAP_WIDTH]((i, j) => v);
  }

  /** The nested `for` loop over rows `top..bottom` and columns
      `left..right` that writes `rule(i, j)` wherever the rule gives a value
      and leaves the other cells alone. */
  method Paint(m: array2<int>, top: int, bottom: int, left: int, right: int,
               rule: (int, int) -> Option<int>)
    requires IsGrid(m)
    requires 0 <= top <= bottom < MAP_HEIGHT && 0 <= left <= right < MAP_WIDTH
    modifies m
    ensures forall a, b :: InGrid(a, b) ==>
      m[a, b] == if top <= a <= bottom && left <= b <= right && rule(a, b).Some?
                 then rule(a, b).value else old(m[a, b])
  {
    var i := top;
    while i <= bottom
      invariant top <= i <= bottom + 1
      invariant forall a, b :: InGrid(a, b) ==>
        m[a, b] == if top <= a < i && left <= b <= right && rule(a, b).Some?
                   then rule(a, b).value else old(m[a, b])
    {
      var j := left;
      while j <= right
        invariant left <= j <= right + 1
        invariant forall a, b :: InGrid(a, b) ==>
          m[a, b] == if ((top <= a < i && left <= b <= right) || (a == i && left <= b < j)) && rule(a, b).Some?
                     then rule(a, b).value else old(m[a, b])
      {
        match rule(i, j) {
          case Some(v) => m[i, j] := v;
          case None =>
        }
        j := j + 1;
      }
      i := i + 1;
    }
  }

  /** Sets every cell of the rectangle `top..bottom` x `left..right` to `v`. */
  method FillRect(m: array2<int>, top: int, bottom: int, left: int, right: int, v: int)
    requires IsGrid(m)
    requires 0 <= top <= bottom < MAP_HEIGHT && 0 <= left <= right < MAP_WIDTH
    modifies m
    ensures forall a, b :: InGrid(a, b) ==>
      m[a, b] == if top <= a <= bottom && left <= b <= right then v else old(m[a, b])
  {
    Paint(m, top, bottom, left, right, (a, b) => Some(v));
  }

  /** The outer-wall pass: every border cell becomes `v`. */
  method PaintBorder(m: array2<int>, v: int)
    requires IsGrid(m)
    modifies m
    ensures forall a, b :: InGrid(a, b) ==> m[a, b] == if IsBorder(a, b) then v else old(m[a, b])
  {
    Paint(m, 0, MAP_HEIGHT - 1, 0, MAP_WIDTH - 1, (a, b) => if IsBorder(a, b) then Some(v) else None);
  }

  /** The first pass of the campus maps: walls, the building-2 entrance,
      trees, and the "special paths" branch that rewrites open ground. */
  function CampusRule(i: int, j: int): Option<int> {
    if IsBorder(i, j) then Some(WALL)
    else if i == 10 && j == 15 then Some(INTERACTIVE)
    else if i % 7 == 0 && j % 8 == 0 then Some(INACCESSIBLE)
    else if (i % 5 == 0 || j % 5 == 0) && i > 5 && j > 5 then Some(PATH)
    else None
  }

  method CreateMainMapMatrix() returns (m: array2<int>)
    ensures fresh(m) && IsGrid(m)
    ensures forall i, j :: InGrid(i, j) ==> m[i, j] == MainCell(i, j)
  {
    m := NewGrid(PATH);
    Paint(m, 0, MAP_HEIGHT - 1, 0, MAP_WIDTH - 1, CampusRule);
    FillRect(m, 15, 25, 15, 25, PATH);
    m[5, 25] := INTERACTIVE;
  }

  method CreateSalon2010Matrix() returns (m: array2<int>)
    ensures fresh(m) && IsGrid(m)
    ensures forall i, j :: InGrid(i, j) ==> m[i, j] == Salon2010Cell(i, j)
  {
    m := NewGrid(PATH);
    Paint(m, 0, MAP_HEIGHT - 1, 0, MAP_WIDTH - 1, CampusRule);
    FillRect(m, 15, 25, 15, 25, PATH);
  }

  /** The walls between the seven bays of building 2, at columns 1 + 5k. */
  method BuildRoomDividers(m: array2<int>)
    requires IsGrid(m)
    modifies m
    ensures forall a, b :: InGrid(a, b) ==>
      m[a, b] == if 8 <= a <= 15 && 1 <= b <= 36 && b % 5 == 1 then WALL else old(m[a, b])
  {
    var k := 0;
    while k <= 7
      invariant 0 <= k <= 8
      invariant forall a, b :: InGrid(a, b) ==>
        m[a, b] == if 8 <= a <= 15 && 1 <= b < 1 + 5 * k && b % 5 == 1 then WALL else old(m[a, b])
    {
      FillRect(m, 8, 15, 1 + 5 * k, 1 + 5 * k, WALL);
      k := k + 1;
    }
  }

  /** Three-cell doors in row 16 for every bay but the staircase (bay 3). */
  method BuildClassroomDoors(m: array2<int>)
    requires IsGrid(m)
    modifies m
    ensures forall a, b :: InGrid(a, b) ==>
      m[a, b] == if a == 16 && DoorColumn(b) then PATH else old(m[a, b])
  {
    var k := 0;
    while k < 7
      invariant 0 <= k <= 7
      invariant forall a, b :: InGrid(a, b) ==>
        m[a, b] == if a == 16 && DoorColumn(b) && b < 2 + 5 * k then PATH else old(m[a, b])
    {
      if k != 3 {
        var doorX := 1 + 5 * k + 2;
        m[16, doorX] := PATH;
        m[16, doorX - 1] := PATH;
        m[16, doorX + 1] := PATH;
      }
      k := k + 1;
    }
  }

  /** Clears the inside of every classroom (all bays but the staircase). */
  method ClearClassrooms(m: array2<int>)
    requires IsGrid(m)
    modifies m
    ensures forall a, b :: InGrid(a, b) ==>
      m[a, b] == if 9 <= a <= 15 && ClassroomColumn(b) then PATH else old(m[a, b])
  {
    var k := 0;
    while k < 7
      invariant 0 <= k <= 7
      invariant forall a, b :: InGrid(a, b) ==>
        m[a, b] == if 9 <= a <= 15 && ClassroomColumn(b) && b < 2 + 5 * k then PATH else old(m[a, b])
    {
      if k != 3 {
        FillRect(m, 9, 15, 2 + 5 * k, 5 + 5 * k, PATH);
      }
      k := k + 1;
    }
  }

  method CreateBuilding2Matrix() returns (m: array2<int>)
    ensures fresh(m) && IsGrid(m)
    ensures forall i, j :: InGrid(i, j) ==> m[i, j] == Building2Cell(i, j)
  {
    m := NewGrid(PATH);
    FillRect(m, 7, 7, 0, MAP_WIDTH - 1, WALL);
    FillRect(m, 21, 21, 0, MAP_WIDTH - 1, WALL);
    Paint(m, 7, 21, 0, MAP_WIDTH - 1, (i, j) => if j == 0 || j == MAP_WIDTH - 1 then Some(WALL) else None);
    BuildRoomDividers(m);
    Paint(m, 8, 16, 1, MAP_WIDTH - 2, (i, j) => if i == 8 || i == 16 then Some(WALL) else None);
    FillRect(m, 9, 15, 16, 20, PATH);
    FillRect(m, 11, 13, 17, 19, INTERACTIVE);
    BuildClassroomDoors(m);
    FillRect(m, 17, 19, 1, MAP_WIDTH - 2, PATH);
    m[18, 20] := INTERACTIVE;
    m[18, 13] := INTERACTIVE;
    m[18, 26] := INTERACTIVE;
    m[18, 18] := INTERACTIVE;
    m[18, 2] := INTERACTIVE;
    ClearClassrooms(m);
  }

  /** Four rows of five desks, each two rows by three columns. */
  method PlaceStudentDesks(m: array2<int>)
    requires IsGrid(m)
    modifies m
    ensures forall a, b :: InGrid(a, b) ==>
      m[a, b] == if StudentDesk(a, b) then INACCESSIBLE else old(m[a, b])
  {
    var row := 0;
    while row < 4
      invariant 0 <= row <= 4
      invariant forall a, b :: InGrid(a, b) ==>
        m[a, b] == if StudentDesk(a, b) && a < 13 + 4 * row then INACCESSIBLE else old(m[a, b])
    {
      var rowY := 13 + 4 * row;
      var desk := 0;
      while desk < 5
        invariant 0 <= desk <= 5
        invariant forall a, b :: InGrid(a, b) ==>
          m[a, b] == if StudentDesk(a, b) && (a < rowY || (a <= rowY + 1 && b < 8 + 5 * desk))
                     then INACCESSIBLE else old(m[a, b])
      {
        var deskX := 8 + 5 * desk;
        FillRect(m, rowY, rowY + 1, deskX, deskX + 2, INACCESSIBLE);
        desk := desk + 1;
      }
      row := row + 1;
    }
  }

  method CreateSalon2009Matrix() returns (m: array2<int>)
    ensures fresh(m) && IsGrid(m)
    ensures forall i, j :: InGrid(i, j) ==> m[i, j] == Salon2009Cell(i, j)
  {
    m := NewGrid(WALL);
    FillRect(m, 5, 29, 5, 34, PATH);
    m[17, 1] := INTERACTIVE;
    FillRect(m, 6, 6, 7, 32, INACCESSIBLE);
    m[6, 20] := INTERACTIVE;
    FillRect(m, 8, 10, 15, 24, INACCESSIBLE);
    PlaceStudentDesks(m);
  }

  /** Three rows of three tables, each three rows by nine columns. */
  method PlaceCafeTables(m: array2<int>)
    requires IsGrid(m)
    modifies m
    ensures forall a, b :: InGrid(a, b) ==>
      m[a, b] == if CafeTable(a, b) then INACCESSIBLE else old(m[a, b])
  {
    var row := 0;
    while row <= 2
      invariant 0 <= row <= 3
      invariant forall a, b :: InGrid(a, b) ==>
        m[a, b] == if CafeTable(a, b) && a < 12 + 8 * row then INACCESSIBLE else old(m[a, b])
    {
      var baseI := 12 + 8 * row;
      var col := 0;
      while col <= 2
        invariant 0 <= col <= 3
        invariant forall a, b :: InGrid(a, b) ==>
          m[a, b] == if CafeTable(a, b) && (a < baseI || (a <= baseI + 2 && b < 10 + 10 * col))
                     then INACCESSIBLE else old(m[a, b])
      {
        var baseJ := 10 + 10 * col;
        FillRect(m, baseI, baseI + 2, baseJ, baseJ + 8, INACCESSIBLE);
        col := col + 1;
      }
      row := row + 1;
    }
  }

  method CreateCafeEscomMatrix() returns (m: array2<int>)
    ensures fresh(m) && IsGrid(m)
    ensures forall i, j :: InGrid(i, j) ==> m[i, j] == CafeteriaCell(i, j)
  {
    m := NewGrid(PATH);
    PaintBorder(m, WALL);
    Paint(m, 2, 8, 2, 15, (i, j) => if i == 2 || i == 8 || j == 2 || j == 15 then Some(WALL) else None);
    FillRect(m, 4, 6, 4, 13, INACCESSIBLE);
    PlaceCafeTables(m);
    FillRect(m, 30, 33, 15, 19, INACCESSIBLE);
    FillRect(m, 37, 38, 15, 25, INTERACTIVE);
    m[12, 8] := INTERACTIVE;
    m[12, 32] := INTERACTIVE;
    m[28, 8] := INTERACTIVE;
    m[28, 32] := INTERACTIVE;
    m[12, 33] := INTERACTIVE;
    m[28, 33] := INTERACTIVE;
    m[20, 8] := INTERACTIVE;
    m[20, 32] := INTERACTIVE;
  }

  /** Four bands of cars, one every fifth column, three rows deep. */
  method ParkCars(m: array2<int>)
    requires IsGrid(m)
    modifies m
    ensures forall a, b :: InGrid(a, b) ==>
      m[a, b] == if ParkedCar(a, b) then INACCESSIBLE else old(m[a, b])
  {
    var row := 0;
    while row <= 3
      invariant 0 <= row <= 4
      invariant forall a, b :: InGrid(a, b) ==>
        m[a, b] == if ParkedCar(a, b) && a < 10 + 7 * row then INACCESSIBLE else old(m[a, b])
    {
      var rowY := 10 + 7 * row;
      Paint(m, rowY, rowY + 2, 8, MAP_WIDTH - 9, (i, j) => if j % 5 == 0 then Some(INACCESSIBLE) else None);
      row := row + 1;
    }
  }

  method CreateEstacionamientoMatrix() returns (m: array2<int>)
    ensures fresh(m) && IsGrid(m)
    ensures forall i, j :: InGrid(i, j) ==> m[i, j] == EstacionamientoCell(i, j)
  {
    m := NewGrid(WALL);
    FillRect(m, 5, MAP_HEIGHT - 6, 5, MAP_WIDTH - 6, PATH);
    ParkCars(m);
    FillRect(m, 30, 33, 15, 20, INACCESSIBLE);
    m[38, 20] := INTERACTIVE;
    m[20, 35] := INTERACTIVE;
  }

  /** Benches along the road at columns 10, 20 and 30 (`step 10`). */
  method PlacePlazaBenches(m: array2<int>)
    requires IsGrid(m)
    modifies m
    ensures forall a, b :: InGrid(a, b) ==>
      m[a, b] == if (a == 17 || a == 23) && b in {10, 20, 30} then INACCESSIBLE else old(m[a, b])
  {
    var j := 10;
    while j <= 30
      invariant 10 <= j <= 40 && j % 10 == 0
      invariant forall a, b :: InGrid(a, b) ==>
        m[a, b] == if (a == 17 || a == 23) && b in {10, 20, 30} && b < j then INACCESSIBLE else old(m[a, b])
    {
      m[17, j] := INACCESSIBLE;
      m[23, j] := INACCESSIBLE;
      j := j + 10;
    }
  }

  method CreatePlazaMatrix() returns (m: array2<int>)
    ensures fresh(m) && IsGrid(m)
    ensures forall i, j :: InGrid(i, j) ==> m[i, j] == TrasPlazaCell(i, j)
  {
    m := NewGrid(WALL);
    FillRect(m, 18, 22, 0, MAP_WIDTH - 1, PATH);
    FillRect(m, 5, 15, 5, 15, INACCESSIBLE);
    FillRect(m, 25, 35, 25, 35, INACCESSIBLE);
    PlacePlazaBenches(m);
    m[20, 5] := INTERACTIVE;
    m[20, 35] := INTERACTIVE;
    m[10, 30] := INTERACTIVE;
  }

  method CreateLindavistaMatrix() returns (m: array2<int>)
    ensures fresh(m) && IsGrid(m)
    ensures forall i, j :: InGrid(i, j) ==> m[i, j] == LindavistaCell(i, j)
  {
    m := NewGrid(PATH);
    PaintBorder(m, WALL);
    FillRect(m, 5, 15, 5, 15, INACCESSIBLE);
    FillRect(m, 5, 15, 25, 35, INACCESSIBLE);
    FillRect(m, 25, 35, 5, 15, INACCESSIBLE);
    FillRect(m, 25, 35, 25, 35, INACCESSIBLE);
    m[20, 10] := INTERACTIVE;
    m[20, 5] := INTERACTIVE;
    m[20, 35] := INTERACTIVE;
  }

  method CreateTurismoMatrix() returns (m: array2<int>)
    ensures fresh(m) && IsGrid(m)
    ensures forall i, j :: InGrid(i, j) ==> m[i, j] == TurismoCell(i, j)
  {
    m := NewGrid(WALL);
    FillRect(m, 5, 5, 5, MAP_WIDTH - 6, PATH);
    Paint(m, 5, 35, 5, 35, (i, j) => if j == 5 || j == 35 then Some(PATH) else None);
    FillRect(m, 35, 35, 5, MAP_WIDTH - 6, PATH);
    FillRect(m, 15, 25, 5, 35, PATH);
    m[10, 20] := INTERACTIVE;
    m[25, 15] := INTERACTIVE;
    m[25, 25] := INTERACTIVE;
    m[5, 20] := INTERACTIVE;
    m[35, 20] := INTERACTIVE;
  }

  method CreateFuenteMatrix() returns (m: array2<int>)
    ensures fresh(m) && IsGrid(m)
    ensures forall i, j :: InGrid(i, j) ==> m[i, j] == FuenteCell(i, j)
  {
    m := NewGrid(PATH);
    PaintBorder(m, WALL);
    var centerX, centerY, radius := MAP_WIDTH / 2, MAP_HEIGHT / 2, 8;
    // the basin
    Paint(m, 0, MAP_HEIGHT - 1, 0, MAP_WIDTH - 1,
          (i, j) => if FountainDistance2(i, j) < radius * radius then Some(INACCESSIBLE) else None);
    // the walk around it
    Paint(m, centerY - radius - 2, centerY + radius + 2, centerX - radius - 2, centerX + radius + 2,
          (i, j) => if 0 <= i < MAP_HEIGHT && 0 <= j < MAP_WIDTH
                       && radius * radius <= FountainDistance2(i, j) <= (radius + 2) * (radius + 2)
                    then Some(PATH) else None);
    // benches at 0, 45, ..., 315 degrees: (centerX + trunc(12 cos), centerY + trunc(12 sin))
    m[20, 32] := INACCESSIBLE;
    m[28, 28] := INACCESSIBLE;
    m[32, 20] := INACCESSIBLE;
    m[28, 12] := INACCESSIBLE;
    m[20, 8] := INACCESSIBLE;
    m[12, 12] := INACCESSIBLE;
    m[8, 20] := INACCESSIBLE;
    m[12, 28] := INACCESSIBLE;
    m[5, 20] := INTERACTIVE;
    m[centerY, centerX] := INTERACTIVE;
  }

  method CreateDefaultMatrix() returns (m: array2<int>)
    ensures fresh(m) && IsGrid(m)
    ensures forall i, j :: InGrid(i, j) ==> m[i, j] == DefaultCell(i, j)
  {
    m := NewGrid(PATH);
    PaintBorder(m, WALL);
  }

  /** `getMatrixForMap`: the generator is chosen by exact identifier; any
      other identifier gets the default grid. */
  method GetMatrixForMap(mapId: string) returns (m: array2<int>)
    ensures fresh(m) && IsGrid(m)
    ensures forall i, j :: InGrid(i, j) ==> m[i, j] == CellFor(mapId, i, j)
  {
    if mapId == MAP_MAIN {
      m := CreateMainMapMatrix();
    } else if mapId == MAP_BUILDING2 {
      m := CreateBuilding2Matrix();
    } else if mapId == MAP_SALON2009 {
      m := CreateSalon2009Matrix();
    } else if mapId == MAP_SALON2010 {
      m := CreateSalon2010Matrix();
    } else if mapId == MAP_CAFETERIA {
      m := CreateCafeEscomMatrix();
    } else if mapId == MAP_ESTACIONAMIENTO {
      m := CreateEstacionamientoMatrix();
    } else if mapId == MAP_TRAS_PLAZA {
      m := CreatePlazaMatrix();
    } else if mapId == MAP_LINDAVISTA {
      m := CreateLindavistaMatrix();
    } else if mapId == MAP_TURISMO {
      m := CreateTurismoMatrix();
    } else if mapId == MAP_FUENTE {
      m := CreateFuenteMatrix();
    } else {
      m := CreateDefaultMatrix();
    }
  }
}
