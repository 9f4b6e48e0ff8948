# ESCOM campus maps and the fountain activity, in Dafny

This project models two parts of the Android campus-exploration game
"sensores_escom_v2".

The first is `MapMatrixProvider` and its `MapMatrix` wrapper, the world grid. It has five pieces:

- the map-name canonicaliser;
- the 40 x 40 collision grid of each of the ten maps plus the default grid;
- the table of exits between maps;
- the spawn table;
- the bounds-checked cell queries.

The second is the `TramoFuente` activity, the last map of the outdoor route. It has four pieces:

- the registry of remote players, updated by `positions`, `update`, `join` and `disconnect` messages from the server;
- what the activity hands to the map view and to the server connection;
- the A-button dispatch;
- the wishing-well minigame.

Modules:

- `MapNames` (`map_names.dfy`) covers the ten canonical identifiers and `normalizeMapName`. Lowercasing and substring search are written out, and the lemmas prove the keyword facts each canonical name needs.
- `GridSpec` (`grid_spec.dfy`) gives, for every map, a closed-form description of each cell (`MainCell`, `Building2Cell`, ..., `FuenteCell`). `CellFor` chooses among them the way `getMatrixForMap` does. Cell `(i, j)` is row `i` (the `y` coordinate) and column `j` (`x`), as in `matrix[i][j]`.
- `GridFill` (`grid_fill.dfy`) holds the generators. Each allocates a fresh `array2<int>` and paints it pass by pass with nested loops, in the source's order, so later passes overwrite earlier ones. Each generator is proved to yield exactly its closed form.
- `Transitions` (`transitions.dfy`) covers `isMapTransitionPoint` and `getInitialPositionForMap`, with lemmas that relate them to the grids.
- `Matrix` (`map_matrix.dfy`) is the `MapMatrix` class: its grid is built once by `GetMatrixForMap` and its queries are stated against `CellFor`.
- `WishingWell` (`wishing_well.dfy`) is the minigame as a state machine over `activeWish`, `hasCompletedWishingWell`, the wish dialog and the completions that choosing a wish schedules.
- `TramoFuenteActivity` (`tramo_fuente.dfy`) covers the decoded server messages, the pure effect of a message (`Receive`), and the `TramoFuente` class. The class keeps the registry as a `map` field and records the calls it makes on the view and the server as sequences.

Two conventions apply throughout:

- A position is `(x, y)`, and the cell under it is `CellFor(mapId, y, x)`.
- Lowercasing is ASCII-only. This is exact for the keyword tests, because no non-ASCII character lowercases into, or out of, a match of one of the ASCII keywords.

A player entering Fuente does not arrive at (5, 20), the cell next to the exit back to Turismo. Fuente's spawn (`Transitions.GetInitialPositionForMap`) and the activity's default position (`TramoFuente.constructor`) are both (20, 20): the wishing well in the middle of the basin.

The proofs also record several facts about the data:

- Four spawn cells are blocked (`Transitions.SpawnBlocked`).
- On Turismo and Fuente the exit markers are painted transposed (`Transitions.TurismoFuenteMarkersTransposed`).
- Some exits sit on walls (`Transitions.ExitsIgnoreCellKind`).

These are stated as lemmas rather than findings because the map view that consumes them is not part of this model.

## Model

| member | source | states |
|---|---|---|
| `MapNames.NormalizeMapName` | app/src/main/java/ovh/gabrielhuav/sensores_escom_v2/presentation/components/mapview/MapMatrixProvider.kt:38-66 | a missing or blank name gives `escom_main`; a non-blank name whose lowercase form holds no keyword is returned unchanged, casing included; every other result is one of the ten canonical identifiers |
| `MapNames.KeywordOrder` | app/src/main/java/ovh/gabrielhuav/sensores_escom_v2/presentation/components/mapview/MapMatrixProvider.kt:43-62 | for every non-blank name, the first keyword test its lowercase form passes decides the map: `main` without `building`, then `building2`/`edificio2`, `2009`, `2010`, `cafe`, `estacionamiento`, `plaza`/`atras`, `linda`, `turismo`, `fuente` |
| `MapNames.CanonicalFixed` | app/src/main/java/ovh/gabrielhuav/sensores_escom_v2/presentation/components/mapview/MapMatrixProvider.kt:25-36 | each of the ten canonical identifiers normalises to itself, despite the keyword order (for example `EstacionamientoEscom` does not fall into the earlier `main`/`cafe` branches) |
| `MapNames.NormalizeIdempotent` | app/src/main/java/ovh/gabrielhuav/sensores_escom_v2/presentation/components/mapview/MapMatrixProvider.kt:43-65 | normalising a normalised name changes nothing, for every input |
| `MapNames.MainAliases` | app/src/main/java/ovh/gabrielhuav/sensores_escom_v2/presentation/components/mapview/MapMatrixProvider.kt:39-47 | `Main`, `map_main`, `ESCOM_main_area`, a missing and a blank name all give `escom_main` |
| `GridSpec.CellFor` | app/src/main/java/ovh/gabrielhuav/sensores_escom_v2/presentation/components/mapview/MapMatrixProvider.kt:104-119 | every cell of every map's grid is one of the four cell kinds 0..3 |
| `GridSpec.UnknownMapGrid` | app/src/main/java/ovh/gabrielhuav/sensores_escom_v2/presentation/components/mapview/MapMatrixProvider.kt:748-761 | an unrecognised identifier gets the default grid: WALL exactly on the border, PATH everywhere else |
| `GridSpec.FuenteGrid` | app/src/main/java/ovh/gabrielhuav/sensores_escom_v2/presentation/components/mapview/MapMatrixProvider.kt:691-740 | on the fountain map every border cell is WALL, every cell at squared distance 1..63 from the centre is INACCESSIBLE, and the centre is INTERACTIVE |
| `GridSpec.FountainWalkChangesNothing` | app/src/main/java/ovh/gabrielhuav/sensores_escom_v2/presentation/components/mapview/MapMatrixProvider.kt:714-723 | the pass painting the walk around the basin only repaints open ground: the grid is the same without it |
| `GridFill.GetMatrixForMap` | app/src/main/java/ovh/gabrielhuav/sensores_escom_v2/presentation/components/mapview/MapMatrixProvider.kt:104-119 | returns a fresh 40 x 40 grid equal, cell by cell, to `CellFor` of the identifier (the default grid for unknown identifiers) |
| `GridFill.CreateMainMapMatrix` | app/src/main/java/ovh/gabrielhuav/sensores_escom_v2/presentation/components/mapview/MapMatrixProvider.kt:125-163 | the main campus: border walls, trees every 7th row and 8th column, the building-2 door at row 10 column 15, the cleared centre square, the parking-lot door at row 5 column 25 |
| `GridFill.CreateBuilding2Matrix` | app/src/main/java/ovh/gabrielhuav/sensores_escom_v2/presentation/components/mapview/MapMatrixProvider.kt:169-317 | building 2: outer walls, six classrooms and the staircase bay, doors, the corridor and its interactive points, exactly as `Building2Cell` |
| `GridFill.BuildRoomDividers` | app/src/main/java/ovh/gabrielhuav/sensores_escom_v2/presentation/components/mapview/MapMatrixProvider.kt:209-216 | walls at columns 1, 6, ..., 36 of rows 8..15 and nothing else changes |
| `GridFill.BuildClassroomDoors` | app/src/main/java/ovh/gabrielhuav/sensores_escom_v2/presentation/components/mapview/MapMatrixProvider.kt:254-265 | three-cell doors in row 16 for every bay but the staircase, nothing else changes |
| `GridFill.ClearClassrooms` | app/src/main/java/ovh/gabrielhuav/sensores_escom_v2/presentation/components/mapview/MapMatrixProvider.kt:301-314 | the inside of every classroom bay but the staircase becomes PATH, nothing else changes |
| `GridFill.CreateSalon2009Matrix` | app/src/main/java/ovh/gabrielhuav/sensores_escom_v2/presentation/components/mapview/MapMatrixProvider.kt:323-374 | salon 2009: the room inside solid wall, its door, blackboard, teacher's desk and the 4 x 5 student desks, exactly as `Salon2009Cell` |
| `GridFill.PlaceStudentDesks` | app/src/main/java/ovh/gabrielhuav/sensores_escom_v2/presentation/components/mapview/MapMatrixProvider.kt:357-371 | the twenty 2 x 3 desks become INACCESSIBLE, nothing else changes |
| `GridFill.CreateSalon2010Matrix` | app/src/main/java/ovh/gabrielhuav/sensores_escom_v2/presentation/components/mapview/MapMatrixProvider.kt:380-414 | salon 2010 is the campus layout without the parking-lot door |
| `GridFill.CreateCafeEscomMatrix` | app/src/main/java/ovh/gabrielhuav/sensores_escom_v2/presentation/components/mapview/MapMatrixProvider.kt:420-502 | the cafeteria: walls, kitchen, counter, nine tables, cash desk, entrance and the eight dishes, exactly as `CafeteriaCell` |
| `GridFill.PlaceCafeTables` | app/src/main/java/ovh/gabrielhuav/sensores_escom_v2/presentation/components/mapview/MapMatrixProvider.kt:456-468 | the nine 3 x 9 tables become INACCESSIBLE, nothing else changes |
| `GridFill.CreateEstacionamientoMatrix` | app/src/main/java/ovh/gabrielhuav/sensores_escom_v2/presentation/components/mapview/MapMatrixProvider.kt:507-545 | the parking lot: open ground in rows and columns 5..34, parked cars, the guard booth and the two exits, exactly as `EstacionamientoCell` |
| `GridFill.ParkCars` | app/src/main/java/ovh/gabrielhuav/sensores_escom_v2/presentation/components/mapview/MapMatrixProvider.kt:518-528 | four bands of cars three rows deep, every fifth column from 10 to 30, nothing else changes |
| `GridFill.CreatePlazaMatrix` | app/src/main/java/ovh/gabrielhuav/sensores_escom_v2/presentation/components/mapview/MapMatrixProvider.kt:550-589 | the plaza: the road in rows 18..22, two green areas, six benches and three interactive points, exactly as `TrasPlazaCell` |
| `GridFill.PlacePlazaBenches` | app/src/main/java/ovh/gabrielhuav/sensores_escom_v2/presentation/components/mapview/MapMatrixProvider.kt:574-577 | benches at columns 10, 20 and 30 of rows 17 and 23, nothing else changes |
| `GridFill.CreateLindavistaMatrix` | app/src/main/java/ovh/gabrielhuav/sensores_escom_v2/presentation/components/mapview/MapMatrixProvider.kt:594-641 | Lindavista: border walls, four buildings and three interactive points, exactly as `LindavistaCell` |
| `GridFill.CreateTurismoMatrix` | app/src/main/java/ovh/gabrielhuav/sensores_escom_v2/presentation/components/mapview/MapMatrixProvider.kt:646-682 | Turismo: the U-shaped path, the wide centre band and five interactive points inside solid wall, exactly as `TurismoCell` |
| `GridFill.CreateFuenteMatrix` | app/src/main/java/ovh/gabrielhuav/sensores_escom_v2/presentation/components/mapview/MapMatrixProvider.kt:687-743 | Fuente: border walls, the basin of radius 8, the walk around it, eight benches and the two interactive points, exactly as `FuenteCell` |
| `GridFill.CreateDefaultMatrix` | app/src/main/java/ovh/gabrielhuav/sensores_escom_v2/presentation/components/mapview/MapMatrixProvider.kt:748-761 | border walls around open ground |
| `Transitions.IsMapTransitionPoint` | app/src/main/java/ovh/gabrielhuav/sensores_escom_v2/presentation/components/mapview/MapMatrixProvider.kt:767-861 | an exit exists only on one of the ten maps and always leads to a different one of the ten |
| `Transitions.GetInitialPositionForMap` | app/src/main/java/ovh/gabrielhuav/sensores_escom_v2/presentation/components/mapview/MapMatrixProvider.kt:867-885 | every spawn is on the grid; Fuente and every unknown map spawn at the centre (20, 20) |
| `Transitions.LinearRouteIsReciprocal` | app/src/main/java/ovh/gabrielhuav/sensores_escom_v2/presentation/components/mapview/MapMatrixProvider.kt:819-858 | along parking lot, plaza, Lindavista, Turismo, Fuente, (35, 20) leads to the next map and (5, 20) on that map leads back |
| `Transitions.MainParkingLink` | app/src/main/java/ovh/gabrielhuav/sensores_escom_v2/presentation/components/mapview/MapMatrixProvider.kt:778-822 | main (25, 5) leads to the parking lot and the parking lot's (20, 38) leads back to main |
| `Transitions.RouteExitsOnly` | app/src/main/java/ovh/gabrielhuav/sensores_escom_v2/presentation/components/mapview/MapMatrixProvider.kt:819-858 | on the route maps only the listed exit cells lead anywhere; every other coordinate gives no exit |
| `Transitions.Building2Exits` | app/src/main/java/ovh/gabrielhuav/sensores_escom_v2/presentation/components/mapview/MapMatrixProvider.kt:781-800 | building 2 leads to salon 2009 from all of x 14..16, y 15..17 and from (20, 20) and (25, 16); (2, 5) leads to salon 2010 and (5, 5) to main |
| `Transitions.RouteExitsMarked` | app/src/main/java/ovh/gabrielhuav/sensores_escom_v2/presentation/components/mapview/MapMatrixProvider.kt:537-638 | on the parking lot, the plaza and Lindavista every exit cell is painted INTERACTIVE |
| `Transitions.TurismoFuenteMarkersTransposed` | app/src/main/java/ovh/gabrielhuav/sensores_escom_v2/presentation/components/mapview/MapMatrixProvider.kt:675-737 | on Turismo and Fuente the cells painted as exits are (x 20, y 5) and (x 20, y 35), which lead nowhere, while the real exits (5, 20) and (35, 20) are plain PATH |
| `Transitions.ExitsIgnoreCellKind` | app/src/main/java/ovh/gabrielhuav/sensores_escom_v2/presentation/components/mapview/MapMatrixProvider.kt:767-861 | the exit table is independent of the grid: exits lie on an INTERACTIVE cell, a PATH cell and a WALL cell |
| `Transitions.SpawnWalkable` | app/src/main/java/ovh/gabrielhuav/sensores_escom_v2/presentation/components/mapview/MapMatrixProvider.kt:867-885 | the spawns of main, both salons, the plaza, Lindavista, Fuente and unknown maps are cells a player may stand on |
| `Transitions.SpawnBlocked` | app/src/main/java/ovh/gabrielhuav/sensores_escom_v2/presentation/components/mapview/MapMatrixProvider.kt:867-885 | the spawns of building 2, the cafeteria, the parking lot and Turismo are WALL or INACCESSIBLE cells |
| `Matrix.MapMatrix.constructor` | app/src/main/java/ovh/gabrielhuav/sensores_escom_v2/presentation/components/mapview/MapMatrixProvider.kt:892-893 | the matrix is a fresh grid of the map, cell by cell `CellFor` of its identifier |
| `Matrix.MapMatrix.GetValueAt` | app/src/main/java/ovh/gabrielhuav/sensores_escom_v2/presentation/components/mapview/MapMatrixProvider.kt:910-916 | the map's cell at row y, column x when both are in 0..39, otherwise -1 |
| `Matrix.MapMatrix.IsValidPosition` | app/src/main/java/ovh/gabrielhuav/sensores_escom_v2/presentation/components/mapview/MapMatrixProvider.kt:918-923 | holds iff the position is on the map and its cell is neither WALL nor INACCESSIBLE, equivalently iff `GetValueAt` is PATH or INTERACTIVE |
| `Matrix.MapMatrix.IsInteractivePosition` | app/src/main/java/ovh/gabrielhuav/sensores_escom_v2/presentation/components/mapview/MapMatrixProvider.kt:925-929 | holds iff `GetValueAt` is INTERACTIVE; every interactive position is a valid one |
| `Matrix.MapMatrix.IsMapTransitionPoint` | app/src/main/java/ovh/gabrielhuav/sensores_escom_v2/presentation/components/mapview/MapMatrixProvider.kt:931-933 | the provider's exit table for this map; an exit leads to another canonical map |
| `WishingWell.StartAsWritten` | app/src/main/java/ovh/gabrielhuav/sensores_escom_v2/presentation/components/ipn.zacatenco.escom.tramofuente/TramoFuente.kt:246-250 | starting is a no-op once the well is completed (and while a dialog is showing) |
| `WishingWell.Start` | app/src/main/java/ovh/gabrielhuav/sensores_escom_v2/presentation/components/ipn.zacatenco.escom.tramofuente/TramoFuente.kt:246-250 | the corrected start: also a no-op while a wish is in flight; it never touches the wish, completion or grant counters |
| `WishingWell.CompleteMiniGame` | app/src/main/java/ovh/gabrielhuav/sensores_escom_v2/presentation/components/ipn.zacatenco.escom.tramofuente/TramoFuente.kt:282-286 | nothing happens unless a wish is active; otherwise the wish is cleared, the well completed and one wish granted |
| `WishingWell.AsWrittenGrantsTwice` | app/src/main/java/ovh/gabrielhuav/sensores_escom_v2/presentation/components/ipn.zacatenco.escom.tramofuente/TramoFuente.kt:246-275 | with the source's guard, the run A, choose, A, completion, choose, completion grants two wishes |
| `WishingWell.ShippedNeverGrants` | app/src/main/java/ovh/gabrielhuav/sensores_escom_v2/presentation/components/ipn.zacatenco.escom.tramofuente/TramoFuente.kt:260-279 | with the dialog as shipped, which offers no wish to choose, no sequence of presses, cancels and timers activates a wish, grants one or completes the well |
| `WishingWell.ListedDialogGrants` | app/src/main/java/ovh/gabrielhuav/sensores_escom_v2/presentation/components/ipn.zacatenco.escom.tramofuente/TramoFuente.kt:263-286 | with the wishes listed, pressing A at the well, choosing a wish and letting the coin land grants it and completes the well |
| `WishingWell.InitialInv` | app/src/main/java/ovh/gabrielhuav/sensores_escom_v2/presentation/components/ipn.zacatenco.escom.tramofuente/TramoFuente.kt:51-52 | the fresh flags satisfy the well's invariant |
| `WishingWell.StepPreservesInv` | app/src/main/java/ovh/gabrielhuav/sensores_escom_v2/presentation/components/ipn.zacatenco.escom.tramofuente/TramoFuente.kt:246-286 | every press, choice, cancel and completion keeps the invariant: completed iff one wish granted, never more than one |
| `WishingWell.RunPreservesInv` | app/src/main/java/ovh/gabrielhuav/sensores_escom_v2/presentation/components/ipn.zacatenco.escom.tramofuente/TramoFuente.kt:246-286 | any sequence of events keeps the invariant |
| `WishingWell.GrantsAtMostOnce` | app/src/main/java/ovh/gabrielhuav/sensores_escom_v2/presentation/components/ipn.zacatenco.escom.tramofuente/TramoFuente.kt:282-286 | with the corrected guard, no sequence of events grants more than one wish |
| `WishingWell.CompletedIsFinal` | app/src/main/java/ovh/gabrielhuav/sensores_escom_v2/presentation/components/ipn.zacatenco.escom.tramofuente/TramoFuente.kt:246-250 | once completed, the well stays completed and grants nothing more, whatever happens next |
| `WishingWell.StartAgreesWhenIdle` | app/src/main/java/ovh/gabrielhuav/sensores_escom_v2/presentation/components/ipn.zacatenco.escom.tramofuente/TramoFuente.kt:246-250 | the correction differs from the source only while a wish is in flight |
| `TramoFuenteActivity.CurrentMapIsFuente` | app/src/main/java/ovh/gabrielhuav/sensores_escom_v2/presentation/components/ipn.zacatenco.escom.tramofuente/TramoFuente.kt:481 | the map the visibility filter compares against is `TramoFuente` itself |
| `TramoFuenteActivity.ApplyEntries` | app/src/main/java/ovh/gabrielhuav/sensores_escom_v2/presentation/components/ipn.zacatenco.escom.tramofuente/TramoFuente.kt:435-462 | the `positions` loop never stores the local player |
| `TramoFuenteActivity.Receive` | app/src/main/java/ovh/gabrielhuav/sensores_escom_v2/presentation/components/ipn.zacatenco.escom.tramofuente/TramoFuente.kt:428-516 | no message puts the local player into the registry, and only `join` sends anything |
| `TramoFuenteActivity.IsAtFountainCenter` | app/src/main/java/ovh/gabrielhuav/sensores_escom_v2/presentation/components/ipn.zacatenco.escom.tramofuente/TramoFuente.kt:237-244 | holds exactly at squared distance 0 from the centre, which is an INTERACTIVE cell of the fountain map and not an exit |
| `TramoFuenteActivity.FuenteInteractions` | app/src/main/java/ovh/gabrielhuav/sensores_escom_v2/presentation/components/ipn.zacatenco.escom.tramofuente/TramoFuente.kt:219-235 | on the fountain map A travels to Turismo at (5, 20), makes a wish at (20, 20), interacts at (20, 5), and does nothing anywhere else |
| `TramoFuenteActivity.UpdateFromSelfIgnored` | app/src/main/java/ovh/gabrielhuav/sensores_escom_v2/presentation/components/ipn.zacatenco.escom.tramofuente/TramoFuente.kt:464-466 | an `update` about the local player changes nothing and calls nothing |
| `TramoFuenteActivity.UpdateUpserts` | app/src/main/java/ovh/gabrielhuav/sensores_escom_v2/presentation/components/ipn.zacatenco.escom.tramofuente/TramoFuente.kt:467-478 | an `update` about another player stores its position and normalised `map`/`currentmap`/`"main"` under its id, last write wins, every other entry unchanged |
| `TramoFuenteActivity.UpdateDefaultsToMain` | app/src/main/java/ovh/gabrielhuav/sensores_escom_v2/presentation/components/ipn.zacatenco.escom.tramofuente/TramoFuente.kt:473-474 | an update naming no map places the player on `escom_main` |
| `TramoFuenteActivity.UpdateVisibility` | app/src/main/java/ovh/gabrielhuav/sensores_escom_v2/presentation/components/ipn.zacatenco.escom.tramofuente/TramoFuente.kt:480-487 | the player is forwarded to the view exactly when its stored map is `TramoFuente`, with the stored position and map |
| `TramoFuenteActivity.DisconnectRemoves` | app/src/main/java/ovh/gabrielhuav/sensores_escom_v2/presentation/components/ipn.zacatenco.escom.tramofuente/TramoFuente.kt:501-509 | a `disconnect` removes another player from registry and view and keeps everyone else; one naming the local player does nothing |
| `TramoFuenteActivity.JoinResendsPosition` | app/src/main/java/ovh/gabrielhuav/sensores_escom_v2/presentation/components/ipn.zacatenco.escom.tramofuente/TramoFuente.kt:490-499 | a `join` leaves the registry alone, requests everyone's positions and resends the local position tagged `TramoFuente` |
| `TramoFuenteActivity.IgnoredMessages` | app/src/main/java/ovh/gabrielhuav/sensores_escom_v2/presentation/components/ipn.zacatenco.escom.tramofuente/TramoFuente.kt:432-514 | unknown types, unreadable messages and messages missing a required field change nothing |
| `TramoFuenteActivity.PositionsKeepUnmentioned` | app/src/main/java/ovh/gabrielhuav/sensores_escom_v2/presentation/components/ipn.zacatenco.escom.tramofuente/TramoFuente.kt:435-462 | a `positions` message keeps the entry, or absence, of every player it does not mention |
| `TramoFuenteActivity.PositionsLastWriteWins` | app/src/main/java/ovh/gabrielhuav/sensores_escom_v2/presentation/components/ipn.zacatenco.escom.tramofuente/TramoFuente.kt:435-462 | after a fully processed `positions` message each remote player holds the value of its last entry |
| `TramoFuenteActivity.FailureIsSticky` | app/src/main/java/ovh/gabrielhuav/sensores_escom_v2/presentation/components/ipn.zacatenco.escom.tramofuente/TramoFuente.kt:512-514 | once an entry has thrown, later entries are not processed |
| `TramoFuenteActivity.PositionsShowOnlyThisMap` | app/src/main/java/ovh/gabrielhuav/sensores_escom_v2/presentation/components/ipn.zacatenco.escom.tramofuente/TramoFuente.kt:453-460 | a `positions` message forwards to the view only other players whose normalised map is `TramoFuente` |
| `TramoFuenteActivity.PositionsShowThisMap` | app/src/main/java/ovh/gabrielhuav/sensores_escom_v2/presentation/components/ipn.zacatenco.escom.tramofuente/TramoFuente.kt:453-460 | every other player that a fully processed `positions` message puts on `TramoFuente` is forwarded to the view with its position |
| `TramoFuenteActivity.PositionsStopAtFailure` | app/src/main/java/ovh/gabrielhuav/sensores_escom_v2/presentation/components/ipn.zacatenco.escom.tramofuente/TramoFuente.kt:440-446 | a malformed entry of another player stops the message: entries before it stay applied, none after it is |
| `TramoFuenteActivity.TramoFuente.constructor` | app/src/main/java/ovh/gabrielhuav/sensores_escom_v2/presentation/components/ipn.zacatenco.escom.tramofuente/TramoFuente.kt:103-121 | a fresh start: the intent's position or (20, 20), no remote players, a well not yet completed; the position is then sent to the server, tagged `TramoFuente`, exactly when connected |
| `TramoFuenteActivity.TramoFuente.OnMessageReceived` | app/src/main/java/ovh/gabrielhuav/sensores_escom_v2/presentation/components/ipn.zacatenco.escom.tramofuente/TramoFuente.kt:428-516 | the registry, the view calls and the sent messages become exactly what `Receive` says, the loop over `positions` included; the local player stays out of the registry |
| `TramoFuenteActivity.TramoFuente.UpdatePlayerPosition` | app/src/main/java/ovh/gabrielhuav/sensores_escom_v2/presentation/components/ipn.zacatenco.escom.tramofuente/TramoFuente.kt:331-348 | the position is replaced and, exactly when connected, sent tagged `TramoFuente`; nothing else changes |
| `TramoFuenteActivity.TramoFuente.StartWishingWellMinigame` | app/src/main/java/ovh/gabrielhuav/sensores_escom_v2/presentation/components/ipn.zacatenco.escom.tramofuente/TramoFuente.kt:246-280 | the wish state moves as the corrected `Start`, keeping the at-most-once invariant |
| `TramoFuenteActivity.TramoFuente.ChooseWish` | app/src/main/java/ovh/gabrielhuav/sensores_escom_v2/presentation/components/ipn.zacatenco.escom.tramofuente/TramoFuente.kt:263-275 | choosing a wish activates it and schedules one completion |
| `TramoFuenteActivity.TramoFuente.CancelWishDialog` | app/src/main/java/ovh/gabrielhuav/sensores_escom_v2/presentation/components/ipn.zacatenco.escom.tramofuente/TramoFuente.kt:276-278 | cancelling closes the dialog and changes nothing else |
| `TramoFuenteActivity.TramoFuente.CompleteMiniGame` | app/src/main/java/ovh/gabrielhuav/sensores_escom_v2/presentation/components/ipn.zacatenco.escom.tramofuente/TramoFuente.kt:282-308 | a scheduled completion grants the wish only if one is active, keeping the at-most-once invariant |
| `TramoFuenteActivity.TramoFuente.CheckForInteraction` | app/src/main/java/ovh/gabrielhuav/sensores_escom_v2/presentation/components/ipn.zacatenco.escom.tramofuente/TramoFuente.kt:219-235 | exit first, then the well (which starts the minigame), then an interactive cell, then nothing; only the well changes state |

## Left out

- Rendering is left out: `MapMatrix.drawMatrix`, the `paints` map and every `Log` call have no logical content.
- The benches on the fountain map are hard-coded in `GridFill.CreateFuenteMatrix` and `GridSpec.FountainBench`. The source computes them with `Math.cos`/`Math.sin` on doubles at 0, 45, ..., 315 degrees, truncated toward zero. The eight cells are the result of that computation; the floating-point arithmetic itself is not modelled.
- Activity machinery is left out: `onCreate`, `onResume`, `onPause`, `onDestroy`, saving and restoring state, Intents, Toasts, the text of the dialogs, `responses.random()`, `returnToPreviousMap`, and the toast-only `checkForTransition`. `TramoFuente.constructor` models only the fresh-start branch of `initializeComponents`, ending with its `updatePlayerPosition` call; the `connectToOnlineServer` call after it is left out with the transports.
- Transports are left out: the Bluetooth callbacks (`onPositionReceived` included) and the asynchronous `connectToOnlineServer`. The server connection is modelled by the sequence of calls made on it (`sent`).
- JSON parsing is left out: messages arrive decoded (`Message`). A field whose `getString`/`getInt`/`getJSONObject` read would throw is `None`. Duplicate keys in a `players` object are not modelled.
- Map-view calls are left out: `mapView.invalidate`, `updateLocalPlayerPosition` and `forceRecenterOnPlayer`. The view is modelled by the remote-player calls it receives (`viewCalls`).
- `MapView`'s own exit and interactivity lookups are not part of this model. `TramoFuente.CheckForInteraction` takes their answers as inputs. `FuenteInteractions` assumes the view answers from the fountain map's `MapMatrix`.
- `MovementManager` is not part of this model. The 1500 ms delay is a pending completion that fires whenever the `TimerFires` event occurs.
- Android's wish dialog is modal, so a press of A cannot reach the activity while it is showing. `WishingWell.StartAsWritten`, `WishingWell.Start` and `TramoFuente.StartWishingWellMinigame` therefore leave the state unchanged when a dialog is open.
- `WishingWell.Choose` and `TramoFuente.ChooseWish`: the model's wish dialog offers the four wishes, but the `AlertDialog` as configured sets both a message and an item list and shows no list, so on the device this handler never runs (see "## Findings"). The rest of the model describes the minigame with the list shown.
- `MapNames.NormalizeMapName`: Kotlin's full Unicode `lowercase()` is modelled as ASCII lowercasing. This cannot change which keyword matches, but a pass-through name is returned unchanged either way.
- Integer widths are not modelled: coordinates read from messages or from the intent may be any 32-bit `Int`, but the modelled code only compares them; arithmetic is done only on grid indices and small constants, so no overflow can arise.

## Findings

| source | as written | input that shows it | evidently intended | confidence | as-written member | corrected member |
|---|---|---|---|---|---|---|
| app/src/main/java/ovh/gabrielhuav/sensores_escom_v2/presentation/components/ipn.zacatenco.escom.tramofuente/TramoFuente.kt:246-250 | `startWishingWellMinigame` refuses only when `hasCompletedWishingWell` is set, so A can reopen the wish dialog in the 1500 ms after a wish was chosen. This is latent: as shipped the dialog shows no wishes (next row) | once the dialog lists the wishes: press A at the well, choose a wish, press A again before the coin lands, let the first completion run, then choose from the still-open dialog; a second wish is activated and granted | the well grants one wish (`hasCompletedWishingWell` is meant to make it once-only); refuse also while `activeWish` is set | low, latent behind the next row, not executed | `WishingWell.AsWrittenGrantsTwice` | `WishingWell.GrantsAtMostOnce` |
| app/src/main/java/ovh/gabrielhuav/sensores_escom_v2/presentation/components/ipn.zacatenco.escom.tramofuente/TramoFuente.kt:260-279 | the wish dialog is an AppCompat `AlertDialog` built with both `setMessage` and `setItems`; AppCompat attaches the item list only when there is no message, so the four wishes are never shown and the item handler that sets `activeWish` never runs | walk to the well at (20, 20) and press A: the dialog shows its title, the message and "Cancelar" only; no wish can be chosen, and none is ever granted | the dialog lists the four wishes (the message moved into the title or dropped), so choosing one throws the coin and grants it | medium, depends on the AppCompat dialog library, which is not part of this model; not executed | `WishingWell.ShippedNeverGrants` | `WishingWell.ListedDialogGrants` |
