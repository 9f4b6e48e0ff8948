/** The fountain map's activity (`TramoFuente`): the registry of remote
    players fed by server messages, what is handed to the map view and the
    server, the A-button dispatch and the wishing well. Messages arrive
    already decoded from JSON; the map view and the server connection are
    modelled by the calls made on them, recorded in order. */
module TramoFuenteActivity {
  import opened Options
  import opened MapNames
  import opened GridSpec
  import Transitions
  import opened WishingWell
  import Matrix

  type Position = (int, int)

  /** `GameState.PlayerInfo`: where a remote player is and on which map. */
  datatype PlayerInfo = PlayerInfo(position: Position, mapName: string)

  /** The fields read from one player of a `positions` message. */
  datatype PlayerFields = PlayerFields(x: Option<int>, y: Option<int>, mapName: Option<string>, currentMap: Option<string>)

  /** One key of the `players` object; `fields` is `None` when its value is
      not a JSON object. A missing or non-integer `x`/`y` is `None`. */
  datatype PlayerEntry = PlayerEntry(id: string, fields: Option<PlayerFields>)

  /** A server message, by its `type`. A field the activity reads with
      `getString`/`getInt`/`getJSONObject` is `None` when it is missing, so
      the read throws. */
  datatype Message =
    | Positions(players: Option<seq<PlayerEntry>>)
    | Update(id: Option<string>, x: Option<int>, y: Option<int>, mapName: Option<string>, currentmapName: Option<string>)
    | Join
    | Disconnect(id: Option<string>)
    | OtherType     // a `type` the activity does not handle
    | Unreadable    // not JSON, or no `type`

  /** Calls on the server connection. */
  datatype Outgoing = SendUpdate(id: string, position: Position, mapName: string) | RequestPositions

  /** Calls on the map view about remote players. */
  datatype ViewCall = ShowRemote(id: string, position: Position, mapName: string) | RemoveRemote(id: string)

  /** `optString(primary, optString(alias, "main"))`. */
  function MapField(primary: Option<string>, alias: Option<string>): string {
    primary.GetOr(alias.GetOr("main"))
  }

  /** The map this activity shows, normalised as the filter compares it. */
  const CURRENT_MAP := NormalizeMapName(Some(MAP_FUENTE))

  lemma CurrentMapIsFuente()
    ensures CURRENT_MAP == MAP_FUENTE
  {
    FuenteFixed();
  }

  /** A remote player is drawn only when it is on this map. */
  function ViewOf(id: string, info: PlayerInfo): seq<ViewCall> {
    if info.mapName == CURRENT_MAP then [ShowRemote(id, info.position, info.mapName)] else []
  }

  /** The registry and view calls built up by a message, and whether its
      processing ran to the end without an exception. */
  datatype Applied = Applied(registry: map<string, PlayerInfo>, views: seq<ViewCall>, ok: bool)

  /** Last write wins: the entry for `id` is replaced and the player is
      forwarded to the view if it is on this map. */
  function Upsert(a: Applied, id: string, info: PlayerInfo): Applied {
    Applied(a.registry[id := info], a.views + ViewOf(id, info), a.ok)
  }

  predicate WellFormed(e: PlayerEntry) {
    e.fields.Some? && e.fields.value.x.Some? && e.fields.value.y.Some?
  }

  function EntryInfo(e: PlayerEntry): PlayerInfo
    requires WellFormed(e)
  {
    var f := e.fields.value;
    PlayerInfo((f.x.value, f.y.value), NormalizeMapName(Some(MapField(f.mapName, f.currentMap))))
  }

  /** One iteration of the `positions` loop: the local player is skipped
      before its value is read; a malformed value throws. */
  function ApplyEntry(playerName: string, a: Applied, e: PlayerEntry): Applied {
    if e.id == playerName then a
    else if !WellFormed(e) then a.(ok := false)
    else Upsert(a, e.id, EntryInfo(e))
  }

  /** The `positions` loop over `entries`, in order, stopped by the first
      exception. It never stores the local player. */
  function ApplyEntries(playerName: string, registry: map<string, PlayerInfo>, entries: seq<PlayerEntry>): (a: Applied)
    ensures playerName !in registry ==> playerName !in a.registry
    decreases |entries|
  {
    if entries == [] then Applied(registry, [], true)
    else
      var prev := ApplyEntries(playerName, registry, entries[..|entries| - 1]);
      if !prev.ok then prev else ApplyEntry(playerName, prev, entries[|entries| - 1])
  }

  /** What one message does: the new registry, and the calls made on the
      view and on the server connection. */
  datatype Effect = Effect(registry: map<string, PlayerInfo>, views: seq<ViewCall>, sent: seq<Outgoing>)

  /** `onMessageReceived`, for a player called `playerName` standing at
      `position`. No message can put the local player into the registry. */
  function Receive(playerName: string, position: Position, registry: map<string, PlayerInfo>, msg: Message): (e: Effect)
    ensures playerName !in registry ==> playerName !in e.registry
    ensures e.sent != [] ==> msg.Join?
  {
    match msg
    case Positions(players) =>
      if players.None? then Effect(registry, [], [])
      else
        var a := ApplyEntries(playerName, registry, players.value);
        Effect(a.registry, a.views, [])
    case Update(id, x, y, mapName, currentmap) =>
      if id.None? || id.value == playerName || x.None? || y.None? then Effect(registry, [], [])
      else
        var info := PlayerInfo((x.value, y.value), NormalizeMapName(Some(MapField(mapName, currentmap))));
        var a := Upsert(Applied(registry, [], true), id.value, info);
        Effect(a.registry, a.views, [])
    case Join =>
      Effect(registry, [], [RequestPositions, SendUpdate(playerName, position, MAP_FUENTE)])
    case Disconnect(id) =>
      if id.None? || id.value == playerName then Effect(registry, [], [])
      else Effect(registry - {id.value}, [RemoveRemote(id.value)], [])
    case OtherType => Effect(registry, [], [])
    case Unreadable => Effect(registry, [], [])
  }

  /** `isAtFountainCenter`: the player stands on the well. */
  function IsAtFountainCenter(position: Position): (b: bool)
    ensures b ==> FuenteCell(position.1, position.0) == INTERACTIVE
    ensures b ==> Transitions.IsMapTransitionPoint(MAP_FUENTE, position.0, position.1).None?
    ensures b <==> FountainDistance2(position.1, position.0) == 0
  {
    position.0 == MAP_WIDTH / 2 && position.1 == MAP_HEIGHT / 2
  }

  /** What pressing A does. */
  datatype Interaction = Travel(target: string) | MakeWish | Interact(at: Position) | NothingHere

  /** `checkForInteraction`'s order: an exit first, then the well, then any
      other interactive cell. */
  function InteractionAt(position: Position, transitionPoint: Option<string>, interactive: bool): Interaction {
    if transitionPoint.Some? then Travel(transitionPoint.value)
    else if IsAtFountainCenter(position) then MakeWish
    else if interactive then Interact(position)
    else NothingHere
  }

  /** On the fountain map, with the map view answering from this map's
      `MapMatrix`, A does something at exactly three places: the exit back to
      Turismo at (5, 20), the well at (20, 20) and the marker at (20, 5). */
  lemma FuenteInteractions(m: Matrix.MapMatrix, x: int, y: int)
    requires m.Valid() && m.mapId == MAP_FUENTE
    ensures InteractionAt((x, y), m.IsMapTransitionPoint(x, y), m.IsInteractivePosition(x, y)) ==
      if (x, y) == (5, 20) then Travel(MAP_TURISMO)
      else if (x, y) == (20, 20) then MakeWish
      else if (x, y) == (20, 5) then Interact((20, 5))
      else NothingHere
  {
    if InGrid(y, x) && FuenteCell(y, x) == INTERACTIVE {
      assert (y, x) == (5, 20) || (y, x) == (20, 20);
    }
  }

  class TramoFuente {
    const playerName: string
    var playerPosition: Position
    var isConnected: bool
    var remotePlayerPositions: map<string, PlayerInfo>
    var sent: seq<Outgoing>
    var viewCalls: seq<ViewCall>
    var activeWish: bool
    var hasCompletedWishingWell: bool
    var wishDialogOpen: bool
    var pendingCompletions: nat
    var wishesGranted: nat

    function Wish(): Well
      reads this
    {
      Well(activeWish, hasCompletedWishingWell, wishDialogOpen, pendingCompletions, wishesGranted)
    }

    /** The local player is never a remote player, and the well keeps its
        at-most-once invariant. */
    ghost predicate Valid()
      reads this
    {
      playerName !in remotePlayerPositions && Inv(Wish())
    }

    /** A fresh start from the launching intent: the given position, or the
        centre of the map when none was passed, which is then announced to
        the server through `updatePlayerPosition` when online. */
    constructor (playerName: string, isConnected: bool, initialPosition: Option<Position>)
      ensures Valid()
      ensures this.playerName == playerName && this.isConnected == isConnected
      ensures playerPosition == initialPosition.GetOr((20, 20))
      ensures sent == if isConnected then [SendUpdate(playerName, playerPosition, MAP_FUENTE)] else []
      ensures remotePlayerPositions == map[] && viewCalls == []
      ensures Wish() == Initial
    {
      this.playerName := playerName;
      this.isConnected := isConnected;
      playerPosition := initialPosition.GetOr((20, 20));
      remotePlayerPositions := map[];
      sent := [];
      viewCalls := [];
      activeWish := false;
      hasCompletedWishingWell := false;
      wishDialogOpen := false;
      pendingCompletions := 0;
      wishesGranted := 0;
      new;
      UpdatePlayerPosition(playerPosition);
    }

    method OnMessageReceived(msg: Message)
      requires Valid()
      modifies this
      ensures Valid()
      ensures var e := Receive(playerName, old(playerPosition), old(remotePlayerPositions), msg);
        remotePlayerPositions == e.registry && viewCalls == old(viewCalls) + e.views && sent == old(sent) + e.sent
      ensures playerPosition == old(playerPosition) && isConnected == old(isConnected) && Wish() == old(Wish())
    {
      match msg {
        case Positions(players) =>
          if players.Some? {
            var entries := players.value;
            var k := 0;
            var failed := false;
            while k < |entries| && !failed
              invariant 0 <= k <= |entries|
              invariant var a := ApplyEntries(playerName, old(remotePlayerPositions), entries[..k]);
                remotePlayerPositions == a.registry && viewCalls == old(viewCalls) + a.views && failed == !a.ok
              invariant sent == old(sent) && playerPosition == old(playerPosition)
              invariant isConnected == old(isConnected) && Wish() == old(Wish())
            {
              var entry := entries[k];
              if entry.id != playerName {
                match entry.fields {
                  case None =>
                    failed := true;
                  case Some(f) =>
                    if f.x.None? || f.y.None? {
                      failed := true;
                    } else {
                      var position := (f.x.value, f.y.value);
                      var normalizedMap := NormalizeMapName(Some(MapField(f.mapName, f.currentMap)));
                      remotePlayerPositions := remotePlayerPositions[entry.id := PlayerInfo(position, normalizedMap)];
                      if normalizedMap == NormalizeMapName(Some(MAP_FUENTE)) {
                        viewCalls := viewCalls + [ShowRemote(entry.id, position, normalizedMap)];
                      }
                    }
                }
              }
              assert entries[..k + 1][..k] == entries[..k];
              k := k + 1;
            }
            if failed {
              FailureIsSticky(playerName, old(remotePlayerPositions), entries[..k], entries[k..]);
              assert entries[..k] + entries[k..] == entries;
            } else {
              assert entries[..k] == entries;
            }
          }
        case Update(id, x, y, mapName, currentmap) =>
          if id.Some? && id.value != playerName && x.Some? && y.Some? {
            var position := (x.value, y.value);
            var normalizedMap := NormalizeMapName(Some(MapField(mapName, currentmap)));
            remotePlayerPositions := remotePlayerPositions[id.value := PlayerInfo(position, normalizedMap)];
            if normalizedMap == NormalizeMapName(Some(MAP_FUENTE)) {
              viewCalls := viewCalls + [ShowRemote(id.value, position, normalizedMap)];
            }
          }
        case Join =>
          sent := sent + [RequestPositions];
          sent := sent + [SendUpdate(playerName, playerPosition, MAP_FUENTE)];
        case Disconnect(id) =>
          if id.Some? && id.value != playerName {
            remotePlayerPositions := remotePlayerPositions - {id.value};
            viewCalls := viewCalls + [RemoveRemote(id.value)];
          }
        case OtherType =>
        case Unreadable =>
      }
    }

    /** `updatePlayerPosition`: the new position is recorded and, when
        online, sent to the server tagged with this map. */
    method UpdatePlayerPosition(position: Position)
      modifies this
      ensures playerPosition == position
      ensures sent == old(sent) + (if isConnected then [SendUpdate(playerName, position, MAP_FUENTE)] else [])
      ensures isConnected == old(isConnected) && remotePlayerPositions == old(remotePlayerPositions)
      ensures viewCalls == old(viewCalls) && Wish() == old(Wish())
    {
      playerPosition := position;
      if isConnected {
        sent := sent + [SendUpdate(playerName, position, MAP_FUENTE)];
      }
    }

    /** `startWishingWellMinigame`, with the guard against a wish already in
        flight. While the wish dialog is showing the press cannot reach the
        activity. */
    method StartWishingWellMinigame()
      requires Valid()
      modifies this
      ensures Valid() && Wish() == Start(old(Wish()))
      ensures playerPosition == old(playerPosition) && isConnected == old(isConnected)
      ensures remotePlayerPositions == old(remotePlayerPositions) && sent == old(sent) && viewCalls == old(viewCalls)
    {
      if hasCompletedWishingWell || activeWish || wishDialogOpen {
        return;
      }
      wishDialogOpen := true;
    }

    /** The wish dialog's item handler: the coin is thrown and the
        completion is scheduled. */
    method ChooseWish()
      requires Valid()
      modifies this
      ensures Valid() && Wish() == Choose(old(Wish()))
      ensures playerPosition == old(playerPosition) && isConnected == old(isConnected)
      ensures remotePlayerPositions == old(remotePlayerPositions) && sent == old(sent) && viewCalls == old(viewCalls)
    {
      if wishDialogOpen {
        wishDialogOpen := false;
        activeWish := true;
        pendingCompletions := pendingCompletions + 1;
      }
    }

    /** "Cancelar" on the wish dialog. */
    method CancelWishDialog()
      requires Valid()
      modifies this
      ensures Valid() && Wish() == Cancel(old(Wish()))
      ensures playerPosition == old(playerPosition) && isConnected == old(isConnected)
      ensures remotePlayerPositions == old(remotePlayerPositions) && sent == old(sent) && viewCalls == old(viewCalls)
    {
      if wishDialogOpen {
        wishDialogOpen := false;
      }
    }

    /** A scheduled completion runs `completeMiniGame`. */
    method CompleteMiniGame()
      requires Valid()
      modifies this
      ensures Valid() && Wish() == TimerFired(old(Wish()))
      ensures playerPosition == old(playerPosition) && isConnected == old(isConnected)
      ensures remotePlayerPositions == old(remotePlayerPositions) && sent == old(sent) && viewCalls == old(viewCalls)
    {
      if pendingCompletions == 0 {
        return;
      }
      pendingCompletions := pendingCompletions - 1;
      if !activeWish {
        return;
      }
      activeWish := false;
      hasCompletedWishingWell := true;
      wishesGranted := wishesGranted + 1;
    }

    /** `checkForInteraction`, given what the map view answers for the
        player's position. Only the well changes the activity's state. */
    method CheckForInteraction(transitionPoint: Option<string>, interactive: bool) returns (action: Interaction)
      requires Valid()
      modifies this
      ensures action == InteractionAt(old(playerPosition), transitionPoint, interactive)
      ensures Valid() && Wish() == if action == MakeWish then Start(old(Wish())) else old(Wish())
      ensures playerPosition == old(playerPosition) && isConnected == old(isConnected)
      ensures remotePlayerPositions == old(remotePlayerPositions) && sent == old(sent) && viewCalls == old(viewCalls)
    {
      var currentPosition := playerPosition;
      if transitionPoint.Some? {
        action := Travel(transitionPoint.value);
      } else if IsAtFountainCenter(currentPosition) {
        StartWishingWellMinigame();
        action := MakeWish;
      } else if interactive {
        action := Interact(currentPosition);
      } else {
        action := NothingHere;
      }
    }
  }

  lemma {:induction false} FailureIsSticky(playerName: string, registry: map<string, PlayerInfo>,
                                           entries: seq<PlayerEntry>, more: seq<PlayerEntry>)
    requires !ApplyEntries(playerName, registry, entries).ok
    ensures ApplyEntries(playerName, registry, entries + more) == ApplyEntries(playerName, registry, entries)
    decreases |more|
  {
    if more == [] {
      assert entries + more == entries;
    } else {
      var init := more[..|more| - 1];
      FailureIsSticky(playerName, registry, entries, init);
      assert (entries + more)[..|entries + more| - 1] == entries + init;
    }
  }

  /** An `update` about the local player changes nothing. */
  lemma UpdateFromSelfIgnored(playerName: string, position: Position, registry: map<string, PlayerInfo>,
                              x: Option<int>, y: Option<int>, mapName: Option<string>, currentmap: Option<string>)
    ensures Receive(playerName, position, registry, Update(Some(playerName), x, y, mapName, currentmap))
      == Effect(registry, [], [])
  {
  }

  /** An `update` about another player stores its position and normalised
      map under its id, replacing any earlier entry, and leaves every other
      entry as it was. */
  lemma UpdateUpserts(playerName: string, position: Position, registry: map<string, PlayerInfo>,
                      id: string, x: int, y: int, mapName: Option<string>, currentmap: Option<string>)
    requires id != playerName
    ensures var e := Receive(playerName, position, registry, Update(Some(id), Some(x), Some(y), mapName, currentmap));
      && id in e.registry
      && e.registry[id] == PlayerInfo((x, y), NormalizeMapName(Some(MapField(mapName, currentmap))))
      && (forall other :: other != id ==> (other in e.registry <==> other in registry))
      && (forall other :: other != id && other in registry ==> e.registry[other] == registry[other])
      && e.sent == []
  {
  }

  /** A player whose update names no map is placed on the main campus. */
  lemma UpdateDefaultsToMain(playerName: string, position: Position, registry: map<string, PlayerInfo>,
                             id: string, x: int, y: int)
    requires id != playerName
    ensures Receive(playerName, position, registry, Update(Some(id), Some(x), Some(y), None, None)).registry[id].mapName
      == MAP_MAIN
  {
    MainAliases();
    assert Lower("main") == "main";
  }

  /** A stored player is forwarded to the view exactly when it is on the
      fountain map, and then with the stored position and map. */
  lemma UpdateVisibility(playerName: string, position: Position, registry: map<string, PlayerInfo>,
                         id: string, x: int, y: int, mapName: Option<string>, currentmap: Option<string>)
    requires id != playerName
    ensures var e := Receive(playerName, position, registry, Update(Some(id), Some(x), Some(y), mapName, currentmap));
      && (e.views != [] <==> e.registry[id].mapName == MAP_FUENTE)
      && (e.views != [] ==> e.views == [ShowRemote(id, (x, y), MAP_FUENTE)])
  {
    CurrentMapIsFuente();
  }

  /** A `disconnect` for another player drops it from the registry and the
      view and keeps everyone else; one for the local player does nothing. */
  lemma DisconnectRemoves(playerName: string, position: Position, registry: map<string, PlayerInfo>, id: string)
    ensures var e := Receive(playerName, position, registry, Disconnect(Some(id)));
      && (id == playerName ==> e == Effect(registry, [], []))
      && (id != playerName ==>
            && id !in e.registry
            && (forall other :: other != id ==> (other in e.registry <==> other in registry))
            && (forall other :: other != id && other in registry ==> e.registry[other] == registry[other])
            && e.views == [RemoveRemote(id)])
  {
  }

  /** A `join` leaves the registry alone: it asks the server for everyone's
      position and resends the local one, tagged with the fountain map,
      whether or not the activity thinks it is online. */
  lemma JoinResendsPosition(playerName: string, position: Position, registry: map<string, PlayerInfo>)
    ensures Receive(playerName, position, registry, Join)
      == Effect(registry, [], [RequestPositions, SendUpdate(playerName, position, MAP_FUENTE)])
  {
  }

  /** Unknown types, unreadable messages and messages whose required fields
      are missing change nothing. */
  lemma IgnoredMessages(playerName: string, position: Position, registry: map<string, PlayerInfo>, msg: Message)
    requires || msg.OtherType? || msg.Unreadable?
             || (msg.Positions? && msg.players.None?)
             || (msg.Update? && (msg.id.None? || msg.x.None? || msg.y.None?))
             || (msg.Disconnect? && msg.id.None?)
    ensures Receive(playerName, position, registry, msg) == Effect(registry, [], [])
  {
  }

  /** A `positions` message keeps the entry of every player it does not
      mention. */
  lemma {:induction false} PositionsKeepUnmentioned(playerName: string, registry: map<string, PlayerInfo>,
                                                    entries: seq<PlayerEntry>, id: string)
    requires forall k :: 0 <= k < |entries| ==> entries[k].id != id
    ensures var a := ApplyEntries(playerName, registry, entries);
      (id in a.registry <==> id in registry) && (id in registry ==> a.registry[id] == registry[id])
    decreases |entries|
  {
    if entries != [] {
      PositionsKeepUnmentioned(playerName, registry, entries[..|entries| - 1], id);
    }
  }

  /** When a `positions` message is processed to the end, each player
      other than the local one ends up with its last reported value. */
  lemma {:induction false} PositionsLastWriteWins(playerName: string, registry: map<string, PlayerInfo>,
                                                  entries: seq<PlayerEntry>, k: int)
    requires 0 <= k < |entries| && entries[k].id != playerName && WellFormed(entries[k])
    requires forall j :: k < j < |entries| ==> entries[j].id != entries[k].id
    requires ApplyEntries(playerName, registry, entries).ok
    ensures var a := ApplyEntries(playerName, registry, entries);
      entries[k].id in a.registry && a.registry[entries[k].id] == EntryInfo(entries[k])
    decreases |entries|
  {
    var init := entries[..|entries| - 1];
    if k < |entries| - 1 {
      assert init[k] == entries[k];
      PositionsLastWriteWins(playerName, registry, init, k);
    }
  }

  /** A `positions` message forwards to the view only players on this
      map, and never the local player. */
  lemma {:induction false} PositionsShowOnlyThisMap(playerName: string, registry: map<string, PlayerInfo>,
                                                    entries: seq<PlayerEntry>)
    ensures forall c :: c in ApplyEntries(playerName, registry, entries).views ==>
      c.ShowRemote? && c.id != playerName && c.mapName == MAP_FUENTE
    decreases |entries|
  {
    CurrentMapIsFuente();
    if entries != [] {
      PositionsShowOnlyThisMap(playerName, registry, entries[..|entries| - 1]);
    }
  }

  /** Conversely, every entry of a fully processed `positions` message that
      puts another player on this map is forwarded to the view. */
  lemma {:induction false} PositionsShowThisMap(playerName: string, registry: map<string, PlayerInfo>,
                                                entries: seq<PlayerEntry>, k: int)
    requires 0 <= k < |entries| && entries[k].id != playerName && WellFormed(entries[k])
    requires EntryInfo(entries[k]).mapName == MAP_FUENTE
    requires ApplyEntries(playerName, registry, entries).ok
    ensures ShowRemote(entries[k].id, EntryInfo(entries[k]).position, MAP_FUENTE)
      in ApplyEntries(playerName, registry, entries).views
    decreases |entries|
  {
    CurrentMapIsFuente();
    var init := entries[..|entries| - 1];
    if k < |entries| - 1 {
      assert init[k] == entries[k];
      PositionsShowThisMap(playerName, registry, init, k);
    }
  }

  /** A malformed entry stops a `positions` message: the entries before it
      stay applied and none after it is. */
  lemma PositionsStopAtFailure(playerName: string, registry: map<string, PlayerInfo>,
                               entries: seq<PlayerEntry>, k: int)
    requires 0 <= k < |entries| && entries[k].id != playerName && !WellFormed(entries[k])
    requires ApplyEntries(playerName, registry, entries[..k]).ok
    ensures ApplyEntries(playerName, registry, entries) == ApplyEntries(playerName, registry, entries[..k]).(ok := false)
  {
    assert entries[..k + 1][..k] == entries[..k];
    FailureIsSticky(playerName, registry, entries[..k + 1], entries[k + 1..]);
    assert entries[..k + 1] + entries[k + 1..] == entries;
  }
}
