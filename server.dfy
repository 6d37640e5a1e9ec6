/** The server object of Code/Server.js together with the room methods of
    Code/Lobbies/LobbyBase.js and Code/Lobbies/GameLobby.js, whose rooms are values in the
    server's `lobbys` map. Each method updates the fields the way the source does, step by
    step, and is proved to produce the registry its step function describes; every method
    keeps the registry coherent. The memory manager is the module singleton the source
    requires. */
module GameServer {
  import opened Js
  import opened Players
  import opened Lobbies
  import opened Wire
  import opened Memory
  import opened Registry
  import opened Steps
  import opened Invariants
  import opened Classes
  import opened Quiz
  import opened Submit
  import Http

  class Server {
    var lobbys: map<string, Room>
    /** The keys of `lobbys` in the order they were added. */
    var order: seq<string>
    var connections: map<string, Conn>
    /** Everything sent to sockets so far. */
    var log: seq<Emission>
    /** `lobbys.length`: one more than the largest array-index key ever stored, or 0. */
    var length: nat
    const memory: MemoryManager

    function Abs(): World
      reads this
    {
      World(lobbys, order, connections, log, length)
    }

    ghost predicate Valid()
      reads this
    {
      Coherent(Abs())
    }

    /** `new Server()`: only the general room, no connections. */
    constructor ()
      ensures Valid() && Abs() == Initial() && fresh(memory)
    {
      lobbys := map[GeneralServerID := NewRoom(None)];
      order := [GeneralServerID];
      connections := map[];
      log := [];
      length := 0;
      memory := new MemoryManager();
      new;
      InitialCoherent();
    }

    // ---- LobbyBase and GameLobby ----

    /** LobbyBase `onEnterLobby`: the player is ready, appended to the room and points to it. */
    method OnEnterLobby(r: string, pid: string)
      requires r in lobbys && Alive(Abs(), pid)
      modifies this
      ensures Abs() == Enter(old(Abs()), r, pid, true)
    {
      var connection := connections[pid];
      var player := connection.player;
      player := player.(ready := true);
      var room := lobbys[r];
      lobbys := lobbys[r := room.(connections := room.connections + [pid])];
      player := player.(lobby := Str(r));
      connections := connections[pid := Live(connection.socket, player, Some(r))];
    }

    /** LobbyBase `onEnterLobbyGeneral`: the same without touching `ready`. */
    method OnEnterLobbyGeneral(r: string, pid: string)
      requires r in lobbys && Alive(Abs(), pid)
      modifies this
      ensures Abs() == Enter(old(Abs()), r, pid, false)
    {
      var connection := connections[pid];
      var player := connection.player;
      var room := lobbys[r];
      lobbys := lobbys[r := room.(connections := room.connections + [pid])];
      player := player.(lobby := Str(r));
      connections := connections[pid := Live(connection.socket, player, Some(r))];
    }

    /** `lobbys[r].onLeaveLobby(connection)`: the base removal (the pointer cleared, the first
        occurrence spliced out) and, for a class room, `removePlayer`. */
    method OnLeaveLobby(r: string, pid: string, socket: string)
      requires r in lobbys
      modifies this
      ensures Abs() == OnLeave(old(Abs()), r, pid, socket)
    {
      if pid in connections && connections[pid].Live? {
        connections := connections[pid := connections[pid].(lobby := None)];
      }
      var room := lobbys[r];
      var index := IndexOf(room.connections, pid);
      if index > -1 {
        room := room.(connections := room.connections[..index] + room.connections[index + 1..]);
      }
      lobbys := lobbys[r := room];
      if room.settings.Some? {
        log := log + [Emit(socket, ToRoom(r), "disconnected", PlayerId(pid))];
      }
    }

    /** GameLobby `spawnPlayers(connection)`: the joiner's descriptor to itself and to the
        room, then, member by member, the descriptor of every other member. */
    method SpawnPlayers(r: string, pid: string)
      requires MembersPlaced(Abs(), r) && Alive(Abs(), pid) && connections[pid].lobby.Some?
      modifies this
      ensures lobbys == old(lobbys) && order == old(order) && connections == old(connections) && length == old(length)
      ensures log == old(log) + Registry.SpawnPlayers(old(Abs()), r, pid)
    {
      var connection := connections[pid];
      var data := Describe(connection, connection.player.serverID);
      log := log + [Emit(connection.socket, ToSelf, "spawn", Spawn(data))];
      log := log + [Emit(connection.socket, ToRoom(r), "spawn", Spawn(data))];
      ghost var base := log;
      ghost var w := old(Abs());
      var ms := lobbys[r].connections;
      var i := 0;
      while i < |ms|
        invariant 0 <= i <= |ms|
        invariant lobbys == old(lobbys) && order == old(order) && connections == old(connections) && length == old(length)
        invariant log == base + SpawnOthers(w, ms[..i], connection.player.id, connection.player.serverID, connection.socket)
      {
        SpawnOthersStep(w, ms, i, connection.player.id, connection.player.serverID, connection.socket);
        var c := connections[ms[i]];
        if c.player.id != connection.player.id {
          log := log + [Emit(connection.socket, ToSelf, "spawn", Spawn(Describe(c, connection.player.serverID)))];
        }
        i := i + 1;
      }
      assert ms[..|ms|] == ms;
    }

    /** GameLobby `onEnterLobby`: refused at 50 members, otherwise the base entry and the
        spawn messages. */
    method OnEnterGameLobby(r: string, pid: string) returns (ok: bool)
      requires MembersPlaced(Abs(), r) && Alive(Abs(), pid)
      modifies this
      ensures (Abs(), ok) == GameEnter(old(Abs()), r, pid)
    {
      var socket := connections[pid].socket;
      if !CheckConnectionLimit(lobbys[r], DefaultMaxConnections) {
        log := log + [Emit(socket, ToSelf, "errorPesan", Message(LobbyFullMessage))];
        return false;
      }
      OnEnterLobby(r, pid);
      assert MembersPlaced(Abs(), r);
      SpawnPlayers(r, pid);
      ok := true;
    }

    // ---- Server ----

    /** `onConnected(socket)`: a new player, drawn from `id` and the two random draws, is
        filed and enters the general room. */
    method OnConnected(socket: string, id: string, origin: Vec2, spawnDraw: real, typeDraw: real)
      requires Valid() && id !in connections
      requires 0.0 <= spawnDraw < 1.0 && 0.0 <= typeDraw < 1.0
      modifies this
      ensures Valid()
      ensures Abs() == Connect(old(Abs()), socket, NewPlayer(id, origin, spawnDraw, typeDraw))
    {
      ghost var w := Abs();
      var player := NewPlayer(id, origin, spawnDraw, typeDraw);
      player := player.(lobby := Str(GeneralServerID));
      connections := connections[player.id := Live(socket, player, None)];
      log := log + [Join(socket, GeneralServerID)];
      connections := connections[player.id := Live(socket, player, Some(GeneralServerID))];
      OnEnterLobbyGeneral(GeneralServerID, player.id);
      assert Abs() == Connect(w, socket, NewPlayer(id, origin, spawnDraw, typeDraw));
      ConnectKeeps(w, socket, NewPlayer(id, origin, spawnDraw, typeDraw));
    }

    /** `onDisconnected(connection)`: the connection is forgotten, the room its player names
        hears of it and is left, and a class room left empty is cleaned up and deleted; the
        player is cleaned up last. */
    method OnDisconnected(pid: string)
      requires Valid() && Alive(Abs(), pid)
      modifies this, memory
      ensures Valid()
      ensures Abs() == Disconnect(old(Abs()), pid).0
      ensures memory.playersCleanedUp == old(memory.playersCleanedUp) + 1
      ensures memory.lobbiesCleanedUp == old(memory.lobbiesCleanedUp) + if Disconnect(old(Abs()), pid).1 then 1 else 0
      ensures memory.cacheEntriesCleanedUp == old(memory.cacheEntriesCleanedUp)
    {
      ghost var w := Abs();
      var connection := connections[pid];
      connections := connections - {pid};
      var currentLobbyIndex := ToText(connection.player.lobby);
      log := log + [Emit(connection.socket, ToRoom(currentLobbyIndex), "disconnected", PlayerId(pid))];
      assert Abs() == Forget(w, pid);
      ghost var closed := false;
      if currentLobbyIndex in lobbys {
        ghost var u := Abs();
        OnLeaveLobby(currentLobbyIndex, pid, connection.socket);
        assert Abs() == OnLeave(u, currentLobbyIndex, pid, connection.socket);
        if currentLobbyIndex != GeneralServerID && |lobbys[currentLobbyIndex].connections| == 0 {
          ghost var t := Abs();
          var cleared := memory.CleanupLobby(Some(lobbys[currentLobbyIndex]));
          lobbys := lobbys - {currentLobbyIndex};
          order := RemoveFirst(order, currentLobbyIndex);
          assert Abs() == CloseRoom(t, currentLobbyIndex);
          closed := true;
        }
      }
      assert (Abs(), closed) == Disconnect(w, pid);
      var player, conn := memory.CleanupPlayer(Some(connection.player), Some(connection));
      DisconnectKeeps(w, pid);
    }

    /** The pass of `onCreateLobby` over `Object.values(server.lobbys)`, whose keys are
        `keys`: every class room gets `whiteboardID`, and the last class room of teacher
        `idGuru` is remembered (`"a"` when there is none). */
    method StampRooms(rooms: map<string, Room>, keys: seq<string>, idGuru: JsVal)
      returns (stamped: map<string, Room>, found: bool, idTemp: string)
      requires forall k | k in keys :: k in rooms
      ensures stamped == StampKeys(rooms, keys, idGuru)
      ensures var j := LastMatch(rooms, keys, idGuru); found == (j >= 0) && idTemp == if j >= 0 then keys[j] else "a"
    {
      found := false;
      idTemp := "a";
      stamped := rooms;
      var i := 0;
      assert keys[..0] == [];
      while i < |keys|
        invariant 0 <= i <= |keys|
        invariant Scanned(rooms, keys, idGuru, i, stamped, found, idTemp)
      {
        ScannedRooms(rooms, keys, idGuru, i, stamped, found, idTemp);
        ghost var (before, foundBefore, idBefore) := (stamped, found, idTemp);
        var key := keys[i];
        var c := stamped[key];
        if c.settings.Some? {
          stamped := stamped[key := c.(settings := Some(c.settings.value.(whiteboardID := idGuru)))];
          if LooseEq(c.settings.value.idGuru, idGuru) {
            found := true;
            idTemp := key;
          }
        }
        ScanStep(rooms, keys, idGuru, i, before, foundBefore, idBefore, stamped, found, idTemp);
        i := i + 1;
      }
      assert keys[..|keys|] == keys;
    }

    /** `onCreateLobby(connection, data)` up to the `setTimeout`: the caller becomes a teacher
        with the given name (and server id, when one is given), and the pass over the rooms
        stamps them and looks for this teacher's room. The result is what the timer will do. */
    method OnCreateLobby(pid: string, serverID: JsVal, serverName: JsVal, idGuru: JsVal) returns (pending: PendingCreate)
      requires Valid() && Alive(Abs(), pid)
      modifies this
      ensures Valid()
      ensures Abs() == Prepare(old(Abs()), pid, serverID, serverName, idGuru)
      ensures pending == Decide(old(Abs()), pid, idGuru)
    {
      ghost var w := Abs();
      pending := PrepareCreate(pid, serverID, serverName, idGuru);
      CreateLobbyKeeps(w, pid, serverID, serverName, idGuru);
    }

    /** The writes and the scan of `onCreateLobby`, needing only that `order` lists the rooms. */
    method PrepareCreate(pid: string, serverID: JsVal, serverName: JsVal, idGuru: JsVal) returns (pending: PendingCreate)
      requires Alive(Abs(), pid)
      requires forall r | r in order :: r in lobbys
      requires forall r | r in lobbys :: r in order
      modifies this
      ensures Abs() == Prepare(old(Abs()), pid, serverID, serverName, idGuru)
      ensures pending == Decide(old(Abs()), pid, idGuru)
    {
      ghost var w := Abs();
      ghost var target := Prepare(w, pid, serverID, serverName, idGuru);
      MakeTeacher(pid, serverID, serverName);
      assert connections == target.connections;
      assert lobbys == w.lobbys && order == w.order && log == target.log && length == target.length;
      var keys := PropertyOrder(order);
      PropertyOrderMembers(order);
      var stamped, found, idTemp := StampRooms(lobbys, keys, idGuru);
      StampKeysAll(w.lobbys, keys, idGuru);
      assert stamped == target.lobbys;
      lobbys := stamped;
      assert Abs() == target;
      pending := PendingCreate(pid, found, idTemp, idGuru);
      assert pending == Decide(w, pid, idGuru);
    }

    /** The caller of `onCreateLobby` takes the server id (when one is given), type 1 and the
        server name. */
    method MakeTeacher(pid: string, serverID: JsVal, serverName: JsVal)
      requires Alive(Abs(), pid)
      modifies this
      ensures lobbys == old(lobbys) && order == old(order) && log == old(log) && length == old(length)
      ensures var c := old(connections[pid]);
        var p := if Truthy(serverID) then c.player.(serverID := serverID) else c.player;
        connections == old(connections)[pid := c.(player := p.(kind := Num(1), username := serverName))]
    {
      var connection := connections[pid];
      var player := connection.player;
      if Truthy(serverID) {
        player := player.(serverID := serverID);
      }
      player := player.(kind := Num(1));
      player := player.(username := serverName);
      connections := connections[pid := connection.(player := player)];
    }

    /** The timer of `onCreateLobby`: a switch into the room found, or into a new class room
        registered under `freshId`, the id the new `GameLobby` draws. `crashed` reports the
        TypeError of `CompleteCreateLobby`, which ends the process; the registry is then
        left as it was. */
    method CreateLobbyTimeout(pending: PendingCreate, freshId: string) returns (crashed: bool, ok: bool)
      requires Valid()
      requires pending.found ==> pending.idTemp != GeneralServerID
      requires !pending.found ==> freshId !in lobbys
      modifies this
      ensures Valid()
      ensures var e := CompleteCreateLobby(old(Abs()), pending, freshId);
        && crashed == e.Crash?
        && (crashed ==> Abs() == old(Abs()))
        && (!crashed ==> (Abs(), ok) == e.value)
    {
      ghost var w := Abs();
      var pid := pending.pid;
      crashed, ok := true, false;
      if pid !in connections || !connections[pid].Live? {
        return;
      }
      var cur := ToText(connections[pid].player.lobby);
      if pending.found {
        if cur !in lobbys || pending.idTemp !in lobbys {
          return;
        }
        CompleteReuses(w, pending, freshId);
        crashed := false;
        ok := OnSwitchLobby(pid, pending.idTemp);
      } else {
        if cur !in lobbys && cur != freshId {
          return;
        }
        CompleteIsSwitch(w, pending, freshId);
        var gamelobby := ClassRoom(pending.idGuru);
        AddRoom(freshId, gamelobby);
        crashed := false;
        ok := OnSwitchLobby(pid, freshId);
      }
    }

    /** `server.lobbys[id] = room`: a property added last, which lengthens the array when
        the key is an index at or past its end. */
    method AddRoom(id: string, room: Room)
      modifies this
      ensures Abs() == Register(old(Abs()), id, room)
    {
      lobbys := lobbys[id := room];
      order := order + [id];
      if IsArrayIndex(id) && length <= DigitsValue(id) {
        length := DigitsValue(id) + 1;
      }
    }

    /** `onJoinLobby(connection, data)`: an unknown, closed or full room gets a bare
        `errorPesan`; otherwise the player takes the type and name given and switches.
        `crashed` reports the TypeError of `JoinLobby`; the registry is then left as it was. */
    method OnJoinLobby(pid: string, idLobby: JsVal, kind: JsVal, name: JsVal) returns (crashed: bool)
      requires Valid() && Alive(Abs(), pid)
      modifies this
      ensures Valid()
      ensures var v := JoinLobby(old(Abs()), pid, idLobby, kind, name);
        && crashed == v.Crash?
        && Abs() == (if crashed then old(Abs()) else v.value)
    {
      ghost var w := Abs();
      JoinLobbyCrashes(w, pid, idLobby, kind, name);
      var key := ToText(idLobby);
      var connection := connections[pid];
      crashed := false;
      if key !in lobbys && (key in ArrayInheritedNames || (key == "length" && length != 0)) {
        crashed := true;
      } else if key in lobbys && lobbys[key].settings.None? {
        crashed := true;
      } else if key in lobbys && lobbys[key].settings.value.joinable && CanEnterLobby(lobbys[key]) {
        if ToText(connection.player.lobby) !in lobbys {
          crashed := true;
        } else {
          JoinLobbyIsSwitch(w, pid, idLobby, kind, name);
          TakeIdentity(pid, kind, name);
          var entered := OnSwitchLobby(pid, key);
        }
      } else {
        JoinLobbyRefuses(w, pid, idLobby, kind, name);
        log := log + [ErrorPesan(connection.socket)];
        LogIrrelevant(w, log);
      }
    }

    /** The player of `onJoinLobby` takes the type and name given. */
    method TakeIdentity(pid: string, kind: JsVal, name: JsVal)
      requires Alive(Abs(), pid)
      modifies this
      ensures Abs() == Joining(old(Abs()), pid, kind, name)
    {
      var connection := connections[pid];
      connections := connections[pid := connection.(player := connection.player.(kind := kind, username := name))];
    }

    /** `onSwitchLobby(connection, lobbyID)`: join the socket room, point the connection at
        the target, leave the room the player names, enter the target. */
    method OnSwitchLobby(pid: string, lobbyID: string) returns (ok: bool)
      requires Valid() && Alive(Abs(), pid) && lobbyID in lobbys && lobbys[lobbyID].settings.Some?
      requires RoomOf(Abs(), pid) in lobbys
      modifies this
      ensures Valid()
      ensures (Abs(), ok) == Switch(old(Abs()), pid, lobbyID)
    {
      ghost var w := Abs();
      LeaveForSwitch(pid, lobbyID);
      SwitchLeaves(w, pid, lobbyID);
      ghost var u := Abs();
      ok := OnEnterGameLobby(lobbyID, pid);
      assert (Abs(), ok) == GameEnter(u, lobbyID, pid);
      SwitchKeeps(w, pid, lobbyID);
    }

    /** The first half of `onSwitchLobby`: the socket joins the target's room, the connection
        points to the target and the room the player names is left. */
    method LeaveForSwitch(pid: string, lobbyID: string)
      requires Alive(Abs(), pid) && RoomOf(Abs(), pid) in lobbys
      modifies this
      ensures Abs() == SwitchLeave(old(Abs()), pid, lobbyID)
    {
      var connection := connections[pid];
      log := log + [Join(connection.socket, lobbyID)];
      connections := connections[pid := connection.(lobby := Some(lobbyID))];
      OnLeaveLobby(ToText(connection.player.lobby), pid, connection.socket);
    }

    /** The loop of `onSwitchLobbyDiskusi` over the members `ms` of room `r`: each gets the
        tag `r-k`, where `k` is a counter that restarts at 0 when it reaches `n` (the caller
        always gets `r-0`), and its seat is reset; the assignments are collected in order. */
    method AssignGroups(conns: map<string, Conn>, ms: seq<string>, r: string, caller: string, n: int)
      returns (table: map<string, Conn>, hasil: seq<Assignment>)
      requires forall m | m in ms :: m in conns && conns[m].Live?
      ensures table == Retagged(conns, ms, r, caller, n)
      ensures hasil == Assignments(conns, ms, r, caller, n)
    {
      var indexNewLobby := 0;
      hasil := [];
      table := conns;
      var i := 0;
      while i < |ms|
        invariant 0 <= i <= |ms|
        invariant indexNewLobby == Slot(i, n)
        invariant table == Retagged(conns, ms[..i], r, caller, n)
        invariant hasil == Assignments(conns, ms, r, caller, n)[..i]
      {
        BreakoutLoopStep(conns, ms, r, caller, n, i, indexNewLobby, table, hasil);
        var m := ms[i];
        var player := table[m].player;
        var tag: string;
        if player.id != caller {
          tag := r + "-" + DecimalText(indexNewLobby);
        } else {
          tag := r + "-0";
        }
        table := table[m := table[m].(player := player.(lobbyDiskusi := Str(tag), isSit := Str("Null")))];
        hasil := hasil + [Assignment(tag, player.id)];
        indexNewLobby := indexNewLobby + 1;
        if indexNewLobby == n {
          indexNewLobby := 0;
        }
        i := i + 1;
      }
      assert ms[..|ms|] == ms;
    }

    /** `onSwitchLobbyDiskusi(connection)`: for a teacher in a room with someone else, the
        room's flags close, the group count is looked up, and the member loop writes the
        group tags; the caller and the room get the assignments. Anyone else changes
        nothing. */
    method OnSwitchLobbyDiskusi(pid: string)
      requires Valid() && Classes.Placed(Abs(), pid)
      requires Splits(Abs(), pid) ==> lobbys[connections[pid].lobby.value].settings.Some?
      modifies this
      ensures Valid()
      ensures Abs() == Breakout(old(Abs()), pid)
    {
      ghost var w := Abs();
      var connection := connections[pid];
      var r := connection.lobby.value;
      if |lobbys[r].connections| > 1 && LooseEq(connection.player.kind, Num(1)) {
        SplitRoom(pid);
      } else {
        BreakoutRefuses(w, pid);
      }
      BreakoutKeeps(w, pid);
    }

    /** The branch of `onSwitchLobbyDiskusi` that splits the room. */
    method SplitRoom(pid: string)
      requires Classes.Placed(Abs(), pid) && Splits(Abs(), pid)
      requires lobbys[connections[pid].lobby.value].settings.Some?
      modifies this
      ensures Abs() == Breakout(old(Abs()), pid)
    {
      ghost var w := Abs();
      BreakoutUnfolds(w, pid);
      var connection := connections[pid];
      var r := connection.lobby.value;
      var oldLobbyId := r;
      var playerCount := |lobbys[r].connections| - 1;
      var ms := lobbys[r].connections;
      var s := lobbys[r].settings.value.(deletable := false, joinable := false, quiz := false);
      var pembagianDiskusi := GroupCount(playerCount);
      lobbys := lobbys[r := lobbys[r].(settings := Some(s), listDiskusi := Some(pembagianDiskusi))];
      var table, hasil := AssignGroups(connections, ms, oldLobbyId, connection.player.id, pembagianDiskusi);
      connections := table;
      var payload := Groups(hasil, pembagianDiskusi);
      log := log + [Emit(connection.socket, ToSelf, "buatDiskusi", payload), Emit(connection.socket, ToRoom(r), "buatDiskusi", payload)];
    }

    /** `onMoveToDiskusi(connection, data)` */
    method OnMoveToDiskusi(pid: string, data: JsVal)
      requires Valid() && Alive(Abs(), pid) && connections[pid].lobby.Some?
      modifies this
      ensures Valid()
      ensures Abs() == MoveToDiskusi(old(Abs()), pid, data)
    {
      ghost var w := Abs();
      var connection := connections[pid];
      var player := connection.player.(lobbyDiskusi := data);
      connections := connections[pid := connection.(player := player)];
      log := log + [Emit(connection.socket, ToRoom(connection.lobby.value), "moveToDiskusi", Move(player.lobbyDiskusi, player.id))];
      assert Abs() == MoveToDiskusi(w, pid, data);
      MoveToDiskusiEffects(w, pid, data);
    }

    /** The loop of `onMoveRuangan`: one seat per member of `ms`, in order. */
    method CollectSeats(ms: seq<string>) returns (hasil: seq<Seat>)
      requires forall m | m in ms :: m in connections && connections[m].Live?
      ensures hasil == Roster(connections, ms)
    {
      hasil := [];
      var i := 0;
      while i < |ms|
        invariant 0 <= i <= |ms|
        invariant hasil == Roster(connections, ms)[..i]
      {
        assert ms[i] in ms;
        var p := connections[ms[i]].player;
        hasil := hasil + [Seat(p.lobbyDiskusi, p.id, p.position, p.isSit)];
        i := i + 1;
      }
    }

    /** `onMoveRuangan(connection, data)`: the move, then one pass over the members building
        the roster the caller gets. */
    method OnMoveRuangan(pid: string, data: JsVal)
      requires Valid() && Classes.Placed(Abs(), pid)
      modifies this
      ensures Valid()
      ensures Abs() == MoveRuangan(old(Abs()), pid, data)
    {
      ghost var w := Abs();
      var connection := connections[pid];
      var player := connection.player.(lobbyDiskusi := data);
      connections := connections[pid := connection.(player := player)];
      var connections2 := lobbys[connection.lobby.value].connections;
      var hasil := CollectSeats(connections2);
      log := log + [Emit(connection.socket, ToSelf, "moveRuangan", Seats(hasil))];
      log := log + [Emit(connection.socket, ToRoom(connection.lobby.value), "moveToDiskusi", Move(player.lobbyDiskusi, player.id))];
      assert Abs() == MoveRuangan(w, pid, data);
      MoveRuanganRoster(w, pid, data);
    }

    /** `onReturnToKelas(connection)` */
    method OnReturnToKelas(pid: string)
      requires Valid() && InClassRoom(Abs(), pid)
      modifies this
      ensures Valid()
      ensures Abs() == ReturnToKelas(old(Abs()), pid)
    {
      ghost var w := Abs();
      var connection := connections[pid];
      var idKelas := connection.lobby.value;
      var s := lobbys[idKelas].settings.value;
      s := s.(deletable := true);
      s := s.(joinable := true);
      s := s.(quiz := true);
      lobbys := lobbys[idKelas := lobbys[idKelas].(settings := Some(s))];
      log := log + [Emit(connection.socket, ToSelf, "returnToKelas", Kelas(idKelas))];
      log := log + [Emit(connection.socket, ToRoom(idKelas), "returnToKelas", Kelas(idKelas))];
      assert Abs() == ReturnToKelas(w, pid);
      ReturnToKelasOpens(w, pid);
    }

    /** `onDrawWhiteboard(connection, data)` */
    method OnDrawWhiteboard(pid: string, data: JsVal)
      requires Valid() && InClassRoom(Abs(), pid)
      modifies this
      ensures Valid()
      ensures Abs() == DrawWhiteboard(old(Abs()), pid, data)
    {
      ghost var w := Abs();
      var connection := connections[pid];
      var r := connection.lobby.value;
      lobbys := lobbys[r := lobbys[r].(settings := Some(lobbys[r].settings.value.(whiteboardData := data)))];
      log := log + [Emit(connection.socket, ToRoom(r), "drawWhiteboard", Raw(data))];
      assert Abs() == DrawWhiteboard(w, pid, data);
      DrawWhiteboardStores(w, pid, data);
    }

    /** `onSubmitSoal(connection, data)`: the message gets the room, teacher name and server
        id, is checked, turned into a quiz and posted; `reply` is the outcome of the post and
        the result the request posted, if any. */
    method OnSubmitSoal(pid: string, data: SoalForm, reply: Http.Reply) returns (posted: Option<QuizRequest>)
      requires Valid() && Alive(Abs(), pid) && connections[pid].lobby.Some?
      modifies this
      ensures Valid()
      ensures (Abs(), posted) == SubmitSoal(old(Abs()), pid, data, reply)
    {
      ghost var w := Abs();
      var connection := connections[pid];
      var form := data;
      form := form.(idLobby := Str(connection.lobby.value));
      form := form.(namaGuru := connection.player.username);
      form := form.(serverID := connection.player.serverID);
      var problem := CheckSoal(form);
      if problem.Some? {
        log := log + [Emit(connection.socket, ToSelf, "errorPesan", Message(problem.value))];
        posted := None;
      } else {
        posted := BuildQuiz(form);
        if posted.None? {
          log := log + [Emit(connection.socket, ToSelf, "errorPesan", Message(SubmitFailed))];
        } else if reply.NetworkError? {
          log := log + [Emit(connection.socket, ToSelf, "errorPesan", Message(SubmitFailed))];
        } else {
          form := form.(kodeSoal := reply.data);
          log := log + [Emit(connection.socket, ToRoom(connection.lobby.value), "submitSoal", Soal(form))];
        }
      }
      assert (Abs(), posted) == SubmitSoal(w, pid, data, reply);
      LogIrrelevant(w, log);
    }

    /** `onSubmitJawaban(connection, data)`: the body it posts, or `None` when the promise
        rejects for a connection in no room; nothing is sent back. */
    method OnSubmitJawaban(pid: string, data: JawabanForm) returns (body: Option<JawabanRequest>)
      requires Alive(Abs(), pid)
      ensures body == SubmitJawaban(Abs(), pid, data)
    {
      var connection := connections[pid];
      var namaSiswa := connection.player.username;
      if connection.lobby.None? {
        return None;
      }
      var idLobby := connection.lobby.value;
      var kodeSoal := data.kodeSoal;
      if Truthy(data.id) && !Truthy(data.kodeSoal) {
        kodeSoal := data.id;
      }
      var jawaban := Sent(data.jawaban);
      if !Truthy(data.jawaban) {
        if data.indexJawaban != Undefined {
          jawaban := Built([SelectedAnswer(data.indexJawaban)]);
        } else if data.jawaban != Undefined {
          jawaban := Built([EssayAnswer(Or(data.jawaban, Str(NoAnswerText)))]);
        } else {
          jawaban := Built([SelectedAnswer(Null)]);
        }
      }
      body := Some(JawabanRequest(data.id, kodeSoal, jawaban, data.indexJawaban, namaSiswa, idLobby));
    }
  }
}
