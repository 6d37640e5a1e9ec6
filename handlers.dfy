/** The socket handlers of Code/EventHandlers as methods on the server and the shared
    throttler (the `eventThrottler` singleton). Each method does what its handler does, step
    by step, and is proved to produce the registry the matching function of `Events`
    describes. The `buatDiskusi`, `moveToDiskusi`, `moveRuangan` and `returnToKelas`
    handlers only forward to the server methods of the same name. */
module Handlers {
  import opened Js
  import opened Players
  import opened Lobbies
  import opened Wire
  import opened Registry
  import opened Steps
  import opened Invariants
  import opened Submit
  import opened Events
  import opened GameServer
  import opened Throttle
  import Http

  // ---- Throttled callbacks ----

  /** The position callback, run at once or when its timer goes off. */
  method BroadcastPositionNow(server: Server, pid: string)
    requires server.Valid() && Alive(server.Abs(), pid)
    modifies server
    ensures server.Valid()
    ensures server.Abs() == BroadcastPosition(old(server.Abs()), pid)
  {
    ghost var w := server.Abs();
    var connection := server.connections[pid];
    if connection.lobby.Some? {
      server.log := server.log + [Emit(connection.socket, ToRoom(connection.lobby.value), "updatePosition", PlayerState(connection.player))];
    } else {
      server.log := server.log + [ErrorPesan(connection.socket)];
    }
    LogIrrelevant(w, server.log);
  }

  /** A callback handed to the throttler. */
  method RunAction(server: Server, a: Action)
    requires server.Valid() && Runnable(server.Abs(), a)
    modifies server
    ensures server.Valid()
    ensures server.Abs() == Perform(old(server.Abs()), a)
  {
    match a
    case PositionBroadcast(pid) =>
      BroadcastPositionNow(server, pid);
    case WhiteboardDraw(pid, data) =>
      server.OnDrawWhiteboard(pid, data);
  }

  /** The timer `h` going off at `now`: the throttle entry is reset, then the callback runs. */
  method FireTimer(server: Server, throttler: EventThrottler<Action>, h: nat, now: int)
    requires server.Valid() && throttler.Valid()
    requires h in throttler.timers && now >= throttler.timers[h].dueAt
    requires Runnable(server.Abs(), throttler.timers[h].action)
    modifies server, throttler
    ensures server.Valid() && throttler.Valid()
    ensures throttler.Abs() == FireStep(old(throttler.Abs()), h, now)
    ensures server.Abs() == Perform(old(server.Abs()), old(throttler.timers[h].action))
  {
    var action := throttler.Fire(h, now);
    RunAction(server, action);
  }

  // ---- PlayerEventHandler ----

  /** 'updatePosition': the position is written at once; the broadcast goes through the
      throttle under `position_<id>` with a 100 ms window. */
  method OnUpdatePosition(server: Server, throttler: EventThrottler<Action>, pid: string, to: Vec2, now: int) returns (o: Outcome)
    requires server.Valid() && throttler.Valid() && Alive(server.Abs(), pid)
    modifies server, throttler
    ensures server.Valid() && throttler.Valid()
    ensures (throttler.Abs(), o) == ThrottleStep(old(throttler.Abs()), PositionKey(pid), PositionLimit, now, PositionBroadcast(pid))
    ensures server.Abs() == UpdatePosition(old(server.Abs()), pid, to, o == RanNow)
  {
    ghost var w := server.Abs();
    assert ConnOk(w, pid);
    UpdatePositionWrites(w, pid, to, false);
    var connection := server.connections[pid];
    var throttleKey := PositionKey(connection.player.id);
    var player := connection.player.(position := Some(to));
    server.connections := server.connections[pid := connection.(player := player)];
    assert server.Abs() == MovePlayer(w, pid, to);
    o := throttler.Throttle(throttleKey, PositionLimit, now, PositionBroadcast(pid));
    if o == RanNow {
      BroadcastPositionNow(server, pid);
    }
  }

  /** 'updateKursi'. `crashed` reports the TypeError for a connection in no room, which ends
      the process; the registry is then left as it was. */
  method OnUpdateKursi(server: Server, pid: string, isSit: JsVal, idChair: JsVal) returns (crashed: bool)
    requires server.Valid() && Alive(server.Abs(), pid)
    modifies server
    ensures server.Valid()
    ensures var v := UpdateKursi(old(server.Abs()), pid, isSit, idChair);
      && crashed == v.Crash?
      && server.Abs() == (if crashed then old(server.Abs()) else v.value)
  {
    ghost var w := server.Abs();
    UpdateKursiSeat(w, pid, isSit, idChair);
    var connection := server.connections[pid];
    crashed := connection.lobby.None?;
    if crashed {
      return;
    }
    var player := connection.player;
    if !Truthy(isSit) {
      player := player.(isSit := Str("Null"));
    } else {
      player := player.(isSit := idChair);
    }
    server.connections := server.connections[pid := connection.(player := player)];
    server.log := server.log + [Emit(connection.socket, ToRoom(connection.lobby.value), "updateKursi", Kursi(isSit, idChair))];
    assert server.Abs() == UpdateKursi(w, pid, isSit, idChair).value;
  }

  /** 'raiseHand', throwing as 'updateKursi' does. */
  method OnRaiseHand(server: Server, pid: string) returns (crashed: bool)
    requires server.Valid() && Alive(server.Abs(), pid)
    modifies server
    ensures server.Valid()
    ensures var v := RaiseHand(old(server.Abs()), pid);
      && crashed == v.Crash?
      && server.Abs() == (if crashed then old(server.Abs()) else v.value)
  {
    ghost var w := server.Abs();
    SignalsOnlyBroadcast(w, pid);
    var connection := server.connections[pid];
    crashed := connection.lobby.None?;
    if crashed {
      return;
    }
    server.log := server.log + [Emit(connection.socket, ToRoom(connection.lobby.value), "raiseHand", PlayerState(connection.player))];
  }

  /** 'globalMute', throwing as 'updateKursi' does. */
  method OnGlobalMute(server: Server, pid: string) returns (crashed: bool)
    requires server.Valid() && Alive(server.Abs(), pid)
    modifies server
    ensures server.Valid()
    ensures var v := GlobalMute(old(server.Abs()), pid);
      && crashed == v.Crash?
      && server.Abs() == (if crashed then old(server.Abs()) else v.value)
  {
    ghost var w := server.Abs();
    SignalsOnlyBroadcast(w, pid);
    var connection := server.connections[pid];
    crashed := connection.lobby.None?;
    if crashed {
      return;
    }
    server.log := server.log + [Emit(connection.socket, ToRoom(connection.lobby.value), "globalMute", NoData)];
  }

  /** 'disconnect': the player's position and drawing throttles are cleaned up, then
      `onDisconnected`. */
  method OnDisconnect(server: Server, throttler: EventThrottler<Action>, pid: string)
    requires server.Valid() && throttler.Valid() && Alive(server.Abs(), pid)
    modifies server, server.memory, throttler
    ensures server.Valid() && throttler.Valid()
    ensures throttler.Abs() == CleanupStep(CleanupStep(old(throttler.Abs()), PositionKey(pid)), WhiteboardKey(pid))
    ensures server.Abs() == Disconnect(old(server.Abs()), pid).0
  {
    assert ConnOk(server.Abs(), pid);
    var id := server.connections[pid].player.id;
    throttler.Cleanup(PositionKey(id));
    throttler.Cleanup(WhiteboardKey(id));
    server.OnDisconnected(pid);
  }

  // ---- WhiteboardEventHandler ----

  /** 'openWhiteboard' (`open`) and 'closeWhiteboard' (not `open`). */
  method OnSetWhiteboard(server: Server, pid: string, open: bool)
    requires server.Valid() && InClassRoom(server.Abs(), pid)
    modifies server
    ensures server.Valid()
    ensures server.Abs() == SetWhiteboard(old(server.Abs()), pid, open)
  {
    ghost var w := server.Abs();
    var connection := server.connections[pid];
    var r := connection.lobby.value;
    server.lobbys := server.lobbys[r := server.lobbys[r].(settings := Some(server.lobbys[r].settings.value.(whiteboard := open)))];
    var event := if open then "openWhiteboard" else "closeWhiteboard";
    server.log := server.log + [Emit(connection.socket, ToSelf, event, NoData), Emit(connection.socket, ToRoom(r), event, NoData)];
    assert server.Abs() == SetWhiteboard(w, pid, open);
    SetWhiteboardReported(w, pid, open);
  }

  /** 'clearWhiteboard' */
  method OnClearWhiteboard(server: Server, pid: string)
    requires server.Valid() && InClassRoom(server.Abs(), pid)
    modifies server
    ensures server.Valid()
    ensures server.Abs() == ClearWhiteboard(old(server.Abs()), pid)
  {
    ghost var w := server.Abs();
    var connection := server.connections[pid];
    var r := connection.lobby.value;
    server.lobbys := server.lobbys[r := server.lobbys[r].(settings := Some(server.lobbys[r].settings.value.(whiteboardData := Str(""))))];
    server.log := server.log + [Emit(connection.socket, ToSelf, "clearWhiteboard", NoData), Emit(connection.socket, ToRoom(r), "clearWhiteboard", NoData)];
    assert server.Abs() == ClearWhiteboard(w, pid);
    ClearKeepsTextAndShape(w, pid);
  }

  /** 'drawWhiteboard': `onDrawWhiteboard` through the throttle under `whiteboard_<id>` with a
      50 ms window; a deferred drawing is the pending timer's. */
  method OnDrawWhiteboardEvent(server: Server, throttler: EventThrottler<Action>, pid: string, data: JsVal, now: int) returns (o: Outcome)
    requires server.Valid() && throttler.Valid() && InClassRoom(server.Abs(), pid)
    modifies server, throttler
    ensures server.Valid() && throttler.Valid()
    ensures (throttler.Abs(), o) == ThrottleStep(old(throttler.Abs()), WhiteboardKey(pid), WhiteboardLimit, now, WhiteboardDraw(pid, data))
    ensures server.Abs() == if o == RanNow then DrawWhiteboard(old(server.Abs()), pid, data) else old(server.Abs())
  {
    assert ConnOk(server.Abs(), pid);
    var throttleKey := WhiteboardKey(server.connections[pid].player.id);
    o := throttler.Throttle(throttleKey, WhiteboardLimit, now, WhiteboardDraw(pid, data));
    if o == RanNow {
      server.OnDrawWhiteboard(pid, data);
    }
  }

  /** 'showWhiteboard' */
  method OnShowWhiteboard(server: Server, pid: string)
    requires server.Valid() && InClassRoom(server.Abs(), pid)
    modifies server
    ensures server.Valid()
    ensures server.Abs() == ShowWhiteboard(old(server.Abs()), pid)
  {
    ghost var w := server.Abs();
    var connection := server.connections[pid];
    server.log := server.log + [Emit(connection.socket, ToSelf, "showWhiteboard", Raw(server.lobbys[connection.lobby.value].settings.value.whiteboardData))];
    LogIrrelevant(w, server.log);
  }

  /** 'wbChange' */
  method OnWbChange(server: Server, pid: string, data: JsVal)
    requires server.Valid() && InClassRoom(server.Abs(), pid)
    modifies server
    ensures server.Valid()
    ensures server.Abs() == WbChange(old(server.Abs()), pid, data)
  {
    ghost var w := server.Abs();
    var connection := server.connections[pid];
    var r := connection.lobby.value;
    server.lobbys := server.lobbys[r := server.lobbys[r].(settings := Some(server.lobbys[r].settings.value.(whiteboardID := data)))];
    var payload := Wrapped(server.lobbys[r].settings.value.whiteboardID);
    server.log := server.log + [Emit(connection.socket, ToSelf, "wbChange", payload), Emit(connection.socket, ToRoom(r), "wbChange", payload)];
    assert server.Abs() == WbChange(w, pid, data);
    WbChangeReported(w, pid, data);
  }

  /** 'checkState' */
  method OnCheckState(server: Server, pid: string)
    requires server.Valid() && InClassRoom(server.Abs(), pid)
    modifies server
    ensures server.Valid()
    ensures server.Abs() == CheckState(old(server.Abs()), pid)
  {
    ghost var w := server.Abs();
    var connection := server.connections[pid];
    var s := server.lobbys[connection.lobby.value].settings.value;
    var dataCompile := BoardState(if s.whiteboard then 1 else 0, s.whiteboardID, s.whiteboardData, s.whiteboardData, s.whiteboardData);
    server.log := server.log + [Emit(connection.socket, ToSelf, "checkState", Board(dataCompile))];
    LogIrrelevant(w, server.log);
  }

  /** 'textWhiteboard' */
  method OnTextWhiteboard(server: Server, pid: string, data: JsVal)
    requires server.Valid() && InClassRoom(server.Abs(), pid)
    modifies server
    ensures server.Valid()
    ensures server.Abs() == TextWhiteboard(old(server.Abs()), pid, data)
  {
    ghost var w := server.Abs();
    var connection := server.connections[pid];
    var r := connection.lobby.value;
    server.lobbys := server.lobbys[r := server.lobbys[r].(settings := Some(server.lobbys[r].settings.value.(textData := data)))];
    server.log := server.log + [Emit(connection.socket, ToRoom(r), "textWhiteboard", Raw(data))];
    assert server.Abs() == TextWhiteboard(w, pid, data);
    BlobsStored(w, pid, data);
  }

  /** 'shapeWhiteboard' */
  method OnShapeWhiteboard(server: Server, pid: string, data: JsVal)
    requires server.Valid() && InClassRoom(server.Abs(), pid)
    modifies server
    ensures server.Valid()
    ensures server.Abs() == ShapeWhiteboard(old(server.Abs()), pid, data)
  {
    ghost var w := server.Abs();
    var connection := server.connections[pid];
    var r := connection.lobby.value;
    server.lobbys := server.lobbys[r := server.lobbys[r].(settings := Some(server.lobbys[r].settings.value.(shapeData := data)))];
    server.log := server.log + [Emit(connection.socket, ToRoom(r), "shapeWhiteboard", Raw(data))];
    assert server.Abs() == ShapeWhiteboard(w, pid, data);
    BlobsStored(w, pid, data);
  }

  // ---- LobbyEventHandler ----

  /** 'createLobby': the login result is `login`; the returned record is what the timer of
      `onCreateLobby` will do, which the caller runs with `CreateLobbyTimeout`. */
  method OnCreateLobbyEvent(server: Server, pid: string, name: JsVal, password: JsVal, login: Login) returns (pending: Option<PendingCreate>)
    requires server.Valid() && Alive(server.Abs(), pid)
    modifies server
    ensures server.Valid()
    ensures (server.Abs(), pending) == Events.CreateLobbyEvent(old(server.Abs()), pid, name, password, login)
  {
    ghost var w := server.Abs();
    var socket := server.connections[pid].socket;
    if Truthy(name) && Truthy(password) {
      match login
      case LoggedIn(id, serverName, username) =>
        server.log := server.log + [Emit(socket, ToSelf, "suksesLogin", NoData)];
        LogIrrelevant(w, server.log);
        var p := server.OnCreateLobby(pid, id, serverName, username);
        pending := Some(p);
      case LoginFailed =>
        server.log := server.log + [Emit(socket, ToSelf, "gagalLogin", NoData)];
        LogIrrelevant(w, server.log);
        pending := None;
    } else {
      server.log := server.log + [Emit(socket, ToSelf, "gagalLogin", NoData)];
      LogIrrelevant(w, server.log);
      pending := None;
    }
  }

  /** 'joinLobby' */
  method OnJoinLobbyEvent(server: Server, pid: string, name: JsVal, idLobby: JsVal, kind: JsVal) returns (crashed: bool)
    requires server.Valid() && Alive(server.Abs(), pid)
    modifies server
    ensures server.Valid()
    ensures var v := JoinLobbyEvent(old(server.Abs()), pid, name, idLobby, kind);
      && crashed == v.Crash?
      && server.Abs() == (if crashed then old(server.Abs()) else v.value)
  {
    if Truthy(name) && Truthy(idLobby) && Truthy(kind) {
      crashed := server.OnJoinLobby(pid, idLobby, kind, name);
    } else {
      crashed := false;
      SendError(server, pid);
    }
  }

  /** The 'errorPesan' answer to the sender, changing nothing else. */
  method SendError(server: Server, pid: string)
    requires server.Valid() && Alive(server.Abs(), pid)
    modifies server
    ensures server.Valid()
    ensures server.Abs() == old(server.Abs()).(log := old(server.log) + [ErrorPesan(old(server.connections[pid].socket))])
  {
    ghost var w := server.Abs();
    server.log := server.log + [ErrorPesan(server.connections[pid].socket)];
    LogIrrelevant(w, server.log);
  }

  /** The `forEach` of 'playerList' over the members `ms`. */
  method CollectPlayers(conns: map<string, Conn>, ms: seq<string>) returns (playersArray: seq<Listed>)
    requires forall m | m in ms :: m in conns && conns[m].Live?
    ensures playersArray == Listing(conns, ms)
  {
    playersArray := [];
    var i := 0;
    while i < |ms|
      invariant 0 <= i <= |ms|
      invariant playersArray == Listing(conns, ms)[..i]
    {
      assert ms[i] in ms;
      var element := conns[ms[i]];
      playersArray := playersArray + [Listed(element.player.username, element.player.id)];
      i := i + 1;
    }
  }

  /** 'playerList'. `crashed` reports the TypeError for a connection in no room. */
  method OnPlayerList(server: Server, pid: string) returns (crashed: bool)
    requires server.Valid() && Alive(server.Abs(), pid)
    modifies server
    ensures server.Valid()
    ensures old(server.connections[pid].lobby.Some? ==>
      server.connections[pid].lobby.value in server.lobbys && MembersAlive(server.Abs(), server.connections[pid].lobby.value))
    ensures var v := ListPlayers(old(server.Abs()), pid);
      && crashed == v.Crash?
      && server.Abs() == (if crashed then old(server.Abs()) else v.value)
  {
    ghost var w := server.Abs();
    PlayerListIsRoster(w, pid);
    var connection := server.connections[pid];
    crashed := connection.lobby.None?;
    if crashed {
      return;
    }
    var playersArray := CollectPlayers(server.connections, server.lobbys[connection.lobby.value].connections);
    server.log := server.log + [Emit(connection.socket, ToSelf, "playerList", PlayerList(playersArray))];
  }

  // ---- QuizEventHandler ----

  /** 'submitSoal' */
  method OnSubmitSoalEvent(server: Server, pid: string, data: SoalForm, reply: Http.Reply) returns (posted: Option<QuizRequest>)
    requires server.Valid() && InClassRoom(server.Abs(), pid)
    modifies server
    ensures server.Valid()
    ensures (server.Abs(), posted) == SubmitSoalEvent(old(server.Abs()), pid, data, reply)
  {
    ghost var w := server.Abs();
    var connection := server.connections[pid];
    if server.lobbys[connection.lobby.value].settings.value.quiz {
      posted := server.OnSubmitSoal(pid, data, reply);
    } else {
      server.log := server.log + [ErrorPesan(connection.socket)];
      LogIrrelevant(w, server.log);
      posted := None;
    }
  }

  /** 'submitJawaban': forwarded whatever the room's flags say. */
  method OnSubmitJawabanEvent(server: Server, pid: string, data: JawabanForm) returns (body: Option<JawabanRequest>)
    requires Alive(server.Abs(), pid)
    ensures body == SubmitJawaban(server.Abs(), pid, data)
  {
    body := server.OnSubmitJawaban(pid, data);
  }
}
