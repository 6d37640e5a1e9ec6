/** The socket handlers of Code/EventHandlers as functions on the registry value: the player,
    whiteboard, lobby and quiz events. Each handler acts for the sender's connection; the
    whiteboard and quiz events read and write the settings of the class room it points to. */
module Events {
  import opened Js
  import opened Players
  import opened Lobbies
  import opened Wire
  import opened Registry
  import opened Steps
  import opened Invariants
  import opened Submit
  import Classes
  import Http
  import Throttle

  // ---- Throttled callbacks ----

  /** The throttle windows of 'updatePosition' and 'drawWhiteboard', in milliseconds. */
  const PositionLimit := 100
  const WhiteboardLimit := 50

  /** The throttle keys of a player's position broadcasts and drawings. */
  function PositionKey(id: string): string {
    "position_" + id
  }

  function WhiteboardKey(id: string): string {
    "whiteboard_" + id
  }

  /** The callbacks handed to the throttler, each bound to the sender's connection. */
  datatype Action = PositionBroadcast(pid: string) | WhiteboardDraw(pid: string, data: JsVal)

  /** What a callback needs of the registry when it runs. */
  predicate Runnable(w: World, a: Action) {
    match a
    case PositionBroadcast(pid) => Alive(w, pid)
    case WhiteboardDraw(pid, _) => InClassRoom(w, pid)
  }

  /** Running a callback: the position broadcast, or `server.onDrawWhiteboard`. */
  function Perform(w: World, a: Action): World
    requires Runnable(w, a)
  {
    match a
    case PositionBroadcast(pid) => BroadcastPosition(w, pid)
    case WhiteboardDraw(pid, data) => DrawWhiteboard(w, pid, data)
  }

  /** A player a throttle key belongs to, for the cleanup at disconnect: a key of one player
      never starts with the prefix of another, because all ids have six characters. */
  lemma KeysOfOthersSurvive(a: string, b: string)
    requires IsNanoId(a) && IsNanoId(b) && a != b
    ensures !StartsWith(PositionKey(b), PositionKey(a)) && !StartsWith(WhiteboardKey(b), PositionKey(a))
    ensures !StartsWith(PositionKey(b), WhiteboardKey(a)) && !StartsWith(WhiteboardKey(b), WhiteboardKey(a))
    ensures StartsWith(PositionKey(a), PositionKey(a)) && StartsWith(WhiteboardKey(a), WhiteboardKey(a))
  {
    var pa, pb, wa, wb := PositionKey(a), PositionKey(b), WhiteboardKey(a), WhiteboardKey(b);
    assert pa[..|pa|] == pa && wa[..|wa|] == wa;
    assert pb[..|pb|] == pb && wb[..|wb|] == wb;
    assert pa[9..] == a && pb[9..] == b && wa[11..] == a && wb[11..] == b;
    assert wb[..|pa|][0] == wb[0] && pb[..|pb|][0] == pb[0];
  }

  /** The two cleanups of 'disconnect' delete the throttles of the player who leaves and leave
      those of every other player as they were. */
  lemma DisconnectCleansOnlyItsKeys(s: Throttle.State<Action>, a: string)
    requires Throttle.WellFormed(s) && IsNanoId(a)
    ensures var t := Throttle.CleanupStep(Throttle.CleanupStep(s, PositionKey(a)), WhiteboardKey(a));
      && PositionKey(a) !in t.throttles && WhiteboardKey(a) !in t.throttles
      && forall b | IsNanoId(b) && b != a ::
           && (PositionKey(b) in s.throttles ==> PositionKey(b) in t.throttles && t.throttles[PositionKey(b)] == s.throttles[PositionKey(b)])
           && (WhiteboardKey(b) in s.throttles ==> WhiteboardKey(b) in t.throttles && t.throttles[WhiteboardKey(b)] == s.throttles[WhiteboardKey(b)])
  {
    Throttle.CleanupExactly(s, PositionKey(a));
    Throttle.RemoveKeysKeepsWellFormed(s, Throttle.PrefixedKeys(s.throttles, PositionKey(a)));
    var u := Throttle.CleanupStep(s, PositionKey(a));
    Throttle.CleanupExactly(u, WhiteboardKey(a));
    forall b | IsNanoId(b) && b != a
      ensures !StartsWith(PositionKey(b), PositionKey(a)) && !StartsWith(WhiteboardKey(b), PositionKey(a))
      ensures !StartsWith(PositionKey(b), WhiteboardKey(a)) && !StartsWith(WhiteboardKey(b), WhiteboardKey(a))
    {
      KeysOfOthersSurvive(a, b);
    }
    var pa, wa := PositionKey(a), WhiteboardKey(a);
    assert StartsWith(pa, pa) && StartsWith(wa, wa) by {
      assert pa[..|pa|] == pa && wa[..|wa|] == wa;
    }
  }

  // ---- PlayerEventHandler ----

  /** `player.position.x = data.position.x; player.position.y = data.position.y` */
  function MovePlayer(w: World, pid: string, to: Vec2): World
    requires Alive(w, pid) && w.connections[pid].player.position.Some?
  {
    var c := w.connections[pid];
    w.(connections := w.connections[pid := c.(player := c.player.(position := Some(to)))])
  }

  /** The position callback: the player as it is when the callback runs goes to the others in
      the room; with no room to name, the `try` catches the TypeError and the sender gets
      'errorPesan'. */
  function BroadcastPosition(w: World, pid: string): World
    requires Alive(w, pid)
  {
    var c := w.connections[pid];
    var e := if c.lobby.Some? then Emit(c.socket, ToRoom(c.lobby.value), "updatePosition", PlayerState(c.player))
             else ErrorPesan(c.socket);
    w.(log := w.log + [e])
  }

  /** 'updatePosition': the position is written, and broadcast when the throttle runs the
      callback at once (`ranNow`). */
  function UpdatePosition(w: World, pid: string, to: Vec2, ranNow: bool): World
    requires Alive(w, pid) && w.connections[pid].player.position.Some?
  {
    var v := MovePlayer(w, pid, to);
    if ranNow then BroadcastPosition(v, pid) else v
  }

  /** 'updateKursi': `isSit` is 'Null' for a falsy `data.isSit` and `data.idChair` otherwise;
      the message goes to the room as it came. A connection in no room has no
      `connection.lobby.id` to name, and the TypeError ends the process. */
  function UpdateKursi(w: World, pid: string, isSit: JsVal, idChair: JsVal): Run<World>
    requires Alive(w, pid)
  {
    var c := w.connections[pid];
    var seat := if !Truthy(isSit) then Str("Null") else idChair;
    if c.lobby.None? then Crash
    else
      Done(w.(connections := w.connections[pid := c.(player := c.player.(isSit := seat))],
              log := w.log + [Emit(c.socket, ToRoom(c.lobby.value), "updateKursi", Kursi(isSit, idChair))]))
  }

  /** 'raiseHand' (the player object) and 'globalMute' (nothing) to the room, throwing as
      'updateKursi' does for a connection in no room. */
  function RaiseHand(w: World, pid: string): Run<World>
    requires Alive(w, pid)
  {
    var c := w.connections[pid];
    if c.lobby.None? then Crash
    else Done(w.(log := w.log + [Emit(c.socket, ToRoom(c.lobby.value), "raiseHand", PlayerState(c.player))]))
  }

  function GlobalMute(w: World, pid: string): Run<World>
    requires Alive(w, pid)
  {
    var c := w.connections[pid];
    if c.lobby.None? then Crash
    else Done(w.(log := w.log + [Emit(c.socket, ToRoom(c.lobby.value), "globalMute", NoData)]))
  }

  /** Rewriting the sender's player, keeping its id, its room and a position, and sending
      messages keeps the registry coherent and every other connection as it was. */
  lemma PlayerWriteKeeps(w: World, pid: string, p: Player, log: seq<Emission>)
    requires Coherent(w) && Alive(w, pid)
    requires var q := w.connections[pid].player; p.id == q.id && p.lobby == q.lobby && p.position.Some? == q.position.Some?
    ensures var v := w.(connections := w.connections[pid := w.connections[pid].(player := p)], log := log);
      && Coherent(v)
      && v.lobbys == w.lobbys && v.order == w.order && v.connections.Keys == w.connections.Keys
      && (forall k | k in w.connections && k != pid :: v.connections[k] == w.connections[k])
  {
    PlayerEditKeeps(w, pid, p);
    LogIrrelevant(w.(connections := w.connections[pid := w.connections[pid].(player := p)]), log);
  }

  /** The position reaches the registry whether or not the broadcast is throttled; a broadcast
      adds one message, a deferred one none, and the registry stays coherent. */
  lemma UpdatePositionWrites(w: World, pid: string, to: Vec2, ranNow: bool)
    requires Coherent(w) && Alive(w, pid)
    ensures w.connections[pid].player.position.Some?
    ensures var v := UpdatePosition(w, pid, to, ranNow);
      && Coherent(v)
      && v.lobbys == w.lobbys && v.order == w.order && v.connections.Keys == w.connections.Keys
      && v.connections[pid].player.position == Some(to)
      && v.connections[pid].player.(position := w.connections[pid].player.position) == w.connections[pid].player
      && (forall k | k in w.connections && k != pid :: v.connections[k] == w.connections[k])
      && |v.log| == |w.log| + (if ranNow then 1 else 0) && v.log[..|w.log|] == w.log
  {
    assert ConnOk(w, pid);
    var c := w.connections[pid];
    var v := MovePlayer(w, pid, to);
    PlayerWriteKeeps(w, pid, c.player.(position := Some(to)), UpdatePosition(w, pid, to, ranNow).log);
    assert UpdatePosition(w, pid, to, ranNow) == v.(log := UpdatePosition(w, pid, to, ranNow).log);
  }

  /** A broadcast position is the player's position at the time the callback runs, and it
      goes to the room the connection points to then. */
  lemma BroadcastCarriesCurrentPosition(w: World, pid: string)
    requires Coherent(w) && Alive(w, pid) && w.connections[pid].lobby.Some?
    ensures var v := BroadcastPosition(w, pid);
      && Coherent(v) && v.lobbys == w.lobbys && v.connections == w.connections
      && v.log[..|w.log|] == w.log && |v.log| == |w.log| + 1
      && var e := v.log[|w.log|];
         e.Emit? && e.target == ToRoom(w.connections[pid].lobby.value)
         && e.payload.PlayerState? && e.payload.player.position == w.connections[pid].player.position
  {
    LogIrrelevant(w, BroadcastPosition(w, pid).log);
  }

  /** 'updateKursi' throws exactly for a connection in no room; otherwise it writes only
      `isSit`, which is 'Null' exactly for a falsy `data.isSit`. */
  lemma UpdateKursiSeat(w: World, pid: string, isSit: JsVal, idChair: JsVal)
    requires Coherent(w) && Alive(w, pid)
    ensures UpdateKursi(w, pid, isSit, idChair).Crash? <==> w.connections[pid].lobby.None?
    ensures UpdateKursi(w, pid, isSit, idChair).Done? ==>
      var v := UpdateKursi(w, pid, isSit, idChair).value; var p := v.connections[pid].player;
      && Coherent(v)
      && v.lobbys == w.lobbys && v.order == w.order && v.connections.Keys == w.connections.Keys
      && (!Truthy(isSit) ==> p.isSit == Str("Null"))
      && (Truthy(isSit) ==> p.isSit == idChair)
      && p.(isSit := w.connections[pid].player.isSit) == w.connections[pid].player
      && (forall k | k in w.connections && k != pid :: v.connections[k] == w.connections[k])
      && v.log == w.log + [Emit(w.connections[pid].socket, ToRoom(w.connections[pid].lobby.value), "updateKursi", Kursi(isSit, idChair))]
  {
    var c := w.connections[pid];
    var seat := if !Truthy(isSit) then Str("Null") else idChair;
    assert ConnOk(w, pid);
    if c.lobby.Some? {
      PlayerWriteKeeps(w, pid, c.player.(isSit := seat), UpdateKursi(w, pid, isSit, idChair).value.log);
    }
  }

  /** 'raiseHand' and 'globalMute' throw exactly for a connection in no room, and otherwise
      change nothing but the output. */
  lemma SignalsOnlyBroadcast(w: World, pid: string)
    requires Coherent(w) && Alive(w, pid)
    ensures RaiseHand(w, pid).Crash? <==> w.connections[pid].lobby.None?
    ensures GlobalMute(w, pid).Crash? <==> w.connections[pid].lobby.None?
    ensures w.connections[pid].lobby.Some? ==>
      var v := RaiseHand(w, pid).value; var u := GlobalMute(w, pid).value;
      && Coherent(v) && Coherent(u)
      && v.lobbys == w.lobbys && v.connections == w.connections && v.order == w.order
      && u.lobbys == w.lobbys && u.connections == w.connections && u.order == w.order
      && |v.log| == |w.log| + 1 && |u.log| == |w.log| + 1
      && v.log[|w.log|].target == ToRoom(w.connections[pid].lobby.value)
      && u.log[|w.log|].target == ToRoom(w.connections[pid].lobby.value)
  {
    if w.connections[pid].lobby.Some? {
      LogIrrelevant(w, RaiseHand(w, pid).value.log);
      LogIrrelevant(w, GlobalMute(w, pid).value.log);
    }
  }

  // ---- WhiteboardEventHandler ----

  /** The same message to the sender and to the others in its room. */
  function Echo(c: Conn, event: string, payload: Payload): seq<Emission>
    requires c.Live? && c.lobby.Some?
  {
    [Emit(c.socket, ToSelf, event, payload), Emit(c.socket, ToRoom(c.lobby.value), event, payload)]
  }

  /** 'openWhiteboard' (`open`) and 'closeWhiteboard' (not `open`). */
  function SetWhiteboard(w: World, pid: string, open: bool): World
    requires InClassRoom(w, pid)
  {
    var c := w.connections[pid];
    var v := WithSettings(w, pid, SettingsOf(w, pid).(whiteboard := open));
    v.(log := v.log + Echo(c, if open then "openWhiteboard" else "closeWhiteboard", NoData))
  }

  /** 'clearWhiteboard': only the drawing is emptied. */
  function ClearWhiteboard(w: World, pid: string): World
    requires InClassRoom(w, pid)
  {
    var c := w.connections[pid];
    var v := WithSettings(w, pid, SettingsOf(w, pid).(whiteboardData := Str("")));
    v.(log := v.log + Echo(c, "clearWhiteboard", NoData))
  }

  /** 'showWhiteboard': the drawing, to the sender only. */
  function ShowWhiteboard(w: World, pid: string): World
    requires InClassRoom(w, pid)
  {
    var c := w.connections[pid];
    w.(log := w.log + [Emit(c.socket, ToSelf, "showWhiteboard", Raw(SettingsOf(w, pid).whiteboardData))])
  }

  /** 'wbChange': the drawing privilege goes to `data`, which is echoed as `{data}`. */
  function WbChange(w: World, pid: string, data: JsVal): World
    requires InClassRoom(w, pid)
  {
    var c := w.connections[pid];
    var v := WithSettings(w, pid, SettingsOf(w, pid).(whiteboardID := data));
    v.(log := v.log + Echo(c, "wbChange", Wrapped(data)))
  }

  /** The 'checkState' report of a room's settings. */
  function BoardReport(s: Settings): (b: BoardState)
    ensures b.whiteboard == 1 <==> s.whiteboard
    ensures b.whiteboard == 0 <==> !s.whiteboard
    ensures b.whiteboardID == s.whiteboardID
    ensures b.whiteboardData == s.whiteboardData && b.shapeData == s.whiteboardData && b.textData == s.whiteboardData
  {
    BoardState(if s.whiteboard then 1 else 0, s.whiteboardID, s.whiteboardData, s.whiteboardData, s.whiteboardData)
  }

  function CheckState(w: World, pid: string): World
    requires InClassRoom(w, pid)
  {
    var c := w.connections[pid];
    w.(log := w.log + [Emit(c.socket, ToSelf, "checkState", Board(BoardReport(SettingsOf(w, pid))))])
  }

  /** 'textWhiteboard' and 'shapeWhiteboard': the latest blob is kept and goes to the room. */
  function TextWhiteboard(w: World, pid: string, data: JsVal): World
    requires InClassRoom(w, pid)
  {
    var c := w.connections[pid];
    var v := WithSettings(w, pid, SettingsOf(w, pid).(textData := data));
    v.(log := v.log + [Emit(c.socket, ToRoom(c.lobby.value), "textWhiteboard", Raw(data))])
  }

  function ShapeWhiteboard(w: World, pid: string, data: JsVal): World
    requires InClassRoom(w, pid)
  {
    var c := w.connections[pid];
    var v := WithSettings(w, pid, SettingsOf(w, pid).(shapeData := data));
    v.(log := v.log + [Emit(c.socket, ToRoom(c.lobby.value), "shapeWhiteboard", Raw(data))])
  }

  /** Rewriting the settings of the sender's class room and sending messages keeps the
      registry coherent, and the sender still in that class room. */
  lemma SettingsWriteKeeps(w: World, pid: string, s: Settings, log: seq<Emission>)
    requires Coherent(w) && InClassRoom(w, pid)
    ensures var v := WithSettings(w, pid, s).(log := log);
      && Coherent(v) && InClassRoom(v, pid) && SettingsOf(v, pid) == s
      && v.connections == w.connections && v.order == w.order && v.lobbys.Keys == w.lobbys.Keys
      && (forall r | r in w.lobbys && r != w.connections[pid].lobby.value :: v.lobbys[r] == w.lobbys[r])
      && v.lobbys[w.connections[pid].lobby.value].connections == w.lobbys[w.connections[pid].lobby.value].connections
  {
    var r := w.connections[pid].lobby.value;
    var lobbys := w.lobbys[r := w.lobbys[r].(settings := Some(s))];
    SettingsEditKeeps(w, lobbys);
    LogIrrelevant(w.(lobbys := lobbys), log);
  }

  /** Opening or closing sets the flag and nothing else, and 'checkState' then reports 1 or 0. */
  lemma SetWhiteboardReported(w: World, pid: string, open: bool)
    requires Coherent(w) && InClassRoom(w, pid)
    ensures var v := SetWhiteboard(w, pid, open);
      && Coherent(v) && InClassRoom(v, pid)
      && SettingsOf(v, pid) == SettingsOf(w, pid).(whiteboard := open)
      && BoardReport(SettingsOf(v, pid)).whiteboard == (if open then 1 else 0)
      && v.log == w.log + Echo(w.connections[pid], if open then "openWhiteboard" else "closeWhiteboard", NoData)
  {
    var c := w.connections[pid];
    var s := SettingsOf(w, pid).(whiteboard := open);
    SettingsWriteKeeps(w, pid, s, w.log + Echo(c, if open then "openWhiteboard" else "closeWhiteboard", NoData));
  }

  /** Clearing empties the drawing and keeps the text and shape blobs. */
  lemma ClearKeepsTextAndShape(w: World, pid: string)
    requires Coherent(w) && InClassRoom(w, pid)
    ensures var v := ClearWhiteboard(w, pid); var s, t := SettingsOf(w, pid), SettingsOf(v, pid);
      && Coherent(v) && InClassRoom(v, pid)
      && t.whiteboardData == Str("") && t.textData == s.textData && t.shapeData == s.shapeData
      && t.(whiteboardData := s.whiteboardData) == s
  {
    var c := w.connections[pid];
    SettingsWriteKeeps(w, pid, SettingsOf(w, pid).(whiteboardData := Str("")), w.log + Echo(c, "clearWhiteboard", NoData));
  }

  /** The privilege set by 'wbChange' is what 'checkState' reports next. */
  lemma WbChangeReported(w: World, pid: string, data: JsVal)
    requires Coherent(w) && InClassRoom(w, pid)
    ensures var v := WbChange(w, pid, data);
      && Coherent(v) && InClassRoom(v, pid)
      && BoardReport(SettingsOf(v, pid)).whiteboardID == data
      && SettingsOf(v, pid).(whiteboardID := SettingsOf(w, pid).whiteboardID) == SettingsOf(w, pid)
  {
    var c := w.connections[pid];
    SettingsWriteKeeps(w, pid, SettingsOf(w, pid).(whiteboardID := data), w.log + Echo(c, "wbChange", Wrapped(data)));
  }

  /** 'checkState' and 'showWhiteboard' only answer the sender; the report puts the drawing in
      all three blob fields, so a stored text or shape is not reported. */
  lemma QueriesReadOnly(w: World, pid: string, data: JsVal)
    requires Coherent(w) && InClassRoom(w, pid)
    ensures var v := CheckState(w, pid); var u := ShowWhiteboard(w, pid);
      && Coherent(v) && Coherent(u)
      && v.lobbys == w.lobbys && v.connections == w.connections && v.order == w.order
      && u.lobbys == w.lobbys && u.connections == w.connections && u.order == w.order
      && |v.log| == |w.log| + 1 && v.log[|w.log|].target == ToSelf
      && |u.log| == |w.log| + 1 && u.log[|w.log|].target == ToSelf
    ensures var t := TextWhiteboard(w, pid, data);
      BoardReport(SettingsOf(t, pid)).textData == SettingsOf(w, pid).whiteboardData
  {
    LogIrrelevant(w, CheckState(w, pid).log);
    LogIrrelevant(w, ShowWhiteboard(w, pid).log);
    var c := w.connections[pid];
    SettingsWriteKeeps(w, pid, SettingsOf(w, pid).(textData := data), w.log + [Emit(c.socket, ToRoom(c.lobby.value), "textWhiteboard", Raw(data))]);
  }

  /** Text and shapes store the latest blob, changing no other setting. */
  lemma BlobsStored(w: World, pid: string, data: JsVal)
    requires Coherent(w) && InClassRoom(w, pid)
    ensures var v := TextWhiteboard(w, pid, data); var u := ShapeWhiteboard(w, pid, data);
      && Coherent(v) && InClassRoom(v, pid) && Coherent(u) && InClassRoom(u, pid)
      && SettingsOf(v, pid).textData == data && SettingsOf(u, pid).shapeData == data
      && SettingsOf(v, pid).(textData := SettingsOf(w, pid).textData) == SettingsOf(w, pid)
      && SettingsOf(u, pid).(shapeData := SettingsOf(w, pid).shapeData) == SettingsOf(w, pid)
  {
    var c := w.connections[pid];
    SettingsWriteKeeps(w, pid, SettingsOf(w, pid).(textData := data), w.log + [Emit(c.socket, ToRoom(c.lobby.value), "textWhiteboard", Raw(data))]);
    SettingsWriteKeeps(w, pid, SettingsOf(w, pid).(shapeData := data), w.log + [Emit(c.socket, ToRoom(c.lobby.value), "shapeWhiteboard", Raw(data))]);
  }

  // ---- LobbyEventHandler ----

  /** The outcome of the 'login-game' post: the account's `id`, `name` and `username`, or a
      rejected request. */
  datatype Login = LoggedIn(id: JsVal, name: JsVal, username: JsVal) | LoginFailed

  function GagalLogin(w: World, pid: string): World
    requires Alive(w, pid)
  {
    w.(log := w.log + [Emit(w.connections[pid].socket, ToSelf, "gagalLogin", NoData)])
  }

  /** 'createLobby': without a name and a password, or when the login fails, 'gagalLogin';
      otherwise 'suksesLogin' and `onCreateLobby` with the account's id, name and username as
      `serverID`, `serverName` and `idGuru`. The result also says what the timer will do. */
  function CreateLobbyEvent(w: World, pid: string, name: JsVal, password: JsVal, login: Login): (World, Option<PendingCreate>)
    requires Alive(w, pid) && forall r | r in w.order :: r in w.lobbys
  {
    if Truthy(name) && Truthy(password) then
      match login
      case LoggedIn(id, serverName, username) =>
        var v := w.(log := w.log + [Emit(w.connections[pid].socket, ToSelf, "suksesLogin", NoData)]);
        var (u, pending) := CreateLobby(v, pid, id, serverName, username);
        (u, Some(pending))
      case LoginFailed => (GagalLogin(w, pid), None)
    else
      (GagalLogin(w, pid), None)
  }

  /** Without both credentials the login is never attempted: the outcome does not depend on
      what the server would have answered. */
  lemma CreateLobbyNeedsCredentials(w: World, pid: string, name: JsVal, password: JsVal, l1: Login, l2: Login)
    requires Alive(w, pid) && forall r | r in w.order :: r in w.lobbys
    requires !Truthy(name) || !Truthy(password)
    ensures CreateLobbyEvent(w, pid, name, password, l1) == CreateLobbyEvent(w, pid, name, password, l2)
    ensures CreateLobbyEvent(w, pid, name, password, l1) == (GagalLogin(w, pid), None)
  {
  }

  /** A failed login sends 'gagalLogin' and leaves every room and connection as it was. */
  lemma FailedLoginChangesNothing(w: World, pid: string, name: JsVal, password: JsVal)
    requires Coherent(w) && Alive(w, pid)
    ensures var (v, pending) := CreateLobbyEvent(w, pid, name, password, LoginFailed);
      && pending.None? && Coherent(v)
      && v.lobbys == w.lobbys && v.connections == w.connections && v.order == w.order
      && v.log == w.log + [Emit(w.connections[pid].socket, ToSelf, "gagalLogin", NoData)]
  {
    LogIrrelevant(w, GagalLogin(w, pid).log);
  }

  /** A successful login makes the caller the teacher named by the account, with the account
      id as server id when it is truthy, and the timer looks for the room of the account's
      username. */
  lemma LoginMakesTeacher(w: World, pid: string, name: JsVal, password: JsVal, id: JsVal, serverName: JsVal, username: JsVal)
    requires Coherent(w) && Alive(w, pid)
    requires Truthy(name) && Truthy(password)
    ensures var (v, pending) := CreateLobbyEvent(w, pid, name, password, LoggedIn(id, serverName, username));
      var p := v.connections[pid].player;
      && Coherent(v) && Alive(v, pid) && pending.Some?
      && p.kind == Num(1) && p.username == serverName
      && p.serverID == (if Truthy(id) then id else w.connections[pid].player.serverID)
      && pending.value.pid == pid && pending.value.idGuru == username
      && v.log == w.log + [Emit(w.connections[pid].socket, ToSelf, "suksesLogin", NoData)]
  {
    var u := w.(log := w.log + [Emit(w.connections[pid].socket, ToSelf, "suksesLogin", NoData)]);
    LogIrrelevant(w, u.log);
    CreateLobbyKeeps(u, pid, id, serverName, username);
    CreateLobbyEffects(u, pid, id, serverName, username);
  }

  /** 'joinLobby': `onJoinLobby` only with a truthy name, room id and type, else 'errorPesan'. */
  function JoinLobbyEvent(w: World, pid: string, name: JsVal, idLobby: JsVal, kind: JsVal): Run<World>
    requires Coherent(w) && Alive(w, pid)
  {
    if Truthy(name) && Truthy(idLobby) && Truthy(kind) then JoinLobby(w, pid, idLobby, kind, name)
    else Done(w.(log := w.log + [ErrorPesan(w.connections[pid].socket)]))
  }

  /** With a truthy name, room id and type the request is `onJoinLobby`'s, a crash included. */
  lemma JoinLobbyForwards(w: World, pid: string, name: JsVal, idLobby: JsVal, kind: JsVal)
    requires Coherent(w) && Alive(w, pid)
    requires Truthy(name) && Truthy(idLobby) && Truthy(kind)
    ensures JoinLobbyEvent(w, pid, name, idLobby, kind) == JoinLobby(w, pid, idLobby, kind, name)
  {
  }

  /** A falsy name, room id or type, type 0 among them, is turned away with 'errorPesan'
      before `onJoinLobby`, changing nothing and never throwing. */
  lemma JoinLobbyNeedsAllFields(w: World, pid: string, name: JsVal, idLobby: JsVal, kind: JsVal)
    requires Coherent(w) && Alive(w, pid)
    requires !Truthy(name) || !Truthy(idLobby) || kind == Num(0)
    ensures var v := JoinLobbyEvent(w, pid, name, idLobby, kind);
      && v.Done?
      && v.value.lobbys == w.lobbys && v.value.connections == w.connections
      && v.value.log == w.log + [ErrorPesan(w.connections[pid].socket)]
  {
  }

  /** 'playerList': `{username, id}` for every member, in member order. */
  function Listing(conns: map<string, Conn>, ms: seq<string>): (r: seq<Listed>)
    requires forall m | m in ms :: m in conns && conns[m].Live?
  {
    seq(|ms|, i requires 0 <= i < |ms| =>
      assert ms[i] in ms;
      Listed(conns[ms[i]].player.username, conns[ms[i]].player.id))
  }

  /** A connection in no room has no `connection.lobby.connections`, and the TypeError ends
      the process. */
  function ListPlayers(w: World, pid: string): Run<World>
    requires Alive(w, pid)
    requires w.connections[pid].lobby.Some? ==>
      w.connections[pid].lobby.value in w.lobbys && MembersAlive(w, w.connections[pid].lobby.value)
  {
    var c := w.connections[pid];
    if c.lobby.None? then Crash
    else
      var ms := w.lobbys[c.lobby.value].connections;
      Done(w.(log := w.log + [Emit(c.socket, ToSelf, "playerList", PlayerList(Listing(w.connections, ms)))]))
  }

  /** Asking for the list throws exactly for a connection in no room. Otherwise the list
      names every member once, in member order, by its own id and name, and asking for it
      changes no room and no connection. */
  lemma PlayerListIsRoster(w: World, pid: string)
    requires Coherent(w) && Alive(w, pid)
    ensures w.connections[pid].lobby.Some? ==>
      w.connections[pid].lobby.value in w.lobbys && MembersAlive(w, w.connections[pid].lobby.value)
    ensures ListPlayers(w, pid).Crash? <==> w.connections[pid].lobby.None?
    ensures ListPlayers(w, pid).Done? ==>
      var v := ListPlayers(w, pid).value; var ms := w.lobbys[w.connections[pid].lobby.value].connections;
      && Coherent(v) && v.lobbys == w.lobbys && v.connections == w.connections
      && |v.log| == |w.log| + 1 && v.log[|w.log|].payload.PlayerList?
      && var l := v.log[|w.log|].payload.players;
         |l| == |ms| && forall i | 0 <= i < |ms| :: l[i].id == ms[i] && l[i].username == w.connections[ms[i]].player.username
  {
    assert ConnOk(w, pid);
    if w.connections[pid].lobby.Some? {
      var r := w.connections[pid].lobby.value;
      assert RoomOk(w, r);
      var ms := w.lobbys[r].connections;
      forall i | 0 <= i < |ms| ensures ms[i] in w.connections && ConnOk(w, ms[i]) {
        assert ms[i] in ms;
      }
      LogIrrelevant(w, ListPlayers(w, pid).value.log);
    }
  }

  // ---- Server.onSubmitJawaban ----

  /** 'submitJawaban' posts nothing exactly for a connection in no room. Otherwise the body
      carries the sender's name and the room its player names, and a message with a truthy
      id or code is posted with a truthy code. */
  lemma SubmitJawabanPosts(w: World, pid: string, form: JawabanForm)
    requires Coherent(w) && Alive(w, pid)
    ensures SubmitJawaban(w, pid, form).None? <==> w.connections[pid].lobby.None?
    ensures SubmitJawaban(w, pid, form).Some? ==>
      var r := SubmitJawaban(w, pid, form).value;
      && r.namaSiswa == w.connections[pid].player.username
      && r.idLobby == RoomOf(w, pid) && RoomOf(w, pid) in w.lobbys
      && (Truthy(form.id) || Truthy(form.kodeSoal) ==> Truthy(r.kodeSoal))
  {
    assert ConnOk(w, pid);
    var c := w.connections[pid];
    if c.lobby.Some? {
      assert RoomOk(w, c.lobby.value);
      NormaliseCases(form, c.player.username, c.lobby.value);
      if Truthy(form.id) || Truthy(form.kodeSoal) {
        NormalisedCodeTruthy(form, c.player.username, c.lobby.value);
      }
    }
  }

  // ---- Server.onSubmitSoal ----

  /** `onSubmitSoal` checks the fields before it posts anything: a refused question posts
      nothing and only answers the teacher; an accepted one posts the quiz built from the
      message, and the room hears of it only when the API answers. Rooms and connections
      never change, and exactly one message is sent. */
  lemma SubmitSoalChecksFirst(w: World, pid: string, form: SoalForm, reply: Http.Reply)
    requires Alive(w, pid) && w.connections[pid].lobby.Some?
    ensures var c := w.connections[pid]; var r := c.lobby.value;
      var f := form.(idLobby := Str(r), namaGuru := c.player.username, serverID := c.player.serverID);
      var (v, posted) := SubmitSoal(w, pid, form, reply);
      && v.lobbys == w.lobbys && v.connections == w.connections && v.order == w.order
      && |v.log| == |w.log| + 1 && v.log[..|w.log|] == w.log
      && (CheckSoal(f).Some? ==>
            posted.None? && v.log[|w.log|] == Emit(c.socket, ToSelf, "errorPesan", Message(CheckSoal(f).value)))
      && (CheckSoal(f).None? && f.soal.Str? ==> posted == Some(QuizRequest(f, Title(f.soal.s), [QuestionOf(f)])))
      && (CheckSoal(f).None? && f.soal.Str? && reply.Answer? ==>
            v.log[|w.log|] == Emit(c.socket, ToRoom(r), "submitSoal", Soal(f.(kodeSoal := reply.data))))
      && (v.log[|w.log|].target.ToRoom? <==> CheckSoal(f).None? && f.soal.Str? && reply.Answer?)
  {
  }

  // ---- QuizEventHandler ----

  /** 'submitSoal': `onSubmitSoal` only while the room's `quiz` flag is set, else 'errorPesan'.
      ('submitJawaban' is forwarded with no gate.) */
  function SubmitSoalEvent(w: World, pid: string, form: SoalForm, reply: Http.Reply): (World, Option<QuizRequest>)
    requires InClassRoom(w, pid)
  {
    if SettingsOf(w, pid).quiz then SubmitSoal(w, pid, form, reply)
    else (w.(log := w.log + [ErrorPesan(w.connections[pid].socket)]), None)
  }

  /** With the gate closed nothing is posted and only 'errorPesan' is sent; with it open the
      request is exactly `onSubmitSoal`'s. */
  lemma QuizGate(w: World, pid: string, form: SoalForm, reply: Http.Reply)
    requires InClassRoom(w, pid)
    ensures var (v, posted) := SubmitSoalEvent(w, pid, form, reply);
      (SettingsOf(w, pid).quiz ==> (v, posted) == SubmitSoal(w, pid, form, reply))
      && (!SettingsOf(w, pid).quiz ==>
            posted.None? && v.lobbys == w.lobbys && v.connections == w.connections
            && v.log == w.log + [ErrorPesan(w.connections[pid].socket)])
  {
  }

  /** After a breakout the room refuses questions until a return to the class opens it again. */
  lemma QuizGateAcrossBreakout(w: World, pid: string, form: SoalForm, reply: Http.Reply)
    requires Coherent(w) && Classes.Placed(w, pid)
    requires Classes.Splits(w, pid) && w.lobbys[w.connections[pid].lobby.value].settings.Some?
    ensures var v := Breakout(w, pid);
      && InClassRoom(v, pid)
      && SubmitSoalEvent(v, pid, form, reply) == (v.(log := v.log + [ErrorPesan(v.connections[pid].socket)]), None)
      && InClassRoom(ReturnToKelas(v, pid), pid)
      && SubmitSoalEvent(ReturnToKelas(v, pid), pid, form, reply) == SubmitSoal(ReturnToKelas(v, pid), pid, form, reply)
  {
    Classes.BreakoutThenReturn(w, pid);
    Classes.BreakoutKeeps(w, pid);
    Classes.ReturnToKelasIdempotent(Breakout(w, pid), pid);
  }

  /** The class room a teacher's first login creates accepts questions at once. */
  lemma FreshClassAcceptsQuiz(w: World, pending: PendingCreate, freshId: string, form: SoalForm, reply: Http.Reply)
    requires Coherent(w) && !pending.found && freshId !in w.lobbys
    ensures var e := CompleteCreateLobby(w, pending, freshId);
      e.Done? ==>
        && InClassRoom(e.value.0, pending.pid)
        && SubmitSoalEvent(e.value.0, pending.pid, form, reply) == SubmitSoal(e.value.0, pending.pid, form, reply)
  {
    CompleteCreatesClass(w, pending, freshId);
    CompleteRegisters(w, pending, freshId);
  }
}
