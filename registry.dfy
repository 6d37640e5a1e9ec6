/** The room registry of Code/Server.js as a value, and what each of the server's room
    operations does to it. `lobbys` maps room ids to rooms and `order` lists its keys in
    creation order (the order `Object.values` visits them in, once array-index keys are
    put first); `connections` maps player ids to connections, and `log` is everything sent
    so far. A connection's `lobby` is the id of the room object it points to. `length` is
    `server.lobbys.length`: `server.lobbys` is an array, so storing a room under a key that
    is an array index raises it past that index, and deleting the key never lowers it. */
module Registry {
  import opened Js
  import opened Players
  import opened Lobbies
  import opened Wire
  import opened Memory

  datatype World = World(lobbys: map<string, Room>, order: seq<string>, connections: map<string, Conn>, log: seq<Emission>, length: nat)

  /** The end of a step that may throw: `Done` with its result, or `Crash` when a TypeError
      escapes a socket handler or a timer callback, which `Code/ErrorHandler.js:11-21` answers
      by exiting the process. */
  datatype Run<T> = Done(value: T) | Crash

  /** The registry of a freshly started server: only the general room. */
  function Initial(): World {
    World(map[GeneralServerID := NewRoom(None)], [GeneralServerID], map[], [], 0)
  }

  predicate Alive(w: World, pid: string) {
    pid in w.connections && w.connections[pid].Live?
  }

  /** Every member of room `r` has a connection that points to some room. */
  predicate MembersPlaced(w: World, r: string) {
    r in w.lobbys && forall m | m in w.lobbys[r].connections :: Alive(w, m) && w.connections[m].lobby.Some?
  }

  // ---- The shape every reachable registry has ----

  /** A room: a class room unless it is the general room, members without repetition, and
      every member's connection and player point back to it. */
  predicate RoomOk(w: World, r: string)
    requires r in w.lobbys
  {
    var room := w.lobbys[r];
    && (r != GeneralServerID ==> room.settings.Some?)
    && NoDup(room.connections)
    && forall m | m in room.connections ::
         Alive(w, m) && w.connections[m].lobby == Some(r) && w.connections[m].player.lobby == Str(r)
  }

  /** A connection: live, filed under its player's id, with a room name and a position, and a
      member of the room it points to. */
  predicate ConnOk(w: World, k: string)
    requires k in w.connections
  {
    var c := w.connections[k];
    && c.Live?
    && c.player.id == k
    && c.player.lobby.Str?
    && c.player.position.Some?
    && (c.lobby.Some? ==> c.lobby.value in w.lobbys && k in w.lobbys[c.lobby.value].connections)
  }

  predicate Coherent(w: World) {
    && GeneralServerID in w.lobbys
    && w.lobbys[GeneralServerID].settings.None?
    && NoDup(w.order)
    && (forall r | r in w.order :: r in w.lobbys)
    && (forall r | r in w.lobbys :: r in w.order)
    && (forall r | r in w.lobbys :: RoomOk(w, r))
    && (forall k | k in w.connections :: ConnOk(w, k))
  }

  /** A live connection that is in no room: it points nowhere and no member list holds it. */
  predicate Detached(w: World, pid: string) {
    && Alive(w, pid)
    && w.connections[pid].lobby.None?
    && forall r | r in w.lobbys :: pid !in w.lobbys[r].connections
  }

  // ---- LobbyBase and GameLobby ----

  /** `onEnterLobby` (with `ready` true) and `onEnterLobbyGeneral` (with `ready` false): the
      connection is appended, and the player and connection point to the room. */
  function Enter(w: World, r: string, pid: string, ready: bool): (v: World)
    requires r in w.lobbys && Alive(w, pid)
    ensures v.lobbys.Keys == w.lobbys.Keys && v.connections.Keys == w.connections.Keys
    ensures v.lobbys[r].connections == w.lobbys[r].connections + [pid]
    ensures v.connections[pid].Live? && v.connections[pid].lobby == Some(r) && v.connections[pid].player.lobby == Str(r)
    ensures v.connections[pid].player == w.connections[pid].player.(lobby := Str(r), ready := ready || w.connections[pid].player.ready)
    ensures forall q | q in w.lobbys && q != r :: v.lobbys[q] == w.lobbys[q]
    ensures forall k | k in w.connections && k != pid :: v.connections[k] == w.connections[k]
  {
    var c := w.connections[pid];
    var p := if ready then c.player.(ready := true) else c.player;
    var room := w.lobbys[r];
    w.(lobbys := w.lobbys[r := room.(connections := room.connections + [pid])],
       connections := w.connections[pid := Live(c.socket, p.(lobby := Str(r)), Some(r))])
  }

  /** LobbyBase `onLeaveLobby`: `connection.lobby` becomes undefined (on the registry's copy, if
      the registry still holds it) and the first occurrence is spliced out of the list. */
  function Leave(w: World, r: string, pid: string): (v: World)
    requires r in w.lobbys
    ensures v.lobbys.Keys == w.lobbys.Keys && v.connections.Keys == w.connections.Keys && v.order == w.order
    ensures v.lobbys[r].connections == RemoveFirst(w.lobbys[r].connections, pid)
    ensures v.lobbys[r].settings == w.lobbys[r].settings
    ensures forall q | q in w.lobbys && q != r :: v.lobbys[q] == w.lobbys[q]
    ensures forall k | k in w.connections && k != pid :: v.connections[k] == w.connections[k]
    ensures pid in w.connections ==> v.connections[pid] == if Alive(w, pid) then w.connections[pid].(lobby := None) else w.connections[pid]
  {
    var room := w.lobbys[r];
    var conns := if Alive(w, pid) then w.connections[pid := w.connections[pid].(lobby := None)] else w.connections;
    w.(lobbys := w.lobbys[r := room.(connections := RemoveFirst(room.connections, pid))], connections := conns)
  }

  /** `removePlayer`: the other members of the room hear that `pid` left. */
  function RemovePlayer(w: World, r: string, pid: string, socket: string): World {
    w.(log := w.log + [Emit(socket, ToRoom(r), "disconnected", PlayerId(pid))])
  }

  /** `lobbys[r].onLeaveLobby(connection)`: the general room runs the base version, a class
      room adds `removePlayer`. */
  function OnLeave(w: World, r: string, pid: string, socket: string): (v: World)
    requires r in w.lobbys
    ensures v.lobbys.Keys == w.lobbys.Keys && v.connections.Keys == w.connections.Keys && v.order == w.order
    ensures v.lobbys[r].connections == RemoveFirst(w.lobbys[r].connections, pid)
    ensures v.lobbys[r].settings == w.lobbys[r].settings
    ensures forall q | q in w.lobbys && q != r :: v.lobbys[q] == w.lobbys[q]
    ensures forall k | k in w.connections && k != pid :: v.connections[k] == w.connections[k]
    ensures pid in w.connections ==> v.connections[pid] == if Alive(w, pid) then w.connections[pid].(lobby := None) else w.connections[pid]
  {
    if w.lobbys[r].settings.Some? then RemovePlayer(Leave(w, r, pid), r, pid, socket) else Leave(w, r, pid)
  }

  /** The 'spawn' descriptor of a placed connection, carrying the server id `serverID`. */
  function Describe(c: Conn, serverID: JsVal): Descriptor
    requires c.Live? && c.lobby.Some?
  {
    Descriptor(c.player.id, c.player.username, c.player.kind, c.lobby.value, serverID, c.player.position, c.player.isSit)
  }

  /** What the `forEach` of `spawnPlayers` sends the joiner for the members `ms`: the
      descriptor of every other member, each with the joiner's server id. */
  function SpawnOthers(w: World, ms: seq<string>, joiner: string, serverID: JsVal, socket: string): seq<Emission>
    requires forall m | m in ms :: Alive(w, m) && w.connections[m].lobby.Some?
  {
    if ms == [] then []
    else
      var m := ms[|ms| - 1];
      assert m in ms && Alive(w, m);
      var c := w.connections[m];
      SpawnOthers(w, ms[..|ms| - 1], joiner, serverID, socket)
        + (if c.player.id != joiner then [Emit(socket, ToSelf, "spawn", Spawn(Describe(c, serverID)))] else [])
  }

  /** One more member of the `forEach` of `spawnPlayers`. */
  lemma SpawnOthersStep(w: World, ms: seq<string>, i: nat, joiner: string, serverID: JsVal, socket: string)
    requires forall m | m in ms :: Alive(w, m) && w.connections[m].lobby.Some?
    requires i < |ms|
    ensures forall m | m in ms[..i] :: Alive(w, m) && w.connections[m].lobby.Some?
    ensures forall m | m in ms[..i + 1] :: Alive(w, m) && w.connections[m].lobby.Some?
    ensures Alive(w, ms[i]) && w.connections[ms[i]].lobby.Some?
    ensures var c := w.connections[ms[i]];
      SpawnOthers(w, ms[..i + 1], joiner, serverID, socket)
        == SpawnOthers(w, ms[..i], joiner, serverID, socket)
           + (if c.player.id != joiner then [Emit(socket, ToSelf, "spawn", Spawn(Describe(c, serverID)))] else [])
  {
    assert ms[i] in ms;
    assert ms[..i + 1][..i] == ms[..i];
  }

  /** All that `spawnPlayers(connection)` sends in room `r`: the joiner's descriptor to itself
      and to the room, then the others'. */
  function SpawnPlayers(w: World, r: string, pid: string): seq<Emission>
    requires MembersPlaced(w, r) && Alive(w, pid) && w.connections[pid].lobby.Some?
  {
    var c := w.connections[pid];
    var d := Describe(c, c.player.serverID);
    [Emit(c.socket, ToSelf, "spawn", Spawn(d)), Emit(c.socket, ToRoom(r), "spawn", Spawn(d))]
      + SpawnOthers(w, w.lobbys[r].connections, c.player.id, c.player.serverID, c.socket)
  }

  const LobbyFullMessage := "Lobby is full. Maximum 50 players allowed."

  /** GameLobby `onEnterLobby`: refused with an error at 50 members, otherwise the base entry
      and the spawn messages. The boolean is its return value. */
  function GameEnter(w: World, r: string, pid: string): (e: (World, bool))
    requires MembersPlaced(w, r) && Alive(w, pid)
    ensures e.0.lobbys.Keys == w.lobbys.Keys && e.0.connections.Keys == w.connections.Keys && e.0.order == w.order
    ensures forall q | q in w.lobbys && q != r :: e.0.lobbys[q] == w.lobbys[q]
    ensures e.0.lobbys[r].settings == w.lobbys[r].settings
    ensures forall k | k in w.connections && k != pid :: e.0.connections[k] == w.connections[k]
    ensures e.0.connections[pid] == if e.1 then Enter(w, r, pid, true).connections[pid] else w.connections[pid]
  {
    var c := w.connections[pid];
    if !CheckConnectionLimit(w.lobbys[r], DefaultMaxConnections) then
      (w.(log := w.log + [Emit(c.socket, ToSelf, "errorPesan", Message(LobbyFullMessage))]), false)
    else
      var v := Enter(w, r, pid, true);
      assert MembersPlaced(v, r);
      (v.(log := v.log + SpawnPlayers(v, r, pid)), true)
  }

  // ---- Server ----

  /** `onConnected`: the new player is filed and enters the general room. */
  function Connect(w: World, socket: string, p: Player): World
    requires GeneralServerID in w.lobbys
  {
    var player := p.(lobby := Str(GeneralServerID));
    var v := w.(connections := w.connections[p.id := Live(socket, player, None)],
                log := w.log + [Join(socket, GeneralServerID)]);
    var u := v.(connections := v.connections[p.id := Live(socket, player, Some(GeneralServerID))]);
    Enter(u, GeneralServerID, p.id, false)
  }

  /** The room a player's `lobby` field names. */
  function RoomOf(w: World, pid: string): string
    requires Alive(w, pid)
  {
    ToText(w.connections[pid].player.lobby)
  }

  /** The first half of `onSwitchLobby`: join the socket room, point the connection at the
      target, and leave the room the player names. */
  function SwitchLeave(w: World, pid: string, target: string): (u: World)
    requires Alive(w, pid) && RoomOf(w, pid) in w.lobbys
    ensures u.lobbys.Keys == w.lobbys.Keys && u.connections.Keys == w.connections.Keys && u.order == w.order
  {
    var c := w.connections[pid];
    var v := w.(log := w.log + [Join(c.socket, target)], connections := w.connections[pid := c.(lobby := Some(target))]);
    OnLeave(v, RoomOf(w, pid), pid, c.socket)
  }

  /** `onSwitchLobby(connection, target)`: join the socket room, leave the room the player
      names, enter the target. */
  function Switch(w: World, pid: string, target: string): (e: (World, bool))
    requires Coherent(w) && Alive(w, pid) && target in w.lobbys && w.lobbys[target].settings.Some?
    requires RoomOf(w, pid) in w.lobbys
    ensures e.0.lobbys.Keys == w.lobbys.Keys && e.0.connections.Keys == w.connections.Keys && e.0.order == w.order
  {
    SwitchLeaves(w, pid, target);
    GameEnter(SwitchLeave(w, pid, target), target, pid)
  }

  /** After the leave inside a switch the registry is in shape and the connection is in no room. */
  lemma SwitchLeaves(w: World, pid: string, target: string)
    requires Coherent(w) && Alive(w, pid) && target in w.lobbys
    requires RoomOf(w, pid) in w.lobbys
    ensures var u := SwitchLeave(w, pid, target); Coherent(u) && Detached(u, pid) && MembersPlaced(u, target)
  {
    var c := w.connections[pid];
    var r := RoomOf(w, pid);
    var v0 := w.(log := w.log + [Join(c.socket, target)]);
    SameShapeKeeps(w, v0);
    LeavePointerIrrelevant(v0, r, pid, Some(target), c.socket);
    LeaveDetaches(v0, r, pid);
    var u := SwitchLeave(w, pid, target);
    assert RoomOk(u, target);
  }

  /** Where the connection pointed before a leave makes no difference afterwards. */
  lemma LeavePointerIrrelevant(w: World, r: string, pid: string, x: Option<string>, socket: string)
    requires r in w.lobbys && Alive(w, pid)
    ensures OnLeave(w.(connections := w.connections[pid := w.connections[pid].(lobby := x)]), r, pid, socket) == OnLeave(w, r, pid, socket)
  {
    var v := w.(connections := w.connections[pid := w.connections[pid].(lobby := x)]);
    assert v.connections[pid := v.connections[pid].(lobby := None)] == w.connections[pid := w.connections[pid].(lobby := None)];
  }

  /** Leaving the room the connection points to (or any room, when it points nowhere) keeps
      the registry in shape and detaches the connection. */
  lemma LeaveDetaches(w: World, r: string, pid: string)
    requires Coherent(w) && r in w.lobbys && Alive(w, pid)
    requires w.connections[pid].lobby.Some? ==> w.connections[pid].lobby.value == r
    ensures var u := Leave(w, r, pid); Coherent(u) && Detached(u, pid)
    ensures forall socket :: var u := OnLeave(w, r, pid, socket); Coherent(u) && Detached(u, pid)
  {
    var u := Leave(w, r, pid);
    LeaveRooms(w, r, pid);
    LeaveConns(w, r, pid);
    forall socket ensures var t := OnLeave(w, r, pid, socket); Coherent(t) && Detached(t, pid) {
      SameShapeKeeps(u, OnLeave(w, r, pid, socket));
    }
  }

  lemma LeaveRooms(w: World, r: string, pid: string)
    requires r in w.lobbys && Alive(w, pid) && forall q | q in w.lobbys :: RoomOk(w, q)
    requires w.connections[pid].lobby.Some? ==> w.connections[pid].lobby.value == r
    ensures var u := Leave(w, r, pid); forall q | q in u.lobbys :: RoomOk(u, q) && pid !in u.lobbys[q].connections
  {
    var u := Leave(w, r, pid);
    RemoveNoDup(w.lobbys[r].connections, pid) by { assert RoomOk(w, r); }
    forall q | q in u.lobbys ensures RoomOk(u, q) && pid !in u.lobbys[q].connections {
      assert RoomOk(w, q);
    }
  }

  lemma LeaveConns(w: World, r: string, pid: string)
    requires r in w.lobbys && Alive(w, pid) && RoomOk(w, r) && forall k | k in w.connections :: ConnOk(w, k)
    requires w.connections[pid].lobby.Some? ==> w.connections[pid].lobby.value == r
    ensures var u := Leave(w, r, pid); forall k | k in u.connections :: ConnOk(u, k)
  {
    var u := Leave(w, r, pid);
    RemoveNoDup(w.lobbys[r].connections, pid) by { assert RoomOk(w, r); }
    forall k | k in u.connections ensures ConnOk(u, k) {
      assert ConnOk(w, k);
    }
  }

  // ---- Changes that keep the registry's shape ----

  /** The parts of a connection the registry's shape depends on. */
  datatype Frame = Gone | Placed(id: string, lobby: JsVal, hasPosition: bool, room: Option<string>)

  function FrameOf(c: Conn): Frame {
    if c.Live? then Placed(c.player.id, c.player.lobby, c.player.position.Some?, c.lobby) else Gone
  }

  /** `v` differs from `w` at most in settings fields, in player fields other than id, room
      name and presence of a position, and in the log. */
  predicate SameShape(w: World, v: World) {
    && v.lobbys.Keys == w.lobbys.Keys
    && v.order == w.order
    && (forall r | r in w.lobbys ::
          v.lobbys[r].connections == w.lobbys[r].connections && v.lobbys[r].settings.Some? == w.lobbys[r].settings.Some?)
    && v.connections.Keys == w.connections.Keys
    && (forall k | k in w.connections :: FrameOf(v.connections[k]) == FrameOf(w.connections[k]))
  }

  lemma SameShapeKeeps(w: World, v: World)
    requires Coherent(w) && SameShape(w, v)
    ensures Coherent(v)
    ensures forall pid | Detached(w, pid) :: Detached(v, pid)
  {
    forall r | r in v.lobbys ensures RoomOk(v, r) {
      assert RoomOk(w, r);
      forall m | m in v.lobbys[r].connections
        ensures Alive(v, m) && v.connections[m].lobby == Some(r) && v.connections[m].player.lobby == Str(r)
      {
        assert FrameOf(v.connections[m]) == FrameOf(w.connections[m]);
      }
    }
    forall k | k in v.connections ensures ConnOk(v, k) {
      assert ConnOk(w, k);
      assert FrameOf(v.connections[k]) == FrameOf(w.connections[k]);
    }
    forall pid | Detached(w, pid) ensures Detached(v, pid) {
      assert FrameOf(v.connections[pid]) == FrameOf(w.connections[pid]);
    }
  }
}
