/** The room and classroom handlers of Code/Server.js as functions on the registry value:
    disconnecting, creating and joining class rooms, the discussion-group breakout and its
    follow-ups, the whiteboard blob and the quiz relays. */
module Steps {
  import opened Js
  import opened Players
  import opened Lobbies
  import opened Wire
  import opened Memory
  import opened Registry
  import opened Submit
  import Http

  /** The first steps of `onDisconnected`: the connection is deleted from `connections` and
      the room its player names hears 'disconnected'. */
  function Forget(w: World, pid: string): (u: World)
    requires Alive(w, pid)
    ensures u.lobbys == w.lobbys && u.order == w.order && u.connections == w.connections - {pid}
  {
    var c := w.connections[pid];
    w.(connections := w.connections - {pid},
       log := w.log + [Emit(c.socket, ToRoom(RoomOf(w, pid)), "disconnected", PlayerId(pid))])
  }

  /** `delete server.lobbys[r]`, which also drops `r` from the creation order. */
  function CloseRoom(w: World, r: string): (v: World)
    ensures v.lobbys == w.lobbys - {r} && v.connections == w.connections && v.log == w.log
    ensures v.length == w.length
  {
    w.(lobbys := w.lobbys - {r}, order := RemoveFirst(w.order, r))
  }

  /** `onDisconnected`: the connection is forgotten and its room hears of it; the room the
      player names is left, and deleted if it is a class room left empty. The boolean says
      whether a room was closed. */
  function Disconnect(w: World, pid: string): (e: (World, bool))
    requires Alive(w, pid)
    ensures e.1 ==> RoomOf(w, pid) in w.lobbys && RoomOf(w, pid) != GeneralServerID
  {
    var cur := RoomOf(w, pid);
    var u := Forget(w, pid);
    if cur in u.lobbys then
      var t := OnLeave(u, cur, pid, w.connections[pid].socket);
      if cur != GeneralServerID && |t.lobbys[cur].connections| == 0 then (CloseRoom(t, cur), true)
      else (t, false)
    else (u, false)
  }

  // ---- onCreateLobby ----

  /** The scan's write to a room: a class room's `whiteboardID` becomes the teacher's id. */
  function Stamp(room: Room, idGuru: JsVal): (r: Room)
    ensures r.connections == room.connections && r.listDiskusi == room.listDiskusi
    ensures r.settings.Some? == room.settings.Some?
    ensures room.settings.Some? ==> r.settings.value == room.settings.value.(whiteboardID := idGuru)
  {
    if room.settings.Some? then room.(settings := Some(room.settings.value.(whiteboardID := idGuru))) else room
  }

  /** The rooms after the scan of `onCreateLobby` has visited `keys`. */
  function StampKeys(lobbys: map<string, Room>, keys: seq<string>, idGuru: JsVal): (m: map<string, Room>)
    ensures m.Keys == lobbys.Keys
  {
    map r | r in lobbys :: if r in keys then Stamp(lobbys[r], idGuru) else lobbys[r]
  }

  /** Visiting one more room stamps it; visiting a room twice changes nothing more. */
  lemma StampKeysStep(lobbys: map<string, Room>, keys: seq<string>, k: string, idGuru: JsVal)
    requires k in lobbys
    ensures StampKeys(lobbys, keys + [k], idGuru) == StampKeys(lobbys, keys, idGuru)[k := Stamp(lobbys[k], idGuru)]
    ensures Stamp(StampKeys(lobbys, keys, idGuru)[k], idGuru) == Stamp(lobbys[k], idGuru)
  {
    var m := StampKeys(lobbys, keys + [k], idGuru);
    var m' := StampKeys(lobbys, keys, idGuru)[k := Stamp(lobbys[k], idGuru)];
    forall r | r in lobbys ensures m[r] == m'[r] {
      assert r in keys + [k] <==> r in keys || r == k;
    }
  }

  /** The state of the scan of `onCreateLobby` after visiting `keys[..i]`. */
  predicate Scanned(rooms: map<string, Room>, keys: seq<string>, idGuru: JsVal, i: nat,
                    lobbys: map<string, Room>, found: bool, idTemp: string)
    requires i <= |keys| && forall k | k in keys :: k in rooms
  {
    && lobbys == StampKeys(rooms, keys[..i], idGuru)
    && var j := LastMatch(rooms, keys[..i], idGuru);
       found == (j >= 0) && idTemp == if j >= 0 then keys[j] else "a"
  }

  /** One turn of the scan: stamp the room visited and remember it when it is this teacher's. */
  lemma ScanStep(rooms: map<string, Room>, keys: seq<string>, idGuru: JsVal, i: nat,
                 lobbys: map<string, Room>, found: bool, idTemp: string,
                 lobbys': map<string, Room>, found': bool, idTemp': string)
    requires i < |keys| && forall k | k in keys :: k in rooms
    requires Scanned(rooms, keys, idGuru, i, lobbys, found, idTemp)
    requires keys[i] in lobbys
    requires var c := lobbys[keys[i]];
      var hit := c.settings.Some? && LooseEq(c.settings.value.idGuru, idGuru);
      && lobbys' == (if c.settings.Some? then lobbys[keys[i] := c.(settings := Some(c.settings.value.(whiteboardID := idGuru)))] else lobbys)
      && found' == (if hit then true else found)
      && idTemp' == (if hit then keys[i] else idTemp)
    ensures Scanned(rooms, keys, idGuru, i + 1, lobbys', found', idTemp')
  {
    var key := keys[i];
    assert key in keys;
    assert keys[..i + 1] == keys[..i] + [key];
    assert keys[..i + 1][..i] == keys[..i];
    StampKeysStep(rooms, keys[..i], key, idGuru);
  }

  /** Every key scanned so far is still a room. */
  lemma ScannedRooms(rooms: map<string, Room>, keys: seq<string>, idGuru: JsVal, i: nat,
                     lobbys: map<string, Room>, found: bool, idTemp: string)
    requires i < |keys| && forall k | k in keys :: k in rooms
    requires Scanned(rooms, keys, idGuru, i, lobbys, found, idTemp)
    ensures keys[i] in lobbys
  {
    assert keys[i] in keys;
  }

  /** A scan that visits every room stamps them all. */
  lemma StampKeysAll(lobbys: map<string, Room>, keys: seq<string>, idGuru: JsVal)
    requires forall r | r in lobbys :: r in keys
    ensures StampKeys(lobbys, keys, idGuru) == map r | r in lobbys :: Stamp(lobbys[r], idGuru)
  {
  }

  predicate Teaches(room: Room, idGuru: JsVal) {
    room.settings.Some? && LooseEq(room.settings.value.idGuru, idGuru)
  }

  /** The position in `keys` of the last room whose `settings.idGuru == idGuru`, or -1:
      the scan of `onCreateLobby` overwrites `idTemp` at every match. */
  function LastMatch(lobbys: map<string, Room>, keys: seq<string>, idGuru: JsVal): (i: int)
    requires forall k | k in keys :: k in lobbys
    ensures -1 <= i < |keys|
    ensures i >= 0 ==> Teaches(lobbys[keys[i]], idGuru)
    ensures forall j | i < j < |keys| :: !Teaches(lobbys[keys[j]], idGuru)
  {
    if keys == [] then -1
    else
      var n := |keys| - 1;
      assert keys[n] in keys;
      if Teaches(lobbys[keys[n]], idGuru) then n
      else
        var init := keys[..n];
        assert forall j | 0 <= j < n :: init[j] == keys[j];
        LastMatch(lobbys, init, idGuru)
  }

  /** What the 2000 ms timer of `onCreateLobby` will do: switch `pid` to `idTemp` when a
      room was found, otherwise to a new class room for `idGuru`. */
  datatype PendingCreate = PendingCreate(pid: string, found: bool, idTemp: string, idGuru: JsVal)

  /** The writes of `onCreateLobby` before the timer: the caller's server id (when one is
      given), type and name, and the `whiteboardID` of every class room. */
  function Prepare(w: World, pid: string, serverID: JsVal, serverName: JsVal, idGuru: JsVal): World
    requires Alive(w, pid)
  {
    var c := w.connections[pid];
    var p := if Truthy(serverID) then c.player.(serverID := serverID) else c.player;
    w.(connections := w.connections[pid := c.(player := p.(kind := Num(1), username := serverName))],
       lobbys := map r | r in w.lobbys :: Stamp(w.lobbys[r], idGuru))
  }

  /** The scan's verdict: the last room of this teacher in `Object.values` order, if any. */
  function Decide(w: World, pid: string, idGuru: JsVal): PendingCreate
    requires forall r | r in w.order :: r in w.lobbys
  {
    PropertyOrderMembers(w.order);
    var keys := PropertyOrder(w.order);
    var i := LastMatch(w.lobbys, keys, idGuru);
    PendingCreate(pid, i >= 0, if i >= 0 then keys[i] else "a", idGuru)
  }

  /** `onCreateLobby(connection, {serverID, serverName, idGuru})` up to the `setTimeout`. The
      scan's writes do not touch `idGuru`, so its verdict is read off the registry as it was. */
  function CreateLobby(w: World, pid: string, serverID: JsVal, serverName: JsVal, idGuru: JsVal): (World, PendingCreate)
    requires Alive(w, pid) && forall r | r in w.order :: r in w.lobbys
  {
    (Prepare(w, pid, serverID, serverName, idGuru), Decide(w, pid, idGuru))
  }

  /** The room a new class gets: a 'Kelas' room for 37 players. */
  function ClassRoom(idGuru: JsVal): Room {
    NewRoom(Some(NewSettings(Str("Kelas"), 37, idGuru)))
  }

  /** The timer of `onCreateLobby` going off, 2000 ms after the scan; `freshId` is the id
      `new GameLobby` draws. The timer holds the connection object itself, so it crashes when
      that connection has disconnected in the meantime (its socket was set to null), and
      `onSwitchLobby` crashes when the room it leaves or the room found was deleted. */
  function CompleteCreateLobby(w: World, pending: PendingCreate, freshId: string): (e: Run<(World, bool)>)
    requires Coherent(w)
    requires pending.found ==> pending.idTemp != GeneralServerID
    requires !pending.found ==> freshId !in w.lobbys
  {
    var pid := pending.pid;
    if !Alive(w, pid) then Crash
    else if pending.found then
      if RoomOf(w, pid) !in w.lobbys || pending.idTemp !in w.lobbys then Crash
      else
        assert RoomOk(w, pending.idTemp);
        Done(Switch(w, pid, pending.idTemp))
    else
      NewRoomKeeps(w, freshId, ClassRoom(pending.idGuru));
      var u := Register(w, freshId, ClassRoom(pending.idGuru));
      if RoomOf(u, pid) !in u.lobbys then Crash
      else Done(Switch(u, pid, freshId))
  }

  /** The timer as evidently intended: a teacher who has left needs no room, and a room
      found but deleted since is replaced by a new class room. */
  function CompleteCreateLobbyChecked(w: World, pending: PendingCreate, freshId: string): (e: Run<(World, bool)>)
    requires Coherent(w) && freshId !in w.lobbys
    requires pending.found ==> pending.idTemp != GeneralServerID
  {
    if !Alive(w, pending.pid) then Done((w, false))
    else if pending.found && pending.idTemp !in w.lobbys then
      CompleteCreateLobby(w, pending.(found := false), freshId)
    else CompleteCreateLobby(w, pending, freshId)
  }

  /** `server.lobbys[id] = room`, the new key coming last in creation order. An index key
      at or past the array's length makes the length one more than the index, as ECMAScript
      arrays do; any other key leaves it. */
  function Register(w: World, id: string, room: Room): (v: World)
    ensures v.lobbys == w.lobbys[id := room] && v.order == w.order + [id] && v.connections == w.connections
    ensures v.log == w.log && w.length <= v.length
    ensures IsArrayIndex(id) ==> DigitsValue(id) < v.length && (v.length == w.length || v.length == DigitsValue(id) + 1)
    ensures !IsArrayIndex(id) ==> v.length == w.length
  {
    var length := if IsArrayIndex(id) && w.length <= DigitsValue(id) then DigitsValue(id) + 1 else w.length;
    w.(lobbys := w.lobbys[id := room], order := w.order + [id], length := length)
  }

  /** Registering an empty class room under a fresh id keeps the registry in shape. */
  lemma NewRoomKeeps(w: World, id: string, room: Room)
    requires Coherent(w) && id !in w.lobbys && room.connections == [] && room.settings.Some?
    ensures Coherent(Register(w, id, room))
  {
    var v := Register(w, id, room);
    assert id !in w.order;
    forall r | r in v.lobbys ensures RoomOk(v, r) {
      if r != id { assert RoomOk(w, r); }
    }
    forall k | k in v.connections ensures ConnOk(v, k) {
      assert ConnOk(w, k);
    }
  }

  // ---- onJoinLobby ----

  /** The connection with the type and name `onJoinLobby` assigns before switching. */
  function Joining(w: World, pid: string, kind: JsVal, name: JsVal): (v: World)
    requires Alive(w, pid)
    ensures v.lobbys == w.lobbys && v.order == w.order && v.connections.Keys == w.connections.Keys
    ensures SameShape(w, v)
  {
    var c := w.connections[pid];
    w.(connections := w.connections[pid := c.(player := c.player.(kind := kind, username := name))])
  }

  /** `onJoinLobby(connection, {idLobby, type, name})`: refused with a bare `errorPesan` for an
      unknown room, a room that is not joinable, or a full one; otherwise the player takes
      the given type and name and switches. `server.lobbys` is an array, so a key naming no
      room may still find an inherited method, or under 'length' a non-zero number; that and
      the general room, a `LobbyBase` without `canEnterLobby`, make the call of
      `canEnterLobby` throw. An accepted join of a player whose room was deleted throws in
      `onSwitchLobby`. */
  function JoinLobby(w: World, pid: string, idLobby: JsVal, kind: JsVal, name: JsVal): (v: Run<World>)
    requires Coherent(w) && Alive(w, pid)
    ensures v.Done? ==> v.value.lobbys.Keys == w.lobbys.Keys && v.value.connections.Keys == w.connections.Keys && v.value.order == w.order
  {
    var key := ToText(idLobby);
    var refused := w.(log := w.log + [ErrorPesan(w.connections[pid].socket)]);
    if key !in w.lobbys then
      if key in ArrayInheritedNames || (key == "length" && w.length != 0) then Crash else Done(refused)
    else if w.lobbys[key].settings.None? then Crash
    else if w.lobbys[key].settings.value.joinable && CanEnterLobby(w.lobbys[key]) then
      if RoomOf(w, pid) !in w.lobbys then Crash
      else
        SameShapeKeeps(w, Joining(w, pid, kind, name));
        Done(Switch(Joining(w, pid, kind, name), pid, key).0)
    else Done(refused)
  }

  /** `onJoinLobby` with the lookup evidently intended: only a class room of the registry
      is looked at, and any other key gets the bare `errorPesan`. */
  function JoinLobbyChecked(w: World, pid: string, idLobby: JsVal, kind: JsVal, name: JsVal): (v: Run<World>)
    requires Coherent(w) && Alive(w, pid)
  {
    var key := ToText(idLobby);
    if key in w.lobbys && w.lobbys[key].settings.Some? then JoinLobby(w, pid, idLobby, kind, name)
    else Done(w.(log := w.log + [ErrorPesan(w.connections[pid].socket)]))
  }

  // ---- onSwitchLobbyDiskusi ----

  /** The number of discussion groups for `playerCount` students: one per six, up to six
      groups, and 0 above 36. */
  function GroupCount(playerCount: int): int {
    if 1 <= playerCount <= 6 then 1
    else if 7 <= playerCount <= 12 then 2
    else if 13 <= playerCount <= 18 then 3
    else if 19 <= playerCount <= 24 then 4
    else if 25 <= playerCount <= 30 then 5
    else if 31 <= playerCount <= 36 then 6
    else 0
  }

  /** The value of the rotating counter `indexNewLobby` at position `i` of the member list: it
      starts at 0, grows by one per member and drops back to 0 when it reaches `n`. */
  function Slot(i: nat, n: int): nat {
    if i == 0 then 0
    else if Slot(i - 1, n) + 1 == n then 0
    else Slot(i - 1, n) + 1
  }

  /** The tag written for the member at position `i` whose player is `id`. */
  function Tag(room: string, i: nat, n: int, id: string, caller: string): string {
    room + "-" + DecimalText(if id != caller then Slot(i, n) else 0)
  }

  /** The `hasil` list: one assignment per member, in member order. */
  function Assignments(conns: map<string, Conn>, ms: seq<string>, room: string, caller: string, n: int): (a: seq<Assignment>)
    requires forall m | m in ms :: m in conns && conns[m].Live?
    ensures |a| == |ms|
  {
    seq(|ms|, i requires 0 <= i < |ms| =>
      assert ms[i] in ms;
      Assignment(Tag(room, i, n, conns[ms[i]].player.id, caller), conns[ms[i]].player.id))
  }

  /** A member's player after the loop body: its group tag and a cleared seat. */
  function Retag(c: Conn, tag: string): (d: Conn)
    requires c.Live?
    ensures d.Live? && FrameOf(d) == FrameOf(c)
  {
    c.(player := c.player.(lobbyDiskusi := Str(tag), isSit := Str("Null")))
  }

  /** The connections after the loop has visited the members `ms`. */
  function Retagged(conns: map<string, Conn>, ms: seq<string>, room: string, caller: string, n: int): (r: map<string, Conn>)
    requires forall m | m in ms :: m in conns && conns[m].Live?
    ensures r.Keys == conns.Keys
    ensures forall k | k in conns :: r[k].Live? == conns[k].Live? && FrameOf(r[k]) == FrameOf(conns[k])
  {
    if ms == [] then conns
    else
      var i := |ms| - 1;
      var c := Retagged(conns, ms[..i], room, caller, n);
      assert ms[i] in ms;
      c[ms[i] := Retag(c[ms[i]], Tag(room, i, n, c[ms[i]].player.id, caller))]
  }

  /** One more member of the breakout loop: the tag of member `i` is computed from the id
      it had before the loop, and the two tables grow by that member. */
  lemma RetaggedStep(conns: map<string, Conn>, ms: seq<string>, room: string, caller: string, n: int, i: nat)
    requires forall m | m in ms :: m in conns && conns[m].Live?
    requires i < |ms|
    ensures forall m | m in ms[..i] :: m in conns && conns[m].Live?
    ensures forall m | m in ms[..i + 1] :: m in conns && conns[m].Live?
    ensures Retagged(conns, ms[..i], room, caller, n)[ms[i]].player.id == conns[ms[i]].player.id
    ensures var c := Retagged(conns, ms[..i], room, caller, n);
      Retagged(conns, ms[..i + 1], room, caller, n)
        == c[ms[i] := Retag(c[ms[i]], Tag(room, i, n, conns[ms[i]].player.id, caller))]
    ensures Assignments(conns, ms, room, caller, n)[..i + 1]
      == Assignments(conns, ms, room, caller, n)[..i] + [Assignment(Tag(room, i, n, conns[ms[i]].player.id, caller), conns[ms[i]].player.id)]
  {
    RetaggedPrefixAlive(conns, ms, i);
    RetaggedSnoc(conns, ms, room, caller, n, i);
    AssignmentsSnoc(conns, ms, room, caller, n, i);
  }

  lemma RetaggedPrefixAlive(conns: map<string, Conn>, ms: seq<string>, i: nat)
    requires forall m | m in ms :: m in conns && conns[m].Live?
    requires i < |ms|
    ensures forall m | m in ms[..i] :: m in conns && conns[m].Live?
    ensures forall m | m in ms[..i + 1] :: m in conns && conns[m].Live?
  {
    forall m | m in ms[..i + 1] ensures m in ms {
      var j :| 0 <= j < i + 1 && ms[..i + 1][j] == m;
      assert ms[j] == m;
    }
    forall m | m in ms[..i] ensures m in ms {
      var j :| 0 <= j < i && ms[..i][j] == m;
      assert ms[j] == m;
    }
  }

  lemma RetaggedSnoc(conns: map<string, Conn>, ms: seq<string>, room: string, caller: string, n: int, i: nat)
    requires forall m | m in ms :: m in conns && conns[m].Live?
    requires i < |ms|
    ensures forall m | m in ms[..i] :: m in conns && conns[m].Live?
    ensures Retagged(conns, ms[..i], room, caller, n)[ms[i]].player.id == conns[ms[i]].player.id
    ensures var c := Retagged(conns, ms[..i], room, caller, n);
      Retagged(conns, ms[..i + 1], room, caller, n)
        == c[ms[i] := Retag(c[ms[i]], Tag(room, i, n, conns[ms[i]].player.id, caller))]
  {
    RetaggedPrefixAlive(conns, ms, i);
    assert ms[..i + 1][..i] == ms[..i];
    assert ms[i] in ms;
    var c := Retagged(conns, ms[..i], room, caller, n);
    assert FrameOf(c[ms[i]]) == FrameOf(conns[ms[i]]);
  }

  lemma AssignmentsSnoc(conns: map<string, Conn>, ms: seq<string>, room: string, caller: string, n: int, i: nat)
    requires forall m | m in ms :: m in conns && conns[m].Live?
    requires i < |ms|
    ensures ms[i] in conns && conns[ms[i]].Live?
    ensures Assignments(conns, ms, room, caller, n)[..i + 1]
      == Assignments(conns, ms, room, caller, n)[..i] + [Assignment(Tag(room, i, n, conns[ms[i]].player.id, caller), conns[ms[i]].player.id)]
  {
    assert ms[i] in ms;
    var a := Assignments(conns, ms, room, caller, n);
    assert a[..i + 1] == a[..i] + [a[i]];
  }

  /** The tag the breakout loop writes for the member with id `id` while its counter is `k`. */
  function LoopTag(room: string, k: int, id: string, caller: string): string {
    if id != caller then room + "-" + DecimalText(k) else room + "-0"
  }

  lemma LoopTagIsTag(room: string, i: nat, n: int, id: string, caller: string)
    ensures LoopTag(room, Slot(i, n), id, caller) == Tag(room, i, n, id, caller)
  {
    assert DecimalText(0) == "0";
    assert room + "-" + "0" == room + "-0";
  }

  /** One turn of the breakout loop, from the state after `i` members to the state after
      `i + 1`: the counter, the connection table and the assignment list all advance. */
  lemma BreakoutLoopStep(conns: map<string, Conn>, ms: seq<string>, room: string, caller: string, n: int, i: nat,
                         k: int, table: map<string, Conn>, hasil: seq<Assignment>)
    requires forall m | m in ms :: m in conns && conns[m].Live?
    requires i < |ms| && k == Slot(i, n)
    requires table == Retagged(conns, ms[..i], room, caller, n)
    requires hasil == Assignments(conns, ms, room, caller, n)[..i]
    ensures ms[i] in table && table[ms[i]].Live?
    ensures var p := table[ms[i]].player; var tag := LoopTag(room, k, p.id, caller);
      && table[ms[i] := table[ms[i]].(player := p.(lobbyDiskusi := Str(tag), isSit := Str("Null")))]
           == Retagged(conns, ms[..i + 1], room, caller, n)
      && hasil + [Assignment(tag, p.id)] == Assignments(conns, ms, room, caller, n)[..i + 1]
      && (if k + 1 == n then 0 else k + 1) == Slot(i + 1, n)
  {
    RetaggedStep(conns, ms, room, caller, n, i);
    LoopTagIsTag(room, i, n, conns[ms[i]].player.id, caller);
  }

  predicate MembersAlive(w: World, r: string)
    requires r in w.lobbys
  {
    forall m | m in w.lobbys[r].connections :: m in w.connections && w.connections[m].Live?
  }

  /** `onSwitchLobbyDiskusi`: a teacher (type 1) in a room with someone else splits it into
      discussion groups; anyone else changes nothing. */
  function Breakout(w: World, pid: string): World
    requires Alive(w, pid) && w.connections[pid].lobby.Some? && w.connections[pid].lobby.value in w.lobbys
    requires MembersAlive(w, w.connections[pid].lobby.value)
    requires var room := w.lobbys[w.connections[pid].lobby.value];
      |room.connections| > 1 && LooseEq(w.connections[pid].player.kind, Num(1)) ==> room.settings.Some?
  {
    var c := w.connections[pid];
    var r := c.lobby.value;
    var room := w.lobbys[r];
    if !(|room.connections| > 1 && LooseEq(c.player.kind, Num(1))) then w
    else
      var n := GroupCount(|room.connections| - 1);
      var s := room.settings.value.(deletable := false, joinable := false, quiz := false);
      var payload := Groups(Assignments(w.connections, room.connections, r, c.player.id, n), n);
      w.(lobbys := w.lobbys[r := room.(settings := Some(s), listDiskusi := Some(n))],
         connections := Retagged(w.connections, room.connections, r, c.player.id, n),
         log := w.log + [Emit(c.socket, ToSelf, "buatDiskusi", payload), Emit(c.socket, ToRoom(r), "buatDiskusi", payload)])
  }

  // ---- the other discussion and class handlers ----

  /** `onMoveToDiskusi(connection, data)`: the player's group becomes `data` and the room hears it. */
  function MoveToDiskusi(w: World, pid: string, data: JsVal): World
    requires Alive(w, pid) && w.connections[pid].lobby.Some?
  {
    var c := w.connections[pid];
    w.(connections := w.connections[pid := c.(player := c.player.(lobbyDiskusi := data))],
       log := w.log + [Emit(c.socket, ToRoom(c.lobby.value), "moveToDiskusi", Move(data, c.player.id))])
  }

  /** The 'moveRuangan' roster: every member's group, id, position and seat, in member order. */
  function Roster(conns: map<string, Conn>, ms: seq<string>): (seats: seq<Seat>)
    requires forall m | m in ms :: m in conns && conns[m].Live?
    ensures |seats| == |ms|
  {
    seq(|ms|, i requires 0 <= i < |ms| =>
      assert ms[i] in ms;
      var p := conns[ms[i]].player;
      Seat(p.lobbyDiskusi, p.id, p.position, p.isSit))
  }

  /** `onMoveRuangan(connection, data)`: like `onMoveToDiskusi`, and the teacher also gets
      the roster of the room. */
  function MoveRuangan(w: World, pid: string, data: JsVal): World
    requires Alive(w, pid) && w.connections[pid].lobby.Some? && w.connections[pid].lobby.value in w.lobbys
    requires MembersAlive(w, w.connections[pid].lobby.value)
  {
    var c := w.connections[pid];
    var r := c.lobby.value;
    var conns := w.connections[pid := c.(player := c.player.(lobbyDiskusi := data))];
    var seats := Roster(conns, w.lobbys[r].connections);
    w.(connections := conns,
       log := w.log + [Emit(c.socket, ToSelf, "moveRuangan", Seats(seats)),
                       Emit(c.socket, ToRoom(r), "moveToDiskusi", Move(data, c.player.id))])
  }

  /** The room a connection points to, when it is a class room. */
  predicate InClassRoom(w: World, pid: string) {
    && Alive(w, pid)
    && w.connections[pid].lobby.Some?
    && w.connections[pid].lobby.value in w.lobbys
    && w.lobbys[w.connections[pid].lobby.value].settings.Some?
  }

  /** Replaces the settings of the class room `pid` is in. */
  function WithSettings(w: World, pid: string, s: Settings): World
    requires InClassRoom(w, pid)
  {
    var r := w.connections[pid].lobby.value;
    w.(lobbys := w.lobbys[r := w.lobbys[r].(settings := Some(s))])
  }

  function SettingsOf(w: World, pid: string): Settings
    requires InClassRoom(w, pid)
  {
    w.lobbys[w.connections[pid].lobby.value].settings.value
  }

  /** `onReturnToKelas`: the room is deletable, joinable and open for quizzes again, and
      everyone in it, the sender included, hears 'returnToKelas'. */
  function ReturnToKelas(w: World, pid: string): World
    requires InClassRoom(w, pid)
  {
    var c := w.connections[pid];
    var r := c.lobby.value;
    var v := WithSettings(w, pid, SettingsOf(w, pid).(deletable := true, joinable := true, quiz := true));
    v.(log := v.log + [Emit(c.socket, ToSelf, "returnToKelas", Kelas(r)), Emit(c.socket, ToRoom(r), "returnToKelas", Kelas(r))])
  }

  /** `onDrawWhiteboard(connection, data)`: the blob replaces the room's drawing and goes to the others. */
  function DrawWhiteboard(w: World, pid: string, data: JsVal): World
    requires InClassRoom(w, pid)
  {
    var c := w.connections[pid];
    var v := WithSettings(w, pid, SettingsOf(w, pid).(whiteboardData := data));
    v.(log := v.log + [Emit(c.socket, ToRoom(c.lobby.value), "drawWhiteboard", Raw(data))])
  }

  // ---- onSubmitSoal and onSubmitJawaban ----

  /** `onSubmitSoal(connection, data)`: the room, teacher name and server id are copied into
      the message; a refused question gets its message back; an accepted one is posted, and
      on success the message, now with `kodeSoal`, goes to the room. The second component is
      the request posted, if any. */
  function SubmitSoal(w: World, pid: string, form: SoalForm, reply: Http.Reply): (World, Option<QuizRequest>)
    requires Alive(w, pid) && w.connections[pid].lobby.Some?
  {
    var c := w.connections[pid];
    var r := c.lobby.value;
    var f := form.(idLobby := Str(r), namaGuru := c.player.username, serverID := c.player.serverID);
    var refuse := (m: string) => w.(log := w.log + [Emit(c.socket, ToSelf, "errorPesan", Message(m))]);
    match CheckSoal(f)
    case Some(m) => (refuse(m), None)
    case None =>
      match BuildQuiz(f)
      case None => (refuse(SubmitFailed), None)
      case Some(req) =>
        match reply
        case NetworkError => (refuse(SubmitFailed), Some(req))
        case Answer(d) => (w.(log := w.log + [Emit(c.socket, ToRoom(r), "submitSoal", Soal(f.(kodeSoal := d)))]), Some(req))
  }

  /** `onSubmitJawaban(connection, data)`: the body posted; nothing is sent back either way.
      A connection in no room has no `connection.lobby.id`: the promise rejects before any
      post (`None`), and the rejection is only logged (`Code/ErrorHandler.js:24-29`). */
  function SubmitJawaban(w: World, pid: string, form: JawabanForm): Option<JawabanRequest>
    requires Alive(w, pid)
  {
    var c := w.connections[pid];
    if c.lobby.None? then None
    else Some(NormaliseJawaban(form, c.player.username, c.lobby.value))
  }
}
