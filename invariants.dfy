/** What the room operations of Code/Server.js and Code/Lobbies promise: every operation keeps
    the registry coherent (`Registry.Coherent`), and each moves the connections it touches
    exactly where the source says. */
module Invariants {
  import opened Js
  import opened Players
  import opened Lobbies
  import opened Wire
  import opened Memory
  import opened Registry
  import opened Steps

  /** The log is not part of the registry's shape. */
  lemma LogIrrelevant(w: World, log: seq<Emission>)
    requires Coherent(w)
    ensures Coherent(w.(log := log))
  {
    SameShapeKeeps(w, w.(log := log));
  }

  lemma NoDupAppend<T>(s: seq<T>, x: T)
    requires NoDup(s) && x !in s
    ensures NoDup(s + [x])
  {
  }

  /** A freshly started server is coherent. */
  lemma InitialCoherent()
    ensures Coherent(Initial())
    ensures forall r | r in Initial().lobbys :: r == GeneralServerID && Initial().lobbys[r].connections == []
  {
    var w := Initial();
    assert NoDup(w.order);
    assert RoomOk(w, GeneralServerID);
  }

  /** A connection of a coherent registry that is a member of room `q` names `q` as its room. */
  lemma MemberNamesRoom(w: World, q: string, pid: string)
    requires q in w.lobbys && RoomOk(w, q) && pid in w.lobbys[q].connections
    ensures Alive(w, pid) && RoomOf(w, pid) == q && w.connections[pid].lobby == Some(q)
  {
    assert RoomOk(w, q);
  }

  /** Only the room a player names can hold it. */
  lemma OnlyNamedRoomHolds(w: World, pid: string)
    requires Alive(w, pid) && forall q | q in w.lobbys :: RoomOk(w, q)
    ensures forall q | q in w.lobbys && q != RoomOf(w, pid) :: pid !in w.lobbys[q].connections
  {
    forall q | q in w.lobbys && q != RoomOf(w, pid) ensures pid !in w.lobbys[q].connections {
      if pid in w.lobbys[q].connections {
        MemberNamesRoom(w, q, pid);
      }
    }
  }

  // ---- entering ----

  /** Entering a room with a connection that is in no room keeps the registry coherent. */
  lemma EnterKeeps(u: World, r: string, pid: string, ready: bool)
    requires Coherent(u) && Detached(u, pid) && r in u.lobbys
    ensures Coherent(Enter(u, r, pid, ready))
  {
    var v := Enter(u, r, pid, ready);
    assert RoomOk(u, r);
    NoDupAppend(u.lobbys[r].connections, pid);
    forall q | q in v.lobbys ensures RoomOk(v, q) {
      assert RoomOk(u, q);
    }
    forall k | k in v.connections ensures ConnOk(v, k) {
      assert ConnOk(u, k);
    }
  }

  /** The members of any room of a coherent registry are placed. */
  lemma CoherentPlaced(w: World, r: string)
    requires Coherent(w) && r in w.lobbys
    ensures MembersPlaced(w, r)
  {
    assert RoomOk(w, r);
  }

  /** GameLobby `onEnterLobby` for a connection in no room: refused, with the error and
      nothing else, exactly when the room already holds 50 members; otherwise the connection
      is appended and points to the room, and no other room changes. */
  lemma GameEnterKeeps(u: World, r: string, pid: string)
    requires Coherent(u) && Detached(u, pid) && r in u.lobbys
    ensures MembersPlaced(u, r)
    ensures var (v, ok) := GameEnter(u, r, pid);
      && Coherent(v)
      && (ok <==> |u.lobbys[r].connections| < DefaultMaxConnections)
      && (ok ==> v.lobbys[r].connections == u.lobbys[r].connections + [pid]
                 && v.connections[pid].lobby == Some(r) && v.connections[pid].player.lobby == Str(r)
                 && v.connections[pid].player.ready)
      && (!ok ==> v == u.(log := u.log + [Emit(u.connections[pid].socket, ToSelf, "errorPesan", Message(LobbyFullMessage))]))
      && (forall q | q in u.lobbys && q != r :: v.lobbys[q] == u.lobbys[q])
      && v.lobbys[r].settings == u.lobbys[r].settings
      && (forall k | k in u.connections && k != pid :: v.connections[k] == u.connections[k])
  {
    CoherentPlaced(u, r);
    var (v, ok) := GameEnter(u, r, pid);
    if ok {
      EnterKeeps(u, r, pid, true);
      LogIrrelevant(Enter(u, r, pid, true), v.log);
    } else {
      LogIrrelevant(u, v.log);
    }
  }

  // ---- switching ----

  /** The player's record after a switch: only its room name and `ready` may differ. */
  predicate SamePerson(p: Player, q: Player) {
    q == p.(lobby := q.lobby, ready := q.ready)
  }

  /** The leave inside a switch takes the connection out of every list it is in (the one
      its player names) and touches nothing else but the connection's own room pointer. */
  lemma SwitchLeaveLists(w: World, pid: string, target: string)
    requires Coherent(w) && Alive(w, pid) && RoomOf(w, pid) in w.lobbys
    ensures var u := SwitchLeave(w, pid, target);
      && (forall q | q in w.lobbys :: u.lobbys[q].connections == RemoveFirst(w.lobbys[q].connections, pid))
      && (forall q | q in w.lobbys :: u.lobbys[q].settings == w.lobbys[q].settings)
      && (forall k | k in w.connections && k != pid :: u.connections[k] == w.connections[k])
      && u.connections[pid] == w.connections[pid].(lobby := None)
  {
    var r := RoomOf(w, pid);
    OnlyNamedRoomHolds(w, pid);
    forall q | q in w.lobbys && q != r ensures RemoveFirst(w.lobbys[q].connections, pid) == w.lobbys[q].connections {
      RemoveAbsent(w.lobbys[q].connections, pid);
    }
  }

  /** `onSwitchLobby`: the target gains the connection at the end unless it held 50 members
      after the leave, in which case the connection is left in no room at all. */
  lemma SwitchKeeps(w: World, pid: string, target: string)
    requires Coherent(w) && Alive(w, pid) && target in w.lobbys && w.lobbys[target].settings.Some?
    requires RoomOf(w, pid) in w.lobbys
    ensures var (v, ok) := Switch(w, pid, target);
      var rest := RemoveFirst(w.lobbys[target].connections, pid);
      && Coherent(v)
      && (ok <==> |rest| < DefaultMaxConnections)
      && (ok ==> v.lobbys[target].connections == rest + [pid] && v.connections[pid].lobby == Some(target)
                 && v.connections[pid].player.lobby == Str(target))
      && (!ok ==> Detached(v, pid) && v.lobbys[target].connections == rest)
  {
    SwitchLeaves(w, pid, target);
    SwitchLeaveLists(w, pid, target);
    GameEnterKeeps(SwitchLeave(w, pid, target), target, pid);
  }

  /** Every other room loses at most the switching connection, and no room's settings change. */
  lemma SwitchFrame(w: World, pid: string, target: string)
    requires Coherent(w) && Alive(w, pid) && target in w.lobbys && w.lobbys[target].settings.Some?
    requires RoomOf(w, pid) in w.lobbys
    ensures var v := Switch(w, pid, target).0;
      && (forall q | q in w.lobbys && q != target :: v.lobbys[q].connections == RemoveFirst(w.lobbys[q].connections, pid))
      && (forall q | q in w.lobbys :: v.lobbys[q].settings == w.lobbys[q].settings)
  {
    SwitchLeaves(w, pid, target);
    SwitchLeaveLists(w, pid, target);
  }

  /** No other connection changes, and the player keeps all but its room name and `ready`. */
  lemma SwitchPeople(w: World, pid: string, target: string)
    requires Coherent(w) && Alive(w, pid) && target in w.lobbys && w.lobbys[target].settings.Some?
    requires RoomOf(w, pid) in w.lobbys
    ensures var v := Switch(w, pid, target).0;
      && SamePerson(w.connections[pid].player, v.connections[pid].player)
      && (forall k | k in w.connections && k != pid :: v.connections[k] == w.connections[k])
  {
    SwitchLeaves(w, pid, target);
    SwitchLeaveLists(w, pid, target);
  }

  /** A switch never tears a room down, even one it leaves empty. */
  lemma SwitchTearsNothingDown(w: World, pid: string, target: string)
    requires Coherent(w) && Alive(w, pid) && target in w.lobbys && w.lobbys[target].settings.Some?
    requires RoomOf(w, pid) in w.lobbys
    ensures Switch(w, pid, target).0.lobbys.Keys == w.lobbys.Keys
    ensures Switch(w, pid, target).0.order == w.order
  {
  }

  // ---- connecting and disconnecting ----

  /** The new connection of `onConnected` before it enters the general room. */
  function Filed(w: World, socket: string, p: Player): World {
    w.(connections := w.connections[p.id := Live(socket, p.(lobby := Str(GeneralServerID)), None)])
  }

  /** Filing a connection under a fresh id keeps the registry coherent, and the connection is in no room. */
  lemma FiledDetached(w: World, socket: string, p: Player)
    requires Coherent(w) && p.id !in w.connections && p.position.Some?
    ensures Coherent(Filed(w, socket, p)) && Detached(Filed(w, socket, p), p.id)
  {
    var u0 := Filed(w, socket, p);
    forall q | q in u0.lobbys ensures RoomOk(u0, q) && p.id !in u0.lobbys[q].connections {
      assert RoomOk(w, q);
    }
    forall k | k in u0.connections ensures ConnOk(u0, k) {
      if k != p.id { assert ConnOk(w, k); }
    }
  }

  /** `onConnected` is entering the general room from a freshly filed connection. */
  lemma ConnectIsEnter(w: World, socket: string, p: Player)
    requires GeneralServerID in w.lobbys
    ensures Connect(w, socket, p) == Enter(Filed(w, socket, p), GeneralServerID, p.id, false).(log := w.log + [Join(socket, GeneralServerID)])
  {
  }

  /** `onConnected` keeps the registry coherent for a fresh id. */
  lemma ConnectKeeps(w: World, socket: string, p: Player)
    requires Coherent(w) && p.id !in w.connections && p.position.Some?
    ensures Coherent(Connect(w, socket, p))
  {
    FiledDetached(w, socket, p);
    EnterKeeps(Filed(w, socket, p), GeneralServerID, p.id, false);
    ConnectIsEnter(w, socket, p);
    LogIrrelevant(Enter(Filed(w, socket, p), GeneralServerID, p.id, false), w.log + [Join(socket, GeneralServerID)]);
  }

  /** `onConnected`: the new connection is filed under its player's id, is the last member of
      the general room, and it and its player point to that room; nothing else changes. */
  lemma ConnectEffects(w: World, socket: string, p: Player)
    requires GeneralServerID in w.lobbys
    ensures var v := Connect(w, socket, p);
      && v.connections == w.connections[p.id := Live(socket, p.(lobby := Str(GeneralServerID)), Some(GeneralServerID))]
      && v.lobbys == w.lobbys[GeneralServerID := w.lobbys[GeneralServerID].(connections := w.lobbys[GeneralServerID].connections + [p.id])]
      && v.order == w.order
      && v.log == w.log + [Join(socket, GeneralServerID)]
  {
    ConnectIsEnter(w, socket, p);
  }

  /** Deleting a disconnected player's connection and taking it out of the room its player
      names keeps the registry coherent, with the id in no list. */
  lemma ForgetLeaveKeeps(w: World, pid: string, socket: string)
    requires Coherent(w) && Alive(w, pid) && RoomOf(w, pid) in w.lobbys
    ensures var t := OnLeave(Forget(w, pid), RoomOf(w, pid), pid, socket);
      Coherent(t) && forall q | q in t.lobbys :: pid !in t.lobbys[q].connections
  {
    ForgetLeaveRooms(w, pid, socket);
    ForgetLeaveConns(w, pid, socket);
  }

  lemma ForgetLeaveRooms(w: World, pid: string, socket: string)
    requires Alive(w, pid) && RoomOf(w, pid) in w.lobbys && forall q | q in w.lobbys :: RoomOk(w, q)
    ensures var t := OnLeave(Forget(w, pid), RoomOf(w, pid), pid, socket);
      forall q | q in t.lobbys :: pid !in t.lobbys[q].connections && RoomOk(t, q)
  {
    var cur := RoomOf(w, pid);
    var t := OnLeave(Forget(w, pid), cur, pid, socket);
    OnlyNamedRoomHolds(w, pid);
    RemoveNoDup(w.lobbys[cur].connections, pid) by { assert RoomOk(w, cur); }
    forall q | q in t.lobbys ensures pid !in t.lobbys[q].connections && RoomOk(t, q) {
      assert RoomOk(w, q);
    }
  }

  lemma ForgetLeaveConns(w: World, pid: string, socket: string)
    requires Alive(w, pid) && RoomOf(w, pid) in w.lobbys && RoomOk(w, RoomOf(w, pid))
    requires forall k | k in w.connections :: ConnOk(w, k)
    ensures var t := OnLeave(Forget(w, pid), RoomOf(w, pid), pid, socket);
      forall k | k in t.connections :: ConnOk(t, k)
  {
    var cur := RoomOf(w, pid);
    var t := OnLeave(Forget(w, pid), cur, pid, socket);
    RemoveNoDup(w.lobbys[cur].connections, pid) by { assert RoomOk(w, cur); }
    forall k | k in t.connections ensures ConnOk(t, k) {
      assert ConnOk(w, k);
    }
  }

  /** When the player names no room, deleting the connection keeps the registry coherent. */
  lemma ForgetKeeps(w: World, pid: string)
    requires Coherent(w) && Alive(w, pid) && RoomOf(w, pid) !in w.lobbys
    ensures var u := Forget(w, pid);
      Coherent(u) && forall q | q in u.lobbys :: pid !in u.lobbys[q].connections
  {
    var u := Forget(w, pid);
    OnlyNamedRoomHolds(w, pid);
    forall q | q in u.lobbys ensures RoomOk(u, q) {
      assert RoomOk(w, q);
    }
    forall k | k in u.connections ensures ConnOk(u, k) {
      assert ConnOk(w, k);
    }
  }

  /** Closing an empty class room keeps the registry coherent. */
  lemma CloseRoomKeeps(t: World, r: string)
    requires Coherent(t) && r in t.lobbys && r != GeneralServerID && t.lobbys[r].connections == []
    ensures Coherent(CloseRoom(t, r))
  {
    var v := CloseRoom(t, r);
    RemoveNoDup(t.order, r);
    forall q | q in v.lobbys ensures RoomOk(v, q) {
      assert RoomOk(t, q);
    }
    forall k | k in v.connections ensures ConnOk(v, k) {
      assert ConnOk(t, k);
    }
  }

  /** `onDisconnected` keeps the registry coherent, and the id is left in no member list. */
  lemma DisconnectKeeps(w: World, pid: string)
    requires Coherent(w) && Alive(w, pid)
    ensures var v := Disconnect(w, pid).0;
      Coherent(v) && forall q | q in v.lobbys :: pid !in v.lobbys[q].connections
  {
    var cur := RoomOf(w, pid);
    if cur in w.lobbys {
      ForgetLeaveKeeps(w, pid, w.connections[pid].socket);
      var t := OnLeave(Forget(w, pid), cur, pid, w.connections[pid].socket);
      if cur != GeneralServerID && |t.lobbys[cur].connections| == 0 {
        CloseRoomKeeps(t, cur);
      }
    } else {
      ForgetKeeps(w, pid);
    }
  }

  /** `onDisconnected`: the id leaves `connections`; the room the player named is closed
      exactly when it is a class room left empty (its `deletable` flag plays no part), and
      the general room never is; no other room changes. The room hears 'disconnected' from
      the server, and a class room hears it a second time from its own `onLeaveLobby`. */
  lemma DisconnectEffects(w: World, pid: string)
    requires Alive(w, pid)
    ensures var (v, closed) := Disconnect(w, pid);
      var cur := RoomOf(w, pid);
      var bye := Emit(w.connections[pid].socket, ToRoom(cur), "disconnected", PlayerId(pid));
      && v.connections == w.connections - {pid}
      && (closed <==> cur in w.lobbys && cur != GeneralServerID && RemoveFirst(w.lobbys[cur].connections, pid) == [])
      && v.lobbys.Keys == (if closed then w.lobbys.Keys - {cur} else w.lobbys.Keys)
      && (forall q | q in v.lobbys && q != cur :: v.lobbys[q] == w.lobbys[q])
      && v.log == w.log + [bye] + (if cur in w.lobbys && w.lobbys[cur].settings.Some? then [bye] else [])
      && v.length == w.length
  {
  }

  // ---- joining ----

  /** The class rooms `JoinLobby` lets a connection into. */
  predicate JoinAllowed(w: World, key: string) {
    key in w.lobbys && w.lobbys[key].settings.Some? && w.lobbys[key].settings.value.joinable && CanEnterLobby(w.lobbys[key])
  }

  /** The keys whose lookup in `server.lobbys` finds something truthy without
      `canEnterLobby`: the general room, a property every array inherits, or the array's
      `length` once it is no longer 0. */
  predicate LookupThrows(w: World, key: string) {
    || key == GeneralServerID
    || (key !in w.lobbys && key in ArrayInheritedNames)
    || (key !in w.lobbys && key == "length" && w.length > 0)
  }

  /** What an accepted join leaves: the player carries the requested type and name and, when
      the room's seats fit under the 50-member limit, is the last member of the room and
      points to it. */
  predicate Admitted(w: World, v: World, pid: string, key: string, kind: JsVal, name: JsVal) {
    && pid in v.connections && v.connections[pid].Live?
    && v.connections[pid].player.kind == kind && v.connections[pid].player.username == name
    && (key in w.lobbys && key in v.lobbys && w.lobbys[key].settings.Some? &&
        w.lobbys[key].settings.value.maxPlayers <= DefaultMaxConnections ==>
          v.lobbys[key].connections == RemoveFirst(w.lobbys[key].connections, pid) + [pid]
          && v.connections[pid].lobby == Some(key))
  }

  /** `onJoinLobby` throws exactly for a key whose lookup has no `canEnterLobby`, and for an
      accepted join of a player whose own room is gone. */
  lemma JoinLobbyCrashes(w: World, pid: string, idLobby: JsVal, kind: JsVal, name: JsVal)
    requires Coherent(w) && Alive(w, pid)
    ensures var key := ToText(idLobby);
      JoinLobby(w, pid, idLobby, kind, name).Crash? <==>
        LookupThrows(w, key) || (JoinAllowed(w, key) && RoomOf(w, pid) !in w.lobbys)
  {
    var key := ToText(idLobby);
    if key in w.lobbys { assert RoomOk(w, key); }
  }

  /** Asking to join 'General Server' brings the server down, where the intended lookup
      answers with `errorPesan`. */
  lemma JoinGeneralRoomCrashes(w: World, pid: string, kind: JsVal, name: JsVal)
    requires Coherent(w) && Alive(w, pid)
    ensures JoinLobby(w, pid, Str(GeneralServerID), kind, name) == Crash
    ensures JoinLobbyChecked(w, pid, Str(GeneralServerID), kind, name)
         == Done(w.(log := w.log + [ErrorPesan(w.connections[pid].socket)]))
  {
  }

  /** A room id such as "123456", six of nanoid's digits with no leading zero, is an array
      index, so storing a room under it sets `server.lobbys.length` to 123457. */
  lemma DigitIdIsIndex()
    ensures IsArrayIndex("123456") && DigitsValue("123456") == 123456
  {
    assert "123456"[..5] == "12345" && "12345"[..4] == "1234" && "1234"[..3] == "123";
    assert "123"[..2] == "12" && "12"[..1] == "1" && "1"[..0] == "";
  }

  /** Once a class room is stored under an index key, asking to join 'length' finds a
      non-zero number and brings the server down, where the intended lookup answers with
      `errorPesan`. No room is ever stored under 'length' itself, which is not a nanoid id. */
  lemma IndexRoomArmsLength(w: World, id: string, room: Room, pid: string, kind: JsVal, name: JsVal)
    requires Coherent(w) && Alive(w, pid) && id !in w.lobbys && "length" !in w.lobbys && IsArrayIndex(id)
    requires room.connections == [] && room.settings.Some?
    ensures var v := Register(w, id, room);
      && Coherent(v) && Alive(v, pid) && LookupThrows(v, "length")
      && JoinLobby(v, pid, Str("length"), kind, name) == Crash
      && JoinLobbyChecked(v, pid, Str("length"), kind, name) == Done(v.(log := v.log + [ErrorPesan(v.connections[pid].socket)]))
  {
    NewRoomKeeps(w, id, room);
    var v := Register(w, id, room);
    assert id != "length" by { assert !IsDigit("length"[0]); }
    assert "length" !in v.lobbys;
  }

  /** The intended lookup throws only where `onSwitchLobby` does, refuses every key that is
      not an open class room with a bare `errorPesan`, and otherwise does what `onJoinLobby`
      does. */
  lemma JoinLobbyCheckedSafe(w: World, pid: string, idLobby: JsVal, kind: JsVal, name: JsVal)
    requires Coherent(w) && Alive(w, pid)
    ensures var key := ToText(idLobby);
      var v := JoinLobbyChecked(w, pid, idLobby, kind, name);
      && (v.Crash? <==> JoinAllowed(w, key) && RoomOf(w, pid) !in w.lobbys)
      && (!JoinAllowed(w, key) ==> v == Done(w.(log := w.log + [ErrorPesan(w.connections[pid].socket)])))
      && (JoinLobby(w, pid, idLobby, kind, name).Done? ==> v == JoinLobby(w, pid, idLobby, kind, name))
  {
    JoinLobbyCrashes(w, pid, idLobby, kind, name);
    var key := ToText(idLobby);
    if key in w.lobbys { assert RoomOk(w, key); }
  }

  /** `onJoinLobby` on an unknown, closed or full room whose lookup does not throw: a bare
      `errorPesan` and nothing else. */
  lemma JoinLobbyRefuses(w: World, pid: string, idLobby: JsVal, kind: JsVal, name: JsVal)
    requires Coherent(w) && Alive(w, pid)
    requires !JoinAllowed(w, ToText(idLobby)) && !LookupThrows(w, ToText(idLobby))
    ensures JoinLobby(w, pid, idLobby, kind, name) == Done(w.(log := w.log + [ErrorPesan(w.connections[pid].socket)]))
  {
    var key := ToText(idLobby);
    if key in w.lobbys { assert RoomOk(w, key); }
  }

  /** An accepted `onJoinLobby` of a player whose room exists is a switch with the new type
      and name. */
  lemma JoinLobbyIsSwitch(w: World, pid: string, idLobby: JsVal, kind: JsVal, name: JsVal)
    requires Coherent(w) && Alive(w, pid) && RoomOf(w, pid) in w.lobbys
    requires JoinAllowed(w, ToText(idLobby))
    ensures Coherent(Joining(w, pid, kind, name)) && RoomOf(Joining(w, pid, kind, name), pid) in w.lobbys
    ensures JoinLobby(w, pid, idLobby, kind, name) == Done(Switch(Joining(w, pid, kind, name), pid, ToText(idLobby)).0)
  {
    SameShapeKeeps(w, Joining(w, pid, kind, name));
  }

  /** Unless it throws, `onJoinLobby` keeps the registry coherent and never closes a room. */
  lemma JoinLobbyKeeps(w: World, pid: string, idLobby: JsVal, kind: JsVal, name: JsVal)
    requires Coherent(w) && Alive(w, pid)
    ensures var v := JoinLobby(w, pid, idLobby, kind, name); v.Done? ==> Coherent(v.value)
  {
    var key := ToText(idLobby);
    if JoinAllowed(w, key) && RoomOf(w, pid) in w.lobbys {
      JoinLobbyIsSwitch(w, pid, idLobby, kind, name);
      SwitchKeeps(Joining(w, pid, kind, name), pid, key);
    } else if JoinLobby(w, pid, idLobby, kind, name).Done? {
      JoinLobbyCrashes(w, pid, idLobby, kind, name);
      JoinLobbyRefuses(w, pid, idLobby, kind, name);
      LogIrrelevant(w, w.log + [ErrorPesan(w.connections[pid].socket)]);
    }
  }

  /** An accepted `onJoinLobby` that does not throw: the player takes the type and name
      given, and when the room's capacity is at most 50 it ends up the room's last member. */
  lemma JoinLobbyAccepts(w: World, pid: string, idLobby: JsVal, kind: JsVal, name: JsVal)
    requires Coherent(w) && Alive(w, pid)
    requires JoinAllowed(w, ToText(idLobby))
    ensures var v := JoinLobby(w, pid, idLobby, kind, name);
      v.Done? ==> Admitted(w, v.value, pid, ToText(idLobby), kind, name)
  {
    if RoomOf(w, pid) in w.lobbys {
      JoinLobbyIsSwitch(w, pid, idLobby, kind, name);
      SwitchAdmits(w, pid, ToText(idLobby), kind, name);
    } else {
      JoinLobbyCrashes(w, pid, idLobby, kind, name);
    }
  }

  /** The switch an accepted join makes admits the player under the type and name given. */
  lemma SwitchAdmits(w: World, pid: string, key: string, kind: JsVal, name: JsVal)
    requires Coherent(w) && Alive(w, pid) && RoomOf(w, pid) in w.lobbys
    requires JoinAllowed(w, key)
    requires Coherent(Joining(w, pid, kind, name)) && RoomOf(Joining(w, pid, kind, name), pid) in w.lobbys
    ensures Admitted(w, Switch(Joining(w, pid, kind, name), pid, key).0, pid, key, kind, name)
  {
    var u := Joining(w, pid, kind, name);
    SwitchPeople(u, pid, key);
    if w.lobbys[key].settings.value.maxPlayers <= DefaultMaxConnections {
      SwitchKeeps(u, pid, key);
      var s := w.lobbys[key].connections;
      if pid in s { RemoveOne(s, pid); } else { RemoveAbsent(s, pid); }
      CanEnterLobbyMeans(w.lobbys[key]);
    }
  }

  // ---- creating a class ----

  /** Rewriting a player's record without touching its id, room name or presence of a
      position keeps the registry coherent. */
  lemma PlayerEditKeeps(w: World, pid: string, p: Player)
    requires Coherent(w) && Alive(w, pid)
    requires var q := w.connections[pid].player; p.id == q.id && p.lobby == q.lobby && p.position.Some? == q.position.Some?
    ensures Coherent(w.(connections := w.connections[pid := w.connections[pid].(player := p)]))
  {
    var v := w.(connections := w.connections[pid := w.connections[pid].(player := p)]);
    assert SameShape(w, v);
    SameShapeKeeps(w, v);
  }

  /** Rewriting room settings without adding or removing them keeps the registry coherent. */
  lemma SettingsEditKeeps(w: World, lobbys: map<string, Room>)
    requires Coherent(w) && lobbys.Keys == w.lobbys.Keys
    requires forall r | r in w.lobbys ::
      lobbys[r].connections == w.lobbys[r].connections && lobbys[r].settings.Some? == w.lobbys[r].settings.Some?
    ensures Coherent(w.(lobbys := lobbys))
  {
    SameShapeKeeps(w, w.(lobbys := lobbys));
  }

  /** `onCreateLobby` up to the timer keeps the registry coherent. */
  lemma CreateLobbyKeeps(w: World, pid: string, serverID: JsVal, serverName: JsVal, idGuru: JsVal)
    requires Coherent(w) && Alive(w, pid)
    ensures Coherent(Prepare(w, pid, serverID, serverName, idGuru))
  {
    var stamped := map r | r in w.lobbys :: Stamp(w.lobbys[r], idGuru);
    SettingsEditKeeps(w, stamped);
    var w1 := w.(lobbys := stamped);
    var c := w.connections[pid];
    var p := if Truthy(serverID) then c.player.(serverID := serverID) else c.player;
    PlayerEditKeeps(w1, pid, p.(kind := Num(1), username := serverName));
    assert Prepare(w, pid, serverID, serverName, idGuru) == w1.(connections := w1.connections[pid := w1.connections[pid].(player := p.(kind := Num(1), username := serverName))]);
  }

  /** `onCreateLobby` up to the timer: the caller becomes a teacher (type 1) named after the
      server, taking the server id when one is given; every class room's `whiteboardID` is
      overwritten with the teacher's id and nothing else of any room changes. */
  lemma CreateLobbyEffects(w: World, pid: string, serverID: JsVal, serverName: JsVal, idGuru: JsVal)
    requires Alive(w, pid)
    ensures var v := Prepare(w, pid, serverID, serverName, idGuru);
      var p := w.connections[pid].player;
      && v.connections == w.connections[pid := w.connections[pid].(player :=
           p.(kind := Num(1), username := serverName, serverID := if Truthy(serverID) then serverID else p.serverID))]
      && v.lobbys.Keys == w.lobbys.Keys && v.order == w.order && v.log == w.log
      && (forall r | r in w.lobbys && w.lobbys[r].settings.Some? ::
            v.lobbys[r] == w.lobbys[r].(settings := Some(w.lobbys[r].settings.value.(whiteboardID := idGuru))))
      && (forall r | r in w.lobbys && w.lobbys[r].settings.None? :: v.lobbys[r] == w.lobbys[r])
  {
  }

  /** The scan finds a room exactly when some listed room has this teacher. */
  lemma LastMatchFound(lobbys: map<string, Room>, keys: seq<string>, idGuru: JsVal)
    requires forall k | k in keys :: k in lobbys
    ensures LastMatch(lobbys, keys, idGuru) >= 0 <==> exists k | k in keys :: Teaches(lobbys[k], idGuru)
  {
    var i := LastMatch(lobbys, keys, idGuru);
    if i >= 0 {
      assert keys[i] in keys;
    }
    if exists k | k in keys :: Teaches(lobbys[k], idGuru) {
      var k :| k in keys && Teaches(lobbys[k], idGuru);
      var j :| 0 <= j < |keys| && keys[j] == k;
      assert i >= j;
    }
  }

  /** The timer will reuse a room iff some room has this teacher; the decision is taken
      now, before the delay. */
  lemma DecideFinds(w: World, pid: string, idGuru: JsVal)
    requires forall r | r in w.order :: r in w.lobbys
    requires forall r | r in w.lobbys :: r in w.order
    ensures Decide(w, pid, idGuru).found <==> exists r | r in w.lobbys :: Teaches(w.lobbys[r], idGuru)
  {
    var keys := PropertyOrder(w.order);
    PropertyOrderMembers(w.order);
    LastMatchFound(w.lobbys, keys, idGuru);
    if exists r | r in w.lobbys :: Teaches(w.lobbys[r], idGuru) {
      var r :| r in w.lobbys && Teaches(w.lobbys[r], idGuru);
      assert r in keys;
    }
  }

  /** The room reused is the last room of this teacher in `Object.values` order; with none,
      `idTemp` keeps its initial 'a'. */
  lemma DecideLast(w: World, pid: string, idGuru: JsVal)
    requires forall r | r in w.order :: r in w.lobbys
    ensures var d := Decide(w, pid, idGuru);
      var keys := PropertyOrder(w.order);
      && d.pid == pid && d.idGuru == idGuru
      && (!d.found ==> d.idTemp == "a")
      && (d.found ==> d.idTemp in w.lobbys && Teaches(w.lobbys[d.idTemp], idGuru)
                      && exists i | 0 <= i < |keys| :: keys[i] == d.idTemp && LastIn(w.lobbys, keys, i, idGuru))
  {
    var keys := PropertyOrder(w.order);
    PropertyOrderMembers(w.order);
    var i := LastMatch(w.lobbys, keys, idGuru);
    if i >= 0 {
      assert keys[i] in keys;
      assert LastIn(w.lobbys, keys, i, idGuru);
    }
  }

  /** No room after position `i` of `keys` has this teacher. */
  predicate LastIn(lobbys: map<string, Room>, keys: seq<string>, i: int, idGuru: JsVal) {
    forall j | 0 <= j < |keys| && i < j && keys[j] in lobbys :: !Teaches(lobbys[keys[j]], idGuru)
  }

  /** The scan never settles on the general room, which has no settings. */
  lemma DecideAvoidsGeneral(w: World, pid: string, idGuru: JsVal)
    requires Coherent(w)
    ensures var d := Decide(w, pid, idGuru); d.found ==> d.idTemp != GeneralServerID
  {
    DecideLast(w, pid, idGuru);
  }

  /** The timer throws exactly when the teacher has disconnected during the delay, when the
      room the teacher leaves is gone, or when the room found has been deleted meanwhile. */
  lemma CompleteCrashes(w: World, pending: PendingCreate, freshId: string)
    requires Coherent(w)
    requires pending.found ==> pending.idTemp != GeneralServerID
    requires !pending.found ==> freshId !in w.lobbys
    ensures CompleteCreateLobby(w, pending, freshId).Crash? <==>
      || !Alive(w, pending.pid)
      || (RoomOf(w, pending.pid) !in w.lobbys && !(!pending.found && RoomOf(w, pending.pid) == freshId))
      || (pending.found && pending.idTemp !in w.lobbys)
  {
  }

  /** A teacher who disconnects within the 2000 ms brings the server down; the intended timer
      does nothing. */
  lemma TeacherLeavingCrashes(w: World, pending: PendingCreate, freshId: string)
    requires Coherent(w) && freshId !in w.lobbys && pending.pid !in w.connections
    requires pending.found ==> pending.idTemp != GeneralServerID
    ensures CompleteCreateLobby(w, pending, freshId) == Crash
    ensures CompleteCreateLobbyChecked(w, pending, freshId) == Done((w, false))
  {
  }

  /** The intended timer throws only where `onSwitchLobby` does, for a teacher whose own room
      is gone; it agrees with the timer as written wherever that does not throw, and reopens a
      class for a teacher whose room was deleted. */
  lemma CompleteCheckedSafe(w: World, pending: PendingCreate, freshId: string)
    requires Coherent(w) && freshId !in w.lobbys
    requires pending.found ==> pending.idTemp != GeneralServerID
    ensures var e := CompleteCreateLobbyChecked(w, pending, freshId);
      && (e.Crash? ==> Alive(w, pending.pid) && RoomOf(w, pending.pid) !in w.lobbys)
      && (Alive(w, pending.pid) && RoomOf(w, pending.pid) !in w.lobbys && RoomOf(w, pending.pid) != freshId ==> e.Crash?)
      && (CompleteCreateLobby(w, pending, freshId).Done? ==> e == CompleteCreateLobby(w, pending, freshId))
      && (Alive(w, pending.pid) && pending.found && pending.idTemp !in w.lobbys ==>
            e == CompleteCreateLobby(w, pending.(found := false), freshId))
  {
    if Alive(w, pending.pid) && pending.found && pending.idTemp !in w.lobbys {
      CompleteCrashes(w, pending.(found := false), freshId);
    } else {
      CompleteCrashes(w, pending, freshId);
    }
  }

  /** With no room of this teacher found, the timer registers a new empty class room and, if
      it does not throw, switches the teacher into it. */
  lemma CompleteIsSwitch(w: World, pending: PendingCreate, freshId: string)
    requires Coherent(w) && !pending.found && freshId !in w.lobbys
    ensures Coherent(Register(w, freshId, ClassRoom(pending.idGuru)))
    ensures var e := CompleteCreateLobby(w, pending, freshId);
      e.Done? ==> Alive(w, pending.pid) && e.value == Switch(Register(w, freshId, ClassRoom(pending.idGuru)), pending.pid, freshId)
  {
    NewRoomKeeps(w, freshId, ClassRoom(pending.idGuru));
  }

  /** The new class room always admits its teacher, who becomes its only member. */
  lemma CompleteCreatesClass(w: World, pending: PendingCreate, freshId: string)
    requires Coherent(w) && !pending.found && freshId !in w.lobbys
    ensures var e := CompleteCreateLobby(w, pending, freshId);
      e.Done? ==>
        var (v, ok) := e.value;
        && Coherent(v) && ok
        && v.lobbys[freshId].connections == [pending.pid]
        && v.connections[pending.pid].lobby == Some(freshId)
  {
    CompleteIsSwitch(w, pending, freshId);
    if CompleteCreateLobby(w, pending, freshId).Done? {
      SwitchKeeps(Register(w, freshId, ClassRoom(pending.idGuru)), pending.pid, freshId);
      RemoveAbsent([], pending.pid);
    }
  }

  /** The new class room is registered under the fresh id, last in creation order, with 37
      seats, game mode 'Kelas', this teacher and the default flags. */
  lemma CompleteRegisters(w: World, pending: PendingCreate, freshId: string)
    requires Coherent(w) && !pending.found && freshId !in w.lobbys
    ensures var e := CompleteCreateLobby(w, pending, freshId);
      e.Done? ==>
        var v := e.value.0;
        && v.lobbys.Keys == w.lobbys.Keys + {freshId}
        && v.order == w.order + [freshId]
        && v.lobbys[freshId].settings == Some(NewSettings(Str("Kelas"), 37, pending.idGuru))
  {
    CompleteIsSwitch(w, pending, freshId);
    var u := Register(w, freshId, ClassRoom(pending.idGuru));
    if CompleteCreateLobby(w, pending, freshId).Done? {
      assert Alive(u, pending.pid) && RoomOf(u, pending.pid) in u.lobbys;
      SwitchIntoRegistered(w, freshId, pending.idGuru, pending.pid);
    }
  }

  /** Switching into a room just registered keeps its key, the creation order and the
      room's settings. */
  lemma SwitchIntoRegistered(w: World, freshId: string, idGuru: JsVal, pid: string)
    requires freshId !in w.lobbys
    requires var u := Register(w, freshId, ClassRoom(idGuru));
      Coherent(u) && Alive(u, pid) && RoomOf(u, pid) in u.lobbys
    ensures var v := Switch(Register(w, freshId, ClassRoom(idGuru)), pid, freshId).0;
      && v.lobbys.Keys == w.lobbys.Keys + {freshId}
      && v.order == w.order + [freshId]
      && v.lobbys[freshId].settings == Some(NewSettings(Str("Kelas"), 37, idGuru))
  {
    var u := Register(w, freshId, ClassRoom(idGuru));
    SwitchFrame(u, pid, freshId);
  }

  /** With a room of this teacher found, the timer switches the caller into it unless it
      throws, and the registry stays coherent. */
  lemma CompleteReuses(w: World, pending: PendingCreate, freshId: string)
    requires Coherent(w) && pending.found && pending.idTemp != GeneralServerID
    ensures var e := CompleteCreateLobby(w, pending, freshId);
      e.Done? ==>
        && pending.idTemp in w.lobbys && w.lobbys[pending.idTemp].settings.Some?
        && Alive(w, pending.pid) && RoomOf(w, pending.pid) in w.lobbys
        && e.value == Switch(w, pending.pid, pending.idTemp)
        && Coherent(e.value.0)
  {
    if CompleteCreateLobby(w, pending, freshId).Done? {
      assert RoomOk(w, pending.idTemp);
      SwitchKeeps(w, pending.pid, pending.idTemp);
    }
  }
}
