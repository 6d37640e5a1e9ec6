/** What the discussion and class handlers of Code/Server.js do to the registry: the breakout
    of `onSwitchLobbyDiskusi`, the moves between groups, the return to the class and the
    whiteboard blob. */
module Classes {
  import opened Js
  import opened Players
  import opened Lobbies
  import opened Wire
  import opened Registry
  import opened Steps

  // ---- the group table and the rotating counter ----

  /** Six students per group, at most six groups, none above 36 students. */
  lemma GroupCountFormula(playerCount: int)
    ensures GroupCount(playerCount) == if 1 <= playerCount <= 36 then (playerCount + 5) / 6 else 0
    ensures 0 <= GroupCount(playerCount) <= 6
  {
  }

  /** Euclidean division of `q * n + r` by `n` leaves `r` when `0 <= r < n`. */
  lemma ModOfSum(q: int, n: int, r: int)
    requires n >= 1 && 0 <= r < n
    ensures (q * n + r) % n == r
  {
    var i := q * n + r;
    var d, m := i / n, i % n;
    assert (q - d) * n == m - r;
    if q - d >= 1 {
      MulAtLeast(q - d, n);
    } else if d - q >= 1 {
      MulAtLeast(d - q, n);
    }
  }

  lemma MulAtLeast(a: int, n: int)
    requires a >= 1 && n >= 1
    ensures a * n >= n
  {
  }

  /** One more step of `% n`: it grows by one and drops back to 0 at `n`. */
  lemma ModNext(j: nat, n: int)
    requires n >= 1
    ensures (j + 1) % n == if j % n + 1 == n then 0 else j % n + 1
  {
    var q := j / n;
    assert j == q * n + j % n;
    if j % n + 1 == n {
      assert j + 1 == (q + 1) * n + 0;
      ModOfSum(q + 1, n, 0);
    } else {
      assert j + 1 == q * n + (j % n + 1);
      ModOfSum(q, n, j % n + 1);
    }
  }

  /** The counter is the position modulo the group count; with no groups it never drops back,
      so it is the position itself. The caller's position takes a slot like any other. */
  lemma {:induction false} SlotIsMod(i: nat, n: int)
    ensures Slot(i, n) == if n >= 1 then i % n else i
  {
    if i > 0 {
      SlotIsMod(i - 1, n);
      if n >= 1 {
        ModNext(i - 1, n);
      }
    }
  }

  // ---- onSwitchLobbyDiskusi ----

  /** After the loop over a list without repetitions, each listed member carries the tag of
      its position and every other connection is untouched. */
  lemma RetaggedAt(conns: map<string, Conn>, ms: seq<string>, room: string, caller: string, n: int)
    requires forall m | m in ms :: m in conns && conns[m].Live?
    requires NoDup(ms)
    ensures var r := Retagged(conns, ms, room, caller, n);
      && (forall i | 0 <= i < |ms| :: r[ms[i]] == Retag(conns[ms[i]], Tag(room, i, n, conns[ms[i]].player.id, caller)))
      && (forall k | k in conns && k !in ms :: r[k] == conns[k])
  {
    RetaggedMembers(conns, ms, room, caller, n);
    RetaggedOthers(conns, ms, room, caller, n);
  }

  lemma {:induction false} RetaggedOthers(conns: map<string, Conn>, ms: seq<string>, room: string, caller: string, n: int)
    requires forall m | m in ms :: m in conns && conns[m].Live?
    ensures forall k | k in conns && k !in ms :: Retagged(conns, ms, room, caller, n)[k] == conns[k]
  {
    if ms != [] {
      var j := |ms| - 1;
      var init := ms[..j];
      RetaggedSnoc(conns, ms, room, caller, n, j);
      RetaggedOthers(conns, init, room, caller, n);
      assert ms[..j + 1] == ms;
      forall k | k in conns && k !in ms ensures Retagged(conns, ms, room, caller, n)[k] == conns[k] {
        assert k !in init && k != ms[j];
      }
    }
  }

  lemma RetaggedMembers(conns: map<string, Conn>, ms: seq<string>, room: string, caller: string, n: int)
    requires forall m | m in ms :: m in conns && conns[m].Live?
    requires NoDup(ms)
    ensures var r := Retagged(conns, ms, room, caller, n);
      forall i | 0 <= i < |ms| :: r[ms[i]] == Retag(conns[ms[i]], Tag(room, i, n, conns[ms[i]].player.id, caller))
  {
    forall i | 0 <= i < |ms|
      ensures Retagged(conns, ms, room, caller, n)[ms[i]] == Retag(conns[ms[i]], Tag(room, i, n, conns[ms[i]].player.id, caller))
    {
      RetaggedMember(conns, ms, room, caller, n, i);
    }
  }

  lemma {:induction false} RetaggedMember(conns: map<string, Conn>, ms: seq<string>, room: string, caller: string, n: int, i: nat)
    requires forall m | m in ms :: m in conns && conns[m].Live?
    requires NoDup(ms) && i < |ms|
    ensures Retagged(conns, ms, room, caller, n)[ms[i]] == Retag(conns[ms[i]], Tag(room, i, n, conns[ms[i]].player.id, caller))
    decreases |ms|
  {
    var j := |ms| - 1;
    var init := ms[..j];
    RetaggedSnoc(conns, ms, room, caller, n, j);
    assert ms[..j + 1] == ms;
    NoDupPrefix(ms, j);
    if i == j {
      RetaggedOthers(conns, init, room, caller, n);
    } else {
      RetaggedMember(conns, init, room, caller, n, i);
    }
  }

  /** A live connection pointing to a room whose members are all live. */
  predicate Placed(w: World, pid: string) {
    && Alive(w, pid) && w.connections[pid].lobby.Some? && w.connections[pid].lobby.value in w.lobbys
    && MembersAlive(w, w.connections[pid].lobby.value)
  }

  /** The caller of a breakout: a type-1 player in a room with someone else. */
  predicate Splits(w: World, pid: string)
    requires Placed(w, pid)
  {
    |w.lobbys[w.connections[pid].lobby.value].connections| > 1 && LooseEq(w.connections[pid].player.kind, Num(1))
  }

  /** The room of a placed connection in a coherent registry. */
  lemma PlacedRoom(w: World, pid: string)
    requires Coherent(w) && pid in w.connections && w.connections[pid].lobby.Some?
    ensures Placed(w, pid)
    ensures forall i | 0 <= i < |w.lobbys[w.connections[pid].lobby.value].connections| ::
      var m := w.lobbys[w.connections[pid].lobby.value].connections[i]; m in w.connections && w.connections[m].player.id == m
    ensures NoDup(w.lobbys[w.connections[pid].lobby.value].connections)
    ensures w.connections[pid].player.id == pid
  {
    assert ConnOk(w, pid);
    var r := w.connections[pid].lobby.value;
    assert RoomOk(w, r);
    forall i | 0 <= i < |w.lobbys[r].connections|
      ensures var m := w.lobbys[r].connections[i]; m in w.connections && w.connections[m].player.id == m
    {
      var m := w.lobbys[r].connections[i];
      assert m in w.lobbys[r].connections;
      assert ConnOk(w, m);
    }
  }

  /** Anyone but a teacher in a room with someone else changes nothing, not even the log. */
  lemma BreakoutRefuses(w: World, pid: string)
    requires Coherent(w) && Placed(w, pid)
    ensures !Splits(w, pid) ==> Breakout(w, pid) == w
  {
    PlacedRoom(w, pid);
  }

  /** The registry a breakout produces, spelled out part by part. */
  lemma BreakoutUnfolds(w: World, pid: string)
    requires Placed(w, pid) && Splits(w, pid) && w.lobbys[w.connections[pid].lobby.value].settings.Some?
    ensures
      var c := w.connections[pid];
      var r := c.lobby.value;
      var ms := w.lobbys[r].connections;
      var n := GroupCount(|ms| - 1);
      var s := w.lobbys[r].settings.value.(deletable := false, joinable := false, quiz := false);
      var payload := Groups(Assignments(w.connections, ms, r, c.player.id, n), n);
      Breakout(w, pid) == World(w.lobbys[r := w.lobbys[r].(settings := Some(s), listDiskusi := Some(n))], w.order,
                                Retagged(w.connections, ms, r, c.player.id, n),
                                w.log + [Emit(c.socket, ToSelf, "buatDiskusi", payload), Emit(c.socket, ToRoom(r), "buatDiskusi", payload)],
                                w.length)
  {
  }

  /** A breakout: the room records N groups for its members less one and its deleting,
      joining and quiz flags close; no other room changes. */
  lemma BreakoutClosesRoom(w: World, pid: string)
    requires Coherent(w) && Placed(w, pid)
    requires Splits(w, pid) && w.lobbys[w.connections[pid].lobby.value].settings.Some?
    ensures
      var r := w.connections[pid].lobby.value;
      var ms := w.lobbys[r].connections;
      var v := Breakout(w, pid);
      && v.lobbys.Keys == w.lobbys.Keys && v.order == w.order
      && v.lobbys[r].connections == ms
      && v.lobbys[r].listDiskusi == Some(GroupCount(|ms| - 1))
      && v.lobbys[r].settings == Some(w.lobbys[r].settings.value.(deletable := false, joinable := false, quiz := false))
      && (forall q | q in w.lobbys && q != r :: v.lobbys[q] == w.lobbys[q])
  {
  }

  /** Every member, in member order, gets the group tag of its position (the caller group 0,
      though its position still takes a slot) and a cleared seat; no one else changes. */
  lemma BreakoutTags(w: World, pid: string)
    requires Coherent(w) && Placed(w, pid)
    requires Splits(w, pid) && w.lobbys[w.connections[pid].lobby.value].settings.Some?
    ensures
      var r := w.connections[pid].lobby.value;
      var ms := w.lobbys[r].connections;
      var n := GroupCount(|ms| - 1);
      var v := Breakout(w, pid);
      && v.connections.Keys == w.connections.Keys
      && (forall i | 0 <= i < |ms| ::
            v.connections[ms[i]] == Retag(w.connections[ms[i]], r + "-" + DecimalText(if ms[i] == pid then 0 else Slot(i, n))))
      && (forall k | k in w.connections && k !in ms :: v.connections[k] == w.connections[k])
  {
    PlacedRoom(w, pid);
    SelfNamedBreakoutTags(w, pid);
  }

  /** The members of a room in a coherent registry: listed once each, and each connection's
      player carries the connection's id. */
  predicate SelfNamed(w: World, pid: string)
    requires Placed(w, pid)
  {
    var ms := w.lobbys[w.connections[pid].lobby.value].connections;
    && NoDup(ms)
    && (forall i | 0 <= i < |ms| :: ms[i] in w.connections && w.connections[ms[i]].player.id == ms[i])
    && w.connections[pid].player.id == pid
  }

  lemma SelfNamedBreakoutTags(w: World, pid: string)
    requires Placed(w, pid) && SelfNamed(w, pid)
    requires Splits(w, pid) && w.lobbys[w.connections[pid].lobby.value].settings.Some?
    ensures
      var r := w.connections[pid].lobby.value;
      var ms := w.lobbys[r].connections;
      var n := GroupCount(|ms| - 1);
      var v := Breakout(w, pid);
      && v.connections.Keys == w.connections.Keys
      && (forall i | 0 <= i < |ms| ::
            v.connections[ms[i]] == Retag(w.connections[ms[i]], r + "-" + DecimalText(if ms[i] == pid then 0 else Slot(i, n))))
      && (forall k | k in w.connections && k !in ms :: v.connections[k] == w.connections[k])
  {
    var r := w.connections[pid].lobby.value;
    var ms := w.lobbys[r].connections;
    BreakoutUnfolds(w, pid);
    RetaggedTags(w.connections, ms, r, pid, GroupCount(|ms| - 1));
  }

  /** `RetaggedAt` for members whose players carry their own ids. */
  lemma RetaggedTags(conns: map<string, Conn>, ms: seq<string>, room: string, caller: string, n: int)
    requires forall m | m in ms :: m in conns && conns[m].Live?
    requires NoDup(ms)
    requires forall i | 0 <= i < |ms| :: conns[ms[i]].player.id == ms[i]
    ensures var r := Retagged(conns, ms, room, caller, n);
      && (forall i | 0 <= i < |ms| ::
            r[ms[i]] == Retag(conns[ms[i]], room + "-" + DecimalText(if ms[i] == caller then 0 else Slot(i, n))))
      && (forall k | k in conns && k !in ms :: r[k] == conns[k])
  {
    RetaggedAt(conns, ms, room, caller, n);
  }

  /** What the caller and the room hear: one assignment per member, in member order, each
      naming the member and the tag its player now carries. */
  lemma BreakoutAnnounces(w: World, pid: string)
    requires Coherent(w) && Placed(w, pid)
    requires Splits(w, pid) && w.lobbys[w.connections[pid].lobby.value].settings.Some?
    ensures
      var c := w.connections[pid];
      var r := c.lobby.value;
      var ms := w.lobbys[r].connections;
      var v := Breakout(w, pid);
      exists hasil: seq<Assignment> ::
      && v.log == w.log + [Emit(c.socket, ToSelf, "buatDiskusi", Groups(hasil, GroupCount(|ms| - 1))),
                           Emit(c.socket, ToRoom(r), "buatDiskusi", Groups(hasil, GroupCount(|ms| - 1)))]
      && |hasil| == |ms|
      && forall i | 0 <= i < |ms| ::
           && hasil[i].idPlayer == ms[i]
           && ms[i] in v.connections && v.connections[ms[i]].Live?
           && v.connections[ms[i]].player.lobbyDiskusi == Str(hasil[i].idServer)
  {
    PlacedRoom(w, pid);
    var c := w.connections[pid];
    var r := c.lobby.value;
    var ms := w.lobbys[r].connections;
    var n := GroupCount(|ms| - 1);
    assert c.player.id == pid by { assert ConnOk(w, pid); }
    BreakoutUnfolds(w, pid);
    AssignmentsMatchTags(w.connections, ms, r, pid, n);
    var hasil := Assignments(w.connections, ms, r, pid, n);
    assert |hasil| == |ms|;
  }

  /** Each assignment names its member and the tag that member's player now carries. */
  lemma AssignmentsMatchTags(conns: map<string, Conn>, ms: seq<string>, room: string, caller: string, n: int)
    requires forall m | m in ms :: m in conns && conns[m].Live?
    requires NoDup(ms)
    requires forall i | 0 <= i < |ms| :: conns[ms[i]].player.id == ms[i]
    ensures var r := Retagged(conns, ms, room, caller, n); var hasil := Assignments(conns, ms, room, caller, n);
      forall i | 0 <= i < |ms| ::
        && hasil[i].idPlayer == ms[i]
        && ms[i] in r && r[ms[i]].Live?
        && r[ms[i]].player.lobbyDiskusi == Str(hasil[i].idServer)
  {
    RetaggedAt(conns, ms, room, caller, n);
  }

  /** A breakout keeps the registry coherent: members, pointers and room names stay put. */
  lemma BreakoutKeeps(w: World, pid: string)
    requires Coherent(w) && Placed(w, pid)
    requires Splits(w, pid) ==> w.lobbys[w.connections[pid].lobby.value].settings.Some?
    ensures Coherent(Breakout(w, pid))
  {
    if Splits(w, pid) {
      BreakoutShape(w, pid);
      SameShapeKeeps(w, Breakout(w, pid));
    } else {
      BreakoutRefuses(w, pid);
    }
  }

  lemma BreakoutShape(w: World, pid: string)
    requires Placed(w, pid) && Splits(w, pid) && w.lobbys[w.connections[pid].lobby.value].settings.Some?
    ensures SameShape(w, Breakout(w, pid))
  {
    BreakoutUnfolds(w, pid);
  }

  // ---- moving between groups ----

  /** `onMoveToDiskusi`: only the caller's group changes, and the room hears it. */
  lemma MoveToDiskusiEffects(w: World, pid: string, data: JsVal)
    requires Coherent(w) && pid in w.connections && w.connections[pid].lobby.Some?
    ensures Alive(w, pid)
    ensures var c := w.connections[pid]; var v := MoveToDiskusi(w, pid, data);
      && Coherent(v)
      && v.lobbys == w.lobbys && v.order == w.order
      && v.connections == w.connections[pid := c.(player := c.player.(lobbyDiskusi := data))]
      && v.log == w.log + [Emit(c.socket, ToRoom(c.lobby.value), "moveToDiskusi", Move(data, pid))]
  {
    assert ConnOk(w, pid);
    var v := MoveToDiskusi(w, pid, data);
    assert SameShape(w, v);
    SameShapeKeeps(w, v);
  }

  /** `onMoveRuangan`: the move of `onMoveToDiskusi`, and the caller gets one seat per member
      in member order, read after its own group changed. */
  lemma MoveRuanganRoster(w: World, pid: string, data: JsVal)
    requires Coherent(w) && pid in w.connections && w.connections[pid].lobby.Some?
    requires Placed(w, pid)
    ensures var c := w.connections[pid]; var r := c.lobby.value; var ms := w.lobbys[r].connections;
      var v := MoveRuangan(w, pid, data);
      && Coherent(v)
      && v.lobbys == w.lobbys
      && v.connections == MoveToDiskusi(w, pid, data).connections
      && exists seats: seq<Seat> ::
           && v.log == w.log + [Emit(c.socket, ToSelf, "moveRuangan", Seats(seats)),
                                Emit(c.socket, ToRoom(r), "moveToDiskusi", Move(data, pid))]
           && |seats| == |ms|
           && forall i | 0 <= i < |ms| ::
                var p := v.connections[ms[i]].player;
                seats[i] == Seat(p.lobbyDiskusi, ms[i], p.position, p.isSit)
  {
    PlacedRoom(w, pid);
    assert ConnOk(w, pid);
    var v := MoveRuangan(w, pid, data);
    assert SameShape(w, v);
    SameShapeKeeps(w, v);
  }

  // ---- back to the class, and the whiteboard blob ----

  /** `onReturnToKelas` opens the room again for deleting, joining and quizzes, whoever asks,
      and changes nothing else in the registry. */
  lemma ReturnToKelasOpens(w: World, pid: string)
    requires Coherent(w) && InClassRoom(w, pid)
    ensures var r := w.connections[pid].lobby.value; var v := ReturnToKelas(w, pid);
      && Coherent(v)
      && v.lobbys == w.lobbys[r := w.lobbys[r].(settings := Some(SettingsOf(w, pid).(deletable := true, joinable := true, quiz := true)))]
      && v.connections == w.connections && v.order == w.order
      && v.log == w.log + [Emit(w.connections[pid].socket, ToSelf, "returnToKelas", Kelas(r)),
                           Emit(w.connections[pid].socket, ToRoom(r), "returnToKelas", Kelas(r))]
  {
    var v := ReturnToKelas(w, pid);
    assert SameShape(w, v);
    SameShapeKeeps(w, v);
  }

  /** A second `onReturnToKelas` changes nothing in the registry but the log. */
  lemma ReturnToKelasIdempotent(w: World, pid: string)
    requires Coherent(w) && InClassRoom(w, pid)
    ensures var v := ReturnToKelas(w, pid);
      && InClassRoom(v, pid)
      && var u := ReturnToKelas(v, pid);
      && u.lobbys == v.lobbys && u.connections == v.connections && u.order == v.order
  {
    ReturnToKelasOpens(w, pid);
  }

  /** A breakout closes the quiz gate and a return to the class opens it again. */
  lemma BreakoutThenReturn(w: World, pid: string)
    requires Coherent(w) && Placed(w, pid)
    requires Splits(w, pid) && w.lobbys[w.connections[pid].lobby.value].settings.Some?
    ensures var v := Breakout(w, pid);
      && InClassRoom(v, pid)
      && !SettingsOf(v, pid).quiz
      && SettingsOf(ReturnToKelas(v, pid), pid).quiz
  {
    BreakoutKeeps(w, pid);
    BreakoutClosesRoom(w, pid);
  }

  /** `onDrawWhiteboard`: the blob replaces the room's drawing, no other setting changes, and
      the others in the room get the blob. */
  lemma DrawWhiteboardStores(w: World, pid: string, data: JsVal)
    requires Coherent(w) && InClassRoom(w, pid)
    ensures var r := w.connections[pid].lobby.value; var v := DrawWhiteboard(w, pid, data);
      && Coherent(v)
      && v.lobbys == w.lobbys[r := w.lobbys[r].(settings := Some(SettingsOf(w, pid).(whiteboardData := data)))]
      && v.connections == w.connections
      && v.log == w.log + [Emit(w.connections[pid].socket, ToRoom(r), "drawWhiteboard", Raw(data))]
  {
    var v := DrawWhiteboard(w, pid, data);
    assert SameShape(w, v);
    SameShapeKeeps(w, v);
  }
}
