/** The rooms of Code/Lobbies: the settings record of GameLobbySettings.js, the room of
    LobbyBase.js and GameLobby.js, and a player's connection. A room is a value stored in the
    server's registry under its id; the general room is a bare LobbyBase, which has no
    settings. Member lists hold player ids, standing for the connection objects. */
module Lobbies {
  import opened Js
  import opened Players

  /** The id of the room every socket enters first. */
  const GeneralServerID := "General Server"

  /** `new GameLobbySettings(gameMode, maxPlayers, idGuru)` with its later updates. */
  datatype Settings = Settings(
    gameMode: JsVal,
    idGuru: JsVal,
    joinable: bool,
    maxPlayers: int,
    deletable: bool,
    quiz: bool,
    whiteboard: bool,
    whiteboardID: JsVal,
    whiteboardData: JsVal,
    shapeData: JsVal,
    textData: JsVal)

  /** The constructor of GameLobbySettings.js. */
  function NewSettings(gameMode: JsVal, maxPlayers: int, idGuru: JsVal): (s: Settings)
    ensures s.gameMode == gameMode && s.maxPlayers == maxPlayers && s.idGuru == idGuru
    ensures s.joinable && s.deletable && s.quiz
    ensures !s.whiteboard
    ensures s.whiteboardID == Str("") && s.whiteboardData == Str("") && s.shapeData == Str("") && s.textData == Str("")
  {
    Settings(gameMode, idGuru, true, maxPlayers, true, true, false, Str(""), Str(""), Str(""), Str(""))
  }

  /** A room: its member list, its settings (None for the general room) and the number of
      discussion groups of its last breakout (None until one happens). */
  datatype Room = Room(connections: seq<string>, settings: Option<Settings>, listDiskusi: Option<int>)

  /** `new LobbyBase()` (settings None) or `new GameLobby(id, settings)`. */
  function NewRoom(settings: Option<Settings>): (r: Room)
    ensures r.connections == [] && r.settings == settings && r.listDiskusi.None?
  {
    Room([], settings, None)
  }

  /** A connection: its socket, its player and the room `connection.lobby` points to.
      `Cleared` is a connection after `cleanupPlayer` has nulled its references. */
  datatype Conn =
    | Live(socket: string, player: Player, lobby: Option<string>)
    | Cleared

  /** `canEnterLobby`: one more member must still fit under `maxPlayers`. */
  predicate CanEnterLobby(room: Room)
    requires room.settings.Some?
  {
    !(|room.connections| + 1 > room.settings.value.maxPlayers)
  }

  lemma CanEnterLobbyMeans(room: Room)
    requires room.settings.Some?
    ensures CanEnterLobby(room) <==> |room.connections| < room.settings.value.maxPlayers
  {
  }

  /** `s.indexOf(x)`: the first position of `x`, or -1. */
  function IndexOf(s: seq<string>, x: string): (i: int)
    ensures -1 <= i < |s|
    ensures i == -1 <==> x !in s
    ensures i >= 0 ==> s[i] == x && x !in s[..i]
  {
    if s == [] then -1
    else if s[0] == x then 0
    else
      var j := IndexOf(s[1..], x);
      assert s[1..][..if j < 0 then 0 else j] == s[1..1 + (if j < 0 then 0 else j)];
      if j == -1 then -1 else 1 + j
  }

  /** The member list after `onLeaveLobby`: the first occurrence of `x` spliced out. */
  function RemoveFirst(s: seq<string>, x: string): seq<string> {
    var i := IndexOf(s, x);
    if i > -1 then s[..i] + s[i + 1..] else s
  }

  /** Leaving a room one is not in changes nothing. */
  lemma RemoveAbsent(s: seq<string>, x: string)
    requires x !in s
    ensures RemoveFirst(s, x) == s
  {
  }

  /** Splicing out position `i` keeps the members before it and shifts those after it. */
  lemma SpliceIndices(s: seq<string>, i: nat)
    requires i < |s|
    ensures var r := s[..i] + s[i + 1..];
      && |r| == |s| - 1
      && (forall k | 0 <= k < i :: r[k] == s[k])
      && (forall k | i <= k < |r| :: r[k] == s[k + 1])
  {
  }

  /** Splicing out position `i` removes one copy of the member there and nothing else. */
  lemma SpliceMultiset(s: seq<string>, i: nat)
    requires i < |s|
    ensures multiset(s[..i] + s[i + 1..]) == multiset(s) - multiset{s[i]}
  {
    var a, b := s[..i], s[i + 1..];
    assert s == a + [s[i]] + b;
  }

  /** Leaving removes one occurrence and no other member, and keeps the others' order: the
      list is the old one with exactly position `IndexOf(s, x)` dropped. */
  lemma RemoveOne(s: seq<string>, x: string)
    requires x in s
    ensures var r := RemoveFirst(s, x); var i := IndexOf(s, x);
      && multiset(r) == multiset(s) - multiset{x}
      && |r| == |s| - 1
      && (forall k | 0 <= k < i :: r[k] == s[k])
      && (forall k | i <= k < |r| :: r[k] == s[k + 1])
  {
    var i := IndexOf(s, x);
    assert RemoveFirst(s, x) == s[..i] + s[i + 1..];
    SpliceMultiset(s, i);
    SpliceIndices(s, i);
  }

  /** In a list without repetitions, leaving removes the member completely and keeps the
      list free of repetitions. */
  lemma RemoveNoDup(s: seq<string>, x: string)
    requires NoDup(s)
    ensures var r := RemoveFirst(s, x);
      NoDup(r) && x !in r && (forall y | y in s && y != x :: y in r) && (forall y | y in r :: y in s)
  {
    var i := IndexOf(s, x);
    if i > -1 {
      var r := RemoveFirst(s, x);
      assert forall k | 0 <= k < |r| :: r[k] == (if k < i then s[k] else s[k + 1]);
      forall y | y in s && y != x ensures y in r {
        var k :| 0 <= k < |s| && s[k] == y;
        assert r[if k < i then k else k - 1] == y;
      }
    }
  }

  /** A repeated leave of the same member changes nothing more. */
  lemma RemoveIdempotent(s: seq<string>, x: string)
    requires NoDup(s)
    ensures RemoveFirst(RemoveFirst(s, x), x) == RemoveFirst(s, x)
  {
    RemoveNoDup(s, x);
    RemoveAbsent(RemoveFirst(s, x), x);
  }
}
