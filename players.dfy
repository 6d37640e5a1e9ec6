/** The player record of Code/Player.js. The random parts of its constructor are inputs:
    the id that `nanoid` draws and the two `Math.random()` draws. */
module Players {
  import opened Js

  /** The alphabet and length given to `nanoid.customAlphabet` for player and room ids. */
  const IdAlphabet := "1234567890ABCDEFGHIJKLMNOPQRSTUVWXYZ"
  const IdLength := 6

  /** An id that `customAlphabet(IdAlphabet, 6)()` can return. */
  predicate IsNanoId(s: string) {
    |s| == IdLength && forall i | 0 <= i < |s| :: s[i] in IdAlphabet
  }

  /** A position: the coordinates are only copied from client messages, never computed with. */
  datatype Vec2 = Vec2(x: JsVal, y: JsVal)

  /** A player object; `kind` is its `type` field. `position` is None once `cleanupPlayer`
      has nulled it; `lobby` starts as the number 0 and then holds a room id; `isSit` and
      `lobbyDiskusi` are undefined until a handler first sets them. */
  datatype Player = Player(
    username: JsVal,
    serverID: JsVal,
    id: string,
    position: Option<Vec2>,
    spawnLoc: int,
    lobby: JsVal,
    kind: JsVal,
    status: string,
    ready: bool,
    isSit: JsVal,
    lobbyDiskusi: JsVal)

  /** `Math.floor(Math.random() * (hi - 0 + 1)) + 0` for the draw `u` in [0, 1). */
  function RandomInt(u: real, hi: nat): (r: int)
    requires 0.0 <= u < 1.0
    ensures 0 <= r <= hi
  {
    var n := (hi + 1) as real;
    var x := u * n;
    assert 0.0 <= x < n by {
      assert (1.0 - u) * n > 0.0;
      assert u * n >= 0.0;
    }
    x.Floor
  }

  /** `new Player()` with the id `id`, the initial position `origin` and the two draws. */
  function NewPlayer(id: string, origin: Vec2, spawnDraw: real, typeDraw: real): (p: Player)
    requires 0.0 <= spawnDraw < 1.0 && 0.0 <= typeDraw < 1.0
    ensures p.id == id && p.position == Some(origin)
    ensures p.username == Str("Default") && p.serverID == Num(0) && p.lobby == Num(0)
    ensures p.status == "Alive" && !p.ready
    ensures p.spawnLoc == 0 || p.spawnLoc == 1
    ensures p.kind == Num(0) || p.kind == Num(1) || p.kind == Num(2)
    ensures p.isSit == Undefined && p.lobbyDiskusi == Undefined
  {
    Player(Str("Default"), Num(0), id, Some(origin), RandomInt(spawnDraw, 1), Num(0),
           Num(RandomInt(typeDraw, 2)), "Alive", false, Undefined, Undefined)
  }

  /** `displayPlayerInformation()` */
  function DisplayPlayerInformation(p: Player): string {
    "(" + ToText(p.username) + ":" + p.id + ")"
  }

  /** The text is bracketed, and the id and the username can be read back from it: the id is
      the six characters before the closing bracket, the username everything between the
      opening bracket and the colon in front of the id. */
  lemma DisplayParses(p: Player)
    requires IsNanoId(p.id)
    ensures var t := DisplayPlayerInformation(p);
      && |t| == |ToText(p.username)| + 9
      && t[0] == '(' && t[|t| - 1] == ')' && t[|t| - 8] == ':'
      && t[|t| - 7..|t| - 1] == p.id
      && t[1..|t| - 8] == ToText(p.username)
  {
    var u := ToText(p.username);
    var t := DisplayPlayerInformation(p);
    assert t == "(" + u + ":" + p.id + ")";
    assert t[1..|t| - 8] == u;
    assert t[|t| - 7..|t| - 1] == p.id;
  }

  /** `generateNewType(type)` */
  function GenerateNewType(p: Player, kind: JsVal): (r: Player)
    ensures r.kind == kind
    ensures r.(kind := p.kind) == p
  {
    p.(kind := kind)
  }
}
