/** The periodic sweeps, the per-lobby limit check and the cleanup of departed players and
    closed rooms of Code/MemoryManager.js. The clock (`Date.now()`) is the parameter `now`;
    the `setInterval` that runs the sweeps is left to the caller. */
module Memory {
  import opened Js
  import opened Players
  import opened Lobbies
  import opened Http
  import opened Throttle

  /** Five minutes, the age after which the sweeps drop cache entries and throttles. */
  const SweepAge := 5 * 60 * 1000

  /** The default `maxConnections` of `checkConnectionLimit`. */
  const DefaultMaxConnections := 50

  /** `checkConnectionLimit(lobby, maxConnections)`: false once the room holds `maxConnections`
      members or more. */
  predicate CheckConnectionLimit(room: Room, maxConnections: int) {
    !(|room.connections| >= maxConnections)
  }

  lemma CheckConnectionLimitMeans(room: Room, maxConnections: int)
    ensures !CheckConnectionLimit(room, maxConnections) <==> |room.connections| >= maxConnections
  {
  }

  /** A class room admits through `canEnterLobby` only below its `maxPlayers`; with at most 50
      seats the 50-member limit of `onEnterLobby` never refuses such an entry. */
  lemma CapacityImpliesLimit(room: Room)
    requires room.settings.Some? && room.settings.value.maxPlayers <= DefaultMaxConnections
    requires CanEnterLobby(room)
    ensures CheckConnectionLimit(room, DefaultMaxConnections)
  {
  }

  /** The cache keys whose entries are older than the sweep age at `now`. */
  function StaleEntries(cache: map<string, CacheEntry>, now: int): set<string> {
    set k | k in cache && cache[k].timestamp < now - SweepAge
  }

  /** The throttle keys whose last call is older than the sweep age at `now`. */
  function StaleThrottles(throttles: map<string, Entry>, now: int): set<string> {
    set k | k in throttles && throttles[k].lastCall < now - SweepAge
  }

  /** The sweep only deletes entries that `getCache` would refuse anyway: at the same moment,
      the cache answers every key as it did before. */
  lemma SweepIsInvisibleToGetCache(cache: map<string, CacheEntry>, now: int, key: string)
    ensures Lookup(cache - StaleEntries(cache, now), key, now).1 == Lookup(cache, key, now).1
  {
  }

  /** A cache entry survives the sweep exactly when it is at most five minutes old. */
  lemma SweepKeepsRecent(cache: map<string, CacheEntry>, now: int, key: string)
    requires key in cache
    ensures key in cache - StaleEntries(cache, now) <==> cache[key].timestamp >= now - SweepAge
  {
  }

  /** One step of the sweep: visiting `key` deletes it exactly when it is stale. */
  lemma SweepStep(c0: map<string, CacheEntry>, stale: set<string>, todo: set<string>, key: string)
    requires key in todo && todo <= c0.Keys && stale <= c0.Keys
    ensures key in stale ==>
      && c0 - (stale - (todo - {key})) == (c0 - (stale - todo)) - {key}
      && |stale - (todo - {key})| == |stale - todo| + 1
    ensures key !in stale ==> stale - (todo - {key}) == stale - todo
  {
    if key in stale {
      assert stale - (todo - {key}) == (stale - todo) + {key};
    }
  }

  class MemoryManager {
    var playersCleanedUp: nat
    var lobbiesCleanedUp: nat
    var cacheEntriesCleanedUp: nat

    constructor ()
      ensures playersCleanedUp == 0 && lobbiesCleanedUp == 0 && cacheEntriesCleanedUp == 0
    {
      playersCleanedUp := 0;
      lobbiesCleanedUp := 0;
      cacheEntriesCleanedUp := 0;
    }

    /** `cleanupHttpCache()`: deletes the stale entries and counts them. */
    method CleanupHttpCache(http: HttpClient, now: int)
      modifies this, http
      ensures http.cache == old(http.cache) - StaleEntries(old(http.cache), now)
      ensures cacheEntriesCleanedUp == old(cacheEntriesCleanedUp) + |StaleEntries(old(http.cache), now)|
      ensures playersCleanedUp == old(playersCleanedUp) && lobbiesCleanedUp == old(lobbiesCleanedUp)
    {
      ghost var c0 := http.cache;
      ghost var stale := StaleEntries(c0, now);
      var fiveMinutesAgo := now - SweepAge;
      var cleanedEntries := 0;
      var todo := http.cache.Keys;
      while todo != {}
        invariant todo <= c0.Keys && unchanged(this)
        invariant http.cache == c0 - (stale - todo)
        invariant cleanedEntries == |stale - todo|
        decreases todo
      {
        var key :| key in todo;
        var value := http.cache[key];
        SweepStep(c0, stale, todo, key);
        if value.timestamp < fiveMinutesAgo {
          http.cache := http.cache - {key};
          cleanedEntries := cleanedEntries + 1;
        }
        todo := todo - {key};
      }
      assert stale - todo == stale;
      cacheEntriesCleanedUp := cacheEntriesCleanedUp + cleanedEntries;
    }

    /** `cleanupEventThrottler()`: deletes the stale throttles after clearing their pending
        timers. The count it logs is not added to any statistic. */
    method CleanupEventThrottler<A>(t: EventThrottler<A>, now: int)
      requires t.Valid()
      modifies t
      ensures t.Valid()
      ensures t.Abs() == RemoveKeys(old(t.Abs()), StaleThrottles(old(t.throttles), now))
    {
      ghost var s0 := t.Abs();
      ghost var stale := StaleThrottles(s0.throttles, now);
      var fiveMinutesAgo := now - SweepAge;
      var todo := t.throttles.Keys;
      while todo != {}
        invariant todo <= s0.throttles.Keys && t.nextHandle == s0.nextHandle
        invariant t.throttles == s0.throttles - (stale - todo)
        invariant t.timers == s0.timers - PendingOf(s0.throttles, stale - todo)
        decreases todo
      {
        var key :| key in todo;
        var value := t.throttles[key];
        if value.lastCall < fiveMinutesAgo {
          if value.pending.Some? {
            t.timers := t.timers - {value.pending.value};
          }
          t.throttles := t.throttles - {key};
        }
        todo := todo - {key};
      }
      RemoveKeysKeepsWellFormed(s0, stale);
    }

    /** `cleanupPlayer(player, connection)`: nulls the player's position and room and all of
        the connection's references; the counter grows on every call, even with nothing to clear. */
    method CleanupPlayer(player: Option<Player>, connection: Option<Conn>) returns (p: Option<Player>, c: Option<Conn>)
      modifies this
      ensures p.Some? <==> player.Some?
      ensures player.Some? ==> p.value == player.value.(position := None, lobby := Null)
      ensures c == if connection.Some? then Some(Cleared) else None
      ensures playersCleanedUp == old(playersCleanedUp) + 1
      ensures lobbiesCleanedUp == old(lobbiesCleanedUp) && cacheEntriesCleanedUp == old(cacheEntriesCleanedUp)
    {
      p, c := player, connection;
      if p.Some? {
        p := Some(p.value.(position := None, lobby := Null));
      }
      if c.Some? {
        c := Some(Cleared);
      }
      playersCleanedUp := playersCleanedUp + 1;
    }

    /** `cleanupLobby(lobby)`: nothing for a missing room; otherwise the member list is emptied,
        the three whiteboard blobs are cleared and the counter grows. */
    method CleanupLobby(lobby: Option<Room>) returns (r: Option<Room>)
      modifies this
      ensures lobby.None? ==> r.None? && lobbiesCleanedUp == old(lobbiesCleanedUp)
      ensures lobby.Some? ==> r == Some(ClearedRoom(lobby.value)) && lobbiesCleanedUp == old(lobbiesCleanedUp) + 1
      ensures playersCleanedUp == old(playersCleanedUp) && cacheEntriesCleanedUp == old(cacheEntriesCleanedUp)
    {
      if lobby.None? {
        return None;
      }
      var room := lobby.value.(connections := []);
      if room.settings.Some? {
        room := room.(settings := Some(room.settings.value.(whiteboardData := Str(""), textData := Str(""), shapeData := Str(""))));
      }
      r := Some(room);
      lobbiesCleanedUp := lobbiesCleanedUp + 1;
    }
  }

  /** The room as `cleanupLobby` leaves it. */
  function ClearedRoom(room: Room): (r: Room)
    ensures r.connections == [] && r.listDiskusi == room.listDiskusi
    ensures r.settings.Some? <==> room.settings.Some?
    ensures room.settings.Some? ==>
      var s, t := room.settings.value, r.settings.value;
      && t.whiteboardData == Str("") && t.textData == Str("") && t.shapeData == Str("")
      && t == s.(whiteboardData := t.whiteboardData, textData := t.textData, shapeData := t.shapeData)
  {
    if room.settings.Some?
    then Room([], Some(room.settings.value.(whiteboardData := Str(""), textData := Str(""), shapeData := Str(""))), room.listDiskusi)
    else Room([], None, room.listDiskusi)
  }

  /** Clearing a room twice is clearing it once. */
  lemma ClearedRoomIdempotent(room: Room)
    ensures ClearedRoom(ClearedRoom(room)) == ClearedRoom(room)
  {
  }
}
