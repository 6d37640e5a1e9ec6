/** The response cache of the HTTP client singleton in Code/HttpClient.js.
    The network is a parameter: `reply` is what the API answers (or that it failed), `now` is
    the time of the request and `doneAt` the time the answer arrives. */
module Http {
  import opened Js

  /** `cacheTimeout`: five minutes, in milliseconds. */
  const CacheTimeout := 300000

  /** A request body, as `JSON.stringify` sees it. */
  datatype Json = JNull | JBool(b: bool) | JNum(n: int) | JStr(s: string) | JArr(items: seq<Json>) | JObj(fields: seq<Field>)
  datatype Field = Field(name: string, value: Json)

  predicate JsonTruthy(j: Json) {
    match j
    case JNull => false
    case JBool(b) => b
    case JNum(n) => n != 0
    case JStr(s) => s != ""
    case _ => true
  }

  function HexDigit(d: int): char
    requires 0 <= d < 16
  {
    "0123456789abcdef"[d]
  }

  /** How `JSON.stringify` writes one character of a string. */
  function EscapeChar(c: char): string {
    if c == '"' then "\\\""
    else if c == '\\' then "\\\\"
    else if c == '\n' then "\\n"
    else if c == '\r' then "\\r"
    else if c == '\t' then "\\t"
    else if c == '\U{8}' then "\\b"
    else if c == '\U{C}' then "\\f"
    else if c < ' ' then "\\u00" + [HexDigit(c as int / 16), HexDigit(c as int % 16)]
    else [c]
  }

  function Escape(s: string): string {
    if s == [] then "" else EscapeChar(s[0]) + Escape(s[1..])
  }

  function Quote(s: string): string {
    "\"" + Escape(s) + "\""
  }

  /** `JSON.stringify(j)` */
  function Stringify(j: Json): string
    decreases j, 2
  {
    match j
    case JNull => "null"
    case JBool(b) => if b then "true" else "false"
    case JNum(n) => DecimalText(n)
    case JStr(s) => Quote(s)
    case JArr(items) => "[" + Items(j, items) + "]"
    case JObj(fields) => "{" + Fields(j, fields) + "}"
  }

  function Items(parent: Json, items: seq<Json>): string
    requires forall i | 0 <= i < |items| :: items[i] < parent
    decreases parent, 1, |items|
  {
    if items == [] then ""
    else if |items| == 1 then Stringify(items[0])
    else Stringify(items[0]) + "," + Items(parent, items[1..])
  }

  function Fields(parent: Json, fields: seq<Field>): string
    requires forall i | 0 <= i < |fields| :: fields[i] < parent
    decreases parent, 1, |fields|
  {
    if fields == [] then ""
    else
      var f := fields[0];
      var text := Quote(f.name) + ":" + Stringify(f.value);
      if |fields| == 1 then text else text + "," + Fields(parent, fields[1..])
  }

  /** `toUpperCase` on the ASCII letters. */
  function UpperAscii(s: string): (r: string)
    ensures |r| == |s|
    ensures forall i | 0 <= i < |s| :: r[i] == (if 'a' <= s[i] <= 'z' then (s[i] as int - 32) as char else s[i])
  {
    if s == [] then ""
    else [if 'a' <= s[0] <= 'z' then (s[0] as int - 32) as char else s[0]] + UpperAscii(s[1..])
  }

  /** `getCacheKey(verb, url, data)`: `data || {}` replaces an absent or falsy body by `{}`. */
  function CacheKey(verb: string, url: string, data: Option<Json>): string {
    var body := if data.Some? && JsonTruthy(data.value) then data.value else JObj([]);
    UpperAscii(verb) + ":" + url + ":" + Stringify(body)
  }

  datatype CacheEntry = CacheEntry(data: JsVal, timestamp: int)

  /** What the API does with a request: answers with `response.data`, or fails. */
  datatype Reply = Answer(data: JsVal) | NetworkError

  /** What `post`/`get` resolve to: `{data}`, or the rejected promise. */
  datatype Response = Resolved(data: JsVal) | Rejected

  /** `getCache(key)` at time `now`: the data of an entry younger than the timeout, or null
      after deleting the key. */
  function Lookup(cache: map<string, CacheEntry>, key: string, now: int): (map<string, CacheEntry>, JsVal) {
    if key in cache && now - cache[key].timestamp < CacheTimeout then (cache, cache[key].data)
    else (cache - {key}, Null)
  }

  /** The cache paths of `post`/`get` for the request with key `key`. */
  function RequestStep(cache: map<string, CacheEntry>, key: string, useCache: bool, now: int, reply: Reply, doneAt: int)
    : (map<string, CacheEntry>, Response, bool)
  {
    if useCache then
      var (c, hit) := Lookup(cache, key, now);
      if Truthy(hit) then (c, Resolved(hit), false)
      else match reply
        case Answer(d) => (c[key := CacheEntry(d, doneAt)], Resolved(d), true)
        case NetworkError => (c, Rejected, true)
    else match reply
      case Answer(d) => (cache, Resolved(d), true)
      case NetworkError => (cache, Rejected, true)
  }

  class HttpClient {
    var cache: map<string, CacheEntry>

    constructor ()
      ensures cache == map[]
    {
      cache := map[];
    }

    /** `setCache(key, data)` at time `now` */
    method SetCache(key: string, data: JsVal, now: int)
      modifies this
      ensures cache == old(cache)[key := CacheEntry(data, now)]
    {
      cache := cache[key := CacheEntry(data, now)];
    }

    /** `getCache(key)` at time `now` */
    method GetCache(key: string, now: int) returns (r: JsVal)
      modifies this
      ensures (cache, r) == Lookup(old(cache), key, now)
    {
      if key in cache && now - cache[key].timestamp < CacheTimeout {
        return cache[key].data;
      }
      cache := cache - {key};
      r := Null;
    }

    /** The network call and the cache work shared by `post` and `get`; `called` says whether
        the API was asked. */
    method Request(key: string, useCache: bool, now: int, reply: Reply, doneAt: int) returns (res: Response, called: bool)
      modifies this
      ensures (cache, res, called) == RequestStep(old(cache), key, useCache, now, reply, doneAt)
    {
      if useCache {
        var cached := GetCache(key, now);
        if Truthy(cached) {
          return Resolved(cached), false;
        }
      }
      called := true;
      match reply {
        case NetworkError =>
          res := Rejected;
        case Answer(d) =>
          if useCache {
            SetCache(key, d, doneAt);
          }
          res := Resolved(d);
      }
    }

    /** `post(url, data, useCache)`; callers pass `useCache = false` unless they opt in. */
    method Post(url: string, data: Option<Json>, useCache: bool, now: int, reply: Reply, doneAt: int) returns (res: Response, called: bool)
      modifies this
      ensures (cache, res, called) == RequestStep(old(cache), CacheKey("POST", url, data), useCache, now, reply, doneAt)
    {
      res, called := Request(CacheKey("POST", url, data), useCache, now, reply, doneAt);
    }

    /** `get(url, useCache)`; callers pass `useCache = true` unless they opt out. */
    method Get(url: string, useCache: bool, now: int, reply: Reply, doneAt: int) returns (res: Response, called: bool)
      modifies this
      ensures (cache, res, called) == RequestStep(old(cache), CacheKey("GET", url, None), useCache, now, reply, doneAt)
    {
      res, called := Request(CacheKey("GET", url, None), useCache, now, reply, doneAt);
    }

    method ClearCache()
      modifies this
      ensures cache == map[]
    {
      cache := map[];
    }

    /** `getCacheStats()`; the keys as a set, the map's insertion order is not modelled. */
    method GetCacheStats() returns (size: nat, keys: set<string>)
      ensures size == |cache.Keys| && keys == cache.Keys
    {
      size := |cache.Keys|;
      keys := cache.Keys;
    }
  }

  // ---- Properties of the cache ----

  /** After `setCache`, `getCache` on the same key returns the stored data exactly while the
      entry is younger than five minutes, and otherwise deletes it and returns null. */
  lemma SetThenGet(cache: map<string, CacheEntry>, key: string, data: JsVal, at: int, now: int)
    ensures var c := cache[key := CacheEntry(data, at)];
      && (now - at < CacheTimeout ==> Lookup(c, key, now) == (c, data))
      && (now - at >= CacheTimeout ==> Lookup(c, key, now) == (cache - {key}, Null))
  {
    var c := cache[key := CacheEntry(data, at)];
    assert c - {key} == cache - {key};
  }

  /** `getCache` touches no other key. */
  lemma LookupOtherKeys(cache: map<string, CacheEntry>, key: string, now: int, k: string)
    requires k != key
    ensures var (c, _) := Lookup(cache, key, now);
      (k in c <==> k in cache) && (k in c ==> c[k] == cache[k])
  {
  }

  /** A fresh, truthy cached value answers the request without asking the API. */
  lemma FreshHitSkipsNetwork(cache: map<string, CacheEntry>, key: string, now: int, reply: Reply, doneAt: int)
    requires key in cache && now - cache[key].timestamp < CacheTimeout && Truthy(cache[key].data)
    ensures RequestStep(cache, key, true, now, reply, doneAt) == (cache, Resolved(cache[key].data), false)
  {
  }

  /** A cached-path request that reaches the API leaves the entry holding the answer, stamped
      with the time it arrived; a failed one leaves no entry for the key. */
  lemma MissRefreshes(cache: map<string, CacheEntry>, key: string, now: int, reply: Reply, doneAt: int)
    requires !(key in cache && now - cache[key].timestamp < CacheTimeout && Truthy(cache[key].data))
    ensures var (c, res, called) := RequestStep(cache, key, true, now, reply, doneAt);
      && called
      && (reply.Answer? ==> res == Resolved(reply.data) && key in c && c[key] == CacheEntry(reply.data, doneAt))
      && (reply.NetworkError? ==> res == Rejected && (key in c ==> c[key] == cache[key]))
  {
  }

  /** A fresh but falsy cached value is a miss: the API is asked again. */
  lemma FalsyHitRefetches(cache: map<string, CacheEntry>, key: string, now: int, reply: Reply, doneAt: int)
    requires key in cache && now - cache[key].timestamp < CacheTimeout && !Truthy(cache[key].data)
    ensures RequestStep(cache, key, true, now, reply, doneAt).2
  {
  }

  /** Without the cache the API is always asked and the cache is left alone. */
  lemma UncachedLeavesCache(cache: map<string, CacheEntry>, key: string, now: int, reply: Reply, doneAt: int)
    ensures var (c, res, called) := RequestStep(cache, key, false, now, reply, doneAt);
      c == cache && called && (res == if reply.Answer? then Resolved(reply.data) else Rejected)
  {
  }

  /** A request changes the cache at its own key only. */
  lemma RequestOtherKeys(cache: map<string, CacheEntry>, key: string, useCache: bool, now: int, reply: Reply, doneAt: int, k: string)
    requires k != key
    ensures var (c, _, _) := RequestStep(cache, key, useCache, now, reply, doneAt);
      (k in c <==> k in cache) && (k in c ==> c[k] == cache[k])
  {
  }

  // ---- Properties of the key ----

  /** An absent, null, false, zero or empty body gives the same key as `{}`. */
  lemma FalsyBodyIsEmptyObject(verb: string, url: string, data: Json)
    requires !JsonTruthy(data)
    ensures CacheKey(verb, url, Some(data)) == CacheKey(verb, url, None) == CacheKey(verb, url, Some(JObj([])))
  {
  }

  /** GET keys determine their URL, so two different GET URLs never share an entry. */
  lemma GetKeysInjective(u1: string, u2: string)
    requires CacheKey("GET", u1, None) == CacheKey("GET", u2, None)
    ensures u1 == u2
  {
    var p := UpperAscii("GET") + ":";
    assert Stringify(JObj([])) == "{}";
    var k1 := CacheKey("GET", u1, None);
    assert k1 == p + u1 + ":{}";
    assert CacheKey("GET", u2, None) == p + u2 + ":{}";
    assert |u1| == |u2|;
    assert u1 == k1[|p|..|p| + |u1|];
  }

  /** A GET and a POST never share an entry, whatever their URLs and bodies. */
  lemma GetAndPostKeysDiffer(u1: string, u2: string, data: Option<Json>)
    ensures CacheKey("GET", u1, None) != CacheKey("POST", u2, data)
  {
    assert CacheKey("GET", u1, None)[0] == 'G';
    assert CacheKey("POST", u2, data)[0] == 'P';
  }
}
