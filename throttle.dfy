/** The per-key event throttler of Code/EventThrottler.js: a leading-edge throttle that
    coalesces the calls made inside the window into one trailing call.
    The clock is the parameter `now`; `setTimeout` is a `Timer` record kept in `timers`
    under the handle it returned, `clearTimeout` removes it, and a timer going off is
    the explicit step `Fire`. The callback itself is the opaque action `A`. */
module Throttle {
  import opened Js

  /** A scheduled trailing call: when it goes off it resets the entry of `key` and runs `action`. */
  datatype Timer<A> = Timer(key: string, dueAt: int, action: A)

  /** A value of the `throttles` map: `{lastCall, pending}`. */
  datatype Entry = Entry(lastCall: int, pending: Option<nat>)

  /** What `throttle` did with the call: ran it at once, or deferred it (and returned false). */
  datatype Outcome = RanNow | Deferred

  /** The whole state of the throttler, as a value. */
  datatype State<A> = State(throttles: map<string, Entry>, timers: map<nat, Timer<A>>, nextHandle: nat)

  /** Every timer that an entry refers to is scheduled and belongs to that entry's key,
      and handles not yet given out are not in use. */
  ghost predicate WellFormed<A>(s: State<A>) {
    && (forall h | h in s.timers :: h < s.nextHandle)
    && (forall k | k in s.throttles && s.throttles[k].pending.Some? ::
          s.throttles[k].pending.value in s.timers && s.timers[s.throttles[k].pending.value].key == k)
  }

  /** The leading-edge test of `throttle`: no entry, or the window has passed. */
  predicate Cold<A>(s: State<A>, key: string, limit: int, now: int) {
    key !in s.throttles || now - s.throttles[key].lastCall >= limit
  }

  /** Removes the timer with handle `h`, if any: `clearTimeout`. */
  function ClearTimer<A>(timers: map<nat, Timer<A>>, h: Option<nat>): map<nat, Timer<A>> {
    if h.Some? then timers - {h.value} else timers
  }

  /** `throttle(key, func, limit)` called at time `now` with callback `action`. */
  function ThrottleStep<A>(s: State<A>, key: string, limit: int, now: int, action: A): (State<A>, Outcome) {
    if Cold(s, key, limit, now) then
      (s.(throttles := s.throttles[key := Entry(now, None)]), RanNow)
    else
      var e := s.throttles[key];
      var h := s.nextHandle;
      var timers := ClearTimer(s.timers, e.pending)[h := Timer(key, now + (limit - (now - e.lastCall)), action)];
      (State(s.throttles[key := Entry(e.lastCall, Some(h))], timers, h + 1), Deferred)
  }

  /** The timer `h` goes off at time `now`: its callback resets the entry and then runs. */
  function FireStep<A>(s: State<A>, h: nat, now: int): State<A>
    requires h in s.timers
  {
    s.(throttles := s.throttles[s.timers[h].key := Entry(now, None)], timers := s.timers - {h})
  }

  /** The keys that `cleanup(prefix)` deletes. */
  function PrefixedKeys(throttles: map<string, Entry>, prefix: string): set<string> {
    set k | k in throttles && StartsWith(k, prefix)
  }

  /** The pending timers of the entries whose keys are in `ks`. */
  function PendingOf(throttles: map<string, Entry>, ks: set<string>): set<nat> {
    set k | k in throttles && k in ks && throttles[k].pending.Some? :: throttles[k].pending.value
  }

  /** The entries of the keys in `gone` are deleted after their pending timers are cleared. */
  function RemoveKeys<A>(s: State<A>, gone: set<string>): State<A> {
    s.(throttles := s.throttles - gone, timers := s.timers - PendingOf(s.throttles, gone))
  }

  /** `cleanup(prefix)`: the prefixed entries and their pending timers are gone. */
  function CleanupStep<A>(s: State<A>, prefix: string): State<A> {
    RemoveKeys(s, PrefixedKeys(s.throttles, prefix))
  }

  class EventThrottler<A> {
    var throttles: map<string, Entry>
    /** The timers set by `throttle` that have neither gone off nor been cleared. */
    var timers: map<nat, Timer<A>>
    /** The handle the next `setTimeout` returns. */
    var nextHandle: nat

    ghost function Abs(): State<A>
      reads this
    {
      State(throttles, timers, nextHandle)
    }

    ghost predicate Valid()
      reads this
    {
      WellFormed(Abs())
    }

    constructor ()
      ensures Valid() && throttles == map[] && timers == map[]
    {
      throttles := map[];
      timers := map[];
      nextHandle := 0;
    }

    /** `throttle(key, func, limit)`: on `RanNow` the caller runs the callback at once and
        `throttle` returns its result; on `Deferred` the callback is now the pending timer. */
    method Throttle(key: string, limit: int, now: int, action: A) returns (o: Outcome)
      requires Valid()
      modifies this
      ensures Valid()
      ensures (Abs(), o) == ThrottleStep(old(Abs()), key, limit, now, action)
    {
      if key !in throttles || now - throttles[key].lastCall >= limit {
        throttles := throttles[key := Entry(now, None)];
        return RanNow;
      }
      var data := throttles[key];
      if data.pending.Some? {
        timers := timers - {data.pending.value};
      }
      var delay := limit - (now - data.lastCall);
      timers := timers[nextHandle := Timer(key, now + delay, action)];
      throttles := throttles[key := data.(pending := Some(nextHandle))];
      nextHandle := nextHandle + 1;
      o := Deferred;
    }

    /** The timer `h` goes off at `now`; returns the callback, which the caller then runs. */
    method Fire(h: nat, now: int) returns (action: A)
      requires Valid() && h in timers && now >= timers[h].dueAt
      modifies this
      ensures Valid()
      ensures Abs() == FireStep(old(Abs()), h, now)
      ensures action == old(timers[h].action)
    {
      var t := timers[h];
      timers := timers - {h};
      throttles := throttles[t.key := Entry(now, None)];
      action := t.action;
    }

    /** `cleanup(keyPrefix)`: one pass over the keys, deleting the prefixed ones. */
    method Cleanup(prefix: string)
      requires Valid()
      modifies this
      ensures Valid()
      ensures Abs() == CleanupStep(old(Abs()), prefix)
    {
      ghost var s0 := Abs();
      var todo := throttles.Keys;
      while todo != {}
        invariant todo <= s0.throttles.Keys && nextHandle == s0.nextHandle
        invariant throttles == s0.throttles - (PrefixedKeys(s0.throttles, prefix) - todo)
        invariant timers == s0.timers - PendingOf(s0.throttles, PrefixedKeys(s0.throttles, prefix) - todo)
        decreases todo
      {
        var key :| key in todo;
        if StartsWith(key, prefix) {
          var data := throttles[key];
          if data.pending.Some? {
            timers := timers - {data.pending.value};
          }
          throttles := throttles - {key};
        }
        todo := todo - {key};
      }
      RemoveKeysKeepsWellFormed(s0, PrefixedKeys(s0.throttles, prefix));
    }

    /** `getStats()`: the number of entries and their keys (as a set; the map's order is not modelled). */
    method GetStats() returns (activeThrottles: nat, keys: set<string>)
      ensures activeThrottles == |throttles.Keys| && keys == throttles.Keys
    {
      activeThrottles := |throttles.Keys|;
      keys := throttles.Keys;
    }
  }

  lemma RemoveKeysKeepsWellFormed<A>(s: State<A>, gone: set<string>)
    requires WellFormed(s)
    ensures WellFormed(RemoveKeys(s, gone))
  {
    var t := RemoveKeys(s, gone);
    forall k | k in t.throttles && t.throttles[k].pending.Some?
      ensures t.throttles[k].pending.value in t.timers
    {
    }
  }

  // ---- Properties of one call ----

  /** A call on a key with no entry, or after the window, runs at once and starts a new window.
      A pending timer of the key is not cleared: the entry is replaced and the timer is orphaned. */
  lemma LeadingEdge<A>(s: State<A>, key: string, limit: int, now: int, action: A)
    requires Cold(s, key, limit, now)
    ensures var (t, o) := ThrottleStep(s, key, limit, now, action);
      && o == RanNow
      && t.throttles == s.throttles[key := Entry(now, None)]
      && t.timers == s.timers
  {
  }

  /** A call inside the window does not run; it becomes the key's only pending timer, due at
      `lastCall + limit`, after a delay in (0, limit] when the clock has not gone backwards;
      the timer it replaces is cleared, and no other key is touched. */
  lemma InsideWindow<A>(s: State<A>, key: string, limit: int, now: int, action: A)
    requires WellFormed(s) && !Cold(s, key, limit, now)
    ensures var (t, o) := ThrottleStep(s, key, limit, now, action);
      var e := s.throttles[key];
      && o == Deferred
      && WellFormed(t)
      && t.throttles[key].lastCall == e.lastCall
      && t.throttles[key].pending.Some?
      && var h := t.throttles[key].pending.value;
      && t.timers[h] == Timer(key, e.lastCall + limit, action)
      && 0 < t.timers[h].dueAt - now
      && (now >= e.lastCall ==> t.timers[h].dueAt - now <= limit)
      && (e.pending.Some? ==> e.pending.value !in t.timers)
      && (forall k | k in s.throttles && k != key :: k in t.throttles && t.throttles[k] == s.throttles[k])
      && t.throttles.Keys == s.throttles.Keys
  {
  }

  /** An immediate run follows the key's last run by at least `limit`. */
  lemma ImmediateRunsAreSpaced<A>(s: State<A>, key: string, limit: int, now: int, action: A)
    requires key in s.throttles
    ensures ThrottleStep(s, key, limit, now, action).1 == RanNow ==> now - s.throttles[key].lastCall >= limit
  {
  }

  lemma ThrottleKeepsWellFormed<A>(s: State<A>, key: string, limit: int, now: int, action: A)
    requires WellFormed(s)
    ensures WellFormed(ThrottleStep(s, key, limit, now, action).0)
  {
  }

  lemma FireKeepsWellFormed<A>(s: State<A>, h: nat, now: int)
    requires WellFormed(s) && h in s.timers
    ensures WellFormed(FireStep(s, h, now))
  {
    var t := FireStep(s, h, now);
    forall k | k in t.throttles && t.throttles[k].pending.Some?
      ensures t.throttles[k].pending.value in t.timers
    {
      assert k != s.timers[h].key;
      assert s.throttles[k].pending.value != h;
    }
  }

  /** Deleting a set of keys deletes exactly those entries, clears exactly their pending
      timers, and leaves every other entry and every other key's timer as it was. */
  lemma RemoveKeysExactly<A>(s: State<A>, gone: set<string>)
    requires WellFormed(s)
    ensures var t := RemoveKeys(s, gone);
      && (forall k :: k in t.throttles <==> k in s.throttles && k !in gone)
      && (forall k | k in t.throttles :: t.throttles[k] == s.throttles[k])
      && (forall k | k in s.throttles && k in gone && s.throttles[k].pending.Some? ::
            s.throttles[k].pending.value !in t.timers)
      && (forall h | h in s.timers && s.timers[h].key !in gone :: h in t.timers && t.timers[h] == s.timers[h])
  {
    var t := RemoveKeys(s, gone);
    forall h | h in s.timers && s.timers[h].key !in gone
      ensures h in t.timers
    {
    }
  }

  /** `cleanup(prefix)` deletes exactly the prefixed keys, clears exactly their pending
      timers, and leaves every other entry, and the timers of every other key, as they were. */
  lemma CleanupExactly<A>(s: State<A>, prefix: string)
    requires WellFormed(s)
    ensures var t := CleanupStep(s, prefix);
      && (forall k :: k in t.throttles <==> k in s.throttles && !StartsWith(k, prefix))
      && (forall k | k in t.throttles :: t.throttles[k] == s.throttles[k])
      && (forall k | k in s.throttles && StartsWith(k, prefix) && s.throttles[k].pending.Some? ::
            s.throttles[k].pending.value !in t.timers)
      && (forall h | h in s.timers && s.timers[h].key in s.throttles && !StartsWith(s.timers[h].key, prefix) ::
            h in t.timers)
  {
    RemoveKeysExactly(s, PrefixedKeys(s.throttles, prefix));
  }

  // ---- Properties of runs ----

  /** What can happen to the throttler: a call of `throttle`, or a scheduled timer going off. */
  datatype Event<A> = Call(key: string, limit: int, at: int, action: A) | Fire(handle: nat, at: int)

  function EventTime<A>(e: Event<A>): int {
    match e
    case Call(_, _, at, _) => at
    case Fire(_, at) => at
  }

  /** An event can happen in state `s` no earlier than `clock`: times do not go backwards,
      and a timer goes off only while scheduled and not before it is due. */
  predicate Enabled<A>(s: State<A>, clock: int, e: Event<A>) {
    EventTime(e) >= clock &&
    match e
    case Call(_, _, _, _) => true
    case Fire(h, at) => h in s.timers && at >= s.timers[h].dueAt
  }

  function Apply<A>(s: State<A>, e: Event<A>): State<A>
    requires e.Fire? ==> e.handle in s.timers
  {
    match e
    case Call(k, limit, at, a) => ThrottleStep(s, k, limit, at, a).0
    case Fire(h, at) => FireStep(s, h, at)
  }

  /** Whether event `e` is a call of `key` with limit `limit` that runs at once. */
  predicate RunsNow<A>(s: State<A>, e: Event<A>, key: string, limit: int) {
    e.Call? && e.key == key && e.limit == limit && ThrottleStep(s, e.key, e.limit, e.at, e.action).1 == RanNow
  }

  /** The runs at once among them: the times at which a call of `key` with limit `limit` ran at once. */
  function ImmediateTimes<A>(s: State<A>, clock: int, trace: seq<Event<A>>, key: string, limit: int): seq<int>
    decreases |trace|
  {
    if trace == [] || !Enabled(s, clock, trace[0]) then []
    else
      var e := trace[0];
      (if RunsNow(s, e, key, limit) then [e.at] else []) + ImmediateTimes(Apply(s, e), EventTime(e), trace[1..], key, limit)
  }

  /** Consecutive times at least `limit` apart. */
  predicate Spaced(ts: seq<int>, limit: int) {
    forall i | 0 <= i < |ts| - 1 :: ts[i + 1] - ts[i] >= limit
  }

  lemma SpacedCons(x: int, rest: seq<int>, limit: int)
    requires Spaced(rest, limit) && (|rest| > 0 ==> rest[0] - x >= limit)
    ensures Spaced([x] + rest, limit)
  {
    var ts := [x] + rest;
    forall i | 0 <= i < |ts| - 1 ensures ts[i + 1] - ts[i] >= limit {
      if i == 0 {
        assert ts[1] == rest[0];
      } else {
        assert ts[i] == rest[i - 1] && ts[i + 1] == rest[i];
      }
    }
  }

  /** The entry of `key` never records a time later than the clock, nor earlier than its last run. */
  ghost predicate Tracks<A>(s: State<A>, clock: int, key: string, last: Option<int>) {
    && (key in s.throttles ==> s.throttles[key].lastCall <= clock)
    && (last.Some? ==> key in s.throttles && last.value <= s.throttles[key].lastCall)
  }

  /** One enabled event keeps the entry tracked, with the event's time as the clock and, after
      an immediate run, that run as the last one; such a run follows the last one by `limit`. */
  lemma TracksStep<A>(s: State<A>, clock: int, e: Event<A>, key: string, limit: int, last: Option<int>)
    requires Tracks(s, clock, key, last) && Enabled(s, clock, e)
    ensures var now := RunsNow(s, e, key, limit);
      && Tracks(Apply(s, e), EventTime(e), key, if now then Some(e.at) else last)
      && (now && last.Some? ==> e.at - last.value >= limit)
  {
    if RunsNow(s, e, key, limit) {
      var t := Apply(s, e);
      assert key in t.throttles && t.throttles[key].lastCall == e.at;
      if last.Some? {
        assert s.throttles[key].lastCall - last.value >= 0;
      }
    }
  }

  /** Along any trace with a clock that does not go backwards, the immediate runs of a key whose
      calls all use the same `limit` are at least `limit` apart, also when timers go off and
      other keys are used in between. */
  lemma {:induction false} ImmediateRunsSpacedAlongTrace<A>(s: State<A>, clock: int, trace: seq<Event<A>>, key: string, limit: int, last: Option<int>)
    requires Tracks(s, clock, key, last)
    ensures var ts := ImmediateTimes(s, clock, trace, key, limit);
      && Spaced(ts, limit)
      && (last.Some? && |ts| > 0 ==> ts[0] - last.value >= limit)
    decreases |trace|
  {
    if trace == [] || !Enabled(s, clock, trace[0]) {
      return;
    }
    var e := trace[0];
    var now := RunsNow(s, e, key, limit);
    var last' := if now then Some(e.at) else last;
    TracksStep(s, clock, e, key, limit, last);
    ImmediateRunsSpacedAlongTrace(Apply(s, e), EventTime(e), trace[1..], key, limit, last');
    var rest := ImmediateTimes(Apply(s, e), EventTime(e), trace[1..], key, limit);
    if now {
      SpacedCons(e.at, rest, limit);
    }
  }
}
