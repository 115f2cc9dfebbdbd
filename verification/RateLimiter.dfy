/** The sliding-window rate limiter (infrastructure/exchanges/nobitex/rate_limit.py). */
module RateLimiter {
  datatype Endpoint = Options | OrderBook | Trades | Ohlc

  datatype RateLimit = RateLimit(requests: int, period: real)

  // ---------- the window law on a list of grant times ----------

  predicate NonDecreasing(s: seq<real>) {
    forall i, j :: 0 <= i < j < |s| ==> s[i] <= s[j]
  }

  /** The grant `requests` places later is at least a period later. */
  ghost predicate Spaced(s: seq<real>, limit: RateLimit)
    requires limit.requests >= 1
  {
    forall i, j :: 0 <= i && j == i + limit.requests && j < |s| ==> s[j] >= s[i] + limit.period
  }

  /** How many times fall in the half-open window. */
  function CountIn(s: seq<real>, from: real, to: real): nat {
    if |s| == 0 then 0
    else CountIn(s[..|s| - 1], from, to) + (if from <= s[|s| - 1] < to then 1 else 0)
  }

  /** How many times are later than the cutoff. */
  function CountAfter(s: seq<real>, cutoff: real): nat {
    if |s| == 0 then 0
    else CountAfter(s[..|s| - 1], cutoff) + (if s[|s| - 1] > cutoff then 1 else 0)
  }

  lemma {:induction false} CountSkips(s: seq<real>, from: real, to: real, k: nat)
    requires k <= |s| && forall i :: 0 <= i < k ==> !(from <= s[i] < to)
    ensures CountIn(s, from, to) <= |s| - k
  {
    if |s| > 0 {
      CountSkips(s[..|s| - 1], from, to, if k == |s| then k - 1 else k);
    }
  }

  /** Every window of one period holds at most `requests` grants, wherever it starts. */
  lemma {:induction false} WindowBound(grants: seq<real>, limit: RateLimit, from: real)
    requires limit.requests >= 1 && NonDecreasing(grants) && Spaced(grants, limit)
    ensures CountIn(grants, from, from + limit.period) <= limit.requests
  {
    var n := |grants|;
    if n > 0 {
      if from <= grants[n - 1] < from + limit.period {
        var k := if n > limit.requests then n - limit.requests else 0;
        if k > 0 {
          assert grants[n - 1] >= grants[k - 1] + limit.period;
        }
        CountSkips(grants, from, from + limit.period, k);
      } else {
        WindowBound(grants[..n - 1], limit, from);
      }
    }
  }

  lemma {:induction false} CountAfterSplit(s: seq<real>, k: nat, cutoff: real)
    requires k <= |s|
    requires forall i :: 0 <= i < k ==> s[i] <= cutoff
    requires forall i :: k <= i < |s| ==> s[i] > cutoff
    ensures CountAfter(s, cutoff) == |s| - k
  {
    if |s| > 0 {
      CountAfterSplit(s[..|s| - 1], if k == |s| then k - 1 else k, cutoff);
    }
  }

  /** The queue is the recent end of the grant history; what was dropped is at least a period old. */
  ghost predicate Tracks(limit: RateLimit, all: seq<real>, queue: seq<real>, now: real) {
    && limit.requests >= 1
    && |queue| <= |all| && all[|all| - |queue|..] == queue
    && |queue| <= limit.requests
    && NonDecreasing(all) && Spaced(all, limit)
    && (forall i :: 0 <= i < |all| ==> all[i] <= now)
    && (forall i :: 0 <= i < |all| - |queue| ==> all[i] + limit.period <= now)
  }

  /** The grant, made at `t`, that has to be a period old before the next one. */
  predicate Blocks(limit: RateLimit, all: seq<real>, t: real) {
    |all| >= limit.requests >= 1 && all[|all| - limit.requests] == t
  }

  lemma TracksLater(limit: RateLimit, all: seq<real>, queue: seq<real>, now: real, later: real)
    requires Tracks(limit, all, queue, now) && now <= later
    ensures Tracks(limit, all, queue, later)
  {}

  lemma TracksDrop(limit: RateLimit, all: seq<real>, queue: seq<real>, now: real)
    requires Tracks(limit, all, queue, now) && |queue| > 0 && queue[0] <= now - limit.period
    ensures Tracks(limit, all, queue[1..], now)
  {
    var d := |all| - |queue|;
    assert all[d] == queue[0];
    assert all[d + 1..] == queue[1..];
  }

  /** A grant is safe once the queue has room: the grant `requests` places back was dropped as expired. */
  lemma TracksGrant(limit: RateLimit, all: seq<real>, queue: seq<real>, now: real)
    requires Tracks(limit, all, queue, now) && |queue| < limit.requests
    ensures Tracks(limit, all + [now], queue + [now], now)
  {
    hide Spaced;
    var more := all + [now];
    assert more[|more| - |queue + [now]|..] == queue + [now];
    SpacedGrant(limit, all, |all| - |queue|, now);
  }

  lemma SpacedGrant(limit: RateLimit, all: seq<real>, dropped: nat, now: real)
    requires limit.requests >= 1 && Spaced(all, limit) && dropped <= |all| < dropped + limit.requests
    requires forall i :: 0 <= i < dropped ==> all[i] + limit.period <= now
    ensures Spaced(all + [now], limit)
  {
    var more := all + [now];
    forall i, j | 0 <= i && j == i + limit.requests && j < |more| ensures more[j] >= more[i] + limit.period {
      if j < |all| {
        assert all[j] >= all[i] + limit.period;
      }
    }
  }

  lemma TracksCount(limit: RateLimit, all: seq<real>, queue: seq<real>, now: real)
    requires Tracks(limit, all, queue, now)
    requires |queue| > 0 ==> queue[0] > now - limit.period
    ensures CountAfter(all, now - limit.period) == |queue|
  {
    var d := |all| - |queue|;
    forall i | d <= i < |all| ensures all[i] > now - limit.period {
      assert all[d..][i - d] == all[i] && all[d] == queue[0];
    }
    CountAfterSplit(all, d, now - limit.period);
  }

  // ---------- the environment ----------

  /** A monotone clock, and a sleep that lasts at least as long as asked. */
  class Clock {
    var now: real

    constructor (start: real)
      ensures now == start
    {
      now := start;
    }

    method Read() returns (t: real)
      modifies this
      ensures t == now >= old(now)
    {
      var elapsed: real :| elapsed >= 0.0;
      now := now + elapsed;
      t := now;
    }

    method Sleep(delay: real)
      modifies this
      ensures now >= old(now) && now >= old(now) + delay
    {
      var overshoot: real :| overshoot >= 0.0;
      now := now + (if delay > 0.0 then delay else 0.0) + overshoot;
    }
  }

  // ---------- the limiter ----------

  class InMemoryRateLimiter {
    const limits: map<Endpoint, RateLimit>
    const clock: Clock
    var events: map<Endpoint, seq<real>>
    /** Every grant ever given, per endpoint. */
    ghost var grants: map<Endpoint, seq<real>>

    function Queue(e: Endpoint): seq<real>
      reads this
    {
      if e in events then events[e] else []
    }

    ghost function Grants(e: Endpoint): seq<real>
      reads this
    {
      if e in grants then grants[e] else []
    }

    ghost predicate Valid()
      reads this, clock
    {
      forall e :: e in limits ==> Tracks(limits[e], Grants(e), Queue(e), clock.now)
    }

    constructor (limits: map<Endpoint, RateLimit>, clock: Clock)
      requires forall e :: e in limits ==> limits[e].requests >= 1
      ensures Valid() && this.limits == limits && this.clock == clock
      ensures forall e :: Grants(e) == []
    {
      this.limits, this.clock := limits, clock;
      events, grants := map[], map[];
    }

    /**
      Returns false when the endpoint has no limit (a `KeyError`). Otherwise waits
      until a grant is possible and records it. It sleeps at most once, and not at
      all exactly when fewer than `requests` grants are younger than a period. It asks to
      sleep until the grant that blocks it is a period old, and no longer.
     */
    method Acquire(e: Endpoint) returns (found: bool, sleeps: nat, ghost asked: real, ghost delay: real)
      requires Valid()
      modifies this, clock
      ensures Valid()
      ensures found <==> e in limits
      ensures !found ==> events == old(events) && grants == old(grants) && clock.now == old(clock.now)
      ensures found ==> grants == old(grants)[e := old(Grants(e)) + [clock.now]]
      ensures found ==> old(clock.now) <= asked <= clock.now && sleeps <= 1
      ensures found ==> (sleeps == 0 <==> CountAfter(old(Grants(e)), asked - limits[e].period) < limits[e].requests)
      ensures found && sleeps == 1 ==>
                && delay > 0.0 && clock.now >= asked + delay
                && Blocks(limits[e], old(Grants(e)), asked + delay - limits[e].period)
    {
      hide Tracks, CountAfter, Blocks;
      found, sleeps, asked, delay := e in limits, 0, clock.now, 0.0;
      if !found {
        return;
      }
      var limit := limits[e];
      var now := ReadClock();
      asked := now;
      while true
        invariant Valid() && grants == old(grants)
        invariant now == clock.now && old(clock.now) <= asked <= now
        invariant sleeps <= 1
        invariant sleeps == 0 ==> now == asked
        invariant sleeps == 1 ==> CountAfter(Grants(e), asked - limit.period) >= limit.requests
        invariant sleeps == 1 ==>
                    delay > 0.0 && now >= asked + delay && Blocks(limit, old(Grants(e)), asked + delay - limit.period)
        invariant sleeps == 1 ==> 0 < |Queue(e)| <= limit.requests && Queue(e)[0] <= now - limit.period
        decreases 1 - sleeps
      {
        DropExpired(e, now - limit.period);
        TracksCount(limit, Grants(e), Queue(e), now);
        if |Queue(e)| < limit.requests {
          Record(e, now);
          return;
        }
        delay := WaitForOldest(e, now);
        sleeps := sleeps + 1;
        now := ReadClock();
      }
    }

    /** In every window of one period the limiter has given at most the allowed number of grants. */
    lemma GrantsBounded(e: Endpoint, from: real)
      requires Valid() && e in limits
      ensures CountIn(Grants(e), from, from + limits[e].period) <= limits[e].requests
    {
      assert Tracks(limits[e], Grants(e), Queue(e), clock.now);
      WindowBound(Grants(e), limits[e], from);
    }

    lemma QueueFits(e: Endpoint)
      requires Valid() && e in limits
      ensures 1 <= limits[e].requests && |Queue(e)| <= limits[e].requests
      ensures |Queue(e)| == limits[e].requests ==> Blocks(limits[e], Grants(e), Queue(e)[0])
    {
      assert Tracks(limits[e], Grants(e), Queue(e), clock.now);
      assert |Queue(e)| > 0 ==> Grants(e)[|Grants(e)| - |Queue(e)|..][0] == Queue(e)[0];
    }

    method ReadClock() returns (now: real)
      requires Valid()
      modifies clock
      ensures Valid() && now == clock.now >= old(clock.now)
    {
      hide Tracks;
      now := clock.Read();
      forall e | e in limits ensures Tracks(limits[e], Grants(e), Queue(e), now) {
        assert old(Tracks(limits[e], Grants(e), Queue(e), clock.now));
        TracksLater(limits[e], Grants(e), Queue(e), old(clock.now), now);
      }
    }

    method Wait(delay: real)
      requires Valid()
      modifies clock
      ensures Valid() && clock.now >= old(clock.now) && clock.now >= old(clock.now) + delay
    {
      hide Tracks;
      clock.Sleep(if delay > 0.0 then delay else 0.0);
      forall e | e in limits ensures Tracks(limits[e], Grants(e), Queue(e), clock.now) {
        assert old(Tracks(limits[e], Grants(e), Queue(e), clock.now));
        TracksLater(limits[e], Grants(e), Queue(e), old(clock.now), clock.now);
      }
    }

    /** With a full queue, sleep until its oldest grant is a period old. */
    method WaitForOldest(e: Endpoint, now: real) returns (ghost delay: real)
      requires Valid() && e in limits && now == clock.now
      requires |Queue(e)| >= limits[e].requests && (|Queue(e)| > 0 ==> Queue(e)[0] > now - limits[e].period)
      modifies clock
      ensures Valid() && clock.now >= old(clock.now)
      ensures 0 < |Queue(e)| <= limits[e].requests && Queue(e)[0] <= clock.now - limits[e].period
      ensures delay > 0.0 && clock.now >= now + delay
      ensures Blocks(limits[e], Grants(e), now + delay - limits[e].period)
    {
      hide Tracks, Blocks;
      QueueFits(e);
      delay := Queue(e)[0] + limits[e].period - now;
      Wait(Queue(e)[0] + limits[e].period - now);
    }

    /** Pop the front of the queue while it is at or before the cutoff. */
    method DropExpired(e: Endpoint, cutoff: real)
      requires Valid() && e in limits && cutoff == clock.now - limits[e].period
      modifies this`events
      ensures Valid()
      ensures |Queue(e)| <= |old(Queue(e))|
      ensures |old(Queue(e))| > 0 && old(Queue(e))[0] <= cutoff ==> |Queue(e)| < |old(Queue(e))|
      ensures |Queue(e)| > 0 ==> Queue(e)[0] > cutoff
    {
      hide Tracks;
      while |Queue(e)| > 0 && Queue(e)[0] <= cutoff
        invariant Valid() && |Queue(e)| <= |old(Queue(e))|
        invariant |old(Queue(e))| == |Queue(e)| ==> Queue(e) == old(Queue(e))
        decreases |Queue(e)|
      {
        TracksDrop(limits[e], Grants(e), Queue(e), clock.now);
        events := events[e := Queue(e)[1..]];
      }
    }

    method Record(e: Endpoint, now: real)
      requires Valid() && e in limits && now == clock.now && |Queue(e)| < limits[e].requests
      modifies this
      ensures Valid()
      ensures grants == old(grants)[e := old(Grants(e)) + [now]]
      ensures events == old(events)[e := old(Queue(e)) + [now]]
    {
      hide Tracks;
      TracksGrant(limits[e], Grants(e), Queue(e), now);
      events := events[e := Queue(e) + [now]];
      grants := grants[e := Grants(e) + [now]];
    }
  }
}
