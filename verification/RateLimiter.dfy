/** The per-tenant sliding-window rate limiter. */
module RateLimiter {

  datatype Limits = Limits(max: int, window: real)

  type Counters = map<string, seq<real>>

  datatype Request = Request(key: string, at: real)

  datatype Entry = Entry(key: string, at: real, accepted: bool)

  /** The recorded times that are still inside the window at `now`. */
  function Recent(times: seq<real>, now: real, window: real): (r: seq<real>)
    ensures |r| <= |times|
  {
    if times == [] then []
    else
      var last := times[|times| - 1];
      var before := Recent(times[..|times| - 1], now, window);
      if now - last < window then before + [last] else before
  }

  function TimesOf(c: Counters, key: string): seq<real> {
    if key in c then c[key] else []
  }

  predicate Accepts(l: Limits, c: Counters, r: Request) {
    |Recent(TimesOf(c, r.key), r.at, l.window)| < l.max
  }

  /** A refused request leaves its key's list unpruned. */
  function After(l: Limits, c: Counters, r: Request): Counters {
    if Accepts(l, c, r) then c[r.key := Recent(TimesOf(c, r.key), r.at, l.window) + [r.at]]
    else c[r.key := TimesOf(c, r.key)]
  }

  class RateLimitMiddleware {
    const limits: Limits
    var counters: Counters

    constructor (max: int, window: real)
      ensures limits == Limits(max, window) && counters == map[]
    {
      limits := Limits(max, window);
      counters := map[];
    }

    method Dispatch(key: string, now: real) returns (accepted: bool)
      modifies this
      ensures var times := if key in old(counters) then old(counters)[key] else [];
              accepted <==> |set i: nat | i < |times| && now - times[i] < limits.window| < limits.max
      ensures forall other | other != key :: (other in counters <==> other in old(counters))
                                             && (other in counters ==> counters[other] == old(counters)[other])
      ensures key in counters && if accepted then counters[key] != [] && counters[key][|counters[key]| - 1] == now
                                 else counters[key] == if key in old(counters) then old(counters)[key] else []
      ensures accepted == Accepts(limits, old(counters), Request(key, now))
      ensures counters == After(limits, old(counters), Request(key, now))
    {
      if key !in counters {
        counters := counters[key := []];
      }
      var timestamps := Recent(counters[key], now, limits.window);
      RecentCounts(counters[key], now, limits.window);
      if |timestamps| >= limits.max {
        assert counters == old(counters)[key := TimesOf(old(counters), key)];
        return false;
      }
      timestamps := timestamps + [now];
      counters := counters[key := timestamps];
      return true;
    }
  }

  /** The pruned list has one entry for each time inside the window. */
  lemma {:induction false} RecentCounts(times: seq<real>, now: real, window: real)
    ensures |Recent(times, now, window)| == |set i: nat | i < |times| && now - times[i] < window|
  {
    var all := set i: nat | i < |times| && now - times[i] < window;
    if times == [] {
      assert all == {};
    } else {
      var n := |times| - 1;
      var before := times[..n];
      RecentCounts(before, now, window);
      var fewer := set i: nat | i < |before| && now - before[i] < window;
      if now - times[n] < window {
        assert all == fewer + {n};
      } else {
        assert all == fewer;
      }
    }
  }

  // ---------------------------------------------------------------- whole histories

  datatype Service = Service(counters: Counters, log: seq<Entry>)

  function Serve(l: Limits, requests: seq<Request>): (s: Service)
    ensures |s.log| == |requests|
  {
    if requests == [] then Service(map[], [])
    else
      var s := Serve(l, requests[..|requests| - 1]);
      var r := requests[|requests| - 1];
      Service(After(l, s.counters, r), s.log + [Entry(r.key, r.at, Accepts(l, s.counters, r))])
  }

  /** All accepted requests of a key since the beginning. */
  function AcceptedTimes(log: seq<Entry>, key: string): seq<real> {
    if log == [] then []
    else
      var last := log[|log| - 1];
      var before := AcceptedTimes(log[..|log| - 1], key);
      if last.accepted && last.key == key then before + [last.at] else before
  }

  ghost predicate ClockRuns(requests: seq<Request>) {
    forall i, j | 0 <= i < j < |requests| :: requests[i].at <= requests[j].at
  }

  lemma {:induction false} RecentConcat(a: seq<real>, b: seq<real>, now: real, window: real)
    ensures Recent(a + b, now, window) == Recent(a, now, window) + Recent(b, now, window)
  {
    if b == [] {
      assert a + b == a;
    } else {
      RecentConcat(a, b[..|b| - 1], now, window);
      assert (a + b)[..|a + b| - 1] == a + b[..|b| - 1];
    }
  }

  /** What was pruned earlier would be pruned later anyway. */
  lemma {:induction false} RecentTwice(times: seq<real>, now: real, later: real, window: real)
    requires now <= later
    ensures Recent(Recent(times, now, window), later, window) == Recent(times, later, window)
  {
    if times != [] {
      var before, last := times[..|times| - 1], times[|times| - 1];
      RecentTwice(before, now, later, window);
      RecentConcat(Recent(before, now, window), [last], later, window);
      assert Recent([last], later, window) == if later - last < window then [last] else [];
    }
  }

  /** The pruned list and the full history agree on every window that is still to come. */
  lemma {:induction false} CountersKeepWhatMatters(l: Limits, requests: seq<Request>, key: string, later: real)
    requires ClockRuns(requests)
    requires forall i | 0 <= i < |requests| :: requests[i].at <= later
    ensures var s := Serve(l, requests);
            Recent(TimesOf(s.counters, key), later, l.window) == Recent(AcceptedTimes(s.log, key), later, l.window)
  {
    if requests != [] {
      var before, r := requests[..|requests| - 1], requests[|requests| - 1];
      var s, t := Serve(l, before), Serve(l, requests);
      CountersKeepWhatMatters(l, before, key, later);
      assert t.log[..|t.log| - 1] == s.log;
      if r.key == key && Accepts(l, s.counters, r) {
        RecentTwice(TimesOf(s.counters, key), r.at, later, l.window);
        RecentConcat(Recent(TimesOf(s.counters, key), r.at, l.window), [r.at], later, l.window);
        RecentConcat(AcceptedTimes(s.log, key), [r.at], later, l.window);
      }
    }
  }

  lemma {:induction false} AcceptedIffRecentRoom(l: Limits, requests: seq<Request>, k: nat)
    requires ClockRuns(requests) && k < |requests|
    ensures var log := Serve(l, requests).log;
            && log[k].key == requests[k].key && log[k].at == requests[k].at
            && (log[k].accepted <==> |Recent(AcceptedTimes(log[..k], requests[k].key), requests[k].at, l.window)| < l.max)
  {
    var before, r := requests[..|requests| - 1], requests[|requests| - 1];
    var s, t := Serve(l, before), Serve(l, requests);
    assert t.log == s.log + [Entry(r.key, r.at, Accepts(l, s.counters, r))];
    if k == |requests| - 1 {
      CountersKeepWhatMatters(l, before, r.key, r.at);
      assert t.log[..k] == s.log;
    } else {
      AcceptedIffRecentRoom(l, before, k);
      assert t.log[..k] == s.log[..k];
    }
  }

  /** The earlier requests of the key that were accepted and are less than one window old. */
  ghost function Occupants(log: seq<Entry>, k: nat, key: string, now: real, window: real): set<nat>
    requires k <= |log|
  {
    set j: nat | j < k && log[j].accepted && log[j].key == key && now - log[j].at < window
  }

  lemma {:induction false} OccupantsAreRecent(log: seq<Entry>, key: string, now: real, window: real)
    ensures |Occupants(log, |log|, key, now, window)| == |Recent(AcceptedTimes(log, key), now, window)|
  {
    if log != [] {
      var n := |log| - 1;
      var before, last := log[..n], log[n];
      OccupantsAreRecent(before, key, now, window);
      var fewer := Occupants(before, n, key, now, window);
      RecentConcat(AcceptedTimes(before, key), [last.at], now, window);
      assert Recent([last.at], now, window) == if now - last.at < window then [last.at] else [];
      if last.accepted && last.key == key && now - last.at < window {
        assert Occupants(log, |log|, key, now, window) == fewer + {n};
      } else {
        assert Occupants(log, |log|, key, now, window) == fewer;
      }
    }
  }

  /** Request `k` is accepted exactly when fewer than `max` requests before it, out of the whole history,
      were accepted for its key and are less than one window old. */
  lemma AcceptedIffRoom(l: Limits, requests: seq<Request>, k: nat)
    requires ClockRuns(requests) && k < |requests|
    ensures var log := Serve(l, requests).log;
            && (forall j: nat | j < |log| :: log[j].key == requests[j].key && log[j].at == requests[j].at)
            && var room := set j: nat | j < k && log[j].accepted && requests[j].key == requests[k].key
                                        && requests[k].at - requests[j].at < l.window;
            (log[k].accepted <==> |room| < l.max)
  {
    var log := Serve(l, requests).log;
    forall j: nat | j < |log|
      ensures log[j].key == requests[j].key && log[j].at == requests[j].at
    {
      AcceptedIffRecentRoom(l, requests, j);
    }
    AcceptedIffRecentRoom(l, requests, k);
    OccupantsAreRecent(log[..k], requests[k].key, requests[k].at, l.window);
    var room := set j: nat | j < k && log[j].accepted && requests[j].key == requests[k].key
                             && requests[k].at - requests[j].at < l.window;
    assert room == Occupants(log[..k], k, requests[k].key, requests[k].at, l.window);
  }

  /** The times in the half-open interval from `start`, one window long. */
  function InInterval(times: seq<real>, start: real, window: real): seq<real> {
    if times == [] then []
    else
      var last := times[|times| - 1];
      var before := InInterval(times[..|times| - 1], start, window);
      if start <= last < start + window then before + [last] else before
  }

  lemma {:induction false} IntervalIsRecent(times: seq<real>, start: real, now: real, window: real)
    requires start <= now < start + window
    ensures |InInterval(times, start, window)| <= |Recent(times, now, window)|
  {
    if times != [] {
      IntervalIsRecent(times[..|times| - 1], start, now, window);
    }
  }

  /** No interval of the window's length, wherever it starts, holds more than `max` accepted requests. */
  lemma {:induction false} NoIntervalExceedsMax(l: Limits, requests: seq<Request>, key: string, start: real)
    requires ClockRuns(requests)
    ensures |InInterval(AcceptedTimes(Serve(l, requests).log, key), start, l.window)| <= if l.max > 0 then l.max else 0
  {
    if requests != [] {
      var before, r := requests[..|requests| - 1], requests[|requests| - 1];
      var s, t := Serve(l, before), Serve(l, requests);
      NoIntervalExceedsMax(l, before, key, start);
      assert t.log[..|t.log| - 1] == s.log;
      if r.key == key && Accepts(l, s.counters, r) {
        var times := AcceptedTimes(s.log, key);
        assert (times + [r.at])[..|times|] == times;
        if start <= r.at < start + l.window {
          AcceptedIffRecentRoom(l, requests, |requests| - 1);
          IntervalIsRecent(times, start, r.at, l.window);
        }
      }
    }
  }
}
