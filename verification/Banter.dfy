/** The rolling cap on banter: at most `limit` events per window and key. Times are
    whole clock readings; a window is a length of time in the same unit. */
module Banter {

  /** The hits later than the cut, in order. */
  function Recent(hits: seq<int>, cut: int): seq<int> {
    if hits == [] then []
    else
      var n := |hits| - 1;
      Recent(hits[..n], cut) + if hits[n] > cut then [hits[n]] else []
  }

  function HitsOf(hits: map<string, seq<int>>, key: string): seq<int> {
    if key in hits then hits[key] else []
  }

  class WindowCounter {
    var hits: map<string, seq<int>>

    constructor ()
      ensures hits == map[]
    {
      hits := map[];
    }

    method Allow(key: string, limit: int, window: int, now: int) returns (ok: bool)
      modifies this
      ensures limit <= 0 ==> ok && hits == old(hits)
      ensures limit > 0 ==>
        var kept := Recent(HitsOf(old(hits), key), now - window);
        && (ok <==> |kept| < limit)
        && hits == old(hits)[key := if ok then kept + [now] else kept]
    {
      if limit <= 0 {
        return true;
      }
      var cut := now - window;
      var past := if key in hits then hits[key] else [];
      var kept := [];
      for i := 0 to |past|
        invariant kept == Recent(past[..i], cut)
      {
        assert past[..i + 1][..i] == past[..i];
        if past[i] > cut {
          kept := kept + [past[i]];
        }
      }
      assert past[..|past|] == past;
      if |kept| >= limit {
        hits := hits[key := kept];
        return false;
      }
      hits := hits[key := kept + [now]];
      return true;
    }
  }

  // --- Runs of one counter, each key with a limit and window of its own ---

  datatype Call = Call(key: string, now: int)

  /** What the counter holds, and every event it ever granted, by key. */
  datatype Run = Run(hits: map<string, seq<int>>, granted: map<string, seq<int>>)

  datatype Cap = Cap(limit: int, window: int)

  function Step(r: Run, c: Call, cap: Cap): Run {
    var kept := Recent(HitsOf(r.hits, c.key), c.now - cap.window);
    if |kept| < cap.limit
    then Run(r.hits[c.key := kept + [c.now]], r.granted[c.key := HitsOf(r.granted, c.key) + [c.now]])
    else r.(hits := r.hits[c.key := kept])
  }

  function After(calls: seq<Call>, caps: string -> Cap): Run {
    if calls == [] then Run(map[], map[])
    else
      var n := |calls| - 1;
      Step(After(calls[..n], caps), calls[n], caps(calls[n].key))
  }

  ghost predicate Steady(calls: seq<Call>) {
    forall i, j :: 0 <= i < j < |calls| ==> calls[i].now <= calls[j].now
  }

  /** How many of the events fall in the half-open interval (lo, hi]. */
  function CountIn(events: seq<int>, lo: int, hi: int): nat {
    if events == [] then 0
    else
      var n := |events| - 1;
      CountIn(events[..n], lo, hi) + if lo < events[n] <= hi then 1 else 0
  }

  /** How many fall in the window that ends at x. */
  function InWindow(events: seq<int>, window: int, x: int): nat {
    CountIn(events, x - window, x)
  }

  lemma RecentAppend(events: seq<int>, t: int, cut: int)
    ensures Recent(events + [t], cut) == Recent(events, cut) + if t > cut then [t] else []
  {
    assert (events + [t])[..|events|] == events;
  }

  lemma CountAppend(events: seq<int>, t: int, lo: int, hi: int)
    ensures CountIn(events + [t], lo, hi) == CountIn(events, lo, hi) + if lo < t <= hi then 1 else 0
  {
    assert (events + [t])[..|events|] == events;
  }

  lemma {:induction false} CountIsRecent(events: seq<int>, lo: int, hi: int)
    requires forall t :: t in events ==> t <= hi
    ensures CountIn(events, lo, hi) == |Recent(events, lo)|
  {
    if events != [] {
      var n := |events| - 1;
      assert events[n] in events && forall t :: t in events[..n] ==> t in events;
      CountIsRecent(events[..n], lo, hi);
    }
  }

  lemma {:induction false} CountShrinks(events: seq<int>, lo: int, lo': int, hi: int, hi': int)
    requires lo <= lo' && hi' <= hi
    ensures CountIn(events, lo', hi') <= CountIn(events, lo, hi)
  {
    if events != [] {
      CountShrinks(events[..|events| - 1], lo, lo', hi, hi');
    }
  }

  lemma {:induction false} RecentTwice(events: seq<int>, cut: int, later: int)
    requires cut <= later
    ensures Recent(Recent(events, cut), later) == Recent(events, later)
  {
    if events != [] {
      var n := |events| - 1;
      RecentTwice(events[..n], cut, later);
      RecentAppend(Recent(events[..n], cut), events[n], later);
      assert Recent(events[..n], cut) + [] == Recent(events[..n], cut);
      assert Recent(events[..n], later) + [] == Recent(events[..n], later);
    }
  }

  /** What the counter forgot lies outside the current window, nothing lies in the
      future, and no interval of the window's length ever held more than the limit. */
  ghost predicate Bounded(hits: seq<int>, granted: seq<int>, cap: Cap, now: int) {
    && Recent(hits, now - cap.window) == Recent(granted, now - cap.window)
    && (forall t :: t in granted ==> t <= now)
    && NeverOver(granted, cap)
  }

  ghost predicate NeverOver(granted: seq<int>, cap: Cap) {
    forall x :: InWindow(granted, cap.window, x) <= cap.limit
  }

  lemma AlikeLater(a: seq<int>, b: seq<int>, cut: int, later: int)
    requires Recent(a, cut) == Recent(b, cut) && cut <= later
    ensures Recent(a, later) == Recent(b, later)
  {
    RecentTwice(a, cut, later);
    RecentTwice(b, cut, later);
  }

  lemma LaterIsBounded(hits: seq<int>, granted: seq<int>, cap: Cap, past: int, now: int)
    requires Bounded(hits, granted, cap, past) && past <= now
    ensures Bounded(hits, granted, cap, now)
  {
    AlikeLater(hits, granted, past - cap.window, now - cap.window);
  }

  lemma GrantIsNotOver(granted: seq<int>, cap: Cap, now: int)
    requires NeverOver(granted, cap) && forall t :: t in granted ==> t <= now
    requires InWindow(granted, cap.window, now) < cap.limit
    ensures NeverOver(granted + [now], cap)
  {
    forall x
      ensures InWindow(granted + [now], cap.window, x) <= cap.limit
    {
      CountAppend(granted, now, x - cap.window, x);
      assert InWindow(granted, cap.window, x) <= cap.limit;
      if now <= x {
        CountIsRecent(granted, x - cap.window, x);
        CountIsRecent(granted, x - cap.window, now);
        CountShrinks(granted, now - cap.window, x - cap.window, now, now);
      }
    }
  }

  /** The counter's hits after the old ones are dropped are the grants in the window. */
  lemma KeptAreInWindow(hits: seq<int>, granted: seq<int>, cap: Cap, past: int, now: int)
    requires Bounded(hits, granted, cap, past) && past <= now
    ensures var kept := Recent(hits, now - cap.window);
      && kept == Recent(granted, now - cap.window) && Recent(kept, now - cap.window) == kept
      && |kept| == InWindow(granted, cap.window, now)
      && Bounded(kept, granted, cap, now)
  {
    LaterIsBounded(hits, granted, cap, past, now);
    CountIsRecent(granted, now - cap.window, now);
    RecentTwice(hits, now - cap.window, now - cap.window);
  }

  lemma RecentGrowsAlike(a: seq<int>, b: seq<int>, t: int, cut: int)
    requires Recent(a, cut) == Recent(b, cut)
    ensures Recent(a + [t], cut) == Recent(b + [t], cut)
  {
    RecentAppend(a, t, cut);
    RecentAppend(b, t, cut);
  }

  lemma NoneIsLater(events: seq<int>, now: int)
    requires forall t :: t in events ==> t <= now
    ensures forall t :: t in events + [now] ==> t <= now
  {
  }

  lemma MakesBounded(hits: seq<int>, granted: seq<int>, cap: Cap, now: int)
    requires Recent(hits, now - cap.window) == Recent(granted, now - cap.window) && NeverOver(granted, cap)
    requires forall t :: t in granted ==> t <= now
    ensures Bounded(hits, granted, cap, now)
  {
  }

  lemma GrantIsBounded(kept: seq<int>, granted: seq<int>, cap: Cap, now: int)
    requires Bounded(kept, granted, cap, now) && InWindow(granted, cap.window, now) < cap.limit
    ensures Bounded(kept + [now], granted + [now], cap, now)
  {
    RecentGrowsAlike(kept, granted, now, now - cap.window);
    NoneIsLater(granted, now);
    GrantIsNotOver(granted, cap, now);
    MakesBounded(kept + [now], granted + [now], cap, now);
  }

  lemma CallKeepsBound(hits: seq<int>, granted: seq<int>, cap: Cap, past: int, now: int)
    requires Bounded(hits, granted, cap, past) && past <= now
    ensures var kept := Recent(hits, now - cap.window);
      && |kept| == InWindow(granted, cap.window, now)
      && (|kept| < cap.limit ==> Bounded(kept + [now], granted + [now], cap, now))
      && Bounded(kept, granted, cap, now)
  {
    KeptAreInWindow(hits, granted, cap, past, now);
    var kept := Recent(hits, now - cap.window);
    if |kept| < cap.limit {
      GrantIsBounded(kept, granted, cap, now);
    }
  }

  /** What one call does to one key's hits and grants. */
  lemma StepAt(r: Run, c: Call, cap: Cap, key: string)
    ensures var r' := Step(r, c, cap);
      var hits, granted := HitsOf(r.hits, key), HitsOf(r.granted, key);
      var kept := Recent(hits, c.now - cap.window);
      if c.key != key then HitsOf(r'.hits, key) == hits && HitsOf(r'.granted, key) == granted
      else if |kept| < cap.limit
      then HitsOf(r'.hits, key) == kept + [c.now] && HitsOf(r'.granted, key) == granted + [c.now]
      else HitsOf(r'.hits, key) == kept && HitsOf(r'.granted, key) == granted
  {
  }

  lemma StepKeepsBound(r: Run, c: Call, cap: Cap, key: string, keyCap: Cap, past: int)
    requires Bounded(HitsOf(r.hits, key), HitsOf(r.granted, key), keyCap, past) && past <= c.now
    requires c.key == key ==> cap == keyCap
    ensures var r' := Step(r, c, cap);
      Bounded(HitsOf(r'.hits, key), HitsOf(r'.granted, key), keyCap, c.now)
  {
    StepAt(r, c, cap, key);
    if c.key != key {
      LaterIsBounded(HitsOf(r.hits, key), HitsOf(r.granted, key), keyCap, past, c.now);
    } else {
      CallKeepsBound(HitsOf(r.hits, key), HitsOf(r.granted, key), cap, past, c.now);
    }
  }

  lemma {:induction false} RunsAreBounded(calls: seq<Call>, caps: string -> Cap, key: string, now: int)
    requires Steady(calls) && caps(key).limit > 0
    requires forall i :: 0 <= i < |calls| ==> calls[i].now <= now
    ensures var r := After(calls, caps);
      Bounded(HitsOf(r.hits, key), HitsOf(r.granted, key), caps(key), now)
  {
    if calls != [] {
      var n := |calls| - 1;
      RunsAreBounded(calls[..n], caps, key, calls[n].now);
      var r := After(calls[..n], caps);
      StepKeepsBound(r, calls[n], caps(calls[n].key), key, caps(key), calls[n].now);
      var r' := Step(r, calls[n], caps(calls[n].key));
      assert r' == After(calls, caps);
      LaterIsBounded(HitsOf(r'.hits, key), HitsOf(r'.granted, key), caps(key), calls[n].now, now);
    }
  }

  /** Over any run with a clock that does not run backwards, whatever other keys are
      counted in between, no window ever holds more events than the limit. */
  lemma VolumeIsBounded(calls: seq<Call>, caps: string -> Cap, key: string, x: int)
    requires Steady(calls) && caps(key).limit > 0
    ensures InWindow(HitsOf(After(calls, caps).granted, key), caps(key).window, x) <= caps(key).limit
  {
    RunsAreBounded(calls, caps, key, if calls == [] then x else calls[|calls| - 1].now);
  }

  lemma StepRefusesIffFull(r: Run, c: Call, cap: Cap)
    requires Bounded(HitsOf(r.hits, c.key), HitsOf(r.granted, c.key), cap, c.now)
    ensures var granted := HitsOf(r.granted, c.key);
      HitsOf(Step(r, c, cap).granted, c.key) ==
        if InWindow(granted, cap.window, c.now) >= cap.limit then granted else granted + [c.now]
  {
    CallKeepsBound(HitsOf(r.hits, c.key), HitsOf(r.granted, c.key), cap, c.now, c.now);
  }

  /** The cap is exact: the next call is refused if and only if the window that ends
      now is already full. */
  lemma RefusedIffFull(calls: seq<Call>, caps: string -> Cap, c: Call)
    requires Steady(calls) && caps(c.key).limit > 0
    requires forall i :: 0 <= i < |calls| ==> calls[i].now <= c.now
    ensures var granted := HitsOf(After(calls, caps).granted, c.key);
      HitsOf(After(calls + [c], caps).granted, c.key) ==
        if InWindow(granted, caps(c.key).window, c.now) >= caps(c.key).limit then granted else granted + [c.now]
  {
    RunsAreBounded(calls, caps, c.key, c.now);
    StepRefusesIffFull(After(calls, caps), c, caps(c.key));
    assert (calls + [c])[..|calls|] == calls;
  }
}
