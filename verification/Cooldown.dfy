/** Per-key cooldowns. The clock reading is handed in by the caller. */
module Cooldown {

  type Stamps = map<string, int>

  predicate IsReady(last: Stamps, key: string, d: int, now: int) {
    key in last ==> now - last[key] >= d
  }

  /** The stamps after a use, and whether the key fired. */
  function Used(last: Stamps, key: string, d: int, now: int): (Stamps, bool) {
    if IsReady(last, key, d, now) then (last[key := now], true) else (last, false)
  }

  class Manager {
    var last: Stamps

    constructor ()
      ensures last == map[]
    {
      last := map[];
    }

    method Ready(key: string, d: int, now: int) returns (ready: bool)
      ensures ready <==> key !in last || now - last[key] >= d
    {
      if key !in last {
        return true;
      }
      return now - last[key] >= d;
    }

    method Use(key: string, d: int, now: int) returns (fired: bool)
      modifies this
      ensures (last, fired) == Used(old(last), key, d, now)
      ensures fired <==> key !in old(last) || now - old(last)[key] >= d
      ensures last == if fired then old(last)[key := now] else old(last)
    {
      if key in last && now - last[key] < d {
        return false;
      }
      last := last[key := now];
      return true;
    }
  }

  // --- Runs ---

  datatype Attempt = Attempt(key: string, now: int)

  /** The stamps, and every firing so far, oldest first. */
  datatype Run = Run(last: Stamps, fired: seq<Attempt>)

  function Step(r: Run, a: Attempt, d: int): Run {
    var (last, ok) := Used(r.last, a.key, d, a.now);
    Run(last, if ok then r.fired + [a] else r.fired)
  }

  /** The stamps are the latest firings, and firings of one key lie d apart. */
  ghost predicate Spaced(r: Run, d: int) {
    && (forall i :: 0 <= i < |r.fired| ==> r.fired[i].key in r.last && r.fired[i].now <= r.last[r.fired[i].key])
    && (forall k :: k in r.last ==> Attempt(k, r.last[k]) in r.fired)
    && (forall i, j :: 0 <= i < j < |r.fired| && r.fired[i].key == r.fired[j].key ==>
          r.fired[j].now - r.fired[i].now >= d)
  }

  /** No attempt breaks the spacing, even if the clock jumps backwards, and one that
      does not fire has a firing of its key less than d before it. */
  lemma StepKeepsSpacing(r: Run, a: Attempt, d: int)
    requires Spaced(r, d) && d >= 0
    ensures Spaced(Step(r, a, d), d)
    ensures Step(r, a, d).fired == r.fired ==>
              exists f :: f in r.fired && f.key == a.key && a.now - f.now < d
  {
    var r' := Step(r, a, d);
    if IsReady(r.last, a.key, d, a.now) {
      assert r'.fired == r.fired + [a];
      assert |r'.fired| != |r.fired|;
      forall k | k in r'.last
        ensures Attempt(k, r'.last[k]) in r'.fired
      {
        if k != a.key {
          assert Attempt(k, r.last[k]) in r.fired;
        } else {
          assert a == Attempt(k, r'.last[k]) && r'.fired[|r.fired|] == a;
        }
      }
    } else {
      assert Attempt(a.key, r.last[a.key]) in r.fired;
    }
  }
}
