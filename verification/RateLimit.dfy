/** The outbound token bucket. Clock readings are whole nanoseconds, handed in by
    the caller; tokens are exact reals. */
module RateLimit {

  const NANOS: real := 1000000000.0

  /** The limiter's state as a value. Tokens may be negative: that is debt. */
  datatype Bucket = Bucket(tokens: real, burst: real, rate: real, last: int) {
    ghost predicate Sane() { burst >= 1.0 && rate > 0.0 && tokens <= burst }
  }

  /** Tokens earned over dt nanoseconds. */
  function Worth(rate: real, dt: real): real {
    dt / NANOS * rate
  }

  function NewBucket(burst: int, perSecond: real, now: int): Bucket {
    var b := if burst < 1 then 1.0 else burst as real;
    Bucket(b, b, if perSecond <= 0.0 then 1.0 else perSecond, now)
  }

  function Refilled(b: Bucket, t: int): Bucket {
    if t <= b.last then b
    else
      var more := b.tokens + Worth(b.rate, (t - b.last) as real);
      b.(tokens := if more > b.burst then b.burst else more, last := t)
  }

  function Spent(b: Bucket): Bucket {
    b.(tokens := b.tokens - 1.0)
  }

  /** How long, exactly, a bucket left with `tokens` asks its caller to wait. */
  function ExactWait(tokens: real, rate: real): real
    requires rate > 0.0
  {
    if tokens >= 0.0 then 0.0 else (-tokens) / rate * NANOS
  }

  class Limiter {
    var tokens: real
    var burst: real
    var rate: real
    var last: int

    ghost function Model(): Bucket
      reads this
    {
      Bucket(tokens, burst, rate, last)
    }

    constructor (burst: int, perSecond: real, now: int)
      ensures Model() == NewBucket(burst, perSecond, now)
      ensures this.tokens == this.burst == if burst < 1 then 1.0 else burst as real
      ensures this.rate == (if perSecond <= 0.0 then 1.0 else perSecond) && this.last == now
    {
      var b := if burst < 1 then 1 else burst;
      this.tokens := b as real;
      this.burst := b as real;
      this.rate := if perSecond <= 0.0 then 1.0 else perSecond;
      this.last := now;
    }

    method Refill(t: int)
      modifies this`tokens, this`last
      ensures Model() == Refilled(old(Model()), t)
      ensures t <= old(last) ==> last == old(last) && tokens == old(tokens)
      ensures t > old(last) ==>
                var more := old(tokens) + rate * (t - old(last)) as real / 1000000000.0;
                last == t && tokens == if more > burst then burst else more
    {
      if t - last > 0 {
        WorthIs(rate, (t - last) as real);
        tokens := tokens + Worth(rate, (t - last) as real);
        if tokens > burst {
          tokens := burst;
        }
        last := t;
      }
    }

    method Allow(now: int) returns (ok: bool)
      modifies this`tokens, this`last
      ensures ok <==> Refilled(old(Model()), now).tokens >= 1.0
      ensures Model() == if ok then Spent(Refilled(old(Model()), now)) else Refilled(old(Model()), now)
    {
      Refill(now);
      if tokens >= 1.0 {
        tokens := tokens - 1.0;
        return true;
      }
      return false;
    }

    /** The wait is truncated to whole nanoseconds. */
    method Reserve(now: int) returns (wait: int)
      requires rate > 0.0
      modifies this`tokens, this`last
      ensures Model() == Spent(Refilled(old(Model()), now))
      ensures wait == ExactWait(Model().tokens, rate).Floor
    {
      Refill(now);
      tokens := tokens - 1.0;
      if tokens >= 0.0 {
        return 0;
      }
      var deficit := -tokens;
      wait := (deficit / rate * NANOS).Floor;
    }
  }

  // --- Runs ---

  datatype Call = Allow(now: int) | Reserve(now: int)

  /** A message let through: when it was asked for, and the tokens it left. */
  datatype Grant = Grant(now: int, left: real)

  datatype Run = Run(bucket: Bucket, grants: seq<Grant>)

  function Step(r: Run, c: Call): Run {
    var full := Refilled(r.bucket, c.now);
    if c.Allow? && full.tokens < 1.0 then r.(bucket := full)
    else Run(Spent(full), r.grants + [Grant(c.now, full.tokens - 1.0)])
  }

  function After(b: Bucket, calls: seq<Call>): Run {
    if calls == [] then Run(b, []) else Step(After(b, calls[..|calls| - 1]), calls[|calls| - 1])
  }

  /** A clock that never runs backwards, from the limiter's creation on. */
  ghost predicate Steady(start: int, calls: seq<Call>) {
    && (forall i :: 0 <= i < |calls| ==> start <= calls[i].now)
    && forall i, j :: 0 <= i < j < |calls| ==> calls[i].now <= calls[j].now
  }

  /** The exact instant at which a grant may go out. */
  ghost function Release(g: Grant, rate: real): real
    requires rate > 0.0
  {
    g.now as real + ExactWait(g.left, rate)
  }

  /** The instant the caller of Reserve computes from the truncated wait. */
  ghost function ClockRelease(g: Grant, rate: real): int
    requires rate > 0.0
  {
    g.now + ExactWait(g.left, rate).Floor
  }

  lemma WorthIs(rate: real, dt: real)
    ensures Worth(rate, dt) == rate * dt / 1000000000.0
  {
  }

  lemma WorthAdds(rate: real, a: real, b: real)
    ensures Worth(rate, a + b) == Worth(rate, a) + Worth(rate, b)
  {
    assert (a + b) / NANOS * rate == (a / NANOS) * rate + (b / NANOS) * rate;
  }

  lemma WorthGrows(rate: real, a: real)
    requires rate > 0.0
    ensures a >= 0.0 ==> Worth(rate, a) >= 0.0
    ensures a > 0.0 ==> Worth(rate, a) > 0.0
    ensures a < 0.0 ==> Worth(rate, a) < 0.0
  {
  }

  lemma WaitPaysDebt(tokens: real, rate: real)
    requires rate > 0.0
    ensures ExactWait(tokens, rate) >= 0.0
    ensures Worth(rate, ExactWait(tokens, rate)) == if tokens >= 0.0 then 0.0 else -tokens
  {
  }

  /** What is left to spend at t, seen from a past grant: the burst, plus what has
      been earned since, less the `count` grants from that one on. */
  ghost function Room(b: Bucket, since: Grant, count: int, t: real): real {
    b.burst + Worth(b.rate, t - since.now as real) - count as real
  }

  /** The bucket holds exactly the least room over all past grants. */
  ghost predicate LeastRoom(r: Run) {
    var b, g := r.bucket, r.grants;
    && (forall i :: 0 <= i < |g| ==> b.tokens <= Room(b, g[i], |g| - i, b.last as real))
    && (b.tokens == b.burst || exists i :: 0 <= i < |g| && b.tokens == Room(b, g[i], |g| - i, b.last as real))
  }

  /** Debt is never forgiven: what is left now is at most what grant i left, plus
      earnings, less the grants since. */
  ghost predicate DebtKept(r: Run) {
    var b, g := r.bucket, r.grants;
    forall i :: 0 <= i < |g| ==>
      b.tokens <= g[i].left + Worth(b.rate, (b.last - g[i].now) as real) - (|g| - 1 - i) as real
  }

  ghost predicate Recorded(r: Run) {
    var b, g := r.bucket, r.grants;
    && (forall i :: 0 <= i < |g| ==> g[i].now <= b.last && g[i].left <= b.burst - 1.0)
    && (forall i, j :: 0 <= i < j < |g| ==>
          && g[i].now <= g[j].now
          && g[j].left <= g[i].left + Worth(b.rate, (g[j].now - g[i].now) as real) - (j - i) as real)
  }

  ghost predicate Good(r: Run) {
    r.bucket.Sane() && LeastRoom(r) && DebtKept(r) && Recorded(r)
  }

  lemma RefillKeeps(r: Run, t: int)
    requires Good(r) && r.bucket.last <= t
    ensures Good(r.(bucket := Refilled(r.bucket, t)))
    ensures Refilled(r.bucket, t).last == t
  {
    if r.bucket.last < t {
      var earned := Worth(r.bucket.rate, (t - r.bucket.last) as real);
      WorthGrows(r.bucket.rate, (t - r.bucket.last) as real);
      RefillKeepsRoom(r, t, earned);
      RefillKeepsDebt(r, t, earned);
      RefillKeepsRecord(r, t);
    }
  }

  lemma RefillKeepsRecord(r: Run, t: int)
    requires r.bucket.Sane() && Recorded(r) && r.bucket.last < t
    ensures Refilled(r.bucket, t).Sane() && Recorded(r.(bucket := Refilled(r.bucket, t)))
  {
  }

  lemma RefillKeepsRoom(r: Run, t: int, earned: real)
    requires r.bucket.Sane() && LeastRoom(r) && r.bucket.last < t
    requires earned == Worth(r.bucket.rate, (t - r.bucket.last) as real) > 0.0
    ensures LeastRoom(r.(bucket := Refilled(r.bucket, t)))
  {
  }

  lemma RefillKeepsDebt(r: Run, t: int, earned: real)
    requires DebtKept(r) && r.bucket.last < t
    requires earned == Worth(r.bucket.rate, (t - r.bucket.last) as real)
    ensures DebtKept(r.(bucket := Refilled(r.bucket, t)))
  {
  }

  ghost function Spend(r: Run): Run {
    Run(Spent(r.bucket), r.grants + [Grant(r.bucket.last, r.bucket.tokens - 1.0)])
  }

  lemma SpendKeeps(r: Run)
    requires Good(r)
    ensures Good(Spend(r))
  {
    SpendKeepsRoom(r);
    SpendKeepsDebt(r);
    SpendKeepsRecord(r);
  }

  lemma SpendKeepsRoom(r: Run)
    requires r.bucket.Sane() && LeastRoom(r)
    ensures LeastRoom(Spend(r))
  {
    var b, g, b', g' := r.bucket, r.grants, Spend(r).bucket, Spend(r).grants;
    var n, now := |g|, b.last as real;
    assert Room(b', g'[n], |g'| - n, now) == b.burst - 1.0 by {
      assert now - b.last as real == 0.0;
    }
    forall i | 0 <= i < n
      ensures Room(b', g'[i], |g'| - i, now) == Room(b, g[i], |g| - i, now) - 1.0
    {
      assert g'[i] == g[i];
    }
    if b.tokens != b.burst {
      var i :| 0 <= i < n && b.tokens == Room(b, g[i], |g| - i, now);
      assert b'.tokens == Room(b', g'[i], |g'| - i, now);
    }
  }

  lemma SpendKeepsDebt(r: Run)
    requires DebtKept(r)
    ensures DebtKept(Spend(r))
  {
  }

  lemma SpendKeepsRecord(r: Run)
    requires r.bucket.Sane() && DebtKept(r) && Recorded(r)
    ensures Recorded(Spend(r))
  {
  }

  lemma {:induction false} RunsAreGood(burst: int, perSecond: real, start: int, calls: seq<Call>)
    requires Steady(start, calls)
    ensures var b := NewBucket(burst, perSecond, start); var r := After(b, calls);
      && Good(r) && r.bucket.burst == b.burst && r.bucket.rate == b.rate
      && r.bucket.last == if calls == [] then start else calls[|calls| - 1].now
  {
    if calls != [] {
      var n := |calls| - 1;
      var b := NewBucket(burst, perSecond, start);
      RunsAreGood(burst, perSecond, start, calls[..n]);
      var r := After(b, calls[..n]);
      RefillKeeps(r, calls[n].now);
      SpendKeeps(r.(bucket := Refilled(r.bucket, calls[n].now)));
    }
  }

  /** The pace of two grants, n apart, from what each left and when. */
  lemma PairIsPaced(burst: real, rate: real, x: Grant, y: Grant, n: int)
    requires rate > 0.0 && burst >= 1.0 && x.now <= y.now && x.left <= burst - 1.0
    requires if n == 0 then x == y else y.left <= x.left + Worth(rate, (y.now - x.now) as real) - n as real
    requires n >= 0
    ensures Release(x, rate) <= Release(y, rate)
    ensures (n + 1) as real <= burst + Worth(rate, Release(y, rate) - Release(x, rate))
  {
    var wx, wy := ExactWait(x.left, rate), ExactWait(y.left, rate);
    var dt := (y.now - x.now) as real;
    WaitPaysDebt(x.left, rate);
    WaitPaysDebt(y.left, rate);
    WorthAdds(rate, wy - wx, wx);
    WorthAdds(rate, dt, wy - wx);
    assert Release(y, rate) - Release(x, rate) == dt + (wy - wx);
    WorthGrows(rate, dt);
    WorthGrows(rate, dt + (wy - wx));
  }

  lemma GrantsAreKept(burst: int, perSecond: real, start: int, calls: seq<Call>, i: nat, j: nat, rate: real)
    requires Steady(start, calls) && rate == if perSecond <= 0.0 then 1.0 else perSecond
    requires i <= j < |After(NewBucket(burst, perSecond, start), calls).grants|
    ensures var g := After(NewBucket(burst, perSecond, start), calls).grants;
      && g[i].now <= g[j].now && g[i].left <= (if burst < 1 then 1 else burst) as real - 1.0
      && (i < j ==> g[j].left <= g[i].left + Worth(rate, (g[j].now - g[i].now) as real) - (j - i) as real)
  {
    RunsAreGood(burst, perSecond, start, calls);
  }

  /** The n grants from x to y are released in order, and there are no more of them than the
      burst and what the rate earns between the two releases. */
  ghost predicate Paced(x: Grant, y: Grant, n: int, most: int, rate: real)
    requires rate > 0.0
  {
    && Release(x, rate) <= Release(y, rate)
    && n as real <= most as real + rate * (Release(y, rate) - Release(x, rate)) / 1000000000.0
  }

  /** The same for the truncated waits, up to one nanosecond. */
  ghost predicate ClockPaced(x: Grant, y: Grant, n: int, most: int, rate: real)
    requires rate > 0.0
  {
    && ClockRelease(x, rate) <= ClockRelease(y, rate)
    && n as real <= most as real + rate * (ClockRelease(y, rate) - ClockRelease(x, rate) + 1) as real / 1000000000.0
  }

  lemma KeptIsPaced(x: Grant, y: Grant, n: int, most: int, rate: real)
    requires rate > 0.0 && most >= 1 && x.now <= y.now && x.left <= most as real - 1.0 && n >= 0
    requires if n == 0 then x == y else y.left <= x.left + Worth(rate, (y.now - x.now) as real) - n as real
    ensures Paced(x, y, n + 1, most, rate)
  {
    PairIsPaced(most as real, rate, x, y, n);
    WorthIsPace(x, y, n + 1, most, rate, Worth(rate, Release(y, rate) - Release(x, rate)));
  }

  lemma WorthIsPace(x: Grant, y: Grant, n: int, most: int, rate: real, worth: real)
    requires rate > 0.0 && worth == Worth(rate, Release(y, rate) - Release(x, rate))
    requires Release(x, rate) <= Release(y, rate) && n as real <= most as real + worth
    ensures Paced(x, y, n, most, rate)
  {
    WorthIs(rate, Release(y, rate) - Release(x, rate));
  }

  lemma LongerEarnsMore(rate: real, a: real, b: real)
    requires rate > 0.0 && a <= b
    ensures rate * a / 1000000000.0 <= rate * b / 1000000000.0
  {
    WorthIs(rate, a);
    WorthIs(rate, b);
    WorthAdds(rate, a, b - a);
    WorthGrows(rate, b - a);
  }

  lemma TruncationCosts(x: Grant, y: Grant, n: int, most: int, rate: real)
    requires rate > 0.0 && Paced(x, y, n, most, rate)
    ensures ClockPaced(x, y, n, most, rate)
  {
    var ex, ey, rx, ry := Release(x, rate), Release(y, rate), ClockRelease(x, rate), ClockRelease(y, rate);
    assert rx as real <= ex < rx as real + 1.0 && ry as real <= ey < ry as real + 1.0;
    LongerEarnsMore(rate, ey - ex, (ry - rx + 1) as real);
  }

  /** Released messages keep their order, and any stretch of grants i..j is within the burst
      the caller asked for plus what the rate it asked for earns between their releases,
      debt or no debt. A burst below 1 counts as 1, a rate that is not positive as 1 a second. */
  lemma ReleasesArePaced(burst: int, perSecond: real, start: int, calls: seq<Call>, i: nat, j: nat)
    requires Steady(start, calls)
    requires i <= j < |After(NewBucket(burst, perSecond, start), calls).grants|
    ensures var most, rate := if burst < 1 then 1 else burst, if perSecond <= 0.0 then 1.0 else perSecond;
      var g := After(NewBucket(burst, perSecond, start), calls).grants;
      Paced(g[i], g[j], j - i + 1, most, rate)
  {
    var most, rate := if burst < 1 then 1 else burst, if perSecond <= 0.0 then 1.0 else perSecond;
    var g := After(NewBucket(burst, perSecond, start), calls).grants;
    GrantsAreKept(burst, perSecond, start, calls, i, j, rate);
    KeptIsPaced(g[i], g[j], j - i, most, rate);
  }

  /** The same for the truncated waits the program really uses: order is kept
      exactly, and truncation costs at most one nanosecond's worth of tokens. */
  lemma ClockReleasesArePaced(burst: int, perSecond: real, start: int, calls: seq<Call>, i: nat, j: nat)
    requires Steady(start, calls)
    requires i <= j < |After(NewBucket(burst, perSecond, start), calls).grants|
    ensures var most, rate := if burst < 1 then 1 else burst, if perSecond <= 0.0 then 1.0 else perSecond;
      var g := After(NewBucket(burst, perSecond, start), calls).grants;
      ClockPaced(g[i], g[j], j - i + 1, most, rate)
  {
    var most, rate := if burst < 1 then 1 else burst, if perSecond <= 0.0 then 1.0 else perSecond;
    var g := After(NewBucket(burst, perSecond, start), calls).grants;
    ReleasesArePaced(burst, perSecond, start, calls, i, j);
    TruncationCosts(g[i], g[j], j - i + 1, most, rate);
  }

  /** A message may go out at r, as far as the past grants are concerned: from any
      of them on, the burst plus the earnings up to r cover one more. */
  ghost predicate Lawful(most: real, rate: real, g: seq<Grant>, r: real) {
    forall i :: 0 <= i < |g| ==> (|g| - i + 1) as real <= most + rate * (r - g[i].now as real) / 1000000000.0
  }

  /** The limiter is never stricter than the law it enforces: Reserve releases at
      the earliest instant from now on that keeps it... */
  lemma ReserveIsEarliest(burst: int, perSecond: real, start: int, calls: seq<Call>, now: int, r: real)
    requires Steady(start, calls + [Reserve(now)])
    requires now as real <= r
    ensures var most, rate := if burst < 1 then 1 else burst, if perSecond <= 0.0 then 1.0 else perSecond;
      var run := After(NewBucket(burst, perSecond, start), calls);
      var asked := Step(run, Reserve(now)).grants;
      && |asked| == |run.grants| + 1 && asked[..|run.grants|] == run.grants
      && (Release(asked[|run.grants|], rate) <= r <==> Lawful(most as real, rate, run.grants, r))
  {
    var run := FullBefore(burst, perSecond, start, calls, Reserve(now));
    EarliestFrom(run.(bucket := Refilled(run.bucket, now)), r);
  }

  /** ... and Allow refuses exactly the calls that would break it. */
  lemma AllowIffLawful(burst: int, perSecond: real, start: int, calls: seq<Call>, now: int)
    requires Steady(start, calls + [Allow(now)])
    ensures var most, rate := if burst < 1 then 1 else burst, if perSecond <= 0.0 then 1.0 else perSecond;
      var run := After(NewBucket(burst, perSecond, start), calls);
      |Step(run, Allow(now)).grants| ==
        |run.grants| + if Lawful(most as real, rate, run.grants, now as real) then 1 else 0
  {
    var run := FullBefore(burst, perSecond, start, calls, Allow(now));
    LawfulIsLeastRoom(run.(bucket := Refilled(run.bucket, now)), now as real);
    assert Worth(run.bucket.rate, now as real - now as real) == 0.0;
  }

  lemma FullBefore(burst: int, perSecond: real, start: int, calls: seq<Call>, c: Call) returns (run: Run)
    requires Steady(start, calls + [c])
    ensures run == After(NewBucket(burst, perSecond, start), calls)
    ensures Good(run.(bucket := Refilled(run.bucket, c.now))) && Refilled(run.bucket, c.now).last == c.now
    ensures run.bucket.burst == (if burst < 1 then 1 else burst) as real
    ensures run.bucket.rate == if perSecond <= 0.0 then 1.0 else perSecond
  {
    var all := calls + [c];
    assert all[|calls|] == c && forall i :: 0 <= i < |calls| ==> all[i] == calls[i];
    RunsAreGood(burst, perSecond, start, calls);
    run := After(NewBucket(burst, perSecond, start), calls);
    RefillKeeps(run, c.now);
  }

  lemma EarliestFrom(full: Run, r: real)
    requires Good(full) && full.bucket.last as real <= r
    ensures Release(Grant(full.bucket.last, full.bucket.tokens - 1.0), full.bucket.rate) <= r
            <==> Lawful(full.bucket.burst, full.bucket.rate, full.grants, r)
  {
    var b := full.bucket;
    var spare := r - b.last as real;
    WaitIsEnough(b.tokens - 1.0, b.rate, spare);
    LawfulIsLeastRoom(full, r);
  }

  lemma WaitIsEnough(left: real, rate: real, spare: real)
    requires rate > 0.0 && spare >= 0.0
    ensures ExactWait(left, rate) <= spare <==> left + Worth(rate, spare) >= 0.0
  {
  }

  /** Each past grant leaves room for one more, with what is earned until it goes out. */
  ghost predicate RoomForOne(full: Run, earned: real) {
    var b, g := full.bucket, full.grants;
    forall i :: 0 <= i < |g| ==> Room(b, g[i], |g| - i, b.last as real) - 1.0 + earned >= 0.0
  }

  lemma LawIsRoom(b: Bucket, since: Grant, n: int, r: real, earned: real)
    requires earned == Worth(b.rate, r - b.last as real)
    ensures (n + 1) as real <= b.burst + b.rate * (r - since.now as real) / 1000000000.0
            <==> Room(b, since, n, b.last as real) - 1.0 + earned >= 0.0
  {
    WorthIs(b.rate, r - since.now as real);
    WorthAdds(b.rate, b.last as real - since.now as real, r - b.last as real);
  }

  lemma LawfulIsRoomForOne(full: Run, r: real, earned: real)
    requires earned == Worth(full.bucket.rate, r - full.bucket.last as real)
    ensures Lawful(full.bucket.burst, full.bucket.rate, full.grants, r) <==> RoomForOne(full, earned)
  {
    var b, g := full.bucket, full.grants;
    forall i | 0 <= i < |g|
      ensures (|g| - i + 1) as real <= b.burst + b.rate * (r - g[i].now as real) / 1000000000.0
              <==> Room(b, g[i], |g| - i, b.last as real) - 1.0 + earned >= 0.0
    {
      LawIsRoom(b, g[i], |g| - i, r, earned);
    }
  }

  lemma RoomForOneIff(full: Run, earned: real)
    requires full.bucket.Sane() && LeastRoom(full) && earned >= 0.0
    ensures RoomForOne(full, earned) <==> full.bucket.tokens - 1.0 + earned >= 0.0
  {
  }

  lemma LawfulIsLeastRoom(full: Run, r: real)
    requires full.bucket.Sane() && LeastRoom(full) && full.bucket.last as real <= r
    ensures Lawful(full.bucket.burst, full.bucket.rate, full.grants, r)
            <==> full.bucket.tokens - 1.0 + Worth(full.bucket.rate, r - full.bucket.last as real) >= 0.0
  {
    var earned := Worth(full.bucket.rate, r - full.bucket.last as real);
    WorthGrows(full.bucket.rate, r - full.bucket.last as real);
    LawfulIsRoomForOne(full, r, earned);
    RoomForOneIff(full, earned);
  }
}
