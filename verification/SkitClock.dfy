/** The timing of a skit: who reaches which step when, and whether anybody gives up waiting
    before the step comes. Times are in seconds since the skit was started. */
module SkitClock {
  import opened Coordinator

  const STEP_WAIT_TIMEOUT: real := 30.0

  /** The script, the delay set for each of its steps, and the bots that perform it. */
  datatype Tempo = Tempo(script: Script, delays: seq<real>, crew: set<string>) {
    ghost predicate Proper() {
      |delays| == |script| && forall i :: 0 <= i < |script| ==> script[i].bot in crew
    }

    predicate Owns(b: string, i: nat) {
      i < |script| && script[i].bot == b
    }

    /** How long the owner of a step holds it back. */
    function Held(i: nat): (d: real)
      requires i < |delays|
      ensures d >= 0.0
    {
      if delays[i] > 0.0 then delays[i] else 0.0
    }
  }

  /** How long the start, for k = 0, and the advance of step k - 1 take to a bot. */
  type Lag = (string, nat) -> real

  function Later(a: real, b: real): real {
    if a < b then b else a
  }

  /** When a bot comes to step i: its own step ends with its announcement, somebody else's
      with the advance, which may have been waiting for it. */
  function Reach(t: Tempo, lag: Lag, b: string, i: nat): real
    requires t.Proper() && i <= |t.script|
    decreases 2 * i
  {
    if i == 0 then lag(b, 0)
    else if t.Owns(b, i - 1) then Announced(t, lag, i - 1)
    else Later(Reach(t, lag, b, i - 1), Announced(t, lag, i - 1) + lag(b, i))
  }

  function Announced(t: Tempo, lag: Lag, i: nat): real
    requires t.Proper() && i < |t.script|
    decreases 2 * i + 1
  {
    Reach(t, lag, t.script[i].bot, i) + t.Held(i)
  }

  /** When step i could have begun: at the start, or when the one before it was announced. */
  function Since(t: Tempo, lag: Lag, i: nat): real
    requires t.Proper() && i <= |t.script|
  {
    if i == 0 then 0.0 else Announced(t, lag, i - 1)
  }

  /** How long a bot waits for somebody else's step. */
  function Waits(t: Tempo, lag: Lag, b: string, i: nat): real
    requires t.Proper() && i < |t.script|
  {
    Announced(t, lag, i) + lag(b, i + 1) - Reach(t, lag, b, i)
  }

  /** Nobody's timer goes off; one that goes off just as the advance comes may be the one
      that is heard. */
  ghost predicate InTime(t: Tempo, lag: Lag)
    requires t.Proper()
  {
    forall b, i: nat :: b in t.crew && i < |t.script| && !t.Owns(b, i) ==> Waits(t, lag, b, i) < STEP_WAIT_TIMEOUT
  }

  /** Nothing takes longer than `most`. */
  ghost predicate Prompt(lag: Lag, most: real) {
    forall b, k :: 0.0 <= lag(b, k) <= most
  }

  /** Events come to every bot in the order in which they were published. */
  ghost predicate Ordered(t: Tempo, lag: Lag)
    requires t.Proper()
  {
    forall b, i: nat :: i < |t.script| ==> Since(t, lag, i) + lag(b, i) <= Announced(t, lag, i) + lag(b, i + 1)
  }

  /** Nobody is further behind a step than one event takes. */
  lemma {:induction false} ReachIsPrompt(t: Tempo, lag: Lag, most: real, b: string, i: nat)
    requires t.Proper() && Prompt(lag, most) && i <= |t.script|
    ensures Since(t, lag, i) <= Reach(t, lag, b, i) <= Since(t, lag, i) + most
    ensures i > 0 && t.Owns(b, i - 1) ==> Reach(t, lag, b, i) == Since(t, lag, i)
    decreases i
  {
    assert 0.0 <= lag(b, i) <= most;
    if i > 0 {
      ReachIsPrompt(t, lag, most, b, i - 1);
      ReachIsPrompt(t, lag, most, t.script[i - 1].bot, i - 1);
    }
  }

  /** Whether the owner of a step has to be told that it can begin: it has announced the one
      before itself, or it has not. */
  predicate GoesRightOn(t: Tempo, i: nat)
    requires i < |t.script|
  {
    i > 0 && t.script[i - 1].bot == t.script[i].bot
  }

  /** What the events can add to a wait: one comes to whoever waits, and unless the owner
      goes right on, one to the owner before. */
  function Slack(t: Tempo, most: real, i: nat): real
    requires i < |t.script|
  {
    if GoesRightOn(t, i) then most else most + most
  }

  ghost predicate IsAwaited(t: Tempo, i: nat) {
    exists b :: b in t.crew && !t.Owns(b, i)
  }

  lemma WaitIsBounded(t: Tempo, lag: Lag, most: real, b: string, i: nat)
    requires t.Proper() && Prompt(lag, most) && i < |t.script|
    ensures Waits(t, lag, b, i) <= t.Held(i) + Slack(t, most, i)
  {
    ReachIsPrompt(t, lag, most, b, i);
    ReachIsPrompt(t, lag, most, t.script[i].bot, i);
    assert lag(b, i + 1) <= most;
  }

  // --- The slowest way ---

  /** Everything comes at once until step i, which its owner hears of late, and whose advance
      comes late to the others. */
  function Slow(t: Tempo, most: real, i: nat): Lag
    requires i < |t.script|
  {
    (b: string, k: nat) => if k > i || (k == i && t.script[i].bot == b) then most else 0.0
  }

  lemma SlowIsLawful(t: Tempo, most: real, i: nat)
    requires t.Proper() && most >= 0.0 && i < |t.script|
    ensures Prompt(Slow(t, most, i), most) && Ordered(t, Slow(t, most, i))
  {
    var lag := Slow(t, most, i);
    forall b, j: nat | j < |t.script|
      ensures Since(t, lag, j) + lag(b, j) <= Announced(t, lag, j) + lag(b, j + 1)
    {
      ReachIsPrompt(t, lag, most, t.script[j].bot, j);
    }
  }

  /** Who has heard of everything at once comes to a step as soon as it can begin. */
  lemma {:induction false} ReachAtOnce(t: Tempo, lag: Lag, most: real, b: string, i: nat)
    requires t.Proper() && Prompt(lag, most) && i <= |t.script| && forall k :: 0 <= k <= i ==> lag(b, k) == 0.0
    ensures Reach(t, lag, b, i) == Since(t, lag, i)
  {
    if i > 0 {
      ReachAtOnce(t, lag, most, b, i - 1);
      ReachIsPrompt(t, lag, most, t.script[i - 1].bot, i - 1);
      assert lag(b, i) == 0.0;
    }
  }

  lemma SlowOwnerIsLate(t: Tempo, most: real, i: nat, lag: Lag, o: string)
    requires t.Proper() && most >= 0.0 && i < |t.script| && lag == Slow(t, most, i) && o == t.script[i].bot
    requires Prompt(lag, most)
    ensures Reach(t, lag, o, i) == if GoesRightOn(t, i) then Since(t, lag, i) else Since(t, lag, i) + most
  {
    if i > 0 && !GoesRightOn(t, i) {
      ReachAtOnce(t, lag, most, o, i - 1);
      ReachIsPrompt(t, lag, most, t.script[i - 1].bot, i - 1);
      assert Since(t, lag, i - 1) <= Announced(t, lag, i - 1);
    }
  }

  lemma SlowWaits(t: Tempo, most: real, b: string, i: nat)
    requires t.Proper() && most >= 0.0 && i < |t.script| && !t.Owns(b, i)
    ensures Waits(t, Slow(t, most, i), b, i) == t.Held(i) + Slack(t, most, i)
  {
    var lag := Slow(t, most, i);
    SlowIsLawful(t, most, i);
    SlowOwnerIsLate(t, most, i, lag, t.script[i].bot);
    ReachAtOnce(t, lag, most, b, i);
    assert lag(b, i + 1) == most;
  }

  lemma InTimeIffSlack(t: Tempo, most: real)
    requires t.Proper() && most >= 0.0
    ensures (forall lag :: Prompt(lag, most) && Ordered(t, lag) ==> InTime(t, lag))
            <==> forall i: nat :: i < |t.script| && IsAwaited(t, i) ==>
                   t.Held(i) + Slack(t, most, i) < STEP_WAIT_TIMEOUT
  {
    if forall i: nat :: i < |t.script| && IsAwaited(t, i) ==> t.Held(i) + Slack(t, most, i) < STEP_WAIT_TIMEOUT {
      forall lag, b, i: nat | Prompt(lag, most) && b in t.crew && i < |t.script| && !t.Owns(b, i)
        ensures Waits(t, lag, b, i) < STEP_WAIT_TIMEOUT
      {
        WaitIsBounded(t, lag, most, b, i);
      }
    } else {
      var i: nat :| i < |t.script| && IsAwaited(t, i) && t.Held(i) + Slack(t, most, i) >= STEP_WAIT_TIMEOUT;
      var b :| b in t.crew && !t.Owns(b, i);
      var lag := Slow(t, most, i);
      SlowIsLawful(t, most, i);
      SlowWaits(t, most, b, i);
      assert Prompt(lag, most) && Ordered(t, lag) && !InTime(t, lag);
    }
  }

  /** What the longest wait for a step comes to. */
  lemma LongestWait(t: Tempo, most: real, i: nat)
    requires t.Proper() && i < |t.script|
    ensures t.Held(i) + Slack(t, most, i) ==
            (if t.delays[i] > 0.0 then t.delays[i] else 0.0) +
            if i > 0 && t.script[i - 1].bot == t.script[i].bot then most else 2.0 * most
  {
  }

  /** However long the events take, up to `most` and in order, nobody gives up on a step,
      exactly if each awaited step is held back for less than thirty seconds less what the
      events before it can take: one, if its owner also has the step before, else two. */
  lemma InTimeIff(t: Tempo, most: real)
    requires t.Proper() && most >= 0.0
    ensures (forall lag :: Prompt(lag, most) && Ordered(t, lag) ==> InTime(t, lag))
            <==> forall i: nat :: i < |t.script| && IsAwaited(t, i) ==>
                   (if t.delays[i] > 0.0 then t.delays[i] else 0.0) +
                   (if i > 0 && t.script[i - 1].bot == t.script[i].bot then most else 2.0 * most) < 30.0
  {
    InTimeIffSlack(t, most);
    forall i: nat | i < |t.script|
      ensures t.Held(i) + Slack(t, most, i) ==
              (if t.delays[i] > 0.0 then t.delays[i] else 0.0) +
              if i > 0 && t.script[i - 1].bot == t.script[i].bot then most else 2.0 * most
    {
      LongestWait(t, most, i);
    }
  }
}
