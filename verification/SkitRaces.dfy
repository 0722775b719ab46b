/** How a skit goes wrong on the in-process bus: a step overtakes the one before it on the
    way to a bot, which discards it and then waits for it. */
module SkitRaces {
  import opened Bus
  import opened Coordinator
  import opened SkitSystem
  import opened SkitProgress
  import opened SkitFanout

  // --- A bot that waits in vain ---

  ghost predicate IsAdvance(e: Event, f: Fleet, p: nat) {
    e.SkitAdvance? && e.step == p && e.nonce == f.c.nonce
  }

  /** The run has been started. */
  ghost predicate Started(l: Net, f: Fleet) {
    f.Proper() && f.c.nonce in l.s.skitOf && l.s.skitOf[f.c.nonce] == f.c.skit
  }

  ghost predicate Known(l: Net, f: Fleet) {
    Started(l, f) && Inv(l.s, f.c.scripts)
  }

  /** A bot at step p or before it, though no advance of step p will ever reach it. */
  ghost predicate StandsAt(l: Net, f: Fleet, b: string, p: nat) {
    && ((b, f.c.nonce) in l.s.begun ==> Performs(l.s, b, f.c.nonce))
    && (Performs(l.s, b, f.c.nonce) ==> l.s.bots[b][f.c.nonce].pc <= p && p !in l.s.bots[b][f.c.nonce].buffer)
  }

  /** A bot that has been past step p. */
  ghost predicate Past(l: Net, f: Fleet, b: string, p: nat) {
    && (b, f.c.nonce) in l.s.begun
    && (Performs(l.s, b, f.c.nonce) ==> l.s.bots[b][f.c.nonce].pc > p)
  }

  /** Every announcement of step p has been offered to subscriber y and is out of its inbox. */
  ghost predicate Missed(l: Net, f: Fleet, y: nat, p: nat)
    requires y < |f.subs|
  {
    && f.subs[y] in l.inbox
    && forall k :: 0 <= k < |l.s.log| && IsAdvance(l.s.log[k], f, p) ==>
         k < |l.sent| && l.sent[k] > y && k !in l.inbox[f.subs[y]]
  }

  ghost predicate Stuck(l: Net, f: Fleet, y: nat, p: nat) {
    && Known(l, f) && y < |f.subs| && p < |f.c.Script()| && f.c.Script()[p].bot != f.subs[y]
    && |l.sent| == |l.s.log|
    && StandsAt(l, f, f.subs[y], p) && Past(l, f, f.c.Script()[p].bot, p) && Missed(l, f, y, p)
  }

  lemma KnownStays(l: Net, f: Fleet, m: Move)
    requires Known(l, f) && Possible(l, f, m)
    ensures Known(Moved(l, f, m), f)
  {
    if m.Step? {
      StepKeeps(l.s, f.c.scripts, m.a);
    }
  }

  lemma PastStays(l: Net, f: Fleet, m: Move, b: string, p: nat)
    requires Known(l, f) && Possible(l, f, m) && Past(l, f, b, p)
    ensures Past(Moved(l, f, m), f, b, p)
  {
  }

  /** What is delivered to the bot leaves it where it stands. */
  lemma HearsNoSuch(l: Net, f: Fleet, m: Move, y: nat, p: nat)
    requires Started(l, f) && Possible(l, f, m) && y < |f.subs| && Missed(l, f, y, p)
    requires m.Step? && m.a.Deliver? && m.a.bot == f.subs[y] && StandsAt(l, f, f.subs[y], p)
    requires EventOk(l.s, f.c.scripts, l.s.log[m.a.i])
    ensures StandsAt(Moved(l, f, m), f, f.subs[y], p)
  {
  }

  /** What it does itself does not take it past step p either. */
  lemma DoesNotPass(l: Net, f: Fleet, m: Move, b: string, p: nat)
    requires Started(l, f) && Possible(l, f, m) && p < |f.c.Script()| && f.c.Script()[p].bot != b
    requires m.Step? && !m.a.Deliver? && m.a.bot == b && StandsAt(l, f, b, p)
    requires Performs(l.s, b, f.c.nonce) ==> l.s.bots[b][f.c.nonce].script == f.c.Script()
    ensures StandsAt(Moved(l, f, m), f, b, p)
  {
  }

  lemma StandsStill(l: Net, f: Fleet, m: Move, y: nat, p: nat)
    requires Stuck(l, f, y, p) && Possible(l, f, m)
    ensures StandsAt(Moved(l, f, m), f, f.subs[y], p)
  {
    var b, n := f.subs[y], f.c.nonce;
    if Performs(l.s, b, n) {
      assert PerfOk(l.s, f.c.scripts, b, n);
    }
    if m.Step? && m.a.Deliver? && m.a.bot == b {
      assert EventOk(l.s, f.c.scripts, l.s.log[m.a.i]);
      HearsNoSuch(l, f, m, y, p);
    } else if m.Step? && m.a.bot == b {
      DoesNotPass(l, f, m, b, p);
    }
  }

  lemma NoSuchAnnouncement(l: Net, f: Fleet, m: Move, y: nat, p: nat)
    requires Stuck(l, f, y, p) && Possible(l, f, m) && m.Step? && m.a.Announce?
    ensures Missed(Moved(l, f, m), f, y, p)
  {
    if m.a.nonce == f.c.nonce {
      assert PerfOk(l.s, f.c.scripts, m.a.bot, f.c.nonce);
    }
  }

  lemma NoSuchArrival(l: Net, f: Fleet, m: Move, y: nat, p: nat)
    requires f.Proper() && |l.sent| == |l.s.log| && y < |f.subs| && Missed(l, f, y, p)
    requires Possible(l, f, m) && !(m.Step? && m.a.Announce?)
    ensures Missed(Moved(l, f, m), f, y, p)
  {
  }

  lemma StaysMissed(l: Net, f: Fleet, m: Move, y: nat, p: nat)
    requires Stuck(l, f, y, p) && Possible(l, f, m)
    ensures Missed(Moved(l, f, m), f, y, p)
  {
    if m.Step? && m.a.Announce? {
      NoSuchAnnouncement(l, f, m, y, p);
    } else {
      NoSuchArrival(l, f, m, y, p);
    }
  }

  lemma StuckStays(l: Net, f: Fleet, m: Move, y: nat, p: nat)
    requires Stuck(l, f, y, p) && Possible(l, f, m)
    ensures Stuck(Moved(l, f, m), f, y, p)
  {
    KnownStays(l, f, m);
    PastStays(l, f, m, f.c.Script()[p].bot, p);
    StandsStill(l, f, m, y, p);
    StaysMissed(l, f, m, y, p);
  }

  lemma {:induction false} StuckForEver(l: Net, f: Fleet, moves: seq<Move>, l': Net, y: nat, p: nat)
    requires Stuck(l, f, y, p) && Runs(l, f, moves, l')
    ensures !Complete(l', f)
    decreases |moves|
  {
    if moves != [] {
      StuckStays(l, f, moves[0], y, p);
      StuckForEver(Moved(l, f, moves[0]), f, moves[1..], l', y, p);
    }
  }

  // --- A run in step ---

  const NOBODY: int := -1

  /** Event k of the log: the start, then one advance for each step. */
  function EventAt(f: Fleet, k: nat): Event
    requires f.c.Proper() && k <= |f.c.Script()|
  {
    var script := f.c.Script();
    if k == 0 then SkitStart(script[0].bot, f.c.skit, f.c.nonce)
    else SkitAdvance(script[k - 1].bot, f.c.skit, k - 1, f.c.nonce)
  }

  /** A bot that waits at step pc with nothing in its buffer. */
  function At(f: Fleet, pc: nat): Perfs
    requires f.c.Proper()
  {
    map[f.c.nonce := Perf(f.c.Script(), pc, false, [])]
  }

  /** Where a bot is that has not heard event k of the log, and one that has. */
  function Before(f: Fleet, b: string, k: nat): Perfs
    requires f.c.Proper() && k <= |f.c.Script()|
  {
    if k == 0 then map[] else At(f, if f.c.Script()[k - 1].bot == b then k else k - 1)
  }

  function Place(f: Fleet, b: string, k: nat, heard: bool): Perfs
    requires f.c.Proper() && k <= |f.c.Script()|
  {
    if heard then At(f, k) else Before(f, b, k)
  }

  ghost predicate LogIs(l: Net, f: Fleet, k: nat)
    requires f.c.Proper() && k <= |f.c.Script()|
  {
    && |l.s.log| == |l.sent| == k + 1
    && forall j :: 0 <= j <= k ==> l.s.log[j] == EventAt(f, j)
  }

  /** The first n places of the log. */
  function FirstEvents(n: nat): (q: seq<nat>)
    ensures |q| == n && forall i :: 0 <= i < n ==> q[i] == i
  {
    seq(n, i => i)
  }

  /** The first k events have been taken in by everyone. Of the next, s subscribers have
      been offered it and d have taken it in. Subscriber `nap`, if there is one, is a
      listener that takes nothing in. */
  ghost predicate Round(l: Net, f: Fleet, k: nat, s: nat, d: nat, nap: int) {
    && Started(l, f) && k <= |f.c.Script()| && d <= s <= |f.subs|
    && LogIs(l, f, k)
    && (forall j :: 0 <= j < k ==> l.sent[j] == |f.subs|) && l.sent[k] == s
    && forall x :: 0 <= x < |f.subs| ==> SeatOk(l, f, k, x, s, d, nap)
  }

  ghost predicate SeatOk(l: Net, f: Fleet, k: nat, x: nat, s: nat, d: nat, nap: int)
    requires f.c.Proper() && k <= |f.c.Script()| && x < |f.subs|
  {
    var b := f.subs[x];
    && b in l.inbox && b in l.s.bots
    && if x == nap then
         l.inbox[b] == FirstEvents(if x < s then k + 1 else k) && l.s.bots[b] == map[] && (b, f.c.nonce) !in l.s.begun
       else
         && l.inbox[b] == (if d <= x < s then [k] else []) && l.s.bots[b] == Place(f, b, k, x < d)
         && ((b, f.c.nonce) in l.s.begun <==> k > 0 || x < d)
  }

  /** Whoever naps has no line in the script. */
  ghost predicate MayNap(f: Fleet, nap: int)
    requires f.c.Proper()
  {
    0 <= nap < |f.subs| ==> forall i :: 0 <= i < |f.c.Script()| ==> f.c.Script()[i].bot != f.subs[nap]
  }

  lemma OpensRound(l: Net, f: Fleet, nap: int)
    requires Fresh(l, f)
    ensures Round(l, f, 0, 0, 0, nap)
  {
    OpeningIsOk(Stage(l.s, map b | b in l.inbox :: 0), f.c);
    forall x | 0 <= x < |f.subs|
      ensures SeatOk(l, f, 0, x, 0, 0, nap)
    {
      assert f.subs[x] in f.subs;
    }
  }

  lemma OneSeatMore(l: Net, f: Fleet, k: nat, s: nat, d: nat, nap: int, l': Net)
    requires Round(l, f, k, s, d, nap) && s < |f.subs| && (s == nap ==> k < INBOX)
    requires f.subs[s] in l.inbox && l' == Net(l.s, l.sent[k := s + 1],
                                               l.inbox[f.subs[s] := Offered(l.inbox[f.subs[s]], k)])
    ensures Round(l', f, k, s + 1, d, nap)
  {
    var s' := s + 1;
    forall x | 0 <= x < |f.subs|
      ensures SeatOk(l', f, k, x, s', d, nap)
    {
      assert SeatOk(l, f, k, x, s, d, nap);
    }
  }

  lemma SendOne(l: Net, f: Fleet, k: nat, s: nat, d: nat, nap: int) returns (l': Net)
    requires Round(l, f, k, s, d, nap) && s < |f.subs| && (s == nap ==> k < INBOX)
    ensures Leads(l, f, l') && Round(l', f, k, s + 1, d, nap)
  {
    assert SeatOk(l, f, k, s, s, d, nap);
    LeadsBy(l, f, Send(k));
    l' := Moved(l, f, Send(k));
    OneSeatMore(l, f, k, s, d, nap, l');
  }

  /** The next subscriber has taken the event in, and nothing else has changed. */
  ghost predicate TakenIn(l: Net, f: Fleet, k: nat, d: nat, l': Net)
    requires f.c.Proper() && k <= |f.c.Script()| && d < |f.subs|
  {
    var b := f.subs[d];
    && l'.s.log == l.s.log && l'.sent == l.sent
    && l'.inbox == l.inbox[b := []]
    && l'.s.bots == l.s.bots[b := At(f, k)]
    && l'.s.begun == l.s.begun + {(b, f.c.nonce)}
  }

  lemma NextSeat(l: Net, f: Fleet, k: nat, s: nat, d: nat, nap: int, l': Net)
    requires Round(l, f, k, s, d, nap) && d < s && d != nap && Started(l', f) && TakenIn(l, f, k, d, l')
    ensures Round(l', f, k, s, d + 1, nap)
  {
    var d' := d + 1;
    forall x | 0 <= x < |f.subs|
      ensures SeatOk(l', f, k, x, s, d', nap)
    {
      assert SeatOk(l, f, k, x, s, d, nap);
    }
  }

  /** A bot that has an advance waiting in its buffer. */
  function Holding(f: Fleet, pc: nat, step: nat): Perfs
    requires f.c.Proper()
  {
    map[f.c.nonce := Perf(f.c.Script(), pc, false, [step])]
  }

  lemma HearsOfOther(f: Fleet, b: string, k: nat)
    requires f.c.Proper() && 0 < k <= |f.c.Script()| && f.c.Script()[k - 1].bot != b
    ensures Heard(Before(f, b, k), b, f.c.scripts, EventAt(f, k)) == Holding(f, k - 1, k - 1)
  {
    assert Before(f, b, k)[f.c.nonce].buffer + [k - 1] == [k - 1];
  }

  lemma HearsStartOrEcho(f: Fleet, b: string, k: nat)
    requires f.c.Proper() && k <= |f.c.Script()| && (k > 0 ==> f.c.Script()[k - 1].bot == b)
    ensures Heard(Before(f, b, k), b, f.c.scripts, EventAt(f, k)) == At(f, k)
  {
  }

  lemma TakesHeld(f: Fleet, pc: nat, step: nat)
    requires f.c.Proper()
    ensures Took(Holding(f, pc, step), f.c.nonce) == At(f, if step == pc then pc + 1 else pc)
  {
    assert [step][1..] == [];
  }

  lemma Delivers(l: Net, f: Fleet, k: nat, s: nat, d: nat, nap: int) returns (l': Net)
    requires Round(l, f, k, s, d, nap) && d < s && d != nap
    ensures Leads(l, f, l') && Started(l', f) && l'.s.log == l.s.log && l'.sent == l.sent
    ensures l'.inbox == l.inbox[f.subs[d] := []]
    ensures l'.s.bots == l.s.bots[f.subs[d] := Heard(Before(f, f.subs[d], k), f.subs[d], f.c.scripts, EventAt(f, k))]
    ensures l'.s.begun == l.s.begun + {(f.subs[d], f.c.nonce)}
  {
    assert SeatOk(l, f, k, d, s, d, nap);
    var deliver := Step(Deliver(f.subs[d], k));
    LeadsBy(l, f, deliver);
    l' := Moved(l, f, deliver);
    assert [k][1..] == [];
  }

  /** An advance in the buffer of a bot whose turn it is not is taken out. */
  lemma Takes(l: Net, f: Fleet, b: string, pc: nat, step: nat) returns (l': Net)
    requires Started(l, f) && b in l.s.bots && l.s.bots[b] == Holding(f, pc, step) && !Busy(l, f, b)
    requires pc < |f.c.Script()| && f.c.Script()[pc].bot != b
    ensures Leads(l, f, l') && Started(l', f)
    ensures l' == l.(s := l.s.(bots := l.s.bots[b := At(f, if step == pc then pc + 1 else pc)]))
  {
    var take := Step(Take(b, f.c.nonce));
    LeadsBy(l, f, take);
    l' := Moved(l, f, take);
    TakesHeld(f, pc, step);
  }

  /** Only the owner of the step being announced is held up. */
  lemma NotHeldUp(l: Net, f: Fleet, k: nat, s: nat, d: nat, nap: int, b: string)
    requires Round(l, f, k, s, d, nap) && (k == 0 || s == |f.subs| || f.c.Script()[k - 1].bot != b)
    ensures !Busy(l, f, b)
  {
  }

  lemma SameBusy(l: Net, f: Fleet, b: string, l': Net)
    requires l'.s.log == l.s.log && l'.sent == l.sent
    ensures Busy(l', f, b) <==> Busy(l, f, b)
  {
  }

  lemma HearOther(l: Net, f: Fleet, k: nat, s: nat, d: nat, nap: int) returns (l': Net)
    requires Round(l, f, k, s, d, nap) && d < s && d != nap && k > 0 && f.c.Script()[k - 1].bot != f.subs[d]
    ensures Leads(l, f, l') && Started(l', f) && TakenIn(l, f, k, d, l')
  {
    var b := f.subs[d];
    var l1 := Delivers(l, f, k, s, d, nap);
    HearsOfOther(f, b, k);
    NotHeldUp(l, f, k, s, d, nap, b);
    SameBusy(l, f, b, l1);
    l' := Takes(l1, f, b, k - 1, k - 1);
    LeadsOn(l, f, l1, l');
    assert l.s.bots[b := Holding(f, k - 1, k - 1)][b := At(f, k)] == l.s.bots[b := At(f, k)];
  }

  /** A napping listener is passed over. */
  lemma NapsOn(l: Net, f: Fleet, k: nat, s: nat, d: nat, nap: int)
    requires Round(l, f, k, s, d, nap) && d < s && d == nap
    ensures Round(l, f, k, s, d + 1, nap)
  {
    var d' := d + 1;
    forall x | 0 <= x < |f.subs|
      ensures SeatOk(l, f, k, x, s, d', nap)
    {
      assert SeatOk(l, f, k, x, s, d, nap);
    }
  }

  lemma HearOne(l: Net, f: Fleet, k: nat, s: nat, d: nat, nap: int) returns (l': Net)
    requires Round(l, f, k, s, d, nap) && d < s
    ensures Leads(l, f, l') && Round(l', f, k, s, d + 1, nap)
  {
    var b := f.subs[d];
    if d == nap {
      l' := l;
      LeadsHere(l, f);
      NapsOn(l, f, k, s, d, nap);
    } else {
      if k > 0 && f.c.Script()[k - 1].bot != b {
        l' := HearOther(l, f, k, s, d, nap);
      } else {
        l' := Delivers(l, f, k, s, d, nap);
        HearsStartOrEcho(f, b, k);
      }
      NextSeat(l, f, k, s, d, nap, l');
    }
  }

  lemma {:induction false} Fill(l: Net, f: Fleet, k: nat, s: nat, d: nat, nap: int, s': nat) returns (l': Net)
    requires Round(l, f, k, s, d, nap) && s <= s' <= |f.subs| && (s <= nap < s' ==> k < INBOX)
    ensures Leads(l, f, l') && Round(l', f, k, s', s', nap)
    decreases s' - s, s' - d
  {
    if s < s' {
      var l1 := SendOne(l, f, k, s, d, nap);
      l' := Fill(l1, f, k, s + 1, d, nap, s');
      LeadsOn(l, f, l1, l');
    } else if d < s {
      var l1 := HearOne(l, f, k, s, d, nap);
      l' := Fill(l1, f, k, s, d + 1, nap, s');
      LeadsOn(l, f, l1, l');
    } else {
      l' := l;
      LeadsHere(l, f);
    }
  }

  /** Step k is said and its announcement begun. */
  ghost predicate Announces(l: Net, f: Fleet, k: nat, l': Net)
    requires f.c.Proper() && k < |f.c.Script()|
  {
    var b := f.c.Script()[k].bot;
    && l'.s.log == l.s.log + [EventAt(f, k + 1)] && l'.sent == l.sent + [0] && l'.inbox == l.inbox
    && l'.s.bots == l.s.bots[b := At(f, k + 1)] && l'.s.begun == l.s.begun
  }

  /** A bot that has said its line and not announced it. */
  function Spoken(f: Fleet, k: nat): Perfs
    requires f.c.Proper()
  {
    map[f.c.nonce := Perf(f.c.Script(), k, true, [])]
  }

  lemma SpeaksLine(l: Net, f: Fleet, k: nat, b: string) returns (l': Net)
    requires Started(l, f) && k < |f.c.Script()| && b == f.c.Script()[k].bot
    requires b in l.s.bots && l.s.bots[b] == At(f, k) && !Busy(l, f, b)
    ensures Leads(l, f, l') && Started(l', f) && !Busy(l', f, b)
    ensures l'.s.log == l.s.log && l'.sent == l.sent && l'.inbox == l.inbox && l'.s.begun == l.s.begun
    ensures l'.s.bots == l.s.bots[b := Spoken(f, k)]
  {
    var speak := Step(Speak(b, f.c.nonce));
    LeadsBy(l, f, speak);
    l' := Moved(l, f, speak);
    assert Spoke(At(f, k), f.c.nonce) == Spoken(f, k);
  }

  lemma AnnouncesLine(l: Net, f: Fleet, k: nat, b: string) returns (l': Net)
    requires Started(l, f) && k < |f.c.Script()| && b == f.c.Script()[k].bot
    requires b in l.s.bots && l.s.bots[b] == Spoken(f, k) && !Busy(l, f, b)
    ensures Leads(l, f, l') && Started(l', f) && Announces(l, f, k, l')
  {
    var announce := Step(Announce(b, f.c.nonce));
    LeadsBy(l, f, announce);
    l' := Moved(l, f, announce);
    assert Announced(Spoken(f, k), f.c.nonce) == At(f, k + 1);
  }

  lemma SpeakUp(l: Net, f: Fleet, k: nat, b: string) returns (l': Net)
    requires Started(l, f) && k < |f.c.Script()| && b == f.c.Script()[k].bot
    requires b in l.s.bots && l.s.bots[b] == At(f, k) && !Busy(l, f, b)
    ensures Leads(l, f, l') && Started(l', f) && Announces(l, f, k, l')
  {
    var l1 := SpeaksLine(l, f, k, b);
    l' := AnnouncesLine(l1, f, k, b);
    LeadsOn(l, f, l1, l');
    assert l.s.bots[b := Spoken(f, k)][b := At(f, k + 1)] == l.s.bots[b := At(f, k + 1)];
  }

  lemma NextSeats(l: Net, f: Fleet, k: nat, nap: int, l': Net)
    requires Round(l, f, k, |f.subs|, |f.subs|, nap) && k < |f.c.Script()| && MayNap(f, nap)
    requires Started(l', f) && Announces(l, f, k, l')
    ensures Round(l', f, k + 1, 0, 0, nap)
  {
    var n, k' := |f.subs|, k + 1;
    forall x | 0 <= x < n
      ensures SeatOk(l', f, k', x, 0, 0, nap)
    {
      assert SeatOk(l, f, k, x, n, n, nap);
    }
  }

  lemma NextRound(l: Net, f: Fleet, k: nat, nap: int) returns (l': Net)
    requires Round(l, f, k, |f.subs|, |f.subs|, nap) && k < |f.c.Script()| && MayNap(f, nap)
    ensures Leads(l, f, l') && Round(l', f, k + 1, 0, 0, nap)
  {
    var n, b := |f.subs|, f.c.Script()[k].bot;
    assert b in f.subs;
    var x :| 0 <= x < n && f.subs[x] == b;
    assert SeatOk(l, f, k, x, n, n, nap);
    NotHeldUp(l, f, k, n, n, nap, b);
    l' := SpeakUp(l, f, k, b);
    NextSeats(l, f, k, nap, l');
  }

  lemma OneRound(l: Net, f: Fleet, k: nat, nap: int) returns (l': Net)
    requires Round(l, f, k, 0, 0, nap) && k < |f.c.Script()| && MayNap(f, nap)
    requires 0 <= nap < |f.subs| ==> k < INBOX
    ensures Leads(l, f, l') && Round(l', f, k + 1, 0, 0, nap)
  {
    var l1 := Fill(l, f, k, 0, 0, nap, |f.subs|);
    l' := NextRound(l1, f, k, nap);
    LeadsOn(l, f, l1, l');
  }

  /** The fleet can play the script in step as far as one likes. */
  lemma {:induction false} InStepTo(l: Net, f: Fleet, j: nat, k: nat, nap: int) returns (l': Net)
    requires Round(l, f, j, 0, 0, nap) && j <= k <= |f.c.Script()| && MayNap(f, nap)
    requires 0 <= nap < |f.subs| ==> k <= INBOX
    ensures Leads(l, f, l') && Round(l', f, k, 0, 0, nap)
    decreases k - j
  {
    if j == k {
      l' := l;
      LeadsHere(l, f);
    } else {
      var l1 := OneRound(l, f, j, nap);
      l' := InStepTo(l1, f, j + 1, k, nap);
      LeadsOn(l, f, l1, l');
    }
  }

  // --- The race ---

  /** Step k can overtake the event before it: its owner, subscriber x, is served earlier
      than subscriber y, who waits for that event. */
  ghost predicate Racy(f: Fleet, k: nat, x: nat, y: nat)
    requires f.c.Proper()
  {
    && k < |f.c.Script()| && x < y < |f.subs| && f.c.Script()[k].bot == f.subs[x]
    && (k > 0 ==> f.c.Script()[k - 1].bot != f.subs[x] && f.c.Script()[k - 1].bot != f.subs[y])
  }

  /** Event k has been offered to the owner of step k but not to subscriber y; the owner has
      announced its step to z subscribers. */
  ghost predicate Overtaking(l: Net, f: Fleet, k: nat, x: nat, y: nat, z: nat) {
    && Started(l, f) && Racy(f, k, x, y) && z <= y + 1
    && LogIs(l, f, k + 1) && (forall j :: 0 <= j < k ==> l.sent[j] == |f.subs|) && l.sent[k + 1] == z
    && (forall j :: 0 <= j < |f.subs| ==> f.subs[j] in l.inbox)
    && l.inbox[f.subs[y]] == (if z <= y then [] else [k + 1])
    && f.subs[y] in l.s.bots && l.s.bots[f.subs[y]] == Before(f, f.subs[y], k)
    && ((f.subs[y], f.c.nonce) in l.s.begun <==> k > 0)
    && f.subs[x] in l.s.bots && l.s.bots[f.subs[x]] == At(f, k + 1) && (f.subs[x], f.c.nonce) in l.s.begun
  }

  lemma RaceBegins(l: Net, f: Fleet, k: nat, x: nat, y: nat) returns (l': Net)
    requires f.c.Proper() && Racy(f, k, x, y) && Round(l, f, k, x + 1, x + 1, NOBODY)
    ensures Leads(l, f, l') && Overtaking(l', f, k, x, y, 0)
  {
    var s := x + 1;
    assert SeatOk(l, f, k, x, s, s, NOBODY) && SeatOk(l, f, k, y, s, s, NOBODY);
    NotHeldUp(l, f, k, s, s, NOBODY, f.subs[x]);
    l' := SpeakUp(l, f, k, f.subs[x]);
    forall j | 0 <= j < |f.subs|
      ensures f.subs[j] in l'.inbox
    {
      assert SeatOk(l, f, k, j, s, s, NOBODY);
    }
  }

  lemma {:induction false} RaceRuns(l: Net, f: Fleet, k: nat, x: nat, y: nat, z: nat) returns (l': Net)
    requires Overtaking(l, f, k, x, y, z)
    ensures Leads(l, f, l') && Overtaking(l', f, k, x, y, y + 1)
    decreases y + 1 - z
  {
    if z == y + 1 {
      l' := l;
      LeadsHere(l, f);
    } else {
      LeadsBy(l, f, Send(k + 1));
      var l1 := Moved(l, f, Send(k + 1));
      l' := RaceRuns(l1, f, k, x, y, z + 1);
      LeadsOn(l, f, l1, l');
    }
  }

  lemma OvertakenIsFree(l: Net, f: Fleet, k: nat, x: nat, y: nat)
    requires Overtaking(l, f, k, x, y, y + 1) && k > 0
    ensures !Busy(l, f, f.subs[y])
  {
  }

  lemma HearsTooEarly(f: Fleet, b: string, k: nat)
    requires f.c.Proper() && k < |f.c.Script()| && f.c.Script()[k].bot != b
    requires k > 0 ==> f.c.Script()[k - 1].bot != b
    ensures Heard(Before(f, b, k), b, f.c.scripts, EventAt(f, k + 1)) == if k == 0 then map[] else Holding(f, k - 1, k)
  {
    if k > 0 {
      assert Before(f, b, k)[f.c.nonce].buffer + [k] == [k];
    }
  }

  /** The race has been lost: from Overtaking to its end. */
  ghost predicate Lost(l: Net, f: Fleet, y: nat, l': Net)
    requires y < |f.subs|
  {
    && l'.s.log == l.s.log && l'.sent == l.sent && l'.s.begun == l.s.begun
    && l'.inbox == l.inbox[f.subs[y] := []] && l'.s.bots == l.s.bots
  }

  /** The overtaken bot is offered the step, which it ignores or discards. */
  lemma RaceIsLost(l: Net, f: Fleet, k: nat, x: nat, y: nat) returns (l': Net)
    requires Overtaking(l, f, k, x, y, y + 1)
    ensures Leads(l, f, l') && Started(l', f) && Lost(l, f, y, l')
  {
    var b := f.subs[y];
    assert [k + 1][1..] == [];
    HearsTooEarly(f, b, k);
    var deliver := Step(Deliver(b, k + 1));
    LeadsBy(l, f, deliver);
    l' := Moved(l, f, deliver);
    if k > 0 {
      OvertakenIsFree(l, f, k, x, y);
      var l1 := l';
      assert Busy(l1, f, b) <==> Busy(l, f, b);
      l' := Takes(l1, f, b, k - 1, k);
      LeadsOn(l, f, l1, l');
    }
  }

  lemma LostIsMissed(l: Net, f: Fleet, k: nat, x: nat, y: nat, l': Net)
    requires Overtaking(l, f, k, x, y, y + 1) && Lost(l, f, y, l')
    ensures Missed(l', f, y, k) && |l'.sent| == |l'.s.log|
  {
    forall j | 0 <= j < |l'.s.log| && IsAdvance(l'.s.log[j], f, k)
      ensures j == k + 1
    {
      assert l'.s.log[j] == EventAt(f, j);
    }
  }

  lemma LostStands(l: Net, f: Fleet, k: nat, x: nat, y: nat, l': Net)
    requires Overtaking(l, f, k, x, y, y + 1) && Lost(l, f, y, l')
    ensures StandsAt(l', f, f.subs[y], k) && Past(l', f, f.subs[x], k)
  {
  }

  lemma {:induction false} KnownAlways(l: Net, f: Fleet, moves: seq<Move>, l': Net)
    requires Known(l, f) && Runs(l, f, moves, l')
    ensures Known(l', f)
    decreases |moves|
  {
    if moves != [] {
      KnownStays(l, f, moves[0]);
      KnownAlways(Moved(l, f, moves[0]), f, moves[1..], l');
    }
  }

  lemma RaceEnds(l: Net, f: Fleet, k: nat, x: nat, y: nat) returns (l': Net)
    requires f.c.Proper() && Racy(f, k, x, y) && Round(l, f, k, x + 1, x + 1, NOBODY)
    ensures Leads(l, f, l') && |l'.sent| == |l'.s.log|
    ensures StandsAt(l', f, f.subs[y], k) && Past(l', f, f.subs[x], k) && Missed(l', f, y, k)
  {
    var l1 := RaceBegins(l, f, k, x, y);
    var l2 := RaceRuns(l1, f, k, x, y, 0);
    l' := RaceIsLost(l2, f, k, x, y);
    LeadsOn(l, f, l1, l2);
    LeadsOn(l, f, l2, l');
    LostIsMissed(l2, f, k, x, y, l');
    LostStands(l2, f, k, x, y, l');
  }

  lemma RaceCanBegin(l: Net, f: Fleet, k: nat, s: nat) returns (l': Net)
    requires Fresh(l, f) && k <= |f.c.Script()| && s <= |f.subs|
    ensures Leads(l, f, l') && Round(l', f, k, s, s, NOBODY)
  {
    OpensRound(l, f, NOBODY);
    var l1 := InStepTo(l, f, 0, k, NOBODY);
    l' := Fill(l1, f, k, 0, 0, NOBODY, s);
    LeadsOn(l, f, l1, l');
  }

  lemma RaceCanBeRun(l: Net, f: Fleet, k: nat, x: nat, y: nat) returns (l': Net)
    requires Fresh(l, f) && Racy(f, k, x, y)
    ensures Leads(l, f, l') && |l'.sent| == |l'.s.log|
    ensures StandsAt(l', f, f.subs[y], k) && Past(l', f, f.subs[x], k) && Missed(l', f, y, k)
  {
    var l1 := RaceCanBegin(l, f, k, x + 1);
    l' := RaceEnds(l1, f, k, x, y);
    LeadsOn(l, f, l1, l');
  }

  lemma KnownAtFirst(l: Net, f: Fleet, l': Net)
    requires Fresh(l, f) && Leads(l, f, l')
    ensures Known(l', f)
  {
    OpeningIsOk(Stage(l.s, map b | b in l.inbox :: 0), f.c);
    var moves :| Runs(l, f, moves, l');
    KnownAlways(l, f, moves, l');
  }

  /** Wherever a step can overtake the one before it, some run leaves a bot waiting for ever. */
  lemma RacesAreLost(l: Net, f: Fleet, k: nat, x: nat, y: nat) returns (l': Net)
    requires Fresh(l, f) && Racy(f, k, x, y)
    ensures Leads(l, f, l') && forall l'' :: Leads(l', f, l'') ==> !Complete(l'', f)
  {
    l' := RaceCanBeRun(l, f, k, x, y);
    KnownAtFirst(l, f, l');
    forall l'' | Leads(l', f, l'')
      ensures !Complete(l'', f)
    {
      var more :| Runs(l', f, more, l'');
      StuckForEver(l', f, more, l'', y, k);
    }
  }

  // --- An inbox that overflows ---

  /** A listener that takes nothing in is offered one event more than its inbox holds. */
  lemma InboxFills(l: Net, f: Fleet, y: nat) returns (l': Net)
    requires Fresh(l, f) && y < |f.subs| && |f.c.Script()| >= INBOX && MayNap(f, y)
    ensures Leads(l, f, l') && Round(l', f, INBOX, y, y, y)
  {
    OpensRound(l, f, y);
    var l1 := InStepTo(l, f, 0, INBOX, y);
    l' := Fill(l1, f, INBOX, 0, 0, y, y);
    LeadsOn(l, f, l1, l');
  }

  lemma OverflowIsMissed(l: Net, f: Fleet, y: nat, l': Net)
    requires y < |f.subs| && Round(l, f, INBOX, y, y, y)
    requires l'.s == l.s && l'.inbox == l.inbox && l'.sent == l.sent[INBOX := y + 1]
    ensures StandsAt(l', f, f.subs[y], INBOX - 1) && Missed(l', f, y, INBOX - 1) && |l'.sent| == |l'.s.log|
  {
    assert SeatOk(l, f, INBOX, y, y, y, y);
    forall j | 0 <= j < |l'.s.log| && IsAdvance(l'.s.log[j], f, INBOX - 1)
      ensures j == INBOX
    {
      assert l'.s.log[j] == EventAt(f, j);
    }
  }

  lemma OwnerIsPast(l: Net, f: Fleet, k: nat, s: nat, d: nat, nap: int)
    requires Round(l, f, k, s, d, nap) && k > 0 && MayNap(f, nap)
    ensures Past(l, f, f.c.Script()[k - 1].bot, k - 1)
  {
    var b := f.c.Script()[k - 1].bot;
    assert b in f.subs;
    var x :| 0 <= x < |f.subs| && f.subs[x] == b;
    assert SeatOk(l, f, k, x, s, d, nap);
  }

  lemma Overflows(l: Net, f: Fleet, y: nat) returns (l': Net)
    requires y < |f.subs| && Round(l, f, INBOX, y, y, y) && MayNap(f, y)
    ensures Leads(l, f, l') && |l'.sent| == |l'.s.log|
    ensures StandsAt(l', f, f.subs[y], INBOX - 1) && Missed(l', f, y, INBOX - 1)
    ensures Past(l', f, f.c.Script()[INBOX - 1].bot, INBOX - 1)
  {
    assert SeatOk(l, f, INBOX, y, y, y, y);
    OwnerIsPast(l, f, INBOX, y, y, y);
    LeadsBy(l, f, Send(INBOX));
    l' := Moved(l, f, Send(INBOX));
    assert l.inbox[f.subs[y] := l.inbox[f.subs[y]]] == l.inbox;
    OverflowIsMissed(l, f, y, l');
  }

  lemma OverflowCanHappen(l: Net, f: Fleet, y: nat) returns (l': Net)
    requires Fresh(l, f) && y < |f.subs| && |f.c.Script()| >= INBOX && MayNap(f, y)
    ensures Leads(l, f, l') && |l'.sent| == |l'.s.log|
    ensures StandsAt(l', f, f.subs[y], INBOX - 1) && Missed(l', f, y, INBOX - 1)
    ensures Past(l', f, f.c.Script()[INBOX - 1].bot, INBOX - 1)
  {
    var l1 := InboxFills(l, f, y);
    l' := Overflows(l1, f, y);
    LeadsOn(l, f, l1, l');
  }

  /** Where somebody only listens, a script longer than an inbox has room for can be lost. */
  lemma LongScriptsAreLost(l: Net, f: Fleet, y: nat) returns (l': Net)
    requires Fresh(l, f) && y < |f.subs| && |f.c.Script()| >= INBOX && MayNap(f, y)
    ensures Leads(l, f, l') && forall l'' :: Leads(l', f, l'') ==> !Complete(l'', f)
  {
    l' := OverflowCanHappen(l, f, y);
    KnownAtFirst(l, f, l');
    forall l'' | Leads(l', f, l'')
      ensures !Complete(l'', f)
    {
      var more :| Runs(l', f, more, l'');
      StuckForEver(l', f, more, l'', y, INBOX - 1);
    }
  }
}
