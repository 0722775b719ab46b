/** A skit on the in-process bus as it is: publishing is a loop over the subscribers, in
    the order in which they subscribed, and between two rounds of it anything can happen.
    Two bots can then hear two steps in opposite orders, and whoever hears a step before
    the one it waits for discards it. A skit led by the last subscriber and shared with
    nobody but the one before it is safe from this. */
module SkitFanout {
  import opened Bus
  import opened Coordinator
  import opened SkitSystem
  import opened SkitProgress

  /** A run, and its bots in the order in which they subscribed. */
  datatype Fleet = Fleet(c: Cast, subs: seq<string>) {
    ghost predicate Proper() {
      && c.Proper()
      && (forall i, j :: 0 <= i < j < |subs| ==> subs[i] != subs[j])
      && forall i :: 0 <= i < |c.Script()| ==> c.Script()[i].bot in subs
    }
  }

  /** The bots, how many subscribers each event of the log has been offered to so far,
      and the inboxes, whose events are given by their place in the log. */
  datatype Net = Net(s: System, sent: seq<nat>, inbox: map<string, seq<nat>>)

  /** A bot does something, or the loop that publishes an event goes one round. */
  datatype Move = Step(a: Action) | Send(k: nat)

  /** Whether a bot's performance is held up in a call to Publish. */
  predicate Busy(l: Net, f: Fleet, b: string) {
    exists k :: 0 <= k < |l.s.log| && k < |l.sent| && l.sent[k] < |f.subs| &&
                l.s.log[k].SkitAdvance? && l.s.log[k].from == b
  }

  predicate Possible(l: Net, f: Fleet, m: Move) {
    match m
    case Send(k) => k < |l.sent| && l.sent[k] < |f.subs| && f.subs[l.sent[k]] in l.inbox
    case Step(a) =>
      && Enabled(l.s, f.c.scripts, a)
      && match a
         case Start(_, _, _) => false
         case Deliver(b, i) => b in l.inbox && l.inbox[b] != [] && l.inbox[b][0] == i
         case End(b, n) => l.s.bots[b][n].Done() && !Busy(l, f, b)
         case _ => !Busy(l, f, a.bot)
  }

  function Moved(l: Net, f: Fleet, m: Move): Net
    requires Possible(l, f, m)
  {
    match m
    case Send(k) =>
      var b := f.subs[l.sent[k]];
      Net(l.s, l.sent[k := l.sent[k] + 1], l.inbox[b := Offered(l.inbox[b], k)])
    case Step(a) =>
      Net(Do(l.s, f.c.scripts, a),
          if a.Announce? then l.sent + [0] else l.sent,
          if a.Deliver? then l.inbox[a.bot := l.inbox[a.bot][1..]] else l.inbox)
  }

  ghost predicate Runs(l: Net, f: Fleet, moves: seq<Move>, l': Net)
    decreases |moves|
  {
    if moves == [] then l == l'
    else Possible(l, f, moves[0]) && Runs(Moved(l, f, moves[0]), f, moves[1..], l')
  }

  ghost predicate Leads(l: Net, f: Fleet, l': Net) {
    exists moves :: Runs(l, f, moves, l')
  }

  /** The skit's lead has just called Publish to start the run. */
  ghost predicate Fresh(l: Net, f: Fleet) {
    && f.Proper()
    && Opening(Stage(l.s, map b | b in l.inbox :: 0), f.c)
    && l.sent == [0]
    && (forall b :: b in l.inbox <==> b in f.subs)
    && forall b :: b in l.inbox ==> l.inbox[b] == []
  }

  /** The whole script has been said, and everyone has performed it to its end. */
  ghost predicate Complete(l: Net, f: Fleet)
    requires f.c.Proper()
  {
    && Said(l.s, f.c.nonce) == Recital(f.c.Script())
    && forall b :: b in f.subs ==> (b, f.c.nonce) in l.s.begun && !Performs(l.s, b, f.c.nonce)
  }

  /** However the run has gone so far, it can still be completed. */
  ghost predicate Assured(l: Net, f: Fleet)
    requires f.c.Proper()
  {
    forall l' :: Leads(l, f, l') ==> exists l'' :: Leads(l', f, l'') && Complete(l'', f)
  }

  predicate SpeaksLast(f: Fleet, b: string)
    requires |f.subs| > 0
  {
    b == f.subs[|f.subs| - 1] || (|f.subs| > 1 && b == f.subs[|f.subs| - 2])
  }

  /** The last subscriber leads the skit, and only the one before it speaks besides. */
  ghost predicate LastTwo(f: Fleet)
    requires f.Proper()
  {
    && f.c.Script()[0].bot == f.subs[|f.subs| - 1]
    && forall i :: 0 <= i < |f.c.Script()| ==> SpeaksLast(f, f.c.Script()[i].bot)
  }

  /** The start and all the advances fit an inbox, or there is nobody to wait for any. */
  predicate Fits(f: Fleet)
    requires f.c.Proper()
  {
    |f.c.Script()| < 64 || |f.subs| == 1
  }

  lemma LeadsHere(l: Net, f: Fleet)
    ensures Leads(l, f, l)
  {
    assert Runs(l, f, [], l);
  }

  lemma RunsOn(l: Net, f: Fleet, moves: seq<Move>, l1: Net, l': Net)
    requires moves != [] && Possible(l, f, moves[0]) && l1 == Moved(l, f, moves[0]) && Runs(l1, f, moves[1..], l')
    ensures Runs(l, f, moves, l')
  {
  }

  lemma LeadsBy(l: Net, f: Fleet, m: Move)
    requires Possible(l, f, m)
    ensures Leads(l, f, Moved(l, f, m))
  {
    var l' := Moved(l, f, m);
    assert Runs(l', f, [m][1..], l');
    RunsOn(l, f, [m], l', l');
  }

  lemma LeadsFirst(l: Net, f: Fleet, m: Move, l1: Net, l': Net)
    requires Possible(l, f, m) && l1 == Moved(l, f, m) && Leads(l1, f, l')
    ensures Leads(l, f, l')
  {
    var moves :| Runs(l1, f, moves, l');
    assert ([m] + moves)[1..] == moves;
    RunsOn(l, f, [m] + moves, l1, l');
  }

  lemma {:induction false} LeadsFurther(l: Net, f: Fleet, moves: seq<Move>, l': Net, l'': Net)
    requires Runs(l, f, moves, l') && Leads(l', f, l'')
    ensures Leads(l, f, l'')
    decreases |moves|
  {
    if moves != [] {
      var l1 := Moved(l, f, moves[0]);
      LeadsFurther(l1, f, moves[1..], l', l'');
      LeadsFirst(l, f, moves[0], l1, l'');
    }
  }

  lemma LeadsOn(l: Net, f: Fleet, l': Net, l'': Net)
    requires Leads(l, f, l') && Leads(l', f, l'')
    ensures Leads(l, f, l'')
  {
    var moves :| Runs(l, f, moves, l');
    LeadsFurther(l, f, moves, l', l'');
  }
}
