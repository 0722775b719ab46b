/** Why a skit of the last two subscribers cannot go wrong on the in-process bus: everyone
    is offered the events that matter to them in the order of the log, so that the fleet
    behaves as on an ordered bus. */
module SkitOrder {
  import opened Bus
  import opened Coordinator
  import opened SkitSystem
  import opened SkitProgress
  import opened SkitFanout

  /** A bot ignores its own advances. */
  predicate Matters(e: Event, b: string) {
    e.SkitStart? || e.from != b
  }

  /** How many events subscriber j has been offered. */
  function CountSent(sent: seq<nat>, j: nat): nat {
    if sent == [] then 0 else CountSent(sent[..|sent| - 1], j) + if sent[|sent| - 1] > j then 1 else 0
  }

  /** The inbox q of subscriber j, who is bot b and has taken in the first cu events of the
      log as far as they matter: what matters comes in order, and nothing is left out. */
  ghost predicate Arrived(log: seq<Event>, sent: seq<nat>, q: seq<nat>, b: string, j: nat, cu: nat)
    requires |sent| == |log|
  {
    && (forall i :: 0 <= i < |q| ==> q[i] < |log| && sent[q[i]] > j && (Matters(log[q[i]], b) ==> q[i] >= cu))
    && (forall i, i' :: 0 <= i < i' < |q| && Matters(log[q[i]], b) && Matters(log[q[i']], b) ==> q[i] < q[i'])
    && (forall k :: cu <= k < |log| && Matters(log[k], b) && sent[k] > j ==> k in q)
    && (forall k :: 0 <= k < cu && k < |log| && Matters(log[k], b) ==> sent[k] > j)
    && |q| <= CountSent(sent, j)
  }

  /** Subscriber j is offered what matters to it in the order of the log. */
  ghost predicate Served(log: seq<Event>, sent: seq<nat>, b: string, j: nat)
    requires |sent| == |log|
  {
    forall k, k' :: 0 <= k < k' < |log| && Matters(log[k], b) && Matters(log[k'], b) && sent[k'] > j ==> sent[k] > j
  }

  lemma {:induction false} CountPut(sent: seq<nat>, k: nat, v: nat, j: nat)
    requires k < |sent|
    ensures CountSent(sent[k := v], j) ==
            CountSent(sent, j) + (if v > j then 1 else 0) - (if sent[k] > j then 1 else 0)
    decreases |sent|
  {
    var n := |sent| - 1;
    if k == n {
      assert sent[k := v][..n] == sent[..n];
    } else {
      CountPut(sent[..n], k, v, j);
      assert sent[k := v][..n] == sent[..n][k := v];
    }
  }

  lemma {:induction false} CountIsShort(sent: seq<nat>, j: nat)
    ensures CountSent(sent, j) <= |sent|
    decreases |sent|
  {
    if sent != [] {
      CountIsShort(sent[..|sent| - 1], j);
    }
  }

  lemma ArrivesLast(log: seq<Event>, sent: seq<nat>, q: seq<nat>, b: string, j: nat, cu: nat, k: nat)
    requires |sent| == |log| && Arrived(log, sent, q, b, j, cu) && Served(log, sent, b, j)
    requires k < |sent| && sent[k] == j && Matters(log[k], b)
    ensures k >= cu && forall i :: 0 <= i < |q| && Matters(log[q[i]], b) ==> q[i] < k
  {
  }

  lemma ArrivesNow(log: seq<Event>, sent: seq<nat>, q: seq<nat>, b: string, j: nat, cu: nat, k: nat)
    requires |sent| == |log| && Arrived(log, sent, q, b, j, cu) && Served(log, sent, b, j)
    requires k < |sent| && sent[k] == j
    ensures Arrived(log, sent[k := j + 1], q + [k], b, j, cu)
  {
    var q', sent' := q + [k], sent[k := j + 1];
    CountPut(sent, k, j + 1, j);
    if Matters(log[k], b) {
      ArrivesLast(log, sent, q, b, j, cu, k);
    }
    forall i | cu <= i < |log| && Matters(log[i], b) && sent'[i] > j
      ensures i in q'
    {
      assert i != k ==> i in q;
      assert q'[|q|] == k;
    }
  }

  lemma ArrivesElsewhere(log: seq<Event>, sent: seq<nat>, q: seq<nat>, b: string, j: nat, cu: nat, k: nat)
    requires |sent| == |log| && Arrived(log, sent, q, b, j, cu)
    requires k < |sent| && sent[k] != j
    ensures Arrived(log, sent[k := sent[k] + 1], q, b, j, cu)
  {
    CountPut(sent, k, sent[k] + 1, j);
  }

  lemma ArrivesLater(log: seq<Event>, sent: seq<nat>, q: seq<nat>, b: string, j: nat, cu: nat, e: Event)
    requires |sent| == |log| && Arrived(log, sent, q, b, j, cu) && cu <= |log|
    ensures Arrived(log + [e], sent + [0], q, b, j, cu)
  {
    assert (sent + [0])[..|sent|] == sent;
  }

  /** What comes out of an inbox, if it matters, is the next event of the log that does. */
  lemma TakenInOrder(log: seq<Event>, sent: seq<nat>, q: seq<nat>, b: string, j: nat, cu: nat)
    requires |sent| == |log| && Arrived(log, sent, q, b, j, cu) && Served(log, sent, b, j) && q != []
    requires Matters(log[q[0]], b)
    ensures cu <= q[0] && forall k :: cu <= k < q[0] ==> !Matters(log[k], b)
    ensures Arrived(log, sent, q[1..], b, j, q[0] + 1)
  {
    forall k | cu <= k < q[0]
      ensures !Matters(log[k], b)
    {
      assert Matters(log[k], b) ==> k in q;
    }
  }

  lemma EchoTaken(log: seq<Event>, sent: seq<nat>, q: seq<nat>, b: string, j: nat, cu: nat)
    requires |sent| == |log| && Arrived(log, sent, q, b, j, cu) && q != [] && !Matters(log[q[0]], b)
    ensures Arrived(log, sent, q[1..], b, j, cu)
  {
  }

  // --- Who publishes has heard ---

  /** Whoever announced event k' had been offered event k before, or announced it itself and
      finished doing so. */
  ghost predicate Trail(log: seq<Event>, sent: seq<nat>, subs: seq<string>, k: nat, k': nat)
    requires k < k' < |log| == |sent|
  {
    && log[k'].SkitAdvance?
    && if Matters(log[k], log[k'].from)
       then forall x :: 0 <= x < |subs| && subs[x] == log[k'].from ==> sent[k] > x
       else sent[k] == |subs|
  }

  ghost predicate Trails(l: Net, f: Fleet) {
    && |l.sent| == |l.s.log| && (forall k :: 0 <= k < |l.sent| ==> l.sent[k] <= |f.subs|)
    && forall k, k' :: 0 <= k < k' < |l.s.log| ==> Trail(l.s.log, l.sent, f.subs, k, k')
  }

  /** With only the last two speaking, the trails lead past everyone else, and the start has
      been offered to all before the first step is announced. */
  lemma LastTwoServe(l: Net, f: Fleet, j: nat)
    requires f.Proper() && LastTwo(f) && Trails(l, f) && LogOk(Stage(l.s, map[]), f.c) && j < |f.subs|
    ensures Served(l.s.log, l.sent, f.subs[j], j)
  {
    var n, b := |f.subs|, f.subs[j];
    forall k, k' | 0 <= k < k' < |l.s.log| && Matters(l.s.log[k], b) && Matters(l.s.log[k'], b) && l.sent[k'] > j
      ensures l.sent[k] > j
    {
      assert Trail(l.s.log, l.sent, f.subs, k, k') && Trail(l.s.log, l.sent, f.subs, 0, 1);
      assert l.s.log[k'].from == f.c.Script()[k' - 1].bot && l.s.log[1].from == f.subs[n - 1];
      if k > 0 {
        assert l.s.log[k].from == f.c.Script()[k - 1].bot;
      }
    }
  }

  // --- The fleet as on an ordered bus ---

  /** The same fleet on an ordered bus, where cur says how far each bot has got. */
  function AsStage(l: Net, cur: map<string, nat>): Stage {
    Stage(l.s, cur)
  }

  ghost predicate ArrivedAt(l: Net, f: Fleet, cur: map<string, nat>, j: nat)
    requires j < |f.subs| && |l.sent| == |l.s.log|
  {
    && f.subs[j] in l.inbox && f.subs[j] in cur
    && Arrived(l.s.log, l.sent, l.inbox[f.subs[j]], f.subs[j], j, cur[f.subs[j]])
  }

  ghost predicate Linked(l: Net, f: Fleet, cur: map<string, nat>) {
    && f.Proper() && Trails(l, f)
    && l.inbox.Keys == l.s.bots.Keys && (forall b :: b in l.s.bots <==> b in f.subs)
    && OrderInv(AsStage(l, cur), f.c)
    && forall j :: 0 <= j < |f.subs| ==> ArrivedAt(l, f, cur, j)
  }

  lemma FreshIsLinked(l: Net, f: Fleet)
    requires Fresh(l, f)
    ensures Linked(l, f, map b | b in l.inbox :: 0)
  {
    var cur := map b | b in l.inbox :: 0;
    OpeningIsOk(Stage(l.s, cur), f.c);
  }

  /** What bot b has taken in holds all that matters to it when it announces a step. */
  lemma AnnouncerHasHeard(l: Net, f: Fleet, cur: map<string, nat>, b: string, k: nat)
    requires Orderly(AsStage(l, cur), f.c) && InOrder(AsStage(l, cur), f.c, Announce(b, f.c.nonce))
    requires k < |l.s.log| && Matters(l.s.log[k], b)
    ensures k < cur[b]
  {
    var t := AsStage(l, cur);
    AnnounceSelf(t, f.c, Announce(b, f.c.nonce));
    assert BotOk(t, f.c, b);
  }

  lemma SendTrails(l: Net, f: Fleet, k: nat)
    requires Trails(l, f) && Possible(l, f, Send(k))
    ensures Trails(Moved(l, f, Send(k)), f)
  {
    var l' := Moved(l, f, Send(k));
    forall j, j' | 0 <= j < j' < |l.s.log|
      ensures Trail(l'.s.log, l'.sent, f.subs, j, j')
    {
      assert Trail(l.s.log, l.sent, f.subs, j, j');
    }
  }

  lemma SendArrivesHere(l: Net, f: Fleet, cur: map<string, nat>, k: nat, j: nat, l': Net)
    requires |l.sent| == |l.s.log| && k < |l.sent| && j < |f.subs| && l.sent[k] == j
    requires ArrivedAt(l, f, cur, j) && Served(l.s.log, l.sent, f.subs[j], j)
    requires l'.s.log == l.s.log && l'.sent == l.sent[k := j + 1]
    requires f.subs[j] in l'.inbox && l'.inbox[f.subs[j]] == l.inbox[f.subs[j]] + [k]
    ensures ArrivedAt(l', f, cur, j)
  {
    ArrivesNow(l.s.log, l.sent, l.inbox[f.subs[j]], f.subs[j], j, cur[f.subs[j]], k);
  }

  lemma SendArrivesElsewhere(l: Net, f: Fleet, cur: map<string, nat>, k: nat, j: nat, l': Net)
    requires |l.sent| == |l.s.log| && k < |l.sent| && j < |f.subs| && l.sent[k] != j
    requires ArrivedAt(l, f, cur, j)
    requires l'.s.log == l.s.log && l'.sent == l.sent[k := l.sent[k] + 1]
    requires f.subs[j] in l'.inbox && l'.inbox[f.subs[j]] == l.inbox[f.subs[j]]
    ensures ArrivedAt(l', f, cur, j)
  {
    ArrivesElsewhere(l.s.log, l.sent, l.inbox[f.subs[j]], f.subs[j], j, cur[f.subs[j]], k);
  }

  /** An inbox that holds no more than the log has room for one event more. */
  lemma HasRoom(log: seq<Event>, sent: seq<nat>, q: seq<nat>, b: string, j: nat, cu: nat, k: nat)
    requires |sent| == |log| <= INBOX && Arrived(log, sent, q, b, j, cu) && k < |sent| && sent[k] == j
    ensures Offered(q, k) == q + [k]
  {
    CountPut(sent, k, j + 1, j);
    CountIsShort(sent[k := j + 1], j);
  }

  /** An event that does not matter to a subscriber may as well be dropped. */
  lemma DroppedEcho(log: seq<Event>, sent: seq<nat>, q: seq<nat>, b: string, j: nat, cu: nat, k: nat)
    requires |sent| == |log| && Arrived(log, sent, q, b, j, cu)
    requires k < |sent| && sent[k] == j && !Matters(log[k], b)
    ensures Arrived(log, sent[k := j + 1], q, b, j, cu)
  {
    CountPut(sent, k, j + 1, j);
  }

  lemma SendIsDropped(l: Net, f: Fleet, cur: map<string, nat>, k: nat, j: nat, l': Net)
    requires |l.sent| == |l.s.log| && k < |l.sent| && j < |f.subs| && l.sent[k] == j
    requires ArrivedAt(l, f, cur, j) && !Matters(l.s.log[k], f.subs[j])
    requires l'.s.log == l.s.log && l'.sent == l.sent[k := j + 1]
    requires f.subs[j] in l'.inbox && l'.inbox[f.subs[j]] == l.inbox[f.subs[j]]
    ensures ArrivedAt(l', f, cur, j)
  {
    DroppedEcho(l.s.log, l.sent, l.inbox[f.subs[j]], f.subs[j], j, cur[f.subs[j]], k);
  }

  lemma SendArrives(l: Net, f: Fleet, cur: map<string, nat>, k: nat, j: nat, l': Net)
    requires |l.sent| == |l.s.log| && Possible(l, f, Send(k)) && l' == Moved(l, f, Send(k))
    requires |l.s.log| <= INBOX || !Matters(l.s.log[k], f.subs[l.sent[k]])
    requires j < |f.subs| && ArrivedAt(l, f, cur, j) && (j != l.sent[k] ==> f.subs[j] != f.subs[l.sent[k]])
    requires j == l.sent[k] ==> Served(l.s.log, l.sent, f.subs[j], j)
    ensures ArrivedAt(l', f, cur, j)
  {
    if j != l.sent[k] {
      SendArrivesElsewhere(l, f, cur, k, j, l');
    } else if |l.s.log| <= INBOX {
      HasRoom(l.s.log, l.sent, l.inbox[f.subs[j]], f.subs[j], j, cur[f.subs[j]], k);
      SendArrivesHere(l, f, cur, k, j, l');
    } else if |l.inbox[f.subs[j]]| < INBOX {
      SendArrivesHere(l, f, cur, k, j, l');
    } else {
      SendIsDropped(l, f, cur, k, j, l');
    }
  }

  /** A bot alone is offered its start before anything else, and then only its own advances. */
  lemma AloneOrRoom(l: Net, f: Fleet, k: nat)
    requires f.Proper() && Trails(l, f) && LogOk(Stage(l.s, map[]), f.c) && Possible(l, f, Send(k))
    requires Fits(f) && |l.s.log| <= |f.c.Script()| + 1
    ensures |l.s.log| <= INBOX || !Matters(l.s.log[k], f.subs[l.sent[k]])
  {
    if |f.subs| == 1 && |l.s.log| > 1 {
      assert Trail(l.s.log, l.sent, f.subs, 0, 1);
      assert l.s.log[1] == SkitAdvance(f.c.Script()[0].bot, f.c.skit, 0, f.c.nonce);
      assert k > 0;
      assert l.s.log[k] == SkitAdvance(f.c.Script()[k - 1].bot, f.c.skit, k - 1, f.c.nonce);
    }
  }

  lemma LogFits(l: Net, f: Fleet, cur: map<string, nat>)
    requires OrderInv(AsStage(l, cur), f.c)
    ensures |l.s.log| <= |f.c.Script()| + 1 && LogOk(Stage(l.s, map[]), f.c)
  {
  }

  lemma SendStaysLinked(l: Net, f: Fleet, cur: map<string, nat>, k: nat)
    requires Linked(l, f, cur) && LastTwo(f) && Fits(f) && Possible(l, f, Send(k))
    ensures Linked(Moved(l, f, Send(k)), f, cur)
  {
    var l' := Moved(l, f, Send(k));
    SendTrails(l, f, k);
    LogFits(l, f, cur);
    AloneOrRoom(l, f, k);
    LastTwoServe(l, f, l.sent[k]);
    assert AsStage(l', cur) == AsStage(l, cur);
    forall j | 0 <= j < |f.subs|
      ensures ArrivedAt(l', f, cur, j)
    {
      SendArrives(l, f, cur, k, j, l');
    }
  }

  lemma ActStaysLinked(l: Net, f: Fleet, cur: map<string, nat>, a: Action)
    requires Linked(l, f, cur) && Possible(l, f, Step(a)) && !a.Deliver? && !a.Announce?
    ensures InOrder(AsStage(l, cur), f.c, a) && Play(AsStage(l, cur), f.c, a) == AsStage(Moved(l, f, Step(a)), cur)
    ensures Linked(Moved(l, f, Step(a)), f, cur)
  {
    var l' := Moved(l, f, Step(a));
    PlayKeeps(AsStage(l, cur), f.c, a);
    FleetStays(AsStage(l, cur), f.c, a);
    forall j | 0 <= j < |f.subs|
      ensures ArrivedAt(l', f, cur, j)
    {
      assert ArrivedAt(l, f, cur, j);
    }
  }

  /** Nobody performs any other run. */
  lemma OneRun(l: Net, f: Fleet, cur: map<string, nat>, b: string, n: string)
    requires Orderly(AsStage(l, cur), f.c) && Performs(l.s, b, n)
    ensures n == f.c.nonce
  {
    assert BotOk(AsStage(l, cur), f.c, b);
  }

  /** Event k has been offered to bot b, or was announced by it and offered to all. */
  ghost predicate TrailOf(log: seq<Event>, sent: seq<nat>, subs: seq<string>, b: string, k: nat)
    requires k < |log| == |sent|
  {
    if Matters(log[k], b) then forall x :: 0 <= x < |subs| && subs[x] == b ==> sent[k] > x else sent[k] == |subs|
  }

  lemma AnnouncerTrails(l: Net, f: Fleet, cur: map<string, nat>, b: string, k: nat)
    requires Linked(l, f, cur) && Possible(l, f, Step(Announce(b, f.c.nonce))) && k < |l.s.log|
    ensures TrailOf(l.s.log, l.sent, f.subs, b, k)
  {
    if Matters(l.s.log[k], b) {
      AnnouncerHasHeard(l, f, cur, b, k);
      forall x | 0 <= x < |f.subs| && f.subs[x] == b
        ensures l.sent[k] > x
      {
        assert ArrivedAt(l, f, cur, x);
      }
    }
  }

  lemma TrailsGrow(log: seq<Event>, sent: seq<nat>, subs: seq<string>, e: Event, k: nat, k': nat)
    requires |log| == |sent| && k < k' <= |log| && e.SkitAdvance?
    requires k' < |log| ==> Trail(log, sent, subs, k, k')
    requires TrailOf(log, sent, subs, e.from, k)
    ensures Trail(log + [e], sent + [0], subs, k, k')
  {
  }

  /** What an announcement adds to the log and what has been offered of it: nothing yet. */
  lemma AnnounceExtends(l: Net, f: Fleet, a: Action, l': Net)
    requires Possible(l, f, Step(a)) && a.Announce? && l' == Moved(l, f, Step(a))
    ensures l'.sent == l.sent + [0] && |l'.s.log| == |l.s.log| + 1
    ensures var e := l'.s.log[|l.s.log|]; l'.s.log == l.s.log + [e] && e.SkitAdvance? && e.from == a.bot
  {
  }

  lemma TrailsAfter(l: Net, f: Fleet, e: Event, l': Net)
    requires Trails(l, f) && e.SkitAdvance? && l'.s.log == l.s.log + [e] && l'.sent == l.sent + [0]
    requires forall k :: 0 <= k < |l.s.log| ==> TrailOf(l.s.log, l.sent, f.subs, e.from, k)
    ensures Trails(l', f)
  {
    forall k, k' | 0 <= k < k' <= |l.s.log|
      ensures Trail(l'.s.log, l'.sent, f.subs, k, k')
    {
      TrailsGrow(l.s.log, l.sent, f.subs, e, k, k');
    }
  }

  lemma AnnounceTrails(l: Net, f: Fleet, cur: map<string, nat>, a: Action)
    requires Linked(l, f, cur) && Possible(l, f, Step(a)) && a.Announce?
    ensures Trails(Moved(l, f, Step(a)), f)
  {
    var l' := Moved(l, f, Step(a));
    OneRun(l, f, cur, a.bot, a.nonce);
    forall k | 0 <= k < |l.s.log|
      ensures TrailOf(l.s.log, l.sent, f.subs, a.bot, k)
    {
      AnnouncerTrails(l, f, cur, a.bot, k);
    }
    AnnounceExtends(l, f, a, l');
    TrailsAfter(l, f, l'.s.log[|l.s.log|], l');
  }

  lemma AnnounceStaysLinked(l: Net, f: Fleet, cur: map<string, nat>, a: Action)
    requires Linked(l, f, cur) && Possible(l, f, Step(a)) && a.Announce?
    ensures InOrder(AsStage(l, cur), f.c, a) && Play(AsStage(l, cur), f.c, a) == AsStage(Moved(l, f, Step(a)), cur)
    ensures Linked(Moved(l, f, Step(a)), f, cur)
  {
    var l' := Moved(l, f, Step(a));
    AnnounceTrails(l, f, cur, a);
    PlayKeeps(AsStage(l, cur), f.c, a);
    FleetStays(AsStage(l, cur), f.c, a);
    forall j | 0 <= j < |f.subs|
      ensures ArrivedAt(l', f, cur, j)
    {
      assert ArrivedAt(l, f, cur, j) && BotOk(AsStage(l, cur), f.c, f.subs[j]);
      ArrivesLater(l.s.log, l.sent, l.inbox[f.subs[j]], f.subs[j], j, cur[f.subs[j]], l'.s.log[|l.s.log|]);
    }
  }

  // --- Deliveries ---

  lemma {:induction false} ForeignSkips(script: Script, b: string, lo: nat, hi: nat, hi': nat)
    requires hi <= hi' <= |script| && forall i :: hi <= i < hi' ==> script[i].bot == b
    ensures Foreign(script, b, lo, hi') == Foreign(script, b, lo, hi)
  {
    if hi < hi' {
      ForeignSkips(script, b, lo, hi, hi' - 1);
    }
  }

  /** On the ordered bus, a bot takes in its own advances without any effect. */
  lemma EchoesAreNothing(script: Script, n: string, b: string, ps: Perfs, cur: nat, cur': nat,
                         published: nat, said: nat)
    requires 0 < cur <= cur' <= published + 1 <= |script| + 1 && BotAt(script, n, b, ps, cur, true, published, said)
    requires forall i :: cur - 1 <= i < cur' - 1 ==> script[i].bot == b
    ensures BotAt(script, n, b, ps, cur', true, published, said)
  {
    if n in ps {
      ForeignSkips(script, b, ps[n].pc, cur - 1, cur' - 1);
    }
  }

  lemma {:induction false} RemainingSkips(t: Stage, c: Cast, crew: seq<string>, t': Stage)
    requires c.Proper() && (forall o :: o in crew ==> o in t.s.bots && o in t.cur && o in t'.cur)
    requires t'.s == t.s && forall o :: o in crew ==> t.cur[o] <= t'.cur[o]
    ensures Remaining(t', c, crew) <= Remaining(t, c, crew)
  {
    if crew != [] {
      RemainingSkips(t, c, crew[1..], t');
    }
  }

  lemma EchoesAreOwn(t: Stage, c: Cast, b: string, lo: nat, hi: nat)
    requires c.Proper() && LogOk(t, c) && lo < hi <= |t.s.log|
    requires forall k :: lo <= k < hi ==> !Matters(t.s.log[k], b)
    ensures 0 < lo && forall i :: lo - 1 <= i < hi - 1 ==> c.Script()[i].bot == b
  {
    forall i | lo - 1 <= i < hi - 1
      ensures 0 <= i && c.Script()[i].bot == b
    {
      assert !Matters(t.s.log[i + 1], b);
    }
  }

  lemma SkipperIsOk(t: Stage, c: Cast, b: string, upto: nat, t': Stage)
    requires c.Proper() && LogOk(t, c) && b in t.s.bots && b in t.cur && BotOk(t, c, b)
    requires t.cur[b] <= upto <= |t.s.log| && forall k :: t.cur[b] <= k < upto ==> !Matters(t.s.log[k], b)
    requires t' == Stage(t.s, t.cur[b := upto])
    ensures BotOk(t', c, b)
  {
    if t.cur[b] < upto {
      EchoesAreOwn(t, c, b, t.cur[b], upto);
      var script, p, m := c.Script(), Published(t), |Said(t.s, c.nonce)|;
      assert BotAt(script, c.nonce, b, t.s.bots[b], t.cur[b], true, p, m);
      EchoesAreNothing(script, c.nonce, b, t.s.bots[b], t.cur[b], upto, p, m);
    }
  }

  /** Only where the bots have got to is different. */
  lemma SameLog(t0: Stage, t: Stage, c: Cast)
    requires OrderInv(t0, c) && t.s == t0.s && t.cur.Keys == t0.cur.Keys
    requires forall b :: b in t.s.bots ==> BotOk(t, c, b)
    ensures OrderInv(t, c)
  {
  }

  lemma SkipsEchoes(t: Stage, c: Cast, b: string, upto: nat, t': Stage)
    requires OrderInv(t, c) && b in t.s.bots && b in t.cur
    requires t.cur[b] <= upto <= |t.s.log| && forall k :: t.cur[b] <= k < upto ==> !Matters(t.s.log[k], b)
    requires t' == Stage(t.s, t.cur[b := upto])
    ensures OrderInv(t', c)
  {
    assert BotOk(t, c, b);
    SkipperIsOk(t, c, b, upto, t');
    forall o | o in t'.s.bots
      ensures BotOk(t', c, o)
    {
      assert BotOk(t, c, o);
    }
    SameLog(t, t', c);
  }

  lemma TakesIn(t: Stage, c: Cast, b: string, i: nat, crew: seq<string>, t': Stage)
    requires OrderInv(t, c) && Lists(crew, t) && InOrder(t, c, Deliver(b, i)) && t' == Play(t, c, Deliver(b, i))
    ensures OrderInv(t', c) && Remaining(t', c, crew) <= Remaining(t, c, crew)
  {
    PlayKeeps(t, c, Deliver(b, i));
    RemainingDrops(t, c, Deliver(b, i), crew);
  }

  lemma DeliversAfterSkip(t: Stage, c: Cast, b: string, i: nat, t1: Stage, t': Stage)
    requires b in t.cur && Enabled(t.s, c.scripts, Deliver(b, i)) && t1 == Stage(t.s, t.cur[b := i])
    requires t' == Stage(Do(t.s, c.scripts, Deliver(b, i)), t.cur[b := i + 1])
    ensures InOrder(t1, c, Deliver(b, i)) && t' == Play(t1, c, Deliver(b, i))
  {
    assert t1.cur[b := i + 1] == t.cur[b := i + 1];
  }

  /** Skipping to an event and taking it in. */
  lemma PlaysOn(t: Stage, c: Cast, b: string, i: nat, crew: seq<string>, t': Stage)
    requires OrderInv(t, c) && b in t.s.bots && b in t.cur && Lists(crew, t) && Enabled(t.s, c.scripts, Deliver(b, i))
    requires t.cur[b] <= i < |t.s.log| && forall k :: t.cur[b] <= k < i ==> !Matters(t.s.log[k], b)
    requires t' == Stage(Do(t.s, c.scripts, Deliver(b, i)), t.cur[b := i + 1])
    ensures OrderInv(t', c) && Remaining(t', c, crew) <= Remaining(t, c, crew)
  {
    var t1 := Stage(t.s, t.cur[b := i]);
    SkipsEchoes(t, c, b, i, t1);
    RemainingSkips(t, c, crew, t1);
    DeliversAfterSkip(t, c, b, i, t1, t');
    TakesIn(t1, c, b, i, crew, t');
  }

  /** How far a bot has got when it has taken an event in. */
  function Got(cur: map<string, nat>, b: string, e: Event, i: nat): map<string, nat> {
    if Matters(e, b) then cur[b := i + 1] else cur
  }

  /** Its own echo changes nothing. */
  lemma EchoKeepsSystem(s: System, scripts: Scripts, b: string, i: nat)
    requires Enabled(s, scripts, Deliver(b, i)) && !Matters(s.log[i], b)
    ensures Do(s, scripts, Deliver(b, i)) == s
  {
    assert s.bots[b := s.bots[b]] == s.bots;
  }

  lemma DeliverPlays(l: Net, f: Fleet, cur: map<string, nat>, b: string, i: nat, j: nat, l': Net)
    requires OrderInv(AsStage(l, cur), f.c) && Lists(f.subs, AsStage(l, cur)) && Possible(l, f, Step(Deliver(b, i)))
    requires l' == Moved(l, f, Step(Deliver(b, i))) && |l.sent| == |l.s.log|
    requires j < |f.subs| && f.subs[j] == b && ArrivedAt(l, f, cur, j) && Served(l.s.log, l.sent, b, j)
    ensures var cur' := Got(cur, b, l.s.log[i], i);
            && OrderInv(AsStage(l', cur'), f.c)
            && Remaining(AsStage(l', cur'), f.c, f.subs) <= Remaining(AsStage(l, cur), f.c, f.subs)
  {
    if Matters(l.s.log[i], b) {
      TakenInOrder(l.s.log, l.sent, l.inbox[b], b, j, cur[b]);
      PlaysOn(AsStage(l, cur), f.c, b, i, f.subs, AsStage(l', cur[b := i + 1]));
    } else {
      EchoKeepsSystem(l.s, f.c.scripts, b, i);
    }
  }

  lemma DeliverArrives(l: Net, f: Fleet, cur: map<string, nat>, b: string, i: nat, x: nat, j: nat, l': Net)
    requires Possible(l, f, Step(Deliver(b, i))) && l' == Moved(l, f, Step(Deliver(b, i)))
    requires |l.sent| == |l.s.log| && x < |f.subs| && f.subs[x] == b && j < |f.subs| && (f.subs[j] == b ==> j == x)
    requires ArrivedAt(l, f, cur, j) && Served(l.s.log, l.sent, b, x)
    ensures ArrivedAt(l', f, Got(cur, b, l.s.log[i], i), j)
  {
    if j == x {
      if Matters(l.s.log[i], b) {
        TakenInOrder(l.s.log, l.sent, l.inbox[b], b, j, cur[b]);
      } else {
        EchoTaken(l.s.log, l.sent, l.inbox[b], b, j, cur[b]);
      }
    }
  }

  lemma FleetIsListed(l: Net, f: Fleet, cur: map<string, nat>)
    requires Linked(l, f, cur)
    ensures Lists(f.subs, AsStage(l, cur)) && cur.Keys == l.s.bots.Keys
  {
  }

  lemma DeliverAllArrive(l: Net, f: Fleet, cur: map<string, nat>, b: string, i: nat, x: nat, l': Net)
    requires Possible(l, f, Step(Deliver(b, i))) && l' == Moved(l, f, Step(Deliver(b, i)))
    requires f.Proper() && |l.sent| == |l.s.log| && x < |f.subs| && f.subs[x] == b && Served(l.s.log, l.sent, b, x)
    requires forall j :: 0 <= j < |f.subs| ==> ArrivedAt(l, f, cur, j)
    ensures forall j :: 0 <= j < |f.subs| ==> ArrivedAt(l', f, Got(cur, b, l.s.log[i], i), j)
  {
    forall j | 0 <= j < |f.subs|
      ensures ArrivedAt(l', f, Got(cur, b, l.s.log[i], i), j)
    {
      DeliverArrives(l, f, cur, b, i, x, j, l');
    }
  }

  lemma DeliverTrails(l: Net, f: Fleet, b: string, i: nat, l': Net)
    requires Trails(l, f) && l.inbox.Keys == l.s.bots.Keys
    requires Possible(l, f, Step(Deliver(b, i))) && l' == Moved(l, f, Step(Deliver(b, i)))
    ensures Trails(l', f) && l'.inbox.Keys == l'.s.bots.Keys == l.s.bots.Keys
  {
  }

  lemma DeliverStaysLinked(l: Net, f: Fleet, cur: map<string, nat>, b: string, i: nat, l': Net)
    requires Linked(l, f, cur) && LastTwo(f) && Possible(l, f, Step(Deliver(b, i)))
    requires l' == Moved(l, f, Step(Deliver(b, i)))
    ensures var cur' := Got(cur, b, l.s.log[i], i);
            && Linked(l', f, cur')
            && Remaining(AsStage(l', cur'), f.c, f.subs) <= Remaining(AsStage(l, cur), f.c, f.subs)
  {
    var x :| 0 <= x < |f.subs| && f.subs[x] == b;
    LogFits(l, f, cur);
    LastTwoServe(l, f, x);
    FleetIsListed(l, f, cur);
    DeliverPlays(l, f, cur, b, i, x, l');
    DeliverTrails(l, f, b, i, l');
    DeliverAllArrive(l, f, cur, b, i, x, l');
  }
}
