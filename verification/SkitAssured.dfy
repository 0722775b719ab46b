/** Which skits the in-process bus carries safely. */
module SkitAssured {
  import opened Bus
  import opened Coordinator
  import opened SkitSystem
  import opened SkitProgress
  import opened SkitFanout
  import opened SkitOrder
  import opened SkitRaces
  import opened Totals

  // --- Every run ends ---

  /** The events still to be offered: of the first k of the log, whether published or not. */
  function Owed(sent: seq<nat>, n: nat, k: nat): int {
    if k == 0 then 0 else Owed(sent, n, k - 1) + n - if k <= |sent| then sent[k - 1] else 0
  }

  function Loads(inbox: map<string, seq<nat>>): map<string, int> {
    map b | b in inbox :: |inbox[b]|
  }

  /** How many moves are left, at most. */
  ghost function Energy(l: Net, f: Fleet, cur: map<string, nat>): int
    requires f.c.Proper() && forall b :: b in f.subs ==> b in l.s.bots && b in cur
  {
    2 * Owed(l.sent, |f.subs|, |f.c.Script()| + 1) + Total(Loads(l.inbox)) + Remaining(AsStage(l, cur), f.c, f.subs)
  }

  lemma {:induction false} OwedIsNat(sent: seq<nat>, n: nat, k: nat)
    requires forall i :: 0 <= i < |sent| ==> sent[i] <= n
    ensures Owed(sent, n, k) >= 0
  {
    if k > 0 {
      OwedIsNat(sent, n, k - 1);
    }
  }

  lemma {:induction false} OwedDrops(sent: seq<nat>, n: nat, k: nat, i: nat)
    requires i < |sent|
    ensures Owed(sent[i := sent[i] + 1], n, k) == Owed(sent, n, k) - if i < k then 1 else 0
  {
    if k > 0 {
      OwedDrops(sent, n, k - 1, i);
    }
  }

  lemma {:induction false} OwedStays(sent: seq<nat>, n: nat, k: nat)
    ensures Owed(sent + [0], n, k) == Owed(sent, n, k)
  {
    if k > 0 {
      OwedStays(sent, n, k - 1);
    }
  }

  lemma LoadsPut(inbox: map<string, seq<nat>>, b: string, q: seq<nat>)
    requires b in inbox
    ensures Total(Loads(inbox[b := q])) == Total(Loads(inbox)) - |inbox[b]| + |q|
  {
    TotalPut(Loads(inbox), b, |q|);
    assert Loads(inbox[b := q]) == Loads(inbox)[b := |q|];
  }

  lemma {:induction false} TotalIsNat(m: map<string, int>)
    requires forall b :: b in m ==> m[b] >= 0
    ensures Total(m) >= 0
    decreases |m|
  {
    if m != map[] {
      var b :| b in m && Total(m) == m[b] + Total(m - {b});
      TotalIsNat(m - {b});
    }
  }

  lemma EnergyIsNat(l: Net, f: Fleet, cur: map<string, nat>)
    requires Linked(l, f, cur)
    ensures Energy(l, f, cur) >= 0
  {
    OwedIsNat(l.sent, |f.subs|, |f.c.Script()| + 1);
    TotalIsNat(Loads(l.inbox));
    RemainingIsNat(AsStage(l, cur), f.c, f.subs);
  }

  lemma SendSpends(l: Net, f: Fleet, cur: map<string, nat>, k: nat, l': Net)
    requires f.c.Proper() && forall b :: b in f.subs ==> b in l.s.bots && b in cur
    requires Possible(l, f, Send(k)) && l' == Moved(l, f, Send(k)) && k <= |f.c.Script()|
    ensures Energy(l', f, cur) < Energy(l, f, cur)
  {
    OwedDrops(l.sent, |f.subs|, |f.c.Script()| + 1, k);
    var b := f.subs[l.sent[k]];
    LoadsPut(l.inbox, b, Offered(l.inbox[b], k));
  }

  lemma ActShortens(t: Stage, c: Cast, a: Action, crew: seq<string>)
    requires Orderly(t, c) && InOrder(t, c, a) && Lists(crew, t)
    ensures Lists(crew, Play(t, c, a)) && Play(t, c, a).cur.Keys == Play(t, c, a).s.bots.Keys
    ensures Remaining(Play(t, c, a), c, crew) < Remaining(t, c, crew)
  {
    RemainingDrops(t, c, a, crew);
    FleetStays(t, c, a);
  }

  lemma ActSpends(l: Net, f: Fleet, cur: map<string, nat>, l': Net)
    requires f.c.Proper() && forall b :: b in f.subs ==> b in l.s.bots && b in l'.s.bots && b in cur
    requires Remaining(AsStage(l', cur), f.c, f.subs) < Remaining(AsStage(l, cur), f.c, f.subs)
    requires l'.inbox == l.inbox && (l'.sent == l.sent || l'.sent == l.sent + [0])
    ensures Energy(l', f, cur) < Energy(l, f, cur)
  {
    OwedStays(l.sent, |f.subs|, |f.c.Script()| + 1);
  }

  lemma DeliverSpends(l: Net, f: Fleet, cur: map<string, nat>, b: string, i: nat, l': Net, cur': map<string, nat>)
    requires Linked(l, f, cur) && Possible(l, f, Step(Deliver(b, i))) && l' == Moved(l, f, Step(Deliver(b, i)))
    requires Linked(l', f, cur')
    requires Remaining(AsStage(l', cur'), f.c, f.subs) <= Remaining(AsStage(l, cur), f.c, f.subs)
    ensures Energy(l', f, cur') < Energy(l, f, cur)
  {
    LoadsPut(l.inbox, b, l.inbox[b][1..]);
  }

  lemma MoveKeeps(l: Net, f: Fleet, cur: map<string, nat>, m: Move, l': Net) returns (cur': map<string, nat>)
    requires Linked(l, f, cur) && LastTwo(f) && Fits(f) && Possible(l, f, m) && l' == Moved(l, f, m)
    ensures Linked(l', f, cur') && Energy(l', f, cur') < Energy(l, f, cur)
  {
    cur' := cur;
    match m
    case Send(k) =>
      SendStaysLinked(l, f, cur, k);
      LogFits(l, f, cur);
      FleetIsListed(l, f, cur);
      SendSpends(l, f, cur, k, l');
    case Step(a) =>
      match a
      case Deliver(b, i) =>
        cur' := Got(cur, b, l.s.log[i], i);
        DeliverStaysLinked(l, f, cur, b, i, l');
        DeliverSpends(l, f, cur, b, i, l', cur');
      case Announce(_, _) =>
        FleetIsListed(l, f, cur);
        AnnounceStaysLinked(l, f, cur, a);
        ActShortens(AsStage(l, cur), f.c, a, f.subs);
        ActSpends(l, f, cur, l');
      case _ =>
        FleetIsListed(l, f, cur);
        ActStaysLinked(l, f, cur, a);
        ActShortens(AsStage(l, cur), f.c, a, f.subs);
        ActSpends(l, f, cur, l');
  }

  // --- A fleet that can do nothing more ---

  ghost predicate CanGoOn(l: Net, f: Fleet) {
    exists m :: Possible(l, f, m)
  }

  lemma SendGoesOn(l: Net, f: Fleet, cur: map<string, nat>, k: nat)
    requires Linked(l, f, cur) && k < |l.sent| && l.sent[k] < |f.subs|
    ensures CanGoOn(l, f)
  {
    assert ArrivedAt(l, f, cur, l.sent[k]);
    assert Possible(l, f, Send(k));
  }

  lemma DeliveryGoesOn(l: Net, f: Fleet, cur: map<string, nat>, j: nat)
    requires Linked(l, f, cur) && j < |f.subs| && f.subs[j] in l.inbox && l.inbox[f.subs[j]] != []
    ensures CanGoOn(l, f)
  {
    var b := f.subs[j];
    assert ArrivedAt(l, f, cur, j) && BotOk(AsStage(l, cur), f.c, b);
    assert Possible(l, f, Step(Deliver(b, l.inbox[b][0])));
  }

  lemma AllIsSent(l: Net, f: Fleet, cur: map<string, nat>, k: nat)
    requires Linked(l, f, cur) && !CanGoOn(l, f) && k < |l.sent|
    ensures l.sent[k] == |f.subs|
  {
    if l.sent[k] < |f.subs| {
      SendGoesOn(l, f, cur, k);
    }
  }

  lemma InboxIsEmpty(l: Net, f: Fleet, cur: map<string, nat>, j: nat)
    requires Linked(l, f, cur) && !CanGoOn(l, f) && j < |f.subs|
    ensures f.subs[j] in l.inbox && l.inbox[f.subs[j]] == []
  {
    assert ArrivedAt(l, f, cur, j);
    if l.inbox[f.subs[j]] != [] {
      DeliveryGoesOn(l, f, cur, j);
    }
  }

  /** Everyone has taken in the whole log, as far as it matters to them. */
  lemma NothingIsLeft(l: Net, f: Fleet, cur: map<string, nat>, j: nat, k: nat)
    requires Linked(l, f, cur) && !CanGoOn(l, f) && j < |f.subs| && f.subs[j] in cur && cur[f.subs[j]] <= k < |l.s.log|
    ensures !Matters(l.s.log[k], f.subs[j])
  {
    assert ArrivedAt(l, f, cur, j);
    AllIsSent(l, f, cur, k);
    InboxIsEmpty(l, f, cur, j);
  }

  lemma CaughtUp(l: Net, f: Fleet, cur: map<string, nat>, j: nat)
    requires Linked(l, f, cur) && !CanGoOn(l, f) && j < |f.subs|
    ensures f.subs[j] in cur && BotOk(Stage(l.s, cur[f.subs[j] := |l.s.log|]), f.c, f.subs[j])
  {
    var b := f.subs[j];
    assert ArrivedAt(l, f, cur, j) && BotOk(AsStage(l, cur), f.c, b);
    forall k | cur[b] <= k < |l.s.log|
      ensures !Matters(l.s.log[k], b)
    {
      NothingIsLeft(l, f, cur, j, k);
    }
    SkipperIsOk(AsStage(l, cur), f.c, b, |l.s.log|, Stage(l.s, cur[b := |l.s.log|]));
  }

  lemma SamePlace(t0: Stage, t: Stage, c: Cast, b: string)
    requires c.Proper() && t.s == t0.s && b in t.s.bots && b in t0.cur && b in t.cur && t.cur[b] == t0.cur[b]
    requires 0 <= Published(t) <= |c.Script()| && BotOk(t0, c, b)
    ensures BotOk(t, c, b)
  {
  }

  lemma AllCaughtUp(l: Net, f: Fleet, cur: map<string, nat>, t: Stage)
    requires Linked(l, f, cur) && !CanGoOn(l, f)
    requires t.s == l.s && t.cur.Keys == cur.Keys && forall b :: b in t.cur ==> t.cur[b] == |l.s.log|
    ensures OrderInv(t, f.c)
  {
    LogFits(l, f, cur);
    forall b | b in t.s.bots
      ensures BotOk(t, f.c, b)
    {
      var j :| 0 <= j < |f.subs| && f.subs[j] == b;
      CaughtUp(l, f, cur, j);
      SamePlace(Stage(l.s, cur[b := |l.s.log|]), t, f.c, b);
    }
    SameLog(AsStage(l, cur), t, f.c);
  }

  lemma ActionGoesOn(l: Net, f: Fleet, t: Stage, a: Action)
    requires |l.sent| == |l.s.log| && (forall k :: 0 <= k < |l.sent| ==> l.sent[k] == |f.subs|)
    requires t.s == l.s && (forall b :: b in t.cur ==> t.cur[b] == |l.s.log|) && InOrder(t, f.c, a)
    ensures CanGoOn(l, f)
  {
    assert Possible(l, f, Step(a));
  }

  lemma StillIsStuck(l: Net, f: Fleet, cur: map<string, nat>, t: Stage)
    requires Linked(l, f, cur) && !CanGoOn(l, f) && t.s == l.s && forall b :: b in t.cur ==> t.cur[b] == |l.s.log|
    ensures !CanMove(t, f.c)
  {
    forall k | 0 <= k < |l.sent|
      ensures l.sent[k] == |f.subs|
    {
      AllIsSent(l, f, cur, k);
    }
    if a :| InOrder(t, f.c, a) {
      ActionGoesOn(l, f, t, a);
    }
  }

  lemma Began(t: Stage, c: Cast, b: string)
    requires Orderly(t, c) && b in t.s.bots && t.cur[b] > 0
    ensures (b, c.nonce) in t.s.begun
  {
    assert BotOk(t, c, b);
  }

  lemma StuckIsComplete(l: Net, f: Fleet, cur: map<string, nat>)
    requires Linked(l, f, cur) && !CanGoOn(l, f)
    ensures Complete(l, f)
  {
    var t := Stage(l.s, map b | b in cur :: |l.s.log|);
    AllCaughtUp(l, f, cur, t);
    StillIsStuck(l, f, cur, t);
    NeverStuck(t, f.c);
    forall b | b in f.subs
      ensures (b, f.c.nonce) in l.s.begun && !Performs(l.s, b, f.c.nonce)
    {
      Began(t, f.c, b);
    }
  }

  // --- Skits of the last two ---

  lemma {:induction false} RunKeeps(l: Net, f: Fleet, cur: map<string, nat>, moves: seq<Move>, l': Net)
    returns (cur': map<string, nat>)
    requires Linked(l, f, cur) && LastTwo(f) && Fits(f) && Runs(l, f, moves, l')
    ensures Linked(l', f, cur') && |moves| <= Energy(l, f, cur) - Energy(l', f, cur')
    decreases |moves|
  {
    if moves == [] {
      cur' := cur;
    } else {
      var l1 := Moved(l, f, moves[0]);
      var cur1 := MoveKeeps(l, f, cur, moves[0], l1);
      cur' := RunKeeps(l1, f, cur1, moves[1..], l');
    }
  }

  lemma {:induction false} CanFinish(l: Net, f: Fleet, cur: map<string, nat>) returns (l': Net)
    requires Linked(l, f, cur) && LastTwo(f) && Fits(f)
    ensures Leads(l, f, l') && Complete(l', f)
    decreases Energy(l, f, cur)
  {
    EnergyIsNat(l, f, cur);
    if m :| Possible(l, f, m) {
      var l1 := Moved(l, f, m);
      var cur1 := MoveKeeps(l, f, cur, m, l1);
      EnergyIsNat(l1, f, cur1);
      l' := CanFinish(l1, f, cur1);
      LeadsBy(l, f, m);
      LeadsOn(l, f, l1, l');
    } else {
      l' := l;
      LeadsHere(l, f);
      StuckIsComplete(l, f, cur);
    }
  }

  lemma {:induction false} OwedAtFirst(n: nat, k: nat)
    ensures Owed([0], n, k) == k * n
  {
    if k > 0 {
      OwedAtFirst(n, k - 1);
      assert k * n == (k - 1) * n + n;
    }
  }

  lemma {:induction false} TotalIsZero(m: map<string, int>)
    requires forall b :: b in m ==> m[b] == 0
    ensures Total(m) == 0
    decreases |m|
  {
    if m != map[] {
      var b :| b in m && Total(m) == m[b] + Total(m - {b});
      TotalIsZero(m - {b});
    }
  }

  lemma FiveRounds(n: int, m: int, owed: int, rest: int)
    requires owed == (m + 1) * n && rest == n * (3 * m + 3)
    ensures 2 * owed + rest == n * (5 * m + 5)
  {
  }

  lemma NothingWaits(inbox: map<string, seq<nat>>)
    requires forall b :: b in inbox ==> inbox[b] == []
    ensures Total(Loads(inbox)) == 0
  {
    TotalIsZero(Loads(inbox));
  }

  lemma EnergyAtFirst(l: Net, f: Fleet, cur: map<string, nat>)
    requires f.c.Proper() && Opening(AsStage(l, cur), f.c) && l.sent == [0]
    requires forall b :: b in l.inbox ==> l.inbox[b] == []
    requires forall b :: b in f.subs ==> b in l.s.bots && b in cur
    ensures Energy(l, f, cur) == |f.subs| * (5 * |f.c.Script()| + 5)
  {
    var n, m := |f.subs|, |f.c.Script()|;
    OwedAtFirst(n, m + 1);
    NothingWaits(l.inbox);
    RemainingAtOpening(AsStage(l, cur), f.c, f.subs);
    FiveRounds(n, m, Owed(l.sent, n, m + 1), Remaining(AsStage(l, cur), f.c, f.subs));
  }

  /** A skit that only the last two subscribers speak in, led by the last, is over after so
      many moves of the bots and the bus, and then it has been said and performed to its
      end by everyone. */
  lemma LastTwoComplete(l: Net, f: Fleet, moves: seq<Move>, l': Net)
    requires Fresh(l, f) && LastTwo(f) && Fits(f) && Runs(l, f, moves, l')
    ensures |moves| <= |f.subs| * (5 * |f.c.Script()| + 5)
    ensures !CanGoOn(l', f) ==> Complete(l', f)
  {
    var cur := map b | b in l.inbox :: 0;
    FreshIsLinked(l, f);
    EnergyAtFirst(l, f, cur);
    var cur' := RunKeeps(l, f, cur, moves, l');
    EnergyIsNat(l', f, cur');
    if !CanGoOn(l', f) {
      StuckIsComplete(l', f, cur');
    }
  }

  lemma LastTwoIsAssured(l: Net, f: Fleet)
    requires Fresh(l, f) && LastTwo(f) && Fits(f)
    ensures Assured(l, f)
  {
    forall l' | Leads(l, f, l')
      ensures exists l'' :: Leads(l', f, l'') && Complete(l'', f)
    {
      var moves :| Runs(l, f, moves, l');
      FreshIsLinked(l, f);
      var cur' := RunKeeps(l, f, map b | b in l.inbox :: 0, moves, l');
      var l'' := CanFinish(l', f, cur');
    }
  }

  // --- And of no others ---

  /** Where somebody else speaks first, after one of the last two. */
  lemma {:induction false} FirstOther(f: Fleet, i: nat) returns (k: nat)
    requires f.Proper() && i < |f.c.Script()| && !SpeaksLast(f, f.c.Script()[i].bot)
    requires SpeaksLast(f, f.c.Script()[0].bot)
    ensures 0 < k < |f.c.Script()| && !SpeaksLast(f, f.c.Script()[k].bot) && SpeaksLast(f, f.c.Script()[k - 1].bot)
  {
    if SpeaksLast(f, f.c.Script()[i - 1].bot) {
      k := i;
    } else {
      k := FirstOther(f, i - 1);
    }
  }

  lemma OthersRace(f: Fleet) returns (k: nat, x: nat, y: nat)
    requires f.Proper() && !LastTwo(f)
    ensures Racy(f, k, x, y)
  {
    var script, n := f.c.Script(), |f.subs|;
    if script[0].bot != f.subs[n - 1] {
      x :| 0 <= x < n && f.subs[x] == script[0].bot;
      k, y := 0, n - 1;
    } else {
      var i :| 0 <= i < |script| && !SpeaksLast(f, script[i].bot);
      k := FirstOther(f, i);
      x :| 0 <= x < n && f.subs[x] == script[k].bot;
      y := if script[k - 1].bot == f.subs[n - 1] then n - 2 else n - 1;
    }
  }

  /** Of any length: some run of such a skit reaches a state from which it is never completed. */
  lemma OthersAreNotAssured(l: Net, f: Fleet)
    requires Fresh(l, f) && !LastTwo(f)
    ensures !Assured(l, f)
  {
    var k, x, y := OthersRace(f);
    var l' := RacesAreLost(l, f, k, x, y);
    assert Leads(l, f, l');
  }

  // --- Long scripts ---

  /** Somebody has no line in the script. */
  ghost predicate HasListener(f: Fleet)
    requires f.c.Proper()
  {
    exists y: nat :: y < |f.subs| && MayNap(f, y)
  }

  lemma ThirdListens(f: Fleet)
    requires f.Proper() && LastTwo(f) && |f.subs| > 2
    ensures HasListener(f)
  {
    assert MayNap(f, 0);
  }

  lemma LongIsNotAssured(l: Net, f: Fleet)
    requires Fresh(l, f) && |f.c.Script()| >= 64 && HasListener(f)
    ensures !Assured(l, f)
  {
    var y: nat :| y < |f.subs| && MayNap(f, y);
    var l' := LongScriptsAreLost(l, f, y);
    assert Leads(l, f, l');
  }

  /** Exactly those skits can always be completed that are led by the last subscriber and
      spoken by nobody but it and the one before it, and whose start and advances fit an
      inbox unless there is only one bot. That leaves open only scripts of 64 steps and
      more in which both bots of a fleet of two speak. */
  lemma AssuredIffLastTwo(l: Net, f: Fleet)
    requires Fresh(l, f) && (|f.c.Script()| < 64 || |f.subs| != 2 || HasListener(f))
    ensures Assured(l, f) <==> LastTwo(f) && Fits(f)
  {
    if !LastTwo(f) {
      OthersAreNotAssured(l, f);
    } else if Fits(f) {
      LastTwoIsAssured(l, f);
    } else {
      if |f.subs| > 2 {
        ThirdListens(f);
      }
      LongIsNotAssured(l, f);
    }
  }
}
