/** A skit on a lossless bus that delivers everything to everyone in one order, with
    no bot stopping early: nothing overflows, nothing needed is discarded, nobody
    waits for ever, and the whole script is said. The in-process bus has no such order;
    which skits it carries all the same is the matter of SkitAssured. */
module SkitProgress {
  import opened Bus
  import opened Coordinator
  import opened SkitSystem

  /** The fleet, and how much of the log each bot has been delivered. */
  datatype Stage = Stage(s: System, cur: map<string, nat>)

  /** One run: its script and nonce, and the scripts it was taken from. */
  datatype Cast = Cast(scripts: Scripts, skit: string, nonce: string) {
    predicate Proper() { skit in scripts && scripts[skit] != [] }

    function Script(): Script
      requires Proper()
    {
      scripts[skit]
    }
  }

  predicate InOrder(t: Stage, c: Cast, a: Action) {
    && Enabled(t.s, c.scripts, a)
    && match a
       case Start(_, _, _) => false
       case Deliver(b, i) => b in t.cur && i == t.cur[b]
       case End(b, n) => t.s.bots[b][n].Done()
       case _ => true
  }

  function Play(t: Stage, c: Cast, a: Action): Stage
    requires InOrder(t, c, a)
  {
    Stage(Do(t.s, c.scripts, a), if a.Deliver? then t.cur[a.bot := t.cur[a.bot] + 1] else t.cur)
  }

  /** The run has just been started. */
  ghost predicate Opening(t: Stage, c: Cast) {
    && c.Proper()
    && t.s.log == [SkitStart(c.Script()[0].bot, c.skit, c.nonce)]
    && t.s.skitOf == map[c.nonce := c.skit] && t.s.said == map[] && t.s.begun == {}
    && (forall b :: b in t.s.bots ==> t.s.bots[b] == map[])
    && t.cur.Keys == t.s.bots.Keys && forall b :: b in t.cur ==> t.cur[b] == 0
  }

  /** Every step's owner takes part. */
  ghost predicate AllPresent(t: Stage, c: Cast)
    requires c.Proper()
  {
    forall i :: 0 <= i < |c.Script()| ==> c.Script()[i].bot in t.s.bots
  }

  /** The steps in lo..hi that somebody else delivers. */
  function Foreign(script: Script, b: string, lo: nat, hi: nat): seq<nat>
    requires hi <= |script|
  {
    if hi <= lo then [] else Foreign(script, b, lo, hi - 1) + ForeignAt(script, b, hi - 1)
  }

  /** One step, if somebody else delivers it. */
  function ForeignAt(script: Script, b: string, i: nat): seq<nat>
    requires i < |script|
  {
    if script[i].bot != b then [i] else []
  }

  lemma Regrouped<T>(a: seq<T>, b: seq<T>, c: seq<T>)
    ensures (a + b) + c == a + (b + c)
  {
  }

  lemma {:induction false} ForeignHead(script: Script, b: string, lo: nat, hi: nat)
    requires lo < hi <= |script|
    ensures Foreign(script, b, lo, hi) == ForeignAt(script, b, lo) + Foreign(script, b, lo + 1, hi)
  {
    if lo + 1 == hi {
      assert Foreign(script, b, lo, lo) == [] == Foreign(script, b, hi, hi);
    } else {
      ForeignHead(script, b, lo, hi - 1);
      Regrouped(ForeignAt(script, b, lo), Foreign(script, b, lo + 1, hi - 1), ForeignAt(script, b, hi - 1));
    }
  }

  lemma ForeignStarts(script: Script, b: string, lo: nat, hi: nat)
    requires lo < hi <= |script| && script[lo].bot != b
    ensures Foreign(script, b, lo, hi) != [] && Foreign(script, b, lo, hi)[0] == lo
    ensures Foreign(script, b, lo, hi)[1..] == Foreign(script, b, lo + 1, hi)
  {
    ForeignHead(script, b, lo, hi);
  }

  lemma {:induction false} ForeignIsShort(script: Script, b: string, lo: nat, hi: nat)
    requires hi <= |script|
    ensures |Foreign(script, b, lo, hi)| <= if lo < hi then hi - lo else 0
  {
    if lo < hi {
      ForeignIsShort(script, b, lo, hi - 1);
    }
  }

  // --- What always holds in order ---

  function Published(t: Stage): int {
    |t.s.log| - 1
  }

  ghost predicate LogOk(t: Stage, c: Cast)
    requires c.Proper()
  {
    && t.s.skitOf == map[c.nonce := c.skit]
    && 0 <= Published(t) <= |Said(t.s, c.nonce)| <= Published(t) + 1
    && |Said(t.s, c.nonce)| <= |c.Script()|
    && t.s.log[0].SkitStart? && t.s.log[0].nonce == c.nonce && t.s.log[0].skit == c.skit
    && forall j :: 0 < j < |t.s.log| ==> t.s.log[j] == SkitAdvance(c.Script()[j - 1].bot, c.skit, j - 1, c.nonce)
  }

  /** A performance that has been delivered the advances of the first `told` steps. */
  ghost predicate PartOk(p: Perf, script: Script, b: string, told: nat, published: nat, said: nat)
    requires told <= published <= |script|
  {
    && p.script == script && p.pc <= published
    && p.buffer == Foreign(script, b, p.pc, told)
    && (forall j :: told <= j < p.pc ==> script[j].bot == b)
    && (p.spoken ==> p.pc == published < said && p.Mine(b))
    && (forall j :: p.pc <= j < published ==> script[j].bot != b)
  }

  /** A bot, with its performances, that has been delivered the first `cur` events. */
  ghost predicate BotAt(script: Script, n: string, b: string, ps: Perfs, cur: nat, began: bool,
                        published: nat, said: nat)
    requires published <= |script|
  {
    && cur <= published + 1
    && ps.Keys <= {n}
    && (cur == 0 <==> !began)
    && (n !in ps ==> cur == 0 || said == |script|)
    && (n in ps ==> cur > 0 && PartOk(ps[n], script, b, cur - 1, published, said))
  }

  ghost predicate BotOk(t: Stage, c: Cast, b: string)
    requires c.Proper() && b in t.s.bots && b in t.cur && 0 <= Published(t) <= |c.Script()|
  {
    BotAt(c.Script(), c.nonce, b, t.s.bots[b], t.cur[b], (b, c.nonce) in t.s.begun, Published(t), |Said(t.s, c.nonce)|)
  }

  /** A line that has been said but not announced is its owner's to announce. */
  ghost predicate PendingOk(t: Stage, c: Cast)
    requires c.Proper()
  {
    |Said(t.s, c.nonce)| == Published(t) + 1 ==>
      var script := c.Script();
      && 0 <= Published(t) < |script|
      && Performs(t.s, script[Published(t)].bot, c.nonce)
      && t.s.bots[script[Published(t)].bot][c.nonce].spoken
  }

  ghost predicate Orderly(t: Stage, c: Cast) {
    && c.Proper() && LogOk(t, c) && PendingOk(t, c)
    && t.cur.Keys == t.s.bots.Keys
    && forall b :: b in t.s.bots ==> BotOk(t, c, b)
  }

  ghost predicate OrderInv(t: Stage, c: Cast) {
    Orderly(t, c) && Inv(t.s, c.scripts)
  }

  lemma OpeningIsOk(t: Stage, c: Cast)
    requires Opening(t, c)
    ensures OrderInv(t, c)
  {
  }

  lemma HearingIsOk(p: Perf, script: Script, b: string, told: nat, published: nat, said: nat)
    requires told < published <= |script| && PartOk(p, script, b, told, published, said)
    ensures |p.buffer| < |script|
    ensures PartOk(if script[told].bot == b then p else p.(buffer := p.buffer + [told]),
                   script, b, told + 1, published, said)
  {
    ForeignIsShort(script, b, p.pc, told);
  }

  lemma TakingIsOk(p: Perf, script: Script, b: string, told: nat, published: nat, said: nat)
    requires told <= published <= |script| && PartOk(p, script, b, told, published, said)
    requires p.Theirs(b) && p.buffer != []
    ensures p.buffer[0] == p.pc
    ensures PartOk(p.(buffer := p.buffer[1..], pc := p.pc + 1), script, b, told, published, said)
  {
    ForeignStarts(script, b, p.pc, told);
  }

  lemma AnnouncingIsOk(p: Perf, script: Script, b: string, told: nat, published: nat, said: nat)
    requires told <= published <= |script| && PartOk(p, script, b, told, published, said)
    requires p.spoken && p.Mine(b)
    ensures PartOk(p.(spoken := false, pc := p.pc + 1), script, b, told, published + 1, said)
  {
  }

  /** No advance ever finds a waiting bot's buffer full. */
  lemma NothingOverflows(t: Stage, c: Cast, a: Action)
    requires OrderInv(t, c) && InOrder(t, c, a) && a.Deliver? && t.s.log[a.i].SkitAdvance?
    requires c.nonce in t.s.bots[a.bot]
    ensures |t.s.bots[a.bot][c.nonce].buffer| < |t.s.bots[a.bot][c.nonce].script|
  {
    assert BotOk(t, c, a.bot);
    HearingIsOk(t.s.bots[a.bot][c.nonce], c.Script(), a.bot, a.i - 1, Published(t), |Said(t.s, c.nonce)|);
  }

  /** The advance a bot takes is always the one it is waiting for. */
  lemma NothingNeededIsDiscarded(t: Stage, c: Cast, a: Action)
    requires OrderInv(t, c) && InOrder(t, c, a) && a.Take?
    ensures t.s.bots[a.bot][a.nonce].buffer[0] == t.s.bots[a.bot][a.nonce].pc
  {
    assert BotOk(t, c, a.bot);
    TakingIsOk(t.s.bots[a.bot][a.nonce], c.Script(), a.bot, t.cur[a.bot] - 1, Published(t), |Said(t.s, c.nonce)|);
  }

  /** What a bot not yet told of the run has done in it: nothing. */
  lemma Unbegun(t: Stage, c: Cast, b: string)
    requires OrderInv(t, c) && b in t.s.bots && t.cur[b] == 0
    ensures forall j :: 0 <= j < Published(t) ==> c.Script()[j].bot != b
  {
    assert BotOk(t, c, b);
    forall j | 0 <= j < Published(t)
      ensures c.Script()[j].bot != b
    {
      assert LineOk(t.s, c.scripts, c.nonce, j);
    }
  }

  lemma DeliverStart(t: Stage, c: Cast, a: Action)
    requires Orderly(t, c) && InOrder(t, c, a) && a.Deliver? && a.i == 0
    requires forall j :: 0 <= j < Published(t) ==> c.Script()[j].bot != a.bot
    ensures BotOk(Play(t, c, a), c, a.bot)
  {
    assert BotOk(t, c, a.bot);
  }

  lemma Delivered(t: Stage, c: Cast, a: Action, from: string, step: nat)
    requires InOrder(t, c, a) && a.Deliver? && t.s.log[a.i] == SkitAdvance(from, c.skit, step, c.nonce)
    ensures var t', b := Play(t, c, a), a.bot;
            && b in t'.s.bots && b in t'.cur && t'.cur[b] == a.i + 1
            && t'.s.bots[b] == Buffered(t.s.bots[b], b, from, c.nonce, step)
            && t'.s.begun == t.s.begun && t'.s.log == t.s.log && t'.s.said == t.s.said
  {
  }

  lemma DeliverAdvance(t: Stage, c: Cast, a: Action)
    requires Orderly(t, c) && InOrder(t, c, a) && a.Deliver? && a.i > 0
    ensures BotOk(Play(t, c, a), c, a.bot)
  {
    var j := a.i - 1;
    assert t.s.log[a.i] == SkitAdvance(c.Script()[j].bot, c.skit, j, c.nonce);
    assert BotOk(t, c, a.bot);
    Delivered(t, c, a, c.Script()[j].bot, j);
    AdvanceHeard(c.Script(), c.nonce, a.bot, t.s.bots[a.bot], a.i, Published(t), |Said(t.s, c.nonce)|);
  }

  lemma AdvanceHeard(script: Script, n: string, b: string, ps: Perfs, cur: nat, published: nat, said: nat)
    requires 0 < cur <= published <= |script| && BotAt(script, n, b, ps, cur, true, published, said)
    ensures BotAt(script, n, b, Buffered(ps, b, script[cur - 1].bot, n, cur - 1), cur + 1, true, published, said)
  {
    if n in ps {
      HearingIsOk(ps[n], script, b, cur - 1, published, said);
    }
  }

  lemma TakeSelf(t: Stage, c: Cast, a: Action)
    requires Orderly(t, c) && InOrder(t, c, a) && a.Take?
    ensures BotOk(Play(t, c, a), c, a.bot)
  {
    assert BotOk(t, c, a.bot);
    TakingIsOk(t.s.bots[a.bot][c.nonce], c.Script(), a.bot, t.cur[a.bot] - 1, Published(t), |Said(t.s, c.nonce)|);
  }

  /** A line is only ever said when all before it have been announced. */
  lemma SpeakSelf(t: Stage, c: Cast, a: Action)
    requires Orderly(t, c) && InOrder(t, c, a) && a.Speak?
    ensures t.s.bots[a.bot][a.nonce].pc == Published(t) == |Said(t.s, c.nonce)| < |c.Script()|
    ensures c.Script()[Published(t)].bot == a.bot
    ensures BotOk(Play(t, c, a), c, a.bot)
  {
    assert BotOk(t, c, a.bot);
  }

  lemma AnnounceSelf(t: Stage, c: Cast, a: Action)
    requires Orderly(t, c) && InOrder(t, c, a) && a.Announce?
    ensures t.s.bots[a.bot][a.nonce].pc == Published(t) < |Said(t.s, c.nonce)|
    ensures c.Script()[Published(t)].bot == a.bot
    ensures BotOk(Play(t, c, a), c, a.bot)
  {
    assert BotOk(t, c, a.bot);
    AnnouncingIsOk(t.s.bots[a.bot][c.nonce], c.Script(), a.bot, t.cur[a.bot] - 1, Published(t), |Said(t.s, c.nonce)|);
  }

  /** The others' view of a line being said, and being announced. */
  lemma OthersHearNothing(script: Script, n: string, b: string, ps: Perfs, cur: nat, began: bool, published: nat)
    requires published < |script| && BotAt(script, n, b, ps, cur, began, published, published)
    ensures BotAt(script, n, b, ps, cur, began, published, published + 1)
  {
  }

  lemma OthersAreBehind(script: Script, n: string, b: string, ps: Perfs, cur: nat, began: bool, published: nat)
    requires published < |script| && BotAt(script, n, b, ps, cur, began, published, published + 1)
    requires script[published].bot != b
    ensures BotAt(script, n, b, ps, cur, began, published + 1, published + 1)
  {
  }

  /** What an action does not touch. */
  lemma Untouched(t: Stage, c: Cast, a: Action, o: string)
    requires InOrder(t, c, a) && o in t.s.bots && o in t.cur && o != a.bot
    ensures var t' := Play(t, c, a);
            && o in t'.s.bots && t'.s.bots[o] == t.s.bots[o] && o in t'.cur && t'.cur[o] == t.cur[o]
            && ((o, c.nonce) in t'.s.begun <==> (o, c.nonce) in t.s.begun)
  {
  }

  lemma Counts(t: Stage, c: Cast, a: Action)
    requires Orderly(t, c) && InOrder(t, c, a)
    ensures Published(Play(t, c, a)) == Published(t) + if a.Announce? then 1 else 0
    ensures |Said(Play(t, c, a).s, c.nonce)| == |Said(t.s, c.nonce)| + if a.Speak? then 1 else 0
  {
    assert BotOk(t, c, a.bot);
  }

  /** An action leaves the other bots in order. */
  lemma OthersKeep(t: Stage, c: Cast, a: Action, o: string)
    requires Orderly(t, c) && InOrder(t, c, a) && o in t.s.bots && o != a.bot
    ensures 0 <= Published(Play(t, c, a)) <= |c.Script()| && BotOk(Play(t, c, a), c, o)
  {
    assert BotOk(t, c, o);
    Untouched(t, c, a, o);
    Counts(t, c, a);
    var began := (o, c.nonce) in t.s.begun;
    if a.Speak? {
      SpeakSelf(t, c, a);
      OthersHearNothing(c.Script(), c.nonce, o, t.s.bots[o], t.cur[o], began, Published(t));
    } else if a.Announce? {
      AnnounceSelf(t, c, a);
      OthersAreBehind(c.Script(), c.nonce, o, t.s.bots[o], t.cur[o], began, Published(t));
    }
  }

  lemma LogKeeps(t: Stage, c: Cast, a: Action)
    requires Orderly(t, c) && InOrder(t, c, a)
    ensures LogOk(Play(t, c, a), c)
  {
    if a.Speak? {
      SpeakSelf(t, c, a);
    } else if a.Announce? {
      AnnounceSelf(t, c, a);
      assert BotOk(t, c, a.bot);
    }
  }

  /** A bot that has a line to announce keeps it until it does. */
  lemma SpokenStays(t: Stage, c: Cast, a: Action, b: string)
    requires Orderly(t, c) && InOrder(t, c, a) && !a.Announce? && !a.Speak?
    requires Performs(t.s, b, c.nonce) && t.s.bots[b][c.nonce].spoken
    ensures Performs(Play(t, c, a).s, b, c.nonce) && Play(t, c, a).s.bots[b][c.nonce].spoken
  {
    if b == a.bot {
      assert BotOk(t, c, b);
    } else {
      Untouched(t, c, a, b);
    }
  }

  lemma PendingWhileQuiet(t: Stage, c: Cast, a: Action)
    requires Orderly(t, c) && InOrder(t, c, a) && !a.Announce? && !a.Speak?
    ensures PendingOk(Play(t, c, a), c)
  {
    Counts(t, c, a);
    if |Said(t.s, c.nonce)| == Published(t) + 1 {
      SpokenStays(t, c, a, c.Script()[Published(t)].bot);
    }
  }

  lemma PendingKeeps(t: Stage, c: Cast, a: Action)
    requires Orderly(t, c) && InOrder(t, c, a)
    ensures PendingOk(Play(t, c, a), c)
  {
    if a.Speak? {
      SpeakSelf(t, c, a);
    } else if a.Announce? {
      AnnounceSelf(t, c, a);
    } else {
      PendingWhileQuiet(t, c, a);
    }
  }

  lemma SelfKeeps(t: Stage, c: Cast, a: Action)
    requires OrderInv(t, c) && InOrder(t, c, a)
    ensures 0 <= Published(Play(t, c, a)) <= |c.Script()| && BotOk(Play(t, c, a), c, a.bot)
  {
    match a
    case Deliver(_, i) =>
      if i == 0 {
        Unbegun(t, c, a.bot);
        DeliverStart(t, c, a);
      } else {
        DeliverAdvance(t, c, a);
      }
    case Speak(_, _) => SpeakSelf(t, c, a);
    case Announce(_, _) => AnnounceSelf(t, c, a);
    case Take(_, _) => TakeSelf(t, c, a);
    case End(_, _) => assert BotOk(t, c, a.bot);
  }

  lemma FleetStays(t: Stage, c: Cast, a: Action)
    requires InOrder(t, c, a) && t.cur.Keys == t.s.bots.Keys
    ensures Play(t, c, a).cur.Keys == Play(t, c, a).s.bots.Keys == t.s.bots.Keys
  {
  }

  lemma BotsKeep(t: Stage, c: Cast, a: Action, o: string)
    requires OrderInv(t, c) && InOrder(t, c, a) && o in t.s.bots
    ensures 0 <= Published(Play(t, c, a)) <= |c.Script()|
    ensures o in Play(t, c, a).s.bots && o in Play(t, c, a).cur && BotOk(Play(t, c, a), c, o)
  {
    if o == a.bot {
      SelfKeeps(t, c, a);
    } else {
      OthersKeep(t, c, a, o);
    }
  }

  lemma PlayStaysOrderly(t: Stage, c: Cast, a: Action, t': Stage)
    requires OrderInv(t, c) && InOrder(t, c, a) && t' == Play(t, c, a)
    ensures Orderly(t', c)
  {
    LogKeeps(t, c, a);
    PendingKeeps(t, c, a);
    FleetStays(t, c, a);
    forall o | o in t'.s.bots
      ensures BotOk(t', c, o)
    {
      BotsKeep(t, c, a, o);
    }
  }

  lemma PlayKeeps(t: Stage, c: Cast, a: Action)
    requires OrderInv(t, c) && InOrder(t, c, a)
    ensures OrderInv(Play(t, c, a), c)
  {
    StepKeeps(t.s, c.scripts, a);
    PlayStaysOrderly(t, c, a, Play(t, c, a));
  }

  // --- No deadlock ---

  /** A bot that is behind can be delivered the next event. */
  lemma CanDeliver(t: Stage, c: Cast, b: string)
    requires Orderly(t, c) && b in t.s.bots && t.cur[b] < |t.s.log|
    ensures InOrder(t, c, Deliver(b, t.cur[b]))
  {
    assert BotOk(t, c, b);
  }

  /** What a fully informed performer does next. */
  lemma NextMove(t: Stage, c: Cast, b: string) returns (a: Action)
    requires Orderly(t, c) && Performs(t.s, b, c.nonce) && t.cur[b] == |t.s.log|
    requires |Said(t.s, c.nonce)| == Published(t)
    requires Published(t) < |c.Script()| ==> c.Script()[Published(t)].bot == b
    ensures InOrder(t, c, a)
  {
    assert BotOk(t, c, b);
    var p := t.s.bots[b][c.nonce];
    if p.pc < Published(t) {
      ForeignStarts(p.script, b, p.pc, Published(t));
      return Take(b, c.nonce);
    }
    return if p.Done() then End(b, c.nonce) else Speak(b, c.nonce);
  }

  lemma CanAnnounce(t: Stage, c: Cast)
    requires Orderly(t, c) && |Said(t.s, c.nonce)| == Published(t) + 1
    ensures InOrder(t, c, Announce(c.Script()[Published(t)].bot, c.nonce))
  {
    assert BotOk(t, c, c.Script()[Published(t)].bot);
  }

  lemma WholeIsSaid(t: Stage, c: Cast)
    requires OrderInv(t, c) && |Said(t.s, c.nonce)| == |c.Script()|
    ensures Said(t.s, c.nonce) == Recital(c.Script())
  {
    forall i | 0 <= i < |c.Script()|
      ensures Said(t.s, c.nonce)[i] == Recital(c.Script())[i]
    {
      assert LineOk(t.s, c.scripts, c.nonce, i);
    }
  }

  ghost predicate CanMove(t: Stage, c: Cast) {
    exists a :: InOrder(t, c, a)
  }

  /** Every performance is over. */
  ghost predicate AllOver(t: Stage) {
    forall b :: b in t.s.bots ==> t.s.bots[b] == map[]
  }

  lemma MoveOrDone(t: Stage, c: Cast)
    requires Orderly(t, c) && AllPresent(t, c) && !CanMove(t, c)
    ensures |Said(t.s, c.nonce)| == |c.Script()| && AllOver(t)
  {
    var script, n, p := c.Script(), c.nonce, Published(t);
    forall b | b in t.s.bots
      ensures BotOk(t, c, b) && t.cur[b] == |t.s.log|
    {
      assert BotOk(t, c, b);
      if t.cur[b] < |t.s.log| {
        CanDeliver(t, c, b);
      }
    }
    if |Said(t.s, n)| == p + 1 {
      CanAnnounce(t, c);
    }
    if p < |script| {
      var a := NextMove(t, c, script[p].bot);
    }
    if b :| Performs(t.s, b, n) {
      var a := NextMove(t, c, b);
    }
    forall b | b in t.s.bots
      ensures t.s.bots[b] == map[]
    {
      assert !Performs(t.s, b, n);
      assert BotOk(t, c, b);
    }
  }

  /** While anything is left to do, something can be done: being unable to move means
      that the whole script has been said and every performance is over. */
  lemma NeverStuck(t: Stage, c: Cast)
    requires OrderInv(t, c) && AllPresent(t, c) && !CanMove(t, c)
    ensures Said(t.s, c.nonce) == Recital(c.Script()) && AllOver(t)
  {
    MoveOrDone(t, c);
    WholeIsSaid(t, c);
  }

  // --- The run ends ---

  /** How many actions a bot still has ahead of it, at most. */
  function Ahead(t: Stage, c: Cast, b: string): int
    requires c.Proper() && b in t.cur && b in t.s.bots
  {
    var m := |c.Script()|;
    m + 1 - t.cur[b] +
    if c.nonce in t.s.bots[b] then
      var p := t.s.bots[b][c.nonce];
      1 + 2 * (m - p.pc) - if p.spoken then 1 else 0
    else if t.cur[b] == 0 then 2 * m + 2 else 0
  }

  /** The same for the whole fleet, listed in `crew`. */
  ghost function Remaining(t: Stage, c: Cast, crew: seq<string>): int
    requires c.Proper() && forall b :: b in crew ==> b in t.cur && b in t.s.bots
  {
    if crew == [] then 0 else Ahead(t, c, crew[0]) + Remaining(t, c, crew[1..])
  }

  /** Each bot of the fleet once. */
  ghost predicate Lists(crew: seq<string>, t: Stage) {
    && (forall b :: b in crew <==> b in t.s.bots)
    && forall i, j :: 0 <= i < j < |crew| ==> crew[i] != crew[j]
  }

  lemma AheadIsNat(t: Stage, c: Cast, b: string)
    requires Orderly(t, c) && b in t.s.bots
    ensures Ahead(t, c, b) >= 0
  {
    assert BotOk(t, c, b);
  }

  lemma {:induction false} RemainingIsNat(t: Stage, c: Cast, crew: seq<string>)
    requires Orderly(t, c) && forall b :: b in crew ==> b in t.s.bots
    ensures Remaining(t, c, crew) >= 0
  {
    if crew != [] {
      AheadIsNat(t, c, crew[0]);
      RemainingIsNat(t, c, crew[1..]);
    }
  }

  lemma DeliveryDrops(t: Stage, c: Cast, a: Action)
    requires Orderly(t, c) && InOrder(t, c, a) && a.Deliver?
    ensures Ahead(Play(t, c, a), c, a.bot) < Ahead(t, c, a.bot)
  {
    assert BotOk(t, c, a.bot);
  }

  lemma TakingDrops(t: Stage, c: Cast, a: Action)
    requires Orderly(t, c) && InOrder(t, c, a) && a.Take?
    ensures Ahead(Play(t, c, a), c, a.bot) < Ahead(t, c, a.bot)
  {
    assert BotOk(t, c, a.bot);
    TakingIsOk(t.s.bots[a.bot][c.nonce], c.Script(), a.bot, t.cur[a.bot] - 1, Published(t), |Said(t.s, c.nonce)|);
  }

  lemma AheadDrops(t: Stage, c: Cast, a: Action)
    requires Orderly(t, c) && InOrder(t, c, a)
    ensures Ahead(Play(t, c, a), c, a.bot) < Ahead(t, c, a.bot)
  {
    if a.Deliver? {
      DeliveryDrops(t, c, a);
    } else if a.Take? {
      TakingDrops(t, c, a);
    } else {
      assert BotOk(t, c, a.bot);
    }
  }

  lemma AheadStays(t: Stage, c: Cast, a: Action, o: string)
    requires Orderly(t, c) && InOrder(t, c, a) && o in t.s.bots && o != a.bot
    ensures Ahead(Play(t, c, a), c, o) == Ahead(t, c, o)
  {
  }

  lemma {:induction false} RemainingDrops(t: Stage, c: Cast, a: Action, crew: seq<string>)
    requires Orderly(t, c) && InOrder(t, c, a)
    requires forall b :: b in crew ==> b in t.s.bots
    requires forall i, j :: 0 <= i < j < |crew| ==> crew[i] != crew[j]
    ensures Remaining(Play(t, c, a), c, crew) <= Remaining(t, c, crew) - if a.bot in crew then 1 else 0
  {
    if crew != [] {
      RemainingDrops(t, c, a, crew[1..]);
      if crew[0] == a.bot {
        AheadDrops(t, c, a);
      } else {
        AheadStays(t, c, a, crew[0]);
      }
    }
  }

  ghost predicate Plays(t: Stage, c: Cast, actions: seq<Action>, t': Stage)
    decreases |actions|
  {
    if actions == [] then t == t'
    else InOrder(t, c, actions[0]) && Plays(Play(t, c, actions[0]), c, actions[1..], t')
  }

  lemma {:induction false} OrderAlways(t: Stage, c: Cast, crew: seq<string>, actions: seq<Action>, t': Stage)
    requires OrderInv(t, c) && Plays(t, c, actions, t') && Lists(crew, t)
    ensures OrderInv(t', c) && t'.s.bots.Keys == t.s.bots.Keys
    ensures |actions| <= Remaining(t, c, crew) - Remaining(t', c, crew)
    decreases |actions|
  {
    if actions != [] {
      var next := Play(t, c, actions[0]);
      PlayKeeps(t, c, actions[0]);
      RemainingDrops(t, c, actions[0], crew);
      OrderAlways(next, c, crew, actions[1..], t');
    }
  }

  lemma {:induction false} RemainingAtOpening(t: Stage, c: Cast, crew: seq<string>)
    requires Opening(t, c) && forall b :: b in crew ==> b in t.s.bots
    ensures Remaining(t, c, crew) == |crew| * (3 * |c.Script()| + 3)
  {
    if crew != [] {
      RemainingAtOpening(t, c, crew[1..]);
      var whole := 3 * |c.Script()| + 3;
      assert |crew| * whole == whole + |crew[1..]| * whole;
    }
  }

  /** Every run of a skit is over after so many actions. One that can go no further has
      said the whole script, each line once, in order and by its owner, and leaves
      no performance behind. */
  lemma SkitsAreCompleted(t: Stage, c: Cast, crew: seq<string>, actions: seq<Action>, t': Stage)
    requires Opening(t, c) && AllPresent(t, c) && Lists(crew, t) && Plays(t, c, actions, t')
    ensures |actions| <= |crew| * (3 * |c.Script()| + 3)
    ensures !CanMove(t', c) ==> Said(t'.s, c.nonce) == Recital(c.Script()) && AllOver(t')
  {
    OpeningIsOk(t, c);
    OrderAlways(t, c, crew, actions, t');
    RemainingAtOpening(t, c, crew);
    RemainingIsNat(t', c, crew);
    if !CanMove(t', c) {
      NeverStuck(t', c);
    }
  }

  /** On the way, no buffer overflows, no awaited advance is discarded, and no bot
      falls further behind than the start and one advance per step. */
  lemma NothingIsMissed(t: Stage, c: Cast, crew: seq<string>, actions: seq<Action>, t': Stage, a: Action)
    requires Opening(t, c) && Lists(crew, t) && Plays(t, c, actions, t') && InOrder(t', c, a)
    ensures a.Deliver? && t'.s.log[a.i].SkitAdvance? && c.nonce in t'.s.bots[a.bot] ==>
              |t'.s.bots[a.bot][c.nonce].buffer| < |t'.s.bots[a.bot][c.nonce].script|
    ensures a.Take? ==> t'.s.bots[a.bot][a.nonce].buffer[0] == t'.s.bots[a.bot][a.nonce].pc
    ensures a.bot in t'.cur && |t'.s.log| - t'.cur[a.bot] <= |c.Script()| + 1
  {
    OpeningIsOk(t, c);
    OrderAlways(t, c, crew, actions, t');
    if a.Take? {
      NothingNeededIsDiscarded(t', c, a);
    } else if a.Deliver? && t'.s.log[a.i].SkitAdvance? && c.nonce in t'.s.bots[a.bot] {
      NothingOverflows(t', c, a);
    }
  }
}
