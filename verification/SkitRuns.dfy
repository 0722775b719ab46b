/** Many runs at a time on the same bots, over a bus that delivers everything to everyone
    in one order. Starts come at any moment, and the other runs may end early: whatever
    they do, a run that no bot leaves is played as if it were the only one. */
module SkitRuns {
  import opened Bus
  import opened Coordinator
  import opened SkitSystem
  import opened SkitProgress

  /** The run an action belongs to. */
  function RunOf(s: System, a: Action): string
    requires a.Deliver? ==> a.i < |s.log|
  {
    if a.Deliver? then s.log[a.i].nonce else a.nonce
  }

  /** What can happen on the ordered bus while nobody leaves run n before its end. */
  predicate Possible(t: Stage, scripts: Scripts, n: string, a: Action) {
    && Enabled(t.s, scripts, a)
    && match a
       case Deliver(b, i) => b in t.cur && i == t.cur[b]
       case End(b, m) => m == n ==> t.s.bots[b][m].Done()
       case _ => true
  }

  function After(t: Stage, scripts: Scripts, n: string, a: Action): Stage
    requires Possible(t, scripts, n, a)
  {
    Stage(Do(t.s, scripts, a), if a.Deliver? then t.cur[a.bot := t.cur[a.bot] + 1] else t.cur)
  }

  // --- One run among many ---

  /** The events of a run. */
  function Of(log: seq<Event>, n: string): seq<Event> {
    if log == [] then []
    else
      var e := log[|log| - 1];
      Of(log[..|log| - 1], n) + if e.nonce == n then [e] else []
  }

  function PerfsOf(ps: Perfs, n: string): Perfs {
    if n in ps then map[n := ps[n]] else map[]
  }

  function BotsOf(bots: map<string, Perfs>, n: string): map<string, Perfs> {
    map b | b in bots :: PerfsOf(bots[b], n)
  }

  function BegunOf(begun: set<(string, string)>, n: string): set<(string, string)> {
    set p | p in begun && p.1 == n
  }

  function SaidOf(said: map<string, seq<Utterance>>, n: string): map<string, seq<Utterance>> {
    if n in said then map[n := said[n]] else map[]
  }

  /** A fleet as it would be with only one of its runs. */
  function Only(s: System, n: string): System
    requires n in s.skitOf
  {
    System(BotsOf(s.bots, n), BegunOf(s.begun, n), Of(s.log, n), map[n := s.skitOf[n]], SaidOf(s.said, n))
  }

  ghost predicate Placed(t: Stage) {
    t.cur.Keys == t.s.bots.Keys && forall b :: b in t.cur ==> t.cur[b] <= |t.s.log|
  }

  /** How far each bot has got in the events of one run. */
  function Places(log: seq<Event>, cur: map<string, nat>, n: string): map<string, nat> {
    map b | b in cur :: if cur[b] <= |log| then |Of(log[..cur[b]], n)| else 0
  }

  function Alone(t: Stage, n: string): Stage
    requires n in t.s.skitOf
  {
    Stage(Only(t.s, n), Places(t.s.log, t.cur, n))
  }

  function CastOf(t: Stage, scripts: Scripts, n: string): Cast
    requires n in t.s.skitOf
  {
    Cast(scripts, t.s.skitOf[n], n)
  }

  /** An action of a run, seen by the run alone. */
  function Seen(s: System, n: string, a: Action): Action
    requires a.Deliver? ==> a.i <= |s.log|
  {
    if a.Deliver? then Deliver(a.bot, |Of(s.log[..a.i], n)|) else a
  }

  lemma OfOneMore(log: seq<Event>, e: Event, n: string)
    ensures Of(log + [e], n) == Of(log, n) + if e.nonce == n then [e] else []
  {
    assert (log + [e])[..|log|] == log;
  }

  lemma OfPrefix(log: seq<Event>, i: nat, n: string)
    requires i < |log|
    ensures Of(log[..i + 1], n) == Of(log[..i], n) + if log[i].nonce == n then [log[i]] else []
  {
    assert log[..i + 1] == log[..i] + [log[i]];
    OfOneMore(log[..i], log[i], n);
  }

  lemma {:induction false} OfAt(log: seq<Event>, i: nat, n: string)
    requires i < |log| && log[i].nonce == n
    ensures |Of(log[..i], n)| < |Of(log, n)| && Of(log, n)[|Of(log[..i], n)|] == log[i]
  {
    var m := |log| - 1;
    if i < m {
      OfAt(log[..m], i, n);
      assert log[..m][..i] == log[..i];
    }
  }

  lemma {:induction false} OfOthers(log: seq<Event>, n: string)
    requires forall i :: 0 <= i < |log| ==> log[i].nonce != n
    ensures Of(log, n) == []
  {
    if log != [] {
      OfOthers(log[..|log| - 1], n);
    }
  }

  lemma PlacesStay(log: seq<Event>, e: Event, cur: map<string, nat>, n: string)
    requires forall b :: b in cur ==> cur[b] <= |log|
    ensures Places(log + [e], cur, n) == Places(log, cur, n)
  {
    forall b | b in cur
      ensures (log + [e])[..cur[b]] == log[..cur[b]]
    {
    }
  }

  lemma PlacesMove(log: seq<Event>, cur: map<string, nat>, b: string, n: string)
    requires b in cur && cur[b] < |log|
    ensures Places(log, cur[b := cur[b] + 1], n) ==
            if log[cur[b]].nonce == n then Places(log, cur, n)[b := |Of(log[..cur[b]], n)| + 1]
            else Places(log, cur, n)
  {
    OfPrefix(log, cur[b], n);
  }

  lemma PutOf(ps: Perfs, m: string, p: Perf, n: string)
    ensures PerfsOf(ps[m := p], n) == if m == n then PerfsOf(ps, n)[n := p] else PerfsOf(ps, n)
  {
  }

  lemma DropOf(ps: Perfs, m: string, n: string)
    ensures PerfsOf(ps - {m}, n) == if m == n then PerfsOf(ps, n) - {n} else PerfsOf(ps, n)
  {
  }

  /** A bot's handling of an event concerns the run of the event only. */
  lemma HeardOf(ps: Perfs, b: string, scripts: Scripts, e: Event, n: string)
    ensures PerfsOf(Heard(ps, b, scripts, e), n) ==
            if e.nonce == n then Heard(PerfsOf(ps, n), b, scripts, e) else PerfsOf(ps, n)
  {
  }

  lemma BotsPut(bots: map<string, Perfs>, b: string, ps: Perfs, n: string)
    requires b in bots
    ensures BotsOf(bots[b := ps], n) == BotsOf(bots, n)[b := PerfsOf(ps, n)]
    ensures PerfsOf(ps, n) == PerfsOf(bots[b], n) ==> BotsOf(bots[b := ps], n) == BotsOf(bots, n)
  {
  }

  /** What an action makes of its bot's performances. */
  function PerfsAfter(s: System, scripts: Scripts, a: Action): Perfs
    requires Enabled(s, scripts, a)
  {
    Do(s, scripts, a).bots[a.bot]
  }

  /** The performances of one run after an action of another are as before. */
  lemma PerfsAfterOthers(s: System, scripts: Scripts, a: Action, n: string)
    requires Enabled(s, scripts, a) && RunOf(s, a) != n
    ensures PerfsOf(PerfsAfter(s, scripts, a), n) == PerfsOf(s.bots[a.bot], n)
  {
    if a.Deliver? {
      HeardOf(s.bots[a.bot], a.bot, scripts, s.log[a.i], n);
    }
  }

  /** The rest of an action's effects on one run. */
  lemma RestAfterOf(s: System, scripts: Scripts, a: Action, n: string)
    requires Enabled(s, scripts, a) && n in s.skitOf && RunOf(s, a) != n
    ensures var s' := Do(s, scripts, a);
      && n in s'.skitOf && s'.skitOf[n] == s.skitOf[n]
      && Of(s'.log, n) == Of(s.log, n) && SaidOf(s'.said, n) == SaidOf(s.said, n)
      && BegunOf(s'.begun, n) == BegunOf(s.begun, n)
  {
    if a.Start? || a.Announce? {
      OfOneMore(s.log, Do(s, scripts, a).log[|s.log|], n);
    }
  }

  // --- What the other runs do passes it by ---

  lemma OthersPassSystem(s: System, scripts: Scripts, a: Action, n: string)
    requires Enabled(s, scripts, a) && n in s.skitOf && RunOf(s, a) != n
    ensures n in Do(s, scripts, a).skitOf && Only(Do(s, scripts, a), n) == Only(s, n)
  {
    RestAfterOf(s, scripts, a, n);
    PerfsAfterOthers(s, scripts, a, n);
    BotsPut(s.bots, a.bot, PerfsAfter(s, scripts, a), n);
    SelfPut(s, scripts, a);
  }

  /** An action changes the performances of its own bot only. */
  lemma SelfPut(s: System, scripts: Scripts, a: Action)
    requires Enabled(s, scripts, a)
    ensures Do(s, scripts, a).bots == s.bots[a.bot := PerfsAfter(s, scripts, a)]
  {
  }

  lemma LogAfter(s: System, scripts: Scripts, a: Action)
    requires Enabled(s, scripts, a)
    ensures var log' := Do(s, scripts, a).log;
      if a.Start? || a.Announce? then log' == s.log + [log'[|s.log|]] else log' == s.log
    ensures Do(s, scripts, a).bots.Keys == s.bots.Keys
  {
  }

  lemma PlacesAfter(t: Stage, scripts: Scripts, n: string, a: Action)
    requires Placed(t) && Possible(t, scripts, n, a)
    ensures var t' := After(t, scripts, n, a);
      && Placed(t')
      && Places(t'.s.log, t'.cur, n) ==
         if a.Deliver? && t.s.log[a.i].nonce == n then Places(t.s.log, t.cur, n)[a.bot := |Of(t.s.log[..a.i], n)| + 1]
         else Places(t.s.log, t.cur, n)
  {
    var log' := Do(t.s, scripts, a).log;
    LogAfter(t.s, scripts, a);
    if a.Deliver? {
      PlacesMove(t.s.log, t.cur, a.bot, n);
    } else if a.Start? || a.Announce? {
      PlacesStay(t.s.log, log'[|t.s.log|], t.cur, n);
    }
  }

  lemma OthersPass(t: Stage, scripts: Scripts, n: string, a: Action)
    requires Placed(t) && Possible(t, scripts, n, a) && n in t.s.skitOf && RunOf(t.s, a) != n
    ensures var t' := After(t, scripts, n, a);
      Placed(t') && n in t'.s.skitOf && t'.s.skitOf[n] == t.s.skitOf[n] && Alone(t', n) == Alone(t, n)
  {
    RestAfterOf(t.s, scripts, a, n);
    OthersPassSystem(t.s, scripts, a, n);
    PlacesAfter(t, scripts, n, a);
  }

  // --- What the run does, it does alone ---

  /** An action of the run is one that it could take alone... */
  lemma OwnEnabled(s: System, scripts: Scripts, a: Action, n: string)
    requires Enabled(s, scripts, a) && n in s.skitOf && RunOf(s, a) == n
    ensures Enabled(Only(s, n), scripts, Seen(s, n, a))
    ensures a.Deliver? ==> Only(s, n).log[Seen(s, n, a).i] == s.log[a.i]
  {
    if a.Deliver? {
      OfAt(s.log, a.i, n);
    }
  }

  lemma OwnLog(s: System, scripts: Scripts, a: Action, n: string)
    requires Enabled(s, scripts, a) && n in s.skitOf && RunOf(s, a) == n
    requires var a' := Seen(s, n, a);
      Enabled(Only(s, n), scripts, a') && (a.Deliver? ==> Only(s, n).log[a'.i] == s.log[a.i])
    ensures var s', o' := Do(s, scripts, a), Do(Only(s, n), scripts, Seen(s, n, a));
      s'.skitOf == s.skitOf && o'.skitOf == map[n := s'.skitOf[n]] && o'.log == Of(s'.log, n)
  {
    if a.Announce? {
      OfOneMore(s.log, Do(s, scripts, a).log[|s.log|], n);
    }
  }

  lemma OwnSaid(s: System, scripts: Scripts, a: Action, n: string)
    requires Enabled(s, scripts, a) && n in s.skitOf && RunOf(s, a) == n
    requires var a' := Seen(s, n, a);
      Enabled(Only(s, n), scripts, a') && (a.Deliver? ==> Only(s, n).log[a'.i] == s.log[a.i])
    ensures var s', o' := Do(s, scripts, a), Do(Only(s, n), scripts, Seen(s, n, a));
      o'.said == SaidOf(s'.said, n) && o'.begun == BegunOf(s'.begun, n)
  {
  }

  lemma OwnPerfs(s: System, scripts: Scripts, a: Action, n: string)
    requires Enabled(s, scripts, a) && n in s.skitOf && RunOf(s, a) == n
    requires var a' := Seen(s, n, a);
      Enabled(Only(s, n), scripts, a') && (a.Deliver? ==> Only(s, n).log[a'.i] == s.log[a.i])
    ensures PerfsOf(PerfsAfter(s, scripts, a), n) == PerfsAfter(Only(s, n), scripts, Seen(s, n, a))
  {
    if a.Deliver? {
      HeardOf(s.bots[a.bot], a.bot, scripts, s.log[a.i], n);
    } else if a.End? {
      DropOf(s.bots[a.bot], n, n);
    }
  }

  lemma OwnBots(s: System, scripts: Scripts, a: Action, n: string)
    requires Enabled(s, scripts, a) && n in s.skitOf && RunOf(s, a) == n
    requires var a' := Seen(s, n, a);
      Enabled(Only(s, n), scripts, a') && (a.Deliver? ==> Only(s, n).log[a'.i] == s.log[a.i])
    ensures Do(Only(s, n), scripts, Seen(s, n, a)).bots == BotsOf(Do(s, scripts, a).bots, n)
  {
    OwnPerfs(s, scripts, a, n);
    BotsPut(s.bots, a.bot, PerfsAfter(s, scripts, a), n);
    SelfPut(s, scripts, a);
    SelfPut(Only(s, n), scripts, Seen(s, n, a));
  }

  /** ... and does to it what it would do alone. */
  lemma OwnSystem(s: System, scripts: Scripts, a: Action, n: string)
    requires Enabled(s, scripts, a) && n in s.skitOf && RunOf(s, a) == n
    ensures var s', a' := Do(s, scripts, a), Seen(s, n, a);
      && Enabled(Only(s, n), scripts, a') && s'.skitOf == s.skitOf
      && Do(Only(s, n), scripts, a') == Only(s', n)
  {
    OwnEnabled(s, scripts, a, n);
    OwnLog(s, scripts, a, n);
    OwnSaid(s, scripts, a, n);
    OwnBots(s, scripts, a, n);
  }

  lemma OwnInOrder(t: Stage, scripts: Scripts, n: string, a: Action)
    requires Placed(t) && Possible(t, scripts, n, a) && n in t.s.skitOf && RunOf(t.s, a) == n
    ensures InOrder(Alone(t, n), CastOf(t, scripts, n), Seen(t.s, n, a))
  {
    OwnEnabled(t.s, scripts, a, n);
  }

  lemma OwnPlaces(t: Stage, scripts: Scripts, n: string, a: Action)
    requires Placed(t) && Possible(t, scripts, n, a) && n in t.s.skitOf && RunOf(t.s, a) == n
    ensures var t', a', cur := After(t, scripts, n, a), Seen(t.s, n, a), Places(t.s.log, t.cur, n);
      && Placed(t') && (a'.Deliver? ==> a'.bot in cur)
      && Places(t'.s.log, t'.cur, n) == if a'.Deliver? then cur[a'.bot := cur[a'.bot] + 1] else cur
  {
    PlacesAfter(t, scripts, n, a);
  }

  lemma PlayIs(t: Stage, c: Cast, a: Action, s': System, cur': map<string, nat>)
    requires InOrder(t, c, a) && s' == Do(t.s, c.scripts, a)
    requires cur' == if a.Deliver? then t.cur[a.bot := t.cur[a.bot] + 1] else t.cur
    ensures Play(t, c, a) == Stage(s', cur')
  {
  }

  lemma OwnPlays(t: Stage, scripts: Scripts, n: string, a: Action)
    requires Placed(t) && Possible(t, scripts, n, a) && n in t.s.skitOf && RunOf(t.s, a) == n
    ensures var c, t', a' := CastOf(t, scripts, n), After(t, scripts, n, a), Seen(t.s, n, a);
      && Placed(t') && t'.s.skitOf == t.s.skitOf
      && InOrder(Alone(t, n), c, a') && Alone(t', n) == Play(Alone(t, n), c, a')
  {
    var t' := After(t, scripts, n, a);
    OwnInOrder(t, scripts, n, a);
    OwnSystem(t.s, scripts, a, n);
    OwnPlaces(t, scripts, n, a);
    PlayIs(Alone(t, n), CastOf(t, scripts, n), Seen(t.s, n, a), Only(t'.s, n), Places(t'.s.log, t'.cur, n));
  }

  // --- A run begins ---

  lemma SpeakersAreKnown(s: System, scripts: Scripts, n: string)
    requires Inv(s, scripts) && Said(s, n) != []
    ensures n in s.skitOf
  {
    assert LineOk(s, scripts, n, 0);
  }

  lemma NothingBefore(t: Stage, scripts: Scripts, n: string)
    requires Inv(t.s, scripts) && Placed(t) && n !in t.s.skitOf
    ensures Of(t.s.log, n) == [] && BegunOf(t.s.begun, n) == {}
    ensures forall b :: b in t.s.bots ==> n !in t.s.bots[b] && Of(t.s.log[..t.cur[b]], n) == []
  {
    forall i | 0 <= i < |t.s.log|
      ensures t.s.log[i].nonce != n
    {
      assert EventOk(t.s, scripts, t.s.log[i]);
    }
    OfOthers(t.s.log, n);
    forall b | b in t.s.bots
      ensures n !in t.s.bots[b] && Of(t.s.log[..t.cur[b]], n) == []
    {
      OfOthers(t.s.log[..t.cur[b]], n);
      assert Performs(t.s, b, n) ==> PerfOk(t.s, scripts, b, n);
    }
  }

  lemma StartOpens(t: Stage, scripts: Scripts, n: string, a: Action)
    requires Inv(t.s, scripts) && Placed(t) && Possible(t, scripts, n, a) && a.Start? && a.nonce == n
    requires n !in t.s.said
    ensures var t' := After(t, scripts, n, a);
      Placed(t') && n in t'.s.skitOf && Opening(Alone(t', n), CastOf(t', scripts, n))
  {
    var t' := After(t, scripts, n, a);
    NothingBefore(t, scripts, n);
    OfOneMore(t.s.log, t'.s.log[|t.s.log|], n);
    PlacesStay(t.s.log, t'.s.log[|t.s.log|], t.cur, n);
  }

  // --- What always holds ---

  /** No nonce is started twice, and no bot has begun what it has yet to be told of. */
  ghost predicate StartsOnce(t: Stage) {
    && (forall i, j :: 0 <= i < j < |t.s.log| && t.s.log[i].SkitStart? && t.s.log[j].SkitStart? ==>
          t.s.log[i].nonce != t.s.log[j].nonce)
    && forall b, i :: b in t.cur && t.cur[b] <= i < |t.s.log| && t.s.log[i].SkitStart? ==>
         (b, t.s.log[i].nonce) !in t.s.begun
  }

  ghost predicate Sound(t: Stage, scripts: Scripts, n: string) {
    && Inv(t.s, scripts) && Placed(t) && StartsOnce(t) && t.s.said.Keys <= t.s.skitOf.Keys
    && (n in t.s.skitOf ==> OrderInv(Alone(t, n), CastOf(t, scripts, n)))
  }

  lemma AllKnown(s: System, scripts: Scripts, a: Action)
    requires Inv(s, scripts) && Enabled(s, scripts, a) && !a.Start?
    ensures RunOf(s, a) in s.skitOf
  {
    if a.Deliver? {
      assert EventOk(s, scripts, s.log[a.i]);
    } else {
      assert PerfOk(s, scripts, a.bot, a.nonce);
    }
  }

  lemma SaidStaysKnown(s: System, scripts: Scripts, a: Action)
    requires Inv(s, scripts) && Enabled(s, scripts, a) && s.said.Keys <= s.skitOf.Keys
    ensures Do(s, scripts, a).said.Keys <= Do(s, scripts, a).skitOf.Keys
  {
    if a.Speak? {
      AllKnown(s, scripts, a);
    }
  }

  lemma StartIsNew(s: System, scripts: Scripts, n: string)
    requires Inv(s, scripts) && n !in s.skitOf
    ensures forall i :: 0 <= i < |s.log| ==> s.log[i].nonce != n
    ensures forall b :: (b, n) !in s.begun
  {
    forall i | 0 <= i < |s.log|
      ensures s.log[i].nonce != n
    {
      assert EventOk(s, scripts, s.log[i]);
    }
  }

  lemma OnceMore(t: Stage, e: Event, log': seq<Event>, t': Stage)
    requires Placed(t) && StartsOnce(t) && log' == t.s.log + [e] && t'.s.log == log'
    requires t'.cur == t.cur && t'.s.begun == t.s.begun
    requires e.SkitStart? ==>
               && (forall i :: 0 <= i < |t.s.log| ==> t.s.log[i].nonce != e.nonce)
               && forall b :: (b, e.nonce) !in t.s.begun
    ensures StartsOnce(t')
  {
  }

  lemma OnceTold(t: Stage, b: string, t': Stage)
    requires Placed(t) && StartsOnce(t) && b in t.cur && t.cur[b] < |t.s.log| && t'.s.log == t.s.log
    requires t'.cur == t.cur[b := t.cur[b] + 1]
    requires t'.s.begun == t.s.begun ||
             (t.s.log[t.cur[b]].SkitStart? && t'.s.begun == t.s.begun + {(b, t.s.log[t.cur[b]].nonce)})
    ensures StartsOnce(t')
  {
  }

  lemma StartsStayOnce(t: Stage, scripts: Scripts, n: string, a: Action)
    requires Inv(t.s, scripts) && Placed(t) && StartsOnce(t) && Possible(t, scripts, n, a)
    ensures StartsOnce(After(t, scripts, n, a))
  {
    var t' := After(t, scripts, n, a);
    match a
    case Start(_, _, m) =>
      StartIsNew(t.s, scripts, m);
      OnceMore(t, t'.s.log[|t.s.log|], t'.s.log, t');
    case Announce(_, _) => OnceMore(t, t'.s.log[|t.s.log|], t'.s.log, t');
    case Deliver(b, _) => OnceTold(t, b, t');
    case _ =>
  }

  lemma StepStaysSound(t: Stage, scripts: Scripts, n: string, a: Action)
    requires Sound(t, scripts, n) && Possible(t, scripts, n, a)
    ensures var t' := After(t, scripts, n, a);
      && Sound(t', scripts, n) && t'.s.bots.Keys == t.s.bots.Keys
      && (n in t.s.skitOf ==> n in t'.s.skitOf && CastOf(t', scripts, n) == CastOf(t, scripts, n))
  {
    StepKeeps(t.s, scripts, a);
    SaidStaysKnown(t.s, scripts, a);
    StartsStayOnce(t, scripts, n, a);
    PlacesAfter(t, scripts, n, a);
    if n in t.s.skitOf {
      if RunOf(t.s, a) == n {
        OwnPlays(t, scripts, n, a);
        PlayKeeps(Alone(t, n), CastOf(t, scripts, n), Seen(t.s, n, a));
      } else {
        OthersPass(t, scripts, n, a);
      }
    } else {
      StepOfUnstarted(t, scripts, n, a);
    }
  }

  lemma StepOfUnstarted(t: Stage, scripts: Scripts, n: string, a: Action)
    requires Sound(t, scripts, n) && Possible(t, scripts, n, a) && n !in t.s.skitOf
    ensures var t' := After(t, scripts, n, a);
      && (n in t'.s.skitOf <==> a.Start? && a.nonce == n)
      && (n in t'.s.skitOf ==> Opening(Alone(t', n), CastOf(t', scripts, n)))
      && (n in t'.s.skitOf ==> OrderInv(Alone(t', n), CastOf(t', scripts, n)))
  {
    if a.Start? && a.nonce == n {
      StartOpens(t, scripts, n, a);
      var t' := After(t, scripts, n, a);
      OpeningIsOk(Alone(t', n), CastOf(t', scripts, n));
    }
  }

  // --- Whole runs ---

  ghost predicate Runs(t: Stage, scripts: Scripts, n: string, actions: seq<Action>, t': Stage)
    decreases |actions|
  {
    if actions == [] then t == t'
    else Possible(t, scripts, n, actions[0]) && Runs(After(t, scripts, n, actions[0]), scripts, n, actions[1..], t')
  }

  /** How many of the actions belong to run n, its start aside. */
  function OwnMoves(t: Stage, scripts: Scripts, n: string, actions: seq<Action>): nat
    decreases |actions|
  {
    if actions == [] || !Possible(t, scripts, n, actions[0]) then 0
    else
      (if !actions[0].Start? && RunOf(t.s, actions[0]) == n then 1 else 0) +
      OwnMoves(After(t, scripts, n, actions[0]), scripts, n, actions[1..])
  }

  /** How many actions of run n are still ahead, at most. */
  ghost function ToGo(t: Stage, scripts: Scripts, n: string, crew: seq<string>): int
    requires Lists(crew, t) && Placed(t) && n in t.s.skitOf && CastOf(t, scripts, n).Proper()
  {
    Remaining(Alone(t, n), CastOf(t, scripts, n), crew)
  }

  lemma OwnStepCounts(t: Stage, scripts: Scripts, n: string, crew: seq<string>, a: Action)
    requires Sound(t, scripts, n) && Lists(crew, t) && n in t.s.skitOf && Possible(t, scripts, n, a)
    ensures var t' := After(t, scripts, n, a);
      && Sound(t', scripts, n) && Lists(crew, t') && n in t'.s.skitOf && CastOf(t', scripts, n) == CastOf(t, scripts, n)
      && ToGo(t', scripts, n, crew) + (if RunOf(t.s, a) == n then 1 else 0) <= ToGo(t, scripts, n, crew)
  {
    StepStaysSound(t, scripts, n, a);
    if RunOf(t.s, a) == n {
      OwnPlays(t, scripts, n, a);
      RemainingDrops(Alone(t, n), CastOf(t, scripts, n), Seen(t.s, n, a), crew);
    } else {
      OthersPass(t, scripts, n, a);
    }
  }

  lemma {:induction false} StartedRun(t: Stage, scripts: Scripts, n: string, crew: seq<string>, actions: seq<Action>,
                                      t': Stage)
    requires Sound(t, scripts, n) && Lists(crew, t) && n in t.s.skitOf && Runs(t, scripts, n, actions, t')
    ensures Sound(t', scripts, n) && Lists(crew, t')
    ensures n in t'.s.skitOf && CastOf(t', scripts, n) == CastOf(t, scripts, n)
    ensures OwnMoves(t, scripts, n, actions) + ToGo(t', scripts, n, crew) <= ToGo(t, scripts, n, crew)
    decreases |actions|
  {
    if actions != [] {
      OwnStepCounts(t, scripts, n, crew, actions[0]);
      StartedRun(After(t, scripts, n, actions[0]), scripts, n, crew, actions[1..], t');
    }
  }

  /** How many actions there are in a run alone, at most. */
  function Bound(crew: seq<string>, c: Cast): int
    requires c.Proper()
  {
    |crew| * (3 * |c.Script()| + 3)
  }

  lemma OpeningCount(t: Stage, scripts: Scripts, n: string, crew: seq<string>)
    requires Placed(t) && Lists(crew, t) && n in t.s.skitOf && Opening(Alone(t, n), CastOf(t, scripts, n))
    ensures ToGo(t, scripts, n, crew) == Bound(crew, CastOf(t, scripts, n))
  {
    RemainingAtOpening(Alone(t, n), CastOf(t, scripts, n), crew);
  }

  /** What a run has behind it and ahead of it is no more than a run alone. */
  ghost predicate WithinBounds(t: Stage, scripts: Scripts, n: string, crew: seq<string>, moves: nat)
    requires Sound(t, scripts, n) && Lists(crew, t)
  {
    n in t.s.skitOf ==> moves + ToGo(t, scripts, n, crew) <= Bound(crew, CastOf(t, scripts, n))
  }

  lemma FromItsStart(t: Stage, scripts: Scripts, n: string, crew: seq<string>, actions: seq<Action>, t': Stage)
    requires Sound(t, scripts, n) && Lists(crew, t) && n in t.s.skitOf && Runs(t, scripts, n, actions, t')
    requires ToGo(t, scripts, n, crew) == Bound(crew, CastOf(t, scripts, n))
    ensures Sound(t', scripts, n) && Lists(crew, t')
    ensures WithinBounds(t', scripts, n, crew, OwnMoves(t, scripts, n, actions))
  {
    StartedRun(t, scripts, n, crew, actions, t');
  }

  lemma NotYetOwn(t: Stage, scripts: Scripts, n: string, actions: seq<Action>)
    requires Inv(t.s, scripts) && n !in t.s.skitOf && actions != [] && Possible(t, scripts, n, actions[0])
    ensures OwnMoves(t, scripts, n, actions) == OwnMoves(After(t, scripts, n, actions[0]), scripts, n, actions[1..])
  {
    if !actions[0].Start? {
      AllKnown(t.s, scripts, actions[0]);
    }
  }

  lemma {:induction false} WholeRun(t: Stage, scripts: Scripts, n: string, crew: seq<string>, actions: seq<Action>,
                                    t': Stage)
    requires Sound(t, scripts, n) && Lists(crew, t) && n !in t.s.skitOf && Runs(t, scripts, n, actions, t')
    ensures Sound(t', scripts, n) && Lists(crew, t')
    ensures WithinBounds(t', scripts, n, crew, OwnMoves(t, scripts, n, actions))
    decreases |actions|
  {
    if actions != [] {
      var t1 := After(t, scripts, n, actions[0]);
      NotYetOwn(t, scripts, n, actions);
      StepStaysSound(t, scripts, n, actions[0]);
      StepOfUnstarted(t, scripts, n, actions[0]);
      if n in t1.s.skitOf {
        OpeningCount(t1, scripts, n, crew);
        FromItsStart(t1, scripts, n, crew, actions[1..], t');
      } else {
        WholeRun(t1, scripts, n, crew, actions[1..], t');
      }
    }
  }

  /** A run can go on: by an action of its own, or by a delivery that it may be waiting for
      behind events of other runs. */
  ghost predicate GoesOn(t: Stage, scripts: Scripts, n: string) {
    exists a :: Possible(t, scripts, n, a) && !a.Start? && (a.Deliver? || a.nonce == n)
  }

  lemma WholeLog(log: seq<Event>, cur: map<string, nat>, b: string, n: string)
    requires b in cur && cur[b] <= |log|
    ensures cur[b] == |log| ==> Places(log, cur, n)[b] == |Of(log, n)|
  {
    if cur[b] == |log| {
      assert log[..cur[b]] == log;
    }
  }

  lemma BehindGoesOn(t: Stage, scripts: Scripts, n: string, b: string)
    requires Placed(t) && StartsOnce(t) && b in t.cur && t.cur[b] < |t.s.log|
    ensures GoesOn(t, scripts, n)
  {
    assert Possible(t, scripts, n, Deliver(b, t.cur[b]));
  }

  lemma OwnGoesOn(t: Stage, scripts: Scripts, n: string, a: Action)
    requires n in t.s.skitOf && InOrder(Alone(t, n), CastOf(t, scripts, n), a) && !a.Deliver?
    ensures GoesOn(t, scripts, n)
  {
    assert Possible(t, scripts, n, a);
  }

  /** What the run could do alone it can do among the others, if need be after some deliveries. */
  lemma GoesOnAsAlone(t: Stage, scripts: Scripts, n: string, a: Action)
    requires Sound(t, scripts, n) && n in t.s.skitOf && InOrder(Alone(t, n), CastOf(t, scripts, n), a)
    ensures GoesOn(t, scripts, n)
  {
    if a.Deliver? {
      WholeLog(t.s.log, t.cur, a.bot, n);
      BehindGoesOn(t, scripts, n, a.bot);
    } else {
      OwnGoesOn(t, scripts, n, a);
    }
  }

  lemma StuckAlone(t: Stage, scripts: Scripts, n: string)
    requires Sound(t, scripts, n) && n in t.s.skitOf && !GoesOn(t, scripts, n)
    ensures !CanMove(Alone(t, n), CastOf(t, scripts, n))
  {
    if CanMove(Alone(t, n), CastOf(t, scripts, n)) {
      var a :| InOrder(Alone(t, n), CastOf(t, scripts, n), a);
      GoesOnAsAlone(t, scripts, n, a);
    }
  }

  /** Nobody has been told of anything. */
  ghost predicate AtFirst(t: Stage) {
    Initial(t.s) && t.cur.Keys == t.s.bots.Keys && forall b :: b in t.cur ==> t.cur[b] == 0
  }

  lemma AtFirstIsSound(t: Stage, scripts: Scripts, n: string)
    requires AtFirst(t)
    ensures Sound(t, scripts, n) && n !in t.s.skitOf
  {
  }

  lemma MovesAreBounded(t: Stage, scripts: Scripts, n: string, crew: seq<string>, moves: nat)
    requires Sound(t, scripts, n) && Lists(crew, t) && WithinBounds(t, scripts, n, crew, moves) && n in t.s.skitOf
    ensures moves <= Bound(crew, CastOf(t, scripts, n))
  {
    RemainingIsNat(Alone(t, n), CastOf(t, scripts, n), crew);
  }

  lemma OverIsSaid(t: Stage, scripts: Scripts, n: string)
    requires Sound(t, scripts, n) && n in t.s.skitOf && AllPresent(t, CastOf(t, scripts, n)) && !GoesOn(t, scripts, n)
    ensures Said(t.s, n) == Recital(CastOf(t, scripts, n).Script())
    ensures forall b :: b in t.s.bots ==> n !in t.s.bots[b]
  {
    StuckAlone(t, scripts, n);
    NeverStuck(Alone(t, n), CastOf(t, scripts, n));
    forall b | b in t.s.bots
      ensures n !in t.s.bots[b]
    {
      assert Alone(t, n).s.bots[b] == map[];
    }
  }

  lemma RunStaysSound(t: Stage, scripts: Scripts, n: string, crew: seq<string>, actions: seq<Action>, t': Stage)
    requires AtFirst(t) && Lists(crew, t) && Runs(t, scripts, n, actions, t')
    ensures Sound(t', scripts, n) && Lists(crew, t')
    ensures WithinBounds(t', scripts, n, crew, OwnMoves(t, scripts, n, actions))
  {
    AtFirstIsSound(t, scripts, n);
    WholeRun(t, scripts, n, crew, actions, t');
  }

  lemma RunIsBounded(t: Stage, scripts: Scripts, n: string, crew: seq<string>, actions: seq<Action>, t': Stage, c: Cast)
    requires AtFirst(t) && Lists(crew, t) && Runs(t, scripts, n, actions, t')
    requires n in t'.s.skitOf && c == CastOf(t', scripts, n) && c.Proper()
    ensures OwnMoves(t, scripts, n, actions) <= Bound(crew, c)
  {
    RunStaysSound(t, scripts, n, crew, actions, t');
    MovesAreBounded(t', scripts, n, crew, OwnMoves(t, scripts, n, actions));
  }

  lemma RunIsSaid(t: Stage, scripts: Scripts, n: string, crew: seq<string>, actions: seq<Action>, t': Stage, c: Cast)
    requires AtFirst(t) && Lists(crew, t) && Runs(t, scripts, n, actions, t')
    requires n in t'.s.skitOf && c == CastOf(t', scripts, n) && c.Proper() && AllPresent(t', c)
    requires !GoesOn(t', scripts, n)
    ensures Said(t'.s, n) == Recital(c.Script()) && forall b :: b in t'.s.bots ==> n !in t'.s.bots[b]
  {
    RunStaysSound(t, scripts, n, crew, actions, t');
    OverIsSaid(t', scripts, n);
  }

  /** Among any number of other runs, started and ended at any time, a run takes no more
      actions than alone; and when neither an action of its own nor a delivery is possible
      any more, it has been said whole, in order, each line once and by its owner, and
      nobody is performing it. */
  lemma RunsAreCompleted(t: Stage, scripts: Scripts, n: string, crew: seq<string>, actions: seq<Action>, t': Stage,
                         script: Script)
    requires AtFirst(t) && Lists(crew, t) && Runs(t, scripts, n, actions, t')
    requires n in t'.s.skitOf && script == ScriptOf(t'.s, scripts, n)
    requires forall i :: 0 <= i < |script| ==> script[i].bot in t'.s.bots
    ensures OwnMoves(t, scripts, n, actions) <= |crew| * (3 * |script| + 3)
    ensures !GoesOn(t', scripts, n) ==>
              Said(t'.s, n) == Recital(script) && forall b :: b in t'.s.bots ==> n !in t'.s.bots[b]
  {
    RunHasScript(t, scripts, n, crew, actions, t');
    RunIsBounded(t, scripts, n, crew, actions, t', CastOf(t', scripts, n));
    if !GoesOn(t', scripts, n) {
      RunIsSaid(t, scripts, n, crew, actions, t', CastOf(t', scripts, n));
    }
  }

  lemma RunHasScript(t: Stage, scripts: Scripts, n: string, crew: seq<string>, actions: seq<Action>, t': Stage)
    requires AtFirst(t) && Lists(crew, t) && Runs(t, scripts, n, actions, t') && n in t'.s.skitOf
    ensures CastOf(t', scripts, n).Proper()
  {
    RunStaysSound(t, scripts, n, crew, actions, t');
  }

  /** On the way no advance of the run finds a full buffer, and each one taken is awaited. */
  lemma NothingIsMissedAmongOthers(t: Stage, scripts: Scripts, n: string, crew: seq<string>, actions: seq<Action>,
                                   t': Stage, a: Action)
    requires AtFirst(t) && Lists(crew, t) && Runs(t, scripts, n, actions, t') && n in t'.s.skitOf
    requires Possible(t', scripts, n, a) && RunOf(t'.s, a) == n
    ensures a.Deliver? && t'.s.log[a.i].SkitAdvance? && n in t'.s.bots[a.bot] ==>
              |t'.s.bots[a.bot][n].buffer| < |t'.s.bots[a.bot][n].script|
    ensures a.Take? ==> t'.s.bots[a.bot][n].buffer[0] == t'.s.bots[a.bot][n].pc
  {
    RunStaysSound(t, scripts, n, crew, actions, t');
    OwnPlays(t', scripts, n, a);
    OwnEnabled(t'.s, scripts, a, n);
    var one, c, seen := Alone(t', n), CastOf(t', scripts, n), Seen(t'.s, n, a);
    if a.Take? {
      NothingNeededIsDiscarded(one, c, seen);
    } else if a.Deliver? && t'.s.log[a.i].SkitAdvance? && n in t'.s.bots[a.bot] {
      NothingOverflows(one, c, seen);
    }
  }
}
