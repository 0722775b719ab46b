/** A fleet of bots performing skits over a bus that may delay, reorder, repeat or drop
    advances at will, while bots may stop at any moment: whatever happens, the lines
    of a run come out as a prefix of its script. */
module SkitSystem {
  import opened Bus
  import opened Coordinator

  datatype Utterance = Utterance(speaker: string, what: SkitStep)

  /** Every bot's performances, who has ever begun which run, everything published,
      the skit behind each run, and the lines said in each run. */
  datatype System = System(
    bots: map<string, Perfs>,
    begun: set<(string, string)>,
    log: seq<Event>,
    skitOf: map<string, string>,
    said: map<string, seq<Utterance>>)

  datatype Action =
    | Start(bot: string, skit: string, nonce: string)
    | Deliver(bot: string, i: nat)
    | Speak(bot: string, nonce: string)
    | Announce(bot: string, nonce: string)
    | Take(bot: string, nonce: string)
    | End(bot: string, nonce: string)

  type Scripts = map<string, Script>

  function Said(s: System, nonce: string): seq<Utterance> {
    if nonce in s.said then s.said[nonce] else []
  }

  predicate Performs(s: System, bot: string, nonce: string) {
    bot in s.bots && nonce in s.bots[bot]
  }

  /** What can happen. Only a skit's lead starts it, under a new nonce. Any published
      event may be delivered at any time, any number of times or never, except that a
      start does not reach a bot again once its performance has ended. */
  predicate Enabled(s: System, scripts: Scripts, a: Action) {
    match a
    case Start(b, k, n) =>
      b in s.bots && k in scripts && scripts[k] != [] && scripts[k][0].bot == b && n !in s.skitOf
    case Deliver(b, i) =>
      b in s.bots && i < |s.log| &&
      (s.log[i].SkitStart? && (b, s.log[i].nonce) in s.begun ==> s.log[i].nonce in s.bots[b])
    case Speak(b, n) => Performs(s, b, n) && s.bots[b][n].Mine(b) && !s.bots[b][n].spoken
    case Announce(b, n) => Performs(s, b, n) && s.bots[b][n].Mine(b) && s.bots[b][n].spoken && n in s.skitOf
    case Take(b, n) => Performs(s, b, n) && s.bots[b][n].Theirs(b) && s.bots[b][n].buffer != []
    case End(b, n) => Performs(s, b, n)
  }

  function Do(s: System, scripts: Scripts, a: Action): System
    requires Enabled(s, scripts, a)
  {
    match a
    case Start(b, k, n) => s.(log := s.log + [SkitStart(b, k, n)], skitOf := s.skitOf[n := k])
    case Deliver(b, i) =>
      s.(bots := s.bots[b := Heard(s.bots[b], b, scripts, s.log[i])],
         begun := if s.log[i].SkitStart? then s.begun + {(b, s.log[i].nonce)} else s.begun)
    case Speak(b, n) =>
      var p := s.bots[b][n];
      s.(bots := s.bots[b := Spoke(s.bots[b], n)],
         said := s.said[n := Said(s, n) + [Utterance(b, p.script[p.pc])]])
    case Announce(b, n) =>
      s.(bots := s.bots[b := Announced(s.bots[b], n)],
         log := s.log + [SkitAdvance(b, s.skitOf[n], s.bots[b][n].pc, n)])
    case Take(b, n) => s.(bots := s.bots[b := Took(s.bots[b], n)])
    case End(b, n) => s.(bots := s.bots[b := s.bots[b] - {n}])
  }

  // --- What always holds ---

  /** How many steps of the script a performance has behind it. */
  function Front(p: Perf): nat {
    p.pc + if p.spoken then 1 else 0
  }

  function ScriptOf(s: System, scripts: Scripts, n: string): Script {
    if n in s.skitOf && s.skitOf[n] in scripts then scripts[s.skitOf[n]] else []
  }

  ghost predicate EventOk(s: System, scripts: Scripts, e: Event) {
    && e.nonce in s.skitOf && s.skitOf[e.nonce] == e.skit
    && (e.SkitAdvance? ==>
          e.step < |Said(s, e.nonce)| && e.step < |ScriptOf(s, scripts, e.nonce)| &&
          e.from == ScriptOf(s, scripts, e.nonce)[e.step].bot)
  }

  ghost predicate PerfOk(s: System, scripts: Scripts, b: string, n: string)
    requires Performs(s, b, n)
  {
    var p := s.bots[b][n];
    && (b, n) in s.begun && n in s.skitOf
    && p.script == ScriptOf(s, scripts, n)
    && p.pc <= |p.script| && Front(p) <= |Said(s, n)|
    && (p.spoken ==> p.Mine(b))
    && forall k :: k in p.buffer ==> k < |Said(s, n)|
  }

  /** Line i of the run was said, by its owner, who is past it. */
  ghost predicate LineOk(s: System, scripts: Scripts, n: string, i: nat)
    requires i < |Said(s, n)|
  {
    var script := ScriptOf(s, scripts, n);
    && i < |script| && Said(s, n)[i] == Utterance(script[i].bot, script[i])
    && (script[i].bot, n) in s.begun
    && (Performs(s, script[i].bot, n) ==> i < Front(s.bots[script[i].bot][n]))
  }

  ghost predicate Inv(s: System, scripts: Scripts) {
    && (forall n :: n in s.skitOf ==> s.skitOf[n] in scripts)
    && (forall b, n :: (b, n) in s.begun ==> n in s.skitOf)
    && (forall i :: 0 <= i < |s.log| ==> EventOk(s, scripts, s.log[i]))
    && (forall b, n :: Performs(s, b, n) ==> PerfOk(s, scripts, b, n))
    && (forall n, i: nat :: i < |Said(s, n)| ==> LineOk(s, scripts, n, i))
  }

  lemma StartKeeps(s: System, scripts: Scripts, a: Action)
    requires Inv(s, scripts) && Enabled(s, scripts, a) && a.Start?
    ensures Inv(Do(s, scripts, a), scripts)
  {
    var s' := Do(s, scripts, a);
    assert forall i :: 0 <= i < |s.log| ==> s'.log[i] == s.log[i];
    forall i | 0 <= i < |s'.log|
      ensures EventOk(s', scripts, s'.log[i])
    {
      assert i < |s.log| ==> EventOk(s, scripts, s.log[i]);
    }
    forall b, n | Performs(s', b, n)
      ensures PerfOk(s', scripts, b, n)
    {
      assert PerfOk(s, scripts, b, n);
    }
    forall n, i: nat | i < |Said(s', n)|
      ensures LineOk(s', scripts, n, i)
    {
      assert LineOk(s, scripts, n, i);
    }
  }

  lemma DeliverKeeps(s: System, scripts: Scripts, a: Action)
    requires Inv(s, scripts) && Enabled(s, scripts, a) && a.Deliver?
    ensures Inv(Do(s, scripts, a), scripts)
  {
    var s' := Do(s, scripts, a);
    var e := s.log[a.i];
    assert EventOk(s, scripts, e);
    forall i | 0 <= i < |s'.log|
      ensures EventOk(s', scripts, s'.log[i])
    {
      assert EventOk(s, scripts, s.log[i]);
    }
    forall b, n | Performs(s', b, n)
      ensures PerfOk(s', scripts, b, n)
    {
      assert Performs(s, b, n) ==> PerfOk(s, scripts, b, n);
    }
    forall n, i: nat | i < |Said(s', n)|
      ensures LineOk(s', scripts, n, i)
    {
      assert LineOk(s, scripts, n, i);
    }
  }

  lemma SpeakKeeps(s: System, scripts: Scripts, a: Action)
    requires Inv(s, scripts) && Enabled(s, scripts, a) && a.Speak?
    ensures Inv(Do(s, scripts, a), scripts)
  {
    var s' := Do(s, scripts, a);
    var p, m := s.bots[a.bot][a.nonce], |Said(s, a.nonce)|;
    assert PerfOk(s, scripts, a.bot, a.nonce);
    var pending := p.pc < m ==> LineOk(s, scripts, a.nonce, p.pc);
    assert p.pc == m;
    forall i | 0 <= i < |s'.log|
      ensures EventOk(s', scripts, s'.log[i])
    {
      assert EventOk(s, scripts, s.log[i]);
    }
    forall b, n | Performs(s', b, n)
      ensures PerfOk(s', scripts, b, n)
    {
      assert PerfOk(s, scripts, b, n);
    }
    forall n, i: nat | i < |Said(s', n)|
      ensures LineOk(s', scripts, n, i)
    {
      assert i < |Said(s, n)| ==> LineOk(s, scripts, n, i);
    }
  }

  lemma AnnounceKeeps(s: System, scripts: Scripts, a: Action)
    requires Inv(s, scripts) && Enabled(s, scripts, a) && a.Announce?
    ensures Inv(Do(s, scripts, a), scripts)
  {
    var s' := Do(s, scripts, a);
    assert PerfOk(s, scripts, a.bot, a.nonce);
    forall i | 0 <= i < |s'.log|
      ensures EventOk(s', scripts, s'.log[i])
    {
      assert i < |s.log| ==> EventOk(s, scripts, s.log[i]);
    }
    forall b, n | Performs(s', b, n)
      ensures PerfOk(s', scripts, b, n)
    {
      assert PerfOk(s, scripts, b, n);
    }
    forall n, i: nat | i < |Said(s', n)|
      ensures LineOk(s', scripts, n, i)
    {
      assert LineOk(s, scripts, n, i);
    }
  }

  lemma TakeKeeps(s: System, scripts: Scripts, a: Action)
    requires Inv(s, scripts) && Enabled(s, scripts, a) && a.Take?
    ensures Inv(Do(s, scripts, a), scripts)
  {
    var s' := Do(s, scripts, a);
    var p := s.bots[a.bot][a.nonce];
    assert PerfOk(s, scripts, a.bot, a.nonce);
    assert p.buffer[0] in p.buffer && forall k :: k in p.buffer[1..] ==> k in p.buffer;
    forall i | 0 <= i < |s'.log|
      ensures EventOk(s', scripts, s'.log[i])
    {
      assert EventOk(s, scripts, s.log[i]);
    }
    forall b, n | Performs(s', b, n)
      ensures PerfOk(s', scripts, b, n)
    {
      assert PerfOk(s, scripts, b, n);
    }
    forall n, i: nat | i < |Said(s', n)|
      ensures LineOk(s', scripts, n, i)
    {
      assert LineOk(s, scripts, n, i);
    }
  }

  lemma EndKeeps(s: System, scripts: Scripts, a: Action)
    requires Inv(s, scripts) && Enabled(s, scripts, a) && a.End?
    ensures Inv(Do(s, scripts, a), scripts)
  {
    var s' := Do(s, scripts, a);
    forall i | 0 <= i < |s'.log|
      ensures EventOk(s', scripts, s'.log[i])
    {
      assert EventOk(s, scripts, s.log[i]);
    }
    forall b, n | Performs(s', b, n)
      ensures PerfOk(s', scripts, b, n)
    {
      assert PerfOk(s, scripts, b, n);
    }
    forall n, i: nat | i < |Said(s', n)|
      ensures LineOk(s', scripts, n, i)
    {
      assert LineOk(s, scripts, n, i);
    }
  }

  lemma StepKeeps(s: System, scripts: Scripts, a: Action)
    requires Inv(s, scripts) && Enabled(s, scripts, a)
    ensures Inv(Do(s, scripts, a), scripts)
  {
    match a
    case Start(_, _, _) => StartKeeps(s, scripts, a);
    case Deliver(_, _) => DeliverKeeps(s, scripts, a);
    case Speak(_, _) => SpeakKeeps(s, scripts, a);
    case Announce(_, _) => AnnounceKeeps(s, scripts, a);
    case Take(_, _) => TakeKeeps(s, scripts, a);
    case End(_, _) => EndKeeps(s, scripts, a);
  }

  // --- Runs ---

  /** Nothing started, nothing said. */
  ghost predicate Initial(s: System) {
    && (forall b :: b in s.bots ==> s.bots[b] == map[])
    && s.begun == {} && s.log == [] && s.skitOf == map[] && s.said == map[]
  }

  ghost predicate Reaches(s: System, scripts: Scripts, actions: seq<Action>, s': System)
    decreases |actions|
  {
    if actions == [] then s == s'
    else Enabled(s, scripts, actions[0]) && Reaches(Do(s, scripts, actions[0]), scripts, actions[1..], s')
  }

  lemma {:induction false} InvAlways(s: System, scripts: Scripts, actions: seq<Action>, s': System)
    requires Inv(s, scripts) && Reaches(s, scripts, actions, s')
    ensures Inv(s', scripts)
    decreases |actions|
  {
    if actions != [] {
      StepKeeps(s, scripts, actions[0]);
      InvAlways(Do(s, scripts, actions[0]), scripts, actions[1..], s');
    }
  }

  /** What has been said: the first lines of the script, each by its owner. */
  function Recital(script: Script): seq<Utterance> {
    seq(|script|, i requires 0 <= i < |script| => Utterance(script[i].bot, script[i]))
  }

  /** In every reachable state, the lines said in a run are exactly a prefix of its
      script: each step once, in order, by its owner. */
  lemma SkitsKeepOrder(s: System, scripts: Scripts, actions: seq<Action>, s': System, n: string)
    requires Initial(s) && Reaches(s, scripts, actions, s')
    ensures Said(s', n) <= Recital(ScriptOf(s', scripts, n))
  {
    InvAlways(s, scripts, actions, s');
    var said, whole := Said(s', n), Recital(ScriptOf(s', scripts, n));
    if said != [] {
      assert LineOk(s', scripts, n, |said| - 1);
    }
    forall i | 0 <= i < |said|
      ensures said[i] == whole[i]
    {
      assert LineOk(s', scripts, n, i);
    }
  }
}
