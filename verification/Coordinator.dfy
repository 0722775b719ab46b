/** One bot's part in a skit: beginning a performance, delivering its own lines and
    waiting for the others'. The goroutine that performs runs beside the event loop,
    so each stretch between two points where they can meet is one step here. */
module Coordinator {
  import opened Bus

  datatype SkitStep = SkitStep(bot: string, line: string, action: bool)

  type Script = seq<SkitStep>

  /** A performance under way: its script, the step it is at, whether that step's line
      has been said but not yet announced, and the buffered advances. */
  datatype Perf = Perf(script: Script, pc: nat, spoken: bool, buffer: seq<nat>) {
    predicate Done() { pc >= |script| }

    /** Whose turn it is. */
    predicate Mine(name: string) { pc < |script| && script[pc].bot == name }

    predicate Theirs(name: string) { pc < |script| && script[pc].bot != name }
  }

  /** The performances this bot has under way, by nonce. */
  type Perfs = map<string, Perf>

  function Begun(ps: Perfs, nonce: string, script: Script): Perfs {
    if script == [] || nonce in ps then ps else ps[nonce := Perf(script, 0, false, [])]
  }

  /** An advance goes into the buffer, which holds one per step of the script; our own
      echoes and advances nobody waits for are ignored. */
  function Buffered(ps: Perfs, name: string, from: string, nonce: string, step: nat): Perfs {
    if from == name || nonce !in ps || |ps[nonce].buffer| >= |ps[nonce].script| then ps
    else ps[nonce := ps[nonce].(buffer := ps[nonce].buffer + [step])]
  }

  function Heard(ps: Perfs, name: string, scripts: map<string, Script>, e: Event): Perfs {
    match e
    case SkitStart(_, skit, nonce) => if skit in scripts then Begun(ps, nonce, scripts[skit]) else ps
    case SkitAdvance(from, _, step, nonce) => Buffered(ps, name, from, nonce, step)
  }

  function Spoke(ps: Perfs, nonce: string): Perfs
    requires nonce in ps
  {
    ps[nonce := ps[nonce].(spoken := true)]
  }

  function Announced(ps: Perfs, nonce: string): Perfs
    requires nonce in ps
  {
    ps[nonce := ps[nonce].(spoken := false, pc := ps[nonce].pc + 1)]
  }

  /** Takes the oldest advance: the awaited one moves on, any other is discarded. */
  function Took(ps: Perfs, nonce: string): Perfs
    requires nonce in ps && ps[nonce].buffer != []
  {
    var p := ps[nonce];
    ps[nonce := p.(buffer := p.buffer[1..], pc := if p.buffer[0] == p.pc then p.pc + 1 else p.pc)]
  }

  /** The performances held in a coordinator's maps. */
  function ModelOf(active: set<string>, waiters: map<string, seq<nat>>,
                   performing: map<string, (Script, nat, bool)>): Perfs
    requires active == waiters.Keys == performing.Keys
  {
    map n | n in active :: Perf(performing[n].0, performing[n].1, performing[n].2, waiters[n])
  }

  lemma OnePerfChanges(active: set<string>, waiters: map<string, seq<nat>>,
                       performing: map<string, (Script, nat, bool)>, n: string, buffer: seq<nat>,
                       p: (Script, nat, bool))
    requires active == waiters.Keys == performing.Keys && n in active
    ensures ModelOf(active, waiters[n := buffer], performing[n := p]) ==
            ModelOf(active, waiters, performing)[n := Perf(p.0, p.1, p.2, buffer)]
  {
  }

  lemma OnePerfBegins(active: set<string>, waiters: map<string, seq<nat>>,
                      performing: map<string, (Script, nat, bool)>, n: string, script: Script)
    requires active == waiters.Keys == performing.Keys && n !in active
    ensures ModelOf(active + {n}, waiters[n := []], performing[n := (script, 0, false)]) ==
            ModelOf(active, waiters, performing)[n := Perf(script, 0, false, [])]
  {
  }

  class Coordinator {
    const name: string
    const skits: map<string, Script>
    var active: set<string>
    var waiters: map<string, seq<nat>>
    var performing: map<string, (Script, nat, bool)> // the goroutines' locals

    /** The maps under the lock and the goroutines agree. */
    ghost predicate Valid()
      reads this
    {
      active == waiters.Keys == performing.Keys
    }

    ghost function Model(): Perfs
      reads this
      requires Valid()
    {
      ModelOf(active, waiters, performing)
    }

    constructor (name: string, skits: map<string, Script>)
      ensures Valid() && Model() == map[] && this.name == name && this.skits == skits
    {
      this.name := name;
      this.skits := skits;
      active, waiters, performing := {}, map[], map[];
    }

    method OnEvent(e: Event)
      requires Valid()
      modifies this
      ensures Valid() && Model() == Heard(old(Model()), name, skits, e)
      ensures Model() - {e.nonce} == old(Model()) - {e.nonce}
      ensures e.SkitStart? && (e.nonce in old(Model()) || e.skit !in skits || skits[e.skit] == []) ==>
        Model() == old(Model())
      ensures e.SkitStart? && e.nonce !in old(Model()) && e.skit in skits && skits[e.skit] != [] ==>
        e.nonce in Model() && Model()[e.nonce] == Perf(skits[e.skit], 0, false, [])
      ensures e.SkitAdvance? && (e.from == name || e.nonce !in old(Model())) ==> Model() == old(Model())
      ensures e.SkitAdvance? && e.from != name && e.nonce in old(Model()) ==>
        var p := old(Model())[e.nonce];
        && e.nonce in Model()
        && Model()[e.nonce] == p.(buffer := if |p.buffer| < |p.script| then p.buffer + [e.step] else p.buffer)
    {
      match e {
        case SkitStart(_, skit, nonce) =>
          if skit in skits {
            BeginPerform(nonce, skits[skit]);
          }
        case SkitAdvance(from, _, step, nonce) =>
          if from == name {
            return;
          }
          if nonce in waiters {
            var script := performing[nonce].0;
            if |waiters[nonce]| < |script| {
              waiters := waiters[nonce := waiters[nonce] + [step]];
            }
          }
      }
    }

    method BeginPerform(nonce: string, script: Script)
      requires Valid()
      modifies this
      ensures Valid() && Model() == Begun(old(Model()), nonce, script)
      ensures Model() - {nonce} == old(Model()) - {nonce}
      ensures script == [] || nonce in old(Model()) ==> Model() == old(Model())
      ensures script != [] && nonce !in old(Model()) ==>
        nonce in Model() && Model()[nonce] == Perf(script, 0, false, [])
    {
      if |script| == 0 || nonce in active {
        return;
      }
      OnePerfBegins(active, waiters, performing, nonce, script);
      active := active + {nonce};
      waiters := waiters[nonce := []];
      performing := performing[nonce := (script, 0, false)];
    }

    /** Emits the line of our own step. */
    method Speak(nonce: string) returns (line: SkitStep)
      requires Valid() && nonce in Model() && Model()[nonce].Mine(name) && !Model()[nonce].spoken
      modifies this`performing
      ensures Valid() && Model() == Spoke(old(Model()), nonce)
      ensures Model() - {nonce} == old(Model()) - {nonce}
      ensures line == old(Model())[nonce].script[old(Model())[nonce].pc]
    {
      var (script, pc, _) := performing[nonce];
      line := script[pc];
      performing := performing[nonce := (script, pc, true)];
    }

    /** Publishes the advance and goes on to the next step. */
    method Announce(nonce: string, skit: string) returns (e: Event)
      requires Valid() && nonce in Model() && Model()[nonce].Mine(name) && Model()[nonce].spoken
      modifies this`performing
      ensures Valid() && Model() == Announced(old(Model()), nonce)
      ensures Model() - {nonce} == old(Model()) - {nonce}
      ensures e == SkitAdvance(name, skit, old(Model())[nonce].pc, nonce)
    {
      var (script, pc, _) := performing[nonce];
      e := SkitAdvance(name, skit, pc, nonce);
      performing := performing[nonce := (script, pc + 1, false)];
    }

    /** One round of waiting for somebody else's step. */
    method TakeAdvance(nonce: string)
      requires Valid() && nonce in Model() && Model()[nonce].Theirs(name) && Model()[nonce].buffer != []
      modifies this`performing, this`waiters
      ensures Valid() && Model() == Took(old(Model()), nonce)
      ensures Model() - {nonce} == old(Model()) - {nonce}
    {
      var (script, pc, spoken) := performing[nonce];
      var s := waiters[nonce][0];
      var rest := waiters[nonce][1..];
      if s == pc {
        pc := pc + 1;
      }
      OnePerfChanges(active, waiters, performing, nonce, rest, (script, pc, spoken));
      waiters := waiters[nonce := rest];
      performing := performing[nonce := (script, pc, spoken)];
    }

    /** The performance is over: completed, timed out or cancelled. */
    method EndPerform(nonce: string)
      requires Valid()
      modifies this
      ensures Valid() && Model() == old(Model()) - {nonce}
    {
      active := active - {nonce};
      waiters := waiters - {nonce};
      performing := performing - {nonce};
    }
  }
}
