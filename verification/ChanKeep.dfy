/** Channel keeping: tracking who is present and who is opped from what the server
    says, and opping protected nicks. Names are already lower-case; the bot's own
    nick and the clock are handed in. */
module ChanKeep {
  import Cooldown
  import opened Modes

  datatype Chan = Chan(members: set<string>, ops: set<string>)

  /** What the keeper has recorded, and which channels have a NAMES burst open. */
  datatype Tracked = Tracked(chans: map<string, Chan>, naming: set<string>)

  const NOBODY: Chan := Chan({}, {})
  const OP_COOLDOWN: int := 5_000_000_000 // nanoseconds

  // --- NAMES entries ---

  predicate IsSigil(c: char) { c in "@&~+%" }

  predicate IsOpSigil(c: char) { c in "@&~" }

  /** Whether the leading sigils of an entry include an operator's. */
  predicate OpPrefix(raw: string) {
    raw != "" && IsSigil(raw[0]) && (IsOpSigil(raw[0]) || OpPrefix(raw[1..]))
  }

  /** The entry without its leading sigils. */
  function Bare(raw: string): string {
    if raw != "" && IsSigil(raw[0]) then Bare(raw[1..]) else raw
  }

  /** A nick behind any run of sigils is read as that nick, and as opped exactly if an
      operator's sigil is among them. */
  lemma {:induction false} EntryReads(sigils: string, nick: string)
    requires forall i :: 0 <= i < |sigils| ==> sigils[i] in "@&~+%"
    requires nick != "" && nick[0] !in "@&~+%"
    ensures Bare(sigils + nick) == nick
    ensures OpPrefix(sigils + nick) <==> exists i :: 0 <= i < |sigils| && sigils[i] in "@&~"
  {
    if sigils == "" {
      assert sigils + nick == nick;
    } else {
      assert (sigils + nick)[1..] == sigils[1..] + nick;
      EntryReads(sigils[1..], nick);
      if i :| 0 <= i < |sigils| && sigils[i] in "@&~" {
        assert i > 0 ==> sigils[1..][i - 1] == sigils[i];
      }
    }
  }

  function Listed(s: Chan, raw: string): Chan {
    if Bare(raw) == "" then s
    else Chan(s.members + {Bare(raw)}, if OpPrefix(raw) then s.ops + {Bare(raw)} else s.ops)
  }

  function ListedAll(s: Chan, entries: seq<string>): Chan {
    if entries == [] then s
    else Listed(ListedAll(s, entries[..|entries| - 1]), entries[|entries| - 1])
  }

  // --- The handlers, on values ---

  function ChanOf(k: Tracked, c: string): Chan {
    if c in k.chans then k.chans[c] else NOBODY
  }

  function Forgotten(k: Tracked, c: string): Tracked {
    Tracked(k.chans - {c}, k.naming - {c})
  }

  /** The first line of a burst replaces the channel's state, the others add to it. */
  function Named(k: Tracked, c: string, entries: seq<string>): Tracked {
    var base := if c in k.naming then ChanOf(k, c) else NOBODY;
    Tracked(k.chans[c := ListedAll(base, entries)], k.naming + {c})
  }

  function NamesEnded(k: Tracked, c: string): Tracked {
    k.(naming := k.naming - {c})
  }

  function Entered(k: Tracked, c: string, n: string): Tracked {
    k.(chans := k.chans[c := Chan(ChanOf(k, c).members + {n}, ChanOf(k, c).ops)])
  }

  function Without(s: Chan, n: string): Chan {
    Chan(s.members - {n}, s.ops - {n})
  }

  function Gone(k: Tracked, c: string, n: string): Tracked {
    if c in k.chans then k.(chans := k.chans[c := Without(k.chans[c], n)]) else k
  }

  function GoneEverywhere(k: Tracked, n: string): Tracked {
    k.(chans := map c | c in k.chans :: Without(k.chans[c], n))
  }

  function Swap(m: set<string>, o: string, w: string): set<string> {
    if o in m then m - {o} + {w} else m
  }

  function Renamed(s: Chan, o: string, w: string): Chan {
    Chan(Swap(s.members, o, w), Swap(s.ops, o, w))
  }

  function RenamedEverywhere(k: Tracked, o: string, w: string): Tracked {
    k.(chans := map c | c in k.chans :: Renamed(k.chans[c], o, w))
  }

  function Opped(s: Chan, n: string, add: bool): Chan {
    s.(ops := if add then s.ops + {n} else s.ops - {n})
  }

  function ModeSet(k: Tracked, c: string, n: string, add: bool): Tracked {
    k.(chans := k.chans[c := Opped(ChanOf(k, c), n, add)])
  }

  /** A channel after several operator changes, one after the other. */
  function Applied(s: Chan, changes: seq<OpChange>): Chan {
    if changes == [] then s
    else
      var n := |changes| - 1;
      Opped(Applied(s, changes[..n]), changes[n].nick, changes[n].add)
  }

  function ModesSet(k: Tracked, c: string, changes: seq<OpChange>): Tracked {
    if changes == [] then k
    else
      var n := |changes| - 1;
      ModeSet(ModesSet(k, c, changes[..n]), c, changes[n].nick, changes[n].add)
  }

  lemma {:induction false} ModesSetIs(k: Tracked, c: string, changes: seq<OpChange>)
    ensures ModesSet(k, c, changes) ==
            if changes == [] then k else k.(chans := k.chans[c := Applied(ChanOf(k, c), changes)])
  {
    if changes != [] {
      ModesSetIs(k, c, changes[..|changes| - 1]);
    }
  }

  predicate Holds(k: Tracked, c: string, self: string) {
    c in k.chans && self in k.chans[c].ops
  }

  /** Whom enforcing a channel would op. */
  function Targets(k: Tracked, c: string, self: string, protected: set<string>): set<string> {
    if !Holds(k, c, self) then {}
    else set n | n in k.chans[c].members && n != self && n in protected && n !in k.chans[c].ops
  }

  // --- Sending ---

  datatype Sent = Sent(chan: string, nick: string, at: int)

  /** The cooldown stamps and every +o sent so far. */
  datatype Outbox = Outbox(last: Cooldown.Stamps, log: seq<Sent>)

  function CoolKey(c: string, n: string): string {
    "op:" + c + ":" + n
  }

  function Send(o: Outbox, c: string, n: string, now: int): Outbox {
    var (last, fired) := Cooldown.Used(o.last, CoolKey(c, n), OP_COOLDOWN, now);
    Outbox(last, if fired then o.log + [Sent(c, n, now)] else o.log)
  }

  function SendAll(o: Outbox, c: string, order: seq<string>, now: int): Outbox {
    if order == [] then o
    else Send(SendAll(o, c, order[..|order| - 1], now), c, order[|order| - 1], now)
  }

  /** Several enforcements of one channel, one after the other. */
  function SendRounds(o: Outbox, c: string, rounds: seq<seq<string>>, now: int): Outbox {
    if rounds == [] then o
    else SendAll(SendRounds(o, c, rounds[..|rounds| - 1], now), c, rounds[|rounds| - 1], now)
  }

  /** Some order in which a map iteration visits the nicks, each once. */
  ghost predicate Visits(order: seq<string>, nicks: set<string>) {
    && (forall n :: n in order <==> n in nicks)
    && forall i, j :: 0 <= i < j < |order| ==> order[i] != order[j]
  }

  // --- The keeper ---

  /** Each round goes through those in need after one more change of a line. */
  ghost predicate AllVisited(k: Tracked, c: string, changes: seq<OpChange>, rounds: seq<seq<string>>, self: string,
                             protected: set<string>)
    requires |rounds| <= |changes|
  {
    forall j :: 0 <= j < |rounds| ==>
      Visits(rounds[j], Targets(ModesSet(k, c, changes[..j + 1]), c, self, protected))
  }

  lemma ModesSetOneMore(k: Tracked, c: string, changes: seq<OpChange>, i: nat)
    requires i < |changes|
    ensures ModesSet(k, c, changes[..i + 1]) ==
            ModeSet(ModesSet(k, c, changes[..i]), c, changes[i].nick, changes[i].add)
  {
    assert changes[..i + 1][..i] == changes[..i];
  }

  lemma VisitsOneMore(k: Tracked, c: string, changes: seq<OpChange>, rounds: seq<seq<string>>, order: seq<string>,
                      self: string, protected: set<string>)
    requires |rounds| < |changes| && AllVisited(k, c, changes, rounds, self, protected)
    requires Visits(order, Targets(ModesSet(k, c, changes[..|rounds| + 1]), c, self, protected))
    ensures AllVisited(k, c, changes, rounds + [order], self, protected)
  {
  }

  lemma SendsOneMore(o: Outbox, c: string, rounds: seq<seq<string>>, order: seq<string>, now: int)
    ensures SendRounds(o, c, rounds + [order], now) == SendAll(SendRounds(o, c, rounds, now), c, order, now)
  {
    assert (rounds + [order])[..|rounds|] == rounds;
  }

  class Chankeeper {
    const protected: set<string>
    const cool: Cooldown.Manager
    var chans: map<string, Chan>
    var naming: set<string>
    var log: seq<Sent>

    ghost function Model(): Tracked
      reads this
    {
      Tracked(chans, naming)
    }

    ghost function Out(): Outbox
      reads this, cool
    {
      Outbox(cool.last, log)
    }

    constructor (protect: set<string>)
      ensures fresh(cool)
      ensures protected == protect - {""}
      ensures Model() == Tracked(map[], {}) && Out() == Outbox(map[], [])
    {
      protected := protect - {""};
      cool := new Cooldown.Manager();
      chans, naming, log := map[], {}, [];
    }

    method Reset()
      modifies this`chans, this`naming
      ensures Model() == Tracked(map[], {})
    {
      chans := map[];
      naming := {};
    }

    method Forget(channel: string)
      modifies this`chans, this`naming
      ensures Model() == Forgotten(old(Model()), channel)
      ensures chans == old(chans) - {channel} && naming == old(naming) - {channel}
    {
      chans := chans - {channel};
      naming := naming - {channel};
    }

    method OnNames(channel: string, entries: seq<string>)
      modifies this`chans, this`naming
      ensures Model() == Named(old(Model()), channel, entries)
    {
      if channel !in naming {
        naming := naming + {channel};
        chans := chans - {channel};
      }
      var base := if channel in chans then chans[channel] else NOBODY;
      var s := base;
      ghost var others, open := chans, naming;
      for i := 0 to |entries|
        invariant chans == others && naming == open
        invariant s == ListedAll(base, entries[..i])
      {
        assert entries[..i + 1][..i] == entries[..i];
        var opped, nick := ReadEntry(entries[i]);
        if nick != "" {
          s := Chan(s.members + {nick}, if opped then s.ops + {nick} else s.ops);
        }
      }
      assert entries[..|entries|] == entries;
      assert chans[channel := s] == old(chans)[channel := s];
      chans := chans[channel := s];
    }

    method ReadEntry(raw: string) returns (opped: bool, nick: string)
      ensures opped == OpPrefix(raw) && nick == Bare(raw)
    {
      opped := false;
      var i := 0;
      assert raw[0..] == raw;
      while i < |raw| && IsSigil(raw[i])
        invariant i <= |raw|
        invariant Bare(raw[i..]) == Bare(raw)
        invariant OpPrefix(raw) == (opped || OpPrefix(raw[i..]))
      {
        assert raw[i..][1..] == raw[i + 1..];
        if IsOpSigil(raw[i]) {
          opped := true;
        }
        i := i + 1;
      }
      nick := raw[i..];
    }

    method OnEndNames(channel: string, self: string, now: int) returns (ghost order: seq<string>)
      modifies this`naming, this`log, cool
      ensures Model() == NamesEnded(old(Model()), channel)
      ensures Visits(order, Targets(Model(), channel, self, protected))
      ensures Out() == SendAll(old(Out()), channel, order, now)
    {
      naming := naming - {channel};
      order := Enforce(channel, self, now);
    }

    method OnJoin(channel: string, nick: string, self: string, now: int) returns (ghost order: seq<string>)
      modifies this`chans, this`log, cool
      ensures Model() == Entered(old(Model()), channel, nick)
      ensures channel in chans && nick in chans[channel].members && chans - {channel} == old(chans) - {channel}
      ensures channel in old(chans) ==>
        chans[channel] == Chan(old(chans)[channel].members + {nick}, old(chans)[channel].ops)
      ensures channel !in old(chans) ==> chans[channel] == Chan({nick}, {})
      ensures Visits(order, Targets(Model(), channel, self, protected))
      ensures Out() == SendAll(old(Out()), channel, order, now)
    {
      var s := if channel in chans then chans[channel] else NOBODY;
      chans := chans[channel := Chan(s.members + {nick}, s.ops)];
      order := Enforce(channel, self, now);
    }

    method OnLeave(channel: string, nick: string)
      modifies this`chans
      ensures Model() == Gone(old(Model()), channel, nick)
      ensures chans.Keys == old(chans).Keys && chans - {channel} == old(chans) - {channel}
      ensures channel in chans ==> chans[channel].members == old(chans)[channel].members - {nick}
      ensures channel in chans ==> chans[channel].ops == old(chans)[channel].ops - {nick}
    {
      if channel in chans {
        var s := chans[channel];
        chans := chans[channel := Chan(s.members - {nick}, s.ops - {nick})];
      }
    }

    method OnQuit(nick: string)
      modifies this`chans
      ensures Model() == GoneEverywhere(old(Model()), nick)
      ensures chans.Keys == old(chans).Keys
      ensures forall c :: c in chans ==>
        chans[c] == Chan(old(chans)[c].members - {nick}, old(chans)[c].ops - {nick})
    {
      var todo := chans.Keys;
      while todo != {}
        invariant chans.Keys == old(chans).Keys && todo <= chans.Keys
        invariant forall c :: c in chans ==>
          chans[c] == if c in todo then old(chans)[c] else Without(old(chans)[c], nick)
      {
        var c :| c in todo;
        var s := chans[c];
        chans := chans[c := Chan(s.members - {nick}, s.ops - {nick})];
        todo := todo - {c};
      }
    }

    method OnNick(oldNick: string, newNick: string)
      modifies this`chans
      ensures Model() == RenamedEverywhere(old(Model()), oldNick, newNick)
      ensures chans.Keys == old(chans).Keys
      ensures forall c :: c in chans && oldNick !in old(chans)[c].members ==>
        chans[c].members == old(chans)[c].members
      ensures forall c :: c in chans && oldNick in old(chans)[c].members ==>
        chans[c].members == old(chans)[c].members - {oldNick} + {newNick}
      ensures forall c :: c in chans && oldNick !in old(chans)[c].ops ==> chans[c].ops == old(chans)[c].ops
      ensures forall c :: c in chans && oldNick in old(chans)[c].ops ==>
        chans[c].ops == old(chans)[c].ops - {oldNick} + {newNick}
    {
      var todo := chans.Keys;
      while todo != {}
        invariant chans.Keys == old(chans).Keys && todo <= chans.Keys
        invariant forall c :: c in chans ==>
          chans[c] == if c in todo then old(chans)[c] else Renamed(old(chans)[c], oldNick, newNick)
      {
        var c :| c in todo;
        var s := chans[c];
        if oldNick in s.members {
          s := s.(members := s.members - {oldNick} + {newNick});
        }
        if oldNick in s.ops {
          s := s.(ops := s.ops - {oldNick} + {newNick});
        }
        chans := chans[c := s];
        todo := todo - {c};
      }
    }

    method OnModeOp(channel: string, nick: string, add: bool, self: string, now: int) returns (ghost order: seq<string>)
      modifies this`chans, this`log, cool
      ensures Model() == ModeSet(old(Model()), channel, nick, add)
      ensures channel in chans && (nick in chans[channel].ops <==> add) && chans - {channel} == old(chans) - {channel}
      ensures channel in old(chans) ==>
        && chans[channel].members == old(chans)[channel].members
        && chans[channel].ops - {nick} == old(chans)[channel].ops - {nick}
      ensures Visits(order, Targets(Model(), channel, self, protected))
      ensures Out() == SendAll(old(Out()), channel, order, now)
    {
      var s := if channel in chans then chans[channel] else NOBODY;
      if add {
        s := s.(ops := s.ops + {nick});
      } else {
        s := s.(ops := s.ops - {nick});
      }
      chans := chans[channel := s];
      order := Enforce(channel, self, now);
    }

    /** The MODE callback: the channel is enforced after each operator change of the line. */
    method OnMode(channel: string, modes: string, args: seq<string>, self: string, now: int)
      returns (ghost rounds: seq<seq<string>>)
      modifies this`chans, this`log, cool
      ensures Model() == ModesSet(old(Model()), channel, OpsIn(modes, args))
      ensures |rounds| == |OpsIn(modes, args)|
      ensures AllVisited(old(Model()), channel, OpsIn(modes, args), rounds, self, protected)
      ensures Out() == SendRounds(old(Out()), channel, rounds, now)
    {
      var changes := OpChanges(modes, args);
      rounds := [];
      for i := 0 to |changes|
        invariant Model() == ModesSet(old(Model()), channel, changes[..i]) && |rounds| == i
        invariant AllVisited(old(Model()), channel, changes, rounds, self, protected)
        invariant Out() == SendRounds(old(Out()), channel, rounds, now)
      {
        ModesSetOneMore(old(Model()), channel, changes, i);
        var order := OnModeOp(channel, changes[i].nick, changes[i].add, self, now);
        VisitsOneMore(old(Model()), channel, changes, rounds, order, self, protected);
        SendsOneMore(old(Out()), channel, rounds, order, now);
        rounds := rounds + [order];
      }
      assert changes[..|changes|] == changes;
    }

    method HoldsOp(channel: string, self: string) returns (r: bool)
      ensures r <==> channel in chans && self in chans[channel].ops
    {
      return channel in chans && self in chans[channel].ops;
    }

    method Enforce(channel: string, self: string, now: int) returns (ghost order: seq<string>)
      modifies this`log, cool
      ensures Visits(order, Targets(Model(), channel, self, protected))
      ensures Out() == SendAll(old(Out()), channel, order, now)
    {
      order := [];
      if channel !in chans || self !in chans[channel].ops {
        return;
      }
      var s := chans[channel];
      var toOp := set n | n in s.members && n != self && n in protected && n !in s.ops;
      ghost var all := toOp;
      while toOp != {}
        invariant toOp <= all && Visits(order, all - toOp)
        invariant Out() == SendAll(old(Out()), channel, order, now)
        invariant unchanged(this`chans, this`naming)
      {
        var nick :| nick in toOp;
        assert (order + [nick])[..|order|] == order;
        var fired := cool.Use("op:" + channel + ":" + nick, OP_COOLDOWN, now);
        if fired {
          log := log + [Sent(channel, nick, now)];
        }
        order := order + [nick];
        toOp := toOp - {nick};
      }
    }
  }
}
