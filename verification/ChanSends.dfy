/** Channel keeping over whole runs beside the server: the record is true, and what is
    sent is warranted, spaced, and all that is needed. */
module ChanSends {
  import Cooldown
  import opened ChanKeep
  import opened ChanServer
  import opened Modes

  // --- Enforcement ---

  /** A world with the keeper's outbox. */
  datatype Net = Net(w: World, out: Outbox)

  /** The records by which a message makes the keeper enforce its channel: one for every
      operator change of a MODE line, one for other messages that enforce. */
  function Records(w: World, e: Event): seq<Tracked> {
    match e
    case SelfJoined(_, _) => [Next(w, e).k]
    case Joined(_, _) => [Next(w, e).k]
    case NamesEnd(_) => [Next(w, e).k]
    case Mode(c, _, _, _) =>
      seq(|Heard(e)|, j requires 0 <= j < |Heard(e)| => ModesSet(w.k, c, Heard(e)[..j + 1]))
    case _ => []
  }

  predicate Enforces(e: Event) {
    e.SelfJoined? || e.Joined? || e.Mode? || e.NamesEnd?
  }

  /** One message at one clock reading; each of `rounds` is the order in which one
      enforcement visits the nicks to op. */
  datatype Turn = Turn(e: Event, now: int, rounds: seq<seq<string>>)

  function Play(n: Net, t: Turn): Net {
    Net(Next(n.w, t.e), if Enforces(t.e) then SendRounds(n.out, t.e.chan, t.rounds, t.now) else n.out)
  }

  /** Whom the j-th enforcement of a turn is to op, going by the record it has. */
  function ToOp(n: Net, t: Turn, j: nat, protected: set<string>): set<string>
    requires Enforces(t.e) && j < |Records(n.w, t.e)|
  {
    Targets(Records(n.w, t.e)[j], t.e.chan, n.w.s.self, protected)
  }

  ghost predicate Fair(n: Net, t: Turn, protected: set<string>) {
    && Possible(n.w.s, t.e)
    && |t.rounds| == |Records(n.w, t.e)|
    && forall j :: 0 <= j < |t.rounds| ==> Enforces(t.e) && Visits(t.rounds[j], ToOp(n, t, j, protected))
  }

  function After(turns: seq<Turn>): Net {
    if turns == [] then
      Net(World(Tracked(map[], {}), Server("", map[], map[]), {}), Outbox(map[], []))
    else Play(After(turns[..|turns| - 1]), turns[|turns| - 1])
  }

  /** A run in which every MODE line is read as it was meant. */
  ghost predicate FairRun(turns: seq<Turn>, protected: set<string>) {
    forall i :: 0 <= i < |turns| ==> FairAt(turns, i, protected)
  }

  ghost predicate FairAt(turns: seq<Turn>, i: nat, protected: set<string>)
    requires i < |turns|
  {
    Fair(After(turns[..i]), turns[i], protected) && Understood(turns[i].e)
  }

  // The cooldown's own run, read off the outbox.

  function Attempts(log: seq<Sent>): seq<Cooldown.Attempt> {
    if log == [] then []
    else
      var last := log[|log| - 1];
      Attempts(log[..|log| - 1]) + [Cooldown.Attempt(CoolKey(last.chan, last.nick), last.at)]
  }

  lemma {:induction false} AttemptsAt(log: seq<Sent>, i: nat)
    requires i < |log|
    ensures |Attempts(log)| == |log|
    ensures Attempts(log)[i] == Cooldown.Attempt(CoolKey(log[i].chan, log[i].nick), log[i].at)
  {
    AttemptsLength(log);
    var n := |log| - 1;
    AttemptsLength(log[..n]);
    if i < n {
      AttemptsAt(log[..n], i);
    }
  }

  lemma {:induction false} AttemptsLength(log: seq<Sent>)
    ensures |Attempts(log)| == |log|
  {
    if log != [] {
      AttemptsLength(log[..|log| - 1]);
    }
  }

  ghost predicate Cooled(o: Outbox) {
    Cooldown.Spaced(Cooldown.Run(o.last, Attempts(o.log)), OP_COOLDOWN)
  }

  /** A nick of the channel was sent +o within the cooldown before now. */
  ghost predicate SentLately(o: Outbox, c: string, n: string, now: int) {
    exists i :: 0 <= i < |o.log| && o.log[i].chan == c && o.log[i].nick == n && now - o.log[i].at < 5_000_000_000
  }

  ghost predicate ValidLog(log: seq<Sent>) {
    forall i :: 0 <= i < |log| ==> ValidNick(log[i].nick)
  }

  /** Nicks hold no colon, so a cooldown key names one channel and one nick. */
  lemma CoolKeyIsInjective(c: string, n: string, c': string, n': string)
    requires ValidNick(n) && ValidNick(n')
    ensures CoolKey(c, n) == CoolKey(c', n') ==> c == c' && n == n'
  {
    if CoolKey(c, n) == CoolKey(c', n') {
      var k := CoolKey(c, n);
      var p, p' := 3 + |c|, 3 + |c'|;
      assert k[p] == ':' && forall i :: p < i < |k| ==> k[i] == n[i - p - 1];
      assert k[p'] == ':' && forall i :: p' < i < |k| ==> k[i] == n'[i - p' - 1];
      assert p == p';
      assert k[3..p] == c && k[3..p] == c' && k[p + 1..] == n && k[p + 1..] == n';
    }
  }

  /** A refused send has a send of the same nick within the cooldown behind it. */
  lemma RefusedWasSent(o: Outbox, c: string, n: string, now: int, f: Cooldown.Attempt)
    requires ValidLog(o.log) && ValidNick(n)
    requires f in Attempts(o.log) && f.key == CoolKey(c, n) && now - f.now < OP_COOLDOWN
    ensures SentLately(o, c, n, now)
  {
    AttemptsLength(o.log);
    var i :| 0 <= i < |o.log| && Attempts(o.log)[i] == f;
    AttemptsAt(o.log, i);
    CoolKeyIsInjective(c, n, o.log[i].chan, o.log[i].nick);
  }

  lemma SendKeeps(o: Outbox, c: string, n: string, now: int)
    requires Cooled(o) && ValidLog(o.log) && ValidNick(n)
    ensures var o' := Send(o, c, n, now);
      && Cooled(o') && ValidLog(o'.log)
      && SentLately(o', c, n, now)
      && (o'.log == o.log || o'.log == o.log + [Sent(c, n, now)])
  {
    var r, a := Cooldown.Run(o.last, Attempts(o.log)), Cooldown.Attempt(CoolKey(c, n), now);
    Cooldown.StepKeepsSpacing(r, a, OP_COOLDOWN);
    if Cooldown.IsReady(o.last, CoolKey(c, n), OP_COOLDOWN, now) {
      SendGoesOut(o, c, n, now);
    } else {
      var f :| f in r.fired && f.key == a.key && now - f.now < OP_COOLDOWN;
      RefusedWasSent(o, c, n, now, f);
    }
  }

  lemma SendGoesOut(o: Outbox, c: string, n: string, now: int)
    requires Cooldown.IsReady(o.last, CoolKey(c, n), OP_COOLDOWN, now) && ValidLog(o.log) && ValidNick(n)
    ensures var o' := Send(o, c, n, now);
      && o'.log == o.log + [Sent(c, n, now)] && ValidLog(o'.log)
      && Attempts(o'.log) == Attempts(o.log) + [Cooldown.Attempt(CoolKey(c, n), now)]
      && SentLately(o', c, n, now)
  {
    var o' := Send(o, c, n, now);
    assert o'.log[..|o.log|] == o.log && o'.log[|o.log|] == Sent(c, n, now);
  }

  /** What has been sent lately stays so while the log only grows. */
  lemma StaysSent(o: Outbox, o': Outbox, c: string, n: string, now: int)
    requires SentLately(o, c, n, now) && o.log <= o'.log
    ensures SentLately(o', c, n, now)
  {
    var i :| 0 <= i < |o.log| && o.log[i].chan == c && o.log[i].nick == n && now - o.log[i].at < OP_COOLDOWN;
    assert o'.log[i] == o.log[i];
  }

  /** Everything past the first `from` entries was sent now, to nicks of the list. */
  ghost predicate AddsOnly(log: seq<Sent>, from: nat, c: string, order: seq<string>, now: int) {
    forall i :: from <= i < |log| ==> log[i].chan == c && log[i].at == now && log[i].nick in order
  }

  lemma AddsOneMore(log: seq<Sent>, from: nat, c: string, order: seq<string>, now: int, log': seq<Sent>)
    requires order != [] && AddsOnly(log, from, c, order[..|order| - 1], now)
    requires log' == log || log' == log + [Sent(c, order[|order| - 1], now)]
    ensures AddsOnly(log', from, c, order, now)
  {
  }

  /** What sending to a list of nicks adds to the log. */
  lemma {:induction false} SendAllAdds(o: Outbox, c: string, order: seq<string>, now: int)
    requires Cooled(o) && ValidLog(o.log) && forall i :: 0 <= i < |order| ==> ValidNick(order[i])
    ensures var o' := SendAll(o, c, order, now);
      && Cooled(o') && ValidLog(o'.log)
      && o.log <= o'.log && AddsOnly(o'.log, |o.log|, c, order, now)
  {
    if order != [] {
      var m := |order| - 1;
      SendAllAdds(o, c, order[..m], now);
      var mid := SendAll(o, c, order[..m], now);
      SendKeeps(mid, c, order[m], now);
      AddsOneMore(mid.log, |o.log|, c, order, now, SendAll(o, c, order, now).log);
    }
  }

  lemma LastIsSent(o: Outbox, c: string, order: seq<string>, now: int)
    requires Cooled(o) && ValidLog(o.log) && order != [] && forall k :: 0 <= k < |order| ==> ValidNick(order[k])
    ensures var mid, o' := SendAll(o, c, order[..|order| - 1], now), SendAll(o, c, order, now);
      && mid.log <= o'.log && SentLately(o', c, order[|order| - 1], now)
  {
    var m := |order| - 1;
    SendAllAdds(o, c, order[..m], now);
    SendKeeps(SendAll(o, c, order[..m], now), c, order[m], now);
  }

  /** After which every nick of the list has been sent one lately. */
  lemma {:induction false} SendAllReaches(o: Outbox, c: string, order: seq<string>, now: int, i: nat)
    requires Cooled(o) && ValidLog(o.log) && i < |order| && forall k :: 0 <= k < |order| ==> ValidNick(order[k])
    ensures SentLately(SendAll(o, c, order, now), c, order[i], now)
  {
    var m := |order| - 1;
    LastIsSent(o, c, order, now);
    if i < m {
      SendAllReaches(o, c, order[..m], now, i);
      StaysSent(SendAll(o, c, order[..m], now), SendAll(o, c, order, now), c, order[i], now);
    }
  }

  /** What several enforcements add to the log, each of them for nicks of its round. */
  ghost predicate InRounds(nick: string, rounds: seq<seq<string>>) {
    exists j :: 0 <= j < |rounds| && nick in rounds[j]
  }

  ghost predicate AddsRounds(log: seq<Sent>, from: nat, c: string, rounds: seq<seq<string>>, now: int) {
    forall i :: from <= i < |log| ==> log[i].chan == c && log[i].at == now && InRounds(log[i].nick, rounds)
  }

  ghost predicate ValidRounds(rounds: seq<seq<string>>) {
    forall j, i :: 0 <= j < |rounds| && 0 <= i < |rounds[j]| ==> ValidNick(rounds[j][i])
  }

  lemma AddsOneRound(log: seq<Sent>, from: nat, c: string, rounds: seq<seq<string>>, now: int, log': seq<Sent>)
    requires rounds != [] && from <= |log| && log <= log'
    requires AddsRounds(log, from, c, rounds[..|rounds| - 1], now)
    requires AddsOnly(log', |log|, c, rounds[|rounds| - 1], now)
    ensures AddsRounds(log', from, c, rounds, now)
  {
    var m := |rounds| - 1;
    forall i | from <= i < |log'|
      ensures log'[i].chan == c && log'[i].at == now && InRounds(log'[i].nick, rounds)
    {
      if i < |log| {
        assert log'[i] == log[i];
        var j :| 0 <= j < m && log[i].nick in rounds[..m][j];
        assert log[i].nick in rounds[j];
      } else {
        assert log'[i].nick in rounds[m];
      }
    }
  }

  lemma {:induction false} RoundsAdd(o: Outbox, c: string, rounds: seq<seq<string>>, now: int)
    requires Cooled(o) && ValidLog(o.log) && ValidRounds(rounds)
    ensures var o' := SendRounds(o, c, rounds, now);
      && Cooled(o') && ValidLog(o'.log)
      && o.log <= o'.log && AddsRounds(o'.log, |o.log|, c, rounds, now)
  {
    if rounds != [] {
      var m := |rounds| - 1;
      RoundsAdd(o, c, rounds[..m], now);
      var mid := SendRounds(o, c, rounds[..m], now);
      SendAllAdds(mid, c, rounds[m], now);
      AddsOneRound(mid.log, |o.log|, c, rounds, now, SendRounds(o, c, rounds, now).log);
    }
  }

  /** After which every nick of every round has been sent one lately. */
  lemma {:induction false} RoundsReach(o: Outbox, c: string, rounds: seq<seq<string>>, now: int, j: nat, nick: string)
    requires Cooled(o) && ValidLog(o.log) && ValidRounds(rounds)
    requires j < |rounds| && nick in rounds[j]
    ensures SentLately(SendRounds(o, c, rounds, now), c, nick, now)
  {
    var m := |rounds| - 1;
    var mid, o' := SendRounds(o, c, rounds[..m], now), SendRounds(o, c, rounds, now);
    RoundsAdd(o, c, rounds[..m], now);
    if j == m {
      var i :| 0 <= i < |rounds[m]| && rounds[m][i] == nick;
      SendAllReaches(mid, c, rounds[m], now, i);
    } else {
      RoundsReach(o, c, rounds[..m], now, j, nick);
      SendAllAdds(mid, c, rounds[m], now);
      StaysSent(mid, o', c, nick, now);
    }
  }

  // --- The truth behind an enforcement ---

  /** The changes of a message still to come after the first j + 1; only a MODE line has any. */
  function StillToCome(e: Event, j: nat): seq<OpChange> {
    if e.Mode? && j < |Meant(e)| then Meant(e)[j + 1..] else []
  }

  ghost predicate InOrder(n: Net) {
    Honest(n.w) && Cooled(n.out) && ValidLog(n.out.log)
  }

  /** Whom an enforcement is to op really is present and lacks ops, while the bot has
      them, as far as the message has got... */
  lemma TargetIsTrue(n: Net, t: Turn, j: nat, x: string, protected: set<string>)
    requires Honest(n.w) && Possible(n.w.s, t.e) && Understood(t.e)
    requires Enforces(t.e) && j < |Records(n.w, t.e)| && x in ToOp(n, t, j, protected)
    ensures var s' := Evolve(n.w.s, t.e);
      && t.e.chan in s'.truth && s'.self == n.w.s.self
      && x in s'.truth[t.e.chan].members && x in protected && x != s'.self
      && (s'.self in s'.truth[t.e.chan].ops <==> OpAfter(StillToCome(t.e, j), s'.self, true))
      && (x in s'.truth[t.e.chan].ops <==> OpAfter(StillToCome(t.e, j), x, false))
  {
    if t.e.Mode? {
      ModeTargetIsTrue(n.w, t.e, j, x, protected);
    } else {
      HonestStep(n.w, t.e);
    }
  }

  lemma ModeTargetIsTrue(w: World, e: Event, j: nat, x: string, protected: set<string>)
    requires Honest(w) && Possible(w.s, e) && Understood(e) && e.Mode?
    requires j < |Heard(e)| && x in Targets(ModesSet(w.k, e.chan, Heard(e)[..j + 1]), e.chan, w.s.self, protected)
    ensures var truth := Evolve(w.s, e).truth[e.chan];
      && x in truth.members && x in protected && x != w.s.self
      && (w.s.self in truth.ops <==> OpAfter(StillToCome(e, j), w.s.self, true))
      && (x in truth.ops <==> OpAfter(StillToCome(e, j), x, false))
  {
    var before, first, later := w.s.truth[e.chan], Meant(e)[..j + 1], Meant(e)[j + 1..];
    GrantedIsApplied(before, Meant(e), w.s.self);
    ModesSetIs(w.k, e.chan, first);
    AppliedKeepsFaith(ChanOf(w.k, e.chan), before, first, w.s.self);
    AppliedInTwo(before, Meant(e), j + 1);
    AppliedKeepsMembers(before, first);
    AppliedKeepsMembers(Applied(before, first), later);
    OpAfterIsApplied(Applied(before, first), later, w.s.self);
    OpAfterIsApplied(Applied(before, first), later, x);
  }

  lemma RoundsAreValid(n: Net, t: Turn, protected: set<string>)
    requires Honest(n.w) && Fair(n, t, protected) && Understood(t.e)
    ensures ValidRounds(t.rounds)
  {
    forall j, i | 0 <= j < |t.rounds| && 0 <= i < |t.rounds[j]|
      ensures ValidNick(t.rounds[j][i])
    {
      var x := t.rounds[j][i];
      assert x in t.rounds[j] && Visits(t.rounds[j], ToOp(n, t, j, protected));
      TargetIsTrue(n, t, j, x, protected);
      SoundStep(n.w.s, t.e);
    }
  }

  lemma PlayKeepsOrder(n: Net, t: Turn, protected: set<string>)
    requires InOrder(n) && Fair(n, t, protected) && Understood(t.e)
    ensures InOrder(Play(n, t)) && n.out.log <= Play(n, t).out.log
    ensures Enforces(t.e) ==> AddsRounds(Play(n, t).out.log, |n.out.log|, t.e.chan, t.rounds, t.now)
    ensures !Enforces(t.e) ==> Play(n, t).out == n.out
  {
    HonestStep(n.w, t.e);
    RoundsAreValid(n, t, protected);
    if Enforces(t.e) {
      RoundsAdd(n.out, t.e.chan, t.rounds, t.now);
    }
  }

  lemma RunBefore(turns: seq<Turn>, protected: set<string>, before: seq<Turn>, t: Turn)
    requires FairRun(turns, protected) && turns != [] && before == turns[..|turns| - 1] && t == turns[|turns| - 1]
    ensures FairRun(before, protected) && Fair(After(before), t, protected) && Understood(t.e)
    ensures After(turns) == Play(After(before), t)
  {
    forall i | 0 <= i < |before|
      ensures FairAt(before, i, protected)
    {
      assert FairAt(turns, i, protected) && before[..i] == turns[..i];
    }
    assert FairAt(turns, |before|, protected);
  }

  lemma RunInTwo(turns: seq<Turn>, t: Turn, protected: set<string>)
    requires FairRun(turns + [t], protected)
    ensures FairRun(turns, protected) && Fair(After(turns), t, protected) && Understood(t.e)
    ensures After(turns + [t]) == Play(After(turns), t)
  {
    assert (turns + [t])[..|turns|] == turns;
    RunBefore(turns + [t], protected, turns, t);
  }

  lemma {:induction false} RunsStayInOrder(turns: seq<Turn>, protected: set<string>)
    requires FairRun(turns, protected)
    ensures InOrder(After(turns))
  {
    if turns != [] {
      var before, t := turns[..|turns| - 1], turns[|turns| - 1];
      RunBefore(turns, protected, before, t);
      RunsStayInOrder(before, protected);
      PlayKeepsOrder(After(before), t, protected);
    }
  }

  // --- Main results ---

  /** The record never goes beyond the truth, is exact about everybody tracked but the
      bot, and in a channel whose NAMES burst has ended it is the truth, until the channel
      is re-listed or left: the bot never thinks it holds ops when it does not. */
  lemma RecordIsTrue(turns: seq<Turn>, protected: set<string>, c: string)
    requires FairRun(turns, protected)
    ensures var w := After(turns).w;
      && (c in w.k.chans ==> c in w.s.truth && Faithful(w.k.chans[c], w.s.truth[c], w.s.self))
      && (c in w.synced ==> c in w.s.truth && c in w.k.chans && w.k.chans[c] == w.s.truth[c])
      && (Holds(w.k, c, w.s.self) ==> c in w.s.truth && w.s.self in w.s.truth[c].ops)
      && (c in w.synced ==> (Holds(w.k, c, w.s.self) <==> w.s.self in w.s.truth[c].ops))
  {
    RunsStayInOrder(turns, protected);
  }

  /** What was sent to x in some enforcement of the turn was warranted: x really is
      present, protected and not the bot; the bot holds ops, and x lacks them, exactly if
      that is how the rest of the message leaves it. */
  ghost predicate Warranted(x: string, e: Event, s: Server, j: nat, protected: set<string>)
    requires Enforces(e)
  {
    && e.chan in s.truth && x in s.truth[e.chan].members && x in protected && x != s.self
    && (s.self in s.truth[e.chan].ops <==> OpAfter(StillToCome(e, j), s.self, true))
    && (x !in s.truth[e.chan].ops <==> !OpAfter(StillToCome(e, j), x, false))
  }

  /** Everything sent during a turn was sent by an enforcement that went through its nick,
      and was warranted, judged by what came after each such enforcement: the bot really
      holds ops and the nick really lacks them exactly if no later change of the line takes
      the one away or gives the other. */
  lemma SendsAreWarranted(turns: seq<Turn>, t: Turn, protected: set<string>, i: nat)
    requires FairRun(turns + [t], protected)
    ensures var n, n' := After(turns), After(turns + [t]);
      && n.out.log <= n'.out.log
      && (|n.out.log| <= i < |n'.out.log| ==>
            && Enforces(t.e) && n'.out.log[i].chan == t.e.chan
            && InRounds(n'.out.log[i].nick, t.rounds)
            && forall j: nat :: j < |t.rounds| && n'.out.log[i].nick in t.rounds[j] ==>
                 Warranted(n'.out.log[i].nick, t.e, n'.w.s, j, protected))
  {
    RunInTwo(turns, t, protected);
    RunsStayInOrder(turns, protected);
    var n, n' := After(turns), After(turns + [t]);
    PlayKeepsOrder(n, t, protected);
    if |n.out.log| <= i < |n'.out.log| {
      var x := n'.out.log[i].nick;
      forall j: nat | j < |t.rounds| && x in t.rounds[j]
        ensures Warranted(x, t.e, n'.w.s, j, protected)
      {
        assert Visits(t.rounds[j], ToOp(n, t, j, protected));
        TargetIsTrue(n, t, j, x, protected);
      }
    }
  }

  /** After the last enforcement nothing is still to come, and any message but a MODE line
      has only one. */
  lemma LastRound(n: Net, t: Turn, protected: set<string>)
    requires Fair(n, t, protected) && Understood(t.e) && Enforces(t.e) && t.rounds != []
    ensures StillToCome(t.e, |t.rounds| - 1) == [] && (!t.e.Mode? ==> |t.rounds| == 1)
  {
  }

  /** So whatever was sent at any message but a MODE line, and at a MODE line to a nick its
      last enforcement went through, was sent by a bot that really holds ops to a nick
      that really has none. */
  lemma OutrightWarranted(turns: seq<Turn>, t: Turn, protected: set<string>, i: nat)
    requires FairRun(turns + [t], protected)
    requires |After(turns).out.log| <= i < |After(turns + [t]).out.log|
    requires t.e.Mode? ==> t.rounds != [] && After(turns + [t]).out.log[i].nick in t.rounds[|t.rounds| - 1]
    ensures var s, x := After(turns + [t]).w.s, After(turns + [t]).out.log[i].nick;
      Enforces(t.e) && t.e.chan in s.truth && s.self in s.truth[t.e.chan].ops && x !in s.truth[t.e.chan].ops
  {
    RunInTwo(turns, t, protected);
    SendsAreWarranted(turns, t, protected, i);
    LastRound(After(turns), t, protected);
    assert Warranted(After(turns + [t]).out.log[i].nick, t.e, After(turns + [t]).w.s, |t.rounds| - 1, protected);
  }

  /** The last enforcement of a message has the record the message leaves. */
  lemma LastRecord(w: World, e: Event)
    requires Enforces(e) && Records(w, e) != []
    ensures Records(w, e)[|Records(w, e)| - 1] == Next(w, e).k
  {
    if e.Mode? {
      assert Heard(e)[..|Heard(e)|] == Heard(e);
    }
  }

  /** Whoever the record shows in need of ops at an enforcement of a turn has been sent
      them in the turn or within the cooldown before it... */
  lemma TargetsAreReached(n: Net, t: Turn, protected: set<string>, j: nat, x: string)
    requires InOrder(n) && Fair(n, t, protected) && Understood(t.e)
    requires Enforces(t.e) && j < |t.rounds| && x in ToOp(n, t, j, protected)
    ensures SentLately(Play(n, t).out, t.e.chan, x, t.now)
  {
    RoundsAreValid(n, t, protected);
    assert Visits(t.rounds[j], ToOp(n, t, j, protected));
    RoundsReach(n.out, t.e.chan, t.rounds, t.now, j, x);
  }

  /** A nick other than the bot that really is present, protected and without ops, in a
      channel where the bot really has them. */
  ghost predicate Needs(x: string, c: string, s: Server, protected: set<string>) {
    && c in s.truth && s.self in s.truth[c].ops
    && x in s.truth[c].members && x in protected && x != s.self && x !in s.truth[c].ops
  }

  lemma NeedIsTargeted(n: Net, t: Turn, protected: set<string>, x: string)
    requires Honest(n.w) && Possible(n.w.s, t.e) && Understood(t.e)
    requires Enforces(t.e) && Records(n.w, t.e) != [] && t.e.chan in Next(n.w, t.e).synced
    requires Needs(x, t.e.chan, Next(n.w, t.e).s, protected)
    ensures x in ToOp(n, t, |Records(n.w, t.e)| - 1, protected)
  {
    HonestStep(n.w, t.e);
    LastRecord(n.w, t.e);
  }

  /** ... and in a synced channel so has whoever really is in need of them. */
  lemma NeedIsMet(turns: seq<Turn>, t: Turn, protected: set<string>, x: string)
    requires FairRun(turns + [t], protected)
    requires Enforces(t.e) && t.rounds != [] && t.e.chan in After(turns + [t]).w.synced
    requires Needs(x, t.e.chan, After(turns + [t]).w.s, protected)
    ensures SentLately(After(turns + [t]).out, t.e.chan, x, t.now)
  {
    RunInTwo(turns, t, protected);
    RunsStayInOrder(turns, protected);
    NeedIsTargeted(After(turns), t, protected, x);
    TargetsAreReached(After(turns), t, protected, |t.rounds| - 1, x);
  }

  /** Over the whole run, reconnects included, two +o for the same nick in the same
      channel are at least the cooldown apart. */
  lemma SendsAreSpaced(turns: seq<Turn>, protected: set<string>, i: nat, j: nat)
    requires FairRun(turns, protected)
    requires i < j < |After(turns).out.log|
    requires var log := After(turns).out.log; log[i].chan == log[j].chan && log[i].nick == log[j].nick
    ensures var log := After(turns).out.log; log[j].at - log[i].at >= 5_000_000_000
  {
    RunsStayInOrder(turns, protected);
    AttemptsAt(After(turns).out.log, i);
    AttemptsAt(After(turns).out.log, j);
  }
}
