/** Exactly which MODE lines the record survives, and lines that go wrong. */
module ChanMisreads {
  import opened ChanKeep
  import opened ChanSends
  import opened ChanServer
  import opened Modes

  // --- Lines that are misread ---

  /** Whatever the state and the arguments, a record that is the truth before the line is
      the truth after it. */
  ghost predicate KeepsRecord(c: string, modes: string, wire: Convention) {
    forall w: World, args :: KeepsRecordIn(w, Mode(c, modes, args, wire))
  }

  ghost predicate KeepsRecordIn(w: World, e: Event)
    requires e.Mode?
  {
    Honest(w) && Possible(w.s, e) && e.chan in w.synced ==>
      ChanOf(Next(w, e).k, e.chan) == Next(w, e).s.truth[e.chan]
  }

  lemma {:induction false} SetsDecides(s: Chan, changes: seq<OpChange>, nick: string, add: bool)
    requires OpChange(nick, !add) !in changes
    ensures nick in Applied(s, changes).ops <==> if OpChange(nick, add) in changes then add else nick in s.ops
  {
    if changes != [] {
      var front := changes[..|changes| - 1];
      assert changes == front + [changes[|changes| - 1]];
      SetsDecides(s, front, nick, add);
    }
  }

  lemma DisputeShows(s: Chan, a: seq<OpChange>, b: seq<OpChange>, nick: string, add: bool)
    requires Disputed(a, b, nick, add) && (nick in s.ops <==> !add)
    ensures nick in Applied(s, a).ops <==> nick !in Applied(s, b).ops
  {
    SetsDecides(s, a, nick, add);
    SetsDecides(s, b, nick, add);
  }

  /** Everybody a reading speaks of is among the arguments. */
  lemma {:induction false} ReadIsAbout(takes: Convention, modes: string, args: seq<string>, add: bool,
                                       nicks: set<string>)
    requires forall i :: 0 <= i < |args| ==> args[i] in nicks
    ensures About(Read(takes, modes, args, add), nicks)
  {
    if modes != "" {
      if IsSign(modes[0]) {
        ReadIsAbout(takes, modes[1..], args, modes[0] == '+', nicks);
      } else {
        ReadIsAbout(takes, modes[1..], Unread(takes, add, modes[0], args), add, nicks);
      }
    }
  }

  /** One channel, recorded exactly. */
  function Exactly(self: string, c: string, s: Chan): World {
    World(Tracked(map[c := s], {}), Server(self, map[c := s], map[]), {c})
  }

  lemma ExactlyIsHonest(self: string, c: string, s: Chan)
    requires ValidChan(s, self)
    ensures Honest(Exactly(self, c, s))
  {
  }

  lemma ExactlyAfter(self: string, s: Chan, e: Event)
    requires e.Mode? && ValidChan(s, self) && About(Meant(e), s.members)
    ensures ChanOf(Next(Exactly(self, e.chan, s), e).k, e.chan) == Applied(s, Heard(e))
    ensures Next(Exactly(self, e.chan, s), e).s.truth[e.chan] == Applied(s, Meant(e))
  {
    GrantedIsApplied(s, Meant(e), self);
    ModesSetIs(Exactly(self, e.chan, s).k, e.chan, Heard(e));
  }

  lemma ExactlyAllows(self: string, s: Chan, e: Event)
    requires e.Mode? && OpsCarry(e.wire) && Fits(e.wire, e.modes, e.args) && About(Meant(e), s.members)
    ensures Possible(Exactly(self, e.chan, s).s, e)
  {
  }

  /** A line out of step, with some arguments, leaves the record of some channel wrong. */
  lemma MisreadShows(modes: string, wire: Convention, self: string) returns (s: Chan, args: seq<string>)
    requires OpsCarry(wire) && !InStep(ParserTakes, wire, modes, true, 0) && ValidNick(self)
    ensures Fits(wire, modes, args) && About(Read(wire, modes, args, true), s.members) && ValidChan(s, self)
    ensures Applied(s, OpsIn(modes, args)) != Applied(s, Read(wire, modes, args, true))
  {
    var i, add := OutOfStepIsMisread(ParserTakes, wire, modes);
    args := Spread(Count(wire, modes, true));
    var members := (set k | 0 <= k < |args| :: args[k]) + {self};
    s := Chan(members, if add then {} else {args[i]});
    ReadIsAbout(wire, modes, args, true, members);
    DisputeShows(s, OpsIn(modes, args), Read(wire, modes, args, true), args[i], add);
  }

  lemma RecordGoesWrong(self: string, s: Chan, e: Event)
    requires e.Mode? && ValidChan(s, self) && OpsCarry(e.wire)
    requires Fits(e.wire, e.modes, e.args) && About(Meant(e), s.members)
    requires Applied(s, Heard(e)) != Applied(s, Meant(e))
    ensures !KeepsRecordIn(Exactly(self, e.chan, s), e)
  {
    ExactlyIsHonest(self, e.chan, s);
    ExactlyAllows(self, s, e);
    ExactlyAfter(self, s, e);
  }

  /** A line in step is read as it was meant. */
  lemma InStepIsUnderstood(e: Event)
    requires e.Mode? && OpsCarry(e.wire) && Fits(e.wire, e.modes, e.args)
    requires InStep(ParserTakes, e.wire, e.modes, true, 0)
    ensures Understood(e)
  {
    ReadsRightIff(e.wire, e.modes);
  }

  /** Exactly which MODE lines keep the record true, whatever the state and the arguments:
      those in which, before each `o`, the parser has counted as many argument letters as
      the server that wrote them. */
  lemma KeepsRecordIff(c: string, modes: string, wire: Convention)
    requires OpsCarry(wire)
    ensures KeepsRecord(c, modes, wire) <==> InStep(ParserTakes, wire, modes, true, 0)
  {
    if InStep(ParserTakes, wire, modes, true, 0) {
      forall w: World, args
        ensures KeepsRecordIn(w, Mode(c, modes, args, wire))
      {
        var e := Mode(c, modes, args, wire);
        if Honest(w) && Possible(w.s, e) {
          InStepIsUnderstood(e);
          HonestStep(w, e);
        }
      }
    } else {
      var s, args := MisreadShows(modes, wire, "bot");
      RecordGoesWrong("bot", s, Mode(c, modes, args, wire));
    }
  }

  lemma LossIsMissed(bot: string, args: seq<string>)
    requires args == [bot] && bot != ""
    ensures Fits(Unlimits, "-l-o", args) && OpsIn("-l-o", args) == []
    ensures Read(Unlimits, "-l-o", args, true) == [OpChange(bot, false)]
  {
    OneChangeLost(ParserTakes, Unlimits, 'l', false, false, bot);
    assert "-l-o" == [SignChar(false), 'l', SignChar(false), 'o'];
  }

  /** A line that leaves the bot thinking it holds ops when it does not: `-l-o` with the
      bot's nick, from a server that gives `-l` no argument. */
  lemma MissedLoss(bot: string, s: Chan, e: Event)
    requires ValidChan(s, bot) && bot in s.ops && bot != ""
    requires e.Mode? && e.modes == "-l-o" && e.args == [bot] && e.wire == Unlimits
    ensures var w := Exactly(bot, e.chan, s);
      && Honest(w) && Possible(w.s, e)
      && Holds(Next(w, e).k, e.chan, bot) && bot !in Next(w, e).s.truth[e.chan].ops
  {
    LossIsMissed(bot, e.args);
    ExactlyIsHonest(bot, e.chan, s);
    ExactlyAllows(bot, s, e);
    ExactlyAfter(bot, s, e);
    assert Applied(s, Meant(e)) == Opped(Applied(s, []), bot, false);
  }

  // --- Lines that change more than one operator ---

  lemma ReadTwo(takes: Convention, add: bool, a: string, b: string)
    requires OpsCarry(takes) && a != "" && b != ""
    ensures Fits(takes, [SignChar(add), 'o', 'o'], [a, b])
    ensures Read(takes, [SignChar(add), 'o', 'o'], [a, b], true) == [OpChange(a, add), OpChange(b, add)]
  {
    assert [SignChar(add), 'o', 'o'] == [SignChar(add), 'o'] + "o" && [a, b][1..] == [b] && "o"[1..] == "";
    assert takes(add, 'o');
    ReadPair(takes, add, 'o', "o", [a, b], true);
    assert [b][1..] == [] && Read(takes, "", [], add) == [];
    assert Read(takes, "o", [b], add) == [OpChange(b, add)];
  }

  lemma AppliedTwo(s: Chan, a: OpChange, b: OpChange)
    ensures Applied(s, [a]) == Opped(s, a.nick, a.add)
    ensures Applied(s, [a, b]) == Opped(Opped(s, a.nick, a.add), b.nick, b.add)
  {
    assert [a][..0] == [] && [a, b][..1] == [a];
  }

  lemma TwoRecords(w: World, e: Event, changes: seq<OpChange>)
    requires e.Mode? && Heard(e) == changes && |changes| == 2 && e.chan in w.k.chans
    ensures |Records(w, e)| == 2
    ensures Records(w, e)[0] == w.k.(chans := w.k.chans[e.chan := Applied(w.k.chans[e.chan], [changes[0]])])
    ensures Records(w, e)[1] == w.k.(chans := w.k.chans[e.chan := Applied(w.k.chans[e.chan], changes)])
  {
    assert changes[..1] == [changes[0]] && changes[..2] == changes;
    ModesSetIs(w.k, e.chan, changes[..1]);
    ModesSetIs(w.k, e.chan, changes[..2]);
  }

  lemma TwoRounds(c: string, nick: string, now: int)
    ensures SendRounds(Outbox(map[], []), c, [[nick], []], now).log == [Sent(c, nick, now)]
  {
    assert [[nick], []][..1] == [[nick]] && [[nick]][..0] == [] && [nick][..0] == [];
    var o := Outbox(map[], []);
    assert SendAll(o, c, [nick], now) == Send(SendAll(o, c, [], now), c, nick, now);
    assert SendRounds(o, c, [[nick]], now) == SendAll(SendRounds(o, c, [], now), c, [nick], now);
    var one := SendRounds(o, c, [[nick]], now);
    assert SendAll(one, c, [], now) == one;
  }

  /** Either the line takes ops from the nick and then from the bot, who both have them, or
      it gives them to the bot and then to the nick, who both lack them. */
  ghost predicate TwoChanges(changes: seq<OpChange>, s: Chan, bot: string, nick: string) {
    && bot != nick && s.members == {bot, nick}
    && (|| (s.ops == {bot, nick} && changes == [OpChange(nick, false), OpChange(bot, false)])
        || (s.ops == {} && changes == [OpChange(bot, true), OpChange(nick, true)]))
  }

  /** Whom the two enforcements of such a line are to op. */
  lemma TwoTargets(n: Net, t: Turn, bot: string, nick: string, s: Chan)
    requires t.e.Mode? && n.w == Exactly(bot, t.e.chan, s) && TwoChanges(Heard(t.e), s, bot, nick)
    ensures |Records(n.w, t.e)| == 2
    ensures ToOp(n, t, 0, {nick}) == {nick} && ToOp(n, t, 1, {nick}) == {}
  {
    TwoRecords(n.w, t.e, Heard(t.e));
    AppliedTwo(s, Heard(t.e)[0], Heard(t.e)[1]);
  }

  lemma SingleVisit(nick: string)
    ensures Visits([nick], {nick}) && Visits([], {})
  {
  }

  lemma TwoAreFair(n: Net, t: Turn, bot: string, nick: string, s: Chan)
    requires t.e.Mode? && n.w == Exactly(bot, t.e.chan, s) && TwoChanges(Heard(t.e), s, bot, nick)
    requires Possible(n.w.s, t.e) && t.rounds == [[nick], []]
    ensures Fair(n, t, {nick})
  {
    TwoTargets(n, t, bot, nick, s);
    SingleVisit(nick);
  }

  lemma AfterTwo(bot: string, nick: string, s: Chan, e: Event)
    requires e.Mode? && ValidChan(s, bot) && TwoChanges(Meant(e), s, bot, nick)
    ensures Next(Exactly(bot, e.chan, s), e).s.truth[e.chan].ops == if s.ops == {} then {bot, nick} else {}
  {
    AppliedTwo(s, Meant(e)[0], Meant(e)[1]);
    ExactlyAfter(bot, s, e);
  }

  /** The first change of such a line makes the bot send the nick a +o. */
  lemma FirstChangeSends(bot: string, nick: string, s: Chan, n: Net, t: Turn)
    requires ValidChan(s, bot) && t.e.Mode? && Understood(t.e) && TwoChanges(Meant(t.e), s, bot, nick)
    requires OpsCarry(t.e.wire) && Fits(t.e.wire, t.e.modes, t.e.args)
    requires t.rounds == [[nick], []] && n == Net(Exactly(bot, t.e.chan, s), Outbox(map[], []))
    ensures InOrder(n) && Fair(n, t, {nick}) && Play(n, t).out.log == [Sent(t.e.chan, nick, t.now)]
    ensures Play(n, t).w.s.truth[t.e.chan].ops == if s.ops == {} then {bot, nick} else {}
  {
    ExactlyIsHonest(bot, t.e.chan, s);
    ExactlyAllows(bot, s, t.e);
    TwoAreFair(n, t, bot, nick, s);
    AfterTwo(bot, nick, s, t.e);
    TwoRounds(t.e.chan, nick, t.now);
  }

  /** So with `-oo` and a protected nick and the bot: the line has taken the bot's own ops
      by the time it sends... */
  lemma SentTooLate(bot: string, nick: string, s: Chan, n: Net, t: Turn)
    requires ValidNick(bot) && ValidNick(nick) && bot != "" && nick != "" && bot != nick
    requires t.e.Mode? && t.e == Mode(t.e.chan, "-oo", [nick, bot], ParserTakes) && t.rounds == [[nick], []]
    requires s == Chan({bot, nick}, {bot, nick}) && n == Net(Exactly(bot, t.e.chan, s), Outbox(map[], []))
    ensures InOrder(n) && Fair(n, t, {nick}) && Understood(t.e)
    ensures Play(n, t).out.log == [Sent(t.e.chan, nick, t.now)]
    ensures bot !in Play(n, t).w.s.truth[t.e.chan].ops
  {
    assert "-oo" == [SignChar(false), 'o', 'o'];
    ReadTwo(ParserTakes, false, nick, bot);
    FirstChangeSends(bot, nick, s, n, t);
  }

  /** ... and with `+oo` and the bot and the nick, has already opped the nick. */
  lemma SentInVain(bot: string, nick: string, s: Chan, n: Net, t: Turn)
    requires ValidNick(bot) && ValidNick(nick) && bot != "" && nick != "" && bot != nick
    requires t.e.Mode? && t.e == Mode(t.e.chan, "+oo", [bot, nick], ParserTakes) && t.rounds == [[nick], []]
    requires s == Chan({bot, nick}, {}) && n == Net(Exactly(bot, t.e.chan, s), Outbox(map[], []))
    ensures InOrder(n) && Fair(n, t, {nick}) && Understood(t.e)
    ensures Play(n, t).out.log == [Sent(t.e.chan, nick, t.now)]
    ensures nick in Play(n, t).w.s.truth[t.e.chan].ops
  {
    assert "+oo" == [SignChar(true), 'o', 'o'];
    ReadTwo(ParserTakes, true, bot, nick);
    FirstChangeSends(bot, nick, s, n, t);
  }
}
