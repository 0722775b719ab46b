/** The server's side of channel keeping: what is really true in the channels the bot
    is on, the messages that can follow from it, and how the keeper's record relates
    to it over whole runs (RFC 2812 sections 3.1.2, 3.2 and 5.1). */
module ChanServer {
  import opened ChanKeep
  import opened Modes

  /** The bot's nick, the true state of every channel it is on, and, for each NAMES
      burst under way, what it has listed so far. */
  datatype Server = Server(self: string, truth: map<string, Chan>, listed: map<string, Chan>)

  /** What the bot hears. A MODE line comes with the convention it was written under. */
  datatype Event =
    | Connected(server: Server)
    | SelfJoined(chan: string, there: Chan)
    | Joined(chan: string, nick: string)
    | Left(chan: string, nick: string) // PART or KICK, of anyone
    | Quit(nick: string)
    | NickChanged(old_: string, new_: string)
    | Mode(chan: string, modes: string, args: seq<string>, wire: Convention)
    | NamesLine(chan: string, entries: seq<string>)
    | NamesEnd(chan: string)

  /** The operator changes a MODE line makes, and those the bot reads in it. */
  function Meant(e: Event): seq<OpChange>
    requires e.Mode?
  {
    Read(e.wire, e.modes, e.args, true)
  }

  function Heard(e: Event): seq<OpChange>
    requires e.Mode?
  {
    OpsIn(e.modes, e.args)
  }

  /** A MODE line is read as it was meant. */
  predicate Understood(e: Event) {
    e.Mode? ==> Heard(e) == Meant(e)
  }

  ghost predicate ValidNick(n: string) { ':' !in n }

  ghost predicate ValidChan(s: Chan, self: string) {
    && s.ops <= s.members && self in s.members
    && forall n :: n in s.members ==> ValidNick(n)
  }

  ghost predicate About(changes: seq<OpChange>, nicks: set<string>) {
    forall i :: 0 <= i < |changes| ==> changes[i].nick in nicks
  }

  /** The messages a server can send. While a NAMES burst for a channel is under way,
      its membership does not change. */
  ghost predicate Possible(s: Server, e: Event) {
    match e
    case Connected(s') => s'.truth == map[] && s'.listed == map[]
    case SelfJoined(c, there) => c !in s.truth && ValidChan(there, s.self)
    case Joined(c, n) => c in s.truth && c !in s.listed && n !in s.truth[c].members && ValidNick(n)
    case Left(c, n) => c in s.truth && c !in s.listed && n in s.truth[c].members
    case Quit(n) => n != s.self && forall c :: c in s.listed && c in s.truth ==> n !in s.truth[c].members
    case NickChanged(o, w) =>
      && ValidNick(w)
      && (forall c :: c in s.listed && c in s.truth ==> o !in s.truth[c].members)
      && (w == o || forall c :: c in s.truth ==> w !in s.truth[c].members)
    case Mode(c, modes, args, wire) =>
      && c in s.truth && c !in s.listed
      && OpsCarry(wire) && Fits(wire, modes, args) && About(Meant(e), s.truth[c].members)
    case NamesLine(c, entries) => c in s.truth && forall i :: 0 <= i < |entries| ==> TrueEntry(s.truth[c], entries[i])
    case NamesEnd(c) => c in s.listed && c in s.truth && s.listed[c] == s.truth[c]
  }

  /** An entry names a member and carries an operator's sigil exactly if it is one. */
  ghost predicate TrueEntry(s: Chan, entry: string) {
    Bare(entry) != "" && Bare(entry) in s.members && (OpPrefix(entry) <==> Bare(entry) in s.ops)
  }

  // --- What the server does, nick by nick and without regard to the keeper ---

  /** Whether a nick is an operator after some changes. */
  function OpAfter(changes: seq<OpChange>, nick: string, before: bool): bool {
    if changes == [] then before
    else
      var last := changes[|changes| - 1];
      if last.nick == nick then last.add else OpAfter(changes[..|changes| - 1], nick, before)
  }

  function Departed(s: Chan, n: string): Chan {
    Chan(set x | x in s.members && x != n, set x | x in s.ops && x != n)
  }

  /** Everybody keeps what they are; the one renamed is it under the new nick. */
  function CalledAnew(s: Chan, o: string, w: string): Chan {
    Chan(set x | x in s.members :: if x == o then w else x, set x | x in s.ops :: if x == o then w else x)
  }

  /** The last change about a member decides. */
  function Granted(s: Chan, changes: seq<OpChange>): Chan {
    s.(ops := set x | x in s.members && OpAfter(changes, x, x in s.ops))
  }

  function Nicks(entries: seq<string>): set<string> {
    set i | 0 <= i < |entries| :: Bare(entries[i])
  }

  function Signed(entries: seq<string>): set<string> {
    set i | 0 <= i < |entries| && OpPrefix(entries[i]) :: Bare(entries[i])
  }

  /** A NAMES line lists the nicks of its entries, as operators those with an operator's sigil. */
  function Lists(base: Chan, entries: seq<string>): Chan {
    Chan(base.members + Nicks(entries), base.ops + Signed(entries))
  }

  function Evolve(s: Server, e: Event): Server {
    match e
    case Connected(s') => s'
    case SelfJoined(c, there) => s.(truth := s.truth[c := there])
    case Joined(c, n) =>
      if c in s.truth then s.(truth := s.truth[c := Chan(s.truth[c].members + {n}, s.truth[c].ops)]) else s
    case Left(c, n) =>
      if n == s.self then s.(truth := s.truth - {c}, listed := s.listed - {c})
      else if c in s.truth then s.(truth := s.truth[c := Departed(s.truth[c], n)]) else s
    case Quit(n) => s.(truth := map c | c in s.truth :: Departed(s.truth[c], n))
    case NickChanged(o, w) =>
      Server(if o == s.self then w else s.self, map c | c in s.truth :: CalledAnew(s.truth[c], o, w), s.listed)
    case Mode(c, _, _, _) => if c in s.truth then s.(truth := s.truth[c := Granted(s.truth[c], Meant(e))]) else s
    case NamesLine(c, entries) =>
      s.(listed := s.listed[c := Lists(if c in s.listed then s.listed[c] else Chan({}, {}), entries)])
    case NamesEnd(c) => s.(listed := s.listed - {c})
  }

  /** The handler the bot runs for each message. */
  function React(k: Tracked, self: string, e: Event): Tracked {
    match e
    case Connected(_) => Tracked(map[], {})
    case SelfJoined(c, _) => Entered(k, c, self)
    case Joined(c, n) => Entered(k, c, n)
    case Left(c, n) => if n == self then Forgotten(k, c) else Gone(k, c, n)
    case Quit(n) => GoneEverywhere(k, n)
    case NickChanged(o, w) => RenamedEverywhere(k, o, w)
    case Mode(c, _, _, _) => ModesSet(k, c, Heard(e))
    case NamesLine(c, entries) => Named(k, c, entries)
    case NamesEnd(c) => NamesEnded(k, c)
  }

  /** Keeper and server side by side; `synced` are the channels whose last NAMES burst
      has ended and that have been neither re-listed nor left since. */
  datatype World = World(k: Tracked, s: Server, synced: set<string>)

  function Next(w: World, e: Event): World {
    World(React(w.k, w.s.self, e), Evolve(w.s, e),
      match e
      case Connected(_) => {}
      case Left(c, n) => if n == w.s.self then w.synced - {c} else w.synced
      case NamesLine(c, _) => w.synced - {c}
      case NamesEnd(c) => w.synced + {c}
      case _ => w.synced)
  }

  ghost predicate Within(a: Chan, b: Chan) {
    a.members <= b.members && a.ops <= b.ops
  }

  /** Within the truth, and exact about everybody tracked but the bot itself. */
  ghost predicate Faithful(a: Chan, b: Chan, self: string) {
    Within(a, b) && forall n :: n in a.members && n != self ==> (n in a.ops <==> n in b.ops)
  }

  ghost predicate Honest(w: World) {
    && ServerSound(w.s)
    && (forall c :: c in w.k.chans ==> c in w.s.truth && Faithful(w.k.chans[c], w.s.truth[c], w.s.self))
    && w.k.naming == w.s.listed.Keys
    && (forall c :: c in w.s.listed ==> c in w.k.chans && w.k.chans[c] == w.s.listed[c])
    && (forall c :: c in w.synced ==> c in w.s.truth && c in w.k.chans && w.k.chans[c] == w.s.truth[c])
  }

  ghost predicate ServerSound(s: Server) {
    && (forall c :: c in s.truth ==> ValidChan(s.truth[c], s.self))
    && s.listed.Keys <= s.truth.Keys
  }

  // --- Several operator changes ---

  lemma {:induction false} AppliedKeepsMembers(s: Chan, changes: seq<OpChange>)
    ensures Applied(s, changes).members == s.members
  {
    if changes != [] {
      AppliedKeepsMembers(s, changes[..|changes| - 1]);
    }
  }

  lemma {:induction false} AppliedIsValid(s: Chan, changes: seq<OpChange>, self: string)
    requires ValidChan(s, self) && About(changes, s.members)
    ensures ValidChan(Applied(s, changes), self)
  {
    if changes != [] {
      AppliedIsValid(s, changes[..|changes| - 1], self);
      AppliedKeepsMembers(s, changes[..|changes| - 1]);
    }
  }

  lemma {:induction false} AppliedKeepsFaith(a: Chan, b: Chan, changes: seq<OpChange>, self: string)
    requires Faithful(a, b, self)
    ensures Faithful(Applied(a, changes), Applied(b, changes), self)
  {
    if changes != [] {
      AppliedKeepsFaith(a, b, changes[..|changes| - 1], self);
    }
  }

  lemma {:induction false} AppliedInTwo(s: Chan, changes: seq<OpChange>, j: nat)
    requires j <= |changes|
    ensures Applied(Applied(s, changes[..j]), changes[j..]) == Applied(s, changes)
  {
    if j == |changes| {
      assert changes[..j] == changes;
    } else {
      var n := |changes| - 1;
      AppliedInTwo(s, changes[..n], j);
      assert changes[..n][..j] == changes[..j] && changes[..n][j..] == changes[j..][..n - j];
    }
  }

  lemma {:induction false} OpAfterIsApplied(s: Chan, changes: seq<OpChange>, nick: string)
    ensures nick in Applied(s, changes).ops <==> OpAfter(changes, nick, nick in s.ops)
  {
    if changes != [] {
      OpAfterIsApplied(s, changes[..|changes| - 1], nick);
    }
  }

  // --- The keeper's way of doing the same ---

  lemma DepartedIsWithout(s: Chan, n: string)
    ensures Departed(s, n) == Without(s, n)
  {
  }

  lemma CalledAnewIsRenamed(s: Chan, o: string, w: string)
    ensures CalledAnew(s, o, w) == Renamed(s, o, w)
  {
    CalledSwapped(s.members, o, w);
    CalledSwapped(s.ops, o, w);
  }

  lemma CalledSwapped(m: set<string>, o: string, w: string)
    ensures (set x | x in m :: if x == o then w else x) == Swap(m, o, w)
  {
    var called := set x | x in m :: if x == o then w else x;
    forall y
      ensures y in called <==> y in Swap(m, o, w)
    {
      if y in Swap(m, o, w) {
        var x := if o in m && y == w then o else y;
        assert x in m && y == if x == o then w else x;
      }
    }
  }

  lemma GrantedIsApplied(s: Chan, changes: seq<OpChange>, self: string)
    requires ValidChan(s, self) && About(changes, s.members)
    ensures Granted(s, changes) == Applied(s, changes)
  {
    AppliedKeepsMembers(s, changes);
    AppliedIsValid(s, changes, self);
    forall x
      ensures x in Granted(s, changes).ops <==> x in Applied(s, changes).ops
    {
      OpAfterIsApplied(s, changes, x);
    }
  }

  lemma NicksOneMore(front: seq<string>, entry: string)
    ensures Nicks(front + [entry]) == Nicks(front) + {Bare(entry)}
  {
    var all := front + [entry];
    assert all[|front|] == entry;
    forall x | x in Nicks(front)
      ensures x in Nicks(all)
    {
      var i :| 0 <= i < |front| && x == Bare(front[i]);
      assert all[i] == front[i];
    }
  }

  lemma SignedOneMore(front: seq<string>, entry: string)
    ensures Signed(front + [entry]) == Signed(front) + if OpPrefix(entry) then {Bare(entry)} else {}
  {
    var all := front + [entry];
    assert all[|front|] == entry;
    forall x | x in Signed(front)
      ensures x in Signed(all)
    {
      var i :| 0 <= i < |front| && OpPrefix(front[i]) && x == Bare(front[i]);
      assert all[i] == front[i];
    }
  }

  lemma ListsJoin(base: Chan, nicks: set<string>, signed: set<string>, entry: string)
    requires Bare(entry) != ""
    ensures Listed(Chan(base.members + nicks, base.ops + signed), entry) ==
            Chan(base.members + (nicks + {Bare(entry)}),
                 base.ops + (signed + if OpPrefix(entry) then {Bare(entry)} else {}))
  {
  }

  lemma {:induction false} ListsIsListed(base: Chan, entries: seq<string>)
    requires forall i :: 0 <= i < |entries| ==> Bare(entries[i]) != ""
    ensures Lists(base, entries) == ListedAll(base, entries)
  {
    if entries == [] {
      assert Lists(base, entries) == base;
    } else {
      var n := |entries| - 1;
      ListsIsListed(base, entries[..n]);
      assert entries == entries[..n] + [entries[n]];
      NicksOneMore(entries[..n], entries[n]);
      SignedOneMore(entries[..n], entries[n]);
      ListsJoin(base, Nicks(entries[..n]), Signed(entries[..n]), entries[n]);
    }
  }

  /** What a message does to the standing of one nick in one channel: a nick change moves
      the standing to the new nick, a departure ends that of one nick, and a MODE line
      leaves members what the last change about them says. */
  lemma EvolvesNickByNick(s: Server, e: Event, c: string, x: string)
    requires ServerSound(s) && Possible(s, e) && c in s.truth
    ensures var s' := Evolve(s, e);
      match e
      case Connected(_) => c !in s'.truth
      case Joined(d, n) =>
        && c in s'.truth && (x in s'.truth[c].members <==> x in s.truth[c].members || (c == d && x == n))
        && (x in s'.truth[c].ops <==> x in s.truth[c].ops)
      case Left(d, n) =>
        && (c in s'.truth <==> !(c == d && n == s.self))
        && (c in s'.truth ==>
            && (x in s'.truth[c].members <==> x in s.truth[c].members && !(c == d && x == n))
            && (x in s'.truth[c].ops <==> x in s.truth[c].ops && !(c == d && x == n)))
      case Quit(n) =>
        && c in s'.truth && (x in s'.truth[c].members <==> x in s.truth[c].members && x != n)
        && (x in s'.truth[c].ops <==> x in s.truth[c].ops && x != n)
      case NickChanged(o, w) =>
        && c in s'.truth && s'.self == (if s.self == o then w else s.self)
        && (w in s'.truth[c].members <==> o in s.truth[c].members || (o != w && w in s.truth[c].members))
        && (w in s'.truth[c].ops <==> o in s.truth[c].ops)
        && (o != w ==> o !in s'.truth[c].members && o !in s'.truth[c].ops)
        && (x != o && x != w ==> (x in s'.truth[c].members <==> x in s.truth[c].members))
        && (x != o && x != w ==> (x in s'.truth[c].ops <==> x in s.truth[c].ops))
      case Mode(d, _, _, _) =>
        && c in s'.truth && s'.truth[c].members == s.truth[c].members
        && (x in s'.truth[c].ops <==>
            if c != d || x !in s.truth[c].members then x in s.truth[c].ops
            else OpAfter(Meant(e), x, x in s.truth[c].ops))
      case _ => c in s'.truth && s'.truth[c] == s.truth[c]
  {
    if e.NickChanged? {
      CalledSwapped(s.truth[c].members, e.old_, e.new_);
      CalledSwapped(s.truth[c].ops, e.old_, e.new_);
    }
  }

  // --- One message ---

  lemma SoundStep(s: Server, e: Event)
    requires ServerSound(s) && Possible(s, e)
    ensures ServerSound(Evolve(s, e))
  {
    if e.Mode? {
      GrantedIsApplied(s.truth[e.chan], Meant(e), s.self);
      AppliedIsValid(s.truth[e.chan], Meant(e), s.self);
    }
  }

  lemma {:induction false} ListingIsTrue(base: Chan, entries: seq<string>, truth: Chan, self: string)
    requires Faithful(base, truth, self) && forall i :: 0 <= i < |entries| ==> TrueEntry(truth, entries[i])
    ensures Faithful(ListedAll(base, entries), truth, self)
  {
    if entries != [] {
      var n := |entries| - 1;
      ListingIsTrue(base, entries[..n], truth, self);
      assert TrueEntry(truth, entries[n]);
    }
  }

  lemma HonestListing(w: World, e: Event)
    requires Honest(w) && Possible(w.s, e) && e.NamesLine?
    ensures Honest(Next(w, e))
  {
    SoundStep(w.s, e);
    var base := if e.chan in w.s.listed then w.s.listed[e.chan] else NOBODY;
    forall i | 0 <= i < |e.entries|
      ensures Bare(e.entries[i]) != ""
    {
      assert TrueEntry(w.s.truth[e.chan], e.entries[i]);
    }
    ListsIsListed(base, e.entries);
    ListingIsTrue(base, e.entries, w.s.truth[e.chan], w.s.self);
    assert ChanOf(w.k, e.chan) == base || e.chan !in w.k.naming;
  }

  lemma HonestLeaving(w: World, e: Event)
    requires Honest(w) && Possible(w.s, e) && e.Left?
    ensures Honest(Next(w, e))
  {
    SoundStep(w.s, e);
  }

  lemma HonestQuitting(w: World, e: Event)
    requires Honest(w) && Possible(w.s, e) && e.Quit?
    ensures Honest(Next(w, e))
  {
    SoundStep(w.s, e);
  }

  lemma RenamingKeepsFaith(a: Chan, b: Chan, self: string, o: string, w: string)
    requires Faithful(a, b, self) && b.ops <= b.members && (w == o || w !in b.members)
    ensures Faithful(Renamed(a, o, w), Renamed(b, o, w), if o == self then w else self)
  {
  }

  lemma HonestRenaming(w: World, e: Event)
    requires Honest(w) && Possible(w.s, e) && e.NickChanged?
    ensures Honest(Next(w, e))
  {
    SoundStep(w.s, e);
    RenamedAlike(w, e);
    forall c | c in w.k.chans
      ensures Faithful(Renamed(w.k.chans[c], e.old_, e.new_), Renamed(w.s.truth[c], e.old_, e.new_), Next(w, e).s.self)
    {
      RenamingKeepsFaith(w.k.chans[c], w.s.truth[c], w.s.self, e.old_, e.new_);
    }
    forall c | c in w.s.listed
      ensures Renamed(w.s.listed[c], e.old_, e.new_) == w.s.listed[c]
    {
      assert Faithful(w.k.chans[c], w.s.truth[c], w.s.self);
    }
  }

  lemma RenamedAlike(w: World, e: Event)
    requires e.NickChanged?
    ensures var truth := Evolve(w.s, e).truth;
      && truth.Keys == w.s.truth.Keys && Evolve(w.s, e).listed == w.s.listed
      && forall c :: c in truth ==> truth[c] == Renamed(w.s.truth[c], e.old_, e.new_)
  {
    forall c | c in w.s.truth
      ensures CalledAnew(w.s.truth[c], e.old_, e.new_) == Renamed(w.s.truth[c], e.old_, e.new_)
    {
      CalledAnewIsRenamed(w.s.truth[c], e.old_, e.new_);
    }
  }

  lemma HonestMode(w: World, e: Event)
    requires Honest(w) && Possible(w.s, e) && e.Mode? && Understood(e)
    ensures Honest(Next(w, e))
  {
    SoundStep(w.s, e);
    ModesSetIs(w.k, e.chan, Heard(e));
    GrantedIsApplied(w.s.truth[e.chan], Meant(e), w.s.self);
    AppliedKeepsFaith(ChanOf(w.k, e.chan), w.s.truth[e.chan], Heard(e), w.s.self);
  }

  lemma HonestJoining(w: World, e: Event)
    requires Honest(w) && Possible(w.s, e) && (e.SelfJoined? || e.Joined?)
    ensures Honest(Next(w, e))
  {
    SoundStep(w.s, e);
  }

  lemma HonestStep(w: World, e: Event)
    requires Honest(w) && Possible(w.s, e) && Understood(e)
    ensures Honest(Next(w, e))
  {
    match e
    case NamesLine(_, _) => HonestListing(w, e);
    case Left(_, _) => HonestLeaving(w, e);
    case Quit(_) => HonestQuitting(w, e);
    case NickChanged(_, _) => HonestRenaming(w, e);
    case Mode(_, _, _, _) => HonestMode(w, e);
    case SelfJoined(_, _) => HonestJoining(w, e);
    case Joined(_, _) => HonestJoining(w, e);
    case _ => SoundStep(w.s, e);
  }
}
