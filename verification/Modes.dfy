/** Channel mode strings: picking the operator changes out of a MODE message, and when
    that agrees with what the server meant. */
module Modes {

  const ARG_MODES: string := "ovhaqbeIkfjl"

  datatype OpChange = OpChange(nick: string, add: bool)

  /** Which signed letters come with an argument. */
  type Convention = (bool, char) -> bool

  /** What the parser goes by: the sign makes no difference. */
  function ParserTakes(add: bool, letter: char): bool {
    letter in ARG_MODES
  }

  /** Twelve letters take an argument, whatever the sign. */
  lemma TakersAre(add: bool, letter: char)
    ensures ParserTakes(add, letter) <==>
            || letter == 'o' || letter == 'v' || letter == 'h' || letter == 'a' || letter == 'q' || letter == 'b'
            || letter == 'e' || letter == 'I' || letter == 'k' || letter == 'f' || letter == 'j' || letter == 'l'
  {
    assert ARG_MODES == ['o', 'v', 'h', 'a', 'q', 'b', 'e', 'I', 'k', 'f', 'j', 'l'];
  }

  predicate IsSign(letter: char) { letter == '+' || letter == '-' }

  function Unread(takes: Convention, add: bool, letter: char, args: seq<string>): seq<string> {
    if takes(add, letter) && args != [] then args[1..] else args
  }

  /** What one mode letter says about operators. */
  function OpHere(letter: char, args: seq<string>, add: bool): seq<OpChange> {
    if letter == 'o' && args != [] && args[0] != "" then [OpChange(args[0], add)] else []
  }

  /** What the rest of a mode string, read with the rest of its arguments and the sign
      in force, says about operators under a convention. */
  function Read(takes: Convention, modes: string, args: seq<string>, add: bool): seq<OpChange> {
    if modes == "" then []
    else if IsSign(modes[0]) then Read(takes, modes[1..], args, modes[0] == '+')
    else OpHere(modes[0], args, add) + Read(takes, modes[1..], Unread(takes, add, modes[0], args), add)
  }

  function OpsIn(modes: string, args: seq<string>): seq<OpChange> {
    Read(ParserTakes, modes, args, true)
  }

  /** What is left to read at letter i and argument ai. */
  function Rest(takes: Convention, modes: string, args: seq<string>, i: nat, ai: nat, add: bool): seq<OpChange>
    requires i <= |modes| && ai <= |args|
  {
    Read(takes, modes[i..], args[ai..], add)
  }

  lemma RestAfterSign(takes: Convention, modes: string, args: seq<string>, i: nat, ai: nat, add: bool)
    requires i < |modes| && ai <= |args| && IsSign(modes[i])
    ensures Rest(takes, modes, args, i, ai, add) == Rest(takes, modes, args, i + 1, ai, modes[i] == '+')
  {
    assert modes[i..][1..] == modes[i + 1..];
  }

  lemma RestAfterLetter(takes: Convention, modes: string, args: seq<string>, i: nat, ai: nat, add: bool)
    requires i < |modes| && ai <= |args| && !IsSign(modes[i])
    requires modes[i] == 'o' ==> takes(add, 'o')
    ensures var eats := takes(add, modes[i]) && ai < |args|;
      Rest(takes, modes, args, i, ai, add) ==
        (if modes[i] == 'o' && eats && args[ai] != "" then [OpChange(args[ai], add)] else []) +
        Rest(takes, modes, args, i + 1, if eats then ai + 1 else ai, add)
  {
    assert modes[i..][1..] == modes[i + 1..];
    assert ai < |args| ==> args[ai..][1..] == args[ai + 1..];
  }

  method OpChanges(modes: string, args: seq<string>) returns (out: seq<OpChange>)
    ensures out == OpsIn(modes, args)
  {
    out := [];
    var add, ai := true, 0;
    ghost var rest := OpsIn(modes, args);
    assert modes[0..] == modes && args[0..] == args;
    for i := 0 to |modes|
      invariant 0 <= ai <= |args|
      invariant rest == Rest(ParserTakes, modes, args, i, ai, add)
      invariant out + rest == OpsIn(modes, args)
    {
      if modes[i] == '+' {
        RestAfterSign(ParserTakes, modes, args, i, ai, add);
        add := true;
      } else if modes[i] == '-' {
        RestAfterSign(ParserTakes, modes, args, i, ai, add);
        add := false;
      } else {
        var found;
        ai, found := OpLetter(modes, args, i, ai, add);
        out := out + found;
      }
      rest := Rest(ParserTakes, modes, args, i + 1, ai, add);
    }
  }

  /** One letter: the argument it uses up, if any, and the change it makes, if it is an `o`. */
  method OpLetter(modes: string, args: seq<string>, i: nat, ai: nat, add: bool)
    returns (ai': nat, found: seq<OpChange>)
    requires i < |modes| && ai <= |args| && !IsSign(modes[i])
    ensures ai' <= |args|
    ensures Rest(ParserTakes, modes, args, i, ai, add) == found + Rest(ParserTakes, modes, args, i + 1, ai', add)
  {
    RestAfterLetter(ParserTakes, modes, args, i, ai, add);
    var arg := "";
    ai' := ai;
    if modes[i] in ARG_MODES && ai < |args| {
      arg := args[ai];
      ai' := ai + 1;
    }
    found := if modes[i] == 'o' && arg != "" then [OpChange(arg, add)] else [];
  }

  // --- Rendering ---

  /** One signed mode change; an empty argument means none. */
  datatype Change = Change(add: bool, letter: char, arg: string)

  function SignChar(add: bool): char {
    if add then '+' else '-'
  }

  /** The mode string: a sign wherever it differs from the one in force. */
  function Letters(cs: seq<Change>, signed: bool, add: bool): string {
    if cs == [] then ""
    else
      (if signed && cs[0].add == add then "" else [SignChar(cs[0].add)])
      + [cs[0].letter] + Letters(cs[1..], true, cs[0].add)
  }

  function Args(cs: seq<Change>): seq<string> {
    if cs == [] then []
    else if cs[0].arg == "" then Args(cs[1..])
    else [cs[0].arg] + Args(cs[1..])
  }

  /** The operator changes among them. */
  function OpsOf(cs: seq<Change>): seq<OpChange> {
    if cs == [] then []
    else (if cs[0].letter == 'o' then [OpChange(cs[0].arg, cs[0].add)] else []) + OpsOf(cs[1..])
  }

  /** Each change carries an argument exactly if the convention says so. */
  ghost predicate Carried(takes: Convention, cs: seq<Change>) {
    forall i :: 0 <= i < |cs| ==> !IsSign(cs[i].letter) && (takes(cs[i].add, cs[i].letter) <==> cs[i].arg != "")
  }

  ghost predicate OpsCarry(takes: Convention) {
    forall add :: takes(add, 'o')
  }

  /** Reading the first of several rendered changes. */
  lemma ReadFirst(takes: Convention, cs: seq<Change>, args: seq<string>, signed: bool, add: bool, now: bool)
    requires cs != [] && !IsSign(cs[0].letter)
    requires signed ==> now == add
    ensures var c := cs[0];
      Read(takes, Letters(cs, signed, add), args, now) ==
        OpHere(c.letter, args, c.add) +
        Read(takes, Letters(cs[1..], true, c.add), Unread(takes, c.add, c.letter, args), c.add)
  {
    var c, rest := cs[0], Letters(cs[1..], true, cs[0].add);
    var body := [c.letter] + rest;
    assert body[1..] == rest;
    if signed && c.add == add {
      assert Letters(cs, signed, add) == body;
    } else {
      assert Letters(cs, signed, add) == [SignChar(c.add)] + body;
      assert ([SignChar(c.add)] + body)[1..] == body;
    }
  }

  lemma {:induction false} ReadsBack(takes: Convention, cs: seq<Change>, signed: bool, add: bool, now: bool)
    requires OpsCarry(takes) && Carried(takes, cs) && (signed ==> now == add)
    ensures Read(takes, Letters(cs, signed, add), Args(cs), now) == OpsOf(cs)
  {
    if cs != [] {
      var c := cs[0];
      ReadFirst(takes, cs, Args(cs), signed, add, now);
      assert c.letter == 'o' ==> takes(c.add, 'o');
      assert c.arg != "" ==> Args(cs)[1..] == Args(cs[1..]);
      assert Unread(takes, c.add, c.letter, Args(cs)) == Args(cs[1..]);
      ReadsBack(takes, cs[1..], true, c.add, c.add);
    }
  }

  /** What a server renders under its own convention means, read under that convention,
      exactly its operator changes, in order, with their signs. */
  lemma ServerIsUnderstood(takes: Convention, cs: seq<Change>)
    requires OpsCarry(takes) && Carried(takes, cs)
    ensures Read(takes, Letters(cs, false, true), Args(cs), true) == OpsOf(cs)
  {
    ReadsBack(takes, cs, false, true, true);
  }

  /** Round trip: rendering any list of mode changes in which exactly the parser's letters
      carry an argument, and parsing it, gives back exactly its operator changes. */
  lemma RoundTrip(cs: seq<Change>)
    requires Carried(ParserTakes, cs)
    ensures OpsIn(Letters(cs, false, true), Args(cs)) == OpsOf(cs)
  {
    ServerIsUnderstood(ParserTakes, cs);
  }

  // --- Servers with a convention of their own ---

  /** How many arguments a line carries under a convention. */
  function Count(takes: Convention, modes: string, add: bool): nat {
    if modes == "" then 0
    else if IsSign(modes[0]) then Count(takes, modes[1..], modes[0] == '+')
    else (if takes(add, modes[0]) then 1 else 0) + Count(takes, modes[1..], add)
  }

  /** Arguments a server can send with a line: as many as it carries, none of them empty. */
  ghost predicate Fits(takes: Convention, modes: string, args: seq<string>) {
    |args| == Count(takes, modes, true) && forall i :: 0 <= i < |args| ==> args[i] != ""
  }

  function One(b: bool): int {
    if b then 1 else 0
  }

  /** Before each `o`, reader and server have counted equally many argument letters;
      `lead` is how many more the reader has counted so far. */
  predicate InStep(mine: Convention, takes: Convention, modes: string, add: bool, lead: int) {
    if modes == "" then true
    else if IsSign(modes[0]) then InStep(mine, takes, modes[1..], modes[0] == '+', lead)
    else
      && (modes[0] == 'o' ==> lead == 0)
      && InStep(mine, takes, modes[1..], add, lead + One(mine(add, modes[0])) - One(takes(add, modes[0])))
  }

  /** The reader reads the line as the server means it, whatever the arguments. */
  ghost predicate ReadsRight(mine: Convention, takes: Convention, modes: string) {
    forall args :: Fits(takes, modes, args) ==> Read(mine, modes, args, true) == Read(takes, modes, args, true)
  }

  /** The arguments left after n of them, if there were so many. */
  function From(args: seq<string>, n: nat): seq<string> {
    if n <= |args| then args[n..] else []
  }

  /** Reading one letter with the arguments from the n-th on. */
  lemma ReadLetter(takes: Convention, modes: string, add: bool, args: seq<string>, n: nat, n': nat)
    requires modes != "" && !IsSign(modes[0]) && n' == n + One(takes(add, modes[0]))
    ensures Read(takes, modes, From(args, n), add) ==
            OpHere(modes[0], From(args, n), add) + Read(takes, modes[1..], From(args, n'), add)
  {
    assert Unread(takes, add, modes[0], From(args, n)) == From(args, n');
  }

  lemma {:induction false} StaysInStep(mine: Convention, takes: Convention, modes: string, add: bool,
                                       args: seq<string>, s: nat, p: nat)
    requires OpsCarry(takes) && InStep(mine, takes, modes, add, p - s)
    ensures Read(mine, modes, From(args, p), add) == Read(takes, modes, From(args, s), add)
  {
    if modes != "" {
      if IsSign(modes[0]) {
        StaysInStep(mine, takes, modes[1..], modes[0] == '+', args, s, p);
      } else {
        var s', p' := s + One(takes(add, modes[0])), p + One(mine(add, modes[0]));
        ReadLetter(takes, modes, add, args, s, s');
        ReadLetter(mine, modes, add, args, p, p');
        StaysInStep(mine, takes, modes[1..], add, args, s', p');
      }
    }
  }

  // --- Lines out of step ---

  ghost predicate Different(args: seq<string>) {
    forall i, j :: 0 <= i < j < |args| ==> args[i] != args[j]
  }

  /** The changes speak of the nick, and always say the same... */
  ghost predicate Sets(changes: seq<OpChange>, nick: string, add: bool) {
    OpChange(nick, add) in changes && OpChange(nick, !add) !in changes
  }

  /** ... or do not speak of it. */
  ghost predicate Silent(changes: seq<OpChange>, nick: string) {
    forall add :: OpChange(nick, add) !in changes
  }

  /** Exactly one of two readings speaks of the nick. */
  ghost predicate Disputed(a: seq<OpChange>, b: seq<OpChange>, nick: string, add: bool) {
    (Sets(a, nick, add) && Silent(b, nick)) || (Silent(a, nick) && Sets(b, nick, add))
  }

  /** A reading only speaks of the arguments it was given. */
  lemma {:induction false} SpeaksOfArgs(takes: Convention, modes: string, args: seq<string>, add: bool, nick: string)
    requires nick !in args
    ensures Silent(Read(takes, modes, args, add), nick)
  {
    if modes != "" {
      if IsSign(modes[0]) {
        SpeaksOfArgs(takes, modes[1..], args, modes[0] == '+', nick);
      } else {
        SpeaksOfArgs(takes, modes[1..], Unread(takes, add, modes[0], args), add, nick);
      }
    }
  }

  /** Arguments passed over are not spoken of. */
  lemma PassedOver(takes: Convention, modes: string, add: bool, args: seq<string>, i: nat, n: nat)
    requires Different(args) && i < |args| && i < n
    ensures Silent(Read(takes, modes, From(args, n), add), args[i])
  {
    SpeaksOfArgs(takes, modes, From(args, n), add, args[i]);
  }

  /** An `o` speaks of the argument at hand, once. */
  lemma SpeaksAtOnce(takes: Convention, modes: string, add: bool, args: seq<string>, i: nat)
    requires modes != "" && modes[0] == 'o' && takes(add, 'o') && Different(args) && i < |args| && args[i] != ""
    ensures Sets(Read(takes, modes, From(args, i), add), args[i], add)
  {
    ReadLetter(takes, modes, add, args, i, i + 1);
    PassedOver(takes, modes[1..], add, args, i, i + 1);
  }

  lemma AgreedFirst(first: seq<OpChange>, a: seq<OpChange>, b: seq<OpChange>, nick: string, add: bool)
    requires Disputed(a, b, nick, add) && Silent(first, nick)
    ensures Disputed(first + a, first + b, nick, add)
  {
  }

  /** The readings of a line from its first letter on, which both read alike. */
  lemma AgreedLetter(mine: Convention, takes: Convention, modes: string, add: bool, args: seq<string>,
                     s: nat, p: nat, s': nat, p': nat, i: nat, sign: bool)
    requires modes != "" && !IsSign(modes[0]) && (modes[0] == 'o' ==> s == p < i) && i < |args| && Different(args)
    requires s' == s + One(takes(add, modes[0])) && p' == p + One(mine(add, modes[0]))
    requires Disputed(Read(mine, modes[1..], From(args, p'), add), Read(takes, modes[1..], From(args, s'), add),
                      args[i], sign)
    ensures Disputed(Read(mine, modes, From(args, p), add), Read(takes, modes, From(args, s), add), args[i], sign)
  {
    var a, b := Read(mine, modes[1..], From(args, p'), add), Read(takes, modes[1..], From(args, s'), add);
    var first := OpHere(modes[0], From(args, s), add);
    ReadLetter(takes, modes, add, args, s, s');
    ReadLetter(mine, modes, add, args, p, p');
    assert Silent(first, args[i]);
    AgreedFirst(first, a, b, args[i], sign);
  }

  /** Out of step, the readings differ about one of the arguments, if all are different. */
  lemma {:induction false} FallsOutOfStep(mine: Convention, takes: Convention, modes: string, add: bool,
                                          args: seq<string>, s: nat, p: nat) returns (i: nat, sign: bool)
    requires OpsCarry(mine) && OpsCarry(takes) && !InStep(mine, takes, modes, add, p - s)
    requires Different(args) && s + Count(takes, modes, add) == |args|
    requires forall k :: 0 <= k < |args| ==> args[k] != ""
    ensures i < |args| && (i >= s || i >= p)
    ensures Disputed(Read(mine, modes, From(args, p), add), Read(takes, modes, From(args, s), add), args[i], sign)
  {
    if IsSign(modes[0]) {
      i, sign := FallsOutOfStep(mine, takes, modes[1..], modes[0] == '+', args, s, p);
    } else if modes[0] == 'o' && s < p {
      i, sign := s, add;
      SpeaksAtOnce(takes, modes, add, args, s);
      PassedOver(mine, modes, add, args, s, p);
    } else if modes[0] == 'o' && p < s {
      i, sign := p, add;
      SpeaksAtOnce(mine, modes, add, args, p);
      PassedOver(takes, modes, add, args, p, s);
    } else {
      var s', p' := s + One(takes(add, modes[0])), p + One(mine(add, modes[0]));
      i, sign := FallsOutOfStep(mine, takes, modes[1..], add, args, s', p');
      AgreedLetter(mine, takes, modes, add, args, s, p, s', p', i, sign);
    }
  }

  /** Arguments that are all different: the i-th is i + 1 letters long. */
  function Spread(n: nat): (args: seq<string>)
    ensures |args| == n && forall i :: 0 <= i < n ==> |args[i]| == i + 1 && forall c :: c in args[i] ==> c == 'a'
  {
    if n == 0 then [] else Spread(n - 1) + [seq(n, _ => 'a')]
  }

  lemma SpreadIsDifferent(n: nat)
    ensures Different(Spread(n)) && forall i :: 0 <= i < n ==> Spread(n)[i] != ""
  {
    var args := Spread(n);
    assert forall i :: 0 <= i < n ==> |args[i]| == i + 1;
  }

  /** A line out of step is misread about one of some arguments that fit it. */
  lemma OutOfStepIsMisread(mine: Convention, takes: Convention, modes: string) returns (i: nat, sign: bool)
    requires OpsCarry(mine) && OpsCarry(takes) && !InStep(mine, takes, modes, true, 0)
    ensures var args := Spread(Count(takes, modes, true));
            && Fits(takes, modes, args) && i < |args|
            && Disputed(Read(mine, modes, args, true), Read(takes, modes, args, true), args[i], sign)
  {
    var args := Spread(Count(takes, modes, true));
    SpreadIsDifferent(|args|);
    i, sign := FallsOutOfStep(mine, takes, modes, true, args, 0, 0);
  }

  lemma ReadersAgreeIff(mine: Convention, takes: Convention, modes: string)
    requires OpsCarry(mine) && OpsCarry(takes)
    ensures ReadsRight(mine, takes, modes) <==> InStep(mine, takes, modes, true, 0)
  {
    if InStep(mine, takes, modes, true, 0) {
      forall args | Fits(takes, modes, args)
        ensures Read(mine, modes, args, true) == Read(takes, modes, args, true)
      {
        StaysInStep(mine, takes, modes, true, args, 0, 0);
        assert From(args, 0) == args;
      }
    } else {
      var i, sign := OutOfStepIsMisread(mine, takes, modes);
      var args := Spread(Count(takes, modes, true));
      assert Read(mine, modes, args, true) != Read(takes, modes, args, true);
    }
  }

  /** Whatever letters a server gives arguments, as long as `o` has one: a line is read
      right for all arguments exactly when parser and server have counted equally many
      argument letters before each `o`. */
  lemma ReadsRightIff(takes: Convention, modes: string)
    requires OpsCarry(takes)
    ensures (forall args :: Fits(takes, modes, args) ==> OpsIn(modes, args) == Read(takes, modes, args, true))
            <==> InStep(ParserTakes, takes, modes, true, 0)
  {
    ReadersAgreeIff(ParserTakes, takes, modes);
    assert ReadsRight(ParserTakes, takes, modes) <==>
           forall args :: Fits(takes, modes, args) ==> OpsIn(modes, args) == Read(takes, modes, args, true);
  }

  // --- Servers that give fewer letters an argument ---

  predicate NoOp(modes: string) {
    'o' !in modes
  }

  /** No `o` comes after a letter for which only the reader takes an argument. */
  predicate NoOpAfterGreed(mine: Convention, takes: Convention, modes: string, add: bool) {
    if modes == "" then true
    else if IsSign(modes[0]) then NoOpAfterGreed(mine, takes, modes[1..], modes[0] == '+')
    else if mine(add, modes[0]) && !takes(add, modes[0]) then NoOp(modes[1..])
    else NoOpAfterGreed(mine, takes, modes[1..], add)
  }

  ghost predicate TakesLess(takes: Convention, mine: Convention) {
    forall add, letter :: takes(add, letter) ==> mine(add, letter)
  }

  lemma {:induction false} LeadIsForGood(mine: Convention, takes: Convention, modes: string, add: bool, lead: int)
    requires OpsCarry(takes) && TakesLess(takes, mine) && lead > 0
    ensures InStep(mine, takes, modes, add, lead) <==> NoOp(modes)
  {
    if modes != "" {
      assert modes == [modes[0]] + modes[1..];
      if IsSign(modes[0]) {
        LeadIsForGood(mine, takes, modes[1..], modes[0] == '+', lead);
      } else {
        LeadIsForGood(mine, takes, modes[1..], add, lead + One(mine(add, modes[0])) - One(takes(add, modes[0])));
      }
    }
  }

  /** For a server whose argument letters are all the reader's too, a line is in step
      exactly when no `o` follows a letter that only the reader gives an argument. */
  lemma {:induction false} InStepIffNoGreed(mine: Convention, takes: Convention, modes: string, add: bool)
    requires OpsCarry(takes) && TakesLess(takes, mine)
    ensures InStep(mine, takes, modes, add, 0) <==> NoOpAfterGreed(mine, takes, modes, add)
  {
    if modes != "" {
      if IsSign(modes[0]) {
        InStepIffNoGreed(mine, takes, modes[1..], modes[0] == '+');
      } else if mine(add, modes[0]) && !takes(add, modes[0]) {
        LeadIsForGood(mine, takes, modes[1..], add, 1);
      } else {
        InStepIffNoGreed(mine, takes, modes[1..], add);
      }
    }
  }

  /** A server that differs from the parser on `-l` alone: lifting the user limit names none. */
  function Unlimits(add: bool, letter: char): bool {
    ParserTakes(add, letter) && (letter == 'l' ==> add)
  }

  /** The argument letters of RFC 2811 section 4 that the parser has too; `a` and `q` are
      flags there. */
  function Rfc2811(add: bool, letter: char): bool {
    letter in "ovbeIk" || (letter == 'l' && add)
  }

  /** No `o` comes after a `-l`. */
  predicate NoOpAfterUnlimit(modes: string, add: bool) {
    if modes == "" then true
    else if IsSign(modes[0]) then NoOpAfterUnlimit(modes[1..], modes[0] == '+')
    else if modes[0] == 'l' && !add then NoOp(modes[1..])
    else NoOpAfterUnlimit(modes[1..], add)
  }

  lemma {:induction false} GreedIsUnlimit(modes: string, add: bool)
    ensures NoOpAfterGreed(ParserTakes, Unlimits, modes, add) <==> NoOpAfterUnlimit(modes, add)
  {
    if modes != "" {
      GreedIsUnlimit(modes[1..], if IsSign(modes[0]) then modes[0] == '+' else add);
    }
  }

  /** For that server: a line is read right for all arguments exactly when no operator
      change follows a `-l`. */
  lemma ReadsRightIffNoUnlimit(modes: string)
    ensures (forall args :: Fits(Unlimits, modes, args) ==> OpsIn(modes, args) == Read(Unlimits, modes, args, true))
            <==> NoOpAfterUnlimit(modes, true)
  {
    ReadsRightIff(Unlimits, modes);
    InStepIffNoGreed(ParserTakes, Unlimits, modes, true);
    GreedIsUnlimit(modes, true);
  }

  lemma ReadPair(takes: Convention, sign: bool, x: char, rest: string, args: seq<string>, add: bool)
    requires !IsSign(x)
    ensures var modes := [SignChar(sign), x] + rest;
            && Read(takes, modes, args, add) ==
               OpHere(x, args, sign) + Read(takes, rest, Unread(takes, sign, x, args), sign)
            && Count(takes, modes, add) == (if takes(sign, x) then 1 else 0) + Count(takes, rest, sign)
  {
    var modes := [SignChar(sign), x] + rest;
    assert modes[1..] == [x] + rest && ([x] + rest)[1..] == rest;
  }

  /** A letter for which only the reader takes an argument makes it lose the `o` behind it. */
  lemma OneChangeLost(mine: Convention, takes: Convention, x: char, xAdd: bool, oAdd: bool, nick: string)
    requires OpsCarry(takes) && mine(xAdd, x) && !takes(xAdd, x) && nick != "" && !IsSign(x)
    ensures var modes := [SignChar(xAdd), x, SignChar(oAdd), 'o'];
            && Fits(takes, modes, [nick]) && Read(mine, modes, [nick], true) == []
            && Read(takes, modes, [nick], true) == [OpChange(nick, oAdd)]
  {
    var tail := [SignChar(oAdd), 'o'];
    assert tail == [SignChar(oAdd), 'o'] + "" && [SignChar(xAdd), x] + tail == [SignChar(xAdd), x, SignChar(oAdd), 'o'];
    assert takes(oAdd, 'o') && x != 'o' && [nick][1..] == [];
    ReadPair(takes, xAdd, x, tail, [nick], true);
    ReadPair(takes, oAdd, 'o', "", [nick], xAdd);
    ReadPair(mine, xAdd, x, tail, [nick], true);
    ReadPair(mine, oAdd, 'o', "", [], xAdd);
  }

  /** Two such lines. */
  lemma LostChanges()
    ensures Fits(Unlimits, "-l-o", ["bot"]) && OpsIn("-l-o", ["bot"]) == []
    ensures Read(Unlimits, "-l-o", ["bot"], true) == [OpChange("bot", false)]
    ensures Fits(Rfc2811, "+q+o", ["alice"]) && OpsIn("+q+o", ["alice"]) == []
    ensures Read(Rfc2811, "+q+o", ["alice"], true) == [OpChange("alice", true)]
  {
    OneChangeLost(ParserTakes, Unlimits, 'l', false, false, "bot");
    OneChangeLost(ParserTakes, Rfc2811, 'q', true, true, "alice");
  }
}
