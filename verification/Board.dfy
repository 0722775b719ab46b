/** Levels, the leaderboard that mirrors them, and who is online. */
module Board {
  import opened Options

  const REBIRTH_LEVEL := 50
  const WIPE_LIMIT := 100000

  /** What of a character sheet matters here: a sheet exists as soon as any field does,
      and has a level once its owner has enrolled. */
  datatype Sheet = Sheet(level: Option<int>, ttl: int, reborn: int)

  const BLANK := Sheet(None, 0, 0)

  datatype State = State(sheets: map<string, Sheet>, board: map<string, int>, online: map<string, string>)

  datatype Command =
    | Play(key: string, nick: string, ttl: int)
    | Appear(key: string, nick: string)
    | Vanish(nick: string)
    | Rename(nick: string, to: string)
    | Touch(key: string)
    | Advance(nick: string, step: int, ttl: int)
    | SetLevel(key: string, level: int, ttl: int)
    | Rebirth(key: string, ttl: int)
    | Wipe(key: string)
    | WipeAll(ranked: set<string>)

  function SheetOf(s: State, key: string): Sheet {
    if key in s.sheets then s.sheets[key] else BLANK
  }

  function LevelOf(s: State, key: string): int {
    match SheetOf(s, key).level
    case Some(n) => n
    case None => 0
  }

  predicate Enrolled(s: State, key: string) {
    SheetOf(s, key).level.Some?
  }

  function Scored(board: map<string, int>, key: string, delta: int): map<string, int> {
    board[key := (if key in board then board[key] else 0) + delta]
  }

  /** What is left of the speed of a level after some rebirths, in percent. */
  function Speed(reborn: int): int {
    if 100 - reborn * 5 < 50 then 50 else 100 - reborn * 5
  }

  /** The time to level of a reborn character, given that of a first life. */
  function TimeFor(ttl: int, reborn: int): int
    requires ttl >= 0
  {
    var t := ttl * Speed(reborn) / 100;
    if t < 1 then 1 else t
  }

  /** The highest ranked are wiped, at most the limit, and then the whole board. */
  ghost predicate Ranked(s: State, ranked: set<string>) {
    && ranked <= s.board.Keys
    && |ranked| == if |s.board| <= WIPE_LIMIT then |s.board| else WIPE_LIMIT
  }

  ghost predicate Sensible(s: State, c: Command) {
    match c
    case Play(_, _, ttl) => ttl >= 0
    case Advance(_, _, ttl) => ttl >= 0
    case SetLevel(_, level, ttl) => level >= 0 && ttl >= 0
    case Rebirth(_, ttl) => ttl >= 0
    case WipeAll(ranked) => Ranked(s, ranked)
    case _ => true
  }

  function Do(s: State, c: Command): State
    requires (c.Advance? || c.Rebirth?) ==> c.ttl >= 0
  {
    match c
    case Play(k, nick, ttl) =>
      var s' := if Enrolled(s, k) then s
                else s.(sheets := s.sheets[k := SheetOf(s, k).(level := Some(0), ttl := ttl)],
                        board := Scored(s.board, k, 0));
      s'.(online := s.online[nick := k])
    case Appear(k, nick) => if Enrolled(s, k) then s.(online := s.online[nick := k]) else s
    case Vanish(nick) => s.(online := s.online - {nick})
    case Rename(nick, to) =>
      if nick in s.online then s.(online := (s.online - {nick})[to := s.online[nick]]) else s
    case Touch(k) => s.(sheets := s.sheets[k := SheetOf(s, k)])
    case Advance(nick, step, ttl) =>
      if nick !in s.online then s
      else
        var k := s.online[nick];
        var sheet := SheetOf(s, k);
        if sheet.ttl - step > 0 then s.(sheets := s.sheets[k := sheet.(ttl := sheet.ttl - step)])
        else s.(sheets := s.sheets[k := sheet.(level := Some(LevelOf(s, k) + 1), ttl := TimeFor(ttl, sheet.reborn))],
                board := Scored(s.board, k, 1))
    case SetLevel(k, level, ttl) =>
      if k !in s.sheets then s
      else s.(sheets := s.sheets[k := s.sheets[k].(level := Some(level), ttl := ttl)],
              board := Scored(s.board, k, level - LevelOf(s, k)))
    case Rebirth(k, ttl) =>
      if LevelOf(s, k) < REBIRTH_LEVEL then s
      else
        var reborn := SheetOf(s, k).reborn + 1;
        s.(sheets := s.sheets[k := Sheet(Some(0), TimeFor(ttl, reborn), reborn)],
           board := Scored(s.board, k, -LevelOf(s, k)))
    case Wipe(k) =>
      if k !in s.sheets then s
      else State(s.sheets - {k}, s.board - {k}, map n | n in s.online && s.online[n] != k :: s.online[n])
    case WipeAll(ranked) => State(s.sheets - ranked, map[], map[])
  }

  class Game {
    var sheets: map<string, Sheet>
    var board: map<string, int>
    var online: map<string, string>

    function Model(): State
      reads this
    {
      State(sheets, board, online)
    }

    constructor ()
      ensures Model() == State(map[], map[], map[])
    {
      sheets, board, online := map[], map[], map[];
    }

    method ZIncr(key: string, delta: int)
      modifies this`board
      ensures board == Scored(old(board), key, delta)
    {
      board := board[key := (if key in board then board[key] else 0) + delta];
    }

    /** A bare command: enrols whoever is new, and puts them online. */
    method PlayCmd(key: string, nick: string, ttl: int)
      requires ttl >= 0
      modifies this
      ensures Model() == Do(old(Model()), Play(key, nick, ttl))
      ensures online == old(online)[nick := key]
      ensures key in sheets && sheets - {key} == old(sheets) - {key}
      ensures if key in old(sheets) && old(sheets)[key].level.Some? then sheets == old(sheets) && board == old(board)
              else sheets[key] == Sheet(Some(0), ttl, if key in old(sheets) then old(sheets)[key].reborn else 0) &&
                   board == old(board)[key := if key in old(board) then old(board)[key] else 0]
    {
      if SheetOf(Model(), key).level.None? {
        sheets := sheets[key := SheetOf(Model(), key).(level := Some(0), ttl := ttl)];
        ZIncr(key, 0);
      }
      online := online[nick := key];
    }

    method MarkPresent(key: string, nick: string)
      modifies this
      ensures Model() == Do(old(Model()), Appear(key, nick))
      ensures sheets == old(sheets) && board == old(board)
      ensures online ==
              if key in old(sheets) && old(sheets)[key].level.Some? then old(online)[nick := key] else old(online)
    {
      if SheetOf(Model(), key).level.Some? {
        online := online[nick := key];
      }
    }

    method OnNick(nick: string, to: string)
      modifies this
      ensures Model() == Do(old(Model()), Rename(nick, to))
      ensures sheets == old(sheets) && board == old(board)
      ensures nick !in old(online) ==> online == old(online)
      ensures nick in old(online) ==> to in online && online[to] == old(online)[nick]
      ensures nick != to ==> nick !in online
      ensures online - {nick, to} == old(online) - {nick, to}
    {
      if nick in online {
        var key := online[nick];
        online := online - {nick};
        online := online[to := key];
      }
    }

    /** One online player's share of a tick. */
    method TickOne(nick: string, step: int, ttl: int)
      requires ttl >= 0
      modifies this
      ensures Model() == Do(old(Model()), Advance(nick, step, ttl))
      ensures online == old(online) && (nick !in old(online) ==> Model() == old(Model()))
      ensures nick in old(online) && old(online)[nick] in old(sheets) ==>
        var k := old(online)[nick];
        var was := old(sheets)[k];
        && sheets - {k} == old(sheets) - {k} && board - {k} == old(board) - {k} && k in sheets
        && (was.ttl > step ==> sheets[k] == was.(ttl := was.ttl - step) && board == old(board))
        && (was.ttl <= step && was.level.Some? ==>
              && sheets[k].level == Some(was.level.value + 1) && sheets[k].reborn == was.reborn
              && sheets[k].ttl == TimeFor(ttl, was.reborn)
              && k in board && (k in old(board) ==> board[k] == old(board)[k] + 1))
    {
      if nick !in online {
        return;
      }
      var key := online[nick];
      var sheet := SheetOf(Model(), key);
      var left := sheet.ttl - step;
      if left > 0 {
        sheets := sheets[key := sheet.(ttl := left)];
        return;
      }
      var level := LevelOf(Model(), key) + 1;
      sheets := sheets[key := sheet.(level := Some(level), ttl := TimeFor(ttl, sheet.reborn))];
      ZIncr(key, 1);
    }

    method SetLevelVerb(key: string, level: int, ttl: int)
      requires level >= 0 && ttl >= 0
      modifies this
      ensures Model() == Do(old(Model()), SetLevel(key, level, ttl))
      ensures online == old(online) && (key !in old(sheets) ==> Model() == old(Model()))
      ensures key in old(sheets) ==> sheets == old(sheets)[key := Sheet(Some(level), ttl, old(sheets)[key].reborn)]
    {
      if key !in sheets {
        return;
      }
      ZIncr(key, level - LevelOf(Model(), key));
      sheets := sheets[key := sheets[key].(level := Some(level), ttl := ttl)];
    }

    method RebirthCmd(key: string, ttl: int)
      requires ttl >= 0
      modifies this
      ensures Model() == Do(old(Model()), Rebirth(key, ttl))
      ensures online == old(online)
      ensures if key in old(sheets) && old(sheets)[key].level.Some? && old(sheets)[key].level.value >= 50
              then var reborn := old(sheets)[key].reborn + 1;
                sheets == old(sheets)[key := Sheet(Some(0), TimeFor(ttl, reborn), reborn)]
              else Model() == old(Model())
    {
      var old' := LevelOf(Model(), key);
      if key !in sheets || old' < REBIRTH_LEVEL {
        return;
      }
      var reborn := sheets[key].reborn + 1;
      sheets := sheets[key := Sheet(Some(0), TimeFor(ttl, reborn), reborn)];
      ZIncr(key, -old');
    }

    method WipeChar(key: string)
      modifies this
      ensures Model() == Do(old(Model()), Wipe(key))
      ensures sheets == old(sheets) - {key} && (key in old(sheets) ==> board == old(board) - {key})
      ensures key in old(sheets) ==> forall n :: n in online <==> n in old(online) && old(online)[n] != key
      ensures forall n :: n in online ==> n in old(online) && online[n] == old(online)[n]
      ensures key !in old(sheets) ==> Model() == old(Model())
    {
      if key !in sheets {
        return;
      }
      sheets := sheets - {key};
      board := board - {key};
      online := map n | n in online && online[n] != key :: online[n];
    }

    /** Wipes the characters found at the top of the board, and the board. */
    method WipeEverything(ranked: set<string>)
      modifies this
      ensures Model() == Do(old(Model()), WipeAll(ranked))
      ensures sheets == old(sheets) - ranked && board == map[] && online == map[]
    {
      sheets := sheets - ranked;
      board, online := map[], map[];
    }
  }

  // --- The mirror ---

  /** On the board exactly when there is a level, with the same score. */
  ghost predicate Mirrors(s: State) {
    && (forall k :: k in s.board <==> Enrolled(s, k))
    && forall k :: k in s.board ==> s.board[k] == LevelOf(s, k)
  }

  /** Levels are never negative, and everyone online has one. */
  ghost predicate Sound(s: State) {
    && (forall k :: Enrolled(s, k) ==> LevelOf(s, k) >= 0)
    && forall n :: n in s.online ==> Enrolled(s, s.online[n])
  }

  lemma {:induction false} SubsetOfSameSize<T>(a: set<T>, b: set<T>)
    requires a <= b && |a| == |b|
    ensures a == b
    decreases |a|
  {
    if a != {} {
      var x :| x in a;
      SubsetOfSameSize(a - {x}, b - {x});
      assert a == a - {x} + {x} && b == b - {x} + {x};
    } else {
      assert b == {};
    }
  }

  /** Who comes and goes changes no level. */
  lemma ComingsKeep(s: State, c: Command)
    requires Mirrors(s) && Sound(s) && (c.Appear? || c.Vanish? || c.Rename?)
    ensures Mirrors(Do(s, c)) && Sound(Do(s, c))
  {
    assert Do(s, c).sheets == s.sheets && Do(s, c).board == s.board;
  }

  /** One sheet and one score change together. */
  lemma SheetKeeps(s: State, c: Command)
    requires Mirrors(s) && Sound(s) && Sensible(s, c) && (c.Touch? || c.Play? || c.SetLevel? || c.Rebirth?)
    ensures Mirrors(Do(s, c)) && Sound(Do(s, c))
  {
  }

  lemma AdvanceKeeps(s: State, c: Command)
    requires Mirrors(s) && Sound(s) && Sensible(s, c) && c.Advance?
    ensures Mirrors(Do(s, c)) && Sound(Do(s, c))
  {
  }

  lemma WipeKeeps(s: State, c: Command)
    requires Mirrors(s) && Sound(s) && c.Wipe?
    ensures Mirrors(Do(s, c)) && Sound(Do(s, c))
  {
  }

  lemma DoKeeps(s: State, c: Command)
    requires Mirrors(s) && Sound(s) && Sensible(s, c) && !c.WipeAll?
    ensures Mirrors(Do(s, c)) && Sound(Do(s, c))
  {
    match c
    case Wipe(_) => WipeKeeps(s, c);
    case Advance(_, _, _) => AdvanceKeeps(s, c);
    case Appear(_, _) => ComingsKeep(s, c);
    case Vanish(_) => ComingsKeep(s, c);
    case Rename(_, _) => ComingsKeep(s, c);
    case _ => SheetKeeps(s, c);
  }

  /** Wiping the realm clears the board, but only the sheets of the first hundred
      thousand on it: the mirror survives exactly when there are no more than that. */
  lemma WipeAllMirrorsIff(s: State, ranked: set<string>)
    requires Mirrors(s) && Sound(s) && Ranked(s, ranked)
    ensures Mirrors(Do(s, WipeAll(ranked))) <==> |s.board| <= 100000
    ensures Sound(Do(s, WipeAll(ranked)))
  {
    var s' := Do(s, WipeAll(ranked));
    assert |s.board.Keys| == |s.board|;
    forall k
      ensures Enrolled(s', k) ==> Enrolled(s, k) && LevelOf(s', k) == LevelOf(s, k)
    {
    }
    if |s.board| <= WIPE_LIMIT {
      SubsetOfSameSize(ranked, s.board.Keys);
      forall k
        ensures !Enrolled(s', k)
      {
        assert Enrolled(s, k) ==> k in ranked;
      }
    } else {
      assert ranked != s.board.Keys;
      var k :| k in s.board && k !in ranked;
      assert Enrolled(s, k) && Enrolled(s', k);
    }
  }

  ghost predicate IsRun(states: seq<State>, commands: seq<Command>) {
    && |states| == |commands| + 1
    && forall i :: 0 <= i < |commands| ==>
         Sensible(states[i], commands[i]) && states[i + 1] == Do(states[i], commands[i])
  }

  ghost predicate NoCrowdWiped(states: seq<State>, commands: seq<Command>)
    requires |states| == |commands| + 1
  {
    forall i :: 0 <= i < |commands| ==> commands[i].WipeAll? ==> |states[i].board| <= 100000
  }

  /** Over any run the board mirrors the levels and only enrolled characters are online,
      as long as the whole realm is not wiped with more than a hundred thousand in it. */
  lemma {:induction false} BoardMirrorsLevels(states: seq<State>, commands: seq<Command>, n: nat)
    requires IsRun(states, commands) && NoCrowdWiped(states, commands) && n <= |commands|
    requires states[0] == State(map[], map[], map[])
    ensures Mirrors(states[n]) && Sound(states[n])
  {
    if n > 0 {
      BoardMirrorsLevels(states, commands, n - 1);
      var c := commands[n - 1];
      assert states[n] == Do(states[n - 1], c);
      if c.WipeAll? {
        WipeAllMirrorsIff(states[n - 1], c.ranked);
      } else {
        DoKeeps(states[n - 1], c);
      }
    }
  }

  // --- A crowd too big to wipe ---

  function Nth(n: nat): (key: string)
    ensures |key| == n
  {
    if n == 0 then "" else Nth(n - 1) + "p"
  }

  ghost function FirstKeys(n: nat): set<string> {
    set i: nat | i < n :: Nth(i)
  }

  lemma {:induction false} KeysDiffer(n: nat)
    ensures |FirstKeys(n)| == n && Nth(n) !in FirstKeys(n) && FirstKeys(n + 1) == FirstKeys(n) + {Nth(n)}
  {
    if n > 0 {
      KeysDiffer(n - 1);
    }
    assert forall i: nat :: i < n ==> |Nth(i)| != |Nth(n)|;
  }

  lemma RunGrows(states: seq<State>, commands: seq<Command>, c: Command, s': State)
    requires IsRun(states, commands) && Sensible(states[|commands|], c) && s' == Do(states[|commands|], c)
    ensures IsRun(states + [s'], commands + [c])
    ensures NoCrowdWiped(states, commands) && !c.WipeAll? ==> NoCrowdWiped(states + [s'], commands + [c])
  {
  }

  lemma EnrolsOne(s: State, key: string, s': State)
    requires s' == Do(s, Play(key, key, 0)) && s.sheets.Keys == s.board.Keys && key !in s.board
    ensures s'.sheets.Keys == s'.board.Keys == s.board.Keys + {key}
  {
  }

  /** As many players as one likes can enrol. */
  lemma {:induction false} CrowdGathers(n: nat) returns (states: seq<State>, commands: seq<Command>)
    ensures IsRun(states, commands) && |commands| == n && states[0] == State(map[], map[], map[])
    ensures NoCrowdWiped(states, commands) && states[n].sheets.Keys == states[n].board.Keys == FirstKeys(n)
  {
    if n == 0 {
      states, commands := [State(map[], map[], map[])], [];
    } else {
      states, commands := CrowdGathers(n - 1);
      var key := Nth(n - 1);
      var c, s' := Play(key, key, 0), Do(states[n - 1], Play(key, key, 0));
      KeysDiffer(n - 1);
      EnrolsOne(states[n - 1], key, s');
      RunGrows(states, commands, c, s');
      states, commands := states + [s'], commands + [c];
    }
  }

  lemma TooManyToWipe(s: State)
    requires Mirrors(s) && Sound(s) && s.board.Keys == FirstKeys(WIPE_LIMIT + 1)
    ensures Sensible(s, WipeAll(FirstKeys(WIPE_LIMIT))) && !Mirrors(Do(s, WipeAll(FirstKeys(WIPE_LIMIT))))
  {
    KeysDiffer(WIPE_LIMIT);
    KeysDiffer(WIPE_LIMIT + 1);
    assert |s.board.Keys| == |s.board|;
    WipeAllMirrorsIff(s, FirstKeys(WIPE_LIMIT));
  }

  /** A run of so many enrolments and one wipe, after which the board and the levels differ. */
  lemma CrowdOutlivesWipe() returns (states: seq<State>, commands: seq<Command>)
    ensures IsRun(states, commands) && |commands| == 100002 && commands[100001].WipeAll?
    ensures states[0] == State(map[], map[], map[]) && !Mirrors(states[100002])
  {
    var n := WIPE_LIMIT + 1;
    states, commands := CrowdGathers(n);
    BoardMirrorsLevels(states, commands, n);
    TooManyToWipe(states[n]);
    var c := WipeAll(FirstKeys(WIPE_LIMIT));
    var s' := Do(states[n], c);
    RunGrows(states, commands, c, s');
    states, commands := states + [s'], commands + [c];
  }

  lemma Within(ttl: nat, percent: nat)
    requires 50 <= percent <= 100
    ensures ttl / 2 <= ttl * percent / 100 <= ttl
  {
    assert ttl * 50 <= ttl * percent <= ttl * 100;
  }

  /** Each rebirth takes five percent off the time to level, down to half of it, and some
      time is always left. */
  lemma TimeIs(ttl: nat, reborn: nat)
    ensures reborn <= 10 && ttl * (100 - 5 * reborn) >= 100 ==> TimeFor(ttl, reborn) == ttl * (100 - 5 * reborn) / 100
    ensures reborn > 10 && ttl >= 2 ==> TimeFor(ttl, reborn) == ttl / 2
    ensures reborn <= 10 && ttl * (100 - 5 * reborn) < 100 ==> TimeFor(ttl, reborn) == 1
  {
    assert ttl * 50 / 100 == ttl / 2;
    if reborn <= 10 {
      assert Speed(reborn) == 100 - 5 * reborn;
    }
  }

  /** A rebirth never slows levelling down, and at most doubles its speed. */
  lemma RebirthHelps(ttl: nat, reborn: nat)
    requires ttl > 0
    ensures ttl / 2 <= TimeFor(ttl, reborn) <= ttl && TimeFor(ttl, reborn) >= 1
  {
    Within(ttl, Speed(reborn));
  }
}
