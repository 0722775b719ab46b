/** Raids: a champion only one guild may strike, and the realm-wide world boss. The
    ledger of damage, the milestones that are announced, the end, and the spoils. */
module Raid {
  import opened Totals

  // --- What one fighter deals ---

  type Sheet = map<string, int>

  const SLOTS := ["ring", "amulet", "charm", "weapon", "helm", "tunic", "gloves", "leggings", "shield", "boots"]

  function RarityMult(rarity: int): int {
    match rarity
    case 1 => 130
    case 2 => 170
    case 3 => 220
    case 4 => 300
    case _ => 100
  }

  /** Division that truncates toward zero. */
  function Div(a: int, b: int): int
    requires b > 0
  {
    if a >= 0 then a / b else -(-a / b)
  }

  function Power(sheet: Sheet, slot: string): int {
    var level := Get(sheet, "item:" + slot);
    if level > 0 then level * RarityMult(Get(sheet, "ir:" + slot)) / 100 else 0
  }

  /** The power of the first n slots. */
  function Gear(sheet: Sheet, n: nat): int
    requires n <= |SLOTS|
  {
    if n == 0 then 0 else Gear(sheet, n - 1) + Power(sheet, SLOTS[n - 1])
  }

  /** What an item worn counts for: its level, in full or as its rarity multiplies it, and
      nothing if there is none. */
  lemma PowerIs(sheet: Sheet, slot: string, level: int, rarity: int)
    requires level == Get(sheet, "item:" + slot) && rarity == Get(sheet, "ir:" + slot)
    ensures level <= 0 ==> Power(sheet, slot) == 0
    ensures level > 0 ==>
              && (rarity == 1 ==> Power(sheet, slot) == level * 130 / 100)
              && (rarity == 2 ==> Power(sheet, slot) == level * 170 / 100)
              && (rarity == 3 ==> Power(sheet, slot) == level * 220 / 100)
              && (rarity == 4 ==> Power(sheet, slot) == level * 3)
              && (rarity < 1 || rarity > 4 ==> Power(sheet, slot) == level)
  {
  }

  method ItemSum(sheet: Sheet) returns (sum: int)
    ensures sum == Gear(sheet, |SLOTS|)
  {
    sum := 0;
    for i := 0 to |SLOTS|
      invariant sum == Gear(sheet, i)
    {
      var level := Get(sheet, "item:" + SLOTS[i]);
      if level > 0 {
        sum := sum + level * RarityMult(Get(sheet, "ir:" + SLOTS[i])) / 100;
      }
    }
  }

  function Strength(sheet: Sheet): int {
    1 + Div(Get(sheet, "level"), 2) + Div(Gear(sheet, |SLOTS|), 3)
  }

  /** Every slot counts once. */
  lemma GearIs(sheet: Sheet)
    ensures Gear(sheet, |SLOTS|) ==
            Power(sheet, "ring") + Power(sheet, "amulet") + Power(sheet, "charm") + Power(sheet, "weapon") +
            Power(sheet, "helm") + Power(sheet, "tunic") + Power(sheet, "gloves") + Power(sheet, "leggings") +
            Power(sheet, "shield") + Power(sheet, "boots")
  {
    TwoMoreSlots(sheet, 2);
    TwoMoreSlots(sheet, 4);
    TwoMoreSlots(sheet, 6);
    TwoMoreSlots(sheet, 8);
    TwoMoreSlots(sheet, 10);
  }

  lemma TwoMoreSlots(sheet: Sheet, n: nat)
    requires 2 <= n <= |SLOTS|
    ensures Gear(sheet, n) == Gear(sheet, n - 2) + Power(sheet, SLOTS[n - 2]) + Power(sheet, SLOTS[n - 1])
  {
    assert Gear(sheet, n - 1) == Gear(sheet, n - 2) + Power(sheet, SLOTS[n - 2]);
  }

  /** One point, half the level and a third of the gear, rounded down. */
  lemma StrengthIs(sheet: Sheet)
    requires Get(sheet, "level") >= 0
    ensures Strength(sheet) == 1 + Get(sheet, "level") / 2 + Gear(sheet, |SLOTS|) / 3
  {
    GearIsNat(sheet, |SLOTS|);
  }

  lemma {:induction false} GearIsNat(sheet: Sheet, n: nat)
    requires n <= |SLOTS|
    ensures Gear(sheet, n) >= 0
  {
    if n > 0 {
      GearIsNat(sheet, n - 1);
    }
  }

  /** Every blow counts, whatever the fighter wears. */
  lemma EveryBlowCounts(sheet: Sheet)
    requires Get(sheet, "level") >= 0
    ensures Strength(sheet) >= 1
  {
    GearIsNat(sheet, |SLOTS|);
  }

  // --- The champion ---

  datatype Foe = Foe(hp: int, maxHP: int, deadline: int,
                     damage: map<string, int>, names: map<string, string>, lastPct: int)

  datatype Blow = Blow(key: string, nick: string, force: int)

  function Pct(hp: int, maxHP: int): int
    requires maxHP > 0
  {
    if hp > 0 then hp * 100 / maxHP else 0
  }

  const MILESTONES := [75, 50, 25]

  /** The milestones passed on the way from one percentage down to another. */
  function Passed(last: int, pct: int): seq<int> {
    (if last > 75 && pct <= 75 then [75] else []) +
    (if last > 50 && pct <= 50 then [50] else []) +
    (if last > 25 && pct <= 25 then [25] else [])
  }

  /** The damage ledger, and the names in it, after some blows. */
  function Ledger(damage: map<string, int>, blows: seq<Blow>): map<string, int> {
    if blows == [] then damage
    else
      var b, d := blows[|blows| - 1], Ledger(damage, blows[..|blows| - 1]);
      d[b.key := Get(d, b.key) + b.force]
  }

  function Named(names: map<string, string>, blows: seq<Blow>): map<string, string> {
    if blows == [] then names
    else
      var b := blows[|blows| - 1];
      Named(names, blows[..|blows| - 1])[b.key := b.nick]
  }

  function Sum(blows: seq<Blow>): int {
    if blows == [] then 0 else Sum(blows[..|blows| - 1]) + blows[|blows| - 1].force
  }

  /** One tick of fighting. */
  function Struck(f: Foe, blows: seq<Blow>): Foe
    requires f.maxHP > 0
  {
    var hit := f.(damage := Ledger(f.damage, blows), names := Named(f.names, blows));
    var total := Sum(blows);
    if total == 0 then hit else hit.(hp := f.hp - total, lastPct := Pct(f.hp - total, f.maxHP))
  }

  function Announced(f: Foe, blows: seq<Blow>): seq<int>
    requires f.maxHP > 0
  {
    if Sum(blows) == 0 then [] else Passed(f.lastPct, Pct(f.hp - Sum(blows), f.maxHP))
  }

  /** What a roster deals: each member present strikes once. */
  datatype Fighter = Fighter(key: string, nick: string, sheet: Sheet)

  function BlowOf(p: Fighter): Blow {
    Blow(p.key, p.nick, Strength(p.sheet))
  }

  function FirstBlows(roster: seq<Fighter>, members: set<string>, n: nat): seq<Blow>
    requires n <= |roster|
  {
    if n == 0 then []
    else FirstBlows(roster, members, n - 1) + if roster[n - 1].key in members then [BlowOf(roster[n - 1])] else []
  }

  function Blows(roster: seq<Fighter>, members: set<string>): seq<Blow> {
    FirstBlows(roster, members, |roster|)
  }

  lemma OneMoreBlow(damage: map<string, int>, names: map<string, string>, dealt: seq<Blow>, b: Blow)
    ensures Ledger(damage, dealt + [b]) == var d := Ledger(damage, dealt); d[b.key := Get(d, b.key) + b.force]
    ensures Named(names, dealt + [b]) == Named(names, dealt)[b.key := b.nick]
    ensures Sum(dealt + [b]) == Sum(dealt) + b.force
  {
    assert (dealt + [b])[..|dealt|] == dealt;
  }

  /** What one fighter dealt in some blows. */
  function DealtBy(blows: seq<Blow>, key: string): int {
    if blows == [] then 0 else (if blows[0].key == key then blows[0].force else 0) + DealtBy(blows[1..], key)
  }

  lemma {:induction false} DealtByOneMore(blows: seq<Blow>, b: Blow, key: string)
    ensures DealtBy(blows + [b], key) == DealtBy(blows, key) + if b.key == key then b.force else 0
  {
    if blows == [] {
      assert [] + [b] == [b] && [b][1..] == [];
    } else {
      DealtByOneMore(blows[1..], b, key);
      assert (blows + [b])[1..] == blows[1..] + [b];
    }
  }

  /** The ledger grows for each striker by what that striker dealt. */
  lemma {:induction false} LedgerIsByStriker(damage: map<string, int>, blows: seq<Blow>, key: string)
    ensures Get(Ledger(damage, blows), key) == Get(damage, key) + DealtBy(blows, key)
    ensures key in Ledger(damage, blows) <==> key in damage || exists i :: 0 <= i < |blows| && blows[i].key == key
  {
    if blows != [] {
      var n := |blows| - 1;
      LedgerIsByStriker(damage, blows[..n], key);
      assert blows == blows[..n] + [blows[n]];
      DealtByOneMore(blows[..n], blows[n], key);
    }
  }

  /** The champion's health falls by what was dealt, of which each blow is its force. */
  lemma SumAddsUp(blows: seq<Blow>, b: Blow)
    ensures Sum([]) == 0 && Sum(blows + [b]) == Sum(blows) + b.force
  {
    assert (blows + [b])[..|blows|] == blows;
  }

  class Champion {
    var hp: int
    var maxHP: int
    var deadline: int
    var damage: map<string, int>
    var names: map<string, string>
    var lastPct: int

    ghost function Model(): Foe
      reads this
    {
      Foe(hp, maxHP, deadline, damage, names, lastPct)
    }

    constructor (f: Foe)
      ensures Model() == f
    {
      hp, maxHP, deadline, damage, names, lastPct := f.hp, f.maxHP, f.deadline, f.damage, f.names, f.lastPct;
    }

    /** The raid as it is kept in the guild book. */
    function Record(): (f: Foe)
      reads this
      ensures f == Model()
    {
      Foe(hp, maxHP, deadline, damage, names, lastPct)
    }

    /** One tick before the deadline: everyone of the roster allowed to strike does,
        and the milestones passed are announced. */
    method Tick(roster: seq<Fighter>, members: set<string>) returns (said: seq<int>)
      requires maxHP > 0
      modifies this
      ensures Model() == Struck(old(Model()), Blows(roster, members))
      ensures said == Announced(old(Model()), Blows(roster, members))
    {
      var total := Strike(roster, members);
      if total == 0 {
        return [];
      }
      hp := hp - total;
      var pct := if hp > 0 then hp * 100 / maxHP else 0;
      said := Milestones(lastPct, pct);
      lastPct := pct;
    }

    method Strike(roster: seq<Fighter>, members: set<string>) returns (total: int)
      modifies this`damage, this`names
      ensures damage == Ledger(old(damage), Blows(roster, members))
      ensures names == Named(old(names), Blows(roster, members))
      ensures total == Sum(Blows(roster, members))
    {
      total := 0;
      ghost var dealt := [];
      for i := 0 to |roster|
        invariant dealt == FirstBlows(roster, members, i)
        invariant damage == Ledger(old(damage), dealt) && names == Named(old(names), dealt)
        invariant total == Sum(dealt)
      {
        var p := roster[i];
        if p.key !in members {
          continue;
        }
        var force := StrengthOf(p.sheet);
        ghost var b := BlowOf(p);
        OneMoreBlow(old(damage), old(names), dealt, b);
        dealt := dealt + [b];
        total := total + force;
        damage := damage[p.key := Get(damage, p.key) + force];
        names := names[p.key := p.nick];
      }
    }
  }

  method Milestones(last: int, pct: int) returns (said: seq<int>)
    ensures said == Passed(last, pct)
  {
    said := [];
    for i := 0 to |MILESTONES|
      invariant said == (if i > 0 && last > 75 && pct <= 75 then [75] else []) +
                        (if i > 1 && last > 50 && pct <= 50 then [50] else []) +
                        (if i > 2 && last > 25 && pct <= 25 then [25] else [])
    {
      if last > MILESTONES[i] && pct <= MILESTONES[i] {
        said := said + [MILESTONES[i]];
      }
    }
  }

  method StrengthOf(sheet: Sheet) returns (force: int)
    ensures force == Strength(sheet)
  {
    var gear := ItemSum(sheet);
    force := 1 + Div(Get(sheet, "level"), 2) + Div(gear, 3);
  }

  // --- Whole raids ---

  /** A tick: when, and who strikes. */
  datatype Round = Round(now: int, blows: seq<Blow>)

  datatype Fight =
    | Fighting(foe: Foe, said: seq<int>)
    | Fallen(foe: Foe, said: seq<int>)
    | Departed(foe: Foe, said: seq<int>)

  function Next(s: Fight, r: Round): Fight
    requires s.foe.maxHP > 0
  {
    if !s.Fighting? then s
    else if r.now >= s.foe.deadline then Departed(s.foe, s.said)
    else
      var foe, said := Struck(s.foe, r.blows), s.said + Announced(s.foe, r.blows);
      if Sum(r.blows) != 0 && foe.hp <= 0 then Fallen(foe, said) else Fighting(foe, said)
  }

  function After(f: Foe, rounds: seq<Round>): (s: Fight)
    requires f.maxHP > 0
    ensures s.foe.maxHP == f.maxHP
  {
    if rounds == [] then Fighting(f, []) else Next(After(f, rounds[..|rounds| - 1]), rounds[|rounds| - 1])
  }

  ghost predicate Fresh(f: Foe) {
    f.hp == f.maxHP > 0 && f.damage == map[] && f.names == map[] && f.lastPct == 100
  }

  ghost predicate Lawful(rounds: seq<Round>) {
    forall i, j :: 0 <= i < |rounds| && 0 <= j < |rounds[i].blows| ==> rounds[i].blows[j].force >= 1
  }

  /** How many ticks somebody attended before the deadline. */
  function Attended(f: Foe, rounds: seq<Round>): nat {
    if rounds == [] then 0
    else
      var r := rounds[|rounds| - 1];
      Attended(f, rounds[..|rounds| - 1]) + if r.now < f.deadline && r.blows != [] then 1 else 0
  }

  /** The milestones at or above a percentage. */
  function Reached(pct: int): seq<int> {
    Passed(100, pct)
  }

  /** Damage is conserved, the champion lives exactly while the fight goes on or it
      departed, and what has been announced is what has been reached. */
  ghost predicate FightOk(s: Fight) {
    && s.foe.maxHP > 0
    && s.foe.maxHP - s.foe.hp == Total(s.foe.damage)
    && s.foe.names.Keys == s.foe.damage.Keys
    && (s.Fallen? <==> s.foe.hp <= 0)
    && s.foe.hp <= s.foe.maxHP
    && s.foe.lastPct == Pct(s.foe.hp, s.foe.maxHP)
    && s.said == Reached(s.foe.lastPct)
  }

  lemma {:induction false} LedgerIsExact(damage: map<string, int>, blows: seq<Blow>)
    ensures Total(Ledger(damage, blows)) == Total(damage) + Sum(blows)
    ensures forall names: map<string, string> :: names.Keys == damage.Keys ==>
              Named(names, blows).Keys == Ledger(damage, blows).Keys
  {
    if blows != [] {
      var b, rest := blows[|blows| - 1], blows[..|blows| - 1];
      LedgerIsExact(damage, rest);
      TotalPut(Ledger(damage, rest), b.key, Get(Ledger(damage, rest), b.key) + b.force);
    }
  }

  lemma {:induction false} BlowsAddUp(blows: seq<Blow>)
    requires forall j :: 0 <= j < |blows| ==> blows[j].force >= 1
    ensures Sum(blows) >= |blows|
  {
    if blows != [] {
      BlowsAddUp(blows[..|blows| - 1]);
    }
  }

  lemma PctFalls(hp: int, less: int, maxHP: int)
    requires less <= hp <= maxHP && maxHP > 0
    ensures 0 <= Pct(less, maxHP) <= Pct(hp, maxHP) <= 100
  {
    if less > 0 {
      PctOrder(less * 100, hp * 100, maxHP);
    }
    if hp > 0 {
      PctOrder(0, hp * 100, maxHP);
      PctOrder(hp * 100, maxHP * 100, maxHP);
    }
    FullIsHundred(maxHP);
  }

  lemma Scaled(x: int, y: int, d: int)
    requires x <= y && d > 0
    ensures x * d <= y * d
  {
  }

  lemma PctOrder(a: int, b: int, d: int)
    requires 0 <= a <= b && d > 0
    ensures 0 <= a / d <= b / d
  {
    if a / d > b / d {
      Scaled(b / d + 1, a / d, d);
    }
  }

  lemma FullIsHundred(d: int)
    requires d > 0
    ensures d * 100 / d == 100
  {
  }

  lemma NextKeeps(s: Fight, r: Round)
    requires FightOk(s) && forall j :: 0 <= j < |r.blows| ==> r.blows[j].force >= 1
    ensures FightOk(Next(s, r))
    ensures Next(s, r).Fighting? && r.blows != [] ==> Next(s, r).foe.hp <= s.foe.hp - 1
    ensures Next(s, r).foe.hp <= s.foe.hp
  {
    BlowsAddUp(r.blows);
    LedgerIsExact(s.foe.damage, r.blows);
    PctFalls(s.foe.hp, s.foe.hp - Sum(r.blows), s.foe.maxHP);
  }

  lemma {:induction false} RunIsOk(f: Foe, rounds: seq<Round>)
    requires Fresh(f) && Lawful(rounds)
    ensures FightOk(After(f, rounds))
    ensures After(f, rounds).Fighting? ==> Attended(f, rounds) <= f.maxHP - After(f, rounds).foe.hp
    ensures After(f, rounds).foe.deadline == f.deadline
  {
    if rounds != [] {
      var n := |rounds| - 1;
      RunIsOk(f, rounds[..n]);
      NextKeeps(After(f, rounds[..n]), rounds[n]);
    } else {
      FullIsHundred(f.maxHP);
    }
  }

  /** At every moment of every raid, the health lost is exactly the damage on record. */
  lemma HealthIsAccountedFor(f: Foe, rounds: seq<Round>)
    requires Fresh(f) && Lawful(rounds)
    ensures f.maxHP - After(f, rounds).foe.hp == Total(After(f, rounds).foe.damage)
  {
    RunIsOk(f, rounds);
  }

  /** A share of the health in whole percent, rounded down. */
  lemma PctAtMost(hp: int, maxHP: int, m: int)
    requires maxHP > 0 && m >= 0
    ensures Pct(hp, maxHP) <= m <==> hp * 100 < (m + 1) * maxHP
  {
    if hp > 0 {
      var q, rest := hp * 100 / maxHP, hp * 100 % maxHP;
      assert hp * 100 == q * maxHP + rest;
      if q <= m {
        Scaled(q, m, maxHP);
        assert (m + 1) * maxHP == m * maxHP + maxHP;
      } else {
        Scaled(m + 1, q, maxHP);
      }
    } else {
      Scaled(0, m, maxHP);
      assert (m + 1) * maxHP == m * maxHP + maxHP;
    }
  }

  lemma ReachedIsPrefix(pct: int)
    requires pct <= 100
    ensures Reached(pct) <= MILESTONES
    ensures forall m :: m in MILESTONES ==> (m in Reached(pct) <==> pct <= m)
  {
  }

  lemma ReachedByHealth(hp: int, maxHP: int)
    requires hp <= maxHP && maxHP > 0
    ensures Reached(Pct(hp, maxHP)) <= [75, 50, 25]
    ensures 75 in Reached(Pct(hp, maxHP)) <==> hp * 100 < 76 * maxHP
    ensures 50 in Reached(Pct(hp, maxHP)) <==> hp * 100 < 51 * maxHP
    ensures 25 in Reached(Pct(hp, maxHP)) <==> hp * 100 < 26 * maxHP
  {
    PctFalls(maxHP, hp, maxHP);
    ReachedIsPrefix(Pct(hp, maxHP));
    PctAtMost(hp, maxHP, 75);
    PctAtMost(hp, maxHP, 50);
    PctAtMost(hp, maxHP, 25);
  }

  /** What a raid announces is the first few of 75, 50 and 25: those the champion's
      health has fallen to, so each at most once, and in descending order. */
  lemma MilestonesAreOrdered(f: Foe, rounds: seq<Round>)
    requires Fresh(f) && Lawful(rounds)
    ensures After(f, rounds).said <= [75, 50, 25]
    ensures 75 in After(f, rounds).said <==> After(f, rounds).foe.hp * 100 < 76 * f.maxHP
    ensures 50 in After(f, rounds).said <==> After(f, rounds).foe.hp * 100 < 51 * f.maxHP
    ensures 25 in After(f, rounds).said <==> After(f, rounds).foe.hp * 100 < 26 * f.maxHP
  {
    RunIsOk(f, rounds);
    ReachedByHealth(After(f, rounds).foe.hp, f.maxHP);
  }

  /** A champion with as many points of health as ticks have been attended is done. */
  lemma RaidsEnd(f: Foe, rounds: seq<Round>)
    requires Fresh(f) && Lawful(rounds)
    requires Attended(f, rounds) >= f.maxHP || exists i :: 0 <= i < |rounds| && rounds[i].now >= f.deadline
    ensures !After(f, rounds).Fighting?
  {
    RunIsOk(f, rounds);
    if i :| 0 <= i < |rounds| && rounds[i].now >= f.deadline {
      OverOnceLate(f, rounds, i);
    }
  }

  lemma {:induction false} OverOnceLate(f: Foe, rounds: seq<Round>, i: nat)
    requires Fresh(f) && Lawful(rounds) && i < |rounds| && rounds[i].now >= f.deadline
    ensures !After(f, rounds).Fighting?
  {
    var n := |rounds| - 1;
    RunIsOk(f, rounds[..n]);
    if i < n {
      OverOnceLate(f, rounds[..n], i);
    }
  }

  /** A champion departs only when a tick comes at or after the deadline. */
  lemma {:induction false} DepartsWhenLate(f: Foe, rounds: seq<Round>)
    requires Fresh(f) && Lawful(rounds) && After(f, rounds).Departed?
    ensures exists i :: 0 <= i < |rounds| && rounds[i].now >= f.deadline
  {
    var n := |rounds| - 1;
    RunIsOk(f, rounds[..n]);
    if After(f, rounds[..n]).Departed? {
      DepartsWhenLate(f, rounds[..n]);
      var i :| 0 <= i < n && rounds[..n][i].now >= f.deadline;
      assert rounds[i].now >= f.deadline;
    }
  }

  /** A fallen champion was struck down by somebody, and everyone who struck is named. */
  lemma FallenWasStruck(f: Foe, rounds: seq<Round>)
    requires Fresh(f) && Lawful(rounds) && After(f, rounds).Fallen?
    ensures |After(f, rounds).foe.damage| > 0
    ensures After(f, rounds).foe.names.Keys == After(f, rounds).foe.damage.Keys
  {
    RunIsOk(f, rounds);
  }

  // --- Whose blows, and how strong a champion ---

  /** A roster's blows come from the members in it, one each, and every one counts. */
  lemma {:induction false} MembersStrike(roster: seq<Fighter>, members: set<string>, n: nat)
    requires n <= |roster| && forall i :: 0 <= i < |roster| ==> Get(roster[i].sheet, "level") >= 0
    ensures forall b :: b in FirstBlows(roster, members, n) ==> b.key in members && b.force >= 1
    ensures FirstBlows(roster, members, n) == [] <==> forall i :: 0 <= i < n ==> roster[i].key !in members
  {
    if n > 0 {
      MembersStrike(roster, members, n - 1);
      EveryBlowCounts(roster[n - 1].sheet);
    }
  }

  /** Each member in the roster deals exactly their strength, and nobody else anything. */
  lemma {:induction false} EachDealsTheirStrength(roster: seq<Fighter>, members: set<string>, n: nat, key: string)
    requires n <= |roster| && forall i, j :: 0 <= i < j < |roster| ==> roster[i].key != roster[j].key
    ensures key !in members ==> DealtBy(FirstBlows(roster, members, n), key) == 0
    ensures (forall i :: 0 <= i < n ==> roster[i].key != key) ==> DealtBy(FirstBlows(roster, members, n), key) == 0
    ensures forall i :: 0 <= i < n && roster[i].key == key && key in members ==>
              DealtBy(FirstBlows(roster, members, n), key) == Strength(roster[i].sheet)
  {
    if n > 0 {
      EachDealsTheirStrength(roster, members, n - 1, key);
      if roster[n - 1].key in members {
        DealtByOneMore(FirstBlows(roster, members, n - 1), BlowOf(roster[n - 1]), key);
      } else {
        assert FirstBlows(roster, members, n) == FirstBlows(roster, members, n - 1);
      }
    }
  }

  /** Whoever struck is known by the nick they have in the roster. */
  lemma {:induction false} StrikersAreNamed(names: map<string, string>, roster: seq<Fighter>, members: set<string>,
                                            n: nat, i: nat)
    requires i < n <= |roster| && forall j, k :: 0 <= j < k < |roster| ==> roster[j].key != roster[k].key
    requires roster[i].key in members
    ensures var known := Named(names, FirstBlows(roster, members, n));
      roster[i].key in known && known[roster[i].key] == roster[i].nick
  {
    var before := FirstBlows(roster, members, n - 1);
    if i < n - 1 {
      StrikersAreNamed(names, roster, members, n - 1, i);
    }
    if roster[n - 1].key in members {
      OneMoreBlow(map[], names, before, BlowOf(roster[n - 1]));
    } else {
      assert FirstBlows(roster, members, n) == before;
    }
  }

  /** The sum of level + 1 over the first n. */
  function Crowd(levels: seq<int>, n: nat): int
    requires n <= |levels|
  {
    if n == 0 then 0 else Crowd(levels, n - 1) + levels[n - 1] + 1
  }

  lemma {:induction false} CrowdIsCounted(levels: seq<int>, n: nat)
    requires n <= |levels| && forall i :: 0 <= i < |levels| ==> levels[i] >= 0
    ensures Crowd(levels, n) >= n
  {
    if n > 0 {
      CrowdIsCounted(levels, n - 1);
    }
  }

  /** Everybody adds one more than their level. */
  lemma {:induction false} CrowdAddsUp(levels: seq<int>, more: seq<int>, n: nat)
    requires n <= |more|
    ensures Crowd(levels + more, |levels| + n) == Crowd(levels, |levels|) + Crowd(more, n)
    ensures n == 1 ==> Crowd(more, n) == more[0] + 1
  {
    if n == 0 {
      CrowdOfPrefix(levels, more, |levels|);
    } else {
      CrowdAddsUp(levels, more, n - 1);
    }
  }

  lemma {:induction false} CrowdOfPrefix(levels: seq<int>, more: seq<int>, n: nat)
    requires n <= |levels|
    ensures Crowd(levels + more, n) == Crowd(levels, n)
  {
    if n > 0 {
      CrowdOfPrefix(levels, more, n - 1);
    }
  }

  const GUILD_RAID_SECONDS := 900
  const WORLD_BOSS_SECONDS := 600

  /** A champion, scaled to the guild or to the crowd. */
  method Summon(levels: seq<int>, now: int, forGuild: bool) returns (c: Champion)
    requires forall i :: 0 <= i < |levels| ==> levels[i] >= 0
    ensures fresh(c) && Fresh(c.Model())
    ensures c.maxHP == if forGuild then 300 + 30 * Crowd(levels, |levels|) else 200 + 40 * Crowd(levels, |levels|)
    ensures c.deadline == now + if forGuild then 900 else 600
  {
    var sum := 0;
    for i := 0 to |levels|
      invariant sum == Crowd(levels, i)
    {
      sum := sum + levels[i] + 1;
    }
    CrowdIsCounted(levels, |levels|);
    if forGuild {
      c := new Champion(Foe(300 + sum * 30, 300 + sum * 30, now + GUILD_RAID_SECONDS, map[], map[], 100));
    } else {
      c := new Champion(Foe(200 + sum * 40, 200 + sum * 40, now + WORLD_BOSS_SECONDS, map[], map[], 100));
    }
  }
}
