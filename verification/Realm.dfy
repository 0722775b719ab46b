/** The realm's gold and guilds as the game keeps them, and the commands on them: each
    does what the ledger says it may, and so keeps the book in order. */
module Realm {
  import opened Options
  import opened Totals
  import opened Raid
  import opened Spoils
  import opened GuildBook
  import opened GoldLedger

  lemma HomeIs(gs: Guilds, key: string, slug: string)
    requires BookOk(gs) && BelongsTo(gs, key, slug)
    ensures Home(gs, key) == Some(slug)
  {
  }

  lemma WithoutOneMore(members: seq<string>, key: string, i: nat)
    requires i < |members|
    ensures Without(members[..i + 1], key) ==
            Without(members[..i], key) + if members[i] != key then [members[i]] else []
  {
    assert members[..i + 1][..i] == members[..i];
  }

  method Filter(members: seq<string>, key: string) returns (kept: seq<string>)
    ensures kept == Without(members, key)
  {
    kept := [];
    for i := 0 to |members|
      invariant kept == Without(members[..i], key)
    {
      WithoutOneMore(members, key, i);
      if members[i] != key {
        kept := kept + [members[i]];
      }
    }
    assert members[..|members|] == members;
  }

  /** The guilds in `left` are still to be gone through. */
  ghost predicate DropsSoFar(gs: Guilds, key: string, left: set<string>, gs': Guilds) {
    && left <= gs.Keys
    && (forall s :: s in left ==> s in gs' && gs'[s] == gs[s])
    && (forall s :: s !in left ==> (s in gs' <==> s in gs && Without(gs[s].members, key) != []))
    && forall s :: s !in left && s in gs' ==> gs'[s] == Left(gs[s], key)
  }

  lemma DropsOneMore(gs: Guilds, key: string, left: set<string>, gs': Guilds, s: string, gs'': Guilds)
    requires DropsSoFar(gs, key, left, gs') && s in left
    requires gs'' == if Without(gs[s].members, key) == [] then gs' - {s} else gs'[s := Left(gs[s], key)]
    ensures DropsSoFar(gs, key, left - {s}, gs'')
  {
  }

  /** The blows of a guild's members in the roster. */
  function GuildBlows(g: Guild, roster: seq<Fighter>): seq<Blow> {
    Blows(roster, set k | k in g.members)
  }

  /** What a round comes to, before and after the deadline. */
  lemma RoundIsSettled(g: Guild, now: int, roster: seq<Fighter>, blows: seq<Blow>)
    requires GuildOk(g) && g.raid.Some? && blows == GuildBlows(g, roster)
    requires forall i :: 0 <= i < |roster| ==> Get(roster[i].sheet, "level") >= 0
    ensures g.raid.value.maxHP > 0
    ensures var next := Fought(g.raid.value, now, blows);
            if now >= g.raid.value.deadline then next == Departed(g.raid.value, next.said)
            else next.foe == Struck(g.raid.value, blows) && if next.foe.hp <= 0 then next.Fallen? else next.Fighting?
  {
    MembersStrike(roster, set k | k in g.members, |roster|);
    NextKeeps(Fighting(g.raid.value, Reached(g.raid.value.lastPct)), Round(now, blows));
  }

  lemma RoundIsStep(r: State, slug: string, now: int, roster: seq<Fighter>, blows: seq<Blow>, r': State)
    requires Ok(r) && slug in r.guilds && r.guilds[slug].raid.Some? && blows == GuildBlows(r.guilds[slug], roster)
    requires forall i :: 0 <= i < |roster| ==> Get(roster[i].sheet, "level") >= 0
    requires r.guilds[slug].raid.value.maxHP > 0 && Resolves(r, slug, Fought(r.guilds[slug].raid.value, now, blows), r')
    ensures Step(r, RaidRound(slug, now, blows), r') && Ok(r')
  {
    MembersStrike(roster, set k | k in r.guilds[slug].members, |roster|);
    RoundKeeps(r, slug, now, blows, r');
  }

  function LevelsOf(members: seq<string>, levels: map<string, int>): seq<int> {
    seq(|members|, i requires 0 <= i < |members| => Get(levels, members[i]))
  }

  function Everyone(roster: seq<Fighter>): set<string> {
    set p | p in roster :: p.key
  }

  lemma BossIsSettled(f: Foe, now: int, blows: seq<Blow>)
    requires RaidOk(Some(f)) && forall j :: 0 <= j < |blows| ==> blows[j].force >= 1
    ensures f.maxHP > 0
    ensures var next := Fought(f, now, blows);
            if now >= f.deadline then next == Departed(f, next.said)
            else next.foe == Struck(f, blows) && if next.foe.hp <= 0 then next.Fallen? else next.Fighting?
  {
    NextKeeps(Fighting(f, Reached(f.lastPct)), Round(now, blows));
  }

  lemma BossRoundIsStep(r: State, now: int, blows: seq<Blow>, r': State)
    requires Ok(r) && r.boss.Some? && r.boss.value.maxHP > 0 && forall j :: 0 <= j < |blows| ==> blows[j].force >= 1
    requires BossResolves(r, Fought(r.boss.value, now, blows), r')
    ensures Step(r, BossRound(now, blows), r') && Ok(r')
  {
    BossKeeps(r, BossRound(now, blows), r');
  }

  class Realm {
    var purses: map<string, int>
    var guilds: Guilds
    var boss: Option<Foe>

    ghost function Model(): State
      reads this
    {
      State(purses, guilds, boss)
    }

    ghost predicate Valid()
      reads this
    {
      Ok(Model())
    }

    constructor ()
      ensures Valid() && Model() == State(map[], map[], None)
    {
      purses, guilds, boss := map[], map[], None;
    }

    method GuildOf(key: string) returns (home: Option<string>)
      requires Valid()
      ensures home == Home(guilds, key)
    {
      var left := guilds.Keys;
      while left != {}
        invariant left <= guilds.Keys
        invariant forall s :: s in guilds && s !in left ==> !BelongsTo(guilds, key, s)
        decreases |left|
      {
        var s :| s in left;
        if key in guilds[s].members {
          HomeIs(guilds, key, s);
          return Some(s);
        }
        left := left - {s};
      }
      return None;
    }

    /** Takes a player out of whatever guild they are in; the guilds come in any order. */
    method DropFromGuild(key: string)
      modifies this`guilds
      ensures Drops(old(guilds), key, guilds)
      ensures BookOk(old(guilds)) ==> GoneFrom(old(guilds), key, guilds)
    {
      var left := guilds.Keys;
      while left != {}
        invariant DropsSoFar(old(guilds), key, left, guilds)
        decreases |left|
      {
        var s :| s in left;
        var g, before := guilds[s], guilds;
        var kept := Filter(g.members, key);
        if |kept| == 0 {
          guilds := guilds - {s};
        } else {
          g := g.(members := kept, founder := if g.founder == key then kept[0] else g.founder);
          guilds := guilds[s := g];
        }
        DropsOneMore(old(guilds), key, left, before, s, guilds);
        left := left - {s};
      }
      if BookOk(old(guilds)) {
        DropIsGone(old(guilds), key, guilds);
      }
    }

    method GuildCreate(key: string, name: string, slug: string)
      requires Valid()
      modifies this
      ensures Step(old(Model()), Create(key, name, slug), Model()) && Valid()
    {
      if key !in purses {
        return;
      }
      var home := GuildOf(key);
      if name == "" || |name| > NAME_MAX || home.Some? || Get(purses, key) < FOUND_COST || slug in guilds {
        return;
      }
      guilds := guilds[slug := Guild(name, key, [key], 0, map[], None)];
      purses := purses[key := purses[key] - FOUND_COST];
      CreateKeeps(old(Model()), Create(key, name, slug), Model());
    }

    method GuildJoin(key: string, name: string, slug: string)
      requires Valid()
      modifies this
      ensures Step(old(Model()), Join(key, name, slug), Model()) && Valid()
    {
      if key !in purses {
        return;
      }
      var home := GuildOf(key);
      if name == "" || home.Some? || slug !in guilds || |guilds[slug].members| >= MAX_SIZE {
        return;
      }
      var g := guilds[slug];
      guilds := guilds[slug := g.(members := g.members + [key])];
      JoinKeeps(old(Model()), Join(key, name, slug), Model());
    }

    method GuildLeave(key: string)
      requires Valid()
      modifies this
      ensures Step(old(Model()), Leave(key), Model()) && Valid()
    {
      if key !in purses {
        return;
      }
      var home := GuildOf(key);
      if home.None? {
        NobodyDrops(guilds, key);
        return;
      }
      DropFromGuild(key);
      DropKeeps(old(guilds), key, guilds);
    }

    method GuildDeposit(key: string, amount: int)
      requires Valid()
      modifies this
      ensures Step(old(Model()), Deposit(key, amount), Model()) && Valid()
    {
      if key !in purses {
        return;
      }
      var home := GuildOf(key);
      if home.None? || amount <= 0 || purses[key] < amount {
        return;
      }
      purses := purses[key := purses[key] - amount];
      var g := guilds[home.value];
      guilds := guilds[home.value := g.(vault := g.vault + amount)];
      DepositKeeps(old(Model()), Deposit(key, amount), Model());
    }

    method PerkCmd(key: string, perk: string)
      requires Valid()
      modifies this
      ensures Step(old(Model()), BuyPerk(key, perk), Model()) && Valid()
    {
      if key !in purses {
        return;
      }
      var home := GuildOf(key);
      if home.None? || PerkByName(perk).None? {
        return;
      }
      var g, p := guilds[home.value], PerkByName(perk).value;
      var level := Get(g.perks, perk);
      if level >= p.max {
        return;
      }
      var cost := PerkCost(p, level);
      if g.vault < cost {
        return;
      }
      var raised := g.(vault := g.vault - cost, perks := g.perks[perk := level + 1]);
      assert raised == Raised(g, perk, PerkPrice(g, perk).value);
      guilds := guilds[home.value := raised];
      PerkKeeps(old(Model()), BuyPerk(key, perk), Model());
    }

    /** Pays for a raid and summons a champion fit for the members' levels. */
    method CallRaidCmd(key: string, levels: map<string, int>, now: int) returns (ghost foe: Foe)
      requires Valid()
      requires forall k :: k in levels ==> levels[k] >= 0
      modifies this
      ensures Home(old(guilds), key).Some? ==>
                var members := old(guilds)[Home(old(guilds), key).value].members;
                foe.maxHP == 300 + 30 * Crowd(seq(|members|, i requires 0 <= i < |members| => Get(levels, members[i])),
                                              |members|)
      ensures foe.deadline == now + 900
      ensures Step(old(Model()), CallRaid(key, foe), Model()) && Valid()
    {
      var home := GuildOf(key);
      var champion := Summon(LevelsOf(if home.Some? then guilds[home.value].members else [], levels), now, true);
      foe := champion.Model();
      if key !in purses || home.None? || guilds[home.value].raid.Some? || guilds[home.value].vault < RAID_COST {
        return;
      }
      var g := guilds[home.value];
      guilds := guilds[home.value := g.(vault := g.vault - RAID_COST, raid := Some(champion.Record()))];
      RaidKeeps(old(Model()), CallRaid(key, foe), Model());
    }

    /** A guild's champion has fallen. */
    method Victory(slug: string, f: Foe)
      requires slug in guilds && f.maxHP > 0
      modifies this
      ensures guilds == old(guilds)[slug := Won(old(guilds)[slug], f)] && boss == old(boss)
      ensures Rewards(old(purses), f.damage.Keys, GuildShare(f), Crowned(TopOf(f.damage)), f.maxHP / 2, purses)
    {
      var g := guilds[slug];
      var paid, chest := RewardGuildRaid(purses, g.vault, f);
      var won := g.(raid := None, vault := chest);
      assert won == Won(g, f);
      purses := paid;
      guilds := guilds[slug := won];
    }

    /** What a round of fighting leaves behind: a raid going on, or its spoils. */
    method Settle(slug: string, f: Foe, ghost next: Fight)
      requires slug in guilds && next.foe == f && f.maxHP > 0
      requires if f.hp <= 0 then next.Fallen? else next.Fighting?
      modifies this
      ensures Resolves(old(Model()), slug, next, Model())
    {
      if f.hp <= 0 {
        Victory(slug, f);
      } else {
        guilds := guilds[slug := guilds[slug].(raid := Some(f))];
      }
    }

    /** One tick of one guild's raid. */
    method GuildRaidTick(slug: string, now: int, roster: seq<Fighter>) returns (said: seq<int>)
      requires Valid() && slug in guilds && guilds[slug].raid.Some?
      requires forall i :: 0 <= i < |roster| ==> Get(roster[i].sheet, "level") >= 0
      modifies this
      ensures var blows := Blows(roster, set k | k in old(guilds)[slug].members);
        && Step(old(Model()), RaidRound(slug, now, blows), Model()) && Valid()
        && said == if now >= old(guilds)[slug].raid.value.deadline then []
                   else Announced(old(guilds)[slug].raid.value, blows)
    {
      var g := guilds[slug];
      var f := g.raid.value;
      ghost var blows := GuildBlows(g, roster);
      RoundIsSettled(g, now, roster, blows);
      said := [];
      if now >= f.deadline {
        guilds := guilds[slug := g.(raid := None)];
      } else {
        var champion := new Champion(f);
        said := champion.Tick(roster, set k | k in g.members);
        Settle(slug, champion.Record(), Fought(f, now, blows));
      }
      RoundIsStep(old(Model()), slug, now, roster, blows, Model());
    }

    /** Raises a world boss fit for the crowd that is online, unless one is about or nobody is. */
    method SpawnWorldBoss(levels: seq<int>, now: int) returns (ghost foe: Foe)
      requires Valid() && forall i :: 0 <= i < |levels| ==> levels[i] >= 0
      modifies this`boss
      ensures foe.hp == foe.maxHP == 200 + 40 * Crowd(levels, |levels|) && foe.deadline == now + 600
      ensures boss == if old(boss).Some? || levels == [] then old(boss) else Some(foe)
      ensures if levels == [] then Model() == old(Model()) else Step(old(Model()), RaiseBoss(foe), Model())
      ensures Valid()
    {
      var champion := Summon(levels, now, false);
      foe := champion.Model();
      if boss.Some? || |levels| == 0 {
        return;
      }
      boss := Some(champion.Record());
      BossKeeps(old(Model()), RaiseBoss(foe), Model());
    }

    /** One tick of the fight against the world boss; the whole roster strikes. */
    method WorldBossTick(now: int, roster: seq<Fighter>) returns (said: seq<int>)
      requires Valid()
      requires forall i :: 0 <= i < |roster| ==> Get(roster[i].sheet, "level") >= 0
      modifies this
      ensures var blows := Blows(roster, set p | p in roster :: p.key);
        && Step(old(Model()), BossRound(now, blows), Model()) && Valid()
        && said == if old(boss).None? || now >= old(boss).value.deadline then []
                   else Announced(old(boss).value, blows)
    {
      said := [];
      ghost var blows := Blows(roster, Everyone(roster));
      MembersStrike(roster, Everyone(roster), |roster|);
      if boss.None? {
        return;
      }
      var f := boss.value;
      BossIsSettled(f, now, blows);
      if now >= f.deadline {
        boss := None;
      } else {
        var champion := new Champion(f);
        said := champion.Tick(roster, Everyone(roster));
        SettleBoss(champion.Record(), Fought(f, now, blows));
      }
      BossRoundIsStep(old(Model()), now, blows, Model());
    }

    method SettleBoss(f: Foe, ghost next: Fight)
      requires next.foe == f && f.maxHP > 0
      requires if f.hp <= 0 then next.Fallen? else next.Fighting?
      modifies this
      ensures BossResolves(old(Model()), next, Model())
    {
      if f.hp <= 0 {
        purses := RewardWorldBoss(purses, f);
        boss := None;
      } else {
        boss := Some(f);
      }
    }

    method GiveGold(key: string, to: string, amount: int)
      requires Valid()
      modifies this
      ensures Step(old(Model()), Give(key, to, amount), Model()) && Valid()
      ensures guilds == old(guilds) && boss == old(boss) && purses.Keys == old(purses).Keys
      ensures var given := key in old(purses) && to in old(purses) && 0 < amount <= old(purses)[key];
        forall k :: k in purses ==>
          purses[k] == old(purses)[k] + (if given && k == to then amount else 0) -
                       (if given && k == key then amount else 0)
    {
      if key !in purses || to !in purses || amount <= 0 || purses[key] < amount {
        return;
      }
      purses := purses[key := purses[key] - amount];
      purses := purses[to := purses[to] + amount];
    }

    method GoldVerb(key: string, amount: int)
      requires Valid()
      modifies this
      ensures Step(old(Model()), Grant(key, amount), Model()) && Valid()
      ensures key in old(purses) && old(purses)[key] + amount >= 0 ==>
        Model() == old(Model()).(purses := old(purses)[key := old(purses)[key] + amount])
      ensures key in old(purses) && old(purses)[key] + amount < 0 ==>
        Model() == old(Model()).(purses := old(purses)[key := 0])
      ensures key !in old(purses) ==> Model() == old(Model())
    {
      if key !in purses {
        return;
      }
      purses := purses[key := purses[key] + amount];
      if purses[key] < 0 {
        purses := purses[key := 0];
      }
    }

    method WipeChar(key: string)
      requires Valid()
      modifies this
      ensures Step(old(Model()), Wipe(key), Model()) && Valid()
      ensures purses == old(purses) - {key} && boss == old(boss)
      ensures if key in old(purses) then GoneFrom(old(guilds), key, guilds) else guilds == old(guilds)
    {
      if key !in purses {
        return;
      }
      purses := purses - {key};
      DropFromGuild(key);
      DropKeeps(old(guilds), key, guilds);
    }

    /** Wipes the characters found on the board, the whole book and the world boss. */
    method WipeRealm(doomed: set<string>)
      requires Valid()
      modifies this
      ensures Step(old(Model()), WipeAll(doomed), Model()) && Valid()
      ensures Model() == State(old(purses) - doomed, map[], None)
    {
      purses := purses - doomed;
      guilds, boss := map[], None;
    }
  }

  lemma NobodyDrops(gs: Guilds, key: string)
    requires BookOk(gs) && Home(gs, key).None?
    ensures Drops(gs, key, gs)
  {
    forall s | s in gs
      ensures Without(gs[s].members, key) == gs[s].members && gs[s] == Left(gs[s], key)
    {
      assert !BelongsTo(gs, key, s);
      WithoutKeeps(gs[s].members, key);
    }
  }
}
