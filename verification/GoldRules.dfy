/** What each command of the ledger comes to, in numbers and by the member lists, without
    the ledger's own words for it. */
module GoldRules {
  import opened Options
  import opened Totals
  import opened Raid
  import opened Spoils
  import opened GuildBook
  import opened GoldLedger

  ghost predicate Guildless(gs: Guilds, key: string) {
    forall s :: s in gs ==> key !in gs[s].members
  }

  lemma HomeIfAny(gs: Guilds, key: string)
    requires BookOk(gs)
    ensures Guildless(gs, key) <==> Home(gs, key).None?
    ensures forall s :: s in gs && key in gs[s].members ==> Home(gs, key) == Some(s)
  {
    forall s | s in gs && key in gs[s].members
      ensures BelongsTo(gs, key, s)
    {
    }
  }

  /** A guild costs 500, has a name of up to 24 characters, and begins with its founder alone. */
  lemma CreatingIs(r: State, key: string, name: string, slug: string, r': State)
    requires Ok(r) && Step(r, Create(key, name, slug), r')
    ensures r' ==
            if key in r.purses && r.purses[key] >= 500 && 0 < |name| <= 24 && slug !in r.guilds &&
               Guildless(r.guilds, key)
            then State(r.purses[key := r.purses[key] - 500],
                       r.guilds[slug := Guild(name, key, [key], 0, map[], None)], r.boss)
            else r
  {
    HomeIfAny(r.guilds, key);
  }

  /** Whoever joins comes last in the list, of at most twelve. */
  lemma JoiningIs(r: State, key: string, name: string, slug: string, r': State)
    requires Ok(r) && Step(r, Join(key, name, slug), r')
    ensures if key in r.purses && name != "" && slug in r.guilds && |r.guilds[slug].members| < 12 &&
               Guildless(r.guilds, key)
            then
              var g := r.guilds[slug];
              r' == r.(guilds := r.guilds[slug := g.(members := g.members + [key])])
            else r' == r
  {
    HomeIfAny(r.guilds, key);
  }

  /** The earliest member who stays inherits; a guild of nobody else is gone. */
  lemma LeavingIs(r: State, c: Command, r': State)
    requires Ok(r) && Step(r, c, r') && (c.Leave? || c.Wipe?)
    ensures if c.key in r.purses then GoneFrom(r.guilds, c.key, r'.guilds) else r' == r
    ensures r'.boss == r.boss && r'.purses == if c.Wipe? then r.purses - {c.key} else r.purses
  {
    if c.key in r.purses {
      DropIsGone(r.guilds, c.key, r'.guilds);
    }
  }

  lemma DepositingIs(r: State, key: string, amount: int, r': State)
    requires Ok(r) && Step(r, Deposit(key, amount), r')
    ensures !(key in r.purses && 0 < amount <= r.purses[key]) || Guildless(r.guilds, key) ==> r' == r
    ensures forall s ::
              s in r.guilds && key in r.guilds[s].members && key in r.purses && 0 < amount <= r.purses[key] ==>
              r' == State(r.purses[key := r.purses[key] - amount],
                          r.guilds[s := r.guilds[s].(vault := r.guilds[s].vault + amount)], r.boss)
  {
    HomeIfAny(r.guilds, key);
  }

  /** What the first level of each perk costs; another level costs that much more. */
  const BASES: map<string, int> := map["swiftness" := 800, "fortune" := 600, "might" := 1000]

  lemma PriceIs(g: Guild, perk: string)
    ensures perk !in BASES ==> PerkPrice(g, perk).None?
    ensures perk in BASES ==>
              var next := Get(g.perks, perk) + 1;
              PerkPrice(g, perk) ==
              if next <= (if perk == "might" then 3 else 5) && g.vault >= BASES[perk] * next
              then Some(BASES[perk] * next)
              else None
  {
  }

  lemma BuyingIs(r: State, key: string, perk: string, s: string, r': State)
    requires Ok(r) && Step(r, BuyPerk(key, perk), r')
    ensures key !in r.purses || perk !in BASES || Guildless(r.guilds, key) ==> r' == r
    ensures s in r.guilds && key in r.guilds[s].members && key in r.purses && perk in BASES ==>
              var g, next := r.guilds[s], Get(r.guilds[s].perks, perk) + 1;
              r' ==
              if next <= (if perk == "might" then 3 else 5) && g.vault >= BASES[perk] * next
              then r.(guilds := r.guilds[s := g.(vault := g.vault - BASES[perk] * next,
                                                 perks := g.perks[perk := next])])
              else r
  {
    HomeIfAny(r.guilds, key);
    if s in r.guilds {
      PriceIs(r.guilds[s], perk);
    }
  }

  lemma CallingIs(r: State, key: string, f: Foe, s: string, r': State)
    requires Ok(r) && Step(r, CallRaid(key, f), r')
    ensures key !in r.purses || Guildless(r.guilds, key) ==> r' == r
    ensures s in r.guilds && key in r.guilds[s].members && key in r.purses ==>
              var g := r.guilds[s];
              r' ==
              if g.raid.None? && g.vault >= 1000
              then r.(guilds := r.guilds[s := g.(vault := g.vault - 1000, raid := Some(f))])
              else r
  {
    HomeIfAny(r.guilds, key);
  }

  /** Everybody in `keys` has gained the share, and the one who dealt most the bonus. */
  ghost predicate Gained(purses: map<string, int>, keys: set<string>, share: int, top: string, bonus: int,
                         after: map<string, int>)
  {
    && (forall k :: k in after <==> k in purses || k in keys || (k == top && k != ""))
    && forall k :: k in after ==>
         after[k] == Get(purses, k) + (if k in keys then share else 0) + if k == top && k != "" then bonus else 0
  }

  lemma RewardsAreGained(purses: map<string, int>, keys: set<string>, share: int, top: string, bonus: int,
                         after: map<string, int>)
    requires Rewards(purses, keys, share, Crowned(top), bonus, after)
    ensures Gained(purses, keys, share, top, bonus, after)
  {
    var paid :| Pays(purses, keys, share, paid) && Pays(paid, Crowned(top), bonus, after);
  }

  /** How a round leaves a champion that survives it. */
  ghost predicate Weakened(f: Foe, blows: seq<Blow>, f': Foe) {
    && f'.maxHP == f.maxHP && f'.deadline == f.deadline && f'.hp == f.hp - Sum(blows)
    && forall k :: Get(f'.damage, k) == Get(f.damage, k) + DealtBy(blows, k)
  }

  lemma StruckIsWeakened(f: Foe, blows: seq<Blow>)
    requires f.maxHP > 0
    ensures Weakened(f, blows, Struck(f, blows))
  {
    forall k
      ensures Get(Ledger(f.damage, blows), k) == Get(f.damage, k) + DealtBy(blows, k)
    {
      LedgerIsByStriker(f.damage, blows, k);
    }
  }

  /** After its deadline a guild's champion departs; before, it loses what is dealt. */
  lemma RaidRoundIs(r: State, s: string, f: Foe, now: int, blows: seq<Blow>, r': State)
    requires Ok(r) && Step(r, RaidRound(s, now, blows), r') && s in r.guilds && r.guilds[s].raid == Some(f)
    requires now >= f.deadline || Sum(blows) < f.hp
    ensures now >= f.deadline ==> r' == r.(guilds := r.guilds[s := r.guilds[s].(raid := None)])
    ensures now < f.deadline ==>
              exists f' :: Weakened(f, blows, f') && r' == r.(guilds := r.guilds[s := r.guilds[s].(raid := Some(f'))])
  {
    StruckIsWeakened(f, blows);
    NextKeeps(Fighting(f, Reached(f.lastPct)), Round(now, blows));
  }

  lemma LastRound(f: Foe, now: int, blows: seq<Blow>) returns (next: Foe)
    requires RaidOk(Some(f)) && forall j :: 0 <= j < |blows| ==> blows[j].force >= 1
    requires now < f.deadline && Sum(blows) >= f.hp
    ensures f.maxHP > 0 && Fought(f, now, blows).Fallen? && next == Fought(f, now, blows).foe
    ensures next.maxHP == f.maxHP && |next.damage| > 0 && next.names.Keys == next.damage.Keys
    ensures |next.names| == |next.damage|
    ensures forall k :: Get(next.damage, k) == Get(f.damage, k) + DealtBy(blows, k)
  {
    StruckIsWeakened(f, blows);
    NextKeeps(Fighting(f, Reached(f.lastPct)), Round(now, blows));
    next := Fought(f, now, blows).foe;
    SomebodyStruck(next);
  }

  lemma FallIsShared(f: Foe, next: Foe, blows: seq<Blow>, purses: map<string, int>, after: map<string, int>)
    requires next.maxHP == f.maxHP > 0 && |next.damage| > 0
    requires forall k :: Get(next.damage, k) == Get(f.damage, k) + DealtBy(blows, k)
    requires Rewards(purses, next.damage.Keys, GuildShare(next), Crowned(TopOf(next.damage)), next.maxHP / 2, after)
    ensures SpoilsOf(f, blows, next.damage, purses, after)
  {
    RewardsAreGained(purses, next.damage.Keys, GuildShare(next), TopOf(next.damage), next.maxHP / 2, after);
  }

  /** If that is all it has, the raid is over and the vault gains a quarter of its health... */
  lemma RaidEndsIs(r: State, s: string, f: Foe, now: int, blows: seq<Blow>, r': State)
    requires RaidOk(Some(f)) && Step(r, RaidRound(s, now, blows), r') && s in r.guilds && r.guilds[s].raid == Some(f)
    requires now < f.deadline && Sum(blows) >= f.hp
    ensures r'.boss == r.boss
    ensures r'.guilds == r.guilds[s := r.guilds[s].(raid := None, vault := r.guilds[s].vault + f.maxHP / 4)]
  {
    FallsWhenSpent(f, now, blows);
    FallenResolves(r, s, Fought(f, now, blows), r', f);
  }

  lemma FallsWhenSpent(f: Foe, now: int, blows: seq<Blow>)
    requires RaidOk(Some(f)) && forall j :: 0 <= j < |blows| ==> blows[j].force >= 1
    requires now < f.deadline && Sum(blows) >= f.hp
    ensures f.maxHP > 0 && Fought(f, now, blows).Fallen? && Fought(f, now, blows).foe.maxHP == f.maxHP
  {
    NextKeeps(Fighting(f, Reached(f.lastPct)), Round(now, blows));
  }

  lemma FallenResolves(r: State, s: string, next: Fight, r': State, f: Foe)
    requires s in r.guilds && next.Fallen? && next.foe.maxHP == f.maxHP > 0 && Resolves(r, s, next, r')
    ensures r'.boss == r.boss
    ensures r'.guilds == r.guilds[s := r.guilds[s].(raid := None, vault := r.guilds[s].vault + f.maxHP / 4)]
  {
    WonIs(r.guilds[s], f, next.foe);
  }

  lemma WonIs(g: Guild, f: Foe, next: Foe)
    requires next.maxHP == f.maxHP
    ensures Won(g, next) == g.(raid := None, vault := g.vault + f.maxHP / 4)
  {
  }

  /** ... each striker on the ledger an equal part of it, and the one who dealt most half of
      it besides. */
  lemma RaidSpoilsAre(r: State, s: string, f: Foe, now: int, blows: seq<Blow>, r': State)
    returns (ledger: map<string, int>)
    requires RaidOk(Some(f)) && Step(r, RaidRound(s, now, blows), r') && s in r.guilds && r.guilds[s].raid == Some(f)
    requires now < f.deadline && Sum(blows) >= f.hp
    ensures SpoilsOf(f, blows, ledger, r.purses, r'.purses)
  {
    var next := LastRound(f, now, blows);
    FallIsShared(f, next, blows, r.purses, r'.purses);
    return next.damage;
  }

  ghost predicate SpoilsOf(f: Foe, blows: seq<Blow>, d: map<string, int>, purses: map<string, int>,
                           after: map<string, int>)
  {
    && |d| > 0 && (forall k :: Get(d, k) == Get(f.damage, k) + DealtBy(blows, k))
    && Gained(purses, d.Keys, EqualShare(f.maxHP, |d|), TopOf(d), f.maxHP / 2, after)
  }

  /** The world boss is fought the same; all who struck it gain an equal part of half its
      health and a hundred, the one who dealt most twice that. */
  lemma BossRoundIs(r: State, f: Foe, now: int, blows: seq<Blow>, r': State)
    requires Ok(r) && Step(r, BossRound(now, blows), r') && r.boss == Some(f)
    ensures r'.guilds == r.guilds
    ensures now >= f.deadline ==> r' == r.(boss := None)
    ensures now < f.deadline && Sum(blows) < f.hp ==>
              r'.purses == r.purses && r'.boss.Some? && Weakened(f, blows, r'.boss.value)
    ensures now < f.deadline && Sum(blows) >= f.hp ==>
              r'.boss.None? && exists d: map<string, int> :: BossSpoilsOf(f, blows, d, r.purses, r'.purses)
  {
    StruckIsWeakened(f, blows);
    NextKeeps(Fighting(f, Reached(f.lastPct)), Round(now, blows));
    var next := Fought(f, now, blows);
    if next.Fallen? {
      var d, share := next.foe.damage, BossShare(next.foe);
      SomebodyStruck(next.foe);
      RewardsAreGained(r.purses, next.foe.names.Keys, share, TopOf(d), share, r'.purses);
      assert BossSpoilsOf(f, blows, d, r.purses, r'.purses);
    }
  }

  ghost predicate BossSpoilsOf(f: Foe, blows: seq<Blow>, d: map<string, int>, purses: map<string, int>,
                               after: map<string, int>)
  {
    && |d| > 0 && (forall k :: Get(d, k) == Get(f.damage, k) + DealtBy(blows, k))
    && var share := EqualShare(f.maxHP, 2 * |d|) + 100;
       Gained(purses, d.Keys, share, TopOf(d), share, after)
  }
}
