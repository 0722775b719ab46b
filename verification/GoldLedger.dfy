/** Every command that moves gold or guild members, what it may do, and the two things
    that hold over any run of them: the book stays in order, and gold is only ever made
    or lost by the payouts and sinks named here. */
module GoldLedger {
  import opened Options
  import opened Totals
  import opened Raid
  import opened Spoils
  import opened GuildBook
  import Runs

  /** The purse of everyone who has a sheet, the book, and the world boss, if one is about. */
  datatype State = State(purses: map<string, int>, guilds: Guilds, boss: Option<Foe>)

  datatype Command =
    | Enrol(key: string)
    | Create(key: string, name: string, slug: string)
    | Join(key: string, name: string, slug: string)
    | Leave(key: string)
    | Deposit(key: string, amount: int)
    | BuyPerk(key: string, perk: string)
    | CallRaid(key: string, foe: Foe)
    | RaidRound(slug: string, now: int, blows: seq<Blow>)
    | RaiseBoss(foe: Foe)
    | BossRound(now: int, blows: seq<Blow>)
    | Give(key: string, to: string, amount: int)
    | Earn(key: string, reward: nat)
    | Spend(key: string, price: nat)
    | Grant(key: string, amount: int)
    | Wipe(key: string)
    | WipeAll(doomed: set<string>)

  function Purse(r: State, key: string): int {
    Get(r.purses, key)
  }

  ghost predicate CanCreate(r: State, key: string, name: string, slug: string) {
    && key in r.purses && name != "" && |name| <= NAME_MAX && Home(r.guilds, key).None?
    && Purse(r, key) >= FOUND_COST && slug !in r.guilds
  }

  ghost predicate CanJoin(r: State, key: string, name: string, slug: string) {
    && key in r.purses && name != "" && Home(r.guilds, key).None?
    && slug in r.guilds && |r.guilds[slug].members| < MAX_SIZE
  }

  predicate CanGive(r: State, key: string, to: string, amount: int) {
    key in r.purses && to in r.purses && 0 < amount <= r.purses[key]
  }

  /** What the next level of a perk costs a guild, if it can and may buy it. */
  function PerkPrice(g: Guild, perk: string): Option<int> {
    match PerkByName(perk)
    case None => None
    case Some(p) =>
      var cost := PerkCost(p, Get(g.perks, perk));
      if Get(g.perks, perk) < p.max && g.vault >= cost then Some(cost) else None
  }

  // How a command changes one guild.

  function Joined(g: Guild, key: string): Guild {
    g.(members := g.members + [key])
  }

  function Paid(g: Guild, amount: int): Guild {
    g.(vault := g.vault + amount)
  }

  function Raised(g: Guild, perk: string, price: int): Guild {
    g.(vault := g.vault - price, perks := g.perks[perk := Get(g.perks, perk) + 1])
  }

  function Raiding(g: Guild, f: Foe): Guild {
    g.(vault := g.vault - RAID_COST, raid := Some(f))
  }

  function Won(g: Guild, f: Foe): Guild {
    g.(vault := g.vault + f.maxHP / 4, raid := None)
  }

  /** One tick of fighting a champion. */
  function Fought(f: Foe, now: int, blows: seq<Blow>): Fight
    requires f.maxHP > 0
  {
    Next(Fighting(f, Reached(f.lastPct)), Round(now, blows))
  }

  /** One round of a guild's raid, and what it leaves behind. */
  ghost predicate Resolves(r: State, slug: string, next: Fight, r': State)
    requires slug in r.guilds && next.foe.maxHP > 0
  {
    var g, f := r.guilds[slug], next.foe;
    match next
    case Fighting(_, _) => r' == r.(guilds := r.guilds[slug := g.(raid := Some(f))])
    case Departed(_, _) => r' == r.(guilds := r.guilds[slug := g.(raid := None)])
    case Fallen(_, _) =>
      && r'.guilds == r.guilds[slug := Won(g, f)] && r'.boss == r.boss
      && Rewards(r.purses, f.damage.Keys, GuildShare(f), Crowned(TopOf(f.damage)), f.maxHP / 2, r'.purses)
  }

  /** One round against the world boss, and what it leaves behind. */
  ghost predicate BossResolves(r: State, next: Fight, r': State)
    requires next.foe.maxHP > 0
  {
    var f := next.foe;
    match next
    case Fighting(_, _) => r' == r.(boss := Some(f))
    case Departed(_, _) => r' == r.(boss := None)
    case Fallen(_, _) =>
      && r'.guilds == r.guilds && r'.boss.None?
      && Rewards(r.purses, f.names.Keys, BossShare(f), Crowned(TopOf(f.damage)), BossShare(f), r'.purses)
  }

  /** Gold changing hands: taken first, then added, so that giving to oneself changes nothing. */
  function Handed(purses: map<string, int>, from: string, to: string, amount: int): map<string, int> {
    var taken := purses[from := Get(purses, from) - amount];
    taken[to := Get(taken, to) + amount]
  }

  function Max0(n: int): int {
    if n < 0 then 0 else n
  }

  ghost predicate Step(r: State, c: Command, r': State) {
    match c
    case Enrol(k) => r' == r.(purses := r.purses[k := Purse(r, k)])
    case Create(k, name, s) =>
      r' == if CanCreate(r, k, name, s)
            then r.(purses := r.purses[k := r.purses[k] - FOUND_COST],
                    guilds := r.guilds[s := Guild(name, k, [k], 0, map[], None)])
            else r
    case Join(k, name, s) =>
      r' == if CanJoin(r, k, name, s)
            then r.(guilds := r.guilds[s := Joined(r.guilds[s], k)])
            else r
    case Leave(k) =>
      r' == r.(guilds := r'.guilds) && if k in r.purses then Drops(r.guilds, k, r'.guilds) else r' == r
    case Deposit(k, n) =>
      (match Home(r.guilds, k)
       case Some(s) =>
         s in r.guilds &&
         r' == if k in r.purses && 0 < n <= r.purses[k]
               then r.(purses := r.purses[k := r.purses[k] - n], guilds := r.guilds[s := Paid(r.guilds[s], n)])
               else r
       case None => r' == r)
    case BuyPerk(k, perk) =>
      (match Home(r.guilds, k)
       case Some(s) =>
         s in r.guilds && var g := r.guilds[s];
         r' == if k in r.purses && PerkPrice(g, perk).Some?
               then r.(guilds := r.guilds[s := Raised(g, perk, PerkPrice(g, perk).value)])
               else r
       case None => r' == r)
    case CallRaid(k, f) =>
      Fresh(f) &&
      (match Home(r.guilds, k)
       case Some(s) =>
         s in r.guilds && var g := r.guilds[s];
         r' == if k in r.purses && g.raid.None? && g.vault >= RAID_COST
               then r.(guilds := r.guilds[s := Raiding(g, f)])
               else r
       case None => r' == r)
    case RaidRound(s, now, blows) =>
      && (forall j :: 0 <= j < |blows| ==> blows[j].force >= 1)
      && (if s in r.guilds && r.guilds[s].raid.Some? && r.guilds[s].raid.value.maxHP > 0
          then Resolves(r, s, Fought(r.guilds[s].raid.value, now, blows), r') else r' == r)
    case RaiseBoss(f) => Fresh(f) && r' == if r.boss.None? then r.(boss := Some(f)) else r
    case BossRound(now, blows) =>
      && (forall j :: 0 <= j < |blows| ==> blows[j].force >= 1)
      && (if r.boss.Some? && r.boss.value.maxHP > 0
          then BossResolves(r, Fought(r.boss.value, now, blows), r') else r' == r)
    case Give(k, to, n) => r' == if CanGive(r, k, to, n) then r.(purses := Handed(r.purses, k, to, n)) else r
    case Earn(k, n) => r' == r.(purses := r.purses[k := Purse(r, k) + n])
    case Spend(k, n) =>
      r' == if k in r.purses && r.purses[k] >= n then r.(purses := r.purses[k := r.purses[k] - n]) else r
    case Grant(k, n) =>
      r' == if k in r.purses then r.(purses := r.purses[k := Max0(r.purses[k] + n)]) else r
    case Wipe(k) =>
      if k in r.purses then r' == State(r.purses - {k}, r'.guilds, r.boss) && Drops(r.guilds, k, r'.guilds)
      else r' == r
    case WipeAll(doomed) => r' == State(r.purses - doomed, map[], None)
  }

  // --- The book stays in order ---

  ghost predicate Ok(r: State) {
    BookOk(r.guilds) && RaidOk(r.boss) && forall k :: k in r.purses ==> r.purses[k] >= 0
  }

  /** Replacing a guild by one in order that has gained no member keeps the book in order. */
  lemma GuildChanges(gs: Guilds, s: string, g: Guild, gs': Guilds)
    requires BookOk(gs) && s in gs && GuildOk(g) && g.members == gs[s].members && gs' == gs[s := g]
    ensures BookOk(gs')
  {
    forall t, k | BelongsTo(gs', k, t)
      ensures BelongsTo(gs, k, t)
    {
    }
  }

  lemma GuildGains(gs: Guilds, s: string, g: Guild, key: string, gs': Guilds)
    requires BookOk(gs) && GuildOk(g) && Home(gs, key).None? && gs' == gs[s := g]
    requires forall k :: k in g.members ==> k == key || BelongsTo(gs, k, s)
    ensures BookOk(gs')
  {
    assert forall t :: !BelongsTo(gs, key, t);
    forall t, k | BelongsTo(gs', k, t)
      ensures if k == key then t == s else BelongsTo(gs, k, t)
    {
      assert t != s ==> BelongsTo(gs, k, t);
    }
  }

  lemma RoundKeeps(r: State, s: string, now: int, blows: seq<Blow>, r': State)
    requires Ok(r) && Step(r, RaidRound(s, now, blows), r')
    ensures Ok(r')
  {
    if s in r.guilds && r.guilds[s].raid.Some? {
      var g := r.guilds[s];
      var next := Fought(g.raid.value, now, blows);
      NextKeeps(Fighting(g.raid.value, Reached(g.raid.value.lastPct)), Round(now, blows));
      GuildChanges(r.guilds, s, r'.guilds[s], r'.guilds);
      if next.Fallen? {
        var f := next.foe;
        ShareIsNat(f);
        TotalRewarded(r.purses, f.damage.Keys, GuildShare(f), Crowned(TopOf(f.damage)), f.maxHP / 2, r'.purses);
        RewardedAreNat(r.purses, f.damage.Keys, GuildShare(f), Crowned(TopOf(f.damage)), f.maxHP / 2, r'.purses);
      }
    }
  }

  lemma BossKeeps(r: State, c: Command, r': State)
    requires Ok(r) && Step(r, c, r') && (c.RaiseBoss? || c.BossRound?)
    ensures Ok(r')
  {
    if c.RaiseBoss? {
      RunIsOk(c.foe, []);
    } else if r.boss.Some? {
      NextKeeps(Fighting(r.boss.value, Reached(r.boss.value.lastPct)), Round(c.now, c.blows));
      var next := Fought(r.boss.value, c.now, c.blows);
      if next.Fallen? {
        var f := next.foe;
        SomebodyStruck(f);
        BossSharesFit(f);
        RewardedAreNat(r.purses, f.names.Keys, BossShare(f), Crowned(TopOf(f.damage)), BossShare(f), r'.purses);
      }
    }
  }

  lemma ShareIsNat(f: Foe)
    requires f.maxHP > 0
    ensures GuildShare(f) >= 0
  {
    if |f.damage| > 0 {
      ShareFits(f.maxHP, |f.damage|);
    }
  }

  lemma RewardedAreNat<K(!new)>(purses: map<K, int>, keys: set<K>, share: nat, crowned: set<K>, bonus: nat,
                                after: map<K, int>)
    requires Rewards(purses, keys, share, crowned, bonus, after)
    requires forall k :: k in purses ==> purses[k] >= 0
    ensures forall k :: k in after ==> after[k] >= 0
  {
    var paid :| Pays(purses, keys, share, paid) && Pays(paid, crowned, bonus, after);
  }

  lemma CreateKeeps(r: State, c: Command, r': State)
    requires Ok(r) && Step(r, c, r') && c.Create?
    ensures Ok(r')
  {
    if CanCreate(r, c.key, c.name, c.slug) {
      GuildGains(r.guilds, c.slug, Guild(c.name, c.key, [c.key], 0, map[], None), c.key, r'.guilds);
    }
  }

  lemma JoinKeeps(r: State, c: Command, r': State)
    requires Ok(r) && Step(r, c, r') && c.Join?
    ensures Ok(r')
  {
    if CanJoin(r, c.key, c.name, c.slug) {
      var g := r.guilds[c.slug];
      assert !BelongsTo(r.guilds, c.key, c.slug);
      GuildGains(r.guilds, c.slug, Joined(g, c.key), c.key, r'.guilds);
    }
  }

  lemma PerkKeeps(r: State, c: Command, r': State)
    requires Ok(r) && Step(r, c, r') && c.BuyPerk?
    ensures Ok(r')
  {
    if Home(r.guilds, c.key).Some? {
      var s := Home(r.guilds, c.key).value;
      GuildChanges(r.guilds, s, r'.guilds[s], r'.guilds);
    }
  }

  lemma DepositKeeps(r: State, c: Command, r': State)
    requires Ok(r) && Step(r, c, r') && c.Deposit?
    ensures Ok(r')
  {
    if Home(r.guilds, c.key).Some? {
      var s := Home(r.guilds, c.key).value;
      GuildChanges(r.guilds, s, r'.guilds[s], r'.guilds);
    }
  }

  lemma RaidKeeps(r: State, c: Command, r': State)
    requires Ok(r) && Step(r, c, r') && c.CallRaid?
    ensures Ok(r')
  {
    if Home(r.guilds, c.key).Some? {
      var s := Home(r.guilds, c.key).value;
      RunIsOk(c.foe, []);
      GuildChanges(r.guilds, s, r'.guilds[s], r'.guilds);
    }
  }

  lemma StepKeeps(r: State, c: Command, r': State)
    requires Ok(r) && Step(r, c, r')
    ensures Ok(r')
  {
    match c
    case Create(_, _, _) => CreateKeeps(r, c, r');
    case Join(_, _, _) => JoinKeeps(r, c, r');
    case Deposit(_, _) => DepositKeeps(r, c, r');
    case BuyPerk(_, _) => PerkKeeps(r, c, r');
    case CallRaid(_, _) => RaidKeeps(r, c, r');
    case RaidRound(s, now, blows) => RoundKeeps(r, s, now, blows, r');
    case RaiseBoss(_) => BossKeeps(r, c, r');
    case BossRound(_, _) => BossKeeps(r, c, r');
    case Leave(k) => if k in r.purses { DropKeeps(r.guilds, k, r'.guilds); }
    case Wipe(k) => if k in r.purses { DropKeeps(r.guilds, k, r'.guilds); }
    case _ =>
  }

  // --- Gold is accounted for ---

  function VaultsOf<K>(gs: map<K, Guild>): map<K, int> {
    map s | s in gs :: gs[s].vault
  }

  /** All the gold there is: in purses and in vaults. */
  ghost function Wealth(r: State): int {
    Total(r.purses) + Total(VaultsOf(r.guilds))
  }

  lemma VaultPut<K>(gs: map<K, Guild>, s: K, g: Guild)
    ensures Total(VaultsOf(gs[s := g])) ==
            Total(VaultsOf(gs)) + g.vault - if s in gs then gs[s].vault else 0
  {
    assert VaultsOf(gs[s := g]) == VaultsOf(gs)[s := g.vault];
    TotalPut(VaultsOf(gs), s, g.vault);
  }

  lemma VaultDrop<K>(gs: map<K, Guild>, s: K)
    ensures Total(VaultsOf(gs - {s})) == Total(VaultsOf(gs)) - if s in gs then gs[s].vault else 0
  {
    assert VaultsOf(gs - {s}) == VaultsOf(gs) - {s};
    TotalDrop(VaultsOf(gs), s);
  }

  /** What a player leaving takes out of the realm: the vault, if the guild disbands. */
  ghost function Disbanded(gs: Guilds, key: string): int {
    match Home(gs, key)
    case Some(s) => if s in gs && |gs[s].members| == 1 then gs[s].vault else 0
    case None => 0
  }

  /** All that a fallen champion brings in. */
  ghost function Payout(f: Foe): int
    requires f.maxHP > 0
  {
    Shares(|f.damage|, GuildShare(f)) + f.maxHP / 4 + if TopOf(f.damage) == "" then 0 else f.maxHP / 2
  }

  /** And a fallen world boss. */
  ghost function BossPayout(f: Foe): int {
    Shares(|f.names|, BossShare(f)) + if TopOf(f.damage) == "" then 0 else BossShare(f)
  }

  /** The gold a command makes, or loses if negative. */
  ghost function Flow(r: State, c: Command): int {
    match c
    case Create(k, name, s) => if CanCreate(r, k, name, s) then -FOUND_COST else 0
    case Leave(k) => if k in r.purses then -Disbanded(r.guilds, k) else 0
    case BuyPerk(k, perk) =>
      (match Home(r.guilds, k)
       case Some(s) =>
         if s in r.guilds && k in r.purses && PerkPrice(r.guilds[s], perk).Some?
         then -PerkPrice(r.guilds[s], perk).value else 0
       case None => 0)
    case CallRaid(k, _) =>
      (match Home(r.guilds, k)
       case Some(s) =>
         if s in r.guilds && k in r.purses && r.guilds[s].raid.None? && r.guilds[s].vault >= RAID_COST
         then -RAID_COST else 0
       case None => 0)
    case RaidRound(s, now, blows) =>
      if s in r.guilds && r.guilds[s].raid.Some? && r.guilds[s].raid.value.maxHP > 0 &&
         Fought(r.guilds[s].raid.value, now, blows).Fallen?
      then Payout(Fought(r.guilds[s].raid.value, now, blows).foe) else 0
    case BossRound(now, blows) =>
      if r.boss.Some? && r.boss.value.maxHP > 0 && Fought(r.boss.value, now, blows).Fallen?
      then BossPayout(Fought(r.boss.value, now, blows).foe) else 0
    case Earn(_, n) => n
    case Spend(k, n) => if k in r.purses && r.purses[k] >= n then -(n as int) else 0
    case Grant(k, n) => if k in r.purses then Max0(r.purses[k] + n) - r.purses[k] else 0
    case Wipe(k) => if k in r.purses then -r.purses[k] - Disbanded(r.guilds, k) else 0
    case WipeAll(doomed) => -Total(VaultsOf(r.guilds)) - (Total(r.purses) - Total(r.purses - doomed))
    case _ => 0
  }

  lemma DropBalances(gs: Guilds, key: string, gs': Guilds)
    requires BookOk(gs) && Drops(gs, key, gs')
    ensures Total(VaultsOf(gs')) == Total(VaultsOf(gs)) - Disbanded(gs, key)
  {
    match Home(gs, key)
    case None => DropTouchesNone(gs, key, gs');
    case Some(s) =>
      assert BelongsTo(gs, key, s);
      DropTouchesOne(gs, key, gs', s);
      VaultPut(gs, s, Left(gs[s], key));
      VaultDrop(gs, s);
  }

  lemma RoundBalances(r: State, c: Command, r': State)
    requires Ok(r) && Step(r, c, r') && c.RaidRound?
    ensures Wealth(r') == Wealth(r) + Flow(r, c)
  {
    var s := c.slug;
    if s in r.guilds && r.guilds[s].raid.Some? {
      var next := Fought(r.guilds[s].raid.value, c.now, c.blows);
      VaultPut(r.guilds, s, r'.guilds[s]);
      if next.Fallen? {
        var f := next.foe;
        assert |f.damage.Keys| == |f.damage|;
        TotalRewarded(r.purses, f.damage.Keys, GuildShare(f), Crowned(TopOf(f.damage)), f.maxHP / 2, r'.purses);
        CrownedOnce(TopOf(f.damage), f.maxHP / 2);
      }
    }
  }

  lemma BossBalances(r: State, c: Command, r': State)
    requires Ok(r) && Step(r, c, r') && c.BossRound?
    ensures Wealth(r') == Wealth(r) + Flow(r, c)
  {
    if r.boss.Some? {
      var next := Fought(r.boss.value, c.now, c.blows);
      if next.Fallen? {
        var f := next.foe;
        assert |f.names.Keys| == |f.names|;
        TotalRewarded(r.purses, f.names.Keys, BossShare(f), Crowned(TopOf(f.damage)), BossShare(f), r'.purses);
        CrownedOnce(TopOf(f.damage), BossShare(f));
      }
    }
  }

  /** In any state in order, a fallen guild champion brings in at most seven quarters of
      its health, and a fallen world boss at most its health and a hundred for each
      hero and one more. */
  lemma SpoilsAreBounded(r: State, c: Command)
    requires Ok(r)
    requires (c.RaidRound? || c.BossRound?) && forall j :: 0 <= j < |c.blows| ==> c.blows[j].force >= 1
    ensures c.RaidRound? && Flow(r, c) != 0 ==> 4 * Flow(r, c) <= 7 * r.guilds[c.slug].raid.value.maxHP
    ensures c.BossRound? && Flow(r, c) != 0 ==>
              Flow(r, c) <= r.boss.value.maxHP + 100 * (|Fought(r.boss.value, c.now, c.blows).foe.names| + 1)
  {
    if c.BossRound? && r.boss.Some? {
      NextKeeps(Fighting(r.boss.value, Reached(r.boss.value.lastPct)), Round(c.now, c.blows));
      var next := Fought(r.boss.value, c.now, c.blows);
      if next.Fallen? {
        SomebodyStruck(next.foe);
        BossSharesFit(next.foe);
      }
    } else if c.RaidRound? && c.slug in r.guilds && r.guilds[c.slug].raid.Some? {
      var f := r.guilds[c.slug].raid.value;
      NextKeeps(Fighting(f, Reached(f.lastPct)), Round(c.now, c.blows));
      var next := Fought(f, c.now, c.blows);
      if next.Fallen? {
        SomebodyStruck(next.foe);
        ShareFits(f.maxHP, |next.foe.damage|);
      }
    }
  }

  lemma SomebodyStruck(f: Foe)
    requires FightOk(Fallen(f, Reached(f.lastPct)))
    ensures |f.damage| > 0 && |f.names| == |f.damage|
  {
    assert |f.names.Keys| == |f.names| && |f.damage.Keys| == |f.damage|;
  }

  lemma GuildBalances(r: State, c: Command, r': State)
    requires Ok(r) && Step(r, c, r') && (c.Deposit? || c.BuyPerk? || c.CallRaid?)
    ensures Wealth(r') == Wealth(r) + Flow(r, c)
  {
    if Home(r.guilds, c.key).Some? {
      var s := Home(r.guilds, c.key).value;
      VaultPut(r.guilds, s, r'.guilds[s]);
      TotalPut(r.purses, c.key, Get(r'.purses, c.key));
    }
  }

  lemma HandedBalances(purses: map<string, int>, from: string, to: string, amount: int)
    ensures Total(Handed(purses, from, to, amount)) == Total(purses)
  {
    var taken := purses[from := Get(purses, from) - amount];
    TotalPut(purses, from, Get(purses, from) - amount);
    TotalPut(taken, to, Get(taken, to) + amount);
  }

  lemma FoundingBalances(r: State, c: Command, r': State)
    requires Ok(r) && Step(r, c, r') && (c.Create? || c.Join?)
    ensures Wealth(r') == Wealth(r) + Flow(r, c)
  {
    TotalPut(r.purses, c.key, Purse(r, c.key) - FOUND_COST);
    if r' != r {
      VaultPut(r.guilds, c.slug, r'.guilds[c.slug]);
    }
  }

  lemma PurseBalances(r: State, c: Command, r': State)
    requires Step(r, c, r') && (c.Enrol? || c.Give? || c.Earn? || c.Spend? || c.Grant? || c.RaiseBoss?)
    ensures Wealth(r') == Wealth(r) + Flow(r, c)
  {
    if c.RaiseBoss? {
    } else if c.Give? {
      HandedBalances(r.purses, c.key, c.to, c.amount);
    } else {
      TotalPut(r.purses, c.key, Get(r'.purses, c.key));
    }
  }

  lemma LeavingBalances(r: State, c: Command, r': State)
    requires Ok(r) && Step(r, c, r') && (c.Leave? || c.Wipe?)
    ensures Wealth(r') == Wealth(r) + Flow(r, c)
  {
    TotalDrop(r.purses, c.key);
    if c.key in r.purses {
      DropBalances(r.guilds, c.key, r'.guilds);
    }
  }

  /** Gold is made and lost exactly as `Flow` says. */
  lemma StepBalances(r: State, c: Command, r': State)
    requires Ok(r) && Step(r, c, r')
    ensures Wealth(r') == Wealth(r) + Flow(r, c)
  {
    match c
    case Create(_, _, _) => FoundingBalances(r, c, r');
    case Join(_, _, _) => FoundingBalances(r, c, r');
    case Leave(_) => LeavingBalances(r, c, r');
    case Wipe(_) => LeavingBalances(r, c, r');
    case Deposit(_, _) => GuildBalances(r, c, r');
    case BuyPerk(_, _) => GuildBalances(r, c, r');
    case CallRaid(_, _) => GuildBalances(r, c, r');
    case RaidRound(_, _, _) => RoundBalances(r, c, r');
    case BossRound(_, _) => BossBalances(r, c, r');
    case WipeAll(_) => assert VaultsOf(r'.guilds) == map[];
    case _ => PurseBalances(r, c, r');
  }

  // --- Whole runs ---

  /** `states` is a run of `commands` from its first state to its last. */
  ghost predicate IsRun(states: seq<State>, commands: seq<Command>) {
    && |states| == |commands| + 1
    && forall i :: 0 <= i < |commands| ==> Step(states[i], commands[i], states[i + 1])
  }

  /** All the gold made, less all that was lost, in the first n commands. */
  ghost function Flows(states: seq<State>, commands: seq<Command>, n: nat): int
    requires n <= |commands| <= |states|
  {
    Runs.SumAlong(Flow, states, commands, n)
  }

  /** Over any run, each player is in at most one guild, every guild has between one and
      twelve distinct members with its founder among them, perks stay within their
      limits, no purse and no vault is ever overdrawn, and all the gold in the realm is
      what there was at first and what the commands made or lost. */
  lemma RealmStaysInOrder(states: seq<State>, commands: seq<Command>, n: nat)
    requires IsRun(states, commands) && Ok(states[0]) && n <= |commands|
    ensures Ok(states[n])
    ensures Wealth(states[n]) == Wealth(states[0]) + Flows(states, commands, n)
  {
    forall r, c, r' | Ok(r) && Step(r, c, r')
      ensures Ok(r') && Wealth(r') == Wealth(r) + Flow(r, c)
    {
      StepKeeps(r, c, r');
      StepBalances(r, c, r');
    }
    Runs.Balances(Step, Ok, Wealth, Flow, states, commands, n);
  }
}
