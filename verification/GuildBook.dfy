/** The guild book: who belongs to which guild, its founder, perks, vault and raid, and what
    a player leaving does to it. */
module GuildBook {
  import opened Options
  import opened Raid

  const FOUND_COST := 500
  const NAME_MAX := 24
  const MAX_SIZE := 12
  const RAID_COST := 1000

  datatype Guild = Guild(name: string, founder: string, members: seq<string>, vault: int,
                         perks: map<string, int>, raid: Option<Foe>)

  type Guilds = map<string, Guild>

  // --- Perks ---

  datatype Perk = Perk(base: int, max: int)

  function PerkByName(name: string): Option<Perk> {
    if name == "swiftness" then Some(Perk(800, 5))
    else if name == "fortune" then Some(Perk(600, 5))
    else if name == "might" then Some(Perk(1000, 3))
    else None
  }

  /** What the next level costs. */
  function PerkCost(p: Perk, level: int): int {
    p.base * (level + 1)
  }

  // --- Membership ---

  ghost predicate BelongsTo(gs: Guilds, key: string, slug: string) {
    slug in gs && key in gs[slug].members
  }

  /** The guild a player belongs to. */
  ghost function Home(gs: Guilds, key: string): Option<string> {
    if slug :| BelongsTo(gs, key, slug) then Some(slug) else None
  }

  function Without(members: seq<string>, key: string): seq<string> {
    if members == [] then []
    else Without(members[..|members| - 1], key) +
         if members[|members| - 1] != key then [members[|members| - 1]] else []
  }

  /** A guild after a player has left: the mantle passes to the first who stays. */
  function Left(g: Guild, key: string): Guild {
    var kept := Without(g.members, key);
    g.(members := kept, founder := if kept != [] && g.founder == key then kept[0] else g.founder)
  }

  /** The book after a player has left: a guild with nobody in it is gone. */
  ghost predicate Drops(gs: Guilds, key: string, gs': Guilds) {
    && (forall s :: s in gs' <==> s in gs && Without(gs[s].members, key) != [])
    && forall s :: s in gs' ==> gs'[s] == Left(gs[s], key)
  }

  // --- What always holds ---

  ghost predicate Distinct(members: seq<string>) {
    forall i, j :: 0 <= i < j < |members| ==> members[i] != members[j]
  }

  ghost predicate PerksOk(perks: map<string, int>) {
    forall p :: p in perks ==> PerkByName(p).Some? && 0 <= perks[p] <= PerkByName(p).value.max
  }

  /** A champion being fought, if there is one, is in a state that fighting leads to. */
  ghost predicate RaidOk(raid: Option<Foe>) {
    raid.Some? ==> FightOk(Fighting(raid.value, Reached(raid.value.lastPct)))
  }

  ghost predicate GuildOk(g: Guild) {
    && 1 <= |g.members| <= MAX_SIZE && Distinct(g.members) && g.founder in g.members
    && g.vault >= 0 && PerksOk(g.perks) && RaidOk(g.raid)
  }

  ghost predicate BookOk(gs: Guilds) {
    && (forall s :: s in gs ==> GuildOk(gs[s]))
    && forall s, t, k :: BelongsTo(gs, k, s) && BelongsTo(gs, k, t) ==> s == t
  }

  lemma {:induction false} WithoutKeeps(members: seq<string>, key: string)
    ensures |Without(members, key)| <= |members|
    ensures forall k :: k in Without(members, key) <==> k in members && k != key
    ensures key !in members ==> Without(members, key) == members
  {
    if members != [] {
      var front := members[..|members| - 1];
      WithoutKeeps(front, key);
      assert members == front + [members[|members| - 1]];
    }
  }

  lemma {:induction false} WithoutIsDistinct(members: seq<string>, key: string)
    requires Distinct(members)
    ensures Distinct(Without(members, key))
  {
    if members != [] {
      var n := |members| - 1;
      WithoutIsDistinct(members[..n], key);
      WithoutKeeps(members[..n], key);
      assert members[n] !in members[..n];
    }
  }

  // --- Who is left, by their places in the old list ---

  /** The first member who is somebody else. */
  ghost predicate NextInLine(members: seq<string>, key: string, heir: string) {
    exists i :: 0 <= i < |members| && members[i] == heir && heir != key && forall j :: 0 <= j < i ==> members[j] == key
  }

  /** A guild after one of its players has left: the others keep their places, the earliest
      of them is founder if the founder has gone, and nothing else changes. */
  ghost predicate GoesOnWithout(g: Guild, key: string, g': Guild) {
    && (forall i :: 0 <= i < |g.members| && g.members[i] == key ==> g'.members == g.members[..i] + g.members[i + 1..])
    && (key !in g.members ==> g'.members == g.members)
    && (if g.founder == key then NextInLine(g.members, key, g'.founder) else g'.founder == g.founder)
    && g' == Guild(g.name, g'.founder, g'.members, g.vault, g.perks, g.raid)
  }

  lemma {:induction false} WithoutCuts(members: seq<string>, key: string, i: nat)
    requires Distinct(members) && i < |members| && members[i] == key
    ensures Without(members, key) == members[..i] + members[i + 1..]
  {
    var n := |members| - 1;
    if i == n {
      WithoutKeeps(members[..n], key);
      assert members[n] !in members[..n];
      assert members[n + 1..] == [];
    } else {
      WithoutCuts(members[..n], key, i);
      assert members[..n][..i] == members[..i] && members[..n][i + 1..] + [members[n]] == members[i + 1..];
    }
  }

  lemma {:induction false} FirstIsNextInLine(members: seq<string>, key: string)
    requires Without(members, key) != []
    ensures NextInLine(members, key, Without(members, key)[0])
  {
    var n := |members| - 1;
    if Without(members[..n], key) == [] {
      WithoutKeeps(members[..n], key);
      forall j | 0 <= j < n
        ensures members[j] == key
      {
        assert members[..n][j] in members[..n];
      }
      assert members[n] == Without(members, key)[0];
    } else {
      FirstIsNextInLine(members[..n], key);
      var i :| 0 <= i < n && members[..n][i] == Without(members[..n], key)[0] && members[i] != key &&
               forall j :: 0 <= j < i ==> members[..n][j] == key;
      assert forall j :: 0 <= j < i ==> members[j] == members[..n][j];
    }
  }

  lemma LeftGoesOn(g: Guild, key: string)
    requires GuildOk(g) && Without(g.members, key) != []
    ensures GoesOnWithout(g, key, Left(g, key))
  {
    FirstIsNextInLine(g.members, key);
    WithoutKeeps(g.members, key);
    if i :| 0 <= i < |g.members| && g.members[i] == key {
      WithoutCuts(g.members, key, i);
    }
  }

  /** What a player leaving does to the book: a guild of nobody else is gone, every other
      goes on. */
  ghost predicate GoneFrom(gs: Guilds, key: string, gs': Guilds) {
    && (forall s :: s in gs' <==> s in gs && exists i :: 0 <= i < |gs[s].members| && gs[s].members[i] != key)
    && forall s :: s in gs' ==> GoesOnWithout(gs[s], key, gs'[s])
  }

  lemma DropIsGone(gs: Guilds, key: string, gs': Guilds)
    requires BookOk(gs) && Drops(gs, key, gs')
    ensures GoneFrom(gs, key, gs')
  {
    forall s | s in gs
      ensures s in gs' <==> exists i :: 0 <= i < |gs[s].members| && gs[s].members[i] != key
      ensures s in gs' ==> GoesOnWithout(gs[s], key, gs'[s])
    {
      WithoutKeeps(gs[s].members, key);
      if Without(gs[s].members, key) != [] {
        var k := Without(gs[s].members, key)[0];
        assert k in Without(gs[s].members, key);
        LeftGoesOn(gs[s], key);
      }
    }
  }

  lemma LeftIsOk(g: Guild, key: string)
    requires GuildOk(g) && Without(g.members, key) != []
    ensures GuildOk(Left(g, key))
    ensures key !in g.members ==> Left(g, key) == g
    ensures forall k :: k in Left(g, key).members <==> k in g.members && k != key
  {
    WithoutKeeps(g.members, key);
    WithoutIsDistinct(g.members, key);
  }

  lemma DropKeeps(gs: Guilds, key: string, gs': Guilds)
    requires BookOk(gs) && Drops(gs, key, gs')
    ensures BookOk(gs') && Home(gs', key).None?
  {
    forall s | s in gs'
      ensures GuildOk(gs'[s]) && key !in gs'[s].members
    {
      LeftIsOk(gs[s], key);
    }
    forall s, k | BelongsTo(gs', k, s)
      ensures BelongsTo(gs, k, s)
    {
      LeftIsOk(gs[s], key);
    }
  }

  lemma {:induction false} LastOneOut(members: seq<string>, key: string)
    requires Distinct(members) && key in members
    ensures Without(members, key) == [] <==> |members| == 1
  {
  }

  lemma DropFromOne(gs: Guilds, key: string, gs': Guilds, s: string)
    requires BookOk(gs) && Drops(gs, key, gs') && s in gs
    ensures !BelongsTo(gs, key, s) ==> s in gs' && gs'[s] == gs[s]
    ensures BelongsTo(gs, key, s) ==> (s in gs' <==> |gs[s].members| != 1)
  {
    WithoutKeeps(gs[s].members, key);
    if key in gs[s].members {
      LastOneOut(gs[s].members, key);
    }
  }

  lemma SameMap<K(!new), V(!new)>(a: map<K, V>, b: map<K, V>)
    requires forall k :: k in a <==> k in b
    requires forall k :: k in a ==> a[k] == b[k]
    ensures a == b
  {
  }

  /** Nobody but the leaver's guild is touched. */
  lemma DropTouchesNone(gs: Guilds, key: string, gs': Guilds)
    requires BookOk(gs) && Drops(gs, key, gs') && Home(gs, key).None?
    ensures gs' == gs
  {
    forall s | s in gs
      ensures s in gs' && gs'[s] == gs[s]
    {
      assert !BelongsTo(gs, key, s);
      DropFromOne(gs, key, gs', s);
    }
    SameMap(gs, gs');
  }

  lemma DropTouchesOne(gs: Guilds, key: string, gs': Guilds, s: string)
    requires BookOk(gs) && Drops(gs, key, gs') && BelongsTo(gs, key, s)
    ensures gs' == if |gs[s].members| == 1 then gs - {s} else gs[s := Left(gs[s], key)]
  {
    var whole := if |gs[s].members| == 1 then gs - {s} else gs[s := Left(gs[s], key)];
    forall t | t in gs
      ensures t in gs' <==> t in whole
      ensures t in gs' ==> gs'[t] == whole[t]
    {
      assert t != s ==> !BelongsTo(gs, key, t);
      DropFromOne(gs, key, gs', t);
    }
    SameMap(gs', whole);
  }
}
