/** The end of a raid: who struck hardest, and how the hoard is shared out. */
module Spoils {
  import opened Totals
  import opened Raid

  // --- The order on keys ---

  /** The order on strings: character by character, a proper prefix first. */
  predicate Before(a: string, b: string) {
    b != "" && (a == "" || a[0] < b[0] || (a[0] == b[0] && Before(a[1..], b[1..])))
  }

  lemma {:induction false} BeforeIsTotal(a: string, b: string)
    ensures a == b || Before(a, b) || Before(b, a)
    ensures !(Before(a, b) && Before(b, a))
  {
    if a != "" && b != "" {
      BeforeIsTotal(a[1..], b[1..]);
      if a[0] == b[0] && a[1..] == b[1..] {
        assert a == [a[0]] + a[1..] == b;
      }
    }
  }

  lemma {:induction false} BeforeIsTransitive(a: string, b: string, c: string)
    requires Before(a, b) && Before(b, c)
    ensures Before(a, c)
  {
    if a != "" && a[0] == b[0] == c[0] {
      BeforeIsTransitive(a[1..], b[1..], c[1..]);
    }
  }

  /** The first place where they differ decides, if there is one in both. */
  lemma {:induction false} BeforeIs(a: string, b: string)
    ensures Before(a, b) <==> exists n: nat :: FirstDifference(a, b, n)
  {
    if a == "" || b == "" || a[0] != b[0] {
      assert Before(a, b) ==> FirstDifference(a, b, 0);
    } else {
      BeforeIs(a[1..], b[1..]);
      if n: nat :| FirstDifference(a[1..], b[1..], n) {
        assert a[..n + 1] == [a[0]] + a[1..][..n] && b[..n + 1] == [b[0]] + b[1..][..n];
        assert FirstDifference(a, b, n + 1);
      }
      if n: nat :| FirstDifference(a, b, n) {
        assert n > 0;
        assert a[1..][..n - 1] == a[..n][1..] && b[1..][..n - 1] == b[..n][1..];
        assert FirstDifference(a[1..], b[1..], n - 1);
      }
    }
  }

  ghost predicate FirstDifference(a: string, b: string, n: nat) {
    n <= |a| && n < |b| && a[..n] == b[..n] && (n < |a| ==> a[n] < b[n])
  }

  // --- The biggest contributor ---

  /** Key j with its damage does not beat k with v. */
  predicate Yields(damage: map<string, int>, j: string, k: string, v: int)
    requires j in damage
  {
    damage[j] < v || (damage[j] == v && !Before(j, k))
  }

  /** The one who dealt most, ties going to the first key in order; nobody, if nobody
      dealt any. */
  ghost predicate Tops(damage: map<string, int>, k: string, v: int) {
    if exists j :: j in damage && damage[j] > 0
    then k in damage && damage[k] == v && forall j :: j in damage ==> Yields(damage, j, k, v)
    else k == "" && v == 0
  }

  /** The same among the keys looked at so far. */
  ghost predicate TopsSoFar(damage: map<string, int>, seen: set<string>, k: string, v: int)
    requires seen <= damage.Keys
  {
    && (if v == 0 then k == "" else v > 0 && k in seen && damage[k] == v)
    && forall j :: j in seen ==> Yields(damage, j, k, v)
  }

  lemma ChallengerSettles(damage: map<string, int>, seen: set<string>, k: string, v: int, j: string)
    requires seen <= damage.Keys && TopsSoFar(damage, seen, k, v) && j in damage
    ensures if damage[j] > v || (damage[j] == v && Before(j, k))
            then TopsSoFar(damage, seen + {j}, j, damage[j])
            else TopsSoFar(damage, seen + {j}, k, v)
  {
    BeforeIsTotal(j, k);
    BeforeIsTotal(j, j);
    forall i | i in seen && Before(i, j) && Before(j, k)
      ensures Before(i, k)
    {
      BeforeIsTransitive(i, j, k);
    }
  }

  /** Whatever the order of the keys, the answer is the same. */
  lemma TopIsUnique(damage: map<string, int>, k: string, v: int, k': string, v': int)
    requires Tops(damage, k, v) && Tops(damage, k', v')
    ensures k == k' && v == v'
  {
    if j :| j in damage && damage[j] > 0 {
      assert Yields(damage, k, k', v') && Yields(damage, k', k, v);
      BeforeIsTotal(k, k');
    }
  }

  /** Nobody dealt more, and of those who dealt as much it is the first by key. */
  lemma TopIs(damage: map<string, int>, j: string)
    requires TopOf(damage) in damage && j in damage && exists k, v :: Tops(damage, k, v)
    requires exists i :: i in damage && damage[i] > 0
    ensures damage[j] <= damage[TopOf(damage)]
    ensures damage[j] == damage[TopOf(damage)] && j != TopOf(damage) ==> Before(TopOf(damage), j)
  {
    var k, v :| Tops(damage, k, v) && TopOf(damage) == k;
    assert Yields(damage, j, k, v);
    BeforeIsTotal(j, k);
  }

  ghost function TopOf(damage: map<string, int>): string {
    if k, v :| Tops(damage, k, v) then k else ""
  }

  lemma TopIsKnown(damage: map<string, int>, top: string, v: int)
    requires Tops(damage, top, v)
    ensures TopOf(damage) == top
  {
    var k, w :| Tops(damage, k, w) && TopOf(damage) == k;
    TopIsUnique(damage, top, v, k, w);
  }

  /** The keys come in any order. */
  method TopDamager(damage: map<string, int>) returns (bestKey: string, best: int)
    ensures Tops(damage, bestKey, best)
  {
    bestKey, best := "", 0;
    var left := damage.Keys;
    while left != {}
      invariant left <= damage.Keys
      invariant TopsSoFar(damage, damage.Keys - left, bestKey, best)
      decreases |left|
    {
      var k :| k in left;
      ChallengerSettles(damage, damage.Keys - left, bestKey, best, k);
      assert damage.Keys - left + {k} == damage.Keys - (left - {k});
      var v := damage[k];
      if v > best || (v == best && Before(k, bestKey)) {
        bestKey, best := k, v;
      }
      left := left - {k};
    }
    assert damage.Keys - {} == damage.Keys;
    assert forall j :: j in damage ==> Yields(damage, j, bestKey, best);
  }

  // --- Shares ---

  /** What each of n gets of a purse, in whole coins. */
  function EqualShare(purse: int, n: int): int
    requires n > 0
    decreases purse
  {
    if purse < n then 0 else 1 + EqualShare(purse - n, n)
  }

  lemma {:induction false} ShareIsQuotient(purse: nat, n: int)
    requires n > 0
    ensures EqualShare(purse, n) == purse / n
    decreases purse
  {
    if purse >= n {
      ShareIsQuotient(purse - n, n);
      OneCoinEach(purse, n);
    }
  }

  lemma QuotientIs(p: int, n: int, q: int, r: int)
    requires n > 0 && 0 <= r < n && p == n * q + r
    ensures p / n == q
  {
    var d := p / n;
    if d > q {
      Scaled(q + 1, d, n);
    } else if d < q {
      Scaled(d + 1, q, n);
    }
  }

  lemma OneCoinEach(purse: nat, n: int)
    requires 0 < n <= purse
    ensures purse / n == 1 + (purse - n) / n
  {
    var q, r := (purse - n) / n, (purse - n) % n;
    assert n * (1 + q) == n + n * q;
    QuotientIs(purse, n, 1 + q, r);
  }

  function GuildShare(f: Foe): int {
    if |f.damage| > 0 then EqualShare(f.maxHP, |f.damage|) else f.maxHP
  }

  function BossShare(f: Foe): int {
    EqualShare(f.maxHP, 2 * if |f.names| < 1 then 1 else |f.names|) + 100
  }

  /** Half the hoard in equal parts, and a hundred. */
  lemma BossShareIs(f: Foe, n: nat)
    requires f.maxHP > 0 && n == if |f.names| < 1 then 1 else |f.names|
    ensures BossShare(f) == f.maxHP / (n * 2) + 100
  {
    ShareIsQuotient(f.maxHP, 2 * n);
    assert 2 * n == n * 2;
  }

  /** The whole hoard in equal parts. */
  lemma GuildShareIs(f: Foe)
    requires f.maxHP > 0 && |f.damage| > 0
    ensures GuildShare(f) == f.maxHP / |f.damage|
  {
    ShareIsQuotient(f.maxHP, |f.damage|);
  }

  /** Everyone in `keys` has been given the share, and those in `crowned` then the bonus. */
  ghost predicate Rewards<K(!new)>(purses: map<K, int>, keys: set<K>, share: int, crowned: set<K>, bonus: int,
                                   after: map<K, int>)
  {
    exists paid :: Pays(purses, keys, share, paid) && Pays(paid, crowned, bonus, after)
  }

  function Crowned(top: string): set<string> {
    if top == "" then {} else {top}
  }

  /** A guild's champion has fallen: its strikers' purses and the vault grow. */
  method RewardGuildRaid(purses: map<string, int>, vault: int, f: Foe)
    returns (after: map<string, int>, chest: int)
    requires f.maxHP > 0
    ensures Rewards(purses, f.damage.Keys, GuildShare(f), Crowned(TopOf(f.damage)), f.maxHP / 2, after)
    ensures chest == vault + f.maxHP / 4
    ensures forall k :: k in after <==> k in purses || k in f.damage || (k == TopOf(f.damage) && k != "")
    ensures forall k :: k in after ==>
      after[k] == Get(purses, k) +
                  (if k in f.damage && |f.damage| > 0 then f.maxHP / |f.damage| else 0) +
                  (if k == TopOf(f.damage) && k != "" then f.maxHP / 2 else 0)
  {
    var topKey, topDmg := TopDamager(f.damage);
    TopIsKnown(f.damage, topKey, topDmg);
    var share := f.maxHP;
    if |f.damage| > 0 {
      ShareIsQuotient(f.maxHP, |f.damage|);
      share := f.maxHP / |f.damage|;
    }
    var paid := PayAll(purses, f.damage.Keys, share);
    after := PayAll(paid, Crowned(topKey), f.maxHP / 2);
    chest := vault + f.maxHP / 4;
  }

  method RewardWorldBoss(purses: map<string, int>, f: Foe) returns (after: map<string, int>)
    requires f.maxHP > 0
    ensures Rewards(purses, f.names.Keys, BossShare(f), Crowned(TopOf(f.damage)), BossShare(f), after)
    ensures forall k :: k in after <==> k in purses || k in f.names || (k == TopOf(f.damage) && k != "")
    ensures forall k :: k in after ==>
      after[k] == Get(purses, k) + (if k in f.names then BossShare(f) else 0) +
                  (if k == TopOf(f.damage) && k != "" then BossShare(f) else 0)
  {
    var n := |f.names|;
    if n < 1 {
      n := 1;
    }
    BossShareIs(f, n);
    var share := f.maxHP / (n * 2) + 100;
    after := PayBoth(purses, f, share);
  }

  method PayBoth(purses: map<string, int>, f: Foe, share: int) returns (after: map<string, int>)
    ensures Rewards(purses, f.names.Keys, share, Crowned(TopOf(f.damage)), share, after)
    ensures forall k :: k in after <==> k in purses || k in f.names || (k == TopOf(f.damage) && k != "")
    ensures forall k :: k in after ==>
      after[k] == Get(purses, k) + (if k in f.names then share else 0) +
                  (if k == TopOf(f.damage) && k != "" then share else 0)
  {
    var topKey, topDmg := TopDamager(f.damage);
    TopIsKnown(f.damage, topKey, topDmg);
    var paid := PayAll(purses, f.names.Keys, share);
    after := PayAll(paid, if topDmg > 0 then Crowned(topKey) else {}, share);
  }

  lemma ShareFits(purse: nat, n: nat)
    requires n > 0
    ensures Shares(n, EqualShare(purse, n)) <= purse && 0 <= EqualShare(purse, n)
  {
    ShareIsQuotient(purse, n);
    SharesAreProduct(n, purse / n);
  }

  lemma {:induction false} SharesGrow(n: nat, a: int, b: int)
    ensures Shares(n, a + b) == Shares(n, a) + Shares(n, b)
  {
    if n > 0 {
      SharesGrow(n - 1, a, b);
    }
  }

  lemma {:induction false} SharesDouble(n: nat, a: int)
    ensures Shares(2 * n, a) == 2 * Shares(n, a)
    ensures a >= 0 && n > 0 ==> Shares(n, a) >= a
  {
    if n > 0 {
      SharesDouble(n - 1, a);
    }
  }

  lemma HalfShareFits(purse: nat, n: nat)
    requires n > 0
    ensures 2 * Shares(n, EqualShare(purse, 2 * n)) <= purse && 0 <= 2 * EqualShare(purse, 2 * n) <= purse
  {
    ShareFits(purse, 2 * n);
    SharesDouble(n, EqualShare(purse, 2 * n));
  }

  lemma TotalRewarded<K(!new)>(purses: map<K, int>, keys: set<K>, share: int, crowned: set<K>, bonus: int,
                               after: map<K, int>)
    requires Rewards(purses, keys, share, crowned, bonus, after)
    ensures Total(after) == Total(purses) + Shares(|keys|, share) + Shares(|crowned|, bonus)
    ensures share >= 0 && bonus >= 0 ==> forall k :: k in purses ==> k in after && after[k] >= purses[k]
  {
    var paid :| Pays(purses, keys, share, paid) && Pays(paid, crowned, bonus, after);
    TotalPaid(purses, keys, share, paid);
    TotalPaid(paid, crowned, bonus, after);
  }

  lemma CrownedOnce(top: string, bonus: int)
    ensures Shares(|Crowned(top)|, bonus) == if top == "" then 0 else bonus
  {
    assert Shares(1, bonus) == bonus;
  }

  /** The gold a fallen guild champion brings in: the strikers' equal shares are never
      more than the hoard, and with the champion's cut and the vault's part, all that is
      minted is at most one and three quarters of it. */
  lemma GuildHoardIsShared(purses: map<string, int>, f: Foe, after: map<string, int>)
    requires f.maxHP > 0 && |f.damage| > 0
    requires Rewards(purses, f.damage.Keys, GuildShare(f), Crowned(TopOf(f.damage)), f.maxHP / 2, after)
    ensures Shares(|f.damage|, GuildShare(f)) <= f.maxHP
    ensures 4 * (Total(after) + f.maxHP / 4 - Total(purses)) <= 7 * f.maxHP
    ensures forall k :: k in purses ==> k in after && after[k] >= purses[k]
  {
    ShareFits(f.maxHP, |f.damage|);
    assert |f.damage.Keys| == |f.damage|;
    TotalRewarded(purses, f.damage.Keys, GuildShare(f), Crowned(TopOf(f.damage)), f.maxHP / 2, after);
    CrownedOnce(TopOf(f.damage), f.maxHP / 2);
  }

  /** A boss's shares come to at most half its health and a hundred for each hero. */
  lemma BossSharesFit(f: Foe)
    requires f.maxHP > 0 && |f.names| > 0
    ensures 2 * Shares(|f.names|, BossShare(f)) <= f.maxHP + 200 * |f.names|
    ensures 0 <= BossShare(f) <= f.maxHP / 2 + 100
  {
    var n := |f.names|;
    HalfShareFits(f.maxHP, n);
    SharesGrow(n, EqualShare(f.maxHP, 2 * n), 100);
    SharesAreProduct(n, 100);
  }

  /** So a fallen world boss mints at most its health, and a hundred for each hero and
      one more. */
  lemma BossHoardIsShared(purses: map<string, int>, f: Foe, after: map<string, int>)
    requires f.maxHP > 0 && |f.names| > 0
    requires Rewards(purses, f.names.Keys, BossShare(f), Crowned(TopOf(f.damage)), BossShare(f), after)
    ensures Total(after) - Total(purses) <= f.maxHP + 100 * (|f.names| + 1)
    ensures forall k :: k in purses ==> k in after && after[k] >= purses[k]
  {
    BossSharesFit(f);
    assert |f.names.Keys| == |f.names|;
    TotalRewarded(purses, f.names.Keys, BossShare(f), Crowned(TopOf(f.damage)), BossShare(f), after);
    CrownedOnce(TopOf(f.damage), BossShare(f));
  }
}
