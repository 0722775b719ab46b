/** Drafting a quest's party from whoever is online. */
module Draft {
  import Shuffle
  import opened MapQuest
  import opened Options
  import opened Quest

  datatype Player = Player(network: string, nick: string, channel: string, key: string)

  ghost predicate Distinct(ps: seq<Player>) {
    forall i, j :: 0 <= i < j < |ps| ==> ps[i].key != ps[j].key
  }

  function Keys(ps: seq<Player>): set<string> {
    set p | p in ps :: p.key
  }

  lemma {:induction false} DistinctOnce(ps: seq<Player>, p: Player)
    requires Distinct(ps)
    ensures multiset(ps)[p] <= 1
  {
    if ps != [] {
      var n := |ps| - 1;
      DistinctOnce(ps[..n], p);
      assert ps == ps[..n] + [ps[n]];
      assert ps[n] !in ps[..n];
    }
  }

  /** Reordering distinct players leaves them distinct. */
  lemma ShuffledStaysDistinct(a: seq<Player>, b: seq<Player>)
    requires Distinct(a) && multiset(a) == multiset(b)
    ensures Distinct(b) && |b| == |a| && forall p :: p in b <==> p in a
  {
    forall p
      ensures p in b <==> p in a
    {
      assert p in b <==> p in multiset(b);
      assert p in a <==> p in multiset(a);
    }
    assert |multiset(a)| == |a| && |multiset(b)| == |b|;
    forall i, j | 0 <= i < j < |b|
      ensures b[i].key != b[j].key
    {
      assert b[i] in a && b[j] in a;
      if b[i] == b[j] {
        Shuffle.TwiceCountsTwo(b, i, j);
        DistinctOnce(a, b[i]);
      }
    }
  }

  lemma {:induction false} DistinctCount(ps: seq<Player>)
    requires Distinct(ps)
    ensures |Keys(ps)| == |ps|
  {
    if ps != [] {
      var n := |ps| - 1;
      DistinctCount(ps[..n]);
      assert Keys(ps) == Keys(ps[..n]) + {ps[n].key} by {
        assert ps == ps[..n] + [ps[n]];
      }
      assert ps[n].key !in Keys(ps[..n]);
    }
  }

  /** One player per character key, the first met. */
  method Dedup(online: seq<Player>) returns (pool: seq<Player>)
    ensures Distinct(pool) && Keys(pool) == Keys(online) && forall p :: p in pool ==> p in online
  {
    var seen: set<string> := {};
    pool := [];
    for i := 0 to |online|
      invariant Distinct(pool) && (forall p :: p in pool ==> p in online[..i])
      invariant seen == Keys(pool) == Keys(online[..i])
    {
      assert online[..i + 1] == online[..i] + [online[i]];
      if online[i].key in seen {
        continue;
      }
      seen := seen + {online[i].key};
      pool := pool + [online[i]];
    }
    assert online[..|online|] == online;
  }

  /** A party of different characters who are all online: four if there are as many,
      else all there are. */
  method DraftParty(online: seq<Player>, roll: int -> int) returns (party: seq<Player>)
    requires forall i :: 0 < i ==> 0 <= roll(i) <= i
    ensures Distinct(party) && forall p :: p in party ==> p in online
    ensures |party| == if |Keys(online)| > 4 then 4 else |Keys(online)|
  {
    var pool := Dedup(online);
    DistinctCount(pool);
    var a := new Player[|pool|](i requires 0 <= i < |pool| => pool[i]);
    assert a[..] == pool;
    Shuffle.ShuffleInPlace(a, roll);
    ShuffledStaysDistinct(pool, a[..]);
    party := if a.Length > PARTY_MAX then a[..PARTY_MAX] else a[..];
  }

  // --- The quest they are sent on ---

  const NOWHERE := Journey(0, 0, 0, 0, 0, 0, 0)

  /** The parts of a quest that are the same for every kind. */
  function NewQuest(kind: Kind, party: seq<Player>): Quest {
    Quest(kind, Keys(party), 0, 0, 0, NOWHERE)
  }

  /** The quest a party is sent on: the kind is drawn, as is the road of a map quest. */
  function QuestFor(party: seq<Player>, draw: int, end: int, road: Journey): Quest {
    if draw == 0 then NewQuest(Mapped, party).(journey := road.(stage := 0))
    else if draw == 1 then NewQuest(Hunt, party).(deadline := end, target := |party| * 4 + 6, progress := 0)
    else NewQuest(Timed, party).(deadline := end)
  }

  /** Whatever is drawn, a drafted party big enough to start begins a quest of two to four
      questers, with a target in proportion if it is a hunt, and a road on the map. */
  lemma DraftedQuestIsFresh(party: seq<Player>, draw: int, end: int, road: Journey)
    requires Distinct(party) && PARTY_MIN <= |party| <= PARTY_MAX && road.OnMap()
    ensures Fresh(QuestFor(party, draw, end, road)) && QuestFor(party, draw, end, road).members == Keys(party)
  {
    DistinctCount(party);
  }

  /** Drafts a party, and sends it on a quest if there are enough of them. */
  method StartQuest(online: seq<Player>, roll: int -> int, draw: int, end: int, road: Journey)
    returns (q: Option<Quest>)
    requires (forall i :: 0 < i ==> 0 <= roll(i) <= i) && road.OnMap()
    ensures q.Some? <==> |Keys(online)| >= 2
    ensures q.Some? ==> Fresh(q.value) && q.value.members <= Keys(online) && q.value.progress == 0
    ensures q.Some? ==> |q.value.members| == if |Keys(online)| > 4 then 4 else |Keys(online)|
    ensures q.Some? ==> match q.value.kind
                        case Mapped => draw == 0 && q.value.journey == road.(stage := 0)
                        case Hunt => draw == 1 && q.value.deadline == end && q.value.target == 4 * |q.value.members| + 6
                        case Timed => draw != 0 && draw != 1 && q.value.deadline == end
  {
    var party := DraftParty(online, roll);
    if |party| < PARTY_MIN {
      return None;
    }
    q := Some(QuestFor(party, draw, end, road));
    DistinctCount(party);
    DraftedQuestIsFresh(party, draw, end, road);
  }
}
