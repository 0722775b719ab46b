/** Sums over the values of a map, and what paying into a map does to them. */
module Totals {

  /** A missing entry reads as zero, as in the store. */
  function Get<K>(m: map<K, int>, k: K): int {
    if k in m then m[k] else 0
  }

  ghost function Total<K>(m: map<K, int>): int
    decreases |m|
  {
    if m == map[] then 0 else var k :| k in m; m[k] + Total(m - {k})
  }

  lemma {:induction false} TotalSplits<K>(m: map<K, int>, k: K)
    requires k in m
    ensures Total(m) == m[k] + Total(m - {k})
    decreases |m|
  {
    var j :| j in m && Total(m) == m[j] + Total(m - {j});
    if j != k {
      TotalSplits(m - {j}, k);
      TotalSplits(m - {k}, j);
      assert (m - {j}) - {k} == (m - {k}) - {j};
    }
  }

  /** Changing one entry moves the total by as much. */
  lemma TotalPut<K>(m: map<K, int>, k: K, v: int)
    ensures Total(m[k := v]) == Total(m) - Get(m, k) + v
  {
    TotalSplits(m[k := v], k);
    if k in m {
      TotalSplits(m, k);
      assert m[k := v] - {k} == m - {k};
    } else {
      assert m[k := v] - {k} == m;
    }
  }

  /** If only one entry differs, the totals differ by as much. */
  lemma TotalDiffers<K(!new)>(a: map<K, int>, b: map<K, int>, k: K)
    requires k in a && forall j :: j in a <==> j in b
    requires forall j :: j in a && j != k ==> a[j] == b[j]
    ensures Total(b) == Total(a) - a[k] + b[k]
  {
    TotalPut(a, k, b[k]);
    assert a[k := b[k]] == b;
  }

  lemma TotalDrop<K>(m: map<K, int>, k: K)
    ensures Total(m - {k}) == Total(m) - Get(m, k)
  {
    if k in m {
      TotalSplits(m, k);
    } else {
      assert m - {k} == m;
    }
  }

  /** `paid` is `m` after every key of `keys` has been paid the same share. */
  ghost predicate Pays<K(!new)>(m: map<K, int>, keys: set<K>, share: int, paid: map<K, int>) {
    && (forall k :: k in paid <==> k in m || k in keys)
    && forall k :: k in paid ==> paid[k] == Get(m, k) + if k in keys then share else 0
  }

  lemma {:induction false} TotalPaid<K(!new)>(m: map<K, int>, keys: set<K>, share: int, paid: map<K, int>)
    requires Pays(m, keys, share, paid)
    ensures Total(paid) == Total(m) + Shares(|keys|, share)
    decreases |keys|
  {
    if keys == {} {
      assert paid == m;
    } else {
      var k :| k in keys;
      var rest, before := keys - {k}, if k in m then paid[k := m[k]] else paid - {k};
      TotalPaid(m, rest, share, before);
      TotalPut(before, k, paid[k]);
      assert paid == before[k := paid[k]];
      assert |keys| == |rest| + 1;
    }
  }

  /** What n equal shares come to. */
  function Shares(n: nat, share: int): int {
    if n == 0 then 0 else Shares(n - 1, share) + share
  }

  lemma {:induction false} SharesAreProduct(n: nat, share: int)
    ensures Shares(n, share) == n * share
  {
    if n > 0 {
      SharesAreProduct(n - 1, share);
    }
  }

  /** The keys come in any order. */
  method PayAll<K(!new,==)>(m: map<K, int>, keys: set<K>, share: int) returns (paid: map<K, int>)
    ensures Pays(m, keys, share, paid)
  {
    paid := m;
    var left := keys;
    while left != {}
      invariant left <= keys
      invariant Pays(m, keys - left, share, paid)
      decreases |left|
    {
      var k :| k in left;
      paid := paid[k := Get(paid, k) + share];
      left := left - {k};
    }
  }
}
