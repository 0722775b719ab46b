/** Shuffle bags: every pool's lines are dealt from a shuffled bag that is refilled
    only when it runs dry. Random draws come in as parameters. */
module Shuffle {

  /** The indices of a pool of n lines, in order. */
  function Indices(n: nat): (r: seq<int>)
    ensures |r| == n && forall i :: 0 <= i < n ==> r[i] == i
  {
    seq(n, i => i)
  }

  /** Each index of the pool exactly once. */
  ghost predicate IsDeck(deck: seq<int>, n: nat) {
    multiset(deck) == multiset(Indices(n))
  }

  function Swapped<T>(s: seq<T>, i: nat, j: nat): seq<T>
    requires i < |s| && j < |s|
  {
    s[i := s[j]][j := s[i]]
  }

  lemma SwapKeepsContents<T>(s: seq<T>, i: nat, j: nat)
    requires i < |s| && j < |s|
    ensures multiset(Swapped(s, i, j)) == multiset(s)
  {
  }

  method SwapPlaces<T>(a: array<T>, i: nat, j: nat)
    requires i < a.Length && j < a.Length
    modifies a
    ensures a[..] == Swapped(old(a[..]), j, i)
  {
    a[i], a[j] := a[j], a[i];
  }

  /** A draw for each position but the first, of a partner for it. */
  ghost predicate Draws(draw: int -> int, n: nat) {
    forall i :: 0 < i < n ==> 0 <= draw(i) <= i
  }

  /** What becomes of a sequence when its positions from k down to 1 change places with
      their partners. */
  ghost function Shuffled<T>(s: seq<T>, draw: int -> int, k: nat): seq<T>
    requires k == 0 || k < |s|
    requires Draws(draw, k + 1)
    decreases k
  {
    if k == 0 then s else Shuffled(Swapped(s, draw(k), k), draw, k - 1)
  }

  /** Fisher-Yates in place: `draw(i)` picks the partner of position i. */
  method ShuffleInPlace<T>(a: array<T>, draw: int -> int)
    requires Draws(draw, a.Length)
    modifies a
    ensures multiset(a[..]) == multiset(old(a[..]))
    ensures a.Length > 0 ==> a[..] == Shuffled(old(a[..]), draw, a.Length - 1)
  {
    var i := a.Length - 1;
    while i > 0
      invariant -1 <= i < a.Length && (a.Length > 0 ==> i >= 0)
      invariant multiset(a[..]) == multiset(old(a[..]))
      invariant i >= 0 ==> Shuffled(a[..], draw, i) == Shuffled(old(a[..]), draw, a.Length - 1)
    {
      var j := draw(i);
      SwapKeepsContents(a[..], j, i);
      ghost var was := a[..];
      SwapPlaces(a, i, j);
      ShuffledNext(was, draw, i);
      i := i - 1;
    }
  }

  lemma ShuffledNext<T>(s: seq<T>, draw: int -> int, k: nat)
    requires 0 < k < |s| && Draws(draw, k + 1)
    ensures Shuffled(s, draw, k) == Shuffled(Swapped(s, draw(k), k), draw, k - 1)
  {
  }

  lemma {:induction false} ShuffledKeeps<T>(s: seq<T>, draw: int -> int, k: nat)
    requires k < |s| && Draws(draw, k + 1)
    ensures |Shuffled(s, draw, k)| == |s| && forall i :: k < i < |s| ==> Shuffled(s, draw, k)[i] == s[i]
    ensures k > 0 ==> Shuffled(s, draw, k)[k] == s[draw(k)]
    decreases k
  {
    if k > 0 {
      ShuffledKeeps(Swapped(s, draw(k), k), draw, k - 1);
    }
  }

  lemma {:induction false} SameDraws<T>(s: seq<T>, d: int -> int, e: int -> int, k: nat)
    requires k < |s| && Draws(d, k + 1) && Draws(e, k + 1) && forall i :: 0 < i <= k ==> d(i) == e(i)
    ensures Shuffled(s, d, k) == Shuffled(s, e, k)
    decreases k
  {
    if k > 0 {
      SameDraws(Swapped(s, d(k), k), d, e, k - 1);
    }
  }

  lemma Cancels<T>(a: multiset<T>, b: multiset<T>, c: multiset<T>)
    requires a + c == b + c
    ensures a == b
  {
    assert a == a + c - c && b == b + c - c;
  }

  /** Where the element that is to come to position k is now. */
  lemma PartnerExists<T>(s: seq<T>, target: seq<T>, k: nat) returns (j: nat)
    requires k < |s| == |target| && multiset(s) == multiset(target) && s[k + 1..] == target[k + 1..]
    ensures j <= k && s[j] == target[k]
  {
    assert s == s[..k + 1] + s[k + 1..] && target == target[..k + 1] + target[k + 1..];
    assert multiset(s) == multiset(s[..k + 1]) + multiset(s[k + 1..]);
    assert multiset(target) == multiset(target[..k + 1]) + multiset(target[k + 1..]);
    Cancels(multiset(s[..k + 1]), multiset(target[..k + 1]), multiset(s[k + 1..]));
    assert target[..k + 1][k] in multiset(target[..k + 1]);
    j :| 0 <= j < k + 1 && s[..k + 1][j] == target[k];
  }

  lemma SwapSettles<T>(s: seq<T>, target: seq<T>, j: nat, k: nat)
    requires j <= k < |s| == |target| && multiset(s) == multiset(target) && s[k + 1..] == target[k + 1..]
    requires s[j] == target[k]
    ensures multiset(Swapped(s, j, k)) == multiset(target) && Swapped(s, j, k)[k..] == target[k..]
  {
    SwapKeepsContents(s, j, k);
    var next := Swapped(s, j, k);
    assert next[k] == target[k] && next[k + 1..] == s[k + 1..];
    assert next[k..] == [next[k]] + next[k + 1..];
    assert target[k..] == [target[k]] + target[k + 1..];
  }

  /** Every order can come out... */
  lemma {:induction false} EveryOrderComes<T>(s: seq<T>, target: seq<T>, k: nat) returns (draw: int -> int)
    requires k < |s| == |target| && multiset(s) == multiset(target) && s[k + 1..] == target[k + 1..]
    ensures Draws(draw, k + 1) && Shuffled(s, draw, k) == target
    decreases k
  {
    var j := PartnerExists(s, target, k);
    if k == 0 {
      draw := i => 0;
      assert s == [s[0]] + s[1..] && target == [target[0]] + target[1..];
    } else {
      var next := Swapped(s, j, k);
      SwapSettles(s, target, j, k);
      var rest := EveryOrderComes(next, target, k - 1);
      draw := i => if i == k then j else rest(i);
      SameDraws(next, draw, rest, k - 1);
    }
  }

  /** ... and of different elements, each order by one choice of draws only. */
  lemma {:induction false} OneWayOnly<T>(s: seq<T>, d: int -> int, e: int -> int, k: nat)
    requires k < |s| && Draws(d, k + 1) && Draws(e, k + 1) && forall i, j :: 0 <= i < j < |s| ==> s[i] != s[j]
    ensures Shuffled(s, d, k) == Shuffled(s, e, k) <==> forall i :: 0 < i <= k ==> d(i) == e(i)
    decreases k
  {
    if k > 0 {
      ShuffledKeeps(s, d, k);
      ShuffledKeeps(s, e, k);
      if d(k) == e(k) {
        OneWayOnly(Swapped(s, d(k), k), d, e, k - 1);
      }
    }
  }

  /** The indices of a pool's lines, in a new array. */
  method Pile(n: nat) returns (pile: array<int>)
    ensures fresh(pile) && pile[..] == Indices(n)
  {
    pile := new int[n];
    for i := 0 to n
      invariant forall k :: 0 <= k < i ==> pile[k] == k
    {
      pile[i] := i;
    }
  }

  // --- The bags ---

  /** Per pool: what is left in the bag, and the line dealt last. */
  datatype Bags = Bags(bags: map<string, seq<int>>, lastPick: map<string, int>)

  function BagOf(s: Bags, key: string): seq<int> {
    if key in s.bags then s.bags[key] else []
  }

  /** A freshly shuffled deck, with its next line moved away if it would repeat. */
  function Refilled(s: Bags, key: string, deck: seq<int>): seq<int> {
    var n := |deck|;
    if n > 1 && key in s.lastPick && deck[n - 1] == s.lastPick[key] then Swapped(deck, 0, n - 1) else deck
  }

  /** The line that would come again changes places with the one that would come last. */
  lemma RefilledIs(s: Bags, key: string, deck: seq<int>)
    requires deck != []
    ensures var n := |deck|;
      Refilled(s, key, deck) ==
      if n > 1 && key in s.lastPick && s.lastPick[key] == deck[n - 1]
      then [deck[n - 1]] + deck[1..n - 1] + [deck[0]]
      else deck
  {
  }

  /** Deals one line of a pool of n, opening `deck` if the bag is empty. */
  function Deal(s: Bags, key: string, n: int, deck: seq<int>): (r: (Bags, int))
    requires n > 0 ==> |deck| == n
  {
    if n <= 0 then (s, 0)
    else
      var bag := if BagOf(s, key) == [] then Refilled(s, key, deck) else BagOf(s, key);
      var idx := bag[|bag| - 1];
      (Bags(s.bags[key := bag[..|bag| - 1]], s.lastPick[key := idx]), idx)
  }

  class Engine {
    var bags: map<string, seq<int>>
    var lastPick: map<string, int>

    ghost function Model(): Bags
      reads this
    {
      Bags(bags, lastPick)
    }

    constructor ()
      ensures Model() == Bags(map[], map[])
    {
      bags := map[];
      lastPick := map[];
    }

    /** Moves the line that comes next away if it was the last one dealt. */
    method AvoidRepeat(key: string, pile: array<int>)
      modifies pile
      ensures pile[..] == Refilled(Model(), key, old(pile[..]))
    {
      var n := pile.Length;
      if n > 1 && key in lastPick && pile[n - 1] == lastPick[key] {
        SwapPlaces(pile, n - 1, 0);
      }
    }

    /** Fills and shuffles a new bag. */
    method OpenBag(key: string, n: nat, draw: int -> int) returns (bag: seq<int>, ghost deck: seq<int>)
      requires n > 0 && forall i :: 0 < i < n ==> 0 <= draw(i) <= i
      ensures |deck| == n && IsDeck(deck, n) && deck == Shuffled(Indices(n), draw, n - 1)
      ensures bag == Refilled(Model(), key, deck)
    {
      var pile := Pile(n);
      ShuffleInPlace(pile, draw);
      deck := pile[..];
      AvoidRepeat(key, pile);
      bag := pile[..];
    }

    /** The line handed out, and the deck that was opened, or would have been. */
    method NextFromBag(key: string, n: int, draw: int -> int) returns (idx: int, ghost deck: seq<int>)
      requires forall i :: 0 < i < n ==> 0 <= draw(i) <= i
      modifies this
      ensures n > 0 ==> |deck| == n && IsDeck(deck, n)
      ensures (Model(), idx) == Deal(old(Model()), key, n, deck)
      ensures n <= 0 ==> idx == 0 && Model() == old(Model())
      ensures n > 0 && BagOf(old(Model()), key) == [] ==> deck == Shuffled(Indices(n), draw, n - 1)
    {
      if n <= 0 {
        return 0, [];
      }
      deck := Indices(n);
      var bag := if key in bags then bags[key] else [];
      if |bag| == 0 {
        bag, deck := OpenBag(key, n, draw);
      }
      idx := bag[|bag| - 1];
      bags := bags[key := bag[..|bag| - 1]];
      lastPick := lastPick[key := idx];
    }
  }

  // --- Runs over many pools ---

  /** A request for a line of a pool, with the deck the shuffler would open. */
  datatype Call = Call(key: string, deck: seq<int>)

  /** The bags, and every index dealt so far, by pool. */
  datatype Run = Run(state: Bags, dealt: map<string, seq<int>>)

  function DealtFrom(r: Run, key: string): seq<int> {
    if key in r.dealt then r.dealt[key] else []
  }

  function Step(r: Run, c: Call): Run {
    var (s, idx) := Deal(r.state, c.key, |c.deck|, c.deck);
    if c.deck == [] then r else Run(s, r.dealt[c.key := DealtFrom(r, c.key) + [idx]])
  }

  function After(calls: seq<Call>): Run {
    if calls == [] then Run(Bags(map[], map[]), map[])
    else Step(After(calls[..|calls| - 1]), calls[|calls| - 1])
  }

  /** The pool behind `key` has n lines throughout, and its decks are proper. */
  ghost predicate FixedPool(calls: seq<Call>, key: string, n: nat) {
    forall i :: 0 <= i < |calls| && calls[i].key == key ==> |calls[i].deck| == n && IsDeck(calls[i].deck, n)
  }

  /** Blocks of n deals are decks, and the block under way is completed by the bag. */
  ghost predicate FairlyDealt(dealt: seq<int>, bag: seq<int>, n: nat)
    requires n > 0
    decreases |dealt|
  {
    if |dealt| >= n then IsDeck(dealt[..n], n) && FairlyDealt(dealt[n..], bag, n)
    else if dealt == [] then bag == []
    else multiset(dealt) + multiset(bag) == multiset(Indices(n))
  }

  lemma IndicesOnce(n: nat, x: int)
    ensures multiset(Indices(n))[x] == if 0 <= x < n then 1 else 0
  {
    if n > 0 {
      IndicesOnce(n - 1, x);
      assert Indices(n) == Indices(n - 1) + [n - 1];
    }
  }

  lemma TwiceCountsTwo<T>(s: seq<T>, i: nat, j: nat)
    requires i < j < |s| && s[i] == s[j]
    ensures multiset(s)[s[i]] >= 2
  {
    assert s == s[..j] + s[j..];
    assert s[i] in s[..j] && s[j] in s[j..];
  }

  lemma DeckIsDistinct(deck: seq<int>, n: nat, i: nat, j: nat)
    requires IsDeck(deck, n) && i < j < |deck|
    ensures deck[i] != deck[j]
  {
    IndicesOnce(n, deck[i]);
    if deck[i] == deck[j] {
      TwiceCountsTwo(deck, i, j);
    }
  }

  /** The line dealt last is not waiting in a bag that still holds something. */
  lemma {:induction false} LastIsSpent(dealt: seq<int>, bag: seq<int>, n: nat, idx: int)
    requires n > 0 && FairlyDealt(dealt, bag, n) && idx in bag
    ensures dealt != [] && dealt[|dealt| - 1] != idx
    decreases |dealt|
  {
    if |dealt| >= n {
      LastIsSpent(dealt[n..], bag, n, idx);
    } else {
      IndicesOnce(n, idx);
      assert idx in multiset(bag);
      assert multiset(dealt)[idx] == 0;
      assert dealt[|dealt| - 1] in multiset(dealt);
    }
  }

  lemma MoveOne(d: seq<int>, r: seq<int>, x: int)
    ensures multiset(d + [x]) + multiset(r) == multiset(d) + multiset(r + [x])
  {
  }

  lemma Sizes(d: seq<int>, r: seq<int>, n: nat)
    requires multiset(d) + multiset(r) == multiset(Indices(n))
    ensures |d| + |r| == n
  {
    assert |multiset(d) + multiset(r)| == |d| + |r|;
    assert |multiset(Indices(n))| == n;
  }

  lemma FairStepInBlock(dealt: seq<int>, rest: seq<int>, n: nat, idx: int)
    requires |dealt| < n && multiset(dealt) + multiset(rest + [idx]) == multiset(Indices(n))
    ensures FairlyDealt(dealt + [idx], rest, n)
  {
    var dealt' := dealt + [idx];
    MoveOne(dealt, rest, idx);
    Sizes(dealt', rest, n);
    if |dealt'| == n {
      assert rest == [] && dealt'[..n] == dealt' && dealt'[n..] == [];
    }
  }

  lemma {:induction false} FairStep(dealt: seq<int>, bag: seq<int>, n: nat, full: seq<int>)
    requires n > 0 && FairlyDealt(dealt, bag, n)
    requires full != [] && if bag == [] then IsDeck(full, n) else full == bag
    ensures FairlyDealt(dealt + [full[|full| - 1]], full[..|full| - 1], n)
    decreases |dealt|
  {
    var idx, rest := full[|full| - 1], full[..|full| - 1];
    assert full == rest + [idx];
    if |dealt| >= n {
      FairStep(dealt[n..], bag, n, full);
      var dealt' := dealt + [idx];
      assert dealt'[n..] == dealt[n..] + [idx] && dealt'[..n] == dealt[..n];
    } else {
      if dealt != [] {
        Sizes(dealt, bag, n);
      }
      FairStepInBlock(dealt, rest, n, idx);
    }
  }

  /** No index follows itself. */
  ghost predicate NoRepeat(dealt: seq<int>) {
    forall j :: 0 <= j < |dealt| - 1 ==> dealt[j] != dealt[j + 1]
  }

  ghost predicate PoolInOrder(r: Run, key: string, n: nat)
    requires n > 0
  {
    var dealt := DealtFrom(r, key);
    && FairlyDealt(dealt, BagOf(r.state, key), n)
    && (n > 1 ==> NoRepeat(dealt))
    && (dealt != [] ==> key in r.state.lastPick && r.state.lastPick[key] == dealt[|dealt| - 1])
  }

  lemma RefillIsDeck(s: Bags, key: string, deck: seq<int>, n: nat)
    requires n > 0 && |deck| == n && IsDeck(deck, n)
    ensures |Refilled(s, key, deck)| == n && IsDeck(Refilled(s, key, deck), n)
    ensures n > 1 && key in s.lastPick ==> Refilled(s, key, deck)[n - 1] != s.lastPick[key]
  {
    SwapKeepsContents(deck, 0, n - 1);
    if n > 1 {
      DeckIsDistinct(deck, n, 0, n - 1);
    }
  }

  lemma NextIsFresh(r: Run, key: string, n: nat, full: seq<int>)
    requires n > 1 && PoolInOrder(r, key, n) && full != []
    requires key in r.state.lastPick && BagOf(r.state, key) == [] ==> full[|full| - 1] != r.state.lastPick[key]
    requires BagOf(r.state, key) != [] ==> full == BagOf(r.state, key)
    ensures NoRepeat(DealtFrom(r, key) + [full[|full| - 1]])
  {
    var dealt, idx := DealtFrom(r, key), full[|full| - 1];
    if BagOf(r.state, key) != [] {
      assert idx in full;
      LastIsSpent(dealt, full, n, idx);
    }
  }

  lemma StepKeepsPool(r: Run, c: Call, n: nat)
    requires n > 0 && PoolInOrder(r, c.key, n)
    requires |c.deck| == n && IsDeck(c.deck, n)
    ensures PoolInOrder(Step(r, c), c.key, n)
  {
    var dealt, bag := DealtFrom(r, c.key), BagOf(r.state, c.key);
    var full := if bag == [] then Refilled(r.state, c.key, c.deck) else bag;
    RefillIsDeck(r.state, c.key, c.deck, n);
    FairStep(dealt, bag, n, full);
    if n > 1 {
      NextIsFresh(r, c.key, n, full);
    }
    var r' := Step(r, c);
    assert DealtFrom(r', c.key) == dealt + [full[|full| - 1]];
    assert BagOf(r'.state, c.key) == full[..|full| - 1];
  }

  lemma {:induction false} PoolsStayInOrder(calls: seq<Call>, key: string, n: nat)
    requires n > 0 && FixedPool(calls, key, n)
    ensures PoolInOrder(After(calls), key, n)
  {
    if calls != [] {
      var m := |calls| - 1;
      PoolsStayInOrder(calls[..m], key, n);
      if calls[m].key == key {
        StepKeepsPool(After(calls[..m]), calls[m], n);
      }
    }
  }

  lemma {:induction false} BlockAt(dealt: seq<int>, bag: seq<int>, n: nat, q: nat)
    requires n > 0 && FairlyDealt(dealt, bag, n) && q * n + n <= |dealt|
    ensures IsDeck(dealt[q * n..q * n + n], n)
    decreases q
  {
    if q == 0 {
      assert dealt[0 * n..0 * n + n] == dealt[..n];
    } else {
      assert q * n == (q - 1) * n + n;
      BlockAt(dealt[n..], bag, n, q - 1);
      assert dealt[n..][(q - 1) * n..(q - 1) * n + n] == dealt[q * n..q * n + n];
    }
  }

  lemma OneBlockLess(q: nat, n: nat)
    requires q > 0
    ensures q * n == (q - 1) * n + n >= n
  {
  }

  lemma PartialCount(dealt: seq<int>, bag: seq<int>, n: nat, x: int)
    requires |dealt| < n && FairlyDealt(dealt, bag, n) && 0 <= x < n
    ensures multiset(dealt)[x] <= 1
  {
    IndicesOnce(n, x);
    if dealt != [] {
      assert multiset(dealt)[x] <= (multiset(dealt) + multiset(bag))[x];
    }
  }

  lemma BlockCount(dealt: seq<int>, n: nat, x: int)
    requires |dealt| >= n && IsDeck(dealt[..n], n) && 0 <= x < n
    ensures multiset(dealt)[x] == 1 + multiset(dealt[n..])[x]
  {
    IndicesOnce(n, x);
    assert dealt == dealt[..n] + dealt[n..];
  }

  lemma {:induction false} CountsAreEven(dealt: seq<int>, bag: seq<int>, n: nat, x: int, q: nat)
    requires n > 0 && FairlyDealt(dealt, bag, n) && 0 <= x < n
    requires q * n <= |dealt| <= q * n + n
    ensures q <= multiset(dealt)[x] <= q + 1
    decreases |dealt|
  {
    if q > 0 {
      OneBlockLess(q, n);
    }
    if |dealt| < n {
      PartialCount(dealt, bag, n, x);
    } else {
      BlockCount(dealt, n, x);
      if q == 0 {
        assert dealt[n..] == [];
      } else {
        CountsAreEven(dealt[n..], bag, n, x, q - 1);
      }
    }
  }

  /** However the requests for pools are interleaved: in a pool of n lines every
      aligned block of n deals is a permutation of the pool; after between q*n and
      (q+1)*n deals each line has come up q or q+1 times; and with more than one
      line none comes up twice in a row, refills included. */
  lemma DealsAreFair(calls: seq<Call>, key: string, n: nat, q: nat, x: int, j: nat)
    requires n > 0 && FixedPool(calls, key, n)
    ensures var dealt := DealtFrom(After(calls), key);
      && (q * n + n <= |dealt| ==> IsDeck(dealt[q * n..q * n + n], n))
      && (0 <= x < n && q * n <= |dealt| <= q * n + n ==> q <= multiset(dealt)[x] <= q + 1)
      && (n > 1 && j + 1 < |dealt| ==> dealt[j] != dealt[j + 1])
  {
    PoolsStayInOrder(calls, key, n);
    var dealt, bag := DealtFrom(After(calls), key), BagOf(After(calls).state, key);
    if q * n + n <= |dealt| {
      BlockAt(dealt, bag, n, q);
    }
    if 0 <= x < n && q * n <= |dealt| <= q * n + n {
      CountsAreEven(dealt, bag, n, x, q);
    }
  }

  lemma {:induction false} EveryWindow(dealt: seq<int>, bag: seq<int>, n: nat, i: nat, x: int)
    requires n > 0 && FairlyDealt(dealt, bag, n) && i + 2 * n - 1 <= |dealt| && 0 <= x < n
    ensures exists j :: i <= j < i + 2 * n - 1 && dealt[j] == x
    decreases |dealt|
  {
    if i > 0 && |dealt| >= n {
      EveryWindowLater(dealt, bag, n, i, x);
    } else {
      InDeck(dealt[..n], n, x);
    }
  }

  lemma {:induction false} EveryWindowLater(dealt: seq<int>, bag: seq<int>, n: nat, i: nat, x: int)
    requires n > 0 && FairlyDealt(dealt, bag, n) && i + 2 * n - 1 <= |dealt| && 0 <= x < n && i > 0
    ensures exists j :: i <= j < i + 2 * n - 1 && dealt[j] == x
    decreases |dealt|, 0
  {
    var rest := dealt[n..];
    if i >= n {
      EveryWindow(rest, bag, n, i - n, x);
      var j :| i - n <= j < i - n + 2 * n - 1 && rest[j] == x;
      assert dealt[j + n] == x;
    } else {
      InDeck(rest[..n], n, x);
      var j :| 0 <= j < n && rest[..n][j] == x;
      assert dealt[j + n] == x;
    }
  }

  lemma InDeck(deck: seq<int>, n: nat, x: int)
    requires IsDeck(deck, n) && 0 <= x < n
    ensures exists j :: 0 <= j < |deck| && deck[j] == x
    ensures |deck| == n
  {
    IndicesOnce(n, x);
    assert x in multiset(deck);
    assert |multiset(deck)| == |deck| && |multiset(Indices(n))| == n;
  }

  /** Any 2n - 1 deals in a row, refills included, show every line of a pool of n. */
  lemma WindowsShowAll(calls: seq<Call>, key: string, n: nat, i: nat, x: int)
    requires n > 0 && FixedPool(calls, key, n) && 0 <= x < n
    requires i + 2 * n - 1 <= |DealtFrom(After(calls), key)|
    ensures x in DealtFrom(After(calls), key)[i..i + 2 * n - 1]
  {
    PoolsStayInOrder(calls, key, n);
    var dealt := DealtFrom(After(calls), key);
    EveryWindow(dealt, BagOf(After(calls).state, key), n, i, x);
    var j :| i <= j < i + 2 * n - 1 && dealt[j] == x;
    assert dealt[i..i + 2 * n - 1][j - i] == x;
  }

  /** Between the deal of a line from one deck and from the next, every other line comes up. */
  ghost predicate OthersComeFirst(a: seq<int>, b: seq<int>, i: nat, j: nat)
    requires i < |a| && j < |b|
  {
    forall y :: y in a && y != a[i] ==> y in a[i + 1..] || y in b[..j]
  }

  ghost predicate Spaced(a: seq<int>, b: seq<int>) {
    forall i, j :: 0 <= i < |a| && 0 <= j < |b| && a[i] == b[j] ==> OthersComeFirst(a, b, i, j)
  }

  lemma {:induction false} SpacedIsSame(a: seq<int>, b: seq<int>, n: nat, k: nat)
    requires IsDeck(a, n) && IsDeck(b, n) && |a| == |b| == n && k <= n
    requires Spaced(a, b)
    ensures a[..k] == b[..k]
  {
    if k > 0 {
      SpacedIsSame(a, b, n, k - 1);
      assert b[k - 1] in multiset(b);
      IndicesOnce(n, b[k - 1]);
      InDeck(a, n, b[k - 1]);
      var i :| 0 <= i < n && a[i] == b[k - 1];
      assert OthersComeFirst(a, b, i, k - 1);
      if i < k - 1 {
        assert a[..k - 1][i] == b[..k - 1][i];
        DeckIsDistinct(b, n, i, k - 1);
      } else if i > k - 1 {
        NotBetween(a, b, n, i, k - 1);
      }
    }
  }

  /** A line dealt from the first deck just where the decks part does not come up in between. */
  lemma NotBetween(a: seq<int>, b: seq<int>, n: nat, i: nat, k: nat)
    requires IsDeck(a, n) && |a| == |b| == n && k < i < n && a[..k] == b[..k]
    ensures a[k] != a[i] && a[k] !in a[i + 1..] && a[k] !in b[..k]
  {
    forall x | 0 <= x < n && x != k
      ensures a[x] != a[k]
    {
      if x < k {
        DeckIsDistinct(a, n, x, k);
      } else {
        DeckIsDistinct(a, n, k, x);
      }
    }
  }

  lemma SameIsSpaced(a: seq<int>, n: nat, i: nat, j: nat)
    requires IsDeck(a, n) && i < |a| && j < |a| && a[i] == a[j]
    ensures OthersComeFirst(a, a, i, j)
  {
    if i < j {
      DeckIsDistinct(a, n, i, j);
    } else if j < i {
      DeckIsDistinct(a, n, j, i);
    }
  }

  lemma DecksSpacedIff(a: seq<int>, b: seq<int>, n: nat)
    requires IsDeck(a, n) && IsDeck(b, n) && |a| == |b| == n
    ensures Spaced(a, b) <==> a == b
  {
    if Spaced(a, b) {
      SpacedIsSame(a, b, n, n);
      assert a[..n] == a && b[..n] == b;
    }
    if a == b {
      forall i, j | 0 <= i < n && 0 <= j < n && a[i] == b[j]
        ensures OthersComeFirst(a, b, i, j)
      {
        SameIsSpaced(a, n, i, j);
      }
    }
  }

  // --- Bags as they are dealt ---

  lemma DealsNext(r: Run, c: Call, bag: seq<int>)
    requires c.deck != []
    requires bag == if BagOf(r.state, c.key) == [] then Refilled(r.state, c.key, c.deck) else BagOf(r.state, c.key)
    ensures |bag| > 0 && BagOf(Step(r, c).state, c.key) == bag[..|bag| - 1]
    ensures DealtFrom(Step(r, c), c.key) == DealtFrom(r, c.key) + [bag[|bag| - 1]]
    ensures Step(r, c).state.lastPick == r.state.lastPick[c.key := bag[|bag| - 1]]
  {
  }

  lemma OtherPoolDeals(r: Run, c: Call, key: string)
    requires c.key != key
    ensures DealtFrom(Step(r, c), key) == DealtFrom(r, key)
    ensures BagOf(Step(r, c).state, key) == BagOf(r.state, key)
  {
  }

  function Fold<S, C>(step: (S, C) -> S, s: S, cs: seq<C>): S {
    if cs == [] then s else step(Fold(step, s, cs[..|cs| - 1]), cs[|cs| - 1])
  }

  lemma {:induction false} FoldJoins<S, C>(step: (S, C) -> S, s: S, a: seq<C>, b: seq<C>)
    ensures Fold(step, s, a + b) == Fold(step, Fold(step, s, a), b)
  {
    if b == [] {
      assert a + b == a;
    } else {
      var m := |b| - 1;
      FoldJoins(step, s, a, b[..m]);
      assert (a + b)[..|a| + m] == a + b[..m];
    }
  }

  lemma {:induction false} AfterIsFold(calls: seq<Call>)
    ensures After(calls) == Fold(Step, After([]), calls)
  {
    if calls != [] {
      AfterIsFold(calls[..|calls| - 1]);
    }
  }

  /** The run goes on with some more requests. */
  function PlayOn(r: Run, more: seq<Call>): Run {
    Fold(Step, r, more)
  }

  lemma NextRun(calls: seq<Call>, c: Call)
    ensures After(calls + [c]) == Step(After(calls), c)
  {
    assert (calls + [c])[..|calls|] == calls;
  }

  lemma AfterOpening(calls: seq<Call>, c: Call, more: seq<Call>)
    ensures After(calls + [c] + more) == PlayOn(Step(After(calls), c), more)
  {
    NextRun(calls, c);
    AfterIsFold(calls + [c]);
    AfterIsFold(calls + [c] + more);
    FoldJoins(Step, After([]), calls + [c], more);
  }

  /** The requests for one pool. */
  function Only(calls: seq<Call>, key: string): seq<Call> {
    if calls == [] then []
    else
      var m := |calls| - 1;
      Only(calls[..m], key) + if calls[m].key == key then [calls[m]] else []
  }

  function Reversed(s: seq<int>): (r: seq<int>)
    ensures |r| == |s| && forall i :: 0 <= i < |s| ==> r[i] == s[|s| - 1 - i]
  {
    seq(|s|, i requires 0 <= i < |s| => s[|s| - 1 - i])
  }

  lemma ReversedBack(a: seq<int>, b: seq<int>)
    ensures a == Reversed(b) <==> b == Reversed(a)
  {
    if a == Reversed(b) {
      assert forall i :: 0 <= i < |b| ==> b[i] == a[|b| - 1 - i];
    }
    if b == Reversed(a) {
      assert forall i :: 0 <= i < |a| ==> a[i] == b[|a| - 1 - i];
    }
  }

  /** The pool has dealt k of a bag, from its tail, since it had dealt `before`. */
  ghost predicate DealtSince(r: Run, key: string, before: seq<int>, bag: seq<int>, k: nat) {
    && k <= |bag|
    && DealtFrom(r, key) == before + Reversed(bag)[..k]
    && BagOf(r.state, key) == bag[..|bag| - k]
  }

  lemma DealsOneOfBag(r: Run, c: Call, before: seq<int>, bag: seq<int>, k: nat)
    requires c.deck != [] && k < |bag| && DealtSince(r, c.key, before, bag, k)
    ensures DealtSince(Step(r, c), c.key, before, bag, k + 1)
  {
    DealsNext(r, c, bag[..|bag| - k]);
    assert Reversed(bag)[..k + 1] == Reversed(bag)[..k] + [bag[|bag| - k - 1]];
  }

  lemma BagStep(r: Run, c: Call, key: string, before: seq<int>, bag: seq<int>, k: nat)
    requires DealtSince(r, key, before, bag, k) && (c.key == key ==> c.deck != [] && k < |bag|)
    ensures DealtSince(Step(r, c), key, before, bag, if c.key == key then k + 1 else k)
  {
    if c.key == key {
      DealsOneOfBag(r, c, before, bag, k);
    } else {
      OtherPoolDeals(r, c, key);
    }
  }

  lemma FixedBefore(more: seq<Call>, key: string, n: nat, most: seq<Call>, c: Call)
    requires more != [] && FixedPool(more, key, n) && most == more[..|more| - 1] && c == more[|more| - 1]
    ensures FixedPool(most, key, n) && (c.key == key ==> |c.deck| == n)
    ensures |Only(more, key)| == |Only(most, key)| + if c.key == key then 1 else 0
  {
  }

  /** A bag is dealt from its tail, whatever other pools deal in between. */
  lemma {:induction false} BagIsDealt(r: Run, key: string, n: nat, more: seq<Call>, before: seq<int>, bag: seq<int>,
                                      k: nat)
    requires n > 0 && FixedPool(more, key, n) && DealtSince(r, key, before, bag, k)
    requires k + |Only(more, key)| <= |bag|
    ensures DealtSince(PlayOn(r, more), key, before, bag, k + |Only(more, key)|)
    decreases |more|
  {
    if more != [] {
      var most, c := more[..|more| - 1], more[|more| - 1];
      FixedBefore(more, key, n, most, c);
      BagIsDealt(r, key, n, most, before, bag, k);
      BagStep(PlayOn(r, most), c, key, before, bag, k + |Only(most, key)|);
    }
  }

  /** With its bag empty, a pool has dealt whole decks. */
  lemma {:induction false} LastBlockIsDeck(dealt: seq<int>, n: nat)
    requires n > 0 && FairlyDealt(dealt, [], n) && dealt != []
    ensures |dealt| >= n && IsDeck(dealt[|dealt| - n..], n)
    decreases |dealt|
  {
    if |dealt| >= n && dealt[n..] != [] {
      LastBlockIsDeck(dealt[n..], n);
      assert dealt[n..][|dealt| - n - n..] == dealt[|dealt| - n..];
    } else if |dealt| < n {
      Sizes(dealt, [], n);
    } else {
      assert dealt[|dealt| - n..] == dealt[..n];
    }
  }

  lemma ReversedIsDeck(deck: seq<int>, n: nat)
    requires IsDeck(deck, n)
    ensures IsDeck(Reversed(deck), n)
  {
    ReversedKeeps(deck);
  }

  lemma {:induction false} ReversedKeeps(s: seq<int>)
    ensures multiset(Reversed(s)) == multiset(s)
  {
    if s != [] {
      ReversedKeeps(s[1..]);
      assert Reversed(s) == Reversed(s[1..]) + [s[0]];
      assert s == [s[0]] + s[1..];
    }
  }

  lemma OpenedIsDealt(r: Run, c: Call, more: seq<Call>, n: nat, bag: seq<int>)
    requires n > 0 && |c.deck| == n && FixedPool(more, c.key, n) && |Only(more, c.key)| == n - 1
    requires BagOf(r.state, c.key) == [] && bag == Refilled(r.state, c.key, c.deck)
    ensures DealtFrom(PlayOn(Step(r, c), more), c.key) == DealtFrom(r, c.key) + Reversed(bag)
  {
    DealsNext(r, c, bag);
    assert Reversed(bag)[..1] == [bag[n - 1]];
    BagIsDealt(Step(r, c), c.key, n, more, DealtFrom(r, c.key), bag, 1);
    assert Reversed(bag)[..n] == Reversed(bag);
  }

  lemma DeckThenBag(last: seq<int>, bag: seq<int>, n: nat)
    requires IsDeck(last, n) && IsDeck(bag, n) && |last| == |bag| == n
    ensures Spaced(last, Reversed(bag)) <==> bag == Reversed(last)
  {
    ReversedIsDeck(bag, n);
    DecksSpacedIff(last, Reversed(bag), n);
    ReversedBack(last, bag);
  }

  /** A pool has dealt `before`, then a bag, and now `dealt` in all: across the refill the
      lines are spaced exactly if the bag is the deck before it backwards. */
  ghost predicate SpacedIffRepeats(before: seq<int>, bag: seq<int>, dealt: seq<int>, n: nat) {
    && n <= |before| == |dealt| - n
    && (Spaced(before[|before| - n..], dealt[|before|..]) <==> bag == Reversed(before[|before| - n..]))
  }

  lemma DealtBagSpacedIff(before: seq<int>, bag: seq<int>, dealt: seq<int>, n: nat)
    requires n <= |before| && IsDeck(before[|before| - n..], n) && |bag| == n && IsDeck(bag, n)
    requires dealt == before + Reversed(bag)
    ensures SpacedIffRepeats(before, bag, dealt, n)
  {
    assert dealt[|before|..] == Reversed(bag);
    DeckThenBag(before[|before| - n..], bag, n);
  }

  ghost predicate EndsInDeck(dealt: seq<int>, n: nat) {
    n <= |dealt| && IsDeck(dealt[|dealt| - n..], n)
  }

  lemma EmptyBagEndsDeck(r: Run, key: string, n: nat)
    requires n > 0 && PoolInOrder(r, key, n) && BagOf(r.state, key) == [] && DealtFrom(r, key) != []
    ensures EndsInDeck(DealtFrom(r, key), n)
  {
    LastBlockIsDeck(DealtFrom(r, key), n);
  }

  lemma NextBagSpacedIff(r: Run, c: Call, more: seq<Call>, n: nat, bag: seq<int>)
    requires n > 0 && FixedPool(more, c.key, n) && |c.deck| == n && IsDeck(c.deck, n)
    requires BagOf(r.state, c.key) == [] && EndsInDeck(DealtFrom(r, c.key), n) && |Only(more, c.key)| == n - 1
    requires bag == Refilled(r.state, c.key, c.deck)
    ensures SpacedIffRepeats(DealtFrom(r, c.key), bag, DealtFrom(PlayOn(Step(r, c), more), c.key), n)
  {
    RefillIsDeck(r.state, c.key, c.deck, n);
    OpenedIsDealt(r, c, more, n, bag);
    DealtBagSpacedIff(DealtFrom(r, c.key), bag, DealtFrom(PlayOn(Step(r, c), more), c.key), n);
  }

  lemma PoolEndsInDeck(calls: seq<Call>, key: string, n: nat)
    requires n > 0 && FixedPool(calls, key, n)
    requires BagOf(After(calls).state, key) == [] && DealtFrom(After(calls), key) != []
    ensures EndsInDeck(DealtFrom(After(calls), key), n)
  {
    PoolsStayInOrder(calls, key, n);
    EmptyBagEndsDeck(After(calls), key, n);
  }

  /** When a pool opens its next bag, all the other lines will come up between the last deal
      of a line and the next one exactly if the bag, which is dealt from its tail, is what
      was dealt last backwards, and so repeats its order. */
  lemma OthersComeFirstIff(calls: seq<Call>, c: Call, more: seq<Call>, n: nat, bag: seq<int>)
    requires n > 0 && FixedPool(calls, c.key, n) && FixedPool(more, c.key, n) && |c.deck| == n && IsDeck(c.deck, n)
    requires BagOf(After(calls).state, c.key) == [] && DealtFrom(After(calls), c.key) != []
    requires |Only(more, c.key)| == n - 1 && bag == Refilled(After(calls).state, c.key, c.deck)
    ensures SpacedIffRepeats(DealtFrom(After(calls), c.key), bag, DealtFrom(After(calls + [c] + more), c.key), n)
  {
    PoolEndsInDeck(calls, c.key, n);
    AfterOpening(calls, c, more);
    NextBagSpacedIff(After(calls), c, more, n, bag);
  }

  lemma PermutationsOfThree()
    ensures IsDeck([2, 1, 0], 3) && IsDeck([2, 0, 1], 3)
  {
    assert Indices(3) == [0, 1, 2];
  }

  lemma ThreeDeals(first: Call) returns (calls: seq<Call>)
    requires first == Call("", [2, 1, 0])
    ensures calls == [first, first, first] && DealtFrom(After(calls), "") == [0, 1, 2]
    ensures BagOf(After(calls).state, "") == [] && "" in After(calls).state.lastPick
    ensures After(calls).state.lastPick[""] == 2
  {
    var once, twice := [first], [first] + [first];
    calls := twice + [first];
    assert [] + [first] == once;
    NextRun([], first);
    NextRun(once, first);
    NextRun(twice, first);
    DealsNext(After([]), first, [2, 1, 0]);
    DealsNext(After(once), first, [2, 1]);
    DealsNext(After(twice), first, [2]);
  }

  /** And it need not be: across a refill, line 1 of three comes again with only line 2
      in between. */
  lemma OthersNeedNotComeFirst() returns (calls: seq<Call>)
    ensures FixedPool(calls, "", 3) && DealtFrom(After(calls), "") == [0, 1, 2, 1]
  {
    var first, second := Call("", [2, 1, 0]), Call("", [2, 0, 1]);
    PermutationsOfThree();
    var thrice := ThreeDeals(first);
    calls := thrice + [second];
    NextRun(thrice, second);
    DealsNext(After(thrice), second, [2, 0, 1]);
  }

  ghost predicate SamePool(r: Run, s: Run, key: string) {
    && DealtFrom(r, key) == DealtFrom(s, key)
    && BagOf(r.state, key) == BagOf(s.state, key)
    && (key in r.state.lastPick <==> key in s.state.lastPick)
    && (key in r.state.lastPick ==> r.state.lastPick[key] == s.state.lastPick[key])
  }

  lemma StepsAlike(r: Run, s: Run, c: Call, key: string)
    requires SamePool(r, s, key)
    ensures c.key == key ==> SamePool(Step(r, c), Step(s, c), key)
    ensures c.key != key ==> SamePool(Step(r, c), s, key)
  {
  }

  /** Pools do not disturb each other: what one deals, and what it has left, is what
      it would have dealt on its own. */
  lemma {:induction false} PoolsAreIndependent(calls: seq<Call>, key: string)
    ensures SamePool(After(calls), After(Only(calls, key)), key)
  {
    if calls != [] {
      var m := |calls| - 1;
      PoolsAreIndependent(calls[..m], key);
      var mine := Only(calls[..m], key);
      StepsAlike(After(calls[..m]), After(mine), calls[m], key);
      assert (mine + [calls[m]])[..|mine|] == mine;
      assert mine + [] == mine;
    }
  }
}
