/** The order-N chain: learning fills a table from the last N tokens to the tokens
    that followed them, generating walks it. Lines come in as words; the random
    draws come in as a function. */
module Markov {

  const START_TOK: string := "\U{0001}"
  const END_TOK: string := "\U{0002}"
  const SEP: char := '\U{0000}'

  type Order = n: nat | n > 0 witness 1

  type Links = map<string, seq<string>>

  /** Joins the tokens with a separator. */
  function KeyOf(words: seq<string>): string {
    if words == [] then ""
    else if |words| == 1 then words[0]
    else words[0] + [SEP] + KeyOf(words[1..])
  }

  function Starts(order: nat): (s: seq<string>)
    ensures |s| == order && forall i :: 0 <= i < order ==> s[i] == "\U{0001}"
  {
    seq(order, _ => START_TOK)
  }

  /** The line as it is learned: N start tokens, the words, an end token. */
  function Padded(words: seq<string>, order: nat): (p: seq<string>)
    ensures |p| == order + |words| + 1
  {
    Starts(order) + words + [END_TOK]
  }

  function OptionsOf(links: Links, key: string): seq<string> {
    if key in links then links[key] else []
  }

  /** The N tokens at position i. */
  function Window(p: seq<string>, i: nat, order: nat): seq<string>
    requires i + order <= |p|
  {
    p[i..i + order]
  }

  /** The table after the first n windows of a padded line. */
  function WithWindows(links: Links, p: seq<string>, order: nat, n: nat): Links
    requires n + order <= |p|
  {
    if n == 0 then links
    else
      var before := WithWindows(links, p, order, n - 1);
      var k := KeyOf(Window(p, n - 1, order));
      before[k := OptionsOf(before, k) + [p[n - 1 + order]]]
  }

  function WithLine(links: Links, words: seq<string>, order: nat): Links {
    if words == [] then links
    else WithWindows(links, Padded(words, order), order, |words| + 1)
  }

  lemma {:induction false} WindowsOnlyAdd(links: Links, p: seq<string>, order: nat, n: nat)
    requires n + order <= |p|
    ensures forall k :: OptionsOf(links, k) <= OptionsOf(WithWindows(links, p, order, n), k)
  {
    if n > 0 {
      WindowsOnlyAdd(links, p, order, n - 1);
    }
  }

  /** What was recorded before stays, and comes first. */
  lemma LearningOnlyAdds(links: Links, words: seq<string>, order: nat, k: string)
    ensures OptionsOf(links, k) <= OptionsOf(WithLine(links, words, order), k)
    ensures words == [] ==> WithLine(links, words, order) == links
  {
    if words != [] {
      WindowsOnlyAdd(links, Padded(words, order), order, |words| + 1);
    }
  }

  class Chain {
    const order: Order
    var links: Links

    constructor (order: int)
      ensures this.order == (if order < 1 then 2 else order) && links == map[]
    {
      this.order := if order < 1 then 2 else order;
      links := map[];
    }

    method Learn(words: seq<string>)
      modifies this
      ensures links == WithLine(old(links), words, order)
    {
      if |words| == 0 {
        return;
      }
      var p := [];
      for i := 0 to order
        invariant p == Starts(i)
      {
        p := p + [START_TOK];
      }
      p := p + words;
      p := p + [END_TOK];
      assert p == Padded(words, order);
      var i := 0;
      while i + order < |p|
        invariant 0 <= i <= |p| - order
        invariant links == WithWindows(old(links), p, order, i)
      {
        var k := KeyOf(Window(p, i, order));
        links := links[k := (if k in links then links[k] else []) + [p[i + order]]];
        i := i + 1;
      }
    }

    /** The generated words; `draw(round, n)` picks one of n options. */
    method Generate(draw: (nat, nat) -> nat, maxWords: int) returns (out: seq<string>)
      requires forall round, n: nat :: n > 0 ==> draw(round, n) < n
      ensures IsWalk(links, order, out)
      ensures |out| <= if maxWords <= 0 then 30 else maxWords
      ensures |out| < Limit(maxWords) ==> HasEnded(links, order, out)
      ensures forall i :: 0 <= i < |out| ==> Drawn(links, order, out[..i], draw) == out[i]
      ensures |out| < Limit(maxWords) && OptionsOf(links, KeyOf(StateAfter(out, order))) != [] ==>
        Drawn(links, order, out, draw) == "\U{0002}"
    {
      var limit := if maxWords <= 0 then 30 else maxWords;
      if |links| == 0 {
        return [];
      }
      var state := Starts(order);
      out := [];
      while |out| < limit
        invariant |out| <= limit
        invariant state == StateAfter(out, order)
        invariant IsWalk(links, order, out)
        invariant forall i :: 0 <= i < |out| ==> Drawn(links, order, out[..i], draw) == out[i]
      {
        var k := KeyOf(state);
        var opts := if k in links then links[k] else [];
        if |opts| == 0 {
          break;
        }
        var next := opts[draw(|out|, |opts|)];
        if next == END_TOK {
          break;
        }
        WalkGrows(links, order, out, next);
        StateShifts(out, order, next);
        DrawsGrow(links, order, out, draw, next);
        out := out + [next];
        state := state[1..] + [next];
      }
    }
  }

  /** What is drawn after some words: of the options there, the one at the place drawn. */
  function Drawn(links: Links, order: nat, said: seq<string>, draw: (nat, nat) -> nat): string
    requires forall round, n: nat :: n > 0 ==> draw(round, n) < n
  {
    var opts := OptionsOf(links, KeyOf(StateAfter(said, order)));
    if opts == [] then END_TOK else opts[draw(|said|, |opts|)]
  }

  lemma DrawsGrow(links: Links, order: nat, out: seq<string>, draw: (nat, nat) -> nat, next: string)
    requires forall round, n: nat :: n > 0 ==> draw(round, n) < n
    requires forall i :: 0 <= i < |out| ==> Drawn(links, order, out[..i], draw) == out[i]
    requires Drawn(links, order, out, draw) == next
    ensures var more := out + [next];
      forall i :: 0 <= i < |more| ==> Drawn(links, order, more[..i], draw) == more[i]
  {
    var more := out + [next];
    forall i | 0 <= i < |more|
      ensures Drawn(links, order, more[..i], draw) == more[i]
    {
      assert more[..i] == if i < |out| then out[..i] else out;
    }
  }

  function Limit(maxWords: int): nat {
    if maxWords <= 0 then 30 else maxWords
  }

  /** The last N tokens once `out` has been produced. */
  function StateAfter(out: seq<string>, order: nat): (s: seq<string>)
    ensures |s| == order
  {
    (Starts(order) + out)[|out|..]
  }

  /** Every word of the output was an option in the state before it, and none of
      them is the end token. */
  ghost predicate IsWalk(links: Links, order: nat, out: seq<string>) {
    if out == [] then true
    else
      var n := |out| - 1;
      IsWalk(links, order, out[..n]) && IsOption(links, order, out[..n], out[n])
  }

  ghost predicate IsOption(links: Links, order: nat, said: seq<string>, next: string) {
    next != END_TOK && next in OptionsOf(links, KeyOf(StateAfter(said, order)))
  }

  /** The state reached is a place to stop: the end token is an option, or there is
      none at all. */
  ghost predicate HasEnded(links: Links, order: nat, out: seq<string>) {
    var opts := OptionsOf(links, KeyOf(StateAfter(out, order)));
    opts == [] || END_TOK in opts
  }

  lemma StateShifts(out: seq<string>, order: nat, next: string)
    requires order > 0
    ensures StateAfter(out + [next], order) == StateAfter(out, order)[1..] + [next]
  {
    assert Starts(order) + (out + [next]) == Starts(order) + out + [next];
  }

  lemma WalkGrows(links: Links, order: nat, out: seq<string>, next: string)
    requires IsWalk(links, order, out) && IsOption(links, order, out, next)
    ensures IsWalk(links, order, out + [next])
  {
    assert (out + [next])[..|out|] == out;
  }

  /** The beginning of a walk is one, and the word after it was an option there. */
  lemma {:induction false} WalkPrefix(links: Links, order: nat, out: seq<string>, n: nat)
    requires IsWalk(links, order, out) && n <= |out|
    ensures IsWalk(links, order, out[..n])
    ensures n < |out| ==> IsOption(links, order, out[..n], out[n])
  {
    if n < |out| {
      WalkPrefix(links, order, out[..|out| - 1], n);
      assert out[..|out| - 1][..n] == out[..n];
    } else {
      assert out[..n] == out;
    }
  }

  // --- Keys ---

  ghost predicate NulFree(words: seq<string>) {
    forall i :: 0 <= i < |words| ==> '\U{0000}' !in words[i]
  }

  lemma SplitAtSep(a: string, x: string, b: string, y: string)
    requires SEP !in a && SEP !in b
    requires a + [SEP] + x == b + [SEP] + y
    ensures a == b && x == y
  {
    var s, t := a + [SEP] + x, b + [SEP] + y;
    assert s[|a|] == SEP && forall i :: 0 <= i < |a| ==> s[i] == a[i];
    assert t[|b|] == SEP && forall i :: 0 <= i < |b| ==> t[i] == b[i];
    assert |a| == |b|;
    assert s[..|a|] == a && s[|a| + 1..] == x;
    assert t[..|b|] == b && t[|b| + 1..] == y;
  }

  /** On tokens without the separator, equal keys come from equal states. */
  lemma {:induction false} KeyIsInjective(a: seq<string>, b: seq<string>)
    requires |a| == |b| && NulFree(a) && NulFree(b)
    ensures KeyOf(a) == KeyOf(b) <==> a == b
  {
    if |a| > 1 && KeyOf(a) == KeyOf(b) {
      SplitAtSep(a[0], KeyOf(a[1..]), b[0], KeyOf(b[1..]));
      KeyIsInjective(a[1..], b[1..]);
      assert a == [a[0]] + a[1..] && b == [b[0]] + b[1..];
    }
  }

  // --- What the table holds ---

  /** The tokens that follow the state w among the first n windows of p, in order. */
  function FollowersIn(p: seq<string>, order: nat, w: seq<string>, n: nat): seq<string>
    requires n + order <= |p|
  {
    if n == 0 then []
    else FollowersIn(p, order, w, n - 1) + if Window(p, n - 1, order) == w then [p[n - 1 + order]] else []
  }

  /** The tokens that follow w in the learned lines, one for every occurrence. */
  function Followers(lines: seq<seq<string>>, order: nat, w: seq<string>): seq<string> {
    if lines == [] then []
    else
      var last := lines[|lines| - 1];
      Followers(lines[..|lines| - 1], order, w) +
        if last == [] then [] else FollowersIn(Padded(last, order), order, w, |last| + 1)
  }

  /** The table after learning the lines one by one. */
  function TableOf(lines: seq<seq<string>>, order: nat): Links {
    if lines == [] then map[]
    else WithLine(TableOf(lines[..|lines| - 1], order), lines[|lines| - 1], order)
  }

  ghost predicate NulFreeLines(lines: seq<seq<string>>) {
    forall l :: 0 <= l < |lines| ==> NulFree(lines[l])
  }

  lemma PaddedIsNulFree(words: seq<string>, order: nat)
    requires NulFree(words)
    ensures NulFree(Padded(words, order))
  {
  }

  lemma OneMoreOption(links: Links, here: string, k: string, t: string)
    ensures OptionsOf(links[here := OptionsOf(links, here) + [t]], k) ==
            OptionsOf(links, k) + if here == k then [t] else []
  {
  }

  lemma Regrouped(a: seq<string>, b: seq<string>, c: seq<string>)
    ensures (a + b) + c == a + (b + c)
  {
  }

  lemma {:induction false} WindowsAddFollowers(links: Links, p: seq<string>, order: nat, w: seq<string>, n: nat)
    requires n + order <= |p| && |w| == order && NulFree(p) && NulFree(w)
    ensures OptionsOf(WithWindows(links, p, order, n), KeyOf(w)) ==
            OptionsOf(links, KeyOf(w)) + FollowersIn(p, order, w, n)
  {
    if n > 0 {
      WindowsAddFollowers(links, p, order, w, n - 1);
      var before, here := WithWindows(links, p, order, n - 1), Window(p, n - 1, order);
      KeyIsInjective(here, w);
      OneMoreOption(before, KeyOf(here), KeyOf(w), p[n - 1 + order]);
      var more := if here == w then [p[n - 1 + order]] else [];
      Regrouped(OptionsOf(links, KeyOf(w)), FollowersIn(p, order, w, n - 1), more);
    }
  }

  /** The table is exactly the record of what followed what: under a state's key lie
      the tokens that followed that state, once per occurrence. */
  lemma {:induction false} TableRecordsFollowers(lines: seq<seq<string>>, order: nat, w: seq<string>)
    requires NulFreeLines(lines) && |w| == order && NulFree(w)
    ensures OptionsOf(TableOf(lines, order), KeyOf(w)) == Followers(lines, order, w)
  {
    if lines != [] {
      var n := |lines| - 1;
      TableRecordsFollowers(lines[..n], order, w);
      if lines[n] != [] {
        PaddedIsNulFree(lines[n], order);
        WindowsAddFollowers(TableOf(lines[..n], order), Padded(lines[n], order), order, w, |lines[n]| + 1);
      }
    }
  }

  /** The state w stands at position i of p, followed by t. */
  ghost predicate StandsAt(p: seq<string>, order: nat, w: seq<string>, t: string, i: nat) {
    i + order < |p| && Window(p, i, order) == w && p[i + order] == t
  }

  /** The state w, followed by t, stands in some learned line. */
  ghost predicate Occurs(lines: seq<seq<string>>, order: nat, w: seq<string>, t: string) {
    exists l: nat, i: nat :: OccursAt(lines, order, w, t, l, i)
  }

  ghost predicate OccursAt(lines: seq<seq<string>>, order: nat, w: seq<string>, t: string, l: nat, i: nat) {
    l < |lines| && lines[l] != [] && StandsAt(Padded(lines[l], order), order, w, t, i)
  }

  lemma {:induction false} FollowerHasPlace(p: seq<string>, order: nat, w: seq<string>, n: nat, t: string)
    requires n + order <= |p|
    ensures t in FollowersIn(p, order, w, n) <==> exists i: nat :: i < n && StandsAt(p, order, w, t, i)
  {
    if n > 0 {
      FollowerHasPlace(p, order, w, n - 1, t);
      var here := if Window(p, n - 1, order) == w then [p[n - 1 + order]] else [];
      assert t in here <==> StandsAt(p, order, w, t, n - 1);
      assert t in FollowersIn(p, order, w, n) <==> t in FollowersIn(p, order, w, n - 1) || t in here;
    }
  }

  ghost predicate Stands(p: seq<string>, order: nat, w: seq<string>, t: string) {
    exists i: nat :: StandsAt(p, order, w, t, i)
  }

  lemma OccursInLastOrBefore(lines: seq<seq<string>>, order: nat, w: seq<string>, t: string)
    requires lines != []
    ensures var n := |lines| - 1;
      Occurs(lines, order, w, t) <==>
        Occurs(lines[..n], order, w, t) || (lines[n] != [] && Stands(Padded(lines[n], order), order, w, t))
  {
    var n := |lines| - 1;
    if l: nat, i: nat :| OccursAt(lines[..n], order, w, t, l, i) {
      assert OccursAt(lines, order, w, t, l, i);
    }
    if l: nat, i: nat :| OccursAt(lines, order, w, t, l, i) {
      assert l < n ==> OccursAt(lines[..n], order, w, t, l, i);
    }
    if i: nat :| lines[n] != [] && StandsAt(Padded(lines[n], order), order, w, t, i) {
      assert OccursAt(lines, order, w, t, n, i);
    }
  }

  lemma {:induction false} FollowersOccur(lines: seq<seq<string>>, order: nat, w: seq<string>, t: string)
    ensures t in Followers(lines, order, w) <==> Occurs(lines, order, w, t)
  {
    if lines != [] {
      var n := |lines| - 1;
      FollowersOccur(lines[..n], order, w, t);
      OccursInLastOrBefore(lines, order, w, t);
      if lines[n] != [] {
        LastWindows(lines[n], order, w, t);
      }
    }
  }

  lemma LastWindows(words: seq<string>, order: nat, w: seq<string>, t: string)
    ensures var p := Padded(words, order);
      t in FollowersIn(p, order, w, |words| + 1) <==> Stands(p, order, w, t)
  {
    FollowerHasPlace(Padded(words, order), order, w, |words| + 1, t);
  }

  // --- How often ---

  ghost function Places(p: seq<string>, order: nat, w: seq<string>, t: string, n: nat): set<nat> {
    set i: nat | i < n && StandsAt(p, order, w, t, i)
  }

  lemma PlacesOneMore(p: seq<string>, order: nat, w: seq<string>, t: string, n: nat)
    ensures |Places(p, order, w, t, n + 1)| ==
            |Places(p, order, w, t, n)| + if StandsAt(p, order, w, t, n) then 1 else 0
  {
    if StandsAt(p, order, w, t, n) {
      assert Places(p, order, w, t, n + 1) == Places(p, order, w, t, n) + {n};
    } else {
      assert Places(p, order, w, t, n + 1) == Places(p, order, w, t, n);
    }
  }

  lemma CountedOneMore(a: seq<string>, more: seq<string>, t: string)
    requires |more| <= 1
    ensures multiset(a + more)[t] == multiset(a)[t] + if more == [t] then 1 else 0
  {
  }

  /** A token lies under a state once for every place where it followed it. */
  lemma {:induction false} FollowersAreCounted(p: seq<string>, order: nat, w: seq<string>, n: nat, t: string)
    requires n + order <= |p|
    ensures multiset(FollowersIn(p, order, w, n))[t] == |Places(p, order, w, t, n)|
  {
    if n > 0 {
      FollowersAreCounted(p, order, w, n - 1, t);
      PlacesOneMore(p, order, w, t, n - 1);
      var more := if Window(p, n - 1, order) == w then [p[n - 1 + order]] else [];
      assert more == [t] <==> StandsAt(p, order, w, t, n - 1);
      CountedOneMore(FollowersIn(p, order, w, n - 1), more, t);
    }
  }

  /** And each line adds its own. */
  lemma FollowersAddUp(lines: seq<seq<string>>, line: seq<string>, order: nat, w: seq<string>, t: string)
    ensures multiset(Followers(lines + [line], order, w))[t] ==
            multiset(Followers(lines, order, w))[t] +
            if line == [] then 0 else |Places(Padded(line, order), order, w, t, |line| + 1)|
    ensures Followers([], order, w) == []
  {
    assert (lines + [line])[..|lines|] == lines;
    if line != [] {
      FollowersAreCounted(Padded(line, order), order, w, |line| + 1, t);
    }
  }

  // --- Closure ---

  lemma StandsNext(p: seq<string>, order: nat, w: seq<string>, t: string, i: nat)
    requires order > 0 && |w| == order && StandsAt(p, order, w, t, i) && i + 1 + order < |p|
    ensures StandsAt(p, order, w[1..] + [t], p[i + 1 + order], i + 1)
  {
    assert Window(p, i + 1, order) == Window(p, i, order)[1..] + [p[i + order]];
  }

  /** A token other than the end token leads to a state that has followers itself. */
  lemma FollowerLeadsOn(lines: seq<seq<string>>, order: nat, w: seq<string>, t: string)
    requires order > 0 && |w| == order
    requires t in Followers(lines, order, w) && t != END_TOK
    ensures Followers(lines, order, w[1..] + [t]) != []
  {
    FollowersOccur(lines, order, w, t);
    var l: nat, i: nat :| OccursAt(lines, order, w, t, l, i);
    var p := Padded(lines[l], order);
    assert p[|p| - 1] == END_TOK;
    StandsNext(p, order, w, t, i);
    var next := p[i + 1 + order];
    assert OccursAt(lines, order, w[1..] + [t], next, l, i + 1);
    FollowersOccur(lines, order, w[1..] + [t], next);
  }

  lemma StartLeadsOn(lines: seq<seq<string>>, order: nat, l: nat)
    requires l < |lines| && lines[l] != []
    ensures Followers(lines, order, Starts(order)) != []
  {
    var p := Padded(lines[l], order);
    assert Window(p, 0, order) == Starts(order);
    assert OccursAt(lines, order, Starts(order), p[order], l, 0);
    FollowersOccur(lines, order, Starts(order), p[order]);
  }

  lemma FollowerIsNulFree(lines: seq<seq<string>>, order: nat, w: seq<string>, t: string)
    requires NulFreeLines(lines) && t in Followers(lines, order, w)
    ensures SEP !in t
  {
    FollowersOccur(lines, order, w, t);
    var l: nat, i: nat :| OccursAt(lines, order, w, t, l, i);
    PaddedIsNulFree(lines[l], order);
  }

  lemma StateIsNulFree(out: seq<string>, order: nat)
    requires NulFree(out)
    ensures NulFree(StateAfter(out, order))
  {
  }

  lemma NulFreeGrows(out: seq<string>, next: string)
    requires NulFree(out) && SEP !in next
    ensures NulFree(out + [next])
  {
  }

  lemma OptionIsFollower(lines: seq<seq<string>>, order: nat, said: seq<string>, next: string)
    requires NulFreeLines(lines) && NulFree(said)
    requires IsOption(TableOf(lines, order), order, said, next)
    ensures next in Followers(lines, order, StateAfter(said, order)) && SEP !in next
  {
    StateIsNulFree(said, order);
    TableRecordsFollowers(lines, order, StateAfter(said, order));
    FollowerIsNulFree(lines, order, StateAfter(said, order), next);
  }

  /** A walk says only learned words. */
  lemma {:induction false} WalkIsNulFree(lines: seq<seq<string>>, order: nat, out: seq<string>)
    requires NulFreeLines(lines) && IsWalk(TableOf(lines, order), order, out)
    ensures NulFree(out)
  {
    if out != [] {
      var n := |out| - 1;
      WalkIsNulFree(lines, order, out[..n]);
      OptionIsFollower(lines, order, out[..n], out[n]);
      NulFreeGrows(out[..n], out[n]);
      assert out == out[..n] + [out[n]];
    }
  }

  /** What a walk says next has followed, in some learned line, the state it is in. */
  lemma StepWasLearned(lines: seq<seq<string>>, order: nat, out: seq<string>, i: nat)
    requires order > 0 && NulFreeLines(lines) && IsWalk(TableOf(lines, order), order, out) && i < |out|
    ensures out[i] != END_TOK && out[i] in Followers(lines, order, StateAfter(out[..i], order))
  {
    WalkPrefix(TableOf(lines, order), order, out, i);
    WalkIsNulFree(lines, order, out[..i]);
    OptionIsFollower(lines, order, out[..i], out[i]);
  }

  lemma WalkStateRecorded(lines: seq<seq<string>>, order: nat, out: seq<string>)
    requires NulFreeLines(lines) && IsWalk(TableOf(lines, order), order, out)
    ensures OptionsOf(TableOf(lines, order), KeyOf(StateAfter(out, order))) ==
            Followers(lines, order, StateAfter(out, order))
  {
    WalkIsNulFree(lines, order, out);
    StateIsNulFree(out, order);
    TableRecordsFollowers(lines, order, StateAfter(out, order));
  }

  /** Saying a word that has followed leads to a state that something has followed. */
  lemma WordLeadsOn(lines: seq<seq<string>>, order: nat, said: seq<string>, t: string)
    requires order > 0 && t != END_TOK && t in Followers(lines, order, StateAfter(said, order))
    ensures Followers(lines, order, StateAfter(said + [t], order)) != []
  {
    FollowerLeadsOn(lines, order, StateAfter(said, order), t);
    StateShifts(said, order, t);
  }

  lemma WalkLeadsOn(lines: seq<seq<string>>, order: nat, out: seq<string>)
    requires order > 0 && out != []
    requires var n := |out| - 1; out[n] != END_TOK && out[n] in Followers(lines, order, StateAfter(out[..n], order))
    ensures Followers(lines, order, StateAfter(out, order)) != []
  {
    var n := |out| - 1;
    WordLeadsOn(lines, order, out[..n], out[n]);
    assert out == out[..n] + [out[n]];
  }

  /** Once a line has been learned, no walk ever runs into a state without options:
      generation stops only at an end token or at the word limit. */
  lemma NoDeadEnds(lines: seq<seq<string>>, order: nat, out: seq<string>, l: nat)
    requires order > 0 && NulFreeLines(lines) && l < |lines| && lines[l] != []
    requires IsWalk(TableOf(lines, order), order, out)
    ensures OptionsOf(TableOf(lines, order), KeyOf(StateAfter(out, order))) != []
  {
    WalkStateRecorded(lines, order, out);
    if out == [] {
      StartLeadsOn(lines, order, l);
      assert StateAfter(out, order) == Starts(order);
    } else {
      StepWasLearned(lines, order, out, |out| - 1);
      WalkLeadsOn(lines, order, out);
    }
  }

  // --- Soundness of the output ---

  /** Every stretch of N+1 tokens of what is generated, start padding included,
      stood in some learned line. */
  lemma OutputIsLearned(lines: seq<seq<string>>, order: nat, out: seq<string>, i: nat)
    requires order > 0 && NulFreeLines(lines) && IsWalk(TableOf(lines, order), order, out) && i < |out|
    ensures var padded := Starts(order) + out;
      Occurs(lines, order, Window(padded, i, order), padded[i + order])
  {
    StepWasLearned(lines, order, out, i);
    FollowersOccur(lines, order, StateAfter(out[..i], order), out[i]);
    WindowIsState(order, out, i);
  }

  lemma WindowIsState(order: nat, out: seq<string>, i: nat)
    requires i < |out|
    ensures Window(Starts(order) + out, i, order) == StateAfter(out[..i], order)
    ensures (Starts(order) + out)[i + order] == out[i]
  {
  }

  /** No learned word is the end token. Text comes in as it was typed, and the end token
      is the control character that IRC uses for bold, so one can be. */
  ghost predicate NoEndWords(lines: seq<seq<string>>) {
    forall l, i :: 0 <= l < |lines| && 0 <= i < |lines[l]| ==> lines[l][i] != END_TOK
  }

  /** The last N words of `out` are those of a learned line. */
  ghost predicate Finishes(lines: seq<seq<string>>, order: nat, out: seq<string>) {
    exists l :: 0 <= l < |lines| && lines[l] != [] && StateAfter(out, order) == StateAfter(lines[l], order)
  }

  lemma EndStands(words: seq<string>, order: nat, w: seq<string>, i: nat)
    requires StandsAt(Padded(words, order), order, w, END_TOK, i)
    ensures if i < |words| then words[i] == END_TOK else i == |words| && w == StateAfter(words, order)
  {
    if i == |words| {
      assert Window(Padded(words, order), i, order) == StateAfter(words, order);
    }
  }

  /** Output that stopped short of the limit stands where the end token was learned, and
      unless it was learned as a word, that is where a line ended. */
  lemma EndIsLearned(lines: seq<seq<string>>, order: nat, out: seq<string>, l: nat)
    requires order > 0 && NulFreeLines(lines) && l < |lines| && lines[l] != []
    requires IsWalk(TableOf(lines, order), order, out) && HasEnded(TableOf(lines, order), order, out)
    ensures Occurs(lines, order, StateAfter(out, order), END_TOK)
    ensures NoEndWords(lines) ==> Finishes(lines, order, out)
  {
    NoDeadEnds(lines, order, out, l);
    WalkStateRecorded(lines, order, out);
    FollowersOccur(lines, order, StateAfter(out, order), END_TOK);
    var m: nat, i: nat :| OccursAt(lines, order, StateAfter(out, order), END_TOK, m, i);
    EndStands(lines[m], order, StateAfter(out, order), i);
  }

  lemma PrefixStands(words: seq<string>, order: nat, k: nat)
    requires k < |words|
    ensures StandsAt(Padded(words, order), order, StateAfter(words[..k], order), words[k], k)
  {
    assert Window(Padded(words, order), k, order) == StateAfter(words[..k], order);
  }

  /** What followed a state in a line is an option wherever a walk is in that state. */
  lemma StoodIsOption(lines: seq<seq<string>>, order: nat, said: seq<string>, l: nat, i: nat)
    requires NulFreeLines(lines) && l < |lines| && i < |lines[l]| && lines[l][i] != END_TOK
    requires IsWalk(TableOf(lines, order), order, said)
    requires StandsAt(Padded(lines[l], order), order, StateAfter(said, order), lines[l][i], i)
    ensures IsWalk(TableOf(lines, order), order, said + [lines[l][i]])
  {
    assert OccursAt(lines, order, StateAfter(said, order), lines[l][i], l, i);
    FollowersOccur(lines, order, StateAfter(said, order), lines[l][i]);
    WalkStateRecorded(lines, order, said);
    WalkGrows(TableOf(lines, order), order, said, lines[l][i]);
  }

  /** A learned line is itself a walk, as far as its first end token. */
  lemma {:induction false} LineIsWalk(lines: seq<seq<string>>, order: nat, l: nat, k: nat)
    requires NulFreeLines(lines) && l < |lines| && k <= |lines[l]|
    requires forall i :: 0 <= i < k ==> lines[l][i] != END_TOK
    ensures IsWalk(TableOf(lines, order), order, lines[l][..k])
  {
    if k > 0 {
      LineIsWalk(lines, order, l, k - 1);
      PrefixStands(lines[l], order, k - 1);
      StoodIsOption(lines, order, lines[l][..k - 1], l, k - 1);
      assert lines[l][..k] == lines[l][..k - 1] + [lines[l][k - 1]];
    }
  }

  /** Where its first end token is, if there is one. */
  lemma {:induction false} FirstEnd(words: seq<string>, i: nat) returns (k: nat)
    requires i < |words| && words[i] == END_TOK
    ensures k <= i && words[k] == END_TOK && forall j :: 0 <= j < k ==> words[j] != END_TOK
  {
    if j :| 0 <= j < i && words[j] == END_TOK {
      k := FirstEnd(words, j);
    } else {
      k := i;
    }
  }

  /** A walk can stop where the end token stands at position i of line l. */
  ghost predicate CanStopAt(lines: seq<seq<string>>, order: nat, out: seq<string>, l: nat, i: nat) {
    IsWalk(TableOf(lines, order), order, out) && OccursAt(lines, order, StateAfter(out, order), END_TOK, l, i)
  }

  /** Walks can stop nowhere but where a line ended, exactly if no learned word is the end
      token. */
  lemma EndsAreLineEndsIff(lines: seq<seq<string>>, order: nat)
    requires NulFreeLines(lines)
    ensures (forall out, l: nat, i: nat :: CanStopAt(lines, order, out, l, i) ==> i == |lines[l]|)
            <==> NoEndWords(lines)
  {
    forall out, l: nat, i: nat | NoEndWords(lines) && CanStopAt(lines, order, out, l, i)
      ensures i == |lines[l]|
    {
      EndStands(lines[l], order, StateAfter(out, order), i);
    }
    if !NoEndWords(lines) {
      var l, i :| 0 <= l < |lines| && 0 <= i < |lines[l]| && lines[l][i] == END_TOK;
      var k := FirstEnd(lines[l], i);
      LineIsWalk(lines, order, l, k);
      PrefixStands(lines[l], order, k);
      assert CanStopAt(lines, order, lines[l][..k], l, k);
    }
  }

  // --- Regeneration ---

  /** No state occurs twice in the padded line. */
  ghost predicate DistinctStates(line: seq<string>, order: nat) {
    var p := Padded(line, order);
    forall i, j :: 0 <= i < j <= |line| ==> Window(p, i, order) != Window(p, j, order)
  }

  /** In such a line the k words said so far determine the place. */
  lemma PlaceIsUnique(line: seq<string>, order: nat, k: nat, t: string)
    requires DistinctStates(line, order) && k <= |line|
    requires Occurs([line], order, StateAfter(line[..k], order), t)
    ensures t == Padded(line, order)[k + order]
  {
    var w := StateAfter(line[..k], order);
    var l: nat, i: nat :| OccursAt([line], order, w, t, l, i);
    assert Window(Padded(line, order), k, order) == w;
  }

  lemma NextFollowsLine(line: seq<string>, order: nat, out: seq<string>, n: nat)
    requires order > 0 && line != [] && NulFree(line) && DistinctStates(line, order)
    requires IsWalk(TableOf([line], order), order, out) && n < |out|
    requires n <= |line| && out[..n] == line[..n]
    ensures n < |line| && out[n] == line[n]
  {
    assert NulFreeLines([line]);
    StepWasLearned([line], order, out, n);
    FollowersOccur([line], order, StateAfter(line[..n], order), out[n]);
    PlaceIsUnique(line, order, n, out[n]);
  }

  /** Each word of `out` is the line's, if those before it are. */
  ghost predicate KeepsPace(line: seq<string>, out: seq<string>) {
    forall n :: 0 <= n < |out| && n <= |line| && out[..n] == line[..n] ==> n < |line| && out[n] == line[n]
  }

  lemma {:induction false} PaceIsKept(line: seq<string>, out: seq<string>, n: nat)
    requires KeepsPace(line, out) && n <= |out|
    ensures n <= |line| && out[..n] == line[..n]
  {
    if n > 0 {
      PaceIsKept(line, out, n - 1);
      assert out[..n] == out[..n - 1] + [out[n - 1]] && line[..n] == line[..n - 1] + [line[n - 1]];
    }
  }

  lemma WalkFollowsLine(line: seq<string>, order: nat, out: seq<string>)
    requires order > 0 && line != [] && NulFree(line) && DistinctStates(line, order)
    requires IsWalk(TableOf([line], order), order, out)
    ensures out <= line
  {
    forall n | 0 <= n < |out| && n <= |line| && out[..n] == line[..n]
      ensures n < |line| && out[n] == line[n]
    {
      NextFollowsLine(line, order, out, n);
    }
    PaceIsKept(line, out, |out|);
    assert out[..|out|] == out;
  }

  lemma WordStandsAt(line: seq<string>, order: nat, k: nat)
    requires k < |line|
    ensures Padded(line, order)[k + order] == line[k]
  {
  }

  /** Where the end token can come next, the whole line has been said, or the end token is
      its next word. */
  lemma EndIsLineEnd(line: seq<string>, order: nat, out: seq<string>)
    requires DistinctStates(line, order) && out <= line
    requires Occurs([line], order, StateAfter(out, order), END_TOK)
    ensures out == line || line[|out|] == END_TOK
  {
    var k := |out|;
    assert out == line[..k];
    PlaceIsUnique(line, order, k, END_TOK);
    if k < |line| {
      WordStandsAt(line, order, k);
    }
  }

  /** What can come out: a walk within the word limit that stops short of it only where
      the end token is an option. */
  ghost predicate IsOutput(links: Links, order: nat, out: seq<string>, limit: nat) {
    IsWalk(links, order, out) && |out| <= limit && (|out| < limit ==> HasEnded(links, order, out))
  }

  function Cut(line: seq<string>, limit: nat): seq<string> {
    if limit < |line| then line[..limit] else line
  }

  lemma {:induction false} WalkHasNoEnd(links: Links, order: nat, out: seq<string>)
    requires IsWalk(links, order, out)
    ensures END_TOK !in out
  {
    if out != [] {
      WalkHasNoEnd(links, order, out[..|out| - 1]);
      assert out == out[..|out| - 1] + [out[|out| - 1]];
    }
  }

  /** What a chain that learned a single line can say. */
  ghost predicate CanSay(line: seq<string>, order: nat, out: seq<string>, limit: nat) {
    IsOutput(TableOf([line], order), order, out, limit)
  }

  /** Whatever the draws, a chain that learned a single line without a repeated state says
      it again word for word, as far as the word limit goes, exactly if no word so far is
      the end token. */
  lemma SingleLineComesBack(line: seq<string>, order: nat, out: seq<string>, limit: nat)
    requires order > 0 && line != [] && NulFree(line) && DistinctStates(line, order)
    requires CanSay(line, order, out, limit)
    ensures out == Cut(line, limit) <==> END_TOK !in Cut(line, limit)
  {
    WalkHasNoEnd(TableOf([line], order), order, out);
    WalkFollowsLine(line, order, out);
    if |out| < limit {
      EndIsLearned([line], order, out, 0);
      EndIsLineEnd(line, order, out);
      assert |out| < |line| ==> line[|out|] == Cut(line, limit)[|out|];
    }
  }

  // --- Exactly which lines come back ---

  /** A walk within the limit is the beginning of something that can come out. */
  lemma {:induction false} WalkGoesOn(line: seq<string>, order: nat, walk: seq<string>, limit: nat)
    returns (out: seq<string>)
    requires order > 0 && line != [] && NulFree(line)
    requires IsWalk(TableOf([line], order), order, walk) && |walk| <= limit
    ensures CanSay(line, order, out, limit) && walk <= out
    decreases limit - |walk|
  {
    var links := TableOf([line], order);
    out := walk;
    if |walk| < limit && !HasEnded(links, order, walk) {
      assert NulFreeLines([line]);
      NoDeadEnds([line], order, walk, 0);
      var next := OptionsOf(links, KeyOf(StateAfter(walk, order)))[0];
      WalkGrows(links, order, walk, next);
      out := WalkGoesOn(line, order, walk + [next], limit);
    }
  }

  lemma NextWindow(line: seq<string>, order: nat, i: nat)
    requires order > 0 && i < |line|
    ensures Window(Padded(line, order), i + 1, order) == Window(Padded(line, order), i, order)[1..] + [line[i]]
  {
  }

  lemma WindowIsPrefixState(line: seq<string>, order: nat, j: nat)
    requires j <= |line|
    ensures Window(Padded(line, order), j, order) == StateAfter(line[..j], order)
  {
  }

  /** Where a state comes back, the walk can go astray. */
  lemma {:induction false} RepeatLeadsAstray(line: seq<string>, order: nat, i: nat, j: nat) returns (walk: seq<string>)
    requires order > 0 && NulFree(line) && END_TOK !in line && i < j <= |line|
    requires Window(Padded(line, order), i, order) == Window(Padded(line, order), j, order)
    ensures IsWalk(TableOf([line], order), order, walk) && |walk| <= |line| + 1 && !(walk <= line)
    decreases |line| - j
  {
    if j < |line| && line[i] == line[j] {
      NextWindow(line, order, i);
      NextWindow(line, order, j);
      walk := RepeatLeadsAstray(line, order, i + 1, j + 1);
    } else {
      assert NulFreeLines([line]);
      LineIsWalk([line], order, 0, j);
      WindowIsPrefixState(line, order, j);
      StoodIsOption([line], order, line[..j], 0, i);
      walk := line[..j] + [line[i]];
      assert walk[j] == line[i];
    }
  }

  lemma EndLeadsAstray(line: seq<string>, order: nat) returns (walk: seq<string>)
    requires order > 0 && NulFree(line) && END_TOK in line
    ensures CanSay(line, order, walk, |walk| + 1) && |walk| < |line|
  {
    var i :| 0 <= i < |line| && line[i] == END_TOK;
    var k := FirstEnd(line, i);
    walk := line[..k];
    assert NulFreeLines([line]);
    LineIsWalk([line], order, 0, k);
    PrefixStands(line, order, k);
    assert OccursAt([line], order, StateAfter(walk, order), END_TOK, 0, k);
    FollowersOccur([line], order, StateAfter(walk, order), END_TOK);
    WalkStateRecorded([line], order, walk);
  }

  /** A line that cannot come back for certain: something else can come out. */
  lemma SomethingElse(line: seq<string>, order: nat, limit: nat) returns (out: seq<string>)
    requires order > 0 && line != [] && NulFree(line) && limit > |line|
    requires !DistinctStates(line, order) || END_TOK in line
    ensures CanSay(line, order, out, limit) && out != line
  {
    if END_TOK in line {
      out := EndLeadsAstray(line, order);
    } else {
      var i, j :| 0 <= i < j <= |line| &&
        Window(Padded(line, order), i, order) == Window(Padded(line, order), j, order);
      var walk := RepeatLeadsAstray(line, order, i, j);
      out := WalkGoesOn(line, order, walk, limit);
    }
  }

  /** With room for more, a chain that learned a single line says it again whatever the
      draws exactly if no state comes twice in it and no word is the end token. */
  lemma ComesBackIff(line: seq<string>, order: nat, limit: nat)
    requires order > 0 && line != [] && NulFree(line) && limit > |line|
    ensures (forall out :: CanSay(line, order, out, limit) ==> out == line)
            <==> DistinctStates(line, order) && END_TOK !in line
  {
    if DistinctStates(line, order) && END_TOK !in line {
      forall out | CanSay(line, order, out, limit)
        ensures out == line
      {
        SingleLineComesBack(line, order, out, limit);
      }
    } else {
      var out := SomethingElse(line, order, limit);
    }
  }

  lemma BoldLineIsDistinct(line: seq<string>)
    requires line == ["a", "\U{0002}", "b"]
    ensures DistinctStates(line, 1)
  {
    var p := Padded(line, 1);
    assert p == [START_TOK, "a", END_TOK, "b", END_TOK];
    assert p[0][0] == '\U{0001}' && p[1][0] == 'a' && p[2][0] == '\U{0002}' && p[3][0] == 'b';
    forall i, j | 0 <= i < j <= |line|
      ensures Window(p, i, 1) != Window(p, j, 1)
    {
      assert Window(p, i, 1)[0] == p[i] && Window(p, j, 1)[0] == p[j];
    }
  }

  /** A line that does not come back: with a lone bold code in it, only what stands before
      the code is ever said. */
  lemma BoldCutsShort(out: seq<string>, limit: nat)
    requires limit > 1 && CanSay(["a", "\U{0002}", "b"], 1, out, limit)
    ensures out == ["a"]
  {
    var line := ["a", END_TOK, "b"];
    BoldLineIsDistinct(line);
    WalkHasNoEnd(TableOf([line], 1), 1, out);
    WalkFollowsLine(line, 1, out);
    EndIsLearned([line], 1, out, 0);
    EndIsLineEnd(line, 1, out);
  }
}
