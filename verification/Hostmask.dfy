/** Glob matching of hostmasks: the single-star-backtracking loop against the
    recursive meaning of `*` and `?`. A character stands for one byte. */
module Hostmask {

  /** The meaning of a pattern: `*` stands for any run of characters, `?` for
      exactly one, everything else for itself. */
  predicate Matches(p: string, s: string)
    decreases |p| + |s|
  {
    if p == "" then s == ""
    else if p[0] == '*' then Matches(p[1..], s) || (s != "" && Matches(p, s[1..]))
    else s != "" && (p[0] == '?' || p[0] == s[0]) && Matches(p[1..], s[1..])
  }

  predicate AllStars(p: string) {
    forall i :: 0 <= i < |p| ==> p[i] == '*'
  }

  /** Where the loop stands: the pattern and subject cursors, and the last star
      together with the subject position it is currently stretched to. */
  ghost predicate Cursor(p: string, s: string, star: int, ss: nat, pi: nat, si: nat) {
    && -1 <= star < pi <= |p|
    && ss <= si <= |s|
    && (star < 0 ==> ss == 0)
    && (star >= 0 ==> p[star] == '*')
  }

  /** The verdict of the loop from a given position. */
  ghost function Scan(p: string, s: string, star: int, ss: nat, pi: nat, si: nat): bool
    requires Cursor(p, s, star, ss, pi, si)
    decreases |s| - ss, |p| - star, |p| - pi
  {
    if si == |s| then AllStars(p[pi..])
    else if pi < |p| && (p[pi] == '?' || p[pi] == s[si]) then Scan(p, s, star, ss, pi + 1, si + 1)
    else if pi < |p| && p[pi] == '*' then Scan(p, s, pi, si, pi + 1, si)
    else if star >= 0 then Scan(p, s, star, ss + 1, star + 1, ss + 1)
    else false
  }

  lemma {:induction false} AllStarsMatchEmpty(p: string)
    ensures Matches(p, "") <==> AllStars(p)
  {
    if p != "" {
      AllStarsMatchEmpty(p[1..]);
      assert AllStars(p) ==> AllStars(p[1..]);
      assert p[0] == '*' && AllStars(p[1..]) ==> AllStars(p) by {
        assert forall i :: 1 <= i < |p| ==> p[i] == p[1..][i - 1];
      }
    }
  }

  // --- Soundness: every verdict of true is a match, whatever the subject holds ---

  /** Whatever the rest of the pattern matches, the whole pattern matches after
      the subject already consumed. */
  ghost predicate Resumes(p: string, s: string, pi: nat, si: nat)
    requires pi <= |p| && si <= |s|
  {
    forall t :: Matches(p[pi..], t) ==> Matches(p, s[..si] + t)
  }

  lemma ResumesAfterLiteral(p: string, s: string, pi: nat, si: nat)
    requires pi < |p| && si < |s| && Resumes(p, s, pi, si)
    requires p[pi] != '*' || s[si] == '*'
    requires p[pi] == '?' || p[pi] == s[si]
    ensures Resumes(p, s, pi + 1, si + 1)
  {
    var q := p[pi + 1..];
    forall t | Matches(q, t)
      ensures Matches(p, s[..si + 1] + t)
    {
      var u := [s[si]] + t;
      assert p[pi..][1..] == q && u[1..] == t;
      if p[pi] == '*' {
        assert Matches(p[pi..], t);
      }
      assert Matches(p[pi..], u);
      assert s[..si] + u == s[..si + 1] + t;
    }
  }

  lemma ResumesAfterStar(p: string, s: string, star: nat, ss: nat)
    requires star < |p| && p[star] == '*' && ss <= |s| && Resumes(p, s, star, ss)
    ensures Resumes(p, s, star + 1, ss)
    ensures ss < |s| ==> Resumes(p, s, star, ss + 1)
  {
    forall t | Matches(p[star + 1..], t)
      ensures Matches(p, s[..ss] + t)
    {
      assert p[star..][1..] == p[star + 1..];
      assert Matches(p[star..], t);
    }
    if ss < |s| {
      forall t | Matches(p[star..], t)
        ensures Matches(p, s[..ss + 1] + t)
      {
        var u := [s[ss]] + t;
        assert u[1..] == t;
        assert Matches(p[star..], u);
        assert s[..ss] + u == s[..ss + 1] + t;
      }
    }
  }

  lemma {:induction false} ScanSound(p: string, s: string, star: int, ss: nat, pi: nat, si: nat)
    requires Cursor(p, s, star, ss, pi, si)
    requires Resumes(p, s, pi, si)
    requires star >= 0 ==> Resumes(p, s, star, ss)
    ensures Scan(p, s, star, ss, pi, si) ==> Matches(p, s)
    decreases |s| - ss, |p| - star, |p| - pi
  {
    if si == |s| {
      AllStarsMatchEmpty(p[pi..]);
      assert s[..si] + "" == s;
    } else if pi < |p| && (p[pi] == '?' || p[pi] == s[si]) {
      ResumesAfterLiteral(p, s, pi, si);
      ScanSound(p, s, star, ss, pi + 1, si + 1);
    } else if pi < |p| && p[pi] == '*' {
      ResumesAfterStar(p, s, pi, si);
      ScanSound(p, s, pi, si, pi + 1, si);
    } else if star >= 0 {
      ResumesAfterStar(p, s, star, ss);
      ResumesAfterStar(p, s, star, ss + 1);
      ScanSound(p, s, star, ss + 1, star + 1, ss + 1);
    }
  }

  // --- Completeness on star-free subjects: only the last star needs stretching ---

  /** A star-free stretch of pattern that agrees with a stretch of subject. */
  ghost predicate Aligned(seg: string, t: string) {
    |seg| == |t| && forall i :: 0 <= i < |seg| ==> seg[i] != '*' && (seg[i] == '?' || seg[i] == t[i])
  }

  /** A star-free stretch can only match the characters right in front of it. */
  lemma {:induction false} SegmentIsRigid(seg: string, q: string, t: string)
    requires forall i :: 0 <= i < |seg| ==> seg[i] != '*'
    ensures Matches(seg + q, t) <==>
            |seg| <= |t| && Aligned(seg, t[..|seg|]) && Matches(q, t[|seg|..])
  {
    if seg == "" {
      assert seg + q == q && t[0..] == t;
    } else {
      assert (seg + q)[1..] == seg[1..] + q;
      if t != "" {
        SegmentIsRigid(seg[1..], q, t[1..]);
        if |seg| <= |t| {
          assert t[1..][|seg[1..]|..] == t[|seg|..];
          assert t[1..][..|seg| - 1] == t[..|seg|][1..];
          assert Aligned(seg, t[..|seg|]) <==>
                 (seg[0] == '?' || seg[0] == t[0]) && Aligned(seg[1..], t[..|seg|][1..]) by {
            assert forall i :: 1 <= i < |seg| ==> seg[i] == seg[1..][i - 1];
          }
        }
      }
    }
  }

  /** A star may swallow any prefix of the subject first. */
  lemma {:induction false} StarStretches(q: string, t: string, k: nat)
    requires q != "" && q[0] == '*' && k <= |t|
    requires Matches(q, t[k..])
    ensures Matches(q, t)
  {
    if k == 0 {
      assert t[0..] == t;
    } else {
      assert t[1..][k - 1..] == t[k..];
      StarStretches(q, t[1..], k - 1);
    }
  }

  /** The greedy step: once the stretch of pattern between two stars has been found
      at its earliest place, the first star never has to be stretched again. */
  lemma {:induction false} LastStarSuffices(seg: string, q: string, t: string)
    requires forall i :: 0 <= i < |seg| ==> seg[i] != '*'
    requires q != "" && q[0] == '*'
    requires |seg| <= |t|
    requires Matches("*" + seg + q, t)
    ensures Matches(q, t[|seg|..])
    decreases |t|
  {
    var whole := "*" + seg + q;
    assert whole[1..] == seg + q;
    SegmentIsRigid(seg, q, t);
    if !Matches(seg + q, t) {
      assert Matches(whole, t[1..]);
      if |seg| <= |t[1..]| {
        LastStarSuffices(seg, q, t[1..]);
        assert t[1..][|seg|..] == t[|seg|..][1..];
        StarStretches(q, t[|seg|..], 1);
      } else {
        TooShort(seg, q, t[1..]);
      }
    }
  }

  lemma {:induction false} TooShort(seg: string, q: string, t: string)
    requires forall i :: 0 <= i < |seg| ==> seg[i] != '*'
    requires |t| < |seg|
    ensures !Matches("*" + seg + q, t)
    decreases |t|
  {
    assert ("*" + seg + q)[1..] == seg + q;
    SegmentIsRigid(seg, q, t);
    if t != "" {
      TooShort(seg, q, t[1..]);
    }
  }

  /** If some match is left at all, one is left from the last star onwards. */
  ghost predicate Hope(p: string, s: string, star: int, ss: nat, pi: nat, si: nat)
    requires Cursor(p, s, star, ss, pi, si)
  {
    if star < 0 then Matches(p[pi..], s[si..]) else Matches(p[star..], s[ss..])
  }

  /** Where the scan stands, with hope left. */
  ghost predicate Hopeful(p: string, s: string, star: int, ss: nat, pi: nat, si: nat) {
    && Cursor(p, s, star, ss, pi, si)
    && (star >= 0 ==> Aligned(p[star + 1..pi], s[ss..si]))
    && Hope(p, s, star, ss, pi, si)
  }

  /** The pattern from the last star on, and what it has to match. */
  lemma FromLastStar(p: string, s: string, star: int, ss: nat, pi: nat, si: nat)
    requires Hopeful(p, s, star, ss, pi, si) && star >= 0
    ensures var seg, q := p[star + 1..pi], p[pi..];
            && p[star..] == "*" + seg + q && (forall i :: 0 <= i < |seg| ==> seg[i] != '*')
            && |seg| == si - ss && (Matches(seg + q, s[ss..]) <==> Matches(q, s[si..]))
            && (Matches(q, s[si..]) || (ss < |s| && Matches(p[star..], s[ss + 1..])))
  {
    var seg, q := p[star + 1..pi], p[pi..];
    assert p[star..] == "*" + seg + q;
    assert p[star..][1..] == seg + q;
    assert s[ss..][|seg|..] == s[si..];
    assert s[ss..][..|seg|] == s[ss..si];
    SegmentIsRigid(seg, q, s[ss..]);
    if ss < |s| {
      assert s[ss..][1..] == s[ss + 1..];
    }
  }

  lemma HopeAtEnd(p: string, s: string, star: int, ss: nat, pi: nat, si: nat)
    requires Hopeful(p, s, star, ss, pi, si) && si == |s|
    ensures Matches(p[pi..], "")
  {
    assert s[si..] == "";
    if star >= 0 {
      FromLastStar(p, s, star, ss, pi, si);
      if ss < |s| {
        TooShort(p[star + 1..pi], p[pi..], s[ss + 1..]);
      }
    }
  }

  lemma HopeAfterLiteral(p: string, s: string, star: int, ss: nat, pi: nat, si: nat)
    requires Hopeful(p, s, star, ss, pi, si) && pi < |p| && si < |s|
    requires p[pi] != '*' && (p[pi] == '?' || p[pi] == s[si])
    ensures Hopeful(p, s, star, ss, pi + 1, si + 1)
  {
    if star >= 0 {
      assert p[star + 1..pi + 1] == p[star + 1..pi] + [p[pi]];
      assert s[ss..si + 1] == s[ss..si] + [s[si]];
    } else {
      assert p[pi..][1..] == p[pi + 1..] && s[si..][1..] == s[si + 1..];
    }
  }

  /** At a star, what is left of the pattern matches what is left of the subject. */
  lemma StarKeepsHope(p: string, s: string, star: int, ss: nat, pi: nat, si: nat)
    requires Hopeful(p, s, star, ss, pi, si) && pi < |p| && p[pi] == '*'
    ensures Matches(p[pi..], s[si..])
  {
    if star >= 0 {
      FromLastStar(p, s, star, ss, pi, si);
      var seg, q, t := p[star + 1..pi], p[pi..], s[ss..];
      LastStarSuffices(seg, q, t);
      assert t[|seg|..] == s[si..];
    }
  }

  lemma HopeAfterStar(p: string, s: string, star: int, ss: nat, pi: nat, si: nat)
    requires Hopeful(p, s, star, ss, pi, si) && pi < |p| && p[pi] == '*'
    ensures Hopeful(p, s, pi, si, pi + 1, si)
  {
    StarKeepsHope(p, s, star, ss, pi, si);
    assert Cursor(p, s, pi, si, pi + 1, si);
  }

  lemma HopeAfterStretch(p: string, s: string, star: int, ss: nat, pi: nat, si: nat)
    requires Hopeful(p, s, star, ss, pi, si) && star >= 0 && !Matches(p[pi..], s[si..])
    ensures ss < |s| && Hopeful(p, s, star, ss + 1, star + 1, ss + 1)
  {
    FromLastStar(p, s, star, ss, pi, si);
  }

  lemma {:induction false} ScanComplete(p: string, s: string, star: int, ss: nat, pi: nat, si: nat)
    requires '*' !in s && Hopeful(p, s, star, ss, pi, si)
    ensures Scan(p, s, star, ss, pi, si)
    decreases |s| - ss, |p| - star, |p| - pi
  {
    if si == |s| {
      HopeAtEnd(p, s, star, ss, pi, si);
      AllStarsMatchEmpty(p[pi..]);
    } else if pi < |p| && (p[pi] == '?' || p[pi] == s[si]) {
      assert s[si] in s;
      HopeAfterLiteral(p, s, star, ss, pi, si);
      ScanComplete(p, s, star, ss, pi + 1, si + 1);
    } else if pi < |p| && p[pi] == '*' {
      HopeAfterStar(p, s, star, ss, pi, si);
      ScanComplete(p, s, pi, si, pi + 1, si);
    } else if star >= 0 {
      HopeAfterStretch(p, s, star, ss, pi, si);
      ScanComplete(p, s, star, ss + 1, star + 1, ss + 1);
    } else {
      assert false;
    }
  }

  // --- The matcher ---

  method Wildcard(p: string, s: string) returns (r: bool)
    ensures r ==> Matches(p, s)
    ensures '*' !in s ==> (r <==> Matches(p, s))
    ensures r == Scan(p, s, -1, 0, 0, 0)
  {
    Verdict(p, s);
    var star, ss, pi, si := -1, 0, 0, 0;
    while si < |s|
      invariant Cursor(p, s, star, ss, pi, si)
      invariant Scan(p, s, star, ss, pi, si) == Scan(p, s, -1, 0, 0, 0)
      decreases |s| - ss, |p| - star, |p| - pi
    {
      if pi < |p| && (p[pi] == '?' || p[pi] == s[si]) {
        pi := pi + 1;
        si := si + 1;
      } else if pi < |p| && p[pi] == '*' {
        star, ss := pi, si;
        pi := pi + 1;
      } else if star >= 0 {
        pi := star + 1;
        ss := ss + 1;
        si := ss;
      } else {
        return false;
      }
    }
    ghost var rest := pi;
    while pi < |p| && p[pi] == '*'
      invariant rest <= pi <= |p|
      invariant forall i :: rest <= i < pi ==> p[i] == '*'
    {
      pi := pi + 1;
    }
    r := pi == |p|;
    assert pi < |p| ==> p[rest..][pi - rest] == p[pi];
  }

  lemma Verdict(p: string, s: string)
    ensures Scan(p, s, -1, 0, 0, 0) ==> Matches(p, s)
    ensures '*' !in s ==> (Scan(p, s, -1, 0, 0, 0) <==> Matches(p, s))
  {
    assert p[0..] == p && s[0..] == s;
    forall t | Matches(p[0..], t)
      ensures Matches(p, s[..0] + t)
    {
      assert s[..0] + t == t;
    }
    ScanSound(p, s, -1, 0, 0, 0);
    if '*' !in s && Matches(p, s) {
      ScanComplete(p, s, -1, 0, 0, 0);
    }
  }

  // --- Exactly which subjects are matched faithfully ---

  /** The matcher agrees with the meaning of every pattern on this subject. */
  ghost predicate Faithful(s: string) {
    forall p :: Scan(p, s, -1, 0, 0, 0) <==> Matches(p, s)
  }

  function Repeat(c: char, n: nat): (r: string)
    ensures |r| == n && forall i :: 0 <= i < n ==> r[i] == c
  {
    seq(n, i => c)
  }

  /** A pattern the matcher gets wrong on a subject whose first star is at i: the
      pattern's star is spent on the subject's, leaving one `?` too many. */
  function Trap(s: string, i: nat): string
    requires i < |s|
  {
    s[..i] + "*" + Repeat('?', |s| - i)
  }

  lemma {:induction false} QuestionMarksMatch(t: string)
    ensures Matches(Repeat('?', |t|), t)
  {
    if t != "" {
      assert Repeat('?', |t|)[1..] == Repeat('?', |t[1..]|);
      QuestionMarksMatch(t[1..]);
    }
  }

  lemma {:induction false} LiteralPrefix(u: string, q: string, t: string)
    requires '*' !in u && Matches(q, t)
    ensures Matches(u + q, u + t)
  {
    assert forall i :: 0 <= i < |u| ==> u[i] in u;
    SegmentIsRigid(u, q, u + t);
    assert (u + t)[..|u|] == u && (u + t)[|u|..] == t;
  }

  lemma {:induction false} TrapMatches(s: string, i: nat)
    requires i < |s| && '*' !in s[..i]
    ensures Matches(Trap(s, i), s)
  {
    var marks := Repeat('?', |s| - i);
    QuestionMarksMatch(s[i..]);
    assert ("*" + marks)[1..] == marks;
    assert Matches("*" + marks, s[i..]);
    LiteralPrefix(s[..i], "*" + marks, s[i..]);
    assert s[..i] + s[i..] == s;
    assert s[..i] + ("*" + marks) == Trap(s, i);
  }

  lemma {:induction false} TrapMissed(s: string, i: nat, k: nat)
    requires i < |s| && s[i] == '*' && k <= |s|
    ensures !Scan(Trap(s, i), s, -1, 0, k, k)
    decreases |s| - k
  {
    var p := Trap(s, i);
    if k == |s| {
      assert p[k..][0] == '?';
    } else {
      assert p[k] == if k < i then s[k] else if k == i then '*' else '?';
      TrapMissed(s, i, k + 1);
    }
  }

  lemma {:induction false} FirstStar(s: string) returns (i: nat)
    requires '*' in s
    ensures i < |s| && s[i] == '*' && '*' !in s[..i]
  {
    if s[0] == '*' {
      i := 0;
    } else {
      assert s == [s[0]] + s[1..];
      var j := FirstStar(s[1..]);
      i := j + 1;
      assert s[..i] == [s[0]] + s[1..][..j];
    }
  }

  /** The matcher is right about every pattern exactly for the subjects that hold
      no star. */
  lemma FaithfulIffNoStar(s: string)
    ensures Faithful(s) <==> '*' !in s
  {
    if '*' in s {
      var i := FirstStar(s);
      TrapMatches(s, i);
      TrapMissed(s, i, 0);
      assert !(Scan(Trap(s, i), s, -1, 0, 0, 0) <==> Matches(Trap(s, i), s));
    } else {
      forall p
        ensures Scan(p, s, -1, 0, 0, 0) <==> Matches(p, s)
      {
        Verdict(p, s);
      }
    }
  }
}
