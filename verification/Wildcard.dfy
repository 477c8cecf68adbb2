/** The wildcard matcher of main/misc.c, wildcmp, against a declarative glob: what it
    accepts is always a match, and exactly when it accepts every match. */
module Wildcard {

  /** tolower in the C locale. */
  function Lower(c: char): char { if 'A' <= c <= 'Z' then (c as int + 32) as char else c }

  lemma LowerSpecials(c: char)
    ensures Lower('*') == '*' && Lower('?') == '?'
    ensures Lower(c) == '*' ==> c == '*'
    ensures Lower(c) == '?' ==> c == '?'
  {
  }

  predicate Same(a: char, b: char) { Lower(a) == Lower(b) }

  /** `*` stands for any run of characters, `?` for any one, other characters for
      themselves in either case. */
  predicate Glob(nam: string, pat: string)
    decreases |nam| + |pat|
  {
    if pat == [] then nam == []
    else if pat[0] == '*' then Glob(nam, pat[1..]) || (nam != [] && Glob(nam[1..], pat))
    else nam != [] && (pat[0] == '?' || Same(nam[0], pat[0])) && Glob(nam[1..], pat[1..])
  }

  function SkipStars(pat: string): (q: string)
    ensures |q| <= |pat| && (q == [] || q[0] != '*')
  {
    if pat == [] || pat[0] != '*' then pat else SkipStars(pat[1..])
  }

  /** wildcmp. */
  predicate Wild(nam: string, pat: string)
    decreases |pat|, |nam|
  {
    if nam != [] && pat != [] && Same(nam[0], pat[0]) then Wild(nam[1..], pat[1..])
    else if nam == [] && pat == [] then true
    else if nam != [] && pat != [] && pat[0] == '?' then Wild(nam[1..], pat[1..])
    else if pat == [] || pat[0] != '*' then false
    else
      var q := SkipStars(pat);
      q == [] || (SkipsOne(pat); exists i | 0 <= i < |nam| :: Same(nam[i], q[0]) && Wild(nam[i..], q))
  }

  lemma SkipsOne(pat: string)
    requires pat != [] && pat[0] == '*'
    ensures |SkipStars(pat)| < |pat|
  {
  }

  // ----- what it accepts is a match ---------------------------------------------------

  /** A star may take any prefix. */
  lemma {:induction false} StarTakes(nam: string, pat: string, i: nat)
    requires i <= |nam| && Glob(nam[i..], pat)
    ensures Glob(nam, ['*'] + pat)
    decreases i
  {
    hide Same;
    assert (['*'] + pat)[1..] == pat;
    if i == 0 {
      assert nam[0..] == nam;
    } else {
      assert nam[1..][i - 1..] == nam[i..];
      StarTakes(nam[1..], pat, i - 1);
    }
  }

  lemma {:induction false} StarsTake(nam: string, pat: string, i: nat)
    requires pat != [] && pat[0] == '*' && i <= |nam| && Glob(nam[i..], SkipStars(pat))
    ensures Glob(nam, pat)
    decreases |pat|
  {
    hide Same;
    assert pat == ['*'] + pat[1..];
    if pat[1..] != [] && pat[1..][0] == '*' {
      StarsTake(nam[i..], pat[1..], 0) by { assert nam[i..][0..] == nam[i..]; }
      StarTakes(nam, pat[1..], i);
    } else {
      StarTakes(nam, pat[1..], i);
    }
  }

  lemma {:induction false} Sound(nam: string, pat: string)
    requires Wild(nam, pat)
    ensures Glob(nam, pat)
    decreases |pat|, |nam|
  {
    hide Same;
    if nam != [] && pat != [] && Same(nam[0], pat[0]) {
      Sound(nam[1..], pat[1..]);
      if pat[0] == '*' {
        assert pat == ['*'] + pat[1..];
        StarTakes(nam, pat[1..], 1);
      }
    } else if nam == [] && pat == [] {
    } else if nam != [] && pat != [] && pat[0] == '?' {
      Sound(nam[1..], pat[1..]);
    } else {
      var q := SkipStars(pat);
      SkipsOne(pat);
      if q == [] {
        assert nam[|nam|..] == [];
        StarsTake(nam, pat, |nam|);
      } else {
        var i :| 0 <= i < |nam| && Same(nam[i], q[0]) && Wild(nam[i..], q);
        Sound(nam[i..], q);
        StarsTake(nam, pat, i);
      }
    }
  }

  // ----- when it accepts every match ----------------------------------------------------

  /** A `?` directly after a `*`. */
  predicate StarQuestion(pat: string) { exists i | 0 <= i < |pat| - 1 :: pat[i] == '*' && pat[i + 1] == '?' }

  /** No `*`, unless it is the last character. */
  predicate StarOnlyLast(nam: string) { forall i | 0 <= i < |nam| - 1 :: nam[i] != '*' }

  /** A match of a pattern that starts with stars is a match of the rest somewhere. */
  lemma {:induction false} StarFinds(nam: string, pat: string)
    requires pat != [] && pat[0] == '*' && Glob(nam, pat)
    ensures exists i | 0 <= i <= |nam| :: Glob(nam[i..], SkipStars(pat))
    decreases |pat|, |nam|
  {
    hide Same;
    if Glob(nam, pat[1..]) {
      if pat[1..] != [] && pat[1..][0] == '*' {
        StarFinds(nam, pat[1..]);
      } else {
        assert nam[0..] == nam && SkipStars(pat) == pat[1..];
      }
    } else {
      StarFinds(nam[1..], pat);
      var i :| 0 <= i <= |nam[1..]| && Glob(nam[1..][i..], SkipStars(pat));
      assert nam[1..][i..] == nam[i + 1..];
    }
  }

  lemma NoStarQuestionRest(pat: string)
    requires !StarQuestion(pat) && pat != []
    ensures !StarQuestion(pat[1..]) && !StarQuestion(SkipStars(pat))
    ensures pat[0] == '*' && SkipStars(pat) != [] ==> SkipStars(pat)[0] != '?'
    decreases |pat|
  {
    var r := pat[1..];
    forall i | 0 <= i < |r| - 1 ensures !(r[i] == '*' && r[i + 1] == '?') {
      assert r[i] == pat[i + 1] && r[i + 1] == pat[i + 2];
    }
    if pat[0] == '*' && r != [] {
      assert pat[1] == r[0];
      NoStarQuestionRest(r);
    }
  }

  /** A name that is at most a single star is matched by stars only. */
  lemma {:induction false} LoneStar(nam: string, pat: string)
    requires (nam == [] || nam == ['*']) && !StarQuestion(pat) && Glob(nam, pat)
    requires nam == ['*'] ==> pat != [] && pat[0] == '*'
    ensures SkipStars(pat) == [] && Wild([], pat)
    decreases |nam| + |pat|
  {
    LowerSpecials(if pat == [] then 'a' else pat[0]);
    hide Lower;
    if pat != [] {
      NoStarQuestionRest(pat);
      if Glob(nam, pat[1..]) {
        if nam == ['*'] && (pat[1..] == [] || pat[1..][0] != '*') {
          LowerSpecials(if pat[1..] == [] then 'a' else pat[1..][0]);
          assert SkipStars(pat) == pat[1..];
        } else {
          LoneStar(nam, pat[1..]);
        }
      } else {
        LoneStar([], pat) by { assert nam[1..] == []; }
      }
    }
  }

  lemma {:induction false} Complete(nam: string, pat: string)
    requires Glob(nam, pat) && StarOnlyLast(nam) && !StarQuestion(pat)
    ensures Wild(nam, pat)
    decreases |pat|, |nam|
  {
    if nam != [] {
      assert forall i | 0 <= i < |nam[1..]| :: nam[1..][i] == nam[i + 1];
    }
    if pat != [] {
      LowerSpecials(if nam == [] then 'a' else nam[0]);
      NoStarQuestionRest(pat);
    }
    hide Lower;
    if pat == [] || nam == [] {
      if pat != [] {
        LoneStar(nam, pat);
      }
    } else if pat[0] != '*' {
      Complete(nam[1..], pat[1..]);
    } else if nam[0] == '*' {
      assert nam == ['*'];
      LoneStar(nam, pat);
      assert SkipStars(pat[1..]) == [];
      assert nam[1..] == [];
      OnlyStars(pat[1..]);
    } else {
      AfterStars(nam, pat);
    }
  }

  lemma {:induction false} OnlyStars(pat: string)
    requires SkipStars(pat) == []
    ensures Wild([], pat)
  {
  }

  lemma AfterStars(nam: string, pat: string)
    requires Glob(nam, pat) && StarOnlyLast(nam) && !StarQuestion(pat)
    requires pat != [] && pat[0] == '*' && nam != [] && nam[0] != '*'
    ensures Wild(nam, pat)
    decreases |pat|, |nam|, 0
  {
    var q := SkipStars(pat);
    SkipsOne(pat);
    NoStarQuestionRest(pat);
    LowerSpecials(nam[0]);
    StarFinds(nam, pat);
    var i :| 0 <= i <= |nam| && Glob(nam[i..], q);
    hide Lower;
    if q != [] {
      assert i < |nam| && Same(nam[i], q[0]);
      assert forall k | 0 <= k < |nam[i..]| :: nam[i..][k] == nam[i + k];
      Complete(nam[i..], q);
    }
  }

  /** On names whose only star, if any, is the last character, and patterns in which
      no `?` directly follows a `*`, wildcmp is the glob. */
  lemma Agrees(nam: string, pat: string)
    requires StarOnlyLast(nam) && !StarQuestion(pat)
    ensures Wild(nam, pat) <==> Glob(nam, pat)
  {
    if Wild(nam, pat) {
      Sound(nam, pat);
    }
    if Glob(nam, pat) {
      Complete(nam, pat);
    }
  }

  // ----- and only then ---------------------------------------------------------------------

  predicate Ordinary(nam: string) { forall i | 0 <= i < |nam| :: nam[i] != '*' && nam[i] != '?' }

  /** A name the pattern matches: stars stand for nothing, question marks for an x. */
  function Instance(pat: string): string {
    if pat == [] then []
    else (if pat[0] == '*' then [] else if pat[0] == '?' then ['x'] else [pat[0]]) + Instance(pat[1..])
  }

  lemma {:induction false} InstanceMatches(pat: string)
    ensures Glob(Instance(pat), pat) && Ordinary(Instance(pat))
    decreases |pat|
  {
    if pat != [] {
      InstanceMatches(pat[1..]);
      var n := Instance(pat);
      if pat[0] == '*' {
        assert n == Instance(pat[1..]);
      } else {
        assert n[1..] == Instance(pat[1..]);
        assert forall i | 0 < i < |n| :: n[i] == n[1..][i - 1];
      }
    }
  }

  lemma {:induction false} StarQuestionFails(nam: string, pat: string)
    requires Ordinary(nam) && StarQuestion(pat)
    ensures !Wild(nam, pat)
    decreases |pat|, |nam|
  {
    var i :| 0 <= i < |pat| - 1 && pat[i] == '*' && pat[i + 1] == '?';
    if nam != [] {
      LowerSpecials(nam[0]);
      assert forall k | 0 <= k < |nam[1..]| :: nam[1..][k] == nam[k + 1];
    }
    LowerSpecials(pat[0]);
    if pat[0] != '*' {
      assert pat[1..][i - 1] == '*' && pat[1..][i] == '?';
      if nam != [] {
        StarQuestionFails(nam[1..], pat[1..]);
      }
    } else {
      var q := SkipStars(pat);
      SkipsOne(pat);
      SkipKeeps(pat);
      if q != [] && q[0] != '?' {
        forall k | 0 <= k < |nam| ensures !Wild(nam[k..], q) {
          assert forall m | 0 <= m < |nam[k..]| :: nam[k..][m] == nam[k + m];
          StarQuestionFails(nam[k..], q);
        }
      } else {
        forall k | 0 <= k < |nam| ensures q == [] || !Same(nam[k], q[0]) {
          LowerSpecials(nam[k]);
        }
      }
    }
  }

  lemma {:induction false} SkipKeeps(pat: string)
    requires StarQuestion(pat) && pat[0] == '*'
    ensures SkipStars(pat) != [] && (SkipStars(pat)[0] != '?' ==> StarQuestion(SkipStars(pat)))
    decreases |pat|
  {
    var i :| 0 <= i < |pat| - 1 && pat[i] == '*' && pat[i + 1] == '?';
    var r := pat[1..];
    assert r[0] == pat[1];
    if i == 0 {
      assert SkipStars(pat) == r;
    } else {
      assert r[i - 1] == '*' && r[i] == '?';
      if r[0] == '*' {
        SkipKeeps(r);
      } else {
        assert SkipStars(pat) == r;
      }
    }
  }

  predicate StarFree(nam: string) { forall i | 0 <= i < |nam| :: nam[i] != '*' }

  /** The patterns for which wildcmp is the glob on every name without a star: those
      without `*?`. */
  lemma PatternsThatAgree(pat: string)
    ensures (forall nam: string | StarFree(nam) :: Wild(nam, pat) <==> Glob(nam, pat)) <==> !StarQuestion(pat)
  {
    if StarQuestion(pat) {
      var nam := Instance(pat);
      InstanceMatches(pat);
      StarQuestionFails(nam, pat);
      assert StarFree(nam) && Glob(nam, pat) && !Wild(nam, pat);
    } else {
      forall nam: string | StarFree(nam) ensures Wild(nam, pat) <==> Glob(nam, pat) {
        Agrees(nam, pat);
      }
    }
  }

  /** A star in a name is taken for the pattern's star, and only for that. */
  lemma {:induction false} StarTaken(nam: string, i: nat)
    requires i < |nam| - 1 && nam[i] == '*' && forall k | 0 <= k < i :: nam[k] != '*'
    ensures Glob(nam, nam[..i] + ['*']) && !Wild(nam, nam[..i] + ['*'])
    decreases i
  {
    var pat := nam[..i] + ['*'];
    if i == 0 {
      assert pat == ['*'] && pat[1..] == [];
      assert nam[|nam|..] == [];
      StarTakes(nam, [], |nam|);
      assert ['*'] + [] == pat;
    } else {
      assert nam[1..][..i - 1] + ['*'] == pat[1..];
      assert forall k | 0 <= k < |nam[1..]| :: nam[1..][k] == nam[k + 1];
      StarTaken(nam[1..], i - 1);
    }
  }

  /** The names on which wildcmp is the glob for every pattern without `*?`: those
      with no star but perhaps the last character. */
  lemma NamesThatAgree(nam: string)
    ensures (forall pat: string | !StarQuestion(pat) :: Wild(nam, pat) <==> Glob(nam, pat)) <==> StarOnlyLast(nam)
  {
    if StarOnlyLast(nam) {
      forall pat: string | !StarQuestion(pat) ensures Wild(nam, pat) <==> Glob(nam, pat) {
        Agrees(nam, pat);
      }
    } else {
      var i := FirstStar(nam);
      StarTaken(nam, i);
      var pat := nam[..i] + ['*'];
      assert !StarQuestion(pat);
    }
  }

  lemma FirstStar(nam: string) returns (i: nat)
    requires !StarOnlyLast(nam)
    ensures i < |nam| - 1 && nam[i] == '*' && forall k | 0 <= k < i :: nam[k] != '*'
  {
    i := 0;
    while nam[i] != '*'
      invariant i < |nam| && forall k | 0 <= k < i :: nam[k] != '*'
      invariant exists k :: i <= k < |nam| - 1 && nam[k] == '*'
      decreases |nam| - i
    {
      i := i + 1;
    }
  }

  // ----- as it is written ----------------------------------------------------------------------

  method WildCmp(nam: string, pat: string) returns (r: bool)
    ensures r == Wild(nam, pat)
    decreases |pat|, 0
  {
    hide Same, SkipStars;
    var n, p := 0, 0;
    assert nam[0..] == nam && pat[0..] == pat;
    while true
      invariant 0 <= n <= |nam| && 0 <= p <= |pat|
      invariant Wild(nam, pat) == Wild(nam[n..], pat[p..])
      decreases |pat| - p
    {
      if n == |nam| && p == |pat| {
        return true;
      } else if n < |nam| && p < |pat| && (Same(nam[n], pat[p]) || pat[p] == '?') {
        Advance(nam, n, pat, p);
        n, p := n + 1, p + 1;
      } else {
        break;
      }
    }
    if p == |pat| || pat[p] != '*' {
      return false;
    }
    SkipsOne(pat[p..]);
    AtStar(nam[n..], pat[p..]);
    hide Wild;
    var q := PastStars(pat, p);
    if q == [] {
      return true;
    }
    r := FindSuffix(nam[n..], q);
  }

  lemma Advance(nam: string, n: nat, pat: string, p: nat)
    requires n < |nam| && p < |pat| && (Same(nam[n], pat[p]) || pat[p] == '?')
    ensures Wild(nam[n..], pat[p..]) == Wild(nam[n + 1..], pat[p + 1..])
  {
    hide Same;
    assert nam[n..][1..] == nam[n + 1..] && pat[p..][1..] == pat[p + 1..];
  }

  lemma AtStar(nam: string, pat: string)
    requires pat != [] && pat[0] == '*' && !(nam != [] && Same(nam[0], pat[0]))
    ensures var q := SkipStars(pat);
            Wild(nam, pat) <==> q == [] || exists i | 0 <= i < |nam| :: Same(nam[i], q[0]) && Wild(nam[i..], q)
  {
    hide Same;
  }

  method PastStars(pat: string, from: nat) returns (q: string)
    requires from < |pat| && pat[from] == '*'
    ensures q == SkipStars(pat[from..])
  {
    var p := from;
    while p < |pat| && pat[p] == '*'
      invariant from <= p <= |pat| && SkipStars(pat[from..]) == SkipStars(pat[p..])
    {
      assert pat[p..][1..] == pat[p + 1..];
      p := p + 1;
    }
    q := pat[p..];
  }

  /** From the end of the name, a suffix that matches. */
  method FindSuffix(nam: string, q: string) returns (r: bool)
    requires q != []
    ensures r <==> exists i | 0 <= i < |nam| :: Same(nam[i], q[0]) && Wild(nam[i..], q)
    decreases |q|, 1
  {
    hide Same, Wild;
    var i := |nam|;
    while i > 0
      invariant 0 <= i <= |nam|
      invariant forall k | i <= k < |nam| :: !(Same(nam[k], q[0]) && Wild(nam[k..], q))
    {
      i := i - 1;
      if Same(nam[i], q[0]) {
        var found := WildCmp(nam[i..], q);
        if found {
          return true;
        }
      }
    }
    r := false;
  }
}
