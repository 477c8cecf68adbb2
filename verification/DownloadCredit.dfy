/** Download credit (main/tagedit.c and the bookkeeping after a transfer in
    main/download.c): the tagged files, the user's totals and the four counters, and
    what every operation keeps. */
module DownloadCredit {
  import Wildcard

  /** An entry of the list of tagged files; `free` is FLAG_FREE. */
  datatype FFlag = FFlag(path: string, name: string, conf: int, size: nat, free: bool)

  /** A ratio of 0 is no limit. */
  datatype User = User(
    fileratio: nat, byteratio: nat, ulfiles: nat, ulbytes: nat, freedlfiles: nat, freedlbytes: nat, dlfiles: nat,
      dlbytes: nat)

  datatype Counters = Counters(files: nat, bytes: nat, ffiles: nat, fbytes: nat)

  datatype Tags = Tags(user: User, files: seq<FFlag>, n: Counters)

  // ----- sums ----------------------------------------------------------------------

  /** What recountfiles makes of a list. */
  function Sums(s: seq<FFlag>): Counters {
    if s == [] then Counters(0, 0, 0, 0)
    else Plus(Sums(s[..|s| - 1]), s[|s| - 1])
  }

  function Plus(c: Counters, f: FFlag): Counters {
    Counters(c.files + 1, c.bytes + f.size, c.ffiles + (if f.free then 1 else 0),
      c.fbytes + (if f.free then f.size else 0))
  }

  /** The files that count against the credit, and their bytes. */
  function Charged(c: Counters): int { c.files - c.ffiles }

  function ChargedBytes(c: Counters): int { c.bytes - c.fbytes }

  function Both(a: Counters, b: Counters): Counters {
    Counters(a.files + b.files, a.bytes + b.bytes, a.ffiles + b.ffiles, a.fbytes + b.fbytes)
  }

  lemma SumsSnoc(s: seq<FFlag>, f: FFlag)
    ensures Sums(s + [f]) == Plus(Sums(s), f)
  {
    assert (s + [f])[..|s|] == s;
  }

  lemma Nothing(pat: string)
    ensures Sums([]) == Counters(0, 0, 0, 0) && !AnyCharged([]) && Kept([], pat) == []
  {
  }

  lemma {:induction false} SumsAppend(a: seq<FFlag>, b: seq<FFlag>)
    ensures Sums(a + b) == Both(Sums(a), Sums(b))
    decreases |b|
  {
    Nothing("");
    hide Sums;
    if b == [] {
      assert a + b == a;
    } else {
      var (t, f) := (b[..|b| - 1], b[|b| - 1]);
      assert b == t + [f] && a + b == (a + t) + [f];
      SumsAppend(a, t);
      SumsSnoc(t, f);
      SumsSnoc(a + t, f);
    }
  }

  predicate AnyCharged(s: seq<FFlag>) { exists i | 0 <= i < |s| :: !s[i].free }

  lemma AnyChargedSnoc(s: seq<FFlag>, f: FFlag)
    ensures AnyCharged(s + [f]) <==> AnyCharged(s) || !f.free
  {
    var t := s + [f];
    if AnyCharged(s) {
      var i :| 0 <= i < |s| && !s[i].free;
      assert t[i] == s[i];
    }
    if !f.free {
      assert t[|s|] == f;
    }
    if AnyCharged(t) && f.free {
      var i :| 0 <= i < |t| && !t[i].free;
      assert s[i] == t[i];
    }
  }

  lemma {:induction false} SumsBounds(s: seq<FFlag>)
    ensures var c := Sums(s);
            && c.files == |s| && 0 <= c.ffiles <= c.files && 0 <= c.fbytes <= c.bytes
            && (Charged(c) > 0 <==> AnyCharged(s))
            && (!AnyCharged(s) ==> ChargedBytes(c) == 0)
    decreases |s|
  {
    Nothing("");
    hide Sums, AnyCharged;
    if s != [] {
      var (t, f) := (s[..|s| - 1], s[|s| - 1]);
      assert s == t + [f];
      SumsBounds(t);
      SumsSnoc(t, f);
      AnyChargedSnoc(t, f);
    }
  }

  // ----- the operations ---------------------------------------------------------------

  /** strcasecmp finds no difference. */
  predicate SameName(a: string, b: string) {
    |a| == |b| && forall i | 0 <= i < |a| :: Wildcard.Same(a[i], b[i])
  }

  predicate Tagged(s: seq<FFlag>, name: string) { exists i | 0 <= i < |s| :: SameName(s[i].name, name) }

  /** What the user may download. */
  function FileCredit(u: User): nat { u.fileratio * u.ulfiles + u.freedlfiles }

  function ByteCredit(u: User): nat { u.byteratio * u.ulbytes + u.freedlbytes }

  /** The two tests of addtag for a file that is not free. */
  predicate OverFiles(u: User, n: Counters) {
    u.fileratio != 0 && FileCredit(u) < u.dlfiles + 1 + n.files - n.ffiles
  }

  predicate OverBytes(u: User, n: Counters, size: nat) {
    u.byteratio != 0 && ByteCredit(u) < u.dlbytes + size + n.bytes - n.fbytes
  }

  /** addtag: the new state and its code. */
  function AddTag(t: Tags, f: FFlag): (Tags, int) {
    if !f.free && OverFiles(t.user, t.n) then (t, 1)
    else if !f.free && OverBytes(t.user, t.n, f.size) then (t, 2)
    else if Tagged(t.files, f.name) then (t, 3)
    else (t.(files := t.files + [f], n := Plus(t.n, f)), if f.free then 4 else 0)
  }

  /** The files whose name does not match the pattern. */
  function Kept(s: seq<FFlag>, pat: string): seq<FFlag> {
    if s == [] then []
    else Kept(s[..|s| - 1], pat) + if Wildcard.Wild(s[|s| - 1].name, pat) then [] else [s[|s| - 1]]
  }

  /** unflagfile: the new state and the number of files taken off. */
  function Unflag(t: Tags, pat: string): (Tags, int) {
    var k := Kept(t.files, pat);
    (t.(files := k, n := Sums(k)), |t.files| - |k|)
  }

  /** How many of the tagged files have been sent when `last` was the last one. */
  function SentCount(s: seq<FFlag>, last: string): (k: nat)
    ensures k <= |s|
  {
    if s == [] then 0 else if SameName(last, s[0].name) then 1 else 1 + SentCount(s[1..], last)
  }

  /** The user pays for a file that was sent. */
  function Pay(u: User, f: FFlag): User {
    if f.free then u else u.(dlfiles := u.dlfiles + 1, dlbytes := u.dlbytes + f.size)
  }

  function PayAll(u: User, s: seq<FFlag>): User {
    if s == [] then u else Pay(PayAll(u, s[..|s| - 1]), s[|s| - 1])
  }

  /** The bookkeeping after a transfer; an empty `last` is no file sent. */
  function Downloaded(t: Tags, last: string): Tags {
    var k := if last == "" then 0 else SentCount(t.files, last);
    t.(user := PayAll(t.user, t.files[..k]), files := t.files[k..], n := Sums(t.files[k..]))
  }

  // ----- what every operation keeps ------------------------------------------------------

  predicate Distinct(s: seq<FFlag>) { forall i, j | 0 <= i < j < |s| :: !SameName(s[i].name, s[j].name) }

  /** With a limit and anything tagged that is charged, what is downloaded and what is
      tagged stay within the credit. */
  predicate WithinCredit(u: User, s: seq<FFlag>) {
    AnyCharged(s) ==>
      && (u.fileratio != 0 ==> u.dlfiles + Charged(Sums(s)) <= FileCredit(u))
      && (u.byteratio != 0 ==> u.dlbytes + ChargedBytes(Sums(s)) <= ByteCredit(u))
  }

  predicate Sound(t: Tags) {
    t.n == Sums(t.files) && WithinCredit(t.user, t.files) && Distinct(t.files)
  }

  lemma AddTagSound(t: Tags, f: FFlag)
    requires Sound(t)
    ensures var (t', code) := AddTag(t, f);
            && Sound(t') && t'.user == t.user
            && (code == 0 || code == 4 ==> t'.files == t.files + [f])
            && (code == 1 || code == 2 || code == 3 ==> t' == t)
  {
    SumsSnoc(t.files, f);
    AnyChargedSnoc(t.files, f);
    SumsBounds(t.files);
    hide SameName, Sums, AnyCharged, FileCredit, ByteCredit;
  }

  /** What is downloaded and what is tagged, charged, stay within the credit. */
  predicate FilesFit(u: User, s: seq<FFlag>) { u.fileratio != 0 ==> u.dlfiles + Charged(Sums(s)) <= FileCredit(u) }

  predicate BytesFit(u: User, s: seq<FFlag>) { u.byteratio != 0 ==> u.dlbytes + ChargedBytes(Sums(s)) <= ByteCredit(u) }

  /** A file is taken exactly if it is not tagged yet and is free or leaves the account
      within its credit; the code tells the first reason against it. */
  lemma AddTagDecides(t: Tags, f: FFlag)
    requires Sound(t)
    ensures var (code, s) := (AddTag(t, f).1, t.files + [f]);
            var (files, bytes) := (f.free || FilesFit(t.user, s), f.free || BytesFit(t.user, s));
            && 0 <= code <= 4
            && (code == 1 <==> !files)
            && (code == 2 <==> files && !bytes)
            && (code == 3 <==> files && bytes && Tagged(t.files, f.name))
            && (code == 4 ==> f.free)
            && (code == 0 ==> !f.free)
  {
    SumsSnoc(t.files, f);
    hide Sums, Tagged, Distinct, WithinCredit, FileCredit, ByteCredit;
  }

  lemma KeptSnoc(s: seq<FFlag>, f: FFlag, pat: string)
    ensures Kept(s + [f], pat) == (if Wildcard.Wild(f.name, pat) then Kept(s, pat) else Kept(s, pat) + [f])
  {
    hide Wildcard.Wild;
    assert (s + [f])[..|s|] == s;
  }

  lemma {:induction false} KeptIsLess(s: seq<FFlag>, pat: string)
    ensures var (k, c, d) := (Kept(s, pat), Sums(Kept(s, pat)), Sums(s));
            && |k| <= |s|
            && Charged(c) <= Charged(d) && ChargedBytes(c) <= ChargedBytes(d)
            && (AnyCharged(k) ==> AnyCharged(s))
            && (forall x :: x in k <==> x in s && !Wildcard.Wild(x.name, pat))
    decreases |s|
  {
    Nothing(pat);
    hide Wildcard.Wild, Sums, AnyCharged, Kept;
    if s != [] {
      var (t, f) := (s[..|s| - 1], s[|s| - 1]);
      assert s == t + [f];
      KeptIsLess(t, pat);
      KeptSnoc(t, f, pat);
      SumsSnoc(t, f);
      SumsSnoc(Kept(t, pat), f);
      AnyChargedSnoc(t, f);
      AnyChargedSnoc(Kept(t, pat), f);
    }
  }

  lemma DistinctSnoc(t: seq<FFlag>, f: FFlag)
    ensures Distinct(t + [f]) <==> Distinct(t) && forall x :: x in t ==> !SameName(x.name, f.name)
  {
    hide SameName;
    var s := t + [f];
    if Distinct(s) {
      forall i, j | 0 <= i < j < |t| ensures !SameName(t[i].name, t[j].name) {
        assert s[i] == t[i] && s[j] == t[j];
      }
      forall x | x in t ensures !SameName(x.name, f.name) {
        var i :| 0 <= i < |t| && t[i] == x;
        assert s[i] == x && s[|t|] == f;
      }
    }
  }

  lemma {:induction false} KeptDistinct(s: seq<FFlag>, pat: string)
    requires Distinct(s)
    ensures Distinct(Kept(s, pat))
    decreases |s|
  {
    hide Wildcard.Wild, SameName, Kept, Sums, AnyCharged, Distinct;
    if s == [] {
      Nothing(pat);
    } else {
      var (t, f) := (s[..|s| - 1], s[|s| - 1]);
      assert s == t + [f];
      DistinctSnoc(t, f);
      KeptDistinct(t, pat);
      KeptIsLess(t, pat);
      KeptSnoc(t, f, pat);
      DistinctSnoc(Kept(t, pat), f);
    }
  }

  lemma UnflagSound(t: Tags, pat: string)
    requires Sound(t)
    ensures var (t', count) := Unflag(t, pat);
            && Sound(t') && t'.user == t.user && count == |t.files| - |t'.files| >= 0
            && forall x :: x in t'.files <==> x in t.files && !Wildcard.Wild(x.name, pat)
  {
    hide FileCredit, ByteCredit, Sums, AnyCharged, Kept;
    KeptIsLess(t.files, pat);
    KeptDistinct(t.files, pat);
  }

  /** One more file is paid for and counted. */
  lemma PayOne(u: User, v: User, c: Counters, f: FFlag)
    requires v == u.(dlfiles := v.dlfiles, dlbytes := v.dlbytes)
    requires v.dlfiles == u.dlfiles + Charged(c) && v.dlbytes == u.dlbytes + ChargedBytes(c)
    ensures Pay(v, f).dlfiles == u.dlfiles + Charged(Plus(c, f))
    ensures Pay(v, f).dlbytes == u.dlbytes + ChargedBytes(Plus(c, f))
    ensures Pay(v, f) == u.(dlfiles := Pay(v, f).dlfiles, dlbytes := Pay(v, f).dlbytes)
  {
  }

  lemma {:induction false} PayAllSums(u: User, s: seq<FFlag>)
    ensures PayAll(u, s) == u.(dlfiles := PayAll(u, s).dlfiles, dlbytes := PayAll(u, s).dlbytes)
    ensures PayAll(u, s).dlfiles == u.dlfiles + Charged(Sums(s))
            && PayAll(u, s).dlbytes == u.dlbytes + ChargedBytes(Sums(s))
    decreases |s|
  {
    hide Sums;
    if s == [] {
      Nothing("");
    } else {
      var (t, f) := (s[..|s| - 1], s[|s| - 1]);
      assert s == t + [f];
      PayAllSums(u, t);
      SumsSnoc(t, f);
      PayOne(u, PayAll(u, t), Sums(t), f);
    }
  }

  /** The files up to and with the first one called `last`, or all of them. */
  lemma {:induction false} SentUpToLast(s: seq<FFlag>, last: string)
    ensures var k := SentCount(s, last);
            && (forall i | 0 <= i < k - 1 :: !SameName(last, s[i].name))
            && (k < |s| ==> k > 0 && SameName(last, s[k - 1].name))
    decreases |s|
  {
    hide SameName;
    if s != [] && !SameName(last, s[0].name) {
      var (k, t) := (SentCount(s[1..], last), s[1..]);
      SentUpToLast(t, last);
      assert SentCount(s, last) == k + 1;
      forall i | 0 <= i < k ensures !SameName(last, s[i].name) {
        assert i > 0 ==> s[i] == t[i - 1];
      }
      assert k > 0 && k < |t| ==> s[k] == t[k - 1];
    }
  }

  /** What is left is the list behind the first file called `last`, or nothing. */
  lemma DownloadTakes(t: Tags, last: string)
    ensures var t' := Downloaded(t, last);
            && |t'.files| <= |t.files|
            && var k := |t.files| - |t'.files|;
               && t'.files == t.files[k..]
               && (forall i | 0 <= i < k - 1 :: !SameName(last, t.files[i].name))
               && (if last == "" then k == 0 else k < |t.files| ==> k > 0 && SameName(last, t.files[k - 1].name))
  {
    hide Sums, SameName, PayAll;
    SentUpToLast(t.files, last);
  }

  /** Moving sent files from tagged to downloaded keeps the total, in files and in
      bytes, and touches nothing else of the account. */
  lemma DownloadConserves(t: Tags, last: string)
    requires Sound(t)
    ensures var t' := Downloaded(t, last);
            && t'.user.dlfiles + Charged(t'.n) == t.user.dlfiles + Charged(t.n)
            && t'.user.dlbytes + ChargedBytes(t'.n) == t.user.dlbytes + ChargedBytes(t.n)
            && t'.user == t.user.(dlfiles := t'.user.dlfiles, dlbytes := t'.user.dlbytes)
  {
    hide Sums, SameName, SentCount, WithinCredit, Distinct;
    var k := if last == "" then 0 else SentCount(t.files, last);
    var (a, b) := (t.files[..k], t.files[k..]);
    assert t.files == a + b;
    SumsAppend(a, b);
    PayAllSums(t.user, a);
    hide PayAll;
  }

  lemma PayNothing(u: User)
    ensures PayAll(u, []) == u
  {
  }

  lemma DownloadSound(t: Tags, last: string)
    requires Sound(t)
    ensures Sound(Downloaded(t, last))
  {
    hide Downloaded, SameName, Sums, WithinCredit, Distinct, AnyCharged;
    DownloadConserves(t, last);
    CountersAreSums(t, last);
    var t' := Downloaded(t, last);
    DownloadTakes(t, last);
    var k := |t.files| - |t'.files|;
    SuffixDistinct(t.files, k);
    if AnyCharged(t'.files) {
      SuffixCharged(t.files, k);
    }
    SameCredit(t.user, t'.user);
    StillWithin(t, t');
  }

  lemma StillWithin(t: Tags, t': Tags)
    requires WithinCredit(t.user, t.files) && t.n == Sums(t.files) && t'.n == Sums(t'.files)
    requires AnyCharged(t'.files) ==> AnyCharged(t.files)
    requires t'.user.dlfiles + Charged(t'.n) == t.user.dlfiles + Charged(t.n)
    requires t'.user.dlbytes + ChargedBytes(t'.n) == t.user.dlbytes + ChargedBytes(t.n)
    requires t'.user == t.user.(dlfiles := t'.user.dlfiles, dlbytes := t'.user.dlbytes)
    requires FileCredit(t'.user) == FileCredit(t.user) && ByteCredit(t'.user) == ByteCredit(t.user)
    ensures WithinCredit(t'.user, t'.files)
  {
    hide FileCredit, ByteCredit, Sums, AnyCharged;
  }

  lemma SameCredit(u: User, v: User)
    requires v == u.(dlfiles := v.dlfiles, dlbytes := v.dlbytes)
    ensures FileCredit(v) == FileCredit(u) && ByteCredit(v) == ByteCredit(u)
  {
  }

  lemma SuffixCharged(s: seq<FFlag>, k: nat)
    requires k <= |s| && AnyCharged(s[k..])
    ensures AnyCharged(s)
  {
    var i :| 0 <= i < |s[k..]| && !s[k..][i].free;
    assert s[k + i] == s[k..][i];
  }

  lemma CountersAreSums(t: Tags, last: string)
    ensures Downloaded(t, last).n == Sums(Downloaded(t, last).files)
  {
  }

  lemma SuffixDistinct(s: seq<FFlag>, k: nat)
    requires Distinct(s) && k <= |s|
    ensures Distinct(s[k..])
  {
    hide SameName;
  }

  // ----- every run -----------------------------------------------------------------------------

  datatype Operation =
    | Tagging(f: FFlag)
    | Unflagging(pat: string)
    | Download(last: string)
    | Upload(files: nat, bytes: nat)

  function Apply(t: Tags, op: Operation): Tags {
    match op
    case Tagging(f) => AddTag(t, f).0
    case Unflagging(pat) => Unflag(t, pat).0
    case Download(last) => Downloaded(t, last)
    case Upload(files, bytes) => t.(user := t.user.(ulfiles := t.user.ulfiles + files,
      ulbytes := t.user.ulbytes + bytes))
  }

  function RunAll(t: Tags, ops: seq<Operation>): Tags {
    if ops == [] then t else Apply(RunAll(t, ops[..|ops| - 1]), ops[|ops| - 1])
  }

  lemma UploadSound(t: Tags, files: nat, bytes: nat)
    requires Sound(t)
    ensures Sound(Apply(t, Upload(files, bytes)))
  {
    MoreCredit(t.user.fileratio, t.user.ulfiles, files);
    MoreCredit(t.user.byteratio, t.user.ulbytes, bytes);
  }

  lemma MoreCredit(ratio: nat, ul: nat, more: nat)
    ensures ratio * ul <= ratio * (ul + more)
  {
  }

  /** The credit is never overdrawn: over every run, from any account with nothing
      tagged, the counters are the list's sums, no name is tagged twice, and as long as
      a charged file is tagged, downloads and charged tags stay within the credit. */
  lemma {:induction false} NeverOverdrawn(u: User, ops: seq<Operation>)
    ensures Sound(RunAll(Tags(u, [], Counters(0, 0, 0, 0)), ops))
    decreases |ops|
  {
    hide AddTag, Unflag, Downloaded, WithinCredit, Distinct, Sums;
    var t0 := Tags(u, [], Counters(0, 0, 0, 0));
    if ops == [] {
      NothingTagged(u);
    } else {
      var t := RunAll(t0, ops[..|ops| - 1]);
      NeverOverdrawn(u, ops[..|ops| - 1]);
      match ops[|ops| - 1] {
        case Tagging(f) => AddTagSound(t, f);
        case Unflagging(pat) => UnflagSound(t, pat);
        case Download(last) => DownloadSound(t, last);
        case Upload(files, bytes) => UploadSound(t, files, bytes);
      }
    }
  }

  lemma NothingTagged(u: User)
    ensures Sound(Tags(u, [], Counters(0, 0, 0, 0)))
  {
  }
}
