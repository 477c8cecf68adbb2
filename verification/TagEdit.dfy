/** addtag, isfiletagged, unflagfile, recountfiles and the loop after a download as
    they are written, over the linked list; each is proved to do what DownloadCredit
    says. */
module TagEdit {
  import opened DownloadCredit
  import opened NodeList
  import Wildcard

  class Editor {
    const flagged: List
    var user: User
    /** filestagged, bytestagged, ffilestagged and fbytestagged. */
    var n: Counters

    ghost predicate Valid()
      reads this, flagged, flagged.all
    {
      flagged.Valid()
    }

    ghost function State(): Tags
      requires Valid()
      reads this, flagged, flagged.all
    {
      Tags(user, flagged.Files(), n)
    }

    constructor (u: User)
      ensures Valid() && fresh(flagged) && fresh(flagged.repr) && State() == Tags(u, [], Counters(0, 0, 0, 0))
    {
      flagged := new List();
      user := u;
      n := Counters(0, 0, 0, 0);
    }

    method RecountFiles()
      requires Valid()
      modifies this`n
      ensures Valid() && n == Sums(flagged.Files())
    {
      hide Sums, List.Valid, List.Files, List.Nodes, Entries, Plus;
      FirstNode(flagged);
      FilesBetween(flagged);
      Nothing("");
      EntriesNone();
      n := Counters(0, 0, 0, 0);
      var myf: Node := flagged.head.succ;
      ghost var i: nat := 1;
      assert flagged.all[1..1] == [];
      while myf.succ != null
        invariant flagged.Valid() && 1 <= i < |flagged.all| && myf == flagged.all[i]
        invariant n == Sums(Entries(flagged.all[1..i]))
        decreases |flagged.all| - i
      {
        NotLast(flagged, i);
        OneMore(flagged.all, i);
        CountIn(myf.file);
        myf := myf.succ;
        i := i + 1;
      }
      NotLast(flagged, i);
    }

    /** The loops stop at the face behind the last entry, and only there. */
    static lemma NotLast(l: List, i: nat)
      requires l.Valid() && i < |l.all|
      ensures (l.all[i].succ == null) == (i == |l.all| - 1)
      ensures i < |l.all| - 1 ==> l.all[i].succ == l.all[i + 1]
    {
      if i < |l.all| - 1 {
        assert l.all[i].succ == l.all[i + 1];
      }
    }

    static lemma FirstNode(l: List)
      requires l.Valid()
      ensures |l.all| >= 2 && (forall n | n in l.all :: n in l.repr) && l.head.succ == l.all[1]
              && l.Nodes() == l.all[1..|l.all| - 1]
    {
    }

    static lemma FilesBetween(l: List)
      requires l.Valid()
      ensures l.Files() == Entries(l.all[1..|l.all| - 1])
    {
    }

    /** A file is added to the counters. */
    method CountIn(f: FFlag)
      modifies this`n
      ensures n == Plus(old(n), f)
    {
      n := n.(files := n.files + 1, bytes := n.bytes + f.size);
      if f.free {
        n := n.(ffiles := n.ffiles + 1, fbytes := n.fbytes + f.size);
      }
    }

    static lemma OneMore(all: seq<Node>, i: nat)
      requires 1 <= i < |all|
      ensures Sums(Entries(all[1..i + 1])) == Plus(Sums(Entries(all[1..i])), all[i].file)
    {
      hide Sums;
      assert all[1..i + 1] == all[1..i] + [all[i]];
      EntriesSnoc(all[1..i], all[i]);
      SumsSnoc(Entries(all[1..i]), all[i].file);
    }

    static lemma EntriesNone()
      ensures Entries([]) == []
    {
    }

    static lemma EntriesSnoc(s: seq<Node>, n: Node)
      ensures Entries(s + [n]) == Entries(s) + [n.file]
    {
    }

    method IsFileTagged(name: string) returns (r: bool)
      requires Valid()
      ensures r == Tagged(flagged.Files(), name)
    {
      hide SameName;
      var myf := flagged.head.succ;
      ghost var i := 1;
      while myf.succ != null
        invariant 1 <= i < |flagged.all| && myf == flagged.all[i]
        invariant forall k | 1 <= k < i :: !SameName(flagged.all[k].file.name, name)
        decreases |flagged.all| - i
      {
        NotLast(flagged, i);
        if SameName(myf.file.name, name) {
          assert flagged.Files()[i - 1] == myf.file;
          return true;
        }
        myf := myf.succ;
        i := i + 1;
      }
      NotLast(flagged, i);
      forall k | 0 <= k < |flagged.Files()| ensures !SameName(flagged.Files()[k].name, name) {
        assert flagged.Files()[k] == flagged.all[k + 1].file;
      }
      r := false;
    }

    method AddTag(f: FFlag) returns (code: int)
      requires Valid()
      modifies this`n, flagged, flagged.repr
      ensures Valid()
      ensures (State(), code) == DownloadCredit.AddTag(old(State()), f)
    {
      hide Tagged, FileCredit, ByteCredit, List.Valid, List.Files, List.Nodes;
      if !f.free {
        if user.fileratio != 0 {
          if FileCredit(user) < user.dlfiles + 1 + n.files - n.ffiles {
            return 1;
          }
        }
        if user.byteratio != 0 {
          if ByteCredit(user) < user.dlbytes + f.size + n.bytes - n.fbytes {
            return 2;
          }
        }
      }
      var tagged := IsFileTagged(f.name);
      if tagged {
        return 3;
      }
      CountIn(f);
      AppendFile(f);
      code := if f.free then 4 else 0;
    }

    method AppendFile(f: FFlag)
      requires Valid()
      modifies flagged, flagged.repr
      ensures Valid() && flagged.Files() == old(flagged.Files()) + [f]
    {
      var myf := new Node(f);
      ghost var before := flagged.Nodes();
      flagged.AddTail(myf);
      EntriesSnoc(before, myf);
    }

    method UnflagFile(pat: string) returns (cnt: int)
      requires Valid()
      modifies this`n, flagged, flagged.repr
      ensures Valid()
      ensures (State(), cnt) == Unflag(old(State()), pat)
    {
      hide Kept, Sums, Unflag;
      cnt := TakeMatching(pat);
      RecountFiles();
      Unflagged(old(State()), State(), pat, cnt);
    }

    /** The loop of unflagfile. */
    method TakeMatching(pat: string) returns (cnt: int)
      requires Valid()
      modifies flagged, flagged.repr
      ensures Valid() && flagged.Files() == Kept(old(flagged.Files()), pat)
      ensures cnt == |old(flagged.Files())| - |flagged.Files()|
    {
      ghost var nodes := flagged.Nodes();
      cnt := 0;
      StartWalk(pat);
      var myf: Node := flagged.head.succ;
      ghost var i: nat := 1;
      ghost var done: nat := 0;
      hide Walking, Kept, Wildcard.Wild, List.Valid, Entries;
      while myf.succ != null
        invariant Walking(myf, pat, i, nodes, done)
        invariant cnt == done - (i - 1) && flagged.repr == old(flagged.repr)
        decreases |nodes| - done
      {
        var matches;
        myf, matches, i := Visit(myf, pat, i, nodes, done);
        if matches {
          cnt := cnt + 1;
        }
        done := done + 1;
      }
      EndWalk(myf, pat, i, nodes, done);
    }

    static lemma Unflagged(t: Tags, t': Tags, pat: string, cnt: int)
      requires t' == t.(files := Kept(t.files, pat), n := Sums(Kept(t.files, pat))) && cnt == |t.files| - |t'.files|
      ensures (t', cnt) == Unflag(t, pat)
    {
      hide Kept, Sums;
    }

    /** `done` of the `nodes` have been looked at; the walk is at position `i` of
        `all`, and what is kept of them is in front of it. */
    static ghost predicate Seen(all: seq<Node>, pat: string, i: nat, nodes: seq<Node>, done: nat) {
      && 1 <= i < |all| && done <= |nodes|
      && all[i..|all| - 1] == nodes[done..]
      && Entries(all[1..i]) == Kept(Entries(nodes)[..done], pat)
    }

    ghost predicate Walking(myf: Node, pat: string, i: nat, nodes: seq<Node>, done: nat)
      reads this, flagged, flagged.all, myf
    {
      && flagged.Valid() && Seen(flagged.all, pat, i, nodes, done) && myf == flagged.all[i]
      && (myf.succ == null ==> i == |flagged.all| - 1)
      && (myf.succ != null ==> i < |flagged.all| - 1 && done < |nodes|)
    }

    lemma StartWalk(pat: string)
      requires Valid()
      ensures flagged.head.succ == flagged.all[1] && Walking(flagged.all[1], pat, 1, flagged.Nodes(), 0)
    {
      hide Wildcard.Wild, Sums;
      Nothing(pat);
      FirstNode(flagged);
      NotLast(flagged, 1);
      ghost var nodes := flagged.Nodes();
      assert flagged.all[1..1] == [] && Entries(nodes)[..0] == [] && flagged.all[1..|flagged.all| - 1] == nodes[0..];
    }

    lemma EndWalk(myf: Node, pat: string, i: nat, nodes: seq<Node>, done: nat)
      requires Walking(myf, pat, i, nodes, done) && myf.succ == null
      ensures Valid() && flagged.Files() == Kept(Entries(nodes), pat) && done == |nodes| && i - 1 == |flagged.Files()|
    {
      hide Kept;
      FirstNode(flagged);
      assert flagged.all[i..|flagged.all| - 1] == [];
      assert Entries(nodes)[..done] == Entries(nodes);
    }

    /** One entry: taken out if its name matches, passed over if not. */
    method Visit(myf: Node, pat: string, ghost i: nat, ghost nodes: seq<Node>, ghost done: nat)
      returns (next: Node, matches: bool, ghost j: nat)
      requires Walking(myf, pat, i, nodes, done) && myf.succ != null
      modifies flagged, flagged.repr
      ensures j == (if matches then i else i + 1) && done < |nodes|
      ensures Walking(next, pat, j, nodes, done + 1)
      ensures flagged.repr == old(flagged.repr)
    {
      hide Kept, Wildcard.Wild, List.Valid, Entries, Seen;
      SeenOne(flagged.all, pat, i, nodes, done);
      matches := Wildcard.WildCmp(myf.file.name, pat);
      NotLast(flagged, i);
      j := i;
      if matches {
        flagged.Remove(myf, i);
      } else {
        j := i + 1;
      }
      next := myf.succ;
      NotLast(flagged, j);
      StillMore(flagged.all, pat, j, nodes, done + 1);
    }

    static lemma StillMore(all: seq<Node>, pat: string, j: nat, nodes: seq<Node>, done: nat)
      requires Seen(all, pat, j, nodes, done)
      ensures 1 <= j < |all| && (j < |all| - 1 ==> done < |nodes|)
    {
      assert |all[j..|all| - 1]| == |nodes[done..]|;
    }

    /** One node further, with the node taken out or passed over. */
    static lemma SeenOne(all: seq<Node>, pat: string, i: nat, nodes: seq<Node>, done: nat)
      requires Seen(all, pat, i, nodes, done) && i < |all| - 1
      ensures done < |nodes| && 1 <= i < |all|
      ensures if Wildcard.Wild(all[i].file.name, pat) then
                var r := all[..i] + all[i + 1..]; r[i] == all[i + 1] && Seen(r, pat, i, nodes, done + 1)
              else Seen(all, pat, i + 1, nodes, done + 1)
    {
      hide Kept, Wildcard.Wild, Entries;
      NextNodes(all, nodes, i, done);
      KeptOne(nodes, done, pat);
      if Wildcard.Wild(all[i].file.name, pat) {
        TakenOut(all, i);
      } else {
        EntriesSnoc(all[1..i], all[i]);
        assert all[1..i + 1] == all[1..i] + [all[i]];
      }
    }

    /** A list without the node at `i`. */
    static lemma TakenOut(all: seq<Node>, i: nat)
      requires 1 <= i < |all| - 1
      ensures var r := all[..i] + all[i + 1..];
              r[1..i] == all[1..i] && r[i..|r| - 1] == all[i + 1..|all| - 1] && r[i] == all[i + 1]
    {
    }

    static lemma NextNodes(all: seq<Node>, nodes: seq<Node>, i: nat, done: nat)
      requires 1 <= i < |all| - 1 && done <= |nodes| && all[i..|all| - 1] == nodes[done..]
      ensures done < |nodes| && all[i] == nodes[done] && all[i + 1..|all| - 1] == nodes[done + 1..]
    {
      assert |all[i..|all| - 1]| == |nodes[done..]|;
      assert all[i..|all| - 1][0] == all[i] && nodes[done..][0] == nodes[done];
      assert all[i + 1..|all| - 1] == all[i..|all| - 1][1..] && nodes[done..][1..] == nodes[done + 1..];
    }

    static lemma KeptOne(nodes: seq<Node>, done: nat, pat: string)
      requires done < |nodes|
      ensures var (files, f) := (Entries(nodes), nodes[done].file);
              Kept(files[..done + 1], pat) == if Wildcard.Wild(f.name, pat) then Kept(files[..done], pat)
                else Kept(files[..done], pat) + [f]
    {
      hide Kept, Wildcard.Wild;
      var (files, f) := (Entries(nodes), nodes[done].file);
      assert files[..done + 1] == files[..done] + [f];
      KeptSnoc(files[..done], f, pat);
    }

    /** The loop after a transfer, with the files that go into the download log. */
    method Downloaded(lastfile: string) returns (log: seq<FFlag>)
      requires Valid()
      modifies this, flagged, flagged.repr
      ensures Valid()
      ensures State() == DownloadCredit.Downloaded(old(State()), lastfile)
      ensures old(flagged.Files()) == log + flagged.Files()
    {
      hide SentCount, Sums, PayAll, SameName;
      log := [];
      ghost var u := user;
      ghost var files := flagged.Files();
      ghost var k := if lastfile == "" then 0 else SentCount(files, lastfile);
      PayNothing(user);
      assert files[..0] == [] && files[0..] == files;
      if lastfile != "" {
        log := TakeSent(lastfile);
      }
      assert log == files[..k];
      RecountFiles();
    }

    method TakeSent(lastfile: string) returns (log: seq<FFlag>)
      requires Valid()
      modifies this`user, flagged, flagged.repr
      ensures Valid()
      ensures var files := old(flagged.Files());
              var k := SentCount(files, lastfile);
              log == files[..k] && flagged.Files() == files[k..] && user == PayAll(old(user), log)
    {
      ghost var files := flagged.Files();
      log := [];
      var keepc := true;
      FirstNode(flagged);
      var myf: Node := flagged.head.succ;
      StartTaking(user, files, lastfile);
      NotLast(flagged, 1);
      hide Taking, List.Valid, List.Files, List.Nodes, SameName, SentCount, PayAll;
      while myf.succ != null && keepc
        invariant flagged.Valid() && |flagged.all| >= 2 && myf == flagged.all[1]
        invariant (myf.succ == null) == (|flagged.all| == 2)
        invariant Taking(old(user), files, log, flagged.Files(), keepc, lastfile, user)
        invariant flagged.repr == old(flagged.repr)
        decreases |flagged.all|
      {
        ghost var u := user;
        var f := myf.file;
        myf, keepc := TakeSentFile(myf, lastfile);
        TakeOne(old(user), files, log, flagged.Files(), f, lastfile, u);
        log := log + [f];
      }
      if keepc {
        EmptyList(flagged);
      }
      EndTaking(old(user), files, log, flagged.Files(), keepc, lastfile, user);
    }

    static lemma EmptyList(l: List)
      requires l.Valid() && |l.all| == 2
      ensures l.Files() == []
    {
      assert l.Nodes() == [];
    }

    /** `log` has been taken off `files`, `rest` is left. */
    static ghost predicate Taking(u0: User, files: seq<FFlag>, log: seq<FFlag>, rest: seq<FFlag>, keepc: bool,
        last: string, u: User) {
      && files == log + rest
      && u == PayAll(u0, log)
      && SentCount(files, last) == |log| + (if keepc then SentCount(rest, last) else 0)
    }

    static lemma StartTaking(u: User, files: seq<FFlag>, last: string)
      ensures Taking(u, files, [], files, true, last, u)
    {
      hide SentCount;
      PayNothing(u);
      assert [] + files == files;
    }

    static lemma TakeOne(u0: User, files: seq<FFlag>, log: seq<FFlag>, rest: seq<FFlag>, f: FFlag, last: string,
        u: User)
      requires Taking(u0, files, log, [f] + rest, true, last, u)
      ensures Taking(u0, files, log + [f], rest, !SameName(last, f.name), last, Pay(u, f))
    {
      hide SentCount, SameName, PayAll;
      CountFirst(f, rest, last);
      PaySnoc(u0, log, f);
      assert log + ([f] + rest) == log + [f] + rest;
    }

    static lemma EndTaking(u0: User, files: seq<FFlag>, log: seq<FFlag>, rest: seq<FFlag>, keepc: bool, last: string,
        u: User)
      requires Taking(u0, files, log, rest, keepc, last, u) && (keepc ==> rest == [])
      ensures var k := SentCount(files, last); log == files[..k] && rest == files[k..] && u == PayAll(u0, log)
    {
      hide PayAll;
      CountNone(last);
      hide SentCount;
      assert files[..|log|] == log && files[|log|..] == rest;
    }

    /** The body of the loop: pay for the first entry, see whether it was the last one
        sent, and take it out. */
    method TakeSentFile(myf: Node, lastfile: string) returns (next: Node, keepc: bool)
      requires Valid() && |flagged.all| > 2 && myf == flagged.all[1]
      modifies this`user, flagged, flagged.repr
      ensures Valid() && |flagged.all| == old(|flagged.all|) - 1 && next == flagged.all[1]
      ensures (next.succ == null) == (|flagged.all| == 2)
      ensures old(flagged.Files()) == [myf.file] + flagged.Files()
      ensures flagged.repr == old(flagged.repr)
      ensures user == Pay(old(user), myf.file) && keepc == !SameName(lastfile, myf.file.name)
    {
      hide List.Valid, List.Files, List.Nodes, SameName;
      if !myf.file.free {
        user := user.(dlbytes := user.dlbytes + myf.file.size, dlfiles := user.dlfiles + 1);
      }
      keepc := !SameName(lastfile, myf.file.name);
      next := TakeFirst(myf);
    }

    /** The first entry comes out of the list. */
    method TakeFirst(myf: Node) returns (next: Node)
      requires Valid() && |flagged.all| > 2 && myf == flagged.all[1]
      modifies flagged, flagged.repr
      ensures Valid() && |flagged.all| == old(|flagged.all|) - 1 && next == flagged.all[1]
      ensures (next.succ == null) == (|flagged.all| == 2)
      ensures old(flagged.Files()) == [myf.file] + flagged.Files()
      ensures flagged.repr == old(flagged.repr)
    {
      hide List.Valid;
      ghost var all := flagged.all;
      FirstNode(flagged);
      assert flagged.Nodes() == [myf] + all[2..|all| - 1];
      FirstEntry(myf, all[2..|all| - 1]);
      flagged.Remove(myf, 1);
      FirstNode(flagged);
      assert flagged.Nodes() == all[2..|all| - 1];
      next := myf.succ;
      NotLast(flagged, 1);
    }

    static lemma CountNone(last: string)
      ensures SentCount([], last) == 0
    {
    }

    static lemma CountFirst(f: FFlag, rest: seq<FFlag>, last: string)
      ensures SentCount([f] + rest, last) == if SameName(last, f.name) then 1 else 1 + SentCount(rest, last)
    {
      hide SameName;
      assert ([f] + rest)[1..] == rest;
    }

    static lemma FirstEntry(n: Node, rest: seq<Node>)
      ensures Entries([n] + rest) == [n.file] + Entries(rest)
    {
    }

    static lemma PaySnoc(u: User, s: seq<FFlag>, f: FFlag)
      ensures PayAll(u, s + [f]) == Pay(PayAll(u, s), f)
    {
      assert (s + [f])[..|s|] == s;
    }
  }
}
