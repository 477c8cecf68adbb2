/** The doubly linked list of main/lists.c.  The list header serves as two nodes that
    overlap in memory, one before the first entry and one behind the last; here they
    are two nodes of their own. */
module NodeList {
  import opened DownloadCredit

  class Node {
    const file: FFlag
    var succ: Node?
    var pred: Node?

    constructor (f: FFlag)
      ensures file == f && succ == null && pred == null
    {
      file, succ, pred := f, null, null;
    }
  }

  /** The entries of a run of nodes. */
  function Entries(s: seq<Node>): (r: seq<FFlag>)
    ensures |r| == |s| && forall i | 0 <= i < |s| :: r[i] == s[i].file
  {
    if s == [] then [] else Entries(s[..|s| - 1]) + [s[|s| - 1].file]
  }

  class List {
    /** The two faces of the header: &lh_Head and &lh_Tail. */
    const head: Node
    const tail: Node
    /** All nodes in order, the faces included. */
    ghost var all: seq<Node>
    /** Every node that is or was in the list. */
    ghost var repr: set<Node>

    ghost predicate Valid()
      reads this, all
    {
      && (forall n | n in all :: n in repr)
      && |all| >= 2 && all[0] == head && all[|all| - 1] == tail
      && tail.succ == null && head.pred == null
      && (forall i, j | 0 <= i < j < |all| :: all[i] != all[j])
      && (forall i | 0 <= i < |all| - 1 :: all[i].succ == all[i + 1])
      && (forall i | 0 < i < |all| :: all[i].pred == all[i - 1])
    }

    ghost function Nodes(): seq<Node>
      requires Valid()
      reads this, all
    {
      all[1..|all| - 1]
    }

    ghost function Files(): seq<FFlag>
      requires Valid()
      reads this, all
    {
      Entries(Nodes())
    }

    /** NewList. */
    constructor ()
      ensures Valid() && Nodes() == [] && fresh(repr) && all == [head, tail]
    {
      var none := FFlag("", "", 0, 0, true);
      var h := new Node(none);
      var t := new Node(none);
      head, tail := h, t;
      new;
      head.succ := tail;
      tail.pred := head;
      all := [head, tail];
      repr := {head, tail};
    }

    method AddTail(n: Node)
      requires Valid() && n !in all
      modifies this, n, tail, all[|all| - 2]
      ensures Valid() && repr == old(repr) + {n} && all == old(all[..|all| - 1]) + [n, tail]
      ensures Nodes() == old(Nodes()) + [n]
    {
      var last := tail.pred;
      assert last == all[|all| - 2];
      last.succ := n;
      tail.pred := n;
      n.succ := tail;
      n.pred := last;
      all := all[..|all| - 1] + [n, tail];
      repr := repr + {n};
    }

    /** Takes a node out; its own links stay as they are, so a loop can go on from it. */
    method Remove(n: Node, ghost i: nat)
      requires Valid() && 0 < i < |all| - 1 && all[i] == n
      modifies this`all, repr
      ensures Valid() && all == old(all[..i]) + old(all[i + 1..])
      ensures n.succ == old(all[i + 1])
    {
      var p := n.pred;
      assert p == all[i - 1];
      p.succ := n.succ;
      var s := n.succ;
      assert s == all[i + 1];
      s.pred := p;
      all := all[..i] + all[i + 1..];
    }
  }
}
