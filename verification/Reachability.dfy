/** Runs of a system from one state to another, for any step relation. */
module Reachability {

  ghost predicate Path<T>(step: (T, T) -> bool, trace: seq<T>, s: T, t: T) {
    && |trace| > 0 && trace[0] == s && trace[|trace| - 1] == t
    && forall i | 0 < i < |trace| :: step(trace[i - 1], trace[i])
  }

  ghost predicate Reaches<T(!new)>(step: (T, T) -> bool, s: T, t: T) {
    exists trace: seq<T> :: Path(step, trace, s, t)
  }

  lemma Here<T(!new)>(step: (T, T) -> bool, s: T)
    ensures Reaches(step, s, s)
  {
    assert Path(step, [s], s, s);
  }

  lemma One<T(!new)>(step: (T, T) -> bool, s: T, t: T)
    requires step(s, t)
    ensures Reaches(step, s, t)
  {
    assert Path(step, [s, t], s, t);
  }

  lemma Onward<T(!new)>(step: (T, T) -> bool, s: T, t: T, u: T)
    requires Reaches(step, s, t) && Reaches(step, t, u)
    ensures Reaches(step, s, u)
  {
    var a: seq<T> :| Path(step, a, s, t);
    var b: seq<T> :| Path(step, b, t, u);
    var c := a + b[1..];
    forall i | 0 < i < |c| ensures step(c[i - 1], c[i]) {
      if i >= |a| {
        assert c[i] == b[i - |a| + 1] && c[i - 1] == b[i - |a|];
      }
    }
    assert Path(step, c, s, u);
  }

  /** What one step relation reaches, a larger one does. */
  lemma Larger<T(!new)>(step: (T, T) -> bool, larger: (T, T) -> bool, s: T, t: T)
    requires Reaches(step, s, t) && forall a, b :: step(a, b) ==> larger(a, b)
    ensures Reaches(larger, s, t)
  {
    var trace: seq<T> :| Path(step, trace, s, t);
    assert Path(larger, trace, s, t);
  }

  /** What every step keeps holds in every state that is reached. */
  lemma Keeps<T(!new)>(step: (T, T) -> bool, inv: T -> bool, s: T, t: T)
    requires inv(s) && Reaches(step, s, t) && forall a, b :: inv(a) && step(a, b) ==> inv(b)
    ensures inv(t)
  {
    var trace: seq<T> :| Path(step, trace, s, t);
    KeepsAlong(step, inv, trace, s, t, |trace| - 1);
  }

  lemma {:induction false} KeepsAlong<T(!new)>(step: (T, T) -> bool, inv: T -> bool, trace: seq<T>, s: T, t: T, i: nat)
    requires inv(s) && Path(step, trace, s, t) && i < |trace| && forall a, b :: inv(a) && step(a, b) ==> inv(b)
    ensures inv(trace[i])
    decreases i
  {
    if i > 0 {
      KeepsAlong(step, inv, trace, s, t, i - 1);
      assert step(trace[i - 1], trace[i]);
    }
  }
}
