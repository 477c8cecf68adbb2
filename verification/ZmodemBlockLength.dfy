/** The adaptive block length of the ZMODEM sender (ddz/ddsz.c, calc_blklen and the
    options that set its bounds). */
module ZmodemBlockLength {

  const OVERHEAD := 18
  const OVER_ERR := 20
  const LONG_MAX := 0x7fffffff

  /** Lengths the sender works with: powers of two from 32 on. */
  predicate Block(n: int) {
    n == 32 || n == 64 || n == 128 || n == 256 || n == 512 || n == 1024 || n == 2048 || n == 4096 || n == 8192
  }

  // ----- the options ------------------------------------------------------------

  datatype Bounds = Bounds(start: nat, max: nat)

  /** The options -8 and -k; other options leave the bounds alone. */
  function Parsed(flags: seq<char>, b: Bounds): Bounds {
    if flags == [] then b
    else
      Parsed(flags[1..],
             if flags[0] == '8' then (if b.max == 8192 then b.(start := 8192) else b.(max := 8192))
             else if flags[0] == 'k' then b.(start := 1024)
             else b)
  }

  predicate BoundsOk(b: Bounds) { Block(b.start) && Block(b.max) && 1024 <= b.start <= b.max }

  lemma {:induction false} OptionsGuarantee(flags: seq<char>, b: Bounds)
    requires b == Bounds(1024, 1024) || b == Bounds(1024, 8192) || b == Bounds(8192, 8192)
    ensures BoundsOk(Parsed(flags, b))
    decreases |flags|
  {
    if flags != [] {
      OptionsGuarantee(flags[1..], if flags[0] == '8' then
        (if b.max == 8192 then b.(start := 8192) else b.(max := 8192))
                                   else if flags[0] == 'k' then b.(start := 1024)
                                   else b);
    }
  }

  // ----- the best length -----------------------------------------------------------

  function Times(a: nat, b: nat): (r: nat)
    ensures a > 0 && b > 0 ==> r > 0
  {
    a * b
  }

  function Over(a: nat, b: nat): nat
    requires b > 0
  {
    a / b
  }

  /** The bytes it takes to transmit `total` bytes in blocks of `i`, with an error
      every `bpe` bytes. */
  function Cost(i: nat, total: nat, bpe: nat): (transmitted: nat)
    requires i > 0 && bpe > 0
    ensures transmitted > 0
  {
    var ok := Over(total, i) + 1;
    var failed := Over(Times(i + OVERHEAD, ok), bpe);
    Times(ok, i + OVERHEAD) + Times(failed, i + OVERHEAD + OVER_ERR)
  }

  /** The loop over the block lengths from `i` on; `best` is the best so far. */
  function Best(i: nat, max: nat, total: nat, bpe: nat, best: nat): nat
    requires i > 0 && best > 0 && bpe > 0
    decreases if i <= max then max + 1 - i else 0
  {
    if i > max then best
    else Best(2 * i, max, total, bpe, if Cost(i, total, bpe) < Cost(best, total, bpe) then i else best)
  }

  lemma NextBest(i: nat, max: nat, total: nat, bpe: nat, best: nat)
    requires 0 < i <= max && best > 0 && bpe > 0
    ensures Best(i, max, total, bpe, best) ==
            Best(2 * i, max, total, bpe, if Cost(i, total, bpe) < Cost(best, total, bpe) then i else best)
  {
    hide Cost;
  }

  lemma LastBest(i: nat, max: nat, total: nat, bpe: nat, best: nat)
    requires i > max && i > 0 && best > 0 && bpe > 0
    ensures Best(i, max, total, bpe, best) == best
  {
  }

  /** No length below `end` costs less than `n`. */
  predicate Cheapest(n: nat, end: nat, total: nat, bpe: nat)
    requires n > 0 && bpe > 0
  {
    forall j: nat | Block(j) && j < end :: Cost(n, total, bpe) <= Cost(j, total, bpe)
  }

  lemma Doubled(i: nat)
    requires Block(i)
    ensures Block(2 * i) || 2 * i == 16384
    ensures forall j: nat | Block(j) && j < 2 * i :: j <= i
  {
  }

  lemma CheapestNext(best: nat, best': nat, i: nat, total: nat, bpe: nat)
    requires best > 0 && bpe > 0 && i > 0 && Cheapest(best, i, total, bpe)
    requires forall j: nat | Block(j) && j < 2 * i :: j <= i
    requires best' == if Cost(i, total, bpe) < Cost(best, total, bpe) then i else best
    ensures Cheapest(best', 2 * i, total, bpe)
  {
    hide Cost, Block;
  }

  lemma CheapestUpTo(best: nat, i: nat, end: nat, total: nat, bpe: nat)
    requires best > 0 && bpe > 0 && end <= i && Cheapest(best, i, total, bpe)
    ensures Cheapest(best, end, total, bpe)
  {
    hide Cost, Block;
  }

  /** The loop picks a length that costs no more than any other. */
  lemma {:induction false} BestIsBest(i: nat, max: nat, total: nat, bpe: nat, best: nat)
    requires Block(max) && bpe > 0 && Block(best) && best <= max && best < i
    requires Block(i) || i == 16384
    requires Cheapest(best, i, total, bpe)
    ensures var r := Best(i, max, total, bpe, best); Block(r) && r <= max && Cheapest(r, max + 1, total, bpe)
    decreases if i <= max then max + 1 - i else 0
  {
    hide Cost, Best, Cheapest;
    if i <= max {
      var best' := if Cost(i, total, bpe) < Cost(best, total, bpe) then i else best;
      NextBest(i, max, total, bpe, best);
      Doubled(i);
      CheapestNext(best, best', i, total, bpe);
      BestIsBest(2 * i, max, total, bpe, best');
    } else {
      LastBest(i, max, total, bpe, best);
      CheapestUpTo(best, i, max + 1, total, bpe);
    }
  }

  // ----- one call --------------------------------------------------------------------

  /** The static variables of calc_blklen. */
  datatype Memory = Memory(total: nat, calls: nat, lastErrors: nat, lastBlklen: nat, lastBpe: nat)

  const FIRST := Memory(0, 0, 0, 0, 0)

  function PerError(sent: nat, errors: nat): (bpe: nat)
    requires errors > 0
    ensures bpe >= 100
  {
    var half := Over(Over(sent, errors), 2);
    if half < 100 then 100 else half
  }

  function Calc(m: Memory, b: Bounds, sent: nat, errors: nat): (r: (Memory, nat))
    requires BoundsOk(b)
  {
    if m.total == 0 then (m.(total := sent), 0)
    else
      var m1 := m.(calls := m.calls + 1);
      if m.calls < 5 then
        var n := if errors > 0 && b.start > 1024 then 1024 else b.start;
        (m1.(lastBlklen := n), n)
      else if errors == 0 then
        if b.start == b.max then (m1, b.start) else Choose(m1, b, LONG_MAX)
      else if errors != m.lastErrors then
        if (errors / 2) % 2 == 1 then
          var half := m.lastBlklen / 2;
          var n := if half < 32 then 32 else if half > 512 then 512 else half;
          (m1.(lastBlklen := n, lastErrors := errors, lastBpe := 0), n)
        else (m1, m.lastBlklen)
      else
        var bpe := PerError(sent, errors);
        var d := if m.lastBpe > bpe then m.lastBpe - bpe else bpe - m.lastBpe;
        if d < 4 then (m1, m.lastBlklen) else Choose(m1.(lastBpe := bpe), b, bpe)
  }

  function Choose(m: Memory, b: Bounds, bpe: nat): (Memory, nat)
    requires BoundsOk(b) && bpe > 0
  {
    var best := Best(64, b.max, m.total, bpe, 32);
    var n := if best > 2 * m.lastBlklen then 2 * m.lastBlklen else best;
    (m.(lastBlklen := n), n)
  }

  /** What the variables satisfy once a positive total has been given. */
  predicate MemoryOk(m: Memory, b: Bounds) {
    m.total > 0 && (m.calls > 0 ==> Block(m.lastBlklen) && m.lastBlklen <= b.max)
  }

  lemma ChooseOk(m: Memory, b: Bounds, bpe: nat)
    requires BoundsOk(b) && bpe > 0 && Block(m.lastBlklen) && m.lastBlklen <= b.max
    ensures var (m', n) := Choose(m, b, bpe);
            && Block(n) && n <= b.max && n <= 2 * m.lastBlklen && m' == m.(lastBlklen := n)
            && (n < 2 * m.lastBlklen ==> Cheapest(n, b.max + 1, m.total, bpe))
  {
    hide Cost;
    BestIsBest(64, b.max, m.total, bpe, 32);
  }

  lemma CalcOk(m: Memory, b: Bounds, sent: nat, errors: nat)
    requires BoundsOk(b) && MemoryOk(m, b)
    ensures var (m', n) := Calc(m, b, sent, errors); MemoryOk(m', b) && Block(n) && 32 <= n <= b.max
  {
    hide Choose, PerError, Over;
    if m.calls > 0 {
      ChooseOk(m.(calls := m.calls + 1), b, LONG_MAX);
      if errors > 0 {
        var bpe := PerError(sent, errors);
        ChooseOk(m.(calls := m.calls + 1, lastBpe := bpe), b, bpe);
      }
    }
  }

  // ----- every sequence of calls --------------------------------------------------------

  datatype Call = Call(sent: nat, errors: nat)

  function Results(m: Memory, b: Bounds, calls: seq<Call>): (r: seq<nat>)
    requires BoundsOk(b)
    ensures |r| == |calls|
    decreases |calls|
  {
    if calls == [] then []
    else
      var (m', n) := Calc(m, b, calls[0].sent, calls[0].errors);
      [n] + Results(m', b, calls[1..])
  }

  lemma {:induction false} ResultsAreBlocks(m: Memory, b: Bounds, calls: seq<Call>)
    requires BoundsOk(b) && MemoryOk(m, b)
    ensures forall i | 0 <= i < |calls| :: Block(Results(m, b, calls)[i]) && Results(m, b, calls)[i] <= b.max
    decreases |calls|
  {
    hide Calc;
    if calls != [] {
      CalcOk(m, b, calls[0].sent, calls[0].errors);
      ResultsAreBlocks(Calc(m, b, calls[0].sent, calls[0].errors).0, b, calls[1..]);
    }
  }

  /** After a first call with a positive total, whatever the options, totals and error
      counts, every length is a power of two between 32 and the maximum. */
  lemma BlockLengths(flags: seq<char>, total: nat, errors: nat, calls: seq<Call>)
    requires total > 0
    ensures var b := Parsed(flags, Bounds(1024, 1024));
            && BoundsOk(b)
            && forall i | 0 < i <= |calls| ::
                 var n := Results(FIRST, b, [Call(total, errors)] + calls)[i];
                 Block(n) && 32 <= n <= b.max
  {
    var b := Parsed(flags, Bounds(1024, 1024));
    OptionsGuarantee(flags, Bounds(1024, 1024));
    var all := [Call(total, errors)] + calls;
    assert all[1..] == calls;
    var m := FIRST.(total := total);
    assert Results(FIRST, b, all) == [0] + Results(m, b, calls);
    ResultsAreBlocks(m, b, calls);
  }

  // ----- as it is written ------------------------------------------------------------------

  class BlockLength {
    const bounds: Bounds
    var totalBytes: nat
    var calcsDone: nat
    var lastErrorCount: nat
    var lastBlklen: nat
    var lastBytesPerError: nat

    ghost function State(): Memory
      reads this
    {
      Memory(totalBytes, calcsDone, lastErrorCount, lastBlklen, lastBytesPerError)
    }

    constructor (b: Bounds)
      ensures bounds == b && State() == FIRST
    {
      bounds := b;
      totalBytes, calcsDone, lastErrorCount, lastBlklen, lastBytesPerError := 0, 0, 0, 0, 0;
    }

    method CalcBlklen(totalSent: nat, errorCount: nat) returns (blklen: nat)
      requires BoundsOk(bounds)
      modifies this
      ensures (State(), blklen) == Calc(old(State()), bounds, totalSent, errorCount)
    {
      hide Best;
      if totalBytes == 0 {
        totalBytes := totalSent;
        return 0;
      }
      calcsDone := calcsDone + 1;
      if calcsDone - 1 < 5 {
        if errorCount > 0 && bounds.start > 1024 {
          lastBlklen := 1024;
        } else {
          lastBlklen := bounds.start;
        }
        return lastBlklen;
      }
      var bytesPerError := LONG_MAX;
      if errorCount == 0 {
        if bounds.start == bounds.max {
          return bounds.start;
        }
      } else {
        if errorCount != lastErrorCount {
          if (errorCount / 2) % 2 == 1 {
            lastBlklen := lastBlklen / 2;
            if lastBlklen < 32 {
              lastBlklen := 32;
            } else if lastBlklen > 512 {
              lastBlklen := 512;
            }
            lastErrorCount := errorCount;
            lastBytesPerError := 0;
          }
          return lastBlklen;
        }
        bytesPerError := totalSent / errorCount;
        bytesPerError := bytesPerError / 2;
        if bytesPerError < 100 {
          bytesPerError := 100;
        }
        var d := if lastBytesPerError > bytesPerError then lastBytesPerError - bytesPerError
            else bytesPerError - lastBytesPerError;
        if d < 4 {
          return lastBlklen;
        }
        lastBytesPerError := bytesPerError;
      }
      var bestSize := FindBest(bytesPerError);
      if bestSize > 2 * lastBlklen {
        bestSize := 2 * lastBlklen;
      }
      lastBlklen := bestSize;
      return lastBlklen;
    }

    /** The loop at calcit. */
    method FindBest(bytesPerError: nat) returns (bestSize: nat)
      requires BoundsOk(bounds) && bytesPerError > 0
      ensures bestSize == Best(64, bounds.max, totalBytes, bytesPerError, 32)
    {
      ghost var max: nat, total: nat := bounds.max, totalBytes;
      assert max >= 1024;
      hide *;
      var bestBytes: nat := 0;
      bestSize := 0;
      var i: nat := 32;
      StartAhead(max, total, bytesPerError);
      while i <= bounds.max
        invariant i >= 32 && Ahead(i, max, total, bytesPerError, bestSize, bestBytes)
        decreases max + 1 - i
      {
        var transmitted := Cost(i, totalBytes, bytesPerError);
        TakeOne(i, max, total, bytesPerError, bestSize, bestBytes, transmitted);
        if transmitted < bestBytes || bestBytes == 0 {
          bestBytes, bestSize := transmitted, i;
        }
        i := i * 2;
      }
      NothingAhead(i, max, total, bytesPerError, bestSize, bestBytes);
    }

    /** What is left of the loop at length `i` finds the best length of all. */
    static predicate Ahead(i: nat, max: nat, total: nat, bpe: nat, best: nat, bytes: nat)
      requires bpe > 0
    {
      if i == 32 then bytes == 0 && best == 0
      else
        && i >= 64 && best > 0 && bytes == Cost(best, total, bpe)
        && Best(64, max, total, bpe, 32) == Best(i, max, total, bpe, best)
    }

    static lemma StartAhead(max: nat, total: nat, bpe: nat)
      requires bpe > 0
      ensures Ahead(32, max, total, bpe, 0, 0)
    {
    }

    static lemma NothingAhead(i: nat, max: nat, total: nat, bpe: nat, best: nat, bytes: nat)
      requires bpe > 0 && max >= 32 && i > max && Ahead(i, max, total, bpe, best, bytes)
      ensures best == Best(64, max, total, bpe, 32)
    {
      hide Cost, Best;
      LastBest(i, max, total, bpe, best);
    }

    static lemma TakeOne(i: nat, max: nat, total: nat, bpe: nat, best: nat, bytes: nat, t: nat)
      requires 32 <= i <= max && bpe > 0 && t == Cost(i, total, bpe) && Ahead(i, max, total, bpe, best, bytes)
      ensures t < bytes || bytes == 0 ==> Ahead(i * 2, max, total, bpe, i, t)
      ensures !(t < bytes || bytes == 0) ==> Ahead(i * 2, max, total, bpe, best, bytes)
    {
      hide Cost, Best;
      if i > 32 {
        NextBest(i, max, total, bpe, best);
      }
    }
  }
}
