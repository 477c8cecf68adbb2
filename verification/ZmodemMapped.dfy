/** A sender that maps its file closes it, and clears its stream, when the data begins;
    every ZRPOS after that is its end.  Over lines that lose and damage nothing that takes
    nothing but an offer or a ZRINIT too many at the start. */
module ZmodemMapped {
  import opened Reachability
  import opened ZmodemCompletion
  import opened ZmodemPeers
  import opened ZmodemProgress
  import opened ZmodemTransfer
  import opened ZmodemWindow

  predicate Crashed(x: System) { x.s.phase == Finished(Outcome.Crashed) }

  /** The sender has yet to hear the question for the first byte, and the receiver has yet
      to read an offer it did not wait for. */
  predicate Stale(x: System) {
    && x.s.phase == FileWait && x.r == Fresh() && AskedOnce(x.back)
    && x.out != [] && x.out[0] == Header(ZFILE, 0)
  }

  /** There is a second offer, or the sender makes one. */
  lemma TurnsStale(x: System) returns (y: System)
    requires Opening(x) && !Asked(x)
    ensures Reaches(SmoothStep, x, y) && Stale(y) && y.setup == x.setup
  {
    if x.out != [] {
      assert x.out[0] == x.out[..2][0];
      Reachability.Here(SmoothStep, x);
      y := x;
    } else {
      assert |x.back| > 1 by {
        if |x.back| == 1 {
          OpeningAsks(x);
          assert false;
        }
      }
      Goes(x, Listens(false));
      y := Next(x, Listens(false), CHANCE);
      assert y.out == SendFile(x.setup) && forall i | 0 <= i < |y.back| :: y.back[i] == x.back[i + 1];
    }
  }

  /** ZRINITs behind which more is coming in are passed over. */
  lemma {:induction false} PassesInits(x: System) returns (y: System)
    requires Stale(x)
    ensures Reaches(SmoothStep, x, y) && Stale(y) && y.setup == x.setup && y.back == [Header(ZRPOS, 0)]
    decreases |x.back|
  {
    if |x.back| == 1 {
      Reachability.Here(SmoothStep, x);
      y := x;
      assert x.back == [x.back[0]];
    } else {
      Goes(x, Listens(true));
      var a := Next(x, Listens(true), CHANCE);
      assert x.out + [] == x.out && forall i | 0 <= i < |a.back| :: a.back[i] == x.back[i + 1];
      hide Reaches;
      y := PassesInits(a);
      Onward(SmoothStep, x, a, y);
    }
  }

  /** The data begins, and the receiver asks once more. */
  lemma AsksAgain(x: System) returns (y: System)
    requires Stale(x) && x.back == [Header(ZRPOS, 0)]
    ensures Reaches(SmoothStep, x, y) && y.setup == x.setup
    ensures y.s.phase == Framing && y.back == [Header(ZRPOS, 0)]
  {
    Goes(x, Listens(false));
    var a := Next(x, Listens(false), CHANCE);
    assert a.out[0] == x.out[0] && a.s.phase == Framing && a.back == [];
    Goes(a, ReadsHeader);
    y := Next(a, ReadsHeader, CHANCE);
    hide Reaches;
    Onward(SmoothStep, x, a, y);
  }

  lemma Dies(x: System) returns (y: System)
    requires x.setup.mapped && x.s.phase == Framing && x.back == [Header(ZRPOS, 0)]
    ensures Reaches(SmoothStep, x, y) && Crashed(y)
  {
    Goes(x, Advances(BLOCK, false));
    var a := Next(x, Advances(BLOCK, false), CHANCE);
    assert a.s.phase.AckWait? || a.s.phase.Polling?;
    Goes(a, Listens(false));
    y := Next(a, Listens(false), CHANCE);
    hide Reaches;
    Onward(SmoothStep, x, a, y);
  }

  lemma Alive(x: System)
    requires Good(x)
    ensures !Crashed(x)
  {
  }

  /** A mapped sender can crash on lines that lose nothing exactly if it starts with a ZRINIT
      or an offer too many. */
  lemma CrashesExactly(x: System)
    requires Opening(x) && x.setup.mapped
    ensures (exists y :: Reaches(SmoothStep, x, y) && Crashed(y)) <==> !Asked(x)
  {
    hide Reaches, SmoothStep, Opening, Stale, Asked;
    if Asked(x) {
      forall y | Reaches(SmoothStep, x, y) ensures !Crashed(y) {
        SetupStays(x, y);
        Alive(y);
      }
    } else {
      var a := TurnsStale(x);
      var b := PassesInits(a);
      var c := AsksAgain(b);
      var d := Dies(c);
      Onward(SmoothStep, x, a, b);
      Onward(SmoothStep, x, b, c);
      Onward(SmoothStep, x, c, d);
    }
  }

  /** A mapped file of 1000 bytes, a window of 256 bytes and the first length of
      calc_blklen: the one subpacket fills the window, and then nothing that can happen
      completes the transfer. */
  lemma MappedStalls(f: seq<byte>, info: seq<byte>) returns (x: System, y: System)
    requires |f| == 1000
    ensures Asked(x) && x.setup == Setup(f, info, 0, 256, 64, true)
    ensures Reaches(SmoothStep, x, y) && AtEnd(y) && !exists z :: Reaches(Step, y, z) && ZmodemCompletion.Complete(z)
  {
    x := Opened(Setup(f, info, 0, 256, 64, true));
    var a := AsksAndStarts(x);
    Goes(a, Advances(BLOCK, false));
    var b := Next(a, Advances(BLOCK, false), CHANCE);
    assert f[0..1000] == f && b.out == [Sub(f, ZCRCE)] && b.out[1..] == [];
    Goes(b, ReadsData);
    y := Next(b, ReadsData, CHANCE);
    assert [] + f == f && f[..1000] == f && a.r.file == [];
    hide Reaches;
    Onward(SmoothStep, a, b, y);
    Onward(SmoothStep, x, a, y);
    EndsAtAll(y);
  }
}
