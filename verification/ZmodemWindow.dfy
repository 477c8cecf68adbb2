/** When a ZMODEM transfer gets stuck in front of a full window behind its last subpacket.
    Inside a frame the sender asks for acknowledgements often enough; what counts is how
    much can be behind the last question when the file ends. */
module ZmodemWindow {
  import opened Maybe
  import opened Reachability
  import opened ZmodemCompletion
  import opened ZmodemPeers
  import opened ZmodemProgress
  import opened ZmodemTransfer

  // ----- the settings -----------------------------------------------------------------------

  function Least(a: int, b: int): int { if a < b then a else b }

  /** How much the spacing of the ZCRCQ requests lets by before the next one. */
  function Spaced(c: Setup): nat { if c.txwspac == 0 then 0 else c.txwspac - 1 }

  /** The most bytes inside a frame behind the last request for an acknowledgement. */
  function Unasked(c: Setup): nat {
    var n := Least(if c.txwindow > 0 then c.txwindow - 1 else 0, Spaced(c));
    if c.rxbuflen == 0 then n else Least(n, c.rxbuflen - 1)
  }

  /** The longest last subpacket: only a mapped file shows its end with a full one. */
  function Longest(c: Setup): nat { if c.mapped then MAXBLOCK else MAXBLOCK - 1 }

  /** The window has room for all that can be unacknowledged at the end of the file. */
  predicate Roomy(c: Setup) {
    c.txwindow == 0 || |c.file| < c.txwindow || Unasked(c) + Longest(c) < c.txwindow
  }

  // ----- what is acknowledged or asked for ---------------------------------------------------

  predicate Asks(x: Item) { x.Sub? && (x.end == ZCRCW || x.end == ZCRCQ) }

  /** The receiver will be asked on this line for an acknowledgement of `p` or more. */
  predicate AskedFor(at: Spot, q: seq<Item>, f: seq<byte>, p: int)
    decreases |q|
  {
    && q != [] && Hop(at, q[0], f).Some?
    && var b := Hop(at, q[0], f).value;
       || (at.Spot? && at.mode == AtData && Asks(q[0]) && b.Spot? && b.pos >= p)
       || AskedFor(b, q[1..], f, p)
  }

  lemma {:induction false} AskedMore(at: Spot, q: seq<Item>, x: Item, f: seq<byte>, p: int)
    requires Play(at, q, f).Some? && Hop(Play(at, q, f).value, x, f).Some?
    ensures AskedFor(at, q, f, p) ==> AskedFor(at, q + [x], f, p)
    ensures var (a, b) := (Play(at, q, f).value, Hop(Play(at, q, f).value, x, f).value);
            a.Spot? && a.mode == AtData && Asks(x) && b.Spot? && b.pos >= p ==> AskedFor(at, q + [x], f, p)
    decreases |q|
  {
    hide Hop;
    var r := q + [x];
    if q == [] {
      assert r[1..] == [];
    } else {
      assert r[0] == q[0] && r[1..] == q[1..] + [x];
      AskedMore(Hop(at, q[0], f).value, q[1..], x, f, p);
    }
  }

  /** `p` is acknowledged, or its acknowledgement is on its way, or will be asked for. */
  predicate Covered(x: System, p: int) {
    || x.s.lrxpos >= p
    || (x.back != [] && x.back[|x.back| - 1].Header? && x.back[|x.back| - 1].pos >= p)
    || AskedFor(ZmodemProgress.Here(x.r), x.out, x.setup.file, p)
  }

  // ----- the invariant -------------------------------------------------------------------------

  /** Inside a frame: each of the three limits holds of what is not covered. */
  predicate Spacing(x: System) {
    var (s, c) := (x.s, x.setup);
    && 0 <= s.txwcnt <= Spaced(c) && Covered(x, s.txpos - s.txwcnt)
    && (c.rxbuflen > 0 ==> 0 < s.newcnt <= c.rxbuflen && Covered(x, s.txpos - (c.rxbuflen - s.newcnt)))
  }

  predicate Counted(x: System) {
    var (s, c) := (x.s, x.setup);
    match s.phase
    case Framing => Spacing(x) && s.txpos - s.lrxpos < c.txwindow
    case Polling(_) =>
      if s.eofseen then Covered(x, s.txpos - (Unasked(c) + Longest(c))) else Spacing(x)
    case WindowWait(_) =>
      if s.eofseen then Covered(x, s.txpos - (Unasked(c) + Longest(c))) else Spacing(x)
    case AckPoll => s.lrxpos == s.txpos
    case _ => true
  }

  /** A run with a window, as long as the receiver is at work. */
  predicate Watched(x: System) {
    && x.setup.txwindow > 0 && Good(x)
    && (x.r.status == Running && !Asked(x) ==> Counted(x))
  }

  // ----- the receiver's steps ----------------------------------------------------------------------

  ghost predicate Keeps2(x: System, y: System) { forall p :: Covered(x, p) ==> Covered(y, p) }

  lemma HeaderCovers(x: System, y: System)
    requires |x.out| > 0 && y == x.(r := y.r, out := x.out[1..]) && x.r.mode == AtHeader
    requires Hop(ZmodemProgress.Here(x.r), x.out[0], x.setup.file) == Some(ZmodemProgress.Here(y.r))
    ensures Keeps2(x, y)
  {
  }

  lemma DataCovers(x: System, y: System)
    requires Flowing(x) && Taken(x, y)
    ensures Keeps2(x, y)
  {
    forall p | Covered(x, p) ensures Covered(y, p) {
    }
  }

  /** The sender's counters stay, and so does what is covered. */
  lemma SameSender(x: System, y: System)
    requires Keeps2(x, y) && y.s == x.s && y.setup == x.setup && Counted(x)
    ensures Counted(y)
  {
    hide Covered, Unasked, Longest;
  }

  // ----- the sender's steps ---------------------------------------------------------------------------

  lemma AddsCovers(x: System, y: System, z: Item)
    requires Flowing(x) && y == x.(s := y.s, out := x.out + [z]) && y.s.lrxpos == x.s.lrxpos
    requires Hop(Target(x.s), z, x.setup.file).Some?
    ensures Keeps2(x, y)
    ensures var (a, b) := (Target(x.s), Hop(Target(x.s), z, x.setup.file).value);
            a.Spot? && a.mode == AtData && Asks(z) && b.Spot? ==> Covered(y, b.pos)
  {
    hide Hop, Target, Asks;
    var (h, f) := (ZmodemProgress.Here(x.r), x.setup.file);
    forall p ensures AskedFor(h, x.out, f, p) ==> AskedFor(h, y.out, f, p) {
      AskedMore(h, x.out, z, f, p);
    }
    var b := Hop(Target(x.s), z, f).value;
    if b.Spot? {
      AskedMore(h, x.out, z, f, b.pos);
    }
  }

  /** All three limits together. */
  lemma SpacingLeast(x: System)
    requires x.setup.txwindow > 0 && Counted(x) && x.s.phase == Framing
    ensures Covered(x, x.s.txpos - Unasked(x.setup))
  {
    var (s, c) := (x.s, x.setup);
    var p := s.txpos - Unasked(c);
    CoveredDown(x, s.lrxpos, p);
    CoveredDown(x, s.txpos - s.txwcnt, p);
    if c.rxbuflen > 0 {
      CoveredDown(x, s.txpos - (c.rxbuflen - s.newcnt), p);
    }
    hide AskedFor;
  }

  lemma CoveredDown(x: System, p: int, q: int)
    ensures Covered(x, p) && q <= p ==> Covered(x, q)
  {
    if q <= p {
      AskedDown(ZmodemProgress.Here(x.r), x.out, x.setup.file, p, q);
    }
  }

  lemma {:induction false} AskedDown(at: Spot, s: seq<Item>, f: seq<byte>, p: int, q: int)
    requires q <= p
    ensures AskedFor(at, s, f, p) ==> AskedFor(at, s, f, q)
    decreases |s|
  {
    hide Hop;
    if s != [] && Hop(at, s[0], f).Some? {
      AskedDown(Hop(at, s[0], f).value, s[1..], f, p, q);
    }
  }

  lemma SubCounted(x: System, blk: nat)
    requires x.r.status == Running && Flowing(x) && Counted(x) && x.setup.txwindow > 0
    requires x.s.phase == Framing && 0 < blk <= MAXBLOCK
    ensures var m := SendSub(x.s, x.setup, blk); Counted(x.(s := m.s, out := x.out + m.out))
  {
    var m := SendSub(x.s, x.setup, blk);
    var y := x.(s := m.s, out := x.out + m.out);
    SpacingLeast(x);
    SubFits(x.s, x.setup, blk);
    AddsCovers(x, y, m.out[0]);
    SubShape(x.s, x.setup, blk);
    CoveredDown(y, x.s.txpos - Unasked(x.setup), m.s.txpos - (Unasked(x.setup) + Longest(x.setup)));
    hide Hop, Covered, Unasked, AskedFor, SendSub, Longest;
  }

  /** The counters behind a subpacket that does not wait for its acknowledgement. */
  lemma SubShape(s: Sender, c: Setup, blk: nat)
    requires SenderFine(s, c) && s.phase == Framing && 0 < blk <= MAXBLOCK && 0 <= s.txwcnt <= Spaced(c)
    requires c.txwindow > 0
    ensures var m := SendSub(s, c, blk);
            var n := m.s.txpos - s.txpos;
            && |m.out| == 1 && Hop(Target(s), m.out[0], c.file) ==
              Some(Spot(if InFrame(m.s) then AtData else AtHeader, m.s.txpos))
            && (m.s.eofseen ==> m.s.phase == Polling(ZCRCE) && n <= Longest(c))
            && (m.s.phase.Polling? && !m.s.eofseen ==>
                  && m.s.phase.e == m.out[0].end
                  && (c.rxbuflen > 0 ==> 0 < m.s.newcnt == s.newcnt - n)
                  && (if m.s.phase.e == ZCRCQ then m.s.txwcnt == 0 else m.s.txwcnt == s.txwcnt + n <= Spaced(c)))
            && (m.s.phase.Polling? || m.s.phase.AckWait?)
            && (m.s.phase.Polling? && !m.s.eofseen ==> m.s.phase.e == ZCRCG || m.s.phase.e == ZCRCQ)
  {
    SubFits(s, c, blk);
  }

  lemma PollCounted(x: System)
    requires x.r.status == Running && Flowing(x) && Counted(x) && x.setup.txwindow > 0 && x.s.phase.Polling?
    ensures var m := PollDone(x.s, x.setup); Counted(x.(s := m.s, out := x.out + m.out))
  {
    var m := PollDone(x.s, x.setup);
    var y := x.(s := m.s, out := x.out + m.out);
    PollShape(x.s, x.setup);
    if m.out == [] {
      assert y.out == x.out && Keeps2(x, y);
    } else {
      assert m.out == [m.out[0]];
      AddsCovers(x, y, m.out[0]);
    }
    hide Hop, Covered, Unasked, Longest, AskedFor, SenderFine, Play;
  }

  lemma FrameCounted(x: System)
    requires x.r.status == Running && Flowing(x) && Counted(x) && x.setup.txwindow > 0 && x.s.phase == AckPoll
    ensures var m := NewFrame(x.s, x.setup); Counted(x.(s := m.s, out := x.out + m.out))
  {
    hide Hop, AskedFor, Play, Acks;
  }

  // what the sender hears

  lemma HeardCovers(x: System)
    requires Flowing(x) && |x.back| > 0
    ensures x.back[0].Header? && Keeps2(x, Heard1(x)) && x.s.lrxpos <= x.back[0].pos <= x.s.txpos
  {
    AcksRest(x);
    if |x.back| > 1 {
      assert x.back[1..][|x.back| - 2] == x.back[|x.back| - 1];
    }
  }

  lemma HeardCounted(x: System, more: bool, ch: Chance)
    requires x.r.status == Running && Flowing(x) && Enabled(x, Listens(more)) && Counted(x) && x.setup.txwindow > 0
    ensures Counted(Next(x, Listens(more), ch))
  {
    if x.s.phase.WindowWait? {
      HeardInWindow(x, more, ch);
      PolledCounted(x);
    } else if x.s.phase.Polling? {
      HeardInFrame(x, more, ch);
      HeardCovers(x);
      SameCounters(x, Heard1(x));
    } else {
      HeardBehind(x, more, ch);
      hide Next, Counted, Flowing;
      assert Counted(Next(x, Listens(more), ch)) by {
        NothingToCount(Next(x, Listens(more), ch));
      }
    }
  }

  lemma HeardInFrame(x: System, more: bool, ch: Chance)
    requires x.r.status == Running && Flowing(x) && Enabled(x, Listens(more)) && x.s.phase.Polling?
    ensures |x.back| > 0 && x.back[0].Header? && Next(x, Listens(more), ch) == Heard1(x)
  {
    AcksRest(x);
    assert x.out + [] == x.out;
  }

  lemma SameCounters(x: System, y: System)
    requires Counted(x) && Keeps2(x, y) && y.setup == x.setup && y.s == x.s.(lrxpos := y.s.lrxpos) && x.s.phase.Polling?
    ensures Counted(y)
  {
    hide Covered, Unasked, Longest;
  }

  /** Behind a frame, the next one begins when everything is acknowledged. */
  lemma HeardBehind(x: System, more: bool, ch: Chance)
    requires x.r.status == Running && Flowing(x) && Enabled(x, Listens(more))
    requires !x.s.phase.WindowWait? && !x.s.phase.Polling? && (x.s.phase == AckPoll ==> x.s.lrxpos == x.s.txpos)
    ensures var s := Next(x, Listens(more), ch).s;
            s.phase.AckWait? || s.phase.EofWait? || (s.phase == AckPoll && s.lrxpos == s.txpos)
  {
    HeardCovers(x);
    AcksRest(x);
    hide Covered, Unasked, Longest, AskedFor, Play, Acks;
  }

  lemma NothingToCount(x: System)
    requires x.s.phase.AckWait? || x.s.phase.EofWait? || (x.s.phase == AckPoll && x.s.lrxpos == x.s.txpos)
    ensures Counted(x)
  {
  }

  /** The window is looked at again. */
  lemma PolledCounted(x: System)
    requires x.r.status == Running && Flowing(x) && Counted(x) && x.setup.txwindow > 0 && x.s.phase.WindowWait?
    requires |x.back| > 0
    ensures x.back[0].Header? && Counted(Polled1(x))
  {
    HeardCovers(x);
    var (a, y) := (Heard1(x), Polled1(x));
    assert x.out + [] == x.out;
    assert y.s == a.s.(phase := y.s.phase) && (y.s.phase.EofWait? || y.out == x.out);
    if y.out == x.out {
      assert Keeps2(a, y);
    }
    hide Hop, Covered, Unasked, Longest, AskedFor, Play, Acks;
  }

  // ----- every step -----------------------------------------------------------------------------------

  lemma FlowingCounted(x: System, e: Event, ch: Chance)
    requires x.r.status == Running && Flowing(x) && Smooth(x, e) && Counted(x) && x.setup.txwindow > 0
    requires Next(x, e, ch).r.status == Running
    ensures Counted(Next(x, e, ch))
  {
    var y := Next(x, e, ch);
    match e {
      case ReadsHeader =>
        FrontHeader(x, ch);
        HeaderCovers(x, y);
        SameSender(x, y);
      case ReadsData =>
        DataTaken(x, ch);
        DataCovers(x, y);
        SameSender(x, y);
      case PassesGarbage =>
        FrontGarbage(x, ch);
        HeaderCovers(x, y);
        SameSender(x, y);
      case Advances(blk, _) =>
        if x.s.phase.Framing? {
          SubCounted(x, blk);
        } else if x.s.phase.Polling? {
          PollCounted(x);
        } else if x.s.phase.AckPoll? {
          FrameCounted(x);
        } else {
          StandsStill(x, blk, ch);
        }
      case Listens(more) =>
        HeardCounted(x, more, ch);
    }
  }

  lemma FrontHeader(x: System, ch: Chance)
    requires x.r.status == Running && Flowing(x) && Enabled(x, ReadsHeader)
             && Next(x, ReadsHeader, ch).r.status == Running
    ensures var y := Next(x, ReadsHeader, ch);
            && y == x.(r := y.r, out := x.out[1..])
            && Hop(ZmodemProgress.Here(x.r), x.out[0], x.setup.file) == Some(ZmodemProgress.Here(y.r))
  {
    assert Hop(ZmodemProgress.Here(x.r), x.out[0], x.setup.file).Some?;
    assert x.back + [] == x.back;
  }

  lemma FrontGarbage(x: System, ch: Chance)
    requires x.r.status == Running && Flowing(x) && Enabled(x, PassesGarbage)
    ensures var y := Next(x, PassesGarbage, ch);
            && y == x.(r := y.r, out := x.out[1..])
            && Hop(ZmodemProgress.Here(x.r), x.out[0], x.setup.file) == Some(ZmodemProgress.Here(y.r))
  {
    assert Hop(ZmodemProgress.Here(x.r), x.out[0], x.setup.file).Some?;
  }

  lemma AskedCounted(x: System, e: Event, ch: Chance)
    requires Asked(x) && Smooth(x, e) && x.setup.txwindow > 0
    ensures var y := Next(x, e, ch); Asked(y) || Counted(y)
  {
    assert x.out + [] == x.out;
  }

  lemma StaysWatched(x: System, y: System)
    requires Watched(x) && SmoothStep(x, y)
    ensures Watched(y)
  {
    StepOnwards(x, y);
    var e, ch :| Smooth(x, e) && y == Next(x, e, ch);
    hide Flowing, Counted, Next, Enabled;
    if x.r.status == Running && y.r.status == Running && !Asked(y) {
      if Asked(x) {
        AskedCounted(x, e, ch);
      } else {
        FlowingCounted(x, e, ch);
      }
    }
  }

  lemma StuckIsFull(x: System)
    requires Watched(x) && Stuck(x)
    ensures !Roomy(x.setup)
  {
    var p := x.s.txpos - (Unasked(x.setup) + Longest(x.setup));
    OutsideAsksNothing(ZmodemProgress.Here(x.r), x.out, x.setup.file, p);
    hide Unasked, Longest, Hop, Play, AskedFor, Acks;
    assert !Asked(x) && x.s.eofseen;
  }

  lemma {:induction false} OutsideAsksNothing(at: Spot, q: seq<Item>, f: seq<byte>, p: int)
    requires at.Spot? && at.mode == AtHeader && forall y | y in q :: y.Sub?
    ensures !AskedFor(at, q, f, p)
    ensures Play(at, q, f).Some? ==> Play(at, q, f).value.Spot? && Play(at, q, f).value.mode == AtHeader
    decreases |q|
  {
    if q != [] && Hop(at, q[0], f).Some? {
      assert q[0] in q;
      OutsideAsksNothing(Hop(at, q[0], f).value, q[1..], f, p);
    }
  }

  /** With enough room no smooth run gets stuck. */
  lemma NeverStuck(x: System, y: System)
    requires Asked(x) && Roomy(x.setup) && Reaches(SmoothStep, x, y)
    ensures !Stuck(y)
  {
    hide Reaches, SmoothStep, Stuck, Roomy;
    SetupStays(x, y);
    if x.setup.txwindow > 0 {
      forall a, b | Watched(a) && SmoothStep(a, b) ensures Watched(b) {
        StaysWatched(a, b);
      }
      Keeps(SmoothStep, Watched, x, y);
      if Stuck(y) {
        StuckIsFull(y);
      }
    } else {
      NoWindow(y);
    }
  }

  lemma NoWindow(x: System)
    requires x.setup.txwindow == 0
    ensures !Stuck(x)
  {
  }

  lemma SetupStays(x: System, y: System)
    requires Asked(x) && Reaches(SmoothStep, x, y)
    ensures y.setup == x.setup && Good(y)
  {
    var inv := (z: System) => Good(z) && z.setup == x.setup;
    hide Reaches, SmoothStep;
    forall a, b | inv(a) && SmoothStep(a, b) ensures inv(b) {
      StepOnwards(a, b);
    }
    Keeps(SmoothStep, inv, x, y);
  }

  // ----- the other settings ---------------------------------------------------------------------------

  /** `k` bytes have gone out in small subpackets, none of which asked for anything. */
  predicate Creeping(x: System, k: nat) {
    && Streaming(x, k) && x.s.lrxpos == 0 && x.s.txwcnt == k
    && (x.setup.rxbuflen > 0 ==> x.s.newcnt == x.setup.rxbuflen - k)
  }

  /** One byte more. */
  lemma Creeps(x: System, k: nat) returns (y: System)
    requires Creeping(x, k) && k < Unasked(x.setup) && x.setup.txwindow == |x.setup.file|
    ensures Reaches(SmoothStep, x, y) && Creeping(y, k + 1) && y.setup == x.setup
  {
    var f := x.setup.file;
    Goes(x, Advances(1, false));
    var a := Next(x, Advances(1, false), CHANCE);
    assert a.out == [Sub(f[k..k + 1], ZCRCG)] && a.s.phase == Polling(ZCRCG) && a.back == [];
    hide Reaches;
    var b := Stores(a, k, 1, ZCRCG);
    Goes(b, Advances(1, false));
    y := Next(b, Advances(1, false), CHANCE);
    assert b.out + [] == b.out;
    Onward(SmoothStep, x, a, b);
    Onward(SmoothStep, x, b, y);
  }

  lemma {:induction false} CreepsOn(x: System, k: nat, n: nat) returns (y: System)
    requires Creeping(x, k) && k <= n <= Unasked(x.setup) && x.setup.txwindow == |x.setup.file|
    ensures Reaches(SmoothStep, x, y) && Creeping(y, n) && y.setup == x.setup
    decreases n - k
  {
    hide Reaches, Creeping, SmoothStep, Unasked;
    if k == n {
      Reachability.Here(SmoothStep, x);
      y := x;
    } else {
      var a := Creeps(x, k);
      y := CreepsOn(a, k + 1, n);
      Onward(SmoothStep, x, a, y);
    }
  }

  /** The rest of the file in one subpacket. */
  lemma FillsWindow(x: System, k: nat) returns (y: System)
    requires Creeping(x, k) && x.setup.txwindow == |x.setup.file| && 0 < |x.setup.file| - k <= Longest(x.setup)
    ensures Reaches(SmoothStep, x, y) && y.setup == x.setup && Stuck(y)
  {
    var (f, n) := (x.setup.file, |x.setup.file| - k);
    var blk := if x.setup.mapped then n else n + 1;
    Goes(x, Advances(blk, false));
    var a := Next(x, Advances(blk, false), CHANCE);
    assert a.out == [Sub(f[k..k + n], ZCRCE)] && a.s.phase == Polling(ZCRCE) && a.out[1..] == [];
    Goes(a, ReadsData);
    y := Next(a, ReadsData, CHANCE);
    assert a.back + [] == [];
    hide Reaches;
    Onward(SmoothStep, x, a, y);
  }

  /** A file as long as a window without enough room gets stuck in some smooth run. */
  lemma GetsStuck(x: System) returns (y: System)
    requires Asked(x) && 0 < x.setup.txwindow == |x.setup.file| <= Unasked(x.setup) + Longest(x.setup)
    ensures Reaches(SmoothStep, x, y) && y.setup == x.setup && Stuck(y)
  {
    hide Reaches, Unasked, Longest;
    var a := AsksAndStarts(x);
    UnaskedLess(x.setup);
    var b := CreepsOn(a, 0, Unasked(x.setup));
    y := FillsWindow(b, Unasked(x.setup));
    Onward(SmoothStep, x, a, b);
    Onward(SmoothStep, x, b, y);
  }

  lemma AsksAndStarts(x: System) returns (y: System)
    requires Asked(x)
    ensures Reaches(SmoothStep, x, y) && Creeping(y, 0) && y.setup == x.setup
  {
    hide Reaches;
    y := Starts(x);
  }

  lemma UnaskedLess(c: Setup)
    requires c.txwindow > 0
    ensures Unasked(c) < c.txwindow
  {
  }

  /** The settings with which some smooth run of some file gets stuck. */
  lemma SticksExactly(c: Setup)
    ensures (exists x, y :: Asked(x) && x.setup == c.(file := x.setup.file) && Reaches(SmoothStep, x, y) && Stuck(y))
            <==> 0 < c.txwindow <= Unasked(c) + Longest(c)
  {
    hide Reaches, SmoothStep, Unasked, Longest, Stuck, Asked;
    if 0 < c.txwindow <= Unasked(c) + Longest(c) {
      var x := Fitting(c);
      SameRoom(c, x.setup.file);
      var y := GetsStuck(x);
    } else {
      forall x, y | Asked(x) && x.setup == c.(file := x.setup.file) && Reaches(SmoothStep, x, y) ensures !Stuck(y) {
        SameRoom(c, x.setup.file);
        NeverStuck(x, y);
      }
    }
  }

  lemma SameRoom(c: Setup, f: seq<byte>)
    ensures Unasked(c.(file := f)) == Unasked(c) && Longest(c.(file := f)) == Longest(c)
  {
  }

  /** An opening with a file as long as the window. */
  lemma Fitting(c: Setup) returns (x: System)
    ensures Asked(x) && x.setup == c.(file := x.setup.file) && |x.setup.file| == c.txwindow
  {
    var f: seq<byte> := seq(c.txwindow, _ => 0);
    x := Opened(c.(file := f));
  }

  function Opened(c: Setup): System {
    System(c, Sender(FileWait, 0, 0, 0, false, 0, 0, 0, 0), Fresh(), [], [Header(ZRPOS, 0)])
  }

  // ----- whole transfers ---------------------------------------------------------------------------------

  /** A transfer over lines that lose nothing gets to its end, with at most one timeout of
      the receiver, whatever the file, the receiver's buffer length and the transmit
      window; a mapped one if the window has room. */
  lemma Completes(x: System) returns (y: System)
    requires Opening(x) && x.out == [] && |x.back| == 1 && (x.setup.mapped ==> Roomy(x.setup))
    ensures Reaches(Step, x, y) && y.setup == x.setup && ZmodemCompletion.Complete(y)
  {
    hide Reaches, Stuck, Roomy, Opening;
    var a := ReachesEnd(x);
    if x.setup.mapped {
      OpeningAsks(x);
      NeverStuck(x, a);
      AtEndOpen(a);
    }
    y := Finishes(a);
    SmoothIsRun(x, a);
    Onward(Step, x, a, y);
  }

  lemma AtEndOpen(x: System)
    requires AtEnd(x) && !Stuck(x)
    ensures WindowOpen(x)
  {
  }
}
