/** Every run of a ZMODEM transfer over lines that lose and damage nothing gets somewhere:
    each step that changes anything brings the end nearer, but for the receiver's ZRINITs
    behind the file, and until the sender has ended well there is such a step, unless it is
    stuck in front of a full window behind the last subpacket. */
module ZmodemProgress {
  import opened Maybe
  import opened Reachability
  import opened ZmodemPeers
  import opened ZmodemTransfer
  import ZmodemCompletion

  // ----- what the receiver will make of the line -----------------------------------------

  /** Where the receiver is: outside a frame or in one at a byte of the file, or done. */
  datatype Spot = Spot(mode: Mode, pos: nat) | Done

  /** One item, where only what an undisturbed sender sends is expected. */
  function Hop(at: Spot, x: Item, f: seq<byte>): Option<Spot> {
    match at
    case Done => if x == Header(ZEOF, |f|) then Some(Done) else None
    case Spot(AtHeader, p) =>
      if x == Header(ZDATA, p) then Some(Spot(AtData, p))
      else if x == Header(ZEOF, p) && p == |f| then Some(Done)
      else if x == Sub([], ZCRCQ) && p == |f| then Some(at)
      else None
    case Spot(AtData, p) =>
      if x.Sub? && |x.data| <= MAXBLOCK && p + |x.data| <= |f| && x.data == f[p..p + |x.data|] then
        Some(Spot(if x.end == ZCRCW || x.end == ZCRCE then AtHeader else AtData, p + |x.data|))
      else None
  }

  function Play(at: Spot, q: seq<Item>, f: seq<byte>): Option<Spot>
    decreases |q|
  {
    if q == [] then Some(at)
    else
      match Hop(at, q[0], f)
      case None => None
      case Some(b) => Play(b, q[1..], f)
  }

  lemma {:induction false} PlayMore(at: Spot, q: seq<Item>, x: Item, f: seq<byte>)
    requires Play(at, q, f).Some?
    ensures Play(at, q + [x], f) == Hop(Play(at, q, f).value, x, f)
    decreases |q|
  {
    hide Hop;
    var r := q + [x];
    if q == [] {
      assert r[1..] == [];
    } else {
      assert r[0] == q[0] && r[1..] == q[1..] + [x];
      PlayMore(Hop(at, q[0], f).value, q[1..], x, f);
    }
  }

  lemma {:induction false} PlayOnward(at: Spot, q: seq<Item>, f: seq<byte>)
    requires Play(at, q, f).Some? && (at.Spot? ==> at.pos <= |f|)
    ensures var b := Play(at, q, f).value; b.Done? || (at.Spot? && at.pos <= b.pos <= |f|)
    decreases |q|
  {
    if q != [] {
      PlayOnward(Hop(at, q[0], f).value, q[1..], f);
    }
  }

  // ----- the invariant --------------------------------------------------------------------

  function Here(r: Receiver): Spot { Spot(r.mode, r.rxbytes) }

  predicate InFrame(s: Sender) {
    (s.phase.Framing? || s.phase.Polling? || s.phase.WindowWait?) && !s.eofseen
  }

  /** Where the sender expects the receiver at the end of the line. */
  function Target(s: Sender): Spot {
    if s.phase.EofWait? then Done else Spot(if InFrame(s) then AtData else AtHeader, s.txpos)
  }

  /** The acknowledgement of the sender's position is on its way, or what asks for it. */
  predicate Due(x: System, end: FrameEnd) {
    || (x.back != [] && x.back[|x.back| - 1] == Header(ZACK, x.s.txpos))
    || (x.out != [] && x.out[|x.out| - 1].Sub? && x.out[|x.out| - 1].end == end)
  }

  predicate SenderFine(s: Sender, c: Setup) {
    && s.txpos <= |c.file| && s.junk <= 3
    && (s.eofseen || s.phase.EofWait? ==> s.txpos == |c.file|)
    && (s.phase.Framing? || s.phase.AckWait? || s.phase.AckPoll? ==> !s.eofseen)
    && (s.eofseen ==> s.phase == Polling(ZCRCE) || s.phase == WindowWait(ZCRCQ) || s.phase.EofWait?)
    && (s.phase.Polling? && !s.eofseen ==> s.phase.e == ZCRCG || s.phase.e == ZCRCQ)
    && (s.phase.WindowWait? ==> s.phase.e == ZCRCQ && c.txwindow > 0 && s.txpos - s.lrxpos >= c.txwindow)
    && !s.phase.Finished? && !s.phase.FileWait?
  }

  /** Acknowledgements, in the order of the file, of what has arrived. */
  predicate Acks(q: seq<Item>, min: nat, max: nat) {
    && min <= max
    && (forall i | 0 <= i < |q| :: q[i].Header? && q[i].kind == ZACK && min <= q[i].pos <= max)
    && (forall i, j | 0 <= i < j < |q| :: q[i].pos <= q[j].pos)
  }

  /** While the receiver is at work. */
  predicate Flowing(x: System) {
    && SenderFine(x.s, x.setup)
    && x.r.rxbytes <= |x.setup.file|
    && Play(Here(x.r), x.out, x.setup.file) == Some(Target(x.s))
    && Acks(x.back, x.s.lrxpos, x.r.rxbytes)
    && (x.s.phase.AckWait? ==> Due(x, ZCRCW))
    && (x.s.phase == WindowWait(ZCRCQ) && !x.s.eofseen ==> Due(x, ZCRCQ))
    && (x.s.phase == Polling(ZCRCQ) ==> Due(x, ZCRCQ) || x.s.lrxpos == x.s.txpos)
  }

  /** Nothing has been heard yet. */
  predicate Asked(x: System) {
    x.s.phase == FileWait && x.s.txpos == 0 && !x.s.eofseen && x.r == Fresh() && x.out == []
      && x.back == [Header(ZRPOS, 0)]
  }

  /** The receiver has accepted the end of the file; the sender has yet to hear of it. */
  predicate Closing(x: System) {
    x.s.phase.EofWait? && forall y | y in x.back :: y.Header? && (y.kind == ZACK || y.kind == ZRINIT)
  }

  predicate Ended(x: System) { x.s.phase == Finished(Okay) }

  predicate Good(x: System) {
    || (x.r.status == Running && (Asked(x) || Flowing(x)))
    || (x.r.status == Complete && (Closing(x) || Ended(x)))
  }

  // ----- the measure ------------------------------------------------------------------------

  function Weight(q: seq<Item>): nat {
    if q == [] then 0 else (if q[0].Sub? then 3 else 1) + Weight(q[1..])
  }

  lemma {:induction false} WeightMore(q: seq<Item>, x: Item)
    ensures Weight(q + [x]) == Weight(q) + if x.Sub? then 3 else 1
    decreases |q|
  {
    var r := q + [x];
    if q == [] {
      assert r[1..] == [];
    } else {
      assert r[1..] == q[1..] + [x];
      WeightMore(q[1..], x);
    }
  }

  function Rank(s: Sender): nat {
    match s.phase
    case FileWait => 60
    case Framing => 20
    case Polling(_) => if s.eofseen then 12 else 30
    case WindowWait(_) => if s.eofseen then 8 else 24
    case AckWait => 28
    case AckPoll => 26
    case EofWait => 2
    case Finished(_) => 0
  }

  /** How many items the sender hears before a ZRINIT. */
  function Before(q: seq<Item>): nat {
    if q == [] || IsInit(q[0]) then 0 else 1 + Before(q[1..])
  }

  lemma {:induction false} BeforeMore(q: seq<Item>)
    ensures Before(q + [Header(ZRINIT, 0)]) == Before(q) <= |q|
    decreases |q|
  {
    var r := q + [Header(ZRINIT, 0)];
    if q != [] {
      assert r[0] == q[0] && r[1..] == q[1..] + [Header(ZRINIT, 0)];
      BeforeMore(q[1..]);
    }
  }

  /** What is left to do. */
  function Measure(x: System): int {
    if x.r.status == Running then 40 * (|x.setup.file| - x.s.txpos) + Rank(x.s) + Weight(x.out) + 2 * |x.back|
    else Rank(x.s) + 2 * Before(x.back)
  }

  /** The receiver has said once more that it is ready for the next file. */
  predicate Told(x: System, y: System) {
    x.r.status == Complete && y == x.(back := x.back + [Header(ZRINIT, 0)])
  }

  /** A step that leaves the transfer on its way, nearer to its end or where it was. */
  predicate Onwards(x: System, y: System) {
    && Good(y) && y.setup == x.setup
    && (Ended(x) ==> Ended(y))
    && (x.r.status == Complete ==> y.r.status == Complete)
    && (!Ended(x) ==> Ended(y) || y == x || Measure(y) < Measure(x) || (Told(x, y) && Measure(y) == Measure(x)))
  }

  // ----- the receiver -------------------------------------------------------------------------

  /** What is due stays due when something else is taken off the line. */
  predicate DueKept(x: System, y: System) {
    && (x.s.phase.AckWait? ==> Due(y, ZCRCW))
    && (x.s.phase == WindowWait(ZCRCQ) && !x.s.eofseen ==> Due(y, ZCRCQ))
    && (x.s.phase == Polling(ZCRCQ) ==> Due(y, ZCRCQ) || x.s.lrxpos == x.s.txpos)
  }

  lemma HeaderGone(x: System, y: System)
    requires Flowing(x) && |x.out| > 0 && y == x.(r := y.r, out := x.out[1..])
    requires x.out[0].Header? || (x.out[0] == Sub([], ZCRCQ) && x.r.mode == AtHeader)
    ensures DueKept(x, y)
  {
    if |x.out| == 1 {
      assert x.out[1..] == [];
      assert Play(Here(x.r), x.out, x.setup.file) == Hop(Here(x.r), x.out[0], x.setup.file);
    } else {
      assert y.out[|y.out| - 1] == x.out[|x.out| - 1];
    }
  }

  lemma TakesHeader(x: System, ch: Chance)
    requires x.r.status == Running && Flowing(x) && Enabled(x, ReadsHeader)
    ensures Onwards(x, Next(x, ReadsHeader, ch))
  {
    var y := Next(x, ReadsHeader, ch);
    assert Hop(Here(x.r), x.out[0], x.setup.file).Some?;
    assert y == x.(r := y.r, out := x.out[1..]) by {
      assert x.back + [] == x.back;
    }
    HeaderGone(x, y);
    if y.r.status == Complete {
      Accepted(x, y);
    }
  }

  /** The end of the file is accepted. */
  lemma Accepted(x: System, y: System)
    requires Flowing(x) && x.r.status == Running && |x.out| > 0 && x.out[0].Header?
    requires y == x.(r := y.r, out := x.out[1..]) && Hop(Here(x.r), x.out[0], x.setup.file) == Some(Done)
    requires y.r.status == Complete
    ensures Closing(y) && Measure(y) < Measure(x)
  {
    assert Play(Here(x.r), x.out, x.setup.file) == Play(Done, x.out[1..], x.setup.file);
    OnlyDone(x.out[1..], x.setup.file);
    BeforeMore(x.back);
  }

  lemma {:induction false} OnlyDone(q: seq<Item>, f: seq<byte>)
    ensures Play(Done, q, f).Some? ==> Play(Done, q, f) == Some(Done)
    decreases |q|
  {
    if q != [] {
      OnlyDone(q[1..], f);
    }
  }

  lemma TakesGarbage(x: System, ch: Chance)
    requires x.r.status == Running && Flowing(x) && Enabled(x, PassesGarbage)
    ensures Onwards(x, Next(x, PassesGarbage, ch))
  {
    var y := Next(x, PassesGarbage, ch);
    assert Hop(Here(x.r), x.out[0], x.setup.file).Some?;
    HeaderGone(x, y);
  }

  /** The state after a subpacket that is in its place. */
  predicate Taken(x: System, y: System) {
    && |x.out| > 0 && x.out[0].Sub?
    && var d := x.out[0];
       && y == x.(r := y.r, out := x.out[1..],
                  back := x.back + if d.end == ZCRCW || d.end == ZCRCQ then [Header(ZACK, x.r.rxbytes + |d.data|)]
                    else [])
       && y.r.status == Running && Hop(Here(x.r), d, x.setup.file) == Some(Here(y.r))
         && y.r.rxbytes == x.r.rxbytes + |d.data|
       && x.r.mode == AtData
  }

  lemma DataTaken(x: System, ch: Chance)
    requires x.r.status == Running && Flowing(x) && Enabled(x, ReadsData)
    ensures Taken(x, Next(x, ReadsData, ch))
  {
    assert Hop(Here(x.r), x.out[0], x.setup.file).Some?;
    assert x.back + [] == x.back;
  }

  lemma TakenOnwards(x: System, y: System)
    requires x.r.status == Running && Flowing(x) && Taken(x, y)
    ensures Onwards(x, y)
  {
    var f := x.setup.file;
    PlayOnward(Here(x.r), x.out, f);
    PlayOnward(Here(y.r), y.out, f);
    TakenAcks(x, y);
    TakenDue(x, y);
  }

  lemma TakenAcks(x: System, y: System)
    requires Flowing(x) && Taken(x, y)
    ensures Acks(y.back, x.s.lrxpos, y.r.rxbytes)
  {
    hide Play, Hop;
  }

  lemma TakenDue(x: System, y: System)
    requires Flowing(x) && Taken(x, y)
    ensures DueKept(x, y)
  {
    var f := x.setup.file;
    PlayOnward(Here(y.r), y.out, f);
    if !x.s.phase.EofWait? {
      assert y.r.rxbytes <= x.s.txpos;
      if |x.out| == 1 {
        assert y.out == [] && Here(y.r) == Target(x.s);
      } else {
        assert y.out[|y.out| - 1] == x.out[|x.out| - 1];
      }
    }
  }

  // ----- the sender ---------------------------------------------------------------------------

  /** What a move of the sender adds to the line keeps the receiver in step. */
  lemma Keeps1(x: System, y: System, z: Item)
    requires Flowing(x) && y == x.(s := y.s, out := x.out + [z]) && SenderFine(y.s, x.setup)
    requires Hop(Target(x.s), z, x.setup.file) == Some(Target(y.s)) && y.s.lrxpos == x.s.lrxpos && DueKept(y, y)
    ensures Flowing(y)
  {
    hide Hop, Target, Due, SenderFine;
    PlayMore(Here(x.r), x.out, z, x.setup.file);
  }

  lemma SendsSub(x: System, blk: nat, ch: Chance)
    requires x.r.status == Running && Flowing(x) && Smooth(x, Advances(blk, false)) && x.s.phase == Framing
    ensures Onwards(x, Next(x, Advances(blk, false), ch))
  {
    var y := Next(x, Advances(blk, false), ch);
    var m := SendSub(x.s, x.setup, blk);
    var z := m.out[0];
    assert m.out == [z] && y == x.(s := m.s, out := x.out + [z]);
    WeightMore(x.out, z);
    SubFits(x.s, x.setup, blk);
    hide SendSub;
    assert y.out[|y.out| - 1] == z;
    Keeps1(x, y, z);
  }

  lemma SubFits(s: Sender, c: Setup, blk: nat)
    requires SenderFine(s, c) && s.phase == Framing && 0 < blk <= MAXBLOCK
    ensures var m := SendSub(s, c, blk);
            && m.out[0].Sub? && SenderFine(m.s, c) && Hop(Target(s), m.out[0], c.file) == Some(Target(m.s))
            && m.s.lrxpos == s.lrxpos && s.txpos <= m.s.txpos
              && (m.s.phase == AckWait || m.s.phase == Polling(m.out[0].end))
            && (m.s.phase == AckWait ==> m.out[0].end == ZCRCW)
            && (m.s.eofseen || s.txpos < m.s.txpos)
  {
  }

  lemma LooksAtWindow(x: System, blk: nat, ch: Chance)
    requires x.r.status == Running && Flowing(x) && Smooth(x, Advances(blk, false)) && x.s.phase.Polling?
    ensures Onwards(x, Next(x, Advances(blk, false), ch))
  {
    var y := Next(x, Advances(blk, false), ch);
    PollOnwards(x, PollDone(x.s, x.setup));
  }

  lemma PollOnwards(x: System, m: Move)
    requires x.r.status == Running && Flowing(x) && x.s.phase.Polling? && m == PollDone(x.s, x.setup)
    ensures !m.flush && Onwards(x, x.(s := m.s, out := x.out + m.out))
  {
    var y := x.(s := m.s, out := x.out + m.out);
    PollShape(x.s, x.setup);
    hide PollDone;
    if m.out == [] {
      assert y.out == x.out;
    } else {
      var z := m.out[0];
      assert m.out == [z];
      WeightMore(x.out, z);
      assert y.out[|y.out| - 1] == z;
      hide SenderFine;
      Keeps1(x, y, z);
    }
  }

  /** Behind a subpacket: the window, the end of the file, or the next subpacket. */
  lemma PollShape(s: Sender, c: Setup)
    requires s.phase.Polling? && SenderFine(s, c)
    ensures var m := PollDone(s, c);
            && !m.flush && |m.out| <= 1 && SenderFine(m.s, c) && m.s == s.(phase := m.s.phase) && Rank(m.s) < Rank(s)
            && (m.out == [] ==>
                  && Target(m.s) == Target(s)
                  && (m.s.phase.Framing? || (m.s.phase == WindowWait(ZCRCQ) && s.phase.e == ZCRCQ)))
            && (m.out != [] ==>
                  && Hop(Target(s), m.out[0], c.file) == Some(Target(m.s))
                  && !m.s.phase.Polling? && !m.s.phase.AckWait?
                  && (if m.out[0].Sub? then m.out[0].end == ZCRCQ && Rank(m.s) + 3 < Rank(s)
                      else m.s.phase.EofWait? && Rank(m.s) + 1 < Rank(s)))
            && (s.phase == Polling(ZCRCQ) && m.s.phase.WindowWait? ==> s.lrxpos != s.txpos)
  {
  }

  lemma OpensFrame(x: System, blk: nat, ch: Chance)
    requires x.r.status == Running && Flowing(x) && Smooth(x, Advances(blk, false)) && x.s.phase == AckPoll
    ensures Onwards(x, Next(x, Advances(blk, false), ch))
  {
    var y := Next(x, Advances(blk, false), ch);
    var z := Header(ZDATA, x.s.txpos);
    WeightMore(x.out, z);
    Keeps1(x, y, z);
  }

  lemma StandsStill(x: System, blk: nat, ch: Chance)
    requires Smooth(x, Advances(blk, false)) && !x.s.phase.Framing? && !x.s.phase.Polling? && !x.s.phase.AckPoll?
    ensures Next(x, Advances(blk, false), ch) == x
  {
    assert x.out + [] == x.out;
  }

  // what the sender hears

  /** The first acknowledgement is taken off the line. */
  function Heard1(x: System): System
    requires |x.back| > 0 && x.back[0].Header?
  {
    x.(s := x.s.(lrxpos := x.back[0].pos), back := x.back[1..])
  }

  lemma AcksRest(x: System)
    requires Flowing(x) && |x.back| > 0
    ensures x.back[0] == Header(ZACK, x.back[0].pos) && Acks(x.back[1..], x.back[0].pos, x.r.rxbytes)
    ensures forall e :: Due(x, e) ==> Due(Heard1(x), e) || x.back[0].pos == x.s.txpos
    ensures x.r.rxbytes <= x.s.txpos
  {
    PlayOnward(Here(x.r), x.out, x.setup.file);
    if |x.back| > 1 {
      assert x.back[1..][|x.back| - 2] == x.back[|x.back| - 1];
    }
  }

  lemma HearsPolling(x: System, more: bool, ch: Chance)
    requires x.r.status == Running && Flowing(x) && Enabled(x, Listens(more)) && x.s.phase.Polling?
    ensures Onwards(x, Next(x, Listens(more), ch))
  {
    AcksRest(x);
    assert x.out + [] == x.out;
    var y := Next(x, Listens(more), ch);
    assert y == Heard1(x);
  }

  /** What follows an acknowledgement heard while the window was full. */
  function Polled1(x: System): System
    requires |x.back| > 0 && x.back[0].Header? && x.s.phase.WindowWait?
  {
    var (a, m) := (Heard1(x), PollDone(Heard1(x).s, x.setup));
    a.(s := m.s, out := x.out + m.out)
  }

  lemma HeardInWindow(x: System, more: bool, ch: Chance)
    requires x.r.status == Running && Flowing(x) && Enabled(x, Listens(more)) && x.s.phase.WindowWait?
    ensures |x.back| > 0 && x.back[0].Header? && Next(x, Listens(more), ch) == Polled1(x)
  {
    AcksRest(x);
  }

  lemma WindowGoesOn(x: System)
    requires x.r.status == Running && Flowing(x) && |x.back| > 0 && x.s.phase.WindowWait?
    requires x.back[0].Header? && PollDone(Heard1(x).s, x.setup).out == []
    ensures Onwards(x, Polled1(x))
  {
    AcksRest(x);
    assert x.out + [] == x.out;
  }

  lemma WindowEnds(x: System)
    requires x.r.status == Running && Flowing(x) && |x.back| > 0 && x.s.phase.WindowWait?
    requires x.back[0].Header? && PollDone(Heard1(x).s, x.setup).out != []
    ensures Onwards(x, Polled1(x))
  {
    AcksRest(x);
    var z := Header(ZEOF, x.s.txpos);
    assert PollDone(Heard1(x).s, x.setup).out == [z];
    WeightMore(x.out, z);
    PlayMore(Here(x.r), x.out, z, x.setup.file);
  }

  lemma HearsWindow(x: System, more: bool, ch: Chance)
    requires x.r.status == Running && Flowing(x) && Enabled(x, Listens(more)) && x.s.phase.WindowWait?
    ensures Onwards(x, Next(x, Listens(more), ch))
  {
    HeardInWindow(x, more, ch);
    hide Onwards, Polled1, Next, PollDone;
    if PollDone(Heard1(x).s, x.setup).out == [] {
      WindowGoesOn(x);
    } else {
      WindowEnds(x);
    }
  }

  lemma HearsAckWait(x: System, more: bool, ch: Chance)
    requires x.r.status == Running && Flowing(x) && Enabled(x, Listens(more))
             && (x.s.phase.AckWait? || x.s.phase.AckPoll?)
    ensures Onwards(x, Next(x, Listens(more), ch))
  {
    AcksRest(x);
    assert x.out + [] == x.out;
    var (a, y) := (Heard1(x), Next(x, Listens(more), ch));
    assert y == a.(s := a.s.(phase := y.s.phase));
  }

  lemma HearsEof(x: System, more: bool, ch: Chance)
    requires x.r.status == Running && Flowing(x) && Enabled(x, Listens(more)) && x.s.phase.EofWait?
    ensures Onwards(x, Next(x, Listens(more), ch))
  {
    AcksRest(x);
    assert x.out + [] == x.out;
    var (a, y) := (Heard1(x), Next(x, Listens(more), ch));
    if x.back[0].pos == x.s.txpos {
      var z := Header(ZEOF, x.s.txpos);
      assert y == a.(out := x.out + [z]);
      WeightMore(x.out, z);
      PlayMore(Here(x.r), x.out, z, x.setup.file);
    } else {
      assert y == a;
    }
  }

  lemma HearsAsk(x: System, more: bool, ch: Chance)
    requires Asked(x) && Enabled(x, Listens(more))
    ensures Onwards(x, Next(x, Listens(more), ch))
  {
    var y := Next(x, Listens(more), ch);
    var z := Header(ZDATA, 0);
    assert y.out == [z] && y.back == [] && z == y.out[0] && y.out[1..] == [];
    assert Play(Here(y.r), y.out, x.setup.file) == Hop(Here(y.r), z, x.setup.file);
  }

  // ----- every step --------------------------------------------------------------------------------

  lemma FlowingOnwards(x: System, e: Event, ch: Chance)
    requires x.r.status == Running && Flowing(x) && Smooth(x, e)
    ensures Onwards(x, Next(x, e, ch))
  {
    hide Flowing, Onwards, Next;
    match e {
      case ReadsHeader => TakesHeader(x, ch);
      case ReadsData =>
        DataTaken(x, ch);
        TakenOnwards(x, Next(x, e, ch));
      case PassesGarbage => TakesGarbage(x, ch);
      case Advances(blk, _) =>
        if x.s.phase.Framing? {
          SendsSub(x, blk, ch);
        } else if x.s.phase.Polling? {
          LooksAtWindow(x, blk, ch);
        } else if x.s.phase.AckPoll? {
          OpensFrame(x, blk, ch);
        } else {
          StandsStill(x, blk, ch);
          SameIsOnwards(x);
        }
      case Listens(more) =>
        NotFileWait(x);
        if x.s.phase.Polling? {
          HearsPolling(x, more, ch);
        } else if x.s.phase.WindowWait? {
          HearsWindow(x, more, ch);
        } else if x.s.phase.EofWait? {
          HearsEof(x, more, ch);
        } else {
          HearsAckWait(x, more, ch);
        }
    }
  }

  lemma SameIsOnwards(x: System)
    requires x.r.status == Running && Flowing(x)
    ensures Onwards(x, x)
  {
  }

  lemma NotFileWait(x: System)
    requires Flowing(x)
    ensures !x.s.phase.FileWait? && !x.s.phase.Finished?
  {
  }

  /** Every smooth step keeps the transfer on its way, and one that changes anything brings
      the end nearer. */
  lemma StepOnwards(x: System, y: System)
    requires Good(x) && SmoothStep(x, y)
    ensures Onwards(x, y)
  {
    var e, ch :| Smooth(x, e) && y == Next(x, e, ch);
    hide Flowing, SmoothStep;
    if x.r.status == Complete {
      CompleteOnwards(x, e, ch);
    } else if Asked(x) {
      if e.Listens? {
        HearsAsk(x, e.more, ch);
      } else {
        assert x.out + [] == x.out;
      }
    } else {
      FlowingOnwards(x, e, ch);
    }
  }

  lemma CompleteOnwards(x: System, e: Event, ch: Chance)
    requires x.r.status == Complete && Good(x) && Smooth(x, e)
    ensures Onwards(x, Next(x, e, ch))
  {
    var y := Next(x, e, ch);
    match e {
      case Announces =>
        BeforeMore(x.back);
      case Advances(blk, junk) =>
        assert x.out + [] == x.out && y == x;
      case Listens(more) =>
        assert x.back[0] in x.back;
      case _ => assert false;
    }
  }

  // ----- no way to stop short ------------------------------------------------------------------------

  /** There is a smooth step that changes something, other than one more ZRINIT. */
  ghost predicate CanMove(x: System) { exists y :: SmoothStep(x, y) && y != x && !Told(x, y) }

  lemma Moves(x: System, e: Event)
    requires Smooth(x, e)
    requires var y := Next(x, e, ZmodemCompletion.CHANCE); y != x && !Told(x, y)
    ensures CanMove(x)
  {
    hide Next, Enabled;
    assert SmoothStep(x, Next(x, e, ZmodemCompletion.CHANCE));
  }

  lemma ReceiverCanMove(x: System)
    requires x.r.status == Running && Flowing(x) && x.out != []
    ensures CanMove(x)
  {
    assert Hop(Here(x.r), x.out[0], x.setup.file).Some?;
    var e := if x.r.mode == AtData then ReadsData else if x.out[0].Header? then ReadsHeader else PassesGarbage;
    assert |Next(x, e, ZmodemCompletion.CHANCE).out| < |x.out|;
    Moves(x, e);
  }

  lemma SenderCanMove(x: System)
    requires x.r.status == Running && Flowing(x)
    requires x.s.phase.Framing? || x.s.phase.Polling? || x.s.phase.AckPoll?
    ensures CanMove(x)
  {
    var e := Advances(ZmodemCompletion.BLOCK, false);
    assert Next(x, e, ZmodemCompletion.CHANCE).s.phase != x.s.phase by {
      hide Flowing;
    }
    Moves(x, e);
  }

  lemma SenderCanHear(x: System)
    requires Good(x) && !Ended(x) && x.back != [] && !x.s.phase.Framing?
    ensures CanMove(x)
  {
    var e := Listens(false);
    assert Next(x, e, ZmodemCompletion.CHANCE).back == x.back[1..];
    Moves(x, e);
  }

  /** Until the sender has ended well something can be done, unless it waits in front of a
      full window behind the last subpacket, or the receiver has not yet told it. */
  lemma NeverStopsShort(x: System)
    requires Good(x) && !Ended(x) && !ZmodemCompletion.Stuck(x) && (x.r.status == Complete ==> x.back != [])
    ensures CanMove(x)
  {
    if x.r.status == Complete || Asked(x) {
      SenderCanHear(x);
    } else if x.s.phase.Framing? || x.s.phase.Polling? || x.s.phase.AckPoll? {
      SenderCanMove(x);
    } else if x.back != [] {
      SenderCanHear(x);
    } else {
      NotIdle(x);
      ReceiverCanMove(x);
    }
  }

  lemma NotIdle(x: System)
    requires Flowing(x) && x.r.status == Running && !ZmodemCompletion.Stuck(x) && x.back == []
    requires !x.s.phase.Framing? && !x.s.phase.Polling? && !x.s.phase.AckPoll?
    ensures x.out != []
  {
  }

  // ----- the main result ---------------------------------------------------------------------------------

  /** A run in which every step changes something. */
  ghost predicate Busy(trace: seq<System>) {
    |trace| > 0 && forall i | 0 < i < |trace| :: SmoothStep(trace[i - 1], trace[i]) && trace[i] != trace[i - 1]
  }

  /** How many of the first `i` steps were something other than one more ZRINIT. */
  ghost function Moved(trace: seq<System>, i: nat): nat
    requires i < |trace|
  {
    if i == 0 then 0 else Moved(trace, i - 1) + if Told(trace[i - 1], trace[i]) then 0 else 1
  }

  lemma AtWork(x: System)
    ensures Good(x) ==> x.r.status == Complete || (x.r.status == Running && !Ended(x))
  {
  }

  lemma {:induction false} BusyGood(trace: seq<System>, i: nat)
    requires Busy(trace) && Good(trace[0]) && i < |trace|
    ensures Good(trace[i]) && trace[i].setup == trace[0].setup
    ensures !Ended(trace[i]) ==> !Ended(trace[0]) && Measure(trace[i]) + Moved(trace, i) <= Measure(trace[0])
    ensures trace[i].r.status == Running ==> Moved(trace, i) == i
    decreases i
  {
    hide Measure, SmoothStep, Good;
    if i == 0 {
      AtWork(trace[0]);
    } else {
      BusyGood(trace, i - 1);
      AtWork(trace[i - 1]);
      AtWork(trace[i]);
      StepOnwards(trace[i - 1], trace[i]);
    }
  }

  lemma MeasureOpening(x: System)
    requires Asked(x)
    ensures Good(x) && Measure(x) == 40 * |x.setup.file| + 62
  {
  }

  lemma MeasureNat(x: System)
    requires Good(x)
    ensures Measure(x) >= 0
  {
  }

  /** However sender, receiver and lines take their turns: from the opening there are no
      more than 40 changes for each byte and 62 more, apart from the receiver's ZRINITs
      behind the file, before the sender has ended well; and when nothing else can change
      any more, it has, or it is stuck in front of a full window, or the receiver has
      accepted the end of the file and has only to say so. */
  lemma EveryRunEnds(trace: seq<System>)
    requires |trace| > 0 && Busy(trace) && Asked(trace[0])
    ensures var x := trace[|trace| - 1];
            && (!Ended(x) ==> Moved(trace, |trace| - 1) <= 40 * |x.setup.file| + 62)
            && (x.r.status == Running ==> |trace| <= 40 * |x.setup.file| + 63)
            && (!CanMove(x) ==>
                  Ended(x) || ZmodemCompletion.Stuck(x) || (x.r.status == Complete && x.back == []))
  {
    hide Measure, Busy, CanMove, ZmodemCompletion.Stuck, Asked, Good;
    MeasureOpening(trace[0]);
    var x := trace[|trace| - 1];
    BusyGood(trace, |trace| - 1);
    AtWork(x);
    MeasureNat(x);
    if !Ended(x) && !ZmodemCompletion.Stuck(x) && (x.r.status == Complete ==> x.back != []) {
      NeverStopsShort(x);
    }
  }

  /** An opening without anything stale on the lines. */
  lemma OpeningAsks(x: System)
    requires Opening(x) && x.out == [] && |x.back| == 1
    ensures Asked(x)
  {
    assert x.back == [x.back[0]];
  }
}
