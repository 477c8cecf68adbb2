/** Over lines that lose and damage nothing a ZMODEM transfer gets to the end of the file,
    whatever its buffer and window limits are, and from there to its own end without any
    timeout exactly if the window is not full. */
module ZmodemCompletion {
  import opened ZmodemPeers
  import opened ZmodemTransfer
  import opened Reachability

  /** A flush has nothing to cut, and nothing is thrown away. */
  const CHANCE := Chance(0, 0, false)

  lemma Goes(x: System, e: Event)
    requires Smooth(x, e)
    ensures Reaches(SmoothStep, x, Next(x, e, CHANCE))
  {
    hide React, Hear, Advance;
    assert SmoothStep(x, Next(x, e, CHANCE));
    One(SmoothStep, x, Next(x, e, CHANCE));
  }

  /** A run without trouble is a run. */
  lemma SmoothIsRun(x: System, y: System)
    requires Reaches(SmoothStep, x, y)
    ensures Reaches(Step, x, y)
  {
    hide Reaches, Next, Enabled;
    Larger(SmoothStep, Step, x, y);
  }

  /** The length calc_blklen gives at first. */
  const BLOCK := 1024

  /** `n` bytes have arrived, nothing is under way, and the receiver reads on. */
  predicate Streaming(x: System, n: nat) {
    && x.s.phase == Framing && !x.s.eofseen && x.r.mode == AtData && Level(x, n)
  }

  /** Both sides are at byte `n` of the file. */
  predicate Level(x: System, n: nat) {
    && n <= |x.setup.file| && x.s.txpos == n && x.s.lrxpos <= n && x.s.junk == 0 && x.s.lastsync < n
    && x.r.status == Running && x.r.rxbytes == n && x.r.file == x.setup.file[..n] && x.r.n > 0
    && x.out == [] && x.back == []
  }

  lemma Starts(x: System) returns (y: System)
    requires Opening(x) && x.out == [] && |x.back| == 1
    ensures Reaches(SmoothStep, x, y) && Streaming(y, 0) && y.setup == x.setup
    ensures y.s.lrxpos == 0 && y.s.txwcnt == 0 && y.s.newcnt == x.setup.rxbuflen
  {
    assert x.back == [Header(ZRPOS, 0)];
    Goes(x, Listens(false));
    var a := Next(x, Listens(false), CHANCE);
    Goes(a, ReadsHeader);
    y := Next(a, ReadsHeader, CHANCE);
    hide Reaches;
    Onward(SmoothStep, x, a, y);
  }

  // ----- a subpacket -----------------------------------------------------------------

  /** What the next subpacket has been through: what is left is up to the sender. */
  predicate Received(x: System, y: System, n: nat, m: nat, end: FrameEnd) {
    && y.setup == x.setup && y.out == [] && n + m <= |x.setup.file|
    && y.s == x.s.(phase := y.s.phase, eofseen := y.s.eofseen, newcnt := y.s.newcnt, txwcnt := y.s.txwcnt,
      txpos := n + m)
    && y.s.phase == (if end == ZCRCW then AckWait else Polling(end))
    && y.r == x.r.(mode := if end == ZCRCW || end == ZCRCE then AtHeader
      else AtData, rxbytes := n + m, file := x.setup.file[..n + m], n := RETRIES)
    && y.back == (if end == ZCRCW || end == ZCRCQ then [Header(ZACK, n + m)] else [])
  }

  lemma Cuts(s: Sender, c: Setup, n: nat) returns (m: nat, end: FrameEnd)
    requires s.txpos == n <= |c.file| && s.junk == 0 && s.lastsync != n && !s.eofseen
    ensures n + m <= |c.file| && m <= BLOCK
    ensures var t := SendSub(s, c, BLOCK);
            && !t.flush && t.out == [Sub(c.file[n..n + m], end)]
            && t.s == s.(phase := t.s.phase, eofseen := t.s.eofseen, newcnt := t.s.newcnt, txwcnt := t.s.txwcnt,
              txpos := n + m)
            && t.s.phase == (if end == ZCRCW then AckWait else Polling(end))
            && if end == ZCRCE then n + m == |c.file| && t.s.eofseen else m > 0 && !t.s.eofseen
  {
    var t := SendSub(s, c, BLOCK);
    m := |t.out[0].data|;
    end := t.out[0].end;
  }

  /** The next subpacket is on the line. */
  lemma Sends(x: System, n: nat) returns (a: System, m: nat, end: FrameEnd)
    requires Streaming(x, n)
    ensures Reaches(SmoothStep, x, a) && n + m <= |x.setup.file| && m <= BLOCK
    ensures var t := SendSub(x.s, x.setup, BLOCK);
            a == x.(s := t.s, out := [Sub(x.setup.file[n..n + m], end)])
            && t.s == x.s.(phase := t.s.phase, eofseen := t.s.eofseen, newcnt := t.s.newcnt, txwcnt := t.s.txwcnt,
              txpos := n + m)
            && t.s.phase == (if end == ZCRCW then AckWait else Polling(end))
            && if end == ZCRCE then n + m == |x.setup.file| && t.s.eofseen else m > 0 && !t.s.eofseen
  {
    hide SendSub;
    m, end := Cuts(x.s, x.setup, n);
    Goes(x, Advances(BLOCK, false));
    a := Next(x, Advances(BLOCK, false), CHANCE);
    assert a.out == [Sub(x.setup.file[n..n + m], end)];
  }

  /** The receiver has stored it. */
  lemma Stores(a: System, n: nat, m: nat, end: FrameEnd) returns (y: System)
    requires a.r.status == Running && a.r.mode == AtData && a.r.rxbytes == n && n + m <= |a.setup.file| && m <= BLOCK
    requires a.r.file == a.setup.file[..n] && a.out == [Sub(a.setup.file[n..n + m], end)] && a.back == []
    ensures Reaches(SmoothStep, a, y) && y.setup == a.setup && y.s == a.s && y.out == []
    ensures y.r == a.r.(mode := if end == ZCRCW || end == ZCRCE then AtHeader else AtData, rxbytes := n + m,
                        file := a.setup.file[..n + m], n := RETRIES)
    ensures y.back == (if end == ZCRCW || end == ZCRCQ then [Header(ZACK, n + m)] else [])
  {
    var f := a.setup.file;
    assert a.out[1..] == [];
    Goes(a, ReadsData);
    y := Next(a, ReadsData, CHANCE);
    assert f[..n] + f[n..n + m] == f[..n + m];
  }

  lemma Transmits(x: System, n: nat) returns (y: System, m: nat, end: FrameEnd)
    requires Streaming(x, n)
    ensures Reaches(SmoothStep, x, y) && Received(x, y, n, m, end)
    ensures if end == ZCRCE then n + m == |x.setup.file| && y.s.eofseen else m > 0 && !y.s.eofseen
  {
    hide SendSub, Reaches;
    var a;
    a, m, end := Sends(x, n);
    y := Stores(a, n, m, end);
    Onward(SmoothStep, x, a, y);
  }

  /** A new frame at the position both sides are at. */
  lemma Reframes(x: System, n: nat) returns (y: System)
    requires x.s.phase == AckPoll && !x.s.eofseen && x.r.mode == AtHeader && Level(x, n)
    ensures Reaches(SmoothStep, x, y) && Streaming(y, n) && y.setup == x.setup && y.s.lrxpos == x.s.lrxpos
  {
    Goes(x, Advances(BLOCK, false));
    var a := Next(x, Advances(BLOCK, false), CHANCE);
    assert a.out == [Header(ZDATA, n)] && a.out[1..] == [];
    Goes(a, ReadsHeader);
    y := Next(a, ReadsHeader, CHANCE);
    hide Reaches;
    Onward(SmoothStep, x, a, y);
  }

  /** After ZCRCW the sender waits for the acknowledgement and opens a new frame. */
  lemma Acknowledged(x: System, n: nat) returns (y: System)
    requires x.s.phase == AckWait && !x.s.eofseen && Level(x.(back := []), n) && x.back == [Header(ZACK, n)]
             && x.r.mode == AtHeader
    ensures Reaches(SmoothStep, x, y) && Streaming(y, n) && y.setup == x.setup
  {
    Goes(x, Listens(false));
    var a := Next(x, Listens(false), CHANCE);
    assert a.back == [];
    hide Reaches;
    y := Reframes(a, n);
    Onward(SmoothStep, x, a, y);
  }

  /** What the sender asked to be acknowledged inside a frame. */
  lemma HearsAck(x: System, n: nat) returns (y: System)
    requires x.s.phase.Polling? && x.s.txpos == n && x.back == [Header(ZACK, n)]
    ensures Reaches(SmoothStep, x, y) && y == x.(s := x.s.(lrxpos := n), back := [])
  {
    Goes(x, Listens(false));
    y := Next(x, Listens(false), CHANCE);
  }

  /** Inside a frame an empty subpacket opens a full window. */
  lemma WindowOpens(x: System, n: nat) returns (y: System)
    requires x.s.phase == WindowWait(ZCRCQ) && !x.s.eofseen && Level(x.(out := []), n) && x.r.mode == AtData
    requires x.out == [Sub([], ZCRCQ)]
    ensures Reaches(SmoothStep, x, y) && Streaming(y, n) && y.setup == x.setup
  {
    assert x.out[1..] == [] && x.r.file + [] == x.r.file;
    Goes(x, ReadsData);
    var a := Next(x, ReadsData, CHANCE);
    Goes(a, Listens(false));
    y := Next(a, Listens(false), CHANCE);
    hide Reaches;
    Onward(SmoothStep, x, a, y);
  }

  /** Inside a frame: the sender looks at the window, has it opened if it is full,
      and goes on. */
  lemma WindowChecked(x: System, n: nat) returns (y: System)
    requires x.s.phase.Polling? && x.s.phase.e != ZCRCE && !x.s.eofseen && Level(x, n) && x.r.mode == AtData
    requires x.s.phase.e == ZCRCQ ==> x.s.lrxpos == n
    ensures Reaches(SmoothStep, x, y) && Streaming(y, n) && y.setup == x.setup
  {
    Goes(x, Advances(BLOCK, false));
    var a := Next(x, Advances(BLOCK, false), CHANCE);
    if a.s.phase == Framing {
      y := a;
    } else {
      assert a == x.(s := x.s.(phase := WindowWait(ZCRCQ)), out := [Sub([], ZCRCQ)]);
      hide Reaches, Next;
      y := WindowOpens(a, n);
      Onward(SmoothStep, x, a, y);
    }
  }

  /** A subpacket that is not the last one. */
  lemma SubGoes(x: System, n: nat, a: System, m: nat, end: FrameEnd) returns (y: System)
    requires Streaming(x, n) && Received(x, a, n, m, end) && end != ZCRCE && m > 0 && !a.s.eofseen
    ensures Reaches(SmoothStep, a, y) && Streaming(y, n + m) && y.setup == x.setup
  {
    hide Reaches;
    if end == ZCRCW {
      y := Acknowledged(a, n + m);
    } else if end == ZCRCQ {
      var b := HearsAck(a, n + m);
      y := WindowChecked(b, n + m);
      Onward(SmoothStep, a, b, y);
    } else {
      y := WindowChecked(a, n + m);
    }
  }

  // ----- the end of the file -------------------------------------------------------------

  /** The last subpacket is through. */
  predicate AtEnd(x: System) {
    && x.s.phase == Polling(ZCRCE) && x.s.eofseen && x.r.mode == AtHeader && Level(x, |x.setup.file|)
      && x.r.n == RETRIES
  }

  predicate Complete(x: System) {
    x.s.phase == Finished(Okay) && x.r.status == Status.Complete && x.r.file == x.setup.file
  }

  /** ZEOF, and the receiver's next ZRINIT. */
  lemma Closes(x: System) returns (y: System)
    requires x.s.phase == EofWait && x.r.mode == AtHeader && x.r.status == Running
    requires x.r.file == x.setup.file && x.r.rxbytes == |x.setup.file|
    requires x.out == [Header(ZEOF, |x.setup.file|)] && x.back == []
    ensures Reaches(SmoothStep, x, y) && Complete(y) && y.setup == x.setup
  {
    Goes(x, ReadsHeader);
    var a := Next(x, ReadsHeader, CHANCE);
    Goes(a, Announces);
    var b := Next(a, Announces, CHANCE);
    Goes(b, Listens(false));
    y := Next(b, Listens(false), CHANCE);
    hide Reaches;
    Onward(SmoothStep, x, a, b);
    Onward(SmoothStep, x, b, y);
  }

  /** There is no window, or it is not full. */
  predicate WindowOpen(x: System) { x.setup.txwindow == 0 || x.s.txpos - x.s.lrxpos < x.setup.txwindow }

  /** The window is full behind the last subpacket, and the receiver is out of the frame:
      it takes what the sender sends now for garbage. */
  predicate Stuck(x: System) {
    && (x.s.phase == Polling(ZCRCE) || x.s.phase == WindowWait(ZCRCQ)) && !WindowOpen(x)
    && x.back == [] && x.r.mode == AtHeader && x.r.status == Running && forall y | y in x.out :: y.Sub?
  }

  lemma StaysStuck(x: System, y: System)
    requires Stuck(x) && SmoothStep(x, y)
    ensures Stuck(y)
  {
    var e, ch :| Smooth(x, e) && y == Next(x, e, ch);
    assert x.out != [] ==> x.out[0] in x.out;
    match e {
      case Advances(blk, junk) =>
      case PassesGarbage =>
      case ReadsHeader => assert false;
      case ReadsData => assert false;
      case Listens(_) => assert false;
      case Announces => assert false;
      case _ => assert false;
    }
  }

  /** From the end of the file a transfer gets to its own end without a timeout, a loss or
      damage if and only if the window is not full. */
  lemma EndsExactly(x: System)
    requires AtEnd(x)
    ensures (exists y :: Reaches(SmoothStep, x, y) && Complete(y)) <==> WindowOpen(x)
  {
    if WindowOpen(x) {
      var y := SendsEof(x);
    } else {
      hide Reaches, SmoothStep;
      forall y | Reaches(SmoothStep, x, y) ensures !Complete(y) {
        forall a, b | Stuck(a) && SmoothStep(a, b) ensures Stuck(b) {
          StaysStuck(a, b);
        }
        Keeps(SmoothStep, Stuck, x, y);
      }
    }
  }

  // ----- a sender without a stream ----------------------------------------------------------

  /** Nothing a receiver outside a frame would do more about than ask for its position. */
  predicate OnlyNaks(q: seq<Item>) { forall y | y in q && y.Header? :: y.kind == ZNAK }

  predicate OnlyAsks(q: seq<Item>) { forall y | y in q && y.Header? :: y.kind == ZRPOS }

  /** A mapped sender behind the last subpacket, in front of a full window: the receiver
      can only ask for its position, and that is the end of the sender. */
  predicate Doomed(x: System) {
    && x.setup.mapped && DoomedSender(x.s, x.setup) && DoomedReceiver(x.r) && OnlyNaks(x.out) && OnlyAsks(x.back)
  }

  predicate DoomedSender(s: Sender, c: Setup) {
    && c.txwindow > 0 && s.txpos - s.lrxpos >= c.txwindow
    && (s.phase == Polling(ZCRCE) || s.phase == WindowWait(ZCRCQ)
        || s.phase == Finished(Crashed) || s.phase == Finished(Error))
  }

  predicate DoomedReceiver(r: Receiver) { r.mode == AtHeader && (r.status == Running || r.status == Failed) }

  lemma DoomedMove(s: Sender, c: Setup, blk: nat, junk: bool)
    requires DoomedSender(s, c)
    ensures var m := Advance(s, c, blk, junk); DoomedSender(m.s, c) && OnlyNaks(m.out)
  {
  }

  lemma DoomedHearing(s: Sender, c: Setup, item: Item, timeout: bool, more: bool)
    requires DoomedSender(s, c) && c.mapped && (item.Header? ==> item.kind == ZRPOS)
    ensures var m := Hear(s, c, item, timeout, more); DoomedSender(m.s, c) && OnlyNaks(m.out)
  {
  }

  lemma DoomedReaction(r: Receiver, h: Heard)
    requires DoomedReceiver(r) && r.status == Running
    requires h.HeaderTimeout? || h.HeaderError? || (h.GotHeader? && h.kind == ZNAK)
    ensures DoomedReceiver(React(r, h).r) && OnlyAsks(React(r, h).out)
  {
  }

  lemma DoomedSends(x: System, m: Move, back: seq<Item>, ch: Chance)
    requires Doomed(x) && DoomedSender(m.s, x.setup) && OnlyNaks(m.out) && OnlyAsks(back)
    ensures Doomed(ZmodemTransfer.Sends(x, m, back, ch))
  {
    hide DoomedSender;
    var q := Flushed(x.out, ch);
    assert forall y | y in q && y.Header? :: y in x.out;
  }

  lemma DoomedReacts(x: System, h: Heard, rest: seq<Item>, drop: nat)
    requires Doomed(x) && x.r.status == Running && OnlyNaks(rest)
    requires h.HeaderTimeout? || h.HeaderError? || (h.GotHeader? && h.kind == ZNAK)
    ensures Doomed(Reacts(x, h, rest, drop))
  {
    DoomedReaction(x.r, h);
    hide DoomedSender, DoomedReceiver, React;
  }

  lemma DoomedLine(x: System, e: Event, ch: Chance)
    requires Doomed(x) && Enabled(x, e)
    requires e.PassesGarbage? || e.LosesHeader? || e.Damages? || e.LosesReply? || e.DamagesReply?
    ensures Doomed(Next(x, e, ch))
  {
    hide DoomedSender, DoomedReceiver;
    var y := Next(x, e, ch);
    assert forall z | z in y.out && z.Header? :: z in x.out;
    assert forall z | z in y.back && z.Header? :: z in x.back;
  }

  lemma StaysDoomed(x: System, y: System)
    requires Doomed(x) && Step(x, y)
    ensures Doomed(y)
  {
    var e, ch :| Enabled(x, e) && y == Next(x, e, ch);
    assert x.out != [] ==> x.out[0] in x.out && OnlyNaks(x.out[1..]);
    assert x.back != [] ==> x.back[0] in x.back && OnlyAsks(x.back[1..]);
    hide DoomedSender, Hear, Advance, React, Flushed, OnlyNaks, OnlyAsks;
    match e {
      case ReadsHeader =>
        FrontNak(x);
        DoomedReacts(x, GotHeader(x.out[0].kind, x.out[0].pos), x.out[1..], ch.drop);
      case Hears(h, eats) =>
        DoomedReacts(x, h, if eats then x.out[1..] else x.out, ch.drop);
      case Quits =>
      case Advances(blk, junk) =>
        DoomedMove(x.s, x.setup, blk, junk);
        DoomedSends(x, Advance(x.s, x.setup, blk, junk), x.back, ch);
      case Listens(more) =>
        FrontAsk(x);
        DoomedHearing(x.s, x.setup, x.back[0], false, more);
        DoomedSends(x, Hear(x.s, x.setup, x.back[0], false, more), x.back[1..], ch);
      case HearsNothing =>
        DoomedHearing(x.s, x.setup, Damaged, true, false);
        DoomedSends(x, Hear(x.s, x.setup, Damaged, true, false), x.back, ch);
      case ReadsData => assert false;
      case Announces => assert false;
      case _ => DoomedLine(x, e, ch);
    }
  }

  lemma FrontNak(x: System)
    requires Doomed(x) && x.out != [] && x.out[0].Header?
    ensures x.out[0].kind == ZNAK
  {
    assert x.out[0] in x.out;
  }

  lemma FrontAsk(x: System)
    requires Doomed(x) && x.back != []
    ensures x.back[0].Header? ==> x.back[0].kind == ZRPOS
  {
    assert x.back[0] in x.back;
  }

  /** From the end of the file a transfer can get to its own end, whatever is allowed to
      happen, if and only if the window is not full or the sender reads its file. */
  lemma EndsAtAll(x: System)
    requires AtEnd(x)
    ensures (exists y :: Reaches(Step, x, y) && Complete(y)) <==> WindowOpen(x) || !x.setup.mapped
  {
    hide Reaches, Step;
    if WindowOpen(x) || !x.setup.mapped {
      var y := Finishes(x);
    } else {
      forall y | Reaches(Step, x, y) ensures !Complete(y) {
        forall a, b | Doomed(a) && Step(a, b) ensures Doomed(b) {
          StaysDoomed(a, b);
        }
        Keeps(Step, Doomed, x, y);
      }
    }
  }

  /** What frees a sender that reads its file is the receiver's timeout. */
  lemma WindowStalls(x: System) returns (y: System)
    requires AtEnd(x) && !WindowOpen(x)
    ensures Reaches(Step, x, y) && y.setup == x.setup && y.r == x.r.(n := RETRIES - 1) && y.out == []
    ensures y.s == x.s.(phase := WindowWait(ZCRCQ)) && y.back == [Header(ZRPOS, |x.setup.file|)]
  {
    Goes(x, Advances(BLOCK, false));
    var a := Next(x, Advances(BLOCK, false), CHANCE);
    assert a.out == [Sub([], ZCRCQ)] && a.out[1..] == [];
    Goes(a, PassesGarbage);
    var b := Next(a, PassesGarbage, CHANCE);
    y := Next(b, Hears(HeaderTimeout, false), CHANCE);
    assert Step(b, y);
    One(Step, b, y);
    hide Reaches;
    Onward(SmoothStep, x, a, b);
    SmoothIsRun(x, b);
    Onward(Step, x, b, y);
  }

  lemma Restarts(x: System) returns (y: System)
    requires var n := |x.setup.file|;
             && x.s.phase == WindowWait(ZCRCQ) && x.back == [Header(ZRPOS, n)] && x.out == [] && x.s.junk == 0
             && x.r.mode == AtHeader && x.r.status == Running && x.r.rxbytes == n && x.r.file == x.setup.file
             && x.r.n > 0 && !x.setup.mapped
    ensures Reaches(SmoothStep, x, y) && Streaming(y, |x.setup.file|) && y.setup == x.setup
            && y.s.lrxpos == |x.setup.file|
  {
    Goes(x, Listens(false));
    var a := Next(x, Listens(false), CHANCE);
    assert a.s.phase == AckPoll && a.out == [Sub([], ZCRCE)] && a.out[1..] == [] && a.back == [];
    Goes(a, PassesGarbage);
    var b := Next(a, PassesGarbage, CHANCE);
    assert x.setup.file[..|x.setup.file|] == x.setup.file;
    hide Reaches, Next;
    y := Reframes(b, |x.setup.file|);
    Onward(SmoothStep, x, a, b);
    Onward(SmoothStep, x, b, y);
  }

  lemma SendsEof(x: System) returns (y: System)
    requires AtEnd(x) && WindowOpen(x)
    ensures Reaches(SmoothStep, x, y) && Complete(y) && y.setup == x.setup
  {
    Goes(x, Advances(BLOCK, false));
    var a := Next(x, Advances(BLOCK, false), CHANCE);
    assert x.setup.file[..|x.setup.file|] == x.setup.file;
    y := Closes(a);
    hide Reaches;
    Onward(SmoothStep, x, a, y);
  }

  /** Over smooth lines the sender gets to the end of the file. */
  lemma {:induction false} Streams(x: System, n: nat) returns (y: System)
    requires Streaming(x, n)
    ensures Reaches(SmoothStep, x, y) && AtEnd(y) && y.setup == x.setup
    decreases |x.setup.file| - n
  {
    hide Reaches;
    var a, m, end := Transmits(x, n);
    if end == ZCRCE {
      y := a;
    } else {
      var b := SubGoes(x, n, a, m, end);
      Onward(SmoothStep, x, a, b);
      y := Streams(b, n + m);
      Onward(SmoothStep, x, b, y);
    }
  }

  lemma ReachesEnd(x: System) returns (y: System)
    requires Opening(x) && x.out == [] && |x.back| == 1
    ensures Reaches(SmoothStep, x, y) && y.setup == x.setup && AtEnd(y)
  {
    hide Reaches;
    var a := Starts(x);
    y := Streams(a, 0);
    Onward(SmoothStep, x, a, y);
  }

  lemma Finishes(x: System) returns (y: System)
    requires AtEnd(x) && (WindowOpen(x) || !x.setup.mapped)
    ensures Reaches(Step, x, y) && Complete(y) && y.setup == x.setup
  {
    hide Reaches, SmoothStep, Step;
    if WindowOpen(x) {
      y := SendsEof(x);
      SmoothIsRun(x, y);
    } else {
      assert x.setup.file[..|x.setup.file|] == x.setup.file;
      var a := WindowStalls(x);
      var b := Restarts(a);
      var c, m, end := Transmits(b, |x.setup.file|);
      y := SendsEof(c);
      Onward(SmoothStep, a, b, c);
      Onward(SmoothStep, a, c, y);
      SmoothIsRun(a, y);
      Onward(Step, x, a, y);
    }
  }
}
