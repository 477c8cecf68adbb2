/** ZMODEM transfer safety: the receiver's file is always a prefix of the sender's,
    with rxbytes as its length, and an accepted ZEOF means that it is complete.

    The lines keep their order.  A header may be lost; any item may be damaged; a
    flush by the sender drops the end of its queue and may tear the item it cuts;
    no subpacket vanishes from the middle of a frame. */
module ZmodemTransfer {
  import opened Maybe
  import opened Reachability
  import opened ZmodemPeers

  datatype System = System(setup: Setup, s: Sender, r: Receiver, out: seq<Item>, back: seq<Item>)

  datatype Event =
    // the receiver
    | ReadsHeader                      // the header at the front of the line
    | ReadsData                        // the subpacket at the front of the line
    | PassesGarbage                    // something else where a header is looked for
    | Hears(h: Heard, eats: bool)      // a timeout, an error or a cancel; the front item may be used up
    | Quits                            // an unexpected value from zgethdr
    | Announces                        // after the file, tryz asks for the next one
    // the sender
    | Advances(blk: nat, junk: bool)
    | Listens(more: bool)              // the item at the front of its line
    | HearsNothing                     // a timeout
    // the lines
    | LosesHeader(i: nat)
    | Damages(i: nat)
    | LosesReply(i: nat)
    | DamagesReply(i: nat)

  /** What is left to chance in a step: how much is thrown away, where a flush cuts. */
  datatype Chance = Chance(drop: nat, cut: nat, torn: bool)

  predicate Enabled(x: System, e: Event) {
    match e
    case ReadsHeader => x.r.status == Running && x.r.mode == AtHeader && |x.out| > 0 && x.out[0].Header?
    case ReadsData => x.r.status == Running && x.r.mode == AtData && |x.out| > 0 && x.out[0].Sub?
    case PassesGarbage => x.r.status == Running && x.r.mode == AtHeader && |x.out| > 0 && !x.out[0].Header?
    case Hears(h, eats) =>
      && x.r.status == Running && (eats ==> |x.out| > 0)
      && (if x.r.mode == AtHeader then h.HeaderTimeout? || h.HeaderError?
        else h.DataTimeout? || h.DataError? || h.DataCancelled?)
    case Quits => x.r.status == Running
    case Announces => x.r.status == Complete || x.r.status == Skipped
    case Advances(_, _) => !x.s.phase.Finished?
    case Listens(_) => !x.s.phase.Finished? && !x.s.phase.Framing? && |x.back| > 0
    case HearsNothing => !x.s.phase.Finished? && !x.s.phase.Framing?
    case LosesHeader(i) => i < |x.out| && x.out[i].Header?
    case Damages(i) => i < |x.out|
    case LosesReply(i) => i < |x.back|
    case DamagesReply(i) => i < |x.back|
  }

  /** The receiver reacts; a discarded subpacket takes up to `drop` items with it. */
  function Reacts(x: System, h: Heard, rest: seq<Item>, drop: nat): System {
    var a := React(x.r, h);
    var left := if a.discard && drop <= |rest| then rest[drop..] else rest;
    x.(r := a.r, out := left, back := x.back + a.out)
  }

  function Flushed(q: seq<Item>, ch: Chance): seq<Item> {
    if ch.cut < |q| then q[..ch.cut] + (if ch.torn then [Damaged] else []) else q
  }

  function Sends(x: System, m: Move, back: seq<Item>, ch: Chance): System {
    x.(s := m.s, out := (if m.flush then Flushed(x.out, ch) else x.out) + m.out, back := back)
  }

  function Next(x: System, e: Event, ch: Chance): System
    requires Enabled(x, e)
  {
    match e
    case ReadsHeader => Reacts(x, GotHeader(x.out[0].kind, x.out[0].pos), x.out[1..], ch.drop)
    case ReadsData =>
      var d := x.out[0];
      Reacts(x, if |d.data| <= MAXBLOCK then GotData(d.data, d.end) else DataError, x.out[1..], ch.drop)
    case PassesGarbage => x.(out := x.out[1..])
    case Hears(h, eats) => Reacts(x, h, if eats then x.out[1..] else x.out, ch.drop)
    case Quits => x.(r := x.r.(status := Failed))
    case Announces => x.(back := x.back + [Header(ZRINIT, 0)])
    case Advances(blk, junk) => Sends(x, Advance(x.s, x.setup, blk, junk), x.back, ch)
    case Listens(more) => Sends(x, Hear(x.s, x.setup, x.back[0], false, more), x.back[1..], ch)
    case HearsNothing => Sends(x, Hear(x.s, x.setup, Damaged, true, false), x.back, ch)
    case LosesHeader(i) => x.(out := x.out[..i] + x.out[i + 1..])
    case Damages(i) => x.(out := x.out[i := Damaged])
    case LosesReply(i) => x.(back := x.back[..i] + x.back[i + 1..])
    case DamagesReply(i) => x.(back := x.back[i := Damaged])
  }

  /** ZFILE and the file information, any number of times. */
  predicate OfferedOnly(q: seq<Item>, c: Setup) {
    q == [] || (|q| >= 2 && q[..2] == SendFile(c) && OfferedOnly(q[2..], c))
  }

  /** The receiver's replies before the sender has heard any: ZRINITs from the time it
      was waiting for a file, and behind them the question for the first byte. */
  predicate AskedOnce(q: seq<Item>) {
    |q| > 0 && q[|q| - 1] == Header(ZRPOS, 0) && forall i | 0 <= i < |q| - 1 :: q[i] == Header(ZRINIT, 0)
  }

  /** zsendfile has sent ZFILE, perhaps several times; rzfile has asked for the file from
      the start. */
  predicate Opening(x: System) {
    && x.s.phase == FileWait && x.s.txpos == 0 && !x.s.eofseen
    && x.r == Fresh() && OfferedOnly(x.out, x.setup) && AskedOnce(x.back)
  }

  ghost predicate Step(x: System, y: System) { exists e, ch :: Enabled(x, e) && y == Next(x, e, ch) }

  /** Nothing is lost or damaged, nothing times out, and no garbage comes in. */
  predicate Smooth(x: System, e: Event) {
    && Enabled(x, e)
    && match e
       case ReadsHeader | ReadsData | PassesGarbage | Announces | Listens(_) => true
       case Advances(blk, junk) => 0 < blk <= MAXBLOCK && !junk
       case _ => false
  }

  ghost predicate SmoothStep(x: System, y: System) { exists e, ch :: Smooth(x, e) && y == Next(x, e, ch) }

  // ----- what is on the line --------------------------------------------------------------

  /** Where the receiver is after an item: outside a frame, or inside one with the
      file's bytes from this position on to come. */
  function Go(x: Item, at: Option<nat>): Option<nat> {
    match x
    case Header(kind, pos) => if at.None? && kind == ZDATA then Some(pos) else at
    case Sub(data, end) => if at.Some? && (end == ZCRCG || end == ZCRCQ) then Some(at.value + |data|) else None
    case Damaged => None
  }

  /** What an item must be where the receiver meets it. */
  predicate Fine(x: Item, at: Option<nat>, f: seq<byte>) {
    match x
    case Header(kind, pos) =>
      if at.Some? then kind == ZNAK
        else kind != ZSKIP && (kind == ZDATA ==> pos <= |f|) && (kind == ZEOF ==> pos == |f|)
    case Sub(data, _) =>
      at.Some? ==> at.value + |data| <= |f| && data == f[at.value..at.value + |data|]
    case Damaged => true
  }

  /** The line as the receiver will go through it from `at` on.  `open` is where the
      sender's frame stands at the end of the line, if one is open there. */
  predicate Ok(q: seq<Item>, f: seq<byte>, at: Option<nat>, open: Option<nat>)
    decreases |q|
  {
    if q == [] then at.None? || at == open
    else Fine(q[0], at, f) && Ok(q[1..], f, Go(q[0], at), open)
  }

  /** An error can lead out of a frame at any time. */
  lemma {:induction false} Leaves(q: seq<Item>, f: seq<byte>, at: Option<nat>, open: Option<nat>)
    requires Ok(q, f, at, open)
    ensures Ok(q, f, None, open)
    decreases |q|
  {
    if q != [] && at.Some? {
      if !q[0].Header? {
        Leaves(q[1..], f, Go(q[0], at), open);
      } else {
        Leaves(q[1..], f, at, open);
      }
    }
  }

  lemma OutOfFrame(q: seq<Item>, f: seq<byte>, at: Option<nat>, open: Option<nat>)
    requires Ok(q, f, at, open) && q != []
    ensures Ok(q[1..], f, None, open)
  {
    Leaves(q[1..], f, Go(q[0], at), open);
  }

  lemma {:induction false} Dropped(q: seq<Item>, f: seq<byte>, at: Option<nat>, open: Option<nat>, k: nat)
    requires Ok(q, f, at, open) && k <= |q|
    ensures Ok(q[k..], f, None, open)
    decreases k
  {
    if k == 0 {
      assert q[0..] == q;
      Leaves(q, f, at, open);
    } else {
      Dropped(q[1..], f, Go(q[0], at), open, k - 1);
      assert q[1..][k - 1..] == q[k..];
    }
  }

  // ----- what the sender adds ---------------------------------------------------------------

  lemma {:induction false} Added(q: seq<Item>, f: seq<byte>, at: Option<nat>, open: Option<nat>, x: Item,
      open': Option<nat>)
    requires Ok(q, f, at, open)
    requires Fine(x, None, f) && (Go(x, None).None? || Go(x, None) == open')
    requires open.Some? ==> Fine(x, open, f) && (Go(x, open).None? || Go(x, open) == open')
    ensures Ok(q + [x], f, at, open')
    decreases |q|
  {
    var r := q + [x];
    if q == [] {
      assert r[1..] == [];
    } else {
      assert r[0] == q[0] && r[1..] == q[1..] + [x];
      Added(q[1..], f, Go(q[0], at), open, x, open');
    }
  }

  /** A flush leaves a line that ends with an empty ZCRCE subpacket: whatever frame
      was cut, the receiver comes out of it. */
  lemma {:induction false} Cut(q: seq<Item>, f: seq<byte>, at: Option<nat>, open: Option<nat>, k: nat, torn: bool)
    requires Ok(q, f, at, open) && k <= |q| && (at.Some? ==> at.value <= |f|)
    ensures Ok(q[..k] + (if torn then [Damaged] else []) + [Sub([], ZCRCE)], f, at, None)
    decreases k
  {
    var end := [Sub([], ZCRCE)];
    var tail := (if torn then [Damaged] else []) + end;
    var r := q[..k] + (if torn then [Damaged] else []) + end;
    assert r == q[..k] + tail;
    if k == 0 {
      assert end[1..] == [] && r == tail;
      if torn {
        assert tail[1..] == end;
      } else {
        assert tail == end;
      }
    } else {
      assert r[0] == q[0] && r[1..] == q[1..][..k - 1] + (if torn then [Damaged] else []) + end;
      Cut(q[1..], f, Go(q[0], at), open, k - 1, torn);
    }
  }

  // ----- what the line does -------------------------------------------------------------------

  lemma {:induction false} Lost(q: seq<Item>, f: seq<byte>, at: Option<nat>, open: Option<nat>, i: nat)
    requires Ok(q, f, at, open) && i < |q| && q[i].Header?
    ensures Ok(q[..i] + q[i + 1..], f, at, open)
    decreases i
  {
    if i == 0 {
      assert q[..0] + q[1..] == q[1..];
      if at.None? {
        OutOfFrame(q, f, at, open);
      }
    } else {
      var r := q[..i] + q[i + 1..];
      assert r[0] == q[0] && r[1..] == q[1..][..i - 1] + q[1..][i..];
      Lost(q[1..], f, Go(q[0], at), open, i - 1);
    }
  }

  lemma {:induction false} Harmed(q: seq<Item>, f: seq<byte>, at: Option<nat>, open: Option<nat>, i: nat)
    requires Ok(q, f, at, open) && i < |q|
    ensures Ok(q[i := Damaged], f, at, open)
    decreases i
  {
    var r := q[i := Damaged];
    if i == 0 {
      assert r[1..] == q[1..];
      OutOfFrame(q, f, at, open);
    } else {
      assert r[0] == q[0] && r[1..] == q[1..][i - 1 := Damaged];
      Harmed(q[1..], f, Go(q[0], at), open, i - 1);
    }
  }

  // ----- the invariant ---------------------------------------------------------------------------

  /** Where the sender's frame stands; a sender that has crashed may have left one open. */
  function Open(s: Sender): Option<nat> {
    if s.phase.Framing? || s.phase.Polling? || s.phase.WindowWait? || s.phase == Finished(Crashed) then
      if s.eofseen then None else Some(s.txpos)
    else None
  }

  predicate SenderOk(s: Sender, f: seq<byte>) {
    && s.txpos <= |f|
    && (s.eofseen || s.phase.EofWait? ==> s.txpos == |f|)
    && (s.phase.Framing? || s.phase.AckWait? || s.phase.AckPoll? || s.phase.FileWait? ==> !s.eofseen)
  }

  function At(r: Receiver): Option<nat> {
    if r.mode == AtData && r.status == Running then Some(r.rxbytes) else None
  }

  /** What is heard fits what the receiver is waiting for. */
  predicate Fits(r: Receiver, h: Heard) {
    && r.status == Running
    && (if r.mode == AtHeader then h.GotHeader? || h.HeaderTimeout? || h.HeaderError?
      else !h.GotHeader? && !h.HeaderTimeout? && !h.HeaderError?)
  }

  predicate ReceiverOk(r: Receiver, f: seq<byte>) {
    && r.rxbytes == |r.file| && r.file <= f
    && (r.status == Complete ==> r.file == f)
    && r.status != Skipped
  }

  predicate IsInit(x: Item) { x.Header? && x.kind == ZRINIT }

  predicate IsAsk(x: Item) { x.Header? && x.kind == ZRPOS }

  predicate NoInit(q: seq<Item>) { forall i | 0 <= i < |q| :: !IsInit(q[i]) }

  /** No ZRINIT behind a ZRPOS. */
  predicate InitsFirst(q: seq<Item>) { forall i, j | 0 <= i < j < |q| && IsAsk(q[i]) :: !IsInit(q[j]) }

  /** Before the file is complete, ZRINITs are left from before it, and are heard before
      the sender begins; the sender is content only when the file is complete. */
  predicate EndOk(s: Sender, r: Receiver, back: seq<Item>) {
    r.status != Complete ==>
      && s.phase != Finished(Okay)
      && (if s.phase == FileWait then InitsFirst(back) else s.phase.Finished? || NoInit(back))
  }

  predicate RepliesOk(back: seq<Item>, f: seq<byte>) {
    forall i | 0 <= i < |back| && back[i].Header? :: back[i].pos <= |f|
  }

  predicate Safe(x: System) {
    var f := x.setup.file;
    && SenderOk(x.s, f)
    && ReceiverOk(x.r, f)
    && Ok(x.out, f, At(x.r), Open(x.s))
    && RepliesOk(x.back, f)
    && EndOk(x.s, x.r, x.back)
  }

  // ----- the receiver's steps ------------------------------------------------------------------------

  lemma Extended(file: seq<byte>, f: seq<byte>, data: seq<byte>)
    requires file <= f && |file| + |data| <= |f| && data == f[|file|..|file| + |data|]
    ensures file + data <= f
  {
    assert file == f[..|file|];
    assert f[..|file| + |data|] == f[..|file|] + f[|file|..|file| + |data|];
  }

  /** What a reaction keeps: the file, and where it leaves the receiver. */
  lemma ReactOk(r: Receiver, f: seq<byte>, h: Heard)
    requires ReceiverOk(r, f) && Fits(r, h)
    requires h.GotHeader? && r.mode == AtHeader ==> Fine(Header(h.kind, h.pos), None, f)
    requires h.GotData? && r.mode == AtData ==> Fine(Sub(h.data, h.end), Some(r.rxbytes), f)
    ensures var a := React(r, h);
            && ReceiverOk(a.r, f) && RepliesOk(a.out, f) && NoInit(a.out)
            && (a.discard ==> At(a.r).None?)
            && (h.GotHeader? && r.mode == AtHeader ==> At(a.r) == Go(Header(h.kind, h.pos), None) || At(a.r).None?)
            && (h.GotData? && r.mode == AtData ==> At(a.r) == Go(Sub(h.data, h.end), Some(r.rxbytes)))
            && (!h.GotHeader? && !h.GotData? ==> At(a.r).None?)
  {
    if h.GotData? && r.mode == AtData {
      Extended(r.file, f, h.data);
    }
  }

  lemma ReactsSafe(x: System, h: Heard, rest: seq<Item>, drop: nat)
    requires Safe(x) && Fits(x.r, h)
    requires h.GotHeader? ==> x.r.mode == AtHeader && Fine(Header(h.kind, h.pos), None, x.setup.file)
    requires h.GotData? ==> x.r.mode == AtData && Fine(Sub(h.data, h.end), Some(x.r.rxbytes), x.setup.file)
    requires Ok(rest, x.setup.file, None, Open(x.s))
    requires h.GotHeader? ==> Ok(rest, x.setup.file, Go(Header(h.kind, h.pos), None), Open(x.s))
    requires h.GotData? ==> Ok(rest, x.setup.file, Go(Sub(h.data, h.end), Some(x.r.rxbytes)), Open(x.s))
    ensures Safe(Reacts(x, h, rest, drop))
  {
    hide SenderOk, Fine, Go;
    ReactOk(x.r, x.setup.file, h);
    hide React, ReceiverOk;
    if drop <= |rest| {
      Dropped(rest, x.setup.file, None, Open(x.s), drop);
    }
  }

  // ----- the sender's steps ------------------------------------------------------------------------------

  /** The sender finishes content only on a ZRINIT, and not before it has begun; and it
      begins on a ZRPOS. */
  lemma ContentOnZrinit(s: Sender, c: Setup, item: Item, timeout: bool, more: bool)
    requires !s.phase.Finished?
    ensures var p := Hear(s, c, item, timeout, more).s.phase;
            && (p == Finished(Okay) ==> !timeout && IsInit(item) && s.phase != FileWait)
            && (p == FileWait ==> s.phase == FileWait)
            && (s.phase == FileWait && p != FileWait ==> p.Finished? || (!timeout && IsAsk(item)))
  {
  }

  /** What hearing an item does to the end of the transfer. */
  lemma HearsEnd(s: Sender, c: Setup, r: Receiver, back: seq<Item>, more: bool)
    requires !s.phase.Finished? && |back| > 0 && EndOk(s, r, back)
    ensures EndOk(Hear(s, c, back[0], false, more).s, r, back[1..])
  {
    ContentOnZrinit(s, c, back[0], false, more);
    hide Hear;
  }

  lemma HearsNoEnd(s: Sender, c: Setup, r: Receiver, back: seq<Item>)
    requires !s.phase.Finished? && EndOk(s, r, back)
    ensures EndOk(Hear(s, c, Damaged, true, false).s, r, back)
  {
    ContentOnZrinit(s, c, Damaged, true, false);
    hide Hear;
  }

  lemma AdvanceGoesOn(s: Sender, c: Setup, blk: nat, junk: bool)
    requires !s.phase.Finished?
    ensures var p := Advance(s, c, blk, junk).s.phase; !p.Finished? && (p == FileWait <==> s.phase == FileWait)
  {
  }

  /** Every kind of move: nothing, one or two items, or a flush and the empty end. */
  predicate MoveOk(s: Sender, m: Move, f: seq<byte>) {
    && SenderOk(m.s, f)
    && (if m.flush then m.out == [Sub([], ZCRCE)] && Open(m.s).None?
        else if m.out == [] then Open(s).None? || Open(m.s) == Open(s)
        else if |m.out| == 1 then Adds(m.out[0], Open(s), Open(m.s), f)
        else
          && |m.out| == 2 && Open(s).None? && Open(m.s).None?
          && Adds(m.out[0], None, None, f) && Adds(m.out[1], None, None, f))
  }

  /** Adding `x` takes the end of the line from `open` to `open'`. */
  predicate Adds(x: Item, open: Option<nat>, open': Option<nat>, f: seq<byte>) {
    && Fine(x, None, f) && (Go(x, None).None? || Go(x, None) == open')
    && (open.Some? ==> Fine(x, open, f) && (Go(x, open).None? || Go(x, open) == open'))
  }

  lemma SendSubOk(s: Sender, c: Setup, blk: nat)
    requires SenderOk(s, c.file) && s.phase.Framing?
    ensures MoveOk(s, SendSub(s, c, blk), c.file)
  {
  }

  lemma PollDoneOk(s: Sender, c: Setup)
    requires SenderOk(s, c.file) && (s.phase.Polling? || s.phase.WindowWait?)
    ensures MoveOk(s, PollDone(s, c), c.file)
  {
  }

  lemma AdvanceOk(s: Sender, c: Setup, blk: nat, junk: bool)
    requires SenderOk(s, c.file)
    ensures MoveOk(s, Advance(s, c, blk, junk), c.file)
  {
    hide SendSub, PollDone, SenderOk, MoveOk;
    if s.phase.Framing? {
      SendSubOk(s, c, blk);
    } else if s.phase.Polling? && !junk {
      PollDoneOk(s, c);
    } else {
      OtherAdvance(s, c, blk, junk);
    }
  }

  lemma OtherAdvance(s: Sender, c: Setup, blk: nat, junk: bool)
    requires SenderOk(s, c.file) && !s.phase.Framing? && (s.phase.Polling? ==> junk)
    ensures MoveOk(s, Advance(s, c, blk, junk), c.file)
  {
  }

  lemma SyncOk(s: Sender, c: Setup, flag: bool, item: Item, timeout: bool)
    requires SenderOk(s, c.file) && (item.Header? ==> item.pos <= |c.file|)
    ensures var f := c.file;
            match GetInSync(s, c, flag, item, timeout)
            case Dead(s1) => SenderOk(s1, f) && (Open(s).None? || Open(s1) == Open(s)) && s1.phase.Finished?
            case More(s1, out) => SenderOk(s1, f) && Open(s1) == Open(s) && s1.phase == s.phase
              && (out == [] || out == [Header(ZNAK, 0)])
            case Back(s1, k) =>
              && s1.phase == s.phase
              && (k != ZRPOS ==> SenderOk(s1, f) && Open(s1) == Open(s) && s1.eofseen == s.eofseen)
              && (k == ZRPOS ==> s1.txpos <= |f| && !s1.eofseen)
  {
  }

  lemma HearOk(s: Sender, c: Setup, item: Item, timeout: bool, more: bool)
    requires SenderOk(s, c.file) && (item.Header? ==> item.pos <= |c.file|) && !s.phase.Framing?
    ensures MoveOk(s, Hear(s, c, item, timeout, more), c.file)
  {
    hide Hear, MoveOk, SenderOk;
    match s.phase {
      case FileWait => HearFileOk(s, c, item, timeout, more);
      case Polling(_) => HearFrameOk(s, c, item, timeout, more);
      case WindowWait(_) => HearFrameOk(s, c, item, timeout, more);
      case _ => HearRestOk(s, c, item, timeout, more);
    }
  }

  lemma HearFrameOk(s: Sender, c: Setup, item: Item, timeout: bool, more: bool)
    requires SenderOk(s, c.file) && (item.Header? ==> item.pos <= |c.file|) && (s.phase.Polling? || s.phase.WindowWait?)
    ensures MoveOk(s, Hear(s, c, item, timeout, more), c.file)
  {
    SyncOk(s, c, true, item, timeout);
    hide GetInSync;
  }

  lemma HearRestOk(s: Sender, c: Setup, item: Item, timeout: bool, more: bool)
    requires SenderOk(s, c.file) && (item.Header? ==> item.pos <= |c.file|)
    requires s.phase.AckWait? || s.phase.AckPoll? || s.phase.EofWait? || s.phase.Finished?
    ensures MoveOk(s, Hear(s, c, item, timeout, more), c.file)
  {
    SyncOk(s, c, true, item, timeout);
    SyncOk(s, c, false, item, timeout);
    hide GetInSync;
  }

  lemma HearFileOk(s: Sender, c: Setup, item: Item, timeout: bool, more: bool)
    requires SenderOk(s, c.file) && (item.Header? ==> item.pos <= |c.file|) && s.phase.FileWait?
    ensures MoveOk(s, Hear(s, c, item, timeout, more), c.file)
  {
  }

  lemma SendsSafe(x: System, m: Move, back: seq<Item>, ch: Chance)
    requires Safe(x) && MoveOk(x.s, m, x.setup.file) && RepliesOk(back, x.setup.file) && EndOk(m.s, x.r, back)
    ensures Safe(Sends(x, m, back, ch))
  {
    hide SenderOk, Fine, Go;
    var (f, at, open) := (x.setup.file, At(x.r), Open(x.s));
    if m.flush {
      var k := if ch.cut < |x.out| then ch.cut else |x.out|;
      Cut(x.out, f, at, open, k, ch.cut < |x.out| && ch.torn);
      assert ch.cut >= |x.out| ==> x.out[..k] + [] == x.out;
    } else if m.out == [] {
      assert x.out + [] == x.out;
      SameLine(x.out, f, at, open, Open(m.s));
    } else if |m.out| == 1 {
      assert m.out == [m.out[0]];
      Added(x.out, f, at, open, m.out[0], Open(m.s));
    } else {
      assert x.out + m.out == x.out + [m.out[0]] + [m.out[1]];
      Added(x.out, f, at, None, m.out[0], None);
      Added(x.out + [m.out[0]], f, at, None, m.out[1], None);
    }
  }

  lemma {:induction false} SameLine(q: seq<Item>, f: seq<byte>, at: Option<nat>, open: Option<nat>, open': Option<nat>)
    requires Ok(q, f, at, open) && (open.None? || open' == open)
    ensures Ok(q, f, at, open')
    decreases |q|
  {
    hide Fine, Go;
    if q != [] {
      SameLine(q[1..], f, Go(q[0], at), open, open');
    }
  }

  // ----- every step ---------------------------------------------------------------------------------------

  lemma ReadingSafe(x: System, e: Event, ch: Chance)
    requires Safe(x) && Enabled(x, e) && (e.ReadsHeader? || e.ReadsData? || e.PassesGarbage? || e.Hears? || e.Quits?)
    ensures Safe(Next(x, e, ch))
  {
    var (f, at, open) := (x.setup.file, At(x.r), Open(x.s));
    hide SenderOk, ReceiverOk, Fine, Go, Open, Reacts;
    Leaves(x.out, f, at, open);
    if x.out != [] {
      OutOfFrame(x.out, f, at, open);
    }
    match e {
      case ReadsHeader =>
        assert x.out[0] == Header(x.out[0].kind, x.out[0].pos);
        ReactsSafe(x, GotHeader(x.out[0].kind, x.out[0].pos), x.out[1..], ch.drop);
      case ReadsData =>
        var d := x.out[0];
        assert d == Sub(d.data, d.end);
        ReactsSafe(x, if |d.data| <= MAXBLOCK then GotData(d.data, d.end) else DataError, x.out[1..], ch.drop);
      case PassesGarbage =>
      case Hears(h, eats) =>
        ReactsSafe(x, h, if eats then x.out[1..] else x.out, ch.drop);
      case Quits =>
        QuitsOk(x.r, f);
    }
  }

  lemma SendingSafe(x: System, e: Event, ch: Chance)
    requires Safe(x) && Enabled(x, e) && (e.Advances? || e.Listens? || e.HearsNothing?)
    ensures Safe(Next(x, e, ch))
  {
    hide ReceiverOk, Fine, Go, Advance, Hear, MoveOk, Open, Ok, Sends;
    match e {
      case Advances(blk, junk) =>
        AdvanceOk(x.s, x.setup, blk, junk);
        AdvanceGoesOn(x.s, x.setup, blk, junk);
        SendsSafe(x, Advance(x.s, x.setup, blk, junk), x.back, ch);
      case Listens(more) =>
        HearOk(x.s, x.setup, x.back[0], false, more);
        HearsEnd(x.s, x.setup, x.r, x.back, more);
        SendsSafe(x, Hear(x.s, x.setup, x.back[0], false, more), x.back[1..], ch);
      case HearsNothing =>
        HearOk(x.s, x.setup, Damaged, true, false);
        HearsNoEnd(x.s, x.setup, x.r, x.back);
        SendsSafe(x, Hear(x.s, x.setup, Damaged, true, false), x.back, ch);
    }
  }

  lemma NextSafe(x: System, e: Event, ch: Chance)
    requires Safe(x) && Enabled(x, e)
    ensures Safe(Next(x, e, ch))
  {
    var (f, at, open) := (x.setup.file, At(x.r), Open(x.s));
    if e.ReadsHeader? || e.ReadsData? || e.PassesGarbage? || e.Hears? || e.Quits? {
      ReadingSafe(x, e, ch);
    } else if e.Advances? || e.Listens? || e.HearsNothing? {
      SendingSafe(x, e, ch);
    } else {
      hide SenderOk, ReceiverOk, Fine, Go, Open, Ok;
      match e {
        case LosesHeader(i) =>
          Lost(x.out, f, at, open, i);
        case Damages(i) =>
          Harmed(x.out, f, at, open, i);
        case LosesReply(i) =>
          ReplyLost(x, i);
        case DamagesReply(i) =>
          ReplyHarmed(x, i);
        case Announces =>
          AnnouncesOk(x.r, f);
      }
    }
  }

  lemma AnnouncesOk(r: Receiver, f: seq<byte>)
    requires ReceiverOk(r, f)
    ensures r.status != Skipped
  {
  }

  lemma ReplyLost(x: System, i: nat)
    requires Safe(x) && i < |x.back|
    ensures var back := x.back[..i] + x.back[i + 1..]; RepliesOk(back, x.setup.file) && EndOk(x.s, x.r, back)
  {
    var back := x.back[..i] + x.back[i + 1..];
    assert forall k | 0 <= k < |back| :: back[k] == x.back[if k < i then k else k + 1];
  }

  lemma ReplyHarmed(x: System, i: nat)
    requires Safe(x) && i < |x.back|
    ensures var back := x.back[i := Damaged]; RepliesOk(back, x.setup.file) && EndOk(x.s, x.r, back)
  {
  }

  lemma QuitsOk(r: Receiver, f: seq<byte>)
    requires ReceiverOk(r, f)
    ensures ReceiverOk(r.(status := Failed), f)
  {
  }

  lemma StepSafe(x: System, y: System)
    requires Safe(x) && Step(x, y)
    ensures Safe(y)
  {
    hide Safe, Next, Enabled;
    var e, ch :| Enabled(x, e) && y == Next(x, e, ch);
    NextSafe(x, e, ch);
  }

  lemma {:induction false} OffersOk(q: seq<Item>, c: Setup, open: Option<nat>)
    requires OfferedOnly(q, c)
    ensures Ok(q, c.file, None, open)
    decreases |q|
  {
    if q != [] {
      OffersOk(q[2..], c, open);
      assert q[..2][0] == q[0] && q[..2][1] == q[1] && q[1..][1..] == q[2..];
    }
  }

  lemma OpeningSafe(x: System)
    requires Opening(x)
    ensures Safe(x)
  {
    OffersOk(x.out, x.setup, Open(x.s));
  }

  /** In every reachable state the receiver holds the first rxbytes bytes of the
      sender's file, when it has accepted ZEOF it holds all of it, and so it does when
      the sender has ended content. */
  lemma TransferSafety(x: System, y: System)
    requires Opening(x) && Reaches(Step, x, y)
    ensures y.r.rxbytes == |y.r.file| && y.r.file <= y.setup.file
    ensures y.r.status == Complete ==> y.r.file == y.setup.file
    ensures y.s.phase == Finished(Okay) ==> y.r.file == y.setup.file
  {
    hide Safe, Step, Opening, Reaches;
    OpeningSafe(x);
    forall a, b | Safe(a) && Step(a, b) ensures Safe(b) {
      StepSafe(a, b);
    }
    Keeps(Step, Safe, x, y);
    SafeMeans(y);
  }

  lemma SafeMeans(y: System)
    requires Safe(y)
    ensures y.r.rxbytes == |y.r.file| && y.r.file <= y.setup.file
    ensures y.r.status == Complete || y.s.phase == Finished(Okay) ==> y.r.file == y.setup.file
  {
  }
}
