/** The two ends of a ZMODEM file transfer: the receiver's loop (ddz/ddrz.c, rzfile)
    and the sender's (ddz/ddsz.c, zsendfile, zsendfdata, getinsync), as functions
    from a state and what was read to the next state and what is sent. */
module ZmodemPeers {

  type byte = bv8

  /** MAX_BLOCK, the room zrdata is given. */
  const MAXBLOCK := 8192
  const RETRIES := 20

  datatype FrameEnd = ZCRCE | ZCRCG | ZCRCQ | ZCRCW

  datatype Kind = ZRINIT | ZACK | ZFILE | ZSKIP | ZNAK | ZABORT | ZFIN | ZRPOS | ZDATA | ZEOF | ZCRC | ZCAN | ZOTHER

  /** What is on a line: an intact header or subpacket, or something whose check
      fails. */
  datatype Item = Header(kind: Kind, pos: nat) | Sub(data: seq<byte>, end: FrameEnd) | Damaged

  // ----- the receiver ---------------------------------------------------------------

  datatype Status = Running | Complete | Skipped | Failed

  /** Waiting for a header, or for the next subpacket of a frame. */
  datatype Mode = AtHeader | AtData

  datatype Receiver = Receiver(mode: Mode, rxbytes: nat, file: seq<byte>, n: int, status: Status)

  /** What zgethdr and zrdata report. */
  datatype Heard =
    | GotHeader(kind: Kind, pos: nat)
    | HeaderTimeout
    | HeaderError
    | GotData(data: seq<byte>, end: FrameEnd)
    | DataTimeout
    | DataError
    | DataCancelled

  /** The next state, what is sent, and whether a subpacket is read and thrown away. */
  datatype Reaction = Reaction(r: Receiver, out: seq<Item>, discard: bool)

  function Fresh(): Receiver { Receiver(AtHeader, 0, [], RETRIES, Running) }

  /** Back to the top of the loop: ask for data from here on. */
  function AskAgain(r: Receiver, discard: bool): Reaction {
    Reaction(r.(mode := AtHeader), [Header(ZRPOS, r.rxbytes)], discard)
  }

  /** The same, if there are tries left. */
  function Retry(r: Receiver, discard: bool): Reaction {
    if r.n - 1 < 0 then Reaction(r.(n := r.n - 1, status := Failed), [], false)
    else AskAgain(r.(n := r.n - 1), discard)
  }

  function OnHeader(r: Receiver, h: Heard): Reaction {
    match h
    case HeaderTimeout => Retry(r, true)
    case HeaderError => Retry(r, false)
    case GotHeader(kind, pos) =>
      (match kind
       case ZNAK => Retry(r, true)
       case ZFILE => AskAgain(r, true)
       case ZEOF =>
         if pos != r.rxbytes then Reaction(r, [], false) else Reaction(r.(status := Complete), [], false)
       case ZSKIP => Reaction(r.(status := Skipped), [], false)
       case ZDATA => if pos != r.rxbytes then Retry(r, false) else Reaction(r.(mode := AtData), [], false)
       case _ => Reaction(r.(status := Failed), [], false))
    case _ => Reaction(r, [], false)
  }

  function OnData(r: Receiver, h: Heard): Reaction {
    match h
    case DataCancelled => Reaction(r.(status := Failed), [], false)
    case DataTimeout => Retry(r, false)
    case DataError => Retry(r, false)
    case GotData(data, end) =>
      var r1 := r.(n := RETRIES, file := r.file + data, rxbytes := r.rxbytes + |data|);
      (match end
       case ZCRCW => Reaction(r1.(mode := AtHeader), [Header(ZACK, r1.rxbytes)], false)
       case ZCRCQ => Reaction(r1, [Header(ZACK, r1.rxbytes)], false)
       case ZCRCG => Reaction(r1, [], false)
       case ZCRCE => Reaction(r1.(mode := AtHeader), [], false))
    case _ => Reaction(r, [], false)
  }

  function React(r: Receiver, h: Heard): Reaction {
    if r.mode == AtHeader then OnHeader(r, h) else OnData(r, h)
  }

  // ----- the sender ------------------------------------------------------------------

  /** `Crashed` is the end of the program on a null stream. */
  datatype Outcome = Okay | SkippedFile | Error | Crashed

  datatype Phase =
    | FileWait                    // ZFILE sent, waiting for ZRPOS
    | Framing                     // about to send the next subpacket of a frame
    | Polling(e: FrameEnd)        // a subpacket is out; looking for headers and at the window
    | WindowWait(e: FrameEnd)     // the window is full
    | AckWait                     // after ZCRCW
    | AckPoll                     // acknowledged; looking for further headers
    | EofWait                     // ZEOF is out
    | Finished(outcome: Outcome)

  /** A `mapped` sender has closed the file and cleared its stream when the data begins. */
  datatype Setup = Setup(file: seq<byte>, info: seq<byte>, rxbuflen: nat, txwindow: nat, txwspac: nat, mapped: bool)

  datatype Sender = Sender(
    phase: Phase, txpos: nat, lrxpos: nat, lastsync: int, eofseen: bool, junk: nat, newcnt: int, txwcnt: int,
      errors: nat)

  /** The next state, whether what is still queued is flushed, and what is sent. */
  datatype Move = Move(s: Sender, flush: bool, out: seq<Item>)

  function Still(s: Sender): Move { Move(s, false, []) }

  /** What getinsync comes to: read on, return with this header, or never return. */
  datatype Sync = More(s: Sender, out: seq<Item>) | Back(s: Sender, k: Kind) | Dead(s: Sender)

  /** One header, a damaged item or a timeout in getinsync.  Errors are ZCAN here.  The
      clearerr for a ZRPOS does not ask whether there still is a stream. */
  function GetInSync(s: Sender, c: Setup, flag: bool, item: Item, timeout: bool): Sync {
    if timeout then Back(s, ZCAN)
    else
      match item
      case Header(kind, pos) =>
        (match kind
         case ZCAN | ZABORT | ZFIN => Back(s, ZCAN)
         case ZRPOS =>
           if c.mapped then Dead(s.(phase := Finished(Crashed)))
           else
             Back(s.(eofseen := false, lrxpos := pos, txpos := pos, lastsync := pos - 1,
                     errors := if s.lastsync == pos then s.errors + 1 else s.errors), ZRPOS)
         case ZACK =>
           var s1 := s.(lrxpos := pos);
           if flag || s.txpos == pos then Back(s1, ZACK) else More(s1, [])
         case ZRINIT => Back(s, ZRINIT)
         case ZSKIP => Back(s, ZSKIP)
         case _ => More(s.(errors := s.errors + 1), [Header(ZNAK, 0)]))
      case _ => More(s.(errors := s.errors + 1), [Header(ZNAK, 0)])
  }

  /** At gotack. */
  function GotAck(s: Sender, c: Kind): Sender {
    match c
    case ZACK => s.(phase := AckPoll)
    case ZRPOS => s.(phase := AckPoll)
    case ZRINIT => s.(phase := Finished(Okay))
    case ZSKIP => s.(phase := Finished(SkippedFile))
    case _ => s.(phase := Finished(Error))
  }

  /** At somemore: a new frame at the current position. */
  function NewFrame(s: Sender, c: Setup): Move {
    Move(s.(phase := Framing, newcnt := c.rxbuflen, txwcnt := 0), false, [Header(ZDATA, s.txpos)])
  }

  /** How many bytes the next subpacket has: negative for a mapped file whose end is
      behind us. */
  function SubLength(s: Sender, c: Setup, blk: nat): int {
    var left := |c.file| - s.txpos;
    if blk < left then blk else if c.mapped || left > 0 then left else 0
  }

  function SubData(s: Sender, c: Setup, n: int): seq<byte>
    requires n > 0 ==> s.txpos + n <= |c.file|
  {
    if n > 0 then c.file[s.txpos..s.txpos + n] else []
  }

  /** The frame end a subpacket of `n` bytes inside the file gets, with the counters. */
  function Ending(s: Sender, c: Setup, n: int): (Sender, FrameEnd) {
    if s.junk > 3 || s.txpos == s.lastsync then (s, ZCRCW)
    else
      var s1 := if c.rxbuflen > 0 then s.(newcnt := s.newcnt - n) else s;
      if c.rxbuflen > 0 && s1.newcnt <= 0 then (s1, ZCRCW)
      else if c.txwindow > 0 then
        if s.txwcnt + n >= c.txwspac then (s1.(txwcnt := 0), ZCRCQ) else (s1.(txwcnt := s.txwcnt + n), ZCRCG)
      else (s1, ZCRCG)
  }

  /** Eofseen behind the read: nothing but a ZRPOS takes it back. */
  predicate LastSub(s: Sender, c: Setup, blk: nat) {
    s.eofseen || if c.mapped then s.txpos + blk >= |c.file| else SubLength(s, c, blk) < blk
  }

  /** The next subpacket, of at most `blk` bytes. */
  function SendSub(s: Sender, c: Setup, blk: nat): Move {
    var n := SubLength(s, c, blk);
    var eof := LastSub(s, c, blk);
    var (s1, e) := if eof then (s.(eofseen := true), ZCRCE) else Ending(s, c, n);
    Move(s1.(phase := if e == ZCRCW then AckWait else Polling(e), junk := if e == ZCRCW then 0
      else s1.junk, txpos := s.txpos + n),
         false, [Sub(SubData(s, c, n), e)])
  }

  /** Nothing more to read after a subpacket: the window, then the next one or ZEOF. */
  function PollDone(s: Sender, c: Setup): Move
    requires s.phase.Polling? || s.phase.WindowWait?
  {
    if c.txwindow > 0 && s.txpos - s.lrxpos >= c.txwindow then
      Move(s.(phase := WindowWait(ZCRCQ)), false, if s.phase.e != ZCRCQ then [Sub([], ZCRCQ)] else [])
    else if s.eofseen then SendEof(s)
    else Still(s.(phase := Framing))
  }

  function SendEof(s: Sender): Move { Move(s.(phase := EofWait), false, [Header(ZEOF, s.txpos)]) }

  /** A header, a damaged item or a timeout while the sender reads; `more` says that
      behind a ZRINIT another header begins before the line falls silent. */
  function Hear(s: Sender, c: Setup, item: Item, timeout: bool, more: bool): Move {
    match s.phase
    case FileWait =>
      if timeout then Still(s.(phase := Finished(Error)))
      else if item.Header? && item.kind == ZRPOS then
        NewFrame(s.(txpos := item.pos, lastsync := item.pos - 1, lrxpos := 0, junk := 0), c)
      else if item.Header? && item.kind == ZSKIP then Still(s.(phase := Finished(SkippedFile)))
      else if item.Header? && (item.kind == ZCAN || item.kind == ZABORT || item.kind == ZFIN) then
        Still(s.(phase := Finished(Error)))
      else if item.Header? && item.kind == ZCRC then Move(s, false, [Header(ZCRC, 0)])
      else if item.Header? && item.kind == ZRINIT && more then Still(s)
      else Move(s, false, SendFile(c))
    case Polling(e) =>
      (match GetInSync(s, c, true, item, timeout)
       case More(s1, out) => Move(s1, false, out)
       case Dead(s1) => Still(s1)
       case Back(s1, k) => if k == ZACK then Still(s1) else Move(GotAck(s1, k), true, [Sub([], ZCRCE)]))
    case WindowWait(e) =>
      (match GetInSync(s, c, true, item, timeout)
       case More(s1, out) => Move(s1, false, out)
       case Dead(s1) => Still(s1)
       case Back(s1, k) => if k == ZACK then PollDone(s1, c) else Move(GotAck(s1, k), true, [Sub([], ZCRCE)]))
    case AckWait =>
      (match GetInSync(s, c, false, item, timeout)
       case More(s1, out) => Move(s1, false, out)
       case Dead(s1) => Still(s1)
       case Back(s1, k) => Still(GotAck(s1, k)))
    case AckPoll =>
      (match GetInSync(s, c, true, item, timeout)
       case More(s1, out) => Move(s1, false, out)
       case Dead(s1) => Still(s1)
       case Back(s1, k) => Still(GotAck(s1, k)))
    case EofWait =>
      (match GetInSync(s, c, false, item, timeout)
       case More(s1, out) => Move(s1, false, out)
       case Dead(s1) => Still(s1)
       case Back(s1, k) =>
         (match k
          case ZACK => SendEof(s1)
          case ZRPOS => NewFrame(s1, c)
          case ZRINIT => Still(s1.(phase := Finished(Okay)))
          case ZSKIP => Still(s1.(phase := Finished(SkippedFile)))
          case _ => Still(s1.(phase := Finished(Error)))))
    case _ => Still(s)
  }

  /** ZFILE and the file information. */
  function SendFile(c: Setup): seq<Item> { [Header(ZFILE, 0), Sub(c.info, ZCRCW)] }

  /** What the sender does without reading a header. */
  function Advance(s: Sender, c: Setup, blk: nat, junk: bool): Move {
    match s.phase
    case Framing => SendSub(s, c, blk)
    case Polling(e) => if junk then Still(s.(junk := s.junk + 1)) else PollDone(s, c)
    case AckPoll => NewFrame(s, c)
    case _ => Still(s)
  }
}
