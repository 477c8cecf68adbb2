/** One side of a HYDRA session (hydracom/hydra.c, hydra, process_packets, finfo
    and new_file) as a state machine: what it does with each packet, with a
    timeout, and when it is its turn to send.

    Packets are what rxpkt delivers.  The number `k` in a packet is the index of
    the sender's file it belongs to, or that the packet it answers belongs to; it
    is history, no decision looks at it.  The same holds for the fields `disk`, `cur`,
    `results`, `offers`, `seen`, `offer`, `log` and `completed`. */
module HydraPeer {
  import opened HydraOptions
  import opened Maybe
  import HydraInit

  type byte = bv8

  const RETRIES := 10
  const MAXBLKLEN := 2048

  datatype File = File(name: string, data: seq<byte>)

  datatype TxState =
    | TxDone | TxStart | TxSWait | TxInit | TxInitAck | TxRInit | TxFinfo | TxFinfoAck
    | TxXData | TxDataAck | TxXWait | TxEof | TxEofAck | TxREnd | TxEnd | TxEndAck

  datatype RxState = RxDone | RxInit | RxFinfo | RxData

  datatype DevState = DevDone | DevData | DevDack

  /** XFER_OK after EOFACK, XFER_OK because they already have it, XFER_SKIP. */
  datatype Outcome = Sent | Have | Skipped

  /** new_file: the file is there already, cannot be taken, or is opened with the
      bytes of an earlier, interrupted transfer. */
  datatype Decision = Already | Refuse | Accept(resume: seq<byte>)

  datatype Packet =
    | Start
    | Init(options: Options, txwindow: nat, rxwindow: nat)
    | InitAck
    | Finfo(name: Option<string>, k: nat)
    | FinfoAck(pos: int, k: nat)
    | Data(pos: int, bytes: seq<byte>, k: nat)
    | DataAck(pos: int, k: nat)
    | Rpos(pos: int, blklen: nat, syncid: int, k: nat)
    | Eof(pos: int, k: nat)
    | EofAck(k: nat)
    | Idle
    | End
    | Device
    | DeviceAck

  /** A packet on the line and the options it was encoded with. */
  datatype Flight = Flight(pkt: Packet, options: Options)

  /** `files` is the batch this side sends; `disk` is what new_file would make of each
      file of the other side's batch. */
  datatype Config = Config(
    options: Options, txwindow: nat, rxwindow: nat, originator: bool, maxblklen: nat, files: seq<File>,
      disk: seq<Decision>)

  datatype Tx = Tx(
    state: TxState, open: bool, pos: int, lastack: int, syncid: int, retries: nat, window: nat,
    blklen: nat, goodbytes: nat, goodneeded: nat, cur: nat, results: seq<Outcome>, offers: nat)

  /** How a file ended at the receiver: what was stored, if it was not given up, and
      the sender's file whose end of file ended it. */
  datatype Entry = Entry(file: Option<File>, from: nat)

  datatype Rx = Rx(
    state: RxState, open: bool, pos: int, name: string, data: seq<byte>, lastsync: int, retries: nat, syncid: int,
    window: nat, blklen: nat, timer: bool, seen: nat, offer: nat, log: map<nat, Entry>)

  datatype Peer = Peer(
    cfg: Config, tx: Tx, rx: Rx, txoptions: Options, rxoptions: Options, hdxlink: bool, dev: DevState, completed: bool)

  // ----- what the surroundings decide -------------------------------------------

  datatype Env = Env(
    decision: Decision,
    written: bool,      // dos_write succeeds
    sought: bool,       // dos_seek succeeds
    read: int,          // what dos_read returns
    expired: bool,      // rxtimer has expired
    chatting: bool,     // chattimer > 0
    ourDevice: bool)    // the device packet acknowledged is the current one

  /** The new state, the packets sent, and whether process_packets returned to
      hydra's caller. */
  datatype Reply = Reply(peer: Peer, out: seq<Flight>, outcome: Option<Outcome>)

  function Keep(s: Peer): Reply { Reply(s, [], None) }

  function Answer(s: Peer, p: Packet): Reply { Reply(s, [Flight(p, s.txoptions)], None) }

  function Abort(s: Peer): Peer { s.(tx := s.tx.(state := TxDone)) }

  function Word(x: nat): nat { x % 0x10000 }

  // ----- negotiation --------------------------------------------------------------

  /** hydra_init: what we ask for. */
  function Wanted(want: Options): Options { And(And(want, CAN), Not(UNNECESSARY)) }

  function Negotiated(ours: Options, theirs: Options, theyCan: Options): Options {
    And(And(Or(Or(ours, UNNECESSARY), theirs), theyCan), CAN)
  }

  /** The smaller of two windows, where 0 is no window at all. */
  function Window(theirs: nat, ours: nat): nat {
    if ours != 0 && (theirs == 0 || ours < theirs) then ours else theirs
  }

  function OnInit(s: Peer, p: Packet): Reply
    requires p.Init?
  {
    if s.rx.state == RxInit then
      var o := Negotiated(s.cfg.options, p.options, CAN);
      if Value(o) < Value(And(s.cfg.options, NECESSARY)) then Keep(Abort(s).(rxoptions := o))
      else
        var (txwindow, rxwindow) := HydraInit.WindowsRead(p.options, p.txwindow, p.rxwindow);
        Answer(s.(rxoptions := o, txoptions := o,
                  rx := s.rx.(state := RxFinfo, window := Window(txwindow, s.cfg.rxwindow)),
                  tx := s.tx.(window := Window(rxwindow, s.cfg.txwindow))),
               InitAck)
    else Answer(s, InitAck)
  }

  function OnStart(s: Peer): Reply {
    if s.tx.state == TxStart || s.tx.state == TxSWait then Keep(s.(tx := s.tx.(retries := 0, state := TxInit)))
    else Keep(s)
  }

  function OnInitAck(s: Peer): Reply {
    if s.tx.state == TxInit || s.tx.state == TxInitAck then Keep(s.(tx := s.tx.(retries := 0, state := TxRInit)))
    else Keep(s)
  }

  // ----- block lengths -------------------------------------------------------------

  function Ladder(i: nat): nat {
    if i <= 64 then 64 else if i <= 128 then 128 else if i <= 256 then 256 else if i <= 512 then 512 else 1024
  }

  function MaxBlock(speed: nat): nat {
    var m := (speed / 300) * 128;
    if m < 256 then 256 else if m > MAXBLKLEN then MAXBLKLEN else m
  }

  function FirstBlock(speed: nat): nat { if speed < 2400 then 256 else 512 }

  /** After `i` bytes have gone out: longer blocks once enough went well. */
  function Grown(t: Tx, i: nat, max: nat): Tx {
    if t.blklen < max then
      var good := Word(t.goodbytes + i);
      if good >= t.goodneeded then
        if Word(t.blklen * 2) >= max then t.(blklen := max, goodneeded := 0, goodbytes := 0)
        else t.(blklen := Word(t.blklen * 2), goodbytes := 0)
      else t.(goodbytes := good)
    else t
  }

  /** After an RPOS that asks for blocks of `asked`. */
  function Shrunk(t: Tx, asked: nat): Tx {
    var needed := Word(t.goodneeded + 1024);
    t.(blklen := Ladder(if t.blklen > asked then Word(asked) else t.blklen / 2),
       goodbytes := 0,
       goodneeded := if needed > 8192 then 8192 else needed)
  }

  // ----- receiving a file ------------------------------------------------------------

  function OnFinfo(s: Peer, p: Packet, env: Env): Reply
    requires p.Finfo?
  {
    var rx := s.rx.(seen := 2 * p.k);
    var rx' :=
      if rx.state == RxFinfo then
        match p.name
        case None => rx.(pos := 0, state := RxDone)
        case Some(name) => NewFile(rx, name, p.k, env)
      else if rx.state == RxDone then rx.(pos := if p.name.None? then 0 else -2)
      else rx;
    Answer(s.(rx := rx'), FinfoAck(rx'.pos, p.k))
  }

  function NewFile(rx: Rx, name: string, k: nat, env: Env): Rx {
    match env.decision
    case Already => rx.(pos := -1)
    case Refuse => rx.(pos := -2)
    case Accept(resume) =>
      rx.(open := true, name := name, data := resume, pos := |resume|,
          timer := false, retries := 0, lastsync := 0, syncid := 0, state := RxData, offer := k)
  }

  /** The file is closed. */
  function Ended(rx: Rx, file: Option<File>, from: nat): Rx {
    rx.(open := false, state := RxFinfo, log := rx.log[rx.offer := Entry(file, from)])
  }

  /** A data or end-of-file packet for another position: ask for a resend, not
      more often than the timer allows. */
  function BadPosition(s: Peer, pos: int, k: nat, fallback: bool, env: Env): Reply {
    var rx0 := if pos <= s.rx.lastsync then s.rx.(timer := false, retries := 0) else s.rx;
    var rx1 := rx0.(lastsync := pos);
    if rx1.timer && !env.expired then Keep(s.(rx := rx1))
    else
      var oneWay := fallback && rx1.retries > 4 && BeforeEnd(s.tx.state) && !s.cfg.originator && !s.hdxlink;
      var retries := if oneWay then 1 else rx1.retries + 1;
      var s2 := s.(hdxlink := s.hdxlink || oneWay, rx := rx1.(retries := retries));
      if retries > RETRIES then Keep(Abort(s2))
      else
        var syncid := if retries == 1 then rx1.syncid + 1 else rx1.syncid;
        var half := rx1.blklen / 2;
        Answer(s2.(rx := s2.rx.(syncid := syncid, blklen := half, timer := true)),
               Rpos(rx1.pos, Ladder(half), syncid, k))
  }

  predicate BeforeEnd(t: TxState) { t != TxREnd && t != TxEnd && t != TxEndAck }

  function OnData(s0: Peer, p: Packet, env: Env): Reply
    requires p.Data?
  {
    var s := s0.(rx := s0.rx.(seen := 2 * p.k + 1));
    if s.rx.state != RxData then Keep(s)
    else if p.pos != s.rx.pos || p.pos < 0 then BadPosition(s, p.pos, p.k, true, env)
    else if !env.written then
      var rx := s.rx.(blklen := Word(|p.bytes|), open := false, pos := -2, retries := 1, syncid := s.rx.syncid + 1,
          timer := true);
      Answer(s.(rx := rx), Rpos(-2, 0, rx.syncid, p.k))
    else
      var rx := s.rx.(blklen := Word(|p.bytes|), retries := 0, timer := false, lastsync := s.rx.pos,
                      pos := s.rx.pos + |p.bytes|, data := s.rx.data + p.bytes);
      if rx.window != 0 then Answer(s.(rx := rx), DataAck(rx.pos, p.k)) else Keep(s.(rx := rx))
  }

  function OnEof(s0: Peer, p: Packet, env: Env): Reply
    requires p.Eof?
  {
    var s := s0.(rx := s0.rx.(seen := 2 * p.k + 1));
    if s.rx.state == RxData then
      if p.pos < 0 then
        Answer(s.(rx := Ended(s.rx, None, p.k)), EofAck(p.k))
      else if p.pos != s.rx.pos then BadPosition(s, p.pos, p.k, false, env)
      else
        Answer(s.(rx := Ended(s.rx, Some(File(s.rx.name, s.rx.data)), p.k)), EofAck(p.k))
    else if s.rx.state == RxFinfo then Answer(s, EofAck(p.k))
    else Keep(s)
  }

  // ----- sending a file ----------------------------------------------------------------

  /** The transmitter is somewhere between FINFOACK and EOFACK. */
  predicate InFile(t: TxState) {
    t == TxXData || t == TxDataAck || t == TxXWait || t == TxEof || t == TxEofAck
  }

  predicate HasFile(s: Peer) { s.tx.cur < |s.cfg.files| }

  function OnFinfoAck(s: Peer, p: Packet, env: Env): Reply
    requires p.FinfoAck?
  {
    if s.tx.state == TxFinfo || s.tx.state == TxFinfoAck then
      var t := s.tx.(retries := 0);
      if !HasFile(s) then Keep(s.(tx := t.(state := TxREnd)))
      else if p.pos >= 0 then
        if p.pos > 0 && !env.sought then Keep(s.(tx := t.(lastack := p.pos, open := false, pos := -2, state := TxEof)))
        else Keep(s.(tx := t.(lastack := p.pos, pos := p.pos, state := TxXData)))
      else Reply(s.(tx := t.(pos := p.pos, open := false)), [], Some(if p.pos == -1 then Have else Skipped))
    else Keep(s)
  }

  function OnDataAck(s: Peer, p: Packet): Reply
    requires p.DataAck?
  {
    if InFile(s.tx.state) && s.tx.window != 0 && p.pos > s.tx.lastack then
      var t := s.tx.(lastack := p.pos);
      if t.state == TxDataAck && t.pos < t.lastack + t.window then Keep(s.(tx := t.(state := TxXData, retries := 0)))
      else Keep(s.(tx := t))
    else Keep(s)
  }

  function OnRpos(s: Peer, p: Packet, env: Env): Reply
    requires p.Rpos?
  {
    if !InFile(s.tx.state) then Keep(s)
    else if p.syncid != s.tx.syncid then
      var t := s.tx.(syncid := p.syncid, retries := 1);
      if p.pos < 0 then
        Keep(s.(tx := t.(pos := -2, open := false, state := if t.open then TxEof else t.state)))
      else
        var t1 := Shrunk(t, p.blklen).(pos := p.pos);
        if !t.open || !env.sought then Keep(s.(tx := t1.(open := false, pos := -2, state := TxEof)))
        else Keep(s.(tx := t1.(state := if t1.state == TxXWait then TxXWait else TxXData)))
    else
      var t := s.tx.(retries := s.tx.retries + 1);
      Keep(s.(tx := if t.retries > RETRIES then t.(state := TxDone) else t))
  }

  function OnEofAck(s: Peer): Reply {
    if s.tx.state == TxEof || s.tx.state == TxEofAck then
      Reply(s, [], Some(if s.tx.open then Sent else Skipped))
    else Keep(s)
  }

  function OnIdle(s: Peer): Reply {
    if s.tx.state == TxXWait then Keep(s.(hdxlink := false, tx := s.tx.(retries := 0, state := TxXData)))
    else Keep(s)
  }

  function OnEnd(s: Peer): Reply {
    if s.tx.state == TxEnd || s.tx.state == TxEndAck then
      var f := Flight(End, s.txoptions);
      Reply(s.(tx := s.tx.(state := TxDone), completed := true), [f, f, f], None)
    else Keep(s)
  }

  function OnDeviceAck(s: Peer, env: Env): Reply {
    if s.dev != DevDone && env.ourDevice then Keep(s.(dev := DevDone)) else Keep(s)
  }

  /** The switch over packet types. */
  function Handle(s: Peer, p: Packet, env: Env): Reply {
    match p
    case Start => OnStart(s)
    case Init(_, _, _) => OnInit(s, p)
    case InitAck => OnInitAck(s)
    case Finfo(_, _) => OnFinfo(s, p, env)
    case FinfoAck(_, _) => OnFinfoAck(s, p, env)
    case Data(_, _, _) => OnData(s, p, env)
    case DataAck(_, _) => OnDataAck(s, p)
    case Rpos(_, _, _, _) => OnRpos(s, p, env)
    case Eof(_, _) => OnEof(s, p, env)
    case EofAck(_) => OnEofAck(s)
    case Idle => OnIdle(s)
    case End => OnEnd(s)
    case Device => Answer(s, DeviceAck)
    case DeviceAck => OnDeviceAck(s, env)
  }

  /** The second switch of process_packets, on the transmitter's state. */
  function Act(s: Peer, env: Env): Peer {
    match s.tx.state
    case TxStart | TxSWait => if s.rx.state == RxFinfo then s.(tx := s.tx.(retries := 0, state := TxInit)) else s
    case TxRInit => if s.rx.state == RxFinfo then s.(tx := s.tx.(retries := 0, state := TxFinfo)) else s
    case TxXData =>
      if s.rx.state != RxDone && s.hdxlink then
        s.(dev := if s.dev == DevDone && s.txoptions.device then DevData else s.dev, tx := s.tx.(state := TxXWait))
      else s
    case TxXWait => if s.rx.state == RxDone then s.(tx := s.tx.(retries := 0, state := TxXData)) else s
    case TxREnd =>
      if s.rx.state == RxDone && s.dev == DevDone && !env.chatting then s.(tx := s.tx.(retries := 0, state := TxEnd))
        else s
    case _ => s
  }

  /** The file is done with: hydra returns and is called for the next one. */
  function NextFile(s: Peer, outcome: Outcome): Peer {
    var t := s.tx.(state := TxFinfo, retries := 0, cur := s.tx.cur + 1, results := s.tx.results + [outcome],
        offers := 0);
    s.(tx := if t.cur < |s.cfg.files| then t.(open := true, syncid := 0) else t.(open := false))
  }

  function Process(s: Peer, p: Packet, env: Env): (Peer, seq<Flight>) {
    var r := Handle(s, p, env);
    match r.outcome
    case Some(o) => (NextFile(r.peer, o), r.out)
    case None => (Act(r.peer, env), r.out)
  }

  /** H_TXTIME. */
  function Timeout(s: Peer, env: Env): (Peer, seq<Flight>) {
    if s.tx.state == TxXWait || s.tx.state == TxREnd then (Act(s, env), [Flight(Idle, s.txoptions)])
    else
      var t := s.tx.(retries := s.tx.retries + 1);
      if t.retries > RETRIES then (s.(tx := t.(state := TxDone)), [])
      else (Act(s.(tx := t.(state := Again(t.state))), env), [])
  }

  function Again(t: TxState): TxState {
    match t
    case TxSWait => TxStart
    case TxInitAck => TxInit
    case TxFinfoAck => TxFinfo
    case TxDataAck => TxXData
    case TxEofAck => TxEof
    case TxEndAck => TxEnd
    case _ => t
  }

  // ----- the switch of hydra: what is sent in which state ---------------------------------

  /** What dos_read can return at the current position. */
  predicate ReadOk(s: Peer, env: Env) {
    s.tx.state == TxXData && s.tx.open && HasFile(s) && s.tx.pos >= 0 ==>
      var left := |s.cfg.files[s.tx.cur].data| - s.tx.pos;
      env.read < 0 || (if left <= 0 then env.read == 0 else 1 <= env.read <= left && env.read <= s.tx.blklen)
  }

  function Turn(s: Peer, env: Env): (Peer, seq<Flight>)
    requires ReadOk(s, env)
  {
    match s.tx.state
    case TxStart => (s.(tx := s.tx.(state := TxSWait)), [Flight(Start, s.txoptions)])
    case TxInit =>
      (s.(txoptions := s.rxoptions, tx := s.tx.(state := TxInitAck)),
       [Flight(Init(s.cfg.options, s.cfg.txwindow, s.cfg.rxwindow), NONE)])
    case TxFinfo =>
      var name := if HasFile(s) then Some(s.cfg.files[s.tx.cur].name) else None;
      (s.(tx := s.tx.(state := TxFinfoAck, offers := s.tx.offers + 1)), [Flight(Finfo(name, s.tx.cur), s.txoptions)])
    case TxXData => SendData(s, env)
    case TxEof => SendEof(s)
    case TxEnd =>
      (s.(tx := s.tx.(state := TxEndAck)), [Flight(End, s.txoptions), Flight(End, s.txoptions)])
    case _ => (s, [])
  }

  function SendEof(s: Peer): (Peer, seq<Flight>) {
    (s.(tx := s.tx.(state := TxEofAck)), [Flight(Eof(s.tx.pos, s.tx.cur), s.txoptions)])
  }

  function SendData(s: Peer, env: Env): (Peer, seq<Flight>)
    requires s.tx.state == TxXData && ReadOk(s, env)
  {
    if s.tx.pos < 0 then SendEof(s)
    else if !s.tx.open || !HasFile(s) || env.read < 0 then SendEof(s.(tx := s.tx.(open := false, pos := -2)))
    else if env.read == 0 then SendEof(s)
    else
      var bytes := s.cfg.files[s.tx.cur].data[s.tx.pos..s.tx.pos + env.read];
      var t := Grown(s.tx.(pos := s.tx.pos + env.read), env.read, s.cfg.maxblklen);
      var wait := t.window != 0 && t.pos >= t.lastack + t.window;
      (s.(tx := if wait then t.(state := TxDataAck) else t), [Flight(Data(s.tx.pos, bytes, s.tx.cur), s.txoptions)])
  }

  predicate PastRInit(t: TxState) {
    t != TxDone && t != TxStart && t != TxSWait && t != TxInit && t != TxInitAck && t != TxRInit
  }

  /** The switch on devtxstate. */
  function DeviceTurn(s: Peer): (Peer, seq<Flight>) {
    if s.dev == DevData && PastRInit(s.tx.state) then (s.(dev := DevDack), [Flight(Device, s.txoptions)]) else (s, [])
  }

  /** hydra_devsend. */
  function DeviceSend(s: Peer): Peer {
    if s.dev == DevDone && s.txoptions.device && s.tx.state != TxEnd && s.tx.state != TxEndAck then s.(dev := DevData)
      else s
  }

  function DeviceTimeout(s: Peer, tooMany: bool): Peer {
    if tooMany then Abort(s) else s.(dev := DevData)
  }

  /** A session as hydra_init and the first call of hydra leave it. */
  ghost predicate Fresh(s: Peer) {
    && (exists want :: s.cfg.options == Wanted(want))
    && (exists speed | 0 <= speed < 0x10000 :: s.cfg.maxblklen == MaxBlock(speed) && s.tx.blklen == FirstBlock(speed))
    && s.tx.state == TxStart && s.rx.state == RxInit
    && s.tx.open == (0 < |s.cfg.files|) && s.tx.retries == 0 && s.tx.syncid == 0 && s.tx.cur == 0 && s.tx.results == []
      && s.tx.offers == 0
    && s.tx.goodbytes == 0 && s.tx.goodneeded == 1024
    && s.txoptions == NONE && s.rxoptions == RX_INITIAL
    && !s.rx.open && s.rx.seen == 0 && s.rx.log == map[]
    && s.dev == DevDone && !s.completed
  }
}
