/** What holds over a whole session of two peers: both sides agree on the link
    options, and on the windows exactly when neither asks for two options or more; a
    side that completes has seen the other's end of batch
    and been seen, and block lengths stay in their bounds. */
module HydraSession {
  import opened HydraOptions
  import opened HydraPeer
  import opened HydraLink
  import opened Maybe
  import opened Reachability
  import HydraInit
  import HydraTransfer

  /** Packets that are always sent in hexadecimal. */
  predicate IsHex(p: Packet) { p.Start? || p.Init? || p.InitAck? || p.End? || p.Idle? }

  function Agreed(a: Config, b: Config): Options { Negotiated(a.options, b.options, CAN) }

  predicate OnLadder(n: nat) { n == 64 || n == 128 || n == 256 || n == 512 || n == 1024 }

  predicate BlocksOk(t: Tx, max: nat) {
    && 256 <= max <= MAXBLKLEN
    && 64 <= t.blklen <= max
    && t.goodneeded <= 8192
    && (t.goodbytes == 0 || t.goodbytes < t.goodneeded)
  }

  /** The windows `b` announces, as they are read. */
  function Announced(b: Config): (nat, nat) { HydraInit.WindowsRead(b.options, b.txwindow, b.rxwindow) }

  /** The windows of `a` with a peer set up as `b`. */
  function TxWindow(a: Config, b: Config): nat { Window(Announced(b).1, a.txwindow) }

  function RxWindow(a: Config, b: Config): nat { Window(Announced(b).0, a.rxwindow) }

  /** What a peer's own state promises, next to the peer `q`. */
  predicate Own(p: Peer, q: Peer) {
    && (p.rx.state != RxInit ==>
        p.rxoptions == p.txoptions == Agreed(p.cfg, q.cfg))
    && (PastRInit(p.tx.state) ==> p.rx.state != RxInit && q.rx.state != RxInit)
    && (p.tx.state == TxRInit ==> q.rx.state != RxInit)
    && (p.tx.state == TxEnd || p.tx.state == TxEndAck ==> p.rx.state == RxDone)
    && (p.completed ==> p.rx.state == RxDone && q.rx.state == RxDone)
    && BlocksOk(p.tx, p.cfg.maxblklen)
    && Counted(p.tx, |p.cfg.files|)
    && (p.completed ==> p.tx.cur == |p.cfg.files| && p.tx.state == TxDone)
    && (p.rx.state == RxDone ==> q.tx.cur == |q.cfg.files|)
  }

  /** The results are those of the files behind us, and the batch ends behind the last. */
  predicate Counted(t: Tx, n: nat) {
    && |t.results| == t.cur <= n
    && (InFile(t.state) ==> t.cur < n)
    && (t.state == TxREnd || t.state == TxEnd || t.state == TxEndAck ==> t.cur == n)
  }

  predicate Windows(p: Peer, q: Peer) {
    p.tx.window == TxWindow(p.cfg, q.cfg) && p.rx.window == RxWindow(p.cfg, q.cfg)
  }

  /** What a packet from `p` to `q` promises. */
  predicate Sound(f: Flight, p: Peer, q: Peer) {
    && (!IsHex(f.pkt) ==> p.rx.state != RxInit && q.rx.state != RxInit && f.options == Agreed(p.cfg, q.cfg))
    && match f.pkt
       case Init(o, tw, rw) => o == p.cfg.options && tw == p.cfg.txwindow && rw == p.cfg.rxwindow
       case InitAck => p.rx.state != RxInit
       case Finfo(name, _) => name.None? ==> p.tx.cur == |p.cfg.files|
       case End => p.rx.state == RxDone
       case Rpos(pos, blklen, _, _) => pos < 0 || OnLadder(blklen)
       case Data(_, bytes, _) => |bytes| <= MAXBLKLEN
       case _ => true
  }

  ghost predicate AllSound(o: seq<Flight>, p: Peer, q: Peer) { forall f | f in o :: Sound(f, p, q) }

  ghost predicate Session(s: Link) {
    && Own(s.p, s.q) && Own(s.q, s.p) && AllSound(s.out, s.p, s.q) && AllSound(s.back, s.q, s.p)
    && (s.p.rx.state != RxInit ==> Windows(s.p, s.q))
    && (s.q.rx.state != RxInit ==> Windows(s.q, s.p))
  }

  // ----- one peer moves -------------------------------------------------------------

  /** The receiver's states are passed through in one order, and the windows stay
      once they are negotiated. */
  predicate Grows(p: Peer, t: Peer) {
    && t.cfg == p.cfg && p.tx.cur <= t.tx.cur
    && (p.rx.state != RxInit ==> t.rx.state != RxInit)
    && (p.rx.state == RxDone ==> t.rx.state == RxDone)
    && (p.rx.state != RxInit ==> t.tx.window == p.tx.window && t.rx.window == p.rx.window)
  }

  ghost predicate Moves(p: Peer, t: Peer, o: seq<Flight>, q: Peer) {
    Own(t, q) && Grows(p, t) && AllSound(o, t, q) && (p.rx.state == RxInit && t.rx.state != RxInit ==> Windows(t, q))
  }

  lemma MoveKeeps(s: Link, t: Peer, o: seq<Flight>)
    requires Session(s) && Moves(s.p, t, o, s.q)
    ensures Session(s.(p := t, out := s.out + o))
  {
    AgreedSymmetric(s.p.cfg, s.q.cfg);
    forall f | f in s.out + o ensures Sound(f, t, s.q) {
      if f in s.out {
        assert Sound(f, s.p, s.q);
      }
    }
    forall f | f in s.back ensures Sound(f, s.q, t) {
      assert Sound(f, s.q, s.p);
    }
  }

  lemma AgreedSymmetric(a: Config, b: Config)
    ensures Agreed(a, b) == Agreed(b, a)
  {
  }

  lemma ActKeeps(p: Peer, env: Env, q: Peer)
    requires Own(p, q)
    ensures Own(Act(p, env), q) && Grows(p, Act(p, env))
    ensures Act(p, env).rx == p.rx && Act(p, env).tx.window == p.tx.window
  {
    hide Agreed, Windows;
  }

  lemma NextFileKeeps(p: Peer, o: Outcome, q: Peer)
    requires Own(p, q) && p.rx.state != RxInit && q.rx.state != RxInit && HasFile(p) && !p.completed
    ensures Own(NextFile(p, o), q) && Grows(p, NextFile(p, o))
  {
    hide Agreed, Windows;
  }

  /** The transmitter moves on inside a file or the batch; nothing is sent. */
  predicate Within(a: Tx, b: Tx, max: nat, n: nat) {
    && b.window == a.window
    && (BlocksOk(a, max) ==> BlocksOk(b, max))
    && (PastRInit(b.state) ==> PastRInit(a.state))
    && (b.state == TxRInit ==> a.state == TxRInit)
    && (a.state == TxDone ==> b.state == TxDone)
    && (Counted(a, n) ==> Counted(b, n)) && b.cur == a.cur
    && (b.state == TxEnd || b.state == TxEndAck ==> a.state == TxEnd || a.state == TxEndAck)
  }

  lemma WithinMoves(p: Peer, tx: Tx, q: Peer)
    requires Own(p, q) && Within(p.tx, tx, p.cfg.maxblklen, |p.cfg.files|)
    ensures Moves(p, p.(tx := tx), [], q)
  {
    hide Agreed, Windows, BlocksOk;
  }

  // ----- packets ----------------------------------------------------------------------

  lemma InitKeeps(p: Peer, f: Flight, q: Peer)
    requires Own(p, q) && Sound(f, q, p) && f.pkt.Init?
    ensures var r := OnInit(p, f.pkt); r.outcome == None && Moves(p, r.peer, r.out, q)
  {
    hide Own, Moves, Sound, Value, Negotiated, Window, HydraInit.WindowsRead;
    if p.rx.state == RxInit {
      InitOpens(p, f, q);
    } else {
      InitAgain(p, q);
    }
  }

  lemma InitOpens(p: Peer, f: Flight, q: Peer)
    requires Own(p, q) && Sound(f, q, p) && f.pkt.Init? && p.rx.state == RxInit
    ensures var r := OnInit(p, f.pkt); r.outcome == None && Moves(p, r.peer, r.out, q)
  {
    hide Value, Negotiated, Window, HydraInit.WindowsRead;
  }

  lemma InitAgain(p: Peer, q: Peer)
    requires Own(p, q) && p.rx.state != RxInit
    ensures Moves(p, p, [Flight(InitAck, p.txoptions)], q)
  {
  }

  lemma StartKeeps(p: Peer, f: Flight, env: Env, q: Peer)
    requires Own(p, q) && Sound(f, q, p) && f.pkt.Start?
    ensures var r := Handle(p, f.pkt, env); r.outcome == None && Moves(p, r.peer, r.out, q)
  {
    hide Agreed, Windows, BlocksOk;
    BlocksSame(Handle(p, f.pkt, env).peer.tx, p.tx, p.cfg.maxblklen);
  }

  lemma InitAckKeeps(p: Peer, f: Flight, env: Env, q: Peer)
    requires Own(p, q) && Sound(f, q, p) && f.pkt.InitAck?
    ensures var r := Handle(p, f.pkt, env); r.outcome == None && Moves(p, r.peer, r.out, q)
  {
    assert Handle(p, f.pkt, env) == OnInitAck(p);
    hide Handle, Own, Moves, Sound;
    if p.tx.state == TxInit || p.tx.state == TxInitAck {
      InitAcked(p, f, q);
    } else {
      StaysSound(p, q);
    }
  }

  lemma InitAcked(p: Peer, f: Flight, q: Peer)
    requires Own(p, q) && Sound(f, q, p) && f.pkt.InitAck? && (p.tx.state == TxInit || p.tx.state == TxInitAck)
    ensures Moves(p, p.(tx := p.tx.(retries := 0, state := TxRInit)), [], q)
  {
    hide Agreed, Windows, BlocksOk;
    BlocksSame(p.tx.(retries := 0, state := TxRInit), p.tx, p.cfg.maxblklen);
  }

  lemma IdleKeeps(p: Peer, f: Flight, env: Env, q: Peer)
    requires Own(p, q) && f.pkt.Idle?
    ensures var r := Handle(p, f.pkt, env); r.outcome == None && Moves(p, r.peer, r.out, q)
  {
    assert Handle(p, f.pkt, env) == OnIdle(p);
    hide Handle, Own, Moves;
    if p.tx.state == TxXWait {
      GoesOn(p, q);
    } else {
      StaysSound(p, q);
    }
  }

  lemma GoesOn(p: Peer, q: Peer)
    requires Own(p, q) && p.tx.state == TxXWait
    ensures Moves(p, p.(hdxlink := false, tx := p.tx.(retries := 0, state := TxXData)), [], q)
  {
    hide Agreed, Windows, BlocksOk;
    BlocksSame(p.tx.(retries := 0, state := TxXData), p.tx, p.cfg.maxblklen);
  }

  lemma EndKeeps(p: Peer, f: Flight, env: Env, q: Peer)
    requires Own(p, q) && Sound(f, q, p) && f.pkt.End?
    ensures var r := Handle(p, f.pkt, env); r.outcome == None && Moves(p, r.peer, r.out, q)
  {
    assert Handle(p, f.pkt, env) == OnEnd(p);
    hide Handle, Own, Moves, Sound;
    if p.tx.state == TxEnd || p.tx.state == TxEndAck {
      BothEnd(p, f, q);
    } else {
      StaysSound(p, q);
    }
  }

  lemma StaysSound(p: Peer, q: Peer)
    requires Own(p, q)
    ensures Moves(p, p, [], q)
  {
  }

  lemma BothEnd(p: Peer, f: Flight, q: Peer)
    requires Own(p, q) && Sound(f, q, p) && f.pkt.End? && (p.tx.state == TxEnd || p.tx.state == TxEndAck)
    ensures var e := Flight(End, p.txoptions);
            Moves(p, p.(tx := p.tx.(state := TxDone), completed := true), [e, e, e], q)
  {
    hide Agreed, Windows, BlocksOk;
    BlocksSame(p.tx.(state := TxDone), p.tx, p.cfg.maxblklen);
  }

  lemma BadPositionKeeps(p: Peer, pos: int, k: nat, fallback: bool, env: Env, q: Peer)
    requires Own(p, q) && p.rx.state == RxData && q.rx.state != RxInit
    ensures var r := BadPosition(p, pos, k, fallback, env); r.outcome == None && Moves(p, r.peer, r.out, q)
  {
    hide Agreed, Windows;
  }

  lemma FinfoKeeps(p: Peer, f: Flight, env: Env, q: Peer)
    requires Own(p, q) && Sound(f, q, p) && f.pkt.Finfo?
    ensures var r := OnFinfo(p, f.pkt, env); r.outcome == None && Moves(p, r.peer, r.out, q)
  {
    hide Agreed, Windows;
  }

  lemma DataKeeps(p: Peer, f: Flight, env: Env, q: Peer)
    requires Own(p, q) && Sound(f, q, p) && f.pkt.Data?
    ensures var r := OnData(p, f.pkt, env); r.outcome == None && Moves(p, r.peer, r.out, q)
  {
    hide Agreed, Windows, BadPosition, BlocksOk;
    var p1 := p.(rx := p.rx.(seen := 2 * f.pkt.k + 1));
    assert Own(p1, q);
    if p.rx.state == RxData {
      BadPositionKeeps(p1, f.pkt.pos, f.pkt.k, true, env, q);
    }
  }

  lemma EofKeeps(p: Peer, f: Flight, env: Env, q: Peer)
    requires Own(p, q) && Sound(f, q, p) && f.pkt.Eof?
    ensures var r := OnEof(p, f.pkt, env); r.outcome == None && Moves(p, r.peer, r.out, q)
  {
    hide Agreed, Windows, BadPosition, BlocksOk;
    var p1 := p.(rx := p.rx.(seen := 2 * f.pkt.k + 1));
    assert Own(p1, q);
    if p.rx.state == RxData {
      BadPositionKeeps(p1, f.pkt.pos, f.pkt.k, false, env, q);
    }
  }

  lemma DataAckKeeps(p: Peer, f: Flight, env: Env, q: Peer)
    requires Own(p, q) && Sound(f, q, p) && f.pkt.DataAck?
    ensures var r := Handle(p, f.pkt, env); r.outcome == None && Moves(p, r.peer, r.out, q)
  {
    hide Agreed, Windows, BlocksOk;
    BlocksSame(OnDataAck(p, f.pkt).peer.tx, p.tx, p.cfg.maxblklen);
  }

  lemma DeviceKeeps(p: Peer, f: Flight, env: Env, q: Peer)
    requires Own(p, q) && Sound(f, q, p) && (f.pkt.Device? || f.pkt.DeviceAck?)
    ensures var r := Handle(p, f.pkt, env); r.outcome == None && Moves(p, r.peer, r.out, q)
  {
    hide Agreed, Windows, BlocksOk;
    var r := Handle(p, f.pkt, env);
    BlocksSame(r.peer.tx, p.tx, p.cfg.maxblklen);
  }

  /** A resync keeps the block length on the ladder and below the maximum. */
  lemma ShrunkBounds(t: Tx, asked: nat, max: nat)
    requires BlocksOk(t, max) && OnLadder(asked)
    ensures BlocksOk(Shrunk(t, asked), max) && Shrunk(t, asked).blklen <= t.blklen
  {
  }

  lemma Unwrapped(x: nat)
    requires x < 0x10000
    ensures Word(x) == x
  {
  }

  /** So does growing, and no counter wraps around on the way. */
  lemma GrownBounds(t: Tx, i: nat, max: nat)
    requires BlocksOk(t, max) && i <= MAXBLKLEN
    ensures BlocksOk(Grown(t, i, max), max) && t.blklen <= Grown(t, i, max).blklen
    ensures Word(t.goodbytes + i) == t.goodbytes + i && Word(t.blklen * 2) == t.blklen * 2
    ensures Word(t.goodneeded + 1024) == t.goodneeded + 1024
  {
    hide Word;
    Unwrapped(t.goodbytes + i);
    Unwrapped(t.blklen * 2);
    Unwrapped(t.goodneeded + 1024);
  }

  lemma RposKeeps(p: Peer, f: Flight, env: Env, q: Peer)
    requires Own(p, q) && Sound(f, q, p) && f.pkt.Rpos?
    ensures var r := OnRpos(p, f.pkt, env); r.outcome == None && Moves(p, r.peer, r.out, q)
  {
    RposAsked(p, f, q);
    hide Own, Moves, OnRpos, Within, Sound, OnLadder;
    RposInTx(p, f.pkt, env);
    RposWithin(p, f.pkt, env);
    WithinMoves(p, OnRpos(p, f.pkt, env).peer.tx, q);
  }

  lemma RposAsked(p: Peer, f: Flight, q: Peer)
    requires Sound(f, q, p) && f.pkt.Rpos?
    ensures f.pkt.pos < 0 || OnLadder(f.pkt.blklen)
  {
  }

  /** A resync changes the transmitter only, and nothing is sent. */
  lemma RposInTx(p: Peer, pkt: Packet, env: Env)
    requires pkt.Rpos?
    ensures var r := OnRpos(p, pkt, env); r == Reply(p.(tx := r.peer.tx), [], None)
  {
    hide Shrunk;
  }

  lemma RposWithin(p: Peer, pkt: Packet, env: Env)
    requires pkt.Rpos? && (pkt.pos < 0 || OnLadder(pkt.blklen))
    ensures Within(p.tx, OnRpos(p, pkt, env).peer.tx, p.cfg.maxblklen, |p.cfg.files|)
  {
    hide BlocksOk, Shrunk;
    var (t, t', max) := (p.tx.(syncid := pkt.syncid, retries := 1), OnRpos(p, pkt, env).peer.tx, p.cfg.maxblklen);
    var u := Shrunk(t, pkt.blklen);
    ShrunkWindow(t, pkt.blklen);
    assert SameBlocks(t', p.tx) || (pkt.pos >= 0 && SameBlocks(t', u));
    assert t'.cur == p.tx.cur && t'.results == p.tx.results;
    hide OnRpos;
    BlocksSame(t, p.tx, max);
    BlocksSame(t', p.tx, max);
    BlocksSame(t', u, max);
    if pkt.pos >= 0 && BlocksOk(t, max) {
      ShrunkBounds(t, pkt.blklen, max);
    }
    RposStates(p, pkt, env);
  }

  predicate SameBlocks(a: Tx, b: Tx) {
    a.blklen == b.blklen && a.goodbytes == b.goodbytes && a.goodneeded == b.goodneeded && a.window == b.window
  }

  lemma BlocksSame(a: Tx, b: Tx, max: nat)
    ensures SameBlocks(a, b) ==> BlocksOk(a, max) == BlocksOk(b, max)
  {
  }

  lemma RposStates(p: Peer, pkt: Packet, env: Env)
    requires pkt.Rpos?
    ensures var s := OnRpos(p, pkt, env).peer.tx.state;
            s == p.tx.state || s == TxDone || (InFile(p.tx.state) && InFile(s))
  {
    HydraTransfer.ShrunkKeeps(p.tx.(syncid := pkt.syncid, retries := 1), pkt.blklen);
    hide Shrunk;
  }

  lemma ShrunkWindow(t: Tx, asked: nat)
    ensures var u := Shrunk(t, asked); u.window == t.window && u.cur == t.cur && u.results == t.results
  {
  }

  lemma FinfoAckWithin(p: Peer, pkt: Packet, env: Env)
    requires pkt.FinfoAck? && Counted(p.tx, |p.cfg.files|)
    ensures var r := OnFinfoAck(p, pkt, env);
            && r.peer == p.(tx := r.peer.tx) && r.out == [] && Within(p.tx, r.peer.tx, p.cfg.maxblklen, |p.cfg.files|)
            && (r.outcome.Some? ==> PastRInit(p.tx.state) && p.tx.state != TxDone && HasFile(r.peer))
  {
    hide BlocksOk;
    BlocksSame(OnFinfoAck(p, pkt, env).peer.tx, p.tx, p.cfg.maxblklen);
  }

  lemma EofAckWithin(p: Peer)
    requires Counted(p.tx, |p.cfg.files|)
    ensures var r := OnEofAck(p);
            && r.peer == p && r.out == []
            && (r.outcome.Some? ==> PastRInit(p.tx.state) && p.tx.state != TxDone && HasFile(r.peer))
  {
  }

  lemma AckKeeps(p: Peer, f: Flight, env: Env, q: Peer)
    requires Own(p, q) && Sound(f, q, p) && (f.pkt.FinfoAck? || f.pkt.EofAck?)
    ensures var r := Handle(p, f.pkt, env);
            && Moves(p, r.peer, r.out, q)
            && (r.outcome.Some? ==>
                  p.rx.state != RxInit && q.rx.state != RxInit && HasFile(r.peer) && !r.peer.completed)
  {
    hide Agreed, BlocksOk, OnFinfoAck, OnEofAck, Within, Windows, Moves, Sound;
    if f.pkt.FinfoAck? {
      FinfoAckWithin(p, f.pkt, env);
    } else {
      EofAckWithin(p);
      SameWithin(p.tx, p.cfg.maxblklen, |p.cfg.files|);
    }
    WithinMoves(p, Handle(p, f.pkt, env).peer.tx, q);
  }

  lemma SameWithin(a: Tx, max: nat, n: nat)
    ensures Within(a, a, max, n)
  {
  }

  lemma HandleKeeps(p: Peer, f: Flight, env: Env, q: Peer)
    requires Own(p, q) && Sound(f, q, p)
    ensures var r := Handle(p, f.pkt, env);
            && Moves(p, r.peer, r.out, q)
            && (r.outcome.Some? ==>
                  p.rx.state != RxInit && q.rx.state != RxInit && HasFile(r.peer) && !r.peer.completed)
  {
    HydraTransfer.HandleIs(p, f.pkt, env);
    HydraTransfer.HandleFwd(p, f.pkt, env);
    HandleInit(p, f.pkt, env);
    hide Own, Sound, Moves, Handle, OnInit, OnFinfo, OnRpos, OnFinfoAck, OnData, OnEof;
    match f.pkt {
      case Init(_, _, _) => InitKeeps(p, f, q);
      case Start => StartKeeps(p, f, env, q);
      case InitAck => InitAckKeeps(p, f, env, q);
      case Idle => IdleKeeps(p, f, env, q);
      case End => EndKeeps(p, f, env, q);
      case Finfo(_, _) => FinfoKeeps(p, f, env, q);
      case Data(_, _, _) => DataKeeps(p, f, env, q);
      case Eof(_, _) => EofKeeps(p, f, env, q);
      case DataAck(_, _) => DataAckKeeps(p, f, env, q);
      case Device | DeviceAck => DeviceKeeps(p, f, env, q);
      case Rpos(_, _, _, _) => RposKeeps(p, f, env, q);
      case FinfoAck(_, _) => AckKeeps(p, f, env, q);
      case EofAck(_) => AckKeeps(p, f, env, q);
    }
  }

  lemma HandleInit(p: Peer, pkt: Packet, env: Env)
    ensures pkt.Init? ==> Handle(p, pkt, env) == OnInit(p, pkt)
  {
  }

  lemma SoundStays(o: seq<Flight>, p: Peer, t: Peer, q: Peer)
    requires AllSound(o, p, q) && Grows(p, t) && t.tx.cur <= |t.cfg.files|
    ensures AllSound(o, t, q)
  {
    forall f | f in o ensures Sound(f, t, q) {
      assert Sound(f, p, q);
    }
  }

  lemma OwnCounted(p: Peer, q: Peer)
    requires Own(p, q)
    ensures p.tx.cur <= |p.cfg.files|
  {
    hide Agreed, BlocksOk;
  }

  lemma ProcessKeeps(p: Peer, f: Flight, env: Env, q: Peer)
    requires Own(p, q) && Sound(f, q, p)
    ensures var (t, o) := Process(p, f.pkt, env); Moves(p, t, o, q)
  {
    hide Handle, Own, Sound, Act, NextFile, AllSound;
    HandleKeeps(p, f, env, q);
    var r := Handle(p, f.pkt, env);
    if r.outcome.Some? {
      NextFileKeeps(r.peer, r.outcome.value, q);
      OwnCounted(NextFile(r.peer, r.outcome.value), q);
      SoundStays(r.out, r.peer, NextFile(r.peer, r.outcome.value), q);
    } else {
      ActKeeps(r.peer, env, q);
      OwnCounted(Act(r.peer, env), q);
      SoundStays(r.out, r.peer, Act(r.peer, env), q);
    }
  }

  // ----- turns and timeouts --------------------------------------------------------------

  lemma DataTurn(p: Peer, env: Env, q: Peer)
    requires Own(p, q) && p.tx.state == TxXData && ReadOk(p, env)
    ensures var (t, o) := SendData(p, env); Moves(p, t, o, q)
  {
    hide Agreed, Windows;
    if p.tx.pos >= 0 && p.tx.open && HasFile(p) && env.read > 0 {
      var t := p.tx.(pos := p.tx.pos + env.read);
      GrownBounds(t, env.read, p.cfg.maxblklen);
      HydraTransfer.GrownKeeps(t, env.read, p.cfg.maxblklen);
    }
    hide Grown;
  }

  lemma TurnKeeps(p: Peer, env: Env, q: Peer)
    requires Own(p, q) && ReadOk(p, env)
    ensures var (t, o) := Turn(p, env); Moves(p, t, o, q)
  {
    hide Own, Moves, SendData, BlocksOk;
    if p.tx.state == TxXData {
      DataTurn(p, env, q);
    } else if p.tx.state == TxInit {
      InitTurn(p, q);
    } else {
      OtherTurn(p, env, q);
    }
  }

  lemma OtherTurn(p: Peer, env: Env, q: Peer)
    requires Own(p, q) && ReadOk(p, env) && p.tx.state != TxXData && p.tx.state != TxInit
    ensures var (t, o) := Turn(p, env); Moves(p, t, o, q)
  {
    hide Own, BlocksOk, SendData, Sound;
    var (t, o) := Turn(p, env);
    TurnWithin(p, env);
    hide Turn, Within;
    WithinMoves(p, t.tx, q);
    forall f | f in o ensures Sound(f, t, q) {
      TurnSound(p, env, q, f);
    }
  }

  lemma TurnWithin(p: Peer, env: Env)
    requires ReadOk(p, env) && p.tx.state != TxXData && p.tx.state != TxInit
    ensures var t := Turn(p, env).0; t == p.(tx := t.tx) && Within(p.tx, t.tx, p.cfg.maxblklen, |p.cfg.files|)
  {
    hide BlocksOk, SendData;
    BlocksSame(Turn(p, env).0.tx, p.tx, p.cfg.maxblklen);
  }

  lemma TurnSound(p: Peer, env: Env, q: Peer, f: Flight)
    requires Own(p, q) && ReadOk(p, env) && p.tx.state != TxXData && p.tx.state != TxInit
    requires f in Turn(p, env).1
    ensures Sound(f, Turn(p, env).0, q)
  {
    hide Agreed, Windows, BlocksOk;
  }

  lemma InitTurn(p: Peer, q: Peer)
    requires Own(p, q) && p.tx.state == TxInit
    ensures var t := p.(txoptions := p.rxoptions, tx := p.tx.(state := TxInitAck));
            Moves(p, t, [Flight(Init(p.cfg.options, p.cfg.txwindow, p.cfg.rxwindow), NONE)], q)
  {
    hide Agreed, Windows, BlocksOk;
    var t := p.(txoptions := p.rxoptions, tx := p.tx.(state := TxInitAck));
    BlocksSame(t.tx, p.tx, p.cfg.maxblklen);
    assert Sound(Flight(Init(p.cfg.options, p.cfg.txwindow, p.cfg.rxwindow), NONE), t, q);
  }

  lemma TimeoutKeeps(p: Peer, env: Env, q: Peer)
    requires Own(p, q) && p.tx.state != TxDone
    ensures var (t, o) := Timeout(p, env); Moves(p, t, o, q)
  {
    hide Act, Own, Moves, Within, Again;
    var t := p.tx.(retries := p.tx.retries + 1);
    var (again, done) := (t.(state := Again(t.state)), t.(state := TxDone));
    AgainWithin(p.tx, again, done, p.cfg.maxblklen, |p.cfg.files|);
    if p.tx.state == TxXWait || p.tx.state == TxREnd {
      IdleGoes(p, env, q);
    } else if t.retries > RETRIES {
      WithinMoves(p, done, q);
    } else {
      WithinMoves(p, again, q);
      ThenActs(p, p.(tx := again), env, q);
    }
  }

  lemma IdleGoes(p: Peer, env: Env, q: Peer)
    requires Own(p, q)
    ensures Moves(p, Act(p, env), [Flight(Idle, p.txoptions)], q)
  {
    hide Act, Own, Agreed, Windows, BlocksOk;
    ActKeeps(p, env, q);
  }

  lemma ThenActs(p: Peer, p1: Peer, env: Env, q: Peer)
    requires Moves(p, p1, [], q) && p1.rx == p.rx
    ensures Moves(p, Act(p1, env), [], q)
  {
    hide Act, Own, Agreed, BlocksOk;
    ActKeeps(p1, env, q);
  }

  lemma AgainWithin(a: Tx, b: Tx, c: Tx, max: nat, n: nat)
    requires b == a.(retries := b.retries, state := Again(a.state)) && c == a.(retries := c.retries, state := TxDone)
    ensures Within(a, b, max, n) && Within(a, c, max, n)
  {
    hide BlocksOk;
    BlocksSame(a, b, max);
    BlocksSame(a, c, max);
  }

  lemma DeviceMoves(p: Peer, q: Peer)
    requires Own(p, q)
    ensures var (t, o) := DeviceTurn(p); Moves(p, t, o, q)
    ensures Moves(p, DeviceSend(p), [], q) && Moves(p, Abort(p), [], q)
    ensures forall b :: Moves(p, DeviceTimeout(p, b), [], q)
  {
    hide Agreed, Windows;
  }

  lemma NextSession(s: Link, a: Action)
    requires Session(s) && Possible(s, a)
    ensures Session(Next(s, a))
  {
    hide Own, Process, Turn, Timeout, ReadOk, Moves, DeviceTurn, DeviceSend, DeviceTimeout, Abort;
    match a {
      case Receive(env) =>
        ProcessKeeps(s.p, s.back[0], env, s.q);
        var (t, o) := Process(s.p, s.back[0].pkt, env);
        MoveKeeps(s, t, o);
      case TurnToSend(env) =>
        TurnKeeps(s.p, env, s.q);
        MoveKeeps(s, Turn(s.p, env).0, Turn(s.p, env).1);
      case TimesOut(env) =>
        TimeoutKeeps(s.p, env, s.q);
        MoveKeeps(s, Timeout(s.p, env).0, Timeout(s.p, env).1);
      case Loses(i) =>
        forall f | f in Next(s, a).out ensures f in s.out {
        }
      case _ =>
        DeviceMoves(s.p, s.q);
        MoveKeeps(s, Next(s, a).p, if a.DeviceSends? then DeviceTurn(s.p).1 else []);
        assert s.out + [] == s.out;
    }
  }

  lemma OpeningSession(s: Link)
    requires Opening(s)
    ensures Session(s)
  {
  }

  lemma StepSession(s: Link, t: Link)
    requires Session(s) && Step(s, t)
    ensures Session(t)
  {
    hide Own, Sound, Next, Possible;
    if a :| Possible(s, a) && t == Next(s, a) {
      NextSession(s, a);
    } else {
      var a :| Possible(Swap(s), a) && t == Swap(Next(Swap(s), a));
      NextSession(Swap(s), a);
    }
  }

  lemma RunSession(s: Link, t: Link)
    requires Opening(s) && Reaches(Step, s, t)
    ensures Session(t)
  {
    hide Session, Step, Opening, Reaches;
    OpeningSession(s);
    forall a, b | Session(a) && Step(a, b) ensures Session(b) {
      StepSession(a, b);
    }
    Keeps(Step, Session, s, t);
  }

  // ----- the main results ---------------------------------------------------------------------

  /** What is under way from `p` to `q`, but for what is always hexadecimal, was
      encoded with the options `q` decodes with. */
  ghost predicate Understood(p: Peer, q: Peer, line: seq<Flight>) {
    forall f | f in line && !IsHex(f.pkt) :: f.options == p.txoptions == q.rxoptions
  }

  lemma NegotiationAgreement(s: Link, t: Link)
    requires Opening(s) && Reaches(Step, s, t)
    ensures Understood(t.p, t.q, t.out) && Understood(t.q, t.p, t.back)
  {
    RunSession(s, t);
    AgreedSymmetric(t.p.cfg, t.q.cfg);
    hide Reaches, Opening, Agreed, Windows;
    forall f | f in t.out && !IsHex(f.pkt) ensures f.options == t.p.txoptions == t.q.rxoptions {
      assert Sound(f, t.p, t.q);
    }
    forall f | f in t.back && !IsHex(f.pkt) ensures f.options == t.q.txoptions == t.p.rxoptions {
      assert Sound(f, t.q, t.p);
    }
  }

  /** How many options `a` asks for. */
  function Asked(a: Config): nat { |HydraInit.Names(a.options, 11)| }

  /** The second option `a` asks for is taken for a window that is not 0. */
  predicate LooksLikeWindow(a: Config)
    requires Asked(a) >= 2
  {
    var w := HydraInit.Names(a.options, 11)[1]; HydraInit.ScanHex(w[..HydraInit.Leading(w, 8)]) != 0
  }

  /** A sender with a window in front of a receiver without one. */
  predicate Unacknowledged(a: Config, b: Config) {
    a.txwindow != 0 && b.rxwindow == 0 && Asked(a) >= 2 && !LooksLikeWindow(a)
  }

  ghost predicate InUse(line: seq<Flight>) { exists f :: f in line && !IsHex(f.pkt) }

  /** A sender with a window faces a receiver that acknowledges, but for one kind of
      configuration, and there it never does. */
  lemma AckingReceiver(s: Link, t: Link)
    requires Opening(s) && Reaches(Step, s, t)
    ensures var (p, q) := (t.p, t.q);
            && (InUse(t.out) ==> ((p.tx.window != 0 ==> q.rx.window != 0) <==> !Unacknowledged(p.cfg, q.cfg)))
            && (InUse(t.back) ==> ((q.tx.window != 0 ==> p.rx.window != 0) <==> !Unacknowledged(q.cfg, p.cfg)))
  {
    RunSession(s, t);
    hide Reaches, Opening, Session, Unacknowledged;
    AcksNow(t);
    SessionSwapped(t);
    AcksNow(Swap(t));
  }

  lemma SessionSwapped(s: Link)
    requires Session(s)
    ensures Session(Swap(s))
  {
    hide Own, AllSound;
  }

  lemma WindowsFace(a: Config, b: Config)
    ensures (TxWindow(a, b) != 0 ==> RxWindow(b, a) != 0) <==> !Unacknowledged(a, b)
  {
    hide HydraInit.Names, HydraInit.ScanHex, HydraInit.Leading;
  }

  lemma AcksNow(s: Link)
    requires Session(s)
    ensures InUse(s.out) ==> ((s.p.tx.window != 0 ==> s.q.rx.window != 0) <==> !Unacknowledged(s.p.cfg, s.q.cfg))
  {
    hide Agreed, TxWindow, RxWindow, Unacknowledged, BlocksOk;
    WindowsFace(s.p.cfg, s.q.cfg);
    if InUse(s.out) {
      var f :| f in s.out && !IsHex(f.pkt);
      assert Sound(f, s.p, s.q);
    }
  }

  /** The windows of the two sides, whatever they are set to, are the same if and
      only if neither side asks for two options or more. */
  lemma WindowsAgree(a: Options, b: Options)
    ensures (forall p: Config, q: Config :: p.options == a && q.options == b ==>
               TxWindow(p, q) == RxWindow(q, p) && TxWindow(q, p) == RxWindow(p, q))
      <==> |HydraInit.Names(a, 11)| < 2 && |HydraInit.Names(b, 11)| < 2
  {
    hide HydraInit.Names, HydraInit.ScanHex, HydraInit.Leading;
    if |HydraInit.Names(a, 11)| >= 2 {
      WindowsDiffer(a, b);
    } else if |HydraInit.Names(b, 11)| >= 2 {
      WindowsDiffer(b, a);
    }
  }

  lemma WindowsDiffer(a: Options, b: Options)
    requires |HydraInit.Names(a, 11)| >= 2
    ensures exists p: Config, q: Config :: p.options == a && q.options == b && TxWindow(q, p) != RxWindow(p, q)
  {
    hide HydraInit.Names;
    var p := Config(a, 0, 1, true, MAXBLKLEN, [], []);
    var q := Config(b, 2, 0, true, MAXBLKLEN, [], []);
    assert TxWindow(q, p) == 2 && RxWindow(p, q) <= 1;
  }

  /** In a run: once the link is in use, each side sends with the window the other side
      receives with, if neither asks for two options. */
  lemma WindowsInUse(s: Link, t: Link)
    requires Opening(s) && Reaches(Step, s, t) && (InUse(t.out) || InUse(t.back))
    requires Asked(t.p.cfg) < 2 && Asked(t.q.cfg) < 2
    ensures t.p.tx.window == t.q.rx.window && t.q.tx.window == t.p.rx.window
  {
    RunSession(s, t);
    hide Reaches, Opening, Agreed, TxWindow, RxWindow, BlocksOk;
    if f :| f in t.out && !IsHex(f.pkt) {
      assert Sound(f, t.p, t.q);
    } else {
      var f :| f in t.back && !IsHex(f.pkt);
      assert Sound(f, t.q, t.p);
    }
    SameWindows(t.p.cfg, t.q.cfg);
    SameWindows(t.q.cfg, t.p.cfg);
  }

  lemma SameWindows(a: Config, b: Config)
    requires Asked(b) < 2 && Asked(a) < 2
    ensures TxWindow(a, b) == RxWindow(b, a)
  {
    hide HydraInit.Names;
  }

  /** A side that completes has seen the other's end of batch, the other has seen
      its end of batch, and both are through with all their files. */
  lemma SessionEnd(s: Link, t: Link)
    requires Opening(s) && Reaches(Step, s, t) && (t.p.completed || t.q.completed)
    ensures t.p.rx.state == RxDone && t.q.rx.state == RxDone
    ensures |t.p.tx.results| == |t.p.cfg.files| && |t.q.tx.results| == |t.q.cfg.files|
  {
    hide Reaches, Opening, Agreed, Windows, BlocksOk;
    RunSession(s, t);
  }

  /** Blocks keep between 64 and 2048 bytes, and no 16-bit counter wraps around. */
  lemma BlockBounds(s: Link, t: Link)
    requires Opening(s) && Reaches(Step, s, t)
    ensures Bounded(t.p, t.out) && Bounded(t.q, t.back)
  {
    RunSession(s, t);
    hide Reaches, Opening;
    BlocksNow(t);
    BlocksNow(Swap(t));
  }

  ghost predicate Bounded(p: Peer, line: seq<Flight>) {
    && 64 <= p.tx.blklen <= p.cfg.maxblklen <= MAXBLKLEN
    && p.tx.goodbytes + MAXBLKLEN < 0x10000 && p.tx.goodneeded + 1024 < 0x10000
    && (forall f | f in line && f.pkt.Data? :: |f.pkt.bytes| <= MAXBLKLEN)
  }

  lemma BlocksNow(s: Link)
    requires Session(s)
    ensures Bounded(s.p, s.out)
  {
    hide Agreed, Windows;
    forall f | f in s.out && f.pkt.Data? ensures |f.pkt.bytes| <= MAXBLKLEN {
      assert Sound(f, s.p, s.q);
    }
  }
}
