/** Every session over lines that lose nothing, and without any timeout, comes to its end,
    however the two sides and the lines take their turns: every step that changes anything
    brings the end nearer, and until both sides have completed there is one. */
module HydraProgress {
  import opened HydraCompletion
  import opened HydraLink
  import opened HydraOptions
  import opened HydraPeer
  import opened Maybe
  import opened Reachability
  import HydraInit
  import HydraSession
  import HydraTransfer

  // ----- what is on a line -----------------------------------------------------------------

  /** The packets on a line, by what they are for. */
  datatype Traffic = Traffic(starts: nat, inits: nat, acks: nat, fwd: seq<Packet>, replies: seq<Packet>, ends: nat,
                             others: nat)

  const NOTHING := Traffic(0, 0, 0, [], [], 0, 0)

  function Of(p: Packet): Traffic {
    match p
    case Start => NOTHING.(starts := 1)
    case Init(_, _, _) => NOTHING.(inits := 1)
    case InitAck => NOTHING.(acks := 1)
    case Finfo(_, _) => NOTHING.(fwd := [p])
    case Data(_, _, _) => NOTHING.(fwd := [p])
    case Eof(_, _) => NOTHING.(fwd := [p])
    case FinfoAck(_, _) => NOTHING.(replies := [p])
    case DataAck(_, _) => NOTHING.(replies := [p])
    case EofAck(_) => NOTHING.(replies := [p])
    case End => NOTHING.(ends := 1)
    case _ => NOTHING.(others := 1)
  }

  function Join(a: Traffic, b: Traffic): Traffic {
    Traffic(a.starts + b.starts, a.inits + b.inits, a.acks + b.acks, a.fwd + b.fwd, a.replies + b.replies,
            a.ends + b.ends, a.others + b.others)
  }

  function View(q: seq<Flight>): Traffic { if q == [] then NOTHING else Join(Of(q[0].pkt), View(q[1..])) }

  lemma JoinAssociates(a: Traffic, b: Traffic, c: Traffic)
    ensures Join(a, Join(b, c)) == Join(Join(a, b), c)
  {
  }

  lemma JoinNothing(a: Traffic)
    ensures Join(NOTHING, a) == a && Join(a, NOTHING) == a
  {
  }

  lemma {:induction false} ViewMore(a: seq<Flight>, b: seq<Flight>)
    ensures View(a + b) == Join(View(a), View(b))
  {
    hide Of, Join;
    if a == [] {
      assert a + b == b;
      JoinNothing(View(b));
    } else {
      assert (a + b)[1..] == a[1..] + b;
      ViewMore(a[1..], b);
      JoinAssociates(Of(a[0].pkt), View(a[1..]), View(b));
    }
  }

  lemma ViewOne(f: Flight)
    ensures View([f]) == Of(f.pkt)
  {
    assert [f][1..] == [];
  }

  /** What a line holds when its first packet is off. */
  lemma Peels(p: Packet, y: Traffic)
    ensures var z := Join(Of(p), y);
      && z.starts == y.starts + (if p.Start? then 1 else 0)
      && z.inits == y.inits + (if p.Init? then 1 else 0)
      && z.acks == y.acks + (if p.InitAck? then 1 else 0)
      && z.fwd == (if HydraTransfer.IsFwd(p) then [p] + y.fwd else y.fwd)
      && z.replies == (if Of(p).replies != [] then [p] + y.replies else y.replies)
      && z.ends == y.ends + (if p.End? then 1 else 0)
      && z.others >= y.others
  {
  }

  /** And when packets are put on it. */
  lemma Gains(x: Traffic, p: Packet, options: Options)
    ensures var z := Join(x, View([Flight(p, options)]));
      && z.starts == x.starts + (if p.Start? then 1 else 0)
      && z.inits == x.inits + (if p.Init? then 1 else 0)
      && z.acks == x.acks + (if p.InitAck? then 1 else 0)
      && z.fwd == (if HydraTransfer.IsFwd(p) then x.fwd + [p] else x.fwd)
      && z.replies == (if Of(p).replies != [] then x.replies + [p] else x.replies)
      && z.ends == x.ends + (if p.End? then 1 else 0)
      && z.others == x.others + Of(p).others
  {
    ViewOne(Flight(p, options));
    hide View;
    assert x.fwd + [] == x.fwd && x.replies + [] == x.replies;
  }

  /** Behind an END there are only ENDs, and no INITACK behind a packet of a batch. */
  predicate Ordered(q: seq<Flight>) {
    forall i, j | 0 <= i < j < |q| ::
      && (q[i].pkt.End? ==> q[j].pkt.End?)
      && (HydraTransfer.IsFwd(q[i].pkt) ==> !q[j].pkt.InitAck?)
  }

  lemma {:induction false} OnlyEnds(q: seq<Flight>)
    requires forall i | 0 <= i < |q| :: q[i].pkt.End?
    ensures View(q) == NOTHING.(ends := |q|)
  {
    if q != [] {
      OnlyEnds(q[1..]);
    }
  }

  lemma {:induction false} NoAcks(q: seq<Flight>)
    requires forall i | 0 <= i < |q| :: !q[i].pkt.InitAck?
    ensures View(q).acks == 0
  {
    if q != [] {
      NoAcks(q[1..]);
    }
  }

  lemma {:induction false} HasNone(q: seq<Flight>)
    ensures View(q).ends == 0 ==> forall i | 0 <= i < |q| :: !q[i].pkt.End?
    ensures View(q).fwd == [] ==> forall i | 0 <= i < |q| :: !HydraTransfer.IsFwd(q[i].pkt)
  {
    if q != [] {
      HasNone(q[1..]);
      assert forall i | 0 < i < |q| :: q[i] == q[1..][i - 1];
    }
  }

  /** What follows the first packet of a line. */
  predicate Follows(p: Packet, y: Traffic) {
    && (p.End? ==> y == NOTHING.(ends := y.ends))
    && (HydraTransfer.IsFwd(p) ==> y.acks == 0)
  }

  lemma OrderedRest(q: seq<Flight>)
    requires Ordered(q) && q != []
    ensures Ordered(q[1..]) && Follows(q[0].pkt, View(q[1..]))
  {
    if q[0].pkt.End? {
      OnlyEnds(q[1..]);
    }
    if HydraTransfer.IsFwd(q[0].pkt) {
      NoAcks(q[1..]);
    }
  }

  /** What may be put behind a line. */
  predicate MayFollow(x: Traffic, o: seq<Flight>) {
    && (x.ends > 0 ==> forall i | 0 <= i < |o| :: o[i].pkt.End?)
    && (x.fwd != [] ==> forall i | 0 <= i < |o| :: !o[i].pkt.InitAck?)
  }

  lemma OrderedMore(q: seq<Flight>, o: seq<Flight>)
    requires Ordered(q) && Ordered(o) && MayFollow(View(q), o)
    ensures Ordered(q + o)
  {
    HasNone(q);
    hide View;
    var r := q + o;
    forall i, j | 0 <= i < j < |r|
      ensures r[i].pkt.End? ==> r[j].pkt.End?
      ensures HydraTransfer.IsFwd(r[i].pkt) ==> !r[j].pkt.InitAck?
    {
    }
  }

  // ----- the invariant ----------------------------------------------------------------------

  predicate IsCall(t: TxState) { t == TxStart || t == TxSWait || t == TxInit || t == TxInitAck || t == TxRInit }

  /** Where a side can be when nothing has gone wrong. */
  predicate Quiet(p: Peer) {
    && !p.hdxlink && p.dev == DevDone
    && match p.tx.state
       case TxStart | TxSWait | TxRInit => p.rx.state == RxInit
       case TxInit | TxInitAck => p.rx.state == RxInit || p.rx.state == RxFinfo
       case TxREnd => p.rx.state != RxInit && p.rx.state != RxDone
       case TxEnd | TxEndAck => p.rx.state == RxDone
       case TxDone => p.completed && p.rx.state == RxDone
       case TxXWait | TxEof => false
       case _ => p.rx.state != RxInit
  }

  /** `p` calls: `x` is on the line from it, `y` on the line to it. */
  predicate Calling(p: Peer, q: Peer, x: Traffic, y: Traffic) {
    && x.inits + y.acks == (if p.tx.state == TxInitAck then 1 else 0)
    && (x.inits > 0 || p.tx.state == TxStart || p.tx.state == TxSWait || p.tx.state == TxInit ==> q.rx.state == RxInit)
    && (p.tx.state == TxSWait ==> x.starts > 0 || (q.tx.state != TxStart && q.tx.state != TxSWait))
    && (!IsCall(p.tx.state) || p.tx.state == TxRInit || y.acks > 0 ==> q.rx.state != RxInit)
  }

  /** `p` leaves. */
  predicate Leaving(p: Peer, q: Peer, x: Traffic) {
    var gone := p.tx.state == TxEndAck || p.tx.state == TxDone;
    (x.ends > 0 ==> gone) && (gone ==> x.ends > 0 || q.tx.state == TxDone)
  }

  /** Where the data under way ends that begins at `a`. */
  function Chain(fwd: seq<Packet>, a: int): Option<int> {
    if fwd == [] then Some(a)
    else if fwd[0].Data? && fwd[0].pos == a && fwd[0].bytes != [] then Chain(fwd[1..], a + |fwd[0].bytes|)
    else None
  }

  /** The last position acknowledged behind `a`. */
  function LastAck(replies: seq<Packet>, a: int): Option<int> {
    if replies == [] then Some(a)
    else if replies[0].DataAck? && replies[0].pos > a then LastAck(replies[1..], replies[0].pos)
    else None
  }

  predicate AreAcks(replies: seq<Packet>) { forall i | 0 <= i < |replies| :: replies[i].DataAck? }

  function Drop(s: seq<Packet>): seq<Packet>
    requires s != []
  {
    s[..|s| - 1]
  }

  function Tip(s: seq<Packet>): Packet
    requires s != []
  {
    s[|s| - 1]
  }

  /** The offer, or its answer, is under way. */
  predicate Offered(p: Peer, q: Peer, fwd: seq<Packet>, replies: seq<Packet>) {
    if fwd != [] then
      && q.rx.state == RxFinfo && replies == []
      && |fwd| == 1 && fwd[0].Finfo? && fwd[0].name.Some? == HasFile(p) && fwd[0].k == p.tx.cur
    else
      && |replies| == 1 && replies[0].FinfoAck?
      && if !HasFile(p) then q.rx.state == RxDone
         else
           && p.tx.cur < |q.cfg.disk|
           && match q.cfg.disk[p.tx.cur]
              case Already => replies[0].pos == -1 && q.rx.state == RxFinfo
              case Refuse => replies[0].pos == -2 && q.rx.state == RxFinfo
              case Accept(_) => replies[0].pos == q.rx.pos >= 0 && q.rx.state == RxData
  }

  predicate InAccepted(p: Peer, q: Peer) {
    HasFile(p) && p.tx.cur < |q.cfg.disk| && p.tx.open && q.cfg.disk[p.tx.cur].Accept? && p.tx.pos >= 0
  }

  predicate Streaming(p: Peer, q: Peer, fwd: seq<Packet>, replies: seq<Packet>) {
    && InAccepted(p, q) && q.rx.state == RxData && q.rx.pos >= 0
    && Chain(fwd, q.rx.pos) == Some(p.tx.pos) && AreAcks(replies)
    && (p.tx.window != 0 ==> q.rx.window != 0 && LastAck(replies, p.tx.lastack) == Some(q.rx.pos))
    && (p.tx.state == TxDataAck ==> p.tx.window != 0 && p.tx.pos >= p.tx.lastack + p.tx.window)
  }

  predicate Closing(p: Peer, q: Peer, fwd: seq<Packet>, replies: seq<Packet>) {
    && InAccepted(p, q)
    && if fwd != [] then
         && q.rx.state == RxData && q.rx.pos >= 0 && AreAcks(replies)
         && Tip(fwd).Eof? && Tip(fwd).pos == p.tx.pos && Chain(Drop(fwd), q.rx.pos) == Some(p.tx.pos)
       else
         q.rx.state == RxFinfo && replies != [] && Tip(replies).EofAck? && AreAcks(Drop(replies))
  }

  /** The batch of `p`: `fwd` is on its way to `q`, `replies` are on their way back. */
  predicate Batch(p: Peer, q: Peer, fwd: seq<Packet>, replies: seq<Packet>) {
    && |p.tx.results| == p.tx.cur <= |p.cfg.files| == |q.cfg.disk|
    && AllReported(q.cfg.disk, p.tx.results) && p.tx.open == HasFile(p)
    && match p.tx.state
       case TxStart | TxSWait | TxInit | TxInitAck | TxRInit =>
         && fwd == [] && replies == [] && p.tx.offers == 0 && p.tx.cur == 0
         && (q.rx.state == RxInit || q.rx.state == RxFinfo)
       case TxFinfo => fwd == [] && replies == [] && p.tx.offers == 0 && q.rx.state == RxFinfo
       case TxFinfoAck => Offered(p, q, fwd, replies)
       case TxXData | TxDataAck => Streaming(p, q, fwd, replies)
       case TxEofAck => Closing(p, q, fwd, replies)
       case TxXWait | TxEof => false
       case _ => fwd == [] && replies == [] && q.rx.state == RxDone && !HasFile(p)
  }

  predicate Half(p: Peer, q: Peer, x: Traffic, y: Traffic) {
    && Quiet(p) && x.others == 0
    && Calling(p, q, x, y)
    && Batch(p, q, x.fwd, y.replies)
    && Leaving(p, q, x)
  }

  /** Both halves of a link. */
  predicate Halves(p: Peer, q: Peer, x: Traffic, y: Traffic) { Half(p, q, x, y) && Half(q, p, y, x) }

  /** What is settled before the session: the options are of the kind hydra_init asks for,
      and no sender with a window is left in front of a receiver without one. */
  ghost predicate Set(p: Peer, q: Peer) {
    (exists want :: p.cfg.options == Wanted(want)) && !HydraSession.Unacknowledged(p.cfg, q.cfg)
  }

  ghost predicate Good(s: Link) {
    && HydraSession.Session(s) && HydraTransfer.PatientSafe(s) && HydraTransfer.PatientSafe(Swap(s))
    && Set(s.p, s.q) && Set(s.q, s.p)
    && Halves(s.p, s.q, View(s.out), View(s.back)) && Ordered(s.out) && Ordered(s.back)
  }

  // ----- the measure ------------------------------------------------------------------------

  /** A bound for all that is still to be done about the files from `k` on. */
  function Bulk(files: seq<File>, k: nat): nat
    decreases |files| - k
  {
    if k >= |files| then 0 else 3 * |files[k].data| + 8 + Bulk(files, k + 1)
  }

  function Left(p: Peer): nat {
    if HasFile(p) && 0 <= p.tx.pos < |p.cfg.files[p.tx.cur].data| then |p.cfg.files[p.tx.cur].data| - p.tx.pos else 0
  }

  function ToDo(p: Peer): nat {
    var (now, then') := (Bulk(p.cfg.files, p.tx.cur), Bulk(p.cfg.files, p.tx.cur + 1));
    match p.tx.state
    case TxStart => now + 16
    case TxSWait => now + 14
    case TxInit => now + 13
    case TxInitAck => now + 10
    case TxRInit => now + 9
    case TxFinfo => now + 8
    case TxFinfoAck => now + 5
    case TxXData | TxDataAck | TxXWait => then' + 3 * Left(p) + 12
    case TxEof | TxEofAck => then' + 9
    case TxREnd => 3
    case TxEnd => 2
    case TxEndAck => 1
    case TxDone => 0
  }

  function Load(x: Traffic): nat { x.starts + 2 * x.inits + x.acks + 2 * |x.fwd| + |x.replies| }

  function Measure(p: Peer, q: Peer, x: Traffic, y: Traffic): nat { ToDo(p) + ToDo(q) + Load(x) + Load(y) }

  /** `p` becomes `t` and puts `o` on its line; `y` is what is left on the other one. */
  predicate Onwards(p: Peer, q: Peer, x: Traffic, y: Traffic, t: Peer, o: seq<Flight>, y': Traffic) {
    && Halves(t, q, Join(x, View(o)), y') && Measure(t, q, Join(x, View(o)), y') < Measure(p, q, x, y)
    && Ordered(o) && MayFollow(x, o)
  }

  // ----- what leaves a batch alone -----------------------------------------------------------

  predicate IsLast(t: TxState) { t == TxREnd || t == TxEnd || t == TxEndAck || t == TxDone }

  predicate SameTx(p: Peer, t: Peer) {
    && t.cfg == p.cfg && t.tx.results == p.tx.results && t.tx.cur == p.tx.cur && t.tx.open == p.tx.open
    && t.tx.offers == p.tx.offers && t.tx.pos == p.tx.pos && t.tx.lastack == p.tx.lastack
    && (t.tx.window == p.tx.window || IsCall(p.tx.state))
    && (|| t.tx.state == p.tx.state || (IsCall(t.tx.state) && IsCall(p.tx.state))
        || (IsLast(t.tx.state) && IsLast(p.tx.state)))
  }

  predicate SameRx(q: Peer, u: Peer) {
    && u.cfg == q.cfg && u.rx.pos == q.rx.pos
    && (|| (u.rx.state == q.rx.state && u.rx.window == q.rx.window)
        || (q.rx.state == RxInit && u.rx.state == RxFinfo))
  }

  lemma BatchKept(p: Peer, q: Peer, t: Peer, u: Peer, fwd: seq<Packet>, replies: seq<Packet>)
    requires Batch(p, q, fwd, replies) && SameTx(p, t) && SameRx(q, u)
    requires q.rx.state != RxInit || IsCall(p.tx.state)
    ensures Batch(t, u, fwd, replies)
  {
    hide AllReported, Chain, LastAck;
  }

  // ----- calling -----------------------------------------------------------------------------

  lemma ActsNot(p: Peer, env: Env)
    requires Quiet(p)
    ensures Act(p, env) == p
  {
  }

  lemma HearsStart(p: Peer, q: Peer, x: Traffic, y: Traffic, env: Env)
    requires Halves(p, q, x, Join(Of(Start), y)) && p.tx.state != TxDone
    ensures var (t, o) := Process(p, Start, env); Onwards(p, q, x, Join(Of(Start), y), t, o, y)
  {
    hide Batch;
    var t := if p.tx.state == TxStart || p.tx.state == TxSWait then p.(tx := p.tx.(retries := 0, state := TxInit))
        else p;
    ActsNot(t, env);
    assert Process(p, Start, env) == (t, []);
    hide Process;
    StartTaken(p, q, x, y, t);
  }

  lemma StartTaken(p: Peer, q: Peer, x: Traffic, y: Traffic, t: Peer)
    requires Halves(p, q, x, Join(Of(Start), y)) && p.tx.state != TxDone
    requires t == if p.tx.state == TxStart || p.tx.state == TxSWait then p.(tx := p.tx.(retries := 0, state := TxInit))
             else p
    ensures Onwards(p, q, x, Join(Of(Start), y), t, [], y)
  {
    hide Batch, Join, Bulk, Left;
    JoinNothing(x);
    Peels(Start, y);
    BatchKept(p, q, t, q, x.fwd, y.replies);
    BatchKept(q, p, q, t, y.fwd, x.replies);
  }

  /** The INIT of the other side: the link is negotiated. */
  lemma HearsHello(p: Peer, q: Peer, x: Traffic, y: Traffic, env: Env)
    requires Halves(p, q, x, Join(Of(Hello(q.cfg)), y)) && p.tx.state != TxDone
    requires exists want :: p.cfg.options == Wanted(want)
    ensures var (t, o) := Process(p, Hello(q.cfg), env); Onwards(p, q, x, Join(Of(Hello(q.cfg)), y), t, o, y)
  {
    hide Batch, Join, View;
    Peels(Hello(q.cfg), y);
    assert p.rx.state == RxInit;
    var o := HydraSession.Agreed(p.cfg, q.cfg);
    var state := AfterHello(p.tx.state);
    var t := p.(rxoptions := o, txoptions := o,
                rx := p.rx.(state := RxFinfo, window := HydraSession.RxWindow(p.cfg, q.cfg)),
                tx := p.tx.(state := state, retries := if state == p.tx.state then p.tx.retries else 0,
                            window := HydraSession.TxWindow(p.cfg, q.cfg)));
    Negotiates(p, q.cfg, env);
    assert Process(p, Hello(q.cfg), env) == (t, [Flight(InitAck, o)]);
    hide Process;
    HelloTaken(p, q, x, y, t, o);
  }

  function AfterHello(t: TxState): TxState {
    match t
    case TxStart | TxSWait => TxInit
    case TxRInit => TxFinfo
    case _ => t
  }

  lemma Negotiates(p: Peer, b: Config, env: Env)
    requires (exists want :: p.cfg.options == Wanted(want)) && p.rx.state == RxInit && Quiet(p)
    ensures var o := HydraSession.Agreed(p.cfg, b);
            var state := AfterHello(p.tx.state);
            Process(p, Hello(b), env) ==
            (p.(rxoptions := o, txoptions := o,
                rx := p.rx.(state := RxFinfo, window := HydraSession.RxWindow(p.cfg, b)),
                tx := p.tx.(state := state, retries := if state == p.tx.state then p.tx.retries else 0,
                            window := HydraSession.TxWindow(p.cfg, b))),
             [Flight(InitAck, o)])
  {
    hide Value, Negotiated, Wanted, And, HydraInit.WindowsRead, Window;
    var want :| p.cfg.options == Wanted(want);
    Compatible(want, b.options);
  }

  lemma HelloTaken(p: Peer, q: Peer, x: Traffic, y: Traffic, t: Peer, options: Options)
    requires Halves(p, q, x, Join(Of(Hello(q.cfg)), y)) && p.rx.state == RxInit
    requires t == p.(rxoptions := t.rxoptions, txoptions := t.txoptions,
             rx := p.rx.(state := RxFinfo, window := t.rx.window),
                     tx := p.tx.(state := AfterHello(p.tx.state), retries := t.tx.retries, window := t.tx.window))
    ensures Onwards(p, q, x, Join(Of(Hello(q.cfg)), y), t, [Flight(InitAck, options)], y)
  {
    hide Batch, Join, Bulk, Left, View;
    Peels(Hello(q.cfg), y);
    Gains(x, InitAck, options);
    BatchKept(q, p, q, t, y.fwd, x.replies);
    NotBegun(p, q, x.fwd, y.replies);
    if p.tx.state == TxRInit {
      BatchBegins(p, q, t, x.fwd, y.replies);
    } else {
      BatchKept(p, q, t, q, x.fwd, y.replies);
    }
  }

  lemma NotBegun(p: Peer, q: Peer, fwd: seq<Packet>, replies: seq<Packet>)
    requires Batch(p, q, fwd, replies) && IsCall(p.tx.state)
    ensures fwd == [] && replies == [] && q.rx.state != RxData && q.rx.state != RxDone
  {
  }

  lemma BatchBegins(p: Peer, q: Peer, t: Peer, fwd: seq<Packet>, replies: seq<Packet>)
    requires Batch(p, q, fwd, replies) && IsCall(p.tx.state) && q.rx.state != RxInit
    requires t.cfg == p.cfg && t.tx == p.tx.(state := TxFinfo, retries := t.tx.retries, window := t.tx.window)
    ensures Batch(t, q, fwd, replies)
  {
  }

  /** INITACK comes when it is waited for. */
  lemma HearsInitAck(p: Peer, q: Peer, x: Traffic, y: Traffic, env: Env)
    requires Halves(p, q, x, Join(Of(InitAck), y))
    ensures var (t, o) := Process(p, InitAck, env); Onwards(p, q, x, Join(Of(InitAck), y), t, o, y)
  {
    hide Batch, Join, View;
    Peels(InitAck, y);
    var t := p.(tx := p.tx.(retries := 0, state := if p.rx.state == RxFinfo then TxFinfo else TxRInit));
    assert Process(p, InitAck, env) == (t, []);
    hide Process;
    InitAckTaken(p, q, x, y, t);
  }

  lemma InitAckTaken(p: Peer, q: Peer, x: Traffic, y: Traffic, t: Peer)
    requires Halves(p, q, x, Join(Of(InitAck), y))
    requires t == p.(tx := p.tx.(retries := 0, state := if p.rx.state == RxFinfo then TxFinfo else TxRInit))
    ensures Onwards(p, q, x, Join(Of(InitAck), y), t, [], y)
  {
    hide Batch, Join, Bulk, Left;
    Peels(InitAck, y);
    JoinNothing(x);
    BatchKept(q, p, q, t, y.fwd, x.replies);
    if t.tx.state == TxFinfo {
      BatchBegins(p, q, t, x.fwd, y.replies);
    } else {
      BatchKept(p, q, t, q, x.fwd, y.replies);
    }
  }

  // ----- leaving ------------------------------------------------------------------------------

  /** Behind ENDs nothing is left to be said but END. */
  lemma HearsLast(p: Peer, q: Peer, x: Traffic, y: Traffic, env: Env)
    requires Halves(p, q, x, Join(Of(End), y)) && Follows(End, y) && p.tx.state != TxDone
    ensures var (t, o) := Process(p, End, env); Onwards(p, q, x, Join(Of(End), y), t, o, y)
  {
    hide Batch, Join, View, Onwards, OnData, OnFinfo, OnEof, OnRpos, OnInit, OnFinfoAck, NextFile;
    Peels(End, y);
    Nearly(p, q, x.fwd, y.replies);
    NearlyToo(q, p, y.fwd, x.replies);
    var t := p.(tx := p.tx.(state := TxDone), completed := true);
    var f := Flight(End, p.txoptions);
    assert Process(p, End, env) == (t, [f, f, f]);
    hide Process;
    LeavesToo(p, q, x, y, t, f);
  }

  lemma Nearly(p: Peer, q: Peer, fwd: seq<Packet>, replies: seq<Packet>)
    requires Batch(p, q, fwd, replies) && replies == [] && q.rx.state == RxDone
    ensures IsLast(p.tx.state)
  {
  }

  lemma NearlyToo(q: Peer, p: Peer, fwd: seq<Packet>, replies: seq<Packet>)
    requires Batch(q, p, fwd, replies) && (q.tx.state == TxEndAck || q.tx.state == TxDone)
    ensures p.rx.state == RxDone && replies == []
  {
  }

  lemma LeavesToo(p: Peer, q: Peer, x: Traffic, y: Traffic, t: Peer, f: Flight)
    requires Halves(p, q, x, Join(Of(End), y)) && (p.tx.state == TxEnd || p.tx.state == TxEndAck) && f.pkt == End
    requires y == NOTHING.(ends := y.ends) && x.replies == []
    requires t == p.(tx := p.tx.(state := TxDone), completed := true)
    ensures Onwards(p, q, x, Join(Of(End), y), t, [f, f, f], y)
  {
    hide Batch, Join, Calling, Leaving, ToDo;
    Peels(End, y);
    MoreEnds(x, [f, f, f]);
    Departs(p, q, x, Join(Of(End), y), t, x.(ends := x.ends + 3), y);
  }

  /** `p` says END, and its batch and the other one are where they were. */
  lemma Departs(p: Peer, q: Peer, x: Traffic, y: Traffic, t: Peer, x': Traffic, y': Traffic)
    requires Halves(p, q, x, y) && (p.tx.state == TxEnd || p.tx.state == TxEndAck)
    requires t == p.(tx := p.tx.(state := t.tx.state), completed := t.completed)
    requires if p.tx.state == TxEnd then t.tx.state == TxEndAck || t.tx.state == TxDone else t.tx.state == TxDone
    requires x' == x.(ends := x'.ends) && x'.ends > 0 && y' == y.(ends := y'.ends)
    requires y'.ends == y.ends || (t.tx.state == TxDone && y'.ends < y.ends)
    ensures Calling(t, q, x', y') && Calling(q, t, y', x') && Leaving(t, q, x') && Leaving(q, t, y')
    ensures Batch(t, q, x.fwd, y.replies) && Batch(q, t, y.fwd, x.replies) && ToDo(t) < ToDo(p)
  {
    hide Batch, Calling, Leaving, Quiet;
    CallsKept(p, q, x, y, t, x', y');
    LeavingKept(p, q, x, y, t, x', y');
    BatchKept(p, q, t, q, x.fwd, y.replies);
    hide ToDo;
    Past(p);
    BatchKept(q, p, q, t, y.fwd, x.replies);
  }

  lemma CallsKept(p: Peer, q: Peer, x: Traffic, y: Traffic, t: Peer, x': Traffic, y': Traffic)
    requires Calling(p, q, x, y) && Calling(q, p, y, x) && !IsCall(p.tx.state) && !IsCall(t.tx.state)
    requires t.rx.state == p.rx.state || (p.rx.state != RxInit && t.rx.state != RxInit)
    requires x'.starts == x.starts && x'.inits == x.inits && x'.acks == x.acks
    requires y'.starts == y.starts && y'.inits == y.inits && y'.acks == y.acks
    ensures Calling(t, q, x', y') && Calling(q, t, y', x')
  {
  }

  lemma LeavingKept(p: Peer, q: Peer, x: Traffic, y: Traffic, t: Peer, x': Traffic, y': Traffic)
    requires Leaving(p, q, x) && Leaving(q, p, y) && (t.tx.state == TxEndAck || t.tx.state == TxDone)
    requires x'.ends > 0 && (y'.ends == y.ends || (t.tx.state == TxDone && y'.ends < y.ends))
    requires p.tx.state != TxDone
    ensures Leaving(t, q, x') && Leaving(q, t, y')
  {
  }

  lemma Past(p: Peer)
    requires Quiet(p) && !IsCall(p.tx.state)
    ensures p.rx.state != RxInit
  {
  }

  lemma JoinEnds(x: Traffic, n: nat)
    ensures Join(x, NOTHING.(ends := n)) == x.(ends := x.ends + n)
  {
    assert x.fwd + [] == x.fwd && x.replies + [] == x.replies;
  }

  lemma MoreEnds(x: Traffic, o: seq<Flight>)
    requires forall i | 0 <= i < |o| :: o[i].pkt == End
    ensures Join(x, View(o)) == x.(ends := x.ends + |o|) && Ordered(o) && MayFollow(x, o)
  {
    OnlyEnds(o);
    JoinEnds(x, |o|);
    hide View, Join;
  }

  // ----- receiving a batch -------------------------------------------------------------------

  /** A packet of a batch comes when both sides have the link. */
  lemma PastCalls(p: Peer, q: Peer, x: Traffic, y: Traffic, pkt: Packet)
    requires Halves(p, q, x, Join(Of(pkt), y)) && Follows(pkt, y) && HydraTransfer.IsFwd(pkt)
    ensures !IsCall(p.tx.state) && !IsCall(q.tx.state) && p.rx.state != RxInit && q.rx.state != RxInit
    ensures Batch(q, p, [pkt] + y.fwd, x.replies)
  {
    hide Join, Batch;
    Peels(pkt, y);
    if IsCall(q.tx.state) {
      NotBegun(q, p, [pkt] + y.fwd, x.replies);
    }
  }

  /** A receiver that takes a packet stays where it is in its own batch, or is at its end. */
  predicate Takes(p: Peer, t: Peer) {
    && t == p.(rx := t.rx, tx := t.tx) && t.rx.window == p.rx.window
    && if t.rx.state == RxDone && p.tx.state == TxREnd then t.tx == p.tx.(retries := 0, state := TxEnd)
       else t.tx == p.tx && t.rx.state != RxInit
  }

  /** What it does to its own batch and how it leaves is not touched. */
  lemma TakesQuietly(p: Peer, q: Peer, x: Traffic, y: Traffic, pkt: Packet, t: Peer)
    requires Halves(p, q, x, Join(Of(pkt), y)) && HydraTransfer.IsFwd(pkt) && !IsCall(p.tx.state) && !IsCall(q.tx.state)
    requires Takes(p, t) && p.rx.state != RxInit && p.rx.state != RxDone
    ensures Quiet(t) && Leaving(t, q, x) && Leaving(q, t, y) && x.ends == 0
    ensures Calling(t, q, x, y) && Calling(q, t, y, x)
    ensures Batch(t, q, x.fwd, y.replies) && ToDo(t) <= ToDo(p) && y.others == 0
  {
    hide Batch, Join, Calling, Leaving, Quiet, ToDo;
    var z := Join(Of(pkt), y);
    Peels(pkt, y);
    StaysQuiet(p, t);
    CallsKept(p, q, x, z, t, x, y);
    NotLeaving(p, q, x, z, t, y);
    BatchKept(p, q, t, q, x.fwd, y.replies);
  }

  lemma StaysQuiet(p: Peer, t: Peer)
    requires Quiet(p) && Takes(p, t) && p.rx.state != RxInit && p.rx.state != RxDone && !IsCall(p.tx.state)
    ensures Quiet(t) && ToDo(t) <= ToDo(p) && !IsCall(t.tx.state) && t.rx.state != RxInit
    ensures p.tx.state != TxEndAck && p.tx.state != TxDone && t.tx.state != TxEndAck && t.tx.state != TxDone
  {
  }

  lemma NotLeaving(p: Peer, q: Peer, x: Traffic, z: Traffic, t: Peer, y: Traffic)
    requires Leaving(p, q, x) && Leaving(q, p, z) && y.ends == z.ends
    requires p.tx.state != TxEndAck && p.tx.state != TxDone && t.tx.state != TxEndAck && t.tx.state != TxDone
    ensures Leaving(t, q, x) && Leaving(q, t, y) && x.ends == 0
  {
  }

  /** A packet is answered. */
  lemma Replying(p: Peer, q: Peer, x: Traffic, y: Traffic, pkt: Packet, t: Peer, reply: Packet)
    requires Halves(p, q, x, Join(Of(pkt), y)) && HydraTransfer.IsFwd(pkt) && !IsCall(p.tx.state) && !IsCall(q.tx.state)
    requires Takes(p, t) && p.rx.state != RxInit && p.rx.state != RxDone
    requires reply.FinfoAck? || reply.DataAck? || reply.EofAck?
    requires Batch(q, t, y.fwd, x.replies + [reply])
    ensures Onwards(p, q, x, Join(Of(pkt), y), t, [Flight(reply, p.txoptions)], y)
  {
    hide Batch, Join, ToDo, View, Quiet, Leaving, Calling;
    TakesQuietly(p, q, x, y, pkt, t);
    Peels(pkt, y);
    Gains(x, reply, p.txoptions);
    MoreReplies(t, q, x, y, Join(x, View([Flight(reply, p.txoptions)])));
  }

  /** Replies of `p` matter to the other side's batch only. */
  lemma MoreReplies(p: Peer, q: Peer, x: Traffic, y: Traffic, x': Traffic)
    requires x' == x.(replies := x'.replies)
    requires Calling(p, q, x, y) && Calling(q, p, y, x) && Leaving(p, q, x)
    ensures Calling(p, q, x', y) && Calling(q, p, y, x') && Leaving(p, q, x')
  {
  }

  lemma NotReplying(p: Peer, q: Peer, x: Traffic, y: Traffic, pkt: Packet, t: Peer)
    requires Halves(p, q, x, Join(Of(pkt), y)) && HydraTransfer.IsFwd(pkt) && !IsCall(p.tx.state) && !IsCall(q.tx.state)
    requires Takes(p, t) && p.rx.state != RxInit && p.rx.state != RxDone
    requires Batch(q, t, y.fwd, x.replies)
    ensures Onwards(p, q, x, Join(Of(pkt), y), t, [], y)
  {
    hide Batch, Join, ToDo, Quiet, Leaving, Calling;
    TakesQuietly(p, q, x, y, pkt, t);
    Peels(pkt, y);
    JoinNothing(x);
  }

  lemma HearsOffer(p: Peer, q: Peer, x: Traffic, y: Traffic, pkt: Packet, env: Env)
    requires Halves(p, q, x, Join(Of(pkt), y)) && Follows(pkt, y) && pkt.Finfo?
    requires Settled(p, pkt, env) && NoTrouble(env)
    ensures var (t, o) := Process(p, pkt, env); Onwards(p, q, x, Join(Of(pkt), y), t, o, y)
  {
    PastCalls(p, q, x, y, pkt);
    IsOffer(q, p, pkt, y.fwd, x.replies);
    hide Batch, Join, View, Onwards, NewFile;
    var t := Process(p, pkt, env).0;
    Answering(p, pkt, env);
    hide Process;
    BatchAnswers(q, p, pkt, env.decision, t);
    assert [pkt] + [] == [pkt];
    Replying(p, q, x, y, pkt, t, FinfoAck(t.rx.pos, pkt.k));
  }

  /** In front of the end of a file there is data. */
  lemma FirstOf(pkt: Packet, fwd: seq<Packet>, a: int)
    requires fwd != []
    ensures Chain(Drop([pkt] + fwd), a).Some? ==> pkt.Data? && pkt.pos == a && pkt.bytes != []
  {
    assert Drop([pkt] + fwd) == [pkt] + Drop(fwd);
  }

  lemma IsOffer(q: Peer, p: Peer, pkt: Packet, fwd: seq<Packet>, replies: seq<Packet>)
    requires Batch(q, p, [pkt] + fwd, replies) && pkt.Finfo?
    ensures q.tx.state == TxFinfoAck && p.rx.state == RxFinfo && fwd == [] && replies == []
    ensures pkt.name.Some? == HasFile(q) && pkt.k == q.tx.cur <= |p.cfg.disk| && (HasFile(q) ==> pkt.k < |p.cfg.disk|)
  {
    if fwd != [] {
      FirstOf(pkt, fwd, p.rx.pos);
    }
  }

  /** What becomes of a receiver that answers an offer. */
  predicate AnswersWith(p: Peer, pkt: Packet, d: Decision, t: Peer)
    requires pkt.Finfo?
  {
    && t == p.(rx := t.rx, tx := t.tx) && t.rx.window == p.rx.window
    && t.tx == (if p.tx.state == TxREnd && pkt.name.None? then p.tx.(retries := 0, state := TxEnd) else p.tx)
    && if pkt.name.None? then t.rx.state == RxDone
       else match d
            case Already => t.rx.pos == -1 && t.rx.state == RxFinfo
            case Refuse => t.rx.pos == -2 && t.rx.state == RxFinfo
            case Accept(_) => t.rx.pos >= 0 && t.rx.state == RxData
  }

  lemma Answering(p: Peer, pkt: Packet, env: Env)
    requires Quiet(p) && pkt.Finfo? && p.rx.state == RxFinfo && !IsCall(p.tx.state) && NoTrouble(env)
    ensures var (t, o) := Process(p, pkt, env);
            AnswersWith(p, pkt, env.decision, t) && o == [Flight(FinfoAck(t.rx.pos, pkt.k), p.txoptions)]
  {
  }

  lemma BatchAnswers(q: Peer, p: Peer, pkt: Packet, d: Decision, t: Peer)
    requires Batch(q, p, [pkt], []) && pkt.Finfo? && q.tx.state == TxFinfoAck && AnswersWith(p, pkt, d, t)
    requires pkt.name.Some? == HasFile(q) && (HasFile(q) ==> q.tx.cur < |p.cfg.disk| && d == p.cfg.disk[q.tx.cur])
    ensures Batch(q, t, [], [FinfoAck(t.rx.pos, pkt.k)])
  {
  }

  lemma HearsData(p: Peer, q: Peer, x: Traffic, y: Traffic, pkt: Packet, env: Env)
    requires Halves(p, q, x, Join(Of(pkt), y)) && Follows(pkt, y) && pkt.Data? && NoTrouble(env)
    ensures var (t, o) := Process(p, pkt, env); Onwards(p, q, x, Join(Of(pkt), y), t, o, y)
  {
    PastCalls(p, q, x, y, pkt);
    IsNext(q, p, pkt, y.fwd, x.replies);
    hide Batch, Join, View, Onwards;
    var (t, o) := Process(p, pkt, env);
    Storing(p, pkt, env);
    hide Process;
    BatchStores(q, p, pkt, y.fwd, x.replies, t);
    if p.rx.window != 0 {
      Replying(p, q, x, y, pkt, t, DataAck(t.rx.pos, pkt.k));
    } else {
      NotReplying(p, q, x, y, pkt, t);
    }
  }

  lemma IsNext(q: Peer, p: Peer, pkt: Packet, fwd: seq<Packet>, replies: seq<Packet>)
    requires Batch(q, p, [pkt] + fwd, replies) && pkt.Data?
    ensures p.rx.state == RxData && pkt.pos == p.rx.pos >= 0 && pkt.bytes != []
    ensures q.tx.state == TxXData || q.tx.state == TxDataAck || (q.tx.state == TxEofAck && fwd != [])
  {
    hide AllReported;
    if fwd != [] {
      FirstOf(pkt, fwd, p.rx.pos);
    }
  }

  predicate Stores(p: Peer, pkt: Packet, t: Peer)
    requires pkt.Data?
  {
    t == p.(rx := t.rx) && t.rx.window == p.rx.window && t.rx.state == RxData && t.rx.pos == p.rx.pos + |pkt.bytes|
  }

  lemma Storing(p: Peer, pkt: Packet, env: Env)
    requires Quiet(p) && pkt.Data? && p.rx.state == RxData && pkt.pos == p.rx.pos >= 0 && NoTrouble(env)
    ensures var (t, o) := Process(p, pkt, env);
            && Stores(p, pkt, t)
            && o == if p.rx.window != 0 then [Flight(DataAck(t.rx.pos, pkt.k), p.txoptions)] else []
  {
  }

  lemma BatchStores(q: Peer, p: Peer, pkt: Packet, fwd: seq<Packet>, replies: seq<Packet>, t: Peer)
    requires Batch(q, p, [pkt] + fwd, replies) && pkt.Data? && Stores(p, pkt, t) && pkt.bytes != []
    requires q.tx.state == TxXData || q.tx.state == TxDataAck || (q.tx.state == TxEofAck && fwd != [])
    ensures Batch(q, t, fwd, if p.rx.window != 0 then replies + [DataAck(t.rx.pos, pkt.k)] else replies)
  {
    hide AllReported;
    if q.tx.state == TxEofAck {
      assert Drop([pkt] + fwd) == [pkt] + Drop(fwd);
      assert ([pkt] + Drop(fwd))[1..] == Drop(fwd);
    } else {
      assert ([pkt] + fwd)[1..] == fwd;
      if q.tx.window != 0 {
        AckMore(replies, q.tx.lastack, DataAck(t.rx.pos, pkt.k));
      }
    }
  }

  lemma {:induction false} AckMore(replies: seq<Packet>, a: int, f: Packet)
    requires f.DataAck? && LastAck(replies, a).Some? && LastAck(replies, a).value < f.pos
    ensures LastAck(replies + [f], a) == Some(f.pos)
  {
    if replies != [] {
      assert (replies + [f])[1..] == replies[1..] + [f];
      AckMore(replies[1..], replies[0].pos, f);
    }
  }

  lemma HearsEof(p: Peer, q: Peer, x: Traffic, y: Traffic, pkt: Packet, env: Env)
    requires Halves(p, q, x, Join(Of(pkt), y)) && Follows(pkt, y) && pkt.Eof?
    ensures var (t, o) := Process(p, pkt, env); Onwards(p, q, x, Join(Of(pkt), y), t, o, y)
  {
    PastCalls(p, q, x, y, pkt);
    IsEnd(q, p, pkt, y.fwd, x.replies);
    hide Batch, Join, View, Onwards;
    var t := p.(rx := Ended(p.rx.(seen := 2 * pkt.k + 1), Some(File(p.rx.name, p.rx.data)), pkt.k));
    Ending(p, pkt, env);
    hide Process, Ended;
    BatchCloses(q, p, pkt, x.replies, t);
    assert [pkt] + [] == [pkt];
    Replying(p, q, x, y, pkt, t, EofAck(pkt.k));
  }

  lemma Ending(p: Peer, pkt: Packet, env: Env)
    requires Quiet(p) && pkt.Eof? && p.rx.state == RxData && pkt.pos == p.rx.pos >= 0
    ensures var rx := Ended(p.rx.(seen := 2 * pkt.k + 1), Some(File(p.rx.name, p.rx.data)), pkt.k);
            Process(p, pkt, env) == (p.(rx := rx), [Flight(EofAck(pkt.k), p.txoptions)])
  {
  }

  lemma IsEnd(q: Peer, p: Peer, pkt: Packet, fwd: seq<Packet>, replies: seq<Packet>)
    requires Batch(q, p, [pkt] + fwd, replies) && pkt.Eof?
    ensures p.rx.state == RxData && pkt.pos == p.rx.pos >= 0 && q.tx.state == TxEofAck && fwd == []
  {
    hide AllReported;
    if fwd != [] {
      FirstOf(pkt, fwd, p.rx.pos);
    }
  }

  lemma BatchCloses(q: Peer, p: Peer, pkt: Packet, replies: seq<Packet>, t: Peer)
    requires Batch(q, p, [pkt], replies) && pkt.Eof? && q.tx.state == TxEofAck
    requires t == p.(rx := t.rx) && t.rx.state == RxFinfo
    ensures Batch(q, t, [], replies + [EofAck(pkt.k)])
  {
    hide AllReported;
  }

  // ----- hearing what became of it ------------------------------------------------------------

  /** A sender that hears a reply, and nothing of the other batch or the calls changes. */
  lemma Hearing(p: Peer, q: Peer, x: Traffic, y: Traffic, pkt: Packet, t: Peer)
    requires Halves(p, q, x, Join(Of(pkt), y)) && Of(pkt).replies != []
    requires t == p.(tx := t.tx) && Quiet(t) && !IsCall(p.tx.state) && !IsCall(t.tx.state)
    requires p.tx.state != TxEndAck && p.tx.state != TxDone && t.tx.state != TxEndAck && t.tx.state != TxDone
    requires Batch(t, q, x.fwd, y.replies) && ToDo(t) <= ToDo(p)
    ensures Onwards(p, q, x, Join(Of(pkt), y), t, [], y)
  {
    hide Batch, Join, ToDo;
    Peels(pkt, y);
    JoinNothing(x);
    BatchKept(q, p, q, t, y.fwd, x.replies);
  }

  /** The replies under way to `p` as it takes off the first. */
  lemma Replied(p: Peer, q: Peer, x: Traffic, y: Traffic, pkt: Packet)
    requires Halves(p, q, x, Join(Of(pkt), y)) && Of(pkt).replies != []
    ensures Batch(p, q, x.fwd, [pkt] + y.replies) && Quiet(p) && !IsCall(p.tx.state) && p.rx.state != RxInit
  {
    hide Join;
    Peels(pkt, y);
  }

  lemma FirstAck(pkt: Packet, replies: seq<Packet>)
    requires AreAcks([pkt] + replies)
    ensures pkt.DataAck? && AreAcks(replies)
  {
    assert ([pkt] + replies)[0] == pkt;
    assert forall i | 0 <= i < |replies| :: replies[i] == ([pkt] + replies)[i + 1];
  }

  lemma FirstReply(pkt: Packet, replies: seq<Packet>)
    ensures AreAcks([pkt] + replies) ==> pkt.DataAck? && AreAcks(replies)
    ensures replies == [] ==> Tip([pkt] + replies) == pkt
    ensures replies != [] ==> Tip([pkt] + replies) == Tip(replies)
    ensures replies != [] && AreAcks(Drop([pkt] + replies)) ==> pkt.DataAck? && AreAcks(Drop(replies))
  {
    if AreAcks([pkt] + replies) {
      FirstAck(pkt, replies);
    }
    if replies != [] {
      assert Drop([pkt] + replies) == [pkt] + Drop(replies);
      if AreAcks([pkt] + Drop(replies)) {
        FirstAck(pkt, Drop(replies));
      }
    }
    hide AreAcks;
  }

  lemma HearsVerdict(p: Peer, q: Peer, x: Traffic, y: Traffic, pkt: Packet, env: Env)
    requires Halves(p, q, x, Join(Of(pkt), y)) && pkt.FinfoAck? && NoTrouble(env)
    requires p.tx.window != 0 ==> q.rx.window != 0
    ensures var (t, o) := Process(p, pkt, env); Onwards(p, q, x, Join(Of(pkt), y), t, o, y)
  {
    Replied(p, q, x, y, pkt);
    IsVerdict(p, q, x.fwd, y.replies, pkt);
    hide Batch, Join, Onwards, AllReported;
    var t := Process(p, pkt, env).0;
    Verdict(p, q, pkt, env);
    VerdictShape(p, pkt, env);
    hide Process;
    Hearing(p, q, x, y, pkt, t);
  }

  lemma IsVerdict(p: Peer, q: Peer, fwd: seq<Packet>, replies: seq<Packet>, pkt: Packet)
    requires Batch(p, q, fwd, [pkt] + replies) && pkt.FinfoAck?
    ensures p.tx.state == TxFinfoAck && replies == [] && fwd == [] && Batch(p, q, [], [pkt])
  {
    hide AllReported, Chain, LastAck;
    FirstReply(pkt, replies);
    if p.tx.state == TxFinfoAck {
      assert [pkt] + [] == [pkt];
    }
  }

  lemma VerdictShape(p: Peer, pkt: Packet, env: Env)
    requires Quiet(p) && p.tx.state == TxFinfoAck && pkt.FinfoAck? && NoTrouble(env)
    ensures var (t, o) := Process(p, pkt, env);
            && t == p.(tx := t.tx) && o == [] && Quiet(t)
            && t.tx.state == if !HasFile(p) then if p.rx.state == RxDone then TxEnd else TxREnd
                             else if pkt.pos >= 0 then TxXData else TxFinfo
  {
  }

  lemma Verdict(p: Peer, q: Peer, pkt: Packet, env: Env)
    requires Quiet(p) && Batch(p, q, [], [pkt]) && p.tx.state == TxFinfoAck && pkt.FinfoAck? && NoTrouble(env)
    requires p.tx.window != 0 ==> q.rx.window != 0
    ensures var t := Process(p, pkt, env).0; Batch(t, q, [], []) && ToDo(t) <= ToDo(p)
  {
    if !HasFile(p) {
      LastVerdict(p, q, pkt, env);
    } else if pkt.pos < 0 {
      IsRefused(p, q, pkt, env);
    } else {
      IsTaken(p, q, pkt, env);
    }
  }

  lemma LastVerdict(p: Peer, q: Peer, pkt: Packet, env: Env)
    requires Quiet(p) && Batch(p, q, [], [pkt]) && p.tx.state == TxFinfoAck && pkt.FinfoAck? && NoTrouble(env)
    requires !HasFile(p)
    ensures var t := Process(p, pkt, env).0; Batch(t, q, [], []) && ToDo(t) <= ToDo(p)
  {
    hide AllReported;
  }

  lemma IsRefused(p: Peer, q: Peer, pkt: Packet, env: Env)
    requires Quiet(p) && Batch(p, q, [], [pkt]) && p.tx.state == TxFinfoAck && pkt.FinfoAck? && pkt.pos < 0
             && HasFile(p)
    ensures var t := Process(p, pkt, env).0; Batch(t, q, [], []) && ToDo(t) <= ToDo(p)
  {
    var o := if pkt.pos == -1 then Have else Skipped;
    var t := NextFile(p.(tx := p.tx.(retries := 0, pos := pkt.pos, open := false)), o);
    assert Process(p, pkt, env) == (t, []);
    hide Process;
    assert o == Becomes(q.cfg.disk[p.tx.cur]);
  }

  lemma IsTaken(p: Peer, q: Peer, pkt: Packet, env: Env)
    requires Quiet(p) && Batch(p, q, [], [pkt]) && p.tx.state == TxFinfoAck && pkt.FinfoAck? && pkt.pos >= 0
    requires HasFile(p) && NoTrouble(env) && (p.tx.window != 0 ==> q.rx.window != 0)
    ensures var t := Process(p, pkt, env).0; Batch(t, q, [], []) && ToDo(t) <= ToDo(p)
  {
    hide AllReported;
    var t := p.(tx := p.tx.(retries := 0, lastack := pkt.pos, pos := pkt.pos, state := TxXData));
    assert Process(p, pkt, env) == (t, []);
    hide Process;
  }

  lemma HearsDataAck(p: Peer, q: Peer, x: Traffic, y: Traffic, pkt: Packet, env: Env)
    requires Halves(p, q, x, Join(Of(pkt), y)) && pkt.DataAck? && NoTrouble(env)
    ensures var (t, o) := Process(p, pkt, env); Onwards(p, q, x, Join(Of(pkt), y), t, o, y)
  {
    Replied(p, q, x, y, pkt);
    IsDataAck(p, q, x.fwd, y.replies, pkt);
    hide Batch, Join, Onwards, AllReported;
    var t := Process(p, pkt, env).0;
    Acks(p, q, x.fwd, y.replies, pkt, env);
    AcksShape(p, pkt, env);
    hide Process;
    Hearing(p, q, x, y, pkt, t);
  }

  lemma IsDataAck(p: Peer, q: Peer, fwd: seq<Packet>, replies: seq<Packet>, pkt: Packet)
    requires Batch(p, q, fwd, [pkt] + replies) && pkt.DataAck?
    ensures p.tx.state == TxXData || p.tx.state == TxDataAck || p.tx.state == TxEofAck
    ensures p.tx.state == TxEofAck && fwd == [] ==> replies != []
  {
    hide AllReported, Chain, LastAck;
    FirstReply(pkt, replies);
  }

  lemma AcksShape(p: Peer, pkt: Packet, env: Env)
    requires Quiet(p) && pkt.DataAck? && NoTrouble(env)
    requires p.tx.state == TxXData || p.tx.state == TxDataAck || p.tx.state == TxEofAck
    ensures var (t, o) := Process(p, pkt, env);
            && t == p.(tx := t.tx) && o == [] && Quiet(t) && ToDo(t) == ToDo(p)
            && (t.tx.state == TxXData || t.tx.state == TxDataAck || t.tx.state == TxEofAck)
  {
    hide OnFinfo, OnData, OnEof, OnRpos, OnInit, OnFinfoAck, NextFile, Bulk;
  }

  lemma Acks(p: Peer, q: Peer, fwd: seq<Packet>, replies: seq<Packet>, pkt: Packet, env: Env)
    requires Quiet(p) && Batch(p, q, fwd, [pkt] + replies) && pkt.DataAck? && NoTrouble(env)
    requires p.tx.state == TxXData || p.tx.state == TxDataAck || p.tx.state == TxEofAck
    requires p.tx.state == TxEofAck && fwd == [] ==> replies != []
    ensures Batch(Process(p, pkt, env).0, q, fwd, replies)
  {
    hide AllReported;
    FirstReply(pkt, replies);
    assert ([pkt] + replies)[1..] == replies;
  }

  lemma HearsClosed(p: Peer, q: Peer, x: Traffic, y: Traffic, pkt: Packet, env: Env)
    requires Halves(p, q, x, Join(Of(pkt), y)) && pkt.EofAck?
    ensures var (t, o) := Process(p, pkt, env); Onwards(p, q, x, Join(Of(pkt), y), t, o, y)
  {
    Replied(p, q, x, y, pkt);
    IsClosed(p, q, x.fwd, y.replies, pkt);
    hide Batch, Join, Onwards, AllReported;
    var t := NextFile(p, Sent);
    assert Process(p, pkt, env) == (t, []);
    hide Process;
    Hearing(p, q, x, y, pkt, t);
  }

  lemma IsClosed(p: Peer, q: Peer, fwd: seq<Packet>, replies: seq<Packet>, pkt: Packet)
    requires Batch(p, q, fwd, [pkt] + replies) && pkt.EofAck?
    ensures p.tx.state == TxEofAck && p.tx.open && replies == [] && fwd == []
    ensures Batch(NextFile(p, Sent), q, [], []) && ToDo(NextFile(p, Sent)) <= ToDo(p)
  {
    hide Chain, LastAck;
    FirstReply(pkt, replies);
  }

  // ----- sending --------------------------------------------------------------------------------

  /** A packet of its own batch leaves `p`. */
  lemma Sending(p: Peer, q: Peer, x: Traffic, y: Traffic, t: Peer, pkt: Packet, options: Options)
    requires Halves(p, q, x, y) && HydraTransfer.IsFwd(pkt)
    requires t == p.(tx := t.tx) && Quiet(t) && !IsCall(p.tx.state) && !IsCall(t.tx.state)
    requires !IsLast(p.tx.state) && !IsLast(t.tx.state)
    requires Batch(t, q, x.fwd + [pkt], y.replies) && ToDo(t) + 2 < ToDo(p)
    ensures Onwards(p, q, x, y, t, [Flight(pkt, options)], y)
  {
    hide Batch, Join, ToDo, View;
    Gains(x, pkt, options);
    BatchKept(q, p, q, t, y.fwd, x.replies);
  }

  lemma SendsOffer(p: Peer, q: Peer, x: Traffic, y: Traffic, env: Env)
    requires Halves(p, q, x, y) && p.tx.state == TxFinfo && ReadOk(p, env)
    ensures var (t, o) := Turn(p, env); Onwards(p, q, x, y, t, o, y)
  {
    var t := p.(tx := p.tx.(state := TxFinfoAck, offers := p.tx.offers + 1));
    var pkt := Finfo(if HasFile(p) then Some(p.cfg.files[p.tx.cur].name) else None, p.tx.cur);
    assert Turn(p, env) == (t, [Flight(pkt, p.txoptions)]);
    assert x.fwd == [] && x.fwd + [pkt] == [pkt];
    hide Turn, Onwards, AllReported;
    Sending(p, q, x, y, t, pkt, p.txoptions);
  }

  lemma {:induction false} ChainMore(fwd: seq<Packet>, a: int, f: Packet)
    requires f.Data? && f.bytes != [] && Chain(fwd, a) == Some(f.pos)
    ensures Chain(fwd + [f], a) == Some(f.pos + |f.bytes|)
  {
    if fwd == [] {
      assert fwd + [f] == [f];
    } else {
      assert (fwd + [f])[1..] == fwd[1..] + [f];
      ChainMore(fwd[1..], a + |fwd[0].bytes|, f);
    }
  }

  /** A block goes out, and nothing but the place in the file and the block length changes. */
  predicate BlockOut(p: Peer, t: Peer, n: nat) {
    && t == p.(tx := t.tx) && t.tx.pos == p.tx.pos + n && t.tx.lastack == p.tx.lastack
    && t.tx.results == p.tx.results && t.tx.cur == p.tx.cur && t.tx.open == p.tx.open && t.tx.window == p.tx.window
    && t.tx.state == if p.tx.window != 0 && t.tx.pos >= p.tx.lastack + p.tx.window then TxDataAck else TxXData
  }

  lemma SendsData(p: Peer, q: Peer, x: Traffic, y: Traffic, env: Env)
    requires Halves(p, q, x, y) && p.tx.state == TxXData && ReadOk(p, env) && NoTrouble(env)
    ensures var (t, o) := Turn(p, env); Onwards(p, q, x, y, t, o, y)
  {
    hide Onwards, AllReported, Chain, LastAck;
    var t := Turn(p, env).0;
    if env.read == 0 {
      var pkt := Eof(p.tx.pos, p.tx.cur);
      EofSent(p, q, x.fwd, y.replies, t, pkt);
      hide Batch;
      Sending(p, q, x, y, t, pkt, p.txoptions);
    } else {
      var pkt := BlockTurn(p, env);
      BlockSent(p, q, x.fwd, y.replies, t, env.read, pkt);
      hide Batch, Turn;
      Sending(p, q, x, y, t, pkt, p.txoptions);
    }
  }

  lemma BlockTurn(p: Peer, env: Env) returns (pkt: Packet)
    requires p.tx.state == TxXData && ReadOk(p, env) && env.read > 0 && p.tx.pos >= 0 && p.tx.open && HasFile(p)
    ensures pkt.Data? && pkt.pos == p.tx.pos && |pkt.bytes| == env.read <= |p.cfg.files[p.tx.cur].data| - p.tx.pos
    ensures var (t, o) := Turn(p, env); BlockOut(p, t, env.read) && o == [Flight(pkt, p.txoptions)]
  {
    pkt := Data(p.tx.pos, p.cfg.files[p.tx.cur].data[p.tx.pos..p.tx.pos + env.read], p.tx.cur);
    HydraTransfer.GrownKeeps(p.tx.(pos := p.tx.pos + env.read), env.read, p.cfg.maxblklen);
    hide Grown;
  }

  lemma BlockSent(p: Peer, q: Peer, fwd: seq<Packet>, replies: seq<Packet>, t: Peer, n: nat, pkt: Packet)
    requires Batch(p, q, fwd, replies) && p.tx.state == TxXData && BlockOut(p, t, n) && Quiet(p)
    requires pkt.Data? && pkt.pos == p.tx.pos && |pkt.bytes| == n > 0 && n <= |p.cfg.files[p.tx.cur].data| - p.tx.pos
    ensures Batch(t, q, fwd + [pkt], replies) && ToDo(t) + 2 < ToDo(p) && Quiet(t)
  {
    ChainMore(fwd, q.rx.pos, pkt);
    hide AllReported, Chain, LastAck;
  }

  lemma EofSent(p: Peer, q: Peer, fwd: seq<Packet>, replies: seq<Packet>, t: Peer, pkt: Packet)
    requires Batch(p, q, fwd, replies) && p.tx.state == TxXData && Quiet(p)
    requires t == p.(tx := p.tx.(state := TxEofAck)) && pkt.Eof? && pkt.pos == p.tx.pos
    ensures Batch(t, q, fwd + [pkt], replies) && ToDo(t) + 2 < ToDo(p) && Quiet(t)
  {
    hide AllReported, Chain, LastAck, AreAcks, ToDo;
    EofNearer(p, t);
    LastOf(fwd, pkt);
    hide Drop, Tip;
  }

  lemma EofNearer(p: Peer, t: Peer)
    requires p.tx.state == TxXData && t == p.(tx := p.tx.(state := TxEofAck))
    ensures ToDo(t) + 2 < ToDo(p)
  {
    hide Bulk;
  }

  lemma LastOf(s: seq<Packet>, pkt: Packet)
    ensures Drop(s + [pkt]) == s && Tip(s + [pkt]) == pkt
  {
  }

  lemma SendsStart(p: Peer, q: Peer, x: Traffic, y: Traffic, options: Options)
    requires Halves(p, q, x, y) && p.tx.state == TxStart
    ensures Onwards(p, q, x, y, p.(tx := p.tx.(state := TxSWait)), [Flight(Start, options)], y)
  {
    hide Batch, Join, Bulk, View;
    var t := p.(tx := p.tx.(state := TxSWait));
    Gains(x, Start, options);
    NotBegun(p, q, x.fwd, y.replies);
    BatchKept(p, q, t, q, x.fwd, y.replies);
    BatchKept(q, p, q, t, y.fwd, x.replies);
  }

  lemma SendsHello(p: Peer, q: Peer, x: Traffic, y: Traffic)
    requires Halves(p, q, x, y) && p.tx.state == TxInit
    ensures Onwards(p, q, x, y, p.(txoptions := p.rxoptions, tx := p.tx.(state := TxInitAck)),
                    [Flight(Hello(p.cfg), NONE)], y)
  {
    hide Batch, Join, Bulk, View;
    var t := p.(txoptions := p.rxoptions, tx := p.tx.(state := TxInitAck));
    Gains(x, Hello(p.cfg), NONE);
    NotBegun(p, q, x.fwd, y.replies);
    BatchKept(p, q, t, q, x.fwd, y.replies);
    BatchKept(q, p, q, t, y.fwd, x.replies);
  }

  lemma SendsEnds(p: Peer, q: Peer, x: Traffic, y: Traffic, f: Flight)
    requires Halves(p, q, x, y) && p.tx.state == TxEnd && f.pkt == End
    ensures Onwards(p, q, x, y, p.(tx := p.tx.(state := TxEndAck)), [f, f], y)
  {
    hide Batch, Join, Calling, Leaving, ToDo;
    MoreEnds(x, [f, f]);
    Departs(p, q, x, y, p.(tx := p.tx.(state := TxEndAck)), x.(ends := x.ends + 2), y);
  }

  // ----- every step ------------------------------------------------------------------------------

  function Weight(s: Link): nat { Measure(s.p, s.q, View(s.out), View(s.back)) }

  lemma Turns(p: Peer, q: Peer, x: Traffic, y: Traffic, env: Env)
    requires Halves(p, q, x, y) && ReadOk(p, env) && NoTrouble(env)
    ensures var (t, o) := Turn(p, env); (t == p && o == []) || Onwards(p, q, x, y, t, o, y)
  {
    hide Halves, Onwards, SendData;
    if p.tx.state == TxStart {
      SendsStart(p, q, x, y, p.txoptions);
    } else if p.tx.state == TxInit {
      SendsHello(p, q, x, y);
    } else if p.tx.state == TxFinfo {
      SendsOffer(p, q, x, y, env);
    } else if p.tx.state == TxXData {
      SendsData(p, q, x, y, env);
    } else if p.tx.state == TxEnd {
      SendsEnds(p, q, x, y, Flight(End, p.txoptions));
    } else {
      assert p.tx.state != TxEof by {
        NoneFailed(p, q, x, y);
      }
    }
  }

  lemma NoneFailed(p: Peer, q: Peer, x: Traffic, y: Traffic)
    requires Halves(p, q, x, y)
    ensures p.tx.state != TxEof
  {
  }

  lemma Hears(p: Peer, q: Peer, x: Traffic, y: Traffic, pkt: Packet, env: Env)
    requires Halves(p, q, x, Join(Of(pkt), y)) && Follows(pkt, y) && p.tx.state != TxDone
    requires Settled(p, pkt, env) && NoTrouble(env) && Set(p, q) && (pkt.Init? ==> pkt == Hello(q.cfg))
    requires !IsCall(p.tx.state) ==> p.tx.window != 0 ==> q.rx.window != 0
    ensures var (t, o) := Process(p, pkt, env); Onwards(p, q, x, Join(Of(pkt), y), t, o, y)
  {
    NothingElse(p, q, x, y, pkt);
    if pkt.FinfoAck? {
      Replied(p, q, x, y, pkt);
    }
    hide Halves, Onwards, Process, Follows, NoTrouble, Settled, Join, Of;
    match pkt
    case Start => HearsStart(p, q, x, y, env);
    case Init(_, _, _) => HearsHello(p, q, x, y, env);
    case InitAck => HearsInitAck(p, q, x, y, env);
    case Finfo(_, _) => HearsOffer(p, q, x, y, pkt, env);
    case Data(_, _, _) => HearsData(p, q, x, y, pkt, env);
    case Eof(_, _) => HearsEof(p, q, x, y, pkt, env);
    case FinfoAck(_, _) => HearsVerdict(p, q, x, y, pkt, env);
    case DataAck(_, _) => HearsDataAck(p, q, x, y, pkt, env);
    case EofAck(_) => HearsClosed(p, q, x, y, pkt, env);
    case End => HearsLast(p, q, x, y, env);
    case _ => assert false;
  }

  lemma NothingElse(p: Peer, q: Peer, x: Traffic, y: Traffic, pkt: Packet)
    requires Halves(p, q, x, Join(Of(pkt), y))
    ensures !pkt.Rpos? && !pkt.Idle? && !pkt.Device? && !pkt.DeviceAck?
  {
  }

  /** From the move of a side to the step of the link. */
  lemma Moves(s: Link, t: Peer, o: seq<Flight>, back: seq<Flight>)
    requires Onwards(s.p, s.q, View(s.out), View(s.back), t, o, View(back)) && Ordered(s.out) && Ordered(back)
    ensures Halves(t, s.q, View(s.out + o), View(back)) && Ordered(s.out + o)
    ensures Weight(Link(t, s.q, s.out + o, back)) < Weight(s)
  {
    hide View, Halves, Measure, Ordered, MayFollow;
    ViewMore(s.out, o);
    OrderedMore(s.out, o);
  }

  /** The link after a step of `p`. */
  ghost predicate Nearer(s: Link, t: Link) {
    && Halves(t.p, t.q, View(t.out), View(t.back)) && Ordered(t.out) && Ordered(t.back)
    && (t == s || Weight(t) < Weight(s))
  }

  lemma TurnNearer(s: Link, env: Env)
    requires Good(s) && Smooth(s, TurnToSend(env))
    ensures Nearer(s, Next(s, TurnToSend(env)))
  {
    hide Halves, Ordered, Weight, View, Turn, Onwards, Set;
    Turns(s.p, s.q, View(s.out), View(s.back), env);
    var (t, o) := Turn(s.p, env);
    if t == s.p && o == [] {
      assert s.out + [] == s.out;
    } else {
      Moves(s, t, o, s.back);
    }
  }

  lemma HearNearer(s: Link, env: Env)
    requires Good(s) && Smooth(s, Receive(env))
    ensures Nearer(s, Next(s, Receive(env)))
  {
    var pkt := s.back[0].pkt;
    assert View(s.back) == Join(Of(pkt), View(s.back[1..]));
    if pkt.Init? {
      HelloIsOurs(s);
    }
    if !IsCall(s.p.tx.state) {
      IsAcknowledged(s);
    }
    OrderedRest(s.back);
    hide Halves, Ordered, Weight, View, Process, Onwards, Set, Settled, NoTrouble, Follows;
    Hears(s.p, s.q, View(s.out), View(s.back[1..]), pkt, env);
    var (t, o) := Process(s.p, pkt, env);
    Moves(s, t, o, s.back[1..]);
  }

  /** What the session promises of an INIT under way and of the windows. */
  lemma HelloIsOurs(s: Link)
    requires HydraSession.Session(s) && s.back != [] && s.back[0].pkt.Init?
    ensures s.back[0].pkt == Hello(s.q.cfg)
  {
    hide HydraSession.Own, HydraSession.Windows, HydraSession.Agreed;
    assert s.back[0] in s.back;
  }

  lemma IsAcknowledged(s: Link)
    requires Good(s) && !IsCall(s.p.tx.state)
    ensures s.p.tx.window != 0 ==> s.q.rx.window != 0
  {
    hide View, HydraSession.Unacknowledged, HydraSession.Own, HydraSession.AllSound, HydraSession.TxWindow,
         HydraSession.RxWindow, HydraTransfer.Safe, Batch, Leaving, Ordered;
    HydraSession.WindowsFace(s.p.cfg, s.q.cfg);
  }

  lemma OurStep(s: Link, a: Action)
    requires Good(s) && Smooth(s, a)
    ensures Good(Next(s, a)) && (Next(s, a) == s || Weight(Next(s, a)) < Weight(s))
  {
    var t := Next(s, a);
    if a.Receive? {
      HearNearer(s, a.env);
    } else {
      TurnNearer(s, a.env);
    }
    IsPatient(s, a);
    SameTerms(s, a);
    SafeStep(s, a);
    hide Halves, Ordered, Weight, View, Next, Smooth, Patient, Possible, Set, HydraSession.Session, HydraTransfer.Safe;
  }

  lemma SafeStep(s: Link, a: Action)
    requires HydraSession.Session(s) && HydraTransfer.PatientSafe(s) && HydraTransfer.PatientSafe(Swap(s))
    requires Patient(s, a) && Steady(s, a) && Possible(s, a)
    ensures var t := Next(s, a);
            HydraSession.Session(t) && HydraTransfer.PatientSafe(t) && HydraTransfer.PatientSafe(Swap(t))
  {
    var t := Next(s, a);
    hide Next, Patient, Steady, Possible, HydraSession.Session, HydraTransfer.Safe;
    assert Swap(Swap(s)) == s;
    assert Step(s, t);
    HydraSession.StepSession(s, t);
    HydraTransfer.SenderMoves(s, a, true);
    HydraTransfer.ReceiverMoves(Swap(s), a, true);
  }

  lemma IsPatient(s: Link, a: Action)
    requires Good(s) && Smooth(s, a)
    ensures Patient(s, a) && Steady(s, a) && Possible(s, a)
  {
    hide View, HydraSession.Session, HydraTransfer.Safe, Settled, NoTrouble, ReadOk;
  }

  lemma SameTerms(s: Link, a: Action)
    requires Good(s) && Smooth(s, a)
    ensures var t := Next(s, a); Set(t.p, t.q) && Set(t.q, t.p)
  {
    hide View, HydraSession.Session, HydraTransfer.Safe, Settled, NoTrouble, ReadOk, Process, Turn, Halves;
    if a.Receive? {
      HydraTransfer.ProcessCfg(s.p, s.back[0].pkt, a.env);
    } else {
      HydraTransfer.TurnShape(s.p, a.env);
    }
  }

  lemma GoodSwapped(s: Link)
    requires Good(s)
    ensures Good(Swap(s)) && Weight(Swap(s)) == Weight(s)
  {
    hide View, HydraTransfer.Safe, Half, Ordered, Set, ToDo, Load, HydraSession.Own, HydraSession.AllSound;
    assert Swap(Swap(s)) == s;
  }

  /** Every step over lines that lose nothing keeps the session on its way, and one that
      changes anything brings the end nearer. */
  lemma StepOnwards(s: Link, t: Link)
    requires Good(s) && SmoothStep(s, t)
    ensures Good(t) && (t == s || Weight(t) < Weight(s))
  {
    hide Good, Weight, Next, Settled, NoTrouble, ReadOk;
    if a :| Smooth(s, a) && t == Next(s, a) {
      OurStep(s, a);
    } else {
      var a :| Smooth(Swap(s), a) && t == Swap(Next(Swap(s), a));
      GoodSwapped(s);
      OurStep(Swap(s), a);
      GoodSwapped(Next(Swap(s), a));
      assert Swap(Swap(s)) == s && Swap(t) == Next(Swap(s), a);
    }
  }

  // ----- nothing stops short -----------------------------------------------------------------------

  ghost predicate CanMove(s: Link) { exists t :: SmoothStep(s, t) && t != s }

  lemma CanHear(s: Link)
    requires s.p.tx.state != TxDone && s.back != []
    ensures CanMove(s)
  {
    var a := Receive(At(s.p, s.back[0].pkt));
    assert Smooth(s, a);
    hide Smooth, Process;
    assert Next(s, a).back == s.back[1..];
    assert SmoothStep(s, Next(s, a));
  }

  lemma CanSend(s: Link, env: Env)
    requires s.p.tx.state != TxDone && ReadOk(s.p, env) && NoTrouble(env) && Turn(s.p, env).0 != s.p
    ensures CanMove(s)
  {
    var a := TurnToSend(env);
    assert Smooth(s, a);
    hide Smooth, Turn, ReadOk, NoTrouble;
    assert SmoothStep(s, Next(s, a));
  }

  predicate Sends(t: TxState) { t == TxStart || t == TxInit || t == TxFinfo || t == TxXData || t == TxEnd }

  lemma SenderCanMove(s: Link)
    requires Good(s) && Sends(s.p.tx.state)
    ensures CanMove(s)
  {
    hide View, Batch, HydraTransfer.Safe, Set, Calling, Leaving, CanMove;
    assert 64 <= s.p.tx.blklen by {
      HasBlocks(s);
    }
    var env;
    if s.p.tx.state == TxXData {
      CanRead(s.p, s.q, View(s.out).fwd, View(s.back).replies);
      env := SendsMore(s.p);
    } else {
      env := Reading(0);
    }
    CanSend(s, env);
  }

  lemma HasBlocks(s: Link)
    requires Good(s)
    ensures 64 <= s.p.tx.blklen
  {
    hide View, Halves, HydraTransfer.Safe, Set, HydraSession.AllSound;
  }

  lemma CanRead(p: Peer, q: Peer, fwd: seq<Packet>, replies: seq<Packet>)
    requires Batch(p, q, fwd, replies) && p.tx.state == TxXData
    ensures p.tx.pos >= 0 && p.tx.open && HasFile(p)
  {
  }

  lemma SendsMore(p: Peer) returns (env: Env)
    requires p.tx.state == TxXData && p.tx.pos >= 0 && p.tx.open && HasFile(p) && 64 <= p.tx.blklen
    ensures ReadOk(p, env) && NoTrouble(env) && Turn(p, env).0 != p
  {
    if |p.cfg.files[p.tx.cur].data| > p.tx.pos {
      env := Reading(1);
      var pkt := BlockTurn(p, env);
      hide Turn;
    } else {
      env := Reading(0);
    }
  }

  lemma OthersCanMove(s: Link)
    requires CanMove(Swap(s))
    ensures CanMove(s)
  {
    hide SmoothStep;
    var t :| SmoothStep(Swap(s), t) && t != Swap(s);
    StepSwapped(Swap(s), t);
    assert Swap(Swap(s)) == s && Swap(Swap(t)) == t && Swap(t) != s;
  }

  /** A side that only waits waits for something that is under way, or for the other side. */
  lemma NotBothWait(p: Peer, q: Peer)
    requires Halves(p, q, NOTHING, NOTHING) && !Sends(p.tx.state) && !Sends(q.tx.state)
    ensures p.tx.state == TxDone || q.tx.state == TxDone
  {
  }

  lemma DoneTells(p: Peer, q: Peer, x: Traffic, y: Traffic)
    requires Halves(p, q, x, y) && p.tx.state == TxDone && q.tx.state != TxDone
    ensures x != NOTHING
  {
  }

  lemma NeverStopsShort(s: Link)
    requires Good(s) && !(s.p.tx.state == TxDone && s.q.tx.state == TxDone)
    ensures CanMove(s)
  {
    hide Good, CanMove, Halves;
    GoodSwapped(s);
    GoodHalves(s);
    if Sends(s.p.tx.state) {
      SenderCanMove(s);
    } else if Sends(s.q.tx.state) {
      SenderCanMove(Swap(s));
      OthersCanMove(s);
    } else if s.p.tx.state != TxDone && s.back != [] {
      CanHear(s);
    } else if s.q.tx.state != TxDone && s.out != [] {
      CanHear(Swap(s));
      OthersCanMove(s);
    } else if s.p.tx.state == TxDone {
      DoneTells(s.p, s.q, View(s.out), View(s.back));
    } else if s.q.tx.state == TxDone {
      DoneTells(s.q, s.p, View(s.back), View(s.out));
    } else {
      NotBothWait(s.p, s.q);
    }
  }

  lemma GoodHalves(s: Link)
    requires Good(s)
    ensures Halves(s.p, s.q, View(s.out), View(s.back)) && Halves(s.q, s.p, View(s.back), View(s.out))
  {
    hide Half, View;
  }

  // ----- the main result -----------------------------------------------------------------------------

  /** Two sides on a full-duplex link whose batches the other side can take. */
  ghost predicate Starting(s: Link) {
    && Opening(s) && !s.p.hdxlink && !s.q.hdxlink
    && !HydraSession.Unacknowledged(s.p.cfg, s.q.cfg) && !HydraSession.Unacknowledged(s.q.cfg, s.p.cfg)
    && Matched(s.p.cfg.files, s.q.cfg.disk) && Matched(s.q.cfg.files, s.p.cfg.disk)
  }

  lemma BeginsGood(s: Link)
    requires Starting(s)
    ensures Good(s)
    ensures Weight(s) == Bulk(s.p.cfg.files, 0) + Bulk(s.q.cfg.files, 0) + 32
  {
    StartingSwapped(s);
    OpeningHalf(s);
    OpeningHalf(Swap(s));
    OpeningSafe(s);
    OpeningSafe(Swap(s));
    hide Half, HydraTransfer.Safe, HydraSession.Session, Set, Starting, View, ToDo;
  }

  lemma StartingSwapped(s: Link)
    requires Starting(s)
    ensures Starting(Swap(s)) && s.out == [] && s.back == []
  {
    hide Fresh, HydraSession.Unacknowledged, Matched;
  }

  lemma OpeningSafe(s: Link)
    requires Starting(s)
    ensures HydraSession.Session(s) && HydraTransfer.PatientSafe(s)
  {
    hide Fresh, HydraSession.Unacknowledged, Matched, HydraTransfer.PlanOk, HydraTransfer.Safe, HydraSession.Session;
    HydraSession.OpeningSession(s);
    HydraTransfer.TameOk(s);
    HydraTransfer.StartSafe(s, true);
  }

  lemma OpeningHalf(s: Link)
    requires Starting(s)
    ensures Half(s.p, s.q, NOTHING, NOTHING) && Set(s.p, s.q) && View(s.out) == NOTHING
    ensures ToDo(s.p) == Bulk(s.p.cfg.files, 0) + 16
  {
    hide HydraSession.Unacknowledged, MaxBlock, FirstBlock, Wanted;
  }

  /** A run in which every step changes something. */
  ghost predicate Busy(trace: seq<Link>) {
    forall i | 0 < i < |trace| :: SmoothStep(trace[i - 1], trace[i]) && trace[i] != trace[i - 1]
  }

  lemma {:induction false} BusyGood(trace: seq<Link>, i: nat)
    requires i < |trace| && Busy(trace) && Good(trace[0])
    ensures Good(trace[i]) && Weight(trace[i]) + i <= Weight(trace[0])
    decreases i
  {
    hide Good, Weight;
    if i > 0 {
      BusyGood(trace, i - 1);
      StepOnwards(trace[i - 1], trace[i]);
    }
  }

  /** When a side is done, its batch is through. */
  lemma DoneIsThrough(s: Link)
    requires Good(s) && s.p.tx.state == TxDone
    ensures Delivered(s) && s.p.completed
  {
    hide View, HydraTransfer.Safe, HydraSession.Session, Set, Calling, Leaving, Ordered;
    var (files, disk, log, results) := (s.p.cfg.files, s.q.cfg.disk, s.q.rx.log, s.p.tx.results);
    HydraTransfer.SafeDelivers(s, true);
    forall i | i in log ensures i < |files| && !Refused(disk, i) {
      LoggedIsAccepted(s, i);
    }
    forall i: nat | i < |files| && !Refused(disk, i) ensures i in log && log[i] == Entry(Some(files[i]), i) {
      assert results[i] == Becomes(disk[i]) == Sent;
    }
  }

  lemma LoggedIsAccepted(s: Link, i: nat)
    requires HydraTransfer.PatientSafe(s) && i in s.q.rx.log
    ensures i < |s.p.cfg.files| && !Refused(s.q.cfg.disk, i)
  {
    assert HydraTransfer.EntryOk(s.p.tx, HydraTransfer.PlanOf(s, true), s.q.rx, i);
  }

  /** When both are done, nothing is left to be done. */
  lemma FinishedExactly(s: Link)
    requires Good(s)
    ensures CanMove(s) <==> !Finished(s)
  {
    hide Good, Delivered, CanMove;
    GoodSwapped(s);
    if s.p.tx.state == TxDone && s.q.tx.state == TxDone {
      DoneIsThrough(s);
      DoneIsThrough(Swap(s));
      DoneRests(s);
    } else {
      NeverStopsShort(s);
      CompletedIsDone(s);
      CompletedIsDone(Swap(s));
    }
  }

  lemma DoneRests(s: Link)
    requires s.p.tx.state == TxDone && s.q.tx.state == TxDone
    ensures !CanMove(s)
  {
    hide Process, Turn, Settled, ReadOk, NoTrouble;
  }

  lemma CompletedIsDone(s: Link)
    requires Good(s)
    ensures s.p.completed ==> s.p.tx.state == TxDone
  {
    hide View, Halves, HydraTransfer.Safe, Set, HydraSession.AllSound;
  }

  /** However the two sides and the lines take their turns: over lines that lose nothing and
      without any timeout there are no more than 3 changes for each byte, 8 for each file and
      32 for the session, and when nothing can change any more both batches are through and
      both sides have completed. */
  lemma EveryRunEnds(trace: seq<Link>)
    requires |trace| > 0 && Busy(trace) && Starting(trace[0])
    ensures |trace| <= Bulk(trace[0].p.cfg.files, 0) + Bulk(trace[0].q.cfg.files, 0) + 33
    ensures var s := trace[|trace| - 1]; CanMove(s) <==> !Finished(s)
  {
    hide Busy, CanMove, Good, Weight, Starting;
    BeginsGood(trace[0]);
    var s := trace[|trace| - 1];
    BusyGood(trace, |trace| - 1);
    FinishedExactly(s);
  }
}
