/** Transfer safety: in every reachable state of two peers over lossy lines, what
    a receiver holds of a file is a prefix of it, and a file the sender reports as
    sent is stored whole and under its name. */
module HydraTransfer {
  import opened HydraOptions
  import opened HydraPeer
  import opened HydraLink
  import opened Maybe
  import opened Reachability
  import HydraInit

  // ----- the traffic of one direction ---------------------------------------------

  /** Sent by the transmitter of a direction. */
  predicate IsFwd(p: Packet) { p.Finfo? || p.Data? || p.Eof? }

  /** Sent by its receiver. */
  predicate IsReply(p: Packet) { p.FinfoAck? || p.DataAck? || p.Rpos? || p.EofAck? }

  /** How far in the batch a packet belongs: FINFO of file k, then its data. */
  function Rank(p: Packet): nat {
    match p
    case Finfo(_, k) => 2 * k
    case FinfoAck(_, k) => 2 * k
    case Data(_, _, k) => 2 * k + 1
    case Eof(_, k) => 2 * k + 1
    case DataAck(_, k) => 2 * k + 1
    case Rpos(_, _, _, k) => 2 * k + 1
    case EofAck(k) => 2 * k + 1
    case _ => 0
  }

  predicate Matters(p: Packet, fwd: bool) { if fwd then IsFwd(p) else IsReply(p) }

  ghost predicate Sorted(q: seq<Flight>, fwd: bool) {
    forall i, j | 0 <= i < j < |q| && Matters(q[i].pkt, fwd)
      && Matters(q[j].pkt, fwd) :: Rank(q[i].pkt) <= Rank(q[j].pkt)
  }

  lemma SortedRest(q: seq<Flight>, fwd: bool)
    requires |q| > 0 && Sorted(q, fwd)
    ensures Sorted(q[1..], fwd)
    ensures Matters(q[0].pkt, fwd) ==> forall f | f in q[1..] && Matters(f.pkt, fwd) :: Rank(q[0].pkt) <= Rank(f.pkt)
    ensures forall f | f in q[1..] :: f in q
  {
  }

  lemma SortedLoss(q: seq<Flight>, fwd: bool, i: nat)
    requires i < |q| && Sorted(q, fwd)
    ensures Sorted(q[..i] + q[i + 1..], fwd)
    ensures forall f | f in q[..i] + q[i + 1..] :: f in q
  {
    var r := q[..i] + q[i + 1..];
    assert forall k | 0 <= k < |r| :: r[k] == if k < i then q[k] else q[k + 1];
  }

  lemma SortedMore(q: seq<Flight>, o: seq<Flight>, fwd: bool, r: nat)
    requires Sorted(q, fwd)
    requires forall f | f in q && Matters(f.pkt, fwd) :: Rank(f.pkt) <= r
    requires forall f | f in o && Matters(f.pkt, fwd) :: Rank(f.pkt) == r
    ensures Sorted(q + o, fwd)
  {
    var s := q + o;
    forall i, j | 0 <= i < j < |s| && Matters(s[i].pkt, fwd) && Matters(s[j].pkt, fwd)
      ensures Rank(s[i].pkt) <= Rank(s[j].pkt)
    {
      assert s[i] in q || s[i] in o;
      if j < |q| {
        assert s[i] == q[i] && s[j] == q[j];
      } else {
        assert s[j] in o;
      }
    }
  }

  // ----- the invariant of one direction ----------------------------------------------

  /** The phases of the transmitter. */
  function Phase(t: TxState): nat {
    match t
    case TxStart | TxSWait | TxInit | TxInitAck => 0
    case TxRInit => 1
    case TxFinfo | TxFinfoAck => 2
    case TxXData | TxDataAck | TxXWait => 3
    case TxEof | TxEofAck => 4
    case TxREnd | TxEnd | TxEndAck => 5
    case TxDone => 6
  }

  /** The rank of what the transmitter sends now. */
  function Top(t: Tx): nat { if Phase(t.state) <= 2 then 2 * t.cur else 2 * t.cur + 1 }

  /** A batch and what the receiver makes of its files.  `first` is the first file it
      refuses, if any; `patient` says that a refused file is offered once only. */
  datatype Plan = Plan(files: seq<File>, disk: seq<Decision>, patient: bool, first: nat)

  predicate AcceptedBefore(disk: seq<Decision>, first: nat) {
    && first <= |disk|
    && (forall k | 0 <= k < first :: !Refused(disk, k))
    && (first < |disk| ==> Refused(disk, first))
  }

  /** Once a file is refused, all the others are but perhaps the last. */
  predicate RefusedAfter(disk: seq<Decision>, first: nat) { forall k | first < k && k + 1 < |disk| :: Refused(disk, k) }

  predicate PlanOk(pl: Plan) {
    Matched(pl.files, pl.disk) && AcceptedBefore(pl.disk, pl.first) && (pl.patient || RefusedAfter(pl.disk, pl.first))
  }

  /** No reply below this rank is still under way. */
  function Low(t: Tx, pl: Plan): int {
    if Phase(t.state) <= 2 then
      if !pl.patient && t.cur > pl.first then 2 * pl.first
      else if t.cur > 0 && Refused(pl.disk, t.cur - 1) then 2 * t.cur - 2
      else 2 * t.cur - 1
    else if Phase(t.state) <= 4 then 2 * t.cur
    else -2
  }

  /** File `k` has been opened by the receiver. */
  predicate Opened(rx: Rx, k: nat) { k in rx.log || (rx.state == RxData && rx.offer == k) }

  /** A file the sender is past without its being refused: it took a late answer to
      another offer for one to the last. */
  predicate Passed(pl: Plan, k: nat) { !pl.patient && pl.first < k && k + 1 == |pl.files| }

  /** The sender has given up file `k`, or is past it. */
  predicate Closed(tx: Tx, k: nat) { k < tx.cur || (k == tx.cur && !tx.open) }

  predicate Ahead(p: Packet, tx: Tx, pl: Plan, rx: Rx) {
    IsFwd(p) ==>
      && rx.state != RxInit
      && rx.seen <= Rank(p) <= Top(tx)
      && match p
         case Finfo(name, k) => k <= |pl.files| && name == (if k < |pl.files| then Some(pl.files[k].name) else None)
         case Data(pos, bytes, k) =>
           k < |pl.files| && Opened(rx, k) && 0 <= pos && pos + |bytes| <= |pl.files[k].data|
             && bytes == pl.files[k].data[pos..pos + |bytes|]
         case Eof(pos, k) =>
           k < |pl.files| && Opened(rx, k) && if pos < 0 then Closed(tx, k) else pos == |pl.files[k].data|
         case _ => true
  }

  predicate Behind(p: Packet, tx: Tx, pl: Plan, rx: Rx) {
    && (p.InitAck? ==> rx.state != RxInit)
    && (IsReply(p) ==>
      && Low(tx, pl) <= Rank(p) <= rx.seen
      && match p
         case FinfoAck(pos, k) =>
           && k <= |pl.files|
           && (k < |pl.files| ==> if pos < 0 then Refused(pl.disk, k) else pos <= |pl.files[k].data| && Opened(rx, k))
         case Rpos(pos, _, _, k) => k < |pl.files| && pos <= |pl.files[k].data|
         case EofAck(k) => k in rx.log
         case _ => true)
  }

  ghost predicate TxOk(tx: Tx, pl: Plan, rx: Rx) {
    var n := |pl.files|;
    && tx.cur <= n && |tx.results| == tx.cur
    && (forall k: nat | k < tx.cur :: k in rx.log || Refused(pl.disk, k) || Passed(pl, k))
    && Low(tx, pl) <= rx.seen <= Top(tx)
    && (1 <= Phase(tx.state) <= 5 ==> rx.state != RxInit)
    && (Phase(tx.state) <= 1 ==> tx.cur == 0)
    && (Phase(tx.state) <= 2 && tx.cur < n ==> tx.open)
    && (3 <= Phase(tx.state) <= 4 ==>
        && tx.cur < n && Opened(rx, tx.cur)
        && (if tx.open then 0 <= tx.pos <= |pl.files[tx.cur].data| else tx.pos < 0)
        && (Phase(tx.state) == 4 && tx.open ==> tx.pos == |pl.files[tx.cur].data|))
    && (Phase(tx.state) == 5 ==> tx.cur == n)
    && (forall k: nat | k < tx.cur && tx.results[k] == Sent :: k in rx.log && rx.log[k] == Entry(Some(pl.files[k]), k))
  }

  /** A file is closed by its own end of file, and stored whole or given up. */
  predicate EntryOk(tx: Tx, pl: Plan, rx: Rx, k: nat)
    requires k in rx.log
  {
    && k < |pl.files| && !Refused(pl.disk, k) && 2 * k + 1 <= rx.seen && rx.log[k].from == k
    && if rx.log[k].file.None? then Closed(tx, k) else rx.log[k].file.value == pl.files[k]
  }

  ghost predicate RxOk(tx: Tx, pl: Plan, rx: Rx) {
    var (n, b) := (|pl.files|, rx.offer);
    && (rx.state == RxInit ==> rx.log == map[] && rx.seen == 0)
    && (rx.state == RxData ==>
        && b < n && !Refused(pl.disk, b) && 2 * b <= rx.seen && rx.name == pl.files[b].name
        && (forall k | k in rx.log :: k < b)
        && (if rx.pos < 0 then 2 * b + 1 <= rx.seen else |rx.data| == rx.pos && rx.data <= pl.files[b].data))
    && (rx.state == RxDone ==> 2 * n <= rx.seen)
    && (forall k | k in rx.log :: EntryOk(tx, pl, rx, k))
  }

  ghost predicate AllAhead(q: seq<Flight>, tx: Tx, pl: Plan, rx: Rx) {
    forall f | f in q :: Ahead(f.pkt, tx, pl, rx)
  }

  ghost predicate AllBehind(q: seq<Flight>, tx: Tx, pl: Plan, rx: Rx) {
    forall f | f in q :: Behind(f.pkt, tx, pl, rx)
  }

  /** An offer of a file that is refused, or the answer to one. */
  predicate Token(p: Packet, disk: seq<Decision>, fwd: bool) {
    if fwd then p.Finfo? && Refused(disk, p.k) else p.FinfoAck? && Refused(disk, p.k)
  }

  function Tokens(q: seq<Flight>, disk: seq<Decision>, fwd: bool): nat {
    if q == [] then 0 else (if Token(q[0].pkt, disk, fwd) then 1 else 0) + Tokens(q[1..], disk, fwd)
  }

  /** A patient sender has at most one such packet under way, about its own file. */
  ghost predicate Single(tx: Tx, pl: Plan, out: seq<Flight>, back: seq<Flight>) {
    pl.patient ==>
      && Tokens(out, pl.disk, true) + Tokens(back, pl.disk, false) <= (if tx.offers == 0 then 0 else 1)
      && (forall f | f in out && Token(f.pkt, pl.disk, true) :: f.pkt.k == tx.cur)
      && (forall f | f in back && Token(f.pkt, pl.disk, false) :: f.pkt.k == tx.cur)
  }

  /** Transmitter `tx` of a batch, receiver `rx`, and the lines between them. */
  ghost predicate Dir(tx: Tx, pl: Plan, rx: Rx, out: seq<Flight>, back: seq<Flight>) {
    && TxOk(tx, pl, rx)
    && RxOk(tx, pl, rx)
    && AllAhead(out, tx, pl, rx) && Sorted(out, true)
    && AllBehind(back, tx, pl, rx) && Sorted(back, false)
  }

  // ----- the lines ---------------------------------------------------------------------

  predicate NoFwd(o: seq<Flight>) { forall f | f in o :: !IsFwd(f.pkt) }

  predicate NoReply(o: seq<Flight>) { forall f | f in o :: !IsReply(f.pkt) && !f.pkt.InitAck? }

  /** Packets of the other direction do not matter, nor does taking one off. */
  lemma OtherTraffic(tx: Tx, pl: Plan, rx: Rx, out: seq<Flight>, o: seq<Flight>, back: seq<Flight>)
    requires Dir(tx, pl, rx, out, back)
    ensures NoFwd(o) ==> Dir(tx, pl, rx, out + o, back)
    ensures NoReply(o) ==> Dir(tx, pl, rx, out, back + o)
  {
    hide TxOk, RxOk, Ahead, Behind, Sorted;
    Elsewhere(tx, pl, rx, o);
    Bounds(tx, pl, rx, out);
    Bounds(tx, pl, rx, back);
    if NoFwd(o) {
      SortedMore(out, o, true, Top(tx));
    }
    if NoReply(o) {
      SortedMore(back, o, false, rx.seen);
    }
  }

  lemma Elsewhere(tx: Tx, pl: Plan, rx: Rx, o: seq<Flight>)
    ensures NoFwd(o) ==> AllAhead(o, tx, pl, rx)
    ensures NoReply(o) ==> AllBehind(o, tx, pl, rx)
  {
  }

  lemma Bounds(tx: Tx, pl: Plan, rx: Rx, q: seq<Flight>)
    ensures AllAhead(q, tx, pl, rx) ==> forall f | f in q && IsFwd(f.pkt) :: Rank(f.pkt) <= Top(tx)
    ensures AllBehind(q, tx, pl, rx) ==> forall f | f in q && IsReply(f.pkt) :: Rank(f.pkt) <= rx.seen
  {
  }

  /** The transmitter never goes back, and never reopens a file. */
  predicate TxForward(a: Tx, b: Tx) {
    && Top(a) <= Top(b)
    && a.cur <= b.cur
    && (a.cur == b.cur && !a.open ==> !b.open)
  }

  /** Nor does the receiver. */
  predicate RxForward(a: Rx, b: Rx) {
    && a.seen <= b.seen
    && (forall k | k in a.log :: k in b.log && b.log[k] == a.log[k])
    && (a.state == RxData ==> (b.state == RxData && b.offer == a.offer) || a.offer in b.log)
    && (a.state != RxInit ==> b.state != RxInit)
  }

  lemma TxChange(tx: Tx, tx': Tx, pl: Plan, rx: Rx, out: seq<Flight>, back: seq<Flight>)
    requires Dir(tx, pl, rx, out, back)
    requires TxOk(tx', pl, rx) && TxForward(tx, tx')
    requires forall f | f in back && IsReply(f.pkt) :: Low(tx', pl) <= Rank(f.pkt)
    ensures Dir(tx', pl, rx, out, back)
  {
    forall f | f in out ensures Ahead(f.pkt, tx', pl, rx) {
      assert Ahead(f.pkt, tx, pl, rx);
    }
    forall f | f in back ensures Behind(f.pkt, tx', pl, rx) {
      assert Behind(f.pkt, tx, pl, rx);
    }
  }

  lemma RxChange(tx: Tx, pl: Plan, rx: Rx, rx': Rx, out: seq<Flight>, back: seq<Flight>)
    requires Dir(tx, pl, rx, out, back)
    requires TxOk(tx, pl, rx') && RxOk(tx, pl, rx') && RxForward(rx, rx')
    requires forall f | f in out && IsFwd(f.pkt) :: rx'.seen <= Rank(f.pkt)
    ensures Dir(tx, pl, rx', out, back)
  {
    forall f | f in out ensures Ahead(f.pkt, tx, pl, rx') {
      assert Ahead(f.pkt, tx, pl, rx);
    }
    forall f | f in back ensures Behind(f.pkt, tx, pl, rx') {
      assert Behind(f.pkt, tx, pl, rx);
    }
  }

  // ----- one step of the transmitter ----------------------------------------------------

  /** What one packet may do to the transmitter of a direction. */
  ghost predicate TxStep(tx: Tx, tx': Tx, pl: Plan, rx: Rx, pkt: Packet) {
    && TxOk(tx', pl, rx)
    && TxForward(tx, tx')
    && (Low(tx', pl) <= Low(tx, pl) || (IsReply(pkt) && Low(tx', pl) <= Rank(pkt)))
  }

  /** Same file, same place in it, and a state of the same phase or one that the
      second switch leads to. */
  predicate Stays(a: Tx, b: Tx) {
    && a.open == b.open && a.pos == b.pos && a.cur == b.cur && a.results == b.results && a.offers == b.offers
    && (|| Phase(a.state) == Phase(b.state) || b.state == TxDone || (Phase(a.state) == 1 && Phase(b.state) == 2))
  }

  lemma StaysStep(tx: Tx, tx': Tx, pl: Plan, rx: Rx, pkt: Packet)
    requires TxOk(tx, pl, rx) && Stays(tx, tx')
    ensures TxStep(tx, tx', pl, rx, pkt)
  {
  }

  lemma ActStays(s: Peer, env: Env)
    ensures Stays(s.tx, Act(s, env).tx)
    ensures Act(s, env).rx == s.rx && Act(s, env).cfg == s.cfg
  {
  }

  lemma StaysAfter(tx: Tx, tx1: Tx, tx2: Tx, pl: Plan, rx: Rx, pkt: Packet)
    requires TxStep(tx, tx1, pl, rx, pkt) && Stays(tx1, tx2)
    ensures TxStep(tx, tx2, pl, rx, pkt)
  {
    StaysStep(tx1, tx2, pl, rx, pkt);
  }

  lemma BadPositionStays(s: Peer, pos: int, k: nat, fallback: bool, env: Env)
    ensures var r := BadPosition(s, pos, k, fallback, env); Stays(s.tx, r.peer.tx) && r.outcome == None
  {
    hide Ladder;
  }

  /** Packets that leave the transmitter where it is. */
  lemma OtherPackets(s: Peer, p: Packet, env: Env)
    requires !p.InitAck? && !p.FinfoAck? && !p.Rpos? && !p.EofAck?
    ensures Stays(s.tx, Handle(s, p, env).peer.tx) && Handle(s, p, env).outcome == None
  {
    hide HydraInit.WindowsRead, Negotiated, Value, Window, BadPosition, NewFile, Ended, Or, And;
    if p.Data? || p.Eof? {
      BadPositionStays(s.(rx := s.rx.(seen := 2 * p.k + 1)), p.pos, p.k, p.Data?, env);
    }
  }

  lemma TxInitAckStep(s: Peer, env: Env, rx: Rx, pl: Plan)
    requires pl.files == s.cfg.files
    requires TxOk(s.tx, pl, rx) && Behind(InitAck, s.tx, pl, rx)
    ensures TxStep(s.tx, Handle(s, InitAck, env).peer.tx, pl, rx, InitAck) && Handle(s, InitAck, env).outcome == None
  {
  }

  /** The answer to a patient sender's offer of a refused file is about the file it is at. */
  predicate Current(p: Packet, tx: Tx, pl: Plan) {
    pl.patient && p.FinfoAck? && Refused(pl.disk, p.k) ==> p.k == tx.cur
  }

  lemma TxFinfoAckStep(s: Peer, p: Packet, env: Env, rx: Rx, pl: Plan)
    requires pl.files == s.cfg.files && PlanOk(pl) && Current(p, s.tx, pl)
    requires p.FinfoAck? && TxOk(s.tx, pl, rx) && RxOk(s.tx, pl, rx) && Behind(p, s.tx, pl, rx)
    ensures var r := OnFinfoAck(s, p, env);
            match r.outcome
            case None => TxStep(s.tx, r.peer.tx, pl, rx, p)
            case Some(o) => o != Sent && TxStep(s.tx, NextFile(r.peer, o).tx, pl, rx, p)
  {
    if s.tx.state == TxFinfo || s.tx.state == TxFinfoAck {
      if HasFile(s) {
        AnswerIsRight(p, s.tx, rx, pl);
        if p.pos < 0 {
          FileRefused(s, p, env, rx, pl);
        } else {
          FileTaken(s, p, env, rx, pl);
        }
      } else {
        assert OnFinfoAck(s, p, env).peer.tx == s.tx.(retries := 0, state := TxREnd);
      }
    }
  }

  /** An acceptance is about the file the sender is at, and a refusal leaves no file
      behind that should have been sent. */
  lemma AnswerIsRight(p: Packet, tx: Tx, rx: Rx, pl: Plan)
    requires PlanOk(pl) && Current(p, tx, pl) && p.FinfoAck? && TxOk(tx, pl, rx) && RxOk(tx, pl, rx)
             && Behind(p, tx, pl, rx)
    requires Phase(tx.state) == 2 && tx.cur < |pl.files|
    ensures p.k <= tx.cur
    ensures p.pos >= 0 ==> p.k == tx.cur && Opened(rx, p.k) && !Refused(pl.disk, p.k)
    ensures p.pos < 0 ==> Refused(pl.disk, tx.cur) || Passed(pl, tx.cur)
    ensures p.pos < 0 && (pl.patient || tx.cur <= pl.first) ==> p.k == tx.cur
    ensures p.pos < 0 && !pl.patient ==> pl.first <= p.k
  {
    assert p.k < |pl.files|;
    if p.pos >= 0 {
      OpenedIsAccepted(tx, pl, rx, p.k);
    }
  }

  lemma OpenedIsAccepted(tx: Tx, pl: Plan, rx: Rx, k: nat)
    requires RxOk(tx, pl, rx) && Opened(rx, k)
    ensures k < |pl.files| && !Refused(pl.disk, k)
  {
    if k in rx.log {
      assert EntryOk(tx, pl, rx, k);
    }
  }

  lemma FileTaken(s: Peer, p: Packet, env: Env, rx: Rx, pl: Plan)
    requires pl.files == s.cfg.files
    requires p.FinfoAck? && TxOk(s.tx, pl, rx) && Behind(p, s.tx, pl, rx)
    requires Phase(s.tx.state) == 2 && HasFile(s) && p.k == s.tx.cur && p.pos >= 0
    ensures var r := OnFinfoAck(s, p, env); r.outcome == None && TxStep(s.tx, r.peer.tx, pl, rx, p)
  {
  }

  lemma FileRefused(s: Peer, p: Packet, env: Env, rx: Rx, pl: Plan)
    requires pl.files == s.cfg.files
    requires p.FinfoAck? && TxOk(s.tx, pl, rx) && RxOk(s.tx, pl, rx) && Behind(p, s.tx, pl, rx)
    requires Phase(s.tx.state) == 2 && HasFile(s) && p.k <= s.tx.cur && p.pos < 0
    requires Refused(pl.disk, s.tx.cur) || Passed(pl, s.tx.cur)
    requires pl.patient || s.tx.cur <= pl.first ==> p.k == s.tx.cur
    requires !pl.patient ==> pl.first <= p.k
    ensures var r := OnFinfoAck(s, p, env);
            && r.outcome == Some(if p.pos == -1 then Have else Skipped)
            && TxStep(s.tx, NextFile(r.peer, r.outcome.value).tx, pl, rx, p)
  {
    var o := if p.pos == -1 then Have else Skipped;
    var t := NextFile(OnFinfoAck(s, p, env).peer, o).tx;
    FileSkipped(s.tx, t, o, p, rx, pl);
  }

  lemma FileSkipped(a: Tx, b: Tx, o: Outcome, p: Packet, rx: Rx, pl: Plan)
    requires p.FinfoAck? && TxOk(a, pl, rx) && RxOk(a, pl, rx) && Behind(p, a, pl, rx)
    requires Phase(a.state) == 2 && a.cur < |pl.files| && p.k <= a.cur
    requires Refused(pl.disk, a.cur) || Passed(pl, a.cur)
    requires pl.patient || a.cur <= pl.first ==> p.k == a.cur
    requires !pl.patient ==> pl.first <= p.k
    requires o != Sent && Phase(b.state) == 2 && b.cur == a.cur + 1 && b.results == a.results + [o]
             && b.open == (b.cur < |pl.files|)
    ensures TxStep(a, b, pl, rx, p)
  {
    assert forall k: nat | k < a.cur :: b.results[k] == a.results[k];
  }

  /** The file is given up, or sent again from a place in it. */
  predicate Repositioned(a: Tx, b: Tx, pos: int) {
    && 3 <= Phase(a.state) <= 4 && b.cur == a.cur && b.results == a.results && b.offers == a.offers
    && if b.open then a.open && b.pos == pos >= 0 && Phase(b.state) == 3
       else b.pos == -2 && (Phase(b.state) == Phase(a.state) || Phase(b.state) == 4)
  }

  lemma RposShape(s: Peer, p: Packet, env: Env)
    requires p.Rpos?
    ensures var r := OnRpos(s, p, env);
            r.outcome == None && (Stays(s.tx, r.peer.tx) || Repositioned(s.tx, r.peer.tx, p.pos))
  {
    hide Shrunk;
    ShrunkKeeps(s.tx.(syncid := p.syncid, retries := 1), p.blklen);
  }

  lemma RepositionedStep(a: Tx, b: Tx, p: Packet, rx: Rx, pl: Plan)
    requires p.Rpos? && TxOk(a, pl, rx) && Behind(p, a, pl, rx) && Repositioned(a, b, p.pos)
    ensures TxStep(a, b, pl, rx, p)
  {
    assert p.k == a.cur;
  }

  lemma TxRposStep(s: Peer, p: Packet, env: Env, rx: Rx, pl: Plan)
    requires pl.files == s.cfg.files
    requires p.Rpos? && TxOk(s.tx, pl, rx) && Behind(p, s.tx, pl, rx)
    ensures TxStep(s.tx, OnRpos(s, p, env).peer.tx, pl, rx, p) && OnRpos(s, p, env).outcome == None
  {
    RposShape(s, p, env);
    hide OnRpos, TxOk, Behind, Stays, Repositioned, TxStep;
    var b := OnRpos(s, p, env).peer.tx;
    if Stays(s.tx, b) {
      StaysStep(s.tx, b, pl, rx, p);
    } else {
      RepositionedStep(s.tx, b, p, rx, pl);
    }
  }

  lemma ShrunkKeeps(t: Tx, asked: nat)
    ensures var u := Shrunk(t, asked);
            u.state == t.state && u.open == t.open && u.pos == t.pos && u.cur == t.cur && u.results == t.results
              && u.offers == t.offers
  {
  }

  /** The heart of the matter: an EOFACK that ends a file still open here means
      that the file is stored there. */
  lemma TxEofAckStep(s: Peer, p: Packet, env: Env, rx: Rx, pl: Plan)
    requires pl.files == s.cfg.files && PlanOk(pl)
    requires p.EofAck? && TxOk(s.tx, pl, rx) && RxOk(s.tx, pl, rx) && Behind(p, s.tx, pl, rx)
    ensures var r := OnEofAck(s);
            match r.outcome
            case None => TxStep(s.tx, r.peer.tx, pl, rx, p)
            case Some(o) => TxStep(s.tx, NextFile(r.peer, o).tx, pl, rx, p)
  {
    hide TxOk, RxOk, Behind, TxStep, PlanOk;
    if s.tx.state == TxEof || s.tx.state == TxEofAck {
      var o := if s.tx.open then Sent else Skipped;
      FileDone(s.tx, NextFile(s, o).tx, o, p, rx, pl);
    } else {
      StaysStep(s.tx, s.tx, pl, rx, p);
    }
  }

  lemma FileDone(a: Tx, b: Tx, o: Outcome, p: Packet, rx: Rx, pl: Plan)
    requires PlanOk(pl) && p.EofAck? && TxOk(a, pl, rx) && RxOk(a, pl, rx) && Behind(p, a, pl, rx)
             && Phase(a.state) == 4
    requires o == (if a.open then Sent else Skipped)
    requires Phase(b.state) == 2 && b.cur == a.cur + 1 && b.results == a.results + [o] && b.open == (b.cur < |pl.files|)
    ensures TxStep(a, b, pl, rx, p)
  {
    assert p.k == a.cur && EntryOk(a, pl, rx, p.k);
    assert a.open ==> rx.log[p.k] == Entry(Some(pl.files[p.k]), p.k);
    assert forall k: nat | k < a.cur :: b.results[k] == a.results[k];
  }

  lemma HandleIs(s: Peer, p: Packet, env: Env)
    ensures p.FinfoAck? ==> Handle(s, p, env) == OnFinfoAck(s, p, env)
    ensures p.Rpos? ==> Handle(s, p, env) == OnRpos(s, p, env)
    ensures p.EofAck? ==> Handle(s, p, env) == OnEofAck(s)
  {
  }

  lemma TxProcess(s: Peer, p: Packet, env: Env, rx: Rx, pl: Plan)
    requires pl.files == s.cfg.files && PlanOk(pl) && Current(p, s.tx, pl)
    requires TxOk(s.tx, pl, rx) && RxOk(s.tx, pl, rx) && Behind(p, s.tx, pl, rx)
    ensures TxStep(s.tx, Process(s, p, env).0.tx, pl, rx, p)
  {
    HandleIs(s, p, env);
    hide TxOk, RxOk, Behind, TxStep, Act, Handle, NextFile, Stays, OnFinfoAck, OnRpos, OnEofAck, PlanOk, Current;
    var r := Handle(s, p, env);
    if p.InitAck? {
      TxInitAckStep(s, env, rx, pl);
    } else if p.FinfoAck? {
      TxFinfoAckStep(s, p, env, rx, pl);
    } else if p.Rpos? {
      TxRposStep(s, p, env, rx, pl);
    } else if p.EofAck? {
      TxEofAckStep(s, p, env, rx, pl);
    } else {
      OtherPackets(s, p, env);
      StaysStep(s.tx, r.peer.tx, pl, rx, p);
    }
    if r.outcome.None? {
      ActStays(r.peer, env);
      StaysAfter(s.tx, r.peer.tx, Act(r.peer, env).tx, pl, rx, p);
    }
  }

  // ----- sending ---------------------------------------------------------------------------

  /** What hydra puts out in one turn: at most one packet of the direction, at the
      transmitter's own rank. */
  ghost predicate TxSends(s: Peer, t: Peer, o: seq<Flight>, rx: Rx, pl: Plan) {
    && TxOk(t.tx, pl, rx)
    && TxForward(s.tx, t.tx)
    && Low(t.tx, pl) <= Low(s.tx, pl)
    && (forall f | f in o :: Ahead(f.pkt, t.tx, pl, rx) && (IsFwd(f.pkt) ==> Rank(f.pkt) == Top(t.tx)))
  }

  lemma SendEofOk(s: Peer, rx: Rx, pl: Plan)
    requires pl.files == s.cfg.files
    requires TxOk(s.tx, pl, rx) && (Phase(s.tx.state) == 3 || Phase(s.tx.state) == 4)
    requires s.tx.open ==> s.tx.pos == |pl.files[s.tx.cur].data|
    ensures var (t, o) := SendEof(s); TxSends(s, t, o, rx, pl)
  {
  }

  lemma SendDataOk(s: Peer, env: Env, rx: Rx, pl: Plan)
    requires pl.files == s.cfg.files
    requires TxOk(s.tx, pl, rx) && s.tx.state == TxXData && ReadOk(s, env)
    ensures var (t, o) := SendData(s, env); TxSends(s, t, o, rx, pl)
  {
    if s.tx.pos < 0 || env.read == 0 {
      SendEofOk(s, rx, pl);
    } else if env.read < 0 || !s.tx.open {
      SendEofOk(s.(tx := s.tx.(open := false, pos := -2)), rx, pl);
    } else {
      SendBlockOk(s, env, rx, pl);
    }
  }

  lemma GrownKeeps(t: Tx, i: nat, max: nat)
    ensures var u := Grown(t, i, max);
            && u.state == t.state && u.open == t.open && u.pos == t.pos && u.cur == t.cur && u.results == t.results
              && u.offers == t.offers
            && u.lastack == t.lastack && u.window == t.window
  {
  }

  lemma SendBlockOk(s: Peer, env: Env, rx: Rx, pl: Plan)
    requires pl.files == s.cfg.files
    requires TxOk(s.tx, pl, rx) && s.tx.state == TxXData && ReadOk(s, env)
    requires s.tx.pos >= 0 && env.read > 0 && s.tx.open
    ensures var (t, o) := SendData(s, env); TxSends(s, t, o, rx, pl)
  {
    GrownKeeps(s.tx.(pos := s.tx.pos + env.read), env.read, s.cfg.maxblklen);
    hide Grown;
  }

  lemma TurnOk(s: Peer, env: Env, rx: Rx, pl: Plan)
    requires pl.files == s.cfg.files
    requires TxOk(s.tx, pl, rx) && s.tx.state != TxDone && ReadOk(s, env)
    ensures var (t, o) := Turn(s, env); TxSends(s, t, o, rx, pl)
  {
    hide SendData, SendEof, TxSends;
    if s.tx.state == TxXData {
      SendDataOk(s, env, rx, pl);
    } else if s.tx.state == TxEof {
      SendEofOk(s, rx, pl);
    } else if s.tx.state == TxFinfo {
      SendFinfoOk(s, rx, pl);
    } else {
      var (t, o) := Turn(s, env);
      StaysSends(s, t, o, rx, pl);
    }
  }

  lemma SendFinfoOk(s: Peer, rx: Rx, pl: Plan)
    requires pl.files == s.cfg.files
    requires TxOk(s.tx, pl, rx) && s.tx.state == TxFinfo
    ensures var name := if HasFile(s) then Some(pl.files[s.tx.cur].name) else None;
            TxSends(s, s.(tx := s.tx.(state := TxFinfoAck, offers := s.tx.offers + 1)),
              [Flight(Finfo(name, s.tx.cur), s.txoptions)], rx, pl)
  {
  }

  lemma TimeoutStays(s: Peer, env: Env)
    ensures var (t, o) := Timeout(s, env);
            Stays(s.tx, t.tx) && t.rx == s.rx && t.cfg == s.cfg && (forall f | f in o :: f.pkt.Idle?)
  {
    hide Act;
    var t := s.tx.(retries := s.tx.retries + 1);
    ActStays(s, env);
    ActStays(s.(tx := t.(state := Again(t.state))), env);
  }

  // ----- one step of the receiver -------------------------------------------------------------

  ghost predicate RxStep(rx: Rx, t: Peer, o: seq<Flight>, tx: Tx, pl: Plan, p: Packet) {
    && TxOk(tx, pl, t.rx)
    && RxOk(tx, pl, t.rx)
    && RxForward(rx, t.rx)
    && t.rx.seen == (if IsFwd(p) then Rank(p) else rx.seen)
    && NoFwd(o)
    && (forall f | f in o :: Behind(f.pkt, tx, pl, t.rx) && (IsReply(f.pkt) ==> Rank(f.pkt) == t.rx.seen))
  }

  lemma ProcessRx(s: Peer, p: Packet, env: Env)
    ensures var r := Handle(s, p, env);
            var (t, o) := Process(s, p, env);
            t.rx == r.peer.rx && t.cfg == r.peer.cfg && o == r.out
  {
    hide Handle;
    ActStays(Handle(s, p, env).peer, env);
    hide Act;
  }

  /** Fields the invariant does not speak of. */
  predicate SameRx(a: Rx, b: Rx) {
    a.state == b.state && a.pos == b.pos && a.name == b.name && a.data == b.data && a.seen == b.seen && a.log == b.log
    && a.offer == b.offer
  }

  /** What one packet of the direction does to the receiver and sends back. */
  ghost predicate Replies(rx: Rx, rx': Rx, o: seq<Flight>, tx: Tx, pl: Plan) {
    && TxOk(tx, pl, rx') && RxOk(tx, pl, rx') && RxForward(rx, rx') && rx'.seen == rx.seen
    && (forall f | f in o :: IsReply(f.pkt) && Behind(f.pkt, tx, pl, rx') && Rank(f.pkt) == rx'.seen)
  }

  lemma Noticed(tx: Tx, pl: Plan, rx: Rx, p: Packet)
    requires TxOk(tx, pl, rx) && RxOk(tx, pl, rx) && Ahead(p, tx, pl, rx) && IsFwd(p)
    ensures var rx1 := rx.(seen := Rank(p));
            TxOk(tx, pl, rx1) && RxOk(tx, pl, rx1) && RxForward(rx, rx1) && Ahead(p, tx, pl, rx1)
    ensures Low(tx, pl) <= Rank(p)
    ensures rx.state == RxFinfo && p.Finfo? && p.k < |pl.files| ==> forall k | k in rx.log :: k < p.k
    ensures rx.state == RxData && p.Finfo? && p.k < |pl.files| ==> p.k == rx.offer && rx.pos >= 0
    ensures rx.state == RxData && !p.Finfo? ==> p.k == rx.offer
  {
  }

  lemma Rewrite(tx: Tx, pl: Plan, rx: Rx, rx': Rx)
    requires TxOk(tx, pl, rx) && RxOk(tx, pl, rx) && SameRx(rx, rx')
    ensures TxOk(tx, pl, rx') && RxOk(tx, pl, rx') && RxForward(rx, rx')
  {
  }

  /** From the packet as noticed to the packet as handled. */
  lemma StepFrom(rx: Rx, rx1: Rx, t: Peer, o: seq<Flight>, tx: Tx, pl: Plan, p: Packet)
    requires RxForward(rx, rx1) && IsFwd(p) && rx1.seen == Rank(p) && Replies(rx1, t.rx, o, tx, pl)
    ensures RxStep(rx, t, o, tx, pl, p)
  {
    hide TxOk, RxOk, Behind;
  }

  lemma RxOpens(tx: Tx, pl: Plan, rx: Rx, rx': Rx, k: nat)
    requires TxOk(tx, pl, rx) && RxOk(tx, pl, rx) && rx.state == RxFinfo
    requires k < |pl.files| && !Refused(pl.disk, k) && rx.seen == 2 * k && rx'.data <= pl.files[k].data
    requires forall j | j in rx.log :: j < k
    requires SameRx(rx', rx.(state := RxData, name := pl.files[k].name, pos := |rx'.data|, data := rx'.data,
             offer := k))
    ensures TxOk(tx, pl, rx') && RxOk(tx, pl, rx') && RxForward(rx, rx')
  {
    EntriesKept(tx, pl, rx, rx');
  }

  /** Entries do not depend on the rest of the receiver. */
  lemma EntriesKept(tx: Tx, pl: Plan, rx: Rx, rx': Rx)
    requires rx'.log == rx.log && rx.seen <= rx'.seen
    ensures (forall k | k in rx.log :: EntryOk(tx, pl, rx, k)) ==> forall k | k in rx'.log :: EntryOk(tx, pl, rx', k)
  {
  }

  lemma RxRefuses(tx: Tx, pl: Plan, rx: Rx, pos: int)
    requires TxOk(tx, pl, rx) && RxOk(tx, pl, rx) && rx.state != RxData
    ensures var rx' := rx.(pos := pos); TxOk(tx, pl, rx') && RxOk(tx, pl, rx') && RxForward(rx, rx')
  {
  }

  lemma RxEnds(tx: Tx, pl: Plan, rx: Rx)
    requires TxOk(tx, pl, rx) && RxOk(tx, pl, rx) && rx.state == RxFinfo && rx.seen == 2 * |pl.files|
    ensures var rx' := rx.(pos := 0, state := RxDone); TxOk(tx, pl, rx') && RxOk(tx, pl, rx') && RxForward(rx, rx')
  {
  }

  /** The receiver opens an offered file or refuses it. */
  lemma RxDecides(tx: Tx, pl: Plan, rx: Rx, name: string, k: nat, env: Env)
    requires TxOk(tx, pl, rx) && RxOk(tx, pl, rx) && rx.state == RxFinfo && rx.seen == 2 * k
    requires Matched(pl.files, pl.disk) && k < |pl.files| && env.decision == pl.disk[k] && name == pl.files[k].name
    requires forall j | j in rx.log :: j < k
    ensures var rx' := NewFile(rx, name, k, env);
            && TxOk(tx, pl, rx') && RxOk(tx, pl, rx') && RxForward(rx, rx') && rx'.seen == rx.seen
            && (if rx'.state == RxData then rx'.offer == k
                else rx'.state == RxFinfo && rx'.pos < 0 && Refused(pl.disk, k))
  {
    hide TxOk, RxOk, RxForward;
    if env.decision.Accept? {
      RxOpens(tx, pl, rx, NewFile(rx, name, k, env), k);
    } else {
      RxRefuses(tx, pl, rx, NewFile(rx, name, k, env).pos);
    }
  }

  lemma RxFinfoStep(s: Peer, p: Packet, env: Env, tx: Tx, pl: Plan)
    requires TxOk(tx, pl, s.rx) && RxOk(tx, pl, s.rx) && Ahead(p, tx, pl, s.rx) && Settled(s, p, env)
    requires Matched(pl.files, pl.disk) && s.cfg.disk == pl.disk && p.Finfo?
    ensures var r := OnFinfo(s, p, env); RxStep(s.rx, r.peer, r.out, tx, pl, p)
  {
    hide TxOk, RxOk, Ahead, Behind, RxStep, NewFile;
    Noticed(tx, pl, s.rx, p);
    FinfoNames(p, tx, pl, s.rx);
    var r := OnFinfo(s, p, env);
    var (rx1, rx') := (s.rx.(seen := Rank(p)), r.peer.rx);
    if rx1.state == RxFinfo && p.name.None? {
      RxEnds(tx, pl, rx1);
    } else if rx1.state == RxFinfo {
      RxDecides(tx, pl, rx1, p.name.value, p.k, env);
    } else if rx1.state == RxData {
      Rewrite(tx, pl, rx1, rx1);
    } else {
      RxRefuses(tx, pl, rx1, rx'.pos);
    }
    FinfoReply(tx, pl, rx1, rx', p.k);
    StepFrom(s.rx, rx1, r.peer, r.out, tx, pl, p);
  }

  lemma FinfoNames(p: Packet, tx: Tx, pl: Plan, rx: Rx)
    requires p.Finfo? && Ahead(p, tx, pl, rx)
    ensures p.k <= |pl.files| && rx.state != RxInit
    ensures p.name == if p.k < |pl.files| then Some(pl.files[p.k].name) else None
  {
  }

  lemma FinfoReply(tx: Tx, pl: Plan, rx: Rx, rx': Rx, k: nat)
    requires RxOk(tx, pl, rx') && RxForward(rx, rx') && rx'.seen == 2 * k && k <= |pl.files|
    requires Low(tx, pl) <= 2 * k
    requires rx'.state == RxInit || rx'.state == RxFinfo ==> rx'.pos < 0 && (k < |pl.files| ==> Refused(pl.disk, k))
    requires rx'.state == RxData && k < |pl.files| ==> k == rx'.offer
    ensures Behind(FinfoAck(rx'.pos, k), tx, pl, rx')
  {
  }

  lemma BadPositionRx(s: Peer, pos: int, k: nat, fallback: bool, env: Env)
    ensures var r := BadPosition(s, pos, k, fallback, env);
            && SameRx(s.rx, r.peer.rx)
            && forall f | f in r.out :: f.pkt.Rpos? && f.pkt.pos == s.rx.pos && f.pkt.k == k
  {
    hide Ladder;
  }

  lemma BadPositionStep(s: Peer, pos: int, k: nat, fallback: bool, env: Env, tx: Tx, pl: Plan)
    requires TxOk(tx, pl, s.rx) && RxOk(tx, pl, s.rx)
    requires s.rx.state == RxData && k == s.rx.offer && s.rx.seen == 2 * k + 1 && Low(tx, pl) <= 2 * k + 1
    ensures var r := BadPosition(s, pos, k, fallback, env); Replies(s.rx, r.peer.rx, r.out, tx, pl)
  {
    BadPositionRx(s, pos, k, fallback, env);
    hide BadPosition, TxOk;
    Rewrite(tx, pl, s.rx, BadPosition(s, pos, k, fallback, env).peer.rx);
  }

  lemma RxFails(tx: Tx, pl: Plan, rx: Rx, rx': Rx)
    requires TxOk(tx, pl, rx) && RxOk(tx, pl, rx) && rx.state == RxData && rx.seen == 2 * rx.offer + 1
    requires SameRx(rx', rx.(pos := -2))
    ensures TxOk(tx, pl, rx') && RxOk(tx, pl, rx') && RxForward(rx, rx')
  {
  }

  lemma RxStores(tx: Tx, pl: Plan, rx: Rx, rx': Rx, bytes: seq<byte>)
    requires TxOk(tx, pl, rx) && RxOk(tx, pl, rx) && rx.state == RxData && rx.seen == 2 * rx.offer + 1 && rx.pos >= 0
    requires var file := pl.files[rx.offer].data;
             rx.pos + |bytes| <= |file| && bytes == file[rx.pos..rx.pos + |bytes|]
    requires SameRx(rx', rx.(pos := rx.pos + |bytes|, data := rx.data + bytes))
    ensures TxOk(tx, pl, rx') && RxOk(tx, pl, rx') && RxForward(rx, rx')
  {
    var file := pl.files[rx.offer].data;
    assert rx.data == file[..rx.pos];
    assert rx.data + bytes == file[..rx.pos + |bytes|];
  }

  lemma DataReply(tx: Tx, pl: Plan, rx: Rx, k: nat, pkt: Packet)
    requires rx.seen == 2 * k + 1 && Low(tx, pl) <= 2 * k + 1 && k < |pl.files|
    requires match pkt
             case DataAck(_, j) => j == k
             case Rpos(pos, _, _, j) => j == k && pos < 0
             case EofAck(j) => j == k && k in rx.log
             case _ => false
    ensures Behind(pkt, tx, pl, rx)
  {
  }

  lemma DataFacts(tx: Tx, pl: Plan, rx: Rx, p: Packet)
    requires Ahead(p, tx, pl, rx) && (p.Data? || p.Eof?)
    ensures p.k < |pl.files|
    ensures p.Data? ==>
              && 0 <= p.pos && p.pos + |p.bytes| <= |pl.files[p.k].data|
              && p.bytes == pl.files[p.k].data[p.pos..p.pos + |p.bytes|]
    ensures p.Eof? ==> if p.pos < 0 then Closed(tx, p.k) else p.pos == |pl.files[p.k].data|
    ensures rx.state == RxFinfo ==> p.k in rx.log
  {
  }

  lemma DataStored(s: Peer, p: Packet, env: Env, tx: Tx, pl: Plan, rx': Rx)
    requires TxOk(tx, pl, s.rx) && RxOk(tx, pl, s.rx) && Ahead(p, tx, pl, s.rx) && p.Data?
    requires s.rx.seen == Rank(p) && Low(tx, pl) <= Rank(p) && s.rx.state == RxData && p.k == s.rx.offer
    requires p.pos == s.rx.pos >= 0
    requires SameRx(rx', s.rx.(pos := s.rx.pos + |p.bytes|, data := s.rx.data + p.bytes))
    ensures Replies(s.rx, rx', [], tx, pl) && Behind(DataAck(rx'.pos, p.k), tx, pl, rx')
  {
    hide TxOk, RxOk, Ahead, Behind;
    DataFacts(tx, pl, s.rx, p);
    RxStores(tx, pl, s.rx, rx', p.bytes);
    DataReply(tx, pl, rx', p.k, DataAck(rx'.pos, p.k));
  }

  lemma DataFailed(s: Peer, p: Packet, env: Env, tx: Tx, pl: Plan, rx': Rx, asked: nat)
    requires TxOk(tx, pl, s.rx) && RxOk(tx, pl, s.rx) && Ahead(p, tx, pl, s.rx) && p.Data?
    requires s.rx.seen == Rank(p) && Low(tx, pl) <= Rank(p) && s.rx.state == RxData && p.k == s.rx.offer
    requires SameRx(rx', s.rx.(pos := -2))
    ensures Replies(s.rx, rx', [], tx, pl) && Behind(Rpos(-2, asked, rx'.syncid, p.k), tx, pl, rx')
  {
    hide TxOk, RxOk, Ahead, Behind;
    DataFacts(tx, pl, s.rx, p);
    RxFails(tx, pl, s.rx, rx');
    DataReply(tx, pl, rx', p.k, Rpos(-2, asked, rx'.syncid, p.k));
  }

  lemma DataStep(s: Peer, p: Packet, env: Env, tx: Tx, pl: Plan)
    requires TxOk(tx, pl, s.rx) && RxOk(tx, pl, s.rx) && Ahead(p, tx, pl, s.rx) && p.Data?
    requires s.rx.seen == Rank(p) && Low(tx, pl) <= Rank(p) && s.rx.state == RxData && p.k == s.rx.offer
    ensures var r := OnData(s, p, env); Replies(s.rx, r.peer.rx, r.out, tx, pl)
  {
    hide TxOk, RxOk, BadPosition, Ahead, Behind, Word, RxForward;
    assert s.(rx := s.rx.(seen := 2 * p.k + 1)) == s;
    var r := OnData(s, p, env);
    if p.pos != s.rx.pos || p.pos < 0 {
      BadPositionStep(s, p.pos, p.k, true, env, tx, pl);
    } else if !env.written {
      DataFailed(s, p, env, tx, pl, r.peer.rx, 0);
    } else {
      DataStored(s, p, env, tx, pl, r.peer.rx);
    }
  }

  lemma RxDataStep(s: Peer, p: Packet, env: Env, tx: Tx, pl: Plan)
    requires TxOk(tx, pl, s.rx) && RxOk(tx, pl, s.rx) && Ahead(p, tx, pl, s.rx)
    requires p.Data?
    ensures var r := OnData(s, p, env); RxStep(s.rx, r.peer, r.out, tx, pl, p)
  {
    hide TxOk, RxOk, Ahead, Behind, RxStep, BadPosition;
    Noticed(tx, pl, s.rx, p);
    var s1 := s.(rx := s.rx.(seen := 2 * p.k + 1));
    var r := OnData(s, p, env);
    assert r == OnData(s1, p, env);
    if s1.rx.state == RxData {
      DataStep(s1, p, env, tx, pl);
    }
    StepFrom(s.rx, s1.rx, r.peer, r.out, tx, pl, p);
  }

  /** End of file at the receiver's position: the file is complete. */
  lemma RxCloses(tx: Tx, pl: Plan, rx: Rx, rx': Rx, entry: Option<File>)
    requires TxOk(tx, pl, rx) && RxOk(tx, pl, rx) && rx.state == RxData && rx.seen == 2 * rx.offer + 1
    requires match entry
             case None => Closed(tx, rx.offer)
             case Some(f) => rx.pos == |pl.files[rx.offer].data| && f == File(rx.name, rx.data)
    requires rx' == Ended(rx, entry, rx.offer)
    ensures TxOk(tx, pl, rx') && RxOk(tx, pl, rx') && RxForward(rx, rx')
  {
    assert entry.Some? ==> entry.value == pl.files[rx.offer];
    forall k | k in rx'.log ensures EntryOk(tx, pl, rx', k) {
      assert k != rx.offer ==> k in rx.log && EntryOk(tx, pl, rx, k);
    }
  }

  lemma EofStored(rx: Rx, p: Packet, f: Flight, tx: Tx, pl: Plan)
    requires TxOk(tx, pl, rx) && RxOk(tx, pl, rx) && Ahead(p, tx, pl, rx) && p.Eof? && f.pkt == EofAck(p.k)
    requires rx.seen == Rank(p) && Low(tx, pl) <= Rank(p) && rx.state == RxData && p.k == rx.offer
    requires p.pos < 0 || p.pos == rx.pos
    ensures Replies(rx, Ended(rx, if p.pos < 0 then None else Some(File(rx.name, rx.data)), p.k), [f], tx, pl)
  {
    hide TxOk, RxOk, Ahead, Behind, RxForward;
    DataFacts(tx, pl, rx, p);
    var entry := if p.pos < 0 then None else Some(File(rx.name, rx.data));
    var rx' := Ended(rx, entry, p.k);
    RxCloses(tx, pl, rx, rx', entry);
    DataReply(tx, pl, rx', p.k, EofAck(p.k));
  }

  lemma EofKnown(rx: Rx, p: Packet, o: seq<Flight>, tx: Tx, pl: Plan)
    requires TxOk(tx, pl, rx) && RxOk(tx, pl, rx) && Ahead(p, tx, pl, rx) && p.Eof?
    requires rx.seen == Rank(p) && Low(tx, pl) <= Rank(p) && rx.state != RxData
    requires o == [] || (|o| == 1 && rx.state == RxFinfo && o[0].pkt == EofAck(p.k))
    ensures Replies(rx, rx, o, tx, pl)
  {
    hide TxOk, RxOk, Ahead, Behind, RxForward;
    DataFacts(tx, pl, rx, p);
    Rewrite(tx, pl, rx, rx);
    if o != [] {
      DataReply(tx, pl, rx, p.k, EofAck(p.k));
    }
  }

  lemma EofStep(s: Peer, p: Packet, env: Env, tx: Tx, pl: Plan)
    requires TxOk(tx, pl, s.rx) && RxOk(tx, pl, s.rx) && Ahead(p, tx, pl, s.rx) && p.Eof?
    requires s.rx.seen == Rank(p) && Low(tx, pl) <= Rank(p)
    requires s.rx.state == RxData ==> p.k == s.rx.offer
    ensures var r := OnEof(s, p, env); Replies(s.rx, r.peer.rx, r.out, tx, pl)
  {
    hide TxOk, RxOk, BadPosition, Ahead, Low, Ended, Replies;
    assert s.(rx := s.rx.(seen := 2 * p.k + 1)) == s;
    var r := OnEof(s, p, env);
    if s.rx.state == RxData && p.pos >= 0 && p.pos != s.rx.pos {
      BadPositionStep(s, p.pos, p.k, false, env, tx, pl);
    } else if s.rx.state == RxData {
      EofStored(s.rx, p, Flight(EofAck(p.k), s.txoptions), tx, pl);
    } else {
      EofKnown(s.rx, p, r.out, tx, pl);
    }
  }

  lemma RxEofStep(s: Peer, p: Packet, env: Env, tx: Tx, pl: Plan)
    requires TxOk(tx, pl, s.rx) && RxOk(tx, pl, s.rx) && Ahead(p, tx, pl, s.rx)
    requires p.Eof?
    ensures var r := OnEof(s, p, env); RxStep(s.rx, r.peer, r.out, tx, pl, p)
  {
    hide TxOk, RxOk, Ahead, Behind, RxStep, BadPosition;
    Noticed(tx, pl, s.rx, p);
    var s1 := s.(rx := s.rx.(seen := 2 * p.k + 1));
    var r := OnEof(s, p, env);
    assert r == OnEof(s1, p, env);
    EofStep(s1, p, env, tx, pl);
    StepFrom(s.rx, s1.rx, r.peer, r.out, tx, pl, p);
  }

  lemma RxOtherStep(s: Peer, p: Packet, env: Env, tx: Tx, pl: Plan)
    requires TxOk(tx, pl, s.rx) && RxOk(tx, pl, s.rx) && !IsFwd(p)
    ensures var r := Handle(s, p, env); RxStep(s.rx, r.peer, r.out, tx, pl, p)
  {
    hide HydraInit.WindowsRead, Negotiated, Value, Window, Shrunk, TxOk, RxOk;
    var r := Handle(s, p, env);
    if p.Init? && s.rx.state == RxInit {
      OpenSession(tx, pl, s.rx, r.peer.rx);
    } else {
      assert r.peer.rx == s.rx;
    }
  }

  lemma OpenSession(tx: Tx, pl: Plan, rx: Rx, rx': Rx)
    requires TxOk(tx, pl, rx) && RxOk(tx, pl, rx)
    requires rx' == rx || (rx.state == RxInit && rx' == rx.(state := RxFinfo, window := rx'.window))
    ensures TxOk(tx, pl, rx') && RxOk(tx, pl, rx')
  {
  }

  lemma HandleFwd(s: Peer, p: Packet, env: Env)
    ensures p.Finfo? ==> Handle(s, p, env) == OnFinfo(s, p, env)
    ensures p.Data? ==> Handle(s, p, env) == OnData(s, p, env)
    ensures p.Eof? ==> Handle(s, p, env) == OnEof(s, p, env)
  {
  }

  lemma RxProcess(s: Peer, p: Packet, env: Env, tx: Tx, pl: Plan)
    requires TxOk(tx, pl, s.rx) && RxOk(tx, pl, s.rx) && Ahead(p, tx, pl, s.rx) && Settled(s, p, env)
    requires Matched(pl.files, pl.disk) && s.cfg.disk == pl.disk
    ensures var (t, o) := Process(s, p, env); RxStep(s.rx, t, o, tx, pl, p)
  {
    ProcessRx(s, p, env);
    HandleFwd(s, p, env);
    hide Handle, Process, OnFinfo, OnData, OnEof, TxOk, RxOk, Ahead, Settled, Matched;
    if p.Finfo? {
      RxFinfoStep(s, p, env, tx, pl);
    } else if p.Data? {
      RxDataStep(s, p, env, tx, pl);
    } else if p.Eof? {
      RxEofStep(s, p, env, tx, pl);
    } else {
      RxOtherStep(s, p, env, tx, pl);
    }
  }

  // ----- one direction, every step --------------------------------------------------------

  lemma Subqueue(tx: Tx, pl: Plan, rx: Rx, out: seq<Flight>, back: seq<Flight>, r: seq<Flight>)
    requires Dir(tx, pl, rx, out, back)
    ensures (forall f | f in r :: f in out) && Sorted(r, true) ==> Dir(tx, pl, rx, r, back)
    ensures (forall f | f in r :: f in back) && Sorted(r, false) ==> Dir(tx, pl, rx, out, r)
  {
    hide TxOk, RxOk, Sorted, Ahead, Behind;
  }

  lemma ProcessCfg(s: Peer, p: Packet, env: Env)
    ensures Process(s, p, env).0.cfg == s.cfg
  {
    hide HydraInit.WindowsRead, Negotiated, Value, Window, Shrunk, Ladder;
    ProcessRx(s, p, env);
    hide Process;
  }

  ghost predicate Answered(p: Packet, o: seq<Flight>) {
    && NoFwd(o)
    && if p.Finfo? then |o| == 1 && o[0].pkt.FinfoAck? && o[0].pkt.k == p.k else forall f | f in o :: !f.pkt.FinfoAck?
  }

  lemma FinfoAnswered(s: Peer, p: Packet, env: Env)
    requires p.Finfo?
    ensures Answered(p, OnFinfo(s, p, env).out)
  {
    hide NewFile;
  }

  lemma DataAnswered(s: Peer, p: Packet, env: Env)
    ensures p.Data? ==> Answered(p, OnData(s, p, env).out)
    ensures p.Eof? ==> Answered(p, OnEof(s, p, env).out)
  {
  }

  lemma OthersAnswered(s: Peer, p: Packet, env: Env)
    requires !p.Finfo? && !p.Data? && !p.Eof?
    ensures Answered(p, Handle(s, p, env).out)
  {
    hide HydraInit.WindowsRead, Negotiated, Value, Window, Shrunk, Ladder;
  }

  /** What is sent in answer to a packet. */
  lemma Answers(s: Peer, p: Packet, env: Env)
    ensures var o := Process(s, p, env).1;
            && NoFwd(o)
            && (if p.Finfo? then |o| == 1 && o[0].pkt.FinfoAck? && o[0].pkt.k == p.k
              else forall f | f in o :: !f.pkt.FinfoAck?)
  {
    hide Process, OnInit, OnFinfo, OnData, OnEof, OnRpos, OnEnd, OnFinfoAck, OnDataAck, OnStart, OnInitAck, OnEofAck,
         OnIdle;
    ProcessRx(s, p, env);
    if p.Finfo? {
      FinfoAnswered(s, p, env);
    } else if p.Data? || p.Eof? {
      DataAnswered(s, p, env);
    } else {
      hide Handle;
      OthersAnswered(s, p, env);
    }
  }

  /** The transmitter's side of a received packet. */
  lemma ReceiveAsTx(s: Peer, env: Env, rx: Rx, out: seq<Flight>, back: seq<Flight>, pl: Plan)
    requires pl.files == s.cfg.files && PlanOk(pl) && |back| > 0 && Current(back[0].pkt, s.tx, pl)
    requires Dir(s.tx, pl, rx, out, back)
    ensures var (t, o) := Process(s, back[0].pkt, env); Dir(t.tx, pl, rx, out + o, back[1..])
  {
    hide TxOk, RxOk, Ahead, Behind, Process, Low, PlanOk, Current;
    var pkt := back[0].pkt;
    var (t, o) := Process(s, pkt, env);
    assert back[0] in back;
    Answers(s, pkt, env);
    TxProcess(s, pkt, env, rx, pl);
    SortedRest(back, false);
    Subqueue(s.tx, pl, rx, out, back, back[1..]);
    forall f | f in back[1..] && IsReply(f.pkt) ensures Low(t.tx, pl) <= Rank(f.pkt) {
      BehindLow(f.pkt, s.tx, pl, rx);
    }
    TxChange(s.tx, t.tx, pl, rx, out, back[1..]);
    OtherTraffic(t.tx, pl, rx, out, o, back[1..]);
  }

  lemma BehindLow(p: Packet, tx: Tx, pl: Plan, rx: Rx)
    requires Behind(p, tx, pl, rx) && IsReply(p)
    ensures Low(tx, pl) <= Rank(p) <= rx.seen
  {
  }

  lemma AheadSeen(p: Packet, tx: Tx, pl: Plan, rx: Rx)
    requires Ahead(p, tx, pl, rx) && IsFwd(p)
    ensures rx.seen <= Rank(p) <= Top(tx)
  {
  }

  /** The receiver's side of a received packet; `back` carries its replies. */
  lemma ReceiveAsRx(s: Peer, env: Env, tx: Tx, pl: Plan, out: seq<Flight>, back: seq<Flight>)
    requires Dir(tx, pl, s.rx, out, back) && |out| > 0 && Settled(s, out[0].pkt, env)
    requires Matched(pl.files, pl.disk) && s.cfg.disk == pl.disk
    ensures var (t, o) := Process(s, out[0].pkt, env); Dir(tx, pl, t.rx, out[1..], back + o)
  {
    hide TxOk, RxOk, Ahead, Behind, Process, Settled, Matched;
    var pkt := out[0].pkt;
    var (t, o) := Process(s, pkt, env);
    assert out[0] in out;
    RxProcess(s, pkt, env, tx, pl);
    SortedRest(out, true);
    Subqueue(tx, pl, s.rx, out, back, out[1..]);
    forall f | f in out[1..] && IsFwd(f.pkt) ensures t.rx.seen <= Rank(f.pkt) {
      AheadSeen(f.pkt, tx, pl, s.rx);
    }
    RxChange(tx, pl, s.rx, t.rx, out[1..], back);
    Bounds(tx, pl, t.rx, back);
    SortedMore(back, o, false, t.rx.seen);
  }

  lemma SendAsTx(s: Peer, t: Peer, o: seq<Flight>, rx: Rx, out: seq<Flight>, back: seq<Flight>, pl: Plan)
    requires pl.files == s.cfg.files
    requires Dir(s.tx, pl, rx, out, back) && TxSends(s, t, o, rx, pl)
    ensures Dir(t.tx, pl, rx, out + o, back)
  {
    hide TxOk, RxOk, Ahead, Behind, Low, Top;
    forall f | f in back && IsReply(f.pkt) ensures Low(t.tx, pl) <= Rank(f.pkt) {
      BehindLow(f.pkt, s.tx, pl, rx);
    }
    assert TxForward(s.tx, t.tx);
    TxChange(s.tx, t.tx, pl, rx, out, back);
    Bounds(t.tx, pl, rx, out);
    SortedMore(out, o, true, Top(t.tx));
  }

  lemma StaysSends(s: Peer, t: Peer, o: seq<Flight>, rx: Rx, pl: Plan)
    requires pl.files == s.cfg.files
    requires TxOk(s.tx, pl, rx) && Stays(s.tx, t.tx) && NoFwd(o)
    ensures TxSends(s, t, o, rx, pl)
  {
    StaysStep(s.tx, t.tx, pl, rx, Idle);
  }

  lemma TurnShape(s: Peer, env: Env)
    requires ReadOk(s, env)
    ensures var (t, o) := Turn(s, env); NoReply(o) && t.rx == s.rx && t.cfg == s.cfg
  {
    hide Grown;
  }

  lemma DeviceStays(s: Peer, a: Action)
    ensures var (t, o) := DeviceTurn(s); Stays(s.tx, t.tx) && t.rx == s.rx && t.cfg == s.cfg && NoFwd(o) && NoReply(o)
    ensures var t := DeviceSend(s); Stays(s.tx, t.tx) && t.rx == s.rx && t.cfg == s.cfg
    ensures forall b :: var t := DeviceTimeout(s, b); Stays(s.tx, t.tx) && t.rx == s.rx && t.cfg == s.cfg
    ensures var t := Abort(s); Stays(s.tx, t.tx) && t.rx == s.rx && t.cfg == s.cfg
  {
  }

  // ----- tokens ------------------------------------------------------------------------------

  lemma {:induction false} TokensMore(q: seq<Flight>, o: seq<Flight>, disk: seq<Decision>, fwd: bool)
    ensures Tokens(q + o, disk, fwd) == Tokens(q, disk, fwd) + Tokens(o, disk, fwd)
    decreases |q|
  {
    hide Token;
    if q == [] {
      assert q + o == o;
    } else {
      assert (q + o)[1..] == q[1..] + o;
      TokensMore(q[1..], o, disk, fwd);
    }
  }

  lemma {:induction false} TokensNone(q: seq<Flight>, disk: seq<Decision>, fwd: bool)
    ensures Tokens(q, disk, fwd) == 0 <==> forall f | f in q :: !Token(f.pkt, disk, fwd)
    decreases |q|
  {
    hide Token;
    if q != [] {
      TokensNone(q[1..], disk, fwd);
      assert forall f :: f in q <==> f == q[0] || f in q[1..];
    }
  }

  lemma TokensOne(f: Flight, disk: seq<Decision>, fwd: bool)
    ensures Tokens([f], disk, fwd) == if Token(f.pkt, disk, fwd) then 1 else 0
  {
    hide Token;
    assert [f][1..] == [];
  }

  lemma TokensLess(q: seq<Flight>, i: nat, disk: seq<Decision>, fwd: bool)
    requires i < |q|
    ensures var r := q[..i] + q[i + 1..]; Tokens(r, disk, fwd) <= Tokens(q, disk, fwd) && forall f | f in r :: f in q
  {
    hide Token;
    var r := q[..i] + q[i + 1..];
    assert q == q[..i] + ([q[i]] + q[i + 1..]);
    TokensMore(q[..i], q[i + 1..], disk, fwd);
    TokensMore(q[..i], [q[i]] + q[i + 1..], disk, fwd);
    TokensMore([q[i]], q[i + 1..], disk, fwd);
  }

  /** The file the transmitter is at changes only when it is refused or done with. */
  lemma ProcessMoves(s: Peer, p: Packet, env: Env)
    ensures var t := Process(s, p, env).0.tx;
            || (t.cur == s.tx.cur && t.offers == s.tx.offers)
            || (&& t.cur == s.tx.cur + 1 && t.offers == 0
                && (|| (p.FinfoAck? && p.pos < 0 && Phase(s.tx.state) == 2 && HasFile(s))
                    || (p.EofAck? && Phase(s.tx.state) == 4)))
  {
    HandleIs(s, p, env);
    HandleMoves(s, p, env);
    var r := Handle(s, p, env);
    ActStays(r.peer, env);
    hide Act, Handle;
  }

  lemma HandleMoves(s: Peer, p: Packet, env: Env)
    ensures var r := Handle(s, p, env);
            && r.peer.tx.cur == s.tx.cur && r.peer.tx.offers == s.tx.offers
            && (r.outcome.Some? ==>
                  || (p.FinfoAck? && p.pos < 0 && Phase(s.tx.state) == 2 && HasFile(s))
                  || (p.EofAck? && Phase(s.tx.state) == 4))
  {
    HandleIs(s, p, env);
    if p.Rpos? {
      RposShape(s, p, env);
    } else if p.FinfoAck? || p.EofAck? {
      hide Handle;
    } else if p.InitAck? {
    } else {
      OtherPackets(s, p, env);
      hide Handle;
    }
  }

  lemma SingleReceives(s: Peer, env: Env, rx: Rx, out: seq<Flight>, back: seq<Flight>, pl: Plan)
    requires pl.files == s.cfg.files && PlanOk(pl) && |back| > 0 && Dir(s.tx, pl, rx, out, back)
             && Single(s.tx, pl, out, back)
    ensures Current(back[0].pkt, s.tx, pl)
    ensures var (t, o) := Process(s, back[0].pkt, env); Single(t.tx, pl, out + o, back[1..])
  {
    var pkt := back[0].pkt;
    var (t, o) := Process(s, pkt, env);
    var disk := pl.disk;
    assert back[0] in back && Behind(pkt, s.tx, pl, rx);
    Answers(s, pkt, env);
    ProcessMoves(s, pkt, env);
    hide Process;
    if pl.patient {
      assert forall f | f in o :: !Token(f.pkt, disk, true);
      TokensNone(o, disk, true);
      TokensMore(out, o, disk, true);
      if t.tx.cur == s.tx.cur + 1 {
        OneDone(s, pkt, rx, pl);
        hide Dir;
        TokensNone(out, disk, true);
        TokensNone(back, disk, false);
        TokensNone(back[1..], disk, false);
      }
    }
  }

  /** A patient sender goes on when a token has come back, or behind a file that is not
      refused. */
  lemma OneDone(s: Peer, pkt: Packet, rx: Rx, pl: Plan)
    requires pl.files == s.cfg.files && PlanOk(pl) && pl.patient && Current(pkt, s.tx, pl)
    requires TxOk(s.tx, pl, rx) && RxOk(s.tx, pl, rx) && Behind(pkt, s.tx, pl, rx)
    requires || (pkt.FinfoAck? && pkt.pos < 0 && Phase(s.tx.state) == 2 && HasFile(s))
             || (pkt.EofAck? && Phase(s.tx.state) == 4)
    ensures if pkt.FinfoAck? then Token(pkt, pl.disk, false) else !Refused(pl.disk, s.tx.cur)
  {
    if pkt.FinfoAck? {
      AnswerIsRight(pkt, s.tx, rx, pl);
    } else {
      assert Opened(rx, s.tx.cur);
      if s.tx.cur in rx.log {
        assert EntryOk(s.tx, pl, rx, s.tx.cur);
      }
    }
  }

  /** An offer that is answered hands its token on. */
  lemma SingleAnswers(s: Peer, env: Env, tx: Tx, out: seq<Flight>, back: seq<Flight>, pl: Plan)
    requires |out| > 0 && Single(tx, pl, out, back)
    ensures Single(tx, pl, out[1..], back + Process(s, out[0].pkt, env).1)
  {
    var (pkt, disk) := (out[0].pkt, pl.disk);
    var o := Process(s, pkt, env).1;
    Answers(s, pkt, env);
    hide Process;
    if pl.patient {
      assert out[0] in out;
      TokensMore(back, o, disk, false);
      if pkt.Finfo? {
        assert o == [o[0]];
        TokensOne(o[0], disk, false);
      } else {
        TokensNone(o, disk, false);
      }
    }
  }

  lemma SingleSends(s: Peer, env: Env, out: seq<Flight>, back: seq<Flight>, pl: Plan)
    requires ReadOk(s, env) && pl.files == s.cfg.files && Matched(pl.files, pl.disk) && Single(s.tx, pl, out, back)
    requires pl.patient && s.tx.state == TxFinfo && Refused(pl.disk, s.tx.cur) ==> s.tx.offers == 0
    ensures var (t, o) := Turn(s, env); Single(t.tx, pl, out + o, back)
  {
    var (t, o) := Turn(s, env);
    TurnOffers(s, env);
    hide Turn, ReadOk, Token;
    if pl.patient {
      TokensMore(out, o, pl.disk, true);
      if s.tx.state == TxFinfo {
        assert o == [o[0]];
        TokensOne(o[0], pl.disk, true);
        TokensNone(out, pl.disk, true);
        TokensNone(back, pl.disk, false);
        OfferToken(o[0].pkt, pl.disk);
      } else {
        NoOffer(o, pl.disk);
        TokensNone(o, pl.disk, true);
      }
    }
  }

  lemma OfferToken(p: Packet, disk: seq<Decision>)
    requires p.Finfo?
    ensures Token(p, disk, true) == Refused(disk, p.k)
  {
  }

  lemma NoOffer(o: seq<Flight>, disk: seq<Decision>)
    requires forall f | f in o :: !f.pkt.Finfo?
    ensures forall f | f in o :: !Token(f.pkt, disk, true)
  {
  }

  lemma TurnOffers(s: Peer, env: Env)
    requires ReadOk(s, env)
    ensures var (t, o) := Turn(s, env);
            && t.tx.cur == s.tx.cur
            && (if s.tx.state == TxFinfo then
              |o| == 1 && o[0].pkt.Finfo? && o[0].pkt.k == s.tx.cur && t.tx.offers == s.tx.offers + 1
                else t.tx.offers == s.tx.offers && forall f | f in o :: !f.pkt.Finfo?)
  {
    if s.tx.state == TxXData && s.tx.pos >= 0 && s.tx.open && HasFile(s) && env.read > 0 {
      GrownKeeps(s.tx.(pos := s.tx.pos + env.read), env.read, s.cfg.maxblklen);
    }
    hide Grown;
  }

  /** Packets of the other direction are no tokens of this one. */
  lemma SingleOther(tx: Tx, tx': Tx, pl: Plan, out: seq<Flight>, o: seq<Flight>, back: seq<Flight>)
    requires Single(tx, pl, out, back) && tx'.cur == tx.cur && tx'.offers == tx.offers
    ensures NoFwd(o) ==> Single(tx', pl, out + o, back)
    ensures NoReply(o) ==> Single(tx', pl, out, back + o)
  {
    TokensMore(out, o, pl.disk, true);
    TokensMore(back, o, pl.disk, false);
    TokensNone(o, pl.disk, true);
    TokensNone(o, pl.disk, false);
  }

  lemma SingleLoses(tx: Tx, pl: Plan, out: seq<Flight>, back: seq<Flight>, i: nat)
    requires Single(tx, pl, out, back)
    ensures i < |out| ==> Single(tx, pl, out[..i] + out[i + 1..], back)
    ensures i < |back| ==> Single(tx, pl, out, back[..i] + back[i + 1..])
  {
    if i < |out| {
      TokensLess(out, i, pl.disk, true);
    }
    if i < |back| {
      TokensLess(back, i, pl.disk, false);
    }
  }

  // ----- the direction from `p` to `q` ---------------------------------------------------------

  function FirstRefused(disk: seq<Decision>): (k: nat)
    ensures AcceptedBefore(disk, k)
  {
    if disk == [] || !disk[0].Accept? then 0 else
      var k := FirstRefused(disk[1..]);
      assert forall i | 0 < i <= k :: Refused(disk, i) == Refused(disk[1..], i - 1);
      assert k < |disk[1..]| ==> Refused(disk, k + 1);
      k + 1
  }

  function PlanOf(s: Link, patient: bool): Plan {
    Plan(s.p.cfg.files, s.q.cfg.disk, patient, FirstRefused(s.q.cfg.disk))
  }

  ghost predicate Safe(s: Link, patient: bool) {
    var pl := PlanOf(s, patient);
    PlanOk(pl) && Dir(s.p.tx, pl, s.q.rx, s.out, s.back) && Single(s.p.tx, pl, s.out, s.back)
  }

  lemma SenderMoves(s: Link, a: Action, patient: bool)
    requires Safe(s, patient) && Steady(s, a) && (patient ==> Patient(s, a))
    ensures Safe(Next(s, a), patient)
  {
    hide Dir, Single, Process, Turn, Timeout, ReadOk, Settled, PlanOk, Stays, TxSends, Matched;
    var (pl, t) := (PlanOf(s, patient), Next(s, a));
    match a {
      case Receive(env) =>
        ProcessCfg(s.p, s.back[0].pkt, env);
        SingleReceives(s.p, env, s.q.rx, s.out, s.back, pl);
        ReceiveAsTx(s.p, env, s.q.rx, s.out, s.back, pl);
      case TurnToSend(env) =>
        DirParts(s, pl);
        TurnOk(s.p, env, s.q.rx, pl);
        TurnShape(s.p, env);
        SendAsTx(s.p, t.p, Turn(s.p, env).1, s.q.rx, s.out, s.back, pl);
        SingleSends(s.p, env, s.out, s.back, pl);
      case TimesOut(env) =>
        TimeoutStays(s.p, env);
        SenderStays(s, t.p, Timeout(s.p, env).1, pl);
      case Loses(i) =>
        LossSafe(s, i, pl);
      case _ =>
        DeviceStays(s.p, a);
        SenderStays(s, t.p, if a.DeviceSends? then DeviceTurn(s.p).1 else [], pl);
        assert s.out + [] == s.out;
    }
  }

  lemma DirParts(s: Link, pl: Plan)
    requires Dir(s.p.tx, pl, s.q.rx, s.out, s.back) && PlanOk(pl)
    ensures TxOk(s.p.tx, pl, s.q.rx) && Matched(pl.files, pl.disk)
  {
    hide TxOk, Matched;
  }

  lemma SenderStays(s: Link, t: Peer, o: seq<Flight>, pl: Plan)
    requires pl.files == s.p.cfg.files && PlanOk(pl)
    requires Dir(s.p.tx, pl, s.q.rx, s.out, s.back) && Single(s.p.tx, pl, s.out, s.back)
    requires Stays(s.p.tx, t.tx) && NoFwd(o)
    ensures Dir(t.tx, pl, s.q.rx, s.out + o, s.back) && Single(t.tx, pl, s.out + o, s.back)
  {
    DirParts(s, pl);
    hide Dir, Single, PlanOk, TxOk, TxSends;
    StaysSends(s.p, t, o, s.q.rx, pl);
    SendAsTx(s.p, t, o, s.q.rx, s.out, s.back, pl);
    SingleOther(s.p.tx, t.tx, pl, s.out, o, s.back);
  }

  lemma LossSafe(s: Link, i: nat, pl: Plan)
    requires Dir(s.p.tx, pl, s.q.rx, s.out, s.back) && Single(s.p.tx, pl, s.out, s.back) && i < |s.out|
    ensures var r := s.out[..i] + s.out[i + 1..];
            Dir(s.p.tx, pl, s.q.rx, r, s.back) && Single(s.p.tx, pl, r, s.back)
  {
    hide TxOk, RxOk, Ahead, Behind, Sorted, Single;
    SortedLoss(s.out, true, i);
    Subqueue(s.p.tx, pl, s.q.rx, s.out, s.back, s.out[..i] + s.out[i + 1..]);
    SingleLoses(s.p.tx, pl, s.out, s.back, i);
  }

  lemma ReplyLost(s: Link, i: nat, pl: Plan)
    requires Dir(s.p.tx, pl, s.q.rx, s.out, s.back) && Single(s.p.tx, pl, s.out, s.back) && i < |s.back|
    ensures var r := s.back[..i] + s.back[i + 1..];
            Dir(s.p.tx, pl, s.q.rx, s.out, r) && Single(s.p.tx, pl, s.out, r)
  {
    hide TxOk, RxOk, Ahead, Behind, Sorted, Single;
    SortedLoss(s.back, false, i);
    Subqueue(s.p.tx, pl, s.q.rx, s.out, s.back, s.back[..i] + s.back[i + 1..]);
    SingleLoses(s.p.tx, pl, s.out, s.back, i);
  }

  lemma OtherSide(s: Link, o: seq<Flight>, pl: Plan)
    requires Dir(s.p.tx, pl, s.q.rx, s.out, s.back) && Single(s.p.tx, pl, s.out, s.back) && NoReply(o)
    ensures Dir(s.p.tx, pl, s.q.rx, s.out, s.back + o) && Single(s.p.tx, pl, s.out, s.back + o)
  {
    hide Dir, Single;
    OtherTraffic(s.p.tx, pl, s.q.rx, s.out, o, s.back);
    SingleOther(s.p.tx, s.p.tx, pl, s.out, o, s.back);
  }

  /** A step of `q`, the receiver of this direction. */
  lemma ReceiverMoves(s: Link, a: Action, patient: bool)
    requires Safe(s, patient) && Steady(Swap(s), a)
    ensures Safe(Swap(Next(Swap(s), a)), patient)
  {
    var (pl, t) := (PlanOf(s, patient), Swap(Next(Swap(s), a)));
    DirParts(s, pl);
    hide Dir, Single, Process, Turn, Timeout, ReadOk, Settled, PlanOk, Stays, TxOk, Matched;
    match a {
      case Receive(env) =>
        ProcessCfg(s.q, s.out[0].pkt, env);
        ReceiveAsRx(s.q, env, s.p.tx, pl, s.out, s.back);
        SingleAnswers(s.q, env, s.p.tx, s.out, s.back, pl);
      case TurnToSend(env) =>
        TurnShape(s.q, env);
        OtherSide(s, Turn(s.q, env).1, pl);
      case TimesOut(env) =>
        TimeoutStays(s.q, env);
        OtherSide(s, Timeout(s.q, env).1, pl);
      case Loses(i) =>
        ReplyLost(s, i, pl);
      case _ =>
        DeviceStays(s.q, a);
        OtherSide(s, if a.DeviceSends? then DeviceTurn(s.q).1 else [], pl);
        assert s.back + [] == s.back;
    }
  }

  lemma StartSafe(s: Link, patient: bool)
    requires Opening(s) && PlanOk(PlanOf(s, patient))
    ensures Safe(s, patient)
  {
  }

  ghost predicate SteadySafe(s: Link) { Safe(s, false) }

  ghost predicate PatientSafe(s: Link) { Safe(s, true) }

  lemma SteadyKeeps(s: Link, t: Link)
    requires SteadySafe(s) && SteadyStep(s, t)
    ensures SteadySafe(t)
  {
    hide Safe, Next, Possible, Settled;
    if a :| Steady(s, a) && t == Next(s, a) {
      SenderMoves(s, a, false);
    } else {
      var a :| Steady(Swap(s), a) && t == Swap(Next(Swap(s), a));
      ReceiverMoves(s, a, false);
    }
  }

  lemma PatientKeeps(s: Link, t: Link)
    requires PatientSafe(s) && PatientStep(s, t)
    ensures PatientSafe(t)
  {
    hide Safe, Next, Possible, Settled;
    if a :| Patient(s, a) && t == Next(s, a) {
      SenderMoves(s, a, true);
    } else {
      var a :| Patient(Swap(s), a) && t == Swap(Next(Swap(s), a));
      ReceiverMoves(s, a, true);
    }
  }

  // ----- the main results --------------------------------------------------------------------------

  /** What a state promises about the batch `tx` sends and `rx` receives. */
  ghost predicate Delivered(tx: Tx, files: seq<File>, rx: Rx) {
    // the file being received is a prefix of the file it is named after
    && (rx.state == RxData && rx.pos >= 0 ==>
        && rx.offer < |files| && rx.name == files[rx.offer].name
        && rx.pos == |rx.data| && rx.data <= files[rx.offer].data)
    // a file is closed by its own end of file, and what is stored is the sender's
    && (forall k | k in rx.log ::
          k < |files| && rx.log[k].from == k && (rx.log[k].file.Some? ==> rx.log[k].file.value == files[k]))
    // whatever is reported as sent is stored, whole and under its name
    && |tx.results| <= |files|
    && (forall k: nat | k < |tx.results| && tx.results[k] == Sent ::
          k in rx.log && rx.log[k] == Entry(Some(files[k]), k))
  }

  lemma SafeDelivers(s: Link, patient: bool)
    requires Safe(s, patient)
    ensures Delivered(s.p.tx, s.p.cfg.files, s.q.rx)
  {
    var pl := PlanOf(s, patient);
    forall k | k in s.q.rx.log
      ensures k < |pl.files| && s.q.rx.log[k].from == k
              && (s.q.rx.log[k].file.Some? ==> s.q.rx.log[k].file.value == pl.files[k])
    {
      assert EntryOk(s.p.tx, pl, s.q.rx, k);
    }
  }

  /** Batches in which no file is refused before one that is accepted, but for the last. */
  predicate Tame(disk: seq<Decision>) {
    forall i, j | 0 <= i < j && j + 1 < |disk| && Refused(disk, i) :: Refused(disk, j)
  }

  /** Transfer safety of a tame batch, in every reachable state. */
  lemma TransferSafety(s: Link, t: Link)
    requires Opening(s) && Matched(s.p.cfg.files, s.q.cfg.disk) && Tame(s.q.cfg.disk) && Reaches(SteadyStep, s, t)
    ensures Delivered(t.p.tx, t.p.cfg.files, t.q.rx)
  {
    hide Opening, Safe, SteadyStep, Matched, Delivered, Reaches;
    TameOk(s);
    StartSafe(s, false);
    forall a, b | SteadySafe(a) && SteadyStep(a, b) ensures SteadySafe(b) {
      SteadyKeeps(a, b);
    }
    Keeps(SteadyStep, SteadySafe, s, t);
    SafeDelivers(t, false);
  }

  lemma TameOk(s: Link)
    requires Matched(s.p.cfg.files, s.q.cfg.disk)
    ensures PlanOk(PlanOf(s, true)) && (Tame(s.q.cfg.disk) ==> PlanOk(PlanOf(s, false)))
  {
  }

  /** Transfer safety of every batch, whichever files are refused, as long as a refused
      file is offered once only. */
  lemma PatientSafety(s: Link, t: Link)
    requires Opening(s) && Matched(s.p.cfg.files, s.q.cfg.disk) && Reaches(PatientStep, s, t)
    ensures Delivered(t.p.tx, t.p.cfg.files, t.q.rx)
  {
    hide Opening, Safe, PatientStep, Matched, Delivered, Reaches;
    TameOk(s);
    StartSafe(s, true);
    forall a, b | PatientSafe(a) && PatientStep(a, b) ensures PatientSafe(b) {
      PatientKeeps(a, b);
    }
    Keeps(PatientStep, PatientSafe, s, t);
    SafeDelivers(t, true);
  }
}
