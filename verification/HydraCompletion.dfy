/** Over lines that lose nothing, and without any timeout, a HYDRA session comes to its
    end: both sides agree on the link, every file of both batches that is not refused
    is stored whole, every one is reported as what became of it, and both sides
    complete. */
module HydraCompletion {
  import opened HydraOptions
  import opened HydraPeer
  import opened HydraLink
  import opened Maybe
  import opened Reachability
  import HydraInit
  import HydraSession

  // ----- runs ---------------------------------------------------------------------

  /** Nothing fails, and a file is what it is on the receiver's disk. */
  function At(p: Peer, pkt: Packet): Env {
    Env(if pkt.Finfo? && pkt.k < |p.cfg.disk| then p.cfg.disk[pkt.k] else Refuse, true, true, 0, false, false, false)
  }

  function Reading(i: nat): Env { Env(Refuse, true, true, i, false, false, false) }

  lemma Ours(s: Link, a: Action)
    requires Smooth(s, a)
    ensures Reaches(SmoothStep, s, Next(s, a))
  {
    hide Process, Turn, Timeout, DeviceTurn, Settled, ReadOk;
    assert SmoothStep(s, Next(s, a));
    One(SmoothStep, s, Next(s, a));
  }

  lemma Theirs(s: Link, a: Action)
    requires Smooth(Swap(s), a)
    ensures Reaches(SmoothStep, s, Swap(Next(Swap(s), a)))
  {
    hide Process, Turn, Timeout, DeviceTurn, Settled, ReadOk;
    assert SmoothStep(s, Swap(Next(Swap(s), a)));
    One(SmoothStep, s, Swap(Next(Swap(s), a)));
  }

  lemma StepSwapped(s: Link, t: Link)
    requires SmoothStep(s, t)
    ensures SmoothStep(Swap(s), Swap(t))
  {
    hide Process, Turn, Timeout, DeviceTurn, Settled, ReadOk;
    assert Swap(Swap(s)) == s && Swap(Swap(t)) == t;
    if a :| Smooth(s, a) && t == Next(s, a) {
      assert Smooth(Swap(Swap(s)), a) && Swap(t) == Swap(Next(Swap(Swap(s)), a));
    } else {
      var a :| Smooth(Swap(s), a) && t == Swap(Next(Swap(s), a));
      assert Swap(t) == Next(Swap(s), a);
    }
  }

  lemma ReachesSwapped(s: Link, t: Link)
    requires Reaches(SmoothStep, s, t)
    ensures Reaches(SmoothStep, Swap(s), Swap(t))
  {
    hide SmoothStep, Swap;
    var a: seq<Link> :| Path(SmoothStep, a, s, t);
    var b := seq(|a|, i requires 0 <= i < |a| => Swap(a[i]));
    forall i | 0 < i < |b| ensures SmoothStep(b[i - 1], b[i]) {
      StepSwapped(a[i - 1], a[i]);
    }
    assert Path(SmoothStep, b, Swap(s), Swap(t));
  }

  /** A run without losses is a run. */
  lemma SmoothIsSteady(s: Link, t: Link)
    requires Reaches(SmoothStep, s, t)
    ensures Reaches(SteadyStep, s, t) && Reaches(Step, s, t)
  {
    hide Reaches, Process, Turn, Timeout, DeviceTurn, Settled, ReadOk, Next;
    Larger(SmoothStep, SteadyStep, s, t);
    Larger(SmoothStep, Step, s, t);
  }

  // ----- one direction ----------------------------------------------------------------

  /** Nothing is under way, and only `p` has something to send. */
  predicate Calm(s: Link) {
    && s.out == [] && s.back == []
    && !s.p.hdxlink && !s.q.hdxlink && s.p.dev == DevDone && s.q.dev == DevDone
    && (s.q.tx.state == TxFinfo || s.q.tx.state == TxREnd)
    && (s.p.tx.window != 0 ==> s.q.rx.window != 0)
    && HydraSession.BlocksOk(s.p.tx, s.p.cfg.maxblklen)
  }

  /** What a transfer from `p` to `q` leaves alone. */
  predicate Same(s: Link, t: Link) {
    && t.p == s.p.(tx := t.p.tx) && t.q == s.q.(rx := t.q.rx)
    && t.p.tx.window == s.p.tx.window && t.q.rx.window == s.q.rx.window
  }

  /** Every file of the first `k` that is not refused is there, and nothing else. */
  predicate Stored(files: seq<File>, disk: seq<Decision>, k: nat, log: map<nat, Entry>)
    requires k <= |files|
  {
    && (forall i | i in log :: i < k && !Refused(disk, i))
    && (forall i: nat | i < k && !Refused(disk, i) :: i in log && log[i] == Entry(Some(files[i]), i))
  }

  function Becomes(d: Decision): Outcome { match d case Accept(_) => Sent case Already => Have case Refuse => Skipped }

  predicate AllReported(disk: seq<Decision>, results: seq<Outcome>) {
    |results| <= |disk| && forall i | 0 <= i < |results| :: results[i] == Becomes(disk[i])
  }

  /** `k` files are through. */
  predicate Through(s: Link, k: nat) {
    && k <= |s.p.cfg.files| && s.p.tx.cur == k == |s.p.tx.results| && AllReported(s.q.cfg.disk, s.p.tx.results)
    && s.p.tx.open == (k < |s.p.cfg.files|) && Stored(s.p.cfg.files, s.q.cfg.disk, k, s.q.rx.log)
    && Matched(s.p.cfg.files, s.q.cfg.disk)
  }

  predicate Ready(s: Link, k: nat) {
    Calm(s) && Through(s, k) && s.p.tx.state == TxFinfo && s.q.rx.state == RxFinfo && s.p.tx.retries == 0
  }

  // offering a file

  function Offer(p: Peer, k: nat): Flight
    requires k < |p.cfg.files|
  {
    Flight(Finfo(Some(p.cfg.files[k].name), k), p.txoptions)
  }

  lemma Offers(s: Link, k: nat) returns (t: Link)
    requires s.p.tx.state == TxFinfo && s.p.tx.cur == k < |s.p.cfg.files|
    ensures Reaches(SmoothStep, s, t)
    ensures t == s.(p := s.p.(tx := s.p.tx.(state := TxFinfoAck, offers := s.p.tx.offers + 1)),
            out := s.out + [Offer(s.p, k)])
  {
    Ours(s, TurnToSend(Reading(0)));
    t := Next(s, TurnToSend(Reading(0)));
  }

  /** What the receiver makes of an offer. */
  function Taken(rx: Rx, name: string, k: nat, d: Decision): Rx {
    match d
    case Already => rx.(seen := 2 * k, pos := -1)
    case Refuse => rx.(seen := 2 * k, pos := -2)
    case Accept(resume) =>
      rx.(seen := 2 * k, open := true, name := name, data := resume, pos := |resume|,
          timer := false, retries := 0, lastsync := 0, syncid := 0, state := RxData, offer := k)
  }

  lemma AnswersOffer(s: Link, f: Flight, k: nat) returns (t: Link)
    requires |s.out| > 0 && s.out[0] == f && f.pkt.Finfo? && f.pkt.name.Some? && f.pkt.k == k < |s.q.cfg.disk|
    requires s.q.rx.state == RxFinfo
    requires s.q.tx.state == TxFinfo || s.q.tx.state == TxREnd || s.q.tx.state == TxXWait
    ensures Reaches(SmoothStep, s, t)
    ensures t.p == s.p && t.q == s.q.(rx := Taken(s.q.rx, f.pkt.name.value, k, s.q.cfg.disk[k])) && t.out == s.out[1..]
    ensures t.back == s.back + [Flight(FinfoAck(t.q.rx.pos, k), s.q.txoptions)]
  {
    var a := Receive(At(s.q, f.pkt));
    Theirs(s, a);
    t := Swap(Next(Swap(s), a));
  }

  lemma Begins(s: Link, f: Flight, pos: nat) returns (t: Link)
    requires |s.back| > 0 && s.back[0] == f && f.pkt.FinfoAck? && f.pkt.pos == pos && Asking(s.p.tx.state)
             && HasFile(s.p)
    requires !s.p.hdxlink || s.p.rx.state == RxDone
    ensures Reaches(SmoothStep, s, t)
    ensures t == s.(p := s.p.(tx := s.p.tx.(retries := 0, lastack := pos, pos := pos, state := TxXData)),
            back := s.back[1..])
  {
    Ours(s, Receive(At(s.p, f.pkt)));
    t := Next(s, Receive(At(s.p, f.pkt)));
  }

  predicate Asking(t: TxState) { t == TxFinfo || t == TxFinfoAck }

  lemma MovesOn(s: Link, f: Flight) returns (t: Link)
    requires |s.back| > 0 && s.back[0] == f && f.pkt.FinfoAck? && f.pkt.pos < 0 && Asking(s.p.tx.state) && HasFile(s.p)
    ensures Reaches(SmoothStep, s, t)
    ensures t == s.(p := s.p.(tx := t.p.tx), back := s.back[1..])
    ensures t.p.tx == s.p.tx.(state := TxFinfo, retries := 0, pos := f.pkt.pos, cur := s.p.tx.cur + 1, offers := 0,
                              open := s.p.tx.cur + 1 < |s.p.cfg.files|, syncid := t.p.tx.syncid,
                              results := s.p.tx.results + [if f.pkt.pos == -1 then Have else Skipped])
  {
    Ours(s, Receive(At(s.p, f.pkt)));
    t := Next(s, Receive(At(s.p, f.pkt)));
  }

  // a block

  /** The two sides are at byte `n` of what is being transferred. */
  predicate Flowing(s: Link, n: nat) {
    && Calm(s) && HasFile(s.p) && s.p.tx.state == TxXData && s.p.tx.open && s.q.rx.state == RxData
    && s.p.tx.pos == n && s.p.tx.lastack <= n && s.q.rx.pos == n && (s.p.tx.window != 0 ==> s.p.tx.lastack == n)
  }

  /** The bytes of the file from `n` on that have gone over since. */
  predicate Flown(s: Link, t: Link, n: nat, m: nat)
    requires HasFile(s.p) && n <= m
  {
    && Same(s, t) && t.p.tx.cur == s.p.tx.cur && t.p.tx.results == s.p.tx.results && t.p.tx.open == s.p.tx.open
    && t.q.rx.name == s.q.rx.name && t.q.rx.offer == s.q.rx.offer && t.q.rx.log == s.q.rx.log
    && t.q.rx.data == s.q.rx.data + Bytes(s.p, n, m)
  }

  function Bytes(p: Peer, n: nat, m: nat): seq<byte>
    requires HasFile(p) && n <= m
  {
    var d := p.cfg.files[p.tx.cur].data;
    if m <= |d| then d[n..m] else if n <= |d| then d[n..] else []
  }

  /** The transmitter after a block of `i` bytes. */
  predicate SentBlock(a: Tx, b: Tx, n: nat, i: nat, max: nat) {
    && b == a.(state := b.state, pos := n + i, blklen := b.blklen, goodbytes := b.goodbytes, goodneeded := b.goodneeded)
    && b.state == (if a.window != 0 && n + i >= a.lastack + a.window then TxDataAck else TxXData)
    && HydraSession.BlocksOk(b, max)
  }

  lemma BlockGrown(a: Tx, n: nat, i: nat, max: nat)
    requires HydraSession.BlocksOk(a, max) && a.state == TxXData && i <= MAXBLKLEN
    ensures var t := Grown(a.(pos := n + i), i, max);
            SentBlock(a, if t.window != 0 && t.pos >= t.lastack + t.window then t.(state := TxDataAck)
              else t, n, i, max)
  {
    HydraSession.BlocksSame(a.(pos := n + i), a, max);
    HydraSession.GrownBounds(a.(pos := n + i), i, max);
    var t := Grown(a.(pos := n + i), i, max);
    assert t == a.(pos := n + i, blklen := t.blklen, goodbytes := t.goodbytes, goodneeded := t.goodneeded);
    HydraSession.BlocksSame(t.(state := TxDataAck), t, max);
    hide Grown, HydraSession.BlocksOk;
  }

  lemma SendsBlock(s: Link, n: nat, i: nat) returns (t: Link)
    requires Flowing(s, n) && 1 <= i && n + i <= |s.p.cfg.files[s.p.tx.cur].data| && i <= s.p.tx.blklen <= MAXBLKLEN
    ensures Reaches(SmoothStep, s, t)
    ensures t.p == s.p.(tx := t.p.tx) && SentBlock(s.p.tx, t.p.tx, n, i, s.p.cfg.maxblklen) && t.q == s.q
            && t.back == []
    ensures t.out == [Flight(Data(n, Bytes(s.p, n, n + i), s.p.tx.cur), s.p.txoptions)]
  {
    hide HydraSession.BlocksOk, Grown;
    Ours(s, TurnToSend(Reading(i)));
    t := Next(s, TurnToSend(Reading(i)));
    BlockGrown(s.p.tx, n, i, s.p.cfg.maxblklen);
  }

  lemma StoresBlock(s: Link, f: Flight, n: nat, k: nat) returns (t: Link)
    requires |s.out| > 0 && s.out[0] == f && f.pkt.Data? && f.pkt.pos == n == s.q.rx.pos && f.pkt.k == k
    requires s.q.rx.state == RxData && !s.q.hdxlink && (s.q.tx.state == TxFinfo || s.q.tx.state == TxREnd)
    ensures Reaches(SmoothStep, s, t)
    ensures t.p == s.p && t.q == s.q.(rx := t.q.rx) && t.out == s.out[1..]
    ensures t.q.rx == s.q.rx.(seen := 2 * k + 1, blklen := Word(|f.pkt.bytes|), retries := 0, timer := false,
            lastsync := n,
                              pos := n + |f.pkt.bytes|, data := s.q.rx.data + f.pkt.bytes)
    ensures t.back == s.back + if s.q.rx.window != 0 then [Flight(DataAck(n + |f.pkt.bytes|, k), s.q.txoptions)] else []
  {
    hide Word;
    Theirs(s, Receive(At(s.q, f.pkt)));
    t := Swap(Next(Swap(s), Receive(At(s.q, f.pkt))));
  }

  lemma HearsAck(s: Link, f: Flight, n: nat, k: nat) returns (t: Link)
    requires s.back == [f] && f.pkt == DataAck(n, k) && s.p.tx.pos == n && s.p.tx.lastack < n && !s.p.hdxlink
    requires s.p.tx.state == TxXData || (s.p.tx.state == TxDataAck && s.p.tx.window != 0)
    ensures Reaches(SmoothStep, s, t)
    ensures t == s.(p := s.p.(tx := t.p.tx), back := [])
    ensures t.p.tx == s.p.tx.(state := TxXData, retries := t.p.tx.retries, lastack := if s.p.tx.window != 0 then n
            else s.p.tx.lastack)
  {
    assert s.back[1..] == [];
    Ours(s, Receive(At(s.p, f.pkt)));
    t := Next(s, Receive(At(s.p, f.pkt)));
  }

  lemma BlockGoes(s: Link, n: nat) returns (t: Link, n': nat)
    requires Flowing(s, n) && n < |s.p.cfg.files[s.p.tx.cur].data|
    ensures n < n' <= |s.p.cfg.files[s.p.tx.cur].data|
    ensures Reaches(SmoothStep, s, t) && Flowing(t, n') && Flown(s, t, n, n')
  {
    hide Reaches, Word;
    var left := |s.p.cfg.files[s.p.tx.cur].data| - n;
    var i: nat := if left < s.p.tx.blklen then left else s.p.tx.blklen;
    assert 1 <= s.p.tx.blklen <= MAXBLKLEN;
    hide HydraSession.BlocksOk;
    n' := n + i;
    var a := SendsBlock(s, n, i);
    var b := StoresBlock(a, a.out[0], n, s.p.tx.cur);
    Onward(SmoothStep, s, a, b);
    if s.q.rx.window == 0 {
      t := b;
    } else {
      t := HearsAck(b, b.back[0], n', s.p.tx.cur);
      Onward(SmoothStep, s, b, t);
    }
    HydraSession.BlocksSame(t.p.tx, a.p.tx, s.p.cfg.maxblklen);
  }

  /** All of what is left of the file. */
  lemma {:induction false} BlocksGo(s: Link, n: nat) returns (t: Link, m: nat)
    requires Flowing(s, n)
    ensures n <= m && |s.p.cfg.files[s.p.tx.cur].data| <= m
    ensures n <= |s.p.cfg.files[s.p.tx.cur].data| ==> m == |s.p.cfg.files[s.p.tx.cur].data|
    ensures Reaches(SmoothStep, s, t) && Flowing(t, m) && Flown(s, t, n, m)
    decreases |s.p.cfg.files[s.p.tx.cur].data| - n
  {
    hide Reaches, Calm;
    if |s.p.cfg.files[s.p.tx.cur].data| <= n {
      Here(SmoothStep, s);
      t, m := s, n;
    } else {
      var a, n' := BlockGoes(s, n);
      t, m := BlocksGo(a, n');
      Onward(SmoothStep, s, a, t);
      FlownOn(s, a, t, n, n', m);
    }
  }

  lemma FlownOn(s: Link, t: Link, u: Link, n: nat, m: nat, k: nat)
    requires HasFile(s.p) && n <= m <= k == |s.p.cfg.files[s.p.tx.cur].data|
    requires Flown(s, t, n, m) && HasFile(t.p) && Flown(t, u, m, k)
    ensures Flown(s, u, n, k)
  {
    assert Bytes(s.p, n, m) + Bytes(s.p, m, k) == Bytes(s.p, n, k);
  }

  // the end of a file

  lemma SendsEof(s: Link, n: nat) returns (t: Link)
    requires Flowing(s, n) && |s.p.cfg.files[s.p.tx.cur].data| <= n
    ensures Reaches(SmoothStep, s, t)
    ensures t == s.(p := s.p.(tx := s.p.tx.(state := TxEofAck)), out := [Flight(Eof(n, s.p.tx.cur), s.p.txoptions)])
  {
    hide HydraSession.BlocksOk;
    Ours(s, TurnToSend(Reading(0)));
    t := Next(s, TurnToSend(Reading(0)));
  }

  lemma ClosesFile(s: Link, f: Flight, k: nat) returns (t: Link)
    requires s.out == [f] && s.back == [] && f.pkt == Eof(s.q.rx.pos, k) && s.q.rx.pos >= 0
    requires s.q.rx.state == RxData && !s.q.hdxlink && (s.q.tx.state == TxFinfo || s.q.tx.state == TxREnd)
    ensures Reaches(SmoothStep, s, t)
    ensures t.p == s.p && t.q == s.q.(rx := t.q.rx) && t.out == []
    ensures t.q.rx == Ended(s.q.rx.(seen := 2 * k + 1), Some(File(s.q.rx.name, s.q.rx.data)), k)
    ensures t.back == [Flight(EofAck(k), s.q.txoptions)]
  {
    assert s.out[1..] == [];
    Theirs(s, Receive(At(s.q, f.pkt)));
    t := Swap(Next(Swap(s), Receive(At(s.q, f.pkt))));
  }

  lemma HearsEofAck(s: Link, f: Flight, k: nat) returns (t: Link)
    requires s.back == [f] && f.pkt == EofAck(k) && s.p.tx.state == TxEofAck && s.p.tx.open
    ensures Reaches(SmoothStep, s, t)
    ensures t == s.(p := s.p.(tx := t.p.tx), back := [])
    ensures t.p.tx == s.p.tx.(state := TxFinfo, retries := 0, cur := s.p.tx.cur + 1, results := s.p.tx.results + [Sent],
                              open := s.p.tx.cur + 1 < |s.p.cfg.files|, syncid := t.p.tx.syncid, offers := 0)
  {
    assert s.back[1..] == [];
    Ours(s, Receive(At(s.p, f.pkt)));
    t := Next(s, Receive(At(s.p, f.pkt)));
  }

  /** What is left of the file goes over and the receiver closes whatever it has open. */
  lemma RestGoes(s: Link, n: nat) returns (t: Link, m: nat)
    requires Flowing(s, n)
    ensures n <= m && (n <= |s.p.cfg.files[s.p.tx.cur].data| ==> m == |s.p.cfg.files[s.p.tx.cur].data|)
    ensures Reaches(SmoothStep, s, t) && Calm(t) && Same(s, t) && t.p.tx.state == TxFinfo && t.q.rx.state == RxFinfo
    ensures t.p.tx.cur == s.p.tx.cur + 1 && t.p.tx.results == s.p.tx.results + [Sent]
    ensures t.p.tx.open == (t.p.tx.cur < |s.p.cfg.files|) && t.p.tx.retries == 0
    ensures t.q.rx.log == s.q.rx.log[s.q.rx.offer := Entry(Some(File(s.q.rx.name, s.q.rx.data + Bytes(s.p, n, m))),
            s.p.tx.cur)]
  {
    hide Reaches, HydraSession.BlocksOk, Bytes;
    var a;
    a, m := BlocksGo(s, n);
    var b := SendsEof(a, m);
    var c := ClosesFile(b, b.out[0], s.p.tx.cur);
    t := HearsEofAck(c, c.back[0], s.p.tx.cur);
    HydraSession.BlocksSame(t.p.tx, a.p.tx, s.p.cfg.maxblklen);
    Onward(SmoothStep, s, a, b);
    Onward(SmoothStep, s, b, c);
    Onward(SmoothStep, s, c, t);
  }

  // ----- a file ----------------------------------------------------------------------------

  lemma FileGoes(s: Link, k: nat) returns (t: Link)
    requires Ready(s, k) && k < |s.p.cfg.files|
    ensures Reaches(SmoothStep, s, t) && Ready(t, k + 1) && Same(s, t)
  {
    hide Reaches, HydraSession.BlocksOk, Stored, AllReported;
    var a := Offers(s, k);
    assert a.out[1..] == [];
    var b := AnswersOffer(a, a.out[0], k);
    Onward(SmoothStep, s, a, b);
    HydraSession.BlocksSame(b.p.tx, s.p.tx, s.p.cfg.maxblklen);
    if s.q.cfg.disk[k].Accept? {
      t := FileSent(s, b, k);
    } else {
      t := FileSkipped(s, b, k);
    }
    Onward(SmoothStep, s, b, t);
  }

  /** The offer of file `k` has been answered. */
  predicate Answered(s: Link, b: Link, k: nat) {
    && Ready(s, k) && k < |s.p.cfg.files|
    && b.p == s.p.(tx := s.p.tx.(state := TxFinfoAck, offers := b.p.tx.offers))
    && b.q == s.q.(rx := Taken(s.q.rx, s.p.cfg.files[k].name, k, s.q.cfg.disk[k]))
    && b.out == [] && |b.back| == 1 && b.back[0].pkt == FinfoAck(b.q.rx.pos, k)
    && HydraSession.BlocksOk(b.p.tx, b.p.cfg.maxblklen)
  }

  lemma FileSent(s: Link, b: Link, k: nat) returns (t: Link)
    requires Answered(s, b, k) && s.q.cfg.disk[k].Accept?
    ensures Reaches(SmoothStep, b, t) && Ready(t, k + 1) && Same(s, t)
  {
    hide Reaches, HydraSession.BlocksOk, Stored, AllReported;
    var resume := s.q.cfg.disk[k].resume;
    var c := Begins(b, b.back[0], |resume|);
    HydraSession.BlocksSame(c.p.tx, b.p.tx, s.p.cfg.maxblklen);
    var m;
    t, m := RestGoes(c, |resume|);
    Onward(SmoothStep, b, c, t);
    assert resume + Bytes(c.p, |resume|, m) == s.p.cfg.files[k].data;
    StoredMore(s, t, k);
    ReportedMore(s, t, k, Sent);
  }

  lemma StoredMore(s: Link, t: Link, k: nat)
    requires k < |s.p.cfg.files| && Stored(s.p.cfg.files, s.q.cfg.disk, k, s.q.rx.log) && !Refused(s.q.cfg.disk, k)
    requires t.q.rx.log == s.q.rx.log[k := Entry(Some(s.p.cfg.files[k]), k)]
    ensures Stored(s.p.cfg.files, s.q.cfg.disk, k + 1, t.q.rx.log)
  {
  }

  lemma StoredSame(s: Link, k: nat)
    requires k < |s.p.cfg.files| && Stored(s.p.cfg.files, s.q.cfg.disk, k, s.q.rx.log) && Refused(s.q.cfg.disk, k)
    ensures Stored(s.p.cfg.files, s.q.cfg.disk, k + 1, s.q.rx.log)
  {
  }

  lemma ReportedMore(s: Link, t: Link, k: nat, o: Outcome)
    requires |s.p.tx.results| == k < |s.q.cfg.disk| && AllReported(s.q.cfg.disk, s.p.tx.results)
             && o == Becomes(s.q.cfg.disk[k])
    requires t.p.tx.results == s.p.tx.results + [o]
    ensures AllReported(s.q.cfg.disk, t.p.tx.results)
  {
  }

  lemma FileSkipped(s: Link, b: Link, k: nat) returns (t: Link)
    requires Answered(s, b, k) && !s.q.cfg.disk[k].Accept?
    ensures Reaches(SmoothStep, b, t) && Ready(t, k + 1) && Same(s, t)
  {
    hide Reaches, HydraSession.BlocksOk, Stored, AllReported;
    t := MovesOn(b, b.back[0]);
    HydraSession.BlocksSame(t.p.tx, b.p.tx, s.p.cfg.maxblklen);
    StoredSame(s, k);
    ReportedMore(s, t, k, Becomes(s.q.cfg.disk[k]));
  }

  lemma {:induction false} FilesGo(s: Link, k: nat, n: nat) returns (t: Link)
    requires Ready(s, k) && k <= n <= |s.p.cfg.files|
    ensures Reaches(SmoothStep, s, t) && Same(s, t) && Ready(t, n)
    decreases n - k
  {
    hide Reaches, Calm, Through;
    if k == n {
      Here(SmoothStep, s);
      t := s;
    } else {
      var a := FileGoes(s, k);
      t := FilesGo(a, k + 1, n);
      Onward(SmoothStep, s, a, t);
    }
  }

  // the end of a batch

  lemma OffersNothing(s: Link) returns (t: Link)
    requires Ready(s, |s.p.cfg.files|)
    ensures Reaches(SmoothStep, s, t)
    ensures t == s.(p := s.p.(tx := s.p.tx.(state := TxFinfoAck, offers := s.p.tx.offers + 1)),
            out := [Flight(Finfo(None, s.p.tx.cur), s.p.txoptions)])
  {
    hide HydraSession.BlocksOk, Stored, AllReported;
    Ours(s, TurnToSend(Reading(0)));
    t := Next(s, TurnToSend(Reading(0)));
  }

  lemma HearsNothing(s: Link, f: Flight) returns (t: Link)
    requires s.out == [f] && s.back == [] && f.pkt.Finfo? && f.pkt.name.None? && s.q.rx.state == RxFinfo
             && s.q.dev == DevDone
    requires s.q.tx.state == TxFinfo || s.q.tx.state == TxREnd
    ensures Reaches(SmoothStep, s, t)
    ensures t.p == s.p && t.out == [] && t.q == s.q.(rx := t.q.rx, tx := t.q.tx)
    ensures t.q.rx == s.q.rx.(seen := 2 * f.pkt.k, pos := 0, state := RxDone)
    ensures t.q.tx == if s.q.tx.state == TxREnd then s.q.tx.(retries := 0, state := TxEnd) else s.q.tx
    ensures t.back == [Flight(FinfoAck(0, f.pkt.k), s.q.txoptions)]
  {
    assert s.out[1..] == [];
    Theirs(s, Receive(Reading(0)));
    t := Swap(Next(Swap(s), Receive(Reading(0))));
  }

  lemma Rests(s: Link, f: Flight, k: nat) returns (t: Link)
    requires s.back == [f] && f.pkt == FinfoAck(0, k) && s.p.tx.state == TxFinfoAck && !HasFile(s.p)
             && s.p.dev == DevDone
    ensures Reaches(SmoothStep, s, t)
    ensures t == s.(p := s.p.(tx := s.p.tx.(retries := 0, state := if s.p.rx.state == RxDone then TxEnd else TxREnd)),
            back := [])
  {
    assert s.back[1..] == [];
    Ours(s, Receive(Reading(0)));
    t := Next(s, Receive(Reading(0)));
  }

  /** Every file of the batch that is not refused is stored, whole and under its name,
      and every one is reported as what became of it. */
  predicate Delivered(t: Link) {
    && |t.p.tx.results| == |t.p.cfg.files| && AllReported(t.q.cfg.disk, t.p.tx.results)
    && Stored(t.p.cfg.files, t.q.cfg.disk, |t.p.cfg.files|, t.q.rx.log)
  }

  /** `p` is through with its batch, and `q` knows. */
  predicate BatchOver(s: Link, t: Link) {
    && t.p == s.p.(tx := t.p.tx) && t.q == s.q.(rx := t.q.rx, tx := t.q.tx) && t.out == [] && t.back == []
    && Delivered(t)
    && t.p.tx.state == (if s.p.rx.state == RxDone then TxEnd else TxREnd)
    && t.q.rx.state == RxDone && t.q.rx.window == s.q.rx.window && t.p.tx.window == s.p.tx.window
    && t.q.tx == if s.q.tx.state == TxREnd then s.q.tx.(retries := 0, state := TxEnd) else s.q.tx
  }

  /** All of one side's batch. */
  lemma BatchGoes(s: Link) returns (t: Link)
    requires Ready(s, 0)
    ensures Reaches(SmoothStep, s, t) && BatchOver(s, t)
  {
    hide Reaches, AllReported, Stored, HydraSession.BlocksOk;
    var a := FilesGo(s, 0, |s.p.cfg.files|);
    var b := OffersNothing(a);
    Onward(SmoothStep, s, a, b);
    var c := HearsNothing(b, b.out[0]);
    Onward(SmoothStep, s, b, c);
    t := Rests(c, c.back[0], a.p.tx.cur);
    Onward(SmoothStep, s, c, t);
  }

  // ----- opening the session ------------------------------------------------------------

  lemma BitsGrow(a: Options, b: Options)
    requires And(a, b) == a
    ensures Bit(a.xonxoff, 0x001) <= Bit(b.xonxoff, 0x001)
    ensures Bit(a.telenet, 0x002) <= Bit(b.telenet, 0x002)
    ensures Bit(a.ctlchrs, 0x004) <= Bit(b.ctlchrs, 0x004)
    ensures Bit(a.highctl, 0x008) <= Bit(b.highctl, 0x008)
    ensures Bit(a.highbit, 0x010) <= Bit(b.highbit, 0x010)
    ensures Bit(a.canbrk, 0x020) <= Bit(b.canbrk, 0x020)
    ensures Bit(a.canasc, 0x040) <= Bit(b.canasc, 0x040)
    ensures Bit(a.canuue, 0x080) <= Bit(b.canuue, 0x080)
    ensures Bit(a.crc32, 0x100) <= Bit(b.crc32, 0x100)
    ensures Bit(a.device, 0x200) <= Bit(b.device, 0x200)
    ensures Bit(a.fpt, 0x400) <= Bit(b.fpt, 0x400)
  {
  }

  /** A bit map with every bit of another one is not the smaller number. */
  lemma ValueGrows(a: Options, b: Options)
    requires And(a, b) == a
    ensures Value(a) <= Value(b)
  {
    hide Bit, And;
    BitsGrow(a, b);
  }

  lemma Compatible(want: Options, b: Options)
    ensures var a := Wanted(want); Value(Negotiated(a, b, CAN)) >= Value(And(a, NECESSARY))
  {
    hide Value;
    ValueGrows(And(Wanted(want), NECESSARY), Negotiated(Wanted(want), b, CAN));
  }

  function Hello(c: Config): Packet { Init(c.options, c.txwindow, c.rxwindow) }

  /** A side after the INIT of a peer set up as `b`. */
  function Opened(p: Peer, b: Config, state: TxState): Peer {
    var o := HydraSession.Agreed(p.cfg, b);
    p.(rxoptions := o, txoptions := o,
       rx := p.rx.(state := RxFinfo, window := HydraSession.RxWindow(p.cfg, b)),
       tx := p.tx.(state := state, retries := 0, window := HydraSession.TxWindow(p.cfg, b)))
  }

  lemma HearsHello(p: Peer, b: Config)
    requires (exists want :: p.cfg.options == Wanted(want)) && p.rx.state == RxInit
    requires p.tx.state == TxSWait || p.tx.state == TxRInit
    ensures Process(p, Hello(b), Reading(0)) ==
            (Opened(p, b, if p.tx.state == TxSWait then TxInit else TxFinfo),
              [Flight(InitAck, HydraSession.Agreed(p.cfg, b))])
  {
    hide Value, Negotiated, Wanted, And, HydraInit.WindowsRead, Window;
    var want :| p.cfg.options == Wanted(want);
    Compatible(want, b.options);
  }

  lemma Calls(s: Link) returns (t: Link)
    requires Opening(s)
    ensures Reaches(SmoothStep, s, t)
    ensures t == s.(p := s.p.(tx := s.p.tx.(state := TxSWait)),
                    q := s.q.(tx := s.q.tx.(state := TxInitAck), txoptions := s.q.rxoptions),
                    back := [Flight(Hello(s.q.cfg), NONE)])
  {
    hide Wanted, MaxBlock, FirstBlock;
    Ours(s, TurnToSend(Reading(0)));
    var a := Next(s, TurnToSend(Reading(0)));
    assert a.out[1..] == [];
    Theirs(a, Receive(Reading(0)));
    var b := Swap(Next(Swap(a), Receive(Reading(0))));
    assert b == s.(p := s.p.(tx := s.p.tx.(state := TxSWait)), q := s.q.(tx := s.q.tx.(state := TxInit)));
    Theirs(b, TurnToSend(Reading(0)));
    t := Swap(Next(Swap(b), TurnToSend(Reading(0))));
    hide Reaches;
    Onward(SmoothStep, s, a, b);
    Onward(SmoothStep, s, b, t);
  }

  lemma GetsHello(s: Link, f: Flight) returns (t: Link)
    requires (exists want :: s.p.cfg.options == Wanted(want)) && s.p.rx.state == RxInit
    requires s.p.tx.state == TxSWait || s.p.tx.state == TxRInit
    requires s.back == [f] && f.pkt == Hello(s.q.cfg)
    ensures Reaches(SmoothStep, s, t)
    ensures t.p == Opened(s.p, s.q.cfg, if s.p.tx.state == TxSWait then TxInit else TxFinfo) && t.q == s.q
    ensures t.out == s.out + [Flight(InitAck, HydraSession.Agreed(s.p.cfg, s.q.cfg))] && t.back == []
  {
    hide Process, Opened, Wanted, HydraSession.Agreed;
    assert s.back[1..] == [];
    HearsHello(s.p, s.q.cfg);
    Ours(s, Receive(Reading(0)));
    t := Next(s, Receive(Reading(0)));
  }

  lemma CallsBack(s: Link) returns (t: Link)
    requires s.p.tx.state == TxInit
    ensures Reaches(SmoothStep, s, t)
    ensures t == s.(p := s.p.(txoptions := s.p.rxoptions, tx := s.p.tx.(state := TxInitAck)),
            out := s.out + [Flight(Hello(s.p.cfg), NONE)])
  {
    Ours(s, TurnToSend(Reading(0)));
    t := Next(s, TurnToSend(Reading(0)));
  }

  lemma GetsInitAck(s: Link, f: Flight) returns (t: Link)
    requires s.p.tx.state == TxInitAck && s.back == [f] && f.pkt == InitAck
             && (s.p.rx.state == RxInit || s.p.rx.state == RxFinfo)
    ensures Reaches(SmoothStep, s, t)
    ensures t == s.(p := s.p.(tx := s.p.tx.(state := if s.p.rx.state == RxInit then TxRInit
            else TxFinfo, retries := 0)), back := [])
  {
    assert s.back[1..] == [];
    Ours(s, Receive(Reading(0)));
    t := Next(s, Receive(Reading(0)));
  }

  /** `q` has called; `p` answers and calls in its turn. */
  lemma Answers(s: Link, f: Flight) returns (t: Link)
    requires (exists want :: s.p.cfg.options == Wanted(want)) && s.p.rx.state == RxInit && s.p.tx.state == TxSWait
    requires s.out == [] && s.back == [f] && f.pkt == Hello(s.q.cfg) && s.q.tx.state == TxInitAck
             && s.q.rx.state == RxInit
    ensures Reaches(SmoothStep, s, t)
    ensures t.p == Opened(s.p, s.q.cfg, TxInitAck) && t.q == s.q.(tx := s.q.tx.(state := TxRInit, retries := 0))
    ensures t.out == [Flight(Hello(s.p.cfg), NONE)] && t.back == []
  {
    hide Reaches, HydraSession.Agreed, HydraSession.TxWindow, HydraSession.RxWindow, Wanted;
    var a := GetsHello(s, f);
    var b := GetsInitAck(Swap(a), a.out[0]);
    ReachesSwapped(Swap(a), b);
    Onward(SmoothStep, s, a, Swap(b));
    t := CallsBack(Swap(b));
    Onward(SmoothStep, s, Swap(b), t);
  }

  /** `q` answers too, and both are ready for files. */
  lemma Agrees(s: Link, f: Flight) returns (t: Link)
    requires (exists want :: s.q.cfg.options == Wanted(want)) && s.q.rx.state == RxInit && s.q.tx.state == TxRInit
    requires s.back == [] && s.out == [f] && f.pkt == Hello(s.p.cfg) && s.p.tx.state == TxInitAck
             && s.p.rx.state == RxFinfo
    ensures Reaches(SmoothStep, s, t)
    ensures t.q == Opened(s.q, s.p.cfg, TxFinfo) && t.p == s.p.(tx := s.p.tx.(state := TxFinfo, retries := 0))
    ensures t.out == [] && t.back == []
  {
    hide Reaches, HydraSession.Agreed, HydraSession.TxWindow, HydraSession.RxWindow, Wanted;
    var a := GetsHello(Swap(s), f);
    ReachesSwapped(Swap(s), a);
    t := GetsInitAck(Swap(a), Swap(a).back[0]);
    Onward(SmoothStep, s, Swap(a), t);
  }

  lemma Opens(s: Link) returns (t: Link)
    requires Opening(s)
    ensures Reaches(SmoothStep, s, t) && t.out == [] && t.back == []
    ensures t.p == Opened(s.p, s.q.cfg, TxFinfo)
    ensures t.q == Opened(s.q.(txoptions := RX_INITIAL), s.p.cfg, TxFinfo)
  {
    hide Reaches, HydraSession.Agreed, HydraSession.TxWindow, HydraSession.RxWindow, Wanted, MaxBlock, FirstBlock;
    var a := Calls(s);
    var b := Answers(a, a.back[0]);
    Onward(SmoothStep, s, a, b);
    t := Agrees(b, b.out[0]);
    Onward(SmoothStep, s, b, t);
  }

  // ----- closing it -----------------------------------------------------------------------

  predicate BothEnd(s: Link) {
    && s.p.tx.state == TxEnd && s.q.tx.state == TxEnd && s.p.rx.state == RxDone && s.q.rx.state == RxDone
    && s.out == [] && s.back == []
  }

  lemma SaysEnd(s: Link) returns (t: Link)
    requires s.p.tx.state == TxEnd && s.out == []
    ensures Reaches(SmoothStep, s, t)
    ensures t == s.(p := s.p.(tx := s.p.tx.(state := TxEndAck)),
            out := [Flight(End, s.p.txoptions), Flight(End, s.p.txoptions)])
  {
    Ours(s, TurnToSend(Reading(0)));
    t := Next(s, TurnToSend(Reading(0)));
  }

  lemma HearsEnd(s: Link, f: Flight) returns (t: Link)
    requires (s.p.tx.state == TxEnd || s.p.tx.state == TxEndAck) && |s.back| > 0 && s.back[0] == f && f.pkt == End
    ensures Reaches(SmoothStep, s, t)
    ensures t.p == s.p.(tx := s.p.tx.(state := TxDone), completed := true) && t.q == s.q
    ensures |t.out| > |s.out| && t.out[0].pkt == if s.out == [] then End else s.out[0].pkt
  {
    Ours(s, Receive(Reading(0)));
    t := Next(s, Receive(Reading(0)));
  }

  lemma Closes(s: Link) returns (t: Link)
    requires BothEnd(s)
    ensures Reaches(SmoothStep, s, t)
    ensures t.p == s.p.(tx := s.p.tx.(state := TxDone), completed := true)
    ensures t.q == s.q.(tx := s.q.tx.(state := TxDone), completed := true)
  {
    hide Reaches;
    var a := SaysEnd(s);
    var b := HearsEnd(Swap(a), a.out[0]);
    ReachesSwapped(Swap(a), b);
    t := HearsEnd(Swap(b), b.out[0]);
    Onward(SmoothStep, s, a, Swap(b));
    Onward(SmoothStep, s, Swap(b), t);
  }


  // ----- the whole session ------------------------------------------------------------------

  /** Both batches are through and both sides are done. */
  predicate Finished(s: Link) { s.p.completed && s.q.completed && Delivered(s) && Delivered(Swap(s)) }

  /** A side before it has sent or received any file. */
  predicate Blank(p: Peer) {
    && p.tx.cur == 0 && p.tx.retries == 0 && p.tx.results == [] && p.tx.open == (0 < |p.cfg.files|)
      && p.rx.log == map[] && p.dev == DevDone
    && HydraSession.BlocksOk(p.tx, p.cfg.maxblklen)
  }

  lemma FreshIsBlank(p: Peer)
    requires Fresh(p)
    ensures Blank(p)
  {
    hide Wanted;
  }

  lemma OpenedBlank(p: Peer, b: Config, state: TxState)
    requires Blank(p)
    ensures Blank(Opened(p, b, state))
  {
    hide HydraSession.Agreed, HydraSession.TxWindow, HydraSession.RxWindow;
  }

  lemma OpenedReady(s: Link, t: Link)
    requires Blank(s.p) && Blank(s.q) && !s.p.hdxlink && !s.q.hdxlink && t.out == [] && t.back == []
    requires t.p == Opened(s.p, s.q.cfg, TxFinfo) && t.q == Opened(s.q.(txoptions := RX_INITIAL), s.p.cfg, TxFinfo)
    requires !HydraSession.Unacknowledged(s.p.cfg, s.q.cfg) && Matched(s.p.cfg.files, s.q.cfg.disk)
    ensures Ready(t, 0)
  {
    hide HydraSession.Agreed, HydraSession.TxWindow, HydraSession.RxWindow, HydraSession.Unacknowledged,
         HydraSession.BlocksOk, Matched;
    HydraSession.WindowsFace(s.p.cfg, s.q.cfg);
    OpenedBlank(s.p, s.q.cfg, TxFinfo);
  }

  /** Behind the first batch, the other side is ready for its own. */
  lemma EndedReady(s: Link, t: Link)
    requires Ready(s, 0) && s.p.rx.state == RxFinfo && s.q.tx.state == TxFinfo && BatchOver(s, t)
    requires Blank(s.q) && s.p.rx.log == map[] && Matched(s.q.cfg.files, s.p.cfg.disk)
    requires s.q.tx.window != 0 ==> s.p.rx.window != 0
    ensures Ready(Swap(t), 0)
  {
    hide HydraSession.BlocksOk, Matched;
  }

  /** A session of two sides that both send their batches reaches its end, unless a
      sender with a window is left in front of a receiver without one. */
  lemma Completes(s: Link) returns (t: Link)
    requires Opening(s) && !s.p.hdxlink && !s.q.hdxlink
    requires !HydraSession.Unacknowledged(s.p.cfg, s.q.cfg) && !HydraSession.Unacknowledged(s.q.cfg, s.p.cfg)
    requires Matched(s.p.cfg.files, s.q.cfg.disk) && Matched(s.q.cfg.files, s.p.cfg.disk)
    ensures Reaches(SmoothStep, s, t) && t.p.cfg == s.p.cfg && t.q.cfg == s.q.cfg && Finished(t)
  {
    hide Reaches, Opened, Opening, Fresh, Ready, Blank, Matched, Delivered, HydraSession.Unacknowledged;
    var a := Opens(s);
    FreshBoth(s);
    OpenedBoth(s, a);
    var b := BatchGoes(a);
    EndedReady(a, b);
    var c := BatchGoes(Swap(b));
    ReachesSwapped(Swap(b), c);
    t := Closes(Swap(c));
    DeliveredStays(b, t);
    DeliveredStays(c, Swap(t));
    Onward(SmoothStep, s, a, b);
    Onward(SmoothStep, s, b, Swap(c));
    Onward(SmoothStep, s, Swap(c), t);
  }

  lemma DeliveredStays(s: Link, t: Link)
    requires Delivered(s) && t.p.cfg == s.p.cfg && t.q.cfg == s.q.cfg
    requires t.p.tx.results == s.p.tx.results && t.q.rx.log == s.q.rx.log
    ensures Delivered(t)
  {
  }

  lemma FreshBoth(s: Link)
    requires Opening(s)
    ensures Blank(s.p) && Blank(s.q)
  {
    FreshIsBlank(s.p);
    FreshIsBlank(s.q);
    hide Fresh, Blank;
  }

  lemma OpenedBoth(s: Link, t: Link)
    requires Blank(s.p) && Blank(s.q) && !s.p.hdxlink && !s.q.hdxlink && t.out == [] && t.back == []
    requires t.p == Opened(s.p, s.q.cfg, TxFinfo) && t.q == Opened(s.q.(txoptions := RX_INITIAL), s.p.cfg, TxFinfo)
    requires !HydraSession.Unacknowledged(s.p.cfg, s.q.cfg) && !HydraSession.Unacknowledged(s.q.cfg, s.p.cfg)
    requires Matched(s.p.cfg.files, s.q.cfg.disk)
    ensures Ready(t, 0) && Blank(t.q) && t.p.rx.log == map[] && t.p.rx.state == RxFinfo && t.q.tx.state == TxFinfo
    ensures t.p.cfg == s.p.cfg && t.q.cfg == s.q.cfg && (t.q.tx.window != 0 ==> t.p.rx.window != 0)
  {
    hide HydraSession.Agreed, HydraSession.TxWindow, HydraSession.RxWindow, HydraSession.Unacknowledged,
         HydraSession.BlocksOk, Matched, Ready;
    OpenedReady(s, t);
    HydraSession.WindowsFace(s.q.cfg, s.p.cfg);
    OpenedBlank(s.q.(txoptions := RX_INITIAL), s.p.cfg, TxFinfo);
  }
}
