/** Batches in which a file can be closed by the end of another one, on any link: with a
    window or without, half duplex or not.  The runs here send no data at all: a file that
    is accepted cannot be read. */
module HydraWrongEnd {
  import opened HydraCompletion
  import opened HydraLink
  import opened HydraOptions
  import opened HydraPeer
  import opened Maybe
  import opened Reachability
  import HydraSession
  import HydraTransfer

  const UNREADABLE := Env(Refuse, true, true, -1, false, false, false)

  lemma OurTurn(s: Link, a: Action)
    requires Steady(s, a)
    ensures Reaches(SteadyStep, s, Next(s, a))
  {
    hide Process, Turn, Timeout, DeviceTurn, Settled, ReadOk;
    assert SteadyStep(s, Next(s, a));
    One(SteadyStep, s, Next(s, a));
  }

  lemma TheirTurn(s: Link, a: Action)
    requires Steady(Swap(s), a)
    ensures Reaches(SteadyStep, s, Swap(Next(Swap(s), a)))
  {
    hide Process, Turn, Timeout, DeviceTurn, Settled, ReadOk;
    assert SteadyStep(s, Swap(Next(Swap(s), a)));
    One(SteadyStep, s, Swap(Next(Swap(s), a)));
  }

  lemma SteadySwapped(s: Link, t: Link)
    requires SteadyStep(s, t)
    ensures SteadyStep(Swap(s), Swap(t))
  {
    hide Process, Turn, Timeout, DeviceTurn, Settled, ReadOk;
    assert Swap(Swap(s)) == s && Swap(Swap(t)) == t;
    if a :| Steady(s, a) && t == Next(s, a) {
      assert Steady(Swap(Swap(s)), a) && Swap(t) == Swap(Next(Swap(Swap(s)), a));
    } else {
      var a :| Steady(Swap(s), a) && t == Swap(Next(Swap(s), a));
      assert Swap(t) == Next(Swap(s), a);
    }
  }

  lemma SteadilySwapped(s: Link, t: Link)
    requires Reaches(SteadyStep, s, t)
    ensures Reaches(SteadyStep, Swap(s), Swap(t))
  {
    hide SteadyStep, Swap;
    var a: seq<Link> :| Path(SteadyStep, a, s, t);
    var b := seq(|a|, i requires 0 <= i < |a| => Swap(a[i]));
    forall i | 0 < i < |b| ensures SteadyStep(b[i - 1], b[i]) {
      SteadySwapped(a[i - 1], a[i]);
    }
    assert Path(SteadyStep, b, Swap(s), Swap(t));
  }

  // ----- a sender that cannot read ---------------------------------------------------------------

  /** Nothing keeps `p` from sending data. */
  predicate Free(p: Peer) { !p.hdxlink || p.rx.state == RxDone }

  /** A sender between two files, opposite a receiver that waits for an offer. */
  predicate Between(s: Link, k: nat) {
    && s.p.tx.state == TxFinfo && s.p.tx.cur == k <= |s.p.cfg.files| && s.p.tx.retries == 0
    && s.p.tx.open == (k < |s.p.cfg.files|) && s.q.rx.state == RxFinfo && s.out == []
  }

  predicate Kept(s: Link, t: Link) { t.p.cfg == s.p.cfg && t.q.cfg == s.q.cfg }

  /** `p` can send data, or `q` will see to it when `p` has to wait. */
  predicate WillGo(s: Link) {
    s.q.tx.state == TxXWait || (Free(s.p) && (s.q.tx.state == TxFinfo || s.q.tx.state == TxREnd))
  }

  /** An acceptance is heard. */
  lemma Accepted(s: Link, f: Flight) returns (t: Link)
    requires s.out == [] && s.back == [f] && f.pkt.FinfoAck? && f.pkt.pos >= 0
    requires Asking(s.p.tx.state) && HasFile(s.p) && WillGo(s) && s.q.rx.state != RxDone
    ensures Reaches(SteadyStep, s, t) && Kept(s, t) && t.out == [] && t.back == [] && WillGo(t)
    ensures t.q == s.q && t.p.rx == s.p.rx
            && t.p.tx == s.p.tx.(retries := 0, lastack := f.pkt.pos, pos := f.pkt.pos, state := TxXData)
  {
    if Free(s.p) {
      t := Begins(s, f, f.pkt.pos);
      hide Reaches;
      SmoothIsSteady(s, t);
    } else {
      t := Released(s, f);
    }
  }

  /** An acceptance is heard, and `p` sends or waits. */
  lemma Starts(s: Link, f: Flight) returns (t: Link)
    requires s.back == [f] && f.pkt.FinfoAck? && f.pkt.pos >= 0 && Asking(s.p.tx.state) && HasFile(s.p)
    requires s.p.rx.state != RxDone
    ensures Reaches(SteadyStep, s, t) && t == s.(p := s.p.(tx := t.p.tx, dev := t.p.dev), back := [])
    ensures t.p.tx.state == (if s.p.hdxlink then TxXWait else TxXData)
    ensures t.p.tx == s.p.tx.(retries := 0, lastack := f.pkt.pos, pos := f.pkt.pos, state := t.p.tx.state)
  {
    hide OnFinfo, OnData, OnEof, OnRpos, OnInit, NextFile, Turn, Timeout;
    assert s.back[1..] == [];
    var e := At(s.p, f.pkt);
    OurTurn(s, Receive(e));
    t := Next(s, Receive(e));
  }

  /** A side that waits says that it is idle. */
  lemma SaysIdle(s: Link) returns (t: Link)
    requires s.p.tx.state == TxXWait && s.p.rx.state != RxDone && s.out == []
    ensures Reaches(SteadyStep, s, t) && t == s.(out := [Flight(Idle, s.p.txoptions)])
  {
    var e := At(s.p, Idle);
    OurTurn(s, TimesOut(e));
    t := Next(s, TimesOut(e));
  }

  lemma HearsIdle(s: Link, f: Flight) returns (t: Link)
    requires s.p.tx.state == TxXWait && s.back == [f] && f.pkt == Idle
    ensures Reaches(SteadyStep, s, t)
    ensures t == s.(p := s.p.(hdxlink := false, tx := s.p.tx.(retries := 0, state := TxXData)), back := [])
  {
    hide OnFinfo, OnData, OnEof, OnRpos, OnInit, NextFile, Turn, Timeout;
    assert s.back[1..] == [];
    var e := At(s.p, f.pkt);
    OurTurn(s, Receive(e));
    t := Next(s, Receive(e));
  }

  /** Both sides wait for each other on a half-duplex link; `q` says that it is idle. */
  lemma Released(s: Link, f: Flight) returns (t: Link)
    requires s.out == [] && s.back == [f] && f.pkt.FinfoAck? && f.pkt.pos >= 0
    requires Asking(s.p.tx.state) && HasFile(s.p) && !Free(s.p) && s.q.tx.state == TxXWait && s.q.rx.state != RxDone
    ensures Reaches(SteadyStep, s, t) && Kept(s, t) && t.out == [] && t.back == [] && Free(t.p)
    ensures t.q == s.q && t.p.rx == s.p.rx
            && t.p.tx == s.p.tx.(retries := 0, lastack := f.pkt.pos, pos := f.pkt.pos, state := TxXData)
  {
    hide Reaches, SteadyStep;
    var a := Starts(s, f);
    var b := SaysIdle(Swap(a));
    SteadilySwapped(Swap(a), b);
    t := HearsIdle(Swap(b), b.out[0]);
    assert Swap(Swap(a)) == a;
    Onward(SteadyStep, s, a, Swap(b));
    Onward(SteadyStep, s, Swap(b), t);
  }

  /** The file cannot be read, and its end is sent with no position. */
  lemma GivesUp(s: Link) returns (t: Link)
    requires s.p.tx.state == TxXData && s.p.tx.pos >= 0 && s.out == []
    ensures Reaches(SteadyStep, s, t)
    ensures t == s.(p := s.p.(tx := s.p.tx.(open := false, pos := -2, state := TxEofAck)),
            out := [Flight(Eof(-2, s.p.tx.cur), s.p.txoptions)])
  {
    OurTurn(s, TurnToSend(UNREADABLE));
    t := Next(s, TurnToSend(UNREADABLE));
  }

  lemma ClosesUnread(s: Link, f: Flight, k: nat) returns (t: Link)
    requires s.out == [f] && s.back == [] && f.pkt == Eof(-2, k) && s.q.rx.state == RxData
    requires s.q.tx.state == TxFinfo || s.q.tx.state == TxREnd || s.q.tx.state == TxXWait
    ensures Reaches(SteadyStep, s, t)
    ensures t == s.(q := s.q.(rx := Ended(s.q.rx.(seen := 2 * k + 1), None, k)), out := [],
            back := [Flight(EofAck(k), s.q.txoptions)])
  {
    assert s.out[1..] == [];
    var e := At(s.q, f.pkt);
    TheirTurn(s, Receive(e));
    t := Swap(Next(Swap(s), Receive(e)));
  }

  lemma HearsClosed(s: Link, f: Flight) returns (t: Link)
    requires s.back == [f] && f.pkt.EofAck? && s.p.tx.state == TxEofAck && !s.p.tx.open && HasFile(s.p)
    ensures Reaches(SteadyStep, s, t)
    ensures t == s.(p := s.p.(tx := t.p.tx), back := [])
    ensures t.p.tx.state == TxFinfo && t.p.tx.cur == s.p.tx.cur + 1 && t.p.tx.retries == 0
    ensures t.p.tx.open == (t.p.tx.cur < |s.p.cfg.files|)
  {
    assert s.back[1..] == [];
    var e := At(s.p, f.pkt);
    OurTurn(s, Receive(e));
    t := Next(s, Receive(e));
  }

  /** The three together: an accepted file is over, with nothing stored. */
  lemma IsOver(s: Link, k: nat) returns (t: Link)
    requires s.p.tx.state == TxXData && s.p.tx.pos >= 0 && s.p.tx.cur == k && HasFile(s.p) && s.out == []
             && s.back == []
    requires s.q.rx.state == RxData
    requires s.q.tx.state == TxFinfo || s.q.tx.state == TxREnd || s.q.tx.state == TxXWait
    ensures Reaches(SteadyStep, s, t)
    ensures t == s.(p := s.p.(tx := t.p.tx), q := s.q.(rx := t.q.rx))
    ensures t.p.tx.state == TxFinfo && t.p.tx.cur == k + 1 && t.p.tx.retries == 0
    ensures t.p.tx.open == (k + 1 < |s.p.cfg.files|) && t.q.rx.state == RxFinfo
  {
    hide Reaches, SteadyStep;
    var a := GivesUp(s);
    var b := ClosesUnread(a, a.out[0], k);
    t := HearsClosed(b, b.back[0]);
    Onward(SteadyStep, s, a, b);
    Onward(SteadyStep, s, b, t);
  }

  /** An acceptable file is offered and accepted. */
  lemma IsAccepted(s: Link, k: nat) returns (t: Link)
    requires Between(s, k) && s.back == [] && WillGo(s)
    requires k < |s.p.cfg.files| && k < |s.q.cfg.disk| && s.q.cfg.disk[k].Accept?
    ensures Reaches(SteadyStep, s, t) && t.out == [] && |t.back| == 1
    ensures t.back[0].pkt.FinfoAck? && t.back[0].pkt.pos >= 0
    ensures t.p == s.p.(tx := t.p.tx) && t.q == s.q.(rx := t.q.rx) && t.q.rx.state == RxData
    ensures Asking(t.p.tx.state) && HasFile(t.p) && t.p.tx.cur == k
  {
    hide Reaches, SteadyStep, SmoothStep;
    var a := Offers(s, k);
    t := AnswersOffer(a, a.out[0], k);
    Onward(SmoothStep, s, a, t);
    SmoothIsSteady(s, t);
  }

  /** One file of a batch is gone through. */
  lemma PassesFile(s: Link, k: nat) returns (t: Link)
    requires Between(s, k) && s.back == [] && WillGo(s)
    requires k < |s.p.cfg.files| && k < |s.q.cfg.disk| && s.q.cfg.disk[k].Accept?
    ensures Reaches(SteadyStep, s, t) && Kept(s, t) && Between(t, k + 1) && t.back == [] && WillGo(t)
  {
    hide Reaches, SteadyStep;
    var a := IsAccepted(s, k);
    var b := Accepted(a, a.back[0]);
    t := IsOver(b, k);
    Onward(SteadyStep, s, a, b);
    Onward(SteadyStep, s, b, t);
  }

  lemma {:induction false} PassesFiles(s: Link, k: nat, n: nat) returns (t: Link)
    requires Between(s, k) && s.back == [] && WillGo(s)
    requires k <= n <= |s.p.cfg.files| == |s.q.cfg.disk| && forall i | k <= i < n :: s.q.cfg.disk[i].Accept?
    ensures Reaches(SteadyStep, s, t) && Kept(s, t) && Between(t, n) && t.back == [] && WillGo(t)
    decreases n - k
  {
    hide Reaches, SteadyStep, Between, WillGo;
    if k == n {
      Here(SteadyStep, s);
      t := s;
    } else {
      var a := PassesFile(s, k);
      t := PassesFiles(a, k + 1, n);
      Onward(SteadyStep, s, a, t);
    }
  }

  // ----- a sender ahead of the receiver ------------------------------------------------------

  lemma Waits(s: Link) returns (t: Link)
    requires s.p.tx.state == TxFinfoAck && s.p.tx.retries == 0
    ensures Reaches(SteadyStep, s, t) && t == s.(p := s.p.(tx := s.p.tx.(retries := 1, state := TxFinfo)))
  {
    var a := TimesOut(Reading(0));
    t := Next(s, a);
    assert Steady(s, a);
    One(SteadyStep, s, t);
  }

  lemma OffersTwice(s: Link, k: nat) returns (t: Link)
    requires s.p.tx.state == TxFinfo && s.p.tx.cur == k < |s.p.cfg.files| && s.p.tx.retries == 0 && s.out == []
    ensures Reaches(SteadyStep, s, t)
    ensures t == s.(p := s.p.(tx := s.p.tx.(retries := 1, state := TxFinfoAck, offers := t.p.tx.offers)),
                    out := [Offer(s.p, k), Offer(s.p, k)])
  {
    hide Reaches;
    var a := Offers(s, k);
    SmoothIsSteady(s, a);
    var b := Waits(a);
    t := Offers(b, k);
    SmoothIsSteady(b, t);
    Onward(SteadyStep, s, a, b);
    Onward(SteadyStep, s, b, t);
  }

  /** One refusal is on its way that the sender has no use for. */
  predicate Trailing(s: Link, m: nat) {
    && Between(s, m) && WillGo(s) && |s.back| == 1 && s.back[0].pkt.FinfoAck? && s.back[0].pkt.pos < 0
    && |s.q.cfg.disk| == |s.p.cfg.files|
  }

  /** A refused file is offered twice. */
  lemma GetsAhead(s: Link, k: nat) returns (t: Link)
    requires Between(s, k) && s.back == [] && WillGo(s)
    requires k < |s.p.cfg.files| == |s.q.cfg.disk| && Refused(s.q.cfg.disk, k)
    ensures Reaches(SteadyStep, s, t) && Trailing(t, k + 1) && Kept(s, t)
  {
    hide Reaches, SteadyStep, SmoothStep;
    var a := OffersTwice(s, k);
    var b := RefusesTwice(a, k);
    t := MovesOn(b, b.back[0]);
    Onward(SmoothStep, a, b, t);
    SmoothIsSteady(a, t);
    Onward(SteadyStep, s, a, t);
  }

  lemma RefusesTwice(s: Link, k: nat) returns (t: Link)
    requires k < |s.p.cfg.files| && Refused(s.q.cfg.disk, k) && s.out == [Offer(s.p, k), Offer(s.p, k)] && s.back == []
    requires s.q.rx.state == RxFinfo
    requires s.q.tx.state == TxFinfo || s.q.tx.state == TxREnd || s.q.tx.state == TxXWait
    ensures Reaches(SmoothStep, s, t) && t.p == s.p && t.q == s.q.(rx := t.q.rx) && t.q.rx.state == RxFinfo
    ensures t.out == [] && |t.back| == 2 && forall i | 0 <= i < 2 :: t.back[i].pkt.FinfoAck? && t.back[i].pkt.pos < 0
  {
    hide Reaches, SmoothStep;
    var a := AnswersOffer(s, s.out[0], k);
    t := AnswersOffer(a, a.out[0], k);
    Onward(SmoothStep, s, a, t);
  }

  /** Another refused file: its offer is answered when the sender is past it. */
  lemma StaysAhead(s: Link, m: nat) returns (t: Link)
    requires Trailing(s, m) && m < |s.q.cfg.disk| && Refused(s.q.cfg.disk, m)
    ensures Reaches(SteadyStep, s, t) && Trailing(t, m + 1) && Kept(s, t)
  {
    hide Reaches, SteadyStep, SmoothStep;
    var a := Offers(s, m);
    var b := MovesOn(a, a.back[0]);
    t := AnswersOffer(b, b.out[0], m);
    Onward(SmoothStep, s, a, b);
    Onward(SmoothStep, s, b, t);
    SmoothIsSteady(s, t);
  }

  lemma {:induction false} AheadOn(s: Link, m: nat, j: nat) returns (t: Link)
    requires Trailing(s, m) && m <= j < |s.q.cfg.disk| && forall k | m <= k < j :: Refused(s.q.cfg.disk, k)
    ensures Reaches(SteadyStep, s, t) && Trailing(t, j) && Kept(s, t)
    decreases j - m
  {
    hide Reaches, Trailing, SteadyStep;
    if m == j {
      Here(SteadyStep, s);
      t := s;
    } else {
      var a := StaysAhead(s, m);
      t := AheadOn(a, m + 1, j);
      Onward(SteadyStep, s, a, t);
    }
  }

  /** A file that is accepted now is closed by the end of the next one. */
  lemma EndsWrongOne(s: Link, j: nat) returns (t: Link)
    requires Trailing(s, j) && j + 1 < |s.p.cfg.files| && s.q.cfg.disk[j].Accept?
    ensures Reaches(SteadyStep, s, t) && Kept(s, t) && j in t.q.rx.log && t.q.rx.log[j].from == j + 1
  {
    hide Reaches, SteadyStep;
    var a := TakesWrongOne(s, j);
    var b := Accepted(a, a.back[0]);
    var c := GivesUp(b);
    t := ClosesUnread(c, c.out[0], j + 1);
    Onward(SteadyStep, s, a, b);
    Onward(SteadyStep, s, b, c);
    Onward(SteadyStep, s, c, t);
  }

  /** File `j` is accepted when the sender is at the next one. */
  lemma TakesWrongOne(s: Link, j: nat) returns (t: Link)
    requires Trailing(s, j) && j + 1 < |s.p.cfg.files| && s.q.cfg.disk[j].Accept?
    ensures Reaches(SteadyStep, s, t) && Kept(s, t) && t.out == [] && |t.back| == 1 && WillGo(t)
    ensures t.back[0].pkt.FinfoAck? && t.back[0].pkt.pos >= 0
    ensures t.p == s.p.(tx := t.p.tx) && t.q == s.q.(rx := t.q.rx) && t.q.rx.state == RxData && t.q.rx.offer == j
    ensures Asking(t.p.tx.state) && HasFile(t.p) && t.p.tx.cur == j + 1
  {
    hide Reaches, SteadyStep, SmoothStep;
    var a := Offers(s, j);
    var b := MovesOn(a, a.back[0]);
    t := AnswersOffer(b, b.out[0], j);
    Onward(SmoothStep, s, a, b);
    Onward(SmoothStep, s, b, t);
    SmoothIsSteady(s, t);
  }

  // ----- the other side's batch on a half-duplex link ---------------------------------------------

  /** `p` goes through its batch until it has to wait or is at the end of it; `q` only
      receives. */
  predicate Offering(s: Link, k: nat) { Between(s, k) && s.back == [] && s.q.tx.state == TxFinfo }

  predicate Through(s: Link, t: Link) {
    && Kept(s, t) && t.q.tx == s.q.tx && t.out == [] && t.back == [] && t.p.rx == s.p.rx && t.q.hdxlink == s.q.hdxlink
    && (t.p.tx.state == TxXWait || (t.p.tx.state == TxREnd && t.q.rx.state == RxDone))
  }

  lemma EndsBatch(s: Link) returns (t: Link)
    requires Offering(s, |s.p.cfg.files|) && s.p.rx.state != RxDone
    ensures Reaches(SteadyStep, s, t) && Through(s, t)
  {
    hide Reaches, SteadyStep;
    var a := OffersNone(s);
    var b := TakesNone(a, a.out[0]);
    t := HearsNone(b, b.back[0]);
    Onward(SteadyStep, s, a, b);
    Onward(SteadyStep, s, b, t);
  }

  lemma OffersNone(s: Link) returns (t: Link)
    requires s.p.tx.state == TxFinfo && !HasFile(s.p) && s.out == []
    ensures Reaches(SteadyStep, s, t) && t.p == s.p.(tx := t.p.tx) && t.p.tx.cur == s.p.tx.cur
    ensures t == s.(p := t.p, out := t.out) && t.p.tx.state == TxFinfoAck
    ensures |t.out| == 1 && t.out[0].pkt == Finfo(None, s.p.tx.cur)
  {
    var e := At(s.p, Idle);
    OurTurn(s, TurnToSend(e));
    t := Next(s, TurnToSend(e));
  }

  lemma TakesNone(s: Link, f: Flight) returns (t: Link)
    requires s.out == [f] && s.back == [] && f.pkt.Finfo? && f.pkt.name.None?
    requires s.q.rx.state == RxFinfo && s.q.tx.state == TxFinfo
    ensures Reaches(SteadyStep, s, t) && t == s.(q := s.q.(rx := t.q.rx), out := [], back := t.back)
    ensures t.q.rx.state == RxDone && |t.back| == 1 && t.back[0].pkt.FinfoAck?
  {
    assert s.out[1..] == [];
    var e := At(s.q, f.pkt);
    TheirTurn(s, Receive(e));
    t := Swap(Next(Swap(s), Receive(e)));
  }

  lemma HearsNone(s: Link, f: Flight) returns (t: Link)
    requires s.back == [f] && f.pkt.FinfoAck? && s.p.tx.state == TxFinfoAck && !HasFile(s.p) && s.p.rx.state != RxDone
    ensures Reaches(SteadyStep, s, t) && t == s.(p := s.p.(tx := t.p.tx), back := []) && t.p.tx.state == TxREnd
  {
    assert s.back[1..] == [];
    var e := At(s.p, f.pkt);
    OurTurn(s, Receive(e));
    t := Next(s, Receive(e));
  }

  /** One file of it. */
  lemma OffersOne(s: Link, k: nat) returns (t: Link)
    requires Offering(s, k) && k < |s.p.cfg.files| && s.p.rx.state != RxDone
    ensures Reaches(SteadyStep, s, t)
    ensures Through(s, t) || (Kept(s, t) && Offering(t, k + 1) && t.q.tx == s.q.tx && t.p.rx == s.p.rx
            && t.q.hdxlink == s.q.hdxlink)
  {
    hide Reaches, SteadyStep, SmoothStep;
    var a := Offers(s, k);
    SmoothIsSteady(s, a);
    var b := Decides(a, a.out[0]);
    Onward(SteadyStep, s, a, b);
    var f := b.back[0];
    if f.pkt.pos < 0 {
      t := MovesOn(b, f);
      SmoothIsSteady(b, t);
      Onward(SteadyStep, s, b, t);
    } else {
      var c := Starts(b, f);
      Onward(SteadyStep, s, b, c);
      if c.p.tx.state == TxXWait {
        t := c;
      } else {
        t := IsOver(c, k);
        Onward(SteadyStep, s, c, t);
      }
    }
  }

  /** An offer is answered, whatever is on the disk. */
  lemma Decides(s: Link, f: Flight) returns (t: Link)
    requires s.out == [f] && s.back == [] && f.pkt.Finfo? && f.pkt.name.Some?
    requires s.q.rx.state == RxFinfo && s.q.tx.state == TxFinfo
    ensures Reaches(SteadyStep, s, t) && t.p == s.p && t.q == s.q.(rx := t.q.rx) && t.out == []
    ensures |t.back| == 1 && t.back[0].pkt.FinfoAck?
    ensures t.q.rx.state == if t.back[0].pkt.pos < 0 then RxFinfo else RxData
  {
    var e := At(s.q, f.pkt);
    TheirTurn(s, Receive(e));
    t := Swap(Next(Swap(s), Receive(e)));
    assert s.out[1..] == [];
  }

  lemma {:induction false} GoesThrough(s: Link, k: nat) returns (t: Link)
    requires Offering(s, k) && s.p.rx.state != RxDone
    ensures Reaches(SteadyStep, s, t) && Through(s, t)
    decreases |s.p.cfg.files| - k
  {
    if k == |s.p.cfg.files| {
      t := EndsBatch(s);
    } else {
      t := OffersOne(s, k);
      hide Reaches, SteadyStep;
      if !Through(s, t) {
        var a := t;
        t := GoesThrough(a, k + 1);
        Onward(SteadyStep, s, a, t);
      }
    }
  }

  /** Both sides are ready for files; now `p` can send data, or `q` will see to it. */
  lemma GetsGoing(s: Link) returns (t: Link)
    requires Between(s, 0) && Between(Swap(s), 0)
    ensures Reaches(SteadyStep, s, t) && Kept(s, t) && Between(t, 0) && t.back == [] && WillGo(t)
  {
    hide Reaches, SteadyStep;
    if s.p.hdxlink {
      var a := GoesThrough(Swap(s), 0);
      SteadilySwapped(Swap(s), a);
      t := Swap(a);
    } else {
      Here(SteadyStep, s);
      t := s;
    }
  }

  // ----- the batches --------------------------------------------------------------------------------

  function NextAccepted(disk: seq<Decision>, k: nat): (j: nat)
    requires k <= |disk|
    ensures k <= j <= |disk| && (forall i | k <= i < j :: Refused(disk, i)) && (j < |disk| ==> disk[j].Accept?)
    decreases |disk| - k
  {
    if k == |disk| || disk[k].Accept? then k else NextAccepted(disk, k + 1)
  }

  lemma NotTame(disk: seq<Decision>, f: nat, j: nat)
    requires !HydraTransfer.Tame(disk) && HydraTransfer.AcceptedBefore(disk, f)
    requires f <= j <= |disk| && (forall i | f <= i < j :: Refused(disk, i)) && (j < |disk| ==> disk[j].Accept?)
    ensures f < j && j + 1 < |disk| && Refused(disk, f)
  {
    var i, k :| 0 <= i < k && k + 1 < |disk| && Refused(disk, i) && !Refused(disk, k);
    assert f <= i;
  }

  /** Refused files from `f` up to the accepted file `j`: the first of them is offered twice. */
  lemma ClosesFrom(s: Link, f: nat, j: nat) returns (t: Link)
    requires Between(s, 0) && Between(Swap(s), 0) && |s.p.cfg.files| == |s.q.cfg.disk|
    requires f < j && j + 1 < |s.q.cfg.disk| && s.q.cfg.disk[j].Accept?
    requires (forall i | 0 <= i < f :: s.q.cfg.disk[i].Accept?) && forall i | f <= i < j :: Refused(s.q.cfg.disk, i)
    ensures Reaches(SteadyStep, s, t) && Kept(s, t) && j in t.q.rx.log && t.q.rx.log[j].from == j + 1
  {
    hide Reaches, SteadyStep, Between, WillGo;
    var a := GetsGoing(s);
    var b := PassesFiles(a, 0, f);
    var c := GetsAhead(b, f);
    hide Trailing;
    var d := AheadOn(c, f + 1, j);
    t := EndsWrongOne(d, j);
    Onward(SteadyStep, s, a, b);
    Onward(SteadyStep, s, b, c);
    Onward(SteadyStep, s, c, d);
    Onward(SteadyStep, s, d, t);
  }

  /** In a batch that is not tame, the first file accepted behind a refused one can be closed
      by the end of the file behind it. */
  lemma ClosesWrongly(s: Link) returns (t: Link, j: nat)
    requires Opening(s) && Matched(s.p.cfg.files, s.q.cfg.disk) && !HydraTransfer.Tame(s.q.cfg.disk)
    ensures Reaches(SteadyStep, s, t) && Kept(s, t) && j in t.q.rx.log && t.q.rx.log[j].from == j + 1
  {
    var f: nat;
    f, j := Culprit(s.q.cfg.disk);
    hide HydraTransfer.Tame, Between, Refused;
    var a := BothReady(s);
    hide Reaches, Opening, SteadyStep;
    t := ClosesFrom(a, f, j);
    Onward(SteadyStep, s, a, t);
  }

  lemma Culprit(disk: seq<Decision>) returns (f: nat, j: nat)
    requires !HydraTransfer.Tame(disk)
    ensures f < j && j + 1 < |disk| && disk[j].Accept?
    ensures (forall i | 0 <= i < f :: disk[i].Accept?) && forall i | f <= i < j :: Refused(disk, i)
  {
    f := HydraTransfer.FirstRefused(disk);
    j := NextAccepted(disk, f);
    NotTame(disk, f, j);
    forall i | 0 <= i < f ensures disk[i].Accept? {
      assert !Refused(disk, i);
    }
  }

  lemma BothReady(s: Link) returns (t: Link)
    requires Opening(s)
    ensures Reaches(SteadyStep, s, t) && Kept(s, t) && Between(t, 0) && Between(Swap(t), 0)
  {
    t := Opens(s);
    OpenedBetween(s, t);
    hide Reaches, Opening, Opened, SteadyStep, SmoothStep, Between;
    SmoothIsSteady(s, t);
  }

  lemma OpenedBetween(s: Link, t: Link)
    requires Opening(s) && t.out == [] && t.back == []
    requires t.p == Opened(s.p, s.q.cfg, TxFinfo) && t.q == Opened(s.q.(txoptions := RX_INITIAL), s.p.cfg, TxFinfo)
    ensures Between(t, 0) && Between(Swap(t), 0) && Kept(s, t)
  {
    hide HydraSession.Agreed, HydraSession.TxWindow, HydraSession.RxWindow, Wanted, MaxBlock, FirstBlock;
  }
}
