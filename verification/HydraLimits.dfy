/** The limits of the protocol: which batches can be stored wrongly, and a sender with a
    window that nobody acknowledges.

    A receiver that refuses a file answers every copy of its offer, and the sender takes
    any answer for one to its latest offer.  So when a refused file is offered twice, the
    sender skips the next one too and is ahead of the receiver from there on: the next
    file that is accepted gets the bytes of the one behind it. */
module HydraLimits {
  import opened HydraOptions
  import opened HydraPeer
  import opened HydraLink
  import opened Maybe
  import opened Reachability
  import HydraCompletion
  import HydraInit
  import HydraSession
  import HydraTransfer
  import HydraWrongEnd

  // ----- a sender ahead of the receiver --------------------------------------------------

  /** Nothing is under way but one refusal the sender has no use for. */
  predicate Lagging(s: Link, m: nat) {
    && HydraCompletion.Calm(s.(back := [])) && |s.back| == 1 && s.back[0].pkt.FinfoAck? && s.back[0].pkt.pos < 0
    && s.p.tx.state == TxFinfo && s.p.tx.cur == m <= |s.p.cfg.files| == |s.q.cfg.disk|
      && s.p.tx.open == (m < |s.p.cfg.files|)
    && s.q.rx.state == RxFinfo
  }

  predicate SameSides(s: Link, t: Link) { t.p.cfg == s.p.cfg && t.q.cfg == s.q.cfg }

  /** The first refused file is offered twice. */
  lemma FallsBehind(s: Link, k: nat) returns (t: Link)
    requires HydraCompletion.Ready(s, k) && k < |s.p.cfg.files| && Refused(s.q.cfg.disk, k)
    ensures Reaches(SteadyStep, s, t) && Lagging(t, k + 1) && SameSides(s, t)
  {
    hide Reaches, HydraSession.BlocksOk, HydraCompletion.Stored, HydraCompletion.AllReported, SteadyStep, SmoothStep;
    var a := HydraWrongEnd.OffersTwice(s, k);
    var b := HydraCompletion.AnswersOffer(a, a.out[0], k);
    var c := HydraCompletion.AnswersOffer(b, b.out[0], k);
    t := HydraCompletion.MovesOn(c, c.back[0]);
    HydraSession.BlocksSame(t.p.tx, s.p.tx, s.p.cfg.maxblklen);
    Onward(SmoothStep, a, b, c);
    Onward(SmoothStep, a, c, t);
    HydraCompletion.SmoothIsSteady(a, t);
    Onward(SteadyStep, s, a, t);
  }

  /** Another refused file: its offer is answered when the sender is past it. */
  lemma StaysBehind(s: Link, m: nat) returns (t: Link)
    requires Lagging(s, m) && Refused(s.q.cfg.disk, m)
    ensures Reaches(SmoothStep, s, t) && Lagging(t, m + 1) && SameSides(s, t)
  {
    hide Reaches, HydraSession.BlocksOk, SmoothStep;
    var a := HydraCompletion.Offers(s, m);
    var b := HydraCompletion.MovesOn(a, a.back[0]);
    t := HydraCompletion.AnswersOffer(b, b.out[0], m);
    HydraSession.BlocksSame(t.p.tx, s.p.tx, s.p.cfg.maxblklen);
    Onward(SmoothStep, s, a, b);
    Onward(SmoothStep, s, b, t);
  }

  lemma {:induction false} LagsOn(s: Link, m: nat, j: nat) returns (t: Link)
    requires Lagging(s, m) && m <= j < |s.q.cfg.disk| && forall k | m <= k < j :: Refused(s.q.cfg.disk, k)
    ensures Reaches(SmoothStep, s, t) && Lagging(t, j) && SameSides(s, t)
    decreases j - m
  {
    hide Reaches, Lagging, SmoothStep;
    if m == j {
      Here(SmoothStep, s);
      t := s;
    } else {
      var a := StaysBehind(s, m);
      t := LagsOn(a, m + 1, j);
      Onward(SmoothStep, s, a, t);
    }
  }

  /** What is stored of file `j` when the sender is at the next one: the bytes of that. */
  function Mixed(p: Peer, j: nat, resume: seq<byte>): seq<byte>
    requires j + 1 < |p.cfg.files|
  {
    var next := p.cfg.files[j + 1].data;
    resume + if |resume| <= |next| then next[|resume|..] else []
  }

  /** A file that is accepted now gets the bytes of the next one. */
  lemma TakesWrongOne(s: Link, j: nat) returns (t: Link)
    requires Lagging(s, j) && j + 1 < |s.p.cfg.files| && s.q.cfg.disk[j].Accept?
    ensures Reaches(SmoothStep, s, t) && SameSides(s, t) && j in t.q.rx.log
    ensures t.q.rx.log[j] == Entry(Some(File(s.p.cfg.files[j].name, Mixed(s.p, j, s.q.cfg.disk[j].resume))), j + 1)
  {
    hide Reaches, HydraSession.BlocksOk, SmoothStep;
    var resume := s.q.cfg.disk[j].resume;
    var a := HydraCompletion.Offers(s, j);
    var b := HydraCompletion.MovesOn(a, a.back[0]);
    var c := HydraCompletion.AnswersOffer(b, b.out[0], j);
    var d := HydraCompletion.Begins(c, c.back[0], |resume|);
    HydraSession.BlocksSame(d.p.tx, s.p.tx, s.p.cfg.maxblklen);
    var m;
    t, m := HydraCompletion.RestGoes(d, |resume|);
    Onward(SmoothStep, s, a, b);
    Onward(SmoothStep, s, b, c);
    Onward(SmoothStep, s, c, d);
    Onward(SmoothStep, s, d, t);
    RestBytes(d.p, |resume|, m);
  }

  lemma RestBytes(p: Peer, n: nat, m: nat)
    requires HasFile(p) && n <= m && (n <= |p.cfg.files[p.tx.cur].data| ==> m == |p.cfg.files[p.tx.cur].data|)
    ensures var d := p.cfg.files[p.tx.cur].data; HydraCompletion.Bytes(p, n, m) == if n <= |d| then d[n..] else []
  {
  }

  // ----- which batches --------------------------------------------------------------------

  /** A file was closed by the end of another one. */
  predicate Misfiled(s: Link) { exists k | k in s.q.rx.log :: s.q.rx.log[k].from != k }

  /** In a batch that is not tame, the first file accepted behind a refused one gets the
      bytes of the file behind it. */
  lemma Misfiles(s: Link) returns (t: Link, j: nat)
    requires Opening(s) && !s.p.hdxlink && !s.q.hdxlink && Matched(s.p.cfg.files, s.q.cfg.disk)
    requires !HydraSession.Unacknowledged(s.p.cfg, s.q.cfg) && !HydraTransfer.Tame(s.q.cfg.disk)
    ensures Reaches(SteadyStep, s, t) && j + 1 < |s.p.cfg.files| && s.q.cfg.disk[j].Accept? && j in t.q.rx.log
    ensures t.q.rx.log[j] == Entry(Some(File(s.p.cfg.files[j].name, Mixed(s.p, j, s.q.cfg.disk[j].resume))), j + 1)
  {
    var disk := s.q.cfg.disk;
    var f := HydraTransfer.FirstRefused(disk);
    j := HydraWrongEnd.NextAccepted(disk, f);
    HydraWrongEnd.NotTame(disk, f, j);
    hide Reaches, Opening, HydraCompletion.Ready, HydraSession.Unacknowledged, HydraTransfer.Tame, SteadyStep,
         SmoothStep,
         Matched, Lagging;
    var a := GetsTo(s, f);
    var b := FallsBehind(a, f);
    var c := LagsOn(b, f + 1, j);
    t := TakesWrongOne(c, j);
    Onward(SmoothStep, b, c, t);
    HydraCompletion.SmoothIsSteady(b, t);
    Onward(SteadyStep, s, a, b);
    Onward(SteadyStep, s, b, t);
  }

  /** The session opens, and the files before the first refused one go over. */
  lemma GetsTo(s: Link, k: nat) returns (t: Link)
    requires Opening(s) && !s.p.hdxlink && !s.q.hdxlink && Matched(s.p.cfg.files, s.q.cfg.disk)
    requires !HydraSession.Unacknowledged(s.p.cfg, s.q.cfg)
    requires k <= |s.p.cfg.files| && HydraTransfer.AcceptedBefore(s.q.cfg.disk, k)
    ensures Reaches(SteadyStep, s, t) && HydraCompletion.Ready(t, k) && SameSides(s, t)
  {
    hide Reaches, Opening, HydraCompletion.Opened, HydraCompletion.Blank, HydraCompletion.Ready,
         HydraSession.Unacknowledged,
         SteadyStep, SmoothStep, Matched;
    var a := HydraCompletion.Opens(s);
    HydraCompletion.FreshBoth(s);
    HydraCompletion.OpenedReady(s, a);
    OpenedSides(s, a);
    t := HydraCompletion.FilesGo(a, 0, k);
    Onward(SmoothStep, s, a, t);
    HydraCompletion.SmoothIsSteady(s, t);
  }

  lemma OpenedSides(s: Link, a: Link)
    requires a.p == HydraCompletion.Opened(s.p, s.q.cfg, TxFinfo)
    requires a.q == HydraCompletion.Opened(s.q.(txoptions := RX_INITIAL), s.p.cfg, TxFinfo)
    ensures SameSides(s, a)
  {
  }

  /** Exactly in the batches that are not tame a file can be closed by the end of another
      one, on any link, when every copy of an offer is answered alike. */
  lemma MisfilesExactly(s: Link)
    requires Opening(s) && Matched(s.p.cfg.files, s.q.cfg.disk)
    ensures (exists t :: Reaches(SteadyStep, s, t) && Misfiled(t)) <==> !HydraTransfer.Tame(s.q.cfg.disk)
  {
    hide Opening, Reaches, HydraTransfer.Tame, SteadyStep, Matched;
    if HydraTransfer.Tame(s.q.cfg.disk) {
      forall t | Reaches(SteadyStep, s, t) ensures !Misfiled(t) {
        HydraTransfer.TransferSafety(s, t);
      }
    } else {
      var t, j := HydraWrongEnd.ClosesWrongly(s);
      assert Misfiled(t);
    }
  }

  // ----- a window without acknowledgements --------------------------------------------------

  /** What the sender asks for: two options, and a window for what it sends. */
  const ASKED := NONE.(xonxoff := true, telenet := true)
  const WINDOW := 4096

  function NewPeer(options: Options, txwindow: nat, files: seq<File>, disk: seq<Decision>): Peer {
    Peer(Config(options, txwindow, 0, true, 2048, files, disk),
         Tx(TxStart, files != [], 0, 0, 0, 0, 0, 512, 0, 1024, 0, [], 0),
         Rx(RxInit, false, 0, "", [], 0, 0, 0, 0, 512, false, 0, 0, map[]),
         NONE, RX_INITIAL, false, DevDone, false)
  }

  function Start(): Link {
    Link(NewPeer(ASKED, WINDOW, [File("a", [1])], []), NewPeer(NONE, 0, [], [Accept([])]), [], [])
  }

  lemma FreshStart()
    ensures Opening(Start())
  {
    assert MaxBlock(9600) == 2048 && FirstBlock(9600) == 512;
    assert Wanted(NONE) == NONE && Wanted(ASKED) == ASKED;
  }

  lemma SetUp() returns (s: Link)
    ensures Reaches(SmoothStep, Start(), s) && s.out == [] && s.back == []
    ensures s.p == Start().p.(tx := Start().p.tx.(state := TxFinfo, window := WINDOW), rx := s.p.rx,
            txoptions := s.p.txoptions, rxoptions := s.p.rxoptions)
    ensures s.q.cfg == Start().q.cfg && s.q.rx.state == RxFinfo && s.q.rx.window == 0 && s.q.tx.state == TxFinfo
            && !s.q.hdxlink
  {
    hide Reaches, Opening, HydraInit.WindowsRead, HydraSession.Agreed;
    FreshStart();
    s := HydraCompletion.Opens(Start());
    HydraInit.WindowsKept(0, 0);
    HydraInit.WindowsLost(WINDOW, 0);
  }

  /** A sender with a window of 4096 bytes is in front of a receiver that never
      acknowledges. */
  lemma WindowUnacknowledged() returns (s: Link, t: Link)
    ensures Opening(s) && Reaches(Step, s, t)
    ensures t.p.tx.window == t.p.cfg.txwindow == 4096 && t.q.rx.window == 0 && t.p.tx.state == TxXData
            && t.q.rx.state == RxData
  {
    hide Reaches, Opening, SmoothStep, Step;
    FreshStart();
    s := Start();
    var a := SetUp();
    var b := HydraCompletion.Offers(a, 0);
    var c := HydraCompletion.AnswersOffer(b, b.out[0], 0);
    t := HydraCompletion.Begins(c, c.back[0], 0);
    Onward(SmoothStep, s, a, b);
    Onward(SmoothStep, s, b, c);
    Onward(SmoothStep, s, c, t);
    HydraCompletion.SmoothIsSteady(s, t);
  }
}
