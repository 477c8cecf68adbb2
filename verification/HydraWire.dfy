/** Sessions over byte lines: whatever two sessions have done, the bytes of the packets
    under way are decoded by the other side, with the options it has at that moment, to
    these packets. */
module HydraWire {
  import opened HydraLink
  import opened Reachability
  import C = HydraCodec
  import HydraRoundTrip
  import HydraSession
  import HydraStream
  import P = HydraPeer

  type byte = bv8

  /** The type byte of a packet. */
  function Kind(p: P.Packet): byte {
    match p
    case Start => C.START
    case Init(_, _, _) => C.INIT
    case InitAck => C.INITACK
    case Finfo(_, _) => 68
    case FinfoAck(_, _) => 69
    case Data(_, _, _) => C.DATA
    case DataAck(_, _) => 71
    case Rpos(_, _, _, _) => 72
    case Eof(_, _) => 73
    case EofAck(_) => 74
    case End => C.END
    case Idle => C.IDLE
    case Device => 77
    case DeviceAck => 78
  }

  lemma HexKinds(p: P.Packet)
    ensures C.AlwaysHex(Kind(p)) <==> HydraSession.IsHex(p)
  {
  }

  /** How the fields of a packet are laid out in its payload. */
  type Layout = P.Packet -> seq<byte>

  /** No packet of the line is too long for the buffers. */
  predicate Fits(layout: Layout, line: seq<P.Flight>) {
    forall i | 0 <= i < |line| :: |layout(line[i].pkt)| <= C.MAXBLKLEN + C.OVERHEAD
  }

  /** A packet under way as txpkt was given it; `stale` is what was behind it in the buffer. */
  function Laid(f: P.Flight, layout: Layout, stale: byte): HydraStream.Outgoing {
    HydraStream.Outgoing(layout(f.pkt), Kind(f.pkt), f.options, stale)
  }

  function AllLaid(line: seq<P.Flight>, layout: Layout, stale: seq<byte>): (r: seq<HydraStream.Outgoing>)
    requires |stale| == |line|
    ensures |r| == |line| && forall i | 0 <= i < |line| :: r[i] == Laid(line[i], layout, stale[i])
  {
    seq(|line|, i requires 0 <= i < |line| => Laid(line[i], layout, stale[i]))
  }

  /** What rxpkt is to make of the line. */
  function Meant(line: seq<P.Flight>, layout: Layout): seq<C.Event> {
    if line == [] then [] else [C.Packet(layout(line[0].pkt), Kind(line[0].pkt))] + Meant(line[1..], layout)
  }

  lemma {:induction false} MeantPackets(line: seq<P.Flight>, layout: Layout, stale: seq<byte>)
    requires |stale| == |line|
    ensures HydraStream.Packets(AllLaid(line, layout, stale)) == Meant(line, layout)
    decreases |line|
  {
    if line != [] {
      assert AllLaid(line, layout, stale)[1..] == AllLaid(line[1..], layout, stale[1..]);
      MeantPackets(line[1..], layout, stale[1..]);
    }
  }

  /** A line whose packets are encoded as the side `q` that reads it decodes. */
  lemma Arrives(p: P.Peer, q: P.Peer, line: seq<P.Flight>, st: C.Rx, layout: Layout, stale: seq<byte>,
      prefix: seq<byte>, pieces: seq<seq<byte>>)
    requires HydraSession.Understood(p, q, line) && Fits(layout, line) && |stale| == |line|
    requires HydraStream.Between(st) && HydraStream.NoDle(C.PrefixSent(prefix), q.rxoptions)
    requires HydraRoundTrip.Flatten(pieces) == HydraStream.Stream(AllLaid(line, layout, stale), prefix)
    ensures HydraRoundTrip.FeedPieces(st, pieces, q.rxoptions).1 == Meant(line, layout)
  {
    hide HydraStream.Between, HydraStream.NoDle, C.PrefixSent, HydraStream.Stream, HydraStream.Packets, Meant, Fits;
    var ps := AllLaid(line, layout, stale);
    forall o | o in ps ensures HydraStream.Fits(o, q.rxoptions) {
      var i :| 0 <= i < |ps| && ps[i] == o;
      assert line[i] in line;
      HexKinds(line[i].pkt);
      Laying(layout, line, i);
    }
    MeantPackets(line, layout, stale);
    HydraStream.StreamInPieces(st, pieces, ps, prefix, q.rxoptions);
  }

  /** The bytes from `p` to `q` in any state of any run, behind any prefix without DLE and
      however they are cut into calls of rxpkt. */
  lemma OutArrives(s: Link, t: Link, st: C.Rx, layout: Layout, stale: seq<byte>, prefix: seq<byte>,
      pieces: seq<seq<byte>>)
    requires Opening(s) && Reaches(Step, s, t) && Fits(layout, t.out) && |stale| == |t.out|
    requires HydraStream.Between(st) && HydraStream.NoDle(C.PrefixSent(prefix), t.q.rxoptions)
    requires HydraRoundTrip.Flatten(pieces) == HydraStream.Stream(AllLaid(t.out, layout, stale), prefix)
    ensures HydraRoundTrip.FeedPieces(st, pieces, t.q.rxoptions).1 == Meant(t.out, layout)
  {
    hide *;
    HydraSession.NegotiationAgreement(s, t);
    Arrives(t.p, t.q, t.out, st, layout, stale, prefix, pieces);
  }

  /** And those from `q` to `p`. */
  lemma BackArrives(s: Link, t: Link, st: C.Rx, layout: Layout, stale: seq<byte>, prefix: seq<byte>,
      pieces: seq<seq<byte>>)
    requires Opening(s) && Reaches(Step, s, t) && Fits(layout, t.back) && |stale| == |t.back|
    requires HydraStream.Between(st) && HydraStream.NoDle(C.PrefixSent(prefix), t.p.rxoptions)
    requires HydraRoundTrip.Flatten(pieces) == HydraStream.Stream(AllLaid(t.back, layout, stale), prefix)
    ensures HydraRoundTrip.FeedPieces(st, pieces, t.p.rxoptions).1 == Meant(t.back, layout)
  {
    hide *;
    HydraSession.NegotiationAgreement(s, t);
    Arrives(t.q, t.p, t.back, st, layout, stale, prefix, pieces);
  }

  lemma Laying(layout: Layout, line: seq<P.Flight>, i: nat)
    requires Fits(layout, line) && i < |line|
    ensures |layout(line[i].pkt)| <= C.MAXBLKLEN + C.OVERHEAD
  {
  }
}
