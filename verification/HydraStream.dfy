/** A whole stream of packets, each behind the prefix the receiver has asked for, as one
    side of a session sends it. */
module HydraStream {
  import opened Crc
  import opened HydraCodec
  import opened HydraOptions
  import opened HydraRoundTrip
  import opened Maybe

  /** A packet as txpkt gets it, and the byte that is behind it in the buffer. */
  datatype Outgoing = Outgoing(payload: seq<byte>, kind: byte, options: Options, stale: byte)

  function Sent(p: Outgoing, prefix: seq<byte>): seq<byte> {
    PrefixSent(prefix) + Wire(p.payload, p.kind, p.options, p.stale)
  }

  function Stream(ps: seq<Outgoing>, prefix: seq<byte>): seq<byte> {
    if ps == [] then [] else Sent(ps[0], prefix) + Stream(ps[1..], prefix)
  }

  function Packets(ps: seq<Outgoing>): seq<Event> {
    if ps == [] then [] else [Packet(ps[0].payload, ps[0].kind)] + Packets(ps[1..])
  }

  /** What a sender that keeps to the negotiated options sends. */
  predicate Fits(p: Outgoing, rx: Options) {
    |p.payload| <= MAXBLKLEN + OVERHEAD && (p.options == rx || AlwaysHex(p.kind))
  }

  /** No byte of the prefix is read as DLE. */
  predicate NoDle(s: seq<byte>, o: Options) {
    forall i | 0 <= i < |s| :: s[i] != DLE && (o.highbit ==> Strip(s[i]) != DLE)
  }

  /** Between packets: at most the DLE of the last packet end is pending, and nothing has
      been stored behind it. */
  ghost predicate Between(st: Rx) {
    ValidRx(st) && (st.dle == 0 || (st.dle == 1 && (st.p == None || st.p == Some(0))))
  }

  /** An empty block is decoded to nothing, whatever its format. */
  lemma EmptyBlock(st: Rx, o: Options)
    requires ValidRx(st) && (st.p == None || st.p == Some(0))
    ensures var (st1, e) := Finish(st, o); e == Quiet && st1.dle == st.dle && (st1.p == None || st1.p == Some(0))
  {
    if st.p == Some(0) {
      assert st.buf[..0] == [];
      assert Unpack7([], 0, 0) == [];
    }
  }

  lemma OneOfPrefix(st: Rx, c: byte, o: Options)
    requires Between(st) && c != DLE && (o.highbit ==> Strip(c) != DLE)
    ensures var (st1, e) := RxByte(st, c, o); e == Quiet && Between(st1)
  {
    hide Finish, Decode, Checked, Strip, Flip, Dropped;
    RxByteValid(st, c, o);
    if st.dle == 1 {
      EmptyBlock(st, o);
    }
  }

  /** A prefix delivers nothing and leaves the receiver between packets. */
  lemma {:induction false} PrefixQuiet(st: Rx, s: seq<byte>, o: Options)
    requires Between(st) && NoDle(s, o)
    ensures Feed(st, s, o).1 == [] && Between(Feed(st, s, o).0)
    decreases |s|
  {
    hide RxByte, Between;
    if s != [] {
      BetweenValid(st);
      OneOfPrefix(st, s[0], o);
      assert forall i | 0 <= i < |s[1..]| :: s[1..][i] == s[i + 1];
      PrefixQuiet(RxByte(st, s[0], o).0, s[1..], o);
    }
  }

  lemma BetweenValid(st: Rx)
    requires Between(st)
    ensures ValidRx(st) && st.dle <= 3
  {
  }

  lemma PacketArrives(st: Rx, p: Outgoing, prefix: seq<byte>, rx: Options)
    requires Between(st) && Fits(p, rx) && NoDle(PrefixSent(prefix), rx)
    ensures var r := Feed(st, Sent(p, prefix), rx); r.1 == [Packet(p.payload, p.kind)] && Between(r.0)
  {
    hide Feed, Wire, PrefixSent, AlwaysHex, NoDle;
    PrefixQuiet(st, PrefixSent(prefix), rx);
    var st1 := Feed(st, PrefixSent(prefix), rx).0;
    FeedAppend(st, PrefixSent(prefix), Wire(p.payload, p.kind, p.options, p.stale), rx);
    RoundTrip(st1, p.payload, p.kind, p.options, rx, p.stale);
    assert [] + [Packet(p.payload, p.kind)] == [Packet(p.payload, p.kind)];
  }

  /** All the packets of a session arrive, in order, each once and unchanged, whatever
      prefix without DLE the receiver has asked for. */
  lemma {:induction false} StreamArrives(st: Rx, ps: seq<Outgoing>, prefix: seq<byte>, rx: Options)
    requires Between(st) && (forall p | p in ps :: Fits(p, rx)) && NoDle(PrefixSent(prefix), rx)
    ensures var r := Feed(st, Stream(ps, prefix), rx); r.1 == Packets(ps) && Between(r.0)
    decreases |ps|
  {
    hide Between, Sent, PrefixSent, Fits, NoDle, RxByte;
    BetweenValid(st);
    if ps == [] {
      assert Feed(st, [], rx) == (st, []);
    } else {
      hide Feed;
      PacketArrives(st, ps[0], prefix, rx);
      var st1 := Feed(st, Sent(ps[0], prefix), rx).0;
      StreamArrives(st1, ps[1..], prefix, rx);
      FeedAppend(st, Sent(ps[0], prefix), Stream(ps[1..], prefix), rx);
    }
  }

  /** However the line cuts the stream into calls of rxpkt. */
  lemma StreamInPieces(st: Rx, pieces: seq<seq<byte>>, ps: seq<Outgoing>, prefix: seq<byte>, rx: Options)
    requires Between(st) && (forall p | p in ps :: Fits(p, rx)) && NoDle(PrefixSent(prefix), rx)
    requires Flatten(pieces) == Stream(ps, prefix)
    ensures FeedPieces(st, pieces, rx).1 == Packets(ps)
  {
    hide Fits, NoDle, PrefixSent, Stream, Packets, Feed, FeedPieces, Flatten;
    StreamArrives(st, ps, prefix, rx);
    PiecesAreOneStream(st, pieces, rx);
  }
}
