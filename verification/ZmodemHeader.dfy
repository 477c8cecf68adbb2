/** ZMODEM headers (ddz/zm.c, zsbhdr, zsbh32, zshhdr, zgethdr, zrbhdr, zrbhdr32,
    zrhhdr, noxrd7, stohdr, rclhdr): the three encodings, the scanner that finds a
    header behind garbage, and their round trip. */
module ZmodemHeader {
  import opened Crc
  import opened Hex
  import opened Maybe
  import opened ZmCrc
  import opened ZmodemCodec

  const ZBIN: byte := 65
  const ZHEX: byte := 66
  const ZBIN32: byte := 67
  const LF: byte := 0x0a

  const ZACK: byte := 3
  const ZFIN: byte := 8

  datatype Form = Bin16 | Bin32 | Hex

  // ----- positions ------------------------------------------------------------------

  /** stohdr. */
  function Stohdr(pos: bv32): (hdr: seq<byte>)
    ensures |hdr| == 4
  {
    [(pos & 0xff) as byte, ((pos >> 8) & 0xff) as byte, ((pos >> 16) & 0xff) as byte, ((pos >> 24) & 0xff) as byte]
  }

  /** rclhdr, and the position zgethdr leaves in Rxpos. */
  function Rclhdr(hdr: seq<byte>): bv32
    requires |hdr| == 4
  {
    var l := hdr[3] as bv32;
    var l := (l << 8) | (hdr[2] as bv32);
    var l := (l << 8) | (hdr[1] as bv32);
    (l << 8) | (hdr[0] as bv32)
  }

  lemma PositionRoundTrip(pos: bv32)
    ensures Rclhdr(Stohdr(pos)) == pos
  {
  }

  // ----- sending --------------------------------------------------------------------

  /** zputhex. */
  function PutHex(c: byte): seq<byte> { [HexDigit((c & 0xf0) >> 4), HexDigit(c & 0x0f)] }

  function HexLine(s: seq<byte>): seq<byte> {
    if s == [] then [] else PutHex(s[0]) + HexLine(s[1..])
  }

  /** A header behind its ZPADs. */
  function Body(kind: byte, hdr: seq<byte>, form: Form, last: byte, ctlesc: bool): seq<byte> {
    var s := [kind] + hdr;
    match form
    case Bin16 => [ZDLE, ZBIN] + Line(s + Tail16(s), last, ctlesc)
    case Bin32 => [ZDLE, ZBIN32] + Line(s + Tail32(s), last, ctlesc)
    case Hex => [ZDLE, ZHEX] + HexLine(s + Tail16(s)) + [CR, 0x8a]
  }

  /** zsbhdr, zsbh32 and zshhdr.  A hexadecimal header uncorks the other side, but
      for ZFIN and ZACK. */
  function Header(kind: byte, hdr: seq<byte>, form: Form, last: byte, ctlesc: bool): seq<byte> {
    (if form == Hex then [ZPAD, ZPAD] else [ZPAD]) + Body(kind, hdr, form, last, ctlesc)
    + if form == Hex && kind != ZFIN && kind != ZACK then [XON] else []
  }

  // ----- receiving ------------------------------------------------------------------

  datatype Head = Found(kind: byte, hdr: seq<byte>) | Failed(got: Got)

  /** noxrd7: parity off, flow control and, if they are escaped, control characters
      passed over. */
  function NoXrd7(input: seq<byte>, ctlesc: bool): (r: (Option<byte>, seq<byte>))
    ensures |r.1| <= |input| && (r.0.Some? ==> |r.1| < |input|)
    decreases |input|
  {
    if input == [] then (None, [])
    else
      var c := Strip7(input[0]);
      if c == XON || c == XOFF || (ctlesc && !Graphic(c) && c != CR && c != LF && c != ZDLE) then
        NoXrd7(input[1..], ctlesc)
      else (Some(c), input[1..])
  }

  datatype Bytes = All(bytes: seq<byte>) | Stopped(got: Got)

  /** `n` bytes by zdlread. */
  function ReadN(input: seq<byte>, n: nat, ctlesc: bool): (r: (Bytes, seq<byte>))
    ensures |r.1| <= |input| && (r.0.All? ==> |r.0.bytes| == n)
    decreases n
  {
    if n == 0 then (All([]), input)
    else
      var (g, rest) := ReadDl(input, ctlesc);
      if g.Char? then
        var (b, rest') := ReadN(rest, n - 1, ctlesc);
        (if b.All? then All([g.c] + b.bytes) else b, rest')
      else (Stopped(g), rest)
  }

  /** `n` bytes by zgethex. */
  function ReadHexN(input: seq<byte>, n: nat, ctlesc: bool): (r: (Bytes, seq<byte>))
    ensures |r.1| <= |input| && (r.0.All? ==> |r.0.bytes| == n)
    decreases n
  {
    if n == 0 then (All([]), input)
    else
      var (hi, rest) := NoXrd7(input, ctlesc);
      if hi.None? then (Stopped(TimedOut), rest)
      else if Digit(hi.value) == BAD_DIGIT then (Stopped(Bad), rest)
      else
        var (lo, rest1) := NoXrd7(rest, ctlesc);
        if lo.None? then (Stopped(TimedOut), rest1)
        else if Digit(lo.value) == BAD_DIGIT then (Stopped(Bad), rest1)
        else
          var (b, rest') := ReadHexN(rest1, n - 1, ctlesc);
          (if b.All? then All([(Digit(hi.value) << 4) | Digit(lo.value)] + b.bytes) else b, rest')
  }

  function Verdict(b: Bytes, good: bool): Head
    requires b.All? ==> |b.bytes| >= 5
  {
    match b
    case Stopped(g) => Failed(g)
    case All(s) => if good then Found(s[0], s[1..5]) else Failed(Bad)
  }

  /** zrbhdr, zrbhdr32 and zrhhdr. */
  function ReadHeader(input: seq<byte>, form: Form, ctlesc: bool): (r: (Head, seq<byte>))
    ensures |r.1| <= |input|
  {
    match form
    case Bin16 =>
      var (b, rest) := ReadN(input, 7, ctlesc);
      (Verdict(b, b.All? && Sum16(b.bytes) == 0), rest)
    case Bin32 =>
      var (b, rest) := ReadN(input, 9, ctlesc);
      (Verdict(b, b.All? && Valid32(b.bytes)), rest)
    case Hex =>
      var (b, rest) := ReadHexN(input, 7, ctlesc);
      var good := b.All? && Sum16(b.bytes) == 0;
      (Verdict(b, good), if good then LineEnd(rest) else rest)
  }

  /** One character behind a hexadecimal header is read, and one more behind a CR. */
  function LineEnd(input: seq<byte>): seq<byte> {
    if input == [] then []
    else if Strip7(input[0]) == CR then (if |input| >= 2 then input[2..] else [])
    else input[1..]
  }

  /** zgethdr at `again`; `n` is what is left of the garbage count. */
  function Scan(input: seq<byte>, n: int, cans: int, ctlesc: bool): (Head, seq<byte>)
    decreases |input|, 2
  {
    if input == [] then (Failed(TimedOut), [])
    else
      var (c, rest) := (input[0], input[1..]);
      if c == ZDLE then GotCan(rest, n, cans, ctlesc)
      else if Strip7(c) == ZPAD then Splat(rest, n, ctlesc)
      else Garbage(rest, n, ctlesc)
  }

  /** At `agn2`. */
  function Garbage(input: seq<byte>, n: int, ctlesc: bool): (Head, seq<byte>)
    decreases |input|, 3
  {
    if n - 1 == 0 then (Failed(Bad), input) else Scan(input, n - 1, 5, ctlesc)
  }

  /** At `gotcan`. */
  function GotCan(input: seq<byte>, n: int, cans: int, ctlesc: bool): (Head, seq<byte>)
    decreases |input|, 4
  {
    if cans - 1 <= 0 then (Failed(Cancelled), input)
    else if input == [] then (Failed(TimedOut), [])
    else
      var (c, rest) := (input[0], input[1..]);
      if c == ZCRCW then (Failed(Bad), rest)
      else if c == ZDLE then
        if cans - 2 <= 0 then (Failed(Cancelled), rest) else Scan(rest, n, cans - 2, ctlesc)
      else Garbage(rest, n, ctlesc)
  }

  /** At `splat`, behind a ZPAD. */
  function Splat(input: seq<byte>, n: int, ctlesc: bool): (Head, seq<byte>)
    decreases |input|, 4
  {
    var (c, rest) := NoXrd7(input, ctlesc);
    if c.None? then (Failed(TimedOut), rest)
    else if c.value == ZPAD then Splat(rest, n, ctlesc)
    else if c.value == ZDLE then
      var (d, rest1) := NoXrd7(rest, ctlesc);
      if d.None? then (Failed(TimedOut), rest1)
      else if d.value == ZBIN then ReadHeader(rest1, Bin16, ctlesc)
      else if d.value == ZBIN32 then ReadHeader(rest1, Bin32, ctlesc)
      else if d.value == ZHEX then ReadHeader(rest1, Hex, ctlesc)
      else if d.value == ZDLE then GotCan(rest1, n, 5, ctlesc)
      else Garbage(rest1, n, ctlesc)
    else Garbage(rest, n, ctlesc)
  }

  /** zgethdr with room for `n` characters of garbage. */
  function GetHdr(input: seq<byte>, n: int, ctlesc: bool): (Head, seq<byte>) { Scan(input, n, 5, ctlesc) }

  // ----- the round trip ------------------------------------------------------------------

  lemma ReadExactly(c: byte, last: byte, tx: bool, rx: bool, w: seq<byte>)
    requires rx ==> tx
    ensures ReadDl(Chunk(c, last, tx) + w, rx) == (Char(c), w)
  {
    EscapedByte(c, last, tx);
    EscapeClasses(Flip(c));
    if Escaped(c, last, tx) {
      assert ([ZDLE, Flip(c)] + w)[1..] == [Flip(c)] + w && ([Flip(c)] + w)[1..] == w;
    } else {
      assert ([c] + w)[1..] == w;
      PlainIsNoFlow(c, last, tx);
    }
  }

  lemma PlainIsNoFlow(c: byte, last: byte, tx: bool)
    ensures !Escaped(c, last, tx) ==> !Flow(c) && c != ZDLE
  {
  }

  lemma {:induction false} ReadNBack(s: seq<byte>, last: byte, tx: bool, rx: bool, w: seq<byte>)
    requires rx ==> tx
    ensures ReadN(Line(s, last, tx) + w, |s|, rx) == (All(s), w)
    decreases |s|
  {
    hide ReadDl, Chunk, Last;
    if s == [] {
      assert Line(s, last, tx) + w == w;
    } else {
      var l := Last(s[0], last, tx);
      assert Line(s, last, tx) + w == Chunk(s[0], last, tx) + (Line(s[1..], l, tx) + w);
      ReadExactly(s[0], last, tx, rx, Line(s[1..], l, tx) + w);
      ReadNBack(s[1..], l, tx, rx, w);
      assert [s[0]] + s[1..] == s;
    }
  }

  lemma HexBits(c: byte)
    ensures var (hi, lo) := (HexDigit((c & 0xf0) >> 4), HexDigit(c & 0x0f));
            && Digit(hi) != BAD_DIGIT && Digit(lo) != BAD_DIGIT && (Digit(hi) << 4) | Digit(lo) == c
            && Strip7(hi) == hi && Strip7(lo) == lo && Graphic(hi) && Graphic(lo)
  {
  }

  lemma NoXrd7Char(c: byte, w: seq<byte>, ctlesc: bool)
    requires Strip7(c) == c && (Graphic(c) || c == ZDLE)
    ensures NoXrd7([c] + w, ctlesc) == (Some(c), w)
  {
    assert ([c] + w)[1..] == w;
  }

  lemma ReadHexOne(c: byte, back: seq<byte>, n: nat, rx: bool)
    ensures var (b, rest) := ReadHexN(back, n, rx);
            ReadHexN(PutHex(c) + back, n + 1, rx) == (if b.All? then All([c] + b.bytes) else b, rest)
  {
    hide NoXrd7, Digit, HexDigit, Graphic, Strip7;
    var (hi, lo) := (HexDigit((c & 0xf0) >> 4), HexDigit(c & 0x0f));
    assert PutHex(c) + back == [hi] + ([lo] + back);
    HexBits(c);
    NoXrd7Char(hi, [lo] + back, rx);
    NoXrd7Char(lo, back, rx);
  }

  lemma {:induction false} ReadHexBack(s: seq<byte>, rx: bool, w: seq<byte>)
    ensures ReadHexN(HexLine(s) + w, |s|, rx) == (All(s), w)
    decreases |s|
  {
    hide PutHex;
    if s == [] {
      assert HexLine(s) + w == w;
    } else {
      var back := HexLine(s[1..]) + w;
      assert HexLine(s) + w == PutHex(s[0]) + back;
      ReadHexBack(s[1..], rx, w);
      ReadHexOne(s[0], back, |s| - 1, rx);
      assert [s[0]] + s[1..] == s;
    }
  }

  lemma BinaryBack(kind: byte, hdr: seq<byte>, wide: bool, last: byte, tx: bool, rx: bool, w: seq<byte>)
    requires |hdr| == 4 && (rx ==> tx)
    ensures var s := [kind] + hdr;
            var t := s + if wide then Tail32(s) else Tail16(s);
            ReadHeader(Line(t, last, tx) + w, if wide then Bin32 else Bin16, rx) == (Found(kind, hdr), w)
  {
    hide Sum16, Valid32, ReadN, Line;
    var s := [kind] + hdr;
    var t := s + if wide then Tail32(s) else Tail16(s);
    TailWidth(s);
    SumIsZero(s);
    CheckedIsValid(s);
    ReadNBack(t, last, tx, rx, w);
    hide Tail16, Tail32;
    assert t[0] == kind && t[1..5] == hdr;
  }

  lemma HexBack(kind: byte, hdr: seq<byte>, rx: bool, w: seq<byte>)
    requires |hdr| == 4
    ensures var s := [kind] + hdr;
            ReadHeader(HexLine(s + Tail16(s)) + ([CR, 0x8a] + w), Hex, rx) == (Found(kind, hdr), w)
  {
    hide Sum16, ReadHexN, HexLine;
    var s := [kind] + hdr;
    var t := s + Tail16(s);
    TailWidth(s);
    SumIsZero(s);
    ReadHexBack(t, rx, [CR, 0x8a] + w);
    hide Tail16;
    assert t[0] == kind && t[1..5] == hdr;
    LineEndBack(w);
  }

  lemma LineEndBack(w: seq<byte>)
    ensures LineEnd([CR, 0x8a] + w) == w
  {
    assert ([CR, 0x8a] + w)[2..] == w;
  }

  function FormChar(form: Form): byte { match form case Bin16 => ZBIN case Bin32 => ZBIN32 case Hex => ZHEX }

  lemma SplatReads(form: Form, w: seq<byte>, n: int, rx: bool)
    ensures Splat([ZDLE, FormChar(form)] + w, n, rx) == ReadHeader(w, form, rx)
  {
    hide NoXrd7, ReadHeader;
    assert [ZDLE, FormChar(form)] + w == [ZDLE] + ([FormChar(form)] + w);
    NoXrd7Char(ZDLE, [FormChar(form)] + w, rx);
    NoXrd7Char(FormChar(form), w, rx);
  }

  /** A header behind its first ZPAD. */
  lemma BodyBack(kind: byte, hdr: seq<byte>, form: Form, last: byte, tx: bool, rx: bool, w: seq<byte>, n: int)
    requires |hdr| == 4 && (form != Hex && rx ==> tx)
    ensures Splat(Body(kind, hdr, form, last, tx) + w, n, rx) == (Found(kind, hdr), w)
  {
    hide Splat, ReadHeader, HexLine, Line, Tail16, Tail32;
    var s := [kind] + hdr;
    match form {
      case Bin16 =>
        var t := Line(s + Tail16(s), last, tx);
        assert [ZDLE, ZBIN] + t + w == [ZDLE, ZBIN] + (t + w);
        SplatReads(form, t + w, n, rx);
        BinaryBack(kind, hdr, false, last, tx, rx, w);
      case Bin32 =>
        var t := Line(s + Tail32(s), last, tx);
        assert [ZDLE, ZBIN32] + t + w == [ZDLE, ZBIN32] + (t + w);
        SplatReads(form, t + w, n, rx);
        BinaryBack(kind, hdr, true, last, tx, rx, w);
      case Hex =>
        var t := HexLine(s + Tail16(s));
        assert [ZDLE, ZHEX] + t + [CR, 0x8a] + w == [ZDLE, ZHEX] + (t + ([CR, 0x8a] + w));
        SplatReads(form, t + ([CR, 0x8a] + w), n, rx);
        HexBack(kind, hdr, rx, w);
    }
  }

  /** No ZPAD of either parity, and no CAN. */
  predicate Harmless(g: seq<byte>) { forall i | 0 <= i < |g| :: Strip7(g[i]) != ZPAD && g[i] != ZDLE }

  lemma {:induction false} PassGarbage(g: seq<byte>, w: seq<byte>, n: int, cans: int, rx: bool)
    requires Harmless(g) && |g| < n
    ensures g != [] ==> Scan(g + w, n, cans, rx) == Scan(w, n - |g|, 5, rx)
    decreases |g|
  {
    hide GotCan, Splat, Strip7;
    if g != [] {
      assert (g + w)[1..] == g[1..] + w;
      assert Scan(g + w, n, cans, rx) == Scan(g[1..] + w, n - 1, 5, rx);
      if |g| == 1 {
        assert g[1..] + w == w;
      } else {
        PassGarbage(g[1..], w, n - 1, 5, rx);
      }
    }
  }

  /** A header sent in any of the three encodings is found behind any garbage that is
      shorter than the limit and holds no ZPAD and no CAN: the same type, the same
      four bytes, and the input left where the header ends. */
  lemma HeaderRoundTrip(g: seq<byte>, kind: byte, hdr: seq<byte>, form: Form, last: byte, tx: bool, rx: bool, n: int,
      more: seq<byte>)
    requires Harmless(g) && |g| < n && |hdr| == 4 && (form != Hex && rx ==> tx)
    ensures var uncork := if form == Hex && kind != ZFIN && kind != ZACK then [XON] else [];
            GetHdr(g + Header(kind, hdr, form, last, tx) + more, n, rx) == (Found(kind, hdr), uncork + more)
  {
    hide Splat, Scan, Body;
    var uncork := if form == Hex && kind != ZFIN && kind != ZACK then [XON] else [];
    var body := Body(kind, hdr, form, last, tx);
    var w := uncork + more;
    var pads := if form == Hex then [ZPAD, ZPAD] else [ZPAD];
    assert g + Header(kind, hdr, form, last, tx) + more == g + (pads + (body + w));
    if g != [] {
      PassGarbage(g, pads + (body + w), n, 5, rx);
    } else {
      assert g + (pads + (body + w)) == pads + (body + w);
    }
    ScanPads(body + w, n - |g|, rx, form == Hex);
    BodyBack(kind, hdr, form, last, tx, rx, w, n - |g|);
  }

  lemma ScanPads(w: seq<byte>, n: int, rx: bool, two: bool)
    ensures Scan((if two then [ZPAD, ZPAD] else [ZPAD]) + w, n, 5, rx) == Splat(w, n, rx)
  {
    hide GotCan;
    assert ([ZPAD] + w)[1..] == w && ([ZPAD, ZPAD] + w)[1..] == [ZPAD] + w;
    if two {
      NoXrd7Char(ZPAD, w, rx);
    }
  }

  /** So the position a peer stored is the position that is read back. */
  lemma PositionArrives(g: seq<byte>, kind: byte, pos: bv32, form: Form, last: byte, tx: bool, rx: bool, n: int,
      more: seq<byte>)
    requires Harmless(g) && |g| < n && (form != Hex && rx ==> tx)
    ensures var h := GetHdr(g + Header(kind, Stohdr(pos), form, last, tx) + more, n, rx).0;
            h.Found? && h.kind == kind && |h.hdr| == 4 && Rclhdr(h.hdr) == pos
  {
    HeaderRoundTrip(g, kind, Stohdr(pos), form, last, tx, rx, n, more);
    PositionRoundTrip(pos);
  }
}
