/** ZMODEM link escape encoding and data subpackets (ddz/zm.c, zsendline, zsdata,
    zsda32, zdlread, zdlread2, zrdata, zrdat32), as functions on byte streams, and
    the round trip through a line that inserts flow control characters. */
module ZmodemCodec {
  import opened Crc
  import opened ZmCrc

  const ZPAD: byte := 0x2a
  /** Also CAN. */
  const ZDLE: byte := 0x18
  const XON: byte := 0x11
  const XOFF: byte := 0x13
  const CR: byte := 0x0d

  const ZCRCE: byte := 104
  const ZCRCG: byte := 105
  const ZCRCQ: byte := 106
  const ZCRCW: byte := 107
  const ZRUB0: byte := 108
  const ZRUB1: byte := 109

  predicate FrameEnd(e: byte) { ZCRCE <= e <= ZCRCW }

  /** Not a control character, with either parity: `c & 0140`. */
  predicate Graphic(c: byte) { c & 0x60 != 0 }

  /** XON and XOFF with either parity. */
  predicate Flow(c: byte) { c == 0x11 || c == 0x13 || c == 0x91 || c == 0x93 }

  function Flip(c: byte): byte { c ^ 0x40 }

  function Strip7(c: byte): byte { c & 0x7f }

  // ----- the sender -----------------------------------------------------------------

  datatype Escape = Never | Always | AfterAt

  /** zsendline_init: one entry of the escape table. */
  function Entry(c: byte, ctlesc: bool): Escape {
    if Graphic(c) then Never
    else if c == ZDLE || c == 0x10 || c == 0x11 || c == 0x13 || c == 0x90 || c == 0x91 || c == 0x93 then Always
    else if c == 0x0d || c == 0x8d then if ctlesc then Always else AfterAt
    else if ctlesc then Always else Never
  }

  predicate Escaped(c: byte, last: byte, ctlesc: bool) {
    match Entry(c, ctlesc)
    case Never => false
    case Always => true
    case AfterAt => Strip7(last) == 0x40
  }

  /** What zsendline puts out for one byte, and what it leaves in lastsent. */
  function Chunk(c: byte, last: byte, ctlesc: bool): seq<byte> {
    if Escaped(c, last, ctlesc) then [ZDLE, Flip(c)] else [c]
  }

  function Last(c: byte, last: byte, ctlesc: bool): byte {
    if Escaped(c, last, ctlesc) then Flip(c) else c
  }

  function Line(s: seq<byte>, last: byte, ctlesc: bool): seq<byte> {
    if s == [] then [] else Chunk(s[0], last, ctlesc) + Line(s[1..], Last(s[0], last, ctlesc), ctlesc)
  }

  function LastOf(s: seq<byte>, last: byte, ctlesc: bool): byte {
    if s == [] then last else LastOf(s[1..], Last(s[0], last, ctlesc), ctlesc)
  }

  /** The check bytes behind the frame end. */
  function Tail(s: seq<byte>, crc32: bool): seq<byte> { if crc32 then Tail32(s) else Tail16(s) }

  /** A data subpacket on the line. */
  function Subpacket(s: seq<byte>, e: byte, last: byte, ctlesc: bool, crc32: bool): seq<byte> {
    Line(s, last, ctlesc) + [ZDLE, e] + Line(Tail(s + [e], crc32), LastOf(s, last, ctlesc), ctlesc)
    + if e == ZCRCW then [XON] else []
  }

  // ----- the receiver ------------------------------------------------------------------

  datatype Got = Char(c: byte) | End(e: byte) | Cancelled | TimedOut | Bad

  /** zdlread: what is read and what is left of the input.  The end of the input is
      a timeout. */
  function ReadDl(input: seq<byte>, ctlesc: bool): (r: (Got, seq<byte>))
    ensures |r.1| <= |input| && (r.0 != TimedOut ==> |r.1| < |input|)
    decreases |input|
  {
    if input == [] then (TimedOut, [])
    else
      var (c, rest) := (input[0], input[1..]);
      if Graphic(c) then (Char(c), rest)
      else if c == ZDLE then ReadEscape(rest, ctlesc)
      else if Flow(c) || ctlesc then ReadDl(rest, ctlesc)
      else (Char(c), rest)
  }

  /** Behind a ZDLE, and again after each character that is thrown away there. */
  function ReadEscape(input: seq<byte>, ctlesc: bool): (r: (Got, seq<byte>))
    ensures |r.1| <= |input|
    decreases |input|
  {
    var k := Cans(input, 3);
    if k >= |input| then (TimedOut, [])
    else
      var (c, rest) := (input[k], input[k + 1..]);
      if c == ZDLE then (Cancelled, rest)
      else if FrameEnd(c) then (End(c), rest)
      else if c == ZRUB0 then (Char(0x7f), rest)
      else if c == ZRUB1 then (Char(0xff), rest)
      else if Flow(c) || (ctlesc && !Graphic(c)) then ReadEscape(rest, ctlesc)
      else if c & 0x60 == 0x40 then (Char(Flip(c)), rest)
      else (Bad, rest)
  }

  /** How many of the next `max` characters are CANs before another comes. */
  function Cans(input: seq<byte>, max: nat): (k: nat)
    ensures k <= max && k <= |input|
  {
    if max == 0 || input == [] || input[0] != ZDLE then 0 else 1 + Cans(input[1..], max - 1)
  }

  /** The sum over everything read that is to come out right. */
  predicate Checks(fed: seq<byte>, crc32: bool) { if crc32 then Valid32(fed) else Sum16(fed) == 0 }

  datatype Data = Data(got: Got, data: seq<byte>, count: nat, rest: seq<byte>)

  function Width(crc32: bool): nat { if crc32 then 4 else 2 }

  /** zrdata and zrdat32 with `data` read so far. */
  function ReadData(input: seq<byte>, data: seq<byte>, length: nat, ctlesc: bool, crc32: bool): Data
    decreases |input|
  {
    if |data| > length then Data(Bad, data, 0, input)
    else
      var (g, rest) := ReadDl(input, ctlesc);
      match g
      case Char(c) => ReadData(rest, data + [c], length, ctlesc, crc32)
      case End(e) =>
        var (r, rest') := ReadCheck(rest, e, data + [e], Width(crc32), ctlesc, crc32);
        Data(r, data, if r.End? then |data| else 0, rest')
      case _ => Data(g, data, 0, rest)
  }

  /** The check bytes; a second frame end among them starts them over. */
  function ReadCheck(input: seq<byte>, e: byte, fed: seq<byte>, n: nat, ctlesc: bool, crc32: bool): (Got, seq<byte>)
    decreases |input|, n
  {
    if n == 0 then (if Checks(fed, crc32) then End(e) else Bad, input)
    else
      var (g, rest) := ReadDl(input, ctlesc);
      match g
      case Char(c) => ReadCheck(rest, e, fed + [c], n - 1, ctlesc, crc32)
      case End(e') => ReadCheck(rest, e', fed + [e'], Width(crc32), ctlesc, crc32)
      case _ => (g, rest)
  }

  // ----- through a line with flow control -------------------------------------------------

  /** The stream without XON and XOFF: `Unflow(n) == Unflow(w)` says that `n` is `w`
      with such characters put in anywhere. */
  function Unflow(s: seq<byte>): seq<byte> {
    if s == [] then [] else if Flow(s[0]) then Unflow(s[1..]) else [s[0]] + Unflow(s[1..])
  }

  lemma {:induction false} UnflowAppend(a: seq<byte>, b: seq<byte>)
    ensures Unflow(a + b) == Unflow(a) + Unflow(b)
    decreases |a|
  {
    hide Flow;
    if a == [] {
      assert a + b == b;
    } else {
      assert (a + b)[1..] == a[1..] + b;
      UnflowAppend(a[1..], b);
    }
  }

  lemma UnflowFirst(n: seq<byte>, c: byte, w: seq<byte>)
    requires Unflow(n) == [c] + w
    ensures |n| > 0
    ensures !Flow(n[0]) ==> n[0] == c && Unflow(n[1..]) == w
    ensures Flow(n[0]) ==> Unflow(n[1..]) == [c] + w
  {
    hide Flow;
    assert ([c] + w)[1..] == w && ([c] + w)[0] == c;
    if !Flow(n[0]) {
      assert Unflow(n)[1..] == Unflow(n[1..]);
    }
  }

  lemma UnflowShort(a: byte, b: byte)
    requires !Flow(a)
    ensures Unflow([a]) == [a]
    ensures !Flow(b) ==> Unflow([a, b]) == [a, b]
  {
    hide Flow;
    assert [a][1..] == [] && [b][1..] == [] && [a, b][1..] == [b];
    if !Flow(b) {
      assert Unflow([b]) == [b] + Unflow([]);
    }
  }

  lemma UnflowChunk(c: byte, last: byte, ctlesc: bool)
    ensures Unflow(Chunk(c, last, ctlesc)) == Chunk(c, last, ctlesc)
  {
    ChunkQuiet(c, last, ctlesc);
    hide Flow, Escaped, Flip, Unflow;
    if Escaped(c, last, ctlesc) {
      UnflowShort(ZDLE, Flip(c));
    } else {
      UnflowShort(c, c);
    }
  }

  lemma ChunkQuiet(c: byte, last: byte, ctlesc: bool)
    ensures !Flow(ZDLE) && (Escaped(c, last, ctlesc) ==> !Flow(Flip(c)))
    ensures !Escaped(c, last, ctlesc) ==> !Flow(c)
  {
  }

  /** What the sender escapes never looks like flow control. */
  lemma {:induction false} UnflowLine(s: seq<byte>, last: byte, ctlesc: bool)
    ensures Unflow(Line(s, last, ctlesc)) == Line(s, last, ctlesc)
    decreases |s|
  {
    hide Chunk, Last;
    if s != [] {
      UnflowChunk(s[0], last, ctlesc);
      UnflowLine(s[1..], Last(s[0], last, ctlesc), ctlesc);
      UnflowAppend(Chunk(s[0], last, ctlesc), Line(s[1..], Last(s[0], last, ctlesc), ctlesc));
    }
  }

  /** Reading passes over flow control in front of what it reads. */
  lemma {:induction false} SkipFlow(n: seq<byte>, c: byte, w: seq<byte>, ctlesc: bool)
    requires Unflow(n) == [c] + w && !Flow(c) && c != ZDLE
    ensures |n| > 0
    ensures Graphic(c) || !ctlesc ==> ReadDl(n, ctlesc).0 == Char(c) && Unflow(ReadDl(n, ctlesc).1) == w
    decreases |n|
  {
    UnflowFirst(n, c, w);
    FlowIsControl(n[0]);
    hide Flow, Graphic, Unflow;
    if Flow(n[0]) {
      SkipFlow(n[1..], c, w, ctlesc);
    }
  }

  lemma FlowIsControl(c: byte)
    ensures Flow(c) ==> !Graphic(c) && c != ZDLE
  {
  }

  /** The same behind the escape character. */
  lemma {:induction false} SkipFlowEscape(n: seq<byte>, c: byte, w: seq<byte>, ctlesc: bool)
    requires Unflow(n) == [c] + w && !Flow(c) && c != ZDLE
    ensures |n| > 0
    ensures var r := ReadEscape(n, ctlesc);
            && (FrameEnd(c) ==> r.0 == End(c) && Unflow(r.1) == w)
            && (c & 0x60 == 0x40 ==> r.0 == Char(Flip(c)) && Unflow(r.1) == w)
    decreases |n|
  {
    UnflowFirst(n, c, w);
    EscapeClasses(n[0]);
    EscapeClasses(c);
    hide Flow, Flip, Graphic, Unflow;
    if Flow(n[0]) {
      SkipFlowEscape(n[1..], c, w, ctlesc);
    }
  }

  lemma EscapeClasses(c: byte)
    ensures Flow(c) ==> !FrameEnd(c) && c != ZRUB0 && c != ZRUB1 && c != ZDLE
    ensures c & 0x60 == 0x40 ==> !FrameEnd(c) && c != ZRUB0 && c != ZRUB1 && Graphic(c)
  {
  }

  lemma {:induction false} SkipToEscape(n: seq<byte>, x: byte, w: seq<byte>, ctlesc: bool)
    requires Unflow(n) == [ZDLE, x] + w
    ensures |n| > 0
    ensures exists m :: |m| < |n| && Unflow(m) == [x] + w && ReadDl(n, ctlesc) == ReadEscape(m, ctlesc)
    decreases |n|
  {
    assert [ZDLE, x] + w == [ZDLE] + ([x] + w);
    UnflowFirst(n, ZDLE, [x] + w);
    FlowIsControl(n[0]);
    hide ReadEscape, Flow, Unflow;
    if Flow(n[0]) {
      SkipToEscape(n[1..], x, w, ctlesc);
    } else {
      ReadsEscape(n, ctlesc);
    }
  }

  lemma ReadsEscape(n: seq<byte>, ctlesc: bool)
    requires |n| > 0 && n[0] == ZDLE
    ensures ReadDl(n, ctlesc) == ReadEscape(n[1..], ctlesc)
  {
    hide ReadEscape;
  }

  /** One byte of data, escaped or not, comes back. */
  lemma ReadChunk(n: seq<byte>, c: byte, last: byte, tx: bool, rx: bool, w: seq<byte>)
    requires Unflow(n) == Chunk(c, last, tx) + w && (rx ==> tx)
    ensures ReadDl(n, rx).0 == Char(c) && Unflow(ReadDl(n, rx).1) == w
  {
    ChunkQuiet(c, last, tx);
    EscapedByte(c, last, tx);
    hide Flow, Flip, Graphic, ReadDl, ReadEscape, Escaped;
    if Escaped(c, last, tx) {
      SkipToEscape(n, Flip(c), w, rx);
      var m :| |m| < |n| && Unflow(m) == [Flip(c)] + w && ReadDl(n, rx) == ReadEscape(m, rx);
      SkipFlowEscape(m, Flip(c), w, rx);
    } else {
      SkipFlow(n, c, w, rx);
    }
  }

  lemma EscapedByte(c: byte, last: byte, ctlesc: bool)
    ensures Escaped(c, last, ctlesc) ==> Flip(c) & 0x60 == 0x40 && Flip(c) != ZDLE && Flip(Flip(c)) == c
    ensures !Escaped(c, last, ctlesc) ==> c != ZDLE && (Graphic(c) || !ctlesc)
  {
  }

  lemma ReadEnd(n: seq<byte>, e: byte, ctlesc: bool, w: seq<byte>)
    requires Unflow(n) == [ZDLE, e] + w && FrameEnd(e)
    ensures ReadDl(n, ctlesc).0 == End(e) && Unflow(ReadDl(n, ctlesc).1) == w
  {
    hide ReadDl, ReadEscape, Flow;
    SkipToEscape(n, e, w, ctlesc);
    var m :| |m| < |n| && Unflow(m) == [e] + w && ReadDl(n, ctlesc) == ReadEscape(m, ctlesc);
    EscapeClasses(e);
    SkipFlowEscape(m, e, w, ctlesc);
  }

  lemma {:induction false} ReadTail(n: seq<byte>, t: seq<byte>, last: byte, tx: bool, rx: bool, w: seq<byte>,
                                    e: byte, fed: seq<byte>, crc32: bool)
    requires Unflow(n) == Line(t, last, tx) + w && (rx ==> tx) && Checks(fed + t, crc32)
    ensures var r := ReadCheck(n, e, fed, |t|, rx, crc32); r.0 == End(e) && Unflow(r.1) == w
    decreases |t|
  {
    hide ReadDl, Chunk, Last, Checks, Flow;
    if t == [] {
      assert fed + t == fed && Line(t, last, tx) + w == w;
    } else {
      var l := Last(t[0], last, tx);
      assert Line(t, last, tx) + w == Chunk(t[0], last, tx) + (Line(t[1..], l, tx) + w);
      ReadChunk(n, t[0], last, tx, rx, Line(t[1..], l, tx) + w);
      assert fed + t == fed + [t[0]] + t[1..];
      ReadTail(ReadDl(n, rx).1, t[1..], l, tx, rx, w, e, fed + [t[0]], crc32);
    }
  }

  lemma TailChecks(s: seq<byte>, crc32: bool)
    ensures Checks(s + Tail(s, crc32), crc32) && |Tail(s, crc32)| == Width(crc32)
  {
    SumIsZero(s);
    CheckedIsValid(s);
    TailWidth(s);
    hide Valid32, Sum16, Tail16, Tail32;
  }

  lemma TailWidth(s: seq<byte>)
    ensures |Tail16(s)| == 2 && |Tail32(s)| == 4 && Tail32(s) == Check32(s)
  {
  }

  /** A subpacket sent with `data` already read. */
  lemma {:induction false} ReadBack(n: seq<byte>, s: seq<byte>, data: seq<byte>, e: byte, last: byte, tx: bool,
      rx: bool,
                                    length: nat, crc32: bool, w: seq<byte>)
    requires FrameEnd(e) && (rx ==> tx) && |data| + |s| <= length
    requires var t := Tail(data + s + [e], crc32);
             Unflow(n) == Line(s, last, tx) + [ZDLE, e] + Line(t, LastOf(s, last, tx), tx) + w
    ensures var r := ReadData(n, data, length, rx, crc32);
            r.got == End(e) && r.data == data + s && r.count == |data + s| && Unflow(r.rest) == w
    decreases |s|
  {
    hide ReadDl, ReadCheck, Chunk, Last, Checks, Tail, Flow;
    var t := Tail(data + s + [e], crc32);
    if s == [] {
      assert data + s == data;
      var back := Line(t, last, tx) + w;
      assert Line(s, last, tx) + [ZDLE, e] + Line(t, last, tx) + w == [ZDLE, e] + back;
      ReadEnd(n, e, rx, back);
      TailChecks(data + [e], crc32);
      ReadTail(ReadDl(n, rx).1, t, last, tx, rx, w, e, data + [e], crc32);
    } else {
      var l := Last(s[0], last, tx);
      var back := Line(s[1..], l, tx) + [ZDLE, e] + Line(t, LastOf(s[1..], l, tx), tx) + w;
      assert Line(s, last, tx) + [ZDLE, e] + Line(t, LastOf(s, last, tx), tx) + w == Chunk(s[0], last, tx) + back;
      ReadChunk(n, s[0], last, tx, rx, back);
      assert data + s == data + [s[0]] + s[1..];
      ReadBack(ReadDl(n, rx).1, s[1..], data + [s[0]], e, l, tx, rx, length, crc32, w);
    }
  }

  /** A data subpacket sent by zsdata is read back by zrdata: the same frame end, the
      same bytes, the right count, with XON and XOFF put in anywhere on the way. */
  lemma DataRoundTrip(n: seq<byte>, s: seq<byte>, e: byte, last: byte, tx: bool, rx: bool, length: nat, crc32: bool,
      more: seq<byte>)
    requires FrameEnd(e) && |s| <= length && (rx ==> tx)
    requires Unflow(n) == Unflow(Subpacket(s, e, last, tx, crc32) + more)
    ensures var r := ReadData(n, [], length, rx, crc32);
            r.got == End(e) && r.data == s && r.count == |s| && Unflow(r.rest) == Unflow(more)
  {
    hide ReadData, Line, LastOf, Tail;
    assert [] + s == s;
    var l := LastOf(s, last, tx);
    var (a, b) := (Line(s, last, tx), Line(Tail(s + [e], crc32), l, tx));
    var x := if e == ZCRCW then [XON] else [];
    UnflowXon();
    UnflowEnd(e);
    UnflowLine(s, last, tx);
    UnflowLine(Tail(s + [e], crc32), l, tx);
    UnflowAppend(a, [ZDLE, e]);
    UnflowAppend(a + [ZDLE, e], b);
    UnflowAppend(a + [ZDLE, e] + b, x);
    UnflowAppend(a + [ZDLE, e] + b + x, more);
    assert Unflow(n) == a + [ZDLE, e] + b + Unflow(more);
    ReadBack(n, s, [], e, last, tx, rx, length, crc32, Unflow(more));
  }

  lemma UnflowXon()
    ensures Unflow([XON]) == [] && Unflow([]) == []
  {
    assert [XON][1..] == [];
  }

  lemma UnflowEnd(e: byte)
    requires FrameEnd(e)
    ensures Unflow([ZDLE, e]) == [ZDLE, e]
  {
    EscapeClasses(e);
    UnflowShort(ZDLE, e);
  }

  /** Why the receiver may only drop control characters if the sender escapes them:
      one that was sent as it is disappears. */
  lemma ControlVanishes(c: byte, last: byte, tx: bool, w: seq<byte>)
    requires !Graphic(c) && !Escaped(c, last, tx)
    ensures !tx && ReadDl(Chunk(c, last, tx) + w, true) == ReadDl(w, true)
  {
    EscapedByte(c, last, tx);
    hide ReadEscape;
    assert ([c] + w)[1..] == w;
  }
}
