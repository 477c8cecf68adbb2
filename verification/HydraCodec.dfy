/** HYDRA packets on the wire (hydracom/hydra.c, txpkt and rxpkt): the encoding
    of a packet as a pure function, the receiver as a byte-at-a-time automaton
    with its end-of-packet decoders. */
module HydraCodec {
  import opened Crc
  import opened Hex
  import opened HydraOptions
  import opened Maybe

  const DLE: byte := 24
  const XON: byte := 17
  const XOFF: byte := 19
  const CR: byte := 13
  const LF: byte := 10
  const BACKSLASH: byte := 92

  const MAXBLKLEN := 2048
  const OVERHEAD := 8
  const MAXPKTLEN := (MAXBLKLEN + OVERHEAD + 5) * 3
  const BUFLEN := MAXPKTLEN + 16
  /** Where in the transmit buffer the payload is put. */
  const TXBUFIN := (MAXBLKLEN + OVERHEAD + 5) * 2

  const PKTEND: byte := 97
  const BINPKT: byte := 98
  const HEXPKT: byte := 99
  const ASCPKT: byte := 100
  const UUEPKT: byte := 101

  const START: byte := 65
  const INIT: byte := 66
  const INITACK: byte := 67
  const DATA: byte := 70
  const END: byte := 75
  const IDLE: byte := 76

  // ----- choosing the format -------------------------------------------------

  predicate AlwaysHex(kind: byte) {
    kind == START || kind == INIT || kind == INITACK || kind == END || kind == IDLE
  }

  function Format(kind: byte, o: Options): byte {
    if AlwaysHex(kind) then HEXPKT
    else if o.highbit then
      if o.ctlchrs && o.canuue then UUEPKT
      else if o.canasc then ASCPKT
      else HEXPKT
    else BINPKT
  }

  predicate UsesCrc32(format: byte, o: Options) { format != HEXPKT && o.crc32 }

  /** Payload, type byte and check bytes. */
  function Framed(payload: seq<byte>, kind: byte, crc32: bool): seq<byte> {
    var s := payload + [kind];
    if crc32 then s + Check32(s) else s + Check16(s)
  }

  /** What a DLE does to the character behind it. */
  function Flip(c: byte): byte { c ^ 0x40 }

  // ----- the four encodings ---------------------------------------------------

  function HighDigit(b: byte): byte { HexDigit((b >> 4) & 0x0f) }

  function LowDigit(b: byte): byte { HexDigit(b & 0x0f) }

  function HexChunk(b: byte): seq<byte> {
    if b & 0x80 != 0 then [BACKSLASH, HighDigit(b), LowDigit(b)]
    else if b < 32 || b == 127 then [DLE, Flip(b)]
    else if b == BACKSLASH then [BACKSLASH, BACKSLASH]
    else [b]
  }

  function EncHex(s: seq<byte>): seq<byte> {
    if s == [] then [] else HexChunk(s[0]) + EncHex(s[1..])
  }

  /** The character put_binbyte tests: parity stripped when HIC is agreed. */
  function Tested(c: byte, o: Options): byte { if o.highctl then c & 0x7f else c }

  predicate MustEscape(c: byte, last: byte, o: Options) {
    var n := Tested(c, o);
    || n == DLE
    || (o.xonxoff && (n == XON || n == XOFF))
    || (o.telenet && n == CR && last == 64)
    || (o.ctlchrs && (n < 32 || n == 127))
  }

  function BinChunk(c: byte, last: byte, o: Options): seq<byte> {
    if MustEscape(c, last, o) then [DLE, Flip(c)] else [c]
  }

  function EncBin(s: seq<byte>, last: byte, o: Options): seq<byte> {
    if s == [] then [] else BinChunk(s[0], last, o) + EncBin(s[1..], Tested(s[0], o), o)
  }

  /** The word with `b` placed above the `n` bits that wait in `c`. */
  function Joined(c: bv16, b: byte, n: nat): bv16
    requires n < 8
  {
    c | ((b as bv16) << n)
  }

  function Low7(v: bv16): byte { (v & 0x7f) as byte }

  function Low8(v: bv16): byte { (v & 0xff) as byte }

  function Rest7(v: bv16): bv16 { v >> 7 }

  function Rest8(v: bv16): bv16 { v >> 8 }

  function Strip(b: byte): byte { b & 0x7f }

  /** Eight-bit bytes repacked as seven-bit groups; `n` bits wait in `c`. */
  function Pack7(s: seq<byte>, n: nat, c: bv16): seq<byte>
    requires n < 7
  {
    if s == [] then
      if n > 0 then [Low7(c)] else []
    else
      var v := Joined(c, s[0], n);
      if n == 6 then [Low7(v), Low7(Rest7(v))] + Pack7(s[1..], 0, 0)
      else [Low7(v)] + Pack7(s[1..], n + 1, Rest7(v))
  }

  function UuChar(c: byte): byte { (c & 0x3f) + 33 }

  /** The four six-bit groups of three bytes. */
  function Six1(a: byte): byte { a >> 2 }

  function Six2(a: byte, b: byte): byte { ((a << 4) & 0x30) | ((b >> 4) & 0x0f) }

  function Six3(b: byte, c: byte): byte { ((b << 2) & 0x3c) | ((c >> 6) & 0x03) }

  function Six3Last(b: byte): byte { (b << 2) & 0x3c }

  function Six4(c: byte): byte { c & 0x3f }

  /** Three bytes as four characters.  With one byte left over the program also
      looks at the byte after it, `stale`, which is not part of the packet. */
  function EncUue(s: seq<byte>, stale: byte): seq<byte> {
    if |s| >= 3 then
      [UuChar(Six1(s[0])), UuChar(Six2(s[0], s[1])), UuChar(Six3(s[1], s[2])), UuChar(Six4(s[2]))] +
        EncUue(s[3..], stale)
    else if |s| == 2 then [UuChar(Six1(s[0])), UuChar(Six2(s[0], s[1])), UuChar(Six3Last(s[1]))]
    else if |s| == 1 then [UuChar(Six1(s[0])), UuChar(Six2(s[0], stale))]
    else []
  }

  function Body(s: seq<byte>, format: byte, o: Options, stale: byte): seq<byte> {
    if format == HEXPKT then EncHex(s)
    else if format == BINPKT then EncBin(s, 0, o)
    else if format == ASCPKT then EncBin(Pack7(s, 0, 0), 0, o)
    else EncUue(s, stale)
  }

  function Trailer(kind: byte, format: byte): seq<byte> {
    [DLE, PKTEND] + if kind != DATA && format != BINPKT then [CR, LF] else []
  }

  /** What goes to the line of the prefix the other side has asked for: 221 is a break,
      222 a pause, and 223 stands for a zero byte. */
  function PrefixSent(s: seq<byte>): seq<byte> {
    if s == [] then []
    else
      var c := s[|s| - 1];
      PrefixSent(s[..|s| - 1]) + if c == 221 || c == 222 then [] else if c == 223 then [0] else [c]
  }

  /** Everything txpkt puts out for one packet, behind the prefix. */
  function Wire(payload: seq<byte>, kind: byte, o: Options, stale: byte): seq<byte> {
    var format := Format(kind, o);
    [DLE, format] + Body(Framed(payload, kind, UsesCrc32(format, o)), format, o, stale) + Trailer(kind, format)
  }

  // ----- the end-of-packet decoders -------------------------------------------

  /** What a decoder leaves: the bytes written, where the read pointer stopped,
      and whether the packet is still worth checking. */
  datatype Decoded = Decoded(out: seq<byte>, p: nat, ok: bool) {
    function Prefixed(s: seq<byte>): Decoded { Decoded(s + out, p, ok) }
  }

  /** The hexadecimal decoder from read position `p`; a bad digit stops it. */
  function DecHex(buf: seq<byte>, p: nat, end: nat): Decoded
    requires end + 2 <= |buf|
    decreases |buf| - p
  {
    if p >= end then Decoded([], p, p == end)
    else if buf[p] != BACKSLASH then DecHex(buf, p + 1, end).Prefixed([buf[p]])
    else if buf[p + 1] == BACKSLASH then DecHex(buf, p + 2, end).Prefixed([BACKSLASH])
    else
      var (i, n) := (Digit(buf[p + 1]), Digit(buf[p + 2]));
      if i == BAD_DIGIT || n == BAD_DIGIT then Decoded([], p + 2, p + 2 <= end)
      else DecHex(buf, p + 3, end).Prefixed([(i << 4) | n])
  }

  /** Seven-bit groups back to bytes; `n` bits wait in `i`. */
  function Unpack7(s: seq<byte>, n: nat, i: bv16): seq<byte>
    requires n < 8
  {
    if s == [] then []
    else
      var v := Joined(i, Strip(s[0]), n);
      if n + 7 >= 8 then [Low8(v)] + Unpack7(s[1..], n - 1, Rest8(v))
      else Unpack7(s[1..], n + 7, v)
  }

  predicate BadUu(c: byte) { c <= 32 || c >= 97 }

  function UuValue(c: byte): byte { (c - 33) & 0x3f }

  /** The three bytes of four characters. */
  function Eight1(x: byte, y: byte): byte { (UuValue(x) << 2) | (UuValue(y) >> 4) }

  function Eight2(y: byte, z: byte): byte { (UuValue(y) << 4) | (UuValue(z) >> 2) }

  function Eight3(z: byte, t: byte): byte { (UuValue(z) << 6) | UuValue(t) }

  /** The uudecoder on the last one to three of `n` remaining characters; it is
      also what runs after the main loop has met a bad character. */
  function DecUueTail(buf: seq<byte>, p: nat, n: nat): Decoded
    requires p + n <= |buf|
  {
    if n < 2 then Decoded([], p, true)
    else if BadUu(buf[p]) then Decoded([], p, false)
    else if n == 3 then Decoded([Eight1(buf[p], buf[p + 1]), Eight2(buf[p + 1], buf[p + 2])], p, true)
    else Decoded([Eight1(buf[p], buf[p + 1])], p, true)
  }

  function DecUue(buf: seq<byte>, p: nat, n: nat): Decoded
    requires p + n <= |buf|
    decreases n
  {
    if n < 4 then DecUueTail(buf, p, n)
    else if BadUu(buf[p]) || BadUu(buf[p + 1]) || BadUu(buf[p + 2]) then
      var t := DecUueTail(buf, p, n);
      Decoded(t.out, p, false)
    else
      DecUue(buf, p + 4, n - 4).Prefixed(
        [Eight1(buf[p], buf[p + 1]), Eight2(buf[p + 1], buf[p + 2]), Eight3(buf[p + 2], buf[p + 3])])
  }

  function Decode(format: byte, buf: seq<byte>, end: nat): Decoded
    requires end + 2 <= |buf|
  {
    if format == BINPKT then Decoded(buf[..end], end, true)
    else if format == HEXPKT then DecHex(buf, 0, end)
    else if format == ASCPKT then Decoded(Unpack7(buf[..end], 0, 0), end, true)
    else if format == UUEPKT then DecUue(buf, 0, end)
    else Decoded([], end, false)
  }

  // ----- the receiver ---------------------------------------------------------

  /** rxdle, rxpktformat, rxbuf and the write position p (None for NULL). */
  datatype Rx = Rx(dle: nat, format: byte, buf: seq<byte>, p: Option<nat>)

  datatype Event = Quiet | Cancel | Packet(payload: seq<byte>, kind: byte)

  ghost predicate ValidRx(st: Rx) {
    && |st.buf| == BUFLEN
    && (st.p.Some? ==> st.p.value <= BUFLEN)
  }

  /** Characters rxpkt drops before it looks at them. */
  predicate Dropped(c: byte, o: Options) {
    var n := Tested(c, o);
    && n != DLE
    && (|| (o.xonxoff && (n == XON || n == XOFF))
        || (o.ctlchrs && (n < 32 || n == 127)))
  }

  function Store(st: Rx, c: byte): Rx
    requires ValidRx(st)
  {
    match st.p
    case None => st
    case Some(p) => if p < MAXPKTLEN then st.(buf := st.buf[p := c], p := Some(p + 1)) else st.(p := None)
  }

  /** The check of a decoded block, and the payload and type it carries. */
  function Checked(block: seq<byte>, crc32: bool): Event {
    var n := |block|;
    if crc32 then
      if n < 5 || n > BUFLEN || !Valid32(block) then Quiet else Packet(block[..n - 5], block[n - 5])
    else
      if n < 3 || n > BUFLEN || !Valid16(block) then Quiet else Packet(block[..n - 3], block[n - 3])
  }

  /** DLE PKTEND: decode in place, check, deliver.  The write position survives a
      packet that is not delivered. */
  function Finish(st: Rx, o: Options): (Rx, Event)
    requires ValidRx(st)
  {
    match st.p
    case None =>
      (st.(p := if st.format == HEXPKT || st.format == ASCPKT || st.format == UUEPKT then Some(0) else None), Quiet)
    case Some(end) =>
      // a pointer this far on is only left by repeated damaged packet ends
      if end + 2 > BUFLEN then (st.(p := None), Quiet) else
      var d := Decode(st.format, st.buf, end);
      var e := if d.ok then Checked(d.out, UsesCrc32(st.format, o)) else Quiet;
      (st.(buf := Overwrite(st.buf, d.out), p := if e == Quiet then Some(d.p) else None), e)
  }

  function Overwrite(buf: seq<byte>, out: seq<byte>): seq<byte> {
    if |out| <= |buf| then out + buf[|out|..] else buf
  }

  /** A DLE, or a character behind one. */
  function RxEscaped(st: Rx, c: byte, o: Options): (Rx, Event)
    requires ValidRx(st)
  {
    if c == DLE then (st.(dle := st.dle + 1), if st.dle + 1 >= 5 then Cancel else Quiet)
    else if c == PKTEND then Finish(st, o)
    else if c == BINPKT || c == HEXPKT || c == ASCPKT || c == UUEPKT then
      (st.(format := c, p := Some(0), dle := 0), Quiet)
    else (Store(st, Flip(c)).(dle := 0), Quiet)
  }

  /** One received character. */
  function RxByte(st: Rx, raw: byte, o: Options): (Rx, Event)
    requires ValidRx(st)
  {
    var c := if o.highbit then Strip(raw) else raw;
    if Dropped(c, o) then (st, Quiet)
    else if st.dle > 0 || c == DLE then RxEscaped(st, c, o)
    else (Store(st, c), Quiet)
  }

  // ----- the decoders stay inside what was received ----------------------------

  lemma {:induction false} DecHexBounds(buf: seq<byte>, p: nat, end: nat)
    requires end + 2 <= |buf| && p <= end + 2
    ensures var d := DecHex(buf, p, end); p <= d.p <= end + 2 && |d.out| <= d.p - p && (p <= end ==> |d.out| <= end - p)
    decreases |buf| - p
  {
    if p < end {
      if buf[p] != BACKSLASH {
        DecHexBounds(buf, p + 1, end);
      } else if buf[p + 1] == BACKSLASH {
        DecHexBounds(buf, p + 2, end);
      } else if Digit(buf[p + 1]) != BAD_DIGIT && Digit(buf[p + 2]) != BAD_DIGIT {
        if p + 3 <= end + 2 {
          DecHexBounds(buf, p + 3, end);
        }
      }
    }
  }

  lemma {:induction false} UnpackBounds(s: seq<byte>, n: nat, i: bv16)
    requires n < 8
    ensures |Unpack7(s, n, i)| <= |s|
  {
    if s != [] {
      var v := Joined(i, Strip(s[0]), n);
      if n + 7 >= 8 {
        UnpackBounds(s[1..], n - 1, Rest8(v));
      } else {
        UnpackBounds(s[1..], n + 7, v);
      }
    }
  }

  lemma {:induction false} DecUueBounds(buf: seq<byte>, p: nat, n: nat)
    requires p + n <= |buf|
    ensures var d := DecUue(buf, p, n); p <= d.p <= p + n && |d.out| <= n
    decreases n
  {
    if n >= 4 && !(BadUu(buf[p]) || BadUu(buf[p + 1]) || BadUu(buf[p + 2])) {
      DecUueBounds(buf, p + 4, n - 4);
    }
  }

  /** Decoding in place never writes past the packet it reads. */
  lemma DecodeBounds(format: byte, buf: seq<byte>, end: nat)
    requires end + 2 <= |buf|
    ensures var d := Decode(format, buf, end); |d.out| <= end && d.p <= end + 2
  {
    DecHexBounds(buf, 0, end);
    UnpackBounds(buf[..end], 0, 0);
    DecUueBounds(buf, 0, end);
  }

  lemma RxByteValid(st: Rx, raw: byte, o: Options)
    requires ValidRx(st)
    ensures ValidRx(RxByte(st, raw, o).0)
  {
    if st.p.Some? && st.p.value + 2 <= BUFLEN {
      DecodeBounds(st.format, st.buf, st.p.value);
    }
  }

  /** A whole input: the final state and the events in order. */
  function Feed(st: Rx, input: seq<byte>, o: Options): (r: (Rx, seq<Event>))
    requires ValidRx(st)
    ensures ValidRx(r.0)
    decreases |input|
  {
    if input == [] then (st, [])
    else
      RxByteValid(st, input[0], o);
      var (st1, e) := RxByte(st, input[0], o);
      var (st2, es) := Feed(st1, input[1..], o);
      (st2, if e == Quiet then es else [e] + es)
  }

  lemma {:induction false} FeedAppend(st: Rx, a: seq<byte>, b: seq<byte>, o: Options)
    requires ValidRx(st)
    ensures var (st1, es1) := Feed(st, a, o);
            var (st2, es2) := Feed(st1, b, o);
            Feed(st, a + b, o) == (st2, es1 + es2)
    decreases |a|
  {
    hide RxByte;
    if a == [] {
      assert a + b == b && [] + Feed(st, b, o).1 == Feed(st, b, o).1;
    } else {
      assert (a + b)[1..] == a[1..] + b;
      RxByteValid(st, a[0], o);
      var (st1, e) := RxByte(st, a[0], o);
      FeedAppend(st1, a[1..], b, o);
      var (st2, es) := Feed(st1, a[1..], o);
      assert [e] + es + Feed(st2, b, o).1 == [e] + (es + Feed(st2, b, o).1);
    }
  }

  // ----- characters that survive the link ---------------------------------------

  predicate Fits(c: byte, o: Options) { !Dropped(c, o) && (o.highbit ==> c < 128) }

  predicate Plain(c: byte, o: Options) { c != DLE && Fits(c, o) }

  /** May follow a DLE without being taken for something else. */
  predicate Escaped(c: byte, o: Options) {
    c != DLE && !(PKTEND <= c <= UUEPKT) && Fits(c, o)
  }

  /** A stream of plain and escaped characters. */
  predicate Clean(w: seq<byte>, o: Options) {
    if w == [] then true
    else if w[0] == DLE then |w| >= 2 && Escaped(w[1], o) && Clean(w[2..], o)
    else Plain(w[0], o) && Clean(w[1..], o)
  }

  function Content(w: seq<byte>): seq<byte> {
    if w == [] then []
    else if w[0] == DLE && |w| >= 2 then [Flip(w[1])] + Content(w[2..])
    else [w[0]] + Content(w[1..])
  }

  lemma {:induction false} CleanAppend(a: seq<byte>, b: seq<byte>, o: Options)
    requires Clean(a, o)
    ensures Content(a + b) == Content(a) + Content(b)
    ensures Clean(b, o) ==> Clean(a + b, o)
    decreases |a|
  {
    hide Plain, Escaped;
    if a == [] {
      assert a + b == b;
    } else if a[0] == DLE {
      assert (a + b)[2..] == a[2..] + b;
      CleanAppend(a[2..], b, o);
    } else {
      assert (a + b)[1..] == a[1..] + b;
      CleanAppend(a[1..], b, o);
    }
  }

  /** The state after `x` has been stored from position `k` on. */
  function Filled(st: Rx, k: nat, x: seq<byte>): Rx
    requires ValidRx(st) && k + |x| <= BUFLEN
  {
    st.(buf := st.buf[..k] + x + st.buf[k + |x|..], p := Some(k + |x|))
  }

  lemma FilledTwice(st: Rx, k: nat, c: byte, x: seq<byte>)
    requires ValidRx(st) && k + 1 + |x| <= BUFLEN
    ensures Filled(Filled(st, k, [c]), k + 1, x) == Filled(st, k, [c] + x)
    ensures Filled(st, k, [c]) == st.(buf := st.buf[k := c], p := Some(k + 1))
  {
    assert Filled(Filled(st, k, [c]), k + 1, x).buf == Filled(st, k, [c] + x).buf;
    assert st.buf[k := c] == Filled(st, k, [c]).buf;
  }

  /** Inside a packet, a clean stream only fills the buffer with its content. */
  lemma {:induction false} FeedClean(st: Rx, w: seq<byte>, k: nat, o: Options)
    requires ValidRx(st) && st.dle == 0 && st.p == Some(k) && Clean(w, o)
    requires k + |Content(w)| <= MAXPKTLEN
    ensures Feed(st, w, o) == (Filled(st, k, Content(w)), [])
    decreases |w|
  {
    hide RxByte, Filled, Escaped, Plain;
    if w == [] {
      FilledNone(st, k);
    } else {
      var n := if w[0] == DLE then 2 else 1;
      var c := if w[0] == DLE then Flip(w[1]) else w[0];
      assert Content(w) == [c] + Content(w[n..]);
      FilledTwice(st, k, c, Content(w[n..]));
      if w[0] == DLE {
        EscapedStep(st, w[1], k, o);
        assert w[..2] == [DLE, w[1]];
      } else {
        PlainStep(st, w[0], k, o);
        assert w[..1] == [w[0]];
      }
      assert w == w[..n] + w[n..];
      FeedAppend(st, w[..n], w[n..], o);
      FeedClean(Filled(st, k, [c]), w[n..], k + 1, o);
      assert Filled(st, k, [c] + Content(w[n..])) == Filled(st, k, Content(w));
      assert Feed(st, w, o).1 == [];
      assert Feed(st, w, o).0 == Filled(Filled(st, k, [c]), k + 1, Content(w[n..]));
    }
  }

  lemma FilledNone(st: Rx, k: nat)
    requires ValidRx(st) && st.p == Some(k)
    ensures Filled(st, k, []) == st
  {
    assert Filled(st, k, []).buf == st.buf;
  }

  lemma MaskFits(c: byte)
    ensures c < 128 ==> c & 0x7f == c
  {
  }

  lemma PlainStep(st: Rx, c: byte, k: nat, o: Options)
    requires ValidRx(st) && st.dle == 0 && st.p == Some(k) && k < MAXPKTLEN && Plain(c, o)
    ensures Feed(st, [c], o) == (st.(buf := st.buf[k := c], p := Some(k + 1)), [])
  {
    MaskFits(c);
    assert RxByte(st, c, o) == (st.(buf := st.buf[k := c], p := Some(k + 1)), Quiet);
    assert [c][1..] == [];
  }

  lemma EscapedStep(st: Rx, c: byte, k: nat, o: Options)
    requires ValidRx(st) && st.dle == 0 && st.p == Some(k) && k < MAXPKTLEN && Escaped(c, o)
    ensures Feed(st, [DLE, c], o) == (st.(buf := st.buf[k := Flip(c)], p := Some(k + 1)), [])
  {
    MaskFits(c);
    var st1 := st.(dle := 1);
    assert RxByte(st, DLE, o) == (st1, Quiet);
    assert RxByte(st1, c, o) == (st.(buf := st.buf[k := Flip(c)], p := Some(k + 1)), Quiet);
    assert [DLE, c][1..] == [c] && [c][1..] == [];
    assert Feed(st1, [c], o) == (RxByte(st1, c, o).0, []);
  }
}
