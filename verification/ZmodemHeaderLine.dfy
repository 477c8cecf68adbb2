/** The header routines of ddz/zm.c as they are written: headers sent byte by byte
    with a running check, and zgethdr's scan with its counters, reading into the
    header array and setting the position. */
module ZmodemHeaderLine {
  import opened Crc
  import opened Hex
  import opened Maybe
  import opened ZmCrc
  import opened ZmodemCodec
  import opened ZmodemHeader
  import Z = ZmodemLine

  // ----- sending ----------------------------------------------------------------------

  /** zsbhdr and zsbh32. */
  method ZsbHdr(line: Z.Sender, kind: byte, hdr: seq<byte>, txfcs32: bool)
    requires line.Valid() && |hdr| == 4
    modifies line, line.tab
    ensures line.Valid() && line.zctlesc == old(line.zctlesc)
    ensures line.sent == old(line.sent) +
            Header(kind, hdr, if txfcs32 then Bin32 else Bin16, old(line.lastsent), line.zctlesc)
  {
    hide Line, LastOf, Tail16, Tail32;
    ghost var before := line.sent;
    ghost var last := line.lastsent;
    var s := [kind] + hdr;
    line.XSendLine(ZPAD);
    line.XSendLine(ZDLE);
    line.XSendLine(if txfcs32 then ZBIN32 else ZBIN);
    var tail := HeaderCheck(s, txfcs32);
    var t := s + tail;
    line.SendAll(t, false);
    assert line.sent == before +
           ([ZPAD] + ([ZDLE, if txfcs32 then ZBIN32 else ZBIN] + Line(t, last, line.zctlesc)) + []);
  }

  method HeaderCheck(s: seq<byte>, crc32: bool) returns (tail: seq<byte>)
    ensures tail == if crc32 then Tail32(s) else Tail16(s)
  {
    hide UpdCrc, UpdC32, Flushed, High, Low, Update32, Bytes32;
    var c16: bv16, c32: bv32, i := 0, 0xffffffff, 0;
    while i < |s|
      invariant 0 <= i <= |s| && c16 == Sum16(s[..i]) && c32 == Run32(0xffffffff, s[..i])
    {
      assert s[..i + 1][..i] == s[..i];
      UpdC32IsUpdate32(s[i], c32);
      c16, c32 := UpdCrc(s[i], c16), UpdC32(s[i], c32);
      i := i + 1;
    }
    assert s[..i] == s;
    tail := if crc32 then Bytes32(!c32) else [High(Flushed(c16)), Low(Flushed(c16))];
  }

  /** zshhdr: written in one piece, so lastsent stays. */
  method ZshHdr(line: Z.Sender, kind: byte, hdr: seq<byte>)
    requires line.Valid() && |hdr| == 4
    modifies line`sent
    ensures line.Valid() && line.zctlesc == old(line.zctlesc) && line.lastsent == old(line.lastsent)
    ensures line.sent == old(line.sent) + Header(kind, hdr, Hex, line.lastsent, line.zctlesc)
  {
    hide PutHex, Tail16;
    var t := [kind] + hdr;
    var tail := HeaderCheck(t, false);
    t := t + tail;
    var s: seq<byte>, i := [ZPAD, ZPAD, ZDLE, ZHEX], 0;
    assert t[0..] == t;
    while i < |t|
      invariant 0 <= i <= |t|
      invariant [ZPAD, ZPAD, ZDLE, ZHEX] + HexLine(t) == s + HexLine(t[i..])
    {
      assert t[i..][1..] == t[i + 1..];
      assert s + (PutHex(t[i]) + HexLine(t[i + 1..])) == s + PutHex(t[i]) + HexLine(t[i + 1..]);
      s := s + PutHex(t[i]);
      i := i + 1;
    }
    assert s + [] == s;
    s := s + [CR, 0x8a];
    if kind != ZFIN && kind != ZACK {
      s := s + [XON];
    }
    HexShape(s, kind, hdr, line.lastsent, line.zctlesc);
    line.sent := line.sent + s;
  }

  lemma HexShape(s: seq<byte>, kind: byte, hdr: seq<byte>, last: byte, ctlesc: bool)
    requires var t := [kind] + hdr + Tail16([kind] + hdr);
             s == [ZPAD, ZPAD, ZDLE, ZHEX] + HexLine(t) + [CR, 0x8a] + if kind != ZFIN && kind != ZACK then [XON]
               else []
    ensures s == Header(kind, hdr, Hex, last, ctlesc)
  {
    hide HexLine, Tail16;
  }

  // ----- receiving ----------------------------------------------------------------------

  /** Where the scan goes on. */
  datatype Next = Stop(h: Head) | Again(n: int, cans: int)

  class Scanner {
    const line: Z.Receiver
    const rxhdr: array<byte>
    var rxpos: bv32

    constructor (from: Z.Receiver)
      ensures line == from && rxhdr.Length == 4 && fresh(rxhdr)
    {
      line, rxhdr, rxpos := from, new byte[4], 0;
    }

    method NoXrd7() returns (c: Option<byte>)
      modifies line`input
      ensures (c, line.input) == ZmodemHeader.NoXrd7(old(line.input), line.zctlesc)
    {
      hide Graphic, Strip7;
      while true
        invariant ZmodemHeader.NoXrd7(old(line.input), line.zctlesc) == ZmodemHeader.NoXrd7(line.input, line.zctlesc)
        decreases |line.input|
      {
        var r := line.ReadLine();
        if r.None? {
          return None;
        }
        var d := Strip7(r.value);
        if !(d == XON || d == XOFF || (line.zctlesc && !Graphic(d) && d != CR && d != LF && d != ZDLE)) {
          return Some(d);
        }
      }
    }

    /** `n` bytes by zdlread. */
    method ReadBinary(n: nat) returns (b: Bytes)
      modifies line`input
      ensures (b, line.input) == ReadN(old(line.input), n, line.zctlesc)
      decreases n
    {
      hide ReadDl;
      if n == 0 {
        return All([]);
      }
      var g := line.ZdlRead();
      if !g.Char? {
        return Stopped(g);
      }
      b := ReadBinary(n - 1);
      if b.All? {
        b := All([g.c] + b.bytes);
      }
    }

    /** `n` bytes by zgethex. */
    method ReadHex(n: nat) returns (b: Bytes)
      modifies line`input
      ensures (b, line.input) == ReadHexN(old(line.input), n, line.zctlesc)
      decreases n
    {
      hide ZmodemHeader.NoXrd7, Digit;
      if n == 0 {
        return All([]);
      }
      var hi := NoXrd7();
      if hi.None? {
        return Stopped(TimedOut);
      }
      if Digit(hi.value) == BAD_DIGIT {
        return Stopped(Bad);
      }
      var lo := NoXrd7();
      if lo.None? {
        return Stopped(TimedOut);
      }
      if Digit(lo.value) == BAD_DIGIT {
        return Stopped(Bad);
      }
      b := ReadHex(n - 1);
      if b.All? {
        b := All([(Digit(hi.value) << 4) | Digit(lo.value)] + b.bytes);
      }
    }

    /** Into rxhdr and rxpos. */
    method Keep(hdr: seq<byte>)
      requires |hdr| == 4 && rxhdr.Length == 4
      modifies rxhdr, this`rxpos
      ensures rxhdr[..] == hdr && rxpos == Rclhdr(hdr)
    {
      hide Rclhdr;
      rxhdr[0], rxhdr[1], rxhdr[2], rxhdr[3] := hdr[0], hdr[1], hdr[2], hdr[3];
      assert rxhdr[..] == hdr;
      rxpos := Rclhdr(rxhdr[..]);
    }

    /** A header that was found is in rxhdr, its position in rxpos. */
    ghost predicate Kept(h: Head)
      reads this, rxhdr
    {
      h.Found? ==> |h.hdr| == 4 && rxhdr[..] == h.hdr && rxpos == Rclhdr(h.hdr)
    }

    /** zrbhdr, zrbhdr32 or zrhhdr. */
    method ReadForm(form: Form) returns (h: Head)
      requires rxhdr.Length == 4
      modifies line`input, rxhdr, this`rxpos
      ensures (h, line.input) == ReadHeader(old(line.input), form, line.zctlesc) && Kept(h)
    {
      hide ReadN, ReadHexN, Sum16, Valid32, Rclhdr;
      var b, good;
      match form {
        case Bin16 =>
          b := ReadBinary(7);
          good := b.All? && Sum16(b.bytes) == 0;
        case Bin32 =>
          b := ReadBinary(9);
          good := b.All? && Valid32(b.bytes);
        case Hex =>
          b := ReadHex(7);
          good := b.All? && Sum16(b.bytes) == 0;
          if good {
            SkipLineEnd();
          }
      }
      h := Verdict(b, good);
      if h.Found? {
        Keep(h.hdr);
      }
    }

    method SkipLineEnd()
      modifies line`input
      ensures line.input == LineEnd(old(line.input))
    {
      hide Strip7;
      ghost var before := line.input;
      var c := line.ReadLine();
      if c.Some? && Strip7(c.value) == CR {
        c := line.ReadLine();
        assert |before| >= 2 ==> before[1..][1..] == before[2..];
      }
    }

    method AtGarbage(n: int) returns (next: Next)
      ensures Garbage(line.input, n, line.zctlesc) ==
              if next.Stop? then (next.h, line.input) else Scan(line.input, next.n, next.cans, line.zctlesc)
      ensures next.Stop? ==> next.h.Failed?
    {
      hide Scan;
      next := if n - 1 == 0 then Stop(Failed(Bad)) else Again(n - 1, 5);
    }

    method AtCan(n: int, cans: int) returns (next: Next)
      modifies line`input
      ensures GotCan(old(line.input), n, cans, line.zctlesc) ==
              if next.Stop? then (next.h, line.input) else Scan(line.input, next.n, next.cans, line.zctlesc)
      ensures |line.input| <= |old(line.input)| && (next.Stop? ==> next.h.Failed?)
    {
      hide Scan, Garbage;
      if cans - 1 <= 0 {
        return Stop(Failed(Cancelled));
      }
      var c := line.ReadLine();
      if c.None? {
        return Stop(Failed(TimedOut));
      }
      if c.value == ZCRCW {
        return Stop(Failed(Bad));
      }
      if c.value == ZDLE {
        return if cans - 2 <= 0 then Stop(Failed(Cancelled)) else Again(n, cans - 2);
      }
      next := AtGarbage(n);
    }

    /** Behind a ZPAD. */
    method AtPad(n: int) returns (next: Next)
      requires rxhdr.Length == 4
      modifies line`input, rxhdr, this`rxpos
      ensures Splat(old(line.input), n, line.zctlesc) ==
              if next.Stop? then (next.h, line.input) else Scan(line.input, next.n, next.cans, line.zctlesc)
      ensures |line.input| <= |old(line.input)| && (next.Stop? ==> Kept(next.h))
    {
      hide Scan, Garbage, GotCan, ReadHeader, ZmodemHeader.NoXrd7, Rclhdr;
      var c := NoXrd7();
      while c == Some(ZPAD)
        invariant |line.input| <= |old(line.input)|
        invariant Splat(old(line.input), n, line.zctlesc) == AfterPad(c, line.input, n, line.zctlesc)
        decreases |line.input|, c.Some?
      {
        c := NoXrd7();
      }
      if c.None? {
        return Stop(Failed(TimedOut));
      }
      if c.value != ZDLE {
        next := AtGarbage(n);
        return;
      }
      c := NoXrd7();
      if c.None? {
        next := Stop(Failed(TimedOut));
      } else if c.value == ZBIN || c.value == ZBIN32 || c.value == ZHEX {
        var h := ReadForm(if c.value == ZBIN then Bin16 else if c.value == ZBIN32 then Bin32 else Hex);
        next := Stop(h);
      } else if c.value == ZDLE {
        next := AtCan(n, 5);
      } else {
        next := AtGarbage(n);
      }
    }

    /** What Splat comes to once the character `c` has been read. */
    static ghost function AfterPad(c: Option<byte>, rest: seq<byte>, n: int, ctlesc: bool): (Head, seq<byte>) {
      if c.None? then (Failed(TimedOut), rest)
      else if c.value == ZPAD then Splat(rest, n, ctlesc)
      else if c.value == ZDLE then
        var (d, rest1) := ZmodemHeader.NoXrd7(rest, ctlesc);
        if d.None? then (Failed(TimedOut), rest1)
        else if d.value == ZBIN then ReadHeader(rest1, Bin16, ctlesc)
        else if d.value == ZBIN32 then ReadHeader(rest1, Bin32, ctlesc)
        else if d.value == ZHEX then ReadHeader(rest1, Hex, ctlesc)
        else if d.value == ZDLE then GotCan(rest1, n, 5, ctlesc)
        else Garbage(rest1, n, ctlesc)
      else Garbage(rest, n, ctlesc)
    }

    /** zgethdr; `limit` is Zrwindow + Baudrate. */
    method ZGetHdr(limit: int) returns (h: Head)
      requires rxhdr.Length == 4
      modifies line`input, rxhdr, this`rxpos
      ensures (h, line.input) == GetHdr(old(line.input), limit, line.zctlesc) && Kept(h)
    {
      hide Garbage, GotCan, Splat, Rclhdr, Strip7;
      var next := Again(limit, 5);
      while next.Again?
        invariant GetHdr(old(line.input), limit, line.zctlesc) ==
                  if next.Stop? then (next.h, line.input) else Scan(line.input, next.n, next.cans, line.zctlesc)
        invariant next.Stop? ==> Kept(next.h)
        decreases |line.input|, next.Again?
      {
        var c := line.ReadLine();
        if c.None? {
          next := Stop(Failed(TimedOut));
        } else if c.value == ZDLE {
          next := AtCan(next.n, next.cans);
        } else if Strip7(c.value) == ZPAD {
          next := AtPad(next.n);
        } else {
          next := AtGarbage(next.n);
        }
      }
      h := next.h;
    }
  }
}
