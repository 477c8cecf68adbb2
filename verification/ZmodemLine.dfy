/** The routines of ddz/zm.c on the data part of a frame as they are written: an
    escape table filled when the escape mode changes, characters sent one by one,
    characters read one by one into a buffer with a running check. */
module ZmodemLine {
  import opened Crc
  import opened Maybe
  import opened ZmCrc
  import opened ZmodemCodec

  class Sender {
    const tab: array<Escape>
    var zctlesc: bool
    /** The mode the table was filled for; none yet at first. */
    var lastEsc: Option<bool>
    var lastsent: byte
    var sent: seq<byte>

    ghost predicate Valid()
      reads this, tab
    {
      && tab.Length == 256
      && (lastEsc.Some? ==> forall i | 0 <= i < 256 :: tab[i] == Entry(i as byte, lastEsc.value))
    }

    constructor (ctlesc: bool)
      ensures Valid() && fresh(tab) && zctlesc == ctlesc && sent == []
    {
      tab := new Escape[256](_ => Never);
      zctlesc, lastEsc, lastsent, sent := ctlesc, None, 0, [];
    }

    method XSendLine(c: byte)
      modifies this`sent
      ensures sent == old(sent) + [c]
    {
      sent := sent + [c];
    }

    /** zsendline_init. */
    method FillTable()
      requires tab.Length == 256
      modifies tab, this`lastEsc
      ensures Valid() && lastEsc == Some(zctlesc)
    {
      hide Entry;
      var i := 0;
      while i < 256
        invariant 0 <= i <= 256
        invariant forall k | 0 <= k < i :: tab[k] == Entry(k as byte, zctlesc)
      {
        tab[i] := Entry(i as byte, zctlesc);
        i := i + 1;
      }
      lastEsc := Some(zctlesc);
    }

    method Lookup(c: byte) returns (e: Escape)
      requires Valid()
      modifies tab, this`lastEsc
      ensures Valid() && e == Entry(c, zctlesc)
    {
      hide Entry;
      if lastEsc != Some(zctlesc) {
        FillTable();
      }
      ByteIndex(c);
      e := tab[c as int];
    }

    static lemma ByteIndex(c: byte)
      ensures 0 <= c as int < 256 && (c as int) as byte == c
    {
    }

    method ZSendLine(c: byte)
      requires Valid()
      modifies this`lastEsc, this`lastsent, this`sent, tab
      ensures Valid()
      ensures sent == old(sent) + Chunk(c, old(lastsent), zctlesc) && lastsent == Last(c, old(lastsent), zctlesc)
    {
      hide Entry, Flip, Strip7;
      var e := Lookup(c);
      if e == Never || (e == AfterAt && Strip7(lastsent) != 0x40) {
        XSendLine(c);
        lastsent := c;
      } else {
        XSendLine(ZDLE);
        XSendLine(Flip(c));
        lastsent := Flip(c);
      }
    }

    /** zsda32 sends what is no control character without looking at the table. */
    method ZSendFast(c: byte)
      requires Valid()
      modifies this`lastEsc, this`lastsent, this`sent, tab
      ensures Valid()
      ensures sent == old(sent) + Chunk(c, old(lastsent), zctlesc) && lastsent == Last(c, old(lastsent), zctlesc)
    {
      if Graphic(c) {
        XSendLine(c);
        lastsent := c;
      } else {
        ZSendLine(c);
      }
    }

    method SendAll(s: seq<byte>, fast: bool)
      requires Valid()
      modifies this`lastEsc, this`lastsent, this`sent, tab
      ensures Valid()
      ensures sent == old(sent) + Line(s, old(lastsent), zctlesc) && lastsent == LastOf(s, old(lastsent), zctlesc)
    {
      hide *;
      ghost var (all, end) := (sent + Line(s, lastsent, zctlesc), LastOf(s, lastsent, zctlesc));
      assert s[0..] == s;
      var i := 0;
      while i < |s|
        invariant 0 <= i <= |s| && Valid()
        invariant all == sent + Line(s[i..], lastsent, zctlesc) && end == LastOf(s[i..], lastsent, zctlesc)
      {
        NextLine(sent, s, i, lastsent, zctlesc);
        if fast {
          ZSendFast(s[i]);
        } else {
          ZSendLine(s[i]);
        }
        i := i + 1;
      }
      NoLine(sent, s[i..], lastsent, zctlesc);
    }

    static lemma NextLine(done: seq<byte>, s: seq<byte>, i: nat, last: byte, ctlesc: bool)
      requires i < |s|
      ensures done + Line(s[i..], last, ctlesc) ==
              done + Chunk(s[i], last, ctlesc) + Line(s[i + 1..], Last(s[i], last, ctlesc), ctlesc)
      ensures LastOf(s[i..], last, ctlesc) == LastOf(s[i + 1..], Last(s[i], last, ctlesc), ctlesc)
    {
      hide Chunk, Last;
      assert s[i..][1..] == s[i + 1..];
    }

    static lemma NoLine(done: seq<byte>, s: seq<byte>, last: byte, ctlesc: bool)
      requires s == []
      ensures done + Line(s, last, ctlesc) == done && LastOf(s, last, ctlesc) == last
    {
    }

    /** zsdata, and zsda32 when the frame has a 32-bit check. */
    method ZsData(buf: seq<byte>, frameend: byte, crc32t: bool)
      requires Valid()
      modifies this`lastEsc, this`lastsent, this`sent, tab
      ensures Valid()
      ensures sent == old(sent) + Subpacket(buf, frameend, old(lastsent), zctlesc, crc32t)
    {
      hide Line, LastOf, Tail;
      ghost var before := sent;
      ghost var last := lastsent;
      var tail := CheckBytes(buf, frameend, crc32t);
      SendAll(buf, crc32t);
      XSendLine(ZDLE);
      XSendLine(frameend);
      SendAll(tail, crc32t);
      ghost var (a, b) := (Line(buf, last, zctlesc), Line(tail, LastOf(buf, last, zctlesc), zctlesc));
      assert sent == before + (a + [ZDLE, frameend] + b);
      if frameend == ZCRCW {
        XSendLine(XON);
      }
      assert sent == before + Subpacket(buf, frameend, last, zctlesc, crc32t);
    }

    /** The running check over the data and the frame end. */
    method CheckBytes(buf: seq<byte>, frameend: byte, crc32t: bool) returns (tail: seq<byte>)
      ensures tail == Tail(buf + [frameend], crc32t)
    {
      hide UpdCrc, UpdC32, Flushed, High, Low, Update32, Bytes32;
      var crc16: bv16, crc32: bv32 := 0, 0xffffffff;
      var i := 0;
      while i < |buf|
        invariant 0 <= i <= |buf| && crc16 == Sum16(buf[..i]) && crc32 == Run32(0xffffffff, buf[..i])
      {
        assert buf[..i + 1][..i] == buf[..i];
        UpdC32IsUpdate32(buf[i], crc32);
        crc16, crc32 := UpdCrc(buf[i], crc16), UpdC32(buf[i], crc32);
        i := i + 1;
      }
      assert buf[..i] == buf && (buf + [frameend])[..i] == buf;
      UpdC32IsUpdate32(frameend, crc32);
      crc16, crc32 := UpdCrc(frameend, crc16), UpdC32(frameend, crc32);
      tail := if crc32t then Bytes32(!crc32) else [High(Flushed(crc16)), Low(Flushed(crc16))];
    }
  }

  /** The running sums of a receiver over everything it has read. */
  datatype Sums = Sums(crc16: bv16, crc32: bv32)

  function SumsOf(fed: seq<byte>): Sums { Sums(Sum16(fed), Run32(0xffffffff, fed)) }

  class Receiver {
    var input: seq<byte>
    var zctlesc: bool
    var rxcount: nat

    constructor (line: seq<byte>, ctlesc: bool)
      ensures input == line && zctlesc == ctlesc && rxcount == 0
    {
      input, zctlesc, rxcount := line, ctlesc, 0;
    }

    /** READLINE_PF; no character is a timeout. */
    method ReadLine() returns (c: Option<byte>)
      modifies this`input
      ensures if old(input) == [] then c == None && input == []
              else c == Some(old(input)[0]) && input == old(input)[1..]
    {
      if input == [] {
        c := None;
      } else {
        c := Some(input[0]);
        input := input[1..];
      }
    }

    /** zdlread: characters that do not count are passed over. */
    method ZdlRead() returns (g: Got)
      modifies this`input
      ensures (g, input) == ReadDl(old(input), zctlesc)
    {
      hide Graphic, Flow, ReadEscape;
      while true
        invariant ReadDl(old(input), zctlesc) == ReadDl(input, zctlesc)
        decreases |input|
      {
        var c := ReadLine();
        if c.None? {
          return TimedOut;
        }
        if Graphic(c.value) {
          return Char(c.value);
        }
        if c.value == ZDLE {
          g := ZdlRead2();
          return;
        }
        if !(Flow(c.value) || zctlesc) {
          return Char(c.value);
        }
      }
    }

    /** The part of zdlread2 behind an escape character. */
    method ZdlRead2() returns (g: Got)
      modifies this`input
      ensures (g, input) == ReadEscape(old(input), zctlesc)
    {
      hide Graphic, Flow, Flip;
      while true
        invariant ReadEscape(old(input), zctlesc) == ReadEscape(input, zctlesc)
        decreases |input|
      {
        ghost var before := input;
        var c := PastCans(3);
        if c.None? {
          return TimedOut;
        }
        if c.value == ZDLE {
          return Cancelled;
        }
        if FrameEnd(c.value) {
          return End(c.value);
        }
        if c.value == ZRUB0 {
          return Char(0x7f);
        }
        if c.value == ZRUB1 {
          return Char(0xff);
        }
        if !(Flow(c.value) || (zctlesc && !Graphic(c.value))) {
          return if c.value & 0x60 == 0x40 then Char(Flip(c.value)) else Bad;
        }
      }
    }

    /** Up to `max` CANs are read over; the character behind them counts. */
    method PastCans(max: nat) returns (c: Option<byte>)
      modifies this`input
      ensures var k := Cans(old(input), max);
              if k >= |old(input)| then c == None && input == []
              else c == Some(old(input)[k]) && input == old(input)[k + 1..]
    {
      var left: nat := max;
      c := ReadLine();
      ghost var k := 0;
      while c == Some(ZDLE) && left > 0
        invariant left <= max && k + left == max && k <= |old(input)|
        invariant Cans(old(input), max) == k + Cans(old(input)[k..], left)
        invariant if k == |old(input)| then c == None && input == []
                  else c == Some(old(input)[k]) && input == old(input)[k + 1..]
      {
        assert old(input)[k..][1..] == old(input)[k + 1..];
        c := ReadLine();
        left, k := left - 1, k + 1;
      }
    }

    static method Fed(sums: Sums, c: byte, ghost fed: seq<byte>) returns (r: Sums)
      requires sums == SumsOf(fed)
      ensures r == SumsOf(fed + [c])
    {
      hide UpdCrc, UpdC32, Update32;
      assert (fed + [c])[..|fed|] == fed;
      UpdC32IsUpdate32(c, sums.crc32);
      r := Sums(UpdCrc(c, sums.crc16), UpdC32(c, sums.crc32));
    }

    /** The check bytes behind a frame end, with the jump back when another comes. */
    method ReadCheckBytes(e: byte, sums: Sums, crc32: bool, ghost fed: seq<byte>) returns (g: Got)
      requires sums == SumsOf(fed)
      modifies this`input
      ensures (g, input) == ReadCheck(old(input), e, fed, Width(crc32), zctlesc, crc32)
    {
      hide SumsOf, ReadDl, Sum16, Run32, Checks;
      var d, n: nat, sum := e, Width(crc32), sums;
      ghost var all := fed;
      while n > 0
        invariant n <= Width(crc32) && sum == SumsOf(all)
        invariant ReadCheck(old(input), e, fed, Width(crc32), zctlesc, crc32) ==
                  ReadCheck(input, d, all, n, zctlesc, crc32)
        decreases |input|, n
      {
        ghost var before := input;
        g := ZdlRead();
        match g {
          case Char(c) =>
            sum := Fed(sum, c, all);
            all := all + [c];
            n := n - 1;
          case End(e') =>
            sum := Fed(sum, e', all);
            all := all + [e'];
            d, n := e', Width(crc32);
          case _ =>
            return;
        }
      }
      SumsCheck(all, crc32);
      g := if (if crc32 then sum.crc32 == RESIDUE32 else sum.crc16 == 0) then End(d) else Bad;
    }

    static lemma SumsCheck(fed: seq<byte>, crc32: bool)
      ensures Checks(fed, crc32) == if crc32 then SumsOf(fed).crc32 == RESIDUE32 else SumsOf(fed).crc16 == 0
    {
      hide Run32, Sum16;
    }

    static lemma NoSums()
      ensures SumsOf([]) == Sums(0, 0xffffffff)
    {
    }

    static lemma AsStored(now: seq<byte>, was: seq<byte>, data: seq<byte>)
      requires |data| <= |now| == |was| && now[..|data|] == data
      requires forall i | |data| <= i < |now| :: now[i] == was[i]
      ensures now == data + was[|data|..]
    {
    }

    /** zrdata and zrdat32; on errors up to `length + 1` bytes are stored. */
    method ZrData(buf: array<byte>, length: nat, crc32: bool) returns (g: Got)
      requires length < buf.Length
      modifies this`input, this`rxcount, buf
      ensures var r := ReadData(old(input), [], length, zctlesc, crc32);
              && g == r.got && rxcount == r.count && input == r.rest
              && |r.data| <= length + 1
              && buf[..] == r.data + old(buf[..])[|r.data|..]
    {
      hide SumsOf, ReadDl, ReadCheck;
      rxcount := 0;
      var p, sums := 0, Sums(0, 0xffffffff);
      NoSums();
      assert buf[..0] == [];
      while p <= length
        invariant p <= length + 1 && rxcount == 0 && sums == SumsOf(buf[..p])
        invariant ReadData(old(input), [], length, zctlesc, crc32) == ReadData(input, buf[..p], length, zctlesc, crc32)
        invariant forall i | p <= i < buf.Length :: buf[i] == old(buf[i])
      {
        ghost var data := buf[..p];
        g := ZdlRead();
        match g {
          case Char(c) =>
            buf[p] := c;
            sums := Fed(sums, c, data);
            assert buf[..p + 1] == data + [c];
            p := p + 1;
          case End(e) =>
            AsStored(buf[..], old(buf[..]), data);
            sums := Fed(sums, e, data);
            g := ReadCheckBytes(e, sums, crc32, data + [e]);
            if g.End? {
              rxcount := p;
            }
            return;
          case _ =>
            AsStored(buf[..], old(buf[..]), data);
            return;
        }
      }
      AsStored(buf[..], old(buf[..]), buf[..p]);
      g := Bad;
    }
  }
}
