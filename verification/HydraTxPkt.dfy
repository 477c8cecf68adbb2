/** The transmit side of the packet codec: txpkt encodes in place, reading the
    payload from the middle of the buffer it writes to. */
module HydraTxPkt {
  import opened Crc
  import opened HydraOptions
  import opened HydraCodec

  /** Everything but `x` at position `k` is as it was in `before`. */
  ghost predicate Wrote(now: seq<byte>, before: seq<byte>, k: nat, x: seq<byte>) {
    && |now| == |before|
    && k + |x| <= |now|
    && now == before[..k] + x + before[k + |x|..]
  }

  /** The encoder has put out `done` of `all`; the next chunk goes out. */
  lemma WroteMore(a: seq<byte>, b: seq<byte>, c: seq<byte>, k: nat, all: seq<byte>, done: seq<byte>, chunk: seq<byte>,
      rest: seq<byte>)
    requires Wrote(b, a, k, done) && Wrote(c, b, k + |done|, chunk)
    requires all == done + (chunk + rest)
    ensures Wrote(c, a, k, done + chunk) && all == (done + chunk) + rest
  {
    assert b[..k + |done|] == a[..k] + done;
    assert b[k + |done| + |chunk|..] == a[k + |done + chunk|..];
    assert c == a[..k] + (done + chunk) + a[k + |done + chunk|..];
  }

  lemma WroteNothing(a: seq<byte>, k: nat, all: seq<byte>)
    requires k <= |a|
    ensures Wrote(a, a, k, []) && [] + all == all
  {
    assert a[..k] + [] + a[k..] == a;
  }

  /** Reading back what was written, with what stood before it. */
  lemma WroteSlice(now: seq<byte>, before: seq<byte>, k: nat, x: seq<byte>, lo: nat)
    requires Wrote(now, before, k, x) && lo <= k
    ensures now[lo..k + |x|] == before[lo..k] + x
    ensures forall i | k + |x| <= i < |now| :: now[i] == before[i]
    ensures forall lo', hi | k + |x| <= lo' <= hi <= |now| :: now[lo'..hi] == before[lo'..hi]
  {
  }

  /** What lies beyond the write position is still the old input. */
  lemma Unread(now: seq<byte>, before: seq<byte>, k: nat, x: seq<byte>, at: nat)
    requires Wrote(now, before, k, x) && k + |x| <= at < |now|
    ensures now[at] == before[at]
  {
  }

  lemma HexChunkShape(b: byte)
    ensures 1 <= |HexChunk(b)| <= 3
  {
  }

  lemma BinChunkShape(c: byte, last: byte, o: Options)
    ensures 1 <= |BinChunk(c, last, o)| <= 2
  {
  }

  /** One more byte of the remaining input. */
  lemma NextHex(s: seq<byte>, i: nat)
    requires i < |s|
    ensures EncHex(s[i..]) == HexChunk(s[i]) + EncHex(s[i + 1..])
  {
    assert s[i..][1..] == s[i + 1..];
  }

  lemma NextBin(s: seq<byte>, i: nat, last: byte, o: Options)
    requires i < |s|
    ensures EncBin(s[i..], last, o) == BinChunk(s[i], last, o) + EncBin(s[i + 1..], Tested(s[i], o), o)
  {
    assert s[i..][1..] == s[i + 1..];
  }

  lemma ConsBin(c: byte, r: seq<byte>, last: byte, o: Options)
    ensures EncBin([c] + r, last, o) == BinChunk(c, last, o) + EncBin(r, Tested(c, o), o)
  {
    assert ([c] + r)[1..] == r;
  }

  lemma NextUue(s: seq<byte>, i: nat, stale: byte)
    requires i + 3 <= |s|
    ensures EncUue(s[i..], stale) ==
            [UuChar(Six1(s[i])), UuChar(Six2(s[i], s[i + 1])), UuChar(Six3(s[i + 1], s[i + 2])), UuChar(Six4(s[i + 2]))]
            + EncUue(s[i + 3..], stale)
  {
    hide UuChar, Six1, Six2, Six3, Six4;
    assert s[i..][3..] == s[i + 3..];
  }

  class Transmitter {
    const txbuf: array<byte>
    const tables: Tables
    var txoptions: Options
    var txlastc: byte
    /** Up to the zero byte at its end. */
    var txpktprefix: seq<byte>

    ghost predicate Valid()
      reads this, tables, tables.tab16, tables.tab32
    {
      txbuf.Length == BUFLEN && tables.Valid()
    }

    constructor ()
      ensures Valid() && fresh(txbuf) && fresh(tables) && txoptions == NONE && txpktprefix == []
    {
      txbuf := new byte[BUFLEN];
      tables := new Tables();
      txoptions := NONE;
      txlastc := 0;
      txpktprefix := [];
    }

    /** put_binbyte. */
    method PutBinByte(out: nat, c: byte) returns (p: nat)
      requires out + 2 <= txbuf.Length
      modifies txbuf, this`txlastc
      ensures p == out + |BinChunk(c, old(txlastc), txoptions)|
      ensures Wrote(txbuf[..], old(txbuf[..]), out, BinChunk(c, old(txlastc), txoptions))
      ensures txlastc == Tested(c, txoptions)
    {
      hide Tested;
      var n := Tested(c, txoptions);
      p := out;
      if MustEscape(c, txlastc, txoptions) {
        txbuf[p] := DLE;
        txbuf[p + 1] := Flip(c);
        p := p + 2;
      } else {
        txbuf[p] := c;
        p := p + 1;
      }
      txlastc := n;
    }

    method Put2(out: nat, a: byte, b: byte)
      requires out + 2 <= txbuf.Length
      modifies txbuf
      ensures Wrote(txbuf[..], old(txbuf[..]), out, [a, b])
    {
      txbuf[out] := a;
      txbuf[out + 1] := b;
    }

    /** One input byte of a hexadecimal packet, read again for each digit. */
    method PutHexByte(at: nat, out: nat) returns (p: nat)
      requires out + 2 <= at < txbuf.Length
      modifies txbuf
      ensures p == out + |HexChunk(old(txbuf[at]))|
      ensures Wrote(txbuf[..], old(txbuf[..]), out, HexChunk(old(txbuf[at])))
    {
      hide HighDigit, LowDigit;
      ghost var (before, b) := (txbuf[..], txbuf[at]);
      if txbuf[at] & 0x80 != 0 {
        txbuf[out] := BACKSLASH;
        txbuf[out + 1] := HighDigit(txbuf[at]);
        txbuf[out + 2] := LowDigit(txbuf[at]);
        p := out + 3;
        assert txbuf[..] == before[..out] + [BACKSLASH, HighDigit(b), LowDigit(b)] + before[out + 3..];
      } else if txbuf[at] < 32 || txbuf[at] == 127 {
        Put2(out, DLE, Flip(txbuf[at]));
        p := out + 2;
      } else if txbuf[at] == BACKSLASH {
        Put2(out, BACKSLASH, BACKSLASH);
        p := out + 2;
      } else {
        txbuf[out] := txbuf[at];
        p := out + 1;
        assert txbuf[..] == before[..out] + [b] + before[out + 1..];
      }
    }

    method HexBody(len: nat) returns (out: nat)
      requires txbuf.Length == BUFLEN && len <= MAXBLKLEN + OVERHEAD + 3
      modifies txbuf
      ensures out == 2 + |EncHex(old(txbuf[TXBUFIN..TXBUFIN + len]))| <= 2 + 3 * len
      ensures Wrote(txbuf[..], old(txbuf[..]), 2, EncHex(old(txbuf[TXBUFIN..TXBUFIN + len])))
    {
      hide HexChunk, EncHex, Wrote;
      ghost var before := txbuf[..];
      ghost var s := txbuf[TXBUFIN..TXBUFIN + len];
      ghost var done: seq<byte> := [];
      out := 2;
      WroteNothing(before, 2, EncHex(s));
      assert s[0..] == s;
      var i := 0;
      while i < len
        invariant 0 <= i <= len && out == 2 + |done| && |done| <= 3 * i
        invariant EncHex(s) == done + EncHex(s[i..])
        invariant Wrote(txbuf[..], before, 2, done)
      {
        ghost var mid := txbuf[..];
        Unread(mid, before, 2, done, TXBUFIN + i);
        HexChunkShape(s[i]);
        NextHex(s, i);
        out := PutHexByte(TXBUFIN + i, out);
        WroteMore(before, mid, txbuf[..], 2, EncHex(s), done, HexChunk(s[i]), EncHex(s[i + 1..]));
        done := done + HexChunk(s[i]);
        i := i + 1;
      }
      EncodedAll(s, 0, txoptions);
      assert done + [] == done;
    }

    method BinBody(len: nat) returns (out: nat)
      requires txbuf.Length == BUFLEN && len <= MAXBLKLEN + OVERHEAD + 5 && txlastc == 0
      modifies txbuf, this`txlastc
      ensures out == 2 + |EncBin(old(txbuf[TXBUFIN..TXBUFIN + len]), 0, txoptions)| <= 2 + 2 * len
      ensures Wrote(txbuf[..], old(txbuf[..]), 2, EncBin(old(txbuf[TXBUFIN..TXBUFIN + len]), 0, txoptions))
    {
      hide BinChunk, EncBin, Tested, Wrote;
      ghost var before := txbuf[..];
      ghost var s := txbuf[TXBUFIN..TXBUFIN + len];
      ghost var all := EncBin(s, 0, txoptions);
      ghost var done: seq<byte> := [];
      out := 2;
      WroteNothing(before, 2, all);
      assert s[0..] == s;
      var i := 0;
      while i < len
        invariant 0 <= i <= len && out == 2 + |done| && |done| <= 2 * i
        invariant all == done + EncBin(s[i..], txlastc, txoptions)
        invariant Wrote(txbuf[..], before, 2, done)
      {
        ghost var mid := txbuf[..];
        Unread(mid, before, 2, done, TXBUFIN + i);
        ghost var chunk := BinChunk(s[i], txlastc, txoptions);
        BinChunkShape(s[i], txlastc, txoptions);
        NextBin(s, i, txlastc, txoptions);
        out := PutBinByte(out, txbuf[TXBUFIN + i]);
        WroteMore(before, mid, txbuf[..], 2, all, done, chunk, EncBin(s[i + 1..], txlastc, txoptions));
        done := done + chunk;
        i := i + 1;
      }
      EncodedAll(s, txlastc, txoptions);
      assert done + [] == done;
    }

    /** One seven-bit group of an ASC packet goes out. */
    method PutGroup(out: nat, c: byte, ghost before: seq<byte>, ghost all: seq<byte>, ghost done: seq<byte>,
        ghost rest: seq<byte>)
      returns (p: nat, ghost done': seq<byte>)
      requires 2 <= out && out + 2 <= txbuf.Length && out == 2 + |done|
      requires Wrote(txbuf[..], before, 2, done)
      requires all == done + EncBin([c] + rest, txlastc, txoptions)
      modifies txbuf, this`txlastc
      ensures p == 2 + |done'| && out < p <= out + 2
      ensures Wrote(txbuf[..], before, 2, done')
      ensures all == done' + EncBin(rest, txlastc, txoptions)
    {
      hide BinChunk, EncBin, Tested, Wrote;
      ghost var mid := txbuf[..];
      ghost var chunk := BinChunk(c, txlastc, txoptions);
      BinChunkShape(c, txlastc, txoptions);
      ConsBin(c, rest, txlastc, txoptions);
      p := PutBinByte(out, c);
      WroteMore(before, mid, txbuf[..], 2, all, done, chunk, EncBin(rest, txlastc, txoptions));
      done' := done + chunk;
    }

    method AscBody(len: nat) returns (out: nat)
      requires txbuf.Length == BUFLEN && len <= MAXBLKLEN + OVERHEAD + 5 && txlastc == 0
      modifies txbuf, this`txlastc
      ensures var x := EncBin(Pack7(old(txbuf[TXBUFIN..TXBUFIN + len]), 0, 0), 0, txoptions);
              out == 2 + |x| <= MAXPKTLEN - 4 && Wrote(txbuf[..], old(txbuf[..]), 2, x)
    {
      hide EncBin, Wrote, Joined, Low7, Rest7, Pack7;
      ghost var before := txbuf[..];
      ghost var s := txbuf[TXBUFIN..TXBUFIN + len];
      ghost var all := EncBin(Pack7(s, 0, 0), 0, txoptions);
      ghost var done: seq<byte> := [];
      ghost var groups := 0;
      out := 2;
      WroteNothing(before, 2, all);
      assert s[0..] == s;
      var n, c: bv16, i := 0, 0, 0;
      while i < len
        invariant 0 <= i <= len && out == 2 + |done| && n < 7
        invariant 7 * groups + n == 8 * i && |done| <= 2 * groups
        invariant all == done + EncBin(Pack7(s[i..], n, c), txlastc, txoptions)
        invariant Wrote(txbuf[..], before, 2, done)
      {
        Unread(txbuf[..], before, 2, done, TXBUFIN + i);
        NextPack7(s, i, n, c);
        c := Joined(c, txbuf[TXBUFIN + i], n);
        i := i + 1;
        ghost var rest := if n == 6 then [Low7(Rest7(c))] + Pack7(s[i..], 0, 0) else Pack7(s[i..], n + 1, Rest7(c));
        out, done := PutGroup(out, Low7(c), before, all, done, rest);
        groups := groups + 1;
        c := Rest7(c);
        n := n + 1;
        if n >= 7 {
          out, done := PutGroup(out, Low7(c), before, all, done, Pack7(s[i..], 0, 0));
          groups := groups + 1;
          n, c := 0, 0;
        }
      }
      LastPack7(s, n, c);
      if n > 0 {
        out, done := PutGroup(out, Low7(c), before, all, done, []);
      }
      EncodedAll(s, txlastc, txoptions);
      assert done + [] == done;
    }

    static lemma NextPack7(s: seq<byte>, i: nat, n: nat, c: bv16)
      requires i < |s| && n < 7
      ensures var v := Joined(c, s[i], n);
              Pack7(s[i..], n, c) ==
              [Low7(v)] + if n == 6 then [Low7(Rest7(v))] + Pack7(s[i + 1..], 0, 0)
                else Pack7(s[i + 1..], n + 1, Rest7(v))
    {
      hide Joined, Low7, Rest7, Pack7;
      FirstPack7(s[i..], n, c);
      assert s[i..][1..] == s[i + 1..];
    }

    static lemma FirstPack7(s: seq<byte>, n: nat, c: bv16)
      requires s != [] && n < 7
      ensures var v := Joined(c, s[0], n);
              Pack7(s, n, c) ==
              [Low7(v)] + if n == 6 then [Low7(Rest7(v))] + Pack7(s[1..], 0, 0) else Pack7(s[1..], n + 1, Rest7(v))
    {
      hide Joined, Low7, Rest7;
    }

    static lemma LastPack7(s: seq<byte>, n: nat, c: bv16)
      requires n < 7
      ensures Pack7(s[|s|..], n, c) == if n > 0 then [Low7(c)] + [] else []
    {
      hide Joined, Low7, Rest7;
    }

    /** Four characters for three bytes. */
    method PutUue(at: nat, out: nat)
      requires out + 4 <= at && at + 3 <= txbuf.Length
      modifies txbuf
      ensures var (a, b, c) := (old(txbuf[at]), old(txbuf[at + 1]), old(txbuf[at + 2]));
              Wrote(txbuf[..], old(txbuf[..]), out,
                [UuChar(Six1(a)), UuChar(Six2(a, b)), UuChar(Six3(b, c)), UuChar(Six4(c))])
    {
      hide UuChar, Six1, Six2, Six3, Six4;
      txbuf[out] := UuChar(Six1(txbuf[at]));
      txbuf[out + 1] := UuChar(Six2(txbuf[at], txbuf[at + 1]));
      txbuf[out + 2] := UuChar(Six3(txbuf[at + 1], txbuf[at + 2]));
      txbuf[out + 3] := UuChar(Six4(txbuf[at + 2]));
    }

    /** The two or three characters of a last group of one or two bytes. */
    method PutUueTail(at: nat, out: nat, len: nat) returns (p: nat)
      requires out + 3 <= at && at + 2 <= txbuf.Length && 1 <= len <= 2
      modifies txbuf
      ensures p == out + len + 1
      ensures Wrote(txbuf[..], old(txbuf[..]), out, EncUue(old(txbuf[at..at + len]), old(txbuf[at + 1])))
    {
      hide UuChar, Six1, Six2, Six3Last, EncUue, Wrote;
      ghost var was := txbuf[..];
      ghost var x := [UuChar(Six1(txbuf[at])), UuChar(Six2(txbuf[at], txbuf[at + 1]))];
      EncUueTail(was, at, len);
      Put2(out, UuChar(Six1(txbuf[at])), UuChar(Six2(txbuf[at], txbuf[at + 1])));
      p := out + 2;
      if len == 2 {
        ghost var mid := txbuf[..];
        WroteSlice(mid, was, out, x, out);
        txbuf[p] := UuChar(Six3Last(txbuf[at + 1]));
        WroteOne(txbuf[..], mid, was, out, x, txbuf[p]);
        p := p + 1;
      }
      assert x + [] == x;
    }

    static lemma EncUueTail(buf: seq<byte>, at: nat, len: nat)
      requires at + 2 <= |buf| && 1 <= len <= 2
      ensures EncUue(buf[at..at + len], buf[at + 1]) ==
              [UuChar(Six1(buf[at])), UuChar(Six2(buf[at], buf[at + 1]))] +
              if len == 1 then [] else [UuChar(Six3Last(buf[at + 1]))]
    {
      hide UuChar, Six1, Six2, Six3, Six3Last, Six4;
    }

    static lemma WroteOne(now: seq<byte>, mid: seq<byte>, was: seq<byte>, k: nat, x: seq<byte>, y: byte)
      requires Wrote(mid, was, k, x) && k + |x| < |mid| && now == mid[k + |x| := y]
      ensures Wrote(now, was, k, x + [y])
    {
    }

    /** One full group of a UUE packet goes out. */
    ghost predicate UueLoop(before: seq<byte>, len: nat, i: nat, out: nat, done: seq<byte>)
      requires |before| == BUFLEN && len <= MAXBLKLEN + OVERHEAD + 5
      reads txbuf
    {
      var s := before[TXBUFIN..TXBUFIN + len];
      var stale := before[TXBUFIN + len];
      && i <= len && out == 2 + |done| && 3 * |done| == 4 * i
      && EncUue(s, stale) == done + EncUue(s[i..], stale)
      && Wrote(txbuf[..], before, 2, done)
    }

    method PutUueGroup(ghost before: seq<byte>, len: nat, i: nat, out: nat, ghost done: seq<byte>)
      returns (p: nat, ghost done': seq<byte>)
      requires txbuf.Length == |before| == BUFLEN && len <= MAXBLKLEN + OVERHEAD + 5 && i + 3 <= len
      requires UueLoop(before, len, i, out, done)
      modifies txbuf
      ensures p == out + 4 && UueLoop(before, len, i + 3, p, done')
    {
      hide UuChar, Six1, Six2, Six3, Six4, EncUue, Wrote;
      ghost var mid := txbuf[..];
      ghost var s := before[TXBUFIN..TXBUFIN + len];
      ghost var stale := before[TXBUFIN + len];
      Unread(mid, before, 2, done, TXBUFIN + i);
      Unread(mid, before, 2, done, TXBUFIN + i + 1);
      Unread(mid, before, 2, done, TXBUFIN + i + 2);
      NextUue(s, i, stale);
      ghost var chunk := [UuChar(Six1(s[i])), UuChar(Six2(s[i], s[i + 1])), UuChar(Six3(s[i + 1], s[i + 2])),
                UuChar(Six4(s[i + 2]))];
      PutUue(TXBUFIN + i, out);
      p := out + 4;
      WroteMore(before, mid, txbuf[..], 2, EncUue(s, stale), done, chunk, EncUue(s[i + 3..], stale));
      done' := done + chunk;
    }

    method UueBody(len: nat) returns (out: nat)
      requires txbuf.Length == BUFLEN && len <= MAXBLKLEN + OVERHEAD + 5
      modifies txbuf
      ensures var x := EncUue(old(txbuf[TXBUFIN..TXBUFIN + len]), old(txbuf[TXBUFIN + len]));
              out == 2 + |x| <= MAXPKTLEN - 4 && Wrote(txbuf[..], old(txbuf[..]), 2, x)
    {
      hide EncUue, Wrote;
      ghost var before := txbuf[..];
      ghost var s := before[TXBUFIN..TXBUFIN + len];
      ghost var stale := before[TXBUFIN + len];
      ghost var done: seq<byte> := [];
      out := 2;
      WroteNothing(before, 2, EncUue(s, stale));
      assert s[0..] == s;
      var i := 0;
      while len - i >= 3
        invariant UueLoop(before, len, i, out, done)
      {
        out, done := PutUueGroup(before, len, i, out, done);
        i := i + 3;
      }
      out, done := PutUueLast(before, len, i, out, done);
    }

    method PutUueLast(ghost before: seq<byte>, len: nat, i: nat, out: nat, ghost done: seq<byte>)
      returns (p: nat, ghost done': seq<byte>)
      requires txbuf.Length == |before| == BUFLEN && len <= MAXBLKLEN + OVERHEAD + 5 && len - i < 3
      requires UueLoop(before, len, i, out, done)
      modifies txbuf
      ensures p == 2 + |done'| && p <= out + 3 && Wrote(txbuf[..], before, 2, done')
      ensures done' == EncUue(before[TXBUFIN..TXBUFIN + len], before[TXBUFIN + len])
    {
      hide EncUue, Wrote;
      ghost var s := before[TXBUFIN..TXBUFIN + len];
      ghost var stale := before[TXBUFIN + len];
      p, done' := out, done;
      if len - i > 0 {
        ghost var mid := txbuf[..];
        ghost var chunk := EncUue(s[i..], stale);
        UueTail(s, i, stale, mid, before, done);
        p := PutUueTail(TXBUFIN + i, out, len - i);
        WroteMore(before, mid, txbuf[..], 2, EncUue(s, stale), done, chunk, []);
        done' := done + chunk;
      } else {
        assert s[i..] == [];
        UueNone(stale);
      }
      assert done' + [] == done';
    }

    static lemma UueNone(stale: byte)
      ensures EncUue([], stale) == []
    {
    }

    /** The last group looks at the byte after it; with two bytes left that is
        the second of them, and the result is the same. */
    static lemma UueTail(s: seq<byte>, i: nat, stale: byte, now: seq<byte>, before: seq<byte>, done: seq<byte>)
      requires i < |s| <= i + 2 && TXBUFIN + |s| < |before| == |now|
      requires before[TXBUFIN..TXBUFIN + |s|] == s && before[TXBUFIN + |s|] == stale
      requires Wrote(now, before, 2, done) && 2 + |done| <= TXBUFIN + i
      ensures now[TXBUFIN + i..TXBUFIN + |s|] == s[i..]
      ensures EncUue(now[TXBUFIN + i..TXBUFIN + |s|], now[TXBUFIN + i + 1]) == EncUue(s[i..], stale)
      ensures |EncUue(s[i..], stale)| == |s| - i + 1
      ensures EncUue(s[i..], stale) == EncUue(s[i..], stale) + []
    {
      WroteSlice(now, before, 2, done, 0);
      hide UuChar, Six1, Six2, Six3Last, Wrote;
      ghost var t := now[TXBUFIN + i..TXBUFIN + |s|];
      assert t == before[TXBUFIN + i..TXBUFIN + |s|] == before[TXBUFIN..TXBUFIN + |s|][i..] == s[i..];
      assert now[TXBUFIN + |s|] == stale;
      if |s| == i + 2 {
        StaleUnused(t, now[TXBUFIN + i + 1], stale);
      }
    }

    static lemma StaleUnused(s: seq<byte>, a: byte, b: byte)
      requires |s| == 2
      ensures EncUue(s, a) == EncUue(s, b)
    {
      hide UuChar, Six1, Six2, Six3Last;
    }

    method PutCheck32(at: nat, crc: bv32)
      requires at + 4 <= txbuf.Length
      modifies txbuf
      ensures Wrote(txbuf[..], old(txbuf[..]), at, Bytes32(crc))
    {
      var b := Bytes32(crc);
      hide Bytes32;
      CheckLength32(crc);
      txbuf[at] := b[0];
      txbuf[at + 1] := b[1];
      txbuf[at + 2] := b[2];
      txbuf[at + 3] := b[3];
    }

    method PutCheck16(at: nat, crc: bv16)
      requires at + 2 <= txbuf.Length
      modifies txbuf
      ensures Wrote(txbuf[..], old(txbuf[..]), at, Bytes16(crc))
    {
      var b := Bytes16(crc);
      hide Bytes16;
      CheckLength16(crc);
      Put2(at, b[0], b[1]);
      assert [b[0], b[1]] == b;
    }

    /** The complemented register goes behind the first `length` bytes. */
    method AddCheck(length: nat, crc32: bool) returns (len: nat)
      requires Valid() && TXBUFIN + length + 4 <= txbuf.Length
      modifies txbuf
      ensures Valid() && len == length + if crc32 then 4 else 2
      ensures var s := old(txbuf[TXBUFIN..TXBUFIN + length]);
              Wrote(txbuf[..], old(txbuf[..]), TXBUFIN + length, if crc32 then Check32(s) else Check16(s))
    {
      hide Crc16, Crc32, Bytes16, Bytes32, Wrote, Tables.Valid;
      if crc32 {
        var crc := tables.Block32(txbuf[TXBUFIN..TXBUFIN + length]);
        PutCheck32(TXBUFIN + length, !crc);
        len := length + 4;
      } else {
        var crc := tables.Block16(txbuf[TXBUFIN..TXBUFIN + length]);
        PutCheck16(TXBUFIN + length, !crc);
        len := length + 2;
      }
    }

    /** Type byte and check bytes go behind the payload. */
    method Frame(length: nat, kind: byte, crc32: bool) returns (len: nat)
      requires Valid() && length <= MAXBLKLEN + OVERHEAD
      modifies txbuf
      ensures Valid()
      ensures len == length + if crc32 then 5 else 3
      ensures txbuf[TXBUFIN..TXBUFIN + len] == Framed(old(txbuf[TXBUFIN..TXBUFIN + length]), kind, crc32)
      ensures txbuf[TXBUFIN + len] == old(txbuf[TXBUFIN + len])
    {
      hide Check16, Check32, Wrote, Tables.Valid;
      ghost var was := txbuf[..];
      txbuf[TXBUFIN + length] := kind;
      ghost var mid := txbuf[..];
      TypeBehind(mid, was, length, kind);
      ghost var s := mid[TXBUFIN..TXBUFIN + length + 1];
      len := AddCheck(length + 1, crc32);
      CheckLengths(s);
      CheckBehind(txbuf[..], mid, was, length, kind, if crc32 then Check32(s) else Check16(s));
    }

    static lemma CheckLengths(s: seq<byte>)
      ensures |Check16(s)| == 2 && |Check32(s)| == 4
    {
    }

    static lemma TypeBehind(mid: seq<byte>, was: seq<byte>, length: nat, kind: byte)
      requires TXBUFIN + length < |was| && mid == was[TXBUFIN + length := kind]
      ensures mid[TXBUFIN..TXBUFIN + length + 1] == was[TXBUFIN..TXBUFIN + length] + [kind]
    {
    }

    static lemma CheckBehind(now: seq<byte>, mid: seq<byte>, was: seq<byte>, length: nat, kind: byte, check: seq<byte>)
      requires TXBUFIN + length + 1 + |check| < |was| && mid == was[TXBUFIN + length := kind]
      requires Wrote(now, mid, TXBUFIN + length + 1, check)
      ensures var len := length + 1 + |check|;
              && |now| == |was| && now[TXBUFIN + len] == was[TXBUFIN + len]
              && now[TXBUFIN..TXBUFIN + len] == was[TXBUFIN..TXBUFIN + length] + [kind] + check
    {
    }

    static lemma CheckLength16(crc: bv16)
      ensures |Bytes16(crc)| == 2
    {
    }

    static lemma CheckLength32(crc: bv32)
      ensures |Bytes32(crc)| == 4
    {
    }

    method PutBody(len: nat, format: byte) returns (out: nat)
      requires txbuf.Length == BUFLEN && txlastc == 0
      requires len <= MAXBLKLEN + OVERHEAD + if format == HEXPKT then 3 else 5
      requires format == HEXPKT || format == BINPKT || format == ASCPKT || format == UUEPKT
      modifies txbuf, this`txlastc
      ensures var x := Body(old(txbuf[TXBUFIN..TXBUFIN + len]), format, txoptions, old(txbuf[TXBUFIN + len]));
              out == 2 + |x| <= MAXPKTLEN - 4 && Wrote(txbuf[..], old(txbuf[..]), 2, x)
    {
      hide EncHex, EncBin, EncUue, Pack7;
      if format == HEXPKT {
        out := HexBody(len);
      } else if format == BINPKT {
        out := BinBody(len);
      } else if format == ASCPKT {
        out := AscBody(len);
      } else {
        out := UueBody(len);
      }
    }

    method PutTrailer(out: nat, kind: byte, format: byte) returns (p: nat)
      requires out + 4 <= txbuf.Length
      modifies txbuf
      ensures p == out + |Trailer(kind, format)|
      ensures Wrote(txbuf[..], old(txbuf[..]), out, Trailer(kind, format))
    {
      ghost var before := txbuf[..];
      Put2(out, DLE, PKTEND);
      p := out + 2;
      assert [DLE, PKTEND] + [] == [DLE, PKTEND];
      if kind != DATA && format != BINPKT {
        ghost var mid := txbuf[..];
        Put2(p, CR, LF);
        p := p + 2;
        assert Trailer(kind, format) + [] == Trailer(kind, format);
        assert [CR, LF] + [] == [CR, LF];
        hide Wrote, Trailer;
        WroteMore(before, mid, txbuf[..], out, [DLE, PKTEND] + [CR, LF], [DLE, PKTEND], [CR, LF], []);
      }
    }

    /** The framed block at txbufin becomes the packet at txbuf. */
    method Encode(len: nat, kind: byte, format: byte) returns (wire: seq<byte>)
      requires txbuf.Length == BUFLEN
      requires len <= MAXBLKLEN + OVERHEAD + if format == HEXPKT then 3 else 5
      requires format == HEXPKT || format == BINPKT || format == ASCPKT || format == UUEPKT
      modifies txbuf, this`txlastc
      ensures wire == [DLE, format] +
              Body(old(txbuf[TXBUFIN..TXBUFIN + len]), format, txoptions, old(txbuf[TXBUFIN + len])) +
              Trailer(kind, format)
      ensures |wire| <= MAXPKTLEN
    {
      hide Body, Trailer, Wrote;
      ghost var t0 := txbuf[..];
      ghost var body := Body(t0[TXBUFIN..TXBUFIN + len], format, txoptions, t0[TXBUFIN + len]);
      txlastc := 0;
      Put2(0, DLE, format);
      ghost var t1 := txbuf[..];
      WroteSlice(t1, t0, 0, [DLE, format], 0);
      assert t1[TXBUFIN..TXBUFIN + len] == t0[TXBUFIN..TXBUFIN + len];
      var out := PutBody(len, format);
      ghost var t2 := txbuf[..];
      TrailerShape(kind, format);
      out := PutTrailer(out, kind, format);
      Assembled(txbuf[..], t2, t1, t0, [DLE, format], body, Trailer(kind, format));
      wire := txbuf[..out];
    }

    /** Three writes one behind the other. */
    static lemma Assembled(now: seq<byte>, t2: seq<byte>, t1: seq<byte>, t0: seq<byte>,
        a: seq<byte>, b: seq<byte>, c: seq<byte>)
      requires Wrote(t1, t0, 0, a) && Wrote(t2, t1, |a|, b) && Wrote(now, t2, |a| + |b|, c)
      ensures |a| + |b| + |c| <= |now| && now[..|a| + |b| + |c|] == a + b + c
    {
      WroteSlice(t1, t0, 0, a, 0);
      WroteSlice(t2, t1, |a|, b, 0);
      WroteSlice(now, t2, |a| + |b|, c, 0);
      hide Wrote;
      assert t0[0..0] == [] && [] + a == a;
      assert t1[..|a|] == a && t2[..|a| + |b|] == a + b;
    }

    /** The loop over the prefix string. */
    method SendPrefix() returns (w: seq<byte>)
      ensures w == PrefixSent(txpktprefix)
    {
      w := [];
      var i := 0;
      while i < |txpktprefix|
        invariant 0 <= i <= |txpktprefix| && w == PrefixSent(txpktprefix[..i])
      {
        var c := txpktprefix[i];
        assert txpktprefix[..i + 1][..i] == txpktprefix[..i];
        if c == 223 {
          w := w + [0];
        } else if c != 221 && c != 222 {
          w := w + [c];
        }
        i := i + 1;
      }
      assert txpktprefix[..i] == txpktprefix;
    }

    /** txpkt: the bytes handed to the line are the encoding of the payload that
        was in the buffer, although the buffer is overwritten on the way. */
    method TxPkt(length: nat, kind: byte) returns (wire: seq<byte>)
      requires Valid() && length <= MAXBLKLEN + OVERHEAD
      modifies txbuf, this`txlastc
      ensures Valid()
      ensures var total := length + if UsesCrc32(Format(kind, txoptions), txoptions) then 5 else 3;
              wire == PrefixSent(txpktprefix) +
                      Wire(old(txbuf[TXBUFIN..TXBUFIN + length]), kind, txoptions, old(txbuf[TXBUFIN + total]))
      ensures |wire| <= |PrefixSent(txpktprefix)| + MAXPKTLEN
    {
      hide Framed, Body, Trailer, Wire, PrefixSent;
      var format := Format(kind, txoptions);
      FormatIsOne(kind, txoptions);
      hide Format;
      var crc32 := UsesCrc32(format, txoptions);
      ghost var payload := txbuf[TXBUFIN..TXBUFIN + length];
      var len := Frame(length, kind, crc32);
      ghost var stale := txbuf[TXBUFIN + len];
      var block := Encode(len, kind, format);
      WireParts(block, payload, kind, txoptions, stale);
      var prefix := SendPrefix();
      wire := prefix + block;
    }

    static lemma FormatIsOne(kind: byte, o: Options)
      ensures var f := Format(kind, o); f == HEXPKT || f == BINPKT || f == ASCPKT || f == UUEPKT
      ensures Format(kind, o) == HEXPKT ==> !UsesCrc32(Format(kind, o), o)
    {
    }

    static lemma TrailerShape(kind: byte, format: byte)
      ensures |Trailer(kind, format)| <= 4
    {
    }

    static lemma WireParts(w: seq<byte>, payload: seq<byte>, kind: byte, o: Options, stale: byte)
      requires var f := Format(kind, o);
               w == [DLE, f] + Body(Framed(payload, kind, UsesCrc32(f, o)), f, o, stale) + Trailer(kind, f)
      ensures w == Wire(payload, kind, o, stale)
    {
    }

    static lemma EncodedAll(s: seq<byte>, last: byte, o: Options)
      ensures EncHex(s[|s|..]) == []
      ensures EncBin(s[|s|..], last, o) == []
      ensures EncBin([], last, o) == []
    {
    }
  }
}
