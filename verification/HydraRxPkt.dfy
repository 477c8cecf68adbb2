/** The receive side of the packet codec: rxpkt takes the bytes that are there,
    stores them, and decodes a finished packet inside the buffer it came in. */
module HydraRxPkt {
  import opened Crc
  import opened Hex
  import opened HydraOptions
  import opened Maybe
  import opened HydraCodec

  /** The buffer after `done` has been written over its start. */
  ghost predicate Over(now: seq<byte>, before: seq<byte>, done: seq<byte>) {
    && |now| == |before|
    && |done| <= |now|
    && now == done + before[|done|..]
  }

  lemma OverNothing(a: seq<byte>)
    ensures Over(a, a, [])
  {
    assert a == [] + a[0..];
  }

  lemma OverMore(before: seq<byte>, a: seq<byte>, b: seq<byte>, done: seq<byte>, x: byte)
    requires Over(a, before, done) && |done| < |before| && b == a[|done| := x]
    ensures Over(b, before, done + [x])
  {
  }

  lemma OverAt(now: seq<byte>, before: seq<byte>, done: seq<byte>, k: nat)
    requires Over(now, before, done) && |done| <= k < |now|
    ensures now[k] == before[k]
  {
  }

  lemma OverDone(now: seq<byte>, before: seq<byte>, done: seq<byte>)
    requires Over(now, before, done)
    ensures now == Overwrite(before, done) && now[..|done|] == done
  {
  }

  /** `done` has been decoded of `all`; the next bytes come out. */
  lemma DecodedMore(all: Decoded, now: Decoded, next: Decoded, done: seq<byte>, x: seq<byte>)
    requires all == now.Prefixed(done) && now == next.Prefixed(x)
    ensures all == next.Prefixed(done + x)
  {
    assert done + (x + next.out) == done + x + next.out;
  }

  lemma DecodedNothing(d: Decoded)
    ensures d.Prefixed([]) == d
  {
    assert [] + d.out == d.out;
  }

  lemma DecodedAll(all: Decoded, last: Decoded, done: seq<byte>)
    requires all == last.Prefixed(done) && last.out == []
    ensures all == Decoded(done, last.p, last.ok)
  {
    assert done + [] == done;
  }

  /** One turn of the hexadecimal decoder: the byte it yields and the characters
      it takes, or None for a bad digit. */
  function HexTurn(buf: seq<byte>, p: nat): Option<(byte, nat)>
    requires p + 2 < |buf|
  {
    if buf[p] != BACKSLASH then Some((buf[p], 1))
    else if buf[p + 1] == BACKSLASH then Some((BACKSLASH, 2))
    else
      var (i, n) := (Digit(buf[p + 1]), Digit(buf[p + 2]));
      if i == BAD_DIGIT || n == BAD_DIGIT then None else Some(((i << 4) | n, 3))
  }

  lemma HexNext(buf: seq<byte>, p: nat, end: nat)
    requires p < end && end + 2 <= |buf|
    ensures match HexTurn(buf, p)
            case None => DecHex(buf, p, end) == Decoded([], p + 2, p + 2 <= end)
            case Some((x, step)) => 1 <= step <= 3 && DecHex(buf, p, end) == DecHex(buf, p + step, end).Prefixed([x])
  {
    hide Digit;
  }

  lemma HexEnd(buf: seq<byte>, p: nat, end: nat)
    requires end <= p && end + 2 <= |buf|
    ensures DecHex(buf, p, end) == Decoded([], p, p == end)
  {
  }

  /** The three bytes of the group at `p`. */
  function Eights(buf: seq<byte>, p: nat): seq<byte>
    requires p + 4 <= |buf|
  {
    [Eight1(buf[p], buf[p + 1]), Eight2(buf[p + 1], buf[p + 2]), Eight3(buf[p + 2], buf[p + 3])]
  }

  lemma UueNext(buf: seq<byte>, p: nat, n: nat)
    requires p + n <= |buf|
    ensures n < 4 ==> DecUue(buf, p, n) == DecUueTail(buf, p, n)
    ensures n >= 4 && (BadUu(buf[p]) || BadUu(buf[p + 1]) || BadUu(buf[p + 2])) ==>
            DecUue(buf, p, n) == Decoded(DecUueTail(buf, p, n).out, p, false)
    ensures n >= 4 && !(BadUu(buf[p]) || BadUu(buf[p + 1]) || BadUu(buf[p + 2])) ==>
            DecUue(buf, p, n) == DecUue(buf, p + 4, n - 4).Prefixed(Eights(buf, p))
    ensures DecUueTail(buf, p, n).p == p
  {
    hide BadUu, Eight1, Eight2, Eight3;
  }

  class Receiver {
    const rxbuf: array<byte>
    const tables: Tables
    var rxoptions: Options
    var rxdle: nat
    var rxpktformat: byte
    /** None is the null pointer. */
    var rxbufptr: Option<nat>
    var rxpktlen: nat

    ghost predicate Valid()
      reads this, rxbuf, tables, tables.tab16, tables.tab32
    {
      && rxbuf.Length == BUFLEN
      && tables.Valid()
      && (rxbufptr.Some? ==> rxbufptr.value <= BUFLEN)
    }

    ghost function State(): Rx
      reads this, rxbuf
    {
      Rx(rxdle, rxpktformat, rxbuf[..], rxbufptr)
    }

    /** A packet that is returned is at the start of the buffer, its type behind it. */
    ghost predicate Delivered(event: Event)
      reads this, rxbuf
    {
      event.Packet? ==>
        && rxpktlen < rxbuf.Length
        && rxbuf[..rxpktlen] == event.payload
        && rxbuf[rxpktlen] == event.kind
    }

    constructor ()
      ensures Valid() && fresh(rxbuf) && fresh(tables)
      ensures rxoptions == RX_INITIAL && rxdle == 0 && rxbufptr == None
    {
      rxbuf := new byte[BUFLEN];
      tables := new Tables();
      rxoptions := RX_INITIAL;
      rxdle := 0;
      rxpktformat := 0;
      rxbufptr := None;
      rxpktlen := 0;
    }

    method Put(q: nat, x: byte, ghost before: seq<byte>, ghost done: seq<byte>)
      requires q == |done| < rxbuf.Length && Over(rxbuf[..], before, done)
      modifies rxbuf
      ensures Over(rxbuf[..], before, done + [x])
    {
      ghost var a := rxbuf[..];
      rxbuf[q] := x;
      OverMore(before, a, rxbuf[..], done, x);
    }

    /** The three branches of one turn, on the buffer as it is now. */
    method HexStep(p: nat) returns (ok: bool, x: byte, step: nat)
      requires p + 2 < rxbuf.Length
      ensures ok == HexTurn(rxbuf[..], p).Some?
      ensures ok ==> HexTurn(rxbuf[..], p) == Some((x, step))
    {
      hide Digit;
      ok, x, step := true, rxbuf[p], 1;
      if x == BACKSLASH {
        step := 2;
        if rxbuf[p + 1] != BACKSLASH {
          step := 3;
          var i, n := Digit(rxbuf[p + 1]), Digit(rxbuf[p + 2]);
          ok, x := !(i == BAD_DIGIT || n == BAD_DIGIT), (i << 4) | n;
        }
      }
    }

    lemma SameTurn(before: seq<byte>, done: seq<byte>, p: nat)
      requires Over(rxbuf[..], before, done) && |done| <= p && p + 2 < rxbuf.Length
      ensures HexTurn(rxbuf[..], p) == HexTurn(before, p)
    {
      OverAt(rxbuf[..], before, done, p);
      OverAt(rxbuf[..], before, done, p + 1);
      OverAt(rxbuf[..], before, done, p + 2);
    }

    method DecodeHex(end: nat) returns (q: nat, p: nat, ok: bool)
      requires end + 2 <= rxbuf.Length
      modifies rxbuf
      ensures var d := DecHex(old(rxbuf[..]), 0, end);
              q == |d.out| && p == d.p && ok == d.ok && Over(rxbuf[..], old(rxbuf[..]), d.out)
    {
      hide Over, DecHex, HexTurn;
      ghost var before := rxbuf[..];
      ghost var all := DecHex(before, 0, end);
      ghost var done: seq<byte> := [];
      OverNothing(before);
      DecodedNothing(all);
      p, q := 0, 0;
      while p < end
        invariant q == |done| <= p <= end + 2
        invariant all == DecHex(before, p, end).Prefixed(done)
        invariant Over(rxbuf[..], before, done)
        decreases end + 2 - p
      {
        SameTurn(before, done, p);
        HexNext(before, p, end);
        var good, x, step := HexStep(p);
        if !good {
          p := p + 2;
          DecodedAll(all, Decoded([], p, p <= end), done);
          return q, p, p <= end;
        }
        DecodedMore(all, DecHex(before, p, end), DecHex(before, p + step, end), done, [x]);
        Put(q, x, before, done);
        done := done + [x];
        q := q + 1;
        p := p + step;
      }
      HexEnd(before, p, end);
      DecodedAll(all, DecHex(before, p, end), done);
      ok := p == end;
    }

    method DecodeAsc(end: nat) returns (q: nat)
      requires end <= rxbuf.Length
      modifies rxbuf
      ensures var x := Unpack7(old(rxbuf[..end]), 0, 0); q == |x| && Over(rxbuf[..], old(rxbuf[..]), x)
    {
      hide Over, Unpack7, Joined, Low8, Rest8, Strip;
      ghost var before := rxbuf[..];
      ghost var s := rxbuf[..end];
      ghost var done: seq<byte> := [];
      OverNothing(before);
      assert s[0..] == s && [] + Unpack7(s, 0, 0) == Unpack7(s, 0, 0);
      var n, i: bv16, p := 0, 0, 0;
      q := 0;
      while p < end
        invariant q == |done| <= p <= end && n < 8
        invariant Unpack7(s, 0, 0) == done + Unpack7(s[p..], n, i)
        invariant Over(rxbuf[..], before, done)
      {
        OverAt(rxbuf[..], before, done, p);
        NextUnpack7(done, s, p, n, i);
        i := Joined(i, Strip(rxbuf[p]), n);
        p := p + 1;
        n := n + 7;
        if n >= 8 {
          Put(q, Low8(i), before, done);
          done := done + [Low8(i)];
          q := q + 1;
          i := Rest8(i);
          n := n - 8;
        }
      }
      LastUnpack7(s, n, i);
      assert done + [] == done;
    }

    static lemma NextUnpack7(done: seq<byte>, s: seq<byte>, p: nat, n: nat, i: bv16)
      requires p < |s| && n < 8
      ensures var v := Joined(i, Strip(s[p]), n);
              done + Unpack7(s[p..], n, i) ==
              if n + 7 >= 8 then done + [Low8(v)] + Unpack7(s[p + 1..], n - 1, Rest8(v))
              else done + Unpack7(s[p + 1..], n + 7, v)
    {
      hide Joined, Low8, Rest8, Strip;
      assert s[p..][1..] == s[p + 1..];
    }

    static lemma LastUnpack7(s: seq<byte>, n: nat, i: bv16)
      requires n < 8
      ensures Unpack7(s[|s|..], n, i) == []
    {
    }

    /** Three bytes out of four good characters. */
    method PutEights(p: nat, q: nat, ghost before: seq<byte>, ghost done: seq<byte>) returns (ghost done': seq<byte>)
      requires q == |done| <= p && p + 4 <= rxbuf.Length && Over(rxbuf[..], before, done)
      modifies rxbuf
      ensures |done'| == q + 3 && done' == done + Eights(before, p)
      ensures Over(rxbuf[..], before, done')
    {
      hide Over, Eight1, Eight2, Eight3;
      OverAt(rxbuf[..], before, done, p);
      OverAt(rxbuf[..], before, done, p + 1);
      var x := Eight1(rxbuf[p], rxbuf[p + 1]);
      Put(q, x, before, done);
      done' := done + [x];
      OverAt(rxbuf[..], before, done', p + 1);
      OverAt(rxbuf[..], before, done', p + 2);
      var y := Eight2(rxbuf[p + 1], rxbuf[p + 2]);
      Put(q + 1, y, before, done');
      done' := done' + [y];
      OverAt(rxbuf[..], before, done', p + 2);
      OverAt(rxbuf[..], before, done', p + 3);
      var z := Eight3(rxbuf[p + 2], rxbuf[p + 3]);
      Put(q + 2, z, before, done');
      done' := done' + [z];
    }

    method DecodeUueTail(p: nat, n: nat, q: nat, ghost before: seq<byte>, ghost done: seq<byte>)
      returns (q': nat, ok: bool, ghost done': seq<byte>)
      requires q == |done| <= p && p + n <= rxbuf.Length && Over(rxbuf[..], before, done)
      modifies rxbuf
      ensures var d := DecUueTail(before, p, n); done' == done + d.out && ok == d.ok
      ensures q' == |done'| && Over(rxbuf[..], before, done')
    {
      hide Over, Eight1, Eight2, BadUu;
      q', ok, done' := q, true, done;
      if n >= 2 {
        OverAt(rxbuf[..], before, done, p);
        OverAt(rxbuf[..], before, done, p + 1);
        if BadUu(rxbuf[p]) {
          ok := false;
          return;
        }
        var x := Eight1(rxbuf[p], rxbuf[p + 1]);
        Put(q, x, before, done);
        done' := done' + [x];
        q' := q' + 1;
        if n == 3 {
          OverAt(rxbuf[..], before, done', p + 1);
          OverAt(rxbuf[..], before, done', p + 2);
          var y := Eight2(rxbuf[p + 1], rxbuf[p + 2]);
          Put(q', y, before, done');
          done' := done' + [y];
          q' := q' + 1;
        }
      }
    }

    method DecodeUue(end: nat) returns (q: nat, p: nat, ok: bool)
      requires end <= rxbuf.Length
      modifies rxbuf
      ensures var d := DecUue(old(rxbuf[..]), 0, end);
              q == |d.out| && p == d.p && ok == d.ok && Over(rxbuf[..], old(rxbuf[..]), d.out)
    {
      hide Over, BadUu, DecUueTail, DecUue, Eights;
      ghost var before := rxbuf[..];
      ghost var all := DecUue(before, 0, end);
      ghost var done: seq<byte> := [];
      OverNothing(before);
      DecodedNothing(all);
      var n := end;
      p, q, ok := 0, 0, true;
      while n >= 4
        invariant q == |done| <= p && p + n == end && ok
        invariant all == DecUue(before, p, n).Prefixed(done)
        invariant Over(rxbuf[..], before, done)
      {
        OverAt(rxbuf[..], before, done, p);
        OverAt(rxbuf[..], before, done, p + 1);
        OverAt(rxbuf[..], before, done, p + 2);
        UueNext(before, p, n);
        if BadUu(rxbuf[p]) || BadUu(rxbuf[p + 1]) || BadUu(rxbuf[p + 2]) {
          ok := false;
          break;
        }
        DecodedMore(all, DecUue(before, p, n), DecUue(before, p + 4, n - 4), done, Eights(before, p));
        done := PutEights(p, q, before, done);
        q := q + 3;
        p := p + 4;
        n := n - 4;
      }
      UueNext(before, p, n);
      assert DecUue(before, p, n) == Decoded(DecUueTail(before, p, n).out, p, ok && DecUueTail(before, p, n).ok);
      var good;
      q, good, done := DecodeUueTail(p, n, q, before, done);
      ok := ok && good;
    }

    /** The length limits and the residue test; the type byte is behind the payload. */
    method Check(q: nat) returns (event: Event)
      requires Valid() && q <= BUFLEN
      modifies this`rxpktlen
      ensures event == Checked(rxbuf[..q], UsesCrc32(rxpktformat, rxoptions))
      ensures Delivered(event)
    {
      hide Crc16, Crc32;
      rxpktlen := q;
      var good;
      if rxpktformat != HEXPKT && rxoptions.crc32 {
        if rxpktlen < 5 || rxpktlen > BUFLEN {
          return Quiet;
        }
        var crc := tables.Block32(rxbuf[..rxpktlen]);
        good := crc == RESIDUE32;
        rxpktlen := rxpktlen - 4;
      } else {
        if rxpktlen < 3 || rxpktlen > BUFLEN {
          return Quiet;
        }
        var crc := tables.Block16(rxbuf[..rxpktlen]);
        good := crc == RESIDUE16;
        rxpktlen := rxpktlen - 2;
      }
      rxpktlen := rxpktlen - 1;
      event := if good then Packet(rxbuf[..rxpktlen], rxbuf[rxpktlen]) else Quiet;
      assert rxbuf[..q][..rxpktlen] == rxbuf[..rxpktlen];
    }

    /** The switch over the packet formats: decode inside the buffer. */
    method DecodeInPlace(end: nat) returns (q: nat, p: nat, ok: bool)
      requires end + 2 <= rxbuf.Length
      modifies rxbuf
      ensures var d := Decode(rxpktformat, old(rxbuf[..]), end);
              q == |d.out| && q <= rxbuf.Length && p == d.p && ok == d.ok && Over(rxbuf[..], old(rxbuf[..]), d.out)
    {
      hide DecHex, DecUue, Unpack7;
      ghost var before := rxbuf[..];
      if rxpktformat == BINPKT {
        q, p, ok := end, end, true;
        assert before == before[..end] + before[end..];
      } else if rxpktformat == HEXPKT {
        q, p, ok := DecodeHex(end);
      } else if rxpktformat == ASCPKT {
        q := DecodeAsc(end);
        p, ok := end, true;
      } else if rxpktformat == UUEPKT {
        q, p, ok := DecodeUue(end);
      } else {
        q, p, ok := 0, end, false;
        OverNothing(before);
      }
    }

    /** DLE PKTEND. */
    method PktEnd(p: Option<nat>) returns (p': Option<nat>, event: Event)
      requires Valid() && (p.Some? ==> p.value <= BUFLEN)
      modifies this`rxbufptr, this`rxpktlen, rxbuf
      ensures Valid() && rxbufptr == None && (p'.Some? ==> p'.value <= BUFLEN)
      ensures Finish(old(State()).(p := p), rxoptions) == (State().(p := p'), event)
      ensures Delivered(event)
    {
      hide Decode, Checked, UsesCrc32, Tables.Valid;
      rxbufptr := None;
      event := Quiet;
      match p {
        case None =>
          p' := if rxpktformat == HEXPKT || rxpktformat == ASCPKT || rxpktformat == UUEPKT then Some(0) else None;
        case Some(end) =>
          if end + 2 > BUFLEN {
            p' := None;
          } else {
            ghost var before := rxbuf[..];
            ghost var d := Decode(rxpktformat, before, end);
            DecodeBounds(rxpktformat, before, end);
            var q, stop, ok := DecodeInPlace(end);
            OverDone(rxbuf[..], before, d.out);
            if ok {
              event := Check(q);
            }
            CheckedShape(d.out, UsesCrc32(rxpktformat, rxoptions));
            p' := if event == Quiet then Some(stop) else None;
          }
      }
    }

    static lemma CheckedShape(block: seq<byte>, crc32: bool)
      ensures Checked(block, crc32) != Quiet ==> Checked(block, crc32).Packet?
    {
    }

    /** A DLE, or a character behind one. */
    method TakeEscaped(c: byte, p: Option<nat>) returns (p': Option<nat>, event: Event)
      requires Valid() && (p.Some? ==> p.value <= BUFLEN)
      modifies this`rxdle, this`rxpktformat, this`rxbufptr, this`rxpktlen, rxbuf
      ensures Valid() && (p'.Some? ==> p'.value <= BUFLEN)
      ensures RxEscaped(old(State()).(p := p), c, rxoptions) == (State().(p := p'), event)
      ensures Delivered(event) && (event.Packet? ==> rxbufptr == None)
    {
      hide Finish, Flip, Store, Tables.Valid;
      p', event := p, Quiet;
      if c == DLE {
        rxdle := rxdle + 1;
        if rxdle >= 5 {
          event := Cancel;
        }
      } else if c == PKTEND {
        p', event := PktEnd(p);
      } else if c == BINPKT || c == HEXPKT || c == ASCPKT || c == UUEPKT {
        rxpktformat := c;
        rxbufptr := Some(0);
        p' := rxbufptr;
        rxdle := 0;
      } else {
        p' := StoreChar(p, Flip(c));
        rxdle := 0;
      }
    }

    /** The body of the loop: one character. */
    method Take(raw: byte, p: Option<nat>) returns (p': Option<nat>, event: Event)
      requires Valid() && (p.Some? ==> p.value <= BUFLEN)
      modifies this`rxdle, this`rxpktformat, this`rxbufptr, this`rxpktlen, rxbuf
      ensures Valid() && (p'.Some? ==> p'.value <= BUFLEN)
      ensures RxByte(old(State()).(p := p), raw, rxoptions) == (State().(p := p'), event)
      ensures Delivered(event) && (event.Packet? ==> rxbufptr == None)
    {
      hide RxEscaped, Dropped, Strip, Store, Tables.Valid;
      p', event := p, Quiet;
      var c := if rxoptions.highbit then Strip(raw) else raw;
      if Dropped(c, rxoptions) {
        return;
      }
      if rxdle > 0 || c == DLE {
        p', event := TakeEscaped(c, p);
      } else {
        p' := StoreChar(p, c);
      }
    }

    method StoreChar(p: Option<nat>, c: byte) returns (p': Option<nat>)
      requires Valid() && (p.Some? ==> p.value <= BUFLEN)
      modifies rxbuf
      ensures Valid() && (p'.Some? ==> p'.value <= BUFLEN)
      ensures Store(old(State()).(p := p), c) == State().(p := p')
    {
      p' := p;
      if p.Some? {
        if p.value < MAXPKTLEN {
          rxbuf[p.value] := c;
          p' := Some(p.value + 1);
        } else {
          p' := None;
        }
      }
    }

    /** rxpkt on the characters that are available: it stops at the first packet
        or cancel sequence, and what it has done is what the automaton does. */
    method RxPkt(input: seq<byte>) returns (used: nat, event: Event)
      requires Valid()
      modifies this`rxdle, this`rxpktformat, this`rxbufptr, this`rxpktlen, rxbuf
      ensures Valid() && used <= |input| && (event == Quiet ==> used == |input|)
      ensures var (st, es) := Feed(old(State()), input[..used], rxoptions);
              && es == (if event == Quiet then [] else [event])
              && (if event == Cancel then State().(p := st.p) == st else State() == st)
      ensures Delivered(event)
    {
      hide RxByte, Feed;
      ghost var st0 := State();
      var p := rxbufptr;
      used, event := 0, Quiet;
      FeedNothing(st0, rxoptions);
      assert State().(p := p) == st0 && input[..0] == [];
      while used < |input|
        invariant Valid() && used <= |input| && event == Quiet && (p.Some? ==> p.value <= BUFLEN)
        invariant Feed(st0, input[..used], rxoptions) == (State().(p := p), [])
      {
        ghost var now := State().(p := p);
        var raw := input[used];
        assert input[..used + 1] == input[..used] + [raw];
        p, event := Take(raw, p);
        FeedSnoc(st0, input[..used], raw, rxoptions, now, State().(p := p), event);
        used := used + 1;
        if event != Quiet {
          if event.Packet? {
            PacketClears(now, raw, rxoptions);
          }
          return;
        }
      }
      rxbufptr := p;
      assert input[..used] == input;
    }

    static lemma FeedNothing(st: Rx, o: Options)
      requires ValidRx(st)
      ensures Feed(st, [], o) == (st, [])
    {
    }

    static lemma PacketClears(st: Rx, raw: byte, o: Options)
      requires ValidRx(st) && RxByte(st, raw, o).1.Packet?
      ensures RxByte(st, raw, o).0.p == None
    {
      hide Decode, Checked;
    }

    static lemma FeedSnoc(st: Rx, s: seq<byte>, c: byte, o: Options, mid: Rx, end: Rx, e: Event)
      requires ValidRx(st) && Feed(st, s, o) == (mid, []) && ValidRx(mid) && RxByte(mid, c, o) == (end, e)
      ensures Feed(st, s + [c], o) == (end, if e == Quiet then [] else [e])
    {
      hide RxByte;
      FeedAppend(st, s, [c], o);
      RxByteValid(mid, c, o);
      assert [c][1..] == [] && Feed(end, [], o) == (end, []);
      assert [e] + [] == [e] && [] + Feed(mid, [c], o).1 == Feed(mid, [c], o).1;
    }
  }
}
