/** What txpkt sends, rxpkt delivers: every packet, in all four formats, however
    the bytes are split over calls. */
module HydraRoundTrip {
  import opened Crc
  import opened Hex
  import opened HydraOptions
  import opened Maybe
  import opened HydraCodec

  // ----- the encoders only emit characters the link lets through ----------------

  /** Hexadecimal content after the control characters are restored. */
  function HexRaw(s: seq<byte>): seq<byte> {
    if s == [] then [] else Raw(s[0]) + HexRaw(s[1..])
  }

  function Raw(b: byte): seq<byte> {
    if b & 0x80 != 0 then [BACKSLASH, HighDigit(b), LowDigit(b)]
    else if b == BACKSLASH then [BACKSLASH, BACKSLASH]
    else [b]
  }

  lemma HexChunkClean(b: byte, o: Options)
    ensures Clean(HexChunk(b), o) && Content(HexChunk(b)) == Raw(b)
  {
    if b & 0x80 != 0 {
      var (x, y) := (HighDigit(b), LowDigit(b));
      assert Plain(BACKSLASH, o) && Plain(x, o) && Plain(y, o);
      CleanThree(BACKSLASH, x, y, o);
    } else if b < 32 || b == 127 {
      assert Escaped(Flip(b), o) && Flip(Flip(b)) == b;
      CleanPair(Flip(b), o);
    } else if b == BACKSLASH {
      assert Plain(BACKSLASH, o);
      CleanOne(BACKSLASH, o);
      CleanAppend([BACKSLASH], [BACKSLASH], o);
    } else {
      assert Plain(b, o);
      CleanOne(b, o);
    }
  }

  lemma CleanOne(c: byte, o: Options)
    requires Plain(c, o)
    ensures Clean([c], o) && Content([c]) == [c]
  {
    assert [c][1..] == [];
  }

  lemma CleanPair(c: byte, o: Options)
    requires Escaped(c, o)
    ensures Clean([DLE, c], o) && Content([DLE, c]) == [Flip(c)]
  {
    assert [DLE, c][2..] == [];
  }

  lemma CleanThree(a: byte, b: byte, c: byte, o: Options)
    requires Plain(a, o) && Plain(b, o) && Plain(c, o)
    ensures Clean([a, b, c], o) && Content([a, b, c]) == [a, b, c]
  {
    CleanOne(a, o);
    CleanOne(b, o);
    CleanOne(c, o);
    CleanAppend([a], [b], o);
    CleanAppend([a] + [b], [c], o);
    assert [a, b, c] == [a] + [b] + [c];
  }

  /** Hexadecimal packets get through whatever the receiver's options are. */
  lemma {:induction false} HexClean(s: seq<byte>, o: Options)
    ensures Clean(EncHex(s), o) && Content(EncHex(s)) == HexRaw(s)
  {
    if s != [] {
      HexChunkClean(s[0], o);
      HexClean(s[1..], o);
      CleanAppend(HexChunk(s[0]), EncHex(s[1..]), o);
    }
  }

  predicate SevenBit(s: seq<byte>) { forall i | 0 <= i < |s| :: s[i] < 128 }

  lemma BinChunkClean(c: byte, last: byte, o: Options)
    requires o.highbit ==> c < 128
    ensures Clean(BinChunk(c, last, o), o) && Content(BinChunk(c, last, o)) == [c]
  {
    if MustEscape(c, last, o) {
      EscapedFits(c, last, o);
      CleanPair(Flip(c), o);
    } else {
      CleanOne(c, o);
    }
  }

  lemma EscapedFits(c: byte, last: byte, o: Options)
    requires MustEscape(c, last, o) && (o.highbit ==> c < 128)
    ensures Escaped(Flip(c), o) && Flip(Flip(c)) == c
  {
  }

  lemma {:induction false} BinClean(s: seq<byte>, last: byte, o: Options)
    requires o.highbit ==> SevenBit(s)
    ensures Clean(EncBin(s, last, o), o) && Content(EncBin(s, last, o)) == s
    decreases |s|
  {
    if s != [] {
      BinChunkClean(s[0], last, o);
      BinClean(s[1..], Tested(s[0], o), o);
      CleanAppend(BinChunk(s[0], last, o), EncBin(s[1..], Tested(s[0], o), o), o);
    }
  }

  lemma {:induction false} Pack7SevenBit(s: seq<byte>, n: nat, c: bv16)
    requires n < 7
    ensures SevenBit(Pack7(s, n, c))
    decreases |s|
  {
    hide Low7, Joined;
    Low7Small();
    if s != [] {
      var v := Joined(c, s[0], n);
      Pack7SevenBit(s[1..], if n == 6 then 0 else n + 1, if n == 6 then 0 else Rest7(v));
    }
  }

  lemma Low7Small()
    ensures forall v :: Low7(v) < 128
  {
  }

  lemma UuCharPlain(c: byte, o: Options)
    ensures Plain(UuChar(c), o) && !BadUu(UuChar(c)) && UuValue(UuChar(c)) == c & 0x3f
  {
  }

  lemma {:induction false} UueClean(s: seq<byte>, stale: byte, o: Options)
    ensures Clean(EncUue(s, stale), o) && Content(EncUue(s, stale)) == EncUue(s, stale)
    decreases |s|
  {
    hide UuChar, Plain;
    forall c {
      UuCharPlain(c, o);
    }
    var w := EncUue(s, stale);
    if |s| >= 3 {
      UueClean(s[3..], stale, o);
      CleanThree(w[0], w[1], w[2], o);
      CleanOne(w[3], o);
      CleanAppend([w[0], w[1], w[2]], [w[3]], o);
      assert w[..4] == [w[0], w[1], w[2]] + [w[3]];
      CleanAppend(w[..4], EncUue(s[3..], stale), o);
      assert w == w[..4] + EncUue(s[3..], stale);
    } else if |s| == 2 {
      CleanThree(w[0], w[1], w[2], o);
    } else if |s| == 1 {
      CleanOne(w[0], o);
      CleanOne(w[1], o);
      CleanAppend([w[0]], [w[1]], o);
      assert w == [w[0]] + [w[1]];
    }
  }

  // ----- each decoder inverts its encoder ------------------------------------------

  lemma HexDigits(b: byte)
    ensures var (i, n) := (HighDigit(b), LowDigit(b));
            && i != BACKSLASH
            && Digit(i) != BAD_DIGIT && Digit(n) != BAD_DIGIT && (Digit(i) << 4) | Digit(n) == b
  {
  }

  /** The part of the buffer that holds `a + b`. */
  lemma Window(buf: seq<byte>, p: nat, end: nat, a: seq<byte>, b: seq<byte>)
    requires p <= end <= |buf| && buf[p..end] == a + b
    ensures p + |a| + |b| == end && buf[p + |a|..end] == b
    ensures forall i | 0 <= i < |a| :: buf[p + i] == a[i]
  {
    assert (a + b)[|a|..] == b && buf[p..end][|a|..] == buf[p + |a|..end];
    assert forall i | 0 <= i < |a| :: buf[p + i] == buf[p..end][i] == (a + b)[i];
  }

  lemma HexChunkDecodes(buf: seq<byte>, p: nat, end: nat, b: byte)
    requires p + |Raw(b)| <= end && end + 2 <= |buf|
    requires forall i | 0 <= i < |Raw(b)| :: buf[p + i] == Raw(b)[i]
    ensures DecHex(buf, p, end) == DecHex(buf, p + |Raw(b)|, end).Prefixed([b])
  {
    hide HighDigit, LowDigit, Digit;
    HexDigits(b);
    assert forall i | 0 <= i < |Raw(b)| :: buf[p + i] == Raw(b)[i];
    assert buf[p] == Raw(b)[0];
    if |Raw(b)| > 1 {
      assert buf[p + 1] == Raw(b)[1];
    }
    if |Raw(b)| > 2 {
      assert buf[p + 2] == Raw(b)[2];
    }
  }

  lemma {:induction false} HexDecodes(buf: seq<byte>, p: nat, end: nat, s: seq<byte>)
    requires p <= end && end + 2 <= |buf| && buf[p..end] == HexRaw(s)
    ensures DecHex(buf, p, end) == Decoded(s, end, true)
    decreases |s|
  {
    if s != [] {
      var r := Raw(s[0]);
      assert HexRaw(s) == r + HexRaw(s[1..]);
      hide Raw, DecHex, HexRaw;
      Window(buf, p, end, r, HexRaw(s[1..]));
      HexDecodes(buf, p + |r|, end, s[1..]);
      HexChunkDecodes(buf, p, end, s[0]);
      assert s == [s[0]] + s[1..];
    }
  }

  /** The packer holds `n` bits in `c`, the unpacker the other `m` bits of the
      same byte in `i`. */
  ghost predicate Split(n: nat, c: bv16, m: nat, i: bv16) {
    match n
    case 0 => m == 0 && c == 0 && i == 0
    case 1 => m == 7 && c >> 1 == 0 && i >> 7 == 0
    case 2 => m == 6 && c >> 2 == 0 && i >> 6 == 0
    case 3 => m == 5 && c >> 3 == 0 && i >> 5 == 0
    case 4 => m == 4 && c >> 4 == 0 && i >> 4 == 0
    case 5 => m == 3 && c >> 5 == 0 && i >> 3 == 0
    case 6 => m == 2 && c >> 6 == 0 && i >> 2 == 0
    case _ => false
  }

  /** The byte they share. */
  function Shared(n: nat, c: bv16, i: bv16): byte
    requires 0 < n < 7
  {
    match n
    case 1 => ((i | (c << 7)) & 0xff) as byte
    case 2 => ((i | (c << 6)) & 0xff) as byte
    case 3 => ((i | (c << 5)) & 0xff) as byte
    case 4 => ((i | (c << 4)) & 0xff) as byte
    case 5 => ((i | (c << 3)) & 0xff) as byte
    case 6 => ((i | (c << 2)) & 0xff) as byte
  }

  lemma SplitStart(b: byte)
    ensures var v := Joined(0, b, 0);
            var w := Joined(0, Strip(Low7(v)), 0);
            Split(1, Rest7(v), 7, w) && Shared(1, Rest7(v), w) == b
  {
  }

  lemma Joined1(c: bv16, b: byte)
    ensures Joined(c, b, 1) == c | ((b as bv16) << 1)
  {
  }

  lemma Joined2(c: bv16, b: byte)
    ensures Joined(c, b, 2) == c | ((b as bv16) << 2)
  {
  }

  lemma Joined3(c: bv16, b: byte)
    ensures Joined(c, b, 3) == c | ((b as bv16) << 3)
  {
  }

  lemma Joined4(c: bv16, b: byte)
    ensures Joined(c, b, 4) == c | ((b as bv16) << 4)
  {
  }

  lemma Joined5(c: bv16, b: byte)
    ensures Joined(c, b, 5) == c | ((b as bv16) << 5)
  {
  }

  lemma Joined6(c: bv16, b: byte)
    ensures Joined(c, b, 6) == c | ((b as bv16) << 6)
  {
  }

  lemma Joined7(c: bv16, b: byte)
    ensures Joined(c, b, 7) == c | ((b as bv16) << 7)
  {
  }

  lemma Parts(v: bv16)
    ensures Strip(Low7(v)) == (v & 0x7f) as byte & 0x7f && Rest7(v) == v >> 7
    ensures Low8(v) == (v & 0xff) as byte && Rest8(v) == v >> 8
  {
  }

  lemma Bits1(b: byte, c: bv16, i: bv16, v: bv16, x: byte, w: bv16)
    requires c >> 1 == 0 && i >> 7 == 0
    requires v == c | ((b as bv16) << 1) && x == (v & 0x7f) as byte & 0x7f && w == i | ((x as bv16) << 7)
    ensures (w & 0xff) as byte == ((i | (c << 7)) & 0xff) as byte
    ensures (v >> 7) >> 2 == 0 && (w >> 8) >> 6 == 0
    ensures (((w >> 8) | ((v >> 7) << 6)) & 0xff) as byte == b
  {
  }

  lemma Bits2(b: byte, c: bv16, i: bv16, v: bv16, x: byte, w: bv16)
    requires c >> 2 == 0 && i >> 6 == 0
    requires v == c | ((b as bv16) << 2) && x == (v & 0x7f) as byte & 0x7f && w == i | ((x as bv16) << 6)
    ensures (w & 0xff) as byte == ((i | (c << 6)) & 0xff) as byte
    ensures (v >> 7) >> 3 == 0 && (w >> 8) >> 5 == 0
    ensures (((w >> 8) | ((v >> 7) << 5)) & 0xff) as byte == b
  {
  }

  lemma Bits3(b: byte, c: bv16, i: bv16, v: bv16, x: byte, w: bv16)
    requires c >> 3 == 0 && i >> 5 == 0
    requires v == c | ((b as bv16) << 3) && x == (v & 0x7f) as byte & 0x7f && w == i | ((x as bv16) << 5)
    ensures (w & 0xff) as byte == ((i | (c << 5)) & 0xff) as byte
    ensures (v >> 7) >> 4 == 0 && (w >> 8) >> 4 == 0
    ensures (((w >> 8) | ((v >> 7) << 4)) & 0xff) as byte == b
  {
  }

  lemma Bits4(b: byte, c: bv16, i: bv16, v: bv16, x: byte, w: bv16)
    requires c >> 4 == 0 && i >> 4 == 0
    requires v == c | ((b as bv16) << 4) && x == (v & 0x7f) as byte & 0x7f && w == i | ((x as bv16) << 4)
    ensures (w & 0xff) as byte == ((i | (c << 4)) & 0xff) as byte
    ensures (v >> 7) >> 5 == 0 && (w >> 8) >> 3 == 0
    ensures (((w >> 8) | ((v >> 7) << 3)) & 0xff) as byte == b
  {
  }

  lemma Bits5(b: byte, c: bv16, i: bv16, v: bv16, x: byte, w: bv16)
    requires c >> 5 == 0 && i >> 3 == 0
    requires v == c | ((b as bv16) << 5) && x == (v & 0x7f) as byte & 0x7f && w == i | ((x as bv16) << 3)
    ensures (w & 0xff) as byte == ((i | (c << 3)) & 0xff) as byte
    ensures (v >> 7) >> 6 == 0 && (w >> 8) >> 2 == 0
    ensures (((w >> 8) | ((v >> 7) << 2)) & 0xff) as byte == b
  {
  }

  lemma Bits6(b: byte, c: bv16, i: bv16, v: bv16, x: byte, w: bv16)
    requires c >> 6 == 0 && i >> 2 == 0
    requires v == c | ((b as bv16) << 6) && x == (v & 0x7f) as byte & 0x7f && w == i | ((x as bv16) << 2)
    ensures (w & 0xff) as byte == ((i | (c << 2)) & 0xff) as byte
    ensures ((w >> 8) | (((((v >> 7) & 0x7f) as byte & 0x7f) as bv16) << 1)) == b as bv16
  {
  }

  lemma SplitStep1(b: byte, c: bv16, i: bv16)
    requires Split(1, c, 7, i)
    ensures var v := Joined(c, b, 1);
            var w := Joined(i, Strip(Low7(v)), 7);
            && Low8(w) == Shared(1, c, i)
            && Split(2, Rest7(v), 6, Rest8(w)) && Shared(2, Rest7(v), Rest8(w)) == b
  {
    hide Joined, Low7, Low8, Strip, Rest7, Rest8;
    var v := Joined(c, b, 1);
    var x := Strip(Low7(v));
    var w := Joined(i, x, 7);
    Parts(v);
    Parts(w);
    Joined1(c, b);
    Joined7(i, x);
    Bits1(b, c, i, v, x, w);
  }

  lemma SplitStep2(b: byte, c: bv16, i: bv16)
    requires Split(2, c, 6, i)
    ensures var v := Joined(c, b, 2);
            var w := Joined(i, Strip(Low7(v)), 6);
            && Low8(w) == Shared(2, c, i)
            && Split(3, Rest7(v), 5, Rest8(w)) && Shared(3, Rest7(v), Rest8(w)) == b
  {
    hide Joined, Low7, Low8, Strip, Rest7, Rest8;
    var v := Joined(c, b, 2);
    var x := Strip(Low7(v));
    var w := Joined(i, x, 6);
    Parts(v);
    Parts(w);
    Joined2(c, b);
    Joined6(i, x);
    Bits2(b, c, i, v, x, w);
  }

  lemma SplitStep3(b: byte, c: bv16, i: bv16)
    requires Split(3, c, 5, i)
    ensures var v := Joined(c, b, 3);
            var w := Joined(i, Strip(Low7(v)), 5);
            && Low8(w) == Shared(3, c, i)
            && Split(4, Rest7(v), 4, Rest8(w)) && Shared(4, Rest7(v), Rest8(w)) == b
  {
    hide Joined, Low7, Low8, Strip, Rest7, Rest8;
    var v := Joined(c, b, 3);
    var x := Strip(Low7(v));
    var w := Joined(i, x, 5);
    Parts(v);
    Parts(w);
    Joined3(c, b);
    Joined5(i, x);
    Bits3(b, c, i, v, x, w);
  }

  lemma SplitStep4(b: byte, c: bv16, i: bv16)
    requires Split(4, c, 4, i)
    ensures var v := Joined(c, b, 4);
            var w := Joined(i, Strip(Low7(v)), 4);
            && Low8(w) == Shared(4, c, i)
            && Split(5, Rest7(v), 3, Rest8(w)) && Shared(5, Rest7(v), Rest8(w)) == b
  {
    hide Joined, Low7, Low8, Strip, Rest7, Rest8;
    var v := Joined(c, b, 4);
    var x := Strip(Low7(v));
    var w := Joined(i, x, 4);
    Parts(v);
    Parts(w);
    Joined4(c, b);
    Joined4(i, x);
    Bits4(b, c, i, v, x, w);
  }

  lemma SplitStep5(b: byte, c: bv16, i: bv16)
    requires Split(5, c, 3, i)
    ensures var v := Joined(c, b, 5);
            var w := Joined(i, Strip(Low7(v)), 3);
            && Low8(w) == Shared(5, c, i)
            && Split(6, Rest7(v), 2, Rest8(w)) && Shared(6, Rest7(v), Rest8(w)) == b
  {
    hide Joined, Low7, Low8, Strip, Rest7, Rest8;
    var v := Joined(c, b, 5);
    var x := Strip(Low7(v));
    var w := Joined(i, x, 3);
    Parts(v);
    Parts(w);
    Joined5(c, b);
    Joined3(i, x);
    Bits5(b, c, i, v, x, w);
  }

  lemma Byte(b: byte)
    ensures (b as bv16 & 0xff) as byte == b && b as bv16 >> 8 == 0
  {
  }

  lemma SplitFull(b: byte, c: bv16, i: bv16)
    requires Split(6, c, 2, i)
    ensures var v := Joined(c, b, 6);
            var w := Joined(i, Strip(Low7(v)), 2);
            var x := Joined(Rest8(w), Strip(Low7(Rest7(v))), 1);
            Low8(w) == Shared(6, c, i) && Low8(x) == b && Rest8(x) == 0
  {
    hide Joined, Low7, Low8, Strip, Rest7, Rest8;
    var v := Joined(c, b, 6);
    var x := Strip(Low7(v));
    var w := Joined(i, x, 2);
    Parts(v);
    Parts(w);
    Joined6(c, b);
    Joined2(i, x);
    Bits6(b, c, i, v, x, w);
    Parts(Rest7(v));
    Joined1(Rest8(w), Strip(Low7(Rest7(v))));
    Parts(b as bv16);
    Byte(b);
  }

  /** One byte packed and its group unpacked, whatever the split. */
  lemma SplitStep(b: byte, n: nat, c: bv16, i: bv16)
    requires 0 < n < 6 && Split(n, c, 8 - n, i)
    ensures var v := Joined(c, b, n);
            var w := Joined(i, Strip(Low7(v)), 8 - n);
            && Low8(w) == Shared(n, c, i)
            && Split(n + 1, Rest7(v), 7 - n, Rest8(w)) && Shared(n + 1, Rest7(v), Rest8(w)) == b
  {
    hide Joined, Low7, Low8, Strip, Rest7, Rest8, Shared, Split;
    match n {
      case 1 => SplitStep1(b, c, i);
      case 2 => SplitStep2(b, c, i);
      case 3 => SplitStep3(b, c, i);
      case 4 => SplitStep4(b, c, i);
      case 5 => SplitStep5(b, c, i);
    }
  }

  lemma SplitShape(n: nat, c: bv16, m: nat, i: bv16)
    requires Split(n, c, m, i)
    ensures n < 7 && (if n == 0 then m == 0 && c == 0 && i == 0 else m == 8 - n)
    ensures Split(0, 0, 0, 0)
  {
  }

  lemma UnpackOne(x: byte, r: seq<byte>, m: nat, i: bv16)
    requires m < 8
    ensures var w := Joined(i, Strip(x), m);
            Unpack7([x] + r, m, i) == if m == 0 then Unpack7(r, 7, w) else [Low8(w)] + Unpack7(r, m - 1, Rest8(w))
    ensures Unpack7([], m, i) == []
  {
    hide Joined, Low8, Strip, Rest8;
    assert ([x] + r)[1..] == r;
  }

  /** What unpacking must give from a split on. */
  ghost predicate Unpacks(s: seq<byte>, n: nat, c: bv16, m: nat, i: bv16)
    requires n < 7 && m < 8
  {
    Unpack7(Pack7(s, n, c), m, i) == (if n == 0 then s else [Shared(n, c, i)] + s)
  }

  lemma UnpackNone(m: nat, i: bv16)
    requires m < 8
    ensures Unpack7([], m, i) == []
  {
  }

  /** The last, unfinished group completes the shared byte. */
  lemma LastGroup(n: nat, c: bv16, i: bv16)
    requires 0 < n < 7 && Split(n, c, 8 - n, i)
    ensures Low8(Joined(i, Strip(Low7(c)), 8 - n)) == Shared(n, c, i)
  {
    hide Joined, Low7, Low8, Strip, Rest7, Rest8, Shared, Split;
    NoByte(c, n);
    if n == 6 {
      SplitFull(0, c, i);
    } else {
      SplitStep(0, n, c, i);
    }
  }

  lemma NoByte(c: bv16, n: nat)
    requires n < 8
    ensures Joined(c, 0, n) == c
  {
  }

  lemma UnpacksNothing(n: nat, c: bv16, m: nat, i: bv16)
    requires Split(n, c, m, i)
    ensures m < 8 && Unpacks([], n, c, m, i)
  {
    SplitShape(n, c, m, i);
    hide Joined, Low7, Low8, Strip, Rest7, Rest8, Shared, Split;
    if n == 0 {
      UnpackNone(m, i);
      assert Pack7([], n, c) == [];
    } else {
      assert Pack7([], n, c) == [Low7(c)] + [];
      hide Pack7, Unpack7;
      LastGroup(n, c, i);
      UnpackOne(Low7(c), [], m, i);
      UnpackNone(m - 1, Rest8(Joined(i, Strip(Low7(c)), m)));
    }
  }

  lemma PackOne(b: byte, t: seq<byte>, n: nat, c: bv16)
    requires n < 6
    ensures var v := Joined(c, b, n); Pack7([b] + t, n, c) == [Low7(v)] + Pack7(t, n + 1, Rest7(v))
  {
    hide Joined, Low7, Low8, Rest7;
    assert ([b] + t)[1..] == t;
  }

  lemma UnpacksOne(b: byte, t: seq<byte>, n: nat, c: bv16, m: nat, i: bv16)
    requires n < 6 && Split(n, c, m, i) && m < 8
    requires var v := Joined(c, b, n);
             var w := Joined(i, Strip(Low7(v)), m);
             Unpacks(t, n + 1, Rest7(v), 7 - n, if n == 0 then w else Rest8(w))
    ensures Unpacks([b] + t, n, c, m, i)
  {
    SplitShape(n, c, m, i);
    hide Joined, Low7, Low8, Strip, Rest7, Rest8, Shared, Split, Unpack7, Pack7;
    var v := Joined(c, b, n);
    PackOne(b, t, n, c);
    UnpackOne(Low7(v), Pack7(t, n + 1, Rest7(v)), m, i);
    if n == 0 {
      SplitStart(b);
    } else {
      SplitStep(b, n, c, i);
    }
  }

  lemma UnpacksFull(b: byte, t: seq<byte>, c: bv16, i: bv16)
    requires Split(6, c, 2, i) && Unpacks(t, 0, 0, 0, 0)
    ensures Unpacks([b] + t, 6, c, 2, i)
  {
    hide Joined, Low7, Low8, Strip, Rest7, Rest8, Shared, Split, Unpack7;
    var v := Joined(c, b, 6);
    var r := Pack7(t, 0, 0);
    assert ([b] + t)[1..] == t;
    assert Pack7([b] + t, 6, c) == [Low7(v)] + ([Low7(Rest7(v))] + r);
    UnpackOne(Low7(v), [Low7(Rest7(v))] + r, 2, i);
    UnpackOne(Low7(Rest7(v)), r, 1, Rest8(Joined(i, Strip(Low7(v)), 2)));
    SplitFull(b, c, i);
  }

  /** Unpacking what was packed gives the bytes back, from any split on. */
  lemma {:induction false} PackUnpack(s: seq<byte>, n: nat, c: bv16, m: nat, i: bv16)
    requires Split(n, c, m, i)
    ensures m < 8 && Unpacks(s, n, c, m, i)
    decreases |s|
  {
    SplitShape(n, c, m, i);
    hide Joined, Low7, Low8, Strip, Rest7, Rest8, Shared, Split, Unpacks;
    if s == [] {
      UnpacksNothing(n, c, m, i);
    } else {
      var (b, t) := (s[0], s[1..]);
      assert s == [b] + t;
      if n == 6 {
        PackUnpack(t, 0, 0, 0, 0);
        UnpacksFull(b, t, c, i);
      } else {
        var v := Joined(c, b, n);
        var w := Joined(i, Strip(Low7(v)), m);
        if n == 0 {
          SplitStart(b);
        } else {
          SplitStep(b, n, c, i);
        }
        PackUnpack(t, n + 1, Rest7(v), 7 - n, if n == 0 then w else Rest8(w));
        UnpacksOne(b, t, n, c, m, i);
      }
    }
  }

  lemma UuBits(a: byte, b: byte, c: byte)
    ensures Eight1(UuChar(Six1(a)), UuChar(Six2(a, b))) == a
    ensures Eight2(UuChar(Six2(a, b)), UuChar(Six3(b, c))) == b
    ensures Eight2(UuChar(Six2(a, b)), UuChar(Six3Last(b))) == b
    ensures Eight3(UuChar(Six3(b, c)), UuChar(Six4(c))) == c
  {
  }

  lemma UueOneLeft(buf: seq<byte>, p: nat, a: byte, stale: byte)
    requires p + 2 <= |buf|
    requires buf[p] == UuChar(Six1(a)) && buf[p + 1] == UuChar(Six2(a, stale))
    ensures DecUueTail(buf, p, 2) == Decoded([a], p, true)
  {
    hide UuChar, UuValue, BadUu, Six1, Six2, Six3, Six3Last, Six4, Eight1, Eight2, Eight3, Plain;
    UuBits(a, stale, 0);
    UuCharPlain(Six1(a), NONE);
  }

  lemma UueTwoLeft(buf: seq<byte>, p: nat, a: byte, b: byte)
    requires p + 3 <= |buf|
    requires buf[p] == UuChar(Six1(a)) && buf[p + 1] == UuChar(Six2(a, b)) && buf[p + 2] == UuChar(Six3Last(b))
    ensures DecUueTail(buf, p, 3) == Decoded([a, b], p, true)
  {
    hide UuChar, UuValue, BadUu, Six1, Six2, Six3, Six3Last, Six4, Eight1, Eight2, Eight3, Plain;
    UuBits(a, b, 0);
    UuCharPlain(Six1(a), NONE);
  }

  lemma UueTailDecodes(buf: seq<byte>, p: nat, s: seq<byte>, stale: byte)
    requires |s| < 3
    requires p + |EncUue(s, stale)| <= |buf| && buf[p..p + |EncUue(s, stale)|] == EncUue(s, stale)
    ensures DecUueTail(buf, p, |EncUue(s, stale)|) == Decoded(s, p, true)
  {
    hide UuChar, UuValue, BadUu, Six1, Six2, Six3, Six3Last, Six4, Eight1, Eight2, Eight3, Plain;
    var w := EncUue(s, stale);
    var t := buf[p..p + |w|];
    if |s| == 2 {
      assert w == [UuChar(Six1(s[0])), UuChar(Six2(s[0], s[1])), UuChar(Six3Last(s[1]))];
      hide EncUue;
      assert buf[p] == t[0] && buf[p + 1] == t[1] && buf[p + 2] == t[2] && s == [s[0], s[1]];
      UueTwoLeft(buf, p, s[0], s[1]);
    } else if |s| == 1 {
      assert w == [UuChar(Six1(s[0])), UuChar(Six2(s[0], stale))];
      hide EncUue;
      assert buf[p] == t[0] && buf[p + 1] == t[1] && s == [s[0]];
      UueOneLeft(buf, p, s[0], stale);
    } else {
      assert s == [];
    }
  }

  lemma UueChunkDecodes(buf: seq<byte>, p: nat, n: nat, a: byte, b: byte, c: byte)
    requires 4 <= n && p + n <= |buf|
    requires buf[p] == UuChar(Six1(a)) && buf[p + 1] == UuChar(Six2(a, b))
    requires buf[p + 2] == UuChar(Six3(b, c)) && buf[p + 3] == UuChar(Six4(c))
    ensures DecUue(buf, p, n) == DecUue(buf, p + 4, n - 4).Prefixed([a, b, c])
  {
    hide UuChar, UuValue, BadUu, Six1, Six2, Six3, Six3Last, Six4, Eight1, Eight2, Eight3, Plain, DecUueTail;
    UuBits(a, b, c);
    UuCharPlain(Six1(a), NONE);
    UuCharPlain(Six2(a, b), NONE);
    UuCharPlain(Six3(b, c), NONE);
  }

  /** Whatever the stale byte was, the decoder never sees it. */
  lemma {:induction false} UueDecodes(buf: seq<byte>, p: nat, s: seq<byte>, stale: byte)
    requires p + |EncUue(s, stale)| <= |buf| && buf[p..p + |EncUue(s, stale)|] == EncUue(s, stale)
    ensures DecUue(buf, p, |EncUue(s, stale)|).out == s && DecUue(buf, p, |EncUue(s, stale)|).ok
    decreases |s|
  {
    hide UuChar, Six1, Six2, Six3, Six3Last, Six4, DecUue, DecUueTail;
    var w := EncUue(s, stale);
    if |s| < 3 {
      assert |w| < 4;
      hide EncUue;
      UueTailDecodes(buf, p, s, stale);
      UueShort(buf, p, |w|);
    } else {
      var r := [UuChar(Six1(s[0])), UuChar(Six2(s[0], s[1])), UuChar(Six3(s[1], s[2])), UuChar(Six4(s[2]))];
      hide EncUue;
      UueLong(s, stale);
      Window(buf, p, p + |w|, r, EncUue(s[3..], stale));
      assert buf[p + 0] == r[0] && buf[p + 1] == r[1] && buf[p + 2] == r[2] && buf[p + 3] == r[3];
      UueChunkDecodes(buf, p, |w|, s[0], s[1], s[2]);
      UueDecodes(buf, p + 4, s[3..], stale);
      assert s == [s[0], s[1], s[2]] + s[3..];
    }
  }

  lemma UueLong(s: seq<byte>, stale: byte)
    requires |s| >= 3
    ensures EncUue(s, stale) ==
            [UuChar(Six1(s[0])), UuChar(Six2(s[0], s[1])), UuChar(Six3(s[1], s[2])), UuChar(Six4(s[2]))] +
            EncUue(s[3..], stale)
  {
    hide UuChar, Six1, Six2, Six3, Six3Last, Six4;
  }

  lemma UueShort(buf: seq<byte>, p: nat, n: nat)
    requires n < 4 && p + n <= |buf|
    ensures DecUue(buf, p, n) == DecUueTail(buf, p, n)
  {
  }

  // ----- a whole packet --------------------------------------------------------------

  /** What is in the receive buffer when the end of the packet arrives. */
  function Arrived(s: seq<byte>, format: byte, stale: byte): seq<byte> {
    if format == HEXPKT then HexRaw(s)
    else if format == BINPKT then s
    else if format == ASCPKT then Pack7(s, 0, 0)
    else EncUue(s, stale)
  }

  lemma {:induction false} ArrivedLength(s: seq<byte>, n: nat, c: bv16, stale: byte)
    requires n < 7
    ensures |HexRaw(s)| <= 3 * |s| && |Pack7(s, n, c)| <= 2 * |s| + (if n > 0 then 1 else 0)
            && |EncUue(s, stale)| <= 2 * |s|
    decreases |s|
  {
    hide Joined, Rest7, Low7;
    if s != [] {
      ArrivedLength(s[1..], if n == 6 then 0 else n + 1, if n == 6 then 0 else Rest7(Joined(c, s[0], n)), stale);
    }
    if |s| >= 3 {
      ArrivedLength(s[3..], 0, 0, stale);
    }
  }

  lemma BodyClean(s: seq<byte>, kind: byte, tx: Options, rx: Options, stale: byte)
    requires tx == rx || AlwaysHex(kind)
    ensures var format := Format(kind, tx);
            && Clean(Body(s, format, tx, stale), rx)
            && Content(Body(s, format, tx, stale)) == Arrived(s, format, stale)
            && |Arrived(s, format, stale)| <= 3 * |s|
  {
    hide Clean, Content, EncHex, EncBin, EncUue, HexRaw, Pack7;
    ArrivedLength(s, 0, 0, stale);
    var format := Format(kind, tx);
    if format == HEXPKT {
      HexClean(s, rx);
    } else if format == BINPKT {
      BinClean(s, 0, rx);
    } else if format == ASCPKT {
      Pack7SevenBit(s, 0, 0);
      BinClean(Pack7(s, 0, 0), 0, rx);
    } else {
      UueClean(s, stale, rx);
    }
  }

  lemma BodyDecodes(s: seq<byte>, kind: byte, o: Options, stale: byte, buf: seq<byte>)
    requires var x := Arrived(s, Format(kind, o), stale);
             |x| + 2 <= |buf| && buf[..|x|] == x
    ensures var d := Decode(Format(kind, o), buf, |Arrived(s, Format(kind, o), stale)|);
            d.out == s && d.ok
  {
    hide DecHex, DecUue, EncUue, HexRaw, Pack7, Unpack7;
    var format := Format(kind, o);
    var x := Arrived(s, format, stale);
    assert buf[0..|x|] == x;
    if format == HEXPKT {
      HexDecodes(buf, 0, |x|, s);
    } else if format == ASCPKT {
      PackWhole(s);
    } else if format == UUEPKT {
      UueDecodes(buf, 0, s, stale);
    }
  }

  lemma PackWhole(s: seq<byte>)
    ensures Unpack7(Pack7(s, 0, 0), 0, 0) == s
  {
    PackUnpack(s, 0, 0, 0, 0);
  }

  lemma CheckedFrame(payload: seq<byte>, kind: byte, crc32: bool)
    requires |payload| <= MAXBLKLEN + OVERHEAD
    ensures Checked(Framed(payload, kind, crc32), crc32) == Packet(payload, kind)
    ensures |Framed(payload, kind, crc32)| <= |payload| + 5
  {
    hide Valid16, Valid32;
    var s := payload + [kind];
    CheckLengths(s);
    CheckedIsValid(s);
    var block := Framed(payload, kind, crc32);
    assert block[..|payload|] == payload && block[|payload|] == kind;
  }

  lemma CheckLengths(s: seq<byte>)
    ensures |Check16(s)| == 2 && |Check32(s)| == 4
  {
  }

  lemma FeedOne(st: Rx, a: byte, o: Options)
    requires ValidRx(st)
    ensures Feed(st, [a], o) == (RxByte(st, a, o).0, if RxByte(st, a, o).1 == Quiet then [] else [RxByte(st, a, o).1])
  {
    hide RxByte;
    RxByteValid(st, a, o);
    var (st1, e) := RxByte(st, a, o);
    assert [a][1..] == [] && [e] + [] == [e];
    assert Feed(st1, [], o) == (st1, []);
  }

  /** Two characters of which the first completes nothing. */
  lemma FeedTwo(st: Rx, a: byte, b: byte, o: Options)
    requires ValidRx(st) && RxByte(st, a, o).1 == Quiet
    ensures ValidRx(RxByte(st, a, o).0)
    ensures var (st2, e2) := RxByte(RxByte(st, a, o).0, b, o);
            Feed(st, [a, b], o) == (st2, if e2 == Quiet then [] else [e2])
  {
    hide RxByte;
    RxByteValid(st, a, o);
    assert [a, b][1..] == [b];
    FeedOne(RxByte(st, a, o).0, b, o);
  }

  lemma FeedStart(st: Rx, kind: byte, tx: Options, o: Options)
    requires ValidRx(st) && st.dle <= 3
    ensures Feed(st, [DLE, Format(kind, tx)], o) == (st.(dle := 0, format := Format(kind, tx), p := Some(0)), [])
  {
    var f := Format(kind, tx);
    MaskFits(f);
    var st1 := st.(dle := st.dle + 1);
    assert RxByte(st, DLE, o) == (st1, Quiet);
    assert RxByte(st1, f, o) == (st.(dle := 0, format := f, p := Some(0)), Quiet);
    FeedTwo(st, DLE, f, o);
  }

  lemma FeedEnd(st: Rx, o: Options)
    requires ValidRx(st) && st.dle == 0
    ensures var (st2, e) := Finish(st.(dle := 1), o);
            Feed(st, [DLE, PKTEND], o) == (st2, if e == Quiet then [] else [e])
  {
    hide Finish;
    MaskFits(PKTEND);
    assert RxByte(st, DLE, o) == (st.(dle := 1), Quiet);
    assert RxByte(st.(dle := 1), PKTEND, o) == Finish(st.(dle := 1), o);
    FeedTwo(st, DLE, PKTEND, o);
  }

  lemma FeedLineEnd(st: Rx, o: Options)
    requires ValidRx(st) && st.p == None && st.dle == 1
    ensures var r := Feed(st, [CR, LF], o); r.1 == [] && r.0.p == None && r.0.dle <= 1
  {
    FeedTwo(st, CR, LF, o);
  }

  /** A part that completes no packet only moves the automaton on. */
  lemma FeedQuiet(st: Rx, a: seq<byte>, st1: Rx, b: seq<byte>, o: Options)
    requires ValidRx(st) && Feed(st, a, o) == (st1, [])
    ensures ValidRx(st1) && Feed(st, a + b, o) == Feed(st1, b, o)
  {
    FeedAppend(st, a, b, o);
    assert [] + Feed(st1, b, o).1 == Feed(st1, b, o).1;
  }

  lemma FeedTrailer(st: Rx, kind: byte, format: byte, o: Options, packet: Event)
    requires ValidRx(st) && st.dle == 0 && packet != Quiet
    requires var (st2, e) := Finish(st.(dle := 1), o); e == packet && st2.p == None && st2.dle == 1
    ensures var r := Feed(st, Trailer(kind, format), o); r.1 == [packet] && r.0.p == None && r.0.dle <= 1
  {
    hide Finish;
    FeedEnd(st, o);
    var st2 := Feed(st, [DLE, PKTEND], o).0;
    FeedLineEnd(st2, o);
    FeedAppend(st, [DLE, PKTEND], [CR, LF], o);
    assert [DLE, PKTEND] + [] == [DLE, PKTEND] && [packet] + [] == [packet];
  }

  /** Any packet txpkt can send is delivered by rxpkt, once and unchanged, from
      any state in which fewer than four DLEs are pending; the two sides need the
      same options, except for the packets that are always hexadecimal, which
      get through whatever the receiver's options are. */
  lemma RoundTrip(st: Rx, payload: seq<byte>, kind: byte, tx: Options, rx: Options, stale: byte)
    requires ValidRx(st) && st.dle <= 3
    requires |payload| <= MAXBLKLEN + OVERHEAD
    requires tx == rx || AlwaysHex(kind)
    ensures var r := Feed(st, Wire(payload, kind, tx, stale), rx);
            r.1 == [Packet(payload, kind)] && r.0.p == None && r.0.dle <= 1
  {
    hide Feed, Finish, Clean, Content, Body, Arrived, Checked, Format, AlwaysHex, Decode, Framed, Trailer, Filled,
         UsesCrc32;
    var format := Format(kind, tx);
    SameCheck(kind, tx, rx);
    var s := Framed(payload, kind, UsesCrc32(format, tx));
    CheckedFrame(payload, kind, UsesCrc32(format, tx));
    var body := Body(s, format, tx, stale);
    BodyClean(s, kind, tx, rx, stale);
    FeedStart(st, kind, tx, rx);
    var st1 := st.(dle := 0, format := format, p := Some(0));
    var tail := Trailer(kind, format);
    assert [DLE, format] + body + tail == [DLE, format] + (body + tail);
    FeedQuiet(st, [DLE, format], st1, body + tail, rx);
    BodyDelivers(st1, s, payload, kind, tx, rx, stale);
  }

  lemma BodyDelivers(st: Rx, s: seq<byte>, payload: seq<byte>, kind: byte, tx: Options, rx: Options, stale: byte)
    requires ValidRx(st) && st.dle == 0 && st.format == Format(kind, tx) && st.p == Some(0)
    requires tx == rx || AlwaysHex(kind)
    requires |s| <= MAXBLKLEN + OVERHEAD + 5
    requires Checked(s, UsesCrc32(st.format, rx)) == Packet(payload, kind)
    ensures var r := Feed(st, Body(s, st.format, tx, stale) + Trailer(kind, st.format), rx);
            r.1 == [Packet(payload, kind)] && r.0.p == None && r.0.dle <= 1
  {
    hide Feed, Finish, Clean, Content, Body, Arrived, Checked, Format, AlwaysHex, Decode, Trailer, UsesCrc32;
    var body := Body(s, st.format, tx, stale);
    BodyClean(s, kind, tx, rx, stale);
    var x := Arrived(s, st.format, stale);
    FeedClean(st, body, 0, rx);
    var st2 := Filled(st, 0, x);
    BodyDecodes(s, kind, tx, stale, st2.buf);
    FinishDelivers(st2.(dle := 1), s, payload, kind, rx);
    FeedQuiet(st, body, st2, Trailer(kind, st.format), rx);
    FeedTrailer(st2, kind, st.format, rx, Packet(payload, kind));
  }

  lemma SameCheck(kind: byte, tx: Options, rx: Options)
    requires tx == rx || AlwaysHex(kind)
    ensures UsesCrc32(Format(kind, tx), tx) == UsesCrc32(Format(kind, tx), rx)
  {
  }

  lemma FinishDelivers(st: Rx, s: seq<byte>, payload: seq<byte>, kind: byte, o: Options)
    requires ValidRx(st) && st.p.Some? && st.p.value + 2 <= BUFLEN && st.dle == 1
    requires var d := Decode(st.format, st.buf, st.p.value); d.out == s && d.ok
    requires Checked(s, UsesCrc32(st.format, o)) == Packet(payload, kind)
    ensures var (st', e) := Finish(st, o); e == Packet(payload, kind) && st'.p == None && st'.dle == 1 && ValidRx(st')
  {
    hide Decode, Checked;
    DecodeBounds(st.format, st.buf, st.p.value);
  }

  /** However the stream is cut into the pieces that rxpkt finds available, the
      same packet comes out. */
  function FeedPieces(st: Rx, pieces: seq<seq<byte>>, o: Options): (r: (Rx, seq<Event>))
    requires ValidRx(st)
    ensures ValidRx(r.0)
    decreases |pieces|
  {
    if pieces == [] then (st, [])
    else
      var (st1, e1) := Feed(st, pieces[0], o);
      var (st2, e2) := FeedPieces(st1, pieces[1..], o);
      (st2, e1 + e2)
  }

  function Flatten(pieces: seq<seq<byte>>): seq<byte> {
    if pieces == [] then [] else pieces[0] + Flatten(pieces[1..])
  }

  lemma {:induction false} PiecesAreOneStream(st: Rx, pieces: seq<seq<byte>>, o: Options)
    requires ValidRx(st)
    ensures FeedPieces(st, pieces, o) == Feed(st, Flatten(pieces), o)
    decreases |pieces|
  {
    if pieces != [] {
      FeedAppend(st, pieces[0], Flatten(pieces[1..]), o);
      PiecesAreOneStream(Feed(st, pieces[0], o).0, pieces[1..], o);
    }
  }

  lemma SplitRoundTrip(st: Rx, pieces: seq<seq<byte>>, payload: seq<byte>, kind: byte, tx: Options, rx: Options,
      stale: byte)
    requires ValidRx(st) && st.dle <= 3
    requires |payload| <= MAXBLKLEN + OVERHEAD
    requires tx == rx || AlwaysHex(kind)
    requires Flatten(pieces) == Wire(payload, kind, tx, stale)
    ensures FeedPieces(st, pieces, rx).1 == [Packet(payload, kind)]
  {
    PiecesAreOneStream(st, pieces, rx);
    RoundTrip(st, payload, kind, tx, rx, stale);
  }
}
