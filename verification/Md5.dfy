/** MD5 (main/md5.c, and the same code in ddftp/md5.c): the incremental update with
    its buffer and carried bit count, against the one-shot definition of sections 3.1
    to 3.4 of RFC 1321. */
module Md5 {

  type byte = bv8

  const WORD := 0x1_0000_0000
  const TWO64 := 0x1_0000_0000_0000_0000

  /** The registers A, B, C, D. */
  datatype Words = Words(a: bv32, b: bv32, c: bv32, d: bv32)

  const INITIAL := Words(0x67452301, 0xefcdab89, 0x98badcfe, 0x10325476)

  // ----- section 3.4: the four rounds --------------------------------------------

  function F(x: bv32, y: bv32, z: bv32): bv32 { (x & y) | (!x & z) }

  function G(x: bv32, y: bv32, z: bv32): bv32 { (x & z) | (y & !z) }

  function H(x: bv32, y: bv32, z: bv32): bv32 { (x ^ y) ^ z }

  function I(x: bv32, y: bv32, z: bv32): bv32 { y ^ (x | !z) }

  function RotateLeft(x: bv32, n: nat): bv32
    requires 0 < n < 32
  {
    (x << n) | (x >> (32 - n))
  }

  function Plus(x: bv32, y: bv32): bv32 { x + y }

  /** The constants T[1] to T[64]. */
  const T1: seq<bv32> := [
    0xd76aa478, 0xe8c7b756, 0x242070db, 0xc1bdceee,
    0xf57c0faf, 0x4787c62a, 0xa8304613, 0xfd469501,
    0x698098d8, 0x8b44f7af, 0xffff5bb1, 0x895cd7be,
    0x6b901122, 0xfd987193, 0xa679438e, 0x49b40821]
  const T2: seq<bv32> := [
    0xf61e2562, 0xc040b340, 0x265e5a51, 0xe9b6c7aa,
    0xd62f105d, 0x02441453, 0xd8a1e681, 0xe7d3fbc8,
    0x21e1cde6, 0xc33707d6, 0xf4d50d87, 0x455a14ed,
    0xa9e3e905, 0xfcefa3f8, 0x676f02d9, 0x8d2a4c8a]
  const T3: seq<bv32> := [
    0xfffa3942, 0x8771f681, 0x6d9d6122, 0xfde5380c,
    0xa4beea44, 0x4bdecfa9, 0xf6bb4b60, 0xbebfbc70,
    0x289b7ec6, 0xeaa127fa, 0xd4ef3085, 0x04881d05,
    0xd9d4d039, 0xe6db99e5, 0x1fa27cf8, 0xc4ac5665]
  const T4: seq<bv32> := [
    0xf4292244, 0x432aff97, 0xab9423a7, 0xfc93a039,
    0x655b59c3, 0x8f0ccc92, 0xffeff47d, 0x85845dd1,
    0x6fa87e4f, 0xfe2ce6e0, 0xa3014314, 0x4e0811a1,
    0xf7537e82, 0xbd3af235, 0x2ad7d2bb, 0xeb86d391]

  function Constant(i: nat): bv32
    requires i < 64
  {
    if i < 16 then T1[i] else if i < 32 then T2[i - 16] else if i < 48 then T3[i - 32] else T4[i - 48]
  }

  /** Which word of the block step `i` uses, and how far it rotates. */
  function Index(i: nat): (k: nat)
    requires i < 64
    ensures k < 16
  {
    if i < 16 then i else if i < 32 then (5 * i + 1) % 16 else if i < 48 then (3 * i + 5) % 16 else (7 * i) % 16
  }

  function Shift(i: nat): (s: nat)
    requires i < 64
    ensures 0 < s < 32
  {
    var row := if i < 16 then [7, 12, 17, 22] else if i < 32 then [5, 9, 14, 20] else if i < 48 then [4, 11, 16, 23]
        else [6, 10, 15, 21];
    row[i % 4]
  }

  function Mixed(i: nat, x: bv32, y: bv32, z: bv32): bv32
    requires i < 64
  {
    if i < 16 then F(x, y, z) else if i < 32 then G(x, y, z) else if i < 48 then H(x, y, z) else I(x, y, z)
  }

  /** b + ((a + f(b, c, d) + X[k] + T[i]) <<< s). */
  function StepValue(a: bv32, b: bv32, f: bv32, x: bv32, s: nat, t: bv32): bv32
    requires 0 < s < 32
  {
    Plus(b, RotateLeft(Plus(Plus(Plus(a, f), x), t), s))
  }

  /** One step; the registers change places. */
  function Step(w: Words, x: seq<bv32>, i: nat): Words
    requires |x| == 16 && i < 64
  {
    Words(w.d, StepValue(w.a, w.b, Mixed(i, w.b, w.c, w.d), x[Index(i)], Shift(i), Constant(i)), w.b, w.c)
  }

  function Steps(w: Words, x: seq<bv32>, n: nat): Words
    requires |x| == 16 && n <= 64
    decreases n
  {
    if n == 0 then w else Step(Steps(w, x, n - 1), x, n - 1)
  }

  function DecodeWord(a: byte, b: byte, c: byte, d: byte): bv32 {
    (a as bv32) | ((b as bv32) << 8) | ((c as bv32) << 16) | ((d as bv32) << 24)
  }

  function Decode(block: seq<byte>): (x: seq<bv32>)
    requires |block| % 4 == 0
    ensures |x| == |block| / 4
  {
    if block == [] then [] else [DecodeWord(block[0], block[1], block[2], block[3])] + Decode(block[4..])
  }

  function EncodeWord(w: bv32): seq<byte> {
    [(w & 0xff) as byte, ((w >> 8) & 0xff) as byte, ((w >> 16) & 0xff) as byte, ((w >> 24) & 0xff) as byte]
  }

  function Transform(w: Words, block: seq<byte>): Words
    requires |block| == 64
  {
    var r := Steps(w, Decode(block), 64);
    Words(Plus(w.a, r.a), Plus(w.b, r.b), Plus(w.c, r.c), Plus(w.d, r.d))
  }

  /** All complete blocks of `s`, in order. */
  function Absorb(w: Words, s: seq<byte>): Words
    decreases |s|
  {
    if |s| < 64 then w else Absorb(Transform(w, s[..64]), s[64..])
  }

  // ----- sections 3.1 and 3.2: padding ---------------------------------------------

  function Zeros(n: nat): (z: seq<byte>)
    ensures |z| == n && forall i | 0 <= i < n :: z[i] == 0
  {
    if n == 0 then [] else [0] + Zeros(n - 1)
  }

  /** Zero bytes between the 0x80 and the length. */
  function ZeroCount(n: nat): (k: nat)
    ensures k < 64 && (n + 1 + k) % 64 == 56
  {
    if n % 64 < 56 then 55 - n % 64 else 119 - n % 64
  }

  /** A 32-bit word as four bytes, low byte first. */
  function NumberBytes(w: nat): seq<byte>
    requires w < WORD
  {
    [(w % 256) as byte, ((w / 256) % 256) as byte, ((w / 65536) % 256) as byte, (w / 16777216) as byte]
  }

  /** The number of bits as eight bytes, low word first. */
  function BitCount(n: nat): seq<byte> {
    var bits := (8 * n) % TWO64;
    NumberBytes(bits % WORD) + NumberBytes(bits / WORD)
  }

  function Padded(m: seq<byte>): seq<byte> {
    m + [0x80] + Zeros(ZeroCount(|m|)) + BitCount(|m|)
  }

  function EncodeState(w: Words): seq<byte> { EncodeWord(w.a) + EncodeWord(w.b) + EncodeWord(w.c) + EncodeWord(w.d) }

  /** Section 3: the digest of a message. */
  function Digest(m: seq<byte>): seq<byte> { EncodeState(Absorb(INITIAL, Padded(m))) }

  // ----- folding over blocks ------------------------------------------------------------

  /** Where the last complete block ends. */
  function Whole(n: nat): nat { n - n % 64 }

  lemma {:induction false} AbsorbAppend(w: Words, s: seq<byte>, t: seq<byte>)
    requires |s| % 64 == 0
    ensures Absorb(w, s + t) == Absorb(Absorb(w, s), t)
    decreases |s|
  {
    hide Transform;
    if s == [] {
      assert s + t == t;
    } else {
      assert (s + t)[..64] == s[..64] && (s + t)[64..] == s[64..] + t;
      AbsorbAppend(Transform(w, s[..64]), s[64..], t);
    }
  }

  // ----- MD5Transform as it is written ------------------------------------------------

  /** a += f + x + ac; rotate; a += b. */
  function Updated(a: bv32, b: bv32, f: bv32, x: bv32, s: nat, ac: bv32): bv32
    requires 0 < s < 32
  {
    Plus(RotateLeft(Plus(a, Plus(Plus(f, x), ac)), s), b)
  }

  lemma PlusAssociates(x: bv32, y: bv32, z: bv32)
    ensures Plus(Plus(x, y), z) == Plus(x, Plus(y, z)) && Plus(x, y) == Plus(y, x)
  {
  }

  lemma UpdatedIsStep(a: bv32, b: bv32, f: bv32, x: bv32, s: nat, ac: bv32)
    requires 0 < s < 32
    ensures Updated(a, b, f, x, s, ac) == StepValue(a, b, f, x, s, ac)
  {
    PlusAssociates(a, f, x);
    PlusAssociates(a, Plus(f, x), ac);
    hide Plus, RotateLeft;
    PlusCommutes(b, RotateLeft(Plus(Plus(Plus(a, f), x), ac), s));
  }

  lemma PlusCommutes(x: bv32, y: bv32)
    ensures Plus(x, y) == Plus(y, x)
  {
  }

  function FF(a: bv32, b: bv32, c: bv32, d: bv32, x: bv32, s: nat, ac: bv32): bv32
    requires 0 < s < 32
  {
    Updated(a, b, F(b, c, d), x, s, ac)
  }

  function GG(a: bv32, b: bv32, c: bv32, d: bv32, x: bv32, s: nat, ac: bv32): bv32
    requires 0 < s < 32
  {
    Updated(a, b, G(b, c, d), x, s, ac)
  }

  function HH(a: bv32, b: bv32, c: bv32, d: bv32, x: bv32, s: nat, ac: bv32): bv32
    requires 0 < s < 32
  {
    Updated(a, b, H(b, c, d), x, s, ac)
  }

  function II(a: bv32, b: bv32, c: bv32, d: bv32, x: bv32, s: nat, ac: bv32): bv32
    requires 0 < s < 32
  {
    Updated(a, b, I(b, c, d), x, s, ac)
  }

  method Lines1(w: Words, x: seq<bv32>) returns (v: Words)
    requires |x| == 16
    ensures v == Step(Step(Step(Step(w, x, 0), x, 1), x, 2), x, 3)
  {
    hide F, Updated, StepValue;
    var (a, b, c, d) := (w.a, w.b, w.c, w.d);
    UpdatedIsStep(a, b, F(b, c, d), x[0], 7, 0xd76aa478);
    a := FF(a, b, c, d, x[0], 7, 0xd76aa478);
    UpdatedIsStep(d, a, F(a, b, c), x[1], 12, 0xe8c7b756);
    d := FF(d, a, b, c, x[1], 12, 0xe8c7b756);
    UpdatedIsStep(c, d, F(d, a, b), x[2], 17, 0x242070db);
    c := FF(c, d, a, b, x[2], 17, 0x242070db);
    UpdatedIsStep(b, c, F(c, d, a), x[3], 22, 0xc1bdceee);
    b := FF(b, c, d, a, x[3], 22, 0xc1bdceee);
    v := Words(a, b, c, d);
  }

  method Lines5(w: Words, x: seq<bv32>) returns (v: Words)
    requires |x| == 16
    ensures v == Step(Step(Step(Step(w, x, 4), x, 5), x, 6), x, 7)
  {
    hide F, Updated, StepValue;
    var (a, b, c, d) := (w.a, w.b, w.c, w.d);
    UpdatedIsStep(a, b, F(b, c, d), x[4], 7, 0xf57c0faf);
    a := FF(a, b, c, d, x[4], 7, 0xf57c0faf);
    UpdatedIsStep(d, a, F(a, b, c), x[5], 12, 0x4787c62a);
    d := FF(d, a, b, c, x[5], 12, 0x4787c62a);
    UpdatedIsStep(c, d, F(d, a, b), x[6], 17, 0xa8304613);
    c := FF(c, d, a, b, x[6], 17, 0xa8304613);
    UpdatedIsStep(b, c, F(c, d, a), x[7], 22, 0xfd469501);
    b := FF(b, c, d, a, x[7], 22, 0xfd469501);
    v := Words(a, b, c, d);
  }

  method Lines9(w: Words, x: seq<bv32>) returns (v: Words)
    requires |x| == 16
    ensures v == Step(Step(Step(Step(w, x, 8), x, 9), x, 10), x, 11)
  {
    hide F, Updated, StepValue;
    var (a, b, c, d) := (w.a, w.b, w.c, w.d);
    UpdatedIsStep(a, b, F(b, c, d), x[8], 7, 0x698098d8);
    a := FF(a, b, c, d, x[8], 7, 0x698098d8);
    UpdatedIsStep(d, a, F(a, b, c), x[9], 12, 0x8b44f7af);
    d := FF(d, a, b, c, x[9], 12, 0x8b44f7af);
    UpdatedIsStep(c, d, F(d, a, b), x[10], 17, 0xffff5bb1);
    c := FF(c, d, a, b, x[10], 17, 0xffff5bb1);
    UpdatedIsStep(b, c, F(c, d, a), x[11], 22, 0x895cd7be);
    b := FF(b, c, d, a, x[11], 22, 0x895cd7be);
    v := Words(a, b, c, d);
  }

  method Lines13(w: Words, x: seq<bv32>) returns (v: Words)
    requires |x| == 16
    ensures v == Step(Step(Step(Step(w, x, 12), x, 13), x, 14), x, 15)
  {
    hide F, Updated, StepValue;
    var (a, b, c, d) := (w.a, w.b, w.c, w.d);
    UpdatedIsStep(a, b, F(b, c, d), x[12], 7, 0x6b901122);
    a := FF(a, b, c, d, x[12], 7, 0x6b901122);
    UpdatedIsStep(d, a, F(a, b, c), x[13], 12, 0xfd987193);
    d := FF(d, a, b, c, x[13], 12, 0xfd987193);
    UpdatedIsStep(c, d, F(d, a, b), x[14], 17, 0xa679438e);
    c := FF(c, d, a, b, x[14], 17, 0xa679438e);
    UpdatedIsStep(b, c, F(c, d, a), x[15], 22, 0x49b40821);
    b := FF(b, c, d, a, x[15], 22, 0x49b40821);
    v := Words(a, b, c, d);
  }

  method Lines17(w: Words, x: seq<bv32>) returns (v: Words)
    requires |x| == 16
    ensures v == Step(Step(Step(Step(w, x, 16), x, 17), x, 18), x, 19)
  {
    hide G, Updated, StepValue;
    var (a, b, c, d) := (w.a, w.b, w.c, w.d);
    UpdatedIsStep(a, b, G(b, c, d), x[1], 5, 0xf61e2562);
    a := GG(a, b, c, d, x[1], 5, 0xf61e2562);
    UpdatedIsStep(d, a, G(a, b, c), x[6], 9, 0xc040b340);
    d := GG(d, a, b, c, x[6], 9, 0xc040b340);
    UpdatedIsStep(c, d, G(d, a, b), x[11], 14, 0x265e5a51);
    c := GG(c, d, a, b, x[11], 14, 0x265e5a51);
    UpdatedIsStep(b, c, G(c, d, a), x[0], 20, 0xe9b6c7aa);
    b := GG(b, c, d, a, x[0], 20, 0xe9b6c7aa);
    v := Words(a, b, c, d);
  }

  method Lines21(w: Words, x: seq<bv32>) returns (v: Words)
    requires |x| == 16
    ensures v == Step(Step(Step(Step(w, x, 20), x, 21), x, 22), x, 23)
  {
    hide G, Updated, StepValue;
    var (a, b, c, d) := (w.a, w.b, w.c, w.d);
    UpdatedIsStep(a, b, G(b, c, d), x[5], 5, 0xd62f105d);
    a := GG(a, b, c, d, x[5], 5, 0xd62f105d);
    UpdatedIsStep(d, a, G(a, b, c), x[10], 9, 0x2441453);
    d := GG(d, a, b, c, x[10], 9, 0x2441453);
    UpdatedIsStep(c, d, G(d, a, b), x[15], 14, 0xd8a1e681);
    c := GG(c, d, a, b, x[15], 14, 0xd8a1e681);
    UpdatedIsStep(b, c, G(c, d, a), x[4], 20, 0xe7d3fbc8);
    b := GG(b, c, d, a, x[4], 20, 0xe7d3fbc8);
    v := Words(a, b, c, d);
  }

  method Lines25(w: Words, x: seq<bv32>) returns (v: Words)
    requires |x| == 16
    ensures v == Step(Step(Step(Step(w, x, 24), x, 25), x, 26), x, 27)
  {
    hide G, Updated, StepValue;
    var (a, b, c, d) := (w.a, w.b, w.c, w.d);
    UpdatedIsStep(a, b, G(b, c, d), x[9], 5, 0x21e1cde6);
    a := GG(a, b, c, d, x[9], 5, 0x21e1cde6);
    UpdatedIsStep(d, a, G(a, b, c), x[14], 9, 0xc33707d6);
    d := GG(d, a, b, c, x[14], 9, 0xc33707d6);
    UpdatedIsStep(c, d, G(d, a, b), x[3], 14, 0xf4d50d87);
    c := GG(c, d, a, b, x[3], 14, 0xf4d50d87);
    UpdatedIsStep(b, c, G(c, d, a), x[8], 20, 0x455a14ed);
    b := GG(b, c, d, a, x[8], 20, 0x455a14ed);
    v := Words(a, b, c, d);
  }

  method Lines29(w: Words, x: seq<bv32>) returns (v: Words)
    requires |x| == 16
    ensures v == Step(Step(Step(Step(w, x, 28), x, 29), x, 30), x, 31)
  {
    hide G, Updated, StepValue;
    var (a, b, c, d) := (w.a, w.b, w.c, w.d);
    UpdatedIsStep(a, b, G(b, c, d), x[13], 5, 0xa9e3e905);
    a := GG(a, b, c, d, x[13], 5, 0xa9e3e905);
    UpdatedIsStep(d, a, G(a, b, c), x[2], 9, 0xfcefa3f8);
    d := GG(d, a, b, c, x[2], 9, 0xfcefa3f8);
    UpdatedIsStep(c, d, G(d, a, b), x[7], 14, 0x676f02d9);
    c := GG(c, d, a, b, x[7], 14, 0x676f02d9);
    UpdatedIsStep(b, c, G(c, d, a), x[12], 20, 0x8d2a4c8a);
    b := GG(b, c, d, a, x[12], 20, 0x8d2a4c8a);
    v := Words(a, b, c, d);
  }

  method Lines33(w: Words, x: seq<bv32>) returns (v: Words)
    requires |x| == 16
    ensures v == Step(Step(Step(Step(w, x, 32), x, 33), x, 34), x, 35)
  {
    hide H, Updated, StepValue;
    var (a, b, c, d) := (w.a, w.b, w.c, w.d);
    UpdatedIsStep(a, b, H(b, c, d), x[5], 4, 0xfffa3942);
    a := HH(a, b, c, d, x[5], 4, 0xfffa3942);
    UpdatedIsStep(d, a, H(a, b, c), x[8], 11, 0x8771f681);
    d := HH(d, a, b, c, x[8], 11, 0x8771f681);
    UpdatedIsStep(c, d, H(d, a, b), x[11], 16, 0x6d9d6122);
    c := HH(c, d, a, b, x[11], 16, 0x6d9d6122);
    UpdatedIsStep(b, c, H(c, d, a), x[14], 23, 0xfde5380c);
    b := HH(b, c, d, a, x[14], 23, 0xfde5380c);
    v := Words(a, b, c, d);
  }

  method Lines37(w: Words, x: seq<bv32>) returns (v: Words)
    requires |x| == 16
    ensures v == Step(Step(Step(Step(w, x, 36), x, 37), x, 38), x, 39)
  {
    hide H, Updated, StepValue;
    var (a, b, c, d) := (w.a, w.b, w.c, w.d);
    UpdatedIsStep(a, b, H(b, c, d), x[1], 4, 0xa4beea44);
    a := HH(a, b, c, d, x[1], 4, 0xa4beea44);
    UpdatedIsStep(d, a, H(a, b, c), x[4], 11, 0x4bdecfa9);
    d := HH(d, a, b, c, x[4], 11, 0x4bdecfa9);
    UpdatedIsStep(c, d, H(d, a, b), x[7], 16, 0xf6bb4b60);
    c := HH(c, d, a, b, x[7], 16, 0xf6bb4b60);
    UpdatedIsStep(b, c, H(c, d, a), x[10], 23, 0xbebfbc70);
    b := HH(b, c, d, a, x[10], 23, 0xbebfbc70);
    v := Words(a, b, c, d);
  }

  method Lines41(w: Words, x: seq<bv32>) returns (v: Words)
    requires |x| == 16
    ensures v == Step(Step(Step(Step(w, x, 40), x, 41), x, 42), x, 43)
  {
    hide H, Updated, StepValue;
    var (a, b, c, d) := (w.a, w.b, w.c, w.d);
    UpdatedIsStep(a, b, H(b, c, d), x[13], 4, 0x289b7ec6);
    a := HH(a, b, c, d, x[13], 4, 0x289b7ec6);
    UpdatedIsStep(d, a, H(a, b, c), x[0], 11, 0xeaa127fa);
    d := HH(d, a, b, c, x[0], 11, 0xeaa127fa);
    UpdatedIsStep(c, d, H(d, a, b), x[3], 16, 0xd4ef3085);
    c := HH(c, d, a, b, x[3], 16, 0xd4ef3085);
    UpdatedIsStep(b, c, H(c, d, a), x[6], 23, 0x4881d05);
    b := HH(b, c, d, a, x[6], 23, 0x4881d05);
    v := Words(a, b, c, d);
  }

  method Lines45(w: Words, x: seq<bv32>) returns (v: Words)
    requires |x| == 16
    ensures v == Step(Step(Step(Step(w, x, 44), x, 45), x, 46), x, 47)
  {
    hide H, Updated, StepValue;
    var (a, b, c, d) := (w.a, w.b, w.c, w.d);
    UpdatedIsStep(a, b, H(b, c, d), x[9], 4, 0xd9d4d039);
    a := HH(a, b, c, d, x[9], 4, 0xd9d4d039);
    UpdatedIsStep(d, a, H(a, b, c), x[12], 11, 0xe6db99e5);
    d := HH(d, a, b, c, x[12], 11, 0xe6db99e5);
    UpdatedIsStep(c, d, H(d, a, b), x[15], 16, 0x1fa27cf8);
    c := HH(c, d, a, b, x[15], 16, 0x1fa27cf8);
    UpdatedIsStep(b, c, H(c, d, a), x[2], 23, 0xc4ac5665);
    b := HH(b, c, d, a, x[2], 23, 0xc4ac5665);
    v := Words(a, b, c, d);
  }

  method Lines49(w: Words, x: seq<bv32>) returns (v: Words)
    requires |x| == 16
    ensures v == Step(Step(Step(Step(w, x, 48), x, 49), x, 50), x, 51)
  {
    hide I, Updated, StepValue;
    var (a, b, c, d) := (w.a, w.b, w.c, w.d);
    UpdatedIsStep(a, b, I(b, c, d), x[0], 6, 0xf4292244);
    a := II(a, b, c, d, x[0], 6, 0xf4292244);
    UpdatedIsStep(d, a, I(a, b, c), x[7], 10, 0x432aff97);
    d := II(d, a, b, c, x[7], 10, 0x432aff97);
    UpdatedIsStep(c, d, I(d, a, b), x[14], 15, 0xab9423a7);
    c := II(c, d, a, b, x[14], 15, 0xab9423a7);
    UpdatedIsStep(b, c, I(c, d, a), x[5], 21, 0xfc93a039);
    b := II(b, c, d, a, x[5], 21, 0xfc93a039);
    v := Words(a, b, c, d);
  }

  method Lines53(w: Words, x: seq<bv32>) returns (v: Words)
    requires |x| == 16
    ensures v == Step(Step(Step(Step(w, x, 52), x, 53), x, 54), x, 55)
  {
    hide I, Updated, StepValue;
    var (a, b, c, d) := (w.a, w.b, w.c, w.d);
    UpdatedIsStep(a, b, I(b, c, d), x[12], 6, 0x655b59c3);
    a := II(a, b, c, d, x[12], 6, 0x655b59c3);
    UpdatedIsStep(d, a, I(a, b, c), x[3], 10, 0x8f0ccc92);
    d := II(d, a, b, c, x[3], 10, 0x8f0ccc92);
    UpdatedIsStep(c, d, I(d, a, b), x[10], 15, 0xffeff47d);
    c := II(c, d, a, b, x[10], 15, 0xffeff47d);
    UpdatedIsStep(b, c, I(c, d, a), x[1], 21, 0x85845dd1);
    b := II(b, c, d, a, x[1], 21, 0x85845dd1);
    v := Words(a, b, c, d);
  }

  method Lines57(w: Words, x: seq<bv32>) returns (v: Words)
    requires |x| == 16
    ensures v == Step(Step(Step(Step(w, x, 56), x, 57), x, 58), x, 59)
  {
    hide I, Updated, StepValue;
    var (a, b, c, d) := (w.a, w.b, w.c, w.d);
    UpdatedIsStep(a, b, I(b, c, d), x[8], 6, 0x6fa87e4f);
    a := II(a, b, c, d, x[8], 6, 0x6fa87e4f);
    UpdatedIsStep(d, a, I(a, b, c), x[15], 10, 0xfe2ce6e0);
    d := II(d, a, b, c, x[15], 10, 0xfe2ce6e0);
    UpdatedIsStep(c, d, I(d, a, b), x[6], 15, 0xa3014314);
    c := II(c, d, a, b, x[6], 15, 0xa3014314);
    UpdatedIsStep(b, c, I(c, d, a), x[13], 21, 0x4e0811a1);
    b := II(b, c, d, a, x[13], 21, 0x4e0811a1);
    v := Words(a, b, c, d);
  }

  method Lines61(w: Words, x: seq<bv32>) returns (v: Words)
    requires |x| == 16
    ensures v == Step(Step(Step(Step(w, x, 60), x, 61), x, 62), x, 63)
  {
    hide I, Updated, StepValue;
    var (a, b, c, d) := (w.a, w.b, w.c, w.d);
    UpdatedIsStep(a, b, I(b, c, d), x[4], 6, 0xf7537e82);
    a := II(a, b, c, d, x[4], 6, 0xf7537e82);
    UpdatedIsStep(d, a, I(a, b, c), x[11], 10, 0xbd3af235);
    d := II(d, a, b, c, x[11], 10, 0xbd3af235);
    UpdatedIsStep(c, d, I(d, a, b), x[2], 15, 0x2ad7d2bb);
    c := II(c, d, a, b, x[2], 15, 0x2ad7d2bb);
    UpdatedIsStep(b, c, I(c, d, a), x[9], 21, 0xeb86d391);
    b := II(b, c, d, a, x[9], 21, 0xeb86d391);
    v := Words(a, b, c, d);
  }

  lemma FourMore(w: Words, x: seq<bv32>, n: nat)
    requires |x| == 16 && n + 4 <= 64
    ensures Steps(w, x, n + 4) == Step(Step(Step(Step(Steps(w, x, n), x, n), x, n + 1), x, n + 2), x, n + 3)
  {
    hide Step;
    assert Steps(w, x, n + 4) == Step(Steps(w, x, n + 3), x, n + 3);
    assert Steps(w, x, n + 3) == Step(Steps(w, x, n + 2), x, n + 2);
    assert Steps(w, x, n + 2) == Step(Steps(w, x, n + 1), x, n + 1);
  }

  method DecodeBlock(block: seq<byte>) returns (x: seq<bv32>)
    requires |block| == 64
    ensures x == Decode(block)
  {
    hide DecodeWord, Decode;
    x := [];
    var j := 0;
    assert block[0..] == block && [] + Decode(block) == Decode(block);
    while j < 64
      invariant 0 <= j <= 64 && j % 4 == 0
      invariant Decode(block) == x + Decode(block[j..])
    {
      DecodeNext(block, j);
      var v := DecodeWord(block[j], block[j + 1], block[j + 2], block[j + 3]);
      assert x + ([v] + Decode(block[j + 4..])) == x + [v] + Decode(block[j + 4..]);
      x := x + [v];
      j := j + 4;
    }
    assert block[j..] == [] && x + [] == x;
  }

  lemma DecodeNext(block: seq<byte>, j: nat)
    requires j + 4 <= |block| && (|block| - j) % 4 == 0
    ensures Decode(block[j..]) == [DecodeWord(block[j], block[j + 1], block[j + 2], block[j + 3])] +
            Decode(block[j + 4..])
  {
    hide DecodeWord;
    assert block[j..][4..] == block[j + 4..];
  }

  method MD5Transform(w: Words, block: seq<byte>) returns (v: Words)
    requires |block| == 64
    ensures v == Transform(w, block)
  {
    hide Step, Decode;
    var x := DecodeBlock(block);
    v := w;
    assert v == Steps(w, x, 0);
    FourMore(w, x, 0);
    v := Lines1(v, x);
    FourMore(w, x, 4);
    v := Lines5(v, x);
    FourMore(w, x, 8);
    v := Lines9(v, x);
    FourMore(w, x, 12);
    v := Lines13(v, x);
    FourMore(w, x, 16);
    v := Lines17(v, x);
    FourMore(w, x, 20);
    v := Lines21(v, x);
    FourMore(w, x, 24);
    v := Lines25(v, x);
    FourMore(w, x, 28);
    v := Lines29(v, x);
    FourMore(w, x, 32);
    v := Lines33(v, x);
    FourMore(w, x, 36);
    v := Lines37(v, x);
    FourMore(w, x, 40);
    v := Lines41(v, x);
    FourMore(w, x, 44);
    v := Lines45(v, x);
    FourMore(w, x, 48);
    v := Lines49(v, x);
    FourMore(w, x, 52);
    v := Lines53(v, x);
    FourMore(w, x, 56);
    v := Lines57(v, x);
    FourMore(w, x, 60);
    v := Lines61(v, x);
    v := Words(Plus(w.a, v.a), Plus(w.b, v.b), Plus(w.c, v.c), Plus(w.d, v.d));
  }

  // ----- the context ------------------------------------------------------------------------

  lemma AbsorbBlock(w: Words, s: seq<byte>, block: seq<byte>)
    requires |s| % 64 == 0 && |block| == 64
    ensures Absorb(w, s + block) == Transform(Absorb(w, s), block)
  {
    hide Transform;
    AbsorbAppend(w, s, block);
    assert block[..64] == block && block[64..] == [];
  }

  /** The carried count is 8 times the length, modulo 2^64. */
  predicate Counts(count0: nat, count1: nat, n: nat) {
    count0 == ((8 * n) % TWO64) % WORD && count1 == ((8 * n) % TWO64) / WORD
  }

  /** MD5Update's additions, with their carries. */
  function Low(count0: nat, len: nat): nat { (count0 + (len * 8) % WORD) % WORD }

  function High(count0: nat, count1: nat, len: nat): nat {
    var carried := if Low(count0, len) < (len * 8) % WORD then (count1 + 1) % WORD else count1;
    (carried + len / 0x2000_0000) % WORD
  }

  lemma ModSum(a: nat, b: nat)
    ensures (a + b) % TWO64 == (a % TWO64 + b) % TWO64
  {
    assert a + b == (a / TWO64) * TWO64 + (a % TWO64 + b);
    ModAdd(a / TWO64, a % TWO64 + b);
  }

  lemma ModAdd(q: nat, r: nat)
    ensures (q * TWO64 + r) % TWO64 == r % TWO64
  {
    var k := r / TWO64;
    assert q * TWO64 + r == (q + k) * TWO64 + r % TWO64;
  }

  lemma BitSplit(len: nat)
    requires len < WORD
    ensures len * 8 == (len / 0x2000_0000) * WORD + (len * 8) % WORD && len / 0x2000_0000 < 8
  {
    var r := len % 0x2000_0000;
    assert len * 8 == (len / 0x2000_0000) * WORD + r * 8;
  }

  lemma LowCarries(count0: nat, lo: nat)
    requires count0 < WORD && lo < WORD
    ensures var low := (count0 + lo) % WORD;
            low == count0 + lo - (if low < lo then WORD else 0)
  {
  }

  lemma CountCarries(count0: nat, count1: nat, n: nat, len: nat)
    requires Counts(count0, count1, n) && len < WORD
    ensures Counts(Low(count0, len), High(count0, count1, len), n + len)
  {
    var (lo, hi) := ((len * 8) % WORD, len / 0x2000_0000);
    BitSplit(len);
    LowCarries(count0, lo);
    ModSum(8 * n, 8 * len);
    CountParts(count0, count1, (8 * n) % TWO64);
    var low := Low(count0, len);
    Wraps(count1, hi, if low < lo then 1 else 0, low, (8 * n) % TWO64 + 8 * len);
  }

  lemma CountParts(count0: nat, count1: nat, bits: nat)
    requires bits < TWO64 && count0 == bits % WORD && count1 == bits / WORD
    ensures bits == count1 * WORD + count0 && count0 < WORD && count1 < WORD
  {
  }

  lemma Wraps(count1: nat, hi: nat, carry: nat, low: nat, sum: nat)
    requires count1 < WORD && hi < 8 && carry <= 1 && low < WORD
    requires sum == (count1 + hi + carry) * WORD + low
    ensures (sum % TWO64) % WORD == low
    ensures (sum % TWO64) / WORD == ((if carry == 1 then (count1 + 1) % WORD else count1) + hi) % WORD
  {
    var h := count1 + hi + carry;
    if h < WORD {
      assert sum < TWO64;
    } else {
      assert TWO64 <= sum < 2 * TWO64;
      assert sum % TWO64 == (h - WORD) * WORD + low;
    }
  }

  /** The count also tells how much of the buffer is filled. */
  lemma CountIndex(count0: nat, count1: nat, n: nat)
    requires Counts(count0, count1, n)
    ensures (count0 / 8) % 64 == n % 64
  {
    var q := (8 * n) / TWO64;
    CountParts(count0, count1, (8 * n) % TWO64);
    LowPart(n, q * WORD + count1, count0);
  }

  lemma LowPart(n: nat, r: nat, count0: nat)
    requires 8 * n == r * WORD + count0 && count0 < WORD
    ensures (count0 / 8) % 64 == n % 64
  {
    assert count0 == 8 * (n - r * 0x2000_0000);
    assert n == count0 / 8 + 64 * (r * 0x80_0000);
  }

  /** `k` bytes behind `index` that wait in the buffer: the 32-bit loop variable of the
      update stays clear of its end. */
  predicate InWord(index: nat, k: nat) {
    k < WORD && (index + k < 64 || k - (index + k) % 64 + 63 < WORD)
  }

  /** The loop test on a 32-bit variable says what it is meant to say. */
  predicate TestRight(i: nat, k: nat) { (i + 63) % WORD < k <==> i + 63 < k }

  predicate BlockStart(index: nat, i: nat) { (index + i) % 64 == 0 }

  lemma UpToLast(index: nat, i: nat, k: nat)
    requires BlockStart(index, i) && i <= k
    ensures i <= k - (index + k) % 64
  {
    var (a, b) := ((index + i) / 64, (index + k) / 64);
    assert index + i == 64 * a && index + k == 64 * b + (index + k) % 64;
    assert a <= b;
  }

  lemma LastStarts(index: nat, k: nat)
    requires index + k >= 64 && index < 64
    ensures var last := k - (index + k) % 64; 0 <= last <= k < last + 64 && BlockStart(index, last)
  {
    assert index + (k - (index + k) % 64) == 64 * ((index + k) / 64);
  }

  lemma SmallTest(i: nat, k: nat)
    requires i + 63 < WORD
    ensures TestRight(i, k)
  {
  }

  lemma LargeTest(i: nat, k: nat)
    requires WORD <= i + 63 && i <= k < WORD && k < i + 64
    ensures !TestRight(i, k)
  {
    assert (i + 63) % WORD == i + 63 - WORD;
  }

  /** The loop test is right at every block exactly if InWord holds: otherwise it goes on
      behind the last complete block. */
  lemma LoopTestExact(index: nat, k: nat)
    requires index < 64 && k < WORD && index + k >= 64
    ensures InWord(index, k) <==> forall i | 0 <= i <= k && BlockStart(index, i) :: TestRight(i, k)
  {
    var last := k - (index + k) % 64;
    LastStarts(index, k);
    hide TestRight, BlockStart;
    if InWord(index, k) {
      forall i | 0 <= i <= k && BlockStart(index, i) ensures TestRight(i, k) {
        UpToLast(index, i, k);
        SmallTest(i, k);
      }
    } else {
      LargeTest(last, k);
    }
  }

  /** An update for which it goes wrong: one byte waits, and 2^32 - 1 come. */
  lemma LoopTestFails()
    ensures !InWord(1, WORD - 1) && BlockStart(1, WORD - 1) && !TestRight(WORD - 1, WORD - 1)
  {
    LargeTest(WORD - 1, WORD - 1);
  }

  class Md5Ctx {
    var state: Words
    var count0: nat
    var count1: nat
    const buffer: array<byte>
    /** Everything that has gone in. */
    ghost var message: seq<byte>

    ghost predicate Valid()
      reads this, buffer
    {
      var n := |message|;
      && buffer.Length == 64
      && Counts(count0, count1, n)
      && state == Absorb(INITIAL, message[..Whole(n)])
      && buffer[..n % 64] == message[Whole(n)..]
    }

    /** MD5Init. */
    constructor ()
      ensures Valid() && fresh(buffer) && message == []
    {
      state := INITIAL;
      count0, count1 := 0, 0;
      buffer := new byte[64](_ => 0);
      message := [];
    }

    /** MD5_memcpy into the buffer. */
    method CopyIn(at: nat, s: seq<byte>)
      requires at + |s| <= buffer.Length
      modifies buffer
      ensures buffer[..] == old(buffer[..at]) + s + old(buffer[at + |s|..])
    {
      var i := 0;
      while i < |s|
        invariant 0 <= i <= |s|
        invariant buffer[..at + i] == old(buffer[..at]) + s[..i]
        invariant buffer[at + i..] == old(buffer[at + i..])
      {
        ghost var rest := buffer[at + i..];
        buffer[at + i] := s[i];
        assert buffer[..at + i + 1] == buffer[..at + i] + [s[i]] && s[..i + 1] == s[..i] + [s[i]];
        assert buffer[at + i + 1..] == rest[1..];
        i := i + 1;
      }
      assert s[..i] == s && buffer[..] == buffer[..at + i] + buffer[at + i..];
    }

    method MD5Update(input: seq<byte>)
      requires Valid() && InWord(|message| % 64, |input|)
      modifies this, buffer
      ensures Valid() && message == old(message) + input
    {
      hide Absorb, Transform, Counts, Low, High, Whole;
      ghost var before := message;
      CountIndex(count0, count1, |before|);
      CountCarries(count0, count1, |before|, |input|);
      var index := (count0 / 8) % 64;
      count0, count1 := Low(count0, |input|), High(count0, count1, |input|);
      message := message + input;
      FillBuffer(input, index, before);
    }

    /** The blocks of the input, and what is left of it. */
    method FillBuffer(input: seq<byte>, index0: nat, ghost before: seq<byte>)
      requires buffer.Length == 64 && index0 == |before| % 64 && InWord(index0, |input|)
      requires buffer[..index0] == before[Whole(|before|)..] && state == Absorb(INITIAL, before[..Whole(|before|)])
      modifies this`state, buffer
      ensures var all := before + input;
              && state == Absorb(INITIAL, all[..Whole(|all|)])
              && buffer[..|all| % 64] == all[Whole(|all|)..]
    {
      hide Absorb, Transform;
      var index, i := index0, 0;
      if |input| >= 64 - index {
        FirstBlock(input, index, before);
        Remainders(|before|, |input|);
        i := Blocks(input, 64 - index, before);
        index := 0;
      }
      ghost var kept := buffer[..index];
      Remaining(before, input, i, index, kept);
      hide Whole;
      CopyIn(index, input[i..]);
      assert buffer[..index + |input| - i] == kept + input[i..];
    }

    /** The block that the buffer and the start of the input make up. */
    method FirstBlock(input: seq<byte>, index: nat, ghost before: seq<byte>)
      requires buffer.Length == 64 && index == |before| % 64 && |input| >= 64 - index
      requires buffer[..index] == before[Whole(|before|)..] && state == Absorb(INITIAL, before[..Whole(|before|)])
      modifies this`state, buffer
      ensures state == Absorb(INITIAL, (before + input)[..|before| + 64 - index])
    {
      hide Absorb, Transform;
      ghost var whole := before[..Whole(|before|)];
      CopyIn(index, input[..64 - index]);
      state := MD5Transform(state, buffer[..]);
      AbsorbBlock(INITIAL, whole, buffer[..]);
      assert (before + input)[..|before| + 64 - index] == whole + buffer[..];
    }

    /** What is left for the buffer is what is behind the last complete block. */
    static lemma Remaining(before: seq<byte>, input: seq<byte>, i: nat, index: nat, kept: seq<byte>)
      requires i <= |input| && |kept| == index
      requires if i == 0 then index == |before| % 64 && |input| < 64 - index && kept == before[Whole(|before|)..]
               else index == 0 && (|before| + i) % 64 == 0 && |input| - i < 64
      ensures var (all, n) := (before + input, |before|);
              && |all| % 64 == index + |input| - i
              && all[..Whole(|all|)] == (if i == 0 then before[..Whole(n)] else all[..n + i])
              && all[Whole(|all|)..] == kept + input[i..]
    {
      var (all, n) := (before + input, |before|);
      assert Whole(|all|) == n + i - index;
    }

    static lemma Remainders(n: nat, k: nat)
      ensures (n + k) % 64 == (n % 64 + k) % 64 && (n + (64 - n % 64)) % 64 == 0
    {
      assert n + k == 64 * (n / 64) + (n % 64 + k);
      assert n + (64 - n % 64) == 64 * (n / 64 + 1);
    }

    /** The loop over the complete blocks of the input; `i` is a 32-bit variable. */
    method Blocks(input: seq<byte>, partLen: nat, ghost before: seq<byte>) returns (i: nat)
      requires 0 < partLen <= |input| && (|before| + partLen) % 64 == 0
      requires |input| - (|before| + |input|) % 64 + 63 < WORD
      requires state == Absorb(INITIAL, (before + input)[..|before| + partLen])
      modifies this`state
      ensures partLen <= i <= |input| && |input| - i < 64 && (|before| + i) % 64 == 0
      ensures state == Absorb(INITIAL, (before + input)[..|before| + i])
    {
      hide Absorb, Transform;
      ghost var (all, n) := (before + input, |before|);
      i := partLen;
      ghost var last := BlocksEnd(n, i, |input|);
      while (i + 63) % WORD < |input|
        invariant partLen <= i <= last && (n + i) % 64 == 0
        invariant state == Absorb(INITIAL, all[..n + i])
      {
        NextBlock(n, i, |input|);
        assert all[..n + i + 64] == all[..n + i] + input[i..i + 64];
        AbsorbBlock(INITIAL, all[..n + i], input[i..i + 64]);
        state := MD5Transform(state, input[i..i + 64]);
        i := i + 64;
      }
      NextBlock(n, i, |input|);
    }

    /** Where the loop ends. */
    static ghost function BlocksEnd(n: nat, i: nat, k: nat): (last: nat)
      requires (n + i) % 64 == 0 && i <= k
      ensures i <= last <= k
    {
      var a := (n + i) / 64;
      assert n + k == 64 * a + (k - i);
      k - (n + k) % 64
    }

    static lemma NextBlock(n: nat, i: nat, k: nat)
      requires (n + i) % 64 == 0 && i <= k - (n + k) % 64 && k - (n + k) % 64 + 63 < WORD
      ensures (i + 63) % WORD == i + 63
      ensures if i + 63 < k then i + 64 <= k - (n + k) % 64 && (n + (i + 64)) % 64 == 0 else k - i < 64
    {
      if i + 63 < k {
        var a := (n + i) / 64;
        assert n + (i + 64) == 64 * (a + 1) && n + k == 64 * (a + 1) + (k - i - 64);
      }
    }

    /** MD5Final: the digest of everything that went in. */
    method MD5Final() returns (digest: seq<byte>)
      requires Valid()
      modifies this, buffer
      ensures digest == Digest(old(message))
      ensures state == Words(0, 0, 0, 0) && count0 == count1 == 0 && forall i | 0 <= i < buffer.Length :: buffer[i] == 0
    {
      hide Absorb, NumberBytes, EncodeState, Counts;
      Pad();
      digest := EncodeState(state);
      state := Words(0, 0, 0, 0);
      count0, count1 := 0, 0;
      Clear();
      message := [];
    }

    /** The padding and the length that was saved before it. */
    method Pad()
      requires Valid()
      modifies this, buffer
      ensures state == Absorb(INITIAL, Padded(old(message)))
    {
      hide Absorb, NumberBytes, Zeros;
      ghost var m := message;
      CountIndex(count0, count1, |m|);
      var bits := NumberBytes(count0) + NumberBytes(count1);
      assert bits == BitCount(|m|);
      BitCountLength(|m|);
      hide BitCount, Counts;
      var index := (count0 / 8) % 64;
      var padLen := if index < 56 then 56 - index else 120 - index;
      var padding := [0x80] + Zeros(padLen - 1);
      MD5Update(padding);
      MD5Update(bits);
      PaddedParts(m, padLen);
      assert message == m + padding + bits;
      assert message[..Whole(|message|)] == message;
    }

    static lemma PaddedParts(m: seq<byte>, padLen: nat)
      requires padLen == if |m| % 64 < 56 then 56 - |m| % 64 else 120 - |m| % 64
      ensures Padded(m) == m + ([0x80] + Zeros(padLen - 1)) + BitCount(|m|) && |Padded(m)| % 64 == 0
    {
      BitCountLength(|m|);
      PadLength(|m|, padLen);
      hide BitCount, Zeros, ZeroCount;
      assert m + [0x80] + Zeros(padLen - 1) == m + ([0x80] + Zeros(padLen - 1));
    }

    static lemma PadLength(n: nat, padLen: nat)
      requires padLen == if n % 64 < 56 then 56 - n % 64 else 120 - n % 64
      ensures padLen > 0 && ZeroCount(n) == padLen - 1 && (n + padLen + 8) % 64 == 0
    {
    }

    static lemma BitCountLength(n: nat)
      ensures |BitCount(n)| == 8
    {
    }

    /** MD5_memset. */
    method Clear()
      modifies buffer
      ensures forall i | 0 <= i < buffer.Length :: buffer[i] == 0
    {
      var i := 0;
      while i < buffer.Length
        invariant 0 <= i <= buffer.Length
        invariant forall k | 0 <= k < i :: buffer[k] == 0
      {
        buffer[i] := 0;
        i := i + 1;
      }
    }
  }

  // ----- the main result -----------------------------------------------------------------------

  function Flatten(pieces: seq<seq<byte>>): seq<byte> {
    if pieces == [] then [] else Flatten(pieces[..|pieces| - 1]) + pieces[|pieces| - 1]
  }

  /** However a message is cut into updates, the digest is that of the whole. */
  method Streamed(pieces: seq<seq<byte>>) returns (digest: seq<byte>)
    requires forall i | 0 <= i < |pieces| :: InWord(|Flatten(pieces[..i])| % 64, |pieces[i]|)
    ensures digest == Digest(Flatten(pieces))
  {
    hide Digest;
    var ctx := new Md5Ctx();
    var i := 0;
    while i < |pieces|
      invariant 0 <= i <= |pieces|
      invariant ctx.Valid() && ctx.message == Flatten(pieces[..i]) && fresh(ctx) && fresh(ctx.buffer)
    {
      assert pieces[..i + 1][..i] == pieces[..i];
      ctx.MD5Update(pieces[i]);
      i := i + 1;
    }
    assert pieces[..i] == pieces;
    digest := ctx.MD5Final();
  }

  lemma SameLength(a: seq<byte>, b: seq<byte>)
    requires Padded(a) == Padded(b)
    ensures (8 * |a|) % TWO64 == (8 * |b|) % TWO64
  {
    LastEight(a);
    LastEight(b);
    BitCountTells(|a|, |b|);
  }

  lemma LastEight(m: seq<byte>)
    ensures |Padded(m)| >= 8 && Padded(m)[|Padded(m)| - 8..] == BitCount(|m|)
  {
    hide NumberBytes;
    Md5Ctx.BitCountLength(|m|);
  }

  lemma NumberBytesTell(v: nat, w: nat)
    requires v < WORD && w < WORD && NumberBytes(v) == NumberBytes(w)
    ensures v == w
  {
    WordParts(v);
    WordParts(w);
    var (x, y) := (NumberBytes(v), NumberBytes(w));
    assert x[0] == y[0] && x[1] == y[1] && x[2] == y[2] && x[3] == y[3];
    ByteTells(v % 256, w % 256);
    ByteTells((v / 256) % 256, (w / 256) % 256);
    ByteTells((v / 65536) % 256, (w / 65536) % 256);
    ByteTells(v / 16777216, w / 16777216);
  }

  lemma ByteBack(b: byte)
    ensures (b as int) as byte == b && 0 <= b as int < 256
  {
  }

  lemma NextByte(b: byte)
    requires b != 255
    ensures (b + 1) as int == b as int + 1
  {
  }

  /** Every number below 256 is a byte. */
  lemma {:induction false} ByteOf(x: nat) returns (b: byte)
    requires x < 256
    ensures b as int == x
  {
    if x == 0 {
      b := 0;
    } else {
      b := ByteOf(x - 1);
      NextByte(b);
      b := b + 1;
    }
  }

  lemma ByteValue(x: nat)
    requires x < 256
    ensures (x as byte) as int == x
  {
    var b := ByteOf(x);
    ByteBack(b);
  }

  lemma ByteTells(x: nat, y: nat)
    requires x < 256 && y < 256 && x as byte == y as byte
    ensures x == y
  {
    ByteValue(x);
    ByteValue(y);
  }

  /** A word from its four bytes. */
  lemma WordParts(w: nat)
    requires w < WORD
    ensures w == w % 256 + 256 * ((w / 256) % 256) + 65536 * ((w / 65536) % 256) + 16777216 * (w / 16777216)
    ensures w / 16777216 < 256
  {
    var (a, b) := (w / 256, w / 65536);
    assert a / 256 == b;
    assert b / 256 == w / 16777216;
    assert w == w % 256 + 256 * a && a == a % 256 + 256 * b && b == b % 256 + 256 * (w / 16777216);
  }

  lemma BitCountTells(n: nat, k: nat)
    requires BitCount(n) == BitCount(k)
    ensures (8 * n) % TWO64 == (8 * k) % TWO64
  {
    var (x, y) := ((8 * n) % TWO64, (8 * k) % TWO64);
    hide NumberBytes;
    FourBytes(x % WORD);
    FourBytes(y % WORD);
    assert BitCount(n)[..4] == NumberBytes(x % WORD) && BitCount(k)[..4] == NumberBytes(y % WORD);
    assert BitCount(n)[4..] == NumberBytes(x / WORD) && BitCount(k)[4..] == NumberBytes(y / WORD);
    NumberBytesTell(x % WORD, y % WORD);
    NumberBytesTell(x / WORD, y / WORD);
  }

  lemma FourBytes(w: nat)
    requires w < WORD
    ensures |NumberBytes(w)| == 4
  {
  }

  /** Different messages are never padded to the same blocks, as long as the bit
      count does not wrap around. */
  lemma PaddingIsInjective(a: seq<byte>, b: seq<byte>)
    requires 8 * |a| < TWO64 && 8 * |b| < TWO64 && Padded(a) == Padded(b)
    ensures a == b
  {
    hide *;
    SameLength(a, b);
    Unwrapped(8 * |a|);
    Unwrapped(8 * |b|);
    StartsPadded(a);
    StartsPadded(b);
  }

  lemma Unwrapped(n: nat)
    requires n < TWO64
    ensures n % TWO64 == n
  {
  }

  lemma StartsPadded(a: seq<byte>)
    ensures |a| <= |Padded(a)| && Padded(a)[..|a|] == a
  {
    hide NumberBytes, BitCount, Zeros, ZeroCount;
  }
}
