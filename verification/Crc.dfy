/** The two cyclic redundancy checks of HYDRA (hydracom/hydra.c).

    The reference definition is bit-serial: eight shift steps of the reflected
    generator for each byte.  The program builds a 256-entry table from the same
    shift steps and then works a byte at a time (class `Tables`); the lemmas are
    about the bit-serial definition. */
module Crc {

  type byte = bv8

  const POLY16: bv16 := 0x8408
  const POLY32: bv32 := 0xedb88320
  /** What the register holds after a valid block and its check bytes. */
  const RESIDUE16: bv16 := 0xf0b8
  const RESIDUE32: bv32 := 0xdebb20e3

  // ----- bit-serial definition ---------------------------------------------

  function Xor16(x: bv16, y: bv16): bv16 { x ^ y }

  function Xor32(x: bv32, y: bv32): bv32 { x ^ y }

  function Shift16(x: bv16): bv16 {
    if x & 1 == 1 then (x >> 1) ^ POLY16 else x >> 1
  }

  function Shift32(x: bv32): bv32 {
    if x & 1 == 1 then (x >> 1) ^ POLY32 else x >> 1
  }

  /** `n` shift steps; eight of them divide by one byte's worth. */
  function Steps16(x: bv16, n: nat): bv16
    decreases n
  {
    if n == 0 then x else Shift16(Steps16(x, n - 1))
  }

  function Steps32(x: bv32, n: nat): bv32
    decreases n
  {
    if n == 0 then x else Shift32(Steps32(x, n - 1))
  }

  /** One byte enters the register. */
  function Update16(crc: bv16, c: byte): bv16 { Steps16(Xor16(crc, c as bv16), 8) }

  function Update32(crc: bv32, c: byte): bv32 { Steps32(Xor32(crc, c as bv32), 8) }

  /** The register after feeding `s` into a register that held `init`. */
  function Run16(init: bv16, s: seq<byte>): bv16 {
    if s == [] then init
    else Update16(Run16(init, s[..|s| - 1]), s[|s| - 1])
  }

  function Run32(init: bv32, s: seq<byte>): bv32 {
    if s == [] then init
    else Update32(Run32(init, s[..|s| - 1]), s[|s| - 1])
  }

  function Crc16(s: seq<byte>): bv16 { Run16(0xffff, s) }

  function Crc32(s: seq<byte>): bv32 { Run32(0xffffffff, s) }

  function Bytes16(c: bv16): seq<byte> {
    [(c & 0xff) as byte, ((c >> 8) & 0xff) as byte]
  }

  function Join16(a: byte, b: byte): bv16 { (a as bv16) | ((b as bv16) << 8) }

  function Join32(a: byte, b: byte, c: byte, d: byte): bv32 {
    (a as bv32) | ((b as bv32) << 8) | ((c as bv32) << 16) | ((d as bv32) << 24)
  }

  function Bytes32(c: bv32): seq<byte> {
    [(c & 0xff) as byte, ((c >> 8) & 0xff) as byte, ((c >> 16) & 0xff) as byte, ((c >> 24) & 0xff) as byte]
  }

  /** What a sender appends: the complemented register, low byte first. */
  function Check16(s: seq<byte>): (r: seq<byte>) { Bytes16(!Crc16(s)) }

  function Check32(s: seq<byte>): (r: seq<byte>) { Bytes32(!Crc32(s)) }

  predicate Valid16(block: seq<byte>) { Crc16(block) == RESIDUE16 }

  predicate Valid32(block: seq<byte>) { Crc32(block) == RESIDUE32 }

  // ----- linearity and injectivity of the shift steps -----------------------

  lemma XorShift16(x: bv16, y: bv16)
    ensures (x ^ y) >> 1 == (x >> 1) ^ (y >> 1)
    ensures (x ^ y) & 1 == (x & 1) ^ (y & 1)
    ensures x & 1 == 0 || x & 1 == 1
    ensures (x ^ POLY16) ^ (y ^ POLY16) == x ^ y
    ensures (x ^ POLY16) ^ y == (x ^ y) ^ POLY16 == x ^ (y ^ POLY16)
  {
  }

  lemma XorShift32(x: bv32, y: bv32)
    ensures (x ^ y) >> 1 == (x >> 1) ^ (y >> 1)
    ensures (x ^ y) & 1 == (x & 1) ^ (y & 1)
    ensures x & 1 == 0 || x & 1 == 1
    ensures (x ^ POLY32) ^ (y ^ POLY32) == x ^ y
    ensures (x ^ POLY32) ^ y == (x ^ y) ^ POLY32 == x ^ (y ^ POLY32)
  {
  }

  lemma ShiftLinear16(x: bv16, y: bv16)
    ensures Shift16(x ^ y) == Shift16(x) ^ Shift16(y)
  {
    XorShift16(x, y);
    XorShift16(y, x);
    XorShift16(x >> 1, y >> 1);
  }

  lemma ShiftLinear32(x: bv32, y: bv32)
    ensures Shift32(x ^ y) == Shift32(x) ^ Shift32(y)
  {
    XorShift32(x, y);
    XorShift32(y, x);
    XorShift32(x >> 1, y >> 1);
  }

  lemma ShiftXor16(x: bv16, y: bv16)
    ensures Shift16(Xor16(x, y)) == Xor16(Shift16(x), Shift16(y))
  {
    hide Shift16;
    ShiftLinear16(x, y);
  }

  lemma {:induction false} StepsLinear16(x: bv16, y: bv16, n: nat)
    ensures Steps16(Xor16(x, y), n) == Xor16(Steps16(x, n), Steps16(y, n))
    decreases n
  {
    hide Shift16, Xor16;
    if n > 0 {
      StepsLinear16(x, y, n - 1);
      ShiftXor16(Steps16(x, n - 1), Steps16(y, n - 1));
    }
  }

  /** The generator has its top bit set, so a shift step loses nothing. */
  lemma ShiftInjective16(x: bv16, y: bv16)
    requires Shift16(x) == Shift16(y)
    ensures x == y
  {
  }

  lemma {:induction false} StepsInjective16(x: bv16, y: bv16, n: nat)
    requires Steps16(x, n) == Steps16(y, n)
    ensures x == y
    decreases n
  {
    hide Shift16;
    if n > 0 {
      ShiftInjective16(Steps16(x, n - 1), Steps16(y, n - 1));
      StepsInjective16(x, y, n - 1);
    }
  }

  lemma EightShifts16(x: bv16)
    ensures Steps16(x, 8) == Shift16(Shift16(Shift16(Shift16(Shift16(Shift16(Shift16(Shift16(x))))))))
  {
    hide Shift16;
    assert Steps16(x, 4) == Shift16(Shift16(Shift16(Shift16(x))));
  }

  /** Eight steps on a register whose low byte is clear are a plain shift. */
  lemma StepsHigh16(x: bv16)
    requires x & 0xff == 0
    ensures Steps16(x, 8) == x >> 8
  {
    hide Steps16;
    EightShifts16(x);
  }

  lemma Halves16(x: bv16)
    ensures x == Xor16(x & 0xff, x & !0xff)
    ensures (x & !0xff) & 0xff == 0
    ensures (x & !0xff) >> 8 == x >> 8
  {
  }

  /** The byte-wise step of the program (shift by eight, xor a table entry that
      depends on the low byte only) is eight bit-serial steps. */
  lemma ByteStep16(x: bv16)
    ensures Steps16(x, 8) == Xor16(Steps16(x & 0xff, 8), x >> 8)
  {
    hide Shift16, Steps16, Xor16;
    Halves16(x);
    HalfSteps16(x, x & 0xff, x & !0xff, x >> 8);
  }

  lemma HalfSteps16(x: bv16, lo: bv16, hi: bv16, rest: bv16)
    requires x == Xor16(lo, hi) && hi & 0xff == 0 && hi >> 8 == rest
    ensures Steps16(x, 8) == Xor16(Steps16(lo, 8), rest)
  {
    hide Shift16, Steps16, Xor16;
    StepsLinear16(lo, hi, 8);
    StepsHigh16(hi);
  }

  /** A byte about to be fed can be moved back through eight earlier steps. */
  lemma Absorb16(u: bv16, v: bv16)
    requires v & 0xff == 0
    ensures Xor16(Steps16(u, 8), v >> 8) == Steps16(Xor16(u, v), 8)
  {
    hide Shift16, Steps16, Xor16;
    StepsLinear16(u, v, 8);
    StepsHigh16(v);
  }

  lemma XorCancel16(x: bv16, y: bv16, z: bv16)
    requires Xor16(x, z) == Xor16(y, z) || Xor16(z, x) == Xor16(z, y)
    ensures x == y
  {
  }

  lemma XorAssoc16(x: bv16, y: bv16, z: bv16)
    ensures Xor16(Xor16(x, y), z) == Xor16(x, Xor16(y, z))
  {
  }

  // ----- runs over sequences ------------------------------------------------

  lemma {:induction false} RunAppend16(init: bv16, p: seq<byte>, q: seq<byte>)
    ensures Run16(init, p + q) == Run16(Run16(init, p), q)
  {
    hide Update16;
    if q == [] {
      assert p + q == p;
    } else {
      RunAppend16(init, p, q[..|q| - 1]);
      assert (p + q)[..|p + q| - 1] == p + q[..|q| - 1];
    }
  }

  lemma {:induction false} RunInjective16(a: bv16, b: bv16, q: seq<byte>)
    requires Run16(a, q) == Run16(b, q)
    ensures a == b
  {
    hide Steps16, Xor16;
    if q != [] {
      var a', b' := Run16(a, q[..|q| - 1]), Run16(b, q[..|q| - 1]);
      var c := q[|q| - 1] as bv16;
      StepsInjective16(Xor16(a', c), Xor16(b', c), 8);
      XorCancel16(a', b', c);
      RunInjective16(a, b, q[..|q| - 1]);
    }
  }

  lemma ShiftXor32(x: bv32, y: bv32)
    ensures Shift32(Xor32(x, y)) == Xor32(Shift32(x), Shift32(y))
  {
    hide Shift32;
    ShiftLinear32(x, y);
  }

  lemma {:induction false} StepsLinear32(x: bv32, y: bv32, n: nat)
    ensures Steps32(Xor32(x, y), n) == Xor32(Steps32(x, n), Steps32(y, n))
    decreases n
  {
    hide Shift32, Xor32;
    if n > 0 {
      StepsLinear32(x, y, n - 1);
      ShiftXor32(Steps32(x, n - 1), Steps32(y, n - 1));
    }
  }

  /** The generator has its top bit set, so a shift step loses nothing. */
  lemma ShiftInjective32(x: bv32, y: bv32)
    requires Shift32(x) == Shift32(y)
    ensures x == y
  {
  }

  lemma {:induction false} StepsInjective32(x: bv32, y: bv32, n: nat)
    requires Steps32(x, n) == Steps32(y, n)
    ensures x == y
    decreases n
  {
    hide Shift32;
    if n > 0 {
      ShiftInjective32(Steps32(x, n - 1), Steps32(y, n - 1));
      StepsInjective32(x, y, n - 1);
    }
  }

  lemma EightShifts32(x: bv32)
    ensures Steps32(x, 8) == Shift32(Shift32(Shift32(Shift32(Shift32(Shift32(Shift32(Shift32(x))))))))
  {
    hide Shift32;
    assert Steps32(x, 4) == Shift32(Shift32(Shift32(Shift32(x))));
  }

  /** Eight steps on a register whose low byte is clear are a plain shift. */
  lemma StepsHigh32(x: bv32)
    requires x & 0xff == 0
    ensures Steps32(x, 8) == x >> 8
  {
    hide Steps32;
    EightShifts32(x);
  }

  lemma Halves32(x: bv32)
    ensures x == Xor32(x & 0xff, x & !0xff)
    ensures (x & !0xff) & 0xff == 0
    ensures (x & !0xff) >> 8 == x >> 8
  {
  }

  /** The byte-wise step of the program (shift by eight, xor a table entry that
      depends on the low byte only) is eight bit-serial steps. */
  lemma ByteStep32(x: bv32)
    ensures Steps32(x, 8) == Xor32(Steps32(x & 0xff, 8), x >> 8)
  {
    hide Shift32, Steps32, Xor32;
    Halves32(x);
    HalfSteps32(x, x & 0xff, x & !0xff, x >> 8);
  }

  lemma HalfSteps32(x: bv32, lo: bv32, hi: bv32, rest: bv32)
    requires x == Xor32(lo, hi) && hi & 0xff == 0 && hi >> 8 == rest
    ensures Steps32(x, 8) == Xor32(Steps32(lo, 8), rest)
  {
    hide Shift32, Steps32, Xor32;
    StepsLinear32(lo, hi, 8);
    StepsHigh32(hi);
  }

  /** A byte about to be fed can be moved back through eight earlier steps. */
  lemma Absorb32(u: bv32, v: bv32)
    requires v & 0xff == 0
    ensures Xor32(Steps32(u, 8), v >> 8) == Steps32(Xor32(u, v), 8)
  {
    hide Shift32, Steps32, Xor32;
    StepsLinear32(u, v, 8);
    StepsHigh32(v);
  }

  lemma XorCancel32(x: bv32, y: bv32, z: bv32)
    requires Xor32(x, z) == Xor32(y, z) || Xor32(z, x) == Xor32(z, y)
    ensures x == y
  {
  }

  lemma XorAssoc32(x: bv32, y: bv32, z: bv32)
    ensures Xor32(Xor32(x, y), z) == Xor32(x, Xor32(y, z))
  {
  }

  lemma {:induction false} RunAppend32(init: bv32, p: seq<byte>, q: seq<byte>)
    ensures Run32(init, p + q) == Run32(Run32(init, p), q)
  {
    hide Update32;
    if q == [] {
      assert p + q == p;
    } else {
      RunAppend32(init, p, q[..|q| - 1]);
      assert (p + q)[..|p + q| - 1] == p + q[..|q| - 1];
    }
  }

  lemma {:induction false} RunInjective32(a: bv32, b: bv32, q: seq<byte>)
    requires Run32(a, q) == Run32(b, q)
    ensures a == b
  {
    hide Steps32, Xor32;
    if q != [] {
      var a', b' := Run32(a, q[..|q| - 1]), Run32(b, q[..|q| - 1]);
      var c := q[|q| - 1] as bv32;
      StepsInjective32(Xor32(a', c), Xor32(b', c), 8);
      XorCancel32(a', b', c);
      RunInjective32(a, b, q[..|q| - 1]);
    }
  }

  // ----- a register's width of bytes enters as one word ---------------------

  lemma TwoBytes16(x: bv16, a: byte, b: byte)
    ensures Run16(x, [a, b]) == Steps16(Steps16(Xor16(x, Join16(a, b)), 8), 8)
  {
    hide Shift16, Steps16, Xor16, Join16;
    assert [a, b][..1] == [a] && [a][..0] == [];
    var (a0, b0, b1) := (a as bv16, b as bv16, (b as bv16) << 8);
    assert Run16(x, [a]) == Steps16(Xor16(x, a0), 8);
    Placed16(a, b);
    Absorb16(Xor16(x, a0), b1);
    XorAssoc16(x, a0, b1);
  }

  lemma Placed16(a: byte, b: byte)
    ensures ((b as bv16) << 8) >> 8 == b as bv16 && ((b as bv16) << 8) & 0xff == 0
    ensures Xor16(a as bv16, (b as bv16) << 8) == Join16(a, b)
  {
  }

  lemma JoinInjective16(a: byte, b: byte, c: byte, d: byte)
    requires Join16(a, b) == Join16(c, d)
    ensures a == c && b == d
  {
    assert forall u: byte, v: byte {:trigger Join16(u, v)} ::
        Join16(u, v) & 0xff == u as bv16 && (Join16(u, v) >> 8) & 0xff == v as bv16;
  }

  lemma TwoBytesInjective16(x: bv16, e: seq<byte>, f: seq<byte>)
    requires |e| == |f| == 2 && Run16(x, e) == Run16(x, f)
    ensures e == f
  {
    hide Shift16, Steps16, Xor16, Run16, Join16;
    assert e == [e[0], e[1]] && f == [f[0], f[1]];
    TwoBytes16(x, e[0], e[1]);
    TwoBytes16(x, f[0], f[1]);
    var (u, v) := (Xor16(x, Join16(e[0], e[1])), Xor16(x, Join16(f[0], f[1])));
    StepsInjective16(Steps16(u, 8), Steps16(v, 8), 8);
    StepsInjective16(u, v, 8);
    XorCancel16(Join16(e[0], e[1]), Join16(f[0], f[1]), x);
    JoinInjective16(e[0], e[1], f[0], f[1]);
  }

  lemma FourBytes32(x: bv32, a: byte, b: byte, c: byte, d: byte)
    ensures Run32(x, [a, b, c, d]) ==
            Steps32(Steps32(Steps32(Steps32(Xor32(x, Join32(a, b, c, d)), 8), 8), 8), 8)
  {
    hide Shift32, Steps32, Xor32, Join32;
    FourRuns32(x, a, b, c, d);
    Placed32(a, b, c, d);
    FourWords32(x, a as bv32, b as bv32, (b as bv32) << 8, c as bv32, (c as bv32) << 8, (c as bv32) << 16,
                d as bv32, (d as bv32) << 8, (d as bv32) << 16, (d as bv32) << 24);
  }

  lemma FourRuns32(x: bv32, a: byte, b: byte, c: byte, d: byte)
    ensures Run32(x, [a, b, c, d]) ==
            Steps32(Xor32(Steps32(Xor32(Steps32(Xor32(Steps32(Xor32(x, a as bv32), 8), b as bv32), 8), c as bv32), 8),
              d as bv32), 8)
  {
    hide Steps32, Xor32, Update32;
    assert [a, b, c, d][..3] == [a, b, c] && [a, b, c][..2] == [a, b] && [a, b][..1] == [a] && [a][..0] == [];
    assert Run32(x, [a]) == Update32(x, a);
    assert Run32(x, [a, b]) == Update32(Run32(x, [a]), b);
    assert Run32(x, [a, b, c]) == Update32(Run32(x, [a, b]), c);
    FourUpdates32(x, a, b, c, d);
  }

  lemma FourUpdates32(x: bv32, a: byte, b: byte, c: byte, d: byte)
    ensures Update32(Update32(Update32(Update32(x, a), b), c), d) ==
            Steps32(Xor32(Steps32(Xor32(Steps32(Xor32(Steps32(Xor32(x, a as bv32), 8), b as bv32), 8), c as bv32), 8),
              d as bv32), 8)
  {
    hide Steps32, Xor32;
  }

  /** `b1`, `c2`, `d3` are `b`, `c`, `d` moved up by one, two and three bytes. */
  lemma FourWords32(x: bv32, a: bv32, b: bv32, b1: bv32, c: bv32, c1: bv32, c2: bv32,
                    d: bv32, d1: bv32, d2: bv32, d3: bv32)
    requires b1 & 0xff == c1 & 0xff == c2 & 0xff == d1 & 0xff == d2 & 0xff == d3 & 0xff == 0
    requires b1 >> 8 == b && c2 >> 8 == c1 && c1 >> 8 == c && d3 >> 8 == d2 && d2 >> 8 == d1 && d1 >> 8 == d
    ensures Steps32(Xor32(Steps32(Xor32(Steps32(Xor32(Steps32(Xor32(x, a), 8), b), 8), c), 8), d), 8) ==
            Steps32(Steps32(Steps32(Steps32(Xor32(x, Xor32(Xor32(Xor32(a, b1), c2), d3)), 8), 8), 8), 8)
  {
    hide Shift32, Steps32, Xor32;
    var u := Xor32(x, a);
    Absorb32(u, b1);
    var v := Xor32(u, b1);
    Absorb32(Steps32(v, 8), c1);
    Absorb32(v, c2);
    var w := Xor32(v, c2);
    Absorb32(Steps32(Steps32(w, 8), 8), d1);
    Absorb32(Steps32(w, 8), d2);
    Absorb32(w, d3);
    XorAssoc32(x, a, b1);
    XorAssoc32(x, Xor32(a, b1), c2);
    XorAssoc32(x, Xor32(Xor32(a, b1), c2), d3);
  }

  lemma Placed32(a: byte, b: byte, c: byte, d: byte)
    ensures ((b as bv32) << 8) >> 8 == b as bv32 && ((b as bv32) << 8) & 0xff == 0
    ensures ((c as bv32) << 16) >> 8 == (c as bv32) << 8 && ((c as bv32) << 16) & 0xff == 0
    ensures ((c as bv32) << 8) >> 8 == c as bv32 && ((c as bv32) << 8) & 0xff == 0
    ensures ((d as bv32) << 24) >> 8 == (d as bv32) << 16 && ((d as bv32) << 24) & 0xff == 0
    ensures ((d as bv32) << 16) >> 8 == (d as bv32) << 8 && ((d as bv32) << 16) & 0xff == 0
    ensures ((d as bv32) << 8) >> 8 == d as bv32 && ((d as bv32) << 8) & 0xff == 0
    ensures Xor32(Xor32(Xor32(a as bv32, (b as bv32) << 8), (c as bv32) << 16), (d as bv32) << 24) == Join32(a, b, c, d)
  {
  }

  lemma JoinBytes32(a: byte, b: byte, c: byte, d: byte)
    ensures Join32(a, b, c, d) & 0xff == a as bv32
    ensures (Join32(a, b, c, d) >> 8) & 0xff == b as bv32
    ensures (Join32(a, b, c, d) >> 16) & 0xff == c as bv32
    ensures (Join32(a, b, c, d) >> 24) & 0xff == d as bv32
  {
  }

  lemma JoinInjective32(e: seq<byte>, f: seq<byte>)
    requires |e| == |f| == 4 && Join32(e[0], e[1], e[2], e[3]) == Join32(f[0], f[1], f[2], f[3])
    ensures e == f
  {
    hide Join32;
    JoinBytes32(e[0], e[1], e[2], e[3]);
    JoinBytes32(f[0], f[1], f[2], f[3]);
  }

  lemma FourBytesInjective32(x: bv32, e: seq<byte>, f: seq<byte>)
    requires |e| == |f| == 4 && Run32(x, e) == Run32(x, f)
    ensures e == f
  {
    hide Shift32, Steps32, Xor32, Run32, Join32;
    assert e == [e[0], e[1], e[2], e[3]] && f == [f[0], f[1], f[2], f[3]];
    FourBytes32(x, e[0], e[1], e[2], e[3]);
    FourBytes32(x, f[0], f[1], f[2], f[3]);
    var (j, k) := (Join32(e[0], e[1], e[2], e[3]), Join32(f[0], f[1], f[2], f[3]));
    var (u, v) := (Xor32(x, j), Xor32(x, k));
    StepsInjective32(Steps32(Steps32(Steps32(u, 8), 8), 8), Steps32(Steps32(Steps32(v, 8), 8), 8), 8);
    StepsInjective32(Steps32(Steps32(u, 8), 8), Steps32(Steps32(v, 8), 8), 8);
    StepsInjective32(Steps32(u, 8), Steps32(v, 8), 8);
    StepsInjective32(u, v, 8);
    XorCancel32(j, k, x);
    JoinInjective32(e, f);
  }

  // ----- burst detection ----------------------------------------------------

  /** A corruption of a valid block confined to two adjacent bytes is always
      seen, wherever it lies and however long the block is. */
  lemma Burst16(block: seq<byte>, other: seq<byte>, k: nat)
    requires |block| == |other| && k + 2 <= |block|
    requires block[..k] == other[..k] && block[k + 2..] == other[k + 2..]
    requires Valid16(block) && block != other
    ensures !Valid16(other)
  {
    hide Run16;
    if Valid16(other) {
      var (p, e, f, q) := (block[..k], block[k..k + 2], other[k..k + 2], block[k + 2..]);
      assert block == p + e + q && other == p + f + q;
      RunAppend16(0xffff, p + e, q);
      RunAppend16(0xffff, p + f, q);
      RunInjective16(Run16(0xffff, p + e), Run16(0xffff, p + f), q);
      RunAppend16(0xffff, p, e);
      RunAppend16(0xffff, p, f);
      TwoBytesInjective16(Run16(0xffff, p), e, f);
      assert false;
    }
  }

  /** The same for CRC-32 and four adjacent bytes. */
  lemma Burst32(block: seq<byte>, other: seq<byte>, k: nat)
    requires |block| == |other| && k + 4 <= |block|
    requires block[..k] == other[..k] && block[k + 4..] == other[k + 4..]
    requires Valid32(block) && block != other
    ensures !Valid32(other)
  {
    hide Run32;
    if Valid32(other) {
      var (p, e, f, q) := (block[..k], block[k..k + 4], other[k..k + 4], block[k + 4..]);
      assert block == p + e + q && other == p + f + q;
      RunAppend32(0xffffffff, p + e, q);
      RunAppend32(0xffffffff, p + f, q);
      RunInjective32(Run32(0xffffffff, p + e), Run32(0xffffffff, p + f), q);
      RunAppend32(0xffffffff, p, e);
      RunAppend32(0xffffffff, p, f);
      FourBytesInjective32(Run32(0xffffffff, p), e, f);
      assert false;
    }
  }

  // ----- residue ------------------------------------------------------------

  lemma Complement(c: bv16, d: bv32)
    ensures Xor16(c, Join16((!c & 0xff) as byte, ((!c >> 8) & 0xff) as byte)) == 0xffff
    ensures Xor32(d, Join32((!d & 0xff) as byte, ((!d >> 8) & 0xff) as byte, ((!d >> 16) & 0xff) as byte,
            ((!d >> 24) & 0xff) as byte)) == 0xffffffff
  {
  }

  lemma Constants()
    ensures Steps16(Steps16(0xffff, 8), 8) == RESIDUE16
    ensures Steps32(Steps32(Steps32(Steps32(0xffffffff, 8), 8), 8), 8) == RESIDUE32
  {
  }

  lemma Residue(c: bv16, d: bv32)
    ensures Run16(c, Bytes16(!c)) == RESIDUE16
    ensures Run32(d, Bytes32(!d)) == RESIDUE32
  {
    hide Run16, Run32, Steps16, Steps32, Xor16, Xor32, Join16, Join32;
    TwoBytes16(c, (!c & 0xff) as byte, ((!c >> 8) & 0xff) as byte);
    FourBytes32(d, (!d & 0xff) as byte, ((!d >> 8) & 0xff) as byte, ((!d >> 16) & 0xff) as byte,
      ((!d >> 24) & 0xff) as byte);
    Complement(c, d);
    Constants();
  }

  lemma Checked16(s: seq<byte>, c: bv16)
    requires c == Run16(0xffff, s)
    ensures Run16(0xffff, s + Bytes16(!c)) == RESIDUE16
  {
    hide *;
    RunAppend16(0xffff, s, Bytes16(!c));
    Residue(c, 0);
  }

  lemma Checked32(s: seq<byte>, c: bv32)
    requires c == Run32(0xffffffff, s)
    ensures Run32(0xffffffff, s + Bytes32(!c)) == RESIDUE32
  {
    hide *;
    RunAppend32(0xffffffff, s, Bytes32(!c));
    Residue(0, c);
  }

  /** Every block a sender completes with its check bytes passes the receiver's
      test, whatever the data. */
  lemma CheckedIsValid(s: seq<byte>)
    ensures Valid16(s + Check16(s)) && Valid32(s + Check32(s))
  {
    hide Run16, Run32, Bytes16, Bytes32;
    Checked16(s, Crc16(s));
    Checked32(s, Crc32(s));
  }

  // ----- the tables of the program ------------------------------------------

  lemma Index(x: bv16, y: bv32)
    requires x < 256 && y < 256
    ensures 0 <= x as int < 256 && (x as int) as bv16 == x
    ensures 0 <= y as int < 256 && (y as int) as bv32 == y
  {
  }

  /** Where the program looks in its table, and what it keeps of the register. */
  function TableIndex16(crc: bv16, c: byte): bv16 { (crc ^ (c as bv16)) & 0xff }

  function Kept16(crc: bv16): bv16 { (crc >> 8) & 0x00ff }

  function LowByte16(x: bv16): bv16 { x & 0xff }

  function Above16(x: bv16): bv16 { x >> 8 }

  lemma TableOperands16(crc: bv16, c: byte)
    ensures TableIndex16(crc, c) == LowByte16(Xor16(crc, c as bv16))
    ensures Kept16(crc) == Above16(Xor16(crc, c as bv16))
  {
  }

  lemma ByteStepParts16(x: bv16)
    ensures Steps16(x, 8) == Xor16(Steps16(LowByte16(x), 8), Above16(x))
  {
    hide Steps16, Xor16;
    ByteStep16(x);
  }

  /** The table step of the program is the bit-serial step. */
  lemma TableStep16(crc: bv16, c: byte)
    ensures Update16(crc, c) == Xor16(Steps16(TableIndex16(crc, c), 8), Kept16(crc))
  {
    hide Steps16, Xor16, TableIndex16, Kept16, LowByte16, Above16;
    TableOperands16(crc, c);
    ByteStepParts16(Xor16(crc, c as bv16));
  }

  /** Where the program looks in its table, and what it keeps of the register. */
  function TableIndex32(crc: bv32, c: byte): bv32 { (crc ^ (c as bv32)) & 0xff }

  function Kept32(crc: bv32): bv32 { (crc >> 8) & 0x00ffffff }

  function LowByte32(x: bv32): bv32 { x & 0xff }

  function Above32(x: bv32): bv32 { x >> 8 }

  lemma TableOperands32(crc: bv32, c: byte)
    ensures TableIndex32(crc, c) == LowByte32(Xor32(crc, c as bv32))
    ensures Kept32(crc) == Above32(Xor32(crc, c as bv32))
  {
  }

  lemma ByteStepParts32(x: bv32)
    ensures Steps32(x, 8) == Xor32(Steps32(LowByte32(x), 8), Above32(x))
  {
    hide Steps32, Xor32;
    ByteStep32(x);
  }

  /** The table step of the program is the bit-serial step. */
  lemma TableStep32(crc: bv32, c: byte)
    ensures Update32(crc, c) == Xor32(Steps32(TableIndex32(crc, c), 8), Kept32(crc))
  {
    hide Steps32, Xor32, TableIndex32, Kept32, LowByte32, Above32;
    TableOperands32(crc, c);
    ByteStepParts32(Xor32(crc, c as bv32));
  }

  function Entry16(i: nat): bv16
    requires i < 256
  {
    Steps16(i as bv16, 8)
  }

  function Entry32(i: nat): bv32
    requires i < 256
  {
    Steps32(i as bv32, 8)
  }

  lemma EntryAt(x: bv16, y: bv32)
    requires x < 256 && y < 256
    ensures 0 <= x as int < 256 && Entry16(x as int) == Steps16(x, 8)
    ensures 0 <= y as int < 256 && Entry32(y as int) == Steps32(y, 8)
  {
    hide Steps16, Steps32;
    Index(x, y);
  }

  /** crc16tab and crc32tab. */
  class Tables {
    const tab16: array<bv16>
    const tab32: array<bv32>

    ghost predicate Valid()
      reads this, tab16, tab32
    {
      && tab16.Length == tab32.Length == 256
      && (forall i | 0 <= i < 256 :: tab16[i] == Entry16(i))
      && (forall i | 0 <= i < 256 :: tab32[i] == Entry32(i))
    }

    constructor ()
      ensures Valid() && fresh(tab16) && fresh(tab32)
    {
      hide Entry16, Entry32;
      tab16 := new bv16[256];
      tab32 := new bv32[256];
      new;
      var i := 0;
      while i < 256
        invariant 0 <= i <= 256
        invariant forall k | 0 <= k < i :: tab16[k] == Entry16(k)
        invariant forall k | 0 <= k < i :: tab32[k] == Entry32(k)
      {
        tab16[i], tab32[i] := Entry(i);
        i := i + 1;
      }
    }

    static method Entry(i: nat) returns (crc16: bv16, crc32: bv32)
      requires i < 256
      ensures crc16 == Entry16(i) && crc32 == Entry32(i)
    {
      hide Steps16, Steps32;
      crc16, crc32 := EightSteps(i as bv16, i as bv32);
    }

    static method EightSteps(i16: bv16, i32: bv32) returns (crc16: bv16, crc32: bv32)
      ensures crc16 == Steps16(i16, 8) && crc32 == Steps32(i32, 8)
    {
      crc16, crc32 := i16, i32;
      var j := 8;
      while j > 0
        invariant 0 <= j <= 8
        invariant crc16 == Steps16(i16, 8 - j) && crc32 == Steps32(i32, 8 - j)
      {
        hide Shift16, Shift32;
        crc16, crc32 := OneStep(crc16, crc32);
        j := j - 1;
      }
    }

    static method OneStep(i16: bv16, i32: bv32) returns (crc16: bv16, crc32: bv32)
      ensures crc16 == Shift16(i16) && crc32 == Shift32(i32)
    {
      if i16 & 1 == 1 {
        crc16 := (i16 >> 1) ^ POLY16;
      } else {
        crc16 := i16 >> 1;
      }
      if i32 & 1 == 1 {
        crc32 := (i32 >> 1) ^ POLY32;
      } else {
        crc32 := i32 >> 1;
      }
    }

    method Block16(buf: seq<byte>) returns (crc: bv16)
      requires Valid()
      ensures crc == Crc16(buf)
    {
      hide Update16;
      crc := 0xffff;
      var k := 0;
      while k < |buf|
        invariant 0 <= k <= |buf| && crc == Run16(0xffff, buf[..k])
      {
        assert buf[..k + 1][..k] == buf[..k];
        crc := Lookup16(crc, buf[k]);
        k := k + 1;
      }
      assert buf[..k] == buf;
    }

    method Block32(buf: seq<byte>) returns (crc: bv32)
      requires Valid()
      ensures crc == Crc32(buf)
    {
      hide Update32;
      crc := 0xffffffff;
      var k := 0;
      while k < |buf|
        invariant 0 <= k <= |buf| && crc == Run32(0xffffffff, buf[..k])
      {
        assert buf[..k + 1][..k] == buf[..k];
        crc := Lookup32(crc, buf[k]);
        k := k + 1;
      }
      assert buf[..k] == buf;
    }

    /** h_updcrc16 and h_updcrc32. */
    method Lookup16(crc: bv16, c: byte) returns (r: bv16)
      requires Valid()
      ensures r == Update16(crc, c)
    {
      hide Update16, Steps16, Xor16, TableIndex16, Kept16;
      TableStep16(crc, c);
      var e := At16(crc, c);
      r := Xor16(e, Kept16(crc));
    }

    method Lookup32(crc: bv32, c: byte) returns (r: bv32)
      requires Valid()
      ensures r == Update32(crc, c)
    {
      hide Update32, Steps32, Xor32, TableIndex32, Kept32;
      TableStep32(crc, c);
      var e := At32(crc, c);
      r := Xor32(e, Kept32(crc));
    }

    method At16(crc: bv16, c: byte) returns (e: bv16)
      requires Valid()
      ensures e == Steps16(TableIndex16(crc, c), 8)
    {
      hide Steps16, Entry16;
      EntryAt(TableIndex16(crc, c), 0);
      hide TableIndex16;
      e := tab16[TableIndex16(crc, c) as int];
    }

    method At32(crc: bv32, c: byte) returns (e: bv32)
      requires Valid()
      ensures e == Steps32(TableIndex32(crc, c), 8)
    {
      hide Steps32, Entry32;
      EntryAt(0, TableIndex32(crc, c));
      hide TableIndex32;
      e := tab32[TableIndex32(crc, c) as int];
    }
  }
}
