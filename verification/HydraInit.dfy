/** The INIT packet (hydracom/hydra.c, put_flags, get_flags and the two ends of the
    INIT exchange): what one side writes and what the other reads.

    get_flags takes its text apart with strtok, which writes a NUL over each comma,
    and the reader measures the text of the wanted options only after that.  So with
    two or more wanted options it finds the second one's name where it looks for the
    windows. */
module HydraInit {
  import opened HydraOptions

  const LONG := 0x8000_0000

  const COMMA := ','

  // ----- flags as text ------------------------------------------------------------

  /** h_flags. */
  const TABLE: seq<string> := ["XON", "TLN", "CTL", "HIC", "HI8", "BRK", "ASC", "UUE", "C32", "DEV", "FPT"]

  datatype Flag = XON | TLN | CTL | HIC | HI8 | BRK | ASC | UUE | C32 | DEV | FPT

  const FLAGS: seq<Flag> := [XON, TLN, CTL, HIC, HI8, BRK, ASC, UUE, C32, DEV, FPT]

  predicate IsSet(o: Options, f: Flag) {
    match f
    case XON => o.xonxoff
    case TLN => o.telenet
    case CTL => o.ctlchrs
    case HIC => o.highctl
    case HI8 => o.highbit
    case BRK => o.canbrk
    case ASC => o.canasc
    case UUE => o.canuue
    case C32 => o.crc32
    case DEV => o.device
    case FPT => o.fpt
  }

  function Set(o: Options, f: Flag): Options {
    match f
    case XON => o.(xonxoff := true)
    case TLN => o.(telenet := true)
    case CTL => o.(ctlchrs := true)
    case HIC => o.(highctl := true)
    case HI8 => o.(highbit := true)
    case BRK => o.(canbrk := true)
    case ASC => o.(canasc := true)
    case UUE => o.(canuue := true)
    case C32 => o.(crc32 := true)
    case DEV => o.(device := true)
    case FPT => o.(fpt := true)
  }

  predicate Has(o: Options, i: nat)
    requires i < 11
  {
    IsSet(o, FLAGS[i])
  }

  /** The bit map with flag `i` added, if there is one. */
  function With(o: Options, i: nat): Options { if i < 11 then Set(o, FLAGS[i]) else o }

  /** The names of those of the first `n` flags that are set. */
  function Names(o: Options, n: nat): seq<string>
    requires n <= 11
  {
    if n == 0 then [] else Names(o, n - 1) + if Has(o, n - 1) then [TABLE[n - 1]] else []
  }

  function Join(ns: seq<string>): string {
    if ns == [] then "" else if |ns| == 1 then ns[0] else ns[0] + "," + Join(ns[1..])
  }

  /** put_flags. */
  method PutFlags(o: Options) returns (buf: string)
    ensures buf == Join(Names(o, 11))
  {
    hide Has, Join;
    buf := "";
    var i := 0;
    JoinNone();
    while i < 11
      invariant 0 <= i <= 11
      invariant buf == Join(Names(o, i)) && (buf == "" <==> Names(o, i) == [])
    {
      assert Names(o, i) + [] == Names(o, i);
      if Has(o, i) {
        JoinSnoc(Names(o, i), TABLE[i]);
        if buf != "" {
          buf := buf + ",";
        }
        buf := buf + TABLE[i];
      }
      i := i + 1;
    }
  }

  lemma JoinNone()
    ensures Join([]) == ""
  {
  }

  lemma JoinFirst(ns: seq<string>)
    requires |ns| > 1
    ensures Join(ns) == ns[0] + "," + Join(ns[1..])
  {
  }

  lemma {:induction false} JoinSnoc(ns: seq<string>, s: string)
    ensures Join(ns + [s]) == if ns == [] then s else Join(ns) + "," + s
    decreases |ns|
  {
    if |ns| == 1 {
      assert (ns + [s])[1..] == [s];
    } else if |ns| > 1 {
      var t := Join(ns[1..]);
      JoinSnoc(ns[1..], s);
      JoinFirst(ns);
      JoinFirst(ns + [s]);
      hide Join;
      assert (ns + [s])[1..] == ns[1..] + [s];
      assert ns[0] + "," + (t + "," + s) == ns[0] + "," + t + "," + s;
    }
  }

  /** strtok with a comma: the text up to the next comma. */
  function UpToComma(s: string): (t: string)
    ensures |t| <= |s| && s[..|t|] == t && (|t| == |s| || s[|t|] == COMMA) && COMMA !in t
  {
    if s == [] || s[0] == COMMA then [] else [s[0]] + UpToComma(s[1..])
  }

  function Tokens(s: string): seq<string>
    decreases |s|
  {
    if s == [] then []
    else if s[0] == COMMA then Tokens(s[1..])
    else [UpToComma(s)] + Tokens(s[|UpToComma(s)|..])
  }

  /** Where a name stands in the table; 11 is nowhere. */
  function Find(t: string, i: nat): (k: nat)
    requires i <= 11
    ensures k <= 11
    decreases 11 - i
  {
    if i == 11 then 11 else if t == TABLE[i] then i else Find(t, i + 1)
  }

  function Collect(ts: seq<string>): Options {
    if ts == [] then NONE else With(Collect(ts[..|ts| - 1]), Find(ts[|ts| - 1], 0))
  }

  /** get_flags. */
  method GetFlags(buf: string) returns (val: Options)
    ensures val == Collect(Tokens(buf))
  {
    hide With, Find;
    val := NONE;
    var rest := buf;
    ghost var seen: seq<string> := [];
    assert [] + Tokens(buf) == Tokens(buf);
    while rest != ""
      invariant Tokens(buf) == seen + Tokens(rest) && val == Collect(seen)
      decreases |rest|
    {
      if rest[0] == COMMA {
        rest := rest[1..];
      } else {
        var p := UpToComma(rest);
        ghost var more := Tokens(rest[|p|..]);
        assert Tokens(rest) == [p] + more && seen + ([p] + more) == seen + [p] + more;
        assert (seen + [p])[..|seen|] == seen;
        val := With(val, Find(p, 0));
        seen := seen + [p];
        rest := rest[|p|..];
      }
    }
    assert seen + [] == seen;
  }

  predicate Word(s: string) { s != [] && COMMA !in s }

  lemma {:induction false} UpToCommaWord(w: string, r: string)
    requires COMMA !in w && (r == [] || r[0] == COMMA)
    ensures UpToComma(w + r) == w
    decreases |w|
  {
    if w == [] {
      assert w + r == r;
    } else {
      assert (w + r)[1..] == w[1..] + r;
      UpToCommaWord(w[1..], r);
    }
  }

  lemma {:induction false} TokensJoin(ns: seq<string>)
    requires forall i | 0 <= i < |ns| :: Word(ns[i])
    ensures Tokens(Join(ns)) == ns
    decreases |ns|
  {
    if ns != [] {
      var r := if |ns| == 1 then "" else "," + Join(ns[1..]);
      assert Join(ns) == ns[0] + r;
      UpToCommaWord(ns[0], r);
      assert Join(ns)[|ns[0]|..] == r;
      TokensJoin(ns[1..]);
      if |ns| > 1 {
        assert r[1..] == Join(ns[1..]);
      }
      assert [ns[0]] + ns[1..] == ns;
    }
  }

  /** Those of the first `n` flags. */
  function FirstOf(o: Options, n: nat): Options
    requires n <= 11
  {
    if n == 0 then NONE else if Has(o, n - 1) then With(FirstOf(o, n - 1), n - 1) else FirstOf(o, n - 1)
  }

  lemma TableWords(i: nat)
    requires i < 11
    ensures Word(TABLE[i]) && Find(TABLE[i], 0) == i
  {
    assert forall k | 0 <= k < 11 :: |TABLE[k]| == 3;
    assert Find(TABLE[i], i) == i;
    var k := i;
    while k > 0
      invariant 0 <= k <= i && Find(TABLE[i], k) == i
    {
      k := k - 1;
      Different(k, i);
    }
  }

  lemma Different(k: nat, i: nat)
    requires k < i < 11
    ensures TABLE[k] != TABLE[i]
  {
    var (x, y) := (TABLE[k], TABLE[i]);
    assert x[0] != y[0] || x[1] != y[1] || x[2] != y[2];
  }

  lemma {:induction false} CollectNames(o: Options, n: nat)
    requires n <= 11
    ensures Collect(Names(o, n)) == FirstOf(o, n) && forall i | 0 <= i < |Names(o, n)| :: Word(Names(o, n)[i])
    decreases n
  {
    hide Has, With, Find;
    if n > 0 {
      CollectNames(o, n - 1);
      TableWords(n - 1);
      var ns := Names(o, n - 1);
      assert ns + [] == ns && (ns + [TABLE[n - 1]])[..|ns|] == ns;
    }
  }

  lemma SetOne(o: Options, f: Flag, g: Flag)
    ensures IsSet(Set(o, f), g) <==> f == g || IsSet(o, g)
    ensures !IsSet(NONE, g)
  {
  }

  lemma {:induction false} FirstOfSet(o: Options, n: nat, g: Flag)
    requires n <= 11
    ensures IsSet(FirstOf(o, n), g) <==> g in FLAGS[..n] && IsSet(o, g)
    decreases n
  {
    hide IsSet, Set;
    if n == 0 {
      SetOne(o, g, g);
    } else {
      FirstOfSet(o, n - 1, g);
      assert FLAGS[..n] == FLAGS[..n - 1] + [FLAGS[n - 1]];
      SetOne(FirstOf(o, n - 1), FLAGS[n - 1], g);
    }
  }

  lemma EveryFlag(g: Flag)
    ensures g in FLAGS[..11]
  {
    assert FLAGS[..11] == FLAGS;
    match g {
      case XON => assert FLAGS[0] == g;
      case TLN => assert FLAGS[1] == g;
      case CTL => assert FLAGS[2] == g;
      case HIC => assert FLAGS[3] == g;
      case HI8 => assert FLAGS[4] == g;
      case BRK => assert FLAGS[5] == g;
      case ASC => assert FLAGS[6] == g;
      case UUE => assert FLAGS[7] == g;
      case C32 => assert FLAGS[8] == g;
      case DEV => assert FLAGS[9] == g;
      case FPT => assert FLAGS[10] == g;
    }
  }

  lemma FlagByFlag(o: Options)
    ensures o == Options(IsSet(o, XON), IsSet(o, TLN), IsSet(o, CTL), IsSet(o, HIC), IsSet(o, HI8), IsSet(o, BRK),
                         IsSet(o, ASC), IsSet(o, UUE), IsSet(o, C32), IsSet(o, DEV), IsSet(o, FPT))
  {
  }

  lemma SameFlags(a: Options, b: Options)
    requires forall g :: IsSet(a, g) == IsSet(b, g)
    ensures a == b
  {
    hide IsSet;
    FlagByFlag(a);
    FlagByFlag(b);
  }

  lemma FirstOfAll(o: Options)
    ensures FirstOf(o, 11) == o
  {
    hide IsSet, FirstOf;
    forall g ensures IsSet(FirstOf(o, 11), g) == IsSet(o, g) {
      FirstOfSet(o, 11, g);
      EveryFlag(g);
    }
    SameFlags(FirstOf(o, 11), o);
  }

  /** Every set of flags survives being written out and read back. */
  lemma FlagsRoundTrip(o: Options)
    ensures Collect(Tokens(Join(Names(o, 11)))) == o
  {
    hide Collect, Tokens, Join, FirstOf;
    CollectNames(o, 11);
    TokensJoin(Names(o, 11));
    FirstOfAll(o);
  }

  // ----- the windows -----------------------------------------------------------------

  function HexDigit(n: nat): char
    requires n < 16
  {
    "0123456789abcdef"[n]
  }

  predicate IsHex(c: char) { '0' <= c <= '9' || 'a' <= c <= 'f' || 'A' <= c <= 'F' }

  function HexValue(c: char): nat {
    if '0' <= c <= '9' then c as int - '0' as int
    else if 'a' <= c <= 'f' then c as int - 'a' as int + 10
    else if 'A' <= c <= 'F' then c as int - 'A' as int + 10
    else 0
  }

  /** printf %0kx of a number with at most `k` digits. */
  function PrintHex(n: nat, k: nat): (s: string)
    ensures |s| == k
  {
    if k == 0 then "" else PrintHex(n / 16, k - 1) + [HexDigit(n % 16)]
  }

  function ScanHex(s: string): nat {
    if s == "" then 0 else 16 * ScanHex(s[..|s| - 1]) + HexValue(s[|s| - 1])
  }

  function Power16(k: nat): nat { if k == 0 then 1 else 16 * Power16(k - 1) }

  /** How many of the first `max` characters are hexadecimal digits. */
  function Leading(s: string, max: nat): (n: nat)
    ensures n <= |s| && n <= max
  {
    if max == 0 || s == [] || !IsHex(s[0]) then 0 else 1 + Leading(s[1..], max - 1)
  }

  /** sscanf %08lx%08lx into two variables that hold 0. */
  function ScanTwo(s: string): (nat, nat) {
    var m := Leading(s, 8);
    var n := Leading(s[m..], 8);
    (ScanHex(s[..m]), if m == 0 then 0 else ScanHex(s[m..m + n]))
  }

  lemma DigitValue(n: nat)
    requires n < 16
    ensures HexValue(HexDigit(n)) == n && IsHex(HexDigit(n))
  {
  }

  lemma {:induction false} HexRoundTrip(n: nat, k: nat)
    requires n < Power16(k)
    ensures ScanHex(PrintHex(n, k)) == n
    decreases k
  {
    hide HexDigit, HexValue;
    if k > 0 {
      HexRoundTrip(n / 16, k - 1);
      DigitValue(n % 16);
      assert PrintHex(n, k)[..k - 1] == PrintHex(n / 16, k - 1);
    }
  }

  // ----- the payload --------------------------------------------------------------------

  const END: char := 0 as char

  /** Five texts, each with a NUL behind it. */
  function Payload(app: string, can: string, want: string, windows: string, prefix: string): string {
    app + [END] + (can + [END] + (want + [END] + (windows + [END] + (prefix + [END]))))
  }

  /** strlen. */
  function Length(s: string): (n: nat)
    ensures n <= |s|
  {
    if s == [] || s[0] == END then 0 else 1 + Length(s[1..])
  }

  function Text(s: string): string { s[..Length(s)] }

  /** Past a text and its NUL. */
  function Past(s: string): string { if Length(s) < |s| then s[Length(s) + 1..] else [] }

  /** What strtok leaves of a text: a NUL where each token ended. */
  function Chopped(s: string): (r: string)
    ensures |r| == |s|
    decreases |s|
  {
    if s == [] then []
    else if s[0] == COMMA then [COMMA] + Chopped(s[1..])
    else
      var t := UpToComma(s);
      if |t| == |s| then s else t + [END] + Chopped(s[|t| + 1..])
  }

  datatype InitInfo = InitInfo(can: Options, want: Options, txwindow: nat, rxwindow: nat, prefix: string)

  /** What the other side takes out of an INIT packet. */
  function Parse(s: string): InitInfo {
    var p := Past(s);
    var q := Past(p);
    var want := Collect(Tokens(Text(q)));
    var can := Collect(Tokens(Text(p)));
    var q' := Chopped(Text(q)) + q[Length(q)..];
    var p' := Past(q');
    var (tw, rw) := ScanTwo(Text(p'));
    InitInfo(can, want, tw, rw, Short(Text(Past(p'))))
  }

  const PKTPREFIX := 31

  /** strncpy into the prefix buffer. */
  function Short(s: string): string { if |s| <= PKTPREFIX then s else s[..PKTPREFIX] }

  predicate Clean(s: string) { END !in s }

  lemma {:induction false} TextOf(s: string, r: string)
    requires Clean(s)
    ensures Text(s + [END] + r) == s && Past(s + [END] + r) == r
    decreases |s|
  {
    var t := s + [END] + r;
    if s != [] {
      assert t[1..] == s[1..] + [END] + r;
      TextOf(s[1..], r);
      assert Length(t) == |s|;
    }
    assert Length(t) == |s|;
    assert t[..|s|] == s && t[|s| + 1..] == r;
  }

  lemma {:induction false} NamesClean(ns: seq<string>)
    requires forall i | 0 <= i < |ns| :: Clean(ns[i])
    ensures Clean(Join(ns))
    decreases |ns|
  {
    if |ns| > 1 {
      NamesClean(ns[1..]);
    }
  }

  lemma {:induction false} HexClean(n: nat, k: nat)
    ensures Clean(PrintHex(n, k))
    decreases k
  {
    if k > 0 {
      HexClean(n / 16, k - 1);
      DigitClean(n % 16);
      hide HexDigit;
    }
  }

  lemma DigitClean(n: nat)
    requires n < 16
    ensures HexDigit(n) != END
  {
  }

  lemma TableClean(o: Options, n: nat)
    requires n <= 11
    ensures forall i | 0 <= i < |Names(o, n)| :: Clean(Names(o, n)[i])
  {
    hide Has;
    if n > 0 {
      TableClean(o, n - 1);
      var t := TABLE[n - 1];
      assert |t| == 3 && t[0] != END && t[1] != END && t[2] != END;
    }
  }

  /** What is written into an INIT packet: what we can, what we want, our windows. */
  function Written(app: string, can: Options, want: Options, txwindow: nat, rxwindow: nat, prefix: string): string {
    Payload(app, Join(Names(can, 11)), Join(Names(want, 11)), PrintHex(txwindow, 8) + PrintHex(rxwindow, 8), prefix)
  }

  lemma FlagsClean(o: Options)
    ensures Clean(Join(Names(o, 11)))
  {
    hide Join;
    TableClean(o, 11);
    NamesClean(Names(o, 11));
  }

  lemma EightDigits()
    ensures Power16(8) == 0x1_0000_0000
  {
    assert Power16(2) == 256 && Power16(4) == 65536 && Power16(6) == 16777216;
  }

  lemma WindowsBack(tw: nat, rw: nat)
    requires tw < LONG && rw < LONG
    ensures var w := PrintHex(tw, 8) + PrintHex(rw, 8);
            Clean(w) && |w| == 16 && ScanHex(w[..8]) == tw && ScanHex(w[8..16]) == rw
  {
    EightDigits();
    HexRoundTrip(tw, 8);
    HexRoundTrip(rw, 8);
    HexClean(tw, 8);
    HexClean(rw, 8);
    hide PrintHex, ScanHex;
    var w := PrintHex(tw, 8) + PrintHex(rw, 8);
    assert w[..8] == PrintHex(tw, 8) && w[8..16] == PrintHex(rw, 8);
  }

  /** The windows as the other side reads them: with two or more wanted options, the
      name of the second one as a hexadecimal number. */
  function WindowsRead(want: Options, tw: nat, rw: nat): (nat, nat) {
    var ns := Names(want, 11);
    if |ns| < 2 then (tw, rw) else (ScanHex(ns[1][..Leading(ns[1], 8)]), 0)
  }

  lemma {:induction false} LeadingAll(s: string, r: string, max: nat)
    requires forall i | 0 <= i < |s| :: IsHex(s[i])
    requires |s| == max || (|s| < max && r == [])
    ensures Leading(s + r, max) == |s|
    decreases |s|
  {
    if s == [] {
      assert s + r == r;
    } else {
      assert (s + r)[1..] == s[1..] + r;
      LeadingAll(s[1..], r, max - 1);
    }
  }

  lemma {:induction false} PrintsDigits(n: nat, k: nat)
    ensures forall i | 0 <= i < k :: IsHex(PrintHex(n, k)[i])
    decreases k
  {
    if k > 0 {
      PrintsDigits(n / 16, k - 1);
      DigitValue(n % 16);
      hide IsHex, HexDigit;
    }
  }

  lemma WindowsScanned(tw: nat, rw: nat)
    requires tw < LONG && rw < LONG
    ensures ScanTwo(PrintHex(tw, 8) + PrintHex(rw, 8)) == (tw, rw)
  {
    WindowsBack(tw, rw);
    PrintsDigits(tw, 8);
    PrintsDigits(rw, 8);
    hide PrintHex, ScanHex, IsHex, Leading;
    var (a, b) := (PrintHex(tw, 8), PrintHex(rw, 8));
    LeadingAll(a, b, 8);
    LeadingAll(b, [], 8);
    assert (a + b)[8..] == b && b + [] == b;
  }

  /** No flag's name is all digits up to a second number: one number at most. */
  lemma NameScanned(o: Options, n: nat, i: nat)
    requires n <= 11 && i < |Names(o, n)|
    ensures var w := Names(o, n)[i]; ScanTwo(w) == (ScanHex(w[..Leading(w, 8)]), 0)
  {
    hide Has, ScanHex, IsHex, Leading;
    if i == |Names(o, n - 1)| {
      OneNumber(TABLE[n - 1]);
    } else {
      NameScanned(o, n - 1, i);
    }
  }

  lemma OneNumber(w: string)
    requires |w| == 3
    ensures ScanTwo(w) == (ScanHex(w[..Leading(w, 8)]), 0)
  {
    var m := Leading(w, 8);
    LeadingStops(w, 8);
    hide IsHex;
    assert w[m..] == [] || w[m..][0] == w[m];
    assert Leading(w[m..], 8) == 0 && ScanHex(w[m..m + 0]) == 0;
  }

  lemma {:induction false} LeadingStops(s: string, max: nat)
    requires |s| < max
    ensures var m := Leading(s, max); m == |s| || !IsHex(s[m])
    decreases |s|
  {
    if s != [] && IsHex(s[0]) {
      LeadingStops(s[1..], max - 1);
    }
  }

  /** strtok leaves a NUL for the comma behind the first name. */
  lemma ChoppedFirst(w: string, more: string)
    requires Word(w)
    ensures Chopped(w) == w
    ensures Chopped(w + "," + more) == w + [END] + Chopped(more)
  {
    hide UpToComma;
    UpToCommaWord(w, "");
    assert w + "" == w;
    var rest := "," + more;
    var s := w + "," + more;
    assert s == w + rest && s[0] == w[0];
    UpToCommaWord(w, rest);
    assert s[|w| + 1..] == more;
  }

  /** The text of one wanted option after strtok. */
  lemma ChoppedOne(ns: seq<string>, r: string)
    requires |ns| == 1 && Word(ns[0]) && Clean(ns[0])
    ensures var t := Chopped(Join(ns)) + [END] + r; Text(t) == ns[0] && Past(t) == r
  {
    hide Text, Past, Chopped, Word, Clean;
    ChoppedFirst(ns[0], "");
    TextOf(ns[0], r);
  }

  /** The text of several wanted options after strtok: its first name, and behind it
      the other names. */
  lemma ChoppedSeveral(ns: seq<string>, more: string, r: string)
    requires |ns| > 1 && Word(ns[0]) && Clean(ns[0]) && more == Chopped(Join(ns[1..]))
    ensures var t := Chopped(Join(ns)) + [END] + r; Text(t) == ns[0] && Past(t) == more + [END] + r
  {
    hide Text, Past, Chopped, Word, Clean;
    var w := ns[0];
    ChoppedFirst(w, Join(ns[1..]));
    var back := more + [END] + r;
    assert w + [END] + more + [END] + r == w + [END] + back;
    TextOf(w, back);
  }

  lemma NoNames(r: string)
    ensures Chopped(Join([])) + [END] + r == [END] + r && Text([END] + r) == "" && Past([END] + r) == r
  {
    assert ([END] + r)[1..] == r;
  }

  /** Where the reader looks for the windows. */
  lemma AfterWanted(want: Options, w: string, s4: string)
    requires Clean(w)
    ensures var ns := Names(want, 11);
            var p' := Past(Chopped(Join(ns)) + [END] + (w + [END] + s4));
            && (|ns| < 2 ==> p' == w + [END] + s4)
            && (|ns| >= 2 ==> Text(p') == ns[1])
  {
    var ns := Names(want, 11);
    TableClean(want, 11);
    CollectNames(want, 11);
    hide Text, Past, Chopped, Join, Names;
    var r := w + [END] + s4;
    if ns == [] {
      NoNames(r);
    } else if |ns| == 1 {
      ChoppedOne(ns, r);
    } else {
      var more := Chopped(Join(ns[1..]));
      ChoppedSeveral(ns, more, r);
      if |ns| == 2 {
        ChoppedOne(ns[1..], r);
      } else {
        ChoppedSeveral(ns[1..], Chopped(Join(ns[1..][1..])), r);
      }
    }
  }

  /** What is read of an INIT packet: the options as they were written, the windows
      as WindowsRead says, and with fewer than two wanted options the prefix too. */
  lemma InitIsRead(app: string, can: Options, want: Options, tw: nat, rw: nat, prefix: string)
    requires Clean(app) && Clean(prefix) && |prefix| <= PKTPREFIX && tw < LONG && rw < LONG
    ensures var i := Parse(Written(app, can, want, tw, rw, prefix));
            && i.can == can && i.want == want
            && (i.txwindow, i.rxwindow) == WindowsRead(want, tw, rw)
            && (|Names(want, 11)| < 2 ==> i.prefix == prefix)
  {
    hide Text, Past, Collect, Tokens, Join, Names, PrintHex, ScanHex, Clean, Chopped, ScanTwo, Length;
    var (a, b, w) := (Join(Names(can, 11)), Join(Names(want, 11)), PrintHex(tw, 8) + PrintHex(rw, 8));
    FlagsClean(can);
    FlagsClean(want);
    WindowsBack(tw, rw);
    WindowsScanned(tw, rw);
    FlagsRoundTrip(can);
    FlagsRoundTrip(want);
    var s4 := prefix + [END];
    var s3 := w + [END] + s4;
    var s2 := b + [END] + s3;
    var s1 := a + [END] + s2;
    TextOf(app, s1);
    TextOf(a, s2);
    TextOf(b, s3);
    LengthOf(b, s3);
    TextOf(w, s4);
    TextOf(prefix, []);
    assert prefix + [END] + [] == s4;
    assert s2[|b|..] == [END] + s3;
    assert Chopped(b) + ([END] + s3) == Chopped(b) + [END] + s3;
    AfterWanted(want, w, s4);
    if |Names(want, 11)| >= 2 {
      NameScanned(want, 11, 1);
    }
  }

  lemma LengthOf(s: string, r: string)
    requires Clean(s)
    ensures Length(s + [END] + r) == |s|
  {
    TextOf(s, r);
  }

  /** Two wanted options are enough to lose the windows, and with CTL as the second
      the reader takes its first letter for a window of 12 bytes. */
  lemma WindowsLost(tw: nat, rw: nat)
    ensures WindowsRead(NONE.(xonxoff := true, telenet := true), tw, rw) == (0, 0)
    ensures WindowsRead(NONE.(xonxoff := true, ctlchrs := true), tw, rw) == (12, 0)
  {
    TwoNames(NONE.(xonxoff := true, telenet := true), 1);
    TwoNames(NONE.(xonxoff := true, ctlchrs := true), 2);
    assert !IsHex(TABLE[1][0]) && IsHex(TABLE[2][0]) && !IsHex(TABLE[2][1]);
    assert Leading(TABLE[1], 8) == 0 && ScanHex(TABLE[1][..0]) == 0;
    assert TABLE[2][1..][0] == TABLE[2][1];
    assert Leading(TABLE[2], 8) == 1;
    assert TABLE[2][..1] == ['C'] && ['C'][..0] == [];
    assert ScanHex(['C']) == 16 * ScanHex([]) + 12;
  }

  lemma WindowsKept(tw: nat, rw: nat)
    ensures WindowsRead(NONE, tw, rw) == (tw, rw)
  {
    assert Names(NONE, 4) == Names(NONE, 8) == [];
    assert Names(NONE, 11) == [];
  }

  lemma TwoNames(o: Options, k: nat)
    requires o.xonxoff && (k == 1 || k == 2) && o == NONE.(xonxoff := true, telenet := k == 1, ctlchrs := k == 2)
    ensures Names(o, 11) == [TABLE[0], TABLE[k]]
  {
    assert Names(o, 1) == [TABLE[0]];
    assert Names(o, 2) == if k == 1 then [TABLE[0], TABLE[1]] else [TABLE[0]];
    assert Names(o, 3) == [TABLE[0], TABLE[k]];
    assert Names(o, 5) == Names(o, 3);
    assert Names(o, 7) == Names(o, 5);
    assert Names(o, 9) == Names(o, 7);
    assert Names(o, 11) == Names(o, 9);
  }
}
