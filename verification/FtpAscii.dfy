/** The ASCII type of the FTP server (ddftp/ddftpd.c, send_data and receive_data):
    line ends become CR LF on the way out and line feeds again on the way in. */
module FtpAscii {

  type byte = bv8

  const NUL: byte := 0
  const LF: byte := 10
  const CR: byte := 13

  // ----- the translations -----------------------------------------------------------

  /** A file as it goes out. */
  function Sent(f: seq<byte>): seq<byte> {
    if f == [] then [] else (if f[0] == LF then [CR, LF] else [f[0]]) + Sent(f[1..])
  }

  /** What comes in: the file, the line feeds without a carriage return, and the
      characters counted. */
  datatype Received = Received(file: seq<byte>, bareLfs: nat, count: nat) {
    function Put(s: seq<byte>): Received { this.(file := s + file) }

    function Counted(bare: bool): Received { Received(file, if bare then bareLfs + 1 else bareLfs, count + 1) }
  }

  /** The outer loop. */
  function Receive(w: seq<byte>): Received
    decreases |w|
  {
    if w == [] then Received([], 0, 0)
    else if w[0] == CR then AfterCr(w[1..]).Counted(false)
    else Receive(w[1..]).Put([w[0]]).Counted(w[0] == LF)
  }

  /** The inner loop, behind a carriage return. */
  function AfterCr(w: seq<byte>): Received
    decreases |w|
  {
    if w == [] then Received([CR], 0, 0)
    else if w[0] == LF then Receive(w[1..]).Put([LF])
    else if w[0] == NUL then Receive(w[1..]).Put([CR])
    else if w[0] == CR then AfterCr(w[1..]).Put([CR])
    else Receive(w[1..]).Put([CR, w[0]])
  }

  // ----- out and in again ---------------------------------------------------------------

  /** A NUL directly after a CR: the one thing the receiver takes for padding. */
  predicate CrNul(f: seq<byte>) { exists i | 0 <= i < |f| - 1 :: f[i] == CR && f[i + 1] == NUL }

  /** The file without such NULs. */
  function Unpadded(f: seq<byte>): seq<byte>
    decreases |f|
  {
    if f == [] then []
    else if |f| >= 2 && f[0] == CR && f[1] == NUL then [CR] + Unpadded(f[2..])
    else [f[0]] + Unpadded(f[1..])
  }

  lemma {:induction false} ReceivesBack(f: seq<byte>)
    ensures var r := Receive(Sent(f)); r.file == Unpadded(f) && r.bareLfs == 0
    ensures var r := AfterCr(Sent(f)); r.file == Unpadded([CR] + f) && r.bareLfs == 0
    decreases |f|
  {
    if f == [] {
      assert ([CR] + f)[1..] == [];
    } else {
      var (c, g) := (f[0], f[1..]);
      ReceivesBack(g);
      SentFirst(f);
      assert ([CR] + f)[1..] == f && ([CR] + f)[2..] == g;
      assert f == [c] + g;
      if c == LF {
        assert Sent(f)[1..] == [LF] + Sent(g) && Sent(f)[1..][1..] == Sent(g);
      } else {
        assert Sent(f)[1..] == Sent(g);
        if c != CR && c != NUL {
          assert [CR, c] + Unpadded(g) == [CR] + ([c] + Unpadded(g));
        }
        if c == CR {
          assert [CR] + g == f;
        }
      }
      UnpaddedFirst(f);
    }
  }

  lemma SentFirst(f: seq<byte>)
    requires f != []
    ensures Sent(f) == (if f[0] == LF then [CR, LF] else [f[0]]) + Sent(f[1..])
  {
  }

  lemma UnpaddedFirst(f: seq<byte>)
    requires f != []
    ensures f[0] != CR ==> Unpadded(f) == [f[0]] + Unpadded(f[1..])
    ensures Unpadded([CR] + f) == if f[0] == NUL then [CR] + Unpadded(f[1..]) else [CR] + Unpadded(f)
  {
    var g := [CR] + f;
    assert g[1..] == f && g[2..] == f[1..];
  }

  lemma {:induction false} UnpaddedSame(f: seq<byte>)
    ensures |Unpadded(f)| <= |f| && (|Unpadded(f)| == |f| <==> !CrNul(f))
    ensures !CrNul(f) ==> Unpadded(f) == f
    decreases |f|
  {
    if |f| >= 2 && f[0] == CR && f[1] == NUL {
      UnpaddedSame(f[2..]);
      hide Unpadded;
      assert CrNul(f);
    } else if f != [] {
      UnpaddedSame(f[1..]);
      CrNulTail(f);
      hide CrNul;
    }
  }

  lemma CrNulTail(f: seq<byte>)
    requires f != [] && !(|f| >= 2 && f[0] == CR && f[1] == NUL)
    ensures CrNul(f) <==> CrNul(f[1..])
  {
    var t := f[1..];
    if CrNul(t) {
      var i :| 0 <= i < |t| - 1 && t[i] == CR && t[i + 1] == NUL;
      assert f[i + 1] == CR && f[i + 2] == NUL;
    }
    if CrNul(f) {
      var i :| 0 <= i < |f| - 1 && f[i] == CR && f[i + 1] == NUL;
      assert t[i - 1] == CR && t[i] == NUL;
    }
  }

  /** A file that goes out and comes in again is the same exactly when it has no NUL
      directly after a CR, and no line feed is ever reported as bare. */
  lemma RoundTrip(f: seq<byte>)
    ensures Receive(Sent(f)).file == f <==> !CrNul(f)
    ensures Receive(Sent(f)).bareLfs == 0
  {
    ReceivesBack(f);
    UnpaddedSame(f);
  }

  /** On the line every line feed follows a carriage return of its own. */
  lemma {:induction false} NoBareLf(f: seq<byte>)
    ensures Sent(f) != [] ==> Sent(f)[0] != LF
    ensures forall i | 0 < i < |Sent(f)| && Sent(f)[i] == LF :: Sent(f)[i - 1] == CR
    decreases |f|
  {
    if f != [] {
      NoBareLf(f[1..]);
      var (h, t) := (if f[0] == LF then [CR, LF] else [f[0]], Sent(f[1..]));
      forall i | 0 < i < |Sent(f)| && Sent(f)[i] == LF ensures Sent(f)[i - 1] == CR {
        if i > |h| {
          assert Sent(f)[i] == t[i - |h|] && Sent(f)[i - 1] == t[i - |h| - 1];
        }
      }
    }
  }

  // ----- as they are written ----------------------------------------------------------------

  lemma SentNothing()
    ensures Sent([]) == []
  {
  }

  lemma SentOneMore(done: seq<byte>, f: seq<byte>, i: nat)
    requires i < |f|
    ensures done + Sent(f[i..]) == done + (if f[i] == LF then [CR, LF] else [f[i]]) + Sent(f[i + 1..])
  {
    hide Sent;
    SentFirst(f[i..]);
    assert f[i..][1..] == f[i + 1..];
  }

  /** The TYPE_A branch of send_data. */
  method SendData(instr: seq<byte>) returns (outstr: seq<byte>, byteCount: nat)
    ensures outstr == Sent(instr) && byteCount == |instr|
  {
    hide Sent;
    SentNothing();
    outstr, byteCount := [], 0;
    assert instr[0..] == instr && outstr + Sent(instr) == Sent(instr);
    while byteCount < |instr|
      invariant 0 <= byteCount <= |instr|
      invariant Sent(instr) == outstr + Sent(instr[byteCount..])
    {
      var c := instr[byteCount];
      ghost var before := outstr;
      SentOneMore(before, instr, byteCount);
      byteCount := byteCount + 1;
      if c == LF {
        outstr := outstr + [CR];
      }
      outstr := outstr + [c];
      assert outstr == before + if c == LF then [CR, LF] else [c];
    }
    assert instr[byteCount..] == [] && outstr + [] == outstr;
  }

  /** What has been received so far, with what is still to come. */
  function Done(file: seq<byte>, bareLfs: nat, count: nat, rest: Received): Received {
    Received(file + rest.file, bareLfs + rest.bareLfs, count + rest.count)
  }

  /** The TYPE_A branch of receive_data. */
  method ReceiveData(instr: seq<byte>) returns (outstr: seq<byte>, byteCount: nat, bareLfs: nat)
    ensures Received(outstr, bareLfs, byteCount) == Receive(instr)
  {
    hide Receive, AfterCr;
    outstr, byteCount, bareLfs := [], 0, 0;
    var i := 0;
    assert instr[0..] == instr && [] + Receive(instr).file == Receive(instr).file;
    while i < |instr|
      invariant 0 <= i <= |instr|
      invariant Done(outstr, bareLfs, byteCount, Receive(instr[i..])) == Receive(instr)
    {
      var c := instr[i];
      FirstChar(instr, i, outstr, bareLfs, byteCount);
      i := i + 1;
      byteCount := byteCount + 1;
      if c == LF {
        bareLfs := bareLfs + 1;
      }
      if c == CR {
        outstr, i := CarriageReturns(instr, i, outstr, bareLfs, byteCount);
      } else {
        outstr := outstr + [c];
      }
    }
    Nothing(instr);
    assert outstr + [] == outstr;
  }

  /** The inner loop: a run of carriage returns and the character that ends it. */
  method CarriageReturns(instr: seq<byte>, from: nat, before: seq<byte>, ghost bareLfs: nat, ghost count: nat)
    returns (outstr: seq<byte>, i: nat)
    requires from <= |instr|
    ensures from <= i <= |instr|
    ensures Done(outstr, bareLfs, count, Receive(instr[i..])) == Done(before, bareLfs, count, AfterCr(instr[from..]))
  {
    hide Receive, AfterCr;
    outstr, i := before, from;
    while true
      invariant from <= i <= |instr|
      invariant Done(outstr, bareLfs, count, AfterCr(instr[i..])) ==
                Done(before, bareLfs, count, AfterCr(instr[from..]))
      decreases |instr| - i
    {
      NextChar(instr, i, outstr, bareLfs, count);
      if i == |instr| {
        outstr := outstr + [CR];
        return;
      }
      var c := instr[i];
      i := i + 1;
      if c != LF {
        outstr := outstr + [CR];
        if c == NUL {
          return;
        }
      }
      if c != CR {
        outstr := outstr + [c];
        return;
      }
    }
  }

  lemma Nothing(w: seq<byte>)
    ensures Receive(w[|w|..]) == Received([], 0, 0)
  {
  }

  lemma FirstChar(w: seq<byte>, i: nat, file: seq<byte>, bareLfs: nat, count: nat)
    requires i < |w|
    ensures var (all, c) := (Done(file, bareLfs, count, Receive(w[i..])), w[i]);
            if c == CR then all == Done(file, bareLfs, count + 1, AfterCr(w[i + 1..]))
            else all == Done(file + [c], if c == LF then bareLfs + 1 else bareLfs, count + 1, Receive(w[i + 1..]))
  {
    hide AfterCr;
    assert w[i..][1..] == w[i + 1..];
    var r := Receive(w[i + 1..]).file;
    assert file + ([w[i]] + r) == file + [w[i]] + r;
  }

  lemma NextChar(w: seq<byte>, i: nat, file: seq<byte>, bareLfs: nat, count: nat)
    requires i <= |w|
    ensures var all := Done(file, bareLfs, count, AfterCr(w[i..]));
            if i == |w| then all == Done(file + [CR], bareLfs, count, Receive(w[i..]))
            else if w[i] == LF then all == Done(file + [LF], bareLfs, count, Receive(w[i + 1..]))
            else if w[i] == NUL then all == Done(file + [CR], bareLfs, count, Receive(w[i + 1..]))
            else if w[i] == CR then all == Done(file + [CR], bareLfs, count, AfterCr(w[i + 1..]))
            else all == Done(file + [CR] + [w[i]], bareLfs, count, Receive(w[i + 1..]))
  {
    if i < |w| {
      assert w[i..][1..] == w[i + 1..];
      var (r, s) := (Receive(w[i + 1..]).file, AfterCr(w[i + 1..]).file);
      hide Receive;
      assert file + ([LF] + r) == file + [LF] + r && file + ([CR] + r) == file + [CR] + r;
      assert file + ([CR] + s) == file + [CR] + s && file + ([CR, w[i]] + r) == file + [CR] + [w[i]] + r;
    } else {
      assert file + [CR] + [] == file + [CR];
    }
  }
}
