/** rzfile, zsendfdata and getinsync as they are written: variables that each header,
    subpacket and timeout updates.  Every method is proved to do what the functions
    of ZmodemPeers do. */
module ZmodemMachine {
  import opened ZmodemPeers

  /** rzfile. */
  class Rz {
    var mode: Mode
    var rxbytes: nat
    var file: seq<byte>
    /** The tries that are left. */
    var n: int
    var status: Status
    var sent: seq<Item>

    ghost function State(): Receiver
      reads this
    {
      Receiver(mode, rxbytes, file, n, status)
    }

    constructor ()
      ensures State() == Fresh() && sent == [Header(ZRPOS, 0)]
    {
      mode, rxbytes, file, n, status := AtHeader, 0, [], RETRIES, Running;
      sent := [Header(ZRPOS, 0)];
    }

    method ZshHdr(kind: Kind, pos: nat)
      modifies this`sent
      ensures sent == old(sent) + [Header(kind, pos)]
    {
      sent := sent + [Header(kind, pos)];
    }

    /** One try less, and back to the top of the loop if there was one. */
    method Again() returns (ok: bool)
      modifies this
      ensures ok == (old(n) - 1 >= 0)
      ensures State() == Retry(old(State()), false).r && sent == old(sent) + Retry(old(State()), false).out
    {
      n := n - 1;
      ok := n >= 0;
      if ok {
        mode := AtHeader;
        ZshHdr(ZRPOS, rxbytes);
      } else {
        status := Failed;
      }
    }

    /** The switch over what zgethdr returns. */
    method TakeHeader(h: Heard) returns (discard: bool)
      requires h.GotHeader? || h.HeaderTimeout? || h.HeaderError?
      modifies this
      ensures var a := OnHeader(old(State()), h); State() == a.r && sent == old(sent) + a.out && discard == a.discard
    {
      discard := false;
      match h {
        case HeaderTimeout =>
          discard := Again();
        case HeaderError =>
          var ok := Again();
        case GotHeader(kind, pos) =>
          match kind {
            case ZNAK =>
              discard := Again();
            case ZFILE =>
              discard := true;
              mode := AtHeader;
              ZshHdr(ZRPOS, rxbytes);
            case ZEOF =>
              if pos == rxbytes {
                status := Complete;
              }
            case ZSKIP =>
              status := Skipped;
            case ZDATA =>
              if pos != rxbytes {
                var ok := Again();
              } else {
                mode := AtData;
              }
            case _ =>
              status := Failed;
          }
      }
    }

    /** The switch over what zrdata returns. */
    method TakeData(h: Heard)
      requires h.GotData? || h.DataTimeout? || h.DataError? || h.DataCancelled?
      modifies this
      ensures var a := OnData(old(State()), h); State() == a.r && sent == old(sent) + a.out
    {
      match h {
        case DataCancelled =>
          status := Failed;
        case DataTimeout =>
          var ok := Again();
        case DataError =>
          var ok := Again();
        case GotData(data, end) =>
          n := RETRIES;
          PutSec(data);
          rxbytes := rxbytes + |data|;
          match end {
            case ZCRCW =>
              ZshHdr(ZACK, rxbytes);
              mode := AtHeader;
            case ZCRCQ =>
              ZshHdr(ZACK, rxbytes);
            case ZCRCG =>
            case ZCRCE =>
              mode := AtHeader;
          }
      }
    }

    /** putsec in binary mode. */
    method PutSec(data: seq<byte>)
      modifies this`file
      ensures file == old(file) + data
    {
      if |data| > 0 {
        file := file + data;
      }
    }
  }

  /** zsendfile, zsendfdata and getinsync. */
  class Sz {
    const c: Setup
    var phase: Phase
    var txpos: nat
    var lrxpos: nat
    var lastsync: int
    var eofseen: bool
    var junk: nat
    var newcnt: int
    var txwcnt: int
    var errors: nat
    /** What was sent since the last flush, and whether there was one. */
    var sent: seq<Item>
    var flushed: bool

    ghost function State(): Sender
      reads this
    {
      Sender(phase, txpos, lrxpos, lastsync, eofseen, junk, newcnt, txwcnt, errors)
    }

    constructor (setup: Setup)
      ensures c == setup && phase == FileWait && txpos == 0 && !eofseen && sent == SendFile(setup)
    {
      c := setup;
      phase, txpos, lrxpos, lastsync, eofseen, junk, newcnt, txwcnt, errors := FileWait, 0, 0, 0, false, 0, 0, 0, 0;
      sent, flushed := SendFile(setup), false;
    }

    method Put(x: Item)
      modifies this`sent
      ensures sent == old(sent) + [x]
    {
      sent := sent + [x];
    }

    /** tcflush, and the empty subpacket that ends the frame. */
    method Flush()
      modifies this`sent, this`flushed
      ensures flushed && sent == [Sub([], ZCRCE)]
    {
      flushed := true;
      sent := [Sub([], ZCRCE)];
    }

    /** getinsync on one item: whether it returns, and with what. */
    method GetInSync(flag: bool, item: Item, timeout: bool) returns (k: Kind, back: bool)
      modifies this
      ensures flushed == old(flushed)
      ensures match ZmodemPeers.GetInSync(old(State()), c, flag, item, timeout)
              case Dead(s) => !back && State() == s && sent == old(sent)
              case More(s, out) => !back && State() == s && sent == old(sent) + out
              case Back(s, kind) => back && k == kind && State() == s && sent == old(sent)
    {
      k, back := ZCAN, true;
      if timeout {
        return;
      }
      if item.Header? && (item.kind == ZCAN || item.kind == ZABORT || item.kind == ZFIN) {
        return;
      }
      if item.Header? && item.kind == ZRPOS {
        if c.mapped {
          phase, back := Finished(Crashed), false;
          return;
        }
        eofseen := false;
        lrxpos, txpos := item.pos, item.pos;
        if lastsync == item.pos {
          errors := errors + 1;
        }
        lastsync := item.pos - 1;
        k := ZRPOS;
      } else if item.Header? && item.kind == ZACK {
        lrxpos := item.pos;
        k := ZACK;
        back := flag || txpos == item.pos;
      } else if item.Header? && (item.kind == ZRINIT || item.kind == ZSKIP) {
        k := item.kind;
      } else {
        errors := errors + 1;
        Put(Header(ZNAK, 0));
        back := false;
      }
    }

    method GotAck(k: Kind)
      modifies this`phase
      ensures State() == ZmodemPeers.GotAck(old(State()), k)
    {
      if k == ZACK || k == ZRPOS {
        phase := AckPoll;
      } else {
        phase := Finished(if k == ZRINIT then Okay else if k == ZSKIP then SkippedFile else Error);
      }
    }

    method NewFrame()
      modifies this
      ensures var m := ZmodemPeers.NewFrame(old(State()), c);
              State() == m.s && sent == old(sent) + m.out && flushed == old(flushed)
    {
      newcnt := c.rxbuflen;
      txwcnt := 0;
      Put(Header(ZDATA, txpos));
      phase := Framing;
    }

    /** The bytes for the next subpacket, and whether they are the last. */
    method Fill(blk: nat) returns (n: int)
      modifies this`eofseen
      ensures n == SubLength(old(State()), c, blk) && eofseen == LastSub(old(State()), c, blk)
    {
      if c.mapped {
        if txpos + blk < |c.file| {
          n := blk;
        } else {
          n := |c.file| - txpos;
          eofseen := true;
        }
      } else {
        n := ZFilBuf(blk);
      }
    }

    method ChooseEnd(n: int) returns (e: FrameEnd)
      modifies this`newcnt, this`txwcnt
      ensures (State(), e) == Ending(old(State()), c, n)
    {
      if junk > 3 {
        e := ZCRCW;
      } else if txpos == lastsync {
        e := ZCRCW;
      } else {
        if c.rxbuflen > 0 {
          newcnt := newcnt - n;
        }
        if c.rxbuflen > 0 && newcnt <= 0 {
          e := ZCRCW;
        } else if c.txwindow > 0 {
          txwcnt := txwcnt + n;
          if txwcnt >= c.txwspac {
            txwcnt := 0;
            e := ZCRCQ;
          } else {
            e := ZCRCG;
          }
        } else {
          e := ZCRCG;
        }
      }
    }

    /** The body of the loop that fills a frame. */
    method SendSub(blk: nat)
      modifies this
      ensures var m := ZmodemPeers.SendSub(old(State()), c, blk);
              State() == m.s && sent == old(sent) + m.out && flushed == old(flushed)
    {
      hide Ending, LastSub, SubLength;
      ghost var s := State();
      var n := Fill(blk);
      FitsFile(s, c, blk, n);
      var e := ZCRCE;
      if !eofseen {
        e := ChooseEnd(n);
      }
      Put(Sub(if n > 0 then c.file[txpos..txpos + n] else [], e));
      txpos := txpos + n;
      if e == ZCRCW {
        junk := 0;
        phase := AckWait;
      } else {
        phase := Polling(e);
      }
    }

    static lemma FitsFile(s: Sender, c: Setup, blk: nat, n: int)
      requires n == SubLength(s, c, blk)
      ensures 0 <= s.txpos + n && (n > 0 ==> s.txpos + n <= |c.file|)
      ensures s.eofseen ==> LastSub(s, c, blk)
    {
    }

    /** fread takes no more than there is, and a short read is the end of the file. */
    method ZFilBuf(blk: nat) returns (n: nat)
      modifies this`eofseen
      ensures n <= blk && (n > 0 ==> txpos + n <= |c.file|) && (n < blk ==> txpos + n >= |c.file|)
      ensures eofseen == (old(eofseen) || n < blk)
    {
      n := if |c.file| <= txpos then 0 else if blk < |c.file| - txpos then blk else |c.file| - txpos;
      if n < blk {
        eofseen := true;
      }
    }

    /** The window test, and the end of the loop. */
    method PollDone()
      requires phase.Polling? || phase.WindowWait?
      modifies this
      ensures var m := ZmodemPeers.PollDone(old(State()), c);
              State() == m.s && sent == old(sent) + m.out && flushed == old(flushed)
    {
      if c.txwindow > 0 && txpos - lrxpos >= c.txwindow {
        if phase.e != ZCRCQ {
          Put(Sub([], ZCRCQ));
        }
        phase := WindowWait(ZCRCQ);
      } else if eofseen {
        Put(Header(ZEOF, txpos));
        phase := EofWait;
      } else {
        phase := Framing;
      }
    }

    /** What this object did is the move `m` of the state it started from. */
    ghost predicate Did(m: Move, before: seq<Item>, wasFlushed: bool)
      reads this
    {
      && State() == m.s
      && (if m.flush then flushed && sent == m.out else flushed == wasFlushed && sent == before + m.out)
    }

    method Advance(blk: nat, isJunk: bool)
      modifies this
      ensures Did(ZmodemPeers.Advance(old(State()), c, blk, isJunk), old(sent), old(flushed))
    {
      hide ZmodemPeers.SendSub, ZmodemPeers.PollDone, ZmodemPeers.NewFrame;
      KeepsLine(State(), c, blk);
      match phase {
        case Framing =>
          SendSub(blk);
        case Polling(_) =>
          if isJunk {
            junk := junk + 1;
          } else {
            PollDone();
          }
        case AckPoll =>
          NewFrame();
        case _ =>
      }
    }

    static lemma KeepsLine(s: Sender, c: Setup, blk: nat)
      ensures !ZmodemPeers.SendSub(s, c, blk).flush && !ZmodemPeers.NewFrame(s, c).flush
      ensures s.phase.Polling? || s.phase.WindowWait? ==> !ZmodemPeers.PollDone(s, c).flush
    {
    }

    /** A header, a damaged item or a timeout, wherever the sender reads. */
    method Hear(item: Item, timeout: bool, more: bool)
      modifies this
      ensures Did(ZmodemPeers.Hear(old(State()), c, item, timeout, more), old(sent), old(flushed))
    {
      hide ZmodemPeers.GetInSync;
      match phase {
        case FileWait =>
          HearFile(item, timeout, more);
        case Polling(_) =>
          HearFrame(item, timeout, more);
        case WindowWait(_) =>
          HearFrame(item, timeout, more);
        case AckWait =>
          var k, back := GetInSync(false, item, timeout);
          if back {
            GotAck(k);
          }
        case AckPoll =>
          var k, back := GetInSync(true, item, timeout);
          if back {
            GotAck(k);
          }
        case EofWait =>
          HearEof(item, timeout, more);
        case _ =>
      }
    }

    method HearFile(item: Item, timeout: bool, more: bool)
      requires phase == FileWait
      modifies this
      ensures Did(ZmodemPeers.Hear(old(State()), c, item, timeout, more), old(sent), old(flushed))
    {
      if timeout {
        phase := Finished(Error);
        return;
      }
      if item.Header? {
        match item.kind {
          case ZRPOS =>
            txpos, lastsync, lrxpos, junk := item.pos, item.pos - 1, 0, 0;
            NewFrame();
            return;
          case ZSKIP =>
            phase := Finished(SkippedFile);
            return;
          case ZCAN | ZABORT | ZFIN =>
            phase := Finished(Error);
            return;
          case ZCRC =>
            Put(Header(ZCRC, 0));
            return;
          case ZRINIT =>
            if more {
              return;
            }
          case _ =>
        }
      }
      Put(Header(ZFILE, 0));
      Put(Sub(c.info, ZCRCW));
    }

    /** Inside a frame, anything but a ZACK ends it. */
    method HearFrame(item: Item, timeout: bool, more: bool)
      requires phase.Polling? || phase.WindowWait?
      modifies this
      ensures Did(ZmodemPeers.Hear(old(State()), c, item, timeout, more), old(sent), old(flushed))
    {
      hide ZmodemPeers.GetInSync;
      SamePhase(State(), c, item, timeout);
      ghost var s := State();
      var k, back := GetInSync(true, item, timeout);
      if back {
        if k != ZACK {
          Flush();
          GotAck(k);
        } else if phase.WindowWait? {
          PollDone();
        }
      }
    }

    static lemma SamePhase(s: Sender, c: Setup, item: Item, timeout: bool)
      ensures var m := ZmodemPeers.GetInSync(s, c, true, item, timeout); m.Dead? || m.s.phase == s.phase
    {
    }

    method HearEof(item: Item, timeout: bool, more: bool)
      requires phase == EofWait
      modifies this
      ensures Did(ZmodemPeers.Hear(old(State()), c, item, timeout, more), old(sent), old(flushed))
    {
      hide ZmodemPeers.GetInSync;
      var k, back := GetInSync(false, item, timeout);
      if back {
        match k {
          case ZACK =>
            Put(Header(ZEOF, txpos));
            phase := EofWait;
          case ZRPOS =>
            NewFrame();
          case ZRINIT =>
            phase := Finished(Okay);
          case ZSKIP =>
            phase := Finished(SkippedFile);
          case _ =>
            phase := Finished(Error);
        }
      }
    }
  }
}
