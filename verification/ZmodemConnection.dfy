/** A sender and a receiver as they are written and the lines between them.  Every state
    the two objects get into is a state of a run of ZmodemTransfer. */
module ZmodemConnection {
  import opened Reachability
  import opened ZmodemMachine
  import opened ZmodemPeers
  import opened ZmodemTransfer

  class Connection {
    const s: Sz
    const r: Rz
    /** From the sender to the receiver, and from the receiver to the sender. */
    var out: seq<Item>
    var back: seq<Item>
    ghost const start: System

    ghost function State(): System
      reads this, s, r
    {
      System(s.c, s.State(), r.State(), out, back)
    }

    ghost predicate Valid()
      reads this, s, r
    {
      Opening(start) && Reaches(Step, start, State())
    }

    /** What zsendfile and rzfile begin with is on the lines. */
    constructor (a: Sz, b: Rz)
      requires a.phase == FileWait && a.txpos == 0 && !a.eofseen && b.State() == Fresh()
      ensures Valid() && s == a && r == b && State() == start
    {
      s, r := a, b;
      out, back := SendFile(a.c), [Header(ZRPOS, 0)];
      start := System(a.c, a.State(), b.State(), SendFile(a.c), [Header(ZRPOS, 0)]);
      new;
      assert SendFile(a.c)[2..] == [];
      Here(Step, start);
    }

    /** The receiver has heard `h`; `rest` is still on its line. */
    method Reacting(h: Heard, rest: seq<Item>, drop: nat)
      requires Listening(r.mode, h)
      modifies this`out, this`back, r
      ensures State() == Reacts(old(State()), h, rest, drop)
    {
      var (n, discard) := (|r.sent|, false);
      if h.GotHeader? || h.HeaderTimeout? || h.HeaderError? {
        discard := r.TakeHeader(h);
      } else {
        r.TakeData(h);
      }
      out := if discard && drop <= |rest| then rest[drop..] else rest;
      back := back + r.sent[n..];
    }

    static predicate Listening(mode: Mode, h: Heard) {
      if mode == AtHeader then h.GotHeader? || h.HeaderTimeout? || h.HeaderError?
      else h.GotData? || h.DataTimeout? || h.DataError? || h.DataCancelled?
    }

    /** The sender goes on or hears something; what it has flushed is off the line but
        for what was under way. */
    method Sending(e: Event, ch: Chance)
      requires (e.Advances? || e.Listens? || e.HearsNothing?) && Enabled(State(), e)
      modifies this, s
      ensures State() == Next(old(State()), e, ch)
    {
      hide Advance, Hear, Flushed;
      s.sent, s.flushed := [], false;
      match e {
        case Advances(blk, junk) =>
          s.Advance(blk, junk);
        case Listens(more) =>
          s.Hear(back[0], false, more);
          back := back[1..];
        case HearsNothing =>
          s.Hear(Damaged, true, false);
      }
      out := (if s.flushed then Flushed(out, ch) else out) + s.sent;
    }

    /** A line loses or damages something. */
    method Losing(e: Event, ghost ch: Chance)
      requires (e.LosesHeader? || e.Damages? || e.LosesReply? || e.DamagesReply?) && Enabled(State(), e)
      modifies this
      ensures State() == Next(old(State()), e, ch)
    {
      match e {
        case LosesHeader(i) =>
          out := out[..i] + out[i + 1..];
        case Damages(i) =>
          out := out[i := Damaged];
        case LosesReply(i) =>
          back := back[..i] + back[i + 1..];
        case DamagesReply(i) =>
          back := back[i := Damaged];
      }
    }

    method Does(e: Event, ch: Chance)
      requires Enabled(State(), e)
      modifies this, r, s
      ensures State() == Next(old(State()), e, ch)
    {
      hide Advance, Hear, Reacts, Flushed, Sends;
      match e {
        case ReadsHeader =>
          Reacting(GotHeader(out[0].kind, out[0].pos), out[1..], ch.drop);
        case ReadsData =>
          var d := out[0];
          Reacting(if |d.data| <= MAXBLOCK then GotData(d.data, d.end) else DataError, out[1..], ch.drop);
        case PassesGarbage =>
          out := out[1..];
        case Hears(h, eats) =>
          Reacting(h, if eats then out[1..] else out, ch.drop);
        case Quits =>
          r.status := Failed;
        case Announces =>
          back := back + [Header(ZRINIT, 0)];
        case Advances(_, _) | Listens(_) | HearsNothing =>
          Sending(e, ch);
        case LosesHeader(_) | Damages(_) | LosesReply(_) | DamagesReply(_) =>
          Losing(e, ch);
      }
    }

    method Happens(e: Event, ch: Chance)
      requires Valid() && Enabled(State(), e)
      modifies this, r, s
      ensures Valid() && State() == Next(old(State()), e, ch)
    {
      hide Next, Enabled, Reaches, Opening, Step;
      ghost var x := State();
      Does(e, ch);
      OneMore(start, x, e, ch);
    }

    static lemma OneMore(start: System, x: System, e: Event, ch: Chance)
      requires Reaches(Step, start, x) && Enabled(x, e)
      ensures Reaches(Step, start, Next(x, e, ch))
    {
      hide Next, Enabled, Reaches;
      assert Step(x, Next(x, e, ch));
      One(Step, x, Next(x, e, ch));
      Onward(Step, start, x, Next(x, e, ch));
    }

    /** What holds of the two objects whatever they and the lines have done. */
    lemma Holds()
      requires Valid()
      ensures r.rxbytes == |r.file| && r.file <= s.c.file
      ensures r.status == Complete || s.phase == Finished(Okay) ==> r.file == s.c.file
    {
      TransferSafety(start, State());
    }
  }
}
