/** Two sessions as they are written and the lines between them.  Every state the two
    objects get into is a state of a run of HydraLink, so what is proved of all runs
    holds of the objects. */
module HydraConnection {
  import opened HydraLink
  import opened HydraMachine
  import opened HydraPeer
  import opened Reachability
  import HydraSession
  import HydraTransfer

  class Connection {
    const p: Hydra
    const q: Hydra
    /** From `p` to `q`, and from `q` to `p`. */
    var out: seq<Flight>
    var back: seq<Flight>
    ghost const start: Link
    /** No receiver has answered two copies of an offer differently. */
    ghost var steady: bool

    ghost function State(): Link
      reads this, p, q
    {
      Link(p.State(), q.State(), out, back)
    }

    ghost predicate Valid()
      reads this, p, q
    {
      && p != q && Opening(start) && start.p.cfg == p.cfg && start.q.cfg == q.cfg
      && Reaches(Step, start, State())
      && (steady ==> Reaches(SteadyStep, start, State()))
    }

    constructor (a: Hydra, b: Hydra)
      requires a != b && Fresh(a.State()) && Fresh(b.State())
      ensures Valid() && p == a && q == b && steady && State() == start
    {
      p, q, out, back := a, b, [], [];
      start, steady := Link(a.State(), b.State(), [], []), true;
      new;
      Here(Step, start);
      Here(SteadyStep, start);
    }

    /** One side does something, or the line it sends on loses a packet; `y` is what the
        other side is doing meanwhile. */
    static method Does(x: Hydra, a: Action, ghost y: Peer, out: seq<Flight>, back: seq<Flight>)
      returns (out': seq<Flight>, back': seq<Flight>)
      requires Possible(Link(x.State(), y, out, back), a)
      modifies x
      ensures Link(x.State(), y, out', back') == Next(old(Link(x.State(), y, out, back)), a)
    {
      hide HydraPeer.Process, HydraPeer.Turn, HydraPeer.Timeout;
      var n := |x.sent|;
      out', back' := out, back;
      match a {
        case Receive(env) =>
          x.Process(back[0].pkt, env);
          back' := back[1..];
        case TurnToSend(env) =>
          x.Turn(env);
        case TimesOut(env) =>
          x.Timeout(env);
        case DeviceSends =>
          x.DeviceTurn();
        case UserSends =>
          x.DeviceSend();
        case DeviceTimesOut(tooMany) =>
          x.DeviceTimeout(tooMany);
        case GivesUp =>
          x.Abort();
        case Loses(i) =>
          out' := out[..i] + out[i + 1..];
      }
      out' := out' + x.sent[n..];
    }

    /** A step of `p`. */
    method Left(a: Action)
      requires Valid() && Possible(State(), a)
      modifies this, p
      ensures Valid() && State() == Next(old(State()), a)
      ensures steady == (old(steady) && Steady(old(State()), a))
    {
      hide Possible, Next, Steady, Opening, Reaches;
      ghost var s := State();
      steady := steady && Steady(s, a);
      out, back := Does(p, a, q.State(), out, back);
      OneMore(start, s, State(), steady);
    }

    /** A step of `q`. */
    method Right(a: Action)
      requires Valid() && Possible(Swap(State()), a)
      modifies this, q
      ensures Valid() && State() == Swap(Next(Swap(old(State())), a))
      ensures steady == (old(steady) && Steady(Swap(old(State())), a))
    {
      hide Possible, Next, Steady, Opening, Reaches;
      ghost var s := State();
      steady := steady && Steady(Swap(s), a);
      back, out := Does(q, a, p.State(), back, out);
      OneMore(start, s, State(), steady);
    }

    static lemma OneMore(start: Link, s: Link, t: Link, steady: bool)
      requires Reaches(Step, start, s) && Step(s, t)
      requires steady ==> Reaches(SteadyStep, start, s) && SteadyStep(s, t)
      ensures Reaches(Step, start, t) && (steady ==> Reaches(SteadyStep, start, t))
    {
      hide Step, SteadyStep, Reaches;
      One(Step, s, t);
      Onward(Step, start, s, t);
      if steady {
        One(SteadyStep, s, t);
        Onward(SteadyStep, start, s, t);
      }
    }

    /** What holds of the two objects whatever they and the lines have done. */
    lemma Holds()
      requires Valid()
      ensures HydraSession.Understood(p.State(), q.State(), out) && HydraSession.Understood(q.State(), p.State(), back)
      ensures p.completed || q.completed ==>
                && |p.tx.results| == |p.cfg.files| && |q.tx.results| == |q.cfg.files|
                && p.rx.state == RxDone && q.rx.state == RxDone
      ensures steady && Matched(p.cfg.files, q.cfg.disk) && HydraTransfer.Tame(q.cfg.disk) ==>
                HydraTransfer.Delivered(p.tx, p.cfg.files, q.rx)
    {
      hide Step, SteadyStep, Opening, Reaches, HydraSession.Understood, HydraTransfer.Delivered, Matched,
           HydraTransfer.Tame;
      HydraSession.NegotiationAgreement(start, State());
      if p.completed || q.completed {
        HydraSession.SessionEnd(start, State());
      }
      if steady && Matched(p.cfg.files, q.cfg.disk) && HydraTransfer.Tame(q.cfg.disk) {
        HydraTransfer.TransferSafety(start, State());
      }
    }
  }
}
