/** Two HYDRA peers and the two lossy first-in-first-out lines between them. */
module HydraLink {
  import opened HydraPeer

  /** `out` runs from `p` to `q`, `back` from `q` to `p`. */
  datatype Link = Link(p: Peer, q: Peer, out: seq<Flight>, back: seq<Flight>)

  function Swap(s: Link): Link { Link(s.q, s.p, s.back, s.out) }

  datatype Action =
    | Receive(env: Env)
    | TurnToSend(env: Env)
    | TimesOut(env: Env)
    | DeviceSends
    | UserSends
    | DeviceTimesOut(tooMany: bool)
    | GivesUp           // carrier lost, operator abort, cancel, braindead timer
    | Loses(i: nat)     // the line drops a packet of ours

  /** What the program and the line can do. */
  predicate Possible(s: Link, a: Action) {
    match a
    case Receive(_) => s.p.tx.state != TxDone && |s.back| > 0
    case TurnToSend(env) => s.p.tx.state != TxDone && ReadOk(s.p, env)
    case Loses(i) => i < |s.out|
    case _ => s.p.tx.state != TxDone
  }

  /** One step of `p`, or of the line that leaves it. */
  function Next(s: Link, a: Action): Link
    requires Possible(s, a)
  {
    match a
    case Receive(env) =>
      var (p, out) := Process(s.p, s.back[0].pkt, env);
      Link(p, s.q, s.out + out, s.back[1..])
    case TurnToSend(env) =>
      var (p, out) := Turn(s.p, env);
      s.(p := p, out := s.out + out)
    case TimesOut(env) =>
      var (p, out) := Timeout(s.p, env);
      s.(p := p, out := s.out + out)
    case DeviceSends =>
      var (p, out) := DeviceTurn(s.p);
      s.(p := p, out := s.out + out)
    case UserSends => s.(p := DeviceSend(s.p))
    case DeviceTimesOut(tooMany) => s.(p := DeviceTimeout(s.p, tooMany))
    case GivesUp => s.(p := Abort(s.p))
    case Loses(i) => s.(out := s.out[..i] + s.out[i + 1..])
  }

  ghost predicate Step(s: Link, t: Link) {
    || (exists a :: Possible(s, a) && t == Next(s, a))
    || (exists a :: Possible(Swap(s), a) && t == Swap(Next(Swap(s), a)))
  }

  ghost predicate Opening(s: Link) { Fresh(s.p) && Fresh(s.q) && s.out == [] && s.back == [] }

  // ----- what a receiver makes of a file ----------------------------------------------

  /** A receiver makes the same of every copy of an offer: what it finds on its disk. */
  predicate Settled(p: Peer, pkt: Packet, env: Env) {
    pkt.Finfo? && p.rx.state == RxFinfo && pkt.name.Some? && pkt.k < |p.cfg.disk| ==> env.decision == p.cfg.disk[pkt.k]
  }

  predicate Steady(s: Link, a: Action) { Possible(s, a) && (a.Receive? ==> Settled(s.p, s.back[0].pkt, a.env)) }

  ghost predicate SteadyStep(s: Link, t: Link) {
    || (exists a :: Steady(s, a) && t == Next(s, a))
    || (exists a :: Steady(Swap(s), a) && t == Swap(Next(Swap(s), a)))
  }

  predicate Refused(disk: seq<Decision>, k: nat) { k < |disk| && !disk[k].Accept? }

  /** A file the other side refuses is offered once only. */
  predicate Patient(s: Link, a: Action) {
    && Steady(s, a)
    && (a.TurnToSend? && s.p.tx.state == TxFinfo && Refused(s.q.cfg.disk, s.p.tx.cur) ==> s.p.tx.offers == 0)
  }

  ghost predicate PatientStep(s: Link, t: Link) {
    || (exists a :: Patient(s, a) && t == Next(s, a))
    || (exists a :: Patient(Swap(s), a) && t == Swap(Next(Swap(s), a)))
  }

  /** A disk that belongs to a batch: what is left of earlier transfers are prefixes of
      the files. */
  predicate Matched(files: seq<File>, disk: seq<Decision>) {
    |disk| == |files| && forall k | 0 <= k < |files| && disk[k].Accept? :: disk[k].resume <= files[k].data
  }

  // ----- without losses ------------------------------------------------------------------

  predicate NoTrouble(env: Env) { env.written && env.sought && env.read >= 0 && !env.chatting }

  /** Nothing is lost, nothing times out, no file fails, and nobody interferes. */
  predicate Smooth(s: Link, a: Action) {
    Steady(s, a) && (a.Receive? || a.TurnToSend?) && NoTrouble(a.env)
  }

  ghost predicate SmoothStep(s: Link, t: Link) {
    || (exists a :: Smooth(s, a) && t == Next(s, a))
    || (exists a :: Smooth(Swap(s), a) && t == Swap(Next(Swap(s), a)))
  }
}
