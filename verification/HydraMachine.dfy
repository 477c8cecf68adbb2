/** hydra and process_packets as they are written: file-level variables that each
    packet, timeout and turn updates.  Every method is proved to do what the state
    machine of HydraPeer does, so what is proved of that machine holds here. */
module HydraMachine {
  import opened HydraOptions
  import opened HydraPeer
  import opened Maybe
  import HydraInit

  class Hydra {
    const cfg: Config
    var tx: Tx
    var rx: Rx
    var txoptions: Options
    var rxoptions: Options
    var hdxlink: bool
    var devtxstate: DevState
    var completed: bool
    /** What goes to the line. */
    var sent: seq<Flight>

    ghost function State(): Peer
      reads this
    {
      Peer(cfg, tx, rx, txoptions, rxoptions, hdxlink, devtxstate, completed)
    }

    /** The new state and the packets sent are those of the reply `r`. */
    ghost predicate Did(line: seq<Flight>, r: Reply)
      reads this
    {
      State() == r.peer && sent == line + r.out
    }

    constructor (config: Config, speed: nat)
      requires speed < 0x10000 && config.maxblklen == MaxBlock(speed) && exists want :: config.options == Wanted(want)
      ensures Fresh(State()) && cfg == config && sent == []
    {
      cfg := config;
      tx := Tx(TxStart, |config.files| > 0, 0, 0, 0, 0, 0, FirstBlock(speed), 0, 1024, 0, [], 0);
      rx := Rx(RxInit, false, 0, "", [], 0, 0, 0, 0, FirstBlock(speed), false, 0, 0, map[]);
      txoptions, rxoptions, hdxlink, devtxstate, completed, sent := NONE, RX_INITIAL, false, DevDone, false, [];
    }

    method TxPkt(p: Packet)
      modifies this`sent
      ensures sent == old(sent) + [Flight(p, txoptions)]
    {
      sent := sent + [Flight(p, txoptions)];
    }

    method OnInit(p: Packet)
      requires p.Init?
      modifies this
      ensures Did(old(sent), HydraPeer.OnInit(old(State()), p))
    {
      hide Or, And, Value, Window, HydraInit.WindowsRead;
      if rx.state == RxInit {
        var o := Or(cfg.options, UNNECESSARY);
        o := Or(o, p.options);
        o := And(o, CAN);
        rxoptions := And(o, CAN);
        if Value(rxoptions) < Value(And(cfg.options, NECESSARY)) {
          tx := tx.(state := TxDone);
          return;
        }
        ReadWindows(p);
        txoptions := rxoptions;
        rx := rx.(state := RxFinfo);
      }
      TxPkt(InitAck);
    }

    /** The windows of an INIT, cut to our own. */
    method ReadWindows(p: Packet)
      requires p.Init?
      modifies this`tx, this`rx
      ensures var (rxwindow, txwindow) := HydraInit.WindowsRead(p.options, p.txwindow, p.rxwindow);
              && rx == old(rx).(window := Window(rxwindow, cfg.rxwindow))
              && tx == old(tx).(window := Window(txwindow, cfg.txwindow))
    {
      hide HydraInit.WindowsRead;
      var (rxwindow, txwindow) := HydraInit.WindowsRead(p.options, p.txwindow, p.rxwindow);
      if cfg.rxwindow != 0 && (rxwindow == 0 || cfg.rxwindow < rxwindow) {
        rxwindow := cfg.rxwindow;
      }
      if cfg.txwindow != 0 && (txwindow == 0 || cfg.txwindow < txwindow) {
        txwindow := cfg.txwindow;
      }
      tx, rx := tx.(window := txwindow), rx.(window := rxwindow);
    }

    method OnFinfo(p: Packet, env: Env)
      requires p.Finfo?
      modifies this
      ensures Did(old(sent), HydraPeer.OnFinfo(old(State()), p, env))
    {
      rx := rx.(seen := 2 * p.k);
      if rx.state == RxFinfo {
        if p.name.None? {
          rx := rx.(pos := 0);
          rx := rx.(state := RxDone);
        } else {
          NewFile(p.name.value, p.k, env);
        }
      } else if rx.state == RxDone {
        rx := rx.(pos := if p.name.None? then 0 else -2);
      }
      TxPkt(FinfoAck(rx.pos, p.k));
    }

    method NewFile(name: string, k: nat, env: Env)
      modifies this
      ensures State() == old(State()).(rx := HydraPeer.NewFile(old(State()).rx, name, k, env)) && sent == old(sent)
    {
      match env.decision {
        case Already =>
          rx := rx.(pos := -1);
        case Refuse =>
          rx := rx.(pos := -2);
        case Accept(resume) =>
          rx := rx.(open := true, name := name, data := resume);
          rx := rx.(pos := |resume|);
          rx := rx.(timer := false);
          rx := rx.(retries := 0);
          rx := rx.(lastsync := 0);
          rx := rx.(syncid := 0);
          rx := rx.(state := RxData, offer := k);
      }
    }

    method BadPosition(pos: int, k: nat, fallback: bool, env: Env)
      modifies this
      ensures Did(old(sent), HydraPeer.BadPosition(old(State()), pos, k, fallback, env))
    {
      hide Ladder;
      var r := rx;
      if pos <= r.lastsync {
        r := r.(timer := false, retries := 0);
      }
      r := r.(lastsync := pos);
      if r.timer && !env.expired {
        rx := r;
        return;
      }
      if fallback && r.retries > 4 {
        if BeforeEnd(tx.state) && !cfg.originator && !hdxlink {
          hdxlink := true;
          r := r.(retries := 0);
        }
      }
      r := r.(retries := r.retries + 1);
      rx := r;
      if r.retries > RETRIES {
        tx := tx.(state := TxDone);
      } else {
        AskAgain(k);
      }
    }

    method AskAgain(k: nat)
      modifies this`rx, this`sent
      ensures var r := old(rx);
              var syncid := if r.retries == 1 then r.syncid + 1 else r.syncid;
              && rx == r.(syncid := syncid, blklen := r.blklen / 2, timer := true)
              && sent == old(sent) + [Flight(Rpos(r.pos, Ladder(r.blklen / 2), syncid, k), txoptions)]
    {
      hide Ladder;
      if rx.retries == 1 {
        rx := rx.(syncid := rx.syncid + 1);
      }
      rx := rx.(blklen := rx.blklen / 2);
      TxPkt(Rpos(rx.pos, Ladder(rx.blklen), rx.syncid, k));
      rx := rx.(timer := true);
    }

    method OnData(p: Packet, env: Env)
      requires p.Data?
      modifies this
      ensures Did(old(sent), HydraPeer.OnData(old(State()), p, env))
    {
      hide HydraPeer.BadPosition, Word;
      rx := rx.(seen := 2 * p.k + 1);
      if rx.state == RxData {
        if p.pos != rx.pos || p.pos < 0 {
          BadPosition(p.pos, p.k, true, env);
        } else if !env.written {
          rx := rx.(blklen := Word(|p.bytes|), open := false, pos := -2, retries := 1, syncid := rx.syncid + 1);
          TxPkt(Rpos(rx.pos, 0, rx.syncid, p.k));
          rx := rx.(timer := true);
        } else {
          rx := rx.(blklen := Word(|p.bytes|), data := rx.data + p.bytes);
          rx := rx.(retries := 0, timer := false, lastsync := rx.pos, pos := rx.pos + |p.bytes|);
          if rx.window != 0 {
            TxPkt(DataAck(rx.pos, p.k));
          }
        }
      }
    }

    method OnEof(p: Packet, env: Env)
      requires p.Eof?
      modifies this
      ensures Did(old(sent), HydraPeer.OnEof(old(State()), p, env))
    {
      hide HydraPeer.BadPosition;
      rx := rx.(seen := 2 * p.k + 1);
      if rx.state == RxData {
        if p.pos >= 0 && p.pos != rx.pos {
          BadPosition(p.pos, p.k, false, env);
          return;
        }
        var entry := if p.pos < 0 then None else Some(File(rx.name, rx.data));
        rx := rx.(open := false, log := rx.log[rx.offer := Entry(entry, p.k)], state := RxFinfo);
      }
      if rx.state == RxFinfo {
        TxPkt(EofAck(p.k));
      }
    }

    method OnFinfoAck(p: Packet, env: Env) returns (outcome: Option<Outcome>)
      requires p.FinfoAck?
      modifies this
      ensures var r := HydraPeer.OnFinfoAck(old(State()), p, env); Did(old(sent), r) && outcome == r.outcome
    {
      outcome := None;
      if tx.state == TxFinfo || tx.state == TxFinfoAck {
        tx := tx.(retries := 0);
        if tx.cur >= |cfg.files| {
          tx := tx.(state := TxREnd);
        } else {
          tx := tx.(pos := p.pos);
          if tx.pos >= 0 {
            tx := tx.(lastack := tx.pos);
            if tx.pos > 0 && !env.sought {
              tx := tx.(open := false);
              tx := tx.(pos := -2);
              tx := tx.(state := TxEof);
              return;
            }
            tx := tx.(state := TxXData);
          } else {
            tx := tx.(open := false);
            return Some(if tx.pos == -1 then Have else Skipped);
          }
        }
      }
    }

    method OnDataAck(p: Packet)
      requires p.DataAck?
      modifies this
      ensures Did(old(sent), HydraPeer.OnDataAck(old(State()), p))
    {
      if InFile(tx.state) {
        if tx.window != 0 && p.pos > tx.lastack {
          tx := tx.(lastack := p.pos);
          if tx.state == TxDataAck && tx.pos < tx.lastack + tx.window {
            tx := tx.(state := TxXData);
            tx := tx.(retries := 0);
          }
        }
      }
    }

    method OnRpos(p: Packet, env: Env)
      requires p.Rpos?
      modifies this
      ensures Did(old(sent), HydraPeer.OnRpos(old(State()), p, env))
    {
      if InFile(tx.state) {
        if p.syncid != tx.syncid {
          tx := tx.(syncid := p.syncid);
          tx := tx.(retries := 1);
          tx := tx.(pos := p.pos);
          if tx.pos < 0 {
            if tx.open {
              tx := tx.(open := false);
              tx := tx.(state := TxEof);
            }
            tx := tx.(pos := -2);
            return;
          }
          Shrink(p.blklen);
          if !tx.open || !env.sought {
            tx := tx.(open := false);
            tx := tx.(pos := -2);
            tx := tx.(state := TxEof);
            return;
          }
          if tx.state != TxXWait {
            tx := tx.(state := TxXData);
          }
        } else {
          tx := tx.(retries := tx.retries + 1);
          if tx.retries > RETRIES {
            tx := tx.(state := TxDone);
          }
        }
      }
    }

    method Shrink(asked: nat)
      modifies this`tx
      ensures State() == old(State()).(tx := Shrunk(old(State()).tx, asked))
    {
      if tx.blklen > asked {
        tx := tx.(blklen := Word(asked));
      } else {
        tx := tx.(blklen := tx.blklen / 2);
      }
      tx := tx.(blklen := Ladder(tx.blklen));
      tx := tx.(goodbytes := 0);
      tx := tx.(goodneeded := Word(tx.goodneeded + 1024));
      if tx.goodneeded > 8192 {
        tx := tx.(goodneeded := 8192);
      }
    }

    method OnEnd()
      modifies this
      ensures Did(old(sent), HydraPeer.OnEnd(old(State())))
    {
      if tx.state == TxEnd || tx.state == TxEndAck {
        TxPkt(End);
        TxPkt(End);
        TxPkt(End);
        tx := tx.(state := TxDone);
        completed := true;
      }
    }

    /** The switch over packet types. */
    method Handle(p: Packet, env: Env) returns (outcome: Option<Outcome>)
      modifies this
      ensures var r := HydraPeer.Handle(old(State()), p, env); Did(old(sent), r) && outcome == r.outcome
    {
      hide HydraPeer.OnInit, HydraPeer.OnData, HydraPeer.OnEof, HydraPeer.OnRpos, HydraPeer.OnFinfo,
           HydraPeer.OnFinfoAck;
      outcome := None;
      match p {
        case Start =>
          if tx.state == TxStart || tx.state == TxSWait {
            tx := tx.(retries := 0);
            tx := tx.(state := TxInit);
          }
        case Init(_, _, _) =>
          OnInit(p);
          NoOutcome(old(State()), p, env);
        case InitAck =>
          if tx.state == TxInit || tx.state == TxInitAck {
            tx := tx.(retries := 0);
            tx := tx.(state := TxRInit);
          }
        case Finfo(_, _) =>
          OnFinfo(p, env);
          NoOutcome(old(State()), p, env);
        case FinfoAck(_, _) =>
          outcome := OnFinfoAck(p, env);
        case Data(_, _, _) =>
          OnData(p, env);
          NoOutcome(old(State()), p, env);
        case DataAck(_, _) =>
          OnDataAck(p);
        case Rpos(_, _, _, _) =>
          OnRpos(p, env);
          NoOutcome(old(State()), p, env);
        case Eof(_, _) =>
          OnEof(p, env);
          NoOutcome(old(State()), p, env);
        case EofAck(_) =>
          if tx.state == TxEof || tx.state == TxEofAck {
            outcome := Some(if tx.open then Outcome.Sent else Skipped);
          }
        case Idle =>
          if tx.state == TxXWait {
            hdxlink := false;
            tx := tx.(retries := 0);
            tx := tx.(state := TxXData);
          }
        case End =>
          OnEnd();
        case Device =>
          TxPkt(DeviceAck);
        case DeviceAck =>
          if devtxstate != DevDone && env.ourDevice {
            devtxstate := DevDone;
          }
      }
    }

    static lemma NoOutcome(s: Peer, p: Packet, env: Env)
      ensures p.Init? || p.Finfo? || p.Data? || p.Eof? || p.Rpos? ==> HydraPeer.Handle(s, p, env).outcome == None
    {
      hide Negotiated, Value, Window, Shrunk, Ladder, HydraPeer.NewFile;
    }

    /** The second switch. */
    method Act(env: Env)
      modifies this
      ensures State() == HydraPeer.Act(old(State()), env) && sent == old(sent)
    {
      match tx.state {
        case TxStart | TxSWait =>
          if rx.state == RxFinfo {
            tx := tx.(retries := 0);
            tx := tx.(state := TxInit);
          }
        case TxRInit =>
          if rx.state == RxFinfo {
            tx := tx.(retries := 0);
            tx := tx.(state := TxFinfo);
          }
        case TxXData =>
          if rx.state != RxDone && hdxlink {
            if devtxstate == DevDone && txoptions.device {
              devtxstate := DevData;
            }
            tx := tx.(state := TxXWait);
          }
        case TxXWait =>
          if rx.state == RxDone {
            tx := tx.(retries := 0);
            tx := tx.(state := TxXData);
          }
        case TxREnd =>
          if rx.state == RxDone && devtxstate == DevDone && !env.chatting {
            tx := tx.(retries := 0);
            tx := tx.(state := TxEnd);
          }
        case _ =>
      }
    }

    /** One packet: process_packets, and hydra called again when a file is done. */
    method Process(p: Packet, env: Env)
      modifies this
      ensures var (t, o) := HydraPeer.Process(old(State()), p, env); State() == t && sent == old(sent) + o
    {
      hide HydraPeer.Handle, HydraPeer.Act;
      var outcome := Handle(p, env);
      if outcome.Some? {
        tx := tx.(results := tx.results + [outcome.value]);
        tx := tx.(cur := tx.cur + 1, offers := 0);
        tx := tx.(state := TxFinfo);
        tx := tx.(retries := 0);
        if tx.cur < |cfg.files| {
          tx := tx.(open := true);
          tx := tx.(syncid := 0);
        } else {
          tx := tx.(open := false);
        }
      } else {
        Act(env);
      }
    }

    /** The switch of hydra over the transmitter's state. */
    method Turn(env: Env)
      requires ReadOk(State(), env)
      modifies this
      ensures var (t, o) := HydraPeer.Turn(old(State()), env); State() == t && sent == old(sent) + o
    {
      hide Grown;
      match tx.state {
        case TxStart =>
          TxPkt(Start);
          tx := tx.(state := TxSWait);
        case TxInit =>
          sent := sent + [Flight(Init(cfg.options, cfg.txwindow, cfg.rxwindow), NONE)];
          txoptions := rxoptions;
          tx := tx.(state := TxInitAck);
        case TxFinfo =>
          TxPkt(Finfo(if tx.cur < |cfg.files| then Some(cfg.files[tx.cur].name) else None, tx.cur));
          tx := tx.(state := TxFinfoAck, offers := tx.offers + 1);
        case TxXData =>
          SendData(env);
        case TxEof =>
          TxPkt(Eof(tx.pos, tx.cur));
          tx := tx.(state := TxEofAck);
        case TxEnd =>
          TxPkt(End);
          TxPkt(End);
          tx := tx.(state := TxEndAck);
        case _ =>
      }
    }

    method SendData(env: Env)
      requires tx.state == TxXData && ReadOk(State(), env)
      modifies this
      ensures var (t, o) := HydraPeer.SendData(old(State()), env); State() == t && sent == old(sent) + o
    {
      if tx.pos >= 0 {
        if !tx.open || tx.cur >= |cfg.files| || env.read < 0 {
          tx := tx.(open := false);
          tx := tx.(pos := -2);
        } else if env.read > 0 {
          SendBlock(env.read);
          return;
        }
      }
      TxPkt(Eof(tx.pos, tx.cur));
      tx := tx.(state := TxEofAck);
    }

    method SendBlock(i: nat)
      requires tx.state == TxXData && tx.open && tx.cur < |cfg.files| && 0 <= tx.pos
               && tx.pos + i <= |cfg.files[tx.cur].data|
      modifies this
      ensures var s := old(State());
              var t := Grown(s.tx.(pos := s.tx.pos + i), i, cfg.maxblklen);
              && State() == s.(tx := if t.window != 0 && t.pos >= t.lastack + t.window then t.(state := TxDataAck)
                else t)
              && sent == old(sent) + [Flight(Data(s.tx.pos, cfg.files[s.tx.cur].data[s.tx.pos..s.tx.pos + i],
                s.tx.cur), s.txoptions)]
    {
      TxPkt(Data(tx.pos, cfg.files[tx.cur].data[tx.pos..tx.pos + i], tx.cur));
      tx := tx.(pos := tx.pos + i);
      if tx.blklen < cfg.maxblklen {
        tx := tx.(goodbytes := Word(tx.goodbytes + i));
        if tx.goodbytes >= tx.goodneeded {
          tx := tx.(blklen := Word(tx.blklen * 2));
          if tx.blklen >= cfg.maxblklen {
            tx := tx.(blklen := cfg.maxblklen);
            tx := tx.(goodneeded := 0);
          }
          tx := tx.(goodbytes := 0);
        }
      }
      if tx.window != 0 && tx.pos >= tx.lastack + tx.window {
        tx := tx.(state := TxDataAck);
      }
    }

    /** H_TXTIME. */
    method Timeout(env: Env)
      modifies this
      ensures var (t, o) := HydraPeer.Timeout(old(State()), env); State() == t && sent == old(sent) + o
    {
      hide HydraPeer.Act;
      if tx.state == TxXWait || tx.state == TxREnd {
        TxPkt(Idle);
      } else {
        tx := tx.(retries := tx.retries + 1);
        if tx.retries > RETRIES {
          tx := tx.(state := TxDone);
          return;
        }
        tx := tx.(state := Again(tx.state));
      }
      Act(env);
    }

    /** The device packet that is waiting, when it may go out. */
    method DeviceTurn()
      modifies this
      ensures var (t, o) := HydraPeer.DeviceTurn(old(State())); State() == t && sent == old(sent) + o
    {
      if devtxstate == DevData && PastRInit(tx.state) {
        TxPkt(Device);
        devtxstate := DevDack;
      }
    }

    /** hydra_devsend. */
    method DeviceSend()
      modifies this`devtxstate
      ensures State() == HydraPeer.DeviceSend(old(State()))
    {
      if devtxstate == DevDone && txoptions.device && tx.state != TxEnd && tx.state != TxEndAck {
        devtxstate := DevData;
      }
    }

    method DeviceTimeout(tooMany: bool)
      modifies this
      ensures State() == HydraPeer.DeviceTimeout(old(State()), tooMany) && sent == old(sent)
    {
      if tooMany {
        Abort();
      } else {
        devtxstate := DevData;
      }
    }

    /** Carrier lost, operator abort, cancel or braindead timer. */
    method Abort()
      modifies this`tx
      ensures State() == HydraPeer.Abort(old(State()))
    {
      tx := tx.(state := TxDone);
    }
  }
}
