/** The reconnecting websocket as a transition system.

    Two goroutines, the writer and the reader, share the connection pointer, five
    bounded channels and one non-reentrant mutex with any number of client goroutines.
    Every action below is one atomic step of one goroutine; whatever the network, the
    scheduler or a `select` decides is a parameter of the action.  A run is a sequence
    of actions, so a lemma about all runs is a lemma about all interleavings. */
module WsModel {
  import opened Wrappers
  import opened GoChan

  type Msg = string

  const MAX_RETRY: nat := 100
  const BUFFER_SIZE: nat := 10

  /** `customSub` and `postHook` are the messages the two resubscribe hooks enqueue.
      `innerLocks` is true for the code as written: the `CloseWs` that an exhausted
      `Reconnect` calls takes the mutex again.  False is the repaired variant. */
  datatype Config = Config(
    autoReconnect: bool,
    heartbeat: bool,
    sub: Msg,
    customSub: Option<Msg>,
    postHook: Option<Msg>,
    innerLocks: bool)
  {
    /** `CustomSub` takes precedence over the post-reconnect hook. */
    function Resubscription(): Option<Msg> {
      if customSub.Some? then customSub else postHook
    }
  }

  /** `Client` stands for whichever client goroutine is inside `CloseWs`: the mutex lets in
      one at a time, and those waiting outside have no state of their own. */
  datatype Tid = Writer | Reader | Client

  /** A frame in the writer's hand: a message taken from the write channel, or anything
      else (ping, pong, close, heartbeat, the zero value of a drained channel). */
  datatype Frame = Data(msg: Msg) | Other

  datatype WPc =
    | WSelect                             // at the select
    | WHold(frame: Frame)                 // received, connection pointer not read yet
    | WLoaded(frame: Frame, conn: nat)    // pointer read, not written yet
    | WBackoff                            // error seen, sleeping before Reconnect
    | WIn                                 // inside Reconnect
    | WDone

  datatype RPc = RInit | RSelect | RRead(conn: nat) | RIn | RDone

  /** Where a goroutine stands inside `Reconnect` or `CloseWs`. */
  datatype Rc =
    | Idle
    | Wait                    // at the lock of Reconnect
    | AtProbe | AtCloseOld | AtDial(retry: nat) | AtStore(gen: nat) | AtHook
    | AtInner                 // all dials failed: at the lock of the inner CloseWs
    | AtCheck | AtToken | AtShut(k: nat) | AtFinish   // inside CloseWs
    | AtHandler               // the error handler of an exhausted Reconnect
    | AtUnlock
  {
    predicate Critical() {
      !Idle? && !Wait?
    }

    /** Past the guard of `Reconnect`, with the hook still to come. */
    predicate InFlight() {
      AtCloseOld? || AtDial? || AtStore? || AtHook?
    }
  }

  datatype Taken = Taken(msg: Msg, byProbe: bool)
  datatype Outcome = Outcome(msg: Msg, conn: nat, ok: bool)

  /** History variables. */
  datatype Log = Log(
    accepted: seq<Msg>,       // sends that the write channel accepted
    taken: seq<Taken>,        // receives that took an element from the write channel
    outcomes: seq<Outcome>,   // what became of each message the writer took
    probes: nat,              // probes of the write channel
    passes: nat,              // Reconnect calls that got past the guard
    dials: nat,
    slept: nat,               // time slept between dials, in reconnect intervals
    tokenReads: nat,          // close tokens received by the two goroutines
    handlerRuns: nat)         // error handlers run by an exhausted Reconnect

  /** The five channels. */
  datatype Chans = Chans(
    close: Chan<bool>,
    write: Chan<Msg>,
    closeMsg: Chan<Msg>,
    ping: Chan<Msg>,
    pong: Chan<Msg>)
  {
    function Of(src: Src): Chan<Msg> {
      match src
      case FromWrite => write
      case FromPing => ping
      case FromPong => pong
      case FromCloseMsg => closeMsg
    }

    function With(src: Src, ch: Chan<Msg>): Chans {
      match src
      case FromWrite => this.(write := ch)
      case FromPing => this.(ping := ch)
      case FromPong => this.(pong := ch)
      case FromCloseMsg => this.(closeMsg := ch)
    }

    /** The k-th channel in the order in which `CloseWs` closes them is closed. */
    predicate IsShut(k: nat) {
      match k
      case 0 => close.closed
      case 1 => write.closed
      case 2 => closeMsg.closed
      case 3 => ping.closed
      case _ => pong.closed
    }

    function Shut(k: nat): Chans {
      match k
      case 0 => this.(close := close.Shut())
      case 1 => this.(write := write.Shut())
      case 2 => this.(closeMsg := closeMsg.Shut())
      case 3 => this.(ping := ping.Shut())
      case _ => this.(pong := pong.Shut())
    }
  }

  /** Where each goroutine stands inside `Reconnect` or `CloseWs`. */
  datatype Pcs = Pcs(w: Rc, r: Rc, k: Rc) {
    function At(t: Tid): Rc {
      match t
      case Writer => w
      case Reader => r
      case Client => k
    }

    function With(t: Tid, rc: Rc): Pcs {
      match t
      case Writer => this.(w := rc)
      case Reader => this.(r := rc)
      case Client => this.(k := rc)
    }
  }

  /** The writer's and the reader's own loops.  `err` is the error variable the writer
      carries around its loop; `handlerGen` is the connection that got the ping handler. */
  datatype Loops = Loops(w: WPc, err: bool, timer: bool, r: RPc, handlerGen: nat)

  /** Clients: `Close` calls past their guard, and whether the initial `Subscribe` is
      still to come. */
  datatype Clients = Clients(closing: nat, initial: bool)

  datatype State = State(
    cur: nat,                 // generation of the connection `ws.c` points to
    open: set<nat>,           // generations not closed locally
    ch: Chans,
    lock: Option<Tid>,
    pc: Pcs,
    go: Loops,
    env: Clients,
    crashed: bool,            // a goroutine panicked: nothing recovers here
    log: Log)
  {
    function Crash(): State {
      this.(crashed := true)
    }
  }

  datatype Src = FromWrite | FromPing | FromPong | FromCloseMsg

  datatype WAct = WStop | WTake(src: Src) | WTimer | WLoad | WWrite(ok: bool) | WSleep
  datatype RAct = RStart | RStop | RLoad | RPing(msg: Msg) | RReadResult(ok: bool)
  datatype RecAct = Acquire | Probe | CloseOld | Dial(ok: bool) | Store | Hook | Release
  datatype ClAct = Enter | Check | Token | Timeout | ShutNext | Finish | Handle
  datatype EnvAct = Send(src: Src, msg: Msg) | Subscribe | CloseGuard | CloseDo(gen: nat)

  datatype Action =
    | ByWriter(w: WAct)
    | ByReader(r: RAct)
    | Rec(t: Tid, rec: RecAct)    // a step of Reconnect
    | Cl(t: Tid, cl: ClAct)       // a step of CloseWs
    | Env(env: EnvAct)            // a step of a client

  /** The state in which `NewWs` has started both goroutines. */
  function Init(): State {
    State(0, {0},
          Chans(Make(1), Make(BUFFER_SIZE), Make(BUFFER_SIZE), Make(BUFFER_SIZE), Make(BUFFER_SIZE)),
          None, Pcs(Idle, Idle, Idle), Loops(WSelect, false, true, RInit, 0), Clients(0, true), false,
          Log([], [], [], 0, 0, 0, 0, 0, 0))
  }

  // ---------------------------------------------------------------- writeRequest

  predicate WEnabled(s: State, a: WAct) {
    match a
    case WStop => s.go.w.WSelect? && s.ch.close.CanReceive()
    case WTake(src) => s.go.w.WSelect? && s.ch.Of(src).CanReceive()
    case WTimer => s.go.w.WSelect? && s.go.timer
    case WLoad => s.go.w.WHold?
    case WWrite(ok) => s.go.w.WLoaded? && (ok ==> s.go.w.conn in s.open)
    case WSleep => s.go.w.WBackoff?
  }

  /** Receiving from the close channel. */
  function ReadToken(log: Log, close: Chan<bool>): Log {
    log.(tokenReads := log.tokenReads + |close.Taken()|)
  }

  /** Receiving from the write channel: by the writer, or by a probe that drops the message. */
  function Receive(log: Log, write: Chan<Msg>, byProbe: bool): Log {
    if write.buf == [] then log else log.(taken := log.taken + [Taken(write.buf[0], byProbe)])
  }

  function Write(log: Log, w: WPc, ok: bool): Log
    requires w.WLoaded?
  {
    if w.frame.Data? then log.(outcomes := log.outcomes + [Outcome(w.frame.msg, w.conn, ok)]) else log
  }

  function WApply(cfg: Config, s: State, a: WAct): State
    requires WEnabled(s, a)
  {
    match a
    case WStop =>
      s.(ch := s.ch.(close := s.ch.close.Rest()), go := s.go.(w := WDone), log := ReadToken(s.log, s.ch.close))
    case WTake(FromWrite) =>
      s.(ch := s.ch.(write := s.ch.write.Rest()),
         go := s.go.(w := WHold(if s.ch.write.buf == [] then Other else Data(s.ch.write.buf[0]))),
         log := Receive(s.log, s.ch.write, false))
    case WTake(src) =>
      s.(ch := s.ch.With(src, s.ch.Of(src).Rest()), go := s.go.(w := WHold(Other)))
    case WTimer =>
      // With a zero interval the timer fires once and leaves the carried error as it is.
      s.(go := if cfg.heartbeat then s.go.(w := WHold(Other))
               else s.go.(timer := false, w := if s.go.err then WBackoff else WSelect))
    case WLoad => s.(go := s.go.(w := WLoaded(s.go.w.frame, s.cur)))
    case WWrite(ok) =>
      s.(go := s.go.(w := if ok then WSelect else WBackoff, err := !ok), log := Write(s.log, s.go.w, ok))
    case WSleep => s.(go := s.go.(w := WIn), pc := s.pc.(w := Wait))
  }

  // -------------------------------------------------------------- receiveMessage

  predicate REnabled(s: State, a: RAct) {
    match a
    case RStart => s.go.r.RInit?
    case RStop => s.go.r.RSelect? && s.ch.close.CanReceive()
    case RLoad => s.go.r.RSelect? && !s.ch.close.CanReceive()
    case RPing(_) => s.go.r.RRead? && s.go.r.conn == s.go.handlerGen && s.ch.pong.CanSend()
    case RReadResult(_) => s.go.r.RRead?
  }

  function RApply(cfg: Config, s: State, a: RAct): State
    requires REnabled(s, a)
  {
    match a
    case RStart => s.(go := s.go.(r := RSelect, handlerGen := s.cur))
    case RStop =>
      s.(ch := s.ch.(close := s.ch.close.Rest()), go := s.go.(r := RDone), log := ReadToken(s.log, s.ch.close))
    case RLoad => s.(go := s.go.(r := RRead(s.cur)))
    case RPing(m) => if s.ch.pong.closed then s.Crash() else s.(ch := s.ch.(pong := s.ch.pong.Append(m)))
    case RReadResult(ok) =>
      if ok then s.(go := s.go.(r := RSelect))
      else if cfg.autoReconnect then s.(go := s.go.(r := RIn), pc := s.pc.(r := Wait))
      else s.(go := s.go.(r := RDone))
  }

  // ------------------------------------------------------------------- Reconnect

  predicate RecEnabled(cfg: Config, s: State, t: Tid, a: RecAct) {
    match a
    case Acquire => s.pc.At(t).Wait? && s.lock.None?
    case Probe => s.pc.At(t).AtProbe?
    case CloseOld => s.pc.At(t).AtCloseOld?
    case Dial(_) => s.pc.At(t).AtDial?
    case Store => s.pc.At(t).AtStore?
    case Hook => s.pc.At(t).AtHook? && (cfg.Resubscription().Some? ==> s.ch.write.CanSend())
    case Release => s.pc.At(t).AtUnlock? && s.lock == Some(t)
  }

  function Pass(log: Log): Log {
    log.(passes := log.passes + 1)
  }

  function Probed(log: Log): Log {
    log.(probes := log.probes + 1)
  }

  function Accept(log: Log, m: Msg): Log {
    log.(accepted := log.accepted + [m])
  }

  function RecApply(cfg: Config, s: State, t: Tid, a: RecAct): State
    requires RecEnabled(cfg, s, t, a)
  {
    match a
    case Acquire => s.(pc := s.pc.With(t, AtProbe), lock := Some(t))
    case Probe =>
      if s.ch.write.Drained() then
        s.(pc := s.pc.With(t, AtUnlock), log := Probed(s.log))
      else
        s.(pc := s.pc.With(t, AtCloseOld),
           ch := s.ch.(write := s.ch.write.Rest()),
           log := Pass(Probed(Receive(s.log, s.ch.write, true))))
    case CloseOld => s.(pc := s.pc.With(t, AtDial(1)), open := s.open - {s.cur})
    case Dial(ok) =>
      s.(pc := s.pc.With(t, AfterDial(s.pc.At(t).retry, s.cur, ok)),
         open := if ok then s.open + {s.cur + 1} else s.open,
         log := s.log.(dials := s.log.dials + 1, slept := s.log.slept + if ok then 0 else s.pc.At(t).retry))
    case Store => s.(pc := s.pc.With(t, AtHook), cur := s.pc.At(t).gen)
    case Hook =>
      match cfg.Resubscription() {
        case None => s.(pc := s.pc.With(t, AtUnlock))
        case Some(m) =>
          if s.ch.write.closed then s.Crash()
          else s.(pc := s.pc.With(t, AtUnlock),
                  ch := s.ch.(write := s.ch.write.Append(m)),
                  log := Accept(s.log, m))
      }
    case Release => s.(pc := s.pc.With(t, Idle), lock := None, go := Back(s.go, t))
  }

  function AfterDial(retry: nat, cur: nat, ok: bool): Rc {
    if ok then AtStore(cur + 1) else if retry < MAX_RETRY then AtDial(retry + 1) else AtInner
  }

  /** Back from `Reconnect` to the head of the caller's loop. */
  function Back(go: Loops, t: Tid): Loops {
    match t
    case Writer => go.(w := WSelect)
    case Reader => go.(r := RSelect)
    case Client => go
  }

  // --------------------------------------------------------------------- CloseWs

  predicate ClEnabled(cfg: Config, s: State, t: Tid, a: ClAct) {
    match a
    case Enter =>
      if t.Client? then s.pc.k.Idle? && s.lock.None?
      else s.pc.At(t).AtInner? && (cfg.innerLocks ==> s.lock.None?)
    case Check => s.pc.At(t).AtCheck?
    case Token => s.pc.At(t).AtToken? && s.ch.close.CanSend()
    case Timeout => s.pc.At(t).AtToken? && !s.ch.close.CanSend()
    case ShutNext => s.pc.At(t).AtShut?
    case Finish => s.pc.At(t).AtFinish?
    case Handle => s.pc.At(t).AtHandler?
  }

  function ClApply(cfg: Config, s: State, t: Tid, a: ClAct): State
    requires ClEnabled(cfg, s, t, a)
  {
    match a
    case Enter =>
      s.(pc := s.pc.With(t, AtCheck), lock := if t.Client? || cfg.innerLocks then Some(t) else s.lock)
    case Check =>
      s.(pc := s.pc.With(t, if s.ch.close.Drained() then AtFinish else AtToken),
         ch := s.ch.(close := s.ch.close.Rest()))
    case Token =>
      if s.ch.close.closed then s.Crash()
      else s.(pc := s.pc.With(t, AtShut(0)), ch := s.ch.(close := s.ch.close.Append(true)))
    case Timeout => s.(pc := s.pc.With(t, AtShut(0)))
    case ShutNext =>
      var k := s.pc.At(t).k;
      if s.ch.IsShut(k) then s.Crash()
      else s.(pc := s.pc.With(t, if k < 4 then AtShut(k + 1) else AtFinish), ch := s.ch.Shut(k))
    case Finish =>
      s.(pc := s.pc.With(t, if t.Client? then AtUnlock else AtHandler),
         open := s.open - {s.cur},
         lock := if !t.Client? && cfg.innerLocks then None else s.lock)
    case Handle =>
      s.(pc := s.pc.With(t, AtUnlock), log := s.log.(handlerRuns := s.log.handlerRuns + 1))
  }

  // --------------------------------------------------------------------- clients

  predicate EnvEnabled(s: State, a: EnvAct) {
    match a
    case Send(src, _) => s.ch.Of(src).CanSend()
    case Subscribe => s.env.initial && s.ch.write.CanSend()
    case CloseGuard => true
    case CloseDo(gen) => s.env.closing > 0 && gen <= s.cur
  }

  function EnvApply(cfg: Config, s: State, a: EnvAct): State
    requires EnvEnabled(s, a)
  {
    match a
    case Send(src, m) =>
      if s.ch.Of(src).closed then s.Crash()
      else s.(ch := s.ch.With(src, s.ch.Of(src).Append(m)),
              log := if src.FromWrite? then Accept(s.log, m) else s.log)
    case Subscribe =>
      if s.ch.write.closed then s.Crash()
      else s.(ch := s.ch.(write := s.ch.write.Append(cfg.sub)),
              env := s.env.(initial := false),
              log := Accept(s.log, cfg.sub))
    case CloseGuard =>
      s.(ch := s.ch.(write := s.ch.write.Rest()),
         env := s.env.(closing := s.env.closing + (if s.ch.write.Drained() then 0 else 1)),
         log := Probed(Receive(s.log, s.ch.write, true)))
    case CloseDo(gen) => s.(open := s.open - {gen}, env := s.env.(closing := s.env.closing - 1))
  }

  // ------------------------------------------------------------------------ runs

  predicate Enabled(cfg: Config, s: State, a: Action) {
    !s.crashed &&
    match a
    case ByWriter(w) => WEnabled(s, w)
    case ByReader(r) => REnabled(s, r)
    case Rec(t, rec) => RecEnabled(cfg, s, t, rec)
    case Cl(t, cl) => ClEnabled(cfg, s, t, cl)
    case Env(e) => EnvEnabled(s, e)
  }

  function Apply(cfg: Config, s: State, a: Action): State
    requires Enabled(cfg, s, a)
  {
    match a
    case ByWriter(w) => WApply(cfg, s, w)
    case ByReader(r) => RApply(cfg, s, r)
    case Rec(t, rec) => RecApply(cfg, s, t, rec)
    case Cl(t, cl) => ClApply(cfg, s, t, cl)
    case Env(e) => EnvApply(cfg, s, e)
  }

  /** Every action of `run` is enabled when its turn comes. */
  predicate IsRun(cfg: Config, s: State, run: seq<Action>)
    decreases |run|
  {
    run == [] || (Enabled(cfg, s, run[0]) && IsRun(cfg, Apply(cfg, s, run[0]), run[1..]))
  }

  function Exec(cfg: Config, s: State, run: seq<Action>): State
    requires IsRun(cfg, s, run)
    decreases |run|
  {
    if run == [] then s else Exec(cfg, Apply(cfg, s, run[0]), run[1..])
  }

  /** A run may be extended at its end. */
  lemma {:induction false} ExecSnoc(cfg: Config, s: State, run: seq<Action>, a: Action)
    requires IsRun(cfg, s, run)
    requires Enabled(cfg, Exec(cfg, s, run), a)
    ensures IsRun(cfg, s, run + [a])
    ensures Exec(cfg, s, run + [a]) == Apply(cfg, Exec(cfg, s, run), a)
    decreases |run|
  {
    if run == [] {
      assert run + [a] == [a];
    } else {
      assert (run + [a])[1..] == run[1..] + [a];
      ExecSnoc(cfg, Apply(cfg, s, run[0]), run[1..], a);
    }
  }

  /** Runs compose. */
  lemma {:induction false} ExecAppend(cfg: Config, s: State, run: seq<Action>, more: seq<Action>)
    requires IsRun(cfg, s, run) && IsRun(cfg, Exec(cfg, s, run), more)
    ensures IsRun(cfg, s, run + more) && Exec(cfg, s, run + more) == Exec(cfg, Exec(cfg, s, run), more)
    decreases |run|
  {
    if run == [] {
      assert run + more == more;
    } else {
      assert (run + more)[1..] == run[1..] + more;
      ExecAppend(cfg, Apply(cfg, s, run[0]), run[1..], more);
    }
  }
}
