/** What every step of the protocol keeps, and therefore what holds in every reachable
    state: mutual exclusion, at most one open connection, exact first-in first-out message
    accounting, and the shape of the close protocol. */
module WsInvariants {
  import opened Wrappers
  import opened GoChan
  import opened WsModel

  // ----------------------------------------------------------------- predicates

  /** The mutex is held by exactly the goroutine that is inside a critical section. */
  ghost predicate LockInv(lock: Option<Tid>, pc: Pcs, go: Loops) {
    && (pc.w.Critical() <==> lock == Some(Writer))
    && (pc.r.Critical() <==> lock == Some(Reader))
    && (pc.k.Critical() <==> lock == Some(Client))
    && (go.w.WIn? <==> !pc.w.Idle?)
    && (go.r.RIn? <==> !pc.r.Idle?)
    && !pc.k.Wait? && !pc.k.AtProbe? && !pc.k.InFlight() && !pc.k.AtInner? && !pc.k.AtHandler?
  }

  predicate InClose(rc: Rc) {
    rc.AtCheck? || rc.AtToken? || rc.AtShut? || rc.AtFinish? || rc.AtHandler?
  }

  predicate InRange(rc: Rc) {
    && (rc.AtDial? ==> 1 <= rc.retry <= MAX_RETRY)
    && (rc.AtShut? ==> rc.k <= 4)
  }

  /** Program counters carry values in range; and with the mutex taken twice, no goroutine
      ever gets into the inner `CloseWs`. */
  ghost predicate PcInv(cfg: Config, pc: Pcs) {
    && InRange(pc.w) && InRange(pc.r) && InRange(pc.k)
    && (cfg.innerLocks ==> !InClose(pc.w) && !InClose(pc.r))
  }

  /** The one connection that may be open: the current one or, between a successful dial
      and the store into `ws.c`, the new one. */
  function Live(cur: nat, pc: Pcs): nat {
    if pc.w.AtStore? || pc.r.AtStore? then cur + 1 else cur
  }

  ghost predicate ConnInv(cur: nat, open: set<nat>, pc: Pcs, w: WPc) {
    && open <= {Live(cur, pc)}
    && (pc.w.AtStore? ==> pc.w.gen == cur + 1)
    && (pc.r.AtStore? ==> pc.r.gen == cur + 1)
    && (pc.w.AtDial? || pc.r.AtDial? ==> open == {})
    && (w.WLoaded? ==> w.conn <= cur)
  }

  function Msgs(taken: seq<Taken>): seq<Msg> {
    if taken == [] then [] else Msgs(taken[..|taken|-1]) + [taken[|taken|-1].msg]
  }

  /** The messages taken by the writer (`byProbe == false`) or by probes, in order. */
  function TakenBy(taken: seq<Taken>, byProbe: bool): seq<Msg> {
    if taken == [] then []
    else
      var last := taken[|taken|-1];
      TakenBy(taken[..|taken|-1], byProbe) + (if last.byProbe == byProbe then [last.msg] else [])
  }

  function OutcomeMsgs(outcomes: seq<Outcome>): seq<Msg> {
    if outcomes == [] then []
    else OutcomeMsgs(outcomes[..|outcomes|-1]) + [outcomes[|outcomes|-1].msg]
  }

  function InHand(w: WPc): seq<Msg> {
    if (w.WHold? || w.WLoaded?) && w.frame.Data? then [w.frame.msg] else []
  }

  ghost predicate AccountInv(log: Log, write: Chan<Msg>, w: WPc) {
    && log.accepted == Msgs(log.taken) + write.buf
    && TakenBy(log.taken, false) == OutcomeMsgs(log.outcomes) + InHand(w)
    && |TakenBy(log.taken, true)| <= log.probes
  }

  /** The first `k` channels, in closing order, are closed and the others are not. */
  ghost predicate ShutUpTo(ch: Chans, k: nat) {
    && (ch.close.closed <==> k > 0)
    && (ch.write.closed <==> k > 1)
    && (ch.closeMsg.closed <==> k > 2)
    && (ch.ping.closed <==> k > 3)
    && (ch.pong.closed <==> k > 4)
  }

  /** Where the goroutine that holds the mutex stands. */
  function Holder(lock: Option<Tid>, pc: Pcs): Rc {
    if lock.Some? then pc.At(lock.value) else Idle
  }

  /** Who has the close token: it is buffered, or a goroutine has read it, or the holder has
      just swallowed it with its probe. */
  ghost predicate CloseInv(ch: Chans, holder: Rc, tokenReads: nat) {
    && ch.close.cap == 1
    && (if holder.AtShut? then ShutUpTo(ch, holder.k) else ShutUpTo(ch, 0) || ShutUpTo(ch, 5))
    && |ch.close.buf| + tokenReads + (if ch.close.closed && holder.AtToken? then 1 else 0)
       == (if ch.close.closed || holder.AtShut? then 1 else 0)
    && (holder.AtFinish? || holder.AtHandler? ==> ch.close.closed)
  }

  ghost predicate CapInv(write: Chan<Msg>) {
    write.cap == BUFFER_SIZE && |write.buf| <= BUFFER_SIZE
  }

  ghost predicate Inv(cfg: Config, s: State) {
    && LockInv(s.lock, s.pc, s.go)
    && PcInv(cfg, s.pc)
    && ConnInv(s.cur, s.open, s.pc, s.go.w)
    && AccountInv(s.log, s.ch.write, s.go.w)
    && CloseInv(s.ch, Holder(s.lock, s.pc), s.log.tokenReads)
    && CapInv(s.ch.write)
  }

  // ------------------------------------------------------------------ every step

  /* For each part of the invariant: the steps of Reconnect, the steps of CloseWs, and with
     these every step. */

  lemma LockStepRec(cfg: Config, s: State, t: Tid, a: RecAct)
    requires RecEnabled(cfg, s, t, a)
    requires LockInv(s.lock, s.pc, s.go)
    requires PcInv(cfg, s.pc)
    ensures var s' := RecApply(cfg, s, t, a); LockInv(s'.lock, s'.pc, s'.go)
  {
    match t case Writer => case Reader => case Client =>
  }

  lemma LockStepCl(cfg: Config, s: State, t: Tid, a: ClAct)
    requires ClEnabled(cfg, s, t, a)
    requires LockInv(s.lock, s.pc, s.go)
    requires PcInv(cfg, s.pc)
    ensures var s' := ClApply(cfg, s, t, a); LockInv(s'.lock, s'.pc, s'.go)
  {
    match t case Writer => case Reader => case Client =>
  }

  lemma LockStep(cfg: Config, s: State, a: Action)
    requires Enabled(cfg, s, a)
    requires LockInv(s.lock, s.pc, s.go)
    requires PcInv(cfg, s.pc)
    ensures var s' := Apply(cfg, s, a); LockInv(s'.lock, s'.pc, s'.go)
  {
    match a
    case Rec(t, rec) => LockStepRec(cfg, s, t, rec);
    case Cl(t, cl) => LockStepCl(cfg, s, t, cl);
    case _ =>
  }

  lemma PcStepRec(cfg: Config, s: State, t: Tid, a: RecAct)
    requires RecEnabled(cfg, s, t, a)
    requires LockInv(s.lock, s.pc, s.go)
    requires PcInv(cfg, s.pc)
    ensures var s' := RecApply(cfg, s, t, a); PcInv(cfg, s'.pc)
  {
    match t case Writer => case Reader => case Client =>
  }

  lemma PcStepCl(cfg: Config, s: State, t: Tid, a: ClAct)
    requires ClEnabled(cfg, s, t, a)
    requires LockInv(s.lock, s.pc, s.go)
    requires PcInv(cfg, s.pc)
    ensures var s' := ClApply(cfg, s, t, a); PcInv(cfg, s'.pc)
  {
    match t case Writer => case Reader => case Client =>
  }

  lemma PcStep(cfg: Config, s: State, a: Action)
    requires Enabled(cfg, s, a)
    requires LockInv(s.lock, s.pc, s.go)
    requires PcInv(cfg, s.pc)
    ensures var s' := Apply(cfg, s, a); PcInv(cfg, s'.pc)
  {
    match a
    case Rec(t, rec) => PcStepRec(cfg, s, t, rec);
    case Cl(t, cl) => PcStepCl(cfg, s, t, cl);
    case _ =>
  }

  lemma ConnStepRec(cfg: Config, s: State, t: Tid, a: RecAct)
    requires RecEnabled(cfg, s, t, a)
    requires LockInv(s.lock, s.pc, s.go)
    requires ConnInv(s.cur, s.open, s.pc, s.go.w)
    ensures var s' := RecApply(cfg, s, t, a); ConnInv(s'.cur, s'.open, s'.pc, s'.go.w)
  {
    match t case Writer => case Reader => case Client =>
  }

  lemma ConnStepCl(cfg: Config, s: State, t: Tid, a: ClAct)
    requires ClEnabled(cfg, s, t, a)
    requires LockInv(s.lock, s.pc, s.go)
    requires ConnInv(s.cur, s.open, s.pc, s.go.w)
    ensures var s' := ClApply(cfg, s, t, a); ConnInv(s'.cur, s'.open, s'.pc, s'.go.w)
  {
    match t case Writer => case Reader => case Client =>
  }

  lemma ConnStep(cfg: Config, s: State, a: Action)
    requires Enabled(cfg, s, a)
    requires LockInv(s.lock, s.pc, s.go)
    requires ConnInv(s.cur, s.open, s.pc, s.go.w)
    ensures var s' := Apply(cfg, s, a); ConnInv(s'.cur, s'.open, s'.pc, s'.go.w)
  {
    match a
    case Rec(t, rec) => ConnStepRec(cfg, s, t, rec);
    case Cl(t, cl) => ConnStepCl(cfg, s, t, cl);
    case _ =>
  }

  lemma CloseStepRec(cfg: Config, s: State, t: Tid, a: RecAct)
    requires RecEnabled(cfg, s, t, a)
    requires LockInv(s.lock, s.pc, s.go)
    requires PcInv(cfg, s.pc)
    requires CloseInv(s.ch, Holder(s.lock, s.pc), s.log.tokenReads)
    ensures var s' := RecApply(cfg, s, t, a); CloseInv(s'.ch, Holder(s'.lock, s'.pc), s'.log.tokenReads)
  {
    match t case Writer => case Reader => case Client =>
  }

  /** Closing the next channel in order. */
  lemma CloseStepShut(ch: Chans, k: nat)
    requires k <= 4 && ShutUpTo(ch, k)
    ensures !ch.IsShut(k) && ShutUpTo(ch.Shut(k), k + 1)
    ensures ch.Shut(k).close == if k == 0 then ch.close.Shut() else ch.close
  {
    match k case 0 => case 1 => case 2 => case 3 => case _ =>
  }

  lemma CloseStepCl(cfg: Config, s: State, t: Tid, a: ClAct)
    requires ClEnabled(cfg, s, t, a)
    requires LockInv(s.lock, s.pc, s.go)
    requires PcInv(cfg, s.pc)
    requires CloseInv(s.ch, Holder(s.lock, s.pc), s.log.tokenReads)
    ensures var s' := ClApply(cfg, s, t, a); CloseInv(s'.ch, Holder(s'.lock, s'.pc), s'.log.tokenReads)
  {
    if a.ShutNext? {
      CloseStepShut(s.ch, s.pc.At(t).k);
    }
    match t case Writer => case Reader => case Client =>
  }

  /** A goroutine that reads the token, or the zero value, at its select. */
  lemma CloseStepToken(ch: Chans, holder: Rc, log: Log)
    requires CloseInv(ch, holder, log.tokenReads) && ch.close.CanReceive()
    ensures CloseInv(ch.(close := ch.close.Rest()), holder, ReadToken(log, ch.close).tokenReads)
  {
  }

  lemma CloseStepWriter(cfg: Config, s: State, a: WAct)
    requires WEnabled(s, a) && LockInv(s.lock, s.pc, s.go)
    requires CloseInv(s.ch, Holder(s.lock, s.pc), s.log.tokenReads)
    ensures var s' := WApply(cfg, s, a); CloseInv(s'.ch, Holder(s'.lock, s'.pc), s'.log.tokenReads)
  {
    match a
    case WStop => CloseStepToken(s.ch, Holder(s.lock, s.pc), s.log);
    case WTake(src) => match src { case FromWrite => case FromPing => case FromPong => case FromCloseMsg => }
    case _ =>
  }

  lemma CloseStepReader(cfg: Config, s: State, a: RAct)
    requires REnabled(s, a) && LockInv(s.lock, s.pc, s.go)
    requires CloseInv(s.ch, Holder(s.lock, s.pc), s.log.tokenReads)
    ensures var s' := RApply(cfg, s, a); CloseInv(s'.ch, Holder(s'.lock, s'.pc), s'.log.tokenReads)
  {
    match a
    case RStop => CloseStepToken(s.ch, Holder(s.lock, s.pc), s.log);
    case _ =>
  }

  lemma CloseStepEnv(cfg: Config, s: State, a: EnvAct)
    requires EnvEnabled(s, a)
    requires CloseInv(s.ch, Holder(s.lock, s.pc), s.log.tokenReads)
    ensures var s' := EnvApply(cfg, s, a); CloseInv(s'.ch, Holder(s'.lock, s'.pc), s'.log.tokenReads)
  {
  }

  lemma CloseStep(cfg: Config, s: State, a: Action)
    requires Enabled(cfg, s, a)
    requires LockInv(s.lock, s.pc, s.go)
    requires PcInv(cfg, s.pc)
    requires CloseInv(s.ch, Holder(s.lock, s.pc), s.log.tokenReads)
    ensures var s' := Apply(cfg, s, a); CloseInv(s'.ch, Holder(s'.lock, s'.pc), s'.log.tokenReads)
  {
    match a
    case Rec(t, rec) => CloseStepRec(cfg, s, t, rec);
    case Cl(t, cl) => CloseStepCl(cfg, s, t, cl);
    case ByWriter(w) => CloseStepWriter(cfg, s, w);
    case ByReader(r) => CloseStepReader(cfg, s, r);
    case Env(e) => CloseStepEnv(cfg, s, e);
  }

  /** One receive keeps the books, whoever receives. */
  lemma ReceiveAccount(log: Log, write: Chan<Msg>, byProbe: bool)
    ensures var log' := Receive(log, write, byProbe);
            && Msgs(log'.taken) + write.Rest().buf == Msgs(log.taken) + write.buf
            && TakenBy(log'.taken, byProbe) == TakenBy(log.taken, byProbe) + write.Taken()
            && TakenBy(log'.taken, !byProbe) == TakenBy(log.taken, !byProbe)
  {
    if write.buf != [] {
      var last := Taken(write.buf[0], byProbe);
      assert (log.taken + [last])[..|log.taken|] == log.taken;
      assert write.buf == [write.buf[0]] + write.buf[1..];
    }
  }

  lemma WriteAccount(log: Log, w: WPc, ok: bool)
    requires w.WLoaded?
    ensures OutcomeMsgs(Write(log, w, ok).outcomes) == OutcomeMsgs(log.outcomes) + InHand(w)
  {
    if w.frame.Data? {
      var outcomes := log.outcomes + [Outcome(w.frame.msg, w.conn, ok)];
      assert outcomes[..|outcomes|-1] == log.outcomes;
    }
  }

  lemma AccountStepTake(cfg: Config, s: State)
    requires AccountInv(s.log, s.ch.write, s.go.w) && WEnabled(s, WTake(FromWrite))
    ensures var s' := WApply(cfg, s, WTake(FromWrite)); AccountInv(s'.log, s'.ch.write, s'.go.w)
  {
    ReceiveAccount(s.log, s.ch.write, false);
  }

  lemma AccountStepWrite(cfg: Config, s: State, ok: bool)
    requires AccountInv(s.log, s.ch.write, s.go.w) && WEnabled(s, WWrite(ok))
    ensures var s' := WApply(cfg, s, WWrite(ok)); AccountInv(s'.log, s'.ch.write, s'.go.w)
  {
    WriteAccount(s.log, s.go.w, ok);
  }

  lemma AccountStepWriter(cfg: Config, s: State, a: WAct)
    requires AccountInv(s.log, s.ch.write, s.go.w) && WEnabled(s, a)
    ensures var s' := WApply(cfg, s, a); AccountInv(s'.log, s'.ch.write, s'.go.w)
  {
    match a
    case WTake(FromWrite) => AccountStepTake(cfg, s);
    case WWrite(ok) => AccountStepWrite(cfg, s, ok);
    case _ =>
  }

  lemma AccountStepReader(cfg: Config, s: State, a: RAct)
    requires AccountInv(s.log, s.ch.write, s.go.w) && REnabled(s, a)
    ensures var s' := RApply(cfg, s, a); AccountInv(s'.log, s'.ch.write, s'.go.w)
  {
  }

  lemma AccountStepCl(cfg: Config, s: State, t: Tid, a: ClAct)
    requires AccountInv(s.log, s.ch.write, s.go.w) && ClEnabled(cfg, s, t, a)
    ensures var s' := ClApply(cfg, s, t, a); AccountInv(s'.log, s'.ch.write, s'.go.w)
  {
  }

  /** One accepted send keeps the books. */
  lemma AcceptAccount(log: Log, write: Chan<Msg>, w: WPc, m: Msg)
    requires AccountInv(log, write, w)
    ensures AccountInv(Accept(log, m), write.Append(m), w)
  {
    assert log.accepted + [m] == Msgs(log.taken) + (write.buf + [m]);
  }

  /** One probe keeps the books. */
  lemma ProbeAccount(log: Log, write: Chan<Msg>, w: WPc)
    requires AccountInv(log, write, w)
    ensures AccountInv(Probed(Receive(log, write, true)), write.Rest(), w)
  {
    ReceiveAccount(log, write, true);
  }

  lemma AccountStepEnv(cfg: Config, s: State, a: EnvAct)
    requires AccountInv(s.log, s.ch.write, s.go.w) && EnvEnabled(s, a)
    ensures var s' := EnvApply(cfg, s, a); AccountInv(s'.log, s'.ch.write, s'.go.w)
  {
    match a
    case Send(_, m) => AcceptAccount(s.log, s.ch.write, s.go.w, m);
    case Subscribe => AcceptAccount(s.log, s.ch.write, s.go.w, cfg.sub);
    case CloseGuard => ProbeAccount(s.log, s.ch.write, s.go.w);
    case CloseDo(_) =>
  }

  lemma AccountStepRec(cfg: Config, s: State, t: Tid, a: RecAct)
    requires AccountInv(s.log, s.ch.write, s.go.w) && LockInv(s.lock, s.pc, s.go) && RecEnabled(cfg, s, t, a)
    ensures var s' := RecApply(cfg, s, t, a); AccountInv(s'.log, s'.ch.write, s'.go.w)
  {
    match a
    case Probe => ProbeAccount(s.log, s.ch.write, s.go.w);
    case Hook =>
      if cfg.Resubscription().Some? {
        AcceptAccount(s.log, s.ch.write, s.go.w, cfg.Resubscription().value);
      }
    case Release => match t { case Writer => case Reader => case Client => }
    case _ =>
  }

  lemma AccountStep(cfg: Config, s: State, a: Action)
    requires AccountInv(s.log, s.ch.write, s.go.w) && LockInv(s.lock, s.pc, s.go) && Enabled(cfg, s, a)
    ensures var s' := Apply(cfg, s, a); AccountInv(s'.log, s'.ch.write, s'.go.w)
  {
    match a
    case ByWriter(w) => AccountStepWriter(cfg, s, w);
    case ByReader(r) => AccountStepReader(cfg, s, r);
    case Rec(t, rec) => AccountStepRec(cfg, s, t, rec);
    case Cl(t, cl) => AccountStepCl(cfg, s, t, cl);
    case Env(e) => AccountStepEnv(cfg, s, e);
  }

  lemma CapStep(cfg: Config, s: State, a: Action)
    requires CapInv(s.ch.write) && Enabled(cfg, s, a)
    ensures CapInv(Apply(cfg, s, a).ch.write)
  {
  }

  // ------------------------------------------------------------------- every run

  lemma InitInv(cfg: Config)
    ensures Inv(cfg, Init())
  {
  }

  lemma StepKeepsInv(cfg: Config, s: State, a: Action)
    requires Inv(cfg, s) && Enabled(cfg, s, a)
    ensures Inv(cfg, Apply(cfg, s, a))
  {
    LockStep(cfg, s, a);
    PcStep(cfg, s, a);
    ConnStep(cfg, s, a);
    AccountStep(cfg, s, a);
    CloseStep(cfg, s, a);
    CapStep(cfg, s, a);
  }

  lemma {:induction false} RunKeepsInv(cfg: Config, s: State, run: seq<Action>)
    requires Inv(cfg, s) && IsRun(cfg, s, run)
    ensures Inv(cfg, Exec(cfg, s, run))
    decreases |run|
  {
    if run != [] {
      StepKeepsInv(cfg, s, run[0]);
      RunKeepsInv(cfg, Apply(cfg, s, run[0]), run[1..]);
    }
  }

  ghost predicate Reachable(cfg: Config, s: State) {
    exists run: seq<Action> :: IsRun(cfg, Init(), run) && Exec(cfg, Init(), run) == s
  }

  lemma ReachableInv(cfg: Config, s: State)
    requires Reachable(cfg, s)
    ensures Inv(cfg, s)
  {
    var run: seq<Action> :| IsRun(cfg, Init(), run) && Exec(cfg, Init(), run) == s;
    InitInv(cfg);
    RunKeepsInv(cfg, Init(), run);
  }

  lemma ReachableRun(cfg: Config, s: State, run: seq<Action>)
    requires Reachable(cfg, s) && IsRun(cfg, s, run)
    ensures Reachable(cfg, Exec(cfg, s, run))
  {
    var before: seq<Action> :| IsRun(cfg, Init(), before) && Exec(cfg, Init(), before) == s;
    ExecAppend(cfg, Init(), before, run);
  }

  // ------------------------------------------------------------- what is recorded

  function If(b: bool): nat {
    if b then 1 else 0
  }

  /** Which steps the counters count. */
  lemma CountersRecord(cfg: Config, s: State, a: Action)
    requires Enabled(cfg, s, a)
    ensures var was, log := s.log, Apply(cfg, s, a).log;
            && log.dials == was.dials + If(a.Rec? && a.rec.Dial?)
            && log.slept == was.slept + (if a.Rec? && a.rec == Dial(false) then s.pc.At(a.t).retry else 0)
            && log.probes == was.probes + If((a.Rec? && a.rec.Probe?) || (a.Env? && a.env.CloseGuard?))
            && log.passes == was.passes + If(a.Rec? && a.rec.Probe? && !(s.ch.write.closed && s.ch.write.buf == []))
            && log.handlerRuns == was.handlerRuns + If(a.Cl? && a.cl.Handle?)
            && log.tokenReads == was.tokenReads + If(s.ch.close.buf != [] && (a == ByWriter(WStop) || a == ByReader(RStop)))
  {
    match a
    case Rec(t, rec) =>
    case Cl(t, cl) =>
    case _ =>
  }

  /** What a step sends to the write channel, if it does not panic. */
  function Sent(cfg: Config, a: Action): seq<Msg> {
    match a
    case Env(Send(FromWrite, m)) => [m]
    case Env(Subscribe) => [cfg.sub]
    case Rec(_, Hook) =>
      if cfg.customSub.Some? then [cfg.customSub.value]
      else if cfg.postHook.Some? then [cfg.postHook.value]
      else []
    case _ => []
  }

  /** Which messages the histories of the write channel hold: each one sent, each one received and
      by whom, and each one that a write was tried with, on which connection and how it went. */
  lemma MessagesRecord(cfg: Config, s: State, a: Action)
    requires Enabled(cfg, s, a)
    ensures var s', was, log := Apply(cfg, s, a), s.log, Apply(cfg, s, a).log;
            && log.accepted == was.accepted + (if s'.crashed then [] else Sent(cfg, a))
            && log.taken == was.taken +
                 (if s.ch.write.buf == [] then []
                  else if a == ByWriter(WTake(FromWrite)) then [Taken(s.ch.write.buf[0], false)]
                  else if (a.Rec? && a.rec.Probe?) || (a.Env? && a.env.CloseGuard?) then [Taken(s.ch.write.buf[0], true)]
                  else [])
            && log.outcomes == was.outcomes +
                 (if a.ByWriter? && a.w.WWrite? && s.go.w.frame.Data? then [Outcome(s.go.w.frame.msg, s.go.w.conn, a.w.ok)]
                  else [])
  {
    match a
    case ByWriter(WTake(src)) => match src { case FromWrite => case _ => }
    case Rec(t, rec) => match rec { case Hook => case _ => }
    case Env(Send(src, m)) => match src { case FromWrite => case _ => }
    case _ =>
  }

  /** When a step that uses a channel can be made: a send with room or to a closed channel, a
      receive with something buffered or from a closed one; the reader's default case only when
      its close case is not ready; and the token's timeout only when the token is not accepted. */
  lemma BlocksExactly(cfg: Config, s: State, t: Tid, m: Msg)
    requires !s.crashed
    ensures Enabled(cfg, s, Env(Send(FromWrite, m))) <==> s.ch.write.closed || |s.ch.write.buf| < s.ch.write.cap
    ensures Enabled(cfg, s, Env(Send(FromPing, m))) <==> s.ch.ping.closed || |s.ch.ping.buf| < s.ch.ping.cap
    ensures Enabled(cfg, s, Env(Send(FromPong, m))) <==> s.ch.pong.closed || |s.ch.pong.buf| < s.ch.pong.cap
    ensures Enabled(cfg, s, Env(Send(FromCloseMsg, m))) <==> s.ch.closeMsg.closed || |s.ch.closeMsg.buf| < s.ch.closeMsg.cap
    ensures Enabled(cfg, s, Env(Subscribe)) <==> s.env.initial && (s.ch.write.closed || |s.ch.write.buf| < s.ch.write.cap)
    ensures Enabled(cfg, s, ByWriter(WTake(FromWrite))) <==> s.go.w.WSelect? && (s.ch.write.closed || s.ch.write.buf != [])
    ensures Enabled(cfg, s, ByWriter(WTake(FromPing))) <==> s.go.w.WSelect? && (s.ch.ping.closed || s.ch.ping.buf != [])
    ensures Enabled(cfg, s, ByWriter(WTake(FromPong))) <==> s.go.w.WSelect? && (s.ch.pong.closed || s.ch.pong.buf != [])
    ensures Enabled(cfg, s, ByWriter(WTake(FromCloseMsg))) <==>
              s.go.w.WSelect? && (s.ch.closeMsg.closed || s.ch.closeMsg.buf != [])
    ensures Enabled(cfg, s, ByWriter(WStop)) <==> s.go.w.WSelect? && (s.ch.close.closed || s.ch.close.buf != [])
    ensures Enabled(cfg, s, ByReader(RStop)) <==> s.go.r.RSelect? && (s.ch.close.closed || s.ch.close.buf != [])
    ensures Enabled(cfg, s, ByReader(RLoad)) <==> s.go.r.RSelect? && !s.ch.close.closed && s.ch.close.buf == []
    ensures Enabled(cfg, s, Rec(t, Acquire)) <==> s.pc.At(t).Wait? && s.lock == None
    ensures Enabled(cfg, s, Rec(t, Hook)) <==>
              s.pc.At(t).AtHook?
              && (cfg.customSub.Some? || cfg.postHook.Some? ==> s.ch.write.closed || |s.ch.write.buf| < s.ch.write.cap)
    ensures Enabled(cfg, s, Cl(t, Token)) <==> s.pc.At(t).AtToken? && (s.ch.close.closed || |s.ch.close.buf| < s.ch.close.cap)
    ensures Enabled(cfg, s, Cl(t, Timeout)) <==> s.pc.At(t).AtToken? && !s.ch.close.closed && |s.ch.close.buf| >= s.ch.close.cap
  {
  }

  lemma HandlerStep(cfg: Config, s: State, a: Action)
    requires !s.go.r.RInit? && Enabled(cfg, s, a)
    ensures var s' := Apply(cfg, s, a); !s'.go.r.RInit? && s'.go.handlerGen == s.go.handlerGen
  {
    match a
    case Rec(t, rec) => match t { case Writer => case Reader => case Client => }
    case ByWriter(w) => assert WApply(cfg, s, w).go.r == s.go.r;
    case ByReader(r) =>
    case Cl(t, cl) => assert ClApply(cfg, s, t, cl).go == s.go;
    case Env(e) => assert EnvApply(cfg, s, e).go == s.go;
  }

  /** The ping handler is set once, when the reader starts, on the connection that is current
      then.  A connection that a reconnect dials later never gets it: no ping that arrives on it
      is answered through the pong channel. */
  lemma {:induction false} HandlerIsSetOnce(cfg: Config, s: State, run: seq<Action>, m: Msg)
    requires !s.go.r.RInit? && IsRun(cfg, s, run)
    ensures var s' := Exec(cfg, s, run);
            && s'.go.handlerGen == s.go.handlerGen
            && (s'.go.r.RRead? && s'.go.r.conn != s.go.handlerGen ==> !Enabled(cfg, s', ByReader(RPing(m))))
    decreases |run|
  {
    if run != [] {
      HandlerStep(cfg, s, run[0]);
      HandlerIsSetOnce(cfg, Apply(cfg, s, run[0]), run[1..], m);
    }
  }

  /** A goroutine that leaves `Reconnect` goes on with its own loop and disturbs nothing else: the
      writer's error, timer and the ping handler stay as they are, and so does the other one. */
  lemma ReleaseReturnsToTheLoop(cfg: Config, s: State, t: Tid)
    requires Inv(cfg, s) && !s.crashed && RecEnabled(cfg, s, t, Release)
    ensures var s' := RecApply(cfg, s, t, Release);
            && s'.go.err == s.go.err && s'.go.timer == s.go.timer && s'.go.handlerGen == s.go.handlerGen
            && (t.Writer? ==> s'.go.w == WSelect && s'.go.r == s.go.r && s'.pc.w.Idle?)
            && (t.Reader? ==> s'.go.r == RSelect && s'.go.w == s.go.w && s'.pc.r.Idle?)
            && (t.Client? ==> s'.go.w == s.go.w && s'.go.r == s.go.r && s'.pc.k.Idle?)
            && s'.lock.None? && s'.ch == s.ch && s'.cur == s.cur && s'.open == s.open
  {
    match t case Writer => case Reader => case Client =>
  }

  // ---------------------------------------------------------------- main results

  /** However reader and writer errors interleave, never two connections are open; and the
      pointer moves only to the connection just dialled, in the hands of the goroutine that
      holds the mutex, when every other connection is closed. */
  lemma OneConnection(cfg: Config, s: State, a: Action)
    requires Reachable(cfg, s) && Enabled(cfg, s, a)
    ensures |s.open| <= 1
    ensures var s' := Apply(cfg, s, a);
            s'.cur != s.cur ==>
              && a.Rec? && s.lock == Some(a.t) && s'.lock == Some(a.t)
              && s'.cur == s.cur + 1 && s.open <= {s'.cur}
  {
    ReachableInv(cfg, s);
    if s.open != {} {
      assert s.open == {Live(s.cur, s.pc)};
    }
  }

  /** A write that succeeds went out on the connection that is current at that moment, even
      if the writer had read the pointer long before. */
  lemma WritesReachTheCurrentConnection(cfg: Config, s: State)
    requires Reachable(cfg, s) && Enabled(cfg, s, ByWriter(WWrite(true)))
    ensures s.go.w.conn == s.cur && s.open == {s.cur}
  {
    ReachableInv(cfg, s);
  }

  /** The books: what the write channel accepted is, in order, what was taken out followed
      by what is queued.  What the writer took is, in order, what it wrote or failed to
      write, followed by the message in its hand; a failed message is never queued again.
      All the rest was swallowed by probes, at most one message per probe. */
  lemma MessageAccounting(cfg: Config, s: State)
    requires Reachable(cfg, s)
    ensures s.log.accepted == Msgs(s.log.taken) + s.ch.write.buf
    ensures TakenBy(s.log.taken, false) == OutcomeMsgs(s.log.outcomes) + InHand(s.go.w)
    ensures |TakenBy(s.log.taken, true)| <= s.log.probes
    ensures multiset(s.log.accepted)
         == multiset(OutcomeMsgs(s.log.outcomes)) + multiset(InHand(s.go.w))
            + multiset(TakenBy(s.log.taken, true)) + multiset(s.ch.write.buf)
    ensures |s.log.accepted|
         == |s.log.outcomes| + |InHand(s.go.w)| + |TakenBy(s.log.taken, true)| + |s.ch.write.buf|
  {
    ReachableInv(cfg, s);
    TakenSplit(s.log.taken);
    OutcomeCount(s.log.outcomes);
  }

  lemma {:induction false} TakenSplit(taken: seq<Taken>)
    ensures multiset(Msgs(taken)) == multiset(TakenBy(taken, false)) + multiset(TakenBy(taken, true))
    ensures |Msgs(taken)| == |TakenBy(taken, false)| + |TakenBy(taken, true)| == |taken|
  {
    if taken != [] {
      TakenSplit(taken[..|taken|-1]);
    }
  }

  lemma {:induction false} OutcomeCount(outcomes: seq<Outcome>)
    ensures |OutcomeMsgs(outcomes)| == |outcomes|
  {
    if outcomes != [] {
      OutcomeCount(outcomes[..|outcomes|-1]);
    }
  }
}
