/** Stretches of runs that one goroutine makes by itself, and the states they lead to: dialling,
    guarding, resubscribing, closing.  Out of them the other modules build whole calls, and runs
    that show that something can happen. */
module WsRuns {
  import opened Wrappers
  import opened GoChan
  import opened WsModel

  // --------------------------------------------------------------------- dialling

  /** The time slept after `k` dials that failed, of which the first was the r-th of its call. */
  function Backoff(r: nat, k: nat): nat {
    if k == 0 then 0 else Backoff(r, k - 1) + r + k - 1
  }

  lemma {:induction false} BackoffFormula(r: nat, k: nat)
    ensures 2 * Backoff(r, k) == k * (2 * r + k - 1)
  {
    if k > 0 {
      BackoffFormula(r, k - 1);
    }
  }

  /** `n` dials in a row that fail. */
  function Failures(t: Tid, n: nat): seq<Action> {
    if n == 0 then [] else Failures(t, n - 1) + [Rec(t, Dial(false))]
  }

  /** The state after `k` dials that failed, from the r-th on. */
  function AfterFailures(s: State, t: Tid, r: nat, k: nat): State {
    s.(pc := s.pc.With(t, if r + k <= MAX_RETRY then AtDial(r + k) else AtInner),
       log := s.log.(dials := s.log.dials + k, slept := s.log.slept + Backoff(r, k)))
  }

  lemma {:induction false} FailuresExec(cfg: Config, s: State, t: Tid, r: nat, k: nat)
    requires !s.crashed && s.pc.At(t) == AtDial(r) && r <= r + k <= MAX_RETRY + 1 && r <= MAX_RETRY
    ensures IsRun(cfg, s, Failures(t, k)) && Exec(cfg, s, Failures(t, k)) == AfterFailures(s, t, r, k)
  {
    if k == 0 {
      match t case Writer => case Reader => case Client =>
    } else {
      FailuresExec(cfg, s, t, r, k - 1);
      match t { case Writer => case Reader => case Client => }
      ExecSnoc(cfg, s, Failures(t, k - 1), Rec(t, Dial(false)));
    }
  }

  /** The dials of one `Reconnect`: failures up to the n-th, which may succeed. */
  function DialRun(t: Tid, n: nat, ok: bool): seq<Action>
    requires n > 0
  {
    Failures(t, n - 1) + LastStep(t, ok)
  }

  function LastStep(t: Tid, ok: bool): seq<Action> {
    if ok then [Rec(t, Dial(true)), Rec(t, Store)] else [Rec(t, Dial(false))]
  }

  /** The state after `n` dials of which the last succeeded. */
  function AfterSuccess(s: State, t: Tid, n: nat): State
    requires n > 0
  {
    s.(pc := s.pc.With(t, AtHook), cur := s.cur + 1, open := s.open + {s.cur + 1},
       log := s.log.(dials := s.log.dials + n, slept := s.log.slept + Backoff(1, n - 1)))
  }

  lemma DialRunExec(cfg: Config, s: State, t: Tid, n: nat, ok: bool)
    requires !s.crashed && s.pc.At(t) == AtDial(1) && 1 <= n <= MAX_RETRY && (ok || n == MAX_RETRY)
    ensures IsRun(cfg, s, DialRun(t, n, ok))
    ensures Exec(cfg, s, DialRun(t, n, ok)) == if ok then AfterSuccess(s, t, n) else AfterFailures(s, t, 1, n)
  {
    if ok {
      FailuresExec(cfg, s, t, 1, n - 1);
      var run := Failures(t, n - 1);
      match t { case Writer => case Reader => case Client => }
      ExecSnoc(cfg, s, run, Rec(t, Dial(true)));
      ExecSnoc(cfg, s, run + [Rec(t, Dial(true))], Rec(t, Store));
      assert run + [Rec(t, Dial(true))] + [Rec(t, Store)] == DialRun(t, n, ok);
    } else {
      FailuresExec(cfg, s, t, 1, n);
    }
  }

  // -------------------------------------------------------- the rest of Reconnect

  /** The mutex and the probe. */
  function Guarding(t: Tid): seq<Action> {
    [Rec(t, Acquire), Rec(t, Probe)]
  }

  /** The state after the guard. */
  function AfterGuard(s: State, t: Tid): State {
    var log := Probed(Receive(s.log, s.ch.write, true));
    s.(lock := Some(t), ch := s.ch.(write := s.ch.write.Rest()),
       pc := s.pc.With(t, if s.ch.write.Drained() then AtUnlock else AtCloseOld),
       log := if s.ch.write.Drained() then Probed(s.log) else Pass(log))
  }

  lemma GuardingExec(cfg: Config, s: State, t: Tid)
    requires !s.crashed && s.lock.None? && s.pc.At(t).Wait?
    ensures IsRun(cfg, s, Guarding(t)) && Exec(cfg, s, Guarding(t)) == AfterGuard(s, t)
  {
    match t { case Writer => case Reader => case Client => }
    ExecSnoc(cfg, s, [], Rec(t, Acquire));
    assert [] + [Rec(t, Acquire)] == [Rec(t, Acquire)];
    ExecSnoc(cfg, s, [Rec(t, Acquire)], Rec(t, Probe));
    assert [Rec(t, Acquire)] + [Rec(t, Probe)] == Guarding(t);
  }

  /** The steps of `Reconnect` up to the closing of the old connection. */
  function GuardAndClose(t: Tid): seq<Action> {
    Guarding(t) + [Rec(t, CloseOld)]
  }

  /** The state in which the call is about to dial. */
  function AboutToDial(s: State, t: Tid): State {
    AfterGuard(s, t).(pc := s.pc.With(t, AtDial(1)), open := s.open - {s.cur})
  }

  lemma GuardAndCloseExec(cfg: Config, s: State, t: Tid)
    requires !s.crashed && s.lock.None? && s.pc.At(t).Wait? && !s.ch.write.Drained()
    ensures IsRun(cfg, s, GuardAndClose(t)) && Exec(cfg, s, GuardAndClose(t)) == AboutToDial(s, t)
  {
    GuardingExec(cfg, s, t);
    match t { case Writer => case Reader => case Client => }
    ExecSnoc(cfg, s, Guarding(t), Rec(t, CloseOld));
  }

  /** A `Reconnect` whose first dial succeeds, up to the hook. */
  function Redial(t: Tid): seq<Action> {
    GuardAndClose(t) + DialRun(t, 1, true)
  }

  lemma RedialExec(cfg: Config, s: State, t: Tid)
    requires !s.crashed && s.lock.None? && s.pc.At(t).Wait? && !s.ch.write.Drained()
    ensures IsRun(cfg, s, Redial(t)) && Exec(cfg, s, Redial(t)) == AfterSuccess(AboutToDial(s, t), t, 1)
  {
    GuardAndCloseExec(cfg, s, t);
    assert AboutToDial(s, t).pc.At(t) == AtDial(1) by { match t { case Writer => case Reader => case Client => } }
    DialRunExec(cfg, AboutToDial(s, t), t, 1, true);
    ExecAppend(cfg, s, GuardAndClose(t), DialRun(t, 1, true));
  }

  /** The hook and the release. */
  function Finishing(t: Tid): seq<Action> {
    [Rec(t, Hook), Rec(t, Release)]
  }

  /** The hook neither blocks nor panics. */
  predicate HookReturns(cfg: Config, write: Chan<Msg>) {
    cfg.Resubscription().Some? ==> !write.closed && write.CanSend()
  }

  function AfterFinishing(cfg: Config, s: State, t: Tid): State {
    var hooked := match cfg.Resubscription()
                  case None => s
                  case Some(m) => s.(ch := s.ch.(write := s.ch.write.Append(m)), log := Accept(s.log, m));
    hooked.(pc := s.pc.With(t, Idle), lock := None,
            go := if t.Writer? then s.go.(w := WSelect) else if t.Reader? then s.go.(r := RSelect) else s.go)
  }

  lemma FinishingExec(cfg: Config, s: State, t: Tid)
    requires !s.crashed && s.lock == Some(t) && s.pc.At(t).AtHook? && HookReturns(cfg, s.ch.write)
    ensures IsRun(cfg, s, Finishing(t)) && Exec(cfg, s, Finishing(t)) == AfterFinishing(cfg, s, t)
  {
    ExecSnoc(cfg, s, [], Rec(t, Hook));
    match t { case Writer => case Reader => case Client => }
    assert [] + [Rec(t, Hook)] == [Rec(t, Hook)];
    ExecSnoc(cfg, s, [Rec(t, Hook)], Rec(t, Release));
    assert [Rec(t, Hook)] + [Rec(t, Release)] == Finishing(t);
  }

  // ------------------------------------------------------------------ one message

  /** The writer takes a message and writes it. */
  function Writing(): seq<Action> {
    [ByWriter(WTake(FromWrite)), ByWriter(WLoad), ByWriter(WWrite(true))]
  }

  lemma WritingExec(cfg: Config, s: State)
    requires !s.crashed && s.go.w.WSelect? && s.ch.write.buf != [] && s.cur in s.open
    ensures IsRun(cfg, s, Writing())
    ensures Exec(cfg, s, Writing()) ==
            s.(ch := s.ch.(write := s.ch.write.(buf := s.ch.write.buf[1..])), go := s.go.(err := false),
               log := s.log.(taken := s.log.taken + [Taken(s.ch.write.buf[0], false)],
                             outcomes := s.log.outcomes + [Outcome(s.ch.write.buf[0], s.cur, true)]))
  {
    ExecSnoc(cfg, s, [], ByWriter(WTake(FromWrite)));
    var r1 := [] + [ByWriter(WTake(FromWrite))];
    ExecSnoc(cfg, s, r1, ByWriter(WLoad));
    var r2 := r1 + [ByWriter(WLoad)];
    ExecSnoc(cfg, s, r2, ByWriter(WWrite(true)));
    assert r2 + [ByWriter(WWrite(true))] == Writing();
  }

  // ---------------------------------------------------------------------- CloseWs

  /** The channels after the first `k` closings. */
  function ShutFirst(ch: Chans, k: nat): Chans
    requires k <= 5
  {
    if k == 0 then ch else ShutFirst(ch, k - 1).Shut(k - 1)
  }

  lemma ShutFirstFields(ch: Chans, k: nat)
    requires k <= 5
    ensures ShutFirst(ch, k) == Chans(
              if k > 0 then ch.close.Shut() else ch.close,
              if k > 1 then ch.write.Shut() else ch.write,
              if k > 2 then ch.closeMsg.Shut() else ch.closeMsg,
              if k > 3 then ch.ping.Shut() else ch.ping,
              if k > 4 then ch.pong.Shut() else ch.pong)
  {
    if k > 0 {
      ShutFirstFields(ch, k - 1);
    }
  }

  function Shuttings(t: Tid, k: nat): seq<Action> {
    seq(k, _ => Cl(t, ShutNext))
  }

  /** The state after the first `k` closings. */
  function Shutting(s: State, t: Tid, k: nat): State
    requires k <= 5
  {
    s.(pc := s.pc.With(t, if k < 5 then AtShut(k) else AtFinish), ch := ShutFirst(s.ch, k))
  }

  lemma {:induction false} ShuttingsExec(cfg: Config, s: State, t: Tid, k: nat)
    requires !s.crashed && s.pc.At(t) == AtShut(0) && k <= 5
    requires forall j: nat :: j <= 4 ==> !s.ch.IsShut(j)
    ensures IsRun(cfg, s, Shuttings(t, k)) && Exec(cfg, s, Shuttings(t, k)) == Shutting(s, t, k)
  {
    match t { case Writer => case Reader => case Client => }
    if k > 0 {
      ShuttingsExec(cfg, s, t, k - 1);
      ShutFirstFields(s.ch, k - 1);
      assert !ShutFirst(s.ch, k - 1).IsShut(k - 1) by { assert !s.ch.IsShut(k - 1); }
      ExecSnoc(cfg, s, Shuttings(t, k - 1), Cl(t, ShutNext));
      assert Shuttings(t, k - 1) + [Cl(t, ShutNext)] == Shuttings(t, k);
    }
  }

  /** Up to the token. */
  function Entering(t: Tid): seq<Action> {
    [Cl(t, Enter), Cl(t, Check), Cl(t, Token)]
  }

  /** Nobody has closed yet. */
  predicate Unclosed(ch: Chans) {
    ch.close.buf == [] && ch.close.cap == 1 && forall j: nat :: j <= 4 ==> !ch.IsShut(j)
  }

  /** A client may enter `CloseWs`, or, if the inner close does not take the mutex, a goroutine
      whose dials are exhausted. */
  predicate MayClose(cfg: Config, s: State, t: Tid) {
    && !s.crashed
    && if t.Client? then s.pc.k.Idle? && s.lock.None? else s.pc.At(t).AtInner? && !cfg.innerLocks && s.lock == Some(t)
  }

  function WithToken(s: State, t: Tid): State {
    s.(lock := Some(t), pc := s.pc.With(t, AtShut(0)), ch := s.ch.(close := s.ch.close.Append(true)))
  }

  lemma EnteringExec(cfg: Config, s: State, t: Tid)
    requires MayClose(cfg, s, t) && Unclosed(s.ch)
    ensures IsRun(cfg, s, Entering(t)) && Exec(cfg, s, Entering(t)) == WithToken(s, t)
  {
    assert !s.ch.IsShut(0);
    match t { case Writer => case Reader => case Client => }
    ExecSnoc(cfg, s, [], Cl(t, Enter));
    assert [] + [Cl(t, Enter)] == [Cl(t, Enter)];
    ExecSnoc(cfg, s, [Cl(t, Enter)], Cl(t, Check));
    assert [Cl(t, Enter)] + [Cl(t, Check)] == [Cl(t, Enter), Cl(t, Check)];
    ExecSnoc(cfg, s, [Cl(t, Enter), Cl(t, Check)], Cl(t, Token));
    assert [Cl(t, Enter), Cl(t, Check)] + [Cl(t, Token)] == Entering(t);
  }

  /** A first `CloseWs` up to the closing of the connection. */
  function Closings(t: Tid): seq<Action> {
    Entering(t) + Shuttings(t, 5) + [Cl(t, Finish)]
  }

  function AllClosed(ch: Chans): Chans {
    Chans(ch.close.Append(true).Shut(), ch.write.Shut(), ch.closeMsg.Shut(), ch.ping.Shut(), ch.pong.Shut())
  }

  function AfterClosings(s: State, t: Tid): State {
    s.(lock := Some(t), pc := s.pc.With(t, if t.Client? then AtUnlock else AtHandler),
       ch := AllClosed(s.ch), open := s.open - {s.cur})
  }

  lemma ClosingsExec(cfg: Config, s: State, t: Tid)
    requires MayClose(cfg, s, t) && Unclosed(s.ch)
    ensures IsRun(cfg, s, Closings(t)) && Exec(cfg, s, Closings(t)) == AfterClosings(s, t)
  {
    EnteringExec(cfg, s, t);
    var s1 := WithToken(s, t);
    assert forall j: nat :: j <= 4 ==> s1.ch.IsShut(j) == s.ch.IsShut(j);
    assert s1.pc.At(t) == AtShut(0) by { match t { case Writer => case Reader => case Client => } }
    ShuttingsExec(cfg, s1, t, 5);
    ExecAppend(cfg, s, Entering(t), Shuttings(t, 5));
    ShutFirstFields(s1.ch, 5);
    match t { case Writer => case Reader => case Client => }
    ExecSnoc(cfg, s, Entering(t) + Shuttings(t, 5), Cl(t, Finish));
  }

  /** A first `CloseWs` of a client. */
  function ClientCloses(): seq<Action> {
    Closings(Client) + [Rec(Client, Release)]
  }

  lemma ClientClosesExec(cfg: Config, s: State)
    requires MayClose(cfg, s, Client) && Unclosed(s.ch)
    ensures IsRun(cfg, s, ClientCloses())
    ensures Exec(cfg, s, ClientCloses()) == s.(ch := AllClosed(s.ch), open := s.open - {s.cur})
  {
    ClosingsExec(cfg, s, Client);
    ExecSnoc(cfg, s, Closings(Client), Rec(Client, Release));
  }

  // --------------------------------------------------------------- beginning a run

  /** The reader reads its first frame. */
  function Reading(): seq<Action> {
    [ByReader(RStart), ByReader(RLoad)]
  }

  function InRead(): State {
    Init().(go := Init().go.(r := RRead(0)))
  }

  lemma ReadingExec(cfg: Config)
    ensures IsRun(cfg, Init(), Reading()) && Exec(cfg, Init(), Reading()) == InRead()
  {
    ExecSnoc(cfg, Init(), [], ByReader(RStart));
    assert [] + [ByReader(RStart)] == [ByReader(RStart)];
    ExecSnoc(cfg, Init(), [ByReader(RStart)], ByReader(RLoad));
    assert [ByReader(RStart)] + [ByReader(RLoad)] == Reading();
  }

  /** Its read fails while a message is queued. */
  function ReadFails(m: Msg): seq<Action> {
    Reading() + [Env(Send(FromWrite, m)), ByReader(RReadResult(false))]
  }

  function ReaderWaits(m: Msg): State {
    Init().(go := Init().go.(r := RIn), pc := Init().pc.(r := Wait),
            ch := Init().ch.(write := Init().ch.write.Append(m)), log := Accept(Init().log, m))
  }

  lemma ReadFailsExec(cfg: Config, m: Msg)
    requires cfg.autoReconnect
    ensures IsRun(cfg, Init(), ReadFails(m)) && Exec(cfg, Init(), ReadFails(m)) == ReaderWaits(m)
  {
    ReadingExec(cfg);
    ExecSnoc(cfg, Init(), Reading(), Env(Send(FromWrite, m)));
    var run := Reading() + [Env(Send(FromWrite, m))];
    ExecSnoc(cfg, Init(), run, ByReader(RReadResult(false)));
    assert run + [ByReader(RReadResult(false))] == ReadFails(m);
  }
}
