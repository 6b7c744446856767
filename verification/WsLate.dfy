/** After a close: how much reconnecting can still follow, what becomes of it, and that it does
    happen. */
module WsLate {
  import opened Wrappers
  import opened WsModel
  import opened WsInvariants
  import opened WsRuns

  // ------------------------------------------------------ reconnects after a close

  lemma ClosedStep(cfg: Config, s: State, a: Action)
    requires s.ch.write.closed && Enabled(cfg, s, a)
    ensures var s' := Apply(cfg, s, a);
            && s'.ch.write.closed
            && s'.log.passes + |s'.ch.write.buf| <= s.log.passes + |s.ch.write.buf|
  {
    match a
    case Rec(u, rec) => match u { case Writer => case Reader => case Client => }
    case Cl(u, cl) => match u { case Writer => case Reader => case Client => }
    case _ =>
  }

  /** After a close every `Reconnect` that gets past the guard has swallowed one of the
      messages that were queued at the close, so there are at most that many, and at most ten. */
  lemma {:induction false} ReconnectsAfterClose(cfg: Config, s: State, run: seq<Action>)
    requires Inv(cfg, s) && s.ch.write.closed && IsRun(cfg, s, run)
    ensures Exec(cfg, s, run).log.passes - s.log.passes <= |s.ch.write.buf| - |Exec(cfg, s, run).ch.write.buf|
    ensures Exec(cfg, s, run).log.passes - s.log.passes <= 10
    ensures Exec(cfg, s, run).ch.write.closed
    decreases |run|
  {
    if run != [] {
      ClosedStep(cfg, s, run[0]);
      StepKeepsInv(cfg, s, run[0]);
      ReconnectsAfterClose(cfg, Apply(cfg, s, run[0]), run[1..]);
    }
  }

  /** Nobody is past the guard. */
  predicate Quiet(s: State) {
    s.ch.write.Drained() && !s.pc.w.InFlight() && !s.pc.r.InFlight()
  }

  predicate Untouched(s: State, s': State) {
    && Quiet(s') && s'.cur == s.cur && s'.open <= s.open
    && s'.log.dials == s.log.dials && s'.log.passes == s.log.passes
  }

  lemma QuietStepRec(cfg: Config, s: State, t: Tid, a: RecAct)
    requires LockInv(s.lock, s.pc, s.go) && Quiet(s) && RecEnabled(cfg, s, t, a)
    ensures var s' := RecApply(cfg, s, t, a); Untouched(s, s') && s'.open == s.open && s'.ch == s.ch
  {
    match t case Writer => case Reader => case Client =>
  }

  lemma QuietStepCl(cfg: Config, s: State, t: Tid, a: ClAct)
    requires LockInv(s.lock, s.pc, s.go) && Quiet(s) && ClEnabled(cfg, s, t, a)
    ensures Untouched(s, ClApply(cfg, s, t, a))
  {
    match t case Writer => case Reader => case Client =>
  }

  lemma QuietStep(cfg: Config, s: State, a: Action)
    requires LockInv(s.lock, s.pc, s.go) && Quiet(s) && Enabled(cfg, s, a)
    ensures Untouched(s, Apply(cfg, s, a))
  {
    match a
    case Rec(t, rec) => QuietStepRec(cfg, s, t, rec);
    case Cl(t, cl) => QuietStepCl(cfg, s, t, cl);
    case _ =>
  }

  /** Once the write channel is closed and drained, no `Reconnect` touches the connection: the
      pointer stays, nothing is dialled, and nobody gets past the guard again. */
  lemma {:induction false} DrainedReconnectsDoNothing(cfg: Config, s: State, run: seq<Action>)
    requires Inv(cfg, s) && Quiet(s) && IsRun(cfg, s, run)
    ensures Untouched(s, Exec(cfg, s, run))
    decreases |run|
  {
    if run != [] {
      QuietStep(cfg, s, run[0]);
      StepKeepsInv(cfg, s, run[0]);
      DrainedReconnectsDoNothing(cfg, Apply(cfg, s, run[0]), run[1..]);
    }
  }

  /** A `Reconnect` past its guard on a closed connection. */
  predicate Late(s: State, t: Tid) {
    && s.ch.write.closed && s.lock == Some(t)
    && (s.pc.At(t).InFlight() || s.pc.At(t).AtInner?)
  }

  lemma LateStep(cfg: Config, s: State, t: Tid, a: Action)
    requires Inv(cfg, s) && cfg.innerLocks && cfg.Resubscription().Some? && Late(s, t) && Enabled(cfg, s, a)
    ensures Late(Apply(cfg, s, a), t)
    ensures a == Rec(t, Hook) ==> Apply(cfg, s, a).crashed
  {
    match a
    case Rec(u, rec) => match u { case Writer => case Reader => case Client => }
    case Cl(u, cl) => match u { case Writer => case Reader => case Client => }
    case _ =>
  }

  /** With a resubscribe hook, a `Reconnect` that gets past the guard of a closed connection
      never returns: it panics in the hook, or gets stuck if all its dials fail. */
  lemma {:induction false} LateReconnectNeverReturns(cfg: Config, s: State, t: Tid, run: seq<Action>)
    requires Inv(cfg, s) && cfg.innerLocks && cfg.Resubscription().Some? && Late(s, t) && IsRun(cfg, s, run)
    ensures Late(Exec(cfg, s, run), t)
    decreases |run|
  {
    if run != [] {
      LateStep(cfg, s, t, run[0]);
      StepKeepsInv(cfg, s, run[0]);
      LateReconnectNeverReturns(cfg, Apply(cfg, s, run[0]), t, run[1..]);
    }
  }

  // ----------------------------------------------------------- that this happens

  /** The reader waits for the mutex, with a message queued, when a client closes. */
  function ClosedWaiting(m: Msg): State {
    ReaderWaits(m).(ch := AllClosed(ReaderWaits(m).ch), open := {})
  }

  lemma ClosedWaitingIsReachable(cfg: Config, m: Msg)
    requires cfg.autoReconnect
    ensures Reachable(cfg, ClosedWaiting(m))
  {
    ReadFailsExec(cfg, m);
    assert Reachable(cfg, ReaderWaits(m));
    ClientClosesExec(cfg, ReaderWaits(m));
    assert ReaderWaits(m).open - {0} == {};
    ReachableRun(cfg, ReaderWaits(m), ClientCloses());
  }

  /** A late `Reconnect` with a resubscribe hook is reached, and does panic if its dial succeeds. */
  lemma LateReconnectPanics(cfg: Config, m: Msg)
    requires cfg.autoReconnect && cfg.Resubscription().Some?
    ensures var s := AfterGuard(ClosedWaiting(m), Reader);
            && Reachable(cfg, s) && Late(s, Reader) && !s.crashed
            && IsRun(cfg, ClosedWaiting(m), Guarding(Reader)) && Exec(cfg, ClosedWaiting(m), Guarding(Reader)) == s
    ensures IsRun(cfg, ClosedWaiting(m), Redial(Reader) + [Rec(Reader, Hook)])
    ensures Exec(cfg, ClosedWaiting(m), Redial(Reader) + [Rec(Reader, Hook)]).crashed
  {
    var s := ClosedWaiting(m);
    ClosedWaitingIsReachable(cfg, m);
    GuardingExec(cfg, s, Reader);
    ReachableRun(cfg, s, Guarding(Reader));
    RedialExec(cfg, s, Reader);
    ExecSnoc(cfg, s, Redial(Reader), Rec(Reader, Hook));
  }

  /** A ping that arrives after a close is reached, and panics. */
  lemma PingAfterClosePanics(cfg: Config, m: Msg)
    ensures var s := InRead().(ch := AllClosed(InRead().ch), open := {});
            Reachable(cfg, s) && Enabled(cfg, s, ByReader(RPing(m))) && Apply(cfg, s, ByReader(RPing(m))).crashed
  {
    ReadingExec(cfg);
    assert Reachable(cfg, InRead());
    ClientClosesExec(cfg, InRead());
    assert InRead().open - {0} == {};
    ReachableRun(cfg, InRead(), ClientCloses());
  }

  // -------------------------------------------------------- connections left open

  /** A connection is opened by a dial that succeeds, and by nothing else. */
  lemma OnlyDialsOpen(cfg: Config, s: State, a: Action)
    requires Inv(cfg, s) && Enabled(cfg, s, a)
    ensures !(Apply(cfg, s, a).open <= s.open) <==> a.Rec? && a.rec == Dial(true)
  {
    match a
    case Rec(t, Dial(true)) => assert s.cur + 1 in RecApply(cfg, s, t, Dial(true)).open;
    case _ =>
  }

  /** A whole late `Reconnect` of a connection without a resubscribe hook. */
  lemma LateReturns(cfg: Config, s: State, t: Tid)
    requires Inv(cfg, s) && !s.crashed && s.lock.None? && s.pc.At(t).Wait? && !t.Client?
    requires cfg.Resubscription().None? && !s.ch.write.Drained()
    ensures IsRun(cfg, s, Redial(t) + Finishing(t))
    ensures var s' := Exec(cfg, s, Redial(t) + Finishing(t));
            && s'.cur == s.cur + 1 && s'.open == {s'.cur} && s'.lock.None? && s'.pc.At(t).Idle? && !s'.crashed
            && s'.go == (if t.Writer? then s.go.(w := WSelect) else s.go.(r := RSelect)) && s'.ch == s.ch.(write := s.ch.write.Rest())
  {
    assert s.open <= {s.cur};
    RedialExec(cfg, s, t);
    var s1 := AfterSuccess(AboutToDial(s, t), t, 1);
    match t { case Writer => case Reader => case Client => }
    FinishingExec(cfg, s1, t);
    ExecAppend(cfg, s, Redial(t), Finishing(t));
  }

  /** The exact condition, for a connection without a resubscribe hook.  A `Reconnect` that gets
      the mutex after the close dials again if and only if messages are left in the closed
      channel; if its dial succeeds it returns and leaves the new connection open.  If none are
      left, no run touches the connection any more. */
  lemma LateReconnectLeaks(cfg: Config, s: State, t: Tid, run: seq<Action>)
    requires Inv(cfg, s) && !s.crashed && s.ch.write.closed && s.lock.None? && s.pc.At(t).Wait? && !t.Client?
    requires cfg.Resubscription().None? && IsRun(cfg, s, run)
    ensures !s.ch.write.Drained() ==>
              && IsRun(cfg, s, Redial(t) + Finishing(t))
              && var s' := Exec(cfg, s, Redial(t) + Finishing(t));
                 s'.cur == s.cur + 1 && s'.open == {s'.cur} && s'.lock.None? && s'.pc.At(t).Idle? && s'.ch.write.closed
    ensures s.ch.write.Drained() ==> Untouched(s, Exec(cfg, s, run))
  {
    if s.ch.write.Drained() {
      DrainedReconnectsDoNothing(cfg, s, run);
    } else {
      LateReturns(cfg, s, t);
    }
  }

  /** Once both goroutines have stopped, nobody but a client that closes again closes anything. */
  lemma {:induction false} StoppedKeepsOpen(cfg: Config, s: State, run: seq<Action>)
    requires Inv(cfg, s) && s.go.w.WDone? && s.go.r.RDone? && IsRun(cfg, s, run)
    requires forall a <- run :: !a.Cl? && (a.Env? ==> !a.env.CloseDo?)
    ensures Exec(cfg, s, run).open == s.open
    decreases |run|
  {
    if run != [] {
      var s' := Apply(cfg, s, run[0]);
      assert s'.open == s.open && s'.go.w.WDone? && s'.go.r.RDone? by { StoppedStep(cfg, s, run[0]); }
      StepKeepsInv(cfg, s, run[0]);
      StoppedKeepsOpen(cfg, s', run[1..]);
    }
  }

  lemma StoppedStep(cfg: Config, s: State, a: Action)
    requires Inv(cfg, s) && s.go.w.WDone? && s.go.r.RDone? && Enabled(cfg, s, a)
    requires !a.Cl? && (a.Env? ==> !a.env.CloseDo?)
    ensures var s' := Apply(cfg, s, a); s'.open == s.open && s'.go.w.WDone? && s'.go.r.RDone?
  {
    match a
    case Rec(t, rec) => match t { case Writer => case Reader => case Client => }
    case Env(e) => assert EnvApply(cfg, s, e).go == s.go;
    case _ =>
  }

  /** Both goroutines take the close case of their selects. */
  function Stopping(): seq<Action> {
    [ByReader(RStop), ByWriter(WStop)]
  }

  function LeakingRun(): seq<Action> {
    Redial(Reader) + Finishing(Reader) + Stopping()
  }

  /** And this happens: a client has closed and left, both goroutines have stopped without a
      panic, and a connection is open that nobody uses. */
  lemma ConnectionIsLeaked(cfg: Config, m: Msg)
    requires cfg.autoReconnect && cfg.Resubscription().None?
    ensures Reachable(cfg, ClosedWaiting(m)) && IsRun(cfg, ClosedWaiting(m), LeakingRun())
    ensures var s := Exec(cfg, ClosedWaiting(m), LeakingRun());
            && Reachable(cfg, s) && !s.crashed && s.go.w.WDone? && s.go.r.RDone? && s.lock.None?
            && ShutUpTo(s.ch, 5) && s.cur == 1 && s.open == {1}
  {
    var s := ClosedWaiting(m);
    ClosedWaitingIsReachable(cfg, m);
    ReachableInv(cfg, s);
    LateReturns(cfg, s, Reader);
    var back := Redial(Reader) + Finishing(Reader);
    ExecSnoc(cfg, s, back, ByReader(RStop));
    ExecSnoc(cfg, s, back + [ByReader(RStop)], ByWriter(WStop));
    assert back + [ByReader(RStop)] + [ByWriter(WStop)] == LeakingRun();
    ReachableRun(cfg, s, LeakingRun());
  }
}
