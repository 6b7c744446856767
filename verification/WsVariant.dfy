/** The repaired variant, for contrast: the `CloseWs` that an exhausted `Reconnect` calls does
    not take the mutex a second time.  Then the close completes and the error handler runs,
    and both goroutines stop, unless one panics. */
module WsVariant {
  import opened Wrappers
  import opened WsModel
  import opened WsInvariants
  import opened WsRuns
  import opened WsDials
  import opened WsStop

  // ----------------------------------------------------- the inner close completes

  /** How many steps of its own a goroutine in the inner close has left, the handler included: ten
      from an exhausted `Reconnect`, one at the handler.  Fewer if the channels are closed
      already. */
  function CloseLeft(rc: Rc): nat
    requires Closing(rc)
  {
    StepsLeft(rc) - 2
  }

  lemma NextCloseStep(cfg: Config, s: State, t: Tid, a: ClAct)
    requires !cfg.innerLocks && Inv(cfg, s) && !t.Client? && Closing(s.pc.At(t)) && a == NextClose(s.pc.At(t))
    ensures ClEnabled(cfg, s, t, a)
    ensures var rc := ClApply(cfg, s, t, a).pc.At(t);
            ClApply(cfg, s, t, a).crashed || (StepsLeft(rc) < StepsLeft(s.pc.At(t)) && (Closing(rc) || rc.AtUnlock?))
  {
    match t case Writer => case Reader => case Client =>
  }

  /** The next step of a goroutine in the inner close is always enabled, and unless it panics
      it brings the goroutine closer to the end of the error handler. */
  lemma InnerCloseProceeds(cfg: Config, s: State, t: Tid)
    requires !cfg.innerLocks && Reachable(cfg, s) && !s.crashed
    requires !t.Client? && Closing(s.pc.At(t))
    ensures var next := Cl(t, NextClose(s.pc.At(t)));
            Enabled(cfg, s, next) &&
            var rc := Apply(cfg, s, next).pc.At(t);
            Apply(cfg, s, next).crashed || (StepsLeft(rc) < StepsLeft(s.pc.At(t)) && (Closing(rc) || rc.AtUnlock?))
  {
    ReachableInv(cfg, s);
    NextCloseStep(cfg, s, t, NextClose(s.pc.At(t)));
  }

  /** A goroutine in the inner close keeps everybody out of `Reconnect`. */
  lemma UndisturbedRec(cfg: Config, s: State, t: Tid, u: Tid, a: RecAct)
    requires Inv(cfg, s) && Closing(s.pc.At(t))
    ensures !RecEnabled(cfg, s, u, a)
  {
    match u case Writer => case Reader => case Client =>
  }

  lemma UndisturbedCl(cfg: Config, s: State, t: Tid, u: Tid, a: ClAct)
    requires Inv(cfg, s) && Closing(s.pc.At(t)) && u != t && !t.Client?
    ensures !ClEnabled(cfg, s, u, a)
  {
    match u case Writer => case Reader => case Client =>
  }

  /** No step of another goroutine moves it, runs the error handler or is a step of a close. */
  lemma InnerCloseUndisturbed(cfg: Config, s: State, t: Tid, a: Action)
    requires !cfg.innerLocks && Inv(cfg, s) && !t.Client? && Closing(s.pc.At(t))
    requires Enabled(cfg, s, a) && !(a.Cl? && a.t == t)
    ensures !StepOf(t, a) && !a.Rec? && !a.Cl?
    ensures var s' := Apply(cfg, s, a); s'.pc.At(t) == s.pc.At(t) && s'.log.handlerRuns == s.log.handlerRuns
  {
    match a
    case Rec(u, rec) => UndisturbedRec(cfg, s, t, u, rec);
    case Cl(u, cl) => UndisturbedCl(cfg, s, t, u, cl);
    case _ =>
  }

  function StepsOf(t: Tid, run: seq<Action>): nat {
    if run == [] then 0 else (if StepOf(t, run[0]) then 1 else 0) + StepsOf(t, run[1..])
  }

  /** All five channels are closed, and an error handler has run between the two states. */
  ghost predicate InnerCloseDone(s: State, s': State) {
    ShutUpTo(s'.ch, 5) && s'.log.handlerRuns > s.log.handlerRuns
  }

  lemma InnerCloseOwnStep(cfg: Config, s: State, t: Tid, a: ClAct)
    requires !cfg.innerLocks && Inv(cfg, s) && !t.Client? && Closing(s.pc.At(t)) && ClEnabled(cfg, s, t, a)
    ensures var s' := ClApply(cfg, s, t, a);
            || s'.crashed
            || (Closing(s'.pc.At(t)) && StepsLeft(s'.pc.At(t)) < StepsLeft(s.pc.At(t))
                && s'.log.handlerRuns == s.log.handlerRuns)
            || InnerCloseDone(s, s')
  {
    assert Holder(s.lock, s.pc) == s.pc.At(t) by { match t case Writer => case Reader => case Client => }
    match t case Writer => case Reader => case Client =>
  }

  lemma ShutStays(cfg: Config, s: State, a: Action)
    requires Enabled(cfg, s, a) && ShutUpTo(s.ch, 5)
    ensures ShutUpTo(Apply(cfg, s, a).ch, 5) && Apply(cfg, s, a).log.handlerRuns >= s.log.handlerRuns
  {
    match a
    case Rec(_, rec) =>
    case Cl(_, cl) =>
    case _ =>
  }

  lemma {:induction false} ShutForever(cfg: Config, s: State, run: seq<Action>)
    requires IsRun(cfg, s, run) && ShutUpTo(s.ch, 5)
    ensures ShutUpTo(Exec(cfg, s, run).ch, 5) && Exec(cfg, s, run).log.handlerRuns >= s.log.handlerRuns
    decreases |run|
  {
    if run != [] {
      ShutStays(cfg, s, run[0]);
      ShutForever(cfg, Apply(cfg, s, run[0]), run[1..]);
    }
  }

  /** In every run from the inner close on, whatever the others do: as long as the goroutine has
      not panicked or finished, each of its steps brings it closer to the end; so once it has
      made its remaining steps, the channels are closed and the error handler has run. */
  lemma {:induction false} InnerCloseCompletes(cfg: Config, s: State, t: Tid, run: seq<Action>)
    requires !cfg.innerLocks && Inv(cfg, s) && !t.Client? && Closing(s.pc.At(t)) && IsRun(cfg, s, run)
    ensures var s' := Exec(cfg, s, run);
            || s'.crashed
            || (Closing(s'.pc.At(t)) && StepsOf(t, run) + CloseLeft(s'.pc.At(t)) <= CloseLeft(s.pc.At(t))
                && s'.log.handlerRuns == s.log.handlerRuns)
            || InnerCloseDone(s, s')
    decreases |run|
  {
    if run != [] {
      var a, s1 := run[0], Apply(cfg, s, run[0]);
      StepKeepsInv(cfg, s, a);
      if a.Cl? && a.t == t {
        InnerCloseOwnStep(cfg, s, t, a.cl);
      } else {
        InnerCloseUndisturbed(cfg, s, t, a);
      }
      if s1.crashed {
        assert run[1..] == [];
      } else if InnerCloseDone(s, s1) {
        ShutForever(cfg, s1, run[1..]);
      } else {
        InnerCloseCompletes(cfg, s1, t, run[1..]);
      }
    }
  }

  // ---------------------------------------------------------- a run that completes it

  /** The ten steps of an inner close. */
  function InnerClose(t: Tid): seq<Action> {
    Closings(t) + [Cl(t, Handle)]
  }

  lemma {:induction false} AllStepsOf(t: Tid, run: seq<Action>)
    requires forall a <- run :: StepOf(t, a)
    ensures StepsOf(t, run) == |run|
  {
    if run != [] {
      AllStepsOf(t, run[1..]);
    }
  }

  /** The two goroutines' own steps are those of their loops, of `Reconnect` and of `CloseWs`. */
  lemma {:induction false} AllOwnSteps(run: seq<Action>)
    requires forall a <- run :: a.ByWriter? || a.ByReader? || ((a.Rec? || a.Cl?) && a.t != Client)
    ensures OwnSteps(run) == |run|
  {
    if run != [] {
      AllOwnSteps(run[1..]);
    }
  }

  lemma {:induction false} NoSkips(cfg: Config, s: State, run: seq<Action>)
    requires IsRun(cfg, s, run) && forall a <- run :: !a.ByWriter?
    ensures Skips(cfg, s, run) == 0
    decreases |run|
  {
    if run != [] {
      NoSkips(cfg, Apply(cfg, s, run[0]), run[1..]);
    }
  }

  /** If nobody has closed yet, the ten steps are a run, skip nothing and complete the close. */
  lemma InnerCloseTakesTen(cfg: Config, s: State, t: Tid)
    requires !t.Client? && MayClose(cfg, s, t) && Unclosed(s.ch)
    ensures IsRun(cfg, s, InnerClose(t)) && Skips(cfg, s, InnerClose(t)) == 0
    ensures StepsOf(t, InnerClose(t)) == 10 == CloseLeft(s.pc.At(t))
    ensures var s' := Exec(cfg, s, InnerClose(t));
            && InnerCloseDone(s, s') && !s'.crashed && s'.pc.At(t).AtUnlock? && s'.lock == Some(t)
            && s'.go == s.go && s'.ch == AllClosed(s.ch)
  {
    ClosingsExec(cfg, s, t);
    match t { case Writer => case Reader => case Client => }
    ExecSnoc(cfg, s, Closings(t), Cl(t, Handle));
    assert |InnerClose(t)| == 10;
    AllStepsOf(t, InnerClose(t));
    NoSkips(cfg, s, InnerClose(t));
  }

  // ----------------------------------------------------------------- both together

  /** From an exhausted `Reconnect` to the end.  Once the goroutine has left the inner close, or
      has made its remaining steps of it, in a run `run` of whatever interleaving, the channels are
      closed and the error handler has run, unless there was a panic; and every run `more` from
      there on has a bounded number of steps of the two goroutines, ending with both stopped. */
  lemma ExhaustedReconnectStopsBoth(cfg: Config, s: State, t: Tid, run: seq<Action>, more: seq<Action>)
    requires !cfg.innerLocks && Inv(cfg, s) && !t.Client? && Closing(s.pc.At(t))
    requires IsRun(cfg, s, run) && IsRun(cfg, Exec(cfg, s, run), more)
    requires !Closing(Exec(cfg, s, run).pc.At(t)) || StepsOf(t, run) >= CloseLeft(s.pc.At(t))
    ensures var s1 := Exec(cfg, s, run);
            var s2 := Exec(cfg, s1, more);
            s1.crashed ||
            (&& InnerCloseDone(s, s1)
             && OwnSteps(more) + Rank(s2) <= 235 + 118 * Skips(cfg, s1, more)
             && (s2.crashed || Stopped(s2) || CanGoOn(cfg, s2)))
  {
    InnerCloseCompletes(cfg, s, t, run);
    RunKeepsInv(cfg, s, run);
    var s1 := Exec(cfg, s, run);
    if !s1.crashed {
      BothGoroutinesStop(cfg, s1, more);
    }
  }

  /** The goroutine leaves `Reconnect`, and both take the close case of their selects. */
  function Leaving(): seq<Action> {
    [Rec(Reader, Release), ByReader(RStop), ByWriter(WStop)]
  }

  lemma LeavingExec(cfg: Config, s: State)
    requires !s.crashed && s.pc.r.AtUnlock? && s.lock == Some(Reader) && s.go.w.WSelect? && s.ch.close.closed
    ensures IsRun(cfg, s, Leaving()) && Skips(cfg, s, Leaving()) == 0 && OwnSteps(Leaving()) == 3
    ensures Stopped(Exec(cfg, s, Leaving())) && !Exec(cfg, s, Leaving()).crashed
  {
    ExecSnoc(cfg, s, [], Rec(Reader, Release));
    var r1 := [] + [Rec(Reader, Release)];
    ExecSnoc(cfg, s, r1, ByReader(RStop));
    var r2 := r1 + [ByReader(RStop)];
    ExecSnoc(cfg, s, r2, ByWriter(WStop));
    assert r2 + [ByWriter(WStop)] == Leaving();
    AllOwnSteps(Leaving());
  }

  /** And this happens: in the variant a state is reachable in which the reader's dials are
      exhausted; from it the ten steps of its inner close meet the conditions above, close the
      channels and run the handler; and after three more steps both goroutines have stopped. */
  lemma ExhaustedReconnectDoesStopBoth(cfg: Config, m: Msg)
    requires !cfg.innerLocks && cfg.autoReconnect
    ensures var s := Exhausted(m);
            && Reachable(cfg, s) && s.pc.r.AtInner? && !s.crashed
            && IsRun(cfg, s, InnerClose(Reader)) && StepsOf(Reader, InnerClose(Reader)) == CloseLeft(s.pc.r)
            && var s1 := Exec(cfg, s, InnerClose(Reader));
               && !s1.crashed && InnerCloseDone(s, s1)
               && IsRun(cfg, s1, Leaving()) && Skips(cfg, s1, Leaving()) == 0
               && var s2 := Exec(cfg, s1, Leaving()); Stopped(s2) && !s2.crashed
  {
    ExhaustedIsReachable(cfg, m);
    InnerCloseTakesTen(cfg, Exhausted(m), Reader);
    LeavingExec(cfg, Exec(cfg, Exhausted(m), InnerClose(Reader)));
  }
}
