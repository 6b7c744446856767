/** Two goroutines that call `Reconnect` for the same failure: the second one, queued at the
    mutex, asks nobody whether the connection is still the one that failed. */
module WsQueued {
  import opened GoChan
  import opened WsModel
  import opened WsInvariants
  import opened WsRuns

  /** The exact condition: a `Reconnect` that gets the mutex closes the current connection,
      healthy or not and whoever dialled it, unless the write channel is closed and drained. */
  lemma QueuedReconnectClosesAnyConnection(cfg: Config, s: State, t: Tid)
    requires Inv(cfg, s) && !s.crashed && s.lock.None? && s.pc.At(t).Wait?
    ensures IsRun(cfg, s, Guarding(t))
    ensures var guarded := Exec(cfg, s, Guarding(t));
            && guarded.cur == s.cur && guarded.open == s.open
            && (Enabled(cfg, guarded, Rec(t, CloseOld)) <==> !s.ch.write.Drained())
    ensures !s.ch.write.Drained() ==>
              && IsRun(cfg, s, GuardAndClose(t))
              && var s' := Exec(cfg, s, GuardAndClose(t));
                 s'.open == {} && s'.cur == s.cur && s'.pc.At(t) == AtDial(1)
  {
    GuardingExec(cfg, s, t);
    match t { case Writer => case Reader => case Client => }
    if !s.ch.write.Drained() {
      GuardAndCloseExec(cfg, s, t);
    }
  }

  /** A whole `Reconnect` whose first dial succeeds. */
  function Redialled(t: Tid): seq<Action> {
    Redial(t) + Finishing(t)
  }

  lemma RedialledExec(cfg: Config, s: State, t: Tid, other: Tid)
    requires Inv(cfg, s) && !s.crashed && s.lock.None? && s.pc.At(t).Wait? && !t.Client? && other != t
    requires !s.ch.write.closed && HookReturns(cfg, s.ch.write.Rest())
    ensures IsRun(cfg, s, Redialled(t))
    ensures var s' := Exec(cfg, s, Redialled(t));
            && !s'.crashed && s'.pc.At(other) == s.pc.At(other) && s'.lock.None?
            && s'.cur == s.cur + 1 && s'.open == {s'.cur}
            && !s'.ch.write.closed && s'.log.outcomes == s.log.outcomes
  {
    assert s.open <= {s.cur};
    RedialExec(cfg, s, t);
    var s1 := AfterSuccess(AboutToDial(s, t), t, 1);
    match t { case Writer => case Reader => case Client => }
    FinishingExec(cfg, s1, t);
    ExecAppend(cfg, s, Redial(t), Finishing(t));
  }

  /** Both goroutines wait at the mutex.  Once the first has dialled a healthy connection and
      left, the second can only close that one: it has no other way past the guard. */
  lemma SecondReconnectClosesTheHealthyConnection(cfg: Config, s: State, t: Tid, u: Tid)
    requires Inv(cfg, s) && !s.crashed && s.lock.None?
    requires t != u && !t.Client? && s.pc.At(t).Wait? && s.pc.At(u).Wait?
    requires !s.ch.write.closed && HookReturns(cfg, s.ch.write.Rest())
    ensures IsRun(cfg, s, Redialled(t))
    ensures var s1 := Exec(cfg, s, Redialled(t));
            && s1.cur == s.cur + 1 && s1.open == {s1.cur} && s1.pc.At(u).Wait?
            && IsRun(cfg, s1, GuardAndClose(u))
            && var s2 := Exec(cfg, s1, GuardAndClose(u)); s2.cur == s1.cur && s2.open == {} && s2.pc.At(u) == AtDial(1)
  {
    RedialledExec(cfg, s, t, u);
    RunKeepsInv(cfg, s, Redialled(t));
    QueuedReconnectClosesAnyConnection(cfg, Exec(cfg, s, Redialled(t)), u);
  }

  /** The writer has taken a message and read the connection pointer. */
  function WriterLoads(m: Msg): seq<Action> {
    [Env(Send(FromWrite, m)), ByWriter(WTake(FromWrite)), ByWriter(WLoad)]
  }

  function Loaded(m: Msg): State {
    Init().(go := Loops(WLoaded(Data(m), 0), false, true, RInit, 0),
            log := Log([m], [Taken(m, false)], [], 0, 0, 0, 0, 0, 0))
  }

  lemma WriterLoadsExec(cfg: Config, m: Msg)
    ensures IsRun(cfg, Init(), WriterLoads(m)) && Exec(cfg, Init(), WriterLoads(m)) == Loaded(m)
  {
    ExecSnoc(cfg, Init(), [], Env(Send(FromWrite, m)));
    var r1 := [] + [Env(Send(FromWrite, m))];
    ExecSnoc(cfg, Init(), r1, ByWriter(WTake(FromWrite)));
    var r2 := r1 + [ByWriter(WTake(FromWrite))];
    ExecSnoc(cfg, Init(), r2, ByWriter(WLoad));
    assert r2 + [ByWriter(WLoad)] == WriterLoads(m);
  }

  /** The read fails, and so does the write. */
  function BothFail(): seq<Action> {
    [ByReader(RStart), ByReader(RLoad), ByReader(RReadResult(false)), ByWriter(WWrite(false)), ByWriter(WSleep)]
  }

  lemma BothFailExec(cfg: Config, m: Msg)
    requires cfg.autoReconnect
    ensures IsRun(cfg, Loaded(m), BothFail())
    ensures var s := Exec(cfg, Loaded(m), BothFail());
            && !s.crashed && s.lock.None? && s.pc.w.Wait? && s.pc.r.Wait? && s.cur == 0
            && s.ch.write == Make(BUFFER_SIZE) && s.log.outcomes == [Outcome(m, 0, false)]
  {
    var s := Loaded(m);
    ExecSnoc(cfg, s, [], ByReader(RStart));
    var r1 := [] + [ByReader(RStart)];
    ExecSnoc(cfg, s, r1, ByReader(RLoad));
    var r2 := r1 + [ByReader(RLoad)];
    ExecSnoc(cfg, s, r2, ByReader(RReadResult(false)));
    var r3 := r2 + [ByReader(RReadResult(false))];
    ExecSnoc(cfg, s, r3, ByWriter(WWrite(false)));
    var r4 := r3 + [ByWriter(WWrite(false))];
    ExecSnoc(cfg, s, r4, ByWriter(WSleep));
    assert r4 + [ByWriter(WSleep)] == BothFail();
  }

  /** A read and a write that fail on the first connection. */
  function OneFailure(m: Msg): seq<Action> {
    WriterLoads(m) + BothFail()
  }

  lemma BothGoroutinesFail(cfg: Config, m: Msg)
    requires cfg.autoReconnect
    ensures IsRun(cfg, Init(), OneFailure(m))
    ensures Exec(cfg, Init(), OneFailure(m)) == Exec(cfg, Loaded(m), BothFail())
  {
    WriterLoadsExec(cfg, m);
    BothFailExec(cfg, m);
    ExecAppend(cfg, Init(), WriterLoads(m), BothFail());
  }

  /** And this does happen: reader and writer see the same connection fail, the reader dials a
      new one, and the writer closes it although nothing was ever wrong with it. */
  lemma HealthyConnectionIsClosed(cfg: Config, m: Msg)
    requires cfg.autoReconnect
    ensures var run := OneFailure(m) + Redialled(Reader);
            IsRun(cfg, Init(), run) &&
            var s := Exec(cfg, Init(), run);
            && Reachable(cfg, s) && s.cur == 1 && s.open == {1} && s.log.outcomes == [Outcome(m, 0, false)]
            && IsRun(cfg, s, GuardAndClose(Writer)) && Exec(cfg, s, GuardAndClose(Writer)).open == {}
  {
    BothGoroutinesFail(cfg, m);
    BothFailExec(cfg, m);
    var s0 := Exec(cfg, Init(), OneFailure(m));
    InitInv(cfg);
    RunKeepsInv(cfg, Init(), OneFailure(m));
    RedialledExec(cfg, s0, Reader, Writer);
    SecondReconnectClosesTheHealthyConnection(cfg, s0, Reader, Writer);
    ExecAppend(cfg, Init(), OneFailure(m), Redialled(Reader));
  }
}
