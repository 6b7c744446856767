/** The client that `EstablishConn` builds: automatic reconnects, a post-reconnect hook that
    enqueues the subscription again, one initial `Subscribe`, and nobody who sends anything
    else or closes the connection. */
module WsSubscription {
  import opened Wrappers
  import opened WsModel
  import opened WsInvariants
  import opened WsRuns

  predicate Establish(cfg: Config) {
    && cfg.autoReconnect && cfg.innerLocks && !cfg.heartbeat
    && cfg.customSub == None && cfg.postHook == Some(cfg.sub)
  }

  /** What goroutines of this client do: everything but calls that it never makes. */
  predicate EstablishAction(a: Action) {
    && (a.Env? ==> a.env.Subscribe?)
    && (a.Cl? ==> !a.t.Client?)
  }

  predicate EstablishRun(run: seq<Action>) {
    forall i :: 0 <= i < |run| ==> EstablishAction(run[i])
  }

  ghost predicate EstablishReachable(cfg: Config, s: State) {
    exists run: seq<Action> :: EstablishRun(run) && IsRun(cfg, Init(), run) && Exec(cfg, Init(), run) == s
  }

  // ----------------------------------------------------------------- predicates

  /** The subscription was written successfully on connection `gen`. */
  ghost predicate WrittenOn(outcomes: seq<Outcome>, sub: Msg, gen: nat) {
    Outcome(sub, gen, true) in outcomes
  }

  /** The ways in which the current connection is not a live unsubscribed one. */
  ghost predicate Covered(cfg: Config, s: State) {
    || s.cur !in s.open
    || WrittenOn(s.log.outcomes, cfg.sub, s.cur)
    || s.ch.write.buf != []                         // queued
    || InHand(s.go.w) != []                         // in the writer's hand
    || s.go.w.WBackoff? || s.pc.w.Wait?             // a failed write still owes a reconnect
    || s.env.initial                                // the initial Subscribe is still to come
  }

  /** Inside `Reconnect`, with the subscription not enqueued yet. */
  predicate Pending(rc: Rc) {
    rc.AtProbe? || rc.InFlight() || rc.AtInner?
  }

  function Queue(s: State): nat {
    |s.ch.write.buf| + (if s.env.initial then 1 else 0)
  }

  predicate AllSub(buf: seq<Msg>, sub: Msg) {
    forall i :: 0 <= i < |buf| ==> buf[i] == sub
  }

  predicate HoldsSub(w: WPc, sub: Msg) {
    (w.WHold? || w.WLoaded?) && w.frame.Data? ==> w.frame.msg == sub
  }

  ghost predicate SubInv(cfg: Config, s: State) {
    && !s.crashed && ShutUpTo(s.ch, 0) && s.pc.k.Idle?
    && AllSub(s.ch.write.buf, cfg.sub) && HoldsSub(s.go.w, cfg.sub)
    && Queue(s) <= 2
    && (s.pc.w.InFlight() || s.pc.r.InFlight() ==> Queue(s) <= 1)
    && (Pending(s.pc.w) || Pending(s.pc.r) || Covered(cfg, s))
  }

  // ------------------------------------------------------------------ every step

  lemma SubStepTake(cfg: Config, s: State, src: Src)
    requires Establish(cfg) && Inv(cfg, s) && SubInv(cfg, s) && WEnabled(s, WTake(src))
    ensures SubInv(cfg, WApply(cfg, s, WTake(src)))
  {
  }

  /** A successful write is one on the current connection. */
  lemma SubStepWrite(cfg: Config, s: State, ok: bool)
    requires Establish(cfg) && Inv(cfg, s) && SubInv(cfg, s) && WEnabled(s, WWrite(ok))
    ensures SubInv(cfg, WApply(cfg, s, WWrite(ok)))
  {
    var s' := WApply(cfg, s, WWrite(ok));
    if s.go.w.frame.Data? {
      var last := Outcome(s.go.w.frame.msg, s.go.w.conn, ok);
      assert s'.log.outcomes == s.log.outcomes + [last];
      assert last in s'.log.outcomes;
    }
  }

  lemma SubStepWriter(cfg: Config, s: State, a: WAct)
    requires Establish(cfg) && Inv(cfg, s) && SubInv(cfg, s) && WEnabled(s, a)
    ensures SubInv(cfg, WApply(cfg, s, a))
  {
    match a
    case WTake(src) => SubStepTake(cfg, s, src);
    case WWrite(ok) => SubStepWrite(cfg, s, ok);
    case _ =>
  }

  lemma SubStepReader(cfg: Config, s: State, a: RAct)
    requires Establish(cfg) && Inv(cfg, s) && SubInv(cfg, s) && REnabled(s, a)
    ensures SubInv(cfg, RApply(cfg, s, a))
  {
    match a
    case RPing(m) =>
    case RStop =>
    case _ => assert RApply(cfg, s, a).ch == s.ch;
  }

  lemma SubStepRec(cfg: Config, s: State, t: Tid, a: RecAct)
    requires Establish(cfg) && Inv(cfg, s) && SubInv(cfg, s) && RecEnabled(cfg, s, t, a)
    ensures SubInv(cfg, RecApply(cfg, s, t, a))
  {
    match t case Writer => case Reader => case Client =>
  }

  lemma SubStepRest(cfg: Config, s: State, a: Action)
    requires Establish(cfg) && Inv(cfg, s) && SubInv(cfg, s) && Enabled(cfg, s, a)
    requires EstablishAction(a) && (a.Cl? || a.Env?)
    ensures SubInv(cfg, Apply(cfg, s, a))
  {
  }

  // ------------------------------------------------------------------- every run

  lemma {:induction false} RunKeepsSubInv(cfg: Config, s: State, run: seq<Action>)
    requires Establish(cfg) && Inv(cfg, s) && SubInv(cfg, s)
    requires EstablishRun(run) && IsRun(cfg, s, run)
    ensures SubInv(cfg, Exec(cfg, s, run))
    decreases |run|
  {
    if run != [] {
      var s' := Apply(cfg, s, run[0]);
      match run[0] {
        case ByWriter(w) => SubStepWriter(cfg, s, w);
        case ByReader(r) => SubStepReader(cfg, s, r);
        case Rec(t, rec) => SubStepRec(cfg, s, t, rec);
        case _ => SubStepRest(cfg, s, run[0]);
      }
      StepKeepsInv(cfg, s, run[0]);
      RunKeepsSubInv(cfg, s', run[1..]);
    }
  }

  lemma EstablishInv(cfg: Config, s: State)
    requires Establish(cfg) && EstablishReachable(cfg, s)
    ensures Inv(cfg, s) && SubInv(cfg, s)
  {
    var run: seq<Action> :| EstablishRun(run) && IsRun(cfg, Init(), run) && Exec(cfg, Init(), run) == s;
    InitInv(cfg);
    RunKeepsInv(cfg, Init(), run);
    RunKeepsSubInv(cfg, Init(), run);
  }

  // ---------------------------------------------------------------- main results

  /** No live connection is left unsubscribed, in any interleaving of the two goroutines with
      the initial `Subscribe`. */
  lemma NoLiveConnectionIsUnsubscribed(cfg: Config, run: seq<Action>)
    requires cfg.autoReconnect && cfg.innerLocks && !cfg.heartbeat
    requires cfg.customSub == None && cfg.postHook == Some(cfg.sub)
    requires IsRun(cfg, Init(), run)
    requires forall a <- run :: (a.Env? ==> a == Env(Subscribe)) && !(a.Cl? && a.t == Client)
    ensures var s := Exec(cfg, Init(), run);
            s.lock == None ==>   // nobody is inside Reconnect
              || s.cur !in s.open
              || Outcome(cfg.sub, s.cur, true) in s.log.outcomes
              || cfg.sub in s.ch.write.buf
              || InHand(s.go.w) == [cfg.sub]
              || s.go.w.WBackoff? || s.pc.w.Wait?
              || s.env.initial
  {
    var s := Exec(cfg, Init(), run);
    assert EstablishReachable(cfg, s) by {
      assert EstablishRun(run);
    }
    EstablishInv(cfg, s);
    if s.ch.write.buf != [] {
      assert s.ch.write.buf[0] == cfg.sub;
    }
  }

  /** Neither the initial subscription nor a resubscription ever blocks, or panics, although
      the goroutine that resubscribes may be the only consumer of the write channel. */
  lemma SubscribingNeverBlocks(cfg: Config, s: State, t: Tid)
    requires Establish(cfg) && EstablishReachable(cfg, s)
    ensures !s.crashed && Queue(s) <= 2 && s.ch.write.cap == 10
    ensures s.pc.At(t).InFlight() ==> Queue(s) <= 1
    ensures s.env.initial ==>
              Enabled(cfg, s, Env(Subscribe)) && Apply(cfg, s, Env(Subscribe)).ch.write.buf == s.ch.write.buf + [cfg.sub]
    ensures s.pc.At(t).AtHook? ==>
              && Enabled(cfg, s, Rec(t, Hook))
              && Apply(cfg, s, Rec(t, Hook)).ch.write.buf == s.ch.write.buf + [cfg.sub]
              && Apply(cfg, s, Rec(t, Hook)).pc.At(t).AtUnlock?
  {
    EstablishInv(cfg, s);
    match t case Writer => case Reader => case Client =>
  }

  /** And a resubscription does get written: when a goroutine is at the hook of a reconnect, with
      the new connection open and the writer at its select or waiting for this very call, then
      enqueueing, leaving and writing is a run, after which the subscription has been written on
      the current connection. */
  lemma ResubscriptionGetsWritten(cfg: Config, s: State, t: Tid)
    requires Establish(cfg) && EstablishReachable(cfg, s) && s.cur in s.open
    requires !t.Client? && s.pc.At(t).AtHook? && (t.Writer? || s.go.w.WSelect?)
    ensures IsRun(cfg, s, Finishing(t) + Writing())
    ensures var s' := Exec(cfg, s, Finishing(t) + Writing());
            && WrittenOn(s'.log.outcomes, cfg.sub, s.cur) && s'.cur == s.cur && s'.lock.None?
            && s'.go.w.WSelect? && (t.Reader? ==> s'.go.r.RSelect?)
  {
    EstablishInv(cfg, s);
    assert s.lock == Some(t) && HookReturns(cfg, s.ch.write) by { match t case Writer => case Reader => case Client => }
    FinishingExec(cfg, s, t);
    var s1 := AfterFinishing(cfg, s, t);
    assert s1.ch.write.buf == s.ch.write.buf + [cfg.sub] && s1.ch.write.buf[0] == cfg.sub;
    WritingExec(cfg, s1);
    ExecAppend(cfg, s, Finishing(t), Writing());
    var outcomes := s1.log.outcomes + [Outcome(cfg.sub, s.cur, true)];
    assert outcomes[|outcomes| - 1] == Outcome(cfg.sub, s.cur, true);
  }

  /** So does the initial one. */
  lemma InitialSubscriptionGetsWritten(cfg: Config)
    requires Establish(cfg)
    ensures IsRun(cfg, Init(), [Env(Subscribe)] + Writing())
    ensures var s := Exec(cfg, Init(), [Env(Subscribe)] + Writing());
            EstablishReachable(cfg, s) && WrittenOn(s.log.outcomes, cfg.sub, 0) && s.cur == 0 && s.open == {0}
  {
    ExecSnoc(cfg, Init(), [], Env(Subscribe));
    assert [] + [Env(Subscribe)] == [Env(Subscribe)];
    var s1 := Exec(cfg, Init(), [Env(Subscribe)]);
    WritingExec(cfg, s1);
    ExecAppend(cfg, Init(), [Env(Subscribe)], Writing());
    var run := [Env(Subscribe)] + Writing();
    assert EstablishRun(run);
    var outcomes := s1.log.outcomes + [Outcome(cfg.sub, 0, true)];
    assert outcomes[|outcomes| - 1] == Outcome(cfg.sub, 0, true);
  }
}
