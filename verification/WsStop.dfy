/** After a close, both goroutines stop under every fair selection: a rank that every step of
    theirs lowers, unless the writer's select passes over its close case. */
module WsStop {
  import opened Wrappers
  import opened WsModel
  import opened WsInvariants
  import opened WsDials

  // -------------------------------------------------------------------- the rank

  predicate Closing(rc: Rc) {
    rc.AtInner? || rc.AtCheck? || rc.AtToken? || rc.AtShut? || rc.AtFinish? || rc.AtHandler?
  }

  /** The next step of a goroutine inside a close. */
  function NextClose(rc: Rc): ClAct
    requires Closing(rc)
  {
    if rc.AtInner? then Enter
    else if rc.AtCheck? then Check
    else if rc.AtToken? then Token
    else if rc.AtShut? then ShutNext
    else if rc.AtFinish? then Finish
    else Handle
  }

  /** An upper bound for the steps that a goroutine still makes before it is back at its loop;
      exact for a first close and for a call whose dials fail. */
  function StepsLeft(rc: Rc): nat {
    match rc
    case Idle => 0
    case Wait => 115
    case AtProbe => 114
    case AtCloseOld => 113
    case AtDial(retry) => if retry <= MAX_RETRY then 12 + (MAX_RETRY + 1 - retry) else 13
    case AtStore(_) => 4
    case AtHook => 3
    case AtInner => 12
    case AtCheck => 11
    case AtToken => 10
    case AtShut(k) => if k <= 4 then 9 - k else 5
    case AtFinish => 4
    case AtHandler => 3
    case AtUnlock => 2
  }

  /** A step of goroutine `t`. */
  predicate StepOf(t: Tid, a: Action) {
    match a
    case ByWriter(_) => t.Writer?
    case ByReader(_) => t.Reader?
    case Rec(u, _) => u == t
    case Cl(u, _) => u == t
    case Env(_) => false
  }

  function WriterLeft(w: WPc, rc: Rc): nat {
    match w
    case WDone => 0
    case WSelect => 1
    case WIn => StepsLeft(rc)
    case WBackoff => 116
    case WLoaded(_, _) => 117
    case WHold(_) => 118
  }

  function ReaderLeft(r: RPc, rc: Rc): nat {
    match r
    case RDone => 0
    case RSelect => 1
    case RInit => 2
    case RIn => StepsLeft(rc)
    case RRead(_) => 116
  }

  function Rank(s: State): nat {
    if s.crashed then 0 else 1 + WriterLeft(s.go.w, s.pc.w) + ReaderLeft(s.go.r, s.pc.r)
  }

  predicate Stopped(s: State) {
    s.go.w.WDone? && s.go.r.RDone?
  }

  /** A panic, both goroutines stopped, or one of them stuck with the mutex (as written only). */
  predicate Halted(cfg: Config, s: State) {
    s.crashed || Stopped(s) || Stuck(cfg, s, Writer) || Stuck(cfg, s, Reader)
  }

  /** A step of one of the two goroutines, not of a client. */
  predicate OwnStep(a: Action) {
    StepOf(Writer, a) || StepOf(Reader, a)
  }

  function OwnSteps(run: seq<Action>): nat {
    if run == [] then 0 else (if OwnStep(run[0]) then 1 else 0) + OwnSteps(run[1..])
  }

  /** The writer's select passes over its close case, which is ready.  A fair select does so
      only finitely often.  The reader has no choice: its default case needs all others blocked. */
  predicate Skip(s: State, a: Action) {
    a.ByWriter? && s.go.w.WSelect? && s.ch.close.CanReceive() && !a.w.WStop?
  }

  function Skips(cfg: Config, s: State, run: seq<Action>): nat
    requires IsRun(cfg, s, run)
    decreases |run|
  {
    if run == [] then 0 else (if Skip(s, run[0]) then 1 else 0) + Skips(cfg, Apply(cfg, s, run[0]), run[1..])
  }

  /** The channels that matter are closed; a client may still be on its way out of `CloseWs`. */
  predicate AfterClose(s: State) {
    s.ch.close.closed && s.ch.write.closed && s.ch.pong.closed
  }

  /** What one step does to the rank. */
  predicate Descends(s: State, s': State, own: bool, skip: bool) {
    AfterClose(s') && Rank(s') + (if own then 1 else 0) <= Rank(s) + (if skip then 118 else 0)
  }

  lemma RankStepRec(cfg: Config, s: State, t: Tid, a: RecAct)
    requires !s.crashed && Inv(cfg, s) && AfterClose(s) && RecEnabled(cfg, s, t, a)
    ensures Descends(s, RecApply(cfg, s, t, a), !t.Client?, false)
  {
    match t case Writer => case Reader => case Client =>
  }

  lemma RankStepCl(cfg: Config, s: State, t: Tid, a: ClAct)
    requires !s.crashed && Inv(cfg, s) && AfterClose(s) && ClEnabled(cfg, s, t, a)
    ensures Descends(s, ClApply(cfg, s, t, a), !t.Client?, false)
  {
    match t case Writer => case Reader => case Client =>
  }

  lemma RankStepWriter(cfg: Config, s: State, a: WAct)
    requires !s.crashed && Inv(cfg, s) && AfterClose(s) && WEnabled(s, a)
    ensures Descends(s, WApply(cfg, s, a), true, Skip(s, ByWriter(a)))
  {
    match a
    case WTake(src) => match src { case FromWrite => case FromPing => case FromPong => case FromCloseMsg => }
    case _ =>
  }

  lemma RankStepReader(cfg: Config, s: State, a: RAct)
    requires !s.crashed && Inv(cfg, s) && AfterClose(s) && REnabled(s, a)
    ensures Descends(s, RApply(cfg, s, a), true, false)
  {
  }

  lemma RankStepEnv(cfg: Config, s: State, a: EnvAct)
    requires !s.crashed && AfterClose(s) && EnvEnabled(s, a)
    ensures Descends(s, EnvApply(cfg, s, a), false, false)
  {
  }

  lemma RankStep(cfg: Config, s: State, a: Action)
    requires Inv(cfg, s) && AfterClose(s) && Enabled(cfg, s, a)
    ensures Descends(s, Apply(cfg, s, a), OwnStep(a), Skip(s, a))
  {
    match a
    case Rec(t, rec) => RankStepRec(cfg, s, t, rec);
    case Cl(t, cl) => RankStepCl(cfg, s, t, cl);
    case ByWriter(w) => RankStepWriter(cfg, s, w);
    case ByReader(r) => RankStepReader(cfg, s, r);
    case Env(e) => RankStepEnv(cfg, s, e);
  }

  /** A step that somebody can make: whoever holds the mutex, or else a goroutine that has not
      stopped. */
  function NextStep(s: State): Action {
    if s.lock.Some? then
      var t := s.lock.value;
      var rc := s.pc.At(t);
      if Closing(rc) then Cl(t, NextClose(rc))
      else if rc.AtProbe? then Rec(t, Probe)
      else if rc.AtCloseOld? then Rec(t, CloseOld)
      else if rc.AtDial? then Rec(t, Dial(false))
      else if rc.AtStore? then Rec(t, Store)
      else if rc.AtHook? then Rec(t, Hook)
      else Rec(t, Release)
    else if !s.go.w.WDone? then
      match s.go.w
      case WSelect => ByWriter(WStop)
      case WHold(_) => ByWriter(WLoad)
      case WLoaded(_, _) => ByWriter(WWrite(false))
      case WBackoff => ByWriter(WSleep)
      case _ => Rec(Writer, Acquire)
    else
      match s.go.r
      case RInit => ByReader(RStart)
      case RSelect => ByReader(RStop)
      case RRead(_) => ByReader(RReadResult(false))
      case _ => Rec(Reader, Acquire)
  }

  lemma NoDeadlock(cfg: Config, s: State)
    requires Inv(cfg, s) && AfterClose(s) && !Halted(cfg, s)
    ensures Enabled(cfg, s, NextStep(s)) && !Skip(s, NextStep(s)) && !NextStep(s).Env?
  {
  }

  /** A client on its way out of `CloseWs` gets there: its step comes closer. */
  lemma ClientLeaves(cfg: Config, s: State)
    requires Inv(cfg, s) && AfterClose(s) && s.lock == Some(Client) && Enabled(cfg, s, NextStep(s))
    ensures var s' := Apply(cfg, s, NextStep(s)); s'.crashed || StepsLeft(s'.pc.k) < StepsLeft(s.pc.k)
  {
  }

  /** The next step lowers the rank or brings a client closer to leaving, so from every state
      the next steps alone lead to the end. */
  lemma NextStepDescends(cfg: Config, s: State)
    requires Inv(cfg, s) && AfterClose(s) && !Halted(cfg, s)
    ensures Enabled(cfg, s, NextStep(s))
    ensures var s' := Apply(cfg, s, NextStep(s));
            || Rank(s') < Rank(s)
            || (Rank(s') == Rank(s) && s.lock == Some(Client) && StepsLeft(s'.pc.k) < StepsLeft(s.pc.k))
  {
    NoDeadlock(cfg, s);
    RankStep(cfg, s, NextStep(s));
    if s.lock == Some(Client) {
      ClientLeaves(cfg, s);
    }
  }

  lemma {:induction false} RunDescends(cfg: Config, s: State, run: seq<Action>)
    requires Inv(cfg, s) && AfterClose(s) && IsRun(cfg, s, run)
    ensures var s' := Exec(cfg, s, run);
            && Inv(cfg, s') && AfterClose(s')
            && OwnSteps(run) + Rank(s') <= Rank(s) + 118 * Skips(cfg, s, run)
    decreases |run|
  {
    if run != [] {
      RankStep(cfg, s, run[0]);
      StepKeepsInv(cfg, s, run[0]);
      RunDescends(cfg, Apply(cfg, s, run[0]), run[1..]);
    }
  }

  lemma RankBound(cfg: Config, s: State)
    requires Inv(cfg, s)
    ensures Rank(s) <= 235
  {
  }

  /** There is a step to make which does not pass over the close case, and which lowers the rank
      or, if a client holds the mutex, brings that client closer to releasing it. */
  predicate CanGoOn(cfg: Config, s: State) {
    var next := NextStep(s);
    && Enabled(cfg, s, next) && !Skip(s, next) && !next.Env?
    && var s' := Apply(cfg, s, next);
       Rank(s') < Rank(s) || (s.lock == Some(Client) && StepsLeft(s'.pc.k) < StepsLeft(s.pc.k))
  }

  /** After a close, in every run, with clients doing whatever they like and the writer's select
      choosing as it likes: the two goroutines make at most `Rank` steps, and at most 118 more
      for every time the select passes over the close case.  So under fair selection they make
      finitely many.  And they are not done before both have stopped, unless one panics or, as
      the code is written, gets stuck with its dials exhausted. */
  lemma BothGoroutinesStop(cfg: Config, s: State, run: seq<Action>)
    requires Inv(cfg, s) && AfterClose(s) && IsRun(cfg, s, run)
    ensures var s' := Exec(cfg, s, run);
            && OwnSteps(run) + Rank(s') <= Rank(s) + 118 * Skips(cfg, s, run) && Rank(s) <= 235
            && (Halted(cfg, s') || CanGoOn(cfg, s'))
  {
    RunDescends(cfg, s, run);
    RankBound(cfg, s);
    var s' := Exec(cfg, s, run);
    if !Halted(cfg, s') {
      NoDeadlock(cfg, s');
      NextStepDescends(cfg, s');
    }
  }
}
