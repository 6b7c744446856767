/** Dialling: how often a `Reconnect` dials and how long it sleeps, in every interleaving, and
    what happens once every dial has failed. */
module WsDials {
  import opened Wrappers
  import opened WsModel
  import opened WsInvariants
  import opened WsRuns

  // ------------------------------------------------------------ at most 100 dials

  /** How many dials a goroutine inside `Reconnect` has left in this call. */
  function DialsLeft(rc: Rc): nat {
    match rc
    case AtProbe => MAX_RETRY
    case AtCloseOld => MAX_RETRY
    case AtDial(retry) => if retry <= MAX_RETRY then MAX_RETRY + 1 - retry else 0
    case _ => 0
  }

  /** While a goroutine holds the mutex, no other one makes a step of `Reconnect` or `CloseWs`. */
  lemma OthersWait(cfg: Config, s: State, t: Tid, u: Tid, rec: RecAct, cl: ClAct)
    requires Inv(cfg, s) && s.lock == Some(t) && u != t
    ensures !RecEnabled(cfg, s, u, rec) && !ClEnabled(cfg, s, u, cl)
  {
    match u case Writer => case Reader => case Client =>
  }

  lemma DialsLeftRec(cfg: Config, s: State, t: Tid, a: RecAct)
    requires Inv(cfg, s) && s.lock == Some(t) && !t.Client? && RecEnabled(cfg, s, t, a) && !a.Release?
    ensures var s' := RecApply(cfg, s, t, a);
            && s'.lock == Some(t)
            && s'.log.dials + DialsLeft(s'.pc.At(t)) <= s.log.dials + DialsLeft(s.pc.At(t))
  {
    match t case Writer => case Reader => case Client =>
  }

  lemma DialsLeftCl(cfg: Config, s: State, t: Tid, a: ClAct)
    requires Inv(cfg, s) && s.lock == Some(t) && !t.Client? && ClEnabled(cfg, s, t, a)
    ensures var s' := ClApply(cfg, s, t, a);
            s'.lock == Some(t) && s'.log.dials == s.log.dials && DialsLeft(s'.pc.At(t)) == 0
  {
    match t case Writer => case Reader => case Client =>
  }

  lemma DialsLeftStep(cfg: Config, s: State, t: Tid, a: Action)
    requires Inv(cfg, s) && s.lock == Some(t) && !t.Client? && Enabled(cfg, s, a) && a != Rec(t, Release)
    ensures var s' := Apply(cfg, s, a);
            && s'.lock == Some(t)
            && s'.log.dials + DialsLeft(s'.pc.At(t)) <= s.log.dials + DialsLeft(s.pc.At(t))
  {
    match a
    case Rec(u, rec) =>
      if u == t {
        DialsLeftRec(cfg, s, t, rec);
      } else {
        OthersWait(cfg, s, t, u, rec, Enter);
      }
    case Cl(u, cl) =>
      if u == t {
        DialsLeftCl(cfg, s, t, cl);
      } else {
        OthersWait(cfg, s, t, u, Acquire, cl);
      }
    case _ =>
  }

  /** From the guard of a `Reconnect` to its release of the mutex nobody dials more than 100
      times, whatever the other goroutines do meanwhile. */
  lemma {:induction false} AtMostAHundredDials(cfg: Config, s: State, t: Tid, run: seq<Action>)
    requires Inv(cfg, s) && s.lock == Some(t) && !t.Client? && IsRun(cfg, s, run)
    requires Rec(t, Release) !in run
    ensures var s' := Exec(cfg, s, run);
            && s'.lock == Some(t)
            && s'.log.dials + DialsLeft(s'.pc.At(t)) <= s.log.dials + DialsLeft(s.pc.At(t)) <= s.log.dials + 100
    decreases |run|
  {
    if run != [] {
      DialsLeftStep(cfg, s, t, run[0]);
      StepKeepsInv(cfg, s, run[0]);
      AtMostAHundredDials(cfg, Apply(cfg, s, run[0]), t, run[1..]);
    }
  }

  // ------------------------------------------------------------- the time slept

  /** Inside a `Reconnect`, with no dial left to make. */
  predicate DoneDialling(rc: Rc) {
    rc.AtStore? || rc.AtHook? || rc.AtInner? || InClose(rc) || rc.AtUnlock?
  }

  /** What a call has slept after `n` dials of which the last succeeded iff `ok`. */
  function CallBackoff(n: nat, ok: bool): nat {
    Backoff(1, if ok && n > 0 then n - 1 else n)
  }

  lemma CallBackoffFormula(n: nat, ok: bool)
    ensures 2 * CallBackoff(n, ok) == if ok then n * (n - 1) else n * (n + 1)
  {
    BackoffFormula(1, if ok && n > 0 then n - 1 else n);
  }

  /** `t` is inside a call that began at `start`, whose last dial so far succeeded iff `ok`, and
      has slept accordingly. */
  predicate InCall(start: Log, s: State, t: Tid, ok: bool) {
    && s.lock == Some(t) && start.dials <= s.log.dials
    && var n := s.log.dials - start.dials;
       && n <= MAX_RETRY && (ok ==> n > 0)
       && s.log.slept == start.slept + CallBackoff(n, ok)
       && (if !ok && n < MAX_RETRY then s.pc.At(t) == AtDial(n + 1) else DoneDialling(s.pc.At(t)))
  }

  /** At most 100 dials; with n of them n(n-1)/2 intervals slept if the last one succeeded and
      n(n+1)/2 if not, so 5050 if none of the 100 does. */
  predicate SleptRight(before: Log, after: Log, ok: bool) {
    var n, slept := after.dials - before.dials, after.slept - before.slept;
    0 <= n <= 100 && 2 * slept == if ok then n * (n - 1) else n * (n + 1)
  }

  lemma InCallFormula(start: Log, s: State, t: Tid, ok: bool)
    requires InCall(start, s, t, ok)
    ensures SleptRight(start, s.log, ok)
  {
    CallBackoffFormula(s.log.dials - start.dials, ok);
  }

  lemma InCallDial(cfg: Config, start: Log, s: State, t: Tid, ok: bool)
    requires InCall(start, s, t, false) && RecEnabled(cfg, s, t, Dial(ok))
    ensures InCall(start, RecApply(cfg, s, t, Dial(ok)), t, ok)
  {
    match t case Writer => case Reader => case Client =>
  }

  /** A step that neither dials nor ends the call. */
  predicate SameCall(s: State, s': State, t: Tid) {
    && s'.lock == s.lock && s'.log.dials == s.log.dials && s'.log.slept == s.log.slept
    && (s'.pc.At(t) == s.pc.At(t) || (DoneDialling(s.pc.At(t)) && DoneDialling(s'.pc.At(t))))
  }

  lemma SameCallRec(cfg: Config, s: State, t: Tid, a: RecAct)
    requires Inv(cfg, s) && !t.Client? && s.lock == Some(t) && RecEnabled(cfg, s, t, a)
    requires s.pc.At(t).AtDial? || DoneDialling(s.pc.At(t))
    requires !a.Release? && !a.Dial?
    ensures SameCall(s, RecApply(cfg, s, t, a), t)
  {
    match t case Writer => case Reader => case Client =>
  }

  lemma SameCallCl(cfg: Config, s: State, t: Tid, a: ClAct)
    requires Inv(cfg, s) && !t.Client? && s.lock == Some(t) && ClEnabled(cfg, s, t, a)
    ensures SameCall(s, ClApply(cfg, s, t, a), t)
  {
    match t case Writer => case Reader => case Client =>
  }

  lemma SameCallLoops(cfg: Config, s: State, t: Tid, a: Action)
    requires Inv(cfg, s) && !t.Client? && s.lock == Some(t) && Enabled(cfg, s, a) && !a.Rec? && !a.Cl?
    ensures SameCall(s, Apply(cfg, s, a), t)
  {
    match a
    case ByWriter(w) => assert t.Writer? ==> s.go.w.WIn?;
    case ByReader(r) => assert t.Reader? ==> s.go.r.RIn?;
    case Env(e) =>
  }

  lemma SameCallStep(cfg: Config, s: State, t: Tid, a: Action)
    requires Inv(cfg, s) && !t.Client? && s.lock == Some(t) && Enabled(cfg, s, a)
    requires s.pc.At(t).AtDial? || DoneDialling(s.pc.At(t))
    requires a != Rec(t, Release) && a != Rec(t, Dial(true)) && a != Rec(t, Dial(false))
    ensures SameCall(s, Apply(cfg, s, a), t)
  {
    match a
    case Rec(u, rec) =>
      if u == t {
        SameCallRec(cfg, s, t, rec);
      } else {
        OthersWait(cfg, s, t, u, rec, Enter);
      }
    case Cl(u, cl) =>
      if u == t {
        SameCallCl(cfg, s, t, cl);
      } else {
        OthersWait(cfg, s, t, u, Acquire, cl);
      }
    case _ => SameCallLoops(cfg, s, t, a);
  }

  lemma InCallStep(cfg: Config, start: Log, s: State, t: Tid, ok: bool, a: Action)
    requires Inv(cfg, s) && !t.Client? && InCall(start, s, t, ok) && Enabled(cfg, s, a) && a != Rec(t, Release)
    ensures InCall(start, Apply(cfg, s, a), t, ok || a == Rec(t, Dial(true)))
  {
    if a.Rec? && a.t == t && a.rec.Dial? {
      InCallDial(cfg, start, s, t, a.rec.ok);
    } else {
      SameCallStep(cfg, s, t, a);
    }
  }

  lemma {:induction false} InCallRun(cfg: Config, start: Log, s: State, t: Tid, ok: bool, run: seq<Action>)
    requires Inv(cfg, s) && !t.Client? && InCall(start, s, t, ok)
    requires IsRun(cfg, s, run) && Rec(t, Release) !in run
    ensures InCall(start, Exec(cfg, s, run), t, ok || Rec(t, Dial(true)) in run)
    decreases |run|
  {
    if run != [] {
      var a := run[0];
      assert Rec(t, Dial(true)) in run <==> a == Rec(t, Dial(true)) || Rec(t, Dial(true)) in run[1..];
      InCallStep(cfg, start, s, t, ok, a);
      StepKeepsInv(cfg, s, a);
      InCallRun(cfg, start, Apply(cfg, s, a), t, ok || a == Rec(t, Dial(true)), run[1..]);
    }
  }

  lemma CallStarts(s: State, t: Tid)
    requires s.lock == Some(t) && s.pc.At(t) == AtDial(1)
    ensures InCall(s.log, s, t, false)
  {
  }

  /** In every interleaving a call sleeps what its dials so far make it sleep. */
  lemma SleepOfEveryCall(cfg: Config, s: State, t: Tid, run: seq<Action>)
    requires Inv(cfg, s) && !t.Client? && s.lock == Some(t) && s.pc.At(t) == AtDial(1)
    requires IsRun(cfg, s, run) && Rec(t, Release) !in run
    ensures SleptRight(s.log, Exec(cfg, s, run).log, Rec(t, Dial(true)) in run)
  {
    CallStarts(s, t);
    InCallRun(cfg, s.log, s, t, false, run);
    InCallFormula(s.log, Exec(cfg, s, run), t, Rec(t, Dial(true)) in run);
  }

  // ------------------------------------------------- exhausted retries (as written)

  /** A goroutine has used up its dials and waits for the mutex that it holds itself. */
  predicate Stuck(cfg: Config, s: State, t: Tid) {
    cfg.innerLocks && s.pc.At(t).AtInner? && s.lock == Some(t)
  }

  /** Nothing that `Reconnect`, `CloseWs` or the error handler would do has been done. */
  predicate NothingHappened(s: State, s': State) {
    && s'.cur == s.cur && s'.log.dials == s.log.dials && s'.log.handlerRuns == s.log.handlerRuns
    && (forall k: nat :: k <= 4 ==> s'.ch.IsShut(k) == s.ch.IsShut(k))
  }

  /** A goroutine that waits for the mutex it holds leaves no step of `Reconnect` to anyone ... */
  lemma StuckStepRec(cfg: Config, s: State, t: Tid, u: Tid, a: RecAct)
    requires Inv(cfg, s) && Stuck(cfg, s, t)
    ensures !RecEnabled(cfg, s, u, a)
  {
    match u case Writer => case Reader => case Client =>
  }

  /** ... and no step of `CloseWs`. */
  lemma StuckStepCl(cfg: Config, s: State, t: Tid, u: Tid, a: ClAct)
    requires Inv(cfg, s) && Stuck(cfg, s, t)
    ensures !ClEnabled(cfg, s, u, a)
  {
    match u case Writer => case Reader => case Client =>
  }

  lemma StuckStep(cfg: Config, s: State, t: Tid, a: Action)
    requires Inv(cfg, s) && Stuck(cfg, s, t) && Enabled(cfg, s, a)
    ensures Stuck(cfg, Apply(cfg, s, a), t) && NothingHappened(s, Apply(cfg, s, a))
  {
    match a
    case Rec(u, rec) => StuckStepRec(cfg, s, t, u, rec);
    case Cl(u, cl) => StuckStepCl(cfg, s, t, u, cl);
    case ByWriter(w) => assert WApply(cfg, s, w).lock == s.lock;
    case ByReader(r) => assert RApply(cfg, s, r).lock == s.lock;
    case Env(e) => assert EnvApply(cfg, s, e).lock == s.lock;
  }

  /** From then on, whatever happens, the mutex stays with that goroutine: there is no further
      dial, no channel is closed and the error handler never runs. */
  lemma {:induction false} ExhaustedReconnectNeverReleases(cfg: Config, s: State, t: Tid, run: seq<Action>)
    requires Inv(cfg, s) && Stuck(cfg, s, t) && IsRun(cfg, s, run)
    ensures Stuck(cfg, Exec(cfg, s, run), t) && NothingHappened(s, Exec(cfg, s, run))
    decreases |run|
  {
    if run != [] {
      StuckStep(cfg, s, t, run[0]);
      StepKeepsInv(cfg, s, run[0]);
      ExhaustedReconnectNeverReleases(cfg, Apply(cfg, s, run[0]), t, run[1..]);
    }
  }

  /** A goroutine about to dial for the r-th time does get stuck when the remaining dials fail. */
  lemma FailingDialsGetStuck(cfg: Config, s: State, t: Tid, r: nat)
    requires cfg.innerLocks && Inv(cfg, s) && !s.crashed && s.pc.At(t) == AtDial(r)
    ensures r <= MAX_RETRY && IsRun(cfg, s, Failures(t, MAX_RETRY + 1 - r))
    ensures Stuck(cfg, Exec(cfg, s, Failures(t, MAX_RETRY + 1 - r)), t)
  {
    assert r <= MAX_RETRY && s.lock == Some(t) by { match t case Writer => case Reader => case Client => }
    FailuresExec(cfg, s, t, r, MAX_RETRY + 1 - r);
    match t { case Writer => case Reader => case Client => }
  }

  /** A run in which the reader exhausts its dials, and the state it ends in. */
  function Exhausting(m: Msg): seq<Action> {
    ReadFails(m) + (GuardAndClose(Reader) + Failures(Reader, MAX_RETRY))
  }

  function Exhausted(m: Msg): State {
    AfterFailures(AboutToDial(ReaderWaits(m), Reader), Reader, 1, MAX_RETRY)
  }

  /** It does happen that all dials fail. */
  lemma ExhaustedIsReachable(cfg: Config, m: Msg)
    requires cfg.autoReconnect
    ensures IsRun(cfg, Init(), Exhausting(m)) && Exec(cfg, Init(), Exhausting(m)) == Exhausted(m)
    ensures var s := Exhausted(m);
            && Reachable(cfg, s) && !s.crashed && s.pc.r.AtInner? && s.lock == Some(Reader) && Unclosed(s.ch)
            && (cfg.innerLocks ==> Stuck(cfg, s, Reader))
  {
    var s1, s2 := ReaderWaits(m), AboutToDial(ReaderWaits(m), Reader);
    ReadFailsExec(cfg, m);
    GuardAndCloseExec(cfg, s1, Reader);
    FailuresExec(cfg, s2, Reader, 1, MAX_RETRY);
    ExecAppend(cfg, s1, GuardAndClose(Reader), Failures(Reader, MAX_RETRY));
    ExecAppend(cfg, Init(), ReadFails(m), GuardAndClose(Reader) + Failures(Reader, MAX_RETRY));
  }

  function FailedDials(t: Tid, run: seq<Action>): nat {
    if run == [] then 0 else (if run[0] == Rec(t, Dial(false)) then 1 else 0) + FailedDials(t, run[1..])
  }

  /** About to dial for the r-th time, or stuck after the last dial. */
  predicate Dialling(cfg: Config, s: State, t: Tid, r: nat) {
    s.lock == Some(t) && if r <= MAX_RETRY then s.pc.At(t) == AtDial(r) else r == MAX_RETRY + 1 && Stuck(cfg, s, t)
  }

  lemma DiallingOwnStep(cfg: Config, s: State, t: Tid, r: nat, a: RecAct)
    requires cfg.innerLocks && Inv(cfg, s) && Dialling(cfg, s, t, r) && RecEnabled(cfg, s, t, a) && a != Dial(true)
    ensures a == Dial(false)
    ensures var s' := RecApply(cfg, s, t, a); Dialling(cfg, s', t, r + 1) && s'.log.dials == s.log.dials + 1
  {
    match t case Writer => case Reader => case Client =>
  }

  lemma DiallingNoClose(cfg: Config, s: State, t: Tid, r: nat, a: ClAct)
    requires cfg.innerLocks && Inv(cfg, s) && Dialling(cfg, s, t, r)
    ensures !ClEnabled(cfg, s, t, a)
  {
    match t case Writer => case Reader => case Client =>
  }

  lemma DiallingStep(cfg: Config, s: State, t: Tid, r: nat, a: Action)
    requires cfg.innerLocks && Inv(cfg, s) && Dialling(cfg, s, t, r) && Enabled(cfg, s, a) && a != Rec(t, Dial(true))
    ensures var d := if a == Rec(t, Dial(false)) then 1 else 0;
            Dialling(cfg, Apply(cfg, s, a), t, r + d) && Apply(cfg, s, a).log.dials == s.log.dials + d
  {
    match a
    case Rec(u, rec) =>
      if u == t {
        DiallingOwnStep(cfg, s, t, r, rec);
      } else {
        OthersWait(cfg, s, t, u, rec, Enter);
      }
    case Cl(u, cl) =>
      if u == t {
        DiallingNoClose(cfg, s, t, r, cl);
      } else {
        OthersWait(cfg, s, t, u, Acquire, cl);
      }
    case _ =>
  }

  lemma {:induction false} DiallingRun(cfg: Config, s: State, t: Tid, r: nat, run: seq<Action>)
    requires cfg.innerLocks && Inv(cfg, s) && Dialling(cfg, s, t, r)
    requires IsRun(cfg, s, run) && Rec(t, Dial(true)) !in run
    ensures var s', d := Exec(cfg, s, run), FailedDials(t, run);
            Dialling(cfg, s', t, r + d) && s'.log.dials == s.log.dials + d
    decreases |run|
  {
    if run != [] {
      var d := if run[0] == Rec(t, Dial(false)) then 1 else 0;
      DiallingStep(cfg, s, t, r, run[0]);
      StepKeepsInv(cfg, s, run[0]);
      DiallingRun(cfg, Apply(cfg, s, run[0]), t, r + d, run[1..]);
    }
  }

  /** Whatever the others do between the dials: if none of them succeeds, the call makes just the
      failed ones, keeps the mutex, and is stuck exactly when it has made all 100. */
  lemma FailingDialsInAnyRun(cfg: Config, s: State, t: Tid, r: nat, run: seq<Action>)
    requires cfg.innerLocks && Inv(cfg, s) && s.pc.At(t) == AtDial(r) && s.lock == Some(t)
    requires IsRun(cfg, s, run) && Rec(t, Dial(true)) !in run
    ensures var s', d := Exec(cfg, s, run), FailedDials(t, run);
            && r + d <= 101 && s'.log.dials == s.log.dials + d && s'.lock == Some(t)
            && (Stuck(cfg, s', t) <==> r + d == 101)
            && (r + d <= 100 ==> s'.pc.At(t) == AtDial(r + d))
  {
    assert r <= MAX_RETRY by { match t case Writer => case Reader => case Client => }
    DiallingRun(cfg, s, t, r, run);
  }
}
