/** Closing: which steps panic, and what a first `CloseWs` does and what a later one does. */
module WsClose {
  import opened Wrappers
  import opened WsModel
  import opened WsInvariants

  // ------------------------------------------------------------------------ panics

  /** Which steps panic: a send to a closed channel by a ping handler, a resubscription, a later
      close or a client.  No other step does, and in particular none closes a channel twice. */
  predicate Panics(cfg: Config, s: State, a: Action) {
    match a
    case ByReader(RPing(_)) => s.ch.pong.closed
    case Rec(_, Hook) => cfg.Resubscription().Some? && s.ch.write.closed
    case Cl(_, Token) => s.ch.close.closed
    case Env(Send(src, _)) => s.ch.Of(src).closed
    case Env(Subscribe) => s.ch.write.closed
    case _ => false
  }

  lemma ShutNeverPanics(cfg: Config, s: State, t: Tid)
    requires Inv(cfg, s) && s.pc.At(t).AtShut?
    ensures !s.ch.IsShut(s.pc.At(t).k)
  {
    match t case Writer => case Reader => case Client =>
  }

  lemma PanicsExactly(cfg: Config, s: State, a: Action)
    requires Reachable(cfg, s) && Enabled(cfg, s, a)
    ensures Apply(cfg, s, a).crashed <==> Panics(cfg, s, a)
  {
    ReachableInv(cfg, s);
    match a
    case Cl(t, ShutNext) => ShutNeverPanics(cfg, s, t);
    case _ =>
  }

  // ------------------------------------------------------------- close lifecycle

  /** The first `CloseWs` finds room for its token, so its one-second timeout never fires;
      whoever is closing channels never closes one a second time; and when it is done with
      them, all five are closed. */
  lemma FirstCloseHasRoom(cfg: Config, s: State, t: Tid)
    requires Reachable(cfg, s) && !s.crashed
    ensures !Enabled(cfg, s, Cl(t, Timeout))
    ensures s.pc.At(t).AtToken? && !s.ch.close.closed ==>
              && Enabled(cfg, s, Cl(t, Token))
              && Apply(cfg, s, Cl(t, Token)).ch.close.buf == [true]
              && !Apply(cfg, s, Cl(t, Token)).crashed
    ensures s.pc.At(t).AtShut? ==>
              var k := s.pc.At(t).k;
              && !s.ch.IsShut(k)
              && Enabled(cfg, s, Cl(t, ShutNext))
              && !Apply(cfg, s, Cl(t, ShutNext)).crashed
              && Apply(cfg, s, Cl(t, ShutNext)).ch.IsShut(k)
    ensures s.pc.At(t).AtFinish? ==> forall k: nat :: k <= 4 ==> s.ch.IsShut(k)
  {
    ReachableInv(cfg, s);
    match t case Writer => case Reader => case Client =>
  }

  /** `t` has swallowed the token of an earlier close and is about to send on a closed channel. */
  predicate Doomed(s: State, t: Tid) {
    s.pc.At(t).AtToken? && s.lock == Some(t) && s.ch.close.closed
  }

  lemma DoomedStep(cfg: Config, s: State, t: Tid, a: Action)
    requires Inv(cfg, s) && Doomed(s, t) && Enabled(cfg, s, a)
    ensures Doomed(Apply(cfg, s, a), t)
    ensures a.Cl? && a.t == t ==> Apply(cfg, s, a).crashed
  {
    match a
    case Rec(u, rec) => match u { case Writer => case Reader => case Client => }
    case Cl(u, cl) => match u { case Writer => case Reader => case Client => }
    case _ =>
  }

  lemma {:induction false} DoomedForever(cfg: Config, s: State, t: Tid, run: seq<Action>)
    requires Inv(cfg, s) && Doomed(s, t) && IsRun(cfg, s, run)
    ensures Doomed(Exec(cfg, s, run), t)
    ensures (exists i :: 0 <= i < |run| && run[i].Cl? && run[i].t == t) ==> Exec(cfg, s, run).crashed
    decreases |run|
  {
    if run != [] {
      DoomedStep(cfg, s, t, run[0]);
      StepKeepsInv(cfg, s, run[0]);
      var s' := Apply(cfg, s, run[0]);
      DoomedForever(cfg, s', t, run[1..]);
      if s'.crashed {
        assert run[1..] == [];
      } else if i :| 0 <= i < |run| && run[i].Cl? && run[i].t == t {
        assert run[1..][i - 1] == run[i];
      }
    }
  }

  /** A later `CloseWs` survives exactly when a goroutine had read the token before its probe.
      If so, it goes straight to closing the connection and leaves the channels alone.  If
      not, it can never get any further: the next step of its goroutine is a panic. */
  lemma LaterClose(cfg: Config, s: State, t: Tid, run: seq<Action>)
    requires Reachable(cfg, s) && !s.crashed && s.pc.At(t).AtCheck? && s.ch.close.closed
    requires IsRun(cfg, Apply(cfg, s, Cl(t, Check)), run)
    ensures var s1 := Apply(cfg, s, Cl(t, Check));
            var s2 := Exec(cfg, s1, run);
            if s.log.tokenReads > 0
            then s1.pc.At(t).AtFinish? && s1.ch == s.ch && !Apply(cfg, s1, Cl(t, Finish)).crashed
            else
              && Doomed(s2, t)
              && ((exists i :: 0 <= i < |run| && run[i].Cl? && run[i].t == t) ==> s2.crashed)
  {
    ReachableInv(cfg, s);
    StepKeepsInv(cfg, s, Cl(t, Check));
    var s1 := Apply(cfg, s, Cl(t, Check));
    match t { case Writer => case Reader => case Client => }
    if s.log.tokenReads == 0 {
      DoomedForever(cfg, s1, t, run);
    }
  }
}
