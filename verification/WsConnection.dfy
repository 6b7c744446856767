/** `WsConn` as an object whose methods update its fields.  Each method is proved to do
    exactly what a run of the transition system does in which no other goroutine gets a
    turn; what the source promises about interleavings is proved about the system's runs. */
module WsConnection {
  import opened Wrappers
  import opened GoChan
  import opened WsModel
  import opened WsInvariants
  import opened WsRuns

  /** How a call ends: some never return. */
  datatype End = Returned | Blocked | Panicked | Deadlocked

  /** The n-th dial is the last of a `Reconnect` whose k-th dial succeeds iff `dial(k)`. */
  ghost predicate IsLastDial(dial: nat -> bool, n: nat) {
    && 1 <= n <= MAX_RETRY
    && (dial(n) || n == MAX_RETRY)
    && (forall k :: 1 <= k < n ==> !dial(k))
  }

  /** The time slept when the n-th dial succeeds, or when none of the 100 does. */
  lemma SleepFormula(n: nat, ok: bool)
    requires n > 0
    ensures 2 * Backoff(1, if ok then n - 1 else MAX_RETRY) == if ok then n * (n - 1) else 10100
  {
    BackoffFormula(1, if ok then n - 1 else MAX_RETRY);
  }

  /** What follows the dials: the hook, which may panic or block, and the release. */
  function HookRun(cfg: Config, t: Tid, write: Chan<Msg>): seq<Action> {
    if cfg.Resubscription().Some? && write.closed then [Rec(t, Hook)]
    else if cfg.Resubscription().Some? && !write.CanSend() then []
    else [Rec(t, Hook), Rec(t, Release)]
  }

  /** The guard turns a `Reconnect` away, or lets it dial. */
  predicate Dials(s: State) {
    s.lock.None? && !s.ch.write.Drained()
  }

  /** What follows the guard of a `Reconnect` that dials `n` times and whose last dial succeeds
      iff `ok`, when the guard has left `write`. */
  function PastGuardRun(cfg: Config, t: Tid, write: Chan<Msg>, n: nat, ok: bool): seq<Action>
    requires n > 0
  {
    [Rec(t, CloseOld)] + DialRun(t, n, ok) + (if ok then HookRun(cfg, t, write) else [])
  }

  function PastGuardEnd(cfg: Config, write: Chan<Msg>, ok: bool): End {
    if !ok then Deadlocked
    else if cfg.Resubscription().None? then Returned
    else if write.closed then Panicked
    else if !write.CanSend() then Blocked
    else Returned
  }

  /** One whole `Reconnect` of goroutine `t`, undisturbed. */
  function ReconnectRun(cfg: Config, s: State, t: Tid, n: nat, ok: bool): seq<Action>
    requires Dials(s) ==> n > 0
  {
    if s.lock.Some? then []
    else
      [Rec(t, Acquire), Rec(t, Probe)]
      + if s.ch.write.Drained() then [Rec(t, Release)] else PastGuardRun(cfg, t, s.ch.write.Rest(), n, ok)
  }

  function ReconnectEnd(cfg: Config, s: State, ok: bool): End {
    if s.lock.Some? then Blocked
    else if s.ch.write.Drained() then Returned
    else PastGuardEnd(cfg, s.ch.write.Rest(), ok)
  }

  /** What a `CloseWs` does to the channels after its probe has left `close`: sends the token
      and closes all five; or, if `close` was closed already, panics. */
  function ShutRun(close: Chan<bool>): seq<Action> {
    [Cl(Client, Token)] + if close.closed then [] else seq(5, _ => Cl(Client, ShutNext))
  }

  function LeaveRun(): seq<Action> {
    [Cl(Client, Finish), Rec(Client, Release)]
  }

  /** What follows the probe, which has found `close` drained or not. */
  function CheckedRun(close: Chan<bool>, drained: bool): seq<Action> {
    if drained then LeaveRun()
    else if close.closed then ShutRun(close)
    else ShutRun(close) + LeaveRun()
  }

  /** One whole `CloseWs` of a client, undisturbed: a first one, one after the token has been
      read, and one that finds the token unread. */
  function CloseRun(s: State): seq<Action> {
    if s.lock.Some? then []
    else [Cl(Client, Enter), Cl(Client, Check)] + CheckedRun(s.ch.close, s.ch.close.Drained())
  }

  function CloseEnd(s: State): End {
    if s.lock.Some? then Blocked
    else if s.ch.close.closed && s.ch.close.buf != [] then Panicked
    else Returned
  }

  /** What a turn takes from the channels: the oldest element of the one it selects. */
  predicate TakenFrom(src: Src, was: Chans, now: Chans) {
    && now.close == was.close
    && now.write == (if src.FromWrite? && was.write.buf != [] then was.write.(buf := was.write.buf[1..]) else was.write)
    && now.ping == (if src.FromPing? && was.ping.buf != [] then was.ping.(buf := was.ping.buf[1..]) else was.ping)
    && now.pong == (if src.FromPong? && was.pong.buf != [] then was.pong.(buf := was.pong.buf[1..]) else was.pong)
    && now.closeMsg ==
         (if src.FromCloseMsg? && was.closeMsg.buf != [] then was.closeMsg.(buf := was.closeMsg.buf[1..]) else was.closeMsg)
  }

  /** The frame that comes of it. */
  function FrameFrom(src: Src, write: Chan<Msg>): Frame {
    if src.FromWrite? && write.buf != [] then Data(write.buf[0]) else Other
  }

  class WsConn {
    const cfg: Config
    var c: nat                                // generation of the connection
    var open: set<nat>
    var closeChan: Chan<bool>
    var writeBufferChan: Chan<Msg>
    var closeMessageBufferChan: Chan<Msg>
    var pingMessageBufferChan: Chan<Msg>
    var pongMessageBufferChan: Chan<Msg>
    var reConnectLock: Option<Tid>
    var crashed: bool
    ghost var pc: Pcs
    ghost var go: Loops
    ghost var env: Clients
    ghost var log: Log

    ghost function View(): State
      reads this
    {
      State(c, open,
            Chans(closeChan, writeBufferChan, closeMessageBufferChan, pingMessageBufferChan, pongMessageBufferChan),
            reConnectLock, pc, go, env, crashed, log)
    }

    ghost predicate Valid()
      reads this
    {
      Inv(cfg, View())
    }

    /** `NewWs`, once its first dial has succeeded. */
    constructor NewWs(cfg: Config)
      ensures this.cfg == cfg && View() == Init() && Valid()
      ensures c == 0 && open == {0} && reConnectLock.None? && !crashed && closeChan == Chan([], 1, false)
      ensures writeBufferChan == Chan([], 10, false) && closeMessageBufferChan == Chan([], 10, false)
      ensures pingMessageBufferChan == Chan([], 10, false) && pongMessageBufferChan == Chan([], 10, false)
      ensures go == Loops(WSelect, false, true, RInit, 0) && env == Clients(0, true)
    {
      this.cfg := cfg;
      c, open := 0, {0};
      closeChan := Make(1);
      pingMessageBufferChan := Make(BUFFER_SIZE);
      pongMessageBufferChan := Make(BUFFER_SIZE);
      closeMessageBufferChan := Make(BUFFER_SIZE);
      writeBufferChan := Make(BUFFER_SIZE);
      reConnectLock, crashed := None, false;
      pc, go, env := Pcs(Idle, Idle, Idle), Loops(WSelect, false, true, RInit, 0), Clients(0, true);
      log := Log([], [], [], 0, 0, 0, 0, 0, 0);
      new;
      InitInv(cfg);
    }

    /** `NewWs` as its callers see it: no object if the first dial fails. */
    static method Build(cfg: Config, dialled: bool) returns (ws: WsConn?)
      ensures ws == null <==> !dialled
      ensures ws != null ==> fresh(ws) && ws.cfg == cfg && ws.View() == Init() && ws.Valid()
    {
      if !dialled {
        return null;
      }
      ws := new WsConn.NewWs(cfg);
    }

    /** The one action `a` has been performed. */
    twostate predicate Did(a: Action)
      reads this
    {
      Enabled(cfg, old(View()), a) && View() == Apply(cfg, old(View()), a)
    }

    // ------------------------------------------------------------- atomic steps

    method Lock(t: Tid)
      requires Enabled(cfg, View(), Rec(t, Acquire))
      modifies this
      ensures Did(Rec(t, Acquire)) && pc.At(t) == AtProbe
    {
      reConnectLock := Some(t);
      pc := pc.With(t, AtProbe);
      assert pc.At(t) == AtProbe by { match t case Writer => case Reader => case Client => }
    }

    method ProbeWriteChan(t: Tid) returns (closed: bool)
      requires Enabled(cfg, View(), Rec(t, Probe))
      modifies this
      ensures Did(Rec(t, Probe))
      ensures closed == old(writeBufferChan).Drained()
      ensures pc.At(t) == if closed then AtUnlock else AtCloseOld
    {
      log := Probed(Receive(log, writeBufferChan, true));
      closed, writeBufferChan := IsChanClose(writeBufferChan);
      pc := pc.With(t, if closed then AtUnlock else AtCloseOld);
      if !closed {
        log := Pass(log);
      }
      assert pc.At(t) == (if closed then AtUnlock else AtCloseOld) by {
        match t case Writer => case Reader => case Client =>
      }
    }

    method CloseOldConn(t: Tid)
      requires Enabled(cfg, View(), Rec(t, CloseOld))
      modifies this
      ensures Did(Rec(t, CloseOld)) && pc.At(t) == AtDial(1)
    {
      open := open - {c};
      pc := pc.With(t, AtDial(1));
      assert pc.At(t) == AtDial(1) by { match t case Writer => case Reader => case Client => }
    }

    /** `connect`: a dial and, if it succeeds, the store of the new connection. */
    method Connect(t: Tid, ok: bool) returns (err: bool)
      requires pc.At(t).AtDial?
      modifies this
      ensures err == !ok
      ensures View() == if ok then AfterSuccess(old(View()), t, 1)
                        else old(View()).(pc := old(pc).With(t, AfterDial(old(pc).At(t).retry, old(c), false)),
                                          log := old(log).(dials := old(log).dials + 1))
    {
      log := log.(dials := log.dials + 1);
      pc := pc.With(t, AfterDial(pc.At(t).retry, c, ok));
      if ok {
        open := open + {c + 1};
        c := c + 1;
        pc := pc.With(t, AtHook);
        assert pc == old(pc).With(t, AtHook) by { match t case Writer => case Reader => case Client => }
      }
      return !ok;
    }

    /** The resubscription: by `CustomSub` or by the post-reconnect hook. */
    method Resubscribe(t: Tid) returns (end: End)
      requires !crashed && pc.At(t).AtHook?
      modifies this
      ensures end == (if cfg.Resubscription().Some? && old(writeBufferChan).closed then Panicked
                      else if cfg.Resubscription().Some? && !old(writeBufferChan).CanSend() then Blocked
                      else Returned)
      ensures if end == Blocked then View() == old(View()) else Did(Rec(t, Hook))
      ensures end == Returned ==> pc.At(t) == AtUnlock && !crashed && reConnectLock == old(reConnectLock)
      // the custom subscription goes before the post-reconnect hook
      ensures end == Returned ==>
                writeBufferChan.buf == old(writeBufferChan).buf +
                  (if cfg.customSub.Some? then [cfg.customSub.value]
                   else if cfg.postHook.Some? then [cfg.postHook.value] else [])
    {
      if cfg.Resubscription().Some? {
        var m := cfg.Resubscription().value;
        if writeBufferChan.closed {
          crashed := true;
          return Panicked;
        }
        if !writeBufferChan.CanSend() {
          return Blocked;
        }
        writeBufferChan := writeBufferChan.Append(m);
        log := Accept(log, m);
      }
      pc := pc.With(t, AtUnlock);
      assert pc.At(t) == AtUnlock by { match t case Writer => case Reader => case Client => }
      return Returned;
    }

    method Unlock(t: Tid)
      requires Enabled(cfg, View(), Rec(t, Release))
      modifies this
      ensures Did(Rec(t, Release)) && (t.Writer? ==> go.w.WSelect?) && (t.Reader? ==> go.r.RSelect?) && !crashed
    {
      reConnectLock := None;
      pc := pc.With(t, Idle);
      go := Back(go, t);
    }

    // -------------------------------------------------------------- whole calls

    /* `s` is the state in which the call began and `run` what it has done since. */

    /** The guard: the mutex and the probe. */
    method Guard(t: Tid, ghost s: State) returns (closed: bool, ghost run: seq<Action>)
      requires s == View() && !crashed && pc.At(t).Wait? && reConnectLock.None?
      modifies this
      ensures run == [Rec(t, Acquire), Rec(t, Probe)]
      ensures IsRun(cfg, s, run) && Exec(cfg, s, run) == View()
      ensures closed == s.ch.write.Drained()
      ensures pc.At(t) == (if closed then AtUnlock else AtCloseOld)
      ensures writeBufferChan == s.ch.write.Rest() && reConnectLock == Some(t) && !crashed
    {
      ExecSnoc(cfg, s, [], Rec(t, Acquire));
      Lock(t);
      run := [] + [Rec(t, Acquire)];
      ExecSnoc(cfg, s, run, Rec(t, Probe));
      closed := ProbeWriteChan(t);
      run := run + [Rec(t, Probe)];
    }

    /** The retry loop. */
    method DialUntilConnected(t: Tid, pre: nat -> bool, dial: nat -> bool) returns (err: bool, n: nat, slept: nat)
      requires !crashed && pc.At(t) == AtDial(1)
      modifies this
      ensures IsLastDial(dial, n) && err == !dial(n)
      ensures View() == if err then AfterFailures(old(View()), t, 1, n) else AfterSuccess(old(View()), t, n)
      ensures slept == Backoff(1, if err then MAX_RETRY else n - 1)
    {
      err, n, slept := true, 0, 0;
      var retry := 1;
      assert View() == AfterFailures(View(), t, 1, 0) by { match t case Writer => case Reader => case Client => }
      while retry <= MAX_RETRY
        invariant 1 <= retry <= MAX_RETRY + 1 && n == retry - 1 && err
        invariant forall k :: 1 <= k < retry ==> !dial(k)
        invariant slept == Backoff(1, retry - 1)
        invariant View() == AfterFailures(old(View()), t, 1, retry - 1)
      {
        err := pre(retry);   // logged, then overwritten by the result of the dial
        n := retry;
        assert pc.At(t) == AtDial(retry) by { match t case Writer => case Reader => case Client => }
        ghost var before := pc;
        err := Connect(t, dial(retry));
        assert forall rc :: before.With(t, rc) == old(pc).With(t, rc) by {
          match t case Writer => case Reader => case Client =>
        }
        if !err {
          break;
        }
        slept := slept + retry;
        log := log.(slept := log.slept + retry);
        retry := retry + 1;
      }
    }

    method Unwind(t: Tid)
      requires !crashed && pc.At(t) == AtUnlock && reConnectLock == Some(t)
      modifies this
      ensures var s, run := old(View()), [Rec(t, Release)]; IsRun(cfg, s, run) && View() == Exec(cfg, s, run)
      ensures (t.Writer? ==> go.w.WSelect?) && (t.Reader? ==> go.r.RSelect?) && !crashed
    {
      ExecSnoc(cfg, View(), [], Rec(t, Release));
      assert [] + [Rec(t, Release)] == [Rec(t, Release)];
      Unlock(t);
    }

    /** The resubscription and the release of the mutex. */
    method ResubscribeAndUnwind(t: Tid) returns (end: End)
      requires !crashed && pc.At(t) == AtHook && reConnectLock == Some(t)
      modifies this
      ensures var s, run := old(View()), HookRun(cfg, t, old(writeBufferChan));
              IsRun(cfg, s, run) && View() == Exec(cfg, s, run)
      ensures end == PastGuardEnd(cfg, old(writeBufferChan), true)
      ensures end == Returned ==> (t.Writer? ==> go.w.WSelect?) && (t.Reader? ==> go.r.RSelect?) && !crashed
    {
      ghost var s := View();
      if cfg.Resubscription().None? || writeBufferChan.CanSend() {
        ExecSnoc(cfg, s, [], Rec(t, Hook));
        assert [] + [Rec(t, Hook)] == [Rec(t, Hook)];
      }
      end := Resubscribe(t);
      if end == Returned {
        ExecSnoc(cfg, s, [Rec(t, Hook)], Rec(t, Release));
        Unlock(t);
      }
    }

    /** Past the guard: close the old connection and dial. */
    method CloseAndDial(t: Tid, pre: nat -> bool, dial: nat -> bool) returns (err: bool, n: nat, slept: nat)
      requires !crashed && pc.At(t) == AtCloseOld && reConnectLock == Some(t)
      modifies this
      ensures IsLastDial(dial, n) && err == !dial(n)
      ensures slept == Backoff(1, if err then MAX_RETRY else n - 1)
      ensures var s, run := old(View()), [Rec(t, CloseOld)] + DialRun(t, n, !err);
              IsRun(cfg, s, run) && View() == Exec(cfg, s, run)
      ensures !err ==> pc.At(t) == AtHook
      ensures !crashed && reConnectLock == Some(t) && writeBufferChan == old(writeBufferChan)
    {
      ghost var s, run := View(), [Rec(t, CloseOld)];
      ExecSnoc(cfg, s, [], Rec(t, CloseOld));
      assert [] + run == run;
      CloseOldConn(t);
      ghost var dialling := View();
      err, n, slept := DialUntilConnected(t, pre, dial);
      DialRunExec(cfg, dialling, t, n, !err);
      ExecAppend(cfg, s, run, DialRun(t, n, !err));
      assert !err ==> pc.At(t) == AtHook by { match t case Writer => case Reader => case Client => }
    }

    /** And resubscribe. */
    method Redial(t: Tid, pre: nat -> bool, dial: nat -> bool) returns (end: End, n: nat, slept: nat)
      requires !crashed && pc.At(t) == AtCloseOld && reConnectLock == Some(t)
      modifies this
      ensures IsLastDial(dial, n)
      ensures slept == Backoff(1, if dial(n) then n - 1 else MAX_RETRY)
      ensures var s, run := old(View()), PastGuardRun(cfg, t, old(writeBufferChan), n, dial(n));
              IsRun(cfg, s, run) && View() == Exec(cfg, s, run)
      ensures end == PastGuardEnd(cfg, old(writeBufferChan), dial(n))
      ensures end == Returned ==> (t.Writer? ==> go.w.WSelect?) && (t.Reader? ==> go.r.RSelect?) && !crashed
    {
      ghost var s := View();
      var err;
      err, n, slept := CloseAndDial(t, pre, dial);
      ghost var run := [Rec(t, CloseOld)] + DialRun(t, n, !err);
      if err {
        end := Deadlocked;   // CloseWs waits for the mutex that this goroutine holds
        assert run + [] == run;
      } else {
        end := ResubscribeAndUnwind(t);
        ExecAppend(cfg, s, run, HookRun(cfg, t, old(writeBufferChan)));
      }
    }

    /** `Reconnect`, called by goroutine `t`: its k-th pre-reconnect hook fails iff `pre(k)` and
        its k-th dial succeeds iff `dial(k)`.  Returns the number of dials and the time slept,
        in units of the reconnect interval. */
    method Reconnect(t: Tid, pre: nat -> bool, dial: nat -> bool) returns (end: End, n: nat, slept: nat)
      requires Valid() && cfg.innerLocks && !crashed && pc.At(t).Wait?
      modifies this
      ensures Valid()
      // at most a hundred dials, up to the first that succeeds, whatever the pre-hook says
      ensures if Dials(old(View())) then IsLastDial(dial, n) else n == 0
      ensures 2 * slept == (if n == 0 then 0 else if dial(n) then n * (n - 1) else 10100)
      ensures end == ReconnectEnd(cfg, old(View()), dial(n))
      // whoever returns goes on with its own loop
      ensures end == Returned ==> (t.Writer? ==> go.w.WSelect?) && (t.Reader? ==> go.r.RSelect?) && !crashed
      ensures var s, run := old(View()), ReconnectRun(cfg, old(View()), t, n, dial(n));
              IsRun(cfg, s, run) && View() == Exec(cfg, s, run)
    {
      ghost var s := View();
      if reConnectLock.Some? {
        return Blocked, 0, 0;
      }
      var closed, run := Guard(t, s);
      if closed {
        Unwind(t);
        n, slept, end := 0, 0, Returned;
        ExecAppend(cfg, s, run, [Rec(t, Release)]);
      } else {
        end, n, slept := Redial(t, pre, dial);
        SleepFormula(n, dial(n));
        ExecAppend(cfg, s, run, PastGuardRun(cfg, t, s.ch.write.Rest(), n, dial(n)));
      }
      RunKeepsInv(cfg, s, ReconnectRun(cfg, s, t, n, dial(n)));
    }

    // ------------------------------------------------------------------ CloseWs

    method EnterClose() returns (drained: bool, ghost run: seq<Action>)
      requires !crashed && pc.k.Idle? && reConnectLock.None?
      modifies this
      ensures drained == old(closeChan).Drained()
      ensures run == [Cl(Client, Enter), Cl(Client, Check)]
      ensures IsRun(cfg, old(View()), run) && Exec(cfg, old(View()), run) == View()
      ensures View() == old(View()).(
                lock := Some(Client),
                pc := old(pc).(k := if old(closeChan).Drained() then AtFinish else AtToken),
                ch := old(View()).ch.(close := old(closeChan).Rest()))
    {
      ghost var s := View();
      reConnectLock := Some(Client);
      ExecSnoc(cfg, s, [], Cl(Client, Enter));
      run := [] + [Cl(Client, Enter)];
      ExecSnoc(cfg, s, run, Cl(Client, Check));
      drained, closeChan := IsChanClose(closeChan);
      pc := pc.(k := if drained then AtFinish else AtToken);
      run := run + [Cl(Client, Check)];
    }

    method SendToken() returns (end: End)
      requires Valid() && !crashed && pc.k.AtToken?
      modifies this
      ensures Did(Cl(Client, Token))
      ensures if end == Panicked then old(closeChan).closed && crashed
              else end == Returned && !old(closeChan).closed && pc.k == AtShut(0)
                   && View() == old(View()).(pc := pc, ch := old(View()).ch.(close := closeChan))
    {
      if closeChan.closed {
        crashed := true;
        return Panicked;
      }
      closeChan := closeChan.Append(true);
      pc := pc.(k := AtShut(0));
      return Returned;
    }

    method ShutOne(k: nat)
      requires !crashed && pc.k == AtShut(k) && k <= 4 && !View().ch.IsShut(k)
      modifies this
      ensures Did(Cl(Client, ShutNext))
      ensures View() == old(View()).(pc := old(pc).(k := if k < 4 then AtShut(k + 1) else AtFinish),
                                     ch := old(View()).ch.Shut(k))
    {
      match k {
        case 0 => closeChan := closeChan.Shut();
        case 1 => writeBufferChan := writeBufferChan.Shut();
        case 2 => closeMessageBufferChan := closeMessageBufferChan.Shut();
        case 3 => pingMessageBufferChan := pingMessageBufferChan.Shut();
        case _ => pongMessageBufferChan := pongMessageBufferChan.Shut();
      }
      pc := pc.(k := if k < 4 then AtShut(k + 1) else AtFinish);
    }

    method LeaveClose()
      requires !crashed && pc.k == AtFinish && reConnectLock == Some(Client)
      modifies this
      ensures var s, run := old(View()), LeaveRun();
              IsRun(cfg, s, run) && View() == Exec(cfg, s, run)
      ensures closeChan == old(closeChan) && writeBufferChan == old(writeBufferChan)
      ensures pc.k.Idle? && reConnectLock.None? && !crashed
    {
      ghost var s := View();
      ExecSnoc(cfg, s, [], Cl(Client, Finish));
      open := open - {c};
      pc := pc.(k := AtUnlock);
      ghost var run := [] + [Cl(Client, Finish)];
      ExecSnoc(cfg, s, run, Rec(Client, Release));
      Unlock(Client);
      assert run + [Rec(Client, Release)] == LeaveRun();
    }

    method ShutAll()
      requires !crashed && pc.k == AtShut(0) && ShutUpTo(View().ch, 0)
      modifies this
      ensures var s, run := old(View()), seq(5, _ => Cl(Client, ShutNext));
              IsRun(cfg, s, run) && View() == Exec(cfg, s, run)
      ensures pc.k == AtFinish && reConnectLock == old(reConnectLock) && !crashed
      ensures closeChan == old(closeChan).Shut() && writeBufferChan == old(writeBufferChan).Shut()
    {
      ghost var s := View();
      var k := 0;
      while k < 5
        invariant 0 <= k <= 5
        invariant pc.k == if k < 5 then AtShut(k) else AtFinish
        invariant ShutUpTo(View().ch, k) && !crashed && reConnectLock == s.lock
        invariant k >= 1 ==> closeChan == s.ch.close.Shut()
        invariant k >= 2 ==> writeBufferChan == s.ch.write.Shut()
        invariant k < 1 ==> closeChan == s.ch.close
        invariant k < 2 ==> writeBufferChan == s.ch.write
        invariant var run := seq(k, _ => Cl(Client, ShutNext)); IsRun(cfg, s, run) && View() == Exec(cfg, s, run)
      {
        ghost var run := seq(k, _ => Cl(Client, ShutNext));
        ExecSnoc(cfg, s, run, Cl(Client, ShutNext));
        assert run + [Cl(Client, ShutNext)] == seq(k + 1, _ => Cl(Client, ShutNext));
        ShutOne(k);
        k := k + 1;
      }
    }

    method CloseChans() returns (end: End)
      requires Valid() && !crashed && pc.k == AtToken && reConnectLock == Some(Client)
      modifies this
      ensures var s, run := old(View()), ShutRun(old(closeChan)); IsRun(cfg, s, run) && View() == Exec(cfg, s, run)
      ensures end == if old(closeChan).closed then Panicked else Returned
      ensures end == Returned ==> pc.k == AtFinish && reConnectLock == Some(Client) && !crashed
      ensures end == Returned ==>
                closeChan == old(closeChan).Append(true).Shut() && writeBufferChan == old(writeBufferChan).Shut()
    {
      ghost var s, run := View(), [Cl(Client, Token)];
      ExecSnoc(cfg, s, [], Cl(Client, Token));
      assert [] + run == run;
      end := SendToken();
      if end == Returned {
        ShutAll();
        ExecAppend(cfg, s, run, seq(5, _ => Cl(Client, ShutNext)));
      }
    }

    method CloseChecked(drained: bool) returns (end: End)
      requires Valid() && !crashed && reConnectLock == Some(Client)
      requires pc.k == if drained then AtFinish else AtToken
      modifies this
      ensures var s, run := old(View()), CheckedRun(old(closeChan), drained);
              IsRun(cfg, s, run) && View() == Exec(cfg, s, run)
      ensures end == if !drained && old(closeChan).closed then Panicked else Returned
      ensures end == Returned ==> pc.k.Idle? && reConnectLock.None? && !crashed
      ensures end == Returned ==>
                if drained
                then closeChan == old(closeChan) && writeBufferChan == old(writeBufferChan)
                else closeChan == old(closeChan).Append(true).Shut() && writeBufferChan == old(writeBufferChan).Shut()
    {
      ghost var s := View();
      end := Returned;
      if !drained {
        end := CloseChans();
      }
      if end == Returned {
        LeaveClose();
        if !drained {
          ExecAppend(cfg, s, ShutRun(s.ch.close), LeaveRun());
        }
      }
    }

    /** `CloseWs`, called by a client. */
    method CloseWs() returns (end: End)
      requires Valid() && !crashed && pc.k.Idle?
      modifies this
      ensures Valid()
      ensures var s, run := old(View()), CloseRun(old(View())); IsRun(cfg, s, run) && View() == Exec(cfg, s, run)
      // with the mutex free: returns, unless an earlier close's token is unread
      ensures end == CloseEnd(old(View()))
      ensures end == Returned ==> pc.k.Idle? && reConnectLock.None? && !crashed
      ensures end == Returned ==>
                if old(closeChan).closed
                then closeChan == old(closeChan) && writeBufferChan == old(writeBufferChan)
                else closeChan == Chan([true], 1, true) && writeBufferChan == old(writeBufferChan).Shut()
    {
      ghost var s := View();
      if reConnectLock.Some? {
        return Blocked;
      }
      var drained, run := EnterClose();
      RunKeepsInv(cfg, s, run);
      end := CloseChecked(drained);
      ExecAppend(cfg, s, run, CheckedRun(s.ch.close, drained));
      RunKeepsInv(cfg, s, CloseRun(s));
    }

    /** The shortest run in which closing twice is fatal: nobody has read the token between. */
    static method CloseTwice(cfg: Config) returns (first: End, second: End)
      ensures first == Returned && second == Panicked
    {
      var ws := new WsConn.NewWs(cfg);
      first := ws.CloseWs();
      second := ws.CloseWs();
    }

    // ----------------------------------------------------------- one-step calls

    /** `SendMessage`, and `Subscribe` once it has encoded its event. */
    method SendMessage(m: Msg) returns (end: End)
      requires Valid() && !crashed
      modifies this
      ensures Valid()
      ensures end == (if old(writeBufferChan).closed then Panicked
                      else if |old(writeBufferChan).buf| == 10 then Blocked
                      else Returned)
      ensures if end == Blocked then View() == old(View()) else Did(Env(Send(FromWrite, m)))
      ensures end == Returned ==> writeBufferChan.buf == old(writeBufferChan).buf + [m]
    {
      if writeBufferChan.CanSend() {
        StepKeepsInv(cfg, View(), Env(Send(FromWrite, m)));
      }
      if writeBufferChan.closed {
        crashed := true;
        return Panicked;
      }
      if |writeBufferChan.buf| == BUFFER_SIZE {
        return Blocked;
      }
      writeBufferChan := writeBufferChan.Append(m);
      log := Accept(log, m);
      return Returned;
    }

    method CloseGuardStep() returns (drained: bool)
      requires !crashed
      modifies this
      ensures Did(Env(CloseGuard)) && !crashed
      ensures drained == old(writeBufferChan).Drained() && (!drained ==> env.closing > 0)
      ensures writeBufferChan == old(writeBufferChan).Rest() && open == old(open) && c == old(c)
    {
      log := Probed(Receive(log, writeBufferChan, true));
      drained, writeBufferChan := IsChanClose(writeBufferChan);
      env := env.(closing := env.closing + (if drained then 0 else 1));
    }

    method CloseDoStep()
      requires !crashed && env.closing > 0
      modifies this
      ensures Did(Env(CloseDo(old(c)))) && open == old(open) - {c}
      ensures writeBufferChan == old(writeBufferChan) && c == old(c)
    {
      open := open - {c};
      env := env.(closing := env.closing - 1);
    }

    /** `Close`: its guard consumes a queued message, and it closes without the mutex. */
    method Close()
      requires Valid() && !crashed
      modifies this
      ensures Valid()
      ensures writeBufferChan == old(writeBufferChan).Rest()
      ensures writeBufferChan.buf == if old(writeBufferChan).buf == [] then [] else old(writeBufferChan).buf[1..]
      ensures open == if old(writeBufferChan).closed && old(writeBufferChan).buf == [] then old(open) else old(open) - {c}
      ensures var s := old(View());
              var run := [Env(CloseGuard)] + if s.ch.write.Drained() then [] else [Env(CloseDo(s.cur))];
              IsRun(cfg, s, run) && View() == Exec(cfg, s, run)
    {
      ghost var s, run := View(), [Env(CloseGuard)];
      ExecSnoc(cfg, s, [], Env(CloseGuard));
      assert [] + run == run == run + [];
      var drained := CloseGuardStep();
      if !drained {
        ExecSnoc(cfg, s, run, Env(CloseDo(c)));
        run := run + [Env(CloseDo(c))];
        CloseDoStep();
      }
      RunKeepsInv(cfg, s, run);
    }

    // ------------------------------------------------------- turns of the loops

    method TakeFrame(src: Src)
      requires !crashed && go.w.WSelect? && View().ch.Of(src).CanReceive()
      modifies this
      ensures Did(ByWriter(WTake(src))) && !crashed && c == old(c) && open == old(open)
      ensures go.w == WHold(FrameFrom(src, old(writeBufferChan))) && TakenFrom(src, old(View()).ch, View().ch)
      ensures pc == old(pc) && log.outcomes == old(log).outcomes
    {
      match src {
        case FromWrite =>
          log := Receive(log, writeBufferChan, false);
          go := go.(w := WHold(if writeBufferChan.buf == [] then Other else Data(writeBufferChan.buf[0])));
          writeBufferChan := writeBufferChan.Rest();
        case FromPing =>
          go := go.(w := WHold(Other));
          pingMessageBufferChan := pingMessageBufferChan.Rest();
        case FromPong =>
          go := go.(w := WHold(Other));
          pongMessageBufferChan := pongMessageBufferChan.Rest();
        case FromCloseMsg =>
          go := go.(w := WHold(Other));
          closeMessageBufferChan := closeMessageBufferChan.Rest();
      }
    }

    method LoadConn() returns (conn: nat)
      requires !crashed && go.w.WHold?
      modifies this
      ensures Did(ByWriter(WLoad)) && conn == c == old(c) && go.w == WLoaded(old(go).w.frame, conn)
      ensures open == old(open) && !crashed && View().ch == old(View()).ch && log == old(log) && pc == old(pc)
    {
      conn := c;
      go := go.(w := WLoaded(go.w.frame, c));
    }

    method WriteFrame(ok: bool)
      requires !crashed && go.w.WLoaded? && (ok ==> go.w.conn in open)
      modifies this
      ensures Did(ByWriter(WWrite(ok))) && go.w == (if ok then WSelect else WBackoff) && go.err == !ok && !crashed
      ensures View().ch == old(View()).ch && pc == old(pc)
      ensures log.outcomes == old(log).outcomes +
                              if old(go).w.frame.Data? then [Outcome(old(go).w.frame.msg, old(go).w.conn, ok)] else []
    {
      log := Write(log, go.w, ok);
      go := go.(w := if ok then WSelect else WBackoff, err := !ok);
    }

    method TakeAndLoad(src: Src)
      requires !crashed && go.w.WSelect? && View().ch.Of(src).CanReceive()
      modifies this
      ensures var s, run := old(View()), [ByWriter(WTake(src)), ByWriter(WLoad)];
              IsRun(cfg, s, run) && View() == Exec(cfg, s, run)
      ensures go.w == WLoaded(FrameFrom(src, old(writeBufferChan)), c) && c == old(c) && open == old(open) && !crashed
      ensures TakenFrom(src, old(View()).ch, View().ch) && pc == old(pc) && log.outcomes == old(log).outcomes
    {
      ghost var s, run := View(), [ByWriter(WTake(src))];
      assert [] + run == run;
      ExecSnoc(cfg, s, [], ByWriter(WTake(src)));
      TakeFrame(src);
      ExecSnoc(cfg, s, run, ByWriter(WLoad));
      var conn := LoadConn();
    }

    method WriteOrBackOff(ok: bool)
      requires !crashed && go.w.WLoaded? && (ok ==> go.w.conn in open)
      modifies this
      ensures var s, run := old(View()), [ByWriter(WWrite(ok))] + if ok then [] else [ByWriter(WSleep)];
              IsRun(cfg, s, run) && View() == Exec(cfg, s, run)
      ensures go.w == (if ok then WSelect else WIn) && go.err == !ok && pc.w == (if ok then old(pc).w else Wait)
      ensures View().ch == old(View()).ch
      ensures log.outcomes == old(log).outcomes +
                              if old(go).w.frame.Data? then [Outcome(old(go).w.frame.msg, old(go).w.conn, ok)] else []
    {
      ghost var s, run := View(), [ByWriter(WWrite(ok))];
      assert [] + run == run == run + [];
      ExecSnoc(cfg, s, [], ByWriter(WWrite(ok)));
      WriteFrame(ok);
      if !ok {
        ExecSnoc(cfg, s, run, ByWriter(WSleep));
        go := go.(w := WIn);
        pc := pc.(w := Wait);
      }
    }

    /** One turn of `writeRequest` with a message from `src`, up to the call of `Reconnect` if
        the write fails. */
    method WriterTurn(src: Src, ok: bool) returns (err: bool)
      requires Valid() && !crashed && go.w.WSelect? && View().ch.Of(src).CanReceive() && (ok ==> c in open)
      modifies this
      ensures Valid() && err == !ok
      ensures go.w == (if err then WIn else WSelect) && go.err == err && (err ==> pc.w == Wait)
      ensures TakenFrom(src, old(View()).ch, View().ch)
      ensures log.outcomes == old(log).outcomes +
                              if src.FromWrite? && old(writeBufferChan).buf != []
                              then [Outcome(old(writeBufferChan).buf[0], old(c), ok)] else []
      ensures var s := old(View());
              var run := [ByWriter(WTake(src)), ByWriter(WLoad)]
                         + ([ByWriter(WWrite(ok))] + if ok then [] else [ByWriter(WSleep)]);
              IsRun(cfg, s, run) && View() == Exec(cfg, s, run)
    {
      ghost var s, run := View(), [ByWriter(WTake(src)), ByWriter(WLoad)];
      TakeAndLoad(src);
      WriteOrBackOff(ok);
      ghost var rest := [ByWriter(WWrite(ok))] + if ok then [] else [ByWriter(WSleep)];
      ExecAppend(cfg, s, run, rest);
      RunKeepsInv(cfg, s, run + rest);
      return !ok;
    }

    /** One turn of `receiveMessage` that reads, up to the call of `Reconnect` if it fails. */
    method ReaderTurn(ok: bool) returns (err: bool)
      requires Valid() && !crashed && go.r.RSelect? && !closeChan.CanReceive()
      modifies this
      ensures Valid() && err == !ok
      ensures go.r == (if ok then RSelect else if cfg.autoReconnect then RIn else RDone) && (go.r.RIn? ==> pc.r == Wait)
      ensures var s, run := old(View()), [ByReader(RLoad), ByReader(RReadResult(ok))];
              IsRun(cfg, s, run) && View() == Exec(cfg, s, run)
    {
      ghost var s := View();
      ExecSnoc(cfg, s, [], ByReader(RLoad));
      ghost var run := [] + [ByReader(RLoad)];
      go := go.(r := RRead(c));
      ExecSnoc(cfg, s, run, ByReader(RReadResult(ok)));
      assert run + [ByReader(RReadResult(ok))] == [ByReader(RLoad), ByReader(RReadResult(ok))];
      if ok {
        go := go.(r := RSelect);
      } else if cfg.autoReconnect {
        go := go.(r := RIn);
        pc := pc.(r := Wait);
      } else {
        go := go.(r := RDone);
      }
      RunKeepsInv(cfg, s, [ByReader(RLoad), ByReader(RReadResult(ok))]);
      return !ok;
    }

    /** The close case of the writer's select. */
    method StopWriter()
      requires Valid() && !crashed && go.w.WSelect? && closeChan.CanReceive()
      modifies this
      ensures Valid() && Did(ByWriter(WStop))
      ensures go.w.WDone? && closeChan == old(closeChan).Rest()
    {
      StepKeepsInv(cfg, View(), ByWriter(WStop));
      log := ReadToken(log, closeChan);
      closeChan := closeChan.Rest();
      go := go.(w := WDone);
    }

    /** The timer case of the writer's select: a heartbeat to write or, if there is none, a turn
        that sees the error of an earlier one again. */
    method TimerTurn()
      requires Valid() && !crashed && go.w.WSelect? && go.timer
      modifies this
      ensures Valid() && Did(ByWriter(WTimer))
      ensures go.w == if cfg.heartbeat then WHold(Other) else if old(go).err then WBackoff else WSelect
      ensures go.timer == cfg.heartbeat && go.err == old(go).err && writeBufferChan == old(writeBufferChan)
    {
      StepKeepsInv(cfg, View(), ByWriter(WTimer));
      if cfg.heartbeat {
        go := go.(w := WHold(Other));
      } else {
        go := go.(timer := false, w := if go.err then WBackoff else WSelect);
      }
    }

    /** `receiveMessage` up to its loop: the handlers go to the connection that is current then. */
    method StartReader()
      requires Valid() && !crashed && go.r.RInit?
      modifies this
      ensures Valid() && Did(ByReader(RStart)) && go.r.RSelect? && go.handlerGen == c
    {
      StepKeepsInv(cfg, View(), ByReader(RStart));
      go := go.(r := RSelect, handlerGen := c);
    }

    /** The close case of the reader's select. */
    method StopReader()
      requires Valid() && !crashed && go.r.RSelect? && closeChan.CanReceive()
      modifies this
      ensures Valid() && Did(ByReader(RStop))
      ensures go.r.RDone? && closeChan == old(closeChan).Rest()
    {
      StepKeepsInv(cfg, View(), ByReader(RStop));
      log := ReadToken(log, closeChan);
      closeChan := closeChan.Rest();
      go := go.(r := RDone);
    }

    /** A ping that arrives during a read: the handler queues the pong, waits for room, or, if the
        channel has been closed, panics. */
    method ReceivePing(m: Msg) returns (end: End)
      requires Valid() && !crashed && go.r.RRead? && go.r.conn == go.handlerGen
      modifies this
      ensures Valid()
      ensures end == (if old(pongMessageBufferChan).closed then Panicked
                      else if !old(pongMessageBufferChan).CanSend() then Blocked
                      else Returned)
      ensures if end == Blocked then View() == old(View()) else Did(ByReader(RPing(m)))
      ensures end == Returned ==> pongMessageBufferChan.buf == old(pongMessageBufferChan).buf + [m]
    {
      if !pongMessageBufferChan.CanSend() {
        return Blocked;
      }
      StepKeepsInv(cfg, View(), ByReader(RPing(m)));
      if pongMessageBufferChan.closed {
        crashed := true;
        return Panicked;
      }
      pongMessageBufferChan := pongMessageBufferChan.Append(m);
      return Returned;
    }
  }
}
