/** States a new client can get into although every call has returned. */
module Witnesses {

  import opened Types
  import opened Connection
  import opened Stops

  ghost predicate Reachable(reconnect: bool, s: State) {
    exists steps :: Run(Init(reconnect), steps) == Some(s)
  }

  lemma Reach(reconnect: bool, s: State, step: Step) returns (t: State)
    requires Reachable(reconnect, s) && Next(s, step).Some?
    ensures Next(s, step) == Some(t) && Reachable(reconnect, t)
  {
    t := Next(s, step).value;
    var steps :| Run(Init(reconnect), steps) == Some(s);
    RunPlus(Init(reconnect), steps, [step]);
    RunOne(s, step, []);
    assert [step] + [] == [step];
    assert Run(Init(reconnect), steps + [step]) == Some(t);
  }

  lemma Started(reconnect: bool)
    ensures Reachable(reconnect, Init(reconnect))
  {
    assert Run(Init(reconnect), []) == Some(Init(reconnect));
  }

  // ----- Complete calls, with nothing in between -----

  function Returns(n: nat): seq<Call> {
    seq(n, _ => Returned)
  }

  lemma Call(reconnect: bool, s: State, n: nat, start: Call) returns (t: State)
    requires Reachable(reconnect, s) && s.calls == Returns(n) && IsStart(start)
    ensures Reachable(reconnect, t) && t == s.(calls := Returns(n) + [start])
  {
    t := Reach(reconnect, s, Begin(start));
  }

  /** A `connect()` that is accepted and finds no loop running. */
  lemma ConnectSpawns(reconnect: bool, s: State, n: nat) returns (t: State)
    requires Reachable(reconnect, s) && s.calls == Returns(n) && s.status.CanConnect() && !s.running
    ensures Reachable(reconnect, t)
    ensures t == s.(status := Pending, turnedAway := false, tasks := s.tasks + [Spawned], calls := Returns(n + 1))
  {
    t := Call(reconnect, s, n, ConnectLoad);
    t := Reach(reconnect, t, CallStep(n));
    assert t.calls == Returns(n) + [ConnectSetPending];
    t := Reach(reconnect, t, CallStep(n));
    assert t.calls == Returns(n) + [ConnectCheckRunning];
    t := Reach(reconnect, t, CallStep(n));
    assert t.calls == Returns(n) + [ConnectSpawn];
    t := Reach(reconnect, t, CallStep(n));
    assert t.calls == Returns(n + 1);
  }

  /** A `connect()` that is accepted but finds a loop running. */
  lemma ConnectGivesUp(reconnect: bool, s: State, n: nat) returns (t: State)
    requires Reachable(reconnect, s) && s.calls == Returns(n) && s.status.CanConnect() && s.running
    ensures Reachable(reconnect, t)
    ensures t == s.(status := Pending, turnedAway := true, calls := Returns(n + 1))
  {
    t := Call(reconnect, s, n, ConnectLoad);
    t := Reach(reconnect, t, CallStep(n));
    assert t.calls == Returns(n) + [ConnectSetPending];
    t := Reach(reconnect, t, CallStep(n));
    assert t.calls == Returns(n) + [ConnectCheckRunning];
    t := Reach(reconnect, t, CallStep(n));
    assert t.calls == Returns(n + 1);
  }

  /** A `disconnect()` that is not refused and finds no queued wait. */
  lemma DisconnectRun(reconnect: bool, s: State, n: nat) returns (t: State)
    requires Reachable(reconnect, s) && s.calls == Returns(n)
    requires !s.status.IsStopped() && QueuedIn(s.tasks) == |s.tasks|
    ensures Reachable(reconnect, t)
    ensures t == s.(status := Terminated, permit := true, calls := Returns(n + 1), notified := s.notified + 1)
  {
    t := Call(reconnect, s, n, DisconnectLoad);
    t := Reach(reconnect, t, CallStep(n));
    assert t.calls == Returns(n) + [DisconnectNotify];
    t := Reach(reconnect, t, CallStep(n));
    assert t.calls == Returns(n) + [DisconnectSet];
    t := Reach(reconnect, t, CallStep(n));
    assert t.calls == Returns(n + 1);
  }

  /** A `shutdown()` that is not refused and finds no queued wait. */
  lemma ShutdownRun(reconnect: bool, s: State, n: nat) returns (t: State)
    requires Reachable(reconnect, s) && s.calls == Returns(n)
    requires !s.status.Shutdown? && QueuedIn(s.tasks) == |s.tasks|
    ensures Reachable(reconnect, t)
    ensures t == s.(status := Shutdown, permit := true, calls := Returns(n + 1), notified := s.notified + 1)
  {
    t := Call(reconnect, s, n, ShutdownLoad);
    t := Reach(reconnect, t, CallStep(n));
    assert t.calls == Returns(n) + [ShutdownNotify];
    t := Reach(reconnect, t, CallStep(n));
    assert t.calls == Returns(n) + [ShutdownSet];
    t := Reach(reconnect, t, CallStep(n));
    assert t.calls == Returns(n + 1);
  }

  /** The only task begins and gets to its connection attempt. */
  lemma AttemptRun(reconnect: bool, s: State) returns (t: State)
    requires Reachable(reconnect, s) && s.tasks == [Spawned] && !s.running
    ensures Reachable(reconnect, t) && t == s.(status := Connecting, running := true, tasks := [TryConnect(Unpolled)])
  {
    t := Reach(reconnect, s, TaskStep(0, Go));
    assert t.tasks == [Won];
    t := Reach(reconnect, t, TaskStep(0, Go));
    assert t.tasks == [SetConnecting];
    t := Reach(reconnect, t, TaskStep(0, Go));
    assert t.tasks == [TryConnect(Unpolled)];
  }

  /** A first `connect()`, up to the connection attempt. */
  lemma FirstAttempt(reconnect: bool) returns (s: State)
    ensures Reachable(reconnect, s)
    ensures s == State(Connecting, true, false, [TryConnect(Unpolled)], Returns(1), reconnect, 0, 0, false)
  {
    Started(reconnect);
    assert Init(reconnect).calls == Returns(0);
    s := ConnectSpawns(reconnect, Init(reconnect), 0);
    assert s.tasks == [Spawned];
    s := AttemptRun(reconnect, s);
  }

  /** The attempt of the only task fails, and it loads the status. */
  lemma FailedAttempt(reconnect: bool, s: State) returns (t: State)
    requires Reachable(reconnect, s) && s.tasks == [TryConnect(Unpolled)]
    ensures Reachable(reconnect, t) && t == s.(status := Disconnected, tasks := [LoadStatus(false)])
  {
    t := Reach(reconnect, s, TaskStep(0, Fail));
    assert t.tasks == [SetFailed];
    t := Reach(reconnect, t, TaskStep(0, Go));
    assert t.tasks == [LoadStatus(false)];
  }

  /** The stored permit ends the sleep of the only task, which leaves. */
  lemma SleepEnds(reconnect: bool, s: State) returns (t: State)
    requires Reachable(reconnect, s) && s.tasks == [Sleeping(Unpolled)] && s.permit
    ensures Reachable(reconnect, t)
    ensures t == s.(permit := false, waited := s.waited + 1, running := false, tasks := [Finished])
  {
    t := Reach(reconnect, s, TaskStep(0, PollTerminate));
    assert t.tasks == [Leaving];
    t := Reach(reconnect, t, TaskStep(0, Go));
    assert t.tasks == [Finished];
  }

  // ----- The states -----

  lemma ServedRound(s: State) returns (t: State)
    requires Reachable(true, s) && s.tasks == [Serving(Unpolled)] && s.status.Connected? && s.permit && s.reconnect
    ensures Reachable(true, t)
    ensures t == s.(status := Disconnected, permit := false, waited := s.waited + 1, tasks := [Sleeping(Unpolled)])
  {
    t := Reach(true, s, TaskStep(0, PollTerminate));
    assert t.tasks == [Closing];
    t := Reach(true, t, TaskStep(0, Go));
    assert t.tasks == [LoadStatus(true)];
    t := Reach(true, t, TaskStep(0, Go));
    assert t.tasks == [SetDisconnected(true)];
    t := Reach(true, t, TaskStep(0, Go));
    assert t.tasks == [Sleeping(Unpolled)];
  }

  /** A completed `disconnect()` can be lost: given during a connection attempt that then succeeds, its
      notification ends that connection, but the overwritten status makes the loop connect again. */
  lemma DisconnectLost()
    ensures Reachable(true, State(Connecting, true, false, [TryConnect(Unpolled)], Returns(2), true, 1, 1, false))
  {
    var s := FirstAttempt(true);
    s := DisconnectRun(true, s, 1);
    s := Reach(true, s, TaskStep(0, Succeed));
    assert s.tasks == [SetConnected];
    s := Reach(true, s, TaskStep(0, Go));
    assert s.tasks == [Serving(Unpolled)];
    s := ServedRound(s);
    s := Reach(true, s, TaskStep(0, Succeed));
    assert s.tasks == [SetConnecting];
    s := Reach(true, s, TaskStep(0, Go));
    assert s.tasks == [TryConnect(Unpolled)];
  }

  /** A loop can be gone although the status is disconnected: the notification of a `disconnect()` whose
      status the failed attempt overwrote ends the sleep. Every later `connect()` is refused. */
  lemma LeftDisconnected()
    ensures Reachable(true, State(Disconnected, false, false, [Finished], Returns(2), true, 1, 1, false))
    ensures !Disconnected.CanConnect()
  {
    var s := FirstAttempt(true);
    s := DisconnectRun(true, s, 1);
    s := FailedAttempt(true, s);
    s := Reach(true, s, TaskStep(0, Go));
    assert s.tasks == [Sleeping(Unpolled)];
    s := SleepEnds(true, s);
  }

  /** Without reconnection a first failed attempt leaves the status disconnected for a moment, with no
      attempt to follow although nobody has called `terminate()`. */
  lemma DisconnectedAtTheEnd()
    ensures var s := State(Disconnected, true, false, [LoadStatus(false)], Returns(1), false, 0, 0, false);
      Reachable(false, s) && !Committed(s)
  {
    var s := FirstAttempt(false);
    s := FailedAttempt(false, s);
  }

  /** With reconnection no attempt need follow either once a notification is there, used up or not. */
  lemma DisconnectedAndNotified()
    ensures var s := State(Disconnected, true, true, [Sleeping(Unpolled)], Returns(2), true, 1, 0, false);
      Reachable(true, s) && !Committed(s)
  {
    var s := FirstAttempt(true);
    s := DisconnectRun(true, s, 1);
    s := FailedAttempt(true, s);
    s := Reach(true, s, TaskStep(0, Go));
    assert s.tasks == [Sleeping(Unpolled)];
  }

  /** A `shutdown()` can end as terminated, from where the client can connect again. */
  lemma ShutdownLost()
    ensures Reachable(false, State(Terminated, false, true, [Finished], Returns(2), false, 1, 0, false))
    ensures Terminated.CanConnect()
  {
    var s := FirstAttempt(false);
    s := FailedAttempt(false, s);
    s := Reach(false, s, TaskStep(0, Go));
    assert s.tasks == [SetTerminated(false)];
    s := ShutdownRun(false, s, 1);
    s := Reach(false, s, TaskStep(0, Go));
    assert s.tasks == [Leaving];
    s := Reach(false, s, TaskStep(0, Go));
    assert s.tasks == [Finished];
  }

  /** A `connect()` can be lost: called between `disconnect()` and the loop's exit, it finds the loop
      running and gives up; the status stays pending, with nothing left to run and every later
      `connect()` refused. */
  lemma ConnectLost()
    ensures Reachable(true, State(Pending, false, false, [Finished], Returns(3), true, 1, 1, true))
    ensures !Pending.CanConnect()
  {
    var s := FirstAttempt(true);
    s := FailedAttempt(true, s);
    s := Reach(true, s, TaskStep(0, Go));
    assert s.tasks == [Sleeping(Unpolled)];
    s := DisconnectRun(true, s, 1);
    s := ConnectGivesUp(true, s, 2);
    s := SleepEnds(true, s);
  }

  /** A `connect()` can be stopped by the past: after a `disconnect()` that had nothing to stop, the permit
      it stored ends the first attempt. */
  lemma ConnectStopped()
    ensures Reachable(false, State(Terminated, false, false, [Finished], Returns(2), false, 1, 1, false))
  {
    Started(false);
    assert Init(false).calls == Returns(0);
    var s := DisconnectRun(false, Init(false), 0);
    s := ConnectSpawns(false, s, 1);
    assert s.tasks == [Spawned];
    s := AttemptRun(false, s);
    s := Reach(false, s, TaskStep(0, PollTerminate));
    assert s.tasks == [LoadStatus(false)];
    s := Reach(false, s, TaskStep(0, Go));
    assert s.tasks == [SetTerminated(false)];
    s := Reach(false, s, TaskStep(0, Go));
    assert s.tasks == [Leaving];
    s := Reach(false, s, TaskStep(0, Go));
    assert s.tasks == [Finished];
  }
}
