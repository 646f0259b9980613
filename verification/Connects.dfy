/** When a `connect()` leads to a connection attempt of its own. */
module Connects {

  import opened Types
  import opened Connection
  import opened Stops

  /** Steps of this call and of connection tasks. */
  predicate OwnStep(step: Step, k: nat) {
    step.TaskStep? || step == CallStep(k)
  }

  predicate OwnRun(steps: seq<Step>, k: nat) {
    forall n :: 0 <= n < |steps| ==> OwnStep(steps[n], k)
  }

  ghost predicate CanStep(s: State, k: nat) {
    exists step :: OwnStep(step, k) && Next(s, step).Some?
  }

  /** Steps from the call to the attempt: load, set, check, spawn; swap, begin, set. */
  const TO_ATTEMPT: nat := 7

  /** What is expected after `n` steps of the call and of tasks: no notification given before the call
      has ended a wait, the call has not returned without spawning a task, and it is on its way to an
      attempt by that task, which it makes with step 7. */
  ghost predicate Honoured(s: State, k: nat, n: nat, t: State) {
    && t.waited == s.waited
    && (k < |t.calls| && t.calls[k].Returned? ==> |t.tasks| > |s.tasks|)
    && (n < TO_ATTEMPT ==> CanStep(t, k))
    && (n == TO_ATTEMPT ==> |t.tasks| > |s.tasks| && t.tasks[|s.tasks|].TryConnect? && t.status.Connecting?)
  }

  ghost predicate AlwaysHonoured(s: State, k: nat) {
    forall steps :: OwnRun(steps, k) && Run(s, steps).Some? ==> Honoured(s, k, |steps|, Run(s, steps).value)
  }

  /** What a caller would have to know: the status allows it, no loop is running or about to, and no
      notification has been left over. */
  predicate Guarded(s: State) {
    s.status.CanConnect() && !s.running && !s.permit && NoneSpawned(s)
  }

  // ----- The way to the attempt -----

  function CallAfter(n: nat): Call {
    if n == 0 then ConnectLoad
    else if n == 1 then ConnectSetPending
    else if n == 2 then ConnectCheckRunning
    else if n == 3 then ConnectSpawn
    else Returned
  }

  function TasksAfter(n: nat): seq<Task> {
    if n < 4 then []
    else if n == 4 then [Spawned]
    else if n == 5 then [Won]
    else if n == 6 then [SetConnecting]
    else [TryConnect(Unpolled)]
  }

  /** The state after `n` steps of the call and its task, when nothing else can move. */
  function Along(s: State, k: nat, n: nat): State
    requires k < |s.calls| && n <= TO_ATTEMPT
  {
    s.(calls := s.calls[k := CallAfter(n)],
       tasks := s.tasks + TasksAfter(n),
       running := n >= 5,
       status := if n < 2 then s.status else if n < 7 then Pending else Connecting,
       turnedAway := if n < 2 then s.turnedAway else false)
  }

  predicate Idle(s: State) {
    !s.running && forall i :: 0 <= i < |s.tasks| ==> s.tasks[i].Finished?
  }

  lemma CallAlong(s: State, k: nat, n: nat)
    requires Idle(s) && s.status.CanConnect() && k < |s.calls| && n < 4
    ensures Next(Along(s, k, n), CallStep(k)) == Some(Along(s, k, n + 1))
  {
    var at, next := Along(s, k, n), Along(s, k, n + 1);
    assert at.tasks == s.tasks;
    assert at.calls[k := CallAfter(n + 1)] == next.calls;
  }

  lemma TaskAlong(s: State, k: nat, n: nat, choice: Choice)
    requires Idle(s) && k < |s.calls| && 4 <= n < TO_ATTEMPT
    ensures Next(Along(s, k, n), TaskStep(|s.tasks|, choice)) == Some(Along(s, k, n + 1))
  {
    var at, next := Along(s, k, n), Along(s, k, n + 1);
    assert at.tasks[|s.tasks| := next.tasks[|s.tasks|]] == next.tasks;
  }

  /** Nothing else can move before the attempt. */
  lemma OnlyWay(s: State, k: nat, n: nat, step: Step)
    requires Idle(s) && s.status.CanConnect() && k < |s.calls| && n < TO_ATTEMPT
    requires OwnStep(step, k) && Next(Along(s, k, n), step).Some?
    ensures Next(Along(s, k, n), step) == Some(Along(s, k, n + 1))
  {
    var at := Along(s, k, n);
    assert forall i :: 0 <= i < |s.tasks| ==> at.tasks[i].Finished?;
    assert at.calls[k] == CallAfter(n);
    if n < 4 {
      CallAlong(s, k, n);
    } else {
      TaskAlong(s, k, n, if step.TaskStep? then step.choice else Go);
    }
  }

  lemma SomeWay(s: State, k: nat, n: nat)
    requires Idle(s) && s.status.CanConnect() && k < |s.calls| && n < TO_ATTEMPT
    ensures CanStep(Along(s, k, n), k)
  {
    if n < 4 {
      CallAlong(s, k, n);
      assert OwnStep(CallStep(k), k);
    } else {
      TaskAlong(s, k, n, Go);
      assert OwnStep(TaskStep(|s.tasks|, Go), k);
    }
  }

  // ----- And beyond -----

  /** No notification is stored or under way, and the call is over. */
  predicate Undisturbed(s: State, k: nat) {
    && !s.permit && (forall i :: 0 <= i < |s.tasks| ==> !s.tasks[i].Waits(Woken))
    && k < |s.calls| && s.calls[k].Returned?
  }

  lemma UndisturbedStep(s: State, k: nat, step: Step)
    requires Undisturbed(s, k) && OwnStep(step, k) && Next(s, step).Some?
    ensures var t := Next(s, step).value;
      Undisturbed(t, k) && t.waited == s.waited && |t.tasks| == |s.tasks|
  {
  }

  lemma {:induction false} UndisturbedRuns(s: State, k: nat, steps: seq<Step>)
    requires Undisturbed(s, k) && OwnRun(steps, k) && Run(s, steps).Some?
    ensures var t := Run(s, steps).value;
      Undisturbed(t, k) && t.waited == s.waited && |t.tasks| == |s.tasks|
    decreases |steps|
  {
    if steps != [] {
      UndisturbedStep(s, k, steps[0]);
      UndisturbedRuns(Next(s, steps[0]).value, k, steps[1..]);
    }
  }

  lemma {:induction false} GuardedRuns(s: State, k: nat, n: nat, steps: seq<Step>)
    requires Idle(s) && s.status.CanConnect() && !s.permit && k < |s.calls| && n <= TO_ATTEMPT
    requires OwnRun(steps, k) && Run(Along(s, k, n), steps).Some?
    ensures Honoured(s, k, n + |steps|, Run(Along(s, k, n), steps).value)
    decreases |steps|
  {
    if steps == [] {
      if n < TO_ATTEMPT {
        SomeWay(s, k, n);
      }
    } else if n < TO_ATTEMPT {
      OnlyWay(s, k, n, steps[0]);
      GuardedRuns(s, k, n + 1, steps[1..]);
    } else {
      UndisturbedRuns(Along(s, k, n), k, steps);
    }
  }

  // ----- What goes wrong otherwise -----

  lemma Refused(s: State, k: nat)
    requires k < |s.calls| && s.calls[k].ConnectLoad? && !s.status.CanConnect()
    ensures !AlwaysHonoured(s, k)
  {
    var steps := [CallStep(k)];
    RunOne(s, CallStep(k), []);
    assert [CallStep(k)] + [] == steps;
    assert OwnRun(steps, k) && Run(s, steps).Some?;
  }

  /** A call that finds a loop running when it checks has set the status and spawns nothing. */
  lemma TurnedAwayRun(s: State, k: nat) returns (t: State)
    requires k < |s.calls| && s.calls[k].ConnectLoad? && s.status.CanConnect() && s.running
    ensures Run(s, [CallStep(k), CallStep(k), CallStep(k)]) == Some(t)
    ensures k < |t.calls| && t.calls[k].Returned? && t.tasks == s.tasks && t.waited == s.waited
  {
    var step := CallStep(k);
    var a := Next(s, step).value;
    var b := Next(a, step).value;
    t := Next(b, step).value;
    RunOne(b, step, []);
    RunOne(a, step, [step]);
    RunOne(s, step, [step, step]);
  }

  lemma FindsItRunning(s: State, k: nat)
    requires k < |s.calls| && s.calls[k].ConnectLoad? && s.status.CanConnect() && s.running
    ensures !AlwaysHonoured(s, k)
  {
    var steps := [CallStep(k), CallStep(k), CallStep(k)];
    var t := TurnedAwayRun(s, k);
    assert OwnRun(steps, k) && Run(s, steps) == Some(t);
    assert !Honoured(s, k, |steps|, t);
  }

  lemma OvertakenBySpawned(s: State, k: nat, j: nat)
    requires k < |s.calls| && s.calls[k].ConnectLoad? && s.status.CanConnect() && !s.running
    requires j < |s.tasks| && s.tasks[j].Spawned?
    ensures !AlwaysHonoured(s, k)
  {
    var go := TaskStep(j, Go);
    var u := Next(s, go).value;
    var t := TurnedAwayRun(u, k);
    var steps := [go, CallStep(k), CallStep(k), CallStep(k)];
    RunOne(s, go, [CallStep(k), CallStep(k), CallStep(k)]);
    assert [go] + [CallStep(k), CallStep(k), CallStep(k)] == steps;
    assert OwnRun(steps, k) && Run(s, steps) == Some(t);
    assert !Honoured(s, k, |steps|, t);
  }

  lemma {:induction false} RunAlong(s: State, k: nat, n: nat) returns (steps: seq<Step>)
    requires Idle(s) && s.status.CanConnect() && k < |s.calls| && n <= TO_ATTEMPT
    ensures OwnRun(steps, k) && Run(Along(s, k, n), steps) == Some(Along(s, k, TO_ATTEMPT))
    decreases TO_ATTEMPT - n
  {
    steps := [];
    if n < TO_ATTEMPT {
      var step := if n < 4 then CallStep(k) else TaskStep(|s.tasks|, Go);
      if n < 4 {
        CallAlong(s, k, n);
      } else {
        TaskAlong(s, k, n, Go);
      }
      steps := RunAlong(s, k, n + 1);
      RunOne(Along(s, k, n), step, steps);
      steps := [step] + steps;
    }
  }

  /** A permit left over from earlier ends the very first attempt. */
  lemma StalePermit(s: State, k: nat)
    requires Idle(s) && s.status.CanConnect() && s.permit && k < |s.calls| && s.calls[k].ConnectLoad?
    ensures !AlwaysHonoured(s, k)
  {
    var steps := RunAlong(s, k, 0);
    StartsAlong(s, k);
    var at := Along(s, k, TO_ATTEMPT);
    var step := TaskStep(|s.tasks|, PollTerminate);
    RunOne(at, step, []);
    RunPlus(s, steps, [step] + []);
    var more := steps + ([step] + []);
    assert OwnRun(more, k) && Run(s, more) == Next(at, step);
  }

  lemma StartsAlong(s: State, k: nat)
    requires Idle(s) && k < |s.calls| && s.calls[k].ConnectLoad?
    ensures Along(s, k, 0) == s
  {
    assert s.tasks + [] == s.tasks;
  }

  /** A `connect()` leads to an attempt that no notification given before it can end, in every run of the
      call and of tasks, exactly if at the call the status allows it, no loop is running, no spawned task
      is about to start, and no permit is left over. */
  lemma ConnectHonouredIff(s: State, k: nat)
    requires Inv(s) && k < |s.calls| && s.calls[k].ConnectLoad?
    ensures AlwaysHonoured(s, k) <==> Guarded(s)
  {
    if !s.status.CanConnect() {
      Refused(s, k);
    } else if s.running {
      FindsItRunning(s, k);
    } else if !NoneSpawned(s) {
      var j :| 0 <= j < |s.tasks| && s.tasks[j].Spawned?;
      OvertakenBySpawned(s, k, j);
    } else {
      assert Idle(s) by {
        assert forall i :: 0 <= i < |s.tasks| ==> !s.tasks[i].Live();
      }
      if s.permit {
        StalePermit(s, k);
      } else {
        StartsAlong(s, k);
        forall steps | OwnRun(steps, k) && Run(s, steps).Some?
          ensures Honoured(s, k, |steps|, Run(s, steps).value)
        {
          GuardedRuns(s, k, 0, steps);
        }
      }
    }
  }
}
