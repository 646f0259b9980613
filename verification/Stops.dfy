/** When `disconnect()` and `shutdown()` are obeyed. */
module Stops {

  import opened Types
  import opened Connection

  // ----- Runs -----

  lemma RunOne(s: State, step: Step, rest: seq<Step>)
    requires Next(s, step).Some?
    ensures Run(s, [step] + rest) == Run(Next(s, step).value, rest)
  {
    assert ([step] + rest)[1..] == rest;
  }

  lemma {:induction false} RunPlus(s: State, a: seq<Step>, b: seq<Step>)
    requires Run(s, a).Some?
    ensures Run(s, a + b) == Run(Run(s, a).value, b)
    decreases |a|
  {
    if a == [] {
      assert [] + b == b;
    } else {
      assert (a + b)[1..] == a[1..] + b;
      RunPlus(Next(s, a[0]).value, a[1..], b);
    }
  }

  // ----- Stopping while connected -----

  predicate TaskSteps(steps: seq<Step>) {
    forall n :: 0 <= n < |steps| ==> steps[n].TaskStep?
  }

  function OwnSteps(steps: seq<Step>, i: nat): nat {
    if steps == [] then 0
    else (if steps[0].TaskStep? && steps[0].i == i then 1 else 0) + OwnSteps(steps[1..], i)
  }

  /** In `post_connection`, before the next load of the status. */
  predicate InPost(s: State, i: nat) {
    i < |s.tasks| && (s.tasks[i].Serving? || s.tasks[i].Closing? || s.tasks[i].LoadStatus?)
  }

  predicate StaysInPost(s: State, steps: seq<Step>, i: nat)
    decreases |steps|
  {
    InPost(s, i) && (steps != [] && Next(s, steps[0]).Some? ==> StaysInPost(Next(s, steps[0]).value, steps[1..], i))
  }

  /** Steps of its own the loop still has to make. */
  function Remaining(task: Task): nat {
    match task
    case Serving(_) => 4
    case Closing => 3
    case LoadStatus(_) => 2
    case Leaving => 1
    case _ => 0
  }

  /** The notification is there for task `i` to see, should it still be serving. */
  predicate Signalled(s: State, i: nat) {
    && Inv(s) && i < |s.tasks| && Remaining(s.tasks[i]) > 0
    && (s.tasks[i].Serving? ==> s.permit || s.tasks[i].Waits(Woken))
  }

  predicate Stopping(s: State, i: nat, final: Status) {
    Signalled(s, i) && final.IsStopped() && s.status == final
  }

  lemma NotifyReaches(s: State, i: nat)
    requires Inv(s) && i < |s.tasks| && s.tasks[i].Serving?
    ensures Notify(s).permit || Notify(s).tasks[i].Waits(Woken)
  {
    NotifyKeeps(s);
    var q := QueuedIn(s.tasks);
    assert q < |s.tasks| ==> s.tasks[q].Live() && q == i;
  }

  /** A step of any task: a signalled loop moves one stage towards its end, and another task can only
      find it running. */
  lemma SignalledStep(s: State, i: nat, step: Step)
    requires Signalled(s, i) && step.TaskStep? && Next(s, step).Some?
    ensures var t := Next(s, step).value;
      && Inv(t) && i < |t.tasks|
      && (step.i != i ==> Remaining(t.tasks[i]) == Remaining(s.tasks[i]) && Signalled(t, i) && t.status == s.status)
      && (step.i == i && !s.tasks[i].LoadStatus? ==>
            && Remaining(t.tasks[i]) == Remaining(s.tasks[i]) - 1 && t.status == s.status
            && (Signalled(t, i) || t.tasks[i].Finished?))
      && (step.i == i && s.tasks[i].LoadStatus? && s.status.IsStopped() ==>
            t.tasks[i].Leaving? && t.status == s.status)
  {
    var t := Next(s, step).value;
    InvStep(s, step);
    TaskMoves(s, step.i, step.choice);
    if step.i != i {
      OtherTaskStays(s, i, step);
    } else if s.tasks[i].Serving? {
      ServingLeaves(s, i, step.choice);
    }
  }

  /** While task `i` is live, another task is not: it can only find the flag set and finish. */
  lemma OtherTaskStays(s: State, i: nat, step: Step)
    requires Signalled(s, i) && step.TaskStep? && step.i != i && Next(s, step).Some?
    ensures s.tasks[step.i].Spawned?
    ensures Next(s, step).value.tasks[i] == s.tasks[i] && Next(s, step).value.permit == s.permit
    ensures Next(s, step).value.status == s.status
  {
    assert s.tasks[i].Live() && s.running;
    assert !s.tasks[step.i].Live();
  }

  lemma ServingLeaves(s: State, i: nat, choice: Choice)
    requires Signalled(s, i) && s.tasks[i].Serving? && TaskNext(s, i, choice).Some?
    ensures TaskNext(s, i, choice).value.tasks[i].Closing?
  {
    if !choice.PollTerminate? {
      DropMoves(s, i, Closing);
    }
  }

  /** The notification given before the last status load stays with the loop up to that load. */
  lemma {:induction false} SignalLasts(s: State, steps: seq<Step>, i: nat, t: State)
    requires Signalled(s, i) && TaskSteps(steps) && StaysInPost(s, steps, i) && Run(s, steps) == Some(t)
    ensures Signalled(t, i) && t.calls == s.calls && t.status == s.status
    decreases |steps|
  {
    if steps != [] {
      var u := Next(s, steps[0]).value;
      SignalledStep(s, i, steps[0]);
      TaskMoves(s, steps[0].i, steps[0].choice);
      assert InPost(u, i);
      SignalLasts(u, steps[1..], i, t);
    }
  }

  /** A stopping loop never gets stuck and never starts over: each step of its own brings it one stage
      nearer to its end, and until then the status stays. */
  lemma {:induction false} StoppingRuns(s: State, i: nat, final: Status, steps: seq<Step>, t: State)
    requires Stopping(s, i, final) && TaskSteps(steps) && Run(s, steps) == Some(t)
    ensures Inv(t) && i < |t.tasks|
    ensures Stopping(t, i, final) || t.tasks[i].Finished?
    ensures !t.tasks[i].Finished? ==>
              TaskNext(t, i, PollTerminate).Some? && Remaining(t.tasks[i]) + OwnSteps(steps, i) == Remaining(s.tasks[i])
    decreases |steps|
  {
    if steps != [] {
      var u := Next(s, steps[0]).value;
      SignalledStep(s, i, steps[0]);
      if u.tasks[i].Finished? {
        FinishedStays(u, i, steps[1..], t);
      } else {
        StoppingRuns(u, i, final, steps[1..], t);
      }
    }
  }

  lemma {:induction false} FinishedStays(s: State, i: nat, steps: seq<Step>, t: State)
    requires Inv(s) && i < |s.tasks| && s.tasks[i].Finished? && Run(s, steps) == Some(t)
    ensures Inv(t) && i < |t.tasks| && t.tasks[i].Finished?
    decreases |steps|
  {
    if steps != [] {
      var u := Next(s, steps[0]).value;
      InvStep(s, steps[0]);
      FinishedStep(s, i, steps[0]);
      FinishedStays(u, i, steps[1..], t);
    }
  }

  lemma FinishedStep(s: State, i: nat, step: Step)
    requires Inv(s) && i < |s.tasks| && s.tasks[i].Finished? && Next(s, step).Some?
    ensures i < |Next(s, step).value.tasks| && Next(s, step).value.tasks[i].Finished?
  {
    match step
    case Begin(_) =>
    case CallStep(k) =>
      CallSteers(s, k);
    case TaskStep(j, choice) =>
      TaskMoves(s, j, choice);
  }

  // ----- When a status stays -----

  /** Whether a task can be trusted not to change this status any more. */
  predicate Safe(task: Task, final: Status) {
    || task.Leaving? || task.Finished?
    || (final.IsStopped() && (task.Serving? || task.Closing? || task.LoadStatus?))
    || (final.Terminated? && task.SetTerminated?)
  }

  predicate AllSafe(s: State) {
    forall i :: 0 <= i < |s.tasks| ==> Safe(s.tasks[i], s.status)
  }

  /** No further run of connection tasks, without calls, changes the status. */
  ghost predicate StaysAt(s: State, final: Status) {
    forall steps :: TaskSteps(steps) && Run(s, steps).Some? ==> Run(s, steps).value.status == final
  }

  lemma SafeStep(s: State, step: Step)
    requires Inv(s) && AllSafe(s) && step.TaskStep? && Next(s, step).Some?
    ensures var t := Next(s, step).value; Inv(t) && AllSafe(t) && t.status == s.status
  {
    InvStep(s, step);
    TaskMoves(s, step.i, step.choice);
  }

  lemma {:induction false} SafeRuns(s: State, steps: seq<Step>)
    requires Inv(s) && AllSafe(s) && TaskSteps(steps) && Run(s, steps).Some?
    ensures Run(s, steps).value.status == s.status
    decreases |steps|
  {
    if steps != [] {
      SafeStep(s, steps[0]);
      SafeRuns(Next(s, steps[0]).value, steps[1..]);
    }
  }

  /** A branch of a `select!` other than the termination one. */
  lemma OtherBranchTaken(s: State, i: nat, choice: Choice)
    requires Inv(s) && i < |s.tasks| && s.tasks[i].Selecting() && !choice.PollTerminate?
    requires OtherBranch(s.tasks[i], choice).Some?
    ensures TaskNext(s, i, choice).Some?
    ensures TaskNext(s, i, choice).value.tasks[i] == OtherBranch(s.tasks[i], choice).value
    ensures TaskNext(s, i, choice).value.status == s.status
  {
    DropMoves(s, i, OtherBranch(s.tasks[i], choice).value);
  }

  /** Steps of its own an unsafe task needs at most to change the status. */
  function Distance(task: Task): nat {
    match task
    case Spawned => 3
    case Won => 2
    case SetConnecting => 1
    case TryConnect(_) => 2
    case SetConnected => 1
    case SetFailed => 5
    case Serving(_) => 6
    case Closing => 5
    case LoadStatus(_) => 4
    case SetDisconnected(_) => 3
    case Sleeping(_) => 2
    case SetTerminated(_) => 1
    case _ => 0
  }

  /** One step of an unsafe task, by no termination branch, changes the status or leaves it unsafe and
      nearer to changing it. */
  lemma StrayStep(s: State, i: nat) returns (u: State, step: Step)
    requires Inv(s) && i < |s.tasks| && !s.status.IsUp() && !Safe(s.tasks[i], s.status)
    requires s.tasks[i].Spawned? ==> !s.running
    ensures step.TaskStep? && Next(s, step) == Some(u) && Inv(u) && i < |u.tasks|
    ensures u.status != s.status
            || (!Safe(u.tasks[i], u.status) && !u.tasks[i].Spawned? && Distance(u.tasks[i]) < Distance(s.tasks[i]))
  {
    var choice := if s.tasks[i].Selecting() then Succeed else Go;
    step := TaskStep(i, choice);
    if s.tasks[i].Selecting() {
      OtherBranchTaken(s, i, choice);
    }
    u := Next(s, step).value;
    InvStep(s, step);
    TaskMoves(s, i, choice);
  }

  lemma {:induction false} Strays(s: State, i: nat) returns (steps: seq<Step>)
    requires Inv(s) && i < |s.tasks| && !s.status.IsUp() && !Safe(s.tasks[i], s.status)
    requires s.tasks[i].Spawned? ==> !s.running
    ensures TaskSteps(steps) && Run(s, steps).Some? && Run(s, steps).value.status != s.status
    decreases Distance(s.tasks[i])
  {
    var u, step := StrayStep(s, i);
    steps := [];
    if u.status == s.status {
      steps := Strays(u, i);
    }
    RunOne(s, step, steps);
    steps := [step] + steps;
  }

  /** Steps of its own a safe live task needs to leave. */
  function ToLeave(task: Task): nat {
    match task
    case Serving(_) => 4
    case Closing => 3
    case LoadStatus(_) => 2
    case SetTerminated(_) => 2
    case Leaving => 1
    case _ => 0
  }

  lemma LeaveStep(s: State, i: nat) returns (u: State, step: Step)
    requires Inv(s) && i < |s.tasks| && s.tasks[i].Live() && Safe(s.tasks[i], s.status)
    ensures step.TaskStep? && Next(s, step) == Some(u) && Inv(u) && u.status == s.status
    ensures OthersStay(s, i, u) && Safe(u.tasks[i], u.status) && ToLeave(u.tasks[i]) < ToLeave(s.tasks[i])
    ensures if s.tasks[i].Leaving? then !u.running else u.tasks[i].Live()
  {
    var choice := if s.tasks[i].Selecting() then Succeed else Go;
    step := TaskStep(i, choice);
    if s.tasks[i].Selecting() {
      OtherBranchTaken(s, i, choice);
    }
    u := Next(s, step).value;
    InvStep(s, step);
    TaskMoves(s, i, choice);
  }

  /** A task spawned earlier and not yet begun takes over once the live loop has left, and connects. */
  lemma {:induction false} LateTaskStrays(s: State, i: nat, j: nat) returns (steps: seq<Step>)
    requires Inv(s) && i < |s.tasks| && s.tasks[i].Live() && Safe(s.tasks[i], s.status) && !s.status.IsUp()
    requires j < |s.tasks| && s.tasks[j].Spawned?
    ensures TaskSteps(steps) && Run(s, steps).Some? && Run(s, steps).value.status != s.status
    decreases ToLeave(s.tasks[i])
  {
    var u, step := LeaveStep(s, i);
    if s.tasks[i].Leaving? {
      steps := Strays(u, j);
    } else {
      steps := LateTaskStrays(u, i, j);
    }
    RunOne(s, step, steps);
    steps := [step] + steps;
  }

  lemma SomeRunStrays(s: State) returns (steps: seq<Step>)
    requires Inv(s) && !s.status.IsUp() && !AllSafe(s)
    ensures TaskSteps(steps) && Run(s, steps).Some? && Run(s, steps).value.status != s.status
  {
    var j :| 0 <= j < |s.tasks| && !Safe(s.tasks[j], s.status);
    if s.tasks[j].Spawned? && s.running {
      var i :| 0 <= i < |s.tasks| && s.tasks[i].Live();
      if Safe(s.tasks[i], s.status) {
        steps := LateTaskStrays(s, i, j);
      } else {
        steps := Strays(s, i);
      }
    } else {
      steps := Strays(s, j);
    }
  }

  /** Without further calls a status other than connecting and connected is final exactly if every task is
      safe: it is leaving or has finished, or the status is a stopped one and it is past its attempt
      and has yet to load the status, or it is about to set this very status. In particular that is when a
      completed `disconnect()` or `shutdown()` holds, and when a pending or disconnected status is stuck. */
  lemma StatusStaysIff(s: State)
    requires Inv(s) && !s.status.IsUp()
    ensures StaysAt(s, s.status) <==> AllSafe(s)
  {
    if AllSafe(s) {
      forall steps | TaskSteps(steps) && Run(s, steps).Some?
        ensures Run(s, steps).value.status == s.status
      {
        SafeRuns(s, steps);
      }
    } else {
      var steps := SomeRunStrays(s);
    }
  }

  /** A `shutdown()` that lands after the status was loaded by a loop that does not reconnect ends as
      terminated. */
  lemma ShutdownOverwritten(s: State, i: nat)
    requires Inv(s) && i < |s.tasks| && s.tasks[i].SetTerminated? && s.status.Shutdown?
    ensures !StaysAt(s, Shutdown)
    ensures var t := TaskNext(s, i, Go).value;
      t.status.Terminated? && t.tasks[i].Leaving? && (StaysAt(t, Terminated) <==> NoneSpawned(t))
  {
    StatusStaysIff(s);
    assert !Safe(s.tasks[i], s.status);
    var t := TaskNext(s, i, Go).value;
    assert Next(s, TaskStep(i, Go)) == Some(t);
    InvStep(s, TaskStep(i, Go));
    StatusStaysIff(t);
    assert forall j :: 0 <= j < |t.tasks| && t.tasks[j].Live() ==> j == i;
  }

  // ----- The theorem about stopping -----

  predicate NoneSpawned(s: State) {
    forall j :: 0 <= j < |s.tasks| ==> !s.tasks[j].Spawned?
  }

  function FinalStatus(call: Call): Status {
    if call.DisconnectNotify? then Terminated else Shutdown
  }

  lemma NotifySignals(s: State, k: nat, i: nat)
    requires Inv(s) && k < |s.calls| && s.calls[k].Terminating() && InPost(s, i)
    ensures Signalled(CallNext(s, k).value, i)
  {
    assert Next(s, CallStep(k)) == CallNext(s, k);
    InvStep(s, CallStep(k));
    if s.tasks[i].Serving? {
      NotifyReaches(s, i);
    }
    NotifyKeeps(s);
    assert SameStage(s.tasks[i], CallNext(s, k).value.tasks[i]);
  }

  lemma SetStops(s: State, k: nat, i: nat)
    requires Signalled(s, i) && k < |s.calls| && (s.calls[k].DisconnectSet? || s.calls[k].ShutdownSet?)
    ensures CallNext(s, k).Some? && CallNext(s, k).value.tasks == s.tasks
    ensures Stopping(CallNext(s, k).value, i, if s.calls[k].DisconnectSet? then Terminated else Shutdown)
  {
    assert Next(s, CallStep(k)) == CallNext(s, k);
    InvStep(s, CallStep(k));
  }

  /** A call that notifies and sets the status while the loop is in `post_connection` leaves it stopping. */
  lemma StopBegins(s: State, k: nat, i: nat, between: seq<Step>, w: State)
    requires Inv(s) && k < |s.calls| && s.calls[k].Terminating() && InPost(s, i)
    requires TaskSteps(between) && StaysInPost(CallNext(s, k).value, between, i)
    requires Run(CallNext(s, k).value, between) == Some(w)
    ensures k < |w.calls| && CallNext(w, k).Some? && CallNext(w, k).value.tasks == w.tasks
    ensures Stopping(CallNext(w, k).value, i, FinalStatus(s.calls[k]))
  {
    NotifySignals(s, k, i);
    SignalLasts(CallNext(s, k).value, between, i, w);
    SetStops(w, k, i);
  }

  /** `disconnect()` or `shutdown()` whose two steps fall while the loop is in `post_connection`, before it
      loads the status, with no other call in between: the loop sees the notification, loads the stopped
      status and leaves within four steps of its own, whichever branches its `select!` takes; it is never
      stuck, and the status stays unless another task was spawned before. */
  lemma StopWhileServing(s: State, k: nat, i: nat, between: seq<Step>, w: State, rest: seq<Step>, t: State)
    requires Inv(s) && k < |s.calls| && s.calls[k].Terminating() && InPost(s, i)
    requires TaskSteps(between) && StaysInPost(CallNext(s, k).value, between, i)
    requires Run(CallNext(s, k).value, between) == Some(w)
    requires k < |w.calls| && CallNext(w, k).Some?
    requires TaskSteps(rest) && Run(CallNext(w, k).value, rest) == Some(t)
    ensures i < |t.tasks|
    ensures t.status == FinalStatus(s.calls[k]) || (t.tasks[i].Finished? && !NoneSpawned(w))
    ensures OwnSteps(rest, i) >= 4 ==> t.tasks[i].Finished?
    ensures !t.tasks[i].Finished? ==> TaskNext(t, i, PollTerminate).Some? && Remaining(t.tasks[i]) > 0
  {
    StopBegins(s, k, i, between, w);
    var u := CallNext(w, k).value;
    StoppingRuns(u, i, FinalStatus(s.calls[k]), rest, t);
    if NoneSpawned(w) {
      assert forall j :: 0 <= j < |u.tasks| && u.tasks[j].Live() ==> j == i;
      SafeRuns(u, rest);
    }
  }

  /** While the loop is still connecting nothing is decided: a completed stop holds from the next step on
      exactly if that step is the end of the wait, and no other task is about to start. */
  lemma StopWhileConnecting(s: State, i: nat, final: Status, choice: Choice)
    requires Inv(s) && i < |s.tasks| && s.tasks[i].TryConnect?
    requires s.status == final && final.IsStopped() && TaskNext(s, i, choice).Some?
    ensures var t := TaskNext(s, i, choice).value;
      && (StaysAt(t, final) <==> t.waited > s.waited && NoneSpawned(s))
      && (s.permit || s.tasks[i].Waits(Woken) ==> (t.waited > s.waited <==> choice.PollTerminate?))
      && (t.waited > s.waited ==> Stopping(t, i, final))
  {
    var t := TaskNext(s, i, choice).value;
    assert Next(s, TaskStep(i, choice)) == Some(t);
    InvStep(s, TaskStep(i, choice));
    AttemptStep(s, i, choice);
    StatusStaysIff(t);
  }

  /** A step inside the attempt's `select!`: all tasks are safe afterwards exactly if its wait has ended and
      no other task is about to start. */
  lemma AttemptStep(s: State, i: nat, choice: Choice)
    requires Inv(s) && i < |s.tasks| && s.tasks[i].TryConnect? && s.status.IsStopped()
    requires TaskNext(s, i, choice).Some?
    ensures var t := TaskNext(s, i, choice).value;
      && i < |t.tasks| && t.status == s.status && (t.waited > s.waited <==> t.tasks[i] == LoadStatus(false))
      && (AllSafe(t) <==> t.waited > s.waited && NoneSpawned(s))
      && (s.permit || s.tasks[i].Waits(Woken) ==> (t.waited > s.waited <==> choice.PollTerminate?))
  {
    var t := TaskNext(s, i, choice).value;
    TaskMoves(s, i, choice);
    if !choice.PollTerminate? {
      DropMoves(s, i, OtherBranch(s.tasks[i], choice).value);
    }
    assert forall j :: 0 <= j < |s.tasks| && j != i ==> !s.tasks[j].Live() && t.tasks[j] == s.tasks[j];
    if !NoneSpawned(s) {
      var j :| 0 <= j < |s.tasks| && s.tasks[j].Spawned?;
      assert !Safe(t.tasks[j], t.status);
    }
  }
}
