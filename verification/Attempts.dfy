/** When a disconnected status is followed by another connection attempt. */
module Attempts {

  import opened Types
  import opened Connection
  import opened Stops
  import opened Retries

  predicate AllFinished(s: State) {
    forall i :: 0 <= i < |s.tasks| ==> s.tasks[i].Finished?
  }

  /** The status is connecting at no point of the run. */
  predicate NeverConnecting(s: State, steps: seq<Step>)
    decreases |steps|
  {
    && !s.status.Connecting?
    && (steps != [] && Next(s, steps[0]).Some? ==> NeverConnecting(Next(s, steps[0]).value, steps[1..]))
  }

  /** Some run of connection tasks, without further calls, is over without another attempt. */
  ghost predicate MayEndUnattempted(s: State) {
    exists steps ::
      TaskSteps(steps) && Run(s, steps).Some? && NeverConnecting(s, steps) && AllFinished(Run(s, steps).value)
  }

  // ----- A measure -----

  /** Steps of its own a task can make before it connects or has finished. */
  function Pace(task: Task): nat {
    match task
    case Spawned => 3
    case Won => 2
    case SetConnecting => 1
    case LoadStatus(_) => 5
    case SetDisconnected(_) => 4
    case Sleeping(wait) => if wait.Unpolled? then 3 else 2
    case SetTerminated(_) => 2
    case Leaving => 1
    case _ => 0
  }

  function Work(tasks: seq<Task>): nat {
    if tasks == [] then 0 else Pace(tasks[0]) + Work(tasks[1..])
  }

  lemma {:induction false} WorkUpdate(tasks: seq<Task>, i: nat, to: Task)
    requires i < |tasks|
    ensures Work(tasks[i := to]) + Pace(tasks[i]) == Work(tasks) + Pace(to)
    decreases |tasks|
  {
    if i == 0 {
      assert tasks[0 := to][1..] == tasks[1..];
    } else {
      assert tasks[i := to][1..] == tasks[1..][i - 1 := to];
      WorkUpdate(tasks[1..], i - 1, to);
    }
  }

  /** The step changed one task, and brought it nearer to its end. */
  predicate Advanced(s: State, i: nat, t: State)
    requires i < |s.tasks|
  {
    |t.tasks| == |s.tasks| && t.tasks == s.tasks[i := t.tasks[i]] && Pace(t.tasks[i]) < Pace(s.tasks[i])
  }

  // ----- When another attempt is bound to follow -----

  /** A step of the live task that is bound to connect. */
  lemma CommittingStep(s: State, i: nat, choice: Choice)
    requires Inv(s) && s.status.Disconnected? && i < |s.tasks| && Committing(s, i) && TaskNext(s, i, choice).Some?
    ensures var t := TaskNext(s, i, choice).value;
      t.status.Connecting? || (t.status.Disconnected? && Advanced(s, i, t) && Committing(t, i))
  {
  }

  /** A step of a task that finds a loop running. */
  lemma LateStep(s: State, i: nat, choice: Choice)
    requires i < |s.tasks| && s.tasks[i].Spawned? && s.running && TaskNext(s, i, choice).Some?
    ensures var t := TaskNext(s, i, choice).value;
      && Advanced(s, i, t) && t.tasks[i].Finished?
      && t.status == s.status && t.permit == s.permit && t.reconnect == s.reconnect && t.running
  {
  }

  lemma CommittedStep(s: State, step: Step)
    requires Inv(s) && s.status.Disconnected? && Committed(s) && step.TaskStep? && Next(s, step).Some?
    ensures var t := Next(s, step).value;
      t.status.Connecting? || (Inv(t) && t.status.Disconnected? && Committed(t) && Advanced(s, step.i, t))
  {
    InvStep(s, step);
    var t := Next(s, step).value;
    if i :| 0 <= i < |s.tasks| && Committing(s, i) {
      assert s.tasks[i].Live() && s.running;
      if step.i == i {
        CommittingStep(s, i, step.choice);
      } else {
        assert !s.tasks[step.i].Live();
        LateStep(s, step.i, step.choice);
        assert Committing(t, i);
      }
    } else {
      assert !s.tasks[step.i].Live();
      assert t.tasks[step.i].Won?;
      assert Committing(t, step.i);
    }
  }

  /** No run avoids the attempt for longer than the work that is left, and none gets stuck. */
  lemma {:induction false} CommittedRuns(s: State, steps: seq<Step>)
    requires Inv(s) && s.status.Disconnected? && Committed(s)
    requires TaskSteps(steps) && Run(s, steps).Some? && NeverConnecting(s, steps)
    ensures |steps| <= Work(s.tasks)
    ensures !AllFinished(Run(s, steps).value)
    ensures exists i: nat, choice :: Next(Run(s, steps).value, TaskStep(i, choice)).Some?
    decreases |steps|
  {
    if steps == [] {
      SomeoneSteps(s);
    } else {
      var u := Next(s, steps[0]).value;
      CommittedStep(s, steps[0]);
      WorkUpdate(s.tasks, steps[0].i, u.tasks[steps[0].i]);
      CommittedRuns(u, steps[1..]);
    }
  }

  lemma SomeoneSteps(s: State)
    requires Inv(s) && Committed(s)
    ensures !AllFinished(s) && exists i: nat, choice :: Next(s, TaskStep(i, choice)).Some?
  {
    var i :| 0 <= i < |s.tasks| && (Committing(s, i) || s.tasks[i].Spawned?);
    var choice := if s.tasks[i].Selecting() then Succeed else Go;
    assert Next(s, TaskStep(i, choice)).Some?;
  }

  // ----- When none need follow -----

  /** A task that can leave without another attempt. */
  predicate CanEnd(s: State, i: nat)
    requires i < |s.tasks|
  {
    || s.tasks[i].Leaving? || s.tasks[i].SetTerminated?
    || (s.status.Disconnected? && s.tasks[i].BetweenAttempts() && (!s.reconnect || Token(s, i)))
  }

  predicate ReadyToEnd(s: State) {
    && (s.status.Disconnected? || s.status.Terminated?)
    && (if s.running then exists i :: 0 <= i < |s.tasks| && CanEnd(s, i) else NoneSpawned(s))
  }

  lemma EndingMove(s: State, i: nat, choice: Choice)
    requires i < |s.tasks| && CanEnd(s, i) && (s.status.Disconnected? || s.status.Terminated?) && StagesFit(s)
    requires choice == if s.tasks[i].Sleeping? then PollTerminate else Go
    requires s.tasks[i].Sleeping? && s.permit ==> !s.tasks[i].Waits(Queued)
    ensures TaskNext(s, i, choice).Some?
    ensures var u := TaskNext(s, i, choice).value;
      && Advanced(s, i, u) && (u.status.Disconnected? || u.status.Terminated?)
      && (if s.tasks[i].Leaving? then !u.running else u.running == s.running && CanEnd(u, i))
  {
  }

  /** The live task takes its next step to the exit, after every spawned one has found it running. */
  lemma EndingStep(s: State, i: nat) returns (u: State, step: Step)
    requires Inv(s) && ReadyToEnd(s) && NoneSpawned(s) && i < |s.tasks| && CanEnd(s, i)
    ensures step.TaskStep? && Next(s, step) == Some(u) && Inv(u) && ReadyToEnd(u)
    ensures step.i == i && Advanced(s, i, u)
  {
    step := TaskStep(i, if s.tasks[i].Sleeping? then PollTerminate else Go);
    EndingMove(s, i, step.choice);
    u := Next(s, step).value;
    InvStep(s, step);
  }

  lemma SpawnedEnds(s: State, i: nat, j: nat) returns (u: State, step: Step)
    requires Inv(s) && ReadyToEnd(s) && i < |s.tasks| && CanEnd(s, i) && j < |s.tasks| && s.tasks[j].Spawned?
    ensures step.TaskStep? && Next(s, step) == Some(u) && Inv(u) && ReadyToEnd(u)
    ensures step.i == j && Advanced(s, j, u)
  {
    step := TaskStep(j, Go);
    u := Next(s, step).value;
    InvStep(s, step);
    assert s.tasks[i].Live() && s.running;
    LateStep(s, j, Go);
    assert CanEnd(u, i);
  }

  lemma {:induction false} Ends(s: State) returns (steps: seq<Step>)
    requires Inv(s) && ReadyToEnd(s)
    ensures TaskSteps(steps) && Run(s, steps).Some? && NeverConnecting(s, steps) && AllFinished(Run(s, steps).value)
    decreases Work(s.tasks)
  {
    steps := [];
    if s.running {
      var i :| 0 <= i < |s.tasks| && CanEnd(s, i);
      var u, step;
      if j :| 0 <= j < |s.tasks| && s.tasks[j].Spawned? {
        u, step := SpawnedEnds(s, i, j);
      } else {
        u, step := EndingStep(s, i);
      }
      WorkUpdate(s.tasks, step.i, u.tasks[step.i]);
      var rest := Ends(u);
      RunOne(s, step, rest);
      assert ([step] + rest)[1..] == rest;
      steps := [step] + rest;
    } else {
      assert forall i :: 0 <= i < |s.tasks| ==> !s.tasks[i].Live();
    }
  }

  lemma UncommittedReady(s: State)
    requires Inv(s) && s.status.Disconnected? && !Committed(s)
    ensures ReadyToEnd(s)
  {
    if s.running {
      var i :| 0 <= i < |s.tasks| && s.tasks[i].Live();
      assert !Committing(s, i);
      assert CanEnd(s, i);
    }
  }

  /** Without further calls a disconnected status can be the end of it exactly if nobody is committed to
      another attempt. */
  lemma AttemptFollowsIff(s: State)
    requires Inv(s) && s.status.Disconnected?
    ensures MayEndUnattempted(s) <==> !Committed(s)
  {
    if Committed(s) {
      forall steps | TaskSteps(steps) && Run(s, steps).Some? && NeverConnecting(s, steps)
        ensures !AllFinished(Run(s, steps).value)
      {
        CommittedRuns(s, steps);
      }
    } else {
      UncommittedReady(s);
      var steps := Ends(s);
    }
  }
}
