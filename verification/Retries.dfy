/** When a loop gives up retrying: it can leave with the status still disconnected. */
module Retries {

  import opened Types
  import opened Connection
  import opened Stops

  /** While a task is live, no other one waits, moves or writes: a spawned one can only find it running. */
  lemma OthersIdle(s: State, i: nat, step: Step)
    requires Inv(s) && i < |s.tasks| && s.tasks[i].Live()
    requires step.TaskStep? && step.i != i && Next(s, step).Some?
    ensures var t := Next(s, step).value;
      && i < |t.tasks| && t.tasks[i] == s.tasks[i] && t.permit == s.permit && t.waited == s.waited
      && t.status == s.status && t.reconnect == s.reconnect
  {
    assert s.running && !s.tasks[step.i].Live();
  }

  /** With no notification for it no wait of the only live task completes, and none appears. */
  lemma NoTokenStep(s: State, i: nat, choice: Choice)
    requires i < |s.tasks| && !Token(s, i) && TaskNext(s, i, choice).Some?
    ensures var t := TaskNext(s, i, choice).value;
      |t.tasks| == |s.tasks| && t.waited == s.waited && !t.permit && !t.tasks[i].Waits(Woken)
    ensures s.tasks[i].Sleeping? ==> !TaskNext(s, i, choice).value.tasks[i].Leaving?
  {
  }

  /** Passing up the termination branch keeps the notification for the next wait. */
  lemma TokenKept(s: State, i: nat, choice: Choice)
    requires Inv(s) && i < |s.tasks| && s.tasks[i].Live() && Token(s, i) && !choice.PollTerminate?
    requires TaskNext(s, i, choice).Some?
    ensures i < |TaskNext(s, i, choice).value.tasks| && TaskNext(s, i, choice).value.permit
  {
    if s.tasks[i].Selecting() {
      var to := OtherBranch(s.tasks[i], choice).value;
      var left := s.(tasks := s.tasks[i := to]);
      assert forall j :: 0 <= j < |s.tasks| && j != i ==> !s.tasks[j].Live();
      assert QueuedIn(left.tasks) == |left.tasks|;
    }
  }

  /** Whether a loop can still leave with the status disconnected. */
  predicate CanGiveUp(s: State, i: nat)
    requires i < |s.tasks|
  {
    || (s.tasks[i].Leaving? && s.status.Disconnected?)
    || (s.reconnect && s.tasks[i].GoesOn() && Token(s, i) && !(s.status.IsStopped() && InPost(s, i)))
  }

  predicate GaveUp(s: State, i: nat) {
    i < |s.tasks| && s.tasks[i].Leaving? && s.status.Disconnected?
  }

  /** Some run of connection tasks, without further calls, takes the loop to its exit with the status
      disconnected. */
  ghost predicate MayGiveUp(s: State, i: nat) {
    exists steps :: TaskSteps(steps) && Run(s, steps).Some? && GaveUp(Run(s, steps).value, i)
  }

  /** Once it cannot, it never can. */
  lemma NoGivingUpStep(s: State, i: nat, step: Step)
    requires Inv(s) && i < |s.tasks| && !CanGiveUp(s, i) && (s.tasks[i].Live() || s.tasks[i].Finished?)
    requires step.TaskStep? && Next(s, step).Some?
    ensures var t := Next(s, step).value;
      Inv(t) && i < |t.tasks| && !CanGiveUp(t, i) && (t.tasks[i].Live() || t.tasks[i].Finished?)
  {
    InvStep(s, step);
    if s.tasks[i].Finished? {
      FinishedStep(s, i, step);
    } else if step.i != i {
      OthersIdle(s, i, step);
    } else {
      TaskMoves(s, i, step.choice);
      if !Token(s, i) {
        NoTokenStep(s, i, step.choice);
      }
    }
  }

  lemma {:induction false} NoGivingUp(s: State, i: nat, steps: seq<Step>)
    requires Inv(s) && i < |s.tasks| && !CanGiveUp(s, i) && (s.tasks[i].Live() || s.tasks[i].Finished?)
    requires TaskSteps(steps) && Run(s, steps).Some?
    ensures !GaveUp(Run(s, steps).value, i)
    decreases |steps|
  {
    if steps != [] {
      NoGivingUpStep(s, i, steps[0]);
      NoGivingUp(Next(s, steps[0]).value, i, steps[1..]);
    }
  }

  /** Steps of its own to the exit, by way of a failed attempt where one is needed. */
  function ToGiveUp(task: Task, status: Status): nat {
    match task
    case Sleeping(_) => if status.Disconnected? then 1 else 7
    case SetDisconnected(_) => 2
    case LoadStatus(_) => 3
    case SetFailed => 4
    case Closing => 4
    case Serving(_) => 5
    case TryConnect(_) => 5
    case SetConnected => 6
    case SetConnecting => 6
    case Won => 7
    case _ => 0
  }

  lemma GiveUpStep(s: State, i: nat) returns (u: State, step: Step)
    requires Inv(s) && i < |s.tasks| && CanGiveUp(s, i) && !s.tasks[i].Leaving?
    ensures step.TaskStep? && Next(s, step) == Some(u) && Inv(u) && i < |u.tasks| && CanGiveUp(u, i)
    ensures ToGiveUp(u.tasks[i], u.status) < ToGiveUp(s.tasks[i], s.status)
  {
    if s.tasks[i].Sleeping? && s.status.Disconnected? {
      step := TaskStep(i, PollTerminate);
      u := Next(s, step).value;
      InvStep(s, step);
    } else {
      u, step := AnotherRoundStep(s, i);
    }
  }

  lemma AnotherRoundStep(s: State, i: nat) returns (u: State, step: Step)
    requires Inv(s) && i < |s.tasks| && CanGiveUp(s, i) && !s.tasks[i].Leaving?
    requires s.tasks[i].Sleeping? ==> !s.status.Disconnected?
    ensures step.TaskStep? && Next(s, step) == Some(u) && Inv(u) && i < |u.tasks| && CanGiveUp(u, i)
    ensures ToGiveUp(u.tasks[i], u.status) < ToGiveUp(s.tasks[i], s.status)
  {
    var choice := if s.tasks[i].TryConnect? then Fail else if s.tasks[i].Selecting() then Succeed else Go;
    step := TaskStep(i, choice);
    if s.tasks[i].Selecting() {
      OtherBranchTaken(s, i, choice);
    }
    u := Next(s, step).value;
    InvStep(s, step);
    TaskMoves(s, i, choice);
    TokenKept(s, i, choice);
  }

  lemma {:induction false} GivesUp(s: State, i: nat) returns (steps: seq<Step>)
    requires Inv(s) && i < |s.tasks| && CanGiveUp(s, i)
    ensures TaskSteps(steps) && Run(s, steps).Some? && GaveUp(Run(s, steps).value, i)
    decreases ToGiveUp(s.tasks[i], s.status)
  {
    steps := [];
    if !s.tasks[i].Leaving? {
      var u, step := GiveUpStep(s, i);
      var rest := GivesUp(u, i);
      RunOne(s, step, rest);
      steps := [step] + rest;
    }
  }

  /** Without further calls a live loop can leave with the status disconnected exactly if it is just doing
      so, or it may reconnect, a notification is there for it, and no stopped status is about to be
      loaded: the notification can then end a later sleep, after the status has been overwritten. */
  lemma MayGiveUpIff(s: State, i: nat)
    requires Inv(s) && i < |s.tasks| && s.tasks[i].Live()
    ensures MayGiveUp(s, i) <==> CanGiveUp(s, i)
  {
    if CanGiveUp(s, i) {
      var steps := GivesUp(s, i);
    } else {
      forall steps | TaskSteps(steps) && Run(s, steps).Some?
        ensures !GaveUp(Run(s, steps).value, i)
      {
        NoGivingUp(s, i, steps);
      }
    }
  }
}
