/** The connection loop and the calls that steer it, as a system of interleaved atomic steps over the
    shared status, the `running` flag and the `terminate` notification. */
module Connection {

  import opened Types

  datatype Status = Initialized | Pending | Connecting | Connected | Disconnected | Terminated | Shutdown {
    predicate CanConnect() {
      Initialized? || Terminated?
    }

    predicate IsDown() {
      Disconnected? || Terminated? || Shutdown?
    }

    predicate IsStopped() {
      Terminated? || Shutdown?
    }

    predicate IsUp() {
      Connecting? || Connected?
    }
  }

  /** A wait for the notification inside a `select!`: it queues when first polled and found no permit. */
  datatype Wait = Unpolled | Queued | Woken

  /** Where a spawned connection task stands. */
  datatype Task =
    | Spawned                // before the swap of `running`
    | Won                    // the swap found no running task
    | SetConnecting          // top of the loop
    | TryConnect(wait: Wait)
    | SetConnected
    | SetFailed
    | Serving(wait: Wait)    // inside `post_connection`
    | Closing
    | LoadStatus(served: bool)       // `served`: `post_connection` was reached in this round
    | SetDisconnected(served: bool)
    | Sleeping(wait: Wait)
    | SetTerminated(served: bool)    // reconnection is disabled
    | Leaving                // before `running` is cleared
    | Finished
  {
    /** Between winning the swap and clearing `running`. */
    predicate Live() {
      !Spawned? && !Finished?
    }

    /** Attempting to connect, or past an attempt that failed, until the status is set again. */
    predicate Attempting() {
      TryConnect? || SetConnected? || SetFailed? || (Settling() && !served)
    }

    /** Connected, or past a connection that ended, until the status is set again. */
    predicate Connected() {
      Serving? || Closing? || (Settling() && served)
    }

    /** In the loop, with more to do than to leave it. */
    predicate GoesOn() {
      Live() && !Leaving?
    }

    /** After one attempt or connection and before the next. */
    predicate BetweenAttempts() {
      LoadStatus? || SetDisconnected? || Sleeping?
    }

    predicate Settling() {
      LoadStatus? || SetDisconnected? || SetTerminated?
    }

    /** From the attempt to connect to the end of the connection. */
    predicate Engaged() {
      TryConnect? || SetConnected? || SetFailed? || Serving? || Closing?
    }

    /** On the way to setting the status to connecting. */
    predicate Starting() {
      Spawned? || Won? || SetConnecting?
    }

    /** Inside a `select!` with a termination branch. */
    predicate Selecting() {
      TryConnect? || Serving? || Sleeping?
    }

    predicate Waits(w: Wait) {
      Selecting() && wait == w
    }

    function Woke(): Task
      requires Selecting()
    {
      this.(wait := Woken)
    }
  }

  /** Where a call of `connect`, `disconnect` or `shutdown` stands. */
  datatype Call =
    | ConnectLoad | ConnectSetPending | ConnectCheckRunning | ConnectSpawn
    | DisconnectLoad | DisconnectNotify | DisconnectSet
    | ShutdownLoad | ShutdownNotify | ShutdownSet
    | Returned
  {
    predicate Spawning() {
      ConnectCheckRunning? || ConnectSpawn?
    }

    predicate Terminating() {
      DisconnectNotify? || ShutdownNotify?
    }
  }

  datatype State = State(
    status: Status,
    running: bool,
    permit: bool,
    tasks: seq<Task>,
    calls: seq<Call>,
    reconnect: bool,
    notified: nat,       // terminate() calls so far
    waited: nat,         // completed waits so far
    turnedAway: bool)    // somebody found a loop running since the status was last set to pending

  function Init(reconnect: bool): State {
    State(Initialized, false, false, [], [], reconnect, 0, 0, false)
  }

  /** Which `select!` branch a waiting task takes; other steps have no choice. */
  datatype Choice = PollTerminate | Succeed | Fail | Go

  datatype Step =
    | Begin(call: Call)
    | CallStep(k: nat)
    | TaskStep(i: nat, choice: Choice)

  /** Index of the queued waiter, or the number of tasks if none is queued. */
  function QueuedIn(tasks: seq<Task>): (i: nat)
    ensures i <= |tasks|
    ensures i < |tasks| ==> tasks[i].Waits(Queued)
    ensures forall j :: 0 <= j < i ==> !tasks[j].Waits(Queued)
  {
    if tasks == [] || tasks[0].Waits(Queued) then 0 else 1 + QueuedIn(tasks[1..])
  }

  /** `notify_one`: wakes a queued waiter, or else stores the one permit. */
  function Notify(s: State): State {
    var i := QueuedIn(s.tasks);
    if i < |s.tasks| then s.(tasks := s.tasks[i := s.tasks[i].Woke()]) else s.(permit := true)
  }

  /** Leaves a `select!` by another branch: dropping a woken wait passes the notification on. */
  function Drop(s: State, i: nat, to: Task): State
    requires i < |s.tasks|
  {
    var left := s.(tasks := s.tasks[i := to]);
    if s.tasks[i].Waits(Woken) then Notify(left) else left
  }

  /** Polls the wait: a wake-up or the permit completes it, otherwise it queues. */
  function Poll(s: State, i: nat, queued: Task, done: Task): Option<State>
    requires i < |s.tasks|
  {
    if s.tasks[i].Waits(Woken) then Some(s.(tasks := s.tasks[i := done], waited := s.waited + 1))
    else if !s.tasks[i].Waits(Unpolled) then None
    else if s.permit then Some(s.(tasks := s.tasks[i := done], permit := false, waited := s.waited + 1))
    else Some(s.(tasks := s.tasks[i := queued]))
  }

  /** Where a completed wait leads. */
  function OnTerminate(task: Task): Task
    requires task.Selecting()
  {
    match task
    case TryConnect(_) => LoadStatus(false)
    case Serving(_) => Closing
    case Sleeping(_) => Leaving
  }

  /** Where another branch leads: the connection attempt ends, a handler exits, the sleep is over. */
  function OtherBranch(task: Task, choice: Choice): Option<Task>
    requires task.Selecting()
  {
    match (task, choice)
    case (TryConnect(_), Succeed) => Some(SetConnected)
    case (TryConnect(_), Fail) => Some(SetFailed)
    case (Serving(_), Succeed) => Some(Closing)
    case (Serving(_), Fail) => Some(Closing)
    case (Sleeping(_), Succeed) => Some(SetConnecting)
    case _ => None
  }

  /** A step of a task inside one of its three `select!`s. */
  function SelectNext(s: State, i: nat, choice: Choice): Option<State>
    requires i < |s.tasks| && s.tasks[i].Selecting()
  {
    if choice.PollTerminate? then Poll(s, i, s.tasks[i].(wait := Queued), OnTerminate(s.tasks[i]))
    else match OtherBranch(s.tasks[i], choice)
      case Some(to) => Some(Drop(s, i, to))
      case None => None
  }

  /** How the loop goes on with the status it loaded. */
  function AfterLoad(status: Status, reconnect: bool, served: bool): Task {
    if status.IsStopped() then Leaving
    else if !reconnect then SetTerminated(served)
    else if !status.IsDown() then SetDisconnected(served)
    else Sleeping(Unpolled)
  }

  /** Where a step outside the `select!`s leads. */
  function PlainTo(task: Task, status: Status, running: bool, reconnect: bool): Task {
    match task
    case Spawned => if running then Finished else Won
    case Won => SetConnecting
    case SetConnecting => TryConnect(Unpolled)
    case SetConnected => Serving(Unpolled)
    case SetFailed => LoadStatus(false)
    case Closing => LoadStatus(true)
    case LoadStatus(served) => AfterLoad(status, reconnect, served)
    case SetDisconnected(_) => Sleeping(Unpolled)
    case SetTerminated(_) => Leaving
    case _ => Finished
  }

  /** A step of a task outside its `select!`s: where it leads and what it writes. */
  function PlainNext(s: State, i: nat): Option<State>
    requires i < |s.tasks| && !s.tasks[i].Selecting()
  {
    var t := s.(tasks := s.tasks[i := PlainTo(s.tasks[i], s.status, s.running, s.reconnect)]);
    match s.tasks[i]
    case Spawned => Some(if s.running then t.(turnedAway := true) else t.(running := true))
    case SetConnecting => Some(t.(status := Connecting))
    case SetConnected => Some(t.(status := Connected))
    case SetFailed => Some(t.(status := Disconnected))
    case SetDisconnected(_) => Some(t.(status := Disconnected))
    case SetTerminated(_) => Some(t.(status := Terminated))
    case Leaving => Some(t.(running := false))
    case Finished => None
    case _ => Some(t)
  }

  function TaskNext(s: State, i: nat, choice: Choice): Option<State>
    requires i < |s.tasks|
  {
    if s.tasks[i].Selecting() then SelectNext(s, i, choice)
    else PlainNext(s, i)
  }

  /** `terminate()`, then on to setting the status. */
  function Terminate(s: State, k: nat, to: Call): State
    requires k < |s.calls|
  {
    Notify(s).(calls := s.calls[k := to], notified := s.notified + 1)
  }

  /** Where a step of a call other than `terminate()` leads. */
  function QuietTo(call: Call, status: Status, running: bool): Call
    requires !call.Terminating()
  {
    match call
    case ConnectLoad => if status.CanConnect() then ConnectSetPending else Returned
    case ConnectSetPending => ConnectCheckRunning
    case ConnectCheckRunning => if running then Returned else ConnectSpawn
    case DisconnectLoad => if status.IsStopped() then Returned else DisconnectNotify
    case ShutdownLoad => if status.Shutdown? then Returned else ShutdownNotify
    case _ => Returned
  }

  /** A step of a call other than `terminate()`: where it leads and what it writes. */
  function QuietCall(s: State, k: nat): Option<State>
    requires k < |s.calls| && !s.calls[k].Terminating()
  {
    var t := s.(calls := s.calls[k := QuietTo(s.calls[k], s.status, s.running)]);
    match s.calls[k]
    case ConnectSetPending => Some(t.(status := Pending, turnedAway := false))
    case ConnectCheckRunning => Some(t.(turnedAway := s.turnedAway || s.running))
    case ConnectSpawn => Some(t.(tasks := s.tasks + [Spawned]))
    case DisconnectSet => Some(t.(status := Terminated))
    case ShutdownSet => Some(t.(status := Shutdown))
    case Returned => None
    case _ => Some(t)
  }

  function CallNext(s: State, k: nat): Option<State>
    requires k < |s.calls|
  {
    if s.calls[k].Terminating() then
      Some(Terminate(s, k, if s.calls[k].DisconnectNotify? then DisconnectSet else ShutdownSet))
    else QuietCall(s, k)
  }

  predicate IsStart(c: Call) {
    c.ConnectLoad? || c.DisconnectLoad? || c.ShutdownLoad?
  }

  /** One atomic step of one task or call; `None` when it cannot be taken. */
  function Next(s: State, step: Step): Option<State> {
    match step
    case Begin(c) => if IsStart(c) then Some(s.(calls := s.calls + [c])) else None
    case CallStep(k) => if k < |s.calls| then CallNext(s, k) else None
    case TaskStep(i, choice) => if i < |s.tasks| then TaskNext(s, i, choice) else None
  }

  /** A run: any interleaving of steps. */
  function Run(s: State, steps: seq<Step>): Option<State>
    decreases |steps|
  {
    if steps == [] then Some(s)
    else match Next(s, steps[0])
      case None => None
      case Some(t) => Run(t, steps[1..])
  }

  // ----- What every run keeps -----

  function WokenCount(tasks: seq<Task>): nat {
    if tasks == [] then 0 else (if tasks[0].Waits(Woken) then 1 else 0) + WokenCount(tasks[1..])
  }

  predicate AtMostOneLive(tasks: seq<Task>) {
    forall i, j :: 0 <= i < |tasks| && 0 <= j < |tasks| && tasks[i].Live() && tasks[j].Live() ==> i == j
  }

  predicate AnyLive(tasks: seq<Task>) {
    exists i :: 0 <= i < |tasks| && tasks[i].Live()
  }

  predicate AnyAttempting(tasks: seq<Task>) {
    exists i :: 0 <= i < |tasks| && tasks[i].Attempting()
  }

  predicate AnyConnected(tasks: seq<Task>) {
    exists i :: 0 <= i < |tasks| && tasks[i].Connected()
  }

  predicate AnyGoingOn(tasks: seq<Task>) {
    exists i :: 0 <= i < |tasks| && tasks[i].GoesOn()
  }

  predicate NoneEngaged(tasks: seq<Task>) {
    forall i :: 0 <= i < |tasks| ==> !tasks[i].Engaged()
  }

  predicate AnyStarting(tasks: seq<Task>) {
    exists i :: 0 <= i < |tasks| && tasks[i].Starting()
  }

  predicate AnySpawning(calls: seq<Call>) {
    exists k :: 0 <= k < |calls| && calls[k].Spawning()
  }

  /** At most one task is live, and `running` says whether there is one. */
  predicate OneLive(s: State) {
    AtMostOneLive(s.tasks) && (s.running <==> AnyLive(s.tasks))
  }

  /** The status says connecting, connected or disconnected only while the stage of the loop bears it
      out. */
  predicate StatusBacked(s: State) {
    && (s.status.Connecting? ==> AnyAttempting(s.tasks))
    && (s.status.Connected? ==> AnyConnected(s.tasks))
    && (s.status.Disconnected? ==> NoneEngaged(s.tasks))
  }

  /** Notifications are never invented: waits that completed or may complete were notified. */
  predicate Accounted(s: State) {
    s.waited + (if s.permit then 1 else 0) + WokenCount(s.tasks) <= s.notified
  }

  /** A stored permit and a queued wait exclude each other. */
  predicate NoLostPermit(s: State) {
    s.permit ==> forall i :: 0 <= i < |s.tasks| ==> !s.tasks[i].Waits(Queued)
  }

  /** A pending status has someone to take it up, unless somebody was turned away. */
  predicate PendingServed(s: State) {
    s.status.Pending? && !s.turnedAway ==> AnySpawning(s.calls) || AnyStarting(s.tasks)
  }

  /** Until a notification has been used up, a disconnected status has a loop that has yet to leave. Whether
      that loop makes another attempt is a different question: see `Committed`. */
  predicate RetryPending(s: State) {
    s.status.Disconnected? && s.waited == 0 ==> AnyGoingOn(s.tasks)
  }

  /** A notification is there for task `i`. */
  predicate Token(s: State, i: nat)
    requires i < |s.tasks|
  {
    s.permit || s.tasks[i].Waits(Woken)
  }

  /** A task that is bound to attempt a connection: it is at the top of its loop, or it is between attempts,
      may reconnect, and no notification is there for it. */
  predicate Committing(s: State, i: nat)
    requires i < |s.tasks|
  {
    || s.tasks[i].Won? || s.tasks[i].SetConnecting?
    || (s.reconnect && s.tasks[i].BetweenAttempts() && !Token(s, i))
  }

  /** Another attempt is bound to follow: by a live task, or by one that is about to start unhindered. */
  predicate Committed(s: State) {
    || (exists i :: 0 <= i < |s.tasks| && Committing(s, i))
    || (!s.running && exists i :: 0 <= i < |s.tasks| && s.tasks[i].Spawned?)
  }

  /** Only a loop that may reconnect gets to sleep, and only one that may not sets the status itself. */
  predicate StagesFit(s: State) {
    forall i :: 0 <= i < |s.tasks| ==>
      && (s.tasks[i].Sleeping? || s.tasks[i].SetDisconnected? ==> s.reconnect)
      && (s.tasks[i].SetTerminated? ==> !s.reconnect)
  }

  predicate Inv(s: State) {
    && OneLive(s) && StatusBacked(s) && Accounted(s) && NoLostPermit(s)
    && PendingServed(s) && RetryPending(s) && StagesFit(s)
  }

  // ----- Counting woken waits -----

  lemma {:induction false} WokenUpdate(tasks: seq<Task>, i: nat, to: Task)
    requires i < |tasks|
    ensures WokenCount(tasks[i := to]) + (if tasks[i].Waits(Woken) then 1 else 0)
              == WokenCount(tasks) + (if to.Waits(Woken) then 1 else 0)
    decreases |tasks|
  {
    if i == 0 {
      assert tasks[0 := to][1..] == tasks[1..];
    } else {
      assert tasks[i := to][1..] == tasks[1..][i - 1 := to];
      WokenUpdate(tasks[1..], i - 1, to);
    }
  }

  lemma {:induction false} WokenAppend(tasks: seq<Task>, t: Task)
    requires !t.Waits(Woken)
    ensures WokenCount(tasks + [t]) == WokenCount(tasks)
    decreases |tasks|
  {
    if tasks == [] {
    } else {
      assert (tasks + [t])[1..] == tasks[1..] + [t];
      WokenAppend(tasks[1..], t);
    }
  }

  // ----- The notification -----

  /** Waking changes nobody's stage. */
  predicate SameStage(a: Task, b: Task) {
    a == b || (a.Waits(Queued) && b == a.Woke())
  }

  predicate SameStages(s: seq<Task>, t: seq<Task>) {
    |s| == |t| && forall j :: 0 <= j < |s| ==> SameStage(s[j], t[j])
  }

  lemma SameStagesMeans(a: seq<Task>, b: seq<Task>)
    requires SameStages(a, b)
    ensures AtMostOneLive(a) <==> AtMostOneLive(b)
    ensures AnyLive(a) <==> AnyLive(b)
    ensures AnyAttempting(a) <==> AnyAttempting(b)
    ensures AnyConnected(a) <==> AnyConnected(b)
    ensures NoneEngaged(a) <==> NoneEngaged(b)
    ensures AnyStarting(a) <==> AnyStarting(b)
    ensures AnyGoingOn(a) <==> AnyGoingOn(b)
  {
    assert forall i :: 0 <= i < |a| ==> (a[i].Live() <==> b[i].Live());
    assert forall i :: 0 <= i < |a| ==> (a[i].Attempting() <==> b[i].Attempting());
    assert forall i :: 0 <= i < |a| ==> (a[i].Connected() <==> b[i].Connected());
    assert forall i :: 0 <= i < |a| ==> (a[i].Engaged() <==> b[i].Engaged());
    assert forall i :: 0 <= i < |a| ==> (a[i].Starting() <==> b[i].Starting());
    assert forall i :: 0 <= i < |a| ==> (a[i].GoesOn() <==> b[i].GoesOn());
  }

  /** `notify_one` adds at most one wake-up or permit and moves nobody. */
  lemma NotifyKeeps(s: State)
    requires NoLostPermit(s)
    ensures SameStages(s.tasks, Notify(s).tasks) && NoLostPermit(Notify(s))
    ensures Notify(s) == s.(tasks := Notify(s).tasks, permit := Notify(s).permit)
    ensures WokenCount(Notify(s).tasks) + (if Notify(s).permit then 1 else 0)
              <= WokenCount(s.tasks) + (if s.permit then 1 else 0) + 1
  {
    var i := QueuedIn(s.tasks);
    if i < |s.tasks| {
      WokenUpdate(s.tasks, i, s.tasks[i].Woke());
    }
  }

  lemma DropKeeps(s: State, i: nat, to: Task)
    requires i < |s.tasks| && NoLostPermit(s) && !to.Waits(Queued) && !to.Waits(Woken)
    ensures SameStages(s.tasks[i := to], Drop(s, i, to).tasks) && NoLostPermit(Drop(s, i, to))
    ensures Drop(s, i, to) == s.(tasks := Drop(s, i, to).tasks, permit := Drop(s, i, to).permit)
    ensures Accounted(s) ==> Accounted(Drop(s, i, to))
  {
    WokenUpdate(s.tasks, i, to);
    var left := s.(tasks := s.tasks[i := to]);
    assert NoLostPermit(left);
    if s.tasks[i].Waits(Woken) {
      NotifyKeeps(left);
    }
  }

  // ----- Each step keeps each part of the invariant -----

  lemma PollKeeps(s: State, i: nat, queued: Task, done: Task)
    requires i < |s.tasks| && NoLostPermit(s) && Accounted(s)
    requires queued.Waits(Queued) && !done.Waits(Queued) && !done.Waits(Woken)
    ensures Poll(s, i, queued, done).Some? ==>
              NoLostPermit(Poll(s, i, queued, done).value) && Accounted(Poll(s, i, queued, done).value)
  {
    WokenUpdate(s.tasks, i, queued);
    WokenUpdate(s.tasks, i, done);
  }

  /** Where a step leads the one that makes it, and what it writes. */
  predicate Moves(s: State, i: nat, t: State)
    requires i < |s.tasks| && i < |t.tasks|
  {
    match s.tasks[i]
    case Spawned => if s.running then t.tasks[i].Finished? && t.status == s.status && t.running && t.turnedAway
                    else t.tasks[i].Won? && t.status == s.status && t.running && t.turnedAway == s.turnedAway
    case Won => t.tasks[i].SetConnecting? && Writes(s, t, s.status)
    case SetConnecting => t.tasks[i].TryConnect? && Writes(s, t, Connecting)
    case TryConnect(_) =>
      && (t.tasks[i].TryConnect? || t.tasks[i].SetConnected? || t.tasks[i].SetFailed?
          || t.tasks[i] == LoadStatus(false))
      && Writes(s, t, s.status)
    case SetConnected => t.tasks[i].Serving? && Writes(s, t, Connected)
    case SetFailed => t.tasks[i] == LoadStatus(false) && Writes(s, t, Disconnected)
    case Serving(_) => (t.tasks[i].Serving? || t.tasks[i].Closing?) && Writes(s, t, s.status)
    case Closing => t.tasks[i] == LoadStatus(true) && Writes(s, t, s.status)
    case LoadStatus(served) =>
      && (s.status.IsStopped() <==> t.tasks[i].Leaving?)
      && (t.tasks[i].Leaving?
          || (t.tasks[i] == SetTerminated(served) && !s.reconnect)
          || (t.tasks[i] == SetDisconnected(served) && s.reconnect)
          || (t.tasks[i].Sleeping? && s.status.IsDown() && s.reconnect))
      && Writes(s, t, s.status)
    case SetDisconnected(_) => t.tasks[i].Sleeping? && Writes(s, t, Disconnected)
    case Sleeping(_) =>
      && (t.tasks[i].Sleeping? || t.tasks[i].SetConnecting? || (t.tasks[i].Leaving? && t.waited > s.waited))
      && Writes(s, t, s.status)
    case SetTerminated(_) => t.tasks[i].Leaving? && Writes(s, t, Terminated)
    case Leaving => t.tasks[i].Finished? && t.status == s.status && !t.running && t.turnedAway == s.turnedAway
    case Finished => false
  }

  predicate Writes(s: State, t: State, status: Status) {
    t.status == status && t.running == s.running && t.turnedAway == s.turnedAway
  }

  /** Only the stepping task changes its stage. */
  predicate OthersStay(s: State, i: nat, t: State) {
    && |t.tasks| == |s.tasks|
    && (forall j :: 0 <= j < |s.tasks| && j != i ==> SameStage(s.tasks[j], t.tasks[j]))
    && t.calls == s.calls && t.reconnect == s.reconnect && t.notified == s.notified && t.waited >= s.waited
  }

  predicate Moved(s: State, i: nat, t: State)
    requires i < |s.tasks|
  {
    OthersStay(s, i, t) && Moves(s, i, t) && NoLostPermit(t) && Accounted(t)
  }

  lemma DropMoves(s: State, i: nat, to: Task)
    requires i < |s.tasks| && NoLostPermit(s) && Accounted(s) && !to.Waits(Queued) && !to.Waits(Woken)
    ensures OthersStay(s, i, Drop(s, i, to)) && Drop(s, i, to).tasks[i] == to && Writes(s, Drop(s, i, to), s.status)
    ensures NoLostPermit(Drop(s, i, to)) && Accounted(Drop(s, i, to))
  {
    DropKeeps(s, i, to);
    assert SameStage(s.tasks[i := to][i], Drop(s, i, to).tasks[i]);
  }

  /** A step inside a `select!` moves one task, where its branch takes it, and keeps the accounts of the
      notification. */
  lemma SelectMoves(s: State, i: nat, choice: Choice)
    requires NoLostPermit(s) && Accounted(s) && i < |s.tasks|
    requires s.tasks[i].Selecting() && SelectNext(s, i, choice).Some?
    ensures Moved(s, i, SelectNext(s, i, choice).value)
  {
    if choice.PollTerminate? {
      PollKeeps(s, i, s.tasks[i].(wait := Queued), OnTerminate(s.tasks[i]));
    } else {
      DropMoves(s, i, OtherBranch(s.tasks[i], choice).value);
    }
  }

  lemma PlainEffect(s: State, i: nat)
    requires i < |s.tasks|
    requires !s.tasks[i].Selecting()
    requires PlainNext(s, i).Some?
    ensures var t := PlainNext(s, i).value;
      && |t.tasks| == |s.tasks|
      && !t.tasks[i].Waits(Queued) && !t.tasks[i].Waits(Woken) && !s.tasks[i].Waits(Woken)
      && t.tasks == s.tasks[i := PlainTo(s.tasks[i], s.status, s.running, s.reconnect)]
      && t.calls == s.calls && t.reconnect == s.reconnect
      && t.permit == s.permit && t.waited == s.waited && t.notified == s.notified
  {
  }

  lemma PlainWay(s: State, i: nat)
    requires i < |s.tasks|
    requires !s.tasks[i].Selecting()
    requires PlainNext(s, i).Some?
    ensures i < |PlainNext(s, i).value.tasks| && Moves(s, i, PlainNext(s, i).value)
  {
  }

  lemma PlainMoves(s: State, i: nat)
    requires NoLostPermit(s) && Accounted(s) && i < |s.tasks|
    requires !s.tasks[i].Selecting()
    requires PlainNext(s, i).Some?
    ensures Moved(s, i, PlainNext(s, i).value)
  {
    PlainEffect(s, i);
    PlainWay(s, i);
    WokenUpdate(s.tasks, i, PlainNext(s, i).value.tasks[i]);
  }

  lemma TaskMoves(s: State, i: nat, choice: Choice)
    requires NoLostPermit(s) && Accounted(s) && i < |s.tasks| && TaskNext(s, i, choice).Some?
    ensures Moved(s, i, TaskNext(s, i, choice).value)
  {
    if s.tasks[i].Selecting() {
      SelectMoves(s, i, choice);
    } else {
      PlainMoves(s, i);
    }
  }

  lemma TaskKeepsOneLive(s: State, i: nat, t: State)
    requires Inv(s) && i < |s.tasks| && OthersStay(s, i, t) && Moves(s, i, t)
    ensures OneLive(t)
  {
    if t.running && !t.tasks[i].Live() {
      var j :| 0 <= j < |s.tasks| && s.tasks[j].Live();
      assert t.tasks[j].Live();
    }
  }

  lemma TaskKeepsBacking(s: State, i: nat, t: State)
    requires Inv(s) && i < |s.tasks| && OthersStay(s, i, t) && Moves(s, i, t)
    ensures StatusBacked(t)
  {
    if t.status.Connecting? && !t.tasks[i].Attempting() {
      var j :| 0 <= j < |s.tasks| && s.tasks[j].Attempting();
      assert t.tasks[j].Attempting();
    }
    if t.status.Connected? && !t.tasks[i].Connected() {
      var j :| 0 <= j < |s.tasks| && s.tasks[j].Connected();
      assert t.tasks[j].Connected();
    }
    if t.status.Disconnected? {
      forall j | 0 <= j < |t.tasks| ensures !t.tasks[j].Engaged() {
        assert s.tasks[i].Live() && s.tasks[j].Live() ==> j == i;
      }
    }
  }

  lemma TaskKeepsPending(s: State, i: nat, t: State)
    requires Inv(s) && i < |s.tasks| && OthersStay(s, i, t) && Moves(s, i, t)
    ensures PendingServed(t)
  {
    if t.status.Pending? && !t.turnedAway && AnyStarting(s.tasks) {
      var j :| 0 <= j < |s.tasks| && s.tasks[j].Starting();
      assert t.tasks[j].Starting();
    }
  }

  lemma TaskKeepsRetry(s: State, i: nat, t: State)
    requires Inv(s) && i < |s.tasks| && OthersStay(s, i, t) && Moves(s, i, t)
    ensures RetryPending(t) && StagesFit(t)
  {
    if t.status.Disconnected? && t.waited == 0 && !t.tasks[i].GoesOn() {
      var j :| 0 <= j < |s.tasks| && s.tasks[j].GoesOn();
      assert t.tasks[j].GoesOn();
    }
  }

  /** What a step of call `k` does. */
  predicate Steers(s: State, k: nat, t: State)
    requires k < |s.calls|
  {
    && |t.calls| == |s.calls|
    && (forall m :: 0 <= m < |s.calls| && m != k ==> t.calls[m] == s.calls[m])
    && t.running == s.running
    && (s.calls[k].Spawning() && !t.calls[k].Spawning() ==> t.turnedAway || t.tasks == s.tasks + [Spawned])
    && (t.tasks == s.tasks + [Spawned] || SameStages(s.tasks, t.tasks))
    && t.reconnect == s.reconnect && t.waited == s.waited
    && (s.turnedAway ==> t.turnedAway || t.calls[k].Spawning())
    && (t.status == s.status || t.status.IsStopped() || (t.status.Pending? && t.calls[k].Spawning()))
  }

  lemma QuietSteers(s: State, k: nat)
    requires k < |s.calls| && !s.calls[k].Terminating() && QuietCall(s, k).Some?
    ensures Steers(s, k, QuietCall(s, k).value)
  {
  }

  lemma TerminateSteers(s: State, k: nat, to: Call)
    requires NoLostPermit(s) && k < |s.calls| && s.calls[k].Terminating()
    ensures Steers(s, k, Terminate(s, k, to))
  {
    NotifyKeeps(s);
  }

  lemma CallSteers(s: State, k: nat)
    requires NoLostPermit(s) && k < |s.calls| && CallNext(s, k).Some?
    ensures Steers(s, k, CallNext(s, k).value)
  {
    if s.calls[k].Terminating() {
      TerminateSteers(s, k, if s.calls[k].DisconnectNotify? then DisconnectSet else ShutdownSet);
    } else {
      QuietSteers(s, k);
    }
  }

  lemma SpawnMeans(tasks: seq<Task>)
    ensures AtMostOneLive(tasks) <==> AtMostOneLive(tasks + [Spawned])
    ensures AnyLive(tasks) <==> AnyLive(tasks + [Spawned])
    ensures AnyAttempting(tasks) <==> AnyAttempting(tasks + [Spawned])
    ensures AnyConnected(tasks) <==> AnyConnected(tasks + [Spawned])
    ensures NoneEngaged(tasks) <==> NoneEngaged(tasks + [Spawned])
    ensures AnyGoingOn(tasks) <==> AnyGoingOn(tasks + [Spawned])
    ensures AnyStarting(tasks + [Spawned])
  {
    var more := tasks + [Spawned];
    assert more[|tasks|].Starting();
    assert forall i :: 0 <= i < |tasks| ==> more[i] == tasks[i];
  }

  lemma CallKeepsStages(s: State, k: nat, t: State)
    requires Inv(s) && k < |s.calls| && Steers(s, k, t)
    ensures OneLive(t) && StatusBacked(t) && PendingServed(t)
  {
    SpawnMeans(s.tasks);
    if t.tasks != s.tasks + [Spawned] {
      SameStagesMeans(s.tasks, t.tasks);
    }
    if t.status.Pending? && !t.turnedAway && AnySpawning(s.calls) {
      var m :| 0 <= m < |s.calls| && s.calls[m].Spawning();
      assert m != k ==> t.calls[m].Spawning();
    }
  }

  lemma CallKeepsRetry(s: State, k: nat, t: State)
    requires RetryPending(s) && k < |s.calls| && Steers(s, k, t)
    ensures RetryPending(t)
  {
    SpawnMeans(s.tasks);
    if t.tasks != s.tasks + [Spawned] {
      SameStagesMeans(s.tasks, t.tasks);
    }
  }

  lemma CallKeepsFit(s: State, k: nat, t: State)
    requires StagesFit(s) && k < |s.calls| && Steers(s, k, t)
    ensures StagesFit(t)
  {
    assert t.tasks == s.tasks + [Spawned] || SameStages(s.tasks, t.tasks);
  }

  lemma QuietEffect(s: State, k: nat)
    requires k < |s.calls| && !s.calls[k].Terminating() && QuietCall(s, k).Some?
    ensures var t := QuietCall(s, k).value;
      && (t.tasks == s.tasks || t.tasks == s.tasks + [Spawned])
      && t.permit == s.permit && t.waited == s.waited && t.notified == s.notified
  {
  }

  lemma QuietKeepsNotifications(s: State, t: State)
    requires NoLostPermit(s) && Accounted(s)
    requires t.tasks == s.tasks || t.tasks == s.tasks + [Spawned]
    requires t.permit == s.permit && t.waited == s.waited && t.notified == s.notified
    ensures NoLostPermit(t) && Accounted(t)
  {
    WokenAppend(s.tasks, Spawned);
  }

  lemma TerminateKeepsNotifications(s: State, k: nat, to: Call)
    requires NoLostPermit(s) && Accounted(s) && k < |s.calls|
    ensures NoLostPermit(Terminate(s, k, to)) && Accounted(Terminate(s, k, to))
  {
    NotifyKeeps(s);
  }

  lemma CallKeepsNotifications(s: State, k: nat)
    requires NoLostPermit(s) && Accounted(s) && k < |s.calls| && CallNext(s, k).Some?
    ensures NoLostPermit(CallNext(s, k).value) && Accounted(CallNext(s, k).value)
  {
    if s.calls[k].Terminating() {
      TerminateKeepsNotifications(s, k, if s.calls[k].DisconnectNotify? then DisconnectSet else ShutdownSet);
    } else {
      QuietEffect(s, k);
      QuietKeepsNotifications(s, QuietCall(s, k).value);
    }
  }

  lemma BeginKeeps(s: State, c: Call)
    requires Inv(s)
    ensures Inv(s.(calls := s.calls + [c]))
  {
    if AnySpawning(s.calls) {
      var m :| 0 <= m < |s.calls| && s.calls[m].Spawning();
      assert (s.calls + [c])[m].Spawning();
    }
  }

  /** Every step of every task and every call keeps the invariant. */
  lemma InvStep(s: State, step: Step)
    requires Inv(s) && Next(s, step).Some?
    ensures Inv(Next(s, step).value)
  {
    var t := Next(s, step).value;
    match step
    case Begin(c) =>
      BeginKeeps(s, c);
    case CallStep(k) =>
      CallSteers(s, k);
      CallKeepsStages(s, k, t);
      CallKeepsRetry(s, k, t);
      CallKeepsFit(s, k, t);
      CallKeepsNotifications(s, k);
    case TaskStep(i, choice) =>
      TaskMoves(s, i, choice);
      TaskKeepsOneLive(s, i, t);
      TaskKeepsBacking(s, i, t);
      TaskKeepsPending(s, i, t);
      TaskKeepsRetry(s, i, t);
  }

  lemma {:induction false} InvRuns(s: State, steps: seq<Step>, t: State)
    requires Inv(s) && Run(s, steps) == Some(t)
    ensures Inv(t)
    decreases |steps|
  {
    if steps != [] {
      InvStep(s, steps[0]);
      InvRuns(Next(s, steps[0]).value, steps[1..], t);
    }
  }

  // ----- What follows for every run of a new client -----

  lemma {:induction false} NoneWoken(tasks: seq<Task>, i: nat)
    requires WokenCount(tasks) == 0 && i < |tasks|
    ensures !tasks[i].Waits(Woken)
    decreases |tasks|
  {
    if i > 0 {
      NoneWoken(tasks[1..], i - 1);
    }
  }

  /** With reconnection on and no `terminate()` ever called, a disconnected status means what it says. */
  lemma UnnotifiedRetries(s: State)
    requires Inv(s) && s.status.Disconnected? && s.reconnect && s.notified == 0
    ensures Committed(s)
  {
    var i :| 0 <= i < |s.tasks| && s.tasks[i].GoesOn();
    NoneWoken(s.tasks, i);
    assert Committing(s, i);
  }

  /** At most one connection task is live; without one the status is neither connecting nor connected;
      and completed waits never outnumber the notifications. */
  lemma EveryRun(reconnect: bool, steps: seq<Step>, s: State)
    requires Run(Init(reconnect), steps) == Some(s)
    ensures forall i, j :: 0 <= i < |s.tasks| && 0 <= j < |s.tasks| && s.tasks[i].Live() && s.tasks[j].Live() ==> i == j
    ensures (forall i :: 0 <= i < |s.tasks| ==> !s.tasks[i].Live()) ==> !s.status.IsUp() && !s.running
    ensures s.status.Connected? ==> AnyConnected(s.tasks)
    ensures s.status.Connecting? ==> AnyAttempting(s.tasks)
    ensures s.status.Disconnected? ==> NoneEngaged(s.tasks)
    ensures s.status.Pending? && !s.turnedAway ==> AnySpawning(s.calls) || AnyStarting(s.tasks)
    ensures s.status.Disconnected? && s.waited == 0 ==> AnyGoingOn(s.tasks)
    ensures s.status.Disconnected? && s.reconnect && s.notified == 0 ==> Committed(s)
    ensures s.waited <= s.notified
    ensures Inv(s)
  {
    InvRuns(Init(reconnect), steps, s);
    if s.status.Disconnected? && s.reconnect && s.notified == 0 {
      UnnotifiedRetries(s);
    }
  }
}
