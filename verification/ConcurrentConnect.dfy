/** Any number of concurrent `connect` and `disconnect` calls on one connector,
    as a state machine whose steps run from one await to the next.

    Each call is its own task. A step resumes one task, which then runs without
    interruption up to its next await: the dial, the subscription send, the
    close of a socket, the lock, or the task that is currently connecting. The
    scheduler is arbitrary, so a schedule is any sequence of labels. */
module ConcurrentConnect {
  import opened Wrappers
  import opened ConnectionStates

  datatype Call = Connect | Disconnect

  datatype Outcome = Returned | RaisedConnectionFailed | RaisedInvalidTransition

  /** Where a task is suspended. */
  datatype Point =
    | Fresh                            // not yet started
    | AwaitingTask(target: nat)        // waits for the connecting task, without the lock
    | AwaitingLock
    | AwaitingTaskLocked(target: nat)  // waits for the connecting task while holding the lock
    | Dialing
    | Subscribing
    | ClosingAfterFailure
    | ClosingForDisconnect
    | Done(outcome: Outcome)

  datatype Task = Task(call: Call, point: Point)

  /** The fields of the connector that tasks share, the tasks, and a ledger:
      `dials` counts calls of the dialer, sockets are numbered in the order in
      which they were opened, and `closed` holds those that were closed. */
  datatype System = System(
    state: ConnectionState,
    websocket: Option<nat>,
    connecting: Option<nat>,
    lock: Option<nat>,
    tasks: seq<Task>,
    dials: nat,
    openCount: nat,
    closed: set<nat>,
    history: seq<Transition>)

  const INITIAL := System(Disconnected, None, None, None, [], 0, 0, {}, [])

  datatype Label = Spawn(call: Call) | Resume(task: nat, ok: bool)

  // ---------- Steps ----------

  function Park(s: System, i: nat, point: Point): System
    requires i < |s.tasks|
  {
    s.(tasks := s.tasks[i := s.tasks[i].(point := point)])
  }

  function Shift(s: System, target: ConnectionState): System
    requires IsValidTransition(s.state, target)
  {
    s.(state := target, history := s.history + [(s.state, target)])
  }

  /** Leaves the locked block; `connecting` is cleared only by the task recorded in it. */
  function Finish(s: System, i: nat, outcome: Outcome): System
    requires i < |s.tasks|
  {
    Park(s, i, Done(outcome))
      .(lock := None, connecting := if s.connecting == Some(i) then None else s.connecting)
  }

  /** Closing counts whether or not the close itself raises. */
  function DropSocket(s: System): System
    requires s.websocket.Some?
  {
    s.(websocket := None, closed := s.closed + {s.websocket.value})
  }

  function IsDone(s: System, i: nat): bool {
    i < |s.tasks| && s.tasks[i].point.Done?
  }

  function StartConnect(s: System, i: nat): System
    requires i < |s.tasks|
  {
    if s.state == Connected then Park(s, i, Done(Returned))
    else if s.connecting.Some? && !IsDone(s, s.connecting.value) then
      Park(s, i, AwaitingTask(s.connecting.value))
    else Park(s, i, AwaitingLock)
  }

  function FailAttempt(s: System, i: nat): System
    requires i < |s.tasks|
  {
    if !IsValidTransition(s.state, Failed) then Finish(s, i, RaisedInvalidTransition)
    else if s.websocket.Some? then Park(Shift(s, Failed), i, ClosingAfterFailure)
    else Finish(Shift(s, Failed), i, RaisedConnectionFailed)
  }

  function Attempt(s: System, i: nat): System
    requires i < |s.tasks|
  {
    var claimed := s.(connecting := Some(i));
    if IsValidTransition(s.state, Connecting) then
      Park(Shift(claimed, Connecting), i, Dialing).(dials := s.dials + 1)
    else FailAttempt(claimed, i)
  }

  function ConnectWithLock(s: System, i: nat): System
    requires i < |s.tasks|
  {
    var locked := s.(lock := Some(i));
    if s.state == Connected then Finish(locked, i, Returned)
    else if s.connecting.Some? && !IsDone(s, s.connecting.value) then
      Park(locked, i, AwaitingTaskLocked(s.connecting.value))
    else Attempt(locked, i)
  }

  function Establish(s: System, i: nat): System
    requires i < |s.tasks|
  {
    if IsValidTransition(s.state, Connected) then Finish(Shift(s, Connected), i, Returned)
    else FailAttempt(s, i)
  }

  function StartDisconnect(s: System, i: nat): System
    requires i < |s.tasks|
  {
    if s.state == Disconnected then Park(s, i, Done(Returned)) else Park(s, i, AwaitingLock)
  }

  function Release(s: System, i: nat): System
    requires i < |s.tasks|
  {
    if IsValidTransition(s.state, Disconnected) then Finish(Shift(s, Disconnected), i, Returned)
    else Finish(s, i, RaisedInvalidTransition)
  }

  function DisconnectWithLock(s: System, i: nat): System
    requires i < |s.tasks|
  {
    var locked := s.(lock := Some(i));
    if s.state == Disconnected then Finish(locked, i, Returned)
    else if s.websocket.Some? then Park(locked, i, ClosingForDisconnect)
    else Release(locked, i)
  }

  /** Can task `i` run on now? */
  predicate Runnable(s: System, i: nat) {
    i < |s.tasks| &&
    match s.tasks[i].point
    case AwaitingTask(target) => IsDone(s, target)
    case AwaitingTaskLocked(target) => IsDone(s, target)
    case AwaitingLock => s.lock == None
    case Done(_) => false
    case _ => true
  }

  /** Resumes task `i`; `ok` says how the awaited dial or send ended. */
  function RunTask(s: System, i: nat, ok: bool): System
    requires Runnable(s, i)
  {
    match s.tasks[i].point
    case Fresh => if s.tasks[i].call.Connect? then StartConnect(s, i) else StartDisconnect(s, i)
    case AwaitingTask(target) =>
      if s.tasks[target].point.outcome == Returned then Park(s, i, Done(Returned))
      else Park(s, i, AwaitingLock)
    case AwaitingLock =>
      if s.tasks[i].call.Connect? then ConnectWithLock(s, i) else DisconnectWithLock(s, i)
    case AwaitingTaskLocked(target) =>
      if s.tasks[target].point.outcome == Returned then Park(s, i, Done(Returned)).(lock := None)
      else Attempt(s, i)
    case Dialing =>
      if ok then Park(s.(websocket := Some(s.openCount), openCount := s.openCount + 1), i, Subscribing)
      else FailAttempt(s, i)
    case Subscribing => if ok then Establish(s, i) else FailAttempt(s, i)
    case ClosingAfterFailure =>
      Finish(if s.websocket.Some? then DropSocket(s) else s, i, RaisedConnectionFailed)
    case ClosingForDisconnect =>
      Release(if s.websocket.Some? then DropSocket(s) else s, i)
  }

  /** A label that names a task which cannot run is a stutter. */
  function Apply(s: System, step: Label): System {
    match step
    case Spawn(call) => s.(tasks := s.tasks + [Task(call, Fresh)])
    case Resume(i, ok) => if Runnable(s, i) then RunTask(s, i, ok) else s
  }

  function Execute(s: System, schedule: seq<Label>): System {
    if schedule == [] then s
    else Apply(Execute(s, schedule[..|schedule| - 1]), schedule[|schedule| - 1])
  }

  // ---------- Safety ----------

  predicate HoldsLock(point: Point) {
    point.AwaitingTaskLocked? || point.Dialing? || point.Subscribing?
    || point.ClosingAfterFailure? || point.ClosingForDisconnect?
  }

  /** What a reader may rely on in every reachable state. */
  ghost predicate Safe(s: System) {
    && LegalHistory(s.history, s.state)
    && s.dials == Entries(s.history, Connecting)
    && (s.lock == None ==>
          && s.state in {Disconnected, Connected, Failed}
          && s.connecting == None
          && (s.websocket.Some? <==> s.state == Connected))
    && (forall w :: w in s.closed <==> 0 <= w < s.openCount && s.websocket != Some(w))
    && (forall i :: 0 <= i < |s.tasks| ==> s.tasks[i].point != Done(RaisedInvalidTransition))
    && (forall i :: 0 <= i < |s.tasks| ==> !s.tasks[i].point.AwaitingTaskLocked?)
  }

  /** The shared fields, as the holder of the lock left them at its await. */
  predicate HolderFits(s: System, i: nat)
    requires i < |s.tasks|
  {
    var Task(call, point) := s.tasks[i];
    match point
    case Dialing =>
      call.Connect? && s.state == Connecting && s.connecting == Some(i) && s.websocket == None
    case Subscribing =>
      call.Connect? && s.state == Connecting && s.connecting == Some(i) && s.websocket.Some?
    case ClosingAfterFailure =>
      call.Connect? && s.state == Failed && s.connecting == Some(i) && s.websocket.Some?
    case ClosingForDisconnect =>
      call.Disconnect? && s.state == Connected && s.connecting == None && s.websocket.Some?
    case _ => false
  }

  ghost predicate Inv(s: System) {
    && Safe(s)
    && (s.lock.Some? ==> s.lock.value < |s.tasks| && HolderFits(s, s.lock.value))
    && (forall i :: 0 <= i < |s.tasks| && HoldsLock(s.tasks[i].point) ==> s.lock == Some(i))
    && (forall i :: 0 <= i < |s.tasks| && s.tasks[i].point.AwaitingTask? ==>
          var target := s.tasks[i].point.target;
          && s.tasks[i].call.Connect? && target < |s.tasks| && target != i && s.tasks[target].call.Connect?
          && (s.tasks[target].point.Done? || s.lock == Some(target)))
    && (s.websocket.Some? ==> s.websocket.value < s.openCount)
  }

  /** One lawful transition keeps the history legal and the dial count exact. */
  lemma {:induction false} ShiftKeepsHistory(s: System, target: ConnectionState)
    requires LegalHistory(s.history, s.state) && IsValidTransition(s.state, target)
    ensures LegalHistory(Shift(s, target).history, target)
    ensures forall e :: Entries(Shift(s, target).history, e)
                        == Entries(s.history, e) + if s.state != e && target == e then 1 else 0
  {
    Extend(s.history, s.state, target);
  }

  /** A task that neither holds the lock nor takes it leaves all shared fields alone. */
  lemma {:induction false} ParkKeepsInv(s: System, i: nat, point: Point)
    requires Inv(s) && i < |s.tasks|
    requires !HoldsLock(s.tasks[i].point) && !s.tasks[i].point.Done?
    requires !HoldsLock(point) && point != Done(RaisedInvalidTransition)
    requires point.AwaitingTask? ==>
               s.tasks[i].call.Connect? && s.lock == Some(point.target) && s.tasks[point.target].call.Connect?
    ensures Inv(Park(s, i, point))
  {
    var p := Park(s, i, point);
    forall k | 0 <= k < |p.tasks| && p.tasks[k].point.AwaitingTask?
      ensures var target := p.tasks[k].point.target;
              && p.tasks[k].call.Connect? && target < |p.tasks| && target != k && p.tasks[target].call.Connect?
              && (p.tasks[target].point.Done? || p.lock == Some(target))
    {
      assert k != i ==> s.tasks[k].point.AwaitingTask?;
    }
  }

  lemma {:induction false} StartKeepsInv(s: System, i: nat, ok: bool)
    requires Inv(s) && Runnable(s, i) && (s.tasks[i].point.Fresh? || s.tasks[i].point.AwaitingTask?)
    ensures Inv(RunTask(s, i, ok))
  {
    ParkKeepsInv(s, i, Done(Returned));
    ParkKeepsInv(s, i, AwaitingLock);
    if s.tasks[i].call.Connect? && s.connecting.Some? {
      ParkKeepsInv(s, i, AwaitingTask(s.connecting.value));
    }
  }

  /** Taking the free lock: the new holder must fit, and nobody else held it. */
  lemma {:induction false} TakeKeepsInv(s: System, t: System, i: nat, point: Point)
    requires Inv(s) && Runnable(s, i) && s.tasks[i].point.AwaitingLock?
    requires t.tasks == s.tasks[i := s.tasks[i].(point := point)]
    requires !point.AwaitingTask? && point != Done(RaisedInvalidTransition)
    requires t.lock == if HoldsLock(point) then Some(i) else None
    requires HoldsLock(point) ==> HolderFits(t, i)
    requires t.websocket == s.websocket && t.openCount == s.openCount && t.closed == s.closed
    requires LegalHistory(t.history, t.state) && t.dials == Entries(t.history, Connecting)
    requires !HoldsLock(point) ==>
               && t.state in {Disconnected, Connected, Failed}
               && t.connecting == None
               && (t.websocket.Some? <==> t.state == Connected)
    ensures Inv(t)
  {
    assert !point.AwaitingTaskLocked?;
  }

  lemma {:induction false} DialingKeepsInv(s: System, i: nat)
    requires Inv(s) && Runnable(s, i) && s.tasks[i].point.AwaitingLock? && s.tasks[i].call.Connect?
    requires s.state == Disconnected
    ensures Inv(ConnectWithLock(s, i))
  {
    ShiftKeepsHistory(s, Connecting);
    TakeKeepsInv(s, ConnectWithLock(s, i), i, Dialing);
  }

  /** From Failed the matrix refuses Connecting; the refusal is turned into a
      ConnectionFailedError without a dial. */
  lemma {:induction false} RefusedConnectKeepsInv(s: System, i: nat)
    requires Inv(s) && Runnable(s, i) && s.tasks[i].point.AwaitingLock? && s.tasks[i].call.Connect?
    requires s.state == Failed
    ensures Inv(ConnectWithLock(s, i))
  {
    ShiftKeepsHistory(s, Failed);
    var t := ConnectWithLock(s, i);
    assert !IsValidTransition(Failed, Connecting);
    assert t.tasks == s.tasks[i := s.tasks[i].(point := Done(RaisedConnectionFailed))];
    assert t.history == s.history + [(Failed, Failed)];
    TakeKeepsInv(s, t, i, Done(RaisedConnectionFailed));
  }

  lemma {:induction false} LockingDisconnectKeepsInv(s: System, i: nat)
    requires Inv(s) && Runnable(s, i) && s.tasks[i].point.AwaitingLock? && s.tasks[i].call.Disconnect?
    ensures Inv(DisconnectWithLock(s, i))
  {
    var t := DisconnectWithLock(s, i);
    if s.state == Failed {
      ShiftKeepsHistory(s, Disconnected);
    }
    TakeKeepsInv(s, t, i, if s.state == Connected then ClosingForDisconnect else Done(Returned));
  }

  lemma {:induction false} LockingConnectKeepsInv(s: System, i: nat)
    requires Inv(s) && Runnable(s, i) && s.tasks[i].point.AwaitingLock? && s.tasks[i].call.Connect?
    ensures Inv(ConnectWithLock(s, i))
  {
    if s.state == Connected {
      TakeKeepsInv(s, ConnectWithLock(s, i), i, Done(Returned));
    } else if s.state == Disconnected {
      DialingKeepsInv(s, i);
    } else {
      RefusedConnectKeepsInv(s, i);
    }
  }

  lemma {:induction false} LockingKeepsInv(s: System, i: nat, ok: bool)
    requires Inv(s) && Runnable(s, i) && s.tasks[i].point.AwaitingLock?
    ensures Inv(RunTask(s, i, ok))
  {
    if s.tasks[i].call.Disconnect? {
      LockingDisconnectKeepsInv(s, i);
    } else {
      LockingConnectKeepsInv(s, i);
    }
  }

  lemma {:induction false} DialEndKeepsInv(s: System, i: nat, ok: bool)
    requires Inv(s) && Runnable(s, i) && s.tasks[i].point.Dialing?
    ensures Inv(RunTask(s, i, ok))
  {
    ShiftKeepsHistory(s, Failed);
  }

  lemma {:induction false} SendEndKeepsInv(s: System, i: nat, ok: bool)
    requires Inv(s) && Runnable(s, i) && s.tasks[i].point.Subscribing?
    ensures Inv(RunTask(s, i, ok))
  {
    ShiftKeepsHistory(s, if ok then Connected else Failed);
  }

  lemma {:induction false} ClosingKeepsInv(s: System, i: nat, ok: bool)
    requires Inv(s) && Runnable(s, i)
    requires s.tasks[i].point.ClosingAfterFailure? || s.tasks[i].point.ClosingForDisconnect?
    ensures Inv(RunTask(s, i, ok))
  {
    if s.tasks[i].point.ClosingForDisconnect? {
      ShiftKeepsHistory(s, Disconnected);
    }
  }

  lemma {:induction false} ApplyKeepsInv(s: System, step: Label)
    requires Inv(s)
    ensures Inv(Apply(s, step))
  {
    match step
    case Spawn(_) =>
    case Resume(i, ok) =>
      if Runnable(s, i) {
        match s.tasks[i].point
        case Fresh => StartKeepsInv(s, i, ok);
        case AwaitingTask(_) => StartKeepsInv(s, i, ok);
        case AwaitingLock => LockingKeepsInv(s, i, ok);
        case Dialing => DialEndKeepsInv(s, i, ok);
        case Subscribing => SendEndKeepsInv(s, i, ok);
        case ClosingAfterFailure => ClosingKeepsInv(s, i, ok);
        case ClosingForDisconnect => ClosingKeepsInv(s, i, ok);
        case _ =>
      }
  }

  lemma {:induction false} ReachableInv(schedule: seq<Label>)
    ensures Inv(Execute(INITIAL, schedule))
  {
    if schedule != [] {
      ReachableInv(schedule[..|schedule| - 1]);
      ApplyKeepsInv(Execute(INITIAL, schedule[..|schedule| - 1]), schedule[|schedule| - 1]);
    }
  }

  /** Safety on every schedule of any number of connect and disconnect calls. */
  lemma {:induction false} SafeOnEverySchedule(schedule: seq<Label>)
    ensures Safe(Execute(INITIAL, schedule))
  {
    ReachableInv(schedule);
  }

  // ---------- Progress ----------

  ghost function Weigh(tasks: seq<Task>, weight: Task -> nat): nat {
    if tasks == [] then 0 else Weigh(tasks[1..], weight) + weight(tasks[0])
  }

  lemma {:induction false} WeighUpdate(tasks: seq<Task>, i: nat, task: Task, weight: Task -> nat)
    requires i < |tasks|
    ensures Weigh(tasks[i := task], weight) + weight(tasks[i]) == Weigh(tasks, weight) + weight(task)
  {
    if i == 0 {
      assert tasks[i := task] == [task] + tasks[1..];
    } else {
      assert tasks[i := task][1..] == tasks[1..][i - 1 := task];
      WeighUpdate(tasks[1..], i - 1, task, weight);
    }
  }

  lemma {:induction false} WeighAppend(tasks: seq<Task>, task: Task, weight: Task -> nat)
    ensures Weigh(tasks + [task], weight) == Weigh(tasks, weight) + weight(task)
  {
    if tasks == [] {
      assert tasks + [task] == [task];
    } else {
      assert (tasks + [task])[1..] == tasks[1..] + [task];
      WeighAppend(tasks[1..], task, weight);
    }
  }

  /** How far a task still is from its end; no await is ever passed twice. */
  function Remaining(task: Task): nat {
    match task.point
    case Fresh => 7
    case AwaitingTask(_) => 6
    case AwaitingLock => 5
    case AwaitingTaskLocked(_) => 4
    case Dialing => 3
    case Subscribing => 2
    case ClosingAfterFailure => 1
    case ClosingForDisconnect => 1
    case Done(_) => 0
  }

  /** `t` differs from `s` in the tasks only by one that came nearer to its end. */
  ghost predicate Nearer(s: System, t: System, i: nat)
    requires i < |s.tasks|
  {
    && |t.tasks| == |s.tasks|
    && t.tasks == s.tasks[i := t.tasks[i]] && t.tasks[i].call == s.tasks[i].call
    && Remaining(t.tasks[i]) < Remaining(s.tasks[i])
  }

  lemma {:induction false} AttemptIsNearer(s: System, i: nat)
    requires i < |s.tasks| && Remaining(s.tasks[i]) > 3
    ensures Nearer(s, Attempt(s, i), i)
  {
  }

  lemma {:induction false} HoldingIsNearer(s: System, i: nat, ok: bool)
    requires Runnable(s, i) && HoldsLock(s.tasks[i].point) && !s.tasks[i].point.AwaitingTaskLocked?
    ensures Nearer(s, RunTask(s, i, ok), i)
  {
  }

  lemma {:induction false} RunIsNearer(s: System, i: nat, ok: bool)
    requires Runnable(s, i)
    ensures Nearer(s, RunTask(s, i, ok), i)
  {
    if HoldsLock(s.tasks[i].point) && !s.tasks[i].point.AwaitingTaskLocked? {
      HoldingIsNearer(s, i, ok);
    } else {
      match s.tasks[i].point
      case AwaitingLock => AttemptIsNearer(s.(lock := Some(i)), i);
      case AwaitingTaskLocked(_) => AttemptIsNearer(s, i);
      case _ =>
    }
  }

  // ---------- Steps of a reachable system ----------

  /** Where a step takes a task of a reachable system, and into which state. */
  predicate Steps(s: System, i: nat, ok: bool, point: Point, state: ConnectionState)
    requires i < |s.tasks|
  {
    match (s.tasks[i].call, s.tasks[i].point)
    case (Connect, Fresh) =>
      state == s.state &&
      point == if s.state == Connected then Done(Returned)
               else if s.connecting.Some? then AwaitingTask(s.connecting.value) else AwaitingLock
    case (Disconnect, Fresh) =>
      state == s.state && point == if s.state == Disconnected then Done(Returned) else AwaitingLock
    case (Connect, AwaitingTask(target)) =>
      state == s.state && target < |s.tasks| &&
      point == if s.tasks[target].point == Done(Returned) then Done(Returned) else AwaitingLock
    case (Connect, AwaitingLock) =>
      (point, state) == if s.state == Connected then (Done(Returned), Connected)
                        else if s.state == Disconnected then (Dialing, Connecting)
                        else (Done(RaisedConnectionFailed), Failed)
    case (Disconnect, AwaitingLock) =>
      (point, state) == if s.state == Connected then (ClosingForDisconnect, Connected)
                        else (Done(Returned), Disconnected)
    case (Connect, Dialing) =>
      (point, state) == if ok then (Subscribing, Connecting) else (Done(RaisedConnectionFailed), Failed)
    case (Connect, Subscribing) =>
      (point, state) == if ok then (Done(Returned), Connected) else (ClosingAfterFailure, Failed)
    case (Connect, ClosingAfterFailure) => (point, state) == (Done(RaisedConnectionFailed), Failed)
    case (Disconnect, ClosingForDisconnect) => (point, state) == (Done(Returned), Disconnected)
    case _ => false
  }

  lemma {:induction false} StepLeads(s: System, i: nat, ok: bool)
    requires Inv(s) && Runnable(s, i)
    ensures var t := RunTask(s, i, ok);
            |t.tasks| == |s.tasks| && Steps(s, i, ok, t.tasks[i].point, t.state)
  {
    match s.tasks[i].point
    case AwaitingLock => assert !IsValidTransition(Failed, Connecting);
    case _ =>
  }

  lemma {:induction false} LockStepCounts(s: System, i: nat, ok: bool)
    requires Inv(s) && Runnable(s, i) && s.tasks[i].point.AwaitingLock?
    ensures var t := RunTask(s, i, ok);
            && |t.tasks| == |s.tasks|
            && t.lock == (if HoldsLock(t.tasks[i].point) then Some(i) else None)
            && t.dials == s.dials + (if t.tasks[i].point == Dialing then 1 else 0)
            && t.openCount == s.openCount && t.websocket == s.websocket && t.tasks[i].point != Subscribing
  {
    assert !IsValidTransition(Failed, Connecting);
  }

  lemma {:induction false} StepCounts(s: System, i: nat, ok: bool)
    requires Inv(s) && Runnable(s, i)
    ensures var t := RunTask(s, i, ok);
            && |t.tasks| == |s.tasks|
            && t.lock == (if HoldsLock(t.tasks[i].point) then Some(i)
                          else if HoldsLock(s.tasks[i].point) then None else s.lock)
            && t.dials == s.dials + (if t.tasks[i].point == Dialing then 1 else 0)
            && t.openCount == s.openCount + (if t.tasks[i].point == Subscribing then 1 else 0)
            && t.websocket == (if t.tasks[i].point == Subscribing then Some(s.openCount)
                               else if s.tasks[i].point == ClosingAfterFailure
                                       || s.tasks[i].point == ClosingForDisconnect then None
                               else s.websocket)
  {
    match s.tasks[i].point
    case AwaitingLock => LockStepCounts(s, i, ok);
    case _ =>
  }

  /** The whole effect of a step on a reachable system, case by case: the point and
      the state it leads to, the lock, the record of the connecting task, the dials
      and the sockets. */
  lemma {:induction false} StepTells(s: System, i: nat, ok: bool)
    requires Inv(s) && Runnable(s, i)
    ensures var t := RunTask(s, i, ok);
            && |t.tasks| == |s.tasks|
            && Steps(s, i, ok, t.tasks[i].point, t.state)
            && (forall k :: 0 <= k < |s.tasks| && k != i ==> t.tasks[k] == s.tasks[k])
            && t.dials == s.dials + (if t.tasks[i].point == Dialing then 1 else 0)
            && t.openCount == s.openCount + (if t.tasks[i].point == Subscribing then 1 else 0)
            && t.websocket == (if t.tasks[i].point == Subscribing then Some(s.openCount)
                               else if s.tasks[i].point == ClosingAfterFailure
                                       || s.tasks[i].point == ClosingForDisconnect then None
                               else s.websocket)
            && t.lock == (if HoldsLock(t.tasks[i].point) then Some(i)
                          else if HoldsLock(s.tasks[i].point) then None else s.lock)
  {
    StepLeads(s, i, ok);
    RunIsNearer(s, i, ok);
    StepCounts(s, i, ok);
  }

  /** A task that cannot go on has ended or waits, directly or through the task it
      waits for, for a holder of the lock that can. */
  lemma {:induction false} BlockedByHolder(s: System, i: nat)
    requires Inv(s) && i < |s.tasks| && !s.tasks[i].point.Done? && !Runnable(s, i)
    ensures s.lock.Some? && s.lock != Some(i) && Runnable(s, s.lock.value)
    ensures s.tasks[i].point == AwaitingLock || s.tasks[i].point == AwaitingTask(s.lock.value)
  {
  }

  // ---------- Settled states ----------

  /** Weighs a completed disconnect call as one. */
  function CompletedDisconnect(task: Task): nat {
    if task.call.Disconnect? && task.point.Done? then 1 else 0
  }

  /** How many disconnect calls have completed. */
  ghost function Disconnects(s: System): nat {
    Weigh(s.tasks, CompletedDisconnect)
  }

  /** A step makes at most one transition, and into Disconnected only when it
      completes a disconnect call. */
  ghost predicate OneTransition(s: System, t: System, i: nat)
    requires i < |s.tasks| && i < |t.tasks|
  {
    || t.history == s.history
    || (&& t.history == s.history + [(s.state, t.state)]
        && IsValidTransition(s.state, t.state)
        && (t.state == Disconnected ==> s.tasks[i].call.Disconnect? && t.tasks[i].point.Done?))
  }

  lemma {:induction false} LockingMakesOneTransition(s: System, i: nat)
    requires Inv(s) && Runnable(s, i) && s.tasks[i].point.AwaitingLock?
    ensures s.tasks[i].call.Connect? ==> OneTransition(s, ConnectWithLock(s, i), i)
    ensures s.tasks[i].call.Disconnect? ==> OneTransition(s, DisconnectWithLock(s, i), i)
  {
  }

  lemma {:induction false} RunMakesOneTransition(s: System, i: nat, ok: bool)
    requires Inv(s) && Runnable(s, i)
    ensures |RunTask(s, i, ok).tasks| == |s.tasks| && OneTransition(s, RunTask(s, i, ok), i)
  {
    match s.tasks[i].point
    case AwaitingLock => LockingMakesOneTransition(s, i);
    case _ =>
  }

  lemma {:induction false} TransitionIsCounted(s: System, t: System, i: nat)
    requires LegalHistory(s.history, s.state) && i < |s.tasks| && i < |t.tasks| && !s.tasks[i].point.Done?
    requires OneTransition(s, t, i) && t.tasks[i].call == s.tasks[i].call
    ensures Entries(t.history, Disconnected) + CompletedDisconnect(s.tasks[i])
            <= Entries(s.history, Disconnected) + CompletedDisconnect(t.tasks[i])
  {
    if t.history != s.history {
      Extend(s.history, s.state, t.state);
    }
  }

  lemma {:induction false} RunEntersDisconnected(s: System, i: nat, ok: bool)
    requires Inv(s) && Runnable(s, i)
    ensures var t := RunTask(s, i, ok);
            |t.tasks| == |s.tasks| && t.tasks == s.tasks[i := t.tasks[i]]
    ensures var t := RunTask(s, i, ok);
            Entries(t.history, Disconnected) + CompletedDisconnect(s.tasks[i])
            <= Entries(s.history, Disconnected) + CompletedDisconnect(t.tasks[i])
  {
    RunIsNearer(s, i, ok);
    RunMakesOneTransition(s, i, ok);
    TransitionIsCounted(s, RunTask(s, i, ok), i);
  }

  lemma {:induction false} RunLeavesSettled(s: System, i: nat, ok: bool)
    requires Inv(s) && Runnable(s, i) && s.state in {Failed, Connected}
    ensures RunTask(s, i, ok).state in {s.state, Disconnected}
  {
  }

  /** A task that leaves a settled state is a disconnect call that completes. */
  lemma {:induction false} RunKeepsSettled(s: System, i: nat, ok: bool)
    requires Inv(s) && Runnable(s, i) && s.state in {Failed, Connected}
    ensures var t := RunTask(s, i, ok);
            i < |t.tasks| && (t.state == s.state || CompletedDisconnect(t.tasks[i]) > CompletedDisconnect(s.tasks[i]))
  {
    var t := RunTask(s, i, ok);
    RunLeavesSettled(s, i, ok);
    RunEntersDisconnected(s, i, ok);
    RunMakesOneTransition(s, i, ok);
    ApplyKeepsInv(s, Resume(i, ok));
    if t.history != s.history {
      Extend(s.history, s.state, t.state);
    }
  }

  lemma {:induction false} StepKeepsSettled(s: System, step: Label)
    requires Inv(s)
    ensures Disconnects(Apply(s, step)) >= Disconnects(s)
    ensures s.state in {Failed, Connected} && Disconnects(Apply(s, step)) == Disconnects(s)
            ==> Apply(s, step).state == s.state
  {
    match step
    case Spawn(call) => WeighAppend(s.tasks, Task(call, Fresh), CompletedDisconnect);
    case Resume(i, ok) =>
      if Runnable(s, i) {
        RunIsNearer(s, i, ok);
        WeighUpdate(s.tasks, i, RunTask(s, i, ok).tasks[i], CompletedDisconnect);
        if s.state in {Failed, Connected} {
          RunKeepsSettled(s, i, ok);
        }
      }
  }

  /** Failed and Connected are left only by a disconnect call that completes. */
  lemma {:induction false} SettledUntilDisconnect(schedule: seq<Label>, more: seq<Label>)
    ensures var s, t := Execute(INITIAL, schedule), Execute(INITIAL, schedule + more);
            && Disconnects(t) >= Disconnects(s)
            && (s.state in {Failed, Connected} && Disconnects(t) == Disconnects(s) ==> t.state == s.state)
  {
    if more == [] {
      assert schedule + more == schedule;
    } else {
      var before := more[..|more| - 1];
      assert (schedule + more)[..|schedule + more| - 1] == schedule + before;
      SettledUntilDisconnect(schedule, before);
      ReachableInv(schedule + before);
      StepKeepsSettled(Execute(INITIAL, schedule + before), more[|more| - 1]);
    }
  }

  // ---------- What the end of a call tells ----------

  /** What the outcome of a call says about the state at its end. */
  predicate TellsState(call: Call, outcome: Outcome, t: System) {
    match (call, outcome)
    case (Disconnect, Returned) => t.state == Disconnected && t.websocket == None
    case (Connect, Returned) => t.state == Connected && t.websocket.Some?
    case (Connect, RaisedConnectionFailed) => t.state == Failed && t.websocket == None
    case _ => false
  }

  lemma {:induction false} EndTellsState(s: System, i: nat, ok: bool)
    requires Inv(s) && Runnable(s, i) && !s.tasks[i].point.AwaitingTask?
    ensures var t := RunTask(s, i, ok);
            t.tasks[i].point.Done? ==> TellsState(t.tasks[i].call, t.tasks[i].point.outcome, t)
  {
    match s.tasks[i].point
    case Fresh => assert s.state == Disconnected ==> s.websocket == None;
    case AwaitingLock =>
    case _ =>
  }

  /** Task `i` waits for the unfinished task `target`. */
  predicate WaitsFor(s: System, i: nat, target: nat) {
    i < |s.tasks| && s.tasks[i].point == AwaitingTask(target) && !IsDone(s, target)
  }

  /** The verdict of a finished connect call is still the one the state gives. */
  predicate Current(s: System, target: nat) {
    IsDone(s, target) ==>
      s.state == match s.tasks[target].point.outcome case Returned => Connected case _ => Failed
  }

  lemma {:induction false} OthersLeaveTheLock(s: System, i: nat, ok: bool)
    requires Inv(s) && Runnable(s, i) && s.lock.Some? && s.lock != Some(i)
    ensures RunTask(s, i, ok).lock == s.lock
  {
  }

  lemma {:induction false} StepKeepsCurrent(s: System, step: Label, target: nat)
    requires Inv(s) && target < |s.tasks| && s.tasks[target].call.Connect? && Current(s, target)
    requires !IsDone(s, target) ==> s.lock == Some(target)
    requires Disconnects(Apply(s, step)) == Disconnects(s)
    ensures var t := Apply(s, step);
            && target < |t.tasks| && t.tasks[target].call.Connect? && Current(t, target)
            && (!IsDone(t, target) ==> t.lock == Some(target))
  {
    StepKeepsSettled(s, step);
    ApplyKeepsInv(s, step);
    if step.Resume? && Runnable(s, step.task) {
      RunIsNearer(s, step.task, step.ok);
      if step.task == target {
        EndTellsState(s, target, step.ok);
      } else if !IsDone(s, target) {
        OthersLeaveTheLock(s, step.task, step.ok);
      }
    }
  }

  /** As long as no further disconnect completes, `target` keeps the lock to its
      end, and its verdict then stays current. */
  ghost predicate VerdictStands(disconnects: nat, s: System, target: nat) {
    && Disconnects(s) >= disconnects
    && (Disconnects(s) == disconnects ==>
          && target < |s.tasks| && s.tasks[target].call.Connect? && Current(s, target)
          && (!IsDone(s, target) ==> s.lock == Some(target)))
  }

  lemma {:induction false} StepKeepsVerdict(disconnects: nat, s: System, step: Label, target: nat)
    requires Inv(s) && VerdictStands(disconnects, s, target)
    ensures VerdictStands(disconnects, Apply(s, step), target)
  {
    StepKeepsSettled(s, step);
    if Disconnects(Apply(s, step)) == disconnects {
      StepKeepsCurrent(s, step, target);
    }
  }

  lemma {:induction false} VerdictStandsUntilDisconnect(schedule: seq<Label>, more: seq<Label>, i: nat, target: nat)
    requires WaitsFor(Execute(INITIAL, schedule), i, target)
    ensures VerdictStands(Disconnects(Execute(INITIAL, schedule)), Execute(INITIAL, schedule + more), target)
  {
    if more == [] {
      assert schedule + more == schedule;
      ReachableInv(schedule);
    } else {
      var before := more[..|more| - 1];
      assert (schedule + more)[..|schedule + more| - 1] == schedule + before;
      VerdictStandsUntilDisconnect(schedule, before, i, target);
      ReachableInv(schedule + before);
      StepKeepsVerdict(Disconnects(Execute(INITIAL, schedule)), Execute(INITIAL, schedule + before),
                       more[|more| - 1], target);
    }
  }

  lemma {:induction false} WokenReturns(s: System, i: nat, ok: bool, disconnects: nat)
    requires Inv(s) && Runnable(s, i) && s.tasks[i].point.AwaitingTask?
    requires RunTask(s, i, ok).tasks[i].point.Done? && VerdictStands(disconnects, s, s.tasks[i].point.target)
    ensures var t := RunTask(s, i, ok);
            && t.tasks[i].point.outcome == Returned && Disconnects(t) == Disconnects(s)
            && ((t.state == Connected && t.websocket.Some?) || Disconnects(t) > disconnects)
  {
    WeighUpdate(s.tasks, i, RunTask(s, i, ok).tasks[i], CompletedDisconnect);
    assert s.state == Connected ==> s.websocket.Some?;
  }

  /** A connect that only waited for another task ends by returning, and then it
      too finds Connected with a socket, unless a disconnect has completed since
      any earlier moment, after `n` steps, at which that task was unfinished. */
  lemma {:induction false} WaitedReturnFindsConnected(schedule: seq<Label>, n: nat, i: nat, ok: bool)
    requires Runnable(Execute(INITIAL, schedule), i) && Execute(INITIAL, schedule).tasks[i].point.AwaitingTask?
    requires RunTask(Execute(INITIAL, schedule), i, ok).tasks[i].point.Done? && n <= |schedule|
    requires WaitsFor(Execute(INITIAL, schedule[..n]), i, Execute(INITIAL, schedule).tasks[i].point.target)
    ensures var t := RunTask(Execute(INITIAL, schedule), i, ok);
            && t.tasks[i].point.outcome == Returned
            && ((t.state == Connected && t.websocket.Some?)
                || Disconnects(t) > Disconnects(Execute(INITIAL, schedule[..n])))
  {
    var s := Execute(INITIAL, schedule);
    assert schedule[..n] + schedule[n..] == schedule;
    ReachableInv(schedule);
    VerdictStandsUntilDisconnect(schedule[..n], schedule[n..], i, s.tasks[i].point.target);
    WokenReturns(s, i, ok, Disconnects(Execute(INITIAL, schedule[..n])));
  }

  lemma {:induction false} StartedWaiting(s: System, i: nat, ok: bool)
    requires Inv(s) && Runnable(s, i) && RunTask(s, i, ok).tasks[i].point.AwaitingTask?
    ensures WaitsFor(RunTask(s, i, ok), i, RunTask(s, i, ok).tasks[i].point.target)
  {
  }

  lemma {:induction false} AlreadyWaited(s: System, step: Label, i: nat)
    requires Inv(s) && i < |Apply(s, step).tasks| && Apply(s, step).tasks[i].point.AwaitingTask?
    requires !WaitsFor(Apply(s, step), i, Apply(s, step).tasks[i].point.target)
    ensures i < |s.tasks| && s.tasks[i].point == Apply(s, step).tasks[i].point
  {
    if step.Resume? && Runnable(s, step.task) {
      RunIsNearer(s, step.task, step.ok);
      if step.task == i {
        StartedWaiting(s, i, step.ok);
      }
    }
  }

  /** A task only ever waits for one that was unfinished when the waiting began. */
  lemma {:induction false} WaitingBeganUnfinished(schedule: seq<Label>, i: nat) returns (n: nat)
    requires i < |Execute(INITIAL, schedule).tasks| && Execute(INITIAL, schedule).tasks[i].point.AwaitingTask?
    ensures n <= |schedule|
    ensures WaitsFor(Execute(INITIAL, schedule[..n]), i, Execute(INITIAL, schedule).tasks[i].point.target)
  {
    assert schedule[..|schedule|] == schedule;
    var target := Execute(INITIAL, schedule).tasks[i].point.target;
    if WaitsFor(Execute(INITIAL, schedule), i, target) {
      return |schedule|;
    }
    var before, step := schedule[..|schedule| - 1], schedule[|schedule| - 1];
    ReachableInv(before);
    AlreadyWaited(Execute(INITIAL, before), step, i);
    n := WaitingBeganUnfinished(before, i);
    assert before[..n] == schedule[..n];
  }

  /** Task `i`, which has ended its wait in `t`, was overtaken: its target was
      unfinished at some moment of the schedule, and a disconnect has completed
      since every such moment. */
  ghost predicate Overtaken(schedule: seq<Label>, i: nat, target: nat, t: System) {
    && (exists n: nat :: n <= |schedule| && WaitsFor(Execute(INITIAL, schedule[..n]), i, target))
    && (forall n: nat :: n <= |schedule| && WaitsFor(Execute(INITIAL, schedule[..n]), i, target)
          ==> Disconnects(t) > Disconnects(Execute(INITIAL, schedule[..n])))
  }

  lemma {:induction false} WaitedReturnTells(schedule: seq<Label>, i: nat, ok: bool)
    requires Runnable(Execute(INITIAL, schedule), i) && Execute(INITIAL, schedule).tasks[i].point.AwaitingTask?
    requires RunTask(Execute(INITIAL, schedule), i, ok).tasks[i].point.Done?
    ensures var t := RunTask(Execute(INITIAL, schedule), i, ok);
            && t.tasks[i].call.Connect? && t.tasks[i].point.outcome == Returned
            && ((t.state == Connected && t.websocket.Some?)
                || Overtaken(schedule, i, Execute(INITIAL, schedule).tasks[i].point.target, t))
  {
    var target := Execute(INITIAL, schedule).tasks[i].point.target;
    var t := RunTask(Execute(INITIAL, schedule), i, ok);
    ReachableInv(schedule);
    var m := WaitingBeganUnfinished(schedule, i);
    WaitedReturnFindsConnected(schedule, m, i, ok);
    if !(t.state == Connected && t.websocket.Some?) {
      forall n: nat | n <= |schedule| && WaitsFor(Execute(INITIAL, schedule[..n]), i, target)
        ensures Disconnects(t) > Disconnects(Execute(INITIAL, schedule[..n]))
      {
        WaitedReturnFindsConnected(schedule, n, i, ok);
      }
    }
  }

  /** What the end of a call tells its caller: a completed disconnect leaves no
      connection, a connect returns into Connected with a socket, and a
      ConnectionFailedError leaves Failed without one. For a connect that only
      waited for another task this holds unless a disconnect has completed since
      that task was last unfinished. */
  lemma {:induction false} CompletionTellsState(schedule: seq<Label>, i: nat, ok: bool)
    requires Runnable(Execute(INITIAL, schedule), i)
    ensures var s := Execute(INITIAL, schedule);
            var t := RunTask(s, i, ok);
            t.tasks[i].point.Done? ==>
            || TellsState(t.tasks[i].call, t.tasks[i].point.outcome, t)
            || (&& s.tasks[i].point.AwaitingTask? && t.tasks[i].point.outcome == Returned
                && Overtaken(schedule, i, s.tasks[i].point.target, t))
  {
    var s := Execute(INITIAL, schedule);
    var t := RunTask(s, i, ok);
    ReachableInv(schedule);
    if !s.tasks[i].point.AwaitingTask? {
      EndTellsState(s, i, ok);
    } else if t.tasks[i].point.Done? {
      WaitedReturnTells(schedule, i, ok);
    }
  }

  /** A connect call that takes the lock after another has failed dials iff the
      state is Disconnected by then. Unless a disconnect has completed since the
      failure, the state is Failed and the call raises without a dial. */
  lemma {:induction false} RetryNeedsDisconnect(schedule: seq<Label>, more: seq<Label>, i: nat, ok: bool)
    requires Execute(INITIAL, schedule).state == Failed
    requires var t := Execute(INITIAL, schedule + more);
             Runnable(t, i) && t.tasks[i] == Task(Connect, AwaitingLock)
    ensures var s, t := Execute(INITIAL, schedule), Execute(INITIAL, schedule + more);
            var u := RunTask(t, i, ok);
            && (u.tasks[i].point == Dialing <==> t.state == Disconnected)
            && (u.tasks[i].point == Done(RaisedConnectionFailed) <==> t.state == Failed)
            && (u.tasks[i].point == Done(Returned) <==> t.state == Connected)
            && (u.dials == t.dials + if t.state == Disconnected then 1 else 0)
            && (t.state == Failed || Disconnects(t) > Disconnects(s))
  {
    ReachableInv(schedule + more);
    SettledUntilDisconnect(schedule, more);
  }

  lemma {:induction false} ExecuteNext(schedule: seq<Label>, step: Label) returns (next: seq<Label>)
    ensures next == schedule + [step]
    ensures Execute(INITIAL, next) == Apply(Execute(INITIAL, schedule), step)
  {
    next := schedule + [step];
    assert next[..|schedule|] == schedule;
  }

  /** The state, the lock, the number of dials, and where three tasks are. */
  predicate Looks(s: System, state: ConnectionState, lock: Option<nat>, dials: nat, points: (Point, Point, Point)) {
    && s.state == state && s.lock == lock && s.dials == dials && |s.tasks| == 3
    && s.tasks[0] == Task(Connect, points.0)
    && s.tasks[1] == Task(Connect, points.1)
    && s.tasks[2] == Task(Disconnect, points.2)
  }

  /** Tasks 0 and 1 connect: task 0 dials, and task 1 waits for it. Task 2 is about to disconnect. */
  const WAITING: seq<Label> := [
    Spawn(Connect), Spawn(Connect), Spawn(Disconnect), Resume(0, true), Resume(0, true), Resume(1, true)]

  lemma {:induction false} TaskOneWaits()
    ensures Looks(Execute(INITIAL, WAITING), Connecting, Some(0), 1, (Dialing, AwaitingTask(0), Fresh))
    ensures Execute(INITIAL, WAITING).connecting == Some(0) && Execute(INITIAL, WAITING).websocket == None
  {
    var s1 := ExecuteNext([], Spawn(Connect));
    var s2 := ExecuteNext(s1, Spawn(Connect));
    var s3 := ExecuteNext(s2, Spawn(Disconnect));
    assert Looks(Execute(INITIAL, s3), Disconnected, None, 0, (Fresh, Fresh, Fresh));
    var s4 := ExecuteNext(s3, Resume(0, true));
    var s5 := ExecuteNext(s4, Resume(0, true));
    assert Looks(Execute(INITIAL, s5), Connecting, Some(0), 1, (Dialing, Fresh, Fresh));
    var s6 := ExecuteNext(s5, Resume(1, true));
    assert s6 == WAITING;
  }

  /** A waiter whose target failed may dial again: task 2 disconnects before task 1 runs on. */
  lemma {:induction false} OvertakenRetry() returns (schedule: seq<Label>)
    ensures |schedule| > |WAITING| && schedule[..|WAITING|] == WAITING
    ensures Looks(Execute(INITIAL, schedule), Connecting, Some(1), 2,
                  (Done(RaisedConnectionFailed), Dialing, Done(Returned)))
  {
    TaskOneWaits();
    var s1 := ExecuteNext(WAITING, Resume(0, false));
    assert Looks(Execute(INITIAL, s1), Failed, None, 1, (Done(RaisedConnectionFailed), AwaitingTask(0), Fresh));
    var s2 := ExecuteNext(s1, Resume(2, true));
    assert Looks(Execute(INITIAL, s2), Failed, None, 1, (Done(RaisedConnectionFailed), AwaitingTask(0), AwaitingLock));
    var s3 := ExecuteNext(s2, Resume(2, true));
    assert Looks(Execute(INITIAL, s3), Disconnected, None, 1,
                 (Done(RaisedConnectionFailed), AwaitingTask(0), Done(Returned)));
    var s4 := ExecuteNext(s3, Resume(1, true));
    assert Looks(Execute(INITIAL, s4), Disconnected, None, 1,
                 (Done(RaisedConnectionFailed), AwaitingLock, Done(Returned)));
    schedule := ExecuteNext(s4, Resume(1, true));
  }

  /** A waiter whose target connected may return into Disconnected, for the same reason. */
  lemma {:induction false} OvertakenReturn() returns (schedule: seq<Label>)
    ensures |schedule| > |WAITING| && schedule[..|WAITING|] == WAITING
    ensures Looks(Execute(INITIAL, schedule), Disconnected, None, 1, (Done(Returned), Done(Returned), Done(Returned)))
  {
    TaskOneWaits();
    var s1 := ExecuteNext(WAITING, Resume(0, true));
    assert Looks(Execute(INITIAL, s1), Connecting, Some(0), 1, (Subscribing, AwaitingTask(0), Fresh));
    var s2 := ExecuteNext(s1, Resume(0, true));
    assert Looks(Execute(INITIAL, s2), Connected, None, 1, (Done(Returned), AwaitingTask(0), Fresh));
    var s3 := ExecuteNext(s2, Resume(2, true));
    assert Looks(Execute(INITIAL, s3), Connected, None, 1, (Done(Returned), AwaitingTask(0), AwaitingLock));
    var s4 := ExecuteNext(s3, Resume(2, true));
    assert Looks(Execute(INITIAL, s4), Connected, Some(2), 1, (Done(Returned), AwaitingTask(0), ClosingForDisconnect));
    var s5 := ExecuteNext(s4, Resume(2, true));
    assert Looks(Execute(INITIAL, s5), Disconnected, None, 1, (Done(Returned), AwaitingTask(0), Done(Returned)));
    schedule := ExecuteNext(s5, Resume(1, true));
  }

  /** Connected is entered exactly by a call whose dial and subscription both
      succeeded, and it then holds the socket of that dial. */
  lemma {:induction false} ConnectedIffSubscribed(schedule: seq<Label>, i: nat, ok: bool)
    requires Runnable(Execute(INITIAL, schedule), i)
    ensures var s := Execute(INITIAL, schedule);
            var t := RunTask(s, i, ok);
            && (s.state != Connected && t.state == Connected <==> s.tasks[i].point.Subscribing? && ok)
            && (s.tasks[i].point.Subscribing? && ok ==>
                  t.tasks[i].point == Done(Returned) && t.websocket == s.websocket && t.websocket.Some?)
            && (s.tasks[i].point.Dialing? && ok ==>
                  t.tasks[i].point == Subscribing && t.websocket == Some(s.openCount))
  {
    ReachableInv(schedule);
  }

  // ---------- Single flight ----------

  lemma {:induction false} ReturnsAreDisconnects(schedule: seq<Label>)
    ensures var s := Execute(INITIAL, schedule);
            Entries(s.history, Disconnected) <= Weigh(s.tasks, CompletedDisconnect)
  {
    if schedule != [] {
      var before := schedule[..|schedule| - 1];
      var s := Execute(INITIAL, before);
      ReturnsAreDisconnects(before);
      ReachableInv(before);
      match schedule[|schedule| - 1]
      case Spawn(call) => WeighAppend(s.tasks, Task(call, Fresh), CompletedDisconnect);
      case Resume(i, ok) =>
        if Runnable(s, i) {
          RunEntersDisconnected(s, i, ok);
          WeighUpdate(s.tasks, i, RunTask(s, i, ok).tasks[i], CompletedDisconnect);
        }
    }
  }

  /** However many callers there are and however they interleave, the dialer
      runs at most once more often than disconnect calls have completed. */
  lemma {:induction false} DialsAreBoundedByDisconnects(schedule: seq<Label>)
    ensures var s := Execute(INITIAL, schedule);
            && s.dials == Entries(s.history, Disconnected) + (if s.state == Disconnected then 0 else 1)
            && s.dials <= Weigh(s.tasks, CompletedDisconnect) + 1
  {
    var s := Execute(INITIAL, schedule);
    ReachableInv(schedule);
    AttemptsAlternateWithReturns(s.history, s.state);
    ReturnsAreDisconnects(schedule);
  }

  ghost predicate OnlyConnects(schedule: seq<Label>) {
    forall k :: 0 <= k < |schedule| ==> schedule[k] != Spawn(Disconnect)
  }

  /** The verdict that the current state allows for finished connect calls. */
  predicate Settled(state: ConnectionState, outcome: Outcome) {
    || (state == Connected && outcome == Returned)
    || (state == Failed && outcome == RaisedConnectionFailed)
  }

  ghost predicate InAgreement(s: System) {
    && (forall i :: 0 <= i < |s.tasks| ==> s.tasks[i].call.Connect?)
    && (forall i :: 0 <= i < |s.tasks| && s.tasks[i].point.Done? ==> Settled(s.state, s.tasks[i].point.outcome))
  }

  lemma {:induction false} RunKeepsAgreement(s: System, i: nat, ok: bool)
    requires Inv(s) && InAgreement(s) && Runnable(s, i)
    ensures InAgreement(RunTask(s, i, ok))
  {
  }

  lemma {:induction false} ApplyKeepsAgreement(s: System, step: Label)
    requires Inv(s) && InAgreement(s) && step != Spawn(Disconnect)
    ensures InAgreement(Apply(s, step))
  {
    if step.Resume? && Runnable(s, step.task) {
      RunKeepsAgreement(s, step.task, step.ok);
    }
  }

  lemma {:induction false} ReachesAgreement(schedule: seq<Label>)
    requires OnlyConnects(schedule)
    ensures InAgreement(Execute(INITIAL, schedule))
  {
    if schedule != [] {
      var before := schedule[..|schedule| - 1];
      ReachesAgreement(before);
      ReachableInv(before);
      ApplyKeepsAgreement(Execute(INITIAL, before), schedule[|schedule| - 1]);
    }
  }

  lemma {:induction false} NoDisconnectsToWeigh(tasks: seq<Task>)
    requires forall i :: 0 <= i < |tasks| ==> tasks[i].call.Connect?
    ensures Weigh(tasks, CompletedDisconnect) == 0
  {
    if tasks != [] {
      assert tasks[0].call.Connect?;
      NoDisconnectsToWeigh(tasks[1..]);
    }
  }

  /** Single flight: when nobody disconnects, any number of concurrent connect
      calls dial at most once on every schedule, and all calls that have
      finished ended alike. */
  lemma {:induction false} SingleFlight(schedule: seq<Label>)
    requires OnlyConnects(schedule)
    ensures Execute(INITIAL, schedule).dials <= 1
    ensures var tasks := Execute(INITIAL, schedule).tasks;
            forall i, j :: 0 <= i < |tasks| && 0 <= j < |tasks| && tasks[i].point.Done? && tasks[j].point.Done?
                           ==> tasks[i].point == tasks[j].point
                               && tasks[i].point.outcome in {Returned, RaisedConnectionFailed}
  {
    ReachesAgreement(schedule);
    DialsAreBoundedByDisconnects(schedule);
    NoDisconnectsToWeigh(Execute(INITIAL, schedule).tasks);
  }

  // ---------- Completion ----------

  /** Waits never form a cycle: whoever holds the lock waits for the network
      only, and everybody else waits for the holder or for a finished task. */
  lemma {:induction false} SomebodyCanRun(schedule: seq<Label>, i: nat)
    requires var s := Execute(INITIAL, schedule); i < |s.tasks| && !s.tasks[i].point.Done?
    ensures exists j :: Runnable(Execute(INITIAL, schedule), j)
  {
    var s := Execute(INITIAL, schedule);
    ReachableInv(schedule);
    var j := if s.lock.Some? then s.lock.value else i;
    assert Runnable(s, j);
  }

  lemma {:induction false} RunMakesProgress(s: System, i: nat, ok: bool)
    requires Runnable(s, i)
    ensures var t := RunTask(s, i, ok);
            |t.tasks| == |s.tasks| && Weigh(t.tasks, Remaining) < Weigh(s.tasks, Remaining)
  {
    RunIsNearer(s, i, ok);
    WeighUpdate(s.tasks, i, RunTask(s, i, ok).tasks[i], Remaining);
  }

  /** A schedule that starts no further call and never stutters. */
  ghost predicate Effective(s: System, resumes: seq<Label>) {
    resumes == [] ||
    var last := resumes[|resumes| - 1];
    var before := resumes[..|resumes| - 1];
    Effective(s, before) && last.Resume? && Runnable(Execute(s, before), last.task)
  }

  lemma {:induction false} EffectiveIsShort(s: System, resumes: seq<Label>)
    requires Effective(s, resumes)
    ensures var t := Execute(s, resumes);
            |t.tasks| == |s.tasks| && |resumes| + Weigh(t.tasks, Remaining) <= Weigh(s.tasks, Remaining)
  {
    if resumes != [] {
      var last := resumes[|resumes| - 1];
      var before := resumes[..|resumes| - 1];
      EffectiveIsShort(s, before);
      RunMakesProgress(Execute(s, before), last.task, last.ok);
    }
  }

  lemma {:induction false} WeighAtMost(tasks: seq<Task>)
    ensures Weigh(tasks, Remaining) <= 7 * |tasks|
  {
    if tasks != [] {
      WeighAtMost(tasks[1..]);
    }
  }

  /** A system in which no call is left in flight. */
  ghost predicate Quiet(s: System) {
    && (forall i :: 0 <= i < |s.tasks| ==>
          s.tasks[i].point.Done? && s.tasks[i].point.outcome != RaisedInvalidTransition)
    && s.lock == None
    && s.state in {Disconnected, Connected, Failed}
    && |s.closed| + (if s.state == Connected then 1 else 0) == s.openCount
  }

  lemma {:induction false} CountClosed(closed: set<nat>, count: nat, held: Option<nat>)
    requires forall w :: w in closed <==> 0 <= w < count && held != Some(w)
    requires held.Some? ==> held.value < count
    ensures |closed| + (if held.Some? then 1 else 0) == count
  {
    if count == 0 {
      assert closed == {};
    } else if held == Some(count - 1) {
      CountClosed(closed, count - 1, None);
    } else {
      CountClosed(closed - {count - 1}, count - 1, held);
    }
  }

  lemma {:induction false} StuckIsQuiet(schedule: seq<Label>)
    requires forall j :: !Runnable(Execute(INITIAL, schedule), j)
    ensures Quiet(Execute(INITIAL, schedule))
  {
    var t := Execute(INITIAL, schedule);
    ReachableInv(schedule);
    forall i | 0 <= i < |t.tasks| ensures t.tasks[i].point.Done? {
      if !t.tasks[i].point.Done? {
        SomebodyCanRun(schedule, i);
      }
    }
    forall i | 0 <= i < |t.tasks| ensures t.tasks[i].point.outcome != RaisedInvalidTransition {
      assert t.tasks[i].point != Done(RaisedInvalidTransition);
    }
    CountClosed(t.closed, t.openCount, t.websocket);
  }

  /** Every call completes: from any reachable state the scheduler can take at
      most seven effective steps per call, and when none is left, every call has
      returned or raised ConnectionFailedError, the lock is free and no socket
      is lost. */
  lemma {:induction false} EveryCallCompletes(schedule: seq<Label>, resumes: seq<Label>)
    requires Effective(Execute(INITIAL, schedule), resumes)
    ensures |resumes| <= 7 * |Execute(INITIAL, schedule).tasks|
    ensures (forall j :: !Runnable(Execute(INITIAL, schedule + resumes), j))
            ==> Quiet(Execute(INITIAL, schedule + resumes))
  {
    EffectiveIsShort(Execute(INITIAL, schedule), resumes);
    WeighAtMost(Execute(INITIAL, schedule).tasks);
    if forall j :: !Runnable(Execute(INITIAL, schedule + resumes), j) {
      StuckIsQuiet(schedule + resumes);
    }
  }
}
