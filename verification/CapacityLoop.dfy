/** The coalescing capacity reconciliation of the application lifecycle (backend/app/app_lifecycle.py).

    One event loop runs every stretch between two awaits without interruption, so a stretch is one action.
    A task that has ended is no longer in `tasks`. */
module CapacityLoop {
  import opened Rows

  type TaskId = nat

  /** Where a loop task is suspended. */
  datatype Stage = Created | Reconciling | Retrying | Yielding

  /** The latest reconciliation: `Cut` says that a shutdown cancelled it. */
  datatype Result = NotYet | InFlight | Succeeded | FailedOnce | Cut

  datatype Shutdown = Up | Draining(captured: Option<TaskId>) | Drained | Down

  /** `swap` is the gateway to fall back to while a new one is being installed.  The last four fields are
      history: how many requests were accepted, how many of them the latest reconciliation started after,
      how it ended, and how often the application was stopped. */
  datatype State = State(
    dirty: bool,
    stopping: bool,
    gateway: bool,
    tasks: map<TaskId, Stage>,
    current: Option<TaskId>,
    next: TaskId,
    swap: Option<bool>,
    shutdown: Shutdown,
    requests: nat,
    startedAfter: nat,
    result: Result,
    stops: nat)

  predicate HasLiveTask(s: State) { s.current.Some? && s.current.value in s.tasks }

  function Request(s: State): State {
    if s.stopping then s
    else
      var marked := s.(dirty := true, requests := s.requests + 1);
      if !s.gateway || HasLiveTask(s) then marked
      else marked.(current := Some(s.next), tasks := s.tasks[s.next := Created], next := s.next + 1)
  }

  /** The `finally` of the loop and the end of its task. */
  function Close(s: State, id: TaskId): State {
    var cleared := if s.current == Some(id) then s.(current := None) else s;
    var woken := if s.dirty && !s.stopping then Request(cleared) else cleared;
    woken.(tasks := woken.tasks - {id})
  }

  /** From the loop's condition to its next await. */
  function LoopHead(s: State, id: TaskId): State {
    if s.dirty && !s.stopping && s.gateway then
      s.(dirty := false, tasks := s.tasks[id := Reconciling], startedAfter := s.requests, result := InFlight)
    else Close(s, id)
  }

  function Fail(s: State, id: TaskId): State {
    var marked := s.(dirty := true, result := FailedOnce);
    if !s.gateway then Close(marked, id) else marked.(tasks := s.tasks[id := Retrying])
  }

  function Succeed(s: State, id: TaskId): State { s.(result := Succeeded, tasks := s.tasks[id := Yielding]) }

  /** Cancellation of a task that never ran skips its `finally`. */
  function Cancel(s: State, id: TaskId): State
    requires id in s.tasks
  {
    if s.tasks[id].Created? then s.(tasks := s.tasks - {id})
    else Close(if s.tasks[id].Reconciling? then s.(result := Cut) else s, id)
  }

  function CommitSwap(s: State): State {
    var settled := s.(swap := None);
    if s.dirty then Request(settled) else settled
  }

  // ---- The same, field by field -----------------------------------------------------------------

  /** The loop task that the lifecycle remembers has ended, or there is none. */
  ghost predicate Idle(s: State) { s.current == None || s.current.value !in s.tasks }

  /** A request is accepted unless the application stops: it raises the flag, and starts a task exactly if there is a
      gateway and no live task. */
  ghost predicate Asks(s: State, t: State) {
    var starts := !s.stopping && s.gateway && Idle(s);
    t == s.(dirty := if s.stopping then s.dirty else true,
            requests := if s.stopping then s.requests else s.requests + 1,
            current := if starts then Some(s.next) else s.current,
            tasks := if starts then s.tasks[s.next := Created] else s.tasks,
            next := if starts then s.next + 1 else s.next)
  }

  lemma RequestLaw(s: State)
    ensures Asks(s, Request(s))
  {
  }

  /** The loop forgets itself, asks again if the flag is up and the application runs on, and ends. */
  ghost predicate Closes(s: State, t: State, id: TaskId) {
    var wakes := s.dirty && !s.stopping;
    var starts := wakes && s.gateway && (s.current == Some(id) || Idle(s));
    t == s.(requests := if wakes then s.requests + 1 else s.requests,
            current := if starts then Some(s.next) else if s.current == Some(id) then None else s.current,
            tasks := (if starts then s.tasks[s.next := Created] else s.tasks) - {id},
            next := if starts then s.next + 1 else s.next)
  }

  lemma CloseLaw(s: State, id: TaskId)
    ensures Closes(s, Close(s, id), id)
  {
  }

  /** The loop lowers the flag and starts a reconciliation exactly if it is up, the application runs on and there is a
      gateway; otherwise it ends. */
  ghost predicate Turns(s: State, t: State, id: TaskId) {
    if s.dirty && !s.stopping && s.gateway
    then t == s.(dirty := false, tasks := s.tasks[id := Reconciling], startedAfter := s.requests, result := InFlight)
    else Closes(s, t, id)
  }

  lemma LoopHeadLaw(s: State, id: TaskId)
    ensures Turns(s, LoopHead(s, id), id)
  {
    CloseLaw(s, id);
  }

  /** A failure raises the flag again; with a gateway the loop waits to retry, without one it ends. */
  ghost predicate Fails(s: State, t: State, id: TaskId) {
    if s.gateway then t == s.(dirty := true, result := FailedOnce, tasks := s.tasks[id := Retrying])
    else Closes(s.(dirty := true, result := FailedOnce), t, id)
  }

  lemma FailLaw(s: State, id: TaskId)
    ensures Fails(s, Fail(s, id), id)
  {
    CloseLaw(s.(dirty := true, result := FailedOnce), id);
  }

  ghost predicate Swapped(s: State, t: State) { if s.dirty then Asks(s.(swap := None), t) else t == s.(swap := None) }

  lemma CommitSwapLaw(s: State)
    ensures Swapped(s, CommitSwap(s))
  {
    RequestLaw(s.(swap := None));
  }

  /** The lifecycle object; its methods are the stretches between awaits. */
  class AppLifecycle {
    var dirty: bool
    var stopping: bool
    var gateway: bool
    var tasks: map<TaskId, Stage>
    var current: Option<TaskId>
    var next: TaskId
    ghost var swap: Option<bool>
    ghost var shutdown: Shutdown
    ghost var requests: nat
    ghost var startedAfter: nat
    ghost var result: Result
    ghost var stops: nat

    constructor ()
      ensures Initial(View())
    {
      dirty, stopping, gateway, tasks, current, next := false, false, false, map[], None, 0;
      swap, shutdown, requests, startedAfter, result, stops := None, Up, 0, 0, NotYet, 0;
    }

    ghost function View(): State
      reads this
    {
      State(dirty, stopping, gateway, tasks, current, next, swap, shutdown, requests, startedAfter, result, stops)
    }

    method RequestCapacityReconcile()
      modifies this
      ensures View() == Request(old(View()))
      ensures Asks(old(View()), View())
    {
      RequestLaw(View());
      if stopping {
        return;
      }
      dirty := true;
      requests := requests + 1;
      if !gateway {
        return;
      }
      if current.None? || current.value !in tasks {
        current := Some(next);
        tasks := tasks[next := Created];
        next := next + 1;
      }
    }

    method CloseLoop(id: TaskId)
      modifies this
      ensures View() == Close(old(View()), id)
      ensures Closes(old(View()), View(), id)
    {
      CloseLaw(View(), id);
      if current == Some(id) {
        current := None;
      }
      if dirty && !stopping {
        RequestCapacityReconcile();
      }
      tasks := tasks - {id};
    }

    method TurnLoop(id: TaskId)
      modifies this
      ensures View() == LoopHead(old(View()), id)
      ensures Turns(old(View()), View(), id)
    {
      LoopHeadLaw(View(), id);
      if dirty && !stopping {
        if !gateway {
          CloseLoop(id);
          return;
        }
        dirty := false;
        tasks := tasks[id := Reconciling];
        startedAfter, result := requests, InFlight;
      } else {
        CloseLoop(id);
      }
    }

    method ReconcileRaised(id: TaskId)
      modifies this
      ensures View() == Fail(old(View()), id)
      ensures Fails(old(View()), View(), id)
    {
      FailLaw(View(), id);
      dirty := true;
      result := FailedOnce;
      if !gateway {
        CloseLoop(id);
        return;
      }
      tasks := tasks[id := Retrying];
    }

    method FinishSwap()
      modifies this
      ensures View() == CommitSwap(old(View()))
      ensures Swapped(old(View()), View())
    {
      CommitSwapLaw(View());
      swap := None;
      if dirty {
        RequestCapacityReconcile();
      }
    }
  }

  datatype Action =
    | Ask
    | Begin(id: TaskId)
    | ReconcileDone(id: TaskId)
    | ReconcileFailed(id: TaskId)
    | Resume(id: TaskId)
    | CancelDelivered(id: TaskId)
    | Install
    | InstallDone
    | InstallFailed
    | Disable
    | StopBegin
    | StopDrained
    | StopFinish
    | Start

  predicate At(s: State, id: TaskId, stage: Stage) { id in s.tasks && s.tasks[id] == stage }

  predicate Enabled(s: State, a: Action) {
    match a
    case Ask => true
    case Begin(id) => At(s, id, Created)
    case ReconcileDone(id) => At(s, id, Reconciling)
    case ReconcileFailed(id) => At(s, id, Reconciling)
    case Resume(id) => At(s, id, Retrying) || At(s, id, Yielding)
    case CancelDelivered(id) => id in s.tasks && s.shutdown == Draining(Some(id))
    case Install => s.swap.None? && !s.shutdown.Down?
    case InstallDone => s.swap.Some?
    case InstallFailed => s.swap.Some?
    case Disable => s.swap.None?
    case StopBegin => s.shutdown.Up?
    case StopDrained => s.shutdown.Draining? && (s.shutdown.captured.Some? ==> s.shutdown.captured.value !in s.tasks)
    case StopFinish => s.shutdown.Drained? && s.swap.None?
    case Start => s.shutdown.Down?
  }

  function Step(s: State, a: Action): State
    requires Enabled(s, a)
  {
    match a
    case Ask => Request(s)
    case Begin(id) => LoopHead(s, id)
    case ReconcileDone(id) => Succeed(s, id)
    case ReconcileFailed(id) => Fail(s, id)
    case Resume(id) => LoopHead(s, id)
    case CancelDelivered(id) => Cancel(s, id)
    case Install => s.(gateway := true, swap := Some(s.gateway))
    case InstallDone => CommitSwap(s)
    case InstallFailed => s.(gateway := s.swap.value, swap := None)
    case Disable => s.(gateway := false)
    case StopBegin => s.(stopping := true, shutdown := Draining(s.current), stops := s.stops + 1)
    case StopDrained => s.(current := None, shutdown := Drained)
    case StopFinish => s.(gateway := false, shutdown := Down)
    case Start => s.(stopping := false, shutdown := Up)
  }

  /** What every action does, in every state. */
  ghost predicate Follows(s: State, t: State, a: Action)
    requires Enabled(s, a)
  {
    match a
    case Ask => Asks(s, t)
    case Begin(id) => Turns(s, t, id)
    case Resume(id) => Turns(s, t, id)
    case ReconcileDone(id) => t == s.(result := Succeeded, tasks := s.tasks[id := Yielding])
    case ReconcileFailed(id) => Fails(s, t, id)
    case CancelDelivered(id) =>   // a task that never ran has no `finally` to run
      if s.tasks[id] == Created then t == s.(tasks := s.tasks - {id})
      else Closes(s.(result := if s.tasks[id] == Reconciling then Cut else s.result), t, id)
    case Install => t == s.(gateway := true, swap := Some(s.gateway))
    case InstallDone => Swapped(s, t)
    case InstallFailed => t == s.(gateway := s.swap.value, swap := None)
    case Disable => t == s.(gateway := false)
    case StopBegin => t == s.(stopping := true, shutdown := Draining(s.current), stops := s.stops + 1)
    case StopDrained => t == s.(current := None, shutdown := Drained)
    case StopFinish => t == s.(gateway := false, shutdown := Down)
    case Start => t == s.(stopping := false, shutdown := Up)
  }

  lemma StepLaw(s: State, a: Action)
    requires Enabled(s, a)
    ensures Follows(s, Step(s, a), a)
  {
    match a
    case Begin(id) => LoopHeadLaw(s, id);
    case Resume(id) => LoopHeadLaw(s, id);
    case ReconcileFailed(id) => FailLaw(s, id);
    case CancelDelivered(id) => CloseLaw(s.(result := if s.tasks[id] == Reconciling then Cut else s.result), id);
    case InstallDone => CommitSwapLaw(s);
    case _ =>
  }

  /** Requests may come at any time, every task can go on from where it is suspended, a started gateway swap can end
      either way, and a shutdown can run through to the next start. */
  lemma NeverStuck(s: State)
    ensures Enabled(s, Ask)
    ensures forall id :: id in s.tasks ==>
              match s.tasks[id]
              case Created => Enabled(s, Begin(id))
              case Reconciling => Enabled(s, ReconcileDone(id)) && Enabled(s, ReconcileFailed(id))
              case Retrying => Enabled(s, Resume(id))
              case Yielding => Enabled(s, Resume(id))
    ensures match s.swap
            case Some(_) => Enabled(s, InstallDone) && Enabled(s, InstallFailed)
            case None => Enabled(s, Disable) && (s.shutdown != Down ==> Enabled(s, Install))
    ensures match s.shutdown
            case Up => Enabled(s, StopBegin)
            case Draining(Some(id)) => if id in s.tasks then Enabled(s, CancelDelivered(id)) else Enabled(s, StopDrained)
            case Draining(None) => Enabled(s, StopDrained)
            case Drained => s.swap.None? ==> Enabled(s, StopFinish)
            case Down => Enabled(s, Start)
  {
  }

  predicate Initial(s: State) {
    !s.dirty && !s.stopping && !s.gateway && s.tasks == map[] && s.current.None? && s.swap.None? && s.shutdown.Up?
    && s.requests == s.startedAfter == 0 && s.result.NotYet? && s.stops == 0
  }

  predicate IsRun(states: seq<State>, actions: seq<Action>) {
    |states| == |actions| + 1 && Initial(states[0])
    && forall i :: 0 <= i < |actions| ==> Enabled(states[i], actions[i]) && states[i + 1] == Step(states[i], actions[i])
  }

  // ---- The invariant ----------------------------------------------------------------------------

  predicate OneTask(s: State) { forall id :: id in s.tasks ==> s.current == Some(id) && id < s.next }

  predicate ShutdownOk(s: State) {
    && (s.stopping <==> !s.shutdown.Up?)
    && (s.shutdown.Draining? ==> forall id :: id in s.tasks ==> s.shutdown.captured == Some(id))
    && (s.shutdown.Drained? || s.shutdown.Down? ==> s.tasks == map[])
    && (s.shutdown.Down? ==> !s.gateway && s.swap.None?)
    && (s.result.Cut? || s.stopping ==> s.stops > 0)
    && (s.swap.Some? ==> s.gateway)
  }

  /** Whoever may wait on the gateway that was there before a swap finds the loop alive. */
  predicate Awake(s: State) {
    s.dirty && s.gateway && !s.stopping && (s.swap.None? || s.swap.value) ==> HasLiveTask(s)
  }

  /** Nothing is owed when the flag is down. */
  predicate Covered(s: State) {
    && s.startedAfter <= s.requests
    && (s.result.InFlight? <==> exists id :: id in s.tasks && s.tasks[id].Reconciling?)
    && (!s.dirty && s.requests > 0 ==>
          s.startedAfter == s.requests && (s.result.InFlight? || s.result.Succeeded? || s.result.Cut?))
  }

  predicate Inv(s: State) { OneTask(s) && ShutdownOk(s) && Awake(s) && Covered(s) }

  lemma RequestKeeps(s: State)
    requires Inv(s)
    ensures Inv(Request(s))
  {
  }

  /** The end of the only task, once nothing is in flight. */
  lemma CloseKeeps(s: State, id: TaskId)
    requires OneTask(s) && ShutdownOk(s) && id in s.tasks
    requires s.startedAfter <= s.requests && !s.result.InFlight?
    requires !s.dirty && s.requests > 0 ==> s.startedAfter == s.requests && (s.result.Succeeded? || s.result.Cut?)
    ensures Inv(Close(s, id))
  {
  }

  lemma LoopHeadKeeps(s: State, id: TaskId)
    requires Inv(s) && id in s.tasks && !s.tasks[id].Reconciling?
    ensures Inv(LoopHead(s, id))
  {
  }

  lemma EndedKeeps(s: State, id: TaskId)
    requires Inv(s) && At(s, id, Reconciling)
    ensures Inv(Succeed(s, id)) && Inv(Fail(s, id))
  {
  }

  lemma CancelKeeps(s: State, id: TaskId)
    requires Inv(s) && id in s.tasks && s.shutdown.Draining?
    ensures Inv(Cancel(s, id))
  {
  }

  lemma StepKeeps(s: State, a: Action)
    requires Inv(s) && Enabled(s, a)
    ensures Inv(Step(s, a))
  {
    match a
    case Ask => RequestKeeps(s);
    case Begin(id) => LoopHeadKeeps(s, id);
    case Resume(id) => LoopHeadKeeps(s, id);
    case ReconcileDone(id) => EndedKeeps(s, id);
    case ReconcileFailed(id) => EndedKeeps(s, id);
    case CancelDelivered(id) => CancelKeeps(s, id);
    case InstallDone => InstallKeeps(s);
    case Install =>
    case InstallFailed =>
    case Disable =>
    case StopBegin =>
    case StopDrained => assert s.tasks == map[];
    case StopFinish =>
    case Start =>
  }

  /** The new gateway is announced to whoever asked while there was none. */
  lemma InstallKeeps(s: State)
    requires Inv(s) && s.swap.Some?
    ensures Inv(CommitSwap(s))
  {
  }

  lemma {:induction false} RunKeeps(states: seq<State>, actions: seq<Action>, n: nat)
    requires IsRun(states, actions) && n <= |actions|
    ensures Inv(states[n])
    ensures (forall i :: 0 <= i < n ==> !actions[i].StopBegin?) ==> states[n].stops == 0
  {
    if n > 0 {
      RunKeeps(states, actions, n - 1);
      StepKeeps(states[n - 1], actions[n - 1]);
    }
  }

  /** There is never more than one loop task. */
  lemma OneLoop(states: seq<State>, actions: seq<Action>, n: nat, id: TaskId, other: TaskId)
    requires IsRun(states, actions) && n <= |actions|
    requires id in states[n].tasks && other in states[n].tasks
    ensures id == other
  {
    RunKeeps(states, actions, n);
  }

  /** No capacity request is lost: outside a shutdown and outside the swap window, a raised flag with a gateway
      has a live task to lower it, and a lowered flag means that a reconciliation was started after the last
      accepted request and that it is in flight, has succeeded, or was cut off by a shutdown. */
  lemma NoLostRequest(states: seq<State>, actions: seq<Action>, n: nat)
    requires IsRun(states, actions) && n <= |actions|
    ensures var s := states[n];
            && (s.dirty && s.gateway && !s.stopping && s.swap.None? ==> HasLiveTask(s))
            && (!s.dirty && s.requests > 0 ==>
                  s.startedAfter == s.requests
                  && ((s.result.InFlight? && HasLiveTask(s) && s.tasks[s.current.value].Reconciling?)
                      || s.result.Succeeded? || s.result.Cut?))
    ensures (forall i :: 0 <= i < n ==> !actions[i].StopBegin?) ==> !states[n].result.Cut?
  {
    RunKeeps(states, actions, n);
  }
}
