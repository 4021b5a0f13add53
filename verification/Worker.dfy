/** The in-memory worker and its phase task (remote_robot/worker.py).

    Calls are atomic between awaits, so a stop or a close, which waits for a cancelled
    phase task, is two actions; a phase task advances by Wake.  The event queue is
    bounded: an event that does not fit is lost, after the status has already changed.
 */
module Worker {
  import opened Wrappers

  datatype Status = Created | Disabled | Prepared | Scheduled | Running | Completed | Stopped | Closed

  datatype Identity = Identity(runId: string, phaseId: string, executionId: string)

  const NOBODY := Identity("", "", "")

  datatype Plan = Plan(identity: Identity, durationUs: int)

  // WorkerFault stands for the fault events that other worker implementations send.
  datatype Kind = WorkerDisabled | PhasePrepared | PhaseStarted | PhaseCompleted | WorkerStopped | WorkerFault

  datatype Event = Event(kind: Kind, identity: Identity, actualStartUs: int)

  /** What the worker tried to emit: in which start epoch, and whether it fitted. */
  datatype Emission = Emission(epoch: nat, event: Event, delivered: bool)

  /** What a phase task sleeps for: the deadline of its start call, then the plan's duration. */
  datatype Stage = Waiting(deadlineUs: int) | Executing(startedUs: int, untilUs: int) {
    function DueUs(): int {
      if Waiting? then deadlineUs else untilUs
    }
  }

  datatype State = State(
    status: Status, plan: Option<Plan>,
    tasks: map<nat, Stage>,      // live phase tasks by number
    current: Option<nat>,        // the one the worker still refers to
    nextTask: nat,
    queue: seq<Event>, limit: nat,
    epoch: nat,                  // number of start_phase calls accepted so far
    started: map<nat, Identity>, // identity current at each of them
    log: seq<Emission>)

  datatype Result = Ok(identity: Identity) | StateError | SchemaError | ClosedError | QueueFull

  function Initial(limit: nat): State {
    State(Created, None, map[], None, 0, [], limit, 0, map[], [])
  }

  function IdentityOf(s: State): Identity {
    if s.plan.Some? then s.plan.value.identity else NOBODY
  }

  function Emit(s: State, event: Event): State {
    var fits := |s.queue| < s.limit;
    s.(queue := if fits then s.queue + [event] else s.queue, log := s.log + [Emission(s.epoch, event, fits)])
  }

  function EmitResult(s: State, identity: Identity): Result {
    if |s.queue| < s.limit then Ok(identity) else QueueFull
  }

  // ---------- calls ----------

  function DisableResult(s: State): Result {
    if s.status.Closed? then ClosedError
    else if s.status.Scheduled? || s.status.Running? then StateError
    else EmitResult(s, NOBODY)
  }

  function Disable(s: State): State {
    if DisableResult(s).ClosedError? || DisableResult(s).StateError? then s
    else Emit(s.(status := Disabled, plan := None), Event(WorkerDisabled, NOBODY, 0))
  }

  predicate PlanOk(plan: Plan) {
    plan.identity.runId != "" && plan.identity.phaseId != "" && plan.identity.executionId != "" && 0 <= plan.durationUs
  }

  function PrepareResult(s: State, plan: Plan): Result {
    if s.status.Closed? then ClosedError
    else if !(s.status.Disabled? || s.status.Stopped? || s.status.Prepared? || s.status.Completed?) then StateError
    else if !PlanOk(plan) then SchemaError
    else EmitResult(s, plan.identity)
  }

  /** A rejected plan clears the previous one but leaves the status alone. */
  function Prepare(s: State, plan: Plan): State {
    var result := PrepareResult(s, plan);
    if result.ClosedError? || result.StateError? then s
    else if result.SchemaError? then s.(plan := None)
    else Emit(s.(plan := Some(plan), status := Prepared), Event(PhasePrepared, plan.identity, 0))
  }

  function StartResult(s: State, deadlineUs: int): Result {
    if s.status.Closed? then ClosedError
    else if !s.status.Prepared? then StateError
    else if deadlineUs < 0 then SchemaError
    else Ok(IdentityOf(s))
  }

  function Start(s: State, deadlineUs: int): State {
    if !StartResult(s, deadlineUs).Ok? then s
    else s.(status := Scheduled, tasks := s.tasks[s.nextTask := Waiting(deadlineUs)], current := Some(s.nextTask),
            nextTask := s.nextTask + 1, epoch := s.epoch + 1, started := s.started[s.epoch + 1 := IdentityOf(s)])
  }

  function EndTask(s: State, task: nat): State {
    s.(tasks := s.tasks - {task}, current := if s.current == Some(task) then None else s.current)
  }

  /** How long the current plan makes a phase last. */
  function DurationUs(s: State): int {
    if s.plan.Some? then s.plan.value.durationUs else 0
  }

  /** A live phase task passes its next await, no sooner than it is due. */
  function Wake(s: State, task: nat, nowUs: int): State {
    if task !in s.tasks || nowUs < s.tasks[task].DueUs() then s
    else if s.tasks[task].Waiting? then
      if !s.status.Scheduled? then EndTask(s, task)
      else
        var s' := Emit(s.(status := Running), Event(PhaseStarted, IdentityOf(s), nowUs));
        if |s.queue| < s.limit
        then s'.(tasks := s'.tasks[task := Executing(nowUs, nowUs + DurationUs(s))])
        else EndTask(s', task)
    else
      if !s.status.Running? then EndTask(s, task)
      else EndTask(Emit(s.(status := Completed), Event(PhaseCompleted, IdentityOf(s), s.tasks[task].startedUs)), task)
  }

  /** Cancel the current task; it runs no further. */
  function BeginStop(s: State): State {
    if s.status.Closed? || s.current.None? then s
    else s.(tasks := s.tasks - {s.current.value}, current := None)
  }

  function EndStop(s: State): State {
    Emit(s.(status := Stopped), Event(WorkerStopped, IdentityOf(s), 0))
  }

  function Take(s: State): State {
    if s.queue == [] then s else s.(queue := s.queue[1..])
  }

  /** Closing cancels the current task just as a stop does, waits, and then sets the status. */
  function EndClose(s: State): State {
    s.(status := Closed)
  }

  // ---------- schedules ----------

  datatype Action =
    | DoDisable
    | DoPrepare(plan: Plan)
    | DoStart(deadlineUs: int)
    | DoWake(task: nat, nowUs: int)
    | DoBeginStop
    | DoEndStop
    | DoTake
    | DoBeginClose
    | DoEndClose

  function Step(s: State, a: Action): State {
    match a
    case DoDisable => Disable(s)
    case DoPrepare(plan) => Prepare(s, plan)
    case DoStart(deadlineUs) => Start(s, deadlineUs)
    case DoWake(task, nowUs) => Wake(s, task, nowUs)
    case DoBeginStop => BeginStop(s)
    case DoEndStop => EndStop(s)
    case DoTake => Take(s)
    case DoBeginClose => BeginStop(s)
    case DoEndClose => EndClose(s)
  }

  function Execute(s: State, actions: seq<Action>): State
    decreases |actions|
  {
    if actions == [] then s else Execute(Step(s, actions[0]), actions[1..])
  }

  predicate PhaseEvent(e: Event) {
    e.kind.PhaseStarted? || e.kind.PhaseCompleted?
  }

  /** What was emitted about the phase started in a given epoch, in order. */
  function PhaseEvents(log: seq<Emission>, epoch: nat): seq<(Kind, Identity)> {
    if log == [] then []
    else
      var last := log[|log| - 1];
      PhaseEvents(log[..|log| - 1], epoch) +
      (if last.epoch == epoch && PhaseEvent(last.event) then [(last.event.kind, last.event.identity)] else [])
  }

  /** started, then completed, both under the identity of the start. */
  function Script(id: Identity): seq<(Kind, Identity)> {
    [(PhaseStarted, id), (PhaseCompleted, id)]
  }

  ghost predicate Inv(s: State) {
    (forall e :: e in s.started <==> 1 <= e <= s.epoch) &&
    (forall e :: e in s.started ==> PhaseEvents(s.log, e) <= Script(s.started[e])) &&
    (forall e :: PhaseEvents(s.log, e) != [] ==> e in s.started) &&
    (s.status.Scheduled? || s.status.Running? ==>
       s.epoch in s.started && s.started[s.epoch] == IdentityOf(s) &&
       |PhaseEvents(s.log, s.epoch)| == if s.status.Scheduled? then 0 else 1)
  }

  lemma EmitEffect(s: State, event: Event)
    ensures forall e :: PhaseEvents(Emit(s, event).log, e)
                     == PhaseEvents(s.log, e) + (if e == s.epoch && PhaseEvent(event)
                                                 then [(event.kind, event.identity)] else [])
  {
    var s' := Emit(s, event);
    assert s'.log[..|s'.log| - 1] == s.log;
  }

  lemma StepKeeps(s: State, a: Action)
    requires Inv(s)
    ensures Inv(Step(s, a))
  {
    hide PhaseEvents, Emit;
    match a
    case DoDisable => EmitKeepsQuiet(s, s.(status := Disabled, plan := None), Event(WorkerDisabled, NOBODY, 0));
    case DoPrepare(plan) =>
      EmitKeepsQuiet(s, s.(plan := Some(plan), status := Prepared), Event(PhasePrepared, plan.identity, 0));
    case DoWake(task, nowUs) => WakeKeeps(s, task, nowUs);
    case DoEndStop => EmitKeepsQuiet(s, s.(status := Stopped), Event(WorkerStopped, IdentityOf(s), 0));
    case DoStart(deadlineUs) => StartKeeps(s, deadlineUs);
    case _ =>
  }

  lemma EmitKeepsQuiet(s: State, s': State, event: Event)
    requires Inv(s) && !PhaseEvent(event) && s'.log == s.log && s'.started == s.started && s'.epoch == s.epoch
    requires !s'.status.Scheduled? && !s'.status.Running?
    ensures Inv(Emit(s', event))
  {
    hide PhaseEvents;
    EmitEffect(s', event);
  }

  lemma StartKeeps(s: State, deadlineUs: int)
    requires Inv(s)
    ensures Inv(Start(s, deadlineUs))
  {
    hide PhaseEvents;
    assert s.epoch + 1 !in s.started;
  }

  lemma WakeKeeps(s: State, task: nat, nowUs: int)
    requires Inv(s)
    ensures Inv(Wake(s, task, nowUs))
  {
    hide PhaseEvents, Stage.DueUs, DurationUs, Emit;
    if task in s.tasks && s.tasks[task].DueUs() <= nowUs {
      if s.tasks[task].Waiting? {
        if s.status.Scheduled? { BeginKeeps(s, nowUs); }
      } else if s.status.Running? {
        CompleteKeeps(s, s.tasks[task].startedUs);
      }
    }
  }

  lemma BeginKeeps(s: State, nowUs: int)
    requires Inv(s) && s.status.Scheduled?
    ensures Inv(Emit(s.(status := Running), Event(PhaseStarted, IdentityOf(s), nowUs)))
  {
    hide PhaseEvents;
    EmitEffect(s.(status := Running), Event(PhaseStarted, IdentityOf(s), nowUs));
  }

  lemma CompleteKeeps(s: State, startedUs: int)
    requires Inv(s) && s.status.Running?
    ensures Inv(Emit(s.(status := Completed), Event(PhaseCompleted, IdentityOf(s), startedUs)))
  {
    hide PhaseEvents;
    EmitEffect(s.(status := Completed), Event(PhaseCompleted, IdentityOf(s), startedUs));
  }

  lemma {:induction false} ExecuteKeeps(s: State, actions: seq<Action>)
    requires Inv(s)
    ensures Inv(Execute(s, actions))
    decreases |actions|
  {
    hide Inv, Step;
    if actions != [] {
      StepKeeps(s, actions[0]);
      ExecuteKeeps(Step(s, actions[0]), actions[1..]);
    }
  }

  /** For every schedule of calls and task wake-ups, overlapping stops included, each
      accepted start emits at most one phase_started and then at most one
      phase_completed, both under the identity that was current at the start. */
  lemma OneScriptPerStart(limit: nat, actions: seq<Action>, epoch: nat)
    requires epoch in Execute(Initial(limit), actions).started
    ensures var s := Execute(Initial(limit), actions);
            PhaseEvents(s.log, epoch) <= Script(s.started[epoch])
  {
    hide Execute, PhaseEvents;
    InitialIsGood(limit);
    ExecuteKeeps(Initial(limit), actions);
  }

  lemma InitialIsGood(limit: nat)
    ensures Inv(Initial(limit))
  {
  }

  predicate Idle(s: State) {
    !s.status.Scheduled? && !s.status.Running?
  }

  /** Once a stop has returned, no phase event is emitted until the next start. */
  lemma {:induction false} SilentUntilRestarted(s: State, actions: seq<Action>)
    requires Idle(s) && forall i :: 0 <= i < |actions| ==> !actions[i].DoStart?
    ensures Idle(Execute(s, actions)) && s.log <= Execute(s, actions).log
    ensures forall i :: |s.log| <= i < |Execute(s, actions).log| ==> !PhaseEvent(Execute(s, actions).log[i].event)
    decreases |actions|
  {
    if actions != [] {
      SilentStep(s, actions[0]);
      SilentUntilRestarted(Step(s, actions[0]), actions[1..]);
    }
  }

  lemma SilentStep(s: State, a: Action)
    requires Idle(s) && !a.DoStart?
    ensures var s' := Step(s, a);
            Idle(s') && (s'.log == s.log ||
                         (|s'.log| == |s.log| + 1 && s.log <= s'.log && !PhaseEvent(s'.log[|s.log|].event)))
  {
  }

  predicate PlanLost(s: State) {
    s.status.Prepared? && s.plan.None?
  }

  /** One call makes a worker prepared without a plan exactly when it was prepared and is
      offered an invalid plan; nothing else does. */
  lemma PlanLostExactly(s: State, a: Action)
    requires !PlanLost(s)
    ensures PlanLost(Step(s, a)) <==> a.DoPrepare? && s.status.Prepared? && !PlanOk(a.plan)
  {
    hide Emit;
    match a
    case DoDisable => EmitFrame(s.(status := Disabled, plan := None), Event(WorkerDisabled, NOBODY, 0));
    case DoPrepare(plan) =>
      EmitFrame(s.(plan := Some(plan), status := Prepared), Event(PhasePrepared, plan.identity, 0));
    case DoEndStop => EmitFrame(s.(status := Stopped), Event(WorkerStopped, IdentityOf(s), 0));
    case DoWake(task, nowUs) => WakeLeavesPrepared(s, task, nowUs);
    case _ =>
  }

  lemma EmitFrame(s: State, event: Event)
    ensures Emit(s, event).status == s.status && Emit(s, event).plan == s.plan
  {
  }

  lemma WakeLeavesPrepared(s: State, task: nat, nowUs: int)
    ensures Wake(s, task, nowUs).plan == s.plan
    ensures Wake(s, task, nowUs).status.Prepared? ==> s.status.Prepared?
  {
  }

  /** Hence, as long as only valid plans are offered, prepared means planned in every run. */
  lemma {:induction false} ValidPlansAreKept(s: State, actions: seq<Action>)
    requires !PlanLost(s) && forall i :: 0 <= i < |actions| && actions[i].DoPrepare? ==> PlanOk(actions[i].plan)
    ensures !PlanLost(Execute(s, actions))
    decreases |actions|
  {
    hide Step;
    if actions != [] {
      PlanLostExactly(s, actions[0]);
      ValidPlansAreKept(Step(s, actions[0]), actions[1..]);
    }
  }

  /** A rejected plan can leave a worker prepared without any plan; a start then runs
      under no identity at all, which no caller's acknowledgement check accepts. */
  lemma PreparedWithoutPlan(good: Plan, bad: Plan, limit: nat)
    requires PlanOk(good) && !PlanOk(bad) && 2 <= limit
    ensures var s := Execute(Initial(limit), [DoDisable, DoPrepare(good), DoPrepare(bad)]);
            s.status == Prepared && s.plan == None && StartResult(s, 0) == Ok(NOBODY) && good.identity != NOBODY
  {
    var s1 := Step(Initial(limit), DoDisable);
    var s2 := Step(s1, DoPrepare(good));
    var s3 := Step(s2, DoPrepare(bad));
    assert Execute(s3, []) == s3;
    assert Execute(s2, [DoPrepare(bad)]) == s3;
    assert [DoPrepare(good), DoPrepare(bad)][1..] == [DoPrepare(bad)];
    assert Execute(s1, [DoPrepare(good), DoPrepare(bad)]) == s3;
    assert [DoDisable, DoPrepare(good), DoPrepare(bad)][1..] == [DoPrepare(good), DoPrepare(bad)];
  }

  // ---------- waiting for an event ----------

  datatype Waited = Found(event: Event, rest: seq<Event>) | Broken(rest: seq<Event>) | StillWaiting

  predicate Matches(e: Event, runId: string, executionId: string) {
    e.identity.runId == runId && e.identity.executionId == executionId
  }

  /** Events that end a wait, one way or the other. */
  predicate Decisive(e: Event, runId: string, executionId: string, expected: Kind) {
    Matches(e, runId, executionId) &&
    (e.kind == expected || e.kind.WorkerStopped? || e.kind.WorkerFault? ||
     (expected.PhaseStarted? && e.kind.PhaseCompleted?))
  }

  function Wait(events: seq<Event>, runId: string, executionId: string, expected: Kind): Waited {
    if events == [] then StillWaiting
    else if Matches(events[0], runId, executionId) && events[0].kind == expected then Found(events[0], events[1..])
    else if Decisive(events[0], runId, executionId, expected) then Broken(events[1..])
    else Wait(events[1..], runId, executionId, expected)
  }

  /** Whatever stale or irrelevant events come first, the wait is decided by the first
      decisive event and leaves everything behind it for later waits. */
  lemma {:induction false} WaitFindsFirst(events: seq<Event>, i: nat, runId: string, executionId: string,
                                          expected: Kind)
    requires i < |events| && Decisive(events[i], runId, executionId, expected)
    requires forall k :: 0 <= k < i ==> !Decisive(events[k], runId, executionId, expected)
    ensures Wait(events, runId, executionId, expected) ==
            if events[i].kind == expected then Found(events[i], events[i + 1..]) else Broken(events[i + 1..])
    decreases i
  {
    if 0 < i {
      WaitFindsFirst(events[1..], i - 1, runId, executionId, expected);
      assert events[1..][i - 1] == events[i] && events[1..][i..] == events[i + 1..];
    }
  }

  /** Waiting for the start and then for the completion of a phase finds both, in a queue
      where the two are preceded and separated by events that do not concern the phase. */
  lemma BothWaitsSucceed(events: seq<Event>, i: nat, k: nat, runId: string, executionId: string)
    requires i < k < |events| && Matches(events[i], runId, executionId) && Matches(events[k], runId, executionId)
    requires events[i].kind.PhaseStarted? && events[k].kind.PhaseCompleted?
    requires forall j :: 0 <= j < i ==> !Decisive(events[j], runId, executionId, PhaseStarted)
    requires forall j :: i < j < k ==> !Decisive(events[j], runId, executionId, PhaseCompleted)
    ensures var first := Wait(events, runId, executionId, PhaseStarted);
            first == Found(events[i], events[i + 1..]) &&
            Wait(first.rest, runId, executionId, PhaseCompleted) == Found(events[k], events[k + 1..])
  {
    WaitFindsFirst(events, i, runId, executionId, PhaseStarted);
    var rest := events[i + 1..];
    assert rest[k - i - 1] == events[k] && rest[k - i..] == events[k + 1..];
    WaitFindsFirst(rest, k - i - 1, runId, executionId, PhaseCompleted);
  }

  /** The orchestrator's loop for one worker, over the events delivered so far. */
  method WaitOne(events: seq<Event>, runId: string, executionId: string, expected: Kind) returns (w: Waited)
    ensures w == Wait(events, runId, executionId, expected)
  {
    for i := 0 to |events|
      invariant Wait(events, runId, executionId, expected) == Wait(events[i..], runId, executionId, expected)
    {
      var event := events[i];
      assert events[i..][0] == event && events[i..][1..] == events[i + 1..];
      var matches := event.identity.runId == runId && event.identity.executionId == executionId;
      if matches && event.kind == expected { return Found(event, events[i + 1..]); }
      if matches && (event.kind == WorkerStopped || event.kind == WorkerFault) { return Broken(events[i + 1..]); }
      if matches && expected == PhaseStarted && event.kind == PhaseCompleted { return Broken(events[i + 1..]); }
    }
    return StillWaiting;
  }

  // ---------- the object ----------

  class InMemoryWorker {
    var status: Status
    var plan: Option<Plan>
    var tasks: map<nat, Stage>
    var current: Option<nat>
    var nextTask: nat
    var queue: seq<Event>
    const limit: nat
    ghost var epoch: nat
    ghost var started: map<nat, Identity>
    ghost var log: seq<Emission>

    ghost function View(): State
      reads this
    {
      State(status, plan, tasks, current, nextTask, queue, limit, epoch, started, log)
    }

    constructor (limit: nat)
      ensures this.limit == limit && View() == Initial(limit) && Inv(View())
    {
      this.limit := limit;
      status, plan, tasks, current, nextTask, queue := Created, None, map[], None, 0, [];
      epoch, started, log := 0, map[], [];
      new;
      InitialIsGood(limit);
    }

    method PhaseIdentity() returns (identity: Identity)
      ensures identity == IdentityOf(View())
    {
      if plan.None? { return NOBODY; }
      return plan.value.identity;
    }

    method PutEvent(event: Event) returns (fits: bool)
      modifies this`queue, this`log
      ensures fits <==> |old(queue)| < limit
      ensures View() == Emit(old(View()), event)
    {
      fits := |queue| < limit;
      log := log + [Emission(epoch, event, fits)];
      if fits { queue := queue + [event]; }
    }

    method PrepareDisabled() returns (result: Result)
      requires Inv(View())
      modifies this
      ensures Inv(View()) && View() == Disable(old(View())) && result == DisableResult(old(View()))
    {
      hide Inv;
      StepKeeps(View(), DoDisable);
      if status == Closed { return ClosedError; }
      if status == Scheduled || status == Running { return StateError; }
      status, plan := Disabled, None;
      var fits := PutEvent(Event(WorkerDisabled, NOBODY, 0));
      return if fits then Ok(NOBODY) else QueueFull;
    }

    method PreparePhase(candidate: Plan) returns (result: Result)
      requires Inv(View())
      modifies this
      ensures Inv(View()) && View() == Prepare(old(View()), candidate) &&
              result == PrepareResult(old(View()), candidate)
    {
      hide Inv;
      StepKeeps(View(), DoPrepare(candidate));
      if status == Closed { return ClosedError; }
      if status != Disabled && status != Stopped && status != Prepared && status != Completed { return StateError; }
      plan := Some(candidate);
      if candidate.identity.runId == "" || candidate.identity.phaseId == "" || candidate.identity.executionId == "" {
        plan := None;
        return SchemaError;
      }
      if candidate.durationUs < 0 {
        plan := None;
        return SchemaError;
      }
      status := Prepared;
      var identity := PhaseIdentity();
      var fits := PutEvent(Event(PhasePrepared, identity, 0));
      return if fits then Ok(identity) else QueueFull;
    }

    method StartPhase(deadlineUs: int) returns (result: Result)
      requires Inv(View())
      modifies this
      ensures Inv(View()) && View() == Start(old(View()), deadlineUs) && result == StartResult(old(View()), deadlineUs)
    {
      hide Inv;
      StepKeeps(View(), DoStart(deadlineUs));
      if status == Closed { return ClosedError; }
      if status != Prepared { return StateError; }
      if deadlineUs < 0 { return SchemaError; }
      status := Scheduled;
      var identity := PhaseIdentity();
      epoch := epoch + 1;
      started := started[epoch := identity];
      tasks, current, nextTask := tasks[nextTask := Waiting(deadlineUs)], Some(nextTask), nextTask + 1;
      return Ok(identity);
    }

    method FinishTask(task: nat)
      modifies this`tasks, this`current
      ensures View() == EndTask(old(View()), task)
    {
      tasks := tasks - {task};
      if current == Some(task) { current := None; }
    }

    method WakeTask(task: nat, nowUs: int)
      requires Inv(View()) && task in tasks && tasks[task].DueUs() <= nowUs
      modifies this
      ensures Inv(View()) && View() == Wake(old(View()), task, nowUs)
    {
      hide Inv;
      StepKeeps(View(), DoWake(task, nowUs));
      var identity := PhaseIdentity();
      var stage := tasks[task];
      if stage.Waiting? {
        if status != Scheduled { FinishTask(task); return; }
        status := Running;
        var fits := PutEvent(Event(PhaseStarted, identity, nowUs));
        if fits {
          var durationUs := if plan.Some? then plan.value.durationUs else 0;
          tasks := tasks[task := Executing(nowUs, nowUs + durationUs)];
        } else {
          FinishTask(task);
        }
      } else {
        if status != Running { FinishTask(task); return; }
        status := Completed;
        var fits := PutEvent(Event(PhaseCompleted, identity, stage.startedUs));
        FinishTask(task);
      }
    }

    /** The part of stop() before its await: drop and cancel the current task. */
    method CancelPhaseTask() returns (result: Result)
      requires Inv(View())
      modifies this
      ensures Inv(View()) && View() == BeginStop(old(View())) && (result.ClosedError? <==> old(status) == Closed)
    {
      hide Inv;
      StepKeeps(View(), DoBeginStop);
      if status == Closed { return ClosedError; }
      if current.Some? {
        tasks := tasks - {current.value};
        current := None;
      }
      return Ok(NOBODY);
    }

    /** The part of stop() after its await. */
    method SettleStop() returns (result: Result)
      requires Inv(View())
      modifies this
      ensures Inv(View()) && View() == EndStop(old(View())) && status == Stopped
      ensures result == EmitResult(old(View()), IdentityOf(old(View())))
    {
      hide Inv;
      StepKeeps(View(), DoEndStop);
      status := Stopped;
      var identity := PhaseIdentity();
      var fits := PutEvent(Event(WorkerStopped, identity, 0));
      return if fits then Ok(identity) else QueueFull;
    }

    /** The part of close() after its await. */
    method SettleClose()
      requires Inv(View())
      modifies this
      ensures Inv(View()) && View() == EndClose(old(View())) && status == Closed
    {
      hide Inv;
      StepKeeps(View(), DoEndClose);
      status := Closed;
    }
  }
}
