/** What a worker has delivered through its bounded queue, and under which identities it
    was ever started (remote_robot/worker.py). */
module Deliveries {
  import opened Wrappers
  import opened Worker

  // ---------- the queue holds the latest deliveries ----------

  function Delivered(log: seq<Emission>): seq<Event> {
    if log == [] then []
    else
      var last := log[|log| - 1];
      Delivered(log[..|log| - 1]) + if last.delivered then [last.event] else []
  }

  ghost predicate Queued(s: State) {
    var all := Delivered(s.log);
    |s.queue| <= |all| && s.queue == all[|all| - |s.queue|..]
  }

  /** How many delivered events have been taken out of the queue. */
  ghost function Taken(s: State): int {
    |Delivered(s.log)| - |s.queue|
  }

  ghost predicate Later(s: State, s': State) {
    Queued(s') && Delivered(s.log) <= Delivered(s'.log) && Taken(s) <= Taken(s')
  }

  lemma EmitIsLater(s: State, quiet: State, event: Event)
    requires Queued(s) && quiet.log == s.log && quiet.queue == s.queue
    ensures Later(s, Emit(quiet, event))
  {
    var s' := Emit(quiet, event);
    assert s'.log[..|s'.log| - 1] == s.log;
  }

  lemma QuietIsLater(s: State, quiet: State)
    requires Queued(s) && quiet.log == s.log && quiet.queue == s.queue
    ensures Later(s, quiet)
  {
  }

  lemma StepIsLater(s: State, a: Action)
    requires Queued(s)
    ensures Later(s, Step(s, a))
  {
    hide Emit, Later, Queued, Delivered;
    QuietIsLater(s, s);
    match a
    case DoDisable => EmitIsLater(s, s.(status := Disabled, plan := None), Event(WorkerDisabled, NOBODY, 0));
    case DoPrepare(plan) =>
      QuietIsLater(s, s.(plan := None));
      EmitIsLater(s, s.(plan := Some(plan), status := Prepared), Event(PhasePrepared, plan.identity, 0));
    case DoStart(deadlineUs) => QuietIsLater(s, Start(s, deadlineUs));
    case DoWake(task, nowUs) => WakeIsLater(s, task, nowUs);
    case DoBeginStop => QuietIsLater(s, BeginStop(s));
    case DoEndStop => EmitIsLater(s, s.(status := Stopped), Event(WorkerStopped, IdentityOf(s), 0));
    case DoTake => TakeIsLater(s);
    case DoBeginClose => QuietIsLater(s, BeginStop(s));
    case DoEndClose => QuietIsLater(s, EndClose(s));
  }

  lemma WakeIsLater(s: State, task: nat, nowUs: int)
    requires Queued(s)
    ensures Later(s, Wake(s, task, nowUs))
  {
    hide Emit, Later, Queued, Delivered;
    QuietIsLater(s, s);
    QuietIsLater(s, EndTask(s, task));
    if task in s.tasks {
      if s.tasks[task].Waiting? {
        var s' := Emit(s.(status := Running), Event(PhaseStarted, IdentityOf(s), nowUs));
        EmitIsLater(s, s.(status := Running), Event(PhaseStarted, IdentityOf(s), nowUs));
        SameLog(s, s', s'.(tasks := s'.tasks[task := Executing(nowUs, nowUs + DurationUs(s))]));
        SameLog(s, s', EndTask(s', task));
      } else {
        var event := Event(PhaseCompleted, IdentityOf(s), s.tasks[task].startedUs);
        EmitIsLater(s, s.(status := Completed), event);
        SameLog(s, Emit(s.(status := Completed), event), EndTask(Emit(s.(status := Completed), event), task));
      }
    }
  }

  lemma SameLog(s: State, s': State, t: State)
    requires Later(s, s') && t.log == s'.log && t.queue == s'.queue
    ensures Later(s, t)
  {
  }

  /** Taking an event advances past exactly that delivery. */
  lemma TakeIsLater(s: State)
    requires Queued(s)
    ensures Later(s, Take(s))
    ensures s.queue != [] ==> Taken(Take(s)) == Taken(s) + 1 && Delivered(s.log)[Taken(s)] == s.queue[0]
  {
  }

  // ---------- one step of a worker ----------

  /** This phase task is alive and may wake up. */
  predicate Due(s: State, task: nat, nowUs: int) {
    task in s.tasks && s.tasks[task].DueUs() <= nowUs
  }

  /** When a worker comes into each status: only by its own call or wake-up, and only from
      where that is allowed. */
  lemma StatusExactly(s: State, a: Action)
    ensures var s' := Step(s, a);
            (s'.status.Disabled? && !s.status.Disabled? <==>
               a.DoDisable? && !s.status.Closed? && !s.status.Scheduled? && !s.status.Running? &&
               !s.status.Disabled?) &&
            (s'.status.Prepared? && !s.status.Prepared? <==>
               a.DoPrepare? && PlanOk(a.plan) && (s.status.Disabled? || s.status.Stopped? || s.status.Completed?)) &&
            (s'.status.Scheduled? && !s.status.Scheduled? <==> a.DoStart? && s.status.Prepared? && 0 <= a.deadlineUs) &&
            (s'.status.Running? && !s.status.Running? <==>
               a.DoWake? && s.status.Scheduled? && Due(s, a.task, a.nowUs) && s.tasks[a.task].Waiting?) &&
            (s'.status.Completed? && !s.status.Completed? <==>
               a.DoWake? && s.status.Running? && Due(s, a.task, a.nowUs) && s.tasks[a.task].Executing?) &&
            (s'.status.Stopped? && !s.status.Stopped? <==> a.DoEndStop? && !s.status.Stopped?) &&
            (s'.status.Closed? && !s.status.Closed? <==> a.DoEndClose? && !s.status.Closed?)
  {
  }

  /** What a step emits: at most one event, of the kind, under the identity and with the
      time that belong to it, delivered exactly when the queue has room. */
  lemma EmissionExactly(s: State, a: Action)
    ensures var log := Step(s, a).log;
            s.log <= log && |log| <= |s.log| + 1 &&
            (|log| > |s.log| ==> log[|s.log|].delivered == (|s.queue| < s.limit)) &&
            (|log| > |s.log| <==>
               (a.DoDisable? && !s.status.Closed? && !s.status.Scheduled? && !s.status.Running?) ||
               (a.DoPrepare? && PlanOk(a.plan) &&
                (s.status.Disabled? || s.status.Stopped? || s.status.Prepared? || s.status.Completed?)) ||
               (a.DoWake? && Due(s, a.task, a.nowUs) &&
                ((s.tasks[a.task].Waiting? && s.status.Scheduled?) ||
                 (s.tasks[a.task].Executing? && s.status.Running?))) ||
               a.DoEndStop?) &&
            (|log| > |s.log| ==>
               log[|s.log|].event ==
               match a
               case DoDisable => Event(WorkerDisabled, NOBODY, 0)
               case DoPrepare(plan) => Event(PhasePrepared, plan.identity, 0)
               case DoWake(task, nowUs) =>
                 if s.tasks[task].Waiting? then Event(PhaseStarted, IdentityOf(s), nowUs)
                 else Event(PhaseCompleted, IdentityOf(s), s.tasks[task].startedUs)
               case _ => Event(WorkerStopped, IdentityOf(s), 0))
  {
  }

  // ---------- identities ----------

  predicate Begun(s: State, id: Identity) {
    exists e :: e in s.started && s.started[e] == id
  }

  predicate Planned(s: State, id: Identity) {
    s.status.Prepared? && s.plan.Some? && s.plan.value.identity == id
  }

  /** The worker has been started, or can be started, under this identity. */
  predicate Known(s: State, id: Identity) {
    id.runId != "" && (Begun(s, id) || Planned(s, id))
  }

  /** No identity is started twice. */
  ghost predicate Once(s: State) {
    (forall d, e :: d in s.started && e in s.started && s.started[d] == s.started[e] && s.started[d].runId != "" ==>
     d == e) &&
    (forall id: Identity :: id.runId != "" && Planned(s, id) ==> !Begun(s, id))
  }

  /** Apart from a start and a preparation, a step neither starts nor plans anything. */
  lemma OtherSteps(s: State, a: Action)
    requires !a.DoStart? && !a.DoPrepare?
    ensures Step(s, a).started == s.started
    ensures Step(s, a).status.Prepared? ==> s.status.Prepared? && Step(s, a).plan == s.plan
  {
  }

  lemma StartStep(s: State, deadlineUs: int)
    requires Inv(s) && Start(s, deadlineUs) != s
    ensures var s' := Start(s, deadlineUs);
            !s'.status.Prepared? && s'.started == s.started[s.epoch + 1 := IdentityOf(s)] && s.epoch + 1 !in s.started
    ensures IdentityOf(s).runId != "" ==> Planned(s, IdentityOf(s))
  {
    hide PhaseEvents;
  }

  lemma PrepareStep(s: State, plan: Plan)
    ensures Prepare(s, plan).started == s.started
    ensures Prepare(s, plan).status.Prepared? && Prepare(s, plan).plan.Some? ==>
              Prepare(s, plan).plan == Some(plan) || (s.status.Prepared? && Prepare(s, plan).plan == s.plan)
  {
  }

  /** Only a preparation makes a new identity known. */
  lemma KnownBefore(s: State, a: Action, id: Identity)
    requires Inv(s) && Known(Step(s, a), id)
    ensures Known(s, id) || (a.DoPrepare? && a.plan.identity == id)
  {
    hide Inv, Disable, Prepare, Start, Wake, BeginStop, EndStop, Take, EndClose;
    var s' := Step(s, a);
    match a
    case DoStart(deadlineUs) =>
      if s' != s {
        StartStep(s, deadlineUs);
        if Begun(s', id) {
          var e :| e in s'.started && s'.started[e] == id;
          assert e != s.epoch + 1 ==> e in s.started && s.started[e] == id;
        }
      }
    case DoPrepare(plan) => PrepareStep(s, plan);
    case _ => OtherSteps(s, a);
  }

  lemma OnceKeeps(s: State, a: Action)
    requires Inv(s) && Once(s) && (a.DoPrepare? ==> !Known(s, a.plan.identity))
    ensures Once(Step(s, a))
  {
    hide Inv, Disable, Prepare, Start, Wake, BeginStop, EndStop, Take, EndClose;
    match a
    case DoStart(deadlineUs) => if Step(s, a) != s { StartStep(s, deadlineUs); }
    case DoPrepare(plan) => PrepareStep(s, plan);
    case _ => OtherSteps(s, a);
  }

  // ---------- from the log back to the starts ----------

  /** The phase events emitted under one identity. */
  function Under(log: seq<Emission>, id: Identity): seq<Emission> {
    if log == [] then []
    else
      var last := log[|log| - 1];
      Under(log[..|log| - 1], id) + if PhaseEvent(last.event) && last.event.identity == id then [last] else []
  }

  lemma {:induction false} InItsEpoch(log: seq<Emission>, m: Emission)
    requires m in log && PhaseEvent(m.event)
    ensures (m.event.kind, m.event.identity) in PhaseEvents(log, m.epoch)
    decreases |log|
  {
    var n := |log| - 1;
    if m in log[..n] {
      InItsEpoch(log[..n], m);
    } else {
      assert log[n] == m;
    }
  }

  /** Every phase event carries the identity its epoch was started with. */
  lemma PhaseEventIsBegun(s: State, m: Emission)
    requires Inv(s) && m in s.log && PhaseEvent(m.event)
    ensures m.epoch in s.started && s.started[m.epoch] == m.event.identity
  {
    hide PhaseEvents;
    InItsEpoch(s.log, m);
    var events := PhaseEvents(s.log, m.epoch);
    var i :| 0 <= i < |events| && events[i] == (m.event.kind, m.event.identity);
    assert events[i] == Script(s.started[m.epoch])[i];
  }

  /** If an identity belongs to one epoch only, its events are that epoch's events. */
  lemma {:induction false} UnderOneEpoch(log: seq<Emission>, id: Identity, epoch: nat)
    requires forall m :: m in log && PhaseEvent(m.event) ==> (m.event.identity == id <==> m.epoch == epoch)
    ensures |Under(log, id)| == |PhaseEvents(log, epoch)|
    ensures forall i :: 0 <= i < |Under(log, id)| ==> Under(log, id)[i].event.kind == PhaseEvents(log, epoch)[i].0
    ensures forall i :: 0 <= i < |Under(log, id)| ==>
              Under(log, id)[i].event.identity == id && Under(log, id)[i].epoch == epoch
    decreases |log|
  {
    if log != [] {
      var n := |log| - 1;
      assert forall m :: m in log[..n] ==> m in log;
      assert log[n] in log;
      UnderOneEpoch(log[..n], id, epoch);
    }
  }

  lemma {:induction false} UnderHolds(log: seq<Emission>, id: Identity, m: Emission)
    requires m in log && PhaseEvent(m.event) && m.event.identity == id
    ensures m in Under(log, id)
    decreases |log|
  {
    var n := |log| - 1;
    if m in log[..n] { UnderHolds(log[..n], id, m); } else { assert log[n] == m; }
  }

  lemma {:induction false} DeliveredIsLogged(log: seq<Emission>, i: nat) returns (m: Emission)
    requires i < |Delivered(log)|
    ensures m in log && m.delivered && m.event == Delivered(log)[i]
    decreases |log|
  {
    var n := |log| - 1;
    if i < |Delivered(log[..n])| { m := DeliveredIsLogged(log[..n], i); } else { m := log[n]; }
  }

  /** Both events of a phase, each exactly once, both delivered, nothing else. */
  ghost predicate WholeScript(log: seq<Emission>, id: Identity) {
    exists epoch, atUs, atUs' ::
      Under(log, id) == [Emission(epoch, Event(PhaseStarted, id, atUs), true),
                         Emission(epoch, Event(PhaseCompleted, id, atUs'), true)]
  }

  /** A delivered start and a delivered completion under an identity that was started once
      are its whole script. */
  lemma ScriptIsWhole(s: State, id: Identity, i: nat, k: nat)
    requires Inv(s) && Once(s) && id.runId != "" && i < |Delivered(s.log)| && k < |Delivered(s.log)|
    requires Delivered(s.log)[i].kind.PhaseStarted? && Delivered(s.log)[i].identity == id
    requires Delivered(s.log)[k].kind.PhaseCompleted? && Delivered(s.log)[k].identity == id
    ensures WholeScript(s.log, id)
  {
    hide Inv, PhaseEvents, Under, Delivered;
    var a := DeliveredIsLogged(s.log, i);
    var b := DeliveredIsLogged(s.log, k);
    PhaseEventIsBegun(s, a);
    var epoch := a.epoch;
    forall m | m in s.log && PhaseEvent(m.event)
      ensures m.event.identity == id <==> m.epoch == epoch
    {
      PhaseEventIsBegun(s, m);
    }
    UnderOneEpoch(s.log, id, epoch);
    UnderHolds(s.log, id, a);
    UnderHolds(s.log, id, b);
    EpochScript(s, epoch);
    var all := Under(s.log, id);
    var x :| 0 <= x < |all| && all[x] == a;
    var y :| 0 <= y < |all| && all[y] == b;
    assert x == 0 && y == 1;
    assert all == [Emission(epoch, Event(PhaseStarted, id, a.event.actualStartUs), true),
                   Emission(epoch, Event(PhaseCompleted, id, b.event.actualStartUs), true)];
  }

  lemma EpochScript(s: State, epoch: nat)
    requires Inv(s) && epoch in s.started
    ensures var events := PhaseEvents(s.log, epoch);
            |events| <= 2 && (0 < |events| ==> events[0].0 == PhaseStarted) &&
            (1 < |events| ==> events[1].0 == PhaseCompleted)
  {
    hide PhaseEvents;
    var events, script := PhaseEvents(s.log, epoch), Script(s.started[epoch]);
    assert events <= script;
    assert 0 < |events| ==> events[0] == script[0];
    assert 1 < |events| ==> events[1] == script[1];
  }
}
