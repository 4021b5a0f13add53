/** What workers answered and reported is what they did, and when: the fleet's runs and the
    workers' logs, reply by reply and start by start. */
module Answers {
  import opened Wrappers
  import Lease
  import Worker
  import Orchestrator
  import Replies
  import opened Deliveries
  import opened Fleet
  import opened Evidence

  // ---------- what a worker has delivered ----------

  predicate HasDelivered(s: Worker.State, kind: Worker.Kind) {
    exists i :: 0 <= i < |Delivered(s.log)| && Delivered(s.log)[i].kind == kind
  }

  predicate HasDeliveredAs(s: Worker.State, kind: Worker.Kind, id: Worker.Identity) {
    exists i :: 0 <= i < |Delivered(s.log)| && Delivered(s.log)[i].kind == kind && Delivered(s.log)[i].identity == id
  }

  /** The start event was delivered and taken out of the queue. */
  predicate TookStart(s: Worker.State, id: Worker.Identity, atUs: int) {
    exists i :: 0 <= i < |Delivered(s.log)| - |s.queue| &&
                Delivered(s.log)[i] == Worker.Event(Worker.PhaseStarted, id, atUs)
  }

  ghost predicate Forward(s: Worker.State, s': Worker.State) {
    Later(s, s') && forall id :: Begun(s, id) ==> Begun(s', id)
  }

  lemma StepForward(s: Worker.State, a: Worker.Action)
    requires Worker.Inv(s) && Queued(s)
    ensures Forward(s, Worker.Step(s, a))
  {
    hide Later, Queued, Worker.Inv, Worker.Disable, Worker.Prepare, Worker.Start, Worker.Wake, Worker.BeginStop,
         Worker.EndStop, Worker.Take, Worker.EndClose;
    StepIsLater(s, a);
    match a
    case DoStart(deadlineUs) => StartForward(s, deadlineUs);
    case DoPrepare(plan) => PrepareStep(s, plan);
    case _ => OtherSteps(s, a);
  }

  lemma StartForward(s: Worker.State, deadlineUs: int)
    requires Worker.Inv(s)
    ensures forall id :: Begun(s, id) ==> Begun(Worker.Start(s, deadlineUs), id)
  {
    hide Worker.Start;
    if Worker.Start(s, deadlineUs) != s {
      StartStep(s, deadlineUs);
      var s' := Worker.Start(s, deadlineUs);
      forall id | Begun(s, id)
        ensures Begun(s', id)
      {
        var e :| e in s.started && s.started[e] == id;
        assert e in s'.started && s'.started[e] == id;
      }
    }
  }

  lemma EmitDelivers(quiet: Worker.State, event: Worker.Event)
    requires |quiet.queue| < quiet.limit
    ensures var all := Delivered(Worker.Emit(quiet, event).log); all != [] && all[|all| - 1] == event
  {
    var s' := Worker.Emit(quiet, event);
    assert s'.log[..|s'.log| - 1] == quiet.log;
  }

  /** A good answer is an answer that was delivered. */
  lemma DisableDelivers(s: Worker.State)
    requires Worker.DisableResult(s).Ok?
    ensures HasDelivered(Worker.Disable(s), Worker.WorkerDisabled)
  {
    hide Worker.Emit, Delivered;
    EmitDelivers(s.(status := Worker.Disabled, plan := None), Worker.Event(Worker.WorkerDisabled, Worker.NOBODY, 0));
  }

  lemma PrepareDelivers(s: Worker.State, plan: Worker.Plan)
    requires Worker.PrepareResult(s, plan).Ok?
    ensures HasDeliveredAs(Worker.Prepare(s, plan), Worker.PhasePrepared, plan.identity)
  {
    hide Worker.Emit, Delivered;
    EmitDelivers(s.(plan := Some(plan), status := Worker.Prepared),
                 Worker.Event(Worker.PhasePrepared, plan.identity, 0));
  }

  lemma StopDelivers(s: Worker.State)
    requires |s.queue| < s.limit
    ensures HasDelivered(Worker.EndStop(s), Worker.WorkerStopped)
  {
    hide Worker.Emit, Delivered;
    EmitDelivers(s.(status := Worker.Stopped), Worker.Event(Worker.WorkerStopped, Worker.IdentityOf(s), 0));
  }

  lemma StartBegins(s: Worker.State, deadlineUs: int)
    requires Worker.Inv(s) && Worker.StartResult(s, deadlineUs).Ok?
    ensures Begun(Worker.Start(s, deadlineUs), Worker.StartResult(s, deadlineUs).identity)
    ensures s.status.Prepared? && Worker.StartResult(s, deadlineUs).identity == Worker.IdentityOf(s)
  {
    hide Worker.Inv;
    var s' := Worker.Start(s, deadlineUs);
    assert s.epoch + 1 in s'.started && s'.started[s.epoch + 1] == Worker.IdentityOf(s);
  }

  // ---------- what a run has noted ----------

  ghost predicate Told(p: Proc, s: Worker.State, run: string, w: string) {
    (Orchestrator.DidDisable(w) in p.trace ==> HasDelivered(s, Worker.WorkerDisabled)) &&
    (forall k: nat :: Orchestrator.DidPrepare(w, k) in p.trace ==>
       k < |p.program.phases| && HasDeliveredAs(s, Worker.PhasePrepared, IdOf(p, run, k))) &&
    (forall k: nat :: Orchestrator.Acknowledged(w, k) in p.trace ==>
       k < |p.program.phases| && Begun(s, IdOf(p, run, k))) &&
    (forall k: nat, atUs :: Orchestrator.SawStart(w, k, atUs) in p.trace ==>
       k < |p.program.phases| && TookStart(s, IdOf(p, run, k), atUs)) &&
    (Orchestrator.DidStop(w, true) in p.trace ==> HasDelivered(s, Worker.WorkerStopped))
  }

  /** What the worker must have done for the run to note this action. */
  ghost predicate Says(p: Proc, s: Worker.State, run: string, a: Orchestrator.Action) {
    match a
    case DisableReply(w, ok) => ok && p.pc.Disabling? && w in p.pc.pending ==> HasDelivered(s, Worker.WorkerDisabled)
    case PrepareReply(w, ok) =>
      ok && p.pc.Preparing? && w in p.pc.pending ==>
        p.pc.k < |p.program.phases| && HasDeliveredAs(s, Worker.PhasePrepared, IdOf(p, run, p.pc.k))
    case StartReply(w, ok) =>
      ok && p.pc.Scheduling? && w in p.pc.pending ==> p.pc.k < |p.program.phases| && Begun(s, IdOf(p, run, p.pc.k))
    case StartEvent(w, atUs) =>
      p.pc.AwaitingStart? && w in p.pc.pending ==>
        p.pc.k < |p.program.phases| && TookStart(s, IdOf(p, run, p.pc.k), atUs)
    case StopReply(w, ok) =>
      ok && (p.pc.Finishing? || p.pc.Failing?) && w in p.pc.stopping ==> HasDelivered(s, Worker.WorkerStopped)
    case _ => true
  }

  predicate About(a: Orchestrator.Action, w: string) {
    match a
    case DisableReply(v, _) => v == w
    case PrepareReply(v, _) => v == w
    case StartReply(v, _) => v == w
    case StartEvent(v, _) => v == w
    case StopReply(v, _) => v == w
    case _ => false
  }

  /** What a step adds to the trace, act by act. */
  lemma NewActs(p: Proc, a: Orchestrator.Action, x: Orchestrator.Act)
    requires x in Orchestrator.Step(p, a).trace && x !in p.trace
    ensures x.DidDisable? ==>
              a == Orchestrator.DisableReply(x.worker, true) && p.pc.Disabling? && x.worker in p.pc.pending
    ensures x.DidPrepare? ==>
              a == Orchestrator.PrepareReply(x.worker, true) && p.pc.Preparing? && x.worker in p.pc.pending &&
              x.k == p.pc.k
    ensures x.Acknowledged? ==>
              a == Orchestrator.StartReply(x.worker, true) && p.pc.Scheduling? && x.worker in p.pc.pending &&
              x.k == p.pc.k
    ensures x.SawStart? ==>
              a == Orchestrator.StartEvent(x.worker, x.atUs) && p.pc.AwaitingStart? && x.worker in p.pc.pending &&
              x.k == p.pc.k
    ensures x.DidStop? ==>
              a == Orchestrator.StopReply(x.worker, x.ok) && (p.pc.Finishing? || p.pc.Failing?) &&
              x.worker in p.pc.stopping
  {
    hide Orchestrator.Everyone, Orchestrator.SkewOf, Orchestrator.IsSkew, Orchestrator.SkewAcceptable;
  }

  lemma ToldByMove(p: Proc, s: Worker.State, run: string, w: string, a: Orchestrator.Action)
    requires Told(p, s, run, w) && (About(a, w) ==> Says(p, s, run, a))
    ensures Told(Orchestrator.Step(p, a), s, run, w)
  {
    hide Orchestrator.Step, HasDelivered, HasDeliveredAs, TookStart, Begun;
    var p' := Orchestrator.Step(p, a);
    Orchestrator.StepKeepsProgram(p, a);
    assert forall k: nat :: k < |p.program.phases| ==> IdOf(p', run, k) == IdOf(p, run, k);
    forall x | x in p'.trace && x !in p.trace
      ensures (x == Orchestrator.DidDisable(w) ==> HasDelivered(s, Worker.WorkerDisabled)) &&
              (x == Orchestrator.DidStop(w, true) ==> HasDelivered(s, Worker.WorkerStopped)) &&
              (x.DidPrepare? && x.worker == w ==>
                 x.k < |p.program.phases| && HasDeliveredAs(s, Worker.PhasePrepared, IdOf(p, run, x.k))) &&
              (x.Acknowledged? && x.worker == w ==> x.k < |p.program.phases| && Begun(s, IdOf(p, run, x.k))) &&
              (x.SawStart? && x.worker == w ==> x.k < |p.program.phases| && TookStart(s, IdOf(p, run, x.k), x.atUs))
    {
      NewActs(p, a, x);
    }
  }

  lemma ToldByForward(p: Proc, s: Worker.State, s': Worker.State, run: string, w: string)
    requires Told(p, s, run, w) && Forward(s, s')
    ensures Told(p, s', run, w)
  {
    hide Delivered, Queued, Begun;
    forall kind | HasDelivered(s, kind)
      ensures HasDelivered(s', kind)
    {
      var i :| 0 <= i < |Delivered(s.log)| && Delivered(s.log)[i].kind == kind;
      assert Delivered(s'.log)[i] == Delivered(s.log)[i];
    }
    forall kind, id | HasDeliveredAs(s, kind, id)
      ensures HasDeliveredAs(s', kind, id)
    {
      var i :| 0 <= i < |Delivered(s.log)| && Delivered(s.log)[i].kind == kind && Delivered(s.log)[i].identity == id;
      assert Delivered(s'.log)[i] == Delivered(s.log)[i];
    }
    forall id, atUs | TookStart(s, id, atUs)
      ensures TookStart(s', id, atUs)
    {
      var i :| 0 <= i < |Delivered(s.log)| - |s.queue| &&
               Delivered(s.log)[i] == Worker.Event(Worker.PhaseStarted, id, atUs);
      assert Delivered(s'.log)[i] == Delivered(s.log)[i];
      assert Taken(s) <= Taken(s');
    }
  }

  // ---------- the fleet ----------

  ghost predicate ToldInv(f: Fleet) {
    forall run, w :: run in f.procs && w in f.workers ==> Told(f.procs[run], f.workers[w], run, w)
  }

  lemma PutTold(f: Fleet, w: string, s: Worker.State)
    requires ToldInv(f) && w in f.workers && Forward(f.workers[w], s)
    ensures ToldInv(Put(f, w, s))
  {
    hide Told, Forward;
    forall run | run in f.procs { ToldByForward(f.procs[run], f.workers[w], s, run, w); }
  }

  lemma MoveTold(f: Fleet, run: string, a: Orchestrator.Action)
    requires ToldInv(f) && run in f.procs
    requires forall w :: w in f.workers && About(a, w) ==> Says(f.procs[run], f.workers[w], run, a)
    ensures ToldInv(Move(f, run, a))
  {
    hide Told, Says, Orchestrator.Step, SamePrograms;
    forall w | w in f.workers { ToldByMove(f.procs[run], f.workers[w], run, w, a); }
  }

  lemma WorkerFacts(f: Fleet, w: string)
    requires EvidenceInv(f) && w in f.workers
    ensures Worker.Inv(f.workers[w]) && Queued(f.workers[w])
  {
    hide PairOk, RunOk, NoStrangers;
    assert WorkerOk(f.workers[w]);
  }

  /** A worker's own step alone. */
  lemma StepTold(f: Fleet, w: string, a: Worker.Action)
    requires ToldInv(f) && EvidenceInv(f) && w in f.workers
    ensures ToldInv(Put(f, w, Worker.Step(f.workers[w], a)))
  {
    hide ToldInv, EvidenceInv, Worker.Step, Forward, Worker.Inv, Queued;
    WorkerFacts(f, w);
    StepForward(f.workers[w], a);
    PutTold(f, w, Worker.Step(f.workers[w], a));
  }

  lemma DisableTold(f: Fleet, run: string, w: string)
    requires ToldInv(f) && EvidenceInv(f) && run in f.procs && w in f.workers
    ensures ToldInv(Disable(f, run, w))
  {
    hide ToldInv, EvidenceInv, Move, SamePrograms, Worker.Disable, Worker.DisableResult, HasDelivered;
    var s := f.workers[w];
    StepTold(f, w, Worker.DoDisable);
    if Worker.DisableResult(s).Ok? { DisableDelivers(s); }
    if f.procs[run].pc.Disabling? && w in f.procs[run].pc.pending {
      MoveTold(Put(f, w, Worker.Disable(s)), run, Orchestrator.DisableReply(w, Worker.DisableResult(s).Ok?));
    }
  }

  lemma PrepareTold(f: Fleet, run: string, w: string)
    requires ToldInv(f) && EvidenceInv(f) && run in f.procs && w in f.workers
    ensures ToldInv(Prepare(f, run, w))
  {
    hide ToldInv, EvidenceInv, Move, SamePrograms, Worker.Prepare, Worker.PrepareResult, HasDeliveredAs;
    var p, s := f.procs[run], f.workers[w];
    if p.pc.Preparing? && w in p.pc.pending && p.pc.k < |p.program.phases| {
      var plan := PlanFor(p, run, p.pc.k);
      StepTold(f, w, Worker.DoPrepare(plan));
      if Worker.PrepareResult(s, plan).Ok? { PrepareDelivers(s, plan); }
      MoveTold(Put(f, w, Worker.Prepare(s, plan)), run,
               Orchestrator.PrepareReply(w, Worker.PrepareResult(s, plan).Ok?));
    }
  }

  /** A start that is acknowledged under the run's and the phase's ids began that very phase. */
  lemma AcknowledgedIsOwn(p: Proc, s: Worker.State, run: string, w: string, deadlineUs: int, k: nat)
    requires WorkerOk(s) && Sourced(p, s, run, w) && DistinctExecutions(p.program) && run != "" &&
             k < |p.program.phases|
    requires Worker.StartResult(s, deadlineUs).Ok?
    requires var id := Worker.StartResult(s, deadlineUs).identity;
             id.runId == run && id.executionId == p.program.phases[k].executionId
    ensures Begun(Worker.Start(s, deadlineUs), IdOf(p, run, k))
  {
    hide Worker.Inv, Queued, Once, Worker.Start, Begun, NotYet;
    StartBegins(s, deadlineUs);
    var id := Worker.IdentityOf(s);
    IsPlanned(s);
    var j: nat :| j < |p.program.phases| && id == IdOf(p, run, j) && !NotYet(p, j, w);
    assert p.program.phases[j].executionId == p.program.phases[k].executionId;
  }

  lemma IsPlanned(s: Worker.State)
    requires s.status.Prepared? && Worker.IdentityOf(s).runId != ""
    ensures Known(s, Worker.IdentityOf(s))
  {
  }

  lemma StartTold(f: Fleet, run: string, w: string, deadlineUs: nat)
    requires ToldInv(f) && EvidenceInv(f) && Inv(f) && run in f.procs && w in f.workers
    ensures ToldInv(Start(f, run, w, deadlineUs))
  {
    hide ToldInv, EvidenceInv, Inv, Move, SamePrograms, Worker.Start, Worker.StartResult, Begun, WorkerOk, Sourced,
         DistinctExecutions;
    var p, s := f.procs[run], f.workers[w];
    if p.pc.Scheduling? && w in p.pc.pending && p.pc.k < |p.program.phases| {
      StepTold(f, w, Worker.DoStart(deadlineUs));
      PairFacts(f, run, w);
      NamedRun(f, run);
      var result := Worker.StartResult(s, deadlineUs);
      var good := result.Ok? && result.identity.runId == run &&
        result.identity.executionId == p.program.phases[p.pc.k].executionId;
      if good { AcknowledgedIsOwn(p, s, run, w, deadlineUs, p.pc.k); }
      MoveTold(Put(f, w, Worker.Start(s, deadlineUs)), run, Orchestrator.StartReply(w, good));
    }
  }

  lemma PairFacts(f: Fleet, run: string, w: string)
    requires EvidenceInv(f) && run in f.procs && w in f.workers
    ensures WorkerOk(f.workers[w]) && Sourced(f.procs[run], f.workers[w], run, w)
    ensures DistinctExecutions(f.procs[run].program)
  {
    hide WorkerOk, Sourced, Backed, EndsSeen, Legal;
    assert PairOk(f.procs[run], f.workers[w], run, w) && RunOk(f.procs[run]);
  }

  /** Taking a start event out of the queue, under the identity of the phase. */
  lemma HeardIsTaken(p: Proc, s: Worker.State, run: string, w: string, k: nat)
    requires WorkerOk(s) && Sourced(p, s, run, w) && DistinctExecutions(p.program) && run != "" &&
             k < |p.program.phases|
    requires s.queue != [] && s.queue[0].kind.PhaseStarted?
    requires Worker.Matches(s.queue[0], run, p.program.phases[k].executionId)
    ensures TookStart(Worker.Take(s), IdOf(p, run, k), s.queue[0].actualStartUs)
  {
    hide Worker.Inv, Once, Worker.Take, Delivered, Sourced;
    TakeIsLater(s);
    TakeKeepsLog(s);
    EventIdentity(p, s, run, w, k, Taken(s));
    assert Delivered(s.log)[Taken(s)] == Worker.Event(Worker.PhaseStarted, IdOf(p, run, k), s.queue[0].actualStartUs);
  }

  lemma HearTold(f: Fleet, run: string, w: string)
    requires ToldInv(f) && EvidenceInv(f) && Inv(f) && run in f.procs && w in f.workers
    ensures ToldInv(Hear(f, run, w))
  {
    hide ToldInv, EvidenceInv, Inv, Move, SamePrograms, Worker.Take, TookStart, WorkerOk, Sourced, DistinctExecutions;
    var p, s := f.procs[run], f.workers[w];
    PairFacts(f, run, w);
    NamedRun(f, run);
    StepTold(f, w, Worker.DoTake);
    var h := Put(f, w, Worker.Take(s));
    MoveTold(f, run, Orchestrator.BadEvent(w));
    MoveTold(h, run, Orchestrator.BadEvent(w));
    MoveTold(h, run, Orchestrator.EndEvent(w));
    if p.pc.AwaitingStart? && p.pc.k < |p.program.phases| && s.queue != [] && s.queue[0].kind.PhaseStarted? &&
       Worker.Matches(s.queue[0], run, p.program.phases[p.pc.k].executionId) {
      HeardIsTaken(p, s, run, w, p.pc.k);
      MoveTold(h, run, Orchestrator.StartEvent(w, s.queue[0].actualStartUs));
    }
  }

  lemma StopsTold(f: Fleet, run: string, w: string)
    requires ToldInv(f) && EvidenceInv(f) && run in f.procs && w in f.workers
    ensures ToldInv(StopBegins(f, run, w)) && ToldInv(StopEnds(f, run, w))
  {
    hide ToldInv, EvidenceInv, Move, Worker.BeginStop, Worker.EndStop, HasDelivered;
    var s := f.workers[w];
    StepTold(f, w, Worker.DoBeginStop);
    StepTold(f, w, Worker.DoEndStop);
    var h := Put(f, w, Worker.BeginStop(s));
    MoveTold(h, run, Orchestrator.StopBegan(w));
    MoveTold(Move(h, run, Orchestrator.StopBegan(w)), run, Orchestrator.StopReply(w, false));
    if |s.queue| < s.limit { StopDelivers(s); }
    MoveTold(Put(f, w, Worker.EndStop(s)), run, Orchestrator.StopReply(w, |s.queue| < s.limit));
  }

  lemma BeginTold(f: Fleet, run: string, program: Orchestrator.Program, request: Lease.Request, nowNs: int)
    requires ToldInv(f)
    ensures ToldInv(Begin(f, run, program, request, nowNs))
  {
    hide Told, Admissible, Orchestrator.Everyone, Lease.Acquire, Lease.AcquireStep, Free;
    forall s: Worker.State, w { NothingTold(program, s, run, w); }
  }

  lemma NothingTold(program: Orchestrator.Program, s: Worker.State, run: string, w: string)
    ensures Told(Orchestrator.Begin(program), s, run, w)
  {
  }

  lemma LeasesAsideTold(f: Fleet, leases: Lease.Leases)
    requires ToldInv(f)
    ensures ToldInv(f.(leases := leases))
  {
    hide Told;
  }

  lemma NextTold(f: Fleet, e: Event)
    requires ToldInv(f) && EvidenceInv(f) && Inv(f)
    ensures ToldInv(Next(f, e))
  {
    hide ToldInv, EvidenceInv, Inv, SamePrograms, Begin, Disable, Prepare, Start, Hear, StopBegins, StopEnds, Move, Put,
         Worker.Wake, Worker.EndClose, Worker.BeginStop, Lease.ReleaseStep;
    match e
    case Execute(run, program, request, nowNs) => BeginTold(f, run, program, request, nowNs);
    case Journalled(run, ok) => if run in f.procs { MoveTold(f, run, Orchestrator.Journalled(ok)); }
    case CallDisable(run, w) => if run in f.procs && w in f.workers { DisableTold(f, run, w); }
    case CallPrepare(run, w) => if run in f.procs && w in f.workers { PrepareTold(f, run, w); }
    case CallStart(run, w, deadlineUs) => if run in f.procs && w in f.workers { StartTold(f, run, w, deadlineUs); }
    case Receive(run, w) => if run in f.procs && w in f.workers { HearTold(f, run, w); }
    case Interrupt(run) => if run in f.procs { MoveTold(f, run, Orchestrator.Interrupt); }
    case BeginStop(run, w) => if run in f.procs && w in f.workers { StopsTold(f, run, w); }
    case EndStop(run, w) => if run in f.procs && w in f.workers { StopsTold(f, run, w); }
    case Release(run) =>
      if run in f.procs {
        var h := f.(leases := Lease.ReleaseStep(f.leases, run));
        LeasesAsideTold(f, Lease.ReleaseStep(f.leases, run));
        MoveTold(h, run, Orchestrator.LeaseReleased);
      }
    case Wake(w, task, nowUs) => if w in f.workers { StepTold(f, w, Worker.DoWake(task, nowUs)); }
    case BeginClose(w) => if w in f.workers { StepTold(f, w, Worker.DoBeginClose); }
    case EndClose(w) => if w in f.workers { StepTold(f, w, Worker.DoEndClose); }
  }

  lemma {:induction false} HistoryTold(f: Fleet, events: seq<Event>)
    requires ToldInv(f) && EvidenceInv(f) && Inv(f) && forall i :: 0 <= i < |events| ==> Distinct(events[i])
    ensures ToldInv(History(f, events))
    decreases |events|
  {
    hide ToldInv, EvidenceInv, Inv, Next, Distinct;
    if events != [] {
      NextTold(f, events[0]);
      NextOk(f, events[0]);
      NextKeeps(f, events[0]);
      HistoryTold(Next(f, events[0]), events[1..]);
    }
  }

  // ---------- replies are fair ----------

  /** What a run is told is what the worker's state warrants, bad or good: a call fails
      exactly when the worker may not take it or its queue is full, and a start counts
      exactly when the worker was prepared with a plan of this run and this phase. */
  lemma RepliesAreFair(f: Fleet, run: string, w: string, deadlineUs: nat)
    requires Inv(f) && run in f.procs && w in f.workers
    ensures var p, s := f.procs[run], f.workers[w];
            var room := |s.queue| < s.limit;
            (p.pc.Disabling? && w in p.pc.pending ==>
               Next(f, CallDisable(run, w)).procs[run] ==
               Orchestrator.Step(p, Orchestrator.DisableReply(w,
                 !s.status.Closed? && !s.status.Scheduled? && !s.status.Running? && room))) &&
            (p.pc.Preparing? && w in p.pc.pending ==>
               p.pc.k < |p.program.phases| &&
               Next(f, CallPrepare(run, w)).procs[run] ==
               Orchestrator.Step(p, Orchestrator.PrepareReply(w,
                 (s.status.Disabled? || s.status.Stopped? || s.status.Prepared? || s.status.Completed?) &&
                 Worker.PlanOk(PlanFor(p, run, p.pc.k)) && room))) &&
            (p.pc.Scheduling? && w in p.pc.pending ==>
               p.pc.k < |p.program.phases| &&
               Next(f, CallStart(run, w, deadlineUs)).procs[run] ==
               Orchestrator.Step(p, Orchestrator.StartReply(w,
                 s.status.Prepared? && s.plan.Some? && s.plan.value.identity.runId == run &&
                 s.plan.value.identity.executionId == p.program.phases[p.pc.k].executionId))) &&
            ((p.pc.Finishing? || p.pc.Failing?) && w in p.pc.stopping ==>
               Next(f, EndStop(run, w)).procs[run] == Orchestrator.Step(p, Orchestrator.StopReply(w, room)))
  {
    hide Orchestrator.Step, Lease.Exact, Lease.CanonicalKey, Admissible, WorkerInv;
    assert ProcInv(f, run);
    NamedRun(f, run);
  }

  // ---------- when a phase was started ----------

  /** This event wakes the worker's waiting task, no sooner than its deadline, and so begins
      the phase `id` at `atUs`. */
  predicate StartsNow(f: Fleet, e: Event, w: string, id: Worker.Identity, atUs: int) {
    e.Wake? && e.worker == w && e.nowUs == atUs && w in f.workers &&
    var s := f.workers[w];
    s.status.Scheduled? && e.task in s.tasks && s.tasks[e.task].Waiting? && s.tasks[e.task].deadlineUs <= e.nowUs &&
    Worker.IdentityOf(s) == id
  }

  /** Some wake-up in this history began the phase `id` on the worker at `atUs`. */
  ghost predicate Woke(f: Fleet, events: seq<Event>, w: string, id: Worker.Identity, atUs: int)
    decreases |events|
  {
    events != [] && (StartsNow(f, events[0], w, id, atUs) || Woke(Next(f, events[0]), events[1..], w, id, atUs))
  }

  /** Only waking a waiting task reports a start, under the current identity and with the
      time of the wake-up. */
  lemma StartEmission(s: Worker.State, a: Worker.Action)
    ensures var log := Worker.Step(s, a).log;
            s.log <= log && |log| <= |s.log| + 1 &&
            (|log| > |s.log| && log[|s.log|].event.kind.PhaseStarted? ==>
               a.DoWake? && s.status.Scheduled? && Due(s, a.task, a.nowUs) && s.tasks[a.task].Waiting? &&
               log[|s.log|].event == Worker.Event(Worker.PhaseStarted, Worker.IdentityOf(s), a.nowUs))
  {
  }

  /** What an event does to a worker: nothing, or one step of it, a wake-up being its own. */
  lemma WorkerMoves(f: Fleet, e: Event, w: string) returns (a: Option<Worker.Action>)
    requires w in f.workers
    ensures var g := Next(f, e);
            w in g.workers &&
            g.workers[w] == (if a.Some? then Worker.Step(f.workers[w], a.value) else f.workers[w]) &&
            (a.Some? && a.value.DoWake? ==> e == Wake(w, a.value.task, a.value.nowUs))
  {
    hide SamePrograms, Worker.Disable, Worker.Prepare, Worker.Start, Worker.Wake, Worker.BeginStop, Worker.EndStop,
         Worker.Take, Worker.EndClose, Worker.DisableResult, Worker.PrepareResult, Worker.StartResult, Worker.Decisive,
         Orchestrator.Step, Lease.ReleaseStep, Lease.Acquire, Lease.AcquireStep, Admissible, Orchestrator.Everyone,
         Free;
    var s, s' := f.workers[w], Next(f, e).workers[w];
    if s' == s { return None; }
    match e
    case CallDisable(run, _) => a := Some(Worker.DoDisable);
    case CallPrepare(run, _) => a := Some(Worker.DoPrepare(PlanFor(f.procs[run], run, f.procs[run].pc.k)));
    case CallStart(_, _, deadlineUs) => a := Some(Worker.DoStart(deadlineUs));
    case Receive(_, _) => a := Some(Worker.DoTake);
    case BeginStop(_, _) => a := Some(Worker.DoBeginStop);
    case EndStop(_, _) => a := Some(Worker.DoEndStop);
    case Wake(_, task, nowUs) => a := Some(Worker.DoWake(task, nowUs));
    case BeginClose(_) => a := Some(Worker.DoBeginClose);
    case EndClose(_) => a := Some(Worker.DoEndClose);
  }

  /** Every start event that a history adds to a worker's log comes from a wake-up of that
      history, which began that phase at the reported time. */
  lemma {:induction false} StartsAreWoken(f: Fleet, events: seq<Event>, w: string, i: nat)
    requires w in f.workers && w in History(f, events).workers
    requires |f.workers[w].log| <= i < |History(f, events).workers[w].log|
    requires History(f, events).workers[w].log[i].event.kind.PhaseStarted?
    ensures var event := History(f, events).workers[w].log[i].event;
            Woke(f, events, w, event.identity, event.actualStartUs)
    ensures f.workers[w].log <= History(f, events).workers[w].log
    decreases |events|
  {
    hide Next, Worker.Step;
    if events != [] {
      var g := Next(f, events[0]);
      var a := WorkerMoves(f, events[0], w);
      if a.Some? { StartEmission(f.workers[w], a.value); }
      LogGrows(g, events[1..], w);
      if |g.workers[w].log| <= i { StartsAreWoken(g, events[1..], w, i); }
    }
  }

  lemma {:induction false} LogGrows(f: Fleet, events: seq<Event>, w: string)
    requires w in f.workers
    ensures w in History(f, events).workers && f.workers[w].log <= History(f, events).workers[w].log
    decreases |events|
  {
    hide Next, Worker.Step;
    if events != [] {
      var a := WorkerMoves(f, events[0], w);
      if a.Some? { StartEmission(f.workers[w], a.value); }
      LogGrows(Next(f, events[0]), events[1..], w);
    }
  }

  lemma PristineIsTold(f: Fleet)
    requires Pristine(f)
    ensures ToldInv(f)
  {
  }

  /** In every fleet history, a start time that a run has noted for a worker is the clock
      time of a wake-up that began that phase on the worker under the run's identity. */
  lemma ReportedStartIsWake(f: Fleet, events: seq<Event>, run: string, w: string, k: nat, atUs: int)
    requires Pristine(f) && forall i :: 0 <= i < |events| ==> Distinct(events[i])
    requires var g := History(f, events);
             run in g.procs && w in g.workers && w in f.workers &&
             Orchestrator.SawStart(w, k, atUs) in g.procs[run].trace
    ensures var p := History(f, events).procs[run];
            k < |p.program.phases| && Woke(f, events, w, IdOf(p, run, k), atUs)
  {
    hide History, Inv, EvidenceInv, Distinct, Woke, Delivered, Pristine;
    PristineIsOk(f);
    PristineIsTold(f);
    HistoryTold(f, events);
    var g := History(f, events);
    var p, s := g.procs[run], g.workers[w];
    assert Told(p, s, run, w);
    var id := IdOf(p, run, k);
    var i :| 0 <= i < |Delivered(s.log)| - |s.queue| &&
             Delivered(s.log)[i] == Worker.Event(Worker.PhaseStarted, id, atUs);
    var m := DeliveredIsLogged(s.log, i);
    var n :| 0 <= n < |s.log| && s.log[n] == m;
    LogStartsEmpty(f, w);
    StartsAreWoken(f, events, w, n);
  }

  lemma LogStartsEmpty(f: Fleet, w: string)
    requires Pristine(f) && w in f.workers
    ensures f.workers[w].log == []
  {
  }

  lemma WorkersRemain(f: Fleet, events: seq<Event>)
    ensures History(f, events).workers.Keys == f.workers.Keys
    decreases |events|
  {
    hide Next;
    if events != [] {
      KeysRemain(f, events[0]);
      WorkersRemain(Next(f, events[0]), events[1..]);
    }
  }

  lemma KeysRemain(f: Fleet, e: Event)
    ensures Next(f, e).workers.Keys == f.workers.Keys
  {
    hide Worker.Disable, Worker.Prepare, Worker.Start, Worker.Wake, Worker.BeginStop, Worker.EndStop, Worker.Take,
         Worker.EndClose, Worker.DisableResult, Worker.PrepareResult, Worker.StartResult, Worker.Decisive,
         Orchestrator.Step, Lease.ReleaseStep, Lease.Acquire, Lease.AcquireStep, Admissible, Orchestrator.Everyone,
         Free, SamePrograms;
  }

  /** A completed phase really started together: each of its workers was woken into it under
      the run's identity, and no two of those wake-ups are further apart than the limit. */
  lemma CompletedPhaseStartedTogether(f: Fleet, events: seq<Event>, run: string, k: nat)
    returns (starts: map<string, int>)
    requires Pristine(f) && forall i :: 0 <= i < |events| ==> Distinct(events[i])
    requires var g := History(f, events);
             run in g.procs && Orchestrator.PhaseCompleted(k) in g.procs[run].journal
    ensures var p := History(f, events).procs[run];
            k < |p.program.phases| && starts.Keys == Orchestrator.WorkersOf(p.program, k) &&
            (forall w :: w in starts ==> Woke(f, events, w, IdOf(p, run, k), starts[w])) &&
            (p.program.maxSkewUs.Some? ==>
               forall a, b :: a in starts && b in starts ==> starts[a] - starts[b] <= p.program.maxSkewUs.value)
  {
    hide History, Inv, EvidenceInv, Distinct, Woke, Pristine, Orchestrator.JournalInv, Orchestrator.Ordered,
         Replies.Vouched;
    PristineIsOk(f);
    PristineIsFresh(f);
    HistoryOk(f, events);
    EveryRunFollowsProtocol(f, events, run);
    var g := History(f, events);
    var p := g.procs[run];
    starts :| starts.Keys == Orchestrator.WorkersOf(p.program, k) && Orchestrator.IsSkew(starts, p.skews[k]) &&
              forall w :: w in starts ==> Orchestrator.SawStart(w, k, starts[w]) in p.trace;
    WorkersRemain(f, events);
    forall w | w in starts
      ensures k < |p.program.phases| && Woke(f, events, w, IdOf(p, run, k), starts[w])
    {
      StaffedHere(g, run, k, w);
      ReportedStartIsWake(f, events, run, w, k, starts[w]);
    }
    HasWorkers(starts, p.skews[k]);
    var w0 :| w0 in starts;
  }

  lemma HasWorkers(starts: map<string, int>, skew: int)
    requires Orchestrator.IsSkew(starts, skew)
    ensures starts != map[] && exists w :: w in starts
  {
  }

  lemma PristineIsFresh(f: Fleet)
    requires Pristine(f)
    ensures Fresh(f)
  {
  }

  lemma StaffedHere(g: Fleet, run: string, k: nat, w: string)
    requires EvidenceInv(g) && run in g.procs && w in Orchestrator.WorkersOf(g.procs[run].program, k)
    ensures w in g.workers
  {
    hide WorkerOk, PairOk, RunOk, NoStrangers;
    assert Staffed(g, g.procs[run]);
    InEveryone(g.procs[run].program.phases, k, w);
  }

  // ---------- journal entries and workers ----------

  lemma RunIsStaffed(g: Fleet, run: string)
    requires EvidenceInv(g) && run in g.procs
    ensures Orchestrator.Everyone(g.procs[run].program) <= g.workers.Keys
  {
    hide WorkerOk, PairOk, RunOk, NoStrangers, Orchestrator.Everyone;
    assert Staffed(g, g.procs[run]);
  }

  /** What the entries of a run's journal say of the workers is what the workers did. */
  ghost predicate Truthful(p: Proc, workers: map<string, Worker.State>, run: string) {
    (Orchestrator.WorkersDisabled in p.journal ==>
       forall w :: w in Orchestrator.Everyone(p.program) && w in workers ==>
         HasDelivered(workers[w], Worker.WorkerDisabled)) &&
    (forall k: nat, w :: Orchestrator.PhasePrepared(k) in p.journal && w in Orchestrator.WorkersOf(p.program, k) &&
                         w in workers ==>
       k < |p.program.phases| && HasDeliveredAs(workers[w], Worker.PhasePrepared, IdOf(p, run, k))) &&
    (forall k: nat, w :: Orchestrator.PhaseScheduled(k) in p.journal && w in Orchestrator.WorkersOf(p.program, k) &&
                         w in workers ==>
       k < |p.program.phases| && Begun(workers[w], IdOf(p, run, k))) &&
    (Orchestrator.RunCompleted in p.journal ==>
       forall w :: w in Orchestrator.Everyone(p.program) && w in workers ==>
         HasDelivered(workers[w], Worker.WorkerStopped))
  }

  lemma VouchedIsTruthful(p: Proc, workers: map<string, Worker.State>, run: string)
    requires Replies.Vouched(p) && forall w :: w in workers ==> Told(p, workers[w], run, w)
    ensures Truthful(p, workers, run)
  {
    hide HasDelivered, HasDeliveredAs, TookStart, Begun, Orchestrator.Everyone, Replies.NoStopFailed,
         Replies.AllReported;
  }

  /** In every fleet history: workers.disabled is written only when every participant has
      delivered its disabled answer; phase.prepared only when every worker of the phase has
      delivered its acceptance of that very phase; phase.scheduled only when every worker
      of the phase has begun that very phase; run.completed only when every participant
      has delivered that it stopped. */
  lemma JournalIsTruthful(f: Fleet, events: seq<Event>, run: string)
    requires Pristine(f) && forall i :: 0 <= i < |events| ==> Distinct(events[i])
    requires run in History(f, events).procs
    ensures Orchestrator.Everyone(History(f, events).procs[run].program) <= History(f, events).workers.Keys
    ensures Truthful(History(f, events).procs[run], History(f, events).workers, run)
  {
    hide History, Inv, EvidenceInv, Distinct, Pristine, Told, Truthful, Replies.Vouched, Orchestrator.JournalInv,
         Orchestrator.Ordered, Orchestrator.SkewRecorded;
    PristineIsOk(f);
    PristineIsFresh(f);
    PristineIsTold(f);
    HistoryTold(f, events);
    HistoryOk(f, events);
    RunIsStaffed(History(f, events), run);
    EveryRunFollowsProtocol(f, events, run);
    VouchedIsTruthful(History(f, events).procs[run], History(f, events).workers, run);
  }

  // ---------- where a run's program comes from ----------

  /** The program of a run is one that was submitted under its id. */
  ghost predicate Submitted(events: seq<Event>, run: string, program: Orchestrator.Program) {
    exists i :: 0 <= i < |events| && events[i].Execute? && events[i].run == run && events[i].program == program
  }

  lemma ProgramStep(f: Fleet, e: Event, run: string)
    requires run in Next(f, e).procs
    ensures (run in f.procs && Next(f, e).procs[run].program == f.procs[run].program) ||
            (e.Execute? && e.run == run && Next(f, e).procs[run].program == e.program)
  {
    hide Disable, Prepare, Start, Hear, StopBegins, StopEnds, ReleaseLease, Move, Lease.AcquireStep, Lease.Acquire,
         Admissible, Orchestrator.Everyone, Free, Worker.Wake, Worker.EndClose, Worker.BeginStop;
  }

  lemma {:induction false} ProgramsAreSubmitted(f: Fleet, events: seq<Event>, run: string)
    requires run in History(f, events).procs
    ensures (run in f.procs && History(f, events).procs[run].program == f.procs[run].program) ||
            Submitted(events, run, History(f, events).procs[run].program)
    decreases |events|
  {
    hide Next;
    if events != [] {
      var g := Next(f, events[0]);
      ProgramsAreSubmitted(g, events[1..], run);
      var program := History(f, events).procs[run].program;
      if Submitted(events[1..], run, program) {
        var i :| 0 <= i < |events[1..]| && events[1..][i].Execute? && events[1..][i].run == run &&
                 events[1..][i].program == program;
        assert events[i + 1] == events[1..][i];
      } else {
        ProgramStep(f, events[0], run);
        assert events[0].Execute? ==> events[0] == events[0];
      }
    }
  }
}
