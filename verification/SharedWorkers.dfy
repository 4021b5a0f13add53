/** What a shared worker does to the barrier between preparing and starting: the start call
    runs whatever plan the worker holds (remote_robot/worker.py, remote_robot/orchestrator.py). */
module SharedWorkers {
  import opened Wrappers
  import Lease
  import Worker
  import Orchestrator
  import opened Deliveries
  import opened Fleet
  import opened Evidence

  // ---------- one start call ----------

  /** The call makes the worker begin a phase of another run. */
  ghost predicate StartsForeign(f: Fleet, g: Fleet, run: string, w: string)
    requires w in f.workers && w in g.workers
  {
    var epoch := g.workers[w].epoch;
    epoch == f.workers[w].epoch + 1 && epoch in g.workers[w].started && g.workers[w].started[epoch].runId != run
  }

  /** A start call begins another run's phase exactly when the caller is scheduling this
      worker and the worker is prepared with a plan of that other run. */
  lemma ForeignStartExactly(f: Fleet, run: string, w: string, deadlineUs: nat)
    requires Inv(f) && run in f.procs && w in f.workers
    ensures var g := Next(f, CallStart(run, w, deadlineUs));
            var pc, s := f.procs[run].pc, f.workers[w];
            w in g.workers &&
            (StartsForeign(f, g, run, w) <==>
               pc.Scheduling? && w in pc.pending && s.status.Prepared? && s.plan.Some? &&
               s.plan.value.identity.runId != run)
  {
    hide Lease.Exact, Admissible, Lease.CanonicalKey, PlannedIn, Orchestrator.Step;
    assert ProcInv(f, run) && WorkerInv(f, w);
  }

  // ---------- a guarded worker is only ever started by its own run ----------

  lemma NotReleased(pc: Orchestrator.Pc, w: string)
    requires Driving(pc, w)
    ensures !pc.Released?
  {
  }

  /** The plan of a guarded worker that a run is about to start is that run's own. */
  lemma PlanIsOwn(f: Fleet, run: string, w: string, guard: Lease.Target)
    requires Inv(f) && Guarded(f, w, guard) && run in f.procs && w in f.workers
    requires f.procs[run].pc.Scheduling? && w in f.procs[run].pc.pending && f.workers[w].status.Prepared?
    ensures f.workers[w].plan.Some? && f.workers[w].plan.value.identity.runId == run
    ensures run != "" && exists j: nat :: PlannedIn(f.procs[run], w, f.workers[w].plan.value.identity.executionId, j)
  {
    hide Lease.Exact, Admissible, Driving, Lease.Request.Targets;
    assert ProcInv(f, run) && WorkerInv(f, w);
    var id := f.workers[w].plan.value.identity;
    assert ProcInv(f, id.runId);
    NotReleased(f.procs[id.runId].pc, w);
    var j: nat :| PlannedIn(f.procs[id.runId], w, id.executionId, j);
    InEveryone(f.procs[id.runId].program.phases, j, w);
    InEveryone(f.procs[run].program.phases, f.procs[run].pc.k, w);
    OwnerOf(f.leases, run, guard);
    OwnerOf(f.leases, id.runId, guard);
  }

  /** A phase that is behind the run is journalled as completed. */
  lemma EarlierIsCompleted(p: Proc, j: nat)
    requires Orchestrator.JournalInv(p) && p.pc.Scheduling? && j < p.pc.k
    ensures Orchestrator.PhaseCompleted(j) in p.journal
  {
    hide Orchestrator.EndOfJournal;
    var n := |p.program.phases|;
    assert p.journal[5 + 4 * j] == Orchestrator.EntryAt(5 + 4 * j);
    assert (5 + 4 * j - 2) / 4 == j && (5 + 4 * j - 2) % 4 == 3;
  }

  /** A worker whose completed phase was seen has begun it. */
  lemma CompletedIsBegun(p: Proc, s: Worker.State, run: string, w: string, j: nat)
    requires Worker.Inv(s) && PairOk(p, s, run, w) && EndsSeen(p) && DistinctExecutions(p.program) && run != ""
    requires j < |p.program.phases| && w in p.program.phases[j].workers && Orchestrator.PhaseCompleted(j) in p.journal
    ensures Begun(s, IdOf(p, run, j))
  {
    hide Worker.Inv, Sourced, Delivered;
    EndWasSeen(p, j, w);
    var i, n :| i < n && Seen(p, s, run, j, Worker.PhaseStarted, i) && Seen(p, s, run, j, Worker.PhaseCompleted, n);
    EventIdentity(p, s, run, w, j, i);
    var m := DeliveredIsLogged(s.log, i);
    PhaseEventIsBegun(s, m);
  }

  /** The phase that a run's plan on a worker belongs to involves the worker. */
  lemma PlanPhase(p: Proc, s: Worker.State, run: string, w: string) returns (j: nat)
    requires Sourced(p, s, run, w) && DistinctExecutions(p.program) && run != ""
    requires s.status.Prepared? && s.plan.Some? && s.plan.value.identity.runId == run
    requires exists i: nat :: PlannedIn(p, w, s.plan.value.identity.executionId, i)
    ensures j < |p.program.phases| && s.plan.value.identity == IdOf(p, run, j) && !NotYet(p, j, w)
    ensures w in p.program.phases[j].workers
  {
    hide Known, NotYet;
    var id := s.plan.value.identity;
    IsKnown(s, id);
    j :| j < |p.program.phases| && id == IdOf(p, run, j) && !NotYet(p, j, w);
    var i: nat :| PlannedIn(p, w, id.executionId, i);
    assert p.program.phases[i].executionId == p.program.phases[j].executionId;
    assert i == j;
  }

  /** A plan that has not been started is not that of a phase already behind the run. */
  lemma PlanIsCurrent(p: Proc, s: Worker.State, run: string, w: string, j: nat)
    requires RunOk(p) && WorkerOk(s) && PairOk(p, s, run, w) && run != "" && p.pc.Scheduling?
    requires s.status.Prepared? && s.plan.Some? && j < |p.program.phases| && s.plan.value.identity == IdOf(p, run, j)
    requires w in p.program.phases[j].workers && !NotYet(p, j, w)
    ensures j == p.pc.k
  {
    hide Worker.Inv, Orchestrator.JournalInv, Orchestrator.BarrierInv, Begun, Sourced, Backed, EndsSeen, Queued, Once;
    PreparedUpTo(p, j, w);
    PlannedIsNotBegun(s, s.plan.value.identity);
    if j < p.pc.k {
      EarlierIsCompleted(p, j);
      CompletedIsBegun(p, s, run, w, j);
    }
  }

  /** In a guarded fleet a start call begins the caller's own current phase, with every
      worker of that phase prepared. */
  lemma GuardedStart(f: Fleet, run: string, w: string, guard: Lease.Target)
    requires Inv(f) && EvidenceInv(f) && Guarded(f, w, guard) && run in f.procs && w in f.workers
    requires f.procs[run].pc.Scheduling? && w in f.procs[run].pc.pending && f.workers[w].status.Prepared?
    ensures var p := f.procs[run];
            p.pc.k < |p.program.phases| && Worker.IdentityOf(f.workers[w]) == IdOf(p, run, p.pc.k) &&
            Orchestrator.AllPrepared(p.program, p.pc.k, {}, p.trace)
  {
    hide Inv, Guarded, Known, Backed, Sourced, EndsSeen, NotYet, Worker.Inv, Queued, Once, PlannedIn,
         DistinctExecutions, Orchestrator.JournalInv, Orchestrator.BarrierInv, Orchestrator.AllPrepared, NoStrangers,
         Staffed;
    var p, s := f.procs[run], f.workers[w];
    assert RunOk(p) && PairOk(p, s, run, w) && WorkerOk(s);
    PlanIsOwn(f, run, w, guard);
    var j := PlanPhase(p, s, run, w);
    PlanIsCurrent(p, s, run, w, j);
    ScheduledIsPrepared(p);
  }

  lemma IsKnown(s: Worker.State, id: Worker.Identity)
    requires s.status.Prepared? && s.plan.Some? && s.plan.value.identity == id && id.runId != ""
    ensures Known(s, id)
  {
  }

  lemma PlannedIsNotBegun(s: Worker.State, id: Worker.Identity)
    requires Once(s) && s.status.Prepared? && s.plan.Some? && s.plan.value.identity == id && id.runId != ""
    ensures !Begun(s, id)
  {
    assert Planned(s, id);
  }

  lemma PreparedUpTo(p: Proc, j: nat, w: string)
    requires !NotYet(p, j, w) && p.pc.Scheduling?
    ensures j <= p.pc.k
  {
  }

  lemma ScheduledIsPrepared(p: Proc)
    requires Orchestrator.JournalInv(p) && Orchestrator.BarrierInv(p) && p.pc.Scheduling?
    ensures p.pc.k < |p.program.phases| && Orchestrator.AllPrepared(p.program, p.pc.k, {}, p.trace)
  {
    hide Orchestrator.Word, Orchestrator.EndOfJournal, Orchestrator.Ordered, Orchestrator.SkewRecorded;
  }

  // ---------- over whole histories ----------

  /** Whatever the worker began under the run's identity for a phase, the run started it
      itself, and only after every worker of that phase was prepared. */
  ghost predicate StartedBehindBarrier(p: Proc, s: Worker.State, run: string, w: string) {
    forall k: nat :: k < |p.program.phases| && Begun(s, IdOf(p, run, k)) ==>
      Orchestrator.DidStart(w, k) in p.trace && Orchestrator.AllPrepared(p.program, k, {}, p.trace)
  }

  ghost predicate OwnStarts(f: Fleet, w: string) {
    w in f.workers && forall run :: run in f.procs ==> StartedBehindBarrier(f.procs[run], f.workers[w], run, w)
  }

  ghost predicate TracesGrow(f: Fleet, g: Fleet) {
    g.procs.Keys == f.procs.Keys &&
    forall run :: run in f.procs ==>
      f.procs[run].trace <= g.procs[run].trace && g.procs[run].program == f.procs[run].program
  }

  ghost predicate SameStarts(f: Fleet, g: Fleet, w: string) {
    w in f.workers && w in g.workers && g.workers[w].started == f.workers[w].started
  }

  lemma MoveGrows(f: Fleet, run: string, a: Orchestrator.Action)
    requires run in f.procs
    ensures TracesGrow(f, Move(f, run, a)) && Move(f, run, a).workers == f.workers
    ensures Move(f, run, a).procs.Keys == f.procs.Keys
  {
    hide Orchestrator.Step, SamePrograms;
    TraceGrows(f.procs[run], a);
  }

  lemma CallsGrow(f: Fleet, run: string, w: string, v: string, deadlineUs: nat)
    requires run in f.procs && w in f.workers && v in f.workers
    ensures TracesGrow(f, Disable(f, run, v)) && SameStarts(f, Disable(f, run, v), w)
    ensures TracesGrow(f, Prepare(f, run, v)) && SameStarts(f, Prepare(f, run, v), w)
    ensures TracesGrow(f, Start(f, run, v, deadlineUs)) && (v != w ==> SameStarts(f, Start(f, run, v, deadlineUs), w))
  {
    hide Move, SamePrograms, TracesGrow, Worker.Disable, Worker.Prepare, Worker.Start, Worker.DisableResult,
         Worker.PrepareResult, Worker.StartResult;
    SelfGrows(f);
    OtherSteps(f.workers[v], Worker.DoDisable);
    forall plan { PrepareStep(f.workers[v], plan); }
    forall s, a
      ensures TracesGrow(f, Move(Put(f, v, s), run, a)) && Move(Put(f, v, s), run, a).workers == f.workers[v := s]
    {
      MoveGrows(Put(f, v, s), run, a);
      SameProcs(f, Put(f, v, s), Move(Put(f, v, s), run, a));
    }
  }

  lemma SelfGrows(f: Fleet)
    ensures TracesGrow(f, f)
  {
  }

  lemma SameProcs(f: Fleet, h: Fleet, g: Fleet)
    requires h.procs == f.procs && TracesGrow(h, g)
    ensures TracesGrow(f, g)
  {
  }

  lemma ThenGrows(f: Fleet, h: Fleet, g: Fleet)
    requires TracesGrow(f, h) && TracesGrow(h, g)
    ensures TracesGrow(f, g)
  {
  }

  lemma StopsGrow(f: Fleet, run: string, w: string, v: string)
    requires run in f.procs && w in f.workers && v in f.workers
    ensures TracesGrow(f, StopBegins(f, run, v)) && SameStarts(f, StopBegins(f, run, v), w)
    ensures TracesGrow(f, StopEnds(f, run, v)) && SameStarts(f, StopEnds(f, run, v), w)
  {
    hide Move, SamePrograms, TracesGrow, Worker.BeginStop, Worker.EndStop;
    SelfGrows(f);
    OtherSteps(f.workers[v], Worker.DoBeginStop);
    OtherSteps(f.workers[v], Worker.DoEndStop);
    forall s, a
      ensures TracesGrow(f, Move(Put(f, v, s), run, a)) && Move(Put(f, v, s), run, a).workers == f.workers[v := s]
    {
      MoveGrows(Put(f, v, s), run, a);
      SameProcs(f, Put(f, v, s), Move(Put(f, v, s), run, a));
    }
    var h := Move(Put(f, v, Worker.BeginStop(f.workers[v])), run, Orchestrator.StopBegan(v));
    MoveGrows(Put(f, v, Worker.BeginStop(f.workers[v])), run, Orchestrator.StopBegan(v));
    MoveGrows(h, run, Orchestrator.StopReply(v, false));
    ThenGrows(f, h, Move(h, run, Orchestrator.StopReply(v, false)));
  }

  lemma HearGrows(f: Fleet, run: string, w: string, v: string)
    requires run in f.procs && w in f.workers && v in f.workers
    ensures TracesGrow(f, Hear(f, run, v)) && SameStarts(f, Hear(f, run, v), w)
  {
    hide Move, SamePrograms, TracesGrow, Worker.Take, Worker.Decisive;
    SelfGrows(f);
    OtherSteps(f.workers[v], Worker.DoTake);
    MoveGrows(f, run, Orchestrator.BadEvent(v));
    var h := Put(f, v, Worker.Take(f.workers[v]));
    SameProcs(f, f, f);
    forall a
      ensures TracesGrow(f, Move(h, run, a)) && Move(h, run, a).workers == f.workers[v := Worker.Take(f.workers[v])]
    {
      MoveGrows(h, run, a);
      SameProcs(f, h, Move(h, run, a));
    }
    HasSameProcs(f, h);
  }

  lemma HasSameProcs(f: Fleet, h: Fleet)
    requires h.procs == f.procs
    ensures TracesGrow(f, h)
  {
  }

  lemma PutGrows(f: Fleet, v: string, w: string, a: Worker.Action)
    requires v in f.workers && w in f.workers && !a.DoStart? && !a.DoPrepare?
    ensures TracesGrow(f, Put(f, v, Worker.Step(f.workers[v], a)))
    ensures SameStarts(f, Put(f, v, Worker.Step(f.workers[v], a)), w)
  {
    hide Worker.Step;
    OtherSteps(f.workers[v], a);
  }

  /** Only an admission resets a trace, and only a start call of the worker starts it. */
  lemma QuietEvent(f: Fleet, e: Event, w: string)
    requires w in f.workers && !e.Execute?
    ensures TracesGrow(f, Next(f, e)) && w in Next(f, e).workers
    ensures (e.CallStart? && e.worker == w) || SameStarts(f, Next(f, e), w)
  {
    hide TracesGrow, SamePrograms, Disable, Prepare, Start, Hear, StopBegins, StopEnds, Move, Put, Worker.Wake,
         Worker.EndClose, Worker.BeginStop, Lease.ReleaseStep;
    SelfGrows(f);
    match e
    case Journalled(run, ok) => if run in f.procs { MoveGrows(f, run, Orchestrator.Journalled(ok)); }
    case CallDisable(run, v) => if run in f.procs && v in f.workers { CallsGrow(f, run, w, v, 0); }
    case CallPrepare(run, v) => if run in f.procs && v in f.workers { CallsGrow(f, run, w, v, 0); }
    case CallStart(run, v, deadlineUs) =>
      if run in f.procs && v in f.workers {
        CallsGrow(f, run, w, v, deadlineUs);
        StartKeepsWorkers(f, run, v, deadlineUs);
      }
    case Receive(run, v) => if run in f.procs && v in f.workers { HearGrows(f, run, w, v); }
    case Interrupt(run) => if run in f.procs { MoveGrows(f, run, Orchestrator.Interrupt); }
    case BeginStop(run, v) => if run in f.procs && v in f.workers { StopsGrow(f, run, w, v); }
    case EndStop(run, v) => if run in f.procs && v in f.workers { StopsGrow(f, run, w, v); }
    case Release(run) =>
      if run in f.procs {
        var h := f.(leases := Lease.ReleaseStep(f.leases, run));
        MoveGrows(h, run, Orchestrator.LeaseReleased);
        SameProcs(f, h, Move(h, run, Orchestrator.LeaseReleased));
      }
    case _ => QuietOwnEvent(f, e, w);
  }

  lemma QuietOwnEvent(f: Fleet, e: Event, w: string)
    requires w in f.workers && (e.Wake? || e.BeginClose? || e.EndClose?)
    ensures TracesGrow(f, Next(f, e)) && w in Next(f, e).workers && SameStarts(f, Next(f, e), w)
  {
    hide TracesGrow, Worker.Wake, Worker.EndClose, Worker.BeginStop;
    SelfGrows(f);
    match e
    case Wake(v, task, nowUs) => if v in f.workers { PutGrows(f, v, w, Worker.DoWake(task, nowUs)); }
    case BeginClose(v) => if v in f.workers { PutGrows(f, v, w, Worker.DoBeginClose); }
    case EndClose(v) => if v in f.workers { PutGrows(f, v, w, Worker.DoEndClose); }
  }

  lemma StartKeepsWorkers(f: Fleet, run: string, v: string, deadlineUs: nat)
    requires run in f.procs && v in f.workers
    ensures Start(f, run, v, deadlineUs).workers.Keys == f.workers.Keys
  {
    hide Orchestrator.Step, SamePrograms, Worker.Start, Worker.StartResult;
  }

  lemma BehindSurvives(p: Proc, p': Proc, s: Worker.State, s': Worker.State, run: string, w: string)
    requires StartedBehindBarrier(p, s, run, w) && s'.started == s.started && p.trace <= p'.trace &&
             p'.program == p.program
    ensures StartedBehindBarrier(p', s', run, w)
  {
    forall k: nat | k < |p'.program.phases| && Begun(s', IdOf(p', run, k))
      ensures Orchestrator.DidStart(w, k) in p'.trace && Orchestrator.AllPrepared(p'.program, k, {}, p'.trace)
    {
      assert IdOf(p', run, k) == IdOf(p, run, k) && Begun(s, IdOf(p, run, k));
    }
  }

  lemma QuietKeeps(f: Fleet, e: Event, w: string)
    requires OwnStarts(f, w) && !e.Execute? && !(e.CallStart? && e.worker == w)
    ensures OwnStarts(Next(f, e), w)
  {
    hide Next, StartedBehindBarrier;
    var g := Next(f, e);
    QuietEvent(f, e, w);
    forall run | run in g.procs
      ensures StartedBehindBarrier(g.procs[run], g.workers[w], run, w)
    {
      BehindSurvives(f.procs[run], g.procs[run], f.workers[w], g.workers[w], run, w);
    }
  }

  lemma AdmissionKeeps(f: Fleet, e: Event, w: string)
    requires OwnStarts(f, w) && EvidenceInv(f) && Inv(f) && e.Execute?
    ensures OwnStarts(Next(f, e), w)
  {
    hide StartedBehindBarrier, Known, EvidenceInv, Inv, Admissible, Orchestrator.Everyone, Lease.Acquire,
         Lease.AcquireStep, Free;
    var g := Next(f, e);
    if g != f {
      Nameless(f, e);
      FreeIsUnknown(f, e.run, w);
      NothingBegun(Orchestrator.Begin(e.program), f.workers[w], e.run, w);
    }
  }

  lemma Nameless(f: Fleet, e: Event)
    requires e.Execute? && Next(f, e) != f
    ensures Free(f, e.run) && e.run != ""
  {
    hide Admissible, Orchestrator.Everyone, Lease.HeldByOthers;
  }

  lemma NothingBegun(p: Proc, s: Worker.State, run: string, w: string)
    requires run != "" && forall id: Worker.Identity :: id.runId == run ==> !Known(s, id)
    ensures StartedBehindBarrier(p, s, run, w)
  {
    forall k: nat | k < |p.program.phases|
      ensures !Begun(s, IdOf(p, run, k))
    {
      assert !Known(s, IdOf(p, run, k));
    }
  }

  lemma StartKeepsOwn(f: Fleet, run: string, w: string, deadlineUs: nat, guard: Lease.Target)
    requires OwnStarts(f, w) && EvidenceInv(f) && Inv(f) && Guarded(f, w, guard) && run in f.procs
    ensures OwnStarts(Start(f, run, w, deadlineUs), w)
  {
    hide EvidenceInv, Inv, Guarded, StartedBehindBarrier, Worker.Start, Orchestrator.Step, SamePrograms;
    var p, s := f.procs[run], f.workers[w];
    var g := Start(f, run, w, deadlineUs);
    if g != f {
      var s' := g.workers[w];
      Orchestrator.StepKeepsProgram(p, Orchestrator.StartReply(w, false));
      Orchestrator.StepKeepsProgram(p, Orchestrator.StartReply(w, true));
      StartNoted(p, w);
      if s.status.Prepared? { GuardedStart(f, run, w, guard); }
      forall r | r in g.procs
        ensures StartedBehindBarrier(g.procs[r], s', r, w)
      {
        StartFacts(f, r, run, w);
        StartsOne(f.procs[r], g.procs[r], s, deadlineUs, r, run, w, p);
      }
    }
  }

  lemma StartFacts(f: Fleet, r: string, run: string, w: string)
    requires OwnStarts(f, w) && EvidenceInv(f) && r in f.procs && run in f.procs
    ensures StartedBehindBarrier(f.procs[r], f.workers[w], r, w) && Worker.Inv(f.workers[w])
    ensures DistinctExecutions(f.procs[run].program)
  {
    hide PairOk, Worker.Inv, StartedBehindBarrier;
    assert WorkerOk(f.workers[w]) && RunOk(f.procs[run]);
  }

  lemma StartNoted(p: Proc, w: string)
    requires p.pc.Scheduling? && w in p.pc.pending
    ensures forall ok ::
              var trace := Orchestrator.Step(p, Orchestrator.StartReply(w, ok)).trace;
              p.trace <= trace && Orchestrator.DidStart(w, p.pc.k) in trace
  {
    hide Orchestrator.Everyone;
  }

  /** After a start, the only identity begun anew is the caller's own current one. */
  lemma StartsOne(p: Proc, p': Proc, s: Worker.State, deadlineUs: nat, r: string, run: string, w: string, own: Proc)
    requires StartedBehindBarrier(p, s, r, w) && Worker.Inv(s)
    requires r == run ==> p == own && DistinctExecutions(p.program)
    requires own.pc.Scheduling? && own.pc.k < |own.program.phases|
    requires s.status.Prepared? ==>
               Worker.IdentityOf(s) == IdOf(own, run, own.pc.k) &&
               Orchestrator.AllPrepared(own.program, own.pc.k, {}, own.trace)
    requires p'.program == p.program && p.trace <= p'.trace
    requires r == run ==> Orchestrator.DidStart(w, own.pc.k) in p'.trace
    ensures StartedBehindBarrier(p', Worker.Start(s, deadlineUs), r, w)
  {
    hide Worker.Inv, Worker.Start, Begun, Orchestrator.AllPrepared;
    var s' := Worker.Start(s, deadlineUs);
    forall k: nat | k < |p'.program.phases| && Begun(s', IdOf(p', r, k))
      ensures Orchestrator.DidStart(w, k) in p'.trace && Orchestrator.AllPrepared(p'.program, k, {}, p'.trace)
    {
      var id := IdOf(p', r, k);
      assert id == IdOf(p, r, k);
      if !Begun(s, id) {
        BegunAnew(s, deadlineUs, id);
        assert r == run && p.program.phases[k].executionId == p.program.phases[own.pc.k].executionId;
        assert k == own.pc.k;
      }
      StillPrepared(p, p', k);
    }
  }

  lemma StillPrepared(p: Proc, p': Proc, k: nat)
    requires p'.program == p.program && p.trace <= p'.trace
    ensures Orchestrator.AllPrepared(p.program, k, {}, p.trace) ==>
              Orchestrator.AllPrepared(p'.program, k, {}, p'.trace)
  {
  }

  lemma BegunAnew(s: Worker.State, deadlineUs: nat, id: Worker.Identity)
    requires Worker.Inv(s) && Begun(Worker.Start(s, deadlineUs), id) && !Begun(s, id)
    ensures s.status.Prepared? && id == Worker.IdentityOf(s)
  {
    hide Worker.PhaseEvents;
  }

  lemma OwnStartsKeep(f: Fleet, e: Event, w: string, guard: Lease.Target)
    requires OwnStarts(f, w) && EvidenceInv(f) && Inv(f) && Guarded(f, w, guard)
    ensures OwnStarts(Next(f, e), w)
  {
    hide OwnStarts, EvidenceInv, Inv, Guarded, Start, Begin, Disable, Prepare, Hear, StopBegins, StopEnds, ReleaseLease,
         Move, Put;
    if e.Execute? {
      AdmissionKeeps(f, e, w);
    } else if e.CallStart? && e.worker == w {
      if e.run in f.procs && w in f.workers { StartKeepsOwn(f, e.run, w, e.deadlineUs, guard); }
    } else {
      QuietKeeps(f, e, w);
    }
  }

  lemma {:induction false} OwnStartsAlways(f: Fleet, events: seq<Event>, w: string, guard: Lease.Target)
    requires OwnStarts(f, w) && EvidenceInv(f) && Inv(f) && Guarded(f, w, guard)
    requires forall i :: 0 <= i < |events| ==> Distinct(events[i]) && AsksForGuard(events[i], w, guard)
    ensures OwnStarts(History(f, events), w)
    decreases |events|
  {
    hide OwnStarts, EvidenceInv, Inv, Guarded, Next, Distinct, AsksForGuard;
    if events != [] {
      OwnStartsKeep(f, events[0], w, guard);
      NextOk(f, events[0]);
      NextKeeps(f, events[0]);
      GuardStep(f, events[0], w, guard);
      OwnStartsAlways(Next(f, events[0]), events[1..], w, guard);
    }
  }

  /** For a worker that every program involving it guards by a common resource or safety
      domain: whatever it ever began under a run's identity for a phase, that run started
      it, and not before every worker of the phase was prepared. */
  lemma GuardedBarrierHolds(f: Fleet, events: seq<Event>, w: string, guard: Lease.Target, run: string, k: nat)
    requires Pristine(f) && w in f.workers
    requires forall i :: 0 <= i < |events| ==> Distinct(events[i]) && AsksForGuard(events[i], w, guard)
    requires var g := History(f, events);
             run in g.procs && w in g.workers && k < |g.procs[run].program.phases| &&
             Begun(g.workers[w], IdOf(g.procs[run], run, k))
    ensures var p := History(f, events).procs[run];
            Orchestrator.DidStart(w, k) in p.trace && Orchestrator.AllPrepared(p.program, k, {}, p.trace)
  {
    hide History, EvidenceInv, Inv, Distinct, AsksForGuard;
    PristineIsOk(f);
    OwnStartsAlways(f, events, w, guard);
    assert StartedBehindBarrier(History(f, events).procs[run], History(f, events).workers[w], run, w);
  }

  // ---------- without a guard ----------

  // Two programs that share the worker w on different leaves; B's phase also needs v.
  const PHASE_A := Orchestrator.Phase("p", "A:0", 0, map["w" := {"w.a"}])
  const PHASE_B := Orchestrator.Phase("p", "B:0", 0, map["w" := {"w.b"}, "v" := {"v.c"}])
  const PROGRAM_A := Orchestrator.Program([PHASE_A], None)
  const PROGRAM_B := Orchestrator.Program([PHASE_B], None)
  const REQUEST_A := Lease.Request({"w.a"}, {}, {})
  const REQUEST_B := Lease.Request({"w.b", "v.c"}, {}, {})
  const IDENTITY_B := Worker.Identity("B", "p", "B:0")
  const START := Fleet(Lease.EMPTY, map["w" := Worker.Initial(256), "v" := Worker.Initial(256)], map[])

  lemma OnlyPhase(program: Orchestrator.Program)
    requires |program.phases| == 1
    ensures Orchestrator.Everyone(program) == program.phases[0].workers.Keys
  {
    assert Orchestrator.Participants(program.phases[1..]) == {};
  }

  lemma WorkersInvolved()
    ensures Orchestrator.Everyone(PROGRAM_A) == {"w"} && Orchestrator.Everyone(PROGRAM_B) == {"w", "v"}
  {
    OnlyPhase(PROGRAM_A);
    OnlyPhase(PROGRAM_B);
    assert PHASE_A.workers.Keys == {"w"} && PHASE_B.workers.Keys == {"w", "v"};
  }

  /** An admissible program whose request meets no owner is admitted. */
  lemma Admitted(f: Fleet, run: string, program: Orchestrator.Program, request: Lease.Request, nowNs: int)
    requires run !in f.procs && Admissible(program, request) && Orchestrator.Everyone(program) <= f.workers.Keys
    requires run !in f.leases.grants && Lease.CanonicalKey(run) && request.Canonical()
    requires request.Targets() !! f.leases.owners.Keys
    ensures var g := Next(f, Execute(run, program, request, nowNs));
            g.procs == f.procs[run := Orchestrator.Begin(program)] && g.workers == f.workers &&
            g.leases.owners.Keys == f.leases.owners.Keys + request.Targets() &&
            g.leases.grants.Keys == f.leases.grants.Keys + {run}
  {
    hide Admissible, Orchestrator.Everyone, Lease.CanonicalKey, Lease.Request.Canonical, Lease.Request.Targets;
    assert Lease.HeldByOthers(f.leases, run, request) == map[];
    assert Lease.Acquire(f.leases, run, request, nowNs).Granted?;
  }

  lemma RequestsAreProper()
    ensures REQUEST_A.Canonical() && REQUEST_B.Canonical() && Lease.CanonicalKey("A") && Lease.CanonicalKey("B")
    ensures REQUEST_A.Targets() !! REQUEST_B.Targets()
    ensures Admissible(PROGRAM_A, REQUEST_A) && Admissible(PROGRAM_B, REQUEST_B)
  {
    assert "w.a"[2] != "w.b"[2] && "w.a"[0] != "v.c"[0];
  }

  /** Both programs get their leases: they command different leaves. */
  lemma BothAdmitted()
    ensures var f := Next(Next(START, Execute("A", PROGRAM_A, REQUEST_A, 0)), Execute("B", PROGRAM_B, REQUEST_B, 0));
            f.workers == START.workers &&
            f.procs == map["A" := Orchestrator.Begin(PROGRAM_A), "B" := Orchestrator.Begin(PROGRAM_B)]
  {
    hide Next, Orchestrator.Everyone, Admissible, Lease.CanonicalKey, Lease.Request.Canonical, Lease.Request.Targets;
    WorkersInvolved();
    RequestsAreProper();
    assert START.workers.Keys == {"w", "v"};
    Admitted(START, "A", PROGRAM_A, REQUEST_A, 0);
    Admitted(Next(START, Execute("A", PROGRAM_A, REQUEST_A, 0)), "B", PROGRAM_B, REQUEST_B, 0);
  }

  // One run's way to its schedule barrier, on one worker.

  lemma ReachesScheduling(p: Proc, w: string)
    requires |p.program.phases| == 1 && p.program.phases[0].workers.Keys == {w} && p == Orchestrator.Begin(p.program)
    ensures var p1 := Orchestrator.Step(p, Orchestrator.Journalled(true));
            p1.pc == Orchestrator.Disabling({w}, false) &&
            var p2 := Orchestrator.Step(p1, Orchestrator.DisableReply(w, true));
            var p3 := Orchestrator.Step(p2, Orchestrator.Journalled(true));
            p3.pc == Orchestrator.Preparing(0, {w}, false) && p3.program == p.program &&
            var p4 := Orchestrator.Step(p3, Orchestrator.PrepareReply(w, true));
            var p5 := Orchestrator.Step(p4, Orchestrator.Journalled(true));
            p5.pc == Orchestrator.Scheduling(0, {w}, false) && p5.program == p.program
  {
    hide Orchestrator.Everyone;
    OnlyPhase(p.program);
  }

  lemma MoveIs(f: Fleet, run: string, a: Orchestrator.Action)
    requires run in f.procs
    ensures Move(f, run, a) == f.(procs := f.procs[run := Orchestrator.Step(f.procs[run], a)])
  {
  }

  lemma OnJournalled(f: Fleet, run: string)
    requires run in f.procs
    ensures Next(f, Journalled(run, true))
         == f.(procs := f.procs[run := Orchestrator.Step(f.procs[run], Orchestrator.Journalled(true))])
  {
  }

  lemma OnDisable(f: Fleet, run: string, w: string)
    requires run in f.procs && w in f.workers && f.procs[run].pc.Disabling? && w in f.procs[run].pc.pending
    requires Worker.DisableResult(f.workers[w]).Ok?
    ensures Next(f, CallDisable(run, w))
         == f.(workers := f.workers[w := Worker.Disable(f.workers[w])],
               procs := f.procs[run := Orchestrator.Step(f.procs[run], Orchestrator.DisableReply(w, true))])
  {
    hide Orchestrator.Step, Worker.Disable, Worker.DisableResult;
  }

  lemma OnPrepare(f: Fleet, run: string, w: string)
    requires run in f.procs && w in f.workers && f.procs[run].pc.Preparing? && w in f.procs[run].pc.pending
    requires f.procs[run].pc.k < |f.procs[run].program.phases|
    requires Worker.PrepareResult(f.workers[w], PlanFor(f.procs[run], run, f.procs[run].pc.k)).Ok?
    ensures var plan := PlanFor(f.procs[run], run, f.procs[run].pc.k);
            Next(f, CallPrepare(run, w)) ==
            f.(workers := f.workers[w := Worker.Prepare(f.workers[w], plan)],
               procs := f.procs[run := Orchestrator.Step(f.procs[run], Orchestrator.PrepareReply(w, true))])
  {
    hide Orchestrator.Step, Worker.Prepare, Worker.PrepareResult;
  }

  /** Disabling and then preparing a worker that has no task. */
  lemma WorkerReady(s: Worker.State, plan: Worker.Plan)
    requires Untouched(s) && |s.queue| <= 2 && (s.status.Created? || s.status.Prepared?) && Worker.PlanOk(plan)
    ensures Worker.DisableResult(s).Ok?
    ensures var d := Worker.Disable(s);
            Untouched(d) && d.status.Disabled? && |d.queue| == |s.queue| + 1 &&
            Worker.PrepareResult(d, plan).Ok? && Untouched(Worker.Prepare(d, plan)) &&
            Worker.Prepare(d, plan).status.Prepared? && Worker.Prepare(d, plan).plan == Some(plan) &&
            |Worker.Prepare(d, plan).queue| == |s.queue| + 2
  {
  }

  /** Run A prepares w and is about to start it. */
  lemma APrepares(f: Fleet)
    requires f.workers == START.workers
    requires f.procs == map["A" := Orchestrator.Begin(PROGRAM_A), "B" := Orchestrator.Begin(PROGRAM_B)]
    ensures var events := [Journalled("A", true), CallDisable("A", "w"), Journalled("A", true), CallPrepare("A", "w"),
                           Journalled("A", true)];
            var g := History(f, events);
            g.procs.Keys == {"A", "B"} && g.procs["B"] == f.procs["B"] && g.procs["A"].program == PROGRAM_A &&
            g.procs["A"].pc == Orchestrator.Scheduling(0, {"w"}, false) && g.workers.Keys == {"w", "v"} &&
            g.workers["v"] == START.workers["v"] && g.workers["w"].status == Worker.Prepared &&
            Untouched(g.workers["w"]) && |g.workers["w"].queue| <= 2
  {
    hide Orchestrator.Step, Next, History, Worker.Disable, Worker.Prepare, Worker.DisableResult, Worker.PrepareResult,
         Untouched;
    assert PHASE_A.workers.Keys == {"w"};
    var p := f.procs["A"];
    ReachesScheduling(p, "w");
    StartIsUntouched();
    WorkerReady(f.workers["w"], PlanFor(p, "A", 0));
    OnJournalled(f, "A");
    var f1 := Next(f, Journalled("A", true));
    OnDisable(f1, "A", "w");
    var f2 := Next(f1, CallDisable("A", "w"));
    OnJournalled(f2, "A");
    var f3 := Next(f2, Journalled("A", true));
    assert PlanFor(f3.procs["A"], "A", 0) == PlanFor(p, "A", 0);
    OnPrepare(f3, "A", "w");
    var f4 := Next(f3, CallPrepare("A", "w"));
    OnJournalled(f4, "A");
    FiveEvents(f, Journalled("A", true), CallDisable("A", "w"), Journalled("A", true), CallPrepare("A", "w"),
               Journalled("A", true));
  }

  /** Prepared or not, the worker has room for events and no task. */
  predicate Untouched(s: Worker.State) {
    s.tasks == map[] && s.nextTask == 0 && s.current.None? && |s.queue| <= 4 && s.limit == 256 && s.epoch == 0 &&
    s.started == map[]
  }

  lemma StartIsUntouched()
    ensures forall w :: w in START.workers ==> Untouched(START.workers[w]) && START.workers[w].status.Created?
    ensures forall w :: w in START.workers ==> START.workers[w].queue == []
  {
  }

  lemma FirstEvent(f: Fleet, e: Event, rest: seq<Event>)
    ensures History(f, [e] + rest) == History(Next(f, e), rest)
    ensures History(f, []) == f
  {
    assert ([e] + rest)[1..] == rest;
  }

  lemma FiveEvents(f: Fleet, a: Event, b: Event, c: Event, d: Event, e: Event)
    ensures History(f, [a, b, c, d, e]) == Next(Next(Next(Next(Next(f, a), b), c), d), e)
  {
    hide Next, History;
    assert [a, b, c, d, e] == [a] + [b, c, d, e] && [b, c, d, e] == [b] + [c, d, e];
    FirstEvent(f, a, [b, c, d, e]);
    FirstEvent(Next(f, a), b, [c, d, e]);
    var g := Next(Next(f, a), b);
    assert [c, d, e] == [c] + [d, e];
    FirstEvent(g, c, [d, e]);
    TwoEvents(Next(g, c), d, e);
  }

  lemma ReachesPreparing(p: Proc)
    requires p == Orchestrator.Begin(PROGRAM_B)
    ensures var p1 := Orchestrator.Step(p, Orchestrator.Journalled(true));
            p1.pc == Orchestrator.Disabling({"w", "v"}, false) &&
            var p2 := Orchestrator.Step(p1, Orchestrator.DisableReply("w", true));
            p2.pc == Orchestrator.Disabling({"v"}, false) &&
            var p3 := Orchestrator.Step(p2, Orchestrator.DisableReply("v", true));
            var p4 := Orchestrator.Step(p3, Orchestrator.Journalled(true));
            p4.pc == Orchestrator.Preparing(0, {"w", "v"}, false) && p4.program == PROGRAM_B &&
            var p5 := Orchestrator.Step(p4, Orchestrator.PrepareReply("w", true));
            p5.pc == Orchestrator.Preparing(0, {"v"}, false) && p5.program == PROGRAM_B
  {
    hide Orchestrator.Everyone;
    WorkersInvolved();
    assert PHASE_B.workers.Keys == {"w", "v"};
    assert {"w", "v"} - {"w"} == {"v"};
  }

  /** Run B disables and prepares the same worker, and still has v to prepare. */
  lemma BTakesOver(f: Fleet)
    requires f.procs.Keys == {"A", "B"} && f.procs["B"] == Orchestrator.Begin(PROGRAM_B) && f.workers.Keys == {"w", "v"}
    requires f.workers["v"] == START.workers["v"] && f.workers["w"].status == Worker.Prepared &&
             Untouched(f.workers["w"])
    requires |f.workers["w"].queue| <= 2
    ensures var events := [Journalled("B", true), CallDisable("B", "w"), CallDisable("B", "v"), Journalled("B", true),
                           CallPrepare("B", "w")];
            var g := History(f, events);
            g.procs.Keys == {"A", "B"} && g.procs["A"] == f.procs["A"] && g.procs["B"].program == PROGRAM_B &&
            g.procs["B"].pc == Orchestrator.Preparing(0, {"v"}, false) && g.workers.Keys == {"w", "v"} &&
            g.workers["w"].status == Worker.Prepared && Untouched(g.workers["w"]) &&
            g.workers["w"].plan == Some(Worker.Plan(IDENTITY_B, 0))
  {
    hide Orchestrator.Step, Next, History, Worker.Disable, Worker.Prepare, Worker.DisableResult, Worker.PrepareResult,
         Untouched;
    var p := f.procs["B"];
    ReachesPreparing(p);
    StartIsUntouched();
    var plan := Worker.Plan(IDENTITY_B, 0);
    WorkerReady(f.workers["w"], plan);
    WorkerReady(f.workers["v"], plan);
    OnJournalled(f, "B");
    var f1 := Next(f, Journalled("B", true));
    OnDisable(f1, "B", "w");
    var f2 := Next(f1, CallDisable("B", "w"));
    OnDisable(f2, "B", "v");
    var f3 := Next(f2, CallDisable("B", "v"));
    OnJournalled(f3, "B");
    var f4 := Next(f3, Journalled("B", true));
    assert PlanFor(f4.procs["B"], "B", 0) == plan;
    assert f4.workers["w"] == Worker.Disable(f.workers["w"]);
    OnPrepare(f4, "B", "w");
    FiveEvents(f, Journalled("B", true), CallDisable("B", "w"), CallDisable("B", "v"), Journalled("B", true),
               CallPrepare("B", "w"));
  }

  /** A's start call starts B's plan. */
  lemma AStartsB(f: Fleet)
    requires f.procs.Keys == {"A", "B"} && f.procs["A"].pc == Orchestrator.Scheduling(0, {"w"}, false)
    requires f.procs["A"].program == PROGRAM_A && f.workers.Keys == {"w", "v"} &&
             f.workers["w"].status == Worker.Prepared
    requires Untouched(f.workers["w"]) && f.workers["w"].plan == Some(Worker.Plan(IDENTITY_B, 0))
    ensures var g := Next(Next(f, CallStart("A", "w", 0)), Wake("w", 0, 0));
            g.procs.Keys == {"A", "B"} && g.procs["B"] == f.procs["B"] && g.workers.Keys == {"w", "v"} &&
            g.workers["w"].status == Worker.Running && Worker.IdentityOf(g.workers["w"]) == IDENTITY_B
  {
    hide Orchestrator.Step, SamePrograms;
  }

  lemma HistoryThen(f: Fleet, xs: seq<Event>, ys: seq<Event>)
    ensures History(f, xs + ys) == History(History(f, xs), ys)
    decreases |xs|
  {
    hide Next;
    if xs == [] {
      assert xs + ys == ys;
    } else {
      assert (xs + ys)[1..] == xs[1..] + ys;
      HistoryThen(Next(f, xs[0]), xs[1..], ys);
    }
  }

  lemma TwoEvents(f: Fleet, a: Event, b: Event)
    ensures History(f, [a, b]) == Next(Next(f, a), b)
  {
    hide Next, History;
    assert [a, b] == [a] + [b] && [b] == [b] + [];
    FirstEvent(f, a, [b]);
    FirstEvent(Next(f, a), b, []);
    FirstEvent(Next(Next(f, a), b), a, []);
  }

  /** Without a guard the barrier fails.  Runs A and B share a worker on different leaves and
      both hold their leases; B prepares the worker after A did, and A's start call then
      sets it running under B's identity while B still waits to prepare its other worker. */
  lemma BarrierFailsUnguarded() returns (events: seq<Event>)
    ensures Pristine(START) && forall i :: 0 <= i < |events| ==> Distinct(events[i])
    ensures var g := History(START, events);
            "B" in g.procs && "w" in g.workers && g.procs["B"].program == PROGRAM_B &&
            g.procs["B"].pc == Orchestrator.Preparing(0, {"v"}, false) &&
            g.workers["w"].status == Worker.Running && Worker.IdentityOf(g.workers["w"]) == IdOf(g.procs["B"], "B", 0)
  {
    hide History, Next, Pristine;
    var admit := [Execute("A", PROGRAM_A, REQUEST_A, 0), Execute("B", PROGRAM_B, REQUEST_B, 0)];
    var prepare := [Journalled("A", true), CallDisable("A", "w"), Journalled("A", true), CallPrepare("A", "w"),
                    Journalled("A", true)];
    var takeOver := [Journalled("B", true), CallDisable("B", "w"), CallDisable("B", "v"), Journalled("B", true),
                     CallPrepare("B", "w")];
    var start := [CallStart("A", "w", 0), Wake("w", 0, 0)];
    BothAdmitted();
    TwoEvents(START, admit[0], admit[1]);
    var f1 := History(START, admit);
    APrepares(f1);
    var f2 := History(f1, prepare);
    BTakesOver(f2);
    var f3 := History(f2, takeOver);
    AStartsB(f3);
    TwoEvents(f3, start[0], start[1]);
    HistoryThen(f2, takeOver, start);
    HistoryThen(f1, prepare, takeOver + start);
    HistoryThen(START, admit, prepare + (takeOver + start));
    events := admit + (prepare + (takeOver + start));
    StartIsPristine();
  }

  lemma StartIsPristine()
    ensures Pristine(START)
  {
  }
}
