/** Any number of concurrent `execute` calls over one lease manager and a set of shared
    in-memory workers (remote_robot/orchestrator.py, lease.py and worker.py together). */
module Fleet {
  import Lease
  import Worker
  import Orchestrator
  import Replies

  type Proc = Orchestrator.Proc

  datatype Fleet = Fleet(
    leases: Lease.Leases,
    workers: map<string, Worker.State>,
    procs: map<string, Proc>)

  datatype Event =
    | Execute(run: string, program: Orchestrator.Program, request: Lease.Request, nowNs: int)
    | Journalled(run: string, ok: bool)
    | CallDisable(run: string, worker: string)
    | CallPrepare(run: string, worker: string)
    | CallStart(run: string, worker: string, deadlineUs: nat)
    | Receive(run: string, worker: string)
    | Interrupt(run: string)
    | BeginStop(run: string, worker: string)
    | EndStop(run: string, worker: string)
    | Release(run: string)
    | Wake(worker: string, task: nat, nowUs: int)
    | BeginClose(worker: string)
    | EndClose(worker: string)

  // ---------- the steps ----------

  /** A run id is free until it has journal history; a run that could not even be opened
      may be tried again. */
  predicate Free(f: Fleet, run: string) {
    run !in f.procs || (f.procs[run].pc.Released? && f.procs[run].journal == [])
  }

  /** What validation against the registry guarantees of an admitted program. */
  ghost predicate Admissible(program: Orchestrator.Program, request: Lease.Request) {
    forall k :: 0 <= k < |program.phases| ==>
      var phase := program.phases[k];
      phase.phaseId != "" && phase.executionId != "" && 0 <= phase.durationUs &&
      forall w :: w in phase.workers ==> phase.workers[w] <= request.leaves
  }

  function PlanFor(p: Proc, run: string, k: nat): Worker.Plan
    requires k < |p.program.phases|
  {
    var phase := p.program.phases[k];
    Worker.Plan(Worker.Identity(run, phase.phaseId, phase.executionId), phase.durationUs)
  }

  /** Steps after admission change neither the set of runs nor what they run. */
  ghost predicate SamePrograms(f: Fleet, g: Fleet) {
    g.procs.Keys == f.procs.Keys && forall r :: r in f.procs ==> g.procs[r].program == f.procs[r].program
  }

  ghost function Move(f: Fleet, run: string, a: Orchestrator.Action): (g: Fleet)
    requires run in f.procs
    ensures SamePrograms(f, g) && g.leases == f.leases
  {
    Orchestrator.StepKeepsProgram(f.procs[run], a);
    f.(procs := f.procs[run := Orchestrator.Step(f.procs[run], a)])
  }

  function Put(f: Fleet, worker: string, s: Worker.State): Fleet {
    f.(workers := f.workers[worker := s])
  }

  ghost function Begin(f: Fleet, run: string, program: Orchestrator.Program, request: Lease.Request,
                       nowNs: int): Fleet {
    if Free(f, run) && Admissible(program, request) && Orchestrator.Everyone(program) <= f.workers.Keys &&
       run !in f.leases.grants && Lease.Acquire(f.leases, run, request, nowNs).Granted?
    then f.(leases := Lease.AcquireStep(f.leases, run, request, nowNs),
            procs := f.procs[run := Orchestrator.Begin(program)])
    else f
  }

  ghost function Disable(f: Fleet, run: string, w: string): (g: Fleet)
    requires run in f.procs && w in f.workers
    ensures SamePrograms(f, g) && g.leases == f.leases
  {
    var p, s := f.procs[run], f.workers[w];
    if p.pc.Disabling? && w in p.pc.pending
    then Move(Put(f, w, Worker.Disable(s)), run, Orchestrator.DisableReply(w, Worker.DisableResult(s).Ok?)) else f
  }

  ghost function Prepare(f: Fleet, run: string, w: string): (g: Fleet)
    requires run in f.procs && w in f.workers
    ensures SamePrograms(f, g) && g.leases == f.leases
  {
    var p, s := f.procs[run], f.workers[w];
    if p.pc.Preparing? && w in p.pc.pending && p.pc.k < |p.program.phases| then
      var plan := PlanFor(p, run, p.pc.k);
      Move(Put(f, w, Worker.Prepare(s, plan)), run, Orchestrator.PrepareReply(w, Worker.PrepareResult(s, plan).Ok?))
    else f
  }

  /** The acknowledgement counts only under the run's and the phase's own identity. */
  ghost function Start(f: Fleet, run: string, w: string, deadlineUs: nat): (g: Fleet)
    requires run in f.procs && w in f.workers
    ensures SamePrograms(f, g) && g.leases == f.leases
  {
    var p, s := f.procs[run], f.workers[w];
    if p.pc.Scheduling? && w in p.pc.pending && p.pc.k < |p.program.phases| then
      var result := Worker.StartResult(s, deadlineUs);
      var good := result.Ok? && result.identity.runId == run &&
        result.identity.executionId == p.program.phases[p.pc.k].executionId;
      Move(Put(f, w, Worker.Start(s, deadlineUs)), run, Orchestrator.StartReply(w, good))
    else f
  }

  /** One turn of the event wait: stale events are dropped, decisive ones move the run. */
  ghost function Hear(f: Fleet, run: string, w: string): (g: Fleet)
    requires run in f.procs && w in f.workers
    ensures SamePrograms(f, g) && g.leases == f.leases
  {
    var p, s := f.procs[run], f.workers[w];
    if !(p.pc.AwaitingStart? || p.pc.AwaitingEnd?) || w !in p.pc.pending || p.pc.k >= |p.program.phases| then f
    else if s.status.Closed? then Move(f, run, Orchestrator.BadEvent(w))
    else if s.queue == [] then f
    else
      var e := s.queue[0];
      var h := Put(f, w, Worker.Take(s));
      var expected := if p.pc.AwaitingStart? then Worker.PhaseStarted else Worker.PhaseCompleted;
      var id := p.program.phases[p.pc.k].executionId;
      if !Worker.Decisive(e, run, id, expected) then h
      else if e.kind != expected then Move(h, run, Orchestrator.BadEvent(w))
      else if p.pc.AwaitingStart? then Move(h, run, Orchestrator.StartEvent(w, e.actualStartUs))
      else Move(h, run, Orchestrator.EndEvent(w))
  }

  ghost function StopBegins(f: Fleet, run: string, w: string): (g: Fleet)
    requires run in f.procs && w in f.workers
    ensures SamePrograms(f, g) && g.leases == f.leases
  {
    var p, s := f.procs[run], f.workers[w];
    if !(p.pc.Finishing? || p.pc.Failing?) || w !in p.pc.pending then f
    else
      var h := Move(Put(f, w, Worker.BeginStop(s)), run, Orchestrator.StopBegan(w));
      if s.status.Closed? then Move(h, run, Orchestrator.StopReply(w, false)) else h
  }

  ghost function StopEnds(f: Fleet, run: string, w: string): (g: Fleet)
    requires run in f.procs && w in f.workers
    ensures SamePrograms(f, g) && g.leases == f.leases
  {
    var p, s := f.procs[run], f.workers[w];
    if (p.pc.Finishing? || p.pc.Failing?) && w in p.pc.stopping
    then Move(Put(f, w, Worker.EndStop(s)), run, Orchestrator.StopReply(w, |s.queue| < s.limit)) else f
  }

  ghost function ReleaseLease(f: Fleet, run: string): (g: Fleet)
    requires run in f.procs
    ensures SamePrograms(f, g) && (g.leases == f.leases || g.leases == Lease.ReleaseStep(f.leases, run))
  {
    if f.procs[run].pc.Ended?
    then Move(f.(leases := Lease.ReleaseStep(f.leases, run)), run, Orchestrator.LeaseReleased) else f
  }

  ghost function Next(f: Fleet, e: Event): Fleet {
    match e
    case Execute(run, program, request, nowNs) => Begin(f, run, program, request, nowNs)
    case Journalled(run, ok) => if run in f.procs then Move(f, run, Orchestrator.Journalled(ok)) else f
    case CallDisable(run, w) => if run in f.procs && w in f.workers then Disable(f, run, w) else f
    case CallPrepare(run, w) => if run in f.procs && w in f.workers then Prepare(f, run, w) else f
    case CallStart(run, w, deadlineUs) => if run in f.procs && w in f.workers then Start(f, run, w, deadlineUs) else f
    case Receive(run, w) => if run in f.procs && w in f.workers then Hear(f, run, w) else f
    case Interrupt(run) => if run in f.procs then Move(f, run, Orchestrator.Interrupt) else f
    case BeginStop(run, w) => if run in f.procs && w in f.workers then StopBegins(f, run, w) else f
    case EndStop(run, w) => if run in f.procs && w in f.workers then StopEnds(f, run, w) else f
    case Release(run) => if run in f.procs then ReleaseLease(f, run) else f
    case Wake(w, task, nowUs) => if w in f.workers then Put(f, w, Worker.Wake(f.workers[w], task, nowUs)) else f
    case BeginClose(w) => if w in f.workers then Put(f, w, Worker.BeginStop(f.workers[w])) else f
    case EndClose(w) => if w in f.workers then Put(f, w, Worker.EndClose(f.workers[w])) else f
  }

  ghost function History(f: Fleet, events: seq<Event>): Fleet
    decreases |events|
  {
    if events == [] then f else History(Next(f, events[0]), events[1..])
  }

  // ---------- the invariant ----------

  /** The run may still be driving this worker: its final stop has not reached it. */
  predicate Driving(pc: Orchestrator.Pc, w: string) {
    pc.Preparing? || pc.Scheduling? || pc.AwaitingStart? || pc.AwaitingEnd? ||
    ((pc.Finishing? || pc.Failing?) && w in pc.pending + pc.stopping)
  }

  /** Pending workers of a phase belong to it. */
  ghost predicate PendingInv(p: Proc) {
    (p.pc.Preparing? || p.pc.Scheduling? || p.pc.AwaitingStart? || p.pc.AwaitingEnd? ==>
       p.pc.k < |p.program.phases| && p.pc.pending <= p.program.phases[p.pc.k].workers.Keys)
  }

  ghost predicate ProcInv(f: Fleet, run: string)
    requires run in f.procs
  {
    var p := f.procs[run];
    Lease.CanonicalKey(run) && PendingInv(p) &&
    (run in f.leases.grants <==> !p.pc.Released?) &&
    (run in f.leases.grants ==> Admissible(p.program, f.leases.grants[run].request))
  }

  predicate Active(s: Worker.State) {
    s.status.Prepared? || s.status.Scheduled? || s.status.Running?
  }

  /** The phase a worker's plan belongs to. */
  ghost predicate PlannedIn(p: Proc, w: string, executionId: string, k: nat) {
    k < |p.program.phases| && w in p.program.phases[k].workers && p.program.phases[k].executionId == executionId
  }

  ghost predicate WorkerInv(f: Fleet, w: string)
    requires w in f.workers
  {
    var s := f.workers[w];
    Active(s) ==>
      s.plan.Some? &&
      var id := s.plan.value.identity;
      id.runId in f.procs && Driving(f.procs[id.runId].pc, w) &&
      exists k: nat :: PlannedIn(f.procs[id.runId], w, id.executionId, k)
  }

  ghost predicate Inv(f: Fleet) {
    Lease.Exact(f.leases) &&
    (forall run :: run in f.leases.grants ==> run in f.procs) &&
    (forall run :: run in f.procs ==> ProcInv(f, run)) &&
    (forall w :: w in f.workers ==> WorkerInv(f, w))
  }

  // ---------- one run's move ----------

  lemma {:induction false} InEveryone(phases: seq<Orchestrator.Phase>, k: nat, w: string)
    requires k < |phases| && w in phases[k].workers
    ensures w in Orchestrator.Participants(phases)
    decreases k
  {
    if 0 < k { InEveryone(phases[1..], k - 1, w); }
  }

  lemma JournalMoves(p: Proc, ok: bool, w: string)
    requires PendingInv(p)
    ensures var p' := Orchestrator.Journal(p, ok);
            PendingInv(p') && p'.program == p.program && (p'.pc.Released? <==> p.pc.Released?) &&
            (Driving(p.pc, w) && w in Orchestrator.Everyone(p.program) ==> Driving(p'.pc, w))
  {
    hide Orchestrator.Everyone, Orchestrator.SkewOf, Orchestrator.IsSkew;
  }

  lemma ReplyMoves(p: Proc, a: Orchestrator.Action, w: string)
    requires PendingInv(p)
    ensures var p' := Orchestrator.Reply(p, a);
            PendingInv(p') && p'.program == p.program && (p'.pc.Released? <==> p.pc.Released?) &&
            (Driving(p.pc, w) && w in Orchestrator.Everyone(p.program) ==> Driving(p'.pc, w))
  {
    hide Orchestrator.Everyone;
  }

  /** A move of the run never lets go of a worker, except by the reply to its own stop. */
  lemma StepMoves(p: Proc, a: Orchestrator.Action, w: string)
    requires PendingInv(p) && !a.LeaseReleased? && !(a.StopReply? && a.worker == w)
    ensures var p' := Orchestrator.Step(p, a);
            PendingInv(p') && p'.program == p.program && (p'.pc.Released? <==> p.pc.Released?) &&
            (Driving(p.pc, w) && w in Orchestrator.Everyone(p.program) ==> Driving(p'.pc, w))
  {
    hide Orchestrator.Everyone, Orchestrator.Journal, Orchestrator.Reply;
    if a.Journalled? { JournalMoves(p, a.ok, w); } else { ReplyMoves(p, a, w); }
  }

  lemma PlanSurvives(p: Proc, p': Proc, w: string, executionId: string)
    requires p'.program == p.program && exists k: nat :: PlannedIn(p, w, executionId, k)
    ensures exists k: nat :: PlannedIn(p', w, executionId, k)
    ensures w in Orchestrator.Everyone(p.program)
  {
    var k: nat :| PlannedIn(p, w, executionId, k);
    InEveryone(p.program.phases, k, w);
    assert PlannedIn(p', w, executionId, k);
  }

  /** The worker, if active, is not held by this run. */
  predicate NotHeldBy(s: Worker.State, run: string) {
    Active(s) && s.plan.Some? ==> s.plan.value.identity.runId != run
  }

  lemma WorkerSurvivesMove(f: Fleet, run: string, a: Orchestrator.Action, w: string)
    requires run in f.procs && ProcInv(f, run) && w in f.workers && WorkerInv(f, w) && !a.LeaseReleased?
    requires a.StopReply? && a.worker == w ==> NotHeldBy(f.workers[w], run)
    ensures WorkerInv(Move(f, run, a), w)
  {
    hide Orchestrator.Step, PlannedIn, PendingInv, Orchestrator.Everyone, Admissible, Lease.CanonicalKey;
    var s, p := f.workers[w], f.procs[run];
    if Active(s) && s.plan.value.identity.runId == run {
      StepMoves(p, a, w);
      PlanSurvives(p, Orchestrator.Step(p, a), w, s.plan.value.identity.executionId);
    }
  }

  lemma MoveKeeps(f: Fleet, run: string, a: Orchestrator.Action)
    requires Inv(f) && run in f.procs && !a.LeaseReleased?
    requires a.StopReply? ==> a.worker in f.workers && NotHeldBy(f.workers[a.worker], run)
    ensures Inv(Move(f, run, a))
  {
    hide Orchestrator.Step, WorkerInv, PendingInv, Admissible, Lease.Exact, Lease.CanonicalKey;
    var g, p := Move(f, run, a), f.procs[run];
    forall w | w in g.workers
      ensures WorkerInv(g, w)
    {
      WorkerSurvivesMove(f, run, a, w);
    }
    StepFrame(p, a);
  }

  lemma StepFrame(p: Proc, a: Orchestrator.Action)
    requires PendingInv(p) && !a.LeaseReleased?
    ensures var p' := Orchestrator.Step(p, a);
            PendingInv(p') && p'.program == p.program && (p'.pc.Released? <==> p.pc.Released?)
  {
    hide Orchestrator.Everyone, Orchestrator.Journal, Orchestrator.Reply;
    if a.Journalled? { JournalMoves(p, a.ok, ""); } else { ReplyMoves(p, a, ""); }
  }

  // ---------- one worker's change ----------

  lemma PutKeeps(f: Fleet, w: string, s: Worker.State)
    requires Inv(f) && w in f.workers && WorkerInv(Put(f, w, s), w)
    ensures Inv(Put(f, w, s))
  {
    hide PendingInv, Admissible, Lease.Exact, Lease.CanonicalKey, PlannedIn;
    var g := Put(f, w, s);
    forall v | v in g.workers
      ensures WorkerInv(g, v)
    {
      assert v != w ==> WorkerInv(f, v);
    }
    forall run | run in g.procs
      ensures ProcInv(g, run)
    {
      assert ProcInv(f, run);
    }
  }

  /** A change that keeps an active worker's plan, or makes it inactive. */
  lemma QuietPut(f: Fleet, w: string, s: Worker.State)
    requires Inv(f) && w in f.workers && (Active(s) ==> Active(f.workers[w]) && s.plan == f.workers[w].plan)
    ensures Inv(Put(f, w, s))
  {
    hide PendingInv, Admissible, Lease.Exact, Lease.CanonicalKey, PlannedIn, ProcInv;
    assert WorkerInv(f, w);
    assert WorkerInv(Put(f, w, s), w);
    PutKeeps(f, w, s);
  }

  // ---------- every event ----------

  lemma DisableKeeps(f: Fleet, run: string, w: string)
    requires Inv(f) && run in f.procs && w in f.workers
    ensures Inv(Disable(f, run, w))
  {
    hide Inv, Move, Put;
    var s := f.workers[w];
    QuietPut(f, w, Worker.Disable(s));
    PutFrame(f, w, Worker.Disable(s));
    MoveKeeps(Put(f, w, Worker.Disable(s)), run, Orchestrator.DisableReply(w, Worker.DisableResult(s).Ok?));
  }

  lemma PutFrame(f: Fleet, w: string, s: Worker.State)
    ensures Put(f, w, s).procs == f.procs && Put(f, w, s).leases == f.leases &&
            Put(f, w, s).workers == f.workers[w := s]
  {
  }

  lemma PrepareKeeps(f: Fleet, run: string, w: string)
    requires Inv(f) && run in f.procs && w in f.workers
    ensures Inv(Prepare(f, run, w))
  {
    hide Inv, Move;
    var p, s := f.procs[run], f.workers[w];
    if p.pc.Preparing? && w in p.pc.pending && p.pc.k < |p.program.phases| {
      var plan := PlanFor(p, run, p.pc.k);
      PlanIsGood(f, run, p.pc.k);
      PreparePut(f, run, w);
      PutKeeps(f, w, Worker.Prepare(s, plan));
      MoveKeeps(Put(f, w, Worker.Prepare(s, plan)), run,
                Orchestrator.PrepareReply(w, Worker.PrepareResult(s, plan).Ok?));
    }
  }

  lemma PlanIsGood(f: Fleet, run: string, k: nat)
    requires Inv(f) && run in f.procs && !f.procs[run].pc.Released? && k < |f.procs[run].program.phases|
    ensures Worker.PlanOk(PlanFor(f.procs[run], run, k))
  {
    assert ProcInv(f, run);
  }

  lemma PreparePut(f: Fleet, run: string, w: string)
    requires Inv(f) && run in f.procs && w in f.workers
    requires var p := f.procs[run];
             p.pc.Preparing? && w in p.pc.pending && p.pc.k < |p.program.phases| &&
             Worker.PlanOk(PlanFor(p, run, p.pc.k))
    ensures WorkerInv(Put(f, w, Worker.Prepare(f.workers[w], PlanFor(f.procs[run], run, f.procs[run].pc.k))), w)
  {
    hide Admissible, Lease.Exact, Lease.CanonicalKey;
    var p := f.procs[run];
    var g := Put(f, w, Worker.Prepare(f.workers[w], PlanFor(p, run, p.pc.k)));
    assert WorkerInv(f, w) && ProcInv(f, run);
    assert PlannedIn(p, w, p.program.phases[p.pc.k].executionId, p.pc.k);
  }

  lemma StartKeeps(f: Fleet, run: string, w: string, deadlineUs: nat)
    requires Inv(f) && run in f.procs && w in f.workers
    ensures Inv(Start(f, run, w, deadlineUs))
  {
    hide Inv, Move, Put;
    var p, s := f.procs[run], f.workers[w];
    var s' := Worker.Start(s, deadlineUs);
    QuietPut(f, w, s');
    PutFrame(f, w, s');
    forall ok { MoveKeeps(Put(f, w, s'), run, Orchestrator.StartReply(w, ok)); }
  }

  lemma HearKeeps(f: Fleet, run: string, w: string)
    requires Inv(f) && run in f.procs && w in f.workers
    ensures Inv(Hear(f, run, w))
  {
    hide Inv, Move, Put, Worker.Decisive;
    var s := f.workers[w];
    QuietPut(f, w, Worker.Take(s));
    PutFrame(f, w, Worker.Take(s));
    var g := Put(f, w, Worker.Take(s));
    MoveKeeps(f, run, Orchestrator.BadEvent(w));
    MoveKeeps(g, run, Orchestrator.BadEvent(w));
    MoveKeeps(g, run, Orchestrator.EndEvent(w));
    if s.queue != [] { MoveKeeps(g, run, Orchestrator.StartEvent(w, s.queue[0].actualStartUs)); }
  }

  lemma StopBeginsKeeps(f: Fleet, run: string, w: string)
    requires Inv(f) && run in f.procs && w in f.workers
    ensures Inv(StopBegins(f, run, w))
  {
    hide Inv, Put;
    var s := f.workers[w];
    QuietPut(f, w, Worker.BeginStop(s));
    PutFrame(f, w, Worker.BeginStop(s));
    var g := Put(f, w, Worker.BeginStop(s));
    MoveKeeps(g, run, Orchestrator.StopBegan(w));
    var h := Move(g, run, Orchestrator.StopBegan(w));
    if s.status.Closed? { MoveKeeps(h, run, Orchestrator.StopReply(w, false)); }
  }

  lemma StopEndsKeeps(f: Fleet, run: string, w: string)
    requires Inv(f) && run in f.procs && w in f.workers
    ensures Inv(StopEnds(f, run, w))
  {
    hide Inv, Move, Put;
    var s := f.workers[w];
    QuietPut(f, w, Worker.EndStop(s));
    PutFrame(f, w, Worker.EndStop(s));
    MoveKeeps(Put(f, w, Worker.EndStop(s)), run, Orchestrator.StopReply(w, |s.queue| < s.limit));
  }

  lemma ReleaseKeeps(f: Fleet, run: string)
    requires Inv(f) && run in f.procs
    ensures Inv(ReleaseLease(f, run))
  {
    hide Admissible, Lease.Exact, Lease.CanonicalKey, PlannedIn, Lease.ReleaseStep, Orchestrator.Journal,
         Orchestrator.Reply;
    var g := ReleaseLease(f, run);
    if f.procs[run].pc.Ended? {
      assert ProcInv(f, run);
      Lease.ReleaseKeeps(f.leases, run);
      ReleaseGrants(f.leases, run);
      forall w | w in g.workers
        ensures WorkerInv(g, w)
      {
        assert WorkerInv(f, w);
      }
      forall r | r in g.procs
        ensures ProcInv(g, r)
      {
        assert ProcInv(f, r);
      }
    }
  }

  lemma ReleaseGrants(s: Lease.Leases, run: string)
    requires Lease.CanonicalKey(run)
    ensures Lease.ReleaseStep(s, run).grants == s.grants - {run}
  {
  }

  lemma AcquireGrants(s: Lease.Leases, run: string, request: Lease.Request, nowNs: int)
    requires run !in s.grants && Lease.Acquire(s, run, request, nowNs).Granted?
    ensures Lease.AcquireStep(s, run, request, nowNs).grants == s.grants[run := Lease.Grant(request, nowNs)]
    ensures Lease.CanonicalKey(run)
  {
  }

  lemma BeginKeeps(f: Fleet, run: string, program: Orchestrator.Program, request: Lease.Request, nowNs: int)
    requires Inv(f)
    ensures Inv(Begin(f, run, program, request, nowNs))
  {
    hide Admissible, Lease.Exact, Lease.CanonicalKey, PlannedIn, Lease.AcquireStep, Lease.Acquire,
         Orchestrator.Everyone;
    var g := Begin(f, run, program, request, nowNs);
    if g != f {
      Lease.AcquireKeeps(f.leases, run, request, nowNs);
      AcquireGrants(f.leases, run, request, nowNs);
      forall w | w in g.workers
        ensures WorkerInv(g, w)
      {
        assert WorkerInv(f, w);
      }
      forall r | r in g.procs
        ensures ProcInv(g, r)
      {
        assert r != run ==> ProcInv(f, r);
      }
    }
  }

  lemma NextKeeps(f: Fleet, e: Event)
    requires Inv(f)
    ensures Inv(Next(f, e))
  {
    hide Inv, Begin, Disable, Prepare, Start, Hear, StopBegins, StopEnds, ReleaseLease, Move, Put, Worker.Wake,
         Worker.BeginStop, Worker.EndClose, SamePrograms;
    match e
    case Execute(run, program, request, nowNs) => BeginKeeps(f, run, program, request, nowNs);
    case Journalled(run, ok) => if run in f.procs { MoveKeeps(f, run, Orchestrator.Journalled(ok)); }
    case CallDisable(run, w) => if run in f.procs && w in f.workers { DisableKeeps(f, run, w); }
    case CallPrepare(run, w) => if run in f.procs && w in f.workers { PrepareKeeps(f, run, w); }
    case CallStart(run, w, deadlineUs) => if run in f.procs && w in f.workers { StartKeeps(f, run, w, deadlineUs); }
    case Receive(run, w) => if run in f.procs && w in f.workers { HearKeeps(f, run, w); }
    case Interrupt(run) => if run in f.procs { MoveKeeps(f, run, Orchestrator.Interrupt); }
    case BeginStop(run, w) => if run in f.procs && w in f.workers { StopBeginsKeeps(f, run, w); }
    case EndStop(run, w) => if run in f.procs && w in f.workers { StopEndsKeeps(f, run, w); }
    case Release(run) => if run in f.procs { ReleaseKeeps(f, run); }
    case _ => OwnEventKeeps(f, e);
  }

  /** What a worker does by itself. */
  lemma OwnEventKeeps(f: Fleet, e: Event)
    requires Inv(f) && (e.Wake? || e.BeginClose? || e.EndClose?)
    ensures Inv(Next(f, e))
  {
    hide Inv, Put, Worker.Wake;
    match e
    case Wake(w, task, nowUs) =>
      if w in f.workers {
        WakeIsQuiet(f.workers[w], task, nowUs);
        QuietPut(f, w, Worker.Wake(f.workers[w], task, nowUs));
      }
    case BeginClose(w) => if w in f.workers { QuietPut(f, w, Worker.BeginStop(f.workers[w])); }
    case EndClose(w) => if w in f.workers { QuietPut(f, w, Worker.EndClose(f.workers[w])); }
  }

  lemma WakeIsQuiet(s: Worker.State, task: nat, nowUs: int)
    ensures var s' := Worker.Wake(s, task, nowUs); s'.plan == s.plan && (Active(s') ==> Active(s))
  {
  }

  lemma {:induction false} HistoryKeeps(f: Fleet, events: seq<Event>)
    requires Inv(f)
    ensures Inv(History(f, events))
    decreases |events|
  {
    hide Inv, Next;
    if events != [] {
      NextKeeps(f, events[0]);
      HistoryKeeps(Next(f, events[0]), events[1..]);
    }
  }

  // ---------- guarantees ----------

  /** Idle workers, no runs, no leases. */
  ghost predicate Fresh(f: Fleet) {
    f.leases == Lease.EMPTY && f.procs == map[] && forall w :: w in f.workers ==> f.workers[w].status.Created?
  }

  lemma FreshIsGood(f: Fleet)
    requires Fresh(f)
    ensures Inv(f)
  {
  }

  /** Over any number of concurrent runs: whenever a worker is scheduled or running, the
      run named in its plan holds the lease on every leaf that plan commands. */
  lemma DrivingRunHoldsLeaves(f: Fleet, events: seq<Event>, w: string)
    requires Fresh(f) && w in History(f, events).workers
    requires var s := History(f, events).workers[w]; s.status.Scheduled? || s.status.Running?
    ensures var g := History(f, events);
            g.workers[w].plan.Some? &&
            var id := g.workers[w].plan.value.identity;
            id.runId in g.procs && id.runId in g.leases.grants &&
            exists k: nat :: PlannedIn(g.procs[id.runId], w, id.executionId, k) &&
              forall leaf :: leaf in g.procs[id.runId].program.phases[k].workers[w] ==>
                var t := Lease.Target(Lease.Leaf, leaf);
                t in g.leases.owners && g.leases.owners[t] == id.runId
  {
    hide History;
    var g := History(f, events);
    FreshIsGood(f);
    HistoryKeeps(f, events);
    assert WorkerInv(g, w);
    var id := g.workers[w].plan.value.identity;
    var k: nat :| PlannedIn(g.procs[id.runId], w, id.executionId, k);
    assert ProcInv(g, id.runId);
    LeavesAreOwned(g, id.runId, k, w);
  }

  lemma LeavesAreOwned(g: Fleet, run: string, k: nat, w: string)
    requires Lease.Exact(g.leases) && run in g.procs && ProcInv(g, run) && run in g.leases.grants
    requires k < |g.procs[run].program.phases| && w in g.procs[run].program.phases[k].workers
    ensures forall leaf :: leaf in g.procs[run].program.phases[k].workers[w] ==>
              var t := Lease.Target(Lease.Leaf, leaf); t in g.leases.owners && g.leases.owners[t] == run
  {
    var request := g.leases.grants[run].request;
    forall leaf | leaf in g.procs[run].program.phases[k].workers[w]
      ensures var t := Lease.Target(Lease.Leaf, leaf); t in g.leases.owners && g.leases.owners[t] == run
    {
      assert leaf in request.leaves;
      assert Lease.Target(Lease.Leaf, leaf) in request.Targets();
    }
  }

  /** Every live run that involves worker `w` leases `guard` as well. */
  ghost predicate Guarded(g: Fleet, w: string, guard: Lease.Target) {
    forall run :: run in g.leases.grants && run in g.procs && w in Orchestrator.Everyone(g.procs[run].program) ==>
      guard in g.leases.grants[run].request.Targets()
  }

  /** Every submitted program that involves `w` asks for `guard`: what the lock walk yields
      when the physical node behind `w` declares a resource or a safety domain. */
  ghost predicate AsksForGuard(e: Event, w: string, guard: Lease.Target) {
    e.Execute? && w in Orchestrator.Everyone(e.program) ==> guard in e.request.Targets()
  }

  lemma SameGrants(f: Fleet, e: Event, run: string)
    requires Inv(f) && !e.Execute? && run in Next(f, e).leases.grants && run in Next(f, e).procs
    ensures run in f.leases.grants && run in f.procs && Next(f, e).leases.grants[run] == f.leases.grants[run]
    ensures Next(f, e).procs[run].program == f.procs[run].program
  {
    hide Disable, Prepare, Start, Hear, StopBegins, StopEnds, ReleaseLease, Move, Lease.ReleaseStep, Worker.Wake,
         Worker.EndClose;
    if e.Release? && e.run in f.procs {
      assert ProcInv(f, e.run);
      ReleaseGrants(f.leases, e.run);
    }
  }

  lemma GuardStep(f: Fleet, e: Event, w: string, guard: Lease.Target)
    requires Inv(f) && Guarded(f, w, guard) && AsksForGuard(e, w, guard)
    ensures Guarded(Next(f, e), w, guard)
  {
    hide Next, Orchestrator.Everyone, Lease.Request.Targets, Inv;
    var g := Next(f, e);
    forall run | run in g.leases.grants && run in g.procs && w in Orchestrator.Everyone(g.procs[run].program)
      ensures guard in g.leases.grants[run].request.Targets()
    {
      if e.Execute? { BeginGrants(f, e, run); } else { SameGrants(f, e, run); }
    }
  }

  lemma BeginGrants(f: Fleet, e: Event, run: string)
    requires Inv(f) && e.Execute? && run in Next(f, e).leases.grants && run in Next(f, e).procs
    ensures var g := Next(f, e);
            (run in f.leases.grants && run in f.procs && g.leases.grants[run] == f.leases.grants[run] &&
             g.procs[run] == f.procs[run]) ||
            (run == e.run && g.leases.grants[run].request == e.request && g.procs[run].program == e.program)
  {
    hide Lease.AcquireStep, Lease.Acquire, Admissible, Orchestrator.Everyone;
    if Next(f, e) != f { AcquireGrants(f.leases, e.run, e.request, e.nowNs); }
  }

  lemma {:induction false} GuardHistory(f: Fleet, events: seq<Event>, w: string, guard: Lease.Target)
    requires Inv(f) && Guarded(f, w, guard)
    requires forall i :: 0 <= i < |events| ==> AsksForGuard(events[i], w, guard)
    ensures Guarded(History(f, events), w, guard)
    decreases |events|
  {
    hide Inv, Next, Guarded, AsksForGuard;
    if events != [] {
      GuardStep(f, events[0], w, guard);
      NextKeeps(f, events[0]);
      GuardHistory(Next(f, events[0]), events[1..], w, guard);
    }
  }

  /** If every submitted program involving a worker asks for a common resource or safety
      domain, no two live runs ever involve that worker, whichever roots they were
      compiled for. */
  lemma OneRunPerWorker(f: Fleet, events: seq<Event>, w: string, guard: Lease.Target, a: string, b: string)
    requires Fresh(f) && forall i :: 0 <= i < |events| ==> AsksForGuard(events[i], w, guard)
    requires var g := History(f, events);
             a in g.procs && !g.procs[a].pc.Released? && w in Orchestrator.Everyone(g.procs[a].program) &&
             b in g.procs && !g.procs[b].pc.Released? && w in Orchestrator.Everyone(g.procs[b].program)
    ensures a == b
  {
    hide History, Orchestrator.Everyone, Lease.Request.Targets;
    var g := History(f, events);
    FreshIsGood(f);
    HistoryKeeps(f, events);
    GuardHistory(f, events, w, guard);
    assert ProcInv(g, a) && ProcInv(g, b);
    OwnerOf(g.leases, a, guard);
    OwnerOf(g.leases, b, guard);
  }

  lemma OwnerOf(s: Lease.Leases, run: string, t: Lease.Target)
    requires Lease.Exact(s) && run in s.grants && t in s.grants[run].request.Targets()
    ensures t in s.owners && s.owners[t] == run
  {
    hide Lease.Request.Targets;
  }

  // ---------- every run of the fleet follows the protocol ----------

  ghost predicate Legal(p: Proc) {
    Orchestrator.JournalInv(p) && Orchestrator.BarrierInv(p) && Replies.ReplyInv(p)
  }

  ghost predicate AllLegal(f: Fleet) {
    forall run :: run in f.procs ==> Legal(f.procs[run])
  }

  lemma LegalMove(f: Fleet, run: string, a: Orchestrator.Action)
    requires AllLegal(f) && run in f.procs
    ensures AllLegal(Move(f, run, a))
  {
    hide Orchestrator.Step, Orchestrator.JournalInv, Orchestrator.BarrierInv, Replies.ReplyInv, SamePrograms;
    Orchestrator.JournalKeeps(f.procs[run], a);
    Orchestrator.BarriersKeep(f.procs[run], a);
    Replies.ReplyInvKeeps(f.procs[run], a);
  }

  lemma LegalCalls(f: Fleet, run: string, w: string, deadlineUs: nat)
    requires AllLegal(f) && run in f.procs && w in f.workers
    ensures AllLegal(Disable(f, run, w)) && AllLegal(Prepare(f, run, w)) && AllLegal(Start(f, run, w, deadlineUs))
  {
    hide Legal, Move, SamePrograms, Worker.Disable, Worker.Prepare, Worker.Start, Worker.DisableResult,
         Worker.PrepareResult, Worker.StartResult;
    forall s, a { LegalMove(Put(f, w, s), run, a); }
  }

  lemma LegalStops(f: Fleet, run: string, w: string)
    requires AllLegal(f) && run in f.procs && w in f.workers
    ensures AllLegal(StopBegins(f, run, w)) && AllLegal(StopEnds(f, run, w))
  {
    hide Legal, Move, Worker.BeginStop, Worker.EndStop;
    forall s, a { LegalMove(Put(f, w, s), run, a); }
    var h := Move(Put(f, w, Worker.BeginStop(f.workers[w])), run, Orchestrator.StopBegan(w));
    LegalMove(h, run, Orchestrator.StopReply(w, false));
  }

  lemma LegalHear(f: Fleet, run: string, w: string)
    requires AllLegal(f) && run in f.procs && w in f.workers
    ensures AllLegal(Hear(f, run, w))
  {
    hide Legal, Move, SamePrograms, Worker.Take, Worker.Decisive;
    LegalMove(f, run, Orchestrator.BadEvent(w));
    forall s, a { LegalMove(Put(f, w, s), run, a); }
  }

  lemma LegalRelease(f: Fleet, run: string)
    requires AllLegal(f) && run in f.procs
    ensures AllLegal(ReleaseLease(f, run))
  {
    hide Legal, Move, SamePrograms, Lease.ReleaseStep;
    forall leases { LegalMove(f.(leases := leases), run, Orchestrator.LeaseReleased); }
  }

  lemma LegalNext(f: Fleet, e: Event)
    requires AllLegal(f)
    ensures AllLegal(Next(f, e))
  {
    hide AllLegal, SamePrograms, Begin, Disable, Prepare, Start, Hear, StopBegins, StopEnds, ReleaseLease, Move, Put,
         Worker.Wake, Worker.EndClose;
    match e
    case Execute(run, program, request, nowNs) => LegalBegin(f, run, program, request, nowNs);
    case Journalled(run, ok) => if run in f.procs { LegalMove(f, run, Orchestrator.Journalled(ok)); }
    case CallDisable(run, w) => if run in f.procs && w in f.workers { LegalCalls(f, run, w, 0); }
    case CallPrepare(run, w) => if run in f.procs && w in f.workers { LegalCalls(f, run, w, 0); }
    case CallStart(run, w, deadlineUs) => if run in f.procs && w in f.workers { LegalCalls(f, run, w, deadlineUs); }
    case Receive(run, w) => if run in f.procs && w in f.workers { LegalHear(f, run, w); }
    case Interrupt(run) => if run in f.procs { LegalMove(f, run, Orchestrator.Interrupt); }
    case BeginStop(run, w) => if run in f.procs && w in f.workers { LegalStops(f, run, w); }
    case EndStop(run, w) => if run in f.procs && w in f.workers { LegalStops(f, run, w); }
    case Release(run) => if run in f.procs { LegalRelease(f, run); }
    case Wake(w, task, nowUs) => if w in f.workers { LegalPut(f, w, Worker.Wake(f.workers[w], task, nowUs)); }
    case BeginClose(w) => if w in f.workers { LegalPut(f, w, Worker.BeginStop(f.workers[w])); }
    case EndClose(w) => if w in f.workers { LegalPut(f, w, Worker.EndClose(f.workers[w])); }
  }

  lemma LegalPut(f: Fleet, w: string, s: Worker.State)
    requires AllLegal(f)
    ensures AllLegal(Put(f, w, s))
  {
    hide Legal;
  }

  lemma LegalBegin(f: Fleet, run: string, program: Orchestrator.Program, request: Lease.Request, nowNs: int)
    requires AllLegal(f)
    ensures AllLegal(Begin(f, run, program, request, nowNs))
  {
    hide Legal, Lease.Acquire, Lease.AcquireStep, Admissible, Orchestrator.Everyone, Free;
    BeginIsLegal(program);
  }

  lemma BeginIsLegal(program: Orchestrator.Program)
    ensures Legal(Orchestrator.Begin(program))
  {
    assert Orchestrator.Word(|program.phases|)[..0] == [];
    Orchestrator.NothingYet(program);
    Replies.NothingSaid(program);
  }

  lemma {:induction false} LegalHistory(f: Fleet, events: seq<Event>)
    requires AllLegal(f)
    ensures AllLegal(History(f, events))
    decreases |events|
  {
    hide AllLegal, Next;
    if events != [] {
      LegalNext(f, events[0]);
      LegalHistory(Next(f, events[0]), events[1..]);
    }
  }

  /** Whatever the other runs do, each run's journal is a word of the protocol, its own
      calls respect the barriers, and its completed phases respect the skew limit. */
  lemma EveryRunFollowsProtocol(f: Fleet, events: seq<Event>, run: string)
    requires Fresh(f) && run in History(f, events).procs
    ensures var p := History(f, events).procs[run];
            Orchestrator.JournalInv(p) && Orchestrator.Ordered(p.program, p.trace) && Replies.Vouched(p) &&
            Replies.StopsLast(p.trace) &&
            forall k :: Orchestrator.PhaseCompleted(k) in p.journal ==> Orchestrator.SkewRecorded(p, k)
  {
    hide History, Orchestrator.JournalInv, Orchestrator.Ordered, Orchestrator.SkewRecorded, Replies.Vouched,
         Replies.StopsLast;
    LegalHistory(f, events);
    assert Legal(History(f, events).procs[run]);
  }
}
