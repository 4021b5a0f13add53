/** What a run's journal says, checked against what its workers really delivered: the
    fleet of Fleet.dfy seen from the workers' side. */
module Evidence {
  import Lease
  import Worker
  import Orchestrator
  import Replies
  import opened Deliveries
  import opened Fleet

  // ---------- one run ----------

  predicate DistinctExecutions(program: Orchestrator.Program) {
    forall i, k :: 0 <= i < k < |program.phases| ==> program.phases[i].executionId != program.phases[k].executionId
  }

  function IdOf(p: Proc, run: string, k: nat): Worker.Identity
    requires k < |p.program.phases|
  {
    PlanFor(p, run, k).identity
  }

  /** The run has not yet called prepare_phase on worker `w` for phase `k`. */
  predicate NotYet(p: Proc, k: nat, w: string) {
    p.journal == [] ||
    match p.pc
    case Opening => true
    case Disabling(_, _) => true
    case Preparing(j, pending, _) => j < k || (j == k && w in pending)
    case Scheduling(j, _, _) => j < k
    case AwaitingStart(j, _, _) => j < k
    case AwaitingEnd(j, _) => j < k
    case _ => false
  }

  lemma NotYetShrinks(p: Proc, a: Orchestrator.Action, k: nat, w: string)
    requires !NotYet(p, k, w)
    ensures !NotYet(Orchestrator.Step(p, a), k, w)
  {
    hide Orchestrator.Everyone, Orchestrator.SkewOf, Orchestrator.IsSkew, Orchestrator.SkewAcceptable;
  }

  /** A completed phase was seen to end on each of its workers. */
  ghost predicate EndsSeen(p: Proc) {
    forall k :: Orchestrator.PhaseCompleted(k) in p.journal ==> Orchestrator.AllEnded(p.program, k, {}, p.trace)
  }

  lemma EndsSeenKeeps(p: Proc, a: Orchestrator.Action)
    requires Orchestrator.BarrierInv(p) && EndsSeen(p)
    ensures EndsSeen(Orchestrator.Step(p, a))
  {
    hide Orchestrator.Step, Orchestrator.BarrierInv, Orchestrator.AllEnded;
    var p' := Orchestrator.Step(p, a);
    TraceGrows(p, a);
    forall k | Orchestrator.PhaseCompleted(k) in p'.journal
      ensures Orchestrator.AllEnded(p'.program, k, {}, p'.trace)
    {
      if Orchestrator.PhaseCompleted(k) !in p.journal { CompletesHere(p, a, k); }
      EndsLast(p, p', k);
    }
  }

  lemma EndsLast(p: Proc, p': Proc, k: nat)
    requires Orchestrator.AllEnded(p.program, k, {}, p.trace) && p'.program == p.program && p.trace <= p'.trace
    ensures Orchestrator.AllEnded(p'.program, k, {}, p'.trace)
  {
  }

  /** A phase is journalled as completed only at its end barrier. */
  lemma CompletesHere(p: Proc, a: Orchestrator.Action, k: nat)
    requires Orchestrator.BarrierInv(p)
    requires Orchestrator.PhaseCompleted(k) in Orchestrator.Step(p, a).journal
    requires Orchestrator.PhaseCompleted(k) !in p.journal
    ensures Orchestrator.AllEnded(p.program, k, {}, p.trace)
  {
    hide Orchestrator.Everyone, Orchestrator.SkewOf, Orchestrator.IsSkew, Orchestrator.SkewAcceptable,
         Orchestrator.Ordered, Orchestrator.SkewRecorded, Orchestrator.AllPrepared, Orchestrator.AllEnded,
         Orchestrator.Reply, Orchestrator.StopProgress;
    QuietJournal(p, a);
  }

  lemma QuietJournal(p: Proc, a: Orchestrator.Action)
    ensures a.Journalled? || Orchestrator.Step(p, a).journal == p.journal
  {
    hide Orchestrator.Journal, Orchestrator.Everyone;
  }

  /** What a step adds to the trace, as far as worker events go. */
  ghost predicate TraceStep(p: Proc, p': Proc, a: Orchestrator.Action) {
    p'.program == p.program && p.trace <= p'.trace &&
    forall x :: x in p'.trace && x !in p.trace ==>
      (x.SawStart? ==> a.StartEvent? && p.pc.AwaitingStart? && x == Orchestrator.SawStart(a.worker, p.pc.k, a.atUs)) &&
      (x.SawEnd? ==> a.EndEvent? && p.pc.AwaitingEnd? && x == Orchestrator.SawEnd(a.worker, p.pc.k))
  }

  lemma TraceGrows(p: Proc, a: Orchestrator.Action)
    ensures TraceStep(p, Orchestrator.Step(p, a), a)
  {
    hide Orchestrator.Everyone, Orchestrator.SkewOf, Orchestrator.IsSkew, Orchestrator.SkewAcceptable;
  }

  // ---------- one run and one worker ----------

  /** Every identity of the run that the worker knows is that of a phase it was prepared for. */
  ghost predicate Sourced(p: Proc, s: Worker.State, run: string, w: string) {
    forall id: Worker.Identity :: id.runId == run && Known(s, id) ==>
      exists k: nat :: k < |p.program.phases| && id == IdOf(p, run, k) && !NotYet(p, k, w)
  }

  predicate Seen(p: Proc, s: Worker.State, run: string, k: nat, kind: Worker.Kind, i: int) {
    k < |p.program.phases| && 0 <= i < |Delivered(s.log)| - |s.queue| &&
    Delivered(s.log)[i].kind == kind && Worker.Matches(Delivered(s.log)[i], run, p.program.phases[k].executionId)
  }

  ghost predicate StartSeen(p: Proc, s: Worker.State, run: string, k: nat) {
    exists i :: Seen(p, s, run, k, Worker.PhaseStarted, i)
  }

  ghost predicate BothSeen(p: Proc, s: Worker.State, run: string, k: nat) {
    exists i, j :: i < j && Seen(p, s, run, k, Worker.PhaseStarted, i) && Seen(p, s, run, k, Worker.PhaseCompleted, j)
  }

  /** What the run has noted of the worker was taken from the worker's queue, in order. */
  ghost predicate Backed(p: Proc, s: Worker.State, run: string, w: string) {
    (forall k, atUs :: Orchestrator.SawStart(w, k, atUs) in p.trace ==> StartSeen(p, s, run, k)) &&
    (forall k :: Orchestrator.SawEnd(w, k) in p.trace ==> BothSeen(p, s, run, k))
  }

  lemma SourcedByMove(p: Proc, s: Worker.State, run: string, w: string, a: Orchestrator.Action)
    requires Sourced(p, s, run, w)
    ensures Sourced(Orchestrator.Step(p, a), s, run, w)
  {
    hide NotYet, Orchestrator.Step, Known;
    var p' := Orchestrator.Step(p, a);
    Orchestrator.StepKeepsProgram(p, a);
    forall id: Worker.Identity | id.runId == run && Known(s, id)
      ensures exists k: nat :: k < |p'.program.phases| && id == IdOf(p', run, k) && !NotYet(p', k, w)
    {
      var k: nat :| k < |p.program.phases| && id == IdOf(p, run, k) && !NotYet(p, k, w);
      NotYetShrinks(p, a, k, w);
      assert id == IdOf(p', run, k);
    }
  }

  /** A worker event that the run notes has been taken from the worker's queue. */
  ghost predicate Supported(p: Proc, s: Worker.State, run: string, w: string, a: Orchestrator.Action) {
    (a.StartEvent? && a.worker == w && p.pc.AwaitingStart? ==> StartSeen(p, s, run, p.pc.k)) &&
    (a.EndEvent? && a.worker == w && p.pc.AwaitingEnd? ==> BothSeen(p, s, run, p.pc.k))
  }

  lemma BackedByMove(p: Proc, s: Worker.State, run: string, w: string, a: Orchestrator.Action)
    requires Backed(p, s, run, w) && Supported(p, s, run, w, a)
    ensures Backed(Orchestrator.Step(p, a), s, run, w)
  {
    hide Orchestrator.Step, Delivered, StartSeen, BothSeen;
    TraceGrows(p, a);
    SameSeen(p, Orchestrator.Step(p, a), s, run);
  }

  lemma SameSeen(p: Proc, p': Proc, s: Worker.State, run: string)
    requires p'.program == p.program
    ensures forall k :: StartSeen(p, s, run, k) ==> StartSeen(p', s, run, k)
    ensures forall k :: BothSeen(p, s, run, k) ==> BothSeen(p', s, run, k)
  {
    hide Delivered;
    forall k, kind, i
      ensures Seen(p, s, run, k, kind, i) == Seen(p', s, run, k, kind, i)
    {
    }
  }

  lemma BackedByLater(p: Proc, s: Worker.State, s': Worker.State, run: string, w: string)
    requires Backed(p, s, run, w) && Later(s, s')
    ensures Backed(p, s', run, w)
  {
    hide Delivered, Queued;
    forall k, kind, i | Seen(p, s, run, k, kind, i)
      ensures Seen(p, s', run, k, kind, i)
    {
    }
    forall k | StartSeen(p, s, run, k)
      ensures StartSeen(p, s', run, k)
    {
      var i :| Seen(p, s, run, k, Worker.PhaseStarted, i);
    }
    forall k | BothSeen(p, s, run, k)
      ensures BothSeen(p, s', run, k)
    {
      var i, j :| i < j && Seen(p, s, run, k, Worker.PhaseStarted, i) && Seen(p, s, run, k, Worker.PhaseCompleted, j);
    }
  }

  lemma SourcedByStep(p: Proc, s: Worker.State, a: Worker.Action, run: string, w: string)
    requires Worker.Inv(s) && Sourced(p, s, run, w) && !a.DoPrepare?
    ensures Sourced(p, Worker.Step(s, a), run, w)
  {
    hide NotYet, Worker.Inv, Worker.Step, Known;
    forall id: Worker.Identity | Known(Worker.Step(s, a), id)
      ensures Known(s, id)
    {
      KnownBefore(s, a, id);
    }
  }

  // ---------- the fleet ----------

  ghost predicate WorkerOk(s: Worker.State) {
    Worker.Inv(s) && Queued(s) && Once(s)
  }

  ghost predicate PairOk(p: Proc, s: Worker.State, run: string, w: string) {
    Sourced(p, s, run, w) && Backed(p, s, run, w)
  }

  ghost predicate RunOk(p: Proc) {
    EndsSeen(p) && DistinctExecutions(p.program) && Legal(p)
  }

  ghost predicate NoStrangers(f: Fleet, s: Worker.State) {
    forall id: Worker.Identity :: Known(s, id) ==> id.runId in f.procs
  }

  ghost predicate Staffed(f: Fleet, p: Proc) {
    Orchestrator.Everyone(p.program) <= f.workers.Keys
  }

  ghost predicate EvidenceInv(f: Fleet) {
    (forall w :: w in f.workers ==> WorkerOk(f.workers[w]) && NoStrangers(f, f.workers[w])) &&
    (forall run :: run in f.procs ==> RunOk(f.procs[run]) && Staffed(f, f.procs[run])) &&
    (forall run, w :: run in f.procs && w in f.workers ==> PairOk(f.procs[run], f.workers[w], run, w))
  }

  lemma WorkerStepOk(f: Fleet, w: string, a: Worker.Action)
    requires EvidenceInv(f) && w in f.workers && !a.DoPrepare?
    ensures var s' := Worker.Step(f.workers[w], a);
            WorkerOk(s') && NoStrangers(f, s') && forall run :: run in f.procs ==> PairOk(f.procs[run], s', run, w)
  {
    hide Worker.Inv, Worker.Step, Queued, Once, Known, Sourced, Backed, RunOk;
    var s := f.workers[w];
    Worker.StepKeeps(s, a);
    StepIsLater(s, a);
    LaterIsQueued(s, Worker.Step(s, a));
    OnceKeeps(s, a);
    forall id: Worker.Identity | Known(Worker.Step(s, a), id) { KnownBefore(s, a, id); }
    forall run | run in f.procs
      ensures PairOk(f.procs[run], Worker.Step(s, a), run, w)
    {
      assert PairOk(f.procs[run], s, run, w);
      SourcedByStep(f.procs[run], s, a, run, w);
      BackedByLater(f.procs[run], s, Worker.Step(s, a), run, w);
    }
  }

  lemma LaterIsQueued(s: Worker.State, s': Worker.State)
    requires Later(s, s')
    ensures Queued(s')
  {
  }

  lemma PutOk(f: Fleet, w: string, s: Worker.State)
    requires EvidenceInv(f) && w in f.workers && WorkerOk(s) && NoStrangers(f, s)
    requires forall run :: run in f.procs ==> PairOk(f.procs[run], s, run, w)
    ensures EvidenceInv(Put(f, w, s))
  {
    hide WorkerOk, PairOk, RunOk, Known;
    var g := Put(f, w, s);
    assert forall v :: v in f.workers ==> NoStrangers(f, f.workers[v]);
    assert forall v :: v in g.workers ==> NoStrangers(g, g.workers[v]);
  }

  lemma StepOk(f: Fleet, w: string, a: Worker.Action)
    requires EvidenceInv(f) && w in f.workers && !a.DoPrepare?
    ensures EvidenceInv(Put(f, w, Worker.Step(f.workers[w], a)))
  {
    hide EvidenceInv, Worker.Step, WorkerOk, NoStrangers, PairOk;
    WorkerStepOk(f, w, a);
    PutOk(f, w, Worker.Step(f.workers[w], a));
  }

  lemma RunStepOk(p: Proc, a: Orchestrator.Action)
    requires RunOk(p)
    ensures RunOk(Orchestrator.Step(p, a))
  {
    hide EndsSeen, Orchestrator.Step, Orchestrator.JournalInv, Orchestrator.BarrierInv, Replies.ReplyInv;
    EndsSeenKeeps(p, a);
    Orchestrator.StepKeepsProgram(p, a);
    Orchestrator.JournalKeeps(p, a);
    Orchestrator.BarriersKeep(p, a);
    Replies.ReplyInvKeeps(p, a);
  }

  lemma MoveOk(f: Fleet, run: string, a: Orchestrator.Action)
    requires EvidenceInv(f) && run in f.procs
    requires a.StartEvent? || a.EndEvent? ==>
             a.worker in f.workers && Supported(f.procs[run], f.workers[a.worker], run, a.worker, a)
    ensures EvidenceInv(Move(f, run, a))
  {
    hide WorkerOk, Known, Sourced, Backed, RunOk, Orchestrator.Step, SamePrograms, StartSeen, BothSeen;
    var g := Move(f, run, a);
    RunStepOk(f.procs[run], a);
    Orchestrator.StepKeepsProgram(f.procs[run], a);
    forall w | w in f.workers
      ensures PairOk(g.procs[run], f.workers[w], run, w)
    {
      assert PairOk(f.procs[run], f.workers[w], run, w);
      SourcedByMove(f.procs[run], f.workers[w], run, w, a);
      BackedByMove(f.procs[run], f.workers[w], run, w, a);
    }
    StrangersByMove(f, g);
  }

  lemma StrangersByMove(f: Fleet, g: Fleet)
    requires f.procs.Keys <= g.procs.Keys
    ensures forall s :: NoStrangers(f, s) ==> NoStrangers(g, s)
  {
    hide Known;
  }

  // ---------- preparing ----------

  /** A phase that is still to be prepared is under an identity the worker has never seen. */
  lemma StillUnknown(p: Proc, s: Worker.State, run: string, w: string, k: nat)
    requires Sourced(p, s, run, w) && DistinctExecutions(p.program) && k < |p.program.phases| && NotYet(p, k, w)
    ensures !Known(s, IdOf(p, run, k))
  {
    hide Known;
    assert forall j :: 0 <= j < |p.program.phases| && IdOf(p, run, j) == IdOf(p, run, k) ==>
             p.program.phases[j].executionId == p.program.phases[k].executionId;
  }

  lemma PreparedNow(p: Proc, w: string, ok: bool)
    requires Orchestrator.JournalInv(p) && p.pc.Preparing? && w in p.pc.pending
    ensures NotYet(p, p.pc.k, w) && !NotYet(Orchestrator.Step(p, Orchestrator.PrepareReply(w, ok)), p.pc.k, w)
  {
    hide Orchestrator.Word, Orchestrator.EndOfJournal;
  }

  lemma PrepareSourced(p: Proc, s: Worker.State, run: string, w: string, plan: Worker.Plan, k: nat)
    requires Worker.Inv(s) && Sourced(p, s, run, w)
    requires plan.identity.runId == run ==>
             k < |p.program.phases| && plan.identity == IdOf(p, run, k) && !NotYet(p, k, w)
    ensures Sourced(p, Worker.Step(s, Worker.DoPrepare(plan)), run, w)
  {
    hide NotYet, Worker.Inv, Worker.Step, Known;
    var s' := Worker.Step(s, Worker.DoPrepare(plan));
    forall id: Worker.Identity | id.runId == run && Known(s', id)
      ensures exists j: nat :: j < |p.program.phases| && id == IdOf(p, run, j) && !NotYet(p, j, w)
    {
      KnownBefore(s, Worker.DoPrepare(plan), id);
    }
  }

  lemma PrepareWorkerOk(s: Worker.State, plan: Worker.Plan)
    requires WorkerOk(s) && !Known(s, plan.identity)
    ensures var s' := Worker.Step(s, Worker.DoPrepare(plan)); WorkerOk(s') && Later(s, s')
  {
    hide Worker.Inv, Worker.Step, Queued, Once, Known;
    Worker.StepKeeps(s, Worker.DoPrepare(plan));
    StepIsLater(s, Worker.DoPrepare(plan));
    LaterIsQueued(s, Worker.Step(s, Worker.DoPrepare(plan)));
    OnceKeeps(s, Worker.DoPrepare(plan));
  }

  lemma PreparePut(f: Fleet, run: string, w: string, plan: Worker.Plan, k: nat)
    requires EvidenceInv(f) && run in f.procs && w in f.workers && plan.identity.runId == run
    requires !Known(f.workers[w], plan.identity)
    requires k < |f.procs[run].program.phases| && plan.identity == IdOf(f.procs[run], run, k) &&
             !NotYet(f.procs[run], k, w)
    ensures EvidenceInv(Put(f, w, Worker.Step(f.workers[w], Worker.DoPrepare(plan))))
  {
    hide Worker.Inv, Worker.Step, Queued, Once, Known, Sourced, Backed, RunOk, NotYet;
    var s := f.workers[w];
    var s' := Worker.Step(s, Worker.DoPrepare(plan));
    PrepareWorkerOk(s, plan);
    forall id: Worker.Identity | Known(s', id) { KnownBefore(s, Worker.DoPrepare(plan), id); }
    forall r | r in f.procs
      ensures PairOk(f.procs[r], s', r, w)
    {
      assert PairOk(f.procs[r], s, r, w);
      PrepareSourced(f.procs[r], s, r, w, plan, k);
      BackedByLater(f.procs[r], s, s', r, w);
    }
    PutOk(f, w, s');
  }

  lemma PrepareOk(f: Fleet, run: string, w: string)
    requires EvidenceInv(f) && run in f.procs && w in f.workers
    ensures EvidenceInv(Prepare(f, run, w))
  {
    hide Worker.Inv, Worker.Prepare, Worker.PrepareResult, Known, Sourced, Backed, NotYet, Orchestrator.Step,
         SamePrograms, EndsSeen, WorkerOk, Orchestrator.BarrierInv, Orchestrator.JournalInv, NoStrangers;
    var p, s := f.procs[run], f.workers[w];
    if p.pc.Preparing? && w in p.pc.pending && p.pc.k < |p.program.phases| {
      var k := p.pc.k;
      var plan := PlanFor(p, run, k);
      var a := Orchestrator.PrepareReply(w, Worker.PrepareResult(s, plan).Ok?);
      assert RunOk(p) && PairOk(p, s, run, w);
      PreparedNow(p, w, a.ok);
      StillUnknown(p, s, run, w, k);
      MoveOk(f, run, a);
      var g := Move(f, run, a);
      Orchestrator.StepKeepsProgram(p, a);
      PreparePut(g, run, w, plan, k);
      assert Put(g, w, Worker.Prepare(s, plan)) == Prepare(f, run, w);
    }
  }

  // ---------- hearing ----------

  lemma HeardStart(p: Proc, s: Worker.State, run: string)
    requires Queued(s) && s.queue != [] && (p.pc.AwaitingStart? || p.pc.AwaitingEnd?) && p.pc.k < |p.program.phases|
    requires Worker.Matches(s.queue[0], run, p.program.phases[p.pc.k].executionId)
    ensures Seen(p, Worker.Take(s), run, p.pc.k, s.queue[0].kind, Taken(s))
  {
    hide Delivered, Worker.Take;
    TakeIsLater(s);
    TakeKeepsLog(s);
  }

  lemma TakeKeepsLog(s: Worker.State)
    ensures Worker.Take(s).log == s.log
  {
  }

  /** A run that waits for completions has already seen the start of every worker. */
  lemma StartWasSeen(p: Proc, s: Worker.State, run: string, w: string)
    requires Orchestrator.BarrierInv(p) && Backed(p, s, run, w) && p.pc.AwaitingEnd?
    requires w in Orchestrator.WorkersOf(p.program, p.pc.k)
    ensures StartSeen(p, s, run, p.pc.k)
  {
    hide Orchestrator.Ordered, Orchestrator.IsSkew, StartSeen, BothSeen, Orchestrator.SkewAcceptable;
    var starts: map<string, int> :|
      starts.Keys == Orchestrator.WorkersOf(p.program, p.pc.k) && Orchestrator.IsSkew(starts, p.skews[p.pc.k]) &&
      forall v :: v in starts ==> Orchestrator.SawStart(v, p.pc.k, starts[v]) in p.trace;
    assert Orchestrator.SawStart(w, p.pc.k, starts[w]) in p.trace;
  }

  lemma HeardEnd(p: Proc, s: Worker.State, run: string)
    requires Queued(s) && s.queue != [] && p.pc.AwaitingEnd? && p.pc.k < |p.program.phases| &&
             StartSeen(p, s, run, p.pc.k)
    requires Worker.Matches(s.queue[0], run, p.program.phases[p.pc.k].executionId) && s.queue[0].kind.PhaseCompleted?
    ensures BothSeen(p, Worker.Take(s), run, p.pc.k)
  {
    hide Delivered, Queued, Worker.Take, Worker.Matches;
    HeardStart(p, s, run);
    TakeIsLater(s);
    TakeKeepsLog(s);
    var i :| Seen(p, s, run, p.pc.k, Worker.PhaseStarted, i);
    assert Seen(p, Worker.Take(s), run, p.pc.k, Worker.PhaseStarted, i);
    assert i < Taken(s);
  }

  lemma HearOk(f: Fleet, run: string, w: string)
    requires EvidenceInv(f) && run in f.procs && w in f.workers && PendingInv(f.procs[run])
    ensures EvidenceInv(Hear(f, run, w))
  {
    hide Worker.Inv, Worker.Take, Known, Sourced, Backed, NotYet, Orchestrator.Step, SamePrograms, Move, StartSeen,
         BothSeen, Orchestrator.BarrierInv, Orchestrator.JournalInv, EndsSeen, Once, Queued, NoStrangers;
    var p, s := f.procs[run], f.workers[w];
    assert RunOk(p) && PairOk(p, s, run, w) && WorkerOk(s);
    if !(p.pc.AwaitingStart? || p.pc.AwaitingEnd?) || w !in p.pc.pending || p.pc.k >= |p.program.phases| {
    } else if s.status.Closed? {
      MoveOk(f, run, Orchestrator.BadEvent(w));
    } else if s.queue != [] {
      var e, h := s.queue[0], Put(f, w, Worker.Take(s));
      StepOk(f, w, Worker.DoTake);
      assert h.procs == f.procs && h.workers[w] == Worker.Take(s);
      MoveOk(h, run, Orchestrator.BadEvent(w));
      var id := p.program.phases[p.pc.k].executionId;
      if p.pc.AwaitingStart? && Worker.Decisive(e, run, id, Worker.PhaseStarted) && e.kind.PhaseStarted? {
        HeardStart(p, s, run);
        SeenIsStart(p, Worker.Take(s), run, p.pc.k, Taken(s));
        MoveOk(h, run, Orchestrator.StartEvent(w, e.actualStartUs));
      }
      if p.pc.AwaitingEnd? && Worker.Decisive(e, run, id, Worker.PhaseCompleted) && e.kind.PhaseCompleted? {
        StartWasSeen(p, s, run, w);
        HeardEnd(p, s, run);
        MoveOk(h, run, Orchestrator.EndEvent(w));
      }
    }
  }

  lemma SeenIsStart(p: Proc, s: Worker.State, run: string, k: nat, i: int)
    requires Seen(p, s, run, k, Worker.PhaseStarted, i)
    ensures StartSeen(p, s, run, k)
  {
  }

  // ---------- admission ----------

  /** A run id that is free for another attempt has left nothing with any worker. */
  lemma FreeIsUnknown(f: Fleet, run: string, w: string)
    requires EvidenceInv(f) && Free(f, run) && w in f.workers
    ensures forall id: Worker.Identity :: id.runId == run ==> !Known(f.workers[w], id)
  {
    hide Known, WorkerOk, RunOk, Backed;
    if run in f.procs { assert PairOk(f.procs[run], f.workers[w], run, w); }
  }

  lemma BeginOk(f: Fleet, run: string, program: Orchestrator.Program, request: Lease.Request, nowNs: int)
    requires EvidenceInv(f) && DistinctExecutions(program)
    ensures EvidenceInv(Begin(f, run, program, request, nowNs))
  {
    hide Known, WorkerOk, Legal, Admissible, Orchestrator.Everyone, Lease.Acquire, Lease.AcquireStep;
    var g := Begin(f, run, program, request, nowNs);
    if g != f {
      BeginIsLegal(program);
      assert RunOk(Orchestrator.Begin(program));
      forall w | w in f.workers
        ensures PairOk(Orchestrator.Begin(program), f.workers[w], run, w)
      {
        FreeIsUnknown(f, run, w);
      }
      StrangersByMove(f, g);
      OthersStay(f, g, run);
    }
  }

  lemma OthersStay(f: Fleet, g: Fleet, run: string)
    requires EvidenceInv(f) && g.workers == f.workers && run in g.procs && g.procs == f.procs[run := g.procs[run]]
    requires RunOk(g.procs[run]) && Staffed(f, g.procs[run])
    requires forall w :: w in f.workers ==> PairOk(g.procs[run], f.workers[w], run, w)
    ensures EvidenceInv(g)
  {
    hide WorkerOk, PairOk, RunOk, Known;
    StrangersByMove(f, g);
  }

  // ---------- every event ----------

  lemma LeasesAside(f: Fleet, leases: Lease.Leases)
    requires EvidenceInv(f)
    ensures EvidenceInv(f.(leases := leases))
  {
    hide WorkerOk, PairOk, RunOk, Known;
    StrangersByMove(f, f.(leases := leases));
  }

  lemma CallsOk(f: Fleet, run: string, w: string, deadlineUs: nat)
    requires EvidenceInv(f) && run in f.procs && w in f.workers
    ensures EvidenceInv(Disable(f, run, w)) && EvidenceInv(Start(f, run, w, deadlineUs))
  {
    hide EvidenceInv, Move, SamePrograms, Worker.Disable, Worker.Start, Worker.DisableResult, Worker.StartResult;
    StepOk(f, w, Worker.DoDisable);
    StepOk(f, w, Worker.DoStart(deadlineUs));
    var s := f.workers[w];
    forall ok { MoveOk(Put(f, w, Worker.Disable(s)), run, Orchestrator.DisableReply(w, ok)); }
    forall ok { MoveOk(Put(f, w, Worker.Start(s, deadlineUs)), run, Orchestrator.StartReply(w, ok)); }
  }

  lemma StopsOk(f: Fleet, run: string, w: string)
    requires EvidenceInv(f) && run in f.procs && w in f.workers
    ensures EvidenceInv(StopBegins(f, run, w)) && EvidenceInv(StopEnds(f, run, w))
  {
    hide EvidenceInv, Move, Worker.BeginStop, Worker.EndStop;
    var s := f.workers[w];
    StepOk(f, w, Worker.DoBeginStop);
    StepOk(f, w, Worker.DoEndStop);
    MoveOk(Put(f, w, Worker.BeginStop(s)), run, Orchestrator.StopBegan(w));
    MoveOk(Move(Put(f, w, Worker.BeginStop(s)), run, Orchestrator.StopBegan(w)), run, Orchestrator.StopReply(w, false));
    forall ok { MoveOk(Put(f, w, Worker.EndStop(s)), run, Orchestrator.StopReply(w, ok)); }
  }

  lemma ReleaseOk(f: Fleet, run: string)
    requires EvidenceInv(f) && run in f.procs
    ensures EvidenceInv(ReleaseLease(f, run))
  {
    hide EvidenceInv, Move, SamePrograms, Lease.ReleaseStep;
    LeasesAside(f, Lease.ReleaseStep(f.leases, run));
    MoveOk(f.(leases := Lease.ReleaseStep(f.leases, run)), run, Orchestrator.LeaseReleased);
  }

  ghost predicate Distinct(e: Event) {
    e.Execute? ==> DistinctExecutions(e.program)
  }

  lemma NextOk(f: Fleet, e: Event)
    requires EvidenceInv(f) && Inv(f) && Distinct(e)
    ensures EvidenceInv(Next(f, e))
  {
    hide EvidenceInv, SamePrograms, Begin, Disable, Prepare, Start, Hear, StopBegins, StopEnds, ReleaseLease, Move, Put,
         Worker.Wake, Worker.EndClose, Worker.BeginStop, PendingInv, DistinctExecutions, Admissible, Lease.Exact,
         WorkerInv;
    match e
    case Execute(run, program, request, nowNs) => BeginOk(f, run, program, request, nowNs);
    case Journalled(run, ok) => if run in f.procs { MoveOk(f, run, Orchestrator.Journalled(ok)); }
    case CallDisable(run, w) => if run in f.procs && w in f.workers { CallsOk(f, run, w, 0); }
    case CallPrepare(run, w) => if run in f.procs && w in f.workers { PrepareOk(f, run, w); }
    case CallStart(run, w, deadlineUs) => if run in f.procs && w in f.workers { CallsOk(f, run, w, deadlineUs); }
    case Receive(run, w) =>
      if run in f.procs && w in f.workers {
        assert ProcInv(f, run);
        HearOk(f, run, w);
      }
    case Interrupt(run) => if run in f.procs { MoveOk(f, run, Orchestrator.Interrupt); }
    case BeginStop(run, w) => if run in f.procs && w in f.workers { StopsOk(f, run, w); }
    case EndStop(run, w) => if run in f.procs && w in f.workers { StopsOk(f, run, w); }
    case Release(run) => if run in f.procs { ReleaseOk(f, run); }
    case _ => OwnEventOk(f, e);
  }

  lemma OwnEventOk(f: Fleet, e: Event)
    requires EvidenceInv(f) && Inv(f) && (e.Wake? || e.BeginClose? || e.EndClose?)
    ensures EvidenceInv(Next(f, e))
  {
    hide EvidenceInv, Inv, Put, Worker.Wake, Worker.EndClose, Worker.BeginStop;
    match e
    case Wake(w, task, nowUs) => if w in f.workers { StepOk(f, w, Worker.DoWake(task, nowUs)); }
    case BeginClose(w) => if w in f.workers { StepOk(f, w, Worker.DoBeginClose); }
    case EndClose(w) => if w in f.workers { StepOk(f, w, Worker.DoEndClose); }
  }

  lemma {:induction false} HistoryOk(f: Fleet, events: seq<Event>)
    requires EvidenceInv(f) && Inv(f) && forall i :: 0 <= i < |events| ==> Distinct(events[i])
    ensures EvidenceInv(History(f, events))
    decreases |events|
  {
    hide EvidenceInv, Inv, Next, Distinct;
    if events != [] {
      NextOk(f, events[0]);
      NextKeeps(f, events[0]);
      HistoryOk(Next(f, events[0]), events[1..]);
    }
  }

  // ---------- the theorem ----------

  /** No runs, no leases, and workers as they are created. */
  ghost predicate Pristine(f: Fleet) {
    f.leases == Lease.EMPTY && f.procs == map[] &&
    forall w :: w in f.workers ==> f.workers[w] == Worker.Initial(f.workers[w].limit)
  }

  lemma PristineIsOk(f: Fleet)
    requires Pristine(f)
    ensures EvidenceInv(f) && Inv(f)
  {
    forall w | w in f.workers
      ensures WorkerOk(f.workers[w]) && NoStrangers(f, f.workers[w])
    {
      Worker.InitialIsGood(f.workers[w].limit);
    }
    FreshIsGood(f);
  }

  /** When a run's journal says that a phase completed, each worker of that phase emitted
      under the run's identity for the phase exactly one phase_started and then one
      phase_completed, both in one start, both delivered, and nothing else, whatever
      other runs, timeouts, full queues and stale events there were. */
  lemma CompletedPhaseHappened(f: Fleet, events: seq<Event>, run: string, k: nat, w: string)
    requires Pristine(f) && forall i :: 0 <= i < |events| ==> Distinct(events[i])
    requires var g := History(f, events);
             run in g.procs && Orchestrator.PhaseCompleted(k) in g.procs[run].journal &&
             w in Orchestrator.WorkersOf(g.procs[run].program, k)
    ensures var g := History(f, events);
            w in g.workers && k < |g.procs[run].program.phases| &&
            WholeScript(g.workers[w].log, IdOf(g.procs[run], run, k))
  {
    hide History, Pristine, Inv, WholeScript, EndsSeen, Legal, Worker.Inv, Queued, Once, Sourced;
    PristineIsOk(f);
    HistoryOk(f, events);
    var g := History(f, events);
    var p := g.procs[run];
    assert RunOk(p) && Staffed(g, p);
    InEveryone(p.program.phases, k, w);
    var s := g.workers[w];
    assert PairOk(p, s, run, w) && WorkerOk(s);
    HistoryKeeps(f, events);
    EndWasSeen(p, k, w);
    NamedRun(g, run);
    var i, j :| i < j && Seen(p, s, run, k, Worker.PhaseStarted, i) && Seen(p, s, run, k, Worker.PhaseCompleted, j);
    EventIdentity(p, s, run, w, k, i);
    EventIdentity(p, s, run, w, k, j);
    ScriptIsWhole(s, IdOf(p, run, k), i, j);
  }

  lemma EndWasSeen(p: Proc, k: nat, w: string)
    requires EndsSeen(p) && Orchestrator.PhaseCompleted(k) in p.journal && w in Orchestrator.WorkersOf(p.program, k)
    ensures Orchestrator.SawEnd(w, k) in p.trace
  {
  }

  lemma NamedRun(f: Fleet, run: string)
    requires Inv(f) && run in f.procs
    ensures run != ""
  {
    hide WorkerInv, Lease.Exact, Admissible, PendingInv;
    assert ProcInv(f, run);
  }

  /** A delivered phase event of the k-th execution carries the k-th phase's identity. */
  lemma EventIdentity(p: Proc, s: Worker.State, run: string, w: string, k: nat, i: int)
    requires Worker.Inv(s) && Sourced(p, s, run, w) && DistinctExecutions(p.program) && run != ""
    requires 0 <= i < |Delivered(s.log)| && Worker.PhaseEvent(Delivered(s.log)[i]) && k < |p.program.phases|
    requires Worker.Matches(Delivered(s.log)[i], run, p.program.phases[k].executionId)
    ensures Delivered(s.log)[i].identity == IdOf(p, run, k)
  {
    hide Worker.Inv, Delivered, NotYet, Planned;
    var m := DeliveredIsLogged(s.log, i);
    PhaseEventIsBegun(s, m);
    var id := m.event.identity;
    assert Known(s, id);
    var j: nat :| j < |p.program.phases| && id == IdOf(p, run, j) && !NotYet(p, j, w);
    assert p.program.phases[j].executionId == p.program.phases[k].executionId;
  }
}
