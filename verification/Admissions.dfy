/** When a run is admitted to the fleet, and that a run id with a history is never used again
    (remote_robot/orchestrator.py, `execute`). */
module Admissions {
  import Orchestrator
  import Lease
  import Worker
  import Turns
  import opened Fleet

  /** The id is new, or was only ever refused its first entry; the program is admissible and
      its workers are known; and no live grant shares one of the requested targets. */
  ghost predicate Admitted(f: Fleet, run: string, program: Orchestrator.Program, request: Lease.Request) {
    (run !in f.procs || (f.procs[run].pc.Released? && f.procs[run].journal == [])) &&
    Admissible(program, request) && Orchestrator.Everyone(program) <= f.workers.Keys &&
    Lease.CanonicalKey(run) && request.Canonical() &&
    forall r :: r in f.leases.grants ==> f.leases.grants[r].request.Targets() !! request.Targets()
  }

  /** A submission that is admitted starts its run at the beginning, holding exactly what it
      asked for; any other changes nothing. */
  lemma AdmittedExactly(f: Fleet, run: string, program: Orchestrator.Program, request: Lease.Request, nowNs: int)
    requires Inv(f)
    ensures var g := Next(f, Execute(run, program, request, nowNs));
            if Admitted(f, run, program, request) then
              g.procs == f.procs[run := Orchestrator.Begin(program)] && g.workers == f.workers &&
              g.leases.grants == f.leases.grants[run := Lease.Grant(request, nowNs)]
            else g == f
  {
    hide Admissible, Orchestrator.Everyone, Lease.CanonicalKey, Lease.Request.Targets, Lease.Request.Canonical,
         Lease.HeldByOthers, WorkerInv, Lease.AcquireStep;
    Lease.AcquireExactly(f.leases, run, request, nowNs);
    if run in f.leases.grants { assert ProcInv(f, run); }
  }

  // ---------- one id, one run ----------

  /** The later run is the earlier one, further on. */
  ghost predicate Continues(p: Proc, q: Proc) {
    q.program == p.program && p.journal <= q.journal
  }

  lemma StepContinues(p: Proc, a: Orchestrator.Action)
    ensures Continues(p, Orchestrator.Step(p, a))
  {
    hide Orchestrator.Step;
    Turns.WritesExactly(p, a);
    Orchestrator.StepKeepsProgram(p, a);
  }

  /** Every run with a history goes on. */
  ghost predicate AllContinue(f: Fleet, g: Fleet) {
    forall run :: run in f.procs && f.procs[run].journal != [] ==>
      run in g.procs && Continues(f.procs[run], g.procs[run])
  }

  lemma SameContinues(f: Fleet, g: Fleet)
    requires g.procs == f.procs
    ensures AllContinue(f, g)
  {
  }

  lemma Further(f: Fleet, g: Fleet, h: Fleet)
    requires AllContinue(f, g) && AllContinue(g, h)
    ensures AllContinue(f, h)
  {
    forall run | run in f.procs && f.procs[run].journal != []
      ensures run in h.procs && Continues(f.procs[run], h.procs[run])
    {
      assert f.procs[run].journal <= g.procs[run].journal;
    }
  }

  /** A move of one run, whatever happens to leases and workers. */
  lemma MoveContinues(f: Fleet, g: Fleet, run: string, a: Orchestrator.Action)
    requires run in g.procs && g.procs == f.procs
    ensures AllContinue(f, Move(g, run, a))
  {
    hide Orchestrator.Step, SamePrograms;
    StepContinues(f.procs[run], a);
  }

  lemma CallsContinue(f: Fleet, run: string, w: string, deadlineUs: nat)
    requires run in f.procs && w in f.workers
    ensures AllContinue(f, Disable(f, run, w)) && AllContinue(f, Prepare(f, run, w))
    ensures AllContinue(f, Start(f, run, w, deadlineUs))
  {
    hide AllContinue, Move, SamePrograms, Worker.Disable, Worker.Prepare, Worker.Start, Worker.DisableResult,
         Worker.PrepareResult, Worker.StartResult;
    SameContinues(f, f);
    forall s, a { MoveContinues(f, Put(f, w, s), run, a); }
  }

  lemma StopsContinue(f: Fleet, run: string, w: string)
    requires run in f.procs && w in f.workers
    ensures AllContinue(f, StopBegins(f, run, w)) && AllContinue(f, StopEnds(f, run, w))
  {
    hide AllContinue, Move, Worker.BeginStop, Worker.EndStop;
    SameContinues(f, f);
    forall s, a { MoveContinues(f, Put(f, w, s), run, a); }
    var h := Move(Put(f, w, Worker.BeginStop(f.workers[w])), run, Orchestrator.StopBegan(w));
    MoveContinues(h, h, run, Orchestrator.StopReply(w, false));
    Further(f, h, Move(h, run, Orchestrator.StopReply(w, false)));
  }

  lemma HearContinues(f: Fleet, run: string, w: string)
    requires run in f.procs && w in f.workers
    ensures AllContinue(f, Hear(f, run, w))
  {
    hide AllContinue, Move, SamePrograms, Worker.Take, Worker.Decisive;
    SameContinues(f, f);
    SameContinues(f, Put(f, w, Worker.Take(f.workers[w])));
    MoveContinues(f, f, run, Orchestrator.BadEvent(w));
    forall s, a { MoveContinues(f, Put(f, w, s), run, a); }
  }

  lemma ReleaseContinues(f: Fleet, run: string)
    requires run in f.procs
    ensures AllContinue(f, ReleaseLease(f, run))
  {
    hide AllContinue, Move, SamePrograms, Lease.ReleaseStep;
    SameContinues(f, f);
    forall leases { MoveContinues(f, f.(leases := leases), run, Orchestrator.LeaseReleased); }
  }

  lemma NextContinues(f: Fleet, e: Event)
    ensures AllContinue(f, Next(f, e))
  {
    hide AllContinue, SamePrograms, Begin, Disable, Prepare, Start, Hear, StopBegins, StopEnds, ReleaseLease, Move,
         Worker.Wake, Worker.EndClose, Worker.BeginStop;
    SameContinues(f, f);
    match e
    case Execute(run, program, request, nowNs) => BeginContinues(f, run, program, request, nowNs);
    case Journalled(run, ok) => if run in f.procs { MoveContinues(f, f, run, Orchestrator.Journalled(ok)); }
    case CallDisable(run, w) => if run in f.procs && w in f.workers { CallsContinue(f, run, w, 0); }
    case CallPrepare(run, w) => if run in f.procs && w in f.workers { CallsContinue(f, run, w, 0); }
    case CallStart(run, w, deadlineUs) => if run in f.procs && w in f.workers { CallsContinue(f, run, w, deadlineUs); }
    case Receive(run, w) => if run in f.procs && w in f.workers { HearContinues(f, run, w); }
    case Interrupt(run) => if run in f.procs { MoveContinues(f, f, run, Orchestrator.Interrupt); }
    case BeginStop(run, w) => if run in f.procs && w in f.workers { StopsContinue(f, run, w); }
    case EndStop(run, w) => if run in f.procs && w in f.workers { StopsContinue(f, run, w); }
    case Release(run) => if run in f.procs { ReleaseContinues(f, run); }
    case Wake(w, task, nowUs) =>
      if w in f.workers { SameContinues(f, Put(f, w, Worker.Wake(f.workers[w], task, nowUs))); }
    case BeginClose(w) => if w in f.workers { SameContinues(f, Put(f, w, Worker.BeginStop(f.workers[w]))); }
    case EndClose(w) => if w in f.workers { SameContinues(f, Put(f, w, Worker.EndClose(f.workers[w]))); }
  }

  lemma BeginContinues(f: Fleet, run: string, program: Orchestrator.Program, request: Lease.Request, nowNs: int)
    ensures AllContinue(f, Begin(f, run, program, request, nowNs))
  {
    hide Admissible, Orchestrator.Everyone, Lease.Acquire, Lease.AcquireStep;
  }

  /** A run id with a history is never used for another run: from then on the same program
      runs under it, and what its journal says is only ever added to. */
  lemma {:induction false} IdsAreUsedOnce(f: Fleet, events: seq<Event>, run: string)
    requires run in f.procs && f.procs[run].journal != []
    ensures run in History(f, events).procs && Continues(f.procs[run], History(f, events).procs[run])
    decreases |events|
  {
    hide Next;
    if events != [] {
      NextContinues(f, events[0]);
      var g := Next(f, events[0]);
      IdsAreUsedOnce(g, events[1..], run);
    }
  }
}
