/** What one exchange between a run and a worker of its phase does to both
    (remote_robot/orchestrator.py, `_prepare_all` to `_stop_all`), and how a fleet history
    looks from a single worker. */
module Exchanges {
  import opened Wrappers
  import Worker
  import Orchestrator
  import Punctual
  import opened Fleet
  import opened Answers

  /** A worker is offered the plan of this very run and phase, for as long as the phase is to
      last; and if it may take it, this is the plan it then holds. */
  lemma PlanIsOffered(f: Fleet, run: string, w: string)
    requires run in f.procs && w in f.workers
    requires var p := f.procs[run]; p.pc.Preparing? && w in p.pc.pending && p.pc.k < |p.program.phases|
    ensures var phase := f.procs[run].program.phases[f.procs[run].pc.k];
            var plan := Worker.Plan(Worker.Identity(run, phase.phaseId, phase.executionId), phase.durationUs);
            var g := Next(f, CallPrepare(run, w));
            g.workers == f.workers[w := Worker.Prepare(f.workers[w], plan)] &&
            (Worker.PrepareResult(f.workers[w], plan).Ok? ==>
               g.workers[w].plan == Some(plan) && g.workers[w].status.Prepared?)
  {
    hide SamePrograms, Move, Orchestrator.Step;
    MoveIsElsewhere(f, run, w);
  }

  lemma MoveIsElsewhere(f: Fleet, run: string, w: string)
    requires run in f.procs
    ensures forall s, a :: Move(Put(f, w, s), run, a).workers == f.workers[w := s]
  {
    hide Orchestrator.Step;
  }

  /** The waiting run and what it hears: a closed worker and a decisive event of the wrong
      kind are failures, the expected event is noted with its own start time, anything else
      is dropped; and exactly one event leaves the queue whenever there is one. */
  lemma EventsAreFair(f: Fleet, run: string, w: string)
    requires run in f.procs && w in f.workers
    requires var p := f.procs[run];
             (p.pc.AwaitingStart? || p.pc.AwaitingEnd?) && w in p.pc.pending && p.pc.k < |p.program.phases|
    ensures var p, s, g := f.procs[run], f.workers[w], Next(f, Receive(run, w));
            if s.status.Closed? then
              g.workers == f.workers && g.procs[run] == Orchestrator.Step(p, Orchestrator.BadEvent(w))
            else if s.queue == [] then g == f
            else
              g.workers == f.workers[w := s.(queue := s.queue[1..])] &&
              g.procs[run] ==
              match Meaning(s.queue[0], run, p.program.phases[p.pc.k].executionId, p.pc.AwaitingStart?)
              case Nothing => p
              case Begun => Orchestrator.Step(p, Orchestrator.StartEvent(w, s.queue[0].actualStartUs))
              case Done => Orchestrator.Step(p, Orchestrator.EndEvent(w))
              case Failure => Orchestrator.Step(p, Orchestrator.BadEvent(w))
  {
    hide SamePrograms, Orchestrator.Step;
  }

  /** A stop cancels the worker's current task, unless the worker is closed; then the stop has
      failed at once. */
  lemma StopsAreFair(f: Fleet, run: string, w: string)
    requires run in f.procs && w in f.workers
    requires var p := f.procs[run]; (p.pc.Finishing? || p.pc.Failing?) && w in p.pc.pending
    ensures var p, s, g := f.procs[run], f.workers[w], Next(f, BeginStop(run, w));
            var begun := Orchestrator.Step(p, Orchestrator.StopBegan(w));
            if s.status.Closed? then
              g.workers == f.workers && g.procs[run] == Orchestrator.Step(begun, Orchestrator.StopReply(w, false))
            else
              g.workers.Keys == f.workers.Keys && g.procs[run] == begun && g.workers[w].current.None? &&
              g.workers[w].status == s.status && g.workers[w].queue == s.queue &&
              g.workers[w].tasks == (if s.current.Some? then s.tasks - {s.current.value} else s.tasks)
  {
    hide SamePrograms, Orchestrator.Step;
  }

  datatype Heard = Nothing | Begun | Done | Failure

  /** What an event means to a run that waits for a start, or for an end, of this execution. */
  function Meaning(e: Worker.Event, run: string, executionId: string, forStart: bool): Heard {
    if e.identity.runId != run || e.identity.executionId != executionId then Nothing
    else
      match e.kind
      case PhaseStarted => if forStart then Begun else Nothing
      case PhaseCompleted => if forStart then Failure else Done
      case WorkerStopped => Failure
      case WorkerFault => Failure
      case _ => Nothing
  }

  /** Seen from one worker a fleet history is a schedule of calls and wake-ups, so all that
      holds of schedules holds of it: its phases never start before they are due, nor end
      before their time. */
  lemma {:induction false} HistoryIsSchedule(f: Fleet, events: seq<Event>, w: string)
    returns (actions: seq<Worker.Action>)
    requires w in f.workers
    ensures w in History(f, events).workers
    ensures History(f, events).workers[w] == Worker.Execute(f.workers[w], actions)
    decreases |events|
  {
    hide Next, Worker.Step;
    actions := [];
    if events != [] {
      var a := WorkerMoves(f, events[0], w);
      var rest := HistoryIsSchedule(Next(f, events[0]), events[1..], w);
      actions := (if a.Some? then [a.value] else []) + rest;
      if a.Some? {
        assert actions[0] == a.value && actions[1..] == rest;
      } else {
        assert actions == rest;
      }
    }
  }

  /** In every history of a fleet of new workers, each phase that a worker has reported as
      started was begun no sooner than the deadline of a start call accepted before. */
  lemma FleetIsNeverEarly(f: Fleet, events: seq<Event>, w: string, limit: nat, i: nat)
    returns (actions: seq<Worker.Action>, k: nat, m: nat, task: nat, deadlineUs: int)
    requires w in f.workers && f.workers[w] == Worker.Initial(limit)
    requires w in History(f, events).workers && i < |History(f, events).workers[w].log|
    requires History(f, events).workers[w].log[i].event.kind.PhaseStarted?
    ensures Worker.Execute(Worker.Initial(limit), actions) == History(f, events).workers[w]
    ensures k < m && Punctual.StartedBy(limit, actions, k, task, deadlineUs) &&
            Punctual.Begins(limit, actions, m, task, History(f, events).workers[w].log[i].event.actualStartUs) &&
            deadlineUs <= History(f, events).workers[w].log[i].event.actualStartUs
  {
    hide Worker.Execute, History, Punctual.StartedBy, Punctual.Begins;
    actions := HistoryIsSchedule(f, events, w);
    k, m, task, deadlineUs := Punctual.NeverEarly(limit, actions, i);
  }
}
