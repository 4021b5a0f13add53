/** What a run's journal says about the replies it had: no entry is written on a reply that
    was missing or bad (remote_robot/orchestrator.py, `_execute_leased`). */
module Replies {
  import opened Orchestrator

  ghost predicate AllDisabled(program: Program, done: set<string>, trace: seq<Act>) {
    forall w :: w in Everyone(program) && w !in done ==> DidDisable(w) in trace
  }

  ghost predicate AllAcknowledged(program: Program, k: nat, done: set<string>, trace: seq<Act>) {
    forall w :: w in WorkersOf(program, k) && w !in done ==> Acknowledged(w, k) in trace
  }

  ghost predicate AllSafe(program: Program, done: set<string>, trace: seq<Act>) {
    forall w :: w in Everyone(program) && w !in done ==> DidStop(w, true) in trace
  }

  ghost predicate AllAnswered(program: Program, done: set<string>, trace: seq<Act>) {
    forall w :: w in Everyone(program) && w !in done ==> DidStop(w, true) in trace || DidStop(w, false) in trace
  }

  predicate NoStopFailed(trace: seq<Act>) {
    forall i :: 0 <= i < |trace| ==> trace[i].DidStop? ==> trace[i].ok
  }

  predicate NoStops(trace: seq<Act>) {
    forall i :: 0 <= i < |trace| ==> !trace[i].DidStop?
  }

  /** Once stopping has begun nothing else is done with, or heard from, any worker. */
  predicate StopsLast(trace: seq<Act>) {
    forall i, k :: 0 <= i < k < |trace| && trace[i].DidStop? ==> trace[k].DidStop?
  }

  /** Every worker of the phase reported a start time that is not negative. */
  ghost predicate AllReported(program: Program, k: nat, trace: seq<Act>) {
    WorkersOf(program, k) != {} &&
    forall w :: w in WorkersOf(program, k) ==> exists atUs :: 0 <= atUs && SawStart(w, k, atUs) in trace
  }

  /** What the entries of the journal vouch for. */
  ghost predicate Vouched(p: Proc) {
    (WorkersDisabled in p.journal ==> AllDisabled(p.program, {}, p.trace)) &&
    (forall k :: PhasePrepared(k) in p.journal ==> AllPrepared(p.program, k, {}, p.trace)) &&
    (forall k :: PhaseScheduled(k) in p.journal ==> AllAcknowledged(p.program, k, {}, p.trace)) &&
    (forall k :: PhaseStarted(k) in p.journal ==> AllReported(p.program, k, p.trace)) &&
    (forall k :: PhaseCompleted(k) in p.journal ==> AllEnded(p.program, k, {}, p.trace)) &&
    (RunCompleted in p.journal ==> AllSafe(p.program, {}, p.trace) && NoStopFailed(p.trace)) &&
    (RunFaulted in p.journal ==> AllAnswered(p.program, {}, p.trace))
  }

  /** What is known of the replies at each place of the protocol. */
  ghost predicate Collected(p: Proc) {
    match p.pc
    case Opening => NoStops(p.trace) && p.journal == []
    case Disabling(pending, failed) => NoStops(p.trace) && (!failed ==> AllDisabled(p.program, pending, p.trace))
    case Preparing(k, pending, failed) => NoStops(p.trace) && (!failed ==> AllPrepared(p.program, k, pending, p.trace))
    case Scheduling(k, pending, failed) =>
      NoStops(p.trace) && (!failed ==> AllAcknowledged(p.program, k, pending, p.trace))
    case AwaitingStart(k, pending, starts) =>
      NoStops(p.trace) && starts.Keys == WorkersOf(p.program, k) - pending && pending <= WorkersOf(p.program, k) &&
      forall w :: w in starts ==> SawStart(w, k, starts[w]) in p.trace
    case AwaitingEnd(k, pending) => NoStops(p.trace) && AllEnded(p.program, k, pending, p.trace)
    case Finishing(pending, stopping, failed) =>
      !failed ==> AllSafe(p.program, pending + stopping, p.trace) && NoStopFailed(p.trace)
    case Failing(pending, stopping) => AllAnswered(p.program, pending + stopping, p.trace)
    case Ended => p.journal != [] ==> AllAnswered(p.program, {}, p.trace)
    case Released => p.journal != [] ==> AllAnswered(p.program, {}, p.trace)
  }

  ghost predicate ReplyInv(p: Proc) {
    StopsLast(p.trace) && Vouched(p) && Collected(p)
  }

  // ---------- growing traces ----------

  lemma VouchedGrows(p: Proc, p': Proc)
    requires Vouched(p) && p'.program == p.program && p.trace <= p'.trace && p'.journal == p.journal
    requires NoStopFailed(p.trace) ==> NoStopFailed(p'.trace) || RunCompleted !in p.journal
    ensures Vouched(p')
  {
    hide Everyone;
    forall k, w | PhaseStarted(k) in p'.journal && w in WorkersOf(p'.program, k)
      ensures exists atUs :: 0 <= atUs && SawStart(w, k, atUs) in p'.trace
    {
      assert AllReported(p.program, k, p.trace);
      var atUs :| 0 <= atUs && SawStart(w, k, atUs) in p.trace;
      assert SawStart(w, k, atUs) in p'.trace;
    }
  }

  /** A failure drops what is known of the place and starts the coordinated stop. */
  lemma FailKeeps(p: Proc)
    requires StopsLast(p.trace) && Vouched(p)
    ensures ReplyInv(Fail(p))
  {
    hide Vouched, StopsLast, Everyone;
    VouchedSame(p, Fail(p));
  }

  lemma VouchedSame(p: Proc, p': Proc)
    requires Vouched(p) && p'.program == p.program && p'.trace == p.trace && p'.journal == p.journal
    ensures Vouched(p')
  {
    hide Everyone, AllReported, AllPrepared, AllEnded, AllAcknowledged, AllDisabled, AllSafe, AllAnswered;
  }

  lemma NoStopsIsLast(trace: seq<Act>, a: Act)
    requires NoStops(trace)
    ensures StopsLast(trace) && StopsLast(trace + [a]) && NoStopFailed(trace)
    ensures !a.DidStop? ==> NoStops(trace + [a]) && NoStopFailed(trace + [a])
  {
  }

  /** Once the run is completed its trace is closed. */
  lemma CompletedIsOver(p: Proc)
    requires JournalInv(p) && RunCompleted in p.journal
    ensures p.pc.Ended? || p.pc.Released?
  {
    hide EndOfJournal;
    assert forall i :: 0 <= i < |Word(|p.program.phases|)| ==> Word(|p.program.phases|)[i] != RunCompleted;
  }

  // ---------- replies ----------

  lemma CallReplyKeeps(p: Proc, a: Action)
    requires JournalInv(p) && ReplyInv(p) && (a.DisableReply? || a.PrepareReply? || a.StartReply?)
    ensures ReplyInv(Reply(p, a))
  {
    hide JournalInv, Vouched, AllReported, AllEnded, Everyone, StopsLast, NoStopFailed, NoStops, AllSafe, AllAnswered;
    var p' := Reply(p, a);
    if p' != p {
      ReplyTrace(p, a);
      StillVouched(p, p');
      match a
      case DisableReply(w, _) => NoStopsIsLast(p.trace, DidDisable(w));
      case PrepareReply(w, _) => NoStopsIsLast(p.trace, DidPrepare(w, p.pc.k));
      case StartReply(w, _) =>
        NoStopsIsLast(p.trace, DidStart(w, p.pc.k));
        NoStopsIsLast(p.trace + [DidStart(w, p.pc.k)], Acknowledged(w, p.pc.k));
    }
  }

  lemma ReplyTrace(p: Proc, a: Action)
    ensures p.trace <= Reply(p, a).trace && Reply(p, a).journal == p.journal && Reply(p, a).program == p.program
  {
    hide Everyone;
  }

  lemma StillVouched(p: Proc, p': Proc)
    requires JournalInv(p) && Vouched(p) && !p.pc.Ended? && !p.pc.Released?
    requires p.trace <= p'.trace && p'.journal == p.journal && p'.program == p.program
    ensures Vouched(p')
  {
    hide JournalInv, Vouched, NoStopFailed;
    if RunCompleted in p.journal { CompletedIsOver(p); }
    VouchedGrows(p, p');
  }

  lemma EventReplyKeeps(p: Proc, a: Action)
    requires JournalInv(p) && ReplyInv(p) && (a.StartEvent? || a.EndEvent? || a.BadEvent?)
    ensures ReplyInv(Reply(p, a))
  {
    hide JournalInv, Vouched, AllReported, Everyone, StopsLast, NoStopFailed, NoStops, AllSafe, AllAnswered;
    var p' := Reply(p, a);
    if p' != p {
      ReplyTrace(p, a);
      StillVouched(p, p');
      match a
      case StartEvent(w, atUs) => NoStopsIsLast(p.trace, SawStart(w, p.pc.k, atUs));
      case EndEvent(w) => NoStopsIsLast(p.trace, SawEnd(w, p.pc.k));
      case BadEvent(w) => FailKeeps(p);
    }
  }

  lemma StopStarts(p: Proc, w: string)
    requires ReplyInv(p)
    ensures ReplyInv(StopProgress(p, StopBegan(w)))
  {
    hide Vouched, StopsLast, NoStopFailed, Everyone;
    var p' := StopProgress(p, StopBegan(w));
    VouchedSame(p, p');
    if p.pc.Finishing? && w in p.pc.pending { assert p'.pc.pending + p'.pc.stopping == p.pc.pending + p.pc.stopping; }
    if p.pc.Failing? && w in p.pc.pending { assert p'.pc.pending + p'.pc.stopping == p.pc.pending + p.pc.stopping; }
  }

  lemma StopAnswered(p: Proc, w: string, ok: bool)
    requires JournalInv(p) && ReplyInv(p)
    ensures ReplyInv(StopProgress(p, StopReply(w, ok)))
  {
    hide JournalInv, Vouched, Everyone;
    var p' := StopProgress(p, StopReply(w, ok));
    if p' != p { StillVouched(p, p'); }
  }

  // ---------- barriers ----------

  /** A new entry that is vouched for. */
  lemma NoteVouched(p: Proc, e: Entry)
    requires Vouched(p)
    requires match e
             case WorkersDisabled => AllDisabled(p.program, {}, p.trace)
             case PhasePrepared(k) => AllPrepared(p.program, k, {}, p.trace)
             case PhaseScheduled(k) => AllAcknowledged(p.program, k, {}, p.trace)
             case PhaseStarted(k) => AllReported(p.program, k, p.trace)
             case PhaseCompleted(k) => AllEnded(p.program, k, {}, p.trace)
             case RunCompleted => AllSafe(p.program, {}, p.trace) && NoStopFailed(p.trace)
             case RunFaulted => AllAnswered(p.program, {}, p.trace)
             case RunOpened => true
    ensures Vouched(Note(p, e))
  {
    hide AllDisabled, AllPrepared, AllAcknowledged, AllReported, AllEnded, AllSafe, AllAnswered, NoStopFailed;
    assert forall x :: x in Note(p, e).journal <==> x in p.journal || x == e;
  }

  lemma EnterKeepsReplies(p: Proc, k: nat)
    requires StopsLast(p.trace) && Vouched(p) && NoStops(p.trace)
    ensures ReplyInv(Enter(p, k))
  {
    hide Vouched, StopsLast, Everyone;
    VouchedSame(p, Enter(p, k));
    if k < |p.program.phases| { assert WorkersOf(p.program, k) == p.program.phases[k].workers.Keys; }
  }

  lemma BarrierKeeps(p: Proc, ok: bool)
    requires ReplyInv(p) &&
             (p.pc.Opening? || p.pc.Disabling? || p.pc.Preparing? || p.pc.Scheduling? || p.pc.AwaitingEnd?)
    ensures ReplyInv(Journal(p, ok))
  {
    hide Vouched, StopsLast, Everyone, NoStops, NoStopFailed, Enter;
    match p.pc
    case Opening =>
      NoteVouched(p, RunOpened);
      VouchedSame(Note(p, RunOpened), Journal(p, true));
      VouchedSame(p, p.(pc := Ended));
    case Disabling(pending, failed) =>
      if pending == {} {
        if failed || !ok { FailKeeps(p); } else {
          NoteVouched(p, WorkersDisabled);
          EnterKeepsReplies(Note(p, WorkersDisabled), 0);
        }
      }
    case Preparing(k, pending, failed) =>
      if pending == {} {
        if failed || !ok { FailKeeps(p); } else {
          NoteVouched(p, PhasePrepared(k));
          VouchedSame(Note(p, PhasePrepared(k)), Journal(p, ok));
        }
      }
    case Scheduling(k, pending, failed) =>
      if pending == {} {
        if failed || !ok { FailKeeps(p); } else {
          NoteVouched(p, PhaseScheduled(k));
          VouchedSame(Note(p, PhaseScheduled(k)), Journal(p, ok));
        }
      }
    case AwaitingEnd(k, pending) =>
      if pending == {} {
        if !ok { FailKeeps(p); } else {
          NoteVouched(p, PhaseCompleted(k));
          EnterKeepsReplies(Note(p, PhaseCompleted(k)), k + 1);
        }
      }
  }

  lemma StartBarrierKeeps(p: Proc, ok: bool)
    requires ReplyInv(p) && p.pc.AwaitingStart?
    ensures ReplyInv(Journal(p, ok))
  {
    hide Vouched, StopsLast, Everyone, NoStops, NoStopFailed, SkewOf, IsSkew, SkewAcceptable;
    FailKeeps(p);
    var k, starts := p.pc.k, p.pc.starts;
    if p.pc.pending == {} && starts != map[] && forall w :: w in starts ==> 0 <= starts[w] {
      var w0 :| w0 in starts;
      assert w0 in WorkersOf(p.program, k);
      forall w | w in WorkersOf(p.program, k)
        ensures exists atUs :: 0 <= atUs && SawStart(w, k, atUs) in p.trace
      {
        assert w in starts && SawStart(w, k, starts[w]) in p.trace;
      }
      assert AllReported(p.program, k, p.trace);
      NoteVouched(p, PhaseStarted(k));
      var p' := Note(p, PhaseStarted(k)).(skews := p.skews[k := SkewOf(starts)]);
      VouchedSame(Note(p, PhaseStarted(k)), p');
      VouchedSame(p', p'.(pc := AwaitingEnd(k, WorkersOf(p.program, k))));
      FailKeeps(p');
    }
  }

  lemma EndBarriersKeep(p: Proc, ok: bool)
    requires ReplyInv(p) && (p.pc.Finishing? || p.pc.Failing? || p.pc.Ended? || p.pc.Released?)
    ensures ReplyInv(Journal(p, ok))
  {
    hide Vouched, StopsLast, Everyone, NoStopFailed;
    if p.pc.Finishing? && p.pc.pending == {} && p.pc.stopping == {} {
      if p.pc.failed || !ok { FailKeeps(p); } else {
        NoteVouched(p, RunCompleted);
        VouchedSame(Note(p, RunCompleted), Journal(p, ok));
      }
    } else if p.pc.Failing? && p.pc.pending == {} && p.pc.stopping == {} {
      assert {} + {} == p.pc.pending + p.pc.stopping;
      NoteVouched(p, RunFaulted);
      VouchedSame(Note(p, RunFaulted), Note(p, RunFaulted).(pc := Ended));
      VouchedSame(p, p.(pc := Ended));
    }
  }

  lemma ReplyInvKeeps(p: Proc, a: Action)
    requires JournalInv(p) && ReplyInv(p)
    ensures ReplyInv(Step(p, a))
  {
    hide JournalInv, ReplyInv, Journal, Reply, StopProgress, Fail;
    match a
    case Journalled(ok) =>
      match p.pc {
        case AwaitingStart(_, _, _) => StartBarrierKeeps(p, ok);
        case Finishing(_, _, _) => EndBarriersKeep(p, ok);
        case Failing(_, _) => EndBarriersKeep(p, ok);
        case Ended => EndBarriersKeep(p, ok);
        case Released => EndBarriersKeep(p, ok);
        case _ => BarrierKeeps(p, ok);
      }
    case Interrupt => InterruptKeeps(p);
    case StopBegan(w) => StopStarts(p, w);
    case StopReply(w, ok) => StopAnswered(p, w, ok);
    case LeaseReleased => ReleaseKeepsReplies(p);
    case DisableReply(_, _) => CallReplyKeeps(p, a);
    case PrepareReply(_, _) => CallReplyKeeps(p, a);
    case StartReply(_, _) => CallReplyKeeps(p, a);
    case _ => EventReplyKeeps(p, a);
  }

  lemma InterruptKeeps(p: Proc)
    requires ReplyInv(p)
    ensures ReplyInv(Fail(p))
  {
    hide Fail, Vouched, Collected, StopsLast;
    FailKeeps(p);
  }

  lemma ReleaseKeepsReplies(p: Proc)
    requires ReplyInv(p)
    ensures p.pc.Ended? ==> ReplyInv(p.(pc := Released))
  {
    hide Vouched, StopsLast, Everyone;
    VouchedSame(p, p.(pc := Released));
  }

  lemma {:induction false} RepliesAlways(p: Proc, actions: seq<Action>)
    requires JournalInv(p) && ReplyInv(p)
    ensures ReplyInv(Execute(p, actions))
    decreases |actions|
  {
    hide JournalInv, ReplyInv, Step;
    if actions != [] {
      ReplyInvKeeps(p, actions[0]);
      JournalKeeps(p, actions[0]);
      RepliesAlways(Step(p, actions[0]), actions[1..]);
    }
  }

  lemma NothingSaid(program: Program)
    ensures ReplyInv(Begin(program)) && JournalInv(Begin(program))
  {
    assert Word(|program.phases|)[..0] == [];
  }

  /** In every run: workers.disabled, phase.prepared and phase.scheduled are written only
      after every worker concerned has answered well, phase.started and phase.completed
      only after every worker of the phase has reported, run.completed only after every
      participant was stopped and answered well, with nothing done after the first stop;
      and a run that was opened ends only after every participant's stop was answered. */
  lemma EntriesAreVouched(program: Program, actions: seq<Action>)
    ensures var p := Execute(Begin(program), actions);
            Vouched(p) && StopsLast(p.trace) &&
            ((p.pc.Ended? || p.pc.Released?) && p.journal != [] ==> AllAnswered(p.program, {}, p.trace))
  {
    hide Execute, Vouched, StopsLast;
    NothingSaid(program);
    RepliesAlways(Begin(program), actions);
  }
}
