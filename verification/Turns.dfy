/** What turns an orchestrated run to the next place, to the coordinated stop or to its end,
    and that it can always be brought to let go of its lease
    (remote_robot/orchestrator.py, `_execute_leased`). */
module Turns {
  import opened Wrappers
  import opened Orchestrator
  import opened GoodRuns

  /** Every reply the run is waiting for here is in. */
  predicate Settled(pc: Pc) {
    match pc
    case Disabling(pending, _) => pending == {}
    case Preparing(_, pending, _) => pending == {}
    case Scheduling(_, pending, _) => pending == {}
    case AwaitingStart(_, pending, _) => pending == {}
    case AwaitingEnd(_, pending) => pending == {}
    case Finishing(pending, stopping, _) => pending == {} && stopping == {}
    case Failing(pending, stopping) => pending == {} && stopping == {}
    case _ => pc.Opening?
  }

  /** One of the replies collected here was bad. */
  predicate Flagged(pc: Pc) {
    (pc.Disabling? && pc.failed) || (pc.Preparing? && pc.failed) || (pc.Scheduling? && pc.failed) ||
    (pc.Finishing? && pc.failed)
  }

  predicate Driven(pc: Pc) {
    pc.Disabling? || pc.Preparing? || pc.Scheduling? || pc.AwaitingStart? || pc.AwaitingEnd? || pc.Finishing?
  }

  /** The reported start times are no good: none, a negative one, or a limit that is no limit. */
  predicate BadStarts(program: Program, starts: map<string, int>) {
    starts == map[] || (exists w :: w in starts && starts[w] < 0) ||
    (program.maxSkewUs.Some? && program.maxSkewUs.value <= 0)
  }

  ghost predicate Apart(program: Program, starts: map<string, int>) {
    program.maxSkewUs.Some? &&
    exists a, b :: a in starts && b in starts && program.maxSkewUs.value < starts[a] - starts[b]
  }

  /** The next phase, if there is one, has no worker. */
  predicate NextIsEmpty(p: Proc) {
    (p.pc.Disabling? && p.program.phases != [] && p.program.phases[0].workers == map[]) ||
    (p.pc.AwaitingEnd? && p.pc.k + 1 < |p.program.phases| && p.program.phases[p.pc.k + 1].workers == map[])
  }

  /** What makes a run that is under way fail. */
  ghost predicate FailureCause(p: Proc, a: Action) {
    Driven(p.pc) &&
    match a
    case Interrupt => true
    case BadEvent(w) => (p.pc.AwaitingStart? || p.pc.AwaitingEnd?) && w in p.pc.pending
    case Journalled(ok) =>
      Settled(p.pc) &&
      (!ok || Flagged(p.pc) || NextIsEmpty(p) ||
       (p.pc.AwaitingStart? && (BadStarts(p.program, p.pc.starts) || Apart(p.program, p.pc.starts))))
    case _ => false
  }

  lemma ApartIsTooMuch(program: Program, starts: map<string, int>)
    requires starts != map[]
    ensures Apart(program, starts) <==> !SkewAcceptable(program, SkewOf(starts))
  {
    if program.maxSkewUs.Some? && program.maxSkewUs.value < SkewOf(starts) {
      var a, b :| a in starts && b in starts && starts[a] - starts[b] == SkewOf(starts);
    }
  }

  /** A run turns to the coordinated stop exactly when it has a cause to: an interruption, an
      event of failure, a bad reply or a failed append when all replies are in, start times
      that are bad or too far apart, or a next phase without workers.  Then everyone is to be
      stopped. */
  lemma FailsExactly(p: Proc, a: Action)
    ensures !p.pc.Failing? ==> (Step(p, a).pc.Failing? <==> FailureCause(p, a))
    ensures !p.pc.Failing? && Step(p, a).pc.Failing? ==> Step(p, a).pc == Failing(Everyone(p.program), {})
  {
    hide Everyone, SkewOf, SkewAcceptable, Apart, BadStarts, Reply, StopProgress;
    if p.pc.Failing? { return; }
    match a
    case Journalled(ok) =>
      if p.pc.AwaitingStart? { StartsFail(p, ok); }
    case Interrupt =>
    case StopBegan(_) => StopsDoNotFail(p, a);
    case StopReply(_, _) => StopsDoNotFail(p, a);
    case LeaseReleased =>
    case _ => RepliesFail(p, a);
  }

  lemma StartsFail(p: Proc, ok: bool)
    requires p.pc.AwaitingStart?
    ensures var q := StartBarrier(p, ok);
            (q.pc.Failing? <==> FailureCause(p, Journalled(ok))) &&
            (q.pc.Failing? ==> q.pc == Failing(Everyone(p.program), {}))
  {
    hide Everyone, SkewOf, SkewAcceptable, Apart;
    if p.pc.starts != map[] { ApartIsTooMuch(p.program, p.pc.starts); }
  }

  lemma StopsDoNotFail(p: Proc, a: Action)
    requires !p.pc.Failing?
    ensures !StopProgress(p, a).pc.Failing?
  {
  }

  lemma RepliesFail(p: Proc, a: Action)
    requires !p.pc.Failing? && !a.Journalled? && !a.Interrupt?
    ensures Reply(p, a).pc.Failing? <==> FailureCause(p, a)
    ensures Reply(p, a).pc.Failing? ==> Reply(p, a).pc == Failing(Everyone(p.program), {})
  {
    hide Everyone, Apart, BadStarts;
  }

  /** A bad reply of a worker that was asked, and nothing else, spoils the stage, and stays. */
  lemma FlaggedExactly(p: Proc, a: Action)
    ensures Flagged(Step(p, a).pc) <==>
              (Flagged(p.pc) && !(a.Journalled? && Settled(p.pc)) && !a.Interrupt?) || BadReply(p, a)
  {
    hide Everyone, SkewOf, SkewAcceptable, Reply, StopProgress, Flagged, Settled, BadReply, Orchestrator.Journal;
    match a
    case Journalled(ok) => BarrierFlags(p, ok);
    case Interrupt => InterruptFlags(p);
    case LeaseReleased => ReleaseFlags(p);
    case StopBegan(_) => StopFlags(p, a);
    case StopReply(_, _) => StopFlags(p, a);
    case _ => ReplyFlags(p, a);
  }

  lemma BarrierFlags(p: Proc, ok: bool)
    ensures Flagged(Orchestrator.Journal(p, ok).pc) <==> Flagged(p.pc) && !Settled(p.pc)
    ensures !BadReply(p, Journalled(ok))
  {
    hide Everyone, SkewOf, SkewAcceptable;
  }

  lemma InterruptFlags(p: Proc)
    ensures !Flagged((if Interruptible(p.pc) then Fail(p) else p).pc) && !BadReply(p, Interrupt)
  {
  }

  lemma ReleaseFlags(p: Proc)
    ensures !BadReply(p, LeaseReleased) && (p.pc.Ended? ==> !Flagged(p.pc) && !Flagged(Pc.Released))
  {
  }

  lemma StopFlags(p: Proc, a: Action)
    requires a.StopBegan? || a.StopReply?
    ensures Flagged(StopProgress(p, a).pc) <==> Flagged(p.pc) || BadReply(p, a)
  {
  }

  lemma ReplyFlags(p: Proc, a: Action)
    requires !a.StopBegan? && !a.StopReply?
    ensures Flagged(Reply(p, a).pc) <==> (Flagged(p.pc) || BadReply(p, a))
  {
    hide Everyone;
  }

  predicate BadReply(p: Proc, a: Action) {
    match a
    case DisableReply(w, ok) => !ok && p.pc.Disabling? && w in p.pc.pending
    case PrepareReply(w, ok) => !ok && p.pc.Preparing? && w in p.pc.pending
    case StartReply(w, ok) => !ok && p.pc.Scheduling? && w in p.pc.pending
    case StopReply(w, ok) => !ok && p.pc.Finishing? && w in p.pc.stopping
    case _ => false
  }

  /** The entry that a settled run writes next. */
  ghost function NextEntry(p: Proc): Option<Entry> {
    match p.pc
    case Opening => Some(RunOpened)
    case Disabling(_, failed) => if failed then None else Some(WorkersDisabled)
    case Preparing(k, _, failed) => if failed then None else Some(PhasePrepared(k))
    case Scheduling(k, _, failed) => if failed then None else Some(PhaseScheduled(k))
    case AwaitingStart(k, _, starts) => if BadStarts(p.program, starts) then None else Some(PhaseStarted(k))
    case AwaitingEnd(k, _) => Some(PhaseCompleted(k))
    case Finishing(_, _, failed) => if failed then None else Some(RunCompleted)
    case Failing(_, _) => Some(RunFaulted)
    case _ => None
  }

  /** The journal grows exactly by the entry of a settled place that was not spoilt. */
  lemma WritesExactly(p: Proc, a: Action)
    ensures Step(p, a).journal ==
            p.journal +
            if a == Journalled(true) && Settled(p.pc) && NextEntry(p).Some? then [NextEntry(p).value] else []
  {
    hide Everyone, SkewOf, SkewAcceptable;
  }

  /** A run ends exactly when it could not even be opened, when it has completed, or when its
      coordinated stop is settled and run.faulted has been tried. */
  lemma EndsExactly(p: Proc, a: Action)
    ensures !p.pc.Ended? ==>
              (Step(p, a).pc.Ended? <==>
                 (p.pc.Opening? && a == Journalled(false)) ||
                 (p.pc.Finishing? && Settled(p.pc) && !p.pc.failed && a == Journalled(true)) ||
                 (p.pc.Failing? && Settled(p.pc) && a.Journalled?))
    ensures Step(p, a).pc.Released? <==> p.pc.Released? || (p.pc.Ended? && a.LeaseReleased?)
  {
    hide Everyone, SkewOf, SkewAcceptable;
  }

  // ---------- a run can always let go ----------

  lemma {:induction false} Drain(p: Proc) returns (actions: seq<Action>)
    requires p.pc.Failing?
    ensures var q := Execute(p, actions); SameRun(p, q) && q.pc == Failing({}, {})
    ensures Journalled(true) !in actions
    decreases |p.pc.pending| * 2 + |p.pc.stopping|
  {
    hide Execute, Everyone;
    actions := [];
    if p.pc == Failing({}, {}) {
      Nothing(p);
    } else {
      var a: Action;
      if p.pc.pending != {} {
        var w :| w in p.pc.pending;
        a := StopBegan(w);
        Smaller(p.pc.stopping, w);
      } else {
        var w :| w in p.pc.stopping;
        a := StopReply(w, false);
      }
      var rest := Drain(Step(p, a));
      One(p, a);
      Then(p, [a], rest);
      actions := [a] + rest;
    }
  }

  lemma Nothing(p: Proc)
    ensures Execute(p, []) == p
  {
  }

  lemma Smaller(s: set<string>, w: string)
    ensures |s + {w}| <= |s| + 1
  {
    if w in s { assert s + {w} == s; } else { assert |s + {w}| == |s| + 1; }
  }

  /** From wherever a run is, and even when the journal takes nothing any more, there is a
      way on which it stops every worker it must and releases its lease: no run is ever
      stuck with its lease. */
  lemma CanAlwaysRelease(p: Proc) returns (actions: seq<Action>)
    ensures Execute(p, actions).pc.Released?
    ensures p.journal <= Execute(p, actions).journal && Journalled(true) !in actions
  {
    hide Execute, Everyone, StartBarrier;
    match p.pc
    case Released =>
      Nothing(p);
      actions := [];
    case Ended => actions := LetGo(p);
    case Opening =>
      One(p, Journalled(false));
      var rest := LetGo(Step(p, Journalled(false)));
      Then(p, [Journalled(false)], rest);
      actions := [Journalled(false)] + rest;
    case Failing(_, _) => actions := Finish(p);
    case _ =>
      One(p, Interrupt);
      var rest := Finish(Step(p, Interrupt));
      Then(p, [Interrupt], rest);
      actions := [Interrupt] + rest;
  }

  lemma LetGo(p: Proc) returns (actions: seq<Action>)
    requires p.pc.Ended?
    ensures Execute(p, actions).pc.Released? && Execute(p, actions).journal == p.journal && Journalled(true) !in actions
  {
    hide Execute;
    One(p, LeaseReleased);
    actions := [LeaseReleased];
  }

  lemma Finish(p: Proc) returns (actions: seq<Action>)
    requires p.pc.Failing?
    ensures Execute(p, actions).pc.Released? && Execute(p, actions).journal == p.journal && Journalled(true) !in actions
  {
    hide Execute, Everyone;
    var drained := Drain(p);
    var q := Execute(p, drained);
    One(q, Journalled(false));
    var rest := LetGo(Step(q, Journalled(false)));
    Then(p, drained, [Journalled(false)]);
    Then(p, drained + [Journalled(false)], rest);
    actions := drained + [Journalled(false)] + rest;
  }
}
