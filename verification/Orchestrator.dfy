/** One orchestrated v2 run, from lease to release (remote_robot/orchestrator.py,
    `_execute_leased` and its helpers).

    Worker replies, worker events, journal failures, timeouts and cancellation are all
    inputs of the machine, so every theorem holds whatever the workers do.
 */
module Orchestrator {
  import opened Wrappers

  /** `workers` maps each participating worker to the leaves it commands in the phase. */
  datatype Phase = Phase(phaseId: string, executionId: string, durationUs: int, workers: map<string, set<string>>)

  datatype Program = Program(phases: seq<Phase>, maxSkewUs: Option<int>)

  datatype Entry =
    | RunOpened
    | WorkersDisabled
    | PhasePrepared(k: nat)
    | PhaseScheduled(k: nat)
    | PhaseStarted(k: nat)
    | PhaseCompleted(k: nat)
    | RunCompleted
    | RunFaulted

  /** What the run did to, or learned from, one worker. */
  datatype Act =
    | DidDisable(worker: string)           // prepare_disabled returned
    | DidPrepare(worker: string, k: nat)   // prepare_phase returned
    | DidStart(worker: string, k: nat)     // start_phase was called
    | Acknowledged(worker: string, k: nat) // ... and returned under the phase's identity
    | SawStart(worker: string, k: nat, atUs: int)
    | SawEnd(worker: string, k: nat)
    | DidStop(worker: string, ok: bool)    // the final or coordinated stop was answered

  datatype Pc =
    | Opening
    | Disabling(pending: set<string>, failed: bool)
    | Preparing(k: nat, pending: set<string>, failed: bool)
    | Scheduling(k: nat, pending: set<string>, failed: bool)
    | AwaitingStart(k: nat, pending: set<string>, starts: map<string, int>)
    | AwaitingEnd(k: nat, pending: set<string>)
    | Finishing(pending: set<string>, stopping: set<string>, failed: bool)
    | Failing(pending: set<string>, stopping: set<string>)
    | Ended
    | Released

  datatype Proc = Proc(program: Program, pc: Pc, journal: seq<Entry>, trace: seq<Act>, skews: map<nat, int>)

  datatype Action =
    | Journalled(ok: bool)                 // the next journal append of the run
    | DisableReply(worker: string, ok: bool)
    | PrepareReply(worker: string, ok: bool)
    | StartReply(worker: string, ok: bool) // false: an error or a bad acknowledgement
    | StartEvent(worker: string, atUs: int)
    | EndEvent(worker: string)
    | BadEvent(worker: string)
    | Interrupt                            // timeout, cancellation or any other exception
    | StopBegan(worker: string)
    | StopReply(worker: string, ok: bool)
    | LeaseReleased

  function Participants(phases: seq<Phase>): set<string> {
    if phases == [] then {} else phases[0].workers.Keys + Participants(phases[1..])
  }

  function Everyone(program: Program): set<string> {
    Participants(program.phases)
  }

  function WorkersOf(program: Program, k: nat): set<string> {
    if k < |program.phases| then program.phases[k].workers.Keys else {}
  }

  function Begin(program: Program): Proc {
    Proc(program, Opening, [], [], map[])
  }

  function Fail(p: Proc): Proc {
    p.(pc := Failing(Everyone(p.program), {}))
  }

  /** Enter phase k, or the final stop when there is none left. */
  function Enter(p: Proc, k: nat): Proc {
    if k >= |p.program.phases| then p.(pc := Finishing(Everyone(p.program), {}, false))
    else if p.program.phases[k].workers == map[] then Fail(p)
    else p.(pc := Preparing(k, p.program.phases[k].workers.Keys, false))
  }

  function Note(p: Proc, e: Entry): Proc {
    p.(journal := p.journal + [e])
  }

  function Record(p: Proc, a: Act): Proc {
    p.(trace := p.trace + [a])
  }

  // ---------- start skew ----------

  /** The largest distance between any two reported start times. */
  ghost predicate IsSkew(starts: map<string, int>, skew: int) {
    (exists a, b :: a in starts && b in starts && starts[a] - starts[b] == skew) &&
    (forall a, b :: a in starts && b in starts ==> starts[a] - starts[b] <= skew)
  }

  ghost function SkewOf(starts: map<string, int>): (skew: int)
    requires starts != map[]
    ensures IsSkew(starts, skew)
  {
    SomeSkew(starts);
    var skew :| IsSkew(starts, skew);
    skew
  }

  lemma {:induction false} SomeSkew(starts: map<string, int>)
    requires starts != map[]
    ensures exists skew :: IsSkew(starts, skew)
  {
    var hi := Furthest(starts, starts.Keys, 1);
    var lo := Furthest(starts, starts.Keys, -1);
    assert IsSkew(starts, starts[hi] - starts[lo]);
  }

  lemma {:induction false} Furthest(starts: map<string, int>, workers: set<string>, sign: int) returns (w: string)
    requires workers <= starts.Keys && workers != {} && (sign == 1 || sign == -1)
    ensures w in workers && forall v :: v in workers ==> sign * starts[v] <= sign * starts[w]
    decreases workers
  {
    w :| w in workers;
    var rest := workers - {w};
    if rest != {} {
      var best := Furthest(starts, rest, sign);
      assert workers == rest + {w};
      if sign * starts[w] <= sign * starts[best] { w := best; }
    } else {
      assert workers == {w};
    }
  }

  /** The orchestrator's own computation: scan the acknowledgements, reject a missing or
      negative time, return the latest minus the earliest. */
  method ObservedStartSkew(starts: map<string, int>) returns (skew: Option<int>)
    ensures skew.None? <==> starts == map[] || exists w :: w in starts && starts[w] < 0
    ensures skew.Some? ==> skew.value == SkewOf(starts)
  {
    if starts == map[] { return None; }
    var remaining := starts.Keys;
    var first :| first in remaining;
    var hi, lo := starts[first], starts[first];
    ghost var maxAt, minAt := first, first;
    while remaining != {}
      invariant remaining <= starts.Keys
      invariant maxAt in starts && starts[maxAt] == hi && minAt in starts && starts[minAt] == lo
      invariant forall w :: w in starts.Keys - remaining ==> lo <= starts[w] <= hi && 0 <= starts[w]
      decreases remaining
    {
      var w :| w in remaining;
      if starts[w] < 0 { return None; }
      if starts[w] > hi { hi, maxAt := starts[w], w; }
      if starts[w] < lo { lo, minAt := starts[w], w; }
      remaining := remaining - {w};
    }
    assert starts.Keys - remaining == starts.Keys;
    assert forall w :: w in starts ==> w in starts.Keys - remaining;
    assert starts[maxAt] - starts[minAt] == hi - lo;
    assert IsSkew(starts, hi - lo);
    return Some(hi - lo);
  }

  // ---------- one step ----------

  ghost predicate SkewAcceptable(program: Program, skew: int) {
    program.maxSkewUs.Some? ==> skew <= program.maxSkewUs.value
  }

  // One function per barrier: what the next journal append leads to once every pending
  // reply is in.  A failed reply or a failed append leads to the coordinated stop.

  function OpenBarrier(p: Proc, ok: bool): Proc {
    if ok then Note(p, RunOpened).(pc := Disabling(Everyone(p.program), false)) else p.(pc := Ended)
  }

  function DisableBarrier(p: Proc, ok: bool): Proc
    requires p.pc.Disabling?
  {
    if p.pc.pending != {} then p
    else if p.pc.failed || !ok then Fail(p)
    else Enter(Note(p, WorkersDisabled), 0)
  }

  function PrepareBarrier(p: Proc, ok: bool): Proc
    requires p.pc.Preparing?
  {
    if p.pc.pending != {} then p
    else if p.pc.failed || !ok then Fail(p)
    else Note(p, PhasePrepared(p.pc.k)).(pc := Scheduling(p.pc.k, WorkersOf(p.program, p.pc.k), false))
  }

  function ScheduleBarrier(p: Proc, ok: bool): Proc
    requires p.pc.Scheduling?
  {
    if p.pc.pending != {} then p
    else if p.pc.failed || !ok then Fail(p)
    else Note(p, PhaseScheduled(p.pc.k)).(pc := AwaitingStart(p.pc.k, WorkersOf(p.program, p.pc.k), map[]))
  }

  /** All workers have reported: the skew is recorded before it is judged. */
  ghost function StartBarrier(p: Proc, ok: bool): Proc
    requires p.pc.AwaitingStart?
  {
    var k, starts := p.pc.k, p.pc.starts;
    if p.pc.pending != {} then p
    else if !ok || starts == map[] || (exists w :: w in starts && starts[w] < 0) ||
            (p.program.maxSkewUs.Some? && p.program.maxSkewUs.value <= 0) then Fail(p)
    else
      var p' := Note(p, PhaseStarted(k)).(skews := p.skews[k := SkewOf(starts)]);
      if SkewAcceptable(p.program, SkewOf(starts)) then p'.(pc := AwaitingEnd(k, WorkersOf(p.program, k))) else Fail(p')
  }

  function EndBarrier(p: Proc, ok: bool): Proc
    requires p.pc.AwaitingEnd?
  {
    if p.pc.pending != {} then p
    else if !ok then Fail(p)
    else Enter(Note(p, PhaseCompleted(p.pc.k)), p.pc.k + 1)
  }

  function FinishBarrier(p: Proc, ok: bool): Proc
    requires p.pc.Finishing?
  {
    if p.pc.pending != {} || p.pc.stopping != {} then p
    else if p.pc.failed || !ok then Fail(p)
    else Note(p, RunCompleted).(pc := Ended)
  }

  function FaultBarrier(p: Proc, ok: bool): Proc
    requires p.pc.Failing?
  {
    if p.pc.pending != {} || p.pc.stopping != {} then p
    else (if ok then Note(p, RunFaulted) else p).(pc := Ended)
  }

  ghost function Journal(p: Proc, ok: bool): Proc {
    match p.pc
    case Opening => OpenBarrier(p, ok)
    case Disabling(_, _) => DisableBarrier(p, ok)
    case Preparing(_, _, _) => PrepareBarrier(p, ok)
    case Scheduling(_, _, _) => ScheduleBarrier(p, ok)
    case AwaitingStart(_, _, _) => StartBarrier(p, ok)
    case AwaitingEnd(_, _) => EndBarrier(p, ok)
    case Finishing(_, _, _) => FinishBarrier(p, ok)
    case Failing(_, _) => FaultBarrier(p, ok)
    case Ended => p
    case Released => p
  }

  function Reply(p: Proc, a: Action): Proc {
    match a
    case DisableReply(w, ok) =>
      if p.pc.Disabling? && w in p.pc.pending then
        var p' := if ok then Record(p, DidDisable(w)) else p;
        p'.(pc := Disabling(p.pc.pending - {w}, p.pc.failed || !ok))
      else p
    case PrepareReply(w, ok) =>
      if p.pc.Preparing? && w in p.pc.pending then
        var p' := if ok then Record(p, DidPrepare(w, p.pc.k)) else p;
        p'.(pc := Preparing(p.pc.k, p.pc.pending - {w}, p.pc.failed || !ok))
      else p
    case StartReply(w, ok) =>
      if p.pc.Scheduling? && w in p.pc.pending then
        var called := Record(p, DidStart(w, p.pc.k));
        var p' := if ok then Record(called, Acknowledged(w, p.pc.k)) else called;
        p'.(pc := Scheduling(p.pc.k, p.pc.pending - {w}, p.pc.failed || !ok))
      else p
    case StartEvent(w, atUs) =>
      if p.pc.AwaitingStart? && w in p.pc.pending
      then
        var waiting := AwaitingStart(p.pc.k, p.pc.pending - {w}, p.pc.starts[w := atUs]);
        Record(p, SawStart(w, p.pc.k, atUs)).(pc := waiting)
      else p
    case EndEvent(w) =>
      if p.pc.AwaitingEnd? && w in p.pc.pending
      then Record(p, SawEnd(w, p.pc.k)).(pc := AwaitingEnd(p.pc.k, p.pc.pending - {w})) else p
    case BadEvent(w) =>
      if (p.pc.AwaitingStart? || p.pc.AwaitingEnd?) && w in p.pc.pending then Fail(p) else p
    case _ => p
  }

  predicate Interruptible(pc: Pc) {
    !pc.Opening? && !pc.Failing? && !pc.Ended? && !pc.Released?
  }

  function StopProgress(p: Proc, a: Action): Proc {
    match a
    case StopBegan(w) =>
      if p.pc.Finishing? && w in p.pc.pending
        then p.(pc := Finishing(p.pc.pending - {w}, p.pc.stopping + {w}, p.pc.failed))
      else if p.pc.Failing? && w in p.pc.pending then p.(pc := Failing(p.pc.pending - {w}, p.pc.stopping + {w}))
      else p
    case StopReply(w, ok) =>
      if p.pc.Finishing? && w in p.pc.stopping
      then Record(p, DidStop(w, ok)).(pc := Finishing(p.pc.pending, p.pc.stopping - {w}, p.pc.failed || !ok))
      else if p.pc.Failing? && w in p.pc.stopping
      then Record(p, DidStop(w, ok)).(pc := Failing(p.pc.pending, p.pc.stopping - {w}))
      else p
    case _ => p
  }

  ghost function Step(p: Proc, a: Action): Proc {
    match a
    case Journalled(ok) => Journal(p, ok)
    case Interrupt => if Interruptible(p.pc) then Fail(p) else p
    case StopBegan(_) => StopProgress(p, a)
    case StopReply(_, _) => StopProgress(p, a)
    case LeaseReleased => if p.pc.Ended? then p.(pc := Released) else p
    case _ => Reply(p, a)
  }

  ghost function Execute(p: Proc, actions: seq<Action>): Proc
    decreases |actions|
  {
    if actions == [] then p else Execute(Step(p, actions[0]), actions[1..])
  }

  // ---------- the journal's language ----------

  /** The i-th entry of an undisturbed run. */
  function EntryAt(i: nat): Entry {
    if i == 0 then RunOpened
    else if i == 1 then WorkersDisabled
    else
      var k, part := (i - 2) / 4, (i - 2) % 4;
      if part == 0 then PhasePrepared(k)
      else if part == 1 then PhaseScheduled(k)
      else if part == 2 then PhaseStarted(k)
      else PhaseCompleted(k)
  }

  /** opened, disabled, (prepared scheduled started completed) for each of n phases. */
  function Word(n: nat): seq<Entry> {
    seq(2 + 4 * n, i requires 0 <= i < 2 + 4 * n => EntryAt(i))
  }

  /** How many entries of the word a run has written, by where it is. */
  function Written(pc: Pc, n: nat): nat
    requires !pc.Failing? && !pc.Ended? && !pc.Released?
  {
    match pc
    case Opening => 0
    case Disabling(_, _) => 1
    case Preparing(k, _, _) => 2 + 4 * k
    case Scheduling(k, _, _) => 3 + 4 * k
    case AwaitingStart(k, _, _) => 4 + 4 * k
    case AwaitingEnd(k, _) => 5 + 4 * k
    case Finishing(_, _, _) => 2 + 4 * n
  }

  predicate PhaseInRange(pc: Pc, n: nat) {
    pc.Preparing? || pc.Scheduling? || pc.AwaitingStart? || pc.AwaitingEnd? ==> pc.k < n
  }

  ghost predicate JournalInv(p: Proc) {
    var n := |p.program.phases|;
    PhaseInRange(p.pc, n) &&
    if p.pc.Failing? then p.journal != [] && p.journal <= Word(n)
    else if p.pc.Ended? || p.pc.Released? then EndOfJournal(p.journal, n)
    else Written(p.pc, n) <= |Word(n)| && p.journal == Word(n)[..Written(p.pc, n)]
  }

  /** A finished run's journal: the whole word and run.completed; or a non-empty part of
      it and run.faulted, which alone may be missing when the evidence store itself
      failed; or nothing, when even run.opened could not be written. */
  ghost predicate EndOfJournal(journal: seq<Entry>, n: nat) {
    journal == [] || journal == Word(n) + [RunCompleted] ||
    (journal != [] && journal <= Word(n)) ||
    (|journal| >= 2 && journal[|journal| - 1] == RunFaulted && journal[..|journal| - 1] <= Word(n))
  }

  lemma NextEntry(n: nat, i: nat)
    requires i < |Word(n)|
    ensures Word(n)[..i] + [EntryAt(i)] == Word(n)[..i + 1]
  {
  }

  lemma PhaseEntries(k: nat)
    ensures EntryAt(2 + 4 * k) == PhasePrepared(k) && EntryAt(3 + 4 * k) == PhaseScheduled(k)
    ensures EntryAt(4 + 4 * k) == PhaseStarted(k) && EntryAt(5 + 4 * k) == PhaseCompleted(k)
  {
  }

  lemma WholeWord(n: nat)
    ensures Word(n)[..2 + 4 * n] == Word(n) && |Word(n)| == 2 + 4 * n
  {
  }

  /** Writing the next entry of the word. */
  lemma Advance(p: Proc)
    requires JournalInv(p) && !p.pc.Failing? && !p.pc.Ended? && !p.pc.Released? && !p.pc.Finishing?
    ensures var n := |p.program.phases|; var i := Written(p.pc, n);
            i < |Word(n)| && p.journal + [EntryAt(i)] == Word(n)[..i + 1] && p.journal <= Word(n)
  {
    hide EntryAt;
    WholeWord(|p.program.phases|);
    NextEntry(|p.program.phases|, Written(p.pc, |p.program.phases|));
  }

  lemma OpeningKeeps(p: Proc, ok: bool)
    requires JournalInv(p) && (p.pc.Opening? || p.pc.Disabling?)
    ensures JournalInv(Journal(p, ok))
  {
    hide Word, Everyone, EntryAt, StartBarrier;
    Advance(p);
    FirstEntries();
    WholeWord(|p.program.phases|);
  }

  lemma PhaseKeeps(p: Proc, ok: bool)
    requires JournalInv(p) && (p.pc.Preparing? || p.pc.Scheduling?)
    ensures JournalInv(Journal(p, ok))
  {
    hide Word, Everyone, EntryAt, StartBarrier;
    Advance(p);
    PhaseEntries(p.pc.k);
    WholeWord(|p.program.phases|);
  }

  lemma EndKeeps(p: Proc, ok: bool)
    requires JournalInv(p) && p.pc.AwaitingEnd?
    ensures JournalInv(EndBarrier(p, ok))
  {
    hide Word, Everyone, EntryAt;
    Advance(p);
    PhaseEntries(p.pc.k);
    WholeWord(|p.program.phases|);
  }

  lemma StartKeeps(p: Proc, ok: bool)
    requires JournalInv(p) && p.pc.AwaitingStart?
    ensures JournalInv(StartBarrier(p, ok))
  {
    hide Word, Everyone, EntryAt, SkewOf, IsSkew;
    Advance(p);
    PhaseEntries(p.pc.k);
    WholeWord(|p.program.phases|);
  }

  lemma StoppingKeeps(p: Proc, ok: bool)
    requires JournalInv(p) && (p.pc.Finishing? || p.pc.Failing?)
    ensures JournalInv(Journal(p, ok))
  {
    hide Word, Everyone, StartBarrier;
    WholeWord(|p.program.phases|);
    assert (p.journal + [RunFaulted])[..|p.journal|] == p.journal;
  }

  lemma JournalStepKeeps(p: Proc, ok: bool)
    requires JournalInv(p)
    ensures JournalInv(Journal(p, ok))
  {
    hide JournalInv, OpenBarrier, DisableBarrier, PrepareBarrier, ScheduleBarrier, StartBarrier, EndBarrier,
         FinishBarrier, FaultBarrier;
    match p.pc
    case Opening => OpeningKeeps(p, ok);
    case Disabling(_, _) => OpeningKeeps(p, ok);
    case Preparing(_, _, _) => PhaseKeeps(p, ok);
    case Scheduling(_, _, _) => PhaseKeeps(p, ok);
    case AwaitingStart(_, _, _) => StartKeeps(p, ok);
    case AwaitingEnd(_, _) => EndKeeps(p, ok);
    case Finishing(_, _, _) => StoppingKeeps(p, ok);
    case Failing(_, _) => StoppingKeeps(p, ok);
    case Ended =>
    case Released =>
  }

  lemma FirstEntries()
    ensures EntryAt(0) == RunOpened && EntryAt(1) == WorkersDisabled
  {
  }

  lemma JournalKeeps(p: Proc, a: Action)
    requires JournalInv(p)
    ensures JournalInv(Step(p, a))
  {
    hide Word, Journal, Everyone;
    WholeWord(|p.program.phases|);
    if a.Journalled? { JournalStepKeeps(p, a.ok); }
  }

  lemma StepKeepsProgram(p: Proc, a: Action)
    ensures Step(p, a).program == p.program
  {
    hide SkewOf;
  }

  lemma {:induction false} JournalAlways(p: Proc, actions: seq<Action>)
    requires JournalInv(p)
    ensures JournalInv(Execute(p, actions)) && Execute(p, actions).program == p.program
    decreases |actions|
  {
    hide JournalInv, Step;
    if actions != [] {
      JournalKeeps(p, actions[0]);
      StepKeepsProgram(p, actions[0]);
      JournalAlways(Step(p, actions[0]), actions[1..]);
    }
  }

  /** Whatever workers, clocks and the evidence store do, the journal of a run is at all
      times a part of the word, and of a finished run one of the four endings. */
  lemma JournalIsAWord(program: Program, actions: seq<Action>)
    ensures var p := Execute(Begin(program), actions);
            var n := |program.phases|;
            p.journal <= Word(n) || ((p.pc.Ended? || p.pc.Released?) && EndOfJournal(p.journal, n))
  {
    hide Execute, EndOfJournal;
    assert Word(|program.phases|)[..0] == [];
    JournalAlways(Begin(program), actions);
  }

  /** With a working evidence store a finished run ends in exactly one terminal entry:
      run.completed after every phase, or run.faulted after a part of the word. */
  ghost predicate EndsProperly(p: Proc) {
    p.pc.Ended? || p.pc.Released? ==>
      p.journal == Word(|p.program.phases|) + [RunCompleted] ||
      (|p.journal| >= 2 && p.journal[|p.journal| - 1] == RunFaulted &&
       p.journal[..|p.journal| - 1] <= Word(|p.program.phases|))
  }

  lemma HealthyStep(p: Proc, a: Action)
    requires JournalInv(p) && EndsProperly(p) && (a.Journalled? ==> a.ok)
    ensures EndsProperly(Step(p, a))
  {
    hide Word, Everyone, SkewOf, IsSkew;
    WholeWord(|p.program.phases|);
    assert (p.journal + [RunFaulted])[..|p.journal|] == p.journal;
  }

  lemma {:induction false} HealthyRun(p: Proc, actions: seq<Action>)
    requires JournalInv(p) && EndsProperly(p)
    requires forall i :: 0 <= i < |actions| ==> actions[i].Journalled? ==> actions[i].ok
    ensures EndsProperly(Execute(p, actions))
    decreases |actions|
  {
    hide JournalInv, EndsProperly, Step;
    if actions != [] {
      HealthyStep(p, actions[0]);
      JournalKeeps(p, actions[0]);
      HealthyRun(Step(p, actions[0]), actions[1..]);
    }
  }

  // ---------- barriers ----------

  ghost predicate AllPrepared(program: Program, k: nat, done: set<string>, trace: seq<Act>) {
    forall w :: w in WorkersOf(program, k) && w !in done ==> DidPrepare(w, k) in trace
  }

  ghost predicate AllEnded(program: Program, k: nat, done: set<string>, trace: seq<Act>) {
    forall w :: w in WorkersOf(program, k) && w !in done ==> SawEnd(w, k) in trace
  }

  /** Starting waits for every preparation of the phase, preparing the next phase waits
      for every completion of the one before. */
  ghost predicate Ordered(program: Program, trace: seq<Act>) {
    forall i :: 0 <= i < |trace| ==>
      (trace[i].DidStart? ==> AllPrepared(program, trace[i].k, {}, trace[..i])) &&
      (trace[i].DidPrepare? && trace[i].k > 0 ==> AllEnded(program, trace[i].k - 1, {}, trace[..i]))
  }

  /** The recorded skew of a phase is that of the start times its workers reported. */
  ghost predicate SkewRecorded(p: Proc, k: nat) {
    k in p.skews && SkewAcceptable(p.program, p.skews[k]) &&
    exists starts: map<string, int> ::
      starts.Keys == WorkersOf(p.program, k) && IsSkew(starts, p.skews[k]) &&
      forall w :: w in starts ==> SawStart(w, k, starts[w]) in p.trace
  }

  ghost predicate BarrierInv(p: Proc) {
    Ordered(p.program, p.trace) &&
    (forall k :: PhaseCompleted(k) in p.journal ==> SkewRecorded(p, k)) &&
    match p.pc
    case Preparing(k, pending, failed) =>
      (k > 0 ==> AllEnded(p.program, k - 1, {}, p.trace)) && (!failed ==> AllPrepared(p.program, k, pending, p.trace))
    case Scheduling(k, pending, _) => AllPrepared(p.program, k, {}, p.trace)
    case AwaitingStart(k, pending, starts) =>
      starts.Keys == WorkersOf(p.program, k) - pending && pending <= WorkersOf(p.program, k) &&
      forall w :: w in starts ==> SawStart(w, k, starts[w]) in p.trace
    case AwaitingEnd(k, pending) => SkewRecorded(p, k) && AllEnded(p.program, k, pending, p.trace)
    case _ => true
  }

  lemma OrderedGrows(program: Program, trace: seq<Act>, a: Act)
    requires Ordered(program, trace)
    requires a.DidStart? ==> AllPrepared(program, a.k, {}, trace)
    requires a.DidPrepare? && a.k > 0 ==> AllEnded(program, a.k - 1, {}, trace)
    ensures Ordered(program, trace + [a])
  {
    hide AllPrepared, AllEnded;
    var longer := trace + [a];
    forall i | 0 <= i < |longer|
      ensures (longer[i].DidStart? ==> AllPrepared(program, longer[i].k, {}, longer[..i])) &&
              (longer[i].DidPrepare? && longer[i].k > 0 ==> AllEnded(program, longer[i].k - 1, {}, longer[..i]))
    {
      assert longer[..i] == trace[..i];
      assert i == |trace| ==> trace[..i] == trace;
    }
  }

  lemma SkewSurvives(p: Proc, p': Proc, k: nat)
    requires SkewRecorded(p, k) && p'.program == p.program && p.trace <= p'.trace
    requires k in p.skews ==> k in p'.skews && p'.skews[k] == p.skews[k]
    ensures SkewRecorded(p', k)
  {
    hide IsSkew;
    var starts: map<string, int> :|
      starts.Keys == WorkersOf(p.program, k) && IsSkew(starts, p.skews[k]) &&
      forall w :: w in starts ==> SawStart(w, k, starts[w]) in p.trace;
    assert forall w :: w in starts ==> SawStart(w, k, starts[w]) in p'.trace;
  }

  /** Moving to a place that claims nothing about the trace. */
  lemma BarrierFrame(p: Proc, p': Proc)
    requires BarrierInv(p) && p'.program == p.program && p'.trace == p.trace && p'.skews == p.skews
    requires forall k :: PhaseCompleted(k) in p'.journal ==> PhaseCompleted(k) in p.journal
    requires !p'.pc.Preparing? && !p'.pc.Scheduling? && !p'.pc.AwaitingStart? && !p'.pc.AwaitingEnd?
    ensures BarrierInv(p')
  {
    hide SkewRecorded, Ordered, AllPrepared, AllEnded;
    forall k | PhaseCompleted(k) in p'.journal
      ensures SkewRecorded(p', k)
    {
      SkewSurvives(p, p', k);
    }
  }

  lemma StopKeepsBarriers(p: Proc, w: string, ok: bool)
    requires BarrierInv(p)
    ensures BarrierInv(StopProgress(p, StopReply(w, ok)))
  {
    hide SkewRecorded, Ordered, AllPrepared, AllEnded;
    var p' := StopProgress(p, StopReply(w, ok));
    OrderedGrows(p.program, p.trace, DidStop(w, ok));
    SkewsOf(p, p');
  }

  lemma FailKeepsBarriers(p: Proc)
    requires BarrierInv(p)
    ensures BarrierInv(Fail(p))
  {
    hide BarrierInv, Everyone;
    BarrierFrame(p, Fail(p));
  }

  lemma SkewsOf(p: Proc, p': Proc)
    requires forall k :: PhaseCompleted(k) in p.journal ==> SkewRecorded(p, k)
    requires p'.program == p.program && p.trace <= p'.trace && p'.journal == p.journal && p'.skews == p.skews
    ensures forall k :: PhaseCompleted(k) in p'.journal ==> SkewRecorded(p', k)
  {
    hide SkewRecorded;
    forall k | PhaseCompleted(k) in p'.journal
      ensures SkewRecorded(p', k)
    {
      SkewSurvives(p, p', k);
    }
  }

  lemma ReplyKeepsBarriers(p: Proc, a: Action)
    requires BarrierInv(p)
    ensures BarrierInv(Reply(p, a))
  {
    hide Ordered, SkewRecorded, Everyone;
    var p' := Reply(p, a);
    SkewsOf(p, p'.(journal := p.journal));
    match a
    case PrepareReply(w, ok) =>
      if p.pc.Preparing? { OrderedGrows(p.program, p.trace, DidPrepare(w, p.pc.k)); }
    case StartReply(w, ok) =>
      if p.pc.Scheduling? {
        OrderedGrows(p.program, p.trace, DidStart(w, p.pc.k));
        OrderedGrows(p.program, p.trace + [DidStart(w, p.pc.k)], Acknowledged(w, p.pc.k));
      }
    case DisableReply(w, ok) => OrderedGrows(p.program, p.trace, DidDisable(w));
    case StartEvent(w, atUs) =>
      if p.pc.AwaitingStart? { OrderedGrows(p.program, p.trace, SawStart(w, p.pc.k, atUs)); }
    case EndEvent(w) =>
      if p.pc.AwaitingEnd? {
        OrderedGrows(p.program, p.trace, SawEnd(w, p.pc.k));
        SkewSurvives(p, Record(p, SawEnd(w, p.pc.k)), p.pc.k);
        if w in p.pc.pending { SkewSurvives(p, p', p.pc.k); }
      }
    case BadEvent(w) => FailKeepsBarriers(p);
    case _ =>
  }

  lemma NotYetCompleted(p: Proc)
    requires JournalInv(p) && p.pc.AwaitingStart?
    ensures PhaseCompleted(p.pc.k) !in p.journal
  {
    var n, k := |p.program.phases|, p.pc.k;
    forall i | 0 <= i < |p.journal|
      ensures p.journal[i] != PhaseCompleted(k)
    {
      assert p.journal[i] == EntryAt(i);
    }
  }

  lemma StartBarrierKeeps(p: Proc, ok: bool)
    requires JournalInv(p) && BarrierInv(p) && p.pc.AwaitingStart?
    ensures BarrierInv(StartBarrier(p, ok))
  {
    hide Ordered, Everyone, IsSkew, JournalInv, SkewAcceptable;
    var p', k, starts := StartBarrier(p, ok), p.pc.k, p.pc.starts;
    FailKeepsBarriers(p);
    NotYetCompleted(p);
    if p'.skews != p.skews || p'.pc.AwaitingEnd? {
      assert p'.skews == p.skews[k := SkewOf(starts)] && p'.trace == p.trace && p'.program == p.program;
      assert p'.journal == p.journal + [PhaseStarted(k)];
      forall j | PhaseCompleted(j) in p'.journal
        ensures SkewRecorded(p', j)
      {
        SkewSurvives(p, p', j);
      }
      if p'.pc.AwaitingEnd? {
        assert starts.Keys == WorkersOf(p.program, k) && IsSkew(starts, p'.skews[k]);
        assert SkewRecorded(p', k);
      }
    }
  }

  lemma EnterKeeps(p: Proc, e: Entry, k: nat)
    requires BarrierInv(p) && (e == WorkersDisabled || (e.PhaseCompleted? && SkewRecorded(p, e.k)))
    requires k > 0 ==> AllEnded(p.program, k - 1, {}, p.trace)
    ensures BarrierInv(Enter(Note(p, e), k))
  {
    hide Ordered, Everyone, SkewRecorded, IsSkew;
    var p' := Enter(Note(p, e), k);
    forall j | PhaseCompleted(j) in p'.journal
      ensures SkewRecorded(p', j)
    {
      SkewSurvives(p, p', j);
    }
  }

  lemma PhaseBarrierKeeps(p: Proc, ok: bool)
    requires BarrierInv(p) && (p.pc.Preparing? || p.pc.Scheduling?)
    ensures BarrierInv(Journal(p, ok))
  {
    hide Ordered, Everyone, SkewRecorded, StartBarrier;
    FailKeepsBarriers(p);
    var p' := Journal(p, ok);
    if !p'.pc.Failing? {
      forall k | PhaseCompleted(k) in p'.journal
        ensures SkewRecorded(p', k)
      {
        SkewSurvives(p, p', k);
      }
    }
  }

  lemma OuterBarrierKeeps(p: Proc, ok: bool)
    requires BarrierInv(p) && (p.pc.Opening? || p.pc.Finishing? || p.pc.Failing?)
    ensures BarrierInv(Journal(p, ok))
  {
    hide BarrierInv, Everyone, StartBarrier;
    var p' := Journal(p, ok);
    if p' != p { BarrierFrame(p, p'); }
  }

  lemma JournalKeepsBarriers(p: Proc, ok: bool)
    requires JournalInv(p) && BarrierInv(p)
    ensures BarrierInv(Journal(p, ok))
  {
    hide JournalInv, Ordered, SkewRecorded, Everyone, StartBarrier, Enter;
    match p.pc
    case AwaitingStart(_, _, _) => StartBarrierKeeps(p, ok);
    case Preparing(_, _, _) => PhaseBarrierKeeps(p, ok);
    case Scheduling(_, _, _) => PhaseBarrierKeeps(p, ok);
    case Disabling(_, _) =>
      FailKeepsBarriers(p);
      EnterKeeps(p, WorkersDisabled, 0);
    case AwaitingEnd(k, pending) =>
      FailKeepsBarriers(p);
      if pending == {} { EnterKeeps(p, PhaseCompleted(k), k + 1); }
    case Ended =>
    case Released =>
    case _ => OuterBarrierKeeps(p, ok);
  }

  lemma BarriersKeep(p: Proc, a: Action)
    requires JournalInv(p) && BarrierInv(p)
    ensures BarrierInv(Step(p, a))
  {
    hide JournalInv, BarrierInv, Everyone, Journal, Reply;
    match a
    case Journalled(ok) => JournalKeepsBarriers(p, ok);
    case Interrupt => FailKeepsBarriers(p);
    case StopBegan(_) => if StopProgress(p, a) != p { BarrierFrame(p, StopProgress(p, a)); }
    case StopReply(w, ok) => StopKeepsBarriers(p, w, ok);
    case LeaseReleased => if p.pc.Ended? { BarrierFrame(p, Step(p, a)); }
    case _ => ReplyKeepsBarriers(p, a);
  }

  lemma {:induction false} BarriersAlways(p: Proc, actions: seq<Action>)
    requires JournalInv(p) && BarrierInv(p)
    ensures BarrierInv(Execute(p, actions)) && Execute(p, actions).program == p.program
    decreases |actions|
  {
    hide JournalInv, BarrierInv, Step;
    if actions != [] {
      JournalKeeps(p, actions[0]);
      BarriersKeep(p, actions[0]);
      StepKeepsProgram(p, actions[0]);
      BarriersAlways(Step(p, actions[0]), actions[1..]);
    }
  }

  /** The run's own calls respect the barriers: it calls start on no worker before all
      workers of the phase are prepared, and prepares none for the next phase before all
      of this one have completed.  What a start call starts is up to the worker's plan. */
  lemma BarriersHold(program: Program, actions: seq<Action>)
    ensures Ordered(program, Execute(Begin(program), actions).trace)
  {
    hide Execute, Ordered;
    assert Word(|program.phases|)[..0] == [];
    NothingYet(program);
    BarriersAlways(Begin(program), actions);
  }

  lemma NothingYet(program: Program)
    ensures BarrierInv(Begin(program))
  {
  }

  /** A completed phase has a start skew, measured over the times all its workers
      reported, within the root's limit. */
  lemma CompletedPhaseSkew(program: Program, actions: seq<Action>, k: nat)
    requires PhaseCompleted(k) in Execute(Begin(program), actions).journal
    ensures SkewRecorded(Execute(Begin(program), actions), k)
  {
    hide Execute, SkewRecorded;
    assert Word(|program.phases|)[..0] == [];
    NothingYet(program);
    BarriersAlways(Begin(program), actions);
  }
}
