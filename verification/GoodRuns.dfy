/** A run whose workers all answer and report in time goes through every phase and completes
    (remote_robot/orchestrator.py, `_execute_leased`). */
module GoodRuns {
  import opened Wrappers
  import opened Orchestrator

  lemma {:induction false} Then(p: Proc, xs: seq<Action>, ys: seq<Action>)
    ensures Execute(p, xs + ys) == Execute(Execute(p, xs), ys)
    decreases |xs|
  {
    hide Step;
    if xs == [] {
      assert xs + ys == ys;
    } else {
      assert (xs + ys)[1..] == xs[1..] + ys;
      Then(Step(p, xs[0]), xs[1..], ys);
    }
  }

  lemma One(p: Proc, a: Action)
    ensures Execute(p, [a]) == Step(p, a)
  {
    hide Step;
    assert [a][1..] == [];
  }

  /** Two histories in a row. */
  lemma Both(p: Proc, xs: seq<Action>, q: Proc, a: Action, ys: seq<Action>) returns (actions: seq<Action>)
    requires q == Execute(p, xs)
    ensures Execute(p, actions) == Execute(Step(q, a), ys)
  {
    hide Step, Execute;
    One(q, a);
    Then(q, [a], ys);
    Then(p, xs, [a] + ys);
    actions := xs + ([a] + ys);
  }

  // ---------- all workers answer ----------

  /** The place has the given pending workers; everything else about it is unchanged. */
  function AtPlace(pc: Pc, pending: set<string>): Pc {
    match pc
    case Disabling(_, _) => Disabling(pending, false)
    case Preparing(k, _, _) => Preparing(k, pending, false)
    case Scheduling(k, _, _) => Scheduling(k, pending, false)
    case AwaitingEnd(k, _) => AwaitingEnd(k, pending)
    case _ => pc
  }

  function GoodReply(pc: Pc, w: string): Action {
    match pc
    case Disabling(_, _) => DisableReply(w, true)
    case Preparing(_, _, _) => PrepareReply(w, true)
    case Scheduling(_, _, _) => StartReply(w, true)
    case _ => EndEvent(w)
  }

  predicate Collecting(pc: Pc) {
    (pc.Disabling? && !pc.failed) || (pc.Preparing? && !pc.failed) || (pc.Scheduling? && !pc.failed) || pc.AwaitingEnd?
  }

  predicate SameRun(p: Proc, q: Proc) {
    q.program == p.program && q.journal == p.journal && q.skews == p.skews
  }

  lemma {:induction false} AllAnswer(p: Proc) returns (actions: seq<Action>)
    requires Collecting(p.pc)
    ensures var q := Execute(p, actions); q.pc == AtPlace(p.pc, {}) && SameRun(p, q)
    decreases p.pc.pending
  {
    hide Everyone;
    actions := [];
    if p.pc.pending != {} {
      var w :| w in p.pc.pending;
      var a := GoodReply(p.pc, w);
      var rest := AllAnswer(Step(p, a));
      One(p, a);
      Then(p, [a], rest);
      actions := [a] + rest;
    } else {
      assert p.pc == AtPlace(p.pc, {});
    }
  }

  /** Every pending worker reports that it started, all at the same time. */
  lemma {:induction false} AllStart(p: Proc) returns (actions: seq<Action>)
    requires p.pc.AwaitingStart? && forall w :: w in p.pc.starts ==> p.pc.starts[w] == 0
    ensures var q := Execute(p, actions);
            SameRun(p, q) && q.pc.AwaitingStart? && q.pc.k == p.pc.k && q.pc.pending == {} &&
            q.pc.starts.Keys == p.pc.starts.Keys + p.pc.pending && forall w :: w in q.pc.starts ==> q.pc.starts[w] == 0
    decreases p.pc.pending
  {
    hide Everyone;
    actions := [];
    if p.pc.pending != {} {
      var w :| w in p.pc.pending;
      var rest := AllStart(Step(p, StartEvent(w, 0)));
      One(p, StartEvent(w, 0));
      Then(p, [StartEvent(w, 0)], rest);
      actions := [StartEvent(w, 0)] + rest;
    }
  }

  lemma StopsOne(p: Proc, w: string)
    requires p.pc.Finishing? && !p.pc.failed && p.pc.stopping == {} && w in p.pc.pending
    ensures var q := Step(Step(p, StopBegan(w)), StopReply(w, true));
            SameRun(p, q) && q.pc == Finishing(p.pc.pending - {w}, {}, false)
  {
    hide Everyone;
    assert {} + {w} == {w} && {w} - {w} == {};
  }

  lemma {:induction false} AllStop(p: Proc) returns (actions: seq<Action>)
    requires p.pc.Finishing? && !p.pc.failed && p.pc.stopping == {}
    ensures var q := Execute(p, actions); SameRun(p, q) && q.pc == Finishing({}, {}, false)
    decreases p.pc.pending
  {
    hide Step;
    actions := [];
    if p.pc.pending != {} {
      var w :| w in p.pc.pending;
      StopsOne(p, w);
      var q := Step(p, StopBegan(w));
      var rest := AllStop(Step(q, StopReply(w, true)));
      One(p, StopBegan(w));
      actions := Both(p, [StopBegan(w)], q, StopReply(w, true), rest);
    }
  }

  // ---------- one phase, all phases ----------

  /** Nobody is left out and no limit is absurd. */
  predicate Sound(program: Program) {
    (forall k :: 0 <= k < |program.phases| ==> program.phases[k].workers != map[]) &&
    (program.maxSkewUs.Some? ==> 0 < program.maxSkewUs.value)
  }

  lemma ZeroSkew(starts: map<string, int>)
    requires starts != map[] && forall w :: w in starts ==> starts[w] == 0
    ensures SkewOf(starts) == 0
  {
  }

  lemma StartsPass(p: Proc)
    requires p.pc.AwaitingStart? && p.pc.pending == {} && p.pc.starts != map[] && Sound(p.program)
    requires forall w :: w in p.pc.starts ==> p.pc.starts[w] == 0
    ensures var q := Step(p, Journalled(true));
            q.program == p.program && q.journal == p.journal + [PhaseStarted(p.pc.k)] &&
            q.pc == AwaitingEnd(p.pc.k, WorkersOf(p.program, p.pc.k))
  {
    hide Everyone, SkewOf;
    ZeroSkew(p.pc.starts);
  }

  function PhaseEntries(k: nat): seq<Entry> {
    [PhasePrepared(k), PhaseScheduled(k), PhaseStarted(k), PhaseCompleted(k)]
  }

  /** From preparing to starting. */
  lemma FirstHalf(p: Proc) returns (actions: seq<Action>)
    requires p.pc.Preparing? && !p.pc.failed && Sound(p.program) && p.pc.k < |p.program.phases|
    ensures var q := Execute(p, actions);
            q.program == p.program && q.journal == p.journal + [PhasePrepared(p.pc.k), PhaseScheduled(p.pc.k)] &&
            q.pc == AwaitingStart(p.pc.k, WorkersOf(p.program, p.pc.k), map[])
  {
    hide Execute, Everyone, Reply;
    var k := p.pc.k;
    var prepared := AllAnswer(p);
    var p1 := Execute(p, prepared);
    var p2 := Step(p1, Journalled(true));
    assert p2.pc == Scheduling(k, WorkersOf(p.program, k), false) && p2.journal == p.journal + [PhasePrepared(k)];
    var scheduled := AllAnswer(p2);
    var p3 := Execute(p2, scheduled);
    var upTo := Both(p, prepared, p1, Journalled(true), scheduled);
    One(p3, Journalled(true));
    Then(p, upTo, [Journalled(true)]);
    actions := upTo + [Journalled(true)];
    assert p.journal + [PhasePrepared(k)] + [PhaseScheduled(k)] == p.journal + [PhasePrepared(k), PhaseScheduled(k)];
  }

  /** From starting to the next phase, or to the final stop. */
  lemma SecondHalf(p: Proc) returns (actions: seq<Action>)
    requires p.pc.AwaitingStart? && Sound(p.program) && p.pc.k < |p.program.phases|
    requires p.pc == AwaitingStart(p.pc.k, WorkersOf(p.program, p.pc.k), map[])
    ensures var q := Execute(p, actions);
            q.program == p.program && q.journal == p.journal + [PhaseStarted(p.pc.k), PhaseCompleted(p.pc.k)] &&
            q.pc == (if p.pc.k + 1 < |p.program.phases|
                     then Preparing(p.pc.k + 1, WorkersOf(p.program, p.pc.k + 1), false)
                     else Finishing(Everyone(p.program), {}, false))
  {
    hide Execute, Everyone, Reply;
    var k := p.pc.k;
    var started := AllStart(p);
    var p1 := Execute(p, started);
    assert p1.pc.starts.Keys == p.program.phases[k].workers.Keys;
    assert p1.pc.starts != map[] by {
      var w :| w in p.program.phases[k].workers;
      assert w in p1.pc.starts.Keys;
    }
    StartsPass(p1);
    var p2 := Step(p1, Journalled(true));
    var ended := AllAnswer(p2);
    var p3 := Execute(p2, ended);
    var upTo := Both(p, started, p1, Journalled(true), ended);
    One(p3, Journalled(true));
    Then(p, upTo, [Journalled(true)]);
    actions := upTo + [Journalled(true)];
    assert p.journal + [PhaseStarted(k)] + [PhaseCompleted(k)] == p.journal + [PhaseStarted(k), PhaseCompleted(k)];
  }

  function Remaining(k: nat, n: nat): seq<Entry>
    requires k <= n
    decreases n - k
  {
    if k == n then [] else PhaseEntries(k) + Remaining(k + 1, n)
  }

  lemma {:induction false} AllPhases(p: Proc) returns (actions: seq<Action>)
    requires Sound(p.program) && p.pc.Preparing? && p.pc.k < |p.program.phases|
    requires p.pc == Preparing(p.pc.k, WorkersOf(p.program, p.pc.k), false)
    ensures var q := Execute(p, actions);
            q.program == p.program && q.journal == p.journal + Remaining(p.pc.k, |p.program.phases|) &&
            q.pc == Finishing(Everyone(p.program), {}, false)
    decreases |p.program.phases| - p.pc.k
  {
    hide Execute, Everyone, Step;
    var k, n := p.pc.k, |p.program.phases|;
    var first := FirstHalf(p);
    var second := SecondHalf(Execute(p, first));
    Then(p, first, second);
    actions := first + second;
    var q := Execute(p, actions);
    assert q.journal == p.journal + PhaseEntries(k);
    if k + 1 < n {
      var rest := AllPhases(q);
      Then(p, actions, rest);
      actions := actions + rest;
      assert p.journal + PhaseEntries(k) + Remaining(k + 1, n) == p.journal + Remaining(k, n);
    } else {
      assert Remaining(k + 1, n) == [];
      assert PhaseEntries(k) + [] == PhaseEntries(k);
    }
  }

  lemma Opens(program: Program) returns (actions: seq<Action>)
    requires Sound(program) && program.phases != []
    ensures var q := Execute(Begin(program), actions);
            q.program == program && q.journal == [RunOpened, WorkersDisabled] &&
            q.pc == Preparing(0, WorkersOf(program, 0), false)
  {
    hide Execute, Everyone, Reply;
    var p := Begin(program);
    var p1 := Step(p, Journalled(true));
    assert p1.pc == Disabling(Everyone(program), false) && p1.journal == [RunOpened];
    var disabled := AllAnswer(p1);
    var p2 := Execute(p1, disabled);
    One(p, Journalled(true));
    One(p2, Journalled(true));
    Then(p, [Journalled(true)], disabled);
    Then(p, [Journalled(true)] + disabled, [Journalled(true)]);
    actions := [Journalled(true)] + disabled + [Journalled(true)];
    assert [RunOpened] + [WorkersDisabled] == [RunOpened, WorkersDisabled];
  }

  lemma Closes(p: Proc) returns (actions: seq<Action>)
    requires p.pc.Finishing? && !p.pc.failed && p.pc.stopping == {}
    ensures var q := Execute(p, actions); q.pc.Released? && q.journal == p.journal + [RunCompleted]
  {
    hide Execute, Everyone, StopProgress;
    var stopped := AllStop(p);
    var p1 := Execute(p, stopped);
    var p2 := Step(p1, Journalled(true));
    One(p1, Journalled(true));
    One(p2, LeaseReleased);
    Then(p, stopped, [Journalled(true)]);
    Then(p, stopped + [Journalled(true)], [LeaseReleased]);
    actions := stopped + [Journalled(true)] + [LeaseReleased];
  }

  /** For every program with at least one phase there is a history in which the run goes
      through all its phases in order, stops its workers, completes and lets go of its
      lease. */
  lemma GoodRunCompletes(program: Program) returns (actions: seq<Action>)
    requires Sound(program) && program.phases != []
    ensures var q := Execute(Begin(program), actions);
            q.pc.Released? &&
            q.journal == [RunOpened, WorkersDisabled] + Remaining(0, |program.phases|) + [RunCompleted]
  {
    hide Execute, Everyone, Remaining;
    var p := Begin(program);
    var opened' := Opens(program);
    var p1 := Execute(p, opened');
    var phases := AllPhases(p1);
    var closed := Closes(Execute(p1, phases));
    Then(p, opened', phases);
    Then(p, opened' + phases, closed);
    actions := opened' + phases + closed;
  }
}
