/** When a worker's phases begin and end: over every schedule of calls and wake-ups, no
    sooner than they are due (remote_robot/worker.py, `_execute_phase`). */
module Punctual {
  import opened Wrappers
  import opened Worker
  import opened Deliveries

  /** The worker after the first `n` actions. */
  function At(limit: nat, actions: seq<Action>, n: nat): State
    requires n <= |actions|
  {
    Execute(Initial(limit), actions[..n])
  }

  lemma {:induction false} ExecuteLast(s: State, actions: seq<Action>, a: Action)
    ensures Execute(s, actions + [a]) == Step(Execute(s, actions), a)
    decreases |actions|
  {
    hide Step;
    if actions == [] {
      assert actions + [a] == [a] && [a][1..] == [];
    } else {
      assert (actions + [a])[1..] == actions[1..] + [a];
      ExecuteLast(Step(s, actions[0]), actions[1..], a);
    }
  }

  lemma AtNext(limit: nat, actions: seq<Action>, n: nat)
    requires n < |actions|
    ensures At(limit, actions, n + 1) == Step(At(limit, actions, n), actions[n])
  {
    hide Execute, Step;
    assert actions[..n + 1] == actions[..n] + [actions[n]];
    ExecuteLast(Initial(limit), actions[..n], actions[n]);
  }

  lemma AtEnds(limit: nat, actions: seq<Action>)
    ensures At(limit, actions, 0) == Initial(limit)
    ensures At(limit, actions, |actions|) == Execute(Initial(limit), actions)
  {
    assert actions[..0] == [] && actions[..|actions|] == actions;
  }

  // ---------- what a task is waiting for ----------

  /** Action `k` is an accepted start call with this deadline, and creates this task. */
  predicate StartedBy(limit: nat, actions: seq<Action>, k: nat, task: nat, deadlineUs: int) {
    k < |actions| && actions[k] == DoStart(deadlineUs) && 0 <= deadlineUs &&
    At(limit, actions, k).status.Prepared? && At(limit, actions, k).nextTask == task
  }

  /** Action `m` wakes a waiting task of a scheduled worker, and so begins a phase. */
  predicate Begins(limit: nat, actions: seq<Action>, m: nat, task: nat, atUs: int) {
    m < |actions| && actions[m] == DoWake(task, atUs) && At(limit, actions, m).status.Scheduled? &&
    Due(At(limit, actions, m), task, atUs) && At(limit, actions, m).tasks[task].Waiting?
  }

  /** Some start call before action `n` created this task with this deadline. */
  ghost predicate Created(limit: nat, actions: seq<Action>, n: nat, task: nat, deadlineUs: int) {
    exists k: nat :: k < n && StartedBy(limit, actions, k, task, deadlineUs)
  }

  /** Before action `n` this task began a phase at `startedUs`, and is to end it, by the plan
      of that moment, at `untilUs`. */
  ghost predicate Entered(limit: nat, actions: seq<Action>, n: nat, task: nat, startedUs: int, untilUs: int)
    requires n <= |actions|
  {
    exists m: nat :: m < n && Begins(limit, actions, m, task, startedUs) &&
                     untilUs == startedUs + DurationUs(At(limit, actions, m))
  }

  ghost predicate TasksTimed(limit: nat, actions: seq<Action>, n: nat)
    requires n <= |actions|
  {
    var s := At(limit, actions, n);
    (forall task :: task in s.tasks && s.tasks[task].Waiting? ==>
       Created(limit, actions, n, task, s.tasks[task].deadlineUs)) &&
    (forall task :: task in s.tasks && s.tasks[task].Executing? ==>
       Entered(limit, actions, n, task, s.tasks[task].startedUs, s.tasks[task].untilUs))
  }

  /** What a step does to phase tasks: they stay, begin a phase, or are new. */
  lemma TasksMove(s: State, a: Action, task: nat)
    requires task in Step(s, a).tasks
    ensures var stage := Step(s, a).tasks[task];
            (task in s.tasks && s.tasks[task] == stage) ||
            (stage.Waiting? && a == DoStart(stage.deadlineUs) && 0 <= stage.deadlineUs && s.status.Prepared? &&
             s.nextTask == task) ||
            (stage.Executing? && a == DoWake(task, stage.startedUs) && s.status.Scheduled? &&
             Due(s, task, stage.startedUs) && s.tasks[task].Waiting? &&
             stage.untilUs == stage.startedUs + DurationUs(s))
  {
    hide DurationUs;
  }

  lemma TimedNext(limit: nat, actions: seq<Action>, n: nat)
    requires n < |actions| && TasksTimed(limit, actions, n)
    ensures TasksTimed(limit, actions, n + 1)
  {
    hide Step, At, Due, DurationUs;
    AtNext(limit, actions, n);
    var s, s' := At(limit, actions, n), At(limit, actions, n + 1);
    forall task | task in s'.tasks && s'.tasks[task].Waiting?
      ensures Created(limit, actions, n + 1, task, s'.tasks[task].deadlineUs)
    {
      TasksMove(s, actions[n], task);
      if task in s.tasks && s.tasks[task] == s'.tasks[task] {
        var k: nat :| k < n && StartedBy(limit, actions, k, task, s.tasks[task].deadlineUs);
      } else {
        assert StartedBy(limit, actions, n, task, s'.tasks[task].deadlineUs);
      }
    }
    forall task | task in s'.tasks && s'.tasks[task].Executing?
      ensures Entered(limit, actions, n + 1, task, s'.tasks[task].startedUs, s'.tasks[task].untilUs)
    {
      TasksMove(s, actions[n], task);
      if task in s.tasks && s.tasks[task] == s'.tasks[task] {
        EnteredLasts(limit, actions, n, task, s.tasks[task].startedUs, s.tasks[task].untilUs);
      } else {
        assert Begins(limit, actions, n, task, s'.tasks[task].startedUs);
      }
    }
  }

  lemma EnteredLasts(limit: nat, actions: seq<Action>, n: nat, task: nat, startedUs: int, untilUs: int)
    requires n < |actions| && Entered(limit, actions, n, task, startedUs, untilUs)
    ensures Entered(limit, actions, n + 1, task, startedUs, untilUs)
  {
    hide Begins, At, DurationUs;
  }

  lemma {:induction false} AlwaysTimed(limit: nat, actions: seq<Action>, n: nat)
    requires n <= |actions|
    ensures TasksTimed(limit, actions, n)
    decreases n
  {
    hide At, TasksTimed;
    if n == 0 {
      AtEnds(limit, actions);
      NothingTimed(limit, actions);
    } else {
      AlwaysTimed(limit, actions, n - 1);
      TimedNext(limit, actions, n - 1);
    }
  }

  lemma NothingTimed(limit: nat, actions: seq<Action>)
    requires At(limit, actions, 0) == Initial(limit)
    ensures TasksTimed(limit, actions, 0)
  {
    hide At;
  }

  // ---------- every event belongs to a wake-up ----------

  /** Entry `i` of the final log was emitted by action `z`. */
  lemma {:induction false} EmittedBy(limit: nat, actions: seq<Action>, n: nat, i: nat) returns (z: nat)
    requires n <= |actions| && i < |At(limit, actions, n).log|
    ensures z < n && |At(limit, actions, z).log| == i && |At(limit, actions, z + 1).log| == i + 1
    ensures At(limit, actions, z + 1).log[i] == At(limit, actions, n).log[i]
    decreases n
  {
    hide At, Step;
    if n == 0 {
      AtEnds(limit, actions);
      assert false;
    } else {
      AtNext(limit, actions, n - 1);
      LogMoves(At(limit, actions, n - 1), actions[n - 1]);
      if i < |At(limit, actions, n - 1).log| {
        z := EmittedBy(limit, actions, n - 1, i);
      } else {
        z := n - 1;
      }
    }
  }

  lemma LogMoves(s: State, a: Action)
    ensures s.log <= Step(s, a).log && |Step(s, a).log| <= |s.log| + 1
  {
    hide Step;
    EmissionExactly(s, a);
  }

  /** Every phase a worker reports as started was begun by the wake-up of a task, at the
      reported time, and no sooner than the deadline of the start call that created that
      task: the reported start skew is never negative. */
  lemma NeverEarly(limit: nat, actions: seq<Action>, i: nat) returns (k: nat, m: nat, task: nat, deadlineUs: int)
    requires i < |Execute(Initial(limit), actions).log|
    requires Execute(Initial(limit), actions).log[i].event.kind.PhaseStarted?
    ensures var event := Execute(Initial(limit), actions).log[i].event;
            k < m && StartedBy(limit, actions, k, task, deadlineUs) &&
            Begins(limit, actions, m, task, event.actualStartUs) && |At(limit, actions, m).log| == i &&
            event.identity == IdentityOf(At(limit, actions, m)) && deadlineUs <= event.actualStartUs
  {
    hide At, Step, Execute, IdentityOf;
    AtEnds(limit, actions);
    m := EmittedBy(limit, actions, |actions|, i);
    AtNext(limit, actions, m);
    var s := At(limit, actions, m);
    EmissionExactly(s, actions[m]);
    task := actions[m].task;
    AlwaysTimed(limit, actions, m);
    deadlineUs := s.tasks[task].deadlineUs;
    assert Created(limit, actions, m, task, deadlineUs);
    k :| k < m && StartedBy(limit, actions, k, task, deadlineUs);
  }

  /** Every phase a worker reports as completed was begun by the same task at the reported
      start time, and ended no sooner than the duration of the plan it was begun with. */
  lemma NeverShort(limit: nat, actions: seq<Action>, i: nat) returns (m: nat, z: nat, task: nat, endedUs: int)
    requires i < |Execute(Initial(limit), actions).log|
    requires Execute(Initial(limit), actions).log[i].event.kind.PhaseCompleted?
    ensures var event := Execute(Initial(limit), actions).log[i].event;
            m < z < |actions| && Begins(limit, actions, m, task, event.actualStartUs) &&
            actions[z] == DoWake(task, endedUs) && |At(limit, actions, z).log| == i &&
            task in At(limit, actions, z).tasks && event.identity == IdentityOf(At(limit, actions, z)) &&
            event.actualStartUs + DurationUs(At(limit, actions, m)) <= endedUs
  {
    hide At, Step, Execute, IdentityOf, DurationUs;
    AtEnds(limit, actions);
    z := EmittedBy(limit, actions, |actions|, i);
    AtNext(limit, actions, z);
    var s := At(limit, actions, z);
    EmissionExactly(s, actions[z]);
    task, endedUs := actions[z].task, actions[z].nowUs;
    AlwaysTimed(limit, actions, z);
    assert Entered(limit, actions, z, task, s.tasks[task].startedUs, s.tasks[task].untilUs);
    m :| m < z && Begins(limit, actions, m, task, s.tasks[task].startedUs) &&
         s.tasks[task].untilUs == s.tasks[task].startedUs + DurationUs(At(limit, actions, m));
  }

  // ---------- whose deadline it is ----------

  /** How many stop and close calls have begun and not returned yet. */
  function Stopping(actions: seq<Action>): int {
    if actions == [] then 0
    else
      var before, a := Stopping(actions[..|actions| - 1]), actions[|actions| - 1];
      if a.DoBeginStop? || a.DoBeginClose? then before + 1
      else if a.DoEndStop? || a.DoEndClose? then before - 1
      else before
  }

  /** Only what has begun returns, and no start call is made while a stop or a close waits. */
  predicate Calm(actions: seq<Action>) {
    forall n :: 0 <= n < |actions| ==>
      (actions[n].DoStart? ==> Stopping(actions[..n]) == 0) &&
      (actions[n].DoEndStop? || actions[n].DoEndClose? ==> Stopping(actions[..n]) > 0)
  }

  /** The worker has no live task but the one it refers to, and that one only while a phase
      is under way; none at all while a stop waits. */
  predicate NoOrphan(s: State, stopping: int) {
    0 <= stopping &&
    (forall task :: task in s.tasks ==>
       s.current == Some(task) && task + 1 == s.nextTask && (s.status.Scheduled? || s.status.Running?)) &&
    (stopping > 0 ==> s.tasks == map[])
  }

  lemma NoOrphanNext(s: State, stopping: int, a: Action)
    requires NoOrphan(s, stopping) && (a.DoStart? ==> stopping == 0)
    requires a.DoEndStop? || a.DoEndClose? ==> stopping > 0
    ensures NoOrphan(Step(s, a), if a.DoBeginStop? || a.DoBeginClose? then stopping + 1
                                 else if a.DoEndStop? || a.DoEndClose? then stopping - 1 else stopping)
  {
    hide DurationUs;
    match a
    case DoWake(task, nowUs) => WakeNoOrphan(s, stopping, task, nowUs);
    case _ =>
  }

  lemma WakeNoOrphan(s: State, stopping: int, task: nat, nowUs: int)
    requires NoOrphan(s, stopping)
    ensures NoOrphan(Wake(s, task, nowUs), stopping)
  {
    hide DurationUs;
  }

  lemma {:induction false} CalmHasNoOrphan(limit: nat, actions: seq<Action>, n: nat)
    requires Calm(actions) && n <= |actions|
    ensures NoOrphan(At(limit, actions, n), Stopping(actions[..n]))
    decreases n
  {
    hide At, Step, NoOrphan;
    if n == 0 {
      AtEnds(limit, actions);
      assert NoOrphan(Initial(limit), 0) by { NothingLives(limit); }
    } else {
      CalmHasNoOrphan(limit, actions, n - 1);
      AtNext(limit, actions, n - 1);
      assert actions[..n][..n - 1] == actions[..n - 1];
      NoOrphanNext(At(limit, actions, n - 1), Stopping(actions[..n - 1]), actions[n - 1]);
    }
  }

  lemma NothingLives(limit: nat)
    ensures NoOrphan(Initial(limit), 0)
  {
  }

  /** Task numbers are handed out in order. */
  lemma {:induction false} NumbersGrow(limit: nat, actions: seq<Action>, k: nat, n: nat)
    requires k <= n <= |actions|
    ensures At(limit, actions, k).nextTask <= At(limit, actions, n).nextTask
    decreases n - k
  {
    hide At, Step;
    if k < n {
      AtNext(limit, actions, n - 1);
      NumbersStep(At(limit, actions, n - 1), actions[n - 1]);
      NumbersGrow(limit, actions, k, n - 1);
    }
  }

  lemma NumbersStep(s: State, a: Action)
    ensures Step(s, a).nextTask == s.nextTask + if a.DoStart? && s.status.Prepared? && 0 <= a.deadlineUs then 1 else 0
  {
    hide DurationUs;
  }

  /** When no start call is made while a stop or a close waits, every phase is begun by the
      task of the last start call accepted before it, and so no sooner than that call's
      deadline. */
  lemma CalmStartsOnTime(limit: nat, actions: seq<Action>, m: nat, task: nat, atUs: int)
    returns (k: nat, deadlineUs: int)
    requires Calm(actions) && Begins(limit, actions, m, task, atUs)
    ensures k < m && StartedBy(limit, actions, k, task, deadlineUs) && deadlineUs <= atUs
    ensures forall j: nat, other, d :: k < j < m ==> !StartedBy(limit, actions, j, other, d)
  {
    hide At, Step, NoOrphan, TasksTimed;
    CalmHasNoOrphan(limit, actions, m);
    TheOne(At(limit, actions, m), Stopping(actions[..m]), task);
    AlwaysTimed(limit, actions, m);
    deadlineUs := At(limit, actions, m).tasks[task].deadlineUs;
    assert Created(limit, actions, m, task, deadlineUs) by { ItsStart(limit, actions, m, task); }
    k :| k < m && StartedBy(limit, actions, k, task, deadlineUs);
    forall j: nat, other, d | k < j < m
      ensures !StartedBy(limit, actions, j, other, d)
    {
      if StartedBy(limit, actions, j, other, d) {
        AtNext(limit, actions, k);
        NumbersStep(At(limit, actions, k), actions[k]);
        NumbersGrow(limit, actions, k + 1, j);
        AtNext(limit, actions, j);
        NumbersStep(At(limit, actions, j), actions[j]);
        NumbersGrow(limit, actions, j + 1, m);
      }
    }
  }

  lemma TheOne(s: State, stopping: int, task: nat)
    requires NoOrphan(s, stopping) && task in s.tasks
    ensures task + 1 == s.nextTask
  {
  }

  lemma ItsStart(limit: nat, actions: seq<Action>, m: nat, task: nat)
    requires m <= |actions| && TasksTimed(limit, actions, m)
    requires task in At(limit, actions, m).tasks && At(limit, actions, m).tasks[task].Waiting?
    ensures Created(limit, actions, m, task, At(limit, actions, m).tasks[task].deadlineUs)
  {
    hide At, Created, Entered;
  }

  /** A task was created by one start call only. */
  lemma OneStart(limit: nat, actions: seq<Action>, k: nat, j: nat, task: nat, d: int, e: int)
    requires StartedBy(limit, actions, k, task, d) && StartedBy(limit, actions, j, task, e)
    ensures k == j && d == e
  {
    hide At, Step;
    var first, last := if k < j then k else j, if k < j then j else k;
    AtNext(limit, actions, first);
    NumbersStep(At(limit, actions, first), actions[first]);
    if first < last { NumbersGrow(limit, actions, first + 1, last); }
  }

  /** Whatever the schedule, a phase that is begun before the deadline of the last accepted
      start call is begun by an older task: an orphan, left alive by a stop that returned
      after that task was created. */
  lemma OnlyOrphansStartEarly(limit: nat, actions: seq<Action>, k: nat, last: nat, deadlineUs: int, m: nat, task: nat,
                              atUs: int)
    requires k < m && StartedBy(limit, actions, k, last, deadlineUs) && Begins(limit, actions, m, task, atUs)
    requires forall j: nat, other, d :: k < j < m ==> !StartedBy(limit, actions, j, other, d)
    ensures task <= last && (atUs < deadlineUs ==> task < last)
  {
    hide At, Step, TasksTimed;
    AlwaysTimed(limit, actions, m);
    ItsStart(limit, actions, m, task);
    var d := At(limit, actions, m).tasks[task].deadlineUs;
    var j: nat :| j < m && StartedBy(limit, actions, j, task, d);
    NumbersGrow(limit, actions, j, k);
    if task == last { OneStart(limit, actions, k, j, task, deadlineUs, d); }
  }

  const OVERLAP := [DoDisable, Offer("a"), DoStart(5), DoBeginStop, DoBeginStop, DoEndStop, Offer("b"), DoStart(10),
                    DoEndStop, Offer("c"), DoStart(1000), DoWake(1, 10)]

  function Offer(x: string): Action {
    DoPrepare(Plan(Identity("run", "phase", x), 7))
  }

  /** They do occur: of two overlapping stops the first returns late and leaves a task of
      the second start alive, and that task begins the third phase at time 10, long before
      its deadline of 1000. */
  lemma OverlappingStopsStartEarly()
    ensures Begins(100, OVERLAP, 11, 1, 10) && StartedBy(100, OVERLAP, 10, 2, 1000)
    ensures IdentityOf(At(100, OVERLAP, 11)) == Identity("run", "phase", "c")
  {
    hide At, Step;
    TwoStops();
    var s := At(100, OVERLAP, 8);
    assert OVERLAP[8..] == [DoEndStop, Offer("c"), DoStart(1000), DoWake(1, 10)];
    AtNext(100, OVERLAP, 8);
    AtNext(100, OVERLAP, 9);
    AtNext(100, OVERLAP, 10);
    LateReturn(s);
  }

  predicate Early(s: State) {
    s.limit == 100 && |s.queue| <= 4 && s.status.Scheduled? && s.nextTask == 2 && s.tasks == map[1 := Waiting(10)]
  }

  lemma TwoStops()
    ensures Early(At(100, OVERLAP, 8))
  {
    hide At, Step;
    AtEnds(100, OVERLAP);
    AtNext(100, OVERLAP, 0);
    AtNext(100, OVERLAP, 1);
    AtNext(100, OVERLAP, 2);
    AtNext(100, OVERLAP, 3);
    AtNext(100, OVERLAP, 4);
    AtNext(100, OVERLAP, 5);
    AtNext(100, OVERLAP, 6);
    AtNext(100, OVERLAP, 7);
    StartAndStop();
  }

  lemma StartAndStop()
    ensures var s3 := Step(Step(Step(Initial(100), DoDisable), Offer("a")), DoStart(5));
            var s6 := Step(Step(Step(s3, DoBeginStop), DoBeginStop), DoEndStop);
            Early(Step(Step(s6, Offer("b")), DoStart(10)))
  {
    var s1 := Step(Initial(100), DoDisable);
    assert s1.status.Disabled? && |s1.queue| == 1 && s1.limit == 100 && s1.nextTask == 0 && s1.tasks == map[];
    var s2 := Step(s1, Offer("a"));
    assert s2.status.Prepared? && |s2.queue| == 2 && s2.limit == 100 && s2.nextTask == 0 && s2.tasks == map[];
    var s3 := Step(s2, DoStart(5));
    assert s3.current == Some(0) && s3.tasks == map[0 := Waiting(5)];
    var s4 := Step(s3, DoBeginStop);
    assert s4.tasks == map[] && s4.current.None?;
    var s6 := Step(Step(s4, DoBeginStop), DoEndStop);
    assert s6.status.Stopped? && s6.tasks == map[] && s6.nextTask == 1 && |s6.queue| == 3;
  }

  lemma LateReturn(s: State)
    requires Early(s)
    ensures var s9 := Step(s, DoEndStop);
            var s10 := Step(s9, Offer("c"));
            var s11 := Step(s10, DoStart(1000));
            s10.status.Prepared? && s10.nextTask == 2 && s11.status.Scheduled? && Due(s11, 1, 10) &&
            s11.tasks[1].Waiting? && IdentityOf(s11) == Identity("run", "phase", "c")
  {
    var s9 := Step(s, DoEndStop);
    assert s9.status.Stopped? && s9.tasks == s.tasks && |s9.queue| <= 5;
    var s10 := Step(s9, Offer("c"));
    assert s10.status.Prepared? && s10.tasks == s.tasks;
  }

  // ---------- one plan from start to end ----------

  /** A live task has been alive ever since its start call. */
  lemma {:induction false} LivesSince(limit: nat, actions: seq<Action>, k: nat, j: nat, n: nat, task: nat, d: int)
    requires StartedBy(limit, actions, k, task, d) && k < j <= n <= |actions| && task in At(limit, actions, n).tasks
    ensures task in At(limit, actions, j).tasks
    decreases n - j
  {
    hide At, Step;
    if j < n {
      AtNext(limit, actions, n - 1);
      TasksMove(At(limit, actions, n - 1), actions[n - 1], task);
      AtNext(limit, actions, k);
      NumbersStep(At(limit, actions, k), actions[k]);
      NumbersGrow(limit, actions, k + 1, n - 1);
      LivesSince(limit, actions, k, j, n - 1, task, d);
    }
  }

  lemma PlanStays(s: State, a: Action)
    requires (s.status.Prepared? && a.DoStart?) || s.status.Scheduled? || s.status.Running?
    ensures Step(s, a).plan == s.plan
  {
    hide DurationUs;
  }

  lemma LiveIsActive(s: State, stopping: int, task: nat)
    requires NoOrphan(s, stopping) && task in s.tasks
    ensures s.status.Scheduled? || s.status.Running?
  {
  }

  /** In a calm schedule the worker keeps its plan as long as a phase task lives that was
      started with it. */
  lemma {:induction false} CalmKeepsPlan(limit: nat, actions: seq<Action>, k: nat, n: nat, task: nat, d: int)
    requires Calm(actions) && StartedBy(limit, actions, k, task, d) && k < n <= |actions|
    requires task in At(limit, actions, n).tasks
    ensures At(limit, actions, n).plan == At(limit, actions, k).plan
    decreases n
  {
    hide At, Step, NoOrphan;
    AtNext(limit, actions, n - 1);
    if k < n - 1 {
      LivesSince(limit, actions, k, n - 1, n, task, d);
      CalmHasNoOrphan(limit, actions, n - 1);
      LiveIsActive(At(limit, actions, n - 1), Stopping(actions[..n - 1]), task);
      CalmKeepsPlan(limit, actions, k, n - 1, task, d);
    }
    PlanStays(At(limit, actions, n - 1), actions[n - 1]);
  }

  /** In a calm schedule every phase reported as completed was begun under the identity and
      the plan it is completed under, and lasted at least that plan's duration. */
  lemma CalmLastsLongEnough(limit: nat, actions: seq<Action>, i: nat) returns (m: nat, z: nat, task: nat, endedUs: int)
    requires Calm(actions) && i < |Execute(Initial(limit), actions).log|
    requires Execute(Initial(limit), actions).log[i].event.kind.PhaseCompleted?
    ensures var event := Execute(Initial(limit), actions).log[i].event;
            m < z < |actions| && Begins(limit, actions, m, task, event.actualStartUs) &&
            actions[z] == DoWake(task, endedUs) && |At(limit, actions, z).log| == i &&
            At(limit, actions, m).plan == At(limit, actions, z).plan &&
            event.identity == IdentityOf(At(limit, actions, m)) &&
            event.actualStartUs + DurationUs(At(limit, actions, m)) <= endedUs
  {
    hide At, Step, Execute, DurationUs, TasksTimed;
    m, z, task, endedUs := NeverShort(limit, actions, i);
    AtEnds(limit, actions);
    AlwaysTimed(limit, actions, m);
    ItsStart(limit, actions, m, task);
    var d := At(limit, actions, m).tasks[task].deadlineUs;
    var k: nat :| k < m && StartedBy(limit, actions, k, task, d);
    CalmKeepsPlan(limit, actions, k, m, task, d);
    CalmKeepsPlan(limit, actions, k, z, task, d);
  }

  /** In every schedule a plan that the worker holds names its run, its phase and its
      execution, and does not last less than no time. */
  lemma {:induction false} PlansAreProper(s: State, actions: seq<Action>)
    requires ProperPlan(s)
    ensures ProperPlan(Execute(s, actions))
    decreases |actions|
  {
    hide Step, ProperPlan;
    if actions != [] {
      ProperStep(s, actions[0]);
      PlansAreProper(Step(s, actions[0]), actions[1..]);
    }
  }

  predicate ProperPlan(s: State) {
    s.plan.Some? ==>
      var Plan(identity, durationUs) := s.plan.value;
      identity.runId != "" && identity.phaseId != "" && identity.executionId != "" && 0 <= durationUs
  }

  lemma ProperStep(s: State, a: Action)
    requires ProperPlan(s)
    ensures ProperPlan(Step(s, a))
  {
    hide DurationUs;
  }

  predicate CurrentLives(s: State) {
    s.current.Some? ==> s.current.value in s.tasks
  }

  lemma CurrentStep(s: State, a: Action)
    requires CurrentLives(s)
    ensures CurrentLives(Step(s, a))
  {
    hide DurationUs;
  }

  /** In every schedule a phase task that the worker refers to is alive: one that is over
      is forgotten. */
  lemma {:induction false} CurrentIsLive(s: State, actions: seq<Action>)
    requires CurrentLives(s)
    ensures CurrentLives(Execute(s, actions))
    decreases |actions|
  {
    hide Step, CurrentLives;
    if actions != [] {
      CurrentStep(s, actions[0]);
      CurrentIsLive(Step(s, actions[0]), actions[1..]);
    }
  }
}
