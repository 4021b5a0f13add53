/** A v1 run that nothing goes wrong with does what its program says, to the end
    (robot_server.py, `_execute`). */
module RunProgress {
  import opened Wrappers
  import opened Protocol
  import opened Motion
  import opened RunModel
  import opened RunSafety
  import opened RunGuarantees
  import opened RunHistory
  import opened RunCauses

  // ---------- arming ----------

  /** The arm is found where the program can be started from. */
  predicate GoodStart(c: Config, points: seq<Point>, q: Pose) {
    if c.header.mode.AbsoluteDeg? then !FarFromStart(c, q, points) else !SomeOutside(c, q, points)
  }

  function ArmActions(q: Pose, s: int): seq<Action> {
    [Start] + ([Open(Opened.Pose(q))] + ([Check] + ([StopGate] + ([Enable(true, true)] + ([EnterRunning(s)] + [])))))
  }

  /** What stays the same while a run arms and runs. */
  predicate SameProgram(r: Run, r': Run) {
    r'.points == r.points && r'.receipts == r.receipts && r'.expectedSeq == r.expectedSeq &&
    r'.finalReceived == r.finalReceived && r'.stop == r.stop
  }

  /** A loaded run that is started, finds the arm in a good place and is not stopped enters
      its loop with torque on and nothing sent. */
  lemma Arms(c: Config, r: Run, q: Pose, s: int)
    requires Inv(c, r) && r.state.Buffering? && r.finalReceived && !r.stop && r.clockUs <= s &&
             GoodStart(c, r.points, q)
    ensures var r' := Execute(c, r, ArmActions(q, s));
            r'.exec == Top(s, 0, 0) && r'.state.Running? && r'.torque && r'.origin == Some(q) && r'.clockUs == s &&
            r'.sent == [] && r'.cursorUs == 0 && SameProgram(r, r')
  {
    hide Inv, Execute, StartPoseOk, AllResolvedOk, FarFromStart, SomeOutside;
    LoadedRun(c, r);
    StartChecks(c, q, r.points);
    var r1 := Step(c, r, Start);
    assert r1 == r.(state := Arming, exec := Opening);
    var r2 := Step(c, r1, Open(Opened.Pose(q)));
    var r3 := Step(c, r2, Check);
    assert r3 == r2.(exec := AtStopGate);
    var r4 := Step(c, r3, StopGate);
    var r5 := Step(c, r4, Enable(true, true));
    var r6 := Step(c, r5, EnterRunning(s));
    var rest := [Check] + ([StopGate] + ([Enable(true, true)] + ([EnterRunning(s)] + [])));
    FirstStep(c, r, Start, [Open(Opened.Pose(q))] + rest);
    FirstStep(c, r1, Open(Opened.Pose(q)), [Check] + ([StopGate] + ([Enable(true, true)] + ([EnterRunning(s)] + []))));
    FirstStep(c, r2, Check, [StopGate] + ([Enable(true, true)] + ([EnterRunning(s)] + [])));
    FirstStep(c, r3, StopGate, [Enable(true, true)] + ([EnterRunning(s)] + []));
    FirstStep(c, r4, Enable(true, true), [EnterRunning(s)] + []);
    FirstStep(c, r5, EnterRunning(s), []);
    NoSteps(c, r6);
  }

  lemma LoadedRun(c: Config, r: Run)
    requires Inv(c, r) && r.state.Buffering? && r.finalReceived
    ensures 2 <= |r.points| && r.exec.Idle? && r.cursorUs == 0 && r.sent == []
  {
  }

  // ---------- one tick ----------

  /** A tick at clock time `nowUs` with a heartbeat just before it and the reading `m`. */
  datatype Tick = Tick(nowUs: int, m: Pose)

  function TickActions(tick: Tick): seq<Action> {
    [Heartbeat(tick.nowUs)] + ([BeginTick(tick.nowUs)] + ([CheckHeartbeat] + ([TakeSnapshot] +
      ([Send(Some(tick.m), true)] + ([Commit(false)] + [])))))
  }

  /** The pose the program prescribes at a time, from an origin. */
  function Prescribed(c: Config, points: seq<Point>, origin: Pose, tUs: int): Pose
    requires points != []
  {
    if c.header.mode.RelativeDeg? then Shift(origin, PositionAt(points, tUs)) else PositionAt(points, tUs)
  }

  /** The run is between two ticks of the loop entered at `s`. */
  predicate Ready(c: Config, r: Run, s: int, q: Pose) {
    r.exec.Top? && r.exec.startedUs == s && r.exec.violations == 0 && r.state.Running? && !r.stop && r.finalReceived &&
    r.origin == Some(q) && r.points != [] && 0 <= c.heartbeatTimeoutUs
  }

  /** The executor at the point of sending. */
  lemma ToSending(c: Config, r: Run, s: int, q: Pose, nowUs: int)
    requires Ready(c, r, s, q) && r.clockUs <= nowUs
    ensures var r1 := Step(c, r, Heartbeat(nowUs));
            var r2 := Step(c, r1, BeginTick(nowUs));
            var r3 := Step(c, r2, CheckHeartbeat);
            var r4 := Step(c, r3, TakeSnapshot);
            r4 == r.(clockUs := nowUs, lastHeartbeatUs := nowUs,
                     exec := Sending(s, Max(0, nowUs - s), r.points, true, r.exec.segment, 0))
  {
  }

  lemma FiveSteps(c: Config, r: Run, tick: Tick)
    ensures Execute(c, r, TickActions(tick)) ==
            var r2 := Step(c, Step(c, r, Heartbeat(tick.nowUs)), BeginTick(tick.nowUs));
            var r4 := Step(c, Step(c, r2, CheckHeartbeat), TakeSnapshot);
            Step(c, Step(c, r4, Send(Some(tick.m), true)), Commit(false))
  {
    hide Step, Execute;
    var r1 := Step(c, r, Heartbeat(tick.nowUs));
    var r2 := Step(c, r1, BeginTick(tick.nowUs));
    var r3 := Step(c, r2, CheckHeartbeat);
    var r4 := Step(c, r3, TakeSnapshot);
    var r5 := Step(c, r4, Send(Some(tick.m), true));
    var last := [Send(Some(tick.m), true)] + ([Commit(false)] + []);
    FirstStep(c, r, Heartbeat(tick.nowUs), [BeginTick(tick.nowUs)] + ([CheckHeartbeat] + ([TakeSnapshot] + last)));
    FirstStep(c, r1, BeginTick(tick.nowUs), [CheckHeartbeat] + ([TakeSnapshot] + last));
    FirstStep(c, r2, CheckHeartbeat, [TakeSnapshot] + last);
    FirstStep(c, r3, TakeSnapshot, last);
    FirstStep(c, r4, Send(Some(tick.m), true), [Commit(false)] + []);
    FirstStep(c, r5, Commit(false), []);
    NoSteps(c, Step(c, r5, Commit(false)));
  }

  /** Sending an ordinary target whose reading is close enough. */
  lemma SendsOrdinary(c: Config, r: Run, m: Pose)
    requires Inv(c, r) && InTime(r) && !Off(c.policy, Commanded(c, r), m)
    ensures var r' := Step(c, r, Send(Some(m), true));
            r'.exec.Committing? && r'.exec.startedUs == r.exec.startedUs && r'.exec.tickUs == r.exec.tickUs &&
            r'.exec.violations == 0 &&
            r' == r.(sent := r.sent + [Command(r.exec.tickUs, Commanded(c, r))], exec := r'.exec)
  {
    hide Inv, SendStep, Commanded, Off, PositionAt, Interpolate, Resolve, Advance;
    SendIs(c, r, Some(m), true);
    SendSplits(c, r, Some(m), true);
    var segment := Advance(r.exec.snapshot, r.exec.tickUs, r.exec.segment);
    OffIsExceeded(c.policy, Commanded(c, r), m);
    OrdinarySends(c, r, segment, m, Commanded(c, r));
  }

  lemma OrdinarySends(c: Config, r: Run, segment: nat, m: Pose, target: Pose)
    requires r.exec.Sending? && segment + 1 < |r.exec.snapshot| && !Exceeded(c.policy, target, m)
    requires Resolve(c, r.origin, Interpolate(r.exec.snapshot[segment], r.exec.snapshot[segment + 1], r.exec.tickUs)) ==
             Some(target)
    ensures SendInterpolated(c, r, segment, Some(m), true) ==
            r.(sent := r.sent + [Command(r.exec.tickUs, target)],
               exec := Committing(r.exec.startedUs, r.exec.tickUs, segment, 0))
  {
    hide Exceeded, Interpolate, Resolve;
  }

  /** An ordinary tick sends the prescribed pose at the elapsed time, stores that time and
      leaves the run ready for the next tick. */
  lemma OrdinaryTick(c: Config, r: Run, s: int, q: Pose, tick: Tick)
    requires Inv(c, r) && Ready(c, r, s, q) && r.clockUs <= tick.nowUs && Max(0, tick.nowUs - s) <= EndUs(r.points)
    requires !Off(c.policy, Prescribed(c, r.points, q, Max(0, tick.nowUs - s)), tick.m)
    ensures var r' := Execute(c, r, TickActions(tick));
            var t := Max(0, tick.nowUs - s);
            Inv(c, r') && Ready(c, r', s, q) && r'.clockUs == tick.nowUs && r'.cursorUs == t && SameProgram(r, r') &&
            r'.sent == r.sent + [Command(t, Prescribed(c, r.points, q, t))]
  {
    hide Inv, Execute, Step, Off, PositionAt;
    var r4 := r.(clockUs := tick.nowUs, lastHeartbeatUs := tick.nowUs,
                 exec := Sending(s, Max(0, tick.nowUs - s), r.points, true, r.exec.segment, 0));
    ToSending(c, r, s, q, tick.nowUs);
    FiveSteps(c, r, tick);
    StillGood(c, r, tick);
    SendsOrdinary(c, r4, tick.m);
    CommitsOrdinary(c, Step(c, r4, Send(Some(tick.m), true)));
  }

  lemma CommitsOrdinary(c: Config, r: Run)
    requires r.exec.Committing?
    ensures Step(c, r, Commit(false)) ==
            r.(cursorUs := r.exec.tickUs, exec := Top(r.exec.startedUs, r.exec.segment, r.exec.violations))
  {
  }

  lemma StillGood(c: Config, r: Run, tick: Tick)
    requires Inv(c, r)
    ensures var r2 := Step(c, Step(c, r, Heartbeat(tick.nowUs)), BeginTick(tick.nowUs));
            var r4 := Step(c, Step(c, r2, CheckHeartbeat), TakeSnapshot);
            Inv(c, r4) && Inv(c, Execute(c, r, TickActions(tick)))
  {
    hide Inv, Execute, Step;
    var r1 := Step(c, r, Heartbeat(tick.nowUs));
    var r2 := Step(c, r1, BeginTick(tick.nowUs));
    var r3 := Step(c, r2, CheckHeartbeat);
    StepKeeps(c, r, Heartbeat(tick.nowUs));
    StepKeeps(c, r1, BeginTick(tick.nowUs));
    StepKeeps(c, r2, CheckHeartbeat);
    StepKeeps(c, r3, TakeSnapshot);
    ExecuteKeeps(c, r, TickActions(tick));
  }

  // ---------- the last tick ----------

  function EndActions(): seq<Action> {
    [HoldThenClose(true, false)] + ([Finish] + [])
  }

  lemma SendsLast(c: Config, r: Run, m: Pose, q: Pose)
    requires Inv(c, r) && r.exec.Sending? && !InTime(r) && r.exec.final && r.origin == Some(q) &&
             r.exec.snapshot == r.points
    requires r.points != []
    ensures Step(c, r, Send(Some(m), true)) ==
            r.(sent := r.sent + [Command(EndUs(r.points), Prescribed(c, r.points, q, EndUs(r.points)))],
               exec := Finishing(EndUs(r.points)))
  {
    hide Inv, SendStep, PositionAt, Interpolate, Advance;
    SendIs(c, r, Some(m), true);
    SendSplits(c, r, Some(m), true);
    EndPose(c, r);
  }

  lemma EndPose(c: Config, r: Run)
    requires Inv(c, r) && r.points != []
    ensures PositionAt(r.points, EndUs(r.points)) == r.points[|r.points| - 1].q
  {
    hide ReceiptInv, CursorInv, ControlInv, TorqueInv, TickInv, CompletionInv, SentInv;
    PositionAtKnot(c.policy, r.points, |r.points| - 1);
  }

  /** The first tick past the end sends the last point, closes the backend and completes. */
  lemma LastTick(c: Config, r: Run, s: int, q: Pose, tick: Tick)
    requires Inv(c, r) && Ready(c, r, s, q) && r.clockUs <= tick.nowUs && EndUs(r.points) < Max(0, tick.nowUs - s)
    ensures var r' := Execute(c, Execute(c, r, TickActions(tick)), EndActions());
            r'.state.Completed? && !r'.torque && !r'.hot && r'.cursorUs == EndUs(r.points) && SameProgram(r, r') &&
            r'.sent == r.sent + [Command(EndUs(r.points), Prescribed(c, r.points, q, EndUs(r.points)))]
  {
    hide Inv, Execute, Step, PositionAt;
    var r4 := r.(clockUs := tick.nowUs, lastHeartbeatUs := tick.nowUs,
                 exec := Sending(s, Max(0, tick.nowUs - s), r.points, true, r.exec.segment, 0));
    ToSending(c, r, s, q, tick.nowUs);
    FiveSteps(c, r, tick);
    StillGood(c, r, tick);
    SendsLast(c, r4, tick.m, q);
    IsAttached(c, r);
    Completes(c, Step(c, r4, Send(Some(tick.m), true)));
  }

  lemma IsAttached(c: Config, r: Run)
    requires Inv(c, r) && r.exec.Top?
    ensures r.attached
  {
  }

  lemma Completes(c: Config, r: Run)
    requires r.exec.Finishing? && r.attached
    ensures var r' := Execute(c, Step(c, r, Commit(false)), EndActions());
            r' == r.(cursorUs := r.exec.tickUs, attached := false, hot := false, torque := false, state := Completed,
                     exec := Done)
  {
    hide Execute;
    var r1 := Step(c, r, Commit(false));
    FirstStep(c, r1, HoldThenClose(true, false), [Finish] + []);
    FirstStep(c, Step(c, r1, HoldThenClose(true, false)), Finish, []);
    NoSteps(c, Step(c, Step(c, r1, HoldThenClose(true, false)), Finish));
  }

  // ---------- the whole run ----------

  /** Ticks at non-decreasing times inside the program, each reading close to its target. */
  predicate GoodTicks(c: Config, points: seq<Point>, q: Pose, s: int, clockUs: int, ticks: seq<Tick>)
    requires points != []
    decreases |ticks|
  {
    ticks != [] ==>
      clockUs <= ticks[0].nowUs && Max(0, ticks[0].nowUs - s) <= EndUs(points) &&
      !Off(c.policy, Prescribed(c, points, q, Max(0, ticks[0].nowUs - s)), ticks[0].m) &&
      GoodTicks(c, points, q, s, ticks[0].nowUs, ticks[1..])
  }

  /** What is to be sent: the prescribed pose at every tick. */
  function Targets(c: Config, points: seq<Point>, q: Pose, s: int, ticks: seq<Tick>): seq<Command>
    requires points != []
    decreases |ticks|
  {
    if ticks == [] then []
    else
      var t := Max(0, ticks[0].nowUs - s);
      [Command(t, Prescribed(c, points, q, t))] + Targets(c, points, q, s, ticks[1..])
  }

  function LastTime(clockUs: int, ticks: seq<Tick>): int {
    if ticks == [] then clockUs else ticks[|ticks| - 1].nowUs
  }

  function RunTicks(c: Config, r: Run, ticks: seq<Tick>): Run
    decreases |ticks|
  {
    if ticks == [] then r else RunTicks(c, Execute(c, r, TickActions(ticks[0])), ticks[1..])
  }

  lemma {:induction false} TicksProgress(c: Config, r: Run, s: int, q: Pose, ticks: seq<Tick>)
    requires Inv(c, r) && Ready(c, r, s, q) && GoodTicks(c, r.points, q, s, r.clockUs, ticks)
    ensures var r' := RunTicks(c, r, ticks);
            Inv(c, r') && Ready(c, r', s, q) && SameProgram(r, r') && r'.clockUs == LastTime(r.clockUs, ticks) &&
            r'.sent == r.sent + Targets(c, r.points, q, s, ticks)
    decreases |ticks|
  {
    hide Inv, Execute, Off, Prescribed;
    if ticks != [] {
      OrdinaryTick(c, r, s, q, ticks[0]);
      TicksProgress(c, Execute(c, r, TickActions(ticks[0])), s, q, ticks[1..]);
    }
  }

  /** A complete program that is started from a good pose, ticked in time at any instants
      with readings near the targets, and ticked once after its end completes; what it
      sends is exactly the prescribed pose at every tick and the last point. */
  lemma GoodRunCompletes(c: Config, r: Run, q: Pose, s: int, ticks: seq<Tick>, last: Tick)
    requires Inv(c, r) && r.state.Buffering? && r.finalReceived && !r.stop && r.clockUs <= s &&
             GoodStart(c, r.points, q)
    requires 0 <= c.heartbeatTimeoutUs && r.points != [] && GoodTicks(c, r.points, q, s, s, ticks)
    requires LastTime(s, ticks) <= last.nowUs && EndUs(r.points) < Max(0, last.nowUs - s)
    ensures var looped := RunTicks(c, Execute(c, r, ArmActions(q, s)), ticks);
            var r' := Execute(c, Execute(c, looped, TickActions(last)), EndActions());
            r'.state.Completed? && !r'.torque && !r'.hot && r'.cursorUs == EndUs(r.points) && SameProgram(r, r') &&
            r'.sent == Targets(c, r.points, q, s, ticks) +
                       [Command(EndUs(r.points), Prescribed(c, r.points, q, EndUs(r.points)))]
  {
    hide Inv, Execute, Prescribed, GoodStart, GoodTicks, Targets;
    Arms(c, r, q, s);
    var armed := Execute(c, r, ArmActions(q, s));
    ExecuteKeeps(c, r, ArmActions(q, s));
    TicksProgress(c, armed, s, q, ticks);
    LastTick(c, RunTicks(c, armed, ticks), s, q, last);
    assert [] + Targets(c, r.points, q, s, ticks) == Targets(c, r.points, q, s, ticks);
  }
}
