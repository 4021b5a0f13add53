/** Guarantees of a v1 run over every interleaving of network and executor steps. */
module RunGuarantees {
  import opened Wrappers
  import opened Quintic
  import opened Protocol
  import opened Motion
  import opened RunModel
  import opened RunSafety

  // ---------- commanded motion ----------

  /** No interleaving can make the executor command a joint outside its limits. */
  lemma EveryTargetInLimits(c: Config, nowUs: int, actions: seq<Action>, i: nat)
    requires i < |Execute(c, Initial(nowUs), actions).sent|
    ensures InLimits(c.policy, Execute(c, Initial(nowUs), actions).sent[i].q)
  {
    hide Execute, Initial;
    Reachable(c, nowUs, actions);
    var r := Execute(c, Initial(nowUs), actions);
    assert SentOk(c, r.points, r.origin, r.sent[i]);
  }

  /** Any two targets of a run, sent any number of ticks, chunks and segments apart,
      respect the velocity limit. */
  lemma CommandedVelocity(c: Config, nowUs: int, actions: seq<Action>, i: nat, k: nat, j: nat)
    requires i < k < |Execute(c, Initial(nowUs), actions).sent| && j < JOINT_COUNT
    ensures var sent := Execute(c, Initial(nowUs), actions).sent;
            sent[i].tUs <= sent[k].tUs &&
            Abs(sent[k].q[j] - sent[i].q[j]) <= Reach(c.policy.maxVelocity, sent[k].tUs - sent[i].tUs)
  {
    hide Execute, Initial;
    Reachable(c, nowUs, actions);
    var r := Execute(c, Initial(nowUs), actions);
    VelocityOfSent(c, r, i, k, j);
  }

  lemma VelocityOfSent(c: Config, r: Run, i: nat, k: nat, j: nat)
    requires Inv(c, r) && i < k < |r.sent| && j < JOINT_COUNT
    ensures r.sent[i].tUs <= r.sent[k].tUs
    ensures Abs(r.sent[k].q[j] - r.sent[i].q[j]) <= Reach(c.policy.maxVelocity, r.sent[k].tUs - r.sent[i].tUs)
  {
    hide PositionAt, Reach, Trajectory, InLimits, AllResolvedOk, ReceiptInv;
    var a, b := r.sent[i], r.sent[k];
    assert SentOk(c, r.points, r.origin, a) && SentOk(c, r.points, r.origin, b);
    WholeMotionVelocity(c.policy, c.header, r.points, a.tUs, b.tUs, j);
    var p, q := PositionAt(r.points, a.tUs), PositionAt(r.points, b.tUs);
    assert b.q[j] - a.q[j] == q[j] - p[j];
  }

  /** Once cleared, an absolute program starts near the pose measured at the origin. */
  predicate NearStart(c: Config, r: Run) {
    c.header.mode.AbsoluteDeg? && (Cleared(r) || r.sent != []) ==>
      r.origin.Some? && StartPoseOk(c, r.origin.value, r.points)
  }

  /** Neither more cleared than before, nor moved. */
  predicate NoMoreCleared(r: Run, r': Run) {
    r'.points == r.points && r'.origin == r.origin && (Cleared(r') || r'.sent != [] ==> Cleared(r) || r.sent != [])
  }

  /** Nothing but the start check clears a run, and nothing sends before. */
  lemma OnlyCheckClears(c: Config, r: Run, a: Action)
    requires Inv(c, r) && !a.Append? && !a.Open? && !a.Check?
    ensures NoMoreCleared(r, Step(c, r, a))
  {
    hide Inv, NoMoreCleared, StartStep, HeartbeatStep, StopStep, ConnectionLostStep, GateStep, EnableStep,
         EnterRunningStep, BeginTickStep, CheckHeartbeatStep, TakeSnapshotStep, CloseStep, FinishStep, SendStep,
         CommitStep;
    InvParts(c, r);
    match a
    case Send(measured, sendOk) => SendClears(c, r, measured, sendOk);
    case Start => CallClears(c, r, 0);
    case Heartbeat(nowUs) => CallClears(c, r, nowUs);
    case RequestStop => CallClears(c, r, 0);
    case ConnectionLost => CallClears(c, r, 0);
    case StopGate => ArmClears(c, r, true, true, 0);
    case Enable(ok, leftHot) => ArmClears(c, r, ok, leftHot, 0);
    case EnterRunning(nowUs) => ArmClears(c, r, true, true, nowUs);
    case BeginTick(nowUs) => TickClears(c, r, nowUs, true);
    case CheckHeartbeat => TickClears(c, r, 0, true);
    case TakeSnapshot => TickClears(c, r, 0, true);
    case Commit(overrun) => TickClears(c, r, 0, overrun);
    case HoldThenClose(ok, leftHot) => EndClears(c, r, ok, leftHot);
    case Finish => EndClears(c, r, true, true);
  }

  lemma CallClears(c: Config, r: Run, nowUs: int)
    requires ControlInv(c, r)
    ensures NoMoreCleared(r, StartStep(c, r)) && NoMoreCleared(r, HeartbeatStep(r, nowUs))
    ensures NoMoreCleared(r, StopStep(r)) && NoMoreCleared(r, ConnectionLostStep(r))
  {
    hide AllResolvedOk;
  }

  lemma ArmClears(c: Config, r: Run, ok: bool, leftHot: bool, nowUs: int)
    requires ControlInv(c, r)
    ensures NoMoreCleared(r, GateStep(r)) && NoMoreCleared(r, EnableStep(r, ok, leftHot))
    ensures NoMoreCleared(r, EnterRunningStep(r, nowUs))
  {
    hide AllResolvedOk;
  }

  lemma TickClears(c: Config, r: Run, nowUs: int, overrun: bool)
    requires ControlInv(c, r)
    ensures NoMoreCleared(r, BeginTickStep(r, nowUs)) && NoMoreCleared(r, CheckHeartbeatStep(c, r))
    ensures NoMoreCleared(r, TakeSnapshotStep(r)) && NoMoreCleared(r, CommitStep(r, overrun))
  {
    hide AllResolvedOk, HeartbeatLapsed;
  }

  lemma EndClears(c: Config, r: Run, ok: bool, leftHot: bool)
    requires ControlInv(c, r)
    ensures NoMoreCleared(r, CloseStep(r, ok, leftHot)) && NoMoreCleared(r, FinishStep(r))
  {
    hide AllResolvedOk;
  }

  lemma SendClears(c: Config, r: Run, measured: Option<Pose>, sendOk: bool)
    ensures NoMoreCleared(r, SendStep(c, r, measured, sendOk))
  {
    hide SendStep;
    SendIsInside(c, r, measured, sendOk);
  }

  lemma SendIsInside(c: Config, r: Run, measured: Option<Pose>, sendOk: bool)
    ensures var r' := SendStep(c, r, measured, sendOk);
            r' == r || (Moving(r.exec) && r'.points == r.points && r'.origin == r.origin)
  {
    hide SendStep;
  }

  lemma NearStartKeeps(c: Config, r: Run, a: Action)
    requires Inv(c, r) && NearStart(c, r)
    ensures NearStart(c, Step(c, r, a))
  {
    hide Step;
    match a
    case Append(chunkSeq, points, final, digest) => NearStartAppend(c, r, chunkSeq, points, final, digest);
    case Open(bus) => OpenNotCleared(c, r, bus);
    case Check => CheckIsNear(c, r);
    case _ =>
      hide Inv, StartPoseOk, Cleared;
      OnlyCheckClears(c, r, a);
  }

  lemma NearStartAppend(c: Config, r: Run, chunkSeq: int, points: seq<Point>, final: bool, digest: string)
    requires Inv(c, r) && NearStart(c, r)
    ensures NearStart(c, Step(c, r, Append(chunkSeq, points, final, digest)))
  {
    hide BufferInv, ReceiptInv, CursorInv, TorqueInv, TickInv, CompletionInv, SentInv, AllResolvedOk, AppendOutcome;
    AppendEffect(c, r, chunkSeq, points, final, digest);
  }

  lemma OpenNotCleared(c: Config, r: Run, bus: Opened)
    requires Inv(c, r) && NearStart(c, r)
    ensures NearStart(c, Step(c, r, Open(bus)))
  {
    hide BufferInv, ReceiptInv, CursorInv, TorqueInv, TickInv, CompletionInv, SentInv, AllResolvedOk, StartPoseOk;
  }

  lemma CheckIsNear(c: Config, r: Run)
    requires Inv(c, r) && NearStart(c, r)
    ensures NearStart(c, Step(c, r, Check))
  {
    hide BufferInv, ReceiptInv, CursorInv, TorqueInv, TickInv, CompletionInv, SentInv, AllResolvedOk, StartPoseOk;
  }

  lemma {:induction false} AlwaysNearStart(c: Config, r: Run, actions: seq<Action>)
    requires Inv(c, r) && NearStart(c, r)
    ensures NearStart(c, Execute(c, r, actions))
    decreases |actions|
  {
    hide Inv, NearStart, Step;
    if actions != [] {
      NearStartKeeps(c, r, actions[0]);
      StepKeeps(c, r, actions[0]);
      AlwaysNearStart(c, Step(c, r, actions[0]), actions[1..]);
    }
  }

  /** How far a program's first point may lie from the pose the arm is found in. */
  function StartSlack(c: Config): real {
    if c.header.mode.AbsoluteDeg? then c.policy.startTolerance else 0.000000001
  }

  /** Every target, the first one included, lies no further from the measured start pose
      than the start tolerance and the velocity limit allow together. */
  lemma TargetNearStart(c: Config, nowUs: int, actions: seq<Action>, i: nat, j: nat)
    requires i < |Execute(c, Initial(nowUs), actions).sent| && j < JOINT_COUNT
    ensures var r := Execute(c, Initial(nowUs), actions);
            r.origin.Some? &&
            Abs(r.sent[i].q[j] - r.origin.value[j]) <= StartSlack(c) + Reach(c.policy.maxVelocity, r.sent[i].tUs)
  {
    hide Execute, Initial;
    var r := Execute(c, Initial(nowUs), actions);
    Reachable(c, nowUs, actions);
    StartsNear(c, nowUs);
    AlwaysNearStart(c, Initial(nowUs), actions);
    SentNearStart(c, r, i, j);
  }

  lemma StartsNear(c: Config, nowUs: int)
    ensures Inv(c, Initial(nowUs)) && NearStart(c, Initial(nowUs))
  {
    Reachable(c, nowUs, []);
  }

  lemma SentNearStart(c: Config, r: Run, i: nat, j: nat)
    requires Inv(c, r) && NearStart(c, r) && i < |r.sent| && j < JOINT_COUNT
    ensures r.origin.Some?
    ensures Abs(r.sent[i].q[j] - r.origin.value[j]) <= StartSlack(c) + Reach(c.policy.maxVelocity, r.sent[i].tUs)
  {
    hide ReceiptInv, CursorInv, TorqueInv, TickInv, CompletionInv, AllResolvedOk, PositionAt, Reach, SegmentsOk,
         PositionsOk;
    var t := r.sent[i].tUs;
    assert SentOk(c, r.points, r.origin, r.sent[i]);
    PositionAtKnot(c.policy, r.points, 0);
    WholeMotionVelocity(c.policy, c.header, r.points, 0, t, j);
    assert Abs(PositionAt(r.points, t)[j] - r.points[0].q[j]) <= Reach(c.policy.maxVelocity, t);
  }

  // ---------- termination of a run ----------

  /** Terminal states are absorbing: nothing more is sent, the torque flag is off, and the
      motors are as the close left them. */
  lemma {:induction false} TerminalIsFinal(c: Config, r: Run, actions: seq<Action>)
    requires Inv(c, r) && r.state.Terminal()
    ensures var r' := Execute(c, r, actions);
            r'.state == r.state && r'.sent == r.sent && r'.points == r.points && !r'.torque && r'.hot == r.hot
    decreases |actions|
  {
    if actions == [] {
      TerminalIsCold(c, r);
    } else {
      TerminalStep(c, r, actions[0]);
      StepKeeps(c, r, actions[0]);
      TerminalIsFinal(c, Step(c, r, actions[0]), actions[1..]);
    }
  }

  lemma TerminalIsCold(c: Config, r: Run)
    requires Inv(c, r) && r.state.Terminal()
    ensures !r.torque && (r.exec.Idle? || r.exec.Done?) && (r.exec.Idle? ==> !r.hot)
  {
    hide BufferInv, ReceiptInv, CursorInv, SentInv, AllResolvedOk;
  }

  lemma TerminalStep(c: Config, r: Run, a: Action)
    requires Inv(c, r) && r.state.Terminal()
    ensures var r' := Step(c, r, a);
            r'.state == r.state && r'.sent == r.sent && r'.points == r.points && r'.hot == r.hot
  {
    hide Inv;
    TerminalIsCold(c, r);
  }

  /** Targets still allowed once the stop event is set: the tick under way, no other. */
  function StopBudget(r: Run): nat {
    if MidTick(r.exec) then 1 else 0
  }

  lemma StopStepBudget(c: Config, r: Run, a: Action)
    requires r.stop
    ensures var r' := Step(c, r, a);
            r'.stop && r.sent <= r'.sent && |r'.sent| + StopBudget(r') <= |r.sent| + StopBudget(r)
  {
    hide StartStep, HeartbeatStep, StopStep, ConnectionLostStep, OpenStep, CheckStep, GateStep, EnableStep,
         EnterRunningStep, BeginTickStep, CheckHeartbeatStep, TakeSnapshotStep, CloseStep, FinishStep, AppendStep,
         SendStep;
    if a.Append? { AppendEffect(c, r, a.chunkSeq, a.points, a.final, a.digest); }
  }

  lemma AppendEffect(c: Config, r: Run, chunkSeq: int, points: seq<Point>, final: bool, digest: string)
    ensures var r' := AppendStep(c, r, chunkSeq, points, final, digest);
      r'.exec == r.exec && r'.sent == r.sent && r'.stop == r.stop && r'.cursorUs == r.cursorUs &&
      r.points <= r'.points && forall k :: k in r.receipts ==> k in r'.receipts && r'.receipts[k] == r.receipts[k]
  {
    hide AppendOutcome;
  }

  /** After a stop request, a tick begun later sends nothing: at most the tick already
      past its stop check can still send one target. */
  lemma {:induction false} StopHalts(c: Config, r: Run, actions: seq<Action>)
    requires r.stop
    ensures var r' := Execute(c, r, actions);
            r.sent <= r'.sent && |r'.sent| <= |r.sent| + StopBudget(r)
    ensures !MidTick(r.exec) ==> Execute(c, r, actions).sent == r.sent
    decreases |actions|
  {
    hide Step;
    if actions != [] {
      StopStepBudget(c, r, actions[0]);
      StopHalts(c, Step(c, r, actions[0]), actions[1..]);
    }
  }

  /** A run that reports completion received the whole digest-matched program, and the
      last thing it commanded was the program's last point. */
  lemma CompletedMeansWholeProgram(c: Config, nowUs: int, actions: seq<Action>)
    requires Execute(c, Initial(nowUs), actions).state.Completed?
    ensures var r := Execute(c, Initial(nowUs), actions);
            r.finalReceived && 2 <= |r.points| &&
            c.digests.program(c.header, r.points) == c.expectedDigest &&
            ProgramOk(c.policy, c.header, r.points, true) &&
            r.cursorUs == EndUs(r.points) && r.sent != [] &&
            Some(r.sent[|r.sent| - 1].q) == Resolve(c, r.origin, r.points[|r.points| - 1].q)
  {
    hide Execute, Initial;
    Reachable(c, nowUs, actions);
    var r := Execute(c, Initial(nowUs), actions);
    PositionAtKnot(c.policy, r.points, |r.points| - 1);
    assert SentOk(c, r.points, r.origin, r.sent[|r.sent| - 1]);
  }

  /** A tick reports BUFFER_UNDERRUN exactly when its time is past the last point of a
      buffer that was not final when the tick looked at it. */
  lemma UnderrunExactly(c: Config, r: Run, measured: Option<Pose>, sendOk: bool)
    requires Inv(c, r) && r.exec.Sending?
    ensures SendStep(c, r, measured, sendOk).exec == Closing(Faulted, Some(BufferUnderrun))
       <==> EndUs(r.exec.snapshot) < r.exec.tickUs && !r.exec.final
  {
    hide Inv, BufferInv, ControlInv, CursorInv, ReceiptInv, SentInv, SendInterpolated, SendLast;
    InvParts(c, r);
    CursorIsNonNegative(c, r.points, r.cursorUs);
    TickSegment(c, r);
  }

  // ---------- a backend that cannot be closed ----------

  /** The executor dies exactly in a close that raises while a backend is attached. */
  lemma CrashExactly(c: Config, r: Run, a: Action)
    requires !r.exec.Crashed?
    ensures Step(c, r, a).exec.Crashed? <==> r.exec.Closing? && r.attached && a.HoldThenClose? && !a.ok
  {
    hide AppendStep, SendStep, CheckStep, StartVerdict, HeartbeatLapsed;
    match a
    case Append(chunkSeq, points, final, digest) => AppendEffect(c, r, chunkSeq, points, final, digest);
    case Send(measured, sendOk) => SendNeverCrashes(c, r, measured, sendOk);
    case Check => CheckNeverCrashes(c, r);
    case _ =>
  }

  lemma SendNeverCrashes(c: Config, r: Run, measured: Option<Pose>, sendOk: bool)
    requires !r.exec.Crashed?
    ensures !SendStep(c, r, measured, sendOk).exec.Crashed?
  {
    hide SendStep;
  }

  lemma CheckNeverCrashes(c: Config, r: Run)
    requires !r.exec.Crashed?
    ensures !CheckStep(c, r).exec.Crashed?
  {
    hide StartPoseOk, AllResolvedOk;
  }

  lemma CrashedStep(c: Config, r: Run, a: Action)
    requires Inv(c, r) && r.exec.Crashed?
    ensures Step(c, r, a).exec.Crashed? && Step(c, r, a).sent == r.sent && Step(c, r, a).state == r.state
  {
    hide Inv, AppendOutcome;
    CrashedIsLive(c, r);
  }

  /** From then on nothing brings the run to an end: no call, no stop and no disconnect
      makes its state terminal, although nothing is sent any more. */
  lemma {:induction false} CrashIsForever(c: Config, r: Run, actions: seq<Action>)
    requires Inv(c, r) && r.exec.Crashed?
    ensures var r' := Execute(c, r, actions);
            r'.exec.Crashed? && !r'.state.Terminal() && r'.state == r.state && r'.sent == r.sent
    decreases |actions|
  {
    hide Inv, Step;
    if actions == [] {
      CrashedIsLive(c, r);
    } else {
      CrashedStep(c, r, actions[0]);
      StepKeeps(c, r, actions[0]);
      CrashIsForever(c, Step(c, r, actions[0]), actions[1..]);
    }
  }

  lemma CrashedIsLive(c: Config, r: Run)
    requires Inv(c, r) && r.exec.Crashed?
    ensures r.state.Arming? || r.state.Running?
  {
    hide BufferInv, ReceiptInv, CursorInv, TorqueInv, TickInv, CompletionInv, SentInv;
  }

  /** Two points at rest, `endUs` apart. */
  function AtRest(endUs: int): seq<Point> {
    [Point(0, ZERO), Point(endUs, ZERO)]
  }

  lemma RestIsAdmissible(c: Config, endUs: int)
    requires c.policy == DEFAULT_POLICY && c.header.mode.AbsoluteDeg? && DEFAULT_POLICY.minSegmentUs <= endUs
    ensures ScanVerdict(c, None, None, AtRest(endUs)).Pass?
  {
    var points := AtRest(endUs);
    var p, q := points[0], points[1];
    assert forall j :: 0 <= j < JOINT_COUNT ==> JointRatesOk(c.policy, p, q, j);
    assert PointVerdict(c, None, None, p).Pass? && PointVerdict(c, None, Some(p), q).Pass?;
    assert points[1..] == [q] && points[1..][1..] == [];
    assert ScanVerdict(c, None, Some(p), [q]).Pass?;
  }

  function RestUpload(c: Config): Action {
    Append(0, AtRest(1000000), true, c.digests.chunk(0, AtRest(1000000), true))
  }

  /** A fresh sealed run takes the two points at rest as its whole program. */
  lemma RestIsTaken(c: Config, nowUs: int)
    requires c.policy == DEFAULT_POLICY && c.header.mode.AbsoluteDeg? && c.runMode.Sealed?
    requires c.digests.program(c.header, AtRest(1000000)) == c.expectedDigest
    ensures var r := Step(c, Initial(nowUs), RestUpload(c));
            r.points == AtRest(1000000) && r.finalReceived && r == Initial(nowUs).(
              points := r.points, finalReceived := true, receipts := r.receipts, expectedSeq := r.expectedSeq)
  {
    hide ScanVerdict;
    RestIsAdmissible(c, 1000000);
    assert [] + AtRest(1000000) == AtRest(1000000);
    assert AdmitVerdict(c, Initial(nowUs), 0, AtRest(1000000), true).Pass?;
  }

  lemma FirstStep(c: Config, r: Run, a: Action, rest: seq<Action>)
    ensures Execute(c, r, [a] + rest) == Execute(c, Step(c, r, a), rest)
  {
    assert ([a] + rest)[1..] == rest;
  }

  /** With a backend whose close raises, the dead end is real: upload, start, a bus that
      returns no pose, and that close.  Neither backend of the server raises there, both
      swallow their errors; the server accepts any backend with these five methods. */
  lemma CrashIsReachable(c: Config, nowUs: int) returns (actions: seq<Action>)
    requires c.policy == DEFAULT_POLICY && c.header.mode.AbsoluteDeg? && c.runMode.Sealed?
    requires c.digests.program(c.header, AtRest(1000000)) == c.expectedDigest
    ensures Execute(c, Initial(nowUs), actions).exec.Crashed?
  {
    hide AppendStep, Execute;
    RestIsTaken(c, nowUs);
    var r1 := Step(c, Initial(nowUs), RestUpload(c));
    var r2 := Step(c, r1, Start);
    var r3 := Step(c, r2, Open(NoPose));
    assert r3.exec.Closing? && r3.attached;
    NoSteps(c, Step(c, r3, HoldThenClose(false, false)));
    var last := [HoldThenClose(false, false)];
    actions := [RestUpload(c)] + ([Start] + ([Open(NoPose)] + last));
    FirstStep(c, Initial(nowUs), RestUpload(c), [Start] + ([Open(NoPose)] + last));
    FirstStep(c, r1, Start, [Open(NoPose)] + last);
    FirstStep(c, r2, Open(NoPose), last);
    FirstStep(c, r3, HoldThenClose(false, false), []);
    assert last == [HoldThenClose(false, false)] + [];
  }

  // ---------- a close that leaves the motors energised ----------

  predicate BeyondClose(e: Executor) {
    e.Closed? || e.Done?
  }

  predicate LeavesHot(r: Run, a: Action) {
    r.exec.Closing? && r.attached && a == HoldThenClose(true, true)
  }

  /** Somewhere in this history the backend was closed, and close returned although it had
      not switched the torque off. */
  predicate ClosedHot(c: Config, r: Run, actions: seq<Action>)
    decreases |actions|
  {
    actions != [] && (LeavesHot(r, actions[0]) || ClosedHot(c, Step(c, r, actions[0]), actions[1..]))
  }

  lemma CloseStepExactly(c: Config, r: Run, a: Action)
    requires Inv(c, r)
    ensures var r' := Step(c, r, a);
            (LeavesHot(r, a) ==> BeyondClose(r'.exec) && r'.hot && !BeyondClose(r.exec)) &&
            (BeyondClose(r.exec) ==> BeyondClose(r'.exec) && r'.hot == r.hot) &&
            (BeyondClose(r'.exec) && r'.hot ==> LeavesHot(r, a) || (BeyondClose(r.exec) && r.hot))
  {
    hide BufferInv, ReceiptInv, CursorInv, TickInv, CompletionInv, SentInv, AppendStep, SendStep, CheckStep,
         HeartbeatLapsed;
    match a
    case Append(chunkSeq, points, final, digest) =>
      AppendEffect(c, r, chunkSeq, points, final, digest);
      AppendIsOutside(c, r, chunkSeq, points, final, digest);
    case Send(measured, sendOk) => SendIsOutside(c, r, measured, sendOk);
    case Check => CheckIsOutside(c, r);
    case _ =>
  }

  lemma AppendIsOutside(c: Config, r: Run, chunkSeq: int, points: seq<Point>, final: bool, digest: string)
    ensures AppendStep(c, r, chunkSeq, points, final, digest).hot == r.hot
  {
    hide AppendOutcome;
  }

  lemma SendIsOutside(c: Config, r: Run, measured: Option<Pose>, sendOk: bool)
    ensures var r' := SendStep(c, r, measured, sendOk);
            r' == r || (!BeyondClose(r.exec) && !BeyondClose(r'.exec))
  {
    hide SendStep;
  }

  lemma CheckIsOutside(c: Config, r: Run)
    ensures CheckStep(c, r) == r || (!BeyondClose(r.exec) && !BeyondClose(CheckStep(c, r).exec))
  {
    hide StartPoseOk, AllResolvedOk;
  }

  lemma {:induction false} HotBeyondClose(c: Config, r: Run, actions: seq<Action>)
    requires Inv(c, r)
    ensures var r' := Execute(c, r, actions);
            BeyondClose(r'.exec) && r'.hot <==> ClosedHot(c, r, actions) || (BeyondClose(r.exec) && r.hot)
    decreases |actions|
  {
    hide Inv, Step, BeyondClose, LeavesHot;
    if actions != [] {
      CloseStepExactly(c, r, actions[0]);
      StepKeeps(c, r, actions[0]);
      HotBeyondClose(c, Step(c, r, actions[0]), actions[1..]);
    }
  }

  /** A run that has ended has its motors energised exactly when its close returned
      without switching them off. */
  lemma TerminalIsHotExactly(c: Config, nowUs: int, actions: seq<Action>)
    requires Execute(c, Initial(nowUs), actions).state.Terminal()
    ensures Execute(c, Initial(nowUs), actions).hot <==> ClosedHot(c, Initial(nowUs), actions)
  {
    hide Inv, Execute, ClosedHot;
    Reachable(c, nowUs, []);
    assert Execute(c, Initial(nowUs), []) == Initial(nowUs) by { NoSteps(c, Initial(nowUs)); }
    HotBeyondClose(c, Initial(nowUs), actions);
    Reachable(c, nowUs, actions);
    TerminalIsCold(c, Execute(c, Initial(nowUs), actions));
  }

  lemma NoSteps(c: Config, r: Run)
    ensures Execute(c, r, []) == r
  {
  }

  /** It does happen: a run is enabled and stopped, its close fails to disable the torque and
      returns, and the run ends as stopped with its flag off and the motors on. */
  lemma TerminalCanBeHot(c: Config, nowUs: int) returns (actions: seq<Action>)
    requires c.policy == DEFAULT_POLICY && c.header.mode.AbsoluteDeg? && c.runMode.Sealed?
    requires c.digests.program(c.header, AtRest(1000000)) == c.expectedDigest
    ensures var r := Execute(c, Initial(nowUs), actions);
            r.state == Stopped && r.exec.Done? && r.hot && !r.torque
  {
    hide AppendStep, Execute;
    RestIsTaken(c, nowUs);
    var r1 := Step(c, Initial(nowUs), RestUpload(c));
    var r2 := Step(c, r1, Start);
    var r3 := Step(c, r2, Open(Opened.Pose(ZERO)));
    var r4 := Step(c, r3, Check);
    assert r4.exec.AtStopGate?;
    var r5 := Step(c, r4, StopGate);
    var r6 := Step(c, r5, Enable(true, true));
    var r7 := Step(c, r6, RequestStop);
    var r8 := Step(c, r7, EnterRunning(nowUs));
    var r9 := Step(c, r8, BeginTick(nowUs));
    assert r9.exec == Closing(Stopped, Some(Cancelled)) && r9.attached;
    var r10 := Step(c, r9, HoldThenClose(true, true));
    var last := [BeginTick(nowUs)] + ([HoldThenClose(true, true)] + ([Finish] + []));
    FirstStep(c, r8, BeginTick(nowUs), [HoldThenClose(true, true)] + ([Finish] + []));
    FirstStep(c, r9, HoldThenClose(true, true), [Finish] + []);
    FirstStep(c, r10, Finish, []);
    NoSteps(c, Step(c, r10, Finish));
    var middle := [Enable(true, true)] + ([RequestStop] + ([EnterRunning(nowUs)] + last));
    FirstStep(c, r5, Enable(true, true), [RequestStop] + ([EnterRunning(nowUs)] + last));
    FirstStep(c, r6, RequestStop, [EnterRunning(nowUs)] + last);
    FirstStep(c, r7, EnterRunning(nowUs), last);
    actions := [RestUpload(c)] + ([Start] + ([Open(Opened.Pose(ZERO))] + ([Check] + ([StopGate] + middle))));
    FirstStep(c, Initial(nowUs), RestUpload(c),
              [Start] + ([Open(Opened.Pose(ZERO))] + ([Check] + ([StopGate] + middle))));
    FirstStep(c, r1, Start, [Open(Opened.Pose(ZERO))] + ([Check] + ([StopGate] + middle)));
    FirstStep(c, r2, Open(Opened.Pose(ZERO)), [Check] + ([StopGate] + middle));
    FirstStep(c, r3, Check, [StopGate] + middle);
    FirstStep(c, r4, StopGate, middle);
  }

  // ---------- chunks and receipts ----------

  lemma StepOnlyGrows(c: Config, r: Run, a: Action)
    requires Inv(c, r)
    ensures var r' := Step(c, r, a);
            r.points <= r'.points && r.cursorUs <= r'.cursorUs &&
            forall k :: k in r.receipts ==> k in r'.receipts && r'.receipts[k] == r.receipts[k]
  {
    hide StartStep, HeartbeatStep, StopStep, ConnectionLostStep, OpenStep, CheckStep, GateStep, EnableStep,
         EnterRunningStep, BeginTickStep, CheckHeartbeatStep, TakeSnapshotStep, CloseStep, FinishStep, AppendStep,
         SendStep, Inv;
    if a.Append? { AppendEffect(c, r, a.chunkSeq, a.points, a.final, a.digest); }
    if a.Commit? { CommitForward(c, r, a.overrun); }
  }

  lemma CommitForward(c: Config, r: Run, overrun: bool)
    requires Inv(c, r)
    ensures var r' := CommitStep(r, overrun);
            r'.points == r.points && r'.receipts == r.receipts && r.cursorUs <= r'.cursorUs
  {
    hide BufferInv, ReceiptInv, SentInv, ControlInv, CursorInv;
  }

  /** The buffer and the cursor only move forward, and receipts are never revised. */
  lemma {:induction false} OnlyGrows(c: Config, r: Run, actions: seq<Action>)
    requires Inv(c, r)
    ensures var r' := Execute(c, r, actions);
            r.points <= r'.points && r.cursorUs <= r'.cursorUs &&
            forall k :: k in r.receipts ==> k in r'.receipts && r'.receipts[k] == r.receipts[k]
    decreases |actions|
  {
    hide Step, Inv;
    if actions != [] {
      StepOnlyGrows(c, r, actions[0]);
      StepKeeps(c, r, actions[0]);
      OnlyGrows(c, Step(c, r, actions[0]), actions[1..]);
    }
  }

  /** Resending an accepted chunk, however much later and in whatever state, returns
      the original receipt and changes nothing. */
  lemma ResendIsIdempotent(c: Config, r: Run, chunkSeq: int, points: seq<Point>, final: bool, digest: string,
                           actions: seq<Action>)
    requires Inv(c, r) && AppendOutcome(c, r, chunkSeq, points, final, digest).Accepted?
    ensures var first := AppendOutcome(c, r, chunkSeq, points, final, digest);
            var later := Execute(c, AppendStep(c, r, chunkSeq, points, final, digest), actions);
            AppendOutcome(c, later, chunkSeq, points, final, digest) == first &&
            AppendStep(c, later, chunkSeq, points, final, digest) == later
  {
    hide Inv, AppendVerdict, Step;
    AppendKeeps(c, r, chunkSeq, points, final, digest);
    OnlyGrows(c, AppendStep(c, r, chunkSeq, points, final, digest), actions);
  }

  /** In streaming mode the reported lookahead always adds up to the horizon. */
  lemma HorizonBalance(c: Config, nowUs: int, actions: seq<Action>)
    requires c.runMode.Streaming?
    ensures var r := Execute(c, Initial(nowUs), actions);
            Max(0, EndUs(r.points) - r.cursorUs) + AvailableHorizonUs(c, r) == c.policy.maxHorizonUs
  {
    hide Execute, Initial;
    Reachable(c, nowUs, actions);
  }

  // ---------- chunked upload ----------

  function Flatten(chunks: seq<seq<Point>>): seq<Point> {
    if chunks == [] then [] else chunks[0] + Flatten(chunks[1..])
  }

  /** Send chunks k, k+1, ... in order, the last one marked final; stop at a rejection. */
  function Upload(c: Config, r: Run, chunks: seq<seq<Point>>, k: nat): Outcome<Run>
    requires k <= |chunks|
    decreases |chunks| - k
  {
    if k == |chunks| then Accepted(r)
    else
      var final := k == |chunks| - 1;
      var digest := c.digests.chunk(k, chunks[k], final);
      var outcome := AppendOutcome(c, r, k, chunks[k], final, digest);
      if outcome.Rejected? then Rejected(outcome.code)
      else Upload(c, AppendStep(c, r, k, chunks[k], final, digest), chunks, k + 1)
  }

  ghost predicate ValidChunks(c: Config, chunks: seq<seq<Point>>) {
    chunks != [] && forall k :: 0 <= k < |chunks| ==> 1 <= |chunks[k]| <= c.policy.maxChunkPoints
  }

  /** A buffering run that holds exactly the first `k` chunks. */
  ghost predicate Holds(c: Config, r: Run, program: seq<Point>, k: nat, n: nat) {
    Inv(c, r) && r.state.Buffering? && r.expectedSeq == k && !r.finalReceived &&
    n <= |program| && r.points == program[..n]
  }

  lemma {:induction false} UploadFrom(c: Config, r: Run, chunks: seq<seq<Point>>, program: seq<Point>, k: nat, n: nat)
    requires ValidChunks(c, chunks) && c.runMode.Sealed? && k < |chunks|
    requires c.expectedDigest == c.digests.program(c.header, program)
    requires Holds(c, r, program, k, n) && Flatten(chunks[k..]) == program[n..]
    ensures var u := Upload(c, r, chunks, k);
            (u.Accepted? <==> ProgramOk(c.policy, c.header, program, true)) &&
            (u.Accepted? ==> u.value.points == program && u.value.finalReceived)
    decreases |chunks| - k
  {
    hide Inv, AppendVerdict, Trajectory;
    var final := k == |chunks| - 1;
    var chunk := chunks[k];
    var digest := c.digests.chunk(k, chunk, final);
    assert chunks[k..][1..] == chunks[k + 1..];
    assert program[n..] == chunk + Flatten(chunks[k + 1..]);
    var m := n + |chunk|;
    assert program[..n] + chunk == program[..m] && program[m..] == Flatten(chunks[k + 1..]);
    assert final ==> program[..m] == program;
    ChunkVerdict(c, r, chunk, program, k, n, final);
    var r' := AppendStep(c, r, k, chunk, final, digest);
    AppendKeeps(c, r, k, chunk, final, digest);
    if AppendVerdict(c, r, k, chunk, final).Pass? && !final {
      UploadFrom(c, r', chunks, program, k + 1, m);
    } else if final {
      assert AppendOutcome(c, r, k, chunk, final, digest).Accepted? ==> Upload(c, r, chunks, k) == Accepted(r');
    }
  }

  /** A chunk is accepted when the program up to its end is fine, which follows from
      the whole program being fine. */
  lemma ChunkVerdict(c: Config, r: Run, chunk: seq<Point>, program: seq<Point>, k: nat, n: nat, final: bool)
    requires Holds(c, r, program, k, n) && c.runMode.Sealed? && 1 <= |chunk| <= c.policy.maxChunkPoints
    requires n + |chunk| <= |program| && program[..n] + chunk == program[..n + |chunk|]
    requires final ==> n + |chunk| == |program|
    requires c.expectedDigest == c.digests.program(c.header, program)
    ensures k !in r.receipts
    ensures ProgramOk(c.policy, c.header, program, true) ==> AppendVerdict(c, r, k, chunk, final).Pass?
    ensures final && AppendVerdict(c, r, k, chunk, final).Pass? ==> ProgramOk(c.policy, c.header, program, true)
  {
    hide Trajectory, AppendVerdict, AllResolvedOk;
    var m := n + |chunk|;
    PassMeansFits(c, r, k, chunk, final);
    NoOrigin(c, r, chunk);
    assert final ==> program[..m] == program;
    assert EndUs(chunk) == program[m - 1].tUs by {
      assert (program[..n] + chunk)[m - 1] == chunk[|chunk| - 1];
    }
    if ProgramOk(c.policy, c.header, program, true) {
      TrajectoryPrefix(c.policy, c.header, program, m);
      EarlierIsEarlier(c, program, m - 1);
    }
  }

  lemma NoOrigin(c: Config, r: Run, points: seq<Point>)
    requires Inv(c, r) && r.state.Buffering?
    ensures AllResolvedOk(c, r.origin, points)
  {
  }

  lemma EarlierIsEarlier(c: Config, program: seq<Point>, i: nat)
    requires Trajectory(c.policy, c.header, program) && i < |program|
    ensures program[i].tUs <= program[|program| - 1].tUs
  {
    LaterIsLater(c.policy, program, i, |program| - 1);
  }

  /** Uploading a program to a fresh sealed run, split into chunks in any way the size
      limit allows, succeeds exactly when the program validates as a whole; the buffer
      then equals the program. */
  lemma ChunkedUploadIsWholeValidation(c: Config, nowUs: int, chunks: seq<seq<Point>>)
    requires ValidChunks(c, chunks) && c.runMode.Sealed?
    requires c.expectedDigest == c.digests.program(c.header, Flatten(chunks))
    ensures var u := Upload(c, Initial(nowUs), chunks, 0);
            (u.Accepted? <==> ProgramOk(c.policy, c.header, Flatten(chunks), true)) &&
            (u.Accepted? ==> u.value.points == Flatten(chunks) && u.value.finalReceived)
  {
    var program := Flatten(chunks);
    Reachable(c, nowUs, []);
    assert program[..0] == [] && program[0..] == program && chunks[0..] == chunks;
    UploadFrom(c, Initial(nowUs), chunks, program, 0, 0);
  }

  /** The client's splitting: consecutive slices of `size` points. */
  function SplitChunks(points: seq<Point>, size: Positive): seq<seq<Point>>
    decreases |points|
  {
    if points == [] then []
    else if |points| <= size then [points]
    else [points[..size]] + SplitChunks(points[size..], size)
  }

  lemma {:induction false} SplitIsPartition(points: seq<Point>, size: Positive)
    ensures Flatten(SplitChunks(points, size)) == points
    ensures forall k :: 0 <= k < |SplitChunks(points, size)| ==> 1 <= |SplitChunks(points, size)[k]| <= size
    ensures forall k :: 0 <= k < |SplitChunks(points, size)| - 1 ==> |SplitChunks(points, size)[k]| == size
    decreases |points|
  {
    var chunks := SplitChunks(points, size);
    if points == [] {
    } else if |points| <= size {
      assert chunks[1..] == [];
    } else {
      SplitIsPartition(points[size..], size);
      assert chunks[1..] == SplitChunks(points[size..], size);
      assert points[..size] + points[size..] == points;
    }
  }

  lemma SplitUpload(c: Config, nowUs: int, program: seq<Point>, size: Positive)
    requires program != [] && size <= c.policy.maxChunkPoints && c.runMode.Sealed?
    requires c.expectedDigest == c.digests.program(c.header, program)
    ensures Upload(c, Initial(nowUs), SplitChunks(program, size), 0).Accepted?
       <==> ProgramOk(c.policy, c.header, program, true)
  {
    SplitIsPartition(program, size);
    ChunkedUploadIsWholeValidation(c, nowUs, SplitChunks(program, size));
  }
}
