/** One v1 program run as a state machine (robot_server.py, ProgramRun).

    Every section that the source performs under the run's lock, and every call it
    makes on the motor backend between two such sections, is one atomic action.
    Network threads contribute the actions Append .. ConnectionLost, the executor
    thread the actions from Open to Finish; the two interleave freely.  An action
    that is not enabled in the current state leaves it unchanged.
 */
module RunModel {
  import opened Wrappers
  import opened Quintic
  import opened Protocol
  import opened Motion

  datatype RunMode = Sealed | Streaming

  datatype DisconnectPolicy = StopAfterTimeout | CompleteIfSealed

  datatype State = Buffering | Arming | Running | Completed | Stopped | Faulted {
    predicate Terminal() { Completed? || Stopped? || Faulted? }
  }

  /** SHA-256 over canonical JSON, kept abstract. */
  datatype Digests = Digests(chunk: (int, seq<Point>, bool) -> string, program: (Header, seq<Point>) -> string)

  datatype Config = Config(
    header: Header, runMode: RunMode, disconnect: DisconnectPolicy, expectedDigest: string,
    policy: Policy, digests: Digests, heartbeatTimeoutUs: int)

  datatype Receipt = Receipt(
    chunkSeq: int, acceptedUntilUs: int, executionCursorUs: int,
    queuedAheadUs: int, availableHorizonUs: int, final: bool)

  datatype Outcome<+T> = Accepted(value: T) | Rejected(code: Code)

  /** Where the executor thread is, with its local variables. */
  datatype Executor =
    | Idle
    | Opening
    | Checking(measured: Pose, snapshot: seq<Point>)
    | AtStopGate
    | Enabling
    | Enabled
    | Top(startedUs: int, segment: nat, violations: nat)
    | Beating(startedUs: int, nowUs: int, segment: nat, violations: nat)
    | Snapping(startedUs: int, tickUs: int, segment: nat, violations: nat)
    | Sending(startedUs: int, tickUs: int, snapshot: seq<Point>, final: bool, segment: nat, violations: nat)
    | Committing(startedUs: int, tickUs: int, segment: nat, violations: nat)
    | Finishing(tickUs: int)
    | Closing(outcome: State, code: Option<Code>)
    | Closed(outcome: State, code: Option<Code>)
    | Done
    | Crashed

  /** One trajectory target handed to the backend, with its trajectory time. */
  datatype Command = Command(tUs: int, q: Pose)

  datatype Run = Run(
    points: seq<Point>, receipts: map<int, (string, Receipt)>, expectedSeq: nat, finalReceived: bool,
    state: State, cursorUs: int, lastHeartbeatUs: int, clockUs: int,
    origin: Option<Pose>, stop: bool,
    attached: bool,   // the run holds a backend object
    torque: bool,     // the run's own torque_enabled flag
    hot: bool,        // the motors are energised, as far as this run's backend calls decide it
    exec: Executor,
    sent: seq<Command>)

  datatype Opened = NoBackend | NoPose | Pose(q: Pose)

  datatype Action =
    | Append(chunkSeq: int, points: seq<Point>, final: bool, digest: string)
    | Start
    | Heartbeat(nowUs: int)
    | RequestStop
    | ConnectionLost
    | Open(bus: Opened)
    | Check
    | StopGate
    | Enable(ok: bool, leftHot: bool)
    | EnterRunning(nowUs: int)
    | BeginTick(nowUs: int)
    | CheckHeartbeat
    | TakeSnapshot
    | Send(measured: Option<Pose>, sendOk: bool)
    | Commit(overrun: bool)
    | HoldThenClose(ok: bool, leftHot: bool) // not ok: close raised; leftHot: torque is still on
    | Finish

  /** Steps that touch neither the buffer, nor the cursor, nor the motors' targets. */
  predicate ControlOnly(r: Run, r': Run) {
    r'.points == r.points && r'.receipts == r.receipts && r'.expectedSeq == r.expectedSeq &&
    r'.finalReceived == r.finalReceived && r'.cursorUs == r.cursorUs && r'.sent == r.sent && (r.stop ==> r'.stop)
  }

  /** The executor is past the stop check of a tick and has not sent its target yet. */
  predicate MidTick(e: Executor) {
    e.Beating? || e.Snapping? || e.Sending?
  }

  function Initial(nowUs: int): Run {
    Run([], map[], 0, false, Buffering, 0, nowUs, nowUs, None, false, false, false, false, Idle, [])
  }

  // ---------- network side ----------

  function EndUs(points: seq<Point>): int {
    if points == [] then 0 else points[|points| - 1].tUs
  }

  function Max(a: int, b: int): int { if a < b then b else a }

  function AvailableHorizonUs(c: Config, r: Run): int {
    Max(0, c.policy.maxHorizonUs - Max(0, EndUs(r.points) - r.cursorUs))
  }

  /** A streaming buffer that ends at `endUs` is not too far ahead of the cursor. */
  predicate FitsHorizon(c: Config, r: Run, endUs: int) {
    endUs - r.cursorUs <= c.policy.maxHorizonUs
  }

  predicate ResolvedOk(c: Config, origin: Option<Pose>, q: Pose) {
    c.header.mode.RelativeDeg? && origin.Some? ==> InLimits(c.policy, Shift(origin.value, q))
  }

  function PointVerdict(c: Config, origin: Option<Pose>, previous: Option<Point>, point: Point): (v: Verdict)
    ensures v.Pass? <==> PointOk(c, origin, previous, point)
  {
    var first :=
      match previous
      case None =>
        if point.tUs != 0 then Fail(InvalidTime)
        else if !StartsAtOrigin(c.header.mode, point.q) then Fail(StartStateMismatch)
        else Pass
      case Some(before) => SegmentVerdict(c.policy, before, point);
    if first.Fail? then first
    else if !PositionOk(c.policy, c.header.mode, point.q) then Fail(LimitViolation)
    else if !ResolvedOk(c, origin, point.q) then Fail(LimitViolation)
    else Pass
  }

  predicate PointOk(c: Config, origin: Option<Pose>, previous: Option<Point>, point: Point) {
    (if previous.Some? then SegmentOk(c.policy, previous.value, point)
     else point.tUs == 0 && StartsAtOrigin(c.header.mode, point.q)) &&
    PositionOk(c.policy, c.header.mode, point.q) && ResolvedOk(c, origin, point.q)
  }

  /** The verdict of the first rejected point, scanning in order. */
  function ScanVerdict(c: Config, origin: Option<Pose>, previous: Option<Point>, points: seq<Point>): Verdict
    decreases |points|
  {
    if points == [] then Pass
    else
      var v := PointVerdict(c, origin, previous, points[0]);
      if v.Fail? then v else ScanVerdict(c, origin, Some(points[0]), points[1..])
  }

  function LastPoint(points: seq<Point>): Option<Point> {
    if points == [] then None else Some(points[|points| - 1])
  }

  /** Every check made before a chunk is stored. */
  function AdmitVerdict(c: Config, r: Run, chunkSeq: int, points: seq<Point>, final: bool): Verdict {
    if chunkSeq != r.expectedSeq then Fail(OutOfOrder)
    else if !(r.state.Buffering? || r.state.Running?) || r.finalReceived then Fail(RunStateConflict)
    else if points == [] || |points| > c.policy.maxChunkPoints then Fail(ChunkSize)
    else
      var scan := ScanVerdict(c, r.origin, LastPoint(r.points), points);
      if scan.Fail? then scan
      else if |r.points| + |points| > c.policy.maxPoints || EndUs(points) > c.policy.maxDurationUs then
        Fail(ResourceLimit)
      else if final && |r.points| + |points| < 2 then Fail(SchemaInvalid)
      else if c.runMode.Streaming? && !FitsHorizon(c, r, EndUs(points)) then Fail(QueueFull)
      else Pass
  }

  /** ... and the whole-program digest, which is only known once a final chunk is stored. */
  function AppendVerdict(c: Config, r: Run, chunkSeq: int, points: seq<Point>, final: bool): Verdict {
    var v := AdmitVerdict(c, r, chunkSeq, points, final);
    if v.Fail? then v
    else if final && c.digests.program(c.header, r.points + points) != c.expectedDigest then Fail(HashMismatch)
    else Pass
  }

  function AppendOutcome(c: Config, r: Run, chunkSeq: int, points: seq<Point>, final: bool,
                         digest: string): Outcome<Receipt> {
    var actual := c.digests.chunk(chunkSeq, points, final);
    if digest != actual then Rejected(HashMismatch)
    else if chunkSeq in r.receipts then
      if r.receipts[chunkSeq].0 != actual then Rejected(DuplicateConflict) else Accepted(r.receipts[chunkSeq].1)
    else
      var v := AppendVerdict(c, r, chunkSeq, points, final);
      if v.Fail? then Rejected(v.code)
      else
        var r' := r.(points := r.points + points);
        Accepted(Receipt(chunkSeq, EndUs(points), r.cursorUs, Max(0, EndUs(points) - r.cursorUs),
                         AvailableHorizonUs(c, r'), final))
  }

  /** The run changes exactly when a chunk is accepted for the first time. */
  function AppendStep(c: Config, r: Run, chunkSeq: int, points: seq<Point>, final: bool, digest: string): Run {
    var outcome := AppendOutcome(c, r, chunkSeq, points, final, digest);
    if outcome.Rejected? || chunkSeq in r.receipts then r
    else r.(points := r.points + points, expectedSeq := r.expectedSeq + 1, finalReceived := final,
            receipts := r.receipts[chunkSeq := (digest, outcome.value)])
  }

  function StartVerdict(c: Config, r: Run): Verdict {
    if !r.state.Buffering? then Fail(RunStateConflict)
    else if |r.points| < 2 then Fail(NotReady)
    else if c.runMode.Sealed? && !r.finalReceived then Fail(NotReady)
    else if c.runMode.Streaming? && !r.finalReceived && EndUs(r.points) < c.policy.startBufferUs then Fail(NotReady)
    else Pass
  }

  function StartStep(c: Config, r: Run): (r': Run)
    ensures ControlOnly(r, r') && (MidTick(r'.exec) ==> MidTick(r.exec) || !r.stop)
  {
    if StartVerdict(c, r).Fail? then r else r.(state := Arming, exec := Opening)
  }

  function StopStep(r: Run): (r': Run)
    ensures ControlOnly(r, r') && (MidTick(r'.exec) ==> MidTick(r.exec) || !r.stop)
  {
    r.(stop := true)
  }

  function ConnectionLostStep(r: Run): (r': Run)
    ensures ControlOnly(r, r') && (MidTick(r'.exec) ==> MidTick(r.exec) || !r.stop)
  {
    if r.state.Buffering? then r.(state := Stopped)
    else if r.state.Arming? then r.(stop := true)
    else r
  }

  // ---------- executor side ----------

  function Resolve(c: Config, origin: Option<Pose>, q: Pose): Option<Pose> {
    if c.header.mode.AbsoluteDeg? then Some(q)
    else if origin.None? then None
    else Some(Shift(origin.value, q))
  }

  function FailWith(r: Run, code: Code): (r': Run)
    ensures r'.exec.Closing? && r'.exec.code == Some(code)
  {
    r.(exec := Closing(if code.Cancelled? then Stopped else Faulted, Some(code)))
  }

  function OpenStep(r: Run, bus: Opened): (r': Run)
    ensures ControlOnly(r, r') && (MidTick(r'.exec) ==> MidTick(r.exec) || !r.stop)
  {
    if !r.exec.Opening? then r else
    match bus
    case NoBackend => FailWith(r, HardwareFault)
    case NoPose => FailWith(r.(attached := true), HardwareFault)
    case Pose(q) => r.(attached := true, origin := Some(q), exec := Checking(q, r.points))
  }

  predicate StartPoseOk(c: Config, measured: Pose, snapshot: seq<Point>) {
    snapshot != [] ==>
      forall j :: 0 <= j < JOINT_COUNT ==> Abs(snapshot[0].q[j] - measured[j]) <= c.policy.startTolerance
  }

  predicate AllResolvedOk(c: Config, origin: Option<Pose>, points: seq<Point>) {
    forall i :: 0 <= i < |points| ==> ResolvedOk(c, origin, points[i].q)
  }

  function CheckStep(c: Config, r: Run): (r': Run)
    ensures ControlOnly(r, r') && (MidTick(r'.exec) ==> MidTick(r.exec) || !r.stop)
  {
    if !r.exec.Checking? then r
    else if c.header.mode.AbsoluteDeg? then
      if StartPoseOk(c, r.exec.measured, r.exec.snapshot) then r.(exec := AtStopGate)
        else FailWith(r, StartStateMismatch)
    else
      if AllResolvedOk(c, r.origin, r.exec.snapshot) then r.(exec := AtStopGate) else FailWith(r, LimitViolation)
  }

  /** Five body joints share one threshold; the gripper has its own, or none. */
  predicate Exceeded(policy: Policy, target: Pose, measured: Pose) {
    (exists j :: 0 <= j < JOINT_COUNT - 1 && Abs(target[j] - measured[j]) > policy.trackingError) ||
    (policy.gripperTrackingError.Some? &&
     Abs(target[JOINT_COUNT - 1] - measured[JOINT_COUNT - 1]) > policy.gripperTrackingError.value)
  }

  function HeartbeatLapsed(c: Config, r: Run, nowUs: int): bool {
    !(r.finalReceived && c.disconnect.CompleteIfSealed?) && nowUs - r.lastHeartbeatUs > c.heartbeatTimeoutUs
  }

  /** The frame of a tick's last part: at most one target more, and the tick is over. */
  predicate TickEnds(r: Run, r': Run) {
    r'.points == r.points && r'.receipts == r.receipts && r'.cursorUs == r.cursorUs && r'.stop == r.stop &&
    r'.state == r.state && r'.expectedSeq == r.expectedSeq && r'.finalReceived == r.finalReceived &&
    r'.origin == r.origin && r'.torque == r.torque && r'.hot == r.hot && r'.attached == r.attached &&
    r'.clockUs == r.clockUs && r'.lastHeartbeatUs == r.lastHeartbeatUs &&
    r.sent <= r'.sent && |r'.sent| <= |r.sent| + 1 && !MidTick(r'.exec)
  }

  /** Hand a target to the backend; a write that fails still counts as commanded. */
  function Dispatch(r: Run, command: Command, sendOk: bool, next: Executor): (r': Run)
    requires !MidTick(next)
    ensures TickEnds(r, r') && (r'.exec == next || r'.exec == Closing(Faulted, Some(HardwareFault)))
  {
    var r' := r.(sent := r.sent + [command]);
    if sendOk then r'.(exec := next) else FailWith(r', HardwareFault)
  }

  function SendLast(c: Config, r: Run, sendOk: bool): (r': Run)
    requires r.exec.Sending? && r.exec.snapshot != []
    ensures TickEnds(r, r') && (r'.exec.Closing? ==> r'.exec.code == Some(HardwareFault))
    ensures r'.exec.Closing? || r'.exec.Finishing?
  {
    var points := r.exec.snapshot;
    var target := Resolve(c, r.origin, points[|points| - 1].q);
    if target.None? then FailWith(r, HardwareFault)
    else Dispatch(r, Command(EndUs(points), target.value), sendOk, Finishing(EndUs(points)))
  }

  function SendInterpolated(c: Config, r: Run, segment: nat, measured: Option<Pose>, sendOk: bool): (r': Run)
    requires r.exec.Sending? && segment + 1 < |r.exec.snapshot|
    ensures TickEnds(r, r') && (r'.exec.Closing? ==> r'.exec.code != Some(BufferUnderrun))
    ensures r'.exec.Closing? || (r'.exec.Committing? && r'.exec.startedUs == r.exec.startedUs)
  {
    var points, tickUs := r.exec.snapshot, r.exec.tickUs;
    var target := Resolve(c, r.origin, Interpolate(points[segment], points[segment + 1], tickUs));
    if target.None? || measured.None? then FailWith(r, HardwareFault)
    else
      var violations := if Exceeded(c.policy, target.value, measured.value) then r.exec.violations + 1 else 0;
      if violations >= 5 then FailWith(r, TrackingError)
      else Dispatch(r, Command(tickUs, target.value), sendOk, Committing(r.exec.startedUs, tickUs, segment, violations))
  }

  function SendStep(c: Config, r: Run, measured: Option<Pose>, sendOk: bool): (r': Run)
    ensures r' == r || (MidTick(r.exec) && TickEnds(r, r'))
    ensures r' == r || r'.exec.Closing? || r'.exec.Finishing? ||
            (r'.exec.Committing? && r.exec.Sending? && r'.exec.startedUs == r.exec.startedUs)
  {
    if !r.exec.Sending? || r.exec.segment >= |r.exec.snapshot| then r else
    var segment := Advance(r.exec.snapshot, r.exec.tickUs, r.exec.segment);
    if segment + 1 < |r.exec.snapshot| then SendInterpolated(c, r, segment, measured, sendOk)
    else if r.exec.final && r.exec.tickUs >= EndUs(r.exec.snapshot) then SendLast(c, r, sendOk)
    else FailWith(r, BufferUnderrun)
  }

  function GateStep(r: Run): (r': Run)
    ensures ControlOnly(r, r') && (MidTick(r'.exec) ==> MidTick(r.exec) || !r.stop)
  {
    if !r.exec.AtStopGate? then r
    else if r.stop then FailWith(r, Cancelled)
    else r.(exec := Enabling)
  }

  function EnableStep(r: Run, ok: bool, leftHot: bool): (r': Run)
    ensures ControlOnly(r, r') && (MidTick(r'.exec) ==> MidTick(r.exec) || !r.stop)
  {
    if !r.exec.Enabling? then r
    else if ok then r.(hot := true, torque := true, exec := Enabled)
    else FailWith(r.(hot := leftHot), HardwareFault)
  }

  function EnterRunningStep(r: Run, nowUs: int): (r': Run)
    ensures ControlOnly(r, r') && (MidTick(r'.exec) ==> MidTick(r.exec) || !r.stop)
  {
    if r.exec.Enabled? && r.clockUs <= nowUs
    then r.(clockUs := nowUs, state := Running, exec := Top(nowUs, 0, 0)) else r
  }

  function BeginTickStep(r: Run, nowUs: int): (r': Run)
    ensures ControlOnly(r, r') && (MidTick(r'.exec) ==> MidTick(r.exec) || !r.stop)
  {
    if !r.exec.Top? || nowUs < r.clockUs then r
    else if r.stop then FailWith(r.(clockUs := nowUs), Cancelled)
    else r.(clockUs := nowUs, exec := Beating(r.exec.startedUs, nowUs, r.exec.segment, r.exec.violations))
  }

  function CheckHeartbeatStep(c: Config, r: Run): (r': Run)
    ensures ControlOnly(r, r') && (MidTick(r'.exec) ==> MidTick(r.exec) || !r.stop)
  {
    if !r.exec.Beating? then r
    else if HeartbeatLapsed(c, r, r.exec.nowUs) then FailWith(r, HeartbeatLost)
    else r.(exec := Snapping(r.exec.startedUs, Max(0, r.exec.nowUs - r.exec.startedUs), r.exec.segment,
                             r.exec.violations))
  }

  function TakeSnapshotStep(r: Run): (r': Run)
    ensures ControlOnly(r, r') && (MidTick(r'.exec) ==> MidTick(r.exec) || !r.stop)
  {
    if r.exec.Snapping?
    then r.(exec := Sending(r.exec.startedUs, r.exec.tickUs, r.points, r.finalReceived, r.exec.segment,
                            r.exec.violations))
    else r
  }

  function CommitStep(r: Run, overrun: bool): Run {
    if r.exec.Finishing? then r.(cursorUs := r.exec.tickUs, exec := Closing(Completed, None))
    else if !r.exec.Committing? then r
    else
      var r' := r.(cursorUs := r.exec.tickUs);
      if overrun then FailWith(r', ControlCycleOverrun)
      else r'.(exec := Top(r.exec.startedUs, r.exec.segment, r.exec.violations))
  }

  /** Closing is best effort: a close that returns may still have failed to switch the
      torque off, and the run's own flag is cleared all the same. */
  function CloseStep(r: Run, ok: bool, leftHot: bool): (r': Run)
    ensures ControlOnly(r, r') && (MidTick(r'.exec) ==> MidTick(r.exec) || !r.stop)
  {
    if !r.exec.Closing? then r
    else if !r.attached then r.(exec := Closed(r.exec.outcome, r.exec.code))
    else if ok then r.(attached := false, hot := leftHot, torque := false, exec := Closed(r.exec.outcome, r.exec.code))
    else r.(attached := false, hot := leftHot, exec := Crashed)
  }

  function FinishStep(r: Run): (r': Run)
    ensures ControlOnly(r, r') && (MidTick(r'.exec) ==> MidTick(r.exec) || !r.stop)
  {
    if r.exec.Closed? then r.(state := r.exec.outcome, exec := Done) else r
  }

  function HeartbeatStep(r: Run, nowUs: int): (r': Run)
    ensures ControlOnly(r, r') && (MidTick(r'.exec) ==> MidTick(r.exec) || !r.stop)
  {
    if r.clockUs <= nowUs then r.(clockUs := nowUs, lastHeartbeatUs := nowUs) else r
  }

  function Step(c: Config, r: Run, a: Action): Run {
    match a
    case Append(chunkSeq, points, final, digest) => AppendStep(c, r, chunkSeq, points, final, digest)
    case Start => StartStep(c, r)
    case Heartbeat(nowUs) => HeartbeatStep(r, nowUs)
    case RequestStop => StopStep(r)
    case ConnectionLost => ConnectionLostStep(r)
    case Open(bus) => OpenStep(r, bus)
    case Check => CheckStep(c, r)
    case StopGate => GateStep(r)
    case Enable(ok, leftHot) => EnableStep(r, ok, leftHot)
    case EnterRunning(nowUs) => EnterRunningStep(r, nowUs)
    case BeginTick(nowUs) => BeginTickStep(r, nowUs)
    case CheckHeartbeat => CheckHeartbeatStep(c, r)
    case TakeSnapshot => TakeSnapshotStep(r)
    case Send(measured, sendOk) => SendStep(c, r, measured, sendOk)
    case Commit(overrun) => CommitStep(r, overrun)
    case HoldThenClose(ok, leftHot) => CloseStep(r, ok, leftHot)
    case Finish => FinishStep(r)
  }

  /** Any interleaving of the two sides. */
  function Execute(c: Config, r: Run, actions: seq<Action>): Run
    decreases |actions|
  {
    if actions == [] then r else Execute(c, Step(c, r, actions[0]), actions[1..])
  }
}
