/** Why a v1 run ends: each fault code has exactly one set of causes, and each target was
    sent under a fresh heartbeat (robot_server.py, `_execute`). */
module RunCauses {
  import opened Wrappers
  import opened Quintic
  import opened Protocol
  import opened Motion
  import opened RunModel
  import opened RunSafety
  import opened RunGuarantees
  import opened RunHistory

  // ---------- one step ----------

  /** The arm is off the target on a supervised joint. */
  predicate Off(policy: Policy, target: Pose, measured: Pose) {
    Abs(target[0] - measured[0]) > policy.trackingError || Abs(target[1] - measured[1]) > policy.trackingError ||
    Abs(target[2] - measured[2]) > policy.trackingError || Abs(target[3] - measured[3]) > policy.trackingError ||
    Abs(target[4] - measured[4]) > policy.trackingError ||
    (policy.gripperTrackingError.Some? && Abs(target[5] - measured[5]) > policy.gripperTrackingError.value)
  }

  /** The pose a tick is to command: the trajectory at its time, moved by the origin. */
  function Commanded(c: Config, r: Run): (q: Pose)
    requires r.exec.Sending? && r.exec.snapshot != []
  {
    var q := PositionAt(r.exec.snapshot, r.exec.tickUs);
    if c.header.mode.RelativeDeg? && r.origin.Some? then Shift(r.origin.value, q) else q
  }

  predicate InTime(r: Run) {
    r.exec.Sending? && r.exec.snapshot != [] && r.exec.tickUs <= EndUs(r.exec.snapshot)
  }

  /** An ordinary tick whose reading is off the target. */
  predicate Missed(c: Config, r: Run, a: Action) {
    a.Send? && InTime(r) && a.measured.Some? && Off(c.policy, Commanded(c, r), a.measured.value)
  }

  /** What makes a step end the run with this code. */
  predicate Cause(c: Config, r: Run, a: Action, code: Code) {
    match code
    case Cancelled =>
      (a.StopGate? && r.exec.AtStopGate? && r.stop) || (a.BeginTick? && r.exec.Top? && r.clockUs <= a.nowUs && r.stop)
    case StartStateMismatch =>
      a.Check? && r.exec.Checking? && c.header.mode.AbsoluteDeg? && r.exec.snapshot != [] &&
      exists j :: 0 <= j < JOINT_COUNT && Abs(r.exec.snapshot[0].q[j] - r.exec.measured[j]) > c.policy.startTolerance
    case LimitViolation =>
      a.Check? && r.exec.Checking? && c.header.mode.RelativeDeg? &&
      exists i :: 0 <= i < |r.exec.snapshot| && !InLimits(c.policy, Shift(r.exec.measured, r.exec.snapshot[i].q))
    case HeartbeatLost =>
      a.CheckHeartbeat? && r.exec.Beating? && r.exec.nowUs - r.lastHeartbeatUs > c.heartbeatTimeoutUs &&
      !(r.finalReceived && c.disconnect.CompleteIfSealed?)
    case BufferUnderrun =>
      a.Send? && r.exec.Sending? && r.exec.snapshot != [] && EndUs(r.exec.snapshot) < r.exec.tickUs && !r.exec.final
    case TrackingError => Missed(c, r, a) && r.exec.violations >= 4
    case ControlCycleOverrun => a == Commit(true) && r.exec.Committing?
    case HardwareFault =>
      (a.Open? && r.exec.Opening? && !a.bus.Pose?) || (a.Enable? && r.exec.Enabling? && !a.ok) ||
      (a.Send? && InTime(r) && (a.measured.None? || (!a.sendOk && !(Missed(c, r, a) && r.exec.violations >= 4)))) ||
      (a.Send? && r.exec.Sending? && !InTime(r) && r.exec.final && !a.sendOk)
    case _ => false
  }

  predicate EndsWith(r: Run, r': Run, code: Option<Code>) {
    !r.exec.Closing? && r'.exec.Closing? && r'.exec.code == code
  }

  /** A step ends the run with a code exactly when it is a cause of that code, in every
      reachable state; and it ends it normally exactly after the last point was sent. */
  lemma EndsExactly(c: Config, r: Run, a: Action, code: Code)
    requires Inv(c, r) && !r.exec.Closing?
    ensures EndsWith(r, Step(c, r, a), Some(code)) <==> Cause(c, r, a, code)
    ensures EndsWith(r, Step(c, r, a), None) <==> r.exec.Finishing? && a.Commit?
    ensures Step(c, r, a).exec.Closing? ==>
              Step(c, r, a).exec.outcome ==
              match Step(c, r, a).exec.code
              case None => Completed
              case Some(Cancelled) => Stopped
              case Some(_) => Faulted
  {
    hide Inv, Step, Cause;
    match a
    case Append(chunkSeq, points, final, digest) => AppendEnds(c, r, chunkSeq, points, final, digest, code);
    case Check => CheckEnds(c, r, code);
    case Send(measured, sendOk) => SendEnds(c, r, measured, sendOk, code);
    case Open(_) => ArmEnds(c, r, a, code);
    case StopGate => ArmEnds(c, r, a, code);
    case Enable(_, _) => ArmEnds(c, r, a, code);
    case BeginTick(_) => LoopEnds(c, r, a, code);
    case CheckHeartbeat => LoopEnds(c, r, a, code);
    case Commit(_) => LoopEnds(c, r, a, code);
    case _ => OthersEnd(c, r, a, code);
  }

  lemma AppendEnds(c: Config, r: Run, chunkSeq: int, points: seq<Point>, final: bool, digest: string, code: Code)
    requires !r.exec.Closing?
    ensures !Step(c, r, Append(chunkSeq, points, final, digest)).exec.Closing?
    ensures !Cause(c, r, Append(chunkSeq, points, final, digest), code)
  {
    hide AppendStep;
    AppendEffect(c, r, chunkSeq, points, final, digest);
  }

  lemma OthersEnd(c: Config, r: Run, a: Action, code: Code)
    requires !r.exec.Closing?
    requires a.Start? || a.Heartbeat? || a.RequestStop? || a.ConnectionLost? || a.EnterRunning? || a.TakeSnapshot? ||
             a.HoldThenClose? || a.Finish?
    ensures !Step(c, r, a).exec.Closing? && !Cause(c, r, a, code)
  {
    hide StartVerdict;
  }

  lemma ArmEnds(c: Config, r: Run, a: Action, code: Code)
    requires !r.exec.Closing? && (a.Open? || a.StopGate? || a.Enable?)
    ensures var r' := Step(c, r, a);
            (EndsWith(r, r', Some(code)) <==> Cause(c, r, a, code)) && !EndsWith(r, r', None) &&
            (r'.exec.Closing? ==> r'.exec.outcome == if r'.exec.code == Some(Cancelled) then Stopped else Faulted)
  {
  }

  lemma LoopEnds(c: Config, r: Run, a: Action, code: Code)
    requires !r.exec.Closing? && (a.BeginTick? || a.CheckHeartbeat? || a.Commit?)
    ensures var r' := Step(c, r, a);
            (EndsWith(r, r', Some(code)) <==> Cause(c, r, a, code)) &&
            (EndsWith(r, r', None) <==> r.exec.Finishing? && a.Commit?) &&
            (r'.exec.Closing? ==>
               r'.exec.outcome ==
               if r'.exec.code.None? then Completed else if r'.exec.code == Some(Cancelled) then Stopped else Faulted)
  {
    hide Cause;
    if a.BeginTick? { TickEndsWhen(c, r, a.nowUs); }
    if a.CheckHeartbeat? { HeartbeatEndsWhen(c, r); }
    if a.Commit? { CommitEndsWhen(r, a.overrun); }
    OwnCause(c, r, a, code);
  }

  /** The codes that a step of the loop can end a run with, and when. */
  lemma OwnCause(c: Config, r: Run, a: Action, code: Code)
    requires a.BeginTick? || a.CheckHeartbeat? || a.Commit?
    ensures Cause(c, r, a, code) <==>
              match code
              case Cancelled => a.BeginTick? && r.exec.Top? && r.clockUs <= a.nowUs && r.stop
              case HeartbeatLost =>
                a.CheckHeartbeat? && r.exec.Beating? && r.exec.nowUs - r.lastHeartbeatUs > c.heartbeatTimeoutUs &&
                !(r.finalReceived && c.disconnect.CompleteIfSealed?)
              case ControlCycleOverrun => a == Commit(true) && r.exec.Committing?
              case _ => false
  {
  }

  lemma TickEndsWhen(c: Config, r: Run, nowUs: int)
    requires !r.exec.Closing?
    ensures var e := BeginTickStep(r, nowUs).exec;
            (e.Closing? <==> r.exec.Top? && r.clockUs <= nowUs && r.stop) &&
            (e.Closing? ==> e == Closing(Stopped, Some(Cancelled)))
  {
  }

  lemma HeartbeatEndsWhen(c: Config, r: Run)
    requires !r.exec.Closing?
    ensures var e := CheckHeartbeatStep(c, r).exec;
            (e.Closing? <==>
               r.exec.Beating? && r.exec.nowUs - r.lastHeartbeatUs > c.heartbeatTimeoutUs &&
               !(r.finalReceived && c.disconnect.CompleteIfSealed?)) &&
            (e.Closing? ==> e == Closing(Faulted, Some(HeartbeatLost)))
  {
  }

  lemma CommitEndsWhen(r: Run, overrun: bool)
    requires !r.exec.Closing?
    ensures var e := CommitStep(r, overrun).exec;
            (e.Closing? <==> r.exec.Finishing? || (r.exec.Committing? && overrun)) &&
            (e.Closing? ==> e == if r.exec.Finishing? then Closing(Completed, None)
             else Closing(Faulted, Some(ControlCycleOverrun)))
  {
  }

  predicate FarFromStart(c: Config, measured: Pose, points: seq<Point>) {
    points != [] &&
    exists j :: 0 <= j < JOINT_COUNT && Abs(points[0].q[j] - measured[j]) > c.policy.startTolerance
  }

  predicate SomeOutside(c: Config, measured: Pose, points: seq<Point>) {
    exists i :: 0 <= i < |points| && !InLimits(c.policy, Shift(measured, points[i].q))
  }

  lemma CheckCause(c: Config, r: Run, code: Code)
    ensures Cause(c, r, Check, code) <==>
              r.exec.Checking? &&
              match code
              case StartStateMismatch =>
                c.header.mode.AbsoluteDeg? && FarFromStart(c, r.exec.measured, r.exec.snapshot)
              case LimitViolation => c.header.mode.RelativeDeg? && SomeOutside(c, r.exec.measured, r.exec.snapshot)
              case _ => false
  {
    hide InLimits, Shift;
  }

  lemma StartChecks(c: Config, measured: Pose, points: seq<Point>)
    ensures StartPoseOk(c, measured, points) <==> !FarFromStart(c, measured, points)
    ensures c.header.mode.RelativeDeg? ==>
              (AllResolvedOk(c, Some(measured), points) <==> !SomeOutside(c, measured, points))
  {
    hide InLimits, Shift;
  }

  lemma CheckEndsWhen(c: Config, r: Run)
    requires !r.exec.Closing? && (r.exec.Checking? ==> r.origin == Some(r.exec.measured))
    ensures var e := CheckStep(c, r).exec;
            (e.Closing? <==>
               r.exec.Checking? &&
               if c.header.mode.AbsoluteDeg? then FarFromStart(c, r.exec.measured, r.exec.snapshot)
               else SomeOutside(c, r.exec.measured, r.exec.snapshot)) &&
            (e.Closing? ==>
               e == Closing(Faulted, Some(if c.header.mode.AbsoluteDeg? then StartStateMismatch else LimitViolation)))
  {
    hide StartPoseOk, AllResolvedOk, FarFromStart, SomeOutside;
    if r.exec.Checking? { StartChecks(c, r.exec.measured, r.exec.snapshot); }
  }

  lemma CheckEnds(c: Config, r: Run, code: Code)
    requires Inv(c, r) && !r.exec.Closing?
    ensures var r' := Step(c, r, Check);
            (EndsWith(r, r', Some(code)) <==> Cause(c, r, Check, code)) && !EndsWith(r, r', None) &&
            (r'.exec.Closing? ==> r'.exec.outcome == Faulted && r'.exec.code != Some(Cancelled))
  {
    hide Inv, Cause, CheckStep, FarFromStart, SomeOutside;
    CheckCause(c, r, code);
    if r.exec.Checking? { CheckMeasured(c, r); }
    CheckEndsWhen(c, r);
  }

  lemma CheckMeasured(c: Config, r: Run)
    requires Inv(c, r) && r.exec.Checking?
    ensures r.origin == Some(r.exec.measured)
  {
  }

  lemma OffIsExceeded(policy: Policy, target: Pose, measured: Pose)
    ensures Off(policy, target, measured) <==> Exceeded(policy, target, measured)
  {
    if Off(policy, target, measured) {
      assert forall j :: 0 <= j < 5 && Abs(target[j] - measured[j]) > policy.trackingError ==>
        Exceeded(policy, target, measured);
    }
  }

  /** In an ordinary tick the interpolated pose resolves to the commanded one. */
  lemma TickCommands(c: Config, r: Run)
    requires Inv(c, r) && r.exec.Sending?
    ensures var points := r.exec.snapshot;
            var segment := Advance(points, r.exec.tickUs, r.exec.segment);
            points != [] && r.exec.segment < |points| && r.origin.Some? &&
            (segment + 1 < |points| <==> InTime(r)) &&
            (segment + 1 < |points| ==>
               Resolve(c, r.origin, Interpolate(points[segment], points[segment + 1], r.exec.tickUs)) ==
               Some(Commanded(c, r)))
  {
    hide BufferInv, ReceiptInv, CursorInv, TorqueInv, CompletionInv, SentInv, Interpolate, AllResolvedOk;
    InvParts(c, r);
    CursorIsNonNegative(c, r.points, r.cursorUs);
    TickSegment(c, r);
  }

  lemma OrdinaryEnds(c: Config, r: Run, segment: nat, measured: Option<Pose>, sendOk: bool, target: Pose, code: Code)
    requires r.exec.Sending? && segment + 1 < |r.exec.snapshot|
    requires Resolve(c, r.origin, Interpolate(r.exec.snapshot[segment], r.exec.snapshot[segment + 1], r.exec.tickUs)) ==
             Some(target)
    ensures var r' := SendInterpolated(c, r, segment, measured, sendOk);
            var missed := measured.Some? && Off(c.policy, target, measured.value);
            (r'.exec.Closing? <==> measured.None? || (missed && r.exec.violations >= 4) || !sendOk) &&
            (r'.exec.Closing? ==>
               r'.exec.outcome == Faulted &&
               r'.exec.code == Some(if missed && r.exec.violations >= 4 then TrackingError else HardwareFault))
  {
    hide Exceeded, Off, Interpolate;
    if measured.Some? { OffIsExceeded(c.policy, target, measured.value); }
  }

  lemma LastEnds(c: Config, r: Run, sendOk: bool)
    requires r.exec.Sending? && r.exec.snapshot != [] && r.origin.Some?
    ensures var r' := SendLast(c, r, sendOk);
            (r'.exec.Closing? <==> !sendOk) &&
            (r'.exec.Closing? ==> r'.exec.outcome == Faulted && r'.exec.code == Some(HardwareFault))
  {
  }

  /** A step that sends, by whether its time is within the snapshot. */
  lemma SendSplits(c: Config, r: Run, measured: Option<Pose>, sendOk: bool)
    requires Inv(c, r)
    ensures var r' := SendStep(c, r, measured, sendOk);
            if !r.exec.Sending? then r' == r
            else
              r.exec.snapshot != [] && r.origin.Some? &&
              (if InTime(r) then
                 var points := r.exec.snapshot;
                 var segment := Advance(points, r.exec.tickUs, r.exec.segment);
                 segment + 1 < |points| && r' == SendInterpolated(c, r, segment, measured, sendOk) &&
                 Resolve(c, r.origin, Interpolate(points[segment], points[segment + 1], r.exec.tickUs)) ==
                 Some(Commanded(c, r))
               else if r.exec.final then r' == SendLast(c, r, sendOk)
               else r' == FailWith(r, BufferUnderrun))
  {
    hide Inv, SendInterpolated, SendLast, Commanded, PositionAt, Interpolate, Resolve;
    if r.exec.Sending? { TickCommands(c, r); }
  }

  lemma SendCause(c: Config, r: Run, measured: Option<Pose>, sendOk: bool, code: Code)
    requires r.exec.Sending? && r.exec.snapshot != []
    ensures var missed := Missed(c, r, Send(measured, sendOk)) && r.exec.violations >= 4;
            Cause(c, r, Send(measured, sendOk), code) <==>
              match code
              case TrackingError => missed
              case BufferUnderrun => !InTime(r) && !r.exec.final
              case HardwareFault =>
                if InTime(r) then measured.None? || (!sendOk && !missed) else r.exec.final && !sendOk
              case _ => false
  {
    hide Commanded, Off;
  }

  lemma SendEnds(c: Config, r: Run, measured: Option<Pose>, sendOk: bool, code: Code)
    requires Inv(c, r) && !r.exec.Closing?
    ensures var r' := Step(c, r, Send(measured, sendOk));
            (EndsWith(r, r', Some(code)) <==> Cause(c, r, Send(measured, sendOk), code)) && !EndsWith(r, r', None) &&
            (r'.exec.Closing? ==> r'.exec.outcome == Faulted && r'.exec.code != Some(Cancelled))
  {
    hide Inv, Step, SendStep, SendInterpolated, SendLast, Commanded, Off, PositionAt, Interpolate, Resolve, Advance,
         Cause;
    SendIs(c, r, measured, sendOk);
    SendSplits(c, r, measured, sendOk);
    if !r.exec.Sending? {
      NotSendingCause(c, r, measured, sendOk, code);
    } else {
      SendCause(c, r, measured, sendOk, code);
      if InTime(r) {
        var segment := Advance(r.exec.snapshot, r.exec.tickUs, r.exec.segment);
        OrdinaryEnds(c, r, segment, measured, sendOk, Commanded(c, r), code);
      } else if r.exec.final {
        LastEnds(c, r, sendOk);
      }
    }
  }

  lemma NotSendingCause(c: Config, r: Run, measured: Option<Pose>, sendOk: bool, code: Code)
    requires !r.exec.Sending?
    ensures !Cause(c, r, Send(measured, sendOk), code)
  {
  }
}
