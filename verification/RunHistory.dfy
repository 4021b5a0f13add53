/** A v1 run seen from its history: which actions its origin, its targets and its faults
    come from (robot_server.py, `_execute`). */
module RunHistory {
  import opened Wrappers
  import opened Quintic
  import opened Protocol
  import opened Motion
  import opened RunModel
  import opened RunSafety
  import opened RunGuarantees

  /** The run after the first `n` actions. */
  ghost function At(c: Config, nowUs: int, actions: seq<Action>, n: nat): Run
    requires n <= |actions|
  {
    Execute(c, Initial(nowUs), actions[..n])
  }

  lemma {:induction false} ExecuteLast(c: Config, r: Run, actions: seq<Action>, a: Action)
    ensures Execute(c, r, actions + [a]) == Step(c, Execute(c, r, actions), a)
    decreases |actions|
  {
    hide Step;
    if actions == [] {
      FirstStep(c, r, a, []);
      NoSteps(c, Step(c, r, a));
      NoSteps(c, r);
      assert actions + [a] == [a] + [];
    } else {
      assert (actions + [a])[1..] == actions[1..] + [a];
      ExecuteLast(c, Step(c, r, actions[0]), actions[1..], a);
    }
  }

  lemma AtNext(c: Config, nowUs: int, actions: seq<Action>, n: nat)
    requires n < |actions|
    ensures At(c, nowUs, actions, n + 1) == Step(c, At(c, nowUs, actions, n), actions[n])
  {
    hide Execute, Step, Initial;
    assert actions[..n + 1] == actions[..n] + [actions[n]];
    ExecuteLast(c, Initial(nowUs), actions[..n], actions[n]);
  }

  lemma AtEnds(c: Config, nowUs: int, actions: seq<Action>)
    ensures At(c, nowUs, actions, 0) == Initial(nowUs)
    ensures At(c, nowUs, actions, |actions|) == Execute(c, Initial(nowUs), actions)
  {
    hide Execute, Step, Initial;
    assert actions[..0] == [] && actions[..|actions|] == actions;
    NoSteps(c, Initial(nowUs));
  }

  lemma AtIsGood(c: Config, nowUs: int, actions: seq<Action>, n: nat)
    requires n <= |actions|
    ensures Inv(c, At(c, nowUs, actions, n))
  {
    Reachable(c, nowUs, actions[..n]);
  }

  // ---------- the origin ----------

  /** Action `n` opened the bus and found the arm at `q`. */
  ghost predicate OpenedAt(c: Config, nowUs: int, actions: seq<Action>, n: nat, q: Pose) {
    n < |actions| && actions[n] == Open(Opened.Pose(q)) && At(c, nowUs, actions, n).exec.Opening?
  }

  lemma OriginStep(c: Config, r: Run, a: Action)
    requires Inv(c, r)
    ensures Step(c, r, a).origin == if r.exec.Opening? && a.Open? && a.bus.Pose? then Some(a.bus.q) else r.origin
  {
    hide Inv, Step;
    match a
    case Append(chunkSeq, points, final, digest) => AppendKeepsOrigin(c, r, chunkSeq, points, final, digest);
    case Open(bus) => OpenSetsOrigin(c, r, bus);
    case Check => CheckKeepsOrigin(c, r);
    case _ => OnlyCheckClears(c, r, a);
  }

  lemma AppendKeepsOrigin(c: Config, r: Run, chunkSeq: int, points: seq<Point>, final: bool, digest: string)
    ensures Step(c, r, Append(chunkSeq, points, final, digest)).origin == r.origin
  {
    hide AppendOutcome;
  }

  lemma OpenSetsOrigin(c: Config, r: Run, bus: Opened)
    ensures Step(c, r, Open(bus)).origin == if r.exec.Opening? && bus.Pose? then Some(bus.q) else r.origin
  {
  }

  lemma CheckKeepsOrigin(c: Config, r: Run)
    ensures Step(c, r, Check).origin == r.origin
  {
    hide StartPoseOk, AllResolvedOk;
  }

  lemma {:induction false} OriginWasMeasured(c: Config, nowUs: int, actions: seq<Action>, k: nat)
    requires k <= |actions| && At(c, nowUs, actions, k).origin.Some?
    ensures exists n: nat :: n < k && OpenedAt(c, nowUs, actions, n, At(c, nowUs, actions, k).origin.value)
  {
    hide Step, At, Initial;
    if k == 0 {
      AtEnds(c, nowUs, actions);
      NothingMeasured(nowUs);
    } else {
      AtNext(c, nowUs, actions, k - 1);
      var r := At(c, nowUs, actions, k - 1);
      AtIsGood(c, nowUs, actions, k - 1);
      OriginStep(c, r, actions[k - 1]);
      if At(c, nowUs, actions, k).origin == r.origin {
        OriginWasMeasured(c, nowUs, actions, k - 1);
      } else {
        assert OpenedAt(c, nowUs, actions, k - 1, At(c, nowUs, actions, k).origin.value);
      }
    }
  }

  lemma NothingMeasured(nowUs: int)
    ensures Initial(nowUs).origin.None?
  {
  }

  /** The origin of a run is the pose its bus reported on opening, in every history. */
  lemma OriginIsMeasured(c: Config, nowUs: int, actions: seq<Action>)
    requires Execute(c, Initial(nowUs), actions).origin.Some?
    ensures exists n: nat :: OpenedAt(c, nowUs, actions, n, Execute(c, Initial(nowUs), actions).origin.value)
  {
    hide Execute, Initial, OpenedAt;
    AtEnds(c, nowUs, actions);
    OriginWasMeasured(c, nowUs, actions, |actions|);
    var q := Execute(c, Initial(nowUs), actions).origin.value;
    var n: nat :| n < |actions| && OpenedAt(c, nowUs, actions, n, q);
  }

  /** Every target is the trajectory's own pose at its time, moved by the pose the bus
      reported in relative mode, and within the limits; and it lies no further from that
      reported pose than the start tolerance and the velocity limit allow together. */
  lemma TargetFromMeasuredPose(c: Config, nowUs: int, actions: seq<Action>, i: nat, j: nat) returns (n: nat, q: Pose)
    requires i < |Execute(c, Initial(nowUs), actions).sent| && j < JOINT_COUNT
    ensures OpenedAt(c, nowUs, actions, n, q)
    ensures var r := Execute(c, Initial(nowUs), actions);
            var t := r.sent[i].tUs;
            r.points != [] && 0 <= t <= EndUs(r.points) &&
            r.sent[i].q[j] == PositionAt(r.points, t)[j] + (if c.header.mode.RelativeDeg? then q[j] else 0.0) &&
            Abs(r.sent[i].q[j] - q[j]) <= StartSlack(c) + Reach(c.policy.maxVelocity, t)
  {
    hide Execute, Initial, OpenedAt, PositionAt, Reach, StartSlack;
    var r := Execute(c, Initial(nowUs), actions);
    TargetNearStart(c, nowUs, actions, i, j);
    OriginIsMeasured(c, nowUs, actions);
    q := r.origin.value;
    n :| OpenedAt(c, nowUs, actions, n, q);
    Reachable(c, nowUs, actions);
    TargetOf(c, r, i, j);
  }

  lemma TargetOf(c: Config, r: Run, i: nat, j: nat)
    requires Inv(c, r) && i < |r.sent| && j < JOINT_COUNT && r.origin.Some?
    ensures r.points != [] && 0 <= r.sent[i].tUs <= EndUs(r.points)
    ensures r.sent[i].q[j] ==
            PositionAt(r.points, r.sent[i].tUs)[j] + (if c.header.mode.RelativeDeg? then r.origin.value[j] else 0.0)
  {
    hide BufferInv, ReceiptInv, CursorInv, ControlInv, TorqueInv, TickInv, CompletionInv, PositionAt;
    assert SentOk(c, r.points, r.origin, r.sent[i]);
  }

  // ---------- the time of a tick ----------

  /** Action `m` entered the loop at time `s`. */
  ghost predicate EnteredAt(c: Config, nowUs: int, actions: seq<Action>, m: nat, s: int) {
    m < |actions| && actions[m] == EnterRunning(s) && At(c, nowUs, actions, m).exec.Enabled? &&
    At(c, nowUs, actions, m).clockUs <= s
  }

  /** Action `n` began a tick at time `now`. */
  ghost predicate BeganAt(c: Config, nowUs: int, actions: seq<Action>, n: nat, now: int) {
    n < |actions| && actions[n] == BeginTick(now) && At(c, nowUs, actions, n).exec.Top? &&
    At(c, nowUs, actions, n).clockUs <= now && !At(c, nowUs, actions, n).stop
  }

  /** Before action `k` the executor is in the middle of the tick that action `n` began, in
      the loop entered at time `s`. */
  ghost predicate InTick(c: Config, nowUs: int, actions: seq<Action>, k: nat, s: int, n: nat, now: int) {
    n < k <= |actions| && BeganAt(c, nowUs, actions, n, now) &&
    (exists m: nat :: m < n && EnteredAt(c, nowUs, actions, m, s)) &&
    forall i: nat :: n < i <= k ==> MidTick(At(c, nowUs, actions, i).exec)
  }

  ghost predicate Entered(c: Config, nowUs: int, actions: seq<Action>, k: nat, s: int) {
    exists m: nat :: m < k && EnteredAt(c, nowUs, actions, m, s)
  }

  /** What the executor's local times are. */
  ghost predicate TimeInv(c: Config, nowUs: int, actions: seq<Action>, k: nat)
    requires k <= |actions|
  {
    match At(c, nowUs, actions, k).exec
    case Top(s, _, _) => Entered(c, nowUs, actions, k, s)
    case Beating(s, now, _, _) => exists n: nat :: InTick(c, nowUs, actions, k, s, n, now)
    case Snapping(s, t, _, _) => exists n: nat, now :: InTick(c, nowUs, actions, k, s, n, now) && t == Max(0, now - s)
    case Sending(s, t, _, _, _, _) =>
      exists n: nat, now :: InTick(c, nowUs, actions, k, s, n, now) && t == Max(0, now - s)
    case Committing(s, _, _, _) => Entered(c, nowUs, actions, k, s)
    case _ => true
  }

  /** What one step does to the executor's local times. */
  ghost predicate TimeStep(r: Run, a: Action, e: Executor) {
    match e
    case Top(s, _, _) =>
      (a == EnterRunning(s) && r.exec.Enabled? && r.clockUs <= s) || (r.exec.Top? && r.exec.startedUs == s) ||
      (r.exec.Committing? && r.exec.startedUs == s)
    case Beating(s, now, _, _) =>
      (a == BeginTick(now) && r.exec.Top? && r.exec.startedUs == s && r.clockUs <= now && !r.stop) || r.exec == e
    case Snapping(s, t, _, _) =>
      (r.exec.Beating? && r.exec.startedUs == s && t == Max(0, r.exec.nowUs - s)) || r.exec == e
    case Sending(s, t, _, _, _, _) => (r.exec.Snapping? && r.exec.startedUs == s && t == r.exec.tickUs) || r.exec == e
    case Committing(s, _, _, _) => (r.exec.Sending? && r.exec.startedUs == s) || r.exec == e
    case _ => true
  }

  lemma TimesStep(c: Config, r: Run, a: Action)
    ensures TimeStep(r, a, Step(c, r, a).exec)
  {
    hide Step, TimeStep;
    match a
    case Append(chunkSeq, points, final, digest) => AppendTimes(c, r, chunkSeq, points, final, digest);
    case Send(measured, sendOk) =>
      SendIs(c, r, measured, sendOk);
      SendTimes(c, r, measured, sendOk);
    case Start => StartTimes(c, r);
    case Check => CheckTimes(c, r);
    case BeginTick(_) => LoopTimes(c, r, a);
    case CheckHeartbeat => LoopTimes(c, r, a);
    case TakeSnapshot => LoopTimes(c, r, a);
    case Commit(_) => LoopTimes(c, r, a);
    case HoldThenClose(_, _) => EndTimes(c, r, a);
    case Finish => EndTimes(c, r, a);
    case EnterRunning(_) => EndTimes(c, r, a);
    case _ => CallTimes(c, r, a);
  }

  lemma AppendTimes(c: Config, r: Run, chunkSeq: int, points: seq<Point>, final: bool, digest: string)
    ensures var a := Append(chunkSeq, points, final, digest); TimeStep(r, a, Step(c, r, a).exec)
  {
    hide AppendStep;
    AppendEffect(c, r, chunkSeq, points, final, digest);
  }

  lemma LoopTimes(c: Config, r: Run, a: Action)
    requires a.BeginTick? || a.CheckHeartbeat? || a.TakeSnapshot? || a.Commit?
    ensures TimeStep(r, a, Step(c, r, a).exec)
  {
    hide TimeStep, BeginTickStep, CheckHeartbeatStep, TakeSnapshotStep, CommitStep;
    match a
    case BeginTick(nowUs) => BeginTimes(r, nowUs);
    case CheckHeartbeat => HeartbeatTimes(c, r);
    case TakeSnapshot => SnapshotTimes(r);
    case Commit(overrun) => CommitTimes(r, overrun);
  }

  lemma BeginTimes(r: Run, nowUs: int)
    ensures TimeStep(r, BeginTick(nowUs), BeginTickStep(r, nowUs).exec)
  {
  }

  lemma HeartbeatTimes(c: Config, r: Run)
    ensures TimeStep(r, CheckHeartbeat, CheckHeartbeatStep(c, r).exec)
  {
    hide HeartbeatLapsed;
  }

  lemma SnapshotTimes(r: Run)
    ensures TimeStep(r, TakeSnapshot, TakeSnapshotStep(r).exec)
  {
  }

  lemma CommitTimes(r: Run, overrun: bool)
    ensures TimeStep(r, Commit(overrun), CommitStep(r, overrun).exec)
  {
  }

  lemma EndTimes(c: Config, r: Run, a: Action)
    requires a.HoldThenClose? || a.Finish? || a.EnterRunning?
    ensures TimeStep(r, a, Step(c, r, a).exec)
  {
  }

  lemma CallTimes(c: Config, r: Run, a: Action)
    requires a.Heartbeat? || a.RequestStop? || a.ConnectionLost? || a.Open? || a.StopGate? || a.Enable?
    ensures TimeStep(r, a, Step(c, r, a).exec)
  {
    hide TimeStep, OpenStep, GateStep, EnableStep, HeartbeatStep, StopStep, ConnectionLostStep;
    match a
    case Open(bus) => OpenTimes(r, bus);
    case StopGate => GateTimes(r);
    case Enable(ok, leftHot) => EnableTimes(r, ok, leftHot);
    case Heartbeat(nowUs) => NetworkTimes(r, a, HeartbeatStep(r, nowUs).exec) by { NetworkExec(r, nowUs); }
    case RequestStop => NetworkTimes(r, a, StopStep(r).exec) by { NetworkExec(r, 0); }
    case ConnectionLost => NetworkTimes(r, a, ConnectionLostStep(r).exec) by { NetworkExec(r, 0); }
  }

  lemma OpenTimes(r: Run, bus: Opened)
    ensures TimeStep(r, Open(bus), OpenStep(r, bus).exec)
  {
  }

  lemma GateTimes(r: Run)
    ensures TimeStep(r, StopGate, GateStep(r).exec)
  {
  }

  lemma EnableTimes(r: Run, ok: bool, leftHot: bool)
    ensures TimeStep(r, Enable(ok, leftHot), EnableStep(r, ok, leftHot).exec)
  {
  }

  /** The calls of the network side leave the executor where it is. */
  lemma NetworkExec(r: Run, nowUs: int)
    ensures HeartbeatStep(r, nowUs).exec == StopStep(r).exec == ConnectionLostStep(r).exec == r.exec
  {
  }

  lemma NetworkTimes(r: Run, a: Action, e: Executor)
    requires e == r.exec
    ensures TimeStep(r, a, e)
  {
  }

  lemma SendTimes(c: Config, r: Run, measured: Option<Pose>, sendOk: bool)
    ensures TimeStep(r, Send(measured, sendOk), SendStep(c, r, measured, sendOk).exec)
  {
    hide SendStep;
  }

  lemma StartTimes(c: Config, r: Run)
    ensures TimeStep(r, Start, Step(c, r, Start).exec)
  {
    hide StartVerdict;
  }

  lemma CheckTimes(c: Config, r: Run)
    ensures TimeStep(r, Check, Step(c, r, Check).exec)
  {
    hide StartPoseOk, AllResolvedOk;
  }

  lemma StaysInTick(c: Config, nowUs: int, actions: seq<Action>, k: nat, s: int, n: nat, now: int)
    requires k < |actions| && InTick(c, nowUs, actions, k, s, n, now) && MidTick(At(c, nowUs, actions, k + 1).exec)
    ensures InTick(c, nowUs, actions, k + 1, s, n, now)
  {
    hide At, EnteredAt, BeganAt;
  }

  lemma TickBegins(c: Config, nowUs: int, actions: seq<Action>, k: nat, s: int, now: int)
    requires k < |actions| && Entered(c, nowUs, actions, k, s) && BeganAt(c, nowUs, actions, k, now)
    requires MidTick(At(c, nowUs, actions, k + 1).exec)
    ensures InTick(c, nowUs, actions, k + 1, s, k, now)
  {
    hide At, EnteredAt, BeganAt;
  }

  lemma TickEntered(c: Config, nowUs: int, actions: seq<Action>, k: nat, s: int, n: nat, now: int)
    requires k < |actions| && InTick(c, nowUs, actions, k, s, n, now)
    ensures Entered(c, nowUs, actions, k + 1, s)
  {
    hide At, EnteredAt, BeganAt;
  }

  lemma EnteredLasts(c: Config, nowUs: int, actions: seq<Action>, k: nat)
    ensures forall s :: Entered(c, nowUs, actions, k, s) ==> Entered(c, nowUs, actions, k + 1, s)
    ensures forall s :: EnteredAt(c, nowUs, actions, k, s) ==> Entered(c, nowUs, actions, k + 1, s)
  {
    hide EnteredAt;
  }

  lemma TimeInvNext(c: Config, nowUs: int, actions: seq<Action>, k: nat)
    requires k < |actions| && TimeInv(c, nowUs, actions, k)
    ensures TimeInv(c, nowUs, actions, k + 1)
  {
    hide At, Step, InTick, Entered;
    var r, r' := At(c, nowUs, actions, k), At(c, nowUs, actions, k + 1);
    AtNext(c, nowUs, actions, k);
    TimesStep(c, r, actions[k]);
    EnteredLasts(c, nowUs, actions, k);
    match r'.exec
    case Top(s, _, _) => assert EnteredAt(c, nowUs, actions, k, s) || Entered(c, nowUs, actions, k, s);
    case Beating(s, now, _, _) =>
      if r.exec == r'.exec {
        var n: nat :| InTick(c, nowUs, actions, k, s, n, now);
        StaysInTick(c, nowUs, actions, k, s, n, now);
      } else {
        TickBegins(c, nowUs, actions, k, s, now);
      }
    case Snapping(s, t, _, _) =>
      if r.exec == r'.exec {
        var n: nat, now :| InTick(c, nowUs, actions, k, s, n, now) && t == Max(0, now - s);
        StaysInTick(c, nowUs, actions, k, s, n, now);
      } else {
        var n: nat :| InTick(c, nowUs, actions, k, s, n, r.exec.nowUs);
        StaysInTick(c, nowUs, actions, k, s, n, r.exec.nowUs);
      }
    case Sending(s, t, _, _, _, _) =>
      var n: nat, now :| InTick(c, nowUs, actions, k, s, n, now) && t == Max(0, now - s);
      StaysInTick(c, nowUs, actions, k, s, n, now);
    case Committing(s, _, _, _) =>
      if r.exec.Sending? {
        var n: nat, now :| InTick(c, nowUs, actions, k, s, n, now) && r.exec.tickUs == Max(0, now - s);
        TickEntered(c, nowUs, actions, k, s, n, now);
      }
    case _ =>
  }

  lemma {:induction false} AlwaysTimed(c: Config, nowUs: int, actions: seq<Action>, k: nat)
    requires k <= |actions|
    ensures TimeInv(c, nowUs, actions, k)
    decreases k
  {
    hide At, TimeInv;
    if k == 0 {
      AtEnds(c, nowUs, actions);
      NothingTimed(c, nowUs, actions);
    } else {
      AlwaysTimed(c, nowUs, actions, k - 1);
      TimeInvNext(c, nowUs, actions, k - 1);
    }
  }

  lemma NothingTimed(c: Config, nowUs: int, actions: seq<Action>)
    requires At(c, nowUs, actions, 0) == Initial(nowUs)
    ensures TimeInv(c, nowUs, actions, 0)
  {
    hide At;
  }

  // ---------- every target belongs to a tick ----------

  /** Only a send sends: what the new target's time is. */
  lemma SendStepTime(c: Config, r: Run, a: Action)
    requires Inv(c, r) && Step(c, r, a).sent != r.sent
    ensures a.Send? && r.exec.Sending? && |Step(c, r, a).sent| == |r.sent| + 1 && r.sent <= Step(c, r, a).sent
    ensures var t, points := Step(c, r, a).sent[|r.sent|].tUs, r.exec.snapshot;
            points != [] && points <= r.points &&
            (if r.exec.tickUs <= EndUs(points) then t == r.exec.tickUs
             else r.exec.final && points == r.points && t == EndUs(points))
  {
    hide Inv, Step;
    if a.Send? {
      SendIs(c, r, a.measured, a.sendOk);
      SendTime(c, r, a.measured, a.sendOk);
    } else {
      QuietStep(c, r, a);
    }
  }

  lemma SendTime(c: Config, r: Run, measured: Option<Pose>, sendOk: bool)
    requires Inv(c, r) && SendStep(c, r, measured, sendOk).sent != r.sent
    ensures var r' := SendStep(c, r, measured, sendOk);
            r.exec.Sending? && |r'.sent| == |r.sent| + 1 && r.sent <= r'.sent &&
            var t, points := r'.sent[|r.sent|].tUs, r.exec.snapshot;
            points != [] && points <= r.points &&
            (if r.exec.tickUs <= EndUs(points) then t == r.exec.tickUs
             else r.exec.final && points == r.points && t == EndUs(points))
  {
    hide Inv, BufferInv, ReceiptInv, CursorInv, ControlInv, TorqueInv, CompletionInv, SentInv, SendInterpolated,
         SendLast, TickEnds;
    InvParts(c, r);
    CursorIsNonNegative(c, r.points, r.cursorUs);
    TickSegment(c, r);
    var segment := Advance(r.exec.snapshot, r.exec.tickUs, r.exec.segment);
    if segment + 1 < |r.exec.snapshot| {
      InterpolatedTime(c, r, segment, measured, sendOk);
    } else if r.exec.final && r.exec.tickUs >= EndUs(r.exec.snapshot) {
      LastTime(c, r, sendOk);
    }
  }

  lemma SendIs(c: Config, r: Run, measured: Option<Pose>, sendOk: bool)
    ensures Step(c, r, Send(measured, sendOk)) == SendStep(c, r, measured, sendOk)
  {
  }

  lemma InterpolatedTime(c: Config, r: Run, segment: nat, measured: Option<Pose>, sendOk: bool)
    requires r.exec.Sending? && segment + 1 < |r.exec.snapshot|
    ensures var sent := SendInterpolated(c, r, segment, measured, sendOk).sent;
            sent == r.sent || (|sent| == |r.sent| + 1 && r.sent <= sent && sent[|r.sent|].tUs == r.exec.tickUs)
  {
    hide Resolve, Interpolate, Exceeded;
  }

  lemma LastTime(c: Config, r: Run, sendOk: bool)
    requires r.exec.Sending? && r.exec.snapshot != []
    ensures var sent := SendLast(c, r, sendOk).sent;
            sent == r.sent || (|sent| == |r.sent| + 1 && r.sent <= sent && sent[|r.sent|].tUs == EndUs(r.exec.snapshot))
  {
    hide Resolve;
  }

  lemma QuietStep(c: Config, r: Run, a: Action)
    requires !a.Send?
    ensures Step(c, r, a).sent == r.sent
  {
    hide StartStep, HeartbeatStep, StopStep, ConnectionLostStep, OpenStep, CheckStep, GateStep, EnableStep,
         EnterRunningStep, BeginTickStep, CheckHeartbeatStep, TakeSnapshotStep, CloseStep, FinishStep, AppendStep,
         SendStep;
    if a.Append? { AppendEffect(c, r, a.chunkSeq, a.points, a.final, a.digest); }
  }

  /** Action `z` sent target number `i`, in a tick begun by action `n` at time `now` of the
      loop entered at time `s`: the target's time is the time since the loop was entered,
      or the end of the whole program when that is past. */
  ghost predicate SentInTick(c: Config, nowUs: int, actions: seq<Action>, i: nat, z: nat, s: int, n: nat, now: int) {
    z < |actions| && actions[z].Send? && InTick(c, nowUs, actions, z, s, n, now) &&
    var r, r' := At(c, nowUs, actions, z), At(c, nowUs, actions, z + 1);
    |r.sent| == i && |r'.sent| == i + 1 && r.points != [] &&
    var t := Max(0, now - s);
    (if t <= EndUs(r.points) then r'.sent[i].tUs == t
     else r.finalReceived && r'.sent[i].tUs == EndUs(r.points))
  }

  lemma ThisSend(c: Config, nowUs: int, actions: seq<Action>, z: nat)
    requires z < |actions| && At(c, nowUs, actions, z + 1).sent != At(c, nowUs, actions, z).sent
    ensures var i := |At(c, nowUs, actions, z).sent|;
            |At(c, nowUs, actions, z + 1).sent| == i + 1 &&
            At(c, nowUs, actions, z).sent <= At(c, nowUs, actions, z + 1).sent &&
            exists s, n: nat, now :: SentInTick(c, nowUs, actions, i, z, s, n, now)
  {
    hide At, Step, InTick, Inv;
    var r := At(c, nowUs, actions, z);
    AtNext(c, nowUs, actions, z);
    AtIsGood(c, nowUs, actions, z);
    SendStepTime(c, r, actions[z]);
    AlwaysTimed(c, nowUs, actions, z);
    var n: nat, now :| InTick(c, nowUs, actions, z, r.exec.startedUs, n, now) &&
      r.exec.tickUs == Max(0, now - r.exec.startedUs);
    SnapshotEnd(c, r);
    assert SentInTick(c, nowUs, actions, |r.sent|, z, r.exec.startedUs, n, now);
  }

  /** The snapshot ends no later than the buffer. */
  lemma SnapshotEnd(c: Config, r: Run)
    requires Inv(c, r) && r.exec.Sending?
    ensures r.exec.snapshot != [] && r.points != [] && EndUs(r.exec.snapshot) <= EndUs(r.points)
    ensures r.exec.final ==> r.finalReceived && r.exec.snapshot == r.points
  {
    hide ReceiptInv, CursorInv, ControlInv, TorqueInv, CompletionInv, SentInv;
    LaterIsLater(c.policy, r.points, |r.exec.snapshot| - 1, |r.points| - 1);
  }

  lemma {:induction false} SentSince(c: Config, nowUs: int, actions: seq<Action>, k: nat, i: nat)
    requires k <= |actions| && i < |At(c, nowUs, actions, k).sent|
    ensures exists z: nat, s, n: nat, now ::
              z < k && SentInTick(c, nowUs, actions, i, z, s, n, now) && i < |At(c, nowUs, actions, z + 1).sent| &&
              At(c, nowUs, actions, z + 1).sent[i] == At(c, nowUs, actions, k).sent[i]
    decreases k
  {
    hide At, SentInTick, Step;
    if k == 0 {
      AtEnds(c, nowUs, actions);
      NothingSent(nowUs);
    } else {
      var r, r' := At(c, nowUs, actions, k - 1), At(c, nowUs, actions, k);
      if r'.sent == r.sent {
        SentSince(c, nowUs, actions, k - 1, i);
      } else {
        ThisSend(c, nowUs, actions, k - 1);
        if i < |r.sent| {
          SentSince(c, nowUs, actions, k - 1, i);
        } else {
          var s, n: nat, now :| SentInTick(c, nowUs, actions, i, k - 1, s, n, now);
        }
      }
    }
  }

  lemma NothingSent(nowUs: int)
    ensures Initial(nowUs).sent == []
  {
  }

  /** In every history each target was sent by a send action of a tick that a BeginTick
      action began, and its trajectory time is that action's clock time less the time the
      loop was entered, or the end of the complete program once that is past. */
  lemma TargetBelongsToTick(c: Config, nowUs: int, actions: seq<Action>, i: nat)
    returns (z: nat, s: int, n: nat, now: int)
    requires i < |Execute(c, Initial(nowUs), actions).sent|
    ensures SentInTick(c, nowUs, actions, i, z, s, n, now) && i < |At(c, nowUs, actions, z + 1).sent|
    ensures At(c, nowUs, actions, z + 1).sent[i] == Execute(c, Initial(nowUs), actions).sent[i]
  {
    hide At, SentInTick, Execute, Initial;
    AtEnds(c, nowUs, actions);
    SentSince(c, nowUs, actions, |actions|, i);
    z, s, n, now :|
      z < |actions| && SentInTick(c, nowUs, actions, i, z, s, n, now) && i < |At(c, nowUs, actions, z + 1).sent| &&
      At(c, nowUs, actions, z + 1).sent[i] == At(c, nowUs, actions, |actions|).sent[i];
  }
}
