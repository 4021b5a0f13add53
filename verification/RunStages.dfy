/** What moves a v1 run from stage to stage, and what its clocks and counters hold
    (robot_server.py, ProgramRun). */
module RunStages {
  import opened Wrappers
  import opened Protocol
  import opened Motion
  import opened RunModel
  import opened RunSafety
  import opened RunGuarantees
  import opened RunHistory
  import opened RunCauses

  // ---------- starting, stopping, arming ----------

  /** A run begins to arm exactly on a start request of a buffering run with at least two
      points that is complete or, when streaming, filled up to the start buffer. */
  lemma StartsExactly(c: Config, r: Run, a: Action)
    requires !r.exec.Opening?
    ensures Step(c, r, a).exec.Opening? <==>
              a.Start? && r.state.Buffering? && 2 <= |r.points| &&
              (r.finalReceived || (c.runMode.Streaming? && c.policy.startBufferUs <= EndUs(r.points)))
    ensures Step(c, r, a).exec.Opening? ==> Step(c, r, a).state.Arming?
  {
    hide AppendStep, SendStep, CheckStep, HeartbeatLapsed;
    match a
    case Append(chunkSeq, points, final, digest) => AppendEffect(c, r, chunkSeq, points, final, digest);
    case Send(measured, sendOk) => SendIsNoStart(c, r, measured, sendOk);
    case Check => CheckIsNoStart(c, r);
    case _ =>
  }

  lemma SendIsNoStart(c: Config, r: Run, measured: Option<Pose>, sendOk: bool)
    requires !r.exec.Opening?
    ensures !SendStep(c, r, measured, sendOk).exec.Opening?
  {
    hide SendStep;
  }

  lemma CheckIsNoStart(c: Config, r: Run)
    requires !r.exec.Opening?
    ensures !CheckStep(c, r).exec.Opening?
  {
    hide StartPoseOk, AllResolvedOk;
  }

  /** The stop request is raised exactly by a stop call or by losing the connection while
      arming, and nothing ever withdraws it. */
  lemma StopsExactly(c: Config, r: Run, a: Action)
    ensures Step(c, r, a).stop <==> r.stop || a.RequestStop? || (a.ConnectionLost? && r.state.Arming?)
  {
    hide StartStep, HeartbeatStep, OpenStep, CheckStep, GateStep, EnableStep, EnterRunningStep, BeginTickStep,
         CheckHeartbeatStep, TakeSnapshotStep, CloseStep, FinishStep, AppendStep, SendStep;
    match a
    case Append(chunkSeq, points, final, digest) => AppendEffect(c, r, chunkSeq, points, final, digest);
    case RequestStop =>
    case ConnectionLost =>
    case Send(_, _) =>
    case Commit(_) =>
    case _ => OnlyStopsStop(c, r, a);
  }

  /** The executor's own steps, checks and calls leave the stop request alone. */
  lemma OnlyStopsStop(c: Config, r: Run, a: Action)
    requires !a.Append? && !a.RequestStop? && !a.ConnectionLost? && !a.Send? && !a.Commit?
    ensures Step(c, r, a).stop == r.stop
  {
    hide StartVerdict, StartPoseOk, AllResolvedOk, BeginTickStep, CheckHeartbeatStep, TakeSnapshotStep, CommitStep;
    if a.BeginTick? || a.CheckHeartbeat? || a.TakeSnapshot? { LoopKeeps(c, r, a); }
  }

  /** What a tick outside its send leaves alone. */
  predicate TickKeeps(r: Run, r': Run) {
    r'.state == r.state && r'.stop == r.stop && r'.torque == r.torque && r'.attached == r.attached && r'.hot == r.hot &&
    (r'.exec.Enabling? <==> r.exec.Enabling?)
  }

  lemma LoopKeeps(c: Config, r: Run, a: Action)
    requires a.BeginTick? || a.CheckHeartbeat? || a.TakeSnapshot? || a.Commit?
    ensures TickKeeps(r, Step(c, r, a))
  {
    hide TickKeeps, BeginTickStep, CheckHeartbeatStep, TakeSnapshotStep, CommitStep;
    match a
    case BeginTick(nowUs) => BeginKeeps(r, nowUs);
    case CheckHeartbeat => HeartbeatKeeps(c, r);
    case TakeSnapshot => SnapshotKeeps(r);
    case Commit(overrun) => CommitKeeps(r, overrun);
  }

  lemma BeginKeeps(r: Run, nowUs: int)
    ensures TickKeeps(r, BeginTickStep(r, nowUs))
  {
  }

  lemma HeartbeatKeeps(c: Config, r: Run)
    ensures TickKeeps(r, CheckHeartbeatStep(c, r))
  {
    hide HeartbeatLapsed;
  }

  lemma SnapshotKeeps(r: Run)
    ensures TickKeeps(r, TakeSnapshotStep(r))
  {
  }

  lemma CommitKeeps(r: Run, overrun: bool)
    ensures TickKeeps(r, CommitStep(r, overrun))
  {
  }

  /** Torque goes on exactly when the backend has enabled it at the gate's far side, and off
      exactly when a close returns; and the backend is held, and the motors energised,
      exactly as the calls on it say. */
  lemma TorqueExactly(c: Config, r: Run, a: Action)
    requires Inv(c, r)
    ensures Step(c, r, a).torque <==>
              (a.Enable? && a.ok && r.exec.Enabling?) ||
              (r.torque && !(a.HoldThenClose? && a.ok && r.exec.Closing? && r.attached))
    ensures Step(c, r, a).exec.Enabling? <==>
              (a.StopGate? && r.exec.AtStopGate? && !r.stop) || (r.exec.Enabling? && !a.Enable?)
    ensures BackendStep(r, a, Step(c, r, a))
  {
    hide Inv, Step, BackendStep;
    match a
    case Start => StartKeepsTorque(c, r);
    case Append(chunkSeq, points, final, digest) => AppendKeepsTorque(c, r, chunkSeq, points, final, digest);
    case Send(measured, sendOk) =>
      SendIs(c, r, measured, sendOk);
      SendKeepsTorque(c, r, measured, sendOk);
    case Check => CheckKeepsTorque(c, r);
    case Open(_) => ArmTorque(c, r, a);
    case StopGate => ArmTorque(c, r, a);
    case Enable(_, _) => ArmTorque(c, r, a);
    case EnterRunning(_) => ArmTorque(c, r, a);
    case BeginTick(_) => LoopTorque(c, r, a);
    case CheckHeartbeat => LoopTorque(c, r, a);
    case TakeSnapshot => LoopTorque(c, r, a);
    case Commit(_) => LoopTorque(c, r, a);
    case _ => CallTorque(c, r, a);
  }

  predicate TorqueStep(r: Run, a: Action, r': Run) {
    BackendStep(r, a, r') &&
    (r'.torque <==>
       (a.Enable? && a.ok && r.exec.Enabling?) ||
       (r.torque && !(a.HoldThenClose? && a.ok && r.exec.Closing? && r.attached))) &&
    (r'.exec.Enabling? <==> (a.StopGate? && r.exec.AtStopGate? && !r.stop) || (r.exec.Enabling? && !a.Enable?))
  }

  /** The run holds a backend exactly from the opening that created one to the next close,
      and the motors are energised exactly as its last call on it left them. */
  predicate BackendStep(r: Run, a: Action, r': Run) {
    (r'.attached <==>
       (a.Open? && r.exec.Opening? && !a.bus.NoBackend?) || (r.attached && !(a.HoldThenClose? && r.exec.Closing?))) &&
    r'.hot == if a.Enable? && r.exec.Enabling? then a.ok || a.leftHot
              else if a.HoldThenClose? && r.exec.Closing? && r.attached then a.leftHot
              else r.hot
  }

  lemma ArmTorque(c: Config, r: Run, a: Action)
    requires a.Open? || a.StopGate? || a.Enable? || a.EnterRunning?
    ensures TorqueStep(r, a, Step(c, r, a))
  {
  }

  lemma LoopTorque(c: Config, r: Run, a: Action)
    requires a.BeginTick? || a.CheckHeartbeat? || a.TakeSnapshot? || a.Commit?
    ensures TorqueStep(r, a, Step(c, r, a))
  {
    hide Step;
    LoopKeeps(c, r, a);
  }

  lemma CallTorque(c: Config, r: Run, a: Action)
    requires a.Heartbeat? || a.RequestStop? || a.ConnectionLost? || a.HoldThenClose? || a.Finish?
    ensures TorqueStep(r, a, Step(c, r, a))
  {
  }

  lemma StartKeepsTorque(c: Config, r: Run)
    requires Inv(c, r)
    ensures TorqueStep(r, Start, Step(c, r, Start))
  {
    hide BufferInv, ReceiptInv, CursorInv, TorqueInv, TickInv, CompletionInv, SentInv, AllResolvedOk;
  }

  lemma AppendKeepsTorque(c: Config, r: Run, chunkSeq: int, points: seq<Point>, final: bool, digest: string)
    ensures var a := Append(chunkSeq, points, final, digest); TorqueStep(r, a, Step(c, r, a))
  {
    hide AppendOutcome;
  }

  lemma SendKeepsTorque(c: Config, r: Run, measured: Option<Pose>, sendOk: bool)
    ensures TorqueStep(r, Send(measured, sendOk), SendStep(c, r, measured, sendOk))
  {
    hide SendStep;
  }

  lemma CheckKeepsTorque(c: Config, r: Run)
    ensures TorqueStep(r, Check, Step(c, r, Check))
  {
    hide StartPoseOk, AllResolvedOk;
  }

  /** Whatever has started arming had its whole program, or a filled start buffer. */
  ghost predicate StartedReady(c: Config, r: Run) {
    r.exec.Idle? || r.finalReceived || (c.runMode.Streaming? && c.policy.startBufferUs <= EndUs(r.points))
  }

  lemma ReadyKeeps(c: Config, r: Run, a: Action)
    requires Inv(c, r) && StartedReady(c, r)
    ensures StartedReady(c, Step(c, r, a))
  {
    hide Inv, Step;
    StepOnlyGrows(c, r, a);
    StepKeeps(c, r, a);
    EndOnlyGrows(c, r, Step(c, r, a));
    if r.finalReceived { FinalStays(c, r, a); }
    if r.exec.Idle? && !Step(c, r, a).exec.Idle? { LeavesIdle(c, r, a); }
  }

  lemma EndOnlyGrows(c: Config, r: Run, r': Run)
    requires Inv(c, r) && Inv(c, r') && r.points <= r'.points
    ensures EndUs(r.points) <= EndUs(r'.points)
  {
    hide ReceiptInv, ControlInv, TorqueInv, TickInv, CompletionInv, SentInv;
    if r.points != [] { LaterIsLater(c.policy, r'.points, |r.points| - 1, |r'.points| - 1); }
  }

  lemma FinalStays(c: Config, r: Run, a: Action)
    requires r.finalReceived
    ensures Step(c, r, a).finalReceived
  {
    hide StartVerdict, StartPoseOk, AllResolvedOk, HeartbeatLapsed, SendStep, AppendVerdict, AvailableHorizonUs;
    if a.Append? { FinalRefuses(c, r, a.chunkSeq, a.points, a.final); }
  }

  lemma FinalRefuses(c: Config, r: Run, chunkSeq: int, points: seq<Point>, final: bool)
    requires r.finalReceived
    ensures AppendVerdict(c, r, chunkSeq, points, final).Fail?
  {
    hide ScanVerdict;
  }

  lemma LeavesIdle(c: Config, r: Run, a: Action)
    requires r.exec.Idle? && !Step(c, r, a).exec.Idle?
    ensures a.Start? && (r.finalReceived || (c.runMode.Streaming? && c.policy.startBufferUs <= EndUs(r.points)))
    ensures Step(c, r, a).points == r.points && Step(c, r, a).finalReceived == r.finalReceived
  {
    hide AppendStep, SendStep;
    if a.Append? { AppendEffect(c, r, a.chunkSeq, a.points, a.final, a.digest); }
  }

  /** In every history, a run that was ever started has its whole program when sealed, and
      at least the start buffer when streaming. */
  lemma {:induction false} AlwaysReady(c: Config, r: Run, actions: seq<Action>)
    requires Inv(c, r) && StartedReady(c, r)
    ensures StartedReady(c, Execute(c, r, actions))
    decreases |actions|
  {
    hide Inv, Step, StartedReady;
    if actions != [] {
      ReadyKeeps(c, r, actions[0]);
      StepKeeps(c, r, actions[0]);
      AlwaysReady(c, Step(c, r, actions[0]), actions[1..]);
    }
  }

  /** The executor has not passed the stop gate, or is already winding down unarmed. */
  predicate BeforeGate(r: Run) {
    !r.torque && r.sent == [] &&
    (r.exec.Idle? || r.exec.Opening? || r.exec.Checking? || r.exec.AtStopGate? || Winding(r.exec) || r.exec.Done?)
  }

  lemma GateStays(c: Config, r: Run, a: Action)
    requires Inv(c, r) && r.stop && BeforeGate(r)
    ensures BeforeGate(Step(c, r, a)) && Step(c, r, a).stop
  {
    hide Inv, Step;
    StopsExactly(c, r, a);
    TorqueExactly(c, r, a);
    QuietStep(c, r, if a.Send? then Check else a);
    GateStage(c, r, a);
  }

  lemma GateStage(c: Config, r: Run, a: Action)
    requires r.stop && BeforeGate(r)
    ensures var e := Step(c, r, a).exec;
            (e.Idle? || e.Opening? || e.Checking? || e.AtStopGate? || Winding(e) || e.Done?) &&
            (a.Send? ==> Step(c, r, a).sent == r.sent)
  {
    hide AppendStep, StartVerdict, StartPoseOk, AllResolvedOk, HeartbeatLapsed;
    if a.Append? { AppendEffect(c, r, a.chunkSeq, a.points, a.final, a.digest); }
  }

  /** A stop, or a lost connection, that comes before the gate wins: from then on torque is
      never enabled and no target is ever sent. */
  lemma {:induction false} StopBeforeTorque(c: Config, r: Run, actions: seq<Action>)
    requires Inv(c, r) && r.stop && BeforeGate(r)
    ensures !Execute(c, r, actions).torque && Execute(c, r, actions).sent == []
    decreases |actions|
  {
    hide Inv, Step;
    if actions != [] {
      GateStays(c, r, actions[0]);
      StepKeeps(c, r, actions[0]);
      StopBeforeTorque(c, Step(c, r, actions[0]), actions[1..]);
    }
  }

  /** A run ends exactly when its executor reports its outcome, or when the connection is
      lost before it was started. */
  lemma TerminatesExactly(c: Config, r: Run, a: Action)
    requires Inv(c, r) && !r.state.Terminal()
    ensures Step(c, r, a).state.Terminal() <==>
              (a.Finish? && r.exec.Closed?) || (a.ConnectionLost? && r.state.Buffering?)
    ensures a.Finish? && r.exec.Closed? ==> Step(c, r, a).state == r.exec.outcome
    ensures a.ConnectionLost? && r.state.Buffering? ==> Step(c, r, a).state == Stopped
  {
    hide Inv, Step;
    InvParts(c, r);
    match a
    case Append(chunkSeq, points, final, digest) => AppendKeepsState(c, r, chunkSeq, points, final, digest);
    case Send(measured, sendOk) =>
      hide SendStep;
      SendIs(c, r, measured, sendOk);
    case Check => CheckKeepsState(c, r);
    case Start => CallStates(c, r, a);
    case Heartbeat(_) => CallStates(c, r, a);
    case RequestStop => CallStates(c, r, a);
    case ConnectionLost => CallStates(c, r, a);
    case EnterRunning(_) => CallStates(c, r, a);
    case BeginTick(_) => LoopKeeps(c, r, a);
    case CheckHeartbeat => LoopKeeps(c, r, a);
    case TakeSnapshot => LoopKeeps(c, r, a);
    case Commit(_) => LoopKeeps(c, r, a);
    case Open(_) => ArmKeepsState(c, r, a);
    case StopGate => ArmKeepsState(c, r, a);
    case Enable(_, _) => ArmKeepsState(c, r, a);
    case HoldThenClose(_, _) => EndStates(c, r, a);
    case Finish => EndStates(c, r, a);
  }

  lemma CallStates(c: Config, r: Run, a: Action)
    requires a.Start? || a.Heartbeat? || a.RequestStop? || a.ConnectionLost? || a.EnterRunning?
    requires !r.state.Terminal()
    ensures Step(c, r, a).state.Terminal() <==> a.ConnectionLost? && r.state.Buffering?
    ensures a.ConnectionLost? && r.state.Buffering? ==> Step(c, r, a).state == Stopped
  {
    hide StartVerdict;
  }

  lemma ArmKeepsState(c: Config, r: Run, a: Action)
    requires a.Open? || a.StopGate? || a.Enable?
    ensures Step(c, r, a).state == r.state
  {
  }

  lemma EndStates(c: Config, r: Run, a: Action)
    requires (a.HoldThenClose? || a.Finish?) && ControlInv(c, r)
    ensures Step(c, r, a).state == if a.Finish? && r.exec.Closed? then r.exec.outcome else r.state
    ensures r.exec.Closed? ==> r.exec.outcome.Terminal()
  {
    hide AllResolvedOk;
  }

  lemma AppendKeepsState(c: Config, r: Run, chunkSeq: int, points: seq<Point>, final: bool, digest: string)
    ensures Step(c, r, Append(chunkSeq, points, final, digest)).state == r.state
  {
    hide AppendOutcome;
  }

  lemma CheckKeepsState(c: Config, r: Run)
    ensures Step(c, r, Check).state == r.state
  {
    hide StartPoseOk, AllResolvedOk;
  }

  // ---------- the heartbeat clock ----------

  /** The time of the last heartbeat accepted among the first `n` actions. */
  ghost function LastBeat(c: Config, nowUs: int, actions: seq<Action>, n: nat): int
    requires n <= |actions|
  {
    if n == 0 then nowUs
    else if actions[n - 1].Heartbeat? && At(c, nowUs, actions, n - 1).clockUs <= actions[n - 1].nowUs
    then actions[n - 1].nowUs
    else LastBeat(c, nowUs, actions, n - 1)
  }

  lemma BeatStep(c: Config, r: Run, a: Action)
    ensures Step(c, r, a).lastHeartbeatUs ==
            if a.Heartbeat? && r.clockUs <= a.nowUs then a.nowUs else r.lastHeartbeatUs
  {
    hide AppendOutcome, SendStep, CheckStep, StartVerdict, HeartbeatLapsed;
    match a
    case Send(measured, sendOk) => SendKeepsBeat(c, r, measured, sendOk);
    case Check => CheckKeepsBeat(c, r);
    case _ =>
  }

  lemma SendKeepsBeat(c: Config, r: Run, measured: Option<Pose>, sendOk: bool)
    ensures SendStep(c, r, measured, sendOk).lastHeartbeatUs == r.lastHeartbeatUs
  {
    hide SendStep;
  }

  lemma CheckKeepsBeat(c: Config, r: Run)
    ensures CheckStep(c, r).lastHeartbeatUs == r.lastHeartbeatUs
  {
    hide StartPoseOk, AllResolvedOk;
  }

  lemma {:induction false} BeatsAreHeard(c: Config, nowUs: int, actions: seq<Action>, n: nat)
    requires n <= |actions|
    ensures At(c, nowUs, actions, n).lastHeartbeatUs == LastBeat(c, nowUs, actions, n)
    decreases n
  {
    hide At, Step;
    if n == 0 {
      AtEnds(c, nowUs, actions);
      FirstBeat(nowUs);
    } else {
      BeatsAreHeard(c, nowUs, actions, n - 1);
      AtNext(c, nowUs, actions, n - 1);
      BeatStep(c, At(c, nowUs, actions, n - 1), actions[n - 1]);
    }
  }

  lemma FirstBeat(nowUs: int)
    ensures Initial(nowUs).lastHeartbeatUs == nowUs
  {
  }

  /** Action `h` passed the heartbeat check of a tick that began at `now`. */
  ghost predicate FreshAt(c: Config, nowUs: int, actions: seq<Action>, h: nat, s: int, now: int) {
    h < |actions| && actions[h].CheckHeartbeat? &&
    var r := At(c, nowUs, actions, h);
    r.exec.Beating? && r.exec.startedUs == s && r.exec.nowUs == now &&
    ((r.finalReceived && c.disconnect.CompleteIfSealed?) ||
     now - LastBeat(c, nowUs, actions, h) <= c.heartbeatTimeoutUs)
  }

  /** Between the heartbeat check `h` and action `k` the same tick goes on. */
  ghost predicate FreshTick(c: Config, nowUs: int, actions: seq<Action>, k: nat, h: nat, s: int, now: int) {
    h < k <= |actions| && FreshAt(c, nowUs, actions, h, s, now) &&
    forall i: nat :: h < i <= k ==> MidTick(At(c, nowUs, actions, i).exec)
  }

  ghost predicate FreshInv(c: Config, nowUs: int, actions: seq<Action>, k: nat)
    requires k <= |actions|
  {
    match At(c, nowUs, actions, k).exec
    case Snapping(s, t, _, _) =>
      exists h: nat, now :: FreshTick(c, nowUs, actions, k, h, s, now) && t == Max(0, now - s)
    case Sending(s, t, _, _, _, _) =>
      exists h: nat, now :: FreshTick(c, nowUs, actions, k, h, s, now) && t == Max(0, now - s)
    case _ => true
  }

  lemma FreshPasses(c: Config, r: Run)
    requires r.exec.Beating? && CheckHeartbeatStep(c, r).exec.Snapping?
    ensures (r.finalReceived && c.disconnect.CompleteIfSealed?) ||
            r.exec.nowUs - r.lastHeartbeatUs <= c.heartbeatTimeoutUs
  {
  }

  lemma OnlyCheckSnaps(c: Config, r: Run, a: Action)
    requires Step(c, r, a).exec.Snapping? && r.exec.Beating?
    ensures a.CheckHeartbeat? && Step(c, r, a) == CheckHeartbeatStep(c, r)
  {
    hide AppendStep, CheckHeartbeatStep;
    if a.Append? { AppendEffect(c, r, a.chunkSeq, a.points, a.final, a.digest); }
  }

  lemma FreshBegins(c: Config, nowUs: int, actions: seq<Action>, k: nat)
    requires k < |actions| && At(c, nowUs, actions, k).exec.Beating? && At(c, nowUs, actions, k + 1).exec.Snapping?
    ensures var e := At(c, nowUs, actions, k).exec; FreshTick(c, nowUs, actions, k + 1, k, e.startedUs, e.nowUs)
  {
    hide At, Step;
    AtNext(c, nowUs, actions, k);
    BeatsAreHeard(c, nowUs, actions, k);
    OnlyCheckSnaps(c, At(c, nowUs, actions, k), actions[k]);
    FreshPasses(c, At(c, nowUs, actions, k));
  }

  lemma FreshStays(c: Config, nowUs: int, actions: seq<Action>, k: nat, h: nat, s: int, now: int)
    requires k < |actions| && FreshTick(c, nowUs, actions, k, h, s, now) && MidTick(At(c, nowUs, actions, k + 1).exec)
    ensures FreshTick(c, nowUs, actions, k + 1, h, s, now)
  {
    hide At, FreshAt;
  }

  lemma {:induction false} AlwaysFresh(c: Config, nowUs: int, actions: seq<Action>, k: nat)
    requires k <= |actions|
    ensures FreshInv(c, nowUs, actions, k)
    decreases k
  {
    hide At, Step, FreshTick;
    if k == 0 {
      AtEnds(c, nowUs, actions);
      NothingFresh(nowUs);
    } else {
      AlwaysFresh(c, nowUs, actions, k - 1);
      var r, r' := At(c, nowUs, actions, k - 1), At(c, nowUs, actions, k);
      AtNext(c, nowUs, actions, k - 1);
      TimesStep(c, r, actions[k - 1]);
      if r'.exec.Snapping? && r.exec.Beating? {
        FreshBegins(c, nowUs, actions, k - 1);
      } else if r'.exec.Snapping? || r'.exec.Sending? {
        var t := r.exec.tickUs;
        var s := r.exec.startedUs;
        var h: nat, now :| FreshTick(c, nowUs, actions, k - 1, h, s, now) && t == Max(0, now - s);
        FreshStays(c, nowUs, actions, k - 1, h, s, now);
      }
    }
  }

  lemma NothingFresh(nowUs: int)
    ensures Initial(nowUs).exec.Idle?
  {
  }

  /** No target is ever sent under a lapsed heartbeat: the tick of each one passed its
      heartbeat check within the timeout of the last heartbeat before it, unless a complete
      program was allowed to finish alone. */
  lemma TargetsAreFresh(c: Config, nowUs: int, actions: seq<Action>, i: nat) returns (z: nat, h: nat, s: int, now: int)
    requires i < |Execute(c, Initial(nowUs), actions).sent|
    ensures z < |actions| && actions[z].Send? && |At(c, nowUs, actions, z).sent| == i
    ensures |At(c, nowUs, actions, z + 1).sent| == i + 1
    ensures FreshTick(c, nowUs, actions, z, h, s, now)
  {
    hide At, Execute, Initial, FreshTick, Inv, Step, InTick;
    var n: nat;
    z, s, n, now := TargetBelongsToTick(c, nowUs, actions, i);
    AtNext(c, nowUs, actions, z);
    AtIsGood(c, nowUs, actions, z);
    SendStepTime(c, At(c, nowUs, actions, z), actions[z]);
    AlwaysFresh(c, nowUs, actions, z);
    var e := At(c, nowUs, actions, z).exec;
    s := e.startedUs;
    h, now :| FreshTick(c, nowUs, actions, z, h, s, now) && e.tickUs == Max(0, now - s);
  }

  /** The cursor moves exactly when a tick that has sent its target is over, be it the last
      one or one that has taken too long, and then to that tick's time. */
  lemma CursorExactly(c: Config, r: Run, a: Action)
    ensures Step(c, r, a).cursorUs ==
            if a.Commit? && (r.exec.Committing? || r.exec.Finishing?) then r.exec.tickUs else r.cursorUs
  {
    hide StartStep, HeartbeatStep, StopStep, ConnectionLostStep, OpenStep, CheckStep, GateStep, EnableStep,
         EnterRunningStep, BeginTickStep, CheckHeartbeatStep, TakeSnapshotStep, CloseStep, FinishStep, AppendStep,
         SendStep;
    if a.Append? { AppendEffect(c, r, a.chunkSeq, a.points, a.final, a.digest); }
  }

  // ---------- the tracking counter ----------

  /** How many ticks in a row, up to the first `n` actions, read the arm off its target. */
  ghost function Streak(c: Config, nowUs: int, actions: seq<Action>, n: nat): nat
    requires n <= |actions|
  {
    if n == 0 then 0
    else
      var r, a := At(c, nowUs, actions, n - 1), actions[n - 1];
      if r.exec.Sending? && a.Send? then
        if Missed(c, r, a) then Streak(c, nowUs, actions, n - 1) + 1 else 0
      else if r.exec.Enabled? && a.EnterRunning? && r.clockUs <= a.nowUs then 0
      else Streak(c, nowUs, actions, n - 1)
  }

  predicate Looping(e: Executor) {
    e.Top? || e.Beating? || e.Snapping? || e.Sending? || e.Committing?
  }

  /** How a step moves the executor's own counter. */
  ghost predicate CountStep(c: Config, r: Run, a: Action, e: Executor) {
    Looping(e) ==>
      if r.exec.Sending? && a.Send? then e.violations == if Missed(c, r, a) then r.exec.violations + 1 else 0
      else if r.exec.Enabled? && a.EnterRunning? && r.clockUs <= a.nowUs then e.violations == 0
      else Looping(r.exec) && e.violations == r.exec.violations
  }

  lemma CountsStep(c: Config, r: Run, a: Action)
    requires Inv(c, r)
    ensures CountStep(c, r, a, Step(c, r, a).exec)
  {
    hide Inv, Step, CountStep, Missed;
    match a
    case Append(chunkSeq, points, final, digest) => AppendCounts(c, r, chunkSeq, points, final, digest);
    case Send(measured, sendOk) =>
      SendIs(c, r, measured, sendOk);
      SendCounts(c, r, measured, sendOk);
    case Check => CheckCounts(c, r);
    case BeginTick(_) => LoopCounts(c, r, a);
    case CheckHeartbeat => LoopCounts(c, r, a);
    case TakeSnapshot => LoopCounts(c, r, a);
    case Commit(_) => LoopCounts(c, r, a);
    case HoldThenClose(_, _) => EndCounts(c, r, a);
    case Finish => EndCounts(c, r, a);
    case EnterRunning(_) => EndCounts(c, r, a);
    case _ => CallCounts(c, r, a);
  }

  lemma AppendCounts(c: Config, r: Run, chunkSeq: int, points: seq<Point>, final: bool, digest: string)
    ensures CountStep(c, r, Append(chunkSeq, points, final, digest),
                      Step(c, r, Append(chunkSeq, points, final, digest)).exec)
  {
    hide AppendStep, Missed;
    AppendEffect(c, r, chunkSeq, points, final, digest);
  }

  lemma LoopCounts(c: Config, r: Run, a: Action)
    requires a.BeginTick? || a.CheckHeartbeat? || a.TakeSnapshot? || a.Commit?
    ensures CountStep(c, r, a, Step(c, r, a).exec)
  {
    hide HeartbeatLapsed, Missed, BeginTickStep, CheckHeartbeatStep, TakeSnapshotStep, CommitStep;
    match a
    case BeginTick(nowUs) => BeginCounts(r, nowUs);
    case CheckHeartbeat => HeartbeatCounts(c, r);
    case TakeSnapshot => SnapshotCounts(r);
    case Commit(overrun) => CommitCounts(r, overrun);
  }

  lemma BeginCounts(r: Run, nowUs: int)
    ensures var e := BeginTickStep(r, nowUs).exec;
            Looping(e) ==> Looping(r.exec) && e.violations == r.exec.violations
  {
  }

  lemma HeartbeatCounts(c: Config, r: Run)
    ensures var e := CheckHeartbeatStep(c, r).exec;
            Looping(e) ==> Looping(r.exec) && e.violations == r.exec.violations
  {
  }

  lemma SnapshotCounts(r: Run)
    ensures var e := TakeSnapshotStep(r).exec;
            Looping(e) ==> Looping(r.exec) && e.violations == r.exec.violations
  {
  }

  lemma CommitCounts(r: Run, overrun: bool)
    ensures var e := CommitStep(r, overrun).exec;
            Looping(e) ==> Looping(r.exec) && e.violations == r.exec.violations
  {
  }

  lemma EndCounts(c: Config, r: Run, a: Action)
    requires a.HoldThenClose? || a.Finish? || a.EnterRunning?
    ensures CountStep(c, r, a, Step(c, r, a).exec)
  {
    hide Missed;
  }

  lemma CallCounts(c: Config, r: Run, a: Action)
    requires a.Start? || a.Heartbeat? || a.RequestStop? || a.ConnectionLost? || a.Open? || a.StopGate? || a.Enable?
    ensures CountStep(c, r, a, Step(c, r, a).exec)
  {
    hide Missed, StartStep, HeartbeatStep, StopStep, ConnectionLostStep, OpenStep, GateStep, EnableStep;
    CallsArm(c, r);
    match a
    case Heartbeat(nowUs) => NetworkExec(r, nowUs);
    case Open(bus) => OpenArms(r, bus);
    case Enable(ok, leftHot) => EnableArms(r, ok, leftHot);
    case _ => NetworkExec(r, 0);
  }

  lemma CallsArm(c: Config, r: Run)
    ensures Looping(StartStep(c, r).exec) ==> StartStep(c, r).exec == r.exec
    ensures Looping(GateStep(r).exec) ==> GateStep(r).exec == r.exec
  {
    hide StartVerdict;
  }

  lemma OpenArms(r: Run, bus: Opened)
    ensures Looping(OpenStep(r, bus).exec) ==> OpenStep(r, bus).exec == r.exec
  {
  }

  lemma EnableArms(r: Run, ok: bool, leftHot: bool)
    ensures Looping(EnableStep(r, ok, leftHot).exec) ==> EnableStep(r, ok, leftHot).exec == r.exec
  {
  }

  lemma CheckCounts(c: Config, r: Run)
    ensures CountStep(c, r, Check, Step(c, r, Check).exec)
  {
    hide Missed, StartPoseOk, AllResolvedOk;
  }

  lemma SendCounts(c: Config, r: Run, measured: Option<Pose>, sendOk: bool)
    requires Inv(c, r)
    ensures CountStep(c, r, Send(measured, sendOk), SendStep(c, r, measured, sendOk).exec)
  {
    hide Inv, SendStep, SendInterpolated, SendLast, Commanded, Off, PositionAt, Interpolate, Resolve, Advance;
    SendSplits(c, r, measured, sendOk);
    if InTime(r) {
      var segment := Advance(r.exec.snapshot, r.exec.tickUs, r.exec.segment);
      OrdinaryCounts(c, r, segment, measured, sendOk, Commanded(c, r));
    } else if r.exec.Sending? && r.exec.final {
      LastLeaves(c, r, sendOk);
    }
  }

  lemma OrdinaryCounts(c: Config, r: Run, segment: nat, measured: Option<Pose>, sendOk: bool, target: Pose)
    requires r.exec.Sending? && segment + 1 < |r.exec.snapshot|
    requires Resolve(c, r.origin, Interpolate(r.exec.snapshot[segment], r.exec.snapshot[segment + 1], r.exec.tickUs)) ==
             Some(target)
    ensures var e := SendInterpolated(c, r, segment, measured, sendOk).exec;
            Looping(e) ==>
              measured.Some? &&
              e.violations == if Off(c.policy, target, measured.value) then r.exec.violations + 1 else 0
  {
    hide Exceeded, Off, Interpolate;
    if measured.Some? { OffIsExceeded(c.policy, target, measured.value); }
  }

  lemma LastLeaves(c: Config, r: Run, sendOk: bool)
    requires r.exec.Sending? && r.exec.snapshot != []
    ensures !Looping(SendLast(c, r, sendOk).exec)
  {
  }

  lemma {:induction false} CounterIsStreak(c: Config, nowUs: int, actions: seq<Action>, n: nat)
    requires n <= |actions|
    ensures Looping(At(c, nowUs, actions, n).exec) ==>
              At(c, nowUs, actions, n).exec.violations == Streak(c, nowUs, actions, n)
    decreases n
  {
    hide At, Step, Missed, Inv;
    if n == 0 {
      AtEnds(c, nowUs, actions);
      NothingFresh(nowUs);
    } else {
      CounterIsStreak(c, nowUs, actions, n - 1);
      AtNext(c, nowUs, actions, n - 1);
      AtIsGood(c, nowUs, actions, n - 1);
      CountsStep(c, At(c, nowUs, actions, n - 1), actions[n - 1]);
    }
  }

  /** A run is ended with TRACKING_ERROR exactly by the fifth tick in a row whose reading is
      off the target. */
  lemma TrackingErrorExactly(c: Config, nowUs: int, actions: seq<Action>, n: nat)
    requires n < |actions| && !At(c, nowUs, actions, n).exec.Closing?
    ensures EndsWith(At(c, nowUs, actions, n), At(c, nowUs, actions, n + 1), Some(TrackingError)) <==>
              At(c, nowUs, actions, n).exec.Sending? && actions[n].Send? && Streak(c, nowUs, actions, n + 1) >= 5
  {
    hide At, Step, Inv, EndsWith, Commanded, Off;
    AtNext(c, nowUs, actions, n);
    AtIsGood(c, nowUs, actions, n);
    CounterIsStreak(c, nowUs, actions, n);
    EndsExactly(c, At(c, nowUs, actions, n), actions[n], TrackingError);
  }

  // ---------- receipts ----------

  /** What the receipt of a newly accepted chunk says is true of the buffer it leaves. */
  lemma ReceiptTells(c: Config, r: Run, chunkSeq: int, points: seq<Point>, final: bool, digest: string)
    requires Inv(c, r) && chunkSeq !in r.receipts
    requires AppendOutcome(c, r, chunkSeq, points, final, digest).Accepted?
    ensures var r' := AppendStep(c, r, chunkSeq, points, final, digest);
            var receipt := AppendOutcome(c, r, chunkSeq, points, final, digest).value;
            r'.points == r.points + points && points != [] && r'.expectedSeq == r.expectedSeq + 1 == chunkSeq + 1 &&
            r'.cursorUs == r.cursorUs && r'.finalReceived == final && receipt.final == final &&
            receipt.chunkSeq == chunkSeq && receipt.acceptedUntilUs == EndUs(r'.points) &&
            receipt.executionCursorUs == r'.cursorUs && receipt.queuedAheadUs == EndUs(r'.points) - r'.cursorUs &&
            (c.runMode.Streaming? ==> receipt.availableHorizonUs == c.policy.maxHorizonUs - receipt.queuedAheadUs) &&
            r'.receipts == r.receipts[chunkSeq := (c.digests.chunk(chunkSeq, points, final), receipt)]
  {
    hide Inv, ScanVerdict, BufferInv, ReceiptInv, ControlInv, TorqueInv, TickInv, CompletionInv, SentInv;
    var r' := AppendStep(c, r, chunkSeq, points, final, digest);
    AppendKeeps(c, r, chunkSeq, points, final, digest);
    InvParts(c, r');
    EndOfBoth(r.points, points);
  }

  lemma EndOfBoth(before: seq<Point>, points: seq<Point>)
    requires points != []
    ensures EndUs(before + points) == EndUs(points)
  {
  }

  /** Once a chunk is accepted, its number belongs to its data: at any later time the number
      is answered with the original receipt for data of the same digest, with
      DUPLICATE_CONFLICT for any other, and in no case does the run change. */
  lemma ReuseIsRefused(c: Config, r: Run, chunkSeq: int, points: seq<Point>, final: bool, digest: string,
                       actions: seq<Action>, points': seq<Point>, final': bool)
    requires Inv(c, r) && chunkSeq !in r.receipts
    requires AppendOutcome(c, r, chunkSeq, points, final, digest).Accepted?
    ensures var first := AppendOutcome(c, r, chunkSeq, points, final, digest);
            var later := Execute(c, AppendStep(c, r, chunkSeq, points, final, digest), actions);
            var digest' := c.digests.chunk(chunkSeq, points', final');
            AppendStep(c, later, chunkSeq, points', final', digest') == later &&
            AppendOutcome(c, later, chunkSeq, points', final', digest') ==
            if digest' == c.digests.chunk(chunkSeq, points, final) then first else Rejected(DuplicateConflict)
  {
    hide Inv, AppendVerdict, Step, AvailableHorizonUs;
    var stored := AppendStep(c, r, chunkSeq, points, final, digest);
    AppendKeeps(c, r, chunkSeq, points, final, digest);
    OnlyGrows(c, stored, actions);
    assert chunkSeq in stored.receipts;
  }
}
