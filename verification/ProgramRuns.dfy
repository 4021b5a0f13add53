/** The v1 run as a mutable object (robot_server.py, ProgramRun).

    Each method body is one section that the source runs atomically; its contract
    says that the object's abstract value moves by exactly one step of the model.
 */
module ProgramRuns {
  import opened Wrappers
  import opened Quintic
  import opened Protocol
  import opened Motion
  import opened RunModel
  import opened RunSafety

  lemma CheckingSnapshot(c: Config, r: Run)
    requires Inv(c, r) && r.exec.Checking?
    ensures r.exec.snapshot == r.points && 2 <= |r.points|
  {
  }

  lemma HorizonOf(c: Config, r: Run, r': Run)
    requires r.points == r'.points && r.cursorUs == r'.cursorUs
    ensures AvailableHorizonUs(c, r) == AvailableHorizonUs(c, r')
  {
  }

  lemma SendingSegment(c: Config, r: Run)
    requires Inv(c, r) && r.exec.Sending?
    ensures r.exec.segment < |r.exec.snapshot|
    ensures Advance(r.exec.snapshot, r.exec.tickUs, r.exec.segment) == Advance(r.exec.snapshot, r.exec.tickUs, 0)
  {
    TickSegment(c, r);
  }

  lemma MotionResolves(c: Config, r: Run)
    requires Inv(c, r) && Cleared(r)
    ensures 2 <= |r.points|
    ensures forall tUs :: 0 <= tUs ==>
              var target := Resolve(c, r.origin, PositionAt(r.points, tUs));
              target.Some? && InLimits(c.policy, target.value)
  {
    hide ReceiptInv, CursorInv, TorqueInv, TickInv, CompletionInv, SentInv, Interpolate, InLimits, AllResolvedOk, Shift,
         Resolve;
    forall tUs | 0 <= tUs
      ensures var target := Resolve(c, r.origin, PositionAt(r.points, tUs));
              target.Some? && InLimits(c.policy, target.value)
    {
      var k := Advance(r.points, tUs, 0);
      if k + 1 < |r.points| { SegmentTargetInLimits(c, r, k, tUs); } else { PointInLimits(c, r, k); }
    }
  }

  class ProgramRun {
    const cfg: Config
    var points: seq<Point>
    var receipts: map<int, (string, Receipt)>
    var expectedSeq: nat
    var finalReceived: bool
    var state: State
    var cursorUs: int
    var lastHeartbeatUs: int
    var clockUs: int
    var origin: Option<Pose>
    var stop: bool
    var attached: bool
    var torque: bool
    ghost var hot: bool
    var exec: Executor
    ghost var sent: seq<Command>

    ghost function View(): Run
      reads this
    {
      Run(points, receipts, expectedSeq, finalReceived, state, cursorUs, lastHeartbeatUs, clockUs,
          origin, stop, attached, torque, hot, exec, sent)
    }

    constructor (cfg: Config, nowUs: int)
      ensures this.cfg == cfg && View() == Initial(nowUs) && Inv(cfg, View())
    {
      this.cfg := cfg;
      points, receipts, expectedSeq, finalReceived := [], map[], 0, false;
      state, cursorUs, lastHeartbeatUs, clockUs := Buffering, 0, nowUs, nowUs;
      origin, stop, attached, torque, hot := None, false, false, false, false;
      exec, sent := Idle, [];
      new;
      Reachable(cfg, nowUs, []);
    }

    method ValidateResolvedPosition(point: Point) returns (v: Verdict)
      ensures v == if ResolvedOk(cfg, origin, point.q) then Pass else Fail(LimitViolation)
    {
      if cfg.header.mode != RelativeDeg || origin.None? { return Pass; }
      var resolved := Shift(origin.value, point.q);
      for j := 0 to JOINT_COUNT
        invariant forall k :: 0 <= k < j ==> cfg.policy.jointMin[k] <= resolved[k] <= cfg.policy.jointMax[k]
      {
        if !(cfg.policy.jointMin[j] <= resolved[j] <= cfg.policy.jointMax[j]) { return Fail(LimitViolation); }
      }
      return Pass;
    }

    method ValidateNext(previous: Option<Point>, point: Point) returns (v: Verdict)
      ensures v == PointVerdict(cfg, origin, previous, point)
    {
      if previous.None? {
        if point.tUs != 0 { return Fail(InvalidTime); }
        if !StartsAtOrigin(cfg.header.mode, point.q) { return Fail(StartStateMismatch); }
      } else {
        v := ValidateSegment(cfg.policy, previous.value, point);
        if v.Fail? { return; }
      }
      v := ValidatePosition(cfg.policy, point, cfg.header.mode);
      if v.Fail? { return; }
      v := ValidateResolvedPosition(point);
    }

    /** Scan a chunk in order behind the buffered points. */
    method ValidateChunk(chunk: seq<Point>) returns (v: Verdict)
      ensures v == ScanVerdict(cfg, origin, LastPoint(points), chunk)
    {
      var previous := LastPoint(points);
      for i := 0 to |chunk|
        invariant ScanVerdict(cfg, origin, LastPoint(points), chunk) == ScanVerdict(cfg, origin, previous, chunk[i..])
      {
        v := ValidateNext(previous, chunk[i]);
        assert chunk[i..][1..] == chunk[i + 1..];
        if v.Fail? { return; }
        previous := Some(chunk[i]);
      }
      return Pass;
    }

    /** How much further the buffer may reach: a streaming chunk fits the horizon exactly
        when it ends at most this far beyond the buffer. */
    method AvailableHorizon() returns (us: int)
      ensures us == AvailableHorizonUs(cfg, View()) && 0 <= us <= cfg.policy.maxHorizonUs
      ensures Inv(cfg, View()) && cfg.runMode.Streaming? ==>
                forall endUs :: EndUs(points) <= endUs ==>
                  (FitsHorizon(cfg, View(), endUs) <==> endUs <= EndUs(points) + us)
    {
      hide BufferInv, ReceiptInv, ControlInv, TorqueInv, TickInv, CompletionInv, SentInv;
      var acceptedUntil := if points == [] then 0 else points[|points| - 1].tUs;
      var used := Max(0, acceptedUntil - cursorUs);
      us := Max(0, cfg.policy.maxHorizonUs - used);
    }

    method AdmitChunk(chunkSeq: int, chunk: seq<Point>, final: bool) returns (v: Verdict)
      ensures v == AdmitVerdict(cfg, View(), chunkSeq, chunk, final)
      ensures v.Pass? ==> chunk != [] && !finalReceived && chunkSeq == expectedSeq
    {
      if chunkSeq != expectedSeq { return Fail(OutOfOrder); }
      if !(state == Buffering || state == Running) || finalReceived { return Fail(RunStateConflict); }
      if chunk == [] || |chunk| > cfg.policy.maxChunkPoints { return Fail(ChunkSize); }
      v := ValidateChunk(chunk);
      if v.Fail? { return; }
      var proposedCount := |points| + |chunk|;
      var proposedEnd := chunk[|chunk| - 1].tUs;
      if proposedCount > cfg.policy.maxPoints || proposedEnd > cfg.policy.maxDurationUs { return Fail(ResourceLimit); }
      if final && proposedCount < 2 { return Fail(SchemaInvalid); }
      if cfg.runMode == Streaming && proposedEnd - cursorUs > cfg.policy.maxHorizonUs { return Fail(QueueFull); }
    }

    /** Store an admitted chunk; a final chunk of a program whose digest turns out wrong
        is taken back again. */
    method StoreChunk(chunkSeq: int, chunk: seq<Point>, final: bool, actual: string)
      returns (outcome: Outcome<Receipt>)
      requires chunk != [] && !finalReceived && chunkSeq == expectedSeq
      modifies this
      ensures outcome.Rejected? <==> final && cfg.digests.program(cfg.header, old(points) + chunk) != cfg.expectedDigest
      ensures outcome.Rejected? ==> outcome.code == HashMismatch && View() == old(View())
      ensures outcome.Accepted? ==>
                outcome.value == Receipt(chunkSeq, EndUs(chunk), cursorUs, Max(0, EndUs(chunk) - cursorUs),
                                         AvailableHorizonUs(cfg, View()), final)
      ensures outcome.Accepted? ==> View() == Grow(old(View()), chunk, final, actual, outcome.value)
    {
      hide Inv, FitsHorizon;
      ghost var before := points;
      points := points + chunk;
      expectedSeq := expectedSeq + 1;
      finalReceived := final;
      if final {
        var digest := cfg.digests.program(cfg.header, points);
        if digest != cfg.expectedDigest {
          points := points[..|points| - |chunk|];
          expectedSeq := expectedSeq - 1;
          finalReceived := false;
          assert points == before;
          return Rejected(HashMismatch);
        }
      }
      var proposedEnd := chunk[|chunk| - 1].tUs;
      var available := AvailableHorizon();
      var receipt := Receipt(chunkSeq, proposedEnd, cursorUs, Max(0, proposedEnd - cursorUs), available, final);
      receipts := receipts[chunkSeq := (actual, receipt)];
      return Accepted(receipt);
    }

    /** A rejected chunk leaves the run as it was, an accepted one is stored once. */
    method AppendChunk(chunkSeq: int, chunk: seq<Point>, final: bool, supplied: string)
      returns (outcome: Outcome<Receipt>)
      requires Inv(cfg, View())
      modifies this
      ensures Inv(cfg, View())
      ensures outcome == AppendOutcome(cfg, old(View()), chunkSeq, chunk, final, supplied)
      ensures View() == AppendStep(cfg, old(View()), chunkSeq, chunk, final, supplied)
      ensures outcome.Rejected? ==> View() == old(View())
    {
      hide Inv, AdmitVerdict, AvailableHorizonUs;
      AppendKeeps(cfg, View(), chunkSeq, chunk, final, supplied);
      var actual := cfg.digests.chunk(chunkSeq, chunk, final);
      if supplied != actual { return Rejected(HashMismatch); }
      if chunkSeq in receipts {
        var (oldDigest, receipt) := receipts[chunkSeq];
        if oldDigest != actual { return Rejected(DuplicateConflict); }
        return Accepted(receipt);
      }
      var admitted := AdmitChunk(chunkSeq, chunk, final);
      if admitted.Fail? { return Rejected(admitted.code); }
      outcome := StoreChunk(chunkSeq, chunk, final, actual);
      HorizonOf(cfg, old(View()).(points := points), View());
    }

    method Begin() returns (v: Verdict)
      requires Inv(cfg, View())
      modifies this
      ensures Inv(cfg, View())
      ensures v == StartVerdict(cfg, old(View())) && View() == StartStep(cfg, old(View()))
    {
      hide Inv;
      StartKeeps(cfg, View());
      if state != Buffering { return Fail(RunStateConflict); }
      if |points| < 2 { return Fail(NotReady); }
      if cfg.runMode == Sealed && !finalReceived { return Fail(NotReady); }
      if cfg.runMode == Streaming && !finalReceived && points[|points| - 1].tUs < cfg.policy.startBufferUs {
        return Fail(NotReady);
      }
      state, exec := Arming, Opening;
      return Pass;
    }

    method TakeHeartbeat(nowUs: int)
      requires Inv(cfg, View()) && clockUs <= nowUs
      modifies this
      ensures Inv(cfg, View()) && View() == HeartbeatStep(old(View()), nowUs)
    {
      hide Inv;
      HeartbeatKeeps(cfg, View(), nowUs);
      clockUs, lastHeartbeatUs := nowUs, nowUs;
    }

    method AskToStop()
      requires Inv(cfg, View())
      modifies this
      ensures Inv(cfg, View()) && View() == StopStep(old(View()))
    {
      hide Inv;
      StopKeeps(cfg, View());
      stop := true;
    }

    method LoseConnection()
      requires Inv(cfg, View())
      modifies this
      ensures Inv(cfg, View()) && View() == ConnectionLostStep(old(View()))
    {
      hide Inv;
      ConnectionLostKeeps(cfg, View());
      if state == Buffering {
        state := Stopped;
      } else if state == Arming {
        stop := true;
      }
    }

    // ---------- executor thread ----------

    /** A failed step of the executor: remember how the run will end. */
    method Abort(code: Code)
      requires exec.Opening? || exec.Checking? || exec.AtStopGate? || exec.Enabling? || Moving(exec)
      modifies this`exec
      ensures View() == FailWith(old(View()), code)
    {
      exec := Closing(if code == Cancelled then Stopped else Faulted, Some(code));
    }

    method OpenBackend(bus: Opened)
      requires Inv(cfg, View()) && exec.Opening?
      modifies this
      ensures Inv(cfg, View()) && View() == OpenStep(old(View()), bus)
    {
      hide Inv;
      OpenKeeps(cfg, View(), bus);
      if bus.NoBackend? {
        Abort(HardwareFault);
      } else {
        attached := true;
        if bus.NoPose? {
          Abort(HardwareFault);
        } else {
          origin := Some(bus.q);
          exec := Checking(bus.q, points);
        }
      }
    }

    method NearStartPose(measured: Pose, first: Pose) returns (near: bool)
      ensures near == forall j :: 0 <= j < JOINT_COUNT ==> Abs(first[j] - measured[j]) <= cfg.policy.startTolerance
    {
      for j := 0 to JOINT_COUNT
        invariant forall k :: 0 <= k < j ==> Abs(first[k] - measured[k]) <= cfg.policy.startTolerance
      {
        if Abs(first[j] - measured[j]) > cfg.policy.startTolerance { return false; }
      }
      return true;
    }

    method AllResolve(snapshot: seq<Point>) returns (ok: bool)
      ensures ok == AllResolvedOk(cfg, origin, snapshot)
    {
      hide ResolvedOk;
      for i := 0 to |snapshot|
        invariant forall k :: 0 <= k < i ==> ResolvedOk(cfg, origin, snapshot[k].q)
      {
        var v := ValidateResolvedPosition(snapshot[i]);
        if v.Fail? { return false; }
      }
      return true;
    }

    method CheckStart()
      requires Inv(cfg, View()) && exec.Checking?
      modifies this
      ensures Inv(cfg, View()) && View() == CheckStep(cfg, old(View()))
    {
      hide Inv, AllResolvedOk;
      CheckKeeps(cfg, View());
      CheckingSnapshot(cfg, View());
      if cfg.header.mode == AbsoluteDeg {
        var near := NearStartPose(exec.measured, exec.snapshot[0].q);
        if !near { Abort(StartStateMismatch); return; }
      } else {
        var ok := AllResolve(exec.snapshot);
        if !ok { Abort(LimitViolation); return; }
      }
      exec := AtStopGate;
    }

    method PassStopGate()
      requires Inv(cfg, View()) && exec.AtStopGate?
      modifies this
      ensures Inv(cfg, View()) && View() == GateStep(old(View()))
    {
      hide Inv;
      GateKeeps(cfg, View());
      if stop {
        Abort(Cancelled);
      } else {
        exec := Enabling;
      }
    }

    method EnableTorque(ok: bool, ghost leftHot: bool)
      requires Inv(cfg, View()) && exec.Enabling?
      modifies this
      ensures Inv(cfg, View()) && View() == EnableStep(old(View()), ok, leftHot)
    {
      hide Inv;
      EnableKeeps(cfg, View(), ok, leftHot);
      if ok {
        hot, torque, exec := true, true, Enabled;
      } else {
        hot := leftHot;
        Abort(HardwareFault);
      }
    }

    method EnterLoop(nowUs: int)
      requires Inv(cfg, View()) && exec.Enabled? && clockUs <= nowUs
      modifies this
      ensures Inv(cfg, View()) && View() == EnterRunningStep(old(View()), nowUs)
    {
      hide Inv;
      EnterRunningKeeps(cfg, View(), nowUs);
      state, clockUs, exec := Running, nowUs, Top(nowUs, 0, 0);
    }

    method StartTick(nowUs: int)
      requires Inv(cfg, View()) && exec.Top? && clockUs <= nowUs
      modifies this
      ensures Inv(cfg, View()) && View() == BeginTickStep(old(View()), nowUs)
    {
      hide Inv;
      BeginTickKeeps(cfg, View(), nowUs);
      clockUs := nowUs;
      if stop {
        Abort(Cancelled);
      } else {
        exec := Beating(exec.startedUs, nowUs, exec.segment, exec.violations);
      }
    }

    method WatchHeartbeat()
      requires Inv(cfg, View()) && exec.Beating?
      modifies this
      ensures Inv(cfg, View()) && View() == CheckHeartbeatStep(cfg, old(View()))
    {
      hide Inv;
      CheckHeartbeatKeeps(cfg, View());
      var age := exec.nowUs - lastHeartbeatUs;
      var ignore := finalReceived && cfg.disconnect == CompleteIfSealed;
      if !ignore && age > cfg.heartbeatTimeoutUs {
        Abort(HeartbeatLost);
      } else {
        exec := Snapping(exec.startedUs, Max(0, exec.nowUs - exec.startedUs), exec.segment, exec.violations);
      }
    }

    method CopyBuffer()
      requires Inv(cfg, View()) && exec.Snapping?
      modifies this
      ensures Inv(cfg, View()) && View() == TakeSnapshotStep(old(View()))
    {
      hide Inv;
      SnapshotKeeps(cfg, View());
      exec := Sending(exec.startedUs, exec.tickUs, points, finalReceived, exec.segment, exec.violations);
    }

    method ExceedsTracking(target: Pose, measured: Pose) returns (exceeded: bool)
      ensures exceeded == Exceeded(cfg.policy, target, measured)
    {
      for j := 0 to JOINT_COUNT - 1
        invariant forall k :: 0 <= k < j ==> Abs(target[k] - measured[k]) <= cfg.policy.trackingError
      {
        if Abs(target[j] - measured[j]) > cfg.policy.trackingError { return true; }
      }
      exceeded := cfg.policy.gripperTrackingError.Some? &&
        Abs(target[JOINT_COUNT - 1] - measured[JOINT_COUNT - 1]) > cfg.policy.gripperTrackingError.value;
    }

    /** The segment search of a tick, resumed from the index of the previous one. */
    method FindSegment() returns (segment: nat)
      requires Inv(cfg, View()) && exec.Sending?
      ensures exec.segment < |exec.snapshot|
      ensures segment == Advance(exec.snapshot, exec.tickUs, exec.segment) == Advance(exec.snapshot, exec.tickUs, 0)
    {
      hide Inv;
      SendingSegment(cfg, View());
      segment := exec.segment;
      while segment + 1 < |exec.snapshot| && exec.tickUs > exec.snapshot[segment + 1].tUs
        invariant segment < |exec.snapshot|
        invariant Advance(exec.snapshot, exec.tickUs, segment) == Advance(exec.snapshot, exec.tickUs, exec.segment)
        decreases |exec.snapshot| - segment
      {
        segment := segment + 1;
      }
    }

    /** Once the start checks are passed, every pose of the motion resolves within limits. */
    method ResolveTarget(q: Pose) returns (target: Option<Pose>)
      ensures target == Resolve(cfg, origin, q)
      ensures Inv(cfg, View()) && Cleared(View()) ==>
                forall tUs :: 0 <= tUs && q == PositionAt(points, tUs) ==>
                  target.Some? && InLimits(cfg.policy, target.value)
    {
      hide Inv, Cleared, PositionAt, InLimits, Shift;
      if Inv(cfg, View()) && Cleared(View()) { MotionResolves(cfg, View()); }
      if cfg.header.mode == RelativeDeg {
        if origin.None? { return None; }
        return Some(Shift(origin.value, q));
      }
      return Some(q);
    }

    method SendTarget(command: Command, sendOk: bool, next: Executor)
      requires Moving(exec) && !MidTick(next)
      modifies this`exec, this`sent
      ensures View() == Dispatch(old(View()), command, sendOk, next)
    {
      sent := sent + [command];
      if sendOk { exec := next; } else { Abort(HardwareFault); }
    }

    method DriveLast(sendOk: bool)
      requires exec.Sending? && exec.snapshot != []
      modifies this`exec, this`sent
      ensures View() == SendLast(cfg, old(View()), sendOk)
    {
      hide Resolve, Dispatch;
      var last := exec.snapshot[|exec.snapshot| - 1];
      var target := ResolveTarget(last.q);
      if target.None? { Abort(HardwareFault); return; }
      SendTarget(Command(last.tUs, target.value), sendOk, Finishing(last.tUs));
    }

    method DriveInterpolated(segment: nat, measured: Option<Pose>, sendOk: bool)
      requires exec.Sending? && segment + 1 < |exec.snapshot|
      modifies this`exec, this`sent
      ensures View() == SendInterpolated(cfg, old(View()), segment, measured, sendOk)
    {
      hide Interpolate, Resolve, Exceeded, Dispatch;
      var logical := Interpolate(exec.snapshot[segment], exec.snapshot[segment + 1], exec.tickUs);
      var target := ResolveTarget(logical);
      if target.None? || measured.None? { Abort(HardwareFault); return; }
      var exceeded := ExceedsTracking(target.value, measured.value);
      var violations := if exceeded then exec.violations + 1 else 0;
      if violations >= 5 { Abort(TrackingError); return; }
      SendTarget(Command(exec.tickUs, target.value), sendOk,
                 Committing(exec.startedUs, exec.tickUs, segment, violations));
    }

    method DriveTick(measured: Option<Pose>, sendOk: bool)
      requires Inv(cfg, View()) && exec.Sending?
      modifies this
      ensures Inv(cfg, View()) && View() == SendStep(cfg, old(View()), measured, sendOk)
    {
      hide Inv, SendLast, SendInterpolated, Advance;
      SendKeeps(cfg, View(), measured, sendOk);
      var segment := FindSegment();
      if segment + 1 < |exec.snapshot| {
        DriveInterpolated(segment, measured, sendOk);
      } else if exec.final && exec.tickUs >= exec.snapshot[|exec.snapshot| - 1].tUs {
        DriveLast(sendOk);
      } else {
        Abort(BufferUnderrun);
      }
    }

    method StoreCursor(overrun: bool)
      requires Inv(cfg, View()) && (exec.Committing? || exec.Finishing?)
      modifies this
      ensures Inv(cfg, View()) && View() == CommitStep(old(View()), overrun)
    {
      hide Inv;
      CommitKeeps(cfg, View(), overrun);
      cursorUs := exec.tickUs;
      if exec.Finishing? {
        exec := Closing(Completed, None);
      } else if overrun {
        Abort(ControlCycleOverrun);
      } else {
        exec := Top(exec.startedUs, exec.segment, exec.violations);
      }
    }

    /** The source cannot tell whether the motors are off; its flag says they are. */
    method CloseBackend(ok: bool, ghost leftHot: bool)
      requires Inv(cfg, View()) && exec.Closing?
      modifies this
      ensures Inv(cfg, View()) && View() == CloseStep(old(View()), ok, leftHot)
    {
      hide Inv;
      CloseKeeps(cfg, View(), ok, leftHot);
      var held := attached;
      attached := false;
      if !held {
        exec := Closed(exec.outcome, exec.code);
      } else if ok {
        hot, torque := leftHot, false;
        exec := Closed(exec.outcome, exec.code);
      } else {
        hot := leftHot;
        exec := Crashed;
      }
    }

    method ReportOutcome()
      requires Inv(cfg, View()) && exec.Closed?
      modifies this
      ensures Inv(cfg, View()) && View() == FinishStep(old(View()))
    {
      hide Inv;
      FinishKeeps(cfg, View());
      state, exec := exec.outcome, Done;
    }
  }
}
