/** What every interleaving of a v1 run keeps, and what follows from it. */
module RunSafety {
  import opened Wrappers
  import opened Protocol
  import opened Motion
  import opened RunModel

  // ---------- the invariant ----------

  ghost predicate BufferInv(c: Config, points: seq<Point>, finalReceived: bool) {
    Trajectory(c.policy, c.header, points) &&
    (points != [] ==> |points| <= c.policy.maxPoints && EndUs(points) <= c.policy.maxDurationUs) &&
    (finalReceived ==> 2 <= |points| && c.digests.program(c.header, points) == c.expectedDigest)
  }

  /** Receipts exist exactly for the chunks accepted so far, end at strictly
      increasing times, and only the last one can be final. */
  ghost predicate ReceiptInv(receipts: map<int, (string, Receipt)>, expectedSeq: nat, points: seq<Point>,
                             finalReceived: bool) {
    (forall k :: k in receipts <==> 0 <= k < expectedSeq) &&
    (forall k :: k in receipts ==>
       receipts[k].1.chunkSeq == k && (receipts[k].1.final <==> finalReceived && k == expectedSeq - 1)) &&
    (forall i, k :: i in receipts && k in receipts && i < k ==>
       receipts[i].1.acceptedUntilUs < receipts[k].1.acceptedUntilUs) &&
    (expectedSeq == 0 <==> points == []) &&
    (expectedSeq > 0 ==> receipts[expectedSeq - 1].1.acceptedUntilUs == EndUs(points)) &&
    (finalReceived ==> expectedSeq > 0)
  }

  /** The stored cursor stays inside the buffer, and a streaming buffer stays inside
      the lookahead horizon. */
  ghost predicate CursorInv(c: Config, points: seq<Point>, cursorUs: int) {
    0 <= cursorUs <= EndUs(points) &&
    (c.runMode.Streaming? ==> EndUs(points) - cursorUs <= c.policy.maxHorizonUs)
  }

  predicate Arming(e: Executor) {
    e.Opening? || e.Checking? || e.AtStopGate? || e.Enabling? || e.Enabled?
  }

  predicate Moving(e: Executor) {
    e.Top? || e.Beating? || e.Snapping? || e.Sending? || e.Committing? || e.Finishing?
  }

  predicate Winding(e: Executor) {
    e.Closing? || e.Closed? || e.Crashed?
  }

  /** Start checks are behind, so the origin is known and every point resolves
      inside the limits. */
  predicate Cleared(r: Run) {
    r.exec.AtStopGate? || r.exec.Enabling? || r.exec.Enabled? || Moving(r.exec) || r.state.Running?
  }

  ghost predicate ControlInv(c: Config, r: Run) {
    (r.exec.Idle? ==> r.state.Buffering? || r.state.Stopped?) &&
    (r.state.Buffering? ==> r.exec.Idle? && r.origin.None?) &&
    (Arming(r.exec) ==> r.state.Arming?) &&
    (Moving(r.exec) ==> r.state.Running?) &&
    (Winding(r.exec) ==> r.state.Arming? || r.state.Running?) &&
    (r.exec.Done? ==> r.state.Terminal()) &&
    (r.exec.Closing? || r.exec.Closed? ==> r.exec.outcome.Terminal()) &&
    (!r.exec.Idle? ==> 2 <= |r.points|) &&
    (r.exec.Idle? || Arming(r.exec) ==> r.cursorUs == 0) &&
    (r.exec.Checking? ==> r.exec.snapshot == r.points && r.origin == Some(r.exec.measured)) &&
    (Cleared(r) ==> r.origin.Some? && AllResolvedOk(c, r.origin, r.points)) &&
    (r.sent != [] ==> r.origin.Some? && (Moving(r.exec) || Winding(r.exec) || r.exec.Done?))
  }

  /** The torque flag is on only between enabling and closing, and a backend that could
      hold the motors is still attached for as long.  The motors themselves may stay
      energised beyond that, when closing fails to switch them off. */
  ghost predicate TorqueInv(r: Run) {
    (r.torque ==> r.exec.Enabled? || Moving(r.exec) || r.exec.Closing? || r.exec.Crashed?) &&
    (r.hot ==> r.exec.Enabled? || Moving(r.exec) || Winding(r.exec) || r.exec.Done?) &&
    (r.exec.Enabled? || Moving(r.exec) ==> r.attached && r.torque) &&
    (r.exec.AtStopGate? || r.exec.Checking? || r.exec.Enabling? ==> r.attached) &&
    ((r.torque || r.hot) && r.exec.Closing? ==> r.attached)
  }

  /** The tick in progress: its time never runs behind the stored cursor, its segment
      index is behind that cursor, and its snapshot is a prefix of the buffer. */
  ghost predicate TickInv(r: Run) {
    match r.exec
    case Top(startedUs, segment, _) =>
      Carried(r, segment) && r.cursorUs <= Max(0, r.clockUs - startedUs)
    case Beating(startedUs, nowUs, segment, _) =>
      Carried(r, segment) && r.cursorUs <= Max(0, nowUs - startedUs) && nowUs <= r.clockUs
    case Snapping(startedUs, tickUs, segment, _) =>
      Carried(r, segment) && r.cursorUs <= tickUs <= Max(0, r.clockUs - startedUs)
    case Sending(startedUs, tickUs, snapshot, final, segment, _) =>
      Carried(r, segment) && segment < |snapshot| && snapshot <= r.points && 2 <= |snapshot| &&
      (final ==> snapshot == r.points && r.finalReceived) &&
      r.cursorUs <= tickUs <= Max(0, r.clockUs - startedUs)
    case Committing(startedUs, tickUs, segment, _) =>
      segment + 1 < |r.points| && (0 < segment ==> r.points[segment].tUs < tickUs) &&
      r.sent != [] && r.sent[|r.sent| - 1].tUs == tickUs &&
      r.cursorUs <= tickUs <= Max(0, r.clockUs - startedUs) && tickUs <= EndUs(r.points)
    case Finishing(tickUs) => r.cursorUs <= tickUs && EndsHere(r, tickUs)
    case _ => true
  }

  ghost predicate Carried(r: Run, segment: nat) {
    segment < |r.points| && (0 < segment ==> r.points[segment].tUs < r.cursorUs) &&
    (r.sent != [] ==> r.sent[|r.sent| - 1].tUs <= r.cursorUs)
  }

  /** The whole program has arrived and its last point was the last target. */
  ghost predicate EndsHere(r: Run, tickUs: int) {
    r.finalReceived && r.points != [] && tickUs == EndUs(r.points) &&
    r.sent != [] && r.sent[|r.sent| - 1].tUs == tickUs
  }

  ghost predicate CompletionInv(r: Run) {
    ((r.exec.Closing? || r.exec.Closed?) && r.exec.outcome.Completed? ==>
     r.state.Running? && EndsHere(r, r.cursorUs)) &&
    (r.state.Completed? ==> EndsHere(r, r.cursorUs))
  }

  /** The target belonging to a trajectory time. */
  function TargetAt(c: Config, points: seq<Point>, origin: Option<Pose>, tUs: int): Option<Pose>
    requires points != []
  {
    Resolve(c, origin, PositionAt(points, tUs))
  }

  ghost predicate SentOk(c: Config, points: seq<Point>, origin: Option<Pose>, command: Command) {
    points != [] && 0 <= command.tUs <= EndUs(points) &&
    TargetAt(c, points, origin, command.tUs) == Some(command.q) && InLimits(c.policy, command.q)
  }

  /** Every target sent so far is the trajectory's own value at its time, and times
      never go back. */
  ghost predicate SentInv(c: Config, points: seq<Point>, origin: Option<Pose>, sent: seq<Command>) {
    (forall i :: 0 <= i < |sent| ==> SentOk(c, points, origin, sent[i])) &&
    (forall i, k :: 0 <= i < k < |sent| ==> sent[i].tUs <= sent[k].tUs)
  }

  ghost predicate Inv(c: Config, r: Run) {
    BufferInv(c, r.points, r.finalReceived) &&
    ReceiptInv(r.receipts, r.expectedSeq, r.points, r.finalReceived) &&
    CursorInv(c, r.points, r.cursorUs) &&
    ControlInv(c, r) && TorqueInv(r) && TickInv(r) && CompletionInv(r) &&
    SentInv(c, r.points, r.origin, r.sent)
  }

  // ---------- appending ----------

  lemma {:induction false} ScanIff(c: Config, origin: Option<Pose>, base: seq<Point>, points: seq<Point>)
    requires Trajectory(c.policy, c.header, base)
    ensures ScanVerdict(c, origin, LastPoint(base), points).Pass?
       <==> Trajectory(c.policy, c.header, base + points) && AllResolvedOk(c, origin, points)
    decreases |points|
  {
    if points == [] {
      assert base + points == base;
    } else {
      var longer := base + [points[0]];
      assert base + points == longer + points[1..];
      OnePoint(c, base, points[0]);
      if PointOk(c, origin, LastPoint(base), points[0]) {
        ScanIff(c, origin, longer, points[1..]);
        assert AllResolvedOk(c, origin, points) <==> AllResolvedOk(c, origin, points[1..]) by {
          assert points == [points[0]] + points[1..];
        }
      } else if Trajectory(c.policy, c.header, base + points) {
        TrajectoryPrefix(c.policy, c.header, base + points, |longer|);
        assert (base + points)[..|longer|] == longer;
        assert !ResolvedOk(c, origin, points[0].q);
      }
    }
  }

  lemma OnePoint(c: Config, base: seq<Point>, point: Point)
    requires Trajectory(c.policy, c.header, base)
    ensures Trajectory(c.policy, c.header, base + [point]) <==> PointOk(c, None, LastPoint(base), point)
  {
    var longer := base + [point];
    assert forall i :: 0 <= i < |base| ==> longer[i] == base[i];
    if base != [] && Trajectory(c.policy, c.header, longer) {
      assert SegmentOk(c.policy, longer[|base| - 1], longer[|base|]);
    }
  }

  /** Appending leaves the motion up to the old end untouched, so earlier targets
      stay what they were. */
  lemma SentSurvivesAppend(c: Config, points: seq<Point>, longer: seq<Point>, origin: Option<Pose>, sent: seq<Command>)
    requires SentInv(c, points, origin, sent) && Trajectory(c.policy, c.header, longer) && points <= longer
    ensures SentInv(c, longer, origin, sent)
  {
    hide PositionAt, InLimits, Resolve, PositionsOk;
    forall i | 0 <= i < |sent|
      ensures SentOk(c, longer, origin, sent[i])
    {
      assert SentOk(c, points, origin, sent[i]);
      PositionExtends(c.policy, points, longer, sent[i].tUs);
      LaterIsLater(c.policy, longer, |points| - 1, |longer| - 1);
    }
  }

  /** Everything the checks of a first-time accepted chunk establish. */
  ghost predicate Fits(c: Config, r: Run, points: seq<Point>, final: bool) {
    var longer := r.points + points;
    (r.state.Buffering? || r.state.Running?) && !r.finalReceived && points != [] &&
    Trajectory(c.policy, c.header, longer) && AllResolvedOk(c, r.origin, points) &&
    |longer| <= c.policy.maxPoints && EndUs(points) <= c.policy.maxDurationUs && (final ==> 2 <= |longer|) &&
    (c.runMode.Streaming? ==> EndUs(points) - r.cursorUs <= c.policy.maxHorizonUs) &&
    (final ==> c.digests.program(c.header, longer) == c.expectedDigest)
  }

  lemma PassMeansFits(c: Config, r: Run, chunkSeq: int, points: seq<Point>, final: bool)
    requires Trajectory(c.policy, c.header, r.points)
    ensures AppendVerdict(c, r, chunkSeq, points, final).Pass?
       <==> chunkSeq == r.expectedSeq && |points| <= c.policy.maxChunkPoints && Fits(c, r, points, final)
  {
    ScanIff(c, r.origin, r.points, points);
  }

  lemma EndGrows(c: Config, before: seq<Point>, points: seq<Point>)
    requires points != [] && Trajectory(c.policy, c.header, before + points)
    ensures EndUs(before + points) == EndUs(points)
    ensures if before == [] then 0 <= EndUs(points) else EndUs(before) < EndUs(points)
  {
    var longer := before + points;
    if before != [] {
      TimesIncrease(c.policy, longer, |before| - 1, |longer| - 1);
    } else if |longer| > 1 {
      TimesIncrease(c.policy, longer, 0, |longer| - 1);
    }
  }

  function Grow(r: Run, points: seq<Point>, final: bool, digest: string, receipt: Receipt): Run {
    r.(points := r.points + points, expectedSeq := r.expectedSeq + 1, finalReceived := final,
       receipts := r.receipts[r.expectedSeq := (digest, receipt)])
  }

  lemma GrowKeepsReceipts(c: Config, r: Run, points: seq<Point>, final: bool, digest: string, receipt: Receipt)
    requires ReceiptInv(r.receipts, r.expectedSeq, r.points, r.finalReceived) && Fits(c, r, points, final)
    requires receipt.chunkSeq == r.expectedSeq && receipt.final == final && receipt.acceptedUntilUs == EndUs(points)
    ensures var r' := Grow(r, points, final, digest, receipt);
            ReceiptInv(r'.receipts, r'.expectedSeq, r'.points, r'.finalReceived)
  {
    hide Trajectory;
    EndGrows(c, r.points, points);
  }

  lemma GrowKeepsControl(c: Config, r: Run, points: seq<Point>, final: bool, digest: string, receipt: Receipt)
    requires ControlInv(c, r) && TorqueInv(r) && TickInv(r) && CompletionInv(r) && Fits(c, r, points, final)
    requires EndUs(r.points) <= EndUs(r.points + points)
    ensures var r' := Grow(r, points, final, digest, receipt);
            ControlInv(c, r') && TorqueInv(r') && TickInv(r') && CompletionInv(r')
  {
    hide Trajectory, ResolvedOk;
  }

  lemma AppendKeeps(c: Config, r: Run, chunkSeq: int, points: seq<Point>, final: bool, digest: string)
    requires Inv(c, r)
    ensures Inv(c, AppendStep(c, r, chunkSeq, points, final, digest))
  {
    hide ReceiptInv, ControlInv, TorqueInv, TickInv, CompletionInv, SentInv, Trajectory;
    var outcome := AppendOutcome(c, r, chunkSeq, points, final, digest);
    if outcome.Accepted? && chunkSeq !in r.receipts {
      PassMeansFits(c, r, chunkSeq, points, final);
      EndGrows(c, r.points, points);
      GrowKeepsReceipts(c, r, points, final, digest, outcome.value);
      GrowKeepsControl(c, r, points, final, digest, outcome.value);
      SentSurvivesAppend(c, r.points, r.points + points, r.origin, r.sent);
    }
  }

  // ---------- sending ----------

  lemma SnapshotSegments(c: Config, r: Run)
    requires BufferInv(c, r.points, r.finalReceived) && TickInv(r) && r.exec.Sending?
    ensures SegmentsOk(c.policy, r.exec.snapshot)
  {
    TrajectoryPrefix(c.policy, c.header, r.points, |r.exec.snapshot|);
    assert r.points[..|r.exec.snapshot|] == r.exec.snapshot;
  }

  /** The carried segment index always equals a fresh search, and the tick falls off
      the snapshot exactly when its time is past the last point. */
  lemma TickSegment(c: Config, r: Run)
    requires BufferInv(c, r.points, r.finalReceived) && TickInv(r) && r.exec.Sending?
    requires 0 <= r.cursorUs
    ensures var points, tickUs := r.exec.snapshot, r.exec.tickUs;
            var segment := Advance(points, tickUs, r.exec.segment);
            segment == Advance(points, tickUs, 0) &&
            (segment + 1 >= |points| <==> EndUs(points) < tickUs) &&
            (segment + 1 < |points| ==> points[segment].tUs <= tickUs <= points[segment + 1].tUs)
  {
    var points, tickUs := r.exec.snapshot, r.exec.tickUs;
    var segment := Advance(points, tickUs, r.exec.segment);
    SnapshotSegments(c, r);
    CarriedSearchIsFresh(c.policy, points, tickUs, r.exec.segment);
    if segment + 1 < |points| {
      LaterIsLater(c.policy, points, segment + 1, |points| - 1);
    }
  }

  lemma PointInLimits(c: Config, r: Run, i: nat)
    requires BufferInv(c, r.points, r.finalReceived) && AllResolvedOk(c, r.origin, r.points) && r.origin.Some? &&
             i < |r.points|
    ensures var base := if c.header.mode.RelativeDeg? then r.origin.value else ZERO;
            InLimits(c.policy, Shift(base, r.points[i].q)) &&
            Resolve(c, r.origin, r.points[i].q) == Some(Shift(base, r.points[i].q))
  {
    assert ResolvedOk(c, r.origin, r.points[i].q) && PositionOk(c.policy, c.header.mode, r.points[i].q);
    ShiftByZero(r.points[i].q);
  }

  lemma SegmentTargetInLimits(c: Config, r: Run, segment: nat, tickUs: int)
    requires BufferInv(c, r.points, r.finalReceived) && AllResolvedOk(c, r.origin, r.points) && r.origin.Some? &&
             segment + 1 < |r.points|
    ensures var target := Resolve(c, r.origin, Interpolate(r.points[segment], r.points[segment + 1], tickUs));
            target.Some? && InLimits(c.policy, target.value)
  {
    hide InLimits, Interpolate, BufferInv;
    PointInLimits(c, r, segment);
    PointInLimits(c, r, segment + 1);
    var base := if c.header.mode.RelativeDeg? then r.origin.value else ZERO;
    InterpolateInLimits(c.policy, base, r.points[segment], r.points[segment + 1], tickUs);
    ShiftByZero(Interpolate(r.points[segment], r.points[segment + 1], tickUs));
  }

  /** The target computed by an ordinary tick is the trajectory's own value at the
      tick time, and lies within the joint limits in both coordinate modes. */
  lemma TickTarget(c: Config, r: Run)
    requires BufferInv(c, r.points, r.finalReceived) && ControlInv(c, r) && TickInv(r) && r.exec.Sending?
    requires 0 <= r.cursorUs && r.exec.tickUs <= EndUs(r.exec.snapshot)
    ensures var points, tickUs := r.exec.snapshot, r.exec.tickUs;
            var segment := Advance(points, tickUs, r.exec.segment);
            segment + 1 < |points| &&
            var target := Resolve(c, r.origin, Interpolate(points[segment], points[segment + 1], tickUs));
            target.Some? && SentOk(c, r.points, r.origin, Command(tickUs, target.value))
  {
    hide InLimits, Interpolate, ResolvedOk, AllResolvedOk;
    var points, tickUs := r.exec.snapshot, r.exec.tickUs;
    var segment := Advance(points, tickUs, r.exec.segment);
    SnapshotSegments(c, r);
    TickSegment(c, r);
    PositionExtends(c.policy, points, r.points, tickUs);
    LaterIsLater(c.policy, r.points, |points| - 1, |r.points| - 1);
    SegmentTargetInLimits(c, r, segment, tickUs);
  }

  /** The closing target of a complete program is its last point. */
  lemma LastTarget(c: Config, r: Run)
    requires BufferInv(c, r.points, r.finalReceived) && ControlInv(c, r) && Moving(r.exec)
    ensures var target := Resolve(c, r.origin, r.points[|r.points| - 1].q);
            target.Some? && SentOk(c, r.points, r.origin, Command(EndUs(r.points), target.value))
  {
    hide InLimits, ResolvedOk, AllResolvedOk, PositionAt;
    PointInLimits(c, r, |r.points| - 1);
    PositionAtKnot(c.policy, r.points, |r.points| - 1);
    LaterIsLater(c.policy, r.points, 0, |r.points| - 1);
  }

  lemma SentGrows(c: Config, points: seq<Point>, origin: Option<Pose>, sent: seq<Command>, command: Command)
    requires SentInv(c, points, origin, sent) && SentOk(c, points, origin, command)
    requires sent != [] ==> sent[|sent| - 1].tUs <= command.tUs
    ensures SentInv(c, points, origin, sent + [command])
  {
    hide SentOk;
  }

  /** Any failure of the executor leads to shutdown with the invariant intact. */
  lemma FailKeeps(c: Config, r: Run, code: Code)
    requires BufferInv(c, r.points, r.finalReceived) && ReceiptInv(r.receipts, r.expectedSeq, r.points, r.finalReceived)
    requires CursorInv(c, r.points, r.cursorUs) && SentInv(c, r.points, r.origin, r.sent)
    requires ControlInv(c, r) && (Arming(r.exec) || Moving(r.exec))
    requires r.torque || r.hot ==> r.attached
    ensures Inv(c, FailWith(r, code))
  {
    hide BufferInv, ReceiptInv, CursorInv, SentInv, AllResolvedOk;
  }

  lemma SendOrdinaryKeeps(c: Config, r: Run, target: Pose, segment: nat, violations: nat)
    requires Inv(c, r) && r.exec.Sending? && SentOk(c, r.points, r.origin, Command(r.exec.tickUs, target))
    requires segment + 1 < |r.exec.snapshot| && (0 < segment ==> r.exec.snapshot[segment].tUs < r.exec.tickUs)
    ensures var r' := r.(sent := r.sent + [Command(r.exec.tickUs, target)]);
            Inv(c, r'.(exec := Committing(r.exec.startedUs, r.exec.tickUs, segment, violations))) &&
            Inv(c, FailWith(r', HardwareFault))
  {
    hide BufferInv, ReceiptInv, SentInv, AllResolvedOk, InLimits, PositionAt, Resolve;
    var command := Command(r.exec.tickUs, target);
    SentGrows(c, r.points, r.origin, r.sent, command);
    var r' := r.(sent := r.sent + [command]);
    FailKeeps(c, r', HardwareFault);
  }

  lemma SendLastKeeps(c: Config, r: Run, target: Pose)
    requires Inv(c, r) && r.exec.Sending? && r.exec.final && EndUs(r.points) < r.exec.tickUs
    requires SentOk(c, r.points, r.origin, Command(EndUs(r.points), target))
    ensures var r' := r.(sent := r.sent + [Command(EndUs(r.points), target)]);
            Inv(c, r'.(exec := Finishing(EndUs(r.points)))) && Inv(c, FailWith(r', HardwareFault))
  {
    hide BufferInv, ReceiptInv, SentInv, AllResolvedOk, InLimits, PositionAt, Resolve;
    var command := Command(EndUs(r.points), target);
    SentGrows(c, r.points, r.origin, r.sent, command);
    var r' := r.(sent := r.sent + [command]);
    FailKeeps(c, r', HardwareFault);
  }

  lemma SendKeeps(c: Config, r: Run, measured: Option<Pose>, sendOk: bool)
    requires Inv(c, r)
    ensures Inv(c, SendStep(c, r, measured, sendOk))
  {
    hide Inv, BufferInv, ReceiptInv, CursorInv, SentInv, SentOk, ControlInv, SendInterpolated, SendLast, FailWith;
    if r.exec.Sending? {
      InvParts(c, r);
      FailKeeps(c, r, BufferUnderrun);
      CursorIsNonNegative(c, r.points, r.cursorUs);
      TickSegment(c, r);
      if r.exec.tickUs <= EndUs(r.exec.snapshot) {
        InterpolatedKeeps(c, r, measured, sendOk);
      } else if r.exec.final {
        LastKeeps(c, r, sendOk);
      }
    }
  }

  lemma InterpolatedKeeps(c: Config, r: Run, measured: Option<Pose>, sendOk: bool)
    requires Inv(c, r) && r.exec.Sending? && r.exec.tickUs <= EndUs(r.exec.snapshot)
    ensures var segment := Advance(r.exec.snapshot, r.exec.tickUs, r.exec.segment);
            segment + 1 < |r.exec.snapshot| && Inv(c, SendInterpolated(c, r, segment, measured, sendOk))
  {
    hide Inv, BufferInv, ReceiptInv, CursorInv, SentInv, SentOk, ControlInv, Interpolate, Resolve, Exceeded, FailWith;
    InvParts(c, r);
    FailKeeps(c, r, HardwareFault);
    FailKeeps(c, r, TrackingError);
    CursorIsNonNegative(c, r.points, r.cursorUs);
    TickTarget(c, r);
    TickSegment(c, r);
    var points, tickUs := r.exec.snapshot, r.exec.tickUs;
    var segment := Advance(points, tickUs, r.exec.segment);
    var target := Resolve(c, r.origin, Interpolate(points[segment], points[segment + 1], tickUs));
    var exceeded := measured.Some? && Exceeded(c.policy, target.value, measured.value);
    var violations := if exceeded then r.exec.violations + 1 else 0;
    SendOrdinaryKeeps(c, r, target.value, segment, violations);
  }

  lemma LastKeeps(c: Config, r: Run, sendOk: bool)
    requires Inv(c, r) && r.exec.Sending? && r.exec.final && EndUs(r.exec.snapshot) < r.exec.tickUs
    ensures r.exec.snapshot == r.points && Inv(c, SendLast(c, r, sendOk))
  {
    hide Inv, BufferInv, ReceiptInv, CursorInv, SentInv, SentOk, ControlInv, Resolve, FailWith;
    InvParts(c, r);
    LastTarget(c, r);
    SendLastKeeps(c, r, Resolve(c, r.origin, r.points[|r.points| - 1].q).value);
  }

  lemma CursorIsNonNegative(c: Config, points: seq<Point>, cursorUs: int)
    requires CursorInv(c, points, cursorUs)
    ensures 0 <= cursorUs
  {
  }

  lemma InvParts(c: Config, r: Run)
    requires Inv(c, r)
    ensures BufferInv(c, r.points, r.finalReceived) && ReceiptInv(r.receipts, r.expectedSeq, r.points, r.finalReceived)
    ensures CursorInv(c, r.points, r.cursorUs) && SentInv(c, r.points, r.origin, r.sent)
    ensures ControlInv(c, r) && TorqueInv(r) && TickInv(r) && CompletionInv(r)
  {
  }

  // ---------- every action ----------

  lemma StartKeeps(c: Config, r: Run)
    requires Inv(c, r)
    ensures Inv(c, StartStep(c, r))
  {
    hide BufferInv, ReceiptInv, CursorInv, SentInv, AllResolvedOk;
  }

  lemma ConnectionLostKeeps(c: Config, r: Run)
    requires Inv(c, r)
    ensures Inv(c, ConnectionLostStep(r))
  {
    hide BufferInv, ReceiptInv, CursorInv, SentInv, AllResolvedOk;
  }

  lemma StopKeeps(c: Config, r: Run)
    requires Inv(c, r)
    ensures Inv(c, StopStep(r))
  {
    hide BufferInv, ReceiptInv, CursorInv, SentInv, AllResolvedOk;
  }

  lemma HeartbeatKeeps(c: Config, r: Run, nowUs: int)
    requires Inv(c, r)
    ensures Inv(c, HeartbeatStep(r, nowUs))
  {
    hide BufferInv, ReceiptInv, CursorInv, SentInv, AllResolvedOk;
  }

  lemma OpenKeeps(c: Config, r: Run, bus: Opened)
    requires Inv(c, r)
    ensures Inv(c, OpenStep(r, bus))
  {
    hide BufferInv, ReceiptInv, CursorInv, SentInv, AllResolvedOk;
    if r.exec.Opening? && bus.Pose? { OriginSettles(c, r.points, Some(bus.q)); }
  }

  // Nothing has been sent while the origin is still unknown.
  lemma OriginSettles(c: Config, points: seq<Point>, origin: Option<Pose>)
    ensures SentInv(c, points, origin, [])
  {
  }

  lemma CheckKeeps(c: Config, r: Run)
    requires Inv(c, r)
    ensures Inv(c, CheckStep(c, r))
  {
    hide Inv, BufferInv, ReceiptInv, CursorInv, SentInv, ResolvedOk, StartPoseOk;
    if r.exec.Checking? {
      InvParts(c, r);
      forall code { FailKeeps(c, r, code); }
      if c.header.mode.AbsoluteDeg? || AllResolvedOk(c, r.origin, r.exec.snapshot) { GateOpens(c, r); }
    }
  }

  lemma GateOpens(c: Config, r: Run)
    requires Inv(c, r) && r.exec.Checking? &&
             (c.header.mode.RelativeDeg? ==> AllResolvedOk(c, r.origin, r.exec.snapshot))
    ensures Inv(c, r.(exec := AtStopGate))
  {
    hide BufferInv, ReceiptInv, CursorInv, SentInv;
    assert AllResolvedOk(c, r.origin, r.points);
  }

  lemma GateKeeps(c: Config, r: Run)
    requires Inv(c, r)
    ensures Inv(c, GateStep(r))
  {
    hide BufferInv, ReceiptInv, CursorInv, SentInv, AllResolvedOk;
  }

  lemma EnableKeeps(c: Config, r: Run, ok: bool, leftHot: bool)
    requires Inv(c, r)
    ensures Inv(c, EnableStep(r, ok, leftHot))
  {
    hide BufferInv, ReceiptInv, CursorInv, SentInv, AllResolvedOk;
  }

  lemma EnterRunningKeeps(c: Config, r: Run, nowUs: int)
    requires Inv(c, r)
    ensures Inv(c, EnterRunningStep(r, nowUs))
  {
    hide BufferInv, ReceiptInv, CursorInv, SentInv, AllResolvedOk;
  }

  lemma BeginTickKeeps(c: Config, r: Run, nowUs: int)
    requires Inv(c, r)
    ensures Inv(c, BeginTickStep(r, nowUs))
  {
    hide BufferInv, ReceiptInv, CursorInv, SentInv, AllResolvedOk;
  }

  lemma CheckHeartbeatKeeps(c: Config, r: Run)
    requires Inv(c, r)
    ensures Inv(c, CheckHeartbeatStep(c, r))
  {
    hide BufferInv, ReceiptInv, CursorInv, SentInv, AllResolvedOk;
  }

  lemma SnapshotKeeps(c: Config, r: Run)
    requires Inv(c, r)
    ensures Inv(c, TakeSnapshotStep(r))
  {
    hide BufferInv, ReceiptInv, CursorInv, SentInv, AllResolvedOk;
  }

  lemma CommitKeeps(c: Config, r: Run, overrun: bool)
    requires Inv(c, r)
    ensures Inv(c, CommitStep(r, overrun))
  {
    hide BufferInv, ReceiptInv, SentInv, AllResolvedOk;
  }

  lemma CloseKeeps(c: Config, r: Run, ok: bool, leftHot: bool)
    requires Inv(c, r)
    ensures Inv(c, CloseStep(r, ok, leftHot))
  {
    hide BufferInv, ReceiptInv, CursorInv, SentInv, AllResolvedOk;
  }

  lemma FinishKeeps(c: Config, r: Run)
    requires Inv(c, r)
    ensures Inv(c, FinishStep(r))
  {
    hide BufferInv, ReceiptInv, CursorInv, SentInv, AllResolvedOk;
  }

  lemma StepKeeps(c: Config, r: Run, a: Action)
    requires Inv(c, r)
    ensures Inv(c, Step(c, r, a))
  {
    hide Inv, AppendStep, StartStep, HeartbeatStep, StopStep, ConnectionLostStep, OpenStep, CheckStep, GateStep,
         EnableStep, EnterRunningStep, BeginTickStep, CheckHeartbeatStep, TakeSnapshotStep, SendStep, CommitStep,
         CloseStep, FinishStep;
    match a
    case Append(chunkSeq, points, final, digest) => AppendKeeps(c, r, chunkSeq, points, final, digest);
    case Start => StartKeeps(c, r);
    case Heartbeat(nowUs) => HeartbeatKeeps(c, r, nowUs);
    case RequestStop => StopKeeps(c, r);
    case ConnectionLost => ConnectionLostKeeps(c, r);
    case Open(bus) => OpenKeeps(c, r, bus);
    case Check => CheckKeeps(c, r);
    case StopGate => GateKeeps(c, r);
    case Enable(ok, leftHot) => EnableKeeps(c, r, ok, leftHot);
    case EnterRunning(nowUs) => EnterRunningKeeps(c, r, nowUs);
    case BeginTick(nowUs) => BeginTickKeeps(c, r, nowUs);
    case CheckHeartbeat => CheckHeartbeatKeeps(c, r);
    case TakeSnapshot => SnapshotKeeps(c, r);
    case Send(measured, sendOk) => SendKeeps(c, r, measured, sendOk);
    case Commit(overrun) => CommitKeeps(c, r, overrun);
    case HoldThenClose(ok, leftHot) => CloseKeeps(c, r, ok, leftHot);
    case Finish => FinishKeeps(c, r);
  }

  lemma {:induction false} ExecuteKeeps(c: Config, r: Run, actions: seq<Action>)
    requires Inv(c, r)
    ensures Inv(c, Execute(c, r, actions))
    decreases |actions|
  {
    hide Inv, Step;
    if actions != [] {
      StepKeeps(c, r, actions[0]);
      ExecuteKeeps(c, Step(c, r, actions[0]), actions[1..]);
    }
  }

  /** Every state any interleaving can reach satisfies the invariant. */
  lemma Reachable(c: Config, nowUs: int, actions: seq<Action>)
    ensures Inv(c, Execute(c, Initial(nowUs), actions))
  {
    ExecuteKeeps(c, Initial(nowUs), actions);
  }
}
