/** Trajectory points, the safety policy, its validators and the interpolation of one
    segment (robot_protocol.py). */
module Protocol {
  import opened Wrappers
  import opened Quintic

  const JOINT_COUNT := 6

  type Pose = q: seq<real> | |q| == JOINT_COUNT witness [0.0, 0.0, 0.0, 0.0, 0.0, 0.0]
  type Positive = n: int | 1 <= n witness 1

  datatype Point = Point(tUs: int, q: Pose)

  datatype CoordinateMode = AbsoluteDeg | RelativeDeg

  datatype Header = Header(programId: string, mode: CoordinateMode)

  datatype Code =
    | HashMismatch | DuplicateConflict | OutOfOrder | RunStateConflict | ChunkSize
    | InvalidTime | StartStateMismatch | LimitViolation | VelocityLimit | AccelerationLimit
    | ResourceLimit | SchemaInvalid | QueueFull | NotReady | Cancelled | HeartbeatLost
    | BufferUnderrun | TrackingError | ControlCycleOverrun | HardwareFault

  datatype Verdict = Pass | Fail(code: Code)

  datatype Policy = Policy(
    jointMin: Pose, jointMax: Pose, maxRelative: real,
    maxVelocity: real, maxAcceleration: real,
    minSegmentUs: Positive, maxPoints: int, maxDurationUs: int,
    maxChunkPoints: int, maxHorizonUs: nat, startBufferUs: int,
    startTolerance: real, trackingError: real, gripperTrackingError: Option<real>)

  /** The policy a server has unless it is told otherwise. */
  const DEFAULT_POLICY := Policy(
    [-100.0, -100.0, -100.0, -100.0, -100.0, -100.0], [100.0, 100.0, 100.0, 100.0, 100.0, 100.0], 45.0,
    30.0, 120.0, 100000, 100000, 3600000000, 512, 30000000, 2000000, 5.0, 15.0, None)

  function Seconds(us: int): (s: real)
    ensures (0 < us <==> 0.0 < s) && (us == 0 <==> s == 0.0)
  {
    us as real / 1000000.0
  }

  lemma WholeSeconds(n: int)
    ensures Seconds(1000000 * n) == n as real
  {
  }

  // ---------- what the validators decide ----------

  predicate InLimits(policy: Policy, q: Pose) {
    forall j :: 0 <= j < JOINT_COUNT ==> policy.jointMin[j] <= q[j] <= policy.jointMax[j]
  }

  predicate PositionOk(policy: Policy, mode: CoordinateMode, q: Pose) {
    match mode
    case AbsoluteDeg => InLimits(policy, q)
    case RelativeDeg => forall j :: 0 <= j < JOINT_COUNT ==> Abs(q[j]) <= policy.maxRelative
  }

  predicate JointVelocityOk(policy: Policy, from: real, to: real, dt: real)
    requires dt > 0.0
  {
    PEAK_VELOCITY * Abs(to - from) / dt <= policy.maxVelocity
  }

  predicate JointAccelerationOk(policy: Policy, from: real, to: real, dt: real)
    requires dt > 0.0
  {
    PEAK_ACCELERATION * Abs(to - from) / (dt * dt) <= policy.maxAcceleration
  }

  predicate JointRatesOk(policy: Policy, previous: Point, current: Point, j: nat)
    requires previous.tUs < current.tUs && j < JOINT_COUNT
  {
    var dt := Seconds(current.tUs - previous.tUs);
    JointVelocityOk(policy, previous.q[j], current.q[j], dt) &&
    JointAccelerationOk(policy, previous.q[j], current.q[j], dt)
  }

  predicate SegmentOk(policy: Policy, previous: Point, current: Point) {
    policy.minSegmentUs <= current.tUs - previous.tUs &&
    forall j :: 0 <= j < JOINT_COUNT ==> JointRatesOk(policy, previous, current, j)
  }

  predicate StartsAtOrigin(mode: CoordinateMode, q: Pose) {
    mode.RelativeDeg? ==> forall j :: 0 <= j < JOINT_COUNT ==> Abs(q[j]) <= 0.000000001
  }

  predicate SegmentsOk(policy: Policy, points: seq<Point>) {
    forall i :: 0 <= i < |points| - 1 ==> SegmentOk(policy, points[i], points[i + 1])
  }

  predicate PositionsOk(policy: Policy, mode: CoordinateMode, points: seq<Point>) {
    forall i :: 0 <= i < |points| ==> PositionOk(policy, mode, points[i].q)
  }

  /** A buffer every prefix of which has passed validation. */
  predicate Trajectory(policy: Policy, header: Header, points: seq<Point>) {
    (points != [] ==> points[0].tUs == 0 && StartsAtOrigin(header.mode, points[0].q)) &&
    SegmentsOk(policy, points) && PositionsOk(policy, header.mode, points)
  }

  predicate ProgramOk(policy: Policy, header: Header, points: seq<Point>, requireComplete: bool) {
    points != [] && Trajectory(policy, header, points) &&
    |points| <= policy.maxPoints && points[|points| - 1].tUs <= policy.maxDurationUs &&
    (requireComplete ==> 2 <= |points|)
  }

  // ---------- the validators ----------

  method ValidatePosition(policy: Policy, point: Point, mode: CoordinateMode) returns (v: Verdict)
    ensures v == if PositionOk(policy, mode, point.q) then Pass else Fail(LimitViolation)
  {
    for j := 0 to JOINT_COUNT
      invariant forall k :: 0 <= k < j ==>
        if mode.RelativeDeg? then Abs(point.q[k]) <= policy.maxRelative
        else policy.jointMin[k] <= point.q[k] <= policy.jointMax[k]
    {
      var value := point.q[j];
      if mode == RelativeDeg {
        if Abs(value) > policy.maxRelative { return Fail(LimitViolation); }
      } else if !(policy.jointMin[j] <= value <= policy.jointMax[j]) {
        return Fail(LimitViolation);
      }
    }
    return Pass;
  }

  /** The first joint from `j` on that breaks a rate limit decides the code; velocity
      is looked at before acceleration. */
  function RateVerdict(policy: Policy, previous: Point, current: Point, j: nat): (v: Verdict)
    requires previous.tUs < current.tUs && j <= JOINT_COUNT
    ensures v.Pass? <==> forall k :: j <= k < JOINT_COUNT ==> JointRatesOk(policy, previous, current, k)
    decreases JOINT_COUNT - j
  {
    var dt := Seconds(current.tUs - previous.tUs);
    if j == JOINT_COUNT then Pass
    else if !JointVelocityOk(policy, previous.q[j], current.q[j], dt) then
      assert !JointRatesOk(policy, previous, current, j);
      Fail(VelocityLimit)
    else if !JointAccelerationOk(policy, previous.q[j], current.q[j], dt) then
      assert !JointRatesOk(policy, previous, current, j);
      Fail(AccelerationLimit)
    else RateVerdict(policy, previous, current, j + 1)
  }

  function SegmentVerdict(policy: Policy, previous: Point, current: Point): (v: Verdict)
    ensures v.Pass? <==> SegmentOk(policy, previous, current)
  {
    if current.tUs - previous.tUs < policy.minSegmentUs then Fail(InvalidTime)
    else RateVerdict(policy, previous, current, 0)
  }

  method ValidateSegment(policy: Policy, previous: Point, current: Point) returns (v: Verdict)
    ensures v == SegmentVerdict(policy, previous, current)
  {
    var dtUs := current.tUs - previous.tUs;
    if dtUs < policy.minSegmentUs { return Fail(InvalidTime); }
    var dt := Seconds(dtUs);
    for j := 0 to JOINT_COUNT
      invariant RateVerdict(policy, previous, current, j) == RateVerdict(policy, previous, current, 0)
    {
      if !JointVelocityOk(policy, previous.q[j], current.q[j], dt) { return Fail(VelocityLimit); }
      if !JointAccelerationOk(policy, previous.q[j], current.q[j], dt) { return Fail(AccelerationLimit); }
    }
    return Pass;
  }

  /** What is wrong with point `i` of a program, looked at after all points before it. */
  function PointFault(policy: Policy, mode: CoordinateMode, points: seq<Point>, i: nat): Option<Code>
    requires i < |points|
  {
    if points[i].tUs < 0 || policy.maxDurationUs < points[i].tUs then Some(InvalidTime)
    else if !PositionOk(policy, mode, points[i].q) then Some(LimitViolation)
    else if i == 0 then None
    else
      var v := SegmentVerdict(policy, points[i - 1], points[i]);
      if v.Fail? then Some(v.code) else None
  }

  /** Point `i` is the first one with anything wrong, and this is what. */
  predicate FirstFault(policy: Policy, mode: CoordinateMode, points: seq<Point>, i: nat, code: Code) {
    i < |points| && PointFault(policy, mode, points, i) == Some(code) &&
    forall k :: 0 <= k < i ==> PointFault(policy, mode, points, k).None?
  }

  /** What is wrong with a program as a whole, before its points are looked at. */
  function HeadFault(policy: Policy, header: Header, points: seq<Point>): Option<Code> {
    if points == [] then Some(SchemaInvalid)
    else if policy.maxPoints < |points| then Some(ResourceLimit)
    else if points[0].tUs != 0 then Some(InvalidTime)
    else if !StartsAtOrigin(header.mode, points[0].q) then Some(StartStateMismatch)
    else None
  }

  method ValidatePoints(header: Header, points: seq<Point>, policy: Policy, requireComplete: bool)
    returns (v: Verdict)
    ensures v.Pass? <==> ProgramOk(policy, header, points, requireComplete)
    ensures v.Fail? ==>
              if HeadFault(policy, header, points).Some? then v.code == HeadFault(policy, header, points).value
              else
                (exists i: nat :: FirstFault(policy, header.mode, points, i, v.code)) ||
                (v.code == SchemaInvalid && |points| == 1 && ProgramOk(policy, header, points, false))
  {
    if points == [] { return Fail(SchemaInvalid); }
    if |points| > policy.maxPoints { return Fail(ResourceLimit); }
    if points[0].tUs != 0 { return Fail(InvalidTime); }
    if !StartsAtOrigin(header.mode, points[0].q) { return Fail(StartStateMismatch); }
    var previous: Option<Point> := None;
    for i := 0 to |points|
      invariant previous == if i == 0 then None else Some(points[i - 1])
      invariant Trajectory(policy, header, points[..i])
      invariant i > 0 ==> points[i - 1].tUs <= policy.maxDurationUs
      invariant forall k :: 0 <= k < i ==> PointFault(policy, header.mode, points, k).None?
    {
      var point := points[i];
      if point.tUs < 0 || point.tUs > policy.maxDurationUs {
        TimesIncreaseUnless(policy, points, i);
        assert FirstFault(policy, header.mode, points, i, InvalidTime);
        return Fail(InvalidTime);
      }
      var position := ValidatePosition(policy, point, header.mode);
      if position.Fail? {
        assert FirstFault(policy, header.mode, points, i, LimitViolation);
        return position;
      }
      if previous.Some? {
        assert previous.value == points[i - 1];
        var segment := ValidateSegment(policy, previous.value, point);
        if segment.Fail? {
          assert FirstFault(policy, header.mode, points, i, segment.code);
          return segment;
        }
      }
      previous := Some(point);
    }
    assert points[..|points|] == points;
    if requireComplete && |points| < 2 { return Fail(SchemaInvalid); }
    return Pass;
  }

  /** Accepted times increase strictly, wherever two points sit in the trajectory. */
  lemma {:induction false} TimesIncrease(policy: Policy, points: seq<Point>, i: nat, k: nat)
    requires SegmentsOk(policy, points) && i < k < |points|
    ensures points[i].tUs < points[k].tUs
  {
    assert SegmentOk(policy, points[k - 1], points[k]);
    if i < k - 1 { TimesIncrease(policy, points, i, k - 1); }
  }

  lemma TimesIncreaseUnless(policy: Policy, points: seq<Point>, i: nat)
    requires i < |points| && points[0].tUs == 0
    requires points[i].tUs < 0 || points[i].tUs > policy.maxDurationUs
    ensures !SegmentsOk(policy, points) || points[|points| - 1].tUs > policy.maxDurationUs
  {
    if SegmentsOk(policy, points) {
      if 0 < i { TimesIncrease(policy, points, 0, i); }
      if i < |points| - 1 { TimesIncrease(policy, points, i, |points| - 1); }
    }
  }

  lemma TrajectoryPrefix(policy: Policy, header: Header, points: seq<Point>, n: nat)
    requires Trajectory(policy, header, points) && n <= |points|
    ensures Trajectory(policy, header, points[..n])
  {
    forall i | 0 <= i < n - 1
      ensures SegmentOk(policy, points[..n][i], points[..n][i + 1])
    {
      assert SegmentOk(policy, points[i], points[i + 1]);
    }
  }

  // ---------- interpolation ----------

  function Lerp(a: real, b: real, weight: real): real {
    a + (b - a) * weight
  }

  function Mix(a: Pose, b: Pose, weight: real): (r: Pose)
    ensures forall j :: 0 <= j < JOINT_COUNT ==> r[j] == Lerp(a[j], b[j], weight)
  {
    seq(JOINT_COUNT, j requires 0 <= j < JOINT_COUNT => Lerp(a[j], b[j], weight))
  }

  function Interpolate(previous: Point, current: Point, tUs: int): Pose {
    if tUs <= previous.tUs then previous.q
    else if tUs >= current.tUs then current.q
    else
      var u := (tUs - previous.tUs) as real / (current.tUs - previous.tUs) as real;
      Mix(previous.q, current.q, Blend(u))
  }

  /** Normalised time of a segment, clamped at both ends. */
  ghost function Progress(previous: Point, current: Point, tUs: int): (u: real)
    requires previous.tUs < current.tUs
    ensures 0.0 <= u <= 1.0
    ensures previous.tUs <= tUs <= current.tUs ==>
              u * Seconds(current.tUs - previous.tUs) == Seconds(tUs - previous.tUs)
  {
    if tUs <= previous.tUs then 0.0
    else if tUs >= current.tUs then 1.0
    else
      var n, d := (tUs - previous.tUs) as real, (current.tUs - previous.tUs) as real;
      assert n / d * d == n;
      Fraction(n, d);
      n / d
  }

  lemma Fraction(n: real, d: real)
    requires 0.0 < n < d
    ensures 0.0 < n / d < 1.0
    ensures n / d * (d / 1000000.0) == n / 1000000.0
  {
    var r := n / d;
    assert r * d == n;
    PositiveFactor(r, d, n);
    PositiveFactor(1.0 - r, d, d - n);
  }

  lemma PositiveFactor(r: real, d: real, n: real)
    requires 0.0 < d && 0.0 < n && r * d == n
    ensures 0.0 < r
  {
  }

  lemma InterpolateIsMix(previous: Point, current: Point, tUs: int)
    requires previous.tUs < current.tUs
    ensures Interpolate(previous, current, tUs)
         == Mix(previous.q, current.q, Blend(Progress(previous, current, tUs)))
  {
    BlendRange(0.0);
  }
}
