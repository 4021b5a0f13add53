/** Why a chunk is refused: the exact condition of every code, in every reachable run
    (robot_server.py, `append_chunk`; robot_protocol.py, the validators). */
module RunRefusals {
  import opened Wrappers
  import opened Protocol
  import opened RunModel

  /** Joint `j` is the first one whose rates are too high. */
  predicate FirstTooFast(policy: Policy, before: Point, point: Point, j: nat)
    requires before.tUs < point.tUs
  {
    j < JOINT_COUNT && !JointRatesOk(policy, before, point, j) &&
    forall k :: 0 <= k < j ==> JointRatesOk(policy, before, point, k)
  }

  predicate TooFast(policy: Policy, before: Point, point: Point, j: nat)
    requires before.tUs < point.tUs && j < JOINT_COUNT
  {
    !JointVelocityOk(policy, before.q[j], point.q[j], Seconds(point.tUs - before.tUs))
  }

  /** What is wrong with a point after its predecessor, apart from its position. */
  ghost predicate StepCause(c: Config, previous: Option<Point>, point: Point, code: Code) {
    match previous
    case None =>
      (code.InvalidTime? && point.tUs != 0) ||
      (code.StartStateMismatch? && point.tUs == 0 && !StartsAtOrigin(c.header.mode, point.q))
    case Some(before) =>
      if point.tUs - before.tUs < c.policy.minSegmentUs then code.InvalidTime?
      else
        exists j: nat :: FirstTooFast(c.policy, before, point, j) &&
                         code == if TooFast(c.policy, before, point, j) then VelocityLimit else AccelerationLimit
  }

  predicate StepFine(c: Config, previous: Option<Point>, point: Point) {
    if previous.Some? then SegmentOk(c.policy, previous.value, point)
    else point.tUs == 0 && StartsAtOrigin(c.header.mode, point.q)
  }

  /** What is wrong with a point: its step first, then its own and its resolved position. */
  ghost predicate PointCause(c: Config, origin: Option<Pose>, previous: Option<Point>, point: Point, code: Code) {
    StepCause(c, previous, point, code) ||
    (code.LimitViolation? && StepFine(c, previous, point) &&
     !(PositionOk(c.policy, c.header.mode, point.q) && ResolvedOk(c, origin, point.q)))
  }

  lemma {:induction false} RateCode(policy: Policy, before: Point, point: Point, j: nat, code: Code)
    requires before.tUs < point.tUs && j <= JOINT_COUNT
    requires forall k :: 0 <= k < j ==> JointRatesOk(policy, before, point, k)
    ensures RateVerdict(policy, before, point, j) == Fail(code) <==>
              exists i: nat :: FirstTooFast(policy, before, point, i) &&
                               code == if TooFast(policy, before, point, i) then VelocityLimit else AccelerationLimit
    decreases JOINT_COUNT - j
  {
    hide JointVelocityOk, JointAccelerationOk, Seconds;
    if j < JOINT_COUNT {
      if JointRatesOk(policy, before, point, j) {
        RateCode(policy, before, point, j + 1, code);
      } else {
        assert FirstTooFast(policy, before, point, j);
        assert forall i: nat :: FirstTooFast(policy, before, point, i) ==> i == j;
      }
    }
  }

  lemma SegmentCode(c: Config, before: Point, point: Point, code: Code)
    ensures SegmentVerdict(c.policy, before, point) == Fail(code) <==> StepCause(c, Some(before), point, code)
  {
    hide JointRatesOk, FirstTooFast, TooFast, RateVerdict;
    if c.policy.minSegmentUs <= point.tUs - before.tUs { RateCode(c.policy, before, point, 0, code); }
  }

  lemma PointCode(c: Config, origin: Option<Pose>, previous: Option<Point>, point: Point, code: Code)
    ensures PointVerdict(c, origin, previous, point) == Fail(code) <==> PointCause(c, origin, previous, point, code)
  {
    hide SegmentVerdict, SegmentOk, PositionOk, ResolvedOk, StartsAtOrigin;
    if previous.Some? { SegmentCode(c, previous.value, point, code); }
  }

  // ---------- a chunk ----------

  /** The point before number `i` of a chunk that arrives behind a buffer. */
  function Before(base: seq<Point>, points: seq<Point>, i: nat): Option<Point>
    requires i <= |points|
  {
    LastPoint(base + points[..i])
  }

  /** The points of a chunk are each all right after the one before. */
  ghost predicate AllFine(c: Config, origin: Option<Pose>, base: seq<Point>, points: seq<Point>, n: nat)
    requires n <= |points|
  {
    forall i: nat :: i < n ==> PointOk(c, origin, Before(base, points, i), points[i])
  }

  /** The first point of the chunk that is not all right is wrong for this reason. */
  ghost predicate FirstWrong(c: Config, origin: Option<Pose>, base: seq<Point>, points: seq<Point>, code: Code) {
    exists i: nat :: i < |points| && AllFine(c, origin, base, points, i) &&
                     PointCause(c, origin, Before(base, points, i), points[i], code)
  }

  /** A scan from point `n` on, all before it being fine. */
  lemma {:induction false} ScanFrom(c: Config, origin: Option<Pose>, base: seq<Point>, points: seq<Point>, n: nat,
                                    code: Code)
    requires n <= |points| && AllFine(c, origin, base, points, n)
    ensures ScanVerdict(c, origin, Before(base, points, n), points[n..]) == Fail(code) <==>
              FirstWrong(c, origin, base, points, code)
    ensures ScanVerdict(c, origin, Before(base, points, n), points[n..]).Pass? <==>
              AllFine(c, origin, base, points, |points|)
    decreases |points| - n
  {
    hide PointVerdict, PointOk, PointCause;
    if n == |points| {
      assert points[n..] == [];
      FineIsNotWrong(c, origin, base, points, code);
    } else {
      assert points[n..][0] == points[n] && points[n..][1..] == points[n + 1..];
      assert base + points[..n + 1] == (base + points[..n]) + [points[n]];
      PointCode(c, origin, Before(base, points, n), points[n], code);
      assert PointVerdict(c, origin, Before(base, points, n), points[n]).Pass? <==>
             PointOk(c, origin, Before(base, points, n), points[n]);
      if PointOk(c, origin, Before(base, points, n), points[n]) {
        ScanFrom(c, origin, base, points, n + 1, code);
      } else {
        OnlyHere(c, origin, base, points, n, code);
      }
    }
  }

  /** A point is wrong for some reason exactly when it is not fine. */
  lemma CauseMeansWrong(c: Config, origin: Option<Pose>, previous: Option<Point>, point: Point, code: Code)
    requires PointCause(c, origin, previous, point, code)
    ensures !PointOk(c, origin, previous, point)
  {
    hide PointOk, PointCause;
    PointCode(c, origin, previous, point, code);
  }

  lemma FineIsNotWrong(c: Config, origin: Option<Pose>, base: seq<Point>, points: seq<Point>, code: Code)
    requires AllFine(c, origin, base, points, |points|)
    ensures !FirstWrong(c, origin, base, points, code)
  {
    hide PointOk, PointCause;
    if FirstWrong(c, origin, base, points, code) {
      var i: nat :| i < |points| && PointCause(c, origin, Before(base, points, i), points[i], code);
      CauseMeansWrong(c, origin, Before(base, points, i), points[i], code);
    }
  }

  lemma OnlyHere(c: Config, origin: Option<Pose>, base: seq<Point>, points: seq<Point>, n: nat, code: Code)
    requires n < |points| && AllFine(c, origin, base, points, n)
    requires !PointOk(c, origin, Before(base, points, n), points[n])
    ensures FirstWrong(c, origin, base, points, code) <==>
              PointCause(c, origin, Before(base, points, n), points[n], code)
  {
    hide PointOk, PointCause;
    if FirstWrong(c, origin, base, points, code) {
      var i: nat :| i < |points| && AllFine(c, origin, base, points, i) &&
                    PointCause(c, origin, Before(base, points, i), points[i], code);
      if i < n { CauseMeansWrong(c, origin, Before(base, points, i), points[i], code); }
    }
  }

  // ---------- an append ----------

  /** The chunk is the next one, arrives at a run that takes chunks, and has a proper size. */
  predicate Expected(c: Config, r: Run, chunkSeq: int, points: seq<Point>, digest: string, final: bool) {
    digest == c.digests.chunk(chunkSeq, points, final) && chunkSeq !in r.receipts && chunkSeq == r.expectedSeq &&
    Receiving(r) && 1 <= |points| <= c.policy.maxChunkPoints
  }

  predicate Receiving(r: Run) {
    (r.state.Buffering? || r.state.Running?) && !r.finalReceived
  }

  predicate TooLarge(c: Config, r: Run, points: seq<Point>) {
    c.policy.maxPoints < |r.points| + |points| || c.policy.maxDurationUs < EndUs(points)
  }

  /** Why an append is refused: what is looked at later counts only when all that is looked
      at earlier is in order. */
  ghost predicate RefusalCause(c: Config, r: Run, chunkSeq: int, points: seq<Point>, final: bool, digest: string,
                               code: Code) {
    var right, known := digest == c.digests.chunk(chunkSeq, points, final), chunkSeq in r.receipts;
    var expected := Expected(c, r, chunkSeq, points, digest, final);
    var fine := expected && AllFine(c, r.origin, r.points, points, |points|);
    var short := final && |r.points| + |points| == 1;
    var ahead := c.runMode.Streaming? && c.policy.maxHorizonUs < EndUs(points) - r.cursorUs;
    (expected && FirstWrong(c, r.origin, r.points, points, code)) ||
    match code
    case HashMismatch =>
      !right || (fine && !TooLarge(c, r, points) && !short && !ahead && final &&
                 c.digests.program(c.header, r.points + points) != c.expectedDigest)
    case DuplicateConflict => right && known && r.receipts[chunkSeq].0 != digest
    case OutOfOrder => right && !known && chunkSeq != r.expectedSeq
    case RunStateConflict => right && !known && chunkSeq == r.expectedSeq && !Receiving(r)
    case ChunkSize =>
      right && !known && chunkSeq == r.expectedSeq && Receiving(r) && !(1 <= |points| <= c.policy.maxChunkPoints)
    case ResourceLimit => fine && TooLarge(c, r, points)
    case SchemaInvalid => fine && !TooLarge(c, r, points) && short
    case QueueFull => fine && !TooLarge(c, r, points) && !short && ahead
    case _ => false
  }

  /** An append is refused with a code exactly when it is a cause of that code. */
  lemma RefusedExactly(c: Config, r: Run, chunkSeq: int, points: seq<Point>, final: bool, digest: string, code: Code)
    ensures AppendOutcome(c, r, chunkSeq, points, final, digest) == Rejected(code) <==>
              RefusalCause(c, r, chunkSeq, points, final, digest, code)
  {
    hide ScanVerdict, AllFine, FirstWrong, EndUs;
    assert r.points + points[..0] == r.points && points[0..] == points;
    assert AllFine(c, r.origin, r.points, points, 0) by { NothingIsFine(c, r.origin, r.points, points); }
    ScanFrom(c, r.origin, r.points, points, 0, code);
    if AllFine(c, r.origin, r.points, points, |points|) { FineIsNotWrong(c, r.origin, r.points, points, code); }
  }

  lemma NothingIsFine(c: Config, origin: Option<Pose>, base: seq<Point>, points: seq<Point>)
    ensures AllFine(c, origin, base, points, 0)
  {
  }

  /** A start is refused as a conflict exactly when the run is not buffering any more, and as
      not ready exactly when it still is but has too little of its program. */
  lemma StartRefusedExactly(c: Config, r: Run, code: Code)
    ensures StartVerdict(c, r) == Fail(code) <==>
              (code.RunStateConflict? && !r.state.Buffering?) ||
              (code.NotReady? && r.state.Buffering? &&
               !(2 <= |r.points| &&
                 (r.finalReceived || (c.runMode.Streaming? && c.policy.startBufferUs <= EndUs(r.points)))))
  {
  }
}
