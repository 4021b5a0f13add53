/** The motion described by a validated trajectory, at every instant.

    The validators look at one pair of neighbouring points at a time.  The lemmas
    here show what those local checks buy for the whole motion: it stays between
    the accepted points, it never outruns the velocity limit over any stretch of
    time, and it never bends faster than the acceleration limit inside a segment.
 */
module Motion {
  import opened Quintic
  import opened Protocol

  // ---------- which segment is active ----------

  /** Forward search for the active segment, starting at `i`. */
  function Advance(points: seq<Point>, tUs: int, i: nat): (k: nat)
    requires i < |points|
    ensures i <= k < |points|
    ensures k + 1 < |points| ==> tUs <= points[k + 1].tUs
    ensures i < k ==> points[k].tUs < tUs
    decreases |points| - i
  {
    if i + 1 < |points| && tUs > points[i + 1].tUs then Advance(points, tUs, i + 1) else i
  }

  /** What it means for `k` to be the segment active at `tUs`. */
  ghost predicate ActiveAt(points: seq<Point>, tUs: int, k: nat) {
    k < |points| && (0 < k ==> points[k].tUs < tUs) && (k + 1 < |points| ==> tUs <= points[k + 1].tUs)
  }

  /** At most one segment is active, so any search that ends on an active one agrees. */
  lemma ActiveUnique(policy: Policy, points: seq<Point>, tUs: int, i: nat, k: nat)
    requires SegmentsOk(policy, points) && ActiveAt(points, tUs, i) && ActiveAt(points, tUs, k)
    ensures i == k
  {
    if i < k { LaterIsLater(policy, points, i + 1, k); }
    if k < i { LaterIsLater(policy, points, k + 1, i); }
  }

  lemma LaterIsLater(policy: Policy, points: seq<Point>, i: nat, k: nat)
    requires SegmentsOk(policy, points) && i <= k < |points|
    ensures points[i].tUs <= points[k].tUs
  {
    if i < k { TimesIncrease(policy, points, i, k); }
  }

  /** Resuming from an index that is already behind the clock finds the same segment
      as a search from the beginning, also in a buffer that has grown meanwhile. */
  lemma CarriedSearchIsFresh(policy: Policy, points: seq<Point>, tUs: int, i: nat)
    requires SegmentsOk(policy, points) && i < |points| && (0 < i ==> points[i].tUs < tUs)
    ensures Advance(points, tUs, i) == Advance(points, tUs, 0)
  {
    ActiveUnique(policy, points, tUs, Advance(points, tUs, i), Advance(points, tUs, 0));
  }

  /** The commanded position at time `tUs`, holding the last point once it is passed. */
  function PositionAt(points: seq<Point>, tUs: int): Pose
    requires points != []
  {
    var i := Advance(points, tUs, 0);
    if i + 1 < |points| then Interpolate(points[i], points[i + 1], tUs) else points[i].q
  }

  lemma PositionInSegment(policy: Policy, points: seq<Point>, tUs: int, k: nat)
    requires SegmentsOk(policy, points) && k + 1 < |points| && points[k].tUs <= tUs <= points[k + 1].tUs
    ensures PositionAt(points, tUs) == Interpolate(points[k], points[k + 1], tUs)
  {
    if 0 < k && tUs == points[k].tUs {
      assert SegmentOk(policy, points[k - 1], points[k]);
      ActiveUnique(policy, points, tUs, Advance(points, tUs, 0), k - 1);
    } else {
      ActiveUnique(policy, points, tUs, Advance(points, tUs, 0), k);
    }
  }

  lemma PositionAtKnot(policy: Policy, points: seq<Point>, k: nat)
    requires SegmentsOk(policy, points) && k < |points|
    ensures PositionAt(points, points[k].tUs) == points[k].q
  {
    if k == 0 {
      if 1 < |points| { assert SegmentOk(policy, points[0], points[1]); }
      ActiveUnique(policy, points, points[0].tUs, Advance(points, points[0].tUs, 0), 0);
    } else {
      assert SegmentOk(policy, points[k - 1], points[k]);
      PositionInSegment(policy, points, points[k].tUs, k - 1);
    }
  }

  /** Appending later points does not change the motion already described. */
  lemma PositionExtends(policy: Policy, older: seq<Point>, points: seq<Point>, tUs: int)
    requires SegmentsOk(policy, points) && older <= points && older != [] && tUs <= older[|older| - 1].tUs
    ensures PositionAt(points, tUs) == PositionAt(older, tUs)
  {
    var i := Advance(older, tUs, 0);
    if i + 1 == |older| && i + 1 < |points| {
      assert SegmentOk(policy, points[i], points[i + 1]);
    }
    ActiveUnique(policy, points, tUs, Advance(points, tUs, 0), i);
  }

  // ---------- position ----------

  lemma MixBetween(lo: real, hi: real, a: real, b: real, w: real)
    requires 0.0 <= w <= 1.0 && lo <= a <= hi && lo <= b <= hi
    ensures lo <= Lerp(a, b, w) <= hi
  {
    var up := Product(w, b - lo, b - lo);
    var up' := Product(1.0 - w, a - lo, a - lo);
    var down := Product(w, hi - b, hi - b);
    var down' := Product(1.0 - w, hi - a, hi - a);
    var mixed := (b - a) * w;
    assert up + up' == a + mixed - lo;
    assert down + down' == hi - a - mixed;
  }

  /** Interpolation never leaves the box spanned by two poses inside the limits,
      also after both have been shifted by a common origin. */
  lemma InterpolateInLimits(policy: Policy, origin: Pose, previous: Point, current: Point, tUs: int)
    requires InLimits(policy, Shift(origin, previous.q)) && InLimits(policy, Shift(origin, current.q))
    ensures InLimits(policy, Shift(origin, Interpolate(previous, current, tUs)))
  {
    if previous.tUs < tUs < current.tUs {
      var w := Blend(Progress(previous, current, tUs));
      InterpolateIsMix(previous, current, tUs);
      BlendRange(Progress(previous, current, tUs));
      forall j | 0 <= j < JOINT_COUNT
        ensures policy.jointMin[j] <= Shift(origin, Interpolate(previous, current, tUs))[j] <= policy.jointMax[j]
      {
        MixBetween(policy.jointMin[j] - origin[j], policy.jointMax[j] - origin[j], previous.q[j], current.q[j], w);
      }
    }
  }

  function Shift(origin: Pose, q: Pose): (r: Pose)
    ensures forall j :: 0 <= j < JOINT_COUNT ==> r[j] == origin[j] + q[j]
  {
    seq(JOINT_COUNT, j requires 0 <= j < JOINT_COUNT => origin[j] + q[j])
  }

  const ZERO: Pose := [0.0, 0.0, 0.0, 0.0, 0.0, 0.0]

  lemma ShiftByZero(q: Pose)
    ensures Shift(ZERO, q) == q
  {
  }

  // ---------- velocity ----------

  /** How far a joint may travel in `us` microseconds. */
  function Reach(limit: real, us: int): real {
    Times(limit, Seconds(us))
  }

  /** x = |distance|, du = normalised time step, db = blend step, dt = segment seconds. */
  lemma ScaleVelocity(x: real, db: real, du: real, dt: real, limit: real)
    requires 0.0 <= x && 0.0 <= du && 0.0 < dt && 0.0 <= db <= PEAK_VELOCITY * du
    requires PEAK_VELOCITY * x / dt <= limit
    ensures Times(x, db) <= Times(limit, du * dt)
  {
    var rate := PEAK_VELOCITY * x / dt;
    assert rate * dt == PEAK_VELOCITY * x;
    var travel := Product(x, db, PEAK_VELOCITY * du);
    var xdu := x * du;
    assert PEAK_VELOCITY * du * x == PEAK_VELOCITY * xdu;
    var step := du * dt;
    assert step >= 0.0;
    assert rate * step == PEAK_VELOCITY * xdu by { assert rate * step == (rate * dt) * du; }
    assert rate * step <= limit * step by { assert (limit - rate) * step >= 0.0; }
  }

  lemma AbsProduct(a: real, w: real)
    requires 0.0 <= w
    ensures Abs(Times(a, w)) == Times(Abs(a), w)
  {
    assert (-a) * w == -(a * w);
  }

  /** Two instants of one segment: their blend weights and the normalised step. */
  lemma Weights(previous: Point, current: Point, t1: int, t2: int) returns (w1: real, w2: real, du: real)
    requires previous.tUs <= t1 <= t2 <= current.tUs && previous.tUs < current.tUs
    ensures Interpolate(previous, current, t1) == Mix(previous.q, current.q, w1)
    ensures Interpolate(previous, current, t2) == Mix(previous.q, current.q, w2)
    ensures 0.0 <= du && 0.0 <= w2 - w1 <= PEAK_VELOCITY * du
    ensures du * Seconds(current.tUs - previous.tUs) == Seconds(t2 - t1)
  {
    hide Blend;
    var u1, u2 := Progress(previous, current, t1), Progress(previous, current, t2);
    w1, w2, du := Blend(u1), Blend(u2), u2 - u1;
    InterpolateIsMix(previous, current, t1);
    InterpolateIsMix(previous, current, t2);
    var dt := Seconds(current.tUs - previous.tUs);
    assert du * dt == Seconds(t2 - t1);
    NonNegativeQuotient(du, dt);
    BlendSlope(u1, u2);
  }

  lemma NonNegativeQuotient(x: real, d: real)
    requires 0.0 < d && 0.0 <= x * d
    ensures 0.0 <= x
  {
  }

  lemma SegmentVelocity(policy: Policy, previous: Point, current: Point, t1: int, t2: int, j: nat)
    requires SegmentOk(policy, previous, current) && j < JOINT_COUNT
    requires previous.tUs <= t1 <= t2 <= current.tUs
    ensures Abs(Interpolate(previous, current, t2)[j] - Interpolate(previous, current, t1)[j])
         <= Reach(policy.maxVelocity, t2 - t1)
  {
    hide Interpolate, Lerp, Reach, JointVelocityOk, JointAccelerationOk, Abs;
    var w1, w2, du := Weights(previous, current, t1, t2);
    assert JointRatesOk(policy, previous, current, j);
    JointStep(policy, previous.q[j], current.q[j], w1, w2, du, current.tUs - previous.tUs, t2 - t1);
  }

  lemma JointStep(policy: Policy, a: real, b: real, w1: real, w2: real, du: real, dtUs: Positive, us: int)
    requires 0.0 <= du && 0.0 <= w2 - w1 <= PEAK_VELOCITY * du
    requires JointVelocityOk(policy, a, b, Seconds(dtUs))
    requires du * Seconds(dtUs) == Seconds(us)
    ensures Abs(Lerp(a, b, w2) - Lerp(a, b, w1)) <= Reach(policy.maxVelocity, us)
  {
    hide Seconds;
    LerpStep(a, b, w1, w2);
    ScaleVelocity(Abs(b - a), w2 - w1, du, Seconds(dtUs), policy.maxVelocity);
  }

  lemma LerpStep(a: real, b: real, w1: real, w2: real)
    requires w1 <= w2
    ensures Abs(Lerp(a, b, w2) - Lerp(a, b, w1)) == Times(Abs(b - a), w2 - w1)
  {
    assert Lerp(a, b, w2) - Lerp(a, b, w1) == Times(b - a, w2 - w1);
    AbsProduct(b - a, w2 - w1);
  }

  lemma Triangle(a: real, b: real, c: real, limit: real, us: int, us': int)
    requires Abs(b - a) <= Reach(limit, us) && Abs(c - b) <= Reach(limit, us')
    ensures Abs(c - a) <= Reach(limit, us + us')
  {
    var s, s' := Seconds(us), Seconds(us');
    assert Seconds(us + us') == s + s';
    assert limit * (s + s') == limit * s + limit * s';
  }

  lemma NonNegativeReach(policy: Policy, previous: Point, current: Point, us: nat)
    requires SegmentOk(policy, previous, current)
    ensures 0.0 <= Reach(policy.maxVelocity, us)
  {
    assert JointRatesOk(policy, previous, current, 0);
    var dt := Seconds(current.tUs - previous.tUs);
    var rate := PEAK_VELOCITY * Abs(current.q[0] - previous.q[0]) / dt;
    assert rate * dt >= 0.0;
    NonNegativeQuotient(rate, dt);
    var reach := Product(policy.maxVelocity, Seconds(us), Seconds(us));
    assert Reach(policy.maxVelocity, us) == reach;
  }

  /** After the last point the motion rests there. */
  lemma PositionAfterEnd(policy: Policy, points: seq<Point>, t: int)
    requires SegmentsOk(policy, points) && points != [] && points[|points| - 1].tUs <= t
    ensures PositionAt(points, t) == points[|points| - 1].q
  {
    var k := |points| - 1;
    if t == points[k].tUs {
      PositionAtKnot(policy, points, k);
    } else {
      ActiveUnique(policy, points, t, Advance(points, t, 0), k);
    }
  }

  /** From an accepted point to any later instant, however many segments on. */
  lemma {:induction false} VelocityFromKnot(policy: Policy, points: seq<Point>, k: nat, t: int, j: nat)
    requires SegmentsOk(policy, points) && 2 <= |points| && k < |points| && j < JOINT_COUNT
    requires points[k].tUs <= t
    ensures Abs(PositionAt(points, t)[j] - points[k].q[j]) <= Reach(policy.maxVelocity, t - points[k].tUs)
    decreases |points| - k
  {
    hide Reach, PositionAt;
    if k + 1 == |points| {
      assert SegmentOk(policy, points[k - 1], points[k]);
      NonNegativeReach(policy, points[k - 1], points[k], t - points[k].tUs);
      PositionAfterEnd(policy, points, t);
    } else {
      var here, next := points[k], points[k + 1];
      assert SegmentOk(policy, here, next);
      PositionAtKnot(policy, points, k);
      if t <= next.tUs {
        SameSegmentVelocity(policy, points, k, here.tUs, t, j);
      } else {
        PositionAtKnot(policy, points, k + 1);
        SameSegmentVelocity(policy, points, k, here.tUs, next.tUs, j);
        VelocityFromKnot(policy, points, k + 1, t, j);
        Triangle(here.q[j], next.q[j], PositionAt(points, t)[j], policy.maxVelocity,
                 next.tUs - here.tUs, t - next.tUs);
      }
    }
  }

  lemma SameSegmentVelocity(policy: Policy, points: seq<Point>, k: nat, t1: int, t2: int, j: nat)
    requires SegmentsOk(policy, points) && k + 1 < |points| && j < JOINT_COUNT
    requires points[k].tUs <= t1 <= t2 <= points[k + 1].tUs
    ensures Abs(PositionAt(points, t2)[j] - PositionAt(points, t1)[j]) <= Reach(policy.maxVelocity, t2 - t1)
  {
    assert SegmentOk(policy, points[k], points[k + 1]);
    PositionInSegment(policy, points, t1, k);
    PositionInSegment(policy, points, t2, k);
    SegmentVelocity(policy, points[k], points[k + 1], t1, t2, j);
  }

  /** The per-segment 1.875 check bounds the average speed of the whole motion: over
      any stretch of time, across any number of segments, no joint covers more than
      max_velocity times the elapsed time. */
  lemma WholeMotionVelocity(policy: Policy, header: Header, points: seq<Point>, t1: int, t2: int, j: nat)
    requires Trajectory(policy, header, points) && 2 <= |points| && j < JOINT_COUNT
    requires 0 <= t1 <= t2
    ensures Abs(PositionAt(points, t2)[j] - PositionAt(points, t1)[j]) <= Reach(policy.maxVelocity, t2 - t1)
  {
    hide Reach, PositionAt, SegmentOk;
    var i := Advance(points, t1, 0);
    assert points[i].tUs <= t1;
    if i + 1 == |points| {
      assert SegmentOk(policy, points[i - 1], points[i]);
      NonNegativeReach(policy, points[i - 1], points[i], t2 - t1);
      PositionAfterEnd(policy, points, t1);
      PositionAfterEnd(policy, points, t2);
    } else if t2 <= points[i + 1].tUs {
      SameSegmentVelocity(policy, points, i, t1, t2, j);
    } else {
      var next := points[i + 1];
      SameSegmentVelocity(policy, points, i, t1, next.tUs, j);
      PositionAtKnot(policy, points, i + 1);
      VelocityFromKnot(policy, points, i + 1, t2, j);
      Triangle(PositionAt(points, t1)[j], next.q[j], PositionAt(points, t2)[j], policy.maxVelocity,
               next.tUs - t1, t2 - next.tUs);
    }
  }

  // ---------- acceleration ----------

  lemma ScaleAcceleration(policy: Policy, a: real, b: real, bend: real, hu: real, dt: real)
    requires 0.0 < dt && 0.0 <= bend <= PEAK_ACCELERATION * (hu * hu)
    requires JointAccelerationOk(policy, a, b, dt)
    ensures Times(Abs(b - a), bend) <= Times(policy.maxAcceleration, Times(hu * dt, hu * dt))
  {
    var x, limit := Abs(b - a), policy.maxAcceleration;
    var dd := PositiveSquare(dt);
    var hh := hu * hu;
    assert hh >= 0.0;
    var rate := PEAK_ACCELERATION * x / dd;
    assert rate * dd == PEAK_ACCELERATION * x;
    var travel := Product(x, bend, PEAK_ACCELERATION * hh);
    var xhh := x * hh;
    assert PEAK_ACCELERATION * hh * x == PEAK_ACCELERATION * xhh;
    var square := Product(dd, hh, hh);
    assert (hu * dt) * (hu * dt) == square;
    assert rate * square == PEAK_ACCELERATION * xhh by { assert rate * square == (rate * dd) * hh; }
    assert rate * square <= limit * square by { assert (limit - rate) * square >= 0.0; }
  }

  lemma PositiveSquare(d: real) returns (dd: real)
    requires 0.0 < d
    ensures dd == d * d && 0.0 < dd
  {
    dd := Product(d, d, d);
    var inverse := 1.0 / d;
    assert inverse * d == 1.0;
    assert inverse * dd == d by { assert inverse * dd == (inverse * d) * d; }
  }

  /** How far a joint may bend between three samples `us` microseconds apart. */
  function BendReach(limit: real, us: int): real {
    Times(limit, Times(Seconds(us), Seconds(us)))
  }

  /** Inside one accepted segment, three samples `hUs` apart bend by at most
      max_acceleration * h^2, so 5.773503 is a sound peak multiplier. */
  lemma SegmentAcceleration(policy: Policy, previous: Point, current: Point, t: int, hUs: nat, j: nat)
    requires SegmentOk(policy, previous, current) && j < JOINT_COUNT
    requires previous.tUs <= t - hUs && t + hUs <= current.tUs
    ensures Abs(Interpolate(previous, current, t + hUs)[j]
              - 2.0 * Interpolate(previous, current, t)[j]
              + Interpolate(previous, current, t - hUs)[j])
         <= BendReach(policy.maxAcceleration, hUs)
  {
    hide Interpolate, Lerp, BendReach, JointVelocityOk, JointAccelerationOk, Abs;
    var w0, w, w2, h := BendWeights(previous, current, t, hUs);
    assert JointRatesOk(policy, previous, current, j);
    JointBend(policy, previous.q[j], current.q[j], w0, w, w2, h, current.tUs - previous.tUs, hUs);
  }

  lemma BendWeights(previous: Point, current: Point, t: int, hUs: nat)
    returns (w0: real, w: real, w2: real, h: real)
    requires previous.tUs <= t - hUs && t + hUs <= current.tUs && previous.tUs < current.tUs
    ensures Interpolate(previous, current, t - hUs) == Mix(previous.q, current.q, w0)
    ensures Interpolate(previous, current, t) == Mix(previous.q, current.q, w)
    ensures Interpolate(previous, current, t + hUs) == Mix(previous.q, current.q, w2)
    ensures Abs(w2 - 2.0 * w + w0) <= PEAK_ACCELERATION * (h * h)
    ensures h * Seconds(current.tUs - previous.tUs) == Seconds(hUs)
  {
    hide Blend, Abs;
    var u0, u, u2 := Progress(previous, current, t - hUs), Progress(previous, current, t),
      Progress(previous, current, t + hUs);
    w0, w, w2 := Blend(u0), Blend(u), Blend(u2);
    InterpolateIsMix(previous, current, t - hUs);
    InterpolateIsMix(previous, current, t);
    InterpolateIsMix(previous, current, t + hUs);
    h := EqualSteps(previous, current, t, hUs);
    BlendCurvature(u, h);
    assert u + h == u2 && u - h == u0;
  }

  lemma EqualSteps(previous: Point, current: Point, t: int, hUs: nat) returns (h: real)
    requires previous.tUs <= t - hUs && t + hUs <= current.tUs && previous.tUs < current.tUs
    ensures 0.0 <= h && h * Seconds(current.tUs - previous.tUs) == Seconds(hUs)
    ensures Progress(previous, current, t - hUs) == Progress(previous, current, t) - h
    ensures Progress(previous, current, t + hUs) == Progress(previous, current, t) + h
  {
    hide Progress;
    var u0, u, u2 := Progress(previous, current, t - hUs), Progress(previous, current, t),
      Progress(previous, current, t + hUs);
    var dt := Seconds(current.tUs - previous.tUs);
    h := u - u0;
    assert h * dt == Seconds(hUs);
    var h2 := u2 - u;
    assert h2 * dt == Seconds(hUs);
    SameQuotient(h2, h, dt, Seconds(hUs));
    NonNegativeQuotient(h, dt);
  }

  lemma JointBend(policy: Policy, a: real, b: real, w0: real, w: real, w2: real, h: real, dtUs: Positive, us: int)
    requires Abs(w2 - 2.0 * w + w0) <= PEAK_ACCELERATION * (h * h)
    requires JointAccelerationOk(policy, a, b, Seconds(dtUs))
    requires h * Seconds(dtUs) == Seconds(us)
    ensures Abs(Lerp(a, b, w2) - 2.0 * Lerp(a, b, w) + Lerp(a, b, w0)) <= BendReach(policy.maxAcceleration, us)
  {
    hide Seconds;
    LerpBend(a, b, w0, w, w2);
    ScaleAcceleration(policy, a, b, Abs(w2 - 2.0 * w + w0), h, Seconds(dtUs));
  }

  lemma LerpBend(a: real, b: real, w0: real, w: real, w2: real)
    ensures Abs(Lerp(a, b, w2) - 2.0 * Lerp(a, b, w) + Lerp(a, b, w0)) == Times(Abs(b - a), Abs(w2 - 2.0 * w + w0))
  {
    var bend := w2 - 2.0 * w + w0;
    assert Lerp(a, b, w2) - 2.0 * Lerp(a, b, w) + Lerp(a, b, w0) == Times(b - a, bend);
    AbsOfProduct(b - a, bend);
  }

  lemma AbsOfProduct(a: real, b: real)
    ensures Abs(Times(a, b)) == Times(Abs(a), Abs(b))
  {
    if b < 0.0 {
      AbsProduct(a, -b);
      assert Times(a, b) == -Times(a, -b);
    } else {
      AbsProduct(a, b);
    }
  }

  lemma SameQuotient(a: real, b: real, d: real, n: real)
    requires d > 0.0 && a * d == n && b * d == n
    ensures a == b
  {
    assert (a - b) * d == 0.0;
  }
}
