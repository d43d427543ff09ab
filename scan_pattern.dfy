/** The beam pattern of one scan: the (phi, theta) pairs that the scan driver hands,
    one by one, to the per-beam point generator.

    Angles are in degrees. phi is measured from the zenith (the beam's up component is
    cos(phi)), so a horizontal beam has phi == 90. theta is measured from the sensor's
    forward axis towards its right-hand side; the horizontal sweep starts at the right
    limit, runs up to the 0/360 seam, and continues from 0 up to the left limit.

    The recursive functions below follow the scan driver's counted loops step by step: each
    loop tests the angle it computed in the PREVIOUS iteration (for the first iteration,
    the start angle) before it computes the next one, and leaves the loop with `break`
    when the test fails. */
module ScanPattern {

  /** One beam direction, as passed to the per-beam generator. */
  datatype Beam = Beam(phi: real, theta: real)

  /** The horizontal part of the configuration (left/right limits, sample count and
      the derived angular resolution). */
  datatype HorizConfig = HorizConfig(leLimit: real, riLimit: real, smplNum: int, resolu: real)

  /** The vertical part of the configuration (upper/lower limits, sample count and
      the derived angular resolution). */
  datatype VertiConfig = VertiConfig(upLimit: real, unLimit: real, smplNum: int, resolu: real)

  /** The angular resolution of a span of `span` degrees split into n samples. A
      count of zero, where the float division gives an infinite or undefined
      resolution, gives 0 here; no beam reads the resolution then. */
  function Resolution(span: real, n: int): real {
    if n == 0 then 0.0 else span / n as real
  }

  /** The sensor's initialisation state, which selects the branch of the scan dispatch. */
  datatype InitType = NotInitYet | InitAs2D | InitAs3D

  /** The elevation of the single ring swept in 2D mode: the horizontal plane. */
  const HorizontalPlane: real := 90.0

  /** k steps of size `step`, that is k * step. Written as repeated addition so that
      the lemmas below reason about the sweep with linear arithmetic;
      StepsIsProduct ties it to the product. */
  function Steps(k: nat, step: real): real {
    if k == 0 then 0.0 else Steps(k - 1, step) + step
  }

  // ---------------------------------------------------------------------------
  // Horizontal sweep, right side: theta = riLimit + j * resolu.
  // ---------------------------------------------------------------------------

  function RightAngle(h: HorizConfig, j: nat): real {
    h.riLimit + Steps(j, h.resolu)
  }

  /** The value of `theta` when iteration j of the right-side loop tests it. */
  function RightPrev(h: HorizConfig, j: nat): real {
    if j == 0 then h.riLimit else RightAngle(h, j - 1)
  }

  /** The right-side loop from iteration j on. */
  function RightSegment(phi: real, h: HorizConfig, j: nat): seq<Beam>
    decreases h.smplNum - j
  {
    if j < h.smplNum && RightPrev(h, j) < 360.0 - h.resolu then
      [Beam(phi, RightAngle(h, j))] + RightSegment(phi, h, j + 1)
    else
      []
  }

  // ---------------------------------------------------------------------------
  // Horizontal sweep, left side: theta = i * resolu, starting from the last right
  // angle minus 360.
  // ---------------------------------------------------------------------------

  function LeftAngle(h: HorizConfig, i: nat): real {
    Steps(i, h.resolu)
  }

  /** The value of `theta` when iteration i of the left-side loop tests it. */
  function LeftPrev(h: HorizConfig, start: real, i: nat): real {
    if i == 0 then start else LeftAngle(h, i - 1)
  }

  /** The left-side loop from iteration i on; `count` is its bound (the samples the
      right side left over) and `start` the value theta has when the loop begins. */
  function LeftSegment(phi: real, h: HorizConfig, start: real, count: int, i: nat): seq<Beam>
    decreases count - i
  {
    if i < count && LeftPrev(h, start, i) < h.leLimit - h.resolu then
      [Beam(phi, LeftAngle(h, i))] + LeftSegment(phi, h, start, count, i + 1)
    else
      []
  }

  /** The beams of one horizontal sweep at elevation phi: the right side, then the
      left side with the samples that remain. */
  function HorizSweep(phi: real, h: HorizConfig): seq<Beam> {
    var right := RightSegment(phi, h, 0);
    right + LeftSegment(phi, h, RightPrev(h, |right|) - 360.0, h.smplNum - |right|, 0)
  }

  // ---------------------------------------------------------------------------
  // Vertical rings: phi = unLimit - k * resolu.
  // ---------------------------------------------------------------------------

  function RingAngle(v: VertiConfig, k: nat): real {
    v.unLimit - Steps(k, v.resolu)
  }

  /** The value of `phi` when iteration k of the vertical loop tests it. */
  function RingPrev(v: VertiConfig, k: nat): real {
    if k == 0 then v.unLimit else RingAngle(v, k - 1)
  }

  /** The elevations of the rings swept by the vertical loop from iteration k on. */
  function RingAngles(v: VertiConfig, k: nat): seq<real>
    decreases v.smplNum - k
  {
    if k < v.smplNum && RingPrev(v, k) > v.upLimit - v.resolu then
      [RingAngle(v, k)] + RingAngles(v, k + 1)
    else
      []
  }

  /** One horizontal sweep per ring, in ring order. */
  function Rings(phis: seq<real>, h: HorizConfig): seq<Beam> {
    if phis == [] then [] else HorizSweep(phis[0], h) + Rings(phis[1..], h)
  }

  /** The beams of one scan as the dispatch is written: the 2D case has no `break`,
      so it sweeps the horizontal plane and then also runs the vertical loop of the
      3D case. */
  function ScanBeams(t: InitType, h: HorizConfig, v: VertiConfig): seq<Beam> {
    match t
    case NotInitYet => []
    case InitAs2D => HorizSweep(HorizontalPlane, h) + Rings(RingAngles(v, 0), h)
    case InitAs3D => Rings(RingAngles(v, 0), h)
  }

  // ---------------------------------------------------------------------------
  // The sweep as evidently intended: each loop compares the angle it is about to
  // emit with the end of its side (360, or the left limit), so the beam at the
  // right limit is emitted.
  // ---------------------------------------------------------------------------

  function IntendedRight(phi: real, h: HorizConfig, j: nat): seq<Beam>
    decreases h.smplNum - j
  {
    if j < h.smplNum && RightAngle(h, j) < 360.0 then
      [Beam(phi, RightAngle(h, j))] + IntendedRight(phi, h, j + 1)
    else
      []
  }

  function IntendedLeft(phi: real, h: HorizConfig, count: int, i: nat): seq<Beam>
    decreases count - i
  {
    if i < count && LeftAngle(h, i) < h.leLimit then
      [Beam(phi, LeftAngle(h, i))] + IntendedLeft(phi, h, count, i + 1)
    else
      []
  }

  function IntendedSweep(phi: real, h: HorizConfig): seq<Beam> {
    var right := IntendedRight(phi, h, 0);
    right + IntendedLeft(phi, h, h.smplNum - |right|, 0)
  }

  /** The dispatch as evidently intended: exactly one branch per mode, each sweep
      as IntendedSweep. */
  function IntendedScanBeams(t: InitType, h: HorizConfig, v: VertiConfig): seq<Beam> {
    match t
    case NotInitYet => []
    case InitAs2D => IntendedSweep(HorizontalPlane, h)
    case InitAs3D => IntendedRings(RingAngles(v, 0), h)
  }

  function IntendedRings(phis: seq<real>, h: HorizConfig): seq<Beam> {
    if phis == [] then [] else IntendedSweep(phis[0], h) + IntendedRings(phis[1..], h)
  }

  // ---------------------------------------------------------------------------
  // Beam counts of the loops, and the angle each iteration computes.
  // ---------------------------------------------------------------------------

  /** The number of beams the right-side loop emits from iteration j on. */
  function RightCount(h: HorizConfig, j: nat): nat
    decreases h.smplNum - j
  {
    if j < h.smplNum && RightPrev(h, j) < 360.0 - h.resolu then 1 + RightCount(h, j + 1) else 0
  }

  /** The number of beams the left-side loop emits from iteration i on. */
  function LeftCount(h: HorizConfig, start: real, count: int, i: nat): nat
    decreases count - i
  {
    if i < count && LeftPrev(h, start, i) < h.leLimit - h.resolu then 1 + LeftCount(h, start, count, i + 1) else 0
  }

  /** The value theta has when the left-side loop begins: the angle the right side
      compared last, less 360. */
  function LeftStart(h: HorizConfig): real {
    RightPrev(h, RightCount(h, 0)) - 360.0
  }

  /** The number of beams of one horizontal sweep. */
  function SweepCount(h: HorizConfig): nat {
    var r := RightCount(h, 0);
    r + LeftCount(h, LeftStart(h), h.smplNum - r, 0)
  }

  /** The number of rings the vertical loop sweeps from iteration k on. */
  function RingCount(v: VertiConfig, k: nat): nat
    decreases v.smplNum - k
  {
    if k < v.smplNum && RingPrev(v, k) > v.upLimit - v.resolu then 1 + RingCount(v, k + 1) else 0
  }

  /** The number of beams the vertical loop emits from iteration k on. */
  function RingBeams(v: VertiConfig, h: HorizConfig, k: nat): nat
    decreases v.smplNum - k
  {
    if k < v.smplNum && RingPrev(v, k) > v.upLimit - v.resolu then SweepCount(h) + RingBeams(v, h, k + 1) else 0
  }

  /** The azimuth iteration j of the right-side loop computes. */
  method RightThetaAt(h: HorizConfig, j: nat) returns (theta: real)
    ensures theta == RightAngle(h, j)
  {
    StepsIsProduct(j, h.resolu);
    theta := h.riLimit + (j as real) * h.resolu;
  }

  /** The azimuth iteration i of the left-side loop computes. */
  method LeftThetaAt(h: HorizConfig, i: nat) returns (theta: real)
    ensures theta == LeftAngle(h, i)
  {
    StepsIsProduct(i, h.resolu);
    theta := 0.0 + (i as real) * h.resolu;
  }

  /** The elevation iteration k of the vertical loop computes. */
  method RingPhiAt(v: VertiConfig, k: nat) returns (phi: real)
    ensures phi == RingAngle(v, k)
  {
    StepsIsProduct(k, v.resolu);
    phi := v.unLimit - (k as real) * v.resolu;
  }

  /** The total sample count the sensor reports for its mode: horizSmplNum in 2D,
      horizSmplNum * vertiSmplNum in 3D, 0 before initialisation. */
  function TotalSmplNum(t: InitType, h: HorizConfig, v: VertiConfig): int {
    match t
    case NotInitYet => 0
    case InitAs2D => h.smplNum
    case InitAs3D => h.smplNum * v.smplNum
  }

  // ===========================================================================
  // Lemmas
  // ===========================================================================

  lemma {:induction false} StepsIsProduct(k: nat, step: real)
    ensures Steps(k, step) == k as real * step
  {
    if k > 0 {
      StepsIsProduct(k - 1, step);
    }
  }

  /** With a positive step, more steps reach strictly further. */
  lemma {:induction false} StepsMono(a: nat, b: nat, step: real)
    requires a < b && 0.0 < step
    ensures Steps(a, step) + step <= Steps(b, step)
    decreases b
  {
    if a + 1 < b {
      StepsMono(a, b - 1, step);
    }
  }

  lemma {:induction false} StepsNonNeg(k: nat, step: real)
    requires 0.0 <= step
    ensures 0.0 <= Steps(k, step)
  {
    if k > 0 {
      StepsNonNeg(k - 1, step);
    }
  }

  /** Each right-side beam is riLimit + (j + k) * resolu, was emitted only after a
      passing test, and the segment never outruns the sample count. */
  lemma {:induction false} RightSegmentShape(phi: real, h: HorizConfig, j: nat)
    ensures var s := RightSegment(phi, h, j);
      && (j <= h.smplNum ==> j + |s| <= h.smplNum)
      && (j >= h.smplNum ==> s == [])
      && (forall k :: 0 <= k < |s| ==> s[k] == Beam(phi, RightAngle(h, j + k)))
      && (forall m :: j <= m < j + |s| ==> RightPrev(h, m) < 360.0 - h.resolu)
      && (j + |s| < h.smplNum ==> !(RightPrev(h, j + |s|) < 360.0 - h.resolu))
    decreases h.smplNum - j
  {
    var s := RightSegment(phi, h, j);
    if j < h.smplNum && RightPrev(h, j) < 360.0 - h.resolu {
      RightSegmentShape(phi, h, j + 1);
      var t := RightSegment(phi, h, j + 1);
      assert s == [Beam(phi, RightAngle(h, j))] + t;
      forall k | 0 <= k < |s|
        ensures s[k] == Beam(phi, RightAngle(h, j + k))
        ensures RightPrev(h, j + k) < 360.0 - h.resolu
      {
        if k > 0 {
          assert s[k] == t[k - 1];
          assert j + k == (j + 1) + (k - 1);
        }
      }
    }
  }

  /** Each left-side beam is i * resolu, was emitted only after a passing test, and
      the segment never outruns its bound. */
  lemma {:induction false} LeftSegmentShape(phi: real, h: HorizConfig, start: real, count: int, i: nat)
    ensures var s := LeftSegment(phi, h, start, count, i);
      && (i <= count ==> i + |s| <= count)
      && (i >= count ==> s == [])
      && (forall k :: 0 <= k < |s| ==> s[k] == Beam(phi, LeftAngle(h, i + k)))
      && (forall m :: i <= m < i + |s| ==> LeftPrev(h, start, m) < h.leLimit - h.resolu)
    decreases count - i
  {
    var s := LeftSegment(phi, h, start, count, i);
    if i < count && LeftPrev(h, start, i) < h.leLimit - h.resolu {
      LeftSegmentShape(phi, h, start, count, i + 1);
      var t := LeftSegment(phi, h, start, count, i + 1);
      assert s == [Beam(phi, LeftAngle(h, i))] + t;
      forall k | 0 <= k < |s|
        ensures s[k] == Beam(phi, LeftAngle(h, i + k))
        ensures LeftPrev(h, start, i + k) < h.leLimit - h.resolu
      {
        if k > 0 {
          assert s[k] == t[k - 1];
          assert i + k == (i + 1) + (k - 1);
        }
      }
    }
  }

  /** When every test from i up to the bound passes, the left side runs to its bound. */
  lemma {:induction false} LeftSegmentFull(phi: real, h: HorizConfig, start: real, count: int, i: nat)
    requires i <= count
    requires forall m: nat :: i <= m < count ==> LeftPrev(h, start, m) < h.leLimit - h.resolu
    ensures |LeftSegment(phi, h, start, count, i)| == count - i
    decreases count - i
  {
    if i < count {
      LeftSegmentFull(phi, h, start, count, i + 1);
    }
  }

  /** A horizontal sweep never emits more beams than the configured sample count. */
  lemma {:induction false} HorizSweepBounded(phi: real, h: HorizConfig)
    ensures |HorizSweep(phi, h)| <= if h.smplNum < 0 then 0 else h.smplNum
  {
    var right := RightSegment(phi, h, 0);
    RightSegmentShape(phi, h, 0);
    LeftSegmentShape(phi, h, RightPrev(h, |right|) - 360.0, h.smplNum - |right|, 0);
  }

  /** The k-th beam of a sweep: on the right side riLimit + k * resolu, emitted once
      the previous angle is found below 360 - resolu; on the left side
      (k - |right|) * resolu, emitted once the previous angle is found below
      leLimit - resolu. */
  lemma {:induction false} HorizSweepAt(phi: real, h: HorizConfig, k: nat)
    requires k < |HorizSweep(phi, h)|
    ensures var right := RightSegment(phi, h, 0);
      var start := RightPrev(h, |right|) - 360.0;
      && (k < |right| ==> HorizSweep(phi, h)[k] == Beam(phi, RightAngle(h, k))
                          && RightPrev(h, k) < 360.0 - h.resolu)
      && (|right| <= k ==> HorizSweep(phi, h)[k] == Beam(phi, LeftAngle(h, k - |right|))
                           && LeftPrev(h, start, k - |right|) < h.leLimit - h.resolu)
  {
    var right := RightSegment(phi, h, 0);
    var start := RightPrev(h, |right|) - 360.0;
    var left := LeftSegment(phi, h, start, h.smplNum - |right|, 0);
    RightSegmentShape(phi, h, 0);
    LeftSegmentShape(phi, h, start, h.smplNum - |right|, 0);
    if k < |right| {
      assert HorizSweep(phi, h)[k] == right[k];
    } else {
      assert HorizSweep(phi, h)[k] == left[k - |right|];
    }
  }

  /** Every beam of a sweep lies at the sweep's elevation. */
  lemma {:induction false} HorizSweepPhi(phi: real, h: HorizConfig)
    ensures forall b :: b in HorizSweep(phi, h) ==> b.phi == phi
  {
    var sweep := HorizSweep(phi, h);
    forall b | b in sweep
      ensures b.phi == phi
    {
      var k :| 0 <= k < |sweep| && sweep[k] == b;
      HorizSweepAt(phi, h, k);
    }
  }

  /** With a positive resolution the right side of a sweep stays in [riLimit, 360),
      and the left side stays in [0, leLimit) after its first beam, which is at 0. */
  lemma {:induction false} HorizSweepRange(phi: real, h: HorizConfig)
    requires 0.0 < h.resolu
    ensures var right := RightSegment(phi, h, 0);
      var sweep := HorizSweep(phi, h);
      && (forall k :: 0 <= k < |right| ==> h.riLimit <= sweep[k].theta < 360.0)
      && (|right| < |sweep| ==> sweep[|right|].theta == 0.0)
      && (forall k :: |right| < k < |sweep| ==> 0.0 < sweep[k].theta < h.leLimit)
  {
    var right := RightSegment(phi, h, 0);
    var sweep := HorizSweep(phi, h);
    forall k | 0 <= k < |sweep|
      ensures k < |right| ==> h.riLimit <= sweep[k].theta < 360.0
      ensures k == |right| ==> sweep[k].theta == 0.0
      ensures |right| < k ==> 0.0 < sweep[k].theta < h.leLimit
    {
      HorizSweepAt(phi, h, k);
      if k < |right| {
        StepsNonNeg(k, h.resolu);
      } else if k > |right| {
        StepsMono(0, k - |right|, h.resolu);
      }
    }
  }

  /** Two beams of one sweep at positions a < b: on the same side the later one has
      the larger angle; across the seam the right-side one has the larger angle. */
  lemma {:induction false} HorizSweepOrdered(phi: real, h: HorizConfig, a: nat, b: nat)
    requires 0.0 < h.resolu
    requires h.leLimit < h.riLimit && 0.0 < h.riLimit
    requires a < b < |HorizSweep(phi, h)|
    ensures var right := RightSegment(phi, h, 0);
      var sweep := HorizSweep(phi, h);
      && (b < |right| || |right| <= a ==> sweep[a].theta < sweep[b].theta)
      && (a < |right| <= b ==> sweep[b].theta < sweep[a].theta)
  {
    var n := |RightSegment(phi, h, 0)|;
    HorizSweepAt(phi, h, a);
    HorizSweepAt(phi, h, b);
    if b < n {
      StepsMono(a, b, h.resolu);
    } else if a < n {
      StepsNonNeg(a, h.resolu);
      if b > n {
        StepsMono(0, b - n, h.resolu);
      }
    } else {
      StepsMono(a - n, b - n, h.resolu);
    }
  }

  /** With a positive resolution, and a right limit above both the left limit and 0,
      no angle is emitted twice in one sweep. */
  lemma {:induction false} HorizSweepDistinct(phi: real, h: HorizConfig)
    requires 0.0 < h.resolu
    requires h.leLimit < h.riLimit && 0.0 < h.riLimit
    ensures var sweep := HorizSweep(phi, h);
      forall a, b :: 0 <= a < b < |sweep| ==> sweep[a].theta != sweep[b].theta
  {
    var sweep := HorizSweep(phi, h);
    forall a, b | 0 <= a < b < |sweep|
      ensures sweep[a].theta != sweep[b].theta
    {
      HorizSweepOrdered(phi, h, a, b);
    }
  }

  lemma {:induction false} StepsAdd(a: nat, b: nat, step: real)
    ensures Steps(a + b, step) == Steps(a, step) + Steps(b, step)
    decreases b
  {
    if b > 0 {
      StepsAdd(a, b - 1, step);
    }
  }

  /** When the resolution is the one the init methods derive and the first step from
      the right limit stays short of the seam, the sweep emits exactly the configured
      number of beams. */
  lemma {:induction false} HorizSweepExactCount(phi: real, h: HorizConfig)
    requires 1 <= h.smplNum && 0.0 < h.resolu
    requires h.resolu == (h.leLimit + 360.0 - h.riLimit) / h.smplNum as real
    requires h.riLimit + h.resolu < 360.0
    ensures |HorizSweep(phi, h)| == h.smplNum
  {
    var n := h.smplNum;
    var right := RightSegment(phi, h, 0);
    var kk := |right|;
    RightSegmentShape(phi, h, 0);
    StepsIsProduct(n, h.resolu);
    assert Steps(n, h.resolu) == h.leLimit + 360.0 - h.riLimit;
    assert 1 <= kk by {
      assert RightSegment(phi, h, 0) == [Beam(phi, RightAngle(h, 0))] + RightSegment(phi, h, 1);
    }
    if kk < n {
      var start := RightPrev(h, kk) - 360.0;
      // the right side stopped because its last angle reached 360 - resolu
      assert h.riLimit + Steps(kk, h.resolu) >= 360.0;
      StepsAdd(kk, n - kk, h.resolu);
      assert Steps(n - kk, h.resolu) <= h.leLimit;
      forall m: nat | 0 <= m < n - kk
        ensures LeftPrev(h, start, m) < h.leLimit - h.resolu
      {
        if m == 0 {
          StepsMono(kk, n, h.resolu);
        } else {
          StepsMono(m - 1, n - kk, h.resolu);
          if m < n - kk - 1 {
            StepsMono(m, n - kk - 1, h.resolu);
          }
        }
      }
      LeftSegmentFull(phi, h, start, n - kk, 0);
    }
  }

  /** Each ring elevation is unLimit - k * resolu, and the vertical loop never outruns
      its sample count. */
  lemma {:induction false} RingAnglesShape(v: VertiConfig, k: nat)
    ensures var s := RingAngles(v, k);
      && (k <= v.smplNum ==> k + |s| <= v.smplNum)
      && (k >= v.smplNum ==> s == [])
      && (forall m :: 0 <= m < |s| ==> s[m] == RingAngle(v, k + m))
    decreases v.smplNum - k
  {
    var s := RingAngles(v, k);
    if k < v.smplNum && RingPrev(v, k) > v.upLimit - v.resolu {
      RingAnglesShape(v, k + 1);
      var t := RingAngles(v, k + 1);
      assert s == [RingAngle(v, k)] + t;
      forall m | 0 <= m < |s|
        ensures s[m] == RingAngle(v, k + m)
      {
        if m > 0 {
          assert s[m] == t[m - 1];
          assert k + m == (k + 1) + (m - 1);
        }
      }
    }
  }

  /** With the resolution the 3D init derives from a valid (lower > upper) pair of
      limits, the vertical loop sweeps exactly the configured number of rings, every
      ring strictly inside (upLimit, unLimit]. */
  lemma {:induction false} RingAnglesExact(v: VertiConfig, k: nat)
    requires 1 <= v.smplNum && v.upLimit < v.unLimit
    requires v.resolu == (v.unLimit - v.upLimit) / v.smplNum as real
    requires k <= v.smplNum
    ensures var s := RingAngles(v, k);
      && |s| == v.smplNum - k
      && forall m :: 0 <= m < |s| ==> v.upLimit < s[m] <= v.unLimit
    decreases v.smplNum - k
  {
    var n := v.smplNum;
    StepsIsProduct(n, v.resolu);
    assert Steps(n, v.resolu) == v.unLimit - v.upLimit;
    if k < n {
      DivPos(v.unLimit - v.upLimit, n);
      assert RingPrev(v, k) > v.upLimit - v.resolu by {
        if k > 0 {
          StepsMono(k - 1, n, v.resolu);
        }
      }
      RingAnglesExact(v, k + 1);
      var s := RingAngles(v, k);
      var t := RingAngles(v, k + 1);
      assert s == [RingAngle(v, k)] + t;
      forall m | 0 <= m < |s|
        ensures v.upLimit < s[m] <= v.unLimit
      {
        if m == 0 {
          StepsNonNeg(k, v.resolu);
          StepsMono(k, n, v.resolu);
        } else {
          assert s[m] == t[m - 1];
        }
      }
    }
  }

  /** Every beam of the rings' sweeps lies on one of the rings. */
  lemma {:induction false} RingsOnRings(phis: seq<real>, h: HorizConfig)
    ensures forall b :: b in Rings(phis, h) ==> b.phi in phis
    decreases |phis|
  {
    if phis != [] {
      HorizSweepPhi(phis[0], h);
      RingsOnRings(phis[1..], h);
      assert Rings(phis, h) == HorizSweep(phis[0], h) + Rings(phis[1..], h);
      forall b | b in Rings(phis, h)
        ensures b.phi in phis
      {
        if b !in HorizSweep(phis[0], h) {
          assert b.phi in phis[1..];
        }
      }
    }
  }

  /** A loop that has emitted `done` of `whole` and has `[b] + next` still to emit
      has, after emitting b, `next` still to emit. */
  lemma EmitStep<T>(whole: seq<T>, done: seq<T>, b: T, next: seq<T>)
    requires whole == done + ([b] + next)
    ensures whole == (done + [b]) + next
  {
  }

  lemma AppendAssoc<T>(a: seq<T>, b: seq<T>, c: seq<T>)
    ensures (a + b) + c == a + (b + c)
  {
  }

  /** Sweeping two runs of rings one after the other emits the two scans concatenated. */
  lemma {:induction false} RingsAppend(a: seq<real>, b: seq<real>, h: HorizConfig)
    ensures Rings(a + b, h) == Rings(a, h) + Rings(b, h)
    decreases |a|
  {
    if a != [] {
      assert (a + b)[0] == a[0];
      assert (a + b)[1..] == a[1..] + b;
      RingsAppend(a[1..], b, h);
    } else {
      assert a + b == b;
    }
  }

  /** The rings' sweeps together emit at most (number of rings) * smplNum beams. */
  lemma {:induction false} RingsBounded(phis: seq<real>, h: HorizConfig)
    requires 0 <= h.smplNum
    ensures |Rings(phis, h)| <= |phis| * h.smplNum
    decreases |phis|
  {
    if phis != [] {
      HorizSweepBounded(phis[0], h);
      RingsBounded(phis[1..], h);
      assert (|phis| - 1) * h.smplNum + h.smplNum == |phis| * h.smplNum;
    }
  }

  lemma {:induction false} IntMulMono(a: int, b: int, c: int)
    requires a <= b && 0 <= c
    ensures a * c <= b * c
  {
  }

  /** A 3D scan never emits more beams than horizSmplNum * vertiSmplNum, the total
      sample count the sensor reports, and every beam lies on one of its rings. */
  lemma {:induction false} Scan3DWithinTotal(h: HorizConfig, v: VertiConfig)
    requires 0 <= h.smplNum && 0 <= v.smplNum
    ensures |ScanBeams(InitAs3D, h, v)| <= h.smplNum * v.smplNum
    ensures forall b :: b in ScanBeams(InitAs3D, h, v) ==> b.phi in RingAngles(v, 0)
  {
    var phis := RingAngles(v, 0);
    RingAnglesShape(v, 0);
    RingsBounded(phis, h);
    RingsOnRings(phis, h);
    IntMulMono(|phis|, v.smplNum, h.smplNum);
  }

  /** The fall-through into the vertical loop is harmless exactly when the vertical
      sample count is 0: the 2D scan is then the single horizontal sweep. */
  lemma {:induction false} Scan2DWithoutRings(h: HorizConfig, v: VertiConfig)
    requires v.smplNum <= 0
    ensures ScanBeams(InitAs2D, h, v) == HorizSweep(HorizontalPlane, h)
  {
    assert RingAngles(v, 0) == [];
  }

  /** As written, a 2D scan whose vertical fields are left over from an earlier 3D
      configuration (2 rings between 45 and 125 degrees) emits, besides the
      horizontal-plane sweep, beams off the horizontal plane, and more beams than the
      2D total sample count. */
  lemma {:induction false} FallthroughEmitsStaleRings()
    ensures var h := HorizConfig(30.0, 330.0, 6, 10.0);
      var v := VertiConfig(45.0, 125.0, 2, 40.0);
      var beams := ScanBeams(InitAs2D, h, v);
      && |beams| > h.smplNum
      && exists b :: b in beams && b.phi != HorizontalPlane
  {
    var h := HorizConfig(30.0, 330.0, 6, 10.0);
    var v := VertiConfig(45.0, 125.0, 2, 40.0);
    var beams := ScanBeams(InitAs2D, h, v);
    HorizSweepExactCount(HorizontalPlane, h);
    HorizSweepExactCount(125.0, h);
    RingAnglesExact(v, 0);
    var phis := RingAngles(v, 0);
    RingAnglesShape(v, 0);
    assert phis[0] == 125.0;
    var ring := HorizSweep(125.0, h);
    HorizSweepPhi(125.0, h);
    assert beams == HorizSweep(HorizontalPlane, h) + (ring + Rings(phis[1..], h));
    assert ring[0] in beams;
  }

  /** With one branch per mode, every beam of a 2D scan lies in the horizontal plane
      and there are at most horizSmplNum of them, whatever the vertical fields hold. */
  lemma {:induction false} IntendedScan2DIsPlanar(h: HorizConfig, v: VertiConfig)
    ensures var beams := IntendedScanBeams(InitAs2D, h, v);
      && |beams| <= (if h.smplNum < 0 then 0 else h.smplNum)
      && forall b :: b in beams ==> b.phi == HorizontalPlane
  {
    var right := IntendedRight(HorizontalPlane, h, 0);
    IntendedRightShape(HorizontalPlane, h, 0);
    IntendedLeftShape(HorizontalPlane, h, h.smplNum - |right|, 0);
  }

  /** One intended sweep emits at most horizSmplNum beams, all at its elevation. */
  lemma IntendedSweepBounded(phi: real, h: HorizConfig)
    requires 0 <= h.smplNum
    ensures |IntendedSweep(phi, h)| <= h.smplNum
    ensures forall b :: b in IntendedSweep(phi, h) ==> b.phi == phi
  {
    var right := IntendedRight(phi, h, 0);
    IntendedRightShape(phi, h, 0);
    IntendedLeftShape(phi, h, h.smplNum - |right|, 0);
  }

  /** Sweeping two runs of rings one after the other emits the two scans concatenated. */
  lemma {:induction false} IntendedRingsAppend(a: seq<real>, b: seq<real>, h: HorizConfig)
    ensures IntendedRings(a + b, h) == IntendedRings(a, h) + IntendedRings(b, h)
    decreases |a|
  {
    if a != [] {
      assert (a + b)[0] == a[0];
      assert (a + b)[1..] == a[1..] + b;
      IntendedRingsAppend(a[1..], b, h);
      calc {
        IntendedRings(a + b, h);
        IntendedSweep(a[0], h) + IntendedRings(a[1..] + b, h);
        IntendedSweep(a[0], h) + (IntendedRings(a[1..], h) + IntendedRings(b, h));
        IntendedRings(a, h) + IntendedRings(b, h);
      }
    } else {
      assert a + b == b;
    }
  }

  /** Each intended ring contributes at most horizSmplNum beams. */
  lemma {:induction false} IntendedRingsBounded(phis: seq<real>, h: HorizConfig)
    requires 0 <= h.smplNum
    ensures |IntendedRings(phis, h)| <= |phis| * h.smplNum
    decreases |phis|
  {
    if phis != [] {
      IntendedSweepBounded(phis[0], h);
      IntendedRingsBounded(phis[1..], h);
      assert (|phis| - 1) * h.smplNum + h.smplNum == |phis| * h.smplNum;
    }
  }

  /** With one branch per mode, a scan never emits more beams than the total sample
      count the sensor reports for its mode. */
  lemma IntendedScanWithinTotal(t: InitType, h: HorizConfig, v: VertiConfig)
    ensures 0 <= h.smplNum && 0 <= v.smplNum ==> |IntendedScanBeams(t, h, v)| <= TotalSmplNum(t, h, v)
  {
    if 0 <= h.smplNum && 0 <= v.smplNum {
      match t
      case NotInitYet =>
      case InitAs2D => IntendedSweepBounded(HorizontalPlane, h);
      case InitAs3D =>
        var phis := RingAngles(v, 0);
        RingAnglesShape(v, 0);
        IntendedRingsBounded(phis, h);
        IntMulMono(|phis|, v.smplNum, h.smplNum);
        assert |phis| * h.smplNum <= v.smplNum * h.smplNum;
    }
  }

  /** Each beam of the intended right side is riLimit + (j + k) * resolu, below 360,
      and the side stops early only at an angle that reaches 360. */
  lemma {:induction false} IntendedRightShape(phi: real, h: HorizConfig, j: nat)
    ensures var s := IntendedRight(phi, h, j);
      && (j <= h.smplNum ==> j + |s| <= h.smplNum)
      && (j >= h.smplNum ==> s == [])
      && (forall k :: 0 <= k < |s| ==> s[k] == Beam(phi, RightAngle(h, j + k)))
      && (forall k :: 0 <= k < |s| ==> s[k].theta < 360.0)
      && (j + |s| < h.smplNum ==> RightAngle(h, j + |s|) >= 360.0)
    decreases h.smplNum - j
  {
    var s := IntendedRight(phi, h, j);
    if j < h.smplNum && RightAngle(h, j) < 360.0 {
      IntendedRightShape(phi, h, j + 1);
      var t := IntendedRight(phi, h, j + 1);
      assert s == [Beam(phi, RightAngle(h, j))] + t;
      forall k | 0 <= k < |s|
        ensures s[k] == Beam(phi, RightAngle(h, j + k))
        ensures s[k].theta < 360.0
      {
        if k > 0 {
          assert s[k] == t[k - 1];
          assert j + k == (j + 1) + (k - 1);
        }
      }
    }
  }

  /** Each beam of the intended left side is (i + k) * resolu, below leLimit. */
  lemma {:induction false} IntendedLeftShape(phi: real, h: HorizConfig, count: int, i: nat)
    ensures var s := IntendedLeft(phi, h, count, i);
      && (i <= count ==> i + |s| <= count)
      && (i >= count ==> s == [])
      && (forall k :: 0 <= k < |s| ==> s[k] == Beam(phi, LeftAngle(h, i + k)))
      && (forall k :: 0 <= k < |s| ==> s[k].theta < h.leLimit)
    decreases count - i
  {
    var s := IntendedLeft(phi, h, count, i);
    if i < count && LeftAngle(h, i) < h.leLimit {
      IntendedLeftShape(phi, h, count, i + 1);
      var t := IntendedLeft(phi, h, count, i + 1);
      assert s == [Beam(phi, LeftAngle(h, i))] + t;
      forall k | 0 <= k < |s|
        ensures s[k] == Beam(phi, LeftAngle(h, i + k))
        ensures s[k].theta < h.leLimit
      {
        if k > 0 {
          assert s[k] == t[k - 1];
          assert i + k == (i + 1) + (k - 1);
        }
      }
    }
  }

  lemma {:induction false} IntendedLeftFull(phi: real, h: HorizConfig, count: int, i: nat)
    requires i <= count
    requires forall m: nat :: i <= m < count ==> LeftAngle(h, m) < h.leLimit
    ensures |IntendedLeft(phi, h, count, i)| == count - i
    decreases count - i
  {
    if i < count {
      IntendedLeftFull(phi, h, count, i + 1);
    }
  }

  /** The intended sweep covers the field of view with exactly the configured number
      of beams whenever the resolution is the one the init methods derive, the right
      limit is below 360 and the left limit is not negative; the beams lie in
      [riLimit, 360) and then in [0, leLimit). */
  lemma {:induction false} IntendedSweepExactCount(phi: real, h: HorizConfig)
    requires 1 <= h.smplNum && 0.0 <= h.leLimit && h.riLimit < 360.0
    requires h.resolu == (h.leLimit + 360.0 - h.riLimit) / h.smplNum as real
    ensures var sweep := IntendedSweep(phi, h);
      var right := IntendedRight(phi, h, 0);
      && |sweep| == h.smplNum
      && (forall k :: 0 <= k < |right| ==> h.riLimit <= sweep[k].theta < 360.0)
      && (forall k :: |right| <= k < |sweep| ==> 0.0 <= sweep[k].theta < h.leLimit)
  {
    PositiveResolution(h);
    StepsIsProduct(h.smplNum, h.resolu);
    IntendedSweepCount(phi, h);
    IntendedSweepRange(phi, h);
  }

  /** A positive span shared among one or more samples gives a positive step. */
  lemma {:induction false} DivPos(a: real, n: int)
    requires 0.0 < a && 1 <= n
    ensures 0.0 < a / n as real
  {
  }

  lemma {:induction false} PositiveResolution(h: HorizConfig)
    requires 1 <= h.smplNum && 0.0 <= h.leLimit && h.riLimit < 360.0
    requires h.resolu == (h.leLimit + 360.0 - h.riLimit) / h.smplNum as real
    ensures 0.0 < h.resolu
  {
  }

  lemma {:induction false} IntendedSweepCount(phi: real, h: HorizConfig)
    requires 1 <= h.smplNum && 0.0 < h.resolu
    requires Steps(h.smplNum, h.resolu) == h.leLimit + 360.0 - h.riLimit
    ensures |IntendedSweep(phi, h)| == h.smplNum
  {
    var n := h.smplNum;
    var res := h.resolu;
    var right := IntendedRight(phi, h, 0);
    var kk := |right|;
    IntendedRightShape(phi, h, 0);
    if kk < n {
      assert h.riLimit + Steps(kk, res) >= 360.0;
      StepsAdd(kk + 1, n - kk - 1, res);
      forall m: nat | 0 <= m < n - kk
        ensures LeftAngle(h, m) < h.leLimit
      {
        if m < n - kk - 1 {
          StepsMono(m, n - kk - 1, res);
        }
      }
      IntendedLeftFull(phi, h, n - kk, 0);
    } else {
      IntendedLeftShape(phi, h, n - kk, 0);
    }
  }

  lemma {:induction false} IntendedSweepRange(phi: real, h: HorizConfig)
    requires 0.0 < h.resolu
    ensures var sweep := IntendedSweep(phi, h);
      var right := IntendedRight(phi, h, 0);
      && (forall k :: 0 <= k < |right| ==> h.riLimit <= sweep[k].theta < 360.0)
      && (forall k :: |right| <= k < |sweep| ==> 0.0 <= sweep[k].theta < h.leLimit)
  {
    var right := IntendedRight(phi, h, 0);
    var kk := |right|;
    var left := IntendedLeft(phi, h, h.smplNum - kk, 0);
    var sweep := IntendedSweep(phi, h);
    IntendedRightShape(phi, h, 0);
    IntendedLeftShape(phi, h, h.smplNum - kk, 0);
    forall k | 0 <= k < |sweep|
      ensures k < kk ==> h.riLimit <= sweep[k].theta < 360.0
      ensures kk <= k ==> 0.0 <= sweep[k].theta < h.leLimit
    {
      if k < kk {
        assert sweep[k] == right[k];
        StepsNonNeg(k, h.resolu);
      } else {
        assert sweep[k] == left[k - kk];
        StepsNonNeg(k - kk, h.resolu);
      }
    }
  }

  /** As written, a sweep whose first step from the right limit reaches the seam
      drops the beam at the right limit: with two samples from 350 to 10 degrees the
      sweep emits only the beam at 0, where the intended sweep emits 350 and 0. */
  lemma {:induction false} SweepDropsRightLimit(phi: real)
    ensures HorizSweep(phi, HorizConfig(10.0, 350.0, 2, 10.0)) == [Beam(phi, 0.0)]
    ensures IntendedSweep(phi, HorizConfig(10.0, 350.0, 2, 10.0)) == [Beam(phi, 350.0), Beam(phi, 0.0)]
  {
    var h := HorizConfig(10.0, 350.0, 2, 10.0);
    assert RightSegment(phi, h, 0) == [];
    assert LeftSegment(phi, h, -10.0, 2, 1) == [];
    assert LeftSegment(phi, h, -10.0, 2, 0) == [Beam(phi, 0.0)];
    assert IntendedRight(phi, h, 1) == [];
    assert IntendedRight(phi, h, 0) == [Beam(phi, 350.0)];
    assert IntendedLeft(phi, h, 1, 0) == [Beam(phi, 0.0)];
  }

  /** As written, a one-sample sensor without a left side emits nothing at all. */
  lemma {:induction false} SingleSampleSweepIsEmpty(phi: real)
    ensures HorizSweep(phi, HorizConfig(0.0, 350.0, 1, 10.0)) == []
    ensures IntendedSweep(phi, HorizConfig(0.0, 350.0, 1, 10.0)) == [Beam(phi, 350.0)]
  {
    var h := HorizConfig(0.0, 350.0, 1, 10.0);
    assert RightSegment(phi, h, 0) == [];
    assert LeftSegment(phi, h, -10.0, 1, 0) == [];
    assert IntendedRight(phi, h, 0) == [Beam(phi, 350.0)];
  }

  // ---------------------------------------------------------------------------
  // The counts are the lengths of the beam sequences.
  // ---------------------------------------------------------------------------

  lemma {:induction false} RightCountIsLength(phi: real, h: HorizConfig, j: nat)
    ensures |RightSegment(phi, h, j)| == RightCount(h, j)
    decreases h.smplNum - j
  {
    if j < h.smplNum && RightPrev(h, j) < 360.0 - h.resolu {
      RightCountIsLength(phi, h, j + 1);
    }
  }

  lemma {:induction false} LeftCountIsLength(phi: real, h: HorizConfig, start: real, count: int, i: nat)
    ensures |LeftSegment(phi, h, start, count, i)| == LeftCount(h, start, count, i)
    decreases count - i
  {
    if i < count && LeftPrev(h, start, i) < h.leLimit - h.resolu {
      LeftCountIsLength(phi, h, start, count, i + 1);
    }
  }

  /** A sweep is its right side followed by its left side, and SweepCount beams long. */
  lemma {:induction false} HorizSweepSplit(phi: real, h: HorizConfig)
    ensures var r := RightCount(h, 0);
      HorizSweep(phi, h) == RightSegment(phi, h, 0) + LeftSegment(phi, h, LeftStart(h), h.smplNum - r, 0)
    ensures |HorizSweep(phi, h)| == SweepCount(h)
  {
    RightCountIsLength(phi, h, 0);
    LeftCountIsLength(phi, h, LeftStart(h), h.smplNum - RightCount(h, 0), 0);
  }

  lemma {:induction false} RingCountIsLength(v: VertiConfig, k: nat)
    ensures |RingAngles(v, k)| == RingCount(v, k)
    decreases v.smplNum - k
  {
    if k < v.smplNum && RingPrev(v, k) > v.upLimit - v.resolu {
      RingCountIsLength(v, k + 1);
    }
  }

  lemma {:induction false} RingBeamsIsLength(v: VertiConfig, h: HorizConfig, k: nat)
    ensures |Rings(RingAngles(v, k), h)| == RingBeams(v, h, k)
    decreases v.smplNum - k
  {
    if k < v.smplNum && RingPrev(v, k) > v.upLimit - v.resolu {
      RingBeamsIsLength(v, h, k + 1);
      var s := RingAngles(v, k);
      assert s[1..] == RingAngles(v, k + 1);
      HorizSweepSplit(s[0], h);
    }
  }

  /** A scan's beam count: the plane's sweep in 2D, and the rings' sweeps. */
  lemma {:induction false} ScanLength(t: InitType, h: HorizConfig, v: VertiConfig)
    ensures |ScanBeams(t, h, v)| == match t
      case NotInitYet => 0
      case InitAs2D => SweepCount(h) + RingBeams(v, h, 0)
      case InitAs3D => RingBeams(v, h, 0)
  {
    HorizSweepSplit(HorizontalPlane, h);
    RingBeamsIsLength(v, h, 0);
  }
}
