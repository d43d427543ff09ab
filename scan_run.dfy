/** The scan loops as counted runs.

    The sweep and ring loops hand one beam at a time to the per-beam writer. Their
    loop invariants speak of the state after the first n iterations, computed here
    by index: `beam` is the per-beam computation (the outcome of the beam at given
    angles) and `step` is the state change one outcome makes. The lemmas at the end
    show that, when `beam` is Outcome with the scan's noise draws and `step` is
    AfterBeam, these runs are the runs of the beam sequences of ScanPattern. */
module ScanRun {
  import opened Engine
  import opened ScanPattern
  import opened PointWriter

  /** The outcome of a beam as a function of its angles (phi, theta). */
  type BeamFn = (real, real) -> BeamOutcome

  /** The state change one beam's outcome makes. */
  type StepFn = (ScanState, BeamOutcome) -> ScanState

  /** `beam` is the outcome of each beam in context c, with the beam's noise draw. */
  ghost predicate Computes(c: BeamContext, noise: Noise, beam: BeamFn) {
    && ValidContext(c)
    && forall phi, theta {:trigger Outcome(c, phi, theta, noise(phi, theta))} ::
         beam(phi, theta) == Outcome(c, phi, theta, noise(phi, theta))
  }

  /** Every outcome `beam` yields has the shape WellShaped describes. */
  ghost predicate Shaped(b: Build, beam: BeamFn) {
    forall phi, theta {:trigger WellShaped(b, beam(phi, theta))} :: WellShaped(b, beam(phi, theta))
  }

  /** `step` is AfterBeam. */
  ghost predicate StepsAs(step: StepFn) {
    forall st, o {:trigger AfterBeam(st, o)} :: step(st, o) == AfterBeam(st, o)
  }

  /** The state after the beams `bs`, in order. */
  function RunBeams(step: StepFn, beam: BeamFn, st: ScanState, bs: seq<Beam>): ScanState
    decreases |bs|
  {
    if bs == [] then st
    else
      var b := bs[|bs| - 1];
      step(RunBeams(step, beam, st, bs[..|bs| - 1]), beam(b.phi, b.theta))
  }

  /** The state after the first n beams of the right side of a sweep at elevation phi. */
  function RightRun(step: StepFn, beam: BeamFn, st: ScanState, phi: real, h: HorizConfig, n: nat): ScanState
    decreases n
  {
    if n == 0 then st else step(RightRun(step, beam, st, phi, h, n - 1), beam(phi, RightAngle(h, n - 1)))
  }

  /** The state after the first n beams of the left side of a sweep at elevation phi. */
  function LeftRun(step: StepFn, beam: BeamFn, st: ScanState, phi: real, h: HorizConfig, n: nat): ScanState
    decreases n
  {
    if n == 0 then st else step(LeftRun(step, beam, st, phi, h, n - 1), beam(phi, LeftAngle(h, n - 1)))
  }

  /** The state after one whole sweep at elevation phi: the right side, then the left
      side with the samples that remain. */
  function SweepRun(step: StepFn, beam: BeamFn, st: ScanState, phi: real, h: HorizConfig): ScanState {
    var r := RightCount(h, 0);
    LeftRun(step, beam, RightRun(step, beam, st, phi, h, r), phi, h, LeftCount(h, LeftStart(h), h.smplNum - r, 0))
  }

  /** The state after the sweeps of the first k rings of the vertical loop. */
  function RingRun(step: StepFn, beam: BeamFn, st: ScanState, h: HorizConfig, v: VertiConfig, k: nat): ScanState
    decreases k
  {
    if k == 0 then st else SweepRun(step, beam, RingRun(step, beam, st, h, v, k - 1), RingAngle(v, k - 1), h)
  }

  /** The state after a whole scan as the dispatch runs it: in 2D the horizontal plane
      and then the rings, in 3D the rings. */
  function ScanRunOf(step: StepFn, beam: BeamFn, st: ScanState, t: InitType, h: HorizConfig, v: VertiConfig): ScanState {
    match t
    case NotInitYet => st
    case InitAs2D => RingRun(step, beam, SweepRun(step, beam, st, HorizontalPlane, h), h, v, RingCount(v, 0))
    case InitAs3D => RingRun(step, beam, st, h, v, RingCount(v, 0))
  }

  // ===========================================================================
  // Lemmas
  // ===========================================================================

  /** The state change AfterBeam as a value. */
  lemma AfterBeamStep() returns (step: StepFn)
    ensures StepsAs(step)
  {
    step := (st, o) => AfterBeam(st, o);
  }

  /** Outcome's results are well shaped, so a `beam` that computes it is Shaped. */
  lemma ComputesShaped(c: BeamContext, noise: Noise, beam: BeamFn)
    requires Computes(c, noise, beam)
    ensures Shaped(c.build, beam)
  {
    forall phi, theta
      ensures WellShaped(c.build, beam(phi, theta))
    {
      OutcomeShape(c, phi, theta, noise(phi, theta));
    }
  }

  /** Running two beam sequences one after the other is running them joined. */
  lemma {:induction false} RunBeamsAppend(step: StepFn, beam: BeamFn, st: ScanState, a: seq<Beam>, b: seq<Beam>)
    ensures RunBeams(step, beam, st, a + b) == RunBeams(step, beam, RunBeams(step, beam, st, a), b)
    decreases |b|
  {
    if b == [] {
      assert a + b == a;
    } else {
      RunBeamsAppend(step, beam, st, a, b[..|b| - 1]);
      assert (a + b)[..|a + b| - 1] == a + b[..|b| - 1];
      assert (a + b)[|a + b| - 1] == b[|b| - 1];
    }
  }

  /** The right side's counted run after n beams is the run of the right segment's
      first n beams. */
  lemma {:induction false} RightRunIs(step: StepFn, beam: BeamFn, st: ScanState, phi: real, h: HorizConfig, n: nat)
    requires n <= RightCount(h, 0)
    ensures RightCount(h, 0) == |RightSegment(phi, h, 0)|
    ensures RightRun(step, beam, st, phi, h, n) == RunBeams(step, beam, st, RightSegment(phi, h, 0)[..n])
    decreases n
  {
    var s := RightSegment(phi, h, 0);
    RightCountIsLength(phi, h, 0);
    if n > 0 {
      RightRunIs(step, beam, st, phi, h, n - 1);
      RightSegmentShape(phi, h, 0);
      assert s[n - 1] == Beam(phi, RightAngle(h, n - 1));
      assert s[..n][..n - 1] == s[..n - 1];
    }
  }

  /** The left side's counted run after n beams is the run of the left segment's
      first n beams. */
  lemma {:induction false} LeftRunIs(step: StepFn, beam: BeamFn, st: ScanState, phi: real, h: HorizConfig,
                                     start: real, count: int, n: nat)
    requires n <= LeftCount(h, start, count, 0)
    ensures LeftCount(h, start, count, 0) == |LeftSegment(phi, h, start, count, 0)|
    ensures LeftRun(step, beam, st, phi, h, n) == RunBeams(step, beam, st, LeftSegment(phi, h, start, count, 0)[..n])
    decreases n
  {
    var s := LeftSegment(phi, h, start, count, 0);
    LeftCountIsLength(phi, h, start, count, 0);
    if n > 0 {
      LeftRunIs(step, beam, st, phi, h, start, count, n - 1);
      LeftSegmentShape(phi, h, start, count, 0);
      assert s[n - 1] == Beam(phi, LeftAngle(h, n - 1));
      assert s[..n][..n - 1] == s[..n - 1];
    }
  }

  /** A sweep's counted run is the run of the sweep's beams. */
  lemma {:induction false} SweepRunIs(step: StepFn, beam: BeamFn, st: ScanState, phi: real, h: HorizConfig)
    ensures SweepRun(step, beam, st, phi, h) == RunBeams(step, beam, st, HorizSweep(phi, h))
  {
    var r := RightCount(h, 0);
    var right := RightSegment(phi, h, 0);
    RightRunIs(step, beam, st, phi, h, r);
    assert right[..r] == right;
    var start := LeftStart(h);
    var left := LeftSegment(phi, h, start, h.smplNum - r, 0);
    var m := LeftCount(h, start, h.smplNum - r, 0);
    LeftRunIs(step, beam, RunBeams(step, beam, st, right), phi, h, start, h.smplNum - r, m);
    assert left[..m] == left;
    HorizSweepSplit(phi, h);
    RunBeamsAppend(step, beam, st, right, left);
  }

  /** The vertical loop's counted run after k rings is the run of the first k rings'
      sweeps. */
  lemma {:induction false} RingRunIs(step: StepFn, beam: BeamFn, st: ScanState, h: HorizConfig, v: VertiConfig, k: nat)
    requires k <= RingCount(v, 0)
    ensures RingCount(v, 0) == |RingAngles(v, 0)|
    ensures RingRun(step, beam, st, h, v, k) == RunBeams(step, beam, st, Rings(RingAngles(v, 0)[..k], h))
    decreases k
  {
    var s := RingAngles(v, 0);
    RingCountIsLength(v, 0);
    if k == 0 {
      assert s[..0] == [];
    } else {
      RingRunIs(step, beam, st, h, v, k - 1);
      RingAnglesShape(v, 0);
      var phi := s[k - 1];
      assert phi == RingAngle(v, k - 1);
      var before := Rings(s[..k - 1], h);
      var sweep := HorizSweep(phi, h);
      SweepRunIs(step, beam, RunBeams(step, beam, st, before), phi, h);
      RunBeamsAppend(step, beam, st, before, sweep);
      assert s[..k] == s[..k - 1] + [phi];
      RingsAppend(s[..k - 1], [phi], h);
      assert [phi][1..] == [];
      assert Rings([phi], h) == sweep + [];
      assert Rings(s[..k], h) == before + sweep;
    }
  }

  /** The counted run of a whole scan is the run of the scan's beams. */
  lemma {:induction false} ScanRunIs(step: StepFn, beam: BeamFn, st: ScanState, t: InitType, h: HorizConfig, v: VertiConfig)
    ensures ScanRunOf(step, beam, st, t, h, v) == RunBeams(step, beam, st, ScanBeams(t, h, v))
  {
    var rings := RingAngles(v, 0);
    var n := RingCount(v, 0);
    match t
    case NotInitYet =>
    case InitAs2D =>
      var plane := HorizSweep(HorizontalPlane, h);
      SweepRunIs(step, beam, st, HorizontalPlane, h);
      RingRunIs(step, beam, RunBeams(step, beam, st, plane), h, v, n);
      assert rings[..n] == rings;
      RunBeamsAppend(step, beam, st, plane, Rings(rings, h));
    case InitAs3D =>
      RingRunIs(step, beam, st, h, v, n);
      assert rings[..n] == rings;
  }

  /** When `beam` is Outcome with the scan's noise draws and `step` is AfterBeam, the
      run of a beam sequence is the run of its outcomes. */
  lemma {:induction false} RunBeamsIsRun(c: BeamContext, noise: Noise, beam: BeamFn, step: StepFn,
                                         st: ScanState, bs: seq<Beam>)
    requires Computes(c, noise, beam) && StepsAs(step)
    ensures RunBeams(step, beam, st, bs) == Run(st, Outcomes(c, noise, bs))
    decreases |bs|
  {
    if bs != [] {
      var pre := bs[..|bs| - 1];
      var b := bs[|bs| - 1];
      RunBeamsIsRun(c, noise, beam, step, st, pre);
      assert bs == pre + [b];
      RunStep(c, st, noise, pre, b);
    }
  }
}
