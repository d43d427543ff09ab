/** What one beam produces: the per-beam point generator and the later update pass,
    as values. The sensor class writes these values into its buffers.

    The beam's end point is rotated into the world with the direction-cosine matrix,
    projected onto the screen, and then takes one of two paths. An on-screen target
    is measured from the depth buffer and stored as a full record when within range.
    A ray-cast hit whose target is off screen is stored as a four-float record. */
module PointWriter {
  import opened Geometry
  import opened Engine
  import opened Orientation
  import opened DepthSampler
  import opened HitTracker
  import opened Channels
  import opened VehicleTable
  import opened Buffers
  import opened ScanPattern

  /** A depth-map hit kept for the update pass: the world target, its screen
      position, the height above the ground (or -1) and the ray-cast distance. */
  datatype HitDepth = HitDepth(target: Vec3, target2D: Vec2, groundDist: real, rayCastDepth: real)

  /** Everything one beam writes or records. */
  datatype BeamOutcome = BeamOutcome(
    mapPoint: seq<real>,       // the target's screen position for the 2D point map
    depthHit: seq<HitDepth>,   // the hit candidate kept for the update pass
    primary: seq<real>,        // the record written at the beam's slot of the point cloud
    depthStored: bool,         // whether that record is a depth-map record
    hitId: int,                // the entity id under the target, for a depth-map record
    hitEntry: HitEntity,       // the hit map entry a first hit on that entity starts with
    updated: seq<real>,        // the record appended to the updated point cloud
    raycast: seq<real>,        // the record appended to the ray-cast point cloud
    rayExtent: bool,           // whether the ray-cast hit is recorded in the hit map
    rayEntity: int,            // the entity id of the ray-cast hit
    rayEntry: HitEntity,       // the hit map entry a first ray-cast hit on it starts with
    rayVec: Vec3               // the ray-cast end point relative to the camera
  )

  /** The sensor state a beam reads. */
  datatype BeamContext = BeamContext(
    build: Build, n: Natives, cam: CamParams, pixel: PixelDepth, seg: seq<int>,
    table: Table, rot: Mat3, maxRange: real, lidarVehicle: int, param: int, defaults: HitDefaults)

  predicate ValidContext(c: BeamContext) {
    ValidCam(c.cam) && c.cam.width * c.cam.height <= |c.seg|
  }

  /** The beam's end point at full range, in the vehicle's body axes. */
  function EndCoord(c: BeamContext, phi: real, theta: real): Vec3 {
    var phiRad := phi * c.build.d2r;
    var thetaRad := theta * c.build.d2r;
    Vec3(-c.maxRange * c.n.sin(phiRad) * c.n.sin(thetaRad),
         c.maxRange * c.n.sin(phiRad) * c.n.cos(thetaRad),
         c.maxRange * c.n.cos(phiRad))
  }

  /** The end point rotated into the world and placed at the camera. */
  function Target(c: BeamContext, endCoord: Vec3): Vec3 {
    Add(Apply(c.rot, endCoord), c.cam.pos)
  }

  /** The point measured from the depth buffer along the direction of `target`,
      relative to the camera in world axes: the unit vector towards the target
      scaled by the depth sampled at the target's screen position. A target at the
      camera position itself has no direction: the division by its zero distance
      gives no number, and Kept turns such a point away, so the zero unit vector
      written here is never stored. */
  function DepthEndCoord(n: Natives, noiseOn: bool, cam: CamParams, pixel: PixelDepth,
                         target: Vec3, target2D: Vec2, noise: real): Vec3
    requires ValidCam(cam)
  {
    var d := Sub(target, cam.pos);
    var distance := n.sqrt(NormSq(d));
    var unit := if distance == 0.0 then Vec3(0.0, 0.0, 0.0)
                else Vec3(d.x / distance, d.y / distance, d.z / distance);
    var depth := DepthFromScreenPos(target2D.u, target2D.v, cam, pixel, noiseOn, noise);
    Scale(unit, depth)
  }

  /** The depth-buffer point in camera-relative vehicle axes. */
  function Get3DFromDepthTarget(n: Natives, noiseOn: bool, cam: CamParams, pixel: PixelDepth,
                                target: Vec3, target2D: Vec2, noise: real): Vec3
    requires ValidCam(cam)
  {
    n.toCamera(DepthEndCoord(n, noiseOn, cam, pixel, target, target2D, noise))
  }

  /** Whether a camera-relative point passes the range filter. */
  predicate InRange(n: Natives, maxLidarDist: real, v: Vec3) {
    n.sqrt(NormSq(v)) <= maxLidarDist
  }

  /** Whether the target lies away from the camera, so that it has a direction. */
  predicate HasDirection(n: Natives, cam: CamParams, target: Vec3) {
    n.sqrt(NormSq(Sub(target, cam.pos))) != 0.0
  }

  /** Whether the point v measured towards `target` is stored: a target without a
      direction yields coordinates that are not numbers, which fail the range test. */
  predicate Kept(n: Natives, maxLidarDist: real, cam: CamParams, target: Vec3, v: Vec3) {
    HasDirection(n, cam, target) && InRange(n, maxLidarDist, v)
  }

  /** For a target away from the camera, the depth-buffer point lies on the ray
      from the camera through the target, at the sampled depth from the camera
      (when the engine's square root is one at the target's squared distance); the
      stored point is that point in vehicle axes. */
  lemma {:induction false} DepthEndCoordOnRay(n: Natives, noiseOn: bool, cam: CamParams, pixel: PixelDepth,
                                              target: Vec3, target2D: Vec2, noise: real)
    requires ValidCam(cam) && HasDirection(n, cam, target)
    ensures var d := Sub(target, cam.pos);
      var s := n.sqrt(NormSq(d));
      var depth := DepthFromScreenPos(target2D.u, target2D.v, cam, pixel, noiseOn, noise);
      var p := DepthEndCoord(n, noiseOn, cam, pixel, target, target2D, noise);
      && p == Scale(d, depth / s)
      && (s * s == NormSq(d) ==> NormSq(p) == depth * depth)
      && Get3DFromDepthTarget(n, noiseOn, cam, pixel, target, target2D, noise) == n.toCamera(p)
  {
    var d := Sub(target, cam.pos);
    var s := n.sqrt(NormSq(d));
    ScaledUnitOnRay(d, s, DepthFromScreenPos(target2D.u, target2D.v, cam, pixel, noiseOn, noise));
  }

  /** The unit vector towards d, of length s, scaled by depth. */
  lemma {:induction false} ScaledUnitOnRay(d: Vec3, s: real, depth: real)
    requires s != 0.0
    ensures var p := Scale(Vec3(d.x / s, d.y / s, d.z / s), depth);
      && p == Scale(d, depth / s)
      && (s * s == NormSq(d) ==> NormSq(p) == depth * depth)
  {
    DivThenScale(d.x, s, depth);
    DivThenScale(d.y, s, depth);
    DivThenScale(d.z, s, depth);
    var k := depth / s;
    assert Scale(Vec3(d.x / s, d.y / s, d.z / s), depth) == Vec3(d.x * k, d.y * k, d.z * k);
    if s * s == NormSq(d) {
      ScaledNormSq(d, k);
      SquareOfRatio(NormSq(d), s, depth);
    }
  }

  lemma {:induction false} DivThenScale(a: real, s: real, depth: real)
    requires s != 0.0
    ensures (a / s) * depth == a * (depth / s)
  {
  }

  lemma {:induction false} ScaledNormSq(d: Vec3, k: real)
    ensures NormSq(Scale(d, k)) == NormSq(d) * (k * k)
  {
  }

  lemma {:induction false} SquareOfRatio(q: real, s: real, depth: real)
    requires s != 0.0 && s * s == q
    ensures q * ((depth / s) * (depth / s)) == depth * depth
  {
  }

  /** The entity id under an on-screen screen position. */
  function SegId(c: BeamContext, t2: Vec2): int
    requires ValidContext(c) && IsPositionOnScreen(t2.u, t2.v)
  {
    var px := HitPixel(t2.u, t2.v, c.cam);
    HitPixelOnScreen(t2.u, t2.v, c.cam);
    PixelOffsetInBuffer(px.0, px.1, c.cam);
    c.seg[PixelOffset(px.0, px.1, c.cam)]
  }

  /** The full depth-map record of a camera-relative point whose target shows entity
      `id`. */
  function DepthPointRecord(c: BeamContext, v: Vec3, id: int): seq<real> {
    var own := c.n.ownVehicle;
    var player := c.n.entity(own);
    var obj := c.n.entity(id);
    DepthRecord(v,
                EntityChannel(id, own),
                ClassChannel(c.table, obj.displayName, id, own),
                VelocityChannel(c.n, id, own, obj, player, Elevation(c.n, v, player)))
  }

  /** The outcome of one beam at (phi, theta), with `noise` the draw for its depth. */
  function Outcome(c: BeamContext, phi: real, theta: real, noise: real): BeamOutcome
    requires ValidContext(c)
  {
    var end0 := EndCoord(c, phi, theta);
    var target := Target(c, end0);
    var ray := if c.build.useRaycasting then c.n.castRay(c.cam.pos, target, c.lidarVehicle, c.param)
               else RayHit(false, end0, 0);
    var endCoord := ray.endCoord;
    var t2 := c.n.project(target);
    var mapPoint := if c.build.generate2DPointmap then [t2.u, t2.v] else [];
    var onScreen := IsPositionOnScreen(t2.u, t2.v);
    // depth-map path
    var groundDist := if c.build.outputDepthStats then endCoord.z - c.n.groundZ(endCoord) else -1.0;
    var depthHit := if onScreen then [HitDepth(target, t2, groundDist, c.n.sqrt(NormSq(Sub(c.cam.pos, endCoord))))] else [];
    var v := Get3DFromDepthTarget(c.n, c.build.gaussianNoise, c.cam, c.pixel, target, t2, noise);
    var depthStored := onScreen && Kept(c.n, c.build.maxLidarDist, c.cam, target, v);
    var hitId := if onScreen then SegId(c, t2) else 0;
    var depthRecord := if depthStored then DepthPointRecord(c, v, hitId) else [];
    // ray-cast path
    var rayHit := c.build.useRaycasting && ray.isHit;
    var rid := RayEntityId(c.n.entity(ray.hitEntity), ray.hitEntity);
    var vec := Sub(endCoord, c.cam.pos);
    var rv := c.n.toCamera(vec);
    var rayRecord := if rayHit && !onScreen then RayRecord(rv, rid) else [];
    BeamOutcome(
      mapPoint, depthHit,
      depthRecord + rayRecord, depthStored, hitId, NewEntry(c.n.entity(hitId), c.cam, c.defaults),
      rayRecord,
      if rayHit && c.build.outputRaycastPoints then RayRecord(rv, rid) else [],
      rayHit && c.build.obtainRayPointsHit, rid, NewEntry(c.n.entity(rid), c.cam, c.defaults), vec)
  }

  /** The hit map after one beam: the depth-map record counts a hit on the entity under
      it, then a ray-cast hit widens its entity's extent. */
  function HitsAfter(m: HitMap, o: BeamOutcome): HitMap {
    var m1 := if o.depthStored then AddHit(m, o.hitId, o.hitEntry) else m;
    if o.rayExtent then RayExtent(m1, o.rayEntity, o.rayVec, o.rayEntry)
    else m1
  }

  // ===========================================================================
  // Properties of one beam
  // ===========================================================================

  /** The shape of what a beam writes: at most one record per buffer. The slot of the
      point cloud gets a seven-float depth-map record, a four-float ray-cast record
      (the same one appended to the updated cloud), or nothing; the two are never
      both written, and nothing is written to a buffer the build does not use. */
  predicate WellShaped(b: Build, o: BeamOutcome) {
    && |o.mapPoint| == (if b.generate2DPointmap then 2 else 0)
    && |o.depthHit| <= 1
    && (o.depthStored <==> |o.primary| == FloatsPerPoint)
    && (o.depthStored ==> |o.depthHit| == 1)
    && (|o.primary| == FloatsPerPoint || |o.primary| == 4 || |o.primary| == 0)
    && (|o.updated| == 4 <==> |o.primary| == 4)
    && (|o.updated| == 4 ==> o.updated == o.primary && o.depthHit == [])
    && (|o.updated| == 0 || |o.updated| == 4)
    && (|o.raycast| == 0 || |o.raycast| == 4)
    && (o.raycast != [] ==> b.useRaycasting && b.outputRaycastPoints)
    && (o.updated != [] ==> b.useRaycasting)
  }

  lemma {:induction false} OutcomeShape(c: BeamContext, phi: real, theta: real, noise: real)
    requires ValidContext(c)
    ensures WellShaped(c.build, Outcome(c, phi, theta, noise))
  {
  }

  /** A depth-map record is the measured point in KITTI axes, within range, with the
      entity id (0 on the own vehicle), a 0/1 class flag and a zero fourth channel. */
  lemma {:induction false} DepthRecordContents(c: BeamContext, phi: real, theta: real, noise: real)
    requires ValidContext(c)
    ensures var o := Outcome(c, phi, theta, noise);
      var r := o.primary;
      o.depthStored ==>
        var p := Vec3(r[0], r[1], r[2]);
        && c.n.sqrt(NormSq(p)) <= c.build.maxLidarDist
        && r[3] == EntityChannel(o.hitId, c.n.ownVehicle)
        && (r[4] == 0.0 || r[4] == 1.0)
        && r[5] == 0.0
  {
    var o := Outcome(c, phi, theta, noise);
    if o.depthStored {
      var t2 := c.n.project(Target(c, EndCoord(c, phi, theta)));
      var v := Get3DFromDepthTarget(c.n, c.build.gaussianNoise, c.cam, c.pixel, Target(c, EndCoord(c, phi, theta)), t2, noise);
      var own := c.n.ownVehicle;
      var obj := c.n.entity(o.hitId);
      var rec := DepthPointRecord(c, v, o.hitId);
      assert o.primary == rec;
      RecordPositionRoundTrip(v, rec[3..]);
      assert rec == Position(v) + rec[3..];
      ClassChannelIsFlag(c.table, obj.displayName, o.hitId, own);
    }
  }

  /** A four-float record in the point cloud comes only from a ray-cast hit whose
      target is off screen, and carries the ray-cast entity id; no range filter is
      applied to it. */
  lemma {:induction false} RayRecordOffScreen(c: BeamContext, phi: real, theta: real, noise: real)
    requires ValidContext(c)
    ensures var o := Outcome(c, phi, theta, noise);
      var t2 := c.n.project(Target(c, EndCoord(c, phi, theta)));
      |o.primary| == 4 ==>
        && c.build.useRaycasting
        && !IsPositionOnScreen(t2.u, t2.v)
        && o.primary[3] == o.rayEntity as real
  {
  }

  // ===========================================================================
  // A run of beams
  // ===========================================================================

  /** The noise draw for the beam at (phi, theta). */
  type Noise = (real, real) -> real

  /** The outcomes of a run of beams, in beam order, each beam with its own noise
      draw. */
  function Outcomes(c: BeamContext, noise: Noise, beams: seq<Beam>): (r: seq<BeamOutcome>)
    requires ValidContext(c)
    ensures |r| == |beams|
    decreases |beams|
  {
    if beams == [] then []
    else
      var b := beams[|beams| - 1];
      Outcomes(c, noise, beams[..|beams| - 1]) + [Outcome(c, b.phi, b.theta, noise(b.phi, b.theta))]
  }

  /** The part of the sensor's state that the beams of one scan change: the four
      buffers with their record counters, the depth-map hit counter, the hit
      candidates kept for the update pass and the caller's hit map. A buffer that is
      not allocated is the empty sequence. */
  datatype ScanState = ScanState(
    cloud: seq<real>, pointsHit: int, depthMapPoints: int,
    updated: seq<real>, updatedCount: int,
    raycast: seq<real>, raycastPoints: int,
    map2D: seq<real>, beamCount: int,
    hitDepth: seq<HitDepth>, hits: HitMap)

  /** The state after one beam, in the order the beam writes: the 2D map position
      and the kept hit candidate, then the depth-map record with the hit it counts,
      then the ray-cast record in the point cloud and the updated cloud, then the
      ray-cast output record and the extent of the entity the ray hit. */
  function AfterBeam(st: ScanState, o: BeamOutcome): ScanState {
    RayStep(UpdatedStep(DepthStep(MapStep(st, o), o), o), o)
  }

  function MapStep(st: ScanState, o: BeamOutcome): ScanState {
    st.(map2D := Put(st.map2D, 2 * st.beamCount, o.mapPoint),
        beamCount := st.beamCount + (if o.mapPoint != [] then 1 else 0),
        hitDepth := st.hitDepth + o.depthHit)
  }

  function DepthStep(st: ScanState, o: BeamOutcome): ScanState {
    if o.depthStored then
      st.(cloud := Put(st.cloud, 7 * st.pointsHit, o.primary),
          pointsHit := st.pointsHit + 1,
          depthMapPoints := st.depthMapPoints + 1,
          hits := AddHit(st.hits, o.hitId, o.hitEntry))
    else st
  }

  function UpdatedStep(st: ScanState, o: BeamOutcome): ScanState {
    if o.updated != [] then
      st.(cloud := Put(st.cloud, 7 * st.pointsHit, o.updated),
          pointsHit := st.pointsHit + 1,
          updated := Put(st.updated, 7 * st.updatedCount, o.updated),
          updatedCount := st.updatedCount + 1)
    else st
  }

  function RayStep(st: ScanState, o: BeamOutcome): ScanState {
    st.(raycast := Put(st.raycast, 7 * st.raycastPoints, o.raycast),
        raycastPoints := st.raycastPoints + (if o.raycast != [] then 1 else 0),
        hits := if o.rayExtent then RayExtent(st.hits, o.rayEntity, o.rayVec, o.rayEntry)
                else st.hits)
  }

  /** Buffer by buffer, a well-shaped beam writes its record at that buffer's next
      slot and moves that buffer's counter on by one exactly when it writes; the
      hit map is updated as HitsAfter says. */
  lemma {:induction false} AfterBeamFields(b: Build, st: ScanState, o: BeamOutcome)
    requires WellShaped(b, o)
    ensures var r := AfterBeam(st, o);
      && r.cloud == Put(st.cloud, 7 * st.pointsHit, o.primary)
      && r.pointsHit == st.pointsHit + (if o.primary != [] then 1 else 0)
      && r.depthMapPoints == st.depthMapPoints + (if o.depthStored then 1 else 0)
      && r.updated == Put(st.updated, 7 * st.updatedCount, o.updated)
      && r.updatedCount == st.updatedCount + (if o.updated != [] then 1 else 0)
      && r.raycast == Put(st.raycast, 7 * st.raycastPoints, o.raycast)
      && r.raycastPoints == st.raycastPoints + (if o.raycast != [] then 1 else 0)
      && r.map2D == Put(st.map2D, 2 * st.beamCount, o.mapPoint)
      && r.beamCount == st.beamCount + (if o.mapPoint != [] then 1 else 0)
      && r.hitDepth == st.hitDepth + o.depthHit
      && r.hits == HitsAfter(st.hits, o)
  {
  }

  /** The update buffer and its counter after a beam. */
  lemma AfterBeamUpdated(st: ScanState, o: BeamOutcome)
    ensures AfterBeam(st, o).updated == Put(st.updated, 7 * st.updatedCount, o.updated)
    ensures AfterBeam(st, o).updatedCount == st.updatedCount + (if o.updated != [] then 1 else 0)
  {
  }

  /** Every record of one beam fits its buffer at the buffer's next slot. */
  predicate Fits(st: ScanState, o: BeamOutcome) {
    && (o.primary != [] ==> 0 <= st.pointsHit && 7 * st.pointsHit + |o.primary| <= |st.cloud|)
    && (o.updated != [] ==> 0 <= st.updatedCount && 7 * st.updatedCount + |o.updated| <= |st.updated|)
    && (o.raycast != [] ==> 0 <= st.raycastPoints && 7 * st.raycastPoints + |o.raycast| <= |st.raycast|)
    && (o.mapPoint != [] ==> 0 <= st.beamCount && 2 * st.beamCount + |o.mapPoint| <= |st.map2D|)
  }

  /** The buffers the build writes have room for k more beams. */
  predicate RoomFor(b: Build, st: ScanState, k: nat) {
    && 0 <= st.pointsHit && 0 <= st.updatedCount && 0 <= st.raycastPoints && 0 <= st.beamCount
    && 7 * (st.pointsHit + k) <= |st.cloud|
    && (b.useRaycasting ==> 7 * (st.updatedCount + k) <= |st.updated|)
    && (b.useRaycasting && b.outputRaycastPoints ==> 7 * (st.raycastPoints + k) <= |st.raycast|)
    && (b.generate2DPointmap ==> 2 * (st.beamCount + k) <= |st.map2D|)
  }

  /** The state after the beams with outcomes `outs`, in order. */
  function Run(st: ScanState, outs: seq<BeamOutcome>): ScanState
    decreases |outs|
  {
    if outs == [] then st
    else AfterBeam(Run(st, outs[..|outs| - 1]), outs[|outs| - 1])
  }

  /** The records the outcomes `outs` add to one buffer, selected by `sel`, in beam
      order. */
  function Records(outs: seq<BeamOutcome>, sel: BeamOutcome -> seq<real>): seq<seq<real>>
    decreases |outs|
  {
    if outs == [] then []
    else
      var r := sel(outs[|outs| - 1]);
      Records(outs[..|outs| - 1], sel) + (if r != [] then [r] else [])
  }

  function Primary(o: BeamOutcome): seq<real> { o.primary }
  function Updated(o: BeamOutcome): seq<real> { o.updated }
  function Raycast(o: BeamOutcome): seq<real> { o.raycast }
  function MapPoint(o: BeamOutcome): seq<real> { o.mapPoint }

  // ===========================================================================
  // Properties of a run
  // ===========================================================================

  /** Every beam's outcome has the shape OutcomeShape states. */
  lemma {:induction false} OutcomesShaped(c: BeamContext, noise: Noise, beams: seq<Beam>)
    requires ValidContext(c)
    ensures forall k :: 0 <= k < |beams| ==> WellShaped(c.build, Outcomes(c, noise, beams)[k])
    decreases |beams|
  {
    if beams != [] {
      var pre := beams[..|beams| - 1];
      var b := beams[|beams| - 1];
      OutcomesShaped(c, noise, pre);
      OutcomeShape(c, b.phi, b.theta, noise(b.phi, b.theta));
      var outs := Outcomes(c, noise, beams);
      forall k | 0 <= k < |beams| ensures WellShaped(c.build, outs[k]) {
        if k < |pre| {
          assert outs[k] == Outcomes(c, noise, pre)[k];
        }
      }
    }
  }

  /** Room for k + 1 beams is room for the next beam, and afterwards room for k. */
  lemma {:induction false} RoomFits(b: Build, st: ScanState, o: BeamOutcome, k: nat)
    requires WellShaped(b, o) && RoomFor(b, st, k + 1)
    ensures Fits(st, o)
    ensures RoomFor(b, AfterBeam(st, o), k)
  {
    AfterBeamFields(b, st, o);
  }

  /** Running two runs one after the other is running them joined. */
  lemma {:induction false} RunAppend(st: ScanState, a: seq<BeamOutcome>, b: seq<BeamOutcome>)
    ensures Run(st, a + b) == Run(Run(st, a), b)
    decreases |b|
  {
    if b == [] {
      assert a + b == a;
    } else {
      var b' := b[..|b| - 1];
      RunAppend(st, a, b');
      assert (a + b)[..|a + b| - 1] == a + b';
      assert (a + b)[|a + b| - 1] == b[|b| - 1];
    }
  }

  /** One more beam is one more step of the run. */
  lemma {:induction false} RunStep(c: BeamContext, st: ScanState, noise: Noise, beams: seq<Beam>, b: Beam)
    requires ValidContext(c)
    ensures Run(st, Outcomes(c, noise, beams + [b]))
         == AfterBeam(Run(st, Outcomes(c, noise, beams)), Outcome(c, b.phi, b.theta, noise(b.phi, b.theta)))
  {
    var bs := beams + [b];
    assert bs[..|bs| - 1] == beams;
    var outs := Outcomes(c, noise, beams);
    var os := outs + [Outcome(c, b.phi, b.theta, noise(b.phi, b.theta))];
    assert Outcomes(c, noise, bs) == os;
    assert os[..|os| - 1] == outs;
  }

  /** Room for a run and k more beams is, after the run, room for k more beams. */
  lemma {:induction false} RunKeepsRoom(b: Build, st: ScanState, outs: seq<BeamOutcome>, k: nat)
    requires forall i :: 0 <= i < |outs| ==> WellShaped(b, outs[i])
    requires RoomFor(b, st, |outs| + k)
    ensures RoomFor(b, Run(st, outs), k)
    decreases |outs|
  {
    if outs != [] {
      var pre := outs[..|outs| - 1];
      RunKeepsRoom(b, st, pre, k + 1);
      RoomFits(b, Run(st, pre), outs[|outs| - 1], k);
    }
  }

  /** Room for k beams is room for fewer. */
  lemma RoomShrinks(b: Build, st: ScanState, k: nat, j: nat)
    requires j <= k && RoomFor(b, st, k)
    ensures RoomFor(b, st, j)
  {
  }

  /** After a run the point cloud holds the run's stored records at consecutive
      seven-float slots from where the point counter stood, and the counter has
      moved on by their number; the rest of the buffer is as before the run. Every
      record has four or seven floats, and each depth-map record is also a stored
      point, so the depth-map counter never moves further than the point counter. */
  lemma {:induction false} RunCloud(b: Build, st: ScanState, outs: seq<BeamOutcome>)
    requires forall k :: 0 <= k < |outs| ==> WellShaped(b, outs[k])
    ensures var r := Run(st, outs);
      var recs := Records(outs, Primary);
      && r.cloud == PutRecords(st.cloud, 7 * st.pointsHit, FloatsPerPoint as nat, recs)
      && r.pointsHit == st.pointsHit + |recs|
      && (forall k :: 0 <= k < |recs| ==> |recs[k]| == 4 || |recs[k]| == FloatsPerPoint)
      && st.depthMapPoints <= r.depthMapPoints
      && r.depthMapPoints - st.depthMapPoints <= r.pointsHit - st.pointsHit <= |outs|
    decreases |outs|
  {
    if outs != [] {
      var pre := outs[..|outs| - 1];
      var o := outs[|outs| - 1];
      ShapedSplit(b, outs, pre);
      RunCloud(b, st, pre);
      var p := Run(st, pre);
      assert Run(st, outs) == AfterBeam(p, o);
      AfterBeamFields(b, p, o);
      RecordsSnoc(outs, Primary);
      var precs := Records(pre, Primary);
      assert 7 * p.pointsHit == 7 * st.pointsHit + 7 * |precs|;
      TrackStep(st.cloud, 7 * st.pointsHit, 7, precs, p.cloud, 7 * p.pointsHit, o.primary);
      var recs := Records(outs, Primary);
      forall k | 0 <= k < |recs|
        ensures |recs[k]| == 4 || |recs[k]| == FloatsPerPoint
      {
        if k < |precs| {
          assert recs[k] == precs[k];
        }
      }
    }
  }

  /** After a run the updated point cloud holds the run's four-float ray-cast records
      for it at consecutive seven-float slots from where its counter stood. */
  lemma {:induction false} RunUpdated(b: Build, st: ScanState, outs: seq<BeamOutcome>)
    requires forall k :: 0 <= k < |outs| ==> WellShaped(b, outs[k])
    ensures var r := Run(st, outs);
      var recs := Records(outs, Updated);
      && r.updated == PutRecords(st.updated, 7 * st.updatedCount, FloatsPerPoint as nat, recs)
      && r.updatedCount == st.updatedCount + |recs|
      && (forall k :: 0 <= k < |recs| ==> |recs[k]| == 4)
    decreases |outs|
  {
    if outs != [] {
      var pre := outs[..|outs| - 1];
      var o := outs[|outs| - 1];
      ShapedSplit(b, outs, pre);
      RunUpdated(b, st, pre);
      var p := Run(st, pre);
      assert Run(st, outs) == AfterBeam(p, o);
      AfterBeamUpdated(p, o);
      RecordsSnoc(outs, Updated);
      var precs := Records(pre, Updated);
      assert 7 * p.updatedCount == 7 * st.updatedCount + 7 * |precs|;
      TrackStep(st.updated, 7 * st.updatedCount, 7, precs, p.updated, 7 * p.updatedCount, o.updated);
      var recs := Records(outs, Updated);
      forall k | 0 <= k < |recs|
        ensures |recs[k]| == 4
      {
        if k < |precs| {
          assert recs[k] == precs[k];
        }
      }
    }
  }

  /** After a run the ray-cast point cloud holds the run's ray-cast records at
      consecutive seven-float slots from where its counter stood. */
  lemma {:induction false} RunRaycast(b: Build, st: ScanState, outs: seq<BeamOutcome>)
    requires forall k :: 0 <= k < |outs| ==> WellShaped(b, outs[k])
    ensures var r := Run(st, outs);
      var recs := Records(outs, Raycast);
      && r.raycast == PutRecords(st.raycast, 7 * st.raycastPoints, FloatsPerPoint as nat, recs)
      && r.raycastPoints == st.raycastPoints + |recs|
      && (forall k :: 0 <= k < |recs| ==> |recs[k]| == 4)
    decreases |outs|
  {
    if outs != [] {
      var pre := outs[..|outs| - 1];
      var o := outs[|outs| - 1];
      ShapedSplit(b, outs, pre);
      RunRaycast(b, st, pre);
      var p := Run(st, pre);
      assert Run(st, outs) == AfterBeam(p, o);
      AfterBeamFields(b, p, o);
      RecordsSnoc(outs, Raycast);
      var precs := Records(pre, Raycast);
      assert 7 * p.raycastPoints == 7 * st.raycastPoints + 7 * |precs|;
      TrackStep(st.raycast, 7 * st.raycastPoints, 7, precs, p.raycast, 7 * p.raycastPoints, o.raycast);
      var recs := Records(outs, Raycast);
      forall k | 0 <= k < |recs|
        ensures |recs[k]| == 4
      {
        if k < |precs| {
          assert recs[k] == precs[k];
        }
      }
    }
  }

  /** After a run the 2D point map holds one screen position per beam, at
      consecutive two-float slots, when the build generates it, and nothing new
      otherwise. */
  lemma {:induction false} RunMap2D(b: Build, st: ScanState, outs: seq<BeamOutcome>)
    requires forall k :: 0 <= k < |outs| ==> WellShaped(b, outs[k])
    ensures var r := Run(st, outs);
      var recs := Records(outs, MapPoint);
      && r.map2D == PutRecords(st.map2D, 2 * st.beamCount, 2, recs)
      && r.beamCount == st.beamCount + |recs|
      && |recs| == (if b.generate2DPointmap then |outs| else 0)
    decreases |outs|
  {
    if outs != [] {
      var pre := outs[..|outs| - 1];
      var o := outs[|outs| - 1];
      ShapedSplit(b, outs, pre);
      RunMap2D(b, st, pre);
      var p := Run(st, pre);
      assert Run(st, outs) == AfterBeam(p, o);
      AfterBeamFields(b, p, o);
      RecordsSnoc(outs, MapPoint);
      var precs := Records(pre, MapPoint);
      assert 2 * p.beamCount == 2 * st.beamCount + 2 * |precs|;
      TrackStep(st.map2D, 2 * st.beamCount, 2, precs, p.map2D, 2 * p.beamCount, o.mapPoint);
    }
  }

  /** Outcomes that are all well shaped split into well-shaped ones and a last
      well-shaped one. */
  lemma ShapedSplit(b: Build, outs: seq<BeamOutcome>, pre: seq<BeamOutcome>)
    requires outs != [] && pre == outs[..|outs| - 1]
    requires forall k :: 0 <= k < |outs| ==> WellShaped(b, outs[k])
    ensures forall k :: 0 <= k < |pre| ==> WellShaped(b, pre[k])
    ensures WellShaped(b, outs[|outs| - 1])
  {
    forall k | 0 <= k < |pre|
      ensures WellShaped(b, pre[k])
    {
      assert pre[k] == outs[k];
    }
  }

  lemma RecordsSnoc(outs: seq<BeamOutcome>, sel: BeamOutcome -> seq<real>)
    requires outs != []
    ensures var r := sel(outs[|outs| - 1]);
      Records(outs, sel) == Records(outs[..|outs| - 1], sel) + (if r != [] then [r] else [])
  {
  }

  // ===========================================================================
  // The update pass
  // ===========================================================================

  /** The four-float record the update pass appends for one hit candidate: the
      candidate measured again, kept only when within range. */
  function UpdateRecord(n: Natives, b: Build, cam: CamParams, pixel: PixelDepth, p: HitDepth, noise: real): seq<seq<real>>
    requires ValidCam(cam)
  {
    var v := Get3DFromDepthTarget(n, b.gaussianNoise, cam, pixel, p.target, p.target2D, noise);
    if Kept(n, b.maxLidarDist, cam, p.target, v) then [Position(v) + [p.groundDist]] else []
  }

  /** The records the update pass appends for the first i candidates (`noise(k)` is
      the draw for candidate k). */
  function UpdateRecords(n: Natives, b: Build, cam: CamParams, pixel: PixelDepth,
                         points: seq<HitDepth>, noise: nat -> real, i: nat): seq<seq<real>>
    requires ValidCam(cam) && i <= |points|
  {
    if i == 0 then []
    else UpdateRecords(n, b, cam, pixel, points, noise, i - 1) + UpdateRecord(n, b, cam, pixel, points[i - 1], noise(i - 1))
  }

  /** The remeasuring of one candidate, as a function of the candidate and its draw. */
  type RemeasureFn = (HitDepth, real) -> seq<seq<real>>

  /** `f` is UpdateRecord with the engine n, the build b, the camera and the depth
      buffer given. */
  ghost predicate Remeasures(n: Natives, b: Build, cam: CamParams, pixel: PixelDepth, f: RemeasureFn) {
    && ValidCam(cam)
    && forall p, z {:trigger UpdateRecord(n, b, cam, pixel, p, z)} :: f(p, z) == UpdateRecord(n, b, cam, pixel, p, z)
  }

  /** The records `f` gives for the first i candidates, in order. */
  function RecordsBy(f: RemeasureFn, points: seq<HitDepth>, noise: nat -> real, i: nat): seq<seq<real>>
    requires i <= |points|
  {
    if i == 0 then [] else RecordsBy(f, points, noise, i - 1) + f(points[i - 1], noise(i - 1))
  }

  /** Later candidates only add records. */
  lemma {:induction false} RecordsByGrows(f: RemeasureFn, points: seq<HitDepth>, noise: nat -> real, i: nat, j: nat)
    requires i <= j <= |points|
    ensures |RecordsBy(f, points, noise, i)| <= |RecordsBy(f, points, noise, j)|
    decreases j - i
  {
    if i < j {
      RecordsByGrows(f, points, noise, i, j - 1);
    }
  }

  /** When `f` remeasures as UpdateRecord does, its records are the update pass's. */
  lemma {:induction false} RecordsByIs(n: Natives, b: Build, cam: CamParams, pixel: PixelDepth, f: RemeasureFn,
                                       points: seq<HitDepth>, noise: nat -> real, i: nat)
    requires Remeasures(n, b, cam, pixel, f) && i <= |points|
    ensures RecordsBy(f, points, noise, i) == UpdateRecords(n, b, cam, pixel, points, noise, i)
  {
    if i > 0 {
      RecordsByIs(n, b, cam, pixel, f, points, noise, i - 1);
      assert f(points[i - 1], noise(i - 1)) == UpdateRecord(n, b, cam, pixel, points[i - 1], noise(i - 1));
    }
  }

  /** The records for the first i candidates begin the records for the first j. */
  lemma {:induction false} UpdateRecordsPrefix(n: Natives, b: Build, cam: CamParams, pixel: PixelDepth,
                                               points: seq<HitDepth>, noise: nat -> real, i: nat, j: nat)
    requires ValidCam(cam) && i <= j <= |points|
    ensures var ri := UpdateRecords(n, b, cam, pixel, points, noise, i);
      var rj := UpdateRecords(n, b, cam, pixel, points, noise, j);
      |ri| <= |rj| && rj[..|ri|] == ri
    decreases j - i
  {
    if i < j {
      UpdateRecordsPrefix(n, b, cam, pixel, points, noise, i, j - 1);
      var ri := UpdateRecords(n, b, cam, pixel, points, noise, i);
      var rm := UpdateRecords(n, b, cam, pixel, points, noise, j - 1);
      var rj := UpdateRecords(n, b, cam, pixel, points, noise, j);
      assert rj[..|rm|] == rm;
      assert rj[..|ri|] == rm[..|ri|];
    }
  }

  /** The update pass appends at most one record per candidate, each a four-float
      record whose position is within range and whose fourth float is the
      candidate's height above the ground. */
  lemma {:induction false} UpdateRecordsInRange(n: Natives, b: Build, cam: CamParams, pixel: PixelDepth,
                                                points: seq<HitDepth>, noise: nat -> real, i: nat)
    requires ValidCam(cam) && i <= |points|
    ensures var rs := UpdateRecords(n, b, cam, pixel, points, noise, i);
      && |rs| <= i
      && forall k :: 0 <= k < |rs| ==>
           && |rs[k]| == 4
           && n.sqrt(NormSq(Vec3(rs[k][0], rs[k][1], rs[k][2]))) <= b.maxLidarDist
           && exists j :: 0 <= j < i && rs[k][3] == points[j].groundDist
  {
    if i > 0 {
      UpdateRecordsInRange(n, b, cam, pixel, points, noise, i - 1);
      var p := points[i - 1];
      var v := Get3DFromDepthTarget(n, b.gaussianNoise, cam, pixel, p.target, p.target2D, noise(i - 1));
      RecordPositionRoundTrip(v, [p.groundDist]);
      var rs := UpdateRecords(n, b, cam, pixel, points, noise, i);
      var head := UpdateRecords(n, b, cam, pixel, points, noise, i - 1);
      var tail := UpdateRecord(n, b, cam, pixel, p, noise(i - 1));
      assert rs == head + tail;
      forall k | 0 <= k < |rs|
        ensures |rs[k]| == 4 && n.sqrt(NormSq(Vec3(rs[k][0], rs[k][1], rs[k][2]))) <= b.maxLidarDist
        ensures exists j :: 0 <= j < i && rs[k][3] == points[j].groundDist
      {
        if k >= |head| {
          assert rs[k] == tail[0];
          assert rs[k][3] == points[i - 1].groundDist;
        } else {
          assert rs[k] == head[k];
        }
      }
    }
  }
}
