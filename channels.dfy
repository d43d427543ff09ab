/** The seven floats of one point record and how its four channels are filled:
    x, y, z in the KITTI Velodyne axes, then the entity id, the class flag, a zero
    channel and the measured radial velocity. */
module Channels {
  import opened Geometry
  import opened Engine
  import opened VehicleTable

  /** The pedestrian type the engine gives animals. */
  const AnimalPedType: int := 28

  /** The height above the ground at which the sensor's ground point is placed. */
  const SensorHeight: real := 1.73

  /** The class-flag value written first when the model is not in the class table. */
  const NotFoundFlag: real := 999.99

  /** Channel 3: the entity id, except that points on the sensor's own vehicle get 0. */
  function EntityChannel(entityId: int, ownVehicle: int): (r: real)
    ensures r == 0.0 <==> entityId == 0 || entityId == ownVehicle
    ensures r != 0.0 ==> r == entityId as real
  {
    if entityId != ownVehicle then entityId as real else 0.0
  }

  /** Channel 4, as the successive values written into it: the not-found value when
      the model's class is unknown, then always the final flag. */
  function ClassWrites(t: Table, displayName: string, entityId: int, ownVehicle: int): seq<real> {
    var (found, vehicleType) := LookupType(t, displayName);
    var first := if found then [] else [NotFoundFlag];
    first + [if vehicleType == "Car" && entityId != ownVehicle then 1.0 else 0.0]
  }

  /** The value channel 4 ends with. */
  function ClassChannel(t: Table, displayName: string, entityId: int, ownVehicle: int): real {
    var w := ClassWrites(t, displayName, entityId, ownVehicle);
    w[|w| - 1]
  }

  /** Channel 4 ends as 1 exactly for a point on another vehicle whose model the table
      classes as "Car", and as 0 otherwise; the not-found value is written for an
      unknown model but never survives. */
  lemma {:induction false} ClassChannelIsFlag(t: Table, displayName: string, entityId: int, ownVehicle: int)
    ensures var r := ClassChannel(t, displayName, entityId, ownVehicle);
      && (r == 1.0 <==> Normalize(displayName) in t && t[Normalize(displayName)] == "Car" && entityId != ownVehicle)
      && (r == 0.0 || r == 1.0)
    ensures Normalize(displayName) !in t ==>
      ClassWrites(t, displayName, entityId, ownVehicle) == [NotFoundFlag, 0.0]
  {
    var (found, vehicleType) := LookupType(t, displayName);
    assert UnknownType != "Car";
  }

  // ---------------------------------------------------------------------------
  // Channel 6: radial velocity
  // ---------------------------------------------------------------------------

  /** A pedestrian other than an animal, or a vehicle, that the engine reports as
      stopped. */
  predicate Stationary(obj: EntityInfo) {
    ((obj.isPed && obj.pedType != AnimalPedType) || obj.isVehicle)
    && (obj.pedStopped || obj.vehicleStopped)
  }

  /** The speed with the sign of the change in separation: positive when the
      separation one time step ahead is larger than now (departing), zero when it is
      the same, negative when it is smaller (approaching). */
  function RelativeSpeed(currentDist: real, futureDist: real, speed: real): real {
    if futureDist > currentDist then speed
    else if futureDist == currentDist then 0.0
    else -speed
  }

  /** The elevation angle of the stored point as seen from a point 1.73 above the
      ground under the own vehicle. */
  function Elevation(n: Natives, vecCam: Vec3, player: EntityInfo): real {
    var groundPoint := n.camToWorld(Vec3(-vecCam.x, vecCam.y, vecCam.z));
    var sensorPoint := Vec3(player.position.x, player.position.y,
                            n.groundZ(player.position) + SensorHeight);
    var d := Sub(sensorPoint, groundPoint);
    n.atan2(d.z, n.sqrt(d.x * d.x + d.y * d.y))
  }

  /** Channel 6 as written: the signed relative speed of a moving entity, minus the
      own speed for ground points and stopped entities, each scaled by the cosine of
      the elevation; the own vehicle keeps the 0 written before. */
  function VelocityChannel(n: Natives, entityId: int, ownVehicle: int, obj: EntityInfo,
                           player: EntityInfo, elev: real): real {
    var stationary := Stationary(obj);
    if entityId != 0 && entityId != ownVehicle && !stationary then
      var currentDist := n.sqrt(NormSq(Sub(obj.position, player.position)));
      var speed := n.sqrt(NormSq(Sub(obj.velocity, player.velocity)));
      var futureDist := n.sqrt(NormSq(Sub(Add(player.position, player.velocity),
                                          Add(obj.position, obj.velocity))));
      RelativeSpeed(currentDist, futureDist, speed) * n.cos(elev)
    else if (entityId == 0 || stationary) && entityId != ownVehicle then
      var groundRelative := Sub(Vec3(0.0, 0.0, 0.0), player.velocity);
      -n.sqrt(NormSq(groundRelative)) * n.cos(elev)
    else
      0.0
  }

  /** A square root that is never negative. */
  ghost predicate SqrtNonNeg(n: Natives) {
    forall x :: 0.0 <= x ==> 0.0 <= n.sqrt(x)
  }

  /** With a positive speed the sign of RelativeSpeed is the sign of the change in
      separation. */
  lemma {:induction false} RelativeSpeedSign(currentDist: real, futureDist: real, speed: real)
    requires 0.0 < speed
    ensures var r := RelativeSpeed(currentDist, futureDist, speed);
      && (r > 0.0 <==> futureDist > currentDist)
      && (r == 0.0 <==> futureDist == currentDist)
      && (r < 0.0 <==> futureDist < currentDist)
      && (r == speed || r == 0.0 || r == -speed)
  {
  }

  /** The three cases of channel 6: 0 on the own vehicle; minus the own speed (never
      positive, when the cosine is positive) on the ground and on stopped entities;
      and on a moving entity, for a positive cosine and relative speed, positive
      exactly when departing and negative exactly when approaching. */
  lemma {:induction false} VelocityChannelCases(n: Natives, entityId: int, ownVehicle: int,
                                                obj: EntityInfo, player: EntityInfo, elev: real)
    requires SqrtNonNeg(n) && 0.0 < n.cos(elev)
    ensures var r := VelocityChannel(n, entityId, ownVehicle, obj, player, elev);
      && (entityId == ownVehicle ==> r == 0.0)
      && ((entityId == 0 || Stationary(obj)) && entityId != ownVehicle ==>
            r == -n.sqrt(NormSq(player.velocity)) * n.cos(elev) && r <= 0.0)
    ensures var r := VelocityChannel(n, entityId, ownVehicle, obj, player, elev);
      var currentDist := n.sqrt(NormSq(Sub(obj.position, player.position)));
      var speed := n.sqrt(NormSq(Sub(obj.velocity, player.velocity)));
      var futureDist := n.sqrt(NormSq(Sub(Add(player.position, player.velocity),
                                          Add(obj.position, obj.velocity))));
      entityId != 0 && entityId != ownVehicle && !Stationary(obj) && 0.0 < speed ==>
        && (r > 0.0 <==> futureDist > currentDist)
        && (r < 0.0 <==> futureDist < currentDist)
  {
    var c := n.cos(elev);
    var v := player.velocity;
    assert Sub(Vec3(0.0, 0.0, 0.0), v) == Neg(v);
    NegKeepsLength(v);
    var s := n.sqrt(NormSq(v));
    assert 0.0 <= s;
    assert 0.0 <= s * c;
    if entityId != 0 && entityId != ownVehicle && !Stationary(obj) {
      var currentDist := n.sqrt(NormSq(Sub(obj.position, player.position)));
      var speed := n.sqrt(NormSq(Sub(obj.velocity, player.velocity)));
      var futureDist := n.sqrt(NormSq(Sub(Add(player.position, player.velocity),
                                          Add(obj.position, obj.velocity))));
      if 0.0 < speed {
        var rs := RelativeSpeed(currentDist, futureDist, speed);
        RelativeSpeedSign(currentDist, futureDist, speed);
        SignOfProduct(rs, c);
      }
    }
  }

  lemma {:induction false} SignOfProduct(a: real, c: real)
    requires 0.0 < c
    ensures a * c > 0.0 <==> a > 0.0
    ensures a * c < 0.0 <==> a < 0.0
  {
    if a > 0.0 {
      assert a * c > 0.0;
    } else if a < 0.0 {
      assert (-a) * c > 0.0;
    } else {
      assert a * c == 0.0;
    }
  }

  // ---------------------------------------------------------------------------
  // Records
  // ---------------------------------------------------------------------------

  /** The entity id a ray-cast point carries: the hit entity for a pedestrian other
      than an animal or a vehicle, 0 for anything else. */
  function RayEntityId(hit: EntityInfo, hitEntity: int): (r: int)
    ensures r != 0 ==> r == hitEntity
    ensures r == hitEntity <==> hitEntity == 0 || (hit.isPed && hit.pedType != AnimalPedType) || hit.isVehicle
  {
    if (hit.isPed && hit.pedType != AnimalPedType) || hit.isVehicle then hitEntity else 0
  }

  /** The first three floats of a record: the camera-relative point in KITTI axes. */
  function Position(v: Vec3): (r: seq<real>)
    ensures |r| == 3
  {
    var k := Kitti(v);
    [k.x, k.y, k.z]
  }

  /** A full depth-map record, channels 3 to 6 included. */
  function DepthRecord(v: Vec3, entityCh: real, classCh: real, velocityCh: real): (r: seq<real>)
    ensures |r| == FloatsPerPoint
  {
    Position(v) + [entityCh, classCh, 0.0, velocityCh]
  }

  /** A four-float ray-cast record: position and entity id. */
  function RayRecord(v: Vec3, entityId: int): (r: seq<real>)
    ensures |r| == 4
  {
    Position(v) + [entityId as real]
  }

  /** The stored position gives back the camera-relative point, and its length is the
      point's length. */
  lemma {:induction false} RecordPositionRoundTrip(v: Vec3, rest: seq<real>)
    ensures var r := Position(v) + rest;
      && FromKitti(Vec3(r[0], r[1], r[2])) == v
      && NormSq(Vec3(r[0], r[1], r[2])) == NormSq(v)
  {
    KittiRoundTrip(v, Kitti(v));
    KittiKeepsLength(v);
  }
}
