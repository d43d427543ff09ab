/** The sensor object: its configuration, its point buffers and their counters, and
    the operations that configure it, attach it to a vehicle, run a scan, re-measure
    the depth-map hits and hand the buffers back.

    A buffer is an array of floats that the scan fills with records at consecutive
    slots; the counters say how many records each buffer holds. The engine, the
    depth and segmentation buffers and the noise draws are parameters of the
    operations that read them. */
module Lidar {
  import opened Geometry
  import opened Engine
  import opened Orientation
  import opened DepthSampler
  import opened HitTracker
  import opened Channels
  import opened VehicleTable
  import opened Buffers
  import opened ScanPattern
  import opened PointWriter
  import opened ScanRun

  /** The contents of a buffer; a buffer that is not allocated holds nothing. */
  function Contents(a: array?<real>): seq<real>
    reads a
  {
    if a == null then [] else a[..]
  }

  /** The float count of a buffer; a buffer that is not allocated holds none. */
  function Len(a: array?<real>): nat {
    if a == null then 0 else a.Length
  }

  /** The orientation of an entity as a direction-cosine matrix, from the engine's
      quaternion (x, y, z, w). */
  function DcmFor(n: Natives, id: int): Mat3 {
    var q := n.quaternion(id);
    CalcDcm(Quaternion(q.0, q.1, q.2, q.3))
  }

  /** calcDCM: reads the vehicle's quaternion from the engine and converts it. */
  method CalcDcmOf(n: Natives, id: int) returns (m: Mat3)
    ensures m == DcmFor(n, id)
  {
    var q := n.quaternion(id);
    m := CalcDcm(Quaternion(q.0, q.1, q.2, q.3));
  }

  /** The scan state with the five record counters back at zero. */
  function Reset(st: ScanState): ScanState {
    st.(pointsHit := 0, depthMapPoints := 0, updatedCount := 0, raycastPoints := 0, beamCount := 0)
  }

  /** The float count of the 2D point cloud as allocated: one float per sample. */
  function Alloc2DAsWritten(smplNum: int): int {
    smplNum
  }

  /** The float count the 2D point cloud needs: one seven-float record per sample. */
  function Alloc2D(smplNum: int): int {
    7 * smplNum
  }

  /** As allocated, the 2D point cloud has no room for the sweep it is meant to hold,
      and with fewer than seven samples not even for the first depth-map record. */
  lemma Alloc2DAsWrittenTooSmall(b: Build, st: ScanState, o: BeamOutcome, smplNum: int)
    requires 1 <= smplNum && |st.cloud| == Alloc2DAsWritten(smplNum) && st.pointsHit == 0
    requires WellShaped(b, o) && o.depthStored
    ensures !RoomFor(b, st, smplNum)
    ensures smplNum < FloatsPerPoint ==> !Fits(st, o)
  {
  }

  /** With one seven-float slot per sample in the point cloud and, where the build
      writes them, in the updated and ray-cast clouds, and one two-float slot per
      sample in the 2D point map, a 2D sensor holds a full sweep. The sensor below
      allocates its 2D point cloud so; the other three buffers it allocates only in
      3D, as NoRoomIn2D shows. */
  lemma Alloc2DHoldsSweep(b: Build, st: ScanState, smplNum: int, phi: real, h: HorizConfig)
    requires 0 <= smplNum && h.smplNum == smplNum && |st.cloud| == Alloc2D(smplNum)
    requires st.pointsHit == 0 && st.updatedCount == 0 && st.raycastPoints == 0 && st.beamCount == 0
    requires b.useRaycasting ==> |st.updated| == Alloc2D(smplNum) && |st.raycast| == Alloc2D(smplNum)
    requires b.generate2DPointmap ==> |st.map2D| == 2 * smplNum
    ensures RoomFor(b, st, |IntendedSweep(phi, h)|)
  {
    IntendedSweepBounded(phi, h);
  }

  /** With one seven-float slot per sample in the updated point cloud, as the
      point cloud above, the update pass after a scan that kept at most smplNum hits
      has room for every record it writes. */
  lemma Alloc2DHoldsUpdate(n: Natives, b: Build, cam: CamParams, pixel: PixelDepth,
                           pts: seq<HitDepth>, noise: nat -> real, smplNum: int)
    requires ValidCam(cam) && |pts| <= smplNum
    ensures 7 * |UpdateRecords(n, b, cam, pixel, pts, noise, |pts|)| <= Alloc2D(smplNum)
  {
    UpdateRecordsInRange(n, b, cam, pixel, pts, noise, |pts|);
  }

  class LidarSensor {
    /** Build-time constants and switches, and the counters a new hit entry starts with. */
    const build: Build
    const defaults: HitDefaults

    // Configuration
    var maxRange: real
    /** The horizontal limits, sample count and resolution. */
    var horiz: HorizConfig
    /** The vertical limits, sample count and resolution. */
    var verti: VertiConfig
    var camera: int
    var lidarVehicle: int
    var initType: InitType
    var isAttach: bool

    // Buffers
    var pointClouds: array?<real>
    var raycastPointCloud: array?<real>
    var updatedPointCloud: array?<real>
    var lidar2DPoints: array?<real>

    // Record counters
    var pointsHit: int
    var raycastPoints: int
    var depthMapPoints: int
    var beamCount: int
    var updatedPointCount: int

    /** The depth-map hits kept for the update pass. */
    var hitDepthPoints: seq<HitDepth>
    /** The vehicle's orientation, computed at the start of each sweep. */
    var rotDcm: Mat3
    /** Vehicle model name to vehicle class. */
    var vLookup: Table
    var vLookupInit: bool

    /** The buffers match the mode: none before initialisation, one seven-float
        record per sample in 2D (none for a negative sample count, whose allocation
        size is out of range), and in 3D the three point clouds of maxPoints floats
        (and the 2D point map of half as many when the build produces it), all
        distinct. */
    predicate Valid()
      reads this`initType, this`horiz, this`verti,
            this`pointClouds, this`raycastPointCloud, this`updatedPointCloud, this`lidar2DPoints
    {
      && 0 <= build.maxPoints
      && match initType
         case NotInitYet =>
           pointClouds == null && raycastPointCloud == null && updatedPointCloud == null && lidar2DPoints == null
         case InitAs2D =>
           && (0 <= horiz.smplNum ==> pointClouds != null && pointClouds.Length == Alloc2D(horiz.smplNum))
           && (horiz.smplNum < 0 ==> pointClouds == null)
           && raycastPointCloud == null && updatedPointCloud == null && lidar2DPoints == null
         case InitAs3D =>
           && pointClouds != null && raycastPointCloud != null && updatedPointCloud != null
           && pointClouds.Length == build.maxPoints
           && raycastPointCloud.Length == build.maxPoints
           && updatedPointCloud.Length == build.maxPoints
           && (lidar2DPoints != null <==> build.generate2DPointmap)
           && (lidar2DPoints != null ==> lidar2DPoints.Length == build.maxPoints / 2)
           && pointClouds != raycastPointCloud && pointClouds != updatedPointCloud
           && raycastPointCloud != updatedPointCloud
           && pointClouds != lidar2DPoints && raycastPointCloud != lidar2DPoints
           && updatedPointCloud != lidar2DPoints
    }

    /** The buffers that exist are distinct objects. */
    predicate Disjoint()
      reads this`pointClouds, this`raycastPointCloud, this`updatedPointCloud, this`lidar2DPoints
    {
      && (pointClouds != null ==>
            pointClouds != raycastPointCloud && pointClouds != updatedPointCloud && pointClouds != lidar2DPoints)
      && (raycastPointCloud != null ==> raycastPointCloud != updatedPointCloud && raycastPointCloud != lidar2DPoints)
      && (updatedPointCloud != null ==> updatedPointCloud != lidar2DPoints)
    }

    /** A scan runs only when the point cloud exists, the sensor is initialised and
        it is attached. */
    predicate Ready()
      reads this`pointClouds, this`initType, this`isAttach
    {
      pointClouds != null && initType != NotInitYet && isAttach
    }

    /** What a scan changes, as a value. */
    function State(hits: EntityHits): ScanState
      reads this`pointsHit, this`depthMapPoints, this`updatedPointCount, this`raycastPoints, this`beamCount,
            this`hitDepthPoints, this`pointClouds, this`updatedPointCloud, this`raycastPointCloud, this`lidar2DPoints,
            hits, pointClouds, updatedPointCloud, raycastPointCloud, lidar2DPoints
    {
      ScanState(Contents(pointClouds), pointsHit, depthMapPoints,
                Contents(updatedPointCloud), updatedPointCount,
                Contents(raycastPointCloud), raycastPoints,
                Contents(lidar2DPoints), beamCount,
                hitDepthPoints, hits.entities)
    }

    /** What a beam reads, with the orientation the sensor holds. */
    function Context(n: Natives, cam: CamParams, pixel: PixelDepth, seg: seq<int>, param: int): BeamContext
      reads this`vLookup, this`rotDcm, this`maxRange, this`lidarVehicle
    {
      BeamContext(build, n, cam, pixel, seg, vLookup, rotDcm, maxRange, lidarVehicle, param, defaults)
    }

    /** What a beam reads, with the orientation each sweep computes first. */
    function ScanContext(n: Natives, cam: CamParams, pixel: PixelDepth, seg: seq<int>, param: int): BeamContext
      reads this`vLookup, this`maxRange, this`lidarVehicle
    {
      BeamContext(build, n, cam, pixel, seg, vLookup, DcmFor(n, lidarVehicle), maxRange, lidarVehicle, param, defaults)
    }

    /** The total sample count of the configured mode, an upper bound on the beams
        of one scan. */
    function GetTotalSmplNum(): (r: int)
      requires Valid()
      reads this`initType, this`horiz, this`verti,
            this`pointClouds, this`raycastPointCloud, this`updatedPointCloud, this`lidar2DPoints
      ensures 0 <= horiz.smplNum && 0 <= verti.smplNum ==> |IntendedScanBeams(initType, horiz, verti)| <= r
      ensures initType == NotInitYet ==> r == 0
      ensures initType == InitAs2D ==> r == horiz.smplNum
      ensures initType == InitAs3D ==> r == horiz.smplNum * verti.smplNum
    {
      IntendedScanWithinTotal(initType, horiz, verti);
      TotalSmplNum(initType, horiz, verti)
    }

    /** A new sensor: unconfigured, detached, with no buffers, and with the vehicle
        table read from `labelLines`, the lines of the vehicle label file. */
    constructor (build: Build, defaults: HitDefaults, labelLines: seq<string>)
      requires 0 <= build.maxPoints
      ensures Valid()
      ensures this.build == build && this.defaults == defaults
      ensures initType == NotInitYet && !isAttach
      ensures maxRange == 0.0 && camera == 0 && lidarVehicle == 0
      ensures horiz == HorizConfig(0.0, 0.0, 0, 0.0) && verti == VertiConfig(0.0, 0.0, 0, 0.0)
      ensures pointsHit == 0 && raycastPoints == 0 && depthMapPoints == 0
      ensures beamCount == 0 && updatedPointCount == 0
      ensures hitDepthPoints == []
      ensures vLookupInit && vLookup == AddLines(map[], labelLines)
    {
      this.build := build;
      this.defaults := defaults;
      pointClouds := null;
      raycastPointCloud := null;
      lidar2DPoints := null;
      updatedPointCloud := null;
      pointsHit := 0;
      raycastPoints := 0;
      depthMapPoints := 0;
      beamCount := 0;
      updatedPointCount := 0;
      maxRange := 0.0;
      verti := VertiConfig(0.0, 0.0, 0, 0.0);
      horiz := HorizConfig(0.0, 0.0, 0, 0.0);
      camera := 0;
      lidarVehicle := 0;
      initType := NotInitYet;
      isAttach := false;
      hitDepthPoints := [];
      rotDcm := Identity;
      vLookup := map[];
      vLookupInit := false;
      new;
      VehicleLookUpTable(labelLines);
    }

    /** Reads the vehicle label lines into the table, once: a second call keeps the
        table as it is. */
    method VehicleLookUpTable(lines: seq<string>)
      modifies this`vLookup, this`vLookupInit
      ensures vLookupInit
      ensures vLookup == if old(vLookupInit) then old(vLookup) else AddLines(old(vLookup), lines)
    {
      if !vLookupInit {
        var i := 0;
        while i < |lines|
          invariant 0 <= i <= |lines|
          invariant AddLines(old(vLookup), lines) == AddLines(vLookup, lines[i..])
        {
          assert lines[i..][1..] == lines[i + 1..];
          vLookup := AddLine(vLookup, lines[i]);
          i := i + 1;
        }
        vLookupInit := true;
      }
    }

    /** Frees the buffers and clears the configuration and the attachment. */
    method Destroy()
      requires Valid()
      modifies this`pointClouds, this`raycastPointCloud, this`updatedPointCloud, this`lidar2DPoints,
               this`maxRange, this`horiz, this`verti, this`camera, this`lidarVehicle, this`initType, this`isAttach
      ensures Valid()
      ensures pointClouds == null && raycastPointCloud == null && updatedPointCloud == null && lidar2DPoints == null
      ensures maxRange == 0.0 && horiz == HorizConfig(0.0, 0.0, 0, 0.0) && verti == VertiConfig(0.0, 0.0, 0, 0.0)
      ensures camera == 0 && lidarVehicle == 0 && initType == NotInitYet && !isAttach
    {
      pointClouds := null;
      raycastPointCloud := null;
      updatedPointCloud := null;
      lidar2DPoints := null;
      maxRange := 0.0;
      verti := VertiConfig(0.0, 0.0, 0, 0.0);
      horiz := HorizConfig(0.0, 0.0, 0, 0.0);
      camera := 0;
      lidarVehicle := 0;
      initType := NotInitYet;
      isAttach := false;
    }

    /** Configures a single horizontal sweep of `smplNum` samples from the right limit
        round to the left limit. A configured sensor is destroyed first. The sample
        count and the range are kept even when the limits are rejected (right limit
        not above the left one), which leaves the sensor unconfigured. */
    method Init2D(range: real, smplNum: int, leLimit: real, riLimit: real)
      requires Valid()
      modifies this`pointClouds, this`raycastPointCloud, this`updatedPointCloud, this`lidar2DPoints,
               this`maxRange, this`horiz, this`verti, this`camera, this`lidarVehicle, this`initType, this`isAttach
      ensures Valid()
      ensures maxRange == range && horiz.smplNum == smplNum
      ensures var wasInit := old(initType) != NotInitYet;
        && verti == (if wasInit then VertiConfig(0.0, 0.0, 0, 0.0) else old(verti))
        && camera == (if wasInit then 0 else old(camera))
        && lidarVehicle == (if wasInit then 0 else old(lidarVehicle))
        && isAttach == (!wasInit && old(isAttach))
      ensures leLimit < riLimit ==>
        && initType == InitAs2D
        && (0 <= smplNum ==> fresh(pointClouds)) && (smplNum < 0 ==> pointClouds == null)
        && horiz == HorizConfig(leLimit, riLimit, smplNum, Resolution(leLimit + 360.0 - riLimit, smplNum))
      ensures riLimit <= leLimit ==>
        && initType == NotInitYet
        && horiz == (if old(initType) != NotInitYet then HorizConfig(0.0, 0.0, smplNum, 0.0)
                     else old(horiz).(smplNum := smplNum))
    {
      if initType != NotInitYet {
        Destroy();
      }
      horiz := horiz.(smplNum := smplNum);
      maxRange := range;
      if riLimit <= leLimit {
        return;
      }
      horiz := horiz.(leLimit := leLimit, riLimit := riLimit);
      horiz := horiz.(resolu := Resolution(horiz.leLimit + 360.0 - horiz.riLimit, horiz.smplNum));
      if pointClouds == null && 0 <= horiz.smplNum {
        pointClouds := new real[Alloc2D(horiz.smplNum)];
      }
      initType := InitAs2D;
    }

    /** Configures `vSmplNum` rings from the lower limit up to the upper limit (both
        measured from the zenith), each a horizontal sweep of `hSmplNum` samples. A
        configured sensor is destroyed first. The sample counts and the range are kept
        even when the limits are rejected, and the vertical limits are kept when only
        the horizontal ones are; either rejection leaves the sensor unconfigured. */
    method Init3D(range: real, hSmplNum: int, leLimit: real, riLimit: real,
                  vSmplNum: int, upLimit: real, unLimit: real)
      requires Valid()
      modifies this`pointClouds, this`raycastPointCloud, this`updatedPointCloud, this`lidar2DPoints,
               this`maxRange, this`horiz, this`verti, this`camera, this`lidarVehicle, this`initType, this`isAttach
      ensures Valid()
      ensures maxRange == range && horiz.smplNum == hSmplNum && verti.smplNum == vSmplNum
      ensures var wasInit := old(initType) != NotInitYet;
        && camera == (if wasInit then 0 else old(camera))
        && lidarVehicle == (if wasInit then 0 else old(lidarVehicle))
        && isAttach == (!wasInit && old(isAttach))
      ensures unLimit <= upLimit ==>
        && initType == NotInitYet
        && verti == (if old(initType) != NotInitYet then VertiConfig(0.0, 0.0, vSmplNum, 0.0)
                     else old(verti).(smplNum := vSmplNum))
      ensures upLimit < unLimit ==>
        verti == VertiConfig(upLimit, unLimit, vSmplNum, Resolution(unLimit - upLimit, vSmplNum))
      ensures (unLimit <= upLimit || riLimit <= leLimit) ==>
        && initType == NotInitYet
        && horiz == (if old(initType) != NotInitYet then HorizConfig(0.0, 0.0, hSmplNum, 0.0)
                     else old(horiz).(smplNum := hSmplNum))
      ensures upLimit < unLimit && leLimit < riLimit ==>
        && initType == InitAs3D
        && horiz == HorizConfig(leLimit, riLimit, hSmplNum, Resolution(leLimit + 360.0 - riLimit, hSmplNum))
        && fresh(pointClouds) && fresh(raycastPointCloud) && fresh(updatedPointCloud)
        && (lidar2DPoints != null ==> fresh(lidar2DPoints))
    {
      if initType != NotInitYet {
        Destroy();
      }
      verti := verti.(smplNum := vSmplNum);
      horiz := horiz.(smplNum := hSmplNum);
      maxRange := range;
      if unLimit <= upLimit {
        return;
      }
      verti := verti.(upLimit := upLimit, unLimit := unLimit);
      verti := verti.(resolu := Resolution(verti.unLimit - verti.upLimit, verti.smplNum));
      if riLimit <= leLimit {
        return;
      }
      horiz := horiz.(leLimit := leLimit, riLimit := riLimit);
      horiz := horiz.(resolu := Resolution(horiz.leLimit + 360.0 - horiz.riLimit, horiz.smplNum));
      Alloc3D();
      initType := InitAs3D;
    }

    /** The 3D buffers of an unconfigured sensor: the three point clouds of maxPoints
        floats each, where missing, and the 2D point map of half as many when the
        build produces it. */
    method Alloc3D()
      requires Valid() && initType == NotInitYet
      modifies this`pointClouds, this`raycastPointCloud, this`updatedPointCloud, this`lidar2DPoints
      ensures pointClouds != null && raycastPointCloud != null && updatedPointCloud != null
      ensures fresh(pointClouds) && fresh(raycastPointCloud) && fresh(updatedPointCloud)
      ensures pointClouds.Length == build.maxPoints && raycastPointCloud.Length == build.maxPoints
      ensures updatedPointCloud.Length == build.maxPoints
      ensures lidar2DPoints != null <==> build.generate2DPointmap
      ensures lidar2DPoints != null ==> fresh(lidar2DPoints) && lidar2DPoints.Length == build.maxPoints / 2
      ensures pointClouds != raycastPointCloud && pointClouds != updatedPointCloud
      ensures raycastPointCloud != updatedPointCloud
      ensures pointClouds != lidar2DPoints && raycastPointCloud != lidar2DPoints
      ensures updatedPointCloud != lidar2DPoints
    {
      if pointClouds == null {
        pointClouds := new real[build.maxPoints];
      }
      if raycastPointCloud == null {
        raycastPointCloud := new real[build.maxPoints];
      }
      if updatedPointCloud == null {
        updatedPointCloud := new real[build.maxPoints];
      }
      if build.generate2DPointmap {
        lidar2DPoints := new real[build.maxPoints / 2];
      }
    }

    /** A 2D sweep centred on the forward axis: `fov` degrees wide, with the sample
        count the width over the requested resolution, truncated. The resolution
        actually used is the width over that count. */
    method Init2DFov(range: real, fov: real, angResolu: real)
      requires Valid()
      requires angResolu != 0.0
      modifies this`pointClouds, this`raycastPointCloud, this`updatedPointCloud, this`lidar2DPoints,
               this`maxRange, this`horiz, this`verti, this`camera, this`lidarVehicle, this`initType, this`isAttach
      ensures Valid()
      ensures maxRange == range && horiz.smplNum == Trunc(fov / angResolu)
      ensures fov < 360.0 ==>
        && initType == InitAs2D
        && horiz == HorizConfig(fov / 2.0, 360.0 - fov / 2.0, horiz.smplNum, Resolution(fov, horiz.smplNum))
      ensures 360.0 <= fov ==> initType == NotInitYet
    {
      Init2D(range, Trunc(fov / angResolu), fov / 2.0, 360.0 - fov / 2.0);
    }

    /** A 3D scan centred on the forward axis: `hFov` degrees wide and `vFov` degrees
        tall with its top edge `vUpLimit` degrees above the horizon; the sample
        counts are the widths over the requested resolutions, truncated. */
    method Init3DFov(range: real, hFov: real, hAngResolu: real, vFov: real, vAngResolu: real, vUpLimit: real)
      requires Valid()
      requires hAngResolu != 0.0 && vAngResolu != 0.0
      modifies this`pointClouds, this`raycastPointCloud, this`updatedPointCloud, this`lidar2DPoints,
               this`maxRange, this`horiz, this`verti, this`camera, this`lidarVehicle, this`initType, this`isAttach
      ensures Valid()
      ensures maxRange == range
      ensures horiz.smplNum == Trunc(hFov / hAngResolu) && verti.smplNum == Trunc(vFov / vAngResolu)
      ensures 0.0 < vFov && hFov < 360.0 ==>
        && initType == InitAs3D
        && horiz == HorizConfig(hFov / 2.0, 360.0 - hFov / 2.0, horiz.smplNum, Resolution(hFov, horiz.smplNum))
        && verti == VertiConfig(90.0 - vUpLimit, 90.0 + vFov - vUpLimit, verti.smplNum, Resolution(vFov, verti.smplNum))
      ensures !(0.0 < vFov && hFov < 360.0) ==> initType == NotInitYet
    {
      Init3D(range, Trunc(hFov / hAngResolu), hFov / 2.0, 360.0 - hFov / 2.0,
             Trunc(vFov / vAngResolu), 90.0 - vUpLimit, 90.0 + vFov - vUpLimit);
    }

    /** Attaches the sensor to a camera and a vehicle, once: an attached sensor keeps
        its camera and vehicle. */
    method Attach(cam: int, ownCar: int)
      modifies this`camera, this`lidarVehicle, this`isAttach
      ensures isAttach
      ensures old(isAttach) ==> camera == old(camera) && lidarVehicle == old(lidarVehicle)
      ensures !old(isAttach) ==> camera == cam && lidarVehicle == ownCar
    {
      if !isAttach {
        camera := cam;
        lidarVehicle := ownCar;
        isAttach := true;
      }
    }

    /** The 2D point map and the number of screen positions it holds. */
    method Get2DPoints() returns (points: array?<real>, size: int)
      ensures points == lidar2DPoints && size == beamCount
    {
      size := beamCount;
      points := lidar2DPoints;
    }

    /** The ray-cast point cloud and the number of records it holds. */
    method GetRaycastPointcloud() returns (cloud: array?<real>, size: int)
      ensures cloud == raycastPointCloud && size == raycastPoints
    {
      size := raycastPoints;
      cloud := raycastPointCloud;
    }

    // -------------------------------------------------------------------------
    // Room in the buffers
    // -------------------------------------------------------------------------

    /** Every buffer the build writes has room for k more records after the given
        record counts. */
    predicate Capacity(points: int, updated: int, raycast: int, mapped: int, k: nat)
      reads this`pointClouds, this`updatedPointCloud, this`raycastPointCloud, this`lidar2DPoints
    {
      && 0 <= points && 0 <= updated && 0 <= raycast && 0 <= mapped
      && 7 * (points + k) <= Len(pointClouds)
      && (build.useRaycasting ==> 7 * (updated + k) <= Len(updatedPointCloud))
      && (build.useRaycasting && build.outputRaycastPoints ==> 7 * (raycast + k) <= Len(raycastPointCloud))
      && (build.generate2DPointmap ==> 2 * (mapped + k) <= Len(lidar2DPoints))
    }

    /** Room for k more beams after the records already written. */
    predicate Room(k: nat)
      reads this`pointsHit, this`updatedPointCount, this`raycastPoints, this`beamCount,
            this`pointClouds, this`updatedPointCloud, this`raycastPointCloud, this`lidar2DPoints
    {
      Capacity(pointsHit, updatedPointCount, raycastPoints, beamCount, k)
    }

    /** As written, a 2D sensor allocates only the point cloud, while a build that
        ray-casts writes the updated and ray-cast clouds and a build with the 2D
        point map writes that map: in 2D those buffers are absent, so no scan with
        a beam has room in them. */
    lemma NoRoomIn2D(k: nat)
      requires Valid() && initType == InitAs2D && (build.useRaycasting || build.generate2DPointmap)
      requires 1 <= k
      ensures !Capacity(0, 0, 0, 0, k)
    {
    }

    /** As written, the update pass of a 2D sensor writes its in-range records
        through the updated point cloud, which 2D never allocates: once one kept hit
        is within range, the pass has no room for it. */
    lemma NoRoomToUpdateIn2D(n: Natives, cam: CamParams, pixel: PixelDepth, noise: nat -> real)
      requires Valid() && initType == InitAs2D && ValidCam(cam) && 0 <= updatedPointCount
      requires UpdateRecords(n, build, cam, pixel, hitDepthPoints, noise, |hitDepthPoints|) != []
      ensures 7 * (updatedPointCount + |UpdateRecords(n, build, cam, pixel, hitDepthPoints, noise, |hitDepthPoints|)|)
              > Len(updatedPointCloud)
    {
    }

    lemma RoomIsRoomFor(hits: EntityHits, k: nat)
      ensures Room(k) <==> RoomFor(build, State(hits), k)
    {
    }

    // -------------------------------------------------------------------------
    // Writing one record at a buffer's next slot; an empty record writes nothing.
    // -------------------------------------------------------------------------

    method PutPoint(hits: EntityHits, rec: seq<real>)
      requires Disjoint()
      requires rec != [] ==> 0 <= pointsHit && 7 * pointsHit + |rec| <= Len(pointClouds)
      modifies this`pointsHit, pointClouds
      ensures var st := old(State(hits));
        State(hits) == st.(cloud := Put(st.cloud, 7 * st.pointsHit, rec),
                           pointsHit := st.pointsHit + if rec != [] then 1 else 0)
      ensures pointsHit == old(pointsHit) + if rec != [] then 1 else 0
    {
      if rec != [] {
        WriteAt(pointClouds, 7 * pointsHit, rec);
        pointsHit := pointsHit + 1;
      }
    }

    method PutUpdated(hits: EntityHits, rec: seq<real>)
      requires Disjoint()
      requires rec != [] ==>
        0 <= updatedPointCount && 7 * updatedPointCount + |rec| <= Len(updatedPointCloud)
      modifies this`updatedPointCount, updatedPointCloud
      ensures var st := old(State(hits));
        State(hits) == st.(updated := Put(st.updated, 7 * st.updatedCount, rec),
                           updatedCount := st.updatedCount + if rec != [] then 1 else 0)
      ensures updatedPointCount == old(updatedPointCount) + if rec != [] then 1 else 0
    {
      if rec != [] {
        WriteAt(updatedPointCloud, 7 * updatedPointCount, rec);
        updatedPointCount := updatedPointCount + 1;
      }
    }

    method PutRaycast(hits: EntityHits, rec: seq<real>)
      requires Disjoint()
      requires rec != [] ==>
        0 <= raycastPoints && 7 * raycastPoints + |rec| <= Len(raycastPointCloud)
      modifies this`raycastPoints, raycastPointCloud
      ensures var st := old(State(hits));
        State(hits) == st.(raycast := Put(st.raycast, 7 * st.raycastPoints, rec),
                           raycastPoints := st.raycastPoints + if rec != [] then 1 else 0)
      ensures raycastPoints == old(raycastPoints) + if rec != [] then 1 else 0
    {
      if rec != [] {
        WriteAt(raycastPointCloud, 7 * raycastPoints, rec);
        raycastPoints := raycastPoints + 1;
      }
    }

    method PutMapPoint(hits: EntityHits, rec: seq<real>)
      requires Disjoint()
      requires rec != [] ==> 0 <= beamCount && 2 * beamCount + |rec| <= Len(lidar2DPoints)
      modifies this`beamCount, lidar2DPoints
      ensures var st := old(State(hits));
        State(hits) == st.(map2D := Put(st.map2D, 2 * st.beamCount, rec),
                           beamCount := st.beamCount + if rec != [] then 1 else 0)
      ensures beamCount == old(beamCount) + if rec != [] then 1 else 0
    {
      if rec != [] {
        WriteAt(lidar2DPoints, 2 * beamCount, rec);
        beamCount := beamCount + 1;
      }
    }

    /** The 2D map position and the kept hit candidate of a beam. */
    method WriteMapPoint(hits: EntityHits, o: BeamOutcome)
      requires Disjoint()
      requires o.mapPoint != [] ==> 0 <= beamCount && 2 * beamCount + |o.mapPoint| <= Len(lidar2DPoints)
      modifies this`beamCount, this`hitDepthPoints, lidar2DPoints
      ensures State(hits) == MapStep(old(State(hits)), o)
      ensures beamCount == old(beamCount) + if o.mapPoint != [] then 1 else 0
    {
      PutMapPoint(hits, o.mapPoint);
      hitDepthPoints := hitDepthPoints + o.depthHit;
    }

    /** The depth-map record of a beam, when it stores one, with the hit it counts. */
    method WriteDepthRecord(hits: EntityHits, o: BeamOutcome)
      requires Disjoint()
      requires o.depthStored ==> 0 <= pointsHit && 7 * pointsHit + |o.primary| <= Len(pointClouds)
      requires o.depthStored ==> o.primary != []
      modifies this`pointsHit, this`depthMapPoints, hits, pointClouds
      ensures State(hits) == DepthStep(old(State(hits)), o)
      ensures pointsHit == old(pointsHit) + if o.depthStored then 1 else 0
    {
      if o.depthStored {
        PutPoint(hits, o.primary);
        depthMapPoints := depthMapPoints + 1;
        hits.AddToHitEntities(o.hitId, o.hitEntry);
      }
    }

    /** The ray-cast record of a beam whose target is off screen, in the point cloud
        and in the updated point cloud. */
    method WriteUpdated(hits: EntityHits, o: BeamOutcome)
      requires Disjoint()
      requires o.updated != [] ==>
        && 0 <= pointsHit && 7 * pointsHit + |o.updated| <= Len(pointClouds)
        && 0 <= updatedPointCount && 7 * updatedPointCount + |o.updated| <= Len(updatedPointCloud)
      modifies this`pointsHit, this`updatedPointCount, pointClouds, updatedPointCloud
      ensures State(hits) == UpdatedStep(old(State(hits)), o)
      ensures pointsHit == old(pointsHit) + if o.updated != [] then 1 else 0
      ensures updatedPointCount == old(updatedPointCount) + if o.updated != [] then 1 else 0
    {
      if o.updated != [] {
        PutPoint(hits, o.updated);
        PutUpdated(hits, o.updated);
      }
    }

    /** The ray-cast output record of a beam and the extent of the entity its ray
        hit. */
    method WriteRaycast(hits: EntityHits, o: BeamOutcome)
      requires Disjoint()
      requires o.raycast != [] ==>
        0 <= raycastPoints && 7 * raycastPoints + |o.raycast| <= Len(raycastPointCloud)
      modifies this`raycastPoints, hits, raycastPointCloud
      ensures State(hits) == RayStep(old(State(hits)), o)
      ensures raycastPoints == old(raycastPoints) + if o.raycast != [] then 1 else 0
    {
      PutRaycast(hits, o.raycast);
      if o.rayExtent {
        hits.RecordRayHit(o.rayEntity, o.rayVec, o.rayEntry);
      }
    }

    /** The 2D map position, the kept hit candidate and the depth-map record. */
    method WriteFront(hits: EntityHits, o: BeamOutcome, ghost k: nat)
      requires Disjoint() && WellShaped(build, o) && Room(k + 1)
      modifies this`pointsHit, this`depthMapPoints, this`beamCount, this`hitDepthPoints,
               hits, pointClouds, lidar2DPoints
      ensures State(hits) == DepthStep(MapStep(old(State(hits)), o), o)
      ensures pointsHit == old(pointsHit) + if o.depthStored then 1 else 0
      ensures beamCount == old(beamCount) + if o.mapPoint != [] then 1 else 0
    {
      WriteMapPoint(hits, o);
      WriteDepthRecord(hits, o);
    }

    /** The ray-cast records of a beam: the off-screen record in the point cloud and
        the updated point cloud, the ray-cast output record and the extent of the
        entity the ray hit. */
    method WriteBack(hits: EntityHits, o: BeamOutcome)
      requires Disjoint() && WellShaped(build, o)
      requires o.updated != [] ==>
        && 0 <= pointsHit && 7 * pointsHit + |o.updated| <= Len(pointClouds)
        && 0 <= updatedPointCount && 7 * updatedPointCount + |o.updated| <= Len(updatedPointCloud)
      requires o.raycast != [] ==>
        0 <= raycastPoints && 7 * raycastPoints + |o.raycast| <= Len(raycastPointCloud)
      modifies this`pointsHit, this`updatedPointCount, this`raycastPoints,
               hits, pointClouds, updatedPointCloud, raycastPointCloud
      ensures State(hits) == RayStep(UpdatedStep(old(State(hits)), o), o)
      ensures pointsHit == old(pointsHit) + if o.updated != [] then 1 else 0
      ensures updatedPointCount == old(updatedPointCount) + if o.updated != [] then 1 else 0
      ensures raycastPoints == old(raycastPoints) + if o.raycast != [] then 1 else 0
    {
      WriteUpdated(hits, o);
      WriteRaycast(hits, o);
    }

    /** Writes a beam's records at the next slot of each buffer, moves the counters
        on, keeps the depth-map hit for the update pass and records the entities hit
        in `hits`, in the order the beam produces them. */
    method ApplyOutcome(hits: EntityHits, o: BeamOutcome, ghost k: nat)
      requires Disjoint() && WellShaped(build, o) && Room(k + 1)
      modifies this`pointsHit, this`depthMapPoints, this`updatedPointCount, this`raycastPoints,
               this`beamCount, this`hitDepthPoints,
               hits, pointClouds, updatedPointCloud, raycastPointCloud, lidar2DPoints
      ensures State(hits) == AfterBeam(old(State(hits)), o)
      ensures Room(k)
    {
      assert (if o.depthStored then 1 else 0) + (if o.updated != [] then 1 else 0) <= 1;
      WriteFront(hits, o, k);
      WriteBack(hits, o);
    }

    /** One beam at (phi, theta): the outcome `beam` computes for it is written to the
        buffers. The buffers must have room for the beam; `k` is the room that is
        left for the beams after it. */
    method GenerateSinglePoint(hits: EntityHits, beam: BeamFn, ghost step: StepFn,
                               phi: real, theta: real, ghost k: nat)
      requires Disjoint() && StepsAs(step) && WellShaped(build, beam(phi, theta))
      requires Room(k + 1)
      modifies this`pointsHit, this`depthMapPoints, this`updatedPointCount, this`raycastPoints,
               this`beamCount, this`hitDepthPoints,
               hits, pointClouds, updatedPointCloud, raycastPointCloud, lidar2DPoints
      ensures State(hits) == step(old(State(hits)), beam(phi, theta))
      ensures Room(k)
    {
      var o := beam(phi, theta);
      ApplyOutcome(hits, o, k);
    }

    /** After j iterations of the right side of a sweep at elevation phi begun in
        state st0: theta is the angle the next test reads, the state is the run of
        the first j beams, and the buffers have room for the rest of the side and k
        more. */
    ghost predicate RightProgress(hits: EntityHits, beam: BeamFn, step: StepFn, st0: ScanState,
                                  phi: real, h: HorizConfig, k: nat, j: nat, theta: real)
      reads this`pointsHit, this`depthMapPoints, this`updatedPointCount, this`raycastPoints, this`beamCount,
            this`hitDepthPoints, this`pointClouds, this`updatedPointCloud, this`raycastPointCloud, this`lidar2DPoints,
            hits, pointClouds, updatedPointCloud, raycastPointCloud, lidar2DPoints
    {
      && RightCount(h, 0) == j + RightCount(h, j)
      && theta == RightPrev(h, j)
      && State(hits) == RightRun(step, beam, st0, phi, h, j)
      && Room(RightCount(h, j) + k)
    }

    /** Iteration j of the right-side loop once its test has passed: the azimuth
        riLimit + j * resolu and the beam at it. */
    method RightBeam(hits: EntityHits, beam: BeamFn, ghost step: StepFn, ghost st0: ScanState,
                     phi: real, h: HorizConfig, ghost k: nat, j: nat, theta: real) returns (next: real)
      requires Disjoint() && StepsAs(step) && Shaped(build, beam)
      requires RightProgress(hits, beam, step, st0, phi, h, k, j, theta)
      requires j < h.smplNum && theta < 360.0 - h.resolu
      modifies this`pointsHit, this`depthMapPoints, this`updatedPointCount, this`raycastPoints,
               this`beamCount, this`hitDepthPoints,
               hits, pointClouds, updatedPointCloud, raycastPointCloud, lidar2DPoints
      ensures RightProgress(hits, beam, step, st0, phi, h, k, j + 1, next)
    {
      next := RightThetaAt(h, j);
      GenerateSinglePoint(hits, beam, step, phi, next, RightCount(h, j + 1) + k);
    }

    /** After i iterations of the left side of a sweep at elevation phi begun in
        state st0, with theta at `start` and `count` iterations at most: theta is the
        angle the next test reads, the state is the run of the first i beams, and the
        buffers have room for the rest of the side and k more. */
    ghost predicate LeftProgress(hits: EntityHits, beam: BeamFn, step: StepFn, st0: ScanState,
                                 phi: real, h: HorizConfig, start: real, count: int, k: nat, i: nat, theta: real)
      reads this`pointsHit, this`depthMapPoints, this`updatedPointCount, this`raycastPoints, this`beamCount,
            this`hitDepthPoints, this`pointClouds, this`updatedPointCloud, this`raycastPointCloud, this`lidar2DPoints,
            hits, pointClouds, updatedPointCloud, raycastPointCloud, lidar2DPoints
    {
      && LeftCount(h, start, count, 0) == i + LeftCount(h, start, count, i)
      && theta == LeftPrev(h, start, i)
      && State(hits) == LeftRun(step, beam, st0, phi, h, i)
      && Room(LeftCount(h, start, count, i) + k)
    }

    /** Iteration i of the left-side loop once its test has passed: the azimuth
        i * resolu and the beam at it. */
    method LeftBeam(hits: EntityHits, beam: BeamFn, ghost step: StepFn, ghost st0: ScanState,
                    phi: real, h: HorizConfig, start: real, count: int, ghost k: nat, i: nat, theta: real)
      returns (next: real)
      requires Disjoint() && StepsAs(step) && Shaped(build, beam)
      requires LeftProgress(hits, beam, step, st0, phi, h, start, count, k, i, theta)
      requires i < count && theta < h.leLimit - h.resolu
      modifies this`pointsHit, this`depthMapPoints, this`updatedPointCount, this`raycastPoints,
               this`beamCount, this`hitDepthPoints,
               hits, pointClouds, updatedPointCloud, raycastPointCloud, lidar2DPoints
      ensures LeftProgress(hits, beam, step, st0, phi, h, start, count, k, i + 1, next)
    {
      next := LeftThetaAt(h, i);
      GenerateSinglePoint(hits, beam, step, phi, next, LeftCount(h, start, count, i + 1) + k);
    }

    /** The right side of a sweep at elevation phi: from the right limit, each
        iteration tests the angle of the previous one against 360 - resolu, computes
        riLimit + j * resolu and generates that beam. Returns the iteration count and
        the last angle computed. */
    method SweepRight(hits: EntityHits, beam: BeamFn, ghost step: StepFn,
                      phi: real, h: HorizConfig, ghost k: nat)
      returns (j: int, theta: real)
      requires Disjoint() && StepsAs(step) && Shaped(build, beam)
      requires Room(RightCount(h, 0) + k)
      modifies this`pointsHit, this`depthMapPoints, this`updatedPointCount, this`raycastPoints,
               this`beamCount, this`hitDepthPoints,
               hits, pointClouds, updatedPointCloud, raycastPointCloud, lidar2DPoints
      ensures j == RightCount(h, 0) && theta == RightPrev(h, j)
      ensures State(hits) == RightRun(step, beam, old(State(hits)), phi, h, j)
      ensures Room(k)
    {
      ghost var st0 := State(hits);
      theta := h.riLimit;
      j := 0;
      while j < h.smplNum
        invariant 0 <= j && RightProgress(hits, beam, step, st0, phi, h, k, j, theta)
        decreases h.smplNum - j
      {
        if theta < 360.0 - h.resolu {
          theta := RightBeam(hits, beam, step, st0, phi, h, k, j, theta);
        } else {
          break;
        }
        j := j + 1;
      }
    }

    /** The left side of a sweep at elevation phi, with theta at `start` and `count`
        iterations at most: each iteration tests the angle of the previous one
        against leLimit - resolu, computes i * resolu and generates that beam. */
    method SweepLeft(hits: EntityHits, beam: BeamFn, ghost step: StepFn,
                     phi: real, h: HorizConfig, start: real, count: int, ghost k: nat)
      requires Disjoint() && StepsAs(step) && Shaped(build, beam)
      requires Room(LeftCount(h, start, count, 0) + k)
      modifies this`pointsHit, this`depthMapPoints, this`updatedPointCount, this`raycastPoints,
               this`beamCount, this`hitDepthPoints,
               hits, pointClouds, updatedPointCloud, raycastPointCloud, lidar2DPoints
      ensures State(hits) == LeftRun(step, beam, old(State(hits)), phi, h, LeftCount(h, start, count, 0))
      ensures Room(k)
    {
      ghost var st0 := State(hits);
      var theta := start;
      var i := 0;
      while i < count
        invariant 0 <= i && LeftProgress(hits, beam, step, st0, phi, h, start, count, k, i, theta)
        decreases count - i
      {
        if theta < h.leLimit - h.resolu {
          theta := LeftBeam(hits, beam, step, st0, phi, h, start, count, k, i, theta);
        } else {
          break;
        }
        i := i + 1;
      }
    }

    /** One horizontal sweep at elevation phi. The vehicle's orientation is computed
        first. The right side then runs from the right limit towards 360 degrees,
        and the left side from 0 towards the left limit with the samples the right
        side left over, starting from the right side's last angle less 360. The
        buffers must have room for the sweep; `k` is the room left after it. */
    method GenerateHorizPointClouds(n: Natives, hits: EntityHits, beam: BeamFn, ghost step: StepFn,
                                    phi: real, ghost k: nat)
      requires Disjoint() && StepsAs(step) && Shaped(build, beam)
      requires Room(SweepCount(horiz) + k)
      modifies this`rotDcm, this`pointsHit, this`depthMapPoints, this`updatedPointCount, this`raycastPoints,
               this`beamCount, this`hitDepthPoints,
               hits, pointClouds, updatedPointCloud, raycastPointCloud, lidar2DPoints
      ensures rotDcm == DcmFor(n, lidarVehicle)
      ensures State(hits) == SweepRun(step, beam, old(State(hits)), phi, horiz)
      ensures Room(k)
    {
      rotDcm := CalcDcmOf(n, lidarVehicle);
      Sweep(hits, beam, step, phi, horiz, k);
    }

    /** The two loops of a sweep at elevation phi with configuration h: the right
        side, then the left side from the right side's last angle less 360, with the
        samples the right side left over. */
    method Sweep(hits: EntityHits, beam: BeamFn, ghost step: StepFn, phi: real, h: HorizConfig, ghost k: nat)
      requires Disjoint() && StepsAs(step) && Shaped(build, beam)
      requires Room(SweepCount(h) + k)
      modifies this`pointsHit, this`depthMapPoints, this`updatedPointCount, this`raycastPoints,
               this`beamCount, this`hitDepthPoints,
               hits, pointClouds, updatedPointCloud, raycastPointCloud, lidar2DPoints
      ensures State(hits) == SweepRun(step, beam, old(State(hits)), phi, h)
      ensures Room(k)
    {
      ghost var r, start := RightCount(h, 0), LeftStart(h);
      ghost var m := LeftCount(h, start, h.smplNum - r, 0);
      assert SweepCount(h) + k == r + (m + k);
      var j, theta := SweepRight(hits, beam, step, phi, h, m + k);
      theta := theta - 360.0;
      assert theta == start && h.smplNum - j == h.smplNum - r;
      SweepLeft(hits, beam, step, phi, h, theta, h.smplNum - j, k);
    }

    /** After k iterations of the vertical loop begun in state st0: phi is the
        elevation the next test reads, the state is the run of the first k rings'
        sweeps, and the buffers have room for the rest of the rings. */
    ghost predicate RingProgress(hits: EntityHits, beam: BeamFn, step: StepFn, st0: ScanState, k: nat, phi: real)
      reads this`horiz, this`verti,
            this`pointsHit, this`depthMapPoints, this`updatedPointCount, this`raycastPoints, this`beamCount,
            this`hitDepthPoints, this`pointClouds, this`updatedPointCloud, this`raycastPointCloud, this`lidar2DPoints,
            hits, pointClouds, updatedPointCloud, raycastPointCloud, lidar2DPoints
    {
      && RingCount(verti, 0) == k + RingCount(verti, k)
      && phi == RingPrev(verti, k)
      && State(hits) == RingRun(step, beam, st0, horiz, verti, k)
      && Room(RingBeams(verti, horiz, k))
    }

    /** Iteration k of the vertical loop once its test has passed: the elevation
        unLimit - k * resolu and the sweep at it. */
    method RingSweep(n: Natives, hits: EntityHits, beam: BeamFn, ghost step: StepFn, ghost st0: ScanState,
                     k: nat, phi: real) returns (next: real)
      requires Disjoint() && StepsAs(step) && Shaped(build, beam)
      requires RingProgress(hits, beam, step, st0, k, phi)
      requires k < verti.smplNum && phi > verti.upLimit - verti.resolu
      modifies this`rotDcm, this`pointsHit, this`depthMapPoints, this`updatedPointCount, this`raycastPoints,
               this`beamCount, this`hitDepthPoints,
               hits, pointClouds, updatedPointCloud, raycastPointCloud, lidar2DPoints
      ensures RingProgress(hits, beam, step, st0, k + 1, next)
    {
      next := RingPhiAt(verti, k);
      GenerateHorizPointClouds(n, hits, beam, step, next, RingBeams(verti, horiz, k + 1));
    }

    /** The vertical loop: from the lower limit, each iteration tests the elevation of
        the previous one against upLimit - resolu, computes unLimit - k * resolu and
        sweeps that ring. */
    method ScanRings(n: Natives, hits: EntityHits, beam: BeamFn, ghost step: StepFn)
      requires Disjoint() && StepsAs(step) && Shaped(build, beam)
      requires Room(RingBeams(verti, horiz, 0))
      modifies this`rotDcm, this`pointsHit, this`depthMapPoints, this`updatedPointCount, this`raycastPoints,
               this`beamCount, this`hitDepthPoints,
               hits, pointClouds, updatedPointCloud, raycastPointCloud, lidar2DPoints
      ensures State(hits) == RingRun(step, beam, old(State(hits)), horiz, verti, RingCount(verti, 0))
    {
      ghost var st0 := State(hits);
      var phi := verti.unLimit;
      var k := 0;
      while k < verti.smplNum
        invariant 0 <= k && RingProgress(hits, beam, step, st0, k, phi)
        decreases verti.smplNum - k
      {
        if phi > verti.upLimit - verti.resolu {
          phi := RingSweep(n, hits, beam, step, st0, k, phi);
        } else {
          break;
        }
        k := k + 1;
      }
    }

    /** One scan. A perspective vehicle other than -1 becomes the sensor's vehicle,
        and the counters start again from zero. A sensor that is not ready returns no
        cloud and leaves `size` as it was. Otherwise a 2D sensor sweeps the horizontal
        plane and then, as the dispatch is written, also runs the 3D branch; the 3D
        branch sweeps the rings from the lower limit up. `beam` is the per-beam
        computation the scan used, Outcome in the scan's context with the beam's noise
        draw, and `step` the state change of one outcome, AfterBeam; by RunBeamsIsRun
        the new state is Run over the Outcomes of the scan's beams. The point cloud
        and its record count are returned. The buffers must have room for the whole
        scan. */
    method GetPointClouds(n: Natives, cam: CamParams, pixel: PixelDepth, seg: seq<int>,
                          hits: EntityHits, param: int, perspectiveVehicle: int, noise: Noise, size0: int)
      returns (cloud: array?<real>, size: int, ghost beam: BeamFn, ghost step: StepFn)
      requires Valid() && ValidCam(cam) && cam.width * cam.height <= |seg|
      requires Ready() ==> Capacity(0, 0, 0, 0, |ScanBeams(initType, horiz, verti)|)
      modifies this`lidarVehicle, this`rotDcm, this`pointsHit, this`depthMapPoints, this`updatedPointCount, this`raycastPoints,
               this`beamCount, this`hitDepthPoints,
               hits, pointClouds, updatedPointCloud, raycastPointCloud, lidar2DPoints
      ensures lidarVehicle == if perspectiveVehicle != -1 then perspectiveVehicle else old(lidarVehicle)
      ensures !Ready() ==> cloud == null && size == size0 && State(hits) == Reset(old(State(hits)))
      ensures Ready() ==>
        && Computes(ScanContext(n, cam, pixel, seg, param), noise, beam) && StepsAs(step)
        && State(hits) == RunBeams(step, beam, Reset(old(State(hits))), ScanBeams(initType, horiz, verti))
        && cloud == pointClouds && size == pointsHit
    {
      StartScan(hits, perspectiveVehicle);
      if pointClouds == null || initType == NotInitYet || !isAttach {
        beam, step := ScanSteps(n, cam, pixel, seg, param, noise);
        cloud, size := null, size0;
        return;
      }
      beam, step := Scan(n, cam, pixel, seg, hits, param, noise);
      cloud, size := pointClouds, pointsHit;
    }

    /** The per-beam computation and the per-beam state change of a scan. */
    method ScanSteps(n: Natives, cam: CamParams, pixel: PixelDepth, seg: seq<int>, param: int, noise: Noise)
      returns (beam: BeamFn, ghost step: StepFn)
      requires ValidCam(cam) && cam.width * cam.height <= |seg|
      ensures Computes(ScanContext(n, cam, pixel, seg, param), noise, beam) && Shaped(build, beam)
      ensures StepsAs(step)
    {
      beam := MakeBeam(ScanContext(n, cam, pixel, seg, param), noise);
      step := AfterBeamStep();
    }

    /** The scan of a ready sensor, from counters at zero. */
    method Scan(n: Natives, cam: CamParams, pixel: PixelDepth, seg: seq<int>,
                hits: EntityHits, param: int, noise: Noise)
      returns (ghost beam: BeamFn, ghost step: StepFn)
      requires Valid() && Ready() && ValidCam(cam) && cam.width * cam.height <= |seg|
      requires Room(|ScanBeams(initType, horiz, verti)|)
      modifies this`rotDcm, this`pointsHit, this`depthMapPoints, this`updatedPointCount, this`raycastPoints,
               this`beamCount, this`hitDepthPoints,
               hits, pointClouds, updatedPointCloud, raycastPointCloud, lidar2DPoints
      ensures Computes(ScanContext(n, cam, pixel, seg, param), noise, beam) && StepsAs(step)
      ensures State(hits) == RunBeams(step, beam, old(State(hits)), ScanBeams(initType, horiz, verti))
    {
      var f;
      f, step := ScanSteps(n, cam, pixel, seg, param, noise);
      beam := f;
      Dispatch(n, hits, f, step);
    }

    /** A perspective vehicle other than -1 becomes the sensor's vehicle, and the
        counters start again from zero; the buffers are left as they are. */
    method StartScan(hits: EntityHits, perspectiveVehicle: int)
      modifies this`lidarVehicle, this`pointsHit, this`depthMapPoints, this`updatedPointCount, this`raycastPoints,
               this`beamCount
      ensures lidarVehicle == if perspectiveVehicle != -1 then perspectiveVehicle else old(lidarVehicle)
      ensures State(hits) == Reset(old(State(hits)))
    {
      if perspectiveVehicle != -1 {
        lidarVehicle := perspectiveVehicle;
      }
      pointsHit := 0;
      raycastPoints := 0;
      depthMapPoints := 0;
      beamCount := 0;
      updatedPointCount := 0;
    }

    /** The scan dispatch on the configuration type, with `beam` the per-beam
        computation and `step` the state change of one beam's outcome. */
    method Dispatch(n: Natives, hits: EntityHits, beam: BeamFn, ghost step: StepFn)
      requires initType != NotInitYet
      requires Disjoint() && StepsAs(step) && Shaped(build, beam)
      requires Room(|ScanBeams(initType, horiz, verti)|)
      modifies this`rotDcm, this`pointsHit, this`depthMapPoints, this`updatedPointCount, this`raycastPoints,
               this`beamCount, this`hitDepthPoints,
               hits, pointClouds, updatedPointCloud, raycastPointCloud, lidar2DPoints
      ensures State(hits) == RunBeams(step, beam, old(State(hits)), ScanBeams(initType, horiz, verti))
    {
      ghost var st0 := State(hits);
      ScanLength(initType, horiz, verti);
      if initType == InitAs2D {
        GenerateHorizPointClouds(n, hits, beam, step, HorizontalPlane, RingBeams(verti, horiz, 0));
      }
      // No break after the 2D case: both modes run the vertical loop.
      ScanRings(n, hits, beam, step);
      ScanRunIs(step, beam, st0, initType, horiz, verti);
    }

    /** Appends one four-float record at the updated point cloud's next slot. */
    method AppendUpdated(rec: seq<real>, ghost s0: seq<real>, ghost c0: int, ghost recs: seq<seq<real>>)
      requires |rec| == 4 && 0 <= c0 && updatedPointCount == c0 + |recs|
      requires 7 * (updatedPointCount + 1) <= Len(updatedPointCloud)
      requires Contents(updatedPointCloud) == PutRecords(s0, 7 * c0, FloatsPerPoint, recs)
      modifies this`updatedPointCount, updatedPointCloud
      ensures updatedPointCount == old(updatedPointCount) + 1
      ensures Contents(updatedPointCloud) == PutRecords(s0, 7 * c0, FloatsPerPoint, recs + [rec])
    {
      ghost var next := recs + [rec];
      assert next[..|next| - 1] == recs;
      assert 7 * updatedPointCount == 7 * c0 + 7 * |recs|;
      WriteAt(updatedPointCloud, 7 * updatedPointCount, rec);
      updatedPointCount := updatedPointCount + 1;
    }

    /** The update pass: each depth-map hit kept since the last update is measured
        again (`noise(i)` is the draw for hit i) and, when within range, appended to
        the updated point cloud as a four-float record; the kept hits are then
        cleared. The updated point cloud must have room for the records the pass
        writes, one per kept hit that is within range. */
    method UpdatePointCloud(n: Natives, cam: CamParams, pixel: PixelDepth, noise: nat -> real)
      returns (cloud: array?<real>, size: int)
      requires ValidCam(cam)
      requires 0 <= updatedPointCount
      requires 7 * (updatedPointCount + |UpdateRecords(n, build, cam, pixel, hitDepthPoints, noise, |hitDepthPoints|)|)
               <= Len(updatedPointCloud)
      modifies this`updatedPointCount, this`hitDepthPoints, updatedPointCloud
      ensures var recs := UpdateRecords(n, build, cam, pixel, old(hitDepthPoints), noise, |old(hitDepthPoints)|);
        && Contents(updatedPointCloud) ==
           PutRecords(old(Contents(updatedPointCloud)), 7 * old(updatedPointCount), FloatsPerPoint, recs)
        && updatedPointCount == old(updatedPointCount) + |recs|
      ensures cloud == updatedPointCloud && size == updatedPointCount && hitDepthPoints == []
    {
      ghost var f: RemeasureFn := (p, z) => UpdateRecord(n, build, cam, pixel, p, z);
      ghost var pts := hitDepthPoints;
      RecordsByIs(n, build, cam, pixel, f, pts, noise, |pts|);
      cloud, size := RemeasureKeptHits(n, cam, pixel, noise, f);
    }

    /** After i iterations of the update pass begun with the kept hits `pts`, the
        updated cloud's contents s0 and count c0: the records of the first i hits
        are appended. */
    ghost predicate UpdateProgress(f: RemeasureFn, pts: seq<HitDepth>, noise: nat -> real,
                                   s0: seq<real>, c0: int, i: nat)
      reads this`updatedPointCount, this`hitDepthPoints, this`updatedPointCloud, updatedPointCloud
    {
      && i <= |pts| && hitDepthPoints == pts && 0 <= c0
      && var recs := RecordsBy(f, pts, noise, i);
         && Contents(updatedPointCloud) == PutRecords(s0, 7 * c0, FloatsPerPoint, recs)
         && updatedPointCount == c0 + |recs| && |recs| <= i
    }

    /** Iteration i of the update pass: hit i measured again, and appended when
        within range. */
    method RemeasureOne(n: Natives, cam: CamParams, pixel: PixelDepth, noise: nat -> real, ghost f: RemeasureFn,
                        ghost pts: seq<HitDepth>, ghost s0: seq<real>, ghost c0: int, i: nat)
      requires Remeasures(n, build, cam, pixel, f)
      requires i < |pts| && UpdateProgress(f, pts, noise, s0, c0, i)
      requires 7 * (c0 + |RecordsBy(f, pts, noise, |pts|)|) <= Len(updatedPointCloud)
      modifies this`updatedPointCount, updatedPointCloud
      ensures UpdateProgress(f, pts, noise, s0, c0, i + 1)
    {
      ghost var recs := RecordsBy(f, pts, noise, i);
      var kept, rec := RemeasureHit(n, build, cam, pixel, hitDepthPoints[i], noise(i), f);
      if kept {
        RecordsByGrows(f, pts, noise, i + 1, |pts|);
        AppendUpdated(rec, s0, c0, recs);
      } else {
        assert recs + [] == recs;
      }
    }

    /** The loop over the kept hits `pts`. */
    method RemeasureAll(n: Natives, cam: CamParams, pixel: PixelDepth, noise: nat -> real, ghost f: RemeasureFn,
                        ghost pts: seq<HitDepth>, ghost s0: seq<real>, ghost c0: int)
      requires Remeasures(n, build, cam, pixel, f)
      requires UpdateProgress(f, pts, noise, s0, c0, 0)
      requires 7 * (c0 + |RecordsBy(f, pts, noise, |pts|)|) <= Len(updatedPointCloud)
      modifies this`updatedPointCount, updatedPointCloud
      ensures UpdateProgress(f, pts, noise, s0, c0, |pts|)
    {
      var i := 0;
      while i < |hitDepthPoints|
        invariant 0 <= i <= |pts| && UpdateProgress(f, pts, noise, s0, c0, i)
        invariant 7 * (c0 + |RecordsBy(f, pts, noise, |pts|)|) <= Len(updatedPointCloud)
      {
        RemeasureOne(n, cam, pixel, noise, f, pts, s0, c0, i);
        i := i + 1;
      }
    }

    /** The loop of the update pass, with `f` the remeasuring of one hit. */
    method RemeasureKeptHits(n: Natives, cam: CamParams, pixel: PixelDepth, noise: nat -> real, ghost f: RemeasureFn)
      returns (cloud: array?<real>, size: int)
      requires Remeasures(n, build, cam, pixel, f)
      requires 0 <= updatedPointCount
      requires 7 * (updatedPointCount + |RecordsBy(f, hitDepthPoints, noise, |hitDepthPoints|)|) <= Len(updatedPointCloud)
      modifies this`updatedPointCount, this`hitDepthPoints, updatedPointCloud
      ensures var recs := RecordsBy(f, old(hitDepthPoints), noise, |old(hitDepthPoints)|);
        && Contents(updatedPointCloud) ==
           PutRecords(old(Contents(updatedPointCloud)), 7 * old(updatedPointCount), FloatsPerPoint, recs)
        && updatedPointCount == old(updatedPointCount) + |recs|
      ensures cloud == updatedPointCloud && size == updatedPointCount && hitDepthPoints == []
    {
      ghost var pts := hitDepthPoints;
      ghost var s0 := Contents(updatedPointCloud);
      ghost var c0 := updatedPointCount;
      RemeasureAll(n, cam, pixel, noise, f, pts, s0, c0);
      size := updatedPointCount;
      hitDepthPoints := [];
      cloud := updatedPointCloud;
    }
  }

  /** The per-beam computation of a scan: Outcome in context c with the beam's noise
      draw. */
  method MakeBeam(c: BeamContext, noise: Noise) returns (beam: BeamFn)
    requires ValidContext(c)
    ensures Computes(c, noise, beam) && Shaped(c.build, beam)
  {
    beam := (phi, theta) => Outcome(c, phi, theta, noise(phi, theta));
    ComputesShaped(c, noise, beam);
  }

  /** One kept hit measured again: its position with the ground distance, and
      whether the position is within range. */
  method RemeasureHit(n: Natives, b: Build, cam: CamParams, pixel: PixelDepth, p: HitDepth, noise: real,
                      ghost f: RemeasureFn)
    returns (kept: bool, rec: seq<real>)
    requires Remeasures(n, b, cam, pixel, f)
    ensures f(p, noise) == if kept then [rec] else []
    ensures |rec| == 4
  {
    var v := Get3DFromDepthTarget(n, b.gaussianNoise, cam, pixel, p.target, p.target2D, noise);
    kept := Kept(n, b.maxLidarDist, cam, p.target, v);
    rec := Position(v) + [p.groundDist];
    assert f(p, noise) == UpdateRecord(n, b, cam, pixel, p, noise);
  }

  /** As written, a sensor can be configured for 2D while holding vertical fields
      from a rejected 3D configuration: a 3D configuration whose horizontal limits
      are rejected keeps its vertical ones, and the 2D configuration that follows
      leaves them alone. Its scan, as written, then sweeps two rings besides the
      horizontal plane, more beams than its total sample count. */
  method StaleRingsReachable(build: Build, defaults: HitDefaults) returns (s: LidarSensor)
    requires 0 <= build.maxPoints
    ensures s.Valid() && s.initType == InitAs2D
    ensures s.horiz == HorizConfig(30.0, 330.0, 6, 10.0) && s.verti == VertiConfig(45.0, 125.0, 2, 40.0)
    ensures |ScanBeams(s.initType, s.horiz, s.verti)| > s.GetTotalSmplNum()
  {
    s := new LidarSensor(build, defaults, []);
    s.Init3D(10.0, 6, 330.0, 30.0, 2, 45.0, 125.0);
    assert Resolution(125.0 - 45.0, 2) == 40.0;
    assert s.initType == NotInitYet && s.verti == VertiConfig(45.0, 125.0, 2, 40.0);
    s.Init2D(10.0, 6, 30.0, 330.0);
    assert Resolution(30.0 + 360.0 - 330.0, 6) == 10.0;
    FallthroughEmitsStaleRings();
  }
}
