# LiDAR sensor model

A Dafny model of the simulated LiDAR of a game-based data-collection plugin
(`LiDAR.cpp`). The sensor is configured as a single horizontal sweep (2D) or as a
stack of rings (3D). It is attached to a camera and a vehicle. Each scan then walks
a fixed beam pattern. For every beam it:

- rotates the beam's end point into the world with the vehicle's direction-cosine
  matrix;
- projects the end point onto the screen;
- reads the metric depth there from the depth buffer (bilinear where the four
  neighbouring pixels agree within 8 percent, the nearest pixel otherwise);
- stores seven-float point records in the KITTI Velodyne axes, with the entity id,
  a car-class flag, a zero channel and a radial-velocity channel;
- stores four-float records for ray-cast hits whose target is off screen;
- counts hits per entity in a caller-owned map.

A later update pass measures the kept depth-map hits again into the updated point
cloud. A table read from the vehicle label file maps model names to classes.

Modules, one per component:

| file | module | what it holds |
|---|---|---|
| `geometry.dfy` | `Geometry` | vectors, the KITTI axis remap and its inverse |
| `engine.dfy` | `Engine` | the game engine's natives, as function values; the camera; build constants |
| `orientation.dfy` | `Orientation` | quaternion to direction-cosine matrix (`calcDCM`) |
| `scan_pattern.dfy` | `ScanPattern` | the beam pattern of the scan loops, as written and as intended |
| `scan_run.dfy` | `ScanRun` | the counted loops as runs over the beam pattern |
| `depth_sampler.dfy` | `DepthSampler` | `isPositionOnScreen`, `depthFromNDC` clamping, `getDepthFromScreenPos` |
| `hit_tracker.dfy` | `HitTracker` | the per-entity hit map (`addToHitEntities` and the ray-extent update) |
| `channels.dfy` | `Channels` | the record channels: entity id, class flag, radial velocity |
| `vehicle_table.dfy` | `VehicleTable` | the vehicle label table and its lookup |
| `point_writer.dfy` | `PointWriter` | one beam's outcome and the update pass, as values |
| `buffers.dfy` | `Buffers` | float buffers written at offsets |
| `byte_order.dfy` | `ByteOrder` | `ReverseFloat` |
| `lidar.dfy` | `Lidar` | the sensor class: configuration state machine, buffers, scan driver, update pass |

The sensor is the class `Lidar.LidarSensor`. Its fields are the C++ members, and
its buffers are `array?<real>` (null where the C++ pointer is NULL). Its methods
change them in place.

The scan methods follow the C++ loops one iteration at a time. Each one's
`ensures` ties the new state to a run over a beam sequence: `ScanPattern.ScanBeams`
for a whole scan and `ScanPattern.HorizSweep` for one sweep. The properties of
the pattern are lemmas about those sequences. The scan runs the pattern as written,
with the 2D case falling through into the ring loop. The intended pattern
(`IntendedScanBeams`) is defined beside it, with its own lemmas.

The vehicle table is built as written, with keys not lower-cased. The intended
table is defined beside it (`AddLineLowered`, `IntendedTable`).

LiDAR.cpp:1061-1073 also registers each model name with up to three trailing
letters stripped, so a line for "civiccar" registers "civic" too. The model
follows the code (`TruncationsResolve`).

## Model

| member | source | states |
|---|---|---|
| Lidar.LidarSensor.constructor | LiDAR.cpp:22-43 | a new sensor is unconfigured and detached; it has no buffers, zero counters, zero limits and zero sample counts, and its vehicle table is built from the label lines |
| Lidar.LidarSensor.VehicleLookUpTable | LiDAR.cpp:1043-1077 | the table is built only once: on the first call it becomes the old table with every label line added in order; a later call keeps it unchanged |
| Lidar.LidarSensor.Destroy | LiDAR.cpp:181-212 | frees all four buffers (all null afterwards); range, limits, sample counts, camera and vehicle go back to zero; the sensor ends unconfigured and detached |
| Lidar.LidarSensor.Init2D | LiDAR.cpp:50-80 | a configured sensor is destroyed first; the range and sample count are always stored. Limits with the right limit not above the left one leave the sensor unconfigured, keeping the old limits. Otherwise the sensor is 2D with resolution (le + 360 - ri) / n and a fresh point cloud for a non-negative count |
| Lidar.LidarSensor.Init3D | LiDAR.cpp:82-154 | destroys a configured sensor; stores the counts and range. Rejected vertical limits leave all limits as they were. Accepted vertical limits with rejected horizontal ones store the vertical configuration and leave the sensor unconfigured. With both accepted the sensor is 3D and has three fresh distinct clouds of maxPoints floats, plus a map of maxPoints / 2 floats exactly when the build writes the 2D point map |
| Lidar.LidarSensor.Alloc3D | LiDAR.cpp:116-139 | allocates each missing cloud at maxPoints floats and the 2D map at half that when the build writes it, all distinct |
| Lidar.LidarSensor.Init2DFov | LiDAR.cpp:156-159 | a sweep of fov degrees centred on the forward axis, with trunc(fov / resolution) samples; 2D exactly when fov < 360, unconfigured otherwise |
| Lidar.LidarSensor.Init3DFov | LiDAR.cpp:161-164 | the same horizontally; vertically, limits 90 - up and 90 + vFov - up with trunc(vFov / resolution) rings; 3D exactly when 0 < vFov and hFov < 360 |
| Lidar.LidarSensor.Attach | LiDAR.cpp:166-179 | the first attach stores the camera and the vehicle; a sensor already attached keeps them |
| Lidar.LidarSensor.Get2DPoints | LiDAR.cpp:214-217 | returns the 2D point map and the beam count |
| Lidar.LidarSensor.GetRaycastPointcloud | LiDAR.cpp:219-222 | returns the ray-cast cloud and its record count |
| Lidar.LidarSensor.GetTotalSmplNum | LiDAR.cpp:358-369 | 0 unconfigured, horizSmplNum in 2D, horizSmplNum * vertiSmplNum in 3D; for non-negative counts it bounds the intended scan's beam count |
| Lidar.LidarSensor.GetPointClouds | LiDAR.cpp:300-355 | a perspective vehicle other than -1 replaces the sensor's vehicle, and all counters restart at 0. A sensor that is not ready returns null and leaves size alone. A ready sensor's new state is the run of the per-beam outcomes over `ScanBeams` (2D sweep, then the rings), and it returns the point cloud and the point count |
| Lidar.LidarSensor.StartScan | LiDAR.cpp:302-315 | the vehicle replacement and the five counters reset to zero, buffers untouched |
| Lidar.LidarSensor.Scan | LiDAR.cpp:319-347 | a ready sensor's scan from its current counters: the new state is the run over `ScanBeams` of the outcomes computed in the scan's context |
| Lidar.LidarSensor.ScanSteps | LiDAR.cpp:591-986 | the per-beam computation of a scan is `Outcome` in the scan's context (orientation from the vehicle's quaternion) with the beam's noise draw, and its state change is `AfterBeam` |
| Lidar.LidarSensor.Dispatch | LiDAR.cpp:319-347 | the state after the dispatch is the run over `ScanBeams`: in 2D the horizontal plane and then the rings, since the 2D case has no break; in 3D the rings |
| Lidar.LidarSensor.ScanRings | LiDAR.cpp:328-339 | the ring loop's state is the run of the first RingCount rings' sweeps, each ring's guard comparing the previous elevation with upLimit - resolu |
| Lidar.LidarSensor.RingSweep | LiDAR.cpp:332-338 | one iteration of the ring loop preserves the loop invariant: elevation unLimit - k * resolu, then its sweep |
| Lidar.LidarSensor.GenerateHorizPointClouds | LiDAR.cpp:988-1014 | recomputes the orientation from the vehicle's quaternion; the new state is the run over the sweep's beams (right side, then left side with the remaining samples) |
| Lidar.LidarSensor.Sweep | LiDAR.cpp:994-1013 | the two loops together give the sweep's run; the left side starts from the right side's last angle minus 360 |
| Lidar.LidarSensor.SweepRight | LiDAR.cpp:995-1003 | the right loop runs RightCount iterations, ends at the angle its last test read, and leaves the run of the right segment |
| Lidar.LidarSensor.RightBeam | LiDAR.cpp:998-1002 | one right-side iteration: azimuth riLimit + j * resolu and its beam, preserving the loop invariant |
| Lidar.LidarSensor.SweepLeft | LiDAR.cpp:1005-1013 | the left loop leaves the run of the left segment, bounded by the samples the right side left over |
| Lidar.LidarSensor.LeftBeam | LiDAR.cpp:1008-1012 | one left-side iteration: azimuth i * resolu and its beam, preserving the loop invariant |
| Lidar.LidarSensor.GenerateSinglePoint | LiDAR.cpp:591-986 | the beam's outcome at (phi, theta) is written at each buffer's next slot, the counters move on and the hit map is updated, exactly as `AfterBeam` says; room for the rest of the scan remains |
| Lidar.LidarSensor.WriteFront | LiDAR.cpp:624-890 | the 2D map position, the kept hit candidate and then the depth-map record, with their counters |
| Lidar.LidarSensor.WriteBack | LiDAR.cpp:894-975 | the off-screen ray record, the ray-cast output record and the ray extent, with their counters |
| Lidar.LidarSensor.PutPoint | LiDAR.cpp:653-657 | a record goes into the point cloud at slot 7 * pointsHit and pointsHit grows by one; an empty record changes nothing |
| Lidar.LidarSensor.PutUpdated | LiDAR.cpp:917-922 | a record goes into the updated cloud at slot 7 * updatedPointCount and the count grows by one; an empty record changes nothing |
| Lidar.LidarSensor.PutRaycast | LiDAR.cpp:925-933 | a record goes into the ray-cast cloud at slot 7 * raycastPoints and the count grows by one; an empty record changes nothing |
| Lidar.LidarSensor.PutMapPoint | LiDAR.cpp:624-628 | a screen position goes into the 2D map at slot 2 * beamCount and beamCount grows by one; an empty record changes nothing |
| Lidar.LidarSensor.ApplyOutcome | LiDAR.cpp:624-975 | the buffer writes of one beam, in source order (2D map, depth record, updated and ray-cast records, ray extent), equal `AfterBeam` |
| Lidar.LidarSensor.WriteMapPoint | LiDAR.cpp:624-643 | the 2D map gets the screen position at slot 2 * beamCount and beamCount grows by one when the build writes it; the hit candidate is kept |
| Lidar.LidarSensor.WriteDepthRecord | LiDAR.cpp:645-890 | a stored depth-map record goes at slot 7 * pointsHit, pointsHit and depthMapPoints grow by one, and the entity under the target is counted |
| Lidar.LidarSensor.WriteUpdated | LiDAR.cpp:909-923 | an off-screen ray-cast record goes into both the point cloud and the updated cloud, at their next slots |
| Lidar.LidarSensor.WriteRaycast | LiDAR.cpp:925-975 | the ray-cast output record goes at the ray-cast cloud's next slot, and the hit entity's extent is widened when the build records ray hits |
| Lidar.LidarSensor.UpdatePointCloud | LiDAR.cpp:224-243 | given room for the records it writes (one per kept hit within range, not one per kept hit), the updated cloud gets, at consecutive slots from its counter, the records `UpdateRecords` gives for the kept hits; the counter grows by their number; the kept hits are cleared; the updated cloud and its count are returned |
| Lidar.LidarSensor.RemeasureKeptHits | LiDAR.cpp:226-241 | given room for exactly the in-range records, the loop of the update pass appends `RecordsBy` of the kept hits and clears them |
| Lidar.LidarSensor.RemeasureAll | LiDAR.cpp:226-238 | the loop invariant holds after all kept hits |
| Lidar.LidarSensor.RemeasureOne | LiDAR.cpp:227-237 | one kept hit measured again: appended when in range, skipped otherwise |
| Lidar.LidarSensor.AppendUpdated | LiDAR.cpp:231-236 | a four-float record at the updated cloud's next seven-float slot; earlier records stay |
| Lidar.MakeBeam | LiDAR.cpp:591-986 | the per-beam computation in a given context is `Outcome` with the beam's noise draw, and every outcome is well shaped |
| Lidar.RemeasureHit | LiDAR.cpp:227-230 | a kept hit's position with its ground distance, kept exactly when the target has a direction and the point is in range |
| Lidar.CalcDcmOf | LiDAR.cpp:1016-1034 | the matrix is that of the vehicle's quaternion as the engine reports it |
| Lidar.LidarSensor.NoRoomIn2D | LiDAR.cpp:909-933 | a 2D sensor whose build ray-casts or writes the 2D map has no room for even one beam, since those buffers are never allocated in 2D |
| Lidar.Alloc2DAsWrittenTooSmall | LiDAR.cpp:66 | a 2D cloud of smplNum floats has no room for a sweep of smplNum beams, and with fewer than seven samples not even for one depth-map record |
| Lidar.LidarSensor.NoRoomToUpdateIn2D | LiDAR.cpp:231-236 | a 2D sensor whose kept hits give at least one in-range record has no room for the update pass, since the updated cloud is never allocated in 2D |
| Lidar.Alloc2DHoldsUpdate | LiDAR.cpp:231-236 | an updated cloud with one seven-float slot per sample holds every record the update pass writes for up to smplNum kept hits |
| Lidar.Alloc2DHoldsSweep | LiDAR.cpp:66 | with one seven-float slot per sample (and room in the other buffers the build writes) a 2D sensor holds its whole intended sweep |
| Lidar.StaleRingsReachable | LiDAR.cpp:319-321 | Init3D rejected on its horizontal limits and then Init2D give a 2D sensor with two stale rings, whose scan has more beams than its total sample count |
| ScanPattern.RightThetaAt | LiDAR.cpp:999 | the right-side azimuth of iteration j is riLimit + j * resolu |
| ScanPattern.LeftThetaAt | LiDAR.cpp:1009 | the left-side azimuth of iteration i is i * resolu |
| ScanPattern.RingPhiAt | LiDAR.cpp:333 | the elevation of ring k is unLimit - k * resolu |
| ScanPattern.HorizSweepBounded | LiDAR.cpp:995-1013 | a sweep has at most horizSmplNum beams, and none for a negative count |
| ScanPattern.HorizSweepAt | LiDAR.cpp:995-1013 | beam k of a sweep is on the right side at riLimit + k * resolu, or on the left side at (k - r) * resolu |
| ScanPattern.HorizSweepRange | LiDAR.cpp:995-1013 | for a positive resolution, right-side beams lie in [riLimit, 360); the first left-side beam is at 0 and the rest lie in (0, leLimit) |
| ScanPattern.HorizSweepOrdered | LiDAR.cpp:995-1013 | azimuths increase along each side of the sweep, and every left-side azimuth lies below every right-side one |
| ScanPattern.HorizSweepDistinct | LiDAR.cpp:995-1013 | no azimuth repeats within a sweep, not even at the 0/360 seam |
| ScanPattern.HorizSweepExactCount | LiDAR.cpp:995-1013 | when the resolution shares the span among the samples and riLimit + resolu < 360, the sweep emits exactly horizSmplNum beams |
| ScanPattern.RingAnglesExact | LiDAR.cpp:328-339 | with accepted limits and resolution (un - up) / n, the ring loop visits exactly n elevations, each in (upLimit, unLimit] |
| ScanPattern.Scan3DWithinTotal | LiDAR.cpp:322-339 | a 3D scan has at most horizSmplNum * vertiSmplNum beams, all on the ring elevations |
| ScanPattern.Scan2DWithoutRings | LiDAR.cpp:320-321 | a 2D scan with no vertical samples is just the horizontal-plane sweep |
| ScanPattern.FallthroughEmitsStaleRings | LiDAR.cpp:320-321 | as written, a 2D scan with stale vertical fields emits more than horizSmplNum beams, some off the horizontal plane |
| ScanPattern.IntendedScan2DIsPlanar | LiDAR.cpp:320-321 | with a break after the 2D case, a 2D scan's beams all lie in the horizontal plane, at most horizSmplNum of them |
| ScanPattern.IntendedScanWithinTotal | LiDAR.cpp:358-369 | the intended scan never has more beams than the total sample count |
| ScanPattern.IntendedSweepExactCount | LiDAR.cpp:995-1013 | with each angle compared with its side's end before it is emitted, a sweep emits exactly horizSmplNum beams: right side in [riLimit, 360), left side in [0, leLimit) |
| ScanPattern.SweepDropsRightLimit | LiDAR.cpp:995-1001 | as written, a two-sample sweep from 350 to 10 emits only azimuth 0; the intended sweep emits 350 and 0 |
| ScanPattern.SingleSampleSweepIsEmpty | LiDAR.cpp:995-1011 | as written, a one-sample sweep starting at 350 with resolution 10 emits nothing; the intended sweep emits 350 |
| ScanPattern.ScanLength | LiDAR.cpp:319-339 | the scan's beam count is the sweep's beam count in 2D plus the rings' beam counts |
| ScanRun.SweepRunIs | LiDAR.cpp:988-1014 | the counted run of the two sweep loops is the run over `HorizSweep` |
| ScanRun.RingRunIs | LiDAR.cpp:328-339 | the counted run of the ring loop is the run over the rings' sweeps |
| ScanRun.ScanRunIs | LiDAR.cpp:319-347 | the counted run of the dispatch is the run over `ScanBeams` |
| ScanRun.RunBeamsIsRun | LiDAR.cpp:591-986 | running the per-beam generator over a beam sequence equals `Run` over the beams' outcomes |
| PointWriter.DepthEndCoordOnRay | LiDAR.cpp:536-562 | for a target away from the camera, the depth point lies on the camera-to-target ray at the sampled depth; the result is that point in vehicle axes |
| PointWriter.OutcomeShape | LiDAR.cpp:591-975 | a beam writes at most one record per buffer: a seven-float depth record or a four-float off-screen ray record, never both, and nothing to a buffer the build does not use |
| PointWriter.DepthRecordContents | LiDAR.cpp:645-890 | a depth-map record is within range; channel 3 is the entity id (0 on the own vehicle), channel 4 is a 0/1 class flag, channel 5 is 0 |
| PointWriter.RayRecordOffScreen | LiDAR.cpp:894-915 | a four-float record in the point cloud comes only from a ray-cast hit whose target is off screen, and carries the ray-cast entity id |
| PointWriter.AfterBeamFields | LiDAR.cpp:624-975 | buffer by buffer, a beam's record lands at that buffer's next slot and its counter grows by one exactly when the record exists |
| PointWriter.RoomFits | LiDAR.cpp:593-595 | room for k + 1 beams means the next beam fits, and room for k remains after it |
| PointWriter.RunCloud | LiDAR.cpp:653-915 | after a run, the point cloud holds the stored records at consecutive seven-float slots, and the depth-map counter never passes the point counter |
| PointWriter.RunUpdated | LiDAR.cpp:917-922 | after a run, the updated cloud holds the off-screen ray records at consecutive slots |
| PointWriter.RunRaycast | LiDAR.cpp:925-933 | after a run, the ray-cast cloud holds the ray-cast records at consecutive slots |
| PointWriter.RunMap2D | LiDAR.cpp:624-628 | after a run, the 2D map holds one screen position per beam when the build writes it, and is unchanged otherwise |
| PointWriter.UpdateRecordsInRange | LiDAR.cpp:226-237 | the update pass appends at most one record per kept hit; each is four floats, within range, and carries a kept hit's ground distance |
| PointWriter.UpdateRecordsPrefix | LiDAR.cpp:226-237 | the records for the first i hits begin the records for the first j |
| DepthSampler.IsPositionOnScreen | LiDAR.cpp:431-437 | on screen exactly when both coordinates lie in [0, 1] |
| DepthSampler.ClampIndex | LiDAR.cpp:401-407 | indices past the last column or row move onto it; smaller ones stay |
| DepthSampler.InteriorCornersOnScreen | LiDAR.cpp:444-462 | inside the half-pixel margin, the four corners are adjacent screen pixels and the blend offsets lie in [0, 1) |
| DepthSampler.NearestPixelOnScreen | LiDAR.cpp:478-483 | the pixel an on-screen position falls in is a screen pixel once clamped |
| DepthSampler.BlendWithinCorners | LiDAR.cpp:472-475 | a bilinear blend with offsets in [0, 1] lies between the smallest and largest corner depths |
| DepthSampler.BilinearWithinNeighbours | LiDAR.cpp:444-476 | when the sampler blends, its depth lies between the neighbours' depths, which differ by at most 8 percent |
| DepthSampler.DiscontinuityFallback | LiDAR.cpp:478-495 | outside the margin, or past the 8 percent threshold, the depth is the nearest pixel's (plus noise when noise is on) |
| DepthSampler.PixelCentreExact | LiDAR.cpp:439-496 | at a pixel's centre the sampler returns that pixel's depth, whichever path it takes |
| HitTracker.Trunc | LiDAR.cpp:568-569 | float-to-int conversion truncates toward zero |
| HitTracker.NewEntry | LiDAR.cpp:579-586 | a new entry takes the entity's forward axis and its position relative to the camera |
| HitTracker.HitPixelOnScreen | LiDAR.cpp:566-571 | for an on-screen position, the pixel read for the entity id lies on the screen |
| HitTracker.SegPixelAsWrittenLeavesBuffer | LiDAR.cpp:663-667 | as written, screen (0, 0) on a 4 x 4 camera reads offset -5, before the buffer |
| HitTracker.SegPixelAgreesInside | LiDAR.cpp:663-667 | away from the left and top edges, flooring and truncation pick the same pixel |
| HitTracker.AddHit | LiDAR.cpp:565-589 | id 0 changes nothing; a known entity counts one more point; an unknown one gets the new entry; other entries stay |
| HitTracker.RayExtent | LiDAR.cpp:955-975 | a ray hit on a known entity updates only that entry; an unknown id, 0 included, gets the new entry |
| HitTracker.RayExtentWidens | LiDAR.cpp:956-963 | on a known entity the count grows by one, the front and back bounds only widen to cover the hit, and axis and position stay |
| HitTracker.AddHitsCounts | LiDAR.cpp:565-589 | over a sequence of hits, a known entity's count grows by the number of hits carrying its id; id 0 never gets an entry |
| HitTracker.EntityHits.AddToHitEntities | LiDAR.cpp:565-589 | the caller's map becomes `AddHit` of the old map |
| HitTracker.EntityHits.RecordRayHit | LiDAR.cpp:955-975 | the caller's map becomes `RayExtent` of the old map |
| Channels.EntityChannel | LiDAR.cpp:672-676 | channel 3 is 0 exactly for no entity or the own vehicle, and the entity id otherwise |
| Channels.ClassChannelIsFlag | LiDAR.cpp:684-704 | channel 4 ends as 1 exactly for another vehicle whose model the table classes as "Car", and 0 otherwise; the not-found value 999.99 is written and then overwritten |
| Channels.RelativeSpeedSign | LiDAR.cpp:839-848 | for a positive speed, the relative speed's sign is the sign of the change in separation |
| Channels.VelocityChannelCases | LiDAR.cpp:792-883 | channel 6 is 0 on the own vehicle; minus the own speed times the cosine on ground or stopped entities; signed by departing or approaching on moving ones |
| Channels.RayEntityId | LiDAR.cpp:895-899 | a ray-cast record carries the hit entity only for a non-animal pedestrian or a vehicle, and 0 otherwise |
| Channels.RecordPositionRoundTrip | LiDAR.cpp:652-657 | the stored position gives back the camera-relative point, with the same length |
| Geometry.KittiRoundTrip | LiDAR.cpp:653-657 | the axis remap (y, -x, z) and its inverse undo each other |
| Geometry.KittiKeepsLength | LiDAR.cpp:650-657 | the axis remap keeps every length, so the range test holds of the stored record |
| Orientation.DcmOfIdentity | LiDAR.cpp:1016-1034 | the quaternion (0, 0, 0, 1) gives the identity matrix |
| Orientation.DcmOfConjugate | LiDAR.cpp:1016-1034 | the conjugate quaternion gives the transposed matrix, the inverse rotation |
| Orientation.DcmRowsOrthogonal | LiDAR.cpp:1016-1034 | the rows are pairwise orthogonal with squared length \|q\|^4 (orthonormal for a unit quaternion) |
| Orientation.DcmColumnsOrthogonal | LiDAR.cpp:1016-1034 | the same for the columns |
| Orientation.DcmRightHanded | LiDAR.cpp:1016-1034 | row 1 x row 2 is row 0 scaled by \|q\|^2, so the determinant is \|q\|^6: a rotation, never a reflection |
| ByteOrder.ReverseFloat | LiDAR.cpp:386-399 | byte i of the result is byte 3 - i of the input |
| ByteOrder.ReverseFloatInvolution | LiDAR.cpp:386-399 | reversing twice gives back the original bytes |
| ByteOrder.ReverseFloatInjective | LiDAR.cpp:386-399 | distinct inputs give distinct results |
| VehicleTable.LookupType | LiDAR.cpp:684-697 | a name is found exactly when its lower-cased letters are a key; it gets that key's class if found and "Unknown" otherwise |
| VehicleTable.KeysAreTruncations | LiDAR.cpp:1059-1073 | a line registers its model name and the names 1, 2 and 3 letters shorter, as long as at least one letter remains |
| VehicleTable.InsertAllSpec | LiDAR.cpp:1059-1073 | inserting keys never overwrites (as a map insert does not): old entries stay, and only new keys get the class |
| VehicleTable.AddLinesKeepsEarlier | LiDAR.cpp:1050-1074 | later lines never change an entry made by an earlier line |
| VehicleTable.TruncationsResolve | LiDAR.cpp:1062-1073 | for a new lower-case model name, the name and its truncations by up to three letters resolve to the line's class |
| VehicleTable.TooShortNotRegistered | LiDAR.cpp:1062-1073 | a name four or more letters shorter than the model name is not registered |
| VehicleTable.CapitalKeyNeverMatches | LiDAR.cpp:1055-1059 | a key holding an upper-case letter never equals a normalised query |
| VehicleTable.ShadowedByLongerModel | LiDAR.cpp:1059-1073 | the first line's truncations keep their class, whatever lines follow |
| VehicleTable.TruncationShadowsLaterModel | LiDAR.cpp:1059-1073 | as written, "civiccar,Car" followed by "civic,Bike" leaves "civic" a Car |
| VehicleTable.LoweredKeyResolves | LiDAR.cpp:1055-1059 | with keys lower-cased as the lookup lower-cases its query (LiDAR.cpp:688), a new line's model name resolves to the line's class whatever its letter case |
| VehicleTable.ModelNameWins | LiDAR.cpp:1059-1073 | in the intended table, a line's model name resolves to that line's class unless an earlier line has the same name, even when an earlier line's truncation matches it |

## Left out

- Engine natives: the game engine's natives are function values of a `Natives` datatype. The model holds whatever they return: sin, cos, sqrt, atan2, projection, ray cast, entity queries, ground height and the camera-axis conversion. `SYSTEM::VDIST2` and `subtractVector` become `NormSq` and `Sub`.
- Lidar.LidarSensor.GetPointClouds: the Gaussian depth noise is a parameter, a draw per beam keyed by (phi, theta). The source draws from one random stream in beam order; the model does not capture that two beams at the same angles would get different draws.
- Lidar.LidarSensor.GetPointClouds: the buffers must have room in every buffer the build writes for every beam of the scan. The source writes the updated and ray-cast records only on ray hits. Its line-593 check only logs a warning and then writes past the end. The model does not model writes past the end of a buffer.
- Lidar.LidarSensor.GetPointClouds: for the same reason, scans that write through a NULL buffer in 2D are outside the requires (see the findings). So is a 2D scan with stale rings, whose beams exceed its 7·smplNum-float cloud.
- Lidar.LidarSensor.UpdatePointCloud: requires room for the records the pass writes. On a 2D sensor the updated cloud is NULL, so a 2D sensor with a kept hit within range is outside the requires; the source writes that record through NULL at LiDAR.cpp:231-236 (see the findings). The model does not model writes past the end of a buffer or through NULL.
- Lidar.LidarSensor.GetPointClouds: the log and printf output is left out, and so are `m_max_dist`/`m_min_dist`, which are written and only logged.
- Lidar.LidarSensor.Init2D: allocates 7·smplNum floats for the 2D cloud, where LiDAR.cpp:66 allocates smplNum floats. The model uses the corrected size; the as-written size is `Alloc2DAsWritten`, and the findings table covers it.
- Lidar.LidarSensor.Init2D: a failed malloc, which the source only logs, is not modelled; allocation always succeeds. A negative sample count gives a null cloud, as the huge unsigned size does.
- Lidar.LidarSensor.Init3D: a failed malloc is not modelled either.
- ScanPattern.Resolution: floats are reals. A sample count of 0 gives resolution 0.0, where the C++ division stores inf or NaN; no beam reads the resolution then. Rounding, inf and NaN are not modelled elsewhere either.
- Lidar.LidarSensor.Init2DFov: requires a non-zero angular resolution. The C++ division gives ±inf, and its conversion to int is undefined behaviour.
- Lidar.LidarSensor.Init3DFov: requires non-zero horizontal and vertical resolutions, for the same reason.
- PointWriter.SegId: reads the entity id at the truncated pixel (`HitPixel`, as `addToHitEntities` does). LiDAR.cpp:663-667 floors instead, which reads before the buffer within half a pixel of the left or top edge. The as-written pixel is `SegPixelAsWritten`, and the findings table covers it.
- PointWriter.Get3DFromDepthTarget: a target at the camera position has no direction. The zero vector stands in for the NaN coordinates, and `Kept` rejects it as the NaN fails the range test.
- PointWriter.Outcome: the `OUTPUT_ADJUSTED_POINTS` branch (LiDAR.cpp:936-951) and `adjustEndCoord` are left out; the build is taken with that switch off.
- HitTracker.NewEntry: the `HitLidarEntity` constructor's initial counters are not shown, so they are the `HitDefaults` parameter.
- DepthSampler.DepthFromNdc: the NDC-to-metric conversion of one pixel (near and far clip, square root) is the `pixel` parameter. Only the index clamping is modelled.
- Lidar.LidarSensor.GetPointClouds: `updateCurrentPosition` (the camera axes) is part of the `toCamera` native. `printDepthStats` is output only and is left out.
- Lidar.LidarSensor.Destroy: the destructor and the freeing of memory are left out. Buffers become null.
- Lidar.LidarSensor.VehicleLookUpTable: the label file's path and reading are replaced by the lines parameter.
- `getVertiSmplNum`, `getHorizSmplNum` and `getCurType` are plain field reads (`verti.smplNum`, `horiz.smplNum`, `initType`).

## Findings

| source | as written | input that shows it | evidently intended | confidence | as-written member | corrected member |
|---|---|---|---|---|---|---|
| LiDAR.cpp:320-321 | the 2D case has no `break`, so a 2D scan also runs the ring loop with whatever vertical fields remain | Init3D(10, 6, 330, 30, 2, 45, 125) rejects the horizontal limits but keeps the vertical ones; Init2D(10, 6, 30, 330) then does not destroy; the scan sweeps rings at 125 and 85 besides the plane | a 2D scan sweeps only the horizontal plane | high, not executed | Lidar.StaleRingsReachable | ScanPattern.IntendedScan2DIsPlanar |
| LiDAR.cpp:997-1000 | each loop tests the previous angle before computing the next, so the first right-side angle riLimit is never compared with 360, and the last angle is compared only after its beam is written | HorizConfig(le 10, ri 350, n 2, res 10): the right-side guard 350 < 350 fails at once; the sweep emits only azimuth 0 | the sweep emits n beams from riLimit round to leLimit | medium, not executed | ScanPattern.SweepDropsRightLimit | ScanPattern.IntendedSweepExactCount |
| LiDAR.cpp:66 | the 2D cloud is `malloc(horizSmplNum * sizeof(float))`, one float per sample | Init2D with 6 samples allocates 6 floats; the first depth-map record the sweep stores writes 7 | seven floats per sample | high, not executed | Lidar.Alloc2DAsWrittenTooSmall | Lidar.Alloc2DHoldsSweep |
| LiDAR.cpp:663-667 | the entity-id pixel is `floor(x * W - 0.5)`, which is -1 within half a pixel of the left or top edge | screen (0, 0) on a 4 x 4 camera reads `m_pInstanceSeg[-5]` | the pixel `addToHitEntities` reads (truncation, LiDAR.cpp:568-569), which stays on screen | high, not executed | HitTracker.SegPixelAsWrittenLeavesBuffer | HitTracker.HitPixelOnScreen |
| LiDAR.cpp:917-933 | in 2D only the point cloud is allocated, yet the 2D map (624-628) and the updated and ray-cast clouds are written through NULL | a 2D sensor in a build that ray-casts or writes the 2D map; its first beam writes a null buffer | allocate those buffers in 2D as in 3D | high, not executed | Lidar.LidarSensor.NoRoomIn2D | Lidar.Alloc2DHoldsSweep |
| LiDAR.cpp:231-236 | the update pass writes each in-range kept hit to the updated cloud, which is allocated only in 3D | a 2D sensor that keeps an on-screen hit within range; the update pass after the scan writes its record through NULL | allocate the updated cloud in 2D as in 3D, one seven-float slot per sample | high, not executed | Lidar.LidarSensor.NoRoomToUpdateIn2D | Lidar.Alloc2DHoldsUpdate |
| LiDAR.cpp:1057-1058 | keys keep their case while lookups lower-case the query (681-691) | a label line "Adder,Car": the key "Adder" never matches any query | keys lower-cased like the queries | high, not executed | VehicleTable.CapitalKeyNeverMatches | VehicleTable.LoweredKeyResolves |
| LiDAR.cpp:1061-1073 | truncations are inserted in line order and a map insert never overwrites, so a longer model's truncation shadows a later line's own model name | lines "civiccar,Car" then "civic,Bike": "civic" resolves to Car | a line's own model name takes precedence over other lines' truncations | low, not executed | VehicleTable.TruncationShadowsLaterModel | VehicleTable.ModelNameWins |
