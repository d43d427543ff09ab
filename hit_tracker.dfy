/** The per-scan record of the entities the beams hit, keyed by entity id, and the
    pixel arithmetic that finds an entity id in the instance-segmentation buffer. */
module HitTracker {
  import opened Geometry
  import opened Engine

  /** One hit entity: its forward axis, its position relative to the camera, the
      number of points that hit it and the extent of the hits along its forward
      axis. */
  datatype HitEntity = HitEntity(forward: Vec3, position: Vec3, pointsHit: int,
                                 maxFront: real, maxBack: real)

  /** The counters a newly created entry starts with. */
  datatype HitDefaults = HitDefaults(pointsHit: int, maxFront: real, maxBack: real)

  type HitMap = map<int, HitEntity>

  /** The entry created for an entity seen for the first time: its entity-matrix
      forward axis and its position made relative to the camera. */
  function NewEntry(info: EntityInfo, cam: CamParams, defaults: HitDefaults): (e: HitEntity)
    ensures e.forward == info.matrixForward
    ensures Add(e.position, cam.pos) == info.matrixPosition
  {
    HitEntity(info.matrixForward, Sub(info.matrixPosition, cam.pos),
              defaults.pointsHit, defaults.maxFront, defaults.maxBack)
  }

  // ---------------------------------------------------------------------------
  // Pixels
  // ---------------------------------------------------------------------------

  /** Conversion of a float to an int, which truncates toward zero. */
  function Trunc(r: real): (n: int)
    ensures -1.0 < r - n as real < 1.0
    ensures 0.0 <= r ==> 0 <= n && n as real <= r
    ensures r <= 0.0 ==> n <= 0 && r <= n as real
  {
    if r >= 0.0 then r.Floor else -((-r).Floor)
  }

  /** The pixel the hit counter reads: the screen position scaled to pixels, half a
      pixel back, truncated toward zero. */
  function HitPixel(sx: real, sy: real, cam: CamParams): (int, int) {
    (Trunc(sx * cam.width as real - 0.5), Trunc(sy * cam.height as real - 0.5))
  }

  /** The buffer offset of a pixel in the row-major segmentation buffer. */
  function PixelOffset(x: int, y: int, cam: CamParams): int {
    y * cam.width + x
  }

  /** For any on-screen position the hit counter's pixel lies on the screen. */
  lemma {:induction false} HitPixelOnScreen(sx: real, sy: real, cam: CamParams)
    requires cam.width >= 1 && cam.height >= 1
    requires 0.0 <= sx <= 1.0 && 0.0 <= sy <= 1.0
    ensures var p := HitPixel(sx, sy, cam);
      0 <= p.0 < cam.width && 0 <= p.1 < cam.height
  {
    TruncInPixels(sx, cam.width);
    TruncInPixels(sy, cam.height);
  }

  lemma {:induction false} TruncInPixels(s: real, n: int)
    requires n >= 1 && 0.0 <= s <= 1.0
    ensures 0 <= Trunc(s * n as real - 0.5) < n
  {
    ScaleWithin(s, n as real);
  }

  /** A pixel on the screen has an offset inside the width * height buffer. */
  lemma {:induction false} PixelOffsetInBuffer(x: int, y: int, cam: CamParams)
    requires 0 <= x < cam.width && 0 <= y < cam.height
    ensures 0 <= PixelOffset(x, y, cam) < cam.width * cam.height
  {
    RowBound(y, cam.height, cam.width);
  }

  lemma {:induction false} RowBound(y: int, h: int, w: int)
    requires 0 <= y < h && 0 < w
    ensures 0 <= y * w && y * w + w <= h * w
  {
    var rest := h - y - 1;
    assert h * w == rest * w + y * w + w;
    NonNegProduct(rest, w);
    NonNegProduct(y, w);
  }

  lemma NonNegProduct(a: int, b: int)
    requires 0 <= a && 0 <= b
    ensures 0 <= a * b
  {
  }

  /** The pixel the point writer reads its entity id from, as written: the same
      scaled and shifted position, rounded down rather than truncated. */
  function SegPixelAsWritten(sx: real, sy: real, cam: CamParams): (int, int) {
    ((sx * cam.width as real - 0.5).Floor, (sy * cam.height as real - 0.5).Floor)
  }

  /** As written, a position on screen but within half a pixel of the left or top
      edge reads pixel -1: the top-left corner of a 4 x 4 buffer reads offset -5,
      before the start of the buffer, while the hit counter reads pixel (0, 0). */
  lemma {:induction false} SegPixelAsWrittenLeavesBuffer()
    ensures var cam := CamParams(4, 4, Vec3(0.0, 0.0, 0.0));
      && SegPixelAsWritten(0.0, 0.0, cam) == (-1, -1)
      && PixelOffset(-1, -1, cam) == -5
      && HitPixel(0.0, 0.0, cam) == (0, 0)
  {
    assert (-0.5).Floor == -1;
  }

  /** Away from the left and top edges the two roundings pick the same pixel, so
      reading the entity id at HitPixel changes only the edge case. */
  lemma {:induction false} SegPixelAgreesInside(sx: real, sy: real, cam: CamParams)
    requires 0.0 <= sx * cam.width as real - 0.5 && 0.0 <= sy * cam.height as real - 0.5
    ensures SegPixelAsWritten(sx, sy, cam) == HitPixel(sx, sy, cam)
  {
  }

  // ---------------------------------------------------------------------------
  // Map updates
  // ---------------------------------------------------------------------------

  /** A depth-map point hit entity `id`: id 0 (no entity) is ignored, a known entity
      counts one more point, an unknown one gets a new entry. */
  function AddHit(m: HitMap, id: int, created: HitEntity): (r: HitMap)
    ensures r.Keys == if id == 0 then m.Keys else m.Keys + {id}
    ensures forall k :: k in m && k != id ==> r[k] == m[k]
    ensures id == 0 ==> r == m
    ensures id != 0 && id in m ==> r[id] == m[id].(pointsHit := m[id].pointsHit + 1)
    ensures id != 0 && id !in m ==> r[id] == created
  {
    if id == 0 then m
    else if id in m then m[id := m[id].(pointsHit := m[id].pointsHit + 1)]
    else m[id := created]
  }

  /** The offset of a ray-cast end point along an entity's forward axis, measured from
      the entity's position. */
  function ForwardOffset(e: HitEntity, vec: Vec3): real {
    Dot(Sub(vec, e.position), e.forward)
  }

  /** A ray-cast end point `vec` (relative to the camera) hit entity `id`: a known
      entity counts one more point and its extent is widened to cover the point; an
      unknown one gets a new entry. Id 0 is not skipped. */
  function RayExtent(m: HitMap, id: int, vec: Vec3, created: HitEntity): (r: HitMap)
    ensures r.Keys == m.Keys + {id}
    ensures forall k :: k in m && k != id ==> r[k] == m[k]
    ensures id !in m ==> r[id] == created
  {
    if id in m then
      var e := m[id];
      var f := ForwardOffset(e, vec);
      m[id := e.(pointsHit := e.pointsHit + 1,
                 maxFront := if f > e.maxFront then f else e.maxFront,
                 maxBack := if f < e.maxBack then f else e.maxBack)]
    else
      m[id := created]
  }

  /** On a known entity the extent only grows: the front never moves back, the back
      never moves forward, the new point lies between them, and each bound is the
      extreme of the old bound and the point. */
  lemma {:induction false} RayExtentWidens(m: HitMap, id: int, vec: Vec3, created: HitEntity)
    requires id in m
    ensures var e, e' := m[id], RayExtent(m, id, vec, created)[id];
      var f := ForwardOffset(e, vec);
      && e'.maxFront >= e.maxFront && e'.maxBack <= e.maxBack
      && e'.maxFront >= f && e'.maxBack <= f
      && (e'.maxFront == e.maxFront || e'.maxFront == f)
      && (e'.maxBack == e.maxBack || e'.maxBack == f)
      && e'.pointsHit == e.pointsHit + 1
      && e'.forward == e.forward && e'.position == e.position
  {
  }

  /** Hits from a sequence of ids, in order. */
  function AddHits(m: HitMap, ids: seq<int>, created: HitEntity): HitMap
    decreases |ids|
  {
    if ids == [] then m else AddHits(AddHit(m, ids[0], created), ids[1..], created)
  }

  function Count(ids: seq<int>, id: int): nat {
    if ids == [] then 0 else (if ids[0] == id then 1 else 0) + Count(ids[1..], id)
  }

  /** Over a sequence of depth-map hits an entity that was already known counts exactly
      the hits that carry its id; id 0 never gets an entry. */
  lemma {:induction false} AddHitsCounts(m: HitMap, ids: seq<int>, created: HitEntity, id: int)
    requires id in m
    ensures id in AddHits(m, ids, created)
    ensures AddHits(m, ids, created)[id].pointsHit == m[id].pointsHit + (if id == 0 then 0 else Count(ids, id))
    ensures 0 !in m ==> 0 !in AddHits(m, ids, created)
    decreases |ids|
  {
    if ids != [] {
      var m1 := AddHit(m, ids[0], created);
      AddHitsCounts(m1, ids[1..], created, id);
    }
  }

  // ---------------------------------------------------------------------------
  // The caller's map, updated in place
  // ---------------------------------------------------------------------------

  /** The map of hit entities the caller passes to a scan; the scan adds to it in
      place. */
  class EntityHits {
    var entities: HitMap

    constructor ()
      ensures entities == map[]
    {
      entities := map[];
    }

    /** Counts a depth-map point on entity `id`; `created` is the entry made for an
        entity not seen before. */
    method AddToHitEntities(id: int, created: HitEntity)
      modifies this
      ensures entities == AddHit(old(entities), id, created)
    {
      if id == 0 {
        return;
      }
      if id in entities {
        var e := entities[id];
        entities := entities[id := e.(pointsHit := e.pointsHit + 1)];
      } else {
        entities := entities[id := created];
      }
    }

    /** Counts a ray-cast point on entity `id` at `vec` and widens the entity's
        extent along its forward axis. */
    method RecordRayHit(id: int, vec: Vec3, created: HitEntity)
      modifies this
      ensures entities == RayExtent(old(entities), id, vec, created)
    {
      if id in entities {
        var e := entities[id];
        var f := Dot(Sub(vec, e.position), e.forward);
        var front := e.maxFront;
        var back := e.maxBack;
        if f > front {
          front := f;
        }
        if f < back {
          back := f;
        }
        entities := entities[id := e.(pointsHit := e.pointsHit + 1, maxFront := front, maxBack := back)];
      } else {
        entities := entities[id := created];
      }
    }
  }
}
