/**
  World-space bounds of the mesh geometry in a Blender scene: the running
  per-axis min/max fold over bounding-box corners that both the batch renderer
  and the size inspector perform, and the centre and dimensions derived from it.
*/
module Geometry {
  import opened Wrappers

  datatype Vec3 = Vec3(x: real, y: real, z: real)

  /** The Blender object types the core distinguishes; only meshes contribute bounds. */
  datatype ObjectKind = Mesh | Empty | Camera | Light | OtherKind

  /** The eight corners of an object's bounding box, already mapped to world space. */
  datatype BoundBox = BoundBox(c0: Vec3, c1: Vec3, c2: Vec3, c3: Vec3, c4: Vec3, c5: Vec3, c6: Vec3, c7: Vec3)

  function Corners(b: BoundBox): (r: seq<Vec3>)
    ensures |r| == 8
  {
    [b.c0, b.c1, b.c2, b.c3, b.c4, b.c5, b.c6, b.c7]
  }

  /** A scene object: its type and its world-space bounding box. */
  datatype SceneObject = SceneObject(kind: ObjectKind, boundBox: BoundBox)

  /** An axis-aligned box given by its lowest and highest corner. */
  datatype Box = Box(lo: Vec3, hi: Vec3)

  predicate Inside(p: Vec3, b: Box) {
    && b.lo.x <= p.x <= b.hi.x
    && b.lo.y <= p.y <= b.hi.y
    && b.lo.z <= p.z <= b.hi.z
  }

  predicate Encloses(outer: Box, inner: Box) {
    && outer.lo.x <= inner.lo.x && inner.hi.x <= outer.hi.x
    && outer.lo.y <= inner.lo.y && inner.hi.y <= outer.hi.y
    && outer.lo.z <= inner.lo.z && inner.hi.z <= outer.hi.z
  }

  /** Python's min(a, b) and max(a, b) on two numbers. */
  function Min(a: real, b: real): real { if b < a then b else a }
  function Max(a: real, b: real): real { if b > a then b else a }

  /** The box grown to take in one more point (a point box when there is none yet). */
  function Grow(acc: Option<Box>, p: Vec3): Box {
    match acc
    case None => Box(p, p)
    case Some(b) =>
      Box(Vec3(Min(b.lo.x, p.x), Min(b.lo.y, p.y), Min(b.lo.z, p.z)),
          Vec3(Max(b.hi.x, p.x), Max(b.hi.y, p.y), Max(b.hi.z, p.z)))
  }

  /** The bounds of a point sequence, folded left to right; None for no points. */
  function BoundsOf(pts: seq<Vec3>): (r: Option<Box>)
    ensures r.Some? <==> |pts| > 0
    ensures r.Some? ==> forall i :: 0 <= i < |pts| ==> Inside(pts[i], r.value)
    decreases |pts|
  {
    if pts == [] then None
    else Some(Grow(BoundsOf(pts[..|pts| - 1]), pts[|pts| - 1]))
  }

  /** BoundsOf is the smallest box holding every point. */
  lemma {:induction false} BoundsOfSmallest(pts: seq<Vec3>, b: Box)
    requires |pts| > 0
    requires forall i :: 0 <= i < |pts| ==> Inside(pts[i], b)
    ensures Encloses(b, BoundsOf(pts).value)
  {
    if |pts| > 1 {
      BoundsOfSmallest(pts[..|pts| - 1], b);
    }
  }

  /** Number of MESH objects in the scene. */
  function CountMeshes(objs: seq<SceneObject>): nat
    decreases |objs|
  {
    if objs == [] then 0
    else CountMeshes(objs[..|objs| - 1]) + (if objs[|objs| - 1].kind == Mesh then 1 else 0)
  }

  /** The corners of every MESH object, in scene order. */
  function MeshCorners(objs: seq<SceneObject>): seq<Vec3>
    decreases |objs|
  {
    if objs == [] then []
    else
      var last := objs[|objs| - 1];
      MeshCorners(objs[..|objs| - 1]) + (if last.kind == Mesh then Corners(last.boundBox) else [])
  }

  /** Eight corners per mesh: there are corners exactly when there is a mesh. */
  lemma {:induction false} MeshCornersCount(objs: seq<SceneObject>)
    ensures |MeshCorners(objs)| == 8 * CountMeshes(objs)
  {
    if objs != [] {
      MeshCornersCount(objs[..|objs| - 1]);
    }
  }

  /** A running bound in Python floats, starting at float('inf') or float('-inf'). */
  datatype Ext = NegInf | Fin(v: real) | PosInf

  /** min(a, v) where a may be infinite. */
  function MinExt(a: Ext, v: real): Ext {
    match a
    case PosInf => Fin(v)
    case NegInf => NegInf
    case Fin(u) => Fin(Min(u, v))
  }

  /** max(a, v) where a may be infinite. */
  function MaxExt(a: Ext, v: real): Ext {
    match a
    case NegInf => Fin(v)
    case PosInf => PosInf
    case Fin(u) => Fin(Max(u, v))
  }

  /** The six running variables hold exactly the bounds `b` (the infinities when there are none). */
  predicate Tracks(b: Option<Box>, minX: Ext, maxX: Ext, minY: Ext, maxY: Ext, minZ: Ext, maxZ: Ext) {
    match b
    case None =>
      minX == PosInf && maxX == NegInf && minY == PosInf && maxY == NegInf && minZ == PosInf && maxZ == NegInf
    case Some(bx) =>
      && minX == Fin(bx.lo.x) && maxX == Fin(bx.hi.x)
      && minY == Fin(bx.lo.y) && maxY == Fin(bx.hi.y)
      && minZ == Fin(bx.lo.z) && maxZ == Fin(bx.hi.z)
  }

  /** One more corner: the running minima and maxima follow the grown box. */
  lemma TracksGrow(b: Option<Box>, c: Vec3, minX: Ext, maxX: Ext, minY: Ext, maxY: Ext, minZ: Ext, maxZ: Ext)
    requires Tracks(b, minX, maxX, minY, maxY, minZ, maxZ)
    ensures Tracks(Some(Grow(b, c)), MinExt(minX, c.x), MaxExt(maxX, c.x), MinExt(minY, c.y),
                   MaxExt(maxY, c.y), MinExt(minZ, c.z), MaxExt(maxZ, c.z))
  {
  }

  /** Folds the six running variables over more corners, continuing from the bounds of `done`. */
  method FoldCorners(ghost done: seq<Vec3>, corners: seq<Vec3>,
                     minX0: Ext, maxX0: Ext, minY0: Ext, maxY0: Ext, minZ0: Ext, maxZ0: Ext)
    returns (minX: Ext, maxX: Ext, minY: Ext, maxY: Ext, minZ: Ext, maxZ: Ext)
    requires Tracks(BoundsOf(done), minX0, maxX0, minY0, maxY0, minZ0, maxZ0)
    ensures Tracks(BoundsOf(done + corners), minX, maxX, minY, maxY, minZ, maxZ)
  {
    minX, maxX, minY, maxY, minZ, maxZ := minX0, maxX0, minY0, maxY0, minZ0, maxZ0;
    var j := 0;
    assert done + corners[..0] == done;
    while j < |corners|
      invariant 0 <= j <= |corners|
      invariant Tracks(BoundsOf(done + corners[..j]), minX, maxX, minY, maxY, minZ, maxZ)
    {
      var c := corners[j];
      assert (done + corners[..j + 1])[..|done| + j] == done + corners[..j];
      TracksGrow(BoundsOf(done + corners[..j]), c, minX, maxX, minY, maxY, minZ, maxZ);
      minX := MinExt(minX, c.x);
      maxX := MaxExt(maxX, c.x);
      minY := MinExt(minY, c.y);
      maxY := MaxExt(maxY, c.y);
      minZ := MinExt(minZ, c.z);
      maxZ := MaxExt(maxZ, c.z);
      j := j + 1;
    }
    assert corners[..j] == corners;
  }

  /**
    The corner loop: counts the MESH objects and folds the six running
    min/max variables over all their corners. The bounds are present exactly
    when a mesh was seen, and are the bounds of all mesh corners.
  */
  method FoldMeshBounds(objs: seq<SceneObject>) returns (meshCount: nat, bounds: Option<Box>)
    ensures meshCount == CountMeshes(objs)
    ensures bounds == BoundsOf(MeshCorners(objs))
    ensures bounds.Some? <==> meshCount > 0
  {
    var minX, maxX, minY, maxY, minZ, maxZ := PosInf, NegInf, PosInf, NegInf, PosInf, NegInf;
    meshCount := 0;
    var i := 0;
    while i < |objs|
      invariant 0 <= i <= |objs|
      invariant meshCount == CountMeshes(objs[..i])
      invariant Tracks(BoundsOf(MeshCorners(objs[..i])), minX, maxX, minY, maxY, minZ, maxZ)
    {
      var obj := objs[i];
      assert objs[..i + 1][..i] == objs[..i];
      ghost var done := MeshCorners(objs[..i]);
      if obj.kind == Mesh {
        meshCount := meshCount + 1;
        minX, maxX, minY, maxY, minZ, maxZ := FoldCorners(done, Corners(obj.boundBox), minX, maxX, minY, maxY, minZ, maxZ);
        assert MeshCorners(objs[..i + 1]) == done + Corners(obj.boundBox);
      } else {
        assert MeshCorners(objs[..i + 1]) == done + [] == done;
      }
      i := i + 1;
    }
    assert objs[..i] == objs;
    MeshCornersCount(objs);
    if meshCount == 0 {
      bounds := None;
    } else {
      bounds := Some(Box(Vec3(minX.v, minY.v, minZ.v), Vec3(maxX.v, maxY.v, maxZ.v)));
    }
  }

  /** Midpoint of the box on each axis. */
  function Center(b: Box): Vec3 {
    Vec3((b.lo.x + b.hi.x) / 2.0, (b.lo.y + b.hi.y) / 2.0, (b.lo.z + b.hi.z) / 2.0)
  }

  /** Width, height and depth: the extent of the box on each axis. */
  function Dims(b: Box): Vec3 {
    Vec3(b.hi.x - b.lo.x, b.hi.y - b.lo.y, b.hi.z - b.lo.z)
  }

  /**
    For the bounds of at least one point: every dimension is non-negative and
    the centre lies inside the box, half a dimension from either face.
  */
  lemma BoundsFraming(pts: seq<Vec3>)
    requires |pts| > 0
    ensures var b := BoundsOf(pts).value;
      && b.lo.x <= b.hi.x && b.lo.y <= b.hi.y && b.lo.z <= b.hi.z
      && Dims(b).x >= 0.0 && Dims(b).y >= 0.0 && Dims(b).z >= 0.0
      && Inside(Center(b), b)
      && Center(b).x - b.lo.x == b.hi.x - Center(b).x == Dims(b).x / 2.0
      && Center(b).y - b.lo.y == b.hi.y - Center(b).y == Dims(b).y / 2.0
      && Center(b).z - b.lo.z == b.hi.z - Center(b).z == Dims(b).z / 2.0
  {
    assert Inside(pts[0], BoundsOf(pts).value);
  }
}
