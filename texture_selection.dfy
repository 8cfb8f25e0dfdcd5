/** The first loop of `ModelDrawer::DrawModel` (src/Modeler/ModelDrawer.cc:54-96):
    for every triangle of the current mesh, the frames of the batch that may texture
    it and the texture coordinates of its three vertices in each such frame. */
module TextureSelection {
  import opened Geometry
  import opened Meshes

  /** Pixel size of a frame's image (`cv::Mat::size()`). */
  datatype ImageSize = ImageSize(width: nat, height: nat)

  /** What the selection reads of one entry of the frame batch: the size of its image
      and the orientation its `TextureFrame` reports (already widened to three reals). */
  datatype FrameView = FrameView(imSize: ImageSize, orientation: Vec3)

  /** `TextureFrame::GetTexCoordinate` of the frame with the given batch index, applied
      to a world point and the image size. The source accepts the result only when it
      has exactly two elements (u, v); any other length means "not visible". */
  type TexCoordOracle = (nat, Vec3, ImageSize) -> seq<real>

  /** One recorded entry: the batch index of a frame and the six scalars
      u0, v0, u1, v1, u2, v2 that map the triangle's vertices into its image. */
  datatype Assignment = Assignment(frameIdx: nat, uv: seq<real>)

  /** The unnormalised normal `(P2 - P0) × (P1 - P0)`; the source divides it by its norm,
      which does not change the sign of the facing test (NormalisedFacing). */
  function FaceNormal(p0: Vec3, p1: Vec3, p2: Vec3): Vec3 {
    Cross(Sub(p2, p0), Sub(p1, p0))
  }

  /** The triangle faces frame `f`: the normal has a strictly positive dot product
      with the frame's orientation. */
  predicate Facing(points: seq<Vec3>, tri: Triangle, frames: seq<FrameView>, f: nat)
    requires TriangleInBounds(points, tri) && f < |frames|
  {
    Dot(FaceNormal(points[tri.i0], points[tri.i1], points[tri.i2]), frames[f].orientation) > 0.0
  }

  /** The source divides the normal by its norm before the dot product
      (src/Modeler/ModelDrawer.cc:67). For any positive norm `k` that test agrees with
      `Facing`, which uses the unnormalised normal. */
  lemma NormalisedFacing(points: seq<Vec3>, tri: Triangle, frames: seq<FrameView>, f: nat, k: real)
    requires TriangleInBounds(points, tri) && f < |frames| && k > 0.0
    ensures Facing(points, tri, frames, f) <==>
            Dot(Scale(FaceNormal(points[tri.i0], points[tri.i1], points[tri.i2]), 1.0 / k), frames[f].orientation) > 0.0
  {
    PositiveScaleKeepsSign(FaceNormal(points[tri.i0], points[tri.i1], points[tri.i2]), frames[f].orientation, k);
  }

  /** All three vertices project into frame `f` with a two-element result. */
  predicate Projects(points: seq<Vec3>, tri: Triangle, frames: seq<FrameView>, texCoord: TexCoordOracle, f: nat)
    requires TriangleInBounds(points, tri) && f < |frames|
  {
    |texCoord(f, points[tri.i0], frames[f].imSize)| == 2 &&
    |texCoord(f, points[tri.i1], frames[f].imSize)| == 2 &&
    |texCoord(f, points[tri.i2], frames[f].imSize)| == 2
  }

  /** Frame `f` textures the triangle. */
  predicate Kept(points: seq<Vec3>, tri: Triangle, frames: seq<FrameView>, texCoord: TexCoordOracle, f: nat)
    requires TriangleInBounds(points, tri) && f < |frames|
  {
    Facing(points, tri, frames, f) && Projects(points, tri, frames, texCoord, f)
  }

  /** The three per-vertex projections, concatenated in vertex order 0, 1, 2. */
  function Uvs(points: seq<Vec3>, tri: Triangle, frames: seq<FrameView>, texCoord: TexCoordOracle, f: nat): seq<real>
    requires TriangleInBounds(points, tri) && f < |frames|
  {
    texCoord(f, points[tri.i0], frames[f].imSize)
      + texCoord(f, points[tri.i1], frames[f].imSize)
      + texCoord(f, points[tri.i2], frames[f].imSize)
  }

  /** The assignment list of one triangle built from the first `n` frames of the batch. */
  function VisibleUpTo(points: seq<Vec3>, tri: Triangle, frames: seq<FrameView>, texCoord: TexCoordOracle, n: nat): seq<Assignment>
    requires TriangleInBounds(points, tri) && n <= |frames|
  {
    if n == 0 then []
    else
      VisibleUpTo(points, tri, frames, texCoord, n - 1)
        + (if Kept(points, tri, frames, texCoord, n - 1)
           then [Assignment(n - 1, Uvs(points, tri, frames, texCoord, n - 1))]
           else [])
  }

  /** The assignment list of one triangle (`visibleTextures`). */
  function VisibleTextures(points: seq<Vec3>, tri: Triangle, frames: seq<FrameView>, texCoord: TexCoordOracle): seq<Assignment>
    requires TriangleInBounds(points, tri)
  {
    VisibleUpTo(points, tri, frames, texCoord, |frames|)
  }

  /** The lists of the first `n` triangles. */
  function TexturesUpTo(points: seq<Vec3>, tris: seq<Triangle>, frames: seq<FrameView>, texCoord: TexCoordOracle, n: nat): seq<seq<Assignment>>
    requires AllInBounds(points, tris) && n <= |tris|
  {
    if n == 0 then []
    else TexturesUpTo(points, tris, frames, texCoord, n - 1) + [VisibleTextures(points, tris[n - 1], frames, texCoord)]
  }

  /** `triangleTextures`: one list per triangle of the mesh. */
  function TriangleTextures(points: seq<Vec3>, tris: seq<Triangle>, frames: seq<FrameView>, texCoord: TexCoordOracle): seq<seq<Assignment>>
    requires AllInBounds(points, tris)
  {
    TexturesUpTo(points, tris, frames, texCoord, |tris|)
  }

  /** The nested loop of the source: per triangle, per frame in batch order, test the
      facing direction, project the three vertices, and push the entry when all three
      projections have two elements. */
  method SelectTextures(points: seq<Vec3>, tris: seq<Triangle>, frames: seq<FrameView>, texCoord: TexCoordOracle)
    returns (triangleTextures: seq<seq<Assignment>>)
    requires AllInBounds(points, tris)
    ensures triangleTextures == TriangleTextures(points, tris, frames, texCoord)
    ensures |triangleTextures| == |tris|
    ensures forall i :: 0 <= i < |tris| ==> triangleTextures[i] == VisibleTextures(points, tris[i], frames, texCoord)
  {
    var numKFs := |frames|;
    triangleTextures := [];
    var t := 0;
    while t < |tris|
      invariant 0 <= t <= |tris|
      invariant triangleTextures == TexturesUpTo(points, tris, frames, texCoord, t)
    {
      var triangle := tris[t];
      var visibleTextures: seq<Assignment> := [];
      var point0, point1, point2 := points[triangle.i0], points[triangle.i1], points[triangle.i2];
      var normal := Cross(Sub(point2, point0), Sub(point1, point0));
      var frameIdx := 0;
      while frameIdx < numKFs
        invariant 0 <= frameIdx <= numKFs
        invariant visibleTextures == VisibleUpTo(points, triangle, frames, texCoord, frameIdx)
      {
        var dotProduct := Dot(normal, frames[frameIdx].orientation);
        if dotProduct > 0.0 {
          var imSize := frames[frameIdx].imSize;
          var uv0 := texCoord(frameIdx, point0, imSize);
          var uv1 := texCoord(frameIdx, point1, imSize);
          var uv2 := texCoord(frameIdx, point2, imSize);
          if |uv0| == 2 && |uv1| == 2 && |uv2| == 2 {
            visibleTextures := visibleTextures + [Assignment(frameIdx, uv0 + uv1 + uv2)];
          }
        }
        frameIdx := frameIdx + 1;
      }
      triangleTextures := triangleTextures + [visibleTextures];
      t := t + 1;
    }
    TriangleTexturesShape(points, tris, frames, texCoord);
  }

  /** Exactly one list per triangle, in triangle order. */
  lemma TriangleTexturesShape(points: seq<Vec3>, tris: seq<Triangle>, frames: seq<FrameView>, texCoord: TexCoordOracle)
    requires AllInBounds(points, tris)
    ensures |TriangleTextures(points, tris, frames, texCoord)| == |tris|
    ensures forall i :: 0 <= i < |tris| ==>
              TriangleTextures(points, tris, frames, texCoord)[i] == VisibleTextures(points, tris[i], frames, texCoord)
  {
    TexturesUpToShape(points, tris, frames, texCoord, |tris|);
  }

  lemma {:induction false} TexturesUpToShape(points: seq<Vec3>, tris: seq<Triangle>, frames: seq<FrameView>, texCoord: TexCoordOracle, n: nat)
    requires AllInBounds(points, tris) && n <= |tris|
    ensures |TexturesUpTo(points, tris, frames, texCoord, n)| == n
    ensures forall i :: 0 <= i < n ==>
              TexturesUpTo(points, tris, frames, texCoord, n)[i] == VisibleTextures(points, tris[i], frames, texCoord)
  {
    if n > 0 {
      TexturesUpToShape(points, tris, frames, texCoord, n - 1);
    }
  }

  /** Every frame index of `l` is below `n`. */
  predicate IndicesBelow(l: seq<Assignment>, n: nat) {
    forall i :: 0 <= i < |l| ==> l[i].frameIdx < n
  }

  /** The frame indices of `l` strictly increase from entry to entry. */
  predicate StrictlyIncreasing(l: seq<Assignment>) {
    forall i, j :: 0 <= i < j < |l| ==> l[i].frameIdx < l[j].frameIdx
  }

  /** Every entry of `l` names a frame that textures the triangle and carries that
      frame's three projections. */
  predicate EntriesKept(points: seq<Vec3>, tri: Triangle, frames: seq<FrameView>, texCoord: TexCoordOracle, l: seq<Assignment>)
    requires TriangleInBounds(points, tri)
  {
    forall i :: 0 <= i < |l| ==>
      l[i].frameIdx < |frames| &&
      Kept(points, tri, frames, texCoord, l[i].frameIdx) &&
      l[i].uv == Uvs(points, tri, frames, texCoord, l[i].frameIdx)
  }

  /** Within the list built from the first `n` frames: every frame index is below `n`,
      the indices strictly increase, and every entry carries the frame's six projected
      scalars. */
  lemma {:induction false} VisibleUpToOrdered(points: seq<Vec3>, tri: Triangle, frames: seq<FrameView>, texCoord: TexCoordOracle, n: nat)
    requires TriangleInBounds(points, tri) && n <= |frames|
    ensures IndicesBelow(VisibleUpTo(points, tri, frames, texCoord, n), n)
    ensures StrictlyIncreasing(VisibleUpTo(points, tri, frames, texCoord, n))
    ensures EntriesKept(points, tri, frames, texCoord, VisibleUpTo(points, tri, frames, texCoord, n))
  {
    if n > 0 {
      var prev := VisibleUpTo(points, tri, frames, texCoord, n - 1);
      VisibleUpToOrdered(points, tri, frames, texCoord, n - 1);
      var l := VisibleUpTo(points, tri, frames, texCoord, n);
      if Kept(points, tri, frames, texCoord, n - 1) {
        var a := Assignment(n - 1, Uvs(points, tri, frames, texCoord, n - 1));
        assert l == prev + [a];
        forall i | 0 <= i < |l|
          ensures l[i].frameIdx < n && l[i].frameIdx < |frames|
          ensures Kept(points, tri, frames, texCoord, l[i].frameIdx)
          ensures l[i].uv == Uvs(points, tri, frames, texCoord, l[i].frameIdx)
        {
          if i < |prev| { assert l[i] == prev[i]; } else { assert l[i] == a; }
        }
        forall i, j | 0 <= i < j < |l|
          ensures l[i].frameIdx < l[j].frameIdx
        {
          assert l[i] == prev[i];
          if j < |prev| { assert l[j] == prev[j]; } else { assert l[j] == a; }
        }
      } else {
        assert l == prev;
      }
    }
  }

  /** Frame `f` appears in the list built from the first `n` frames exactly when `f < n`
      and the frame textures the triangle. */
  lemma {:induction false} VisibleUpToMembership(points: seq<Vec3>, tri: Triangle, frames: seq<FrameView>, texCoord: TexCoordOracle, n: nat, f: nat)
    requires TriangleInBounds(points, tri) && n <= |frames| && f < |frames|
    ensures var l := VisibleUpTo(points, tri, frames, texCoord, n);
      (exists i :: 0 <= i < |l| && l[i].frameIdx == f) <==> f < n && Kept(points, tri, frames, texCoord, f)
  {
    if n > 0 {
      var prev := VisibleUpTo(points, tri, frames, texCoord, n - 1);
      var l := VisibleUpTo(points, tri, frames, texCoord, n);
      VisibleUpToMembership(points, tri, frames, texCoord, n - 1, f);
      VisibleUpToOrdered(points, tri, frames, texCoord, n - 1);
      assert forall i :: 0 <= i < |prev| ==> l[i] == prev[i];
      if f < n - 1 {
        if exists i :: 0 <= i < |l| && l[i].frameIdx == f {
          var i :| 0 <= i < |l| && l[i].frameIdx == f;
          assert i < |prev|;
        }
      } else if f == n - 1 {
        if Kept(points, tri, frames, texCoord, f) {
          assert l[|prev|].frameIdx == f;
        }
      }
    }
  }

  /** The properties the drawing loop relies on, for one triangle's list: strictly
      increasing frame indices below the batch size (so no frame twice), a frame is
      present exactly when the triangle faces it and all three vertices project with
      two coordinates, and each entry's uv vector is the three projections in vertex
      order, six scalars long, so `uvCoords[0]` .. `uvCoords[5]` are in range. */
  lemma VisibleTexturesSpec(points: seq<Vec3>, tri: Triangle, frames: seq<FrameView>, texCoord: TexCoordOracle)
    requires TriangleInBounds(points, tri)
    ensures var l := VisibleTextures(points, tri, frames, texCoord);
      (forall i, j :: 0 <= i < j < |l| ==> l[i].frameIdx < l[j].frameIdx) &&
      (forall i, j :: 0 <= i < |l| && 0 <= j < |l| && l[i].frameIdx == l[j].frameIdx ==> i == j) &&
      (forall i :: 0 <= i < |l| ==>
         l[i].frameIdx < |frames| &&
         l[i].uv == Uvs(points, tri, frames, texCoord, l[i].frameIdx) && |l[i].uv| == 6) &&
      (forall f :: 0 <= f < |frames| ==>
         ((exists i :: 0 <= i < |l| && l[i].frameIdx == f) <==>
          Facing(points, tri, frames, f) && Projects(points, tri, frames, texCoord, f)))
  {
    var l := VisibleTextures(points, tri, frames, texCoord);
    assert l == VisibleUpTo(points, tri, frames, texCoord, |frames|);
    VisibleUpToOrdered(points, tri, frames, texCoord, |frames|);
    forall f | 0 <= f < |frames|
      ensures (exists i :: 0 <= i < |l| && l[i].frameIdx == f) <==>
              Facing(points, tri, frames, f) && Projects(points, tri, frames, texCoord, f)
    {
      VisibleUpToMembership(points, tri, frames, texCoord, |frames|, f);
    }
  }

  /** A triangle that faces away from (or is edge-on to) a frame never lists it,
      whatever the projections return. */
  lemma BackFacingNeverListed(points: seq<Vec3>, tri: Triangle, frames: seq<FrameView>, texCoord: TexCoordOracle, f: nat)
    requires TriangleInBounds(points, tri) && f < |frames|
    requires !Facing(points, tri, frames, f)
    ensures forall a :: a in VisibleTextures(points, tri, frames, texCoord) ==> a.frameIdx != f
  {
    VisibleTexturesSpec(points, tri, frames, texCoord);
  }

  /** A degenerate triangle (zero cross product) faces no frame, so its list is empty. */
  lemma {:induction false} DegenerateHasNoTextures(points: seq<Vec3>, tri: Triangle, frames: seq<FrameView>, texCoord: TexCoordOracle, n: nat)
    requires TriangleInBounds(points, tri) && n <= |frames|
    requires FaceNormal(points[tri.i0], points[tri.i1], points[tri.i2]) == Zero
    ensures VisibleUpTo(points, tri, frames, texCoord, n) == []
  {
    if n > 0 {
      DegenerateHasNoTextures(points, tri, frames, texCoord, n - 1);
    }
  }

  /** An empty frame batch gives every triangle an empty list. */
  lemma EmptyBatchGivesEmptyLists(points: seq<Vec3>, tris: seq<Triangle>, texCoord: TexCoordOracle)
    requires AllInBounds(points, tris)
    ensures var r := TriangleTextures(points, tris, [], texCoord);
      |r| == |tris| && forall i :: 0 <= i < |r| ==> r[i] == []
  {
    TriangleTexturesShape(points, tris, [], texCoord);
  }

  /** The triangle (0,0,0), (1,0,0), (0,1,0) with indices (0, 1, 2): its normal as the
      source computes it is (0, 0, -1). */
  const UnitPoints: seq<Vec3> := [Vec3(0.0, 0.0, 0.0), Vec3(1.0, 0.0, 0.0), Vec3(0.0, 1.0, 0.0)]
  const UnitTriangle: Triangle := Triangle(0, 1, 2)

  /** With one frame oriented along (0, 0, -1) and projections that all succeed, the
      unit triangle's list holds exactly that frame, with the three projections. */
  lemma UnitTriangleFacingMinusZ(imSize: ImageSize, texCoord: TexCoordOracle)
    requires forall p :: |texCoord(0, p, imSize)| == 2
    ensures var frames := [FrameView(imSize, Vec3(0.0, 0.0, -1.0))];
      VisibleTextures(UnitPoints, UnitTriangle, frames, texCoord)
        == [Assignment(0, Uvs(UnitPoints, UnitTriangle, frames, texCoord, 0))]
  {
    var frames := [FrameView(imSize, Vec3(0.0, 0.0, -1.0))];
    assert FaceNormal(UnitPoints[0], UnitPoints[1], UnitPoints[2]) == Vec3(0.0, 0.0, -1.0);
    assert Kept(UnitPoints, UnitTriangle, frames, texCoord, 0);
    assert VisibleUpTo(UnitPoints, UnitTriangle, frames, texCoord, 0) == [];
    assert VisibleTextures(UnitPoints, UnitTriangle, frames, texCoord)
        == VisibleUpTo(UnitPoints, UnitTriangle, frames, texCoord, 1);
  }

  /** With one frame oriented along (0, 0, 1) the unit triangle faces away (dot = -1):
      its list is empty whatever the projections return. */
  lemma UnitTriangleFacingPlusZ(imSize: ImageSize, texCoord: TexCoordOracle)
    ensures VisibleTextures(UnitPoints, UnitTriangle, [FrameView(imSize, Vec3(0.0, 0.0, 1.0))], texCoord) == []
  {
    var frames := [FrameView(imSize, Vec3(0.0, 0.0, 1.0))];
    assert FaceNormal(UnitPoints[0], UnitPoints[1], UnitPoints[2]) == Vec3(0.0, 0.0, -1.0);
    assert !Facing(UnitPoints, UnitTriangle, frames, 0);
    assert VisibleUpTo(UnitPoints, UnitTriangle, frames, texCoord, 0) == [];
    assert VisibleTextures(UnitPoints, UnitTriangle, frames, texCoord)
        == VisibleUpTo(UnitPoints, UnitTriangle, frames, texCoord, 1);
  }
}
