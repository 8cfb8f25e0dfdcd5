/** `ModelDrawer` (include/Modeler/ModelDrawer.h:26-60): the two handshake flags and the
    two mesh slots, updated in place by the consumer's `UpdateModel` and the producer's
    `SetUpdatedModel` and `MarkUpdateDone`. Every state-changing method is tied to the
    transition of module Handshake, where sequences of calls are reasoned about. */
module Drawer {
  import opened Geometry
  import opened Meshes
  import opened Wrappers
  import Handshake
  import opened TextureSelection

  class ModelDrawer {
    var updateRequested: bool  // mbModelUpdateRequested
    var updateDone: bool       // mbModelUpdateDone
    var model: Mesh            // mModel, the consumer's current mesh
    var updatedModel: Mesh     // mUpdatedModel, the producer's staging mesh

    /** The handshake invariant: the flags are never both false. */
    ghost predicate Valid()
      reads this
    {
      Handshake.Inv(State())
    }

    /** The whole state of the object as a value. */
    ghost function State(): Handshake.DrawerState
      reads this
    {
      Handshake.DrawerState(updateRequested, updateDone, model, updatedModel)
    }

    /** src/Modeler/ModelDrawer.cc:16: not requested, done, both slots empty. */
    constructor ()
      ensures Valid() && State() == Handshake.Init()
      ensures !updateRequested && updateDone && model == EmptyMesh && updatedModel == EmptyMesh
    {
      updateRequested, updateDone := false, true;
      model, updatedModel := EmptyMesh, EmptyMesh;
    }

    /** The consumer's reconcile step. Waiting (requested, not done): nothing changes.
        Ready (requested and done): the staging mesh becomes current and the request is
        cleared. Otherwise: a request is issued and done is cleared, slots untouched. */
    method UpdateModel()
      modifies this
      ensures Valid()
      ensures State() == Handshake.UpdateModel(old(State()))
      ensures old(updateRequested) && !old(updateDone) ==>
                updateRequested && !updateDone && model == old(model) && updatedModel == old(updatedModel)
      ensures old(updateRequested) && old(updateDone) ==>
                !updateRequested && updateDone && model == old(updatedModel) && updatedModel == old(updatedModel)
      ensures !old(updateRequested) ==>
                updateRequested && !updateDone && model == old(model) && updatedModel == old(updatedModel)
    {
      if updateRequested && !updateDone {
        return;
      }
      if updateRequested && updateDone {
        model := updatedModel;
        updateRequested := false;
        return;
      }
      updateDone := false;
      updateRequested := true;
    }

    /** The producer writes both halves of the staging slot, and nothing else. */
    method SetUpdatedModel(modelPoints: seq<Vec3>, modelTris: seq<Triangle>)
      modifies this
      ensures Valid() == old(Valid())
      ensures State() == Handshake.Apply(old(State()), Handshake.SetUpdatedModelCall(modelPoints, modelTris))
      ensures updatedModel == Mesh(modelPoints, modelTris)
      ensures updateRequested == old(updateRequested) && updateDone == old(updateDone) && model == old(model)
    {
      updatedModel := updatedModel.(points := modelPoints);
      updatedModel := updatedModel.(tris := modelTris);
    }

    /** The producer announces the staging slot complete: only the done flag changes. */
    method MarkUpdateDone()
      modifies this
      ensures Valid()
      ensures State() == Handshake.Apply(old(State()), Handshake.MarkUpdateDoneCall)
      ensures updateDone
      ensures updateRequested == old(updateRequested) && model == old(model) && updatedModel == old(updatedModel)
    {
      updateDone := true;
    }

    /** The producer's poll: the raw requested flag, true in both the Waiting and the
        ReadyToSwap phase. */
    function UpdateRequested(): (r: bool)
      reads this
      ensures r == updateRequested
      ensures Valid() ==> (r <==> Handshake.PhaseOf(State()) != Handshake.Idle)
    {
      updateRequested
    }

    /** The done flag: false exactly in the Waiting phase. */
    function UpdateDone(): (r: bool)
      reads this
      ensures r == updateDone
      ensures Valid() ==> (r <==> Handshake.PhaseOf(State()) != Handshake.Waiting)
    {
      updateDone
    }

    /** The points of the current slot, never of the staging slot. */
    function GetPoints(): (points: seq<Vec3>)
      reads this
      ensures points == model.points
    {
      model.points
    }

    /** The triangles of the current slot, never of the staging slot. */
    function GetTris(): (tris: seq<Triangle>)
      reads this
      ensures tris == model.tris
    {
      model.tris
    }

    /** The logic of `DrawModel` without the graphics calls. An empty frame batch returns
        at once and leaves the handshake alone (`None`). Otherwise the handshake is
        reconciled and the texture assignment of every triangle of the then-current mesh
        is computed. The mesh that is current after that step must index its own points:
        the source reads the points through the triangle indices without checking them. */
    method DrawModel(frames: seq<FrameView>, texCoord: TexCoordOracle)
      returns (triangleTextures: Option<seq<seq<Assignment>>>)
      requires frames != [] ==> WellFormed(Handshake.UpdateModel(State()).current)
      modifies this
      ensures frames == [] ==> triangleTextures == None && State() == old(State())
      ensures frames != [] ==> State() == Handshake.UpdateModel(old(State()))
      ensures frames != [] ==> WellFormed(model)
      ensures frames != [] ==>
                triangleTextures == Some(TriangleTextures(model.points, model.tris, frames, texCoord))
    {
      if |frames| == 0 {
        return None;
      }
      UpdateModel();
      var tris := GetTris();
      var points := GetPoints();
      var lists := SelectTextures(points, tris, frames, texCoord);
      triangleTextures := Some(lists);
    }

    /** The logic of `DrawModelPoints` without the graphics calls: one handshake step,
        then every point of the then-current mesh, in order. */
    method DrawModelPoints() returns (drawn: seq<Vec3>)
      modifies this
      ensures State() == Handshake.UpdateModel(old(State()))
      ensures drawn == model.points
    {
      UpdateModel();
      drawn := [];
      var i := 0;
      while i < |GetPoints()|
        invariant 0 <= i <= |model.points|
        invariant drawn == model.points[..i]
      {
        drawn := drawn + [GetPoints()[i]];
        i := i + 1;
      }
    }

    /** The logic of `DrawTriangles` without the graphics calls: one handshake step, then
        for every triangle of the then-current mesh, in order, its face normal and its
        three vertices. */
    method DrawTriangles() returns (faces: seq<Face>)
      requires WellFormed(Handshake.UpdateModel(State()).current)
      modifies this
      ensures State() == Handshake.UpdateModel(old(State()))
      ensures WellFormed(model)
      ensures |faces| == |model.tris|
      ensures forall k :: 0 <= k < |faces| ==>
                var t := model.tris[k];
                faces[k] == Face(FaceNormal(model.points[t.i0], model.points[t.i1], model.points[t.i2]),
                                 model.points[t.i0], model.points[t.i1], model.points[t.i2])
    {
      UpdateModel();
      var tris := GetTris();
      var points := GetPoints();
      faces := [];
      var k := 0;
      while k < |tris|
        invariant 0 <= k <= |tris|
        invariant |faces| == k
        invariant forall j :: 0 <= j < k ==>
                    var t := tris[j];
                    faces[j] == Face(FaceNormal(points[t.i0], points[t.i1], points[t.i2]),
                                     points[t.i0], points[t.i1], points[t.i2])
      {
        var point0, point1, point2 := points[tris[k].i0], points[tris[k].i1], points[tris[k].i2];
        var normal := Cross(Sub(point2, point0), Sub(point1, point0));
        faces := faces + [Face(normal, point0, point1, point2)];
        k := k + 1;
      }
    }
  }

  /** What `DrawTriangles` submits for one triangle: its unnormalised face normal and its
      three vertices. */
  datatype Face = Face(normal: Vec3, p0: Vec3, p1: Vec3, p2: Vec3)

  /** One full round of the handshake on a fresh drawer: the consumer requests, the
      producer sees the request and publishes `(p, t)` in two calls, the consumer
      reconciles and then reads back exactly `(p, t)`. */
  method HandshakeRound(p: seq<Vec3>, t: seq<Triangle>) returns (polled: bool, points: seq<Vec3>, tris: seq<Triangle>)
    ensures polled
    ensures points == p && tris == t
  {
    var drawer := new ModelDrawer();
    drawer.UpdateModel();
    polled := drawer.UpdateRequested();
    drawer.SetUpdatedModel(p, t);
    drawer.MarkUpdateDone();
    drawer.UpdateModel();
    points := drawer.GetPoints();
    tris := drawer.GetTris();
  }
}
