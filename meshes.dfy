/** The mesh value held in each of the drawer's two slots: a point vector and a
    triangle list, the `std::pair<vector<dlovi::Matrix>, list<dlovi::Matrix>>` of
    include/Modeler/ModelDrawer.h:57-58. */
module Meshes {
  import opened Geometry

  /** Three vertex indices into the point sequence. The source stores them as doubles
      and uses them as indices unchecked; here they are natural numbers. */
  datatype Triangle = Triangle(i0: nat, i1: nat, i2: nat)

  datatype Mesh = Mesh(points: seq<Vec3>, tris: seq<Triangle>)

  /** The mesh both slots hold after construction: empty vector, empty list. */
  const EmptyMesh: Mesh := Mesh([], [])

  /** Every vertex index of `t` addresses a point of `points`. */
  predicate TriangleInBounds(points: seq<Vec3>, t: Triangle) {
    t.i0 < |points| && t.i1 < |points| && t.i2 < |points|
  }

  /** Every triangle of `tris` indexes `points`. */
  predicate AllInBounds(points: seq<Vec3>, tris: seq<Triangle>) {
    forall k :: 0 <= k < |tris| ==> TriangleInBounds(points, tris[k])
  }

  /** Every triangle of the mesh indexes its own point sequence. */
  predicate WellFormed(m: Mesh) {
    AllInBounds(m.points, m.tris)
  }
}
