/** The model-update handshake of `ModelDrawer` as a pure state machine: two flags,
    `requested` (mbModelUpdateRequested) and `done` (mbModelUpdateDone), and two mesh
    slots, `current` (mModel) and `staging` (mUpdatedModel). The class in module
    Drawer performs these transitions in place; this module states and proves what
    sequences of them can do. */
module Handshake {
  import opened Meshes

  datatype DrawerState = DrawerState(requested: bool, done: bool, current: Mesh, staging: Mesh)

  /** The calls that change the state: the consumer's `UpdateModel` and the producer's
      `SetUpdatedModel(points, tris)` and `MarkUpdateDone`. */
  datatype Call =
    | UpdateModelCall
    | SetUpdatedModelCall(points: seq<Geometry.Vec3>, tris: seq<Triangle>)
    | MarkUpdateDoneCall

  /** The three phases the flags encode. */
  datatype Phase = Idle | Waiting | ReadyToSwap

  /** The handshake invariant: the flags are never both false. */
  predicate Inv(s: DrawerState) {
    s.requested || s.done
  }

  /** The state the constructor establishes (src/Modeler/ModelDrawer.cc:16). */
  function Init(): (s: DrawerState)
    ensures Inv(s) && !s.requested && s.done
    ensures s.current == EmptyMesh && s.staging == EmptyMesh
  {
    DrawerState(false, true, EmptyMesh, EmptyMesh)
  }

  function PhaseOf(s: DrawerState): (p: Phase)
    requires Inv(s)
    ensures p == Idle <==> !s.requested
    ensures p == Waiting <==> s.requested && !s.done
    ensures p == ReadyToSwap <==> s.requested && s.done
  {
    if !s.requested then Idle else if !s.done then Waiting else ReadyToSwap
  }

  /** `UpdateModel` (src/Modeler/ModelDrawer.cc:411-424). */
  function UpdateModel(s: DrawerState): DrawerState {
    if s.requested && !s.done then s
    else if s.requested && s.done then s.(current := s.staging, requested := false)
    else s.(done := false, requested := true)
  }

  /** One call applied to a state. */
  function Apply(s: DrawerState, c: Call): DrawerState {
    match c
    case UpdateModelCall => UpdateModel(s)
    case SetUpdatedModelCall(p, t) => s.(staging := Mesh(p, t))
    case MarkUpdateDoneCall => s.(done := true)
  }

  /** A sequence of calls applied in order. */
  function Run(s: DrawerState, calls: seq<Call>): DrawerState
    decreases |calls|
  {
    if calls == [] then s else Run(Apply(s, calls[0]), calls[1..])
  }

  /** The meshes a call sequence publishes into the staging slot. */
  function Published(calls: seq<Call>): set<Mesh>
    decreases |calls|
  {
    if calls == [] then {}
    else
      (if calls[0].SetUpdatedModelCall? then {Mesh(calls[0].points, calls[0].tris)} else {})
      + Published(calls[1..])
  }

  /** The phase each call moves to. UpdateModel moves Idle to Waiting, keeps Waiting,
      and moves ReadyToSwap to Idle. MarkUpdateDone moves Waiting to ReadyToSwap and
      keeps the other two phases. SetUpdatedModel never changes the phase. Every call
      keeps the invariant. */
  lemma ApplyPhase(s: DrawerState, c: Call)
    requires Inv(s)
    ensures Inv(Apply(s, c))
    ensures c.UpdateModelCall? ==>
              PhaseOf(Apply(s, c)) == (if PhaseOf(s) == ReadyToSwap then Idle else Waiting)
    ensures c.MarkUpdateDoneCall? ==>
              PhaseOf(Apply(s, c)) == (if PhaseOf(s) == Idle then Idle else ReadyToSwap)
    ensures c.SetUpdatedModelCall? ==> PhaseOf(Apply(s, c)) == PhaseOf(s)
  {
  }

  /** Every call sequence preserves the invariant. */
  lemma {:induction false} RunPreservesInv(s: DrawerState, calls: seq<Call>)
    requires Inv(s)
    ensures Inv(Run(s, calls))
    decreases |calls|
  {
    if calls != [] {
      ApplyPhase(s, calls[0]);
      RunPreservesInv(Apply(s, calls[0]), calls[1..]);
    }
  }

  /** From the constructed state no call sequence reaches requested == false with
      done == false. */
  lemma NeitherRequestedNorDoneUnreachable(calls: seq<Call>)
    ensures var s := Run(Init(), calls); s.requested || s.done
  {
    RunPreservesInv(Init(), calls);
  }

  /** While a request is outstanding and nothing has been published, any number of
      `UpdateModel` calls changes nothing: at most one request is ever in flight. */
  lemma {:induction false} WaitingUpdatesAreNoops(s: DrawerState, calls: seq<Call>)
    requires s.requested && !s.done
    requires forall k :: 0 <= k < |calls| ==> calls[k] == UpdateModelCall
    ensures Run(s, calls) == s
    decreases |calls|
  {
    if calls != [] {
      assert Apply(s, calls[0]) == s;
      WaitingUpdatesAreNoops(s, calls[1..]);
    }
  }

  /** Publishing from the Waiting phase (`SetUpdatedModel(p, t)`, then `MarkUpdateDone`)
      followed by the consumer's `UpdateModel` makes the published pair current,
      clears the request and leaves done set. */
  lemma PublishThenReconcile(s: DrawerState, p: seq<Geometry.Vec3>, t: seq<Triangle>)
    requires s.requested && !s.done
    ensures var r := Run(s, [SetUpdatedModelCall(p, t), MarkUpdateDoneCall, UpdateModelCall]);
      r.current == Mesh(p, t) && r.staging == Mesh(p, t) && !r.requested && r.done
  {
    var calls := [SetUpdatedModelCall(p, t), MarkUpdateDoneCall, UpdateModelCall];
    var s1 := Apply(s, calls[0]);
    var s2 := Apply(s1, calls[1]);
    var s3 := Apply(s2, calls[2]);
    assert calls[1..][1..][1..] == [];
    assert Run(s, calls) == Run(s1, calls[1..]) == Run(s2, calls[1..][1..]) == Run(s3, []);
  }

  /** The consumer's `UpdateModel` from Idle issues a request and leaves both slots alone. */
  lemma RequestKeepsMeshes(s: DrawerState)
    requires !s.requested
    ensures var r := UpdateModel(s);
      r.requested && !r.done && r.current == s.current && r.staging == s.staging
  {
  }

  /** Both slots only ever hold whole meshes: each is either one of the meshes the
      slots started with or a mesh some `SetUpdatedModel` call published. So the current
      mesh never combines points of one publication with triangles of another. */
  lemma {:induction false} SlotsHoldWholeMeshes(s: DrawerState, calls: seq<Call>)
    ensures Run(s, calls).current in {s.current, s.staging} + Published(calls)
    ensures Run(s, calls).staging in {s.staging} + Published(calls)
    decreases |calls|
  {
    if calls != [] {
      var s1 := Apply(s, calls[0]);
      SlotsHoldWholeMeshes(s1, calls[1..]);
    }
  }

  /** From the constructed state, the current mesh is the empty mesh or a published one. */
  lemma CurrentIsEmptyOrPublished(calls: seq<Call>)
    ensures Run(Init(), calls).current == EmptyMesh || Run(Init(), calls).current in Published(calls)
  {
    SlotsHoldWholeMeshes(Init(), calls);
  }

  /** Well-formed meshes stay well-formed: when every published mesh indexes its own
      points, so do both slots after any call sequence. */
  lemma {:induction false} RunKeepsWellFormed(s: DrawerState, calls: seq<Call>)
    requires WellFormed(s.current) && WellFormed(s.staging)
    requires forall m :: m in Published(calls) ==> WellFormed(m)
    ensures WellFormed(Run(s, calls).current) && WellFormed(Run(s, calls).staging)
  {
    SlotsHoldWholeMeshes(s, calls);
  }
}
