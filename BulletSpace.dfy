/**
  The slot table and matrix composition of the bouncing-lights demo's physics
  space (BouncingLights::BulletSpace).

  Bodies are kept in parallel containers indexed by the same handle: the rigid
  bodies, their last-synchronised transforms and their render scales. Removed
  handles go on a LIFO free list and are handed out again by the next `Add`.
  The physics world itself is foreign; every call into it is appended to the
  `world` trace, and what it computes (substep counts, motion states) comes in
  as parameters.
*/
module Bullet {
  import opened Matrix

  /** A handle: an index into the parallel containers. */
  datatype BodyID = BodyID(id: nat) {
    /** The wrapped index; wrapping it again gives back the same handle. */
    function Value(): (v: nat)
      ensures BodyID(v) == this
    {
      id
    }
  }

  /** A rigid body, known by the construction info it was built from
      (the info's contents belong to the physics library). */
  datatype RigidBody = RigidBody(info: nat)

  /** The calls the space makes into the physics world. */
  datatype WorldCall =
    | AddRigidBody(slot: nat)
    | RemoveRigidBody(slot: nat)
    | StepSimulation(timeStep: real, maxSubSteps: int, fixedTimeStep: real)

  /** std::vector::resize: keep the first `n` entries, pad with `fill`. */
  function Resize<T>(s: seq<T>, n: nat, fill: T): (r: seq<T>)
    ensures |r| == n
    ensures forall k :: 0 <= k < n && k < |s| ==> r[k] == s[k]
    ensures forall k :: |s| <= k < n ==> r[k] == fill
  {
    if |s| >= n then s[..n] else s + seq(n - |s|, _ => fill)
  }

  /** The request bit that switches stage `k` of `ObjectMatrices` on
      (stage 0, the seed, is chosen by the Projection bit). */
  function StageFlag(k: nat): TransformFlag
    requires 1 <= k <= 7
  {
    [ViewR, ViewT, ModelT, ModelR, ModelS, Inverse, Transposed][k - 1]
  }

  class BulletSpace {
    var bodies: seq<RigidBody>
    var trans: seq<Transform>
    var scale: seq<Vec3>
    var freelist: seq<nat>
    /** The calls made into the physics world, oldest first. */
    var world: seq<WorldCall>
    /** The projection matrix the caller installs. */
    var projection: Mat

    /** The containers stay parallel and the free list holds handles only. */
    ghost predicate Valid()
      reads this
    {
      && |trans| == |bodies|
      && |scale| == |bodies|
      && forall k :: 0 <= k < |freelist| ==> freelist[k] < |bodies|
    }

    constructor ()
      ensures Valid()
      ensures bodies == [] && trans == [] && scale == [] && freelist == [] && world == []
    {
      bodies, trans, scale, freelist, world := [], [], [], [], [];
      projection := Identity;
    }

    /** The position of a slot's last-synchronised transform (unchecked index). */
    function Pos(id: nat): Vec3
      reads this
      requires id < |trans|
    {
      trans[id].origin
    }

    /** The orientation of a slot's last-synchronised transform (unchecked index). */
    function Rot(id: nat): Quat
      reads this
      requires id < |trans|
    {
      trans[id].rotation
    }

    /** The body a handle designates (unchecked index). */
    function GetBody(h: BodyID): RigidBody
      reads this
      requires h.id < |bodies|
    {
      bodies[h.id]
    }

    /** Registers a body: reuses the most recently freed slot, or appends a
        new one with scale (1,1,1). A new slot's transform is the
        default-constructed btTransform, whose contents are indeterminate. */
    method Add(body: RigidBody) returns (h: BodyID)
      requires Valid()
      modifies this
      ensures Valid()
      ensures world == old(world) + [AddRigidBody(h.id)]
      ensures projection == old(projection)
      ensures old(|freelist|) > 0 ==>
        && h.id == old(freelist[|freelist| - 1])
        && freelist == old(freelist[..|freelist| - 1])
        && bodies == old(bodies)[h.id := body]
        && trans == old(trans)
        && scale == old(scale)
      ensures old(|freelist|) == 0 ==>
        && h.id == old(|bodies|)
        && freelist == []
        && bodies == old(bodies) + [body]
        && scale == old(scale) + [Vec3(1.0, 1.0, 1.0)]
        && trans[..h.id] == old(trans)
    {
      if |freelist| > 0 {
        var i := freelist[|freelist| - 1];
        bodies := bodies[i := body];
        freelist := freelist[..|freelist| - 1];
        world := world + [AddRigidBody(i)];
        return BodyID(i);
      }
      bodies := bodies + [body];
      world := world + [AddRigidBody(|bodies| - 1)];
      scale := Resize(scale, |bodies|, Vec3(1.0, 1.0, 1.0));
      var unset: Transform :| true;
      trans := Resize(trans, |bodies|, unset);
      h := BodyID(|bodies| - 1);
    }

    /** Unregisters a body: the handle goes on the free list and its transform
        is reset to identity. The scale is kept and a handle already on the
        free list is not detected. A handle past the end is refused
        (std::deque::at throws) before anything changes. */
    method Del(h: BodyID) returns (ok: bool)
      requires Valid()
      modifies this
      ensures Valid()
      ensures ok <==> h.id < old(|bodies|)
      ensures ok ==>
        && freelist == old(freelist) + [h.id]
        && trans == old(trans)[h.id := IdentityTransform]
        && world == old(world) + [RemoveRigidBody(h.id)]
      ensures !ok ==> freelist == old(freelist) && trans == old(trans) && world == old(world)
      ensures bodies == old(bodies) && scale == old(scale) && projection == old(projection)
    {
      if h.id >= |bodies| {
        return false;
      }
      world := world + [RemoveRigidBody(h.id)];
      freelist := freelist + [h.id];
      trans := trans[h.id := IdentityTransform];
      ok := true;
    }

    /** Steps the world, then copies every body's motion-state transform into
        its slot. `motion[i]` is body i's motion state after the world's step
        and `substeps` the count the world reports; both are the foreign
        library's results. */
    method Step(timeStep: real, maxSubSteps: int, fixedTimeStep: real, substeps: int, motion: seq<Transform>)
      returns (res: int)
      requires Valid()
      requires |motion| == |bodies|
      modifies this
      ensures Valid()
      ensures res == substeps
      ensures trans == motion
      ensures world == old(world) + [StepSimulation(timeStep, maxSubSteps, fixedTimeStep)]
      ensures bodies == old(bodies) && scale == old(scale) && freelist == old(freelist)
      ensures projection == old(projection)
    {
      world := world + [StepSimulation(timeStep, maxSubSteps, fixedTimeStep)];
      var i := 0;
      while i < |bodies|
        invariant bodies == old(bodies) && scale == old(scale) && freelist == old(freelist)
        invariant 0 <= i <= |bodies|
        invariant |trans| == |bodies|
        invariant trans[..i] == motion[..i]
        invariant trans[i..] == old(trans)[i..]
        invariant world == old(world) + [StepSimulation(timeStep, maxSubSteps, fixedTimeStep)]
        invariant projection == old(projection)
      {
        trans := trans[i := motion[i]];
        i := i + 1;
      }
      res := substeps;
    }

    /** Sets a body's render scale (unchecked index); nothing else changes. */
    method SetBodyScale(h: BodyID, v: Vec3)
      requires Valid()
      requires h.id < |scale|
      modifies this
      ensures Valid()
      ensures scale == old(scale)[h.id := v]
      ensures bodies == old(bodies) && trans == old(trans) && freelist == old(freelist)
      ensures world == old(world) && projection == old(projection)
    {
      scale := scale[h.id := v];
    }

    /** The camera-only matrix of a request; `camera` is the ghost object's
        current world transform. */
    method ViewMatrix(mask: Mask, camera: Transform) returns (m: Mat)
      ensures m == ViewMat(mask, projection, camera)
    {
      m := if Projection in mask then projection else Identity;
      if ViewR in mask {
        m := Mul(m, Rotate(camera.rotation));
      }
      var v := Vec4(camera.origin.x, camera.origin.y, camera.origin.z, 1.0);
      if ViewT in mask {
        v := v.(x := -v.x, y := -v.y, z := -v.z);
        m := Mul(m, Translate(v));
      }
      if Inverse in mask {
        m := Invert(m);
      }
      if Transposed in mask {
        m := Transpose(m);
      }
    }

    /** Stage `k` of ObjectMatrices applied to one matrix. */
    function StageTerm(k: nat, m: Mat, id: nat, camera: Transform): Mat
      reads this
      requires 1 <= k <= 7
      requires 3 <= k <= 5 ==> id < |trans| && id < |scale|
    {
      if k == 1 then Mul(m, ViewRotation(camera))
      else if k == 2 then Mul(m, ViewTranslation(camera))
      else if k == 3 then Mul(m, ModelTranslation(Pos(id)))
      else if k == 4 then Mul(m, ModelRotation(Rot(id)))
      else if k == 5 then Mul(m, ModelScale(scale[id]))
      else if k == 6 then Invert(m)
      else Transpose(m)
    }

    /** What an output slot holds once stages 0..k have run. */
    ghost function Staged(k: nat, mask: Mask, id: nat, camera: Transform): Mat
      reads this
      requires k <= 7
      requires Valid()
      requires HasModelTerm(mask) ==> id < |bodies|
    {
      if k == 0 then Seed(mask, projection)
      else
        var prev := Staged(k - 1, mask, id, camera);
        if StageFlag(k) in mask then StageTerm(k, prev, id, camera) else prev
    }

    lemma {:induction false} StagedIsComposition(mask: Mask, id: nat, camera: Transform)
      requires Valid()
      requires HasModelTerm(mask) ==> id < |bodies|
      ensures Staged(7, mask, id, camera)
           == if HasModelTerm(mask) then ObjMat(mask, projection, camera, trans[id], scale[id])
              else ViewMat(mask, projection, camera)
    {
      var m0 := Seed(mask, projection);
      var m1 := Then(m0, ViewR in mask, ViewRotation(camera));
      var m2 := Then(m1, ViewT in mask, ViewTranslation(camera));
      assert Staged(1, mask, id, camera) == m1;
      assert Staged(2, mask, id, camera) == m2;
      if HasModelTerm(mask) {
        var m3 := Then(m2, ModelT in mask, ModelTranslation(trans[id].origin));
        var m4 := Then(m3, ModelR in mask, ModelRotation(trans[id].rotation));
        var m5 := Then(m4, ModelS in mask, ModelScale(scale[id]));
        assert Staged(3, mask, id, camera) == m3;
        assert Staged(4, mask, id, camera) == m4;
        assert Staged(5, mask, id, camera) == m5;
        assert Staged(7, mask, id, camera) == Finish(mask, m5);
      } else {
        assert Staged(3, mask, id, camera) == m2;
        assert Staged(4, mask, id, camera) == m2;
        assert Staged(5, mask, id, camera) == m2;
        assert Staged(7, mask, id, camera) == Finish(mask, m2);
      }
    }

    /** One `mattype` loop: while i < count and the stage's bit is set,
        rewrite out[i] by the stage. */
    method Stage(out: array<Mat>, ids: seq<BodyID>, mask: Mask, count: nat, camera: Transform, k: nat)
      requires Valid()
      requires 1 <= k <= 7
      requires count <= out.Length && count <= |ids|
      requires HasModelTerm(mask) ==> forall j :: 0 <= j < count ==> ids[j].id < |bodies|
      requires forall j :: 0 <= j < count ==> out[j] == Staged(k - 1, mask, ids[j].id, camera)
      modifies out
      ensures forall j :: 0 <= j < count ==> out[j] == Staged(k, mask, ids[j].id, camera)
      ensures forall j :: count <= j < out.Length ==> out[j] == old(out[j])
    {
      var i := 0;
      while i < count && StageFlag(k) in mask
        invariant 0 <= i <= count
        invariant i > 0 ==> StageFlag(k) in mask
        invariant forall j :: 0 <= j < i ==> out[j] == Staged(k, mask, ids[j].id, camera)
        invariant forall j :: i <= j < count ==> out[j] == Staged(k - 1, mask, ids[j].id, camera)
        invariant forall j :: count <= j < out.Length ==> out[j] == old(out[j])
      {
        out[i] := StageTerm(k, out[i], ids[i].id, camera);
        i := i + 1;
      }
    }

    /** The two seed loops: every slot below `count` starts as the identity
        when the Projection bit is clear, as the projection when it is set. */
    method SeedStage(out: array<Mat>, ids: seq<BodyID>, mask: Mask, count: nat, camera: Transform)
      requires Valid()
      requires count <= out.Length && count <= |ids|
      requires HasModelTerm(mask) ==> forall j :: 0 <= j < count ==> ids[j].id < |bodies|
      modifies out
      ensures forall j :: 0 <= j < count ==> out[j] == Staged(0, mask, ids[j].id, camera)
      ensures forall j :: count <= j < out.Length ==> out[j] == old(out[j])
    {
      var proj := projection;
      var i := 0;
      while i < count && Projection !in mask
        invariant 0 <= i <= count
        invariant i > 0 ==> Projection !in mask
        invariant forall j :: 0 <= j < i ==> out[j] == Identity
        invariant forall j :: i <= j < out.Length ==> out[j] == old(out[j])
      {
        out[i] := Identity;
        i := i + 1;
      }
      i := 0;
      while i < count && Projection in mask
        invariant 0 <= i <= count
        invariant i > 0 ==> Projection in mask
        invariant forall j :: 0 <= j < i ==> out[j] == proj
        invariant forall j :: i <= j < count ==> Projection !in mask ==> out[j] == Identity
        invariant forall j :: count <= j < out.Length ==> out[j] == old(out[j])
      {
        out[i] := proj;
        i := i + 1;
      }
    }

    /** Fills out[0..count) with the matrices a request asks for, one per
        handle: seed, then view rotation, view translation, model translation,
        model rotation, model scale, each when its bit is set, then the
        inverse, then the transpose. Nothing past `count` is touched. */
    method ObjectMatrices(out: array<Mat>, ids: seq<BodyID>, mask: Mask, count: nat, camera: Transform)
      requires Valid()
      requires count <= out.Length && count <= |ids|
      requires HasModelTerm(mask) ==> forall j :: 0 <= j < count ==> ids[j].id < |bodies|
      modifies out
      ensures forall j :: 0 <= j < count ==>
        out[j] == if HasModelTerm(mask) then ObjMat(mask, projection, camera, trans[ids[j].id], scale[ids[j].id])
                  else ViewMat(mask, projection, camera)
      ensures forall j :: count <= j < out.Length ==> out[j] == old(out[j])
    {
      SeedStage(out, ids, mask, count, camera);
      Stage(out, ids, mask, count, camera, 1);
      Stage(out, ids, mask, count, camera, 2);
      Stage(out, ids, mask, count, camera, 3);
      Stage(out, ids, mask, count, camera, 4);
      Stage(out, ids, mask, count, camera, 5);
      Stage(out, ids, mask, count, camera, 6);
      Stage(out, ids, mask, count, camera, 7);
      assert forall j :: 0 <= j < count ==> out[..][j] == Staged(7, mask, ids[j].id, camera);
      AllStagesComposed(out[..], ids, mask, count, camera);
    }

    /** Slots that went through all seven stages hold the requested matrices. */
    lemma AllStagesComposed(s: seq<Mat>, ids: seq<BodyID>, mask: Mask, count: nat, camera: Transform)
      requires Valid()
      requires count <= |s| && count <= |ids|
      requires HasModelTerm(mask) ==> forall j :: 0 <= j < count ==> ids[j].id < |bodies|
      requires forall j :: 0 <= j < count ==> s[j] == Staged(7, mask, ids[j].id, camera)
      ensures forall j :: 0 <= j < count ==>
        s[j] == if HasModelTerm(mask) then ObjMat(mask, projection, camera, trans[ids[j].id], scale[ids[j].id])
                else ViewMat(mask, projection, camera)
    {
      forall j | 0 <= j < count
        ensures s[j] == if HasModelTerm(mask) then ObjMat(mask, projection, camera, trans[ids[j].id], scale[ids[j].id])
                        else ViewMat(mask, projection, camera)
      {
        StagedIsComposition(mask, ids[j].id, camera);
      }
    }
  }

  // -----------------------------------------------------------------------
  // Call sequences on the slot table.

  /** A slot freed and immediately reallocated is the same slot; its transform
      is the identity the removal left and its scale is the one it had. */
  method DeleteThenAddReusesSlot(space: BulletSpace, h: BodyID, body: RigidBody) returns (h': BodyID)
    requires space.Valid()
    requires h.id < |space.bodies|
    modifies space
    ensures space.Valid() && h.id < |space.bodies|
    ensures h' == h
    ensures space.trans[h.id] == IdentityTransform
    ensures space.scale[h.id] == old(space.scale[h.id])
    ensures space.bodies == old(space.bodies)[h.id := body]
    ensures space.freelist == old(space.freelist)
  {
    var ok := space.Del(h);
    h' := space.Add(body);
  }

  /** The identity that del writes into a freed slot lasts only until the next
      step: step copies every slot's motion-state transform back, freed slots
      included, so a body that reuses the slot after a step starts from the
      deleted body's last transform, not from the identity. */
  method DeleteStepAddKeepsStaleTransform(space: BulletSpace, h: BodyID, body: RigidBody,
                                          timeStep: real, maxSubSteps: int, fixedTimeStep: real,
                                          substeps: int, motion: seq<Transform>)
    returns (h': BodyID)
    requires space.Valid()
    requires h.id < |space.bodies|
    requires |motion| == |space.bodies|
    modifies space
    ensures space.Valid() && h.id < |space.bodies|
    ensures h' == h
    ensures space.trans[h.id] == motion[h.id]
    ensures space.bodies == old(space.bodies)[h.id := body]
    ensures space.freelist == old(space.freelist)
  {
    var ok := space.Del(h);
    var res := space.Step(timeStep, maxSubSteps, fixedTimeStep, substeps, motion);
    h' := space.Add(body);
  }

  /** Deleting a handle twice puts it on the free list twice, so the next two
      additions both receive it: two live registrations share one slot. */
  method DoubleDeleteAliases(space: BulletSpace, h: BodyID, b1: RigidBody, b2: RigidBody)
    returns (first: BodyID, second: BodyID)
    requires space.Valid()
    requires h.id < |space.bodies|
    modifies space
    ensures space.Valid() && h.id < |space.bodies|
    ensures first == h && second == h
    ensures space.GetBody(h) == b2
  {
    var ok := space.Del(h);
    ok := space.Del(h);
    first := space.Add(b1);
    second := space.Add(b2);
  }
}
