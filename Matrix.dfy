/**
  Matrices of the transform space as symbolic terms.

  The engine's 4x4 float arithmetic (il_mat_mul, il_mat_invert, il_mat_rotate,
  il_mat_translate, il_mat_scale, il_mat_perspective) is not modelled: each of
  those operations is a constructor of the free datatype `Mat`, so two matrices
  are equal exactly when they were built from the same terms in the same order.
  What this module pins down is the composition contract of a transform
  request: which terms are multiplied, in which order, and where the inverse
  and the transpose are applied.
*/
module Matrix {

  /** A 3-vector (il_vec3, btVector3). */
  datatype Vec3 = Vec3(x: real, y: real, z: real)

  /** A homogeneous 4-vector (il_vec4). */
  datatype Vec4 = Vec4(x: real, y: real, z: real, w: real)

  /** An orientation quaternion (il_quat, btQuaternion). */
  datatype Quat = Quat(x: real, y: real, z: real, w: real)

  /** A rigid transform: origin and rotation (btTransform). */
  datatype Transform = Transform(origin: Vec3, rotation: Quat)

  /** What btTransform::setIdentity leaves behind. */
  const IdentityTransform: Transform := Transform(Vec3(0.0, 0.0, 0.0), Quat(0.0, 0.0, 0.0, 1.0))

  /** A 4x4 matrix, as the term that produced it. */
  datatype Mat =
    | Identity
    | Perspective(fov: real, width: nat, height: nat, zmin: real, zfar: real)
    | Translate(offset: Vec4)
    | Rotate(q: Quat)
    | Scale(factors: Vec4)
    | Mul(left: Mat, right: Mat)
    | Invert(inner: Mat)
    | Transpose(inner: Mat)

  /** The bits of a transform request (ILG_PROJECTION ... ILG_TRANSPOSE). */
  datatype TransformFlag =
    | Projection | ViewR | ViewT | ModelT | ModelR | ModelS | Inverse | Transposed

  /** A request mask: the set of bits that are on. */
  type Mask = set<TransformFlag>

  /** ILG_VP: the view-projection combination. */
  const VP: Mask := {Projection, ViewR, ViewT}

  /** The bits that bring a per-object term into the product. */
  const ModelFlags: Mask := {ModelT, ModelR, ModelS}

  /** The bits applied after the product is formed. */
  const PostFlags: Mask := {Inverse, Transposed}

  predicate HasModelTerm(mask: Mask) {
    ModelT in mask || ModelR in mask || ModelS in mask
  }

  // ---------------------------------------------------------------------
  // The individual terms.

  /** The matrix a request starts from: the projection when asked for, else identity. */
  function Seed(mask: Mask, projection: Mat): Mat {
    if Projection in mask then projection else Identity
  }

  /** View rotation: a rotation by the camera's orientation, as stored. */
  function ViewRotation(camera: Transform): Mat {
    Rotate(camera.rotation)
  }

  /** View translation: a translation by the negated camera position. */
  function ViewTranslation(camera: Transform): Mat {
    Translate(Vec4(-camera.origin.x, -camera.origin.y, -camera.origin.z, 1.0))
  }

  function ModelTranslation(position: Vec3): Mat {
    Translate(Vec4(position.x, position.y, position.z, 1.0))
  }

  function ModelRotation(rotation: Quat): Mat {
    Rotate(rotation)
  }

  function ModelScale(s: Vec3): Mat {
    Scale(Vec4(s.x, s.y, s.z, 1.0))
  }

  /** Right-multiply by `term` when `on`. */
  function Then(m: Mat, on: bool, term: Mat): Mat {
    if on then Mul(m, term) else m
  }

  /** The post-processing of a composed matrix: invert first, then transpose. */
  function Finish(mask: Mask, m: Mat): Mat {
    var inverted := if Inverse in mask then Invert(m) else m;
    if Transposed in mask then Transpose(inverted) else inverted
  }

  // ---------------------------------------------------------------------
  // The composition of a request, step by step as the code folds it.

  /** The camera-only composition (BulletSpace::viewmat). */
  function ViewMat(mask: Mask, projection: Mat, camera: Transform): Mat {
    var m := Seed(mask, projection);
    var m := Then(m, ViewR in mask, ViewRotation(camera));
    var m := Then(m, ViewT in mask, ViewTranslation(camera));
    Finish(mask, m)
  }

  /** The per-object composition (BulletSpace::objmats, one output slot). */
  function ObjMat(mask: Mask, projection: Mat, camera: Transform, obj: Transform, s: Vec3): Mat {
    var m := Seed(mask, projection);
    var m := Then(m, ViewR in mask, ViewRotation(camera));
    var m := Then(m, ViewT in mask, ViewTranslation(camera));
    var m := Then(m, ModelT in mask, ModelTranslation(obj.origin));
    var m := Then(m, ModelR in mask, ModelRotation(obj.rotation));
    var m := Then(m, ModelS in mask, ModelScale(s));
    Finish(mask, m)
  }

  // ---------------------------------------------------------------------
  // An independent statement of the same contract: the list of factors.

  /** A one-element list when `on`, else empty. */
  function Opt(on: bool, term: Mat): seq<Mat> {
    if on then [term] else []
  }

  /** The factors of a request, left to right:
      seed, [view rotation], [view translation], [model translation], [model rotation], [model scale]. */
  function Factors(mask: Mask, projection: Mat, camera: Transform, obj: Transform, s: Vec3): (fs: seq<Mat>)
    ensures |fs| >= 1 && fs[0] == Seed(mask, projection)
  {
    [Seed(mask, projection)]
    + Opt(ViewR in mask, ViewRotation(camera))
    + Opt(ViewT in mask, ViewTranslation(camera))
    + Opt(ModelT in mask, ModelTranslation(obj.origin))
    + Opt(ModelR in mask, ModelRotation(obj.rotation))
    + Opt(ModelS in mask, ModelScale(s))
  }

  /** The left-nested product f0 * f1 * ... * fn. */
  function Product(fs: seq<Mat>): Mat
    requires |fs| >= 1
  {
    if |fs| == 1 then fs[0] else Mul(Product(fs[..|fs| - 1]), fs[|fs| - 1])
  }

  /** How many Invert nodes a term holds. */
  function Inversions(m: Mat): nat {
    match m
    case Mul(l, r) => Inversions(l) + Inversions(r)
    case Invert(inner) => 1 + Inversions(inner)
    case Transpose(inner) => Inversions(inner)
    case _ => 0
  }

  lemma {:induction false} ProductThen(fs: seq<Mat>, on: bool, term: Mat)
    requires |fs| >= 1
    ensures Product(fs + Opt(on, term)) == Then(Product(fs), on, term)
  {
    if on {
      var gs := fs + [term];
      assert gs[..|gs| - 1] == fs;
    } else {
      assert fs + Opt(on, term) == fs;
    }
  }

  /** The composed matrix is the left-to-right product of exactly the enabled
      factors, in the fixed order, with invert then transpose applied to the
      whole product. */
  lemma {:induction false} ObjMatIsProductOfFactors(mask: Mask, projection: Mat, camera: Transform, obj: Transform, s: Vec3)
    ensures ObjMat(mask, projection, camera, obj, s)
         == Finish(mask, Product(Factors(mask, projection, camera, obj, s)))
  {
    var f0 := [Seed(mask, projection)];
    var f1 := f0 + Opt(ViewR in mask, ViewRotation(camera));
    var f2 := f1 + Opt(ViewT in mask, ViewTranslation(camera));
    var f3 := f2 + Opt(ModelT in mask, ModelTranslation(obj.origin));
    var f4 := f3 + Opt(ModelR in mask, ModelRotation(obj.rotation));
    var f5 := f4 + Opt(ModelS in mask, ModelScale(s));
    ProductThen(f0, ViewR in mask, ViewRotation(camera));
    ProductThen(f1, ViewT in mask, ViewTranslation(camera));
    ProductThen(f2, ModelT in mask, ModelTranslation(obj.origin));
    ProductThen(f3, ModelR in mask, ModelRotation(obj.rotation));
    ProductThen(f4, ModelS in mask, ModelScale(s));
    assert Factors(mask, projection, camera, obj, s) == f5;
  }

  /** Invert and transpose act on the composed matrix, never on a term:
      the result is the plain product, inverted when asked, and the
      inverse transposed when asked (invert first, transpose second). */
  lemma PostFlagsWrapWholeProduct(mask: Mask, projection: Mat, camera: Transform, obj: Transform, s: Vec3)
    ensures var plain := ObjMat(mask - PostFlags, projection, camera, obj, s);
      && (Inverse in mask && Transposed in mask ==> ObjMat(mask, projection, camera, obj, s) == Transpose(Invert(plain)))
      && (Inverse in mask && Transposed !in mask ==> ObjMat(mask, projection, camera, obj, s) == Invert(plain))
      && (Inverse !in mask && Transposed in mask ==> ObjMat(mask, projection, camera, obj, s) == Transpose(plain))
      && (Inverse !in mask && Transposed !in mask ==> ObjMat(mask, projection, camera, obj, s) == plain)
  {
  }

  /** The only inversions in a composed matrix are the one the Inverse bit
      adds and those already inside the projection it starts from. */
  lemma InversionsThen(m: Mat, on: bool, term: Mat)
    requires Inversions(term) == 0
    ensures Inversions(Then(m, on, term)) == Inversions(m)
  {
  }

  lemma InversionsFinish(mask: Mask, m: Mat)
    ensures Inversions(Finish(mask, m)) == Inversions(m) + (if Inverse in mask then 1 else 0)
  {
  }

  lemma {:induction false} InversionsOfObjMat(mask: Mask, projection: Mat, camera: Transform, obj: Transform, s: Vec3)
    ensures Inversions(ObjMat(mask, projection, camera, obj, s))
         == (if Projection in mask then Inversions(projection) else 0) + (if Inverse in mask then 1 else 0)
  {
    var m0 := Seed(mask, projection);
    var m1 := Then(m0, ViewR in mask, ViewRotation(camera));
    var m2 := Then(m1, ViewT in mask, ViewTranslation(camera));
    var m3 := Then(m2, ModelT in mask, ModelTranslation(obj.origin));
    var m4 := Then(m3, ModelR in mask, ModelRotation(obj.rotation));
    var m5 := Then(m4, ModelS in mask, ModelScale(s));
    assert Inversions(m5) == Inversions(m0) by {
      InversionsThen(m0, ViewR in mask, ViewRotation(camera));
      InversionsThen(m1, ViewT in mask, ViewTranslation(camera));
      InversionsThen(m2, ModelT in mask, ModelTranslation(obj.origin));
      InversionsThen(m3, ModelR in mask, ModelRotation(obj.rotation));
      InversionsThen(m4, ModelS in mask, ModelScale(s));
    }
    assert ObjMat(mask, projection, camera, obj, s) == Finish(mask, m5);
    InversionsFinish(mask, m5);
  }

  /** viewmat is the per-object composition with the model bits cleared:
      it never depends on an object. */
  lemma ViewMatIsObjMatWithoutModel(mask: Mask, projection: Mat, camera: Transform, obj: Transform, s: Vec3)
    ensures ViewMat(mask, projection, camera) == ObjMat(mask - ModelFlags, projection, camera, obj, s)
  {
  }

  /** A model-translation-only request yields the translation by the object's
      position (multiplied onto the identity seed). */
  lemma ModelTranslationOnly(projection: Mat, camera: Transform, obj: Transform, s: Vec3)
    ensures ObjMat({ModelT}, projection, camera, obj, s)
         == Mul(Identity, Translate(Vec4(obj.origin.x, obj.origin.y, obj.origin.z, 1.0)))
  {
  }

  /** Without the view-translation bit, the camera's position has no influence:
      a rotation+projection matrix stays centred on the camera. */
  lemma ViewMatIgnoresCameraPosition(mask: Mask, projection: Mat, c1: Transform, c2: Transform)
    requires ViewT !in mask
    requires c1.rotation == c2.rotation
    ensures ViewMat(mask, projection, c1) == ViewMat(mask, projection, c2)
  {
  }
}
