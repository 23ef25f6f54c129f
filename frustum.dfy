/** View-frustum culling (`Frustum`, `Plane`). Six planes are taken from the
    rows of the projection-view matrix; a point is inside when it lies on
    the non-negative side of all six, and a box of eight corners is kept
    unless, scanning the planes in order, a plane with every corner outside
    comes before any plane the box straddles. Coordinates are `real`. */
module Frustum {
  import opened Glm

  /** `Plane`: the plane a x + b y + c z + d = 0, stored as (a, b, c, d). */
  datatype Plane = Plane(plane: Vec4)
  {
    /** `signDistance`: a px + b py + c pz + d (a true distance only once the
        plane is normalised). */
    function SignDistance(point: Vec3): (r: real)
      ensures r == plane.x * point.x + plane.y * point.y + plane.z * point.z + plane.w
    {
      Dot3(Vec3(plane.x, plane.y, plane.z), point) + plane.w
    }

    /** `distance`: the absolute value of `SignDistance`. */
    function Distance(point: Vec3): (r: real)
      ensures r >= 0.0
      ensures r == SignDistance(point) || r == -SignDistance(point)
      ensures r == 0.0 <==> SignDistance(point) == 0.0
    {
      var s := SignDistance(point);
      if s < 0.0 then -s else s
    }

    /** The plane with all four coefficients multiplied by k. */
    function Scaled(k: real): Plane {
      Plane(Scale4(plane, k))
    }
  }

  /** `FrustumFaces`, in declaration order. */
  datatype FrustumFace = Left | Right | Bottom | Top | Near | Far

  /** `FrustumFaces::Count`, the length of the `planes` array. */
  const Count: nat := 6

  /** The enumerator's value: Left .. Far are 0 .. 5. */
  function FaceIndex(f: FrustumFace): (i: nat)
    ensures i < Count
  {
    match f
    case Left => 0
    case Right => 1
    case Bottom => 2
    case Top => 3
    case Near => 4
    case Far => 5
  }

  /** The face whose enumerator value is i. */
  function FaceOf(i: nat): (f: FrustumFace)
    requires i < Count
  {
    match i
    case 0 => Left
    case 1 => Right
    case 2 => Bottom
    case 3 => Top
    case 4 => Near
    case _ => Far
  }

  /** The enumerators number the six faces one-to-one by 0 .. Count - 1. */
  lemma FaceIndexBijective(f: FrustumFace, i: nat)
    requires i < Count
    ensures FaceOf(FaceIndex(f)) == f
    ensures FaceIndex(FaceOf(i)) == i
  {
  }

  /** The plane face `f` gets from the rows X, Y, Z, W (rows 0 .. 3) of the
      matrix, before normalisation: W + X, W - X, W + Y, W - Y, W + Z, W - Z. */
  function RawPlane(m: Mat4, f: FrustumFace): Plane {
    match f
    case Left => Plane(Add4(m.Row(3), m.Row(0)))
    case Right => Plane(Sub4(m.Row(3), m.Row(0)))
    case Bottom => Plane(Add4(m.Row(3), m.Row(1)))
    case Top => Plane(Sub4(m.Row(3), m.Row(1)))
    case Near => Plane(Add4(m.Row(3), m.Row(2)))
    case Far => Plane(Sub4(m.Row(3), m.Row(2)))
  }

  /** The six raw planes in `FrustumFaces` order. */
  function RawPlanes(m: Mat4): (ps: seq<Plane>)
    ensures |ps| == Count
    ensures forall f :: ps[FaceIndex(f)] == RawPlane(m, f)
  {
    seq(Count, i requires 0 <= i < Count => RawPlane(m, FaceOf(i)))
  }

  /** `point` is on the non-negative side of plane `p`. */
  predicate Inside(p: Plane, point: Vec3) {
    p.SignDistance(point) >= 0.0
  }

  /** What `pointIn` decides: the point is inside all six planes. */
  predicate PointInSpec(planes: seq<Plane>, point: Vec3)
    requires |planes| == Count
  {
    forall i :: 0 <= i < Count ==> Inside(planes[i], point)
  }

  /** How many of the first k corners are inside plane `p` (the `in` counter). */
  function InCount(p: Plane, box: seq<Vec3>, k: nat): nat
    requires k <= |box|
  {
    if k == 0 then 0 else InCount(p, box, k - 1) + (if Inside(p, box[k - 1]) then 1 else 0)
  }

  /** How many of the first k corners are outside plane `p` (the `out` counter). */
  function OutCount(p: Plane, box: seq<Vec3>, k: nat): nat
    requires k <= |box|
  {
    if k == 0 then 0 else OutCount(p, box, k - 1) + (if Inside(p, box[k - 1]) then 0 else 1)
  }

  /** Every corner is counted once, as in or as out. */
  lemma {:induction false} InOutSum(p: Plane, box: seq<Vec3>, k: nat)
    requires k <= |box|
    ensures InCount(p, box, k) + OutCount(p, box, k) == k
    decreases k
  {
    if k > 0 {
      InOutSum(p, box, k - 1);
    }
  }

  /** No corner among the first k is inside `p` exactly when the `in`
      counter is 0; all are inside exactly when it is k. */
  lemma {:induction false} InCountExtremes(p: Plane, box: seq<Vec3>, k: nat)
    requires k <= |box|
    ensures InCount(p, box, k) == 0 <==> forall j :: 0 <= j < k ==> !Inside(p, box[j])
    ensures InCount(p, box, k) == k <==> forall j :: 0 <= j < k ==> Inside(p, box[j])
    decreases k
  {
    if k > 0 {
      InCountExtremes(p, box, k - 1);
      assert InCount(p, box, k - 1) <= k - 1 by { InOutSum(p, box, k - 1); }
    }
  }

  /** What `boxIn` decides from plane i on: false at a plane with no corner
      inside, true at a plane with some corner outside (and some inside),
      and otherwise the verdict of the next plane; true past the last. */
  function BoxInFrom(planes: seq<Plane>, box: seq<Vec3>, i: nat): bool
    requires |planes| == Count && |box| == 8 && i <= Count
    decreases Count - i
  {
    if i == Count then true
    else if InCount(planes[i], box, 8) == 0 then false
    else if OutCount(planes[i], box, 8) != 0 then true
    else BoxInFrom(planes, box, i + 1)
  }

  predicate BoxInSpec(planes: seq<Plane>, box: seq<Vec3>)
    requires |planes| == Count && |box| == 8
  {
    BoxInFrom(planes, box, 0)
  }

  /** Every corner of `box` is inside plane `p`. */
  predicate AllIn(p: Plane, box: seq<Vec3>) {
    forall j :: 0 <= j < |box| ==> Inside(p, box[j])
  }

  /** No corner of `box` is inside plane `p`. */
  predicate NoneIn(p: Plane, box: seq<Vec3>) {
    forall j :: 0 <= j < |box| ==> !Inside(p, box[j])
  }

  /** Plane i rejects the box: no corner is inside it, and every earlier
      plane has all corners inside (so the scan reached plane i). */
  predicate RejectedAt(planes: seq<Plane>, box: seq<Vec3>, i: nat)
    requires |planes| == Count && i < Count
  {
    NoneIn(planes[i], box) && forall l :: 0 <= l < i ==> AllIn(planes[l], box)
  }

  /** A plane the box straddles stops every later rejection. */
  lemma StraddledNoReject(planes: seq<Plane>, box: seq<Vec3>, i: nat)
    requires |planes| == Count && i < Count
    requires !AllIn(planes[i], box) && !NoneIn(planes[i], box)
    ensures forall r :: i <= r < Count ==> !RejectedAt(planes, box, r)
  {
    forall r | i <= r < Count ensures !RejectedAt(planes, box, r) {
      if r > i {
        assert !AllIn(planes[i], box);
      }
    }
  }

  /** A plane holding every corner rejects nothing, so the rejections from
      plane i on are those from plane i + 1 on. */
  lemma PassedPlane(planes: seq<Plane>, box: seq<Vec3>, i: nat)
    requires |planes| == Count && |box| == 8 && i < Count
    requires AllIn(planes[i], box)
    ensures (exists r :: i <= r < Count && RejectedAt(planes, box, r))
        <==> (exists r :: i + 1 <= r < Count && RejectedAt(planes, box, r))
  {
    assert !NoneIn(planes[i], box) by { assert Inside(planes[i], box[0]); }
    if exists r :: i <= r < Count && RejectedAt(planes, box, r) {
      var r :| i <= r < Count && RejectedAt(planes, box, r);
      assert r != i;
    }
  }

  /** `boxIn` is false exactly when some plane rejects the box before any
      plane is straddled. */
  lemma {:induction false} BoxInFromRejects(planes: seq<Plane>, box: seq<Vec3>, i: nat)
    requires |planes| == Count && |box| == 8 && i <= Count
    requires forall l :: 0 <= l < i ==> AllIn(planes[l], box)
    ensures !BoxInFrom(planes, box, i) <==> exists r :: i <= r < Count && RejectedAt(planes, box, r)
    decreases Count - i
  {
    if i < Count {
      var p := planes[i];
      InCountExtremes(p, box, 8);
      InOutSum(p, box, 8);
      if InCount(p, box, 8) == 0 {
        assert RejectedAt(planes, box, i);
      } else if OutCount(p, box, 8) != 0 {
        StraddledNoReject(planes, box, i);
      } else {
        BoxInFromRejects(planes, box, i + 1);
        PassedPlane(planes, box, i);
      }
    }
  }

  lemma BoxInRejects(planes: seq<Plane>, box: seq<Vec3>)
    requires |planes| == Count && |box| == 8
    ensures !BoxInSpec(planes, box) <==> exists r :: 0 <= r < Count && RejectedAt(planes, box, r)
  {
    BoxInFromRejects(planes, box, 0);
  }

  /** A box with every corner inside every plane is kept. */
  lemma AllCornersInside(planes: seq<Plane>, box: seq<Vec3>)
    requires |planes| == Count && |box| == 8
    requires forall i, j :: 0 <= i < Count && 0 <= j < 8 ==> Inside(planes[i], box[j])
    ensures BoxInSpec(planes, box)
  {
    BoxInRejects(planes, box);
    forall r | 0 <= r < Count ensures !RejectedAt(planes, box, r) {
      assert Inside(planes[r], box[0]);
    }
  }

  /** If `pointIn` holds for all eight corners, `boxIn` holds. */
  lemma CornersPointIn(planes: seq<Plane>, box: seq<Vec3>)
    requires |planes| == Count && |box| == 8
    requires forall j :: 0 <= j < 8 ==> PointInSpec(planes, box[j])
    ensures BoxInSpec(planes, box)
  {
    AllCornersInside(planes, box);
  }

  /** The test stops at the first straddled plane: a box straddling the
      left plane is kept whatever the later planes say, even when every
      corner is outside the far plane. */
  lemma StraddlingLeftKept(planes: seq<Plane>, box: seq<Vec3>)
    requires |planes| == Count && |box| == 8
    requires exists j :: 0 <= j < 8 && Inside(planes[FaceIndex(Left)], box[j])
    requires exists j :: 0 <= j < 8 && !Inside(planes[FaceIndex(Left)], box[j])
    ensures BoxInSpec(planes, box)
  {
    var p := planes[0];
    InCountExtremes(p, box, 8);
    InOutSum(p, box, 8);
  }

  /** A box is rejected by a plane it lies wholly outside of when every
      earlier plane holds all its corners. */
  lemma OutsideOnePlane(planes: seq<Plane>, box: seq<Vec3>, r: nat)
    requires |planes| == Count && |box| == 8 && r < Count
    requires NoneIn(planes[r], box)
    requires forall l :: 0 <= l < r ==> AllIn(planes[l], box)
    ensures !BoxInSpec(planes, box)
  {
    BoxInRejects(planes, box);
    assert RejectedAt(planes, box, r);
  }

  /** Moving a point t along the plane's normal (a, b, c) changes its
      signed distance by t (a^2 + b^2 + c^2): the side the normal points to
      is the positive one. */
  lemma SignDistanceAlongNormal(p: Plane, point: Vec3, t: real)
    ensures var n := Vec3(p.plane.x, p.plane.y, p.plane.z);
      p.SignDistance(Add3(point, Scale3(n, t))) == p.SignDistance(point) + t * Dot3(n, n)
  {
    var v := p.plane;
    assert v.x * (point.x + v.x * t) == v.x * point.x + t * (v.x * v.x);
    assert v.y * (point.y + v.y * t) == v.y * point.y + t * (v.y * v.y);
    assert v.z * (point.z + v.z * t) == v.z * point.z + t * (v.z * v.z);
  }

  /** Scaling a plane by k scales the signed distance by k. */
  lemma SignDistanceScaled(p: Plane, k: real, point: Vec3)
    ensures p.Scaled(k).SignDistance(point) == k * p.SignDistance(point)
  {
    var v := p.plane;
    calc {
      p.Scaled(k).SignDistance(point);
      (v.x * k) * point.x + (v.y * k) * point.y + (v.z * k) * point.z + v.w * k;
      { assert (v.x * k) * point.x == k * (v.x * point.x);
        assert (v.y * k) * point.y == k * (v.y * point.y);
        assert (v.z * k) * point.z == k * (v.z * point.z); }
      k * (v.x * point.x + v.y * point.y + v.z * point.z + v.w);
    }
  }

  /** A positive scale does not move a point to the other side of a plane. */
  lemma InsideScaled(p: Plane, k: real, point: Vec3)
    requires k > 0.0
    ensures Inside(p.Scaled(k), point) <==> Inside(p, point)
  {
    SignDistanceScaled(p, k, point);
    var s := p.SignDistance(point);
    if s < 0.0 {
      assert k * s < 0.0;
    }
  }

  /** Plane i of `planes` multiplied by `scales[i]`. */
  function ScaledPlanes(planes: seq<Plane>, scales: seq<real>): (r: seq<Plane>)
    requires |scales| == |planes|
    ensures |r| == |planes|
  {
    seq(|planes|, i requires 0 <= i < |planes| => planes[i].Scaled(scales[i]))
  }

  predicate Positive(k: real) {
    k > 0.0
  }

  predicate AllPositive(scales: seq<real>) {
    forall i :: 0 <= i < |scales| ==> Positive(scales[i])
  }

  lemma {:induction false} InCountScaled(p: Plane, k: real, box: seq<Vec3>, n: nat)
    requires k > 0.0 && n <= |box|
    ensures InCount(p.Scaled(k), box, n) == InCount(p, box, n)
    ensures OutCount(p.Scaled(k), box, n) == OutCount(p, box, n)
    decreases n
  {
    if n > 0 {
      InCountScaled(p, k, box, n - 1);
      InsideScaled(p, k, box[n - 1]);
    }
  }

  lemma {:induction false} BoxInFromScaled(planes: seq<Plane>, scales: seq<real>, box: seq<Vec3>, i: nat)
    requires |planes| == Count && |scales| == Count && AllPositive(scales) && |box| == 8 && i <= Count
    ensures BoxInFrom(ScaledPlanes(planes, scales), box, i) == BoxInFrom(planes, box, i)
    decreases Count - i
  {
    if i < Count {
      InCountScaled(planes[i], scales[i], box, 8);
      BoxInFromScaled(planes, scales, box, i + 1);
    }
  }

  /** Multiplying every plane by a positive factor (what normalisation
      does) changes neither `pointIn` nor `boxIn`. */
  lemma ClassificationScaleInvariant(planes: seq<Plane>, scales: seq<real>, point: Vec3, box: seq<Vec3>)
    requires |planes| == Count && |scales| == Count && AllPositive(scales) && |box| == 8
    ensures PointInSpec(ScaledPlanes(planes, scales), point) == PointInSpec(planes, point)
    ensures BoxInSpec(ScaledPlanes(planes, scales), box) == BoxInSpec(planes, box)
  {
    forall i | 0 <= i < Count
      ensures Inside(ScaledPlanes(planes, scales)[i], point) == Inside(planes[i], point)
    {
      InsideScaled(planes[i], scales[i], point);
    }
    BoxInFromScaled(planes, scales, box, 0);
  }

  /** The classification the early acceptance in `boxIn` stands in for: a
      box is culled exactly when some plane has all eight corners outside. */
  predicate BoxVisible(planes: seq<Plane>, box: seq<Vec3>)
    requires |planes| == Count
  {
    forall i :: 0 <= i < Count ==> !NoneIn(planes[i], box)
  }

  /** `boxIn` as written never culls a box the full scan keeps: it can only
      keep too much. */
  lemma VisibleKept(planes: seq<Plane>, box: seq<Vec3>)
    requires |planes| == Count && |box| == 8
    requires BoxVisible(planes, box)
    ensures BoxInSpec(planes, box)
  {
    BoxInRejects(planes, box);
    forall r | 0 <= r < Count ensures !RejectedAt(planes, box, r) {
      assert !NoneIn(planes[r], box);
    }
  }

  /** The full scan culls every box lying wholly outside one plane, and
      keeps every box with all corners inside all planes. */
  lemma VisibleCulls(planes: seq<Plane>, box: seq<Vec3>, r: nat)
    requires |planes| == Count && |box| == 8 && r < Count
    ensures NoneIn(planes[r], box) ==> !BoxVisible(planes, box)
    ensures (forall i, j :: 0 <= i < Count && 0 <= j < 8 ==> Inside(planes[i], box[j])) ==> BoxVisible(planes, box)
  {
    if forall i, j :: 0 <= i < Count && 0 <= j < 8 ==> Inside(planes[i], box[j]) {
      forall i | 0 <= i < Count ensures !NoneIn(planes[i], box) {
        assert Inside(planes[i], box[0]);
      }
    }
  }

  /** Planes that accept everything except at two faces: the left plane
      x = 0 and a far plane at depth d (inside where z <= d). */
  function StraddlePlanes(d: real): (ps: seq<Plane>)
    ensures |ps| == Count
  {
    var all := Plane(Vec4(0.0, 0.0, 0.0, 1.0));
    [Plane(Vec4(1.0, 0.0, 0.0, 0.0)), all, all, all, all, Plane(Vec4(0.0, 0.0, -1.0, d))]
  }

  /** A unit box across x = 0, lying at depths d + 1 .. d + 2. */
  function StraddleBox(d: real): (box: seq<Vec3>)
    ensures |box| == 8
  {
    [Vec3(-1.0, 0.0, d + 1.0), Vec3(1.0, 0.0, d + 1.0), Vec3(-1.0, 1.0, d + 1.0), Vec3(1.0, 1.0, d + 1.0),
     Vec3(-1.0, 0.0, d + 2.0), Vec3(1.0, 0.0, d + 2.0), Vec3(-1.0, 1.0, d + 2.0), Vec3(1.0, 1.0, d + 2.0)]
  }

  /** Whatever the far distance, the box straddles the left plane but lies
      wholly beyond the far plane: `boxIn` keeps it, the full scan culls it. */
  lemma StraddleBeyondFar(d: real)
    ensures BoxInSpec(StraddlePlanes(d), StraddleBox(d))
    ensures !BoxVisible(StraddlePlanes(d), StraddleBox(d))
  {
    var planes, box := StraddlePlanes(d), StraddleBox(d);
    assert Inside(planes[FaceIndex(Left)], box[1]);
    assert !Inside(planes[FaceIndex(Left)], box[0]);
    StraddlingLeftKept(planes, box);
    var far := planes[5];
    assert !Inside(far, box[0]) && !Inside(far, box[1]) && !Inside(far, box[2]) && !Inside(far, box[3]);
    assert !Inside(far, box[4]) && !Inside(far, box[5]) && !Inside(far, box[6]) && !Inside(far, box[7]);
    assert NoneIn(planes[5], box);
  }

  class Frustum {
    /** `planes`, indexed by `FrustumFaces`. */
    const planes: array<Plane>

    ghost predicate Valid()
      reads this
    {
      planes.Length == Count
    }

    /** The constructor runs `update` on the camera's matrix. */
    constructor (pv: Mat4)
      ensures Valid()
      ensures exists scales :: (|scales| == Count && AllPositive(scales) &&
        planes[..] == ScaledPlanes(RawPlanes(pv), scales))
    {
      planes := new Plane[Count](_ => Plane(Vec4(0.0, 0.0, 0.0, 0.0)));
      new;
      var scales := Update(pv);
    }

    /** `update`: each plane is the raw plane of its face multiplied by some
        positive factor, the reciprocal length `normalize` divides by. The
        factors are the ghost out-parameter `scales`. */
    method Update(pv: Mat4) returns (ghost scales: seq<real>)
      requires Valid()
      modifies planes
      ensures Valid()
      ensures |scales| == Count && AllPositive(scales)
      ensures planes[..] == ScaledPlanes(RawPlanes(pv), scales)
    {
      var raw := RawPlanes(pv);
      var k0 := NormalisingFactor(RawPlane(pv, Left).plane);
      var k1 := NormalisingFactor(RawPlane(pv, Right).plane);
      var k2 := NormalisingFactor(RawPlane(pv, Bottom).plane);
      var k3 := NormalisingFactor(RawPlane(pv, Top).plane);
      var k4 := NormalisingFactor(RawPlane(pv, Near).plane);
      var k5 := NormalisingFactor(RawPlane(pv, Far).plane);
      planes[FaceIndex(Left)] := RawPlane(pv, Left).Scaled(k0);
      planes[FaceIndex(Right)] := RawPlane(pv, Right).Scaled(k1);
      planes[FaceIndex(Bottom)] := RawPlane(pv, Bottom).Scaled(k2);
      planes[FaceIndex(Top)] := RawPlane(pv, Top).Scaled(k3);
      planes[FaceIndex(Near)] := RawPlane(pv, Near).Scaled(k4);
      planes[FaceIndex(Far)] := RawPlane(pv, Far).Scaled(k5);
      scales := [k0, k1, k2, k3, k4, k5];
      assert raw[0] == RawPlane(pv, Left) && raw[1] == RawPlane(pv, Right) && raw[2] == RawPlane(pv, Bottom);
      assert raw[3] == RawPlane(pv, Top) && raw[4] == RawPlane(pv, Near) && raw[5] == RawPlane(pv, Far);
    }

    /** `pointIn`: the scan stops at the first plane the point is behind. */
    method PointIn(point: Vec3) returns (r: bool)
      requires Valid()
      ensures r == PointInSpec(planes[..], point)
    {
      for i := 0 to Count
        invariant forall l :: 0 <= l < i ==> Inside(planes[l], point)
      {
        if planes[i].SignDistance(point) < 0.0 {
          return false;
        }
      }
      return true;
    }

    /** `boxIn`: for each plane in order, count the corners outside (`out`)
        and inside (`in`); no corner inside rejects, a corner outside (with
        one inside) accepts, otherwise go on to the next plane. */
    method BoxIn(box: seq<Vec3>) returns (r: bool)
      requires Valid() && |box| == 8
      ensures r == BoxInSpec(planes[..], box)
    {
      for i := 0 to Count
        invariant BoxInSpec(planes[..], box) == BoxInFrom(planes[..], box, i)
      {
        var p := planes[i];
        var out, inn := 0, 0;
        for j := 0 to 8
          invariant out == OutCount(p, box, j) && inn == InCount(p, box, j)
        {
          if p.SignDistance(box[j]) < 0.0 {
            out := out + 1;
          } else {
            inn := inn + 1;
          }
        }
        if inn == 0 {
          return false;
        } else if out != 0 {
          return true;
        }
      }
      return true;
    }

    /** `boxIn` without the early acceptance: every plane is scanned and the
        box is rejected by any plane with no corner inside. */
    method BoxInCorrected(box: seq<Vec3>) returns (r: bool)
      requires Valid() && |box| == 8
      ensures r == BoxVisible(planes[..], box)
    {
      for i := 0 to Count
        invariant forall l :: 0 <= l < i ==> !NoneIn(planes[l], box)
      {
        var p := planes[i];
        var inn := 0;
        for j := 0 to 8
          invariant inn == InCount(p, box, j)
        {
          if p.SignDistance(box[j]) >= 0.0 {
            inn := inn + 1;
          }
        }
        InCountExtremes(p, box, 8);
        if inn == 0 {
          return false;
        }
      }
      return true;
    }
  }

  /** The factor `glm::normalize` multiplies a plane by: the reciprocal of
      its length, which the model only knows to be positive. */
  method NormalisingFactor(v: Vec4) returns (k: real)
    ensures Positive(k)
  {
    assert Positive(1.0);
    k :| Positive(k);
  }

  /** After `update`, classifying against the normalised planes is the same
      as classifying against the raw rows W +/- X, Y, Z. */
  lemma UpdatedClassification(planes: seq<Plane>, pv: Mat4, scales: seq<real>, point: Vec3, box: seq<Vec3>)
    requires |scales| == Count && AllPositive(scales) && planes == ScaledPlanes(RawPlanes(pv), scales)
    requires |box| == 8
    ensures |planes| == Count
    ensures PointInSpec(planes, point) == PointInSpec(RawPlanes(pv), point)
    ensures BoxInSpec(planes, box) == BoxInSpec(RawPlanes(pv), box)
  {
    ClassificationScaleInvariant(RawPlanes(pv), scales, point, box);
  }
}
