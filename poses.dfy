/** The rotation logic that `Transform` and `VRPlayer` share: both keep their
    orientation as nullable forward/up/left component lists plus a nullable
    quaternion cache, and both derive the quaternion from forward and up with
    `Math2.QuaternionLookRotation` when the cache is empty. */
module Poses {
  import opened Common
  import opened Geometry
  import opened Vector3Extensions

  /** `value.ToVector3()` on a list that may be null. */
  function NullableToVector3(list: Option<seq<real>>): Result<Vector3>
  {
    match list
    case None => Failure(NullReference)
    case Some(l) => ToVector3(l)
  }

  /** `QuaternionLookRotation(forward.ToVector3(), up.ToVector3())`, with
      `forward` converted (and able to throw) before `up`. */
  function DeriveRotation(forward: Option<seq<real>>, up: Option<seq<real>>, look: LookRotation): (r: Result<Quaternion>)
    ensures r.Success? <==> NullableToVector3(forward).Success? && NullableToVector3(up).Success?
    ensures r.Success? ==> r.value == look(NullableToVector3(forward).value, NullableToVector3(up).value)
    ensures NullableToVector3(forward).Failure? ==> r == Failure(NullableToVector3(forward).error)
    ensures NullableToVector3(forward).Success? && NullableToVector3(up).Failure? ==>
      r == Failure(NullableToVector3(up).error)
    ensures r.Failure? ==> r.error == NullReference || r.error == ConversionFailed
  {
    var f := NullableToVector3(forward);
    if f.Failure? then Failure(f.error)
    else
      var u := NullableToVector3(up);
      if u.Failure? then Failure(u.error)
      else Success(look(f.value, u.value))
  }

  /** What the `Rotation` getter yields: the cached quaternion when there is
      one, otherwise the one derived from the direction lists. This is the
      definition the `Lerp` contracts of `Transform` and `VRPlayer` are
      stated against. */
  function ResolveRotation(rot: Option<Quaternion>, forward: Option<seq<real>>, up: Option<seq<real>>, look: LookRotation): Result<Quaternion>
  {
    if rot.Some? then Success(rot.value) else DeriveRotation(forward, up, look)
  }

  /** The cache after a `Rotation` get: filled with the value returned, or
      left as it was when the get threw. */
  function CacheAfterGet(rot: Option<Quaternion>, got: Result<Quaternion>): (r: Option<Quaternion>)
    ensures rot.Some? && got == Success(rot.value) ==> r == rot
    ensures got.Failure? ==> r == rot
  {
    if got.Success? then Some(got.value) else rot
  }

  /** Once the cache holds a value, every later get returns it and keeps it,
      whatever the direction lists say. */
  lemma {:induction false} CacheIsStable(rot: Option<Quaternion>, forward: Option<seq<real>>, up: Option<seq<real>>, look: LookRotation)
    requires ResolveRotation(rot, forward, up, look).Success?
    ensures var cached := CacheAfterGet(rot, ResolveRotation(rot, forward, up, look));
      && cached.Some?
      && forall f: Option<seq<real>>, u: Option<seq<real>> ::
           ResolveRotation(cached, f, u, look) == ResolveRotation(rot, forward, up, look)
  {
  }
}
