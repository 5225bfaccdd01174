/** The class `VRPlayer` of VRPlayer.cs: the recording user's tracked head,
    with one position list (absent means the origin) and the same cached
    rotation scheme as `Transform`. */
module VRPlayers {
  import opened Common
  import opened Geometry
  import Math2
  import opened Vector3Extensions
  import opened Poses

  class VRPlayer {
    var vrLeft: Option<seq<real>>
    var vrPosition: Option<seq<real>>
    var vrForward: Option<seq<real>>
    var vrUp: Option<seq<real>>
    /** The rotation cache; no constructor fills it. */
    var rot: Option<Quaternion>

    /** The object initializer `new VRPlayer() { vr_position = …, … }`. */
    constructor (vrPosition: Option<seq<real>>, vrLeft: Option<seq<real>>,
                 vrForward: Option<seq<real>>, vrUp: Option<seq<real>>)
      ensures this.vrPosition == vrPosition && this.vrLeft == vrLeft
      ensures this.vrForward == vrForward && this.vrUp == vrUp
      ensures rot == None
    {
      this.vrPosition := vrPosition;
      this.vrLeft := vrLeft;
      this.vrForward := vrForward;
      this.vrUp := vrUp;
      rot := None;
    }

    /** The `Position` getter: the origin when `vr_position` is null. */
    function Position(): (r: Result<Vector3>)
      reads this
      ensures vrPosition.None? ==> r == Success(Zero)
      ensures vrPosition.Some? ==> r == ToVector3(vrPosition.value)
      ensures r.Failure? ==> r.error == ConversionFailed
    {
      if vrPosition.Some? then ToVector3(vrPosition.value) else Success(Zero)
    }

    /** The `Position` setter: always writes `vr_position`. */
    method SetPosition(value: Vector3)
      modifies this`vrPosition
      ensures vrPosition == Some(ToFloatList(value))
      ensures Position() == Success(value)
    {
      vrPosition := Some(ToFloatList(value));
    }

    /** What a `Rotation` get yields in the current state. */
    function RotationValue(look: LookRotation): Result<Quaternion>
      reads this
    {
      ResolveRotation(rot, vrForward, vrUp, look)
    }

    /** The `Rotation` getter: derives the quaternion from `vr_forward` and
        `vr_up` on the first successful read and returns the stored one
        afterwards. Nothing but `rot` is written. */
    method GetRotation(look: LookRotation) returns (r: Result<Quaternion>)
      modifies this`rot
      ensures old(rot).Some? ==> r == Success(old(rot).value) && rot == old(rot)
      ensures old(rot).None? ==> r == DeriveRotation(vrForward, vrUp, look)
      ensures r.Success? ==> rot == Some(r.value)
      ensures r.Failure? ==> rot == old(rot)
    {
      if rot.Some? {
        return Success(rot.value);
      }
      r := DeriveRotation(vrForward, vrUp, look);
      if r.Success? {
        rot := Some(r.value);
      }
    }

    /** The `Rotation` setter: caches `value` and rewrites the three
        direction lists from it, so the next get returns exactly `value`. */
    method SetRotation(value: Quaternion)
      modifies this`rot, this`vrForward, this`vrUp, this`vrLeft
      ensures rot == Some(value)
      ensures vrForward == Some(ToFloatList(Forward(value)))
      ensures vrUp == Some(ToFloatList(Up(value)))
      ensures vrLeft == Some(ToFloatList(Left(value)))
      ensures forall look: LookRotation :: RotationValue(look) == Success(value)
    {
      rot := Some(value);
      vrForward := Some(ToFloatList(Forward(value)));
      vrUp := Some(ToFloatList(Up(value)));
      vrLeft := Some(ToFloatList(Left(value)));
    }

    /** `VRPlayer.Lerp`: clamps `t` into [0,1], starts from a copy of `from`'s
        lists, then sets the blended position (so the result always has a
        `vr_position`) and the blended rotation. Reading the inputs' rotations
        fills their caches; no other field of `from` or `to` is written. */
    static method Lerp(from: VRPlayer, to: VRPlayer, t: real, look: LookRotation, blend: QuaternionLerp)
      returns (r: Result<VRPlayer>)
      modifies from`rot, to`rot
      ensures var fp, tp := old(from.Position()), old(to.Position());
        var fr, tr := old(from.RotationValue(look)), old(to.RotationValue(look));
        var s := Math2.Clamp01(t);
        && (fp.Failure? ==> r == Failure(fp.error))
        && (fp.Success? && tp.Failure? ==> r == Failure(tp.error))
        && (fp.Success? && tp.Success? && fr.Failure? ==> r == Failure(fr.error))
        && (fp.Success? && tp.Success? && fr.Success? && tr.Failure? ==> r == Failure(tr.error))
        && (r.Success? <==> fp.Success? && tp.Success? && fr.Success? && tr.Success?)
        && (r.Success? ==>
              && fresh(r.value)
              && r.value.vrPosition == Some(ToFloatList(Vector3Lerp(fp.value, tp.value, s)))
              && r.value.Position() == Success(Vector3Lerp(fp.value, tp.value, s))
              && r.value.rot == Some(blend(fr.value, tr.value, s))
              && r.value.vrForward == Some(ToFloatList(Forward(r.value.rot.value)))
              && r.value.vrUp == Some(ToFloatList(Up(r.value.rot.value)))
              && r.value.vrLeft == Some(ToFloatList(Left(r.value.rot.value))))
        && from.rot == (if fp.Success? && tp.Success? then CacheAfterGet(old(from.rot), fr) else old(from.rot))
        && to.rot == (if fp.Success? && tp.Success? && fr.Success? then CacheAfterGet(old(to.rot), tr) else old(to.rot))
    {
      var s := Math2.Clamp01(t);
      var result := new VRPlayer(from.vrPosition, from.vrLeft, from.vrForward, from.vrUp);
      var fromPosition := from.Position();
      if fromPosition.Failure? {
        return Failure(fromPosition.error);
      }
      var toPosition := to.Position();
      if toPosition.Failure? {
        return Failure(toPosition.error);
      }
      result.SetPosition(Vector3Lerp(fromPosition.value, toPosition.value, s));
      var fromRotation := from.GetRotation(look);
      if fromRotation.Failure? {
        return Failure(fromRotation.error);
      }
      var toRotation := to.GetRotation(look);
      if toRotation.Failure? {
        return Failure(toRotation.error);
      }
      result.SetRotation(blend(fromRotation.value, toRotation.value, s));
      return Success(result);
    }
  }
}
