/** The class `Transform` of Transform.cs: a tracked position and orientation
    as the game's JSON carries it.

    The position may arrive under either of two names, `pos` or `position`
    (whichever the producer filled); the orientation arrives as forward, left
    and up component lists, and the quaternion derived from them is cached in
    `rot` on first read. */
module Transforms {
  import opened Common
  import opened Geometry
  import Math2
  import opened Vector3Extensions
  import opened Poses

  class Transform {
    var pos: Option<seq<real>>
    var position: Option<seq<real>>
    var forward: Option<seq<real>>
    var left: Option<seq<real>>
    var up: Option<seq<real>>
    /** The rotation cache; no constructor fills it. */
    var rot: Option<Quaternion>

    /** The object initializer `new Transform() { pos = …, … }`. */
    constructor (pos: Option<seq<real>>, position: Option<seq<real>>,
                 left: Option<seq<real>>, forward: Option<seq<real>>, up: Option<seq<real>>)
      ensures this.pos == pos && this.position == position
      ensures this.left == left && this.forward == forward && this.up == up
      ensures rot == None
    {
      this.pos := pos;
      this.position := position;
      this.left := left;
      this.forward := forward;
      this.up := up;
      rot := None;
    }

    /** The `Position` getter: `pos` takes precedence over `position`, and
        with neither set the getter throws. */
    function Position(): (r: Result<Vector3>)
      reads this
      ensures r == Failure(NullReference) <==> pos.None? && position.None?
      ensures pos.Some? ==> r == ToVector3(pos.value)
      ensures pos.None? && position.Some? ==> r == ToVector3(position.value)
    {
      if pos.Some? then ToVector3(pos.value)
      else if position.Some? then ToVector3(position.value)
      else Failure(NullReference)
    }

    /** The `Position` setter: rewrites only the representations that were
        already present, so a transform with neither stays without a position. */
    method SetPosition(value: Vector3)
      modifies this`pos, this`position
      ensures pos.Some? == old(pos).Some? && position.Some? == old(position).Some?
      ensures pos.Some? ==> pos.value == ToFloatList(value)
      ensures position.Some? ==> position.value == ToFloatList(value)
      ensures old(pos.Some? || position.Some?) ==> Position() == Success(value)
      ensures old(pos.None? && position.None?) ==> Position() == Failure(NullReference)
    {
      if pos.Some? {
        pos := Some(ToFloatList(value));
      }
      if position.Some? {
        position := Some(ToFloatList(value));
      }
    }

    /** What a `Rotation` get yields in the current state. */
    function RotationValue(look: LookRotation): Result<Quaternion>
      reads this
    {
      ResolveRotation(rot, forward, up, look)
    }

    /** The `Rotation` getter: a memo. With the cache empty it derives the
        quaternion from `forward` and `up` and stores it; with the cache full
        it returns the stored quaternion. Nothing but `rot` is written. */
    method GetRotation(look: LookRotation) returns (r: Result<Quaternion>)
      modifies this`rot
      ensures old(rot).Some? ==> r == Success(old(rot).value) && rot == old(rot)
      ensures old(rot).None? ==> r == DeriveRotation(forward, up, look)
      ensures r.Success? ==> rot == Some(r.value)
      ensures r.Failure? ==> rot == old(rot)
    {
      if rot.Some? {
        return Success(rot.value);
      }
      r := DeriveRotation(forward, up, look);
      if r.Success? {
        rot := Some(r.value);
      }
    }

    /** The `Rotation` setter: caches `value` and rewrites the three direction
        lists from it, so the next get returns exactly `value`. */
    method SetRotation(value: Quaternion)
      modifies this`rot, this`forward, this`up, this`left
      ensures rot == Some(value)
      ensures forward == Some(ToFloatList(Forward(value)))
      ensures up == Some(ToFloatList(Up(value)))
      ensures left == Some(ToFloatList(Left(value)))
      ensures forall look: LookRotation :: RotationValue(look) == Success(value)
    {
      rot := Some(value);
      forward := Some(ToFloatList(Forward(value)));
      up := Some(ToFloatList(Up(value)));
      left := Some(ToFloatList(Left(value)));
    }

    /** `Transform.Lerp`: clamps `t` into [0,1], starts from a copy of
        `from`'s lists (so the result has `from`'s position shape), then sets
        the blended position and the blended rotation. Reading the inputs'
        rotations fills their caches; no other field of `from` or `to` is
        written. Each getter that throws ends the call with its exception. */
    static method Lerp(from: Transform, to: Transform, t: real, look: LookRotation, blend: QuaternionLerp)
      returns (r: Result<Transform>)
      modifies from`rot, to`rot
      ensures var fp, tp := old(from.Position()), old(to.Position());
        var fr, tr := old(from.RotationValue(look)), old(to.RotationValue(look));
        var s := Math2.Clamp01(t);
        && (fp.Failure? ==> r == Failure(fp.error))
        && (fp.Success? && tp.Failure? ==> r == Failure(tp.error))
        && (fp.Success? && tp.Success? && fr.Failure? ==> r == Failure(fr.error))
        && (fp.Success? && tp.Success? && fr.Success? && tr.Failure? ==> r == Failure(tr.error))
        && (r.Success? <==> fp.Success? && tp.Success? && fr.Success? && tr.Success?)
        && (r.Success? ==>
              && fresh(r.value)
              && (r.value.pos.Some? <==> old(from.pos).Some?)
              && (r.value.position.Some? <==> old(from.position).Some?)
              && (r.value.pos.Some? ==> r.value.pos.value == ToFloatList(Vector3Lerp(fp.value, tp.value, s)))
              && (r.value.position.Some? ==> r.value.position.value == ToFloatList(Vector3Lerp(fp.value, tp.value, s)))
              && r.value.Position() == Success(Vector3Lerp(fp.value, tp.value, s))
              && r.value.rot == Some(blend(fr.value, tr.value, s))
              && r.value.forward == Some(ToFloatList(Forward(r.value.rot.value)))
              && r.value.up == Some(ToFloatList(Up(r.value.rot.value)))
              && r.value.left == Some(ToFloatList(Left(r.value.rot.value))))
        && from.rot == (if fp.Success? && tp.Success? then CacheAfterGet(old(from.rot), fr) else old(from.rot))
        && to.rot == (if fp.Success? && tp.Success? && fr.Success? then CacheAfterGet(old(to.rot), tr) else old(to.rot))
    {
      var s := Math2.Clamp01(t);
      var result := new Transform(from.pos, from.position, from.left, from.forward, from.up);
      var fromPosition := from.Position();
      if fromPosition.Failure? {
        return Failure(fromPosition.error);
      }
      var toPosition := to.Position();
      if toPosition.Failure? {
        return Failure(toPosition.error);
      }
      result.SetPosition(Vector3Lerp(fromPosition.value, toPosition.value, s));
      var fromRotation := from.GetRotation(look);
      if fromRotation.Failure? {
        return Failure(fromRotation.error);
      }
      var toRotation := to.GetRotation(look);
      if toRotation.Failure? {
        return Failure(toRotation.error);
      }
      result.SetRotation(blend(fromRotation.value, toRotation.value, s));
      return Success(result);
    }
  }

}
