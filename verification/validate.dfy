/**
 * The scene check the legacy fluid bake runs before exporting anything
 * (fluid_validate_scene): exactly one domain, fewer than 255 objects that
 * need animation channels, and at least one object that adds fluid.
 */
module SceneValidation {
  import opened FluidChannels

  datatype Option<T> = None | Some(value: T)

  /** An object of the scene, as far as the check looks at it. */
  datatype SceneObject = SceneObject(id: nat, isMesh: bool, fluidsim: Option<FluidsimType>)

  /** The check's result: 1, or 0 with the reported error. */
  datatype Validation = Ok | Error(message: string)

  const MultipleDomainsMessage := "There should be only one domain object"
  const NoDomainMessage := "No domain object found"
  const TooManyObjectsMessage := "Cannot bake with more than 256 objects"
  const NoInputMessage := "No fluid input objects in the scene"

  /** The largest number of channel objects the check lets through, plus one. */
  const ChannelObjectLimit := 255

  /** Only mesh objects with a fluid simulation modifier take part. */
  predicate Takes(o: SceneObject)
  {
    o.isMesh && o.fluidsim.Some?
  }

  predicate IsDomain(o: SceneObject)
  {
    Takes(o) && o.fluidsim.value == Domain
  }

  /** Objects that get animation channels: all but domains and particle objects. */
  predicate IsChannelObject(o: SceneObject)
  {
    Takes(o) && o.fluidsim.value != Domain && o.fluidsim.value != Particle
  }

  /** Objects that add fluid: fluid and inflow objects. */
  predicate IsFluidInput(o: SceneObject)
  {
    Takes(o) && (o.fluidsim.value == Fluid || o.fluidsim.value == Inflow)
  }

  function ChannelCount(objs: seq<SceneObject>): nat
  {
    if |objs| == 0 then 0
    else ChannelCount(objs[..|objs| - 1]) + (if IsChannelObject(objs[|objs| - 1]) then 1 else 0)
  }

  function InputCount(objs: seq<SceneObject>): nat
  {
    if |objs| == 0 then 0
    else InputCount(objs[..|objs| - 1]) + (if IsFluidInput(objs[|objs| - 1]) then 1 else 0)
  }

  /** A domain object other than the given domain. */
  predicate HasForeignDomain(objs: seq<SceneObject>, given: nat)
  {
    exists i :: 0 <= i < |objs| && IsDomain(objs[i]) && objs[i].id != given
  }

  predicate HasDomain(objs: seq<SceneObject>)
  {
    exists i :: 0 <= i < |objs| && IsDomain(objs[i])
  }

  /**
   * The verdict, stated over the whole scene: with a given domain, any
   * other domain object is an error; without one, some domain object must
   * exist (several are not an error); then the channel-object limit, then
   * the fluid-input requirement.
   */
  function Verdict(objs: seq<SceneObject>, given: Option<nat>): Validation
  {
    if given.Some? && HasForeignDomain(objs, given.value) then Error(MultipleDomainsMessage)
    else if given.None? && !HasDomain(objs) then Error(NoDomainMessage)
    else if ChannelCount(objs) >= ChannelObjectLimit then Error(TooManyObjectsMessage)
    else if InputCount(objs) == 0 then Error(NoInputMessage)
    else Ok
  }

  /** fluid_validate_scene: one pass over the scene's objects, then the three checks. */
  method ValidateScene(objs: seq<SceneObject>, fsDomain: Option<nat>) returns (v: Validation)
    ensures v == Verdict(objs, fsDomain)
  {
    var newDomain: Option<nat> := None;
    var channelObjCount := 0;
    var fluidInputCount := 0;
    var i := 0;
    while i < |objs|
      invariant 0 <= i <= |objs|
      invariant channelObjCount == ChannelCount(objs[..i])
      invariant fluidInputCount == InputCount(objs[..i])
      invariant fsDomain.None? ==> (newDomain.Some? <==> HasDomain(objs[..i]))
      invariant fsDomain.Some? ==> newDomain.None?
      invariant fsDomain.Some? ==> !HasForeignDomain(objs[..i], fsDomain.value)
    {
      var ob := objs[i];
      assert objs[..i + 1][..i] == objs[..i];
      assert objs[..i + 1][i] == ob;
      assert forall j :: 0 <= j < i ==> objs[..i + 1][j] == objs[..i][j];
      if !Takes(ob) {
        i := i + 1;
        continue;
      }
      if ob.fluidsim.value == Domain {
        if fsDomain.None? {
          newDomain := Some(ob.id);
        } else if ob.id != fsDomain.value {
          assert objs[..i + 1][i] == ob;
          assert HasForeignDomain(objs, fsDomain.value);
          return Error(MultipleDomainsMessage);
        }
      }
      if ob.fluidsim.value != Domain && ob.fluidsim.value != Particle {
        channelObjCount := channelObjCount + 1;
      }
      if ob.fluidsim.value == Fluid || ob.fluidsim.value == Inflow {
        fluidInputCount := fluidInputCount + 1;
      }
      assert objs[..i + 1][i] == ob;
      i := i + 1;
    }
    assert objs[..i] == objs;
    var domain := if newDomain.Some? then newDomain else fsDomain;
    if domain.None? {
      return Error(NoDomainMessage);
    }
    if channelObjCount >= ChannelObjectLimit {
      return Error(TooManyObjectsMessage);
    }
    if fluidInputCount == 0 {
      return Error(NoInputMessage);
    }
    return Ok;
  }

  /** Every object that adds fluid also gets animation channels. */
  lemma {:induction false} InputsAreChannelObjects(objs: seq<SceneObject>)
    ensures InputCount(objs) <= ChannelCount(objs)
  {
    if |objs| > 0 {
      InputsAreChannelObjects(objs[..|objs| - 1]);
    }
  }

  /** Adding one object to the scene adds at most one channel object. */
  lemma {:induction false} ChannelCountAppend(objs: seq<SceneObject>, o: SceneObject)
    ensures ChannelCount(objs + [o]) == ChannelCount(objs) + (if IsChannelObject(o) then 1 else 0)
  {
    assert (objs + [o])[..|objs|] == objs;
  }

  /**
   * A scene the check accepts has a domain and an object that adds fluid,
   * and fewer than 255 objects with animation channels.
   */
  lemma {:induction false} AcceptedScene(objs: seq<SceneObject>, given: Option<nat>)
    requires Verdict(objs, given) == Ok
    ensures given.Some? || HasDomain(objs)
    ensures exists i :: 0 <= i < |objs| && IsFluidInput(objs[i])
    ensures ChannelCount(objs) < ChannelObjectLimit
  {
    var i := FindInput(objs);
  }

  /** An object that adds fluid, in a scene that has one. */
  lemma {:induction false} FindInput(objs: seq<SceneObject>) returns (i: nat)
    requires InputCount(objs) > 0
    ensures i < |objs| && IsFluidInput(objs[i])
  {
    var last := objs[|objs| - 1];
    if IsFluidInput(last) {
      i := |objs| - 1;
    } else {
      i := FindInput(objs[..|objs| - 1]);
    }
  }

  /** The channel limit: 254 channel objects pass the check, 255 do not. */
  lemma ChannelLimitBoundary(objs: seq<SceneObject>, o: SceneObject, given: Option<nat>)
    requires ChannelCount(objs) == 254 && IsChannelObject(o)
    requires Verdict(objs, given) == Ok
    ensures Verdict(objs + [o], given) == Error(TooManyObjectsMessage)
  {
    ChannelCountAppend(objs, o);
    assert IsDomain(o) == false;
    if given.Some? {
      forall i | 0 <= i < |objs + [o]| && IsDomain((objs + [o])[i])
        ensures (objs + [o])[i].id == given.value
      {
        assert (objs + [o])[i] == objs[i];
      }
    } else {
      var i :| 0 <= i < |objs| && IsDomain(objs[i]);
      assert (objs + [o])[i] == objs[i];
    }
  }

  /** Without a given domain, a scene with two domain objects is accepted. */
  lemma TwoDomainsPassWhenNoneGiven()
    ensures Verdict([SceneObject(1, true, Some(Domain)), SceneObject(2, true, Some(Domain)),
                     SceneObject(3, true, Some(Fluid))], None) == Ok
    ensures Verdict([SceneObject(1, true, Some(Domain)), SceneObject(2, true, Some(Domain)),
                     SceneObject(3, true, Some(Fluid))], Some(1)) == Error(MultipleDomainsMessage)
  {
    var objs := [SceneObject(1, true, Some(Domain)), SceneObject(2, true, Some(Domain)),
                 SceneObject(3, true, Some(Fluid))];
    assert IsDomain(objs[0]) && IsDomain(objs[1]) && objs[1].id != 1;
    var p1, p2 := objs[..1], objs[..2];
    assert p1[..0] == [] && p1[0] == objs[0];
    assert ChannelCount(p1) == 0 && InputCount(p1) == 0;
    assert p2[..1] == p1 && p2[1] == objs[1];
    assert ChannelCount(p2) == 0 && InputCount(p2) == 0;
    assert objs[..|objs| - 1] == p2;
    assert ChannelCount(objs) == 1 && InputCount(objs) == 1;
  }
}
