/** vrmrig.py: the second generation of the rigging script, classes around the armature object that check
    nothing and let a missing bone surface as the exception Python raises on the spot. */
module VrmRig {
  import opened Outcomes
  import opened Geometry
  import opened Constraints
  import opened Armature

  // ---------------------------------------------------------------------------------------------
  // ArmatureSupport

  /** The mode switches of `edit_mode(func)` around a `func` that leaves the object in EDIT mode: none when the
      object was in EDIT already, otherwise into EDIT and back. */
  function EditScopeLog(prevmode: Mode): seq<Mode>
  {
    if prevmode == EditMode then [] else [EditMode, prevmode]
  }

  /** `ArmatureSupport(armature)`: lookups and edits on one armature object. */
  class ArmatureSupport {
    const armature: Skeleton

    constructor(armature: Skeleton)
      ensures this.armature == armature
    {
      this.armature := armature;
    }

    /** The part of `edit_mode(func)` before `func()`: remember the mode and enter EDIT unless already there. */
    method EnterEditMode() returns (prevmode: Mode)
      modifies armature`mode, armature`modeLog
      ensures prevmode == old(armature.mode) && armature.mode == EditMode
      ensures armature.modeLog == old(armature.modeLog) + (if prevmode == EditMode then [] else [EditMode])
    {
      prevmode := armature.mode;
      if prevmode != EditMode {
        armature.ModeSet(EditMode);
      }
    }

    /** The `finally` of `edit_mode(func)`, run whether `func()` returned or raised: switch back to the entry mode
        when the object is in another one. */
    method LeaveEditMode(prevmode: Mode)
      modifies armature`mode, armature`modeLog
      ensures armature.mode == prevmode
      ensures armature.modeLog == old(armature.modeLog) + (if prevmode == old(armature.mode) then [] else [prevmode])
    {
      if prevmode != armature.mode {
        armature.ModeSet(prevmode);
      }
    }

    /** `get_edit_bone(bonename, create)`: the bone (returned by its name) when it exists; a new bone when it is
        missing and `create` holds; `None` otherwise, with nothing created. */
    method GetEditBone(bonename: string, create: bool) returns (bone: Option<string>)
      modifies armature`bones
      ensures bone == (if bonename in old(armature.bones) || create then Some(bonename) else None)
      ensures bonename in old(armature.bones) || !create ==> armature.bones == old(armature.bones)
      ensures bonename !in old(armature.bones) && create ==> armature.bones == old(armature.bones)[bonename := armature.blank]
    {
      if bonename in armature.bones {
        bone := Some(bonename);
      } else if create {
        armature.NewBone(bonename);
        bone := Some(bonename);
      } else {
        bone := None;
      }
    }

    /** `get_pose_bone(bonename)` and `get_bone(bonename)`: `bones.get(bonename)`, `None` for a missing bone. The
        model keeps edit, pose and armature bones in one table, so both are this lookup. */
    method GetBone(bonename: string) returns (bone: Option<Bone>)
      ensures bone.Some? <==> bonename in armature.bones
      ensures bone.Some? ==> bone.value == armature.bones[bonename]
    {
      if bonename in armature.bones {
        bone := Some(armature.bones[bonename]);
      } else {
        bone := None;
      }
    }

    /** `get_bone_constraint(bonename, type, name)`: `pose.bones[bonename]` raises `KeyError` for a missing bone;
        otherwise the position of the first constraint named `name`, or of a new one of type `kind` appended
        under that name. Nothing else changes. */
    method GetBoneConstraint(bonename: string, kind: Kind, name: string) returns (r: Result<nat>)
      modifies armature`bones
      ensures bonename !in old(armature.bones) ==> r == Err(KeyError(bonename)) && armature.bones == old(armature.bones)
      ensures bonename in old(armature.bones) ==>
        var f := FindOrAdd(old(armature.bones)[bonename].constraints, name, kind);
        && r == Ok(f.index) && f.index < |f.cs|
        && armature.bones == old(armature.bones)[bonename := old(armature.bones)[bonename].(constraints := f.cs)]
    {
      if bonename !in armature.bones {
        return Err(KeyError(bonename));
      }
      var found := armature.FindConstraint(bonename, name);
      if found.None? {
        var i := armature.NewConstraint(bonename, name, kind);
        r := Ok(i);
      } else {
        r := Ok(found.value);
        assert armature.bones == armature.bones[bonename := armature.bones[bonename]];
      }
    }
  }

  /** `c = get_bone_constraint(bonename, type, name)` followed by one attribute assignment per entry of `props`:
      the constraint upsert, or `KeyError` with nothing changed for a missing bone. */
  method ConstrainBone(support: ArmatureSupport, bonename: string, kind: Kind, name: string, props: map<string, Value>)
    returns (r: Result<()>)
    modifies support.armature`bones
    ensures bonename !in old(support.armature.bones) ==>
      r == Err(KeyError(bonename)) && support.armature.bones == old(support.armature.bones)
    ensures bonename in old(support.armature.bones) ==>
      r == Ok(()) && support.armature.bones == WithConstraint(old(support.armature.bones), bonename, name, kind, props)
  {
    ghost var cs := if bonename in support.armature.bones then support.armature.bones[bonename].constraints else [];
    var c := support.GetBoneConstraint(bonename, kind, name);
    if c.Err? {
      return Err(c.error);
    }
    support.armature.AssignFields(bonename, c.value, props);
    FindOrAddThenSet(cs, name, kind, props);
    return Ok(());
  }

  /** The outcome of `set_bone_layer`, where `get_bone` gives `None` for a missing bone and setting its layers
      raises `AttributeError`. */
  function LayerRaised(l: Layered): Result<()>
  {
    if l.missing.Some? then Err(NoneAttribute(l.missing.value)) else Ok(())
  }

  // ---------------------------------------------------------------------------------------------
  // FingerCtrl

  /** The bones of `FingerCtrl(armature, side, finger, bending_axis)`; the control bone is `{finger}Rig_{side}`. */
  function FingerRigNames(finger: string, side: string): FingerNames
  {
    FingerNames(finger + "1_" + side, finger + "2_" + side, finger + "3_" + side, "Hand_" + side, finger + "Rig_" + side)
  }

  /** The five names are pairwise different, whatever the finger and the side. */
  lemma FingerRigNamesDistinct(finger: string, side: string)
    ensures var n := FingerRigNames(finger, side);
      && FingerDistinct(n)
      && n.hand != n.b1 && n.hand != n.b2 && n.hand != n.b3
  {
    var n := FingerRigNames(finger, side);
    var k := |finger|;
    assert n.b1[k] == '1' && n.b2[k] == '2' && n.b3[k] == '3';
    assert |n.ctrl| == |n.b1| + 2;
    if k == 3 {
      assert n.hand[3] == 'd';
    }
    if k == 1 {
      assert n.hand[1] == 'a' && n.ctrl[1] == 'R';
    }
  }

  /** The attributes `rotation_follow(follower, followed)` sets on `VRMRIG_RotationFollow`. */
  function RotationFollowProps(followed: string): map<string, Value>
  {
    map["target" := ArmatureObject, "subtarget" := Text(followed), "target_space" := Text("LOCAL"), "owner_space" := Text("LOCAL")]
  }

  /** The attributes `limit_ctrl_scale` sets on `VRMRIG_LimitScale`: every bound on, the Y scale between 0 and 1,
      X and Z fixed at 1, in local space. */
  const CtrlScaleLimits: map<string, Value> := map[
    "use_min_x" := Flag(true), "use_min_y" := Flag(true), "use_min_z" := Flag(true),
    "use_max_x" := Flag(true), "use_max_y" := Flag(true), "use_max_z" := Flag(true),
    "min_y" := Num(0.0), "min_x" := Num(1.0), "min_z" := Num(1.0),
    "max_x" := Num(1.0), "max_z" := Num(1.0), "max_y" := Num(1.0),
    "owner_space" := Text("LOCAL")]

  /** The driver `rotation_driver` installs: the channel follows the shrink of the control bone, mirrored for a
      negative axis. */
  function BendingDriver(ctrl: string, axis: string): Driver
  {
    Driver(true, if IsNegativeAxis(axis) then "var - 1" else "1 - var", [ScaleVariable(ctrl)])
  }

  /** At rest (scale 1) the finger is straight; at the smallest scale the limit allows (0) the channel is at -1 for
      a negative axis and +1 otherwise, and in between it stays on that side of 0. */
  lemma RotationDriverRange(ctrl: string, axis: string, scale: real)
    requires 0.0 <= scale <= 1.0
    ensures Evaluate(BendingDriver(ctrl, axis).expression, 1.0) == Some(0.0)
    ensures Evaluate(BendingDriver(ctrl, axis).expression, 0.0) == Some(if IsNegativeAxis(axis) then -1.0 else 1.0)
    ensures var v := Evaluate(BendingDriver(ctrl, axis).expression, scale);
      v.Some? && (if IsNegativeAxis(axis) then -1.0 <= v.value <= 0.0 else 0.0 <= v.value <= 1.0)
  {
  }

  /** `new_bones` of `FingerCtrl`, run in EDIT mode: the control bone is fetched or created first, so it exists
      even when a later line raises. Its head and tail are read from the first and third segments through
      `get_edit_bone`, whose `None` for a missing segment raises `AttributeError`; a missing hand is no error and
      leaves the control bone without a parent. */
  function FingerRigNewBones(r: Rig, blank: Bone, n: FingerNames): (s: Step)
    ensures s.rig.drivers == r.drivers
    ensures s.out.Ok? ==> n.b1 in s.rig.bones && n.b3 in s.rig.bones && n.ctrl in s.rig.bones
  {
    var bones := r.bones[n.ctrl := Fetch(r.bones, n.ctrl, blank)];
    if n.b1 !in bones then Step(Err(NoneAttribute(n.b1)), Rig(bones, r.drivers))
    else
      var headed := bones[n.ctrl := bones[n.ctrl].(head := bones[n.b1].head)];
      if n.b3 !in headed then Step(Err(NoneAttribute(n.b3)), Rig(headed, r.drivers))
      else
        var tailed := headed[n.ctrl := headed[n.ctrl].(tail := headed[n.b3].tail)];
        var parent := if n.hand in tailed then Some(n.hand) else None;
        Step(Ok(()), Rig(tailed[n.ctrl := tailed[n.ctrl].(parent := parent)], r.drivers))
  }

  /** The steps of `generate` after the edit scope: the two follow constraints, the driver (`KeyError` for an
      unknown axis, `AttributeError` for a missing middle segment), the scale limit and the layer move. */
  function FingerRigFinished(r: Rig, n: FingerNames, axis: string): Step
    requires n.b1 in r.bones && n.b3 in r.bones && n.ctrl in r.bones
  {
    var followed := WithConstraint(r.bones, n.b3, "VRMRIG_RotationFollow", CopyRotation, RotationFollowProps(n.b2));
    var following := WithConstraint(followed, n.b1, "VRMRIG_RotationFollow", CopyRotation, RotationFollowProps(n.ctrl));
    match QuaternionIndex(axis)
    case None => Step(Err(KeyError(axis)), Rig(following, r.drivers))
    case Some(i) =>
      if n.b2 !in following then Step(Err(NoneAttribute(n.b2)), Rig(following, r.drivers))
      else
        var drivers := r.drivers[(n.b2, i) := BendingDriver(n.ctrl, axis)];
        var limited := WithConstraint(following, n.ctrl, "VRMRIG_LimitScale", LimitScale, CtrlScaleLimits);
        var layered := LayerAll(limited, [n.b1, n.b2, n.b3], 1);
        Step(LayerRaised(layered), Rig(layered.bones, drivers))
  }

  /** What `FingerCtrl.generate()` does to the rig. */
  function FingerRigAuto(r: Rig, blank: Bone, n: FingerNames, axis: string): Step
  {
    var e := FingerRigNewBones(r, blank, n);
    if e.out.Err? then e else FingerRigFinished(e.rig, n, axis)
  }

  /** The control bone as `new_bones` leaves it: at the first segment's head, at the third segment's tail, and
      hanging from the hand when there is one. */
  predicate CtrlPlaced(bones: map<string, Bone>, n: FingerNames)
  {
    && n.b1 in bones && n.b3 in bones && n.ctrl in bones
    && bones[n.ctrl].head == bones[n.b1].head
    && bones[n.ctrl].tail == bones[n.b3].tail
    && bones[n.ctrl].parent == (if n.hand in bones then Some(n.hand) else None)
  }

  /** How `generate` ends: a missing first or third segment raises `AttributeError` inside the edit scope, after
      the control bone was created (and, for the third, given its head); past the edit scope the call fails
      exactly for an unknown axis (`KeyError`) or a missing middle segment (`AttributeError`), leaving the drivers
      alone, and on success the channel of the axis holds the driver and no other driver changed. */
  lemma FingerRigOutcome(r: Rig, blank: Bone, n: FingerNames, axis: string)
    requires FingerDistinct(n)
    ensures var s := FingerRigAuto(r, blank, n, axis);
      var c := Fetch(r.bones, n.ctrl, blank);
      && (n.b1 !in r.bones ==> s == Step(Err(NoneAttribute(n.b1)), Rig(r.bones[n.ctrl := c], r.drivers)))
      && (n.b1 in r.bones && n.b3 !in r.bones ==>
            s == Step(Err(NoneAttribute(n.b3)), Rig(r.bones[n.ctrl := c.(head := r.bones[n.b1].head)], r.drivers)))
      && (n.b1 in r.bones && n.b3 in r.bones ==>
            && (s.out.Ok? <==> QuaternionIndex(axis).Some? && n.b2 in r.bones)
            && (QuaternionIndex(axis).None? ==> s.out == Err(KeyError(axis)) && s.rig.drivers == r.drivers)
            && (QuaternionIndex(axis).Some? && n.b2 !in r.bones ==> s.out == Err(NoneAttribute(n.b2)) && s.rig.drivers == r.drivers)
            && (s.out.Ok? ==> s.rig.drivers == r.drivers[(n.b2, QuaternionIndex(axis).value) := BendingDriver(n.ctrl, axis)]))
  {
    var e := FingerRigNewBones(r, blank, n);
    if e.out.Ok? {
      var following := FingerRigFollowing(e.rig.bones, n);
      assert following.Keys == e.rig.bones.Keys;
      if QuaternionIndex(axis).Some? && n.b2 in r.bones {
        var limited := WithConstraint(following, n.ctrl, "VRMRIG_LimitScale", LimitScale, CtrlScaleLimits);
        LayerAllComplete(limited, [n.b1, n.b2, n.b3], 1);
      }
    }
  }

  /** The two follow constraints of `generate`. */
  function FingerRigFollowing(bones: map<string, Bone>, n: FingerNames): (f: map<string, Bone>)
    requires n.b1 in bones && n.b3 in bones
    ensures f.Keys == bones.Keys
  {
    var followed := WithConstraint(bones, n.b3, "VRMRIG_RotationFollow", CopyRotation, RotationFollowProps(n.b2));
    WithConstraint(followed, n.b1, "VRMRIG_RotationFollow", CopyRotation, RotationFollowProps(n.ctrl))
  }

  /** The edit scope, bone by bone: on success the control bone (reused or new) is placed and nothing else
      changes. */
  lemma FingerRigPlacedBones(r: Rig, blank: Bone, n: FingerNames)
    requires FingerDistinct(n) && n.b1 in r.bones && n.b3 in r.bones
    ensures var e := FingerRigNewBones(r, blank, n);
      && e.out == Ok(())
      && e.rig.bones == r.bones[n.ctrl := Fetch(r.bones, n.ctrl, blank).(head := r.bones[n.b1].head, tail := r.bones[n.b3].tail,
                                           parent := if n.hand in r.bones then Some(n.hand) else None)]
      && CtrlPlaced(e.rig.bones, n)
  {
  }

  /** The steps after the edit scope when they succeed, bone by bone: the segments carry their follow
      constraints and move to layer 1, and the control bone carries the scale limit. */
  lemma FingerRigFinishedBones(r: Rig, n: FingerNames, axis: string)
    requires FingerDistinct(n) && n.b1 in r.bones && n.b2 in r.bones && n.b3 in r.bones && n.ctrl in r.bones
    requires QuaternionIndex(axis).Some?
    ensures var s := FingerRigFinished(r, n, axis);
      var bones := s.rig.bones;
      && s.out == Ok(())
      && n.b1 in bones && n.b2 in bones && n.b3 in bones && n.ctrl in bones
      && bones[n.b1] == Upserting(r.bones[n.b1], "VRMRIG_RotationFollow", CopyRotation, RotationFollowProps(n.ctrl)).(layers := OneHot(1))
      && bones[n.b2] == r.bones[n.b2].(layers := OneHot(1))
      && bones[n.b3] == Upserting(r.bones[n.b3], "VRMRIG_RotationFollow", CopyRotation, RotationFollowProps(n.b2)).(layers := OneHot(1))
      && bones[n.ctrl] == Upserting(r.bones[n.ctrl], "VRMRIG_LimitScale", LimitScale, CtrlScaleLimits)
  {
    FingerRigFinishedInPlace(r, n, axis);
  }

  /** The successful steps after the edit scope add no bone and change no bone but the four. */
  lemma FingerRigFinishedKeeps(r: Rig, n: FingerNames, axis: string)
    requires FingerDistinct(n) && n.b1 in r.bones && n.b2 in r.bones && n.b3 in r.bones && n.ctrl in r.bones
    requires QuaternionIndex(axis).Some?
    ensures var bones := FingerRigFinished(r, n, axis).rig.bones;
      && bones.Keys == r.bones.Keys
      && (forall m :: m in r.bones && m != n.b1 && m != n.b2 && m != n.b3 && m != n.ctrl ==> bones[m] == r.bones[m])
  {
    FingerRigFinishedInPlace(r, n, axis);
    var u3 := Upserting(r.bones[n.b3], "VRMRIG_RotationFollow", CopyRotation, RotationFollowProps(n.b2));
    var u1 := Upserting(r.bones[n.b1], "VRMRIG_RotationFollow", CopyRotation, RotationFollowProps(n.ctrl));
    var c := Upserting(r.bones[n.ctrl], "VRMRIG_LimitScale", LimitScale, CtrlScaleLimits);
    var m1 := r.bones[n.b3 := u3];
    var m2 := m1[n.b1 := u1];
    var m3 := m2[n.ctrl := c];
    var m4 := m3[n.b1 := u1.(layers := OneHot(1))];
    var m5 := m4[n.b2 := r.bones[n.b2].(layers := OneHot(1))];
    RewrittenKeys(r.bones, n.b3, u3);
    RewrittenKeys(m1, n.b1, u1);
    RewrittenKeys(m2, n.ctrl, c);
    RewrittenKeys(m3, n.b1, u1.(layers := OneHot(1)));
    RewrittenKeys(m4, n.b2, r.bones[n.b2].(layers := OneHot(1)));
    RewrittenKeys(m5, n.b3, u3.(layers := OneHot(1)));
  }

  /** The successful steps after the edit scope as in-place writes of the four bones. */
  lemma FingerRigFinishedInPlace(r: Rig, n: FingerNames, axis: string)
    requires FingerDistinct(n) && n.b1 in r.bones && n.b2 in r.bones && n.b3 in r.bones && n.ctrl in r.bones
    requires QuaternionIndex(axis).Some?
    ensures var u3 := Upserting(r.bones[n.b3], "VRMRIG_RotationFollow", CopyRotation, RotationFollowProps(n.b2));
      var u1 := Upserting(r.bones[n.b1], "VRMRIG_RotationFollow", CopyRotation, RotationFollowProps(n.ctrl));
      var c := Upserting(r.bones[n.ctrl], "VRMRIG_LimitScale", LimitScale, CtrlScaleLimits);
      FingerRigFinished(r, n, axis).rig.bones
        == r.bones[n.b3 := u3][n.b1 := u1][n.ctrl := c]
             [n.b1 := u1.(layers := OneHot(1))][n.b2 := r.bones[n.b2].(layers := OneHot(1))][n.b3 := u3.(layers := OneHot(1))]
    ensures FingerRigFinished(r, n, axis).out == Ok(())
  {
    var u3 := Upserting(r.bones[n.b3], "VRMRIG_RotationFollow", CopyRotation, RotationFollowProps(n.b2));
    var u1 := Upserting(r.bones[n.b1], "VRMRIG_RotationFollow", CopyRotation, RotationFollowProps(n.ctrl));
    var c := Upserting(r.bones[n.ctrl], "VRMRIG_LimitScale", LimitScale, CtrlScaleLimits);
    var limited := r.bones[n.b3 := u3][n.b1 := u1][n.ctrl := c];
    LayerAllInPlace(limited, n.b1, n.b2, n.b3, 1);
  }

  /** The steps after the edit scope when they fail: an unknown axis raises `KeyError`, otherwise the missing
      middle segment raises `AttributeError`; either way only the two follow constraints were added and the
      drivers are untouched. */
  lemma FingerRigFinishedFails(r: Rig, n: FingerNames, axis: string)
    requires FingerDistinct(n) && n.b1 in r.bones && n.b3 in r.bones && n.ctrl in r.bones
    requires QuaternionIndex(axis).None? || n.b2 !in r.bones
    ensures var s := FingerRigFinished(r, n, axis);
      && s.out == (if QuaternionIndex(axis).None? then Err(KeyError(axis)) else Err(NoneAttribute(n.b2)))
      && s.rig == Rig(r.bones[n.b3 := Upserting(r.bones[n.b3], "VRMRIG_RotationFollow", CopyRotation, RotationFollowProps(n.b2))]
                             [n.b1 := Upserting(r.bones[n.b1], "VRMRIG_RotationFollow", CopyRotation, RotationFollowProps(n.ctrl))],
                      r.drivers)
  {
  }

  /** A successful `generate`, bone by bone: the control bone starts at the first segment's head, ends at the
      third segment's tail, hangs from the hand when there is one and carries the scale limit; the third segment
      follows the second and the first follows the control bone; the three segments move to layer 1. */
  lemma FingerRigBones(r: Rig, blank: Bone, n: FingerNames, axis: string)
    requires FingerDistinct(n) && n.b1 in r.bones && n.b2 in r.bones && n.b3 in r.bones && QuaternionIndex(axis).Some?
    ensures var s := FingerRigAuto(r, blank, n, axis);
      var bones := s.rig.bones;
      && s.out == Ok(())
      && n.b1 in bones && n.b2 in bones && n.b3 in bones && n.ctrl in bones
      && bones[n.ctrl] == Upserting(Fetch(r.bones, n.ctrl, blank), "VRMRIG_LimitScale", LimitScale, CtrlScaleLimits)
           .(head := r.bones[n.b1].head, tail := r.bones[n.b3].tail, parent := if n.hand in r.bones then Some(n.hand) else None)
      && bones[n.b1] == Upserting(r.bones[n.b1], "VRMRIG_RotationFollow", CopyRotation, RotationFollowProps(n.ctrl)).(layers := OneHot(1))
      && bones[n.b2] == r.bones[n.b2].(layers := OneHot(1))
      && bones[n.b3] == Upserting(r.bones[n.b3], "VRMRIG_RotationFollow", CopyRotation, RotationFollowProps(n.b2)).(layers := OneHot(1))
  {
    FingerRigPlacedBones(r, blank, n);
    FingerRigFinishedBones(FingerRigNewBones(r, blank, n).rig, n, axis);
  }

  /** A successful `generate` adds the control bone and changes no bone but the control bone and the three
      segments. */
  lemma FingerRigKeeps(r: Rig, blank: Bone, n: FingerNames, axis: string)
    requires FingerDistinct(n) && n.b1 in r.bones && n.b2 in r.bones && n.b3 in r.bones && QuaternionIndex(axis).Some?
    ensures var bones := FingerRigAuto(r, blank, n, axis).rig.bones;
      && bones.Keys == r.bones.Keys + {n.ctrl}
      && (forall m :: m in r.bones && m != n.b1 && m != n.b2 && m != n.b3 && m != n.ctrl ==> bones[m] == r.bones[m])
  {
    FingerRigPlacedBones(r, blank, n);
    FingerRigFinishedKeeps(FingerRigNewBones(r, blank, n).rig, n, axis);
  }

  /** The control bone of a successful `generate` carries the scale limit with all its bounds, and the segments
      carry their follow constraints. */
  lemma FingerRigCarries(r: Rig, blank: Bone, n: FingerNames, axis: string)
    requires FingerDistinct(n) && n.b1 in r.bones && n.b2 in r.bones && n.b3 in r.bones && QuaternionIndex(axis).Some?
    ensures var bones := FingerRigAuto(r, blank, n, axis).rig.bones;
      && n.ctrl in bones && n.b1 in bones && n.b3 in bones
      && Carries(bones[n.ctrl], "VRMRIG_LimitScale", CtrlScaleLimits)
      && Carries(bones[n.b3], "VRMRIG_RotationFollow", RotationFollowProps(n.b2))
      && Carries(bones[n.b1], "VRMRIG_RotationFollow", RotationFollowProps(n.ctrl))
  {
    FingerRigBones(r, blank, n, axis);
    UpsertingCarries(Fetch(r.bones, n.ctrl, blank), "VRMRIG_LimitScale", LimitScale, CtrlScaleLimits);
    UpsertingCarries(r.bones[n.b3], "VRMRIG_RotationFollow", CopyRotation, RotationFollowProps(n.b2));
    UpsertingCarries(r.bones[n.b1], "VRMRIG_RotationFollow", CopyRotation, RotationFollowProps(n.ctrl));
  }

  /** The edit scope keeps the table well formed, whichever way it ends. */
  lemma FingerRigNewBonesWellFormed(r: Rig, blank: Bone, n: FingerNames)
    requires WellFormed(r.bones) && IsBlank(blank)
    ensures WellFormed(FingerRigNewBones(r, blank, n).rig.bones)
  {
  }

  /** The steps after the edit scope keep the table well formed. */
  lemma FingerRigFinishedWellFormed(r: Rig, n: FingerNames, axis: string)
    requires WellFormed(r.bones) && n.b1 in r.bones && n.b3 in r.bones && n.ctrl in r.bones
    ensures WellFormed(FingerRigFinished(r, n, axis).rig.bones)
  {
    var followed := WithConstraint(r.bones, n.b3, "VRMRIG_RotationFollow", CopyRotation, RotationFollowProps(n.b2));
    var following := WithConstraint(followed, n.b1, "VRMRIG_RotationFollow", CopyRotation, RotationFollowProps(n.ctrl));
    WithConstraintWellFormed(r.bones, n.b3, "VRMRIG_RotationFollow", CopyRotation, RotationFollowProps(n.b2));
    WithConstraintWellFormed(followed, n.b1, "VRMRIG_RotationFollow", CopyRotation, RotationFollowProps(n.ctrl));
    if QuaternionIndex(axis).Some? && n.b2 in following {
      WithConstraintWellFormed(following, n.ctrl, "VRMRIG_LimitScale", LimitScale, CtrlScaleLimits);
      var limited := WithConstraint(following, n.ctrl, "VRMRIG_LimitScale", LimitScale, CtrlScaleLimits);
      LayerAllWellFormed(limited, [n.b1, n.b2, n.b3], 1);
    }
  }

  /** Whatever its outcome, `generate` keeps the table well formed. */
  lemma FingerRigWellFormed(r: Rig, blank: Bone, n: FingerNames, axis: string)
    requires WellFormed(r.bones) && IsBlank(blank)
    ensures WellFormed(FingerRigAuto(r, blank, n, axis).rig.bones)
  {
    FingerRigNewBonesWellFormed(r, blank, n);
    var e := FingerRigNewBones(r, blank, n);
    if e.out.Ok? {
      FingerRigFinishedWellFormed(e.rig, n, axis);
    }
  }

  /** Repeating the edit scope changes nothing, whichever way it ended. */
  lemma FingerRigNewBonesAgain(r: Rig, blank: Bone, n: FingerNames)
    requires FingerDistinct(n)
    ensures var e := FingerRigNewBones(r, blank, n);
      FingerRigNewBones(e.rig, blank, n) == e
  {
  }

  /** On a table where the control bone is already placed, the edit scope changes nothing. */
  lemma FingerRigNewBonesPlaced(r: Rig, blank: Bone, n: FingerNames)
    requires FingerDistinct(n) && CtrlPlaced(r.bones, n)
    ensures FingerRigNewBones(r, blank, n) == Step(Ok(()), r)
  {
    assert r.bones[n.ctrl := r.bones[n.ctrl]] == r.bones;
  }

  /** The steps after the edit scope move no bone, so the control bone stays placed. */
  lemma FingerRigFinishedKeepsPlaced(r: Rig, n: FingerNames, axis: string)
    requires FingerDistinct(n) && CtrlPlaced(r.bones, n)
    ensures CtrlPlaced(FingerRigFinished(r, n, axis).rig.bones, n)
  {
    if QuaternionIndex(axis).Some? && n.b2 in r.bones {
      FingerRigFinishedBones(r, n, axis);
      FingerRigFinishedKeeps(r, n, axis);
    } else {
      FingerRigFinishedFails(r, n, axis);
    }
  }

  /** The steps after the edit scope, repeated, change nothing. */
  lemma FingerRigFinishedAgain(r: Rig, n: FingerNames, axis: string)
    requires FingerDistinct(n) && n.b1 in r.bones && n.b3 in r.bones && n.ctrl in r.bones
    ensures var s := FingerRigFinished(r, n, axis);
      n.b1 in s.rig.bones && n.b3 in s.rig.bones && n.ctrl in s.rig.bones && FingerRigFinished(s.rig, n, axis) == s
  {
    var s := FingerRigFinished(r, n, axis);
    var u3 := Upserting(r.bones[n.b3], "VRMRIG_RotationFollow", CopyRotation, RotationFollowProps(n.b2));
    var u1 := Upserting(r.bones[n.b1], "VRMRIG_RotationFollow", CopyRotation, RotationFollowProps(n.ctrl));
    UpsertingTwice(r.bones[n.b3], "VRMRIG_RotationFollow", CopyRotation, RotationFollowProps(n.b2));
    UpsertingTwice(r.bones[n.b1], "VRMRIG_RotationFollow", CopyRotation, RotationFollowProps(n.ctrl));
    var following := r.bones[n.b3 := u3][n.b1 := u1];
    assert FingerRigFollowing(r.bones, n) == following;
    if QuaternionIndex(axis).Some? && n.b2 in r.bones {
      FingerRigFinishedOkAgain(r, n, axis);
    } else {
      assert s.rig.bones == following;
      assert following[n.b3 := u3][n.b1 := u1] == following;
      assert FingerRigFollowing(following, n) == following;
    }
  }

  /** The successful steps after the edit scope, repeated, change nothing. */
  lemma FingerRigFinishedOkAgain(r: Rig, n: FingerNames, axis: string)
    requires FingerDistinct(n) && n.b1 in r.bones && n.b2 in r.bones && n.b3 in r.bones && n.ctrl in r.bones
    requires QuaternionIndex(axis).Some?
    ensures var s := FingerRigFinished(r, n, axis);
      n.b1 in s.rig.bones && n.b3 in s.rig.bones && n.ctrl in s.rig.bones && FingerRigFinished(s.rig, n, axis) == s
  {
    var s := FingerRigFinished(r, n, axis);
    var u3 := Upserting(r.bones[n.b3], "VRMRIG_RotationFollow", CopyRotation, RotationFollowProps(n.b2));
    var u1 := Upserting(r.bones[n.b1], "VRMRIG_RotationFollow", CopyRotation, RotationFollowProps(n.ctrl));
    var c := Upserting(r.bones[n.ctrl], "VRMRIG_LimitScale", LimitScale, CtrlScaleLimits);
    var limited := r.bones[n.b3 := u3][n.b1 := u1][n.ctrl := c];
    LayerAllInPlace(limited, n.b1, n.b2, n.b3, 1);
    var placed := limited[n.b1 := u1.(layers := OneHot(1))][n.b2 := r.bones[n.b2].(layers := OneHot(1))][n.b3 := u3.(layers := OneHot(1))];
    assert s.rig.bones == placed;
    UpsertingRelayered(r.bones[n.b3], "VRMRIG_RotationFollow", CopyRotation, RotationFollowProps(n.b2), OneHot(1));
    UpsertingRelayered(r.bones[n.b1], "VRMRIG_RotationFollow", CopyRotation, RotationFollowProps(n.ctrl), OneHot(1));
    UpsertingTwice(r.bones[n.ctrl], "VRMRIG_LimitScale", LimitScale, CtrlScaleLimits);
    WithConstraintIdle(placed, n.b3, "VRMRIG_RotationFollow", CopyRotation, RotationFollowProps(n.b2));
    WithConstraintIdle(placed, n.b1, "VRMRIG_RotationFollow", CopyRotation, RotationFollowProps(n.ctrl));
    WithConstraintIdle(placed, n.ctrl, "VRMRIG_LimitScale", LimitScale, CtrlScaleLimits);
    LayerAllThreeAgain(placed, n.b1, n.b2, n.b3, 1);
    DriverAgain(r.drivers, (n.b2, QuaternionIndex(axis).value), BendingDriver(n.ctrl, axis));
  }

  /** Running `generate` a second time leaves the rig and the outcome as the first run left them, whichever way
      the first run ended: the control bone is reused, every constraint is found by name instead of duplicated,
      and the driver replaces itself. */
  lemma FingerRigIdempotent(r: Rig, blank: Bone, n: FingerNames, axis: string)
    requires FingerDistinct(n)
    ensures var s := FingerRigAuto(r, blank, n, axis);
      FingerRigAuto(s.rig, blank, n, axis) == s
  {
    var e := FingerRigNewBones(r, blank, n);
    FingerRigNewBonesAgain(r, blank, n);
    if e.out.Ok? {
      FingerRigPlacedBones(r, blank, n);
      FingerRigFinishedKeepsPlaced(e.rig, n, axis);
      FingerRigFinishedAgain(e.rig, n, axis);
      FingerRigNewBonesPlaced(FingerRigFinished(e.rig, n, axis).rig, blank, n);
    }
  }

  /** `FingerCtrl(armature, side, finger, bending_axis)`. */
  class FingerCtrl {
    const armature: ArmatureSupport
    const bonename1: string
    const bonename2: string
    const bonename3: string
    const handBonename: string
    const ctrlBonename: string
    const bendingAxis: string

    function Names(): FingerNames
    {
      FingerNames(bonename1, bonename2, bonename3, handBonename, ctrlBonename)
    }

    constructor(armature: Skeleton, side: string, finger: string, bendingAxis: string)
      ensures this.armature.armature == armature && fresh(this.armature)
      ensures Names() == FingerRigNames(finger, side) && this.bendingAxis == bendingAxis
    {
      this.armature := new ArmatureSupport(armature);
      bonename1 := finger + "1_" + side;
      bonename2 := finger + "2_" + side;
      bonename3 := finger + "3_" + side;
      handBonename := "Hand_" + side;
      ctrlBonename := finger + "Rig_" + side;
      this.bendingAxis := bendingAxis;
    }

    /** `new_bones()`. */
    method NewBones() returns (r: Result<()>)
      requires FingerDistinct(Names())
      modifies armature.armature`bones
      ensures Step(r, armature.armature.State()) == FingerRigNewBones(old(armature.armature.State()), armature.armature.blank, Names())
    {
      var obj := armature.armature;
      ghost var B := obj.bones;
      var bone := armature.GetEditBone(ctrlBonename, true);
      var bone1 := armature.GetEditBone(bonename1, false);
      if bone1.None? {
        return Err(NoneAttribute(bonename1));
      }
      obj.SetHead(ctrlBonename, obj.bones[bonename1].head);
      var bone3 := armature.GetEditBone(bonename3, false);
      if bone3.None? {
        return Err(NoneAttribute(bonename3));
      }
      obj.SetTail(ctrlBonename, obj.bones[bonename3].tail);
      var hand := armature.GetEditBone(handBonename, false);
      obj.SetParent(ctrlBonename, hand);
      return Ok(());
    }

    /** `rotation_follow(follower, followed)`. */
    method RotationFollow(follower: string, followed: string) returns (r: Result<()>)
      modifies armature.armature`bones
      ensures follower !in old(armature.armature.bones) ==>
        r == Err(KeyError(follower)) && armature.armature.bones == old(armature.armature.bones)
      ensures follower in old(armature.armature.bones) ==>
        r == Ok(()) && armature.armature.bones == WithConstraint(old(armature.armature.bones), follower,
          "VRMRIG_RotationFollow", CopyRotation, RotationFollowProps(followed))
    {
      r := ConstrainBone(armature, follower, CopyRotation, "VRMRIG_RotationFollow", RotationFollowProps(followed));
    }

    /** `limit_ctrl_scale()`. */
    method LimitCtrlScale() returns (r: Result<()>)
      modifies armature.armature`bones
      ensures ctrlBonename !in old(armature.armature.bones) ==>
        r == Err(KeyError(ctrlBonename)) && armature.armature.bones == old(armature.armature.bones)
      ensures ctrlBonename in old(armature.armature.bones) ==>
        r == Ok(()) && armature.armature.bones == WithConstraint(old(armature.armature.bones), ctrlBonename,
          "VRMRIG_LimitScale", LimitScale, CtrlScaleLimits)
    {
      r := ConstrainBone(armature, ctrlBonename, LimitScale, "VRMRIG_LimitScale", CtrlScaleLimits);
    }

    /** `rotation_driver(bonename, axis)`: `KeyError` for an unknown axis, `AttributeError` for a missing pose
        bone, and otherwise the channel's driver replaced by `RotationDriver`. */
    method RotationDriver(bonename: string, axis: string) returns (r: Result<()>)
      modifies armature.armature`drivers
      ensures r == (if QuaternionIndex(axis).None? then Err(KeyError(axis))
                    else if bonename !in armature.armature.bones then Err(NoneAttribute(bonename))
                    else Ok(()))
      ensures r.Err? ==> armature.armature.drivers == old(armature.armature.drivers)
      ensures r.Ok? ==>
        armature.armature.drivers == old(armature.armature.drivers)[(bonename, QuaternionIndex(axis).value) := BendingDriver(ctrlBonename, axis)]
    {
      var obj := armature.armature;
      var index := QuaternionIndex(axis);
      if index.None? {
        return Err(KeyError(axis));
      }
      var bone := armature.GetBone(bonename);
      if bone.None? {
        return Err(NoneAttribute(bonename));
      }
      var key := (bonename, index.value);
      obj.DriverRemove(bonename, index.value);
      obj.DriverAdd(bonename, index.value);
      obj.SetScript(key, if IsNegativeAxis(axis) then "var - 1" else "1 - var");
      obj.AddVariable(key, ScaleVariable(ctrlBonename));
      assert BlankDriver.variables + [ScaleVariable(ctrlBonename)] == [ScaleVariable(ctrlBonename)];
      assert obj.drivers == old(obj.drivers)[key := BendingDriver(ctrlBonename, axis)];
      return Ok(());
    }

    /** `set_bone_layer(bonenames, layer)`. */
    method SetBoneLayer(bonenames: seq<string>, layer: int) returns (r: Result<()>)
      modifies armature.armature`bones
      ensures armature.armature.bones == LayerAll(old(armature.armature.bones), bonenames, layer).bones
      ensures r == LayerRaised(LayerAll(old(armature.armature.bones), bonenames, layer))
    {
      var obj := armature.armature;
      var layers := OneHot(layer);
      var i := 0;
      while i < |bonenames|
        invariant 0 <= i <= |bonenames|
        invariant LayerAll(obj.bones, bonenames[i..], layer) == LayerAll(old(obj.bones), bonenames, layer)
      {
        assert bonenames[i..][1..] == bonenames[i + 1..];
        var bone := armature.GetBone(bonenames[i]);
        if bone.None? {
          return Err(NoneAttribute(bonenames[i]));
        }
        obj.SetLayers(bonenames[i], layers);
        i := i + 1;
      }
      return Ok(());
    }

    /** `generate()`: the edit scope around `new_bones`, then the constraints, the driver and the layer move. */
    method Generate() returns (r: Result<()>)
      requires FingerDistinct(Names()) && armature.armature.Valid()
      modifies armature.armature`bones, armature.armature`drivers, armature.armature`mode, armature.armature`modeLog
      ensures armature.armature.Valid()
      ensures Step(r, armature.armature.State()) == FingerRigAuto(old(armature.armature.State()), armature.armature.blank, Names(), bendingAxis)
      ensures armature.armature.mode == old(armature.armature.mode)
      ensures armature.armature.modeLog == old(armature.armature.modeLog) + EditScopeLog(old(armature.armature.mode))
    {
      var obj := armature.armature;
      ghost var s0 := obj.State();
      ghost var mode0, log0 := obj.mode, obj.modeLog;
      FingerRigWellFormed(s0, obj.blank, Names(), bendingAxis);
      var prevmode := armature.EnterEditMode();
      r := NewBones();
      ghost var e := Step(r, obj.State());
      armature.LeaveEditMode(prevmode);
      assert obj.mode == mode0 && obj.modeLog == log0 + EditScopeLog(mode0);
      if r.Err? {
        return;
      }
      r := Finish();
      assert Step(r, obj.State()) == FingerRigFinished(e.rig, Names(), bendingAxis);
    }

    /** The body of `generate` after the edit scope. */
    method Finish() returns (r: Result<()>)
      requires FingerDistinct(Names())
      requires bonename1 in armature.armature.bones && bonename3 in armature.armature.bones && ctrlBonename in armature.armature.bones
      modifies armature.armature`bones, armature.armature`drivers
      ensures Step(r, armature.armature.State()) == FingerRigFinished(old(armature.armature.State()), Names(), bendingAxis)
    {
      var obj := armature.armature;
      var r3 := RotationFollow(bonename3, bonename2);
      var r1 := RotationFollow(bonename1, ctrlBonename);
      r := RotationDriver(bonename2, bendingAxis);
      if r.Err? {
        return;
      }
      var rl := LimitCtrlScale();
      ghost var limited := obj.bones;
      r := SetBoneLayer([bonename1, bonename2, bonename3], 1);
    }
  }

  // ---------------------------------------------------------------------------------------------
  // LimbsCtrl

  /** The bones of `LimbsCtrl(armature, side)`. */
  datatype LimbRigNames = LimbRigNames(
    root: string, hand: string,
    lowerArm: string, armIk: string, armPole: string,
    lowerLeg: string, legIk: string, legPole: string)

  function LimbRigBoneNames(side: string): LimbRigNames
  {
    LimbRigNames("Root", "Hand_" + side, "LowerArm_" + side, "ArmIK_" + side, "ArmPole_" + side,
                 "LowerLeg_" + side, "LegIK_" + side, "LegPole_" + side)
  }

  /** The eight bones are pairwise different. */
  predicate LimbRigApart(n: LimbRigNames)
  {
    && n.armIk != n.armPole && n.armIk != n.legIk && n.armIk != n.legPole
    && n.armPole != n.legIk && n.armPole != n.legPole && n.legIk != n.legPole
    && n.armIk != n.root && n.armIk != n.hand && n.armIk != n.lowerArm && n.armIk != n.lowerLeg
    && n.armPole != n.root && n.armPole != n.hand && n.armPole != n.lowerArm && n.armPole != n.lowerLeg
    && n.legIk != n.root && n.legIk != n.hand && n.legIk != n.lowerArm && n.legIk != n.lowerLeg
    && n.legPole != n.root && n.legPole != n.hand && n.legPole != n.lowerArm && n.legPole != n.lowerLeg
    && n.root != n.hand && n.root != n.lowerArm && n.root != n.lowerLeg
    && n.hand != n.lowerArm && n.hand != n.lowerLeg && n.lowerArm != n.lowerLeg
  }

  lemma LimbRigNamesDistinct(side: string)
    ensures LimbRigApart(LimbRigBoneNames(side))
  {
    var n := LimbRigBoneNames(side);
    assert n.lowerArm[5] == 'A' && n.lowerLeg[5] == 'L';
    assert n.armIk[0] == 'A' && n.legIk[0] == 'L';
    assert n.armPole[0] == 'A' && n.legPole[0] == 'L';
  }

  /** `Vector((0.12, 0, 0))`: from an IK bone's head to its tail. */
  const IkReach := Vec3(0.12, 0.0, 0.0)

  /** `Vector((0, 0.24, 0))`: from the limb's lower bone's head to its pole bone's head (arm: added, leg: subtracted). */
  const PoleOffset := Vec3(0.0, 0.24, 0.0)

  /** `Vector((0, 0.12, 0))`: from a pole bone's head to its tail (arm: added, leg: subtracted). */
  const PoleReach := Vec3(0.0, 0.12, 0.0)

  /** `bone = get_edit_bone(name, True)` followed by assignments to its head, tail and parent. */
  function PlacedBone(bones: map<string, Bone>, name: string, blank: Bone, head: Vec3, tail: Vec3, parent: Option<string>): (p: map<string, Bone>)
    ensures p.Keys == bones.Keys + {name}
  {
    bones[name := Fetch(bones, name, blank).(head := head, tail := tail, parent := parent)]
  }

  /** The bone `name` exists with the given head, tail and parent. */
  predicate BoneAt(bones: map<string, Bone>, name: string, head: Vec3, tail: Vec3, parent: Option<string>)
  {
    name in bones && bones[name].head == head && bones[name].tail == tail && bones[name].parent == parent
  }

  /** Placing a bone where it is already changes nothing. */
  lemma PlacedBoneIdle(bones: map<string, Bone>, name: string, blank: Bone, head: Vec3, tail: Vec3, parent: Option<string>)
    requires BoneAt(bones, name, head, tail, parent)
    ensures PlacedBone(bones, name, blank, head, tail, parent) == bones
  {
    assert bones[name].(head := head, tail := tail, parent := parent) == bones[name];
  }

  /** Fetching or creating a bone and then placing it is placing it. */
  lemma PlacedBoneFetched(bones: map<string, Bone>, name: string, blank: Bone, head: Vec3, tail: Vec3, parent: Option<string>)
    ensures PlacedBone(bones[name := Fetch(bones, name, blank)], name, blank, head, tail, parent)
         == PlacedBone(bones, name, blank, head, tail, parent)
  {
  }

  /** Placing a bone keeps the table well formed when the parent is in it. */
  lemma PlacedBoneWellFormed(bones: map<string, Bone>, name: string, blank: Bone, head: Vec3, tail: Vec3, parent: Option<string>)
    requires WellFormed(bones) && IsBlank(blank) && (parent.Some? ==> parent.value in bones)
    ensures WellFormed(PlacedBone(bones, name, blank, head, tail, parent))
    ensures WellFormed(bones[name := Fetch(bones, name, blank)])
  {
  }

  /** The arm stanzas of `new_bones`: the arm's IK bone from the lower arm's tail along +X, then the arm's pole
      bone beside the lower arm's head along +Y. */
  function PlacedArm(bones: map<string, Bone>, blank: Bone, n: LimbRigNames, arm: Bone, root: Option<string>): (p: map<string, Bone>)
    ensures p.Keys == bones.Keys + {n.armIk, n.armPole}
  {
    var poleHead := Add(arm.head, PoleOffset);
    PlacedBone(PlacedBone(bones, n.armIk, blank, arm.tail, Add(arm.tail, IkReach), root),
               n.armPole, blank, poleHead, Add(poleHead, PoleReach), root)
  }

  /** The leg stanzas of `new_bones`: the leg's IK bone from the lower leg's tail along +X, then the leg's pole
      bone beside the lower leg's head along -Y. */
  function PlacedLeg(bones: map<string, Bone>, blank: Bone, n: LimbRigNames, leg: Bone, root: Option<string>): (p: map<string, Bone>)
    ensures p.Keys == bones.Keys + {n.legIk, n.legPole}
  {
    var poleHead := Sub(leg.head, PoleOffset);
    PlacedBone(PlacedBone(bones, n.legIk, blank, leg.tail, Add(leg.tail, IkReach), root),
               n.legPole, blank, poleHead, Sub(poleHead, PoleReach), root)
  }

  /** The arm's IK and pole bones are where the arm stanzas put them. */
  predicate ArmPlaced(bones: map<string, Bone>, n: LimbRigNames, arm: Bone, root: Option<string>)
  {
    && BoneAt(bones, n.armIk, arm.tail, Add(arm.tail, IkReach), root)
    && BoneAt(bones, n.armPole, Add(arm.head, PoleOffset), Add(Add(arm.head, PoleOffset), PoleReach), root)
  }

  /** The leg's IK and pole bones are where the leg stanzas put them. */
  predicate LegPlaced(bones: map<string, Bone>, n: LimbRigNames, leg: Bone, root: Option<string>)
  {
    && BoneAt(bones, n.legIk, leg.tail, Add(leg.tail, IkReach), root)
    && BoneAt(bones, n.legPole, Sub(leg.head, PoleOffset), Sub(Sub(leg.head, PoleOffset), PoleReach), root)
  }

  /** The arm stanzas place the two arm bones and change no other bone. */
  lemma PlacedArmAt(bones: map<string, Bone>, blank: Bone, n: LimbRigNames, arm: Bone, root: Option<string>)
    requires n.armIk != n.armPole
    ensures var p := PlacedArm(bones, blank, n, arm, root);
      && ArmPlaced(p, n, arm, root)
      && (forall m :: m in bones && m != n.armIk && m != n.armPole ==> p[m] == bones[m])
  {
  }

  /** The arm stanzas keep everything of the two arm bones but their head, tail and parent. */
  lemma PlacedArmFetched(bones: map<string, Bone>, blank: Bone, n: LimbRigNames, arm: Bone, root: Option<string>)
    requires n.armIk != n.armPole
    ensures var p := PlacedArm(bones, blank, n, arm, root);
      var poleHead := Add(arm.head, PoleOffset);
      && p[n.armIk] == Fetch(bones, n.armIk, blank).(head := arm.tail, tail := Add(arm.tail, IkReach), parent := root)
      && p[n.armPole] == Fetch(bones, n.armPole, blank).(head := poleHead, tail := Add(poleHead, PoleReach), parent := root)
  {
  }

  /** The leg stanzas place the two leg bones and change no other bone. */
  lemma PlacedLegAt(bones: map<string, Bone>, blank: Bone, n: LimbRigNames, leg: Bone, root: Option<string>)
    requires n.legIk != n.legPole
    ensures var p := PlacedLeg(bones, blank, n, leg, root);
      && LegPlaced(p, n, leg, root)
      && (forall m :: m in bones && m != n.legIk && m != n.legPole ==> p[m] == bones[m])
  {
  }

  /** The leg stanzas keep everything of the two leg bones but their head, tail and parent. */
  lemma PlacedLegFetched(bones: map<string, Bone>, blank: Bone, n: LimbRigNames, leg: Bone, root: Option<string>)
    requires n.legIk != n.legPole
    ensures var p := PlacedLeg(bones, blank, n, leg, root);
      var poleHead := Sub(leg.head, PoleOffset);
      && p[n.legIk] == Fetch(bones, n.legIk, blank).(head := leg.tail, tail := Add(leg.tail, IkReach), parent := root)
      && p[n.legPole] == Fetch(bones, n.legPole, blank).(head := poleHead, tail := Sub(poleHead, PoleReach), parent := root)
  {
  }

  lemma PlacedArmIdle(bones: map<string, Bone>, blank: Bone, n: LimbRigNames, arm: Bone, root: Option<string>)
    requires ArmPlaced(bones, n, arm, root)
    ensures PlacedArm(bones, blank, n, arm, root) == bones
  {
    PlacedBoneIdle(bones, n.armIk, blank, arm.tail, Add(arm.tail, IkReach), root);
    PlacedBoneIdle(bones, n.armPole, blank, Add(arm.head, PoleOffset), Add(Add(arm.head, PoleOffset), PoleReach), root);
  }

  lemma PlacedLegIdle(bones: map<string, Bone>, blank: Bone, n: LimbRigNames, leg: Bone, root: Option<string>)
    requires LegPlaced(bones, n, leg, root)
    ensures PlacedLeg(bones, blank, n, leg, root) == bones
  {
    PlacedBoneIdle(bones, n.legIk, blank, leg.tail, Add(leg.tail, IkReach), root);
    PlacedBoneIdle(bones, n.legPole, blank, Sub(leg.head, PoleOffset), Sub(Sub(leg.head, PoleOffset), PoleReach), root);
  }

  /** The parent link `new_bones` gives the bones it places: `Root`, or `None` when there is no `Root`. */
  function RootLink(bones: map<string, Bone>, n: LimbRigNames): Option<string>
  {
    if n.root in bones then Some(n.root) else None
  }

  /** `new_bones` of `LimbsCtrl`, run in EDIT mode. `Root` and the two lower limb bones are looked up first, as
      `None` when missing; each IK bone is fetched or created before its head is read from a lower limb bone, so a
      missing lower arm raises `AttributeError` with only `ArmIK` created, and a missing lower leg raises after the
      arm bones are placed and `LegIK` created. A missing `Root` is no error: the bones get no parent. */
  function LimbRigNewBones(r: Rig, blank: Bone, n: LimbRigNames): (s: Step)
    ensures s.rig.drivers == r.drivers
    ensures s.out.Ok? ==> n.lowerArm in s.rig.bones && n.lowerLeg in s.rig.bones
  {
    var root := RootLink(r.bones, n);
    var armIk := r.bones[n.armIk := Fetch(r.bones, n.armIk, blank)];
    if n.lowerArm !in r.bones then Step(Err(NoneAttribute(n.lowerArm)), Rig(armIk, r.drivers))
    else
      var arm := PlacedArm(armIk, blank, n, r.bones[n.lowerArm], root);
      var legIk := arm[n.legIk := Fetch(arm, n.legIk, blank)];
      if n.lowerLeg !in r.bones then Step(Err(NoneAttribute(n.lowerLeg)), Rig(legIk, r.drivers))
      else Step(Ok(()), Rig(PlacedLeg(legIk, blank, n, r.bones[n.lowerLeg], root), r.drivers))
  }

  /** The attributes `hand_transforms_follow` sets on `VRMRIG_TransformsFollow`. */
  function TransformsFollowProps(armIk: string): map<string, Value>
  {
    map["target" := ArmatureObject, "subtarget" := Text(armIk), "target_space" := Text("LOCAL"), "owner_space" := Text("LOCAL")]
  }

  /** The attributes `ik(bonename, ik_bonename, pole_bonename, pole_angle, constraint_name)` sets. */
  function RigIkProps(ik: string, pole: string, poleAngle: real): map<string, Value>
  {
    map["target" := ArmatureObject, "subtarget" := Text(ik), "pole_target" := ArmatureObject,
        "pole_subtarget" := Text(pole), "chain_count" := Int(2), "pole_angle" := Radians(poleAngle)]
  }

  /** The steps of `generate` after the edit scope: the hand follows the arm's IK bone (`KeyError` for a missing
      hand, before any constraint is added), then the arm and leg IK constraints. */
  function LimbRigRigged(r: Rig, n: LimbRigNames): Step
    requires n.lowerArm in r.bones && n.lowerLeg in r.bones
  {
    if n.hand !in r.bones then Step(Err(KeyError(n.hand)), r)
    else
      var follow := WithConstraint(r.bones, n.hand, "VRMRIG_TransformsFollow", CopyTransforms, TransformsFollowProps(n.armIk));
      var arm := WithConstraint(follow, n.lowerArm, "VRMRIG_ArmIK", InverseKinematics, RigIkProps(n.armIk, n.armPole, 180.0));
      Step(Ok(()), Rig(WithConstraint(arm, n.lowerLeg, "VRMRIG_LegIK", InverseKinematics, RigIkProps(n.legIk, n.legPole, -90.0)), r.drivers))
  }

  /** What `LimbsCtrl.generate()` does to the rig. */
  function LimbRigAuto(r: Rig, blank: Bone, n: LimbRigNames): Step
  {
    var e := LimbRigNewBones(r, blank, n);
    if e.out.Err? then e else LimbRigRigged(e.rig, n)
  }

  /** The four bones are where `new_bones` puts them, measured from the lower arm and the lower leg. */
  predicate LimbBonesPlaced(bones: map<string, Bone>, n: LimbRigNames)
  {
    && n.lowerArm in bones && n.lowerLeg in bones
    && ArmPlaced(bones, n, bones[n.lowerArm], RootLink(bones, n))
    && LegPlaced(bones, n, bones[n.lowerLeg], RootLink(bones, n))
  }

  /** With both lower limb bones present, the edit scope is the arm and leg stanzas on the table as it was. */
  lemma LimbRigNewBonesOk(r: Rig, blank: Bone, n: LimbRigNames)
    requires LimbRigApart(n) && n.lowerArm in r.bones && n.lowerLeg in r.bones
    ensures var root := RootLink(r.bones, n);
      LimbRigNewBones(r, blank, n) == Step(Ok(()), Rig(PlacedLeg(PlacedArm(r.bones, blank, n, r.bones[n.lowerArm], root),
                                                                  blank, n, r.bones[n.lowerLeg], root), r.drivers))
  {
    var root := RootLink(r.bones, n);
    var arm := r.bones[n.lowerArm];
    PlacedBoneFetched(r.bones, n.armIk, blank, arm.tail, Add(arm.tail, IkReach), root);
    var armed := PlacedArm(r.bones, blank, n, arm, root);
    var leg := r.bones[n.lowerLeg];
    PlacedBoneFetched(armed, n.legIk, blank, leg.tail, Add(leg.tail, IkReach), root);
  }

  /** A successful edit scope places the four bones and leaves the lower limb bones and the parent link as
      they were. */
  lemma LimbRigPlaced(r: Rig, blank: Bone, n: LimbRigNames)
    requires LimbRigApart(n) && n.lowerArm in r.bones && n.lowerLeg in r.bones
    ensures var e := LimbRigNewBones(r, blank, n);
      && e.out == Ok(())
      && LimbBonesPlaced(e.rig.bones, n)
      && e.rig.bones[n.lowerArm] == r.bones[n.lowerArm] && e.rig.bones[n.lowerLeg] == r.bones[n.lowerLeg]
      && RootLink(e.rig.bones, n) == RootLink(r.bones, n)
  {
    LimbRigNewBonesOk(r, blank, n);
    ArmLegPlaced(r.bones, blank, n);
  }

  /** The arm and leg stanzas, one after the other, leave the four bones placed from lower limb bones and a
      parent link that they do not change. */
  lemma ArmLegPlaced(bones: map<string, Bone>, blank: Bone, n: LimbRigNames)
    requires LimbRigApart(n) && n.lowerArm in bones && n.lowerLeg in bones
    ensures var root := RootLink(bones, n);
      var b := PlacedLeg(PlacedArm(bones, blank, n, bones[n.lowerArm], root), blank, n, bones[n.lowerLeg], root);
      && LimbBonesPlaced(b, n)
      && b[n.lowerArm] == bones[n.lowerArm] && b[n.lowerLeg] == bones[n.lowerLeg]
      && RootLink(b, n) == root
  {
    var root := RootLink(bones, n);
    var arm := bones[n.lowerArm];
    var leg := bones[n.lowerLeg];
    var armed := PlacedArm(bones, blank, n, arm, root);
    var legged := PlacedLeg(armed, blank, n, leg, root);
    PlacedArmAt(bones, blank, n, arm, root);
    PlacedLegAt(armed, blank, n, leg, root);
    assert armed[n.lowerArm] == arm && armed[n.lowerLeg] == leg;
    assert legged[n.lowerArm] == arm && legged[n.lowerLeg] == leg;
    assert legged[n.armIk] == armed[n.armIk] && legged[n.armPole] == armed[n.armPole];
    assert n.root in armed <==> n.root in bones;
    assert n.root in legged <==> n.root in armed;
  }

  /** A successful edit scope adds exactly the four bones to the table, and every other bone is as it was. */
  lemma LimbRigNewBonesKeeps(r: Rig, blank: Bone, n: LimbRigNames)
    requires LimbRigApart(n) && n.lowerArm in r.bones && n.lowerLeg in r.bones
    ensures var b := LimbRigNewBones(r, blank, n).rig.bones;
      && b.Keys == r.bones.Keys + {n.armIk, n.armPole, n.legIk, n.legPole}
      && (forall m :: m in r.bones && m != n.armIk && m != n.armPole && m != n.legIk && m != n.legPole ==> b[m] == r.bones[m])
  {
    LimbRigNewBonesOk(r, blank, n);
    var root := RootLink(r.bones, n);
    var arm := r.bones[n.lowerArm];
    var armed := PlacedArm(r.bones, blank, n, arm, root);
    PlacedArmAt(r.bones, blank, n, arm, root);
    PlacedLegAt(armed, blank, n, r.bones[n.lowerLeg], root);
    KeepsAcrossTwoPairs(r.bones, armed, PlacedLeg(armed, blank, n, r.bones[n.lowerLeg], root), n.armIk, n.armPole, n.legIk, n.legPole);
  }

  /** Two steps, each adding or replacing a pair of bones and keeping the others, keep every bone outside the
      four names. */
  lemma KeepsAcrossTwoPairs(b0: map<string, Bone>, b1: map<string, Bone>, b2: map<string, Bone>, a: string, b: string, c: string, d: string)
    requires b1.Keys == b0.Keys + {a, b} && (forall m :: m in b0 && m != a && m != b ==> b1[m] == b0[m])
    requires b2.Keys == b1.Keys + {c, d} && (forall m :: m in b1 && m != c && m != d ==> b2[m] == b1[m])
    ensures b2.Keys == b0.Keys + {a, b, c, d}
    ensures forall m :: m in b0 && m != a && m != b && m != c && m != d ==> b2[m] == b0[m]
  {
  }

  /** A successful edit scope reuses any of the four bones that existed: each keeps its constraints and layers,
      and a new one gets those of a blank bone. */
  lemma LimbRigNewBonesReuses(r: Rig, blank: Bone, n: LimbRigNames)
    requires LimbRigApart(n) && n.lowerArm in r.bones && n.lowerLeg in r.bones
    ensures var b := LimbRigNewBones(r, blank, n).rig.bones;
      && n.armIk in b && n.armPole in b && n.legIk in b && n.legPole in b
      && b[n.armIk].constraints == Fetch(r.bones, n.armIk, blank).constraints && b[n.armIk].layers == Fetch(r.bones, n.armIk, blank).layers
      && b[n.armPole].constraints == Fetch(r.bones, n.armPole, blank).constraints && b[n.armPole].layers == Fetch(r.bones, n.armPole, blank).layers
      && b[n.legIk].constraints == Fetch(r.bones, n.legIk, blank).constraints && b[n.legIk].layers == Fetch(r.bones, n.legIk, blank).layers
      && b[n.legPole].constraints == Fetch(r.bones, n.legPole, blank).constraints && b[n.legPole].layers == Fetch(r.bones, n.legPole, blank).layers
  {
    LimbRigNewBonesOk(r, blank, n);
    var root := RootLink(r.bones, n);
    var arm := r.bones[n.lowerArm];
    var armed := PlacedArm(r.bones, blank, n, arm, root);
    PlacedArmFetched(r.bones, blank, n, arm, root);
    PlacedLegAt(armed, blank, n, r.bones[n.lowerLeg], root);
    PlacedLegFetched(armed, blank, n, r.bones[n.lowerLeg], root);
    assert Fetch(armed, n.legIk, blank) == Fetch(r.bones, n.legIk, blank);
    assert Fetch(armed, n.legPole, blank) == Fetch(r.bones, n.legPole, blank);
  }

  /** Placed bones measured from the lower limb bones they were placed from. */
  lemma PlacedOffsets(b: map<string, Bone>, n: LimbRigNames, arm: Bone, leg: Bone, root: Option<string>)
    requires ArmPlaced(b, n, arm, root) && LegPlaced(b, n, leg, root)
    ensures && b[n.armIk].head == arm.tail && Direction(b[n.armIk]) == Vec3(0.12, 0.0, 0.0)
      && Sub(b[n.armPole].head, arm.head) == Vec3(0.0, 0.24, 0.0) && Direction(b[n.armPole]) == Vec3(0.0, 0.12, 0.0)
      && b[n.legIk].head == leg.tail && Direction(b[n.legIk]) == Vec3(0.12, 0.0, 0.0)
      && Sub(b[n.legPole].head, leg.head) == Vec3(0.0, -0.24, 0.0) && Direction(b[n.legPole]) == Vec3(0.0, -0.12, 0.0)
      && b[n.armIk].parent == root && b[n.armPole].parent == root && b[n.legIk].parent == root && b[n.legPole].parent == root
  {
  }

  /** The placement in the source's own terms: the arm's IK bone starts at the lower arm's tail and points 0.12
      along +X; the arm's pole bone starts 0.24 along +Y from the lower arm's head and points 0.12 along +Y; the
      leg's IK bone starts at the lower leg's tail and points 0.12 along +X; the leg's pole bone starts 0.24 along
      -Y from the lower leg's head and points 0.12 along -Y; all four hang from `Root` when it exists. */
  lemma LimbRigOffsets(r: Rig, blank: Bone, n: LimbRigNames)
    requires LimbRigApart(n) && n.lowerArm in r.bones && n.lowerLeg in r.bones
    ensures var b := LimbRigAuto(r, blank, n).rig.bones;
      var arm := r.bones[n.lowerArm];
      var leg := r.bones[n.lowerLeg];
      var root := RootLink(r.bones, n);
      && b[n.armIk].head == arm.tail && Direction(b[n.armIk]) == Vec3(0.12, 0.0, 0.0)
      && Sub(b[n.armPole].head, arm.head) == Vec3(0.0, 0.24, 0.0) && Direction(b[n.armPole]) == Vec3(0.0, 0.12, 0.0)
      && b[n.legIk].head == leg.tail && Direction(b[n.legIk]) == Vec3(0.12, 0.0, 0.0)
      && Sub(b[n.legPole].head, leg.head) == Vec3(0.0, -0.24, 0.0) && Direction(b[n.legPole]) == Vec3(0.0, -0.12, 0.0)
      && b[n.armIk].parent == root && b[n.armPole].parent == root && b[n.legIk].parent == root && b[n.legPole].parent == root
  {
    LimbRigPlaced(r, blank, n);
    var e := LimbRigNewBones(r, blank, n);
    LimbRiggedKeepsPlaced(e.rig, n);
    var s := LimbRigRigged(e.rig, n);
    assert LimbRigAuto(r, blank, n) == s;
    LimbRiggedBones(e.rig, n);
    var b := s.rig.bones;
    assert b[n.lowerArm].head == r.bones[n.lowerArm].head && b[n.lowerArm].tail == r.bones[n.lowerArm].tail;
    assert b[n.lowerLeg].head == r.bones[n.lowerLeg].head && b[n.lowerLeg].tail == r.bones[n.lowerLeg].tail;
    assert RootLink(b, n) == RootLink(r.bones, n);
    PlacedOffsets(b, n, r.bones[n.lowerArm], r.bones[n.lowerLeg], RootLink(r.bones, n));
  }

  /** The steps after the edit scope, bone by bone: with a hand, it follows the arm's IK bone and the lower arm
      and leg carry their IK constraints; nothing else changes, and without a hand nothing changes at all. */
  lemma LimbRiggedBones(r: Rig, n: LimbRigNames)
    requires LimbRigApart(n) && n.lowerArm in r.bones && n.lowerLeg in r.bones
    ensures var s := LimbRigRigged(r, n);
      var b := s.rig.bones;
      && s.rig.drivers == r.drivers
      && (s.out.Ok? <==> n.hand in r.bones)
      && (s.out.Err? ==> s == Step(Err(KeyError(n.hand)), r))
      && b.Keys == r.bones.Keys
      && (n.hand in r.bones ==>
            && b[n.hand] == Upserting(r.bones[n.hand], "VRMRIG_TransformsFollow", CopyTransforms, TransformsFollowProps(n.armIk))
            && b[n.lowerArm] == Upserting(r.bones[n.lowerArm], "VRMRIG_ArmIK", InverseKinematics, RigIkProps(n.armIk, n.armPole, 180.0))
            && b[n.lowerLeg] == Upserting(r.bones[n.lowerLeg], "VRMRIG_LegIK", InverseKinematics, RigIkProps(n.legIk, n.legPole, -90.0)))
      && (forall m :: m in r.bones && m !in {n.hand, n.lowerArm, n.lowerLeg} ==> b[m] == r.bones[m])
  {
  }

  /** The constraints added after the edit scope move no bone, so the four bones stay placed. */
  lemma LimbRiggedKeepsPlaced(r: Rig, n: LimbRigNames)
    requires LimbRigApart(n) && LimbBonesPlaced(r.bones, n)
    ensures LimbBonesPlaced(LimbRigRigged(r, n).rig.bones, n)
  {
    LimbRiggedBones(r, n);
    var b := LimbRigRigged(r, n).rig.bones;
    assert RootLink(b, n) == RootLink(r.bones, n);
    assert b[n.lowerArm].head == r.bones[n.lowerArm].head && b[n.lowerArm].tail == r.bones[n.lowerArm].tail;
    assert b[n.lowerLeg].head == r.bones[n.lowerLeg].head && b[n.lowerLeg].tail == r.bones[n.lowerLeg].tail;
  }

  /** How `generate` ends: a missing lower arm or lower leg raises `AttributeError` inside the edit scope, a
      missing hand raises `KeyError` after it; the drivers never change. */
  lemma LimbRigOutcome(r: Rig, blank: Bone, n: LimbRigNames)
    requires LimbRigApart(n)
    ensures var s := LimbRigAuto(r, blank, n);
      && s.rig.drivers == r.drivers
      && s.out == (if n.lowerArm !in r.bones then Err(NoneAttribute(n.lowerArm))
                   else if n.lowerLeg !in r.bones then Err(NoneAttribute(n.lowerLeg))
                   else if n.hand !in r.bones then Err(KeyError(n.hand))
                   else Ok(()))
  {
    if n.lowerArm in r.bones && n.lowerLeg in r.bones {
      LimbRigNewBonesOk(r, blank, n);
      var root := RootLink(r.bones, n);
      var armed := PlacedArm(r.bones, blank, n, r.bones[n.lowerArm], root);
      var legged := PlacedLeg(armed, blank, n, r.bones[n.lowerLeg], root);
      assert n.hand in armed <==> n.hand in r.bones;
      assert n.hand in legged <==> n.hand in armed;
      LimbRiggedBones(Rig(legged, r.drivers), n);
    }
  }

  /** What a failed edit scope leaves behind: without a lower arm only the arm's IK bone was fetched or created;
      without a lower leg the arm's two bones were placed and the leg's IK bone fetched or created. */
  lemma LimbRigScopeFails(r: Rig, blank: Bone, n: LimbRigNames)
    requires LimbRigApart(n) && (n.lowerArm !in r.bones || n.lowerLeg !in r.bones)
    ensures var s := LimbRigAuto(r, blank, n);
      && (n.lowerArm !in r.bones ==> s.rig == Rig(r.bones[n.armIk := Fetch(r.bones, n.armIk, blank)], r.drivers))
      && (n.lowerArm in r.bones ==>
            var armed := PlacedArm(r.bones, blank, n, r.bones[n.lowerArm], RootLink(r.bones, n));
            s.rig == Rig(armed[n.legIk := Fetch(armed, n.legIk, blank)], r.drivers))
      && (n.lowerArm in r.bones ==> s.rig.bones.Keys == r.bones.Keys + {n.armIk, n.armPole, n.legIk})
  {
    if n.lowerArm in r.bones {
      var root := RootLink(r.bones, n);
      var arm := r.bones[n.lowerArm];
      PlacedBoneFetched(r.bones, n.armIk, blank, arm.tail, Add(arm.tail, IkReach), root);
    }
  }

  /** A successful `generate` constrains the hand, the lower arm and the lower leg with their requested
      attributes: the hand follows the arm's IK bone, and each IK constraint is a two-bone chain with its IK and
      pole bones, at 180 degrees for the arm and -90 for the leg. */
  lemma LimbRigConstraints(r: Rig, blank: Bone, n: LimbRigNames)
    requires LimbRigApart(n) && n.lowerArm in r.bones && n.lowerLeg in r.bones && n.hand in r.bones
    ensures var b := LimbRigAuto(r, blank, n).rig.bones;
      && n.hand in b && n.lowerArm in b && n.lowerLeg in b
      && Carries(b[n.hand], "VRMRIG_TransformsFollow", TransformsFollowProps(n.armIk))
      && Carries(b[n.lowerArm], "VRMRIG_ArmIK", RigIkProps(n.armIk, n.armPole, 180.0))
      && Carries(b[n.lowerLeg], "VRMRIG_LegIK", RigIkProps(n.legIk, n.legPole, -90.0))
  {
    LimbRigNewBonesOk(r, blank, n);
    var root := RootLink(r.bones, n);
    var armed := PlacedArm(r.bones, blank, n, r.bones[n.lowerArm], root);
    var legged := PlacedLeg(armed, blank, n, r.bones[n.lowerLeg], root);
    assert n.hand in armed && n.hand in legged;
    LimbRiggedBones(Rig(legged, r.drivers), n);
    UpsertingCarries(legged[n.hand], "VRMRIG_TransformsFollow", CopyTransforms, TransformsFollowProps(n.armIk));
    UpsertingCarries(legged[n.lowerArm], "VRMRIG_ArmIK", InverseKinematics, RigIkProps(n.armIk, n.armPole, 180.0));
    UpsertingCarries(legged[n.lowerLeg], "VRMRIG_LegIK", InverseKinematics, RigIkProps(n.legIk, n.legPole, -90.0));
  }

  /** A successful `generate` adds exactly the four placed bones and leaves every bone other than them, the hand
      and the two lower limb bones as it was. */
  lemma LimbRigKeeps(r: Rig, blank: Bone, n: LimbRigNames)
    requires LimbRigApart(n) && n.lowerArm in r.bones && n.lowerLeg in r.bones && n.hand in r.bones
    ensures var b := LimbRigAuto(r, blank, n).rig.bones;
      && b.Keys == r.bones.Keys + {n.armIk, n.armPole, n.legIk, n.legPole}
      && (forall m :: (m in r.bones && m != n.hand && m != n.lowerArm && m != n.lowerLeg
                       && m != n.armIk && m != n.armPole && m != n.legIk && m != n.legPole) ==> b[m] == r.bones[m])
  {
    LimbRigNewBonesKeeps(r, blank, n);
    LimbRigPlaced(r, blank, n);
    LimbRiggedBones(LimbRigNewBones(r, blank, n).rig, n);
  }

  /** The edit scope keeps the table well formed, whichever way it ends. */
  lemma LimbRigNewBonesWellFormed(r: Rig, blank: Bone, n: LimbRigNames)
    requires WellFormed(r.bones) && IsBlank(blank)
    ensures WellFormed(LimbRigNewBones(r, blank, n).rig.bones)
  {
    var root := RootLink(r.bones, n);
    PlacedBoneWellFormed(r.bones, n.armIk, blank, Zero, Zero, None);
    if n.lowerArm in r.bones {
      var armIk := r.bones[n.armIk := Fetch(r.bones, n.armIk, blank)];
      var arm := r.bones[n.lowerArm];
      var poleHead := Add(arm.head, PoleOffset);
      var ik := PlacedBone(armIk, n.armIk, blank, arm.tail, Add(arm.tail, IkReach), root);
      PlacedBoneWellFormed(armIk, n.armIk, blank, arm.tail, Add(arm.tail, IkReach), root);
      PlacedBoneWellFormed(ik, n.armPole, blank, poleHead, Add(poleHead, PoleReach), root);
      var armed := PlacedArm(armIk, blank, n, arm, root);
      PlacedBoneWellFormed(armed, n.legIk, blank, Zero, Zero, None);
      if n.lowerLeg in r.bones {
        var legIk := armed[n.legIk := Fetch(armed, n.legIk, blank)];
        var leg := r.bones[n.lowerLeg];
        var legPoleHead := Sub(leg.head, PoleOffset);
        var legged := PlacedBone(legIk, n.legIk, blank, leg.tail, Add(leg.tail, IkReach), root);
        PlacedBoneWellFormed(legIk, n.legIk, blank, leg.tail, Add(leg.tail, IkReach), root);
        PlacedBoneWellFormed(legged, n.legPole, blank, legPoleHead, Sub(legPoleHead, PoleReach), root);
      }
    }
  }

  /** The steps after the edit scope keep the table well formed. */
  lemma LimbRiggedWellFormed(r: Rig, n: LimbRigNames)
    requires WellFormed(r.bones) && n.lowerArm in r.bones && n.lowerLeg in r.bones
    ensures WellFormed(LimbRigRigged(r, n).rig.bones)
  {
    if n.hand in r.bones {
      var follow := WithConstraint(r.bones, n.hand, "VRMRIG_TransformsFollow", CopyTransforms, TransformsFollowProps(n.armIk));
      var arm := WithConstraint(follow, n.lowerArm, "VRMRIG_ArmIK", InverseKinematics, RigIkProps(n.armIk, n.armPole, 180.0));
      WithConstraintSpec(r.bones, n.hand, "VRMRIG_TransformsFollow", CopyTransforms, TransformsFollowProps(n.armIk));
      WithConstraintSpec(follow, n.lowerArm, "VRMRIG_ArmIK", InverseKinematics, RigIkProps(n.armIk, n.armPole, 180.0));
      WithConstraintSpec(arm, n.lowerLeg, "VRMRIG_LegIK", InverseKinematics, RigIkProps(n.legIk, n.legPole, -90.0));
    }
  }

  /** Whatever its outcome, `generate` keeps the table well formed. */
  lemma LimbRigWellFormed(r: Rig, blank: Bone, n: LimbRigNames)
    requires WellFormed(r.bones) && IsBlank(blank)
    ensures WellFormed(LimbRigAuto(r, blank, n).rig.bones)
  {
    LimbRigNewBonesWellFormed(r, blank, n);
    var e := LimbRigNewBones(r, blank, n);
    if e.out.Ok? {
      LimbRiggedWellFormed(e.rig, n);
    }
  }

  /** Repeating the edit scope changes nothing, whichever way it ended. */
  lemma LimbRigNewBonesAgain(r: Rig, blank: Bone, n: LimbRigNames)
    requires LimbRigApart(n)
    ensures var e := LimbRigNewBones(r, blank, n);
      LimbRigNewBones(e.rig, blank, n) == e
  {
    var e := LimbRigNewBones(r, blank, n);
    var root := RootLink(r.bones, n);
    var armIk := r.bones[n.armIk := Fetch(r.bones, n.armIk, blank)];
    assert RootLink(armIk, n) == root;
    if n.lowerArm !in r.bones {
      assert armIk[n.armIk := Fetch(armIk, n.armIk, blank)] == armIk;
    } else if n.lowerLeg !in r.bones {
      LimbRigNewBonesAgainNoLeg(r, blank, n);
    } else {
      LimbRigPlaced(r, blank, n);
      LimbRigNewBonesPlaced(e.rig, blank, n);
    }
  }

  /** The edit scope that stopped at the missing lower leg stops there again, with nothing more to change. */
  lemma LimbRigNewBonesAgainNoLeg(r: Rig, blank: Bone, n: LimbRigNames)
    requires LimbRigApart(n) && n.lowerArm in r.bones && n.lowerLeg !in r.bones
    ensures var e := LimbRigNewBones(r, blank, n);
      LimbRigNewBones(e.rig, blank, n) == e
  {
    var e := LimbRigNewBones(r, blank, n);
    var root := RootLink(r.bones, n);
    var armIk := r.bones[n.armIk := Fetch(r.bones, n.armIk, blank)];
    assert RootLink(armIk, n) == root;
    var arm := r.bones[n.lowerArm];
    var armed := PlacedArm(armIk, blank, n, arm, root);
    PlacedArmAt(armIk, blank, n, arm, root);
    var legIk := armed[n.legIk := Fetch(armed, n.legIk, blank)];
    assert e.rig.bones == legIk;
    assert RootLink(legIk, n) == root && legIk[n.lowerArm] == arm;
    assert legIk[n.armIk := Fetch(legIk, n.armIk, blank)] == legIk;
    PlacedArmIdle(legIk, blank, n, arm, root);
    assert legIk[n.legIk := Fetch(legIk, n.legIk, blank)] == legIk;
  }

  /** On a table where the four bones are already placed, the edit scope changes nothing. */
  lemma LimbRigNewBonesPlaced(r: Rig, blank: Bone, n: LimbRigNames)
    requires LimbRigApart(n) && LimbBonesPlaced(r.bones, n)
    ensures LimbRigNewBones(r, blank, n) == Step(Ok(()), r)
  {
    var root := RootLink(r.bones, n);
    assert r.bones[n.armIk := Fetch(r.bones, n.armIk, blank)] == r.bones;
    PlacedArmIdle(r.bones, blank, n, r.bones[n.lowerArm], root);
    assert r.bones[n.legIk := Fetch(r.bones, n.legIk, blank)] == r.bones;
    PlacedLegIdle(r.bones, blank, n, r.bones[n.lowerLeg], root);
  }

  /** The steps after the edit scope, repeated, change nothing. */
  lemma LimbRiggedAgain(r: Rig, n: LimbRigNames)
    requires LimbRigApart(n) && n.lowerArm in r.bones && n.lowerLeg in r.bones
    ensures var s := LimbRigRigged(r, n);
      LimbRigRigged(s.rig, n) == s
  {
    if n.hand in r.bones {
      WithConstraintsAgain(r.bones, n.hand, "VRMRIG_TransformsFollow", CopyTransforms, TransformsFollowProps(n.armIk),
                           n.lowerArm, "VRMRIG_ArmIK", InverseKinematics, RigIkProps(n.armIk, n.armPole, 180.0),
                           n.lowerLeg, "VRMRIG_LegIK", InverseKinematics, RigIkProps(n.legIk, n.legPole, -90.0));
    }
  }

  /** Running `generate` a second time leaves the rig and the outcome as the first run left them, whichever way
      the first run ended: the placed bones are reused and every constraint is found by name. */
  lemma LimbRigIdempotent(r: Rig, blank: Bone, n: LimbRigNames)
    requires LimbRigApart(n)
    ensures var s := LimbRigAuto(r, blank, n);
      LimbRigAuto(s.rig, blank, n) == s
  {
    var e := LimbRigNewBones(r, blank, n);
    LimbRigNewBonesAgain(r, blank, n);
    if e.out.Ok? {
      LimbRigPlaced(r, blank, n);
      LimbRiggedKeepsPlaced(e.rig, n);
      LimbRiggedAgain(e.rig, n);
      LimbRigNewBonesPlaced(LimbRigRigged(e.rig, n).rig, blank, n);
    }
  }

  /** `LimbsCtrl(armature, side)`. */
  class LimbsCtrl {
    const armature: ArmatureSupport
    const rootBonename: string
    const handBonename: string
    const lowerarmBonename: string
    const armikBonename: string
    const armpoleBonename: string
    const lowerlegBonename: string
    const legikBonename: string
    const legpoleBonename: string

    function Names(): LimbRigNames
    {
      LimbRigNames(rootBonename, handBonename, lowerarmBonename, armikBonename, armpoleBonename,
                   lowerlegBonename, legikBonename, legpoleBonename)
    }

    constructor(armature: Skeleton, side: string)
      ensures this.armature.armature == armature && fresh(this.armature)
      ensures Names() == LimbRigBoneNames(side)
    {
      this.armature := new ArmatureSupport(armature);
      rootBonename := "Root";
      handBonename := "Hand_" + side;
      lowerarmBonename := "LowerArm_" + side;
      armikBonename := "ArmIK_" + side;
      armpoleBonename := "ArmPole_" + side;
      lowerlegBonename := "LowerLeg_" + side;
      legikBonename := "LegIK_" + side;
      legpoleBonename := "LegPole_" + side;
    }

    /** One stanza of `new_bones`: fetch or create the bone, then set its head, tail and parent. */
    method PlaceBone(name: string, head: Vec3, tail: Vec3, parent: Option<string>)
      requires parent.Some? ==> parent.value in armature.armature.bones
      modifies armature.armature`bones
      ensures armature.armature.bones == PlacedBone(old(armature.armature.bones), name, armature.armature.blank, head, tail, parent)
    {
      var obj := armature.armature;
      ghost var B := obj.bones;
      var bone := armature.GetEditBone(name, true);
      obj.SetHead(name, head);
      obj.SetTail(name, tail);
      obj.SetParent(name, parent);
    }

    /** `new_bones()`. */
    method NewBones() returns (r: Result<()>)
      requires LimbRigApart(Names())
      modifies armature.armature`bones
      ensures Step(r, armature.armature.State()) == LimbRigNewBones(old(armature.armature.State()), armature.armature.blank, Names())
    {
      var obj := armature.armature;
      ghost var B := obj.bones;
      ghost var n := Names();
      var root := armature.GetEditBone(rootBonename, false);
      assert root == RootLink(B, n);
      var lowerarm := armature.GetBone(lowerarmBonename);
      var lowerleg := armature.GetBone(lowerlegBonename);
      var bone := armature.GetEditBone(armikBonename, true);
      ghost var armIk := B[n.armIk := Fetch(B, n.armIk, obj.blank)];
      assert obj.bones == armIk;
      if lowerarm.None? {
        return Err(NoneAttribute(lowerarmBonename));
      }
      PlaceBone(armikBonename, lowerarm.value.tail, Add(lowerarm.value.tail, IkReach), root);
      var poleHead := Add(lowerarm.value.head, PoleOffset);
      PlaceBone(armpoleBonename, poleHead, Add(poleHead, PoleReach), root);
      ghost var armed := PlacedArm(armIk, obj.blank, n, B[n.lowerArm], root);
      assert obj.bones == armed;
      bone := armature.GetEditBone(legikBonename, true);
      ghost var legIk := armed[n.legIk := Fetch(armed, n.legIk, obj.blank)];
      assert obj.bones == legIk;
      if lowerleg.None? {
        return Err(NoneAttribute(lowerlegBonename));
      }
      PlaceBone(legikBonename, lowerleg.value.tail, Add(lowerleg.value.tail, IkReach), root);
      var legPoleHead := Sub(lowerleg.value.head, PoleOffset);
      PlaceBone(legpoleBonename, legPoleHead, Sub(legPoleHead, PoleReach), root);
      assert obj.bones == PlacedLeg(legIk, obj.blank, n, B[n.lowerLeg], root);
      return Ok(());
    }

    /** `hand_transforms_follow()`. */
    method HandTransformsFollow() returns (r: Result<()>)
      modifies armature.armature`bones
      ensures handBonename !in old(armature.armature.bones) ==>
        r == Err(KeyError(handBonename)) && armature.armature.bones == old(armature.armature.bones)
      ensures handBonename in old(armature.armature.bones) ==>
        r == Ok(()) && armature.armature.bones == WithConstraint(old(armature.armature.bones), handBonename,
          "VRMRIG_TransformsFollow", CopyTransforms, TransformsFollowProps(armikBonename))
    {
      r := ConstrainBone(armature, handBonename, CopyTransforms, "VRMRIG_TransformsFollow", TransformsFollowProps(armikBonename));
    }

    /** `ik(bonename, ik_bonename, pole_bonename, pole_angle, constraint_name)`. */
    method Ik(bonename: string, ikBonename: string, poleBonename: string, poleAngle: real, constraintName: string) returns (r: Result<()>)
      modifies armature.armature`bones
      ensures bonename !in old(armature.armature.bones) ==>
        r == Err(KeyError(bonename)) && armature.armature.bones == old(armature.armature.bones)
      ensures bonename in old(armature.armature.bones) ==>
        r == Ok(()) && armature.armature.bones == WithConstraint(old(armature.armature.bones), bonename,
          constraintName, InverseKinematics, RigIkProps(ikBonename, poleBonename, poleAngle))
    {
      r := ConstrainBone(armature, bonename, InverseKinematics, constraintName, RigIkProps(ikBonename, poleBonename, poleAngle));
    }

    /** `generate()`: the edit scope around `new_bones`, then the hand follow and the two IK constraints. */
    method Generate() returns (r: Result<()>)
      requires LimbRigApart(Names()) && armature.armature.Valid()
      modifies armature.armature`bones, armature.armature`mode, armature.armature`modeLog
      ensures armature.armature.Valid()
      ensures Step(r, armature.armature.State()) == LimbRigAuto(old(armature.armature.State()), armature.armature.blank, Names())
      ensures armature.armature.mode == old(armature.armature.mode)
      ensures armature.armature.modeLog == old(armature.armature.modeLog) + EditScopeLog(old(armature.armature.mode))
    {
      var obj := armature.armature;
      ghost var s0 := obj.State();
      ghost var mode0, log0 := obj.mode, obj.modeLog;
      LimbRigWellFormed(s0, obj.blank, Names());
      var prevmode := armature.EnterEditMode();
      r := NewBones();
      ghost var e := Step(r, obj.State());
      armature.LeaveEditMode(prevmode);
      assert obj.mode == mode0 && obj.modeLog == log0 + EditScopeLog(mode0);
      if r.Err? {
        return;
      }
      r := Rigging();
      assert Step(r, obj.State()) == LimbRigRigged(e.rig, Names());
    }

    /** The body of `generate` after the edit scope. */
    method Rigging() returns (r: Result<()>)
      requires lowerarmBonename in armature.armature.bones && lowerlegBonename in armature.armature.bones
      modifies armature.armature`bones
      ensures Step(r, armature.armature.State()) == LimbRigRigged(old(armature.armature.State()), Names())
    {
      r := HandTransformsFollow();
      if r.Err? {
        return;
      }
      r := Ik(lowerarmBonename, armikBonename, armpoleBonename, 180.0, "VRMRIG_ArmIK");
      r := Ik(lowerlegBonename, legikBonename, legpoleBonename, -90.0, "VRMRIG_LegIK");
    }
  }
}
