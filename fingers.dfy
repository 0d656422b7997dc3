/** fingers.py: `generate_finger_controller`, the second-generation finger-controller synthesis written on top of
    `BoneHolder`. It builds the same controller as `gen_finger_ctrl` of the first-generation script; only the
    exception a missing bone raises differs. */
module Fingers {
  import opened Outcomes
  import opened Geometry
  import opened Constraints
  import opened Armature
  import opened Utils
  import VrmAuto

  /** What `generate_finger_controller(obj, finger, side, bending_axis)` is evidently meant to do to the rig: the
      first of the three segments and the hand found missing by `bone()` raises `KeyError` before any change;
      otherwise the controller is synthesised, and an axis outside the six known ones raises `KeyError` after the
      bones and constraints are in place. */
  function FingerController(r: Rig, blank: Bone, finger: string, side: string, axis: string): Step
  {
    var n := VrmAuto.FingerBoneNames(finger, side);
    var checked := VrmAuto.FingerChecked(n);
    match FirstMissing(r.bones, checked)
    case Some(k) => Step(Err(KeyError(checked[k])), r)
    case None =>
      assert checked[0] in r.bones && checked[2] in r.bones;
      VrmAuto.FingerBuilt(r, blank, n, axis)
  }

  /** The call as written: line 15 passes a third argument to `BoneHolder(obj, name)`, which takes two, so every
      call raises `TypeError` before touching the rig. */
  function FingerControllerAsWritten(r: Rig, finger: string, side: string, axis: string): Step
  {
    Step(Err(ArgumentCount("BoneHolder")), r)
  }

  /** On a rig that has every finger bone and the hand, and for a known axis, the controller is built as intended,
      while the code as written fails and builds nothing. */
  lemma FingerControllerAsWrittenFails(r: Rig, blank: Bone, finger: string, side: string, axis: string)
    requires var n := VrmAuto.FingerBoneNames(finger, side);
      n.b1 in r.bones && n.b2 in r.bones && n.b3 in r.bones && n.hand in r.bones
    requires axis in {"X", "-X", "Y", "-Y", "Z", "-Z"}
    ensures FingerControllerAsWritten(r, finger, side, axis) == Step(Err(ArgumentCount("BoneHolder")), r)
    ensures FingerController(r, blank, finger, side, axis).out == Ok(())
    ensures VrmAuto.FingerBoneNames(finger, side).ctrl in FingerController(r, blank, finger, side, axis).rig.bones
  {
    FingerControllerIsAuto(r, blank, finger, side, axis);
    VrmAuto.FingerAutoOutcome(r, blank, finger, side, axis);
    VrmAuto.FingerAutoCarries(r, blank, finger, side, axis);
  }

  /** The rig is exactly the one `gen_finger_ctrl` leaves, and so is the outcome, except that a missing bone
      raises `KeyError` here where `gen_finger_ctrl` raises `AssertionError`. */
  lemma FingerControllerIsAuto(r: Rig, blank: Bone, finger: string, side: string, axis: string)
    ensures var s := FingerController(r, blank, finger, side, axis);
      var a := VrmAuto.FingerAuto(r, blank, finger, side, axis);
      && s.rig == a.rig
      && (a.out.Err? && a.out.error.MissingBone? ==> s.out == Err(KeyError(a.out.error.name)))
      && (!(a.out.Err? && a.out.error.MissingBone?) ==> s.out == a.out)
  {
    var n := VrmAuto.FingerBoneNames(finger, side);
    var checked := VrmAuto.FingerChecked(n);
    if FirstMissing(r.bones, checked).None? {
      assert checked[0] in r.bones && checked[1] in r.bones && checked[3] in r.bones;
      VrmAuto.FingerAutoOutcome(r, blank, finger, side, axis);
    }
  }

  /** How the call ends: a missing segment or hand raises `KeyError` naming the first of them in the order
      segment 1, 2, 3, hand, and changes nothing; otherwise the call fails exactly for an axis outside the six
      known ones, with `KeyError(axis)` and the drivers untouched, and on success the channel of the axis holds
      the bending driver and no other driver changed. */
  lemma FingerControllerOutcome(r: Rig, blank: Bone, finger: string, side: string, axis: string)
    ensures var s := FingerController(r, blank, finger, side, axis);
      var n := VrmAuto.FingerBoneNames(finger, side);
      var present := n.b1 in r.bones && n.b2 in r.bones && n.b3 in r.bones && n.hand in r.bones;
      && (n.b1 !in r.bones ==> s == Step(Err(KeyError(n.b1)), r))
      && (n.b1 in r.bones && n.b2 !in r.bones ==> s == Step(Err(KeyError(n.b2)), r))
      && (n.b1 in r.bones && n.b2 in r.bones && n.b3 !in r.bones ==> s == Step(Err(KeyError(n.b3)), r))
      && (n.b1 in r.bones && n.b2 in r.bones && n.b3 in r.bones && n.hand !in r.bones ==> s == Step(Err(KeyError(n.hand)), r))
      && (present ==> (s.out.Ok? <==> axis in {"X", "-X", "Y", "-Y", "Z", "-Z"}))
      && (present && s.out.Err? ==> s.out == Err(KeyError(axis)) && s.rig.drivers == r.drivers)
      && (present && s.out.Ok? ==>
            s.rig.drivers == r.drivers[(n.b2, QuaternionIndex(axis).value) := VrmAuto.BendDriver(n.ctrl, axis)])
  {
    var n := VrmAuto.FingerBoneNames(finger, side);
    var checked := VrmAuto.FingerChecked(n);
    assert checked[0] == n.b1 && checked[1] == n.b2 && checked[2] == n.b3 && checked[3] == n.hand;
    FingerControllerIsAuto(r, blank, finger, side, axis);
    VrmAuto.FingerAutoOutcome(r, blank, finger, side, axis);
  }

  /** Running the synthesis a second time leaves the rig and the outcome exactly as the first run left them. */
  lemma FingerControllerIdempotent(r: Rig, blank: Bone, finger: string, side: string, axis: string)
    ensures var s := FingerController(r, blank, finger, side, axis);
      FingerController(s.rig, blank, finger, side, axis) == s
  {
    var n := VrmAuto.FingerBoneNames(finger, side);
    var s := FingerController(r, blank, finger, side, axis);
    FingerControllerOutcome(r, blank, finger, side, axis);
    if n.b1 in r.bones && n.b2 in r.bones && n.b3 in r.bones && n.hand in r.bones {
      FingerControllerIsAuto(r, blank, finger, side, axis);
      VrmAuto.FingerAutoOutcome(r, blank, finger, side, axis);
      VrmAuto.FingerAutoIdempotent(r, blank, finger, side, axis);
      VrmAuto.FingerAutoCarries(r, blank, finger, side, axis);
      FingerControllerIsAuto(s.rig, blank, finger, side, axis);
      VrmAuto.FingerAutoOutcome(s.rig, blank, finger, side, axis);
    }
  }

  /** Once the check finds every segment and the hand, the call is the synthesis proper. */
  lemma FingerControllerBuilt(r: Rig, blank: Bone, finger: string, side: string, axis: string)
    requires FirstMissing(r.bones, VrmAuto.FingerChecked(VrmAuto.FingerBoneNames(finger, side))).None?
    ensures var n := VrmAuto.FingerBoneNames(finger, side);
      && n.b1 in r.bones && n.b2 in r.bones && n.b3 in r.bones && n.hand in r.bones
      && FingerController(r, blank, finger, side, axis) == VrmAuto.FingerBuilt(r, blank, n, axis)
  {
    var n := VrmAuto.FingerBoneNames(finger, side);
    var checked := VrmAuto.FingerChecked(n);
    assert checked[0] in r.bones && checked[1] in r.bones && checked[2] in r.bones && checked[3] in r.bones;
  }

  /** The holders are bones of `obj` standing for `names`, in order. */
  predicate Holding(obj: Skeleton, holders: seq<BoneHolder>, names: seq<string>)
  {
    |holders| == |names| && forall j :: 0 <= j < |holders| ==> holders[j].obj == obj && holders[j].name == names[j]
  }

  /** `for b in holders: if b.bone() is None: raise ...`: `bone()` itself raises `KeyError` on the first missing
      name, so the explicit check never fires. */
  method CheckHolders(obj: Skeleton, holders: seq<BoneHolder>, ghost names: seq<string>) returns (r: Result<()>)
    requires Holding(obj, holders, names)
    ensures FirstMissing(obj.bones, names).None? ==> r == Ok(())
    ensures FirstMissing(obj.bones, names).Some? ==> r == Err(KeyError(names[FirstMissing(obj.bones, names).value]))
  {
    var i := 0;
    while i < |holders|
      invariant 0 <= i <= |holders|
      invariant forall j :: 0 <= j < i ==> holders[j].name in obj.bones
    {
      var b := holders[i].GetBone();
      if b.Err? {
        assert FirstMissing(obj.bones, names) == Some(i);
        return Err(b.error);
      }
      i := i + 1;
    }
    return Ok(());
  }

  /** The edit scope of `fingers.py` lines 22-30: remember the mode, enter edit mode, get or create the control bone, place it
      from the first segment's head along the finger at one and a half times its length, hang it from the hand,
      and restore the mode. */
  method PlaceController(obj: Skeleton, n: FingerNames, bone1: BoneHolder, bone3: BoneHolder, hand: BoneHolder, ctrl: BoneHolder)
    requires bone1.obj == obj && bone3.obj == obj && hand.obj == obj && ctrl.obj == obj
    requires bone1.name == n.b1 && bone3.name == n.b3 && hand.name == n.hand && ctrl.name == n.ctrl
    requires n.b1 in obj.bones && n.b3 in obj.bones && n.hand in obj.bones
    requires n.ctrl != n.b1 && n.ctrl != n.b3 && n.ctrl != n.hand
    modifies obj`bones, obj`mode, obj`modeLog
    ensures obj.bones == VrmAuto.FingerCtrlPlaced(old(obj.bones), obj.blank, n)
    ensures obj.mode == old(obj.mode) && obj.modeLog == old(obj.modeLog) + [EditMode, old(obj.mode)]
  {
    ghost var B := obj.bones;
    ghost var c := Fetch(B, n.ctrl, obj.blank);
    var prevmode := obj.mode;
    obj.ModeSet(EditMode);
    var b := ctrl.Edit(true);
    EditedCreates(B, n.ctrl, obj.blank);
    var e1 := bone1.Edit(false);
    obj.SetHead(ctrl.name, e1.value.head);
    ghost var head := B[n.b1].head;
    assert obj.bones == B[n.ctrl := c.(head := head)];
    var e3 := bone3.Edit(false);
    obj.SetTail(ctrl.name, Add(obj.bones[ctrl.name].head, Scale(1.5, Sub(e3.value.tail, e1.value.head))));
    ghost var tail := Add(head, Scale(1.5, Sub(B[n.b3].tail, head)));
    assert obj.bones == B[n.ctrl := c.(head := head, tail := tail)];
    var h := hand.Edit(false);
    obj.SetParent(ctrl.name, if h.Some? then Some(hand.name) else None);
    assert obj.bones == B[n.ctrl := c.(head := head, tail := tail, parent := Some(n.hand))];
    obj.ModeSet(prevmode);
  }

  /** The inner `rotation_follow(follower, leader)`: the follower copies the leader's local rotation. */
  method RotationFollow(follower: BoneHolder, leader: BoneHolder) returns (r: Result<nat>)
    modifies follower.obj`bones
    ensures follower.name !in old(follower.obj.bones) ==>
      r == Err(NoneAttribute(follower.name)) && follower.obj.bones == old(follower.obj.bones)
    ensures follower.name in old(follower.obj.bones) ==>
      r.Ok? && follower.obj.bones == WithConstraint(old(follower.obj.bones), follower.name, "VRMAUTO_BendingFollow", CopyRotation, VrmAuto.BendingFollowProps(leader.name))
  {
    r := follower.UpsertConstraint("VRMAUTO_BendingFollow", CopyRotation, VrmAuto.BendingFollowProps(leader.name));
  }

  /** The inner `limit_scale(bone)`: the scale limit upserted with its owner space, then every bound set on it. */
  method LimitScaleOf(bone: BoneHolder) returns (r: Result<()>)
    modifies bone.obj`bones
    ensures bone.name !in old(bone.obj.bones) ==>
      r == Err(NoneAttribute(bone.name)) && bone.obj.bones == old(bone.obj.bones)
    ensures bone.name in old(bone.obj.bones) ==>
      r == Ok(()) && bone.obj.bones == WithConstraint(old(bone.obj.bones), bone.name, "VRMAUTO_ScaleLimit", LimitScale, VrmAuto.ScaleLimitOwner + VrmAuto.ScaleLimitBounds)
  {
    ghost var B := bone.obj.bones;
    var c := bone.UpsertConstraint("VRMAUTO_ScaleLimit", LimitScale, VrmAuto.ScaleLimitOwner);
    if c.Err? {
      return Err(c.error);
    }
    bone.obj.AssignFields(bone.name, c.value, VrmAuto.ScaleLimitBounds);
    WithConstraintThenSet(B, bone.name, "VRMAUTO_ScaleLimit", LimitScale, VrmAuto.ScaleLimitOwner, VrmAuto.ScaleLimitBounds, c.value);
    return Ok(());
  }

  /** The inner `rotation_driver(bone, axis)`: the channel index comes from the axis table (`KeyError` for any
      other axis), then the pose bone's driver on that channel is replaced by the scripted bending driver reading
      the control bone's Y scale. */
  method RotationDriver(bone: BoneHolder, ctrl: BoneHolder, axis: string) returns (r: Result<()>)
    modifies bone.obj`drivers
    ensures QuaternionIndex(axis).None? ==> r == Err(KeyError(axis)) && bone.obj.drivers == old(bone.obj.drivers)
    ensures QuaternionIndex(axis).Some? && bone.name !in bone.obj.bones ==>
      r == Err(NoneAttribute(bone.name)) && bone.obj.drivers == old(bone.obj.drivers)
    ensures QuaternionIndex(axis).Some? && bone.name in bone.obj.bones ==>
      r == Ok(()) && bone.obj.drivers == old(bone.obj.drivers)[(bone.name, QuaternionIndex(axis).value) := VrmAuto.BendDriver(ctrl.name, axis)]
  {
    var index := QuaternionIndex(axis);
    if index.None? {
      return Err(KeyError(axis));
    }
    var b := bone.Pose();
    if b.None? {
      return Err(NoneAttribute(bone.name));
    }
    VrmAuto.ReplaceBendDriver(bone.obj, bone.name, index.value, ctrl.name, axis);
    return Ok(());
  }

  /** `for b in holders: b.set_layer(layer)`: the layer loop over the holders' names, stopping with `KeyError` at
      the first missing one. */
  method SetLayers(obj: Skeleton, holders: seq<BoneHolder>, ghost names: seq<string>, layer: int) returns (r: Result<()>)
    requires Holding(obj, holders, names)
    modifies obj`bones
    ensures obj.bones == LayerAll(old(obj.bones), names, layer).bones
    ensures r == VrmAuto.LayerOutcome(LayerAll(old(obj.bones), names, layer))
  {
    var i := 0;
    while i < |holders|
      invariant 0 <= i <= |holders|
      invariant LayerAll(obj.bones, names[i..], layer) == LayerAll(old(obj.bones), names, layer)
    {
      assert names[i..][1..] == names[i + 1..];
      LayerOne(obj.bones, names[i], layer);
      r := holders[i].SetLayer(layer);
      if r.Err? {
        return;
      }
      i := i + 1;
    }
    return Ok(());
  }

  /** `fingers.py` lines 33-52: the two follow constraints and the scale limit. */
  method FollowAndLimit(obj: Skeleton, n: FingerNames, bone1: BoneHolder, bone2: BoneHolder, bone3: BoneHolder, ctrl: BoneHolder)
    requires bone1.obj == obj && bone3.obj == obj && ctrl.obj == obj
    requires bone1.name == n.b1 && bone2.name == n.b2 && bone3.name == n.b3 && ctrl.name == n.ctrl
    requires n.b1 in obj.bones && n.b3 in obj.bones && n.ctrl in obj.bones
    modifies obj`bones
    ensures obj.bones == VrmAuto.FingerLimited(VrmAuto.FingerFollowing(old(obj.bones), n), n)
  {
    ghost var B := obj.bones;
    var f3 := RotationFollow(bone3, bone2);
    ghost var F3 := obj.bones;
    assert F3 == WithConstraint(B, n.b3, "VRMAUTO_BendingFollow", CopyRotation, VrmAuto.BendingFollowProps(n.b2));
    assert n.b1 in F3 && n.ctrl in F3;
    var f1 := RotationFollow(bone1, ctrl);
    ghost var F := obj.bones;
    assert F == VrmAuto.FingerFollowing(B, n);
    assert n.ctrl in F;
    var l := LimitScaleOf(ctrl);
  }

  /** `fingers.py` lines 33-76: the follow constraints, the scale limit, the driver and the layer move. */
  method FinishController(obj: Skeleton, n: FingerNames, bone1: BoneHolder, bone2: BoneHolder, bone3: BoneHolder, ctrl: BoneHolder, axis: string)
    returns (r: Result<()>)
    requires bone1.obj == obj && bone2.obj == obj && bone3.obj == obj && ctrl.obj == obj
    requires bone1.name == n.b1 && bone2.name == n.b2 && bone3.name == n.b3 && ctrl.name == n.ctrl
    requires n.b1 in obj.bones && n.b2 in obj.bones && n.b3 in obj.bones && n.ctrl in obj.bones
    modifies obj`bones, obj`drivers
    ensures Step(r, obj.State()) == VrmAuto.FingerFinished(old(obj.State()), n, axis)
  {
    ghost var segments := [n.b1, n.b2, n.b3];
    assert Holding(obj, [bone1, bone2, bone3], segments);
    FollowAndLimit(obj, n, bone1, bone2, bone3, ctrl);
    ghost var limited := obj.bones;
    r := RotationDriver(bone2, ctrl, axis);
    if r.Err? {
      return;
    }
    LayerAllComplete(limited, segments, 1);
    r := SetLayers(obj, [bone1, bone2, bone3], segments, 1);
  }

  /** `fingers.py` lines 21-76, once every segment and the hand are known to exist. */
  method BuildController(obj: Skeleton, n: FingerNames, bone1: BoneHolder, bone2: BoneHolder, bone3: BoneHolder, hand: BoneHolder, ctrl: BoneHolder, axis: string)
    returns (r: Result<()>)
    requires obj.Valid() && FingerDistinct(n) && n.ctrl != n.hand
    requires bone1.obj == obj && bone2.obj == obj && bone3.obj == obj && hand.obj == obj && ctrl.obj == obj
    requires bone1.name == n.b1 && bone2.name == n.b2 && bone3.name == n.b3 && hand.name == n.hand && ctrl.name == n.ctrl
    requires n.b1 in obj.bones && n.b2 in obj.bones && n.b3 in obj.bones && n.hand in obj.bones
    modifies obj`bones, obj`drivers, obj`mode, obj`modeLog
    ensures obj.Valid()
    ensures Step(r, obj.State()) == VrmAuto.FingerBuilt(old(obj.State()), obj.blank, n, axis)
    ensures obj.mode == old(obj.mode) && obj.modeLog == old(obj.modeLog) + [EditMode, old(obj.mode)]
  {
    ghost var r0 := obj.State();
    VrmAuto.FingerBuiltWellFormed(r0, obj.blank, n, axis);
    PlaceController(obj, n, bone1, bone3, hand, ctrl);
    assert obj.State() == Rig(VrmAuto.FingerCtrlPlaced(r0.bones, obj.blank, n), r0.drivers);
    r := FinishController(obj, n, bone1, bone2, bone3, ctrl, axis);
  }

  /** `generate_finger_controller(obj, finger, side, bending_axis)` with the defects of lines 15, 22, 27 and 36
      corrected: the holder of the control bone is built with two arguments, the previous mode is the object's,
      the finger extent is read from the edit bones of the first and third segments, and the follow target is
      the armature object. */
  method GenerateFingerController(obj: Skeleton, finger: string, side: string, axis: string) returns (r: Result<()>)
    requires obj.Valid()
    modifies obj`bones, obj`drivers, obj`mode, obj`modeLog
    ensures obj.Valid()
    ensures Step(r, obj.State()) == FingerController(old(obj.State()), obj.blank, finger, side, axis)
    ensures obj.mode == old(obj.mode)
    ensures obj.modeLog == old(obj.modeLog) +
      (if FirstMissing(old(obj.bones), VrmAuto.FingerChecked(VrmAuto.FingerBoneNames(finger, side))).Some? then [] else [EditMode, old(obj.mode)])
  {
    var n := VrmAuto.FingerBoneNames(finger, side);
    var bone1 := new BoneHolder(obj, n.b1);
    var bone2 := new BoneHolder(obj, n.b2);
    var bone3 := new BoneHolder(obj, n.b3);
    var hand := new BoneHolder(obj, n.hand);
    var ctrl := new BoneHolder(obj, n.ctrl);
    r := CheckHolders(obj, [bone1, bone2, bone3, hand], VrmAuto.FingerChecked(n));
    if r.Err? {
      return;
    }
    FingerControllerBuilt(obj.State(), obj.blank, finger, side, axis);
    VrmAuto.FingerNamesDistinct(finger, side);
    r := BuildController(obj, n, bone1, bone2, bone3, hand, ctrl, axis);
  }
}
