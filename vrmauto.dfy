/** vrmauto.py: the first generation of the rigging script, a set of functions over the armature object. */
module VrmAuto {
  import opened Outcomes
  import opened Geometry
  import opened Constraints
  import opened Armature
  import BoneNames

  /** The outcome of a layer loop of `set_bone_layer`, where a missing bone raises `KeyError`. */
  function LayerOutcome(l: Layered): Result<()>
  {
    if l.missing.Some? then Err(KeyError(l.missing.value)) else Ok(())
  }

  /** `add_bone_constraint(b, name, type, **props)` on the pose bone `bone`; returns the constraint's position. */
  method AddBoneConstraint(obj: Skeleton, bone: string, name: string, kind: Kind, props: map<string, Value>) returns (index: nat)
    requires bone in obj.bones
    modifies obj`bones
    ensures obj.bones == WithConstraint(old(obj.bones), bone, name, kind, props)
    ensures index == Upsert(old(obj.bones)[bone].constraints, name, kind, props).index
    ensures index < |obj.bones[bone].constraints|
  {
    var found := obj.FindConstraint(bone, name);
    if found.None? {
      index := obj.NewConstraint(bone, name, kind);
    } else {
      index := found.value;
    }
    obj.AssignFields(bone, index, props);
  }

  /** `set_bone_layer(armature, layer, *names)`. */
  method SetBoneLayer(obj: Skeleton, layer: int, names: seq<string>) returns (r: Result<()>)
    modifies obj`bones
    ensures obj.bones == LayerAll(old(obj.bones), names, layer).bones
    ensures r == LayerOutcome(LayerAll(old(obj.bones), names, layer))
  {
    var i := 0;
    while i < |names|
      invariant 0 <= i <= |names|
      invariant LayerAll(obj.bones, names[i..], layer) == LayerAll(old(obj.bones), names, layer)
    {
      assert names[i..][1..] == names[i + 1..];
      if names[i] !in obj.bones {
        return Err(KeyError(names[i]));
      }
      obj.SetLayers(names[i], OneHot(layer));
      i := i + 1;
    }
    return Ok(());
  }

  // ---------------------------------------------------------------------------------------------
  // symmetrize_bone_names

  /** No two bones are renamed by `f` onto the same name, and none onto the name another bone has.
      Blender would add a `.001` suffix on such a clash; the script does not guard against it. */
  ghost predicate RenamesApart(f: string -> string, names: set<string>)
  {
    && (forall a, b {:trigger f(a), f(b)} :: a in names && b in names && a != b ==> f(a) != f(b))
    && (forall a, b {:trigger f(a), b in names} :: a in names && b in names && a != b ==> f(a) != b)
  }

  /** A parent link once the bones in `done` have been renamed by `f`. */
  function Relink(f: string -> string, p: Option<string>, done: set<string>): Option<string>
  {
    if p.Some? && p.value in done then Some(f(p.value)) else p
  }

  /** The table while a renaming loop runs: the bones in `done` sit under their new names, the others under
      their old ones, and every parent link points at the bone's current name. */
  ghost predicate RenamedSoFar(f: string -> string, B: map<string, Bone>, cur: map<string, Bone>, done: set<string>, todo: set<string>)
  {
    && done + todo == B.Keys
    && cur.Keys == (set d | d in done :: f(d)) + todo
    && (forall d :: d in done ==> f(d) in cur && cur[f(d)] == B[d].(parent := Relink(f, B[d].parent, done)))
    && (forall t :: t in todo ==> cur[t] == B[t].(parent := Relink(f, B[t].parent, done)))
  }

  /** What the renaming of `n` must not collide with: the new names given so far and the names still to do. */
  ghost predicate Clear(f: string -> string, done: set<string>, todo: set<string>, n: string)
  {
    && (forall d :: d in done ==> f(d) != n && f(d) != f(n))
    && (forall t :: t in todo && t != n ==> t != f(n))
  }

  lemma ClearFromApart(f: string -> string, B: map<string, Bone>, done: set<string>, todo: set<string>, n: string)
    requires RenamesApart(f, B.Keys) && todo + done == B.Keys && todo !! done && n in todo
    ensures Clear(f, done, todo, n)
  {
  }

  /** Renaming the next bone `n` moves the parent links that point at it, and only those. */
  lemma RelinkStep(f: string -> string, B: map<string, Bone>, done: set<string>, n: string, p: Option<string>)
    requires RenamesApart(f, B.Keys) && n in B && n !in done && done <= B.Keys
    requires p.Some? ==> p.value in B
    ensures RenameLink(Relink(f, p, done), n, f(n)) == Relink(f, p, done + {n})
    ensures f(n) == n ==> Relink(f, p, done) == Relink(f, p, done + {n})
  {
    if p.Some? && p.value in done {
      assert p.value != n;
    }
  }

  /** The next name is free to take. */
  lemma NameFree(f: string -> string, B: map<string, Bone>, cur: map<string, Bone>, done: set<string>, todo: set<string>, n: string)
    requires RenamesApart(f, B.Keys) && todo + done == B.Keys && todo !! done && n in todo && f(n) != n
    requires cur.Keys == (set d | d in done :: f(d)) + todo
    ensures f(n) !in cur
  {
  }

  /** The key set after one more turn of the loop. */
  lemma KeysStep(f: string -> string, cur: map<string, Bone>, done: set<string>, todo: set<string>, n: string, keys: set<string>)
    requires n in todo && todo !! done
    requires cur.Keys == (set d | d in done :: f(d)) + todo
    requires f(n) == n ==> keys == cur.Keys
    requires f(n) != n ==> keys == cur.Keys - {n} + {f(n)}
    requires f(n) != n ==> forall d :: d in done ==> f(d) != n
    ensures keys == (set d | d in done + {n} :: f(d)) + (todo - {n})
  {
    assert (set d | d in done + {n} :: f(d)) == (set d | d in done :: f(d)) + {f(n)};
  }

  /** Where a turn of the renaming loop that renames `n` starts: the loop's description holds, the new name
      is free and clear of every other name, and the parent links that point at `n` are the ones to move. */
  ghost predicate TurnReady(f: string -> string, B: map<string, Bone>, cur: map<string, Bone>,
                            done: set<string>, todo: set<string>, n: string)
  {
    && Clear(f, done, todo, n) && todo !! done && n in todo && f(n) != n
    && RenamedSoFar(f, B, cur, done, todo)
    && f(n) !in cur
    && (forall x :: x in B ==> RenameLink(Relink(f, B[x].parent, done), n, f(n)) == Relink(f, B[x].parent, done + {n}))
  }

  /** A turn of the renaming loop that renames `n` keeps the loop's description of the table. */
  lemma RenameTurn(f: string -> string, B: map<string, Bone>, cur: map<string, Bone>,
                   done: set<string>, todo: set<string>, n: string)
    requires TurnReady(f, B, cur, done, todo, n)
    ensures RenamedSoFar(f, B, Renamed(cur, n, f(n)), done + {n}, todo - {n})
  {
    var next := Renamed(cur, n, f(n));
    KeysStep(f, cur, done, todo, n, next.Keys);
    RenamedDone(f, B, cur, next, done, todo, n);
    RenamedTodo(f, B, cur, next, done, todo, n);
    RenamedSoFarIntro(f, B, next, done + {n}, todo - {n});
  }

  lemma RenamedSoFarIntro(f: string -> string, B: map<string, Bone>, cur: map<string, Bone>, done: set<string>, todo: set<string>)
    requires done + todo == B.Keys
    requires cur.Keys == (set d | d in done :: f(d)) + todo
    requires forall d :: d in done ==> f(d) in cur && cur[f(d)] == B[d].(parent := Relink(f, B[d].parent, done))
    requires forall t :: t in todo ==> cur[t] == B[t].(parent := Relink(f, B[t].parent, done))
    ensures RenamedSoFar(f, B, cur, done, todo)
  {
  }

  /** A turn of the renaming loop that keeps the name `n` keeps the loop's description of the table. */
  lemma KeepTurn(f: string -> string, B: map<string, Bone>, cur: map<string, Bone>,
                 done: set<string>, todo: set<string>, n: string)
    requires todo !! done && n in todo && f(n) == n
    requires RenamedSoFar(f, B, cur, done, todo)
    requires forall x :: x in B ==> Relink(f, B[x].parent, done) == Relink(f, B[x].parent, done + {n})
    ensures RenamedSoFar(f, B, cur, done + {n}, todo - {n})
  {
    KeysStep(f, cur, done, todo, n, cur.Keys);
    KeptName(f, B, cur, done, todo, n);
  }

  lemma RelinkAll(f: string -> string, B: map<string, Bone>, done: set<string>, n: string)
    requires WellFormed(B) && RenamesApart(f, B.Keys) && n in B && n !in done && done <= B.Keys
    ensures forall x :: x in B ==> RenameLink(Relink(f, B[x].parent, done), n, f(n)) == Relink(f, B[x].parent, done + {n})
    ensures f(n) == n ==> forall x :: x in B ==> Relink(f, B[x].parent, done) == Relink(f, B[x].parent, done + {n})
  {
    forall x | x in B
      ensures RenameLink(Relink(f, B[x].parent, done), n, f(n)) == Relink(f, B[x].parent, done + {n})
      ensures f(n) == n ==> Relink(f, B[x].parent, done) == Relink(f, B[x].parent, done + {n})
    {
      RelinkStep(f, B, done, n, B[x].parent);
    }
  }

  /** A bone whose name the rules leave alone stays where it is. */
  lemma KeptName(f: string -> string, B: map<string, Bone>, cur: map<string, Bone>,
                 done: set<string>, todo: set<string>, n: string)
    requires todo !! done && n in todo && f(n) == n
    requires RenamedSoFar(f, B, cur, done, todo)
    requires forall x :: x in B ==> Relink(f, B[x].parent, done) == Relink(f, B[x].parent, done + {n})
    ensures forall d :: d in done + {n} ==> f(d) in cur && cur[f(d)] == B[d].(parent := Relink(f, B[d].parent, done + {n}))
    ensures forall t :: t in todo - {n} ==> cur[t] == B[t].(parent := Relink(f, B[t].parent, done + {n}))
  {
  }

  /** After renaming `n`, the bones renamed earlier and `n` itself sit under their new names. */
  lemma RenamedDone(f: string -> string, B: map<string, Bone>, cur: map<string, Bone>, next: map<string, Bone>,
                    done: set<string>, todo: set<string>, n: string)
    requires TurnReady(f, B, cur, done, todo, n) && next == Renamed(cur, n, f(n))
    ensures forall d :: d in done + {n} ==> f(d) in next && next[f(d)] == B[d].(parent := Relink(f, B[d].parent, done + {n}))
  {
    forall d | d in done + {n}
      ensures f(d) in next && next[f(d)] == B[d].(parent := Relink(f, B[d].parent, done + {n}))
    {
      if d != n {
        assert f(d) != n && f(d) != f(n);
        RenamedAt(cur, n, f(n), f(d));
      } else {
        RenamedAt(cur, n, f(n), f(n));
      }
    }
  }

  /** After renaming `n`, the bones still to do keep their names. */
  lemma RenamedTodo(f: string -> string, B: map<string, Bone>, cur: map<string, Bone>, next: map<string, Bone>,
                    done: set<string>, todo: set<string>, n: string)
    requires TurnReady(f, B, cur, done, todo, n) && next == Renamed(cur, n, f(n))
    ensures forall t :: t in todo - {n} ==> next[t] == B[t].(parent := Relink(f, B[t].parent, done + {n}))
  {
    forall t | t in todo - {n}
      ensures next[t] == B[t].(parent := Relink(f, B[t].parent, done + {n}))
    {
      RenamedAt(cur, n, f(n), t);
    }
  }

  /** One entry of a renamed table. */
  lemma RenamedAt(bones: map<string, Bone>, from: string, to: string, k: string)
    requires from in bones && to !in bones && (k == to || (k in bones && k != from))
    ensures var r := Renamed(bones, from, to);
      k in r && r[k] == (if k == to then bones[from] else bones[k]).(parent := RenameLink((if k == to then bones[from] else bones[k]).parent, from, to))
  {
  }

  lemma NothingRenamedYet(f: string -> string, B: map<string, Bone>)
    ensures RenamedSoFar(f, B, B, {}, B.Keys)
  {
    assert (set d | d in {} :: f(d)) == {};
  }

  /** Once every bone is done, each sits under its new name with every parent link renamed. */
  lemma AllRenamed(f: string -> string, B: map<string, Bone>, cur: map<string, Bone>)
    requires RenamedSoFar(f, B, cur, B.Keys, {})
    ensures cur.Keys == set n | n in B :: f(n)
    ensures forall n :: n in B ==> cur[f(n)] == B[n].(parent := Relink(f, B[n].parent, B.Keys))
  {
  }

  /** Renaming keeps every parent link inside the table. */
  lemma AllRenamedWellFormed(f: string -> string, B: map<string, Bone>, cur: map<string, Bone>)
    requires WellFormed(B) && RenamedSoFar(f, B, cur, B.Keys, {})
    ensures WellFormed(cur)
  {
    forall k | k in cur
      ensures |cur[k].layers| == 32 && UniqueNames(cur[k].constraints)
      ensures cur[k].parent.Some? ==> cur[k].parent.value in cur
    {
      var d :| d in B && f(d) == k;
    }
  }

  /** `symmetrize_bone_names(obj)`: every bone gets the name the prefix rules give it, parent links follow,
      and the mode on entry is restored. */
  method SymmetrizeBoneNames(obj: Skeleton)
    requires obj.Valid() && RenamesApart(BoneNames.Symmetrize, obj.bones.Keys)
    modifies obj`bones, obj`mode, obj`modeLog
    ensures obj.Valid()
    ensures obj.mode == old(obj.mode) && obj.modeLog == old(obj.modeLog) + [EditMode, old(obj.mode)]
    ensures obj.bones.Keys == set n | n in old(obj.bones) :: BoneNames.Symmetrize(n)
    ensures forall n :: n in old(obj.bones) ==>
      obj.bones[BoneNames.Symmetrize(n)] == old(obj.bones)[n].(parent := Relink(BoneNames.Symmetrize, old(obj.bones)[n].parent, old(obj.bones).Keys))
  {
    var prevmode := obj.mode;
    obj.ModeSet(EditMode);
    RenameBones(obj, BoneNames.Symmetrize);
    obj.ModeSet(prevmode);
  }

  /** The loop of `symmetrize_bone_names`: every bone is renamed to `f` of its name, one at a time. */
  method RenameBones(obj: Skeleton, f: string -> string)
    requires WellFormed(obj.bones) && RenamesApart(f, obj.bones.Keys)
    modifies obj`bones
    ensures WellFormed(obj.bones)
    ensures obj.bones.Keys == set n | n in old(obj.bones) :: f(n)
    ensures forall n :: n in old(obj.bones) ==>
      obj.bones[f(n)] == old(obj.bones)[n].(parent := Relink(f, old(obj.bones)[n].parent, old(obj.bones).Keys))
  {
    ghost var B := obj.bones;
    var todo := obj.bones.Keys;
    ghost var done: set<string> := {};
    NothingRenamedYet(f, B);
    while todo != {}
      invariant todo + done == B.Keys && todo !! done
      invariant RenamedSoFar(f, B, obj.bones, done, todo)
      decreases todo
    {
      var n :| n in todo;
      ghost var cur := obj.bones;
      var s := f(n);
      RelinkAll(f, B, done, n);
      ClearFromApart(f, B, done, todo, n);
      if s != n {
        NameFree(f, B, cur, done, todo, n);
        obj.RenameBone(n, s);
        RenameTurn(f, B, cur, done, todo, n);
      } else {
        KeepTurn(f, B, cur, done, todo, n);
      }
      todo := todo - {n};
      done := done + {n};
    }
    AllRenamed(f, B, obj.bones);
    AllRenamedWellFormed(f, B, obj.bones);
  }

  // ---------------------------------------------------------------------------------------------
  // set_spring_bones

  /** The spring-bone settings `set_spring_bones` writes. */
  const SpringSettings := Spring(true, true, 0.3, 0.0, 0.5)

  /** The table after `set_spring_bones`. */
  function SpringConfigured(bones: map<string, Bone>): map<string, Bone>
  {
    map n | n in bones :: if BoneNames.IsSpringBoneName(n) then bones[n].(spring := SpringSettings) else bones[n]
  }

  /** Exactly the bones whose names match the spring-bone pattern get the fixed settings, nothing else of them
      changes, and running the configuration again changes nothing. */
  lemma SpringConfiguredSpec(bones: map<string, Bone>)
    ensures var r := SpringConfigured(bones);
      && r.Keys == bones.Keys
      && (forall n :: n in bones && BoneNames.IsSpringBoneName(n) ==> r[n] == bones[n].(spring := SpringSettings))
      && (forall n :: n in bones && !BoneNames.IsSpringBoneName(n) ==> r[n] == bones[n])
      && SpringConfigured(r) == r
      && (WellFormed(bones) ==> WellFormed(r))
  {
  }

  /** `set_spring_bones(obj)`. */
  method SetSpringBones(obj: Skeleton)
    requires obj.Valid()
    modifies obj`bones
    ensures obj.Valid()
    ensures obj.bones == SpringConfigured(old(obj.bones))
  {
    ghost var B := obj.bones;
    var todo := obj.bones.Keys;
    ghost var done: set<string> := {};
    while todo != {}
      invariant todo + done == B.Keys && todo !! done
      invariant SpringSoFar(B, obj.bones, done)
      decreases todo
    {
      var n :| n in todo;
      ghost var cur := obj.bones;
      if BoneNames.IsSpringBoneName(n) {
        obj.SetSpring(n, SpringSettings);
      }
      SpringStep(B, cur, done, n);
      todo := todo - {n};
      done := done + {n};
    }
    SpringAllDone(B, obj.bones);
  }

  /** The table while the loop of `set_spring_bones` runs: the matching bones in `done` carry the settings. */
  ghost predicate SpringSoFar(B: map<string, Bone>, cur: map<string, Bone>, done: set<string>)
  {
    && cur.Keys == B.Keys
    && forall n :: n in B ==> cur[n] == if n in done && BoneNames.IsSpringBoneName(n) then B[n].(spring := SpringSettings) else B[n]
  }

  /** One turn of the loop configures the bone `n` if its name matches, and nothing else. */
  lemma SpringStep(B: map<string, Bone>, cur: map<string, Bone>, done: set<string>, n: string)
    requires SpringSoFar(B, cur, done) && n in B && n !in done
    ensures SpringSoFar(B, if BoneNames.IsSpringBoneName(n) then cur[n := cur[n].(spring := SpringSettings)] else cur, done + {n})
  {
  }

  /** Once every bone is done, the table is the configured one and still well formed. */
  lemma SpringAllDone(B: map<string, Bone>, cur: map<string, Bone>)
    requires SpringSoFar(B, cur, B.Keys)
    ensures cur == SpringConfigured(B)
    ensures WellFormed(B) ==> WellFormed(cur)
  {
    SpringConfiguredSpec(B);
  }

  // ---------------------------------------------------------------------------------------------
  // gen_finger_ctrl

  function FingerBoneNames(finger: string, side: string): FingerNames
  {
    FingerNames(finger + "1_" + side, finger + "2_" + side, finger + "3_" + side, "Hand_" + side, finger + "Ctrl_" + side)
  }

  /** The five names are pairwise different, whatever the finger and the side. */
  lemma FingerNamesDistinct(finger: string, side: string)
    ensures var n := FingerBoneNames(finger, side);
      && n.b1 != n.b2 && n.b1 != n.b3 && n.b2 != n.b3
      && n.hand != n.b1 && n.hand != n.b2 && n.hand != n.b3
      && n.ctrl != n.b1 && n.ctrl != n.b2 && n.ctrl != n.b3 && n.ctrl != n.hand
  {
    var n := FingerBoneNames(finger, side);
    var k := |finger|;
    assert n.b1[k] == '1' && n.b2[k] == '2' && n.b3[k] == '3' && n.ctrl[k] == 'C';
    if k == 3 {
      assert n.hand[3] == 'd';
    }
    if k == 0 {
      assert n.hand[0] == 'H';
    }
  }

  /** The attributes of a `VRMAUTO_BendingFollow` constraint following `subtarget`. */
  function BendingFollowProps(subtarget: string): map<string, Value>
  {
    map["target" := ArmatureObject, "subtarget" := Text(subtarget), "target_space" := Text("LOCAL"), "owner_space" := Text("LOCAL")]
  }

  /** The attribute passed to `add_bone_constraint` for the scale limit. */
  const ScaleLimitOwner: map<string, Value> := map["owner_space" := Text("LOCAL")]

  /** The attributes set on the scale limit afterwards: every bound on, the Y scale between 0.5 and 1, X and Z fixed at 1. */
  const ScaleLimitBounds: map<string, Value> := map[
    "use_min_x" := Flag(true), "use_min_y" := Flag(true), "use_min_z" := Flag(true),
    "use_max_x" := Flag(true), "use_max_y" := Flag(true), "use_max_z" := Flag(true),
    "max_x" := Num(1.0), "max_z" := Num(1.0), "max_y" := Num(1.0),
    "min_x" := Num(1.0), "min_z" := Num(1.0), "min_y" := Num(0.5)]

  /** The driver on the middle segment: bend by twice the shrink of the control bone, mirrored for a negative axis. */
  function BendDriver(ctrl: string, axis: string): Driver
  {
    Driver(true, if IsNegativeAxis(axis) then "-(var - 1) * 2" else "(var - 1) * 2", [ScaleVariable(ctrl)])
  }

  /** At rest (scale 1) the finger is straight; at the smallest scale the limit allows (0.5) it bends by one
      full unit of the quaternion channel, in the direction the axis sign gives. */
  lemma BendDriverRange(ctrl: string, axis: string)
    ensures Evaluate(BendDriver(ctrl, axis).expression, 1.0) == Some(0.0)
    ensures Evaluate(BendDriver(ctrl, axis).expression, 0.5) == Some(if IsNegativeAxis(axis) then 1.0 else -1.0)
  {
  }

  /** The edit step: the control bone starts at the first segment's head, points along the finger and is one and
      a half times as long as it, and hangs from the hand. */
  function FingerCtrlPlaced(bones: map<string, Bone>, blank: Bone, n: FingerNames): map<string, Bone>
    requires n.b1 in bones && n.b3 in bones
  {
    var head := bones[n.b1].head;
    var c := Fetch(bones, n.ctrl, blank);
    bones[n.ctrl := c.(head := head, tail := Add(head, Scale(1.5, Sub(bones[n.b3].tail, head))), parent := Some(n.hand))]
  }

  /** The two bending-follow constraints: the third segment copies the second, the first copies the control. */
  function FingerFollowing(bones: map<string, Bone>, n: FingerNames): map<string, Bone>
    requires n.b1 in bones && n.b3 in bones
  {
    var f := WithConstraint(bones, n.b3, "VRMAUTO_BendingFollow", CopyRotation, BendingFollowProps(n.b2));
    WithConstraint(f, n.b1, "VRMAUTO_BendingFollow", CopyRotation, BendingFollowProps(n.ctrl))
  }

  /** The scale limit on the control bone, with the attributes set after the upsert merged in. */
  function FingerLimited(bones: map<string, Bone>, n: FingerNames): map<string, Bone>
    requires n.ctrl in bones
  {
    WithConstraint(bones, n.ctrl, "VRMAUTO_ScaleLimit", LimitScale, ScaleLimitOwner + ScaleLimitBounds)
  }

  /** What `gen_finger_ctrl(obj, finger, side, bending_axis)` does to the rig: a missing bone stops it before any
      change; an axis outside the six known ones raises `KeyError` after the bones and constraints are in place. */
  function FingerAuto(r: Rig, blank: Bone, finger: string, side: string, axis: string): Step
  {
    var n := FingerBoneNames(finger, side);
    var checked := FingerChecked(n);
    match FirstMissing(r.bones, checked)
    case Some(k) => Step(Err(MissingBone(checked[k])), r)
    case None =>
      assert checked[0] in r.bones && checked[2] in r.bones;
      FingerBuilt(r, blank, n, axis)
  }

  /** The part of `gen_finger_ctrl` after the bone check. */
  function FingerBuilt(r: Rig, blank: Bone, n: FingerNames, axis: string): Step
    requires n.b1 in r.bones && n.b3 in r.bones
  {
    FingerFinished(Rig(FingerCtrlPlaced(r.bones, blank, n), r.drivers), n, axis)
  }

  /** The part of `gen_finger_ctrl` after the edit step: constraints, driver and layers. */
  function FingerFinished(r: Rig, n: FingerNames, axis: string): Step
    requires n.b1 in r.bones && n.b3 in r.bones && n.ctrl in r.bones
  {
    var limited := FingerLimited(FingerFollowing(r.bones, n), n);
    match QuaternionIndex(axis)
    case None => Step(Err(KeyError(axis)), Rig(limited, r.drivers))
    case Some(i) =>
      Step(Ok(()), Rig(LayerAll(limited, [n.b1, n.b2, n.b3], 1).bones, r.drivers[(n.b2, i) := BendDriver(n.ctrl, axis)]))
  }

  /** The control bone is placed without breaking the table's invariant. */
  lemma FingerCtrlPlacedWellFormed(bones: map<string, Bone>, blank: Bone, n: FingerNames)
    requires WellFormed(bones) && IsBlank(blank) && n.b1 in bones && n.b3 in bones && n.hand in bones
    ensures WellFormed(FingerCtrlPlaced(bones, blank, n))
    ensures FingerCtrlPlaced(bones, blank, n).Keys == bones.Keys + {n.ctrl}
  {
  }

  /** `gen_finger_ctrl` keeps the table well formed, whatever its outcome. */
  lemma FingerAutoWellFormed(r: Rig, blank: Bone, finger: string, side: string, axis: string)
    requires WellFormed(r.bones) && IsBlank(blank)
    ensures WellFormed(FingerAuto(r, blank, finger, side, axis).rig.bones)
  {
    var n := FingerBoneNames(finger, side);
    var checked := FingerChecked(n);
    if FirstMissing(r.bones, checked).None? {
      assert checked[0] in r.bones && checked[2] in r.bones && checked[3] in r.bones;
      FingerBuiltWellFormed(r, blank, n, axis);
    }
  }

  lemma FingerBuiltWellFormed(r: Rig, blank: Bone, n: FingerNames, axis: string)
    requires WellFormed(r.bones) && IsBlank(blank) && n.b1 in r.bones && n.b3 in r.bones && n.hand in r.bones
    ensures WellFormed(FingerBuilt(r, blank, n, axis).rig.bones)
  {
    var placed := FingerCtrlPlaced(r.bones, blank, n);
    FingerCtrlPlacedWellFormed(r.bones, blank, n);
    FingerFollowingWellFormed(placed, n);
    var following := FingerFollowing(placed, n);
    WithConstraintSpec(following, n.ctrl, "VRMAUTO_ScaleLimit", LimitScale, ScaleLimitOwner + ScaleLimitBounds);
    LayerAllWellFormed(FingerLimited(following, n), [n.b1, n.b2, n.b3], 1);
  }

  lemma FingerFollowingWellFormed(bones: map<string, Bone>, n: FingerNames)
    requires WellFormed(bones) && n.b1 in bones && n.b3 in bones
    ensures WellFormed(FingerFollowing(bones, n)) && FingerFollowing(bones, n).Keys == bones.Keys
  {
    WithConstraintSpec(bones, n.b3, "VRMAUTO_BendingFollow", CopyRotation, BendingFollowProps(n.b2));
    var f := WithConstraint(bones, n.b3, "VRMAUTO_BendingFollow", CopyRotation, BendingFollowProps(n.b2));
    WithConstraintSpec(f, n.b1, "VRMAUTO_BendingFollow", CopyRotation, BendingFollowProps(n.ctrl));
  }

  /** The follow constraints touch the constraint lists of the first and third segments and nothing else. */
  lemma FingerFollowingAt(bones: map<string, Bone>, n: FingerNames)
    requires n.b1 in bones && n.b3 in bones && n.b1 != n.b3
    ensures var f := FingerFollowing(bones, n);
      && f.Keys == bones.Keys
      && f[n.b3] == Upserting(bones[n.b3], "VRMAUTO_BendingFollow", CopyRotation, BendingFollowProps(n.b2))
      && f[n.b1] == Upserting(bones[n.b1], "VRMAUTO_BendingFollow", CopyRotation, BendingFollowProps(n.ctrl))
      && (forall m :: m in bones && m != n.b1 && m != n.b3 ==> f[m] == bones[m])
  {
  }

  /** The three constraints, bone by bone: the control bone gets the scale limit, the first and third segments
      their follow constraints, and every other bone is as it was. */
  lemma FingerLimitedAt(bones: map<string, Bone>, n: FingerNames)
    requires n.b1 in bones && n.b3 in bones && n.ctrl in bones && FingerDistinct(n)
    ensures var f := FingerLimited(FingerFollowing(bones, n), n);
      && f.Keys == bones.Keys
      && f[n.ctrl] == Upserting(bones[n.ctrl], "VRMAUTO_ScaleLimit", LimitScale, ScaleLimitOwner + ScaleLimitBounds)
      && f[n.b3] == Upserting(bones[n.b3], "VRMAUTO_BendingFollow", CopyRotation, BendingFollowProps(n.b2))
      && f[n.b1] == Upserting(bones[n.b1], "VRMAUTO_BendingFollow", CopyRotation, BendingFollowProps(n.ctrl))
      && (forall m :: m in bones && m != n.b1 && m != n.b3 && m != n.ctrl ==> f[m] == bones[m])
  {
    FingerFollowingAt(bones, n);
  }

  /** The constraints, the driver and the layer move after the edit step, bone by bone: on top of the above, the
      three segments move to layer 1 when the axis is known. */
  lemma FingerFinishedBones(r: Rig, n: FingerNames, axis: string)
    requires n.b1 in r.bones && n.b2 in r.bones && n.b3 in r.bones && n.ctrl in r.bones && FingerDistinct(n)
    ensures var bones := FingerFinished(r, n, axis).rig.bones;
      var ok := QuaternionIndex(axis).Some?;
      && bones.Keys == r.bones.Keys
      && bones[n.ctrl] == Upserting(r.bones[n.ctrl], "VRMAUTO_ScaleLimit", LimitScale, ScaleLimitOwner + ScaleLimitBounds)
      && bones[n.b1] == Layer1If(ok, Upserting(r.bones[n.b1], "VRMAUTO_BendingFollow", CopyRotation, BendingFollowProps(n.ctrl)))
      && bones[n.b2] == Layer1If(ok, r.bones[n.b2])
      && bones[n.b3] == Layer1If(ok, Upserting(r.bones[n.b3], "VRMAUTO_BendingFollow", CopyRotation, BendingFollowProps(n.b2)))
      && (forall m :: m in r.bones && m != n.b1 && m != n.b2 && m != n.b3 && m != n.ctrl ==> bones[m] == r.bones[m])
  {
    FingerLimitedAt(r.bones, n);
    var limited := FingerLimited(FingerFollowing(r.bones, n), n);
    if QuaternionIndex(axis).Some? {
      LayerAllThree(limited, n.b1, n.b2, n.b3, 1);
    }
  }

  /** `after` is the table `gen_finger_ctrl` leaves behind for `before` once the bone check passed: the control
      bone starts at the first segment's head, reaches one and a half times the finger's length, hangs from the
      hand and carries the scale limit; the first and third segments carry their follow constraints; the three
      segments move to layer 1 when `ok` (the axis is known); every other bone is as it was. */
  ghost predicate FingerSynthesized(before: map<string, Bone>, after: map<string, Bone>, blank: Bone, n: FingerNames, ok: bool)
    requires n.b1 in before && n.b2 in before && n.b3 in before
  {
    var head := before[n.b1].head;
    && after.Keys == before.Keys + {n.ctrl}
    && after[n.ctrl] == Upserting(Fetch(before, n.ctrl, blank), "VRMAUTO_ScaleLimit", LimitScale, ScaleLimitOwner + ScaleLimitBounds)
         .(head := head, tail := Add(head, Scale(1.5, Sub(before[n.b3].tail, head))), parent := Some(n.hand))
    && after[n.b1] == Layer1If(ok, Upserting(before[n.b1], "VRMAUTO_BendingFollow", CopyRotation, BendingFollowProps(n.ctrl)))
    && after[n.b2] == Layer1If(ok, before[n.b2])
    && after[n.b3] == Layer1If(ok, Upserting(before[n.b3], "VRMAUTO_BendingFollow", CopyRotation, BendingFollowProps(n.b2)))
    && (forall m :: m in before && m != n.b1 && m != n.b2 && m != n.b3 && m != n.ctrl ==> after[m] == before[m])
  }

  /** Every bone `gen_finger_ctrl` leaves behind once the bone check passed is as `FingerSynthesized` says. */
  lemma FingerBuiltBones(r: Rig, blank: Bone, n: FingerNames, axis: string)
    requires n.b1 in r.bones && n.b2 in r.bones && n.b3 in r.bones && FingerDistinct(n)
    ensures FingerSynthesized(r.bones, FingerBuilt(r, blank, n, axis).rig.bones, blank, n, QuaternionIndex(axis).Some?)
  {
    var placed := FingerCtrlPlaced(r.bones, blank, n);
    FingerFinishedBones(Rig(placed, r.drivers), n, axis);
  }

  /** How `gen_finger_ctrl` ends: a missing finger or hand bone raises naming a missing bone and changes nothing;
      otherwise the call fails exactly for an axis outside the six known ones, with `KeyError` and the drivers
      untouched, and on success the channel of the axis holds the bending driver and nothing else changed
      among the drivers. */
  lemma FingerAutoOutcome(r: Rig, blank: Bone, finger: string, side: string, axis: string)
    ensures var s := FingerAuto(r, blank, finger, side, axis);
      var n := FingerBoneNames(finger, side);
      var present := n.b1 in r.bones && n.b2 in r.bones && n.b3 in r.bones && n.hand in r.bones;
      && (!present ==>
            s.rig == r && s.out.Err? && s.out.error.MissingBone?
            && s.out.error.name in {n.b1, n.b2, n.b3, n.hand} && s.out.error.name !in r.bones)
      && (present ==> (s.out.Ok? <==> axis in {"X", "-X", "Y", "-Y", "Z", "-Z"}))
      && (present && s.out.Err? ==> s.out == Err(KeyError(axis)) && s.rig.drivers == r.drivers)
      && (present && s.out.Ok? ==>
            s.rig.drivers == r.drivers[(n.b2, QuaternionIndex(axis).value) := BendDriver(n.ctrl, axis)])
  {
    var n := FingerBoneNames(finger, side);
    var checked := FingerChecked(n);
    assert checked[0] == n.b1 && checked[1] == n.b2 && checked[2] == n.b3 && checked[3] == n.hand;
  }

  /** The finger-bone entries of a successful `gen_finger_ctrl`: the control bone starts at the first segment's
      head, reaches one and a half times the finger's length, hangs from the hand and carries the scale limit with
      all its bounds; the third segment follows the second and the first follows the control bone. */
  lemma FingerAutoCarries(r: Rig, blank: Bone, finger: string, side: string, axis: string)
    requires var n := FingerBoneNames(finger, side);
      n.b1 in r.bones && n.b2 in r.bones && n.b3 in r.bones && n.hand in r.bones
    ensures var bones := FingerAuto(r, blank, finger, side, axis).rig.bones;
      var n := FingerBoneNames(finger, side);
      var head := r.bones[n.b1].head;
      && bones.Keys == r.bones.Keys + {n.ctrl}
      && bones[n.ctrl].head == head
      && bones[n.ctrl].tail == Add(head, Scale(1.5, Sub(r.bones[n.b3].tail, head)))
      && bones[n.ctrl].parent == Some(n.hand)
      && Carries(bones[n.ctrl], "VRMAUTO_ScaleLimit", ScaleLimitOwner + ScaleLimitBounds)
      && Carries(bones[n.b3], "VRMAUTO_BendingFollow", BendingFollowProps(n.b2))
      && Carries(bones[n.b1], "VRMAUTO_BendingFollow", BendingFollowProps(n.ctrl))
      && (QuaternionIndex(axis).Some? ==>
            bones[n.b1].layers == OneHot(1) && bones[n.b2].layers == OneHot(1) && bones[n.b3].layers == OneHot(1))
      && (forall m :: m in r.bones && m != n.b1 && m != n.b2 && m != n.b3 && m != n.ctrl ==> bones[m] == r.bones[m])
  {
    var n := FingerBoneNames(finger, side);
    FingerNamesDistinct(finger, side);
    FingerAutoOutcome(r, blank, finger, side, axis);
    FingerBuiltBones(r, blank, n, axis);
    UpsertingCarries(Fetch(r.bones, n.ctrl, blank), "VRMAUTO_ScaleLimit", LimitScale, ScaleLimitOwner + ScaleLimitBounds);
    UpsertingCarries(r.bones[n.b3], "VRMAUTO_BendingFollow", CopyRotation, BendingFollowProps(n.b2));
    UpsertingCarries(r.bones[n.b1], "VRMAUTO_BendingFollow", CopyRotation, BendingFollowProps(n.ctrl));
  }

  /** Running `gen_finger_ctrl` a second time leaves the rig and the outcome exactly as the first run left them:
      the control bone is reused, every constraint is found by name instead of duplicated, and the driver
      replaces itself. */
  lemma FingerAutoIdempotent(r: Rig, blank: Bone, finger: string, side: string, axis: string)
    ensures var s := FingerAuto(r, blank, finger, side, axis);
      FingerAuto(s.rig, blank, finger, side, axis) == s
  {
    var n := FingerBoneNames(finger, side);
    if n.b1 in r.bones && n.b2 in r.bones && n.b3 in r.bones && n.hand in r.bones {
      FingerNamesDistinct(finger, side);
      FingerAutoBuilt(r, blank, finger, side, axis);
      var s := FingerBuilt(r, blank, n, axis);
      FingerBuiltBones(r, blank, n, axis);
      FingerBuiltDrivers(r, blank, n, axis);
      FingerAutoBuilt(s.rig, blank, finger, side, axis);
      var s2 := FingerBuilt(s.rig, blank, n, axis);
      FingerBuiltBones(s.rig, blank, n, axis);
      FingerBuiltDrivers(s.rig, blank, n, axis);
      FingerBonesAgain(r.bones, s.rig.bones, s2.rig.bones, blank, n, QuaternionIndex(axis).Some?);
      if QuaternionIndex(axis).Some? {
        DriverAgain(r.drivers, (n.b2, QuaternionIndex(axis).value), BendDriver(n.ctrl, axis));
      }
    } else {
      var checked := FingerChecked(n);
      assert checked[0] == n.b1 && checked[1] == n.b2 && checked[2] == n.b3 && checked[3] == n.hand;
      assert FingerAuto(r, blank, finger, side, axis).rig == r;
    }
  }

  /** After the bone check, the call fails exactly for an unknown axis, and then leaves the drivers alone;
      otherwise the channel of the axis holds the bending driver and no other driver changes. */
  lemma FingerBuiltDrivers(r: Rig, blank: Bone, n: FingerNames, axis: string)
    requires n.b1 in r.bones && n.b3 in r.bones
    ensures var s := FingerBuilt(r, blank, n, axis);
      && (QuaternionIndex(axis).None? ==> s.out == Err(KeyError(axis)) && s.rig.drivers == r.drivers)
      && (QuaternionIndex(axis).Some? ==>
            s.out == Ok(()) && s.rig.drivers == r.drivers[(n.b2, QuaternionIndex(axis).value) := BendDriver(n.ctrl, axis)])
  {
  }

  /** Once the bone check passes, `gen_finger_ctrl` is the synthesis proper. */
  lemma FingerAutoBuilt(r: Rig, blank: Bone, finger: string, side: string, axis: string)
    requires var n := FingerBoneNames(finger, side);
      n.b1 in r.bones && n.b2 in r.bones && n.b3 in r.bones && n.hand in r.bones
    ensures FingerAuto(r, blank, finger, side, axis) == FingerBuilt(r, blank, FingerBoneNames(finger, side), axis)
  {
    var n := FingerBoneNames(finger, side);
    var checked := FingerChecked(n);
    assert checked[0] == n.b1 && checked[1] == n.b2 && checked[2] == n.b3 && checked[3] == n.hand;
  }

  /** The bone half of the above: a table that already went through the synthesis comes out unchanged. */
  lemma FingerBonesAgain(bones: map<string, Bone>, once: map<string, Bone>, twice: map<string, Bone>, blank: Bone, n: FingerNames, ok: bool)
    requires n.b1 in bones && n.b2 in bones && n.b3 in bones && FingerDistinct(n)
    requires FingerSynthesized(bones, once, blank, n, ok)
    requires FingerSynthesized(once, twice, blank, n, ok)
    ensures twice == once
  {
    FingerEntriesAgain(bones, once, twice, blank, n, ok);
    assert forall m :: m in once && m != n.b1 && m != n.b2 && m != n.b3 && m != n.ctrl ==> twice[m] == once[m];
    AgreeOutside(once, twice, n.b1, n.b2, n.b3, n.ctrl);
  }

  /** The four bones the synthesis writes come out of a second run as the first run left them. */
  lemma FingerEntriesAgain(bones: map<string, Bone>, once: map<string, Bone>, twice: map<string, Bone>, blank: Bone, n: FingerNames, ok: bool)
    requires n.b1 in bones && n.b2 in bones && n.b3 in bones && FingerDistinct(n)
    requires FingerSynthesized(bones, once, blank, n, ok)
    requires FingerSynthesized(once, twice, blank, n, ok)
    ensures twice.Keys == once.Keys
    ensures twice[n.ctrl] == once[n.ctrl] && twice[n.b1] == once[n.b1] && twice[n.b2] == once[n.b2] && twice[n.b3] == once[n.b3]
  {
    var c := Fetch(bones, n.ctrl, blank);
    assert once[n.b1].head == bones[n.b1].head && once[n.b3].tail == bones[n.b3].tail;
    UpsertingTwice(c, "VRMAUTO_ScaleLimit", LimitScale, ScaleLimitOwner + ScaleLimitBounds);
    LayeredUpsertAgain(ok, bones[n.b1], "VRMAUTO_BendingFollow", CopyRotation, BendingFollowProps(n.ctrl));
    LayeredUpsertAgain(ok, bones[n.b3], "VRMAUTO_BendingFollow", CopyRotation, BendingFollowProps(n.b2));
  }

  /** The bones checked before `gen_finger_ctrl` changes anything. */
  function FingerChecked(n: FingerNames): seq<string>
  {
    [n.b1, n.b2, n.b3, n.hand]
  }

  /** `for n in names: if armature.bones.get(n) is None: raise AssertionError(...)`. */
  method CheckBones(obj: Skeleton, names: seq<string>) returns (r: Result<()>)
    ensures r == (match FirstMissing(obj.bones, names) case None => Ok(()) case Some(k) => Err(MissingBone(names[k])))
  {
    var i := 0;
    while i < |names|
      invariant 0 <= i <= |names|
      invariant forall j :: 0 <= j < i ==> names[j] in obj.bones
    {
      if names[i] !in obj.bones {
        return Err(MissingBone(names[i]));
      }
      i := i + 1;
    }
    return Ok(());
  }

  /** The inner `edit_bones()` of `gen_finger_ctrl`: places the control bone in edit mode and restores the mode. */
  method FingerEditBones(obj: Skeleton, n: FingerNames)
    requires n.b1 in obj.bones && n.b3 in obj.bones && n.hand in obj.bones
    requires n.ctrl != n.b1 && n.ctrl != n.b3 && n.ctrl != n.hand
    modifies obj`bones, obj`mode, obj`modeLog
    ensures obj.bones == FingerCtrlPlaced(old(obj.bones), obj.blank, n)
    ensures obj.mode == old(obj.mode) && obj.modeLog == old(obj.modeLog) + [EditMode, old(obj.mode)]
  {
    ghost var B := obj.bones;
    ghost var c := Fetch(B, n.ctrl, obj.blank);
    var prevmode := obj.mode;
    obj.ModeSet(EditMode);
    obj.GetOrNewBone(n.ctrl);
    obj.SetHead(n.ctrl, obj.bones[n.b1].head);
    ghost var head := B[n.b1].head;
    assert obj.bones == B[n.ctrl := c.(head := head)];
    obj.SetTail(n.ctrl, Add(obj.bones[n.ctrl].head, Scale(1.5, Sub(obj.bones[n.b3].tail, obj.bones[n.b1].head))));
    ghost var tail := Add(head, Scale(1.5, Sub(B[n.b3].tail, head)));
    assert obj.bones == B[n.ctrl := c.(head := head, tail := tail)];
    obj.SetParent(n.ctrl, Some(n.hand));
    assert obj.bones == B[n.ctrl := c.(head := head, tail := tail, parent := Some(n.hand))];
    obj.ModeSet(prevmode);
  }

  /** The two calls of the inner `set_rotation_follow`. */
  method FingerFollow(obj: Skeleton, n: FingerNames)
    requires n.b1 in obj.bones && n.b3 in obj.bones
    modifies obj`bones
    ensures obj.bones == FingerFollowing(old(obj.bones), n)
  {
    var i3 := AddBoneConstraint(obj, n.b3, "VRMAUTO_BendingFollow", CopyRotation, BendingFollowProps(n.b2));
    var i1 := AddBoneConstraint(obj, n.b1, "VRMAUTO_BendingFollow", CopyRotation, BendingFollowProps(n.ctrl));
  }

  /** The inner `set_limit_scale(ctrl_name)`: upsert with the owner space, then the bounds set on the result. */
  method FingerLimitScale(obj: Skeleton, n: FingerNames)
    requires n.ctrl in obj.bones
    modifies obj`bones
    ensures obj.bones == FingerLimited(old(obj.bones), n)
  {
    ghost var B := obj.bones;
    var c := AddBoneConstraint(obj, n.ctrl, "VRMAUTO_ScaleLimit", LimitScale, ScaleLimitOwner);
    obj.AssignFields(n.ctrl, c, ScaleLimitBounds);
    WithConstraintThenSet(B, n.ctrl, "VRMAUTO_ScaleLimit", LimitScale, ScaleLimitOwner, ScaleLimitBounds, c);
  }

  /** The inner `set_rotation_driver(bone2_name, bending_axis)`. */
  method FingerDriver(obj: Skeleton, n: FingerNames, axis: string) returns (r: Result<()>)
    modifies obj`drivers
    ensures r == (if QuaternionIndex(axis).None? then Err(KeyError(axis)) else Ok(()))
    ensures QuaternionIndex(axis).None? ==> obj.drivers == old(obj.drivers)
    ensures QuaternionIndex(axis).Some? ==>
      obj.drivers == old(obj.drivers)[(n.b2, QuaternionIndex(axis).value) := BendDriver(n.ctrl, axis)]
  {
    var index := QuaternionIndex(axis);
    if index.None? {
      return Err(KeyError(axis));
    }
    ReplaceBendDriver(obj, n.b2, index.value, n.ctrl, axis);
    return Ok(());
  }

  /** `driver_remove` and `driver_add` on channel `index` of the pose bone `bone`, then the scripted expression,
      negated for a negative axis, over one variable reading the Y scale of `ctrl`: whatever the channel held
      before, it ends up holding exactly the bending driver. */
  method ReplaceBendDriver(obj: Skeleton, bone: string, index: nat, ctrl: string, axis: string)
    modifies obj`drivers
    ensures obj.drivers == old(obj.drivers)[(bone, index) := BendDriver(ctrl, axis)]
  {
    var key := (bone, index);
    obj.DriverRemove(bone, index);
    obj.DriverAdd(bone, index);
    obj.SetScript(key, "(var - 1) * 2");
    if IsNegativeAxis(axis) {
      assert "-" + "(var - 1) * 2" == "-(var - 1) * 2";
      obj.SetScript(key, "-" + "(var - 1) * 2");
    }
    obj.AddVariable(key, ScaleVariable(ctrl));
    assert BlankDriver.variables + [ScaleVariable(ctrl)] == [ScaleVariable(ctrl)];
    assert obj.drivers[key] == BendDriver(ctrl, axis);
    assert obj.drivers == old(obj.drivers)[key := BendDriver(ctrl, axis)];
  }

  /** `gen_finger_ctrl(obj, finger, side, bending_axis)`. */
  method GenFingerCtrl(obj: Skeleton, finger: string, side: string, axis: string) returns (r: Result<()>)
    requires obj.Valid()
    modifies obj`bones, obj`drivers, obj`mode, obj`modeLog
    ensures obj.Valid()
    ensures Step(r, obj.State()) == FingerAuto(old(obj.State()), obj.blank, finger, side, axis)
    ensures obj.mode == old(obj.mode)
    ensures obj.modeLog == old(obj.modeLog) + (if r.Err? && r.error.MissingBone? then [] else [EditMode, old(obj.mode)])
  {
    var n := FingerBoneNames(finger, side);
    r := CheckBones(obj, FingerChecked(n));
    if r.Err? {
      return;
    }
    assert n.b1 in obj.bones && n.b2 in obj.bones && n.b3 in obj.bones && n.hand in obj.bones by {
      assert FingerChecked(n)[0] == n.b1 && FingerChecked(n)[1] == n.b2;
      assert FingerChecked(n)[2] == n.b3 && FingerChecked(n)[3] == n.hand;
    }
    FingerNamesDistinct(finger, side);
    FingerAutoWellFormed(old(obj.State()), obj.blank, finger, side, axis);
    FingerEditBones(obj, n);
    r := FingerFinish(obj, n, axis);
  }

  /** The body of `gen_finger_ctrl` after the edit step. */
  method FingerFinish(obj: Skeleton, n: FingerNames, axis: string) returns (r: Result<()>)
    requires n.b1 in obj.bones && n.b2 in obj.bones && n.b3 in obj.bones && n.ctrl in obj.bones
    modifies obj`bones, obj`drivers
    ensures Step(r, obj.State()) == FingerFinished(old(obj.State()), n, axis)
  {
    FingerFollow(obj, n);
    FingerLimitScale(obj, n);
    ghost var limited := obj.bones;
    r := FingerDriver(obj, n, axis);
    if r.Err? {
      return;
    }
    LayerThreeComplete(limited, n.b1, n.b2, n.b3, 1);
    r := SetBoneLayer(obj, 1, [n.b1, n.b2, n.b3]);
  }

  // ---------------------------------------------------------------------------------------------
  // gen_limbs_ik

  /** The bones `gen_limbs_ik(obj, kind, side)` works on. */
  datatype LimbNames = LimbNames(root: string, upper: string, lower: string, ik: string, pole: string, hand: string)

  function LimbBoneNames(kind: string, side: string): LimbNames
  {
    LimbNames("Root", "Upper" + kind + "_" + side, "Lower" + kind + "_" + side, kind + "IK_" + side, kind + "Pole_" + side, "Hand_" + side)
  }

  /** The names are pairwise different wherever it matters, whatever the kind and the side. */
  predicate LimbDistinct(n: LimbNames)
  {
    && n.root != n.upper && n.root != n.lower && n.root != n.ik && n.root != n.pole
    && n.upper != n.lower && n.upper != n.ik && n.upper != n.pole
    && n.lower != n.ik && n.lower != n.pole && n.ik != n.pole
    && n.hand != n.root && n.hand != n.upper && n.hand != n.lower && n.hand != n.ik && n.hand != n.pole
  }

  lemma LimbNamesDistinct(kind: string, side: string)
    ensures LimbDistinct(LimbBoneNames(kind, side))
  {
    var n := LimbBoneNames(kind, side);
    assert n.upper[0] == 'U' && n.lower[0] == 'L';
    if |n.ik| == 4 {
      if |kind| == 0 {
        assert n.ik[0] == 'I';
      } else {
        assert n.ik[1] == 'I';
      }
    }
    if |n.ik| == |n.hand| {
      assert n.ik[2] == 'I' && n.hand[2] == 'n';
    }
    if |n.pole| == |n.hand| {
      assert n.pole[0] == 'P';
    }
  }

  /** `(upper.vector + (-lower.vector)) / 2`: the direction, before normalisation, in which the pole bone
      sits away from the elbow or knee. */
  function PoleVector(upper: Bone, lower: Bone): Vec3
  {
    Scale(1.0 / 2.0, Add(Direction(upper), Scale(-1.0, Direction(lower))))
  }

  /** The two lengths the edit step divides by: `lowerLen` is that of the lower bone's vector and `poleLen`
      that of the pole vector. */
  predicate LimbLengths(bones: map<string, Bone>, n: LimbNames, lowerLen: real, poleLen: real)
  {
    && (n.lower in bones ==> IsNorm(Direction(bones[n.lower]), lowerLen))
    && (n.upper in bones && n.lower in bones ==> IsNorm(PoleVector(bones[n.upper], bones[n.lower]), poleLen))
  }

  /** The edit step: the IK bone starts at the lower bone's tail and runs 0.12 along it; the pole bone starts 0.24
      away from the lower bone's head along the pole direction and runs 0.12 further; both hang from the root. */
  function LimbPlaced(bones: map<string, Bone>, blank: Bone, n: LimbNames, lowerLen: real, poleLen: real): map<string, Bone>
    requires n.upper in bones && n.lower in bones && LimbLengths(bones, n, lowerLen, poleLen)
  {
    var lower := bones[n.lower];
    var poleV := Normalized(PoleVector(bones[n.upper], lower), poleLen);
    var poleHead := Add(lower.head, Scale(0.24, poleV));
    var ik := Fetch(bones, n.ik, blank).(head := lower.tail, tail := Add(lower.tail, Scale(0.12, Normalized(Direction(lower), lowerLen))), parent := Some(n.root));
    var pole := Fetch(bones, n.pole, blank).(head := poleHead, tail := Add(poleHead, Scale(0.12, poleV)), parent := Some(n.root));
    bones[n.ik := ik][n.pole := pole]
  }

  /** The keyword arguments of the `add_bone_constraint` call in `set_ik()`. */
  function IkChainProps(n: LimbNames): map<string, Value>
  {
    map["target" := ArmatureObject, "subtarget" := Text(n.ik), "pole_target" := ArmatureObject,
        "pole_subtarget" := Text(n.pole), "chain_count" := Int(2)]
  }

  /** The attributes of the IK constraint on the lower bone once `set_ik()` has set the pole angle. */
  function IkProps(n: LimbNames, poleAngle: real): map<string, Value>
  {
    map["target" := ArmatureObject, "subtarget" := Text(n.ik), "pole_target" := ArmatureObject,
        "pole_subtarget" := Text(n.pole), "chain_count" := Int(2), "pole_angle" := Radians(poleAngle)]
  }

  /** The pole angle in degrees: for an arm, 180 when the lower arm's vector turns clockwise onto the Y axis in the
      XY plane (its 2D cross product with (0, 1) is positive), else 0; for any other kind, -90. The vector is the
      lower bone's `Bone.vector`, its tail minus its head in its parent's rest frame; computing that frame needs
      the parent's rest rotation, so every member below takes it as the parameter `lowerRest`, as it takes the
      lengths Blender measures. */
  function PoleAngle(kind: string, v: Vec3): real
  {
    if kind == "Arm" then
      var cross := v.x * 1.0 - v.y * 0.0;
      if cross > 0.0 then 180.0 else 0.0
    else
      -90.0
  }

  /** The attributes of the hand's constraint following the arm's IK bone. */
  function HandFollowProps(n: LimbNames): map<string, Value>
  {
    map["target" := ArmatureObject, "subtarget" := Text(n.ik)]
  }

  /** `set_ik()` and, for an arm, the hand following the IK bone; `obj.pose.bones[hand_name]` raises `KeyError`
      for a missing hand after the IK constraint is in place. */
  function LimbRigged(r: Rig, n: LimbNames, kind: string, lowerRest: Vec3): (s: Step)
    requires n.lower in r.bones
    ensures s.rig.bones.Keys == r.bones.Keys
  {
    var angle := PoleAngle(kind, lowerRest);
    var withIk := WithConstraint(r.bones, n.lower, "VRMAUTO_ArmIK", InverseKinematics, IkProps(n, angle));
    if kind != "Arm" then Step(Ok(()), Rig(withIk, r.drivers))
    else if n.hand !in withIk then Step(Err(KeyError(n.hand)), Rig(withIk, r.drivers))
    else
      var follow := WithConstraint(withIk, n.hand, "VRAMAUTO_FollowArmIK", CopyTransforms, HandFollowProps(n));
      LayerAllComplete(follow, [n.hand], 1);
      LayerAllSpec(follow, [n.hand], 1);
      Step(Ok(()), Rig(LayerAll(follow, [n.hand], 1).bones, r.drivers))
  }

  /** The bones checked before `gen_limbs_ik` changes anything. */
  function LimbChecked(n: LimbNames): seq<string>
  {
    [n.root, n.upper, n.lower]
  }

  /** `gen_limbs_ik` after the bone check, given the value of the parallel guard. */
  function LimbGuarded(r: Rig, blank: Bone, n: LimbNames, kind: string, lowerLen: real, poleLen: real, parallel: bool, lowerRest: Vec3): Step
    requires n.upper in r.bones && n.lower in r.bones && LimbLengths(r.bones, n, lowerLen, poleLen)
  {
    if parallel then Step(Err(ParallelBones(n.upper, n.lower)), r)
    else LimbRigged(Rig(LimbPlaced(r.bones, blank, n, lowerLen, poleLen), r.drivers), n, kind, lowerRest)
  }

  /** What `gen_limbs_ik(obj, kind, side)` does to the rig, with the parallel guard as evidently intended: a
      missing bone stops it before any change, and so do an upper and a lower bone whose vectors are parallel. */
  function LimbAuto(r: Rig, blank: Bone, kind: string, side: string, lowerLen: real, poleLen: real, lowerRest: Vec3): Step
    requires LimbLengths(r.bones, LimbBoneNames(kind, side), lowerLen, poleLen)
  {
    var n := LimbBoneNames(kind, side);
    var checked := LimbChecked(n);
    match FirstMissing(r.bones, checked)
    case Some(k) => Step(Err(MissingBone(checked[k])), r)
    case None =>
      assert checked[1] in r.bones && checked[2] in r.bones;
      LimbGuarded(r, blank, n, kind, lowerLen, poleLen, Cross(Direction(r.bones[n.upper]), Direction(r.bones[n.lower])) == Zero, lowerRest)
  }

  /** `v == 0` for a `mathutils.Vector` and an `int`: the comparison is not between vectors, and Python
      answers False. */
  predicate VectorEqualsInt(v: Vec3, k: int)
  {
    false
  }

  /** `gen_limbs_ik` as written: the guard `upper.vector.cross(lower.vector) == 0` compares a vector with an
      integer and never holds. */
  function LimbAutoAsWritten(r: Rig, blank: Bone, kind: string, side: string, lowerLen: real, poleLen: real, lowerRest: Vec3): Step
    requires LimbLengths(r.bones, LimbBoneNames(kind, side), lowerLen, poleLen)
  {
    var n := LimbBoneNames(kind, side);
    var checked := LimbChecked(n);
    match FirstMissing(r.bones, checked)
    case Some(k) => Step(Err(MissingBone(checked[k])), r)
    case None =>
      assert checked[1] in r.bones && checked[2] in r.bones;
      LimbGuarded(r, blank, n, kind, lowerLen, poleLen, VectorEqualsInt(Cross(Direction(r.bones[n.upper]), Direction(r.bones[n.lower])), 0), lowerRest)
  }

  /** Scaling twice is scaling once by the product, in either order. */
  lemma ScaleScale(a: real, b: real, v: Vec3)
    ensures Scale(a, Scale(b, v)) == Scale(b, Scale(a, v))
  {
  }

  /** A bone placed at `head` and reaching `head + k * u` for a unit `u` has length `k` along `u`, and scaling it
      by the length `len` of a vector `v` that `u` normalises gives `k * v`. */
  lemma PlacedAlong(head: Vec3, k: real, u: Vec3, v: Vec3, len: real)
    requires NormSq(u) == 1.0 && Scale(len, u) == v
    ensures Sub(Add(head, Scale(k, u)), head) == Scale(k, u)
    ensures NormSq(Scale(k, u)) == k * k
    ensures Scale(len, Scale(k, u)) == Scale(k, v)
  {
    ScaledUnitLength(k, u);
    ScaleScale(len, k, u);
  }

  /** The geometry of the edit step for limbs that are not parallel: the IK bone starts at the lower bone's tail
      and points the way the lower bone does, the pole bone points along the pole vector and starts twice its own
      length away from the lower bone's head, both are 0.12 long and hang from the root, and no other bone moves. */
  lemma LimbPlacedGeometry(bones: map<string, Bone>, blank: Bone, n: LimbNames, lowerLen: real, poleLen: real)
    requires n.upper in bones && n.lower in bones && LimbDistinct(n) && LimbLengths(bones, n, lowerLen, poleLen)
    requires Cross(Direction(bones[n.upper]), Direction(bones[n.lower])) != Zero
    ensures var p := LimbPlaced(bones, blank, n, lowerLen, poleLen);
      var lower := bones[n.lower];
      && p.Keys == bones.Keys + {n.ik, n.pole}
      && 0.0 < lowerLen && 0.0 < poleLen
      && p[n.ik].head == lower.tail && p[n.ik].parent == Some(n.root)
      && NormSq(Direction(p[n.ik])) == 0.12 * 0.12
      && Scale(lowerLen, Direction(p[n.ik])) == Scale(0.12, Direction(lower))
      && p[n.pole].parent == Some(n.root)
      && NormSq(Direction(p[n.pole])) == 0.12 * 0.12
      && Scale(poleLen, Direction(p[n.pole])) == Scale(0.12, PoleVector(bones[n.upper], lower))
      && Sub(p[n.pole].head, lower.head) == Scale(2.0, Direction(p[n.pole]))
      && (forall m :: m in bones && m != n.ik && m != n.pole ==> p[m] == bones[m])
  {
    var lower := bones[n.lower];
    var pv := PoleVector(bones[n.upper], lower);
    NonParallel(Direction(bones[n.upper]), Direction(lower));
    assert pv != Zero by {
      assert pv == Scale(0.5, Sub(Direction(bones[n.upper]), Direction(lower)));
    }
    var d := Normalized(Direction(lower), lowerLen);
    var u := Normalized(pv, poleLen);
    NormalizedSpec(Direction(lower), lowerLen);
    NormalizedSpec(pv, poleLen);
    PlacedAlong(lower.tail, 0.12, d, Direction(lower), lowerLen);
    var poleHead := Add(lower.head, Scale(0.24, u));
    PlacedAlong(poleHead, 0.12, u, pv, poleLen);
  }

  /** Whether the script goes on to the hand: only for an arm whose hand bone exists. */
  predicate FollowsHand(bones: map<string, Bone>, n: LimbNames, kind: string)
  {
    kind == "Arm" && n.hand in bones
  }

  /** `set_ik()` and the hand constraint, bone by bone: the lower bone carries the IK constraint, the hand of an
      arm follows the IK bone and moves to layer 1, every other bone is as it was; the call fails exactly for an
      arm without a hand, with `KeyError`. */
  lemma LimbRiggedBones(r: Rig, n: LimbNames, kind: string, lowerRest: Vec3)
    requires n.lower in r.bones && n.hand != n.lower
    ensures var s := LimbRigged(r, n, kind, lowerRest);
      var angle := PoleAngle(kind, lowerRest);
      && s.rig.drivers == r.drivers
      && (s.out.Err? <==> kind == "Arm" && n.hand !in r.bones)
      && (s.out.Err? ==> s.out == Err(KeyError(n.hand)))
      && s.rig.bones.Keys == r.bones.Keys
      && s.rig.bones[n.lower] == Upserting(r.bones[n.lower], "VRMAUTO_ArmIK", InverseKinematics, IkProps(n, angle))
      && (FollowsHand(r.bones, n, kind) ==>
            s.rig.bones[n.hand] == Layer1If(true, Upserting(r.bones[n.hand], "VRAMAUTO_FollowArmIK", CopyTransforms, HandFollowProps(n))))
      && (forall m :: m in r.bones && m != n.lower && !(FollowsHand(r.bones, n, kind) && m == n.hand) ==> s.rig.bones[m] == r.bones[m])
  {
    var angle := PoleAngle(kind, lowerRest);
    var withIk := WithConstraint(r.bones, n.lower, "VRMAUTO_ArmIK", InverseKinematics, IkProps(n, angle));
    if FollowsHand(r.bones, n, kind) {
      var follow := WithConstraint(withIk, n.hand, "VRAMAUTO_FollowArmIK", CopyTransforms, HandFollowProps(n));
      assert [n.hand][1..] == [];
      assert LayerAll(follow, [n.hand], 1) == LayerAll(follow[n.hand := follow[n.hand].(layers := OneHot(1))], [], 1);
    }
  }

  /** Once the bone check passes, `gen_limbs_ik` is the guarded synthesis. */
  lemma LimbAutoChecked(r: Rig, blank: Bone, kind: string, side: string, lowerLen: real, poleLen: real, lowerRest: Vec3)
    requires var n := LimbBoneNames(kind, side);
      n.root in r.bones && n.upper in r.bones && n.lower in r.bones && LimbLengths(r.bones, n, lowerLen, poleLen)
    ensures var n := LimbBoneNames(kind, side);
      LimbAuto(r, blank, kind, side, lowerLen, poleLen, lowerRest)
        == LimbGuarded(r, blank, n, kind, lowerLen, poleLen, Cross(Direction(r.bones[n.upper]), Direction(r.bones[n.lower])) == Zero, lowerRest)
  {
    var n := LimbBoneNames(kind, side);
    var checked := LimbChecked(n);
    assert checked[0] == n.root && checked[1] == n.upper && checked[2] == n.lower;
  }

  /** How `gen_limbs_ik` ends: a missing root, upper or lower bone raises naming a missing one and changes nothing;
      parallel limb bones raise and change nothing; otherwise the call fails exactly for an arm without a hand
      bone, with `KeyError`. Drivers are never touched. */
  lemma LimbAutoOutcome(r: Rig, blank: Bone, kind: string, side: string, lowerLen: real, poleLen: real, lowerRest: Vec3)
    requires LimbLengths(r.bones, LimbBoneNames(kind, side), lowerLen, poleLen)
    ensures var s := LimbAuto(r, blank, kind, side, lowerLen, poleLen, lowerRest);
      var n := LimbBoneNames(kind, side);
      var present := n.root in r.bones && n.upper in r.bones && n.lower in r.bones;
      && s.rig.drivers == r.drivers
      && (!present ==>
            s.rig == r && s.out.Err? && s.out.error.MissingBone?
            && s.out.error.name in {n.root, n.upper, n.lower} && s.out.error.name !in r.bones)
      && (present && Cross(Direction(r.bones[n.upper]), Direction(r.bones[n.lower])) == Zero ==>
            s == Step(Err(ParallelBones(n.upper, n.lower)), r))
      && (present && Cross(Direction(r.bones[n.upper]), Direction(r.bones[n.lower])) != Zero ==>
            (s.out.Err? <==> kind == "Arm" && n.hand !in r.bones) && (s.out.Err? ==> s.out == Err(KeyError(n.hand))))
  {
    var n := LimbBoneNames(kind, side);
    LimbNamesDistinct(kind, side);
    if n.root in r.bones && n.upper in r.bones && n.lower in r.bones {
      LimbAutoChecked(r, blank, kind, side, lowerLen, poleLen, lowerRest);
      if Cross(Direction(r.bones[n.upper]), Direction(r.bones[n.lower])) != Zero {
        var placed := LimbPlaced(r.bones, blank, n, lowerLen, poleLen);
        LimbRiggedBones(Rig(placed, r.drivers), n, kind, lowerRest);
      }
    } else {
      var checked := LimbChecked(n);
      assert checked[0] == n.root && checked[1] == n.upper && checked[2] == n.lower;
    }
  }

  /** The bones a successful edit step of `gen_limbs_ik` leaves behind: the IK and pole bones placed as
      `LimbPlacedGeometry` says, the lower bone carrying the IK constraint with chain length 2, both targets and
      the pole angle picked by the sign of the lower bone's X extent (for an arm) or -90 (otherwise), the hand of
      an arm following the IK bone on layer 1, and every other bone as it was. */
  lemma LimbAutoBones(r: Rig, blank: Bone, kind: string, side: string, lowerLen: real, poleLen: real, lowerRest: Vec3)
    requires var n := LimbBoneNames(kind, side);
      && n.root in r.bones && n.upper in r.bones && n.lower in r.bones && LimbLengths(r.bones, n, lowerLen, poleLen)
      && Cross(Direction(r.bones[n.upper]), Direction(r.bones[n.lower])) != Zero
    ensures var n := LimbBoneNames(kind, side);
      var bones := LimbAuto(r, blank, kind, side, lowerLen, poleLen, lowerRest).rig.bones;
      var placed := LimbPlaced(r.bones, blank, n, lowerLen, poleLen);
      var lower := r.bones[n.lower];
      && bones.Keys == r.bones.Keys + {n.ik, n.pole}
      && bones[n.ik] == placed[n.ik] && bones[n.pole] == placed[n.pole]
      && bones[n.lower].(constraints := lower.constraints) == lower
      && Carries(bones[n.lower], "VRMAUTO_ArmIK",
           IkProps(n, if kind == "Arm" then (if lowerRest.x > 0.0 then 180.0 else 0.0) else -90.0))
      && (FollowsHand(r.bones, n, kind) ==>
            Carries(bones[n.hand], "VRAMAUTO_FollowArmIK", HandFollowProps(n)) && bones[n.hand].layers == OneHot(1))
      && (forall m :: m in r.bones && m !in {n.lower, n.ik, n.pole, n.hand} ==> bones[m] == r.bones[m])
  {
    var n := LimbBoneNames(kind, side);
    LimbNamesDistinct(kind, side);
    LimbAutoChecked(r, blank, kind, side, lowerLen, poleLen, lowerRest);
    var placed := LimbPlaced(r.bones, blank, n, lowerLen, poleLen);
    LimbPlacedGeometry(r.bones, blank, n, lowerLen, poleLen);
    LimbRiggedBones(Rig(placed, r.drivers), n, kind, lowerRest);
    var lower := r.bones[n.lower];
    UpsertingCarries(lower, "VRMAUTO_ArmIK", InverseKinematics, IkProps(n, PoleAngle(kind, lowerRest)));
    if FollowsHand(r.bones, n, kind) {
      UpsertingCarries(placed[n.hand], "VRAMAUTO_FollowArmIK", CopyTransforms, HandFollowProps(n));
    }
  }

  /** Running `set_ik()` and the hand constraint again on their own result changes nothing. */
  lemma LimbRiggedAgain(r: Rig, n: LimbNames, kind: string, lowerRest: Vec3)
    requires n.lower in r.bones && n.hand != n.lower
    ensures var s := LimbRigged(r, n, kind, lowerRest);
      LimbRigged(s.rig, n, kind, lowerRest) == s
  {
    var s := LimbRigged(r, n, kind, lowerRest);
    LimbRiggedBones(r, n, kind, lowerRest);
    LimbRiggedBones(s.rig, n, kind, lowerRest);
    var s2 := LimbRigged(s.rig, n, kind, lowerRest);
    var lower := r.bones[n.lower];
    UpsertingTwice(lower, "VRMAUTO_ArmIK", InverseKinematics, IkProps(n, PoleAngle(kind, lowerRest)));
    if FollowsHand(r.bones, n, kind) {
      LayeredUpsertAgain(true, r.bones[n.hand], "VRAMAUTO_FollowArmIK", CopyTransforms, HandFollowProps(n));
    }
    assert s2.rig.bones == s.rig.bones by {
      assert forall m :: m in s.rig.bones ==> s2.rig.bones[m] == s.rig.bones[m];
    }
  }

  /** Placing the IK and pole bones again, from limb bones with the same geometry, changes nothing. */
  lemma LimbPlacedAgain(bones: map<string, Bone>, again: map<string, Bone>, blank: Bone, n: LimbNames, lowerLen: real, poleLen: real)
    requires n.upper in bones && n.lower in bones && LimbLengths(bones, n, lowerLen, poleLen) && LimbDistinct(n)
    requires n.upper in again && again[n.upper].(constraints := bones[n.upper].constraints) == bones[n.upper]
    requires n.lower in again && again[n.lower].(constraints := bones[n.lower].constraints) == bones[n.lower]
    requires n.ik in again && again[n.ik] == LimbPlaced(bones, blank, n, lowerLen, poleLen)[n.ik]
    requires n.pole in again && again[n.pole] == LimbPlaced(bones, blank, n, lowerLen, poleLen)[n.pole]
    ensures LimbLengths(again, n, lowerLen, poleLen)
    ensures LimbPlaced(again, blank, n, lowerLen, poleLen) == again
  {
    assert Direction(again[n.upper]) == Direction(bones[n.upper]);
    assert Direction(again[n.lower]) == Direction(bones[n.lower]);
    assert again[n.lower].head == bones[n.lower].head && again[n.lower].tail == bones[n.lower].tail;
  }

  /** Running `gen_limbs_ik` a second time, with the same lengths (the limb bones keep their geometry), leaves the
      rig and the outcome exactly as the first run left them. */
  lemma LimbAutoIdempotent(r: Rig, blank: Bone, kind: string, side: string, lowerLen: real, poleLen: real, lowerRest: Vec3)
    requires LimbLengths(r.bones, LimbBoneNames(kind, side), lowerLen, poleLen)
    ensures var s := LimbAuto(r, blank, kind, side, lowerLen, poleLen, lowerRest);
      LimbLengths(s.rig.bones, LimbBoneNames(kind, side), lowerLen, poleLen)
      && LimbAuto(s.rig, blank, kind, side, lowerLen, poleLen, lowerRest) == s
  {
    var n := LimbBoneNames(kind, side);
    LimbNamesDistinct(kind, side);
    LimbAutoOutcome(r, blank, kind, side, lowerLen, poleLen, lowerRest);
    if n.root in r.bones && n.upper in r.bones && n.lower in r.bones
      && Cross(Direction(r.bones[n.upper]), Direction(r.bones[n.lower])) != Zero
    {
      LimbAutoChecked(r, blank, kind, side, lowerLen, poleLen, lowerRest);
      var placed := LimbPlaced(r.bones, blank, n, lowerLen, poleLen);
      LimbPlacedGeometry(r.bones, blank, n, lowerLen, poleLen);
      var s := LimbRigged(Rig(placed, r.drivers), n, kind, lowerRest);
      LimbRiggedBones(Rig(placed, r.drivers), n, kind, lowerRest);
      LimbPlacedAgain(r.bones, s.rig.bones, blank, n, lowerLen, poleLen);
      LimbAutoChecked(s.rig, blank, kind, side, lowerLen, poleLen, lowerRest);
      LimbRiggedAgain(Rig(placed, r.drivers), n, kind, lowerRest);
    }
  }

  /** `gen_limbs_ik` keeps the table well formed, whatever its outcome. */
  lemma LimbAutoWellFormed(r: Rig, blank: Bone, kind: string, side: string, lowerLen: real, poleLen: real, lowerRest: Vec3)
    requires WellFormed(r.bones) && IsBlank(blank) && LimbLengths(r.bones, LimbBoneNames(kind, side), lowerLen, poleLen)
    ensures WellFormed(LimbAuto(r, blank, kind, side, lowerLen, poleLen, lowerRest).rig.bones)
  {
    var n := LimbBoneNames(kind, side);
    LimbNamesDistinct(kind, side);
    if n.root in r.bones && n.upper in r.bones && n.lower in r.bones
      && Cross(Direction(r.bones[n.upper]), Direction(r.bones[n.lower])) != Zero
    {
      LimbAutoChecked(r, blank, kind, side, lowerLen, poleLen, lowerRest);
      LimbPlacedWellFormed(r.bones, blank, n, lowerLen, poleLen);
      LimbRiggedWellFormed(Rig(LimbPlaced(r.bones, blank, n, lowerLen, poleLen), r.drivers), n, kind, lowerRest);
    } else {
      LimbAutoOutcome(r, blank, kind, side, lowerLen, poleLen, lowerRest);
    }
  }

  lemma LimbPlacedWellFormed(bones: map<string, Bone>, blank: Bone, n: LimbNames, lowerLen: real, poleLen: real)
    requires WellFormed(bones) && IsBlank(blank) && LimbDistinct(n)
    requires n.root in bones && n.upper in bones && n.lower in bones && LimbLengths(bones, n, lowerLen, poleLen)
    ensures WellFormed(LimbPlaced(bones, blank, n, lowerLen, poleLen))
  {
  }

  lemma LimbRiggedWellFormed(r: Rig, n: LimbNames, kind: string, lowerRest: Vec3)
    requires WellFormed(r.bones) && n.lower in r.bones
    ensures WellFormed(LimbRigged(r, n, kind, lowerRest).rig.bones)
  {
    var angle := PoleAngle(kind, lowerRest);
    WithConstraintSpec(r.bones, n.lower, "VRMAUTO_ArmIK", InverseKinematics, IkProps(n, angle));
    var withIk := WithConstraint(r.bones, n.lower, "VRMAUTO_ArmIK", InverseKinematics, IkProps(n, angle));
    if FollowsHand(withIk, n, kind) {
      WithConstraintSpec(withIk, n.hand, "VRAMAUTO_FollowArmIK", CopyTransforms, HandFollowProps(n));
      LayerAllWellFormed(WithConstraint(withIk, n.hand, "VRAMAUTO_FollowArmIK", CopyTransforms, HandFollowProps(n)), [n.hand], 1);
    }
  }

  /** As written, upper and lower bones with the same vector pass the guard: the call goes on and leaves a pole
      bone of zero length (its direction is the normalised zero vector), where the intended guard raises and
      changes nothing. */
  lemma LimbParallelAsWritten(r: Rig, blank: Bone, kind: string, side: string, lowerLen: real, poleLen: real, lowerRest: Vec3)
    requires var n := LimbBoneNames(kind, side);
      && n.root in r.bones && n.upper in r.bones && n.lower in r.bones && LimbLengths(r.bones, n, lowerLen, poleLen)
      && Direction(r.bones[n.upper]) == Direction(r.bones[n.lower])
    ensures var n := LimbBoneNames(kind, side);
      var s := LimbAutoAsWritten(r, blank, kind, side, lowerLen, poleLen, lowerRest);
      && n.pole in s.rig.bones && s.rig.bones[n.pole].head == s.rig.bones[n.pole].tail
      && (kind != "Arm" ==> s.out == Ok(()))
      && LimbAuto(r, blank, kind, side, lowerLen, poleLen, lowerRest) == Step(Err(ParallelBones(n.upper, n.lower)), r)
  {
    var n := LimbBoneNames(kind, side);
    LimbNamesDistinct(kind, side);
    ParallelAsWrittenPlaced(r, blank, kind, side, lowerLen, poleLen, lowerRest);
    var p := LimbPlaced(r.bones, blank, n, lowerLen, poleLen);
    RiggedKeepsPole(LimbAutoAsWritten(r, blank, kind, side, lowerLen, poleLen, lowerRest), p, r.drivers, n, kind, lowerRest);
    LimbAutoRefusesParallel(r, blank, kind, side, lowerLen, poleLen, lowerRest);
  }

  /** As written, limb bones with the same vector go on to the synthesis, whose edit step collapses the pole. */
  lemma ParallelAsWrittenPlaced(r: Rig, blank: Bone, kind: string, side: string, lowerLen: real, poleLen: real, lowerRest: Vec3)
    requires var n := LimbBoneNames(kind, side);
      && n.root in r.bones && n.upper in r.bones && n.lower in r.bones && LimbLengths(r.bones, n, lowerLen, poleLen)
      && Direction(r.bones[n.upper]) == Direction(r.bones[n.lower])
    ensures var n := LimbBoneNames(kind, side);
      var p := LimbPlaced(r.bones, blank, n, lowerLen, poleLen);
      && LimbAutoAsWritten(r, blank, kind, side, lowerLen, poleLen, lowerRest) == LimbRigged(Rig(p, r.drivers), n, kind, lowerRest)
      && n.pole in p && p[n.pole].head == p[n.pole].tail
  {
    var n := LimbBoneNames(kind, side);
    LimbAsWrittenChecked(r, blank, kind, side, lowerLen, poleLen, lowerRest);
    PoleVanishes(r.bones[n.upper], r.bones[n.lower], poleLen);
    ZeroPoleCollapses(r.bones, blank, n, lowerLen, poleLen);
  }

  /** The intended guard refuses limb bones with the same vector and changes nothing. */
  lemma LimbAutoRefusesParallel(r: Rig, blank: Bone, kind: string, side: string, lowerLen: real, poleLen: real, lowerRest: Vec3)
    requires var n := LimbBoneNames(kind, side);
      && n.root in r.bones && n.upper in r.bones && n.lower in r.bones && LimbLengths(r.bones, n, lowerLen, poleLen)
      && Direction(r.bones[n.upper]) == Direction(r.bones[n.lower])
    ensures var n := LimbBoneNames(kind, side);
      LimbAuto(r, blank, kind, side, lowerLen, poleLen, lowerRest) == Step(Err(ParallelBones(n.upper, n.lower)), r)
  {
    var n := LimbBoneNames(kind, side);
    LimbAutoChecked(r, blank, kind, side, lowerLen, poleLen, lowerRest);
    CrossSelf(Direction(r.bones[n.lower]));
  }

  /** Rigging leaves a collapsed pole bone collapsed, and only an arm can fail. */
  lemma RiggedKeepsPole(s: Step, bones: map<string, Bone>, drivers: map<DriverKey, Driver>, n: LimbNames, kind: string, lowerRest: Vec3)
    requires n.lower in bones && n.pole in bones && LimbDistinct(n) && bones[n.pole].head == bones[n.pole].tail
    requires s == LimbRigged(Rig(bones, drivers), n, kind, lowerRest)
    ensures n.pole in s.rig.bones && s.rig.bones[n.pole].head == s.rig.bones[n.pole].tail
    ensures kind != "Arm" ==> s.out == Ok(())
  {
    LimbRiggedBones(Rig(bones, drivers), n, kind, lowerRest);
  }

  /** Once the bone check passes, `gen_limbs_ik` as written is the synthesis without a guard. */
  lemma LimbAsWrittenChecked(r: Rig, blank: Bone, kind: string, side: string, lowerLen: real, poleLen: real, lowerRest: Vec3)
    requires var n := LimbBoneNames(kind, side);
      n.root in r.bones && n.upper in r.bones && n.lower in r.bones && LimbLengths(r.bones, n, lowerLen, poleLen)
    ensures var n := LimbBoneNames(kind, side);
      LimbAutoAsWritten(r, blank, kind, side, lowerLen, poleLen, lowerRest)
        == LimbRigged(Rig(LimbPlaced(r.bones, blank, n, lowerLen, poleLen), r.drivers), n, kind, lowerRest)
  {
    var n := LimbBoneNames(kind, side);
    var checked := LimbChecked(n);
    assert checked[0] == n.root && checked[1] == n.upper && checked[2] == n.lower;
  }

  /** With the zero pole direction, the pole bone is placed with its tail on its head. */
  lemma ZeroPoleCollapses(bones: map<string, Bone>, blank: Bone, n: LimbNames, lowerLen: real, poleLen: real)
    requires n.upper in bones && n.lower in bones && LimbLengths(bones, n, lowerLen, poleLen)
    requires Normalized(PoleVector(bones[n.upper], bones[n.lower]), poleLen) == Zero
    ensures var p := LimbPlaced(bones, blank, n, lowerLen, poleLen);
      n.pole in p && p[n.pole].head == p[n.pole].tail
  {
    PolePlacement(bones, blank, n, lowerLen, poleLen);
    ScaleZero(0.24, bones[n.lower].head);
    ScaleZero(0.12, bones[n.lower].head);
  }

  /** Where the edit step puts the pole bone. */
  lemma PolePlacement(bones: map<string, Bone>, blank: Bone, n: LimbNames, lowerLen: real, poleLen: real)
    requires n.upper in bones && n.lower in bones && LimbLengths(bones, n, lowerLen, poleLen)
    ensures var p := LimbPlaced(bones, blank, n, lowerLen, poleLen);
      var u := Normalized(PoleVector(bones[n.upper], bones[n.lower]), poleLen);
      var h := Add(bones[n.lower].head, Scale(0.24, u));
      n.pole in p && p[n.pole].head == h && p[n.pole].tail == Add(h, Scale(0.12, u))
  {
  }

  /** Limb bones with the same vector give the zero pole direction. */
  lemma PoleVanishes(upper: Bone, lower: Bone, poleLen: real)
    requires Direction(upper) == Direction(lower) && IsNorm(PoleVector(upper, lower), poleLen)
    ensures Normalized(PoleVector(upper, lower), poleLen) == Zero
  {
    PoleIsZero(upper, lower);
    NormalizedZero(PoleVector(upper, lower), poleLen);
  }

  /** Limb bones with the same vector have the zero pole vector. */
  lemma PoleIsZero(upper: Bone, lower: Bone)
    requires Direction(upper) == Direction(lower)
    ensures PoleVector(upper, lower) == Zero
  {
    AddNegated(Direction(lower));
    ScaleZero(1.0 / 2.0, Zero);
  }

  /** The call's arguments and the pole angle set afterwards are all the IK constraint's attributes. */
  lemma IkPropsSplit(n: LimbNames, angle: real)
    ensures IkChainProps(n) + map["pole_angle" := Radians(angle)] == IkProps(n, angle)
  {
  }

  /** The inner `edit_bones()` of `gen_limbs_ik`, with the parallel guard as evidently intended: it switches to
      edit mode, refuses parallel limb bones, places the IK and pole bones, and restores the mode either way. */
  method LimbEditBones(obj: Skeleton, n: LimbNames, lowerLen: real, poleLen: real) returns (r: Result<()>)
    requires n.root in obj.bones && n.upper in obj.bones && n.lower in obj.bones && LimbDistinct(n)
    requires LimbLengths(obj.bones, n, lowerLen, poleLen)
    modifies obj`bones, obj`mode, obj`modeLog
    ensures var parallel := Cross(Direction(old(obj.bones)[n.upper]), Direction(old(obj.bones)[n.lower])) == Zero;
      && r == (if parallel then Err(ParallelBones(n.upper, n.lower)) else Ok(()))
      && obj.bones == (if parallel then old(obj.bones) else LimbPlaced(old(obj.bones), obj.blank, n, lowerLen, poleLen))
    ensures obj.mode == old(obj.mode) && obj.modeLog == old(obj.modeLog) + [EditMode, old(obj.mode)]
  {
    ghost var B := obj.bones;
    var prevmode := obj.mode;
    obj.ModeSet(EditMode);
    var upper := obj.bones[n.upper];
    var lower := obj.bones[n.lower];
    if Cross(Direction(upper), Direction(lower)) == Zero {
      obj.ModeSet(prevmode);
      return Err(ParallelBones(n.upper, n.lower));
    }
    var poleV := Normalized(PoleVector(upper, lower), poleLen);
    var poleHead := Add(lower.head, Scale(0.24, poleV));
    PlaceLimbBones(obj, n, lower.tail, Add(lower.tail, Scale(0.12, Normalized(Direction(lower), lowerLen))),
      poleHead, Add(poleHead, Scale(0.12, poleV)));
    obj.ModeSet(prevmode);
    return Ok(());
  }

  /** `ik, pole = (bones.get(n) or bones.new(n) for n in [ik_name, pole_name])`, the head and tail assignments
      and `ik.parent = pole.parent = root`. */
  method PlaceLimbBones(obj: Skeleton, n: LimbNames, ikHead: Vec3, ikTail: Vec3, poleHead: Vec3, poleTail: Vec3)
    requires n.root in obj.bones && n.ik != n.pole && n.root != n.ik && n.root != n.pole
    modifies obj`bones
    ensures obj.bones == old(obj.bones)
      [n.ik := Fetch(old(obj.bones), n.ik, obj.blank).(head := ikHead, tail := ikTail, parent := Some(n.root))]
      [n.pole := Fetch(old(obj.bones), n.pole, obj.blank).(head := poleHead, tail := poleTail, parent := Some(n.root))]
  {
    ghost var B := obj.bones;
    ghost var ik0 := Fetch(B, n.ik, obj.blank);
    ghost var pole0 := Fetch(B, n.pole, obj.blank);
    obj.GetOrNewBone(n.ik);
    obj.GetOrNewBone(n.pole);
    assert obj.bones == B[n.ik := ik0][n.pole := pole0];
    ghost var ik1 := ik0.(head := ikHead);
    obj.SetHead(n.ik, ikHead);
    UpdateSwap(B, n.ik, n.pole, ik0, pole0, ik1);
    ghost var ik2 := ik1.(tail := ikTail);
    obj.SetTail(n.ik, ikTail);
    UpdateSwap(B, n.ik, n.pole, ik1, pole0, ik2);
    ghost var pole1 := pole0.(head := poleHead);
    obj.SetHead(n.pole, poleHead);
    UpdateSwap(B, n.ik, n.pole, ik2, pole0, pole1);
    ghost var pole2 := pole1.(tail := poleTail);
    obj.SetTail(n.pole, poleTail);
    UpdateSwap(B, n.ik, n.pole, ik2, pole1, pole2);
    obj.SetParent(n.ik, Some(n.root));
    UpdateSwap(B, n.ik, n.pole, ik2, pole2, ik2.(parent := Some(n.root)));
    obj.SetParent(n.pole, Some(n.root));
    UpdateSwap(B, n.ik, n.pole, ik2.(parent := Some(n.root)), pole2, pole2.(parent := Some(n.root)));
  }

  /** `set_ik()`: the lower bone gets the IK constraint towards the IK bone, with the pole bone and the pole angle
      of its kind. */
  method SetIk(obj: Skeleton, n: LimbNames, kind: string, lowerRest: Vec3)
    requires n.lower in obj.bones
    modifies obj`bones
    ensures obj.bones == WithConstraint(old(obj.bones), n.lower, "VRMAUTO_ArmIK", InverseKinematics,
                                        IkProps(n, PoleAngle(kind, lowerRest)))
  {
    ghost var B := obj.bones;
    var c := AddBoneConstraint(obj, n.lower, "VRMAUTO_ArmIK", InverseKinematics, IkChainProps(n));
    var angle;
    if kind == "Arm" {
      var cross := lowerRest.x * 1.0 - lowerRest.y * 0.0;
      angle := if cross > 0.0 then 180.0 else 0.0;
    } else {
      angle := -90.0;
    }
    assert angle == PoleAngle(kind, lowerRest);
    obj.SetConstraintField(n.lower, c, "pole_angle", Radians(angle));
    WithConstraintThenSet(B, n.lower, "VRMAUTO_ArmIK", InverseKinematics, IkChainProps(n), map["pole_angle" := Radians(angle)], c);
    IkPropsSplit(n, angle);
  }

  /** `set_ik()` followed, for an arm, by the hand's follow constraint and `set_bone_layer(armature, 1, hand_name)`. */
  method LimbRigging(obj: Skeleton, n: LimbNames, kind: string, lowerRest: Vec3) returns (r: Result<()>)
    requires n.lower in obj.bones && n.hand != n.lower
    modifies obj`bones
    ensures Step(r, obj.State()) == LimbRigged(old(obj.State()), n, kind, lowerRest)
  {
    SetIk(obj, n, kind, lowerRest);
    if kind == "Arm" {
      if n.hand !in obj.bones {
        return Err(KeyError(n.hand));
      }
      var h := AddBoneConstraint(obj, n.hand, "VRAMAUTO_FollowArmIK", CopyTransforms, HandFollowProps(n));
      r := SetBoneLayer(obj, 1, [n.hand]);
    } else {
      r := Ok(());
    }
  }

  /** `gen_limbs_ik(obj, kind, side)` with the parallel guard as evidently intended. Blender measures the two
      lengths the edit step divides by and the lower bone's vector in its parent's rest frame; here the caller
      supplies them. */
  method GenLimbsIk(obj: Skeleton, kind: string, side: string, lowerLen: real, poleLen: real, lowerRest: Vec3) returns (r: Result<()>)
    requires obj.Valid() && LimbLengths(obj.bones, LimbBoneNames(kind, side), lowerLen, poleLen)
    modifies obj`bones, obj`mode, obj`modeLog
    ensures obj.Valid()
    ensures Step(r, obj.State()) == LimbAuto(old(obj.State()), obj.blank, kind, side, lowerLen, poleLen, lowerRest)
    ensures obj.mode == old(obj.mode)
    ensures obj.modeLog == old(obj.modeLog) + (if r.Err? && r.error.MissingBone? then [] else [EditMode, old(obj.mode)])
  {
    var n := LimbBoneNames(kind, side);
    r := CheckBones(obj, LimbChecked(n));
    if r.Err? {
      return;
    }
    assert n.root in obj.bones && n.upper in obj.bones && n.lower in obj.bones by {
      assert LimbChecked(n)[0] == n.root && LimbChecked(n)[1] == n.upper && LimbChecked(n)[2] == n.lower;
    }
    LimbNamesDistinct(kind, side);
    LimbAutoChecked(old(obj.State()), obj.blank, kind, side, lowerLen, poleLen, lowerRest);
    LimbAutoWellFormed(old(obj.State()), obj.blank, kind, side, lowerLen, poleLen, lowerRest);
    r := LimbEditBones(obj, n, lowerLen, poleLen);
    if r.Err? {
      return;
    }
    r := LimbRigging(obj, n, kind, lowerRest);
  }

  // ---------------------------------------------------------------------------------------------
  // fix_arm_twist

  /** The number of bones `fix_arm_twist` splits the lower arm into (`len(subarm_names)`). */
  const SubArmCount: nat := 3

  function TwistArm(side: string): string
  {
    "LowerArm_" + side
  }

  function TwistHand(side: string): string
  {
    "Hand_" + side
  }

  /** `f"LowerArm{n+1}_{side}"` for `n` in `range(3)`. */
  function SubArm(side: string, i: nat): string
    requires i < SubArmCount
  {
    "LowerArm" + [['1', '2', '3'][i]] + "_" + side
  }

  function SubArms(side: string): seq<string>
  {
    [SubArm(side, 0), SubArm(side, 1), SubArm(side, 2)]
  }

  /** The lower arm, its hand and the three sub-arm bones all have different names. */
  lemma TwistNamesDistinct(side: string)
    ensures TwistArm(side) != TwistHand(side)
    ensures forall i :: 0 <= i < SubArmCount ==> SubArm(side, i) != TwistArm(side) && SubArm(side, i) != TwistHand(side)
    ensures forall i, j :: 0 <= i < j < SubArmCount ==> SubArm(side, i) != SubArm(side, j)
  {
    assert TwistArm(side)[0] == 'L' && TwistHand(side)[0] == 'H';
    forall i | 0 <= i < SubArmCount
      ensures SubArm(side, i) != TwistArm(side) && SubArm(side, i) != TwistHand(side)
    {
      assert SubArm(side, i)[8] != TwistArm(side)[8];
      assert SubArm(side, i)[0] != TwistHand(side)[0];
    }
    forall i, j | 0 <= i < j < SubArmCount
      ensures SubArm(side, i) != SubArm(side, j)
    {
      assert SubArm(side, i)[8] != SubArm(side, j)[8];
    }
  }

  /** `(arm.tail - arm.head) / len(subarm_names)`: the vector of each sub-arm bone. */
  function SubArmVector(arm: Bone): Vec3
  {
    Scale(1.0 / 3.0, Sub(arm.tail, arm.head))
  }

  /** One turn of the edit loop: the sub-arm bone `i` deforms, starts `i` steps along the arm, runs one step and
      hangs from the arm. */
  function SubArmPlaced(b: Bone, arm: Bone, armName: string, i: nat): Bone
  {
    var head := Add(arm.head, Scale(i as real, SubArmVector(arm)));
    b.(deform := true, head := head, tail := Add(head, SubArmVector(arm)), parent := Some(armName))
  }

  /** The edit loop after its first `k` turns. */
  function TwistPlaced(bones: map<string, Bone>, blank: Bone, side: string, k: nat): (p: map<string, Bone>)
    requires k <= SubArmCount && TwistArm(side) in bones
    ensures forall m :: m in bones ==> m in p
    ensures forall i :: 0 <= i < k ==> SubArm(side, i) in p
    decreases k
  {
    if k == 0 then bones
    else
      var prev := TwistPlaced(bones, blank, side, k - 1);
      var name := SubArm(side, k - 1);
      prev[name := SubArmPlaced(Fetch(prev, name, blank), bones[TwistArm(side)], TwistArm(side), k - 1)]
  }

  /** The whole edit loop places the three sub-arm bones, each from what its name held before (or a new bone),
      and leaves every other bone as it was. */
  lemma TwistPlacedAll(bones: map<string, Bone>, blank: Bone, side: string)
    requires TwistArm(side) in bones
    ensures var arm := bones[TwistArm(side)];
      var s0, s1, s2 := SubArm(side, 0), SubArm(side, 1), SubArm(side, 2);
      TwistPlaced(bones, blank, side, SubArmCount)
        == bones[s0 := SubArmPlaced(Fetch(bones, s0, blank), arm, TwistArm(side), 0)]
                [s1 := SubArmPlaced(Fetch(bones, s1, blank), arm, TwistArm(side), 1)]
                [s2 := SubArmPlaced(Fetch(bones, s2, blank), arm, TwistArm(side), 2)]
  {
    TwistNamesDistinct(side);
    var p1 := TwistPlaced(bones, blank, side, 1);
    var p2 := TwistPlaced(bones, blank, side, 2);
    assert Fetch(p1, SubArm(side, 1), blank) == Fetch(bones, SubArm(side, 1), blank);
    assert Fetch(p2, SubArm(side, 2), blank) == Fetch(bones, SubArm(side, 2), blank);
  }

  /** `influence = (i + 1) * (0.9 / len(subarm_names))`. */
  function TwistInfluence(i: nat): real
  {
    (i + 1) as real * (0.9 / 3.0)
  }

  /** The bone the sub-arm bone `i` copies its Y rotation from: the next sub-arm bone, or the hand for the last. */
  function TwistFollowed(side: string, i: nat): string
    requires i < SubArmCount
  {
    if i == SubArmCount - 1 then TwistHand(side) else SubArm(side, i + 1)
  }

  /** The keyword arguments of `set_rotation_follow(bname1, bname2, influence)`. */
  function TwistFollowProps(subtarget: string, influence: real): map<string, Value>
  {
    map["target" := ArmatureObject, "subtarget" := Text(subtarget), "use_x" := Flag(false), "use_z" := Flag(false),
        "target_space" := Text("LOCAL"), "owner_space" := Text("LOCAL"), "influence" := Num(influence)]
  }

  /** One turn of the follow loop on the sub-arm bone `i`. */
  function SubArmFollowing(b: Bone, side: string, i: nat): Bone
    requires i < SubArmCount
  {
    Upserting(b, "VRMAUTO_ArmTwistFollow", CopyRotation, TwistFollowProps(TwistFollowed(side, i), TwistInfluence(i)))
  }

  /** The follow loop after its first `k` turns. */
  function TwistFollowing(bones: map<string, Bone>, side: string, k: nat): (f: map<string, Bone>)
    requires k <= SubArmCount && forall i :: 0 <= i < SubArmCount ==> SubArm(side, i) in bones
    ensures f.Keys == bones.Keys
    decreases k
  {
    if k == 0 then bones
    else
      var prev := TwistFollowing(bones, side, k - 1);
      prev[SubArm(side, k - 1) := SubArmFollowing(prev[SubArm(side, k - 1)], side, k - 1)]
  }

  /** The whole follow loop gives each sub-arm bone its follow constraint and leaves every other bone as it was. */
  lemma TwistFollowingAll(bones: map<string, Bone>, side: string)
    requires forall i :: 0 <= i < SubArmCount ==> SubArm(side, i) in bones
    ensures var s0, s1, s2 := SubArm(side, 0), SubArm(side, 1), SubArm(side, 2);
      TwistFollowing(bones, side, SubArmCount)
        == bones[s0 := SubArmFollowing(bones[s0], side, 0)]
                [s1 := SubArmFollowing(bones[s1], side, 1)]
                [s2 := SubArmFollowing(bones[s2], side, 2)]
  {
    TwistNamesDistinct(side);
    var f1 := TwistFollowing(bones, side, 1);
    var f2 := TwistFollowing(bones, side, 2);
    assert f1[SubArm(side, 1)] == bones[SubArm(side, 1)];
    assert f2[SubArm(side, 2)] == bones[SubArm(side, 2)];
  }

  /** What `fix_arm_twist(obj, side)` does to the rig, leaving out the weight repaint of the child meshes:
      `armature.edit_bones[arm_name]` raises `KeyError` for a missing lower arm before any change; otherwise the
      three sub-arm bones are placed, follow one another and the hand, and move to layer 1. */
  function TwistAuto(r: Rig, blank: Bone, side: string): Step
  {
    if TwistArm(side) !in r.bones then Step(Err(KeyError(TwistArm(side))), r)
    else
      var placed := TwistPlaced(r.bones, blank, side, SubArmCount);
      TwistRigged(Rig(placed, r.drivers), side)
  }

  /** The follow loop and `set_bone_layer(armature, 1, *subarm_names)` after the edit step. */
  function TwistRigged(r: Rig, side: string): Step
    requires forall i :: 0 <= i < SubArmCount ==> SubArm(side, i) in r.bones
  {
    var followed := TwistFollowing(r.bones, side, SubArmCount);
    var layered := LayerAll(followed, SubArms(side), 1);
    Step(LayerOutcome(layered), Rig(layered.bones, r.drivers))
  }

  /** The sub-arm bone `i` as `fix_arm_twist` leaves it: placed along the arm, following the next bone, on layer 1. */
  function TwistBone(bones: map<string, Bone>, blank: Bone, side: string, i: nat): Bone
    requires i < SubArmCount && TwistArm(side) in bones
  {
    TwistFollowedBone(bones, blank, side, i).(layers := OneHot(1))
  }

  /** With the lower arm present, `fix_arm_twist` succeeds, replaces exactly the three sub-arm bones (creating the
      missing ones) and touches no other bone and no driver. */
  lemma TwistAutoBones(r: Rig, blank: Bone, side: string)
    requires TwistArm(side) in r.bones
    ensures var s := TwistAuto(r, blank, side);
      && s.out == Ok(())
      && s.rig.drivers == r.drivers
      && s.rig.bones == r.bones[SubArm(side, 0) := TwistBone(r.bones, blank, side, 0)]
                               [SubArm(side, 1) := TwistBone(r.bones, blank, side, 1)]
                               [SubArm(side, 2) := TwistBone(r.bones, blank, side, 2)]
  {
    TwistNamesDistinct(side);
    var s0, s1, s2 := SubArm(side, 0), SubArm(side, 1), SubArm(side, 2);
    var f0, f1, f2 := TwistFollowedBone(r.bones, blank, side, 0), TwistFollowedBone(r.bones, blank, side, 1), TwistFollowedBone(r.bones, blank, side, 2);
    TwistBeforeLayers(r.bones, blank, side);
    LayerAllWritten(r.bones, s0, s1, s2, f0, f1, f2, 1);
  }

  /** The sub-arm bone `i` after the edit loop and the follow loop. */
  function TwistFollowedBone(bones: map<string, Bone>, blank: Bone, side: string, i: nat): Bone
    requires i < SubArmCount && TwistArm(side) in bones
  {
    SubArmFollowing(SubArmPlaced(Fetch(bones, SubArm(side, i), blank), bones[TwistArm(side)], TwistArm(side), i), side, i)
  }

  /** The edit loop followed by the follow loop rewrites the three sub-arm bones and nothing else. */
  lemma TwistBeforeLayers(bones: map<string, Bone>, blank: Bone, side: string)
    requires TwistArm(side) in bones
    ensures var placed := TwistPlaced(bones, blank, side, SubArmCount);
      && (forall i :: 0 <= i < SubArmCount ==> SubArm(side, i) in placed)
      && TwistFollowing(placed, side, SubArmCount)
        == bones[SubArm(side, 0) := TwistFollowedBone(bones, blank, side, 0)]
                [SubArm(side, 1) := TwistFollowedBone(bones, blank, side, 1)]
                [SubArm(side, 2) := TwistFollowedBone(bones, blank, side, 2)]
  {
    TwistNamesDistinct(side);
    TwistPlacedAll(bones, blank, side);
    var placed := TwistPlaced(bones, blank, side, SubArmCount);
    TwistFollowingAll(placed, side);
  }

  /** Without the lower arm, `fix_arm_twist` raises `KeyError` naming it and changes nothing. */
  lemma TwistAutoMissing(r: Rig, blank: Bone, side: string)
    requires TwistArm(side) !in r.bones
    ensures TwistAuto(r, blank, side) == Step(Err(KeyError(TwistArm(side))), r)
  {
  }

  /** The sub-arm bones tile the lower arm: the first starts at its head, each ends where the next starts, the last
      ends at its tail, and each is a third of the arm's vector. */
  lemma SubArmsTile(b0: Bone, b1: Bone, b2: Bone, arm: Bone, armName: string)
    ensures var p0, p1, p2 := SubArmPlaced(b0, arm, armName, 0), SubArmPlaced(b1, arm, armName, 1), SubArmPlaced(b2, arm, armName, 2);
      && p0.head == arm.head && p0.tail == p1.head && p1.tail == p2.head && p2.tail == arm.tail
      && Direction(p0) == Direction(p1) == Direction(p2) == Scale(1.0 / 3.0, Direction(arm))
  {
  }

  /** The influences grow along the arm, from 0.3 to 0.9 at the bone next to the hand. */
  lemma TwistInfluenceRises()
    ensures 0.0 < TwistInfluence(0) < TwistInfluence(1) < TwistInfluence(2) == 0.9
  {
  }

  /** The inner `edit_bones()` of `fix_arm_twist`: in edit mode, a missing lower arm raises `KeyError`; otherwise the
      loop places the three sub-arm bones. The mode is restored either way. */
  method TwistEditBones(obj: Skeleton, side: string) returns (r: Result<()>)
    modifies obj`bones, obj`mode, obj`modeLog
    ensures r == (if TwistArm(side) in old(obj.bones) then Ok(()) else Err(KeyError(TwistArm(side))))
    ensures r.Err? ==> obj.bones == old(obj.bones)
    ensures r.Ok? ==> obj.bones == TwistPlaced(old(obj.bones), obj.blank, side, SubArmCount)
    ensures obj.mode == old(obj.mode) && obj.modeLog == old(obj.modeLog) + [EditMode, old(obj.mode)]
  {
    ghost var B := obj.bones;
    var prevmode := obj.mode;
    obj.ModeSet(EditMode);
    var armName := TwistArm(side);
    if armName !in obj.bones {
      obj.ModeSet(prevmode);
      return Err(KeyError(armName));
    }
    var arm := obj.bones[armName];
    var armV := Scale(1.0 / 3.0, Sub(arm.tail, arm.head));
    for i := 0 to SubArmCount
      invariant obj.bones == TwistPlaced(B, obj.blank, side, i)
      invariant obj.mode == EditMode && obj.modeLog == old(obj.modeLog) + [EditMode]
    {
      PlaceSubArm(obj, SubArm(side, i), arm, armName, armV, i);
    }
    obj.ModeSet(prevmode);
    return Ok(());
  }

  /** One turn of the edit loop of `fix_arm_twist`: the sub-arm bone `name`, found or new, deforms, lies along
      the `i`-th third of the arm and hangs from it. */
  method PlaceSubArm(obj: Skeleton, name: string, arm: Bone, armName: string, armV: Vec3, i: nat)
    requires armName in obj.bones && armV == SubArmVector(arm)
    modifies obj`bones
    ensures obj.bones == old(obj.bones)[name := SubArmPlaced(Fetch(old(obj.bones), name, obj.blank), arm, armName, i)]
  {
    obj.GetOrNewBone(name);
    obj.SetDeform(name, true);
    var head := Add(arm.head, Scale(i as real, armV));
    obj.SetHead(name, head);
    obj.SetTail(name, Add(obj.bones[name].head, armV));
    obj.SetParent(name, Some(armName));
  }

  /** The follow loop of `fix_arm_twist`: each sub-arm bone copies the Y rotation of the next one, the last that
      of the hand, with growing influence. */
  method TwistFollow(obj: Skeleton, side: string)
    requires forall i :: 0 <= i < SubArmCount ==> SubArm(side, i) in obj.bones
    modifies obj`bones
    ensures obj.bones == TwistFollowing(old(obj.bones), side, SubArmCount)
  {
    ghost var B := obj.bones;
    for i := 0 to SubArmCount
      invariant obj.bones == TwistFollowing(B, side, i)
    {
      var followed := if i == SubArmCount - 1 then TwistHand(side) else SubArm(side, i + 1);
      var influence := (i + 1) as real * (0.9 / 3.0);
      var c := AddBoneConstraint(obj, SubArm(side, i), "VRMAUTO_ArmTwistFollow", CopyRotation, TwistFollowProps(followed, influence));
    }
  }

  /** `fix_arm_twist(obj, side)` without the weight repaint of the child meshes. */
  method FixArmTwist(obj: Skeleton, side: string) returns (r: Result<()>)
    requires obj.Valid()
    modifies obj`bones, obj`mode, obj`modeLog
    ensures obj.Valid()
    ensures Step(r, obj.State()) == TwistAuto(old(obj.State()), obj.blank, side)
    ensures obj.mode == old(obj.mode) && obj.modeLog == old(obj.modeLog) + [EditMode, old(obj.mode)]
  {
    ghost var R := obj.State();
    TwistAutoWellFormed(R, obj.blank, side);
    r := TwistEditBones(obj, side);
    if r.Err? {
      return;
    }
    r := TwistRig(obj, side);
  }

  /** The part of `fix_arm_twist` after the edit step. */
  method TwistRig(obj: Skeleton, side: string) returns (r: Result<()>)
    requires forall i :: 0 <= i < SubArmCount ==> SubArm(side, i) in obj.bones
    modifies obj`bones
    ensures Step(r, obj.State()) == TwistRigged(old(obj.State()), side)
  {
    TwistFollow(obj, side);
    r := SetBoneLayer(obj, 1, SubArms(side));
  }

  /** `fix_arm_twist` keeps the rig well formed: the new bones start from the blank template and hang from the arm. */
  lemma TwistAutoWellFormed(r: Rig, blank: Bone, side: string)
    requires WellFormed(r.bones) && IsBlank(blank)
    ensures WellFormed(TwistAuto(r, blank, side).rig.bones)
  {
    if TwistArm(side) in r.bones {
      TwistAutoBones(r, blank, side);
      TwistBoneShape(r.bones, blank, side, 0);
      TwistBoneShape(r.bones, blank, side, 1);
      TwistBoneShape(r.bones, blank, side, 2);
      WellFormedWritten(r.bones, SubArm(side, 0), SubArm(side, 1), SubArm(side, 2),
        TwistBone(r.bones, blank, side, 0), TwistBone(r.bones, blank, side, 1), TwistBone(r.bones, blank, side, 2), TwistArm(side));
    }
  }

  /** Each finished sub-arm bone has a full layer mask, uniquely named constraints and the arm as parent. */
  lemma TwistBoneShape(bones: map<string, Bone>, blank: Bone, side: string, i: nat)
    requires WellFormed(bones) && IsBlank(blank) && i < SubArmCount && TwistArm(side) in bones
    ensures var b := TwistBone(bones, blank, side, i);
      |b.layers| == 32 && UniqueNames(b.constraints) && b.parent == Some(TwistArm(side))
  {
    var placed := SubArmPlaced(Fetch(bones, SubArm(side, i), blank), bones[TwistArm(side)], TwistArm(side), i);
    UpsertSpec(placed.constraints, "VRMAUTO_ArmTwistFollow", CopyRotation, TwistFollowProps(TwistFollowed(side, i), TwistInfluence(i)));
  }

  /** A finished sub-arm bone goes through the edit, follow and layer steps unchanged. */
  lemma TwistBoneAgain(bones: map<string, Bone>, blank: Bone, side: string, i: nat)
    requires i < SubArmCount && TwistArm(side) in bones
    ensures var t := TwistBone(bones, blank, side, i);
      SubArmFollowing(SubArmPlaced(t, bones[TwistArm(side)], TwistArm(side), i), side, i).(layers := OneHot(1)) == t
  {
    var placed := SubArmPlaced(Fetch(bones, SubArm(side, i), blank), bones[TwistArm(side)], TwistArm(side), i);
    UpsertingTwice(placed, "VRMAUTO_ArmTwistFollow", CopyRotation, TwistFollowProps(TwistFollowed(side, i), TwistInfluence(i)));
  }

  /** Running `fix_arm_twist` a second time changes nothing and ends the same way. */
  lemma TwistAutoIdempotent(r: Rig, blank: Bone, side: string)
    ensures var s := TwistAuto(r, blank, side);
      TwistAuto(s.rig, blank, side) == s
  {
    if TwistArm(side) in r.bones {
      var s := TwistAuto(r, blank, side);
      TwistAutoBones(r, blank, side);
      TwistAutoBones(s.rig, blank, side);
      TwistBonesAgain(r.bones, s.rig.bones, blank, side);
    }
  }

  /** Writing the finished sub-arm bones over a table that already holds them changes nothing. */
  lemma TwistBonesAgain(bones: map<string, Bone>, once: map<string, Bone>, blank: Bone, side: string)
    requires TwistArm(side) in bones
    requires once == bones[SubArm(side, 0) := TwistBone(bones, blank, side, 0)]
                          [SubArm(side, 1) := TwistBone(bones, blank, side, 1)]
                          [SubArm(side, 2) := TwistBone(bones, blank, side, 2)]
    ensures TwistArm(side) in once
    ensures once[SubArm(side, 0) := TwistBone(once, blank, side, 0)]
                [SubArm(side, 1) := TwistBone(once, blank, side, 1)]
                [SubArm(side, 2) := TwistBone(once, blank, side, 2)] == once
  {
    TwistNamesDistinct(side);
    assert once[TwistArm(side)] == bones[TwistArm(side)];
    assert Fetch(once, SubArm(side, 0), blank) == TwistBone(bones, blank, side, 0);
    assert Fetch(once, SubArm(side, 1), blank) == TwistBone(bones, blank, side, 1);
    assert Fetch(once, SubArm(side, 2), blank) == TwistBone(bones, blank, side, 2);
    TwistBoneStable(bones, once, blank, side, 0);
    TwistBoneStable(bones, once, blank, side, 1);
    TwistBoneStable(bones, once, blank, side, 2);
  }

  /** A table holding a finished sub-arm bone and the same lower arm finishes it to the same bone. */
  lemma TwistBoneStable(bones: map<string, Bone>, once: map<string, Bone>, blank: Bone, side: string, i: nat)
    requires i < SubArmCount && TwistArm(side) in bones && TwistArm(side) in once
    requires once[TwistArm(side)] == bones[TwistArm(side)]
    requires Fetch(once, SubArm(side, i), blank) == TwistBone(bones, blank, side, i)
    ensures TwistBone(once, blank, side, i) == TwistBone(bones, blank, side, i)
  {
    TwistBoneAgain(bones, blank, side, i);
  }
}
