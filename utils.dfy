/** utils.py: `BoneHolder`, a bone of the armature object addressed by name, with the lookups and edits the
    second-generation finger script goes through. */
module Utils {
  import opened Outcomes
  import opened Constraints
  import opened Armature
  import VrmAuto

  /** `armature.edit_bones.get(name)`, followed by `edit_bones.new(name)` when that gave `None` and creation was
      asked for: the table the edit lookup leaves. */
  function Edited(bones: map<string, Bone>, name: string, autoCreate: bool, blank: Bone): map<string, Bone>
  {
    if autoCreate && name !in bones then bones[name := blank] else bones
  }

  /** Creation adds exactly the missing name, as Blender's blank bone, and touches no existing bone; without
      creation nothing changes. */
  lemma EditedSpec(bones: map<string, Bone>, name: string, autoCreate: bool, blank: Bone)
    ensures var m := Edited(bones, name, autoCreate, blank);
      && m.Keys == (if autoCreate then bones.Keys + {name} else bones.Keys)
      && (forall k :: k in bones ==> m[k] == bones[k])
      && (name in m && name !in bones ==> m[name] == blank)
      && (!autoCreate ==> m == bones)
  {
  }

  /** Creating on demand keeps the table well formed, and a second lookup with the same flag creates nothing:
      the bone created the first time is found. */
  lemma EditedAgain(bones: map<string, Bone>, name: string, autoCreate: bool, blank: Bone)
    requires WellFormed(bones) && IsBlank(blank)
    ensures WellFormed(Edited(bones, name, autoCreate, blank))
    ensures Edited(Edited(bones, name, autoCreate, blank), name, autoCreate, blank) == Edited(bones, name, autoCreate, blank)
  {
  }

  /** The edit lookup with creation is the get-or-create of the edit-bone collection. */
  lemma EditedCreates(bones: map<string, Bone>, name: string, blank: Bone)
    ensures Edited(bones, name, true, blank) == bones[name := Fetch(bones, name, blank)]
  {
    if name in bones {
      assert bones[name := bones[name]] == bones;
    }
  }

  /** `set_layer` on one name is the layer loop over that single name: a present bone shows on `layer` only and
      nothing else changes; a missing one stops the loop and changes nothing. Repeating it changes nothing. */
  lemma {:induction false} LayerOne(bones: map<string, Bone>, name: string, layer: int)
    ensures var l := LayerAll(bones, [name], layer);
      && (name !in bones ==> l == Layered(Some(name), bones))
      && (name in bones ==> l == Layered(None, bones[name := bones[name].(layers := OneHot(layer))]))
      && LayerAll(l.bones, [name], layer).bones == l.bones
  {
    var once := LayerAll(bones, [name], layer);
    assert [name][1..] == [];
    if name in bones {
      var b := bones[name := bones[name].(layers := OneHot(layer))];
      assert once == LayerAll(b, [], layer);
      assert b[name := b[name].(layers := OneHot(layer))] == b;
      assert LayerAll(once.bones, [name], layer) == LayerAll(b, [], layer);
    }
  }

  /** A bone of the armature object `obj`, known by its name. */
  class BoneHolder {
    const obj: Skeleton
    const name: string

    constructor(obj: Skeleton, name: string)
      ensures this.obj == obj && this.name == name
    {
      this.obj := obj;
      this.name := name;
    }

    /** `armature.bones[name]`: indexing raises `KeyError` for a missing name, so `None` is never returned. */
    method GetBone() returns (r: Result<Bone>)
      ensures r.Ok? <==> name in obj.bones
      ensures r.Ok? ==> r.value == obj.bones[name]
      ensures r.Err? ==> r.error == KeyError(name)
    {
      if name !in obj.bones {
        return Err(KeyError(name));
      }
      return Ok(obj.bones[name]);
    }

    /** `edit(auto_create)`: the edit bone, created from Blender's blank when missing and `auto_create` is set,
        `None` when missing otherwise. */
    method Edit(autoCreate: bool) returns (b: Option<Bone>)
      modifies obj`bones
      ensures obj.bones == Edited(old(obj.bones), name, autoCreate, obj.blank)
      ensures b.Some? <==> name in obj.bones
      ensures b.Some? ==> b.value == obj.bones[name]
    {
      b := if name in obj.bones then Some(obj.bones[name]) else None;
      if b.None? && autoCreate {
        obj.NewBone(name);
        b := Some(obj.bones[name]);
      }
    }

    /** `pose()`: `obj.pose.bones.get(name)`, which is `None` for a missing name. */
    method Pose() returns (p: Option<Bone>)
      ensures p.Some? <==> name in obj.bones
      ensures p.Some? ==> p.value == obj.bones[name]
    {
      if name in obj.bones {
        return Some(obj.bones[name]);
      }
      return None;
    }

    /** `constraint(cname, kind, **props)`: finds the pose bone's constraint named `cname` or appends one of
        `kind`, then writes every property as an attribute; returns the constraint's position. On a missing
        bone, reading `constraints` of the `None` pose bone raises `AttributeError` before any change. */
    method UpsertConstraint(cname: string, kind: Kind, props: map<string, Value>) returns (r: Result<nat>)
      modifies obj`bones
      ensures name !in old(obj.bones) ==> r == Err(NoneAttribute(name)) && obj.bones == old(obj.bones)
      ensures name in old(obj.bones) ==>
        && obj.bones == WithConstraint(old(obj.bones), name, cname, kind, props)
        && r == Ok(Upsert(old(obj.bones)[name].constraints, cname, kind, props).index)
        && r.value < |obj.bones[name].constraints| && obj.bones[name].constraints[r.value].name == cname
    {
      var b := Pose();
      if b.None? {
        return Err(NoneAttribute(name));
      }
      ghost var cs := obj.bones[name].constraints;
      UpsertFinds(cs, cname, kind, props);
      // the same find-or-append and attribute writes as `add_bone_constraint` of the first-generation script
      var index := VrmAuto.AddBoneConstraint(obj, name, cname, kind, props);
      return Ok(index);
    }

    /** `set_layer(layer)`: `bone().layers = [i == layer for i in range(32)]`, where `bone()` raises `KeyError`
        for a missing name. */
    method SetLayer(layer: int) returns (r: Result<()>)
      modifies obj`bones
      ensures obj.bones == LayerAll(old(obj.bones), [name], layer).bones
      ensures r == (if name in old(obj.bones) then Ok(()) else Err(KeyError(name)))
    {
      LayerOne(obj.bones, name, layer);
      var b := GetBone();
      if b.Err? {
        return Err(b.error);
      }
      obj.SetLayers(name, OneHot(layer));
      return Ok(());
    }
  }

  /** Repeating a constraint upsert on a bone changes nothing in the table. */
  lemma ConstraintAgain(bones: map<string, Bone>, bone: string, cname: string, kind: Kind, props: map<string, Value>)
    requires bone in bones
    ensures var once := WithConstraint(bones, bone, cname, kind, props);
      WithConstraint(once, bone, cname, kind, props) == once
  {
    UpsertingTwice(bones[bone], cname, kind, props);
  }
}
