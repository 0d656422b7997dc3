/** The armature the scripts edit: a table of bones keyed by name, the drivers on their pose channels,
    and the object's interaction mode. */
module Armature {
  import opened Outcomes
  import opened Geometry
  import opened Constraints

  /** The object's interaction mode (`obj.mode`). */
  datatype Mode = ObjectMode | EditMode | PoseMode | WeightPaintMode

  /** `[i == layer for i in range(32)]`: the 32-entry mask that shows a bone on one layer only. */
  function OneHot(layer: int): (mask: seq<bool>)
    ensures |mask| == 32
    ensures forall i :: 0 <= i < 32 ==> (mask[i] <==> i == layer)
  {
    seq(32, i => i == layer)
  }

  /** The spring-bone settings (`sb_bone_spring`, `sb_bone_rot`, `sb_stiffness`, `sb_gravity`, `sb_damp`). */
  datatype Spring = Spring(enabled: bool, rotation: bool, stiffness: real, gravity: real, damping: real)

  /** One bone, seen through its edit bone (head, tail, parent, deform), its bone (layers) and its pose bone
      (constraints, spring settings); the three share the name that keys the table. */
  datatype Bone = Bone(
    head: Vec3,
    tail: Vec3,
    parent: Option<string>,
    layers: seq<bool>,
    deform: bool,
    constraints: seq<Constraint>,
    spring: Spring)

  /** `bone.vector`: from head to tail. */
  function Direction(b: Bone): Vec3
  {
    Sub(b.tail, b.head)
  }

  /** A driver variable of type TRANSFORMS reading one transform channel of a bone of this armature. */
  datatype DriverVar = DriverVar(name: string, bone: string, transform: string, space: string)

  /** A driver: whether it is SCRIPTED, its expression and its variables. */
  datatype Driver = Driver(scripted: bool, expression: string, variables: seq<DriverVar>)

  /** Drivers are keyed by the pose bone and the index of its `rotation_quaternion` channel. */
  type DriverKey = (string, nat)

  /** The driver `driver_add` creates on an empty channel; the scripts overwrite all of it. */
  const BlankDriver := Driver(false, "", [])

  /** The bones a finger-controller synthesis works on: three finger segments, the hand and the control bone
      it adds. */
  datatype FingerNames = FingerNames(b1: string, b2: string, b3: string, hand: string, ctrl: string)

  /** The three segments and the control bone are four different bones, and the control bone is not the hand. */
  predicate FingerDistinct(n: FingerNames)
  {
    && n.b1 != n.b2 && n.b1 != n.b3 && n.b2 != n.b3
    && n.ctrl != n.b1 && n.ctrl != n.b2 && n.ctrl != n.b3 && n.ctrl != n.hand
  }

  /** The value part of the armature. */
  datatype Rig = Rig(bones: map<string, Bone>, drivers: map<DriverKey, Driver>)

  /** Every bone has a 32-entry layer mask, uniquely named constraints and a parent inside the table. */
  predicate WellFormed(bones: map<string, Bone>)
  {
    forall n :: n in bones ==>
      |bones[n].layers| == 32
      && UniqueNames(bones[n].constraints)
      && (bones[n].parent.Some? ==> bones[n].parent.value in bones)
  }

  /** Writing three bones, each with a full layer mask, uniquely named constraints and a parent already in the
      table, keeps it well formed. */
  lemma WellFormedWritten(m: map<string, Bone>, a: string, b: string, c: string, x: Bone, y: Bone, z: Bone, p: string)
    requires WellFormed(m) && p in m
    requires forall v :: v in {x, y, z} ==> |v.layers| == 32 && UniqueNames(v.constraints) && v.parent == Some(p)
    ensures WellFormed(m[a := x][b := y][c := z])
  {
  }

  /** Rewriting a bone already in the table keeps its names. */
  lemma RewrittenKeys(m: map<string, Bone>, k: string, v: Bone)
    requires k in m
    ensures m[k := v].Keys == m.Keys
  {
  }

  /** Two tables with the same names that agree on four given bones and on every other bone are equal. */
  lemma AgreeOutside(a: map<string, Bone>, b: map<string, Bone>, k1: string, k2: string, k3: string, k4: string)
    requires a.Keys == b.Keys && k1 in a && k2 in a && k3 in a && k4 in a
    requires b[k1] == a[k1] && b[k2] == a[k2] && b[k3] == a[k3] && b[k4] == a[k4]
    requires forall m :: m in a && m != k1 && m != k2 && m != k3 && m != k4 ==> b[m] == a[m]
    ensures a == b
  {
    assert forall m :: m in a ==> b[m] == a[m];
  }

  /** A template for new bones: no parent, no constraints, a full layer mask, and, as `edit_bones.new` leaves
      it, the tail on the head. */
  predicate IsBlank(b: Bone)
  {
    b.parent.None? && b.constraints == [] && |b.layers| == 32 && b.head == b.tail
  }

  /** `edit_bones.get(name) or edit_bones.new(name)`: the bone under `name`, or the blank a new one starts as. */
  function Fetch(bones: map<string, Bone>, name: string, blank: Bone): Bone
  {
    if name in bones then bones[name] else blank
  }

  /** Renaming maps a parent link along with the bone it points to. */
  function RenameLink(p: Option<string>, from: string, to: string): Option<string>
  {
    if p == Some(from) then Some(to) else p
  }

  /** The table after `bone.name = to` on the bone `from`: the key moves, parent links follow it. */
  function Renamed(bones: map<string, Bone>, from: string, to: string): (r: map<string, Bone>)
    requires from in bones && to !in bones
    ensures r.Keys == bones.Keys - {from} + {to}
  {
    map n | n in bones.Keys - {from} + {to} ::
      var b := if n == to then bones[from] else bones[n];
      b.(parent := RenameLink(b.parent, from, to))
  }

  lemma RenamedWellFormed(bones: map<string, Bone>, from: string, to: string)
    requires WellFormed(bones) && from in bones && to !in bones
    ensures WellFormed(Renamed(bones, from, to))
  {
  }

  /** A later write to the first of two different keys can be made first instead. */
  lemma UpdateSwap(m: map<string, Bone>, a: string, b: string, x: Bone, y: Bone, z: Bone)
    requires a != b
    ensures m[a := x][b := y][a := z] == m[a := z][b := y]
    ensures m[a := x][b := y][b := z] == m[a := x][b := z]
  {
  }

  /** What a script operation leaves behind: its outcome (`Err` for the exception it raised) and the rig,
      which keeps every change made before the exception. */
  datatype Step = Step(out: Result<()>, rig: Rig)

  /** The constraint upsert applied to the constraints of one bone. */
  function Upserting(b: Bone, name: string, kind: Kind, props: map<string, Value>): Bone
  {
    b.(constraints := Upsert(b.constraints, name, kind, props).cs)
  }

  /** The constraint upsert applied to one bone of the table. */
  function WithConstraint(bones: map<string, Bone>, bone: string, name: string, kind: Kind, props: map<string, Value>): map<string, Bone>
    requires bone in bones
  {
    bones[bone := Upserting(bones[bone], name, kind, props)]
  }

  /** Setting more fields on the constraint an upsert returned is one upsert with all the properties. */
  lemma WithConstraintThenSet(bones: map<string, Bone>, bone: string, name: string, kind: Kind,
                              props: map<string, Value>, more: map<string, Value>, i: nat)
    requires bone in bones && i == Upsert(bones[bone].constraints, name, kind, props).index
    ensures var w := WithConstraint(bones, bone, name, kind, props);
      w[bone := w[bone].(constraints := SetFields(w[bone].constraints, i, more))] == WithConstraint(bones, bone, name, kind, props + more)
  {
    UpsertThenSet(bones[bone].constraints, name, kind, props, more);
  }

  /** The upsert on one bone changes that bone's constraints and no other bone. */
  lemma WithConstraintAt(bones: map<string, Bone>, bone: string, name: string, kind: Kind, props: map<string, Value>, m: string)
    requires bone in bones && m in bones
    ensures var r := WithConstraint(bones, bone, name, kind, props);
      r[m] == if m == bone then Upserting(bones[bone], name, kind, props) else bones[m]
  {
  }

  /** Upserting keeps the table well formed, leaves every other bone and every other part of the bone alone,
      and leaves exactly one constraint carrying the name. */
  lemma WithConstraintSpec(bones: map<string, Bone>, bone: string, name: string, kind: Kind, props: map<string, Value>)
    requires WellFormed(bones) && bone in bones
    ensures var r := WithConstraint(bones, bone, name, kind, props);
      var cs := r[bone].constraints;
      && WellFormed(r)
      && r.Keys == bones.Keys
      && (forall n :: n in bones && n != bone ==> r[n] == bones[n])
      && r[bone] == bones[bone].(constraints := cs)
      && (exists i :: 0 <= i < |cs| && cs[i].name == name)
      && (forall i, j :: 0 <= i < |cs| && 0 <= j < |cs| && cs[i].name == name && cs[j].name == name ==> i == j)
  {
    var u := Upsert(bones[bone].constraints, name, kind, props);
    UpsertSpec(bones[bone].constraints, name, kind, props);
    assert u.cs[u.index].name == name;
  }

  /** Upserting keeps the table well formed and its keys as they were. */
  lemma WithConstraintWellFormed(bones: map<string, Bone>, bone: string, name: string, kind: Kind, props: map<string, Value>)
    requires WellFormed(bones) && bone in bones
    ensures WellFormed(WithConstraint(bones, bone, name, kind, props))
    ensures WithConstraint(bones, bone, name, kind, props).Keys == bones.Keys
  {
    UpsertSpec(bones[bone].constraints, name, kind, props);
  }

  /** The bone carries a constraint named `name` whose attributes include every entry of `props`. */
  predicate Carries(b: Bone, name: string, props: map<string, Value>)
  {
    match FindName(b.constraints, name)
    case None => false
    case Some(i) => forall k :: k in props ==> k in b.constraints[i].fields && b.constraints[i].fields[k] == props[k]
  }

  /** After the upsert the bone carries the constraint with the requested attributes. */
  lemma UpsertingCarries(b: Bone, name: string, kind: Kind, props: map<string, Value>)
    ensures Carries(Upserting(b, name, kind, props), name, props)
  {
    UpsertFinds(b.constraints, name, kind, props);
  }

  /** Repeating an upsert on a bone changes nothing. */
  lemma UpsertingTwice(b: Bone, name: string, kind: Kind, props: map<string, Value>)
    ensures Upserting(Upserting(b, name, kind, props), name, kind, props) == Upserting(b, name, kind, props)
  {
    UpsertIdempotent(b.constraints, name, kind, props);
  }

  /** Repeating three upserts on three different bones changes nothing. */
  lemma WithConstraintsAgain(bones: map<string, Bone>, b1: string, n1: string, k1: Kind, p1: map<string, Value>,
                             b2: string, n2: string, k2: Kind, p2: map<string, Value>,
                             b3: string, n3: string, k3: Kind, p3: map<string, Value>)
    requires b1 in bones && b2 in bones && b3 in bones && b1 != b2 && b1 != b3 && b2 != b3
    ensures var once := WithConstraint(WithConstraint(WithConstraint(bones, b1, n1, k1, p1), b2, n2, k2, p2), b3, n3, k3, p3);
      WithConstraint(WithConstraint(WithConstraint(once, b1, n1, k1, p1), b2, n2, k2, p2), b3, n3, k3, p3) == once
  {
    var u1 := Upserting(bones[b1], n1, k1, p1);
    var u2 := Upserting(bones[b2], n2, k2, p2);
    var u3 := Upserting(bones[b3], n3, k3, p3);
    var once := bones[b1 := u1][b2 := u2][b3 := u3];
    UpsertingTwice(bones[b1], n1, k1, p1);
    UpsertingTwice(bones[b2], n2, k2, p2);
    UpsertingTwice(bones[b3], n3, k3, p3);
    assert once[b1] == u1 && once[b2] == u2 && once[b3] == u3;
    assert once[b1 := u1][b2 := u2][b3 := u3] == once;
  }

  /** An upsert that changes the bone's constraints no further changes nothing in the table. */
  lemma WithConstraintIdle(bones: map<string, Bone>, bone: string, name: string, kind: Kind, props: map<string, Value>)
    requires bone in bones && Upserting(bones[bone], name, kind, props) == bones[bone]
    ensures WithConstraint(bones, bone, name, kind, props) == bones
  {
  }

  /** An upserted bone moved to another layer is left alone by the same upsert. */
  lemma UpsertingRelayered(b: Bone, name: string, kind: Kind, props: map<string, Value>, layers: seq<bool>)
    ensures var once := Upserting(b, name, kind, props).(layers := layers);
      Upserting(once, name, kind, props) == once
  {
    UpsertingTwice(b, name, kind, props);
  }

  /** The bone after `set_bone_layer(armature, 1, ...)` when the script gets that far. */
  function Layer1If(ok: bool, b: Bone): Bone
  {
    if ok then b.(layers := OneHot(1)) else b
  }

  /** Moving a bone to layer 1 and upserting a constraint on it a second time changes nothing. */
  lemma LayeredUpsertAgain(ok: bool, b: Bone, name: string, kind: Kind, props: map<string, Value>)
    ensures var once := Layer1If(ok, Upserting(b, name, kind, props));
      Layer1If(ok, Upserting(once, name, kind, props)) == once
  {
    UpsertingTwice(b, name, kind, props);
  }

  /** Installing the same driver twice on a channel is installing it once. */
  lemma DriverAgain(drivers: map<DriverKey, Driver>, key: DriverKey, d: Driver)
    ensures drivers[key := d][key := d] == drivers[key := d]
  {
  }

  /** The position of the first name in `names` that the table lacks. */
  function FirstMissing(bones: map<string, Bone>, names: seq<string>): (m: Option<nat>)
    ensures m.None? <==> forall i :: 0 <= i < |names| ==> names[i] in bones
    ensures m.Some? ==> m.value < |names| && names[m.value] !in bones
    ensures m.Some? ==> forall i :: 0 <= i < m.value ==> names[i] in bones
  {
    if |names| == 0 then None
    else if names[0] !in bones then Some(0)
    else
      match FirstMissing(bones, names[1..])
      case None => None
      case Some(i) => Some(i + 1)
  }

  /** A layer loop's result: the first name it could not find, if any, and the table it left. */
  datatype Layered = Layered(missing: Option<string>, bones: map<string, Bone>)

  /** `for n in names: bones[n].layers = [i == layer for i in range(32)]`, stopping at the first missing name. */
  function LayerAll(bones: map<string, Bone>, names: seq<string>, layer: int): Layered
  {
    if |names| == 0 then Layered(None, bones)
    else if names[0] !in bones then Layered(Some(names[0]), bones)
    else LayerAll(bones[names[0] := bones[names[0]].(layers := OneHot(layer))], names[1..], layer)
  }

  /** When every listed bone exists, each of them ends up visible on `layer` only, every other part of every bone
      is unchanged, and unlisted bones are untouched. */
  lemma {:induction false} LayerAllSpec(bones: map<string, Bone>, names: seq<string>, layer: int)
    requires forall i :: 0 <= i < |names| ==> names[i] in bones
    ensures var r := LayerAll(bones, names, layer);
      && r.missing.None?
      && r.bones.Keys == bones.Keys
      && (forall n :: n in bones && n in names ==> r.bones[n] == bones[n].(layers := OneHot(layer)))
      && (forall n :: n in bones && n !in names ==> r.bones[n] == bones[n])
    decreases |names|
  {
    if |names| > 0 {
      var b := bones[names[0] := bones[names[0]].(layers := OneHot(layer))];
      LayerAllSpec(b, names[1..], layer);
      assert forall n :: n in names <==> n == names[0] || n in names[1..];
    }
  }

  /** The layer loop over three distinct existing bones: all three move to `layer`, nothing else changes. */
  lemma LayerAllThree(bones: map<string, Bone>, a: string, b: string, c: string, layer: int)
    requires a in bones && b in bones && c in bones && a != b && a != c && b != c
    ensures var r := LayerAll(bones, [a, b, c], layer);
      && r.missing.None?
      && r.bones.Keys == bones.Keys
      && r.bones[a] == bones[a].(layers := OneHot(layer))
      && r.bones[b] == bones[b].(layers := OneHot(layer))
      && r.bones[c] == bones[c].(layers := OneHot(layer))
      && (forall m :: m in bones && m != a && m != b && m != c ==> r.bones[m] == bones[m])
  {
    var s1 := bones[a := bones[a].(layers := OneHot(layer))];
    var s2 := s1[b := s1[b].(layers := OneHot(layer))];
    var s3 := s2[c := s2[c].(layers := OneHot(layer))];
    assert [a, b, c][1..] == [b, c] && [b, c][1..] == [c] && [c][1..] == [];
    assert LayerAll(bones, [a, b, c], layer) == LayerAll(s1, [b, c], layer);
    assert LayerAll(s1, [b, c], layer) == LayerAll(s2, [c], layer);
    assert LayerAll(s2, [c], layer) == LayerAll(s3, [], layer);
  }

  /** The layer loop over three distinct bones just written: it rewrites their layer masks in place. */
  lemma LayerAllWritten(m: map<string, Bone>, a: string, b: string, c: string, x: Bone, y: Bone, z: Bone, layer: int)
    requires a != b && a != c && b != c
    ensures LayerAll(m[a := x][b := y][c := z], [a, b, c], layer)
      == Layered(None, m[a := x.(layers := OneHot(layer))][b := y.(layers := OneHot(layer))][c := z.(layers := OneHot(layer))])
  {
    var m0 := m[a := x][b := y][c := z];
    var m1 := m0[a := x.(layers := OneHot(layer))];
    var m2 := m1[b := y.(layers := OneHot(layer))];
    var m3 := m2[c := z.(layers := OneHot(layer))];
    assert [a, b, c][1..] == [b, c] && [b, c][1..] == [c] && [c][1..] == [];
    assert LayerAll(m0, [a, b, c], layer) == LayerAll(m1, [b, c], layer);
    assert LayerAll(m1, [b, c], layer) == LayerAll(m2, [c], layer);
    assert LayerAll(m2, [c], layer) == LayerAll(m3, [], layer);
  }

  /** The layer loop over three distinct existing bones, as one in-place rewrite of their layer masks. */
  lemma LayerAllInPlace(m: map<string, Bone>, a: string, b: string, c: string, layer: int)
    requires a in m && b in m && c in m && a != b && a != c && b != c
    ensures LayerAll(m, [a, b, c], layer)
      == Layered(None, m[a := m[a].(layers := OneHot(layer))][b := m[b].(layers := OneHot(layer))][c := m[c].(layers := OneHot(layer))])
  {
    assert m[a := m[a]][b := m[b]][c := m[c]] == m;
    LayerAllWritten(m, a, b, c, m[a], m[b], m[c], layer);
  }

  /** Moving three bones to the layer they are on already changes nothing. */
  lemma LayerAllThreeAgain(m: map<string, Bone>, a: string, b: string, c: string, layer: int)
    requires a in m && b in m && c in m && a != b && a != c && b != c
    requires m[a].layers == OneHot(layer) && m[b].layers == OneHot(layer) && m[c].layers == OneHot(layer)
    ensures LayerAll(m, [a, b, c], layer) == Layered(None, m)
  {
    LayerAllInPlace(m, a, b, c, layer);
    assert m[a := m[a].(layers := OneHot(layer))][b := m[b].(layers := OneHot(layer))][c := m[c].(layers := OneHot(layer))] == m;
  }

  /** When every listed bone exists, the layer loop runs to the end. */
  /** Three bones that all exist are layered without a missing name. */
  lemma LayerThreeComplete(bones: map<string, Bone>, a: string, b: string, c: string, layer: int)
    requires a in bones && b in bones && c in bones
    ensures LayerAll(bones, [a, b, c], layer).missing.None?
  {
    LayerAllComplete(bones, [a, b, c], layer);
  }

  lemma {:induction false} LayerAllComplete(bones: map<string, Bone>, names: seq<string>, layer: int)
    requires forall i :: 0 <= i < |names| ==> names[i] in bones
    ensures LayerAll(bones, names, layer).missing.None?
    decreases |names|
  {
    if |names| > 0 {
      LayerAllComplete(bones[names[0] := bones[names[0]].(layers := OneHot(layer))], names[1..], layer);
    }
  }

  /** A missing name stops the loop there: the error names the first missing bone, and the bones listed
      before it have been moved already. */
  lemma {:induction false} LayerAllMissing(bones: map<string, Bone>, names: seq<string>, layer: int)
    requires FirstMissing(bones, names).Some?
    ensures var k := FirstMissing(bones, names).value;
      var r := LayerAll(bones, names, layer);
      r.missing == Some(names[k]) && r.bones == LayerAll(bones, names[..k], layer).bones
    decreases |names|
  {
    if names[0] in bones {
      var b := bones[names[0] := bones[names[0]].(layers := OneHot(layer))];
      var k := FirstMissing(bones, names).value;
      assert FirstMissing(b, names[1..]) == Some(k - 1) by {
        assert forall i :: 0 <= i < |names| - 1 ==> (names[1..][i] in b <==> names[i + 1] in bones);
      }
      LayerAllMissing(b, names[1..], layer);
      assert names[..k][1..] == names[1..][..k - 1];
    }
  }

  lemma LayerAllWellFormed(bones: map<string, Bone>, names: seq<string>, layer: int)
    requires WellFormed(bones)
    ensures WellFormed(LayerAll(bones, names, layer).bones)
    ensures LayerAll(bones, names, layer).bones.Keys == bones.Keys
    decreases |names|
  {
    if |names| > 0 && names[0] in bones {
      LayerAllWellFormed(bones[names[0] := bones[names[0]].(layers := OneHot(layer))], names[1..], layer);
    }
  }

  /** Moving bones to the layer they are on already changes nothing. */
  lemma {:induction false} LayerAllAgain(bones: map<string, Bone>, names: seq<string>, layer: int)
    requires forall i :: 0 <= i < |names| ==> names[i] in bones && bones[names[i]].layers == OneHot(layer)
    ensures LayerAll(bones, names, layer) == Layered(None, bones)
    decreases |names|
  {
    if |names| > 0 {
      assert bones[names[0] := bones[names[0]].(layers := OneHot(layer))] == bones;
      LayerAllAgain(bones, names[1..], layer);
    }
  }

  /** `{'X':1, '-X':1, 'Y':2, '-Y':2, 'Z':3, '-Z':3}[axis]`: the quaternion channel a bending axis drives. */
  function QuaternionIndex(axis: string): (r: Option<nat>)
    ensures r.Some? <==> axis in {"X", "-X", "Y", "-Y", "Z", "-Z"}
    ensures r.Some? ==> 1 <= r.value <= 3
  {
    if axis == "X" || axis == "-X" then Some(1)
    else if axis == "Y" || axis == "-Y" then Some(2)
    else if axis == "Z" || axis == "-Z" then Some(3)
    else None
  }

  /** `axis.startswith('-')`. */
  predicate IsNegativeAxis(axis: string)
  {
    0 < |axis| && axis[0] == '-'
  }

  /** The driver variable both finger scripts add: the Y scale of the control bone in local space. */
  function ScaleVariable(ctrl: string): DriverVar
  {
    DriverVar("var", ctrl, "SCALE_Y", "LOCAL_SPACE")
  }

  /** The value Blender's Python gives the driver expressions these scripts write, for a value `v` of `var`. */
  function Evaluate(expression: string, v: real): Option<real>
  {
    if expression == "(var - 1) * 2" then Some((v - 1.0) * 2.0)
    else if expression == "-(var - 1) * 2" then Some(-(v - 1.0) * 2.0)
    else if expression == "var - 1" then Some(v - 1.0)
    else if expression == "1 - var" then Some(1.0 - v)
    else None
  }

  /** The armature object. Its fields are the Blender state the scripts change in place. */
  class Skeleton {
    var bones: map<string, Bone>
    var drivers: map<DriverKey, Driver>
    var mode: Mode
    /** Every `bpy.ops.object.mode_set` issued on this object, oldest first. */
    var modeLog: seq<Mode>
    /** What `edit_bones.new` creates (Blender's defaults for a new bone). */
    const blank: Bone

    ghost predicate Valid()
      reads this
    {
      WellFormed(bones) && IsBlank(blank)
    }

    function State(): Rig
      reads this
    {
      Rig(bones, drivers)
    }

    constructor(bones0: map<string, Bone>, drivers0: map<DriverKey, Driver>, mode0: Mode, blank0: Bone)
      requires WellFormed(bones0) && IsBlank(blank0)
      ensures Valid()
      ensures bones == bones0 && drivers == drivers0 && mode == mode0 && modeLog == [] && blank == blank0
    {
      bones := bones0;
      drivers := drivers0;
      mode := mode0;
      modeLog := [];
      blank := blank0;
    }

    /** `bpy.ops.object.mode_set(mode = m)`. */
    method ModeSet(m: Mode)
      modifies this`mode, this`modeLog
      ensures mode == m && modeLog == old(modeLog) + [m]
    {
      mode := m;
      modeLog := modeLog + [m];
    }

    /** `edit_bones.new(name)` on a name not yet taken. */
    method NewBone(name: string)
      requires name !in bones
      modifies this`bones
      ensures bones == old(bones)[name := blank]
    {
      bones := bones[name := blank];
    }

    /** `edit_bones.get(name) or edit_bones.new(name)`. */
    method GetOrNewBone(name: string)
      modifies this`bones
      ensures bones == old(bones)[name := Fetch(old(bones), name, blank)]
    {
      if name !in bones {
        NewBone(name);
      } else {
        assert bones == bones[name := bones[name]];
      }
    }

    method SetHead(name: string, v: Vec3)
      requires name in bones
      modifies this`bones
      ensures bones == old(bones)[name := old(bones)[name].(head := v)]
    {
      bones := bones[name := bones[name].(head := v)];
    }

    method SetTail(name: string, v: Vec3)
      requires name in bones
      modifies this`bones
      ensures bones == old(bones)[name := old(bones)[name].(tail := v)]
    {
      bones := bones[name := bones[name].(tail := v)];
    }

    /** `bone.parent = p`, where `None` clears the link. */
    method SetParent(name: string, p: Option<string>)
      requires name in bones && (p.Some? ==> p.value in bones)
      modifies this`bones
      ensures bones == old(bones)[name := old(bones)[name].(parent := p)]
    {
      bones := bones[name := bones[name].(parent := p)];
    }

    method SetDeform(name: string, d: bool)
      requires name in bones
      modifies this`bones
      ensures bones == old(bones)[name := old(bones)[name].(deform := d)]
    {
      bones := bones[name := bones[name].(deform := d)];
    }

    method SetLayers(name: string, mask: seq<bool>)
      requires name in bones && |mask| == 32
      modifies this`bones
      ensures bones == old(bones)[name := old(bones)[name].(layers := mask)]
    {
      bones := bones[name := bones[name].(layers := mask)];
    }

    method SetSpring(name: string, s: Spring)
      requires name in bones
      modifies this`bones
      ensures bones == old(bones)[name := old(bones)[name].(spring := s)]
    {
      bones := bones[name := bones[name].(spring := s)];
    }

    /** `bone.name = to`; Blender keeps the parent links pointing at the renamed bone. */
    method RenameBone(from: string, to: string)
      requires from in bones && to !in bones
      modifies this`bones
      ensures bones == Renamed(old(bones), from, to)
    {
      bones := Renamed(bones, from, to);
    }

    /** `next((c for c in b.constraints if c.name == name), None)` on the pose bone `bone`. */
    method FindConstraint(bone: string, name: string) returns (r: Option<nat>)
      requires bone in bones
      ensures r == FindName(bones[bone].constraints, name)
    {
      var cs := bones[bone].constraints;
      var j := 0;
      while j < |cs|
        invariant 0 <= j <= |cs|
        invariant forall k :: 0 <= k < j ==> cs[k].name != name
      {
        if cs[j].name == name {
          return Some(j);
        }
        j := j + 1;
      }
      return None;
    }

    /** `b.constraints.new(kind)` followed by `c.name = name`, for a name the bone does not use yet. */
    method NewConstraint(bone: string, name: string, kind: Kind) returns (i: nat)
      requires bone in bones && FindName(bones[bone].constraints, name).None?
      modifies this`bones
      ensures i == |old(bones)[bone].constraints|
      ensures bones == old(bones)[bone := old(bones)[bone].(constraints := old(bones)[bone].constraints + [Fresh(name, kind)])]
    {
      var b := bones[bone];
      i := |b.constraints|;
      bones := bones[bone := b.(constraints := b.constraints + [Fresh(name, kind)])];
    }

    /** `setattr(c, key, value)` on the constraint at position `i` of `bone`. */
    method SetConstraintField(bone: string, i: nat, key: string, value: Value)
      requires bone in bones && i < |bones[bone].constraints|
      modifies this`bones
      ensures bones == old(bones)[bone := old(bones)[bone].(constraints := SetFields(old(bones)[bone].constraints, i, map[key := value]))]
    {
      var b := bones[bone];
      bones := bones[bone := b.(constraints := SetFields(b.constraints, i, map[key := value]))];
    }

    /** `for k, v in props.items(): setattr(c, k, v)`; keys are distinct, so their order does not matter. */
    method AssignFields(bone: string, i: nat, props: map<string, Value>)
      requires bone in bones && i < |bones[bone].constraints|
      modifies this`bones
      ensures bones == old(bones)[bone := old(bones)[bone].(constraints := SetFields(old(bones)[bone].constraints, i, props))]
    {
      var b0 := bones[bone];
      var todo := props.Keys;
      assert props - todo == map[];
      SetFieldsTwice(b0.constraints, i, map[], map[]);
      assert bones == bones[bone := b0];
      while todo != {}
        invariant todo <= props.Keys
        invariant bone in bones && i < |bones[bone].constraints|
        invariant bones == old(bones)[bone := b0.(constraints := SetFields(b0.constraints, i, props - todo))]
        decreases todo
      {
        var k :| k in todo;
        SetConstraintField(bone, i, k, props[k]);
        assert (props - todo) + map[k := props[k]] == props - (todo - {k});
        SetFieldsTwice(b0.constraints, i, props - todo, map[k := props[k]]);
        todo := todo - {k};
      }
      assert props - todo == props;
    }

    /** `driver_remove('rotation_quaternion', index)` on the pose bone `bone`. */
    method DriverRemove(bone: string, index: nat)
      modifies this`drivers
      ensures drivers == old(drivers) - {(bone, index)}
    {
      drivers := drivers - {(bone, index)};
    }

    /** `driver_add('rotation_quaternion', index)`: the channel's driver, created blank when there is none. */
    method DriverAdd(bone: string, index: nat)
      modifies this`drivers
      ensures drivers == old(drivers)[(bone, index) := if (bone, index) in old(drivers) then old(drivers)[(bone, index)] else BlankDriver]
    {
      if (bone, index) !in drivers {
        drivers := drivers[(bone, index) := BlankDriver];
      } else {
        assert drivers == drivers[(bone, index) := drivers[(bone, index)]];
      }
    }

    /** `drv.type = 'SCRIPTED'` and `drv.expression = expression`. */
    method SetScript(key: DriverKey, expression: string)
      requires key in drivers
      modifies this`drivers
      ensures drivers == old(drivers)[key := old(drivers)[key].(scripted := true, expression := expression)]
    {
      drivers := drivers[key := drivers[key].(scripted := true, expression := expression)];
    }

    /** `drv.variables.new()` followed by assignments to the new variable and its first target. */
    method AddVariable(key: DriverKey, v: DriverVar)
      requires key in drivers
      modifies this`drivers
      ensures drivers == old(drivers)[key := old(drivers)[key].(variables := old(drivers)[key].variables + [v])]
    {
      drivers := drivers[key := drivers[key].(variables := drivers[key].variables + [v])];
    }
  }
}
