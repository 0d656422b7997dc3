/** Bone constraints: an ordered list of named records whose fields the scripts overwrite. */
module Constraints {
  import opened Outcomes

  /** The constraint types the scripts create. */
  datatype Kind = CopyRotation | CopyTransforms | LimitScale | InverseKinematics

  /** A value written to a constraint property; `ArmatureObject` is the rig object itself (`target = obj`)
      and `Radians(d)` is `math.radians(d)`. */
  datatype Value = Text(s: string) | Int(i: int) | Num(r: real) | Flag(b: bool) | ArmatureObject | Radians(degrees: real)

  /** A constraint: its name, its type and the attributes set on it (absent ones keep Blender's defaults). */
  datatype Constraint = Constraint(name: string, kind: Kind, fields: map<string, Value>)

  /** The constraint list together with the position of the constraint an operation returned. */
  datatype Upserted = Upserted(cs: seq<Constraint>, index: nat)

  /** `next((c for c in constraints if c.name == name), None)`: the first position carrying `name`. */
  function FindName(cs: seq<Constraint>, name: string): (r: Option<nat>)
    ensures r.Some? ==> r.value < |cs| && cs[r.value].name == name
    ensures r.Some? ==> forall j :: 0 <= j < r.value ==> cs[j].name != name
    ensures r.None? ==> forall j :: 0 <= j < |cs| ==> cs[j].name != name
  {
    if |cs| == 0 then None
    else if cs[0].name == name then Some(0)
    else
      match FindName(cs[1..], name)
      case None => None
      case Some(i) => Some(i + 1)
  }

  /** No two constraints of a bone share a name. */
  predicate UniqueNames(cs: seq<Constraint>)
  {
    forall i, j :: 0 <= i < j < |cs| ==> cs[i].name != cs[j].name
  }

  /** `constraints.new(type)` followed by `c.name = name`. */
  function Fresh(name: string, kind: Kind): Constraint
  {
    Constraint(name, kind, map[])
  }

  /** Overwrites attributes of the constraint at `i`, one `setattr` per key. */
  function SetFields(cs: seq<Constraint>, i: nat, props: map<string, Value>): seq<Constraint>
    requires i < |cs|
  {
    cs[i := cs[i].(fields := cs[i].fields + props)]
  }

  /** Two rounds of attribute writes equal one round with the later values winning. */
  lemma SetFieldsTwice(cs: seq<Constraint>, i: nat, a: map<string, Value>, b: map<string, Value>)
    requires i < |cs|
    ensures SetFields(SetFields(cs, i, a), i, b) == SetFields(cs, i, a + b)
    ensures SetFields(cs, i, map[]) == cs
  {
    assert cs[i].fields + a + b == cs[i].fields + (a + b);
    assert cs[i].fields + map[] == cs[i].fields;
  }

  /** Find the constraint named `name` or append a fresh one of type `kind`, without touching its attributes. */
  function FindOrAdd(cs: seq<Constraint>, name: string, kind: Kind): (u: Upserted)
  {
    match FindName(cs, name)
    case Some(i) => Upserted(cs, i)
    case None => Upserted(cs + [Fresh(name, kind)], |cs|)
  }

  /** Find-or-append followed by a `setattr` of every property. */
  function Upsert(cs: seq<Constraint>, name: string, kind: Kind, props: map<string, Value>): (u: Upserted)
  {
    var f := FindOrAdd(cs, name, kind);
    Upserted(SetFields(f.cs, f.index, props), f.index)
  }

  /** Find-or-append followed by `c[k] = v` for every property. Subscript assignment on a Blender struct writes
      an ID property, and a constraint holds none: the first such write raises `TypeError`, after a missing
      constraint has already been appended and named. Without properties nothing is written and nothing raised. */
  function UpsertIdProps(cs: seq<Constraint>, name: string, kind: Kind, props: map<string, Value>): (u: (Upserted, Result<()>))
  {
    var f := FindOrAdd(cs, name, kind);
    if props == map[] then (f, Ok(())) else (f, Err(NoIdProperties))
  }

  /** Lookup returns the existing constraint unchanged, or appends exactly one new constraint of the requested
      type; either way exactly one constraint carries the name afterwards and the others are as they were. */
  lemma FindOrAddSpec(cs: seq<Constraint>, name: string, kind: Kind)
    requires UniqueNames(cs)
    ensures var u := FindOrAdd(cs, name, kind);
      && UniqueNames(u.cs)
      && u.index < |u.cs| && u.cs[u.index].name == name
      && (forall j :: 0 <= j < |u.cs| && u.cs[j].name == name ==> j == u.index)
      && (FindName(cs, name).Some? ==> u.cs == cs)
      && (FindName(cs, name).None? ==> u.cs == cs + [Fresh(name, kind)])
  {
  }

  /** The upsert of `add_bone_constraint`: on an existing name the type is kept, the properties are merged into
      the attributes and nothing is added; otherwise exactly one constraint of `kind` holding exactly `props`
      is appended. All other constraints are unchanged and the names stay unique. */
  lemma UpsertSpec(cs: seq<Constraint>, name: string, kind: Kind, props: map<string, Value>)
    requires UniqueNames(cs)
    ensures var u := Upsert(cs, name, kind, props);
      && UniqueNames(u.cs)
      && u.index < |u.cs| && u.cs[u.index].name == name
      && (forall j :: 0 <= j < |u.cs| && u.cs[j].name == name ==> j == u.index)
      && (forall j :: 0 <= j < |u.cs| && j != u.index ==> j < |cs| && u.cs[j] == cs[j])
      && (FindName(cs, name).Some? ==>
            |u.cs| == |cs| && u.index == FindName(cs, name).value
            && u.cs[u.index] == cs[u.index].(fields := cs[u.index].fields + props))
      && (FindName(cs, name).None? ==> u.cs == cs + [Constraint(name, kind, props)])
  {
    FindOrAddSpec(cs, name, kind);
    if FindName(cs, name).None? {
      assert map[] + props == props;
    }
  }

  /** After an upsert, lookup by name finds the returned constraint, and it holds every requested attribute. */
  lemma UpsertFinds(cs: seq<Constraint>, name: string, kind: Kind, props: map<string, Value>)
    ensures var u := Upsert(cs, name, kind, props);
      && FindName(u.cs, name) == Some(u.index)
      && (forall k :: k in props ==> k in u.cs[u.index].fields && u.cs[u.index].fields[k] == props[k])
  {
    var f := FindOrAdd(cs, name, kind);
    if FindName(cs, name).None? {
      assert forall j :: 0 <= j < f.index ==> f.cs[j] == cs[j];
      assert f.cs[f.index].name == name;
    }
    FirstIndexKept(f.cs, f.index, name, props);
  }

  /** Running the same upsert twice gives the same list as running it once. */
  lemma {:induction false} UpsertIdempotent(cs: seq<Constraint>, name: string, kind: Kind, props: map<string, Value>)
    ensures var u := Upsert(cs, name, kind, props);
      Upsert(u.cs, name, kind, props) == u
  {
    var u := Upsert(cs, name, kind, props);
    UpsertFinds(cs, name, kind, props);
    var c := u.cs[u.index];
    assert c.fields + props == c.fields;
  }

  /** Overwriting attributes of the first constraint carrying a name keeps it first. */
  lemma FirstIndexKept(cs: seq<Constraint>, i: nat, name: string, props: map<string, Value>)
    requires FindName(cs, name) == Some(i)
    ensures FindName(SetFields(cs, i, props), name) == Some(i)
  {
    var cs' := SetFields(cs, i, props);
    var r := FindName(cs', name);
    assert forall j :: 0 <= j < i ==> cs'[j] == cs[j];
    assert cs'[i].name == name;
  }

  /** Setting further attributes on the returned constraint is the same as passing them to the upsert. */
  lemma UpsertThenSet(cs: seq<Constraint>, name: string, kind: Kind, props: map<string, Value>, more: map<string, Value>)
    ensures var u := Upsert(cs, name, kind, props);
      SetFields(u.cs, u.index, more) == Upsert(cs, name, kind, props + more).cs
  {
    var f := FindOrAdd(cs, name, kind);
    var c := f.cs[f.index];
    assert c.fields + props + more == c.fields + (props + more);
  }

  /** Lookup by name followed by attribute writes, the pattern of vrmrig.py, equals one upsert. */
  lemma FindOrAddThenSet(cs: seq<Constraint>, name: string, kind: Kind, props: map<string, Value>)
    ensures var f := FindOrAdd(cs, name, kind);
      SetFields(f.cs, f.index, props) == Upsert(cs, name, kind, props).cs
  {
  }

  /** As written with `c[k] = v`: the call raises `TypeError` exactly when it has properties to write, and
      whatever it raises, no attribute of any constraint changes; a missing constraint is still appended, with
      none of the requested attributes, and the names stay unique. */
  lemma IdPropsLeaveAttributesUnset(cs: seq<Constraint>, name: string, kind: Kind, props: map<string, Value>)
    requires UniqueNames(cs)
    ensures var (u, out) := UpsertIdProps(cs, name, kind, props);
      && (out.Err? <==> props != map[])
      && (out.Err? ==> out.error == NoIdProperties)
      && UniqueNames(u.cs) && u.index < |u.cs| && u.cs[u.index].name == name
      && (FindName(cs, name).Some? ==> u.cs == cs)
      && (FindName(cs, name).None? ==> u.cs == cs + [Constraint(name, kind, map[])])
  {
    FindOrAddSpec(cs, name, kind);
  }

  /** A concrete instance: the bending-follow constraint written through `c[k] = v` raises `TypeError` and is
      left appended without a subtarget, while `setattr` would set it. */
  lemma IdPropsCounterexample()
    ensures var props := map["subtarget" := Text("Index2_L"), "target_space" := Text("LOCAL")];
      var (u, out) := UpsertIdProps([], "VRMAUTO_BendingFollow", CopyRotation, props);
      && out == Err(NoIdProperties)
      && u.cs == [Constraint("VRMAUTO_BendingFollow", CopyRotation, map[])]
      && "subtarget" !in u.cs[u.index].fields
      && "subtarget" in Upsert([], "VRMAUTO_BendingFollow", CopyRotation, props).cs[0].fields
  {
    var props := map["subtarget" := Text("Index2_L"), "target_space" := Text("LOCAL")];
    assert "subtarget" in props;
    IdPropsLeaveAttributesUnset([], "VRMAUTO_BendingFollow", CopyRotation, props);
  }
}
