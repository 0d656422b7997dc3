# VRM rigging scripts for Blender, modelled in Dafny

The repository holds Blender Python scripts that turn an armature imported from a VRM model into a rig that can
be animated by hand. This project models the rigging core of those scripts and proves properties about it.
The core comes in two generations.

- **`vrmauto.py`: the first-generation script.**
  - `symmetrize_bone_names` renames the vendor-prefixed bones (`J_Bip_L_Hand` becomes `Hand_L`).
  - `gen_finger_ctrl` adds a finger control bone. Scaling that bone bends the finger through copy-rotation
    constraints and a scripted driver.
  - `gen_limbs_ik` adds IK and pole bones and an IK constraint for an arm or a leg.
  - `fix_arm_twist` splits the lower arm into three twist bones that follow the hand with rising influence.
  - `set_spring_bones` configures the hair, bust and skirt spring bones, picked out by a regular expression.
- **`vrmrig.py`: the class-based rewrite.**
  - `ArmatureSupport` wraps the armature's lookups and its edit-mode scope.
  - `FingerCtrl` and `LimbsCtrl` generate the finger controller and the arm/leg IK rig.
- **`utils.py` and `fingers.py`: the second-generation finger script.**
  - `BoneHolder` addresses one bone by name.
  - `generate_finger_controller` builds the finger controller through `BoneHolder`.

**How the rig is represented.**

- The armature object is the class `Armature.Skeleton`. Its fields are what the scripts change in place:
  - the bone table, a `map` from names to `Bone` values holding head, tail, parent, layers, deform flag,
    constraints and spring settings;
  - the drivers on the pose channels;
  - the interaction mode;
  - the log of every `mode_set` issued.
- Each script function is an imperative `method` on that object.
- Each method is proved equal to a pure function of the old state. These functions return a `Step`: the outcome
  (`Ok` or the Python exception raised) together with the rig left behind.
- The properties are lemmas about those functions:
  - which exception comes first;
  - which bones change and which stay as they were;
  - geometry of the placed bones;
  - the table stays well formed (layer masks of 32 entries, uniquely named constraints, parents inside the table);
  - idempotence: running a script a second time changes nothing.
- Errors are modelled as Python raises them, including the partial edit-mode table left when an exception
  interrupts a script (Blender's removal of zero-length bones on leaving edit mode is not modelled; see
  "Left out"):
  - `KeyError` for `bones[name]`;
  - an attribute access on the `None` returned by `get`;
  - the `AssertionError` of the bone checks (`MissingBone`);
  - `TypeError` for a wrong argument count.

| file | module | models |
|---|---|---|
| `outcomes.dfy` | `Outcomes` | `Option`, `Result` and the exceptions the scripts raise |
| `geometry.dfy` | `Geometry` | `mathutils` vectors over the reals: sum, difference, scaling, cross product, `normalized()` |
| `names.dfy` | `BoneNames` | the renaming rules of `symmetrize_bone_names` and the spring-bone name pattern |
| `constraints.dfy` | `Constraints` | a pose bone's constraint list: lookup by name, find-or-append, attribute writes |
| `armature.dfy` | `Armature` | bones, drivers, the armature object and its Blender primitives, the layer loop |
| `vrmauto.dfy` | `VrmAuto` | `vrmauto.py` |
| `vrmrig.dfy` | `VrmRig` | `vrmrig.py` (`ArmatureSupport`, `FingerCtrl`, `LimbsCtrl`) |
| `utils.dfy` | `Utils` | `utils.py` (`BoneHolder`) |
| `fingers.dfy` | `Fingers` | `fingers.py` (`generate_finger_controller`) |

## Model

| member | source | states |
|---|---|---|
| Geometry.Normalized | vrmauto.py:191-192 | `v.normalized()` is the zero vector exactly when `v` is |
| Geometry.NormalizedSpec | vrmauto.py:191-192 | scaling the normalised vector back by the length gives the vector; a non-zero vector normalises to unit length |
| Geometry.NonParallel | vrmauto.py:187-194 | past the intended guard (a non-zero cross product), the lower bone's vector and `upper.vector - lower.vector` are non-zero, so both `normalized()` calls of the edit step get a direction |
| Geometry.NormalizedZero | vrmauto.py:192 | the zero vector normalises to the zero vector |
| BoneNames.SymmetrizeLeft | vrmauto.py:57-61 | `J_<tag>_L_X` is renamed `X_L` for each of the four tags |
| BoneNames.SymmetrizeRight | vrmauto.py:63-66 | `J_<tag>_R_X` is renamed `X_R` |
| BoneNames.SymmetrizeCenter | vrmauto.py:68-71 | `J_<tag>_C_X` is renamed `X` |
| BoneNames.SymmetrizePlain | vrmauto.py:68-71 | `J_<tag>_X` is renamed `X` when `X` has no side marker |
| BoneNames.SymmetrizeFixedPoints | vrmauto.py:57-71 | a name is left alone if and only if it lacks the `J_(Adj\|Bip\|Opt\|Sec)_` prefix |
| BoneNames.ParseRender | vrmauto.py:306 | every hair, bust and skirt spring-bone name matches the pattern, and the match gives the name's parts back |
| BoneNames.ParseExactSound | vrmauto.py:306 | whatever the pattern accepts without a final newline is exactly a rendered spring-bone name |
| BoneNames.ParseSound | vrmauto.py:306-309 | `re.match` with `$` accepts a spring-bone name, optionally followed by one newline, and nothing else |
| BoneNames.ParseTrailingNewline | vrmauto.py:306 | a spring-bone name followed by a newline is also accepted, since `$` matches before a final newline |
| BoneNames.ParseArabicIndicDigit | vrmauto.py:306 | `\d` takes every Unicode decimal digit, not only ASCII: `Hair` with the Arabic-Indic digit one and `_L` is a spring-bone name |
| BoneNames.NoNewlineInRender | vrmauto.py:306 | spring-bone names contain no newline, so the two accepted forms never overlap |
| Constraints.FindName | vrmauto.py:8 | the lookup returns the first position whose constraint carries the name, and nothing when none does |
| Constraints.SetFieldsTwice | vrmauto.py:13-14 | two rounds of attribute writes equal one round with the later values winning; no writes change nothing |
| Constraints.FindOrAddSpec | vrmrig.py:34-40 | find-or-append keeps names unique and returns the only position carrying the name; an existing constraint is reused, otherwise a fresh one is appended |
| Constraints.UpsertSpec | vrmauto.py:7-15 | `add_bone_constraint` keeps names unique and changes only the returned constraint: an existing one keeps its place and gains the attributes, otherwise a new one is appended with them |
| Constraints.UpsertFinds | vrmauto.py:7-15 | after the upsert, lookup by name finds the returned constraint, and it holds every requested attribute |
| Constraints.UpsertIdempotent | vrmauto.py:7-15 | repeating the same upsert gives the same list and position |
| Constraints.UpsertThenSet | vrmauto.py:130-139 | attributes set on the returned constraint afterwards are the same as attributes passed to the upsert |
| Constraints.FindOrAddThenSet | vrmrig.py:60-65 | `get_bone_constraint` followed by attribute assignments is the upsert of `add_bone_constraint` |
| Constraints.IdPropsLeaveAttributesUnset | utils.py:21-29 | as written, `c[k] = v` raises `TypeError` exactly when there are properties to write (a constraint holds no ID properties); no attribute is set, and a missing constraint is still appended, uniquely named and unconfigured |
| Constraints.IdPropsCounterexample | utils.py:28 | concretely, the bending-follow call raises `TypeError` and leaves the appended constraint without its `subtarget`, while `setattr` would set it |
| Armature.OneHot | vrmauto.py:19 | `[i == layer for i in range(32)]` has 32 entries and is true exactly at `layer` |
| Armature.RenamedWellFormed | vrmauto.py:60 | renaming a bone keeps the table well formed: parent links follow the renamed bone (constraint subtargets and drivers are not rewritten) |
| Armature.WithConstraintSpec | vrmauto.py:7-15 | an upsert on one bone changes only that bone's constraint list, leaves exactly one constraint with the name, and keeps the table well formed |
| Armature.WithConstraintAt | vrmauto.py:7-15 | reading any bone after an upsert on one bone gives the upserted bone or the old one |
| Armature.UpsertingCarries | vrmauto.py:7-15 | after the upsert the bone carries the named constraint with every requested attribute |
| Armature.UpsertingTwice | vrmauto.py:7-15 | repeating an upsert on a bone changes nothing |
| Armature.FirstMissing | vrmauto.py:91-93 | the position of the first checked name the table lacks: every earlier name is present, and there is none exactly when all are present |
| Armature.LayerAllSpec | vrmauto.py:17-19 | when every name exists, exactly the listed bones move to the one layer and every other bone is unchanged |
| Armature.LayerAllMissing | vrmauto.py:17-19 | a missing name raises `KeyError` naming the first missing bone, after the names before it were moved |
| Armature.LayerAllWellFormed | vrmauto.py:17-19 | the layer loop keeps the table well formed and its names |
| Armature.LayerAllAgain | vrmauto.py:17-19 | moving bones to the layer they are already on changes nothing |
| Armature.LayerAllThree | vrmauto.py:163 | the layer move of three distinct finger segments moves the three and nothing else |
| Armature.QuaternionIndex | vrmauto.py:144 | the axis table gives a quaternion channel from 1 to 3 for exactly the six axes `X`, `-X`, `Y`, `-Y`, `Z`, `-Z` |
| Armature.Skeleton.constructor | vrmauto.py:48 | the armature starts with the given bones, drivers and mode, is well formed, and has issued no mode change |
| Armature.Skeleton.ModeSet | vrmauto.py:55 | `mode_set` switches the mode and is logged |
| Armature.Skeleton.NewBone | utils.py:15 | `edit_bones.new` adds Blender's blank bone under a free name |
| Armature.Skeleton.GetOrNewBone | vrmauto.py:101 | `get(name) or new(name)` leaves the bone in the table, created blank if it was missing |
| Armature.Skeleton.SetHead | vrmauto.py:102 | assigns the head of one bone, nothing else |
| Armature.Skeleton.SetTail | vrmauto.py:103 | assigns the tail of one bone, nothing else |
| Armature.Skeleton.SetParent | vrmauto.py:104 | assigns the parent link of one bone to a bone of the table, or clears it |
| Armature.Skeleton.SetDeform | vrmauto.py:246 | assigns `use_deform` of one bone |
| Armature.Skeleton.SetLayers | vrmauto.py:19 | assigns the 32-entry layer mask of one bone |
| Armature.Skeleton.SetSpring | vrmauto.py:311-315 | assigns the spring settings of one bone |
| Armature.Skeleton.RenameBone | vrmauto.py:60 | `bone.name = to` moves the bone to the new key, and parent links follow it |
| Armature.Skeleton.FindConstraint | vrmauto.py:8 | the generator search over the constraint list returns the first constraint carrying the name |
| Armature.Skeleton.NewConstraint | vrmauto.py:9-12 | `constraints.new(type)` and `c.name = name` append a fresh constraint and return its position |
| Armature.Skeleton.SetConstraintField | vrmauto.py:14 | `setattr` writes one attribute of one constraint |
| Armature.Skeleton.AssignFields | vrmauto.py:13-14 | the `setattr` loop over the keyword arguments writes all of them into the constraint's attributes |
| Armature.Skeleton.DriverRemove | vrmauto.py:146 | `driver_remove` empties one quaternion channel |
| Armature.Skeleton.DriverAdd | vrmauto.py:147 | `driver_add` gives the channel a driver, a blank one if it had none |
| Armature.Skeleton.SetScript | vrmauto.py:148-151 | makes the driver scripted with the given expression |
| Armature.Skeleton.AddVariable | vrmauto.py:152-159 | appends one variable to the driver |
| VrmAuto.AddBoneConstraint | vrmauto.py:7-15 | the bone's constraint list becomes the upsert, and the returned position is the upserted constraint's, inside the list |
| VrmAuto.SetBoneLayer | vrmauto.py:17-19 | the table becomes the layer loop's result, and the call raises `KeyError` exactly when a listed bone is missing |
| VrmAuto.RenameBones | vrmauto.py:57-71 | after the loop every bone sits under its new name, with its parent link renamed, and the table stays well formed |
| VrmAuto.AllRenamedWellFormed | vrmauto.py:57-71 | once every bone is renamed, every parent link points inside the table |
| VrmAuto.SymmetrizeBoneNames | vrmauto.py:44-73 | the bone names are exactly the symmetrized old names, each bone is otherwise unchanged apart from its renamed parent link (constraint subtargets and drivers are not rewritten), and the mode is entered and restored |
| VrmAuto.SpringConfiguredSpec | vrmauto.py:302-315 | exactly the bones whose names match the spring pattern get the fixed spring settings, nothing else changes, and a second run changes nothing |
| VrmAuto.SetSpringBones | vrmauto.py:308-315 | the loop over the pose bones leaves the table configured as above |
| VrmAuto.FingerNamesDistinct | vrmauto.py:81-85 | the five finger bone names are pairwise different for every finger and side |
| VrmAuto.BendDriverRange | vrmauto.py:149-151 | the driver is 0 at rest (scale 1); at the scale limit 0.5 it is -1, or +1 for a negative axis |
| VrmAuto.CheckBones | vrmauto.py:91-93 | the check passes exactly when every bone exists, and otherwise names the first missing one |
| VrmAuto.FingerEditBones | vrmauto.py:96-106 | the control bone is placed as `FingerCtrlPlaced` says, and the mode is entered and restored |
| VrmAuto.FingerCtrlPlacedWellFormed | vrmauto.py:100-104 | placing the control bone adds exactly it and keeps the table well formed |
| VrmAuto.FingerFollow | vrmauto.py:118-127 | the two `set_rotation_follow` calls leave the table as `FingerFollowing` says |
| VrmAuto.FingerFollowingAt | vrmauto.py:118-127 | the third segment follows the second, the first follows the control bone, and no other bone changes |
| VrmAuto.FingerLimitScale | vrmauto.py:130-140 | the scale limit is upserted with its owner space and then every bound is set |
| VrmAuto.FingerLimitedAt | vrmauto.py:130-140 | the control bone carries the scale limit with owner space and bounds, the two follows stay, and nothing else changes |
| VrmAuto.ReplaceBendDriver | vrmauto.py:146-159 | the channel's driver is replaced by the scripted bending driver reading the control bone, and no other channel changes |
| VrmAuto.FingerDriver | vrmauto.py:143-160 | an axis outside the table raises `KeyError` with the drivers unchanged; otherwise the middle segment's channel gets the bending driver |
| VrmAuto.FingerBuiltDrivers | vrmauto.py:143-160 | after the bone check, the outcome is `Ok` exactly for a known axis, and only the middle segment's channel changes |
| VrmAuto.FingerFinish | vrmauto.py:117-163 | the constraints, the driver and the layer move leave the rig and outcome `FingerFinished` describes |
| VrmAuto.FingerFinishedBones | vrmauto.py:117-163 | after the edit step, the control bone gains the scale limit, the outer segments their follows, the three segments move to layer 1 when the axis is known, and nothing else changes |
| VrmAuto.FingerBuiltBones | vrmauto.py:96-163 | every bone the synthesis leaves is as the synthesis predicate says: the placed control bone, the constrained segments, the rest unchanged |
| VrmAuto.GenFingerCtrl | vrmauto.py:75-163 | the method leaves the rig and outcome `FingerAuto` describes, keeps the armature well formed, and restores the mode |
| VrmAuto.FingerAutoOutcome | vrmauto.py:75-163 | a missing segment or hand raises the check's error with the rig unchanged; otherwise the call succeeds exactly for a known axis, and only that channel's driver changes |
| VrmAuto.FingerAutoCarries | vrmauto.py:75-163 | the control bone starts at the first segment's head, reaches 1.5 times the finger length and hangs from the hand; all three constraints are in place; the segments move to layer 1 for a known axis; no other bone changes |
| VrmAuto.FingerAutoBuilt | vrmauto.py:90-93 | once the check passes, the call is the synthesis proper |
| VrmAuto.FingerAutoWellFormed | vrmauto.py:75-163 | whatever the outcome, the table stays well formed |
| VrmAuto.FingerBonesAgain | vrmauto.py:96-163 | a table already synthesised comes out of a second synthesis unchanged |
| VrmAuto.FingerAutoIdempotent | vrmauto.py:75-163 | running `gen_finger_ctrl` a second time changes nothing and ends the same way |
| VrmAuto.LimbNamesDistinct | vrmauto.py:171-175 | the limb bone names are pairwise different wherever it matters, for every kind and side |
| VrmAuto.PolePlacement | vrmauto.py:192-194 | the pole bone's head is 0.24 along the pole direction from the lower bone's head, and its tail 0.12 further |
| VrmAuto.LimbPlacedGeometry | vrmauto.py:189-195 | with non-parallel bones, the IK bone starts at the lower bone's tail along its direction with length 0.12; the pole bone has length 0.12 along the normalised pole vector, two lengths from the lower bone's head; both hang from the root; no other bone changes |
| VrmAuto.PlaceLimbBones | vrmauto.py:189-195 | the IK and pole bones are fetched or created and given head, tail and the root as parent |
| VrmAuto.LimbEditBones | vrmauto.py:181-198 | parallel upper and lower bones are refused with the table unchanged; otherwise the IK and pole bones are placed; the mode is restored either way |
| VrmAuto.LimbPlacedAgain | vrmauto.py:189-195 | placing the IK and pole bones again from limb bones with the same geometry changes nothing |
| VrmAuto.IkPropsSplit | vrmauto.py:201-213 | the call's keyword arguments plus the pole angle set afterwards are all of the IK constraint's attributes |
| VrmAuto.SetIk | vrmauto.py:200-214 | the lower bone carries the IK constraint towards the IK bone and the pole bone, with the pole angle its kind calls for (for an arm, 180 or 0 degrees by the sign of the 2D cross term of the lower bone's vector in its parent's rest frame, which the caller supplies; for a leg, -90); no other bone changes |
| VrmAuto.LimbRigging | vrmauto.py:200-224 | `set_ik` and the hand step leave the rig and outcome `LimbRigged` describes |
| VrmAuto.LimbRiggedBones | vrmauto.py:200-224 | the lower bone gets the IK constraint with the kind's pole angle; an arm's hand gets the follow constraint and moves to layer 1; a missing hand of an arm raises `KeyError` after the IK constraint; nothing else changes |
| VrmAuto.LimbRiggedAgain | vrmauto.py:200-224 | repeating the constraint steps changes nothing |
| VrmAuto.LimbAutoChecked | vrmauto.py:177-187 | once the check passes, `gen_limbs_ik` is the synthesis guarded by the parallel test |
| VrmAuto.GenLimbsIk | vrmauto.py:165-224 | the method leaves the rig and outcome `LimbAuto` describes, keeps the armature well formed, and restores the mode |
| VrmAuto.LimbAutoOutcome | vrmauto.py:165-224 | a missing root, upper or lower bone fails the check with the rig unchanged; parallel bones are refused with the rig unchanged; otherwise only an arm without a hand fails, with `KeyError`; drivers never change |
| VrmAuto.LimbAutoBones | vrmauto.py:165-224 | the synthesis adds exactly the IK and pole bones where the edit step puts them, changes only the lower bone's constraints, gives it the IK constraint with the pole angle picked by the X component of its parent-relative vector, and for an arm gives the hand its follow constraint and layer 1 |
| VrmAuto.LimbAutoWellFormed | vrmauto.py:165-224 | whatever the outcome, the table stays well formed |
| VrmAuto.LimbAutoIdempotent | vrmauto.py:165-224 | running `gen_limbs_ik` a second time changes nothing and ends the same way |
| VrmAuto.LimbParallelAsWritten | vrmauto.py:187 | as written, limb bones with the same vector pass the guard and the edit step leaves a pole bone with its tail on its head (and a leg reports success), while the intended guard refuses them with the rig unchanged |
| VrmAuto.ParallelAsWrittenPlaced | vrmauto.py:187-195 | as written, parallel limb bones go on to the synthesis, whose edit step collapses the pole bone |
| VrmAuto.LimbAsWrittenChecked | vrmauto.py:177-198 | once the check passes, the code as written is the synthesis without any guard |
| VrmAuto.ZeroPoleCollapses | vrmauto.py:192-194 | a zero pole direction places the pole bone with its tail on its head |
| VrmAuto.PoleVanishes | vrmauto.py:192 | limb bones with the same vector give the zero pole direction |
| VrmAuto.LimbAutoRefusesParallel | vrmauto.py:187-188 | with the intended guard, limb bones with the same vector raise the parallel error and change nothing |
| VrmAuto.TwistNamesDistinct | vrmauto.py:232-234 | the lower arm, the hand and the three sub-arm bones all have different names |
| VrmAuto.PlaceSubArm | vrmauto.py:245-249 | one turn of the edit loop: the sub-arm bone, found or new, deforms, lies along its third of the lower arm and hangs from it; no other bone changes |
| VrmAuto.TwistEditBones | vrmauto.py:237-252 | without the lower arm, `KeyError` with the table unchanged; otherwise the three sub-arm bones are placed as `TwistPlaced` says; the mode is restored |
| VrmAuto.TwistPlacedAll | vrmauto.py:244-249 | the edit loop writes exactly the three sub-arm bones, each placed along the arm |
| VrmAuto.SubArmsTile | vrmauto.py:243-248 | the three sub-arm bones tile the lower arm end to end, each a third of its vector |
| VrmAuto.TwistFollow | vrmauto.py:266-269 | the follow loop leaves the table as `TwistFollowing` says |
| VrmAuto.TwistFollowingAll | vrmauto.py:266-269 | each sub-arm bone gets its twist-follow constraint on the next bone, or on the hand for the last, and nothing else changes |
| VrmAuto.TwistInfluenceRises | vrmauto.py:268 | the influences rise along the arm, from 0.3 to 0.9 next to the hand |
| VrmAuto.TwistBeforeLayers | vrmauto.py:237-269 | the edit loop followed by the follow loop rewrites the three sub-arm bones and nothing else |
| VrmAuto.TwistRig | vrmauto.py:255-300 | the follow loop and the layer move leave the rig and outcome `TwistRigged` describes |
| VrmAuto.FixArmTwist | vrmauto.py:227-300 | the method leaves the rig and outcome `TwistAuto` describes, keeps the armature well formed, and restores the mode |
| VrmAuto.TwistAutoMissing | vrmauto.py:242 | without the lower arm, `fix_arm_twist` raises `KeyError` naming it and changes nothing |
| VrmAuto.TwistAutoBones | vrmauto.py:227-300 | with the lower arm present the call succeeds, leaves the drivers alone, and rewrites exactly the three sub-arm bones to their finished form |
| VrmAuto.TwistBoneShape | vrmauto.py:244-249 | each finished sub-arm bone has a full layer mask, uniquely named constraints and the lower arm as parent |
| VrmAuto.TwistAutoWellFormed | vrmauto.py:227-300 | whatever the outcome, the table stays well formed |
| VrmAuto.TwistAutoIdempotent | vrmauto.py:227-300 | running `fix_arm_twist` a second time changes nothing and ends the same way |
| VrmRig.ArmatureSupport.constructor | vrmrig.py:8-9 | the support object wraps the given armature |
| VrmRig.ArmatureSupport.EnterEditMode | vrmrig.py:12-14 | remembers the mode and enters edit mode, issuing a mode change only when not already in edit mode |
| VrmRig.ArmatureSupport.LeaveEditMode | vrmrig.py:17-19 | restores the remembered mode, issuing a mode change only when the mode differs |
| VrmRig.ArmatureSupport.GetEditBone | vrmrig.py:21-26 | returns the bone when it exists or creation is asked for, then creating it blank; returns `None` and changes nothing otherwise |
| VrmRig.ArmatureSupport.GetBone | vrmrig.py:31-32 | `bones.get` returns the bone exactly when it exists |
| VrmRig.ArmatureSupport.GetBoneConstraint | vrmrig.py:34-40 | a missing pose bone raises `KeyError` with nothing changed; otherwise find-or-append without attributes, returning the constraint's position |
| VrmRig.ConstrainBone | vrmrig.py:60-65 | `get_bone_constraint` followed by attribute assignments is the constraint upsert, or `KeyError` with nothing changed |
| VrmRig.FingerRigNamesDistinct | vrmrig.py:45-52 | the five names of `FingerCtrl` are pairwise different |
| VrmRig.RotationDriverRange | vrmrig.py:82 | the driver is 0 at rest; at scale 0 it is 1, or -1 for a negative axis; in between it stays on that side of 0 |
| VrmRig.FingerRigNewBones | vrmrig.py:54-58 | `new_bones` never touches drivers, and succeeds only with both segments and the control bone in the table |
| VrmRig.FingerRigPlacedBones | vrmrig.py:54-58 | the control bone spans from the first segment's head to the third segment's tail and hangs from the hand if there is one |
| VrmRig.FingerRigOutcome | vrmrig.py:97-103 | a missing first or third segment raises `AttributeError` with the control bone already created (and given its head); otherwise the call succeeds exactly for a known axis with the middle segment present; a bad axis raises `KeyError` and a missing middle segment `AttributeError`, with the drivers unchanged |
| VrmRig.FingerRigFinishedBones | vrmrig.py:99-103 | after the edit scope, the outer segments follow, the control bone carries the scale limit, and the three segments move to layer 1 |
| VrmRig.FingerRigFinishedInPlace | vrmrig.py:99-103 | the successful steps after the edit scope are in-place writes of the four bones, in the source's order |
| VrmRig.FingerRigFinishedFails | vrmrig.py:99-101 | a failing driver step leaves the two follow constraints in place and nothing else |
| VrmRig.FingerRigFinishedKeeps | vrmrig.py:99-103 | after the edit scope, no bone is added and no bone but the four changes |
| VrmRig.FingerRigBones | vrmrig.py:97-103 | on success, the control bone is placed and carries the scale limit, the outer segments follow, and the segments are on layer 1 |
| VrmRig.FingerRigKeeps | vrmrig.py:97-103 | `generate` adds at most the control bone and changes no bone but the four |
| VrmRig.FingerRigCarries | vrmrig.py:97-103 | on success, the three constraints are in place with their attributes |
| VrmRig.FingerRigNewBonesWellFormed | vrmrig.py:54-58 | the edit scope keeps the table well formed however it ends |
| VrmRig.FingerRigFinishedWellFormed | vrmrig.py:99-103 | the steps after the edit scope keep the table well formed |
| VrmRig.FingerRigWellFormed | vrmrig.py:97-103 | whatever the outcome, `generate` keeps the table well formed |
| VrmRig.FingerRigNewBonesAgain | vrmrig.py:54-58 | repeating the edit scope changes nothing, however it ended |
| VrmRig.FingerRigNewBonesPlaced | vrmrig.py:54-58 | on a table whose control bone is already placed, the edit scope changes nothing |
| VrmRig.FingerRigFinishedKeepsPlaced | vrmrig.py:99-103 | the steps after the edit scope move no bone, so the control bone stays placed |
| VrmRig.FingerRigFinishedAgain | vrmrig.py:99-103 | repeating the steps after the edit scope changes nothing |
| VrmRig.FingerRigFinishedOkAgain | vrmrig.py:99-103 | repeating the successful steps after the edit scope changes nothing |
| VrmRig.FingerRigIdempotent | vrmrig.py:97-103 | running `generate` a second time changes nothing and ends the same way |
| VrmRig.FingerCtrl.constructor | vrmrig.py:45-52 | the controller holds a fresh `ArmatureSupport` of the armature, the finger's bone names and the bending axis |
| VrmRig.FingerCtrl.NewBones | vrmrig.py:54-58 | the method leaves the rig and outcome `FingerRigNewBones` describes |
| VrmRig.FingerCtrl.RotationFollow | vrmrig.py:60-65 | a missing follower raises `KeyError` with nothing changed; otherwise the follower carries the rotation-follow constraint on the followed bone |
| VrmRig.FingerCtrl.LimitCtrlScale | vrmrig.py:67-74 | the control bone carries the scale limit with every bound and the local owner space, or `KeyError` with nothing changed |
| VrmRig.FingerCtrl.RotationDriver | vrmrig.py:76-90 | an unknown axis raises `KeyError`; a missing pose bone raises `AttributeError`; otherwise the channel's driver is replaced by the bending driver and no other channel changes |
| VrmRig.FingerCtrl.SetBoneLayer | vrmrig.py:92-95 | the table becomes the layer loop's result, and a missing bone raises `AttributeError` |
| VrmRig.FingerCtrl.Finish | vrmrig.py:99-103 | the steps after the edit scope leave the rig and outcome `FingerRigFinished` describes |
| VrmRig.FingerCtrl.Generate | vrmrig.py:97-103 | the method leaves the rig and outcome `FingerRigAuto` describes, keeps the armature well formed, and restores the mode through the edit scope |
| VrmRig.LimbRigNamesDistinct | vrmrig.py:107-116 | the eight names of `LimbsCtrl` are pairwise different |
| VrmRig.PlacedBone | vrmrig.py:123-126 | one stanza adds at most the named bone |
| VrmRig.PlacedBoneIdle | vrmrig.py:123-126 | placing a bone where it already is changes nothing |
| VrmRig.PlacedBoneFetched | vrmrig.py:123-126 | fetching or creating the bone and then placing it is placing it |
| VrmRig.PlacedBoneWellFormed | vrmrig.py:123-126 | placing a bone keeps the table well formed when the parent is in it |
| VrmRig.PlacedArmAt | vrmrig.py:123-131 | the arm stanzas place the arm's IK and pole bones and change no other bone |
| VrmRig.PlacedArmFetched | vrmrig.py:123-131 | the arm stanzas keep everything of the two bones but their head, tail and parent |
| VrmRig.PlacedLegAt | vrmrig.py:133-141 | the leg stanzas place the leg's IK and pole bones and change no other bone |
| VrmRig.PlacedLegFetched | vrmrig.py:133-141 | the leg stanzas keep everything of the two bones but their head, tail and parent |
| VrmRig.LimbRigNewBones | vrmrig.py:118-141 | `new_bones` never touches drivers, and succeeds only with both lower limb bones present |
| VrmRig.LimbRigNewBonesOk | vrmrig.py:118-141 | with both lower limb bones present, the edit scope is the arm stanzas followed by the leg stanzas |
| VrmRig.LimbRigPlaced | vrmrig.py:118-141 | on success the four bones are where `new_bones` puts them, measured from the unchanged lower limb bones |
| VrmRig.LimbRigNewBonesKeeps | vrmrig.py:118-141 | a successful edit scope adds exactly the four bones and leaves every other bone as it was |
| VrmRig.LimbRigNewBonesReuses | vrmrig.py:118-141 | bones that already existed keep their constraints and layers |
| VrmRig.LimbRigOffsets | vrmrig.py:118-141 | the IK bones start at the lower bones' tails and point 0.12 along X; the arm pole sits 0.24 above the lower arm and points up; the leg pole sits 0.24 below the lower leg and points down; all hang from `Root` |
| VrmRig.LimbRigScopeFails | vrmrig.py:118-134 | a missing lower arm fails after creating the arm IK bone; a missing lower leg fails after the arm bones and the leg IK bone were created |
| VrmRig.LimbRiggedBones | vrmrig.py:159-163 | a missing hand raises `KeyError` with the rig unchanged; otherwise the hand follows the arm IK bone and the lower arm and lower leg carry their IK constraints with pole angles 180 and -90; nothing else changes |
| VrmRig.LimbRiggedKeepsPlaced | vrmrig.py:161-163 | the constraint steps move no bone |
| VrmRig.LimbRigOutcome | vrmrig.py:159-163 | the outcome is the lower arm's `AttributeError`, else the lower leg's, else the hand's `KeyError`, else success; drivers never change |
| VrmRig.LimbRigConstraints | vrmrig.py:159-163 | the hand, lower arm and lower leg carry their constraints with the stated attributes |
| VrmRig.LimbRigKeeps | vrmrig.py:159-163 | `generate` adds at most the four bones and changes no other bone but the hand and the two lower limb bones |
| VrmRig.LimbRigNewBonesWellFormed | vrmrig.py:118-141 | the edit scope keeps the table well formed however it ends |
| VrmRig.LimbRiggedWellFormed | vrmrig.py:161-163 | the constraint steps keep the table well formed |
| VrmRig.LimbRigWellFormed | vrmrig.py:159-163 | whatever the outcome, `generate` keeps the table well formed |
| VrmRig.LimbRigNewBonesAgain | vrmrig.py:118-141 | repeating the edit scope changes nothing, however it ended |
| VrmRig.LimbRigNewBonesPlaced | vrmrig.py:118-141 | on a table where the four bones are already placed, the edit scope changes nothing |
| VrmRig.LimbRiggedAgain | vrmrig.py:161-163 | repeating the constraint steps changes nothing |
| VrmRig.LimbRigIdempotent | vrmrig.py:159-163 | running `generate` a second time changes nothing and ends the same way |
| VrmRig.LimbsCtrl.constructor | vrmrig.py:107-116 | the controller holds a fresh `ArmatureSupport` of the armature and the side's bone names |
| VrmRig.LimbsCtrl.PlaceBone | vrmrig.py:123-126 | one stanza leaves the table as `PlacedBone` says |
| VrmRig.LimbsCtrl.NewBones | vrmrig.py:118-141 | the method leaves the rig and outcome `LimbRigNewBones` describes |
| VrmRig.LimbsCtrl.HandTransformsFollow | vrmrig.py:143-148 | the hand carries the transforms-follow constraint on the arm IK bone, or `KeyError` with nothing changed |
| VrmRig.LimbsCtrl.Ik | vrmrig.py:150-157 | the bone carries the IK constraint with target, pole, chain length 2 and pole angle, or `KeyError` with nothing changed |
| VrmRig.LimbsCtrl.Rigging | vrmrig.py:161-163 | the steps after the edit scope leave the rig and outcome `LimbRigRigged` describes |
| VrmRig.LimbsCtrl.Generate | vrmrig.py:159-163 | the method leaves the rig and outcome `LimbRigAuto` describes, keeps the armature well formed, and restores the mode through the edit scope |
| Utils.EditedSpec | utils.py:12-16 | with creation a missing name is added as Blender's blank bone and no existing bone changes; without creation nothing changes |
| Utils.EditedAgain | utils.py:12-16 | the edit lookup keeps the table well formed, and a second lookup creates nothing |
| Utils.EditedCreates | utils.py:12-16 | the edit lookup with creation is the get-or-create of the edit-bone collection |
| Utils.LayerOne | utils.py:31-32 | `set_layer` moves a present bone to the one layer and changes nothing else; a missing bone changes nothing; repeating it changes nothing |
| Utils.ConstraintAgain | utils.py:21-29 | repeating a constraint upsert on a bone changes nothing |
| Utils.BoneHolder.constructor | utils.py:4-7 | the holder keeps the object and the name |
| Utils.BoneHolder.GetBone | utils.py:9-10 | `bones[name]` returns the bone when it exists and raises `KeyError` naming it otherwise, never `None` |
| Utils.BoneHolder.Edit | utils.py:12-16 | the table becomes the edit lookup's result, and the edit bone is returned exactly when it exists afterwards |
| Utils.BoneHolder.Pose | utils.py:18-19 | `pose.bones.get` returns the bone exactly when it exists |
| Utils.BoneHolder.UpsertConstraint | utils.py:21-29 | a missing pose bone raises `AttributeError` with nothing changed; otherwise the bone's constraint list becomes the upsert and the returned position holds the named constraint |
| Utils.BoneHolder.SetLayer | utils.py:31-32 | the table becomes the one-name layer loop's result, and a missing bone raises `KeyError` |
| Fingers.CheckHolders | fingers.py:17-19 | the loop passes exactly when every holder's bone exists; otherwise `bone()` raises `KeyError` for the first missing one |
| Fingers.PlaceController | fingers.py:21-30 | the control bone is created if needed, starts at the first segment's head, reaches 1.5 times the finger length and hangs from the hand; the mode is entered and restored |
| Fingers.RotationFollow | fingers.py:33-40 | the follower carries the bending-follow constraint on the leader, or `AttributeError` with nothing changed |
| Fingers.LimitScaleOf | fingers.py:45-51 | the control bone carries the scale limit with owner space and every bound, or `AttributeError` with nothing changed |
| Fingers.RotationDriver | fingers.py:55-71 | an unknown axis raises `KeyError`, a missing pose bone `AttributeError`, both with the drivers unchanged; otherwise the middle segment's channel gets the bending driver |
| Fingers.SetLayers | fingers.py:75-76 | the table becomes the layer loop's result, stopping with `KeyError` at the first missing bone |
| Fingers.FollowAndLimit | fingers.py:33-52 | the two follows and the scale limit leave the same table as the first-generation script's |
| Fingers.FinishController | fingers.py:33-76 | the steps after the edit scope leave the same rig and outcome as the first-generation script's |
| Fingers.BuildController | fingers.py:21-76 | once the check passes, the rig and outcome are the first-generation synthesis proper, and the mode is restored |
| Fingers.GenerateFingerController | fingers.py:5-76 | the method leaves the rig and outcome `FingerController` describes, keeps the armature well formed, and issues mode changes only when the check passes |
| Fingers.FingerControllerIsAuto | fingers.py:5-76 | the second-generation script leaves the same rig as `gen_finger_ctrl`; only a missing bone raises `KeyError` instead of `AssertionError` |
| Fingers.FingerControllerOutcome | fingers.py:17-76 | the first missing segment or hand, in the checked order, raises `KeyError` with the rig unchanged; otherwise success exactly for a known axis, and only that channel's driver changes |
| Fingers.FingerControllerBuilt | fingers.py:17-19 | once the check finds every bone, the call is the first-generation synthesis proper |
| Fingers.FingerControllerIdempotent | fingers.py:5-76 | running the synthesis a second time changes nothing and ends the same way |
| Fingers.FingerControllerAsWrittenFails | fingers.py:15 | as written, every call raises `TypeError` and builds nothing, while the intended call on a complete hand with a known axis succeeds and creates the control bone |

## Left out

- The `TypeError` raised when the object is `None` or not an armature (vrmauto.py:45-46, fingers.py:6-7 and the
  other entry points): the model always works on an armature object.
- Custom shapes of the finger control bone are not modelled:
  - `get_finger_bone_shape` (vrmauto.py:21-42), which creates a mesh object in the scene;
  - the custom shape and its rotation (vrmauto.py:108-113).
- `repaint_weight` of `fix_arm_twist` (vrmauto.py:272-297): it edits vertex groups of child meshes, which are
  outside the armature.
- The operator, the panel and the add-on registration (vrmrig.py:166-206), and the script entry at
  vrmauto.py:317-328: these are Blender UI and glue.
- `print(c)` at vrmauto.py:11: console output only.
- The unused `bone_pattern` of `FingerCtrl` (vrmrig.py:43).
- `VrmAuto.GenLimbsIk`: requires the Euclidean lengths of the lower limb bone and of the pole vector as
  parameters (`LimbLengths`). The reals of Dafny have no square root, so `normalized()` takes the length from
  its caller. It also takes the lower bone's vector in its parent's rest frame (`lowerRest`, read by `set_ik`
  at vrmauto.py:210) as a parameter, since the parent's rest rotation is not modelled; the model does not relate
  that vector to the bones' armature-space heads and tails.
- Leaving edit mode, Blender deletes every edit bone whose tail lies on its head and re-parents its children.
  The model does not do this: the table an edit scope leaves is the edit-mode table. A bone made by
  `edit_bones.new` starts with its tail on its head (`IsBlank`), so a bone created and not yet placed when an
  exception interrupts the scope, or one placed with zero length, stays in the model but not in Blender. The
  members whose stated table includes such a bone are listed below, one per line.
- `VrmRig.FingerRigNewBones`: on a missing first segment, the table keeps the new control bone with its tail on
  its head. Blender deletes it when `edit_mode` restores the mode.
- `VrmRig.FingerRigOutcome`: on a missing first segment the new control bone stays in the table; Blender deletes
  it on leaving edit mode.
- `VrmRig.FingerCtrl.NewBones`: the error-path table keeps the unplaced control bone, as `FingerRigNewBones`.
- `VrmRig.FingerCtrl.Generate`: after an error in `new_bones`, the rig keeps the unplaced control bone.
- `VrmRig.LimbRigNewBones`: on a missing lower arm or leg, the table keeps the IK bone created just before, with
  its tail on its head. Blender deletes it on leaving edit mode.
- `VrmRig.LimbRigScopeFails`: the IK bone created last before the failure stays unplaced in the table; Blender
  deletes it (the arm bones placed before a missing lower leg do stay).
- `VrmRig.LimbsCtrl.NewBones`: the error-path table keeps the unplaced IK bone, as `LimbRigNewBones`.
- `VrmRig.LimbsCtrl.Generate`: after an error in `new_bones`, the rig keeps the unplaced IK bone.
- `VrmAuto.LimbParallelAsWritten`: the collapsed pole bone is the edit-mode table. Leaving edit mode at
  vrmauto.py:197 deletes it, so after the call the IK constraint names a pole bone that no longer exists.
- `VrmAuto.ParallelAsWrittenPlaced`: states the edit-mode table, before Blender deletes the collapsed pole bone.
- `VrmAuto.ZeroPoleCollapses`: states the edit-mode table, before Blender deletes the collapsed pole bone.
- `BoneNames.IsDigit`: the table of Unicode decimal digits (category Nd) is the one of Unicode 15.0. The Python
  inside a given Blender release may use an older Unicode version with fewer digit runs.
- Floating-point rounding is not modelled:
  - vectors and attributes are exact reals;
  - `math.radians` is kept symbolic;
  - the pole angle is in degrees.
- `Armature.Renamed`: Blender's bone rename also rewrites every constraint `subtarget` and `pole_subtarget`
  naming the old bone, and the driver data paths (`pose.bones["old"]`) and driver variable bone targets that
  name it. The model re-points parent links only; constraint fields and drivers keep the old name.
- `Armature.RenamedWellFormed`: well-formedness covers parent links only, so it says nothing about constraint
  subtargets or drivers naming the renamed bone, which the model does not rewrite.
- `Armature.Skeleton.RenameBone`: as `Armature.Renamed`, constraint subtargets and drivers keep the old name.
- `VrmAuto.RenameBones`: as `Armature.Renamed`, constraint subtargets and drivers keep the old names.
- `VrmAuto.SymmetrizeBoneNames`: constraint subtargets and drivers keep the old names, where Blender rewrites
  them.
- `VrmAuto.SymmetrizeBoneNames`: requires that the new names do not collide (`RenamesApart`). Blender would
  instead suffix a colliding name with `.001`, which is not modelled.
- The edit, pose and data views of a bone are one entry of one table, so `get_pose_bone` and `get_bone` of
  `ArmatureSupport` read the same table. Edit bones only exist in edit mode, but the model does not tie lookups
  to the mode: the mode is tracked (field and log) but does not gate access.
- `edit_mode(func)` of `ArmatureSupport` is modelled as `EnterEditMode`, the call of `new_bones`, and
  `LeaveEditMode`, not as a method taking a function.
- Driver variable targets: only the bone, transform type and space of `var.targets[0]` are modelled.
  - The `t.id` object is left out (vrmauto.py:156, vrmrig.py:87, fingers.py:68).
  - Driver expressions are evaluated only for the four expressions these scripts write (`Armature.Evaluate`).
- `Utils.BoneHolder.UpsertConstraint`: returns the constraint's position in the bone's list rather than the
  constraint object. The caller writes further attributes through that position.
- `Fingers.GenerateFingerController`: models the evident intent of fingers.py, not every line as written.
  - Line 15 passes a third argument to `BoneHolder`. This is a Findings row below.
  - Line 9 builds `Armature(obj.data)`, and line 22 reads `armature.mode`. The model reads the object's mode,
    as vrmauto.py:97 does.
  - Line 27 reads `bone3.tail` and `bone1.head` of holders, which have no such attributes. The model reads the
    edit bones.
  - Line 36 targets the armature data. The model targets the armature object, as vrmauto.py:121 does.
- `Fingers.CheckHolders`: the `AssertionError` of fingers.py:19 is never raised. `bone()` indexes with
  `bones[name]`, which raises `KeyError` first; the model follows that code.

## Findings

| source | as written | input that shows it | evidently intended | confidence | as-written member | corrected member |
|---|---|---|---|---|---|---|
| vrmauto.py:187 | `upper.vector.cross(lower.vector) == 0` compares a `Vector` with the integer 0, which is never equal, so the parallel guard never fires | upper and lower arm bones with the same vector, e.g. both (0, 0, 1): the cross product is the zero vector, the guard passes, and the edit step places the pole bone with its tail on its head; Blender deletes that bone on leaving edit mode, so the IK constraint set afterwards names a missing pole bone | refuse parallel bones with the `AssertionError`, leaving the rig unchanged | not executed | VrmAuto.LimbParallelAsWritten | VrmAuto.LimbAutoRefusesParallel |
| utils.py:28 | `c[k] = v` is subscript assignment, which writes ID properties, not attributes; a constraint holds no ID properties, so the first write raises `TypeError` after the new constraint was appended and named, and `subtarget`, `target_space` and the other settings stay unset | `rotation_follow(bone3, bone2)` on a bone without the constraint: `TypeError`, and the new `VRMAUTO_BendingFollow` stays on the bone without a `subtarget` | `setattr(c, k, v)`, as `add_bone_constraint` at vrmauto.py:14 does | not executed | Constraints.IdPropsCounterexample | Utils.BoneHolder.UpsertConstraint |
| fingers.py:15 | `BoneHolder(obj, name, True)` passes three arguments to a constructor taking two, so every call raises `TypeError` | any call, e.g. `generate_finger_controller(obj, 'Index', 'L', 'X')` on a complete hand | `BoneHolder(obj, name)`, with creation requested later by `ctrl.edit(True)` at line 25 | not executed | Fingers.FingerControllerAsWrittenFails | Fingers.GenerateFingerController |
