# Constraint kernel of the aris multibody model

This project models, in Dafny, the constraint kernel of the aris robot
dynamics library: the interactions that tie a marker I on one part to a
marker J on another, the constraints among them (revolute, prismatic,
universal and spherical joints, the single-axis motion driver and the
six-axis general motion), and how an interaction finds its markers when a
model is loaded.

Arithmetic is over `real`, not IEEE doubles. The spatial-algebra
primitives of the library (relative pose, pose-screw, screw transforms,
cross products of screws, axis distances) are not part of this model:
their outputs are inputs of the modelled operations, and a screw
transform used by the general motion is a function parameter.

Modules:

- `Wrappers` — `Option`, `Result` and `Outcome`.
- `Algebra` — column-major direction matrices (entry (r, c) of a matrix
  with `dim` rows at index `c*dim + r`), the generic projection `Project`
  that every constraint uses for its position, velocity and acceleration
  residuals (`ProjectNeg` is the negated form used for acceleration), the
  characterisation of selection matrices (`ProjectSelection`), the unit row
  and the 6×6 identity.
- `Interactions` — reference resolution on load over a part pool modelled
  as a map from part name to the names of its markers (`Resolve`), and the
  `Constraint` class: its two marker references, its dimension and its
  reaction-force buffer of six entries.
- `Joints` — the direction matrices of the revolute, prismatic, spherical
  and universal joints, the specialised position residuals of the
  revolute, prismatic and universal joints, the
  universal joint's recomputed direction row and its acceleration
  coupling term, and the `UniversalJoint` class whose cached matrix is
  rewritten on every query.
- `Motions` — the `Motion` class: prescribed position in actuator units
  (scaled by an offset and a factor), velocity, acceleration, a friction
  model with Coulomb, viscous and acceleration coefficients, the drive
  force split into reaction and friction, the driven residuals and load.
- `GeneralMotions` — the `GeneralMotion` class: prescribed pose matrix,
  velocity screw and acceleration screw stored by exact copies, identity
  direction matrix and its residuals.

The inheritance chain interaction → constraint → motion is modelled by
composition: `Motion` and `GeneralMotion` own a `Constraint` (`con`) of
dimension 1 and 6. Two conventions of the primitives are fixed here
because their definitions are not part of the model: the matrix product
with the `mmi` suffix stores the negated product (the acceleration
residual is `-locCmI·v`), and the sign function returns -1, 0 or 1.

## Model

| member | source | states |
|---|---|---|
| Interactions.ResolveEnd | src/aris_dynamic/aris_dynamic_model_interaction.cpp:34-51 | one end resolves exactly when its part attribute is present and names a part of the pool and its marker attribute is present and names a marker of that part; otherwise the first failing check decides the error: missing part attribute, part not found, missing marker attribute, marker not found, each for that end |
| Interactions.Resolve | src/aris_dynamic/aris_dynamic_model_interaction.cpp:28-54 | no part pool fails first; success exactly when both ends resolve, binding I to (prt_m, mak_i) and J to (prt_n, mak_j); an unresolvable end I gives exactly end I's error; with end I resolvable, an unresolvable end J gives exactly end J's error |
| Interactions.ResolvedMarkersExist | src/aris_dynamic/aris_dynamic_model_interaction.cpp:28-54 | after a successful resolution both bound markers belong to their bound parts in the pool |
| Interactions.Constraint.constructor | src/aris_dynamic/aris_dynamic_model_interaction.cpp:56 | a new constraint has the given markers and dimension and all six reaction forces zero |
| Interactions.Constraint.Cf | src/aris_dynamic/aris_dynamic_model_interaction.cpp:67 | the dim meaningful reaction forces, the first dim entries of the buffer |
| Interactions.Constraint.SetCf | src/aris_dynamic/aris_dynamic_model_interaction.cpp:68 | the first dim reaction forces become the given values; the entries past dim are kept |
| Interactions.Constraint.LoadInteraction | src/aris_dynamic/aris_dynamic_model_interaction.cpp:28-54 | passes exactly when `Resolve` succeeds and fails with its error; marker I is rebound whenever end I resolves, even if end J then fails; marker J only on success |
| Interactions.Constraint.LoadXml | src/aris_dynamic/aris_dynamic_model_interaction.cpp:62-66 | the references as above, then on success the reaction forces from the attribute or zeros; on failure the reaction forces are unchanged |
| Algebra.Project | src/aris_dynamic/aris_dynamic_model_interaction.cpp:69-83 | the product of a dim×6 column-major matrix with a 6-vector, used for the position and velocity residuals; it has dim entries, given by Algebra.ProjectExpanded |
| Algebra.ProjectNeg | src/aris_dynamic/aris_dynamic_model_interaction.cpp:84-89 | the acceleration residual's product: every entry is the negation of the same entry of Algebra.Project |
| Algebra.ProjectExpanded | src/aris_dynamic/aris_dynamic_model_interaction.cpp:69-75 | row r of the projection is the sum over the six columns of entry (r, c), read at column-major index c*dim + r, times v[c] |
| Algebra.ProjectSelection | src/aris_dynamic/aris_dynamic_model_interaction.cpp:69-83 | projecting through a matrix whose row r is the unit row of column sel[r] picks the entries v[sel[r]] |
| Algebra.UnitRowIsSelection | src/aris_dynamic/aris_dynamic_model_interaction.cpp:185-186 | the motion's direction row (1 at the axis, 0 elsewhere) selects the axis |
| Algebra.ProjectUnitRow | src/aris_dynamic/aris_dynamic_model_interaction.cpp:137-138 | projecting through the unit row at an axis gives exactly the axis entry |
| Algebra.Identity6IsSelection | src/aris_dynamic/aris_dynamic_model_interaction.cpp:197-201 | the general motion's 36-entry matrix is the identity, selecting every direction in order |
| Algebra.ProjectIdentity | src/aris_dynamic/aris_dynamic_model_interaction.cpp:197-201 | projecting through the identity returns the vector unchanged |
| Joints.RevoluteLocCmI | src/aris_dynamic/aris_dynamic_model_interaction.cpp:336-348 | the revolute direction matrix, 30 entries in the source's layout |
| Joints.RevoluteLocCmIIsSelection | src/aris_dynamic/aris_dynamic_model_interaction.cpp:336-348 | the revolute 5×6 matrix selects directions 0 to 4 (all but rotation about z) |
| Joints.RevoluteProjection | src/aris_dynamic/aris_dynamic_model_interaction.cpp:336-348 | the generic revolute residual is the first five entries of the screw |
| Joints.RevoluteCp | src/aris_dynamic/aris_dynamic_model_interaction.cpp:349-361 | entries 0-2 are the translation of J in I (pose entries 3, 7, 11); entries 3-4 are the x and y components of I's z axis crossed with J's z axis |
| Joints.CrossWithUnitZ | src/aris_dynamic/aris_dynamic_model_interaction.cpp:357-360 | the z unit vector crossed with z is (-z1, z0, 0) |
| Joints.RevoluteCpZeroIff | src/aris_dynamic/aris_dynamic_model_interaction.cpp:349-361 | the residual is zero exactly when the origins coincide and the two z axes are parallel |
| Joints.RevoluteZeroAlignsAxes | src/aris_dynamic/aris_dynamic_model_interaction.cpp:349-361 | for a unit z column, a zero residual leaves the z axes aligned or opposite (pose entry 10 is 1 or -1) |
| Joints.RevoluteFreeRotation | src/aris_dynamic/aris_dynamic_model_interaction.cpp:349-361 | any rotation about the common z axis gives a zero residual |
| Joints.PrismaticLocCmI | src/aris_dynamic/aris_dynamic_model_interaction.cpp:364-376 | the prismatic direction matrix, 30 entries in the source's layout |
| Joints.PrismaticLocCmIIsSelection | src/aris_dynamic/aris_dynamic_model_interaction.cpp:364-376 | the prismatic 5×6 matrix selects directions 0, 1, 3, 4, 5 |
| Joints.PrismaticCp | src/aris_dynamic/aris_dynamic_model_interaction.cpp:377-386 | the specialised prismatic residual has five entries, the pose-screw without its z translation; Joints.PrismaticCpIsProjection ties it to the generic one |
| Joints.PrismaticCpIsProjection | src/aris_dynamic/aris_dynamic_model_interaction.cpp:377-386 | the specialised residual equals the generic projection through the prismatic matrix, namely [ps0, ps1, ps3, ps4, ps5] |
| Joints.PrismaticFreeSlide | src/aris_dynamic/aris_dynamic_model_interaction.cpp:364-386 | changing the translation along z does not change the residual |
| Joints.SphericalLocCmI | src/aris_dynamic/aris_dynamic_model_interaction.cpp:466-478 | the spherical direction matrix, 18 entries in the source's layout |
| Joints.SphericalLocCmIIsSelection | src/aris_dynamic/aris_dynamic_model_interaction.cpp:466-478 | the spherical 3×6 matrix selects the three translations |
| Joints.SphericalProjection | src/aris_dynamic/aris_dynamic_model_interaction.cpp:466-478 | the generic spherical residual is the first three entries of the screw |
| Joints.UniversalTemplate | src/aris_dynamic/aris_dynamic_model_interaction.cpp:448-460 | the 24-entry matrix the universal joint starts from: rows 0-2 select the translations, row 3 is zero |
| Joints.UniversalLocCmI | src/aris_dynamic/aris_dynamic_model_interaction.cpp:390-410 | the template with entries 15 and 19, row 3's rotational part, replaced by -y2/n and x2/n |
| Joints.UniversalLocCmIRows | src/aris_dynamic/aris_dynamic_model_interaction.cpp:390-410 | rows 0-2 of the universal matrix select the translations, as in the template of lines 448-460; row 3, written at lines 406-407, is (0, 0, 0, -y2/n, x2/n, 0) |
| Joints.UniversalProjection | src/aris_dynamic/aris_dynamic_model_interaction.cpp:390-410 | the universal residual is the three translations followed by (x2·v4 − y2·v3)/n |
| Joints.UniversalDirectionIsUnitCross | src/aris_dynamic/aris_dynamic_model_interaction.cpp:398-407 | for n the length of (x2, y2), the rotational part of row 3 is a unit vector orthogonal to I's z axis and to J's axis, and n times it is I's z axis crossed with J's axis |
| Joints.UniversalCaCorrection | src/aris_dynamic/aris_dynamic_model_interaction.cpp:428-433 | the coupling term 2·jwm·iwn − jwm·iwm − jwn·iwn; when the two axes coincide it is minus the square of the relative angular velocity about that axis |
| Joints.UniversalCaCorrectionRelative | src/aris_dynamic/aris_dynamic_model_interaction.cpp:411-434 | the coupling term equals jwm·(i·(wn−wm)) − iwn·(j·(wn−wm)): each of the two products has one factor that is a component of the relative angular velocity wn − wm |
| Joints.UniversalCaCorrectionCommonRotation | src/aris_dynamic/aris_dynamic_model_interaction.cpp:428-433 | the coupling term is zero when both parts turn with the same angular velocity, in particular when both are at rest |
| Joints.UniversalCp | src/aris_dynamic/aris_dynamic_model_interaction.cpp:435-446 | entries 0-2 are the translation of J in I; entry 3 is zero exactly when the angle between the z axes is the right angle |
| Joints.UniversalJoint.constructor | src/aris_dynamic/aris_dynamic_model_interaction.cpp:448-460 | the cached matrix starts as the 6×4 template |
| Joints.UniversalJoint.LocCmI | src/aris_dynamic/aris_dynamic_model_interaction.cpp:390-410 | only entries 15 and 19 of the cache are rewritten, to -y2/n and x2/n with x2, y2 the dots of the first two columns of I's orientation in its part with J's axis; the result is the cache |
| Joints.UniversalJoint.CptCa | src/aris_dynamic/aris_dynamic_model_interaction.cpp:411-434 | the acceleration residual through the refreshed matrix, with the coupling term of I's z axis (column 2 of its pose in its part) added to entry 3 only |
| Motions.Sgn | src/aris_dynamic/aris_dynamic_model_interaction.cpp:174 | the sign is -1, 0 or 1, agrees in sign with its argument, and is 0 exactly at 0 |
| Motions.FrictionForce | src/aris_dynamic/aris_dynamic_model_interaction.cpp:174 | Coulomb, viscous and acceleration friction: at zero velocity only the acceleration part remains; with non-negative coefficients, no acceleration and a positive velocity it is non-negative |
| Motions.FrictionOdd | src/aris_dynamic/aris_dynamic_model_interaction.cpp:174 | reversing velocity and acceleration reverses the friction force |
| Motions.FrictionAtRest | src/aris_dynamic/aris_dynamic_model_interaction.cpp:174 | no velocity and no acceleration means no friction force |
| Motions.FrictionDissipative | src/aris_dynamic/aris_dynamic_model_interaction.cpp:174 | with non-negative Coulomb and viscous coefficients and no acceleration, the friction force times the velocity is never negative |
| Motions.ScaledMp | src/aris_dynamic/aris_dynamic_model_interaction.cpp:165 | the internal value of an actuator-unit position; identity under offset 0 and factor 1, zero under factor 0 |
| Motions.ActuatorMp | src/aris_dynamic/aris_dynamic_model_interaction.cpp:164 | the actuator-unit position of an internal value; identity under offset 0 and factor 1 |
| Motions.ActuatorOfScaled | src/aris_dynamic/aris_dynamic_model_interaction.cpp:164-165 | for a non-zero factor, scaling a position into internal units and reading it back gives the same position |
| Motions.ScaledOfActuator | src/aris_dynamic/aris_dynamic_model_interaction.cpp:164-165 | for a non-zero factor, reading a stored position and scaling it again gives the stored value |
| Motions.LoadedMpReadBack | src/aris_dynamic/aris_dynamic_model_interaction.cpp:113-130 | saving writes the actuator-unit position and loading stores the attribute as the internal value; reading back returns every stored value unchanged exactly when the offset is 0 and the factor 1 |
| Motions.Motion.constructor | src/aris_dynamic/aris_dynamic_model_interaction.cpp:176-187 | axis, offset, factor and friction coefficients (zeros when absent) as given; position, velocity, acceleration and reaction zero; the direction row is the unit row at the axis |
| Motions.Motion.Mp | src/aris_dynamic/aris_dynamic_model_interaction.cpp:164 | the actuator-unit position is the one that, offset and scaled, gives the stored value |
| Motions.Motion.SetMp | src/aris_dynamic/aris_dynamic_model_interaction.cpp:165 | only the stored position changes, to the offset and scaled value; with a non-zero factor `Mp()` then returns the argument |
| Motions.Motion.SetMv | src/aris_dynamic/aris_dynamic_model_interaction.cpp:167 | only the velocity changes, to the argument |
| Motions.Motion.SetMa | src/aris_dynamic/aris_dynamic_model_interaction.cpp:169 | only the acceleration changes, to the argument |
| Motions.Motion.SetFrcCoe | src/aris_dynamic/aris_dynamic_model_interaction.cpp:163 | only the three friction coefficients change, to the arguments |
| Motions.Motion.MfFrc | src/aris_dynamic/aris_dynamic_model_interaction.cpp:174 | the friction part of the drive force, read from velocity, acceleration and coefficients only; zero at rest |
| Motions.Motion.MfDyn | src/aris_dynamic/aris_dynamic_model_interaction.cpp:172 | the dynamic part of the drive force is the constraint's single reaction force |
| Motions.Motion.Mf | src/aris_dynamic/aris_dynamic_model_interaction.cpp:170 | the total drive force less friction is the reaction force; at rest it is the reaction force |
| Motions.Motion.SetMf | src/aris_dynamic/aris_dynamic_model_interaction.cpp:170-174 | afterwards the total drive force is the argument and the reaction force is what friction does not supply; reaction entries past 0 are kept |
| Motions.Motion.SetMfDyn | src/aris_dynamic/aris_dynamic_model_interaction.cpp:172-173 | afterwards the reaction force is the argument; entries past 0 are kept |
| Motions.Motion.CptCpFromPm | src/aris_dynamic/aris_dynamic_model_interaction.cpp:141-145 | the generic residual with the actuator-unit position added to its single entry; with a current direction row, the pose-screw's axis entry plus the position |
| Motions.Motion.CptCv | src/aris_dynamic/aris_dynamic_model_interaction.cpp:146 | the generic velocity residual plus the prescribed velocity; with a current direction row, the axis entry plus the velocity |
| Motions.Motion.CptCa | src/aris_dynamic/aris_dynamic_model_interaction.cpp:147 | the generic (negated) acceleration residual plus the prescribed acceleration; with a current direction row, minus the axis entry plus the acceleration |
| Motions.Motion.UpdMp | src/aris_dynamic/aris_dynamic_model_interaction.cpp:148 | the prescribed position becomes the measured axis distance, read back exactly for a non-zero factor |
| Motions.Motion.UpdMv | src/aris_dynamic/aris_dynamic_model_interaction.cpp:149-154 | the prescribed velocity becomes the axis entry of the relative velocity screw |
| Motions.Motion.UpdMa | src/aris_dynamic/aris_dynamic_model_interaction.cpp:155-160 | the prescribed acceleration becomes the axis entry of the relative acceleration screw |
| Motions.Motion.LoadXml | src/aris_dynamic/aris_dynamic_model_interaction.cpp:125-139 | a missing `component` fails before anything is written; otherwise axis, offset (default 0), factor (default 1), raw stored position, velocity and acceleration are written; a missing `frc_coe` then fails with the constraint untouched; otherwise the coefficients are written and the load passes exactly when the references resolve, with Resolve's error otherwise; only on success are the reaction force (entries past 0 kept) and the unit direction row refreshed |
| GeneralMotions.GeneralMotion.constructor | src/aris_dynamic/aris_dynamic_model_interaction.cpp:193-196 | prescribed pose, velocity, acceleration and reaction forces start at zero |
| GeneralMotions.GeneralMotion.LocCmI | src/aris_dynamic/aris_dynamic_model_interaction.cpp:197-201 | the direction matrix selects all six directions in order |
| GeneralMotions.GeneralMotion.SetMpm | src/aris_dynamic/aris_dynamic_model_interaction.cpp:231 | the stored pose matrix becomes the 16 given entries |
| GeneralMotions.GeneralMotion.GetMpm | src/aris_dynamic/aris_dynamic_model_interaction.cpp:234 | returns the 16 stored entries |
| GeneralMotions.GeneralMotion.SetMvs | src/aris_dynamic/aris_dynamic_model_interaction.cpp:256 | the stored velocity screw becomes the given one |
| GeneralMotions.GeneralMotion.GetMvs | src/aris_dynamic/aris_dynamic_model_interaction.cpp:276 | returns the stored velocity screw |
| GeneralMotions.GeneralMotion.SetMas | src/aris_dynamic/aris_dynamic_model_interaction.cpp:306 | the stored acceleration screw becomes the given one |
| GeneralMotions.GeneralMotion.GetMas | src/aris_dynamic/aris_dynamic_model_interaction.cpp:326 | returns the stored acceleration screw |
| GeneralMotions.GeneralMotion.Mfs | src/aris_dynamic/aris_dynamic_model_interaction.cpp:327 | the six reaction forces of the constraint |
| GeneralMotions.GeneralMotion.SetMfs | src/aris_dynamic/aris_dynamic_model_interaction.cpp:328 | afterwards `Mfs()` is the given six forces |
| GeneralMotions.GeneralMotion.CptCpFromPm | src/aris_dynamic/aris_dynamic_model_interaction.cpp:202-224 | the copy of the compensating pose-screw equals its generic projection through the identity |
| GeneralMotions.GeneralMotion.CptCv | src/aris_dynamic/aris_dynamic_model_interaction.cpp:225 | the generic velocity residual plus the transformed prescribed velocity screw, entry by entry the relative velocity plus that screw |
| GeneralMotions.GeneralMotion.CptCa | src/aris_dynamic/aris_dynamic_model_interaction.cpp:226 | only the transformed prescribed acceleration screw; it equals the generic residual plus that screw exactly when the markers' velocity cross product is zero |
| GeneralMotions.GenericTermVanishesIff | src/aris_dynamic/aris_dynamic_model_interaction.cpp:225-226 | adding the generic acceleration residual through the identity leaves a screw unchanged exactly when the velocity cross product is zero |
| GeneralMotions.GeneralMotion.CptCaWithGenericTerm | src/aris_dynamic/aris_dynamic_model_interaction.cpp:225-226 | the generic acceleration residual through the identity plus the transformed prescribed screw, entry by entry minus the velocity cross product plus that screw |

## Findings

| source | as written | input that shows it | evidently intended | confidence | as-written member | corrected member |
|---|---|---|---|---|---|---|
| src/aris_dynamic/aris_dynamic_model_interaction.cpp:226 | the general motion's acceleration residual is only the transformed prescribed acceleration screw; it does not start from the generic residual, whereas the velocity residual at line 225 does | any non-zero velocity cross product of the two markers, e.g. tem = (1, 0, 0, 0, 0, 0) with a zero prescribed screw gives 0 instead of -1 in entry 0 | the generic acceleration residual plus the transformed prescribed acceleration screw, as for the velocity | medium, not executed | GeneralMotions.GeneralMotion.CptCa (with GeneralMotions.GenericTermVanishesIff) | GeneralMotions.GeneralMotion.CptCaWithGenericTerm |

## Left out

- Spatial-algebra primitives (relative pose, pose to pose-screw, screw transforms, screw cross product, axis distance, point transforms): their definitions are not part of this model; their results are inputs.
- SphericalJoint position residual (lines 479-485): it is one call to a point transform that is not part of this model.
- GeneralMotion Euler-angle, quaternion, matrix-derivative and axis-angle setters and getters (lines 229-230, 232-233, 237-255, 257-275, 279-305 and 307-325): trigonometric conversions in code that is not part of this model.
- GeneralMotion `updMpm`, `updMvs`, `updMas` (lines 228, 236, 278): each stores the output of an unseen primitive, which is `SetMpm`, `SetMvs` or `SetMas` applied to that output.
- Joints.UniversalJoint.LocCmI: the square root is replaced by a parameter n with n > 0 and n² = x2² + y2²; collinear axes (n = 0, a division by zero) are not modelled.
- Joints.UniversalCp: the arc cosine and π/2 are parameters; the residual is stated only in terms of them.
- Motions.Motion.Mp: requires a non-zero factor; with factor 0 the division yields an infinity or NaN in doubles, which reals do not have. Motions.Motion.CptCpFromPm inherits this requirement because it adds `Mp()`.
- Motions.Motion.constructor: requires an axis below 6; a larger axis writes outside the six-entry direction row.
- Motions.Motion.LoadXml: requires a `component` below 6 when present. The source stores any value; if the references resolve it writes the direction row at that index, outside the row for 6 or more. A failed load with such a value, which stores the axis without writing the row, is therefore not modelled either. Malformed attribute values (a wrong number of friction coefficients or reaction forces) are not modelled.
- XML element reading and writing, attribute parsing, `saveXml` of every class (lines 19-26, 57-61, 113-124), the element bookkeeping done after resolution (line 53), names and the active flag.
- Solver bookkeeping (column and block ids of a constraint, calibration ids of a motion).
- `SingleComponentForce` (lines 488-504): glue over force transforms that are not part of this model.
- Defaulted copy and move constructors and assignments.
- Markers and parts are referred to by name rather than by pointer, so aliasing between elements is not modelled.
- Double-precision rounding: all arithmetic is over reals.
