# Plane controls and quaternion poses, in Dafny

This project models the non-rendering logic of a small OpenGL/GLUT program.
Two toy planes fly under keyboard control in it. Each plane has a pose made of:

- a homogeneous position (a gmtl `Point4f`, w = 1);
- an orientation (a gmtl `Quatf`).

Three cameras are steered with the mouse.

The project also models the gmtl quaternion example. That example shows:

- a point in its implicit (`Point3f`) and explicit (`Point4f`) homogeneous forms;
- one axis-angle turned into a rotation matrix and into a quaternion;
- the matrix and the quaternion rotating points and vectors alike.

Modules:

- `Linear` (`linear.dfy`): 3- and 4-vectors, homogeneous points and vectors, and 4x4 matrices. It defines `MulVec`, `MatMul`, `makeTrans` and the Matrix * Point3f transform.
- `Quaternions` (`quaternions.dfy`): quaternions as (x, y, z, w), the Hamilton product, `makeConj`, and rotation by conjugation `q * (v, 0) * conj(q)`. It proves these identities:
  - associativity;
  - the norm is multiplicative;
  - conj is the inverse of a unit quaternion;
  - the rotated vector has zero scalar part;
  - rotation is linear;
  - rotation equals a matrix product.
- `AxisAngles` (`axis_angle.dfy`): `gmtl::normalize`, and the quaternion and the rotation matrix gmtl builds from an axis-angle. It proves the two rotations agree.
- `QuaternionExample` (`quaternion_example.dfy`): the example's checks, which it prints side by side, stated as lemmas, both in general and for its own values.
- `Controls` (`controls.dfy`): the program's global variables as one value (`Globals`). It gives each GLUT callback as a pure transition on that value: `InitTransformsStep`, `KeyStep`, `MouseStep` and `MotionStep`. Lemmas state what the controls promise:
  - round trips;
  - frames, meaning which fields a key touches;
  - invariants;
  - the per-slot camera updates.
- `PlaneController` (`controller.dfy`): class `Controller`. Its fields are the globals, and the five three-element C arrays (`mbuttons`, `kmodifiers`, `distance`, `elevation`, `azimuth`) are Dafny arrays. Its methods `InitTransforms`, `KeyboardFunc`, `MouseFunc` and `MotionFunc` update them in place. Every method ensures `State() == <transition>(old(State()), ...)`, so each `Controls` lemma holds of the object. The ghost predicate `Posed()` (unit orientations, positions that are points, deltas as set) is established by `InitTransforms` and kept by every callback.

Reals stand in for floats. An angle is known only through the sine and cosine of its half (`Angle`, with `IsAngle`: s² + c² = 1). The modifier bits that `glutGetModifiers()` returns are a parameter of `MouseFunc`.

## Model

| member | source | states |
|---|---|---|
| Linear.AsPoint | asm3/gmtl_quaternion_example.cpp:15-16 | A Point3f in explicit form has w = 1 and the same x, y, z |
| Linear.AsVector | asm3/gmtl_quaternion_example.cpp:69-70 | A vector in explicit form has w = 0 and the same x, y, z |
| Linear.MatMul | asm3/gmtl_quaternion_example.cpp:47-48 | The product of two affine matrices (bottom row 0 0 0 1) is affine |
| Linear.MatMulVec | asm3/gmtl_quaternion_example.cpp:47-48 | (a * b) * v == a * (b * v): the right-hand factor (tran_mat) is applied first |
| Linear.MakeTrans | asm3/gmtl_quaternion_example.cpp:44 | makeTrans gives an affine matrix that moves every point by the offset |
| Linear.TranslationIgnoresVectors | asm3/gmtl_quaternion_example.cpp:69-70 | A vector with w = 0 is invariant under translation |
| Linear.XformPoint3 | asm3/gmtl_quaternion_example.cpp:47 | For an affine matrix, Matrix * Point3f is the x, y, z of Matrix * (p, 1) |
| Linear.AffineKeepsW | asm3/gmtl_quaternion_example.cpp:48 | An affine matrix keeps the w component, so points stay points and vectors stay vectors |
| Linear.PointAndVectorAgree | asm3/gmtl_quaternion_example.cpp:56 | A matrix with no translation part moves the point (p, 1) and the vector (p, 0) to the same coordinates |
| Linear.MulVecAdd | asm3/gmtl_quaternion_example.cpp:77 | Matrix times vector distributes over vector sums |
| Linear.MulVecScale | asm3/gmtl_quaternion_example.cpp:77 | Matrix times vector commutes with scaling the vector |
| Quaternions.Conj | asm3/plane2_base_a.cpp:193 | makeConj keeps the squared norm |
| Quaternions.RotateVec | asm3/plane2_base_a.cpp:526 | q * (v, 0) * conj(q) has zero scalar part for every q and v |
| Quaternions.MulIdentity | asm3/plane2_base_a.cpp:185 | (0, 0, 0, 1) is a two-sided identity of the Hamilton product |
| Quaternions.RotateByIdentity | asm3/plane2_base_a.cpp:185 | Conjugation by the identity quaternion leaves every vector unchanged |
| Quaternions.MulAssoc | asm3/plane2_base_a.cpp:535 | The Hamilton product is associative |
| Quaternions.MulConj | asm3/gmtl_quaternion_example.cpp:59-60 | q * conj(q) and conj(q) * q are both (0, 0, 0, \|q\|²) |
| Quaternions.UnitConjIsInverse | asm3/gmtl_quaternion_example.cpp:59 | For a unit q the conjugate is a two-sided inverse |
| Quaternions.NormMul | asm3/plane2_base_a.cpp:535 | \|a * b\|² = \|a\|² \|b\|² |
| Quaternions.UnitMul | asm3/plane2_base_a.cpp:535 | The product of unit quaternions is a unit quaternion |
| Quaternions.RotateIsMatrix | asm3/gmtl_quaternion_example.cpp:56-61 | Conjugation by q equals multiplication of the free vector (v, 0) by q's rotation matrix |
| Quaternions.RotateIsPure | asm3/gmtl_quaternion_example.cpp:73-74 | A rotated vector is the pure quaternion of its own x, y, z |
| Quaternions.RotateAdd | asm3/plane2_base_a.cpp:526-531 | Rotation by conjugation preserves vector sums |
| Quaternions.RotateScale | asm3/plane2_base_a.cpp:526-531 | Rotation by conjugation preserves scalar multiples |
| Quaternions.RotateNeg | asm3/plane2_base_a.cpp:529-531 | Rotating -v gives the negated rotation of v |
| Quaternions.RotateRoundTrip | asm3/gmtl_quaternion_example.cpp:59-60 | For a unit q, rotating by q and then by conj(q) restores the vector |
| Quaternions.RotatePreservesLength | asm3/plane2_base_a.cpp:526-527 | Rotation by a unit quaternion keeps a vector's length |
| AxisAngles.Normalize | asm3/gmtl_quaternion_example.cpp:25-26 | A non-zero vector divided by its length is a unit vector that scales back to the original; a zero vector is left unchanged |
| AxisAngles.QuatOf | asm3/gmtl_quaternion_example.cpp:33-35 | The quaternion of an axis-angle with a unit axis has unit norm |
| AxisAngles.MatrixOf | asm3/gmtl_quaternion_example.cpp:29-31 | The rotation matrix of an axis-angle has no translation part and bottom row 0 0 0 1 |
| AxisAngles.MatrixOfIsQuatMatrix | asm3/gmtl_quaternion_example.cpp:29-35 | For a unit axis, the matrix built from the axis-angle is the rotation matrix of the quaternion built from it |
| QuaternionExample.ExampleAxisAngle | asm3/gmtl_quaternion_example.cpp:24-27 | rot_axis (1, 1, 1) normalised is a unit axis that scales back to (1, 1, 1) by its length |
| QuaternionExample.QuatRotationIsMatrixRotation | asm3/gmtl_quaternion_example.cpp:29-35 | For every free vector, q * (v, 0) * conj(q) equals rot_mat * v when both come from one normalised axis-angle |
| QuaternionExample.PointRotation | asm3/gmtl_quaternion_example.cpp:56-61 | The x, y, z of q * (p, 0) * q_con equal rot_mat * p for a Point3f p |
| QuaternionExample.LocalTranslation | asm3/gmtl_quaternion_example.cpp:73-78 | p2 + (q * (v, 0) * q_con).mData equals p2 + rot_mat * v, and the sum is still a point |
| QuaternionExample.ImplicitAndExplicitPoint | asm3/gmtl_quaternion_example.cpp:44-48 | A Point3f and the equal Point4f give the same coordinates under a product of affine matrices; the Point4f result has w = 1 |
| QuaternionExample.ConjIsInverse | asm3/gmtl_quaternion_example.cpp:59-60 | q from a normalised axis-angle is unit, so q * q_con = q_con * q = (0, 0, 0, 1) |
| QuaternionExample.ExamplePointForms | asm3/gmtl_quaternion_example.cpp:46-48 | With the example's p1, p2 and tran_mat, both printed transforms agree and the Point4f one is a point |
| QuaternionExample.ExampleTranslateFirst | asm3/gmtl_quaternion_example.cpp:44-48 | rot_mat * tran_mat * p2 is rot_mat applied to (4, 2, 5, 1) |
| QuaternionExample.ExampleRotation | asm3/gmtl_quaternion_example.cpp:56-78 | With the example's values: p1 rotated by matrix and by quaternion agree, p2 moved by v agrees both ways, and q * q_con is the identity |
| Controls.Initial | asm3/plane2_base_a.cpp:115-147 | The static initialisers give a well-formed state (three-element arrays, selectors in range) |
| Controls.InitTransformsSetsPoses | asm3/plane2_base_a.cpp:178-202 | InitTransforms sets both start poses with identity orientation; the deltas are unit and each negative one is the conjugate of its positive one; the state stays well formed |
| Controls.Translate | asm3/plane2_base_a.cpp:526-527 | A translation key keeps the position's w and adds the rotated vector's x, y, z |
| Controls.CameraKeys | asm3/plane2_base_a.cpp:511-518 | 'v' changes only cam_id and 'b' only camctrl_id, each to the next of 0, 1, 2 |
| Controls.ThreeCameraPresses | asm3/plane2_base_a.cpp:511-518 | Three presses of 'v', or of 'b', return the whole state to its start |
| Controls.ForwardBackRoundTrip | asm3/plane2_base_a.cpp:525-532 | 's' then 'f', 'f' then 's', and the same on plane 1 with 'S'/'F', restore the state exactly |
| Controls.TranslationKeys | asm3/plane2_base_a.cpp:525-532 | A translation key moves only its plane's position, by the rotated forward or backward vector, and keeps a point a point |
| Controls.IdentityKeepsForward | asm3/plane2_base_a.cpp:86 | Rotating PLANE_FORWARD by the identity gives (0, 0, 1, 0) |
| Controls.IdentityTranslation | asm3/plane2_base_a.cpp:526-527 | With the identity orientation a forward move adds exactly PLANE_FORWARD |
| Controls.ForwardWithIdentity | asm3/plane2_base_a.cpp:525-528 | With plane_q2 the identity, 's' moves turtle_p2 by exactly PLANE_FORWARD |
| Controls.ForwardFromStart | asm3/plane2_base_a.cpp:184-185 | Right after InitTransforms, 's' takes turtle_p2 from (3, -5, 4, 1) to (3, -5, 5, 1) |
| Controls.ForwardIsUnitStep | asm3/plane2_base_a.cpp:525-528 | With a unit plane_q2, 's' adds to turtle_p2 a vector with w = 0 and squared length exactly 1 |
| Controls.ZTurnKeepsForward | asm3/plane2_base_a.cpp:191-192 | For a sine/cosine pair, rotating PLANE_FORWARD by the Z delta (0, 0, sin, cos) gives (0, 0, 1, 0) |
| Controls.RollThenForward | asm3/plane2_base_a.cpp:534-536 | Right after InitTransforms, 'e' then 's' leaves plane_q2 equal to zrotp_q and turtle_p2 at (3, -5, 5, 1) |
| Controls.UndoDelta | asm3/plane2_base_a.cpp:534-539 | For a unit delta d, q * d * conj(d) == q and q * conj(d) * d == q |
| Controls.RotationRoundTrip | asm3/plane2_base_a.cpp:534-589 | With the deltas InitTransforms sets, each rotation key is undone by its opposite in either order, on both planes |
| Controls.KeyKeepsInvariant | asm3/plane2_base_a.cpp:503-632 | Every key keeps both orientations unit and both positions points, and keeps the deltas and well-formedness |
| Controls.KeysKeepInvariant | asm3/plane2_base_a.cpp:503-632 | The same holds for every sequence of keys |
| Controls.PlaneKeysFrame | asm3/plane2_base_a.cpp:525-589 | Lower-case plane keys touch only turtle_p2/plane_q2 and upper-case ones only turtle_p1/plane_q1 |
| Controls.UnhandledKey | asm3/plane2_base_a.cpp:505-629 | A key the switch does not list changes nothing |
| Controls.RightWingKeys | asm3/plane2_base_a.cpp:599-604 | 'r'/'R' change only wing_angle_right, by +5/-5 |
| Controls.LeftWingKeys | asm3/plane2_base_a.cpp:607-612 | 't'/'T' change only wing_angle_left, by +5/-5 |
| Controls.CannonKeys | asm3/plane2_base_a.cpp:615-628 | 'y'/'Y' and 'u'/'U' change only their cannon angle, by +5/-5 |
| Controls.RepeatedWingKey | asm3/plane2_base_a.cpp:599-601 | n presses of 'r' add 5n to wing_angle_right and change nothing else (no clamping, no wrap-around) |
| Controls.SixWingPresses | asm3/plane2_base_a.cpp:132 | Six presses of 'r' from the start give a right wing angle of 30 |
| Controls.Modifiers | asm3/plane2_base_a.cpp:662-665 | Each modifier flag is set exactly when its GLUT_ACTIVE_* bit is set |
| Controls.MouseBookkeeping | asm3/plane2_base_a.cpp:652-665 | A press sets its flag and records (x, y); a release only clears its flag; other buttons are kept; modifiers come from the given bits; nothing else changes |
| Controls.MouseKeepsPoses | asm3/plane2_base_a.cpp:647-668 | A mouse button event leaves Posed as it was: it holds after exactly when it held before |
| Controls.ZoomDelta | asm3/plane2_base_a.cpp:706-711 | The zoom step is dx or -dy, whichever is larger in magnitude, and dx on a tie |
| Controls.MotionWithoutButton | asm3/plane2_base_a.cpp:685 | With neither the left nor the right button held, motion changes nothing, not even mx_prev/my_prev |
| Controls.DragTouchesOneSlot | asm3/plane2_base_a.cpp:685-713 | A drag records (x, y) and changes only slot camctrl_id: elevation by dy unless CTRL, azimuth by dx unless SHIFT (left button), distance by the zoom step (right button) |
| Controls.MotionKeepsPoses | asm3/plane2_base_a.cpp:681-717 | Mouse motion leaves Posed as it was: it holds after exactly when it held before |
| PlaneController.Controller.constructor | asm3/plane2_base_a.cpp:115-147 | The object starts in the initial state, with fresh, separate arrays |
| PlaneController.Controller.InitTransforms | asm3/plane2_base_a.cpp:178-202 | The new state is InitTransformsStep of the old one, for the given half angle; for a sine/cosine pair the object is then Posed |
| PlaneController.Controller.PlacePlanes | asm3/plane2_base_a.cpp:183-189 | Sets both start poses and changes nothing else |
| PlaneController.Controller.SetZDeltas | asm3/plane2_base_a.cpp:191-193 | zrotp_q becomes d and zrotn_q its conjugate; nothing else changes |
| PlaneController.Controller.SetXDeltas | asm3/plane2_base_a.cpp:195-197 | xrotp_q becomes d and xrotn_q its conjugate; nothing else changes |
| PlaneController.Controller.SetYDeltas | asm3/plane2_base_a.cpp:199-201 | yrotp_q becomes d and yrotn_q its conjugate; nothing else changes |
| PlaneController.Controller.KeyboardFunc | asm3/plane2_base_a.cpp:503-632 | The new state is KeyStep of the old one; a Posed object stays Posed |
| PlaneController.Controller.CameraKey | asm3/plane2_base_a.cpp:511-518 | The camera keys as KeyStep gives them |
| PlaneController.Controller.Plane2Key | asm3/plane2_base_a.cpp:525-553 | Plane 2's keys as KeyStep gives them |
| PlaneController.Controller.Plane1Key | asm3/plane2_base_a.cpp:561-589 | Plane 1's keys as KeyStep gives them |
| PlaneController.Controller.WingKey | asm3/plane2_base_a.cpp:598-612 | The wing keys as KeyStep gives them |
| PlaneController.Controller.CannonKey | asm3/plane2_base_a.cpp:614-628 | The cannon keys as KeyStep gives them |
| PlaneController.Controller.MouseFunc | asm3/plane2_base_a.cpp:647-668 | The new state is MouseStep of the old one; only the mouse position and the two flag arrays may change; Posed is unchanged |
| PlaneController.Controller.MotionFunc | asm3/plane2_base_a.cpp:681-717 | The new state is MotionStep of the old one; only the mouse position and the three camera arrays may change; Posed is unchanged |
| PlaneController.Controller.TurnCamera | asm3/plane2_base_a.cpp:694-702 | The left-drag update as TurnStep gives it |
| PlaneController.Controller.Zoom | asm3/plane2_base_a.cpp:704-713 | The right-drag update as ZoomStep gives it |

## Left out

- GLUT and OpenGL: rendering and event plumbing, with no state the callbacks share. Left out are `InitGL`, `ReshapeFunc`, `DisplayFunc`, the drawing routines, `main` and callback registration, `glutPostRedisplay` and `glutSwapBuffers`. So are `w_width`/`w_height`, which only the window code reads.
- `printf` and `std::cout` output: I/O. The example's printed comparisons appear only as lemmas.
- `glutGetModifiers()`: its bit set is the `kmState` parameter of `MouseFunc`.
- Floating point: floats are reals. Rounding, drift and renormalisation are not modelled (the program does none of its own).
- Trigonometry and `deg2Rad`: `InitTransforms` takes the half angle of PLANE_ROTATION as a parameter. Likewise the example's 45 degree angle is any `Angle` with s² + c² = 1. The lemmas hold for every such angle.
- `gmtl::normalize`'s square root: the length is a parameter `len` with len ≥ 0 and len² = \|v\|². The example lemmas take the square root of 3 this way.
- The gmtl library: only the operations the two files use are defined, with gmtl's conventions. These are the Quatf product, `makeConj`, `set` from an axis-angle into a quaternion and into a matrix, `makeTrans`, matrix products and point/vector sums.
- Linear.XformPoint3: defined only for affine matrices, where gmtl's homogeneous divide is a division by 1. Matrices with another bottom row are not modelled; none occurs in the example.
- Integer width: `dx`, `dy`, `mx_prev` and `my_prev` are unbounded. The overflow of `x - mx_prev` and `abs(INT_MIN)` are not modelled. Adding an `int` to a float slot is exact.
- Button range: `MouseFunc` requires a button index in 0..2, as GLUT documents. Other button numbers would index `mbuttons` out of range and are not modelled.
- The mouse position that GLUT passes to `KeyboardFunc` is unused there and has no effect.
- The single `switch` of `KeyboardFunc` is dispatched to one helper method per group of keys, and `InitTransforms` assigns its globals through four helpers. The effect on the state is the same. The split only keeps each proof small.
