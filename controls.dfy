/** The input-driven state of the plane program (its global variables) and
    the effect of each GLUT callback on it, as pure transitions on a value.
    The Controller class mutates fields and arrays the way the program does;
    each of its methods is specified by the transition defined here, and the
    lemmas below state what the program's controls promise. */
module Controls {
  import opened Linear
  import opened Quaternions
  import opened AxisAngles

  /** PLANE_FORWARD: the plane's forward translation in its local frame. */
  const PlaneForward: Vec3 := Vec3(0.0, 0.0, 1.0)

  /** DELTA_ROTATION: degrees a sub-part turns per key press. */
  const DeltaRotation: real := 5.0

  /** The number of cameras, and so of entries in distance, elevation and
      azimuth. */
  const Cameras: int := 3

  /** The number of mouse buttons mbuttons tracks, indexed by GLUT button. */
  const Buttons: int := 3

  /** The number of modifier flags kmodifiers holds, one per KeyModifier. */
  const ModifierFlags: int := 3

  /** GLUT_LEFT_BUTTON and GLUT_RIGHT_BUTTON. */
  const LeftButton: int := 0
  const RightButton: int := 2

  /** GLUT_DOWN (a press); any other state is a release. */
  const Down: int := 0

  /** GLUT_ACTIVE_SHIFT, GLUT_ACTIVE_CTRL, GLUT_ACTIVE_ALT. */
  const ActiveShift: bv32 := 1
  const ActiveCtrl: bv32 := 2
  const ActiveAlt: bv32 := 4

  /** KeyModifier: KM_SHIFT, KM_CTRL, KM_ALT index kmodifiers. */
  const KmShift: int := 0
  const KmCtrl: int := 1
  const KmAlt: int := 2

  /** Every global the four callbacks read or write. */
  datatype Globals = Globals(
    turtleP2: Vec4, planeQ2: Quat,
    turtleP1: Vec4, planeQ1: Quat,
    zrotp: Quat, zrotn: Quat, xrotp: Quat, xrotn: Quat, yrotp: Quat, yrotn: Quat,
    wingAngleRight: real, wingAngleLeft: real,
    cannonAngleTop: real, cannonAngleSubsubpart: real,
    mxPrev: int, myPrev: int,
    mbuttons: seq<bool>, kmodifiers: seq<bool>,
    camId: int, camctrlId: int,
    distance: seq<real>, elevation: seq<real>, azimuth: seq<real>)

  /** Arrays of their declared sizes and camera selectors in {0, 1, 2}. */
  predicate WellFormed(s: Globals)
  {
    |s.mbuttons| == Buttons && |s.kmodifiers| == ModifierFlags
    && |s.distance| == Cameras && |s.elevation| == Cameras && |s.azimuth| == Cameras
    && 0 <= s.camId < Cameras && 0 <= s.camctrlId < Cameras
  }

  /** The globals as the program's static initialisers leave them: a
      default Point4f is all zeros and a default Quatf is (0, 0, 0, 1). */
  function Initial(): (s: Globals)
    ensures WellFormed(s)
  {
    Globals(Vec4(0.0, 0.0, 0.0, 0.0), IdentityQuat, Vec4(0.0, 0.0, 0.0, 0.0), IdentityQuat,
             IdentityQuat, IdentityQuat, IdentityQuat, IdentityQuat, IdentityQuat, IdentityQuat,
             0.0, 0.0, 0.0, 0.0,
             0, 0,
             [false, false, false], [false, false, false],
             0, 0,
             [20.0, 20.0, 20.0], [-45.0, -45.0, -45.0], [15.0, 15.0, 15.0])
  }

  /** InitTransforms: both poses placed with identity orientation, and the six
      deltas set to half-angle quaternions about Z, X and Y, each negative
      delta the conjugate of its positive one. half stands for
      PLANE_ROTATION / 2 through its sine and cosine. */
  function InitTransformsStep(s: Globals, half: Angle): Globals
  {
    var z := Quat(0.0, 0.0, half.sinHalf, half.cosHalf);
    var x := Quat(half.sinHalf, 0.0, 0.0, half.cosHalf);
    var y := Quat(0.0, half.sinHalf, 0.0, half.cosHalf);
    s.(turtleP2 := Vec4(3.0, -5.0, 4.0, 1.0), planeQ2 := IdentityQuat,
       turtleP1 := Vec4(-3.0, 5.0, 4.0, 1.0), planeQ1 := IdentityQuat,
       zrotp := z, zrotn := Conj(z), xrotp := x, xrotn := Conj(x),
       yrotp := y, yrotn := Conj(y))
  }

  /** p + (q * (v, 0) * conj(q)).mData: a move by v in the frame of q. The
      rotated vector has w = 0, so the position's w is kept. */
  function Translate(p: Vec4, q: Quat, v: Vec3): (r: Vec4)
    ensures r.w == p.w
    ensures Xyz(r) == Add3(Xyz(p), Xyz(Data(RotateVec(q, v))))
  {
    Add4(p, Data(RotateVec(q, v)))
  }

  /** KeyboardFunc. Keys that the switch does not list change nothing. */
  function KeyStep(s: Globals, key: char): Globals
  {
    match key
    case 'v' => s.(camId := (s.camId + 1) % Cameras)
    case 'b' => s.(camctrlId := (s.camctrlId + 1) % Cameras)
    case 's' => s.(turtleP2 := Translate(s.turtleP2, s.planeQ2, PlaneForward))
    case 'f' => s.(turtleP2 := Translate(s.turtleP2, s.planeQ2, Neg3(PlaneForward)))
    case 'e' => s.(planeQ2 := Mul(s.planeQ2, s.zrotp))
    case 'q' => s.(planeQ2 := Mul(s.planeQ2, s.zrotn))
    case 'x' => s.(planeQ2 := Mul(s.planeQ2, s.xrotp))
    case 'w' => s.(planeQ2 := Mul(s.planeQ2, s.xrotn))
    case 'a' => s.(planeQ2 := Mul(s.planeQ2, s.yrotp))
    case 'd' => s.(planeQ2 := Mul(s.planeQ2, s.yrotn))
    case 'S' => s.(turtleP1 := Translate(s.turtleP1, s.planeQ1, PlaneForward))
    case 'F' => s.(turtleP1 := Translate(s.turtleP1, s.planeQ1, Neg3(PlaneForward)))
    case 'E' => s.(planeQ1 := Mul(s.planeQ1, s.zrotp))
    case 'Q' => s.(planeQ1 := Mul(s.planeQ1, s.zrotn))
    case 'X' => s.(planeQ1 := Mul(s.planeQ1, s.xrotp))
    case 'W' => s.(planeQ1 := Mul(s.planeQ1, s.xrotn))
    case 'A' => s.(planeQ1 := Mul(s.planeQ1, s.yrotp))
    case 'D' => s.(planeQ1 := Mul(s.planeQ1, s.yrotn))
    case 'r' => s.(wingAngleRight := s.wingAngleRight + DeltaRotation)
    case 'R' => s.(wingAngleRight := s.wingAngleRight - DeltaRotation)
    case 't' => s.(wingAngleLeft := s.wingAngleLeft + DeltaRotation)
    case 'T' => s.(wingAngleLeft := s.wingAngleLeft - DeltaRotation)
    case 'y' => s.(cannonAngleTop := s.cannonAngleTop + DeltaRotation)
    case 'Y' => s.(cannonAngleTop := s.cannonAngleTop - DeltaRotation)
    case 'u' => s.(cannonAngleSubsubpart := s.cannonAngleSubsubpart + DeltaRotation)
    case 'U' => s.(cannonAngleSubsubpart := s.cannonAngleSubsubpart - DeltaRotation)
    case _ => s
  }

  /** A sequence of key presses, oldest first. */
  function Keys(s: Globals, keys: seq<char>): Globals
    decreases |keys|
  {
    if keys == [] then s else Keys(KeyStep(s, keys[0]), keys[1..])
  }

  /** The same key pressed n times. */
  function Repeat(key: char, n: nat): (keys: seq<char>)
    ensures |keys| == n && forall i :: 0 <= i < n ==> keys[i] == key
  {
    if n == 0 then [] else [key] + Repeat(key, n - 1)
  }

  /** Every key the switch of KeyboardFunc handles. */
  const HandledKeys: set<char> := {
    'v', 'b', 's', 'f', 'e', 'q', 'x', 'w', 'a', 'd',
    'S', 'F', 'E', 'Q', 'X', 'W', 'A', 'D',
    'r', 'R', 't', 'T', 'y', 'Y', 'u', 'U' }

  /** The camera-select keys. */
  const CameraKeySet: set<char> := { 'v', 'b' }

  /** The keys that steer plane 2 and plane 1. */
  const Plane2Keys: set<char> := { 's', 'f', 'e', 'q', 'x', 'w', 'a', 'd' }
  const Plane1Keys: set<char> := { 'S', 'F', 'E', 'Q', 'X', 'W', 'A', 'D' }

  /** The keys that turn the wings and the cannon parts. */
  const WingKeys: set<char> := { 'r', 'R', 't', 'T' }
  const CannonKeySet: set<char> := { 'y', 'Y', 'u', 'U' }

  /** The modifier flags read from a glutGetModifiers() bit set. */
  function Modifiers(kmState: bv32): (m: seq<bool>)
    ensures |m| == ModifierFlags
    ensures m[KmShift] <==> kmState & ActiveShift != 0
    ensures m[KmCtrl] <==> kmState & ActiveCtrl != 0
    ensures m[KmAlt] <==> kmState & ActiveAlt != 0
  {
    [kmState & ActiveShift != 0, kmState & ActiveCtrl != 0, kmState & ActiveAlt != 0]
  }

  /** MouseFunc: a press sets the button's flag and records the position, a
      release only clears the flag; the modifier flags are always refreshed. */
  function MouseStep(s: Globals, button: int, state: int, x: int, y: int, kmState: bv32): Globals
    requires WellFormed(s) && 0 <= button < Buttons
  {
    var t := if state == Down then s.(mbuttons := s.mbuttons[button := true], mxPrev := x, myPrev := y)
             else s.(mbuttons := s.mbuttons[button := false]);
    t.(kmodifiers := Modifiers(kmState))
  }

  function Abs(n: int): nat { if n < 0 then -n else n }

  /** The zoom step of a right drag: the larger of the two mouse moves,
      horizontal as is, vertical negated, the horizontal one on a tie. */
  function ZoomDelta(dx: int, dy: int): (d: int)
    ensures d == dx || d == -dy
    ensures Abs(d) == if Abs(dx) >= Abs(dy) then Abs(dx) else Abs(dy)
    ensures Abs(dx) == Abs(dy) ==> d == dx
  {
    if Abs(dx) >= Abs(dy) then dx else -dy
  }

  /** A left drag by (dx, dy): the control-selected camera's elevation
      moves by dy unless CTRL is held and its azimuth by dx unless SHIFT is
      held. */
  function TurnStep(s: Globals, dx: int, dy: int): (t: Globals)
    requires WellFormed(s)
    ensures WellFormed(t)
  {
    var c := s.camctrlId;
    s.(elevation := if !s.kmodifiers[KmCtrl] then s.elevation[c := s.elevation[c] + dy as real] else s.elevation,
       azimuth := if !s.kmodifiers[KmShift] then s.azimuth[c := s.azimuth[c] + dx as real] else s.azimuth)
  }

  /** A right drag by (dx, dy): the control-selected camera's distance
      moves by the zoom step. */
  function ZoomStep(s: Globals, dx: int, dy: int): (t: Globals)
    requires WellFormed(s)
    ensures WellFormed(t)
  {
    var c := s.camctrlId;
    s.(distance := s.distance[c := s.distance[c] + ZoomDelta(dx, dy) as real])
  }

  /** MotionFunc: while the left or right button is held, the position is
      recorded; then a left drag turns the control-selected camera and a
      right drag zooms it, both by the move since the recorded position. */
  function MotionStep(s: Globals, x: int, y: int): Globals
    requires WellFormed(s)
  {
    if s.mbuttons[LeftButton] || s.mbuttons[RightButton] then
      var dx, dy := x - s.mxPrev, y - s.myPrev;
      var t := s.(mxPrev := x, myPrev := y);
      var t := if s.mbuttons[LeftButton] then TurnStep(t, dx, dy) else t;
      if s.mbuttons[RightButton] then ZoomStep(t, dx, dy) else t
    else
      s
  }

  /** The deltas as InitTransforms leaves them: unit positive rotations and
      negative rotations that are their conjugates. */
  predicate DeltasOk(s: Globals)
  {
    IsUnit(s.zrotp) && IsUnit(s.xrotp) && IsUnit(s.yrotp)
    && s.zrotn == Conj(s.zrotp) && s.xrotn == Conj(s.xrotp) && s.yrotn == Conj(s.yrotp)
  }

  /** Both planes posed: unit orientations, positions that are points
      (w = 1), and the deltas as InitTransforms sets them. */
  predicate Posed(s: Globals)
  {
    DeltasOk(s) && IsUnit(s.planeQ2) && IsUnit(s.planeQ1)
    && IsPoint(s.turtleP2) && IsPoint(s.turtleP1)
  }

  // ---------------------------------------------------------------------
  // InitTransforms

  lemma InitTransformsSetsPoses(s: Globals, half: Angle)
    requires IsAngle(half)
    ensures var t := InitTransformsStep(s, half);
            t.turtleP2 == Vec4(3.0, -5.0, 4.0, 1.0) && t.planeQ2 == IdentityQuat
            && t.turtleP1 == Vec4(-3.0, 5.0, 4.0, 1.0) && t.planeQ1 == IdentityQuat
            && Posed(t)
    ensures WellFormed(s) ==> WellFormed(InitTransformsStep(s, half))
  {
    var t := InitTransformsStep(s, half);
    assert Norm2(t.zrotp) == half.sinHalf * half.sinHalf + half.cosHalf * half.cosHalf;
    assert Norm2(t.xrotp) == half.sinHalf * half.sinHalf + half.cosHalf * half.cosHalf;
    assert Norm2(t.yrotp) == half.sinHalf * half.sinHalf + half.cosHalf * half.cosHalf;
  }

  // ---------------------------------------------------------------------
  // Camera selectors

  /** 'v' and 'b' keep the selectors in range and change nothing else. */
  lemma CameraKeys(s: Globals)
    requires WellFormed(s)
    ensures WellFormed(KeyStep(s, 'v')) && WellFormed(KeyStep(s, 'b'))
    ensures KeyStep(s, 'v').(camId := s.camId) == s
    ensures KeyStep(s, 'b').(camctrlId := s.camctrlId) == s
    ensures KeyStep(s, 'v').camId == if s.camId == Cameras - 1 then 0 else s.camId + 1
    ensures KeyStep(s, 'b').camctrlId == if s.camctrlId == Cameras - 1 then 0 else s.camctrlId + 1
  {
  }

  /** Three presses of a camera-select key return its selector to the
      start. */
  lemma ThreeCameraPresses(s: Globals)
    requires WellFormed(s)
    ensures Keys(s, "vvv") == s
    ensures Keys(s, "bbb") == s
  {
    CameraKeys(s);
    CameraKeys(KeyStep(s, 'v'));
    CameraKeys(KeyStep(KeyStep(s, 'v'), 'v'));
    CameraKeys(KeyStep(s, 'b'));
    CameraKeys(KeyStep(KeyStep(s, 'b'), 'b'));
    assert Keys(s, "vvv") == KeyStep(KeyStep(KeyStep(s, 'v'), 'v'), 'v');
    assert Keys(s, "bbb") == KeyStep(KeyStep(KeyStep(s, 'b'), 'b'), 'b');
  }

  // ---------------------------------------------------------------------
  // Translation keys

  /** 'f' undoes 's' and 's' undoes 'f' exactly, on either plane, because
      the backward move is the negated forward move rotated by the same
      unchanged orientation. */
  lemma ForwardBackRoundTrip(s: Globals)
    ensures KeyStep(KeyStep(s, 's'), 'f') == s
    ensures KeyStep(KeyStep(s, 'f'), 's') == s
    ensures KeyStep(KeyStep(s, 'S'), 'F') == s
    ensures KeyStep(KeyStep(s, 'F'), 'S') == s
  {
    RotateNeg(s.planeQ2, PlaneForward);
    RotateNeg(s.planeQ1, PlaneForward);
  }

  /** A translation key moves only its plane's position, by the forward or
      backward vector in the plane's frame, keeps its w component, and never
      changes an orientation. */
  lemma TranslationKeys(s: Globals)
    ensures KeyStep(s, 's').turtleP2 == Translate(s.turtleP2, s.planeQ2, PlaneForward)
    ensures KeyStep(s, 'f').turtleP2 == Translate(s.turtleP2, s.planeQ2, Neg3(PlaneForward))
    ensures KeyStep(s, 'S').turtleP1 == Translate(s.turtleP1, s.planeQ1, PlaneForward)
    ensures KeyStep(s, 'F').turtleP1 == Translate(s.turtleP1, s.planeQ1, Neg3(PlaneForward))
    ensures KeyStep(s, 's').(turtleP2 := s.turtleP2) == s
    ensures KeyStep(s, 'f').(turtleP2 := s.turtleP2) == s
    ensures KeyStep(s, 'S').(turtleP1 := s.turtleP1) == s
    ensures KeyStep(s, 'F').(turtleP1 := s.turtleP1) == s
    ensures IsPoint(s.turtleP2) ==> IsPoint(KeyStep(s, 's').turtleP2) && IsPoint(KeyStep(s, 'f').turtleP2)
    ensures IsPoint(s.turtleP1) ==> IsPoint(KeyStep(s, 'S').turtleP1) && IsPoint(KeyStep(s, 'F').turtleP1)
  {
  }

  /** Rotating PLANE_FORWARD by the identity gives PLANE_FORWARD. */
  lemma IdentityKeepsForward()
    ensures Data(RotateVec(IdentityQuat, PlaneForward)) == Vec4(0.0, 0.0, 1.0, 0.0)
  {
    RotateByIdentity(PlaneForward);
  }

  /** With the identity orientation, 's' moves plane 2 by exactly
      PLANE_FORWARD. */
  lemma ForwardWithIdentity(s: Globals)
    requires s.planeQ2 == IdentityQuat
    ensures KeyStep(s, 's').turtleP2 == Add4(s.turtleP2, AsVector(PlaneForward))
  {
    TranslationKeys(s);
    IdentityTranslation(s.turtleP2);
  }

  lemma IdentityTranslation(p: Vec4)
    ensures Translate(p, IdentityQuat, PlaneForward) == Add4(p, AsVector(PlaneForward))
  {
    IdentityKeepsForward();
  }

  /** Right after InitTransforms, 's' takes plane 2 from (3, -5, 4, 1) to
      (3, -5, 5, 1). */
  lemma ForwardFromStart(s: Globals, half: Angle)
    ensures KeyStep(InitTransformsStep(s, half), 's').turtleP2 == Vec4(3.0, -5.0, 5.0, 1.0)
  {
    var t := InitTransformsStep(s, half);
    ForwardWithIdentity(t);
  }

  /** With a unit orientation, 's' moves plane 2 by a vector of length 1:
      the move is PLANE_FORWARD turned into the plane's frame. */
  lemma ForwardIsUnitStep(s: Globals)
    requires IsUnit(s.planeQ2)
    ensures var m := Data(RotateVec(s.planeQ2, PlaneForward));
            KeyStep(s, 's').turtleP2 == Add4(s.turtleP2, m)
            && m.w == 0.0 && Dot3(Xyz(m), Xyz(m)) == 1.0
  {
    RotatePreservesLength(s.planeQ2, PlaneForward);
  }

  /** A turn about Z leaves the Z axis, and so PLANE_FORWARD, fixed. */
  lemma ZTurnKeepsForward(a: Angle)
    requires IsAngle(a)
    ensures Data(RotateVec(Quat(0.0, 0.0, a.sinHalf, a.cosHalf), PlaneForward)) == Vec4(0.0, 0.0, 1.0, 0.0)
  {
    var q := Quat(0.0, 0.0, a.sinHalf, a.cosHalf);
    var p := Mul(q, Pure(PlaneForward));
    assert p == Quat(0.0, 0.0, a.cosHalf, -a.sinHalf);
    assert Mul(p, Conj(q)) == Quat(0.0, 0.0, a.sinHalf * a.sinHalf + a.cosHalf * a.cosHalf, 0.0);
  }

  /** Right after InitTransforms, 'e' then 's' leaves plane 2 turned by the
      positive Z delta and one unit further along Z: a roll does not change
      where forward points. */
  lemma RollThenForward(s: Globals, half: Angle)
    requires IsAngle(half)
    ensures var t := Keys(InitTransformsStep(s, half), "es");
            t.planeQ2 == InitTransformsStep(s, half).zrotp
            && t.turtleP2 == Vec4(3.0, -5.0, 5.0, 1.0)
  {
    var t0 := InitTransformsStep(s, half);
    MulIdentity(t0.zrotp);
    ZTurnKeepsForward(half);
    assert Keys(t0, "es") == KeyStep(KeyStep(t0, 'e'), 's');
  }

  // ---------------------------------------------------------------------
  // Rotation keys

  /** q * d * conj(d) == q for a unit d. */
  lemma UndoDelta(q: Quat, d: Quat)
    requires IsUnit(d)
    ensures Mul(Mul(q, d), Conj(d)) == q
    ensures Mul(Mul(q, Conj(d)), d) == q
  {
    MulAssoc(q, d, Conj(d));
    MulAssoc(q, Conj(d), d);
    UnitConjIsInverse(d);
    MulIdentity(q);
  }

  /** With the deltas InitTransforms sets, each rotation key is undone by
      its opposite ('e'/'q', 'x'/'w', 'a'/'d', and the same upper-case keys
      on plane 1), pressed in either order. Deltas multiply on the right. */
  lemma RotationRoundTrip(s: Globals)
    requires DeltasOk(s)
    ensures Keys(s, "eq") == s && Keys(s, "qe") == s
    ensures Keys(s, "xw") == s && Keys(s, "wx") == s
    ensures Keys(s, "ad") == s && Keys(s, "da") == s
    ensures Keys(s, "EQ") == s && Keys(s, "QE") == s
    ensures Keys(s, "XW") == s && Keys(s, "WX") == s
    ensures Keys(s, "AD") == s && Keys(s, "DA") == s
  {
    UndoDelta(s.planeQ2, s.zrotp);
    UndoDelta(s.planeQ2, s.xrotp);
    UndoDelta(s.planeQ2, s.yrotp);
    UndoDelta(s.planeQ1, s.zrotp);
    UndoDelta(s.planeQ1, s.xrotp);
    UndoDelta(s.planeQ1, s.yrotp);
    assert Keys(s, "eq") == KeyStep(KeyStep(s, 'e'), 'q');
    assert Keys(s, "qe") == KeyStep(KeyStep(s, 'q'), 'e');
    assert Keys(s, "xw") == KeyStep(KeyStep(s, 'x'), 'w');
    assert Keys(s, "wx") == KeyStep(KeyStep(s, 'w'), 'x');
    assert Keys(s, "ad") == KeyStep(KeyStep(s, 'a'), 'd');
    assert Keys(s, "da") == KeyStep(KeyStep(s, 'd'), 'a');
    assert Keys(s, "EQ") == KeyStep(KeyStep(s, 'E'), 'Q');
    assert Keys(s, "QE") == KeyStep(KeyStep(s, 'Q'), 'E');
    assert Keys(s, "XW") == KeyStep(KeyStep(s, 'X'), 'W');
    assert Keys(s, "WX") == KeyStep(KeyStep(s, 'W'), 'X');
    assert Keys(s, "AD") == KeyStep(KeyStep(s, 'A'), 'D');
    assert Keys(s, "DA") == KeyStep(KeyStep(s, 'D'), 'A');
  }

  /** With those deltas every key keeps both orientations unit quaternions
      and both positions points, and keeps the state well formed; the
      deltas themselves are never changed by a key. */
  lemma KeyKeepsInvariant(s: Globals, key: char)
    requires WellFormed(s) && Posed(s)
    ensures WellFormed(KeyStep(s, key)) && Posed(KeyStep(s, key))
  {
    UnitMul(s.planeQ2, s.zrotp);
    UnitMul(s.planeQ2, s.xrotp);
    UnitMul(s.planeQ2, s.yrotp);
    UnitMul(s.planeQ2, s.zrotn);
    UnitMul(s.planeQ2, s.xrotn);
    UnitMul(s.planeQ2, s.yrotn);
    UnitMul(s.planeQ1, s.zrotp);
    UnitMul(s.planeQ1, s.xrotp);
    UnitMul(s.planeQ1, s.yrotp);
    UnitMul(s.planeQ1, s.zrotn);
    UnitMul(s.planeQ1, s.xrotn);
    UnitMul(s.planeQ1, s.yrotn);
  }

  /** ... and so does every sequence of keys. */
  lemma {:induction false} KeysKeepInvariant(s: Globals, keys: seq<char>)
    requires WellFormed(s) && Posed(s)
    ensures WellFormed(Keys(s, keys)) && Posed(Keys(s, keys))
    decreases |keys|
  {
    if keys != [] {
      KeyKeepsInvariant(s, keys[0]);
      KeysKeepInvariant(KeyStep(s, keys[0]), keys[1..]);
    }
  }

  // ---------------------------------------------------------------------
  // Which keys touch which fields

  /** Lower-case plane keys touch only plane 2's pose and upper-case ones
      only plane 1's. */
  lemma PlaneKeysFrame(s: Globals, key: char)
    ensures key in Plane2Keys ==> KeyStep(s, key).(turtleP2 := s.turtleP2, planeQ2 := s.planeQ2) == s
    ensures key in Plane1Keys ==> KeyStep(s, key).(turtleP1 := s.turtleP1, planeQ1 := s.planeQ1) == s
  {
  }

  /** A key the switch does not handle changes nothing. */
  lemma UnhandledKey(s: Globals, key: char)
    requires key !in HandledKeys
    ensures KeyStep(s, key) == s
  {
  }

  /** Each sub-part key changes exactly one angle by DELTA_ROTATION up or
      down, with no clamping and no wrap-around. */
  lemma RightWingKeys(s: Globals)
    ensures KeyStep(s, 'r') == s.(wingAngleRight := s.wingAngleRight + 5.0)
    ensures KeyStep(s, 'R') == s.(wingAngleRight := s.wingAngleRight - 5.0)
  {
  }

  lemma LeftWingKeys(s: Globals)
    ensures KeyStep(s, 't') == s.(wingAngleLeft := s.wingAngleLeft + 5.0)
    ensures KeyStep(s, 'T') == s.(wingAngleLeft := s.wingAngleLeft - 5.0)
  {
  }

  lemma CannonKeys(s: Globals)
    ensures KeyStep(s, 'y') == s.(cannonAngleTop := s.cannonAngleTop + 5.0)
    ensures KeyStep(s, 'Y') == s.(cannonAngleTop := s.cannonAngleTop - 5.0)
    ensures KeyStep(s, 'u') == s.(cannonAngleSubsubpart := s.cannonAngleSubsubpart + 5.0)
    ensures KeyStep(s, 'U') == s.(cannonAngleSubsubpart := s.cannonAngleSubsubpart - 5.0)
  {
  }

  /** n presses of 'r' turn the right wing by 5 n degrees and nothing else. */
  lemma {:induction false} RepeatedWingKey(s: Globals, n: nat)
    ensures Keys(s, Repeat('r', n)) == s.(wingAngleRight := s.wingAngleRight + 5.0 * n as real)
    decreases n
  {
    if n > 0 {
      var t := KeyStep(s, 'r');
      assert Repeat('r', n)[1..] == Repeat('r', n - 1);
      RepeatedWingKey(t, n - 1);
    }
  }

  /** Six presses of 'r' from the start give a right wing angle of 30. */
  lemma SixWingPresses()
    ensures Keys(Initial(), "rrrrrr").wingAngleRight == 30.0
  {
    assert Repeat('r', 6) == "rrrrrr";
    RepeatedWingKey(Initial(), 6);
  }

  // ---------------------------------------------------------------------
  // Mouse

  /** A press sets its button's flag and records the position; a release
      clears only its flag; the other buttons, the cameras, the poses and the
      angles are kept, and the modifier flags are the given bits. */
  lemma MouseBookkeeping(s: Globals, button: int, state: int, x: int, y: int, kmState: bv32)
    requires WellFormed(s) && 0 <= button < Buttons
    ensures var t := MouseStep(s, button, state, x, y, kmState);
            WellFormed(t)
            && t.mbuttons[button] == (state == Down)
            && (forall i :: 0 <= i < Buttons && i != button ==> t.mbuttons[i] == s.mbuttons[i])
            && (state == Down ==> t.mxPrev == x && t.myPrev == y)
            && (state != Down ==> t.mxPrev == s.mxPrev && t.myPrev == s.myPrev)
            && t.kmodifiers == Modifiers(kmState)
            && t.(mbuttons := s.mbuttons, kmodifiers := s.kmodifiers, mxPrev := s.mxPrev, myPrev := s.myPrev) == s
  {
  }

  /** A mouse button event keeps the poses as they are. */
  lemma MouseKeepsPoses(s: Globals, button: int, state: int, x: int, y: int, kmState: bv32)
    requires WellFormed(s) && 0 <= button < Buttons
    ensures Posed(MouseStep(s, button, state, x, y, kmState)) <==> Posed(s)
  {
  }

  /** With neither the left nor the right button held, motion changes
      nothing, not even the recorded position. */
  lemma MotionWithoutButton(s: Globals, x: int, y: int)
    requires WellFormed(s) && !s.mbuttons[LeftButton] && !s.mbuttons[RightButton]
    ensures MotionStep(s, x, y) == s
  {
  }

  /** A drag changes only the control-selected camera slot of elevation,
      azimuth and distance, by the amounts MotionFunc gives. */
  lemma DragTouchesOneSlot(s: Globals, x: int, y: int)
    requires WellFormed(s) && (s.mbuttons[LeftButton] || s.mbuttons[RightButton])
    ensures var t, c := MotionStep(s, x, y), s.camctrlId;
            var dx, dy := x - s.mxPrev, y - s.myPrev;
            WellFormed(t) && t.mxPrev == x && t.myPrev == y
            && (forall i :: 0 <= i < Cameras && i != c ==>
                  t.elevation[i] == s.elevation[i] && t.azimuth[i] == s.azimuth[i]
                  && t.distance[i] == s.distance[i])
            && t.elevation[c] == s.elevation[c]
                 + (if s.mbuttons[LeftButton] && !s.kmodifiers[KmCtrl] then dy as real else 0.0)
            && t.azimuth[c] == s.azimuth[c]
                 + (if s.mbuttons[LeftButton] && !s.kmodifiers[KmShift] then dx as real else 0.0)
            && t.distance[c] == s.distance[c]
                 + (if s.mbuttons[RightButton] then ZoomDelta(dx, dy) as real else 0.0)
            && t.(mxPrev := s.mxPrev, myPrev := s.myPrev, elevation := s.elevation,
                  azimuth := s.azimuth, distance := s.distance) == s
  {
  }

  /** Mouse motion keeps the poses as they are. */
  lemma MotionKeepsPoses(s: Globals, x: int, y: int)
    requires WellFormed(s)
    ensures Posed(MotionStep(s, x, y)) <==> Posed(s)
  {
  }
}
