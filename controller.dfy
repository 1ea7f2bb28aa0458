/** The plane program's globals as one object whose callbacks update its
    fields and its three-element arrays in place, as InitTransforms,
    KeyboardFunc, MouseFunc and MotionFunc do. Each method is specified by
    the matching transition of the Controls module, so every lemma proved
    there holds of the object's state. */
module PlaneController {
  import opened Linear
  import opened Quaternions
  import opened AxisAngles
  import opened Controls

  class Controller {
    var turtleP2: Vec4
    var planeQ2: Quat
    var turtleP1: Vec4
    var planeQ1: Quat
    var zrotp: Quat
    var zrotn: Quat
    var xrotp: Quat
    var xrotn: Quat
    var yrotp: Quat
    var yrotn: Quat
    var wingAngleRight: real
    var wingAngleLeft: real
    var cannonAngleTop: real
    var cannonAngleSubsubpart: real
    var mxPrev: int
    var myPrev: int
    const mbuttons: array<bool>
    const kmodifiers: array<bool>
    var camId: int
    var camctrlId: int
    const distance: array<real>
    const elevation: array<real>
    const azimuth: array<real>

    /** The globals as one value. */
    function State(): (s: Globals)
      reads this, mbuttons, kmodifiers, distance, elevation, azimuth
    {
      Globals(turtleP2, planeQ2, turtleP1, planeQ1,
               zrotp, zrotn, xrotp, xrotn, yrotp, yrotn,
               wingAngleRight, wingAngleLeft, cannonAngleTop, cannonAngleSubsubpart,
               mxPrev, myPrev, mbuttons[..], kmodifiers[..], camId, camctrlId,
               distance[..], elevation[..], azimuth[..])
    }

    /** The five arrays are separate objects and the state is well formed. */
    ghost predicate Valid()
      reads this, mbuttons, kmodifiers, distance, elevation, azimuth
    {
      mbuttons != kmodifiers
      && distance != elevation && distance != azimuth && elevation != azimuth
      && WellFormed(State())
    }

    /** Both planes are posed (see Controls.Posed): what InitTransforms
        establishes and every callback keeps. */
    ghost predicate Posed()
      reads this, mbuttons, kmodifiers, distance, elevation, azimuth
    {
      Controls.Posed(State())
    }

    /** The program's static initialisers. */
    constructor ()
      ensures Valid() && State() == Initial()
      ensures fresh(mbuttons) && fresh(kmodifiers) && fresh(distance) && fresh(elevation) && fresh(azimuth)
    {
      turtleP2, planeQ2 := Vec4(0.0, 0.0, 0.0, 0.0), IdentityQuat;
      turtleP1, planeQ1 := Vec4(0.0, 0.0, 0.0, 0.0), IdentityQuat;
      zrotp, zrotn := IdentityQuat, IdentityQuat;
      xrotp, xrotn := IdentityQuat, IdentityQuat;
      yrotp, yrotn := IdentityQuat, IdentityQuat;
      wingAngleRight, wingAngleLeft := 0.0, 0.0;
      cannonAngleTop, cannonAngleSubsubpart := 0.0, 0.0;
      mxPrev, myPrev := 0, 0;
      mbuttons := new bool[3] [false, false, false];
      kmodifiers := new bool[3] [false, false, false];
      camId, camctrlId := 0, 0;
      distance := new real[3] [20.0, 20.0, 20.0];
      elevation := new real[3] [-45.0, -45.0, -45.0];
      azimuth := new real[3] [15.0, 15.0, 15.0];
    }

    /** InitTransforms; half is PLANE_ROTATION / 2 given by its sine and
        cosine. The assignments are grouped in four helpers. */
    method InitTransforms(half: Angle)
      requires Valid()
      modifies this
      ensures Valid() && State() == InitTransformsStep(old(State()), half)
      ensures IsAngle(half) ==> Posed()
    {
      ghost var s := State();
      PlacePlanes();
      var z := Quat(0.0, 0.0, half.sinHalf, half.cosHalf);
      var x := Quat(half.sinHalf, 0.0, 0.0, half.cosHalf);
      var y := Quat(0.0, half.sinHalf, 0.0, half.cosHalf);
      SetZDeltas(z);
      SetXDeltas(x);
      SetYDeltas(y);
      if IsAngle(half) {
        InitTransformsSetsPoses(s, half);
      }
    }

    /** Both planes at their start positions with identity orientation. */
    method PlacePlanes()
      requires Valid()
      modifies this
      ensures Valid()
      ensures State() == old(State()).(turtleP2 := Vec4(3.0, -5.0, 4.0, 1.0), planeQ2 := IdentityQuat,
                                      turtleP1 := Vec4(-3.0, 5.0, 4.0, 1.0), planeQ1 := IdentityQuat)
    {
      turtleP2 := Vec4(3.0, -5.0, 4.0, 1.0);
      planeQ2 := IdentityQuat;
      turtleP1 := Vec4(-3.0, 5.0, 4.0, 1.0);
      planeQ1 := IdentityQuat;
    }

    /** zrotp := d and zrotn := conj(d). */
    method SetZDeltas(d: Quat)
      requires Valid()
      modifies this
      ensures Valid() && State() == old(State()).(zrotp := d, zrotn := Conj(d))
    {
      zrotp := d;
      zrotn := Conj(zrotp);
    }

    /** xrotp := d and xrotn := conj(d). */
    method SetXDeltas(d: Quat)
      requires Valid()
      modifies this
      ensures Valid() && State() == old(State()).(xrotp := d, xrotn := Conj(d))
    {
      xrotp := d;
      xrotn := Conj(xrotp);
    }

    /** yrotp := d and yrotn := conj(d). */
    method SetYDeltas(d: Quat)
      requires Valid()
      modifies this
      ensures Valid() && State() == old(State()).(yrotp := d, yrotn := Conj(d))
    {
      yrotp := d;
      yrotn := Conj(yrotp);
    }

    /** KeyboardFunc; the mouse position x, y that GLUT passes is unused.
        The switch is split by the part of the state a key drives. */
    method KeyboardFunc(key: char, x: int, y: int)
      requires Valid()
      modifies this
      ensures Valid() && State() == KeyStep(old(State()), key)
      ensures old(Posed()) ==> Posed()
    {
      ghost var s := State();
      if key in CameraKeySet {
        CameraKey(key);
      } else if key in Plane2Keys {
        Plane2Key(key);
      } else if key in Plane1Keys {
        Plane1Key(key);
      } else if key in WingKeys {
        WingKey(key);
      } else if key in CannonKeySet {
        CannonKey(key);
      } else {
        UnhandledKey(State(), key);
      }
      if Controls.Posed(s) {
        KeyKeepsInvariant(s, key);
      }
    }

    /** 'v' and 'b': the next camera to view through or to control. */
    method CameraKey(key: char)
      requires Valid() && key in CameraKeySet
      modifies this
      ensures Valid() && State() == KeyStep(old(State()), key)
    {
      if key == 'v' {
        camId := (camId + 1) % Cameras;
      } else {
        camctrlId := (camctrlId + 1) % Cameras;
      }
    }

    /** 's', 'f' and the rotation keys of plane 2. */
    method Plane2Key(key: char)
      requires Valid() && key in Plane2Keys
      modifies this
      ensures Valid() && State() == KeyStep(old(State()), key)
    {
      match key {
        case 's' =>
          var vq := Mul(Mul(planeQ2, Pure(PlaneForward)), Conj(planeQ2));
          turtleP2 := Add4(turtleP2, Data(vq));
        case 'f' =>
          var vq := Mul(Mul(planeQ2, Pure(Neg3(PlaneForward))), Conj(planeQ2));
          turtleP2 := Add4(turtleP2, Data(vq));
        case 'e' => planeQ2 := Mul(planeQ2, zrotp);
        case 'q' => planeQ2 := Mul(planeQ2, zrotn);
        case 'x' => planeQ2 := Mul(planeQ2, xrotp);
        case 'w' => planeQ2 := Mul(planeQ2, xrotn);
        case 'a' => planeQ2 := Mul(planeQ2, yrotp);
        case 'd' => planeQ2 := Mul(planeQ2, yrotn);
      }
    }

    /** 'S', 'F' and the rotation keys of plane 1. */
    method Plane1Key(key: char)
      requires Valid() && key in Plane1Keys
      modifies this
      ensures Valid() && State() == KeyStep(old(State()), key)
    {
      match key {
        case 'S' =>
          var vq := Mul(Mul(planeQ1, Pure(PlaneForward)), Conj(planeQ1));
          turtleP1 := Add4(turtleP1, Data(vq));
        case 'F' =>
          var vq := Mul(Mul(planeQ1, Pure(Neg3(PlaneForward))), Conj(planeQ1));
          turtleP1 := Add4(turtleP1, Data(vq));
        case 'E' => planeQ1 := Mul(planeQ1, zrotp);
        case 'Q' => planeQ1 := Mul(planeQ1, zrotn);
        case 'X' => planeQ1 := Mul(planeQ1, xrotp);
        case 'W' => planeQ1 := Mul(planeQ1, xrotn);
        case 'A' => planeQ1 := Mul(planeQ1, yrotp);
        case 'D' => planeQ1 := Mul(planeQ1, yrotn);
      }
    }

    /** The wing keys. */
    method WingKey(key: char)
      requires Valid() && key in WingKeys
      modifies this
      ensures Valid() && State() == KeyStep(old(State()), key)
    {
      match key {
        case 'r' => wingAngleRight := wingAngleRight + DeltaRotation;
        case 'R' => wingAngleRight := wingAngleRight - DeltaRotation;
        case 't' => wingAngleLeft := wingAngleLeft + DeltaRotation;
        case 'T' => wingAngleLeft := wingAngleLeft - DeltaRotation;
      }
    }

    /** The cannon keys. */
    method CannonKey(key: char)
      requires Valid() && key in CannonKeySet
      modifies this
      ensures Valid() && State() == KeyStep(old(State()), key)
    {
      match key {
        case 'y' => cannonAngleTop := cannonAngleTop + DeltaRotation;
        case 'Y' => cannonAngleTop := cannonAngleTop - DeltaRotation;
        case 'u' => cannonAngleSubsubpart := cannonAngleSubsubpart + DeltaRotation;
        case 'U' => cannonAngleSubsubpart := cannonAngleSubsubpart - DeltaRotation;
      }
    }

    /** MouseFunc; kmState is what glutGetModifiers() returns. GLUT passes
        a button index in 0..2. */
    method MouseFunc(button: int, state: int, x: int, y: int, kmState: bv32)
      requires Valid() && 0 <= button < Buttons
      modifies this`mxPrev, this`myPrev, mbuttons, kmodifiers
      ensures Valid() && State() == MouseStep(old(State()), button, state, x, y, kmState)
      ensures Posed() <==> old(Posed())
    {
      ghost var s := State();
      if state == Down {
        mbuttons[button] := true;
        mxPrev := x;
        myPrev := y;
      } else {
        mbuttons[button] := false;
      }
      kmodifiers[KmShift] := kmState & ActiveShift != 0;
      kmodifiers[KmCtrl] := kmState & ActiveCtrl != 0;
      kmodifiers[KmAlt] := kmState & ActiveAlt != 0;
      MouseKeepsPoses(s, button, state, x, y, kmState);
    }

    /** MotionFunc. */
    method MotionFunc(x: int, y: int)
      requires Valid()
      modifies this`mxPrev, this`myPrev, elevation, azimuth, distance
      ensures Valid() && State() == MotionStep(old(State()), x, y)
      ensures Posed() <==> old(Posed())
    {
      ghost var s := State();
      if mbuttons[LeftButton] || mbuttons[RightButton] {
        var dx := x - mxPrev;
        var dy := y - myPrev;
        mxPrev := x;
        myPrev := y;
        if mbuttons[LeftButton] {
          TurnCamera(dx, dy);
        }
        if mbuttons[RightButton] {
          Zoom(dx, dy);
        }
      }
      MotionKeepsPoses(s, x, y);
    }

    /** The left-drag branch of MotionFunc. */
    method TurnCamera(dx: int, dy: int)
      requires Valid()
      modifies elevation, azimuth
      ensures Valid() && State() == TurnStep(old(State()), dx, dy)
    {
      if !kmodifiers[KmCtrl] {
        elevation[camctrlId] := elevation[camctrlId] + dy as real;
      }
      if !kmodifiers[KmShift] {
        azimuth[camctrlId] := azimuth[camctrlId] + dx as real;
      }
    }

    /** The right-drag branch of MotionFunc. */
    method Zoom(dx: int, dy: int)
      requires Valid()
      modifies distance
      ensures Valid() && State() == ZoomStep(old(State()), dx, dy)
    {
      var d;
      if Abs(dx) >= Abs(dy) {
        d := dx;
      } else {
        d := -dy;
      }
      distance[camctrlId] := distance[camctrlId] + d as real;
    }
  }
}
