/** A model of the camera controller: a Camera wraps one camera object of the
    host scene, moves and turns it, keyframes it, and lays out "drive-by"
    camera paths by spreading waypoints evenly over a frame budget. */
module CameraAnimation {

  /** A triple of coordinates or of Euler angles (in degrees). */
  datatype Triple = Triple(x: real, y: real, z: real)

  /** One entry of the host's keyframe track: location and rotation at a frame. */
  datatype Keyframe = Keyframe(frame: real, position: Triple, rotation: Triple)

  /** What a drive-by call ends with: keyframes laid down, or the
      ZeroDivisionError raised by a single-waypoint path. */
  datatype DriveByOutcome = Scheduled | DivisionByZero

  // ---------------------------------------------------------------------------
  // The schedule a drive-by lays down, stated step by step
  // ---------------------------------------------------------------------------

  /** The frame distance between consecutive waypoints: the budget divided by
      the number of gaps. A single waypoint has no gap and is excluded. */
  function Step(frames: int, n: int): real
    requires n != 1
  {
    frames as real / (n - 1) as real
  }

  /** The frame counter after `i` additions of `step`, starting from 0. */
  function FrameAt(step: real, i: nat): real
  {
    if i == 0 then 0.0 else FrameAt(step, i - 1) + step
  }

  /** Whether the flat rotation list holds a complete group of three for waypoint `i`. */
  predicate HasGroup(rotation: seq<real>, i: nat)
  {
    3 * i + 2 < |rotation|
  }

  /** The rotation group of waypoint `i`. */
  function Group(rotation: seq<real>, i: nat): Triple
    requires HasGroup(rotation, i)
  {
    Triple(rotation[3 * i], rotation[3 * i + 1], rotation[3 * i + 2])
  }

  /** The rotation in effect after the first `k` waypoints have been visited,
      starting from `start`: a waypoint with a complete group takes it, one
      without keeps what was in effect. */
  function RotationAfter(rotation: seq<real>, start: Triple, k: nat): Triple
  {
    if k == 0 then start
    else if HasGroup(rotation, k - 1) then Group(rotation, k - 1)
    else RotationAfter(rotation, start, k - 1)
  }

  /** The first `k` keyframes a drive-by over `points` records. */
  function Schedule(step: real, points: seq<Triple>, rotation: seq<real>, start: Triple, k: nat): (ks: seq<Keyframe>)
    requires k <= |points|
    ensures |ks| == k
  {
    if k == 0 then []
    else Schedule(step, points, rotation, start, k - 1)
         + [Keyframe(FrameAt(step, k - 1), points[k - 1], RotationAfter(rotation, start, k))]
  }

  // ---------------------------------------------------------------------------
  // What the schedule means
  // ---------------------------------------------------------------------------

  /** Repeated addition of the step places the `i`-th keyframe at `i * step`. */
  lemma {:induction false} FrameAtIsMultiple(step: real, i: nat)
    ensures FrameAt(step, i) == i as real * step
  {
    if i > 0 {
      FrameAtIsMultiple(step, i - 1);
    }
  }

  /** With at least two waypoints the last keyframe lands exactly on the budget. */
  lemma LastFrameIsBudget(frames: int, n: int)
    requires n >= 2
    ensures FrameAt(Step(frames, n), n - 1) == frames as real
  {
    FrameAtIsMultiple(Step(frames, n), n - 1);
  }

  /** Keyframe `i` is at the `i`-th frame offset, at waypoint `i`, with the
      rotation in effect after `i + 1` waypoints. */
  lemma {:induction false} ScheduleAt(step: real, points: seq<Triple>, rotation: seq<real>, start: Triple, k: nat, i: nat)
    requires i < k <= |points|
    ensures Schedule(step, points, rotation, start, k)[i]
            == Keyframe(i as real * step, points[i], RotationAfter(rotation, start, i + 1))
  {
    if i < k - 1 {
      ScheduleAt(step, points, rotation, start, k - 1, i);
    } else {
      FrameAtIsMultiple(step, i);
    }
  }

  /** The rotation recorded at keyframe `i` is waypoint `i`'s group when the list
      holds all three of its values; otherwise it is the rotation in effect
      before that waypoint (the previous keyframe's, or the start rotation). */
  lemma KeyframeRotation(step: real, points: seq<Triple>, rotation: seq<real>, start: Triple, i: nat)
    requires i < |points|
    ensures var ks := Schedule(step, points, rotation, start, |points|);
            HasGroup(rotation, i) ==> ks[i].rotation == Group(rotation, i)
    ensures var ks := Schedule(step, points, rotation, start, |points|);
            !HasGroup(rotation, i) ==> ks[i].rotation == (if i == 0 then start else ks[i - 1].rotation)
  {
    ScheduleAt(step, points, rotation, start, |points|, i);
    if i > 0 {
      ScheduleAt(step, points, rotation, start, |points|, i - 1);
    }
  }

  /** A complete group exists for waypoint `i` exactly when `i` is below the
      number of complete groups in the list. */
  lemma HasGroupBelow(rotation: seq<real>, i: nat)
    ensures HasGroup(rotation, i) <==> i < |rotation| / 3
  {
  }

  /** Once the rotation list runs out, every later keyframe keeps the last
      complete group (or the start rotation when there is none). */
  lemma {:induction false} RotationRunsOut(rotation: seq<real>, start: Triple, k: nat)
    requires k >= |rotation| / 3
    ensures RotationAfter(rotation, start, k)
            == if |rotation| / 3 == 0 then start else Group(rotation, |rotation| / 3 - 1)
  {
    var g := |rotation| / 3;
    if k > g {
      HasGroupBelow(rotation, k - 1);
      RotationRunsOut(rotation, start, k - 1);
    } else if g > 0 {
      HasGroupBelow(rotation, g - 1);
    }
  }

  // ---------------------------------------------------------------------------
  // The host camera object and its wrapper
  // ---------------------------------------------------------------------------

  /** The camera object of the host scene: its location, its rotation (kept
      in degrees), its lens and the keyframe track it has been given. */
  class HostCamera {
    var location: Triple
    var rotation: Triple
    var lens: int
    var keyframes: seq<Keyframe>

    /** The host's "add camera" operator: a new camera at `location`, with no
        rotation, the host's default lens and no animation. */
    constructor (location: Triple)
      ensures this.location == location && rotation == Triple(0.0, 0.0, 0.0)
      ensures lens == 50 && keyframes == []
    {
      this.location := location;
      rotation := Triple(0.0, 0.0, 0.0);
      lens := 50;
      keyframes := [];
    }

    /** Keyframing location and rotation at `frame` records both in the track. */
    method InsertKeyframe(frame: real)
      modifies this
      ensures keyframes == old(keyframes) + [Keyframe(frame, location, rotation)]
      ensures location == old(location) && rotation == old(rotation) && lens == old(lens)
    {
      keyframes := keyframes + [Keyframe(frame, location, rotation)];
    }
  }

  class Camera {
    const name: string
    var x: real
    var y: real
    var z: real
    const cam: HostCamera

    /** The stored coordinates always agree with the host object's location. */
    ghost predicate Valid()
      reads this, cam
    {
      cam.location == Triple(x, y, z)
    }

    /** The position the wrapper reports. */
    function Position(): (p: Triple)
      reads this
    {
      Triple(x, y, z)
    }

    /** A fresh camera stands at `(x, y, z)`, looks along rotation (90, 0, 90)
        degrees, has a 25 mm lens and no keyframes. */
    constructor (name: string, x: real, y: real, z: real)
      ensures Valid() && fresh(cam) && this.name == name
      ensures Position() == Triple(x, y, z)
      ensures cam.rotation == Triple(90.0, 0.0, 90.0)
      ensures cam.lens == 25 && cam.keyframes == []
    {
      this.name := name;
      this.x := x;
      this.y := y;
      this.z := z;
      cam := new HostCamera(Triple(x, y, z));
      new;
      cam.lens := 25;
      SetCameraRotation(90.0, 0.0, 90.0);
    }

    /** Moves the camera; its rotation, lens and keyframes stay as they were. */
    method SetCameraPosition(x: real, y: real, z: real)
      requires Valid()
      modifies this, cam
      ensures Valid() && Position() == Triple(x, y, z)
      ensures cam.rotation == old(cam.rotation) && cam.lens == old(cam.lens)
      ensures cam.keyframes == old(cam.keyframes)
    {
      this.x := x;
      this.y := y;
      this.z := z;
      cam.location := Triple(x, y, z);
    }

    /** The position last set. */
    method GetCameraPosition() returns (p: Triple)
      ensures p == Triple(x, y, z)
    {
      p := Triple(x, y, z);
    }

    /** The rotation of the host object, in degrees. */
    method GetCameraRotation() returns (r: Triple)
      ensures r == cam.rotation
    {
      r := cam.rotation;
    }

    /** Turns the camera; nothing else changes. */
    method SetCameraRotation(xRotation: real, yRotation: real, zRotation: real)
      requires Valid()
      modifies cam
      ensures Valid()
      ensures cam.rotation == Triple(xRotation, yRotation, zRotation)
      ensures cam.location == old(cam.location) && cam.lens == old(cam.lens)
      ensures cam.keyframes == old(cam.keyframes)
    {
      cam.rotation := Triple(xRotation, yRotation, zRotation);
    }

    /** Records the current location and rotation at `frame`. */
    method AddKeyframe(frame: real)
      requires Valid()
      modifies cam
      ensures Valid()
      ensures cam.keyframes == old(cam.keyframes) + [Keyframe(frame, Position(), cam.rotation)]
      ensures cam.rotation == old(cam.rotation) && cam.lens == old(cam.lens)
    {
      cam.InsertKeyframe(frame);
    }

    /** Visits the waypoints in order, turning to each complete group of three
        rotation values, and keyframes each waypoint; the keyframes are spread
        evenly over `frames`. One waypoint divides by zero before anything
        changes; no waypoints change nothing. */
    method DriveBy(frames: int, points: seq<Triple>, rotation: seq<real>) returns (outcome: DriveByOutcome)
      requires Valid()
      modifies this, cam
      ensures Valid() && cam.lens == old(cam.lens)
      ensures outcome == DivisionByZero <==> |points| == 1
      ensures |points| == 1 ==>
                Position() == old(Position()) && cam.rotation == old(cam.rotation)
                && cam.keyframes == old(cam.keyframes)
      ensures |points| != 1 ==>
                cam.keyframes == old(cam.keyframes)
                                 + Schedule(Step(frames, |points|), points, rotation, old(cam.rotation), |points|)
                && cam.rotation == RotationAfter(rotation, old(cam.rotation), |points|)
                && Position() == if |points| == 0 then old(Position()) else points[|points| - 1]
    {
      if |points| == 1 {
        return DivisionByZero;
      }
      ghost var start := cam.rotation;
      ghost var track := cam.keyframes;
      ghost var before := Position();
      var frame := 0.0;
      var rot := 0;
      var step := Step(frames, |points|);
      for i := 0 to |points|
        invariant Valid() && cam.lens == old(cam.lens)
        invariant rot == 3 * i
        invariant frame == FrameAt(step, i)
        invariant cam.rotation == RotationAfter(rotation, start, i)
        invariant cam.keyframes == track + Schedule(step, points, rotation, start, i)
        invariant Position() == if i == 0 then before else points[i - 1]
      {
        SetCameraPosition(points[i].x, points[i].y, points[i].z);
        if rot + 2 < |rotation| {
          SetCameraRotation(rotation[rot], rotation[rot + 1], rotation[rot + 2]);
        }
        AddKeyframe(frame);
        rot := rot + 3;
        frame := frame + step;
      }
      outcome := Scheduled;
    }

    /** Left-to-right pass: two keyframes, at 0 and at `frames`. */
    method Preset1(frames: int)
      requires Valid()
      modifies this, cam
      ensures Valid()
      ensures cam.keyframes == old(cam.keyframes) + Preset1Keyframes(frames) && cam.lens == old(cam.lens)
      ensures Position() == Triple(5.0, 3.0, 0.0) && cam.rotation == Triple(90.0, 0.0, 90.0)
    {
      var _ := DriveBy(frames, Preset1Points(), Preset12Rotation());
      Preset1Schedule(frames, old(cam.rotation));
    }

    /** Dolly in: two keyframes, from far away to close up. */
    method Preset2(frames: int)
      requires Valid()
      modifies this, cam
      ensures Valid()
      ensures cam.keyframes == old(cam.keyframes) + Preset2Keyframes(frames) && cam.lens == old(cam.lens)
      ensures Position() == Triple(3.0, 0.0, 0.0) && cam.rotation == Triple(90.0, 0.0, 90.0)
    {
      var _ := DriveBy(frames, Preset2Points(), Preset12Rotation());
      Preset2Schedule(frames, old(cam.rotation));
    }

    /** Fly-over: three keyframes, the middle one above the object. */
    method Preset3(frames: int)
      requires Valid()
      modifies this, cam
      ensures Valid()
      ensures cam.keyframes == old(cam.keyframes) + Preset3Keyframes(frames) && cam.lens == old(cam.lens)
      ensures Position() == Triple(-4.0, 1.0, 0.0) && cam.rotation == Triple(90.0, 0.0, 270.0)
    {
      var _ := DriveBy(frames, Preset3Points(), Preset3Rotation());
      Preset3Schedule(frames, old(cam.rotation));
    }
  }

  // ---------------------------------------------------------------------------
  // The three canned paths
  // ---------------------------------------------------------------------------

  function Preset1Points(): seq<Triple>
  {
    [Triple(5.0, -3.0, 0.0), Triple(5.0, 3.0, 0.0)]
  }

  function Preset2Points(): seq<Triple>
  {
    [Triple(100.0, 0.0, 0.0), Triple(3.0, 0.0, 0.0)]
  }

  function Preset3Points(): seq<Triple>
  {
    [Triple(5.0, 0.0, 0.0), Triple(1.0, 1.0, 5.0), Triple(-4.0, 1.0, 0.0)]
  }

  /** The rotation list shared by the first two presets. */
  function Preset12Rotation(): seq<real>
  {
    [90.0, 0.0, 90.0, 90.0, 0.0, 90.0, 90.0, 0.0, 90.0]
  }

  function Preset3Rotation(): seq<real>
  {
    [90.0, 0.0, 90.0, 0.0, 45.0, 45.0, 90.0, 0.0, 270.0]
  }

  /** The keyframes the first preset is meant to lay down. */
  function Preset1Keyframes(frames: int): seq<Keyframe>
  {
    [Keyframe(0.0, Triple(5.0, -3.0, 0.0), Triple(90.0, 0.0, 90.0)),
     Keyframe(frames as real, Triple(5.0, 3.0, 0.0), Triple(90.0, 0.0, 90.0))]
  }

  function Preset2Keyframes(frames: int): seq<Keyframe>
  {
    [Keyframe(0.0, Triple(100.0, 0.0, 0.0), Triple(90.0, 0.0, 90.0)),
     Keyframe(frames as real, Triple(3.0, 0.0, 0.0), Triple(90.0, 0.0, 90.0))]
  }

  function Preset3Keyframes(frames: int): seq<Keyframe>
  {
    [Keyframe(0.0, Triple(5.0, 0.0, 0.0), Triple(90.0, 0.0, 90.0)),
     Keyframe(frames as real / 2.0, Triple(1.0, 1.0, 5.0), Triple(0.0, 45.0, 45.0)),
     Keyframe(frames as real, Triple(-4.0, 1.0, 0.0), Triple(90.0, 0.0, 270.0))]
  }

  /** The first preset's schedule: frames 0 and `frames`, whatever the start rotation. */
  lemma Preset1Schedule(frames: int, start: Triple)
    ensures Schedule(Step(frames, 2), Preset1Points(), Preset12Rotation(), start, 2) == Preset1Keyframes(frames)
    ensures RotationAfter(Preset12Rotation(), start, 2) == Triple(90.0, 0.0, 90.0)
  {
    var step := Step(frames, 2);
    ScheduleAt(step, Preset1Points(), Preset12Rotation(), start, 2, 0);
    ScheduleAt(step, Preset1Points(), Preset12Rotation(), start, 2, 1);
    LastFrameIsBudget(frames, 2);
  }

  lemma Preset2Schedule(frames: int, start: Triple)
    ensures Schedule(Step(frames, 2), Preset2Points(), Preset12Rotation(), start, 2) == Preset2Keyframes(frames)
    ensures RotationAfter(Preset12Rotation(), start, 2) == Triple(90.0, 0.0, 90.0)
  {
    var step := Step(frames, 2);
    ScheduleAt(step, Preset2Points(), Preset12Rotation(), start, 2, 0);
    ScheduleAt(step, Preset2Points(), Preset12Rotation(), start, 2, 1);
    LastFrameIsBudget(frames, 2);
  }

  /** The third preset's schedule: the middle keyframe at half the budget,
      turned to (0, 45, 45). */
  lemma Preset3Schedule(frames: int, start: Triple)
    ensures Schedule(Step(frames, 3), Preset3Points(), Preset3Rotation(), start, 3) == Preset3Keyframes(frames)
    ensures RotationAfter(Preset3Rotation(), start, 3) == Triple(90.0, 0.0, 270.0)
  {
    var step := Step(frames, 3);
    ScheduleAt(step, Preset3Points(), Preset3Rotation(), start, 3, 0);
    ScheduleAt(step, Preset3Points(), Preset3Rotation(), start, 3, 1);
    LastFrameIsBudget(frames, 3);
  }
}
