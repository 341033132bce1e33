/**
 * The message shapes that cross the simulator's boundary (src/ipc/messages.py):
 * the joystick channel enumeration, the drive command and the odometry snapshot.
 *
 * Units: positions and deflections are integers counting TENTHS
 * (10 stands for 1.0), headings are whole degrees.
 */
module Messages {
  import opened Wrappers

  /** The eight joystick channels; the first four are the track joysticks. */
  datatype JoystickType =
    | TRACK_LEFT | TRACK_RIGHT | TRACK_FORWARD | TRACK_BACKWARD
    | CAB_SWING | STICK
    | BUCKET | BOOM
  {
    /** True for the four track joysticks. */
    predicate IsTrack() {
      this == TRACK_LEFT || this == TRACK_RIGHT || this == TRACK_FORWARD || this == TRACK_BACKWARD
    }
  }

  /** Every member of the enumeration, in declaration order. */
  const AllJoystickTypes: seq<JoystickType> :=
    [TRACK_LEFT, TRACK_RIGHT, TRACK_FORWARD, TRACK_BACKWARD, CAB_SWING, STICK, BUCKET, BOOM]

  /** The string value each enumeration member carries. */
  function Value(t: JoystickType): string {
    match t
    case TRACK_LEFT => "track_left"
    case TRACK_RIGHT => "track_right"
    case TRACK_FORWARD => "track_forward"
    case TRACK_BACKWARD => "track_backward"
    case CAB_SWING => "cab_swing"
    case STICK => "stick"
    case BUCKET => "bucket"
    case BOOM => "boom"
  }

  /** Lookup by value, `JoystickType(s)`; an unknown value is rejected. */
  function FromValue(s: string): (r: Option<JoystickType>)
    ensures r.Some? ==> Value(r.value) == s
    ensures r.None? ==> forall t :: Value(t) != s
  {
    if s == "track_left" then Some(TRACK_LEFT)
    else if s == "track_right" then Some(TRACK_RIGHT)
    else if s == "track_forward" then Some(TRACK_FORWARD)
    else if s == "track_backward" then Some(TRACK_BACKWARD)
    else if s == "cab_swing" then Some(CAB_SWING)
    else if s == "stick" then Some(STICK)
    else if s == "bucket" then Some(BUCKET)
    else if s == "boom" then Some(BOOM)
    else None
  }

  /** Lookup by value finds every member again, so values identify members. */
  lemma FromValueOfValue(t: JoystickType)
    ensures FromValue(Value(t)) == Some(t)
  {
  }

  /** The enumeration has exactly eight members with pairwise-distinct values. */
  lemma {:induction false} EightDistinctMembers()
    ensures |AllJoystickTypes| == 8
    ensures forall t :: t in AllJoystickTypes
    ensures forall i, j :: 0 <= i < j < |AllJoystickTypes| ==>
      Value(AllJoystickTypes[i]) != Value(AllJoystickTypes[j])
  {
    forall t ensures t in AllJoystickTypes {
      match t
      case TRACK_LEFT => assert AllJoystickTypes[0] == t;
      case TRACK_RIGHT => assert AllJoystickTypes[1] == t;
      case TRACK_FORWARD => assert AllJoystickTypes[2] == t;
      case TRACK_BACKWARD => assert AllJoystickTypes[3] == t;
      case CAB_SWING => assert AllJoystickTypes[4] == t;
      case STICK => assert AllJoystickTypes[5] == t;
      case BUCKET => assert AllJoystickTypes[6] == t;
      case BOOM => assert AllJoystickTypes[7] == t;
    }
    forall i, j | 0 <= i < j < |AllJoystickTypes|
      ensures Value(AllJoystickTypes[i]) != Value(AllJoystickTypes[j])
    {
      FromValueOfValue(AllJoystickTypes[i]);
      FromValueOfValue(AllJoystickTypes[j]);
    }
  }

  /** Exactly the first four members are track joysticks. */
  lemma TrackMembers(t: JoystickType)
    ensures t.IsTrack() <==> t in AllJoystickTypes[..4]
  {
    assert AllJoystickTypes[..4] == [TRACK_LEFT, TRACK_RIGHT, TRACK_FORWARD, TRACK_BACKWARD];
  }

  /** A deflection in tenths: the closed interval [-1.0, 1.0]. */
  type Deflection = d: int | -10 <= d <= 10

  /** A drive command: a joystick channel and its deflection. */
  datatype JoystickDeflection = JoystickDeflection(joystick: JoystickType, deflection: Deflection)

  /** Field validation of a `JoystickDeflection`: accepted iff -1.0 <= deflection <= 1.0. */
  function MakeJoystickDeflection(joystick: JoystickType, deflection: int): (r: Option<JoystickDeflection>)
    ensures r.Some? <==> -10 <= deflection <= 10
    ensures r.Some? ==> r.value.joystick == joystick && r.value.deflection == deflection
  {
    if -10 <= deflection <= 10 then Some(JoystickDeflection(joystick, deflection)) else None
  }

  /** A position, in tenths on both axes. */
  datatype Pos = Pos(x: int, y: int)

  /** The odometry snapshot: position, heading and the obstacle list. */
  datatype Odometry = Odometry(position: Pos, heading: int, obstacles: seq<Pos>)
}
