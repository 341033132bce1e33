/**
 * What one `rcv_js` call does, branch by branch, stated on `Step`, plus the
 * worked scenarios.
 */
module SimulationProperties {
  import opened Messages
  import opened Simulation

  /** The normalised heading is the unique value in [0, 359] congruent to h. */
  lemma NormalizedUnique(h: int, r: int)
    requires 0 <= r <= 359 && (r - h) % 360 == 0
    ensures r == Normalized(h)
  {
  }

  /** A turn replaces only the heading, by normalize(heading + deflection·90). */
  lemma TurnChangesHeadingOnly(s: State, msg: JoystickDeflection)
    requires IsTurn(msg.joystick)
    ensures Step(s, msg).position == s.position
    ensures Step(s, msg).obstacles == s.obstacles
    ensures Step(s, msg).heading == Normalized(s.heading + TurnDelta(msg.deflection))
  {
  }

  /** The turn direction comes from the deflection's sign: left and right channels act alike. */
  lemma TurnIgnoresChannel(s: State, d: Deflection)
    ensures Step(s, JoystickDeflection(TRACK_LEFT, d)) == Step(s, JoystickDeflection(TRACK_RIGHT, d))
  {
  }

  /** Forward and backward channels act alike too: the sign of the deflection decides. */
  lemma MoveIgnoresChannel(s: State, d: Deflection)
    requires QuarterTurn(s.heading)
    ensures Step(s, JoystickDeflection(TRACK_FORWARD, d)) == Step(s, JoystickDeflection(TRACK_BACKWARD, d))
  {
  }

  /** A move to a free in-bounds candidate replaces the position and nothing else. */
  lemma MoveAccepted(s: State, msg: JoystickDeflection)
    requires IsMove(msg.joystick) && QuarterTurn(s.heading)
    requires InBounds(Candidate(s.position, s.heading, msg.deflection))
    requires Candidate(s.position, s.heading, msg.deflection) !in s.obstacles
    ensures Step(s, msg) == s.(position := Candidate(s.position, s.heading, msg.deflection))
  {
  }

  /** A move onto an obstacle changes nothing at all. */
  lemma MoveBlocked(s: State, msg: JoystickDeflection)
    requires Invariant(s)
    requires IsMove(msg.joystick) && QuarterTurn(s.heading)
    requires Candidate(s.position, s.heading, msg.deflection) in s.obstacles
    ensures Step(s, msg) == s
  {
  }

  /** A move out of bounds resets position, heading and obstacles, whatever the prior state. */
  lemma MoveOutOfBoundsResets(s: State, msg: JoystickDeflection)
    requires IsMove(msg.joystick) && QuarterTurn(s.heading)
    requires !InBounds(Candidate(s.position, s.heading, msg.deflection))
    ensures Step(s, msg) == Initial()
    ensures Step(s, msg) == State(Pos(0, 0), 90, [Pos(10, 20), Pos(40, 30), Pos(-60, 70)])
  {
  }

  /** Any joystick other than the four tracks leaves the whole state unchanged. */
  lemma OtherJoystickIgnored(s: State, msg: JoystickDeflection)
    requires !msg.joystick.IsTrack()
    ensures Step(s, msg) == s
  {
  }

  /** The edges are inside the world; a tenth beyond is not. */
  lemma BoundaryExactness(y: int)
    requires WORLD_LOW <= y <= WORLD_HIGH
    ensures InBounds(Pos(100, y)) && InBounds(Pos(-100, y)) && InBounds(Pos(y, 100)) && InBounds(Pos(y, -100))
    ensures !InBounds(Pos(101, y)) && !InBounds(Pos(-101, y)) && !InBounds(Pos(y, 101)) && !InBounds(Pos(y, -101))
  {
  }

  /** A command with zero deflection is a no-op on a state that keeps the invariant. */
  lemma ZeroDeflectionNoOp(s: State, t: JoystickType)
    requires Invariant(s)
    requires IsMove(t) ==> QuarterTurn(s.heading)
    ensures Step(s, JoystickDeflection(t, 0)) == s
  {
  }

  /** Scenario: from the start, forward 1.0 with heading 90 moves to (1.0, 0.0). */
  lemma ScenarioForwardFromStart()
    ensures Step(Initial(), JoystickDeflection(TRACK_FORWARD, 10)) == Initial().(position := Pos(10, 0))
  {
    assert Pos(10, 0) !in LoadObstacles();
    assert Candidate(Pos(0, 0), 90, 10) == Pos(10, 0);
  }

  /** Scenario: from the start, turn right 1.0 gives heading 180. */
  lemma ScenarioTurnRightFromStart()
    ensures Step(Initial(), JoystickDeflection(TRACK_RIGHT, 10)).heading == 180
  {
  }

  /** Scenario: from (9.9, 0) heading 90, forward 1.0 leaves the world and resets. */
  lemma ScenarioLeaveWorld()
    ensures Step(Initial().(position := Pos(99, 0)), JoystickDeflection(TRACK_FORWARD, 10)) == Initial()
  {
  }

  /** Scenario: from (1.0, 1.0) heading 180, forward 1.0 hits the obstacle (1, 2) and nothing changes. */
  lemma ScenarioHitObstacle()
    ensures Step(State(Pos(10, 10), 180, LoadObstacles()), JoystickDeflection(TRACK_FORWARD, 10))
         == State(Pos(10, 10), 180, LoadObstacles())
  {
  }
}
