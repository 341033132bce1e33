/**
 * The simulator's drive-command state machine (src/node/simulator.py).
 *
 * The pose is a position in tenths and a heading in whole degrees; the
 * obstacle list holds integer points, also written in tenths. `Step` is the
 * specification of one `rcv_js` call on the state as a value; the class
 * `Simulator` holds the same state in fields and its `RcvJs` is proved to
 * perform exactly `Step`.
 */
module Simulation {
  import opened Wrappers
  import opened Messages

  /** `WORLD_EDGES`: the closed interval [-10, 10], in tenths. */
  const WORLD_LOW: int := -100
  const WORLD_HIGH: int := 100

  /** Degrees of turn per unit of deflection. */
  const HEADING_INCREMENT: int := 90

  /** Both coordinates lie in the closed world interval. */
  predicate InBounds(p: Pos) {
    WORLD_LOW <= p.x <= WORLD_HIGH && WORLD_LOW <= p.y <= WORLD_HIGH
  }

  /** `_load_obsticles`: the fixed obstacle list [[1, 2], [4, 3], [-6, 7]]. */
  function LoadObstacles(): (obs: seq<Pos>)
    ensures |obs| == 3
    ensures forall o :: o in obs ==> InBounds(o)
    ensures Pos(0, 0) !in obs
  {
    [Pos(10, 20), Pos(40, 30), Pos(-60, 70)]
  }

  /** The state `rcv_js` reads and writes. */
  datatype State = State(position: Pos, heading: int, obstacles: seq<Pos>)

  /** `_set_initial_values`: position (0, 0), heading 90, the loaded obstacles. */
  function Initial(): State {
    State(Pos(0, 0), 90, LoadObstacles())
  }

  /**
   * The invariant every `rcv_js` call keeps: the position is inside the world
   * and not on an obstacle, the heading is normalised, and the obstacle list
   * is the one loaded at start-up.
   */
  ghost predicate Invariant(s: State) {
    && InBounds(s.position)
    && s.position !in s.obstacles
    && 0 <= s.heading <= 359
    && s.obstacles == LoadObstacles()
  }

  lemma InitialSatisfiesInvariant()
    ensures Invariant(Initial())
  {
  }

  /** `_normalize_heading` as a value: the representative of h modulo 360 in [0, 359]. */
  function Normalized(h: int): (r: int)
    ensures 0 <= r <= 359
    ensures (r - h) % 360 == 0
    ensures 0 <= h <= 359 ==> r == h
  {
    h % 360
  }

  /** The heading change of a turn: deflection times the increment, exact in whole degrees. */
  function TurnDelta(deflection: Deflection): (delta: int)
    ensures 10 * delta == deflection * HEADING_INCREMENT
    ensures -HEADING_INCREMENT <= delta <= HEADING_INCREMENT
  {
    deflection * HEADING_INCREMENT / 10
  }

  /** The headings on which the trigonometry is modelled exactly. */
  predicate QuarterTurn(h: int) {
    h == 0 || h == 90 || h == 180 || h == 270
  }

  /** sin of a quarter-turn heading in degrees. */
  function Sin(h: int): (r: int)
    requires QuarterTurn(h)
    ensures -1 <= r <= 1
  {
    if h == 90 then 1 else if h == 270 then -1 else 0
  }

  /** cos of a quarter-turn heading in degrees. */
  function Cos(h: int): (r: int)
    requires QuarterTurn(h)
    ensures -1 <= r <= 1
  {
    if h == 0 then 1 else if h == 180 then -1 else 0
  }

  /** On quarter turns the table satisfies sin^2 + cos^2 = 1 and sin(h) = cos(h - 90). */
  lemma SinCosIdentities(h: int)
    requires QuarterTurn(h)
    ensures Sin(h) * Sin(h) + Cos(h) * Cos(h) == 1
    ensures Sin(h) == Cos(Normalized(h - 90))
  {
  }

  /**
   * The candidate position of a move, by the quarter-turn table: heading 0
   * moves towards −y, 90 towards +x, 180 towards +y and 270 towards −x, by d.
   */
  function Candidate(p: Pos, heading: int, deflection: Deflection): (c: Pos)
    requires QuarterTurn(heading)
    ensures c.x == p.x || c.y == p.y
    ensures c.x - p.x == deflection || c.x - p.x == -deflection || c.y - p.y == deflection || c.y - p.y == -deflection
  {
    if heading == 0 then Pos(p.x, p.y - deflection)
    else if heading == 90 then Pos(p.x + deflection, p.y)
    else if heading == 180 then Pos(p.x, p.y + deflection)
    else Pos(p.x - deflection, p.y)
  }

  /** The table is x + sin(heading)·d, y − cos(heading)·d with the exact sine and cosine of a quarter turn. */
  lemma CandidateIsTrigonometric(p: Pos, heading: int, deflection: Deflection)
    requires QuarterTurn(heading)
    ensures Candidate(p, heading, deflection) == Pos(p.x + Sin(heading) * deflection, p.y - Cos(heading) * deflection)
  {
  }

  predicate IsTurn(t: JoystickType) {
    t == TRACK_LEFT || t == TRACK_RIGHT
  }

  predicate IsMove(t: JoystickType) {
    t == TRACK_FORWARD || t == TRACK_BACKWARD
  }

  /** A move needs a quarter-turn heading; a turn or any other command is always admitted. */
  predicate Admissible(heading: int, msg: JoystickDeflection) {
    IsMove(msg.joystick) ==> QuarterTurn(heading)
  }

  /**
   * One `rcv_js` call. A turn updates the heading; a move is accepted, blocked
   * by an obstacle, or, when out of bounds, resets the whole state; any other
   * joystick leaves the state alone.
   */
  function Step(s: State, msg: JoystickDeflection): (t: State)
    requires Admissible(s.heading, msg)
    ensures Invariant(s) ==> Invariant(t)
    ensures t.obstacles == s.obstacles || t == Initial()
  {
    if IsTurn(msg.joystick) then
      s.(heading := Normalized(s.heading + TurnDelta(msg.deflection)))
    else if IsMove(msg.joystick) then
      var c := Candidate(s.position, s.heading, msg.deflection);
      if InBounds(c) then
        if c in s.obstacles then s else s.(position := c)
      else
        Initial()
    else
      s
  }

  /** The simulator node's state, updated in place. */
  class Simulator {
    var position: Pos
    var heading: int
    var obstacles: seq<Pos>

    /** The fields as a state value. */
    function Current(): State
      reads this
    {
      State(position, heading, obstacles)
    }

    ghost predicate Valid()
      reads this
    {
      Invariant(Current())
    }

    constructor ()
      ensures Current() == Initial()
      ensures Valid()
    {
      new;
      SetInitialValues();
    }

    /** `_set_initial_values`. */
    method SetInitialValues()
      modifies this
      ensures Current() == Initial()
    {
      position := Pos(0, 0);
      heading := 90;
      obstacles := LoadObstacles();
    }

    /** `_reset_simulation`: back to the initial values (the notice is not modelled). */
    method ResetSimulation()
      modifies this
      ensures Current() == Initial()
    {
      SetInitialValues();
    }

    /** `_normalize_heading` on whole degrees: add or subtract 360 until in [0, 359]. */
    static method NormalizeHeading(h: int) returns (r: int)
      ensures r == Normalized(h)
    {
      var sign := if h >= 0 then -1 else 1;
      r := h;
      while r < 0 || r > 359
        invariant r % 360 == h % 360
        invariant sign == -1 ==> r >= 0
        invariant sign == 1 ==> r < 360
        decreases if sign == -1 then r else -r
      {
        r := r + sign * 360;
      }
    }

    /** `_is_valid_location`: a flag cleared by each coordinate outside the world. */
    static method IsValidLocation(p: Pos) returns (valid: bool)
      ensures valid <==> InBounds(p)
    {
      valid := true;
      if !(p.x >= WORLD_LOW && p.x <= WORLD_HIGH) {
        valid := false;
      }
      if !(p.y >= WORLD_LOW && p.y <= WORLD_HIGH) {
        valid := false;
      }
    }

    /** `rcv_js`: apply one drive command to the state. */
    method RcvJs(msg: JoystickDeflection)
      requires Valid()
      requires Admissible(heading, msg)
      modifies this
      ensures Valid()
      ensures Current() == Step(old(Current()), msg)
      ensures obstacles == old(obstacles)
    {
      if msg.joystick == TRACK_LEFT || msg.joystick == TRACK_RIGHT {
        heading := NormalizeHeading(heading + TurnDelta(msg.deflection));
      } else if msg.joystick == TRACK_FORWARD || msg.joystick == TRACK_BACKWARD {
        var newPosition := Candidate(position, heading, msg.deflection);
        var valid := IsValidLocation(newPosition);
        if valid {
          if newPosition in obstacles {
            // blocked by an obstacle: nothing changes
          } else {
            position := newPosition;
          }
        } else {
          ResetSimulation();
        }
      }
    }

    /** One tick of `_pub_odometry_loop`: the snapshot it publishes. */
    method Snapshot() returns (msg: Odometry)
      ensures msg.position == position && msg.heading == heading && msg.obstacles == obstacles
    {
      msg := Odometry(position, heading, obstacles);
    }
  }
}
