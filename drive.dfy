/**
 * The nodes composed end to end: an arrow key becomes a command in the RC
 * node, the command becomes a new pose in the simulator, and the pose
 * becomes the rendered map in the viewer.
 */
module Drive {
  import opened Wrappers
  import opened Messages
  import opened Simulation
  import opened RcInput
  import opened RcViewer

  /** The states RC commands drive the simulator through: the invariant on a quarter-turn heading. */
  ghost predicate Reachable(s: State) {
    Invariant(s) && QuarterTurn(s.heading)
  }

  lemma InitialReachable()
    ensures Reachable(Initial())
  {
  }

  /** A quarter turn plus or minus 90 degrees, normalised, is again a quarter turn. */
  lemma QuarterTurnClosed(h: int, d: Deflection)
    requires QuarterTurn(h)
    requires d == 10 || d == -10
    ensures QuarterTurn(Normalized(h + TurnDelta(d)))
  {
  }

  /** Every command the RC node emits is admitted and keeps the state reachable. */
  lemma RcCommandKeepsReachable(s: State, d: Direction)
    requires Reachable(s)
    ensures Admissible(s.heading, Command(d))
    ensures Reachable(Step(s, Command(d)))
  {
  }

  /** The simulator state after the RC node has sent the commands of a series of key presses. */
  function Press(s: State, keys: seq<Direction>): (t: State)
    requires Reachable(s)
    ensures Reachable(t)
    decreases |keys|
  {
    if keys == [] then s
    else
      RcCommandKeepsReachable(s, keys[0]);
      Press(Step(s, Command(keys[0])), keys[1..])
  }

  /** Pressing one series of keys and then another is pressing their concatenation. */
  lemma {:induction false} PressConcat(s: State, a: seq<Direction>, b: seq<Direction>)
    requires Reachable(s)
    ensures Press(s, a + b) == Press(Press(s, a), b)
    decreases |a|
  {
    if a != [] {
      assert (a + b)[0] == a[0];
      assert (a + b)[1..] == a[1..] + b;
      RcCommandKeepsReachable(s, a[0]);
      PressConcat(Step(s, Command(a[0])), a[1..], b);
    } else {
      assert a + b == b;
    }
  }

  /** A left turn followed by a right turn gives back the same state. */
  lemma LeftRightCancel(s: State)
    requires Reachable(s)
    ensures Press(s, [Left, Right]) == s
  {
  }

  /** A forward step that was accepted is undone by a backward step. */
  lemma ForwardBackwardReturns(s: State)
    requires Reachable(s)
    requires InBounds(Candidate(s.position, s.heading, 5))
    requires Candidate(s.position, s.heading, 5) !in s.obstacles
    ensures Press(s, [Forward, Backward]) == s
  {
  }

  /** Whatever keys are pressed, the obstacle list stays the loaded one and the robot stays in the world. */
  lemma PressKeepsWorld(keys: seq<Direction>)
    ensures Press(Initial(), keys).obstacles == LoadObstacles()
    ensures InBounds(Press(Initial(), keys).position)
    ensures Press(Initial(), keys).position !in LoadObstacles()
  {
  }

  /** For every reachable pose the viewer draws the robot exactly once, with a quarter-turn glyph. */
  lemma ReachableDrawnOnce(s: State)
    requires Reachable(s)
    ensures MAP_LOW <= Floor(s.position.x) <= MAP_HIGH && MAP_LOW <= Floor(s.position.y) <= MAP_HIGH
    ensures forall i, j :: MAP_LOW <= i <= MAP_HIGH && MAP_LOW <= j <= MAP_HIGH ==>
      ((Cell(i, j, s.position, s.heading, s.obstacles) == HeadingChar(s.heading))
        == (i == Floor(s.position.x) && j == Floor(s.position.y)))
  {
  }

  /** The glyph points the way a forward command moves the robot on the map. */
  lemma GlyphPointsForward(p: Pos, h: int)
    requires QuarterTurn(h)
    ensures HeadingChar(h) == '^' ==> Candidate(p, h, 10) == Pos(p.x, p.y - 10)
    ensures HeadingChar(h) == '>' ==> Candidate(p, h, 10) == Pos(p.x + 10, p.y)
    ensures HeadingChar(h) == 'v' ==> Candidate(p, h, 10) == Pos(p.x, p.y + 10)
    ensures HeadingChar(h) == '<' ==> Candidate(p, h, 10) == Pos(p.x - 10, p.y)
  {
  }

  /**
   * From the start, the right-arrow bytes turn the robot to heading 180 and
   * the centre cell of the map (row y = 0, column x = 0) then shows 'v'.
   */
  lemma RightArrowFromStart()
    ensures ExtractDirection("[C") == Some(Right)
    ensures Press(Initial(), [Right]).heading == 180
    ensures var t := Press(Initial(), [Right]);
      Render(t.position, t.heading, t.obstacles)[10] == Row(0, Pos(0, 0), 180, LoadObstacles())
    ensures Row(0, Pos(0, 0), 180, LoadObstacles())[4 + 10] == 'v'
  {
    var t := Press(Initial(), [Right]);
    assert t == Press(Step(Initial(), Command(Right)), []);
    var cells := seq(MAP_SIZE, k => Cell(k + MAP_LOW, 0, Pos(0, 0), 180, LoadObstacles()));
    assert Row(0, Pos(0, 0), 180, LoadObstacles())[4 + 10] == cells[10];
    assert Floor(0) == 0;
    assert cells[10] == Cell(0, 0, Pos(0, 0), 180, LoadObstacles()) == HeadingChar(180);
  }
}
