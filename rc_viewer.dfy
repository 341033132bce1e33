/**
 * The ASCII map viewer (src/node/rc_viewer.py): 21 rows for y = -10..10, each
 * "   |" followed by 21 cells for x = -10..10 and "|   ". The cell under the
 * robot shows its heading glyph, an obstacle cell shows 'X', any other '-'.
 * Positions arrive in tenths; obstacles are drawn at whole coordinates.
 */
module RcViewer {
  import opened Messages

  /** `MAP_BOUNDS`: the map shows whole coordinates -10..10 on both axes. */
  const MAP_LOW: int := -10
  const MAP_HIGH: int := 10
  const MAP_SIZE: int := MAP_HIGH - MAP_LOW + 1

  /** `int(np.floor(v))` for v given in tenths. */
  function Floor(t: int): (r: int)
    ensures 10 * r <= t < 10 * r + 10
  {
    t / 10
  }

  /** `_viz_heading_char`: '>' for 90, 'v' for 180, '<' for 270 and '^' for anything else. */
  function HeadingChar(heading: int): (c: char)
    ensures c == '>' <==> heading == 90
    ensures c == 'v' <==> heading == 180
    ensures c == '<' <==> heading == 270
    ensures c == '^' <==> heading != 90 && heading != 180 && heading != 270
  {
    if heading == 90 then '>'
    else if heading == 180 then 'v'
    else if heading == 270 then '<'
    else '^'
  }

  /** The character at whole coordinates (i, j): robot first, then obstacle, else empty. */
  function Cell(i: int, j: int, position: Pos, heading: int, obstacles: seq<Pos>): char {
    if i == Floor(position.x) && j == Floor(position.y) then HeadingChar(heading)
    else if Pos(10 * i, 10 * j) in obstacles then 'X'
    else '-'
  }

  /** The line for row j. */
  function Row(j: int, position: Pos, heading: int, obstacles: seq<Pos>): (line: string)
    ensures |line| == MAP_SIZE + 8
  {
    "   |" + seq(MAP_SIZE, k => Cell(k + MAP_LOW, j, position, heading, obstacles)) + "|   "
  }

  /** The whole map, top row y = -10 first. */
  function Render(position: Pos, heading: int, obstacles: seq<Pos>): (lines: seq<string>)
    ensures |lines| == MAP_SIZE
  {
    seq(MAP_SIZE, k => Row(k + MAP_LOW, position, heading, obstacles))
  }

  /** The grid-building loops of `_viz_map`, appending to the line one cell at a time. */
  method VizMap(position: Pos, heading: int, obstacles: seq<Pos>) returns (lines: seq<string>)
    ensures lines == Render(position, heading, obstacles)
  {
    lines := [];
    for j := MAP_LOW to MAP_HIGH + 1
      invariant |lines| == j - MAP_LOW
      invariant forall k :: 0 <= k < |lines| ==> lines[k] == Row(k + MAP_LOW, position, heading, obstacles)
    {
      var lineStr := "   |";
      for i := MAP_LOW to MAP_HIGH + 1
        invariant |lineStr| == 4 + (i - MAP_LOW)
        invariant lineStr[..4] == "   |"
        invariant forall n :: 4 <= n < |lineStr| ==> lineStr[n] == Cell(n - 4 + MAP_LOW, j, position, heading, obstacles)
      {
        if i == Floor(position.x) && j == Floor(position.y) {
          lineStr := lineStr + [HeadingChar(heading)];
        } else if Pos(10 * i, 10 * j) in obstacles {
          lineStr := lineStr + "X";
        } else {
          lineStr := lineStr + "-";
        }
      }
      lineStr := lineStr + "|   ";
      ghost var row := Row(j, position, heading, obstacles);
      assert forall n :: 0 <= n < |lineStr| ==> lineStr[n] == row[n];
      lines := lines + [lineStr];
    }
    assert forall k :: 0 <= k < MAP_SIZE ==> lines[k] == Render(position, heading, obstacles)[k];
  }

  /** Map row k, column c shows cell (c - 10, k - 10), framed by the borders. */
  lemma RenderAt(position: Pos, heading: int, obstacles: seq<Pos>, k: int, c: int)
    requires 0 <= k < MAP_SIZE && 0 <= c < MAP_SIZE
    ensures |Render(position, heading, obstacles)| == MAP_SIZE
    ensures |Render(position, heading, obstacles)[k]| == MAP_SIZE + 8
    ensures Render(position, heading, obstacles)[k][..4] == "   |"
    ensures Render(position, heading, obstacles)[k][MAP_SIZE + 4..] == "|   "
    ensures Render(position, heading, obstacles)[k][4 + c] == Cell(c + MAP_LOW, k + MAP_LOW, position, heading, obstacles)
  {
    var row := Render(position, heading, obstacles)[k];
    assert row == Row(k + MAP_LOW, position, heading, obstacles);
  }

  /** A cell shows the heading glyph iff it is the cell under the robot. */
  lemma GlyphIffRobotCell(i: int, j: int, position: Pos, heading: int, obstacles: seq<Pos>)
    ensures (Cell(i, j, position, heading, obstacles) == HeadingChar(heading))
        == (i == Floor(position.x) && j == Floor(position.y))
  {
  }

  /** A position inside the world puts the robot's cell on the map, so it is drawn exactly once. */
  lemma RobotDrawnOnce(position: Pos, heading: int, obstacles: seq<Pos>)
    requires -100 <= position.x <= 100 && -100 <= position.y <= 100
    ensures MAP_LOW <= Floor(position.x) <= MAP_HIGH && MAP_LOW <= Floor(position.y) <= MAP_HIGH
    ensures forall i, j :: MAP_LOW <= i <= MAP_HIGH && MAP_LOW <= j <= MAP_HIGH ==>
      ((Cell(i, j, position, heading, obstacles) == HeadingChar(heading))
        == (i == Floor(position.x) && j == Floor(position.y)))
  {
  }

  /** Away from the robot, a cell is 'X' iff its whole point is an obstacle, else '-'. */
  lemma ObstacleCell(i: int, j: int, position: Pos, heading: int, obstacles: seq<Pos>)
    requires !(i == Floor(position.x) && j == Floor(position.y))
    ensures Cell(i, j, position, heading, obstacles) == 'X' <==> Pos(10 * i, 10 * j) in obstacles
    ensures Cell(i, j, position, heading, obstacles) == '-' <==> Pos(10 * i, 10 * j) !in obstacles
  {
  }

  /** The robot's cell shows the glyph even when an obstacle lies there. */
  lemma RobotOverObstacle(position: Pos, heading: int, obstacles: seq<Pos>)
    ensures Cell(Floor(position.x), Floor(position.y), position, heading, obstacles) == HeadingChar(heading)
  {
  }

  /** Every 'X' in a row stands for an obstacle at a whole point inside [-10, 10]². */
  lemma DrawnObstaclesOnMap(position: Pos, heading: int, obstacles: seq<Pos>, j: int, c: int)
    requires MAP_LOW <= j <= MAP_HIGH && 0 <= c < MAP_SIZE
    requires Row(j, position, heading, obstacles)[4 + c] == 'X'
    ensures Pos(10 * (c + MAP_LOW), 10 * j) in obstacles
    ensures -100 <= 10 * (c + MAP_LOW) <= 100 && -100 <= 10 * j <= 100
  {
    var cells := seq(MAP_SIZE, k => Cell(k + MAP_LOW, j, position, heading, obstacles));
    assert Row(j, position, heading, obstacles)[4 + c] == cells[c];
    assert Cell(c + MAP_LOW, j, position, heading, obstacles) == 'X';
    assert HeadingChar(heading) != 'X';
  }
}
