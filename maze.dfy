/**
 * The digger maze: a grid of open (0) and wall (1) cells, a start cell and a
 * treasure cell, and a path that the player draws with the mouse.  A pointer
 * position is mapped to the cell that contains it by floor division by the
 * cell size; a position is accepted when that cell is inside the grid and open.
 * Each new position is checked on its own: the straight stroke from the
 * previous position is never examined.
 */
module Maze {
  import opened Common

  /** A pixel position on the canvas, or a cell given as (column, row). */
  datatype Point = Point(x: int, y: int)

  /** A hand-authored level; `start` and `end` are cells as (column, row). */
  datatype Pattern = Pattern(grid: seq<seq<int>>, start: Point, end: Point)

  /** A level ready to play: a pattern together with its cell size in pixels. */
  datatype Layout = Layout(grid: seq<seq<int>>, start: Point, end: Point, cellSize: int)

  const Open := 0
  const Wall := 1

  /** The three levels, easiest first. */
  const Patterns: seq<Pattern> := [
    Pattern([
      [0, 0, 0, 0, 0],
      [1, 1, 1, 1, 0],
      [0, 0, 0, 1, 0],
      [0, 1, 0, 1, 0],
      [0, 0, 0, 0, 0]
    ], Point(0, 0), Point(4, 4)),
    Pattern([
      [0, 1, 0, 0, 0, 0],
      [0, 1, 0, 1, 1, 0],
      [0, 0, 0, 1, 0, 0],
      [1, 1, 0, 1, 0, 1],
      [0, 0, 0, 0, 0, 1],
      [0, 1, 1, 1, 0, 0]
    ], Point(0, 0), Point(5, 5)),
    Pattern([
      [0, 0, 1, 0, 0, 0, 0],
      [1, 0, 1, 0, 1, 1, 0],
      [0, 0, 0, 0, 1, 0, 0],
      [0, 1, 1, 0, 1, 0, 1],
      [0, 0, 1, 0, 0, 0, 1],
      [1, 0, 1, 1, 1, 0, 0],
      [0, 0, 0, 0, 0, 0, 0]
    ], Point(0, 0), Point(6, 6))
  ]

  /** Every row has the width of the first, and the grid is not empty. */
  predicate Rectangular(g: seq<seq<int>>) {
    |g| > 0 && |g[0]| > 0 && forall r :: 0 <= r < |g| ==> |g[r]| == |g[0]|
  }

  /** Cell `c` (column, row) lies inside the grid and is open ground. */
  predicate IsOpen(g: seq<seq<int>>, c: Point) {
    0 <= c.y < |g| && 0 <= c.x < |g[c.y]| && g[c.y][c.x] == Open
  }

  predicate WellFormedPattern(p: Pattern) {
    && Rectangular(p.grid)
    && (forall r, c :: 0 <= r < |p.grid| && 0 <= c < |p.grid[r]| ==> p.grid[r][c] in {Open, Wall})
    && IsOpen(p.grid, p.start)
    && IsOpen(p.grid, p.end)
  }

  predicate WellFormed(m: Layout) {
    WellFormedPattern(Pattern(m.grid, m.start, m.end)) && m.cellSize > 0
  }

  /** Every level is a rectangle of open and wall cells whose start and treasure cells are open. */
  lemma PatternsWellFormed()
    ensures |Patterns| == 3
    ensures forall i :: 0 <= i < |Patterns| ==> WellFormedPattern(Patterns[i])
    ensures forall i :: 0 <= i < |Patterns| ==> |Patterns[i].grid| == i + 5 && |Patterns[i].grid[0]| == i + 5
  {
    forall i | 0 <= i < |Patterns| ensures WellFormedPattern(Patterns[i]) {
      var g := Patterns[i].grid;
      assert Rectangular(g);
      forall r, c | 0 <= r < |g| && 0 <= c < |g[r]| ensures g[r][c] in {Open, Wall} {
        assert g[r] in g;
      }
    }
  }

  /** The level for `level` (counted from 1); levels past the last reuse the last pattern. */
  function GenerateMaze(level: int): (m: Layout)
    requires level >= 1
    ensures WellFormed(m)
    ensures var p := Patterns[Min(level - 1, |Patterns| - 1)];
            m.grid == p.grid && m.start == p.start && m.end == p.end
    ensures 0 < m.cellSize <= 60
    ensures m.cellSize * |m.grid| <= 400 && m.cellSize * |m.grid[0]| <= 400
    ensures m.cellSize == 60 || (m.cellSize + 1) * |m.grid| > 400
  {
    PatternsWellFormed();
    var p := Patterns[Min(level - 1, |Patterns| - 1)];
    Layout(p.grid, p.start, p.end, Min(60, 400 / |p.grid|))
  }

  /** The cell size is the largest one up to 60 at which every row of the grid fits in 400 pixels. */
  lemma CellSizeIsLargestFit(level: int, c: int)
    requires level >= 1 && 0 < c <= 60 && c * |GenerateMaze(level).grid| <= 400
    ensures c <= GenerateMaze(level).cellSize
  {
    var m := GenerateMaze(level);
    if c > m.cellSize {
      MulMono(m.cellSize + 1, c, |m.grid|);
      assert false;
    }
  }

  /** The cell (column, row) that contains pixel `p`; `/` on a positive divisor floors. */
  function CellOf(p: Point, cellSize: int): Point
    requires cellSize > 0
  {
    Point(p.x / cellSize, p.y / cellSize)
  }

  /**
   * The pointer may be at `p`: a maze is loaded, the row of `p` is within the
   * grid, its column within the width of the first row, and that cell is open.
   */
  function IsValidPosition(maze: Option<Layout>, p: Point): (ok: bool)
    requires maze.Some? ==> maze.value.cellSize > 0
    ensures ok ==> maze.Some? && 0 <= p.x && 0 <= p.y
    ensures ok ==> IsOpen(maze.value.grid, CellOf(p, maze.value.cellSize))
  {
    match maze
    case None => false
    case Some(m) =>
      var col := p.x / m.cellSize;
      var row := p.y / m.cellSize;
      && 0 <= row < |m.grid|
      && 0 <= col < |m.grid[0]|
      && col < |m.grid[row]|  // a missing cell reads as undefined, which is not 0
      && m.grid[row][col] == Open
  }

  /** The pointer is in the treasure cell: its column is `end.x` and its row `end.y`. */
  function CheckWin(maze: Option<Layout>, p: Point): (win: bool)
    requires maze.Some? ==> maze.value.cellSize > 0
    ensures win <==> maze.Some? && CellOf(p, maze.value.cellSize) == maze.value.end
  {
    match maze
    case None => false
    case Some(m) =>
      var col := p.x / m.cellSize;
      var row := p.y / m.cellSize;
      col == m.end.x && row == m.end.y
  }

  /** The canvas is `width * cellSize` by `rows * cellSize` pixels. */
  predicate OnCanvas(m: Layout, p: Point)
    requires Rectangular(m.grid)
  {
    0 <= p.x < |m.grid[0]| * m.cellSize && 0 <= p.y < |m.grid| * m.cellSize
  }

  /** Floor division by `c` lands in [0, n) exactly when the numerator lies in [0, n * c). */
  lemma DivInRange(v: int, c: int, n: int)
    requires c > 0
    ensures (0 <= v / c < n) <==> (0 <= v < n * c)
  {
    var q, r := v / c, v % c;
    assert v == q * c + r && 0 <= r < c;
    if 0 <= q < n {
      MulMono(0, q, c);
      MulMono(q + 1, n, c);
    }
    if 0 <= v < n * c {
      if q < 0 { MulMono(q, -1, c); }
      if q >= n { MulMono(n, q, c); }
    }
  }

  /** A valid position is exactly a point on the canvas whose cell is open. */
  lemma ValidIffOpenOnCanvas(m: Layout, p: Point)
    requires WellFormed(m)
    ensures IsValidPosition(Some(m), p) <==> OnCanvas(m, p) && IsOpen(m.grid, CellOf(p, m.cellSize))
  {
    DivInRange(p.x, m.cellSize, |m.grid[0]|);
    DivInRange(p.y, m.cellSize, |m.grid|);
  }

  /** Any pointer position in the treasure cell is itself a valid position. */
  lemma WinningPositionIsValid(m: Layout, p: Point)
    requires WellFormed(m)
    requires CheckWin(Some(m), p)
    ensures IsValidPosition(Some(m), p)
  {
  }

  /** The pixel at which the digger and the treasure are drawn: the middle of cell `c`. */
  function Centre(c: Point, cellSize: int): Point {
    Point(c.x * cellSize + cellSize / 2, c.y * cellSize + cellSize / 2)
  }

  lemma CentreDiv(k: int, c: int)
    requires c > 0 && k >= 0
    ensures (k * c + c / 2) / c == k
  {
    var v := k * c + c / 2;
    var q, r := v / c, v % c;
    assert v == q * c + r && 0 <= r < c;
    if q > k { MulMono(k + 1, q, c); }
    if q < k { MulMono(q + 1, k, c); }
  }

  /** The middle of a cell lies in that cell. */
  lemma CentreInCell(c: Point, cellSize: int)
    requires cellSize > 0 && c.x >= 0 && c.y >= 0
    ensures CellOf(Centre(c, cellSize), cellSize) == c
  {
    CentreDiv(c.x, cellSize);
    CentreDiv(c.y, cellSize);
  }

  /**
   * On every level, pressing on the digger is a valid start, and the treasure
   * drawn in the end cell is both a valid position and a winning one.
   */
  lemma StartAndTreasureReachable(level: int)
    requires level >= 1
    ensures var m := GenerateMaze(level);
            && IsValidPosition(Some(m), Centre(m.start, m.cellSize))
            && IsValidPosition(Some(m), Centre(m.end, m.cellSize))
            && CheckWin(Some(m), Centre(m.end, m.cellSize))
  {
    var m := GenerateMaze(level);
    CentreInCell(m.start, m.cellSize);
    CentreInCell(m.end, m.cellSize);
    ValidIffOpenOnCanvas(m, Centre(m.start, m.cellSize));
    ValidIffOpenOnCanvas(m, Centre(m.end, m.cellSize));
    assert m.start.x < |m.grid[0]| && m.start.y < |m.grid|;
    assert m.end.x < |m.grid[0]| && m.end.y < |m.grid|;
    DivInRange(Centre(m.start, m.cellSize).x, m.cellSize, |m.grid[0]|);
    DivInRange(Centre(m.start, m.cellSize).y, m.cellSize, |m.grid|);
    DivInRange(Centre(m.end, m.cellSize).x, m.cellSize, |m.grid[0]|);
    DivInRange(Centre(m.end, m.cellSize).y, m.cellSize, |m.grid|);
  }

  /** The level after a win: 1, 2, 3, then back to 1. */
  function NextLevel(level: int): (l: int)
    requires 1 <= level <= 3
    ensures 1 <= l <= 3
    ensures l == level + 1 || (level == 3 && l == 1)
  {
    if level < 3 then level + 1 else 1
  }

  /** The maze component: its state fields and its mouse handlers. */
  class MazeGame {
    var maze: Option<Layout>
    var drawing: bool
    var path: seq<Point>
    var complete: bool
    var score: int
    var level: int

    /** The level stays in 1..3, a loaded maze is that level's, and every drawn point is valid. */
    ghost predicate Valid()
      reads this
    {
      && 1 <= level <= 3
      && (maze.Some? ==> maze.value == GenerateMaze(level))
      && forall i :: 0 <= i < |path| ==> IsValidPosition(maze, path[i])
    }

    /** The state before the first render's effect has loaded a maze. */
    constructor ()
      ensures Valid()
      ensures maze == None && !drawing && path == [] && !complete && score == 0 && level == 1
    {
      maze := None;
      drawing := false;
      path := [];
      complete := false;
      score := 0;
      level := 1;
    }

    /** The effect that runs whenever `level` changes: load its maze, clear path and completion. */
    method LoadLevel()
      requires Valid()
      modifies this
      ensures Valid()
      ensures maze == Some(GenerateMaze(level)) && path == [] && !complete
      ensures drawing == old(drawing) && score == old(score) && level == old(level)
    {
      maze := Some(GenerateMaze(level));
      path := [];
      complete := false;
    }

    /** Mouse-down at `p`: a valid position starts a new path of exactly `[p]`; otherwise nothing changes. */
    method MouseDown(p: Point)
      requires Valid()
      modifies this
      ensures Valid()
      ensures IsValidPosition(maze, p) ==> drawing && path == [p]
      ensures !IsValidPosition(maze, p) ==> drawing == old(drawing) && path == old(path)
      ensures maze == old(maze) && complete == old(complete) && score == old(score) && level == old(level)
    {
      if IsValidPosition(maze, p) {
        drawing := true;
        path := [p];
      }
    }

    /**
     * Mouse-move to `p`.  Ignored unless drawing; an invalid position is dropped
     * and drawing goes on; a valid one is appended, and if it is in the treasure
     * cell the maze is complete, drawing stops and the score grows by 10.  A win
     * starts the two-second level timer: `timer` is the level that timer's
     * closure captured, `None` when no timer starts.
     */
    method MouseMove(p: Point) returns (timer: Option<int>)
      requires Valid()
      modifies this
      ensures Valid()
      ensures var accepted := old(drawing) && IsValidPosition(maze, p);
              var won := accepted && CheckWin(maze, p);
              && path == (if accepted then old(path) + [p] else old(path))
              && complete == (old(complete) || won)
              && drawing == (old(drawing) && !won)
              && score == (if won then old(score) + 10 else old(score))
              && timer == (if won then Some(old(level)) else None)
      ensures maze == old(maze) && level == old(level)
    {
      timer := None;
      if !drawing {
        return;
      }
      if IsValidPosition(maze, p) {
        path := path + [p];
        if CheckWin(maze, p) {
          complete := true;
          drawing := false;
          score := score + 10;
          timer := Some(level);
        }
      }
    }

    /** Mouse-up or mouse-leave: stop drawing and keep the path. */
    method MouseUp()
      requires Valid()
      modifies this
      ensures Valid()
      ensures !drawing
      ensures path == old(path) && maze == old(maze) && complete == old(complete)
      ensures score == old(score) && level == old(level)
    {
      drawing := false;
    }

    /** "Try again": empty the path, clear completion and drawing; score and level stay. */
    method ResetMaze()
      requires Valid()
      modifies this
      ensures Valid()
      ensures path == [] && !complete && !drawing
      ensures maze == old(maze) && score == old(score) && level == old(level)
    {
      path := [];
      complete := false;
      drawing := false;
    }

    /**
     * The timer that fires two seconds after a win, with the level its closure
     * `captured`: set the level after that one.  The level effect runs only
     * when this changes the level; a second timer from the same level sets the
     * level it already has and changes nothing.
     */
    method AdvanceLevel(captured: int)
      requires Valid() && 1 <= captured <= 3
      modifies this
      ensures Valid()
      ensures level == NextLevel(captured)
      ensures level != old(level) ==> maze == Some(GenerateMaze(level)) && path == [] && !complete
      ensures level == old(level) ==> maze == old(maze) && path == old(path) && complete == old(complete)
      ensures drawing == old(drawing) && score == old(score)
    {
      var previous := level;
      level := NextLevel(captured);
      if level != previous {
        // the change of level runs the level effect
        maze := Some(GenerateMaze(level));
        path := [];
        complete := false;
      }
    }
  }

  /**
   * Two wins on level 1 within two seconds start two timers that both
   * captured level 1: once both have fired the game is on level 2, not 3,
   * with both wins scored.
   */
  method DoubleWinAdvancesOnce() returns (level: int, score: int, timers: seq<int>)
    ensures timers == [1, 1]
    ensures level == 2 && score == 20
  {
    var game := new MazeGame();
    game.LoadLevel();
    var m := GenerateMaze(1);
    StartAndTreasureReachable(1);
    game.MouseDown(Centre(m.start, m.cellSize));
    var first := game.MouseMove(Centre(m.end, m.cellSize));
    game.MouseDown(Centre(m.start, m.cellSize));
    var second := game.MouseMove(Centre(m.end, m.cellSize));
    timers := [first.value, second.value];
    game.AdvanceLevel(first.value);
    game.AdvanceLevel(second.value);
    level, score := game.level, game.score;
  }

  /**
   * Nothing stops a stroke from crossing walls: on level 1 a press on the
   * digger followed by a single move onto the treasure wins, although the
   * straight stroke between them passes through the wall cell (1, 1).
   */
  method WallJumpWins() returns (complete: bool, score: int, crossed: Point)
    ensures complete && score == 10
    ensures var m := GenerateMaze(1);
            OnSegment(Centre(m.start, m.cellSize), Centre(m.end, m.cellSize), crossed)
    ensures !IsValidPosition(Some(GenerateMaze(1)), crossed)
  {
    var game := new MazeGame();
    game.LoadLevel();
    var m := GenerateMaze(1);
    StartAndTreasureReachable(1);
    game.MouseDown(Centre(m.start, m.cellSize));
    var _ := game.MouseMove(Centre(m.end, m.cellSize));
    complete, score := game.complete, game.score;
    crossed := Level1Wall;
    Level1WallBlocked();
  }

  /** `p` lies on the straight segment from `a` to `b`: on their line and within their bounding box. */
  predicate OnSegment(a: Point, b: Point, p: Point) {
    && (p.x - a.x) * (b.y - a.y) == (p.y - a.y) * (b.x - a.x)
    && Min(a.x, b.x) <= p.x && p.x <= a.x + b.x - Min(a.x, b.x)
    && Min(a.y, b.y) <= p.y && p.y <= a.y + b.y - Min(a.y, b.y)
  }

  /** A pixel on the diagonal from (30, 30) to (270, 270), inside cell (1, 1). */
  const Level1Wall := Point(90, 90)

  /** On level 1 the pixel `Level1Wall` lies in the wall cell (1, 1). */
  lemma Level1WallBlocked()
    ensures !IsValidPosition(Some(GenerateMaze(1)), Level1Wall)
  {
    var m := GenerateMaze(1);
    assert m.cellSize == 60;
    assert CellOf(Level1Wall, m.cellSize) == Point(1, 1);
    assert m.grid[1][1] == Wall;
  }
}
