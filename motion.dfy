/** The rover as a pure state machine: what one command does to a position
    and heading on a bounded grid, what a whole command string does, which
    command strings are accepted, and which constructor arguments are. The
    class in module MarsRover is proved to follow these definitions. */
module Motion {
  import opened Text
  import opened Compass

  /** The failures the rover reports (each an exception thrown by the PHP `Rover` class). */
  datatype RoverError = InvalidDirection | InvalidGridSize | OutOfBounds | InvalidCommands

  datatype Result<T> = Success(value: T) | Failure(error: RoverError)

  /** Position and heading: the part of the rover that commands change. */
  datatype RoverState = RoverState(x: int, y: int, dir: Direction)

  /** The fixed grid; valid cells are [0, width-1] x [0, height-1]. */
  datatype Grid = Grid(width: int, height: int)

  predicate InGrid(s: RoverState, g: Grid) {
    0 <= s.x < g.width && 0 <= s.y < g.height
  }

  /** The cell `step` cells ahead along heading `s.dir` (behind, for a
      negative step), whether or not it lies on the grid. */
  function Candidate(s: RoverState, step: int): (r: RoverState)
    ensures r.dir == s.dir
    ensures r.x == s.x || r.y == s.y
    ensures (r.x - s.x) + (r.y - s.y) == step || (r.x - s.x) + (r.y - s.y) == -step
    ensures s.dir == N || s.dir == S ==> r.x == s.x
    ensures s.dir == E || s.dir == W ==> r.y == s.y
    ensures s.dir == N || s.dir == E ==> (r.x - s.x) + (r.y - s.y) == step
    ensures s.dir == S || s.dir == W ==> (r.x - s.x) + (r.y - s.y) == -step
  {
    match s.dir
    case N => s.(y := s.y + step)
    case S => s.(y := s.y - step)
    case E => s.(x := s.x + step)
    case W => s.(x := s.x - step)
  }

  /** A move: go to the candidate cell when it is on the grid, otherwise
      stay put. The heading never changes. */
  function Moved(s: RoverState, g: Grid, step: int): (r: RoverState)
    ensures r.dir == s.dir
    ensures InGrid(s, g) ==> InGrid(r, g)
    ensures r == s || InGrid(r, g)
  {
    var c := Candidate(s, step);
    if InGrid(c, g) then c else s
  }

  /** A move changes at most one coordinate, by exactly `step`, on the axis
      of the heading (N: +y, S: -y, E: +x, W: -x), and changes it exactly
      when the target cell is on the grid. */
  lemma MoveAlongHeading(s: RoverState, g: Grid, step: int)
    requires step != 0
    ensures var r := Moved(s, g, step);
      (s.dir == N ==> r.x == s.x && (r.y == s.y + step <==> 0 <= s.x < g.width && 0 <= s.y + step < g.height))
      && (s.dir == S ==> r.x == s.x && (r.y == s.y - step <==> 0 <= s.x < g.width && 0 <= s.y - step < g.height))
      && (s.dir == E ==> r.y == s.y && (r.x == s.x + step <==> 0 <= s.x + step < g.width && 0 <= s.y < g.height))
      && (s.dir == W ==> r.y == s.y && (r.x == s.x - step <==> 0 <= s.x - step < g.width && 0 <= s.y < g.height))
    ensures !InGrid(Candidate(s, step), g) ==> Moved(s, g, step) == s
  {
  }

  /** One command character. Characters other than F, B, L and R fall
      through the switch and do nothing. */
  function Apply(s: RoverState, g: Grid, c: char): (r: RoverState)
    ensures InGrid(s, g) ==> InGrid(r, g)
    ensures c == 'L' || c == 'R' ==> r.x == s.x && r.y == s.y
    ensures c == 'F' || c == 'B' ==> r.dir == s.dir
    ensures c !in "FBLR" ==> r == s
    ensures c == 'F' ==> r == Moved(s, g, 1)
    ensures c == 'B' ==> r == Moved(s, g, -1)
    ensures c == 'L' ==> r == s.(dir := TurnLeft(s.dir))
    ensures c == 'R' ==> r == s.(dir := TurnRight(s.dir))
  {
    match c
    case 'F' => Moved(s, g, 1)
    case 'B' => Moved(s, g, -1)
    case 'L' => s.(dir := TurnLeft(s.dir))
    case 'R' => s.(dir := TurnRight(s.dir))
    case _ => s
  }

  /** Backing up is driving forward while facing the opposite way (two right
      turns), then turning back to the original heading. */
  lemma BackIsForwardTurnedAround(s: RoverState, g: Grid)
    ensures Apply(s, g, 'B') == Apply(s.(dir := TurnRight(TurnRight(s.dir))), g, 'F').(dir := s.dir)
  {
  }

  /** The commands of `cmds` applied in order, first to last. */
  function Run(s: RoverState, g: Grid, cmds: string): (r: RoverState)
    ensures InGrid(s, g) ==> InGrid(r, g)
  {
    if cmds == [] then s
    else Apply(Run(s, g, cmds[..|cmds| - 1]), g, cmds[|cmds| - 1])
  }

  /** Running `a` and then `b` is running `a + b`. */
  lemma {:induction false} RunConcat(s: RoverState, g: Grid, a: string, b: string)
    ensures Run(s, g, a + b) == Run(Run(s, g, a), g, b)
  {
    if b == [] {
      assert a + b == a;
    } else {
      assert (a + b)[..|a + b| - 1] == a + b[..|b| - 1];
      assert (a + b)[|a + b| - 1] == b[|b| - 1];
      RunConcat(s, g, a, b[..|b| - 1]);
    }
  }

  /** Every character is a command letter. */
  predicate AllCommands(u: string) {
    forall i :: 0 <= i < |u| ==> u[i] in "FBLR"
  }

  /** The validity test `/^[FBLR]*$/` on an already upper-cased string. The
      pattern has no D modifier, so `$` also matches just before a final
      newline: one trailing "\n" is let through. */
  predicate Accepted(u: string): (b: bool)
    ensures b <==> forall i :: 0 <= i < |u| ==> u[i] in "FBLR" || (i == |u| - 1 && u[i] == '\n')
  {
    AllCommands(u) || (|u| > 0 && u[|u| - 1] == '\n' && AllCommands(u[..|u| - 1]))
  }

  /** What processCommands does: upper-case, return at once on the empty
      string, reject the whole string if it fails the test, else run it. */
  function Process(s: RoverState, g: Grid, commands: string): (r: Result<RoverState>)
    ensures r.Failure? ==> r.error == InvalidCommands
    ensures r.Success? ==> r.value == Run(s, g, Upper(commands))
    ensures r.Success? && InGrid(s, g) ==> InGrid(r.value, g)
  {
    var u := Upper(commands);
    if u == "" then Success(s)
    else if !Accepted(u) then Failure(InvalidCommands)
    else Success(Run(s, g, u))
  }

  /** A command string is rejected exactly when, after upper-casing, some
      character is not F, B, L or R, other than a newline in last place. A
      rejected string yields no new state at all. */
  lemma ProcessRejects(s: RoverState, g: Grid, commands: string)
    ensures Process(s, g, commands).Failure? <==>
      exists i :: 0 <= i < |commands| && UpperChar(commands[i]) !in "FBLR"
        && !(i == |commands| - 1 && commands[i] == '\n')
    ensures Process(s, g, commands).Failure? ==> Process(s, g, commands).error == InvalidCommands
  {
  }

  /** The empty command string changes nothing. */
  lemma EmptyIsNoOp(s: RoverState, g: Grid)
    ensures Process(s, g, "") == Success(s)
  {
  }

  /** Lower-case commands behave exactly like their upper-case forms. */
  lemma CaseInsensitive(s: RoverState, g: Grid, commands: string)
    ensures Process(s, g, commands) == Process(s, g, Upper(commands))
  {
    UpperIdempotent(commands);
  }

  /** The trailing newline that validation lets through does nothing. */
  lemma TrailingNewlineIsNoOp(s: RoverState, g: Grid, u: string)
    ensures Run(s, g, u + "\n") == Run(s, g, u)
  {
  }

  /** On a 1x1 grid no command moves the rover off (0, 0). */
  lemma {:induction false} SingleCellGrid(s: RoverState, cmds: string)
    requires s.x == 0 && s.y == 0
    ensures Run(s, Grid(1, 1), cmds).x == 0 && Run(s, Grid(1, 1), cmds).y == 0
  {
  }

  /** A right turn followed by a left turn, or the reverse, and four turns
      the same way, all leave the rover exactly where and as it was. */
  lemma TurnSequencesRestore(s: RoverState, g: Grid)
    ensures Run(s, g, "RL") == s && Run(s, g, "LR") == s
    ensures Run(s, g, "RRRR") == s && Run(s, g, "LLLL") == s
  {
    TurnsAreInverse(s.dir);
    FourTurnsRestore(s.dir);
    var right := s.(dir := TurnRight(s.dir));
    var left := s.(dir := TurnLeft(s.dir));
    assert "R"[..0] == [] && "L"[..0] == [];
    assert Run(s, g, "R") == right && Run(s, g, "L") == left;
    assert "RL"[..1] == "R" && "LR"[..1] == "L";
    assert "RR"[..1] == "R" && "RRR"[..2] == "RR" && "RRRR"[..3] == "RRR";
    assert Run(s, g, "RR") == s.(dir := TurnRight(TurnRight(s.dir)));
    assert Run(s, g, "RRR") == s.(dir := TurnRight(TurnRight(TurnRight(s.dir))));
    assert "LL"[..1] == "L" && "LLL"[..2] == "LL" && "LLLL"[..3] == "LLL";
    assert Run(s, g, "LL") == s.(dir := TurnLeft(TurnLeft(s.dir)));
    assert Run(s, g, "LLL") == s.(dir := TurnLeft(TurnLeft(TurnLeft(s.dir))));
  }

  /** Backing up while facing south goes north: from (2, 2) on a 5 x 5 grid
      one "B" ends at (2, 3), heading still south. */
  lemma BackwardFacingSouth()
    ensures Process(RoverState(2, 2, S), Grid(5, 5), "B") == Success(RoverState(2, 3, S))
  {
  }

  /** The same move does not end at y = 1, the cell one row south. */
  lemma BackwardFacingSouthNotY1()
    ensures Process(RoverState(2, 2, S), Grid(5, 5), "B").value.y != 1
  {
    BackwardFacingSouth();
  }

  /** `n` copies of `c` (as `str_repeat` builds). */
  function Repeat(c: char, n: nat): (r: string)
    ensures |r| == n && forall i :: 0 <= i < n ==> r[i] == c
  {
    if n == 0 then [] else Repeat(c, n - 1) + [c]
  }

  /** Driving forward `n` times heading east advances x by `n` until the
      east wall stops it, at x = width - 1. */
  lemma {:induction false} DriveEast(s: RoverState, g: Grid, n: nat)
    requires InGrid(s, g) && s.dir == E
    ensures Run(s, g, Repeat('F', n)) == s.(x := if s.x + n < g.width then s.x + n else g.width - 1)
  {
    if n > 0 {
      var f := Repeat('F', n);
      assert f[..n - 1] == Repeat('F', n - 1);
      DriveEast(s, g, n - 1);
    }
  }

  /** 150 forward moves heading east on a 100 x 100 grid from (0, 0) end at
      x = 99. */
  lemma LongDriveEndsAtWall()
    ensures Process(RoverState(0, 0, E), Grid(100, 100), Repeat('F', 150))
      == Success(RoverState(99, 0, E))
  {
    var f := Repeat('F', 150);
    assert Upper(f) == f;
    assert AllCommands(f);
    DriveEast(RoverState(0, 0, E), Grid(100, 100), 150);
  }

  /** The constructor's checks, in their order: the direction letter, then
      the grid size, then the starting cell. */
  function InitialState(x: int, y: int, direction: string, width: int, height: int): (r: Result<RoverState>)
    ensures r == Failure(InvalidDirection) <==> ParseDirection(direction).None?
    ensures r == Failure(InvalidGridSize) <==>
      ParseDirection(direction).Some? && (width < 1 || height < 1)
    ensures r == Failure(OutOfBounds) <==>
      ParseDirection(direction).Some? && width >= 1 && height >= 1
        && !(0 <= x < width && 0 <= y < height)
    ensures r.Success? <==>
      ParseDirection(direction).Some? && 1 <= width && 1 <= height && 0 <= x < width && 0 <= y < height
    ensures r.Success? ==>
      InGrid(r.value, Grid(width, height)) && r.value.x == x && r.value.y == y
        && [Letter(r.value.dir)] == Upper(direction)
  {
    match ParseDirection(direction)
    case None => Failure(InvalidDirection)
    case Some(d) =>
      if width < 1 || height < 1 then Failure(InvalidGridSize)
      else if x < 0 || x >= width || y < 0 || y >= height then Failure(OutOfBounds)
      else Success(RoverState(x, y, d))
  }
}
