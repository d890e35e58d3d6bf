/** The rover object: a position and heading updated in place, command by
    command, on a grid fixed at creation. Each method is proved to do to the
    fields what the matching definition in module Motion does to a
    RoverState, and to keep the rover on the grid. */
module MarsRover {
  import opened Text
  import opened Compass
  import opened Motion

  /** The result of processCommands: it either returns normally or throws. */
  datatype Outcome = Pass | Fail(error: RoverError)

  class Rover {
    var x: int
    var y: int
    var direction: Direction
    const width: int
    const height: int

    /** The rover's invariant: a grid of at least one cell, and a position on it. */
    ghost predicate Valid()
      reads this
    {
      1 <= width && 1 <= height && InGrid(State(), Bounds())
    }

    /** The position and heading as a value. */
    function State(): RoverState
      reads this
    {
      RoverState(x, y, direction)
    }

    /** The grid the rover was created on. */
    function Bounds(): Grid {
      Grid(width, height)
    }

    /** Builds a rover whose arguments have already passed validation. */
    constructor (x: int, y: int, d: Direction, width: int, height: int)
      requires 1 <= width && 1 <= height && 0 <= x < width && 0 <= y < height
      ensures Valid()
      ensures State() == RoverState(x, y, d) && this.width == width && this.height == height
    {
      this.x, this.y, this.direction := x, y, d;
      this.width, this.height := width, height;
    }

    /** The public constructor: upper-cases the direction, checks it, the
        grid size and the starting cell in that order, and yields either a
        new valid rover or the first check that failed. */
    static method Create(x: int, y: int, direction: string, width: int := 10, height: int := 10)
      returns (r: Result<Rover>)
      ensures r.Success? <==>
                ParseDirection(direction).Some? && 1 <= width && 1 <= height
                && 0 <= x < width && 0 <= y < height
      ensures r.Failure? <==> InitialState(x, y, direction, width, height).Failure?
      ensures r.Failure? ==> r.error == InitialState(x, y, direction, width, height).error
      ensures r.Success? ==>
                fresh(r.value) && r.value.Valid()
                && r.value.State() == InitialState(x, y, direction, width, height).value
                && r.value.width == width && r.value.height == height
    {
      var parsed := ParseDirection(direction);
      if parsed.None? {
        return Failure(InvalidDirection);
      }
      if width < 1 || height < 1 {
        return Failure(InvalidGridSize);
      }
      if x < 0 || x >= width || y < 0 || y >= height {
        return Failure(OutOfBounds);
      }
      var rover := new Rover(x, y, parsed.value, width, height);
      r := Success(rover);
    }

    /** Upper-cases the commands, rejects the whole string if any character
        is not a command (a final newline excepted), and otherwise applies
        the characters one by one. A rejected string leaves the rover as it
        was. */
    method ProcessCommands(commands: string) returns (outcome: Outcome)
      requires Valid()
      modifies this
      ensures Valid()
      ensures outcome.Fail? <==> Process(old(State()), Bounds(), commands).Failure?
      ensures outcome.Fail? ==> outcome.error == InvalidCommands && State() == old(State())
      ensures outcome.Pass? ==> State() == Process(old(State()), Bounds(), commands).value
    {
      var u := Upper(commands);
      if u == "" {
        return Pass;
      }
      if !Accepted(u) {
        return Fail(InvalidCommands);
      }
      ghost var start := State();
      for i := 0 to |u|
        invariant Valid()
        invariant State() == Run(start, Bounds(), u[..i])
      {
        assert u[..i + 1][..i] == u[..i];
        match u[i] {
          case 'F' => Move();
          case 'B' => Move(-1);
          case 'L' => TurnLeft();
          case 'R' => TurnRight();
          case _ =>
        }
      }
      assert u[..|u|] == u;
      outcome := Pass;
    }

    /** Moves `step` cells along the heading, or stays put when that cell is
        off the grid. */
    method Move(step: int := 1)
      requires Valid()
      modifies this
      ensures Valid()
      ensures State() == Moved(old(State()), Bounds(), step)
    {
      var nx, ny := x, y;
      match direction {
        case N => ny := ny + step;
        case S => ny := ny - step;
        case E => nx := nx + step;
        case W => nx := nx - step;
      }
      if nx >= 0 && nx < width && ny >= 0 && ny < height {
        x, y := nx, ny;
      }
    }

    /** Turns 90 degrees counter-clockwise; the position stays. */
    method TurnLeft()
      requires Valid()
      modifies this
      ensures Valid()
      ensures direction == Compass.TurnLeft(old(direction)) && x == old(x) && y == old(y)
    {
      var idx := Index(direction);
      direction := DIRECTIONS[(idx + 3) % 4];
    }

    /** Turns 90 degrees clockwise; the position stays. */
    method TurnRight()
      requires Valid()
      modifies this
      ensures Valid()
      ensures direction == Compass.TurnRight(old(direction)) && x == old(x) && y == old(y)
    {
      var idx := Index(direction);
      direction := DIRECTIONS[(idx + 1) % 4];
    }

    /** The x coordinate, always a column of the grid. */
    function GetX(): (r: int)
      reads this
      requires Valid()
      ensures 0 <= r < width && r == State().x
    {
      x
    }

    /** The y coordinate, always a row of the grid. */
    function GetY(): (r: int)
      reads this
      requires Valid()
      ensures 0 <= r < height && r == State().y
    {
      y
    }

    /** The heading as its one upper-case letter, which reads back as the
        heading. */
    function GetDirection(): (r: string)
      reads this
      ensures |r| == 1 && r[0] in "NESW"
      ensures ParseDirection(r) == Some(direction)
    {
      ParseLetter(direction);
      [Letter(direction)]
    }

    /** "x,y,D": x and y in decimal, then the heading letter, separated by
        commas; reading the three fields back gives the state. */
    function FinalPositionString(): (r: string)
      reads this
      requires Valid()
      ensures r == FormatPosition(State())
      ensures ParsePosition(r) == Some(State())
    {
      FormatPosition(State())
    }
  }

  /** Reads "x,y,D" back: exactly three comma-separated fields, two decimal
      numbers and one heading letter. */
  function ParsePosition(t: string): Option<RoverState> {
    var f := Split(t);
    if |f| != 3 then None
    else match (ParseNat(f[0]), ParseNat(f[1]), ParseDirection(f[2]))
      case (Some(x), Some(y), Some(d)) => if f[2] == [Letter(d)] then Some(RoverState(x, y, d)) else None
      case _ => None
  }

  /** The text `sprintf('%d,%d,%s', x, y, direction)` gives for a state on the
      grid (so both coordinates are non-negative): it splits on commas into
      exactly the two coordinates and the heading letter. */
  function FormatPosition(s: RoverState): (r: string)
    requires s.x >= 0 && s.y >= 0
    ensures Split(r) == [Decimal(s.x), Decimal(s.y), [Letter(s.dir)]]
    ensures ParsePosition(r) == Some(s)
  {
    var dx, dy, dl := Decimal(s.x), Decimal(s.y), [Letter(s.dir)];
    assert ',' !in dx && ',' !in dy && ',' !in dl;
    SplitField(dx, dy + [','] + dl);
    SplitField(dy, dl);
    SplitNoComma(dl);
    ParseDecimal(s.x);
    ParseDecimal(s.y);
    ParseLetter(s.dir);
    assert dx + [','] + dy + [','] + dl == dx + [','] + (dy + [','] + dl);
    dx + [','] + dy + [','] + dl
  }

  // The scenarios of the rover's unit tests, replayed against the contracts
  // above. Each returns what its unit test observes and states the value it
  // asserts.

  method TestInitialPositionAndDirection() returns (x: int, y: int, d: string)
    ensures x == 0 && y == 0 && d == "N"
  {
    var r := Rover.Create(0, 0, "N", 10, 10);
    assert Upper("N") == "N";
    var rover := r.value;
    x, y, d := rover.GetX(), rover.GetY(), rover.GetDirection();
  }

  method TestMoveForwardNorth() returns (x: int, y: int)
    ensures x == 1 && y == 2
  {
    var r := Rover.Create(1, 1, "N", 5, 5);
    assert Upper("N") == "N";
    var rover := r.value;
    var o := rover.ProcessCommands("F");
    assert Upper("F") == "F" && "F"[..0] == [];
    x, y := rover.GetX(), rover.GetY();
  }

  /** The unit test expects y = 1 here; backing up while facing south moves
      north, so the rover ends at y = 3. */
  method TestMoveBackwardSouth() returns (x: int, y: int)
    ensures x == 2 && y == 3
  {
    var r := Rover.Create(2, 2, "S", 5, 5);
    assert Upper("S") == "S";
    var rover := r.value;
    var o := rover.ProcessCommands("B");
    BackwardFacingSouth();
    x, y := rover.GetX(), rover.GetY();
  }

  method TestTurns() returns (d1: string, d2: string, d3: string)
    ensures d1 == "E" && d2 == "S" && d3 == "E"
  {
    var r := Rover.Create(0, 0, "N", 3, 3);
    assert Upper("N") == "N";
    var rover := r.value;
    TurnTable();
    assert Upper("R") == "R" && "R"[..0] == [];
    assert Upper("L") == "L" && "L"[..0] == [];
    var o := rover.ProcessCommands("R");
    d1 := rover.GetDirection();
    o := rover.ProcessCommands("R");
    d2 := rover.GetDirection();
    o := rover.ProcessCommands("L");
    d3 := rover.GetDirection();
  }

  method TestIgnoreMovesOutOfBounds() returns (x: int, y: int)
    ensures x == 0 && y == 0
  {
    var r := Rover.Create(0, 0, "S", 3, 3);
    assert Upper("S") == "S";
    var rover := r.value;
    var o := rover.ProcessCommands("F");
    assert Upper("F") == "F" && "F"[..0] == [];
    x, y := rover.GetX(), rover.GetY();
  }

  method TestGrid1x1OnlyTurnsAllowed() returns (x: int, y: int, d: string)
    ensures x == 0 && y == 0 && d in ["N", "E", "S", "W"]
  {
    var r := Rover.Create(0, 0, "N", 1, 1);
    assert Upper("N") == "N";
    var rover := r.value;
    var o := rover.ProcessCommands("FFRFFLBB");
    x, y, d := rover.GetX(), rover.GetY(), rover.GetDirection();
    assert d == [Letter(rover.direction)];
  }

  method TestLargeCommandSequence() returns (x: int)
    ensures x == 99
  {
    var r := Rover.Create(0, 0, "E", 100, 100);
    assert Upper("E") == "E";
    var rover := r.value;
    LongDriveEndsAtWall();
    var o := rover.ProcessCommands(Repeat('F', 150));
    x := rover.GetX();
  }

  method TestInvalidDirectionThrows() returns (r: Result<Rover>)
    ensures r == Failure(InvalidDirection)
  {
    r := Rover.Create(0, 0, "A", 5, 5);
    assert Upper("A") == "A";
  }

  method TestInvalidCommandsStringThrowOnProcess() returns (o: Outcome)
    ensures o == Fail(InvalidCommands)
  {
    var r := Rover.Create(0, 0, "N", 5, 5);
    assert Upper("N") == "N";
    var rover := r.value;
    o := rover.ProcessCommands("FX");
    assert Upper("FX") == "FX" && !Accepted("FX");
  }
}
