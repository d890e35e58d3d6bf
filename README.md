# Mars rover, modelled in Dafny

This project models the rover of the Laravel Mars-rover application. The
model covers the `Rover` class in `app/Services/Rover.php`. A rover has a
position `(x, y)` and a heading from the clockwise list `N, E, S, W`. It
lives on a `width` x `height` grid that is fixed when the rover is created.

- Creating a rover upper-cases the direction letter. It then checks the
  direction, the grid size and the starting cell, in that order.
- `processCommands` upper-cases the command string and rejects it whole if
  any character is not `F`, `B`, `L` or `R`. Otherwise it applies the
  characters one at a time:
  - `F` and `B` move one cell forward or backward along the heading. A move
    that would leave the grid is silently dropped.
  - `L` and `R` turn a quarter turn.
- `finalPositionString` renders the result as `x,y,D`.

Files and modules:

- `text.dfy`, module `Text`: string helpers.
  - ASCII upper-casing, as `strtoupper` does.
  - Decimal rendering, as `sprintf("%d")` does.
  - The reading side used to state the output format: a comma split and a
    decimal parser.
- `compass.dfy`, module `Compass`: the heading. It is the `DIRECTIONS` list,
  and turns are index arithmetic modulo 4 over it.
- `motion.dfy`, module `Motion`: the rover as a pure state machine.
  - `Moved` is one move, `Apply` is one command and `Run` is a command
    string.
  - `Accepted` is the validation pattern and `Process` is all of
    `processCommands`.
  - `InitialState` is the constructor's checks.
  - The lemmas about these functions are here too.
- `rover.dfy`, module `MarsRover`: the class `Rover`.
  - Its fields `x`, `y` and `direction` are updated in place. `width` and
    `height` are constants.
  - Every method is proved to change the fields exactly as the matching
    `Motion` or `Compass` function changes a `RoverState` or a heading, and to keep the invariant
    `Valid()` (the position is on the grid).
  - The unit-test scenarios are replayed as client methods (`Test…`). Each
    returns what its unit test observes and states, as its postcondition,
    the value proved from the contracts above.

A constructor that throws becomes the factory `Rover.Create`. It returns
`Success(rover)` or `Failure(error)`, and a throwing `processCommands`
returns `Fail(error)`. The error kinds are `InvalidDirection`,
`InvalidGridSize`, `OutOfBounds` and `InvalidCommands`.

One detail of the source is kept on purpose:

- **Trailing newline.** The validation pattern `/^[FBLR]*$/` has no `D`
  modifier, so `$` also matches just before a final newline. A command
  string such as `"F\n"` is therefore accepted. Its newline matches no case
  of the command switch and does nothing. `Motion.Accepted` admits exactly
  this, and `Motion.ProcessRejects` states which strings are rejected.

## Model

| member | source | states |
|---|---|---|
| `Text.UpperChar` | app/Services/Rover.php:39 | only ASCII lower-case letters change, each to its upper-case letter; every other character is kept |
| `Text.Upper` | app/Services/Rover.php:69 | upper-casing keeps the length and upper-cases every character in place |
| `Text.UpperIdempotent` | app/Services/Rover.php:69 | upper-casing an already upper-cased string changes nothing |
| `Text.Decimal` | app/Services/Rover.php:193 | the `%d` rendering of a non-negative number is non-empty and all digits, with no leading zero unless the number is 0 |
| `Text.ParseDecimal` | app/Services/Rover.php:193 | reading a `%d` rendering back gives the number that was rendered |
| `Compass.DIRECTIONS` | app/Services/Rover.php:26 | the four headings in clockwise order N, E, S, W; the turn lemmas below are read off this list |
| `Compass.TurnLeft` | app/Services/Rover.php:138-144 | a left turn always changes the heading, to the one just before it in `DIRECTIONS` (cyclically) |
| `Compass.TurnRight` | app/Services/Rover.php:149-154 | a right turn always changes the heading, and a left turn from the result gives back the heading it started from |
| `Compass.Index` | app/Services/Rover.php:140 | the index `array_search` finds is in range, and `DIRECTIONS` holds the heading at that index |
| `Compass.TurnTable` | app/Services/Rover.php:138-154 | right turns go N to E to S to W to N; left turns go the other way round |
| `Compass.TurnsAreInverse` | app/Services/Rover.php:138-154 | a left turn undoes a right turn and a right turn undoes a left turn, from every heading |
| `Compass.FourTurnsRestore` | app/Services/Rover.php:138-154 | four turns the same way, left or right, restore every heading |
| `Compass.FewerTurnsDiffer` | app/Services/Rover.php:149-154 | one, two or three right turns never give back the starting heading |
| `Compass.ParseDirection` | app/Services/Rover.php:39-43 | a direction argument is accepted exactly when it is one character whose upper-case form is N, E, S or W; the heading stored is that upper-case letter |
| `Compass.ParseLetter` | app/Services/Rover.php:39-43 | each heading's letter, in upper or lower case, is accepted as that heading |
| `Motion.InitialState` | app/Services/Rover.php:37-59 | creation succeeds exactly when the direction is valid, width and height are at least 1 and the start is on the grid; a bad direction fails with InvalidDirection; otherwise a width or height below 1 fails with InvalidGridSize; otherwise a start off the grid fails with OutOfBounds; on success the state is on the grid, at the given cell, with the upper-cased letter as heading |
| `Motion.Candidate` | app/Services/Rover.php:109-125 | the candidate cell keeps the heading and differs from the current cell on one axis only, by exactly the step: forward along +x or +y for N and E, along -x or -y for S and W |
| `Motion.Moved` | app/Services/Rover.php:107-133 | a move never changes the heading, keeps a rover on the grid, and either stays put or lands on the grid |
| `Motion.MoveAlongHeading` | app/Services/Rover.php:112-131 | a move changes only the coordinate of the heading's axis (N +y, S -y, E +x, W -x), by exactly the step, and does so exactly when the target cell is on the grid; an off-grid target leaves the position unchanged |
| `Motion.Apply` | app/Services/Rover.php:82-95 | F is a move by +1 and B a move by -1 (`Moved`), L is a left turn and R a right turn of the heading, and any other character does nothing; every command keeps the rover on the grid, turns leave the position alone and moves leave the heading alone |
| `Motion.BackIsForwardTurnedAround` | app/Services/Rover.php:82-95 | for every state and grid, `B` ends where `F` ends after turning to face the opposite way, with the original heading kept |
| `Motion.Run` | app/Services/Rover.php:80-96 | running any string of commands from a cell on the grid ends on the grid |
| `Motion.RunConcat` | app/Services/Rover.php:80-96 | running `a + b` is running `a` and then `b` from where `a` ended |
| `Motion.Accepted` | app/Services/Rover.php:75 | an upper-cased string passes the pattern exactly when every character is F, B, L or R, except that the last one may be a newline |
| `Motion.Process` | app/Services/Rover.php:67-97 | a failure is always InvalidCommands; a success is the upper-cased string run command by command (the empty string included); a rover on the grid stays on it. `Motion.ProcessRejects`, `Motion.EmptyIsNoOp` and `Motion.CaseInsensitive` state which strings fail and how case and emptiness behave |
| `Motion.ProcessRejects` | app/Services/Rover.php:69-77 | a command string is rejected exactly when some upper-cased character is not F, B, L or R, except a newline in last place; a rejection is always InvalidCommands and yields no state |
| `Motion.EmptyIsNoOp` | app/Services/Rover.php:71-73 | the empty command string succeeds and leaves the state unchanged |
| `Motion.CaseInsensitive` | app/Services/Rover.php:69 | a command string and its upper-case form have the same outcome and end state |
| `Motion.TrailingNewlineIsNoOp` | app/Services/Rover.php:75-95 | the final newline that validation lets through changes nothing |
| `Motion.TurnSequencesRestore` | tests/Unit/RoverTest.php:38-47 | `RL`, `LR`, `RRRR` and `LLLL` each leave position and heading unchanged |
| `Motion.BackwardFacingSouth` | app/Services/Rover.php:116-118 | from (2, 2) facing south on a 5 x 5 grid, `B` ends at (2, 3) facing south |
| `Motion.BackwardFacingSouthNotY1` | tests/Unit/RoverTest.php:30-36 | from (2, 2) facing south on a 5 x 5 grid, `B` does not end at y = 1, the value the unit test expects |
| `Motion.SingleCellGrid` | tests/Unit/RoverTest.php:57-64 | on a 1 x 1 grid, no command string moves the rover off (0, 0) |
| `Motion.Repeat` | tests/Unit/RoverTest.php:69 | `str_repeat(c, n)` is n characters, each of them c |
| `Motion.DriveEast` | app/Services/Rover.php:119-131 | n forward moves heading east advance x by n, but no further than width - 1; y and heading stay the same |
| `Motion.LongDriveEndsAtWall` | tests/Unit/RoverTest.php:66-72 | 150 `F` heading east from (0, 0) on a 100 x 100 grid succeed and end at (99, 0) facing east |
| `MarsRover.Rover.constructor` | app/Services/Rover.php:49-58 | a rover built from checked arguments is valid and holds exactly those arguments |
| `MarsRover.Rover.Create` | app/Services/Rover.php:37-59 | creation succeeds exactly when the direction, the grid size and the start are all valid; it fails exactly when `InitialState` does, with the same error; otherwise it yields a fresh valid rover holding `InitialState`'s state and the given grid |
| `MarsRover.Rover.ProcessCommands` | app/Services/Rover.php:67-97 | the rover stays valid; it fails exactly when `Process` rejects the string, with InvalidCommands and no change of state; otherwise the new state is `Process`'s result |
| `MarsRover.Rover.Move` | app/Services/Rover.php:107-133 | the rover stays valid and its new state is `Moved` of the old one; the step defaults to 1 |
| `MarsRover.Rover.TurnLeft` | app/Services/Rover.php:138-144 | the heading becomes its left turn, and x and y are unchanged |
| `MarsRover.Rover.TurnRight` | app/Services/Rover.php:149-154 | the heading becomes its right turn, and x and y are unchanged |
| `MarsRover.Rover.GetX` | app/Services/Rover.php:161-164 | the x coordinate, always a column of the grid |
| `MarsRover.Rover.GetY` | app/Services/Rover.php:171-174 | the y coordinate, always a row of the grid |
| `MarsRover.Rover.GetDirection` | app/Services/Rover.php:181-184 | a single upper-case letter, one of N, E, S, W, that reads back as the heading |
| `MarsRover.Rover.FinalPositionString` | app/Services/Rover.php:191-194 | the text is `FormatPosition` of the state and reads back, field by field, as exactly the rover's state |
| `MarsRover.FormatPosition` | app/Services/Rover.php:193 | the `%d,%d,%s` text of a state on the grid splits on commas into exactly three fields: the canonical decimal of x, that of y (no leading zeros, by `Text.Decimal`), and the heading letter; they parse back as the state |
| `MarsRover.TestInitialPositionAndDirection` | tests/Unit/RoverTest.php:14-20 | a rover created at (0, 0) facing `N` reports x = 0, y = 0 and direction `N` |
| `MarsRover.TestMoveForwardNorth` | tests/Unit/RoverTest.php:22-28 | `F` from (1, 1) facing north on a 5 x 5 grid reports (1, 2) |
| `MarsRover.TestMoveBackwardSouth` | tests/Unit/RoverTest.php:30-36 | `B` from (2, 2) facing south on a 5 x 5 grid reports (2, 3); the unit test's y = 1 is the finding below |
| `MarsRover.TestTurns` | tests/Unit/RoverTest.php:38-47 | `R`, `R`, `L` from `N` make `getDirection` report `E`, then `S`, then `E` |
| `MarsRover.TestIgnoreMovesOutOfBounds` | tests/Unit/RoverTest.php:49-55 | `F` from (0, 0) facing south is dropped, and the rover reports (0, 0) |
| `MarsRover.TestGrid1x1OnlyTurnsAllowed` | tests/Unit/RoverTest.php:57-64 | after `FFRFFLBB` on a 1 x 1 grid the rover reports (0, 0) and a direction among N, E, S, W |
| `MarsRover.TestLargeCommandSequence` | tests/Unit/RoverTest.php:66-72 | 150 `F` heading east on a 100 x 100 grid from (0, 0) report x = 99 |
| `MarsRover.TestInvalidDirectionThrows` | tests/Unit/RoverTest.php:74-78 | creating a rover with direction `A` fails with InvalidDirection |
| `MarsRover.TestInvalidCommandsStringThrowOnProcess` | tests/Unit/RoverTest.php:80-85 | processing `FX` fails with InvalidCommands |

## Findings

| source | as written | input that shows it | evidently intended | confidence | as-written member | corrected member |
|---|---|---|---|---|---|---|
| tests/Unit/RoverTest.php:30-36 | the test `test_move_backward_south` expects y = 1 after `B` facing south; the code it tests (app/Services/Rover.php:116-118) runs `ny -= step` with step -1, so y grows | `new Rover(2, 2, 'S', 5, 5)`, then `processCommands('B')`: the code ends at (2, 3), not (2, 1) | backing up while facing south moves north, to (2, 3), as `B` is `F` reversed (`Motion.BackIsForwardTurnedAround` proves this for every state); the model follows the code | not executed | `Motion.BackwardFacingSouthNotY1` | `Motion.BackwardFacingSouth` |

## Left out

- The console command `app/Console/Commands/MarsRoverCommand.php` is not
  part of this model. It holds argument reading, numeric sniffing, the
  100 x 100 cap, printing and exit codes.
- The exception messages and PHP exception types are left out. Failures are
  the four `RoverError` values.
- PHP integer overflow is left out: integers are unbounded here. Coordinates
  stay inside the grid, so overflow cannot arise in the rover itself.
- Strings are modelled as sequences of characters, not bytes.
  - `strtoupper` is taken to be ASCII-only.
  - Every accepted command string is ASCII, so the difference between
    `mb_strlen` and byte indexing does not arise.
- Private visibility of `move`, `turnLeft` and `turnRight` is not modelled.
  They are ordinary methods of the class.
- Motion.MoveAlongHeading: stated only for a non-zero step. The source only
  ever moves by +1 or -1. A zero step leaves the position where it is,
  whether or not the cell is on the grid.
