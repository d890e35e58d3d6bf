/** The rover's heading: one of four compass points kept in the clockwise
    list N, E, S, W, turned by stepping through that list modulo 4. */
module Compass {
  import opened Text

  datatype Direction = N | E | S | W

  /** The clockwise order of the compass points; a heading is its index here. */
  const DIRECTIONS: seq<Direction> := [N, E, S, W]

  /** Where a heading sits in DIRECTIONS (the lookup `array_search` performs). */
  function Index(d: Direction): (i: nat)
    ensures i < |DIRECTIONS| && DIRECTIONS[i] == d
  {
    match d
    case N => 0
    case E => 1
    case S => 2
    case W => 3
  }

  /** Turning left: one step back in DIRECTIONS, written as +3 modulo 4. */
  function TurnLeft(d: Direction): (r: Direction)
    ensures r != d && (Index(r) + 1) % 4 == Index(d)
  {
    DIRECTIONS[(Index(d) + 3) % 4]
  }

  /** Turning right: one step forward in DIRECTIONS. */
  function TurnRight(d: Direction): (r: Direction)
    ensures r != d && TurnLeft(r) == d
  {
    DIRECTIONS[(Index(d) + 1) % 4]
  }

  /** The turn table, read off DIRECTIONS: right goes N, E, S, W, N and left
      goes the other way round. */
  lemma TurnTable()
    ensures TurnRight(N) == E && TurnRight(E) == S && TurnRight(S) == W && TurnRight(W) == N
    ensures TurnLeft(N) == W && TurnLeft(W) == S && TurnLeft(S) == E && TurnLeft(E) == N
  {
  }

  /** Left and right turns undo each other. */
  lemma TurnsAreInverse(d: Direction)
    ensures TurnLeft(TurnRight(d)) == d
    ensures TurnRight(TurnLeft(d)) == d
  {
  }

  /** Four turns the same way come back to the starting heading. */
  lemma FourTurnsRestore(d: Direction)
    ensures TurnRight(TurnRight(TurnRight(TurnRight(d)))) == d
    ensures TurnLeft(TurnLeft(TurnLeft(TurnLeft(d)))) == d
  {
    TurnTable();
  }

  /** One, two or three right turns always give a different heading. */
  lemma FewerTurnsDiffer(d: Direction)
    ensures TurnRight(d) != d
    ensures TurnRight(TurnRight(d)) != d
    ensures TurnRight(TurnRight(TurnRight(d))) != d
  {
    TurnTable();
  }

  /** The letter a heading is stored and printed as. */
  function Letter(d: Direction): char {
    match d
    case N => 'N'
    case E => 'E'
    case S => 'S'
    case W => 'W'
  }

  /** Reads a direction argument the way the constructor does: upper-case it,
      then accept it only if it is exactly one of the four letters. */
  function ParseDirection(s: string): (r: Option<Direction>)
    ensures r.Some? <==> |s| == 1 && UpperChar(s[0]) in "NESW"
    ensures r.Some? ==> Upper(s) == [Letter(r.value)]
  {
    var u := Upper(s);
    if u == "N" then Some(N)
    else if u == "E" then Some(E)
    else if u == "S" then Some(S)
    else if u == "W" then Some(W)
    else None
  }

  /** Every heading's letter, in either case, reads back as that heading. */
  lemma ParseLetter(d: Direction)
    ensures ParseDirection([Letter(d)]) == Some(d)
    ensures ParseDirection([(Letter(d) as int + 32) as char]) == Some(d)
  {
  }
}
