/** The snake: a body of cells from tail (index 0) to head (last index)
    and a heading.  Each operation on the `Snake` object is specified by a
    function on the body, and the lemmas state what those functions do. */
module Snakes {
  import opened Geometry
  import opened Walls

  /** The curses codes of the four arrow keys (the values ncurses uses);
      the model relies only on their being distinct. */
  const KeyDown: int := 258
  const KeyUp: int := 259
  const KeyLeft: int := 260
  const KeyRight: int := 261

  /** The arrow key that selects a heading. */
  function KeyOf(d: Direction): int
  {
    match d
    case Up => KeyUp
    case Right => KeyRight
    case Down => KeyDown
    case Left => KeyLeft
  }

  predicate IsArrowKey(key: int)
  {
    key == KeyUp || key == KeyRight || key == KeyDown || key == KeyLeft
  }

  /** The heading after reading `key`: an arrow key selects its heading,
      whatever the current one (a reversal included); any other value,
      the "no key" result of a timed-out read among them, keeps it. */
  function KeyDirection(key: int, current: Direction): (d: Direction)
    ensures IsArrowKey(key) ==> KeyOf(d) == key
    ensures !IsArrowKey(key) ==> d == current
  {
    if key == KeyUp then Up
    else if key == KeyRight then Right
    else if key == KeyDown then Down
    else if key == KeyLeft then Left
    else current
  }

  /** Pressing a heading's key selects exactly that heading, and a change
      of heading happens only through that heading's key. */
  lemma KeyDirectionRoundTrip(d: Direction, current: Direction, key: int)
    ensures KeyDirection(KeyOf(d), current) == d
    ensures KeyDirection(key, current) != current ==> key == KeyOf(KeyDirection(key, current))
  {
  }

  /** The head is the last cell of the body. */
  function HeadOf(body: seq<Cell>): Cell
    requires |body| > 0
  {
    body[|body| - 1]
  }

  /** The initial body: `length` snake cells, the first at the tail's
      coordinates and each further one a step further along `d`. */
  function Layout(tail: Cell, length: int, d: Direction): (body: seq<Cell>)
    ensures |body| == if length > 0 then length else 0
    ensures forall i :: 0 <= i < |body| ==> body[i] == Moved(Cell(tail.x, tail.y, SnakeSymbol), i, d)
  {
    var offsets := Range(0, length);
    seq(|offsets|, i requires 0 <= i < |offsets| => Moved(Cell(tail.x, tail.y, SnakeSymbol), offsets[i], d))
  }

  /** One move: the tail cell is dropped, then a copy of the remaining
      body's head, shifted one cell along `d`, is appended. */
  function Advanced(body: seq<Cell>, d: Direction): (r: seq<Cell>)
    requires |body| >= 2
    ensures |r| == |body|
    ensures forall i :: 0 <= i < |body| - 1 ==> r[i] == body[i + 1]
    ensures r[|r| - 1] == Moved(body[|body| - 1], 1, d)
  {
    var rest := body[1..];
    rest + [Moved(HeadOf(rest), 1, d)]
  }

  /** Growth: a copy of the tail cell is put in front of it. */
  function Grown(body: seq<Cell>): (r: seq<Cell>)
    requires |body| >= 1
    ensures |r| == |body| + 1 && r[1..] == body
    ensures SameCell(r[0], body[0]) && r[|r| - 1] == body[|body| - 1]
  {
    [body[0]] + body
  }

  predicate HeadOnFood(body: seq<Cell>, food: Cell)
    requires |body| >= 1
  {
    SameCell(HeadOf(body), food)
  }

  predicate HeadOnWall(body: seq<Cell>, w: Wall)
    requires |body| >= 1
  {
    OnWall(HeadOf(body), w)
  }

  /** Every cell of the body is at most one step from the next one. */
  predicate Linked(body: seq<Cell>)
  {
    forall i :: 1 <= i < |body| ==> Near(body[i - 1], body[i])
  }

  /** The initial layout is a straight chain along `d`: each cell is the
      previous one shifted by one, and the head is the tail's coordinates
      shifted length - 1 cells. */
  lemma LayoutIsStraight(tail: Cell, length: int, d: Direction)
    ensures var body := Layout(tail, length, d);
      && (forall i :: 1 <= i < |body| ==> body[i] == Moved(body[i - 1], 1, d))
      && (length > 0 ==> HeadOf(body) == Cell(tail.x + (length - 1) * DeltaX(d), tail.y + (length - 1) * DeltaY(d), SnakeSymbol))
      && Linked(body)
  {
    var body := Layout(tail, length, d);
    forall i | 1 <= i < |body|
      ensures body[i] == Moved(body[i - 1], 1, d) && Near(body[i - 1], body[i])
    {
      MovedComposes(Cell(tail.x, tail.y, SnakeSymbol), i - 1, 1, d);
      UnitStepIsNeighbour(body[i - 1], d);
    }
  }

  /** A move keeps the length, shifts every remaining cell down by one
      index and puts the new head one step from the old head along `d`. */
  lemma MoveShape(body: seq<Cell>, d: Direction)
    requires |body| >= 2
    ensures var r := Advanced(body, d);
      && |r| == |body|
      && (forall i :: 0 <= i < |body| - 1 ==> r[i] == body[i + 1])
      && HeadOf(r) == Moved(HeadOf(body), 1, d)
      && Near(HeadOf(body), HeadOf(r)) && !SameCell(HeadOf(body), HeadOf(r))
  {
    UnitStepIsNeighbour(HeadOf(body), d);
  }

  /** Growth adds exactly one cell, at the front, with the tail's
      coordinates; the rest of the body, and so the head, is unchanged. */
  lemma GrowthShape(body: seq<Cell>)
    requires |body| >= 1
    ensures var r := Grown(body);
      && |r| == |body| + 1
      && SameCell(r[0], body[0])
      && r[1..] == body
      && HeadOf(r) == HeadOf(body)
  {
  }

  /** Hitting the food compares coordinates only: it is the same test
      whatever symbols the head and the food carry. */
  lemma HitsFoodIgnoresSymbols(body: seq<Cell>, food: Cell, s: char)
    requires |body| >= 1
    ensures HeadOnFood(body, food) <==> HeadOf(body).x == food.x && HeadOf(body).y == food.y
    ensures HeadOnFood(body, food) == HeadOnFood(body, food.(symbol := s))
    ensures HeadOnFood(body, food) == HeadOnFood(body[|body| - 1 := HeadOf(body).(symbol := s)], food)
  {
  }

  /** A move keeps the body linked. */
  lemma {:induction false} AdvancedKeepsLinked(body: seq<Cell>, d: Direction)
    requires |body| >= 2 && Linked(body)
    ensures Linked(Advanced(body, d))
  {
    var r := Advanced(body, d);
    forall i | 1 <= i < |r|
      ensures Near(r[i - 1], r[i])
    {
      if i < |r| - 1 {
        assert r[i - 1] == body[i] && r[i] == body[i + 1];
      } else {
        assert r[i - 1] == HeadOf(body);
        UnitStepIsNeighbour(HeadOf(body), d);
      }
    }
  }

  /** Growth keeps the body linked: the copy sits on the old tail. */
  lemma {:induction false} GrownKeepsLinked(body: seq<Cell>)
    requires |body| >= 1 && Linked(body)
    ensures Linked(Grown(body))
  {
    var r := Grown(body);
    forall i | 1 <= i < |r|
      ensures Near(r[i - 1], r[i])
    {
      if i > 1 {
        assert r[i - 1] == body[i - 2] && r[i] == body[i - 1];
      }
    }
  }

  /** Nothing rejects a reversal: after a straight layout of at least
      three cells moves once the opposite way, the new head lies on the
      cell that was next to the head, which is still part of the body. */
  lemma ReversalRunsIntoBody(tail: Cell, length: int, d: Direction)
    requires length >= 3
    ensures var r := Advanced(Layout(tail, length, d), Opposite(d));
      |r| == length && SameCell(HeadOf(r), r[length - 3])
  {
    var body := Layout(tail, length, d);
    var r := Advanced(body, Opposite(d));
    MovedComposes(Cell(tail.x, tail.y, SnakeSymbol), length - 1, -1, d);
    assert r[length - 3] == body[length - 2];
  }

  /** The default snake of the game: tail (10, 10), four cells, heading
      right.  Its head is (13, 10); after one move the head is (14, 10),
      the cell (10, 10) has left the body, and the length is still 4. */
  lemma StartingSnakeExample()
    ensures Layout(Cell(10, 10, SnakeSymbol), 4, Right)
      == [Cell(10, 10, '#'), Cell(11, 10, '#'), Cell(12, 10, '#'), Cell(13, 10, '#')]
    ensures Advanced(Layout(Cell(10, 10, SnakeSymbol), 4, Right), Right)
      == [Cell(11, 10, '#'), Cell(12, 10, '#'), Cell(13, 10, '#'), Cell(14, 10, '#')]
  {
    var body := Layout(Cell(10, 10, SnakeSymbol), 4, Right);
    assert body[0] == Cell(10, 10, '#') && body[1] == Cell(11, 10, '#');
    assert body[2] == Cell(12, 10, '#') && body[3] == Cell(13, 10, '#');
  }

  /** The snake object: its body, tail first, and its heading. */
  class Snake {
    var points: seq<Cell>
    var direction: Direction

    /** Lays the body out from the tail along `direction`. */
    constructor (tail: Cell, length: int, direction: Direction)
      ensures points == Layout(tail, length, direction)
      ensures this.direction == direction
    {
      this.direction := direction;
      points := Layout(tail, length, direction);
    }

    function Head(): (h: Cell)
      reads this
      requires |points| > 0
      ensures h == points[|points| - 1]
    {
      HeadOf(points)
    }

    /** A move needs two cells: with one, dropping the tail leaves no
        head to extend. */
    method Move()
      requires |points| >= 2
      modifies this
      ensures points == Advanced(old(points), direction)
      ensures direction == old(direction)
    {
      DropTail();
      UpdateHead();
    }

    method UpdateDirection(key: int)
      modifies this
      ensures direction == KeyDirection(key, old(direction))
      ensures points == old(points)
    {
      if key == KeyUp {
        direction := Up;
      } else if key == KeyRight {
        direction := Right;
      } else if key == KeyDown {
        direction := Down;
      } else if key == KeyLeft {
        direction := Left;
      }
    }

    /** The head has the food's coordinates, whatever the symbols. */
    predicate HitsFood(food: Cell)
      reads this
      requires |points| > 0
      ensures HitsFood(food) <==> Head().x == food.x && Head().y == food.y
    {
      HeadOnFood(points, food)
    }

    method EatsFood()
      requires |points| > 0
      modifies this
      ensures points == Grown(old(points))
      ensures direction == old(direction)
    {
      AddTail();
    }

    /** Appends the head's copy shifted one cell along the heading. */
    method UpdateHead()
      requires |points| > 0
      modifies this
      ensures points == old(points) + [Moved(old(Head()), 1, direction)]
      ensures direction == old(direction)
    {
      var newHead := Moved(Head(), 1, direction);
      points := points + [newHead];
    }

    /** Removes the tail cell (index 0). */
    method DropTail()
      requires |points| > 0
      modifies this
      ensures points == old(points)[1..]
      ensures direction == old(direction)
    {
      points := points[1..];
    }

    /** Inserts a copy of the tail cell at index 0. */
    method AddTail()
      requires |points| > 0
      modifies this
      ensures points == [old(points)[0]] + old(points)
      ensures direction == old(direction)
    {
      points := [points[0]] + points;
    }

    /** The head lies on one of the wall's four lines. */
    predicate HitsWall(w: Wall)
      reads this
      requires |points| > 0
      ensures HitsWall(w) <==> OnBorder(Head(), w)
    {
      OnWallIsOnBorder(Head(), w);
      HeadOnWall(points, w)
    }
  }
}
