/** Cells of the text-mode arena, the four headings of the snake, and the
    two comparisons the game makes between cells and lines. */
module Geometry {

  datatype Direction = Up | Right | Down | Left

  const SnakeSymbol: char := '#'
  const FoodSymbol: char := '$'
  const WallSymbol: char := '*'

  /** One screen position with the character drawn there.  Snake, food and
      wall points differ only in their default symbol. */
  datatype Cell = Cell(x: int, y: int, symbol: char)

  /** A run of wall cells, as built by a horizontal or vertical line. */
  datatype Line = Line(points: seq<Cell>)

  /** Point equality: the coordinates agree; the symbols play no part, so
      the two cells are equal once one takes the other's symbol. */
  predicate SameCell(a: Cell, b: Cell)
    ensures SameCell(a, b) <==> a.(symbol := b.symbol) == b
  {
    a.x == b.x && a.y == b.y
  }

  function Abs(n: int): nat
  {
    if n < 0 then -n else n
  }

  /** At most one grid step apart (Manhattan distance 0 or 1). */
  predicate Near(a: Cell, b: Cell)
  {
    Abs(a.x - b.x) + Abs(a.y - b.y) <= 1
  }

  /** The unit vector of a heading; screen rows grow downwards. */
  function DeltaX(d: Direction): int
  {
    match d
    case Right => 1
    case Left => -1
    case _ => 0
  }

  function DeltaY(d: Direction): int
  {
    match d
    case Down => 1
    case Up => -1
    case _ => 0
  }

  function Opposite(d: Direction): (r: Direction)
    ensures r != d
    ensures DeltaX(r) == -DeltaX(d) && DeltaY(r) == -DeltaY(d)
  {
    match d
    case Up => Down
    case Down => Up
    case Right => Left
    case Left => Right
  }

  /** Shifting a point `offset` cells along `d`: the result is the point
      plus `offset` times the unit vector of `d`, with the symbol kept. */
  function Moved(p: Cell, offset: int, d: Direction): (r: Cell)
    ensures r.symbol == p.symbol
    ensures r.x == p.x + offset * DeltaX(d) && r.y == p.y + offset * DeltaY(d)
  {
    match d
    case Up => p.(y := p.y - offset)
    case Right => p.(x := p.x + offset)
    case Down => p.(y := p.y + offset)
    case Left => p.(x := p.x - offset)
  }

  /** Exactly one coordinate changes, by exactly `offset`. */
  lemma MovedChangesOneAxis(p: Cell, offset: int, d: Direction)
    ensures d == Up ==> Moved(p, offset, d) == Cell(p.x, p.y - offset, p.symbol)
    ensures d == Right ==> Moved(p, offset, d) == Cell(p.x + offset, p.y, p.symbol)
    ensures d == Down ==> Moved(p, offset, d) == Cell(p.x, p.y + offset, p.symbol)
    ensures d == Left ==> Moved(p, offset, d) == Cell(p.x - offset, p.y, p.symbol)
  {
  }

  /** Two shifts along one heading add up. */
  lemma MovedComposes(p: Cell, a: int, b: int, d: Direction)
    ensures Moved(Moved(p, a, d), b, d) == Moved(p, a + b, d)
  {
  }

  /** A shift is undone by the same shift along the opposite heading. */
  lemma MovedUndone(p: Cell, offset: int, d: Direction)
    ensures Moved(Moved(p, offset, d), offset, Opposite(d)) == p
  {
  }

  /** A one-cell shift lands on a neighbouring, different cell. */
  lemma UnitStepIsNeighbour(p: Cell, d: Direction)
    ensures Near(p, Moved(p, 1, d)) && !SameCell(p, Moved(p, 1, d))
  {
  }

  /** The integers lo, lo + 1, ..., hi - 1 in increasing order; empty when
      hi <= lo (a half-open range). */
  function Range(lo: int, hi: int): (r: seq<int>)
    ensures |r| == if lo < hi then hi - lo else 0
    ensures forall i :: 0 <= i < |r| ==> r[i] == lo + i
    decreases hi - lo
  {
    if lo < hi then [lo] + Range(lo + 1, hi) else []
  }

  /** Whether some cell of `cells` has the coordinates of `p`, checked
      front to back. */
  function AnyMatch(p: Cell, cells: seq<Cell>): (b: bool)
    ensures b <==> exists i :: 0 <= i < |cells| && SameCell(p, cells[i])
    decreases |cells|
  {
    if |cells| == 0 then false
    else if SameCell(p, cells[0]) then true
    else
      var rest := AnyMatch(p, cells[1..]);
      assert forall i :: 1 <= i < |cells| ==> cells[i] == cells[1..][i - 1];
      rest
  }

  /** Comparing a point with a line: the point is one of the line's cells. */
  function OnLine(p: Cell, line: Line): (b: bool)
    ensures b <==> exists i :: 0 <= i < |line.points| && SameCell(p, line.points[i])
  {
    AnyMatch(p, line.points)
  }
}
