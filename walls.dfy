/** The arena border: four lines of wall cells built from half-open
    ranges, and the test whether a cell lies on one of them. */
module Walls {
  import opened Geometry

  /** Wall cells (x, y) for x in the half-open range [xMin, xMax). */
  function HorizontalLine(xMin: int, xMax: int, y: int): (l: Line)
    ensures |l.points| == if xMin < xMax then xMax - xMin else 0
    ensures forall i :: 0 <= i < |l.points| ==> l.points[i] == Cell(xMin + i, y, WallSymbol)
  {
    var xs := Range(xMin, xMax);
    Line(seq(|xs|, i requires 0 <= i < |xs| => Cell(xs[i], y, WallSymbol)))
  }

  /** Wall cells (x, y) for y in the half-open range [yMin, yMax). */
  function VerticalLine(x: int, yMin: int, yMax: int): (l: Line)
    ensures |l.points| == if yMin < yMax then yMax - yMin else 0
    ensures forall i :: 0 <= i < |l.points| ==> l.points[i] == Cell(x, yMin + i, WallSymbol)
  {
    var ys := Range(yMin, yMax);
    Line(seq(|ys|, i requires 0 <= i < |ys| => Cell(x, ys[i], WallSymbol)))
  }

  lemma {:induction false} OnHorizontalLine(p: Cell, xMin: int, xMax: int, y: int)
    ensures OnLine(p, HorizontalLine(xMin, xMax, y)) <==> p.y == y && xMin <= p.x < xMax
  {
    var l := HorizontalLine(xMin, xMax, y);
    if p.y == y && xMin <= p.x < xMax {
      assert SameCell(p, l.points[p.x - xMin]);
    }
  }

  lemma {:induction false} OnVerticalLine(p: Cell, x: int, yMin: int, yMax: int)
    ensures OnLine(p, VerticalLine(x, yMin, yMax)) <==> p.x == x && yMin <= p.y < yMax
  {
    var l := VerticalLine(x, yMin, yMax);
    if p.x == x && yMin <= p.y < yMax {
      assert SameCell(p, l.points[p.y - yMin]);
    }
  }

  /** The border of the rectangle [xMin, xMax] x [yMin, yMax].  The lines
      are named as the program names them: the upper line is the one at
      y = yMax, which the screen shows at the bottom, since screen rows
      grow downwards. */
  datatype Wall = Wall(xMin: int, xMax: int, yMin: int, yMax: int)
  {
    /** Left, right, upper and lower line, in that order; every cell of
        them is a wall cell on the border. */
    function Lines(): (ls: seq<Line>)
      ensures |ls| == 4
      ensures forall j, i :: 0 <= j < |ls| && 0 <= i < |ls[j].points| ==>
        ls[j].points[i].symbol == WallSymbol && OnBorder(ls[j].points[i], this)
    {
      [VerticalLine(xMin, yMin, yMax), VerticalLine(xMax, yMin, yMax),
       HorizontalLine(xMin, xMax, yMax), HorizontalLine(xMin, xMax, yMin)]
    }
  }

  /** Whether `p` lies on any of `lines`, checked front to back. */
  function OnAnyLine(p: Cell, lines: seq<Line>): (b: bool)
    ensures b <==> exists j :: 0 <= j < |lines| && OnLine(p, lines[j])
    decreases |lines|
  {
    if |lines| == 0 then false
    else if OnLine(p, lines[0]) then true
    else
      var rest := OnAnyLine(p, lines[1..]);
      assert forall j :: 1 <= j < |lines| ==> lines[j] == lines[1..][j - 1];
      rest
  }

  /** A cell is a wall cell when it lies on one of the wall's four lines. */
  predicate OnWall(p: Cell, w: Wall)
    ensures OnWall(p, w) <==>
      (OnLine(p, w.Lines()[0]) || OnLine(p, w.Lines()[1]) || OnLine(p, w.Lines()[2]) || OnLine(p, w.Lines()[3]))
  {
    OnAnyLine(p, w.Lines())
  }

  /** The wall cells, coordinate by coordinate: left x = xMin and right
      x = xMax for y in [yMin, yMax); upper y = yMax and lower y = yMin for
      x in [xMin, xMax).  Both ranges are half-open. */
  predicate OnBorder(p: Cell, w: Wall)
  {
    || (p.x == w.xMin && w.yMin <= p.y < w.yMax)
    || (p.x == w.xMax && w.yMin <= p.y < w.yMax)
    || (p.y == w.yMax && w.xMin <= p.x < w.xMax)
    || (p.y == w.yMin && w.xMin <= p.x < w.xMax)
  }

  lemma {:induction false} OnWallIsOnBorder(p: Cell, w: Wall)
    ensures OnWall(p, w) <==> OnBorder(p, w)
  {
    var lines := w.Lines();
    OnVerticalLine(p, w.xMin, w.yMin, w.yMax);
    OnVerticalLine(p, w.xMax, w.yMin, w.yMax);
    OnHorizontalLine(p, w.xMin, w.xMax, w.yMax);
    OnHorizontalLine(p, w.xMin, w.xMax, w.yMin);
    assert OnWall(p, w) <==>
      (OnLine(p, lines[0]) || OnLine(p, lines[1]) || OnLine(p, lines[2]) || OnLine(p, lines[3]));
  }

  /** Because every range is half-open, the far corner (xMax, yMax) is on
      none of the four lines, whatever the bounds. */
  lemma FarCornerIsOpen(w: Wall, s: char)
    ensures !OnWall(Cell(w.xMax, w.yMax, s), w)
  {
    OnWallIsOnBorder(Cell(w.xMax, w.yMax, s), w);
  }

  /** The other three corners are wall cells when the rectangle is proper. */
  lemma OtherCornersAreWall(w: Wall, s: char)
    requires w.xMin < w.xMax && w.yMin < w.yMax
    ensures OnWall(Cell(w.xMin, w.yMin, s), w)
    ensures OnWall(Cell(w.xMax, w.yMin, s), w)
    ensures OnWall(Cell(w.xMin, w.yMax, s), w)
  {
    OnWallIsOnBorder(Cell(w.xMin, w.yMin, s), w);
    OnWallIsOnBorder(Cell(w.xMax, w.yMin, s), w);
    OnWallIsOnBorder(Cell(w.xMin, w.yMax, s), w);
  }

  /** The open corner cannot be entered from inside the rectangle: both of
      its neighbours inside are wall cells. */
  lemma FarCornerGuarded(w: Wall, s: char)
    requires w.xMin < w.xMax && w.yMin < w.yMax
    ensures OnWall(Cell(w.xMax - 1, w.yMax, s), w)
    ensures OnWall(Cell(w.xMax, w.yMax - 1, s), w)
  {
    OnWallIsOnBorder(Cell(w.xMax - 1, w.yMax, s), w);
    OnWallIsOnBorder(Cell(w.xMax, w.yMax - 1, s), w);
  }

  /** No cell strictly inside the rectangle is a wall cell. */
  lemma InteriorIsOpen(p: Cell, w: Wall)
    requires w.xMin < p.x < w.xMax && w.yMin < p.y < w.yMax
    ensures !OnWall(p, w)
  {
    OnWallIsOnBorder(p, w);
  }

  /** The wall of an arena of xSize x ySize cells: its border runs over
      x in [0, xSize - 1] and y in [0, ySize - 1]. */
  function Arena(xSize: int, ySize: int): Wall
  {
    Wall(0, xSize - 1, 0, ySize - 1)
  }

  /** In the 80 x 20 arena the border runs over x in [0, 79] and y in [0, 19]. */
  lemma ArenaExamples()
    ensures OnWall(Cell(79, 10, '#'), Arena(80, 20))
    ensures !OnWall(Cell(78, 10, '#'), Arena(80, 20))
    ensures !OnWall(Cell(79, 19, '#'), Arena(80, 20))
  {
    OnWallIsOnBorder(Cell(79, 10, '#'), Arena(80, 20));
    OnWallIsOnBorder(Cell(78, 10, '#'), Arena(80, 20));
    OnWallIsOnBorder(Cell(79, 19, '#'), Arena(80, 20));
  }
}
