/** Food placement: one food cell at a time, drawn inside an inset
    rectangle of the arena.  The random draw is an input of the model. */
module Food {
  import opened Geometry
  import opened Walls

  datatype Option<T> = None | Some(value: T)

  const OffsetFromWall: int := 2

  /** Where food may be placed in an arena of xSize x ySize cells: both
      coordinates between the offset and the size minus the offset,
      inclusive at both ends. */
  predicate InInset(c: Cell, xSize: int, ySize: int)
  {
    OffsetFromWall <= c.x <= xSize - OffsetFromWall && OffsetFromWall <= c.y <= ySize - OffsetFromWall
  }

  /** Food placed inside the inset is never a wall cell of the arena's
      border, which runs from 0 to the size minus one on each axis. */
  lemma FoodIsOffTheWall(c: Cell, xSize: int, ySize: int)
    requires InInset(c, xSize, ySize)
    ensures !OnWall(c, Arena(xSize, ySize))
  {
    OnWallIsOnBorder(c, Arena(xSize, ySize));
  }

  /** The inset is not symmetric: next to the left wall (x = 0) and the
      lower wall (y = 0) a free column and a free row always remain, while
      food may sit right next to the right wall (x = xSize - 1) and the
      upper wall (y = ySize - 1; the screen shows it at the bottom, since
      screen rows grow downwards). */
  lemma InsetTouchesHighWalls(xSize: int, ySize: int)
    requires xSize >= 4 && ySize >= 4
    ensures InInset(Cell(xSize - 2, 2, FoodSymbol), xSize, ySize)
    ensures OnWall(Cell(xSize - 1, 2, WallSymbol), Arena(xSize, ySize))
    ensures InInset(Cell(2, ySize - 2, FoodSymbol), xSize, ySize)
    ensures OnWall(Cell(2, ySize - 1, WallSymbol), Arena(xSize, ySize))
    ensures forall c :: InInset(c, xSize, ySize) ==> c.x > 1 && c.y > 1
  {
    OnWallIsOnBorder(Cell(xSize - 1, 2, WallSymbol), Arena(xSize, ySize));
    OnWallIsOnBorder(Cell(2, ySize - 1, WallSymbol), Arena(xSize, ySize));
  }

  /** The food maker: the inclusive bounds of the draw and the current food. */
  class FoodMaker {
    const xMin: int
    const xMax: int
    const yMin: int
    const yMax: int
    var currentFood: Option<Cell>

    /** The current food, once there is one, lies inside the bounds. */
    ghost predicate Valid()
      reads this
    {
      currentFood.Some? ==>
        && xMin <= currentFood.value.x <= xMax
        && yMin <= currentFood.value.y <= yMax
        && currentFood.value.symbol == FoodSymbol
    }

    /** No food exists until the first one is added. */
    constructor (xSize: int, ySize: int)
      ensures xMin == OffsetFromWall && xMax == xSize - OffsetFromWall
      ensures yMin == OffsetFromWall && yMax == ySize - OffsetFromWall
      ensures currentFood == None && Valid()
    {
      xMin := OffsetFromWall;
      yMin := OffsetFromWall;
      xMax := xSize - OffsetFromWall;
      yMax := ySize - OffsetFromWall;
      currentFood := None;
    }

    /** Replaces the current food by a food cell at (x, y); x and y stand
        for the two random draws, each between its bounds inclusive. */
    method AddNewFood(x: int, y: int)
      requires xMin <= x <= xMax && yMin <= y <= yMax
      modifies this
      ensures currentFood == Some(Cell(x, y, FoodSymbol))
      ensures Valid()
    {
      var foodPoint := Cell(x, y, FoodSymbol);
      currentFood := Some(foodPoint);
    }
  }
}
