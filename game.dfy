/** The game: one snake, one food maker and the arena wall, advanced one
    tick at a time until the snake's head is on the wall.  The key read in
    each tick and the random food coordinates are inputs of the model. */
module Game {
  import opened Geometry
  import opened Walls
  import opened Snakes
  import opened Food

  const XSize: int := 80
  const YSize: int := 20
  const SnakeLength: int := 4

  function StartTail(): Cell
  {
    Cell(10, 10, SnakeSymbol)
  }

  datatype Phase = NotStarted | Running | Ended

  /** What a tick reads and changes: the body, the heading and the food. */
  datatype World = World(body: seq<Cell>, direction: Direction, food: Cell)

  /** One pass of the loop, in its fixed order: move along the current
      heading, then apply the key, then, if the head is on the food, grow
      and place new food at (x, y). */
  function Step(w: World, key: int, x: int, y: int): (r: World)
    requires |w.body| >= 2
    ensures |r.body| >= |w.body|
  {
    var moved := Advanced(w.body, w.direction);
    var direction := KeyDirection(key, w.direction);
    if HeadOnFood(moved, w.food) then World(Grown(moved), direction, Cell(x, y, FoodSymbol))
    else World(moved, direction, w.food)
  }

  /** Ticks over a finite list of keys and food draws, one of each per
      tick; the second component tells whether a tick ended on the wall,
      after which nothing further is read. */
  function Run(w: World, keys: seq<int>, draws: seq<(int, int)>, wall: Wall): (r: (World, bool))
    requires |w.body| >= 2 && |draws| == |keys|
    ensures |r.0.body| >= |w.body|
    decreases |keys|
  {
    if |keys| == 0 then (w, false)
    else
      var next := Step(w, keys[0], draws[0].0, draws[0].1);
      if HeadOnWall(next.body, wall) then (next, true)
      else Run(next, keys[1..], draws[1..], wall)
  }

  /** What every tick keeps: a body of at least two linked cells and food
      inside the inset of the arena. */
  predicate Healthy(w: World)
  {
    |w.body| >= 2 && Linked(w.body) && InInset(w.food, XSize, YSize)
  }

  predicate DrawInInset(d: (int, int))
  {
    InInset(Cell(d.0, d.1, FoodSymbol), XSize, YSize)
  }

  /** The order inside a tick: the head moves along the heading held
      BEFORE the key is read; the key only sets the heading for the next
      tick.  Food is hit exactly when that moved head is on it, and then
      the body grows by exactly one and the food is replaced by the draw;
      otherwise the length and the food stay. */
  lemma StepOrder(w: World, key: int, x: int, y: int)
    requires |w.body| >= 2
    ensures var r := Step(w, key, x, y);
      var hit := SameCell(Moved(HeadOf(w.body), 1, w.direction), w.food);
      && HeadOf(r.body) == Moved(HeadOf(w.body), 1, w.direction)
      && r.direction == KeyDirection(key, w.direction)
      && (hit ==> |r.body| == |w.body| + 1 && r.food == Cell(x, y, FoodSymbol))
      && (!hit ==> |r.body| == |w.body| && r.food == w.food)
  {
    MoveShape(w.body, w.direction);
  }

  /** A key read in one tick steers the move of the next tick. */
  lemma TurnTakesEffectNextTick(w: World, k1: int, x1: int, y1: int, k2: int, x2: int, y2: int)
    requires |w.body| >= 2
    ensures var r := Step(Step(w, k1, x1, y1), k2, x2, y2);
      HeadOf(r.body) == Moved(Moved(HeadOf(w.body), 1, w.direction), 1, KeyDirection(k1, w.direction))
  {
    StepOrder(w, k1, x1, y1);
    StepOrder(Step(w, k1, x1, y1), k2, x2, y2);
  }

  lemma StepKeepsHealthy(w: World, key: int, x: int, y: int)
    requires Healthy(w) && InInset(Cell(x, y, FoodSymbol), XSize, YSize)
    ensures Healthy(Step(w, key, x, y))
  {
    var moved := Advanced(w.body, w.direction);
    AdvancedKeepsLinked(w.body, w.direction);
    if HeadOnFood(moved, w.food) {
      GrownKeepsLinked(moved);
    }
  }

  lemma {:induction false} RunKeepsHealthy(w: World, keys: seq<int>, draws: seq<(int, int)>, wall: Wall)
    requires Healthy(w) && |draws| == |keys|
    requires forall i :: 0 <= i < |draws| ==> DrawInInset(draws[i])
    ensures Healthy(Run(w, keys, draws, wall).0)
    decreases |keys|
  {
    if |keys| > 0 {
      var next := Step(w, keys[0], draws[0].0, draws[0].1);
      StepKeepsHealthy(w, keys[0], draws[0].0, draws[0].1);
      if !HeadOnWall(next.body, wall) {
        assert forall i :: 0 <= i < |draws| - 1 ==> draws[1..][i] == draws[i + 1];
        RunKeepsHealthy(next, keys[1..], draws[1..], wall);
      }
    }
  }

  /** Only the wall ends the game: a run reports an end exactly when the
      final head is on the wall, and a run that ends has used some ticks. */
  lemma {:induction false} RunEndsOnlyAtWall(w: World, keys: seq<int>, draws: seq<(int, int)>, wall: Wall)
    requires |w.body| >= 2 && |draws| == |keys|
    requires !HeadOnWall(w.body, wall)
    ensures var r := Run(w, keys, draws, wall);
      (r.1 <==> HeadOnWall(r.0.body, wall)) && (r.1 ==> |keys| > 0)
    decreases |keys|
  {
    if |keys| > 0 {
      var next := Step(w, keys[0], draws[0].0, draws[0].1);
      if !HeadOnWall(next.body, wall) {
        RunEndsOnlyAtWall(next, keys[1..], draws[1..], wall);
      }
    }
  }

  /** The first tick of the default game with food right in front of the
      head and no key pressed: the snake grows to five cells with head
      (14, 10), and the food moves to the draw. */
  lemma FirstTickEatsExample()
    ensures var w := World(Layout(StartTail(), SnakeLength, Right), Right, Cell(14, 10, FoodSymbol));
      var r := Step(w, -1, 30, 5);
      && |r.body| == 5 && HeadOf(r.body) == Cell(14, 10, SnakeSymbol)
      && r.direction == Right && r.food == Cell(30, 5, FoodSymbol)
  {
    StartingSnakeExample();
  }

  /** The game object.  The sizes, the tail and the length are the
      constants the game is started with. */
  class SnakeGame {
    const snake: Snake
    const foodMaker: FoodMaker
    const wall: Wall
    var phase: Phase

    ghost predicate Valid()
      reads this, snake, foodMaker
    {
      && |snake.points| >= 2 && Linked(snake.points)
      && foodMaker.Valid()
      && foodMaker.xMin == OffsetFromWall && foodMaker.xMax == XSize - OffsetFromWall
      && foodMaker.yMin == OffsetFromWall && foodMaker.yMax == YSize - OffsetFromWall
      && wall == Arena(XSize, YSize)
      && (phase == NotStarted ==>
            snake.points == Layout(StartTail(), SnakeLength, Right) && snake.direction == Right)
      && (phase != NotStarted ==> foodMaker.currentFood.Some?)
    }

    ghost function State(): World
      reads this, snake, foodMaker
      requires foodMaker.currentFood.Some?
    {
      World(snake.points, snake.direction, foodMaker.currentFood.value)
    }

    /** An 80 x 20 arena walled at x = 0, x = 79, y = 0 and y = 19, a
        four-cell snake with tail (10, 10) heading right, and no food yet. */
    constructor ()
      ensures Valid() && phase == NotStarted
      ensures wall == Arena(XSize, YSize)
      ensures fresh(snake) && fresh(foodMaker)
      ensures foodMaker.currentFood == None
    {
      var xSize := XSize;
      var ySize := YSize;
      snake := new Snake(StartTail(), SnakeLength, Right);
      wall := Arena(xSize, ySize);
      foodMaker := new FoodMaker(xSize, ySize);
      phase := NotStarted;
      new;
      LayoutIsStraight(StartTail(), SnakeLength, Right);
    }

    /** The body of the game loop; (x, y) is the food draw used if the
        food is eaten.  Returns whether the head is on the wall. */
    method Tick(key: int, x: int, y: int) returns (hitWall: bool)
      requires Valid() && phase == Running
      requires DrawInInset((x, y))
      modifies snake, foodMaker
      ensures Valid()
      ensures State() == Step(old(State()), key, x, y)
      ensures hitWall == HeadOnWall(snake.points, wall)
    {
      ghost var before := State();
      snake.Move();
      snake.UpdateDirection(key);
      if snake.HitsFood(foodMaker.currentFood.value) {
        snake.EatsFood();
        foodMaker.AddNewFood(x, y);
      }
      hitWall := snake.HitsWall(wall);
      StepKeepsHealthy(before, key, x, y);
    }

    /** Places the first food at (firstX, firstY), then runs the loop over
        the given keys and food draws, one of each per tick, until a tick
        ends with the head on the wall or the inputs run out. */
    method Start(firstX: int, firstY: int, keys: seq<int>, draws: seq<(int, int)>)
      requires Valid() && phase == NotStarted
      requires DrawInInset((firstX, firstY))
      requires |draws| == |keys| && forall i :: 0 <= i < |draws| ==> DrawInInset(draws[i])
      modifies this, snake, foodMaker
      ensures Valid() && phase != NotStarted
      ensures var w0 := World(old(snake.points), old(snake.direction), Cell(firstX, firstY, FoodSymbol));
        (State(), phase == Ended) == Run(w0, keys, draws, wall)
      ensures phase == Ended <==> HeadOnWall(snake.points, wall)
    {
      foodMaker.AddNewFood(firstX, firstY);
      phase := Running;
      ghost var w0 := State();
      LayoutIsStraight(StartTail(), SnakeLength, Right);
      InteriorIsOpen(HeadOf(w0.body), wall);
      RunEndsOnlyAtWall(w0, keys, draws, wall);
      var i := 0;
      var over := false;
      while i < |keys| && !over
        invariant 0 <= i <= |keys|
        invariant Valid() && phase == Running
        invariant !over ==> Run(w0, keys, draws, wall) == Run(State(), keys[i..], draws[i..], wall)
        invariant over ==> Run(w0, keys, draws, wall) == (State(), true)
      {
        assert keys[i..][0] == keys[i] && keys[i..][1..] == keys[i + 1..];
        assert draws[i..][0] == draws[i] && draws[i..][1..] == draws[i + 1..];
        over := Tick(keys[i], draws[i].0, draws[i].1);
        i := i + 1;
      }
      if over {
        phase := Ended;
      }
    }
  }
}
