# Snake game simulation, modelled in Dafny

This project models the simulation core of a terminal snake game. A snake moves one cell per tick around an 80 x 20 arena. Its body is a list of cells from the tail (index 0) to the head (last index). The player's arrow keys change the snake's heading. Eating the food grows the snake by one cell, and new food is placed at random inside an inset rectangle. The game ends only when the head lies on the arena's wall.

Modules, one per part of the program:

- `Geometry` (geometry.dfy): `Cell` replaces the point classes. It has coordinates and a drawing symbol. Point equality becomes `SameCell`, which compares coordinates only. Point-against-line comparison becomes `OnLine`. `Moved` models the four-way shift of a snake point. `Range` models the half-open integer range the lines are built from.
- `Walls` (walls.dfy): horizontal and vertical lines, the four-line `Wall`, and the proof that a cell is a wall cell exactly when it lies on one of the four half-open border segments. Because of the half-open ranges, the far corner `(x_max, y_max)` is not a wall cell.
- `Snakes` (snake.dfy): the `Snake` class holds its body (`points: seq<Cell>`) and its `direction`. Its methods change them in place. Each method is proved against a function on the body (`Layout`, `Advanced`, `Grown`, `KeyDirection`). The lemmas state what those functions do: a move keeps the length, growth adds one cell, the body stays linked, and reversing direction is not rejected.
- `Food` (food.dfy): the `FoodMaker` class with its inclusive draw bounds and current food. Food placed inside the inset is never a wall cell.
- `Game` (game.dfy): the `SnakeGame` class. `Tick` is one pass of the game loop. `Start` places the first food and runs the loop over a finite list of keys and food draws. They are proved against the functions `Step` and `Run`. The lemmas cover the order of events inside a tick, the invariant every tick keeps, and the fact that only the wall ends a game.

Screen rows grow downwards, so the program's "upper" wall line, at `y = y_max`, is drawn at the bottom of the screen. The model keeps the program's names for the four lines.

Three behaviours of the program are easy to misread:

- The default snake's tail is at (10, 10), so its head starts at (13, 10) and moves to (14, 10) on the first move (`Snakes.StartingSnakeExample`).
- Food can be placed at `x_size - 2` and at `y_size - 2`, right next to the right wall (`x = x_size - 1`) and the upper wall (`y = y_size - 1`). Next to the left and lower walls, a free column and a free row always remain (`Food.InsetTouchesHighWalls`).
- A reversal of direction is not rejected, so the head can run into the snake's own body (`Snakes.ReversalRunsIntoBody`).

## Model

| member | source | states |
|---|---|---|
| `Geometry.Moved` | program.py:47-58 | A shift by `offset` along a heading adds `offset` times the heading's unit vector (Up lowers y, Right raises x, Down raises y, Left lowers x) and keeps the symbol |
| `Geometry.MovedChangesOneAxis` | program.py:47-58 | For each heading exactly one coordinate changes, by exactly `offset` |
| `Geometry.MovedComposes` | program.py:47-58 | Two shifts along one heading add up, so the k-th layout cell is the tail shifted k times by one |
| `Geometry.MovedUndone` | program.py:47-58 | A shift is undone by the same shift along the opposite heading |
| `Geometry.SameCell` | program.py:22-23 | Two points are equal exactly when they agree once the symbol is ignored: the coordinates match |
| `Geometry.Range` | program.py:189 | A Python half-open range: `hi - lo` integers (none when `hi <= lo`), the i-th being `lo + i` |
| `Geometry.AnyMatch` | program.py:25 | The `any` over a line's points holds exactly when some point has the cell's coordinates |
| `Geometry.OnLine` | program.py:24-25 | Comparing a point with a line holds exactly when some cell of the line has the point's coordinates; symbols are ignored |
| `Walls.HorizontalLine` | program.py:186-189 | The line holds `x_max - x_min` wall cells (none if `x_max <= x_min`), the i-th at `(x_min + i, y)` |
| `Walls.VerticalLine` | program.py:192-195 | The line holds `y_max - y_min` wall cells (none if `y_max <= y_min`), the i-th at `(x, y_min + i)` |
| `Walls.OnHorizontalLine` | program.py:189 | A cell is on a horizontal line exactly when its y matches and `x_min <= x < x_max` |
| `Walls.OnVerticalLine` | program.py:195 | A cell is on a vertical line exactly when its x matches and `y_min <= y < y_max` |
| `Walls.Wall.Lines` | program.py:166-178 | The wall has four lines (left, right, upper, lower), and every cell of them is a wall-symbol cell on the border segments |
| `Walls.OnWall` | program.py:139 | A cell is a wall cell exactly when it is on one of the wall's four lines |
| `Walls.OnAnyLine` | program.py:139 | The `any` over the wall's lines holds exactly when the cell is on one of them |
| `Walls.OnWallIsOnBorder` | program.py:160-178 | A cell is a wall cell exactly when it is at x = x_min or x = x_max with y in [y_min, y_max), or at y = y_max or y = y_min with x in [x_min, x_max) |
| `Walls.FarCornerIsOpen` | program.py:166-169 | The far corner (x_max, y_max) is never a wall cell |
| `Walls.OtherCornersAreWall` | program.py:166-169 | The three other corners of a proper rectangle are wall cells |
| `Walls.FarCornerGuarded` | program.py:166-169 | Both neighbours of the open corner on the border are wall cells, so the open corner cannot be reached from inside |
| `Walls.InteriorIsOpen` | program.py:166-169 | No cell strictly inside the rectangle is a wall cell |
| `Walls.ArenaExamples` | program.py:69 | In the 0..79 x 0..19 arena, (79, 10) is a wall cell, while (78, 10) and the corner (79, 19) are not |
| `Snakes.KeyDirection` | program.py:102-110 | An arrow key selects the heading with that key, whatever the current heading; any other value keeps the current heading |
| `Snakes.KeyDirectionRoundTrip` | program.py:102-110 | A heading's key selects exactly that heading, and a heading change happens only through the new heading's key |
| `Snakes.Layout` | program.py:92 | The initial body has `length` cells (none when `length <= 0`); cell i is the tail's coordinates shifted i steps along the heading, with the snake symbol |
| `Snakes.LayoutIsStraight` | program.py:90-92 | Each initial cell is the previous one shifted by one step. The head is the tail shifted `length - 1` steps, and the body is linked |
| `Snakes.Advanced` | program.py:124-133 | A move keeps the length. Cell i of the new body is cell i + 1 of the old one, and the new head is the old head shifted one step along the heading |
| `Snakes.Grown` | program.py:135-136 | Growth adds one cell. The old body follows it unchanged, the new first cell has the tail's coordinates, and the head stays |
| `Snakes.MoveShape` | program.py:124-133 | A move keeps the length. Cell i of the new body is cell i + 1 of the old one. The new head is the old head shifted one step, onto a neighbouring, different cell |
| `Snakes.GrowthShape` | program.py:135-136 | Growth adds exactly one cell, at index 0, with the tail's coordinates; the old body follows unchanged, so the head is unchanged |
| `Snakes.HitsFoodIgnoresSymbols` | program.py:112-115 | The head hits the food exactly when their x and y agree, whatever either symbol is |
| `Snakes.AdvancedKeepsLinked` | program.py:124-133 | A move keeps every cell within one step of the next |
| `Snakes.GrownKeepsLinked` | program.py:135-136 | Growth keeps every cell within one step of the next (the copy sits on the tail) |
| `Snakes.ReversalRunsIntoBody` | program.py:102-110 | A reversal is not rejected: a straight snake of at least three cells that moves the opposite way puts its head on a cell of its own body |
| `Snakes.StartingSnakeExample` | program.py:66-68 | The default snake is (10,10)..(13,10); after one move to the right it is (11,10)..(14,10) |
| `Snakes.Snake.constructor` | program.py:90-93 | The new snake's body is the layout from the tail along the heading, and its heading is the given one |
| `Snakes.Snake.Head` | program.py:120-122 | The head is the last cell of the body |
| `Snakes.Snake.Move` | program.py:95-97 | With at least two cells, the body becomes the move of the old body along the heading; the heading is unchanged |
| `Snakes.Snake.UpdateDirection` | program.py:102-110 | The heading becomes the one the key selects (unchanged for other keys); the body is unchanged |
| `Snakes.Snake.HitsFood` | program.py:112-115 | True exactly when the head's x and y equal the food's |
| `Snakes.Snake.EatsFood` | program.py:117-118 | The body becomes the grown body; the heading is unchanged |
| `Snakes.Snake.UpdateHead` | program.py:124-128 | The head shifted one step along the heading is appended |
| `Snakes.Snake.DropTail` | program.py:130-131 | The cell at index 0 is removed |
| `Snakes.Snake.AddTail` | program.py:135-136 | A copy of the cell at index 0 is inserted at index 0 |
| `Snakes.Snake.HitsWall` | program.py:138-139 | True exactly when the head lies on one of the four border segments |
| `Food.FoodIsOffTheWall` | program.py:145-149 | Food inside the inset of an x_size x y_size arena is never on its wall |
| `Food.InsetTouchesHighWalls` | program.py:145-149 | Food may be placed next to the right wall (x = x_size - 1) and the upper wall (y = y_size - 1), while next to the left and lower walls one free column and row always remain |
| `Food.FoodMaker.constructor` | program.py:143-150 | The draw bounds are 2..x_size-2 and 2..y_size-2 inclusive, and there is no food yet |
| `Food.FoodMaker.AddNewFood` | program.py:152-157 | The current food becomes a food cell at the drawn coordinates, which lie inside the bounds |
| `Game.Step` | program.py:77-81 | One tick never shortens the body |
| `Game.StepOrder` | program.py:77-81 | Within a tick the head moves along the heading held before the key is read, and the key then sets the heading. If the moved head is on the food, the body grows by exactly one and the food becomes the draw. Otherwise the length and the food stay |
| `Game.TurnTakesEffectNextTick` | program.py:77-78 | A key read in one tick steers the move of the following tick |
| `Game.StepKeepsHealthy` | program.py:77-81 | A tick keeps at least two cells and a linked body, and keeps the food inside the inset |
| `Game.Run` | program.py:76-83 | A run over finite inputs never shortens the body |
| `Game.RunKeepsHealthy` | program.py:76-83 | A whole run keeps the tick invariant |
| `Game.RunEndsOnlyAtWall` | program.py:82-83 | Starting off the wall, a run reports the end of the game exactly when the final head is on the wall |
| `Game.FirstTickEatsExample` | program.py:76-81 | In the default game with food at (14, 10), the first tick grows the snake to five cells with head (14, 10) and replaces the food |
| `Game.SnakeGame.constructor` | program.py:62-70 | The game starts with newly created snake and food maker objects, the 0..79 x 0..19 wall, the default four-cell snake heading right, and no food |
| `Game.SnakeGame.Tick` | program.py:77-83 | The new body, heading and food are one tick of the old ones. The result says whether the head is on the wall |
| `Game.SnakeGame.Start` | program.py:72-83 | After the first food is placed, the final state is the run over the inputs. The game has ended exactly when the head is on the wall |

## Left out

- Terminal I/O: the `Console` class, the initial drawing of wall and snake, the draw calls in `move` and `add_new_food`, and `end`. These are curses calls. The key read in each tick is a parameter instead.
- The 500 ms input timeout: a timed-out read returns curses's "no key" value, which is just an integer that is not an arrow key.
- The key codes are the ncurses values 258 to 261; the model uses only the fact that they are distinct.
- `randint`: each food draw is a pair of integers, given as a parameter, that lies within the bounds.
- `sleep(3)` and the `__main__` block: process timing and startup.
- The `TypeError` branches of point equality and of the point shift: `Direction` is a closed datatype, and the two comparisons are separate predicates, so neither case can arise.
- Setting the dropped tail's symbol to blank: it only affects what is drawn, and the cell has already left the body.
- The in-place update of a snake point's coordinates: `Moved` returns a new cell. Every call site shifts a freshly made point or copy, so no other reference can observe the update.
- The wall's stored lines: `Wall.Lines()` computes the same four lines from the bounds on demand.
- The unbounded game loop: `Start` runs over a finite list of inputs and stops, still running, when they run out.
- Game.SnakeGame.Tick: takes a food draw in every tick, not only in ticks where food is eaten. The draw is ignored when no food is eaten.
- Game.SnakeGame.Tick: requires a started game. Before the first food exists, the food test would compare the head with `None` and raise an error.
