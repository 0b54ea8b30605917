# Platformer level kernel in Dafny

A model of the kernel of a small tile-grid platformer written in JavaScript
(`game.js`). It covers:

- immutable 2D vectors;
- actors as axis-aligned boxes with a strict-overlap intersection test;
- the `Level`: a jagged grid of wall/lava/empty cells, a list of actors, the obstacle query, and the one-way won/lost status machine;
- the `LevelParser`, which builds the grid and the actor list from ASCII lines;
- the fireball family's movement rule, and the spawn offsets of the player and the coin.

Coordinates are exact `real`s. `Math.floor` is `.Floor`, and `Math.ceil` is `-((-x).Floor)`.

Modules, leaf first:

- `Geometry` (`geometry.dfy`): `Vector`, `Box` (the bounds and the strict overlap of `isIntersect`), `Floor`, `Ceil`.
- `Terrain` (`terrain.dfy`): grid cells, `width` as a function, and `obstacleAt` as a function (`ObstacleIn`), with its properties.
- `Game` (`game.dfy`): the `Actor` class, its constructors and fireball movement, and the `Level` class.
- `Parser` (`parser.dfy`): `obstacleFromSymbol`, `createGrid`, and the `LevelParser` class with `createActors`.

Actors are objects because the level removes them by identity and fireballs change their own fields.
An actor's class becomes a constant `kind` tag. Its `type` string is derived from that tag.
`Level` is a class with mutable `actors` and `status`.
Its loops (`width`, the nested scan of `obstacleAt`) are methods proved equal to the specification functions in `Terrain`.

The model follows game.js as written:

- `obstacleAt` scans rows from `ceil(pos.y)` up to `ceil(pos.y) + floor(size.y)`, and columns the same way in x. It does not scan from `floor` to `ceil`. A box reaching only partly into a cell can miss it (`Terrain.PartlyCoveredCellIsSkipped`).
- `createActors` bounds the columns of every row by the length of the FIRST line (`Parser.FirstLineBoundsColumns`). It only looks up the symbols `@ o v = |`.
- A symbol from that set with no dictionary entry makes `new undefined(...)` throw. It is not skipped. `CreateActors` returns `NotAConstructor` for it.

## Model

| member | source | states |
|---|---|---|
| Geometry.Vector.Plus | game.js:9-14 | the result's components are `x + other.x` and `y + other.y`; operands are values, so neither changes |
| Geometry.Vector.Times | game.js:16-18 | the result's components are `x * k` and `y * k` |
| Geometry.OverlapsSymmetric | game.js:64-68 | the four strict inequalities of `isIntersect` are symmetric in the two boxes |
| Geometry.TouchingEdgesDoNotOverlap | game.js:64-68 | boxes sharing only an edge (one's right is the other's left, or bottom/top) do not overlap, in either order |
| Terrain.WidthIsMax | game.js:82-93 | `width` is 0 with no rows; otherwise it equals some row's length and no row is longer |
| Terrain.ScanRow | game.js:117-121 | a non-empty result is the content of the FIRST non-empty scanned column: all columns left of it are empty; empty only if every scanned column is empty (a read past a short row is empty) |
| Terrain.ScanRows | game.js:116-122 | a non-empty result is the FIRST non-empty scanned cell in row-major order: every cell of the earlier scanned rows and every earlier cell of its own row is empty; empty only if every scanned cell is empty |
| Terrain.ScanStaysInGrid | game.js:108-118 | once the box's bottom is within `height` and its top and left are non-negative, every row the scan reads is below `height` and the first row and column are non-negative |
| Terrain.ObstacleIn | game.js:103-123 | a box whose bottom exceeds `height` gets `'lava'`, checked before anything else; otherwise a box with top < 0, right > width or left < 0 gets `'wall'` |
| Terrain.InsideIsScannedCell | game.js:116-122 | otherwise the scanned rows exist (below `height`, from a non-negative row and column), a non-empty answer is the first non-empty scanned cell in row-major order, and an empty answer means all scanned cells are empty |
| Terrain.PartlyCoveredCellIsSkipped | game.js:116-117 | the scan starts at `ceil(pos)`: a 1x1 box at (0.5, 0) over a wall in cell (0, 0) gets no obstacle |
| Game.Kind.TypeName | game.js:230-232 | the `type` strings: `'actor'`, `'player'` (game.js:324-326), `'coin'` (game.js:297-299) each for exactly its own class, and `'fireball'` exactly for `Fireball` and the three subclasses that inherit its getter |
| Game.Actor.Type | game.js:35-37 | an actor's type is `'coin'`, `'fireball'` or `'player'` exactly when it was built by that class or (for `'fireball'`) one of its subclasses |
| Game.Actor.Bounds | game.js:39-53 | the box of an actor: left = `pos.x`, right = `pos.x + size.x`, top = `pos.y`, bottom = `pos.y + size.y` |
| Game.Actor.constructor | game.js:22-30 | a base actor keeps the given `pos`, `size` and `speed` and has type `'actor'` |
| Game.Actor.Player | game.js:318-322 | a player is lifted by 0.5 from its spawn point, has size (0.8, 1.5) and speed (0, 0) |
| Game.Actor.Coin | game.js:286-295 | a coin is shifted by (+0.2, +0.1), its `basePos` is that shifted point, size (0.6, 0.6), `springSpeed` 8, `springDist` 0.07, `spring` the random phase |
| Game.Actor.Fireball | game.js:222-228 | a fireball keeps `pos` and `speed` and has size (1, 1) |
| Game.Actor.HorizontalFireball | game.js:259-265 | speed (2, 0), size (1, 1), at the spawn point |
| Game.Actor.VerticalFireball | game.js:269-273 | speed (0, 2), size (1, 1), at the spawn point |
| Game.Actor.FireRain | game.js:275-279 | speed (0, 3), size (1, 1), and `initialPos` is the spawn point |
| Game.Actor.IsIntersect | game.js:55-69 | false for the actor itself; otherwise true iff all four strict inequalities between the two boxes hold |
| Game.IsIntersectSymmetric | game.js:55-69 | `p.isIntersect(q) == q.isIntersect(p)` for all actors; actors touching only along a vertical or a horizontal edge do not intersect |
| Game.Actor.NextPosition | game.js:234-243 | the next position is `pos + speed * time`, component-wise |
| Game.Actor.HandleObstacle | game.js:245-248 | a fireball keeps `pos` and negates both speed components; a FireRain (override at game.js:281-283) returns to `initialPos` and keeps its speed |
| Game.Actor.Act | game.js:250-256 | with no obstacle at the next position the fireball moves there with unchanged speed; otherwise it handles the obstacle as above; non-fireball actors do not move |
| Game.Actor.UpdateSpring | game.js:301-303 | the coin's phase advances by exactly `springSpeed * time` |
| Game.FirstOfType | game.js:76 | the first actor of the list with the given type, or null exactly when no actor has that type |
| Game.FirstIntersecting | game.js:100 | the first actor of the list that intersects the probe, or null exactly when none does |
| Game.WithoutMembers | game.js:126 | filtering by identity keeps exactly the actors other than the removed one |
| Game.WithoutKeepsOrder | game.js:126 | filtering distributes over concatenation, so the kept actors stay in order |
| Game.WithoutAbsent | game.js:126 | filtering out an actor that is not in the list leaves the list as it is |
| Game.Level.constructor | game.js:73-80 | a new level has the given grid and actors, `height` = number of rows, `player` = the first `'player'` actor, status null, `finishDelay` 1, and is not finished |
| Game.Level.Width | game.js:82-93 | the loop over rows returns `WidthOf(grid)`, the maximum row length (see `Terrain.WidthIsMax`) |
| Game.Level.IsFinished | game.js:95-97 | the level is finished only after its status has been set |
| Game.Level.ActorAt | game.js:99-101 | the result is an actor of the level that intersects the argument, never the argument itself; null exactly when no actor intersects it |
| Game.Level.ObstacleAt | game.js:103-123 | the bounds checks and nested loops return exactly `ObstacleIn(grid, pos, size)`, whose own contract and `Terrain.InsideIsScannedCell` state what it answers |
| Game.Level.RemoveActor | game.js:125-127 | the new list is the old one filtered by identity: every occurrence of the actor leaves and every other actor stays |
| Game.Level.NoMoreActors | game.js:129-134 | true iff no remaining actor has the given type |
| Game.Level.PlayerTouched | game.js:136-153 | no change once status is set; `'lava'`/`'fireball'` set `'lost'`; `'coin'` removes that actor by identity and sets `'won'` iff no coin remains; any other type changes nothing |
| Parser.ObstacleFromSymbol | game.js:173-183 | `'wall'` iff the symbol is `x`, `'lava'` iff `!`, empty otherwise |
| Parser.CreateGrid | game.js:185-200 | one row per line, row length = line length, a cell is wall iff its character is `x` and lava iff `!` |
| Parser.GridAgreesWithObstacleFromSymbol | game.js:185-200 | every cell of `createGrid` equals `obstacleFromSymbol` of its character |
| Parser.GridDimensions | game.js:185-200 | the parsed grid has one row per line and its `width` is the longest line's length |
| Parser.RowPlacementsSound | game.js:207-211 | every actor placed in a row comes from a moving symbol with a dictionary entry in a scanned column of that row |
| Parser.RowPlacementsComplete | game.js:207-211 | every moving symbol with a dictionary entry in a scanned column of a row is placed |
| Parser.PlacementsSound | game.js:202-215 | every placed actor comes from a moving symbol with a dictionary entry at row i, column j < first line's length, spawned at `Vector(j, i)` |
| Parser.PlacementsComplete | game.js:202-215 | every such symbol in the scanned area is placed at `Vector(j, i)` |
| Parser.PlacementsOrdered | game.js:206-211 | placements come out in row-major order of their spawn points |
| Parser.FirstLineBoundsColumns | game.js:207 | a player marker in a second line longer than the (empty) first line is never placed |
| Parser.PlayerBelowBlankLine | game.js:202-215 | lines `" "`, `"@"` with `@` → Player give exactly one placement, at `Vector(0, 1)` |
| Parser.LevelParser.constructor | game.js:157-159 | the parser keeps the given dictionary |
| Parser.LevelParser.Spawn | game.js:209 | `new F(pos)` yields a fresh actor with exactly the kind, position, size and speed `F`'s constructor sets (FireRain's `initialPos`; a coin's `basePos`, spring phase, `springSpeed` 8 and `springDist` 0.07) |
| Parser.LevelParser.CreateActors | game.js:202-215 | fails exactly when a scanned moving symbol has no dictionary entry; otherwise returns fresh actors, one per placement, in row-major order, actor k in the full state its dictionary constructor sets at placement k's `Vector(j, i)`, a coin with the phase drawn for its cell |

## Left out

- The demo script at the end of the file (sample grid, `MyCoin`, `console.log`): sample data and output, not kernel logic.
- `Coin.getSpringVector`, `Coin.getNextPosition`, `Coin.act`: they use `Math.sin`, which has no exact model over reals. `Act` therefore requires a non-coin actor.
- The coin's random initial phase `Math.random() * 2 * Math.PI`: a parameter of the `Coin` constructor, and a caller-supplied function of the cell in `CreateActors`.
- `LevelParser.actorFromSymbol`: it reads the literal property `dictionary.key` and calls `hasOwnProperty` on a possibly prototype-less object. Both are JavaScript object-model quirks with no meaning to state.
- `LevelParser.parse`: its body is empty and it returns `undefined`.
- The `instanceof Vector`/`instanceof Actor` checks and the null check in `isIntersect` that throw errors: the Dafny types rule those arguments out. `IsIntersect` takes a non-null `Actor`.
- Game.Actor.HandleObstacle: models speed as a value. In JavaScript, `speed.x *= -1` mutates the Vector object in place. A speed Vector shared by two fireballs would reverse both; the model does not capture that sharing.
- Game.Actor.Coin: models positions as values. The JavaScript constructor mutates the Vector it is given (`pos.x += 0.2`), so a caller's own Vector also moves. `basePos` aliases that same object. The model keeps only the resulting values.
- A dictionary entry that is `Fireball` itself: `new Fireball(pos)` leaves `speed` undefined, and only the one-argument constructors are dictionary factories here.
- Default arguments are not modelled: `Vector(x = 0, y = 0)` (game.js:4), `Actor(pos = (0,0), size = (1,1), speed = (0,0))` (game.js:22), `Level(grid = [], actors = [])` (game.js:73), `LevelParser(dictionary = Object.create(null))` (game.js:157) and `updateSpring(time = 1)` (game.js:301). game.js relies on them at `new Actor(positionToMove, size)` (game.js:107, speed), at `super()` in `Fireball` and `HorizontalFireball` (game.js:224, 261, all three arguments) and at `super(pos, new Vector(0.6, 0.6))` in `Coin` (game.js:288, speed). Every call in the model passes its arguments explicitly, with those defaults written out as values (`Game.Actor.Coin` sets speed (0, 0)).
- The argument-less `getNextPosition()` (game.js:236-238) is not a separate member. It equals `NextPosition(1.0)`.
- Lines are `seq<char>`, indexed by Unicode scalar values. JavaScript's `split('')` (game.js:198, 205) splits into UTF-16 code units, so a line with a character outside the Basic Multilingual Plane gets different row lengths, width and column indices there.
- Arithmetic is on exact reals, not IEEE doubles. `this.pos.x += 0.2` (game.js:289) and `speed * time + pos` (game.js:240-242) are rounded in JavaScript. Near the boundary tests of `obstacleAt` (game.js:108, 112) and at `Math.ceil` (game.js:116), a rounded value can land on the other side from the exact one, so JavaScript can answer differently from the model there.
- A call of `act` with an undefined `time`, which gives NaN positions: `time` is a real.
- Rendering, the animation loop, keyboard input and the `finishDelay` countdown: none of these is in the file. `finishDelay` is a plain field that a driver decrements.
