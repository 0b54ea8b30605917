/** Actors and the level that owns them (game.js `Actor`, `Level` and the actor
    variants `Player`, `Coin`, `Fireball`, `HorizontalFireball`,
    `VerticalFireball`, `FireRain`). Actors are objects: the level removes them
    by identity and fireballs change their own position and speed. */
module Game {
  import opened Geometry
  import opened Terrain

  /** Which class an actor was built from. */
  datatype Kind = BaseActor | PlayerKind | CoinKind
                | FireballKind | HorizontalFireballKind | VerticalFireballKind | FireRainKind
  {
    predicate IsFireball() {
      FireballKind? || HorizontalFireballKind? || VerticalFireballKind? || FireRainKind?
    }

    /** The `type` getter of each class; the fireball subclasses inherit `'fireball'`. */
    function TypeName(): (r: string)
      ensures r == "actor" <==> BaseActor?
      ensures r == "player" <==> PlayerKind?
      ensures r == "coin" <==> CoinKind?
      ensures r == "fireball" <==> IsFireball()
    {
      match this
      case BaseActor => "actor"
      case PlayerKind => "player"
      case CoinKind => "coin"
      case _ => "fireball"
    }
  }

  const PlayerSize := Vector(0.8, 1.5)
  const CoinSize := Vector(0.6, 0.6)
  const FireballSize := Vector(1.0, 1.0)

  class Actor {
    const kind: Kind
    var pos: Vector
    var size: Vector
    var speed: Vector
    /** FireRain only: the spawn point it returns to. */
    var initialPos: Vector
    /** Coin only: the centred spawn point, the spring phase and its constants. */
    var basePos: Vector
    var spring: real
    var springSpeed: real
    var springDist: real

    /** `new Actor(pos, size, speed)`. */
    constructor (pos: Vector, size: Vector, speed: Vector)
      ensures kind == BaseActor && this.pos == pos && this.size == size && this.speed == speed
    {
      kind := BaseActor;
      this.pos, this.size, this.speed := pos, size, speed;
      initialPos, basePos := pos, pos;
      spring, springSpeed, springDist := 0.0, 0.0, 0.0;
    }

    /** `new Player(pos)`: the spawn marker is the feet, so the box is lifted by 0.5. */
    constructor Player(pos: Vector)
      ensures kind == PlayerKind && this.pos == Vector(pos.x, pos.y - 0.5)
      ensures size == PlayerSize && speed == Vector(0.0, 0.0)
    {
      kind := PlayerKind;
      this.pos := pos.Plus(Vector(0.0, -0.5));
      size, speed := PlayerSize, Vector(0.0, 0.0);
      initialPos, basePos := pos, pos;
      spring, springSpeed, springDist := 0.0, 0.0, 0.0;
    }

    /** `new Coin(pos)`: centred in its cell by (+0.2, +0.1); `basePos` is that
        centred point. `phase` is the random draw `Math.random() * 2 * Math.PI`. */
    constructor Coin(pos: Vector, phase: real)
      ensures kind == CoinKind && this.pos == Vector(pos.x + 0.2, pos.y + 0.1) && basePos == this.pos
      ensures size == CoinSize && speed == Vector(0.0, 0.0)
      ensures spring == phase && springSpeed == 8.0 && springDist == 0.07
    {
      kind := CoinKind;
      var centred := Vector(pos.x + 0.2, pos.y + 0.1);
      this.pos, basePos := centred, centred;
      size, speed := CoinSize, Vector(0.0, 0.0);
      initialPos := pos;
      spring, springSpeed, springDist := phase, 8.0, 0.07;
    }

    /** `new Fireball(pos, speed)`. */
    constructor Fireball(pos: Vector, speed: Vector)
      ensures kind == FireballKind && this.pos == pos && this.speed == speed && size == FireballSize
    {
      kind := FireballKind;
      this.pos, this.speed, size := pos, speed, FireballSize;
      initialPos, basePos := pos, pos;
      spring, springSpeed, springDist := 0.0, 0.0, 0.0;
    }

    constructor HorizontalFireball(pos: Vector)
      ensures kind == HorizontalFireballKind && this.pos == pos
      ensures speed == Vector(2.0, 0.0) && size == FireballSize
    {
      kind := HorizontalFireballKind;
      this.pos, speed, size := pos, Vector(2.0, 0.0), FireballSize;
      initialPos, basePos := pos, pos;
      spring, springSpeed, springDist := 0.0, 0.0, 0.0;
    }

    constructor VerticalFireball(pos: Vector)
      ensures kind == VerticalFireballKind && this.pos == pos
      ensures speed == Vector(0.0, 2.0) && size == FireballSize
    {
      kind := VerticalFireballKind;
      this.pos, speed, size := pos, Vector(0.0, 2.0), FireballSize;
      initialPos, basePos := pos, pos;
      spring, springSpeed, springDist := 0.0, 0.0, 0.0;
    }

    /** `new FireRain(pos)`: falls at speed 3 and remembers where it started. */
    constructor FireRain(pos: Vector)
      ensures kind == FireRainKind && this.pos == pos && initialPos == pos
      ensures speed == Vector(0.0, 3.0) && size == FireballSize
    {
      kind := FireRainKind;
      this.pos, speed, size := pos, Vector(0.0, 3.0), FireballSize;
      initialPos, basePos := pos, pos;
      spring, springSpeed, springDist := 0.0, 0.0, 0.0;
    }

    /** The `type` getter: the level tells coins and fireballs apart by it. */
    function Type(): (r: string)
      ensures r == "coin" <==> kind == CoinKind
      ensures r == "fireball" <==> kind.IsFireball()
      ensures r == "player" <==> kind == PlayerKind
    {
      kind.TypeName()
    }

    /** The rectangle behind the `left`, `right`, `top`, `bottom` getters:
        left and top are the position, right and bottom add the size. */
    function Bounds(): (r: Box)
      reads this
      ensures r.Left() == pos.x && r.Right() == pos.x + size.x
      ensures r.Top() == pos.y && r.Bottom() == pos.y + size.y
    {
      Box(pos, size)
    }

    /** `isIntersect(other)`: never with itself, otherwise strict overlap on all four sides. */
    function IsIntersect(other: Actor): (r: bool)
      reads this, other
      ensures other == this ==> !r
      ensures other != this ==>
        (r <==> (pos.x + size.x > other.pos.x && pos.x < other.pos.x + other.size.x &&
                 pos.y + size.y > other.pos.y && pos.y < other.pos.y + other.size.y))
    {
      if other == this then false else Bounds().Overlaps(other.Bounds())
    }

    /** `getNextPosition(time)` of the fireballs: `speed * time + pos`. */
    function NextPosition(time: real): (r: Vector)
      reads this
      ensures r == Vector(pos.x + speed.x * time, pos.y + speed.y * time)
    {
      speed.Times(time).Plus(pos)
    }

    /** `handleObstacle`: a fireball bounces (both speed components reversed);
        a FireRain goes back to its spawn point and keeps its speed. */
    method HandleObstacle()
      requires kind.IsFireball()
      modifies this`pos, this`speed
      ensures kind == FireRainKind ==> pos == initialPos && speed == old(speed)
      ensures kind != FireRainKind ==> pos == old(pos) && speed == Vector(-old(speed).x, -old(speed).y)
    {
      if kind == FireRainKind {
        pos := initialPos;
      } else {
        speed := Vector(speed.x * -1.0, speed.y * -1.0);
      }
    }

    /** `act(time, level)` of the fireballs: move to the next position when the
        level reports no obstacle there, otherwise handle the obstacle. The base
        class's `act` (and so the player's) does nothing. */
    method Act(time: real, level: Level)
      requires kind != CoinKind
      requires level.Valid()
      modifies this`pos, this`speed
      ensures !kind.IsFireball() ==> pos == old(pos) && speed == old(speed)
      ensures kind.IsFireball() && ObstacleIn(level.grid, old(NextPosition(time)), size) == Empty
              ==> pos == old(NextPosition(time)) && speed == old(speed)
      ensures kind.IsFireball() && ObstacleIn(level.grid, old(NextPosition(time)), size) != Empty
              ==> if kind == FireRainKind then pos == initialPos && speed == old(speed)
                  else pos == old(pos) && speed == Vector(-old(speed).x, -old(speed).y)
    {
      if kind.IsFireball() {
        var next := NextPosition(time);
        var obstacle := level.ObstacleAt(next, size);
        if obstacle == Empty {
          pos := next;
        } else {
          HandleObstacle();
        }
      }
    }

    /** `Coin.updateSpring(time)`: the phase advances by `springSpeed * time`. */
    method UpdateSpring(time: real)
      requires kind == CoinKind
      modifies this`spring
      ensures spring == old(spring) + springSpeed * time
    {
      spring := spring + springSpeed * time;
    }
  }

  /** `isIntersect` is symmetric, and actors that only touch along an edge do not intersect. */
  lemma IsIntersectSymmetric(p: Actor, q: Actor)
    ensures p.IsIntersect(q) == q.IsIntersect(p)
    ensures p.Bounds().Right() == q.Bounds().Left() || p.Bounds().Bottom() == q.Bounds().Top()
            ==> !p.IsIntersect(q) && !q.IsIntersect(p)
  {
    if p != q {
      OverlapsSymmetric(p.Bounds(), q.Bounds());
    }
  }

  /** The level's game status: `null`, `'won'` or `'lost'`. */
  datatype Status = Undecided | Won | Lost

  /** The first actor of `s` whose type is `t` (`Array.prototype.find`), or null. */
  function FirstOfType(s: seq<Actor>, t: string): (r: Actor?)
    ensures r != null ==> r in s && r.Type() == t
    ensures r == null <==> forall a :: a in s ==> a.Type() != t
    ensures r != null ==> exists k :: 0 <= k < |s| && s[k] == r && forall m :: 0 <= m < k ==> s[m].Type() != t
  {
    if |s| == 0 then null
    else if s[0].Type() == t then s[0]
    else
      var r := FirstOfType(s[1..], t);
      assert r != null ==> exists k :: 0 <= k < |s[1..]| && s[1..][k] == r && forall m :: 0 <= m < k ==> s[1..][m].Type() != t;
      r
  }

  /** The first actor of `s` that intersects `probe`, or null. */
  function FirstIntersecting(s: seq<Actor>, probe: Actor): (r: Actor?)
    reads s, probe
    ensures r != null ==> r in s && r.IsIntersect(probe)
    ensures r == null <==> forall a :: a in s ==> !a.IsIntersect(probe)
    ensures r != null ==> exists k :: 0 <= k < |s| && s[k] == r && forall m :: 0 <= m < k ==> !s[m].IsIntersect(probe)
  {
    if |s| == 0 then null
    else if s[0].IsIntersect(probe) then s[0]
    else
      var r := FirstIntersecting(s[1..], probe);
      assert r != null ==> exists k :: 0 <= k < |s[1..]| && s[1..][k] == r && forall m :: 0 <= m < k ==> !s[1..][m].IsIntersect(probe);
      r
  }

  /** `s.filter(a => a !== actor)`. */
  function Without(s: seq<Actor>, actor: Actor?): seq<Actor>
  {
    if |s| == 0 then []
    else if s[0] == actor then Without(s[1..], actor)
    else [s[0]] + Without(s[1..], actor)
  }

  /** Filtering drops exactly the occurrences of `actor`. */
  lemma {:induction false} WithoutMembers(s: seq<Actor>, actor: Actor?)
    ensures forall a :: a in Without(s, actor) <==> a in s && a != actor
    ensures |Without(s, actor)| <= |s|
  {
    if |s| > 0 {
      WithoutMembers(s[1..], actor);
      assert s == [s[0]] + s[1..];
    }
  }

  /** Filtering keeps the order: it distributes over concatenation, and leaves a
      sequence without `actor` as it is. */
  lemma {:induction false} WithoutKeepsOrder(s: seq<Actor>, t: seq<Actor>, actor: Actor?)
    ensures Without(s + t, actor) == Without(s, actor) + Without(t, actor)
  {
    if |s| == 0 {
      assert s + t == t;
    } else {
      assert (s + t)[1..] == s[1..] + t;
      WithoutKeepsOrder(s[1..], t, actor);
    }
  }

  lemma {:induction false} WithoutAbsent(s: seq<Actor>, actor: Actor?)
    requires actor !in s
    ensures Without(s, actor) == s
  {
    if |s| > 0 {
      assert actor !in s[1..];
      WithoutAbsent(s[1..], actor);
    }
  }

  class Level {
    const grid: Grid
    var actors: seq<Actor>
    const player: Actor?
    const height: nat
    var status: Status
    /** Counted down by the external driver once the game has ended. */
    var finishDelay: real

    ghost predicate Valid()
      reads this
    {
      height == |grid|
    }

    /** `new Level(grid, actors)`. */
    constructor (grid: Grid, actors: seq<Actor>)
      ensures Valid()
      ensures this.grid == grid && this.actors == actors && height == |grid|
      ensures player == FirstOfType(actors, "player")
      ensures status == Undecided && finishDelay == 1.0
      ensures !IsFinished()
    {
      this.grid := grid;
      this.actors := actors;
      player := FirstOfType(actors, "player");
      height := |grid|;
      status := Undecided;
      finishDelay := 1.0;
    }

    /** The `width` getter: the longest row, found with the loop of game.js. */
    method Width() returns (w: nat)
      ensures w == WidthOf(grid)
    {
      if |grid| == 0 {
        return 0;
      }
      w := |grid[0]|;
      var i := 1;
      while i < |grid|
        invariant 1 <= i <= |grid|
        invariant w == MaxLen(grid, i)
      {
        if |grid[i]| > w {
          w := |grid[i]|;
        }
        i := i + 1;
      }
    }

    /** `isFinished()`: the game has ended and the finish delay has run out. */
    function IsFinished(): (r: bool)
      reads this
      ensures r ==> status != Undecided
    {
      status != Undecided && finishDelay < 0.0
    }

    /** `actorAt(actor)`: the first actor of the level that intersects `actor`. */
    function ActorAt(actor: Actor): (r: Actor?)
      reads this, actors, actor
      ensures r != actor
      ensures r != null ==> r in actors && r.IsIntersect(actor)
      ensures r == null <==> forall a :: a in actors ==> !a.IsIntersect(actor)
    {
      FirstIntersecting(actors, actor)
    }

    /** `obstacleAt(pos, size)` with the bounds checks of game.js and nested scan. */
    method ObstacleAt(pos: Vector, size: Vector) returns (r: Cell)
      requires Valid()
      ensures r == ObstacleIn(grid, pos, size)
    {
      var box := Box(pos, size);
      if box.Bottom() > height as real {
        return Lava;
      }
      var width := Width();
      if box.Top() < 0.0 || box.Right() > width as real || box.Left() < 0.0 {
        return Wall;
      }
      ScanStaysInGrid(height, pos, size);
      var i0, iEnd := Ceil(pos.y), Ceil(pos.y) + Floor(size.y);
      var j0, jEnd := Ceil(pos.x), Ceil(pos.x) + Floor(size.x);
      assert ObstacleIn(grid, pos, size) == ScanRows(grid, i0, iEnd, j0, jEnd);
      var i := i0;
      while i < iEnd
        invariant i0 <= i
        invariant i0 < iEnd ==> i <= iEnd
        invariant ScanRows(grid, i0, iEnd, j0, jEnd) == ScanRows(grid, i, iEnd, j0, jEnd)
      {
        var j := j0;
        while j < jEnd
          invariant j0 <= j
          invariant j0 < jEnd ==> j <= jEnd
          invariant ScanRow(grid[i], j0, jEnd) == ScanRow(grid[i], j, jEnd)
        {
          if CellAt(grid[i], j) != Empty {
            assert ScanRow(grid[i], j, jEnd) == CellAt(grid[i], j);
            return CellAt(grid[i], j);
          }
          j := j + 1;
        }
        assert ScanRow(grid[i], j, jEnd) == Empty;
        i := i + 1;
      }
      return Empty;
    }

    /** `removeActor(actor)`: every occurrence of `actor` leaves the list. */
    method RemoveActor(actor: Actor?)
      modifies this`actors
      ensures actors == Without(old(actors), actor)
      ensures forall a :: a in actors <==> a in old(actors) && a != actor
    {
      WithoutMembers(actors, actor);
      actors := Without(actors, actor);
    }

    /** `noMoreActors(type)`: no remaining actor has type `t`. */
    function NoMoreActors(t: string): (r: bool)
      reads this
      ensures r <==> forall a :: a in actors ==> a.Type() != t
    {
      FirstOfType(actors, t) == null
    }

    /** `playerTouched(type, actor)`: the one-way status machine. */
    method PlayerTouched(t: string, actor: Actor?)
      modifies this`actors, this`status
      ensures old(status) != Undecided ==> status == old(status) && actors == old(actors)
      ensures old(status) == Undecided && (t == "lava" || t == "fireball")
              ==> status == Lost && actors == old(actors)
      ensures old(status) == Undecided && t == "coin"
              ==> actors == Without(old(actors), actor)
                  && (status == Won <==> forall a :: a in actors ==> a.Type() != "coin")
                  && (status != Won ==> status == Undecided)
      ensures old(status) == Undecided && t != "lava" && t != "fireball" && t != "coin"
              ==> status == Undecided && actors == old(actors)
    {
      if status != Undecided {
        return;
      }
      if t == "lava" || t == "fireball" {
        status := Lost;
        return;
      }
      if t == "coin" {
        actors := Without(actors, actor);
        if FirstOfType(actors, "coin") == null {
          status := Won;
        }
      }
    }
  }
}
