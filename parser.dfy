/** `LevelParser` (game.js:156-215): the grid from the fixed `x`/`!` mapping,
    the actors from a dictionary of one-argument constructors, two separate
    passes over the same lines. */
module Parser {
  import opened Geometry
  import opened Terrain
  import opened Game

  /** A constructor that can stand in the dictionary: every one of these takes
      the spawn position as its only argument. */
  datatype Factory = ActorFactory | PlayerFactory | CoinFactory
                   | HorizontalFireballFactory | VerticalFireballFactory | FireRainFactory

  /** The symbols `createActors` looks up: `@ o v = |`. */
  const MovingSymbols: set<char> := {'@', 'o', 'v', '=', '|'}

  /** The result of `createActors`: the actors, or the `TypeError` of
      `new undefined(...)` when a moving symbol has no dictionary entry. */
  datatype Outcome = Built(actors: seq<Actor>) | NotAConstructor(symbol: char)

  /** One actor the parser places: which constructor, and the spawn `Vector(j, i)`. */
  datatype Placement = Placement(factory: Factory, at: Vector)

  /** Columns scanned in every row: the length of the FIRST line only. */
  function ScanWidth(lines: seq<string>): nat
  {
    if |lines| == 0 then 0 else |lines[0]|
  }

  /** What the scan does at one cell of `line` (row `i`). */
  function CellPlacement(dict: map<char, Factory>, line: string, i: nat, j: nat): seq<Placement>
  {
    if j < |line| && line[j] in MovingSymbols && line[j] in dict
    then [Placement(dict[line[j]], Vector(j as real, i as real))]
    else []
  }

  /** The inner loop over columns `0..n` of row `i`. */
  function RowPlacements(dict: map<char, Factory>, line: string, i: nat, n: nat): seq<Placement>
  {
    if n == 0 then [] else RowPlacements(dict, line, i, n - 1) + CellPlacement(dict, line, i, n - 1)
  }

  /** The outer loop over rows `0..n`, each scanned up to the first line's length. */
  function Placements(dict: map<char, Factory>, lines: seq<string>, n: nat): seq<Placement>
    requires n <= |lines|
  {
    if n == 0 then [] else Placements(dict, lines, n - 1) + RowPlacements(dict, lines[n - 1], n - 1, ScanWidth(lines))
  }

  /** No moving symbol in the first `n` columns of `line` lacks a dictionary entry. */
  predicate RowKnown(dict: map<char, Factory>, line: string, n: nat)
  {
    forall j :: 0 <= j < n && j < |line| && line[j] in MovingSymbols ==> line[j] in dict
  }

  /** No moving symbol in the scanned part of the first `n` rows lacks a dictionary entry. */
  predicate AllKnown(dict: map<char, Factory>, lines: seq<string>, n: nat)
    requires n <= |lines|
  {
    forall i :: 0 <= i < n ==> RowKnown(dict, lines[i], ScanWidth(lines))
  }

  /** The state `new F(at)` leaves an actor in, for each dictionary constructor;
      `phase` is the random draw a coin takes as its spring phase. */
  predicate SpawnedBy(a: Actor, p: Placement, phase: real)
    reads a
  {
    match p.factory
    case ActorFactory =>
      a.kind == BaseActor && a.pos == p.at && a.size == Vector(1.0, 1.0) && a.speed == Vector(0.0, 0.0)
    case PlayerFactory =>
      a.kind == PlayerKind && a.pos == Vector(p.at.x, p.at.y - 0.5) && a.size == PlayerSize
      && a.speed == Vector(0.0, 0.0)
    case CoinFactory =>
      a.kind == CoinKind && a.pos == Vector(p.at.x + 0.2, p.at.y + 0.1) && a.basePos == a.pos
      && a.size == CoinSize && a.speed == Vector(0.0, 0.0)
      && a.spring == phase && a.springSpeed == 8.0 && a.springDist == 0.07
    case HorizontalFireballFactory =>
      a.kind == HorizontalFireballKind && a.pos == p.at && a.speed == Vector(2.0, 0.0) && a.size == FireballSize
    case VerticalFireballFactory =>
      a.kind == VerticalFireballKind && a.pos == p.at && a.speed == Vector(0.0, 2.0) && a.size == FireballSize
    case FireRainFactory =>
      a.kind == FireRainKind && a.pos == p.at && a.initialPos == p.at && a.speed == Vector(0.0, 3.0)
      && a.size == FireballSize
  }

  /** The random draw for the cell a placement comes from: `phase(row, column)`. */
  function PhaseAt(phase: (int, int) -> real, p: Placement): real
  {
    phase(p.at.y.Floor, p.at.x.Floor)
  }

  /** Actor `k` is the one `new F(at)` built for placement `k`, with the phase
      drawn for that placement's cell. */
  predicate AllSpawned(actors: seq<Actor>, ps: seq<Placement>, phase: (int, int) -> real)
    reads actors
  {
    |actors| == |ps| && forall k :: 0 <= k < |actors| ==> SpawnedBy(actors[k], ps[k], PhaseAt(phase, ps[k]))
  }

  lemma AppendSpawned(actors: seq<Actor>, ps: seq<Placement>, phase: (int, int) -> real, a: Actor, p: Placement)
    requires AllSpawned(actors, ps, phase) && SpawnedBy(a, p, PhaseAt(phase, p))
    ensures AllSpawned(actors + [a], ps + [p], phase)
  {
    assert forall k :: 0 <= k < |actors| ==> (actors + [a])[k] == actors[k] && (ps + [p])[k] == ps[k];
  }

  /** `obstacleFromSymbol(key)`. */
  function ObstacleFromSymbol(key: char): (c: Cell)
    ensures c == Wall <==> key == 'x'
    ensures c == Lava <==> key == '!'
    ensures c == Empty <==> key != 'x' && key != '!'
  {
    if key == 'x' then Wall
    else if key == '!' then Lava
    else Empty
  }

  /** `createGrid(lines)`: one row per line, one cell per character, through
      the same `x`/`!` mapping written out a second time. */
  function CreateGrid(lines: seq<string>): (g: Grid)
    ensures |g| == |lines|
    ensures forall i :: 0 <= i < |g| ==> |g[i]| == |lines[i]|
    ensures forall i, j :: 0 <= i < |g| && 0 <= j < |g[i]| ==>
      (g[i][j] == Wall <==> lines[i][j] == 'x') && (g[i][j] == Lava <==> lines[i][j] == '!')
  {
    seq(|lines|, i requires 0 <= i < |lines| =>
      seq(|lines[i]|, j requires 0 <= j < |lines[i]| =>
        match lines[i][j]
        case 'x' => Wall
        case '!' => Lava
        case _ => Empty))
  }

  /** The grid built by `createGrid` agrees cell by cell with `obstacleFromSymbol`. */
  lemma GridAgreesWithObstacleFromSymbol(lines: seq<string>, i: nat, j: nat)
    requires i < |lines| && j < |lines[i]|
    ensures CreateGrid(lines)[i][j] == ObstacleFromSymbol(lines[i][j])
  {
  }

  /** The grid is as wide as the longest line and as high as there are lines. */
  lemma GridDimensions(lines: seq<string>)
    ensures |CreateGrid(lines)| == |lines|
    ensures forall i :: 0 <= i < |lines| ==> |lines[i]| <= WidthOf(CreateGrid(lines))
    ensures |lines| > 0 ==> exists i :: 0 <= i < |lines| && WidthOf(CreateGrid(lines)) == |lines[i]|
  {
    WidthIsMax(CreateGrid(lines));
  }

  /** Every placement of a row comes from a moving symbol with a dictionary
      entry, in that row, within the scanned columns. */
  lemma {:induction false} RowPlacementsSound(dict: map<char, Factory>, line: string, i: nat, n: nat)
    ensures forall p :: p in RowPlacements(dict, line, i, n) ==>
      exists j :: 0 <= j < n && j < |line| && line[j] in MovingSymbols && line[j] in dict
        && p == Placement(dict[line[j]], Vector(j as real, i as real))
  {
    if n > 0 {
      RowPlacementsSound(dict, line, i, n - 1);
    }
  }

  lemma {:induction false} RowPlacementsComplete(dict: map<char, Factory>, line: string, i: nat, n: nat, j: nat)
    requires j < n && j < |line| && line[j] in MovingSymbols && line[j] in dict
    ensures Placement(dict[line[j]], Vector(j as real, i as real)) in RowPlacements(dict, line, i, n)
  {
    if j < n - 1 {
      RowPlacementsComplete(dict, line, i, n - 1, j);
    }
  }

  /** Soundness of `createActors`' placements: each comes from a moving symbol
      with a dictionary entry at row `i`, column `j`, with `j` below the FIRST
      line's length, spawned at `Vector(j, i)`. */
  lemma {:induction false} PlacementsSound(dict: map<char, Factory>, lines: seq<string>, n: nat)
    requires n <= |lines|
    ensures forall p :: p in Placements(dict, lines, n) ==>
      exists i, j :: 0 <= i < n && 0 <= j < ScanWidth(lines) && j < |lines[i]|
        && lines[i][j] in MovingSymbols && lines[i][j] in dict
        && p == Placement(dict[lines[i][j]], Vector(j as real, i as real))
  {
    if n > 0 {
      PlacementsSound(dict, lines, n - 1);
      RowPlacementsSound(dict, lines[n - 1], n - 1, ScanWidth(lines));
    }
  }

  /** Completeness: every moving symbol with a dictionary entry inside the
      scanned area gets its placement. */
  lemma {:induction false} PlacementsComplete(dict: map<char, Factory>, lines: seq<string>, n: nat, i: nat, j: nat)
    requires n <= |lines| && i < n && j < ScanWidth(lines) && j < |lines[i]|
    requires lines[i][j] in MovingSymbols && lines[i][j] in dict
    ensures Placement(dict[lines[i][j]], Vector(j as real, i as real)) in Placements(dict, lines, n)
  {
    var p := Placement(dict[lines[i][j]], Vector(j as real, i as real));
    var front := Placements(dict, lines, n - 1);
    var row := RowPlacements(dict, lines[n - 1], n - 1, ScanWidth(lines));
    assert Placements(dict, lines, n) == front + row;
    if i < n - 1 {
      PlacementsComplete(dict, lines, n - 1, i, j);
      assert p in front;
    } else {
      RowPlacementsComplete(dict, lines[i], i, ScanWidth(lines), j);
      assert p in row;
    }
  }

  /** Row-major order on spawn points. */
  predicate Before(a: Vector, b: Vector)
  {
    a.y < b.y || (a.y == b.y && a.x < b.x)
  }

  predicate RowMajor(ps: seq<Placement>)
  {
    forall k, m :: 0 <= k < m < |ps| ==> Before(ps[k].at, ps[m].at)
  }

  lemma {:induction false} RowPlacementsOrdered(dict: map<char, Factory>, line: string, i: nat, n: nat)
    ensures RowMajor(RowPlacements(dict, line, i, n))
    ensures forall p :: p in RowPlacements(dict, line, i, n) ==> p.at.y == i as real && p.at.x < n as real
  {
    if n > 0 {
      RowPlacementsOrdered(dict, line, i, n - 1);
    }
  }

  /** The actors come out in row-major order of their spawn points. */
  lemma {:induction false} PlacementsOrdered(dict: map<char, Factory>, lines: seq<string>, n: nat)
    requires n <= |lines|
    ensures RowMajor(Placements(dict, lines, n))
    ensures forall p :: p in Placements(dict, lines, n) ==> p.at.y < n as real
  {
    if n > 0 {
      PlacementsOrdered(dict, lines, n - 1);
      RowPlacementsOrdered(dict, lines[n - 1], n - 1, ScanWidth(lines));
      var front: seq<Placement> := Placements(dict, lines, n - 1);
      var row: seq<Placement> := RowPlacements(dict, lines[n - 1], n - 1, ScanWidth(lines));
      var all: seq<Placement> := front + row;
      assert Placements(dict, lines, n) == all;
      forall k, m | 0 <= k < m < |all|
        ensures Before(all[k].at, all[m].at)
      {
        if m < |front| {
          assert all[k] == front[k] && all[m] == front[m];
        } else if k >= |front| {
          assert all[k] == row[k - |front|];
          assert all[m] == row[m - |front|];
        } else {
          assert all[k] == front[k] && front[k] in front;
          assert all[m] == row[m - |front|] && row[m - |front|] in row;
        }
      }
    }
  }

  /** Columns are bounded by the first line: a player in a second line that is
      longer than the first is never placed. */
  lemma FirstLineBoundsColumns()
    ensures Placements(map['@' := PlayerFactory], ["", "@"], 2) == []
  {
  }

  /** A player marker below a blank line is placed at `Vector(0, 1)`. */
  lemma PlayerBelowBlankLine()
    ensures Placements(map['@' := PlayerFactory], [" ", "@"], 2) == [Placement(PlayerFactory, Vector(0.0, 1.0))]
  {
    var dict := map['@' := PlayerFactory];
    assert CellPlacement(dict, " ", 0, 0) == [];
    assert CellPlacement(dict, "@", 1, 0) == [Placement(PlayerFactory, Vector(0.0, 1.0))];
  }

  class LevelParser {
    /** The symbol-to-constructor dictionary. */
    const dictionary: map<char, Factory>

    constructor (dictionary: map<char, Factory>)
      ensures this.dictionary == dictionary
    {
      this.dictionary := dictionary;
    }

    /** `new F(pos)` for a dictionary constructor `F`; `phase` is the coin's random draw. */
    static method Spawn(f: Factory, pos: Vector, phase: real) returns (a: Actor)
      ensures fresh(a) && SpawnedBy(a, Placement(f, pos), phase)
    {
      if f == ActorFactory {
        a := new Actor(pos, Vector(1.0, 1.0), Vector(0.0, 0.0));
      } else if f == PlayerFactory {
        a := new Actor.Player(pos);
      } else if f == CoinFactory {
        a := new Actor.Coin(pos, phase);
      } else if f == HorizontalFireballFactory {
        a := new Actor.HorizontalFireball(pos);
      } else if f == VerticalFireballFactory {
        a := new Actor.VerticalFireball(pos);
      } else {
        a := new Actor.FireRain(pos);
      }
    }

    /** `createActors(lines)`: row-major scan of the lines, up to the first line's
        length; each moving symbol becomes a new actor at `Vector(j, i)`.
        `phase(i, j)` stands for the random draw of a coin built at that cell. */
    method CreateActors(lines: seq<string>, phase: (int, int) -> real) returns (r: Outcome)
      ensures r.NotAConstructor? <==> !AllKnown(dictionary, lines, |lines|)
      ensures r.NotAConstructor? ==> r.symbol in MovingSymbols && r.symbol !in dictionary
      ensures r.Built? ==> AllSpawned(r.actors, Placements(dictionary, lines, |lines|), phase)
      ensures r.Built? ==> forall a :: a in r.actors ==> fresh(a)
    {
      var actors: seq<Actor> := [];
      var width := ScanWidth(lines);
      var i := 0;
      while i < |lines|
        invariant 0 <= i <= |lines|
        invariant AllKnown(dictionary, lines, i)
        invariant AllSpawned(actors, Placements(dictionary, lines, i), phase)
        invariant forall a :: a in actors ==> fresh(a)
      {
        ghost var done := Placements(dictionary, lines, i);
        var j := 0;
        while j < width
          invariant 0 <= j <= width
          invariant RowKnown(dictionary, lines[i], j)
          invariant AllSpawned(actors, done + RowPlacements(dictionary, lines[i], i, j), phase)
          invariant forall a :: a in actors ==> fresh(a)
        {
          ghost var before := done + RowPlacements(dictionary, lines[i], i, j);
          assert done + RowPlacements(dictionary, lines[i], i, j + 1)
              == before + CellPlacement(dictionary, lines[i], i, j);
          if j < |lines[i]| && lines[i][j] in MovingSymbols {
            var symbol := lines[i][j];
            if symbol !in dictionary {
              return NotAConstructor(symbol);
            }
            var at := Vector(j as real, i as real);
            assert PhaseAt(phase, Placement(dictionary[symbol], at)) == phase(i, j);
            var actor := Spawn(dictionary[symbol], at, phase(i, j));
            AppendSpawned(actors, before, phase, actor, Placement(dictionary[symbol], at));
            actors := actors + [actor];
          } else {
            assert CellPlacement(dictionary, lines[i], i, j) == [];
          }
          j := j + 1;
        }
        i := i + 1;
      }
      return Built(actors);
    }
  }
}
