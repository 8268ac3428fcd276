/**
 * TermiQuest: a dungeon crawl on a 40 x 20 grid of tiles. The map is
 * generated once (border walls, random walls, then treasures, traps and
 * enemies on free floor, then one exit in the bottom-right quadrant); the
 * player and the enemies then move over it, and stepping on a tile consumes it.
 *
 * Every `random.randint`/`random.shuffle` result is a parameter here, with
 * the range the program draws it from.
 */
module TermiQuest {
  import opened Util

  const MapWidth: int := 40
  const MapHeight: int := 20

  const Wall: char := '#'
  const Floor: char := '.'
  const Treasure: char := 'T'
  const Trap: char := 'X'
  const EnemyChar: char := 'E'
  const ExitTile: char := 'O'

  /** A cell, `game_map[y][x]`. */
  datatype Pos = Pos(x: int, y: int)

  predicate InGrid(p: Pos) {
    0 <= p.x < MapWidth && 0 <= p.y < MapHeight
  }

  /** Off the border: what `randint(1, MAP_WIDTH - 2)`, `randint(1, MAP_HEIGHT - 2)` draws. */
  predicate Interior(p: Pos) {
    0 < p.x < MapWidth - 1 && 0 < p.y < MapHeight - 1
  }

  /** What the exit draw `randint(MAP_WIDTH//2, MAP_WIDTH - 2)`, `randint(MAP_HEIGHT//2, MAP_HEIGHT - 2)` gives. */
  predicate InExitQuadrant(p: Pos) {
    MapWidth / 2 <= p.x <= MapWidth - 2 && MapHeight / 2 <= p.y <= MapHeight - 2
  }

  /** The draws of one `generate_map`: 100 wall cells, 10 treasure, 8 trap and
      6 enemy attempts, and the exit attempts in the order they are drawn. */
  datatype MapDraws = MapDraws(walls: seq<Pos>, treasures: seq<Pos>, traps: seq<Pos>, enemies: seq<Pos>, exits: seq<Pos>)

  predicate DrawsOk(d: MapDraws) {
    |d.walls| == 100 && |d.treasures| == 10 && |d.traps| == 8 && |d.enemies| == 6
    && (forall p :: p in d.walls ==> Interior(p))
    && (forall p :: p in d.treasures ==> Interior(p))
    && (forall p :: p in d.traps ==> Interior(p))
    && (forall p :: p in d.enemies ==> Interior(p))
    && (forall p :: p in d.exits ==> InExitQuadrant(p))
  }

  // ---------------------------------------------------------------- the generated map, cell by cell

  /** The tile at `p` once the borders and the random walls are built. */
  function Walled(d: MapDraws, p: Pos): char {
    if !Interior(p) || p in d.walls then Wall else Floor
  }

  /** `tile` goes on a cell only if that cell is still floor. */
  function OnFloor(before: char, drawn: bool, tile: char): char {
    if before == Floor && drawn then tile else before
  }

  /** The tile at `p` once treasures, traps and enemies are placed: the first
      feature drawn on a free cell takes it. */
  function Featured(d: MapDraws, p: Pos): char {
    OnFloor(OnFloor(OnFloor(Walled(d, p), p in d.treasures, Treasure), p in d.traps, Trap), p in d.enemies, EnemyChar)
  }

  /** The cell the exit loop settles on: the first attempt that is still floor.
      None when no attempt in `cs` is (the program would go on drawing). */
  function FirstFloor(d: MapDraws, cs: seq<Pos>): (r: Option<Pos>)
    ensures r.Some? ==> r.value in cs && Featured(d, r.value) == Floor
    ensures r.None? <==> forall k :: 0 <= k < |cs| ==> Featured(d, cs[k]) != Floor
    decreases |cs|
  {
    if cs == [] then None
    else if Featured(d, cs[0]) == Floor then Some(cs[0])
    else FirstFloor(d, cs[1..])
  }

  /** The tile at `p` in the map `generate_map` returns. */
  function Generated(d: MapDraws, p: Pos): char {
    if FirstFloor(d, d.exits) == Some(p) then ExitTile else Featured(d, p)
  }

  /** The border of the generated map is all wall, and every drawn wall stands. */
  lemma GeneratedWalls(d: MapDraws, p: Pos)
    requires DrawsOk(d)
    ensures !Interior(p) ==> Generated(d, p) == Wall
    ensures p in d.walls ==> Generated(d, p) == Wall
  {
  }

  /** Every feature sits on a cell that was floor when it was placed: inside the
      border, not a drawn wall, and not taken by a feature placed before it. */
  lemma {:induction false} FeaturesOnFloor(d: MapDraws, p: Pos)
    requires DrawsOk(d)
    ensures Generated(d, p) in {Wall, Floor, Treasure, Trap, EnemyChar, ExitTile}
    ensures Generated(d, p) != Wall ==> Interior(p) && p !in d.walls
    ensures Generated(d, p) == Treasure ==> p in d.treasures
    ensures Generated(d, p) == Trap ==> p in d.traps && p !in d.treasures
    ensures Generated(d, p) == EnemyChar ==> p in d.enemies && p !in d.treasures && p !in d.traps
    ensures Generated(d, p) == Floor ==>
      p !in d.treasures && p !in d.traps && p !in d.enemies
  {
    var e := FirstFloor(d, d.exits);
    if e == Some(p) {
      assert Featured(d, p) == Floor;
    }
  }

  /** Exactly one exit: there is one when some attempt hit free floor, it is
      that attempt's cell, it lies in the bottom-right quadrant, and no other
      cell is an exit. */
  lemma ExactlyOneExit(d: MapDraws, p: Pos, q: Pos)
    requires DrawsOk(d)
    ensures Generated(d, p) == ExitTile <==> FirstFloor(d, d.exits) == Some(p)
    ensures Generated(d, p) == ExitTile ==> InExitQuadrant(p) && Featured(d, p) == Floor
    ensures Generated(d, p) == ExitTile && Generated(d, q) == ExitTile ==> p == q
  {
    if FirstFloor(d, d.exits) != Some(p) {
      assert Featured(d, p) != ExitTile;
    }
    if FirstFloor(d, d.exits) != Some(q) {
      assert Featured(d, q) != ExitTile;
    }
  }

  // ---------------------------------------------------------------- generate_map

  /** The grid has the size of the game. */
  predicate Sized(m: array2<char>) {
    m.Length0 == MapHeight && m.Length1 == MapWidth
  }

  predicate IsAt(m: array2<char>, p: Pos, tile: char)
    requires Sized(m) && InGrid(p)
    reads m
  {
    m[p.y, p.x] == tile
  }

  /** `generate_map`, returning the map and where the exit went. */
  method GenerateMap(d: MapDraws) returns (m: array2<char>, exitAt: Option<Pos>)
    requires DrawsOk(d)
    ensures fresh(m) && Sized(m)
    ensures forall y, x :: 0 <= y < MapHeight && 0 <= x < MapWidth ==> m[y, x] == Generated(d, Pos(x, y))
    ensures exitAt == FirstFloor(d, d.exits)
  {
    m := new char[MapHeight, MapWidth]((y, x) => Floor);
    BuildBorders(m);
    PlaceWalls(m, d.walls);
    assert forall y, x :: 0 <= y < MapHeight && 0 <= x < MapWidth ==> m[y, x] == Walled(d, Pos(x, y));
    PlaceOnFloor(m, d.treasures, Treasure);
    PlaceOnFloor(m, d.traps, Trap);
    PlaceOnFloor(m, d.enemies, EnemyChar);
    assert forall y, x :: 0 <= y < MapHeight && 0 <= x < MapWidth ==> m[y, x] == Featured(d, Pos(x, y));
    exitAt := PlaceExit(m, d.exits, d);
  }

  /** The two border loops, on an all-floor grid. */
  method BuildBorders(m: array2<char>)
    requires Sized(m)
    requires forall y, x :: 0 <= y < MapHeight && 0 <= x < MapWidth ==> m[y, x] == Floor
    modifies m
    ensures forall y, x :: 0 <= y < MapHeight && 0 <= x < MapWidth ==>
      m[y, x] == (if Interior(Pos(x, y)) then Floor else Wall)
  {
    for x := 0 to MapWidth
      invariant forall i, j :: 0 <= i < MapHeight && 0 <= j < MapWidth ==>
        m[i, j] == (if (i == 0 || i == MapHeight - 1) && j < x then Wall else Floor)
    {
      m[0, x] := Wall;
      m[MapHeight - 1, x] := Wall;
    }
    for y := 0 to MapHeight
      invariant forall i, j :: 0 <= i < MapHeight && 0 <= j < MapWidth ==>
        m[i, j] == (if i == 0 || i == MapHeight - 1 || ((j == 0 || j == MapWidth - 1) && i < y) then Wall else Floor)
    {
      m[y, 0] := Wall;
      m[y, MapWidth - 1] := Wall;
    }
  }

  /** The random walls: each drawn cell becomes wall, whatever it was. */
  method PlaceWalls(m: array2<char>, cells: seq<Pos>)
    requires Sized(m) && forall p :: p in cells ==> Interior(p)
    modifies m
    ensures forall y, x :: 0 <= y < MapHeight && 0 <= x < MapWidth ==>
      m[y, x] == (if Pos(x, y) in cells then Wall else old(m[y, x]))
  {
    for k := 0 to |cells|
      invariant forall y, x :: 0 <= y < MapHeight && 0 <= x < MapWidth ==>
        m[y, x] == (if Pos(x, y) in cells[..k] then Wall else old(m[y, x]))
    {
      var p := cells[k];
      assert p in cells && cells[..k + 1] == cells[..k] + [p];
      m[p.y, p.x] := Wall;
    }
  }

  /** One feature loop: a drawn cell takes `tile` only if it is floor at that moment. */
  method PlaceOnFloor(m: array2<char>, cells: seq<Pos>, tile: char)
    requires Sized(m) && tile != Floor && forall p :: p in cells ==> Interior(p)
    modifies m
    ensures forall y, x :: 0 <= y < MapHeight && 0 <= x < MapWidth ==>
      m[y, x] == OnFloor(old(m[y, x]), Pos(x, y) in cells, tile)
  {
    for k := 0 to |cells|
      invariant forall y, x :: 0 <= y < MapHeight && 0 <= x < MapWidth ==>
        m[y, x] == OnFloor(old(m[y, x]), Pos(x, y) in cells[..k], tile)
    {
      var p := cells[k];
      assert p in cells && cells[..k + 1] == cells[..k] + [p];
      if m[p.y, p.x] == Floor {
        m[p.y, p.x] := tile;
      }
    }
  }

  /** The exit loop over the drawn attempts: the first one on floor becomes the exit. */
  method PlaceExit(m: array2<char>, attempts: seq<Pos>, ghost d: MapDraws) returns (exitAt: Option<Pos>)
    requires Sized(m) && DrawsOk(d) && attempts == d.exits
    requires forall y, x :: 0 <= y < MapHeight && 0 <= x < MapWidth ==> m[y, x] == Featured(d, Pos(x, y))
    modifies m
    ensures exitAt == FirstFloor(d, d.exits)
    ensures forall y, x :: 0 <= y < MapHeight && 0 <= x < MapWidth ==> m[y, x] == Generated(d, Pos(x, y))
  {
    var pending := attempts;
    while pending != []
      invariant forall p :: p in pending ==> InExitQuadrant(p)
      invariant FirstFloor(d, pending) == FirstFloor(d, d.exits)
      invariant forall y, x :: 0 <= y < MapHeight && 0 <= x < MapWidth ==> m[y, x] == Featured(d, Pos(x, y))
      decreases |pending|
    {
      var p := pending[0];
      assert p in pending;
      if m[p.y, p.x] == Floor {
        m[p.y, p.x] := ExitTile;
        return Some(p);
      }
      pending := pending[1..];
    }
    return None;
  }

  // ---------------------------------------------------------------- the map while playing

  /** Every border cell is wall. */
  predicate Bordered(m: array2<char>)
    requires Sized(m)
    reads m
  {
    forall y, x :: 0 <= y < MapHeight && 0 <= x < MapWidth && !Interior(Pos(x, y)) ==> m[y, x] == Wall
  }

  /** No enemy tile is left on the map: enemies live in the enemy list. */
  predicate NoEnemyTiles(m: array2<char>)
    requires Sized(m)
    reads m
  {
    forall y, x :: 0 <= y < MapHeight && 0 <= x < MapWidth ==> m[y, x] != EnemyChar
  }

  function Plus(p: Pos, d: Pos): Pos {
    Pos(p.x + d.x, p.y + d.y)
  }

  /** One orthogonal step apart. */
  predicate Adjacent(p: Pos, q: Pos) {
    (p.x == q.x && (p.y - q.y == 1 || q.y - p.y == 1)) || (p.y == q.y && (p.x - q.x == 1 || q.x - p.x == 1))
  }

  // ---------------------------------------------------------------- the player

  /** The player may step onto a cell of the grid that is not wall. */
  predicate Open(m: array2<char>, p: Pos)
    requires Sized(m)
    reads m
  {
    InGrid(p) && m[p.y, p.x] != Wall
  }

  /** Where `Player.move(dx, dy)` leaves a player standing on `from`. */
  function Moved(m: array2<char>, from: Pos, d: Pos): (r: Pos)
    requires Sized(m)
    reads m
    ensures r == from || r == Plus(from, d)
    ensures r == Plus(from, d) <== Open(m, Plus(from, d))
    ensures r != from ==> Open(m, r)
  {
    if Open(m, Plus(from, d)) then Plus(from, d) else from
  }

  /** A player inside the grid stays inside it; one who stands on open floor of
      a walled map stays off the border. */
  lemma MovedStaysInside(m: array2<char>, from: Pos, d: Pos)
    requires Sized(m) && InGrid(from)
    ensures InGrid(Moved(m, from, d))
    ensures Bordered(m) && Open(m, from) ==> Open(m, Moved(m, from, d)) && Interior(Moved(m, from, d))
  {
  }

  /** The player's hit points and gold. */
  datatype Vitals = Vitals(hp: int, gold: int)

  class Player {
    var x: int
    var y: int
    var hp: int
    var gold: int
    var inventory: map<string, int>

    function At(): Pos
      reads this
    {
      Pos(x, y)
    }

    /** The hp and gold of the status line. */
    function Status(): Vitals
      reads this
    {
      Vitals(hp, gold)
    }

    constructor(x: int, y: int)
      ensures At() == Pos(x, y) && hp == 100 && gold == 0 && inventory == map["potion" := 2]
    {
      this.x := x;
      this.y := y;
      hp := 100;
      gold := 0;
      inventory := map["potion" := 2];
    }

    /** `Player.move`. */
    method Move(dx: int, dy: int, m: array2<char>)
      requires Sized(m)
      modifies this
      ensures At() == Moved(m, old(At()), Pos(dx, dy))
      ensures hp == old(hp) && gold == old(gold) && inventory == old(inventory)
    {
      var newX := x + dx;
      var newY := y + dy;
      if 0 <= newX < MapWidth && 0 <= newY < MapHeight {
        if m[newY, newX] != Wall {
          x := newX;
          y := newY;
        }
      }
    }
  }

  // ---------------------------------------------------------------- the enemies

  /** The four directions `move_random` shuffles. */
  const Directions: seq<Pos> := [Pos(0, 1), Pos(0, -1), Pos(1, 0), Pos(-1, 0)]

  /** A result of `random.shuffle(dirs)`. */
  predicate Shuffled(dirs: seq<Pos>) {
    multiset(dirs) == multiset(Directions)
  }

  /** An enemy may only walk onto floor off the border. */
  predicate Roomy(m: array2<char>, p: Pos)
    requires Sized(m)
    reads m
  {
    Interior(p) && m[p.y, p.x] == Floor
  }

  /** The first direction, in the shuffled order, that leads to such a cell. */
  function FirstRoomy(m: array2<char>, from: Pos, dirs: seq<Pos>): (r: Option<Pos>)
    requires Sized(m)
    reads m
    ensures r.Some? ==> Roomy(m, r.value) && exists k :: 0 <= k < |dirs| && r.value == Plus(from, dirs[k])
    ensures r.None? <==> forall k :: 0 <= k < |dirs| ==> !Roomy(m, Plus(from, dirs[k]))
    decreases |dirs|
  {
    if dirs == [] then None
    else if Roomy(m, Plus(from, dirs[0])) then Some(Plus(from, dirs[0]))
    else FirstRoomy(m, from, dirs[1..])
  }

  /** Where `Enemy.move_random` leaves an enemy standing on `from`. */
  function Wander(m: array2<char>, from: Pos, dirs: seq<Pos>): Pos
    requires Sized(m)
    reads m
  {
    match FirstRoomy(m, from, dirs)
    case Some(p) => p
    case None => from
  }

  /** An enemy moves one orthogonal step onto floor off the border, or stays
      put exactly when none of its four neighbours is such a cell. */
  lemma WanderOneStep(m: array2<char>, from: Pos, dirs: seq<Pos>)
    requires Sized(m) && Shuffled(dirs)
    ensures Wander(m, from, dirs) == from <==> forall d :: d in Directions ==> !Roomy(m, Plus(from, d))
    ensures Wander(m, from, dirs) != from ==> Adjacent(from, Wander(m, from, dirs)) && Roomy(m, Wander(m, from, dirs))
  {
    forall d | d in Directions
      ensures d in dirs
    {
      assert multiset(Directions)[d] > 0;
    }
    forall d | d in dirs
      ensures d in Directions
    {
      assert multiset(dirs)[d] > 0;
    }
    var r := FirstRoomy(m, from, dirs);
    if r.Some? {
      var k :| 0 <= k < |dirs| && r.value == Plus(from, dirs[k]);
      assert dirs[k] in dirs;
    } else {
      forall d | d in Directions
        ensures !Roomy(m, Plus(from, d))
      {
        var k :| 0 <= k < |dirs| && dirs[k] == d;
      }
    }
  }

  class Enemy {
    var x: int
    var y: int
    var hp: int

    function At(): Pos
      reads this
    {
      Pos(x, y)
    }

    /** `Enemy(x, y)`, with `hp` standing for `random.randint(20, 40)`. */
    constructor(x: int, y: int, hp: int)
      requires 20 <= hp <= 40
      ensures At() == Pos(x, y) && this.hp == hp
    {
      this.x := x;
      this.y := y;
      this.hp := hp;
    }

    /** `Enemy.move_random`, with `dirs` the shuffled directions. */
    method MoveRandom(m: array2<char>, dirs: seq<Pos>)
      requires Sized(m)
      modifies this
      ensures At() == Wander(m, old(At()), dirs) && hp == old(hp)
    {
      var pending := dirs;
      while pending != []
        invariant At() == old(At()) && hp == old(hp)
        invariant FirstRoomy(m, At(), pending) == FirstRoomy(m, At(), dirs)
        decreases |pending|
      {
        var newX := x + pending[0].x;
        var newY := y + pending[0].y;
        if 0 < newX < MapWidth - 1 && 0 < newY < MapHeight - 1 {
          if m[newY, newX] == Floor {
            x := newX;
            y := newY;
            return;
          }
        }
        pending := pending[1..];
      }
    }
  }

  // ---------------------------------------------------------------- enemies from the map

  /** The grid's rows, as values. */
  function Snapshot(m: array2<char>): (g: seq<seq<char>>)
    requires Sized(m)
    reads m
    ensures |g| == MapHeight && forall y :: 0 <= y < MapHeight ==> |g[y]| == MapWidth
    ensures forall y, x :: 0 <= y < MapHeight && 0 <= x < MapWidth ==> g[y][x] == m[y, x]
  {
    seq(MapHeight, y requires 0 <= y < MapHeight reads m => seq(MapWidth, x requires 0 <= x < MapWidth reads m => m[y, x]))
  }

  /** The enemy cells among the first `n` cells of row `y`, left to right. */
  function RowEnemies(row: seq<char>, y: int, n: nat): (r: seq<Pos>)
    requires n <= |row|
    ensures |r| <= n
  {
    if n == 0 then []
    else RowEnemies(row, y, n - 1) + (if row[n - 1] == EnemyChar then [Pos(n - 1, y)] else [])
  }

  /** The enemy cells of the first `n` rows, row by row: the scan order of `main`. */
  function GridEnemies(g: seq<seq<char>>, n: nat): (r: seq<Pos>)
    requires n <= |g| && forall y :: 0 <= y < |g| ==> |g[y]| == MapWidth
    ensures |r| <= n * MapWidth
  {
    if n == 0 then [] else GridEnemies(g, n - 1) + RowEnemies(g[n - 1], n - 1, MapWidth)
  }

  lemma {:induction false} RowEnemiesExact(row: seq<char>, y: int, n: nat)
    requires n <= |row|
    ensures forall p :: p in RowEnemies(row, y, n) <==> p.y == y && 0 <= p.x < n && row[p.x] == EnemyChar
  {
    if n > 0 {
      RowEnemiesExact(row, y, n - 1);
    }
  }

  /** The scan finds exactly the enemy tiles of the grid. */
  lemma {:induction false} GridEnemiesExact(g: seq<seq<char>>, n: nat)
    requires n <= |g| && forall y :: 0 <= y < |g| ==> |g[y]| == MapWidth
    ensures forall p :: p in GridEnemies(g, n) <==> 0 <= p.y < n && 0 <= p.x < MapWidth && g[p.y][p.x] == EnemyChar
  {
    if n > 0 {
      GridEnemiesExact(g, n - 1);
      RowEnemiesExact(g[n - 1], n - 1, MapWidth);
    }
  }

  /** Where the enemies of a list stand, in list order. */
  function Positions(es: seq<Enemy>): (r: seq<Pos>)
    reads es
    ensures |r| == |es| && forall k :: 0 <= k < |es| ==> r[k] == es[k].At()
  {
    if es == [] then [] else [es[0].At()] + Positions(es[1..])
  }

  /** The generated map as values. */
  function GenGrid(d: MapDraws): (g: seq<seq<char>>)
    ensures |g| == MapHeight && forall y :: 0 <= y < MapHeight ==> |g[y]| == MapWidth
    ensures forall y, x :: 0 <= y < MapHeight && 0 <= x < MapWidth ==> g[y][x] == Generated(d, Pos(x, y))
  {
    seq(MapHeight, y requires 0 <= y < MapHeight => seq(MapWidth, x requires 0 <= x < MapWidth => Generated(d, Pos(x, y))))
  }

  lemma SnapshotIs(m: array2<char>, d: MapDraws)
    requires Sized(m)
    requires forall y, x :: 0 <= y < MapHeight && 0 <= x < MapWidth ==> m[y, x] == Generated(d, Pos(x, y))
    ensures Snapshot(m) == GenGrid(d)
  {
    var g, h := Snapshot(m), GenGrid(d);
    forall y | 0 <= y < MapHeight
      ensures g[y] == h[y]
    {
    }
  }

  /** The enemies scanned from a generated map stand off the border, one on each enemy tile. */
  lemma GeneratedEnemies(d: MapDraws)
    requires DrawsOk(d)
    ensures forall p :: p in GridEnemies(GenGrid(d), MapHeight) <==> InGrid(p) && Generated(d, p) == EnemyChar
    ensures forall p :: p in GridEnemies(GenGrid(d), MapHeight) ==> Interior(p)
  {
    GridEnemiesExact(GenGrid(d), MapHeight);
    forall p | InGrid(p) && Generated(d, p) == EnemyChar
      ensures Interior(p)
    {
      FeaturesOnFloor(d, p);
    }
  }

  /** An enemy tile turns back to floor once its enemy is in the list. */
  function Cleared(tile: char): char {
    if tile == EnemyChar then Floor else tile
  }

  /** No enemy is listed twice. */
  predicate Distinct(es: seq<Enemy>) {
    forall i :: 0 <= i < |es| ==> es[i] !in es[..i]
  }

  lemma DistinctOthers(es: seq<Enemy>, k: nat)
    requires Distinct(es) && k < |es|
    ensures forall j :: 0 <= j < |es| && j != k ==> es[j] != es[k]
  {
    forall j | 0 <= j < |es| && j != k
      ensures es[j] != es[k]
    {
      if j < k {
        assert es[j] == es[..k][j];
      } else {
        assert es[k] == es[..j][k];
      }
    }
  }

  lemma DistinctAppend(a: seq<Enemy>, b: seq<Enemy>)
    requires Distinct(a) && Distinct(b)
    requires forall e :: e in b ==> e !in a
    ensures Distinct(a + b)
  {
    forall i | 0 <= i < |a + b|
      ensures (a + b)[i] !in (a + b)[..i]
    {
      if i < |a| {
        assert (a + b)[..i] == a[..i];
      } else {
        assert (a + b)[..i] == a + b[..i - |a|];
      }
    }
  }

  /** `es` are the enemies at `ps`, in order, with the hit points `hps`. */
  predicate Listed(es: seq<Enemy>, ps: seq<Pos>, hps: seq<int>)
    reads es
  {
    |es| == |ps| <= |hps| && forall k :: 0 <= k < |es| ==> es[k].At() == ps[k] && es[k].hp == hps[k]
  }

  lemma ListedAppend(a: seq<Enemy>, b: seq<Enemy>, ps: seq<Pos>, qs: seq<Pos>, hps: seq<int>)
    requires Listed(a, ps, hps) && Listed(b, qs, hps[|a|..])
    ensures Listed(a + b, ps + qs, hps)
  {
    forall k | |a| <= k < |a + b|
      ensures (a + b)[k].hp == hps[k]
    {
      assert hps[|a|..][k - |a|] == hps[k];
    }
  }

  /** The scan in `main`: one enemy per enemy tile, in scan order, with its
      tile turned back to floor; `hps` stands for the enemies' `randint(20, 40)`. */
  method CollectEnemies(m: array2<char>, hps: seq<int>) returns (enemies: seq<Enemy>)
    requires Sized(m) && |hps| >= MapWidth * MapHeight
    requires forall k :: 0 <= k < |hps| ==> 20 <= hps[k] <= 40
    modifies m
    ensures forall y, x :: 0 <= y < MapHeight && 0 <= x < MapWidth ==>
      m[y, x] == (if old(m[y, x]) == EnemyChar then Floor else old(m[y, x]))
    ensures Listed(enemies, GridEnemies(old(Snapshot(m)), MapHeight), hps)
    ensures forall e :: e in enemies ==> fresh(e)
    ensures Distinct(enemies)
  {
    ghost var g := Snapshot(m);
    enemies := [];
    for y := 0 to MapHeight
      invariant forall i, j :: 0 <= i < MapHeight && 0 <= j < MapWidth ==>
        m[i, j] == (if i < y && g[i][j] == EnemyChar then Floor else g[i][j])
      invariant Listed(enemies, GridEnemies(g, y), hps)
      invariant forall e :: e in enemies ==> fresh(e)
      invariant Distinct(enemies)
    {
      var found := ScanRow(m, y, hps[|enemies|..], g);
      ListedAppend(enemies, found, GridEnemies(g, y), RowEnemies(g[y], y, MapWidth), hps);
      DistinctAppend(enemies, found);
      enemies := enemies + found;
    }
  }

  /** The inner loop of the scan, over row `y`. */
  method ScanRow(m: array2<char>, y: int, hps: seq<int>, ghost g: seq<seq<char>>) returns (found: seq<Enemy>)
    requires Sized(m) && 0 <= y < MapHeight && |hps| >= MapWidth
    requires forall k :: 0 <= k < |hps| ==> 20 <= hps[k] <= 40
    requires |g| == MapHeight && |g[y]| == MapWidth
    requires forall x :: 0 <= x < MapWidth ==> m[y, x] == g[y][x]
    modifies m
    ensures forall i, j :: 0 <= i < MapHeight && 0 <= j < MapWidth ==>
      m[i, j] == (if i == y && old(m[i, j]) == EnemyChar then Floor else old(m[i, j]))
    ensures Listed(found, RowEnemies(g[y], y, MapWidth), hps)
    ensures forall e :: e in found ==> fresh(e)
    ensures Distinct(found)
  {
    found := [];
    for x := 0 to MapWidth
      invariant forall i, j :: 0 <= i < MapHeight && 0 <= j < MapWidth ==>
        m[i, j] == (if i == y && j < x && old(m[i, j]) == EnemyChar then Floor else old(m[i, j]))
      invariant Listed(found, RowEnemies(g[y], y, x), hps)
      invariant forall e :: e in found ==> fresh(e)
      invariant Distinct(found)
    {
      if m[y, x] == EnemyChar {
        var e := new Enemy(x, y, hps[|found|]);
        found := found + [e];
        m[y, x] := Floor;
      }
    }
  }

  // ---------------------------------------------------------------- battle

  /** One round's draws: the player's hit, `randint(10, 20)`, and the enemy's
      answer, `randint(5, 15)`. */
  datatype Round = Round(hit: int, counter: int)

  predicate RoundsOk(rounds: seq<Round>) {
    forall k :: 0 <= k < |rounds| ==> 10 <= rounds[k].hit <= 20 && 5 <= rounds[k].counter <= 15
  }

  datatype Fighters = Fighters(enemyHp: int, playerHp: int)

  /** The loop of `battle`. Each hit takes at least 10 from the enemy, so
      `enemyHp / 10` rounds, rounded up, always end it; the model stops
      early only when it runs out of drawn rounds before that. */
  function Fight(f: Fighters, rounds: seq<Round>): (r: Fighters)
    ensures RoundsOk(rounds) && f.enemyHp <= 10 * |rounds| ==> r.enemyHp <= 0 || r.playerHp <= 0
    ensures RoundsOk(rounds) ==> r.enemyHp <= f.enemyHp && r.playerHp <= f.playerHp
    decreases |rounds|
  {
    if f.enemyHp <= 0 || f.playerHp <= 0 || rounds == [] then f
    else
      var e := f.enemyHp - rounds[0].hit;
      if e <= 0 then Fighters(e, f.playerHp)
      else Fight(Fighters(e, f.playerHp - rounds[0].counter), rounds[1..])
  }

  /** The enemy answers only hits it survives, at most `(enemyHp - 1) / 10`
      of them, for at most 15 each: a player above 45 hp beats any fresh enemy. */
  lemma {:induction false} FightDamageBound(f: Fighters, rounds: seq<Round>)
    requires RoundsOk(rounds) && 0 < f.enemyHp <= 10 * |rounds|
    ensures Fight(f, rounds).playerHp >= f.playerHp - 15 * ((f.enemyHp - 1) / 10)
    decreases |rounds|
  {
    if f.playerHp > 0 {
      var e := f.enemyHp - rounds[0].hit;
      if e > 0 {
        var g := Fighters(e, f.playerHp - rounds[0].counter);
        FightDamageBound(g, rounds[1..]);
        assert (e - 1) / 10 <= (f.enemyHp - 1) / 10 - 1;
      }
    }
  }

  lemma StrongPlayerWins(f: Fighters, rounds: seq<Round>)
    requires RoundsOk(rounds) && 0 < f.enemyHp <= 40 && |rounds| >= 4 && f.playerHp > 45
    ensures Fight(f, rounds).playerHp > 0 && Fight(f, rounds).enemyHp <= 0
  {
    FightDamageBound(f, rounds);
  }

  /** The player's hp and gold after `battle` against an enemy with
      `enemyHp`: the fight's outcome, and the reward only for a survivor. */
  function Battled(enemyHp: int, s: Vitals, rounds: seq<Round>, reward: int): Vitals
  {
    var f := Fight(Fighters(enemyHp, s.hp), rounds);
    Vitals(f.playerHp, s.gold + (if f.playerHp > 0 then reward else 0))
  }

  /** `battle`: fight to the end, then collect `reward`, standing for
      `randint(20, 40)`, if the player is still standing. */
  method Battle(player: Player, enemy: Enemy, rounds: seq<Round>, reward: int) returns (won: bool)
    requires RoundsOk(rounds) && enemy.hp <= 10 * |rounds| && 20 <= reward <= 40
    modifies player, enemy
    ensures Fighters(enemy.hp, player.hp) == Fight(old(Fighters(enemy.hp, player.hp)), rounds)
    ensures won <==> player.hp > 0
    ensures player.gold == old(player.gold) + (if won then reward else 0)
    ensures player.At() == old(player.At()) && player.inventory == old(player.inventory)
    ensures enemy.At() == old(enemy.At())
  {
    var pending := rounds;
    while enemy.hp > 0 && player.hp > 0
      invariant RoundsOk(pending) && enemy.hp <= 10 * |pending|
      invariant Fight(Fighters(enemy.hp, player.hp), pending) == Fight(old(Fighters(enemy.hp, player.hp)), rounds)
      invariant player.gold == old(player.gold) && player.At() == old(player.At())
      invariant player.inventory == old(player.inventory) && enemy.At() == old(enemy.At())
      decreases |pending|
    {
      enemy.hp := enemy.hp - pending[0].hit;
      if enemy.hp <= 0 {
        break;
      }
      player.hp := player.hp - pending[0].counter;
      pending := pending[1..];
    }
    won := player.hp > 0;
    if won {
      player.gold := player.gold + reward;
    }
  }

  // ---------------------------------------------------------------- the game loop

  /** The first enemy of the list standing on `p`: the one `main` fights. */
  function FirstAt(ps: seq<Pos>, p: Pos): (r: Option<nat>)
    ensures r.Some? ==> r.value < |ps| && ps[r.value] == p && forall j :: 0 <= j < r.value ==> ps[j] != p
    ensures r.None? <==> p !in ps
  {
    if ps == [] then None
    else if ps[0] == p then Some(0)
    else match FirstAt(ps[1..], p)
      case None => None
      case Some(k) => Some(k + 1)
  }

  lemma FirstAtIs(ps: seq<Pos>, p: Pos, k: nat)
    requires k < |ps| && ps[k] == p && forall j :: 0 <= j < k ==> ps[j] != p
    ensures FirstAt(ps, p) == Some(k)
  {
  }

  /** Removing one entry keeps the others, and still lists none twice. */
  lemma RemoveAt(es: seq<Enemy>, k: nat)
    requires k < |es| && Distinct(es)
    ensures Distinct(es[..k] + es[k + 1..])
    ensures forall e :: e in es[..k] + es[k + 1..] ==> e in es && e != es[k]
  {
    var r := es[..k] + es[k + 1..];
    assert forall i :: 0 <= i < |r| ==> r[i] == es[if i < k then i else i + 1];
    forall i | 0 <= i < |r|
      ensures r[i] !in r[..i]
    {
      var ii := if i < k then i else i + 1;
      DistinctOthers(es, ii);
      forall j | 0 <= j < i
        ensures r[..i][j] != r[i]
      {
        assert r[j] == es[if j < k then j else j + 1];
      }
    }
    forall e | e in r
      ensures e in es && e != es[k]
    {
      var i :| 0 <= i < |r| && r[i] == e;
      DistinctOthers(es, k);
      assert es[if i < k then i else i + 1] == e;
    }
  }

  /** Removing the `k`th enemy from a list removes its position from the
      positions of the list. */
  lemma PositionsDrop(es: seq<Enemy>, k: nat)
    requires k < |es|
    ensures Positions(es[..k] + es[k + 1..]) == Drop(Positions(es), Some(k))
  {
    var rest := es[..k] + es[k + 1..];
    var qs, dp := Positions(rest), Drop(Positions(es), Some(k));
    forall j | 0 <= j < |rest|
      ensures qs[j] == dp[j]
    {
      assert rest[j] == es[if j < k then j else j + 1];
    }
  }

  /** The same for the hit points. */
  lemma HpsDrop(es: seq<Enemy>, k: nat)
    requires k < |es|
    ensures Hps(es[..k] + es[k + 1..]) == Drop(Hps(es), Some(k))
  {
    var rest := es[..k] + es[k + 1..];
    var gs, dh := Hps(rest), Drop(Hps(es), Some(k));
    forall j | 0 <= j < |rest|
      ensures gs[j] == dh[j]
    {
      assert rest[j] == es[if j < k then j else j + 1];
    }
  }

  /** Enemies none of which changed stand where they stood and have the hit
      points they had. */
  twostate lemma {:induction false} ListUnchanged(es: seq<Enemy>)
    requires forall j :: 0 <= j < |es| ==> unchanged(es[j])
    ensures Positions(es) == old(Positions(es)) && Hps(es) == old(Hps(es))
  {
    if es != [] {
      ListUnchanged(es[1..]);
    }
  }

  /** What the setup of `main` leaves: a walled map with no enemy tile, and
      one enemy on each enemy tile of the generated map. */
  lemma SetupFacts(m: array2<char>, d: MapDraws, es: seq<Enemy>, hps: seq<int>)
    requires Sized(m) && DrawsOk(d)
    requires forall y, x :: 0 <= y < MapHeight && 0 <= x < MapWidth ==> m[y, x] == Cleared(Generated(d, Pos(x, y)))
    requires Listed(es, GridEnemies(GenGrid(d), MapHeight), hps)
    requires forall k :: 0 <= k < |hps| ==> 20 <= hps[k] <= 40
    ensures Bordered(m) && NoEnemyTiles(m)
    ensures forall e :: e in es ==> Interior(e.At()) && 20 <= e.hp <= 40
    ensures forall p :: InGrid(p) ==> (Generated(d, p) == EnemyChar <==> p in Positions(es))
  {
    GeneratedEnemies(d);
    var scanned := GridEnemies(GenGrid(d), MapHeight);
    assert Positions(es) == scanned;
    forall e | e in es
      ensures Interior(e.At()) && 20 <= e.hp <= 40
    {
      var k :| 0 <= k < |es| && es[k] == e;
      assert scanned[k] in scanned;
      assert e.hp == hps[k];
    }
    forall y, x | 0 <= y < MapHeight && 0 <= x < MapWidth && !Interior(Pos(x, y))
      ensures m[y, x] == Wall
    {
      GeneratedWalls(d, Pos(x, y));
    }
  }

  /** The map and the enemies `main` starts with. */
  method Setup(d: MapDraws, hps: seq<int>) returns (m: array2<char>, enemies: seq<Enemy>)
    requires DrawsOk(d) && |hps| >= MapWidth * MapHeight
    requires forall k :: 0 <= k < |hps| ==> 20 <= hps[k] <= 40
    ensures fresh(m) && Sized(m) && Bordered(m) && NoEnemyTiles(m) && Distinct(enemies)
    ensures forall e :: e in enemies ==> Interior(e.At()) && 20 <= e.hp <= 40
    ensures forall y, x :: 0 <= y < MapHeight && 0 <= x < MapWidth ==> m[y, x] == Cleared(Generated(d, Pos(x, y)))
    ensures forall p :: InGrid(p) ==> (Generated(d, p) == EnemyChar <==> p in Positions(enemies))
  {
    var exitAt;
    m, exitAt := GenerateMap(d);
    SnapshotIs(m, d);
    enemies := CollectEnemies(m, hps);
    SetupFacts(m, d, enemies, hps);
  }

  datatype Key = Up | Down | LeftKey | RightKey | QuitKey | OtherKey

  function KeyStep(k: Key): Pos {
    match k
    case Up => Pos(0, -1)
    case Down => Pos(0, 1)
    case LeftKey => Pos(-1, 0)
    case RightKey => Pos(1, 0)
    case _ => Pos(0, 0)
  }

  /** The draws of one turn of the loop: the key pressed, each enemy's shuffled
      directions, a treasure's gold, a trap's damage, and the battle's rounds and reward. */
  datatype Turn = Turn(key: Key, shuffles: seq<seq<Pos>>, gold: int, damage: int, rounds: seq<Round>, reward: int)

  predicate TurnOk(t: Turn, enemies: nat) {
    |t.shuffles| == enemies && (forall k :: 0 <= k < |t.shuffles| ==> Shuffled(t.shuffles[k]))
    && 10 <= t.gold <= 50 && 10 <= t.damage <= 30
    && RoundsOk(t.rounds) && |t.rounds| >= 4 && 20 <= t.reward <= 40
  }

  /** Where the enemies at `ps` move, each by its own shuffled directions. */
  function WanderAll(m: array2<char>, ps: seq<Pos>, shuffles: seq<seq<Pos>>): (r: seq<Pos>)
    requires Sized(m) && |shuffles| == |ps|
    reads m
    ensures |r| == |ps| && forall k :: 0 <= k < |ps| ==> r[k] == Wander(m, ps[k], shuffles[k])
  {
    if ps == [] then [] else [Wander(m, ps[0], shuffles[0])] + WanderAll(m, ps[1..], shuffles[1..])
  }

  /** `s` without its entry at `i`, if any: the list after `enemies.remove`. */
  function Drop<T>(s: seq<T>, i: Option<nat>): (r: seq<T>)
    requires i.Some? ==> i.value < |s|
    ensures i.None? ==> r == s
    ensures i.Some? ==> |r| == |s| - 1
  {
    if i.None? then s else s[..i.value] + s[i.value + 1..]
  }

  /** The hit points of a list of enemies, in list order. */
  function Hps(es: seq<Enemy>): (r: seq<int>)
    reads es
    ensures |r| == |es| && forall k :: 0 <= k < |es| ==> r[k] == es[k].hp
  {
    if es == [] then [] else [es[0].hp] + Hps(es[1..])
  }

  /** The enemy `main` fights once everyone has moved: the first one in the
      list standing on the player's cell `p`, unless the player has just
      reached the exit, which ends the game first. */
  function Fought(tile: char, ps: seq<Pos>, p: Pos): (r: Option<nat>)
    ensures r.Some? ==> r.value < |ps| && ps[r.value] == p && tile != ExitTile
    ensures r.None? <==> tile == ExitTile || p !in ps
  {
    if tile == ExitTile then None else FirstAt(ps, p)
  }

  /** The hp of the enemy at `i` in `hps`, if any. */
  function Foe(hps: seq<int>, i: Option<nat>): Option<int>
    requires i.Some? ==> i.value < |hps|
  {
    if i.None? then None else Some(hps[i.value])
  }

  /** The player's hp and gold at the end of a turn, from `s` after the
      moves: the tile under the player first (treasure, trap, or the exit,
      which ends everything), then the battle with the enemy of `foeHp`. */
  function Resolved(tile: char, s: Vitals, foeHp: Option<int>, t: Turn): Vitals
  {
    var afterTile := Vitals(s.hp - (if tile == Trap then t.damage else 0), s.gold + (if tile == Treasure then t.gold else 0));
    if tile == ExitTile || foeHp.None? then afterTile else Battled(foeHp.value, afterTile, t.rounds, t.reward)
  }

  /** Past a tile other than the exit, a turn's outcome is the battle, if
      any, fought from the vitals the tile left. */
  lemma ResolvedPastTile(tile: char, s: Vitals, after: Vitals, foeHp: Option<int>, t: Turn)
    requires tile != ExitTile
    requires after == Vitals(s.hp - (if tile == Trap then t.damage else 0), s.gold + (if tile == Treasure then t.gold else 0))
    ensures Resolved(tile, s, foeHp, t) == if foeHp.None? then after else Battled(foeHp.value, after, t.rounds, t.reward)
  {
  }

  /** A turn never heals the player nor takes gold away; the exit changes
      nothing, a turn without a battle only applies the tile, and a player
      above 45 hp after the tile beats the enemy and earns the reward. */
  lemma ResolvedBounds(tile: char, s: Vitals, foeHp: Option<int>, t: Turn)
    requires TurnOk(t, |t.shuffles|) && (foeHp.Some? ==> 0 < foeHp.value <= 40)
    ensures var r := Resolved(tile, s, foeHp, t);
      && r.hp <= s.hp && s.gold <= r.gold <= s.gold + 90
      && (tile == ExitTile ==> r == s)
      && (foeHp.None? ==> r.hp == s.hp - (if tile == Trap then t.damage else 0))
      && (foeHp.None? ==> r.gold == s.gold + (if tile == Treasure then t.gold else 0))
    ensures foeHp.Some? && tile != ExitTile && s.hp - (if tile == Trap then t.damage else 0) > 45 ==>
      Resolved(tile, s, foeHp, t) == Vitals(Resolved(tile, s, foeHp, t).hp, s.gold + (if tile == Treasure then t.gold else 0) + t.reward)
      && Resolved(tile, s, foeHp, t).hp > 0
  {
    if foeHp.Some? && tile != ExitTile {
      var hp := s.hp - (if tile == Trap then t.damage else 0);
      if hp > 45 {
        StrongPlayerWins(Fighters(foeHp.value, hp), t.rounds);
      }
    }
  }

  /** The state of `main`: the map, the player, the living enemies. */
  class Quest {
    const m: array2<char>
    const player: Player
    var enemies: seq<Enemy>
    var over: bool

    /** The map keeps its size, its walled border and no enemy tile; the
        player is on the grid; each enemy stands off the border with the hp it
        was given, and no enemy is listed twice. */
    predicate Valid()
      reads this, m, player, enemies
    {
      MapOk() && InGrid(player.At()) && EnemiesOk()
    }

    predicate MapOk()
      reads m
    {
      Sized(m) && Bordered(m) && NoEnemyTiles(m)
    }

    predicate EnemiesOk()
      reads this, enemies
    {
      Distinct(enemies) && forall e :: e in enemies ==> Interior(e.At()) && 20 <= e.hp <= 40
    }

    /** The setup of `main`: the map, the player at (1, 1), and the enemies
        collected from the map, whose tiles turn back to floor. */
    constructor(d: MapDraws, hps: seq<int>)
      requires DrawsOk(d) && |hps| >= MapWidth * MapHeight
      requires forall k :: 0 <= k < |hps| ==> 20 <= hps[k] <= 40
      ensures Valid() && !over && player.At() == Pos(1, 1) && player.hp == 100 && player.gold == 0
      ensures forall y, x :: 0 <= y < MapHeight && 0 <= x < MapWidth ==> m[y, x] == Cleared(Generated(d, Pos(x, y)))
      ensures forall p :: InGrid(p) ==> (Generated(d, p) == EnemyChar <==> p in Positions(enemies))
    {
      var grid, found := Setup(d, hps);
      var hero := new Player(1, 1);
      m := grid;
      player := hero;
      enemies := found;
      over := false;
    }

    /** The moves of the enemies, one after the other over the same map. */
    method MoveEnemies(shuffles: seq<seq<Pos>>)
      requires Valid() && |shuffles| == |enemies|
      modifies enemies
      ensures Valid()
      ensures forall k :: 0 <= k < |enemies| ==> enemies[k].At() == Wander(m, old(enemies[k].At()), shuffles[k])
      ensures forall k :: 0 <= k < |enemies| ==> enemies[k].hp == old(enemies[k].hp)
      ensures Positions(enemies) == old(WanderAll(m, Positions(enemies), shuffles)) && Hps(enemies) == old(Hps(enemies))
    {
      ghost var before := Positions(enemies);
      ghost var hps := Hps(enemies);
      ghost var wandered := WanderAll(m, Positions(enemies), shuffles);
      for k := 0 to |enemies|
        invariant MapOk() && Distinct(enemies) && MovedUpTo(k, before, hps, shuffles)
      {
        MoveOne(k, before, hps, shuffles);
      }
      MovedAll(before, hps, shuffles);
      assert Positions(enemies) == wandered;
    }

    /** Once every enemy has moved: the positions are the wandered ones,
        each hp is kept, and the list still stays off the border. */
    lemma MovedAll(before: seq<Pos>, hps: seq<int>, shuffles: seq<seq<Pos>>)
      requires Distinct(enemies) && MovedUpTo(|enemies|, before, hps, shuffles)
      ensures Positions(enemies) == WanderAll(m, before, shuffles) && Hps(enemies) == hps
      ensures EnemiesOk()
    {
      forall e | e in enemies
        ensures Interior(e.At()) && 20 <= e.hp <= 40
      {
        var j :| 0 <= j < |enemies| && enemies[j] == e;
      }
    }

    /** The first `k` enemies have made their move from `before`, the others
        have not moved yet; all stay off the border with the hp they had. */
    ghost predicate MovedUpTo(k: int, before: seq<Pos>, hps: seq<int>, shuffles: seq<seq<Pos>>)
      reads this, m, enemies
    {
      Sized(m) && |before| == |hps| == |shuffles| == |enemies| && 0 <= k <= |enemies|
      && (forall j :: 0 <= j < |enemies| ==>
            enemies[j].At() == if j < k then Wander(m, before[j], shuffles[j]) else before[j])
      && (forall j :: 0 <= j < |enemies| ==> enemies[j].hp == hps[j])
      && forall j :: 0 <= j < |enemies| ==> Interior(enemies[j].At()) && 20 <= enemies[j].hp <= 40
    }

    /** The move of the `k`th enemy. */
    method MoveOne(k: nat, ghost before: seq<Pos>, ghost hps: seq<int>, shuffles: seq<seq<Pos>>)
      requires MapOk() && Distinct(enemies) && MovedUpTo(k, before, hps, shuffles) && k < |enemies|
      modifies enemies[k]
      ensures MapOk() && Distinct(enemies) && MovedUpTo(k + 1, before, hps, shuffles)
    {
      var e := enemies[k];
      DistinctOthers(enemies, k);
      e.MoveRandom(m, shuffles[k]);
      if e.At() != before[k] {
        assert Roomy(m, e.At());
      }
    }

    /** The tile under the player: a treasure gives `gold`, a trap takes
        `damage`, and either turns back to floor; the exit ends the game. */
    method CheckTile(gold: int, damage: int) returns (escaped: bool)
      requires Valid()
      modifies m, player
      ensures Valid() && player.At() == old(player.At()) && player.inventory == old(player.inventory)
      ensures var p := player.At(); var tile := old(m[p.y, p.x]);
        && escaped == (tile == ExitTile)
        && player.gold == old(player.gold) + (if tile == Treasure then gold else 0)
        && player.hp == old(player.hp) - (if tile == Trap then damage else 0)
        && m[p.y, p.x] == (if tile == Treasure || tile == Trap then Floor else tile)
        && forall y, x :: 0 <= y < MapHeight && 0 <= x < MapWidth && Pos(x, y) != p ==> m[y, x] == old(m[y, x])
    {
      var tile := m[player.y, player.x];
      escaped := false;
      if tile == Treasure {
        player.gold := player.gold + gold;
        m[player.y, player.x] := Floor;
      } else if tile == Trap {
        player.hp := player.hp - damage;
        m[player.y, player.x] := Floor;
      } else if tile == ExitTile {
        escaped := true;
      }
    }

    /** The search of the battle check: the first enemy standing on `p`. */
    method FindAt(p: Pos) returns (r: Option<nat>)
      ensures r == FirstAt(Positions(enemies), p)
    {
      ghost var ps := Positions(enemies);
      var k := 0;
      while k < |enemies|
        invariant k <= |enemies| && forall j :: 0 <= j < k ==> ps[j] != p
      {
        assert ps[k] == Pos(enemies[k].x, enemies[k].y);
        if enemies[k].x == p.x && enemies[k].y == p.y {
          FirstAtIs(ps, p, k);
          return Some(k);
        }
        k := k + 1;
      }
      assert p !in ps;
      return None;
    }

    /** The battle check: the first enemy standing on the player is fought and
        then removed from the list. */
    method CheckBattle(rounds: seq<Round>, reward: int) returns (found: Option<nat>)
      requires Valid() && RoundsOk(rounds) && |rounds| >= 4 && 20 <= reward <= 40
      modifies this, player, enemies
      ensures Valid() && over == old(over)
      ensures player.At() == old(player.At()) && player.inventory == old(player.inventory)
      ensures found == FirstAt(old(Positions(enemies)), player.At())
      ensures found.Some? ==> found.value < old(|enemies|) && old(enemies[found.value].hp) <= 40
      ensures enemies == Drop(old(enemies), found)
      ensures Positions(enemies) == Drop(old(Positions(enemies)), found) && Hps(enemies) == Drop(old(Hps(enemies)), found)
      ensures player.Status() ==
        if found.None? then old(player.Status()) else Battled(old(enemies[found.value].hp), old(player.Status()), rounds, reward)
    {
      ghost var ps, hs, s0 := Positions(enemies), Hps(enemies), player.Status();
      label start:
      found := FindAt(player.At());
      ListUnchanged@start(enemies);
      if found.Some? {
        var k := found.value;
        assert enemies[k] in enemies;
        ghost var foeHp := enemies[k].hp;
        FightAndRemove(k, rounds, reward);
        assert Positions(enemies) == Drop(ps, found) && Hps(enemies) == Drop(hs, found);
        assert player.Status() == Battled(foeHp, s0, rounds, reward);
      }
    }

    /** The battle with the `k`th enemy, which then leaves the list. */
    method FightAndRemove(k: nat, rounds: seq<Round>, reward: int)
      requires Valid() && k < |enemies| && RoundsOk(rounds) && |rounds| >= 4 && 20 <= reward <= 40
      requires enemies[k].hp <= 40
      modifies this, player, enemies[k]
      ensures Valid() && over == old(over) && enemies == Drop(old(enemies), Some(k))
      ensures player.At() == old(player.At()) && player.inventory == old(player.inventory)
      ensures player.Status() == Battled(old(enemies[k].hp), old(player.Status()), rounds, reward)
      ensures Positions(enemies) == Drop(old(Positions(enemies)), Some(k)) && Hps(enemies) == Drop(old(Hps(enemies)), Some(k))
    {
      var fought := Remove(k);
      label removed:
      var _ := Battle(player, fought, rounds, reward);
      forall j | 0 <= j < |enemies|
        ensures unchanged@removed(enemies[j])
      {
        assert enemies[j] in enemies;
      }
      ListUnchanged@removed(enemies);
    }

    /** `enemies.remove`: the `k`th enemy leaves the list, the others keep their order. */
    method Remove(k: nat) returns (fought: Enemy)
      requires Valid() && k < |enemies|
      modifies this
      ensures Valid() && over == old(over) && fought == old(enemies[k]) && fought !in enemies
      ensures enemies == Drop(old(enemies), Some(k))
      ensures Positions(enemies) == Drop(old(Positions(enemies)), Some(k)) && Hps(enemies) == Drop(old(Hps(enemies)), Some(k))
    {
      fought := enemies[k];
      RemoveAt(enemies, k);
      var rest := enemies[..k] + enemies[k + 1..];
      PositionsDrop(enemies, k);
      HpsDrop(enemies, k);
      enemies := rest;
    }

    /** One turn of the `main` loop: `q` ends the game at once; any other
        key moves the player (the arrows) or not, then every enemy moves,
        and the tile and the battle are resolved where the player stands. */
    method Step(t: Turn) returns (fought: Option<nat>)
      requires Valid() && !over && TurnOk(t, |enemies|)
      modifies this, m, player, enemies
      ensures Valid()
      ensures t.key == QuitKey ==>
        && over && fought == None && enemies == old(enemies) && player.At() == old(player.At())
        && player.Status() == old(player.Status()) && Positions(enemies) == old(Positions(enemies))
        && forall y, x :: 0 <= y < MapHeight && 0 <= x < MapWidth ==> m[y, x] == old(m[y, x])
      ensures t.key != QuitKey ==> player.At() == old(Moved(m, player.At(), KeyStep(t.key)))
      ensures var p := player.At(); var tile := old(m[p.y, p.x]);
        t.key != QuitKey ==>
          && m[p.y, p.x] == (if tile == Treasure || tile == Trap then Floor else tile)
          && (forall y, x :: 0 <= y < MapHeight && 0 <= x < MapWidth && Pos(x, y) != p ==> m[y, x] == old(m[y, x]))
          && over == (tile == ExitTile || player.hp <= 0)
          && fought == Fought(tile, old(WanderAll(m, Positions(enemies), t.shuffles)), p)
      ensures fought.Some? ==> fought.value < old(|enemies|) && old(Hps(enemies))[fought.value] <= 40
      ensures t.key != QuitKey ==>
        && enemies == Drop(old(enemies), fought)
        && Positions(enemies) == Drop(old(WanderAll(m, Positions(enemies), t.shuffles)), fought)
        && Hps(enemies) == Drop(old(Hps(enemies)), fought)
      ensures var p := player.At(); t.key != QuitKey ==>
        player.Status() == Resolved(old(m[p.y, p.x]), old(player.Status()), Foe(old(Hps(enemies)), fought), t)
    {
      if t.key == QuitKey {
        over := true;
        return None;
      }
      fought := Advance(t);
    }

    /** A turn played with a key other than `q`: the moves, then what they lead to. */
    method Advance(t: Turn) returns (fought: Option<nat>)
      requires Valid() && TurnOk(t, |enemies|)
      modifies this, m, player, enemies
      ensures Valid() && player.At() == old(Moved(m, player.At(), KeyStep(t.key)))
      ensures var p := player.At(); var tile := old(m[p.y, p.x]);
        && m[p.y, p.x] == (if tile == Treasure || tile == Trap then Floor else tile)
        && (forall y, x :: 0 <= y < MapHeight && 0 <= x < MapWidth && Pos(x, y) != p ==> m[y, x] == old(m[y, x]))
        && over == (old(over) || tile == ExitTile || player.hp <= 0)
        && fought == Fought(tile, old(WanderAll(m, Positions(enemies), t.shuffles)), p)
      ensures fought.Some? ==> fought.value < old(|enemies|) && old(Hps(enemies))[fought.value] <= 40
      ensures enemies == Drop(old(enemies), fought)
      ensures Positions(enemies) == Drop(old(WanderAll(m, Positions(enemies), t.shuffles)), fought)
      ensures Hps(enemies) == Drop(old(Hps(enemies)), fought)
      ensures var p := player.At();
        player.Status() == Resolved(old(m[p.y, p.x]), old(player.Status()), Foe(old(Hps(enemies)), fought), t)
    {
      ghost var hs, s0 := Hps(enemies), player.Status();
      ghost var p := Moved(m, player.At(), KeyStep(t.key));
      ghost var tile := m[p.y, p.x];
      Moves(t);
      assert Hps(enemies) == hs && player.Status() == s0 && player.At() == p;
      assert m[p.y, p.x] == tile;
      label moved:
      fought := Resolve(t);
      assert player.y == p.y && player.x == p.x;
      assert old@moved(m[player.y, player.x]) == tile;
      assert player.Status() == Resolved(tile, s0, Foe(hs, fought), t);
    }

    /** The moves of a turn: the player's, by the key, then each enemy's. */
    method Moves(t: Turn)
      requires Valid() && TurnOk(t, |enemies|)
      modifies player, enemies
      ensures Valid() && player.At() == old(Moved(m, player.At(), KeyStep(t.key)))
      ensures Positions(enemies) == old(WanderAll(m, Positions(enemies), t.shuffles)) && Hps(enemies) == old(Hps(enemies))
      ensures player.Status() == old(player.Status()) && enemies == old(enemies) && over == old(over)
    {
      MovePlayer(t.key);
      MoveEnemies(t.shuffles);
    }

    /** The arrow keys. */
    method MovePlayer(key: Key)
      requires Valid()
      modifies player
      ensures Valid() && player.At() == Moved(m, old(player.At()), KeyStep(key))
      ensures player.Status() == old(player.Status())
      ensures Positions(enemies) == old(Positions(enemies)) && Hps(enemies) == old(Hps(enemies))
    {
      var d := KeyStep(key);
      player.Move(d.x, d.y, m);
      MovedStaysInside(m, old(player.At()), d);
      forall j | 0 <= j < |enemies|
        ensures unchanged(enemies[j])
      {
        assert enemies[j] in enemies;
      }
      ListUnchanged(enemies);
    }

    /** What follows the moves: the tile, the battle, the death check.
        `fought` tells which enemy of the list was fought, if any. */
    method Resolve(t: Turn) returns (fought: Option<nat>)
      requires Valid() && TurnOk(t, |enemies|)
      modifies this, m, player, enemies
      ensures Valid() && player.At() == old(player.At())
      ensures var p := player.At(); var tile := old(m[p.y, p.x]);
        && m[p.y, p.x] == (if tile == Treasure || tile == Trap then Floor else tile)
        && (forall y, x :: 0 <= y < MapHeight && 0 <= x < MapWidth && Pos(x, y) != p ==> m[y, x] == old(m[y, x]))
        && over == (old(over) || tile == ExitTile || player.hp <= 0)
        && fought == Fought(tile, old(Positions(enemies)), p)
      ensures fought.Some? ==> fought.value < old(|enemies|) && old(Hps(enemies))[fought.value] <= 40
      ensures enemies == Drop(old(enemies), fought)
      ensures Positions(enemies) == Drop(old(Positions(enemies)), fought) && Hps(enemies) == Drop(old(Hps(enemies)), fought)
      ensures player.Status() ==
        Resolved(old(m[player.y, player.x]), old(player.Status()), Foe(old(Hps(enemies)), fought), t)
    {
      ghost var ps, hs := Positions(enemies), Hps(enemies);
      ghost var tile, s0 := m[player.y, player.x], player.Status();
      label start:
      var escaped := CheckTile(t.gold, t.damage);
      ListUnchanged@start(enemies);
      assert Positions(enemies) == ps && Hps(enemies) == hs;
      ghost var s1 := player.Status();
      assert s1 == Vitals(s0.hp - (if tile == Trap then t.damage else 0), s0.gold + (if tile == Treasure then t.gold else 0));
      fought := Aftermath(escaped, t.rounds, t.reward);
      if !escaped {
        assert player.Status() == if fought.None? then s1 else Battled(hs[fought.value], s1, t.rounds, t.reward);
        ResolvedPastTile(tile, s0, s1, Foe(hs, fought), t);
      }
      assert player.Status() == Resolved(tile, s0, Foe(hs, fought), t);
      assert tile == old(m[player.y, player.x]);
    }

    /** The end of a turn once the tile is dealt with: the exit ends the game
        at once; otherwise the battle check, then the death check. */
    method Aftermath(escaped: bool, rounds: seq<Round>, reward: int) returns (found: Option<nat>)
      requires Valid() && RoundsOk(rounds) && |rounds| >= 4 && 20 <= reward <= 40
      modifies this, player, enemies
      ensures Valid() && over == (old(over) || escaped || player.hp <= 0)
      ensures player.At() == old(player.At()) && player.inventory == old(player.inventory)
      ensures found == if escaped then None else FirstAt(old(Positions(enemies)), player.At())
      ensures found.Some? ==> found.value < old(|enemies|) && old(enemies[found.value].hp) <= 40
      ensures enemies == Drop(old(enemies), found)
      ensures Positions(enemies) == Drop(old(Positions(enemies)), found) && Hps(enemies) == Drop(old(Hps(enemies)), found)
      ensures player.Status() ==
        if found.None? then old(player.Status()) else Battled(old(enemies[found.value].hp), old(player.Status()), rounds, reward)
    {
      if escaped {
        over := true;
        found := None;
      } else {
        found := Encounter(rounds, reward);
      }
    }

    /** The battle check, then the death check: a player left without hp ends the game. */
    method Encounter(rounds: seq<Round>, reward: int) returns (found: Option<nat>)
      requires Valid() && RoundsOk(rounds) && |rounds| >= 4 && 20 <= reward <= 40
      modifies this, player, enemies
      ensures Valid() && over == (old(over) || player.hp <= 0)
      ensures player.At() == old(player.At()) && player.inventory == old(player.inventory)
      ensures found == FirstAt(old(Positions(enemies)), player.At())
      ensures found.Some? ==> found.value < old(|enemies|) && old(enemies[found.value].hp) <= 40
      ensures enemies == Drop(old(enemies), found)
      ensures Positions(enemies) == Drop(old(Positions(enemies)), found) && Hps(enemies) == Drop(old(Hps(enemies)), found)
      ensures player.Status() ==
        if found.None? then old(player.Status()) else Battled(old(enemies[found.value].hp), old(player.Status()), rounds, reward)
    {
      found := CheckBattle(rounds, reward);
      label fought:
      if player.hp <= 0 {
        over := true;
      }
      ListUnchanged@fought(enemies);
    }
  }
}
