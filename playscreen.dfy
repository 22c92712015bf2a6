/** The play screen: the player, the sea and land enemies, the board and the
    tick that moves them, detects collisions and drives the death and
    next-level delays. The closed set of screens, `State`, is declared here
    because the play screen's tick produces transitions to other screens. */
module PlayScreen {
  import opened Geometry
  import opened Models
  import opened Navigation

  const BOARD_WIDTH: nat := 32
  const BOARD_HEIGHT: nat := 12
  /** Ticks a death or a level change is shown before play resumes. */
  const DELAY_TICKS: nat := 20
  /** The player's start: middle of the top border. */
  const PLAYER_START := Position(BOARD_WIDTH / 2, 0)
  /** The land enemy's start: middle of the inner bottom border row. */
  const LAND_ENEMY_START := Position(BOARD_WIDTH / 2, BOARD_HEIGHT - 2)

  datatype Player = Player(position: Position, direction: Direction)

  datatype Enemy = Enemy(position: Position, direction: Direction) {
    /** Where the enemy would hit something next: diagonally, horizontally, vertically. */
    function HitPositions(): seq<Position> {
      [position.MovedTo(direction), position.MovedTo(direction.Horizontal()), position.MovedTo(direction.Vertical())]
    }
  }

  datatype Delay = Death(counter: nat) | NextLevel(counter: nat) | None

  /** The screens of the game. */
  datatype State = Play(ps: PlayState) | Welcome | GameOver

  /** The horizontal hit keeps the enemy's row, the vertical hit keeps its
      column, and the diagonal hit is the corner both of them share. */
  lemma HitPositionsShape(e: Enemy)
    ensures var r := e.HitPositions();
      |r| == 3 && r[1].y == e.position.y && r[2].x == e.position.x && r[0] == Position(r[1].x, r[2].y)
  {
  }

  // ---------------------------------------------------------------------------
  // Geometry of look-ups

  /** The eight neighbours of `p` lie on the grid. */
  predicate Surrounded(g: Grid, p: Position) {
    && InGrid(g, Position(p.x - 1, p.y - 1)) && InGrid(g, Position(p.x + 1, p.y - 1))
    && InGrid(g, Position(p.x - 1, p.y)) && InGrid(g, Position(p.x + 1, p.y))
    && InGrid(g, Position(p.x - 1, p.y + 1)) && InGrid(g, Position(p.x + 1, p.y + 1))
  }

  /** One legal step from a surrounded position stays on the grid. */
  lemma SurroundedStep(g: Grid, p: Position, d: Direction)
    requires Surrounded(g, p) && d.IsStep()
    ensures InGrid(g, p.MovedTo(d))
  {
    if d.dy == -1 {
      assert InGrid(g, Position(p.x - 1, p.y - 1));
    } else if d.dy == 0 {
      assert InGrid(g, Position(p.x - 1, p.y));
    } else {
      assert InGrid(g, Position(p.x - 1, p.y + 1));
    }
  }

  /** Bounds safety of the unchecked sea-enemy look-ups: from an interior
      position every cell within one step is on the board. */
  lemma InteriorSurrounded(g: Grid, w: int, h: int, p: Position)
    requires Rectangular(g, w, h) && Interior(p, w, h)
    ensures Surrounded(g, p)
    ensures forall d: Direction :: d.IsStep() ==> InGrid(g, p.MovedTo(d))
  {
    forall d: Direction | d.IsStep() ensures InGrid(g, p.MovedTo(d)) {
      SurroundedStep(g, p, d);
    }
  }

  // ---------------------------------------------------------------------------
  // Enemies

  /** `bounce_sea_enemies` for one enemy: flip horizontally if the horizontal
      neighbour is Land, then vertically if the vertical neighbour (under the
      new direction) is Land, then both if the diagonal cell is Land. */
  function SeaBounced(g: Grid, e: Enemy): (r: Enemy)
    requires Surrounded(g, e.position) && e.direction.IsStep()
    ensures r.position == e.position && r.direction.IsStep()
    ensures r.direction.dx == e.direction.dx || r.direction.dx == -e.direction.dx
    ensures r.direction.dy == e.direction.dy || r.direction.dy == -e.direction.dy
    ensures e.direction.IsDiagonal() ==> r.direction.IsDiagonal()
  {
    var p, d := e.position, e.direction;
    SurroundedStep(g, p, d.Horizontal());
    var d1 := FlippedOnLand(g, p.MovedTo(d.Horizontal()), d, d.FlippedX());
    SurroundedStep(g, p, d1.Vertical());
    var d2 := FlippedOnLand(g, p.MovedTo(d1.Vertical()), d1, d1.FlippedY());
    SurroundedStep(g, p, d2);
    Enemy(p, FlippedOnLand(g, p.MovedTo(d2), d2, d2.FlippedX().FlippedY()))
  }

  /** One look-up of `bounce_sea_enemies`: `flipped` if the field at `q` is
      Land, `d` otherwise. */
  function FlippedOnLand(g: Grid, q: Position, d: Direction, flipped: Direction): Direction
    requires InGrid(g, q)
  {
    if Cell(g, q) == Land then flipped else d
  }

  /** The look-up of `bounce_land_enemies`: off the board or not Land. */
  predicate LandBlocked(g: Grid, p: Position) {
    !InGrid(g, p) || Cell(g, p) != Land
  }

  /** `bounce_land_enemies` for one enemy: the same three steps, flipping
      when the cell is off the board or not Land. */
  function LandBounced(g: Grid, e: Enemy): (r: Enemy)
    ensures r.position == e.position
    ensures r.direction.dx == e.direction.dx || r.direction.dx == -e.direction.dx
    ensures r.direction.dy == e.direction.dy || r.direction.dy == -e.direction.dy
    ensures e.direction.IsDiagonal() ==> r.direction.IsDiagonal()
  {
    var p, d := e.position, e.direction;
    var d1 := if LandBlocked(g, p.MovedTo(d.Horizontal())) then d.FlippedX() else d;
    var d2 := if LandBlocked(g, p.MovedTo(d1.Vertical())) then d1.FlippedY() else d1;
    var d3 := if LandBlocked(g, p.MovedTo(d2)) then d2.FlippedX().FlippedY() else d2;
    Enemy(p, d3)
  }

  /** `move_land_enemies` (and `move_sea_enemies` as written) for one enemy. */
  function Moved(e: Enemy): (r: Enemy)
    ensures r.direction == e.direction
    ensures r.position.x - e.position.x == e.direction.dx && r.position.y - e.position.y == e.direction.dy
  {
    Enemy(e.position.MovedTo(e.direction), e.direction)
  }

  /** The corrected move of a sea enemy: it does not step onto Land. */
  function SeaMoved(g: Grid, e: Enemy): (r: Enemy)
    requires InGrid(g, e.position.MovedTo(e.direction))
    ensures r.direction == e.direction
    ensures r == Moved(e) <==> Cell(g, Moved(e).position) != Land || e.direction == NONE
    ensures r.position == e.position || r.position == Moved(e).position
  {
    if Cell(g, e.position.MovedTo(e.direction)) == Land then e else Moved(e)
  }

  /** With the corrected move, a sea enemy in the interior stays in it. */
  lemma SeaMoveStaysInterior(g: Grid, w: int, h: int, e: Enemy)
    requires Rectangular(g, w, h) && Bordered(g, w, h)
    requires Interior(e.position, w, h) && e.direction.IsStep()
    ensures InGrid(g, e.position.MovedTo(e.direction))
    ensures Interior(SeaMoved(g, e).position, w, h)
  {
    InteriorSurrounded(g, w, h, e.position);
    var t := e.position.MovedTo(e.direction);
    if Cell(g, t) != Land {
      assert g[t.y][t.x] != Land;
    }
  }

  /** A whole tick of one sea enemy, bounce then corrected move, keeps it in
      the interior. */
  lemma SeaStepStaysInterior(g: Grid, w: int, h: int, e: Enemy)
    requires Rectangular(g, w, h) && Bordered(g, w, h)
    requires Interior(e.position, w, h) && e.direction.IsStep()
    ensures Surrounded(g, e.position)
    ensures Interior(SeaMoved(g, SeaBounced(g, e)).position, w, h)
  {
    InteriorSurrounded(g, w, h, e.position);
    SeaMoveStaysInterior(g, w, h, SeaBounced(g, e));
  }

  // ---------------------------------------------------------------------------
  // Collisions

  /** What a sea enemy collides with at one hit position: the player, or the trail. */
  predicate SeaHitAt(g: Grid, q: Position, player: Position)
    requires InGrid(g, q)
  {
    q == player || Cell(g, q) == Sand
  }

  /** `hit_check` of a sea enemy against the player and the trail. */
  predicate SeaHits(g: Grid, e: Enemy, player: Position)
    requires Surrounded(g, e.position) && e.direction.IsStep()
  {
    SurroundedStep(g, e.position, e.direction);
    SurroundedStep(g, e.position, e.direction.Horizontal());
    SurroundedStep(g, e.position, e.direction.Vertical());
    var hs := e.HitPositions();
    SeaHitAt(g, hs[0], player) || SeaHitAt(g, hs[1], player) || SeaHitAt(g, hs[2], player)
  }

  /** `hit_check` of a land enemy against the player. */
  predicate LandHits(e: Enemy, player: Position) {
    player in e.HitPositions()
  }

  /** Sea enemies the unchecked look-ups are safe for. */
  predicate SeaSafe(g: Grid, sea: seq<Enemy>) {
    forall i :: 0 <= i < |sea| ==> Surrounded(g, sea[i].position) && sea[i].direction.IsStep()
  }

  /** The collision test of the tick, as a reference definition: the player's
      next field is trail, a sea enemy is about to hit the player or the
      trail, or a land enemy is about to hit the player. */
  predicate Collides(g: Grid, pl: Player, sea: seq<Enemy>, land: seq<Enemy>)
    requires SeaSafe(g, sea)
  {
    var next := pl.position.MovedTo(pl.direction);
    || (InGrid(g, next) && Cell(g, next) == Sand)
    || (exists i :: 0 <= i < |sea| && SeaHits(g, sea[i], pl.position))
    || (exists i :: 0 <= i < |land| && LandHits(land[i], pl.position))
  }

  // ---------------------------------------------------------------------------
  // The player's move

  function Target(pl: Player): Position {
    pl.position.MovedTo(pl.direction)
  }

  /** The player closes a trail: it leaves a Sea field for a field that is
      Land once the trail is laid. */
  predicate Captures(g: Grid, pl: Player)
    requires InGrid(g, pl.position)
  {
    InGrid(g, Target(pl)) && Cell(g, pl.position) == Sea && Cell(With(g, pl.position, Sand), Target(pl)) == Land
  }

  /** The player after `move_player`: stopped at the edge of the board,
      stopped after a capture, otherwise one step further on. */
  function MovedPlayer(g: Grid, pl: Player): Player
    requires InGrid(g, pl.position)
  {
    if !InGrid(g, Target(pl)) then Player(pl.position, NONE)
    else if Captures(g, pl) then Player(Target(pl), NONE)
    else Player(Target(pl), pl.direction)
  }

  /** The fields after `move_player`: leaving a Sea field lays trail on it,
      and a capture fills from `sources`. */
  ghost function MovedFields(g: Grid, pl: Player, sources: seq<Position>): Grid
    requires InGrid(g, pl.position)
  {
    if !InGrid(g, Target(pl)) || Cell(g, pl.position) != Sea then g
    else if Captures(g, pl) then Filled(With(g, pl.position, Sand), sources)
    else With(g, pl.position, Sand)
  }

  /** Laying trail on a Sea field keeps a play board a play board. */
  lemma TrailKeepsBoard(g: Grid, p: Position)
    requires PlayBoard(g) && InGrid(g, p) && Cell(g, p) == Sea
    ensures PlayBoard(With(g, p, Sand))
  {
    var t := With(g, p, Sand);
    forall y, x | 0 <= y < BOARD_HEIGHT && 0 <= x < BOARD_WIDTH && t[y][x] != Land
      ensures Interior(Position(x, y), BOARD_WIDTH, BOARD_HEIGHT)
    {
      assert g[y][x] != Land;
    }
  }

  /** The player's move keeps the player on the board and the board a play
      board; Land stays Land. Without a capture at most the field the player
      left changes, from Sea to trail; a capture leaves no trail. */
  lemma PlayerMoveKeepsBoard(g: Grid, pl: Player, sources: seq<Position>)
    requires PlayBoard(g) && InGrid(g, pl.position)
    ensures var g' := MovedFields(g, pl, sources);
      PlayBoard(g') && InGrid(g', MovedPlayer(g, pl).position)
    ensures forall y, x :: 0 <= y < BOARD_HEIGHT && 0 <= x < BOARD_WIDTH && g[y][x] == Land ==>
      MovedFields(g, pl, sources)[y][x] == Land
    ensures !Captures(g, pl) ==>
      MovedFields(g, pl, sources) == g ||
      (Cell(g, pl.position) == Sea && MovedFields(g, pl, sources) == With(g, pl.position, Sand))
    ensures Captures(g, pl) ==> forall y, x :: 0 <= y < BOARD_HEIGHT && 0 <= x < BOARD_WIDTH ==>
      MovedFields(g, pl, sources)[y][x] != Sand
  {
    var w, h := BOARD_WIDTH, BOARD_HEIGHT;
    if InGrid(g, Target(pl)) && Cell(g, pl.position) == Sea {
      var t := With(g, pl.position, Sand);
      TrailKeepsBoard(g, pl.position);
      if Captures(g, pl) {
        FilledValid(t, sources, w, h);
        forall y, x | 0 <= y < h && 0 <= x < w ensures Filled(t, sources)[y][x] != Sand {
          FilledCells(t, sources, y, x);
        }
      }
    }
  }

  /** The player's move never gives back captured territory: Sea and trail
      together stay as they were, and a capture strictly shrinks the Sea and
      leaves no trail. So the fill ratio never falls within a level. */
  lemma PlayerMoveKeepsTally(g: Grid, pl: Player, sources: seq<Position>)
    requires PlayBoard(g) && InGrid(g, pl.position)
    ensures var g' := MovedFields(g, pl, sources);
      if Captures(g, pl) then Count(g', Sea) < Count(g, Sea) && Count(g', Sand) == 0
      else Count(g', Sea) + Count(g', Sand) == Count(g, Sea) + Count(g, Sand)
  {
    if InGrid(g, Target(pl)) && Cell(g, pl.position) == Sea {
      var t := With(g, pl.position, Sand);
      TrailKeepsBoard(g, pl.position);
      CountUpdate(g, pl.position, Sand, Sea);
      CountUpdate(g, pl.position, Sand, Sand);
      if Captures(g, pl) {
        FilledCount(t, sources);
      }
    }
  }

  // ---------------------------------------------------------------------------
  // Sea-enemy moves as written: a bounce can leave the interior

  /** A board of the play screen's size whose border is Land. */
  ghost predicate PlayBoard(g: Grid) {
    Rectangular(g, BOARD_WIDTH, BOARD_HEIGHT) && Bordered(g, BOARD_WIDTH, BOARD_HEIGHT) && NoDeepSea(g)
  }

  /** Turning an interior field into Land keeps a play board a play board. */
  lemma LandKeepsPlayBoard(g: Grid, p: Position)
    requires PlayBoard(g) && InGrid(g, p)
    ensures PlayBoard(With(g, p, Land))
  {
    var c := With(g, p, Land);
    forall y, x | 0 <= y < BOARD_HEIGHT && 0 <= x < BOARD_WIDTH && c[y][x] != Land
      ensures Interior(Position(x, y), BOARD_WIDTH, BOARD_HEIGHT)
    {
      assert g[y][x] != Land;
    }
  }

  /** As written, a sea enemy at (2, 5) heading south-west, with Land at
      (3, 6) and Sea at (2, 6), is bounced to north-west and moves onto the
      Land border at (1, 4). */
  lemma SeaEnemyLeavesInterior()
    ensures var g := With(InitialGrid(BOARD_WIDTH, BOARD_HEIGHT), Position(3, 6), Land);
      var e := Enemy(Position(2, 5), SOUTHWEST);
      && PlayBoard(g) && Interior(e.position, BOARD_WIDTH, BOARD_HEIGHT) && Cell(g, e.position) == Sea
      && Surrounded(g, e.position)
      && Moved(SeaBounced(g, e)) == Enemy(Position(1, 4), NORTHWEST)
      && !Interior(Moved(SeaBounced(g, e)).position, BOARD_WIDTH, BOARD_HEIGHT)
  {
    var g0 := InitialGrid(BOARD_WIDTH, BOARD_HEIGHT);
    InitialValid(g0, BOARD_WIDTH, BOARD_HEIGHT);
    LandKeepsPlayBoard(g0, Position(3, 6));
    var g := With(g0, Position(3, 6), Land);
    assert g[5][1] == Land && g[6][2] == Sea && g[6][3] == Land;
  }

  /** Continuing from (1, 4) heading north-west once (2, 5) is Land too, the
      enemy reaches (0, 3); the next tick's horizontal look-up is then at
      x = -1, off the board. */
  lemma SeaEnemyReachesEdge()
    ensures var g := With(With(InitialGrid(BOARD_WIDTH, BOARD_HEIGHT), Position(3, 6), Land), Position(2, 5), Land);
      var e := Enemy(Position(1, 4), NORTHWEST);
      && PlayBoard(g) && Surrounded(g, e.position)
      && Moved(SeaBounced(g, e)) == Enemy(Position(0, 3), NORTHWEST)
      && !InGrid(g, Position(0, 3).MovedTo(NORTHWEST.Horizontal()))
  {
    var g0 := InitialGrid(BOARD_WIDTH, BOARD_HEIGHT);
    InitialValid(g0, BOARD_WIDTH, BOARD_HEIGHT);
    LandKeepsPlayBoard(g0, Position(3, 6));
    var g1 := With(g0, Position(3, 6), Land);
    LandKeepsPlayBoard(g1, Position(2, 5));
    var g := With(g1, Position(2, 5), Land);
    assert g[4][0] == Land && g[3][1] == Land && g[5][2] == Land;
  }

  /** The player's direction after an event: each arrow key selects its
      unit step, other events keep the direction. */
  function Steering(e: Event, d: Direction): (r: Direction)
    ensures e.Tick? || e.Quit? ==> r == d
    ensures !(e.Tick? || e.Quit?) ==> r.IsStep() && (r.dx == 0 <==> r.dy != 0)
    ensures e.Up? || e.Down? ==> r.dx == 0 && r.dy == (if e.Up? then -1 else 1)
    ensures e.Left? || e.Right? ==> r.dy == 0 && r.dx == (if e.Left? then -1 else 1)
  {
    match e
    case Up => NORTH
    case Down => SOUTH
    case Left => WEST
    case Right => EAST
    case _ => d
  }

  // ---------------------------------------------------------------------------
  // Whole-collection versions of the per-enemy rules

  function Positions(enemies: seq<Enemy>): (r: seq<Position>)
    ensures |r| == |enemies| && forall i :: 0 <= i < |r| ==> r[i] == enemies[i].position
  {
    seq(|enemies|, i requires 0 <= i < |enemies| => enemies[i].position)
  }

  function SeaBouncedAll(g: Grid, sea: seq<Enemy>): (r: seq<Enemy>)
    requires SeaSafe(g, sea)
    ensures |r| == |sea| && forall i :: 0 <= i < |r| ==> r[i] == SeaBounced(g, sea[i])
  {
    seq(|sea|, i requires 0 <= i < |sea| => SeaBounced(g, sea[i]))
  }

  /** Bouncing keeps every sea enemy in place and moving diagonally. */
  lemma SeaBouncedPlaced(g: Grid, sea: seq<Enemy>)
    requires SeaSafe(g, sea) && SeaPlaced(sea)
    ensures SeaPlaced(SeaBouncedAll(g, sea))
  {
  }

  function LandBouncedAll(g: Grid, land: seq<Enemy>): (r: seq<Enemy>)
    ensures |r| == |land| && forall i :: 0 <= i < |r| ==> r[i] == LandBounced(g, land[i])
  {
    seq(|land|, i requires 0 <= i < |land| => LandBounced(g, land[i]))
  }

  /** Bouncing keeps every land enemy heading diagonally. */
  lemma LandBouncedPlaced(g: Grid, land: seq<Enemy>)
    requires LandPlaced(land)
    ensures LandPlaced(LandBouncedAll(g, land))
  {
  }

  function SeaMovedAll(g: Grid, sea: seq<Enemy>): (r: seq<Enemy>)
    requires SeaSafe(g, sea)
    ensures |r| == |sea| && forall i :: 0 <= i < |r| ==> r[i] == SeaMoved(g, sea[i])
  {
    SeaSafeTargets(g, sea);
    seq(|sea|, i requires 0 <= i < |sea| => SeaMoved(g, sea[i]))
  }

  /** Every sea enemy's next field is on the board. */
  lemma SeaSafeTargets(g: Grid, sea: seq<Enemy>)
    requires SeaSafe(g, sea)
    ensures forall i :: 0 <= i < |sea| ==> InGrid(g, sea[i].position.MovedTo(sea[i].direction))
  {
    forall i | 0 <= i < |sea| ensures InGrid(g, sea[i].position.MovedTo(sea[i].direction)) {
      SurroundedStep(g, sea[i].position, sea[i].direction);
    }
  }

  /** The corrected move keeps every sea enemy in the interior and moving
      diagonally. */
  lemma SeaMovedPlaced(g: Grid, sea: seq<Enemy>)
    requires Rectangular(g, BOARD_WIDTH, BOARD_HEIGHT) && Bordered(g, BOARD_WIDTH, BOARD_HEIGHT)
    requires SeaSafe(g, sea) && SeaPlaced(sea)
    ensures SeaPlaced(SeaMovedAll(g, sea))
  {
    forall i | 0 <= i < |sea| ensures Interior(SeaMoved(g, sea[i]).position, BOARD_WIDTH, BOARD_HEIGHT) {
      SeaMoveStaysInterior(g, BOARD_WIDTH, BOARD_HEIGHT, sea[i]);
    }
  }

  function MovedAll(enemies: seq<Enemy>): (r: seq<Enemy>)
    ensures |r| == |enemies| && forall i :: 0 <= i < |r| ==> r[i] == Moved(enemies[i])
  {
    seq(|enemies|, i requires 0 <= i < |enemies| => Moved(enemies[i]))
  }

  // ---------------------------------------------------------------------------
  // The play screen object

  /** Every sea enemy is strictly inside the border and moves diagonally. */
  predicate SeaPlaced(sea: seq<Enemy>) {
    forall i :: 0 <= i < |sea| ==>
      Interior(sea[i].position, BOARD_WIDTH, BOARD_HEIGHT) && sea[i].direction.IsDiagonal()
  }

  /** Every land enemy moves diagonally. */
  predicate LandPlaced(land: seq<Enemy>) {
    forall i :: 0 <= i < |land| ==> land[i].direction.IsDiagonal()
  }

  class PlayState {
    var player: Player
    var seaEnemies: seq<Enemy>
    var landEnemies: seq<Enemy>
    const board: Board
    var level: nat
    var score: nat
    var lives: nat
    var delay: Delay

    /** The board keeps its size and border, the player is on it, sea enemies
        are in the interior (so their unchecked look-ups stay on the board),
        every direction is a legal step, and a pending delay means a life
        is left. */
    ghost predicate Valid()
      reads this, board
    {
      && board.Valid() && board.width == BOARD_WIDTH && board.height == BOARD_HEIGHT
      && InGrid(board.fields, player.position) && player.direction.IsStep()
      && SeaPlaced(seaEnemies) && LandPlaced(landEnemies)
      && (delay != Delay.None ==> lives >= 1)
      && board.Tallied()
    }

    /** The state `new(level0, score0, lives0)` produces. */
    ghost predicate Started(level0: nat, score0: nat, lives0: nat)
      reads this, board
    {
      && board.fields == InitialGrid(BOARD_WIDTH, BOARD_HEIGHT) && board.remaining == board.Total()
      && player == Player(PLAYER_START, NONE)
      && |seaEnemies| == level0
      && (forall i :: 0 <= i < level0 ==>
            InGrid(board.fields, seaEnemies[i].position) && Cell(board.fields, seaEnemies[i].position) == Sea &&
            seaEnemies[i].direction in DIAGONALS)
      && |landEnemies| == 1 && landEnemies[0].position == LAND_ENEMY_START && landEnemies[0].direction in DIAGONALS
      && level == level0 && score == score0 && lives == lives0 && delay == Delay.None
    }

    /** The look-ups the tick makes are on the board. */
    lemma SafeLookups()
      requires Valid()
      ensures PlayBoard(board.fields) && SeaSafe(board.fields, seaEnemies)
      ensures forall i :: 0 <= i < |seaEnemies| ==> InGrid(board.fields, seaEnemies[i].position)
    {
      forall i | 0 <= i < |seaEnemies|
        ensures Surrounded(board.fields, seaEnemies[i].position) && InGrid(board.fields, seaEnemies[i].position)
      {
        InteriorSurrounded(board.fields, BOARD_WIDTH, BOARD_HEIGHT, seaEnemies[i].position);
        SurroundedStep(board.fields, seaEnemies[i].position, NONE);
      }
    }

    /** `new`: a fresh board, `level` sea enemies on randomly chosen Sea
        fields heading in random diagonals, the player at the top middle and
        one land enemy at the bottom middle. */
    constructor (level: nat, score: nat, lives: nat)
      ensures Valid() && fresh(board)
      ensures Started(level, score, lives)
    {
      var b := new Board(BOARD_WIDTH, BOARD_HEIGHT);
      var enemies: seq<Enemy> := [];
      for i := 0 to level
        invariant |enemies| == i
        invariant b.fields == InitialGrid(BOARD_WIDTH, BOARD_HEIGHT) && b.remaining == b.Total() && b.Tallied()
        invariant b.Valid() && b.width == BOARD_WIDTH && b.height == BOARD_HEIGHT
        invariant forall j :: 0 <= j < i ==>
          InGrid(b.fields, enemies[j].position) && Cell(b.fields, enemies[j].position) == Sea &&
          enemies[j].direction in DIAGONALS
      {
        assert b.fields[2][2] == Sea;
        var position := b.RandomPositionOfType(Sea);
        var direction := RandomDiagonal();
        enemies := enemies + [Enemy(position, direction)];
      }
      var landDirection := RandomDiagonal();
      player := Player(PLAYER_START, NONE);
      seaEnemies := enemies;
      landEnemies := [Enemy(LAND_ENEMY_START, landDirection)];
      board := b;
      this.level := level;
      this.score := score;
      this.lives := lives;
      delay := Delay.None;
      new;
      forall i | 0 <= i < |seaEnemies| ensures Interior(seaEnemies[i].position, BOARD_WIDTH, BOARD_HEIGHT) {
        var p := seaEnemies[i].position;
        assert board.fields[p.y][p.x] != Land;
      }
    }
 
    /** `move_player`: stop at the edge of the board; when leaving Sea, lay
        trail and, on reaching Land, stop and capture from the sea enemies'
        positions. The score is left alone: the original adds the unit
        result of the capture to it. */
    method MovePlayer()
      requires Valid()
      modifies this`player, board`fields, board`remaining
      ensures Valid()
      ensures player == MovedPlayer(old(board.fields), old(player))
      ensures board.fields == MovedFields(old(board.fields), old(player), Positions(seaEnemies))
      ensures board.remaining ==
        if Captures(old(board.fields), old(player)) then Count(board.fields, Sea) else old(board.remaining)
      ensures board.remaining <= old(board.remaining)
    {
      SafeLookups();
      PlayerMoveKeepsBoard(board.fields, player, Positions(seaEnemies));
      ghost var g, pl := board.fields, player;
      var pos := player.position.MovedTo(player.direction);
      board.WithinBoundsIsInGrid(pos);
      if !board.WithinBounds(pos) {
        player := player.(direction := NONE);
      } else {
        if board.At(player.position) == Sea {
          TrailKeepsBoard(board.fields, player.position);
          board.Set(player.position, Sand);
          if board.At(pos) == Land {
            player := player.(direction := NONE);
            board.Fill(Positions(seaEnemies));
          }
        }
        player := player.(position := pos);
      }
      PlayerMoveKeepsTally(g, pl, Positions(seaEnemies));
    }

    /** The body of `bounce_sea_enemies` for one enemy. */
    method BounceSeaEnemy(enemy: Enemy) returns (e: Enemy)
      requires Surrounded(board.fields, enemy.position) && enemy.direction.IsStep()
      ensures e == SeaBounced(board.fields, enemy)
    {
      e := enemy;
      var p := e.position;
      SurroundedStep(board.fields, p, e.direction.Horizontal());
      if board.At(p.MovedTo(e.direction.Horizontal())) == Land {
        e := e.(direction := e.direction.FlippedX());
      }
      SurroundedStep(board.fields, p, e.direction.Vertical());
      if board.At(p.MovedTo(e.direction.Vertical())) == Land {
        e := e.(direction := e.direction.FlippedY());
      }
      SurroundedStep(board.fields, p, e.direction);
      if board.At(p.MovedTo(e.direction)) == Land {
        e := e.(direction := e.direction.FlippedX().FlippedY());
      }
    }

    /** The body of `bounce_land_enemies` for one enemy. */
    method BounceLandEnemy(enemy: Enemy) returns (e: Enemy)
      requires board.Valid()
      ensures e == LandBounced(board.fields, enemy)
    {
      e := enemy;
      var pos := e.position.MovedTo(e.direction.Horizontal());
      board.WithinBoundsIsInGrid(pos);
      if !board.WithinBounds(pos) || board.At(pos) != Land {
        e := e.(direction := e.direction.FlippedX());
      }
      pos := e.position.MovedTo(e.direction.Vertical());
      board.WithinBoundsIsInGrid(pos);
      if !board.WithinBounds(pos) || board.At(pos) != Land {
        e := e.(direction := e.direction.FlippedY());
      }
      pos := e.position.MovedTo(e.direction);
      board.WithinBoundsIsInGrid(pos);
      if !board.WithinBounds(pos) || board.At(pos) != Land {
        e := e.(direction := e.direction.FlippedX().FlippedY());
      }
    }

    /** `bounce_sea_enemies`: every sea enemy's direction is bounced in place. */
    method BounceSeaEnemies()
      requires Valid()
      modifies this`seaEnemies
      ensures Valid()
      ensures SeaSafe(board.fields, old(seaEnemies)) && seaEnemies == SeaBouncedAll(board.fields, old(seaEnemies))
    {
      SafeLookups();
      var es := BouncedSeaEnemies();
      SeaBouncedPlaced(board.fields, seaEnemies);
      seaEnemies := es;
    }

    /** The loop of `bounce_sea_enemies`, on a copy of the enemies. */
    method BouncedSeaEnemies() returns (es: seq<Enemy>)
      requires SeaSafe(board.fields, seaEnemies)
      ensures es == SeaBouncedAll(board.fields, seaEnemies)
    {
      es := seaEnemies;
      var i := 0;
      while i < |es|
        invariant 0 <= i <= |es| == |seaEnemies|
        invariant forall j :: 0 <= j < i ==> es[j] == SeaBounced(board.fields, seaEnemies[j])
        invariant forall j :: i <= j < |es| ==> es[j] == seaEnemies[j]
      {
        assert Surrounded(board.fields, seaEnemies[i].position) && seaEnemies[i].direction.IsStep();
        var e := BounceSeaEnemy(seaEnemies[i]);
        es := es[i := e];
        i := i + 1;
      }
    }

    /** `bounce_land_enemies`: every land enemy's direction is bounced in place. */
    method BounceLandEnemies()
      requires Valid()
      modifies this`landEnemies
      ensures Valid()
      ensures landEnemies == LandBouncedAll(board.fields, old(landEnemies))
    {
      BounceEachLandEnemy();
      LandBouncedPlaced(board.fields, old(landEnemies));
    }

    /** The loop of `bounce_land_enemies`, bouncing each enemy in place. */
    method BounceEachLandEnemy()
      requires board.Valid()
      modifies this`landEnemies
      ensures landEnemies == LandBouncedAll(board.fields, old(landEnemies))
    {
      ghost var land := landEnemies;
      var i := 0;
      while i < |landEnemies|
        invariant 0 <= i <= |landEnemies| == |land|
        invariant forall j :: 0 <= j < i ==> landEnemies[j] == LandBounced(board.fields, land[j])
        invariant forall j :: i <= j < |land| ==> landEnemies[j] == land[j]
      {
        var e := BounceLandEnemy(landEnemies[i]);
        landEnemies := landEnemies[i := e];
        i := i + 1;
      }
    }
 
    /** `move_sea_enemies`, corrected: an enemy whose bounced direction still
        points at Land stays where it is instead of stepping onto it. */
    method MoveSeaEnemies()
      requires Valid()
      modifies this`seaEnemies
      ensures Valid()
      ensures SeaSafe(board.fields, old(seaEnemies)) && seaEnemies == SeaMovedAll(board.fields, old(seaEnemies))
    {
      SafeLookups();
      var es := MovedSeaEnemies();
      SeaMovedPlaced(board.fields, seaEnemies);
      seaEnemies := es;
    }

    /** The loop of `move_sea_enemies`, corrected, on a copy of the enemies. */
    method MovedSeaEnemies() returns (es: seq<Enemy>)
      requires SeaSafe(board.fields, seaEnemies)
      ensures es == SeaMovedAll(board.fields, seaEnemies)
    {
      SeaSafeTargets(board.fields, seaEnemies);
      es := seaEnemies;
      var i := 0;
      while i < |es|
        invariant 0 <= i <= |es| == |seaEnemies|
        invariant forall j :: 0 <= j < i ==> es[j] == SeaMoved(board.fields, seaEnemies[j])
        invariant forall j :: i <= j < |es| ==> es[j] == seaEnemies[j]
      {
        var e := es[i];
        var target := e.position.MovedTo(e.direction);
        if board.At(target) != Land {
          e := e.(position := target);
        }
        es := es[i := e];
        i := i + 1;
      }
    }
 
    /** `move_land_enemies`: every land enemy steps along its direction. */
    method MoveLandEnemies()
      requires Valid()
      modifies this`landEnemies
      ensures Valid()
      ensures landEnemies == MovedAll(old(landEnemies))
    {
      ghost var land := landEnemies;
      var i := 0;
      while i < |landEnemies|
        invariant 0 <= i <= |landEnemies| == |land|
        invariant forall j :: 0 <= j < i ==> landEnemies[j] == Moved(land[j])
        invariant forall j :: i <= j < |land| ==> landEnemies[j] == land[j]
        invariant LandPlaced(landEnemies)
      {
        var e := landEnemies[i];
        landEnemies := landEnemies[i := e.(position := e.position.MovedTo(e.direction))];
        i := i + 1;
      }
    }

    /** `find_collision`: read-only, true exactly when the reference
        collision test holds. */
    method FindCollision() returns (collides: bool)
      requires Valid()
      ensures SeaSafe(board.fields, seaEnemies)
      ensures collides == Collides(board.fields, player, seaEnemies, landEnemies)
    {
      SafeLookups();
      var position := player.position.MovedTo(player.direction);
      board.WithinBoundsIsInGrid(position);
      if board.WithinBounds(position) && board.At(position) == Sand {
        return true;
      }
      collides := SeaCollision();
      if collides {
        return;
      }
      collides := LandCollision();
    }

    /** The sea-enemy loop of `find_collision`. */
    method SeaCollision() returns (hit: bool)
      requires SeaSafe(board.fields, seaEnemies)
      ensures hit <==> exists i :: 0 <= i < |seaEnemies| && SeaHits(board.fields, seaEnemies[i], player.position)
    {
      var i := 0;
      while i < |seaEnemies|
        invariant 0 <= i <= |seaEnemies|
        invariant forall j :: 0 <= j < i ==> !SeaHits(board.fields, seaEnemies[j], player.position)
      {
        hit := SeaHitCheck(seaEnemies[i]);
        if hit {
          return;
        }
        i := i + 1;
      }
      return false;
    }

    /** The land-enemy loop of `find_collision`. */
    method LandCollision() returns (hit: bool)
      ensures hit <==> exists i :: 0 <= i < |landEnemies| && LandHits(landEnemies[i], player.position)
    {
      var i := 0;
      while i < |landEnemies|
        invariant 0 <= i <= |landEnemies|
        invariant forall j :: 0 <= j < i ==> !LandHits(landEnemies[j], player.position)
      {
        var hits := landEnemies[i].HitPositions();
        if hits[0] == player.position || hits[1] == player.position || hits[2] == player.position {
          return true;
        }
        i := i + 1;
      }
      return false;
    }

    /** `hit_check` of one sea enemy with the closure of `find_collision`. */
    method SeaHitCheck(e: Enemy) returns (hit: bool)
      requires Surrounded(board.fields, e.position) && e.direction.IsStep()
      ensures hit == SeaHits(board.fields, e, player.position)
    {
      var hits := e.HitPositions();
      SurroundedStep(board.fields, e.position, e.direction);
      SurroundedStep(board.fields, e.position, e.direction.Horizontal());
      SurroundedStep(board.fields, e.position, e.direction.Vertical());
      hit := false;
      for k := 0 to 3
        invariant hit <==> exists j :: 0 <= j < k && SeaHitAt(board.fields, hits[j], player.position)
      {
        if hits[k] == player.position || board.At(hits[k]) == Sand {
          hit := true;
        }
      }
    }

    /** `reset` after a death: the trail is cleaned away, the player is back
        at the start and stopped, and there is one land enemy again, at its
        start. Sea enemies, level, score and lives are kept. */
    method Reset()
      requires Valid()
      modifies this`player, this`landEnemies, board`fields
      ensures Valid()
      ensures board.fields == Cleaned(old(board.fields))
      ensures player == Player(PLAYER_START, NONE)
      ensures |landEnemies| == 1 && landEnemies[0].position == LAND_ENEMY_START
      ensures landEnemies[0].direction in DIAGONALS
    {
      board.Clean();
      player := Player(Position(BOARD_WIDTH / 2, 0), Direction(0, 0));
      var direction := RandomDiagonal();
      landEnemies := [Enemy(Position(BOARD_WIDTH / 2, BOARD_HEIGHT - 2), direction)];
    }

    /** `handle_event`: the arrow keys steer the player, anything else leaves
        it alone; the screen stack is never changed. */
    method HandleEvent(e: Event) returns (t: Transition<State>)
      requires Valid()
      modifies this`player
      ensures Valid() && t == Transition.None && Steered(e)
    {
      match e {
        case Up => player := player.(direction := NORTH);
        case Down => player := player.(direction := SOUTH);
        case Left => player := player.(direction := WEST);
        case Right => player := player.(direction := EAST);
        case _ =>
      }
      t := Transition.None;
    }
 
    /** What `handle_event` does, in terms of the state before it: the
        player is steered, and the board, the enemies, the level, the score,
        the lives and the delay stay as they were. */
    twostate predicate Steered(e: Event)
      reads this, board
    {
      && player == Player(old(player.position), Steering(e, old(player.direction)))
      && seaEnemies == old(seaEnemies) && landEnemies == old(landEnemies)
      && level == old(level) && score == old(score) && lives == old(lives) && delay == old(delay)
      && unchanged(board)
    }

    /** What a tick without a pending delay does, in terms of the state
        before it: bounce all enemies; on a collision lose a life and either
        end the game or start the death delay; otherwise move the player, the
        sea enemies and the land enemies, and start the next-level delay once
        more than a fifth of the interior is filled. */
    twostate predicate Ticked(new t: Transition<State>)
      reads this, board
    {
      var g := old(board.fields);
      && board.Valid() && board.Total() > 0
      && InGrid(g, old(player).position) && SeaSafe(g, old(seaEnemies))
      && var sea, land := SeaBouncedAll(g, old(seaEnemies)), LandBouncedAll(g, old(landEnemies));
      && SeaSafe(g, sea)
      && (Collides(g, old(player), sea, land) ==>
            && seaEnemies == sea && landEnemies == land && player == old(player)
            && board.fields == g && board.remaining == old(board.remaining)
            && lives == old(lives) - 1
            && (lives == 0 ==> t == Push(GameOver) && delay == Delay.None)
            && (lives > 0 ==> t == Transition.None && delay == Death(DELAY_TICKS)))
      && (!Collides(g, old(player), sea, land) ==>
            && lives == old(lives) && t == Transition.None
            && player == MovedPlayer(g, old(player))
            && board.fields == MovedFields(g, old(player), Positions(sea))
            && board.remaining == (if Captures(g, old(player)) then Count(board.fields, Sea) else old(board.remaining))
            && board.remaining <= old(board.remaining)
            && SeaSafe(board.fields, sea) && seaEnemies == SeaMovedAll(board.fields, sea)
            && landEnemies == MovedAll(land)
            && delay == if board.FillRatio() > 0.2 then NextLevel(DELAY_TICKS) else Delay.None)
    }

    /** The part of `update` that runs when no delay is pending. */
    method Advance() returns (t: Transition<State>)
      requires Valid() && delay == Delay.None && lives >= 1
      modifies this`player, this`seaEnemies, this`landEnemies, this`lives, this`delay, board`fields, board`remaining
      ensures Valid() && Ticked(t) && board.remaining <= old(board.remaining)
      ensures t == if lives == 0 then Push(GameOver) else Transition.None
      ensures level == old(level) && score == old(score)
    {
      BounceSeaEnemies();
      BounceLandEnemies();
      var collides := FindCollision();
      if collides {
        t := Collide();
      } else {
        Proceed();
        t := Transition.None;
      }
    }

    /** The collision branch of `update`. */
    method Collide() returns (t: Transition<State>)
      requires Valid() && lives >= 1 && delay == Delay.None
      modifies this`lives, this`delay
      ensures Valid() && lives == old(lives) - 1
      ensures lives == 0 ==> t == Push(GameOver) && delay == Delay.None
      ensures lives > 0 ==> t == Transition.None && delay == Death(DELAY_TICKS)
    {
      lives := lives - 1;
      if lives == 0 {
        return Push(GameOver);
      }
      delay := Death(DELAY_TICKS);
      return Transition.None;
    }

    /** The branch of `update` without a collision. */
    method Proceed()
      requires Valid() && delay == Delay.None && lives >= 1
      modifies this`player, this`seaEnemies, this`landEnemies, this`delay, board`fields, board`remaining
      ensures Valid() && board.Total() > 0
      ensures player == MovedPlayer(old(board.fields), old(player))
      ensures board.fields == MovedFields(old(board.fields), old(player), Positions(old(seaEnemies)))
      ensures board.remaining ==
        if Captures(old(board.fields), old(player)) then Count(board.fields, Sea) else old(board.remaining)
      ensures board.remaining <= old(board.remaining)
      ensures SeaSafe(board.fields, old(seaEnemies)) && seaEnemies == SeaMovedAll(board.fields, old(seaEnemies))
      ensures landEnemies == MovedAll(old(landEnemies))
      ensures delay == if board.FillRatio() > 0.2 then NextLevel(DELAY_TICKS) else Delay.None
    {
      MovePlayer();
      MoveSeaEnemies();
      MoveLandEnemies();
      if board.FillRatio() > 0.2 {
        delay := NextLevel(DELAY_TICKS);
      }
    }
 
    /** What `update` does to this screen, in terms of the state before it:
        a death delay that ran out resets the board and the actors, a
        next-level delay that ran out leaves this screen alone and replaces
        it, a running delay counts down, and without a delay the screen
        ticks. The level and the score never change, and the game ends
        exactly when the last life is lost. */
    twostate predicate Updated(new t: Transition<State>)
      reads this, board
    {
      && level == old(level) && score == old(score)
      && (old(delay) == Death(0) ==>
            && delay == Delay.None && t == Transition.None
            && board.fields == Cleaned(old(board.fields)) && board.remaining == old(board.remaining)
            && player == Player(PLAYER_START, NONE)
            && |landEnemies| == 1 && landEnemies[0].position == LAND_ENEMY_START && landEnemies[0].direction in DIAGONALS
            && seaEnemies == old(seaEnemies) && lives == old(lives))
      && (old(delay) == NextLevel(0) ==> t.Replace? && unchanged(this, board))
      && (old(delay) != Delay.None && old(delay).counter > 0 ==>
            && t == Transition.None
            && delay == (if old(delay).Death? then Death(old(delay).counter - 1) else NextLevel(old(delay).counter - 1))
            && player == old(player) && seaEnemies == old(seaEnemies) && landEnemies == old(landEnemies)
            && lives == old(lives) && unchanged(board))
      && (old(delay) == Delay.None ==> Ticked(t))
      && (old(delay) != NextLevel(0) ==> t == if lives == 0 then Push(GameOver) else Transition.None)
      && board.remaining <= old(board.remaining)
    }

    /** `update`: count a pending delay down; when a death delay runs out,
        reset and resume; when a next-level delay runs out, replace this
        screen by a new one for the next level; without a delay, tick. A
        tick needs a life to lose: the original's counter would underflow. */
    method Update() returns (t: Transition<State>)
      requires Valid() && (delay == Delay.None ==> lives >= 1)
      modifies this`player, this`seaEnemies, this`landEnemies, this`lives, this`delay, board`fields, board`remaining
      ensures Valid() && Updated(t)
      ensures old(delay) == NextLevel(0) ==>
        && t.Replace? && t.next.Play? && fresh(t.next.ps) && fresh(t.next.ps.board)
        && t.next.ps.Valid() && t.next.ps.Started(level + 1, score, lives)
      ensures t.Push? ==> t == Push(GameOver) && lives == 0
      ensures t.Replace? ==> t.next.Play? && fresh(t.next.ps) && fresh(t.next.ps.board) && t.next.ps.Valid() && t.next.ps.lives > 0
    {
      match delay {
        case Death(0) =>
          delay := Delay.None;
          Reset();
          t := Transition.None;
        case NextLevel(0) =>
          var next := new PlayState(level + 1, score, lives);
          t := Replace(Play(next));
        case Death(counter) =>
          delay := Death(counter - 1);
          t := Transition.None;
        case NextLevel(counter) =>
          delay := NextLevel(counter - 1);
          t := Transition.None;
        case None =>
          t := Advance();
      }
    }
  }
}
