/** The first prototype of the play screen: a fixed 20 x 8 board, one sea
    enemy that bounces off Land by looking at its horizontal and vertical
    neighbours only, a capture that simply hardens the whole trail, and game
    over reported through a failed move. */
module Legacy {
  import opened Navigation

  const WIDTH := 20
  const HEIGHT := 8

  datatype Field = Land | Sea | Sand

  /** A player or enemy: position and velocity. */
  datatype Actor = Actor(x: int, y: int, dx: int, dy: int)

  type Grid = seq<seq<Field>>

  predicate Rectangular(g: Grid) {
    |g| == HEIGHT && forall y :: 0 <= y < HEIGHT ==> |g[y]| == WIDTH
  }

  predicate InBounds(x: int, y: int) {
    0 <= x < WIDTH && 0 <= y < HEIGHT
  }

  /** The two outermost rows and columns. */
  predicate OnBorder(x: int, y: int) {
    x < 2 || x >= WIDTH - 2 || y < 2 || y >= HEIGHT - 2
  }

  /** Every border field is Land. */
  predicate Bordered(g: Grid)
    requires Rectangular(g)
  {
    forall y, x :: 0 <= y < HEIGHT && 0 <= x < WIDTH && OnBorder(x, y) ==> g[y][x] == Land
  }

  function InitialField(x: int, y: int): Field {
    if OnBorder(x, y) then Land else Sea
  }

  /** The board `new` builds. */
  function InitialBoard(): (g: Grid)
    ensures Rectangular(g)
  {
    seq(HEIGHT, y requires 0 <= y < HEIGHT => seq(WIDTH, x requires 0 <= x < WIDTH => InitialField(x, y)))
  }

  /** The nested loops of `new`: all Sea, then Land on the border. */
  method BuildBoard() returns (g: Grid)
    ensures g == InitialBoard()
  {
    g := seq(HEIGHT, _ => seq(WIDTH, _ => Sea));
    for y := 0 to HEIGHT
      invariant Rectangular(g)
      invariant forall j, i :: 0 <= j < y && 0 <= i < WIDTH ==> g[j][i] == InitialField(i, j)
      invariant forall j, i :: y <= j < HEIGHT && 0 <= i < WIDTH ==> g[j][i] == Sea
    {
      var row := g[y];
      for x := 0 to WIDTH
        invariant |row| == WIDTH
        invariant forall i :: 0 <= i < x ==> row[i] == InitialField(i, y)
        invariant forall i :: x <= i < WIDTH ==> row[i] == Sea
      {
        if x < 2 || x >= WIDTH - 2 || y < 2 || y >= HEIGHT - 2 {
          row := row[x := Land];
        }
      }
      g := g[y := row];
    }
    forall y | 0 <= y < HEIGHT ensures g[y] == InitialBoard()[y] {
      assert |g[y]| == |InitialBoard()[y]|;
    }
  }

  lemma InitialBoardBordered()
    ensures Bordered(InitialBoard())
    ensures forall y, x :: 0 <= y < HEIGHT && 0 <= x < WIDTH ==> (InitialBoard()[y][x] == Sea <==> !OnBorder(x, y))
  {
  }

  // ---------------------------------------------------------------------------
  // Capture: the whole trail turns into Land

  function HardenedRow(row: seq<Field>): (r: seq<Field>)
  {
    seq(|row|, x requires 0 <= x < |row| => if row[x] == Sand then Land else row[x])
  }

  function Hardened(g: Grid): Grid {
    seq(|g|, y requires 0 <= y < |g| => HardenedRow(g[y]))
  }

  /** After hardening no Sand is left, the Land fields are exactly the former
      Land and Sand fields, and the Sea fields are untouched. */
  lemma HardenedCells(g: Grid)
    requires Rectangular(g)
    ensures Rectangular(Hardened(g))
    ensures forall y, x :: 0 <= y < HEIGHT && 0 <= x < WIDTH ==>
      && Hardened(g)[y][x] != Sand
      && (Hardened(g)[y][x] == Land <==> g[y][x] == Land || g[y][x] == Sand)
      && (Hardened(g)[y][x] == Sea <==> g[y][x] == Sea)
  {
  }

  /** The inner loop of the trail capture. */
  method HardenRow(row: seq<Field>) returns (r: seq<Field>)
    ensures r == HardenedRow(row)
  {
    r := row;
    for x := 0 to |row|
      invariant |r| == |row|
      invariant forall i :: 0 <= i < x ==> r[i] == (if row[i] == Sand then Land else row[i])
      invariant forall i :: x <= i < |row| ==> r[i] == row[i]
    {
      if r[x] == Sand {
        r := r[x := Land];
      }
    }
  }

  /** The board with the field at (x, y) replaced. */
  function With(g: Grid, x: int, y: int, f: Field): (r: Grid)
    requires Rectangular(g) && InBounds(x, y)
    ensures Rectangular(r)
    ensures forall j, i :: 0 <= j < HEIGHT && 0 <= i < WIDTH ==> r[j][i] == if j == y && i == x then f else g[j][i]
  {
    g[y := g[y][x := f]]
  }

  // ---------------------------------------------------------------------------
  // The player's move, as a function of the board and the player

  /** What a player move produces: the new board and player, and whether the
      move succeeded. */
  datatype Step = Step(board: Grid, player: Actor, ok: bool)

  function PlayerStep(g: Grid, p: Actor): (s: Step)
    requires Rectangular(g) && InBounds(p.x, p.y)
    ensures Rectangular(s.board)
  {
    var x, y := p.x + p.dx, p.y + p.dy;
    if !InBounds(x, y) then Step(g, p.(dx := 0, dy := 0), true)
    else if g[p.y][p.x] != Sea then Step(g, p.(x := x, y := y), true)
    else
      var g1 := With(g, p.x, p.y, Sand);
      if g1[y][x] == Land then
        HardenedCells(g1);
        Step(Hardened(g1), Actor(x, y, 0, 0), true)
      else if g1[y][x] == Sand then Step(g1, p, false)
      else Step(g1, p.(x := x, y := y), true)
  }

  /** The cases of `move_player`, field by field:
      - a target off the board stops the player where it is;
      - from a field that is not Sea the player just moves;
      - leaving Sea lays trail on the field left; reaching Land then stops
        the player there and turns the whole trail, the field left included,
        into Land; reaching trail fails with the player still in place. */
  lemma PlayerStepCases(g: Grid, p: Actor)
    requires Rectangular(g) && InBounds(p.x, p.y)
    ensures var s, x, y := PlayerStep(g, p), p.x + p.dx, p.y + p.dy;
      && (!InBounds(x, y) ==> s.ok && s.board == g && s.player == Actor(p.x, p.y, 0, 0))
      && (InBounds(x, y) && g[p.y][p.x] != Sea ==> s.ok && s.board == g && s.player == Actor(x, y, p.dx, p.dy))
      && (InBounds(x, y) && g[p.y][p.x] == Sea && (x, y) != (p.x, p.y) && g[y][x] == Land ==>
            && s.ok && s.player == Actor(x, y, 0, 0)
            && forall j, i :: 0 <= j < HEIGHT && 0 <= i < WIDTH ==>
                 && s.board[j][i] != Sand
                 && (s.board[j][i] == Land <==> g[j][i] != Sea || (j, i) == (p.y, p.x)))
      && (InBounds(x, y) && g[p.y][p.x] == Sea && ((x, y) == (p.x, p.y) || g[y][x] == Sand) ==>
            && !s.ok && s.player == p
            && s.board == With(g, p.x, p.y, Sand))
      && (InBounds(x, y) && g[p.y][p.x] == Sea && (x, y) != (p.x, p.y) && g[y][x] == Sea ==>
            && s.ok && s.player == Actor(x, y, p.dx, p.dy)
            && s.board == With(g, p.x, p.y, Sand))
  {
    var x, y := p.x + p.dx, p.y + p.dy;
    if InBounds(x, y) && g[p.y][p.x] == Sea {
      HardenedCells(With(g, p.x, p.y, Sand));
    }
  }

  /** The player stays on the board and the border stays Land. */
  lemma PlayerStepKeepsBoard(g: Grid, p: Actor)
    requires Rectangular(g) && Bordered(g) && InBounds(p.x, p.y)
    ensures var s := PlayerStep(g, p);
      Bordered(s.board) && InBounds(s.player.x, s.player.y)
  {
    var x, y := p.x + p.dx, p.y + p.dy;
    if InBounds(x, y) && g[p.y][p.x] == Sea {
      assert !OnBorder(p.x, p.y);
      HardenedCells(With(g, p.x, p.y, Sand));
    }
  }

  // ---------------------------------------------------------------------------
  // The sea enemies

  /** The fields `move_sea_enemies` looks at are on the board. */
  predicate LookupsInBounds(e: Actor) {
    InBounds(e.x, e.y) && InBounds(e.x + e.dx, e.y) && InBounds(e.x, e.y + e.dy)
  }

  /** `move_sea_enemies` for one enemy, corrected: reverse horizontally if
      the horizontal neighbour is Land, vertically if the vertical neighbour
      is Land, then move by the new velocity and keep it. */
  function SeaStep(g: Grid, e: Actor): (r: Actor)
    requires Rectangular(g) && LookupsInBounds(e)
    ensures (r.dx == e.dx || r.dx == -e.dx) && (r.dy == e.dy || r.dy == -e.dy)
    ensures r.x == e.x + r.dx && r.y == e.y + r.dy
    ensures r.dx != e.dx ==> g[e.y][e.x + e.dx] == Land
    ensures r.dy != e.dy ==> g[e.y + e.dy][e.x] == Land
    ensures g[e.y][e.x + e.dx] == Land ==> r.dx == -e.dx
    ensures g[e.y + e.dy][e.x] == Land ==> r.dy == -e.dy
  {
    var dx := if g[e.y][e.x + e.dx] == Land then -e.dx else e.dx;
    var dy := if g[e.y + e.dy][e.x] == Land then -e.dy else e.dy;
    Actor(e.x + dx, e.y + dy, dx, dy)
  }

  /** Where a sea enemy can be between two ticks: at most one field into the
      border and moving diagonally. One field into the border it still
      points outward, so its next look-up is on the outer Land ring and
      bounces it back: it never heads further out than that look-up. */
  predicate SeaSafe(e: Actor) {
    && 1 <= e.x <= WIDTH - 2 && 1 <= e.y <= HEIGHT - 2
    && (e.dx == 1 || e.dx == -1) && (e.dy == 1 || e.dy == -1)
    && (e.x == 1 ==> e.dx == -1) && (e.x == WIDTH - 2 ==> e.dx == 1)
    && (e.y == 1 ==> e.dy == -1) && (e.y == HEIGHT - 2 ==> e.dy == 1)
  }

  /** Unlike the three-look-up bounce of the current play screen, this one
      can never walk a sea enemy off the board: from a safe place every
      look-up is on the board and the enemy ends in a safe place again. */
  lemma SeaStepSafe(g: Grid, e: Actor)
    requires Rectangular(g) && Bordered(g) && SeaSafe(e)
    ensures LookupsInBounds(e) && SeaSafe(SeaStep(g, e))
  {
    var x, y := e.x + e.dx, e.y + e.dy;
    if g[e.y][x] != Land {
      assert !OnBorder(x, e.y);
    }
    if g[y][e.x] != Land {
      assert !OnBorder(e.x, y);
    }
  }

  /** `move_sea_enemies` for one enemy as written: the reversed velocity is
      used for this move only and never stored back, so the enemy goes on
      heading the old way. */
  function SeaStepAsWritten(g: Grid, e: Actor): (r: Actor)
    requires Rectangular(g) && LookupsInBounds(e)
    ensures r.dx == e.dx && r.dy == e.dy
    ensures r.x == SeaStep(g, e).x && r.y == SeaStep(g, e).y
  {
    var dx := if g[e.y][e.x + e.dx] == Land then -e.dx else e.dx;
    var dy := if g[e.y + e.dy][e.x] == Land then -e.dy else e.dy;
    Actor(e.x + dx, e.y + dy, e.dx, e.dy)
  }

  /** As written, the starting sea enemy does not bounce off the bottom
      border of the initial board: three moves bring it to (5, 5), the next
      one goes up to (6, 4) but still heads down, and the one after that
      goes back down to (7, 5). The corrected move heads up from (6, 4). */
  lemma LegacySeaEnemySkimsBorder()
    ensures var g, e := InitialBoard(), Actor(2, 2, 1, 1);
      && SeaStepAsWritten(g, SeaStepAsWritten(g, SeaStepAsWritten(g, e))) == Actor(5, 5, 1, 1)
      && SeaStepAsWritten(g, Actor(5, 5, 1, 1)) == Actor(6, 4, 1, 1)
      && SeaStepAsWritten(g, Actor(6, 4, 1, 1)) == Actor(7, 5, 1, 1)
      && SeaStep(g, Actor(5, 5, 1, 1)) == Actor(6, 4, 1, -1)
      && SeaStep(g, Actor(6, 4, 1, -1)) == Actor(7, 3, 1, -1)
  {
    var g := InitialBoard();
    assert g[2][3] == Sea && g[3][2] == Sea && g[3][4] == Sea && g[4][3] == Sea;
    assert g[4][5] == Sea && g[5][4] == Sea && g[5][6] == Sea && g[6][5] == Land;
    assert g[4][7] == Sea && g[5][6] == Sea && g[3][6] == Sea;
  }

  /** As written, once (3, 2) and (2, 3) are Land the starting sea enemy
      walks out of the board through the top left corner: (1, 1), (0, 0),
      (-1, -1), where the next look-ups are off the board. The corrected
      move turns it round at (1, 1). */
  lemma LegacySeaEnemyLeavesBoard()
    ensures var g := With(With(InitialBoard(), 3, 2, Land), 2, 3, Land);
      var e := Actor(2, 2, 1, 1);
      && Bordered(g) && SeaSafe(e)
      && SeaStepAsWritten(g, e) == Actor(1, 1, 1, 1)
      && SeaStepAsWritten(g, Actor(1, 1, 1, 1)) == Actor(0, 0, 1, 1)
      && SeaStepAsWritten(g, Actor(0, 0, 1, 1)) == Actor(-1, -1, 1, 1)
      && !LookupsInBounds(Actor(-1, -1, 1, 1))
      && SeaStep(g, e) == Actor(1, 1, -1, -1) && SeaSafe(SeaStep(g, e))
  {
    var g0 := InitialBoard();
    InitialBoardBordered();
    var g := With(With(g0, 3, 2, Land), 2, 3, Land);
    assert g[2][3] == Land && g[3][2] == Land && g[1][2] == Land && g[2][1] == Land;
    assert g[0][1] == Land && g[1][0] == Land;
  }

  function SeaStepAll(g: Grid, sea: seq<Actor>): (r: seq<Actor>)
    requires Rectangular(g) && forall i :: 0 <= i < |sea| ==> LookupsInBounds(sea[i])
    ensures |r| == |sea| && forall i :: 0 <= i < |r| ==> r[i] == SeaStep(g, sea[i])
  {
    seq(|sea|, i requires 0 <= i < |sea| => SeaStep(g, sea[i]))
  }

  predicate AllSafe(sea: seq<Actor>) {
    forall i :: 0 <= i < |sea| ==> SeaSafe(sea[i])
  }

  /** A whole move of the sea enemies keeps all of them safe. */
  lemma SeaStepAllSafe(g: Grid, sea: seq<Actor>)
    requires Rectangular(g) && Bordered(g) && AllSafe(sea)
    ensures forall i :: 0 <= i < |sea| ==> LookupsInBounds(sea[i])
    ensures AllSafe(SeaStepAll(g, sea))
  {
    forall i | 0 <= i < |sea| ensures LookupsInBounds(sea[i]) && SeaSafe(SeaStep(g, sea[i])) {
      SeaStepSafe(g, sea[i]);
    }
  }

  // ---------------------------------------------------------------------------
  // The play screen object

  class PlayState {
    var player: Actor
    var seaEnemies: seq<Actor>
    var landEnemies: seq<Actor>
    var board: Grid

    ghost predicate Valid()
      reads this
    {
      Rectangular(board) && Bordered(board) && InBounds(player.x, player.y) && AllSafe(seaEnemies)
    }

    /** `new`: the bordered board, a stopped player in the top left corner,
        one sea enemy at (2, 2) and one land enemy at the top middle, both
        heading down and right. */
    constructor ()
      ensures Valid() && board == InitialBoard()
      ensures player == Actor(0, 0, 0, 0)
      ensures seaEnemies == [Actor(2, 2, 1, 1)] && landEnemies == [Actor(WIDTH / 2, 0, 1, 1)]
    {
      var b := BuildBoard();
      InitialBoardBordered();
      player := Actor(0, 0, 0, 0);
      seaEnemies := [Actor(2, 2, 1, 1)];
      landEnemies := [Actor(WIDTH / 2, 0, 1, 1)];
      board := b;
    }

    /** The nested loops of the capture in `move_player`. */
    method HardenTrail()
      requires Rectangular(board)
      modifies this`board
      ensures board == Hardened(old(board))
    {
      var rows := board;
      for y := 0 to |rows|
        invariant |rows| == |board| == HEIGHT && board == old(board)
        invariant forall j :: 0 <= j < y ==> rows[j] == HardenedRow(board[j])
        invariant forall j :: y <= j < |rows| ==> rows[j] == board[j]
      {
        var row := HardenRow(rows[y]);
        rows := rows[y := row];
      }
      board := rows;
    }

    /** `move_player`: `ok` is false exactly when the player runs into its
        own trail. */
    method MovePlayer() returns (ok: bool)
      requires Valid()
      modifies this`player, this`board
      ensures Valid()
      ensures Step(board, player, ok) == PlayerStep(old(board), old(player))
    {
      PlayerStepKeepsBoard(board, player);
      var x, y := player.x + player.dx, player.y + player.dy;
      if x < 0 || x >= WIDTH || y < 0 || y >= HEIGHT {
        player := player.(dx := 0, dy := 0);
      } else {
        if board[player.y][player.x] == Sea {
          board := board[player.y := board[player.y][player.x := Sand]];
          if board[y][x] == Land {
            player := player.(dx := 0, dy := 0);
            HardenTrail();
          } else if board[y][x] == Sand {
            return false;
          }
        }
        player := player.(x := x, y := y);
      }
      ok := true;
    }

    /** The loop of `move_sea_enemies`, on a copy of the enemies. */
    method MovedSeaEnemies() returns (es: seq<Actor>)
      requires Rectangular(board) && forall i :: 0 <= i < |seaEnemies| ==> LookupsInBounds(seaEnemies[i])
      ensures es == SeaStepAll(board, seaEnemies)
    {
      es := seaEnemies;
      for i := 0 to |es|
        invariant |es| == |seaEnemies|
        invariant forall j :: 0 <= j < i ==> es[j] == SeaStep(board, seaEnemies[j])
        invariant forall j :: i <= j < |es| ==> es[j] == seaEnemies[j]
      {
        var e := es[i];
        var dx, dy := e.dx, e.dy;
        if board[e.y][e.x + dx] == Land {
          dx := -dx;
        }
        if board[e.y + dy][e.x] == Land {
          dy := -dy;
        }
        es := es[i := Actor(e.x + dx, e.y + dy, dx, dy)];
      }
    }

    /** `move_sea_enemies`: every sea enemy bounces and moves; it never fails. */
    method MoveSeaEnemies()
      requires Valid()
      modifies this`seaEnemies
      ensures Valid()
      ensures seaEnemies == SeaStepAll(board, old(seaEnemies))
    {
      SeaStepAllSafe(board, seaEnemies);
      var es := MovedSeaEnemies();
      seaEnemies := es;
    }

    /** `move_actors`: the player, then, unless the player failed, the sea
        enemies on the board the player left behind. */
    method MoveActors() returns (ok: bool)
      requires Valid()
      modifies this`player, this`board, this`seaEnemies
      ensures Valid()
      ensures var s := PlayerStep(old(board), old(player));
        && ok == s.ok && board == s.board && player == s.player
        && seaEnemies == if ok then SeaStepAll(board, old(seaEnemies)) else old(seaEnemies)
    {
      ok := MovePlayer();
      if !ok {
        return;
      }
      MoveSeaEnemies();
    }

    /** `update`: `gameOver` stands for the game-over screen the original
        returns, exactly when the actors could not move. */
    method Update() returns (gameOver: bool)
      requires Valid()
      modifies this`player, this`board, this`seaEnemies
      ensures Valid()
      ensures var s := PlayerStep(old(board), old(player));
        && gameOver == !s.ok && board == s.board && player == s.player
        && seaEnemies == if gameOver then old(seaEnemies) else SeaStepAll(board, old(seaEnemies))
    {
      var ok := MoveActors();
      gameOver := !ok;
    }

    /** `handle_event`: an arrow sets the player's velocity to the matching
        unit vector, anything else is ignored. */
    method HandleEvent(e: Event)
      requires Valid()
      modifies this`player
      ensures Valid()
      ensures player.x == old(player.x) && player.y == old(player.y)
      ensures e == Up ==> player.dx == 0 && player.dy == -1
      ensures e == Down ==> player.dx == 0 && player.dy == 1
      ensures e == Left ==> player.dx == -1 && player.dy == 0
      ensures e == Right ==> player.dx == 1 && player.dy == 0
      ensures e == Tick || e == Quit ==> player == old(player)
    {
      match e {
        case Up => player := player.(dx := 0, dy := -1);
        case Down => player := player.(dx := 0, dy := 1);
        case Left => player := player.(dx := -1, dy := 0);
        case Right => player := player.(dx := 1, dy := 0);
        case _ =>
      }
    }
  }
}
