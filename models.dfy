/** The board: a rectangular grid of fields with a two-cell Land border,
    and the capture algorithm (a breadth-first flood from every sea enemy
    followed by a sweep that turns unreached water into Land). */
module Models {
  import opened Geometry

  datatype Field = Land | Sea | DeepSea | Sand

  /** Rows of cells, indexed `g[y][x]`. */
  type Grid = seq<seq<Field>>

  predicate InGrid(g: Grid, p: Position) {
    0 <= p.y < |g| && 0 <= p.x < |g[p.y]|
  }

  function Cell(g: Grid, p: Position): Field
    requires InGrid(g, p)
  {
    g[p.y][p.x]
  }

  predicate Rectangular(g: Grid, w: int, h: int) {
    |g| == h && forall y :: 0 <= y < h ==> |g[y]| == w
  }

  /** Inside the two-cell border: [2, w-2) x [2, h-2). */
  predicate Interior(p: Position, w: int, h: int) {
    2 <= p.x < w - 2 && 2 <= p.y < h - 2
  }

  /** Every cell that is not Land lies in the interior, i.e. the border is Land. */
  predicate Bordered(g: Grid, w: int, h: int)
    requires Rectangular(g, w, h)
  {
    forall y, x :: 0 <= y < h && 0 <= x < w && g[y][x] != Land ==> Interior(Position(x, y), w, h)
  }

  predicate NoDeepSea(g: Grid) {
    forall y, x :: 0 <= y < |g| && 0 <= x < |g[y]| ==> g[y][x] != DeepSea
  }

  // ---------------------------------------------------------------------------
  // Connectivity and the specification of a capture

  /** q is one of the four orthogonal neighbours of p. */
  predicate Adjacent(p: Position, q: Position) {
    q == Position(p.x, p.y - 1) || q == Position(p.x, p.y + 1) ||
    q == Position(p.x - 1, p.y) || q == Position(p.x + 1, p.y)
  }

  /** A non-empty walk through orthogonally adjacent Sea cells of `g`. */
  ghost predicate SeaPath(g: Grid, path: seq<Position>) {
    && |path| > 0
    && (forall k :: 0 <= k < |path| ==> InGrid(g, path[k]) && Cell(g, path[k]) == Sea)
    && (forall k :: 0 <= k < |path| - 1 ==> Adjacent(path[k], path[k + 1]))
  }

  /** `p` is reached from one of `sources` through Sea cells of `g`
      (the source itself must be Sea). */
  ghost predicate Connected(g: Grid, sources: seq<Position>, p: Position) {
    exists path :: SeaPath(g, path) && path[0] in sources && path[|path| - 1] == p
  }

  /** What a capture does to one cell: water reached from a source stays Sea,
      every other Sea or Sand cell becomes Land, a stray DeepSea reverts to Sea. */
  ghost function FilledCell(g: Grid, sources: seq<Position>, p: Position): Field
    requires InGrid(g, p)
  {
    match Cell(g, p)
    case Sea => if Connected(g, sources, p) then Sea else Land
    case DeepSea => Sea
    case Sand => Land
    case Land => Land
  }

  /** The grid a capture from `sources` produces (reference definition). */
  ghost function Filled(g: Grid, sources: seq<Position>): Grid {
    seq(|g|, y requires 0 <= y < |g| =>
      seq(|g[y]|, x requires 0 <= x < |g[y]| => FilledCell(g, sources, Position(x, y))))
  }

  /** Reverting a trail: every Sand cell back to Sea. */
  function CleanedCell(f: Field): Field {
    if f == Sand then Sea else f
  }

  function Cleaned(g: Grid): Grid {
    seq(|g|, y requires 0 <= y < |g| => seq(|g[y]|, x requires 0 <= x < |g[y]| => CleanedCell(g[y][x])))
  }

  /** Extending a walk by one adjacent Sea cell keeps it connected. */
  lemma ConnectedStep(g: Grid, sources: seq<Position>, p: Position, n: Position)
    requires Connected(g, sources, p)
    requires Adjacent(p, n) && InGrid(g, n) && Cell(g, n) == Sea
    ensures Connected(g, sources, n)
  {
    var path :| SeaPath(g, path) && path[0] in sources && path[|path| - 1] == p;
    var longer := path + [n];
    assert SeaPath(g, longer);
    assert longer[0] in sources && longer[|longer| - 1] == n;
  }

  /** Every cell on a walk from a source is itself connected to that source. */
  lemma PathCellsConnected(g: Grid, sources: seq<Position>, path: seq<Position>, k: int)
    requires SeaPath(g, path) && path[0] in sources && 0 <= k < |path|
    ensures Connected(g, sources, path[k])
  {
    var prefix := path[..k + 1];
    assert SeaPath(g, prefix);
    assert prefix[0] == path[0] && prefix[|prefix| - 1] == path[k];
  }

  // ---------------------------------------------------------------------------
  // The flood's invariants, relating the grid before the capture (g0), the
  // current grid G and the pending queue q of the breadth-first search.

  /** G differs from g0 only by Sea cells that have been marked DeepSea. */
  ghost predicate Evolved(g0: Grid, G: Grid) {
    && |G| == |g0|
    && (forall y :: 0 <= y < |g0| ==> |G[y]| == |g0[y]|)
    && (forall y, x :: 0 <= y < |g0| && 0 <= x < |g0[y]| ==>
          G[y][x] == g0[y][x] || (g0[y][x] == Sea && G[y][x] == DeepSea))
  }

  /** Soundness: every marked cell is reached from a source through g0's Sea. */
  ghost predicate MarkedConnected(g0: Grid, sources: seq<Position>, G: Grid) {
    forall y, x :: 0 <= y < |G| && 0 <= x < |G[y]| && G[y][x] == DeepSea ==>
      Connected(g0, sources, Position(x, y))
  }

  /** Neighbour p of a marked cell is inside the grid and is either not Sea
      (already marked, or not water) or still waiting in the queue. */
  ghost predicate Handled(G: Grid, q: seq<Position>, p: Position) {
    InGrid(G, p) && (Cell(G, p) != Sea || p in q)
  }

  /** All four neighbours of `p` are handled. */
  ghost predicate AllHandled(G: Grid, q: seq<Position>, p: Position) {
    && Handled(G, q, Position(p.x, p.y - 1)) && Handled(G, q, Position(p.x, p.y + 1))
    && Handled(G, q, Position(p.x - 1, p.y)) && Handled(G, q, Position(p.x + 1, p.y))
  }

  /** Closure: no marked cell has an unmarked Sea neighbour that is not queued. */
  ghost predicate Closed(G: Grid, q: seq<Position>) {
    forall y, x :: 0 <= y < |G| && 0 <= x < |G[y]| && G[y][x] == DeepSea ==> AllHandled(G, q, Position(x, y))
  }

  /** Every queued position is inside the grid, and is connected if it is water. */
  ghost predicate QueueSound(g0: Grid, sources: seq<Position>, q: seq<Position>) {
    forall k :: 0 <= k < |q| ==>
      InGrid(g0, q[k]) && (Cell(g0, q[k]) == Sea ==> Connected(g0, sources, q[k]))
  }

  ghost predicate FloodInvariant(g0: Grid, sources: seq<Position>, w: int, h: int, G: Grid, q: seq<Position>) {
    && Rectangular(g0, w, h) && Bordered(g0, w, h) && NoDeepSea(g0)
    && Evolved(g0, G) && MarkedConnected(g0, sources, G)
    && Closed(G, q) && QueueSound(g0, sources, q)
  }

  /** The four neighbours in the order the flood queues them. */
  function Neighbours(p: Position): seq<Position> {
    [Position(p.x, p.y - 1), Position(p.x, p.y + 1), Position(p.x - 1, p.y), Position(p.x + 1, p.y)]
  }

  /** The grid with the one field at `p` replaced by `f`. */
  function With(g: Grid, p: Position, f: Field): (r: Grid)
    requires InGrid(g, p)
    ensures |r| == |g| && forall y :: 0 <= y < |g| ==> |r[y]| == |g[y]|
    ensures forall y, x :: 0 <= y < |g| && 0 <= x < |g[y]| ==> r[y][x] == if y == p.y && x == p.x then f else g[y][x]
  {
    g[p.y := g[p.y][p.x := f]]
  }

  /** Marking a field visited: `With(G, p, DeepSea)`, spelled out without
      `With`'s field-by-field postcondition so that the flood proofs below do
      not have to instantiate it (`MarkIsWith` relates the two). */
  function Mark(G: Grid, p: Position): Grid
    requires InGrid(G, p)
  {
    G[p.y := G[p.y][p.x := DeepSea]]
  }

  lemma MarkIsWith(G: Grid, p: Position)
    requires InGrid(G, p)
    ensures Mark(G, p) == With(G, p, DeepSea)
  {
  }


  /** The Sea cells of a grid (the flood's termination measure). */
  ghost function SeaCells(G: Grid): set<Position> {
    set y, x | 0 <= y < |G| && 0 <= x < |G[y]| && G[y][x] == Sea :: Position(x, y)
  }

  /** Popping a Sea cell, marking it and queueing its neighbours keeps the
      invariant, and shrinks the set of Sea cells. */
  lemma MarkStep(g0: Grid, sources: seq<Position>, w: int, h: int, G: Grid, q: seq<Position>)
    requires FloodInvariant(g0, sources, w, h, G, q)
    requires |q| > 0 && InGrid(G, q[0]) && Cell(G, q[0]) == Sea
    ensures FloodInvariant(g0, sources, w, h, Mark(G, q[0]), q[1..] + Neighbours(q[0]))
    ensures SeaCells(Mark(G, q[0])) < SeaCells(G)
  {
    var p := q[0];
    assert Cell(g0, p) == Sea;
    assert Interior(p, w, h);
    assert Connected(g0, sources, p);
    MarkEvolved(g0, G, p);
    MarkConnected(g0, sources, G, p);
    MarkQueueSound(g0, sources, w, h, q);
    MarkClosed(G, q);
    MarkShrinks(G, p);
  }

  lemma MarkEvolved(g0: Grid, G: Grid, p: Position)
    requires Evolved(g0, G) && InGrid(G, p) && Cell(G, p) == Sea
    ensures Evolved(g0, Mark(G, p))
  {
    var G' := Mark(G, p);
    forall y, x | 0 <= y < |g0| && 0 <= x < |g0[y]|
      ensures G'[y][x] == g0[y][x] || (g0[y][x] == Sea && G'[y][x] == DeepSea)
    {
      if y == p.y && x == p.x {
      } else {
        assert G'[y][x] == G[y][x];
      }
    }
  }

  lemma MarkConnected(g0: Grid, sources: seq<Position>, G: Grid, p: Position)
    requires MarkedConnected(g0, sources, G) && InGrid(G, p) && Connected(g0, sources, p)
    ensures MarkedConnected(g0, sources, Mark(G, p))
  {
    var G' := Mark(G, p);
    forall y, x | 0 <= y < |G'| && 0 <= x < |G'[y]| && G'[y][x] == DeepSea
      ensures Connected(g0, sources, Position(x, y))
    {
      if y != p.y || x != p.x {
        assert G[y][x] == DeepSea;
      }
    }
  }

  lemma MarkQueueSound(g0: Grid, sources: seq<Position>, w: int, h: int, q: seq<Position>)
    requires Rectangular(g0, w, h) && QueueSound(g0, sources, q)
    requires |q| > 0 && Interior(q[0], w, h) && Connected(g0, sources, q[0])
    ensures QueueSound(g0, sources, q[1..] + Neighbours(q[0]))
  {
    var p := q[0];
    var q' := q[1..] + Neighbours(p);
    forall k | 0 <= k < |q'|
      ensures InGrid(g0, q'[k]) && (Cell(g0, q'[k]) == Sea ==> Connected(g0, sources, q'[k]))
    {
      if k < |q| - 1 {
        assert q'[k] == q[k + 1];
      } else {
        var n := q'[k];
        assert n in Neighbours(p);
        assert Adjacent(p, n);
        if Cell(g0, n) == Sea {
          ConnectedStep(g0, sources, p, n);
        }
      }
    }
  }

  lemma MarkClosed(G: Grid, q: seq<Position>)
    requires Closed(G, q) && |q| > 0 && InGrid(G, q[0]) && Cell(G, q[0]) == Sea
    requires forall n :: n in Neighbours(q[0]) ==> InGrid(G, n)
    ensures Closed(Mark(G, q[0]), q[1..] + Neighbours(q[0]))
  {
    var G' := Mark(G, q[0]);
    forall y, x | 0 <= y < |G'| && 0 <= x < |G'[y]| && G'[y][x] == DeepSea
      ensures AllHandled(G', q[1..] + Neighbours(q[0]), Position(x, y))
    {
      if y == q[0].y && x == q[0].x {
        MarkedCellHandled(G, q);
      } else {
        assert G[y][x] == DeepSea;
        OtherCellHandled(G, q, Position(x, y));
      }
    }
  }

  /** The freshly marked cell's neighbours are all queued. */
  lemma MarkedCellHandled(G: Grid, q: seq<Position>)
    requires |q| > 0 && InGrid(G, q[0])
    requires forall n :: n in Neighbours(q[0]) ==> InGrid(G, n)
    ensures AllHandled(Mark(G, q[0]), q[1..] + Neighbours(q[0]), q[0])
  {
    var p := q[0];
    var G' := Mark(G, p);
    var q' := q[1..] + Neighbours(p);
    forall n | n in Neighbours(p) ensures Handled(G', q', n) {
      assert InGrid(G, n);
      assert |G'[n.y]| == |G[n.y]|;
      assert n in q';
    }
    assert Position(p.x, p.y - 1) in Neighbours(p) && Position(p.x, p.y + 1) in Neighbours(p);
    assert Position(p.x - 1, p.y) in Neighbours(p) && Position(p.x + 1, p.y) in Neighbours(p);
  }

  /** A cell marked before keeps its neighbours handled. */
  lemma OtherCellHandled(G: Grid, q: seq<Position>, c: Position)
    requires |q| > 0 && InGrid(G, q[0]) && AllHandled(G, q, c)
    ensures AllHandled(Mark(G, q[0]), q[1..] + Neighbours(q[0]), c)
  {
    var p := q[0];
    HandledAfterMark(G, q, p, Position(c.x, c.y - 1));
    HandledAfterMark(G, q, p, Position(c.x, c.y + 1));
    HandledAfterMark(G, q, p, Position(c.x - 1, c.y));
    HandledAfterMark(G, q, p, Position(c.x + 1, c.y));
  }

  lemma MarkShrinks(G: Grid, p: Position)
    requires InGrid(G, p) && Cell(G, p) == Sea
    ensures SeaCells(Mark(G, p)) < SeaCells(G)
  {
    var G' := Mark(G, p);
    assert p in SeaCells(G);
    assert p !in SeaCells(G');
    forall c | c in SeaCells(G') ensures c in SeaCells(G) {
      assert G'[c.y][c.x] == Sea;
      assert G[c.y][c.x] == Sea;
    }
  }

  lemma HandledAfterMark(G: Grid, q: seq<Position>, p: Position, n: Position)
    requires |q| > 0 && p == q[0] && InGrid(G, p)
    requires Handled(G, q, n)
    ensures Handled(Mark(G, p), q[1..] + Neighbours(p), n)
  {
    if n != p && Cell(G, n) == Sea {
      assert Cell(Mark(G, p), n) == Sea;
      assert n in q[1..];
    }
  }

  /** Marking the head of the queue keeps the grid an evolution of the one
      the flood started from, and keeps the origin either marked or queued. */
  lemma MarkTracks(g1: Grid, G: Grid, q: seq<Position>, s: Position)
    requires Evolved(g1, G) && |q| > 0 && InGrid(G, q[0]) && Cell(G, q[0]) == Sea
    requires InGrid(G, s) && (Cell(G, s) != Sea || s in q)
    ensures Evolved(g1, Mark(G, q[0])) && InGrid(Mark(G, q[0]), s)
    ensures Cell(Mark(G, q[0]), s) != Sea || s in q[1..] + Neighbours(q[0])
  {
    MarkEvolved(g1, G, q[0]);
    if s != q[0] && Cell(G, s) == Sea {
      assert s in q[1..];
    }
  }

  lemma SkipTracks(G: Grid, q: seq<Position>, s: Position)
    requires |q| > 0 && InGrid(G, q[0]) && Cell(G, q[0]) != Sea
    requires InGrid(G, s) && (Cell(G, s) != Sea || s in q)
    ensures Cell(G, s) != Sea || s in q[1..]
  {
    if Cell(G, s) == Sea {
      assert s != q[0];
    }
  }

  /** Popping a cell that is no longer Sea changes nothing but the queue. */
  lemma SkipStep(g0: Grid, sources: seq<Position>, w: int, h: int, G: Grid, q: seq<Position>)
    requires FloodInvariant(g0, sources, w, h, G, q)
    requires |q| > 0 && InGrid(G, q[0]) && Cell(G, q[0]) != Sea
    ensures FloodInvariant(g0, sources, w, h, G, q[1..])
  {
    SkipClosed(G, q);
    forall k | 0 <= k < |q| - 1
      ensures InGrid(g0, q[1..][k]) && (Cell(g0, q[1..][k]) == Sea ==> Connected(g0, sources, q[1..][k]))
    {
      assert q[1..][k] == q[k + 1];
    }
  }

  lemma SkipClosed(G: Grid, q: seq<Position>)
    requires Closed(G, q) && |q| > 0 && InGrid(G, q[0]) && Cell(G, q[0]) != Sea
    ensures Closed(G, q[1..])
  {
    forall y, x | 0 <= y < |G| && 0 <= x < |G[y]| && G[y][x] == DeepSea
      ensures AllHandled(G, q[1..], Position(x, y))
    {
      SkippedCellHandled(G, q, Position(x, y));
    }
  }

  /** A marked cell keeps its neighbours handled when a non-Sea cell is popped. */
  lemma SkippedCellHandled(G: Grid, q: seq<Position>, c: Position)
    requires |q| > 0 && InGrid(G, q[0]) && Cell(G, q[0]) != Sea
    requires AllHandled(G, q, c)
    ensures AllHandled(G, q[1..], c)
  {
    HandledAfterSkip(G, q, Position(c.x, c.y - 1));
    HandledAfterSkip(G, q, Position(c.x, c.y + 1));
    HandledAfterSkip(G, q, Position(c.x - 1, c.y));
    HandledAfterSkip(G, q, Position(c.x + 1, c.y));
  }

  lemma HandledAfterSkip(G: Grid, q: seq<Position>, n: Position)
    requires |q| > 0 && InGrid(G, q[0]) && Cell(G, q[0]) != Sea
    requires Handled(G, q, n)
    ensures Handled(G, q[1..], n)
  {
    if Cell(G, n) == Sea {
      assert n != q[0];
      assert n in q[1..];
    }
  }

  /** The neighbours of a marked cell in a closed grid are all handled. */
  lemma ClosedAt(G: Grid, q: seq<Position>, b: Position, n: Position)
    requires Closed(G, q) && InGrid(G, b) && Cell(G, b) == DeepSea && Adjacent(b, n)
    ensures Handled(G, q, n)
  {
  }

  /** Completeness: once every source is marked and no marked cell has an
      unqueued Sea neighbour, every cell connected in g0 is marked. */
  lemma FloodComplete(g0: Grid, sources: seq<Position>, G: Grid, p: Position)
    requires Evolved(g0, G) && Closed(G, [])
    requires forall j :: 0 <= j < |sources| ==> InGrid(G, sources[j]) && Cell(G, sources[j]) != Sea
    requires Connected(g0, sources, p)
    ensures InGrid(G, p) && Cell(G, p) == DeepSea
  {
    var path :| SeaPath(g0, path) && path[0] in sources && path[|path| - 1] == p;
    PathMarked(g0, sources, G, path, |path| - 1);
  }

  lemma {:induction false} PathMarked(g0: Grid, sources: seq<Position>, G: Grid, path: seq<Position>, k: int)
    requires Evolved(g0, G) && Closed(G, [])
    requires forall j :: 0 <= j < |sources| ==> InGrid(G, sources[j]) && Cell(G, sources[j]) != Sea
    requires SeaPath(g0, path) && path[0] in sources && 0 <= k < |path|
    ensures InGrid(G, path[k]) && Cell(G, path[k]) == DeepSea
    decreases k
  {
    var c := path[k];
    assert InGrid(g0, c) && Cell(g0, c) == Sea;
    if k == 0 {
      var j :| 0 <= j < |sources| && sources[j] == c;
      assert Cell(G, c) != Sea;
    } else {
      PathMarked(g0, sources, G, path, k - 1);
      assert Adjacent(path[k - 1], c);
      ClosedAt(G, [], path[k - 1], c);
    }
  }

  /** What the sweep after the floods does to one cell. */
  function Swept(f: Field): Field {
    match f
    case DeepSea => Sea
    case Sea => Land
    case Sand => Land
    case Land => Land
  }

  function SweptRow(row: seq<Field>): seq<Field> {
    seq(|row|, x requires 0 <= x < |row| => Swept(row[x]))
  }

  function SweptGrid(G: Grid): Grid {
    seq(|G|, y requires 0 <= y < |G| => SweptRow(G[y]))
  }

  /** The inner loop of the sweep after a capture: turn one row's marks into
      Sea and everything else into Land, counting the Sea fields. */
  method SweepRow(row: seq<Field>) returns (r: seq<Field>, n: nat)
    ensures r == SweptRow(row) && n == CountRow(r, Sea)
  {
    r := row;
    n := 0;
    var x := 0;
    while x < |r|
      invariant 0 <= x <= |r| == |row|
      invariant forall i :: 0 <= i < x ==> r[i] == Swept(row[i])
      invariant forall i :: x <= i < |r| ==> r[i] == row[i]
      invariant n == CountRow(r[..x], Sea)
    {
      ghost var done := r[..x];
      if r[x] == DeepSea {
        r := r[x := Sea];
        n := n + 1;
      } else if r[x] == Sea || r[x] == Sand {
        r := r[x := Land];
      }
      assert r[..x + 1][..x] == done;
      x := x + 1;
    }
    assert r[..|r|] == r == SweptRow(row);
  }

  /** After all floods, sweeping the marked grid yields exactly the capture
      of the reference definition. */
  lemma SweepMatchesFilled(g0: Grid, sources: seq<Position>, w: int, h: int, G: Grid)
    requires FloodInvariant(g0, sources, w, h, G, [])
    requires forall j :: 0 <= j < |sources| ==> InGrid(G, sources[j]) && Cell(G, sources[j]) != Sea
    ensures SweptGrid(G) == Filled(g0, sources)
  {
    var S, F := SweptGrid(G), Filled(g0, sources);
    assert |S| == |F|;
    forall y | 0 <= y < |g0| ensures S[y] == F[y] {
      assert |S[y]| == |F[y]|;
      forall x | 0 <= x < |g0[y]| ensures S[y][x] == F[y][x] {
        SweptCell(g0, sources, G, y, x);
      }
    }
  }

  lemma SweptCell(g0: Grid, sources: seq<Position>, G: Grid, y: int, x: int)
    requires Evolved(g0, G) && MarkedConnected(g0, sources, G) && Closed(G, [])
    requires forall j :: 0 <= j < |sources| ==> InGrid(G, sources[j]) && Cell(G, sources[j]) != Sea
    requires 0 <= y < |g0| && 0 <= x < |g0[y]|
    ensures Swept(G[y][x]) == FilledCell(g0, sources, Position(x, y))
  {
    var p := Position(x, y);
    if g0[y][x] == Sea && Connected(g0, sources, p) {
      FloodComplete(g0, sources, G, p);
    }
  }

  /** A capture leaves no DeepSea and no Sand, keeps every Land cell Land,
      and a cell is Sea afterwards exactly when it was Sea and reached from a
      source through Sea. */
  lemma FilledCells(g: Grid, sources: seq<Position>, y: int, x: int)
    requires NoDeepSea(g) && 0 <= y < |g| && 0 <= x < |g[y]|
    ensures |Filled(g, sources)| == |g| && |Filled(g, sources)[y]| == |g[y]|
    ensures Filled(g, sources)[y][x] != DeepSea && Filled(g, sources)[y][x] != Sand
    ensures g[y][x] == Land ==> Filled(g, sources)[y][x] == Land
    ensures Filled(g, sources)[y][x] == Sea <==> g[y][x] == Sea && Connected(g, sources, Position(x, y))
  {
  }

  /** Capturing twice with the same sources changes nothing the second time. */
  lemma FillIdempotent(g: Grid, sources: seq<Position>)
    requires NoDeepSea(g)
    ensures Filled(Filled(g, sources), sources) == Filled(g, sources)
  {
    var F := Filled(g, sources);
    var F2 := Filled(F, sources);
    forall y | 0 <= y < |g| ensures F2[y] == F[y] {
      forall x | 0 <= x < |g[y]| ensures F2[y][x] == F[y][x] {
        var p := Position(x, y);
        if F[y][x] == Sea {
          assert g[y][x] == Sea && Connected(g, sources, p);
          var path :| SeaPath(g, path) && path[0] in sources && path[|path| - 1] == p;
          forall k | 0 <= k < |path| ensures InGrid(F, path[k]) && Cell(F, path[k]) == Sea {
            PathCellsConnected(g, sources, path, k);
          }
          assert SeaPath(F, path);
          assert Connected(F, sources, p);
        }
      }
    }
  }

  /** Cleaning leaves no Sand and changes nothing but Sand cells (to Sea). */
  lemma CleanedCells(g: Grid, y: int, x: int)
    requires 0 <= y < |g| && 0 <= x < |g[y]|
    ensures |Cleaned(g)| == |g| && |Cleaned(g)[y]| == |g[y]|
    ensures Cleaned(g)[y][x] != Sand
    ensures g[y][x] != Sand ==> Cleaned(g)[y][x] == g[y][x]
    ensures g[y][x] == Sand ==> Cleaned(g)[y][x] == Sea
  {
  }

  // ---------------------------------------------------------------------------
  // Counting cells

  function CountRow(row: seq<Field>, f: Field): nat {
    if |row| == 0 then 0
    else CountRow(row[..|row| - 1], f) + (if row[|row| - 1] == f then 1 else 0)
  }

  /** Number of cells of kind `f` in the grid. */
  function Count(g: Grid, f: Field): nat {
    if |g| == 0 then 0 else Count(g[..|g| - 1], f) + CountRow(g[|g| - 1], f)
  }

  /** A row in which every `f` field of `a` is an `f'` field of `b` has no
      more `f` fields than `b` has `f'` fields. */
  lemma {:induction false} CountRowMonotone(a: seq<Field>, b: seq<Field>, f: Field, f': Field)
    requires |a| == |b| && forall i :: 0 <= i < |a| && a[i] == f ==> b[i] == f'
    ensures CountRow(a, f) <= CountRow(b, f')
    decreases |a|
  {
    if |a| > 0 {
      CountRowMonotone(a[..|a| - 1], b[..|b| - 1], f, f');
    }
  }

  /** The same for whole grids of the same shape. */
  lemma {:induction false} CountMonotone(g: Grid, g': Grid, f: Field, f': Field)
    requires |g| == |g'| && forall y :: 0 <= y < |g| ==> |g[y]| == |g'[y]|
    requires forall y, x :: 0 <= y < |g| && 0 <= x < |g[y]| && g[y][x] == f ==> g'[y][x] == f'
    ensures Count(g, f) <= Count(g', f')
    decreases |g|
  {
    if |g| > 0 {
      var n := |g| - 1;
      CountMonotone(g[..n], g'[..n], f, f');
      CountRowMonotone(g[n], g'[n], f, f');
    }
  }

  /** A grid without any `f` field counts none. */
  lemma {:induction false} CountNone(g: Grid, f: Field)
    requires forall y, x :: 0 <= y < |g| && 0 <= x < |g[y]| ==> g[y][x] != f
    ensures Count(g, f) == 0
    decreases |g|
  {
    if |g| > 0 {
      var n := |g| - 1;
      CountNone(g[..n], f);
      var e := seq(|g[n]|, i => DeepSea);
      CountRowMonotone(g[n], e, f, if f == Land then Sea else Land);
      CountRowEmpty(e, if f == Land then Sea else Land);
    }
  }

  lemma {:induction false} CountRowEmpty(row: seq<Field>, f: Field)
    requires forall i :: 0 <= i < |row| ==> row[i] != f
    ensures CountRow(row, f) == 0
    decreases |row|
  {
    if |row| > 0 {
      CountRowEmpty(row[..|row| - 1], f);
    }
  }

  /** Replacing one field of a row moves it from the count of its old kind
      to the count of its new kind. */
  lemma {:induction false} CountRowUpdate(row: seq<Field>, x: int, v: Field, f: Field)
    requires 0 <= x < |row|
    ensures CountRow(row[x := v], f) + (if row[x] == f then 1 else 0) == CountRow(row, f) + (if v == f then 1 else 0)
    decreases |row|
  {
    var n := |row| - 1;
    if x == n {
      assert row[x := v][..n] == row[..n];
    } else {
      assert row[x := v][..n] == row[..n][x := v];
      CountRowUpdate(row[..n], x, v, f);
    }
  }

  /** Replacing one field of a grid does the same for the grid's count. */
  lemma {:induction false} CountUpdate(g: Grid, p: Position, v: Field, f: Field)
    requires InGrid(g, p)
    ensures Count(With(g, p, v), f) + (if Cell(g, p) == f then 1 else 0) == Count(g, f) + (if v == f then 1 else 0)
    decreases |g|
  {
    var n := |g| - 1;
    var r := With(g, p, v);
    if p.y == n {
      assert r[..n] == g[..n];
      assert r[n] == g[n][p.x := v];
      CountRowUpdate(g[n], p.x, v, f);
    } else {
      assert r[..n] == With(g[..n], p, v);
      assert r[n] == g[n];
      CountUpdate(g[..n], p, v, f);
    }
  }

  /** Cleaning turns every trail field into Sea: the Sea count gains the
      trail count and no trail is left. */
  lemma {:induction false} CountRowCleaned(row: seq<Field>)
    ensures var r := seq(|row|, i requires 0 <= i < |row| => CleanedCell(row[i]));
      CountRow(r, Sea) == CountRow(row, Sea) + CountRow(row, Sand) && CountRow(r, Sand) == 0
    decreases |row|
  {
    var r := seq(|row|, i requires 0 <= i < |row| => CleanedCell(row[i]));
    if |row| > 0 {
      var n := |row| - 1;
      CountRowCleaned(row[..n]);
      assert r[..n] == seq(n, i requires 0 <= i < n => CleanedCell(row[..n][i]));
    }
  }

  lemma {:induction false} CountCleaned(g: Grid)
    ensures Count(Cleaned(g), Sea) == Count(g, Sea) + Count(g, Sand) && Count(Cleaned(g), Sand) == 0
    decreases |g|
  {
    if |g| > 0 {
      var n := |g| - 1;
      CountCleaned(g[..n]);
      assert Cleaned(g)[..n] == Cleaned(g[..n]);
      CountRowCleaned(g[n]);
    }
  }

  /** A capture never hands territory back: it leaves no trail and no more
      Sea than there was. */
  lemma FilledCount(g: Grid, sources: seq<Position>)
    requires NoDeepSea(g)
    ensures Count(Filled(g, sources), Sea) <= Count(g, Sea) && Count(Filled(g, sources), Sand) == 0
  {
    var F := Filled(g, sources);
    forall y, x | 0 <= y < |g| && 0 <= x < |g[y]|
      ensures F[y][x] != Sand && (F[y][x] == Sea ==> g[y][x] == Sea)
    {
      FilledCells(g, sources, y, x);
    }
    CountMonotone(F, g, Sea, Sea);
    CountNone(F, Sand);
  }

  /** The fill ratio `1 - remaining / total` of the original, as an exact real. */
  function Ratio(remaining: nat, total: nat): real
    requires total > 0
  {
    1.0 - (remaining as real) / (total as real)
  }

  /** The original's float test `fill_ratio > 0.2` is the integer test
      `5 * remaining < 4 * total`. */
  lemma ThresholdMatchesRatio(remaining: nat, total: nat)
    requires total > 0
    ensures Ratio(remaining, total) > 0.2 <==> 5 * remaining < 4 * total
  {
    var r, t := remaining as real, total as real;
    var q := r / t;
    assert q * t == r;
    var a := 5.0 * q - 4.0;
    NegativeTimesPositive(a, t);
    assert a * t == 5.0 * r - 4.0 * t;
    assert (5 * remaining < 4 * total) == (5.0 * r < 4.0 * t);
    assert Ratio(remaining, total) == 1.0 - q;
  }

  lemma NegativeTimesPositive(a: real, t: real)
    requires t > 0.0
    ensures a < 0.0 <==> a * t < 0.0
  {
    if a < 0.0 {
      assert a * t < 0.0 * t;
    } else {
      assert a * t >= 0.0 * t;
    }
  }

  // ---------------------------------------------------------------------------
  // Lemmas the Board's operations use

  /** Capturing keeps the shape and the Land border and leaves no DeepSea. */
  lemma FilledValid(g: Grid, sources: seq<Position>, w: int, h: int)
    requires Rectangular(g, w, h) && Bordered(g, w, h) && NoDeepSea(g)
    ensures Rectangular(Filled(g, sources), w, h)
    ensures Bordered(Filled(g, sources), w, h)
    ensures NoDeepSea(Filled(g, sources))
  {
    var F := Filled(g, sources);
    forall y, x | 0 <= y < h && 0 <= x < w && F[y][x] != Land ensures Interior(Position(x, y), w, h) {
      assert g[y][x] != Land;
    }
  }

  /** Cleaning keeps the shape and the Land border and adds no DeepSea. */
  lemma CleanedValid(g: Grid, w: int, h: int)
    requires Rectangular(g, w, h) && Bordered(g, w, h) && NoDeepSea(g)
    ensures Rectangular(Cleaned(g), w, h) && Bordered(Cleaned(g), w, h) && NoDeepSea(Cleaned(g))
  {
    var C := Cleaned(g);
    forall y, x | 0 <= y < h && 0 <= x < w && C[y][x] != Land ensures Interior(Position(x, y), w, h) {
      assert g[y][x] != Land;
    }
  }

  /** The flood's invariant holds before the first flood. */
  lemma FloodStart(g0: Grid, sources: seq<Position>, w: int, h: int)
    requires Rectangular(g0, w, h) && Bordered(g0, w, h) && NoDeepSea(g0)
    ensures FloodInvariant(g0, sources, w, h, g0, [])
  {
  }

  /** Queueing a source in bounds keeps the flood's invariant. */
  lemma QueueSource(g0: Grid, sources: seq<Position>, w: int, h: int, G: Grid, i: int)
    requires FloodInvariant(g0, sources, w, h, G, [])
    requires 0 <= i < |sources| && InGrid(g0, sources[i])
    ensures FloodInvariant(g0, sources, w, h, G, [sources[i]])
  {
    var s := sources[i];
    if Cell(g0, s) == Sea {
      assert SeaPath(g0, [s]);
    }
    ClosedWider(G, [], [s]);
  }

  /** Queueing more positions keeps a grid closed. */
  lemma ClosedWider(G: Grid, q: seq<Position>, q': seq<Position>)
    requires Closed(G, q) && forall n :: n in q ==> n in q'
    ensures Closed(G, q')
  {
    forall y, x | 0 <= y < |G| && 0 <= x < |G[y]| && G[y][x] == DeepSea
      ensures AllHandled(G, q', Position(x, y))
    {
      assert AllHandled(G, q, Position(x, y));
    }
  }

  /** A fresh board's field at (x, y): Sea inside the border, Land on it. */
  function InitialField(w: int, h: int, x: int, y: int): Field {
    if Interior(Position(x, y), w, h) then Sea else Land
  }

  /** One row of a fresh board: the fields on the border become Land. */
  method BorderRow(row: seq<Field>, w: int, h: int, y: int) returns (r: seq<Field>)
    requires |row| == w && forall i :: 0 <= i < w ==> row[i] == Sea
    ensures |r| == w && forall i :: 0 <= i < w ==> r[i] == InitialField(w, h, i, y)
  {
    r := row;
    var x := 0;
    while x < w
      invariant 0 <= x <= w && |r| == w
      invariant forall i :: 0 <= i < x ==> r[i] == InitialField(w, h, i, y)
      invariant forall i :: x <= i < w ==> r[i] == Sea
    {
      if x < 2 || x >= w - 2 || y < 2 || y >= h - 2 {
        r := r[x := Land];
      }
      x := x + 1;
    }
  }

  /** The loops of `Board::new`: all Sea, then a border of Land two fields
      wide on every side. */
  method InitialFields(w: nat, h: nat) returns (g: Grid)
    ensures Rectangular(g, w, h) && Bordered(g, w, h) && NoDeepSea(g)
    ensures g == InitialGrid(w, h)
  {
    g := seq(h, _ => seq(w, _ => Sea));
    var y := 0;
    while y < h
      invariant 0 <= y <= h && Rectangular(g, w, h)
      invariant forall j, i :: 0 <= j < y && 0 <= i < w ==> g[j][i] == InitialField(w, h, i, j)
      invariant forall j, i :: y <= j < h && 0 <= i < w ==> g[j][i] == Sea
    {
      var row := BorderRow(g[y], w, h, y);
      g := g[y := row];
      y := y + 1;
    }
    InitialValid(g, w, h);
  }

  /** The number of fields inside a border two fields wide: the original's
      `(width - 4) * (height - 4)`. */
  function InnerArea(w: int, h: int): int {
    (w - 4) * (h - 4)
  }

  function InitialGrid(w: nat, h: nat): Grid {
    seq(h, y requires 0 <= y < h => seq(w, x requires 0 <= x < w => InitialField(w, h, x, y)))
  }

  /** How many of the indices `0 .. k - 1` fall in `lo .. hi - 1`. */
  function Overlap(k: int, lo: int, hi: int): int {
    if k <= lo then 0 else if k >= hi then hi - lo else k - lo
  }

  lemma {:induction false} InitialRowCount(w: nat, h: nat, y: nat, k: nat)
    requires w >= 4 && y < h && k <= w
    ensures var row := InitialGrid(w, h)[y];
      CountRow(row[..k], Sea) == (if 2 <= y < h - 2 then Overlap(k, 2, w - 2) else 0)
      && CountRow(row[..k], Sand) == 0
    decreases k
  {
    var row := InitialGrid(w, h)[y];
    if k > 0 {
      InitialRowCount(w, h, y, k - 1);
      assert row[..k][..k - 1] == row[..k - 1];
      assert row[k - 1] == InitialField(w, h, k - 1, y);
    }
  }

  lemma {:induction false} InitialGridCount(w: nat, h: nat, k: nat)
    requires w >= 4 && h >= 4 && k <= h
    ensures var g := InitialGrid(w, h);
      Count(g[..k], Sea) == (w - 4) * Overlap(k, 2, h - 2) && Count(g[..k], Sand) == 0
    decreases k
  {
    var g := InitialGrid(w, h);
    if k > 0 {
      InitialGridCount(w, h, k - 1);
      assert g[..k][..k - 1] == g[..k - 1];
      InitialRowCount(w, h, k - 1, w);
      assert g[k - 1][..w] == g[k - 1];
      MultiplyStep(w - 4, Overlap(k - 1, 2, h - 2));
    }
  }

  lemma MultiplyStep(a: int, c: int)
    ensures a * (c + 1) == a * c + a
  {
  }

  /** The initial board has `InnerArea` Sea fields and no trail, so the
      total the fill ratio is measured against is the Sea the level opens
      with. */
  lemma InitialSeaCount(w: nat, h: nat)
    requires w >= 4 && h >= 4
    ensures Count(InitialGrid(w, h), Sea) == InnerArea(w, h)
    ensures Count(InitialGrid(w, h), Sand) == 0
  {
    InitialGridCount(w, h, h);
    assert InitialGrid(w, h)[..h] == InitialGrid(w, h);
  }

  lemma InitialValid(g: Grid, w: nat, h: nat)
    requires Rectangular(g, w, h)
    requires forall y, x :: 0 <= y < h && 0 <= x < w ==> g[y][x] == InitialField(w, h, x, y)
    ensures Bordered(g, w, h) && NoDeepSea(g)
    ensures g == InitialGrid(w, h)
  {
    var I := InitialGrid(w, h);
    forall y | 0 <= y < h ensures g[y] == I[y] {
      assert |g[y]| == |I[y]|;
    }
  }

  // ---------------------------------------------------------------------------
  // The board object

  /** The status of the `width` x `height` fields. `remaining` is the number
      of Sea fields counted by the last capture; the original keeps the float
      `fill_ratio` computed from it, obtained here from `FillRatio`. */
  class Board {
    const width: nat
    const height: nat
    var fields: Grid
    var remaining: nat

    /** Number of fields inside the border. */
    function Total(): int {
      InnerArea(width, height)
    }

    ghost predicate Valid()
      reads this
    {
      && width >= 4 && height >= 4
      && Rectangular(fields, width, height)
      && Bordered(fields, width, height)
      && NoDeepSea(fields)
    }

    /** `remaining` is the Sea the last capture left, plus the trail drawn
        since: a trail field turns back into Sea when the player dies and is
        captured when the trail closes. */
    ghost predicate Tallied()
      reads this
    {
      remaining == Count(fields, Sea) + Count(fields, Sand)
    }

    /** The border of two Land fields around open Sea; the fill ratio starts at 0. */
    constructor (w: nat, h: nat)
      requires w >= 4 && h >= 4
      ensures width == w && height == h && Valid()
      ensures Rectangular(fields, w, h)
      ensures fields == InitialGrid(w, h)
      ensures remaining == Total() && Tallied()
    {
      var g := InitialFields(w, h);
      InitialSeaCount(w, h);
      width, height := w, h;
      fields := g;
      remaining := InnerArea(w, h);
    }

    /** `fill_ratio`: the part of the interior that is no longer Sea. */
    function FillRatio(): (r: real)
      reads this
      requires Total() > 0
      ensures r > 0.2 <==> 5 * remaining < 4 * Total()
      ensures remaining == Total() ==> r == 0.0
      ensures remaining == 0 ==> r == 1.0
    {
      ThresholdMatchesRatio(remaining, Total());
      Ratio(remaining, Total())
    }

    /** `within_bounds`: measured on the grid itself, as the original does. */
    predicate WithinBounds(p: Position)
      reads this
      requires |fields| > 0
      ensures Rectangular(fields, width, height) ==> (WithinBounds(p) <==> 0 <= p.x < width && 0 <= p.y < height)
    {
      0 <= p.x < |fields[0]| && 0 <= p.y < |fields|
    }

    /** On a valid board, within bounds means inside the width x height grid. */
    lemma WithinBoundsIsInGrid(p: Position)
      requires Valid()
      ensures WithinBounds(p) <==> InGrid(fields, p)
      ensures WithinBounds(p) <==> 0 <= p.x < width && 0 <= p.y < height
    {
    }

    /** Indexing the board by a position. */
    function At(p: Position): Field
      reads this
      requires InGrid(fields, p)
    {
      fields[p.y][p.x]
    }

    /** On a valid board a read is never DeepSea, and off the interior it is Land. */
    lemma AtValid(p: Position)
      requires Valid() && InGrid(fields, p)
      ensures At(p) != DeepSea
      ensures !Interior(p, width, height) ==> At(p) == Land
    {
    }

    /** Indexing the board for update: the one field at `p` becomes `f`. */
    method Set(p: Position, f: Field)
      requires InGrid(fields, p)
      modifies this`fields
      ensures fields == With(old(fields), p, f)
    {
      fields := With(fields, p, f);
    }

    /** A position holding a field of kind `t`, chosen nondeterministically
        in place of the original's repeated random draws. */
    method RandomPositionOfType(t: Field) returns (p: Position)
      requires exists y, x :: 0 <= y < |fields| && 0 <= x < |fields[y]| && fields[y][x] == t
      ensures InGrid(fields, p) && At(p) == t
    {
      var y, x :| 0 <= y < |fields| && 0 <= x < |fields[y]| && fields[y][x] == t;
      p := Position(x, y);
    }

    /** `clean`: every Sand field becomes Sea again. */
    method Clean()
      requires Valid()
      modifies this`fields
      ensures fields == Cleaned(old(fields))
      ensures Valid()
      ensures old(Tallied()) ==> Tallied()
    {
      ghost var g0 := fields;
      var y := 0;
      while y < |fields|
        invariant 0 <= y <= |g0| && |fields| == |g0|
        invariant forall j :: 0 <= j < y ==> fields[j] == Cleaned(g0)[j]
        invariant forall j :: y <= j < |g0| ==> fields[j] == g0[j]
      {
        var row := fields[y];
        var x := 0;
        while x < |row|
          invariant 0 <= x <= |row| && |row| == |g0[y]|
          invariant forall i :: 0 <= i < x ==> row[i] == CleanedCell(g0[y][i])
          invariant forall i :: x <= i < |row| ==> row[i] == g0[y][i]
        {
          if row[x] == Sand {
            row := row[x := Sea];
          }
          x := x + 1;
        }
        fields := fields[y := row];
        y := y + 1;
      }
      CleanedValid(g0, width, height);
      CountCleaned(g0);
    }

    /** `flood_fill`: a breadth-first flood from `position` that marks every
        Sea field it reaches as DeepSea. `g0` (the grid before the capture) and
        `sources` (all flood origins) exist only for the proof. */
    method FloodFill(position: Position, ghost g0: Grid, ghost sources: seq<Position>)
      requires FloodInvariant(g0, sources, width, height, fields, [position])
      modifies this`fields
      ensures FloodInvariant(g0, sources, width, height, fields, [])
      ensures Evolved(old(fields), fields)
      ensures InGrid(fields, position) && Cell(fields, position) != Sea
    {
      var q := [position];
      assert q[0] == position && InGrid(g0, position);
      while |q| > 0
        invariant FloodInvariant(g0, sources, width, height, fields, q)
        invariant Evolved(old(fields), fields)
        invariant InGrid(fields, position)
        invariant Cell(fields, position) != Sea || position in q
        decreases SeaCells(fields), |q|
      {
        var p := q[0];
        if fields[p.y][p.x] == Sea {
          MarkStep(g0, sources, width, height, fields, q);
          MarkTracks(old(fields), fields, q, position);
          fields := Mark(fields, p);
          q := q[1..] + Neighbours(p);
        } else {
          SkipStep(g0, sources, width, height, fields, q);
          SkipTracks(fields, q, position);
          q := q[1..];
        }
      }
    }

    /** The loop of `fill` that floods from every enemy in turn. */
    method FloodAll(enemyPositions: seq<Position>, ghost g0: Grid)
      requires FloodInvariant(g0, enemyPositions, width, height, fields, [])
      requires forall j :: 0 <= j < |enemyPositions| ==> InGrid(fields, enemyPositions[j])
      modifies this`fields
      ensures FloodInvariant(g0, enemyPositions, width, height, fields, [])
      ensures forall j :: 0 <= j < |enemyPositions| ==> InGrid(fields, enemyPositions[j]) && Cell(fields, enemyPositions[j]) != Sea
    {
      for i := 0 to |enemyPositions|
        invariant FloodInvariant(g0, enemyPositions, width, height, fields, [])
        invariant forall j :: 0 <= j < i ==> Cell(fields, enemyPositions[j]) != Sea
      {
        QueueSource(g0, enemyPositions, width, height, fields, i);
        FloodFill(enemyPositions[i], g0, enemyPositions);
      }
    }

    /** `fill`: flood from every enemy position, then turn the unreached
        water and the trail into Land, restore the reached water to Sea and
        count it. The result is the capture of the reference definition. */
    method Fill(enemyPositions: seq<Position>)
      requires Valid()
      requires forall j :: 0 <= j < |enemyPositions| ==> InGrid(fields, enemyPositions[j])
      modifies this`fields, this`remaining
      ensures fields == Filled(old(fields), enemyPositions)
      ensures remaining == Count(fields, Sea)
      ensures Valid()
      ensures Tallied() && remaining <= old(Count(fields, Sea))
    {
      ghost var g0 := fields;
      FilledCount(g0, enemyPositions);
      FloodStart(g0, enemyPositions, width, height);
      FloodAll(enemyPositions, g0);
      ghost var S := SweptGrid(fields);
      SweepMatchesFilled(g0, enemyPositions, width, height, fields);
      Sweep(S);
      FilledValid(g0, enemyPositions, width, height);
    }

    /** The sweep of `fill`: DeepSea back to Sea (counted), Sea and Sand to Land. */
    method Sweep(ghost S: Grid)
      requires S == SweptGrid(fields)
      modifies this`fields, this`remaining
      ensures fields == S && remaining == Count(S, Sea)
    {
      var rows := fields;
      var count := 0;
      var y := 0;
      while y < |rows|
        invariant fields == old(fields) && 0 <= y <= |rows| == |S| == |fields|
        invariant forall j :: 0 <= j < y ==> rows[j] == S[j]
        invariant forall j :: y <= j < |rows| ==> rows[j] == fields[j]
        invariant count == Count(S[..y], Sea)
      {
        var row, n := SweepRow(rows[y]);
        assert S[..y + 1][..y] == S[..y];
        rows := rows[y := row];
        count := count + n;
        y := y + 1;
      }
      assert S[..|S|] == S;
      assert rows == S;
      fields, remaining := rows, count;
    }
  }
}
