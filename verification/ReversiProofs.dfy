/** Reversi: the flips are exactly the flanked discs, no disc twice; every reachable position
    passes the validator; and the game is over within sixty moves. */
module ReversiProofs {
  import opened Common
  import opened Reversi

  // --------------------------------------------------------------- lines on the board

  function Walk(p: Point, dx: int, dy: int, k: int): Point {
    Point(p.x + k * dx, p.y + k * dy)
  }

  lemma WalksAdd(p: Point, dx: int, dy: int, k: int)
    ensures Walk(Point(p.x + dx, p.y + dy), dx, dy, k) == Walk(p, dx, dy, k + 1)
    ensures Walk(p, dx, dy, 0) == p && Walk(p, dx, dy, 1) == Point(p.x + dx, p.y + dy)
  {
    assert dx + k * dx == (k + 1) * dx && dy + k * dy == (k + 1) * dy;
  }

  lemma WalkIsInjective(p: Point, dx: int, dy: int, k: int, ex: int, ey: int, j: int)
    requires IsDirection(dx, dy) && IsDirection(ex, ey) && k >= 1 && j >= 1
    requires Walk(p, dx, dy, k) == Walk(p, ex, ey, j)
    ensures dx == ex && dy == ey && k == j
  {
    assert dx == -1 || dx == 0 || dx == 1;
    assert dy == -1 || dy == 0 || dy == 1;
    assert ex == -1 || ex == 0 || ex == 1;
    assert ey == -1 || ey == 0 || ey == 1;
  }

  predicate Has(b: Board, p: Point, c: Color) {
    p.Valid() && b[At(p)] == Stone(c)
  }

  /** From `p` in direction (dx, dy): opposing discs up to an own disc `n` steps away. */
  ghost predicate Flanked(b: Board, p: Point, dx: int, dy: int, c: Color, n: int) {
    n >= 1 && Has(b, Walk(p, dx, dy, n), c)
    && forall k :: 1 <= k < n ==> Has(b, Walk(p, dx, dy, k), c.Opposite())
  }

  lemma {:induction false} BracketedMeansFlanked(b: Board, p: Point, dx: int, dy: int, c: Color)
    requires IsDirection(dx, dy)
    ensures var q := Point(p.x + dx, p.y + dy);
      Bracketed(b, q, dx, dy, c).Some? ==>
        var line := Bracketed(b, q, dx, dy, c).value;
        && Flanked(b, p, dx, dy, c, |line| + 1)
        && forall j :: 0 <= j < |line| ==> line[j] == At'(Walk(p, dx, dy, j + 1))
    decreases Room(Point(p.x + dx, p.y + dy), dx, dy)
  {
    hide Walk, Bracketed;
    var q := Point(p.x + dx, p.y + dy);
    WalksAdd(p, dx, dy, 0);
    BracketedCases(b, q, dx, dy, c);
    if Has(b, q, c.Opposite()) && Bracketed(b, q, dx, dy, c).Some? {
      BracketedMeansFlanked(b, q, dx, dy, c);
      var rest := Bracketed(b, Point(q.x + dx, q.y + dy), dx, dy, c).value;
      ExtendFlank(b, p, q, dx, dy, c, rest);
    }
  }

  // `At` as a total function, for stating positions of walked-to points.
  function At'(p: Point): int {
    p.y * 8 + p.x
  }

  lemma ExtendFlank(b: Board, p: Point, q: Point, dx: int, dy: int, c: Color, rest: seq<int>)
    requires q == Point(p.x + dx, p.y + dy) && Has(b, q, c.Opposite()) && Flanked(b, q, dx, dy, c, |rest| + 1)
    requires forall j :: 0 <= j < |rest| ==> rest[j] == At'(Walk(q, dx, dy, j + 1))
    ensures var line := [At(q)] + rest;
      Flanked(b, p, dx, dy, c, |line| + 1)
      && forall j :: 0 <= j < |line| ==> line[j] == At'(Walk(p, dx, dy, j + 1))
  {
    assert q.Valid() && At(q) == At'(q);
    hide Walk, Has;
    var line := [At(q)] + rest;
    WalksAdd(p, dx, dy, 0);
    WalksAdd(p, dx, dy, |rest| + 1);
    forall k | 1 <= k < |line| + 1 ensures Has(b, Walk(p, dx, dy, k), c.Opposite()) {
      if k > 1 {
        WalksAdd(p, dx, dy, k - 1);
      }
    }
    forall j | 0 <= j < |line| ensures line[j] == At'(Walk(p, dx, dy, j + 1)) {
      if j > 0 {
        WalksAdd(p, dx, dy, j);
      }
    }
  }

  lemma {:induction false} FlankedMeansBracketed(b: Board, p: Point, dx: int, dy: int, c: Color, n: int)
    requires IsDirection(dx, dy) && Flanked(b, p, dx, dy, c, n)
    ensures var line := Bracketed(b, Point(p.x + dx, p.y + dy), dx, dy, c);
      line.Some? && |line.value| == n - 1
    decreases n
  {
    hide Walk, Bracketed;
    var q := Point(p.x + dx, p.y + dy);
    WalksAdd(p, dx, dy, 0);
    BracketedCases(b, q, dx, dy, c);
    assert Walk(p, dx, dy, 1) == q;
    if n > 1 {
      assert Has(b, Walk(p, dx, dy, 1), c.Opposite());
      WalksAdd(p, dx, dy, n - 1);
      forall k | 1 <= k < n - 1 ensures Has(b, Walk(q, dx, dy, k), c.Opposite()) {
        WalksAdd(p, dx, dy, k);
      }
      FlankedMeansBracketed(b, q, dx, dy, c, n - 1);
    }
  }

  /** One line flips exactly the opposing discs flanked between the new disc and an own disc. */
  lemma FlipsAlongSpec(b: Board, p: Point, dx: int, dy: int, c: Color, i: int)
    requires IsDirection(dx, dy)
    ensures i in FlipsAlong(b, p, dx, dy, c) <==>
      exists n, k :: 1 <= k < n && Flanked(b, p, dx, dy, c, n) && i == At'(Walk(p, dx, dy, k))
  {
    hide Walk, Bracketed, Flanked;
    var r := Bracketed(b, Point(p.x + dx, p.y + dy), dx, dy, c);
    BracketedMeansFlanked(b, p, dx, dy, c);
    if i in FlipsAlong(b, p, dx, dy, c) {
      var j :| 0 <= j < |r.value| && r.value[j] == i;
      assert 1 <= j + 1 < |r.value| + 1 && Flanked(b, p, dx, dy, c, |r.value| + 1) && i == At'(Walk(p, dx, dy, j + 1));
    }
    if n, k :| 1 <= k < n && Flanked(b, p, dx, dy, c, n) && i == At'(Walk(p, dx, dy, k)) {
      FlankedMeansBracketed(b, p, dx, dy, c, n);
      assert r.value[k - 1] == i;
    }
  }

  // ------------------------------------------------------------ no disc is flipped twice

  ghost predicate Distinct(s: seq<int>) {
    forall i, j :: 0 <= i < j < |s| ==> s[i] != s[j]
  }

  lemma LineIsDistinct(b: Board, p: Point, dx: int, dy: int, c: Color)
    ensures Distinct(FlipsAlong(b, p, dx, dy, c))
  {
    hide Walk, Bracketed;
    if IsDirection(dx, dy) {
      BracketedMeansFlanked(b, p, dx, dy, c);
      var line := FlipsAlong(b, p, dx, dy, c);
      forall i, j | 0 <= i < j < |line| ensures line[i] != line[j] {
        if line[i] == line[j] {
          assert Has(b, Walk(p, dx, dy, i + 1), c.Opposite()) && Has(b, Walk(p, dx, dy, j + 1), c.Opposite());
          AtIsInjective(Walk(p, dx, dy, i + 1), Walk(p, dx, dy, j + 1));
          WalkIsInjective(p, dx, dy, i + 1, dx, dy, j + 1);
        }
      }
    }
  }

  lemma AtIsInjective(p: Point, q: Point)
    requires p.Valid() && q.Valid() && At'(p) == At'(q)
    ensures p == q
  {
  }

  lemma LineHasADirection(b: Board, p: Point, dx: int, dy: int, c: Color, i: int)
    requires i in FlipsAlong(b, p, dx, dy, c)
    ensures IsDirection(dx, dy)
  {
  }

  lemma LinesAreDisjoint(b: Board, p: Point, dx: int, dy: int, ex: int, ey: int, c: Color, i: int)
    requires i in FlipsAlong(b, p, dx, dy, c) && i in FlipsAlong(b, p, ex, ey, c)
    ensures dx == ex && dy == ey
  {
    hide Walk, Bracketed, FlipsAlong;
    assert IsDirection(dx, dy) && IsDirection(ex, ey) by { LineHasADirection(b, p, dx, dy, c, i); LineHasADirection(b, p, ex, ey, c, i); }
    FlipsAlongSpec(b, p, dx, dy, c, i);
    FlipsAlongSpec(b, p, ex, ey, c, i);
    var n, k :| 1 <= k < n && Flanked(b, p, dx, dy, c, n) && i == At'(Walk(p, dx, dy, k));
    var m, j :| 1 <= j < m && Flanked(b, p, ex, ey, c, m) && i == At'(Walk(p, ex, ey, j));
    assert Has(b, Walk(p, dx, dy, k), c.Opposite()) && Has(b, Walk(p, ex, ey, j), c.Opposite());
    AtIsInjective(Walk(p, dx, dy, k), Walk(p, ex, ey, j));
    WalkIsInjective(p, dx, dy, k, ex, ey, j);
  }

  lemma {:induction false} FlipsComeFromALine(b: Board, p: Point, c: Color, n: nat, i: int)
    requires n <= 9
    ensures i in FlipsUpTo(b, p, c, n) <==> exists m :: 0 <= m < n && i in FlipsAlong(b, p, PAIRS[m].0, PAIRS[m].1, c)
  {
    hide FlipsAlong;
    if n > 0 {
      FlipsComeFromALine(b, p, c, n - 1, i);
    }
  }

  lemma {:induction false} FlipsAreDistinct(b: Board, p: Point, c: Color, n: nat)
    requires n <= 9
    ensures Distinct(FlipsUpTo(b, p, c, n))
  {
    hide FlipsAlong;
    if n > 0 {
      FlipsAreDistinct(b, p, c, n - 1);
      var before, line := FlipsUpTo(b, p, c, n - 1), FlipsAlong(b, p, PAIRS[n - 1].0, PAIRS[n - 1].1, c);
      LineIsDistinct(b, p, PAIRS[n - 1].0, PAIRS[n - 1].1, c);
      forall k, j | 0 <= k < |before| && 0 <= j < |line| ensures before[k] != line[j] {
        if before[k] == line[j] {
          FlipsComeFromALine(b, p, c, n - 1, before[k]);
          var m :| 0 <= m < n - 1 && before[k] in FlipsAlong(b, p, PAIRS[m].0, PAIRS[m].1, c);
          LinesAreDisjoint(b, p, PAIRS[m].0, PAIRS[m].1, PAIRS[n - 1].0, PAIRS[n - 1].1, c, before[k]);
          PairsAreDistinct(m, n - 1);
        }
      }
    }
  }

  lemma PairsAreDistinct(m: nat, n: nat)
    requires m < n < 9
    ensures PAIRS[m] != PAIRS[n]
  {
  }

  /** Reference definition: a disc flips exactly when it is an opposing disc flanked, in one of
      the eight directions, between the new disc and another of its colour. */
  lemma FlipsAreTheFlanked(b: Board, p: Point, c: Color, i: int)
    requires p.Valid() && b[At(p)] == Empty
    ensures i in Flips(b, p, c) <==>
      exists m, n, k :: 0 <= m < 9 && IsDirection(PAIRS[m].0, PAIRS[m].1) && 1 <= k < n
        && Flanked(b, p, PAIRS[m].0, PAIRS[m].1, c, n) && i == At'(Walk(p, PAIRS[m].0, PAIRS[m].1, k))
    ensures Distinct(Flips(b, p, c))
  {
    FlipsComeFromALine(b, p, c, 9, i);
    FlipsAreDistinct(b, p, c, 9);
    hide FlipsUpTo, Walk, Flanked;
    if i in Flips(b, p, c) {
      var m :| 0 <= m < 9 && i in FlipsAlong(b, p, PAIRS[m].0, PAIRS[m].1, c);
      FlipsAlongSpec(b, p, PAIRS[m].0, PAIRS[m].1, c, i);
    }
    hide FlipsAlong;
    forall m, n, k | 0 <= m < 9 && IsDirection(PAIRS[m].0, PAIRS[m].1) && 1 <= k < n
        && Flanked(b, p, PAIRS[m].0, PAIRS[m].1, c, n) && i == At'(Walk(p, PAIRS[m].0, PAIRS[m].1, k))
      ensures i in Flips(b, p, c)
    {
      FlipsAlongSpec(b, p, PAIRS[m].0, PAIRS[m].1, c, i);
    }
  }

  // -------------------------------------------------------------------- counting discs

  function Recoloured(b: Board, changed: seq<int>, c: Color): Board
    requires forall k :: 0 <= k < |changed| ==> 0 <= changed[k] < CELLS
  {
    if changed == [] then b
    else Recoloured(b, changed[..|changed| - 1], c)[changed[|changed| - 1] := Stone(c)]
  }

  lemma {:induction false} RecolouredAt(b: Board, changed: seq<int>, c: Color, i: int)
    requires (forall k :: 0 <= k < |changed| ==> 0 <= changed[k] < CELLS) && 0 <= i < CELLS
    ensures Recoloured(b, changed, c)[i] == if i in changed then Stone(c) else b[i]
  {
    if changed != [] {
      assert changed == changed[..|changed| - 1] + [changed[|changed| - 1]];
      RecolouredAt(b, changed[..|changed| - 1], c, i);
    }
  }

  lemma {:induction false} CountAfterWriting(b: Board, k: int, cell: Cell, c: Color, n: nat)
    requires 0 <= k < CELLS && n <= CELLS
    ensures Count(b[k := cell], c, n) + (if k < n && b[k] == Stone(c) then 1 else 0)
            == Count(b, c, n) + (if k < n && cell == Stone(c) then 1 else 0)
  {
    if n > 0 {
      CountAfterWriting(b, k, cell, c, n - 1);
    }
  }

  lemma {:induction false} CountsAfterRecolouring(b: Board, changed: seq<int>, c: Color)
    requires forall k :: 0 <= k < |changed| ==> 0 <= changed[k] < CELLS && b[changed[k]] == Stone(c.Opposite())
    requires Distinct(changed)
    ensures Count(Recoloured(b, changed, c), c, CELLS) == Count(b, c, CELLS) + |changed|
    ensures Count(Recoloured(b, changed, c), c.Opposite(), CELLS) + |changed| == Count(b, c.Opposite(), CELLS)
  {
    hide Count;
    if changed != [] {
      var front, last := changed[..|changed| - 1], changed[|changed| - 1];
      assert changed == front + [last] && last in changed;
      CountsAfterRecolouring(b, front, c);
      RecolouredAt(b, front, c, last);
      CountAfterWriting(Recoloured(b, front, c), last, Stone(c), c, CELLS);
      CountAfterWriting(Recoloured(b, front, c), last, Stone(c), c.Opposite(), CELLS);
    }
  }

  /** A move adds one disc and turns over each flipped one. */
  lemma CountsAfterMove(b: Board, p: Point, c: Color)
    requires p.Valid() && b[At(p)] == Empty
    ensures var after := Counts(Flipped(b, p, c));
      && after.Of(c) == Counts(b).Of(c) + 1 + |Flips(b, p, c)|
      && after.Of(c.Opposite()) == Counts(b).Of(c.Opposite()) - |Flips(b, p, c)|
  {
    var changed := Flips(b, p, c);
    FlipsAreOpposing(b, p, c, 9);
    FlipsAreDistinct(b, p, c, 9);
    hide FlipsUpTo, Count, Walk;
    forall k | 0 <= k < |changed| ensures 0 <= changed[k] < CELLS && b[changed[k]] == Stone(c.Opposite()) {
      assert changed[k] in changed;
    }
    CountsAfterRecolouring(b, changed, c);
    var turned := Recoloured(b, changed, c);
    forall i | 0 <= i < CELLS ensures Flipped(b, p, c)[i] == turned[At(p) := Stone(c)][i] {
      RecolouredAt(b, changed, c, i);
    }
    assert Flipped(b, p, c) == turned[At(p) := Stone(c)];
    RecolouredAt(b, changed, c, At(p));
    CountAfterWriting(turned, At(p), Stone(c), c, CELLS);
    CountAfterWriting(turned, At(p), Stone(c), c.Opposite(), CELLS);
  }

  lemma {:induction false} AtMostAllDiscs(b: Board, n: nat)
    requires n <= CELLS
    ensures Count(b, Black, n) + Count(b, White, n) <= n
  {
    if n > 0 {
      AtMostAllDiscs(b, n - 1);
    }
  }

  // ------------------------------------------------------------------------ legal moves

  lemma {:induction false} LegalInRowSpec(b: Board, c: Color, y: int, n: nat, p: Point)
    ensures p in LegalInRow(b, c, y, n) <==> p.y == y && 0 <= p.x < n && Flips(b, p, c) != []
  {
    hide Flips;
    if n > 0 {
      LegalInRowSpec(b, c, y, n - 1, p);
    }
  }

  lemma {:induction false} LegalRowsSpec(b: Board, c: Color, rows: nat, p: Point)
    ensures p in LegalRows(b, c, rows) <==> 0 <= p.y < rows && 0 <= p.x < 8 && Flips(b, p, c) != []
  {
    hide Flips, LegalInRow;
    if rows > 0 {
      LegalRowsSpec(b, c, rows - 1, p);
      LegalInRowSpec(b, c, rows - 1, 8, p);
    }
  }

  // ------------------------------------------------------------------- the opening move

  lemma InitialDiscs(p: Point)
    requires p.Valid()
    ensures Has(InitialBoard(), p, White) <==> p == Point(3, 3) || p == Point(4, 4)
    ensures Has(InitialBoard(), p, Black) <==> p == Point(4, 3) || p == Point(3, 4)
    ensures InitialBoard()[At(p)] == Empty <==> p !in {Point(3, 3), Point(4, 4), Point(4, 3), Point(3, 4)}
  {
  }

  /** Black's first disc can only be one of four, next to a white disc and across from a black one. */
  lemma FourOpenings(p: Point)
    requires Flips(InitialBoard(), p, Black) != []
    ensures p.Valid()
    ensures p == Point(2, 3) || p == Point(3, 2) || p == Point(5, 4) || p == Point(4, 5)
  {
    var b := InitialBoard();
    var i := Flips(b, p, Black)[0];
    assert i in Flips(b, p, Black);
    FlipsAreTheFlanked(b, p, Black, i);
    hide Flips, InitialBoard, At;
    var m, n, k :| 0 <= m < 9 && IsDirection(PAIRS[m].0, PAIRS[m].1) && 1 <= k < n
        && Flanked(b, p, PAIRS[m].0, PAIRS[m].1, Black, n) && i == At'(Walk(p, PAIRS[m].0, PAIRS[m].1, k));
    OpeningAlong(p, PAIRS[m].0, PAIRS[m].1, n);
  }

  lemma OpeningAlong(p: Point, dx: int, dy: int, n: int)
    requires IsDirection(dx, dy) && n > 1 && Flanked(InitialBoard(), p, dx, dy, Black, n)
    ensures p == Point(2, 3) || p == Point(3, 2) || p == Point(5, 4) || p == Point(4, 5)
  {
    hide InitialBoard, At;
    var b := InitialBoard();
    var first, second, third := Walk(p, dx, dy, 1), Walk(p, dx, dy, 2), Walk(p, dx, dy, 3);
    assert Has(b, first, White);
    InitialDiscs(first);
    assert second == Point(first.x + dx, first.y + dy) && third == Point(second.x + dx, second.y + dy);
    InitialDiscs(second);
    if n > 2 {
      assert Has(b, second, White);
      assert Has(b, third, White) || Has(b, third, Black);
      InitialDiscs(third);
      assert false;
    }
  }

  /** When `near` and `far` are the only white discs and black has turned over `near` alone,
      white takes it back from the point `q` behind it. */
  lemma ReplyTo(b: Board, p: Point, q: Point, near: Point, far: Point, d: int)
    requires p.Valid() && q.Valid() && b[At(p)] == Empty && b[At(q)] == Empty && p != q && (d == 1 || d == -1)
    requires near == Point(q.x + d, q.y + d) && far == Point(near.x + d, near.y + d)
    requires Has(b, near, White) && Has(b, far, White)
    requires forall i :: 0 <= i < CELLS && b[i] == Stone(White) ==> i == At(near) || i == At(far)
    requires Flips(b, p, Black) != [] && At(far) !in Flips(b, p, Black)
    ensures Flips(Flipped(b, p, Black), q, White) != []
  {
    hide Flips;
    NearIsTaken(b, p, near, far);
    var after := Flipped(b, p, Black);
    TakenBoard(b, p, q, near, far);
    hide Flipped;
    assert Walk(q, d, d, 1) == near && Walk(q, d, d, 2) == far;
    assert Flanked(after, q, d, d, White, 2);
    var m := if d == 1 then 8 else 0;
    assert PAIRS[m] == (d, d) && IsDirection(PAIRS[m].0, PAIRS[m].1);
    FlipsAreTheFlanked(after, q, White, At(near));
    assert At(near) in Flips(after, q, White);
  }

  lemma NearIsTaken(b: Board, p: Point, near: Point, far: Point)
    requires p.Valid() && near.Valid() && far.Valid() && b[At(p)] == Empty
    requires forall i :: 0 <= i < CELLS && b[i] == Stone(White) ==> i == At(near) || i == At(far)
    requires Flips(b, p, Black) != [] && At(far) !in Flips(b, p, Black)
    ensures At(near) in Flips(b, p, Black)
  {
    var i := Flips(b, p, Black)[0];
    assert i in Flips(b, p, Black);
    FlipsAreOpposing(b, p, Black, 9);
    hide FlipsUpTo;
  }

  lemma TakenBoard(b: Board, p: Point, q: Point, near: Point, far: Point)
    requires p.Valid() && q.Valid() && b[At(p)] == Empty && b[At(q)] == Empty && p != q
    requires Has(b, near, White) && Has(b, far, White) && At(near) in Flips(b, p, Black) && At(far) !in Flips(b, p, Black)
    ensures var after := Flipped(b, p, Black);
      Has(after, near, Black) && Has(after, far, White) && after[At(q)] == Empty
  {
    FlipsAreOpposing(b, p, Black, 9);
    assert At(q) !in Flips(b, p, Black) && At(p) != At(q);
    hide Flips, FlipsUpTo;
  }

  lemma OnlyTwoWhiteDiscs(i: int)
    requires 0 <= i < CELLS && InitialBoard()[i] == Stone(White)
    ensures i == At(Point(3, 3)) || i == At(Point(4, 4))
  {
  }

  lemma FarIsUntouched(b: Board, p: Point, far: Point)
    requires p.Valid() && far.Valid() && b[At(p)] == Empty
    requires (far.x - p.x, far.y - p.y) in {(2, 1), (1, 2), (-2, -1), (-1, -2)}
    ensures At(far) !in Flips(b, p, Black)
  {
    FlipsAreTheFlanked(b, p, Black, At(far));
    hide Flips, Flanked;
    forall m, n, k | 0 <= m < 9 && IsDirection(PAIRS[m].0, PAIRS[m].1) && 1 <= k < n
        && Flanked(b, p, PAIRS[m].0, PAIRS[m].1, Black, n)
      ensures At'(Walk(p, PAIRS[m].0, PAIRS[m].1, k)) != At(far)
    {
      FlankStaysOnBoard(b, p, PAIRS[m].0, PAIRS[m].1, n, k);
      NotOnALine(p, far, PAIRS[m].0, PAIRS[m].1, k);
      hide Walk;
    }
  }

  lemma FlankStaysOnBoard(b: Board, p: Point, dx: int, dy: int, n: int, k: int)
    requires 1 <= k < n && Flanked(b, p, dx, dy, Black, n)
    ensures Walk(p, dx, dy, k).Valid()
  {
    assert Has(b, Walk(p, dx, dy, k), White);
  }

  lemma NotOnALine(p: Point, far: Point, dx: int, dy: int, k: int)
    requires IsDirection(dx, dy) && k >= 1
    requires (far.x - p.x, far.y - p.y) in {(2, 1), (1, 2), (-2, -1), (-1, -2)}
    ensures Walk(p, dx, dy, k) != far
  {
    assert dx == -1 || dx == 0 || dx == 1;
    assert dy == -1 || dy == 0 || dy == 1;
  }

  /** White always has a reply to black's first disc, so both players are bound by revision two. */
  lemma OpeningHasAReply(p: Point)
    requires Flips(InitialBoard(), p, Black) != []
    ensures Legal(Flipped(InitialBoard(), p, Black), White) != []
  {
    FourOpenings(p);
    var low := p.x + p.y < 7;
    var d := if low then 1 else -1;
    var q, near, far := if low then Point(2, 2) else Point(5, 5), if low then Point(3, 3) else Point(4, 4), if low then Point(4, 4) else Point(3, 3);
    InitialDiscs(p);
    InitialDiscs(q);
    InitialDiscs(near);
    InitialDiscs(far);
    forall i | 0 <= i < CELLS && InitialBoard()[i] == Stone(White) ensures i == At(near) || i == At(far) {
      OnlyTwoWhiteDiscs(i);
    }
    FarIsUntouched(InitialBoard(), p, far);
    hide Flips, LegalRows, InitialBoard;
    ReplyTo(InitialBoard(), p, q, near, far, d);
    LegalRowsSpec(Flipped(InitialBoard(), p, Black), White, 8, q);
  }

  // ----------------------------------------------------------------- every move decodes

  /** What a reachable position adds to the validator: after black's first disc it is white's
      turn and white's seat is still free. */
  ghost predicate Reachable(snap: Snap) {
    && Decodes(snap)
    && (snap.revision == 1 ==> snap.state.active && snap.state.next == Some(White) && snap.state.users.white.None?)
  }

  lemma {:induction false} InitialCount(c: Color, n: nat)
    requires n <= CELLS
    ensures Count(InitialBoard(), c, n) ==
      (if (if c.Black? then 28 else 27) < n then 1 else 0) + (if (if c.Black? then 35 else 36) < n then 1 else 0)
  {
    hide InitialBoard;
    if n > 0 {
      InitialCount(c, n - 1);
      InitialCell(n - 1);
    }
  }

  lemma InitialCell(i: int)
    requires 0 <= i < CELLS
    ensures InitialBoard()[i] == if i == 27 || i == 36 then Stone(White) else if i == 28 || i == 35 then Stone(Black) else Empty
  {
  }

  lemma BlackCanOpen()
    ensures Legal(InitialBoard(), Black) != []
  {
    var b := InitialBoard();
    hide InitialBoard, Flips, LegalRows;
    var p, near, far := Point(2, 3), Point(3, 3), Point(4, 3);
    InitialDiscs(p);
    InitialDiscs(near);
    InitialDiscs(far);
    assert Walk(p, 1, 0, 1) == near && Walk(p, 1, 0, 2) == far;
    assert Flanked(b, p, 1, 0, Black, 2);
    assert PAIRS[5] == (1, 0) && IsDirection(PAIRS[5].0, PAIRS[5].1);
    FlipsAreTheFlanked(b, p, Black, At(near));
    LegalRowsSpec(b, Black, 8, p);
  }

  lemma FourDiscs(b: Board)
    requires b == InitialBoard()
    ensures Counts(b) == Sides(2, 2)
  {
    hide InitialBoard, Count;
    InitialCount(Black, CELLS);
    InitialCount(White, CELLS);
  }

  lemma InitialFields(b: Board)
    requires b == InitialBoard()
    ensures InitialState() == State(true, b, Sides(None, None), Some(Black), None, None, Legal(b, Black), Counts(b), None, None)
  {
    hide InitialBoard, Legal, Counts;
  }

  lemma InitialPassesValidator()
    ensures Reachable(InitialSnapshot())
  {
    var b := InitialBoard();
    hide InitialBoard, Legal, Counts, InitialState;
    BlackCanOpen();
    FourDiscs(b);
    InitialFields(b);
  }

  /** Passing the turn, or ending the game, satisfies the decoder whenever the disc and seats do. */
  lemma TurnPassesValidator(s: State, c: Color, revision: int)
    requires s.active && s.result.None? && s.winner.None? && 1 <= revision <= 60
    requires s.counts == Counts(s.board) && s.counts.black + s.counts.white == revision + 4
    requires s.users.black.Some? && (s.users.white.None? || s.users.black != s.users.white)
    requires revision >= 2 ==> s.users.white.Some?
    requires s.lastMove.Some? && s.lastMove.value.Valid() && s.board[At(s.lastMove.value)] != Empty
    requires revision == 1 ==> c == Black && s.users.white.None? && Legal(s.board, White) != []
    ensures Reachable(GameSnapshot(revision, AfterTurn(s, c)))
  {
    hide Legal, Counts, InitialState;
    assert c.Black? || c.White?;
  }

  /** The decoder's clauses about the disc, the counts and the seats. */
  lemma DiscPassesValidator(s: State, actor: UserId, p: Point, c: Color, revision: int)
    requires s.active && s.next == Some(c) && s.result.None? && s.winner.None? && revision >= 0
    requires s.counts == Counts(s.board) && s.counts.black + s.counts.white == revision + 4
    requires MayMove(s.users, c, actor) && p.Valid() && s.board[At(p)] == Empty
    requires s.users.black.None? || s.users.white.None? || s.users.black != s.users.white
    requires revision >= 1 ==> s.users.black.Some?
    requires revision >= 2 ==> s.users.white.Some?
    requires revision == 0 ==> c == Black && s.users.white.None? && Legal(Flipped(s.board, p, c), White) != []
    requires revision == 1 ==> c == White
    ensures Reachable(GameSnapshot(revision + 1, AfterDisc(s, actor, p, c)))
  {
    hide Legal, Flipped, Count, Counts, Flips, Reachable, AfterTurn, InitialBoard, InitialState;
    DiscFacts(s.board, p, c);
    var board := Flipped(s.board, p, c);
    var t := s.(users := s.users.With(c, Some(actor)), board := board, counts := Counts(board), lastMove := Some(p));
    TurnPassesValidator(t, c, revision + 1);
  }

  /** A move adds one disc, and there is room for it. */
  lemma DiscFacts(b: Board, p: Point, c: Color)
    requires p.Valid() && b[At(p)] == Empty
    ensures var before, after := Counts(b), Counts(Flipped(b, p, c));
      after.black + after.white == before.black + before.white + 1 <= CELLS
    ensures Flipped(b, p, c)[At(p)] == Stone(c)
  {
    hide Flips, Count, InitialBoard;
    CountsAfterMove(b, p, c);
    AtMostAllDiscs(Flipped(b, p, c), CELLS);
  }

  /** What a move needs of the position it is played in, and what it leaves. */
  lemma Guards(snap: Snap, actor: UserId, p: Point)
    requires Reachable(snap) && ApplyMove(snap, actor, p).Ok?
    ensures var s := snap.state;
      && Decodes(snap) && s.active && s.next.Some? && (snap.revision == 1 ==> s.next == Some(White))
      && MayMove(s.users, s.next.value, actor) && Flips(s.board, p, s.next.value) != []
      && p.Valid() && s.board[At(p)] == Empty
      && ApplyMove(snap, actor, p).value.next == GameSnapshot(snap.revision + 1, AfterDisc(s, actor, p, s.next.value))
  {
    hide Decodes, AfterDisc, Legal, Flips, InitialBoard, Counts, MayMove;
    SomeoneIsToMove(snap);
    FlipsNeedAPoint(snap.state.board, p, snap.state.next.value);
  }

  lemma OpeningLeavesAReply(b: Board, p: Point)
    requires b == InitialBoard() && p.Valid() && Flips(b, p, Black) != []
    ensures Legal(Flipped(b, p, Black), White) != []
  {
    hide *;
    OpeningHasAReply(p);
  }

  /** Whatever is played from a reachable position the validator accepts again. */
  lemma MovePassesValidator(snap: Snap, actor: UserId, p: Point)
    requires Reachable(snap) && ApplyMove(snap, actor, p).Ok?
    ensures Reachable(ApplyMove(snap, actor, p).value.next)
  {
    hide *;
    Guards(snap, actor, p);
    FactsOf(snap);
    if snap.revision == 0 {
      OpeningLeavesAReply(snap.state.board, p);
    }
    DiscPassesValidator(snap.state, actor, p, snap.state.next.value, snap.revision);
  }

  lemma FactsOf(snap: Snap)
    requires Decodes(snap) && snap.state.active
    ensures var s := snap.state;
      && snap.revision >= 0 && s.next.Some? && s.result.None? && s.winner.None?
      && s.counts == Counts(s.board) && s.counts.black + s.counts.white == snap.revision + 4
      && (s.users.black.None? || s.users.white.None? || s.users.black != s.users.white)
      && (snap.revision == 0 ==> s.next == Some(Black) && s.users.white.None? && s.board == InitialBoard())
      && (snap.revision >= 1 ==> s.users.black.Some?) && (snap.revision >= 2 ==> s.users.white.Some?)
  {
    hide Legal, Counts, InitialBoard;
  }

  // ---------------------------------------------------------------------- whole games

  datatype Request = Request(actor: UserId, point: Point)

  datatype Game = Game(log: seq<Event>, snap: Snap)

  function Step(g: Game, r: Request): Game {
    match ApplyMove(g.snap, r.actor, r.point)
    case Err(_) => g
    case Ok(a) => Game(g.log + [a.event], a.next)
  }

  function Play(requests: seq<Request>): Game {
    if requests == [] then Game([], InitialSnapshot())
    else Step(Play(requests[..|requests| - 1]), requests[|requests| - 1])
  }

  lemma ReplayOneMove(snap: Snap, actor: UserId, p: Point)
    requires ApplyMove(snap, actor, p).Ok?
    ensures var a := ApplyMove(snap, actor, p).value;
      ReplayEvent(snap, a.event) == Ok(a.next) && a.event.revision == a.next.revision == snap.revision + 1
  {
    hide Decodes, AfterDisc, Flips, MayMove;
    var a := ApplyMove(snap, actor, p).value;
    assert Point(a.event.payload.x, a.event.payload.y) == p;
  }

  /** Whatever requests arrive, the position passes the validator and its log replays to it. */
  lemma {:induction false} EveryGameReplays(requests: seq<Request>)
    ensures var g := Play(requests);
      Reachable(g.snap) && Rebuilt(g.log) == Ok(g.snap) && g.snap.revision == |g.log|
  {
    hide ReplayEvent, ApplyMove, Reachable, InitialState;
    if requests == [] {
      InitialPassesValidator();
    } else {
      var before := Play(requests[..|requests| - 1]);
      EveryGameReplays(requests[..|requests| - 1]);
      var r := requests[|requests| - 1];
      if ApplyMove(before.snap, r.actor, r.point).Ok? {
        MovePassesValidator(before.snap, r.actor, r.point);
        ReplayOneMove(before.snap, r.actor, r.point);
        var log := Play(requests).log;
        assert log[..|log| - 1] == before.log;
      }
    }
  }

  /** In every game: four discs plus one per move, never more than sixty moves; while it runs
      the side to move has a legal move, once over nobody has; both seats are taken from the
      second move on. */
  lemma EveryGameEnds(requests: seq<Request>)
    ensures var g := Play(requests);
      var s := g.snap.state;
      && |g.log| <= 60
      && Counts(s.board).black + Counts(s.board).white == |g.log| + 4
      && (s.active ==> s.next.Some? && Legal(s.board, s.next.value) != [])
      && (!s.active ==> Legal(s.board, Black) == [] && Legal(s.board, White) == [])
      && (|g.log| >= 2 ==> s.users.black.Some? && s.users.white.Some? && s.users.black != s.users.white)
      && (|g.log| == 60 ==> !s.active)
  {
    EveryGameReplays(requests);
    var g := Play(requests);
    hide Play, Legal, Count, InitialState;
    if |g.log| == 60 && g.snap.state.active {
      FullBoardHasNoMove(g.snap.state.board, g.snap.state.next.value);
    }
  }

  lemma {:induction false} EmptyCellMeansRoom(b: Board, i: int, n: nat)
    requires 0 <= i < n <= CELLS && b[i] == Empty
    ensures Count(b, Black, n) + Count(b, White, n) < n
  {
    if i == n - 1 {
      AtMostAllDiscs(b, n - 1);
    } else {
      EmptyCellMeansRoom(b, i, n - 1);
    }
  }

  lemma FullBoardHasNoMove(b: Board, c: Color)
    requires Counts(b).black + Counts(b).white == CELLS
    ensures Legal(b, c) == []
  {
    hide Flips, LegalRows, Count;
    if Legal(b, c) != [] {
      var p := Legal(b, c)[0];
      LegalRowsSpec(b, c, 8, p);
      FlipsNeedAPoint(b, p, c);
      EmptyCellMeansRoom(b, At(p), CELLS);
    }
  }
}
