/** Gomoku's incremental win check is exact, so every move the engine plays passes the
    validator's full rescan, and every log replays to the position it was written from. */
module GomokuProofs {
  import opened Common
  import opened Gomoku

  // ------------------------------------------------------------------- steps and runs

  lemma StepsAdd(p: Point, d: Point, j: int, k: int)
    ensures Walk(Walk(p, d, j), d, k) == Walk(p, d, j + k)
    ensures Walk(p, Reverse(d), k) == Walk(p, d, -k)
    ensures Walk(p, d, 0) == p
  {
    assert j * d.x + k * d.x == (j + k) * d.x;
    assert j * d.y + k * d.y == (j + k) * d.y;
    assert k * -d.x == -k * d.x && k * -d.y == -k * d.y;
  }

  lemma IndexIsInjective(p: Point, q: Point)
    requires p.Valid() && q.Valid() && p.Index() == q.Index()
    ensures p == q
  {
  }

  /** A run is maximal: it covers its own length and the cell after it breaks it. */
  lemma {:induction false} RunIsMaximal(cells: Cells, p: Point, d: Point, c: Color, k: nat)
    requires IsDirection(d)
    ensures var n := RunFrom(cells, p, d, c);
      (k < n ==> Holds(cells, Walk(p, d, k), c)) && (k == n ==> !Holds(cells, Walk(p, d, k), c))
    decreases Room(p, d)
  {
    StepsAdd(p, d, 0, 0);
    if Holds(cells, p, c) && k > 0 {
      StepsAdd(p, d, 1, k - 1);
      RunIsMaximal(cells, Walk(p, d, 1), d, c, k - 1);
    }
  }

  /** Reference definition of a win: five stones in a row, from `o` on. */
  ghost predicate FiveInRow(cells: Cells, o: Point, d: Point, c: Color) {
    forall k :: 0 <= k < 5 ==> Holds(cells, Walk(o, d, k), c)
  }

  /** Both runs through `q`, as one stretch of the line. */
  lemma RunsCoverTheLine(cells: Cells, q: Point, d: Point, c: Color, t: int)
    requires IsDirection(d) && Holds(cells, q, c)
    requires 0 <= t + RunFrom(cells, Walk(q, Reverse(d), 1), Reverse(d), c)
    requires t <= RunFrom(cells, Walk(q, d, 1), d, c)
    ensures Holds(cells, Walk(q, d, t), c)
  {
    hide Walk, RunFrom, Holds;
    if t < 0 {
      RunIsMaximal(cells, Walk(q, Reverse(d), 1), Reverse(d), c, -t - 1);
      StepsAdd(q, Reverse(d), 1, -t - 1);
      StepsAdd(q, d, 0, -t);
    } else if t == 0 {
      StepsAdd(q, d, 0, 0);
    } else {
      RunIsMaximal(cells, Walk(q, d, 1), d, c, t - 1);
      StepsAdd(q, d, 1, t - 1);
    }
  }

  lemma LongRunGivesFive(cells: Cells, q: Point, d: Point, c: Color)
    requires IsDirection(d) && Holds(cells, q, c) && Connected(cells, q, d, c) >= 5
    ensures exists o :: FiveInRow(cells, o, d, c)
  {
    hide Walk, RunFrom, Holds;
    var behind: int := RunFrom(cells, Walk(q, Reverse(d), 1), Reverse(d), c);
    var o := Walk(q, d, -behind);
    forall k | 0 <= k < 5 ensures Holds(cells, Walk(o, d, k), c) {
      StepsAdd(q, d, -behind, k);
      RunsCoverTheLine(cells, q, d, c, k - behind);
    }
    assert FiveInRow(cells, o, d, c);
  }

  lemma FiveGivesLongRun(cells: Cells, o: Point, d: Point, c: Color, j: nat)
    requires IsDirection(d) && FiveInRow(cells, o, d, c) && j < 5
    ensures Connected(cells, Walk(o, d, j), d, c) >= 5
  {
    hide Walk, RunFrom;
    var q := Walk(o, d, j);
    // The cell that breaks each run lies outside the five.
    var ahead: int := RunFrom(cells, Walk(q, d, 1), d, c);
    RunIsMaximal(cells, Walk(q, d, 1), d, c, ahead);
    StepsAdd(q, d, 1, ahead);
    StepsAdd(o, d, j, 1 + ahead);
    assert !Holds(cells, Walk(o, d, j + 1 + ahead), c);
    var behind: int := RunFrom(cells, Walk(q, Reverse(d), 1), Reverse(d), c);
    RunIsMaximal(cells, Walk(q, Reverse(d), 1), Reverse(d), c, behind);
    StepsAdd(q, Reverse(d), 1, behind);
    StepsAdd(q, d, 0, 1 + behind);
    StepsAdd(o, d, j, -(1 + behind));
    assert !Holds(cells, Walk(o, d, j - 1 - behind), c);
  }

  /** The rescan finds a win exactly when five in a row exist somewhere. */
  lemma HasFiveMeansFiveInRow(cells: Cells, c: Color)
    ensures HasFive(cells, c) <==> exists o, i :: 0 <= i < |DIRECTIONS| && FiveInRow(cells, o, DIRECTIONS[i], c)
  {
    hide RunFrom, Connected;
    if HasFive(cells, c) {
      var n :| 0 <= n < BOARD_CELLS && cells[n] == Stone(c) && Wins(cells, PointAt(n), c);
      var i :| 0 <= i < |DIRECTIONS| && Connected(cells, PointAt(n), DIRECTIONS[i], c) >= 5;
      LongRunGivesFive(cells, PointAt(n), DIRECTIONS[i], c);
    }
    if o, i :| 0 <= i < |DIRECTIONS| && FiveInRow(cells, o, DIRECTIONS[i], c) {
      FiveGivesLongRun(cells, o, DIRECTIONS[i], c, 0);
      StepsAdd(o, DIRECTIONS[i], 0, 0);
      assert Holds(cells, Walk(o, DIRECTIONS[i], 0), c);
      IndexIsInjective(o, PointAt(o.Index()));
      assert Wins(cells, PointAt(o.Index()), c);
    }
  }

  // ----------------------------------------------------------- the incremental check

  /** On a board without five of colour `c`, a stone at `p` wins exactly when the full rescan
      of the new board finds five. */
  lemma WinCheckIsExact(cells: Cells, p: Point, c: Color)
    requires p.Valid() && cells[p.Index()] == Empty && !HasFive(cells, c)
    ensures var after := cells[p.Index() := Stone(c)];
      Wins(after, p, c) <==> HasFive(after, c)
  {
    hide RunFrom, Connected, Walk;
    var after: Cells := cells[p.Index() := Stone(c)];
    IndexIsInjective(p, PointAt(p.Index()));
    if HasFive(after, c) {
      HasFiveMeansFiveInRow(after, c);
      var o, i :| 0 <= i < |DIRECTIONS| && FiveInRow(after, o, DIRECTIONS[i], c);
      var d := DIRECTIONS[i];
      HasFiveMeansFiveInRow(cells, c);
      assert !FiveInRow(cells, o, d, c);
      var k :| 0 <= k < 5 && !Holds(cells, Walk(o, d, k), c);
      assert Holds(after, Walk(o, d, k), c);
      IndexIsInjective(Walk(o, d, k), p);
      FiveGivesLongRun(after, o, d, c, k);
      assert Connected(after, p, DIRECTIONS[i], c) >= 5;
    }
  }

  /** A stone never makes or breaks five of the other colour. */
  lemma OtherColourIsUntouched(cells: Cells, p: Point, c: Color)
    requires p.Valid() && cells[p.Index()] == Empty
    ensures HasFive(cells[p.Index() := Stone(c)], c.Opposite()) ==> HasFive(cells, c.Opposite())
  {
    var after: Cells := cells[p.Index() := Stone(c)];
    var e := c.Opposite();
    hide HasFive, RunFrom;
    HasFiveMeansFiveInRow(after, e);
    HasFiveMeansFiveInRow(cells, e);
    forall o, i | 0 <= i < |DIRECTIONS| && FiveInRow(after, o, DIRECTIONS[i], e)
      ensures FiveInRow(cells, o, DIRECTIONS[i], e)
    {
      forall k | 0 <= k < 5 ensures Holds(cells, Walk(o, DIRECTIONS[i], k), e) {
        assert Holds(after, Walk(o, DIRECTIONS[i], k), e);
      }
    }
  }

  // ----------------------------------------------------------------- every move decodes

  /** Whatever the engine plays from a position its validator accepts, the validator accepts. */
  lemma MovePassesValidator(snap: Snap, actor: UserId, point: Point)
    requires ApplyMove(snap, actor, point).Ok?
    ensures Decodes(ApplyMove(snap, actor, point).value.next)
  {
    var s := Bind(snap.state, actor).value;
    var c := s.next;
    var after: Cells := s.board[point.Index() := Stone(c)];
    StonesAfterPlacing(s.board, point.Index(), c);
    WinCheckIsExact(s.board, point, c);
    OtherColourIsUntouched(s.board, point, c);
    hide HasFive, Wins, Stones;
  }

  lemma {:induction false} NoStones(c: Color, n: nat)
    requires n <= BOARD_CELLS
    ensures Count(EmptyBoard(), c, n) == 0
  {
    if n > 0 {
      NoStones(c, n - 1);
    }
  }

  lemma InitialPassesValidator()
    ensures Decodes(InitialSnapshot())
  {
    NoStones(Black, BOARD_CELLS);
    NoStones(White, BOARD_CELLS);
    hide Wins, Count;
    assert forall i :: 0 <= i < BOARD_CELLS ==> EmptyBoard()[i] == Empty;
  }

  // ---------------------------------------------------------------------- whole games

  datatype Request = Request(actor: UserId, point: Point)

  datatype Game = Game(log: seq<Event>, snap: Snap)

  function Step(g: Game, r: Request): Game {
    match ApplyMove(g.snap, r.actor, r.point)
    case Err(_) => g
    case Ok(a) => Game(g.log + [a.event], a.next)
  }

  function Play(requests: seq<Request>): Game {
    if requests == [] then Game([], InitialSnapshot())
    else Step(Play(requests[..|requests| - 1]), requests[|requests| - 1])
  }

  lemma ReplayOneMove(snap: Snap, actor: UserId, point: Point)
    requires ApplyMove(snap, actor, point).Ok?
    ensures var a := ApplyMove(snap, actor, point).value;
      ReplayEvent(snap, a.event) == Ok(a.next) && a.event.revision == a.next.revision == snap.revision + 1
  {
    hide Decodes, AfterStone;
    var a := ApplyMove(snap, actor, point).value;
    assert Point(a.event.payload.x, a.event.payload.y) == point;
  }

  /** Every game's position passes the validator, its log replays to it, and it is over by
      the 225th move. */
  lemma {:induction false} EveryGameReplays(requests: seq<Request>)
    ensures var g := Play(requests);
      && Decodes(g.snap) && Rebuilt(g.log) == Ok(g.snap) && g.snap.revision == |g.log|
      && |g.log| <= BOARD_CELLS && (|g.log| == BOARD_CELLS ==> !g.snap.state.active)
  {
    if requests == [] {
      InitialPassesValidator();
    } else {
      var before := Play(requests[..|requests| - 1]);
      EveryGameReplays(requests[..|requests| - 1]);
      var r := requests[|requests| - 1];
      if ApplyMove(before.snap, r.actor, r.point).Ok? {
        MovePassesValidator(before.snap, r.actor, r.point);
        ReplayOneMove(before.snap, r.actor, r.point);
        var log := Play(requests).log;
        assert log[..|log| - 1] == before.log;
      }
    }
    AtMostAllStones(Play(requests).snap.state.board, BOARD_CELLS);
    hide ReplayEvent, ApplyMove, HasFive, Count;
  }

  lemma {:induction false} AtMostAllStones(cells: Cells, n: nat)
    requires n <= BOARD_CELLS
    ensures Count(cells, Black, n) + Count(cells, White, n) <= n
  {
    if n > 0 {
      AtMostAllStones(cells, n - 1);
    }
  }
}
