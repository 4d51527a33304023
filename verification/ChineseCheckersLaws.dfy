/** Chinese checkers measured on the board itself: which points of the plane are holes, how far apart
    a step and a jump take a piece, where the camps lie, and from that exactly which moves a game
    accepts and what they do. */
module ChineseCheckersLaws {
  import opened Common
  import opened ChineseCheckers
  import opened ChineseCheckersRules
  import opened ChineseCheckersProofs

  // ------------------------------------------------------------------------- the star

  /** A point of the hexagonal lattice, x in half steps from the star's middle, y in rows from it. */
  predicate InStar(x: int, y: int) {
    (x + y) % 2 == 0 && ((y <= 4 && Within(x, y + 8)) || (y >= -4 && Within(x, 8 - y)))
  }

  predicate Within(x: int, bound: int) {
    -bound <= x <= bound
  }

  /** The holes are the lattice points of two overlapping triangles. */
  lemma HolesAreTheStar(p: Point)
    ensures IndexOf(p).Some? <==> InStar(p.x2 - 12, p.y - 8)
  {
  }

  lemma RowsInOrder(i: int, j: int)
    requires OnBoard(i) && OnBoard(j) && i < j
    ensures PointOf(i).y < PointOf(j).y || (PointOf(i).y == PointOf(j).y && PointOf(i).x2 < PointOf(j).x2)
  {
  }

  /** They are numbered row by row, and along each row. */
  lemma HolesAreNumberedInOrder(i: int, j: int)
    requires OnBoard(i) && OnBoard(j)
    ensures i < j <==> PointOf(i).y < PointOf(j).y || (PointOf(i).y == PointOf(j).y && PointOf(i).x2 < PointOf(j).x2)
  {
    if i < j {
      RowsInOrder(i, j);
    } else if j < i {
      RowsInOrder(j, i);
    }
    hide PointOf;
  }

  /** The target camps are the star's upper and lower points, the wings its other four. */
  lemma CampsAreThePoints(i: int)
    requires OnBoard(i)
    ensures var x, y := PointOf(i).x2 - 12, PointOf(i).y - 8;
      && (TargetCamp(i, White) <==> y < -4) && (TargetCamp(i, Black) <==> y > 4)
      && (NeutralCamp(i) <==> !Within(x - y, 8) || !Within(x + y, 8))
  {
  }

  // -------------------------------------------------------------------- steps and jumps

  /** Four times the square of the distance of two holes, in steps. */
  function Distance(i: int, j: int): int {
    var dx, dy := PointOf(j).x2 - PointOf(i).x2, PointOf(j).y - PointOf(i).y;
    dx * dx + 3 * (dy * dy)
  }

  lemma SmallSquares(n: int)
    ensures n * n < 1 <==> n == 0
    ensures n * n == 1 <==> n == 1 || n == -1
    ensures n * n == 4 <==> n == 2 || n == -2
    ensures n * n == 16 <==> n == 4 || n == -4
    ensures n * n != 13 && n * n >= 0
    ensures n * n < 6 <==> -2 <= n <= 2
  {
    if n >= 5 || n <= -5 {
      assert n * n >= 25 by {
        if n >= 5 {
          assert n * n >= 5 * n;
        } else {
          assert n * n >= -5 * n;
        }
      }
    }
  }

  lemma Deltas(dx: int, dy: int)
    ensures AdjacentDelta(dx, dy) <==> dx * dx + 3 * (dy * dy) == 4
    ensures JumpDelta(dx, dy) <==> dx * dx + 3 * (dy * dy) == 16
  {
    SmallSquares(dx);
    SmallSquares(dy);
  }

  /** A step goes to a hole one step away, in whatever direction. */
  lemma AdjacentIsOneStep(i: int, j: int)
    ensures Adjacent(i, j) <==> Distance(i, j) == 4
  {
    Deltas(PointOf(j).x2 - PointOf(i).x2, PointOf(j).y - PointOf(i).y);
    hide PointOf, AdjacentDelta;
  }

  /** A jump goes to a hole two steps away in a straight line, over the hole between. */
  ghost predicate Between(i: int, m: int, j: int) {
    OnBoard(m) && Distance(i, m) == 4 && Distance(m, j) == 4
    && 2 * PointOf(m).x2 == PointOf(i).x2 + PointOf(j).x2 && 2 * PointOf(m).y == PointOf(i).y + PointOf(j).y
  }

  lemma MiddleOfJump(dx: int, dy: int)
    requires JumpDelta(dx, dy)
    ensures 2 * (dx / 2) == dx && 2 * (dy / 2) == dy && AdjacentDelta(dx / 2, dy / 2) && AdjacentDelta(dx - dx / 2, dy - dy / 2)
  {
  }

  // Two lattice points of the star that are two steps apart have a star point between them.
  lemma StarHasNoNotches(x: int, y: int, dx: int, dy: int)
    requires InStar(x, y) && InStar(x + dx, y + dy) && JumpDelta(dx, dy)
    ensures InStar(x + dx / 2, y + dy / 2)
  {
    MiddleOfJump(dx, dy);
    assert (x + dx / 2 + y + dy / 2) % 2 == 0;
  }

  /** A hole that is a jump away is two equal steps away, over a hole of the board: the one that the
      rules look at. */
  lemma JumpIsTwoSteps(i: int, j: int)
    requires OnBoard(i) && OnBoard(j)
    ensures JumpApart(i, j) <==> Distance(i, j) == 16
    ensures JumpApart(i, j) ==> Middle(i, j).Some? && Between(i, Middle(i, j).value, j)
    ensures forall m :: Between(i, m, j) ==> Middle(i, j) == Some(m) && JumpApart(i, j)
  {
    hide IndexOf, PointOf, InStar;
    var p, q := PointOf(i), PointOf(j);
    var dx, dy := q.x2 - p.x2, q.y - p.y;
    Deltas(dx, dy);
    if JumpApart(i, j) {
      MiddleOfJump(dx, dy);
      var m := Point(p.x2 + dx / 2, p.y + dy / 2);
      HoleIsOnItsRow(i);
      HoleIsOnItsRow(j);
      HolesAreTheStar(p);
      HolesAreTheStar(q);
      StarHasNoNotches(p.x2 - 12, p.y - 8, dx, dy);
      HolesAreTheStar(m);
      PointIsAHole(m);
      Deltas(dx / 2, dy / 2);
      Deltas(dx - dx / 2, dy - dy / 2);
    }
    forall m | Between(i, m, j) ensures Middle(i, j) == Some(m) && JumpApart(i, j) {
      var o := PointOf(m);
      TwoStepsAreAJump(o.x2 - p.x2, o.y - p.y);
      assert o == Point(p.x2 + dx / 2, p.y + dy / 2);
      HoleIsOnItsRow(m);
    }
  }

  lemma TwoStepsAreAJump(dx: int, dy: int)
    requires dx * dx + 3 * (dy * dy) == 4
    ensures JumpDelta(2 * dx, 2 * dy)
  {
    Deltas(dx, dy);
  }

  // ----------------------------------------------------------------------- legal moves

  predicate InWing(i: int) {
    var x, y := PointOf(i).x2 - 12, PointOf(i).y - 8;
    !Within(x - y, 8) || !Within(x + y, 8)
  }

  predicate InPoint(i: int, c: Color) {
    if c.White? then PointOf(i).y - 8 < -4 else PointOf(i).y - 8 > 4
  }

  /** One move read off the board: one step, or a chain of jumps, each over a piece that is not the
      moving one, through empty holes all different; not into a wing, and not out of the camp the
      piece is bound for. */
  ghost predicate MayTravel(cells: Cells, c: Color, path: seq<int>) {
    && |path| >= 2 && (forall i :: 0 <= i < |path| ==> 0 <= path[i] < 121) && (forall i, j :: 0 <= i < j < |path| ==> path[i] != path[j])
    && cells[path[0]] == Stone(c) && (forall i :: 1 <= i < |path| ==> cells[path[i]] == Empty)
    && ((|path| == 2 && Distance(path[0], path[1]) == 4)
        || forall i :: 1 <= i < |path| ==> JumpsOver(cells, path[0], path[i - 1], path[i]))
    && !InWing(path[|path| - 1]) && (InPoint(path[0], c) ==> InPoint(path[|path| - 1], c))
  }

  ghost predicate JumpsOver(cells: Cells, source: int, i: int, j: int) {
    exists m :: Between(i, m, j) && m != source && cells[m] != Empty
  }

  lemma HopIsAJump(cells: Cells, source: int, i: int, j: int)
    requires OnBoard(source) && OnBoard(i) && OnBoard(j)
    ensures Hop(cells[source := Empty], i, j) <==> JumpsOver(cells, source, i, j)
  {
    hide PointOf, IndexOf, Distance;
    JumpIsTwoSteps(i, j);
    if Hop(cells[source := Empty], i, j) {
      MiddleIsBetween(i, j);
      var m := Middle(i, j).value;
      assert Between(i, m, j) && m != source && cells[m] != Empty;
    }
    if JumpsOver(cells, source, i, j) {
      var m :| Between(i, m, j) && m != source && cells[m] != Empty;
    }
  }

  ghost function Below(n: nat): (r: set<int>)
    ensures |r| == n && forall i :: i in r <==> 0 <= i < n
  {
    if n == 0 then {} else Below(n - 1) + {n - 1}
  }

  ghost function Visited(path: seq<int>): (r: set<int>)
    ensures forall x :: x in r <==> x in path
  {
    set x | x in path
  }

  lemma {:induction false} VisitedCount(path: seq<int>)
    requires Distinct(path)
    ensures |Visited(path)| == |path|
  {
    if path == [] {
      assert Visited(path) == {};
    } else {
      var front, last := path[..|path| - 1], path[|path| - 1];
      VisitedCount(front);
      assert path == front + [last];
      assert Visited(path) == Visited(front) + {last} && last !in Visited(front);
    }
  }

  /** Distinct holes are no more than the board has. */
  lemma FewDistinct(path: seq<int>)
    requires (forall i :: 0 <= i < |path| ==> 0 <= path[i] < BOARD_CELLS) && Distinct(path)
    ensures |path| <= BOARD_CELLS
  {
    hide Below, Visited;
    VisitedCount(path);
    var rest := Below(BOARD_CELLS) - Visited(path);
    assert Below(BOARD_CELLS) == rest + Visited(path);
  }

  /** The rules accept exactly these moves. */
  lemma LegalExactlyIfItMayTravel(cells: Cells, c: Color, path: seq<int>)
    ensures LegalPath(cells, c, path) <==> MayTravel(cells, c, path)
  {
    hide NeutralCamp, TargetCamp, Hop, Adjacent, JumpsOver, PointOf, Distance;
    if ProperPath(path) {
      var lifted: Cells := cells[path[0] := Empty];
      forall i | 1 <= i < |path|
        ensures Hop(lifted, path[i - 1], path[i]) <==> JumpsOver(cells, path[0], path[i - 1], path[i])
        ensures Adjacent(path[i - 1], path[i]) <==> Distance(path[i - 1], path[i]) == 4
        ensures Adjacent(path[i - 1], path[i]) ==> !JumpsOver(cells, path[0], path[i - 1], path[i])
        ensures lifted[path[i]] == cells[path[i]]
      {
        HopIsAJump(cells, path[0], path[i - 1], path[i]);
        AdjacentIsOneStep(path[i - 1], path[i]);
        StepIsNoJump(lifted, path[i - 1], path[i]);
      }
      CampsAreThePoints(path[0]);
      CampsAreThePoints(path[|path| - 1]);
      TravelsAsItHops(cells, c, path);
    } else if MayTravel(cells, c, path) {
      FewDistinct(path);
    }
  }

  lemma StepIsNoJump(cells: Cells, i: int, j: int)
    ensures Adjacent(i, j) ==> !Hop(cells, i, j)
  {
    hide PointOf, IndexOf;
  }

  lemma TravelsAsItHops(cells: Cells, c: Color, path: seq<int>)
    requires ProperPath(path)
    requires var lifted: Cells := cells[path[0] := Empty];
      forall i :: 1 <= i < |path| ==>
        && (Hop(lifted, path[i - 1], path[i]) <==> JumpsOver(cells, path[0], path[i - 1], path[i]))
        && (Adjacent(path[i - 1], path[i]) <==> Distance(path[i - 1], path[i]) == 4)
        && (Adjacent(path[i - 1], path[i]) ==> !JumpsOver(cells, path[0], path[i - 1], path[i]))
        && lifted[path[i]] == cells[path[i]]
    requires InWing(path[|path| - 1]) <==> NeutralCamp(path[|path| - 1])
    requires InPoint(path[0], c) <==> TargetCamp(path[0], c)
    requires InPoint(path[|path| - 1], c) <==> TargetCamp(path[|path| - 1], c)
    ensures LegalPath(cells, c, path) <==> MayTravel(cells, c, path)
  {
    hide NeutralCamp, TargetCamp, Hop, Adjacent, JumpsOver, PointOf, Distance, InWing, InPoint;
    if LegalPath(cells, c, path) && !(|path| == 2 && Distance(path[0], path[1]) == 4) {
      forall i | 1 <= i < |path| ensures JumpsOver(cells, path[0], path[i - 1], path[i]) {
      }
    }
  }

  // ---------------------------------------------------------------------- whole games

  function ToMove(log: seq<Event>): Color {
    if |log| % 2 == 0 then Black else White
  }

  /** The seats are those of the first two movers, who have moved in turn ever since. */
  ghost predicate SeatedInTurn(g: Game) {
    && g.snap.revision == |g.log| && g.snap.state.next == ToMove(g.log)
    && g.snap.state.users.black == (if |g.log| >= 1 then Some(g.log[0].actor) else None)
    && g.snap.state.users.white == (if |g.log| >= 2 then Some(g.log[1].actor) else None)
    && (|g.log| >= 2 ==> g.log[0].actor != g.log[1].actor)
    && (forall i :: 2 <= i < |g.log| ==> g.log[i].actor == g.log[i - 2].actor)
  }

  lemma LastTwo(g: Game)
    requires SeatedInTurn(g) && |g.log| >= 2
    ensures g.log[|g.log| - 2].actor == g.log[|g.log| % 2].actor && g.log[|g.log| - 1].actor == g.log[(|g.log| + 1) % 2].actor
  {
    SameParity(g, |g.log| - 2);
    SameParity(g, |g.log| - 1);
  }

  lemma {:induction false} SameParity(g: Game, i: nat)
    requires SeatedInTurn(g) && i < |g.log|
    ensures i % 2 < |g.log| && g.log[i].actor == g.log[i % 2].actor
  {
    if i >= 2 {
      SameParity(g, i - 2);
      assert (i - 2) % 2 == i % 2;
    }
  }

  lemma BindsInTurn(g: Game, actor: UserId)
    requires SeatedInTurn(g)
    ensures Bind(g.snap.state, actor).Some? <==> TakesTurn(g.log, actor)
    ensures Bind(g.snap.state, actor).Some? ==>
      Bind(g.snap.state, actor).value == g.snap.state.(users := g.snap.state.users.With(g.snap.state.next, Some(actor)))
  {
    if |g.log| >= 2 {
      LastTwo(g);
    }
  }

  lemma StepKeepsSeats(g: Game, r: Request)
    requires SeatedInTurn(g)
    ensures SeatedInTurn(Step(g, r))
  {
    hide LegalPath, Decodes, CompletedCamp, DecodesPath;
    BindsInTurn(g, r.actor);
  }

  lemma {:induction false} EveryGameIsSeated(requests: seq<Request>)
    ensures SeatedInTurn(Play(requests))
  {
    hide SeatedInTurn, Step;
    if requests == [] {
      NobodySeated();
    } else {
      EveryGameIsSeated(requests[..|requests| - 1]);
      StepKeepsSeats(Play(requests[..|requests| - 1]), requests[|requests| - 1]);
    }
  }

  lemma NobodySeated()
    ensures SeatedInTurn(Game([], InitialSnapshot()))
  {
  }

  /** Every hole of the point that the colour is bound for holds its piece. */
  ghost predicate AllHome(cells: Cells, c: Color) {
    forall i :: 0 <= i < 121 && InPoint(i, c) ==> cells[i] == Stone(c)
  }

  lemma CompletedMeansHome(cells: Cells, c: Color)
    ensures CompletedCamp(cells, c) <==> AllHome(cells, c)
  {
    hide PointOf, TargetCamp;
    forall i | 0 <= i < 121 ensures InPoint(i, c) <==> TargetCamp(i, c) {
      CampsAreThePoints(i);
    }
    hide InPoint;
  }

  /** Both sides start in the point across from the one they are bound for, and the rest is empty. */
  lemma GamesStartAcross(i: int)
    requires 0 <= i < 121
    ensures var board := InitialSnapshot().state.board;
      && (board[i] == Stone(Black) <==> InPoint(i, White)) && (board[i] == Stone(White) <==> InPoint(i, Black))
  {
    CampsAreThePoints(i);
  }

  /** In any game the next move is accepted if and only if the game is on, it is the mover's turn by the
      log, and the move can be made on the board. It then moves that one piece, and ends the game,
      with its mover the winner, exactly if it brings the last piece home. */
  lemma AcceptedExactlyIfItMayTravel(requests: seq<Request>, actor: UserId, path: seq<int>)
    ensures var g := Play(requests);
      var s, c, reply := g.snap.state, ToMove(g.log), ApplyMove(g.snap, actor, path);
      && (reply.Ok? <==> s.active && TakesTurn(g.log, actor) && MayTravel(s.board, c, path))
      && (reply.Ok? ==>
           var t := reply.value.next.state;
           && reply.value.event == GameEvent(|g.log| + 1, actor, MoveAccepted(path, c, actor))
           && t.board == s.board[path[0] := Empty][path[|path| - 1] := Stone(c)]
           && (t.active <==> !AllHome(t.board, c))
           && (!t.active ==> t.winner == Some(actor) && t.result == Some(Goal)))
      && (reply == Err(NotYourTurn) <==> DecodesPath(path) && s.active && !TakesTurn(g.log, actor))
      && (reply == Err(InvalidMove) <==> DecodesPath(path) && s.active && TakesTurn(g.log, actor) && !MayTravel(s.board, c, path))
  {
    var g := Play(requests);
    EveryGameReplays(requests);
    EveryGameIsSeated(requests);
    BindsInTurn(g, actor);
    LegalExactlyIfItMayTravel(g.snap.state.board, ToMove(g.log), path);
    ProperPathsDecode(g.snap.state.board, ToMove(g.log), path);
    hide Play, LegalPath, MayTravel, Decodes, CompletedCamp, DecodesPath, SeatedInTurn, AllHome, TakesTurn, Bind;
    if ApplyMove(g.snap, actor, path).Ok? {
      CompletedMeansHome(ApplyMove(g.snap, actor, path).value.next.state.board, ToMove(g.log));
    }
  }

  lemma ProperPathsDecode(cells: Cells, c: Color, path: seq<int>)
    ensures LegalPath(cells, c, path) ==> DecodesPath(path)
    ensures DecodesPath(path) ==> |path| >= 2 && OnBoard(path[0]) && OnBoard(path[|path| - 1])
  {
    hide HopsUpTo, CampRules;
  }

  // ---------------------------------------------------------------------- only games replay

  lemma ReplayedOnce(snap: Snap, e: Event)
    requires ReplayEvent(snap, e).Ok? && e.revision == snap.revision + 1
    ensures ApplyMove(snap, e.actor, e.payload.path) == Ok(Applied(e, ReplayEvent(snap, e).value))
  {
    hide Decodes, AfterMove, LegalPath;
  }

  /** Replay accepts nothing that was not played: a log that replays is the log of a game, in which its
      movers made just these moves, and it replays to the position of that game. */
  lemma {:induction false} ReplayedWasPlayed(events: seq<Event>) returns (requests: seq<Request>)
    requires Rebuilt(events).Ok?
    ensures Play(requests) == Game(events, Rebuilt(events).value) && |requests| == |events|
  {
    hide ApplyMove, ReplayEvent, InitialSnapshot;
    if events == [] {
      requests := [];
    } else {
      var front, e := events[..|events| - 1], events[|events| - 1];
      requests := ReplayedWasPlayed(front);
      RevisionIsLength(requests);
      ReplayedOnce(Rebuilt(front).value, e);
      var r := Request(e.actor, e.payload.path);
      assert (requests + [r])[..|requests|] == requests;
      assert events == front + [e];
      requests := requests + [r];
    }
  }

  lemma RevisionIsLength(requests: seq<Request>)
    ensures Play(requests).snap.revision == |Play(requests).log|
  {
    EveryGameReplays(requests);
    hide Play, Decodes, Rebuilt, WingsEmpty;
  }
}
