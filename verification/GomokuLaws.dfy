/** Gomoku read off its log: the board is the moves made so far, and a move is accepted, and ends the
    game, exactly as the rules on paper say. */
module GomokuLaws {
  import opened Common
  import opened Gomoku
  import opened GomokuProofs

  // -------------------------------------------------------------------- five in a row

  /** Five stones in a row from (x, y) on, in one of the eight directions. */
  predicate FiveFrom(board: Cells, x: int, y: int, dx: int, dy: int, c: Color) {
    forall k :: 0 <= k < 5 ==> StoneAlong(board, x, y, dx, dy, k, c)
  }

  predicate StoneAlong(board: Cells, x: int, y: int, dx: int, dy: int, k: int, c: Color) {
    StoneAt(board, x + k * dx, y + k * dy, c)
  }

  predicate StoneAt(board: Cells, x: int, y: int, c: Color) {
    0 <= x < 15 && 0 <= y < 15 && board[15 * y + x] == Stone(c)
  }

  predicate Direction(dx: int, dy: int) {
    -1 <= dx <= 1 && -1 <= dy <= 1 && (dx != 0 || dy != 0)
  }

  ghost predicate HasRow(board: Cells, c: Color) {
    exists x, y, dx, dy :: Direction(dx, dy) && FiveFrom(board, x, y, dx, dy, c)
  }

  lemma SameFive(board: Cells, o: Point, d: Point, c: Color)
    ensures FiveInRow(board, o, d, c) <==> FiveFrom(board, o.x, o.y, d.x, d.y, c)
  {
    forall k | 0 <= k < 5 ensures Holds(board, Walk(o, d, k), c) <==> StoneAlong(board, o.x, o.y, d.x, d.y, k, c) {
    }
    hide Holds, StoneAlong, Walk;
    if FiveFrom(board, o.x, o.y, d.x, d.y, c) {
      forall k | 0 <= k < 5 ensures Holds(board, Walk(o, d, k), c) {
        assert StoneAlong(board, o.x, o.y, d.x, d.y, k, c);
      }
    }
  }

  // A row read from its other end.
  lemma BackwardsFive(board: Cells, x: int, y: int, dx: int, dy: int, c: Color)
    requires FiveFrom(board, x, y, dx, dy, c)
    ensures FiveFrom(board, x + 4 * dx, y + 4 * dy, -dx, -dy, c)
  {
    hide StoneAt;
    var endX, endY, backX, backY := x + 4 * dx, y + 4 * dy, -dx, -dy;
    forall k | 0 <= k < 5 ensures StoneAlong(board, endX, endY, backX, backY, k, c) {
      assert endX + k * backX == x + (4 - k) * dx && endY + k * backY == y + (4 - k) * dy;
      assert StoneAlong(board, x, y, dx, dy, 4 - k, c);
    }
  }

  /** The rescan, which looks along four directions, finds the rows of all eight. */
  lemma RescanFindsEveryRow(board: Cells, c: Color)
    ensures HasFive(board, c) <==> HasRow(board, c)
  {
    hide FiveFrom, FiveInRow, HasFive;
    HasFiveMeansFiveInRow(board, c);
    if o, i :| 0 <= i < |DIRECTIONS| && FiveInRow(board, o, DIRECTIONS[i], c) {
      SameFive(board, o, DIRECTIONS[i], c);
      assert Direction(DIRECTIONS[i].x, DIRECTIONS[i].y);
    }
    if x, y, dx, dy :| Direction(dx, dy) && FiveFrom(board, x, y, dx, dy, c) {
      if i :| 0 <= i < |DIRECTIONS| && DIRECTIONS[i] == Point(dx, dy) {
        SameFive(board, Point(x, y), Point(dx, dy), c);
      } else {
        var i := EightWays(dx, dy);
        BackwardsFive(board, x, y, dx, dy, c);
        SameFive(board, Point(x + 4 * dx, y + 4 * dy), DIRECTIONS[i], c);
      }
    }
  }

  lemma EightWays(dx: int, dy: int) returns (i: int)
    requires Direction(dx, dy) && forall i :: 0 <= i < |DIRECTIONS| ==> DIRECTIONS[i] != Point(dx, dy)
    ensures 0 <= i < |DIRECTIONS| && DIRECTIONS[i] == Point(-dx, -dy)
  {
    assert DIRECTIONS[0] == Point(1, 0) && DIRECTIONS[1] == Point(0, 1) && DIRECTIONS[2] == Point(1, 1) && DIRECTIONS[3] == Point(1, -1);
    i := if dy == 0 then 0 else if dx == 0 then 1 else if dx == dy then 2 else 3;
  }

  // ------------------------------------------------------------------ the board is the log

  function Turn(n: nat): Color {
    if n % 2 == 0 then Black else White
  }

  predicate Played(log: seq<Event>, x: int, y: int) {
    exists i :: 0 <= i < |log| && log[i].payload.x == x && log[i].payload.y == y
  }

  /** A stone lies exactly where a move put it, in its mover's colour; black moves first, and the two
      take turns. */
  ghost predicate Told(g: Game) {
    var s := g.snap.state;
    g.snap.revision == |g.log| && s.next == Turn(|g.log|) && StonesTold(g.log, s.board) && SeatsTold(g.log, s.users)
  }

  ghost predicate StonesTold(log: seq<Event>, board: Cells) {
    && (forall i :: 0 <= i < |log| ==>
          var p := log[i].payload;
          p.user == log[i].actor && p.color == Turn(i) && StoneAt(board, p.x, p.y, Turn(i)))
    && (forall x, y :: 0 <= x < 15 && 0 <= y < 15 ==> (board[15 * y + x] == Empty <==> !Played(log, x, y)))
  }

  ghost predicate SeatsTold(log: seq<Event>, users: Sides<Option<UserId>>) {
    && users.black == (if |log| >= 1 then Some(log[0].actor) else None)
    && users.white == (if |log| >= 2 then Some(log[1].actor) else None)
    && (|log| >= 2 ==> log[0].actor != log[1].actor)
    && (forall i :: 2 <= i < |log| ==> log[i].actor == log[i - 2].actor)
  }

  lemma {:induction false} SameParity(log: seq<Event>, users: Sides<Option<UserId>>, i: nat)
    requires SeatsTold(log, users) && i < |log|
    ensures i % 2 < |log| && log[i].actor == log[i % 2].actor
  {
    if i >= 2 {
      SameParity(log, users, i - 2);
      assert (i - 2) % 2 == i % 2;
    }
  }

  lemma BindsInTurn(g: Game, actor: UserId)
    requires Told(g)
    ensures Bind(g.snap.state, actor).Some? <==> TakesTurn(g.log, actor)
    ensures Bind(g.snap.state, actor).Some? ==>
      Bind(g.snap.state, actor).value == g.snap.state.(users := g.snap.state.users.With(g.snap.state.next, Some(actor)))
  {
    hide StonesTold;
    if |g.log| >= 2 {
      SameParity(g.log, g.snap.state.users, |g.log| - 1);
      SameParity(g.log, g.snap.state.users, |g.log| - 2);
    }
  }

  lemma PlayedGrows(log: seq<Event>, e: Event, x: int, y: int)
    ensures Played(log + [e], x, y) <==> Played(log, x, y) || (e.payload.x == x && e.payload.y == y)
  {
    if i :| 0 <= i < |log| && log[i].payload.x == x && log[i].payload.y == y {
      assert (log + [e])[i].payload.x == x;
    }
    assert (log + [e])[|log|] == e;
  }

  lemma StepStaysTold(g: Game, r: Request)
    requires Told(g)
    ensures Told(Step(g, r))
  {
    if ApplyMove(g.snap, r.actor, r.point).Ok? {
      BindsInTurn(g, r.actor);
      MoveWrites(g.snap, r.actor, r.point);
      hide ApplyMove, Bind, Wins, Stones, HasFive, Decodes;
      NextIsTold(g, ApplyMove(g.snap, r.actor, r.point).value, r);
    }
  }

  // What an accepted move writes, whatever it decides.
  lemma MoveWrites(snap: Snap, actor: UserId, point: Point)
    requires ApplyMove(snap, actor, point).Ok?
    ensures point.Valid() && snap.state.board[15 * point.y + point.x] == Empty && Bind(snap.state, actor).Some?
    ensures var s, a := Bind(snap.state, actor).value, ApplyMove(snap, actor, point).value;
      && a.event == GameEvent(snap.revision + 1, actor, MoveAccepted(point.x, point.y, s.next, actor))
      && a.next.revision == snap.revision + 1 && a.next.state.next == s.next.Opposite() && a.next.state.users == s.users
      && a.next.state.board == snap.state.board[15 * point.y + point.x := Stone(s.next)]
  {
    hide Wins, Stones, Decodes;
  }

  lemma NextIsTold(g: Game, a: Applied<State, Payload>, r: Request)
    requires Told(g) && TakesTurn(g.log, r.actor)
    requires r.point.Valid() && g.snap.state.board[15 * r.point.y + r.point.x] == Empty
    requires a.event == GameEvent(|g.log| + 1, r.actor, MoveAccepted(r.point.x, r.point.y, Turn(|g.log|), r.actor))
    requires a.next.revision == |g.log| + 1 && a.next.state.next == Turn(|g.log|).Opposite()
    requires a.next.state.users == g.snap.state.users.With(Turn(|g.log|), Some(r.actor))
    requires a.next.state.board == g.snap.state.board[15 * r.point.y + r.point.x := Stone(Turn(|g.log|))]
    ensures Told(Game(g.log + [a.event], a.next))
  {
    hide StonesTold, SeatsTold, TakesTurn;
    StoneIsTold(g.log, g.snap.state.board, a.event);
    SeatIsTold(g.log, g.snap.state.users, a.event);
  }

  lemma StoneIsTold(log: seq<Event>, board: Cells, e: Event)
    requires StonesTold(log, board) && 0 <= e.payload.x < 15 && 0 <= e.payload.y < 15 && board[15 * e.payload.y + e.payload.x] == Empty
    requires e.payload.user == e.actor && e.payload.color == Turn(|log|)
    ensures StonesTold(log + [e], board[15 * e.payload.y + e.payload.x := Stone(Turn(|log|))])
  {
    var more, after := log + [e], board[15 * e.payload.y + e.payload.x := Stone(Turn(|log|))];
    hide Played;
    forall i | 0 <= i < |more|
      ensures more[i].payload.user == more[i].actor && more[i].payload.color == Turn(i)
      ensures StoneAt(after, more[i].payload.x, more[i].payload.y, Turn(i))
    {
      if i < |log| {
        assert more[i] == log[i];
      }
    }
    hide StoneAt, Turn;
    forall x, y | 0 <= x < 15 && 0 <= y < 15 ensures after[15 * y + x] == Empty <==> !Played(more, x, y) {
      PlayedGrows(log, e, x, y);
    }
  }

  lemma SeatIsTold(log: seq<Event>, users: Sides<Option<UserId>>, e: Event)
    requires SeatsTold(log, users) && TakesTurn(log, e.actor)
    ensures SeatsTold(log + [e], users.With(Turn(|log|), Some(e.actor)))
  {
    var more := log + [e];
    forall i | 2 <= i < |more| ensures more[i].actor == more[i - 2].actor {
      assert more[i - 2] == log[i - 2];
    }
    if |log| >= 2 {
      SameParity(log, users, |log| - 1);
      SameParity(log, users, |log| - 2);
    }
  }

  lemma {:induction false} EveryGameIsTold(requests: seq<Request>)
    ensures Told(Play(requests))
  {
    hide Told, Step;
    if requests == [] {
      NothingTold();
    } else {
      EveryGameIsTold(requests[..|requests| - 1]);
      StepStaysTold(Play(requests[..|requests| - 1]), requests[|requests| - 1]);
    }
  }

  lemma NothingTold()
    ensures Told(Game([], InitialSnapshot()))
  {
  }

  // ------------------------------------------------------------------------- every move

  /** In any game the next move is accepted if and only if the game is on, the point is on the board and
      nobody has moved there, and it is the mover's turn by the log. It wins exactly if it makes five of
      the mover's stones stand in a row, in any direction, and otherwise draws exactly if it is the 225th. */
  lemma AcceptedExactlyByTheRules(requests: seq<Request>, actor: UserId, point: Point)
    ensures var g := Play(requests);
      var s, c, reply := g.snap.state, Turn(|g.log|), ApplyMove(g.snap, actor, point);
      var onBoard := 0 <= point.x < 15 && 0 <= point.y < 15;
      && (reply.Ok? <==> s.active && onBoard && !Played(g.log, point.x, point.y) && TakesTurn(g.log, actor))
      && (reply.Ok? ==>
           var t := reply.value.next.state;
           && reply.value.event == GameEvent(|g.log| + 1, actor, MoveAccepted(point.x, point.y, c, actor))
           && (t.result == Some(Five) <==> HasRow(t.board, c))
           && (t.result == Some(Draw) <==> !HasRow(t.board, c) && |g.log| + 1 == 225)
           && (t.active <==> t.result == None)
           && t.winner == (if t.result == Some(Five) then Some(actor) else None))
      && (reply == Err(NotYourTurn) <==> s.active && onBoard && !TakesTurn(g.log, actor))
      && (reply == Err(CellOccupied) <==> s.active && onBoard && TakesTurn(g.log, actor) && Played(g.log, point.x, point.y))
  {
    var g := Play(requests);
    EveryGameReplays(requests);
    EveryGameIsTold(requests);
    BindsInTurn(g, actor);
    hide Play, Told, TakesTurn, HasRow;
    PointFreeIfNotPlayed(g, point);
    if ApplyMove(g.snap, actor, point).Ok? {
      hide Played;
      MoveWrites(g.snap, actor, point);
      MovePassesValidator(g.snap, actor, point);
      MoveDecides(g.snap, actor, point);
      var t := ApplyMove(g.snap, actor, point).value.next;
      hide ApplyMove;
      RescanFindsEveryRow(t.state.board, Turn(|g.log|));
    }
    hide HasFive, Stones, Wins;
  }

  lemma PointFreeIfNotPlayed(g: Game, point: Point)
    requires Told(g)
    ensures g.snap.revision == |g.log| && g.snap.state.next == Turn(|g.log|)
    ensures point.Valid() ==> (g.snap.state.board[point.Index()] == Empty <==> !Played(g.log, point.x, point.y))
  {
    hide Played, StoneAt, SeatsTold;
  }

  lemma MoveDecides(snap: Snap, actor: UserId, point: Point)
    requires ApplyMove(snap, actor, point).Ok?
    ensures var c, t := snap.state.next, ApplyMove(snap, actor, point).value.next.state;
      && (t.result == Some(Five) <==> HasFive(t.board, c))
      && (t.result == Some(Draw) <==> !HasFive(t.board, c) && snap.revision + 1 == 225)
      && (t.active <==> t.result == None)
      && t.winner == (if t.result == Some(Five) then Some(actor) else None)
  {
    var s := Bind(snap.state, actor).value;
    WinCheckIsExact(s.board, point, s.next);
    StonesAfterPlacing(s.board, point.Index(), s.next);
    assert s.next.Black? || s.next.White?;
    hide HasFive, Stones, Wins;
  }

  // ---------------------------------------------------------------------- only games replay

  lemma ReplayedOnce(snap: Snap, e: Event)
    requires ReplayEvent(snap, e).Ok? && e.revision == snap.revision + 1
    ensures ApplyMove(snap, e.actor, Point(e.payload.x, e.payload.y)) == Ok(Applied(e, ReplayEvent(snap, e).value))
  {
    hide Decodes, AfterStone;
  }

  /** Replay accepts nothing that was not played: a log that replays is the log of a game, in which its
      movers made just these moves, and it replays to the position of that game. */
  lemma {:induction false} ReplayedWasPlayed(events: seq<Event>) returns (requests: seq<Request>)
    requires Rebuilt(events).Ok?
    ensures Play(requests) == Game(events, Rebuilt(events).value) && |requests| == |events|
  {
    hide ApplyMove, ReplayEvent, InitialSnapshot;
    if events == [] {
      requests := [];
    } else {
      var front, e := events[..|events| - 1], events[|events| - 1];
      requests := ReplayedWasPlayed(front);
      RevisionIsLength(requests);
      ReplayedOnce(Rebuilt(front).value, e);
      var r := Request(e.actor, Point(e.payload.x, e.payload.y));
      assert (requests + [r])[..|requests|] == requests;
      assert events == front + [e];
      requests := requests + [r];
    }
  }

  lemma RevisionIsLength(requests: seq<Request>)
    ensures Play(requests).snap.revision == |Play(requests).log|
  {
    EveryGameReplays(requests);
    hide Play, Decodes, Rebuilt;
  }
}
