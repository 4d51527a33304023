/** Reversi by the rules on paper: where a disc may be placed, what it turns, whose turn follows, and how
    the discs decide the game. */
module ReversiLaws {
  import opened Common
  import opened Reversi
  import opened ReversiProofs

  // ------------------------------------------------------------------- outflanking a line

  predicate DiscAt(b: Board, x: int, y: int, c: Color) {
    0 <= x < 8 && 0 <= y < 8 && b[8 * y + x] == Stone(c)
  }

  predicate DiscAlong(b: Board, x: int, y: int, dx: int, dy: int, k: int, c: Color) {
    DiscAt(b, x + k * dx, y + k * dy, c)
  }

  /** In direction (dx, dy) the other colour's discs stand side by side up to an own disc `n` steps away. */
  predicate Outflanks(b: Board, x: int, y: int, dx: int, dy: int, n: int, c: Color) {
    && -1 <= dx <= 1 && -1 <= dy <= 1 && (dx != 0 || dy != 0) && n >= 2
    && DiscAlong(b, x, y, dx, dy, n, c) && forall k :: 1 <= k < n ==> DiscAlong(b, x, y, dx, dy, k, c.Opposite())
  }

  ghost predicate MayPlace(b: Board, x: int, y: int, c: Color) {
    0 <= x < 8 && 0 <= y < 8 && b[8 * y + x] == Empty && exists dx, dy, n :: Outflanks(b, x, y, dx, dy, n, c)
  }

  /** A disc placed at (x, y) outflanks the one at (u, v). */
  ghost predicate Turns(b: Board, x: int, y: int, c: Color, u: int, v: int) {
    exists dx, dy, n, k :: Outflanks(b, x, y, dx, dy, n, c) && 1 <= k < n && OnLine(x, y, dx, dy, k, u, v)
  }

  predicate OnLine(x: int, y: int, dx: int, dy: int, k: int, u: int, v: int) {
    u == x + k * dx && v == y + k * dy
  }

  ghost predicate CanMove(b: Board, c: Color) {
    exists x, y :: MayPlace(b, x, y, c)
  }

  lemma FlankedOutflanks(b: Board, p: Point, dx: int, dy: int, c: Color, n: int)
    requires IsDirection(dx, dy) && n >= 2
    ensures Flanked(b, p, dx, dy, c, n) <==> Outflanks(b, p.x, p.y, dx, dy, n, c)
  {
    forall k: int ensures Has(b, Walk(p, dx, dy, k), c) <==> DiscAlong(b, p.x, p.y, dx, dy, k, c) {
    }
    forall k: int ensures Has(b, Walk(p, dx, dy, k), c.Opposite()) <==> DiscAlong(b, p.x, p.y, dx, dy, k, c.Opposite()) {
    }
    hide Has, DiscAlong, Walk;
    if Outflanks(b, p.x, p.y, dx, dy, n, c) {
      forall k | 1 <= k < n ensures Has(b, Walk(p, dx, dy, k), c.Opposite()) {
        assert DiscAlong(b, p.x, p.y, dx, dy, k, c.Opposite());
      }
    }
  }

  lemma EveryDirectionIsLookedAlong(dx: int, dy: int) returns (m: int)
    requires IsDirection(dx, dy)
    ensures 0 <= m < 9 && PAIRS[m] == (dx, dy)
  {
    m := 3 * (dy + 1) + dx + 1;
    assert dx == -1 || dx == 0 || dx == 1;
    assert dy == -1 || dy == 0 || dy == 1;
  }

  /** The flips are the outflanked discs. */
  lemma FlipsAreTurned(b: Board, p: Point, c: Color, q: Point)
    requires p.Valid() && b[At(p)] == Empty && q.Valid()
    ensures At(q) in Flips(b, p, c) <==> Turns(b, p.x, p.y, c, q.x, q.y)
  {
    hide Flips, Flanked, Outflanks, Walk, At;
    FlipsAreTheFlanked(b, p, c, At(q));
    if At(q) in Flips(b, p, c) {
      var m, n, k :| 0 <= m < 9 && IsDirection(PAIRS[m].0, PAIRS[m].1) && 1 <= k < n
        && Flanked(b, p, PAIRS[m].0, PAIRS[m].1, c, n) && At(q) == At'(Walk(p, PAIRS[m].0, PAIRS[m].1, k));
      FlankedOutflanks(b, p, PAIRS[m].0, PAIRS[m].1, c, n);
      SamePoint(b, p, PAIRS[m].0, PAIRS[m].1, c, n, k, q);
    }
    if dx, dy, n, k :| Outflanks(b, p.x, p.y, dx, dy, n, c) && 1 <= k < n && OnLine(p.x, p.y, dx, dy, k, q.x, q.y) {
      OutflanksAlong(b, p, dx, dy, n, c);
      var m := EveryDirectionIsLookedAlong(dx, dy);
      FlankedOutflanks(b, p, dx, dy, c, n);
      IsAtWalk(p, dx, dy, k, q);
    }
  }

  lemma OutflanksAlong(b: Board, p: Point, dx: int, dy: int, n: int, c: Color)
    requires Outflanks(b, p.x, p.y, dx, dy, n, c)
    ensures IsDirection(dx, dy) && n >= 2
  {
  }

  lemma IsAtWalk(p: Point, dx: int, dy: int, k: int, q: Point)
    requires q.Valid() && OnLine(p.x, p.y, dx, dy, k, q.x, q.y)
    ensures At'(Walk(p, dx, dy, k)) == At(q)
  {
  }

  lemma SamePoint(b: Board, p: Point, dx: int, dy: int, c: Color, n: int, k: int, q: Point)
    requires Flanked(b, p, dx, dy, c, n) && 1 <= k < n && q.Valid() && At(q) == At'(Walk(p, dx, dy, k))
    ensures OnLine(p.x, p.y, dx, dy, k, q.x, q.y)
  {
    assert Has(b, Walk(p, dx, dy, k), c.Opposite());
    AtIsInjective(q, Walk(p, dx, dy, k));
  }

  /** There is something to flip exactly where a disc may be placed. */
  lemma LegalIsPlaceable(b: Board, p: Point, c: Color)
    ensures Flips(b, p, c) != [] <==> MayPlace(b, p.x, p.y, c)
  {
    hide Flips, Outflanks;
    if Flips(b, p, c) != [] {
      FlipsNeedAPoint(b, p, c);
      FlipsAreTheFlanked(b, p, c, Flips(b, p, c)[0]);
      hide Flanked, Walk;
      var m, n, k :| 0 <= m < 9 && IsDirection(PAIRS[m].0, PAIRS[m].1) && 1 <= k < n
        && Flanked(b, p, PAIRS[m].0, PAIRS[m].1, c, n) && Flips(b, p, c)[0] == At'(Walk(p, PAIRS[m].0, PAIRS[m].1, k));
      FlankedOutflanks(b, p, PAIRS[m].0, PAIRS[m].1, c, n);
    }
    if MayPlace(b, p.x, p.y, c) {
      var dx, dy, n :| Outflanks(b, p.x, p.y, dx, dy, n, c);
      NextIsTurned(b, p, dx, dy, n, c);
      FlipsAreTurned(b, p, c, Point(p.x + dx, p.y + dy));
    }
  }

  lemma NextIsTurned(b: Board, p: Point, dx: int, dy: int, n: int, c: Color)
    requires Outflanks(b, p.x, p.y, dx, dy, n, c)
    ensures Point(p.x + dx, p.y + dy).Valid() && Turns(b, p.x, p.y, c, p.x + dx, p.y + dy)
  {
    assert DiscAlong(b, p.x, p.y, dx, dy, 1, c.Opposite());
    assert OnLine(p.x, p.y, dx, dy, 1, p.x + dx, p.y + dy);
    hide Outflanks;
  }

  lemma SomeMoveMeansLegal(b: Board, c: Color)
    ensures Legal(b, c) != [] <==> CanMove(b, c)
  {
    hide Flips, LegalRows, MayPlace;
    if Legal(b, c) != [] {
      var p := Legal(b, c)[0];
      LegalRowsSpec(b, c, 8, p);
      LegalIsPlaceable(b, p, c);
    }
    if x, y :| MayPlace(b, x, y, c) {
      LegalIsPlaceable(b, Point(x, y), c);
      FlipsNeedAPoint(b, Point(x, y), c);
      LegalRowsSpec(b, c, 8, Point(x, y));
    }
  }

  // -------------------------------------------------------------------------- counting

  ghost function Discs(b: Board, c: Color, n: nat): (r: set<int>)
    requires n <= 64
  {
    set i | 0 <= i < n && b[i] == Stone(c)
  }

  lemma {:induction false} CountIsDiscs(b: Board, c: Color, n: nat)
    requires n <= 64
    ensures Count(b, c, n) == |Discs(b, c, n)|
  {
    if n == 0 {
      assert Discs(b, c, 0) == {};
    } else {
      CountIsDiscs(b, c, n - 1);
      if b[n - 1] == Stone(c) {
        assert Discs(b, c, n) == Discs(b, c, n - 1) + {n - 1};
      } else {
        assert Discs(b, c, n) == Discs(b, c, n - 1);
      }
    }
  }

  // ------------------------------------------------------------------------- one move

  /** The new disc and everything it outflanks have the mover's colour, everything else is as before. */
  ghost predicate BoardAfter(b: Board, x: int, y: int, c: Color, after: Board) {
    forall u, v :: 0 <= u < 8 && 0 <= v < 8 ==>
      after[8 * v + u] == if (u == x && v == y) || Turns(b, x, y, c, u, v) then Stone(c) else b[8 * v + u]
  }

  /** The turn passes to the other side unless it has no move; when neither has one, the game is over and
      the side with more discs has won it. */
  ghost predicate TurnAfter(t: State, c: Color) {
    if CanMove(t.board, c.Opposite()) then t.active && t.next == Some(c.Opposite()) && t.passed == None
    else if CanMove(t.board, c) then t.active && t.next == Some(c) && t.passed == Some(c.Opposite())
    else
      var black, white := |Discs(t.board, Black, 64)|, |Discs(t.board, White, 64)|;
      && !t.active && t.next == None && t.passed == None
      && t.result == Some(if black == white then Draw else Majority)
      && t.winner == (if black > white then t.users.black else if white > black then t.users.white else None)
  }

  lemma FlippedBoard(b: Board, p: Point, c: Color)
    requires p.Valid() && b[At(p)] == Empty
    ensures BoardAfter(b, p.x, p.y, c, Flipped(b, p, c))
  {
    hide Flips, Turns;
    forall u, v | 0 <= u < 8 && 0 <= v < 8
      ensures Flipped(b, p, c)[8 * v + u] == if (u == p.x && v == p.y) || Turns(b, p.x, p.y, c, u, v) then Stone(c) else b[8 * v + u]
    {
      FlipsAreTurned(b, p, c, Point(u, v));
      if At(Point(u, v)) == At(p) {
        AtIsInjective(Point(u, v), p);
      }
    }
  }

  lemma TurnFollows(s: State, c: Color)
    requires s.active && s.winner == None && s.counts == Counts(s.board)
    ensures TurnAfter(AfterTurn(s, c), c)
    ensures AfterTurn(s, c).board == s.board && AfterTurn(s, c).users == s.users
  {
    hide Legal, CanMove, Count, Discs;
    SomeMoveMeansLegal(s.board, c);
    SomeMoveMeansLegal(s.board, c.Opposite());
    CountIsDiscs(s.board, Black, 64);
    CountIsDiscs(s.board, White, 64);
  }

  lemma MoveFollowsTheRules(snap: Snap, actor: UserId, p: Point)
    requires Reachable(snap) && ApplyMove(snap, actor, p).Ok?
    ensures var s, a := snap.state, ApplyMove(snap, actor, p).value;
      && s.active && s.next.Some? && p.Valid()
      && a.event == GameEvent(snap.revision + 1, actor, MoveAccepted(p.x, p.y, s.next.value, actor)) && a.next.revision == snap.revision + 1
      && BoardAfter(s.board, p.x, p.y, s.next.value, a.next.state.board) && TurnAfter(a.next.state, s.next.value)
      && a.next.state.users == s.users.With(s.next.value, Some(actor)) && a.next.state.lastMove == Some(p)
  {
    Guards(snap, actor, p);
    FactsOf(snap);
    hide Decodes, ApplyMove, Flips, Legal, MayMove, BoardAfter, TurnAfter, AfterTurn, Counts, InitialBoard, Reachable, Flipped;
    var s, c := snap.state, snap.state.next.value;
    FlippedBoard(s.board, p, c);
    var board := Flipped(s.board, p, c);
    var t := s.(users := s.users.With(c, Some(actor)), board := board, counts := Counts(board), lastMove := Some(p));
    TurnFollows(t, c);
    LastMoveStays(t, c);
    EventOf(snap, actor, p);
  }

  lemma LastMoveStays(s: State, c: Color)
    ensures AfterTurn(s, c).lastMove == s.lastMove
  {
    hide Legal;
  }

  lemma EventOf(snap: Snap, actor: UserId, p: Point)
    requires ApplyMove(snap, actor, p).Ok?
    ensures snap.state.next.Some? && p.Valid()
    ensures ApplyMove(snap, actor, p).value.event == GameEvent(snap.revision + 1, actor, MoveAccepted(p.x, p.y, snap.state.next.value, actor))
  {
    hide Decodes, Flips, MayMove, AfterDisc;
    assert Decodes(snap) && snap.state.active;
    SomeoneIsToMove(snap);
    FlipsNeedAPoint(snap.state.board, p, snap.state.next.value);
  }

  // ------------------------------------------------------------------------- whole games

  /** Whoever has played this colour so far is this player, and whoever has not is not. */
  ghost predicate SeatFits(log: seq<Event>, c: Color, actor: UserId) {
    forall i :: 0 <= i < |log| ==> (log[i].payload.color == c <==> log[i].actor == actor)
  }

  ghost predicate SeatsTold(log: seq<Event>, users: Sides<Option<UserId>>) {
    && (forall i :: 0 <= i < |log| ==> users.Of(log[i].payload.color) == Some(log[i].actor))
    && (forall c: Color :: users.Of(c).Some? ==> exists i :: 0 <= i < |log| && log[i].payload.color == c)
    && (users.black.None? || users.white.None? || users.black != users.white)
  }

  lemma MayMoveIfSeatFits(log: seq<Event>, users: Sides<Option<UserId>>, c: Color, actor: UserId)
    requires SeatsTold(log, users)
    ensures MayMove(users, c, actor) <==> SeatFits(log, c, actor)
  {
    assert c.Opposite() != c;
    if SeatFits(log, c, actor) && users.Of(c).Some? {
      var i :| 0 <= i < |log| && log[i].payload.color == c;
    }
    if SeatFits(log, c, actor) && users.Of(c.Opposite()).Some? {
      var i :| 0 <= i < |log| && log[i].payload.color == c.Opposite();
    }
    if MayMove(users, c, actor) {
      forall i | 0 <= i < |log| ensures log[i].payload.color == c <==> log[i].actor == actor {
        assert users.Of(log[i].payload.color) == Some(log[i].actor);
      }
    }
  }

  lemma SeatIsTold(log: seq<Event>, users: Sides<Option<UserId>>, e: Event)
    requires SeatsTold(log, users) && SeatFits(log, e.payload.color, e.actor)
    ensures SeatsTold(log + [e], users.With(e.payload.color, Some(e.actor)))
  {
    var more, after, c := log + [e], users.With(e.payload.color, Some(e.actor)), e.payload.color;
    assert c.Opposite() != c;
    forall i | 0 <= i < |more| ensures after.Of(more[i].payload.color) == Some(more[i].actor) {
      assert i < |log| ==> more[i] == log[i];
    }
    forall k: Color | after.Of(k).Some? ensures exists i :: 0 <= i < |more| && more[i].payload.color == k {
      if k == c {
        assert more[|log|].payload.color == k;
      } else {
        assert k == c.Opposite() && users.Of(k).Some?;
        var i :| 0 <= i < |log| && log[i].payload.color == k;
        assert more[i].payload.color == k;
      }
    }
    if after.Of(c.Opposite()).Some? {
      var i :| 0 <= i < |log| && log[i].payload.color == c.Opposite();
      assert log[i].actor != e.actor;
    }
  }

  lemma {:induction false} EveryGameIsSeated(requests: seq<Request>)
    ensures SeatsTold(Play(requests).log, Play(requests).snap.state.users)
  {
    hide ApplyMove, SeatsTold, SeatFits, InitialState;
    if requests == [] {
      NobodySeated();
    } else {
      var g, r := Play(requests[..|requests| - 1]), requests[|requests| - 1];
      EveryGameIsSeated(requests[..|requests| - 1]);
      EveryGameReplays(requests[..|requests| - 1]);
      if ApplyMove(g.snap, r.actor, r.point).Ok? {
        MoveFollowsTheRules(g.snap, r.actor, r.point);
        Guards(g.snap, r.actor, r.point);
        MayMoveIfSeatFits(g.log, g.snap.state.users, g.snap.state.next.value, r.actor);
        SeatIsTold(g.log, g.snap.state.users, ApplyMove(g.snap, r.actor, r.point).value.event);
      }
    }
  }

  lemma NobodySeated()
    ensures SeatsTold([], InitialSnapshot().state.users)
  {
    hide Legal, Counts;
  }

  /** In any game the next move is accepted if and only if the game is on, the player of the side to move
      makes it, and it outflanks a disc. It turns exactly the discs it outflanks; who is to move next and
      who has won follows from the new board. */
  lemma AcceptedExactlyIfItOutflanks(requests: seq<Request>, actor: UserId, p: Point)
    ensures var g := Play(requests);
      var s, reply := g.snap.state, ApplyMove(g.snap, actor, p);
      && (s.active ==> s.next.Some?) && (g.log == [] ==> s.active && s.next == Some(Black))
      && (reply.Ok? <==> s.active && SeatFits(g.log, s.next.value, actor) && MayPlace(s.board, p.x, p.y, s.next.value))
      && (reply == Err(NotYourTurn) <==> s.active && !SeatFits(g.log, s.next.value, actor))
      && (reply.Ok? ==>
           var t := reply.value.next.state;
           && reply.value.event == GameEvent(|g.log| + 1, actor, MoveAccepted(p.x, p.y, s.next.value, actor))
           && BoardAfter(s.board, p.x, p.y, s.next.value, t.board) && TurnAfter(t, s.next.value))
  {
    var g := Play(requests);
    EveryGameReplays(requests);
    EveryGameIsSeated(requests);
    hide Play, SeatsTold, SeatFits, MayPlace, BoardAfter, TurnAfter, Decodes, Flips, AfterDisc, MayMove, InitialState;
    if g.log == [] {
      BlackOpens(g.snap);
    }
    if g.snap.state.active {
      SomeoneIsToMove(g.snap);
      MayMoveIfSeatFits(g.log, g.snap.state.users, g.snap.state.next.value, actor);
      LegalIsPlaceable(g.snap.state.board, p, g.snap.state.next.value);
    }
    if ApplyMove(g.snap, actor, p).Ok? {
      MoveFollowsTheRules(g.snap, actor, p);
    }
  }

  lemma BlackOpens(snap: Snap)
    requires Decodes(snap) && snap.revision == 0
    ensures snap.state.active && snap.state.next == Some(Black)
  {
    hide Legal, Counts;
  }

  // ---------------------------------------------------------------------- only games replay

  lemma ReplayedOnce(snap: Snap, e: Event)
    requires ReplayEvent(snap, e).Ok? && e.revision == snap.revision + 1
    ensures ApplyMove(snap, e.actor, Point(e.payload.x, e.payload.y)) == Ok(Applied(e, ReplayEvent(snap, e).value))
  {
    hide Decodes, AfterDisc, Flips, MayMove;
  }

  /** Replay accepts nothing that was not played: a log that replays is the log of a game, in which its
      movers made just these moves, and it replays to the position of that game. */
  lemma {:induction false} ReplayedWasPlayed(events: seq<Event>) returns (requests: seq<Request>)
    requires Rebuilt(events).Ok?
    ensures Play(requests) == Game(events, Rebuilt(events).value) && |requests| == |events|
  {
    hide ApplyMove, ReplayEvent, InitialSnapshot;
    if events == [] {
      requests := [];
    } else {
      var front, e := events[..|events| - 1], events[|events| - 1];
      requests := ReplayedWasPlayed(front);
      RevisionIsLength(requests);
      ReplayedOnce(Rebuilt(front).value, e);
      var r := Request(e.actor, Point(e.payload.x, e.payload.y));
      assert (requests + [r])[..|requests|] == requests;
      assert events == front + [e];
      requests := requests + [r];
    }
  }

  lemma RevisionIsLength(requests: seq<Request>)
    ensures Play(requests).snap.revision == |Play(requests).log|
  {
    EveryGameReplays(requests);
    hide Play, Reachable, Rebuilt;
  }
}
