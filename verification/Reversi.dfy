/** Othello with forced passes (server/internal/games/reversi/rules.go). */
module Reversi {
  import opened Common

  const CELLS := 64

  datatype Point = Point(x: int, y: int) {
    predicate Valid() {
      0 <= x < 8 && 0 <= y < 8
    }
  }

  type Board = s: seq<Cell> | |s| == CELLS witness seq(CELLS, _ => Empty)

  datatype State = State(
    active: bool,
    board: Board,
    users: Sides<Option<UserId>>,
    next: Option<Color>,
    winner: Option<UserId>,
    result: Option<Outcome>,
    legalMoves: seq<Point>,
    counts: Sides<int>,
    passed: Option<Color>,
    lastMove: Option<Point>)

  datatype Payload = MoveAccepted(x: int, y: int, color: Color, user: UserId)

  type Snap = GameSnapshot<State>
  type Event = GameEvent<Payload>
  type Reply = Result<Applied<State, Payload>, RuleError>

  function At(p: Point): (i: int)
    requires p.Valid()
    ensures 0 <= i < CELLS
  {
    p.y * 8 + p.x
  }

  // ---------------------------------------------------------------------------- flips

  function Room(p: Point, dx: int, dy: int): nat {
    if !p.Valid() then 0
    else if dx > 0 then 8 - p.x else if dx < 0 then p.x + 1
    else if dy > 0 then 8 - p.y else p.y + 1
  }

  predicate IsDirection(dx: int, dy: int) {
    -1 <= dx <= 1 && -1 <= dy <= 1 && (dx != 0 || dy != 0)
  }

  /** The opposing discs from `p` on that a disc of colour `c` further along brackets; None
      when the line runs off the board or into an empty cell first. */
  function Bracketed(b: Board, p: Point, dx: int, dy: int, c: Color): Option<seq<int>>
    requires IsDirection(dx, dy)
    decreases Room(p, dx, dy)
  {
    if !p.Valid() then None
    else match b[At(p)]
      case Empty => None
      case Stone(d) =>
        if d == c then Some([])
        else match Bracketed(b, Point(p.x + dx, p.y + dy), dx, dy, c)
          case None => None
          case Some(rest) => Some([At(p)] + rest)
  }

  function FlipsAlong(b: Board, p: Point, dx: int, dy: int, c: Color): seq<int> {
    if !IsDirection(dx, dy) then []
    else match Bracketed(b, Point(p.x + dx, p.y + dy), dx, dy, c)
      case None => []
      case Some(line) => line
  }

  // The nine (dx, dy) pairs in the order the engine visits them, dy outermost.
  const PAIRS: seq<(int, int)> := [(-1, -1), (0, -1), (1, -1), (-1, 0), (0, 0), (1, 0), (-1, 1), (0, 1), (1, 1)]

  function FlipsUpTo(b: Board, p: Point, c: Color, n: nat): seq<int>
    requires n <= 9
  {
    if n == 0 then []
    else FlipsUpTo(b, p, c, n - 1) + FlipsAlong(b, p, PAIRS[n - 1].0, PAIRS[n - 1].1, c)
  }

  function Flips(b: Board, p: Point, c: Color): seq<int> {
    if !p.Valid() || b[At(p)] != Empty then [] else FlipsUpTo(b, p, c, 9)
  }

  function LegalInRow(b: Board, c: Color, y: int, n: nat): seq<Point> {
    if n == 0 then []
    else LegalInRow(b, c, y, n - 1) + if Flips(b, Point(n - 1, y), c) != [] then [Point(n - 1, y)] else []
  }

  function LegalRows(b: Board, c: Color, rows: nat): seq<Point> {
    if rows == 0 then [] else LegalRows(b, c, rows - 1) + LegalInRow(b, c, rows - 1, 8)
  }

  /** Every point with something to flip, row by row. */
  function Legal(b: Board, c: Color): seq<Point> {
    LegalRows(b, c, 8)
  }

  function Count(b: Board, c: Color, n: nat): nat
    requires n <= CELLS
  {
    if n == 0 then 0 else Count(b, c, n - 1) + if b[n - 1] == Stone(c) then 1 else 0
  }

  function Counts(b: Board): Sides<int> {
    Sides(Count(b, Black, CELLS), Count(b, White, CELLS))
  }

  // -------------------------------------------------------------------- the validator

  function InitialBoard(): Board {
    seq(CELLS, i => if i == 27 || i == 36 then Stone(White) else if i == 28 || i == 35 then Stone(Black) else Empty)
  }

  function InitialState(): State {
    State(true, InitialBoard(), Sides(None, None), Some(Black), None, None,
          Legal(InitialBoard(), Black), Counts(InitialBoard()), None, None)
  }

  function InitialSnapshot(): Snap {
    GameSnapshot(0, InitialState())
  }

  predicate Decodes(snap: Snap) {
    var s := snap.state;
    && 0 <= snap.revision <= 60
    && (s.users.black.None? || s.users.white.None? || s.users.black != s.users.white)
    && (if snap.revision == 0 then s == InitialState()
        else
          && s.users.black.Some? && (snap.revision >= 2 ==> s.users.white.Some?)
          && s.lastMove.Some? && s.lastMove.value.Valid() && s.board[At(s.lastMove.value)] != Empty)
    && (s.passed.Some? ==> s.active && s.passed != s.next && Legal(s.board, s.passed.value) == [])
    && s.counts == Counts(s.board) && s.counts.black + s.counts.white == snap.revision + 4
    && if s.active then
         s.next.Some? && s.result.None? && s.winner.None?
         && Legal(s.board, s.next.value) != [] && s.legalMoves == Legal(s.board, s.next.value)
       else
         && s.next.None? && s.result.Some? && s.legalMoves == []
         && Legal(s.board, Black) == [] && Legal(s.board, White) == []
         && (if s.counts.black == s.counts.white then s.result == Some(Draw) && s.winner.None?
             else
               var winner := if s.counts.white > s.counts.black then s.users.white else s.users.black;
               s.result == Some(Majority) && winner.Some? && s.winner == winner)
  }

  // ------------------------------------------------------------------------- the step

  function Flipped(b: Board, p: Point, c: Color): Board
    requires p.Valid()
  {
    var changed := Flips(b, p, c);
    seq(CELLS, i requires 0 <= i < CELLS => if i == At(p) || i in changed then Stone(c) else b[i])
  }

  /** Who moves next, or how the game ended, on the board `s.board` after a disc of colour `c`. */
  function AfterTurn(s: State, c: Color): State {
    var t := s.(passed := None, next := Some(c.Opposite()), legalMoves := Legal(s.board, c.Opposite()));
    if t.legalMoves != [] then t
    else
      var u := t.(legalMoves := Legal(s.board, c));
      if u.legalMoves != [] then u.(passed := Some(c.Opposite()), next := Some(c))
      else if s.counts.black == s.counts.white then u.(active := false, next := None, result := Some(Draw))
      else u.(active := false, next := None, result := Some(Majority),
              winner := if s.counts.white > s.counts.black then s.users.white else s.users.black)
  }

  function AfterDisc(s: State, actor: UserId, p: Point, c: Color): State
    requires p.Valid()
  {
    var board := Flipped(s.board, p, c);
    AfterTurn(s.(users := s.users.With(c, Some(actor)), board := board, counts := Counts(board), lastMove := Some(p)), c)
  }

  predicate MayMove(users: Sides<Option<UserId>>, c: Color, actor: UserId) {
    match users.Of(c)
    case Some(own) => own == actor
    case None => users.Of(c.Opposite()) != Some(actor)
  }

  function ApplyMove(snap: Snap, actor: UserId, p: Point): Reply {
    if !Decodes(snap) then Err(InvalidSnapshot)
    else
      var s := snap.state;
      if !s.active then Err(InvalidAction)
      else
        var c := s.next.value;
        if !MayMove(s.users, c, actor) then Err(NotYourTurn)
        else if Flips(s.board, p, c) == [] then Err(InvalidAction)
        else Ok(Applied(GameEvent(snap.revision + 1, actor, MoveAccepted(p.x, p.y, c, actor)),
                        GameSnapshot(snap.revision + 1, AfterDisc(s, actor, p, c))))
  }

  function ReplayEvent(snap: Snap, event: Event): Result<Snap, RuleError> {
    match ApplyMove(snap, event.actor, Point(event.payload.x, event.payload.y))
    case Err(_) => Err(InvalidEvent)
    case Ok(a) => if a.event.payload == event.payload then Ok(a.next) else Err(InvalidEvent)
  }

  function Rebuilt(events: seq<Event>): Result<Snap, RuleError> {
    if events == [] then Ok(InitialSnapshot())
    else match Rebuilt(events[..|events| - 1])
      case Err(e) => Err(e)
      case Ok(snap) =>
        if events[|events| - 1].revision != |events| then Err(InvalidEvent)
        else ReplayEvent(snap, events[|events| - 1])
  }

  // ------------------------------------------------------------------ the engine's code

  lemma BracketedCases(b: Board, p: Point, dx: int, dy: int, c: Color)
    requires IsDirection(dx, dy)
    ensures !p.Valid() || b[At(p)] == Empty ==> Bracketed(b, p, dx, dy, c) == None
    ensures p.Valid() && b[At(p)] == Stone(c) ==> Bracketed(b, p, dx, dy, c) == Some([])
    ensures p.Valid() && b[At(p)] == Stone(c.Opposite()) ==>
      Bracketed(b, p, dx, dy, c) == (match Bracketed(b, Point(p.x + dx, p.y + dy), dx, dy, c)
                                     case None => None
                                     case Some(rest) => Some([At(p)] + rest))
    ensures p.Valid() ==> b[At(p)] == Empty || b[At(p)] == Stone(c) || b[At(p)] == Stone(c.Opposite())
  {
    if p.Valid() {
      match b[At(p)]
      case Empty =>
      case Stone(d) =>
        assert d == c || d == c.Opposite();
    }
  }

  // One step of the walk: what is kept so far and what is still to come make the same line.
  lemma OneFurther(b: Board, q: Point, dx: int, dy: int, c: Color, line: seq<int>)
    requires IsDirection(dx, dy) && q.Valid() && b[At(q)] == Stone(c.Opposite())
    ensures var next := Point(q.x + dx, q.y + dy);
      && Room(next, dx, dy) < Room(q, dx, dy)
      && Prepended(line, Bracketed(b, q, dx, dy, c)) == Prepended(line + [At(q)], Bracketed(b, next, dx, dy, c))
  {
    hide Bracketed;
    BracketedCases(b, q, dx, dy, c);
    var after := Bracketed(b, Point(q.x + dx, q.y + dy), dx, dy, c);
    if after.Some? {
      assert line + ([At(q)] + after.value) == (line + [At(q)]) + after.value;
    }
  }

  function Prepended(line: seq<int>, rest: Option<seq<int>>): Option<seq<int>> {
    match rest
    case None => None
    case Some(r) => Some(line + r)
  }

  /** Walks one line of opposing discs and keeps it only when an own disc ends it. */
  method FlipLine(b: Board, p: Point, dx: int, dy: int, c: Color) returns (line: seq<int>)
    requires IsDirection(dx, dy)
    ensures line == FlipsAlong(b, p, dx, dy, c)
  {
    hide Bracketed, Room;
    line := [];
    var q := Point(p.x + dx, p.y + dy);
    ghost var whole := Bracketed(b, q, dx, dy, c);
    assert whole.Some? ==> [] + whole.value == whole.value;
    while q.Valid() && b[At(q)] == Stone(c.Opposite())
      invariant whole == Prepended(line, Bracketed(b, q, dx, dy, c))
      decreases Room(q, dx, dy)
    {
      OneFurther(b, q, dx, dy, c, line);
      line, q := line + [At(q)], Point(q.x + dx, q.y + dy);
    }
    BracketedCases(b, q, dx, dy, c);
    if q.Valid() && b[At(q)] == Stone(c) {
      assert line + [] == line;
      return;
    }
    return [];
  }

  method FlipsOf(b: Board, p: Point, c: Color) returns (result: seq<int>)
    ensures result == Flips(b, p, c)
  {
    hide FlipsAlong, FlipsUpTo, Flips;
    FlipsAreNinePairs(b, p, c);
    result := [];
    if !p.Valid() || b[At(p)] != Empty {
      return;
    }
    var dy := -1;
    while dy <= 1
      invariant -1 <= dy <= 2
      invariant result == FlipsUpTo(b, p, c, 3 * (dy + 1))
    {
      var dx := -1;
      while dx <= 1
        invariant -1 <= dx <= 2
        invariant result == FlipsUpTo(b, p, c, 3 * (dy + 1) + dx + 1)
      {
        FlipsOfPair(b, p, c, dx, dy);
        if !(dx == 0 && dy == 0) {
          var line := FlipLine(b, p, dx, dy, c);
          result := result + line;
        }
        dx := dx + 1;
      }
      dy := dy + 1;
    }
  }

  lemma FlipsAreNinePairs(b: Board, p: Point, c: Color)
    ensures Flips(b, p, c) == if !p.Valid() || b[At(p)] != Empty then [] else FlipsUpTo(b, p, c, 9)
    ensures FlipsUpTo(b, p, c, 0) == []
  {
  }

  lemma FlipsOfPair(b: Board, p: Point, c: Color, dx: int, dy: int)
    requires -1 <= dx <= 1 && -1 <= dy <= 1
    ensures var n := 3 * (dy + 1) + dx + 1;
      FlipsUpTo(b, p, c, n + 1) == FlipsUpTo(b, p, c, n) + FlipsAlong(b, p, dx, dy, c)
      && (dx == 0 && dy == 0 ==> FlipsUpTo(b, p, c, n + 1) == FlipsUpTo(b, p, c, n))
  {
    var n := 3 * (dy + 1) + dx + 1;
    assert PAIRS[n] == (dx, dy);
    if dx == 0 && dy == 0 {
      assert FlipsUpTo(b, p, c, n) + [] == FlipsUpTo(b, p, c, n);
    }
  }

  method LegalMoves(b: Board, c: Color) returns (out: seq<Point>)
    ensures out == Legal(b, c)
  {
    hide Flips;
    out := [];
    for y := 0 to 8
      invariant out == LegalRows(b, c, y)
    {
      for x := 0 to 8
        invariant out == LegalRows(b, c, y) + LegalInRow(b, c, y, x)
      {
        var p := Point(x, y);
        var flips := FlipsOf(b, p, c);
        if |flips| > 0 {
          out := out + [p];
        }
      }
    }
  }

  method CountDiscs(b: Board) returns (counts: Sides<int>)
    ensures counts == Counts(b)
  {
    var black, white := 0, 0;
    for i := 0 to CELLS
      invariant black == Count(b, Black, i) && white == Count(b, White, i)
    {
      if b[i] == Stone(Black) {
        black := black + 1;
      }
      if b[i] == Stone(White) {
        white := white + 1;
      }
    }
    return Sides(black, white);
  }

  /** Writes the new disc and the flipped ones onto the board, in place. */
  method Turn(board: array<Cell>, p: Point, changed: seq<int>, c: Color)
    requires board.Length == CELLS && p.Valid()
    requires forall i :: i in changed ==> 0 <= i < CELLS
    modifies board
    ensures forall i :: 0 <= i < CELLS ==> board[i] == if i == At(p) || i in changed then Stone(c) else old(board[i])
  {
    board[At(p)] := Stone(c);
    for k := 0 to |changed|
      invariant forall i :: 0 <= i < CELLS ==> board[i] == if i == At(p) || i in changed[..k] then Stone(c) else old(board[i])
    {
      assert changed[..k + 1] == changed[..k] + [changed[k]];
      assert changed[k] in changed;
      board[changed[k]] := Stone(c);
    }
    assert changed[..|changed|] == changed;
  }

  lemma {:induction false} BracketedAreCells(b: Board, p: Point, dx: int, dy: int, c: Color)
    requires IsDirection(dx, dy)
    ensures Bracketed(b, p, dx, dy, c).Some? ==>
      forall i :: i in Bracketed(b, p, dx, dy, c).value ==> 0 <= i < CELLS && b[i] == Stone(c.Opposite())
    decreases Room(p, dx, dy)
  {
    if p.Valid() && b[At(p)].Stone? && b[At(p)].color != c {
      assert b[At(p)].color == c.Opposite();
      BracketedAreCells(b, Point(p.x + dx, p.y + dy), dx, dy, c);
    }
  }

  lemma LineIsOpposing(b: Board, p: Point, dx: int, dy: int, c: Color)
    ensures forall i :: i in FlipsAlong(b, p, dx, dy, c) ==> 0 <= i < CELLS && b[i] == Stone(c.Opposite())
  {
    hide Bracketed;
    if IsDirection(dx, dy) {
      BracketedAreCells(b, Point(p.x + dx, p.y + dy), dx, dy, c);
      var r := Bracketed(b, Point(p.x + dx, p.y + dy), dx, dy, c);
      assert FlipsAlong(b, p, dx, dy, c) == if r.None? then [] else r.value;
    }
  }

  /** Only opposing discs are ever flipped. */
  lemma {:induction false} FlipsAreOpposing(b: Board, p: Point, c: Color, n: nat)
    requires n <= 9
    ensures forall i :: i in FlipsUpTo(b, p, c, n) ==> 0 <= i < CELLS && b[i] == Stone(c.Opposite())
  {
    hide FlipsAlong;
    if n > 0 {
      FlipsAreOpposing(b, p, c, n - 1);
      LineIsOpposing(b, p, PAIRS[n - 1].0, PAIRS[n - 1].1, c);
    }
  }

  method PlayDisc(before: State, actor: UserId, p: Point, c: Color, changed: seq<int>) returns (s: State)
    requires p.Valid() && changed == Flips(before.board, p, c)
    ensures s == AfterDisc(before, actor, p, c)
  {
    FlipsAreOpposing(before.board, p, c, 9);
    hide FlipsUpTo, Legal, Counts, InitialState;
    s := before.(users := before.users.With(c, Some(actor)));
    var board := new Cell[CELLS](i requires 0 <= i < CELLS => before.board[i]);
    Turn(board, p, changed, c);
    assert board[..] == Flipped(before.board, p, c);
    var counts := CountDiscs(board[..]);
    s := s.(board := board[..], counts := counts, lastMove := Some(p));
    s := s.(passed := None, next := Some(c.Opposite()));
    var moves := LegalMoves(s.board, c.Opposite());
    s := s.(legalMoves := moves);
    if |moves| == 0 {
      moves := LegalMoves(s.board, c);
      s := s.(legalMoves := moves);
      if |moves| > 0 {
        s := s.(passed := s.next, next := Some(c));
      } else {
        s := s.(active := false, next := None, result := Some(Draw));
        if s.counts.black != s.counts.white {
          s := s.(result := Some(Majority), winner := s.users.black);
          if s.counts.white > s.counts.black {
            s := s.(winner := s.users.white);
          }
        }
      }
    }
  }

  lemma FlipsNeedAPoint(b: Board, p: Point, c: Color)
    requires Flips(b, p, c) != []
    ensures p.Valid() && b[At(p)] == Empty
  {
  }

  lemma SomeoneIsToMove(snap: Snap)
    requires Decodes(snap) && snap.state.active
    ensures snap.state.next.Some?
  {
    hide InitialState, Legal;
  }

  method Apply(snapshot: Snap, actor: UserId, p: Point) returns (reply: Reply)
    ensures reply == ApplyMove(snapshot, actor, p)
  {
    hide Decodes, AfterDisc, Flips, MayMove;
    if !Decodes(snapshot) {
      return Err(InvalidSnapshot);
    }
    if !snapshot.state.active {
      return Err(InvalidAction);
    }
    SomeoneIsToMove(snapshot);
    var c := snapshot.state.next.value;
    if !MayMove(snapshot.state.users, c, actor) {
      return Err(NotYourTurn);
    }
    var changed := FlipsOf(snapshot.state.board, p, c);
    if |changed| == 0 {
      return Err(InvalidAction);
    }
    FlipsNeedAPoint(snapshot.state.board, p, c);
    var s := PlayDisc(snapshot.state, actor, p, c, changed);
    return Ok(Applied(GameEvent(snapshot.revision + 1, actor, MoveAccepted(p.x, p.y, c, actor)),
                      GameSnapshot(snapshot.revision + 1, s)));
  }

  lemma {:induction false} RebuiltPrefix(events: seq<Event>, k: nat)
    requires k <= |events|
    ensures Rebuilt(events[..k]).Err? ==> Rebuilt(events) == Err(InvalidEvent)
    ensures Rebuilt(events).Err? ==> Rebuilt(events) == Err(InvalidEvent)
  {
    hide ApplyMove, InitialState;
    if events != [] {
      var front := events[..|events| - 1];
      if k < |events| {
        assert front[..k] == events[..k];
        RebuiltPrefix(front, k);
      } else {
        assert events[..k] == events;
        RebuiltPrefix(front, 0);
      }
    }
  }

  method Rebuild(events: seq<Event>) returns (result: Result<Snap, RuleError>)
    ensures result == Rebuilt(events)
  {
    hide ApplyMove, InitialState;
    var snapshot := InitialSnapshot();
    for index := 0 to |events|
      invariant Rebuilt(events[..index]) == Ok(snapshot)
    {
      var event := events[index];
      assert events[..index + 1][..index] == events[..index];
      RebuiltPrefix(events, index + 1);
      if event.revision != index + 1 {
        return Err(InvalidEvent);
      }
      var produced := Apply(snapshot, event.actor, Point(event.payload.x, event.payload.y));
      if produced.Err? || produced.value.event.payload != event.payload {
        return Err(InvalidEvent);
      }
      snapshot := produced.value.next;
    }
    assert events[..|events|] == events;
    return Ok(snapshot);
  }
}
