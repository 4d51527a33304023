/** The gomoku rule engine (server/internal/games/gomoku/board.go and rules.go). */
module Gomoku {
  import opened Common

  const BOARD_SIZE := 15
  const BOARD_CELLS := 225

  datatype Point = Point(x: int, y: int) {
    predicate Valid() {
      0 <= x < BOARD_SIZE && 0 <= y < BOARD_SIZE
    }

    function Index(): (i: int)
      requires Valid()
      ensures 0 <= i < BOARD_CELLS
    {
      y * BOARD_SIZE + x
    }
  }

  /** The point `k` steps from `p` in direction `d`. */
  function Walk(p: Point, d: Point, k: int): Point {
    Point(p.x + k * d.x, p.y + k * d.y)
  }

  function PointAt(i: int): (p: Point)
    requires 0 <= i < BOARD_CELLS
    ensures p.Valid() && p.Index() == i
  {
    Point(i % BOARD_SIZE, i / BOARD_SIZE)
  }

  type Cells = s: seq<Cell> | |s| == BOARD_CELLS witness seq(BOARD_CELLS, _ => Empty)

  datatype State = State(
    active: bool,
    board: Cells,
    users: Sides<Option<UserId>>,
    next: Color,
    winner: Option<UserId>,
    result: Option<Outcome>)

  datatype Payload = MoveAccepted(x: int, y: int, color: Color, user: UserId)

  type Snap = GameSnapshot<State>
  type Event = GameEvent<Payload>
  type Reply = Result<Applied<State, Payload>, RuleError>

  // --------------------------------------------------------- the incremental win check

  predicate IsDirection(d: Point) {
    -1 <= d.x <= 1 && -1 <= d.y <= 1 && (d.x != 0 || d.y != 0)
  }

  function Reverse(d: Point): Point {
    Point(-d.x, -d.y)
  }

  const DIRECTIONS: seq<Point> := [Point(1, 0), Point(0, 1), Point(1, 1), Point(1, -1)]

  predicate Holds(cells: Cells, p: Point, c: Color) {
    p.Valid() && cells[p.Index()] == Stone(c)
  }

  function Room(p: Point, d: Point): nat {
    if !p.Valid() then 0
    else if d.x > 0 then BOARD_SIZE - p.x
    else if d.x < 0 then p.x + 1
    else if d.y > 0 then BOARD_SIZE - p.y
    else p.y + 1
  }

  /** How many stones of colour `c` stand in a row from `p` on, in direction `d`. */
  function RunFrom(cells: Cells, p: Point, d: Point, c: Color): nat
    requires IsDirection(d)
    decreases Room(p, d)
  {
    if Holds(cells, p, c) then 1 + RunFrom(cells, Walk(p, d, 1), d, c) else 0
  }

  function Connected(cells: Cells, p: Point, d: Point, c: Color): nat
    requires IsDirection(d)
  {
    1 + RunFrom(cells, Walk(p, d, 1), d, c) + RunFrom(cells, Walk(p, Reverse(d), 1), Reverse(d), c)
  }

  predicate Wins(cells: Cells, p: Point, c: Color) {
    exists i :: 0 <= i < |DIRECTIONS| && Connected(cells, p, DIRECTIONS[i], c) >= 5
  }

  predicate HasFive(cells: Cells, c: Color) {
    exists i :: 0 <= i < BOARD_CELLS && cells[i] == Stone(c) && Wins(cells, PointAt(i), c)
  }

  // ------------------------------------------------------------------------ the board

  function Count(cells: Cells, c: Color, n: nat): nat
    requires n <= BOARD_CELLS
  {
    if n == 0 then 0 else Count(cells, c, n - 1) + if cells[n - 1] == Stone(c) then 1 else 0
  }

  function Stones(cells: Cells, c: Color): nat {
    Count(cells, c, BOARD_CELLS)
  }

  /** The board the engine plays on; `place` writes it in place. */
  class Board {
    const cells: array<Cell>
    var count: int

    ghost predicate Valid()
      reads this, cells
    {
      cells.Length == BOARD_CELLS && count == Stones(cells[..], Black) + Stones(cells[..], White)
    }

    constructor (board: Cells)
      ensures Valid() && cells[..] == board && fresh(cells)
    {
      cells := new Cell[BOARD_CELLS](i requires 0 <= i < BOARD_CELLS => board[i]);
      new;
      assert cells[..] == board;
      var n := 0;
      for i := 0 to BOARD_CELLS
        invariant n == Count(board, Black, i) + Count(board, White, i)
        invariant cells[..] == board
      {
        assert cells[..][i] == board[i];
        if cells[i] != Empty {
          assert cells[i].color.Black? || cells[i].color.White?;
          n := n + 1;
        }
      }
      count := n;
    }

    method Place(point: Point, color: Color) returns (ok: bool)
      requires Valid()
      modifies this`count, cells
      ensures Valid()
      ensures ok == (point.Valid() && old(cells[..])[point.Index()] == Empty)
      ensures cells[..] == if ok then old(cells[..])[point.Index() := Stone(color)] else old(cells[..])
      ensures count == old(count) + if ok then 1 else 0
    {
      if !point.Valid() || cells[point.Index()] != Empty {
        return false;
      }
      StonesAfterPlacing(cells[..], point.Index(), color);
      cells[point.Index()] := Stone(color);
      count := count + 1;
      assert cells[..] == old(cells[..])[point.Index() := Stone(color)];
      return true;
    }

    method Run(origin: Point, direction: Point, color: Color) returns (length: nat)
      requires Valid() && IsDirection(direction)
      ensures length == RunFrom(cells[..], Walk(origin, direction, 1), direction, color)
    {
      ghost var board: Cells := cells[..];
      length := 0;
      var point := Point(origin.x + direction.x, origin.y + direction.y);
      assert point == Walk(origin, direction, 1);
      while point.Valid() && cells[point.Index()] == Stone(color)
        invariant length + RunFrom(board, point, direction, color)
                  == RunFrom(board, Walk(origin, direction, 1), direction, color)
        decreases Room(point, direction)
      {
        assert Holds(board, point, color);
        var next := Point(point.x + direction.x, point.y + direction.y);
        assert next == Walk(point, direction, 1);
        length := length + 1;
        point := next;
      }
      assert !Holds(board, point, color);
    }

    method WinsAt(point: Point, color: Color) returns (wins: bool)
      requires Valid()
      ensures wins == Wins(cells[..], point, color)
    {
      for i := 0 to |DIRECTIONS|
        invariant forall k :: 0 <= k < i ==> Connected(cells[..], point, DIRECTIONS[k], color) < 5
      {
        var forward := Run(point, DIRECTIONS[i], color);
        var backward := Run(point, Reverse(DIRECTIONS[i]), color);
        if 1 + forward + backward >= 5 {
          return true;
        }
      }
      return false;
    }

    /** The full rescan, used only to validate an opaque snapshot. */
    method Rescan(color: Color) returns (found: bool)
      requires Valid()
      ensures found == HasFive(cells[..], color)
    {
      hide Wins;
      ghost var board: Cells := cells[..];
      for index := 0 to BOARD_CELLS
        invariant forall k :: 0 <= k < index ==> board[k] != Stone(color) || !Wins(board, PointAt(k), color)
      {
        if cells[index] == Stone(color) {
          var wins := WinsAt(PointAt(index), color);
          if wins {
            return true;
          }
        }
      }
      return false;
    }
  }

  lemma {:induction false} CountAfterPlacing(cells: Cells, i: int, placed: Color, c: Color, n: nat)
    requires 0 <= i < BOARD_CELLS && cells[i] == Empty && n <= BOARD_CELLS
    ensures Count(cells[i := Stone(placed)], c, n) == Count(cells, c, n) + if i < n && c == placed then 1 else 0
  {
    if n > 0 {
      CountAfterPlacing(cells, i, placed, c, n - 1);
    }
  }

  lemma StonesAfterPlacing(cells: Cells, i: int, placed: Color)
    requires 0 <= i < BOARD_CELLS && cells[i] == Empty
    ensures Stones(cells[i := Stone(placed)], placed) == Stones(cells, placed) + 1
    ensures Stones(cells[i := Stone(placed)], placed.Opposite()) == Stones(cells, placed.Opposite())
  {
    CountAfterPlacing(cells, i, placed, placed, BOARD_CELLS);
    CountAfterPlacing(cells, i, placed, placed.Opposite(), BOARD_CELLS);
  }

  // -------------------------------------------------------------------- the validator

  /** The semantic checks a decoded snapshot must pass. */
  predicate Decodes(snap: Snap) {
    var s := snap.state;
    var black, white := Stones(s.board, Black), Stones(s.board, White);
    && snap.revision == black + white
    && white <= black <= white + 1
    && (s.users.black.None? || s.users.white.None? || s.users.black != s.users.white)
    && (black > 0 <==> s.users.black.Some?) && (white > 0 <==> s.users.white.Some?)
    && s.next == (if black > white then White else Black)
    && if s.active then
         s.result.None? && s.winner.None? && black + white != BOARD_CELLS
         && !HasFive(s.board, Black) && !HasFive(s.board, White)
       else match s.result
         case Some(Five) =>
           && s.winner.Some? && (s.winner == s.users.black || s.winner == s.users.white)
           && (if s.winner == s.users.black
               then black == white + 1 && HasFive(s.board, Black) && !HasFive(s.board, White)
               else black == white && HasFive(s.board, White) && !HasFive(s.board, Black))
         case Some(Draw) =>
           black + white == BOARD_CELLS && s.winner.None? && !HasFive(s.board, Black) && !HasFive(s.board, White)
         case _ => false
  }

  function EmptyBoard(): Cells {
    seq(BOARD_CELLS, _ => Empty)
  }

  function InitialSnapshot(): Snap {
    GameSnapshot(0, State(true, EmptyBoard(), Sides(None, None), Black, None, None))
  }

  // ------------------------------------------------------------------------ the step

  function Bind(s: State, actor: UserId): Option<State> {
    match s.users.Of(s.next)
    case Some(user) => if user != actor then None else Some(s)
    case None =>
      if s.users.Of(s.next.Opposite()) == Some(actor) then None
      else Some(s.(users := s.users.With(s.next, Some(actor))))
  }

  /** The position after a bound player's stone at `point`. */
  function AfterStone(s: State, actor: UserId, point: Point): State
    requires point.Valid()
  {
    var board := s.board[point.Index() := Stone(s.next)];
    var placed := s.(board := board, next := s.next.Opposite());
    if Wins(board, point, s.next) then placed.(active := false, result := Some(Five), winner := Some(actor))
    else if Stones(board, Black) + Stones(board, White) == BOARD_CELLS
      then placed.(active := false, result := Some(Draw), winner := None)
    else placed
  }

  function ApplyMove(snap: Snap, actor: UserId, point: Point): Reply {
    if !point.Valid() then Err(InvalidAction)
    else if !Decodes(snap) then Err(InvalidSnapshot)
    else if !snap.state.active then Err(InvalidAction)
    else match Bind(snap.state, actor)
      case None => Err(NotYourTurn)
      case Some(s) =>
        if s.board[point.Index()] != Empty then Err(CellOccupied)
        else
          var payload := MoveAccepted(point.x, point.y, s.next, actor);
          Ok(Applied(GameEvent(snap.revision + 1, actor, payload),
                     GameSnapshot(snap.revision + 1, AfterStone(s, actor, point))))
  }

  function ReplayEvent(snap: Snap, event: Event): Result<Snap, RuleError> {
    var p := event.payload;
    if !Point(p.x, p.y).Valid() || !Decodes(snap) || p.color != snap.state.next || p.user != event.actor
    then Err(InvalidEvent)
    else match ApplyMove(snap, event.actor, Point(p.x, p.y))
      case Err(_) => Err(InvalidEvent)
      case Ok(a) => if a.event == event then Ok(a.next) else Err(InvalidEvent)
  }

  function Rebuilt(events: seq<Event>): Result<Snap, RuleError> {
    if events == [] then Ok(InitialSnapshot())
    else match Rebuilt(events[..|events| - 1])
      case Err(e) => Err(e)
      case Ok(snap) =>
        if events[|events| - 1].revision != |events| then Err(InvalidEvent)
        else ReplayEvent(snap, events[|events| - 1])
  }

  // ------------------------------------------------------------------ the engine's code

  method Decode(snapshot: Snap) returns (ok: bool)
    ensures ok == Decodes(snapshot)
  {
    var s := snapshot.state;
    var black, white := 0, 0;
    for i := 0 to BOARD_CELLS
      invariant black == Count(s.board, Black, i) && white == Count(s.board, White, i)
    {
      match s.board[i]
      case Empty =>
      case Stone(Black) => black := black + 1;
      case Stone(White) => white := white + 1;
    }
    var board := new Board(s.board);
    var blackHasFive := board.Rescan(Black);
    var whiteHasFive := board.Rescan(White);
    hide HasFive, Count;
    if black + white != snapshot.revision || black < white || black > white + 1 {
      return false;
    }
    if s.users.black.Some? && s.users.white.Some? && s.users.black == s.users.white {
      return false;
    }
    if (black > 0) != s.users.black.Some? || (white > 0) != s.users.white.Some? {
      return false;
    }
    if s.next != (if black > white then White else Black) {
      return false;
    }
    if s.active {
      return s.result.None? && s.winner.None? && black + white != BOARD_CELLS && !blackHasFive && !whiteHasFive;
    }
    match s.result {
      case Some(Five) =>
        if s.winner.None? || (s.winner != s.users.black && s.winner != s.users.white) {
          return false;
        }
        if s.winner == s.users.black {
          return black == white + 1 && blackHasFive && !whiteHasFive;
        }
        return black == white && whiteHasFive && !blackHasFive;
      case Some(Draw) =>
        return black + white == BOARD_CELLS && s.winner.None? && !blackHasFive && !whiteHasFive;
      case _ =>
        return false;
    }
  }

  /** The mutating half of a move: the stone, the turn, the outcome. */
  method PlaceStone(bound: State, actor: UserId, point: Point) returns (state: State)
    requires point.Valid() && bound.board[point.Index()] == Empty
    ensures state == AfterStone(bound, actor, point)
  {
    hide HasFive, Wins, Stones;
    state := bound;
    var color := state.next;
    var board := new Board(state.board);
    var ok := board.Place(point, color);
    assert ok;
    state := state.(board := board.cells[..], next := color.Opposite());
    var wins := board.WinsAt(point, color);
    if wins {
      state := state.(active := false, result := Some(Five), winner := Some(actor));
    } else if board.count == BOARD_CELLS {
      state := state.(active := false, result := Some(Draw), winner := None);
    }
  }

  method Apply(snapshot: Snap, actor: UserId, point: Point) returns (reply: Reply)
    ensures reply == ApplyMove(snapshot, actor, point)
  {
    hide Decodes, AfterStone;
    if !point.Valid() {
      return Err(InvalidAction);
    }
    var decoded := Decode(snapshot);
    if !decoded {
      return Err(InvalidSnapshot);
    }
    if !snapshot.state.active {
      return Err(InvalidAction);
    }
    var bound := Bind(snapshot.state, actor);
    if bound.None? {
      return Err(NotYourTurn);
    }
    if bound.value.board[point.Index()] != Empty {
      return Err(CellOccupied);
    }
    var color := bound.value.next;
    var state := PlaceStone(bound.value, actor, point);
    return Ok(Applied(GameEvent(snapshot.revision + 1, actor, MoveAccepted(point.x, point.y, color, actor)),
                      GameSnapshot(snapshot.revision + 1, state)));
  }

  lemma {:induction false} RebuiltPrefix(events: seq<Event>, k: nat)
    requires k <= |events|
    ensures Rebuilt(events[..k]).Err? ==> Rebuilt(events) == Err(InvalidEvent)
    ensures Rebuilt(events).Err? ==> Rebuilt(events) == Err(InvalidEvent)
  {
    hide Decodes, ApplyMove;
    if events != [] {
      var front := events[..|events| - 1];
      if k < |events| {
        assert front[..k] == events[..k];
        RebuiltPrefix(front, k);
      } else {
        assert events[..k] == events;
        RebuiltPrefix(front, 0);
      }
    }
  }

  method Rebuild(events: seq<Event>) returns (result: Result<Snap, RuleError>)
    ensures result == Rebuilt(events)
  {
    hide Decodes, ApplyMove;
    var snapshot := InitialSnapshot();
    for index := 0 to |events|
      invariant Rebuilt(events[..index]) == Ok(snapshot)
    {
      var event := events[index];
      assert events[..index + 1][..index] == events[..index];
      RebuiltPrefix(events, index + 1);
      var point := Point(event.payload.x, event.payload.y);
      var decoded := Decode(snapshot);
      if event.revision != index + 1 || !point.Valid() || !decoded
         || event.payload.color != snapshot.state.next || event.payload.user != event.actor {
        return Err(InvalidEvent);
      }
      var produced := Apply(snapshot, event.actor, point);
      if produced.Err? || produced.value.event != event {
        return Err(InvalidEvent);
      }
      snapshot := produced.value.next;
    }
    assert events[..|events|] == events;
    return Ok(snapshot);
  }
}
