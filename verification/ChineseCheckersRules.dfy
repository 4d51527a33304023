/** The Chinese-checkers rule engine (server/internal/games/chinesecheckers/rules.go). */
module ChineseCheckersRules {
  import opened Common
  import opened ChineseCheckers

  datatype State = State(
    active: bool,
    board: Cells,
    users: Sides<Option<UserId>>,
    next: Color,
    winner: Option<UserId>,
    result: Option<Outcome>)

  datatype Payload = MoveAccepted(path: seq<int>, color: Color, user: UserId)

  type Snap = GameSnapshot<State>
  type Event = GameEvent<Payload>
  type Reply = Result<Applied<State, Payload>, RuleError>

  function Count(cells: Cells, c: Color, n: nat): nat
    requires n <= BOARD_CELLS
  {
    if n == 0 then 0 else Count(cells, c, n - 1) + if cells[n - 1] == Stone(c) then 1 else 0
  }

  function Pieces(cells: Cells, c: Color): nat {
    Count(cells, c, BOARD_CELLS)
  }

  predicate CompletedCamp(cells: Cells, c: Color) {
    forall i :: 0 <= i < BOARD_CELLS && TargetCamp(i, c) ==> cells[i] == Stone(c)
  }

  method HasCompletedCamp(cells: Cells, c: Color) returns (completed: bool)
    ensures completed == CompletedCamp(cells, c)
  {
    var first := if c.White? then 0 else 111;
    for i := first to first + 10
      invariant forall k :: first <= k < i ==> cells[k] == Stone(c)
    {
      if cells[i] != Stone(c) {
        return false;
      }
    }
    return true;
  }

  function InitialBoard(): Cells {
    seq(BOARD_CELLS, i => if i <= 9 then Stone(Black) else if i >= 111 then Stone(White) else Empty)
  }

  function InitialSnapshot(): Snap {
    GameSnapshot(0, State(true, InitialBoard(), Sides(None, None), Black, None, None))
  }

  /** The semantic checks a decoded snapshot must pass. */
  predicate Decodes(snap: Snap) {
    var s := snap.state;
    var black, white := CompletedCamp(s.board, Black), CompletedCamp(s.board, White);
    && snap.revision >= 0
    && Pieces(s.board, Black) == 10 && Pieces(s.board, White) == 10
    && (s.users.black.None? || s.users.white.None? || s.users.black != s.users.white)
    && (s.users.black.Some? <==> snap.revision >= 1) && (s.users.white.Some? <==> snap.revision >= 2)
    && s.next == (if snap.revision % 2 == 1 then White else Black)
    && if s.active then s.winner.None? && s.result.None? && !black && !white
       else match s.result
         case Some(Goal) =>
           s.winner.Some? && black != white && s.winner == s.users.Of(if white then White else Black)
         case Some(Resignation) =>
           s.winner.Some? && !black && !white && (s.winner == s.users.black || s.winner == s.users.white)
         case _ => false
  }

  function Bind(s: State, actor: UserId): Option<State> {
    match s.users.Of(s.next)
    case Some(user) => if user != actor then None else Some(s)
    case None =>
      if s.users.Of(s.next.Opposite()) == Some(actor) then None
      else Some(s.(users := s.users.With(s.next, Some(actor))))
  }

  function Moved(cells: Cells, c: Color, path: seq<int>): Cells
    requires |path| >= 2 && OnBoard(path[0]) && OnBoard(path[|path| - 1])
  {
    cells[path[0] := Empty][path[|path| - 1] := Stone(c)]
  }

  function AfterMove(s: State, actor: UserId, path: seq<int>): State
    requires |path| >= 2 && OnBoard(path[0]) && OnBoard(path[|path| - 1])
  {
    var board := Moved(s.board, s.next, path);
    var moved := s.(board := board, next := s.next.Opposite());
    if CompletedCamp(board, s.next) then moved.(active := false, winner := Some(actor), result := Some(Goal))
    else moved
  }

  // What `decodePath` demands of a path before the rules see it.
  predicate DecodesPath(path: seq<int>) {
    2 <= |path| <= BOARD_CELLS && forall i :: 0 <= i < |path| ==> OnBoard(path[i])
  }

  function ApplyMove(snap: Snap, actor: UserId, path: seq<int>): Reply {
    if !DecodesPath(path) then Err(InvalidAction)
    else if !Decodes(snap) then Err(InvalidSnapshot)
    else if !snap.state.active then Err(InvalidAction)
    else match Bind(snap.state, actor)
      case None => Err(NotYourTurn)
      case Some(s) =>
        if !LegalPath(s.board, s.next, path) then Err(InvalidMove)
        else Ok(Applied(GameEvent(snap.revision + 1, actor, MoveAccepted(path, s.next, actor)),
                        GameSnapshot(snap.revision + 1, AfterMove(s, actor, path))))
  }

  function ReplayEvent(snap: Snap, event: Event): Result<Snap, RuleError> {
    var p := event.payload;
    if !DecodesPath(p.path) || p.user != event.actor || !Decodes(snap) || p.color != snap.state.next then Err(InvalidEvent)
    else match ApplyMove(snap, event.actor, p.path)
      case Err(_) => Err(InvalidEvent)
      case Ok(a) => if a.event == event then Ok(a.next) else Err(InvalidEvent)
  }

  function Rebuilt(events: seq<Event>): Result<Snap, RuleError> {
    if events == [] then Ok(InitialSnapshot())
    else match Rebuilt(events[..|events| - 1])
      case Err(e) => Err(e)
      case Ok(snap) =>
        if events[|events| - 1].revision != |events| then Err(InvalidEvent)
        else ReplayEvent(snap, events[|events| - 1])
  }

  // ------------------------------------------------------------------ the engine's code

  method Decode(snapshot: Snap) returns (ok: bool)
    ensures ok == Decodes(snapshot)
  {
    var s := snapshot.state;
    var black, white := 0, 0;
    for i := 0 to BOARD_CELLS
      invariant black == Count(s.board, Black, i) && white == Count(s.board, White, i)
    {
      match s.board[i]
      case Empty =>
      case Stone(Black) => black := black + 1;
      case Stone(White) => white := white + 1;
    }
    var blackComplete := HasCompletedCamp(s.board, Black);
    var whiteComplete := HasCompletedCamp(s.board, White);
    hide CompletedCamp, Count;
    if snapshot.revision < 0 || black != 10 || white != 10 {
      return false;
    }
    if s.users.black.Some? && s.users.white.Some? && s.users.black == s.users.white {
      return false;
    }
    if (snapshot.revision == 0 && (s.users.black.Some? || s.users.white.Some?))
       || (snapshot.revision == 1 && (s.users.black.None? || s.users.white.Some?))
       || (snapshot.revision >= 2 && (s.users.black.None? || s.users.white.None?)) {
      return false;
    }
    if s.next != (if snapshot.revision % 2 == 1 then White else Black) {
      return false;
    }
    if s.active {
      return s.winner.None? && s.result.None? && !blackComplete && !whiteComplete;
    }
    match s.result {
      case Some(Goal) =>
        if s.winner.None? || blackComplete == whiteComplete {
          return false;
        }
        return s.winner == s.users.Of(if whiteComplete then White else Black);
      case Some(Resignation) =>
        return s.winner.Some? && !blackComplete && !whiteComplete
          && (s.winner == s.users.black || s.winner == s.users.white);
      case _ =>
        return false;
    }
  }

  method Apply(snapshot: Snap, actor: UserId, path: seq<int>) returns (reply: Reply)
    ensures reply == ApplyMove(snapshot, actor, path)
  {
    hide Decodes, LegalPath, CompletedCamp;
    if |path| < 2 || |path| > BOARD_CELLS || exists i :: 0 <= i < |path| && !OnBoard(path[i]) {
      return Err(InvalidAction);
    }
    var decoded := Decode(snapshot);
    if !decoded {
      return Err(InvalidSnapshot);
    }
    if !snapshot.state.active {
      return Err(InvalidAction);
    }
    var bound := Bind(snapshot.state, actor);
    if bound.None? {
      return Err(NotYourTurn);
    }
    var state := bound.value;
    var color := state.next;
    var valid := ValidMovePath(state.board, color, path);
    if !valid {
      return Err(InvalidMove);
    }
    state := state.(board := state.board[path[0] := Empty]);
    state := state.(board := state.board[path[|path| - 1] := Stone(color)]);
    state := state.(next := color.Opposite());
    var completed := HasCompletedCamp(state.board, color);
    if completed {
      state := state.(active := false, winner := Some(actor), result := Some(Goal));
    }
    return Ok(Applied(GameEvent(snapshot.revision + 1, actor, MoveAccepted(path, color, actor)),
                      GameSnapshot(snapshot.revision + 1, state)));
  }

  lemma {:induction false} RebuiltPrefix(events: seq<Event>, k: nat)
    requires k <= |events|
    ensures Rebuilt(events[..k]).Err? ==> Rebuilt(events) == Err(InvalidEvent)
    ensures Rebuilt(events).Err? ==> Rebuilt(events) == Err(InvalidEvent)
  {
    hide Decodes, ApplyMove, DecodesPath;
    if events != [] {
      var front := events[..|events| - 1];
      if k < |events| {
        assert front[..k] == events[..k];
        RebuiltPrefix(front, k);
      } else {
        assert events[..k] == events;
        RebuiltPrefix(front, 0);
      }
    }
  }

  method Rebuild(events: seq<Event>) returns (result: Result<Snap, RuleError>)
    ensures result == Rebuilt(events)
  {
    hide Decodes, ApplyMove, DecodesPath;
    var snapshot := InitialSnapshot();
    for index := 0 to |events|
      invariant Rebuilt(events[..index]) == Ok(snapshot)
    {
      var event := events[index];
      assert events[..index + 1][..index] == events[..index];
      RebuiltPrefix(events, index + 1);
      var decoded := Decode(snapshot);
      if event.revision != index + 1 || !DecodesPath(event.payload.path) || event.payload.user != event.actor
         || !decoded || event.payload.color != snapshot.state.next {
        return Err(InvalidEvent);
      }
      var produced := Apply(snapshot, event.actor, event.payload.path);
      if produced.Err? || produced.value.event != event {
        return Err(InvalidEvent);
      }
      snapshot := produced.value.next;
    }
    assert events[..|events|] == events;
    return Ok(snapshot);
  }
}
