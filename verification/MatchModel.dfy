/** The match service's data: requests, stored rows, and the checks that read them
    (server/internal/matches/service.go). Everything here is about one match's own rows;
    the tables and transactions are in MatchTables and MatchService. */
module MatchModel {
  import opened Common
  import ChineseCheckers
  import ChineseCheckersRules
  import FlightChess
  import Gomoku
  import Reversi
  import Rps

  type MatchId = nat
  type ActionId = nat

  const MAXIMUM_MATCH_EVENTS := 226
  const MAXIMUM_FLIGHT_CHESS_EVENTS := 512

  datatype GameId = GomokuGame | ReversiGame | CheckersGame | FlightGame | RpsGame

  function MaximumMatchEventsFor(g: GameId): int {
    if g.FlightGame? then MAXIMUM_FLIGHT_CHESS_EVENTS else MAXIMUM_MATCH_EVENTS
  }

  // --------------------------------------------------------------------------- requests

  datatype Action =
    | GomokuAt(x: int, y: int)
    | ReversiAt(x: int, y: int)
    | CheckersPath(path: seq<int>)
    | FlightRoll
    | FlightPiece(pieceIndex: int)
    | RpsThrow(choice: Rps.Choice)
    | Resign(game: GameId)

  function GameOf(a: Action): GameId {
    match a
    case GomokuAt(_, _) => GomokuGame
    case ReversiAt(_, _) => ReversiGame
    case CheckersPath(_) => CheckersGame
    case FlightRoll => FlightGame
    case FlightPiece(_) => FlightGame
    case RpsThrow(_) => RpsGame
    case Resign(g) => g
  }

  predicate DistinctOnBoard(path: seq<int>) {
    && 2 <= |path| <= ChineseCheckers.BOARD_CELLS
    && (forall i :: 0 <= i < |path| ==> 0 <= path[i] < ChineseCheckers.BOARD_CELLS)
    && (forall i, j :: 0 <= i < j < |path| ==> path[i] != path[j])
  }

  predicate WellFormed(a: Action) {
    match a
    case CheckersPath(path) => DistinctOnBoard(path)
    case FlightPiece(pieceIndex) => 0 <= pieceIndex < FlightChess.PIECE_COUNT
    case _ => true
  }

  /** The session a connection was opened in: its user, and the user's epoch at that time. */
  datatype Session = Session(user: UserId, epoch: nat)

  // A request that comes over a connection carries its session.
  datatype Request = Request(matchId: MatchId, actor: UserId, actionId: ActionId, expectedRevision: int, action: Action, session: Option<Session>)

  // ------------------------------------------------------------------------- stored rows

  /** The payload of an accepted step, as its engine produced it. */
  datatype Payload =
    | GomokuStep(gomoku: Gomoku.Payload)
    | ReversiStep(reversi: Reversi.Payload)
    | CheckersStep(checkers: ChineseCheckersRules.Payload)
    | FlightStep(flight: FlightChess.Payload)
    | RpsStep(rps: Rps.Payload)

  datatype EventKind =
    | Accepted(payload: Payload)
    | Resigned(game: GameId, user: UserId, winner: UserId)
    | MatchCancelled
    | MatchAbandoned

  datatype StoredEvent = StoredEvent(
    revision: int, kind: EventKind, actionId: Option<ActionId>, actor: Option<UserId>, createdAt: int)

  datatype Status = Active | Finished | Cancelled | Abandoned

  datatype Match = Match(
    game: GameId, config: Option<Rps.Format>, status: Status, revision: int,
    result: Option<Outcome>, winner: Option<UserId>,
    createdAt: int, updatedAt: int, finishedAt: Option<int>)

  datatype Player = Player(user: UserId, color: Color)

  // One match's rows in `matches`, `match_players` (by seat) and `match_events` (by revision).
  datatype File = File(m: Match, players: seq<Player>, events: seq<StoredEvent>)

  datatype Error =
    | NotFound | Internal | InvalidRequest | StaleRevision | ActionConflict | NotCancellable
    | ActiveMatchExists | OpponentBusy | TicketInvalid | ResumeExpired | Rule(rule: RuleError)

  // --------------------------------------------------------------------- the rules boundary

  // What `readGameStateSummary` reads out of any game's state.
  datatype Summary = Summary(
    active: bool, black: Option<UserId>, white: Option<UserId>, next: Option<Color>,
    winner: Option<UserId>, result: Option<Outcome>)

  type GameEvents = seq<GameEvent<Payload>>

  /** A configured rules instance: `apply` also receives the die the service's randomness would give. */
  datatype Rules<!S> = Rules(
    apply: (GameSnapshot<S>, UserId, Action, int) -> Result<Applied<S, Payload>, RuleError>,
    rebuild: GameEvents -> Result<GameSnapshot<S>, RuleError>,
    summary: S -> Summary)

  datatype Registry<!S> = Registry(
    single: GameId -> bool,
    configured: (GameId, Option<Rps.Format>) -> Option<Rules<S>>)

  datatype Snapshot<S> = Snapshot(m: Match, players: seq<Player>, game: GameSnapshot<S>)

  // ------------------------------------------------------------------- reading the players

  predicate TwoPlayers(players: seq<Player>) {
    && |players| == 2 && players[0].user != players[1].user && players[0].color != players[1].color
  }

  function SeatOf(players: seq<Player>, user: UserId): (seat: Option<nat>)
    requires |players| == 2
    ensures seat.Some? ==> seat.value < 2 && players[seat.value].user == user
    ensures seat.None? ==> players[0].user != user && players[1].user != user
  {
    if players[0].user == user then Some(0) else if players[1].user == user then Some(1) else None
  }

  predicate Member(players: seq<Player>, user: UserId)
    requires |players| == 2
  {
    SeatOf(players, user).Some?
  }

  function UserOf(players: seq<Player>, c: Color): UserId
    requires TwoPlayers(players)
  {
    if players[0].color == c then players[0].user else players[1].user
  }

  function ColorOf(players: seq<Player>, user: UserId): Color
    requires TwoPlayers(players) && Member(players, user)
  {
    players[SeatOf(players, user).value].color
  }

  function OpponentOf(players: seq<Player>, user: UserId): UserId
    requires TwoPlayers(players) && Member(players, user)
  {
    players[1 - SeatOf(players, user).value].user
  }

  // ------------------------------------------------------------------ payloads and actions

  function GameOfPayload(p: Payload): GameId {
    match p
    case GomokuStep(_) => GomokuGame
    case ReversiStep(_) => ReversiGame
    case CheckersStep(_) => CheckersGame
    case FlightStep(_) => FlightGame
    case RpsStep(_) => RpsGame
  }

  predicate SameKind(p: Payload, a: Action) {
    match a
    case GomokuAt(_, _) => p.GomokuStep?
    case ReversiAt(_, _) => p.ReversiStep?
    case CheckersPath(_) => p.CheckersStep?
    case FlightRoll => p.FlightStep? && p.flight.RollAccepted?
    case FlightPiece(_) => p.FlightStep? && p.flight.MoveAccepted?
    case RpsThrow(_) => p.RpsStep?
    case Resign(_) => false
  }

  predicate OnGrid(x: int, y: int) {
    0 <= x < 15 && 0 <= y < 15
  }

  /** The payload decodes and names this actor, playing this colour where the game has colours. */
  predicate Owned(p: Payload, actor: UserId, color: Color) {
    match p
    case GomokuStep(q) => OnGrid(q.x, q.y) && q.user == actor && q.color == color
    case ReversiStep(q) => OnGrid(q.x, q.y) && q.user == actor && q.color == color
    case CheckersStep(q) => DistinctOnBoard(q.path) && q.user == actor && q.color == color
    case FlightStep(q) =>
      (match FlightChess.Normalize(q)
       case None => false
       case Some(n) => (FlightChess.DecodesRoll(n) || FlightChess.DecodesMove(n)) && n.user == actor && n.color == color)
    case RpsStep(ChoiceLocked(round, user, _)) => round >= 1 && user == actor
    case RpsStep(RoundRevealed(r)) => r.round >= 1 && |r.choices| == 2 && |r.scores| <= 2
  }

  predicate SameMeaning(p: Payload, a: Action, actor: UserId) {
    match (p, a)
    case (GomokuStep(q), GomokuAt(x, y)) => q.x == x && q.y == y
    case (ReversiStep(q), ReversiAt(x, y)) => q.x == x && q.y == y
    case (CheckersStep(q), CheckersPath(path)) => q.path == path
    case (FlightStep(q), FlightRoll) => q.RollAccepted?
    case (FlightStep(q), FlightPiece(pieceIndex)) => q.MoveAccepted? && q.pieceIndex == pieceIndex
    case (RpsStep(ChoiceLocked(_, _, choice)), RpsThrow(wanted)) => choice == wanted
    case (RpsStep(RoundRevealed(r)), RpsThrow(wanted)) => actor in r.choices && r.choices[actor] == wanted
    case _ => false
  }

  predicate Alternates(g: GameId) {
    g.GomokuGame? || g.CheckersGame?
  }

  function Parity(n: int): Color {
    if n % 2 == 1 then White else Black
  }

  /** What the rebuild demands of the `n`-th accepted row beyond its actor's membership. */
  predicate RowFits(g: GameId, p: Payload, actor: UserId, color: Color, n: nat) {
    && GameOfPayload(p) == g && Owned(p, actor, color)
    && (Alternates(g) ==> color == Parity(n))
    && (p.RpsStep? && p.rps.RoundRevealed? ==> actor in p.rps.shown.choices)
  }

  // ------------------------------------------------------------------ scanning the events

  // The type of a terminal row, as `terminalType` remembers it.
  datatype Terminal = NoTerminal | ResignedType(game: GameId) | CancelledType | AbandonedType

  datatype Scan = Scan(accepted: GameEvents, terminal: Terminal)

  // Gomoku and reversi share one rebuild, and with it their resignation rows.
  predicate ResignationBelongs(g: GameId, of: GameId) {
    of == g || ((g.GomokuGame? || g.ReversiGame?) && (of.GomokuGame? || of.ReversiGame?))
  }

  function ScanRow(g: GameId, players: seq<Player>, s: Scan, e: StoredEvent, index: nat, last: bool): Option<Scan>
    requires TwoPlayers(players)
  {
    if e.revision != index + 1 then None
    else match e.kind
      case Accepted(p) =>
        if s.terminal == NoTerminal && e.actionId.Some? && e.actor.Some? && Member(players, e.actor.value)
           && RowFits(g, p, e.actor.value, ColorOf(players, e.actor.value), |s.accepted|)
        then Some(s.(accepted := s.accepted + [GameEvent(e.revision, e.actor.value, p)]))
        else None
      case Resigned(of, user, winner) =>
        if last && ResignationBelongs(g, of) && e.actionId.Some? && e.actor.Some? && Member(players, e.actor.value)
           && user == e.actor.value && winner == OpponentOf(players, e.actor.value)
        then Some(s.(terminal := ResignedType(of)))
        else None
      case MatchCancelled =>
        if last && s.accepted == [] && e.actionId.None? && e.actor.Some? && Member(players, e.actor.value)
        then Some(s.(terminal := CancelledType))
        else None
      case MatchAbandoned =>
        if last && e.actionId.None? && e.actor.None? then Some(s.(terminal := AbandonedType)) else None
  }

  /** The scan of the first `n` events. */
  function ScanTo(g: GameId, players: seq<Player>, events: seq<StoredEvent>, n: nat): Option<Scan>
    requires TwoPlayers(players) && n <= |events|
  {
    if n == 0 then Some(Scan([], NoTerminal))
    else match ScanTo(g, players, events, n - 1)
      case None => None
      case Some(s) => ScanRow(g, players, s, events[n - 1], n - 1, n == |events|)
  }

  // ----------------------------------------------------------------- what must agree with it

  /** The seats and the turn that the replayed state reports after `n` accepted rows. */
  predicate SummaryFits(g: GameId, s: Summary, n: nat, players: seq<Player>)
    requires TwoPlayers(players)
  {
    var black, white := Some(UserOf(players, Black)), Some(UserOf(players, White));
    match g
    case RpsGame => true
    case FlightGame =>
      && s.next.Some?
      && (if n == 0 then s.black.None? && s.white.None? && s.next == Some(Black) else s.black == black)
      && (s.white.Some? ==> s.white == white)
    case _ =>
      && (if n == 0 then s.black.None? && s.white.None? && s.next == Some(Black)
          else s.black == black && s.white == (if n >= 2 then white else None))
      && (n > 0 && Alternates(g) ==> s.next == Some(Parity(n)))
  }

  predicate Unfinished(s: Summary) {
    s.active && s.result.None? && s.winner.None?
  }

  // The rock-paper-scissors rebuild looks at the status alone when a match was called off.
  predicate StillOpen(g: GameId, s: Summary) {
    s.active && (g.RpsGame? || (s.result.None? && s.winner.None?))
  }

  predicate LifecycleFits(m: Match, s: Summary, terminal: Terminal, players: seq<Player>, events: seq<StoredEvent>)
    requires TwoPlayers(players)
  {
    && m.revision <= MaximumMatchEventsFor(m.game)
    && match m.status
       case Active => terminal == NoTerminal && m.result.None? && m.winner.None? && m.finishedAt.None? && Unfinished(s)
       case Cancelled => terminal == CancelledType && m.finishedAt.Some? && m.result.None? && m.winner.None? && StillOpen(m.game, s)
       case Abandoned => terminal == AbandonedType && m.finishedAt.Some? && m.result.None? && m.winner.None? && StillOpen(m.game, s)
       case Finished =>
         && m.finishedAt.Some? && m.result.Some?
         && match m.result.value
            case Resignation =>
              && terminal == ResignedType(m.game) && Unfinished(s) && m.winner.Some? && Member(players, m.winner.value)
              && (m.game.RpsGame?
                  || (events != [] && var last := events[|events| - 1].kind; last.Resigned? && last.winner == m.winner.value))
            case Draw =>
              terminal == NoTerminal && !s.active && s.result == Some(Draw) && m.winner.None? && s.winner.None?
            case _ =>
              && terminal == NoTerminal && !s.active && s.result == m.result
              && m.winner.Some? && s.winner == m.winner && Member(players, m.winner.value)
  }

  /** Which decided results a game may end with. */
  predicate ResultBelongs(g: GameId, r: Outcome) {
    match r
    case Five => !g.RpsGame?
    case Majority => g.ReversiGame?
    case Goal => g.CheckersGame? || g.FlightGame?
    case Rounds => g.RpsGame?
    case Draw => !g.RpsGame?
    case Resignation => true
  }

  /** `loadMatchAndPlayers`' checks on the rows it reads. */
  predicate Loads(f: File) {
    f.m.revision >= 0 && f.m.createdAt <= f.m.updatedAt && TwoPlayers(f.players)
  }

  /** `rebuildSnapshot` up to the slot check: the log replayed, and every cross-check against
      the replayed state and the match row. */
  function Replay<S>(reg: Registry<S>, f: File): Result<GameSnapshot<S>, Error>
    requires TwoPlayers(f.players)
  {
    match reg.configured(f.m.game, f.m.config)
    case None => Err(Internal)
    case Some(rules) =>
      if f.m.revision != |f.events| || |f.events| > MaximumMatchEventsFor(f.m.game) then Err(Internal)
      else match ScanTo(f.m.game, f.players, f.events, |f.events|)
        case None => Err(Internal)
        case Some(scan) =>
          match rules.rebuild(scan.accepted)
          case Err(_) => Err(Internal)
          case Ok(game) =>
            var summary := rules.summary(game.state);
            if game.revision == |scan.accepted| && SummaryFits(f.m.game, summary, |scan.accepted|, f.players)
               && LifecycleFits(f.m, summary, scan.terminal, f.players, f.events)
               && (f.m.result.Some? ==> ResultBelongs(f.m.game, f.m.result.value))
            then Ok(game) else Err(Internal)
  }

  // ---------------------------------------------------------------------- deciding an action

  datatype Ending = Ending(status: Status, result: Option<Outcome>, winner: Option<UserId>)

  datatype Decision<S> = Decision(kind: EventKind, game: GameSnapshot<S>, ending: Option<Ending>)

  /** Chinese checkers keeps one event for resigning, rock-paper-scissors two. */
  predicate HasRoom(g: GameId, revision: int) {
    match g
    case CheckersGame => revision < MAXIMUM_MATCH_EVENTS - 1
    case RpsGame => revision < MAXIMUM_MATCH_EVENTS - 2
    case _ => true
  }

  predicate OnTurn(g: GameId, s: Summary, revision: int, color: Color) {
    match g
    case RpsGame => true
    case CheckersGame => color == Parity(revision)
    case _ => s.next == Some(color)
  }

  function SafeError(e: RuleError): Error {
    match e
    case InvalidAction => InvalidRequest
    case MatchFinished => InvalidRequest
    case InvalidEvent => Internal
    case InvalidSnapshot => Internal
    case _ => Rule(e)
  }

  /** `validateProduced…`: the engine answered this request, at this revision. */
  predicate Produced<S>(a: Applied<S, Payload>, action: Action, actor: Player, revision: int) {
    && a.event.revision == revision && a.next.revision == revision && a.event.actor == actor.user
    && SameKind(a.event.payload, action) && Owned(a.event.payload, actor.user, actor.color)
    && SameMeaning(a.event.payload, action, actor.user)
  }

  predicate EndingFits(g: GameId, s: Summary, action: Action, actor: UserId, players: seq<Player>)
    requires |players| == 2
  {
    match g
    case CheckersGame => s.result == Some(Goal) && s.winner == Some(actor)
    case FlightGame => action.FlightPiece? && s.result == Some(Goal) && s.winner == Some(actor)
    case RpsGame => s.result == Some(Rounds) && s.winner.Some? && Member(players, s.winner.value)
    case _ =>
      && (s.result == Some(Five) || s.result == Some(Draw) || (g.ReversiGame? && s.result == Some(Majority)))
      && (s.result == Some(Draw) ==> s.winner.None?) && (s.result == Some(Five) ==> s.winner == Some(actor))
  }

  function Decide<S>(rules: Rules<S>, f: File, current: GameSnapshot<S>, actor: UserId, action: Action, die: int): Result<Decision<S>, Error>
    requires TwoPlayers(f.players) && Member(f.players, actor)
  {
    var g := f.m.game;
    var color := ColorOf(f.players, actor);
    var next := f.m.revision + 1;
    if action.Resign? then
      if current.revision == 0 then Err(InvalidRequest)
      else
        var winner := OpponentOf(f.players, actor);
        Ok(Decision(Resigned(g, actor, winner), current, Some(Ending(Finished, Some(Resignation), Some(winner)))))
    else if !HasRoom(g, f.m.revision) then Err(InvalidRequest)
    else if !OnTurn(g, rules.summary(current.state), current.revision, color) then Err(Rule(NotYourTurn))
    else match rules.apply(current, actor, action, die)
      case Err(e) => Err(SafeError(e))
      case Ok(a) =>
        if !Produced(a, action, Player(actor, color), next) then Err(Internal)
        else
          var s := rules.summary(a.next.state);
          if !s.active then
            if !EndingFits(g, s, action, actor, f.players) then Err(Internal)
            else Ok(Decision(Accepted(a.event.payload), a.next, Some(Ending(Finished, s.result, s.winner))))
          else if g.FlightGame? && next == MAXIMUM_FLIGHT_CHESS_EVENTS then
            Ok(Decision(MatchAbandoned, current, Some(Ending(Abandoned, None, None))))
          else Ok(Decision(Accepted(a.event.payload), a.next, None))
  }

  // ----------------------------------------------------------------- repeated actions

  function FindAction(events: seq<StoredEvent>, actor: UserId, actionId: ActionId): Option<StoredEvent> {
    if events == [] then None
    else if events[0].actor == Some(actor) && events[0].actionId == Some(actionId) then Some(events[0])
    else FindAction(events[1..], actor, actionId)
  }

  /** `committedActionMatches`: does the stored row mean what this request means? */
  function CommittedMatches(e: StoredEvent, actor: UserId, action: Action, players: seq<Player>): Result<bool, Error>
    requires TwoPlayers(players)
  {
    match action
    case Resign(g) =>
      if !e.kind.Resigned? || e.kind.game != g then Ok(false)
      else if Member(players, actor) && e.kind.user == actor && e.kind.winner == OpponentOf(players, actor) then Ok(true)
      else Err(Internal)
    case _ =>
      if !e.kind.Accepted? || !SameKind(e.kind.payload, action) then Ok(false)
      else if Member(players, actor) && Owned(e.kind.payload, actor, ColorOf(players, actor))
        then Ok(SameMeaning(e.kind.payload, action, actor))
      else Err(Internal)
  }

  /** A second simultaneous choice may arrive one revision late. */
  predicate AcceptsPreviousRevision(f: File, actor: UserId, action: Action, expectedRevision: int) {
    && f.m.game.RpsGame? && action.RpsThrow? && 0 < f.m.revision <= |f.events| && expectedRevision == f.m.revision - 1
    && var last := f.events[f.m.revision - 1];
       last.kind.Accepted? && last.kind.payload.RpsStep? && last.kind.payload.rps.ChoiceLocked? && last.actor != Some(actor)
  }

  // -------------------------------------------------------------------------- new rows

  /** The file after one committed event: the row appended, the match row updated. */
  function Extended(f: File, kind: EventKind, actionId: Option<ActionId>, actor: Option<UserId>, ending: Option<Ending>, now: int): File {
    var revision := f.m.revision + 1;
    var m := f.m.(revision := revision, updatedAt := now);
    File(match ending
         case None => m
         case Some(e) => m.(status := e.status, result := e.result, winner := e.winner, finishedAt := Some(now)),
         f.players, f.events + [StoredEvent(revision, kind, actionId, actor, now)])
  }
}
