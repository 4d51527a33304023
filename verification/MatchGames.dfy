/** The five games behind the match service: each engine wrapped in the rules boundary the
    service sees, and the registry that offers them (server/internal/games/registry.go). */
module MatchGames {
  import opened Common
  import opened MatchModel
  import CC = ChineseCheckersRules
  import FC = FlightChess
  import G = Gomoku
  import R = Reversi
  import Rps

  datatype GameState =
    | GomokuState(gomoku: G.State)
    | ReversiState(reversi: R.State)
    | CheckersState(checkers: CC.State)
    | FlightState(flight: FC.State)
    | RpsState(rps: Rps.State)

  type Snap = GameSnapshot<GameState>
  type Answer = Result<Applied<GameState, Payload>, RuleError>

  function Lifted<S, P>(r: Result<Applied<S, P>, RuleError>, state: S -> GameState, payload: P -> Payload): Answer {
    match r
    case Err(e) => Err(e)
    case Ok(a) => Ok(Applied(GameEvent(a.event.revision, a.event.actor, payload(a.event.payload)),
                             GameSnapshot(a.next.revision, state(a.next.state))))
  }

  function LiftedSnapshot<S>(r: Result<GameSnapshot<S>, RuleError>, state: S -> GameState): Result<Snap, RuleError> {
    match r
    case Err(e) => Err(e)
    case Ok(snap) => Ok(GameSnapshot(snap.revision, state(snap.state)))
  }

  /** The game's own log inside the service's: every payload must be the game's. */
  function Lowered<P>(log: GameEvents, payload: Payload -> Option<P>): Option<seq<GameEvent<P>>> {
    if log == [] then Some([])
    else match Lowered(log[..|log| - 1], payload)
      case None => None
      case Some(front) =>
        var e := log[|log| - 1];
        match payload(e.payload)
        case None => None
        case Some(p) => Some(front + [GameEvent(e.revision, e.actor, p)])
  }

  // -------------------------------------------------------------------------- gomoku

  function GomokuPayload(p: Payload): Option<G.Payload> {
    if p.GomokuStep? then Some(p.gomoku) else None
  }

  function GomokuApply(snap: Snap, actor: UserId, action: Action, die: int): Answer {
    match (snap.state, action)
    case (GomokuState(s), GomokuAt(x, y)) =>
      Lifted(G.ApplyMove(GameSnapshot(snap.revision, s), actor, G.Point(x, y)), t => GomokuState(t), p => GomokuStep(p))
    case _ => Err(InvalidAction)
  }

  function GomokuRebuild(log: GameEvents): Result<Snap, RuleError> {
    match Lowered(log, GomokuPayload)
    case None => Err(InvalidEvent)
    case Some(events) => LiftedSnapshot(G.Rebuilt(events), t => GomokuState(t))
  }

  // ------------------------------------------------------------------------- reversi

  function ReversiPayload(p: Payload): Option<R.Payload> {
    if p.ReversiStep? then Some(p.reversi) else None
  }

  function ReversiApply(snap: Snap, actor: UserId, action: Action, die: int): Answer {
    match (snap.state, action)
    case (ReversiState(s), ReversiAt(x, y)) =>
      Lifted(R.ApplyMove(GameSnapshot(snap.revision, s), actor, R.Point(x, y)), t => ReversiState(t), p => ReversiStep(p))
    case _ => Err(InvalidAction)
  }

  function ReversiRebuild(log: GameEvents): Result<Snap, RuleError> {
    match Lowered(log, ReversiPayload)
    case None => Err(InvalidEvent)
    case Some(events) => LiftedSnapshot(R.Rebuilt(events), t => ReversiState(t))
  }

  // ----------------------------------------------------------------- Chinese checkers

  function CheckersPayload(p: Payload): Option<CC.Payload> {
    if p.CheckersStep? then Some(p.checkers) else None
  }

  function CheckersApply(snap: Snap, actor: UserId, action: Action, die: int): Answer {
    match (snap.state, action)
    case (CheckersState(s), CheckersPath(path)) =>
      Lifted(CC.ApplyMove(GameSnapshot(snap.revision, s), actor, path), t => CheckersState(t), p => CheckersStep(p))
    case _ => Err(InvalidAction)
  }

  function CheckersRebuild(log: GameEvents): Result<Snap, RuleError> {
    match Lowered(log, CheckersPayload)
    case None => Err(InvalidEvent)
    case Some(events) => LiftedSnapshot(CC.Rebuilt(events), t => CheckersState(t))
  }

  // --------------------------------------------------------------------- flight chess

  function FlightPayload(p: Payload): Option<FC.Payload> {
    if p.FlightStep? then Some(p.flight) else None
  }

  function FlightApply(snap: Snap, actor: UserId, action: Action, die: int): Answer {
    match (snap.state, action)
    case (FlightState(s), FlightRoll) =>
      Lifted(FC.ApplyRoll(GameSnapshot(snap.revision, s), actor, die, true, true), t => FlightState(t), p => FlightStep(p))
    case (FlightState(s), FlightPiece(pieceIndex)) =>
      Lifted(FC.ApplyMove(GameSnapshot(snap.revision, s), actor, pieceIndex, true, true), t => FlightState(t), p => FlightStep(p))
    case _ => Err(InvalidAction)
  }

  function FlightRebuild(log: GameEvents): Result<Snap, RuleError> {
    match Lowered(log, FlightPayload)
    case None => Err(InvalidEvent)
    case Some(events) => LiftedSnapshot(FC.Rebuilt(events), t => FlightState(t))
  }

  // -------------------------------------------------------------- rock, paper, scissors

  function RpsPayload(p: Payload): Option<Rps.Payload> {
    if p.RpsStep? then Some(p.rps) else None
  }

  function RpsApply(format: Rps.Format, snap: Snap, actor: UserId, action: Action): Answer {
    match (snap.state, action)
    case (RpsState(s), RpsThrow(choice)) =>
      Lifted(Rps.ApplyChoice(format, GameSnapshot(snap.revision, s), actor, choice), t => RpsState(t), p => RpsStep(p))
    case _ => Err(InvalidAction)
  }

  function RpsRebuild(format: Rps.Format, log: GameEvents): Result<Snap, RuleError> {
    match Lowered(log, RpsPayload)
    case None => Err(InvalidEvent)
    case Some(events) => LiftedSnapshot(Rps.Rebuilt(format, events), t => RpsState(t))
  }

  // ------------------------------------------------------------------------ the registry

  function SummaryOf(s: GameState): Summary {
    match s
    case GomokuState(g) => Summary(g.active, g.users.black, g.users.white, Some(g.next), g.winner, g.result)
    case ReversiState(r) => Summary(r.active, r.users.black, r.users.white, r.next, r.winner, r.result)
    case CheckersState(c) => Summary(c.active, c.users.black, c.users.white, Some(c.next), c.winner, c.result)
    case FlightState(f) => Summary(f.active, f.users.black, f.users.white, Some(f.next), f.winner, f.result)
    case RpsState(p) => Summary(p.active, None, None, None, p.winner, p.result)
  }

  function GomokuRules(): Rules<GameState> {
    Rules(GomokuApply, GomokuRebuild, SummaryOf)
  }

  function ReversiRules(): Rules<GameState> {
    Rules(ReversiApply, ReversiRebuild, SummaryOf)
  }

  function CheckersRules(): Rules<GameState> {
    Rules(CheckersApply, CheckersRebuild, SummaryOf)
  }

  function FlightRules(): Rules<GameState> {
    Rules(FlightApply, FlightRebuild, SummaryOf)
  }

  function RpsRules(format: Rps.Format): Rules<GameState> {
    Rules((snap, actor, action, die) => RpsApply(format, snap, actor, action), log => RpsRebuild(format, log), SummaryOf)
  }

  /** Only rock-paper-scissors takes, and needs, a configuration. */
  function Configured(g: GameId, config: Option<Rps.Format>): Option<Rules<GameState>> {
    match (g, config)
    case (GomokuGame, None) => Some(GomokuRules())
    case (ReversiGame, None) => Some(ReversiRules())
    case (CheckersGame, None) => Some(CheckersRules())
    case (FlightGame, None) => Some(FlightRules())
    case (RpsGame, Some(format)) => Some(RpsRules(format))
    case _ => None
  }

  function BuiltIn(): Registry<GameState> {
    Registry(g => true, Configured)
  }
}
