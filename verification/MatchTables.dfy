/** The match service's transactions as functions from tables to tables
    (server/internal/matches/service.go). A transaction that fails writes nothing. */
module MatchTables {
  import opened Common
  import opened MatchModel
  import Rps

  type Hash = nat

  datatype Row = Row(m: Match, offlineSince: Option<int>)

  datatype LimitRow = LimitRow(revision: int, actor: UserId, actionId: ActionId, action: Action)

  datatype Ticket = Ticket(matchId: MatchId, user: UserId, game: GameId, expires: int, consumed: Option<int>)

  datatype Token = Token(matchId: MatchId, user: UserId, expires: int, lastUsed: int, revoked: bool)

  // A transfer to another device moves the account to a new epoch.
  datatype User = User(enabled: bool, epoch: nat)

  datatype Tables = Tables(
    users: map<UserId, User>,
    matches: map<MatchId, Row>,
    players: map<MatchId, seq<Player>>,
    events: map<MatchId, seq<StoredEvent>>,
    slots: map<(GameId, UserId), MatchId>,
    limits: map<MatchId, LimitRow>,
    tickets: map<Hash, Ticket>,
    tokens: map<Hash, Token>)

  function Selected<V>(column: map<MatchId, seq<V>>, id: MatchId): seq<V> {
    if id in column then column[id] else []
  }

  function FileOf(t: Tables, id: MatchId): File
    requires id in t.matches
  {
    File(t.matches[id].m, Selected(t.players, id), Selected(t.events, id))
  }

  // ------------------------------------------------------------------------- reading

  function Load(t: Tables, id: MatchId): (r: Result<File, Error>)
    ensures r.Ok? ==> id in t.matches && r.value == FileOf(t, id) && TwoPlayers(r.value.players)
  {
    if id !in t.matches then Err(NotFound)
    else if Loads(FileOf(t, id)) then Ok(FileOf(t, id)) else Err(Internal)
  }

  function SlotsOf(t: Tables, id: MatchId): set<(GameId, UserId)> {
    set k | k in t.slots && t.slots[k] == id
  }

  function ExpectedSlots(f: File, single: bool): set<(GameId, UserId)>
    requires TwoPlayers(f.players)
  {
    if single then {(f.m.game, f.players[0].user), (f.m.game, f.players[1].user)} else {}
  }

  /** `validateCompleteActiveSlotSet`. */
  predicate SlotsComplete(t: Tables, id: MatchId, f: File, single: bool)
    requires TwoPlayers(f.players)
  {
    SlotsOf(t, id) == ExpectedSlots(f, single)
  }

  function RebuildSnapshot<S>(reg: Registry<S>, t: Tables, id: MatchId, f: File): Result<Snapshot<S>, Error>
    requires TwoPlayers(f.players)
  {
    match Replay(reg, f)
    case Err(e) => Err(e)
    case Ok(game) =>
      if SlotsComplete(t, id, f, f.m.status == Active && reg.single(f.m.game)) then Ok(Snapshot(f.m, f.players, game))
      else Err(Internal)
  }

  function SnapshotOf<S>(reg: Registry<S>, t: Tables, id: MatchId): Result<Snapshot<S>, Error> {
    match Load(t, id)
    case Err(e) => Err(e)
    case Ok(f) => RebuildSnapshot(reg, t, id, f)
  }

  // ------------------------------------------------------------------------- creating

  function Enabled(t: Tables, user: UserId): bool {
    user in t.users && t.users[user].enabled
  }

  predicate ValidSession(t: Tables, s: Session) {
    Enabled(t, s.user) && t.users[s.user].epoch == s.epoch
  }

  function NewMatch(game: GameId, config: Option<Rps.Format>, now: int): Match {
    Match(game, config, Active, 0, None, None, now, now, None)
  }

  function CreateMatch<S>(reg: Registry<S>, t: Tables, game: GameId, initiator: UserId, opponent: UserId, config: Option<Rps.Format>,
                          initiatorColor: Color, id: MatchId, now: int): (Result<Match, Error>, Tables)
  {
    if initiator == opponent || reg.configured(game, config).None? || !Enabled(t, initiator) || !Enabled(t, opponent)
    then (Err(InvalidRequest), t)
    else if id in t.matches || id in t.players || id in t.events then (Err(Internal), t)
    else if reg.single(game) && (game, initiator) in t.slots then (Err(ActiveMatchExists), t)
    else if reg.single(game) && (game, opponent) in t.slots then (Err(OpponentBusy), t)
    else
      var m := NewMatch(game, config, now);
      (Ok(m), t.(matches := t.matches[id := Row(m, None)],
                 players := t.players[id := [Player(initiator, initiatorColor), Player(opponent, initiatorColor.Opposite())]],
                 slots := if reg.single(game) then t.slots[(game, initiator) := id][(game, opponent) := id] else t.slots))
  }

  // ------------------------------------------------------------------------- committing

  function WithoutSlots(t: Tables, id: MatchId, f: File): map<(GameId, UserId), MatchId>
    requires |f.players| == 2
  {
    map k | k in t.slots && !(t.slots[k] == id && k.0 == f.m.game && (k.1 == f.players[0].user || k.1 == f.players[1].user))
      :: t.slots[k]
  }

  /** Rows a finished match leaves behind in no table: its slots and its credentials. */
  function Released(t: Tables, id: MatchId, f: File): Tables
    requires |f.players| == 2
  {
    t.(slots := WithoutSlots(t, id, f),
       tickets := map h | h in t.tickets && t.tickets[h].matchId != id :: t.tickets[h],
       tokens := map h | h in t.tokens && t.tokens[h].matchId != id :: t.tokens[h])
  }

  function Stored(t: Tables, id: MatchId, g: File, offlineSince: Option<int>): Tables {
    t.(matches := t.matches[id := Row(g.m, offlineSince)], events := t.events[id := g.events])
  }

  /** One committed event of an active match; an ending also releases slots and credentials. */
  function Committed(t: Tables, id: MatchId, f: File, g: File, offlineSince: Option<int>): Tables
    requires |f.players| == 2
  {
    var stored := Stored(t, id, g, offlineSince);
    if g.m.status == Active then stored else Released(stored, id, f)
  }

  // ------------------------------------------------------------------------- acting

  /** The event an earlier, identical request committed, if there is one. */
  function EarlierEvent(t: Tables, id: MatchId, f: File, r: Request): Result<Option<StoredEvent>, Error>
    requires TwoPlayers(f.players)
  {
    match FindAction(f.events, r.actor, r.actionId)
    case Some(e) =>
      (match CommittedMatches(e, r.actor, r.action, f.players)
       case Err(e) => Err(e)
       case Ok(same) => if same then Ok(Some(e)) else Err(ActionConflict))
    case None =>
      if f.m.game.FlightGame? && f.m.status == Abandoned then LimitEvent(t, id, f, r) else Ok(None)
  }

  /** `readFlightChessLimitAction`: the request that the event limit turned into an abandonment. */
  function LimitEvent(t: Tables, id: MatchId, f: File, r: Request): Result<Option<StoredEvent>, Error>
    requires TwoPlayers(f.players)
  {
    if id !in t.limits || t.limits[id].actor != r.actor || t.limits[id].actionId != r.actionId then Ok(None)
    else
      var row := t.limits[id];
      if !(1 <= row.revision <= |f.events|) then Ok(None)
      else
        var e := f.events[row.revision - 1];
        if !e.kind.MatchAbandoned? || e.revision != MAXIMUM_FLIGHT_CHESS_EVENTS || e.actionId.Some? || e.actor.Some? then Err(Internal)
        else if row.action != r.action then Err(ActionConflict)
        else if !Member(f.players, r.actor) then Err(Internal)
        else Ok(Some(e))
  }

  /** Writing a decision: the event row, the limit row, the match row, slots and credentials. */
  function Write<S>(reg: Registry<S>, t: Tables, id: MatchId, f: File, d: Decision<S>, r: Request, now: int)
    : (Result<(StoredEvent, Snapshot<S>), Error>, Tables)
    requires TwoPlayers(f.players) && id in t.matches
  {
    var system := d.kind.MatchAbandoned?;
    if d.ending.Some? && !SlotsComplete(t, id, f, reg.single(f.m.game)) then (Err(Internal), t)
    else if system && id in t.limits then (Err(Internal), t)
    else
      var g := Extended(f, d.kind, if system then None else Some(r.actionId), if system then None else Some(r.actor), d.ending, now);
      var committed := Committed(t, id, f, g, if d.ending.Some? then None else t.matches[id].offlineSince);
      (Ok((g.events[|f.events|], Snapshot(g.m, f.players, d.game))),
       if system then committed.(limits := t.limits[id := LimitRow(g.m.revision, r.actor, r.actionId, r.action)]) else committed)
  }

  function Fresh<S>(reg: Registry<S>, rules: Rules<S>, t: Tables, f: File, r: Request, die: int, now: int)
    : (Result<(StoredEvent, Snapshot<S>), Error>, Tables)
    requires TwoPlayers(f.players) && r.matchId in t.matches
  {
    if f.m.status != Active || !Member(f.players, r.actor) then (Err(InvalidRequest), t)
    else if r.expectedRevision != f.m.revision && !AcceptsPreviousRevision(f, r.actor, r.action, r.expectedRevision)
    then (Err(StaleRevision), t)
    else match RebuildSnapshot(reg, t, r.matchId, f)
      case Err(e) => (Err(e), t)
      case Ok(current) =>
        match Decide(rules, f, current.game, r.actor, r.action, die)
        case Err(e) => (Err(e), t)
        case Ok(d) => Write(reg, t, r.matchId, f, d, r, now)
  }

  function Act<S>(reg: Registry<S>, t: Tables, r: Request, die: int, now: int): (Result<(StoredEvent, Snapshot<S>), Error>, Tables) {
    if r.expectedRevision < 0 || !WellFormed(r.action) then (Err(InvalidRequest), t)
    else if r.session.Some? && !ValidSession(t, r.session.value) then (Err(ResumeExpired), t)
    else match Load(t, r.matchId)
      case Err(e) => (Err(e), t)
      case Ok(f) =>
        if GameOf(r.action) != f.m.game then (Err(InvalidRequest), t)
        else match reg.configured(f.m.game, f.m.config)
          case None => (Err(Internal), t)
          case Some(rules) =>
            match EarlierEvent(t, r.matchId, f, r)
            case Err(e) => (Err(e), t)
            case Ok(None) => Fresh(reg, rules, t, f, r, die, now)
            case Ok(Some(event)) =>
              match RebuildSnapshot(reg, t, r.matchId, f)
              case Err(e) => (Err(e), t)
              case Ok(snapshot) => (Ok((event, snapshot)), t)
  }

  // ------------------------------------------------------------------------- cancelling

  predicate HasGameplay(events: seq<StoredEvent>) {
    exists i :: 0 <= i < |events| && events[i].kind.Accepted?
  }

  /** Cancel reads the rows itself, and leaves the offline timer alone. */
  function Cancel<S>(reg: Registry<S>, t: Tables, id: MatchId, actor: UserId, now: int): (Result<StoredEvent, Error>, Tables) {
    if id !in t.matches then (Err(NotFound), t)
    else
      var f := FileOf(t, id);
      if |f.players| != 2 || f.players[0].user == f.players[1].user then (Err(Internal), t)
      else if !Member(f.players, actor) || f.m.status != Active || HasGameplay(f.events) then (Err(NotCancellable), t)
      else if !TwoPlayers(f.players) || !SlotsComplete(t, id, f, reg.single(f.m.game)) then (Err(Internal), t)
      else
        var g := Extended(f, MatchCancelled, None, Some(actor), Some(Ending(Cancelled, None, None)), now);
        (Ok(g.events[|f.events|]), Committed(t, id, f, g, t.matches[id].offlineSince))
  }

  // ------------------------------------------------------------------------- abandoning

  predicate Expired(row: Row, cutoff: int) {
    row.m.status == Active && row.offlineSince.Some? && row.offlineSince.value <= cutoff
  }

  function AbandonIfExpired<S>(reg: Registry<S>, t: Tables, id: MatchId, cutoff: int, now: int): (Result<Option<StoredEvent>, Error>, Tables) {
    match Load(t, id)
    case Err(e) => (if e == NotFound then Ok(None) else Err(e), t)
    case Ok(f) =>
      if !Expired(t.matches[id], cutoff) then (Ok(None), t)
      else match RebuildSnapshot(reg, t, id, f)
        case Err(e) => (Err(e), t)
        case Ok(_) =>
          var g := Extended(f, MatchAbandoned, None, None, Some(Ending(Abandoned, None, None)), now);
          (Ok(Some(g.events[|f.events|])), Committed(t, id, f, g, None))
  }

  const FULLY_OFFLINE_ABANDON_AFTER := 24 * 60 * 60 * 1000

  /** Abandons the listed matches one transaction at a time, stopping at the first error. */
  function AbandonEach<S>(reg: Registry<S>, t: Tables, ids: seq<MatchId>, cutoff: int, now: int): (seq<(MatchId, StoredEvent)>, Option<Error>, Tables) {
    if ids == [] then ([], None, t)
    else
      var (events, error, before) := AbandonEach(reg, t, ids[..|ids| - 1], cutoff, now);
      if error.Some? then (events, error, before)
      else
        var id := ids[|ids| - 1];
        match AbandonIfExpired(reg, before, id, cutoff, now)
        case (Err(e), after) => (events, Some(e), after)
        case (Ok(None), after) => (events, None, after)
        case (Ok(Some(event)), after) => (events + [(id, event)], None, after)
  }

  function Due(t: Tables, cutoff: int): set<MatchId> {
    set id | id in t.matches && Expired(t.matches[id], cutoff)
  }

  function AbandonExpired<S>(reg: Registry<S>, t: Tables, now: int): (seq<(MatchId, StoredEvent)>, Option<Error>, Tables) {
    var cutoff := now - FULLY_OFFLINE_ABANDON_AFTER;
    AbandonEach(reg, t, Sorted(Due(t, cutoff)), cutoff, now)
  }

  // --------------------------------------------------------------------------- presence

  function SetPresence(t: Tables, id: MatchId, user: UserId, online: bool, now: int): (Result<(), Error>, Tables) {
    match Load(t, id)
    case Err(e) => (Err(e), t)
    case Ok(f) =>
      if !Member(f.players, user) then (Err(InvalidRequest), t)
      else if f.m.status != Active then (Ok(()), t)
      else
        var row := t.matches[id];
        var since := if online then None else if row.offlineSince.Some? then row.offlineSince else Some(now);
        (Ok(()), t.(matches := t.matches[id := row.(offlineSince := since)]))
  }

  /** Recovery at start-up: every active match without a timer gets one. */
  function MarkOffline(t: Tables, now: int): Tables {
    t.(matches := map id | id in t.matches ::
         if t.matches[id].m.status == Active && t.matches[id].offlineSince.None?
         then t.matches[id].(offlineSince := Some(now)) else t.matches[id])
  }

  // ------------------------------------------------------------------------- credentials

  const LAUNCH_TICKET_LIFETIME := 60 * 1000
  const RESUME_TOKEN_LIFETIME := 30 * 60 * 1000

  /** The first of the drawn hashes that is not taken. */
  function FirstFree(taken: set<Hash>, candidates: seq<Hash>): Option<Hash> {
    if candidates == [] then None
    else if candidates[0] !in taken then Some(candidates[0]) else FirstFree(taken, candidates[1..])
  }

  function CreateTicket<S>(reg: Registry<S>, t: Tables, id: MatchId, user: UserId, candidates: seq<Hash>, now: int): (Result<Hash, Error>, Tables) {
    match Load(t, id)
    case Err(e) => (Err(e), t)
    case Ok(f) =>
      if f.m.status != Active || !Member(f.players, user) then (Err(NotFound), t)
      else match RebuildSnapshot(reg, t, id, f)
        case Err(e) => (Err(e), t)
        case Ok(_) =>
          match FirstFree(t.tickets.Keys, candidates)
          case None => (Err(Internal), t)
          case Some(hash) =>
            var inserted := t.tickets[hash := Ticket(id, user, f.m.game, now + LAUNCH_TICKET_LIFETIME, None)];
            (Ok(hash), t.(tickets := map h | h in inserted
               && (h == hash || !(inserted[h].matchId == id && inserted[h].user == user && inserted[h].game == f.m.game)) :: inserted[h]))
  }

  datatype Credential = LaunchTicket(hash: Hash) | ResumeToken(hash: Hash)

  /** Which match and user an unexpired credential is for. */
  function Presented(t: Tables, c: Credential, now: int): Option<(MatchId, UserId)> {
    match c
    case LaunchTicket(h) =>
      if h !in t.tickets || t.tickets[h].consumed.Some? || t.tickets[h].expires <= now then None
      else Some((t.tickets[h].matchId, t.tickets[h].user))
    case ResumeToken(h) =>
      if h !in t.tokens || t.tokens[h].revoked || t.tokens[h].expires <= now || t.tokens[h].lastUsed > t.tokens[h].expires then None
      else Some((t.tokens[h].matchId, t.tokens[h].user))
  }

  /** An issued token replaces every other token of the same player in the same match. */
  function Superseded(tokens: map<Hash, Token>, issued: Hash, id: MatchId, user: UserId): map<Hash, Token> {
    map k | k in tokens && (k == issued || !(tokens[k].matchId == id && tokens[k].user == user)) :: tokens[k]
  }

  /** The connection's identity: its match, its resume token and its session. */
  datatype Identity = Identity(matchId: MatchId, token: Hash, session: Session)

  function Connect<S>(reg: Registry<S>, t: Tables, c: Credential, candidates: seq<Hash>, now: int): (r: (Result<Identity, Error>, Tables))
    ensures r.1 == t.(tickets := r.1.tickets, tokens := r.1.tokens)
  {
    var failure := if c.LaunchTicket? then TicketInvalid else ResumeExpired;
    match Presented(t, c, now)
    case None => (Err(failure), t)
    case Some((id, user)) =>
      match Load(t, id)
      case Err(e) => (Err(if e == NotFound then failure else e), t)
      case Ok(f) =>
        if f.m.status != Active || !Member(f.players, user) || (c.LaunchTicket? && c.hash in t.tickets && t.tickets[c.hash].game != f.m.game)
           || !Enabled(t, user)
        then (Err(failure), t)
        else match RebuildSnapshot(reg, t, id, f)
          case Err(e) => (Err(e), t)
          case Ok(_) =>
            match c
            case ResumeToken(h) =>
              (Ok(Identity(id, h, Session(user, t.users[user].epoch))), if h in t.tokens then
                t.(tokens := t.tokens[h := t.tokens[h].(lastUsed := now, expires := now + RESUME_TOKEN_LIFETIME)]) else t)
            case LaunchTicket(h) =>
              match FirstFree(t.tokens.Keys, candidates)
              case None => (Err(Internal), t)
              case Some(issued) =>
                var inserted := t.tokens[issued := Token(id, user, now + RESUME_TOKEN_LIFETIME, now, false)];
                (Ok(Identity(id, issued, Session(user, t.users[user].epoch))),
                 t.(tickets := if h in t.tickets then t.tickets[h := t.tickets[h].(consumed := Some(now))] else t.tickets,
                    tokens := Superseded(inserted, issued, id, user)))
  }

  /** What moving an account to another device does to these tables: its sessions and tokens are
      revoked and its tickets are gone. */
  function Transfer(t: Tables, user: UserId, epoch: nat): Tables {
    t.(users := if user in t.users then t.users[user := t.users[user].(epoch := epoch)] else t.users,
       tickets := map h | h in t.tickets && t.tickets[h].user != user :: t.tickets[h],
       tokens := map h | h in t.tokens :: if t.tokens[h].user == user then t.tokens[h].(revoked := true) else t.tokens[h])
  }
}
