/** The match service itself (server/internal/matches/service.go): its tables as fields, each
    transaction as a method that works on a copy and commits it whole. Every method is proved
    to answer, and to leave the tables, exactly as the functions of MatchTables say. */
module MatchService {
  import opened Common
  import opened MatchModel
  import opened MatchTables
  import Rps

  // ------------------------------------------------------------------ reading one match

  lemma {:induction false} ScanStaysFailed(g: GameId, players: seq<Player>, events: seq<StoredEvent>, k: nat, n: nat)
    requires TwoPlayers(players) && k <= n <= |events| && ScanTo(g, players, events, k).None?
    ensures ScanTo(g, players, events, n).None?
  {
    hide ScanRow;
    if k < n {
      ScanStaysFailed(g, players, events, k, n - 1);
    }
  }

  /** One pass over the stored rows, collecting the accepted steps and the terminal row. */
  method ScanEvents(g: GameId, players: seq<Player>, events: seq<StoredEvent>) returns (result: Option<Scan>)
    requires TwoPlayers(players)
    ensures result == ScanTo(g, players, events, |events|)
  {
    hide RowFits, ColorOf, Member, OpponentOf, ResignationBelongs;
    var accepted: GameEvents := [];
    var terminal := NoTerminal;
    for index := 0 to |events|
      invariant ScanTo(g, players, events, index) == Some(Scan(accepted, terminal))
    {
      var event := events[index];
      var last := index == |events| - 1;
      var fits := event.revision == index + 1;
      if fits {
        match event.kind
        case Accepted(p) =>
          fits := terminal == NoTerminal && event.actionId.Some? && event.actor.Some? && Member(players, event.actor.value)
            && RowFits(g, p, event.actor.value, ColorOf(players, event.actor.value), |accepted|);
          if fits {
            accepted := accepted + [GameEvent(event.revision, event.actor.value, p)];
          }
        case Resigned(of, user, winner) =>
          fits := last && ResignationBelongs(g, of) && event.actionId.Some? && event.actor.Some? && Member(players, event.actor.value)
            && user == event.actor.value && winner == OpponentOf(players, event.actor.value);
          if fits {
            terminal := ResignedType(of);
          }
        case MatchCancelled =>
          fits := last && |accepted| == 0 && event.actionId.None? && event.actor.Some? && Member(players, event.actor.value);
          if fits {
            terminal := CancelledType;
          }
        case MatchAbandoned =>
          fits := last && event.actionId.None? && event.actor.None?;
          if fits {
            terminal := AbandonedType;
          }
      }
      if !fits {
        ScanStaysFailed(g, players, events, index + 1, |events|);
        return None;
      }
    }
    return Some(Scan(accepted, terminal));
  }

  lemma PairOfSlots(f: File)
    requires TwoPlayers(f.players)
    ensures |ExpectedSlots(f, true)| == 2
  {
    assert (f.m.game, f.players[0].user) != (f.m.game, f.players[1].user);
  }

  /** Ticks off each stored slot row against the two expected players. */
  method ValidateCompleteActiveSlotSet(rows: set<(GameId, UserId)>, f: File, single: bool) returns (complete: bool)
    requires TwoPlayers(f.players)
    ensures complete == (rows == ExpectedSlots(f, single))
  {
    if !single {
      return rows == {};
    }
    PairOfSlots(f);
    if |rows| != 2 {
      return false;
    }
    var first, second := (f.m.game, f.players[0].user), (f.m.game, f.players[1].user);
    var seenFirst, seenSecond := false, false;
    var rest := rows;
    while rest != {}
      invariant rest <= rows
      invariant forall k :: k in rows && k !in rest ==> k == first || k == second
      invariant seenFirst <==> first in rows && first !in rest
      invariant seenSecond <==> second in rows && second !in rest
      decreases |rest|
    {
      var slot :| slot in rest;
      if slot.0 != f.m.game || (slot.1 != f.players[0].user && slot.1 != f.players[1].user) {
        assert slot !in ExpectedSlots(f, true);
        return false;
      }
      rest := rest - {slot};
      if slot.1 == f.players[0].user {
        seenFirst := true;
      } else {
        seenSecond := true;
      }
    }
    return seenFirst && seenSecond;
  }

  /** `readActionEvent`: the first row with this actor and action identifier. */
  method ReadActionEvent(events: seq<StoredEvent>, actor: UserId, actionId: ActionId) returns (found: Option<StoredEvent>)
    ensures found == FindAction(events, actor, actionId)
  {
    for i := 0 to |events|
      invariant FindAction(events, actor, actionId) == FindAction(events[i..], actor, actionId)
    {
      assert events[i..][0] == events[i] && events[i..][1..] == events[i + 1..];
      if events[i].actor == Some(actor) && events[i].actionId == Some(actionId) {
        return Some(events[i]);
      }
    }
    return None;
  }

  /** Draws until a hash is free; the caller supplies at most as many draws as it retries. */
  method DrawHash(taken: set<Hash>, candidates: seq<Hash>) returns (hash: Option<Hash>)
    ensures hash == FirstFree(taken, candidates)
  {
    for i := 0 to |candidates|
      invariant FirstFree(taken, candidates) == FirstFree(taken, candidates[i..])
    {
      assert candidates[i..][0] == candidates[i] && candidates[i..][1..] == candidates[i + 1..];
      if candidates[i] !in taken {
        return Some(candidates[i]);
      }
    }
    return None;
  }

  // ------------------------------------------------------------------------ the service

  class Service<S(!new)> {
    const games: Registry<S>
    var users: map<UserId, User>
    var matches: map<MatchId, Row>
    var players: map<MatchId, seq<Player>>
    var events: map<MatchId, seq<StoredEvent>>
    var slots: map<(GameId, UserId), MatchId>
    var limits: map<MatchId, LimitRow>
    var tickets: map<Hash, Ticket>
    var tokens: map<Hash, Token>

    function Rows(): Tables
      reads this
    {
      Tables(users, matches, players, events, slots, limits, tickets, tokens)
    }

    constructor (registry: Registry<S>, accounts: map<UserId, User>)
      ensures games == registry && Rows() == Tables(accounts, map[], map[], map[], map[], map[], map[], map[])
    {
      games := registry;
      users := accounts;
      matches, players, events, slots, limits, tickets, tokens := map[], map[], map[], map[], map[], map[], map[];
    }

    method Commit(tx: Tables)
      modifies this
      ensures Rows() == tx
    {
      users, matches, players, events := tx.users, tx.matches, tx.players, tx.events;
      slots, limits, tickets, tokens := tx.slots, tx.limits, tx.tickets, tx.tokens;
    }

    // ---------------------------------------------------------------------- reading

    method LoadMatchAndPlayers(id: MatchId) returns (r: Result<File, Error>)
      ensures r == Load(Rows(), id)
    {
      if id !in matches {
        return Err(NotFound);
      }
      var f := File(matches[id].m, Selected(players, id), Selected(events, id));
      if f.m.revision < 0 || f.m.createdAt > f.m.updatedAt || !TwoPlayers(f.players) {
        return Err(Internal);
      }
      return Ok(f);
    }

    /** `rebuildSnapshot`: replays the log and cross-checks row, seats, lifecycle and slots. */
    method Rebuild(id: MatchId, f: File) returns (r: Result<Snapshot<S>, Error>)
      requires TwoPlayers(f.players)
      ensures r == RebuildSnapshot(games, Rows(), id, f)
    {
      hide ScanTo, SummaryFits, LifecycleFits, ResultBelongs;
      var configured := games.configured(f.m.game, f.m.config);
      if configured.None? || f.m.revision != |f.events| || |f.events| > MaximumMatchEventsFor(f.m.game) {
        return Err(Internal);
      }
      var scan := ScanEvents(f.m.game, f.players, f.events);
      if scan.None? {
        return Err(Internal);
      }
      var rebuilt := configured.value.rebuild(scan.value.accepted);
      if rebuilt.Err? || rebuilt.value.revision != |scan.value.accepted| {
        return Err(Internal);
      }
      var summary := configured.value.summary(rebuilt.value.state);
      if !SummaryFits(f.m.game, summary, |scan.value.accepted|, f.players)
         || !LifecycleFits(f.m, summary, scan.value.terminal, f.players, f.events)
         || (f.m.result.Some? && !ResultBelongs(f.m.game, f.m.result.value)) {
        return Err(Internal);
      }
      var complete := ValidateCompleteActiveSlotSet(SlotsOf(Rows(), id), f, f.m.status == Active && games.single(f.m.game));
      if !complete {
        return Err(Internal);
      }
      return Ok(Snapshot(f.m, f.players, rebuilt.value));
    }

    // --------------------------------------------------------------------- creating

    method Create(game: GameId, initiator: UserId, opponent: UserId, config: Option<Rps.Format>, initiatorColor: Color, id: MatchId, now: int)
      returns (r: Result<Match, Error>)
      modifies this
      ensures (r, Rows()) == CreateMatch(games, old(Rows()), game, initiator, opponent, config, initiatorColor, id, now)
    {
      if initiator == opponent || games.configured(game, config).None? || !Enabled(Rows(), initiator) || !Enabled(Rows(), opponent) {
        return Err(InvalidRequest);
      }
      if id in matches || id in players || id in events {
        return Err(Internal);
      }
      var tx := Rows();
      var m := Match(game, config, Active, 0, None, None, now, now, None);
      tx := tx.(matches := tx.matches[id := Row(m, None)]);
      tx := tx.(players := tx.players[id := [Player(initiator, initiatorColor), Player(opponent, initiatorColor.Opposite())]]);
      if games.single(game) {
        if (game, initiator) in tx.slots {
          return Err(ActiveMatchExists);
        }
        tx := tx.(slots := tx.slots[(game, initiator) := id]);
        if (game, opponent) in tx.slots {
          return Err(OpponentBusy);
        }
        tx := tx.(slots := tx.slots[(game, opponent) := id]);
      }
      Commit(tx);
      return Ok(m);
    }

    // ---------------------------------------------------------------------- acting

    method FindEarlierEvent(f: File, request: Request) returns (r: Result<Option<StoredEvent>, Error>)
      requires TwoPlayers(f.players)
      ensures r == EarlierEvent(Rows(), request.matchId, f, request)
    {
      hide FindAction, CommittedMatches;
      var found := ReadActionEvent(f.events, request.actor, request.actionId);
      if found.Some? {
        var same := CommittedMatches(found.value, request.actor, request.action, f.players);
        if same.Err? {
          return Err(same.error);
        }
        return if same.value then Ok(found) else Err(ActionConflict);
      }
      if !f.m.game.FlightGame? || f.m.status != Abandoned {
        return Ok(None);
      }
      r := ReadFlightChessLimitAction(f, request);
    }

    method ReadFlightChessLimitAction(f: File, request: Request) returns (r: Result<Option<StoredEvent>, Error>)
      requires TwoPlayers(f.players)
      ensures r == LimitEvent(Rows(), request.matchId, f, request)
    {
      if request.matchId !in limits {
        return Ok(None);
      }
      var row := limits[request.matchId];
      if row.actor != request.actor || row.actionId != request.actionId || row.revision < 1 || row.revision > |f.events| {
        return Ok(None);
      }
      var event := f.events[row.revision - 1];
      if !event.kind.MatchAbandoned? || event.revision != MAXIMUM_FLIGHT_CHESS_EVENTS || event.actionId.Some? || event.actor.Some? {
        return Err(Internal);
      }
      if row.action != request.action {
        return Err(ActionConflict);
      }
      if !Member(f.players, request.actor) {
        return Err(Internal);
      }
      return Ok(Some(event));
    }

    /** The writes of one decision, statement by statement, then the commit. */
    method WriteDecision(f: File, d: Decision<S>, request: Request, now: int) returns (r: Result<(StoredEvent, Snapshot<S>), Error>)
      requires request.matchId in matches && TwoPlayers(f.players) && f.m.status == Active
      requires f == FileOf(Rows(), request.matchId)
      requires d.ending.Some? ==> d.ending.value.status != Active
      modifies this
      ensures (r, Rows()) == Write(games, old(Rows()), request.matchId, f, d, request, now)
    {
      hide SlotsOf, Selected;
      var id, system, next := request.matchId, d.kind.MatchAbandoned?, f.m.revision + 1;
      if d.ending.Some? {
        var complete := ValidateCompleteActiveSlotSet(SlotsOf(Rows(), id), f, games.single(f.m.game));
        if !complete {
          return Err(Internal);
        }
      }
      var tx := Rows();
      var event := StoredEvent(next, d.kind, if system then None else Some(request.actionId), if system then None else Some(request.actor), now);
      tx := tx.(events := tx.events[id := f.events + [event]]);
      if system {
        if id in tx.limits {
          return Err(Internal);
        }
        tx := tx.(limits := tx.limits[id := LimitRow(next, request.actor, request.actionId, request.action)]);
      }
      var m := f.m.(revision := next, updatedAt := now);
      if d.ending.Some? {
        var ending := d.ending.value;
        m := m.(status := ending.status, finishedAt := Some(now), result := ending.result, winner := ending.winner);
        tx := tx.(matches := tx.matches[id := Row(m, None)]);
        tx := tx.(slots := WithoutSlots(tx, id, f));
        tx := DeleteMatchCredentials(tx, id);
      } else {
        tx := tx.(matches := tx.matches[id := Row(m, tx.matches[id].offlineSince)]);
      }
      Commit(tx);
      return Ok((event, Snapshot(m, f.players, d.game)));
    }

    function DeleteMatchCredentials(tx: Tables, id: MatchId): Tables {
      tx.(tickets := map h | h in tx.tickets && tx.tickets[h].matchId != id :: tx.tickets[h],
          tokens := map h | h in tx.tokens && tx.tokens[h].matchId != id :: tx.tokens[h])
    }

    /** Validates, decides, writes and commits one action; a repeat only reads. */
    method ApplyAction(request: Request, die: int, now: int) returns (r: Result<(StoredEvent, Snapshot<S>), Error>)
      modifies this
      ensures (r, Rows()) == Act(games, old(Rows()), request, die, now)
    {
      hide WellFormed, GameOf, EarlierEvent, RebuildSnapshot, Fresh;
      if request.expectedRevision < 0 || !WellFormed(request.action) {
        return Err(InvalidRequest);
      }
      if request.session.Some? && !ValidSession(Rows(), request.session.value) {
        return Err(ResumeExpired);
      }
      var loaded := LoadMatchAndPlayers(request.matchId);
      if loaded.Err? {
        return Err(loaded.error);
      }
      var f := loaded.value;
      if GameOf(request.action) != f.m.game {
        return Err(InvalidRequest);
      }
      var configured := games.configured(f.m.game, f.m.config);
      if configured.None? {
        return Err(Internal);
      }
      var earlier := FindEarlierEvent(f, request);
      if earlier.Err? {
        return Err(earlier.error);
      }
      if earlier.value.Some? {
        var snapshot := Rebuild(request.matchId, f);
        if snapshot.Err? {
          return Err(snapshot.error);
        }
        return Ok((earlier.value.value, snapshot.value));
      }
      r := ApplyFresh(configured.value, f, request, die, now);
    }

    method ApplyFresh(rules: Rules<S>, f: File, request: Request, die: int, now: int) returns (r: Result<(StoredEvent, Snapshot<S>), Error>)
      requires TwoPlayers(f.players) && request.matchId in matches && f == FileOf(Rows(), request.matchId)
      modifies this
      ensures (r, Rows()) == Fresh(games, rules, old(Rows()), f, request, die, now)
    {
      hide Decide, RebuildSnapshot, Write, AcceptsPreviousRevision;
      if f.m.status != Active || !Member(f.players, request.actor) {
        return Err(InvalidRequest);
      }
      if request.expectedRevision != f.m.revision
         && !AcceptsPreviousRevision(f, request.actor, request.action, request.expectedRevision) {
        return Err(StaleRevision);
      }
      var current := Rebuild(request.matchId, f);
      if current.Err? {
        return Err(current.error);
      }
      var decided := Decide(rules, f, current.value.game, request.actor, request.action, die);
      if decided.Err? {
        return Err(decided.error);
      }
      EndingIsOver(rules, f, current.value.game, request.actor, request.action, die);
      r := WriteDecision(f, decided.value, request, now);
    }

    static lemma EndingIsOver(rules: Rules<S>, f: File, current: GameSnapshot<S>, actor: UserId, action: Action, die: int)
      requires TwoPlayers(f.players) && Member(f.players, actor) && Decide(rules, f, current, actor, action, die).Ok?
      ensures var d := Decide(rules, f, current, actor, action, die).value; d.ending.Some? ==> d.ending.value.status != Active
    {
      hide Produced, EndingFits, OnTurn, HasRoom, SafeError, SeatOf;
    }

    // --------------------------------------------------------- cancelling and abandoning

    /** Ends an active match with one row; the slots must be complete. */
    method End(id: MatchId, f: File, kind: EventKind, actor: Option<UserId>, status: Status, offlineSince: Option<int>, now: int) returns (event: StoredEvent)
      requires id in matches && |f.players| == 2 && status != Active
      modifies this
      ensures var g := Extended(f, kind, None, actor, Some(Ending(status, None, None)), now);
        event == g.events[|f.events|] && Rows() == Committed(old(Rows()), id, f, g, offlineSince)
    {
      var next := f.m.revision + 1;
      event := StoredEvent(next, kind, None, actor, now);
      var tx := Rows();
      tx := tx.(events := tx.events[id := f.events + [event]]);
      var m := f.m.(status := status, revision := next, updatedAt := now, finishedAt := Some(now), winner := None, result := None);
      tx := tx.(matches := tx.matches[id := Row(m, offlineSince)]);
      tx := tx.(slots := WithoutSlots(tx, id, f));
      tx := DeleteMatchCredentials(tx, id);
      Commit(tx);
    }

    method CancelMatch(id: MatchId, actor: UserId, now: int) returns (r: Result<StoredEvent, Error>)
      modifies this
      ensures (r, Rows()) == Cancel(games, old(Rows()), id, actor, now)
    {
      hide Committed, SlotsOf, Selected;
      if id !in matches {
        return Err(NotFound);
      }
      var f := FileOf(Rows(), id);
      if |f.players| != 2 || f.players[0].user == f.players[1].user {
        return Err(Internal);
      }
      if !Member(f.players, actor) || f.m.status != Active || HasGameplay(f.events) {
        return Err(NotCancellable);
      }
      if !TwoPlayers(f.players) {
        return Err(Internal);
      }
      var complete := ValidateCompleteActiveSlotSet(SlotsOf(Rows(), id), f, games.single(f.m.game));
      if !complete {
        return Err(Internal);
      }
      var event := End(id, f, MatchCancelled, Some(actor), Cancelled, matches[id].offlineSince, now);
      return Ok(event);
    }

    method AbandonOne(id: MatchId, cutoff: int, now: int) returns (r: Result<Option<StoredEvent>, Error>)
      modifies this
      ensures (r, Rows()) == AbandonIfExpired(games, old(Rows()), id, cutoff, now)
    {
      hide Committed, RebuildSnapshot;
      var loaded := LoadMatchAndPlayers(id);
      if loaded.Err? {
        return if loaded.error == NotFound then Ok(None) else Err(loaded.error);
      }
      var f := loaded.value;
      if !Expired(matches[id], cutoff) {
        return Ok(None);
      }
      var snapshot := Rebuild(id, f);
      if snapshot.Err? {
        return Err(snapshot.error);
      }
      var event := End(id, f, MatchAbandoned, None, Abandoned, None, now);
      return Ok(Some(event));
    }

    /** One transaction per due match, in identifier order, until one fails. */
    method AbandonExpiredMatches(now: int) returns (committed: seq<(MatchId, StoredEvent)>, error: Option<Error>)
      modifies this
      ensures (committed, error, Rows()) == AbandonExpired(games, old(Rows()), now)
    {
      hide AbandonIfExpired;
      var cutoff := now - FULLY_OFFLINE_ABANDON_AFTER;
      var ids := Sorted(Due(Rows(), cutoff));
      committed, error := [], None;
      for i := 0 to |ids|
        invariant error.None?
        invariant (committed, error, Rows()) == AbandonEach(games, old(Rows()), ids[..i], cutoff, now)
      {
        assert ids[..i + 1][..i] == ids[..i];
        var r := AbandonOne(ids[i], cutoff, now);
        if r.Err? {
          ghost var stopped := Rows();
          AbandonStops(games, old(Rows()), ids, i + 1, cutoff, now);
          return committed, Some(r.error);
        }
        if r.value.Some? {
          committed := committed + [(ids[i], r.value.value)];
        }
      }
      assert ids[..|ids|] == ids;
    }

    static lemma {:induction false} AbandonStops(reg: Registry<S>, t: Tables, ids: seq<MatchId>, k: nat, cutoff: int, now: int)
      requires k <= |ids| && AbandonEach(reg, t, ids[..k], cutoff, now).1.Some?
      ensures AbandonEach(reg, t, ids, cutoff, now) == AbandonEach(reg, t, ids[..k], cutoff, now)
    {
      hide AbandonIfExpired;
      if k == |ids| {
        assert ids[..k] == ids;
      } else {
        assert ids[..|ids| - 1][..k] == ids[..k];
        AbandonStops(reg, t, ids[..|ids| - 1], k, cutoff, now);
      }
    }

    // ------------------------------------------------------------------------ presence

    method SetPlayerPresence(id: MatchId, user: UserId, online: bool, now: int) returns (r: Result<(), Error>)
      modifies this
      ensures (r, Rows()) == SetPresence(old(Rows()), id, user, online, now)
    {
      hide Selected;
      var loaded := LoadMatchAndPlayers(id);
      if loaded.Err? {
        return Err(loaded.error);
      }
      if !Member(loaded.value.players, user) {
        return Err(InvalidRequest);
      }
      if loaded.value.m.status != Active {
        return Ok(());
      }
      if online {
        matches := matches[id := matches[id].(offlineSince := None)];
      } else if matches[id].offlineSince.None? {
        matches := matches[id := matches[id].(offlineSince := Some(now))];
      } else {
        matches := matches[id := matches[id]];
      }
      return Ok(());
    }

    /** Start-up recovery, row by row. */
    method MarkActiveMatchesOfflineOnBoot(now: int)
      modifies this
      ensures Rows() == MarkOffline(old(Rows()), now)
    {
      var rest := matches.Keys;
      while rest != {}
        invariant rest <= matches.Keys == old(matches).Keys
        invariant Rows() == old(Rows()).(matches := matches)
        invariant forall id :: id in matches ==>
          matches[id] == if id in rest then old(matches)[id] else MarkOffline(old(Rows()), now).matches[id]
        decreases |rest|
      {
        var id :| id in rest;
        rest := rest - {id};
        if matches[id].m.status == Active && matches[id].offlineSince.None? {
          matches := matches[id := matches[id].(offlineSince := Some(now))];
        }
      }
      assert matches == MarkOffline(old(Rows()), now).matches;
    }

    // ---------------------------------------------------------------------- credentials

    method CreateLaunchTicket(id: MatchId, user: UserId, candidates: seq<Hash>, now: int) returns (r: Result<Hash, Error>)
      modifies this
      ensures (r, Rows()) == CreateTicket(games, old(Rows()), id, user, candidates, now)
    {
      hide RebuildSnapshot, FirstFree;
      var loaded := LoadMatchAndPlayers(id);
      if loaded.Err? {
        return Err(loaded.error);
      }
      var f := loaded.value;
      if f.m.status != Active || !Member(f.players, user) {
        return Err(NotFound);
      }
      var snapshot := Rebuild(id, f);
      if snapshot.Err? {
        return Err(snapshot.error);
      }
      var drawn := DrawHash(tickets.Keys, candidates);
      if drawn.None? {
        return Err(Internal);
      }
      var hash, game := drawn.value, f.m.game;
      tickets := tickets[hash := Ticket(id, user, game, now + LAUNCH_TICKET_LIFETIME, None)];
      tickets := map h | h in tickets
        && (h == hash || !(tickets[h].matchId == id && tickets[h].user == user && tickets[h].game == game)) :: tickets[h];
      return Ok(hash);
    }

    method ConnectCredential(c: Credential, candidates: seq<Hash>, now: int) returns (r: Result<Identity, Error>)
      modifies this
      ensures (r, Rows()) == Connect(games, old(Rows()), c, candidates, now)
    {
      hide RebuildSnapshot, FirstFree, Load;
      var failure := if c.LaunchTicket? then TicketInvalid else ResumeExpired;
      var presented := Presented(Rows(), c, now);
      if presented.None? {
        return Err(failure);
      }
      var (id, user) := presented.value;
      var loaded := LoadMatchAndPlayers(id);
      if loaded.Err? {
        return Err(if loaded.error == NotFound then failure else loaded.error);
      }
      var f := loaded.value;
      if f.m.status != Active || !Member(f.players, user) || (c.LaunchTicket? && tickets[c.hash].game != f.m.game)
         || !Enabled(Rows(), user) {
        return Err(failure);
      }
      var snapshot := Rebuild(id, f);
      if snapshot.Err? {
        return Err(snapshot.error);
      }
      if c.ResumeToken? {
        tokens := tokens[c.hash := tokens[c.hash].(lastUsed := now, expires := now + RESUME_TOKEN_LIFETIME)];
        return Ok(Identity(id, c.hash, Session(user, users[user].epoch)));
      }
      var drawn := DrawHash(tokens.Keys, candidates);
      if drawn.None? {
        return Err(Internal);
      }
      var issued := drawn.value;
      tickets := tickets[c.hash := tickets[c.hash].(consumed := Some(now))];
      tokens := tokens[issued := Token(id, user, now + RESUME_TOKEN_LIFETIME, now, false)];
      tokens := map k | k in tokens && (k == issued || !(tokens[k].matchId == id && tokens[k].user == user)) :: tokens[k];
      return Ok(Identity(id, issued, Session(user, users[user].epoch)));
    }
  }
}
