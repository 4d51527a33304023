/** What the match service answers, stated without its defensive checks: which requests it grants in the
    tables that any run leaves, and what they change. */
module MatchOutcomes {
  import opened Common
  import opened MatchModel
  import opened MatchTables
  import opened MatchFiles
  import opened MatchProofs
  import opened MatchRuns
  import opened MatchClock
  import opened MatchLaws
  import MatchExpiry
  import Rps

  // ---------------------------------------------------------------------------- acting

  /** Chinese checkers keeps its 226th event for a resignation, rock-paper-scissors its last two. */
  predicate RoomFor(game: GameId, events: int) {
    (game == CheckersGame ==> events < 225) && (game == RpsGame ==> events < 224)
  }

  /** It is this colour's turn; in rock-paper-scissors it is everybody's. */
  predicate ToMove(game: GameId, s: Summary, c: Color) {
    game != RpsGame ==> s.next == Some(c)
  }

  /** The service grants the action: a resignation once something has been played, anything else in turn,
      while there is room, if the game's own rules accept it. */
  ghost predicate Grants<S>(rules: Rules<S>, f: File, current: GameSnapshot<S>, r: Request, die: int)
    requires TwoPlayers(f.players) && Member(f.players, r.actor)
  {
    if r.action.Resign? then f.events != []
    else
      && RoomFor(f.m.game, |f.events|) && ToMove(f.m.game, rules.summary(current.state), ColorOf(f.players, r.actor))
      && rules.apply(current, r.actor, r.action, die).Ok?
  }

  /** Why it does not: nothing to resign yet or no room is an invalid request, a move out of turn is named,
      and so is what the rules object to, unless it is an action they do not know or the game is over. */
  ghost function Objection<S>(rules: Rules<S>, f: File, current: GameSnapshot<S>, r: Request, die: int): Error
    requires TwoPlayers(f.players) && Member(f.players, r.actor) && !Grants(rules, f, current, r, die)
  {
    if r.action.Resign? || !RoomFor(f.m.game, |f.events|) then InvalidRequest
    else if !ToMove(f.m.game, rules.summary(current.state), ColorOf(f.players, r.actor)) then Rule(NotYourTurn)
    else
      var e := rules.apply(current, r.actor, r.action, die).error;
      if e == InvalidAction || e == MatchFinished then InvalidRequest else Rule(e)
  }

  /** How the match stands afterwards: resigned, decided as the game's rules decide it, abandoned at the
      512th event of a flight-chess match that is not decided, or still on. */
  ghost predicate Leaves<S>(rules: Rules<S>, f: File, current: GameSnapshot<S>, r: Request, die: int, g: File)
    requires TwoPlayers(f.players) && Member(f.players, r.actor) && (!r.action.Resign? ==> rules.apply(current, r.actor, r.action, die).Ok?)
  {
    && |g.events| == |f.events| + 1
    && var e := g.events[|f.events|];
       if r.action.Resign? then
         e.kind.Resigned? && g.m.status == Finished && g.m.result == Some(Resignation) && g.m.winner == Some(OpponentOf(f.players, r.actor))
       else
         var a := rules.apply(current, r.actor, r.action, die).value;
         var s := rules.summary(a.next.state);
         if s.active && f.m.game == FlightGame && |g.events| == 512 then
           e.kind == MatchAbandoned && g.m.status == Abandoned && g.m.result == None && g.m.winner == None
         else
           && e.kind == Accepted(a.event.payload)
           && (if s.active then g.m.status == Active && g.m.result == None && g.m.winner == None
               else g.m.status == Finished && g.m.result == s.result && g.m.winner == s.winner)
  }

  lemma DecidesAsGranted<S(!new)>(reg: Registry<S>, f: File, r: Request, die: int)
    requires Lawful(reg) && Good(reg, f) && f.m.status == Active && Member(f.players, r.actor)
    requires GameOf(r.action) == f.m.game && WellFormed(r.action) && 1 <= die <= 6
    ensures var rules, current := RulesOf(reg, f), Replay(reg, f).value;
      && (Decide(rules, f, current, r.actor, r.action, die).Ok? <==> Grants(rules, f, current, r, die))
      && (!Grants(rules, f, current, r, die) ==> Decide(rules, f, current, r.actor, r.action, die) == Err(Objection(rules, f, current, r, die)))
  {
    ActiveFile(reg, f);
    var rules, current := RulesOf(reg, f), Replay(reg, f).value;
    DecisionIsGood(reg, f, r.actionId, r.actor, r.action, die, 0);
    TurnsAgree(f.m.game, rules.summary(current.state), |f.events|, f.players, ColorOf(f.players, r.actor));
    hide Lawful, LawfulRules, Good, Replay, SummaryFits, WellFormed, Produced, EndingFits, SeatOf, OnTurn, ToMove, ScanTo, MaximumMatchEventsFor;
  }

  lemma TurnsAgree(g: GameId, s: Summary, n: nat, players: seq<Player>, c: Color)
    requires TwoPlayers(players) && SummaryFits(g, s, n, players)
    ensures OnTurn(g, s, n, c) <==> ToMove(g, s, c)
  {
    hide UserOf;
    assert g.CheckersGame? && n == 0 ==> s.next == Some(Parity(n));
  }

  lemma DecisionLeaves<S(!new)>(rules: Rules<S>, f: File, current: GameSnapshot<S>, r: Request, die: int, now: int)
    requires TwoPlayers(f.players) && Member(f.players, r.actor) && f.m.status == Active && f.m.revision == |f.events|
    requires f.m.result.None? && f.m.winner.None? && GameOf(r.action) == f.m.game
    requires Decide(rules, f, current, r.actor, r.action, die).Ok?
    ensures !r.action.Resign? ==> rules.apply(current, r.actor, r.action, die).Ok?
    ensures var e := Decide(rules, f, current, r.actor, r.action, die).value.ending; e.Some? ==> e.value.status != Active
    ensures var d := Decide(rules, f, current, r.actor, r.action, die).value;
      var system := d.kind.MatchAbandoned?;
      Leaves(rules, f, current, r, die,
             Extended(f, d.kind, if system then None else Some(r.actionId), if system then None else Some(r.actor), d.ending, now))
  {
    hide Produced, EndingFits, SeatOf, OnTurn, HasRoom, SafeError;
  }

  /** A timely new action of a player of an active, readable match, of the match's game and over a session
      that holds, is answered with success if and only if it is granted, and leaves what was decided. */
  lemma AnsweredExactlyIfGranted<S(!new)>(reg: Registry<S>, t: Tables, r: Request, die: int, now: int)
    requires Lawful(reg) && Sound(reg, t) && 1 <= die <= 6 && r.matchId in t.matches
    requires var f := FileOf(t, r.matchId);
      && Loads(f) && f.m.status == Active && Member(f.players, r.actor) && GameOf(r.action) == f.m.game
      && r.expectedRevision >= 0 && WellFormed(r.action) && SessionHolds(t, r) && Timely(f.m.game, f.events, r)
      && forall i :: 0 <= i < |f.events| ==> f.events[i].actor != Some(r.actor) || f.events[i].actionId != Some(r.actionId)
    ensures var f := FileOf(t, r.matchId);
      Good(reg, f) && TwoPlayers(f.players) && reg.configured(f.m.game, f.m.config).Some? && Replay(reg, f).Ok?
    ensures var f := FileOf(t, r.matchId);
      var rules, current := RulesOf(reg, f), Replay(reg, f).value;
      var (reply, after) := Act(reg, t, r, die, now);
      && (reply.Ok? <==> Grants(rules, f, current, r, die)) && (reply.Err? ==> reply == Err(Objection(rules, f, current, r, die)) && after == t)
      && (reply.Ok? ==>
           && r.matchId in after.matches && Leaves(rules, f, current, r, die, FileOf(after, r.matchId))
           && after.matches[r.matchId].offlineSince == (if after.matches[r.matchId].m.status == Active then t.matches[r.matchId].offlineSince else None))
  {
    var f := FileOf(t, r.matchId);
    FilePlayers(reg, t, r.matchId);
    hide Sound, Lawful, Good, Replay, SlotsComplete, FileOf, Decide, Write, RebuildSnapshot, FindAction, WellFormed, GameOf, SeatOf,
      AcceptsPreviousRevision, Loads, Timely, SessionHolds, Grants, Objection, Leaves, Act, Returns;
    FreshAnswer(reg, t, r, die, now);
    ActKeepsSound(reg, t, r, die, now);
    DecidesAsGranted(reg, f, r, die);
    var rules, current := RulesOf(reg, f), Replay(reg, f).value;
    var d := Decide(rules, f, current, r.actor, r.action, die);
    if d.Ok? {
      WriteAnswers(reg, t, r.matchId, f, d.value, r, now);
      ActiveFile(reg, f);
      DecisionLeaves(rules, f, current, r, die, now);
    }
  }

  lemma FreshAnswer<S(!new)>(reg: Registry<S>, t: Tables, r: Request, die: int, now: int)
    requires Sound(reg, t) && r.matchId in t.matches
    requires var f := FileOf(t, r.matchId);
      && Loads(f) && f.m.status == Active && Member(f.players, r.actor) && GameOf(r.action) == f.m.game
      && r.expectedRevision >= 0 && WellFormed(r.action) && SessionHolds(t, r) && Timely(f.m.game, f.events, r)
      && forall i :: 0 <= i < |f.events| ==> f.events[i].actor != Some(r.actor) || f.events[i].actionId != Some(r.actionId)
    ensures var f := FileOf(t, r.matchId);
      TwoPlayers(f.players) && reg.configured(f.m.game, f.m.config).Some? && Replay(reg, f).Ok?
    ensures var f := FileOf(t, r.matchId);
      Act(reg, t, r, die, now) ==
        match Decide(RulesOf(reg, f), f, Replay(reg, f).value, r.actor, r.action, die)
        case Err(e) => (Err(e), t)
        case Ok(d) => Write(reg, t, r.matchId, f, d, r, now)
  {
    hide Sound, Good, Replay, SlotsComplete, FileOf, Decide, Write, RebuildSnapshot, FindAction, WellFormed, GameOf, SeatOf, AcceptsPreviousRevision,
      Loads, Timely;
    var f := FileOf(t, r.matchId);
    FilePlayers(reg, t, r.matchId);
    FindActionSpec(f.events, r.actor, r.actionId);
    TimelyIsMeant(f, r);
  }

  lemma WriteAnswers<S(!new)>(reg: Registry<S>, t: Tables, id: MatchId, f: File, d: Decision<S>, r: Request, now: int)
    requires id in t.matches && f == FileOf(t, id) && TwoPlayers(f.players)
    ensures var (reply, after) := Write(reg, t, id, f, d, r, now);
      var system := d.kind.MatchAbandoned?;
      && (reply.Err? ==> reply == Err(Internal) && after == t)
      && (reply.Ok? ==>
           && id in after.matches && after.matches[id].offlineSince == (if d.ending.Some? then None else t.matches[id].offlineSince)
           && after.matches[id].m == FileOf(after, id).m
           && FileOf(after, id) == Extended(f, d.kind, if system then None else Some(r.actionId), if system then None else Some(r.actor), d.ending, now))
  {
    hide Committed, SlotsComplete, Selected;
    var system := d.kind.MatchAbandoned?;
    var g := Extended(f, d.kind, if system then None else Some(r.actionId), if system then None else Some(r.actor), d.ending, now);
    var offlineSince := if d.ending.Some? then None else t.matches[id].offlineSince;
    FileAfterCommit(t, id, f, g, offlineSince, id);
    if Write(reg, t, id, f, d, r, now).0.Ok? {
      assert FileOf(Write(reg, t, id, f, d, r, now).1, id) == FileOf(Committed(t, id, f, g, offlineSince), id);
      CommittedColumns(t, id, f, g, offlineSince);
    }
  }

  // --------------------------------------------------------------------------- creating

  /** The user is a player of an active match of this game. */
  ghost predicate IsPlaying(t: Tables, game: GameId, user: UserId) {
    exists id :: Plays(t, id, game, user)
  }

  predicate Plays(t: Tables, id: MatchId, game: GameId, user: UserId) {
    && id in t.matches && t.matches[id].m.status == Active && t.matches[id].m.game == game
    && exists i :: 0 <= i < |FileOf(t, id).players| && FileOf(t, id).players[i].user == user
  }

  // Which player a match's slots are for.
  lemma SlotIsASeat(t: Tables, id: MatchId, f: File, single: bool, game: GameId, user: UserId)
    requires TwoPlayers(f.players) && SlotsComplete(t, id, f, f.m.status == Active && single)
    ensures (game, user) in t.slots && t.slots[(game, user)] == id ==>
      f.m.status == Active && f.m.game == game && exists i :: 0 <= i < |f.players| && f.players[i].user == user
    ensures single && f.m.status == Active && f.m.game == game && (exists i :: 0 <= i < |f.players| && f.players[i].user == user) ==>
      (game, user) in t.slots && t.slots[(game, user)] == id
  {
    assert (game, user) in SlotsOf(t, id) <==> (game, user) in t.slots && t.slots[(game, user)] == id;
    hide SlotsOf;
  }

  lemma SlotMeansPlaying<S(!new)>(reg: Registry<S>, t: Tables, game: GameId, user: UserId)
    requires Sound(reg, t) && reg.single(game)
    ensures (game, user) in t.slots <==> IsPlaying(t, game, user)
  {
    hide Sound, Good, Replay, RebuildSnapshot, FileOf, SlotsComplete, Plays;
    SoundKeys(reg, t);
    if (game, user) in t.slots {
      PlaysBySlot(reg, t, t.slots[(game, user)], game, user);
    }
    if id :| Plays(t, id, game, user) {
      PlaysBySlot(reg, t, id, game, user);
    }
  }

  lemma PlaysBySlot<S(!new)>(reg: Registry<S>, t: Tables, id: MatchId, game: GameId, user: UserId)
    requires Sound(reg, t) && reg.single(game) && (Plays(t, id, game, user) || id in t.matches)
    ensures Plays(t, id, game, user) <==> (game, user) in t.slots && t.slots[(game, user)] == id
  {
    hide Sound, Good, Replay, RebuildSnapshot, FileOf, SlotsComplete;
    FilePlayers(reg, t, id);
    GameOfFile(t, id);
    SlotIsASeat(t, id, FileOf(t, id), reg.single(FileOf(t, id).m.game), game, user);
  }

  /** A match is created if and only if two different enabled users are named, the game can be configured so,
      and neither of them is playing this game already. It then seats them in the colours drawn, has an
      empty log and no timer, and no other match is touched. */
  lemma CreatedExactlyIfFree<S(!new)>(reg: Registry<S>, t: Tables, game: GameId, initiator: UserId, opponent: UserId, config: Option<Rps.Format>,
                                      color: Color, id: MatchId, now: int)
    requires Sound(reg, t) && reg.single(game) && id !in t.matches
    ensures var (reply, after) := CreateMatch(reg, t, game, initiator, opponent, config, color, id, now);
      var proper := initiator != opponent && reg.configured(game, config).Some?
        && initiator in t.users && t.users[initiator].enabled && opponent in t.users && t.users[opponent].enabled;
      && (reply.Ok? <==> proper && !IsPlaying(t, game, initiator) && !IsPlaying(t, game, opponent))
      && (reply == Err(InvalidRequest) <==> !proper) && (reply == Err(ActiveMatchExists) <==> proper && IsPlaying(t, game, initiator))
      && (reply == Err(OpponentBusy) <==> proper && !IsPlaying(t, game, initiator) && IsPlaying(t, game, opponent))
      && (reply.Err? ==> after == t)
      && (reply.Ok? ==> CreatedTables(t, after, game, initiator, opponent, config, color, id, now))
  {
    hide Sound, IsPlaying, FileOf, ForeignKeys;
    SoundKeys(reg, t);
    SlotMeansPlaying(reg, t, game, initiator);
    SlotMeansPlaying(reg, t, game, opponent);
    var (reply, after) := CreateMatch(reg, t, game, initiator, opponent, config, color, id, now);
    NothingOf(t, id);
    if reply.Ok? {
      CreatedRows(reg, t, game, initiator, opponent, config, color, id, now);
    }
    hide CreatedTables;
  }

  lemma NothingOf(t: Tables, id: MatchId)
    requires ForeignKeys(t) && id !in t.matches
    ensures id !in t.players && id !in t.events
  {
  }

  ghost predicate CreatedTables(t: Tables, after: Tables, game: GameId, initiator: UserId, opponent: UserId, config: Option<Rps.Format>,
                                color: Color, id: MatchId, now: int) {
    && after.matches == t.matches[id := Row(Match(game, config, Active, 0, None, None, now, now, None), None)]
    && FileOf(after, id).events == []
    && FileOf(after, id).players == [Player(initiator, color), Player(opponent, if color == Black then White else Black)]
    && forall other :: other in t.matches ==> FileOf(after, other) == FileOf(t, other)
  }

  lemma CreatedRows<S(!new)>(reg: Registry<S>, t: Tables, game: GameId, initiator: UserId, opponent: UserId, config: Option<Rps.Format>,
                             color: Color, id: MatchId, now: int)
    requires ForeignKeys(t) && CreateMatch(reg, t, game, initiator, opponent, config, color, id, now).0.Ok?
    ensures CreatedTables(t, CreateMatch(reg, t, game, initiator, opponent, config, color, id, now).1, game, initiator, opponent, config, color, id, now)
  {
    hide Enabled, SlotsOf, ForeignKeys;
    var after := CreateMatch(reg, t, game, initiator, opponent, config, color, id, now).1;
    forall other | other in t.matches ensures FileOf(after, other) == FileOf(t, other) {
      OthersAfterCreate(t, after, id, after.matches[id], after.players[id], other);
    }
  }

  // ------------------------------------------------------------- cancelling and sweeping

  /** A match is cancelled if and only if one of its players asks while it is active and its log empty. */
  lemma CancelledExactlyIfUntouched<S(!new)>(reg: Registry<S>, t: Tables, id: MatchId, actor: UserId, now: int)
    requires Lawful(reg) && Sound(reg, t)
    ensures var (reply, after) := Cancel(reg, t, id, actor, now);
      && (id !in t.matches ==> reply == Err(NotFound))
      && (id in t.matches ==>
           var f := FileOf(t, id);
           && (reply.Ok? <==> f.m.status == Active && f.events == [] && exists i :: 0 <= i < |f.players| && f.players[i].user == actor)
           && (reply.Err? ==> reply == Err(NotCancellable) && after == t)
           && (reply.Ok? ==> id in after.matches && after.matches[id].offlineSince == t.matches[id].offlineSince))
  {
    hide Sound, Lawful, Good, Replay, SlotsComplete, RebuildSnapshot, Committed, HasGameplay, Selected, SeatOf;
    CancelKeepsSound(reg, t, id, actor, now);
    if id in t.matches {
      FilePlayers(reg, t, id);
      var f := FileOf(t, id);
      SeatIsThere(f.players, actor);
      CommittedColumns(t, id, f, Extended(f, MatchCancelled, None, Some(actor), Some(Ending(Cancelled, None, None)), now), t.matches[id].offlineSince);
      if f.m.status == Active {
        NothingPlayed(f.events);
        if f.events != [] {
          LogIsPlayedOrOver(reg, t, id);
        }
      }
    }
  }

  lemma NothingPlayed(events: seq<StoredEvent>)
    ensures events == [] ==> !HasGameplay(events)
  {
  }

  /** All its players have been offline for a day. */
  predicate DueBy(row: Row, now: int) {
    row.m.status == Active && row.offlineSince.Some? && row.offlineSince.value + 86400000 <= now
  }

  /** While the clock is sound, one sweep succeeds and abandons exactly the matches that are due: each gets
      its last event, and every other match is left as it is. */
  lemma SweptExactlyIfDue<S(!new)>(reg: Registry<S>, t: Tables, now: int, id: MatchId)
    requires Lawful(reg) && Sound(reg, t) && Clocked(t) && (forall x :: x in t.matches ==> t.matches[x].m.createdAt <= now) && id in t.matches
    ensures var (_, error, after) := AbandonExpired(reg, t, now);
      && error.None? && id in after.matches
      && (if DueBy(t.matches[id], now) then AbandonedRow(t, after, id, now)
          else after.matches[id] == t.matches[id] && FileOf(after, id) == FileOf(t, id))
  {
    hide Sound, Lawful, Clocked, FileOf, AbandonEach, Sorted, Due, AbandonedRow;
    var cutoff := now - 86400000;
    var due := Due(t, cutoff);
    IsDue(t, id, now);
    SortedAscends(due);
    AbandonEachSucceeds(reg, t, Sorted(due), cutoff, now);
    SweepReaches(reg, t, Sorted(due), cutoff, now, id);
  }

  lemma IsDue(t: Tables, id: MatchId, now: int)
    requires id in t.matches
    ensures id in Due(t, now - 86400000) <==> DueBy(t.matches[id], now)
    ensures DueBy(t.matches[id], now) <==> Expired(t.matches[id], now - 86400000)
  {
  }

  /** A match among those listed once, and due, is abandoned. */
  lemma {:induction false} SweepReaches<S(!new)>(reg: Registry<S>, t: Tables, ids: seq<MatchId>, cutoff: int, now: int, id: MatchId)
    requires Lawful(reg) && Sound(reg, t) && Clocked(t) && (forall x :: x in t.matches ==> t.matches[x].m.createdAt <= now) && id in t.matches
    requires Ascending(ids)
    ensures var after := AbandonEach(reg, t, ids, cutoff, now).2;
      && id in after.matches
      && (if id in ids && Expired(t.matches[id], cutoff) then AbandonedRow(t, after, id, now)
          else after.matches[id] == t.matches[id] && FileOf(after, id) == FileOf(t, id))
  {
    hide Sound, Lawful, Clocked, FileOf, AbandonIfExpired, AbandonedRow, Expired;
    if ids != [] {
      var front, last := ids[..|ids| - 1], ids[|ids| - 1];
      var before := AbandonEach(reg, t, front, cutoff, now).2;
      SweepReaches(reg, t, front, cutoff, now, id);
      AbandonEachSucceeds(reg, t, front, cutoff, now);
      AbandonEachKeepsSound(reg, t, front, cutoff, now);
      AbandonEachKeeps(reg, t, front, cutoff, now);
      ClockKeptMeansClocked(t, before, now);
      OneAbandonTouchesOne(reg, before, last, cutoff, now);
      if id == last {
        assert last !in front;
        AbandonReaches(reg, before, last, cutoff, now);
        SameBefore(t, before, AbandonIfExpired(reg, before, last, cutoff, now).1, id, now);
      } else {
        StillAbandoned(t, before, AbandonIfExpired(reg, before, last, cutoff, now).1, id, now);
      }
    }
  }

  ghost predicate AbandonedRow(t: Tables, after: Tables, id: MatchId, now: int)
    requires id in t.matches && id in after.matches
  {
    && after.matches[id].m.status == Abandoned && after.matches[id].offlineSince.None?
    && FileOf(after, id).events == FileOf(t, id).events + [StoredEvent(|FileOf(t, id).events| + 1, MatchAbandoned, None, None, now)]
  }

  lemma SameBefore(t: Tables, before: Tables, after: Tables, id: MatchId, now: int)
    requires id in t.matches && id in before.matches && id in after.matches && FileOf(before, id) == FileOf(t, id)
    ensures AbandonedRow(before, after, id, now) ==> AbandonedRow(t, after, id, now)
  {
    hide FileOf;
  }

  lemma StillAbandoned(t: Tables, before: Tables, after: Tables, id: MatchId, now: int)
    requires id in t.matches && id in before.matches && id in after.matches
    requires after.matches[id] == before.matches[id] && FileOf(after, id) == FileOf(before, id)
    ensures AbandonedRow(t, before, id, now) ==> AbandonedRow(t, after, id, now)
  {
    hide FileOf;
  }

  lemma AbandonReaches<S(!new)>(reg: Registry<S>, t: Tables, id: MatchId, cutoff: int, now: int)
    requires Lawful(reg) && Sound(reg, t) && Clocked(t) && id in t.matches
    ensures var after := AbandonIfExpired(reg, t, id, cutoff, now).1;
      && id in after.matches
      && (if Expired(t.matches[id], cutoff) then AbandonedRow(t, after, id, now)
          else after.matches[id] == t.matches[id] && FileOf(after, id) == FileOf(t, id))
  {
    hide Sound, Lawful, Clocked, Good, Replay, SlotsComplete, RebuildSnapshot, Committed, Selected, Loads, Expired;
    LoadsWhenClocked(reg, t, id);
    FilePlayers(reg, t, id);
    var f := FileOf(t, id);
    var g := Extended(f, MatchAbandoned, None, None, Some(Ending(Abandoned, None, None)), now);
    FileAfterCommit(t, id, f, g, None, id);
    CommittedColumns(t, id, f, g, None);
  }

  // ---------------------------------------------------------------------------- tickets

  /** While matches can be read and a free hash is drawn, a launch ticket is issued if and only if the match
      is active and the user plays in it. It is the player's only one for the match; all other tickets,
      and all tokens, stay. */
  lemma IssuedExactlyToPlayers<S(!new)>(reg: Registry<S>, t: Tables, id: MatchId, user: UserId, drawn: seq<Hash>, now: int)
    requires Sound(reg, t) && Clocked(t) && FirstFree(t.tickets.Keys, drawn).Some?
    ensures var (reply, after) := CreateTicket(reg, t, id, user, drawn, now);
      && (reply.Ok? <==> id in t.matches && t.matches[id].m.status == Active && exists i :: 0 <= i < |FileOf(t, id).players| && FileOf(t, id).players[i].user == user)
      && (reply.Err? ==> reply == Err(NotFound) && after == t)
      && (reply.Ok? ==>
           && reply.value !in t.tickets && reply.value in after.tickets
           && after.tickets[reply.value] == Ticket(id, user, t.matches[id].m.game, now + 60000, None) && after.tokens == t.tokens
           && forall h :: h in t.tickets ==>
                if t.tickets[h].matchId == id && t.tickets[h].user == user && t.tickets[h].game == t.matches[id].m.game then h !in after.tickets
                else h in after.tickets && after.tickets[h] == t.tickets[h])
  {
    hide Sound, Clocked, Good, Replay, SlotsComplete, RebuildSnapshot, Selected, Loads, SeatOf, FirstFree;
    if id in t.matches {
      LoadsWhenClocked(reg, t, id);
      FilePlayers(reg, t, id);
      SeatIsThere(FileOf(t, id).players, user);
    }
    if CreateTicket(reg, t, id, user, drawn, now).0.Ok? {
      MatchExpiry.IssuedForAMinute(reg, t, id, user, drawn, now);
    }
    hide FileOf;
  }

  // --------------------------------------------------------------------------- presence

  /** A player's coming or going is recorded if and only if the match exists and the user plays in it; and it
      touches nothing but the timer of a match that is still on: cleared by coming, started by going if it
      was not running. */
  lemma PresenceIsOfPlayers<S(!new)>(reg: Registry<S>, t: Tables, id: MatchId, user: UserId, online: bool, now: int)
    requires Sound(reg, t) && Clocked(t)
    ensures var (reply, after) := SetPresence(t, id, user, online, now);
      && (reply == Err(NotFound) <==> id !in t.matches)
      && (reply.Ok? <==> id in t.matches && exists i :: 0 <= i < |FileOf(t, id).players| && FileOf(t, id).players[i].user == user)
      && (reply.Err? ==> after == t && (reply == Err(NotFound) || reply == Err(InvalidRequest)))
      && (reply.Ok? ==>
           && after == t.(matches := after.matches) && after.matches.Keys == t.matches.Keys
           && (forall x :: x in t.matches ==> after.matches[x].m == t.matches[x].m && (x != id ==> after.matches[x] == t.matches[x]))
           && after.matches[id].offlineSince ==
                if t.matches[id].m.status != Active then t.matches[id].offlineSince
                else if online then None
                else if t.matches[id].offlineSince == None then Some(now) else t.matches[id].offlineSince)
  {
    hide Sound, Clocked, Good, Replay, SlotsComplete, RebuildSnapshot, Selected, Loads, SeatOf;
    if id in t.matches {
      LoadsWhenClocked(reg, t, id);
      FilePlayers(reg, t, id);
      GameOfFile(t, id);
      SeatIsThere(FileOf(t, id).players, user);
    }
    hide FileOf;
  }
}
