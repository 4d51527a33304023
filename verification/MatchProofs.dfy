/** Sound tables of the match service, for any lawful rules: stored matches replay, slots and
    credentials live exactly as long as their match is active, and each single operation keeps
    it so. */
module MatchProofs {
  import opened Common
  import opened MatchModel
  import opened MatchTables
  import opened MatchFiles
  import Rps

  // ----------------------------------------------------------------------- sound tables

  ghost predicate MatchSound<S(!new)>(reg: Registry<S>, t: Tables, id: MatchId)
    requires id in t.matches
  {
    var f := FileOf(t, id);
    Good(reg, f) && SlotsComplete(t, id, f, f.m.status == Active && reg.single(f.m.game))
  }

  /** An absorbed action is remembered beside the abandonment that absorbed it. */
  ghost predicate LimitSound(t: Tables, id: MatchId)
    requires id in t.limits
  {
    id in t.matches && var f, row := FileOf(t, id), t.limits[id];
      && f.m.game == FlightGame && f.m.status == Abandoned && |f.players| == 2 && Member(f.players, row.actor)
      && row.revision == |f.events| == MAXIMUM_FLIGHT_CHESS_EVENTS
      && FindAction(f.events, row.actor, row.actionId).None?
      && var last := f.events[MAXIMUM_FLIGHT_CHESS_EVENTS - 1];
         last.kind == MatchAbandoned && last.revision == MAXIMUM_FLIGHT_CHESS_EVENTS && last.actionId.None? && last.actor.None?
  }

  ghost predicate ForeignKeys(t: Tables) {
    && (forall k :: k in t.slots ==> t.slots[k] in t.matches)
    && (forall id :: id in t.players ==> id in t.matches)
    && (forall id :: id in t.events ==> id in t.matches)
    && (forall h :: h in t.tickets ==> t.tickets[h].matchId in t.matches)
    && (forall h :: h in t.tokens ==> t.tokens[h].matchId in t.matches)
  }

  ghost predicate CredentialsActive(t: Tables)
    requires ForeignKeys(t)
  {
    && (forall h :: h in t.tickets ==> t.matches[t.tickets[h].matchId].m.status == Active)
    && (forall h :: h in t.tokens ==> t.matches[t.tokens[h].matchId].m.status == Active)
  }

  ghost predicate Sound<S(!new)>(reg: Registry<S>, t: Tables) {
    && ForeignKeys(t) && CredentialsActive(t)
    && (forall id :: id in t.matches ==> MatchSound(reg, t, id))
    && (forall id :: id in t.limits ==> LimitSound(t, id))
  }

  /** Every stored match still loads: no update is dated before its creation. */
  ghost predicate Clocked(t: Tables) {
    forall id :: id in t.matches ==> t.matches[id].m.createdAt <= t.matches[id].m.updatedAt
  }

  // ------------------------------------------------------------------ reading soundness

  lemma MatchFacts<S(!new)>(reg: Registry<S>, t: Tables, id: MatchId)
    requires id in t.matches && MatchSound(reg, t, id)
    ensures var f := FileOf(t, id);
      && TwoPlayers(f.players) && f.m.revision == |f.events| && Good(reg, f) && Replay(reg, f).Ok?
      && reg.configured(f.m.game, f.m.config).Some?
      && SlotsComplete(t, id, f, f.m.status == Active && reg.single(f.m.game))
      && RebuildSnapshot(reg, t, id, f) == Ok(Snapshot(f.m, f.players, Replay(reg, f).value))
  {
    ReplayFacts(reg, FileOf(t, id));
    hide Replay, Reached, SlotsComplete, FileOf;
  }

  lemma FilePlayers<S(!new)>(reg: Registry<S>, t: Tables, id: MatchId)
    requires Sound(reg, t) && id in t.matches
    ensures var f := FileOf(t, id);
      && TwoPlayers(f.players) && f.m.revision == |f.events| && Good(reg, f) && Replay(reg, f).Ok?
      && reg.configured(f.m.game, f.m.config).Some?
      && SlotsComplete(t, id, f, f.m.status == Active && reg.single(f.m.game))
      && RebuildSnapshot(reg, t, id, f) == Ok(Snapshot(f.m, f.players, Replay(reg, f).value))
  {
    hide MatchSound, LimitSound, Good, Replay, SlotsComplete, RebuildSnapshot, FileOf, TwoPlayers;
    MatchFacts(reg, t, id);
  }

  lemma SameFileStaysSound<S(!new)>(reg: Registry<S>, t: Tables, after: Tables, id: MatchId)
    requires id in t.matches && id in after.matches && MatchSound(reg, t, id)
    requires FileOf(after, id) == FileOf(t, id) && SlotsOf(after, id) == SlotsOf(t, id)
    ensures MatchSound(reg, after, id)
  {
    MatchFacts(reg, t, id);
    hide Good, FileOf, SlotsOf;
  }

  lemma SameLimitStaysSound(t: Tables, after: Tables, id: MatchId)
    requires id in t.limits && id in after.limits && after.limits[id] == t.limits[id] && LimitSound(t, id)
    requires id in after.matches && FileOf(after, id) == FileOf(t, id)
    ensures LimitSound(after, id)
  {
    hide FileOf, FindAction, Member;
  }

  lemma LimitedIsOver(t: Tables, id: MatchId)
    requires id in t.limits && LimitSound(t, id)
    ensures id in t.matches && t.matches[id].m.status == Abandoned
  {
    hide FindAction, Member, Selected;
  }

  // ------------------------------------------------------------------ committing an event

  lemma SlotsAfterRelease<S>(reg: Registry<S>, t: Tables, id: MatchId, f: File, g: File, offlineSince: Option<int>, other: MatchId)
    requires TwoPlayers(f.players) && SlotsComplete(t, id, f, reg.single(f.m.game)) && g.m.status != Active
    ensures SlotsOf(Committed(t, id, f, g, offlineSince), other) == if other == id then {} else SlotsOf(t, other)
  {
    var after := Committed(t, id, f, g, offlineSince);
    forall k | k in SlotsOf(after, other) ensures other != id && k in SlotsOf(t, other) {
      assert other == id ==> k in SlotsOf(t, id);
    }
  }

  lemma CommittedColumns(t: Tables, id: MatchId, f: File, g: File, offlineSince: Option<int>)
    requires |f.players| == 2
    ensures var after := Committed(t, id, f, g, offlineSince);
      && after.matches == t.matches[id := Row(g.m, offlineSince)] && after.players == t.players
      && after.events == t.events[id := g.events] && after.limits == t.limits && after.users == t.users
      && (g.m.status == Active ==> after.slots == t.slots && after.tickets == t.tickets && after.tokens == t.tokens)
      && (g.m.status != Active ==> after == Released(Stored(t, id, g, offlineSince), id, f))
  {
    hide WithoutSlots;
  }

  lemma FileAfterCommit(t: Tables, id: MatchId, f: File, g: File, offlineSince: Option<int>, other: MatchId)
    requires |f.players| == 2 && id in t.matches && other in t.matches && g.players == Selected(t.players, id)
    ensures var after := Committed(t, id, f, g, offlineSince);
      && after.matches.Keys == t.matches.Keys && after.limits == t.limits
      && FileOf(after, other) == (if other == id then g else FileOf(t, other))
      && (g.m.status == Active ==> SlotsOf(after, other) == SlotsOf(t, other))
  {
    hide Committed, Released;
    CommittedColumns(t, id, f, g, offlineSince);
    if g.m.status == Active {
      SlotsDependOnSlots(t, Committed(t, id, f, g, offlineSince), other);
    }
    hide SlotsOf;
  }

  lemma SlotsDependOnSlots(t: Tables, after: Tables, id: MatchId)
    requires after.slots == t.slots
    ensures SlotsOf(after, id) == SlotsOf(t, id)
  {
  }

  /** The row that changed: its file is good, and its slots stay or go with its status. */
  lemma CommittedMatchIsSound<S(!new)>(reg: Registry<S>, t: Tables, after: Tables, id: MatchId, f: File, g: File)
    requires id in t.matches && id in after.matches && f == FileOf(t, id) && g == FileOf(after, id)
    requires f.m.status == Active && g.m.game == f.m.game && g.players == f.players && Good(reg, g)
    requires MatchSound(reg, t, id)
    requires SlotsOf(after, id) == if g.m.status == Active then SlotsOf(t, id) else {}
    ensures MatchSound(reg, after, id)
  {
    MatchFacts(reg, t, id);
    hide Replay, Reached, FileOf, SlotsOf;
  }

  lemma ReleasedRows(t: Tables, id: MatchId, f: File)
    requires |f.players| == 2
    ensures var after := Released(t, id, f);
      && after.matches == t.matches && after.players == t.players && after.events == t.events
      && (forall k :: k in after.slots ==> k in t.slots && after.slots[k] == t.slots[k])
      && (forall h :: h in after.tickets ==> h in t.tickets && after.tickets[h] == t.tickets[h] && t.tickets[h].matchId != id)
      && (forall h :: h in after.tokens ==> h in t.tokens && after.tokens[h] == t.tokens[h] && t.tokens[h].matchId != id)
  {
  }

  lemma CommitKeepsKeys(t: Tables, id: MatchId, f: File, g: File, offlineSince: Option<int>)
    requires ForeignKeys(t) && CredentialsActive(t) && id in t.matches && |f.players| == 2
    ensures var after := Committed(t, id, f, g, offlineSince); ForeignKeys(after) && CredentialsActive(after)
  {
    hide Committed, Released;
    CommittedColumns(t, id, f, g, offlineSince);
    if g.m.status != Active {
      ReleasedRows(Stored(t, id, g, offlineSince), id, f);
    }
  }

  /** Appending a good row to an active match keeps every table sound. */
  lemma CommitKeepsSound<S(!new)>(reg: Registry<S>, t: Tables, id: MatchId, g: File, offlineSince: Option<int>)
    requires Sound(reg, t) && id in t.matches && t.matches[id].m.status == Active && Good(reg, g)
    requires g.players == FileOf(t, id).players && g.m.game == t.matches[id].m.game
    ensures |FileOf(t, id).players| == 2
    ensures Sound(reg, Committed(t, id, FileOf(t, id), g, offlineSince))
  {
    hide MatchSound, LimitSound, Committed, Good, Replay, SlotsOf, ForeignKeys, CredentialsActive, RebuildSnapshot;
    FilePlayers(reg, t, id);
    var f := FileOf(t, id);
    var after := Committed(t, id, f, g, offlineSince);
    CommitKeepsKeys(t, id, f, g, offlineSince);
    FileAfterCommit(t, id, f, g, offlineSince, id);
    forall other | other in after.matches ensures MatchSound(reg, after, other) {
      CommitKeepsMatch(reg, t, id, g, offlineSince, other);
    }
    forall other | other in after.limits ensures LimitSound(after, other) {
      LimitedIsOver(t, other);
      FileAfterCommit(t, id, f, g, offlineSince, other);
      SameLimitStaysSound(t, after, other);
    }
  }

  lemma CommitKeepsMatch<S(!new)>(reg: Registry<S>, t: Tables, id: MatchId, g: File, offlineSince: Option<int>, other: MatchId)
    requires Sound(reg, t) && id in t.matches && t.matches[id].m.status == Active && Good(reg, g) && other in t.matches
    requires g.players == FileOf(t, id).players && g.m.game == t.matches[id].m.game && |FileOf(t, id).players| == 2
    ensures var after := Committed(t, id, FileOf(t, id), g, offlineSince);
      other in after.matches && MatchSound(reg, after, other)
  {
    hide MatchSound, LimitSound, Committed, Good, Replay, SlotsOf, ForeignKeys, CredentialsActive, RebuildSnapshot;
    FilePlayers(reg, t, id);
    var f := FileOf(t, id);
    var after := Committed(t, id, f, g, offlineSince);
    FileAfterCommit(t, id, f, g, offlineSince, other);
    if g.m.status != Active {
      SlotsAfterRelease(reg, t, id, f, g, offlineSince, other);
    }
    if other == id {
      CommittedMatchIsSound(reg, t, after, id, f, g);
    } else {
      SameFileStaysSound(reg, t, after, other);
    }
  }

  // ------------------------------------------------------------- the simpler transactions

  lemma CreateKeepsSound<S(!new)>(reg: Registry<S>, t: Tables, game: GameId, initiator: UserId, opponent: UserId, config: Option<Rps.Format>,
                                  initiatorColor: Color, id: MatchId, now: int)
    requires Lawful(reg) && Sound(reg, t)
    ensures Sound(reg, CreateMatch(reg, t, game, initiator, opponent, config, initiatorColor, id, now).1)
  {
    hide MatchSound, LimitSound, Good, Lawful, FileOf, SlotsOf, CredentialsActive, ForeignKeys, Enabled;
    var (r, after) := CreateMatch(reg, t, game, initiator, opponent, config, initiatorColor, id, now);
    if r.Ok? {
      var row, players := after.matches[id], after.players[id];
      CreateKeepsKeys(t, after, id, row, players);
      forall other | other in after.matches ensures MatchSound(reg, after, other) {
        if other == id {
          NewMatchIsSound(reg, t, game, initiator, opponent, config, initiatorColor, id, now);
        } else {
          OthersAfterCreate(t, after, id, row, players, other);
          SameFileStaysSound(reg, t, after, other);
        }
      }
      forall other | other in after.limits ensures LimitSound(after, other) {
        LimitedIsOver(t, other);
        OthersAfterCreate(t, after, id, row, players, other);
        SameLimitStaysSound(t, after, other);
      }
    }
  }

  // The tables after a creation differ from the ones before in one fresh match only.
  ghost predicate Inserted(t: Tables, after: Tables, id: MatchId, row: Row, players: seq<Player>) {
    && id !in t.matches && id !in t.players && id !in t.events
    && after.matches == t.matches[id := row] && row.m.status == Active && after.players == t.players[id := players]
    && after.events == t.events && after.limits == t.limits && after.tickets == t.tickets && after.tokens == t.tokens
    && t.slots.Keys <= after.slots.Keys
    && forall k :: k in after.slots ==> after.slots[k] == if k in t.slots then t.slots[k] else id
  }

  lemma CreateKeepsKeys(t: Tables, after: Tables, id: MatchId, row: Row, players: seq<Player>)
    requires ForeignKeys(t) && CredentialsActive(t) && Inserted(t, after, id, row, players)
    ensures ForeignKeys(after) && CredentialsActive(after)
  {
  }

  lemma OthersAfterCreate(t: Tables, after: Tables, id: MatchId, row: Row, players: seq<Player>, other: MatchId)
    requires ForeignKeys(t) && Inserted(t, after, id, row, players) && other in t.matches
    ensures other in after.matches && FileOf(after, other) == FileOf(t, other) && SlotsOf(after, other) == SlotsOf(t, other)
  {
  }

  lemma NewMatchIsSound<S(!new)>(reg: Registry<S>, t: Tables, game: GameId, initiator: UserId, opponent: UserId, config: Option<Rps.Format>,
                                 initiatorColor: Color, id: MatchId, now: int)
    requires Lawful(reg) && ForeignKeys(t) && CreateMatch(reg, t, game, initiator, opponent, config, initiatorColor, id, now).0.Ok?
    ensures var after := CreateMatch(reg, t, game, initiator, opponent, config, initiatorColor, id, now).1;
      id in after.matches && MatchSound(reg, after, id)
  {
    hide Good, Lawful, Enabled;
    var (r, after) := CreateMatch(reg, t, game, initiator, opponent, config, initiatorColor, id, now);
    var players := [Player(initiator, initiatorColor), Player(opponent, initiatorColor.Opposite())];
    var f := File(r.value, players, []);
    assert players[0].color != players[1].color;
    NewFile(reg, f);
    assert FileOf(after, id) == f;
    assert SlotsOf(after, id) == ExpectedSlots(f, reg.single(game));
  }

  /** Timers and credentials are no part of a file. */
  lemma SideTablesKeepSound<S(!new)>(reg: Registry<S>, t: Tables, after: Tables)
    requires Sound(reg, t)
    requires after.matches.Keys == t.matches.Keys && forall id :: id in t.matches ==> after.matches[id].m == t.matches[id].m
    requires after.players == t.players && after.events == t.events && after.slots == t.slots && after.limits == t.limits
    requires forall h :: h in after.tickets ==>
      after.tickets[h].matchId in t.matches && t.matches[after.tickets[h].matchId].m.status == Active
    requires forall h :: h in after.tokens ==>
      after.tokens[h].matchId in t.matches && t.matches[after.tokens[h].matchId].m.status == Active
    ensures Sound(reg, after)
  {
    hide Good, MatchSound, LimitSound;
    forall id | id in after.matches ensures MatchSound(reg, after, id) {
      assert FileOf(after, id) == FileOf(t, id);
      assert SlotsOf(after, id) == SlotsOf(t, id);
      SameFileStaysSound(reg, t, after, id);
    }
    forall id | id in after.limits ensures LimitSound(after, id) {
      LimitedIsOver(t, id);
      assert FileOf(after, id) == FileOf(t, id);
      SameLimitStaysSound(t, after, id);
    }
  }

  lemma TicketKeepsSound<S(!new)>(reg: Registry<S>, t: Tables, id: MatchId, user: UserId, candidates: seq<Hash>, now: int)
    requires Sound(reg, t)
    ensures Sound(reg, CreateTicket(reg, t, id, user, candidates, now).1)
  {
    hide MatchSound, LimitSound, RebuildSnapshot, Loads, Selected, FirstFree, SeatOf;
    var (r, after) := CreateTicket(reg, t, id, user, candidates, now);
    if r.Ok? {
      SideTablesKeepSound(reg, t, after);
    }
  }

  lemma ConnectKeepsSound<S(!new)>(reg: Registry<S>, t: Tables, c: Credential, candidates: seq<Hash>, now: int)
    requires Sound(reg, t)
    ensures Sound(reg, Connect(reg, t, c, candidates, now).1)
  {
    hide MatchSound, LimitSound, RebuildSnapshot, Loads, Selected, FirstFree, SeatOf, Enabled;
    var (r, after) := Connect(reg, t, c, candidates, now);
    if r.Ok? {
      SideTablesKeepSound(reg, t, after);
    }
  }

  lemma PresenceKeepsSound<S(!new)>(reg: Registry<S>, t: Tables, id: MatchId, user: UserId, online: bool, now: int)
    requires Sound(reg, t)
    ensures Sound(reg, SetPresence(t, id, user, online, now).1)
  {
    hide MatchSound, LimitSound, Loads, Selected, SeatOf;
    var after := SetPresence(t, id, user, online, now).1;
    if after != t {
      SideTablesKeepSound(reg, t, after);
    }
  }

  lemma MarkOfflineKeepsSound<S(!new)>(reg: Registry<S>, t: Tables, now: int)
    requires Sound(reg, t)
    ensures Sound(reg, MarkOffline(t, now))
  {
    hide MatchSound, LimitSound;
    SideTablesKeepSound(reg, t, MarkOffline(t, now));
  }

  lemma TransferKeepsSound<S(!new)>(reg: Registry<S>, t: Tables, user: UserId, epoch: nat)
    requires Sound(reg, t)
    ensures Sound(reg, Transfer(t, user, epoch))
  {
    hide MatchSound, LimitSound;
    SideTablesKeepSound(reg, t, Transfer(t, user, epoch));
  }

  // ------------------------------------------------------- cancelling and abandoning

  lemma FirstRowPlays(events: seq<StoredEvent>)
    requires !HasGameplay(events)
    ensures events != [] ==> !events[0].kind.Accepted?
  {
  }

  lemma CancelKeepsSound<S(!new)>(reg: Registry<S>, t: Tables, id: MatchId, actor: UserId, now: int)
    requires Lawful(reg) && Sound(reg, t)
    ensures Sound(reg, Cancel(reg, t, id, actor, now).1)
    ensures Cancel(reg, t, id, actor, now).0 != Err(Internal)
  {
    hide Good, SlotsComplete, Committed, Sound, Lawful, RebuildSnapshot, HasGameplay, SeatOf, Replay, Selected;
    if id in t.matches {
      FilePlayers(reg, t, id);
      var f := FileOf(t, id);
      if Member(f.players, actor) && f.m.status == Active && !HasGameplay(f.events) {
        FirstRowPlays(f.events);
        CancellationStep(reg, f, actor, now);
        var g := Extended(f, MatchCancelled, None, Some(actor), Some(Ending(Cancelled, None, None)), now);
        CommitKeepsSound(reg, t, id, g, t.matches[id].offlineSince);
      }
    }
  }

  lemma AbandonKeepsSound<S(!new)>(reg: Registry<S>, t: Tables, id: MatchId, cutoff: int, now: int)
    requires Lawful(reg) && Sound(reg, t)
    ensures Sound(reg, AbandonIfExpired(reg, t, id, cutoff, now).1)
    ensures id in t.matches && Loads(FileOf(t, id)) ==> AbandonIfExpired(reg, t, id, cutoff, now).0 != Err(Internal)
  {
    hide Good, SlotsComplete, Committed, Sound, Lawful, RebuildSnapshot, Replay, Selected;
    if id in t.matches {
      FilePlayers(reg, t, id);
      var f := FileOf(t, id);
      if Expired(t.matches[id], cutoff) {
        AbandonmentStep(reg, f, now);
        var g := Extended(f, MatchAbandoned, None, None, Some(Ending(Abandoned, None, None)), now);
        CommitKeepsSound(reg, t, id, g, None);
      }
    }
  }

  // ------------------------------------------------------------------------- acting

  lemma {:induction false} FindActionSpec(events: seq<StoredEvent>, actor: UserId, actionId: ActionId)
    ensures var r := FindAction(events, actor, actionId);
      && (r.Some? ==> exists i :: 0 <= i < |events| && events[i] == r.value && r.value.actor == Some(actor) && r.value.actionId == Some(actionId))
      && (r.None? ==> forall i :: 0 <= i < |events| ==> !(events[i].actor == Some(actor) && events[i].actionId == Some(actionId)))
  {
    if events != [] {
      FindActionSpec(events[1..], actor, actionId);
      var r := FindAction(events, actor, actionId);
      if r.Some? && !(events[0].actor == Some(actor) && events[0].actionId == Some(actionId)) {
        var i :| 0 <= i < |events[1..]| && events[1..][i] == r.value;
        assert events[i + 1] == r.value;
      }
    }
  }

  /** The rows a scan accepted belong to the actor they name. */
  ghost predicate RowOwned(players: seq<Player>, e: StoredEvent)
    requires TwoPlayers(players)
  {
    match e.kind
    case Accepted(p) => e.actor.Some? && Member(players, e.actor.value) && Owned(p, e.actor.value, ColorOf(players, e.actor.value))
    case Resigned(_, user, winner) =>
      e.actor.Some? && Member(players, e.actor.value) && user == e.actor.value && winner == OpponentOf(players, e.actor.value)
    case _ => true
  }

  lemma {:induction false} ScannedRowsAreOwned(g: GameId, players: seq<Player>, events: seq<StoredEvent>, n: nat)
    requires TwoPlayers(players) && n <= |events| && ScanTo(g, players, events, n).Some?
    ensures forall i :: 0 <= i < n ==> RowOwned(players, events[i])
  {
    hide Owned, ColorOf, Member, OpponentOf;
    if n > 0 {
      ScannedRowsAreOwned(g, players, events, n - 1);
    }
  }

  /** Looking up an earlier action never finds a row that contradicts the players. */
  lemma EarlierEventIsSafe<S(!new)>(reg: Registry<S>, t: Tables, r: Request)
    requires Sound(reg, t) && r.matchId in t.matches
    ensures TwoPlayers(FileOf(t, r.matchId).players)
    ensures EarlierEvent(t, r.matchId, FileOf(t, r.matchId), r) != Err(Internal)
  {
    hide MatchSound, LimitSound, Good, Replay, FindAction, SlotsComplete, RebuildSnapshot, ScanTo, CommittedMatches, Selected, SeatOf;
    FilePlayers(reg, t, r.matchId);
    var f := FileOf(t, r.matchId);
    ReplayFacts(reg, f);
    ScannedRowsAreOwned(f.m.game, f.players, f.events, |f.events|);
    FindActionSpec(f.events, r.actor, r.actionId);
    var found := FindAction(f.events, r.actor, r.actionId);
    if found.Some? {
      OwnedRowCompares(f.players, found.value, r.actor, r.action);
    } else if r.matchId in t.limits {
      LimitLookupIsSafe(t, r);
    }
  }

  lemma OwnedRowCompares(players: seq<Player>, e: StoredEvent, actor: UserId, action: Action)
    requires TwoPlayers(players) && RowOwned(players, e) && e.actor == Some(actor)
    ensures CommittedMatches(e, actor, action, players) != Err(Internal)
  {
    hide Owned, SameKind, SameMeaning, SeatOf;
  }

  lemma LimitLookupIsSafe(t: Tables, r: Request)
    requires r.matchId in t.limits && LimitSound(t, r.matchId) && r.matchId in t.matches && TwoPlayers(FileOf(t, r.matchId).players)
    ensures LimitEvent(t, r.matchId, FileOf(t, r.matchId), r) != Err(Internal)
  {
    hide FindAction, SeatOf, Selected;
  }

  /** Commits an action's decision: sound tables, and the returned snapshot is what a rebuild
      of the new rows gives. */
  lemma WriteKeepsSound<S(!new)>(reg: Registry<S>, t: Tables, id: MatchId, d: Decision<S>, r: Request, now: int)
    requires Sound(reg, t) && id in t.matches && t.matches[id].m.status == Active
    requires TwoPlayers(FileOf(t, id).players) && Member(FileOf(t, id).players, r.actor)
    requires FindAction(FileOf(t, id).events, r.actor, r.actionId).None?
    requires DecisionIsSound(reg, FileOf(t, id), d, r.actionId, r.actor, now)
    ensures var (w, after) := Write(reg, t, id, FileOf(t, id), d, r, now);
      w.Ok? && Sound(reg, after) && Returns(reg, after, id, w.value.1)
  {
    hide Committed, Good, FindAction, Replay, MatchSound, LimitSound, RebuildSnapshot, SlotsComplete, Selected, ForeignKeys, CredentialsActive, SeatOf;
    FilePlayers(reg, t, id);
    var f, system := FileOf(t, id), d.kind.MatchAbandoned?;
    var g := Extended(f, d.kind, if system then None else Some(r.actionId), if system then None else Some(r.actor), d.ending, now);
    if id in t.limits {
      LimitedIsOver(t, id);
    }
    var offlineSince := if d.ending.Some? then None else t.matches[id].offlineSince;
    CommitKeepsSound(reg, t, id, g, offlineSince);
    var committed := Committed(t, id, f, g, offlineSince);
    FileAfterCommit(t, id, f, g, offlineSince, id);
    FilePlayers(reg, committed, id);
    if system {
      ReplayRevision(reg, g);
      RowIsNobodys(f.events, g.events[|f.events|], r.actor, r.actionId);
      var row := LimitRow(g.m.revision, r.actor, r.actionId, r.action);
      NewLimitIsSound(committed, id, row);
      LimitKeepsSound(reg, committed, id, row);
      FilePlayers(reg, committed.(limits := committed.limits[id := row]), id);
    }
  }

  /** What the file after a decision must be. */
  ghost predicate DecisionIsSound<S(!new)>(reg: Registry<S>, f: File, d: Decision<S>, actionId: ActionId, actor: UserId, now: int) {
    var system := d.kind.MatchAbandoned?;
    var g := Extended(f, d.kind, if system then None else Some(actionId), if system then None else Some(actor), d.ending, now);
    && Good(reg, g) && Replay(reg, g) == Ok(d.game) && (g.m.status == Active <==> d.ending.None?)
    && (system ==> f.m.game.FlightGame? && g.m.status == Abandoned && g.m.revision == MAXIMUM_FLIGHT_CHESS_EVENTS)
  }

  lemma ReplayRevision<S(!new)>(reg: Registry<S>, g: File)
    requires Good(reg, g)
    ensures g.m.revision == |g.events|
  {
    ReplayFacts(reg, g);
    hide Replay, Reached;
  }

  lemma {:induction false} RowIsNobodys(events: seq<StoredEvent>, e: StoredEvent, actor: UserId, actionId: ActionId)
    requires FindAction(events, actor, actionId).None? && e.actor.None?
    ensures FindAction(events + [e], actor, actionId).None?
  {
    if events != [] {
      assert (events + [e])[1..] == events[1..] + [e];
      RowIsNobodys(events[1..], e, actor, actionId);
    }
  }

  lemma NewLimitIsSound(t: Tables, id: MatchId, row: LimitRow)
    requires id in t.matches
    requires var f := FileOf(t, id);
      && f.m.game == FlightGame && f.m.status == Abandoned && |f.players| == 2 && Member(f.players, row.actor)
      && row.revision == |f.events| == MAXIMUM_FLIGHT_CHESS_EVENTS
      && FindAction(f.events, row.actor, row.actionId).None?
      && var last := f.events[MAXIMUM_FLIGHT_CHESS_EVENTS - 1];
         last.kind == MatchAbandoned && last.revision == MAXIMUM_FLIGHT_CHESS_EVENTS && last.actionId.None? && last.actor.None?
    ensures LimitSound(t.(limits := t.limits[id := row]), id)
  {
    hide FindAction, SeatOf;
  }

  lemma LimitKeepsSound<S(!new)>(reg: Registry<S>, t: Tables, id: MatchId, row: LimitRow)
    requires Sound(reg, t) && id in t.matches && LimitSound(t.(limits := t.limits[id := row]), id)
    ensures Sound(reg, t.(limits := t.limits[id := row]))
  {
    hide MatchSound, LimitSound, Good, Selected;
    var after := t.(limits := t.limits[id := row]);
    forall other | other in after.matches ensures MatchSound(reg, after, other) {
      assert FileOf(after, other) == FileOf(t, other);
      assert SlotsOf(after, other) == SlotsOf(t, other);
      SameFileStaysSound(reg, t, after, other);
    }
    forall other | other in after.limits ensures LimitSound(after, other) {
      if other != id {
        LimitedIsOver(t, other);
        assert FileOf(after, other) == FileOf(t, other);
        SameLimitStaysSound(t, after, other);
      }
    }
  }

  /** A snapshot is what a rebuild of the stored rows gives. */
  ghost predicate Returns<S>(reg: Registry<S>, t: Tables, id: MatchId, snapshot: Snapshot<S>) {
    && id in t.matches && TwoPlayers(FileOf(t, id).players)
    && RebuildSnapshot(reg, t, id, FileOf(t, id)) == Ok(snapshot)
  }

  lemma FreshKeepsSound<S(!new)>(reg: Registry<S>, t: Tables, r: Request, die: int, now: int)
    requires Lawful(reg) && Sound(reg, t) && 1 <= die <= 6 && r.matchId in t.matches
    requires WellFormed(r.action) && GameOf(r.action) == t.matches[r.matchId].m.game
    requires var f := FileOf(t, r.matchId);
      && TwoPlayers(f.players) && Good(reg, f) && reg.configured(f.m.game, f.m.config).Some?
      && RebuildSnapshot(reg, t, r.matchId, f).Ok? && Replay(reg, f) == Ok(RebuildSnapshot(reg, t, r.matchId, f).value.game)
      && FindAction(f.events, r.actor, r.actionId).None?
    ensures var f := FileOf(t, r.matchId);
      var (reply, after) := Fresh(reg, RulesOf(reg, f), t, f, r, die, now);
      && reply != Err(Internal) && Sound(reg, after)
      && (reply.Ok? ==> Returns(reg, after, r.matchId, reply.value.1))
  {
    hide Sound, Lawful, Good, Decide, Replay, Write, WellFormed, GameOf, FindAction, RebuildSnapshot, SeatOf, Selected, Returns,
         AcceptsPreviousRevision;
    var f := FileOf(t, r.matchId);
    if f.m.status == Active && Member(f.players, r.actor) {
      DecisionIsGood(reg, f, r.actionId, r.actor, r.action, die, now);
      var d := Decide(RulesOf(reg, f), f, Replay(reg, f).value, r.actor, r.action, die);
      if d.Ok? {
        WriteKeepsSound(reg, t, r.matchId, d.value, r, now);
      }
    }
  }

  /** Every action request keeps the tables sound, never answers an internal error on a match
      that loads, and returns exactly what a rebuild of the new rows gives. */
  lemma ActKeepsSound<S(!new)>(reg: Registry<S>, t: Tables, r: Request, die: int, now: int)
    requires Lawful(reg) && Sound(reg, t) && 1 <= die <= 6
    ensures var (reply, after) := Act(reg, t, r, die, now);
      && Sound(reg, after)
      && (r.matchId in t.matches && Loads(FileOf(t, r.matchId)) ==> reply != Err(Internal))
      && (reply.Ok? ==> Returns(reg, after, r.matchId, reply.value.1))
  {
    hide Sound, Lawful, Good, Replay, Fresh, WellFormed, GameOf, FindAction, RebuildSnapshot, Selected, CommittedMatches, LimitEvent,
         SlotsComplete, TwoPlayers;
    if r.matchId in t.matches && r.expectedRevision >= 0 && WellFormed(r.action)
       && Loads(FileOf(t, r.matchId)) && GameOf(r.action) == t.matches[r.matchId].m.game {
      FilePlayers(reg, t, r.matchId);
      EarlierEventIsSafe(reg, t, r);
      var f := FileOf(t, r.matchId);
      if FindAction(f.events, r.actor, r.actionId).None? {
        FreshKeepsSound(reg, t, r, die, now);
      }
    }
  }
}
