/** Any sequence of the match service's operations, from any sound tables and for any lawful
    rules: the tables stay sound, nothing the service commits trips its own checks, matches
    only grow, and every action is committed exactly once. */
module MatchRuns {
  import opened Common
  import opened MatchModel
  import opened MatchTables
  import opened MatchFiles
  import opened MatchProofs
  import Rps

  // A sweep is one transaction a match: `AbandonOp` runs it undisturbed, `AbandonOneOp` is one of
  // its transactions, with anything in between.
  datatype Op =
    | CreateOp(game: GameId, initiator: UserId, opponent: UserId, config: Option<Rps.Format>, color: Color, id: MatchId, now: int)
    | ActOp(request: Request, die: int, now: int)
    | CancelOp(id: MatchId, actor: UserId, now: int)
    | AbandonOp(now: int)
    | AbandonOneOp(id: MatchId, cutoff: int, now: int)
    | PresenceOp(id: MatchId, user: UserId, online: bool, now: int)
    | TicketOp(id: MatchId, user: UserId, candidates: seq<Hash>, now: int)
    | ConnectOp(credential: Credential, candidates: seq<Hash>, now: int)
    | BootOp(now: int)
    | TransferOp(user: UserId, epoch: nat, now: int)

  function Failure<T>(r: Result<T, Error>): Option<Error> {
    if r.Err? then Some(r.error) else None
  }

  function Exec<S>(reg: Registry<S>, t: Tables, op: Op): (Option<Error>, Tables) {
    match op
    case CreateOp(game, initiator, opponent, config, color, id, now) =>
      var (r, after) := CreateMatch(reg, t, game, initiator, opponent, config, color, id, now); (Failure(r), after)
    case ActOp(request, die, now) => var (r, after) := Act(reg, t, request, die, now); (Failure(r), after)
    case CancelOp(id, actor, now) => var (r, after) := Cancel(reg, t, id, actor, now); (Failure(r), after)
    case AbandonOp(now) => var (_, error, after) := AbandonExpired(reg, t, now); (error, after)
    case AbandonOneOp(id, cutoff, now) => var (r, after) := AbandonIfExpired(reg, t, id, cutoff, now); (Failure(r), after)
    case PresenceOp(id, user, online, now) => var (r, after) := SetPresence(t, id, user, online, now); (Failure(r), after)
    case TicketOp(id, user, candidates, now) => var (r, after) := CreateTicket(reg, t, id, user, candidates, now); (Failure(r), after)
    case ConnectOp(credential, candidates, now) => var (r, after) := Connect(reg, t, credential, candidates, now); (Failure(r), after)
    case BootOp(now) => (None, MarkOffline(t, now))
    case TransferOp(user, epoch, _) => (None, Transfer(t, user, epoch))
  }

  function Run<S>(reg: Registry<S>, t: Tables, ops: seq<Op>): Tables {
    if ops == [] then t else Exec(reg, Run(reg, t, ops[..|ops| - 1]), ops[|ops| - 1]).1
  }

  /** The only thing asked of an operation: the random source draws a die between one and six. */
  predicate FairDie(op: Op) {
    op.ActOp? ==> 1 <= op.die <= 6
  }

  function NoTables(users: map<UserId, User>): Tables {
    Tables(users, map[], map[], map[], map[], map[], map[], map[])
  }

  // -------------------------------------------------------------------- every run is sound

  lemma {:induction false} AbandonEachKeepsSound<S(!new)>(reg: Registry<S>, t: Tables, ids: seq<MatchId>, cutoff: int, now: int)
    requires Lawful(reg) && Sound(reg, t)
    ensures Sound(reg, AbandonEach(reg, t, ids, cutoff, now).2)
  {
    hide Sound, Lawful, AbandonIfExpired;
    if ids != [] {
      AbandonEachKeepsSound(reg, t, ids[..|ids| - 1], cutoff, now);
      AbandonKeepsSound(reg, AbandonEach(reg, t, ids[..|ids| - 1], cutoff, now).2, ids[|ids| - 1], cutoff, now);
    }
  }

  lemma OpKeepsSound<S(!new)>(reg: Registry<S>, t: Tables, op: Op)
    requires Lawful(reg) && Sound(reg, t) && FairDie(op)
    ensures Sound(reg, Exec(reg, t, op).1)
  {
    hide Sound, Lawful, Act, CreateMatch, Cancel, AbandonEach, AbandonIfExpired, SetPresence, CreateTicket, Connect, MarkOffline, Transfer;
    match op
    case CreateOp(game, initiator, opponent, config, color, id, now) =>
      CreateKeepsSound(reg, t, game, initiator, opponent, config, color, id, now);
    case ActOp(request, die, now) => ActKeepsSound(reg, t, request, die, now);
    case CancelOp(id, actor, now) => CancelKeepsSound(reg, t, id, actor, now);
    case AbandonOp(now) =>
      var cutoff := now - FULLY_OFFLINE_ABANDON_AFTER;
      AbandonEachKeepsSound(reg, t, Sorted(Due(t, cutoff)), cutoff, now);
    case AbandonOneOp(id, cutoff, now) => AbandonKeepsSound(reg, t, id, cutoff, now);
    case PresenceOp(id, user, online, now) => PresenceKeepsSound(reg, t, id, user, online, now);
    case TicketOp(id, user, candidates, now) => TicketKeepsSound(reg, t, id, user, candidates, now);
    case ConnectOp(credential, candidates, now) => ConnectKeepsSound(reg, t, credential, candidates, now);
    case BootOp(now) => MarkOfflineKeepsSound(reg, t, now);
    case TransferOp(user, epoch, _) => TransferKeepsSound(reg, t, user, epoch);
  }

  /** From sound tables, every run of the service's operations leads to sound tables. */
  lemma {:induction false} RunKeepsSound<S(!new)>(reg: Registry<S>, t: Tables, ops: seq<Op>)
    requires Lawful(reg) && Sound(reg, t) && forall i :: 0 <= i < |ops| ==> FairDie(ops[i])
    ensures Sound(reg, Run(reg, t, ops))
  {
    hide Sound, Lawful, Exec, FairDie;
    if ops != [] {
      RunKeepsSound(reg, t, ops[..|ops| - 1]);
      OpKeepsSound(reg, Run(reg, t, ops[..|ops| - 1]), ops[|ops| - 1]);
    }
  }

  lemma EmptyIsSound<S(!new)>(reg: Registry<S>, users: map<UserId, User>)
    ensures Sound(reg, NoTables(users)) && Clocked(NoTables(users))
  {
    hide MatchSound, LimitSound;
  }

  /** What sound tables say of any stored match: it is active exactly when both its players'
      slots point to it, no other slot ever does, a match that is over has no launch ticket and
      no resume token, and an active match has room for at least one more event. */
  lemma ActiveExactlyWhileSeated<S(!new)>(reg: Registry<S>, t: Tables, id: MatchId)
    requires Lawful(reg) && Sound(reg, t) && id in t.matches && reg.single(t.matches[id].m.game)
    ensures var f := FileOf(t, id);
      var seats := {(f.m.game, f.players[0].user), (f.m.game, f.players[1].user)};
      && |f.players| == 2 && f.players[0].user != f.players[1].user
      && (f.m.status == Active <==> forall k :: k in seats ==> k in t.slots && t.slots[k] == id)
      && (forall k :: k in t.slots && t.slots[k] == id ==> k in seats && f.m.status == Active)
      && (f.m.status != Active ==>
           (forall h :: h in t.tickets ==> t.tickets[h].matchId != id) && (forall h :: h in t.tokens ==> t.tokens[h].matchId != id))
      && f.m.revision == |f.events| <= MaximumMatchEventsFor(f.m.game)
      && (f.m.status == Active ==> f.m.revision < MaximumMatchEventsFor(f.m.game))
  {
    hide Sound, Replay, RebuildSnapshot, FileOf, SlotsComplete, Good, ForeignKeys, CredentialsActive;
    GameOfFile(t, id);
    FilePlayers(reg, t, id);
    Budget(reg, FileOf(t, id));
    assert reg.single(FileOf(t, id).m.game);
    SeatedExactly(t, id, FileOf(t, id), true);
    SoundKeys(reg, t);
    if t.matches[id].m.status != Active {
      CredentialsFollowStatus(t, id);
    }
  }

  lemma GameOfFile(t: Tables, id: MatchId)
    requires id in t.matches
    ensures FileOf(t, id).m == t.matches[id].m
  {
  }

  lemma SoundKeys<S(!new)>(reg: Registry<S>, t: Tables)
    requires Sound(reg, t)
    ensures ForeignKeys(t) && CredentialsActive(t)
  {
    hide MatchSound, LimitSound, ForeignKeys, CredentialsActive;
  }

  lemma Budget<S(!new)>(reg: Registry<S>, f: File)
    requires Good(reg, f)
    ensures f.m.revision == |f.events| <= MaximumMatchEventsFor(f.m.game)
    ensures f.m.status == Active ==> f.m.revision < MaximumMatchEventsFor(f.m.game)
  {
    ReplayFacts(reg, f);
    hide Replay, Reached, ScanTo, LifecycleFits, SummaryFits, ResultBelongs, MaximumMatchEventsFor;
  }

  lemma SeatedExactly(t: Tables, id: MatchId, f: File, single: bool)
    requires TwoPlayers(f.players) && single && SlotsComplete(t, id, f, f.m.status == Active && single)
    ensures var seats := {(f.m.game, f.players[0].user), (f.m.game, f.players[1].user)};
      && (f.m.status == Active <==> forall k :: k in seats ==> k in t.slots && t.slots[k] == id)
      && (forall k :: k in t.slots && t.slots[k] == id ==> k in seats && f.m.status == Active)
  {
    var seats := {(f.m.game, f.players[0].user), (f.m.game, f.players[1].user)};
    forall k | k in t.slots && t.slots[k] == id ensures k in seats && f.m.status == Active {
      assert k in SlotsOf(t, id);
    }
    if f.m.status == Active {
      assert SlotsOf(t, id) == seats;
      forall k | k in seats ensures k in t.slots && t.slots[k] == id {
        assert k in SlotsOf(t, id);
      }
    } else {
      assert (f.m.game, f.players[0].user) in seats;
    }
  }

  lemma CredentialsFollowStatus(t: Tables, id: MatchId)
    requires ForeignKeys(t) && CredentialsActive(t) && id in t.matches && t.matches[id].m.status != Active
    ensures (forall h :: h in t.tickets ==> t.tickets[h].matchId != id) && (forall h :: h in t.tokens ==> t.tokens[h].matchId != id)
  {
  }

  // ------------------------------------------------------ nothing trips the service's checks

  /** No transaction is dated before the creation of a stored match, the new identifier is
      unused, and one of the drawn credential hashes is free. */
  ghost predicate Supplied(t: Tables, op: Op) {
    && FairDie(op) && (forall id :: id in t.matches ==> t.matches[id].m.createdAt <= op.now)
    && match op
       case CreateOp(_, _, _, _, _, id, _) => id !in t.matches
       case TicketOp(_, _, candidates, _) => FirstFree(t.tickets.Keys, candidates).Some?
       case ConnectOp(c, candidates, _) => c.LaunchTicket? ==> FirstFree(t.tokens.Keys, candidates).Some?
       case _ => true
  }

  lemma LoadsWhenClocked<S(!new)>(reg: Registry<S>, t: Tables, id: MatchId)
    requires Sound(reg, t) && Clocked(t) && id in t.matches
    ensures Load(t, id) == Ok(FileOf(t, id)) && Loads(FileOf(t, id))
  {
    hide MatchSound, LimitSound, Good, Replay, RebuildSnapshot, SlotsComplete;
    FilePlayers(reg, t, id);
  }

  /** What an operation at `now` may do to a stored match: leave its file alone, or commit to it,
      which needs the file to load or, to cancel, a log without a move. */
  ghost predicate Stamped(t: Tables, after: Tables, id: MatchId, now: int)
    requires id in t.matches && id in after.matches
  {
    var f, g := FileOf(t, id), FileOf(after, id);
    && (if g.events == f.events then g == f
        else g.m.createdAt == f.m.createdAt && g.m.updatedAt == now && (Loads(f) || !HasGameplay(f.events)))
    && (!Loads(f) && HasGameplay(f.events) && t.matches[id].offlineSince.Some? ==> after.matches[id] == t.matches[id])
  }

  ghost predicate ClockKept(t: Tables, after: Tables, now: int) {
    forall id :: id in after.matches ==>
      if id in t.matches then Stamped(t, after, id, now)
      else after.matches[id].m.createdAt == after.matches[id].m.updatedAt == now
  }

  lemma StampedClock(t: Tables, after: Tables, id: MatchId, now: int)
    requires id in t.matches && id in after.matches && Stamped(t, after, id, now)
    ensures after.matches[id].m.createdAt == t.matches[id].m.createdAt
    ensures after.matches[id].m.updatedAt == t.matches[id].m.updatedAt || after.matches[id].m.updatedAt == now
  {
    hide Loads, HasGameplay, Selected;
  }

  /** Two operations at the same moment, one after the other. */
  lemma ClockKeptTwice(t: Tables, middle: Tables, after: Tables, now: int)
    requires Kept(t, middle) && Kept(middle, after) && ClockKept(t, middle, now) && ClockKept(middle, after, now)
    ensures ClockKept(t, after, now)
  {
    hide FileOf, Loads, HasGameplay;
    forall id | id in after.matches && id in t.matches ensures Stamped(t, after, id, now) {
      assert MatchKept(t, middle, id) && MatchKept(middle, after, id);
      assert Stamped(t, middle, id, now) && Stamped(middle, after, id, now);
      StampedTwice(t, middle, after, id, now);
    }
    forall id | id in after.matches && id !in t.matches ensures after.matches[id].m.createdAt == after.matches[id].m.updatedAt == now {
      if id in middle.matches {
        StampedClock(middle, after, id, now);
      }
    }
    hide Stamped;
  }

  lemma StampedTwice(t: Tables, middle: Tables, after: Tables, id: MatchId, now: int)
    requires id in t.matches && id in middle.matches && id in after.matches
    requires MatchKept(t, middle, id) && MatchKept(middle, after, id) && Stamped(t, middle, id, now) && Stamped(middle, after, id, now)
    ensures Stamped(t, after, id, now)
  {
    hide FileOf, Loads, HasGameplay;
    FileColumns(t, id);
    FileColumns(middle, id);
  }

  lemma FileColumns(t: Tables, id: MatchId)
    requires id in t.matches
    ensures FileOf(t, id).m == t.matches[id].m
  {
  }

  lemma ClockKeptMeansClocked(t: Tables, after: Tables, now: int)
    requires Clocked(t) && ClockKept(t, after, now) && forall id :: id in t.matches ==> t.matches[id].m.createdAt <= now
    ensures Clocked(after)
  {
    hide Stamped;
    forall id | id in after.matches ensures after.matches[id].m.createdAt <= after.matches[id].m.updatedAt {
      if id in t.matches {
        StampedClock(t, after, id, now);
      }
    }
  }

  // ------------------------------------------------------------------ matches only grow

  /** Everything a later reader may rely on. */
  ghost predicate MatchKept(t: Tables, after: Tables, id: MatchId)
    requires id in t.matches
  {
    && id in after.matches
    && var f, g := FileOf(t, id), FileOf(after, id);
      && g.players == f.players && g.m.game == f.m.game && g.m.config == f.m.config && g.m.createdAt == f.m.createdAt
      && f.events <= g.events && (f.m.status != Active ==> g == f)
      && (id in t.limits ==> id in after.limits && after.limits[id] == t.limits[id])
  }

  ghost predicate Kept(t: Tables, after: Tables) {
    forall id :: id in t.matches ==> MatchKept(t, after, id)
  }

  lemma KeptIsTransitive(t: Tables, middle: Tables, after: Tables)
    requires Kept(t, middle) && Kept(middle, after)
    ensures Kept(t, after)
  {
    hide FileOf;
    forall id | id in t.matches ensures MatchKept(t, after, id) {
      assert MatchKept(t, middle, id) && MatchKept(middle, after, id);
    }
  }

  lemma KeptByItself(t: Tables)
    ensures Kept(t, t)
  {
  }

  lemma KeptClockByItself(t: Tables, now: int)
    ensures ClockKept(t, t, now)
  {
    hide FileOf, Loads, HasGameplay;
  }

  lemma CommitKeeps(t: Tables, id: MatchId, kind: EventKind, actionId: Option<ActionId>, actor: Option<UserId>, ending: Option<Ending>, now: int,
                    offlineSince: Option<int>)
    requires id in t.matches && t.matches[id].m.status == Active && |FileOf(t, id).players| == 2
    requires ending.Some? ==> ending.value.status != Active
    requires Loads(FileOf(t, id)) || !HasGameplay(FileOf(t, id).events)
    ensures var f := FileOf(t, id);
      var g := Extended(f, kind, actionId, actor, ending, now);
      var after := Committed(t, id, f, g, offlineSince);
      Kept(t, after) && ClockKept(t, after, now) && after.limits == t.limits
      && after.matches.Keys == t.matches.Keys && FileOf(after, id) == g
  {
    hide Committed;
    var f := FileOf(t, id);
    var g := Extended(f, kind, actionId, actor, ending, now);
    CommittedColumns(t, id, f, g, offlineSince);
    var after := Committed(t, id, f, g, offlineSince);
    forall other | other in t.matches ensures MatchKept(t, after, other) && Stamped(t, after, other, now) {
      FileAfterCommit(t, id, f, g, offlineSince, other);
      hide FileOf, Loads, HasGameplay;
    }
    FileAfterCommit(t, id, f, g, offlineSince, id);
    hide MatchKept, Stamped, Loads, HasGameplay;
  }

  lemma CreateKeeps<S(!new)>(reg: Registry<S>, t: Tables, game: GameId, initiator: UserId, opponent: UserId, config: Option<Rps.Format>,
                             color: Color, id: MatchId, now: int)
    requires ForeignKeys(t)
    ensures var after := CreateMatch(reg, t, game, initiator, opponent, config, color, id, now).1; Kept(t, after) && ClockKept(t, after, now)
  {
    hide Enabled, FileOf, SlotsOf, ForeignKeys, Kept;
    KeptByItself(t);
    var (r, after) := CreateMatch(reg, t, game, initiator, opponent, config, color, id, now);
    if r.Ok? {
      InsertionKeeps(t, after, id, after.matches[id], after.players[id], now);
    }
  }

  lemma InsertionKeeps(t: Tables, after: Tables, id: MatchId, row: Row, players: seq<Player>, now: int)
    requires ForeignKeys(t) && Inserted(t, after, id, row, players) && row.m.createdAt == row.m.updatedAt == now
    ensures Kept(t, after) && ClockKept(t, after, now)
  {
    hide FileOf, SlotsOf, ForeignKeys;
    forall other | other in t.matches ensures MatchKept(t, after, other) && Stamped(t, after, other, now) {
      OthersAfterCreate(t, after, id, row, players, other);
    }
    hide MatchKept, Stamped;
  }

  lemma CancelKeeps<S(!new)>(reg: Registry<S>, t: Tables, id: MatchId, actor: UserId, now: int)
    ensures Kept(t, Cancel(reg, t, id, actor, now).1) && ClockKept(t, Cancel(reg, t, id, actor, now).1, now)
  {
    KeptByItself(t);
    KeptClockByItself(t, now);
    hide Kept, ClockKept, Committed, HasGameplay, SlotsComplete, SeatOf, Selected, Loads;
    var r := Cancel(reg, t, id, actor, now);
    if r.0.Ok? {
      CommitKeeps(t, id, MatchCancelled, None, Some(actor), Some(Ending(Cancelled, None, None)), now, t.matches[id].offlineSince);
    }
  }

  lemma AbandonKeeps<S(!new)>(reg: Registry<S>, t: Tables, id: MatchId, cutoff: int, now: int)
    ensures Kept(t, AbandonIfExpired(reg, t, id, cutoff, now).1) && ClockKept(t, AbandonIfExpired(reg, t, id, cutoff, now).1, now)
    ensures AbandonIfExpired(reg, t, id, cutoff, now).1.matches.Keys == t.matches.Keys
  {
    KeptByItself(t);
    KeptClockByItself(t, now);
    hide Kept, ClockKept, Committed, RebuildSnapshot, Selected, Loads, HasGameplay;
    var r := AbandonIfExpired(reg, t, id, cutoff, now);
    if r.0.Ok? && r.0.value.Some? {
      CommitKeeps(t, id, MatchAbandoned, None, None, Some(Ending(Abandoned, None, None)), now, None);
    }
  }

  lemma WriteKeeps<S(!new)>(reg: Registry<S>, t: Tables, id: MatchId, d: Decision<S>, r: Request, now: int)
    requires id in t.matches && TwoPlayers(FileOf(t, id).players) && t.matches[id].m.status == Active
    requires d.ending.Some? ==> d.ending.value.status != Active
    requires Loads(FileOf(t, id))
    ensures var after := Write(reg, t, id, FileOf(t, id), d, r, now).1; Kept(t, after) && ClockKept(t, after, now)
  {
    KeptByItself(t);
    KeptClockByItself(t, now);
    hide Committed, SlotsComplete, Selected, Loads, HasGameplay;
    var system := d.kind.MatchAbandoned?;
    var w := Write(reg, t, id, FileOf(t, id), d, r, now);
    if w.0.Ok? {
      var actionId, actor := if system then None else Some(r.actionId), if system then None else Some(r.actor);
      var offlineSince := if d.ending.Some? then None else t.matches[id].offlineSince;
      CommitKeeps(t, id, d.kind, actionId, actor, d.ending, now, offlineSince);
      var f := FileOf(t, id);
      var committed := Committed(t, id, f, Extended(f, d.kind, actionId, actor, d.ending, now), offlineSince);
      forall other | other in t.matches ensures MatchKept(t, w.1, other) && Stamped(t, w.1, other, now) {
        assert MatchKept(t, committed, other) && Stamped(t, committed, other, now);
        assert FileOf(w.1, other) == FileOf(committed, other);
      }
      hide MatchKept, Stamped;
    }
  }

  lemma DecidedEndingIsOver<S(!new)>(rules: Rules<S>, f: File, current: GameSnapshot<S>, actor: UserId, action: Action, die: int)
    requires TwoPlayers(f.players) && Member(f.players, actor) && Decide(rules, f, current, actor, action, die).Ok?
    ensures var d := Decide(rules, f, current, actor, action, die).value; d.ending.Some? ==> d.ending.value.status != Active
  {
    hide Produced, EndingFits, OnTurn, HasRoom, SafeError, SeatOf;
  }

  lemma ActKeeps<S(!new)>(reg: Registry<S>, t: Tables, r: Request, die: int, now: int)
    ensures Kept(t, Act(reg, t, r, die, now).1) && ClockKept(t, Act(reg, t, r, die, now).1, now)
  {
    KeptByItself(t);
    KeptClockByItself(t, now);
    hide Kept, ClockKept, RebuildSnapshot, EarlierEvent, Decide, Write, WellFormed, GameOf, Selected, AcceptsPreviousRevision, SeatOf, ValidSession;
    var after := Act(reg, t, r, die, now).1;
    if after != t {
      var f := Load(t, r.matchId).value;
      var rules := reg.configured(f.m.game, f.m.config).value;
      var current := RebuildSnapshot(reg, t, r.matchId, f).value.game;
      DecidedEndingIsOver(rules, f, current, r.actor, r.action, die);
      var d := Decide(rules, f, current, r.actor, r.action, die).value;
      WriteKeeps(reg, t, r.matchId, d, r, now);
    }
  }

  lemma SameFilesKept(t: Tables, after: Tables, now: int)
    requires after.matches.Keys == t.matches.Keys && forall id :: id in t.matches ==> after.matches[id].m == t.matches[id].m
    requires after.players == t.players && after.events == t.events && after.limits == t.limits
    requires forall id :: id in t.matches && !Loads(FileOf(t, id)) && t.matches[id].offlineSince.Some? ==> after.matches[id] == t.matches[id]
    ensures Kept(t, after) && ClockKept(t, after, now)
  {
    hide Loads, HasGameplay;
    forall id | id in t.matches ensures MatchKept(t, after, id) && Stamped(t, after, id, now) {
      assert FileOf(after, id) == FileOf(t, id);
    }
    hide MatchKept, Stamped;
  }

  lemma PresenceKeeps(t: Tables, id: MatchId, user: UserId, online: bool, now: int)
    ensures var after := SetPresence(t, id, user, online, now).1; Kept(t, after) && ClockKept(t, after, now)
  {
    hide SeatOf, Kept, ClockKept, Loads;
    var after := SetPresence(t, id, user, online, now).1;
    if after == t {
      SameFilesKept(t, t, now);
    } else {
      var row := after.matches[id];
      assert after == t.(matches := t.matches[id := row]) && row.m == t.matches[id].m;
      hide SetPresence;
      SameFilesKept(t, after, now);
    }
  }

  lemma BootKeeps(t: Tables, now: int)
    ensures Kept(t, MarkOffline(t, now)) && ClockKept(t, MarkOffline(t, now), now)
  {
    hide Kept, ClockKept, Loads;
    SameFilesKept(t, MarkOffline(t, now), now);
  }

  lemma TicketKeeps<S(!new)>(reg: Registry<S>, t: Tables, id: MatchId, user: UserId, candidates: seq<Hash>, now: int)
    ensures var after := CreateTicket(reg, t, id, user, candidates, now).1; Kept(t, after) && ClockKept(t, after, now)
  {
    hide RebuildSnapshot, Load, Loads, FirstFree, SeatOf, Kept, ClockKept;
    var after := CreateTicket(reg, t, id, user, candidates, now).1;
    assert after.matches == t.matches && after.players == t.players && after.events == t.events && after.limits == t.limits;
    hide CreateTicket;
    SameFilesKept(t, after, now);
  }

  lemma ConnectKeeps<S(!new)>(reg: Registry<S>, t: Tables, c: Credential, candidates: seq<Hash>, now: int)
    ensures var after := Connect(reg, t, c, candidates, now).1; Kept(t, after) && ClockKept(t, after, now)
  {
    hide Connect, Kept, ClockKept, Loads;
    SameFilesKept(t, Connect(reg, t, c, candidates, now).1, now);
  }

  lemma TransferWritesAccounts(t: Tables, user: UserId, epoch: nat)
    ensures var after := Transfer(t, user, epoch);
      after.matches == t.matches && after.players == t.players && after.events == t.events && after.limits == t.limits
  {
  }

  lemma {:induction false} AbandonEachKeeps<S(!new)>(reg: Registry<S>, t: Tables, ids: seq<MatchId>, cutoff: int, now: int)
    ensures var after := AbandonEach(reg, t, ids, cutoff, now).2; Kept(t, after) && ClockKept(t, after, now)
    ensures AbandonEach(reg, t, ids, cutoff, now).2.matches.Keys == t.matches.Keys
  {
    KeptByItself(t);
    KeptClockByItself(t, now);
    hide Kept, ClockKept, AbandonIfExpired;
    if ids != [] {
      var before := AbandonEach(reg, t, ids[..|ids| - 1], cutoff, now).2;
      AbandonEachKeeps(reg, t, ids[..|ids| - 1], cutoff, now);
      AbandonKeeps(reg, before, ids[|ids| - 1], cutoff, now);
      KeptIsTransitive(t, before, AbandonIfExpired(reg, before, ids[|ids| - 1], cutoff, now).1);
      ClockKeptTwice(t, before, AbandonIfExpired(reg, before, ids[|ids| - 1], cutoff, now).1, now);
    }
  }

  lemma OpKeeps<S(!new)>(reg: Registry<S>, t: Tables, op: Op)
    requires ForeignKeys(t)
    ensures Kept(t, Exec(reg, t, op).1) && ClockKept(t, Exec(reg, t, op).1, op.now)
  {
    hide Kept, ClockKept, Act, CreateMatch, Cancel, AbandonEach, AbandonIfExpired, SetPresence, CreateTicket, Connect, MarkOffline, Transfer;
    match op
    case CreateOp(game, initiator, opponent, config, color, id, now) =>
      CreateKeeps(reg, t, game, initiator, opponent, config, color, id, now);
    case ActOp(request, die, now) => ActKeeps(reg, t, request, die, now);
    case CancelOp(id, actor, now) => CancelKeeps(reg, t, id, actor, now);
    case AbandonOp(now) =>
      var cutoff := now - FULLY_OFFLINE_ABANDON_AFTER;
      AbandonEachKeeps(reg, t, Sorted(Due(t, cutoff)), cutoff, now);
    case AbandonOneOp(id, cutoff, now) => AbandonKeeps(reg, t, id, cutoff, now);
    case PresenceOp(id, user, online, now) => PresenceKeeps(t, id, user, online, now);
    case TicketOp(id, user, candidates, now) => TicketKeeps(reg, t, id, user, candidates, now);
    case ConnectOp(c, candidates, now) => ConnectKeeps(reg, t, c, candidates, now);
    case BootOp(now) => BootKeeps(t, now);
    case TransferOp(user, epoch, now) =>
      TransferWritesAccounts(t, user, epoch);
      SameFilesKept(t, Transfer(t, user, epoch), now);
  }

  /** Over any run, a stored match keeps its players, its game and its log so far, and a match
      that is over never changes again. */
  lemma {:induction false} RunKeeps<S(!new)>(reg: Registry<S>, t: Tables, ops: seq<Op>)
    requires Lawful(reg) && Sound(reg, t) && forall i :: 0 <= i < |ops| ==> FairDie(ops[i])
    ensures Kept(t, Run(reg, t, ops))
  {
    KeptByItself(t);
    hide Kept, Lawful, Exec, FairDie, MatchSound, LimitSound, ClockKept;
    if ops != [] {
      var before := Run(reg, t, ops[..|ops| - 1]);
      RunKeeps(reg, t, ops[..|ops| - 1]);
      RunKeepsSound(reg, t, ops[..|ops| - 1]);
      OpKeeps(reg, before, ops[|ops| - 1]);
      KeptIsTransitive(t, before, Run(reg, t, ops));
    }
  }

  // ---------------------------------------------------------------- no internal error

  lemma {:induction false} AbandonEachSucceeds<S(!new)>(reg: Registry<S>, t: Tables, ids: seq<MatchId>, cutoff: int, now: int)
    requires Lawful(reg) && Sound(reg, t) && Clocked(t) && forall id :: id in t.matches ==> t.matches[id].m.createdAt <= now
    ensures AbandonEach(reg, t, ids, cutoff, now).1.None?
  {
    hide Sound, Lawful, AbandonIfExpired, Kept;
    if ids != [] {
      var before := AbandonEach(reg, t, ids[..|ids| - 1], cutoff, now).2;
      var id := ids[|ids| - 1];
      AbandonEachSucceeds(reg, t, ids[..|ids| - 1], cutoff, now);
      AbandonEachKeepsSound(reg, t, ids[..|ids| - 1], cutoff, now);
      AbandonEachKeeps(reg, t, ids[..|ids| - 1], cutoff, now);
      ClockKeptMeansClocked(t, before, now);
      AbandonSucceeds(reg, before, id, cutoff, now);
    }
  }

  lemma AbandonSucceeds<S(!new)>(reg: Registry<S>, t: Tables, id: MatchId, cutoff: int, now: int)
    requires Lawful(reg) && Sound(reg, t) && Clocked(t)
    ensures AbandonIfExpired(reg, t, id, cutoff, now).0.Ok?
  {
    hide Sound, Lawful, Clocked, FileOf, Good, Replay, Committed, RebuildSnapshot, Loads, SlotsComplete;
    if id in t.matches {
      LoadsWhenClocked(reg, t, id);
      FilePlayers(reg, t, id);
    }
  }

  lemma StaysClocked<S(!new)>(reg: Registry<S>, t: Tables, op: Op)
    requires Sound(reg, t) && Clocked(t) && Supplied(t, op)
    ensures Clocked(Exec(reg, t, op).1)
  {
    SoundKeys(reg, t);
    hide Sound, Kept, ForeignKeys, Exec, FirstFree, Clocked, ClockKept;
    OpKeeps(reg, t, op);
    ClockKeptMeansClocked(t, Exec(reg, t, op).1, op.now);
  }

  lemma CreateSucceeds<S(!new)>(reg: Registry<S>, t: Tables, game: GameId, initiator: UserId, opponent: UserId, config: Option<Rps.Format>,
                                color: Color, id: MatchId, now: int)
    requires ForeignKeys(t) && id !in t.matches
    ensures CreateMatch(reg, t, game, initiator, opponent, config, color, id, now).0 != Err(Internal)
  {
    hide Enabled;
  }

  lemma ActSucceeds<S(!new)>(reg: Registry<S>, t: Tables, r: Request, die: int, now: int)
    requires Lawful(reg) && Sound(reg, t) && Clocked(t) && 1 <= die <= 6
    ensures Act(reg, t, r, die, now).0 != Err(Internal)
  {
    hide Sound, Lawful, Clocked, Act, Loads, FileOf;
    ActKeepsSound(reg, t, r, die, now);
    if r.matchId in t.matches {
      LoadsWhenClocked(reg, t, r.matchId);
    } else {
      UnknownMatch(reg, t, r, die, now);
    }
  }

  lemma PresenceSucceeds<S(!new)>(reg: Registry<S>, t: Tables, id: MatchId, user: UserId, online: bool, now: int)
    requires Sound(reg, t) && Clocked(t)
    ensures SetPresence(t, id, user, online, now).0 != Err(Internal)
  {
    hide Sound, Clocked, Loads, FileOf, SeatOf;
    if id in t.matches {
      LoadsWhenClocked(reg, t, id);
    }
  }

  /** On sound tables whose matches load, no operation ever answers an internal error, and the
      matches it leaves still load. */
  lemma NeverInternal<S(!new)>(reg: Registry<S>, t: Tables, op: Op)
    requires Lawful(reg) && Sound(reg, t) && Clocked(t) && Supplied(t, op)
    ensures Exec(reg, t, op).0 != Some(Internal)
    ensures Clocked(Exec(reg, t, op).1)
  {
    hide Sound, Lawful, ForeignKeys, Clocked, Exec, Supplied;
    StaysClocked(reg, t, op);
    if op.CreateOp? || op.ActOp? || op.CancelOp? || op.AbandonOp? || op.AbandonOneOp? {
      LifecycleNeverInternal(reg, t, op);
    } else {
      SideNeverInternal(reg, t, op);
    }
  }

  lemma LifecycleNeverInternal<S(!new)>(reg: Registry<S>, t: Tables, op: Op)
    requires Lawful(reg) && Sound(reg, t) && Clocked(t) && Supplied(t, op)
    requires op.CreateOp? || op.ActOp? || op.CancelOp? || op.AbandonOp? || op.AbandonOneOp?
    ensures Exec(reg, t, op).0 != Some(Internal)
  {
    hide Sound, Lawful, ForeignKeys, Clocked, CreateMatch, Act, Cancel, AbandonEach, AbandonIfExpired, Sorted, Due, FirstFree;
    SoundKeys(reg, t);
    match op
    case CreateOp(game, initiator, opponent, config, color, id, now) =>
      CreateSucceeds(reg, t, game, initiator, opponent, config, color, id, now);
    case ActOp(request, die, now) => ActSucceeds(reg, t, request, die, now);
    case CancelOp(id, actor, now) => CancelKeepsSound(reg, t, id, actor, now);
    case AbandonOp(now) =>
      var cutoff := now - FULLY_OFFLINE_ABANDON_AFTER;
      AbandonEachSucceeds(reg, t, Sorted(Due(t, cutoff)), cutoff, now);
    case AbandonOneOp(id, cutoff, now) => AbandonSucceeds(reg, t, id, cutoff, now);
  }

  lemma SideNeverInternal<S(!new)>(reg: Registry<S>, t: Tables, op: Op)
    requires Lawful(reg) && Sound(reg, t) && Clocked(t) && Supplied(t, op)
    requires op.PresenceOp? || op.TicketOp? || op.ConnectOp? || op.BootOp? || op.TransferOp?
    ensures Exec(reg, t, op).0 != Some(Internal)
  {
    hide Sound, Lawful, Clocked, SetPresence, CreateTicket, Connect, MarkOffline, FirstFree;
    match op
    case PresenceOp(id, user, online, now) => PresenceSucceeds(reg, t, id, user, online, now);
    case TicketOp(id, user, candidates, now) => TicketSucceeds(reg, t, id, user, candidates, now);
    case ConnectOp(c, candidates, now) => ConnectSucceeds(reg, t, c, candidates, now);
    case BootOp(_) =>
    case TransferOp(_, _, _) =>
  }

  lemma UnknownMatch<S(!new)>(reg: Registry<S>, t: Tables, r: Request, die: int, now: int)
    requires r.matchId !in t.matches
    ensures Act(reg, t, r, die, now).0 != Err(Internal)
  {
  }

  lemma TicketSucceeds<S(!new)>(reg: Registry<S>, t: Tables, id: MatchId, user: UserId, candidates: seq<Hash>, now: int)
    requires Sound(reg, t) && Clocked(t) && FirstFree(t.tickets.Keys, candidates).Some?
    ensures CreateTicket(reg, t, id, user, candidates, now).0 != Err(Internal)
  {
    hide Sound, Clocked, RebuildSnapshot, FileOf, Loads, FirstFree, SeatOf, Good, Replay, SlotsComplete;
    if id in t.matches {
      LoadsWhenClocked(reg, t, id);
      FilePlayers(reg, t, id);
    }
  }

  lemma ConnectSucceeds<S(!new)>(reg: Registry<S>, t: Tables, c: Credential, candidates: seq<Hash>, now: int)
    requires Sound(reg, t) && Clocked(t) && (c.LaunchTicket? ==> FirstFree(t.tokens.Keys, candidates).Some?)
    ensures Connect(reg, t, c, candidates, now).0 != Err(Internal)
  {
    hide Sound, Clocked, RebuildSnapshot, FileOf, Loads, FirstFree, SeatOf, Good, Replay, SlotsComplete, Enabled;
    var presented := Presented(t, c, now);
    if presented.Some? && presented.value.0 in t.matches {
      LoadsWhenClocked(reg, t, presented.value.0);
      FilePlayers(reg, t, presented.value.0);
    }
  }

  /** The whole story from an empty database: whatever happens, every stored match loads, and
      rebuilds from its own log without an internal error. */
  lemma {:induction false} EveryMatchRebuilds<S(!new)>(reg: Registry<S>, users: map<UserId, User>, ops: seq<Op>, id: MatchId)
    requires Lawful(reg)
    requires forall i :: 0 <= i < |ops| ==> Supplied(Run(reg, NoTables(users), ops[..i]), ops[i])
    ensures var t := Run(reg, NoTables(users), ops);
      && Sound(reg, t) && Clocked(t)
      && (id in t.matches ==> SnapshotOf(reg, t, id).Ok? && SnapshotOf(reg, t, id).value.m == t.matches[id].m)
  {
    var t := Run(reg, NoTables(users), ops);
    RunStaysClocked(reg, users, ops);
    if id in t.matches {
      LoadsWhenClocked(reg, t, id);
      FilePlayers(reg, t, id);
    }
    hide Sound, Clocked, Good, Replay, SlotsComplete, RebuildSnapshot, Loads, Supplied, Run;
  }

  lemma {:induction false} RunStaysClocked<S(!new)>(reg: Registry<S>, users: map<UserId, User>, ops: seq<Op>)
    requires Lawful(reg)
    requires forall i :: 0 <= i < |ops| ==> Supplied(Run(reg, NoTables(users), ops[..i]), ops[i])
    ensures var t := Run(reg, NoTables(users), ops); Sound(reg, t) && Clocked(t)
  {
    hide Sound, Clocked, Supplied, Lawful, Exec, NoTables;
    if ops == [] {
      EmptyIsSound(reg, users);
    } else {
      var front, last := ops[..|ops| - 1], ops[|ops| - 1];
      forall i | 0 <= i < |front| ensures Supplied(Run(reg, NoTables(users), front[..i]), front[i]) {
        assert front[..i] == ops[..i] && front[i] == ops[i];
      }
      RunStaysClocked(reg, users, front);
      var before := Run(reg, NoTables(users), front);
      assert Supplied(before, last);
      SuppliedIsFair(before, last);
      OpKeepsSound(reg, before, last);
      NeverInternal(reg, before, last);
    }
  }

  lemma SuppliedIsFair(t: Tables, op: Op)
    requires Supplied(t, op)
    ensures FairDie(op)
  {
    hide FirstFree;
  }

  // ------------------------------------------------------------------ exactly once

  /** What was asked can be read back from the payload it produced. */
  lemma MeaningIsUnique(p: Payload, a: Action, b: Action, actor: UserId)
    requires SameKind(p, a) && SameMeaning(p, a, actor) && SameKind(p, b) && SameMeaning(p, b, actor)
    ensures a == b
  {
  }

  lemma {:induction false} FoundInLongerLog(events: seq<StoredEvent>, longer: seq<StoredEvent>, actor: UserId, actionId: ActionId)
    requires events <= longer && FindAction(events, actor, actionId).Some?
    ensures FindAction(longer, actor, actionId) == FindAction(events, actor, actionId)
  {
    assert events[0] == longer[0];
    if !(events[0].actor == Some(actor) && events[0].actionId == Some(actionId)) {
      FoundInLongerLog(events[1..], longer[1..], actor, actionId);
    }
  }

  lemma {:induction false} FoundAtTheEnd(events: seq<StoredEvent>, e: StoredEvent, actor: UserId, actionId: ActionId)
    requires FindAction(events, actor, actionId).None? && e.actor == Some(actor) && e.actionId == Some(actionId)
    ensures FindAction(events + [e], actor, actionId) == Some(e)
  {
    if events != [] {
      assert (events + [e])[1..] == events[1..] + [e];
      FoundAtTheEnd(events[1..], e, actor, actionId);
    }
  }

  /** The tables remember that `actor`'s action `actionId` meant `action` and was answered by
      `event`: in the log, or as the action the event limit absorbed. */
  ghost predicate Remembers(t: Tables, id: MatchId, actor: UserId, actionId: ActionId, action: Action, event: StoredEvent) {
    && id in t.matches && var f := FileOf(t, id);
      && TwoPlayers(f.players) && Member(f.players, actor)
      && match FindAction(f.events, actor, actionId)
         case Some(e) => e == event && CommittedMatches(e, actor, action, f.players) == Ok(true)
         case None =>
           && f.m.game.FlightGame? && f.m.status == Abandoned && id in t.limits
           && t.limits[id] == LimitRow(MAXIMUM_FLIGHT_CHESS_EVENTS, actor, actionId, action)
           && |f.events| == MAXIMUM_FLIGHT_CHESS_EVENTS && f.events[MAXIMUM_FLIGHT_CHESS_EVENTS - 1] == event
           && event.kind.MatchAbandoned? && event.revision == MAXIMUM_FLIGHT_CHESS_EVENTS && event.actionId.None? && event.actor.None?
  }

  lemma RemembersStays(t: Tables, after: Tables, id: MatchId, actor: UserId, actionId: ActionId, action: Action, event: StoredEvent)
    requires Remembers(t, id, actor, actionId, action, event) && Kept(t, after)
    ensures Remembers(after, id, actor, actionId, action, event)
  {
    hide CommittedMatches, FindAction, SeatOf, Selected;
    assert MatchKept(t, after, id);
    if FindAction(FileOf(t, id).events, actor, actionId).Some? {
      FoundInLongerLog(FileOf(t, id).events, FileOf(after, id).events, actor, actionId);
    }
  }

  /** A repeat of a remembered action gets its event again; any other meaning is a conflict. */
  lemma RememberedAnswer(t: Tables, id: MatchId, actor: UserId, actionId: ActionId, action: Action, event: StoredEvent, r: Request)
    requires Remembers(t, id, actor, actionId, action, event)
    requires r.matchId == id && r.actor == actor && r.actionId == actionId
    requires GameOf(r.action) == FileOf(t, id).m.game == GameOf(action)
    requires EarlierEvent(t, id, FileOf(t, id), r) != Err(Internal)
    ensures EarlierEvent(t, id, FileOf(t, id), r) == if r.action == action then Ok(Some(event)) else Err(ActionConflict)
  {
    hide FindAction, SeatOf, Selected, SameKind, SameMeaning, Owned;
    if FindAction(FileOf(t, id).events, actor, actionId).Some? {
      if event.kind.Accepted? && SameKind(event.kind.payload, r.action) && SameMeaning(event.kind.payload, r.action, actor) {
        MeaningIsUnique(event.kind.payload, action, r.action, actor);
      }
    }
  }

  /** The row a decision writes means what was asked. */
  lemma DecidedMeaning<S(!new)>(rules: Rules<S>, f: File, current: GameSnapshot<S>, actor: UserId, actionId: ActionId, action: Action, die: int, now: int)
    requires TwoPlayers(f.players) && Member(f.players, actor) && GameOf(action) == f.m.game
    requires Decide(rules, f, current, actor, action, die).Ok?
    ensures var d := Decide(rules, f, current, actor, action, die).value;
      && (!d.kind.MatchAbandoned? ==>
           CommittedMatches(StoredEvent(f.m.revision + 1, d.kind, Some(actionId), Some(actor), now), actor, action, f.players) == Ok(true))
      && (d.kind.MatchAbandoned? ==> f.m.game.FlightGame? && f.m.revision + 1 == MAXIMUM_FLIGHT_CHESS_EVENTS)
      && (d.kind.MatchAbandoned? ==> d.ending == Some(Ending(Abandoned, None, None)))
  {
    hide Owned, SameKind, SameMeaning, OnTurn, HasRoom, EndingFits, SafeError, SeatOf;
  }

  lemma WriteRemembers<S(!new)>(reg: Registry<S>, t: Tables, id: MatchId, d: Decision<S>, r: Request, now: int)
    requires id in t.matches && id == r.matchId && t.matches[id].m.status == Active
    requires var f := FileOf(t, id);
      && TwoPlayers(f.players) && Member(f.players, r.actor) && f.m.revision == |f.events|
      && FindAction(f.events, r.actor, r.actionId).None?
      && (!d.kind.MatchAbandoned? ==>
           CommittedMatches(StoredEvent(f.m.revision + 1, d.kind, Some(r.actionId), Some(r.actor), now), r.actor, r.action, f.players) == Ok(true))
      && (d.kind.MatchAbandoned? ==> f.m.game.FlightGame? && f.m.revision + 1 == MAXIMUM_FLIGHT_CHESS_EVENTS)
      && (d.kind.MatchAbandoned? ==> d.ending == Some(Ending(Abandoned, None, None)))
    requires Write(reg, t, id, FileOf(t, id), d, r, now).0.Ok?
    ensures var (w, after) := Write(reg, t, id, FileOf(t, id), d, r, now);
      Remembers(after, id, r.actor, r.actionId, r.action, w.value.0)
  {
    hide Committed, SlotsComplete, FindAction, CommittedMatches, SeatOf, Selected;
    var f, system := FileOf(t, id), d.kind.MatchAbandoned?;
    var actionId, actor := if system then None else Some(r.actionId), if system then None else Some(r.actor);
    var g := Extended(f, d.kind, actionId, actor, d.ending, now);
    var offlineSince := if d.ending.Some? then None else t.matches[id].offlineSince;
    FileAfterCommit(t, id, f, g, offlineSince, id);
    var e := g.events[|f.events|];
    if system {
      RowIsNobodys(f.events, e, r.actor, r.actionId);
    } else {
      FoundAtTheEnd(f.events, e, r.actor, r.actionId);
    }
  }

  lemma EarlierIsRemembered<S(!new)>(reg: Registry<S>, t: Tables, r: Request, event: StoredEvent)
    requires Sound(reg, t) && r.matchId in t.matches && TwoPlayers(FileOf(t, r.matchId).players)
    requires EarlierEvent(t, r.matchId, FileOf(t, r.matchId), r) == Ok(Some(event))
    ensures Remembers(t, r.matchId, r.actor, r.actionId, r.action, event)
  {
    hide MatchSound, LimitSound, FindAction, FileOf, SeatOf, CommittedMatches, ForeignKeys, CredentialsActive;
    var f := FileOf(t, r.matchId);
    if FindAction(f.events, r.actor, r.actionId).Some? {
      hide LimitEvent;
      CommittedByAMember(event, r.actor, r.action, f.players);
    } else {
      LimitIsRemembered(t, r, event);
    }
  }

  lemma CommittedByAMember(e: StoredEvent, actor: UserId, action: Action, players: seq<Player>)
    requires TwoPlayers(players) && CommittedMatches(e, actor, action, players) == Ok(true)
    ensures Member(players, actor)
  {
    hide SeatOf, Owned, SameKind, SameMeaning;
  }

  lemma LimitIsRemembered(t: Tables, r: Request, event: StoredEvent)
    requires r.matchId in t.matches && TwoPlayers(FileOf(t, r.matchId).players)
    requires FindAction(FileOf(t, r.matchId).events, r.actor, r.actionId).None?
    requires LimitEvent(t, r.matchId, FileOf(t, r.matchId), r) == Ok(Some(event)) && LimitSound(t, r.matchId)
    ensures Remembers(t, r.matchId, r.actor, r.actionId, r.action, event)
  {
    hide FindAction, FileOf, SeatOf;
  }

  lemma ActRemembers<S(!new)>(reg: Registry<S>, t: Tables, r: Request, die: int, now: int)
    requires Lawful(reg) && Sound(reg, t) && Act(reg, t, r, die, now).0.Ok?
    ensures var (reply, after) := Act(reg, t, r, die, now);
      && Remembers(after, r.matchId, r.actor, r.actionId, r.action, reply.value.0)
      && WellFormed(r.action) && GameOf(r.action) == FileOf(after, r.matchId).m.game
  {
    hide Sound, Lawful, RebuildSnapshot, EarlierEvent, Decide, Write, WellFormed, GameOf, Selected, AcceptsPreviousRevision, SeatOf, Loads,
         Remembers, Kept, FindAction, CommittedMatches, ClockKept, Good, Replay, SlotsComplete;
    var (reply, after) := Act(reg, t, r, die, now);
    var f := Load(t, r.matchId).value;
    FilePlayers(reg, t, r.matchId);
    var earlier := EarlierEvent(t, r.matchId, f, r);
    ActKeeps(reg, t, r, die, now);
    KeptGame(t, after, r.matchId);
    if earlier.value.Some? {
      EarlierIsRemembered(reg, t, r, earlier.value.value);
    } else {
      NothingFound(t, r, f);
      var rules := reg.configured(f.m.game, f.m.config).value;
      var current := RebuildSnapshot(reg, t, r.matchId, f).value.game;
      DecidedMeaning(rules, f, current, r.actor, r.actionId, r.action, die, now);
      WriteRemembers(reg, t, r.matchId, Decide(rules, f, current, r.actor, r.action, die).value, r, now);
    }
  }

  lemma KeptGame(t: Tables, after: Tables, id: MatchId)
    requires Kept(t, after) && id in t.matches
    ensures id in after.matches && FileOf(after, id).m.game == FileOf(t, id).m.game
  {
    assert MatchKept(t, after, id);
    hide FileOf;
  }

  lemma NothingFound(t: Tables, r: Request, f: File)
    requires TwoPlayers(f.players) && EarlierEvent(t, r.matchId, f, r) == Ok(None)
    ensures FindAction(f.events, r.actor, r.actionId).None?
  {
    hide FindAction, CommittedMatches;
  }

  /** Why a request that repeats the identifier of `first` is refused, if it is. */
  function Refusal(t: Tables, first: Request, again: Request): Option<Error>
    requires first.matchId in t.matches
  {
    if again.expectedRevision < 0 || !WellFormed(again.action) then Some(InvalidRequest)
    else if again.session.Some? && !ValidSession(t, again.session.value) then Some(ResumeExpired)
    else if !Loads(FileOf(t, first.matchId)) then Some(Internal)
    else if GameOf(again.action) != GameOf(first.action) then Some(InvalidRequest)
    else if again.action != first.action then Some(ActionConflict)
    else None
  }

  /** Exactly once. Whatever the service does after an action was answered, even after the match
      ended, a request that repeats its actor and identifier changes nothing. It is answered with
      the same event, whatever die would be drawn and whatever revision it now names, unless it
      is itself malformed, comes over a revoked session, finds the match unreadable, is an action
      of another game, or means something else, which is a conflict. */
  lemma ActionsAreExactlyOnce<S(!new)>(reg: Registry<S>, t: Tables, first: Request, die: int, now: int, ops: seq<Op>,
                                       again: Request, laterDie: int, laterNow: int)
    requires Lawful(reg) && Sound(reg, t) && 1 <= die <= 6 && forall i :: 0 <= i < |ops| ==> FairDie(ops[i])
    requires Act(reg, t, first, die, now).0.Ok?
    requires again.matchId == first.matchId && again.actor == first.actor && again.actionId == first.actionId
    ensures var later := Run(reg, Act(reg, t, first, die, now).1, ops);
      var (reply, after) := Act(reg, later, again, laterDie, laterNow);
      && after == later && first.matchId in later.matches
      && match Refusal(later, first, again)
         case Some(e) => reply == Err(e)
         case None =>
           reply.Ok? && reply.value.0 == Act(reg, t, first, die, now).0.value.0 && Returns(reg, later, first.matchId, reply.value.1)
  {
    hide Sound, Lawful, Run, Kept, Remembers, FairDie, Refusal;
    var (answer, once) := Act(reg, t, first, die, now);
    ActKeepsSound(reg, t, first, die, now);
    ActRemembers(reg, t, first, die, now);
    RunKeepsSound(reg, once, ops);
    RunKeeps(reg, once, ops);
    hide Act, GameOf, WellFormed;
    var later := Run(reg, once, ops);
    RemembersStays(once, later, first.matchId, first.actor, first.actionId, first.action, answer.value.0);
    RememberedFile(once, first.matchId, first.actor, first.actionId, first.action, answer.value.0);
    KeptGame(once, later, first.matchId);
    RetryIsAnswered(reg, later, first, answer.value.0, again, laterDie, laterNow);
  }

  lemma RememberedFile(t: Tables, id: MatchId, actor: UserId, actionId: ActionId, action: Action, event: StoredEvent)
    requires Remembers(t, id, actor, actionId, action, event)
    ensures id in t.matches
  {
    hide FindAction, CommittedMatches, SeatOf;
  }

  lemma RetryIsAnswered<S(!new)>(reg: Registry<S>, t: Tables, first: Request, event: StoredEvent, again: Request, die: int, now: int)
    requires Sound(reg, t) && first.matchId in t.matches
    requires Remembers(t, first.matchId, first.actor, first.actionId, first.action, event)
    requires again.matchId == first.matchId && again.actor == first.actor && again.actionId == first.actionId
    requires GameOf(first.action) == FileOf(t, first.matchId).m.game
    ensures var (reply, after) := Act(reg, t, again, die, now);
      && after == t
      && match Refusal(t, first, again)
         case Some(e) => reply == Err(e)
         case None => reply.Ok? && reply.value.0 == event && Returns(reg, t, first.matchId, reply.value.1)
  {
    hide Sound, Remembers, RebuildSnapshot, EarlierEvent, Fresh, WellFormed, GameOf, FileOf, Loads, Good, Replay, SlotsComplete, ValidSession;
    FilePlayers(reg, t, first.matchId);
    EarlierEventIsSafe(reg, t, again);
    if GameOf(again.action) == GameOf(first.action) {
      RememberedAnswer(t, first.matchId, first.actor, first.actionId, first.action, event, again);
    }
  }

  // ------------------------------------------------------------------ the event budget

  /** The operation appends an event to this match. */
  predicate Commits<S>(reg: Registry<S>, t: Tables, op: Op, id: MatchId) {
    && id in t.matches && id in Exec(reg, t, op).1.matches
    && FileOf(Exec(reg, t, op).1, id).events != FileOf(t, id).events
  }

  /** Aeroplane chess always ends: whatever commits on a match at revision 511, an action, an
      abandonment or anything else, ends it with event 512. */
  lemma FlightEndsByItsLimit<S(!new)>(reg: Registry<S>, t: Tables, op: Op, id: MatchId)
    requires Lawful(reg) && Sound(reg, t) && FairDie(op) && Commits(reg, t, op, id)
    requires t.matches[id].m.game == FlightGame && t.matches[id].m.revision == MAXIMUM_FLIGHT_CHESS_EVENTS - 1
    ensures var after := Exec(reg, t, op).1;
      && after.matches[id].m.status != Active
      && |FileOf(after, id).events| == MAXIMUM_FLIGHT_CHESS_EVENTS
  {
    SoundKeys(reg, t);
    hide Sound, Lawful, Exec, Kept, ForeignKeys, CredentialsActive, ClockKept, Good, Replay, SlotsComplete, RebuildSnapshot, FileOf, FairDie;
    var after := Exec(reg, t, op).1;
    OpKeepsSound(reg, t, op);
    OpKeeps(reg, t, op);
    KeptLog(t, after, id);
    GoodFile(reg, t, id);
    GoodFile(reg, after, id);
    LimitReached(reg, FileOf(t, id), FileOf(after, id));
  }

  lemma GoodFile<S(!new)>(reg: Registry<S>, t: Tables, id: MatchId)
    requires Sound(reg, t) && id in t.matches
    ensures Good(reg, FileOf(t, id)) && FileOf(t, id).m == t.matches[id].m
  {
    hide Good, SlotsComplete, LimitSound;
  }

  lemma LimitReached<S(!new)>(reg: Registry<S>, f: File, g: File)
    requires Good(reg, f) && Good(reg, g) && f.events <= g.events && f.events != g.events && g.m.game == f.m.game
    requires f.m.game == FlightGame && f.m.revision == MAXIMUM_FLIGHT_CHESS_EVENTS - 1
    ensures g.m.status != Active && |g.events| == MAXIMUM_FLIGHT_CHESS_EVENTS
  {
    Budget(reg, f);
    Budget(reg, g);
    hide Good;
  }

  lemma KeptLog(t: Tables, after: Tables, id: MatchId)
    requires Kept(t, after) && id in t.matches
    ensures id in after.matches && FileOf(t, id).events <= FileOf(after, id).events && FileOf(after, id).m.game == FileOf(t, id).m.game
  {
    assert MatchKept(t, after, id);
    hide FileOf;
  }
}
