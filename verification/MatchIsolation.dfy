/** What an operation leaves alone: every match but its own, every account but its own, and a match's slots
    and credentials for as long as it is on. */
module MatchIsolation {
  import opened Common
  import opened MatchModel
  import opened MatchTables
  import opened MatchFiles
  import opened MatchProofs
  import opened MatchRuns
  import opened MatchCredentials
  import opened MatchLaws
  import opened MatchExpiry
  import Rps

  /** The one match an operation is about. A sweep, a start-up and a transfer are about many. */
  predicate Concerns(t: Tables, op: Op, id: MatchId) {
    match op
    case CreateOp(_, _, _, _, _, created, _) => created == id
    case ActOp(r, _, _) => r.matchId == id
    case CancelOp(cancelled, _, _) => cancelled == id
    case AbandonOneOp(abandoned, _, _) => abandoned == id
    case PresenceOp(played, _, _, _) => played == id
    case TicketOp(played, _, _, _) => played == id
    case ConnectOp(LaunchTicket(h), _, _) => h in t.tickets && t.tickets[h].matchId == id
    case ConnectOp(ResumeToken(h), _, _) => h in t.tokens && t.tokens[h].matchId == id
    case _ => true
  }

  /** Everything stored about a match is as it was. */
  ghost predicate Same(t: Tables, after: Tables, id: MatchId) {
    SameRows(t, after, id) && SameSlots(t, after, id) && SameCredentials(t, after, id)
  }

  predicate SameRows(t: Tables, after: Tables, id: MatchId) {
    && (id in after.matches <==> id in t.matches) && (id in t.matches ==> after.matches[id] == t.matches[id])
    && Selected(after.players, id) == Selected(t.players, id) && Selected(after.events, id) == Selected(t.events, id)
    && (id in after.limits <==> id in t.limits) && (id in t.limits ==> after.limits[id] == t.limits[id])
  }

  ghost predicate SameSlots(t: Tables, after: Tables, id: MatchId) {
    forall k :: (k in after.slots && after.slots[k] == id) <==> (k in t.slots && t.slots[k] == id)
  }

  ghost predicate SameCredentials(t: Tables, after: Tables, id: MatchId) {
    && (forall h :: h in t.tickets && t.tickets[h].matchId == id ==> h in after.tickets && after.tickets[h] == t.tickets[h])
    && (forall h :: h in after.tickets && after.tickets[h].matchId == id ==> h in t.tickets && after.tickets[h] == t.tickets[h])
    && (forall h :: h in t.tokens && t.tokens[h].matchId == id ==> h in after.tokens && after.tokens[h] == t.tokens[h])
    && (forall h :: h in after.tokens && after.tokens[h].matchId == id ==> h in t.tokens && after.tokens[h] == t.tokens[h])
  }

  lemma NothingDone(t: Tables, id: MatchId)
    ensures Same(t, t, id)
  {
  }

  lemma UnusedTables(t: Tables, after: Tables, id: MatchId)
    ensures after.slots == t.slots ==> SameSlots(t, after, id)
    ensures after.tickets == t.tickets && after.tokens == t.tokens ==> SameCredentials(t, after, id)
  {
  }

  lemma CommitIsSame(t: Tables, own: MatchId, f: File, g: File, offlineSince: Option<int>, id: MatchId)
    requires |f.players| == 2 && id != own
    ensures Same(t, Committed(t, own, f, g, offlineSince), id)
  {
    hide SameSlots, SameCredentials, Released;
    var stored := Stored(t, own, g, offlineSince);
    UnusedTables(t, stored, id);
    if g.m.status != Active {
      ReleaseIsSame(stored, own, f, id);
      SlotsAndCredentialsOf(t, stored, Released(stored, own, f), id);
      ReleasedRowsStay(stored, own, f);
    }
  }

  lemma ReleaseIsSame(t: Tables, own: MatchId, f: File, id: MatchId)
    requires |f.players| == 2 && id != own
    ensures SameSlots(t, Released(t, own, f), id) && SameCredentials(t, Released(t, own, f), id)
  {
  }

  lemma ReleasedRowsStay(t: Tables, own: MatchId, f: File)
    requires |f.players| == 2
    ensures var after := Released(t, own, f);
      after.matches == t.matches && after.players == t.players && after.events == t.events && after.limits == t.limits && after.users == t.users
  {
    hide WithoutSlots;
  }

  lemma SlotsAndCredentialsOf(t: Tables, same: Tables, after: Tables, id: MatchId)
    requires same.slots == t.slots && same.tickets == t.tickets && same.tokens == t.tokens
    ensures SameSlots(t, after, id) == SameSlots(same, after, id) && SameCredentials(t, after, id) == SameCredentials(same, after, id)
  {
  }

  lemma WriteIsSame<S(!new)>(reg: Registry<S>, t: Tables, own: MatchId, f: File, d: Decision<S>, r: Request, now: int, id: MatchId)
    requires own in t.matches && TwoPlayers(f.players) && id != own
    ensures Same(t, Write(reg, t, own, f, d, r, now).1, id)
  {
    hide Committed, SlotsComplete, Selected;
    NothingDone(t, id);
    var system := d.kind.MatchAbandoned?;
    var g := Extended(f, d.kind, if system then None else Some(r.actionId), if system then None else Some(r.actor), d.ending, now);
    CommitIsSame(t, own, f, g, if d.ending.Some? then None else t.matches[own].offlineSince, id);
  }

  lemma ActIsSame<S(!new)>(reg: Registry<S>, t: Tables, r: Request, die: int, now: int, id: MatchId)
    requires id != r.matchId
    ensures Same(t, Act(reg, t, r, die, now).1, id)
  {
    hide Act, Write, Decide, RebuildSnapshot, EarlierEvent, FileOf, SessionHolds, AcceptsPreviousRevision, Same;
    NothingDone(t, id);
    if Act(reg, t, r, die, now).1 != t {
      ActGoesThroughWrite(reg, t, r, die, now);
      var f := FileOf(t, r.matchId);
      var rules := reg.configured(f.m.game, f.m.config).value;
      var d := Decide(rules, f, RebuildSnapshot(reg, t, r.matchId, f).value.game, r.actor, r.action, die).value;
      WriteIsSame(reg, t, r.matchId, f, d, r, now, id);
    }
  }

  lemma CancelIsSame<S(!new)>(reg: Registry<S>, t: Tables, own: MatchId, actor: UserId, now: int, id: MatchId)
    requires id != own
    ensures Same(t, Cancel(reg, t, own, actor, now).1, id)
  {
    hide Committed, HasGameplay, SlotsComplete, SeatOf, Selected, Same;
    NothingDone(t, id);
    if Cancel(reg, t, own, actor, now).0.Ok? {
      var f := FileOf(t, own);
      var g := Extended(f, MatchCancelled, None, Some(actor), Some(Ending(Cancelled, None, None)), now);
      CommitIsSame(t, own, f, g, t.matches[own].offlineSince, id);
    }
  }

  lemma AbandonIsSame<S(!new)>(reg: Registry<S>, t: Tables, own: MatchId, cutoff: int, now: int, id: MatchId)
    requires id != own
    ensures Same(t, AbandonIfExpired(reg, t, own, cutoff, now).1, id)
  {
    hide Committed, RebuildSnapshot, Selected, Loads, Same;
    NothingDone(t, id);
    var r := AbandonIfExpired(reg, t, own, cutoff, now).0;
    if r.Ok? && r.value.Some? {
      var f := FileOf(t, own);
      CommitIsSame(t, own, f, Extended(f, MatchAbandoned, None, None, Some(Ending(Abandoned, None, None)), now), None, id);
    }
  }

  lemma CreateIsSame<S(!new)>(reg: Registry<S>, t: Tables, game: GameId, initiator: UserId, opponent: UserId, config: Option<Rps.Format>,
                              color: Color, created: MatchId, now: int, id: MatchId)
    requires id != created
    ensures Same(t, CreateMatch(reg, t, game, initiator, opponent, config, color, created, now).1, id)
  {
    hide Enabled, SameCredentials;
    UnusedTables(t, CreateMatch(reg, t, game, initiator, opponent, config, color, created, now).1, id);
    NothingDone(t, id);
  }

  lemma TicketIsSame<S(!new)>(reg: Registry<S>, t: Tables, own: MatchId, user: UserId, drawn: seq<Hash>, now: int, id: MatchId)
    requires id != own
    ensures Same(t, CreateTicket(reg, t, own, user, drawn, now).1, id)
  {
    hide CreateTicket, SameSlots, SameRows;
    var after := CreateTicket(reg, t, own, user, drawn, now).1;
    TicketReplaces(reg, t, own, user, drawn, now);
    UnusedTables(t, after, id);
    SameRowsIfEqual(t, after, id);
  }

  lemma TicketReplaces<S(!new)>(reg: Registry<S>, t: Tables, own: MatchId, user: UserId, drawn: seq<Hash>, now: int)
    ensures var after := CreateTicket(reg, t, own, user, drawn, now).1;
      && after == t.(tickets := after.tickets)
      && (forall h :: h in t.tickets && t.tickets[h].matchId != own ==> h in after.tickets && after.tickets[h] == t.tickets[h])
      && (forall h :: h in after.tickets && after.tickets[h].matchId != own ==> h in t.tickets && after.tickets[h] == t.tickets[h])
  {
    hide RebuildSnapshot, Load, Loads, FirstFree, SeatOf, Selected;
    FirstFreeIsFree(t.tickets.Keys, drawn);
  }

  lemma ConnectIsSame<S(!new)>(reg: Registry<S>, t: Tables, c: Credential, drawn: seq<Hash>, now: int, id: MatchId)
    requires match c
             case LaunchTicket(h) => h in t.tickets ==> t.tickets[h].matchId != id
             case ResumeToken(h) => h in t.tokens ==> t.tokens[h].matchId != id
    ensures Same(t, Connect(reg, t, c, drawn, now).1, id)
  {
    hide Connect, Selected, SameSlots, SameRows;
    var (r, after) := Connect(reg, t, c, drawn, now);
    NothingDone(t, id);
    UnusedTables(t, after, id);
    SameRowsIfEqual(t, after, id);
    if r.Ok? {
      ConnectingTouchesOnlyItsOwn(reg, t, c, drawn, now);
      IdentityIsTheHolders(reg, t, c, drawn, now);
      UsedForHalfAnHour(reg, t, c, drawn, now);
    } else {
      FailedConnects(reg, t, c, drawn, now);
    }
  }

  lemma SameRowsIfEqual(t: Tables, after: Tables, id: MatchId)
    requires after == t.(slots := after.slots, tickets := after.tickets, tokens := after.tokens)
    ensures SameRows(t, after, id)
  {
  }

  lemma FailedConnects<S(!new)>(reg: Registry<S>, t: Tables, c: Credential, drawn: seq<Hash>, now: int)
    requires Connect(reg, t, c, drawn, now).0.Err?
    ensures Connect(reg, t, c, drawn, now).1 == t
  {
    hide RebuildSnapshot, Load, Loads, FirstFree, SeatOf, Enabled;
  }

  lemma PresenceIsSame(t: Tables, own: MatchId, user: UserId, online: bool, now: int, id: MatchId)
    requires id != own
    ensures Same(t, SetPresence(t, own, user, online, now).1, id)
  {
    hide Load, Loads, SeatOf, Selected, SameSlots, SameCredentials;
    UnusedTables(t, SetPresence(t, own, user, online, now).1, id);
    NothingDone(t, id);
  }

  /** An operation about one match leaves everything stored about every other as it was: rows, log, slots,
      tickets and tokens. */
  lemma OperationsConcernOneMatch<S(!new)>(reg: Registry<S>, t: Tables, op: Op, id: MatchId)
    requires !Concerns(t, op, id)
    ensures Same(t, Exec(reg, t, op).1, id)
  {
    hide CreateMatch, Act, Cancel, AbandonExpired, AbandonIfExpired, SetPresence, CreateTicket, Connect, MarkOffline, Transfer, Same;
    match op
    case CreateOp(game, initiator, opponent, config, color, created, now) =>
      CreateIsSame(reg, t, game, initiator, opponent, config, color, created, now, id);
    case ActOp(r, die, now) => ActIsSame(reg, t, r, die, now, id);
    case CancelOp(own, actor, now) => CancelIsSame(reg, t, own, actor, now, id);
    case AbandonOneOp(own, cutoff, now) => AbandonIsSame(reg, t, own, cutoff, now, id);
    case PresenceOp(own, user, online, now) => PresenceIsSame(t, own, user, online, now, id);
    case TicketOp(own, user, drawn, now) => TicketIsSame(reg, t, own, user, drawn, now, id);
    case ConnectOp(c, drawn, now) => ConnectIsSame(reg, t, c, drawn, now, id);
  }

  // ------------------------------------------------------------------- while a match is on

  /** An action that does not end its match leaves all slots, tickets and tokens as they were. */
  lemma RunningMatchKeepsItsOwn<S(!new)>(reg: Registry<S>, t: Tables, r: Request, die: int, now: int)
    ensures var after := Act(reg, t, r, die, now).1;
      && after.users == t.users && after.players == t.players
      && (r.matchId in after.matches && after.matches[r.matchId].m.status == Active ==>
            after.slots == t.slots && after.tickets == t.tickets && after.tokens == t.tokens)
  {
    hide Act, Decide, RebuildSnapshot, EarlierEvent, FileOf, SessionHolds, AcceptsPreviousRevision, Committed, SlotsComplete;
    if Act(reg, t, r, die, now).1 != t {
      ActGoesThroughWrite(reg, t, r, die, now);
      var f := FileOf(t, r.matchId);
      var rules := reg.configured(f.m.game, f.m.config).value;
      var d := Decide(rules, f, RebuildSnapshot(reg, t, r.matchId, f).value.game, r.actor, r.action, die).value;
      var system := d.kind.MatchAbandoned?;
      var g := Extended(f, d.kind, if system then None else Some(r.actionId), if system then None else Some(r.actor), d.ending, now);
      CommittedColumns(t, r.matchId, f, g, if d.ending.Some? then None else t.matches[r.matchId].offlineSince);
      ReleasedRowsStay(Stored(t, r.matchId, g, if d.ending.Some? then None else t.matches[r.matchId].offlineSince), r.matchId, f);
    }
  }

  // --------------------------------------------------------------------------- credentials

  /** Connecting changes the credentials of one player in one match: with a ticket, this ticket is used up
      and the player's tokens for the match give way to the one issued; with a token, only that token is
      extended. */
  lemma ConnectingTouchesOnlyItsOwn<S(!new)>(reg: Registry<S>, t: Tables, c: Credential, drawn: seq<Hash>, now: int)
    requires Connect(reg, t, c, drawn, now).0.Ok?
    ensures var (r, after) := Connect(reg, t, c, drawn, now);
      && after == t.(tickets := after.tickets, tokens := after.tokens)
      && (match c
          case LaunchTicket(h) =>
            && h in t.tickets && after.tickets == t.tickets[h := t.tickets[h].(consumed := Some(now))]
            && (forall k :: k in t.tokens ==>
                  if t.tokens[k].matchId == r.value.matchId && t.tokens[k].user == r.value.session.user then k !in after.tokens
                  else k in after.tokens && after.tokens[k] == t.tokens[k])
            && (forall k :: k in after.tokens ==> k in t.tokens || k == r.value.token)
          case ResumeToken(h) =>
            && after.tickets == t.tickets && h in t.tokens
            && after.tokens == t.tokens[h := t.tokens[h].(lastUsed := now, expires := now + 1800000)])
  {
    hide RebuildSnapshot, Load, Loads, FirstFree, SeatOf, Enabled;
    FirstFreeIsFree(t.tokens.Keys, drawn);
  }

  /** A transfer concerns one account: nobody else's credentials or sessions, and no match. */
  lemma TransferTouchesOnlyItsUser(t: Tables, user: UserId, epoch: nat)
    ensures var after := Transfer(t, user, epoch);
      && after == t.(users := after.users, tickets := after.tickets, tokens := after.tokens)
      && after.users.Keys == t.users.Keys
      && (forall u :: u in t.users ==> after.users[u] == if u == user then User(t.users[u].enabled, epoch) else t.users[u])
      && (forall h :: h in after.tickets <==> h in t.tickets && t.tickets[h].user != user)
      && (forall h :: h in after.tickets ==> after.tickets[h] == t.tickets[h])
      && after.tokens.Keys == t.tokens.Keys
      && (forall h :: h in t.tokens ==> after.tokens[h] == if t.tokens[h].user == user then t.tokens[h].(revoked := true) else t.tokens[h])
  {
  }
}
