/** How long a credential works: a launch ticket for a minute, a resume token for half an hour after
    it was issued or last used, and until then for exactly whom it was issued. */
module MatchExpiry {
  import opened Common
  import opened MatchModel
  import opened MatchTables
  import opened MatchFiles
  import opened MatchProofs
  import opened MatchRuns
  import opened MatchCredentials

  /** Whatever the credential's row says, it has run out by `limit`. */
  predicate RunsOutBy(t: Tables, c: Credential, limit: int) {
    match c
    case LaunchTicket(h) => h in t.tickets ==> t.tickets[h].expires <= limit
    case ResumeToken(h) => h in t.tokens ==> t.tokens[h].expires <= limit
  }

  function FailureOf(c: Credential): Error {
    if c.LaunchTicket? then TicketInvalid else ResumeExpired
  }

  /** From its stored expiry on a credential is refused, and nothing is written. */
  lemma ExpiredIsRefused<S(!new)>(reg: Registry<S>, t: Tables, c: Credential, candidates: seq<Hash>, now: int)
    requires RunsOutBy(t, c, now)
    ensures Connect(reg, t, c, candidates, now) == (Err(FailureOf(c)), t)
  {
    hide RebuildSnapshot, Load, Enabled, FirstFree;
  }

  // -------------------------------------------------------------------- over whole runs

  /** The operation is a connection with this very token, which succeeds and so extends it. */
  predicate Extends<S>(reg: Registry<S>, t: Tables, op: Op, c: Credential) {
    op.ConnectOp? && op.credential == c && c.ResumeToken? && Connect(reg, t, c, op.candidates, op.now).0.Ok?
  }

  lemma FewerRunsOut(t: Tables, after: Tables, c: Credential, limit: int)
    requires Fewer(t, after) && RunsOutBy(t, c, limit)
    ensures RunsOutBy(after, c, limit)
  {
  }

  lemma TicketRunsOut<S(!new)>(reg: Registry<S>, t: Tables, id: MatchId, user: UserId, candidates: seq<Hash>, now: int, c: Credential, limit: int)
    requires RunsOutBy(t, c, limit) && (c.LaunchTicket? ==> c.hash !in candidates)
    ensures RunsOutBy(CreateTicket(reg, t, id, user, candidates, now).1, c, limit)
  {
    hide RebuildSnapshot, Load, Loads, FirstFree, SeatOf;
    FirstFreeIsFree(t.tickets.Keys, candidates);
  }

  lemma ConnectRunsOut<S(!new)>(reg: Registry<S>, t: Tables, used: Credential, candidates: seq<Hash>, now: int, c: Credential, limit: int)
    requires RunsOutBy(t, c, limit) && (c.ResumeToken? ==> c.hash !in candidates)
    requires !(used == c && c.ResumeToken? && Connect(reg, t, c, candidates, now).0.Ok?)
    ensures RunsOutBy(Connect(reg, t, used, candidates, now).1, c, limit)
  {
    hide RebuildSnapshot, Load, Loads, FirstFree, SeatOf, Enabled;
    FirstFreeIsFree(t.tokens.Keys, candidates);
  }

  lemma TransferRunsOut(t: Tables, user: UserId, epoch: nat, c: Credential, limit: int)
    requires RunsOutBy(t, c, limit)
    ensures RunsOutBy(Transfer(t, user, epoch), c, limit)
  {
  }

  lemma OpKeepsRunningOut<S(!new)>(reg: Registry<S>, t: Tables, op: Op, c: Credential, limit: int)
    requires RunsOutBy(t, c, limit) && !Redraws(op, c) && !Extends(reg, t, op, c)
    ensures RunsOutBy(Exec(reg, t, op).1, c, limit)
  {
    hide CreateMatch, Act, Cancel, AbandonExpired, AbandonIfExpired, SetPresence, CreateTicket, Connect, MarkOffline, Transfer, Fewer, RunsOutBy;
    match op
    case TicketOp(id, user, candidates, now) => TicketRunsOut(reg, t, id, user, candidates, now, c, limit);
    case ConnectOp(used, candidates, now) => ConnectRunsOut(reg, t, used, candidates, now, c, limit);
    case TransferOp(user, epoch, _) => TransferRunsOut(t, user, epoch, c, limit);
    case _ =>
      OthersAreFewer(reg, t, op);
      FewerRunsOut(t, Exec(reg, t, op).1, c, limit);
  }

  /** Nothing but a connection with the token itself puts off a stored expiry: over every run that
      draws the hash no second time, the credential is refused from then on. */
  lemma {:induction false} RunsOutForGood<S(!new)>(reg: Registry<S>, t: Tables, ops: seq<Op>, c: Credential, limit: int, candidates: seq<Hash>, now: int)
    requires RunsOutBy(t, c, limit) && limit <= now
    requires forall i :: 0 <= i < |ops| ==> !Redraws(ops[i], c) && !Extends(reg, Run(reg, t, ops[..i]), ops[i], c)
    ensures var later := Run(reg, t, ops);
      RunsOutBy(later, c, limit) && Connect(reg, later, c, candidates, now) == (Err(FailureOf(c)), later)
  {
    hide Exec, Redraws, Extends, Connect;
    if ops != [] {
      var front := ops[..|ops| - 1];
      forall i | 0 <= i < |front| ensures !Redraws(front[i], c) && !Extends(reg, Run(reg, t, front[..i]), front[i], c) {
        assert front[..i] == ops[..i] && front[i] == ops[i];
      }
      RunsOutForGood(reg, t, front, c, limit, candidates, now);
      OpKeepsRunningOut(reg, Run(reg, t, front), ops[|ops| - 1], c, limit);
    }
    ExpiredIsRefused(reg, Run(reg, t, ops), c, candidates, now);
  }

  /** A launch ticket issued at one moment never connects a minute later or after that. */
  lemma TicketLivesAMinute<S(!new)>(reg: Registry<S>, t: Tables, id: MatchId, user: UserId, drawn: seq<Hash>, issued: int, ops: seq<Op>,
                                    candidates: seq<Hash>, now: int)
    requires CreateTicket(reg, t, id, user, drawn, issued).0.Ok? && now >= issued + 60000
    requires var h := CreateTicket(reg, t, id, user, drawn, issued).0.value; forall i :: 0 <= i < |ops| ==> !Redraws(ops[i], LaunchTicket(h))
    ensures var (r, after) := CreateTicket(reg, t, id, user, drawn, issued);
      var later := Run(reg, after, ops);
      Connect(reg, later, LaunchTicket(r.value), candidates, now) == (Err(TicketInvalid), later)
  {
    hide Run, Redraws, Connect;
    IssuedForAMinute(reg, t, id, user, drawn, issued);
    hide CreateTicket;
    var (r, after) := CreateTicket(reg, t, id, user, drawn, issued);
    RunsOutForGood(reg, after, ops, LaunchTicket(r.value), issued + 60000, candidates, now);
  }

  lemma IssuedForAMinute<S(!new)>(reg: Registry<S>, t: Tables, id: MatchId, user: UserId, drawn: seq<Hash>, issued: int)
    requires CreateTicket(reg, t, id, user, drawn, issued).0.Ok?
    ensures var (r, after) := CreateTicket(reg, t, id, user, drawn, issued);
      && r.value in drawn && r.value !in t.tickets && r.value in after.tickets
      && after.tickets[r.value] == Ticket(id, user, t.matches[id].m.game, issued + 60000, None)
  {
    hide RebuildSnapshot, Loads, FirstFree, SeatOf, Selected;
    FirstFreeIsFree(t.tickets.Keys, drawn);
  }

  /** A resume token issued or last used at one moment never connects half an hour later or after
      that, unless it has been used again in between. */
  lemma TokenLivesHalfAnHour<S(!new)>(reg: Registry<S>, t: Tables, c: Credential, drawn: seq<Hash>, used: int, ops: seq<Op>,
                                      candidates: seq<Hash>, now: int)
    requires Connect(reg, t, c, drawn, used).0.Ok? && now >= used + 1800000
    requires var (r, after) := Connect(reg, t, c, drawn, used);
      var token := ResumeToken(r.value.token);
      forall i :: 0 <= i < |ops| ==> !Redraws(ops[i], token) && !Extends(reg, Run(reg, after, ops[..i]), ops[i], token)
    ensures var (r, after) := Connect(reg, t, c, drawn, used);
      var later := Run(reg, after, ops);
      Connect(reg, later, ResumeToken(r.value.token), candidates, now) == (Err(ResumeExpired), later)
  {
    hide Run, Redraws, Extends;
    UsedForHalfAnHour(reg, t, c, drawn, used);
    hide Connect;
    var (r, after) := Connect(reg, t, c, drawn, used);
    RunsOutForGood(reg, after, ops, ResumeToken(r.value.token), used + 1800000, candidates, now);
  }

  lemma UsedForHalfAnHour<S(!new)>(reg: Registry<S>, t: Tables, c: Credential, drawn: seq<Hash>, used: int)
    requires Connect(reg, t, c, drawn, used).0.Ok?
    ensures var (r, after) := Connect(reg, t, c, drawn, used);
      && r.value.token in after.tokens
      && after.tokens[r.value.token] == Token(r.value.matchId, r.value.session.user, used + 1800000, used, false)
      && (match c case ResumeToken(h) => r.value.token == h case LaunchTicket(_) => r.value.token in drawn && r.value.token !in t.tokens)
  {
    hide RebuildSnapshot, Load, Loads, FirstFree, SeatOf, Enabled;
    FirstFreeIsFree(t.tokens.Keys, drawn);
  }

  // ------------------------------------------------------------------- whom it is issued for

  /** The credentials are their holders': a ticket's or token's user is a player of its match, a ticket
      is of the match's game, and a token runs out half an hour after it was last used. */
  ghost predicate Held(t: Tables) {
    && (forall h :: h in t.tickets ==> PlaysIn(t, t.tickets[h].matchId, t.tickets[h].user) && t.tickets[h].game == t.matches[t.tickets[h].matchId].m.game)
    && (forall h :: h in t.tokens ==> PlaysIn(t, t.tokens[h].matchId, t.tokens[h].user) && t.tokens[h].expires == t.tokens[h].lastUsed + 1800000)
  }

  ghost predicate PlaysIn(t: Tables, id: MatchId, user: UserId) {
    id in t.matches && exists i :: 0 <= i < |FileOf(t, id).players| && FileOf(t, id).players[i].user == user
  }

  lemma FewerAreHeld(t: Tables, after: Tables)
    requires Held(t) && Kept(t, after) && Fewer(t, after)
    ensures Held(after)
  {
    hide FileOf;
    forall id, user | PlaysIn(t, id, user) ensures PlaysIn(after, id, user) && after.matches[id].m.game == t.matches[id].m.game {
      StillPlays(t, after, id, user);
    }
    hide PlaysIn, MatchKept;
  }

  lemma StillPlays(t: Tables, after: Tables, id: MatchId, user: UserId)
    requires PlaysIn(t, id, user) && Kept(t, after)
    ensures PlaysIn(after, id, user) && after.matches[id].m.game == t.matches[id].m.game
  {
    assert MatchKept(t, after, id);
    hide Selected;
  }

  lemma SamePlayers(t: Tables, after: Tables)
    requires after.matches == t.matches && after.players == t.players
    ensures forall id, user :: PlaysIn(after, id, user) <==> PlaysIn(t, id, user)
  {
    forall id, user ensures PlaysIn(after, id, user) <==> PlaysIn(t, id, user) {
      if id in t.matches {
        assert FileOf(after, id).players == FileOf(t, id).players;
      }
    }
  }

  lemma TicketIsHeld<S(!new)>(reg: Registry<S>, t: Tables, id: MatchId, user: UserId, drawn: seq<Hash>, now: int)
    requires Held(t)
    ensures Held(CreateTicket(reg, t, id, user, drawn, now).1)
  {
    hide RebuildSnapshot, Loads, FirstFree, Selected, PlaysIn;
    var (r, after) := CreateTicket(reg, t, id, user, drawn, now);
    if r.Ok? {
      MembersPlay(t, id, user);
      SamePlayers(t, after);
    }
  }

  lemma MembersPlay(t: Tables, id: MatchId, user: UserId)
    requires id in t.matches && |FileOf(t, id).players| == 2
    ensures Member(FileOf(t, id).players, user) <==> PlaysIn(t, id, user)
  {
    hide Selected;
  }

  lemma ConnectIsHeld<S(!new)>(reg: Registry<S>, t: Tables, c: Credential, drawn: seq<Hash>, now: int)
    requires Held(t)
    ensures Held(Connect(reg, t, c, drawn, now).1)
  {
    hide RebuildSnapshot, Loads, FirstFree, Selected, PlaysIn, Enabled;
    var (r, after) := Connect(reg, t, c, drawn, now);
    if r.Ok? {
      MembersPlay(t, r.value.matchId, r.value.session.user);
      SamePlayers(t, after);
    }
  }

  lemma TransferIsHeld(t: Tables, user: UserId, epoch: nat)
    requires Held(t)
    ensures Held(Transfer(t, user, epoch))
  {
    hide PlaysIn;
    SamePlayers(t, Transfer(t, user, epoch));
  }

  lemma OpKeepsHeld<S(!new)>(reg: Registry<S>, t: Tables, op: Op)
    requires ForeignKeys(t) && Held(t)
    ensures Held(Exec(reg, t, op).1)
  {
    hide CreateMatch, Act, Cancel, AbandonExpired, AbandonIfExpired, SetPresence, CreateTicket, Connect, MarkOffline, Transfer, Fewer, Held, Kept,
      ForeignKeys, ClockKept;
    match op
    case TicketOp(id, user, candidates, now) => TicketIsHeld(reg, t, id, user, candidates, now);
    case ConnectOp(used, candidates, now) => ConnectIsHeld(reg, t, used, candidates, now);
    case TransferOp(user, epoch, _) => TransferIsHeld(t, user, epoch);
    case _ =>
      OpKeeps(reg, t, op);
      OthersAreFewer(reg, t, op);
      FewerAreHeld(t, Exec(reg, t, op).1);
  }

  /** Over every run credentials stay with the players they were issued for. */
  lemma {:induction false} RunKeepsHeld<S(!new)>(reg: Registry<S>, users: map<UserId, User>, ops: seq<Op>)
    requires Lawful(reg) && forall i :: 0 <= i < |ops| ==> FairDie(ops[i])
    ensures Held(Run(reg, NoTables(users), ops))
  {
    hide Sound, Lawful, Exec, FairDie, Held;
    if ops == [] {
      NobodyHolds(users);
    } else {
      var front := ops[..|ops| - 1];
      RunKeepsHeld(reg, users, front);
      EmptyIsSound(reg, users);
      RunKeepsSound(reg, NoTables(users), front);
      SoundKeys(reg, Run(reg, NoTables(users), front));
      OpKeepsHeld(reg, Run(reg, NoTables(users), front), ops[|ops| - 1]);
    }
  }

  lemma NobodyHolds(users: map<UserId, User>)
    ensures Held(NoTables(users))
  {
  }

  /** A credential that is stored, neither used up nor revoked, and not yet at its expiry, of an account
      that is enabled. */
  predicate Works(t: Tables, c: Credential, now: int) {
    match c
    case LaunchTicket(h) => h in t.tickets && t.tickets[h].consumed.None? && now < t.tickets[h].expires && Enabled(t, t.tickets[h].user)
    case ResumeToken(h) => h in t.tokens && !t.tokens[h].revoked && now < t.tokens[h].expires && Enabled(t, t.tokens[h].user)
  }

  /** In the tables any run leaves, while matches can be read and free hashes are drawn, a credential
      connects if and only if it works; it then connects its own user to its own match in the account's
      present session, and half an hour's token is the answer. */
  lemma ConnectsExactlyIfItWorks<S(!new)>(reg: Registry<S>, t: Tables, c: Credential, drawn: seq<Hash>, now: int)
    requires Lawful(reg) && Sound(reg, t) && Clocked(t) && Held(t) && (c.LaunchTicket? ==> FirstFree(t.tokens.Keys, drawn).Some?)
    ensures var (r, after) := Connect(reg, t, c, drawn, now);
      && (r.Ok? <==> Works(t, c, now)) && (r.Err? ==> r == Err(FailureOf(c)) && after == t)
      && (r.Ok? ==>
           && (match c
               case LaunchTicket(h) => r.value.matchId == t.tickets[h].matchId && r.value.session.user == t.tickets[h].user
               case ResumeToken(h) => r.value.token == h && r.value.matchId == t.tokens[h].matchId && r.value.session.user == t.tokens[h].user)
           && t.users[r.value.session.user].epoch == r.value.session.epoch
           && r.value.token in after.tokens
           && after.tokens[r.value.token] == Token(r.value.matchId, r.value.session.user, now + 1800000, now, false))
  {
    hide Sound, Lawful, Clocked, Held, Works, Connect, FirstFree;
    SoundKeys(reg, t);
    hide ForeignKeys, CredentialsActive;
    if Works(t, c, now) {
      WorkingConnects(reg, t, c, drawn, now);
      UsedForHalfAnHour(reg, t, c, drawn, now);
      IdentityIsTheHolders(reg, t, c, drawn, now);
    } else {
      OthersAreRefused(reg, t, c, drawn, now);
    }
  }

  lemma OthersAreRefused<S(!new)>(reg: Registry<S>, t: Tables, c: Credential, drawn: seq<Hash>, now: int)
    requires Lawful(reg) && Sound(reg, t) && Clocked(t) && Held(t) && !Works(t, c, now)
    ensures Connect(reg, t, c, drawn, now) == (Err(FailureOf(c)), t)
  {
    hide Sound, Lawful, Clocked, RebuildSnapshot, Loads, FirstFree, PlaysIn, FileOf, Held;
    var presented := Presented(t, c, now);
    if presented.Some? {
      Presentable(reg, t, c, now);
    }
  }

  lemma WorkingConnects<S(!new)>(reg: Registry<S>, t: Tables, c: Credential, drawn: seq<Hash>, now: int)
    requires Lawful(reg) && Sound(reg, t) && Clocked(t) && Held(t) && Works(t, c, now) && (c.LaunchTicket? ==> FirstFree(t.tokens.Keys, drawn).Some?)
    ensures Connect(reg, t, c, drawn, now).0.Ok?
  {
    hide Sound, Lawful, Clocked, RebuildSnapshot, Loads, FirstFree, PlaysIn, FileOf, Enabled;
    assert Presented(t, c, now).Some?;
    hide Held;
    Presentable(reg, t, c, now);
  }

  /** A presented credential's match is there, active and readable, and its user plays in it. */
  lemma Presentable<S(!new)>(reg: Registry<S>, t: Tables, c: Credential, now: int)
    requires Sound(reg, t) && Clocked(t) && Held(t) && Presented(t, c, now).Some?
    ensures var (id, user) := Presented(t, c, now).value;
      && id in t.matches && Load(t, id) == Ok(FileOf(t, id)) && FileOf(t, id).m == t.matches[id].m && FileOf(t, id).m.status == Active
      && TwoPlayers(FileOf(t, id).players) && Member(FileOf(t, id).players, user)
      && (c.LaunchTicket? && c.hash in t.tickets ==> t.tickets[c.hash].game == FileOf(t, id).m.game)
      && RebuildSnapshot(reg, t, id, FileOf(t, id)).Ok?
  {
    SoundKeys(reg, t);
    hide Sound, Clocked, RebuildSnapshot, Loads, PlaysIn, Selected, Good, Replay, SlotsComplete, SeatOf;
    var (id, user) := Presented(t, c, now).value;
    FilePlayers(reg, t, id);
    LoadsWhenClocked(reg, t, id);
    MembersPlay(t, id, user);
  }

  lemma IdentityIsTheHolders<S(!new)>(reg: Registry<S>, t: Tables, c: Credential, drawn: seq<Hash>, now: int)
    requires Connect(reg, t, c, drawn, now).0.Ok?
    ensures var identity := Connect(reg, t, c, drawn, now).0.value;
      && (match c
          case LaunchTicket(h) =>
            h in t.tickets && identity.matchId == t.tickets[h].matchId && identity.session.user == t.tickets[h].user
          case ResumeToken(h) =>
            h in t.tokens && identity.token == h && identity.matchId == t.tokens[h].matchId && identity.session.user == t.tokens[h].user)
      && identity.session.user in t.users && t.users[identity.session.user].epoch == identity.session.epoch
  {
    hide RebuildSnapshot, Load, Loads, FirstFree, SeatOf;
  }
}
