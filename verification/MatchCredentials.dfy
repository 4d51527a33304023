/** Launch tickets, resume tokens and sessions over whole runs of the match service: a credential
    that has been used up, replaced or revoked never works again, and no player has two of a kind
    for one match. */
module MatchCredentials {
  import opened Common
  import opened MatchModel
  import opened MatchTables
  import opened MatchFiles
  import opened MatchProofs
  import opened MatchRuns

  /** The credential cannot be presented any more: its ticket is used or gone, its token revoked or gone. */
  predicate Dead(t: Tables, c: Credential) {
    match c
    case LaunchTicket(h) => h in t.tickets ==> t.tickets[h].consumed.Some?
    case ResumeToken(h) => h in t.tokens ==> t.tokens[h].revoked
  }

  // The random source draws the credential's hash a second time.
  predicate Redraws(op: Op, c: Credential) {
    match c
    case LaunchTicket(h) => op.TicketOp? && h in op.candidates
    case ResumeToken(h) => op.ConnectOp? && h in op.candidates
  }

  predicate SamePlace(a: Ticket, b: Ticket) {
    a.matchId == b.matchId && a.user == b.user && a.game == b.game
  }

  predicate Unique(t: Tables) {
    && (forall h, k :: h in t.tokens && k in t.tokens && t.tokens[h].matchId == t.tokens[k].matchId && t.tokens[h].user == t.tokens[k].user ==> h == k)
    && (forall h, k :: h in t.tickets && k in t.tickets && SamePlace(t.tickets[h], t.tickets[k]) ==> h == k)
  }

  // --------------------------------------------------------- operations that issue nothing

  ghost predicate Fewer(t: Tables, after: Tables) {
    && (forall h :: h in after.tickets ==> h in t.tickets && after.tickets[h] == t.tickets[h])
    && (forall h :: h in after.tokens ==> h in t.tokens && after.tokens[h] == t.tokens[h])
  }

  lemma SameIsFewer(t: Tables, after: Tables)
    requires after.tickets == t.tickets && after.tokens == t.tokens
    ensures Fewer(t, after)
  {
  }

  lemma FewerKeeps(t: Tables, after: Tables, c: Credential)
    requires Fewer(t, after)
    ensures Dead(t, c) ==> Dead(after, c)
    ensures Unique(t) ==> Unique(after)
  {
  }

  lemma CommitIsFewer(t: Tables, id: MatchId, f: File, g: File, offlineSince: Option<int>)
    requires |f.players| == 2
    ensures Fewer(t, Committed(t, id, f, g, offlineSince))
  {
    hide WithoutSlots;
  }

  lemma ActIsFewer<S(!new)>(reg: Registry<S>, t: Tables, r: Request, die: int, now: int)
    ensures Fewer(t, Act(reg, t, r, die, now).1)
  {
    hide RebuildSnapshot, EarlierEvent, Decide, Write, WellFormed, GameOf, Selected, AcceptsPreviousRevision, SeatOf, ValidSession, Loads;
    var after := Act(reg, t, r, die, now).1;
    if after != t {
      var f := Load(t, r.matchId).value;
      var rules := reg.configured(f.m.game, f.m.config).value;
      var current := RebuildSnapshot(reg, t, r.matchId, f).value.game;
      WriteIsFewer(reg, t, r.matchId, Decide(rules, f, current, r.actor, r.action, die).value, r, now);
    }
  }

  lemma WriteIsFewer<S(!new)>(reg: Registry<S>, t: Tables, id: MatchId, d: Decision<S>, r: Request, now: int)
    requires id in t.matches && TwoPlayers(FileOf(t, id).players)
    ensures Fewer(t, Write(reg, t, id, FileOf(t, id), d, r, now).1)
  {
    hide Committed, SlotsComplete, Selected;
    var f, system := FileOf(t, id), d.kind.MatchAbandoned?;
    var g := Extended(f, d.kind, if system then None else Some(r.actionId), if system then None else Some(r.actor), d.ending, now);
    CommitIsFewer(t, id, f, g, if d.ending.Some? then None else t.matches[id].offlineSince);
  }

  lemma CancelIsFewer<S(!new)>(reg: Registry<S>, t: Tables, id: MatchId, actor: UserId, now: int)
    ensures Fewer(t, Cancel(reg, t, id, actor, now).1)
  {
    hide Committed, HasGameplay, SlotsComplete, SeatOf, Selected;
    if Cancel(reg, t, id, actor, now).0.Ok? {
      var f := FileOf(t, id);
      var g := Extended(f, MatchCancelled, None, Some(actor), Some(Ending(Cancelled, None, None)), now);
      CommitIsFewer(t, id, f, g, t.matches[id].offlineSince);
    }
  }

  lemma AbandonIsFewer<S(!new)>(reg: Registry<S>, t: Tables, id: MatchId, cutoff: int, now: int)
    ensures Fewer(t, AbandonIfExpired(reg, t, id, cutoff, now).1)
  {
    hide Committed, RebuildSnapshot, Selected, Loads;
    var r := AbandonIfExpired(reg, t, id, cutoff, now).0;
    if r.Ok? && r.value.Some? {
      var f := FileOf(t, id);
      CommitIsFewer(t, id, f, Extended(f, MatchAbandoned, None, None, Some(Ending(Abandoned, None, None)), now), None);
    }
  }

  lemma {:induction false} SweepIsFewer<S(!new)>(reg: Registry<S>, t: Tables, ids: seq<MatchId>, cutoff: int, now: int)
    ensures Fewer(t, AbandonEach(reg, t, ids, cutoff, now).2)
  {
    hide AbandonIfExpired;
    if ids != [] {
      SweepIsFewer(reg, t, ids[..|ids| - 1], cutoff, now);
      AbandonIsFewer(reg, AbandonEach(reg, t, ids[..|ids| - 1], cutoff, now).2, ids[|ids| - 1], cutoff, now);
    }
  }

  // -------------------------------------------------------------- operations that issue some

  lemma {:induction false} FirstFreeIsFree(taken: set<Hash>, candidates: seq<Hash>)
    ensures FirstFree(taken, candidates).Some? ==> FirstFree(taken, candidates).value !in taken && FirstFree(taken, candidates).value in candidates
  {
    if candidates != [] && candidates[0] in taken {
      FirstFreeIsFree(taken, candidates[1..]);
    }
  }

  lemma TicketKeepsDead<S(!new)>(reg: Registry<S>, t: Tables, id: MatchId, user: UserId, candidates: seq<Hash>, now: int, c: Credential)
    ensures var after := CreateTicket(reg, t, id, user, candidates, now).1;
      && (Dead(t, c) && (c.LaunchTicket? ==> c.hash !in candidates) ==> Dead(after, c))
      && (Unique(t) ==> Unique(after))
  {
    hide RebuildSnapshot, Load, Loads, FirstFree, SeatOf;
    FirstFreeIsFree(t.tickets.Keys, candidates);
  }

  lemma ConnectKeepsDead<S(!new)>(reg: Registry<S>, t: Tables, used: Credential, candidates: seq<Hash>, now: int, c: Credential)
    ensures var after := Connect(reg, t, used, candidates, now).1;
      && (Dead(t, c) && (c.ResumeToken? ==> c.hash !in candidates) ==> Dead(after, c))
      && (Unique(t) ==> Unique(after))
  {
    hide RebuildSnapshot, Load, Loads, FirstFree, SeatOf, Enabled;
    FirstFreeIsFree(t.tokens.Keys, candidates);
  }

  lemma TransferKeepsDead(t: Tables, user: UserId, epoch: nat, c: Credential)
    ensures Dead(t, c) ==> Dead(Transfer(t, user, epoch), c)
    ensures Unique(t) ==> Unique(Transfer(t, user, epoch))
  {
  }

  lemma SideKeeps<S(!new)>(reg: Registry<S>, t: Tables, op: Op)
    requires op.CreateOp? || op.PresenceOp? || op.BootOp?
    ensures Exec(reg, t, op).1.tickets == t.tickets && Exec(reg, t, op).1.tokens == t.tokens
  {
    hide Load, Loads, SeatOf, Enabled;
  }

  /** Every other operation issues nothing and alters nothing. */
  lemma OthersAreFewer<S(!new)>(reg: Registry<S>, t: Tables, op: Op)
    requires !op.TicketOp? && !op.ConnectOp? && !op.TransferOp?
    ensures Fewer(t, Exec(reg, t, op).1)
  {
    hide CreateMatch, Act, Cancel, AbandonEach, AbandonIfExpired, SetPresence, CreateTicket, Connect, MarkOffline, Transfer, Fewer;
    match op
    case ActOp(request, die, now) => ActIsFewer(reg, t, request, die, now);
    case CancelOp(id, actor, now) => CancelIsFewer(reg, t, id, actor, now);
    case AbandonOp(now) =>
      var cutoff := now - FULLY_OFFLINE_ABANDON_AFTER;
      SweepIsFewer(reg, t, Sorted(Due(t, cutoff)), cutoff, now);
    case AbandonOneOp(id, cutoff, now) => AbandonIsFewer(reg, t, id, cutoff, now);
    case _ =>
      SideKeeps(reg, t, op);
      SameIsFewer(t, Exec(reg, t, op).1);
  }

  lemma OpKeepsDead<S(!new)>(reg: Registry<S>, t: Tables, op: Op, c: Credential)
    ensures Dead(t, c) && !Redraws(op, c) ==> Dead(Exec(reg, t, op).1, c)
    ensures Unique(t) ==> Unique(Exec(reg, t, op).1)
  {
    hide CreateMatch, Act, Cancel, AbandonExpired, AbandonIfExpired, SetPresence, CreateTicket, Connect, MarkOffline, Transfer, Fewer, Dead, Unique;
    match op
    case TicketOp(id, user, candidates, now) => TicketKeepsDead(reg, t, id, user, candidates, now, c);
    case ConnectOp(used, candidates, now) => ConnectKeepsDead(reg, t, used, candidates, now, c);
    case TransferOp(user, epoch, _) => TransferKeepsDead(t, user, epoch, c);
    case _ =>
      OthersAreFewer(reg, t, op);
      FewerKeeps(t, Exec(reg, t, op).1, c);
  }

  // ------------------------------------------------------------------------ whole runs

  /** Over every run a player has at most one resume token, and at most one launch ticket, for a match. */
  lemma {:induction false} OneCredentialEach<S(!new)>(reg: Registry<S>, users: map<UserId, User>, ops: seq<Op>)
    ensures Unique(Run(reg, NoTables(users), ops))
  {
    hide Exec, Unique;
    if ops == [] {
      NobodyHasAny(users);
    } else {
      OneCredentialEach(reg, users, ops[..|ops| - 1]);
      OpKeepsDead(reg, Run(reg, NoTables(users), ops[..|ops| - 1]), ops[|ops| - 1], LaunchTicket(0));
    }
  }

  lemma NobodyHasAny(users: map<UserId, User>)
    ensures Unique(NoTables(users))
  {
  }

  /** A dead credential stays dead over every run that does not draw its hash again: presenting it
      fails, and changes nothing. */
  lemma {:induction false} DeadForGood<S(!new)>(reg: Registry<S>, t: Tables, ops: seq<Op>, c: Credential, candidates: seq<Hash>, now: int)
    requires Dead(t, c) && forall i :: 0 <= i < |ops| ==> !Redraws(ops[i], c)
    ensures var later := Run(reg, t, ops);
      Dead(later, c) && Connect(reg, later, c, candidates, now) == (Err(if c.LaunchTicket? then TicketInvalid else ResumeExpired), later)
  {
    hide Exec, Dead, Redraws, Connect;
    if ops != [] {
      var front := ops[..|ops| - 1];
      DeadForGood(reg, t, front, c, candidates, now);
      OpKeepsDead(reg, Run(reg, t, front), ops[|ops| - 1], c);
    }
    DeadIsRefused(reg, Run(reg, t, ops), c, candidates, now);
  }

  lemma DeadIsRefused<S(!new)>(reg: Registry<S>, t: Tables, c: Credential, candidates: seq<Hash>, now: int)
    requires Dead(t, c)
    ensures Connect(reg, t, c, candidates, now) == (Err(if c.LaunchTicket? then TicketInvalid else ResumeExpired), t)
  {
    hide RebuildSnapshot, Load, Enabled, FirstFree;
  }

  /** A launch ticket works once: connecting with it kills it, and every older token of the same
      player for the same match. */
  lemma ConnectingUsesUp<S(!new)>(reg: Registry<S>, t: Tables, h: Hash, candidates: seq<Hash>, now: int)
    requires Connect(reg, t, LaunchTicket(h), candidates, now).0.Ok?
    ensures var (r, after) := Connect(reg, t, LaunchTicket(h), candidates, now);
      && Dead(after, LaunchTicket(h)) && r.value.token !in t.tokens && r.value.token in after.tokens
      && forall k :: k in t.tokens && t.tokens[k].matchId == r.value.matchId && t.tokens[k].user == r.value.session.user ==>
           Dead(after, ResumeToken(k))
  {
    hide RebuildSnapshot, Load, Loads, FirstFree, SeatOf;
    FirstFreeIsFree(t.tokens.Keys, candidates);
  }

  /** So no ticket ever connects twice, whatever happens in between. */
  lemma TicketWorksOnce<S(!new)>(reg: Registry<S>, t: Tables, h: Hash, candidates: seq<Hash>, now: int, ops: seq<Op>, later: seq<Hash>, laterNow: int)
    requires Connect(reg, t, LaunchTicket(h), candidates, now).0.Ok?
    requires forall i :: 0 <= i < |ops| ==> !Redraws(ops[i], LaunchTicket(h))
    ensures Connect(reg, Run(reg, Connect(reg, t, LaunchTicket(h), candidates, now).1, ops), LaunchTicket(h), later, laterNow).0 == Err(TicketInvalid)
  {
    hide Connect, Run, Redraws, Dead;
    ConnectingUsesUp(reg, t, h, candidates, now);
    DeadForGood(reg, Connect(reg, t, LaunchTicket(h), candidates, now).1, ops, LaunchTicket(h), later, laterNow);
  }

  /** Moving an account kills all its credentials, and its open sessions unless the epoch repeats. */
  lemma TransferKillsAll(t: Tables, user: UserId, epoch: nat)
    ensures var after := Transfer(t, user, epoch);
      && (forall h :: h in t.tickets && t.tickets[h].user == user ==> Dead(after, LaunchTicket(h)))
      && (forall h :: h in t.tokens && t.tokens[h].user == user ==> Dead(after, ResumeToken(h)))
      && (forall s: Session :: s.user == user && s.epoch != epoch ==> !ValidSession(after, s))
  {
  }
}
