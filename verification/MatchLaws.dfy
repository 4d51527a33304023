/** What a match's log tells about the requests behind it: which operation may append an event,
    when, and in whose name. */
module MatchLaws {
  import opened Common
  import opened MatchModel
  import opened MatchTables
  import opened MatchFiles
  import opened MatchProofs
  import opened MatchRuns
  import opened MatchClock
  import Rps

  // ------------------------------------------------------------------- one appended action

  /** The request names the log it was made for. Only a rock-paper-scissors throw may lag behind,
      by the one event its sender cannot have seen: the opponent's locked choice. */
  predicate Timely(game: GameId, log: seq<StoredEvent>, r: Request) {
    r.expectedRevision == |log| || (r.expectedRevision + 1 == |log| && SecondThrow(game, log, r))
  }

  predicate SecondThrow(game: GameId, log: seq<StoredEvent>, r: Request) {
    && game == RpsGame && r.action.RpsThrow? && log != []
    && var last := log[|log| - 1];
       last.kind.Accepted? && last.kind.payload.RpsStep? && last.kind.payload.rps.ChoiceLocked? && last.actor != Some(r.actor)
  }

  /** The session is its user's present one. */
  predicate SessionHolds(t: Tables, r: Request) {
    r.session.Some? ==>
      && r.session.value.user in t.users && t.users[r.session.value.user].enabled
      && t.users[r.session.value.user].epoch == r.session.value.epoch
  }

  /** The match row moves along with the log, and is closed when the match ends. */
  predicate Dated(g: File, now: int) {
    g.m.revision == |g.events| && g.m.updatedAt == now && (g.m.status != Active ==> g.m.finishedAt == Some(now))
  }

  /** Exactly one event is new: this request's own, or the abandonment that takes the last place
      of a flight-chess log. */
  predicate Appended(f: File, g: File, r: Request, now: int) {
    && |g.events| == |f.events| + 1 && g.events[..|f.events|] == f.events && Dated(g, now)
    && var e := g.events[|f.events|];
       && e.revision == |g.events| && e.createdAt == now
       && (if e.kind.MatchAbandoned? then
             f.m.game == FlightGame && |g.events| == 512 && e.actor == None && e.actionId == None && g.m.status == Abandoned
           else
             e.actor == Some(r.actor) && e.actionId == Some(r.actionId) && Says(e.kind, r.action, r.actor, f.players))
  }

  /** The event carries out the action that was asked for. */
  predicate Says(kind: EventKind, a: Action, actor: UserId, players: seq<Player>) {
    match a
    case Resign(game) =>
      && kind.Resigned? && kind.game == game && kind.user == actor && kind.winner != actor
      && exists i :: 0 <= i < |players| && players[i].user == kind.winner
    case _ => kind.Accepted? && SameMeaning(kind.payload, a, actor)
  }

  /** An action makes a log grow only in the name of a player of an active match, over a session that
      holds, under an identifier this player has not used before, and for the log as it is: the
      revision it expects is the length of the log, or one less for the second throw of a round. */
  lemma ActionAppends<S(!new)>(reg: Registry<S>, t: Tables, r: Request, die: int, now: int, id: MatchId)
    requires Commits(reg, t, ActOp(r, die, now), id)
    ensures var f, g := FileOf(t, id), FileOf(Exec(reg, t, ActOp(r, die, now)).1, id);
      && id == r.matchId && f.m.status == Active
      && (exists i :: 0 <= i < |f.players| && f.players[i].user == r.actor)
      && SessionHolds(t, r) && Timely(f.m.game, f.events, r)
      && (forall i :: 0 <= i < |f.events| ==> f.events[i].actor != Some(r.actor) || f.events[i].actionId != Some(r.actionId))
      && Appended(f, g, r, now)
  {
    hide FileOf, Act, Decide, Write, RebuildSnapshot, EarlierEvent, FindAction, Appended, SeatOf, SessionHolds, Says, Timely;
    ActGoesThroughWrite(reg, t, r, die, now);
    var f := FileOf(t, r.matchId);
    var rules := reg.configured(f.m.game, f.m.config).value;
    var current := RebuildSnapshot(reg, t, r.matchId, f).value.game;
    var d := Decide(rules, f, current, r.actor, r.action, die).value;
    NothingFound(t, r, f);
    FindActionSpec(f.events, r.actor, r.actionId);
    RebuiltRevision(reg, t, r.matchId, f);
    TimelyIsMeant(f, r);
    DecisionSays(rules, f, current, r.actor, r.action, die);
    WriteAppends(reg, t, f, d, r, now, id);
    SeatIsThere(f.players, r.actor);
  }

  /** Only one path of an action writes anything. */
  lemma ActGoesThroughWrite<S(!new)>(reg: Registry<S>, t: Tables, r: Request, die: int, now: int)
    requires Act(reg, t, r, die, now).1 != t
    ensures r.matchId in t.matches
    ensures var f := FileOf(t, r.matchId);
      && TwoPlayers(f.players) && f.m.status == Active && Member(f.players, r.actor) && SessionHolds(t, r) && GameOf(r.action) == f.m.game
      && (r.expectedRevision == f.m.revision || AcceptsPreviousRevision(f, r.actor, r.action, r.expectedRevision))
      && EarlierEvent(t, r.matchId, f, r) == Ok(None)
      && reg.configured(f.m.game, f.m.config).Some? && RebuildSnapshot(reg, t, r.matchId, f).Ok?
    ensures var f := FileOf(t, r.matchId);
      var rules := reg.configured(f.m.game, f.m.config).value;
      var d := Decide(rules, f, RebuildSnapshot(reg, t, r.matchId, f).value.game, r.actor, r.action, die);
      d.Ok? && Act(reg, t, r, die, now) == Write(reg, t, r.matchId, f, d.value, r, now)
  {
    hide FileOf, Decide, RebuildSnapshot, EarlierEvent, FindAction, WellFormed, GameOf, SeatOf, AcceptsPreviousRevision, Write, Loads;
  }

  lemma RebuiltRevision<S(!new)>(reg: Registry<S>, t: Tables, id: MatchId, f: File)
    requires TwoPlayers(f.players) && RebuildSnapshot(reg, t, id, f).Ok?
    ensures f.m.revision == |f.events|
  {
    hide SlotsComplete, ScanTo, SummaryFits, LifecycleFits, ResultBelongs;
  }

  lemma TimelyIsMeant(f: File, r: Request)
    requires f.m.revision == |f.events|
    ensures Timely(f.m.game, f.events, r) <==>
      r.expectedRevision == f.m.revision || AcceptsPreviousRevision(f, r.actor, r.action, r.expectedRevision)
  {
  }

  lemma SeatIsThere(players: seq<Player>, user: UserId)
    requires |players| == 2
    ensures Member(players, user) <==> exists i :: 0 <= i < |players| && players[i].user == user
  {
  }

  /** What a decision will write carries out the action, or is the abandonment. */
  lemma DecisionSays<S(!new)>(rules: Rules<S>, f: File, current: GameSnapshot<S>, actor: UserId, action: Action, die: int)
    requires TwoPlayers(f.players) && Member(f.players, actor) && GameOf(action) == f.m.game
    requires Decide(rules, f, current, actor, action, die).Ok?
    ensures var d := Decide(rules, f, current, actor, action, die).value;
      d.ending.Some? ==> d.ending.value.status != Active
    ensures var d := Decide(rules, f, current, actor, action, die).value;
      if d.kind.MatchAbandoned? then
        f.m.game == FlightGame && f.m.revision == 511 && d.ending == Some(Ending(Abandoned, None, None))
      else Says(d.kind, action, actor, f.players)
  {
    hide Owned, SameKind, SameMeaning, OnTurn, HasRoom, EndingFits, SafeError;
    assert OpponentOf(f.players, actor) in [f.players[0].user, f.players[1].user];
  }

  lemma WriteAppends<S(!new)>(reg: Registry<S>, t: Tables, f: File, d: Decision<S>, r: Request, now: int, id: MatchId)
    requires r.matchId in t.matches && f == FileOf(t, r.matchId) && TwoPlayers(f.players) && f.m.revision == |f.events| && f.m.status == Active
    requires if d.kind.MatchAbandoned? then f.m.game == FlightGame && f.m.revision == 511 && d.ending == Some(Ending(Abandoned, None, None))
             else Says(d.kind, r.action, r.actor, f.players)
    requires var after := Write(reg, t, r.matchId, f, d, r, now).1;
      id in t.matches && id in after.matches && FileOf(after, id).events != FileOf(t, id).events
    ensures id == r.matchId && Appended(f, FileOf(Write(reg, t, r.matchId, f, d, r, now).1, id), r, now)
  {
    hide Committed, SlotsComplete, Selected, Says;
    var system := d.kind.MatchAbandoned?;
    var g := Extended(f, d.kind, if system then None else Some(r.actionId), if system then None else Some(r.actor), d.ending, now);
    var offlineSince := if d.ending.Some? then None else t.matches[r.matchId].offlineSince;
    FileAfterCommit(t, r.matchId, f, g, offlineSince, id);
    assert FileOf(Write(reg, t, r.matchId, f, d, r, now).1, id) == FileOf(Committed(t, r.matchId, f, g, offlineSince), id);
  }

  // ------------------------------------------------------------------ nobody else appends

  /** A match in which nothing has happened is cancelled by one of its players. */
  predicate CancelledBy(f: File, g: File, actor: UserId, now: int) {
    && f.m.status == Active && f.events == [] && (exists i :: 0 <= i < |f.players| && f.players[i].user == actor)
    && g.events == [StoredEvent(1, MatchCancelled, None, Some(actor), now)] && g.m.status == Cancelled && Dated(g, now)
  }

  /** An active match whose players have all been offline since the cutoff is abandoned. */
  predicate AbandonedSince(f: File, g: File, offlineSince: Option<int>, cutoff: int, now: int) {
    && f.m.status == Active && offlineSince.Some? && offlineSince.value <= cutoff
    && g.events == f.events + [StoredEvent(|f.events| + 1, MatchAbandoned, None, None, now)] && g.m.status == Abandoned && Dated(g, now)
  }

  predicate Entitled(t: Tables, op: Op, f: File, g: File, id: MatchId)
    requires id in t.matches
  {
    match op
    case ActOp(r, _, now) => id == r.matchId && f.m.status == Active && Timely(f.m.game, f.events, r) && Appended(f, g, r, now)
    case CancelOp(cancelled, actor, now) => id == cancelled && CancelledBy(f, g, actor, now)
    case AbandonOp(now) => AbandonedSince(f, g, t.matches[id].offlineSince, now - 86400000, now)
    case AbandonOneOp(abandoned, cutoff, now) => id == abandoned && AbandonedSince(f, g, t.matches[id].offlineSince, cutoff, now)
    case _ => false
  }

  /** Whatever operation makes a log grow: a timely action of a player, the cancellation of a match in
      which nothing has happened by one of its players, or the abandonment of an active match whose
      players have all been offline since the cutoff, a day before the sweep. */
  lemma WhoAppends<S(!new)>(reg: Registry<S>, t: Tables, op: Op, id: MatchId)
    requires Lawful(reg) && Sound(reg, t) && Commits(reg, t, op, id)
    ensures Entitled(t, op, FileOf(t, id), FileOf(Exec(reg, t, op).1, id), id)
  {
    hide *;
    SoundKeys(reg, t);
    ExecCases(reg, t, op);
    Grew(reg, t, op, id);
    match op {
      case ActOp(r, die, now) => ActionAppends(reg, t, r, die, now, id);
      case CancelOp(cancelled, actor, now) => CancelAppends(reg, t, cancelled, actor, now, id);
      case AbandonOp(now) => SweepAppends(reg, t, now, id);
      case AbandonOneOp(abandoned, cutoff, now) => AbandonAppends(reg, t, abandoned, cutoff, now, id);
      case _ => OthersAppendNothing(reg, t, op, id);
    }
    EntitledCases(t, op, FileOf(t, id), FileOf(Exec(reg, t, op).1, id), id);
  }

  lemma Grew<S(!new)>(reg: Registry<S>, t: Tables, op: Op, id: MatchId)
    requires Commits(reg, t, op, id)
    ensures id in t.matches && id in Exec(reg, t, op).1.matches && FileOf(Exec(reg, t, op).1, id).events != FileOf(t, id).events
  {
    hide Exec, FileOf;
  }

  lemma ExecCases<S(!new)>(reg: Registry<S>, t: Tables, op: Op)
    ensures op.ActOp? ==> Exec(reg, t, op).1 == Act(reg, t, op.request, op.die, op.now).1
    ensures op.CancelOp? ==> Exec(reg, t, op).1 == Cancel(reg, t, op.id, op.actor, op.now).1
    ensures op.AbandonOp? ==> Exec(reg, t, op).1 == AbandonExpired(reg, t, op.now).2
    ensures op.AbandonOneOp? ==> Exec(reg, t, op).1 == AbandonIfExpired(reg, t, op.id, op.cutoff, op.now).1
  {
    hide Act, CreateMatch, Cancel, AbandonExpired, AbandonIfExpired, SetPresence, CreateTicket, Connect, MarkOffline, Transfer;
  }

  lemma EntitledCases(t: Tables, op: Op, f: File, g: File, id: MatchId)
    requires id in t.matches
    ensures Entitled(t, op, f, g, id) ==
      match op
      case ActOp(r, _, now) => id == r.matchId && f.m.status == Active && Timely(f.m.game, f.events, r) && Appended(f, g, r, now)
      case CancelOp(cancelled, actor, now) => id == cancelled && CancelledBy(f, g, actor, now)
      case AbandonOp(now) => AbandonedSince(f, g, t.matches[id].offlineSince, now - 86400000, now)
      case AbandonOneOp(abandoned, cutoff, now) => id == abandoned && AbandonedSince(f, g, t.matches[id].offlineSince, cutoff, now)
      case _ => false
  {
    hide Timely, Appended, CancelledBy, AbandonedSince;
  }

  lemma CancelAppends<S(!new)>(reg: Registry<S>, t: Tables, cancelled: MatchId, actor: UserId, now: int, id: MatchId)
    requires Lawful(reg) && Sound(reg, t) && id in t.matches && id in Cancel(reg, t, cancelled, actor, now).1.matches
    requires FileOf(Cancel(reg, t, cancelled, actor, now).1, id).events != FileOf(t, id).events
    ensures id == cancelled && CancelledBy(FileOf(t, id), FileOf(Cancel(reg, t, cancelled, actor, now).1, id), actor, now)
  {
    hide Sound, Lawful, Good, Replay, SlotsComplete, RebuildSnapshot, Committed, HasGameplay, Selected, SeatOf;
    FilePlayers(reg, t, cancelled);
    var f := FileOf(t, cancelled);
    FirstRowPlays(f.events);
    CancellationStep(reg, f, actor, now);
    SeatIsThere(f.players, actor);
    var g := Extended(f, MatchCancelled, None, Some(actor), Some(Ending(Cancelled, None, None)), now);
    FileAfterCommit(t, cancelled, f, g, t.matches[cancelled].offlineSince, id);
  }

  lemma AbandonAppends<S(!new)>(reg: Registry<S>, t: Tables, abandoned: MatchId, cutoff: int, now: int, id: MatchId)
    requires Sound(reg, t) && id in t.matches && id in AbandonIfExpired(reg, t, abandoned, cutoff, now).1.matches
    requires FileOf(AbandonIfExpired(reg, t, abandoned, cutoff, now).1, id).events != FileOf(t, id).events
    ensures id == abandoned && AbandonedSince(FileOf(t, id), FileOf(AbandonIfExpired(reg, t, abandoned, cutoff, now).1, id), t.matches[id].offlineSince, cutoff, now)
  {
    hide Sound, Good, Replay, SlotsComplete, RebuildSnapshot, Committed, Selected, Loads;
    FilePlayers(reg, t, abandoned);
    var f := FileOf(t, abandoned);
    var g := Extended(f, MatchAbandoned, None, None, Some(Ending(Abandoned, None, None)), now);
    FileAfterCommit(t, abandoned, f, g, None, id);
  }

  lemma SweepAppends<S(!new)>(reg: Registry<S>, t: Tables, now: int, id: MatchId)
    requires Lawful(reg) && Sound(reg, t) && id in t.matches && id in AbandonExpired(reg, t, now).2.matches
    requires FileOf(AbandonExpired(reg, t, now).2, id).events != FileOf(t, id).events
    ensures AbandonedSince(FileOf(t, id), FileOf(AbandonExpired(reg, t, now).2, id), t.matches[id].offlineSince, now - 86400000, now)
  {
    hide Sound, Lawful, FileOf, AbandonEach, Sorted;
    var cutoff := now - 86400000;
    SortedAscends(Due(t, cutoff));
    hide Due;
    SweptMatchAppends(reg, t, Sorted(Due(t, cutoff)), cutoff, now, id);
  }

  lemma {:induction false} SweptMatchAppends<S(!new)>(reg: Registry<S>, t: Tables, ids: seq<MatchId>, cutoff: int, now: int, id: MatchId)
    requires Lawful(reg) && Sound(reg, t) && Ascending(ids)
    requires id in t.matches && id in AbandonEach(reg, t, ids, cutoff, now).2.matches
    requires FileOf(AbandonEach(reg, t, ids, cutoff, now).2, id).events != FileOf(t, id).events
    ensures AbandonedSince(FileOf(t, id), FileOf(AbandonEach(reg, t, ids, cutoff, now).2, id), t.matches[id].offlineSince, cutoff, now)
  {
    hide Sound, Lawful, FileOf, AbandonIfExpired;
    if ids != [] {
      var front, last := ids[..|ids| - 1], ids[|ids| - 1];
      var before := AbandonEach(reg, t, front, cutoff, now).2;
      hide AbandonedSince;
      SweepTouchesListed(reg, t, front, cutoff, now);
      OneAbandonTouchesOne(reg, before, last, cutoff, now);
      AbandonEachKeepsSound(reg, t, front, cutoff, now);
      if id == last {
        assert last !in front;
        AbandonAppends(reg, before, last, cutoff, now, id);
      } else {
        SweptMatchAppends(reg, t, front, cutoff, now, id);
      }
    }
  }

  lemma OthersAppendNothing<S(!new)>(reg: Registry<S>, t: Tables, op: Op, id: MatchId)
    requires ForeignKeys(t) && id in t.matches
    requires !op.ActOp? && !op.CancelOp? && !op.AbandonOp? && !op.AbandonOneOp?
    ensures id in Exec(reg, t, op).1.matches && FileOf(Exec(reg, t, op).1, id).events == FileOf(t, id).events
  {
    hide Load, Loads, SeatOf, Enabled, RebuildSnapshot, FirstFree, ForeignKeys;
    hide Connect;
  }

  // --------------------------------------------------------------------- over whole runs

  /** Two actions that a match's log took in, one after the other, never expect the same revision,
      with one exception: the two throws of one rock-paper-scissors round, by its two players, with
      nothing between them. */
  lemma RevisionsDiffer<S(!new)>(reg: Registry<S>, t: Tables, ops: seq<Op>, i: nat, j: nat, id: MatchId)
    requires Lawful(reg) && Sound(reg, t) && forall k :: 0 <= k < |ops| ==> FairDie(ops[k])
    requires i < j < |ops| && ops[i].ActOp? && ops[j].ActOp?
    requires Commits(reg, Run(reg, t, ops[..i]), ops[i], id) && Commits(reg, Run(reg, t, ops[..j]), ops[j], id)
    ensures var first, second := ops[i].request, ops[j].request;
      var log, later := FileOf(Run(reg, t, ops[..i]), id).events, FileOf(Run(reg, t, ops[..j]), id).events;
      first.expectedRevision < second.expectedRevision
      || (first.expectedRevision == second.expectedRevision
          && FileOf(Run(reg, t, ops[..j]), id).m.game == RpsGame && first.action.RpsThrow? && second.action.RpsThrow?
          && first.actor != second.actor && |later| == |log| + 1)
  {
    hide Sound, Lawful, Exec, FairDie, FileOf, Commits, Kept, Run, Appended;
    var here, there := Run(reg, t, ops[..i]), Run(reg, t, ops[..j]);
    var once := Exec(reg, here, ops[i]).1;
    RunKeepsSound(reg, t, ops[..i]);
    OpKeepsSound(reg, here, ops[i]);
    RunSplits(reg, t, ops[..j], i + 1);
    RunSplits(reg, t, ops[..i + 1], i);
    assert ops[..j][..i + 1] == ops[..i + 1] && ops[..i + 1][..i] == ops[..i] && ops[..i + 1][i..] == [ops[i]];
    OneStep(reg, here, ops[i]);
    RunKeeps(reg, once, ops[..j][i + 1..]);
    CommitsThere(reg, here, ops[i], id);
    KeptLog(once, there, id);
    ActionAppends(reg, here, ops[i].request, ops[i].die, ops[i].now, id);
    ActionAppends(reg, there, ops[j].request, ops[j].die, ops[j].now, id);
    AppendedLog(FileOf(here, id), FileOf(once, id), ops[i].request, ops[i].now);
    FollowsTimely(FileOf(here, id), FileOf(once, id), FileOf(there, id), ops[i].request, ops[j].request);
  }

  lemma CommitsThere<S(!new)>(reg: Registry<S>, t: Tables, op: Op, id: MatchId)
    requires Commits(reg, t, op, id)
    ensures id in t.matches && id in Exec(reg, t, op).1.matches
  {
    hide Exec, FileOf;
  }

  lemma AppendedLog(f: File, g: File, r: Request, now: int)
    requires Appended(f, g, r, now)
    ensures |g.events| == |f.events| + 1
    ensures var e := g.events[|f.events|];
      e.kind.Accepted? ==> e.actor == Some(r.actor) && SameMeaning(e.kind.payload, r.action, r.actor)
  {
  }

  lemma FollowsTimely(f: File, g: File, later: File, first: Request, second: Request)
    requires Timely(f.m.game, f.events, first) && Timely(later.m.game, later.events, second)
    requires |g.events| == |f.events| + 1 && g.events <= later.events
    requires var e := g.events[|f.events|];
      e.kind.Accepted? ==> e.actor == Some(first.actor) && SameMeaning(e.kind.payload, first.action, first.actor)
    ensures first.expectedRevision < second.expectedRevision
      || (first.expectedRevision == second.expectedRevision
          && later.m.game == RpsGame && first.action.RpsThrow? && second.action.RpsThrow?
          && first.actor != second.actor && |later.events| == |f.events| + 1)
  {
    if second.expectedRevision <= first.expectedRevision {
      assert |later.events| == |g.events|;
      assert later.events == g.events;
    }
  }

  lemma {:induction false} RunSplits<S(!new)>(reg: Registry<S>, t: Tables, ops: seq<Op>, n: nat)
    requires n <= |ops|
    ensures Run(reg, t, ops) == Run(reg, Run(reg, t, ops[..n]), ops[n..])
  {
    hide Exec;
    if n == |ops| {
      assert ops[..n] == ops;
    } else {
      var front := ops[..|ops| - 1];
      RunSplits(reg, t, front, n);
      assert front[..n] == ops[..n] && ops[n..][..|ops| - n - 1] == front[n..];
    }
  }

  lemma OneStep<S(!new)>(reg: Registry<S>, t: Tables, op: Op)
    ensures Run(reg, t, [op]) == Exec(reg, t, op).1
  {
    hide Exec;
    assert [op][..0] == [];
    assert Run(reg, t, []) == t;
  }

  /** A new action of a player of an active match that can be read is refused as stale if and only if
      it is not timely. */
  lemma StaleExactlyIfNotTimely<S(!new)>(reg: Registry<S>, t: Tables, r: Request, die: int, now: int)
    requires Lawful(reg) && Sound(reg, t) && 1 <= die <= 6 && r.matchId in t.matches
    requires var f := FileOf(t, r.matchId);
      && Loads(f) && f.m.status == Active && Member(f.players, r.actor) && GameOf(r.action) == f.m.game
      && r.expectedRevision >= 0 && WellFormed(r.action) && SessionHolds(t, r)
      && forall i :: 0 <= i < |f.events| ==> f.events[i].actor != Some(r.actor) || f.events[i].actionId != Some(r.actionId)
    ensures Act(reg, t, r, die, now).0 == Err(StaleRevision) <==>
      !Timely(FileOf(t, r.matchId).m.game, FileOf(t, r.matchId).events, r)
  {
    hide Sound, Lawful, Good, Replay, SlotsComplete, FileOf, Decide, Write, RebuildSnapshot, FindAction, WellFormed, GameOf, SeatOf,
      AcceptsPreviousRevision, Loads, Timely;
    var f := FileOf(t, r.matchId);
    FilePlayers(reg, t, r.matchId);
    FindActionSpec(f.events, r.actor, r.actionId);
    TimelyIsMeant(f, r);
    var rules := reg.configured(f.m.game, f.m.config).value;
    DecideIsNotStale(rules, f, Replay(reg, f).value, r.actor, r.action, die);
    WriteIsNotStale(reg, t, r, f, now);
  }

  lemma DecideIsNotStale<S(!new)>(rules: Rules<S>, f: File, current: GameSnapshot<S>, actor: UserId, action: Action, die: int)
    requires TwoPlayers(f.players) && Member(f.players, actor)
    ensures Decide(rules, f, current, actor, action, die) != Err(StaleRevision)
  {
    hide Produced, EndingFits, OnTurn, HasRoom, SeatOf;
  }

  lemma WriteIsNotStale<S(!new)>(reg: Registry<S>, t: Tables, r: Request, f: File, now: int)
    requires r.matchId in t.matches && TwoPlayers(f.players)
    ensures forall d: Decision<S> :: Write(reg, t, r.matchId, f, d, r, now).0 != Err(StaleRevision)
  {
    hide Committed, SlotsComplete, Extended;
  }
}
