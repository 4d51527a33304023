/** The match service with its five built-in games, and the presence timer against its rows. */
module MatchTheorems {
  import opened Common
  import opened MatchModel
  import opened MatchTables
  import opened MatchFiles
  import opened MatchProofs
  import opened MatchRuns
  import opened MatchGames
  import opened MatchClock
  import MatchGamesProofs
  import Presence
  import Rps

  /** Every operation so far found the clock, the die and the random draws it needs. */
  ghost predicate WellSupplied(users: map<UserId, User>, ops: seq<Op>) {
    forall i :: 0 <= i < |ops| ==> Supplied(Run(BuiltIn(), NoTables(users), ops[..i]), ops[i])
  }

  /** With gomoku, reversi, Chinese checkers, flight chess and rock-paper-scissors installed:
      after any history every stored match loads and rebuilds from its own log, and the next
      operation, whatever it is, does not answer an internal error. */
  lemma {:induction false} TheServiceHolds(users: map<UserId, User>, ops: seq<Op>, id: MatchId, op: Op)
    requires WellSupplied(users, ops)
    ensures var t := Run(BuiltIn(), NoTables(users), ops);
      && (id in t.matches ==> SnapshotOf(BuiltIn(), t, id).Ok? && SnapshotOf(BuiltIn(), t, id).value.m == t.matches[id].m)
      && (Supplied(t, op) ==> Exec(BuiltIn(), t, op).0 != Some(Internal))
  {
    hide Sound, Clocked, Supplied, Lawful, Exec, Run, BuiltIn, SnapshotOf;
    MatchGamesProofs.BuiltInIsLawful();
    EveryMatchRebuilds(BuiltIn(), users, ops, id);
    var t := Run(BuiltIn(), NoTables(users), ops);
    if Supplied(t, op) {
      NeverInternal(BuiltIn(), t, op);
    }
  }

  /** Over every history, whatever the clock shows, a match is active exactly while both players'
      slots point to it, nothing but its players' slots ever does, its credentials die with it,
      and an active match can always take one more event. */
  lemma {:induction false} SlotsFollowTheMatch(users: map<UserId, User>, ops: seq<Op>, t: Tables, id: MatchId)
    requires (forall i :: 0 <= i < |ops| ==> FairDie(ops[i])) && t == Run(BuiltIn(), NoTables(users), ops) && id in t.matches
    ensures var f := FileOf(t, id);
      && |f.players| == 2
      && (f.m.status == Active <==> forall p :: 0 <= p < 2 ==>
            (f.m.game, f.players[p].user) in t.slots && t.slots[(f.m.game, f.players[p].user)] == id)
      && (forall k :: k in t.slots && t.slots[k] == id ==> k.0 == f.m.game && (k.1 == f.players[0].user || k.1 == f.players[1].user))
      && (f.m.status != Active ==> forall h :: h in t.tickets ==> t.tickets[h].matchId != id)
      && (f.m.status != Active ==> forall h :: h in t.tokens ==> t.tokens[h].matchId != id)
      && (f.m.status == Active ==> f.m.revision < MaximumMatchEventsFor(f.m.game))
  {
    hide Sound, Clocked, Supplied, Lawful, Run, BuiltIn, Configured, FileOf, NoTables, WellSupplied, MaximumMatchEventsFor, FairDie;
    SoundlyBuilt(users, ops);
    AllSingle(t.matches[id].m.game);
    ActiveExactlyWhileSeated(BuiltIn(), t, id);
  }

  lemma {:induction false} SoundlyBuilt(users: map<UserId, User>, ops: seq<Op>)
    requires forall i :: 0 <= i < |ops| ==> FairDie(ops[i])
    ensures Lawful(BuiltIn()) && Sound(BuiltIn(), Run(BuiltIn(), NoTables(users), ops))
  {
    hide Sound, Clocked, Lawful, Run, BuiltIn, NoTables, FairDie;
    MatchGamesProofs.BuiltInIsLawful();
    EmptyIsSound(BuiltIn(), users);
    RunKeepsSound(BuiltIn(), NoTables(users), ops);
  }

  lemma AllSingle(g: GameId)
    ensures BuiltIn().single(g)
  {
    hide Configured;
  }

  /** The presence model's store calls are the service's own: on the row of a match that loads,
      for one of its players, and for start-up recovery. */
  lemma PresenceWritesTheRow(t: Tables, id: MatchId, user: UserId, now: int, w: Presence.World)
    requires Load(t, id).Ok? && Member(FileOf(t, id).players, user)
    requires w.active == (t.matches[id].m.status == Active) && w.timer == t.matches[id].offlineSince
    ensures SetPresence(t, id, user, true, now).0 == Ok(())
    ensures SetPresence(t, id, user, true, now).1.matches[id].offlineSince == Presence.StoreOnline(w).timer
    ensures SetPresence(t, id, user, false, now).1.matches[id].offlineSince == Presence.StoreOffline(w, now).timer
    ensures MarkOffline(t, now).matches[id].offlineSince == Presence.Restarted(w, now).timer
  {
  }

  // ----------------------------------------------------------------- a sweep that is blocked

  lemma RunOfThree<S>(reg: Registry<S>, t: Tables, a: Op, b: Op, c: Op)
    ensures Run(reg, t, [a, b, c]) == Exec(reg, Exec(reg, Exec(reg, t, a).1, b).1, c).1
  {
    hide Exec;
    var ops := [a, b, c];
    assert ops[..2] == [a, b] && [a, b][..1] == [a] && [a][..0] == [];
    assert Run(reg, t, [a]) == Exec(reg, t, a).1;
    assert Run(reg, t, [a, b]) == Exec(reg, Exec(reg, t, a).1, b).1;
  }

  /** What an accepted action that does not end its match leaves. */
  lemma ActCommits<S>(reg: Registry<S>, rules: Rules<S>, t: Tables, f: File, r: Request, snapshot: Snapshot<S>, d: Decision<S>, die: int, now: int)
    requires r.expectedRevision == f.m.revision >= 0 && WellFormed(r.action) && r.session.None?
    requires Load(t, r.matchId) == Ok(f) && f.m.game == GameOf(r.action) && reg.configured(f.m.game, f.m.config) == Some(rules)
    requires TwoPlayers(f.players) && f.events == [] && f.m.status == Active && Member(f.players, r.actor)
    requires RebuildSnapshot(reg, t, r.matchId, f) == Ok(snapshot)
    requires Decide(rules, f, snapshot.game, r.actor, r.action, die) == Ok(d) && d.ending.None? && !d.kind.MatchAbandoned?
    ensures Act(reg, t, r, die, now).1
            == Committed(t, r.matchId, f, Extended(f, d.kind, Some(r.actionId), Some(r.actor), None, now), t.matches[r.matchId].offlineSince)
  {
    hide Decide, RebuildSnapshot, Loads, WellFormed, GameOf, Committed, Selected, SeatOf, SlotsComplete, AcceptsPreviousRevision;
  }

  const ROUND := Some(Rps.SingleRound)

  function NewFileAt(created: int): File {
    File(NewMatch(RpsGame, ROUND, created), [Player(1, Black), Player(2, White)], [])
  }

  // A match of players 1 and 2, created and gone offline at the same moment.
  function CreatedAt(created: int): Tables {
    CreateMatch(BuiltIn(), NoTables(map[1 := User(true, 0), 2 := User(true, 0)]), RpsGame, 1, 2, ROUND, Black, 7, created).1
  }

  function AwayFrom(created: int): Tables {
    SetPresence(CreatedAt(created), 7, 1, false, created).1
  }

  lemma CreatedFacts(created: int)
    ensures var t := CreatedAt(created);
      && t.matches == map[7 := Row(NewFileAt(created).m, None)] && t.players == map[7 := NewFileAt(created).players] && t.events == map[]
      && t.slots == map[(RpsGame, 1) := 7, (RpsGame, 2) := 7]
  {
    hide RpsRules;
  }

  lemma AwayFacts(created: int)
    ensures var t := AwayFrom(created);
      && 7 in t.matches && FileOf(t, 7) == NewFileAt(created) && t.matches[7].offlineSince == Some(created)
      && Load(t, 7) == Ok(NewFileAt(created)) && SlotsComplete(t, 7, NewFileAt(created), true)
  {
    CreatedFacts(created);
    hide CreatedAt;
    var t := AwayFrom(created);
    assert SlotsOf(t, 7) == ExpectedSlots(NewFileAt(created), true);
  }

  function FirstPosition(): Snap {
    GameSnapshot(0, RpsState(Rps.InitialSnapshot(Rps.SingleRound).state))
  }

  lemma NewFileReplays(created: int)
    ensures Replay(BuiltIn(), NewFileAt(created)) == Ok(FirstPosition())
  {
  }

  lemma ChoiceIsLocked()
    ensures var reply := Rps.ApplyChoice(Rps.SingleRound, Rps.InitialSnapshot(Rps.SingleRound), 1, Rps.Rock);
      && reply.Ok? && reply.value.event == GameEvent(1, 1, Rps.ChoiceLocked(1, 1, Rps.Rock))
      && reply.value.next.revision == 1 && reply.value.next.state.active
  {
  }

  lemma FirstChoice(created: int) returns (d: Decision<GameState>)
    ensures Decide(RpsRules(Rps.SingleRound), NewFileAt(created), FirstPosition(), 1, RpsThrow(Rps.Rock), 1) == Ok(d)
    ensures d.ending.None? && d.kind.Accepted?
  {
    hide Rps.ApplyChoice;
    ChoiceIsLocked();
    d := Decide(RpsRules(Rps.SingleRound), NewFileAt(created), FirstPosition(), 1, RpsThrow(Rps.Rock), 1).value;
  }

  const FIRST_CHOICE := Request(7, 1, 0, 0, RpsThrow(Rps.Rock), None)

  /** A run that leaves an active match unreadable with its timer set: created and gone offline at
      one moment, a choice committed a moment before it. From then on every sweep stops there. */
  lemma OneActionCanBlockTheSweep(created: int)
    ensures var t := Run(BuiltIn(), NoTables(map[1 := User(true, 0), 2 := User(true, 0)]),
                         [CreateOp(RpsGame, 1, 2, ROUND, Black, 7, created), PresenceOp(7, 1, false, created), ActOp(FIRST_CHOICE, 1, created - 1)]);
      Unreadable(t, 7) && t.matches[7].m.status == Active && t.matches[7].offlineSince == Some(created)
  {
    hide Run, CreateMatch, SetPresence, Act, Decide, Replay, Committed, RpsRules;
    RunOfThree(BuiltIn(), NoTables(map[1 := User(true, 0), 2 := User(true, 0)]),
               CreateOp(RpsGame, 1, 2, ROUND, Black, 7, created), PresenceOp(7, 1, false, created), ActOp(FIRST_CHOICE, 1, created - 1));
    var t, f := AwayFrom(created), NewFileAt(created);
    AwayFacts(created);
    NewFileReplays(created);
    var d := FirstChoice(created);
    var snapshot := Snapshot(f.m, f.players, Replay(BuiltIn(), f).value);
    ActCommits(BuiltIn(), RpsRules(Rps.SingleRound), t, f, FIRST_CHOICE, snapshot, d, 1, created - 1);
    var g := Extended(f, d.kind, Some(0), Some(1), None, created - 1);
    CommittedColumns(t, 7, f, g, Some(created));
    FileAfterCommit(t, 7, f, g, Some(created), 7);
    assert g.events[0].kind.Accepted?;
    hide AwayFrom, FileOf;
  }
}
