/** The one revision of lateness the match service forgives: a second simultaneous choice. */
module LateChoice {
  import opened Common
  import opened MatchModel
  import opened MatchFiles
  import opened MatchGames
  import MatchGamesProofs
  import Rps
  import RpsProofs

  /** The position the late sender saw: the log without its last event. */
  ghost predicate Saw(format: Rps.Format, f: File, expectedRevision: int, seen: Snap)
    requires TwoPlayers(f.players) && ScanOf(f).Some?
  {
    var log := ScanOf(f).value.accepted;
    && |log| == expectedRevision + 1 && expectedRevision >= 0
    && RpsRules(format).rebuild(log[..expectedRevision]) == Ok(seen) && seen.revision == expectedRevision && seen.state.RpsState?
  }

  lemma {:induction false} LastRow(g: GameId, players: seq<Player>, events: seq<StoredEvent>)
    requires TwoPlayers(players) && events != [] && ScanTo(g, players, events, |events|).Some?
    requires events[|events| - 1].kind.Accepted?
    ensures var log, last := ScanTo(g, players, events, |events|).value.accepted, events[|events| - 1];
      log != [] && last.actor.Some? && Last(log) == GameEvent(last.revision, last.actor.value, last.kind.payload)
  {
    hide RowFits;
  }

  /** What the last live step of a match waiting for a second choice was. */
  lemma WaitingFor(format: Rps.Format, players: seq<Player>, log: GameEvents, snap: Snap) returns (prev: Snap, hidden: Rps.Choice)
    requires TwoPlayers(players) && log != [] && Reached(RpsRules(format), RpsGame, players, log, snap)
    requires Last(log).payload.RpsStep? && Last(log).payload.rps.ChoiceLocked?
    ensures prev.state.RpsState? && snap.state.RpsState?
    ensures RpsRules(format).rebuild(Front(log)) == Ok(prev) && prev.revision == |log| - 1 < MAXIMUM_MATCH_EVENTS - 2
    ensures var own := GameSnapshot(prev.revision, prev.state.rps);
      var reply := Rps.ApplyChoice(format, own, Last(log).actor, hidden);
      && RpsProofs.Fair(own, format, players[0].user, players[1].user)
      && Last(log).actor in {players[0].user, players[1].user}
      && reply.Ok? && reply.value.event.payload.ChoiceLocked?
      && reply.value.next == GameSnapshot(snap.revision, snap.state.rps)
  {
    hide Rps.ApplyChoice, RpsRules, RpsProofs.Fair, SummaryFits, Ends;
    var p, action, die :|
      LiveStep(RpsRules(format), RpsGame, players, p, action, die, Last(log), snap)
      && Reached(RpsRules(format), RpsGame, players, Front(log), p);
    MatchGamesProofs.RpsReached(format, players, Front(log), p);
    MatchGamesProofs.RpsEngineStep(format, players, p, action, die, Last(log), snap);
    MatchGamesProofs.RpsFacts(format, players, Front(log), p);
    prev, hidden := p, action.choice;
  }

  /** A lock leaves a whole round's room: the opponent's choice still fits the event budget. */
  lemma SecondChoiceFits(format: Rps.Format, a: UserId, b: UserId, seen: Rps.Snap, opponent: UserId, hidden: Rps.Choice)
    requires RpsProofs.Fair(seen, format, a, b) && seen.revision < MAXIMUM_MATCH_EVENTS - 2
    requires Rps.ApplyChoice(format, seen, opponent, hidden).Ok?
    requires Rps.ApplyChoice(format, seen, opponent, hidden).value.event.payload.ChoiceLocked?
    ensures HasRoom(RpsGame, seen.revision + 1)
    ensures Rps.ApplyChoice(format, seen, opponent, hidden).value.next.revision == seen.revision + 1
    ensures Rps.ApplyChoice(format, seen, opponent, hidden).value.next.state.active
  {
    assert |seen.state.choices| == 0;
  }

  lemma ChoiceIsDecided(format: Rps.Format, f: File, now: Snap, actor: UserId, choice: Rps.Choice, die: int)
    requires TwoPlayers(f.players) && Member(f.players, actor) && f.m.game.RpsGame? && HasRoom(f.m.game, f.m.revision)
    requires now.state.RpsState? && Rps.ApplyChoice(format, GameSnapshot(now.revision, now.state.rps), actor, choice).Ok?
    requires Decide(RpsRules(format), f, now, actor, RpsThrow(choice), die) != Err(Internal)
    ensures var reply := Decide(RpsRules(format), f, now, actor, RpsThrow(choice), die);
      var late := Rps.ApplyChoice(format, GameSnapshot(now.revision, now.state.rps), actor, choice).value;
      reply.Ok? && reply.value.kind == Accepted(RpsStep(late.event.payload))
  {
    hide Rps.ApplyChoice, Produced, EndingFits, SummaryOf, ColorOf, Member, TwoPlayers;
  }

  /** The file's rules and log, when a late choice is forgiven. */
  lemma WaitingFile(f: File, format: Rps.Format, actor: UserId, choice: Rps.Choice, expectedRevision: int)
    requires Good(BuiltIn(), f) && f.m.status == Active && f.m.config == Some(format) && Member(f.players, actor)
    requires AcceptsPreviousRevision(f, actor, RpsThrow(choice), expectedRevision)
    ensures TwoPlayers(f.players) && ScanOf(f).Some? && Replay(BuiltIn(), f).Ok?
    ensures RulesOf(BuiltIn(), f) == RpsRules(format) && f.m.game.RpsGame?
    ensures var log := ScanOf(f).value.accepted;
      && log != [] && |log| == expectedRevision + 1 == f.m.revision && Reached(RpsRules(format), RpsGame, f.players, log, Replay(BuiltIn(), f).value)
      && Last(log).payload.RpsStep? && Last(log).payload.rps.ChoiceLocked? && Last(log).actor != actor
  {
    MatchGamesProofs.BuiltInIsLawful();
    ActiveFile(BuiltIn(), f);
    hide Lawful, Replay, ScanTo, Reached, RpsRules, LawfulRules, SummaryFits, Facts;
    LastRow(f.m.game, f.players, f.events);
  }

  /** Whenever the service forgives a revision, the choice is accepted, and it closes exactly the
      round that its sender saw. */
  lemma LateChoiceClosesTheRoundItSaw(f: File, format: Rps.Format, actor: UserId, choice: Rps.Choice, expectedRevision: int, die: int)
    requires Good(BuiltIn(), f) && f.m.status == Active && f.m.config == Some(format) && Member(f.players, actor)
    requires AcceptsPreviousRevision(f, actor, RpsThrow(choice), expectedRevision) && 1 <= die <= 6
    ensures var reply := Decide(RulesOf(BuiltIn(), f), f, Replay(BuiltIn(), f).value, actor, RpsThrow(choice), die);
      exists seen: Snap ::
        && Saw(format, f, expectedRevision, seen)
        && reply.Ok? && reply.value.kind.Accepted? && Closes(reply.value.kind.payload, seen.state, actor, choice)
  {
    hide Good, Replay, Reached, ScanTo, RpsRules, AcceptsPreviousRevision, Decide, RpsProofs.Fair, Lawful, Rps.ApplyChoice, RulesOf, BuiltIn, SeatOf;
    MatchGamesProofs.BuiltInIsLawful();
    WaitingFile(f, format, actor, choice, expectedRevision);
    DecisionIsGood(BuiltIn(), f, 0, actor, RpsThrow(choice), die, 0);
    var log, now := ScanOf(f).value.accepted, Replay(BuiltIn(), f).value;
    var prev, hidden := WaitingFor(format, f.players, log, now);
    var own, opponent := GameSnapshot(prev.revision, prev.state.rps), Last(log).actor;
    SecondChoiceFits(format, f.players[0].user, f.players[1].user, own, opponent, hidden);
    RpsProofs.LateChoiceBelongsToItsRound(format, f.players[0].user, f.players[1].user, own, opponent, hidden, actor, choice);
    ChoiceIsDecided(format, f, now, actor, choice, die);
    assert Saw(format, f, expectedRevision, prev);
  }

  /** The payload reveals the round that `seen` was in, with the sender's own, till then unmade choice. */
  predicate Closes(p: Payload, seen: GameState, actor: UserId, choice: Rps.Choice) {
    && seen.RpsState? && actor !in seen.rps.choices && p.RpsStep? && p.rps.RoundRevealed?
    && p.rps.shown.round == seen.rps.round && actor in p.rps.shown.choices && p.rps.shown.choices[actor] == choice
  }
}
