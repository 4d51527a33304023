/** One match's rows, for any lawful rules: every row the service appends replays to exactly
    the game it was written from, and passes every check made before it is read again. */
module MatchFiles {
  import opened Common
  import opened MatchModel
  import Rps

  // ---------------------------------------------------------------- what rules must promise

  /** What the service has established before it asks the rules for an answer. */
  ghost predicate MayAsk<S>(rules: Rules<S>, g: GameId, players: seq<Player>, snap: GameSnapshot<S>, actor: UserId, action: Action, die: int)
    requires TwoPlayers(players)
  {
    && Member(players, actor) && GameOf(action) == g && !action.Resign? && WellFormed(action) && 1 <= die <= 6
    && rules.summary(snap.state).active && 0 <= snap.revision < MaximumMatchEventsFor(g) && HasRoom(g, snap.revision)
    && OnTurn(g, rules.summary(snap.state), snap.revision, ColorOf(players, actor))
  }

  ghost predicate LiveStep<S>(rules: Rules<S>, g: GameId, players: seq<Player>, prev: GameSnapshot<S>, action: Action, die: int,
                              e: GameEvent<Payload>, next: GameSnapshot<S>)
    requires TwoPlayers(players)
  {
    MayAsk(rules, g, players, prev, e.actor, action, die) && rules.apply(prev, e.actor, action, die) == Ok(Applied(e, next))
  }

  /** `log` is a history the two players can have produced through the service, ending in `snap`. */
  ghost predicate Reached<S(!new)>(rules: Rules<S>, g: GameId, players: seq<Player>, log: GameEvents, snap: GameSnapshot<S>)
    requires TwoPlayers(players)
    decreases |log|
  {
    if log == [] then rules.rebuild([]) == Ok(snap)
    else exists prev, action, die ::
      LiveStep(rules, g, players, prev, action, die, Last(log), snap) && Reached(rules, g, players, Front(log), prev)
  }

  function Last(log: GameEvents): GameEvent<Payload>
    requires log != []
  {
    log[|log| - 1]
  }

  function Front(log: GameEvents): (front: GameEvents)
    requires log != []
    ensures |front| == |log| - 1
  {
    log[..|log| - 1]
  }

  ghost predicate Ends(g: GameId, s: Summary, players: seq<Player>)
    requires TwoPlayers(players)
  {
    if s.active then s.result.None? && s.winner.None?
    else
      && s.result.Some? && s.result != Some(Resignation) && ResultBelongs(g, s.result.value)
      && (if s.result == Some(Draw) then s.winner.None? else s.winner.Some? && Member(players, s.winner.value))
  }

  /** Replay reproduces the position, which reports the right seats, turn and outcome; gomoku
      and reversi run out of board before they run out of events. */
  ghost predicate Facts<S>(rules: Rules<S>, g: GameId, players: seq<Player>, log: GameEvents, snap: GameSnapshot<S>)
    requires TwoPlayers(players)
  {
    var s := rules.summary(snap.state);
    && rules.rebuild(log) == Ok(snap) && snap.revision == |log|
    && SummaryFits(g, s, |log|, players) && Ends(g, s, players) && (log == [] ==> s.active)
    && (s.active && (g.GomokuGame? || g.ReversiGame?) ==> |log| < MAXIMUM_MATCH_EVENTS)
  }

  /** An answer is the service's own kind of refusal, or an event the service recognises. */
  ghost predicate Answers<S>(rules: Rules<S>, g: GameId, players: seq<Player>, snap: GameSnapshot<S>, actor: UserId, action: Action, die: int)
    requires TwoPlayers(players) && Member(players, actor)
  {
    match rules.apply(snap, actor, action, die)
    case Err(e) => SafeError(e) != Internal
    case Ok(a) =>
      && Produced(a, action, Player(actor, ColorOf(players, actor)), snap.revision + 1)
      && (!rules.summary(a.next.state).active ==> EndingFits(g, rules.summary(a.next.state), action, actor, players))
  }

  ghost predicate LawfulRules<S(!new)>(rules: Rules<S>, g: GameId) {
    && (forall players, log, snap | TwoPlayers(players) && Reached(rules, g, players, log, snap) ::
          Facts(rules, g, players, log, snap))
    && (forall players, log, snap, actor, action, die
          | TwoPlayers(players) && Reached(rules, g, players, log, snap) && MayAsk(rules, g, players, snap, actor, action, die) ::
          Answers(rules, g, players, snap, actor, action, die))
  }

  ghost predicate Lawful<S(!new)>(reg: Registry<S>) {
    forall g, config :: reg.configured(g, config).Some? ==>
      LawfulRules(reg.configured(g, config).value, g) && reg.configured(g, config).value.rebuild([]).Ok?
  }

  // ------------------------------------------------------------------------- good files

  ghost function RulesOf<S>(reg: Registry<S>, f: File): Rules<S>
    requires reg.configured(f.m.game, f.m.config).Some?
  {
    reg.configured(f.m.game, f.m.config).value
  }

  ghost function ScanOf(f: File): Option<Scan>
    requires TwoPlayers(f.players)
  {
    ScanTo(f.m.game, f.players, f.events, |f.events|)
  }

  /** The file replays, to a position its players reached, with room left while it is active. */
  ghost predicate Good<S(!new)>(reg: Registry<S>, f: File) {
    && TwoPlayers(f.players) && reg.configured(f.m.game, f.m.config).Some?
    && Replay(reg, f).Ok? && ScanOf(f).Some?
    && Reached(RulesOf(reg, f), f.m.game, f.players, ScanOf(f).value.accepted, Replay(reg, f).value)
    && (f.m.status == Active ==> f.m.revision < MaximumMatchEventsFor(f.m.game))
  }

  lemma ReplayFacts<S(!new)>(reg: Registry<S>, f: File)
    requires TwoPlayers(f.players) && Replay(reg, f).Ok?
    ensures reg.configured(f.m.game, f.m.config).Some? && ScanOf(f).Some?
    ensures var rules, scan, game := RulesOf(reg, f), ScanOf(f).value, Replay(reg, f).value;
      && f.m.revision == |f.events| <= MaximumMatchEventsFor(f.m.game)
      && rules.rebuild(scan.accepted) == Ok(game) && game.revision == |scan.accepted|
      && SummaryFits(f.m.game, rules.summary(game.state), |scan.accepted|, f.players)
      && LifecycleFits(f.m, rules.summary(game.state), scan.terminal, f.players, f.events)
      && (f.m.result.Some? ==> ResultBelongs(f.m.game, f.m.result.value))
  {
    hide ScanTo, SummaryFits, LifecycleFits, ResultBelongs;
  }

  lemma ReplaySucceeds<S(!new)>(reg: Registry<S>, f: File, scan: Scan, game: GameSnapshot<S>)
    requires TwoPlayers(f.players) && reg.configured(f.m.game, f.m.config).Some? && ScanOf(f) == Some(scan)
    requires var rules := RulesOf(reg, f);
      && f.m.revision == |f.events| <= MaximumMatchEventsFor(f.m.game)
      && rules.rebuild(scan.accepted) == Ok(game) && game.revision == |scan.accepted|
      && SummaryFits(f.m.game, rules.summary(game.state), |scan.accepted|, f.players)
      && LifecycleFits(f.m, rules.summary(game.state), scan.terminal, f.players, f.events)
      && (f.m.result.Some? ==> ResultBelongs(f.m.game, f.m.result.value))
    ensures Replay(reg, f) == Ok(game)
  {
    hide ScanTo, SummaryFits, LifecycleFits, ResultBelongs;
  }

  /** While no terminal row was scanned, every row is an accepted step, and appending a row
      does not change how the earlier ones scan. */
  lemma {:induction false} OpenScan(g: GameId, players: seq<Player>, events: seq<StoredEvent>, e: StoredEvent, n: nat)
    requires TwoPlayers(players) && n <= |events|
    requires ScanTo(g, players, events, n).Some? && ScanTo(g, players, events, n).value.terminal == NoTerminal
    ensures |ScanTo(g, players, events, n).value.accepted| == n
    ensures forall i :: 0 <= i < n ==> events[i].kind.Accepted?
    ensures ScanTo(g, players, events + [e], n) == ScanTo(g, players, events, n)
  {
    hide RowFits, ColorOf, Member, OpponentOf, ResignationBelongs;
    if n > 0 {
      assert (events + [e])[n - 1] == events[n - 1];
      OpenScan(g, players, events, e, n - 1);
    }
  }

  lemma ActiveFile<S(!new)>(reg: Registry<S>, f: File)
    requires Lawful(reg) && Good(reg, f) && f.m.status == Active
    ensures var rules, scan, game := RulesOf(reg, f), ScanOf(f).value, Replay(reg, f).value;
      && scan.terminal == NoTerminal && |scan.accepted| == |f.events| == f.m.revision == game.revision
      && (forall i :: 0 <= i < |f.events| ==> f.events[i].kind.Accepted?)
      && (f.events != [] ==> f.events[0].kind.Accepted?)
      && LawfulRules(rules, f.m.game) && Unfinished(rules.summary(game.state))
      && SummaryFits(f.m.game, rules.summary(game.state), |scan.accepted|, f.players)
      && f.m.result.None? && f.m.winner.None? && f.m.finishedAt.None?
  {
    ReplayFacts(reg, f);
    hide Replay, ScanTo, SummaryFits, Reached;
    OpenScan(f.m.game, f.players, f.events, StoredEvent(0, MatchCancelled, None, None, 0), |f.events|);
  }

  /** A produced event is a row the next rebuild accepts. */
  lemma ProducedRowFits<S(!new)>(rules: Rules<S>, g: GameId, players: seq<Player>, log: GameEvents, snap: GameSnapshot<S>,
                                 actor: UserId, action: Action, die: int)
    requires TwoPlayers(players) && Facts(rules, g, players, log, snap) && MayAsk(rules, g, players, snap, actor, action, die)
    requires Answers(rules, g, players, snap, actor, action, die) && rules.apply(snap, actor, action, die).Ok?
    ensures RowFits(g, rules.apply(snap, actor, action, die).value.event.payload, actor, ColorOf(players, actor), |log|)
  {
    hide Owned, ColorOf, Member, UserOf, WellFormed;
  }

  lemma ReachedGrows<S(!new)>(rules: Rules<S>, g: GameId, players: seq<Player>, log: GameEvents, snap: GameSnapshot<S>,
                              action: Action, die: int, e: GameEvent<Payload>, next: GameSnapshot<S>)
    requires TwoPlayers(players) && Reached(rules, g, players, log, snap) && LiveStep(rules, g, players, snap, action, die, e, next)
    ensures Reached(rules, g, players, log + [e], next)
  {
    hide LiveStep;
    var longer := log + [e];
    assert Front(longer) == log && Last(longer) == e;
  }

  /** An accepted step, ending the game or not, keeps the file good, and its replay is the
      engine's own answer. */
  lemma AcceptedStep<S(!new)>(reg: Registry<S>, f: File, actionId: ActionId, actor: UserId, action: Action, die: int, now: int)
    requires Lawful(reg) && Good(reg, f) && f.m.status == Active
    requires MayAsk(RulesOf(reg, f), f.m.game, f.players, Replay(reg, f).value, actor, action, die)
    requires RulesOf(reg, f).apply(Replay(reg, f).value, actor, action, die).Ok?
    requires var s := RulesOf(reg, f).summary(RulesOf(reg, f).apply(Replay(reg, f).value, actor, action, die).value.next.state);
      f.m.game.FlightGame? && s.active ==> f.m.revision + 1 < MAXIMUM_FLIGHT_CHESS_EVENTS
    ensures var rules := RulesOf(reg, f);
      var a := rules.apply(Replay(reg, f).value, actor, action, die).value;
      var s := rules.summary(a.next.state);
      var ending := if s.active then None else Some(Ending(Finished, s.result, s.winner));
      var g := Extended(f, Accepted(a.event.payload), Some(actionId), Some(actor), ending, now);
      Good(reg, g) && Replay(reg, g) == Ok(a.next)
  {
    ActiveFile(reg, f);
    var rules, scan, current := RulesOf(reg, f), ScanOf(f).value, Replay(reg, f).value;
    var a := rules.apply(current, actor, action, die).value;
    var log := scan.accepted + [a.event];
    assert Facts(rules, f.m.game, f.players, scan.accepted, current);
    assert Answers(rules, f.m.game, f.players, current, actor, action, die);
    ProducedRowFits(rules, f.m.game, f.players, scan.accepted, current, actor, action, die);
    ReachedGrows(rules, f.m.game, f.players, scan.accepted, current, action, die, a.event, a.next);
    assert Facts(rules, f.m.game, f.players, log, a.next);
    hide LawfulRules, Reached, RowFits, Replay, ResultBelongs, SummaryFits, ColorOf, ScanTo;
    AppendAccepted(reg, f, actionId, actor, a, now);
  }

  lemma AppendAccepted<S(!new)>(reg: Registry<S>, f: File, actionId: ActionId, actor: UserId, a: Applied<S, Payload>, now: int)
    requires TwoPlayers(f.players) && reg.configured(f.m.game, f.m.config).Some? && f.m.status == Active
    requires f.m.result.None? && f.m.winner.None? && f.m.finishedAt.None?
    requires ScanOf(f).Some? && ScanOf(f).value.terminal == NoTerminal && f.m.revision == |f.events| < MaximumMatchEventsFor(f.m.game)
    requires a.event.revision == f.m.revision + 1 && a.event.actor == actor && Member(f.players, actor)
    requires RowFits(f.m.game, a.event.payload, actor, ColorOf(f.players, actor), |ScanOf(f).value.accepted|)
    requires var rules, log := RulesOf(reg, f), ScanOf(f).value.accepted + [a.event];
      && Facts(rules, f.m.game, f.players, log, a.next) && Reached(rules, f.m.game, f.players, log, a.next)
      && (rules.summary(a.next.state).active ==> HasRoom(f.m.game, f.m.revision))
      && (rules.summary(a.next.state).active && f.m.game.FlightGame? ==> f.m.revision + 1 < MAXIMUM_FLIGHT_CHESS_EVENTS)
    ensures var s := RulesOf(reg, f).summary(a.next.state);
      var ending := if s.active then None else Some(Ending(Finished, s.result, s.winner));
      var g := Extended(f, Accepted(a.event.payload), Some(actionId), Some(actor), ending, now);
      Good(reg, g) && Replay(reg, g) == Ok(a.next)
  {
    hide Reached, RowFits, ColorOf, SummaryFits, Replay, Member, OpponentOf;
    var s := RulesOf(reg, f).summary(a.next.state);
    var ending := if s.active then None else Some(Ending(Finished, s.result, s.winner));
    var g := Extended(f, Accepted(a.event.payload), Some(actionId), Some(actor), ending, now);
    var e := g.events[|f.events|];
    OpenScan(f.m.game, f.players, f.events, e, |f.events|);
    var scan := ScanOf(f).value;
    assert ScanOf(g) == ScanRow(f.m.game, f.players, scan, e, |f.events|, true);
    var after := scan.(accepted := scan.accepted + [a.event]);
    assert ScanOf(g) == Some(after);
    hide ScanTo, ResultBelongs;
    assert |scan.accepted| == |f.events|;
    ReplaySucceeds(reg, g, after, a.next);
  }

  /** A closing row, whatever its kind, leaves the replayed game as it was. */
  lemma ClosingRow<S(!new)>(reg: Registry<S>, f: File, kind: EventKind, actionId: Option<ActionId>, actor: Option<UserId>, ending: Ending, now: int)
    requires Lawful(reg) && Good(reg, f) && f.m.status == Active && ending.status != Active
    requires var g := Extended(f, kind, actionId, actor, Some(ending), now);
      var scanned := ScanRow(f.m.game, f.players, ScanOf(f).value, g.events[|f.events|], |f.events|, true);
      && scanned.Some? && scanned.value.accepted == ScanOf(f).value.accepted
      && LifecycleFits(g.m, RulesOf(reg, f).summary(Replay(reg, f).value.state), scanned.value.terminal, f.players, g.events)
      && (ending.result.Some? ==> ResultBelongs(f.m.game, ending.result.value))
    ensures var g := Extended(f, kind, actionId, actor, Some(ending), now);
      Good(reg, g) && Replay(reg, g) == Replay(reg, f)
  {
    ActiveFile(reg, f);
    ReplayFacts(reg, f);
    hide Lawful, LawfulRules, Reached, Replay, SummaryFits, LifecycleFits, ScanRow, ResultBelongs;
    var g := Extended(f, kind, actionId, actor, Some(ending), now);
    var e := g.events[|f.events|];
    OpenScan(f.m.game, f.players, f.events, e, |f.events|);
    assert ScanOf(g) == ScanRow(f.m.game, f.players, ScanOf(f).value, e, |f.events|, true);
    hide ScanTo;
    ReplaySucceeds(reg, g, ScanOf(g).value, Replay(reg, f).value);
  }

  lemma OpponentIsMember(players: seq<Player>, user: UserId)
    requires TwoPlayers(players) && Member(players, user)
    ensures Member(players, OpponentOf(players, user)) && OpponentOf(players, user) != user
  {
  }

  lemma ResignationStep<S(!new)>(reg: Registry<S>, f: File, actionId: ActionId, actor: UserId, now: int)
    requires Lawful(reg) && Good(reg, f) && f.m.status == Active && Member(f.players, actor)
    ensures var winner := OpponentOf(f.players, actor);
      var g := Extended(f, Resigned(f.m.game, actor, winner), Some(actionId), Some(actor),
                        Some(Ending(Finished, Some(Resignation), Some(winner))), now);
      Good(reg, g) && Replay(reg, g) == Replay(reg, f)
  {
    ActiveFile(reg, f);
    OpponentIsMember(f.players, actor);
    hide Lawful, LawfulRules, Good, Replay, ScanTo, Reached, SummaryFits, RowFits, ColorOf, Member, OpponentOf;
    var winner := OpponentOf(f.players, actor);
    ClosingRow(reg, f, Resigned(f.m.game, actor, winner), Some(actionId), Some(actor), Ending(Finished, Some(Resignation), Some(winner)), now);
  }

  lemma AbandonmentStep<S(!new)>(reg: Registry<S>, f: File, now: int)
    requires Lawful(reg) && Good(reg, f) && f.m.status == Active
    ensures var g := Extended(f, MatchAbandoned, None, None, Some(Ending(Abandoned, None, None)), now);
      Good(reg, g) && Replay(reg, g) == Replay(reg, f)
  {
    ActiveFile(reg, f);
    hide Lawful, LawfulRules, Good, Replay, ScanTo, Reached, SummaryFits;
    ClosingRow(reg, f, MatchAbandoned, None, None, Ending(Abandoned, None, None), now);
  }

  lemma CancellationStep<S(!new)>(reg: Registry<S>, f: File, actor: UserId, now: int)
    requires Lawful(reg) && Good(reg, f) && f.m.status == Active && Member(f.players, actor)
    requires f.events != [] ==> !f.events[0].kind.Accepted?
    ensures f.events == []
    ensures var g := Extended(f, MatchCancelled, None, Some(actor), Some(Ending(Cancelled, None, None)), now);
      Good(reg, g) && Replay(reg, g) == Replay(reg, f)
  {
    ActiveFile(reg, f);
    hide Lawful, LawfulRules, Good, Replay, ScanTo, Reached, SummaryFits;
    ClosingRow(reg, f, MatchCancelled, None, Some(actor), Ending(Cancelled, None, None), now);
  }

  lemma NewFile<S(!new)>(reg: Registry<S>, f: File)
    requires Lawful(reg) && reg.configured(f.m.game, f.m.config).Some? && TwoPlayers(f.players) && f.events == []
    requires f.m.status == Active && f.m.revision == 0 && f.m.result.None? && f.m.winner.None? && f.m.finishedAt.None?
    ensures Good(reg, f)
  {
    var rules := RulesOf(reg, f);
    var game := rules.rebuild([]).value;
    assert Reached(rules, f.m.game, f.players, [], game);
    assert Facts(rules, f.m.game, f.players, [], game);
    hide Lawful, LawfulRules, Reached, SummaryFits;
    ReplaySucceeds(reg, f, Scan([], NoTerminal), game);
  }

  // -------------------------------------------------------------------- deciding actions

  /** For every request the service lets through to the rules on a good active file: the
      decision is never an internal error, and the rows it writes are a good file whose
      replay is the game the decision returned. */
  lemma DecisionIsGood<S(!new)>(reg: Registry<S>, f: File, actionId: ActionId, actor: UserId, action: Action, die: int, now: int)
    requires Lawful(reg) && Good(reg, f) && f.m.status == Active && Member(f.players, actor)
    requires GameOf(action) == f.m.game && WellFormed(action) && 1 <= die <= 6
    ensures var r := Decide(RulesOf(reg, f), f, Replay(reg, f).value, actor, action, die);
      && r != Err(Internal)
      && (r.Ok? ==>
           var d := r.value;
           var system := d.kind.MatchAbandoned?;
           var g := Extended(f, d.kind, if system then None else Some(actionId), if system then None else Some(actor), d.ending, now);
           && Good(reg, g) && Replay(reg, g) == Ok(d.game)
           && (g.m.status == Active <==> d.ending.None?)
           && (system ==> f.m.game.FlightGame? && g.m.status == Abandoned && g.m.revision == MAXIMUM_FLIGHT_CHESS_EVENTS))
  {
    ActiveFile(reg, f);
    hide Replay, ScanTo, Reached, SummaryFits;
    var rules, current := RulesOf(reg, f), Replay(reg, f).value;
    if action.Resign? {
      hide LawfulRules, Lawful, Good;
      ResignationStep(reg, f, actionId, actor, now);
    } else if HasRoom(f.m.game, f.m.revision) && OnTurn(f.m.game, rules.summary(current.state), current.revision, ColorOf(f.players, actor)) {
      assert MayAsk(rules, f.m.game, f.players, current, actor, action, die);
      assert Answers(rules, f.m.game, f.players, current, actor, action, die);
      hide LawfulRules, Lawful, Good, OnTurn, MayAsk, EndingFits;
      DecideOnAnswer(reg, f, actionId, actor, action, die, now);
    }
  }

  lemma DecideOnAnswer<S(!new)>(reg: Registry<S>, f: File, actionId: ActionId, actor: UserId, action: Action, die: int, now: int)
    requires Lawful(reg) && Good(reg, f) && f.m.status == Active && Member(f.players, actor)
    requires Replay(reg, f).value.revision == f.m.revision
    requires MayAsk(RulesOf(reg, f), f.m.game, f.players, Replay(reg, f).value, actor, action, die)
    requires Answers(RulesOf(reg, f), f.m.game, f.players, Replay(reg, f).value, actor, action, die)
    ensures var r := Decide(RulesOf(reg, f), f, Replay(reg, f).value, actor, action, die);
      && r != Err(Internal)
      && (r.Ok? ==>
           var d := r.value;
           var system := d.kind.MatchAbandoned?;
           var g := Extended(f, d.kind, if system then None else Some(actionId), if system then None else Some(actor), d.ending, now);
           && Good(reg, g) && Replay(reg, g) == Ok(d.game)
           && (g.m.status == Active <==> d.ending.None?)
           && (system ==> f.m.game.FlightGame? && g.m.status == Abandoned && g.m.revision == MAXIMUM_FLIGHT_CHESS_EVENTS))
  {
    var rules, current := RulesOf(reg, f), Replay(reg, f).value;
    hide Lawful, Good, Replay, EndingFits, Produced, ScanTo, LawfulRules, ColorOf, Member, SafeError, OnTurn, Reached;
    var reply := rules.apply(current, actor, action, die);
    if reply.Ok? {
      var s := rules.summary(reply.value.next.state);
      if s.active && f.m.game.FlightGame? && f.m.revision + 1 == MAXIMUM_FLIGHT_CHESS_EVENTS {
        AbandonmentStep(reg, f, now);
      } else {
        AcceptedStep(reg, f, actionId, actor, action, die, now);
      }
    }
  }
}
