/** Rock, paper, scissors read off its log: whose choice is accepted, what it shows, and who has won. */
module RpsLaws {
  import opened Common
  import opened Rps
  import opened RpsProofs

  // -------------------------------------------------------------------- the three choices

  // Rock, paper and scissors in a circle; each beats the one before it.
  function Place(c: Choice): int {
    match c case Rock => 0 case Paper => 1 case Scissors => 2
  }

  predicate Ahead(a: Choice, b: Choice) {
    (Place(a) - Place(b)) % 3 == 1
  }

  /** Each choice beats exactly the one it follows, so of two different choices exactly one wins. */
  lemma BeatsTheOneBefore(a: Choice, b: Choice)
    ensures Beats(a, b) <==> Ahead(a, b)
    ensures a != b ==> (Ahead(a, b) <==> !Ahead(b, a))
    ensures Compare(a, b) == 0 <==> a == b
  {
  }

  // ----------------------------------------------------------------------- reading the log

  /** The last event is a choice that nobody has answered. */
  predicate Waiting(log: seq<Event>) {
    log != [] && log[|log| - 1].payload.ChoiceLocked?
  }

  function Reveals(log: seq<Event>): nat {
    if log == [] then 0 else Reveals(log[..|log| - 1]) + if log[|log| - 1].payload.RoundRevealed? then 1 else 0
  }

  /** How many rounds the log gives to a player. */
  function Wins(log: seq<Event>, u: UserId): nat {
    if log == [] then 0
    else
      var p := log[|log| - 1].payload;
      Wins(log[..|log| - 1], u) + if p.RoundRevealed? && p.shown.roundWinner == Some(u) then 1 else 0
  }

  /** The rounds it takes: one, or two when the best of three are played. */
  function Goal(format: Format): nat {
    if format == SingleRound then 1 else 2
  }

  ghost predicate Won(format: Format, log: seq<Event>) {
    exists u: UserId :: Wins(log, u) >= Goal(format)
  }

  lemma LogGrows(log: seq<Event>, e: Event)
    ensures Reveals(log + [e]) == Reveals(log) + if e.payload.RoundRevealed? then 1 else 0
    ensures forall u: UserId :: Wins(log + [e], u) == Wins(log, u) + if e.payload.RoundRevealed? && e.payload.shown.roundWinner == Some(u) then 1 else 0
    ensures Waiting(log + [e]) <==> e.payload.ChoiceLocked?
  {
    assert (log + [e])[..|log|] == log;
  }

  // ------------------------------------------------------------------- the state is the log

  ghost predicate Told(format: Format, g: Game) {
    var s := g.snap.state;
    && s.format == format && g.snap.revision == |g.log|
    && s.choices == (if Waiting(g.log) then map[g.log[|g.log| - 1].actor := g.log[|g.log| - 1].payload.choice] else map[])
    && (forall u: UserId :: ScoreOf(s, u) == Wins(g.log, u) <= Goal(format) && (u in s.scores <==> Wins(g.log, u) > 0))
    && (TwoScorers(g.log) <==> |s.scores| <= 2)
    && (s.active <==> !Won(format, g.log)) && (s.active ==> s.round == Reveals(g.log) + 1) && s.round >= 1
    && (s.active ==> s.winner == None) && (s.winner.Some? ==> Wins(g.log, s.winner.value) == Goal(format))
    && (!s.active ==> s.winner.Some?)
  }

  lemma ToldDecodes(format: Format, g: Game)
    requires Told(format, g)
    ensures Decodes(g.snap, format) <==> TwoScorers(g.log)
  {
    hide Won, TwoScorers, Reveals, Wins, Waiting;
    var s := g.snap.state;
    forall u | u in s.scores ensures 0 <= s.scores[u] <= 2 {
      assert ScoreOf(s, u) == s.scores[u];
    }
  }

  /** What an accepted choice shows. */
  ghost predicate Shows(format: Format, log: seq<Event>, actor: UserId, choice: Choice, e: Event) {
    && e.revision == |log| + 1 && e.actor == actor
    && if !Waiting(log) then e.payload == ChoiceLocked(Reveals(log) + 1, actor, choice)
       else
         var other, theirs := log[|log| - 1].actor, log[|log| - 1].payload.choice;
         var winner := if Ahead(choice, theirs) then Some(actor) else if Ahead(theirs, choice) then Some(other) else None;
         && e.payload.RoundRevealed? && other != actor
         && var r := e.payload.shown;
            && r.round == Reveals(log) + 1 && r.choices == map[other := theirs, actor := choice]
            && r.roundWinner == winner && r.draw == (winner == None)
            && (forall u: UserId :: (if u in r.scores then r.scores[u] else 0) == Wins(log + [e], u))
            && r.matchWinner == (if winner.Some? && Wins(log + [e], winner.value) == Goal(format) then winner else None)
            && r.result == (if r.matchWinner.Some? then Some(Rounds) else None)
  }

  lemma LockIsTold(format: Format, g: Game, actor: UserId, choice: Choice)
    requires Told(format, g) && ApplyChoice(format, g.snap, actor, choice).Ok? && !Waiting(g.log)
    ensures var a := ApplyChoice(format, g.snap, actor, choice).value;
      Shows(format, g.log, actor, choice, a.event) && Told(format, Game(g.log + [a.event], a.next))
  {
    hide Wins, Reveals;
    var a := ApplyChoice(format, g.snap, actor, choice).value;
    LogGrows(g.log, a.event);
    OneMoreScored(g.log, a.event);
    hide TwoScorers, Revealed, Decodes;
    assert g.snap.state.choices[actor := choice] == map[actor := choice];
  }

  lemma RevealIsShown(format: Format, g: Game, actor: UserId, choice: Choice)
    requires Told(format, g) && ApplyChoice(format, g.snap, actor, choice).Ok? && Waiting(g.log)
    ensures var a := ApplyChoice(format, g.snap, actor, choice).value;
      var other, theirs := g.log[|g.log| - 1].actor, g.log[|g.log| - 1].payload.choice;
      && other != actor && g.snap.state.active && a.next.revision == |g.log| + 1
      && a.event == GameEvent(|g.log| + 1, actor, RoundRevealed(a.next.state.lastReveal.value))
      && a.next.state == Revealed(g.snap.state, map[other := theirs, actor := choice], RoundWinner(actor, choice, other, theirs))
  {
    hide Wins, Reveals, Won, TwoScorers, Revealed, RoundWinner, Decodes;
    var s := g.snap.state;
    var other, theirs := g.log[|g.log| - 1].actor, g.log[|g.log| - 1].payload.choice;
    assert s.choices == map[other := theirs];
    assert s.choices.Keys == {other};
    KeysDecideSize(s.choices);
    assert OnlyKey(s.choices) in s.choices;
    assert s.choices[actor := choice] == map[other := theirs, actor := choice];
  }

  lemma RevealIsTold(format: Format, g: Game, actor: UserId, choice: Choice)
    requires Told(format, g) && ApplyChoice(format, g.snap, actor, choice).Ok? && Waiting(g.log)
    ensures var a := ApplyChoice(format, g.snap, actor, choice).value;
      Shows(format, g.log, actor, choice, a.event) && Told(format, Game(g.log + [a.event], a.next))
  {
    hide Told, Shows, Wins, Reveals, ApplyChoice, Ahead, Beats, TwoScorers, Revealed, RoundWinner;
    RevealIsShown(format, g, actor, choice);
    GameIsOn(format, g, actor, choice);
    var a := ApplyChoice(format, g.snap, actor, choice).value;
    var other, theirs := g.log[|g.log| - 1].actor, g.log[|g.log| - 1].payload.choice;
    var w := RoundWinner(actor, choice, other, theirs);
    WinnerIsAhead(actor, choice, other, theirs);
    ShownOf(g.snap.state, map[other := theirs, actor := choice], w);
    LogGrows(g.log, a.event);
    OneMoreScored(g.log, a.event);
    ScoresAreWins(format, g, a.event, w);
    RevealedShows(format, g, actor, choice, w, a.event, a.next.state);
    RevealedIsTold(format, g, map[other := theirs, actor := choice], w, a.event);
  }

  lemma WinnerIsAhead(a: UserId, x: Choice, b: UserId, y: Choice)
    ensures RoundWinner(a, x, b, y) == if Ahead(x, y) then Some(a) else if Ahead(y, x) then Some(b) else None
  {
    BeatsTheOneBefore(x, y);
    BeatsTheOneBefore(y, x);
  }

  lemma ShownOf(s: State, choices: map<UserId, Choice>, w: Option<UserId>)
    ensures var r := Revealed(s, choices, w).lastReveal.value;
      r.roundWinner == w && r.scores == Scored(s.scores, w) && r.choices == choices && r.round == s.round
  {
    hide Scored;
  }

  // The round shown, from the scores before it.
  lemma RevealedShows(format: Format, g: Game, actor: UserId, choice: Choice, w: Option<UserId>, e: Event, t: State)
    requires Told(format, g) && g.snap.state.active && Waiting(g.log) && g.log[|g.log| - 1].actor != actor
    requires var other, theirs := g.log[|g.log| - 1].actor, g.log[|g.log| - 1].payload.choice;
      && t == Revealed(g.snap.state, map[other := theirs, actor := choice], w)
      && w == (if Ahead(choice, theirs) then Some(actor) else if Ahead(theirs, choice) then Some(other) else None)
    requires e == GameEvent(|g.log| + 1, actor, RoundRevealed(t.lastReveal.value))
    requires var scores := Scored(g.snap.state.scores, w); forall u: UserId :: (if u in scores then scores[u] else 0) == Wins(g.log + [e], u) <= Goal(format)
    ensures Shows(format, g.log, actor, choice, e)
  {
    hide Wins, Reveals, TwoScorers, Won, Ahead;
    if w.Some? {
      assert w.value in Scored(g.snap.state.scores, w);
    }
    hide Scored;
  }

  lemma RevealedIsTold(format: Format, g: Game, choices: map<UserId, Choice>, w: Option<UserId>, e: Event)
    requires Told(format, g) && g.snap.state.active && |g.snap.state.scores| <= 2
    requires e.payload == RoundRevealed(Revealed(g.snap.state, choices, w).lastReveal.value)
    requires var scores, more := Scored(g.snap.state.scores, w), g.log + [e];
      && (forall u: UserId :: (if u in scores then scores[u] else 0) == Wins(more, u) <= Goal(format))
      && (forall u: UserId :: u in scores <==> Wins(more, u) > 0)
      && (Won(format, more) <==> w.Some? && Wins(more, w.value) == Goal(format))
    requires Reveals(g.log + [e]) == Reveals(g.log) + 1 && !Waiting(g.log + [e])
    requires TwoScorers(g.log + [e]) <==> TwoScorers(g.log) && |e.payload.shown.scores| <= 2
    ensures Told(format, Game(g.log + [e], GameSnapshot(|g.log| + 1, Revealed(g.snap.state, choices, w))))
  {
    hide Wins, Reveals, TwoScorers, Won, Waiting;
    ShownOf(g.snap.state, choices, w);
    if w.Some? {
      assert w.value in Scored(g.snap.state.scores, w);
    }
    hide Scored;
  }

  lemma GameIsOn(format: Format, g: Game, actor: UserId, choice: Choice)
    requires ApplyChoice(format, g.snap, actor, choice).Ok?
    ensures g.snap.state.active && |g.snap.state.scores| <= 2
  {
  }

  lemma ScoresAreWins(format: Format, g: Game, e: Event, winner: Option<UserId>)
    requires Told(format, g) && g.snap.state.active && e.payload.RoundRevealed? && e.payload.shown.roundWinner == winner
    requires forall u: UserId :: Wins(g.log + [e], u) == Wins(g.log, u) + if winner == Some(u) then 1 else 0
    ensures var scores := Scored(g.snap.state.scores, winner);
      && (forall u: UserId :: (if u in scores then scores[u] else 0) == Wins(g.log + [e], u) <= Goal(format))
      && (forall u: UserId :: u in scores <==> Wins(g.log + [e], u) > 0)
      && (Won(format, g.log + [e]) <==> winner.Some? && Wins(g.log + [e], winner.value) == Goal(format))
  {
    hide Wins, TwoScorers, Reveals, Waiting;
    forall u: UserId ensures Wins(g.log, u) < Goal(format) {
    }
    if u: UserId :| Wins(g.log + [e], u) >= Goal(format) {
      assert winner == Some(u);
    }
  }

  // ------------------------------------------------------------------------- whole games

  lemma {:induction false} EveryGameIsTold(format: Format, requests: seq<Request>)
    ensures Told(format, Play(format, requests))
  {
    hide Told, ApplyChoice, Shows, Waiting;
    if requests == [] {
      NothingTold(format);
    } else {
      var g, r := Play(format, requests[..|requests| - 1]), requests[|requests| - 1];
      EveryGameIsTold(format, requests[..|requests| - 1]);
      if ApplyChoice(format, g.snap, r.actor, r.choice).Ok? {
        if Waiting(g.log) {
          RevealIsTold(format, g, r.actor, r.choice);
        } else {
          LockIsTold(format, g, r.actor, r.choice);
        }
      }
    }
  }

  lemma NothingTold(format: Format)
    ensures Told(format, Game([], InitialSnapshot(format)))
  {
  }

  /** In any game a choice is accepted until somebody has won the rounds it takes, from everybody but the
      one whose choice is waiting (and, with more than two players, only while at most two have scored).
      The first of a round is locked; the second reveals both, and gives the round to the choice that
      beats the other, the score being the rounds the log gives to each player. */
  lemma AcceptedExactlyOncePerRound(format: Format, requests: seq<Request>, actor: UserId, choice: Choice)
    ensures var g := Play(format, requests);
      var reply := ApplyChoice(format, g.snap, actor, choice);
      var mine := Waiting(g.log) && g.log[|g.log| - 1].actor == actor;
      && (reply.Ok? <==> TwoScorers(g.log) && !Won(format, g.log) && !mine)
      && (reply == Err(MatchFinished) <==> TwoScorers(g.log) && Won(format, g.log))
      && (reply == Err(ChoiceAlreadyLocked) <==> TwoScorers(g.log) && !Won(format, g.log) && mine)
      && (reply.Ok? ==> Shows(format, g.log, actor, choice, reply.value.event))
      && (g.snap.state.active <==> !Won(format, g.log))
  {
    var g := Play(format, requests);
    EveryGameIsTold(format, requests);
    ToldDecodes(format, g);
    ToldChoices(format, g, actor);
    hide Play, Told, Shows, Wins, Won, Revealed, TwoScorers, Decodes, RoundWinner;
    if ApplyChoice(format, g.snap, actor, choice).Ok? {
      hide ApplyChoice;
      if Waiting(g.log) {
        RevealIsTold(format, g, actor, choice);
      } else {
        LockIsTold(format, g, actor, choice);
      }
    }
  }

  lemma ToldChoices(format: Format, g: Game, actor: UserId)
    requires Told(format, g)
    ensures actor in g.snap.state.choices <==> Waiting(g.log) && g.log[|g.log| - 1].actor == actor
    ensures |g.snap.state.choices| <= 1 && (g.snap.state.active <==> !Won(format, g.log))
  {
    hide Wins, Won, TwoScorers, Reveals;
  }

  // ---------------------------------------------------------------------- only games replay

  lemma ReplayedOnce(format: Format, snap: Snap, e: Event) returns (choice: Choice)
    requires ReplayEvent(format, snap, e).Ok?
    ensures ApplyChoice(format, snap, e.actor, choice) == Ok(Applied(e, ReplayEvent(format, snap, e).value))
  {
    hide Decodes, Revealed, RoundWinner;
    choice := ChoiceOf(e).value;
  }

  /** Replay accepts nothing that was not played: a log that replays is the log of a game, in which its
      players made just these choices, and it replays to the position of that game. */
  lemma {:induction false} ReplayedWasPlayed(format: Format, events: seq<Event>) returns (requests: seq<Request>)
    requires Rebuilt(format, events).Ok?
    ensures Play(format, requests) == Game(events, Rebuilt(format, events).value) && |requests| == |events|
  {
    hide ApplyChoice, ReplayEvent;
    if events == [] {
      requests := [];
    } else {
      var front, e := events[..|events| - 1], events[|events| - 1];
      requests := ReplayedWasPlayed(format, front);
      var choice := ReplayedOnce(format, Rebuilt(format, front).value, e);
      assert (requests + [Request(e.actor, choice)])[..|requests|] == requests;
      assert events == front + [e];
      requests := requests + [Request(e.actor, choice)];
    }
  }
}
