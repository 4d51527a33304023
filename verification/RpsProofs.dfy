/** Rock, paper, scissors: two choices commute, rounds are scored fairly, the log replays, and
    a locked choice stays hidden from the opponent until the round is revealed. */
module RpsProofs {
  import opened Common
  import opened Rps

  // ---------------------------------------------------------------- simultaneous choices

  lemma NoKeys(m: map<UserId, Choice>)
    requires |m| == 0
    ensures m == map[]
  {
    KeysDecideSize(m);
    assert m.Keys == {};
  }

  /** Two players' choices in one round are accepted in either order, show the same round and
      leave the same position. */
  lemma ChoicesCommute(format: Format, snap: Snap, a: UserId, x: Choice, b: UserId, y: Choice)
    requires Decodes(snap, format) && snap.state.active && snap.state.choices == map[] && a != b
    ensures var first, second := ApplyChoice(format, snap, a, x), ApplyChoice(format, snap, b, y);
      && first.Ok? && second.Ok?
      && var ab, ba := ApplyChoice(format, first.value.next, b, y), ApplyChoice(format, second.value.next, a, x);
         && ab.Ok? && ba.Ok? && ab.value.next == ba.value.next
         && ab.value.event.payload == ba.value.event.payload
         && ab.value.event.payload.RoundRevealed? && ab.value.event.payload.shown.round == snap.state.round
         && ab.value.next.state.lastReveal == Some(ab.value.event.payload.shown)
         && ab.value.event.payload.shown.roundWinner == (if Beats(x, y) then Some(a) else if Beats(y, x) then Some(b) else None)
  {
    var s := snap.state;
    SecondChoice(format, snap, a, x, b, y);
    SecondChoice(format, snap, b, y, a, x);
    assert s.choices[a := x][b := y] == s.choices[b := y][a := x];
    hide Decodes, ApplyChoice, Revealed;
  }

  lemma SecondChoice(format: Format, snap: Snap, a: UserId, x: Choice, b: UserId, y: Choice)
    requires Decodes(snap, format) && snap.state.active && snap.state.choices == map[] && a != b
    ensures var first := ApplyChoice(format, snap, a, x);
      && first.Ok?
      && var second := ApplyChoice(format, first.value.next, b, y);
         var t := Revealed(snap.state, snap.state.choices[a := x][b := y], RoundWinner(a, x, b, y));
         && second.Ok? && second.value.next == GameSnapshot(snap.revision + 2, t)
         && t.lastReveal.Some? && t.lastReveal.value.round == snap.state.round
         && t.lastReveal.value.roundWinner == RoundWinner(a, x, b, y)
         && second.value.event == GameEvent(snap.revision + 2, b, RoundRevealed(t.lastReveal.value))
  {
    var one := snap.state.choices[a := x];
    ChoiceGrows(snap.state.choices, a, x);
    KeysDecideSize(one);
    assert OnlyKey(one) in one.Keys;
    assert OnlyKey(one) == a;
  }

  // ----------------------------------------------------------------- what every game keeps

  function ScoreOf(s: State, u: UserId): int {
    if u in s.scores then s.scores[u] else 0
  }

  function Needed(format: Format): int {
    if format == SingleRound then 1 else 2
  }

  /** A position two players can reach: scores and choices are theirs, each round takes two
      choices, and the match ends exactly when one of them has the rounds it takes. */
  ghost predicate Fair(snap: Snap, format: Format, a: UserId, b: UserId) {
    var s := snap.state;
    && s.format == format && s.round >= 1 && a != b
    && s.choices.Keys <= {a, b} && s.scores.Keys <= {a, b} && |s.choices| <= 1
    && 0 <= ScoreOf(s, a) <= Needed(format) && 0 <= ScoreOf(s, b) <= Needed(format)
    && (if s.active then
          && s.winner.None? && s.result.None? && snap.revision == 2 * (s.round - 1) + |s.choices|
          && ScoreOf(s, a) < Needed(format) && ScoreOf(s, b) < Needed(format)
        else
          && s.result == Some(Rounds) && snap.revision == 2 * s.round && s.choices == map[]
          && (s.winner == Some(a) || s.winner == Some(b))
          && (s.winner == Some(a) ==> ScoreOf(s, a) == Needed(format) > ScoreOf(s, b))
          && (s.winner == Some(b) ==> ScoreOf(s, b) == Needed(format) > ScoreOf(s, a)))
  }

  lemma AtMostTwo(keys: set<UserId>, a: UserId, b: UserId)
    requires keys <= {a, b}
    ensures |keys| <= 2
  {
    if a in keys {
      if b in keys {
        assert keys == {a, b};
      } else {
        assert keys == {a};
      }
    } else if b in keys {
      assert keys == {b};
    } else {
      assert keys == {};
    }
  }

  lemma FairDecodes(snap: Snap, format: Format, a: UserId, b: UserId)
    requires Fair(snap, format, a, b)
    ensures Decodes(snap, format)
  {
    var s := snap.state;
    AtMostTwo(s.choices.Keys, a, b);
    AtMostTwo(s.scores.Keys, a, b);
    assert |s.scores| == |s.scores.Keys|;
    forall u | u in s.scores ensures 0 <= s.scores[u] <= 2 {
      assert u in s.scores.Keys;
      assert u == a || u == b;
    }
  }

  lemma RevealIsFair(s: State, revision: int, format: Format, a: UserId, b: UserId, w: Option<UserId>, choices: map<UserId, Choice>)
    requires Fair(GameSnapshot(revision, s), format, a, b) && s.active && |s.choices| == 1
    requires w == None || w == Some(a) || w == Some(b)
    ensures Fair(GameSnapshot(revision + 1, Revealed(s, choices, w)), format, a, b)
  {
    var t := Revealed(s, choices, w);
    assert t.scores.Keys <= {a, b};
  }

  /** Any choice by either player keeps a fair position fair. */
  lemma ChoiceKeepsFair(format: Format, snap: Snap, a: UserId, b: UserId, actor: UserId, choice: Choice)
    requires Fair(snap, format, a, b) && actor in {a, b} && ApplyChoice(format, snap, actor, choice).Ok?
    ensures Fair(ApplyChoice(format, snap, actor, choice).value.next, format, a, b)
  {
    if |snap.state.choices| == 1 {
      RevealKeepsFair(format, snap, a, b, actor, choice);
    } else {
      ChoiceGrows(snap.state.choices, actor, choice);
      hide Revealed, RoundWinner;
    }
  }

  lemma RevealKeepsFair(format: Format, snap: Snap, a: UserId, b: UserId, actor: UserId, choice: Choice)
    requires Fair(snap, format, a, b) && actor in {a, b} && ApplyChoice(format, snap, actor, choice).Ok?
    requires |snap.state.choices| == 1
    ensures Fair(ApplyChoice(format, snap, actor, choice).value.next, format, a, b)
  {
    var s := snap.state;
    var choices := s.choices[actor := choice];
    ChoiceGrows(s.choices, actor, choice);
    var other := OnlyKey(s.choices);
    assert other in s.choices.Keys;
    var w := RoundWinner(actor, choice, other, s.choices[other]);
    hide Fair, Revealed;
    RevealIsFair(s, snap.revision, format, a, b, w, choices);
  }

  /** A round that `winner` wins keeps the scores within what the decoder reads: nobody wins it, a
      player who has scored once wins it again, or there is room for another scorer. */
  predicate Scorable(scores: map<UserId, int>, winner: Option<UserId>) {
    match winner
    case None => true
    case Some(u) => if u in scores then scores[u] < 2 else |scores| < 2
  }

  /** The engine alone accepts any number of players. Its answer passes its own decoder if and only
      if the choice opens a round, or closes one whose winner is scorable. */
  lemma ChoicePassesDecoder(format: Format, snap: Snap, actor: UserId, choice: Choice)
    requires ApplyChoice(format, snap, actor, choice).Ok?
    ensures var s := snap.state;
      Decodes(ApplyChoice(format, snap, actor, choice).value.next, format) <==>
        |s.choices| == 1 ==> Scorable(s.scores, RoundWinner(actor, choice, OnlyKey(s.choices), s.choices[OnlyKey(s.choices)]))
  {
    ChoiceGrows(snap.state.choices, actor, choice);
    hide RoundWinner, Scored, Scorable;
    if |snap.state.choices| == 1 {
      var other := OnlyKey(snap.state.choices);
      ScoredDecodes(snap.state.scores, RoundWinner(actor, choice, other, snap.state.choices[other]));
    }
  }

  /** The decoder's clauses about the scores. */
  lemma ScoredDecodes(scores: map<UserId, int>, winner: Option<UserId>)
    requires |scores| <= 2 && forall u :: u in scores ==> 0 <= scores[u] <= 2
    ensures var after := Scored(scores, winner);
      (|after| <= 2 && forall u :: u in after ==> 0 <= after[u] <= 2) <==> Scorable(scores, winner)
  {
    if winner.Some? {
      var u := winner.value;
      if u in scores {
        assert scores[u := scores[u] + 1].Keys == scores.Keys;
        assert |scores[u := scores[u] + 1]| == |scores[u := scores[u] + 1].Keys| && |scores| == |scores.Keys|;
      } else {
        ScorersGrow(scores, u);
      }
    }
  }

  lemma ScorersGrow(scores: map<UserId, int>, u: UserId)
    requires u !in scores
    ensures |scores[u := 1]| == |scores| + 1
  {
    assert scores[u := 1].Keys == scores.Keys + {u};
    assert |scores| == |scores.Keys| && |scores[u := 1]| == |scores[u := 1].Keys|;
  }

  // ---------------------------------------------------------------------- whole games

  datatype Request = Request(actor: UserId, choice: Choice)

  datatype Game = Game(log: seq<Event>, snap: Snap)

  function Step(format: Format, g: Game, r: Request): Game {
    match ApplyChoice(format, g.snap, r.actor, r.choice)
    case Err(_) => g
    case Ok(a) => Game(g.log + [a.event], a.next)
  }

  function Play(format: Format, requests: seq<Request>): Game {
    if requests == [] then Game([], InitialSnapshot(format))
    else Step(format, Play(format, requests[..|requests| - 1]), requests[|requests| - 1])
  }

  ghost predicate TwoScorers(log: seq<Event>) {
    forall i :: 0 <= i < |log| && log[i].payload.RoundRevealed? ==> |log[i].payload.shown.scores| <= 2
  }

  lemma ReplayOneChoice(format: Format, snap: Snap, actor: UserId, choice: Choice)
    requires ApplyChoice(format, snap, actor, choice).Ok?
    requires var p := ApplyChoice(format, snap, actor, choice).value.event.payload; p.RoundRevealed? ==> |p.shown.scores| <= 2
    ensures var a := ApplyChoice(format, snap, actor, choice).value;
      ReplayEvent(format, snap, a.event) == Ok(a.next) && a.event.revision == a.next.revision == snap.revision + 1
  {
    ChoiceGrows(snap.state.choices, actor, choice);
  }

  lemma {:induction false} ReplayedRoundsNameTwo(format: Format, log: seq<Event>)
    requires Rebuilt(format, log).Ok?
    ensures TwoScorers(log)
  {
    hide ApplyChoice;
    if log != [] {
      ReplayedRoundsNameTwo(format, log[..|log| - 1]);
      assert forall i :: 0 <= i < |log| - 1 ==> log[i] == log[..|log| - 1][i];
    }
  }

  lemma {:induction false} TwoScorersReplay(format: Format, requests: seq<Request>)
    requires TwoScorers(Play(format, requests).log)
    ensures var g := Play(format, requests); Rebuilt(format, g.log) == Ok(g.snap)
  {
    hide ApplyChoice, ReplayEvent;
    if requests != [] {
      var before := Play(format, requests[..|requests| - 1]);
      var g := Play(format, requests);
      var r := requests[|requests| - 1];
      forall i | 0 <= i < |before.log| ensures before.log[i] == g.log[i] {
      }
      TwoScorersReplay(format, requests[..|requests| - 1]);
      LogLength(format, requests[..|requests| - 1]);
      if ApplyChoice(format, before.snap, r.actor, r.choice).Ok? {
        assert g.log[|g.log| - 1] == ApplyChoice(format, before.snap, r.actor, r.choice).value.event;
        ReplayOneChoice(format, before.snap, r.actor, r.choice);
        assert g.log[..|g.log| - 1] == before.log;
      }
    }
  }

  lemma {:induction false} LogLength(format: Format, requests: seq<Request>)
    ensures Play(format, requests).snap.revision == |Play(format, requests).log|
  {
    hide Decodes, RoundWinner, Revealed;
    if requests != [] {
      LogLength(format, requests[..|requests| - 1]);
    }
  }

  /** What a caller can check before a choice: it opens a round, or closes one whose winner is scorable. */
  predicate ChoiceFits(s: State, r: Request) {
    |s.choices| == 1 ==>
      Scorable(s.scores, RoundWinner(r.actor, r.choice, OnlyKey(s.choices), s.choices[OnlyKey(s.choices)]))
  }

  /** Every accepted request of a game fitted at its time. */
  ghost predicate AllFit(format: Format, requests: seq<Request>) {
    forall k :: 0 <= k < |requests| && ApplyChoice(format, Play(format, requests[..k]).snap, requests[k].actor, requests[k].choice).Ok? ==>
      ChoiceFits(Play(format, requests[..k]).snap.state, requests[k])
  }

  // While a game is on nobody has scored twice.
  ghost predicate StillOpen(snap: Snap) {
    snap.state.active ==> forall u :: u in snap.state.scores ==> snap.state.scores[u] <= 1
  }

  lemma ChoiceStaysOpen(format: Format, snap: Snap, actor: UserId, choice: Choice)
    requires StillOpen(snap) && ApplyChoice(format, snap, actor, choice).Ok?
    ensures StillOpen(ApplyChoice(format, snap, actor, choice).value.next)
  {
    hide RoundWinner;
  }

  lemma {:induction false} GamesStayOpen(format: Format, requests: seq<Request>)
    ensures StillOpen(Play(format, requests).snap)
  {
    hide ApplyChoice, StillOpen;
    if requests == [] {
      assert StillOpen(InitialSnapshot(format)) by {
        NobodyScored(format);
      }
    } else {
      var before, r := Play(format, requests[..|requests| - 1]), requests[|requests| - 1];
      GamesStayOpen(format, requests[..|requests| - 1]);
      if ApplyChoice(format, before.snap, r.actor, r.choice).Ok? {
        ChoiceStaysOpen(format, before.snap, r.actor, r.choice);
      }
    }
  }

  lemma NobodyScored(format: Format)
    ensures StillOpen(InitialSnapshot(format))
  {
  }

  /** In a game that is on, the guard says exactly whether the round names at most two scorers. */
  lemma FitsExactlyTwoScorers(format: Format, snap: Snap, r: Request)
    requires StillOpen(snap) && ApplyChoice(format, snap, r.actor, r.choice).Ok?
    ensures var p := ApplyChoice(format, snap, r.actor, r.choice).value.event.payload;
      ChoiceFits(snap.state, r) <==> (p.RoundRevealed? ==> |p.shown.scores| <= 2)
  {
    hide RoundWinner, Scored, Scorable;
    if |snap.state.choices| == 1 {
      var other := OnlyKey(snap.state.choices);
      ScorableExactlyTwo(snap.state.scores, RoundWinner(r.actor, r.choice, other, snap.state.choices[other]));
    }
  }

  lemma ScorableExactlyTwo(scores: map<UserId, int>, winner: Option<UserId>)
    requires |scores| <= 2 && forall u :: u in scores ==> scores[u] <= 1
    ensures Scorable(scores, winner) <==> |Scored(scores, winner)| <= 2
  {
    if winner.Some? {
      var u := winner.value;
      if u in scores {
        assert scores[u := scores[u] + 1].Keys == scores.Keys;
        assert |scores[u := scores[u] + 1]| == |scores[u := scores[u] + 1].Keys| && |scores| == |scores.Keys|;
      } else {
        ScorersGrow(scores, u);
      }
    }
  }

  lemma {:induction false} AllFitExactlyTwoScorers(format: Format, requests: seq<Request>)
    ensures AllFit(format, requests) <==> TwoScorers(Play(format, requests).log)
  {
    hide ApplyChoice, ChoiceFits, StillOpen;
    if requests != [] {
      var front, r := requests[..|requests| - 1], requests[|requests| - 1];
      var before, g := Play(format, front), Play(format, requests);
      AllFitExactlyTwoScorers(format, front);
      OneMoreFits(format, front, r);
      assert requests == front + [r];
      if ApplyChoice(format, before.snap, r.actor, r.choice).Ok? {
        GamesStayOpen(format, front);
        FitsExactlyTwoScorers(format, before.snap, r);
        OneMoreScored(before.log, ApplyChoice(format, before.snap, r.actor, r.choice).value.event);
      }
    }
  }

  lemma OneMoreScored(log: seq<Event>, e: Event)
    ensures TwoScorers(log + [e]) <==> TwoScorers(log) && (e.payload.RoundRevealed? ==> |e.payload.shown.scores| <= 2)
  {
    assert (log + [e])[|log|] == e;
    assert forall i :: 0 <= i < |log| ==> (log + [e])[i] == log[i];
  }

  lemma OneMoreFits(format: Format, front: seq<Request>, r: Request)
    ensures AllFit(format, front + [r]) <==>
      AllFit(format, front) && (ApplyChoice(format, Play(format, front).snap, r.actor, r.choice).Ok? ==> ChoiceFits(Play(format, front).snap.state, r))
  {
    hide Play, ApplyChoice, ChoiceFits;
    var requests := front + [r];
    assert requests[..|front|] == front;
    assert forall k :: 0 <= k < |front| ==> requests[..k] == front[..k] && requests[k] == front[k];
    if AllFit(format, requests) {
      forall k | 0 <= k < |front| && ApplyChoice(format, Play(format, front[..k]).snap, front[k].actor, front[k].choice).Ok?
        ensures ChoiceFits(Play(format, front[..k]).snap.state, front[k])
      {
        assert requests[..k] == front[..k];
      }
    }
  }

  /** Whoever plays, the log replays to the position if and only if every accepted choice fitted at
      its time, that is if no round made a third scorer, as in every game between two players;
      otherwise replay fails. */
  lemma EveryGameReplays(format: Format, requests: seq<Request>)
    ensures var g := Play(format, requests);
      && Rebuilt(format, g.log) == (if AllFit(format, requests) then Ok(g.snap) else Err(InvalidEvent))
      && (AllFit(format, requests) <==> TwoScorers(g.log)) && g.snap.revision == |g.log|
  {
    hide Play, Rebuilt, TwoScorers, AllFit;
    var g := Play(format, requests);
    LogLength(format, requests);
    AllFitExactlyTwoScorers(format, requests);
    if TwoScorers(g.log) {
      TwoScorersReplay(format, requests);
    }
    if Rebuilt(format, g.log).Ok? {
      ReplayedRoundsNameTwo(format, g.log);
    }
    RebuiltPrefix(format, g.log, 0);
  }

  // Best of three with three players: 1 beats 2, 3 beats 1, 2 beats 1.
  const THREE_PLAYERS: seq<Request> := [
    Request(1, Rock), Request(2, Scissors), Request(3, Rock), Request(1, Scissors), Request(2, Rock), Request(1, Scissors)]

  lemma RoundIsPlayed(requests: seq<Request>, a: UserId, x: Choice, b: UserId, y: Choice)
    requires var s := Play(BestOfThree, requests).snap.state;
      Decodes(Play(BestOfThree, requests).snap, BestOfThree) && s.active && s.choices == map[] && a != b
    ensures var g, h := Play(BestOfThree, requests), Play(BestOfThree, requests + [Request(a, x)] + [Request(b, y)]);
      var t := Revealed(g.snap.state, map[a := x, b := y], RoundWinner(a, x, b, y));
      && h.snap == GameSnapshot(g.snap.revision + 2, t)
      && |h.log| == |g.log| + 2 && h.log[|g.log| + 1].payload == RoundRevealed(t.lastReveal.value)
  {
    hide Decodes, Revealed, RoundWinner, ApplyChoice;
    var g := Play(BestOfThree, requests);
    var one := requests + [Request(a, x)];
    var two := one + [Request(b, y)];
    assert one[..|requests|] == requests && two[..|one|] == one;
    SecondChoice(BestOfThree, g.snap, a, x, b, y);
    assert g.snap.state.choices[a := x][b := y] == map[a := x, b := y];
    assert Play(BestOfThree, one) == Step(BestOfThree, g, Request(a, x));
    assert Play(BestOfThree, two) == Step(BestOfThree, Play(BestOfThree, one), Request(b, y));
  }

  // Between two rounds of a best of three, with these scores.
  predicate Between(snap: Snap, scores: map<UserId, int>) {
    && snap.revision >= 0 && snap.state.active && snap.state.format == BestOfThree && snap.state.round >= 1
    && snap.state.choices == map[] && snap.state.scores == scores
  }

  /** A player's first point. */
  lemma FirstPoint(requests: seq<Request>, scores: map<UserId, int>, a: UserId, x: Choice, b: UserId, y: Choice)
    requires Between(Play(BestOfThree, requests).snap, scores) && |scores| <= 2 && forall u :: u in scores ==> scores[u] == 1
    requires a !in scores && a != b && Beats(x, y)
    ensures var g, h := Play(BestOfThree, requests), Play(BestOfThree, requests + [Request(a, x)] + [Request(b, y)]);
      && Between(h.snap, scores[a := 1]) && |h.log| == |g.log| + 2
      && h.log[|g.log| + 1].payload.RoundRevealed? && h.log[|g.log| + 1].payload.shown.scores == scores[a := 1]
    ensures |scores[a := 1]| == |scores| + 1
  {
    ScorersGrow(scores, a);
    hide Play;
    RoundIsPlayed(requests, a, x, b, y);
  }

  /** The failing game: every choice is accepted, but the engine's own decoder refuses the position,
      and the log does not replay. */
  lemma ThirdScorerBreaksTheGame()
    ensures var g := Play(BestOfThree, THREE_PLAYERS);
      |g.log| == |THREE_PLAYERS| && !Decodes(g.snap, BestOfThree) && Rebuilt(BestOfThree, g.log) == Err(InvalidEvent)
  {
    hide Play, Rebuilt, AllFit;
    var none: seq<Request> := [];
    var first := none + [Request(1, Rock)] + [Request(2, Scissors)];
    var second := first + [Request(3, Rock)] + [Request(1, Scissors)];
    assert THREE_PLAYERS == second + [Request(2, Rock)] + [Request(1, Scissors)];
    NothingPlayed(BestOfThree);
    FirstPoint(none, map[], 1, Rock, 2, Scissors);
    FirstPoint(first, map[][1 := 1], 3, Rock, 1, Scissors);
    FirstPoint(second, map[][1 := 1][3 := 1], 2, Rock, 1, Scissors);
    var g := Play(BestOfThree, THREE_PLAYERS);
    EveryGameReplays(BestOfThree, THREE_PLAYERS);
    assert g.log[5].payload.RoundRevealed?;
  }

  lemma NothingPlayed(format: Format)
    ensures Play(format, []) == Game([], InitialSnapshot(format))
  {
  }

  lemma RevealNamesTheScores(format: Format, snap: Snap, actor: UserId, choice: Choice)
    requires ApplyChoice(format, snap, actor, choice).Ok?
    ensures var a := ApplyChoice(format, snap, actor, choice).value;
      && a.event.actor == actor
      && (a.event.payload.RoundRevealed? ==> a.event.payload.shown.scores == a.next.state.scores)
  {
  }

  /** Two players' games stay fair, and replay. */
  lemma {:induction false} EveryMatchIsFair(format: Format, a: UserId, b: UserId, requests: seq<Request>)
    requires a != b && forall i :: 0 <= i < |requests| ==> requests[i].actor in {a, b}
    ensures var g := Play(format, requests);
      && Fair(g.snap, format, a, b) && Rebuilt(format, g.log) == Ok(g.snap) && g.snap.revision == |g.log|
      && TwoScorers(g.log)
  {
    if requests == [] {
      assert Fair(InitialSnapshot(format), format, a, b);
    } else {
      hide Fair, ApplyChoice, Rebuilt;
      var before := Play(format, requests[..|requests| - 1]);
      var g := Play(format, requests);
      var r := requests[|requests| - 1];
      EveryMatchIsFair(format, a, b, requests[..|requests| - 1]);
      if ApplyChoice(format, before.snap, r.actor, r.choice).Ok? {
        ChoiceKeepsFair(format, before.snap, a, b, r.actor, r.choice);
        FairDecodes(g.snap, format, a, b);
        RevealNamesTheScores(format, before.snap, r.actor, r.choice);
      }
      EveryGameReplays(format, requests);
    }
  }

  /** A choice sent at the revision before the opponent's lock still belongs to the round its
      sender saw: the lock changed neither the round nor the sender's freedom to choose, and
      the late choice is accepted and closes that same round. */
  lemma LateChoiceBelongsToItsRound(format: Format, a: UserId, b: UserId, seen: Snap, opponent: UserId, hidden: Choice, actor: UserId, choice: Choice)
    requires Fair(seen, format, a, b) && actor in {a, b} && opponent in {a, b} && actor != opponent
    requires ApplyChoice(format, seen, opponent, hidden).Ok?
    requires ApplyChoice(format, seen, opponent, hidden).value.event.payload.ChoiceLocked?
    ensures var now := ApplyChoice(format, seen, opponent, hidden).value.next;
      var late := ApplyChoice(format, now, actor, choice);
      && now.state.round == seen.state.round && actor !in seen.state.choices && actor !in now.state.choices
      && late.Ok? && late.value.event.payload.RoundRevealed?
      && late.value.event.payload.shown.round == seen.state.round
      && late.value.event.payload.shown.choices == map[opponent := hidden, actor := choice]
      && late.value.next.state.lastReveal == Some(late.value.event.payload.shown)
  {
    FairDecodes(seen, format, a, b);
    assert |seen.state.choices| == 0;
    NoKeys(seen.state.choices);
    assert map[opponent := hidden][actor := choice] == map[opponent := hidden, actor := choice];
    SecondChoice(format, seen, opponent, hidden, actor, choice);
    hide Decodes, RoundWinner;
  }

  // ------------------------------------------------------------------- what a player sees

  datatype PlayerView = PlayerView(user: UserId, score: int, locked: bool, choice: Option<Choice>)

  /** The match row's own status, winner and result are part of every view. */
  datatype View = View(
    status: (bool, Option<UserId>, Option<Outcome>),
    format: Format,
    round: int,
    me: PlayerView,
    opponent: PlayerView,
    lastReveal: Option<Reveal>)

  function Project(s: State, status: (bool, Option<UserId>, Option<Outcome>), viewer: UserId, opponent: UserId): View {
    View(status, s.format, s.round,
         PlayerView(viewer, ScoreOf(s, viewer), viewer in s.choices, if viewer in s.choices then Some(s.choices[viewer]) else None),
         PlayerView(opponent, ScoreOf(s, opponent), opponent in s.choices, None),
         s.lastReveal)
  }

  datatype EventView = Locked(round: int, user: UserId) | Shown(result: Reveal)

  function Published(p: Payload): EventView {
    match p
    case ChoiceLocked(round, user, _) => Locked(round, user)
    case RoundRevealed(r) => Shown(r)
  }

  /** Whatever the opponent locks, the viewer is sent the same event and the same view. */
  lemma LockedChoiceIsHidden(format: Format, snap: Snap, viewer: UserId, opponent: UserId, x: Choice, y: Choice,
                             status: (bool, Option<UserId>, Option<Outcome>))
    requires viewer != opponent && snap.state.choices == map[]
    ensures var one, two := ApplyChoice(format, snap, opponent, x), ApplyChoice(format, snap, opponent, y);
      && one.Ok? == two.Ok?
      && (one.Ok? ==>
           && Published(one.value.event.payload) == Published(two.value.event.payload)
           && Project(one.value.next.state, status, viewer, opponent) == Project(two.value.next.state, status, viewer, opponent))
  {
  }

  /** Exactly what a view tells: everything about the state except the opponent's open choice
      and the scores of people outside the match. */
  lemma ViewTellsExactly(s: State, t: State, status: (bool, Option<UserId>, Option<Outcome>), viewer: UserId, opponent: UserId)
    requires viewer != opponent
    ensures Project(s, status, viewer, opponent) == Project(t, status, viewer, opponent) <==>
      && s.format == t.format && s.round == t.round && s.lastReveal == t.lastReveal
      && ScoreOf(s, viewer) == ScoreOf(t, viewer) && ScoreOf(s, opponent) == ScoreOf(t, opponent)
      && (viewer in s.choices <==> viewer in t.choices) && (opponent in s.choices <==> opponent in t.choices)
      && (viewer in s.choices && viewer in t.choices ==> s.choices[viewer] == t.choices[viewer])
  {
  }
}
