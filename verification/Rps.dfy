/** Rock, paper, scissors with simultaneous choices (server/internal/games/rps/rules.go). */
module Rps {
  import opened Common

  datatype Format = SingleRound | BestOfThree

  datatype Choice = Rock | Paper | Scissors

  datatype Reveal = Reveal(
    round: int,
    choices: map<UserId, Choice>,
    roundWinner: Option<UserId>,
    draw: bool,
    scores: map<UserId, int>,
    matchWinner: Option<UserId>,
    result: Option<Outcome>)

  datatype State = State(
    active: bool,
    format: Format,
    round: int,
    choices: map<UserId, Choice>,
    scores: map<UserId, int>,
    lastReveal: Option<Reveal>,
    winner: Option<UserId>,
    result: Option<Outcome>)

  datatype Payload = ChoiceLocked(round: int, user: UserId, choice: Choice) | RoundRevealed(shown: Reveal)

  type Snap = GameSnapshot<State>
  type Event = GameEvent<Payload>
  type Reply = Result<Applied<State, Payload>, RuleError>

  function InitialSnapshot(format: Format): Snap {
    GameSnapshot(0, State(true, format, 1, map[], map[], None, None, None))
  }

  predicate Decodes(snap: Snap, format: Format) {
    var s := snap.state;
    && snap.revision >= 0 && s.format == format && s.round >= 1
    && |s.choices| <= 2 && |s.scores| <= 2
    && forall u :: u in s.scores ==> 0 <= s.scores[u] <= 2
  }

  predicate Beats(a: Choice, b: Choice) {
    match a
    case Rock => b == Scissors
    case Paper => b == Rock
    case Scissors => b == Paper
  }

  lemma SingletonKey(keys: set<UserId>, k: UserId)
    requires |keys| == 1 && k in keys
    ensures keys == {k}
  {
    assert |keys - {k}| == 0;
    assert keys == {k} + (keys - {k});
  }

  lemma KeysDecideSize(m: map<UserId, Choice>)
    ensures |m| == |m.Keys|
  {
  }

  function OnlyKey(m: map<UserId, Choice>): (k: UserId)
    requires |m| == 1
    ensures k in m && m.Keys == {k}
  {
    OneKey(m);
    var k :| k in m.Keys;
    k
  }

  lemma OneKey(m: map<UserId, Choice>)
    requires |m| == 1
    ensures exists k :: k in m.Keys
    ensures forall k :: k in m.Keys ==> m.Keys == {k}
  {
    KeysDecideSize(m);
    assert m.Keys != {};
    forall k | k in m.Keys ensures m.Keys == {k} {
      SingletonKey(m.Keys, k);
    }
  }

  /** Who of the two wins the round, if anybody. */
  function RoundWinner(a: UserId, x: Choice, b: UserId, y: Choice): Option<UserId> {
    if Beats(x, y) then Some(a) else if Beats(y, x) then Some(b) else None
  }

  function Scored(scores: map<UserId, int>, winner: Option<UserId>): map<UserId, int> {
    match winner
    case None => scores
    case Some(u) => scores[u := (if u in scores then scores[u] else 0) + 1]
  }

  /** The second choice of a round reveals both and scores them; a deciding round ends the match. */
  function Revealed(s: State, choices: map<UserId, Choice>, roundWinner: Option<UserId>): (t: State)
    ensures t.lastReveal.Some?
  {
    var scores := Scored(s.scores, roundWinner);
    var decided := roundWinner.Some? && (s.format == SingleRound || scores[roundWinner.value] >= 2);
    var winner, result := if decided then roundWinner else None, if decided then Some(Rounds) else None;
    var shown := Reveal(s.round, choices, roundWinner, roundWinner.None?, scores, winner, result);
    State(!decided, s.format, if decided then s.round else s.round + 1, map[], scores, Some(shown),
          if decided then winner else s.winner, if decided then result else s.result)
  }

  function ApplyChoice(format: Format, snap: Snap, actor: UserId, choice: Choice): Reply {
    var s := snap.state;
    var revision := snap.revision + 1;
    if !Decodes(snap, format) then Err(InvalidSnapshot)
    else if !s.active then Err(MatchFinished)
    else if actor in s.choices then Err(ChoiceAlreadyLocked)
    else
      var choices := s.choices[actor := choice];
      if |s.choices| == 0 then
        Ok(Applied(GameEvent(revision, actor, ChoiceLocked(s.round, actor, choice)), GameSnapshot(revision, s.(choices := choices))))
      else if |s.choices| == 1 then
        var other := OnlyKey(s.choices);
        var t := Revealed(s, choices, RoundWinner(actor, choice, other, s.choices[other]));
        Ok(Applied(GameEvent(revision, actor, RoundRevealed(t.lastReveal.value)), GameSnapshot(revision, t)))
      else Err(InvalidSnapshot)
  }

  /** The choice an event records for its actor, if its payload is well formed. */
  function ChoiceOf(event: Event): Option<Choice> {
    match event.payload
    case ChoiceLocked(round, user, choice) => if round >= 1 && user == event.actor then Some(choice) else None
    case RoundRevealed(r) =>
      if r.round >= 1 && |r.choices| == 2 && |r.scores| <= 2 && event.actor in r.choices then Some(r.choices[event.actor]) else None
  }

  function ReplayEvent(format: Format, snap: Snap, event: Event): Result<Snap, RuleError> {
    match ChoiceOf(event)
    case None => Err(InvalidEvent)
    case Some(choice) =>
      match ApplyChoice(format, snap, event.actor, choice)
      case Err(_) => Err(InvalidEvent)
      case Ok(a) => if a.event == event then Ok(a.next) else Err(InvalidEvent)
  }

  function Rebuilt(format: Format, events: seq<Event>): Result<Snap, RuleError> {
    if events == [] then Ok(InitialSnapshot(format))
    else match Rebuilt(format, events[..|events| - 1])
      case Err(e) => Err(e)
      case Ok(snap) =>
        if events[|events| - 1].revision != |events| then Err(InvalidEvent)
        else ReplayEvent(format, snap, events[|events| - 1])
  }

  // ------------------------------------------------------------------ the engine's code

  function Compare(left: Choice, right: Choice): (sign: int)
    ensures sign > 0 <==> Beats(left, right)
    ensures sign < 0 <==> Beats(right, left)
  {
    if left == right then 0
    else if (left == Rock && right == Scissors) || (left == Paper && right == Rock) || (left == Scissors && right == Paper) then 1
    else -1
  }

  /** The two players in identifier order, whatever order the map yields its keys in. */
  method SortedPair(choices: map<UserId, Choice>) returns (left: UserId, right: UserId)
    requires |choices| == 2
    ensures left < right && choices.Keys == {left, right}
  {
    KeysDecideSize(choices);
    var ids: seq<UserId> := [];
    var rest := choices.Keys;
    while rest != {}
      invariant |ids| + |rest| == 2
      invariant |ids| == 0 ==> rest == choices.Keys
      invariant |ids| == 1 ==> ids[0] !in rest && choices.Keys == rest + {ids[0]}
      invariant |ids| == 2 ==> ids[0] != ids[1] && choices.Keys == {ids[0], ids[1]}
      decreases |rest|
    {
      var id :| id in rest;
      if |rest| == 1 {
        SingletonKey(rest, id);
      }
      ids, rest := ids + [id], rest - {id};
    }
    if ids[0] > ids[1] {
      ids := [ids[1], ids[0]];
    }
    left, right := ids[0], ids[1];
  }

  /** Scores the round of `current`, whose two choices are in. */
  method RevealRound(current: State, ghost actor: UserId, ghost other: UserId) returns (next: State)
    requires actor != other && current.choices.Keys == {actor, other} && |current.choices| == 2
    requires current.active
    ensures next == Revealed(current, current.choices, RoundWinner(actor, current.choices[actor], other, current.choices[other]))
  {
    var left, right := SortedPair(current.choices);
    assert left in {actor, other} && right in {actor, other};
    var comparison := Compare(current.choices[left], current.choices[right]);
    var roundWinner: Option<UserId> := None;
    if comparison > 0 {
      roundWinner := Some(left);
    } else if comparison < 0 {
      roundWinner := Some(right);
    }
    assert roundWinner == RoundWinner(actor, current.choices[actor], other, current.choices[other]);
    next := current;
    if roundWinner.Some? {
      var u := roundWinner.value;
      next := next.(scores := next.scores[u := (if u in next.scores then next.scores[u] else 0) + 1]);
    }
    var matchWinner: Option<UserId>, result: Option<Outcome> := None, None;
    if roundWinner.Some? && (next.format == SingleRound || next.scores[roundWinner.value] >= 2) {
      matchWinner, result := roundWinner, Some(Rounds);
      next := next.(active := false, winner := roundWinner, result := Some(Rounds));
    }
    var revealed := Reveal(next.round, next.choices, roundWinner, roundWinner.None?, next.scores, matchWinner, result);
    next := next.(lastReveal := Some(revealed), choices := map[]);
    if next.active {
      next := next.(round := next.round + 1);
    }
  }

  method Apply(format: Format, snapshot: Snap, actor: UserId, choice: Choice) returns (reply: Reply)
    ensures reply == ApplyChoice(format, snapshot, actor, choice)
  {
    if !Decodes(snapshot, format) {
      return Err(InvalidSnapshot);
    }
    var current := snapshot.state;
    if !current.active {
      return Err(MatchFinished);
    }
    if actor in current.choices {
      return Err(ChoiceAlreadyLocked);
    }
    current := current.(choices := current.choices[actor := choice]);
    ChoiceGrows(snapshot.state.choices, actor, choice);
    var revision := snapshot.revision + 1;
    if |current.choices| == 1 {
      return Ok(Applied(GameEvent(revision, actor, ChoiceLocked(current.round, actor, choice)), GameSnapshot(revision, current)));
    }
    if |current.choices| != 2 {
      return Err(InvalidSnapshot);
    }
    ghost var other := OnlyKey(snapshot.state.choices);
    var next := RevealRound(current, actor, other);
    return Ok(Applied(GameEvent(revision, actor, RoundRevealed(next.lastReveal.value)), GameSnapshot(revision, next)));
  }

  lemma ChoiceGrows(choices: map<UserId, Choice>, actor: UserId, choice: Choice)
    requires actor !in choices
    ensures |choices[actor := choice]| == |choices| + 1
    ensures choices[actor := choice].Keys == choices.Keys + {actor}
  {
    KeysDecideSize(choices);
    KeysDecideSize(choices[actor := choice]);
    assert choices[actor := choice].Keys == choices.Keys + {actor};
  }

  lemma {:induction false} RebuiltPrefix(format: Format, events: seq<Event>, k: nat)
    requires k <= |events|
    ensures Rebuilt(format, events[..k]).Err? ==> Rebuilt(format, events) == Err(InvalidEvent)
    ensures Rebuilt(format, events).Err? ==> Rebuilt(format, events) == Err(InvalidEvent)
  {
    hide ApplyChoice, ChoiceOf;
    if events != [] {
      var front := events[..|events| - 1];
      if k < |events| {
        assert front[..k] == events[..k];
        RebuiltPrefix(format, front, k);
      } else {
        assert events[..k] == events;
        RebuiltPrefix(format, front, 0);
      }
    }
  }

  method Rebuild(format: Format, events: seq<Event>) returns (result: Result<Snap, RuleError>)
    ensures result == Rebuilt(format, events)
  {
    hide ApplyChoice, ChoiceOf;
    var snapshot := InitialSnapshot(format);
    for index := 0 to |events|
      invariant Rebuilt(format, events[..index]) == Ok(snapshot)
    {
      var persisted := events[index];
      assert events[..index + 1][..index] == events[..index];
      RebuiltPrefix(format, events, index + 1);
      if persisted.revision != index + 1 {
        return Err(InvalidEvent);
      }
      var choice := ChoiceOf(persisted);
      if choice.None? {
        return Err(InvalidEvent);
      }
      var produced := Apply(format, snapshot, persisted.actor, choice.value);
      if produced.Err? || produced.value.event != persisted {
        return Err(InvalidEvent);
      }
      snapshot := produced.value.next;
    }
    assert events[..|events|] == events;
    return Ok(snapshot);
  }
}
