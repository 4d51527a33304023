/** The durable battleship service: matches, the action ledger and rematches
    (server/internal/battleship/service.go). */
module BattleshipService {
  import opened Common
  import opened Battleship
  import opened BattleshipProofs

  datatype Row = Row(playerA: UserId, playerB: UserId, revision: int, state: State)

  datatype Entry = Entry(actor: UserId, request: Action)

  datatype Tables = Tables(
    enabled: map<UserId, bool>,
    matches: map<MatchId, Row>,
    ledger: map<(MatchId, nat), Entry>)

  datatype Answer = Answer(id: MatchId, revision: int, view: View)

  function PlayerOf(s: State, user: UserId): int {
    if s.players.zero == user then 0 else if s.players.one == user then 1 else -1
  }

  predicate Seated(row: Row, user: UserId) {
    row.playerA == user || row.playerB == user
  }

  function Get(t: Tables, user: UserId, id: MatchId): Result<Answer, Error> {
    if id !in t.matches || !Seated(t.matches[id], user) then Err(NotFound)
    else
      var row := t.matches[id];
      var p := PlayerOf(row.state, user);
      if p < 0 then Err(NotFound) else Ok(Answer(id, row.revision, ViewOf(row.state, p)))
  }

  /** Inserting does nothing when the identifier is taken; then the seats must be these two. */
  function Create(t: Tables, user: UserId, id: MatchId, opponent: UserId, first: int): (Result<Answer, Error>, Tables) {
    if user == opponent || opponent !in t.enabled || !t.enabled[opponent] then (Err(Invalid), t)
    else
      var after := if id in t.matches then t
                   else t.(matches := t.matches[id := Row(user, opponent, 0, NewState(user, opponent, first))]);
      var row := after.matches[id];
      if row.playerA != user || row.playerB != opponent then (Err(Conflict), after) else (Get(after, user, id), after)
  }

  /** The second rematch request opens the next match, with the other player to begin. */
  function WithRematch(t: Tables, id: MatchId, s: State, nextId: MatchId): Tables
    requires id in t.matches
  {
    var row := t.matches[id];
    if s.rematch.zero && s.rematch.one && s.nextMatch.None? then
      var a, b := s.players.zero, s.players.one;
      t.(matches := t.matches[nextId := Row(a, b, 0, NewState(a, b, 1 - s.first))]
                             [id := row.(state := s.(nextMatch := Some(nextId)), revision := row.revision + 1)])
    else t.(matches := t.matches[id := row.(state := s, revision := row.revision + 1)])
  }

  function Act(t: Tables, user: UserId, id: MatchId, a: Action, nextId: MatchId): (Result<Answer, Error>, Tables) {
    if a.revision < 0 then (Err(Invalid), t)
    else if id !in t.matches || !Seated(t.matches[id], user) then (Err(NotFound), t)
    else if (id, a.actionId) in t.ledger then
      if t.ledger[(id, a.actionId)] != Entry(user, a) then (Err(Conflict), t) else (Get(t, user, id), t)
    else if t.matches[id].revision != a.revision then (Err(Conflict), t)
    else match Step(t.matches[id].state, PlayerOf(t.matches[id].state, user), a)
      case Err(e) => (Err(e), t)
      case Ok(s) =>
        if s.rematch.zero && s.rematch.one && s.nextMatch.None? && nextId in t.matches then (Err(Failed), t)
        else
          var after := WithRematch(t, id, s, nextId).(ledger := t.ledger[(id, a.actionId) := Entry(user, a)]);
          (Get(after, user, id), after)
  }

  // ------------------------------------------------------------------------ the service

  class Service {
    var enabled: map<UserId, bool>
    var matches: map<MatchId, Row>
    var ledger: map<(MatchId, nat), Entry>

    function Rows(): Tables
      reads this
    {
      Tables(enabled, matches, ledger)
    }

    constructor (users: map<UserId, bool>)
      ensures Rows() == Tables(users, map[], map[])
    {
      enabled, matches, ledger := users, map[], map[];
    }

    method CreateMatch(user: UserId, id: MatchId, opponent: UserId, first: int) returns (r: Result<Answer, Error>)
      modifies this
      ensures (r, Rows()) == Create(old(Rows()), user, id, opponent, first)
    {
      hide ViewOf;
      if user == opponent || opponent !in enabled || !enabled[opponent] {
        return Err(Invalid);
      }
      if id !in matches {
        matches := matches[id := Row(user, opponent, 0, NewState(user, opponent, first))];
      }
      if matches[id].playerA != user || matches[id].playerB != opponent {
        return Err(Conflict);
      }
      return Get(Rows(), user, id);
    }

    /** One transaction: ledger, revision, the engine's step on the decoded state, the rematch,
        and the three writes. */
    method ActOnMatch(user: UserId, id: MatchId, a: Action, nextId: MatchId) returns (r: Result<Answer, Error>)
      modifies this
      ensures (r, Rows()) == Act(old(Rows()), user, id, a, nextId)
    {
      hide Step, ViewOf;
      if a.revision < 0 {
        return Err(Invalid);
      }
      if id !in matches || !Seated(matches[id], user) {
        return Err(NotFound);
      }
      if (id, a.actionId) in ledger {
        if ledger[(id, a.actionId)] != Entry(user, a) {
          return Err(Conflict);
        }
        return Get(Rows(), user, id);
      }
      var row := matches[id];
      if row.revision != a.revision {
        return Err(Conflict);
      }
      var game := new Game(row.state);
      var error := game.Apply(PlayerOf(row.state, user), a);
      if error.Some? {
        return Err(error.value);
      }
      var tx := matches;
      if game.rematch.zero && game.rematch.one && game.nextMatch.None? {
        if nextId in tx {
          return Err(Failed);
        }
        game.nextMatch := Some(nextId);
        var one, two := game.players.zero, game.players.one;
        tx := tx[nextId := Row(one, two, 0, NewState(one, two, 1 - game.first))];
      }
      tx := tx[id := row.(state := game.Value(), revision := row.revision + 1)];
      matches := tx;
      ledger := ledger[(id, a.actionId) := Entry(user, a)];
      return Get(Rows(), user, id);
    }
  }

  // ------------------------------------------------------------------------ whole runs

  datatype Op =
    | CreateOp(user: UserId, id: MatchId, opponent: UserId, first: int)
    | ActOp(actor: UserId, matchId: MatchId, action: Action, nextId: MatchId)

  function Exec(t: Tables, op: Op): Tables {
    match op
    case CreateOp(user, id, opponent, first) => Create(t, user, id, opponent, first).1
    case ActOp(actor, matchId, action, nextId) => Act(t, actor, matchId, action, nextId).1
  }

  function Run(t: Tables, ops: seq<Op>): Tables {
    if ops == [] then t else Exec(Run(t, ops[..|ops| - 1]), ops[|ops| - 1])
  }

  predicate FairCoin(op: Op) {
    op.CreateOp? ==> op.first == 0 || op.first == 1
  }

  ghost function Entries(t: Tables, id: MatchId): set<(MatchId, nat)> {
    set k | k in t.ledger && k.0 == id
  }

  /** A stored match: a fair state of its two seats, one ledger row per revision, and exactly
      one next match once both have asked for it, with the other player to begin. */
  ghost predicate MatchFits(t: Tables, id: MatchId)
    requires id in t.matches
  {
    var row := t.matches[id];
    && Fair(row.state) && row.state.players == Two(row.playerA, row.playerB)
    && row.revision == |Entries(t, id)|
    && (row.state.nextMatch.Some? <==> row.state.rematch.zero && row.state.rematch.one)
    && (row.state.nextMatch.Some? ==>
         var next := row.state.nextMatch.value;
         && next in t.matches && next != id
         && t.matches[next].playerA == row.playerA && t.matches[next].playerB == row.playerB
         && t.matches[next].state.first == 1 - row.state.first)
  }

  ghost predicate Sound(t: Tables) {
    && (forall id :: id in t.matches ==> MatchFits(t, id))
    && (forall k :: k in t.ledger ==> k.0 in t.matches)
    && (forall a, b :: a in t.matches && b in t.matches && a != b && t.matches[a].state.nextMatch.Some? ==>
                         t.matches[a].state.nextMatch != t.matches[b].state.nextMatch)
  }

  // What an accepted action cannot touch.
  lemma StepKeepsSeats(s: State, p: int, a: Action)
    requires Step(s, p, a).Ok?
    ensures var t := Step(s, p, a).value; t.players == s.players && t.first == s.first && t.nextMatch == s.nextMatch
    ensures var t := Step(s, p, a).value; (s.rematch.zero ==> t.rematch.zero) && (s.rematch.one ==> t.rematch.one)
  {
    hide ValidFleet, Fired, AllSunk, Occupies;
  }

  lemma CreateKeepsSound(t: Tables, user: UserId, id: MatchId, opponent: UserId, first: int)
    requires Sound(t) && (first == 0 || first == 1)
    ensures Sound(Create(t, user, id, opponent, first).1)
  {
    hide Fair, ViewOf;
    var after := Create(t, user, id, opponent, first).1;
    if after != t {
      NewMatchIsFair(user, opponent, first);
      forall other | other in after.matches ensures MatchFits(after, other) {
        assert Entries(after, other) == Entries(t, other);
        if other == id {
          assert Entries(t, id) == {};
        } else {
          assert MatchFits(t, other);
        }
      }
      hide MatchFits;
    }
  }

  lemma EntriesGrow(t: Tables, after: Tables, id: MatchId, actionId: nat, e: Entry, other: MatchId)
    requires (id, actionId) !in t.ledger && after.ledger == t.ledger[(id, actionId) := e]
    ensures |Entries(after, other)| == |Entries(t, other)| + if other == id then 1 else 0
  {
    if other == id {
      assert Entries(after, id) == Entries(t, id) + {(id, actionId)};
    } else {
      assert Entries(after, other) == Entries(t, other);
    }
  }

  predicate Opens(s: State) {
    s.rematch.zero && s.rematch.one && s.nextMatch.None?
  }

  /** What a committed action wrote: its ledger row, its match, and the match it opened. */
  ghost predicate Wrote(t: Tables, after: Tables, id: MatchId, actionId: nat, e: Entry, s: State, nextId: MatchId) {
    && id in t.matches && (id, actionId) !in t.ledger && after.ledger == t.ledger[(id, actionId) := e]
    && var row := t.matches[id];
       var begun := Row(s.players.zero, s.players.one, 0, NewState(s.players.zero, s.players.one, 1 - s.first));
       var advanced := row.(state := if Opens(s) then s.(nextMatch := Some(nextId)) else s, revision := row.revision + 1);
       && (Opens(s) ==> nextId !in t.matches)
       && after.matches == (if Opens(s) then t.matches[nextId := begun][id := advanced] else t.matches[id := advanced])
       && Fair(s) && s.players == row.state.players && s.first == row.state.first && s.nextMatch == row.state.nextMatch
       && (row.state.rematch.zero ==> s.rematch.zero) && (row.state.rematch.one ==> s.rematch.one)
  }

  lemma ActWrote(t: Tables, user: UserId, id: MatchId, a: Action, nextId: MatchId)
    requires Sound(t) && Act(t, user, id, a, nextId).1 != t
    ensures id in t.matches && Step(t.matches[id].state, PlayerOf(t.matches[id].state, user), a).Ok?
    ensures var s := Step(t.matches[id].state, PlayerOf(t.matches[id].state, user), a).value;
      Wrote(t, Act(t, user, id, a, nextId).1, id, a.actionId, Entry(user, a), s, nextId)
  {
    hide ViewOf, Step, Fair, Entries;
    assert MatchFits(t, id);
    var before := t.matches[id].state;
    var p := PlayerOf(before, user);
    StepKeepsFair(before, p, a);
    StepKeepsSeats(before, p, a);
  }

  lemma WrittenMatchFits(t: Tables, after: Tables, id: MatchId, actionId: nat, e: Entry, s: State, nextId: MatchId)
    requires Sound(t) && Wrote(t, after, id, actionId, e, s, nextId)
    ensures id in after.matches && MatchFits(after, id)
  {
    hide Fair, Entries;
    assert MatchFits(t, id);
    EntriesGrow(t, after, id, actionId, e, id);
    FairWithNext(s, nextId);
  }

  lemma FairWithNext(s: State, nextId: MatchId)
    requires Fair(s)
    ensures s.rematch.zero && s.rematch.one ==> Fair(s.(nextMatch := Some(nextId)))
  {
    hide ValidFleet, ShotsFit, Hits;
  }

  lemma OtherMatchFits(t: Tables, after: Tables, id: MatchId, actionId: nat, e: Entry, s: State, nextId: MatchId, other: MatchId)
    requires Sound(t) && Wrote(t, after, id, actionId, e, s, nextId) && other != id && other in after.matches
    ensures MatchFits(after, other)
  {
    hide Fair, Entries;
    assert MatchFits(t, id);
    EntriesGrow(t, after, id, actionId, e, other);
    if other in t.matches {
      assert MatchFits(t, other);
    } else {
      SeatsAreFair(s);
      NewMatchIsFair(s.players.zero, s.players.one, 1 - s.first);
      NoEntries(t, other);
    }
  }

  lemma NoEntries(t: Tables, id: MatchId)
    requires (forall k :: k in t.ledger ==> k.0 in t.matches) && id !in t.matches
    ensures |Entries(t, id)| == 0
  {
    assert Entries(t, id) == {};
  }

  lemma SeatsAreFair(s: State)
    requires Fair(s)
    ensures s.players.zero != s.players.one && (s.first == 0 || s.first == 1)
  {
    hide SideFits;
  }

  lemma NextStaysUnique(t: Tables, after: Tables, id: MatchId, actionId: nat, e: Entry, s: State, nextId: MatchId)
    requires Sound(t) && Wrote(t, after, id, actionId, e, s, nextId)
    ensures forall x, y :: x in after.matches && y in after.matches && x != y && after.matches[x].state.nextMatch.Some? ==>
                             after.matches[x].state.nextMatch != after.matches[y].state.nextMatch
  {
    hide Fair, Entries;
    forall x | x in t.matches && t.matches[x].state.nextMatch.Some? ensures t.matches[x].state.nextMatch.value in t.matches {
      assert MatchFits(t, x);
    }
    hide MatchFits;
  }

  lemma ActKeepsSound(t: Tables, user: UserId, id: MatchId, a: Action, nextId: MatchId)
    requires Sound(t)
    ensures Sound(Act(t, user, id, a, nextId).1)
  {
    hide Step, ViewOf, Act, Wrote, MatchFits;
    var after := Act(t, user, id, a, nextId).1;
    if after != t {
      ActWrote(t, user, id, a, nextId);
      var s := Step(t.matches[id].state, PlayerOf(t.matches[id].state, user), a).value;
      forall other | other in after.matches ensures MatchFits(after, other) {
        if other == id {
          WrittenMatchFits(t, after, id, a.actionId, Entry(user, a), s, nextId);
        } else {
          OtherMatchFits(t, after, id, a.actionId, Entry(user, a), s, nextId, other);
        }
      }
      NextStaysUnique(t, after, id, a.actionId, Entry(user, a), s, nextId);
      LedgerStaysKeyed(t, after, id, a.actionId, Entry(user, a), s, nextId);
    }
  }

  lemma LedgerStaysKeyed(t: Tables, after: Tables, id: MatchId, actionId: nat, e: Entry, s: State, nextId: MatchId)
    requires Sound(t) && Wrote(t, after, id, actionId, e, s, nextId)
    ensures forall k :: k in after.ledger ==> k.0 in after.matches
  {
    hide MatchFits, Fair;
  }

  /** Over any run: every stored match is a fair game of its two seats with one ledger row per
      revision, and each pair of rematch requests opened exactly one match of its own. */
  lemma {:induction false} RunKeepsSound(t: Tables, ops: seq<Op>)
    requires Sound(t) && forall i :: 0 <= i < |ops| ==> FairCoin(ops[i])
    ensures Sound(Run(t, ops))
  {
    hide Sound, Create, Act;
    if ops != [] {
      var before, last := Run(t, ops[..|ops| - 1]), ops[|ops| - 1];
      RunKeepsSound(t, ops[..|ops| - 1]);
      match last
      case CreateOp(user, id, opponent, first) =>
        assert FairCoin(last);
        CreateKeepsSound(before, user, id, opponent, first);
      case ActOp(actor, matchId, action, nextId) => ActKeepsSound(before, actor, matchId, action, nextId);
    }
  }

  // ------------------------------------------------------------------------ exactly once

  /** Stored matches keep their seats, and the ledger only grows. */
  ghost predicate Kept(t: Tables, after: Tables) {
    && (forall id :: id in t.matches ==>
          id in after.matches
          && after.matches[id].playerA == t.matches[id].playerA && after.matches[id].playerB == t.matches[id].playerB)
    && (forall k :: k in t.ledger ==> k in after.ledger && after.ledger[k] == t.ledger[k])
  }

  lemma OpKeeps(t: Tables, op: Op)
    ensures Kept(t, Exec(t, op))
  {
    hide Step, ViewOf, Get, NewState;
    match op
    case CreateOp(user, id, opponent, first) =>
    case ActOp(actor, id, action, nextId) =>
  }

  lemma {:induction false} RunKeeps(t: Tables, ops: seq<Op>)
    ensures Kept(t, Run(t, ops))
  {
    hide Exec;
    if ops != [] {
      RunKeeps(t, ops[..|ops| - 1]);
      OpKeeps(Run(t, ops[..|ops| - 1]), ops[|ops| - 1]);
    }
  }

  lemma GetSucceeds(t: Tables, user: UserId, id: MatchId)
    requires Sound(t) && id in t.matches && Seated(t.matches[id], user)
    ensures Get(t, user, id).Ok?
  {
    assert MatchFits(t, id);
    hide Fair, ViewOf, Entries;
  }

  /** However far the match has moved on, an action that was answered is answered again without
      any change, and its identifier with another meaning or actor is a conflict. */
  lemma ActionsAreExactlyOnce(t: Tables, user: UserId, id: MatchId, a: Action, nextId: MatchId, ops: seq<Op>,
                              again: Action, who: UserId, otherId: MatchId)
    requires Sound(t) && Act(t, user, id, a, nextId).0.Ok? && again.actionId == a.actionId && again.revision >= 0
    requires forall i :: 0 <= i < |ops| ==> FairCoin(ops[i])
    ensures var later := Run(Act(t, user, id, a, nextId).1, ops);
      var (reply, after) := Act(later, who, id, again, otherId);
      && after == later && id in later.matches
      && (if who == user && again == a then reply == Get(later, user, id) && reply.Ok?
          else reply == Err(if Seated(later.matches[id], who) then Conflict else NotFound))
  {
    hide Step, ViewOf, Sound;
    var once := Act(t, user, id, a, nextId).1;
    assert (id, a.actionId) in once.ledger && once.ledger[(id, a.actionId)] == Entry(user, a);
    assert id in once.matches && Seated(once.matches[id], user);
    ActKeepsSound(t, user, id, a, nextId);
    RunKeepsSound(once, ops);
    RunKeeps(once, ops);
    hide Run;
    GetSucceeds(Run(once, ops), user, id);
  }

  /** Creating again with the same identifier changes nothing, and conflicts exactly when the
      stored match seats other players, or these two the other way round. */
  lemma CreateIsIdempotent(t: Tables, user: UserId, id: MatchId, opponent: UserId, first: int)
    requires Sound(t) && id in t.matches && user != opponent && opponent in t.enabled && t.enabled[opponent]
    ensures var (reply, after) := Create(t, user, id, opponent, first);
      && after == t
      && (reply == Err(Conflict) <==> !(t.matches[id].playerA == user && t.matches[id].playerB == opponent))
      && (reply != Err(Conflict) ==> reply == Get(t, user, id) && reply.Ok?)
  {
    hide ViewOf;
    if t.matches[id].playerA == user && t.matches[id].playerB == opponent {
      GetSucceeds(t, user, id);
    }
    hide Sound;
  }
}
