/** Battleship on the squared grid: where ships may lie, what a shot hits, how a match moves from phase to
    phase, and what the service takes in and shows. */
module BattleshipLaws {
  import opened Common
  import opened Battleship
  import opened BattleshipProofs
  import opened BattleshipService

  // ----------------------------------------------------------------------- ships on the grid

  // Carrier, battleship, two cruisers, destroyer.
  function Length(id: int): nat {
    if id == 0 then 5 else if id == 1 then 4 else if id == 2 || id == 3 then 3 else if id == 4 then 2 else 0
  }

  /** The ship covers this square: it runs down from its first square if it is vertical, else to the right. */
  predicate LiesOn(s: Ship, row: int, column: int) {
    if s.vertical then column == s.cell % 10 && s.cell / 10 <= row < s.cell / 10 + Length(s.id)
    else row == s.cell / 10 && s.cell % 10 <= column < s.cell % 10 + Length(s.id)
  }

  predicate FitsOnGrid(s: Ship) {
    0 <= s.id < 5 && 0 <= s.cell < 100 && (if s.vertical then s.cell / 10 else s.cell % 10) + Length(s.id) <= 10
  }

  /** One ship of each length, all on the grid, no square covered twice. */
  ghost predicate GoodFleet(ships: seq<Ship>, complete: bool) {
    && |ships| <= 5 && (complete ==> |ships| == 5)
    && (forall k :: 0 <= k < |ships| ==> FitsOnGrid(ships[k]))
    && (forall j, k :: 0 <= j < k < |ships| ==> ships[j].id != ships[k].id)
    && (forall j, k, row, column :: 0 <= j < k < |ships| && LiesOn(ships[j], row, column) ==> !LiesOn(ships[k], row, column))
  }

  lemma SizeIsLength(s: Ship)
    ensures ShipSize(s) == Length(s.id)
  {
  }

  lemma OnGridFits(s: Ship)
    ensures OnGrid(s) <==> FitsOnGrid(s)
  {
    SizeIsLength(s);
    if OnGrid(s) {
      var last := ShipSize(s) - 1;
      assert CellAt(s, last) < GRID && (s.vertical || CellAt(s, last) / 10 == s.cell / 10);
    }
    hide ShipSize, Length;
  }

  lemma CellIsSquare(s: Ship, row: int, column: int)
    requires FitsOnGrid(s) && 0 <= row < 10 && 0 <= column < 10
    ensures LiesOn(s, row, column) <==> exists i :: 0 <= i < ShipSize(s) && CellAt(s, i) == 10 * row + column
  {
    SizeIsLength(s);
    hide ShipSize, Length;
    if LiesOn(s, row, column) {
      var i := if s.vertical then row - s.cell / 10 else column - s.cell % 10;
      assert CellAt(s, i) == 10 * row + column;
    }
  }

  lemma SquaresAreOnGrid(s: Ship, row: int, column: int)
    requires FitsOnGrid(s) && LiesOn(s, row, column)
    ensures 0 <= row < 10 && 0 <= column < 10
  {
    hide Length;
  }

  lemma CellsAreOnGrid(s: Ship, i: int)
    requires FitsOnGrid(s) && 0 <= i < ShipSize(s)
    ensures 0 <= CellAt(s, i) < 100
  {
    SizeIsLength(s);
    hide ShipSize, Length;
  }

  lemma ApartOnGrid(a: Ship, b: Ship)
    requires FitsOnGrid(a) && FitsOnGrid(b)
    ensures Apart(a, b) <==> a.id != b.id && forall row, column :: LiesOn(a, row, column) ==> !LiesOn(b, row, column)
  {
    hide LiesOn, FitsOnGrid, ShipSize, CellAt;
    if Apart(a, b) {
      forall row, column | LiesOn(a, row, column) ensures !LiesOn(b, row, column) {
        SquaresAreOnGrid(a, row, column);
        CellIsSquare(a, row, column);
        CellIsSquare(b, row, column);
      }
    }
    if forall row, column :: LiesOn(a, row, column) ==> !LiesOn(b, row, column) {
      forall i, j | 0 <= i < ShipSize(a) && 0 <= j < ShipSize(b) ensures CellAt(a, i) != CellAt(b, j) {
        CellsAreOnGrid(a, i);
        var row, column := CellAt(a, i) / 10, CellAt(a, i) % 10;
        CellIsSquare(a, row, column);
        CellIsSquare(b, row, column);
      }
    }
  }

  /** The fleets the rules accept are the good ones. */
  lemma FleetIsAcceptedIfGood(ships: seq<Ship>, complete: bool)
    ensures ValidFleet(ships, complete) <==> GoodFleet(ships, complete)
  {
    hide OnGrid, FitsOnGrid, Apart, LiesOn;
    forall k | 0 <= k < |ships| ensures OnGrid(ships[k]) <==> FitsOnGrid(ships[k]) {
      OnGridFits(ships[k]);
    }
    if forall k :: 0 <= k < |ships| ==> FitsOnGrid(ships[k]) {
      forall j, k | 0 <= j < k < |ships|
        ensures Apart(ships[j], ships[k]) <==>
          ships[j].id != ships[k].id && forall row, column :: LiesOn(ships[j], row, column) ==> !LiesOn(ships[k], row, column)
      {
        ApartOnGrid(ships[j], ships[k]);
      }
    }
  }

  ghost predicate Covered(ships: seq<Ship>, cell: int) {
    exists k :: 0 <= k < |ships| && LiesOn(ships[k], cell / 10, cell % 10)
  }

  lemma HitMeansCovered(ships: seq<Ship>, cell: int)
    requires 0 <= cell < 100 && forall k :: 0 <= k < |ships| ==> OnGrid(ships[k])
    ensures Occupies(ships, cell) <==> Covered(ships, cell)
  {
    hide ShipSize, CellAt, LiesOn, OnGrid, FitsOnGrid;
    forall k | 0 <= k < |ships|
      ensures LiesOn(ships[k], cell / 10, cell % 10) <==> exists i :: 0 <= i < ShipSize(ships[k]) && CellAt(ships[k], i) == cell
    {
      OnGridFits(ships[k]);
      CellIsSquare(ships[k], cell / 10, cell % 10);
    }
    if Covered(ships, cell) {
      var k :| 0 <= k < |ships| && LiesOn(ships[k], cell / 10, cell % 10);
      var i :| 0 <= i < ShipSize(ships[k]) && CellAt(ships[k], i) == cell;
    }
  }

  // ----------------------------------------------------------------------- what may be done

  /** What each player may do, and when: place a fleet until it is ready; shoot in turn, nowhere twice;
      call the match off before the battle; resign, offer or decline an end in battle; and ask once for
      another match when it is over. */
  ghost predicate May(s: State, p: int, a: Action) {
    var me := s.players.Of(p);
    && (p == 0 || p == 1) && (a.kind != Fire ==> a.cell == 0) && (a.kind != Save && a.kind != Ready ==> a.ships == [])
    && match a.kind
       case Save => s.phase == Placement && !s.ready.Of(p) && GoodFleet(a.ships, false)
       case Ready => s.phase == Placement && !s.ready.Of(p) && GoodFleet(a.ships, true)
       case Fire =>
         && s.phase == Battle && s.turn == p && 0 <= a.cell < 100
         && (forall i :: 0 <= i < |s.shots.Of(p)| ==> s.shots.Of(p)[i].cell != a.cell)
       case Cancel => s.phase == Placement
       case Resign => s.phase == Battle
       case OfferEnd => s.phase == Battle && s.endOffer != Some(me)
       case DeclineEnd => s.phase == Battle && s.endOffer != None
       case Rematch => (s.phase == Finished || s.phase == Cancelled) && !s.rematch.Of(p)
       case Unknown => false
  }

  /** What it does. In battle the last ship sunk wins for the shooter, resigning loses, and the match is
      called off when both have offered to end it. */
  ghost predicate Does(s: State, p: int, a: Action, t: State) {
    var me, other := s.players.Of(p), s.players.Of(1 - p);
    && t.players == s.players && t.first == s.first && t.nextMatch == s.nextMatch
    && t.ships.Of(1 - p) == s.ships.Of(1 - p) && t.ready.Of(1 - p) == s.ready.Of(1 - p) && t.shots.Of(1 - p) == s.shots.Of(1 - p)
    && t.rematch.Of(1 - p) == s.rematch.Of(1 - p)
    && (a.kind != Save && a.kind != Ready ==> t.ships == s.ships && t.ready == s.ready)
    && (a.kind != Fire ==> t.shots == s.shots && t.turn == s.turn) && (a.kind != Rematch ==> t.rematch == s.rematch)
    && match a.kind
       case Save => t.ships.Of(p) == a.ships && !t.ready.Of(p) && t.phase == Placement && t.winner == s.winner && t.endOffer == s.endOffer
       case Ready =>
         && t.ships.Of(p) == a.ships && t.ready.Of(p) && t.winner == s.winner && t.endOffer == s.endOffer
         && t.phase == if s.ready.Of(1 - p) then Battle else Placement
       case Fire =>
         && t.shots.Of(p) == s.shots.Of(p) + [Shot(a.cell, Covered(s.ships.Of(1 - p), a.cell))] && t.turn == 1 - p
         && (if Hits(t.shots.Of(p)) == 17 then t.phase == Finished && t.winner == Some(me) && t.endOffer == None
             else t.phase == Battle && t.winner == s.winner && t.endOffer == s.endOffer)
       case Cancel => t.phase == Cancelled && t.winner == s.winner && t.endOffer == s.endOffer
       case Resign => t.phase == Finished && t.winner == Some(other) && t.endOffer == None
       case OfferEnd =>
         t.winner == s.winner
         && if s.endOffer == Some(other) then t.phase == Cancelled && t.endOffer == None else t.phase == Battle && t.endOffer == Some(me)
       case DeclineEnd => t.phase == Battle && t.endOffer == None && t.winner == s.winner
       case Rematch => t.phase == s.phase && t.winner == s.winner && t.endOffer == s.endOffer && t.rematch.Of(p)
       case Unknown => false
  }

  /** In every fair match an action is accepted if and only if its player may take it, and does just that. */
  lemma AcceptedExactlyIfItMay(s: State, p: int, a: Action)
    requires Fair(s)
    ensures Step(s, p, a).Ok? <==> May(s, p, a)
    ensures Step(s, p, a).Ok? ==> Does(s, p, a, Step(s, p, a).value)
  {
    FleetIsAcceptedIfGood(a.ships, false);
    FleetIsAcceptedIfGood(a.ships, true);
    hide ValidFleet, GoodFleet, Occupies, Covered, AllSunk, Hits, ShotsFit;
    if a.kind == Fire && Step(s, p, a).Ok? {
      ShotDoes(s, p, a);
    } else if Step(s, p, a).Ok? {
      OthersDo(s, p, a);
    }
    hide AfterShot, Does, Fair;
  }

  lemma ShotDoes(s: State, p: int, a: Action)
    requires Fair(s) && a.kind == Fire && Step(s, p, a).Ok?
    ensures Does(s, p, a, Step(s, p, a).value)
  {
    hide ValidFleet, Occupies, AllSunk, Hits, ShotsFit, Fired;
    FiringWinsAtSeventeen(s, p, a.cell);
    FleetsAreOnGrid(s, 1 - p);
    HitMeansCovered(s.ships.Of(1 - p), a.cell);
    hide Covered, SideFits;
  }

  lemma FleetsAreOnGrid(s: State, p: int)
    requires Fair(s) && (p == 0 || p == 1)
    ensures forall k :: 0 <= k < |s.ships.Of(p)| ==> OnGrid(s.ships.Of(p)[k])
  {
    hide Apart, OnGrid, ShotsFit, Hits;
    assert SideFits(s, p);
  }

  lemma OthersDo(s: State, p: int, a: Action)
    requires Fair(s) && a.kind != Fire && Step(s, p, a).Ok?
    ensures Does(s, p, a, Step(s, p, a).value)
  {
    hide ValidFleet, ShotsFit, Hits;
  }

  // ------------------------------------------------------------------------ the service

  // The rules' answer to a user's action in the stored match.
  function Answered(t: Tables, user: UserId, id: MatchId, a: Action): Result<State, Error>
    requires id in t.matches
  {
    Step(t.matches[id].state, PlayerOf(t.matches[id].state, user), a)
  }

  /** A new action of one of a match's two players is taken in if and only if it names the revision the
      match has, which is the number of actions taken in before, and the rules allow it; a different
      revision is a conflict. (The identifier drawn for a next match is supposed to be free.) */
  lemma TakenInExactlyAtItsRevision(t: Tables, user: UserId, id: MatchId, a: Action, nextId: MatchId)
    requires Sound(t) && id in t.matches && (id, a.actionId) !in t.ledger && a.revision >= 0 && nextId !in t.matches
    requires user == t.matches[id].playerA || user == t.matches[id].playerB
    ensures var (reply, after) := Act(t, user, id, a, nextId);
      var taken := |Entries(t, id)|;
      && (reply.Ok? <==> a.revision == taken && Answered(t, user, id, a).Ok?) && (after != t <==> reply.Ok?)
      && (a.revision != taken ==> reply == Err(Conflict))
      && (reply.Ok? ==> |Entries(after, id)| == taken + 1 && after.ledger[(id, a.actionId)] == Entry(user, a))
  {
    hide Step, ViewOf, Fair, Entries, Wrote;
    assert MatchFits(t, id);
    var after := Act(t, user, id, a, nextId).1;
    if a.revision == |Entries(t, id)| && Answered(t, user, id, a).Ok? {
      assert (id, a.actionId) in after.ledger;
      EntriesGrow(t, after, id, a.actionId, Entry(user, a), id);
      ActKeepsSound(t, user, id, a, nextId);
      hide Sound, MatchFits;
      GetSucceeds(after, user, id);
    }
  }

  /** The operation takes an action into the match's ledger. */
  ghost predicate TakesIn(t: Tables, op: Op, id: MatchId) {
    op.ActOp? && op.matchId == id && (id, op.action.actionId) !in t.ledger && (id, op.action.actionId) in Exec(t, op).ledger
  }

  lemma TakenInAt(t: Tables, op: Op, id: MatchId)
    requires Sound(t) && TakesIn(t, op, id)
    ensures op.action.revision == |Entries(t, id)| && |Entries(Exec(t, op), id)| == |Entries(t, id)| + 1
  {
    hide Step, ViewOf, Fair, Entries;
    assert id in t.matches && MatchFits(t, id);
    EntriesGrow(t, Exec(t, op), id, op.action.actionId, Entry(op.actor, op.action), id);
  }

  lemma EntriesStay(t: Tables, after: Tables, id: MatchId)
    requires Kept(t, after)
    ensures |Entries(t, id)| <= |Entries(after, id)|
  {
    assert Entries(t, id) <= Entries(after, id);
    SmallerSubset(Entries(t, id), Entries(after, id));
  }

  lemma SmallerSubset(a: set<(MatchId, nat)>, b: set<(MatchId, nat)>)
    requires a <= b
    ensures |a| <= |b|
  {
    assert b == a + (b - a);
  }

  lemma {:induction false} RunSplits(t: Tables, ops: seq<Op>, n: nat)
    requires n <= |ops|
    ensures Run(t, ops) == Run(Run(t, ops[..n]), ops[n..])
  {
    hide Exec;
    if n == |ops| {
      assert ops[..n] == ops;
    } else {
      var front := ops[..|ops| - 1];
      RunSplits(t, front, n);
      assert front[..n] == ops[..n] && ops[n..][..|ops| - n - 1] == front[n..];
    }
  }

  /** Over every run, of two actions taken into one match the later one names the greater revision: no two
      ever share one. */
  lemma RevisionsDiffer(t: Tables, ops: seq<Op>, i: nat, j: nat, id: MatchId)
    requires Sound(t) && forall k :: 0 <= k < |ops| ==> FairCoin(ops[k])
    requires i < j < |ops| && TakesIn(Run(t, ops[..i]), ops[i], id) && TakesIn(Run(t, ops[..j]), ops[j], id)
    ensures ops[i].action.revision < ops[j].action.revision
  {
    hide Sound, Exec, Run, Kept, Entries, FairCoin;
    var here, there := Run(t, ops[..i]), Run(t, ops[..j]);
    RunKeepsSound(t, ops[..i]);
    RunKeepsSound(t, ops[..j]);
    TakenInAt(here, ops[i], id);
    TakenInAt(there, ops[j], id);
    RunSplits(t, ops[..j], i + 1);
    assert ops[..j][..i + 1] == ops[..i + 1] && ops[..i + 1][..i] == ops[..i] && ops[..i + 1] == ops[..i] + [ops[i]];
    RunOneMore(t, ops[..i], ops[i]);
    RunKeeps(Exec(here, ops[i]), ops[..j][i + 1..]);
    EntriesStay(Exec(here, ops[i]), there, id);
  }

  lemma RunOneMore(t: Tables, ops: seq<Op>, op: Op)
    ensures Run(t, ops + [op]) == Exec(Run(t, ops), op)
  {
    hide Exec;
    assert (ops + [op])[..|ops|] == ops;
  }

  /** A match is shown to its two players only, to each from the own seat: the own fleet, both players'
      shots from the right side, and of the enemy's fleet only ships all hit, until it is over. */
  lemma AnswersShowTheOwnSeat(t: Tables, user: UserId, id: MatchId)
    requires Sound(t)
    ensures Get(t, user, id).Ok? <==> id in t.matches && (t.matches[id].playerA == user || t.matches[id].playerB == user)
    ensures Get(t, user, id).Ok? ==>
      var s, answer := t.matches[id].state, Get(t, user, id).value;
      var p := if t.matches[id].playerA == user then 0 else 1;
      && answer.id == id && answer.revision == |Entries(t, id)|
      && answer.view.ownShips == s.ships.Of(p) && answer.view.shots == s.shots.Of(p) && answer.view.incoming == s.shots.Of(1 - p)
      && answer.view.opponent == (if p == 0 then t.matches[id].playerB else t.matches[id].playerA)
      && (answer.view.yourTurn <==> s.phase == Battle && s.turn == p)
      && (s.phase != Finished && s.phase != Cancelled ==>
            forall ship :: ship in answer.view.enemyShips ==> ship in s.ships.Of(1 - p) && Sunk(ship, s.shots.Of(p)))
  {
    hide Fair, Entries, Sunk, Visible;
    if id in t.matches {
      assert MatchFits(t, id);
      SeatsAreFair(t.matches[id].state);
      ShownAreSunk(t.matches[id].state, if t.matches[id].playerA == user then 0 else 1);
    }
  }

  lemma ShownAreSunk(s: State, p: int)
    ensures s.phase != Finished && s.phase != Cancelled ==>
      forall ship :: ship in ViewOf(s, p).enemyShips ==> ship in s.ships.Of(1 - p) && Sunk(ship, s.shots.Of(p))
  {
    hide Sunk, Visible;
    forall ship | ship in ViewOf(s, p).enemyShips ensures ship in s.ships.Of(1 - p) && (Over(s.phase) || Sunk(ship, s.shots.Of(p))) {
      VisibleSpec(s.ships.Of(1 - p), s.shots.Of(p), Over(s.phase), ship);
    }
  }

  /** A match is created, or found again, if and only if the opponent is another, enabled user and the
      identifier is free or already these two players' match in this order. A new one begins in placement,
      with nothing placed, by the player the coin chose; a wrong opponent is invalid, a taken identifier a
      conflict. */
  lemma CreatedExactlyForAnEnabledOpponent(t: Tables, user: UserId, id: MatchId, opponent: UserId, first: int)
    requires Sound(t) && (first == 0 || first == 1)
    ensures var (reply, after) := Create(t, user, id, opponent, first);
      var proper := user != opponent && opponent in t.enabled && t.enabled[opponent];
      var taken := id in t.matches && !(t.matches[id].playerA == user && t.matches[id].playerB == opponent);
      && (reply.Ok? <==> proper && !taken) && (reply == Err(Invalid) <==> !proper) && (reply == Err(Conflict) <==> proper && taken)
      && (if proper && id !in t.matches then
            after == t.(matches := t.matches[id := Row(user, opponent, 0,
              State(Two(user, opponent), Two([], []), Two(false, false), Two([], []), Placement, first, first, None, None, Two(false, false), None))])
          else after == t)
  {
    hide Fair, ViewOf, Sound;
    var after := Create(t, user, id, opponent, first).1;
    CreateKeepsSound(t, user, id, opponent, first);
    if id in after.matches && Seated(after.matches[id], user) {
      GetSucceeds(after, user, id);
    }
  }
}
