/** Battleship: a ready fleet covers seventeen cells and is frozen, recorded hits match it, the
    turn follows the shot counts, the seventeenth hit wins, no game takes more than 199 shots,
    and a view tells nothing about ships still afloat. */
module BattleshipProofs {
  import opened Common
  import opened Battleship

  // --------------------------------------------------------------- the cells of a fleet

  ghost function ShipCells(s: Ship, n: nat): set<int> {
    set i | 0 <= i < n :: CellAt(s, i)
  }

  ghost function FleetCells(ships: seq<Ship>): set<int> {
    if ships == [] then {}
    else FleetCells(ships[..|ships| - 1]) + ShipCells(ships[|ships| - 1], ShipSize(ships[|ships| - 1]))
  }

  function Total(ships: seq<Ship>): nat {
    if ships == [] then 0 else Total(ships[..|ships| - 1]) + ShipSize(ships[|ships| - 1])
  }

  lemma {:induction false} ShipCellCount(s: Ship, n: nat)
    ensures |ShipCells(s, n)| == n
  {
    if n > 0 {
      ShipCellCount(s, n - 1);
      assert ShipCells(s, n) == ShipCells(s, n - 1) + {CellAt(s, n - 1)};
      assert CellAt(s, n - 1) !in ShipCells(s, n - 1);
    } else {
      assert ShipCells(s, 0) == {};
    }
  }

  lemma {:induction false} FleetCellsSpec(ships: seq<Ship>, c: int)
    ensures c in FleetCells(ships) <==> Occupies(ships, c)
  {
    hide ShipSize, CellAt;
    if ships != [] {
      var k := |ships| - 1;
      FleetCellsSpec(ships[..k], c);
      OneMoreShip(ships, k, c);
      assert ships[..k + 1] == ships;
    }
  }

  lemma {:induction false} FleetCellCount(ships: seq<Ship>)
    requires forall j, k :: 0 <= j < k < |ships| ==> Apart(ships[j], ships[k])
    ensures |FleetCells(ships)| == Total(ships)
  {
    hide ShipSize, CellAt;
    if ships != [] {
      var front, last := ships[..|ships| - 1], ships[|ships| - 1];
      FleetCellCount(front);
      ShipCellCount(last, ShipSize(last));
      forall c | c in ShipCells(last, ShipSize(last)) ensures c !in FleetCells(front) {
        FleetCellsSpec(front, c);
      }
      assert |FleetCells(front) + ShipCells(last, ShipSize(last))| == |FleetCells(front)| + |ShipCells(last, ShipSize(last))|;
    }
  }

  lemma FiveSizes(ships: seq<Ship>)
    requires |ships| == 5 && forall k :: 0 <= k < 5 ==> 0 <= ships[k].id < 5
    requires forall j, k :: 0 <= j < k < 5 ==> ships[j].id != ships[k].id
    ensures ShipSize(ships[0]) + ShipSize(ships[1]) + ShipSize(ships[2]) + ShipSize(ships[3]) + ShipSize(ships[4]) == 17
  {
    assert ships[0].id != ships[1].id && ships[0].id != ships[2].id && ships[0].id != ships[3].id && ships[0].id != ships[4].id;
    assert ships[1].id != ships[2].id && ships[1].id != ships[3].id && ships[1].id != ships[4].id;
    assert ships[2].id != ships[3].id && ships[2].id != ships[4].id && ships[3].id != ships[4].id;
  }

  /** A complete fleet covers exactly seventeen distinct cells, all on the grid. */
  lemma FleetCoversSeventeen(ships: seq<Ship>)
    requires ValidFleet(ships, true)
    ensures |FleetCells(ships)| == 17 && forall c :: c in FleetCells(ships) ==> 0 <= c < GRID
  {
    FleetCellCount(ships);
    forall j, k | 0 <= j < k < 5 ensures ships[j].id != ships[k].id {
      assert Apart(ships[j], ships[k]);
    }
    assert forall k :: 0 <= k < 5 ==> OnGrid(ships[k]);
    FiveSizes(ships);
    hide ShipSize;
    assert ships[..4][..3] == ships[..3] && ships[..3][..2] == ships[..2] && ships[..2][..1] == ships[..1] && ships[..1][..0] == [];
    assert Total(ships[..1]) == ShipSize(ships[0]);
    assert Total(ships[..2]) == Total(ships[..1]) + ShipSize(ships[1]);
    assert Total(ships[..3]) == Total(ships[..2]) + ShipSize(ships[2]);
    assert Total(ships[..4]) == Total(ships[..3]) + ShipSize(ships[3]);
    forall c | c in FleetCells(ships) ensures 0 <= c < GRID {
      FleetCellsSpec(ships, c);
      CellsAreOnGrid(ships, c);
    }
  }

  lemma CellsAreOnGrid(ships: seq<Ship>, c: int)
    requires Occupies(ships, c) && forall k :: 0 <= k < |ships| ==> OnGrid(ships[k])
    ensures 0 <= c < GRID
  {
    hide ShipSize;
    var k, i :| 0 <= k < |ships| && 0 <= i < ShipSize(ships[k]) && CellAt(ships[k], i) == c;
    assert OnGrid(ships[k]);
  }

  // ------------------------------------------------------------------------------- shots

  ghost function HitCells(shots: seq<Shot>): set<int> {
    if shots == [] then {}
    else HitCells(shots[..|shots| - 1]) + if shots[|shots| - 1].hit then {shots[|shots| - 1].cell} else {}
  }

  function Hits(shots: seq<Shot>): nat {
    if shots == [] then 0 else Hits(shots[..|shots| - 1]) + if shots[|shots| - 1].hit then 1 else 0
  }

  /** Distinct cells of the grid, each recorded as a hit exactly when a ship lies there. */
  ghost predicate ShotsFit(shots: seq<Shot>, enemy: seq<Ship>) {
    && (forall i :: 0 <= i < |shots| ==> 0 <= shots[i].cell < GRID && shots[i].hit == Occupies(enemy, shots[i].cell))
    && (forall i, j :: 0 <= i < j < |shots| ==> shots[i].cell != shots[j].cell)
  }

  lemma {:induction false} HitCellsSpec(shots: seq<Shot>, c: int)
    ensures c in HitCells(shots) <==> HitAt(shots, c)
  {
    if shots != [] {
      HitCellsSpec(shots[..|shots| - 1], c);
      assert shots == shots[..|shots| - 1] + [shots[|shots| - 1]];
    }
  }

  lemma {:induction false} HitCount(shots: seq<Shot>)
    requires forall i, j :: 0 <= i < j < |shots| ==> shots[i].cell != shots[j].cell
    ensures |HitCells(shots)| == Hits(shots)
  {
    if shots != [] {
      var front, last := shots[..|shots| - 1], shots[|shots| - 1];
      HitCount(front);
      HitCellsSpec(front, last.cell);
    }
  }

  lemma SunkWhenCovered(ships: seq<Ship>, shots: seq<Shot>)
    ensures AllSunk(ships, shots) <==> FleetCells(ships) <= HitCells(shots)
  {
    hide ShipSize, CellAt;
    if AllSunk(ships, shots) {
      forall c | c in FleetCells(ships) ensures c in HitCells(shots) {
        FleetCellsSpec(ships, c);
        var k, i :| 0 <= k < |ships| && 0 <= i < ShipSize(ships[k]) && CellAt(ships[k], i) == c;
        assert Sunk(ships[k], shots);
        HitCellsSpec(shots, c);
      }
    }
    if FleetCells(ships) <= HitCells(shots) {
      forall k, i | 0 <= k < |ships| && 0 <= i < ShipSize(ships[k]) ensures HitAt(shots, CellAt(ships[k], i)) {
        FleetCellsSpec(ships, CellAt(ships[k], i));
        HitCellsSpec(shots, CellAt(ships[k], i));
        assert Occupies(ships, CellAt(ships[k], i));
      }
    }
  }

  lemma SameSize(a: set<int>, b: set<int>)
    requires a <= b && |a| == |b|
    ensures a == b
  {
    assert |b - a| == |b| - |a|;
    assert b == a + (b - a);
  }

  /** Against a ready fleet, everything is sunk exactly at seventeen hits, and never more. */
  lemma SunkAtSeventeen(ships: seq<Ship>, shots: seq<Shot>)
    requires ValidFleet(ships, true) && ShotsFit(shots, ships)
    ensures AllSunk(ships, shots) <==> Hits(shots) == 17
    ensures Hits(shots) <= 17
  {
    hide ValidFleet, AllSunk;
    FleetCoversSeventeen(ships);
    HitCount(shots);
    SunkWhenCovered(ships, shots);
    forall c | c in HitCells(shots) ensures c in FleetCells(ships) {
      HitCellsSpec(shots, c);
      var i :| 0 <= i < |shots| && shots[i] == Shot(c, true);
      FleetCellsSpec(ships, c);
    }
    Subset(HitCells(shots), FleetCells(ships));
    if Hits(shots) == 17 {
      SameSize(HitCells(shots), FleetCells(ships));
    }
    if FleetCells(ships) <= HitCells(shots) {
      Subset(FleetCells(ships), HitCells(shots));
    }
  }

  lemma Subset(a: set<int>, b: set<int>)
    requires a <= b
    ensures |a| <= |b|
  {
    assert |b - a| == |b| - |a|;
  }

  ghost function ShotCells(shots: seq<Shot>): set<int> {
    if shots == [] then {} else ShotCells(shots[..|shots| - 1]) + {shots[|shots| - 1].cell}
  }

  lemma {:induction false} ShotCellCount(shots: seq<Shot>)
    requires forall i, j :: 0 <= i < j < |shots| ==> shots[i].cell != shots[j].cell
    ensures |ShotCells(shots)| == |shots|
    ensures forall c :: c in ShotCells(shots) <==> Fired(shots, c)
  {
    if shots != [] {
      var front, last := shots[..|shots| - 1], shots[|shots| - 1];
      ShotCellCount(front);
      LastIsNew(shots);
      assert last.cell !in ShotCells(front);
      forall c ensures c in ShotCells(shots) <==> Fired(shots, c) {
        FiredGrows(front, last, c);
        assert shots == front + [last];
      }
    }
  }

  lemma LastIsNew(shots: seq<Shot>)
    requires shots != [] && forall i, j :: 0 <= i < j < |shots| ==> shots[i].cell != shots[j].cell
    ensures !Fired(shots[..|shots| - 1], shots[|shots| - 1].cell)
  {
  }

  lemma FiredGrows(front: seq<Shot>, last: Shot, c: int)
    ensures Fired(front + [last], c) <==> Fired(front, c) || last.cell == c
  {
    if i :| 0 <= i < |front| && front[i].cell == c {
      assert (front + [last])[i].cell == c;
    }
    if last.cell == c {
      assert (front + [last])[|front|].cell == c;
    }
  }

  ghost function Range(n: nat): (r: set<int>)
    ensures |r| == n && forall c :: c in r <==> 0 <= c < n
  {
    if n == 0 then {} else Range(n - 1) + {n - 1}
  }

  /** At most `n` distinct cells fit below `n`, and `n` of them leave none out. */
  lemma ShotsFillTheGrid(shots: seq<Shot>, n: nat)
    requires forall i :: 0 <= i < |shots| ==> 0 <= shots[i].cell < n
    requires forall i, j :: 0 <= i < j < |shots| ==> shots[i].cell != shots[j].cell
    ensures |shots| <= n
    ensures |shots| == n ==> forall c :: 0 <= c < n ==> Fired(shots, c)
  {
    hide Range, ShotCells;
    ShotCellCount(shots);
    forall c | c in ShotCells(shots) ensures c in Range(n) {
      var i :| 0 <= i < |shots| && shots[i].cell == c;
    }
    Subset(ShotCells(shots), Range(n));
    if |shots| == n {
      SameSize(ShotCells(shots), Range(n));
    }
  }

  /** No more than a hundred shots fit on the grid, and a hundred of them sink the fleet. */
  lemma HundredShots(ships: seq<Ship>, shots: seq<Shot>)
    requires ShotsFit(shots, ships)
    ensures |shots| <= GRID
    ensures |shots| == GRID && ValidFleet(ships, true) ==> Hits(shots) == 17
  {
    hide ValidFleet, Occupies, FleetCells, HitCells, Hits;
    ShotsFillTheGrid(shots, GRID);
    if |shots| == GRID && ValidFleet(ships, true) {
      FleetCoversSeventeen(ships);
      forall c | c in FleetCells(ships) ensures c in HitCells(shots) {
        FleetCellsSpec(ships, c);
        assert Fired(shots, c);
        var i :| 0 <= i < |shots| && shots[i].cell == c;
        assert shots[i] == Shot(c, true);
        HitCellsSpec(shots, c);
      }
      SunkWhenCovered(ships, shots);
      SunkAtSeventeen(ships, shots);
    }
  }

  // ----------------------------------------------------------------- what every match keeps

  ghost predicate SideFits(s: State, p: int) {
    && ValidFleet(s.ships.Of(p), s.ready.Of(p)) && ShotsFit(s.shots.Of(p), s.ships.Of(1 - p))
    && (Hits(s.shots.Of(p)) >= 17 ==> s.phase == Finished && s.winner == Some(s.players.Of(p)))
    && (s.endOffer == Some(s.players.Of(p)) ==> s.phase == Battle)
    && (s.rematch.Of(p) ==> Over(s.phase))
  }

  ghost predicate Fair(s: State) {
    && s.players.zero != s.players.one && (s.first == 0 || s.first == 1) && (s.turn == 0 || s.turn == 1)
    && SideFits(s, 0) && SideFits(s, 1)
    && (if s.ready.zero && s.ready.one then s.phase != Placement
        else (s.phase == Placement || s.phase == Cancelled) && s.shots == Two([], []))
    && |s.shots.Of(s.first)| == |s.shots.Of(1 - s.first)| + (if s.turn == s.first then 0 else 1)
    && (s.winner.Some? <==> s.phase == Finished)
    && (s.winner.Some? ==> s.winner == Some(s.players.zero) || s.winner == Some(s.players.one))
    && (s.endOffer.Some? ==> s.endOffer == Some(s.players.zero) || s.endOffer == Some(s.players.one))
    && (s.nextMatch.Some? ==> s.rematch.zero && s.rematch.one)
  }

  lemma NewMatchIsFair(a: UserId, b: UserId, first: int)
    requires a != b && (first == 0 || first == 1)
    ensures Fair(NewState(a, b, first))
  {
  }

  lemma PlacingKeepsFair(s: State, p: int, ships: seq<Ship>, complete: bool)
    requires Fair(s) && (p == 0 || p == 1) && s.phase == Placement && !s.ready.Of(p) && ValidFleet(ships, complete)
    ensures Fair(Placed(s, p, ships, complete))
  {
    hide ValidFleet, Occupies;
  }

  lemma ShotKeepsFit(shots: seq<Shot>, enemy: seq<Ship>, cell: int)
    requires ShotsFit(shots, enemy) && 0 <= cell < GRID && !Fired(shots, cell)
    ensures var shot := Shot(cell, Occupies(enemy, cell));
      ShotsFit(shots + [shot], enemy) && Hits(shots + [shot]) == Hits(shots) + if shot.hit then 1 else 0
  {
    hide Occupies;
    var shot := Shot(cell, Occupies(enemy, cell));
    assert (shots + [shot])[..|shots|] == shots;
    forall i | 0 <= i < |shots| ensures shots[i].cell != cell {
    }
  }

  /** Firing keeps the match fair, and wins exactly with the seventeenth hit. */
  lemma FiringWinsAtSeventeen(s: State, p: int, cell: int)
    requires Fair(s) && (p == 0 || p == 1) && s.phase == Battle && s.turn == p && 0 <= cell < GRID && !Fired(s.shots.Of(p), cell)
    ensures var t := AfterShot(s, p, cell);
      && Fair(t) && (t.phase == Finished <==> Hits(t.shots.Of(p)) == 17)
      && (t.phase == Finished ==> t.winner == Some(s.players.Of(p)))
  {
    hide ValidFleet, Occupies, AllSunk, Hits, ShotsFit, Fired;
    ShotKeepsFit(s.shots.Of(p), s.ships.Of(1 - p), cell);
    var t := AfterShot(s, p, cell);
    assert t.shots.Of(1 - p) == s.shots.Of(1 - p) && t.ships == s.ships && t.ready == s.ready && t.players == s.players;
    assert s.ready.zero && s.ready.one;
    SunkAtSeventeen(s.ships.Of(1 - p), t.shots.Of(p));
    assert SideFits(t, p);
    assert SideFits(t, 1 - p);
    hide SideFits;
  }

  /** Every accepted action keeps a match fair. */
  lemma StepKeepsFair(s: State, p: int, a: Action)
    requires Fair(s) && Step(s, p, a).Ok?
    ensures Fair(Step(s, p, a).value)
  {
    hide ValidFleet, Fired, ShotsFit, Hits;
    match a.kind
    case Save => PlacingKeepsFair(s, p, a.ships, false); hide Fair;
    case Ready => PlacingKeepsFair(s, p, a.ships, true); hide Fair;
    case Fire => FiringWinsAtSeventeen(s, p, a.cell); hide Fair, AfterShot;
    case _ =>
  }

  /** Once ready, a fleet never changes. */
  lemma ReadyFleetIsFrozen(s: State, p: int, a: Action, q: int)
    requires Step(s, p, a).Ok? && (q == 0 || q == 1) && s.ready.Of(q)
    ensures var t := Step(s, p, a).value; t.ready.Of(q) && t.ships.Of(q) == s.ships.Of(q)
  {
    hide ValidFleet, Fired, AllSunk, Occupies;
  }

  /** In every match: the player to shoot first is to shoot exactly when both have fired equally
      often; both ready fleets cover seventeen cells; and at most 199 shots are ever fired. */
  lemma FairMatches(s: State)
    requires Fair(s)
    ensures s.turn == s.first <==> |s.shots.zero| == |s.shots.one|
    ensures forall p :: (p == 0 || p == 1) && s.ready.Of(p) ==> |FleetCells(s.ships.Of(p))| == 17
    ensures |s.shots.zero| + |s.shots.one| <= 199
  {
    hide ValidFleet, ShotsFit, Hits;
    forall p | (p == 0 || p == 1) && s.ready.Of(p) ensures |FleetCells(s.ships.Of(p))| == 17 {
      FleetCoversSeventeen(s.ships.Of(p));
    }
    HundredShots(s.ships.one, s.shots.zero);
    HundredShots(s.ships.zero, s.shots.one);
  }

  // ------------------------------------------------------------------------------ views

  lemma {:induction false} VisibleSpec(ships: seq<Ship>, shots: seq<Shot>, over: bool, ship: Ship)
    ensures ship in Visible(ships, shots, over) <==> ship in ships && (over || Sunk(ship, shots))
  {
    hide Sunk;
    if ships != [] {
      VisibleSpec(ships[..|ships| - 1], shots, over, ship);
      assert ships == ships[..|ships| - 1] + [ships[|ships| - 1]];
    }
  }

  /** In battle a view lists exactly the enemy ships whose every cell the viewer has hit. */
  lemma BattleViewShowsTheSunk(s: State, p: int, ship: Ship)
    requires s.phase == Battle
    ensures ship in ViewOf(s, p).enemyShips <==>
      ship in s.ships.Of(1 - p) && forall i :: 0 <= i < ShipSize(ship) ==> HitAt(s.shots.Of(p), CellAt(ship, i))
  {
    VisibleSpec(s.ships.Of(1 - p), s.shots.Of(p), false, ship);
    hide Visible;
  }

  lemma {:induction false} NothingSunkNothingShown(ships: seq<Ship>, shots: seq<Shot>)
    requires forall k :: 0 <= k < |ships| ==> !Sunk(ships[k], shots)
    ensures Visible(ships, shots, false) == []
  {
    hide Sunk;
    if ships != [] {
      NothingSunkNothingShown(ships[..|ships| - 1], shots);
    }
  }

  /** The same fleet up to ships that are afloat in both. */
  predicate AlikeButAfloat(here: seq<Ship>, there: seq<Ship>, shots: seq<Shot>) {
    |here| == |there| && forall k :: 0 <= k < |here| ==> here[k] == there[k] || (!Sunk(here[k], shots) && !Sunk(there[k], shots))
  }

  lemma {:induction false} SunkShipsDecide(here: seq<Ship>, there: seq<Ship>, shots: seq<Shot>)
    requires AlikeButAfloat(here, there, shots)
    ensures Visible(here, shots, false) == Visible(there, shots, false)
  {
    hide Sunk;
    if here != [] {
      SunkShipsDecide(here[..|here| - 1], there[..|there| - 1], shots);
    }
  }

  /** Until the match is over, exchanging any of the enemy's unsunk ships, wherever they are listed,
      for other unsunk ones changes nothing the viewer sees. */
  lemma ShipsAfloatAreHidden(s: State, p: int, there: seq<Ship>)
    requires (p == 0 || p == 1) && !Over(s.phase) && AlikeButAfloat(s.ships.Of(1 - p), there, s.shots.Of(p))
    ensures ViewOf(s.(ships := s.ships.With(1 - p, there)), p) == ViewOf(s, p)
  {
    SunkShipsDecide(s.ships.Of(1 - p), there, s.shots.Of(p));
    hide Sunk, Visible;
  }

  /** Before battle no enemy ship is visible at all. */
  lemma PlacementHidesEverything(s: State, p: int)
    requires Fair(s) && (p == 0 || p == 1) && s.phase == Placement
    ensures ViewOf(s, p).enemyShips == []
  {
    var ships := s.ships.Of(1 - p);
    forall k | 0 <= k < |ships| ensures !Sunk(ships[k], s.shots.Of(p)) {
      assert OnGrid(ships[k]);
      assert !HitAt(s.shots.Of(p), CellAt(ships[k], 0));
    }
    NothingSunkNothingShown(ships, s.shots.Of(p));
  }
}
