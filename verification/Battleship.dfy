/** Asynchronous battleship: fleets, shots and private views
    (server/internal/battleship/rules.go). */
module Battleship {
  import opened Common

  const LENGTHS: seq<int> := [5, 4, 3, 3, 2]
  const GRID := 100

  datatype Ship = Ship(cell: int, id: int, vertical: bool)

  datatype Shot = Shot(cell: int, hit: bool)

  // The model of a Go array of two, indexed by player number.
  datatype Two<T> = Two(zero: T, one: T) {
    function Of(p: int): T {
      if p == 0 then zero else one
    }

    function With(p: int, v: T): Two<T> {
      if p == 0 then this.(zero := v) else this.(one := v)
    }
  }

  type MatchId = nat

  datatype Phase = Placement | Battle | Finished | Cancelled

  datatype State = State(
    players: Two<UserId>,
    ships: Two<seq<Ship>>,
    ready: Two<bool>,
    shots: Two<seq<Shot>>,
    phase: Phase,
    first: int,
    turn: int,
    winner: Option<UserId>,
    endOffer: Option<UserId>,
    rematch: Two<bool>,
    nextMatch: Option<MatchId>)

  datatype Kind = Save | Ready | Fire | Cancel | Resign | OfferEnd | DeclineEnd | Rematch | Unknown

  datatype Action = Action(actionId: nat, revision: int, kind: Kind, ships: seq<Ship>, cell: int)

  datatype Error = Invalid | Conflict | NotFound | Failed

  // ------------------------------------------------------------------------------ fleets

  function ShipSize(s: Ship): nat {
    if 0 <= s.id < 5 then LENGTHS[s.id] else 0
  }

  function CellAt(s: Ship, i: int): int {
    s.cell + i * (if s.vertical then 10 else 1)
  }

  function Cells(s: Ship): (r: seq<int>)
    ensures |r| == ShipSize(s)
  {
    seq(ShipSize(s), i => CellAt(s, i))
  }

  predicate OnGrid(s: Ship) {
    && 0 <= s.id < 5 && 0 <= s.cell < GRID
    && forall i :: 0 <= i < ShipSize(s) ==> CellAt(s, i) < GRID && (s.vertical || CellAt(s, i) / 10 == s.cell / 10)
  }

  predicate CellFits(s: Ship, i: int, taken: set<int>) {
    CellAt(s, i) < GRID && (s.vertical || CellAt(s, i) / 10 == s.cell / 10) && CellAt(s, i) !in taken
  }

  /** No two ships share an identity or a cell. */
  predicate Apart(a: Ship, b: Ship) {
    a.id != b.id && forall i, j :: 0 <= i < ShipSize(a) && 0 <= j < ShipSize(b) ==> CellAt(a, i) != CellAt(b, j)
  }

  predicate ValidFleet(ships: seq<Ship>, complete: bool) {
    && |ships| <= 5 && (complete ==> |ships| == 5)
    && (forall k :: 0 <= k < |ships| ==> OnGrid(ships[k]))
    && (forall j, k :: 0 <= j < k < |ships| ==> Apart(ships[j], ships[k]))
  }

  predicate Occupies(ships: seq<Ship>, cell: int) {
    exists k, i :: 0 <= k < |ships| && 0 <= i < ShipSize(ships[k]) && CellAt(ships[k], i) == cell
  }

  predicate HitAt(shots: seq<Shot>, cell: int) {
    Shot(cell, true) in shots
  }

  predicate Sunk(ship: Ship, shots: seq<Shot>) {
    forall i :: 0 <= i < ShipSize(ship) ==> HitAt(shots, CellAt(ship, i))
  }

  predicate AllSunk(ships: seq<Ship>, shots: seq<Shot>) {
    forall k :: 0 <= k < |ships| ==> Sunk(ships[k], shots)
  }

  // ------------------------------------------------------------------------------- steps

  function NewState(a: UserId, b: UserId, first: int): State {
    State(Two(a, b), Two([], []), Two(false, false), Two([], []), Placement, first, first, None, None, Two(false, false), None)
  }

  predicate Unmixed(a: Action) {
    (a.kind != Fire ==> a.cell == 0) && (a.kind != Save && a.kind != Ready ==> a.ships == [])
  }

  predicate Fired(shots: seq<Shot>, cell: int) {
    exists i :: 0 <= i < |shots| && shots[i].cell == cell
  }

  function Placed(s: State, p: int, ships: seq<Ship>, ready: bool): State {
    var t := s.(ships := s.ships.With(p, ships), ready := s.ready.With(p, ready));
    if t.ready.zero && t.ready.one then t.(phase := Battle) else t
  }

  function AfterShot(s: State, p: int, cell: int): State {
    var enemy := s.ships.Of(1 - p);
    var shots := s.shots.Of(p) + [Shot(cell, Occupies(enemy, cell))];
    var t := s.(shots := s.shots.With(p, shots), turn := 1 - p);
    if AllSunk(enemy, shots) then t.(phase := Finished, winner := Some(s.players.Of(p)), endOffer := None) else t
  }

  function Step(s: State, p: int, a: Action): Result<State, Error> {
    if p < 0 || p > 1 then Err(NotFound)
    else if !Unmixed(a) then Err(Invalid)
    else match a.kind
      case Save =>
        if s.phase != Placement || s.ready.Of(p) || !ValidFleet(a.ships, false) then Err(Invalid)
        else Ok(Placed(s, p, a.ships, false))
      case Ready =>
        if s.phase != Placement || s.ready.Of(p) || !ValidFleet(a.ships, true) then Err(Invalid)
        else Ok(Placed(s, p, a.ships, true))
      case Fire =>
        if s.phase != Battle || s.turn != p || !(0 <= a.cell < GRID) || Fired(s.shots.Of(p), a.cell) then Err(Invalid)
        else Ok(AfterShot(s, p, a.cell))
      case Cancel => if s.phase != Placement then Err(Invalid) else Ok(s.(phase := Cancelled))
      case Resign =>
        if s.phase != Battle then Err(Invalid)
        else Ok(s.(phase := Finished, winner := Some(s.players.Of(1 - p)), endOffer := None))
      case OfferEnd =>
        if s.phase != Battle || s.endOffer == Some(s.players.Of(p)) then Err(Invalid)
        else if s.endOffer.Some? then Ok(s.(phase := Cancelled, endOffer := None))
        else Ok(s.(endOffer := Some(s.players.Of(p))))
      case DeclineEnd => if s.phase != Battle || s.endOffer.None? then Err(Invalid) else Ok(s.(endOffer := None))
      case Rematch =>
        if (s.phase != Finished && s.phase != Cancelled) || s.rematch.Of(p) then Err(Invalid)
        else Ok(s.(rematch := s.rematch.With(p, true)))
      case Unknown => Err(Invalid)
  }

  // ------------------------------------------------------------------------------- views

  datatype View = View(
    opponent: UserId, phase: Phase, yourTurn: bool, ready: bool, enemyReady: bool,
    ownShips: seq<Ship>, enemyShips: seq<Ship>, shots: seq<Shot>, incoming: seq<Shot>,
    winner: Option<UserId>, endOffer: Option<UserId>, rematch: bool, enemyRematch: bool, nextMatch: Option<MatchId>)

  predicate Over(phase: Phase) {
    phase == Finished || phase == Cancelled
  }

  function Visible(ships: seq<Ship>, shots: seq<Shot>, over: bool): seq<Ship> {
    if ships == [] then []
    else
      var last := ships[|ships| - 1];
      Visible(ships[..|ships| - 1], shots, over) + if over || Sunk(last, shots) then [last] else []
  }

  function ViewOf(s: State, p: int): View {
    var enemy := 1 - p;
    View(s.players.Of(enemy), s.phase, s.phase == Battle && s.turn == p, s.ready.Of(p), s.ready.Of(enemy),
         s.ships.Of(p), Visible(s.ships.Of(enemy), s.shots.Of(p), Over(s.phase)), s.shots.Of(p), s.shots.Of(enemy),
         s.winner, s.endOffer, s.rematch.Of(p), s.rematch.Of(enemy), s.nextMatch)
  }

  // ------------------------------------------------------------------ the engine's loops

  /** Adds ships one by one, remembering identities and occupied cells. */
  method CheckFleet(ships: seq<Ship>, complete: bool) returns (valid: bool)
    ensures valid == ValidFleet(ships, complete)
  {
    if |ships| > 5 || (complete && |ships| != 5) {
      return false;
    }
    var seen: set<int>, occupied: set<int> := {}, {};
    for k := 0 to |ships|
      invariant forall m :: 0 <= m < k ==> OnGrid(ships[m])
      invariant forall j, m :: 0 <= j < m < k ==> Apart(ships[j], ships[m])
      invariant forall id :: id in seen <==> exists m :: 0 <= m < k && ships[m].id == id
      invariant forall c :: c in occupied <==> Occupies(ships[..k], c)
    {
      hide ShipSize, CellAt, Apart, Occupies, OnGrid;
      var s := ships[k];
      if s.id < 0 || s.id >= 5 || s.id in seen || s.cell < 0 || s.cell >= GRID {
        NotFleet(ships, complete, k);
        return false;
      }
      var before := occupied;
      var ok: bool;
      ok, occupied := AddShip(s, occupied);
      if !ok {
        ClashOrOffGrid(ships, k, before, complete);
        return false;
      }
      seen := seen + {s.id};
      ShipFits(ships, k, before, occupied);
    }
    return true;
  }

  lemma NotFleet(ships: seq<Ship>, complete: bool, k: nat)
    requires k < |ships|
    requires ships[k].id < 0 || ships[k].id >= 5 || ships[k].cell < 0 || ships[k].cell >= GRID
      || exists m :: 0 <= m < k && ships[m].id == ships[k].id
    ensures !ValidFleet(ships, complete)
  {
    if m :| 0 <= m < k && ships[m].id == ships[k].id {
      assert !Apart(ships[m], ships[k]);
    } else {
      assert !OnGrid(ships[k]);
    }
  }

  /** One ship's cells go into the map unless one is off the grid, off its row or taken. */
  method AddShip(s: Ship, before: set<int>) returns (ok: bool, occupied: set<int>)
    requires 0 <= s.id < 5 && 0 <= s.cell < GRID
    ensures ok == forall i :: 0 <= i < ShipSize(s) ==> CellFits(s, i, before)
    ensures ok ==> forall c :: c in occupied <==> c in before || exists i :: 0 <= i < ShipSize(s) && CellAt(s, i) == c
  {
    occupied := before;
    for i := 0 to ShipSize(s)
      invariant forall j :: 0 <= j < i ==> CellFits(s, j, before)
      invariant forall c :: c in occupied <==> c in before || exists j :: 0 <= j < i && CellAt(s, j) == c
    {
      var c := CellAt(s, i);
      assert forall j :: 0 <= j < i ==> CellAt(s, j) != c;
      assert CellFits(s, i, before) == (c < GRID && (s.vertical || c / 10 == s.cell / 10) && c !in occupied);
      if c >= GRID || (!s.vertical && c / 10 != s.cell / 10) || c in occupied {
        return false, occupied;
      }
      occupied := occupied + {c};
    }
    return true, occupied;
  }

  lemma ClashOrOffGrid(ships: seq<Ship>, k: nat, before: set<int>, complete: bool)
    requires k < |ships| && forall c :: c in before <==> Occupies(ships[..k], c)
    requires exists i :: 0 <= i < ShipSize(ships[k]) && !CellFits(ships[k], i, before)
    ensures !ValidFleet(ships, complete)
  {
    var s := ships[k];
    var i :| 0 <= i < ShipSize(s) && !CellFits(s, i, before);
    hide ShipSize, CellAt;
    if CellAt(s, i) in before {
      assert Occupies(ships[..k], CellAt(s, i));
      var m, j :| 0 <= m < k && 0 <= j < ShipSize(ships[..k][m]) && CellAt(ships[..k][m], j) == CellAt(s, i);
      assert !Apart(ships[m], s);
    } else {
      assert !OnGrid(s);
    }
  }

  lemma ShipFits(ships: seq<Ship>, k: nat, before: set<int>, after: set<int>)
    requires k < |ships| && 0 <= ships[k].id < 5 && 0 <= ships[k].cell < GRID
    requires forall c :: c in before <==> Occupies(ships[..k], c)
    requires forall m :: 0 <= m < k ==> ships[m].id != ships[k].id
    requires forall i :: 0 <= i < ShipSize(ships[k]) ==> CellFits(ships[k], i, before)
    requires forall c :: c in after <==> c in before || exists i :: 0 <= i < ShipSize(ships[k]) && CellAt(ships[k], i) == c
    ensures OnGrid(ships[k]) && forall j :: 0 <= j < k ==> Apart(ships[j], ships[k])
    ensures forall c :: c in after <==> Occupies(ships[..k + 1], c)
  {
    hide ShipSize, CellAt;
    forall i | 0 <= i < ShipSize(ships[k])
      ensures CellAt(ships[k], i) < GRID && (ships[k].vertical || CellAt(ships[k], i) / 10 == ships[k].cell / 10)
    {
      assert CellFits(ships[k], i, before);
    }
    forall j | 0 <= j < k ensures Apart(ships[j], ships[k]) {
      forall i, n | 0 <= i < ShipSize(ships[j]) && 0 <= n < ShipSize(ships[k]) ensures CellAt(ships[j], i) != CellAt(ships[k], n) {
        assert ships[..k][j] == ships[j];
        assert Occupies(ships[..k], CellAt(ships[j], i));
        assert CellFits(ships[k], n, before);
      }
    }
    forall c ensures Occupies(ships[..k + 1], c) <==> (Occupies(ships[..k], c) || exists i :: 0 <= i < ShipSize(ships[k]) && CellAt(ships[k], i) == c) {
      OneMoreShip(ships, k, c);
    }
  }

  lemma OneMoreShip(ships: seq<Ship>, k: nat, c: int)
    requires k < |ships|
    ensures Occupies(ships[..k + 1], c) <==> (Occupies(ships[..k], c) || exists i :: 0 <= i < ShipSize(ships[k]) && CellAt(ships[k], i) == c)
  {
    hide ShipSize, CellAt;
    var longer, shorter := ships[..k + 1], ships[..k];
    if m, i :| 0 <= m < k + 1 && 0 <= i < ShipSize(longer[m]) && CellAt(longer[m], i) == c {
      if m < k {
        assert shorter[m] == longer[m];
      }
    }
    if m, i :| 0 <= m < k && 0 <= i < ShipSize(shorter[m]) && CellAt(shorter[m], i) == c {
      assert longer[m] == shorter[m];
    }
    if i :| 0 <= i < ShipSize(ships[k]) && CellAt(ships[k], i) == c {
      assert longer[k] == ships[k];
    }
  }

  method IsSunk(ship: Ship, shots: seq<Shot>) returns (sunk: bool)
    ensures sunk == Sunk(ship, shots)
  {
    for i := 0 to ShipSize(ship)
      invariant forall j :: 0 <= j < i ==> HitAt(shots, CellAt(ship, j))
    {
      var found := false;
      for k := 0 to |shots|
        invariant found <==> exists j :: 0 <= j < k && shots[j] == Shot(CellAt(ship, i), true)
      {
        if shots[k].cell == CellAt(ship, i) && shots[k].hit {
          found := true;
        }
      }
      assert found <==> HitAt(shots, CellAt(ship, i)) by {
        if HitAt(shots, CellAt(ship, i)) {
          var j :| 0 <= j < |shots| && shots[j] == Shot(CellAt(ship, i), true);
        }
      }
      if !found {
        return false;
      }
    }
    return true;
  }

  /** One match's state, whose fields every accepted action changes in place. */
  class Game {
    var players: Two<UserId>
    var ships: Two<seq<Ship>>
    var ready: Two<bool>
    var shots: Two<seq<Shot>>
    var phase: Phase
    var first: int
    var turn: int
    var winner: Option<UserId>
    var endOffer: Option<UserId>
    var rematch: Two<bool>
    var nextMatch: Option<MatchId>

    function Value(): State
      reads this
    {
      State(players, ships, ready, shots, phase, first, turn, winner, endOffer, rematch, nextMatch)
    }

    constructor (s: State)
      ensures Value() == s
    {
      players, ships, ready, shots, phase, first, turn := s.players, s.ships, s.ready, s.shots, s.phase, s.first, s.turn;
      winner, endOffer, rematch, nextMatch := s.winner, s.endOffer, s.rematch, s.nextMatch;
    }

    method Place(p: int, fleet: seq<Ship>, complete: bool) returns (error: Option<Error>)
      requires p == 0 || p == 1
      modifies this
      ensures var s := old(Value());
        if s.phase != Placement || s.ready.Of(p) || !ValidFleet(fleet, complete) then error == Some(Invalid) && Value() == s
        else error == None && Value() == Placed(s, p, fleet, complete)
    {
      hide ValidFleet;
      var valid := CheckFleet(fleet, complete);
      if phase != Placement || ready.Of(p) || !valid {
        return Some(Invalid);
      }
      ships := ships.With(p, fleet);
      ready := ready.With(p, complete);
      if ready.zero && ready.one {
        phase := Battle;
      }
      return None;
    }

    method Shoot(p: int, cell: int) returns (error: Option<Error>)
      requires p == 0 || p == 1
      modifies this
      ensures var s := old(Value());
        if s.phase != Battle || s.turn != p || !(0 <= cell < GRID) || Fired(s.shots.Of(p), cell) then error == Some(Invalid) && Value() == s
        else error == None && Value() == AfterShot(s, p, cell)
    {
      hide ShipSize, CellAt, Sunk;
      if phase != Battle || turn != p || cell < 0 || cell >= GRID {
        return Some(Invalid);
      }
      var mine := shots.Of(p);
      for i := 0 to |mine|
        invariant forall j :: 0 <= j < i ==> mine[j].cell != cell
      {
        if mine[i].cell == cell {
          return Some(Invalid);
        }
      }
      var enemy := ships.Of(1 - p);
      var hit := false;
      for k := 0 to |enemy|
        invariant hit <==> exists m, i :: 0 <= m < k && 0 <= i < ShipSize(enemy[m]) && CellAt(enemy[m], i) == cell
      {
        var size := ShipSize(enemy[k]);
        for i := 0 to size
          invariant hit <==> ((exists m, j :: 0 <= m < k && 0 <= j < ShipSize(enemy[m]) && CellAt(enemy[m], j) == cell)
                              || exists j :: 0 <= j < i && CellAt(enemy[k], j) == cell)
        {
          if CellAt(enemy[k], i) == cell {
            hit := true;
          }
        }
      }
      assert hit == Occupies(enemy, cell);
      hide Occupies;
      shots := shots.With(p, shots.Of(p) + [Shot(cell, hit)]);
      turn := 1 - p;
      var all := true;
      for k := 0 to |enemy|
        modifies {}
        invariant all <==> forall m :: 0 <= m < k ==> Sunk(enemy[m], shots.Of(p))
      {
        var sunk := IsSunk(enemy[k], shots.Of(p));
        if !sunk {
          all := false;
        }
      }
      assert all == AllSunk(enemy, shots.Of(p));
      hide AllSunk;
      if all {
        phase := Finished;
        winner := Some(players.Of(p));
        endOffer := None;
      }
      return None;
    }

    /** The engine's `apply`: every field it may change, changed in place. */
    method Apply(p: int, a: Action) returns (error: Option<Error>)
      modifies this
      ensures match Step(old(Value()), p, a)
        case Err(e) => error == Some(e) && Value() == old(Value())
        case Ok(t) => error == None && Value() == t
    {
      hide ValidFleet, Fired, AfterShot;
      if p < 0 || p > 1 {
        return Some(NotFound);
      }
      if (a.kind != Fire && a.cell != 0) || (a.kind != Save && a.kind != Ready && |a.ships| != 0) {
        return Some(Invalid);
      }
      match a.kind
      case Save => error := Place(p, a.ships, false);
      case Ready => error := Place(p, a.ships, true);
      case Fire => error := Shoot(p, a.cell);
      case Cancel =>
        if phase != Placement {
          return Some(Invalid);
        }
        phase := Cancelled;
        return None;
      case Resign =>
        if phase != Battle {
          return Some(Invalid);
        }
        phase := Finished;
        winner := Some(players.Of(1 - p));
        endOffer := None;
        return None;
      case OfferEnd =>
        if phase != Battle || endOffer == Some(players.Of(p)) {
          return Some(Invalid);
        }
        if endOffer.Some? {
          phase := Cancelled;
          endOffer := None;
        } else {
          endOffer := Some(players.Of(p));
        }
        return None;
      case DeclineEnd =>
        if phase != Battle || endOffer.None? {
          return Some(Invalid);
        }
        endOffer := None;
        return None;
      case Rematch =>
        if (phase != Finished && phase != Cancelled) || rematch.Of(p) {
          return Some(Invalid);
        }
        rematch := rematch.With(p, true);
        return None;
      case Unknown =>
        return Some(Invalid);
    }

    method ViewFor(p: int) returns (v: View)
      ensures v == ViewOf(Value(), p)
    {
      hide Sunk;
      var enemy := 1 - p;
      var visible: seq<Ship> := [];
      var fleet := ships.Of(enemy);
      for k := 0 to |fleet|
        invariant visible == Visible(fleet[..k], shots.Of(p), Over(phase))
      {
        assert fleet[..k + 1][..k] == fleet[..k];
        var sunk := IsSunk(fleet[k], shots.Of(p));
        if phase == Finished || phase == Cancelled || sunk {
          visible := visible + [fleet[k]];
        }
      }
      assert fleet[..|fleet|] == fleet;
      v := View(players.Of(enemy), phase, phase == Battle && turn == p, ready.Of(p), ready.Of(enemy), ships.Of(p), visible,
                shots.Of(p), shots.Of(enemy), winner, endOffer, rematch.Of(p), rematch.Of(enemy), nextMatch);
    }
  }
}
