/** The aeroplane-chess rule engine (server/internal/games/flightchess/rules.go).
    The functions say what a step computes; the methods below them are the engine's own
    loops over pieces and events, proved to compute exactly those functions. */
module FlightChess {
  import opened Common

  const PIECE_COUNT := 4
  const MAIN_CELL_COUNT := 52
  const HOME_CELL_COUNT := 5
  const CAPTURE_CAP := 2048

  datatype Zone = Hangar | Launch | Main | Home | Finished

  datatype Piece = Piece(zone: Zone, index: int)

  datatype Effect = NoEffect | Jump | Shortcut | JumpShortcut

  datatype Phase = AwaitingRoll | AwaitingMove

  datatype State = State(
    captures: Sides<int>,
    active: bool,
    phase: Phase,
    users: Sides<Option<UserId>>,
    next: Color,
    dice: int,
    pieces: Sides<seq<Piece>>,
    winner: Option<UserId>,
    result: Option<Outcome>)

  // An old roll may still carry the removed penalty list.
  datatype Payload =
    | RollAccepted(color: Color, user: UserId, value: int, movable: seq<int>, penalty: Option<seq<int>>)
    | MoveAccepted(color: Color, user: UserId, pieceIndex: int, roll: int, from: Piece, to: Piece,
                   effect: Effect, captured: seq<int>)

  datatype Resolution = Resolution(to: Piece, effect: Effect)

  type Snap = GameSnapshot<State>
  type Event = GameEvent<Payload>
  type Reply = Result<Applied<State, Payload>, RuleError>

  // ------------------------------------------------------------------ the board

  function Start(c: Color): int {
    if c.Black? then 26 else 0
  }

  function ProgressForIndex(c: Color, index: int): Option<int> {
    if index < 0 || index >= MAIN_CELL_COUNT then None
    else
      var progress := (index - Start(c) + MAIN_CELL_COUNT) % MAIN_CELL_COUNT + 1;
      if progress <= 50 then Some(progress) else None
  }

  function IndexForProgress(c: Color, progress: int): int {
    (Start(c) + progress - 1) % MAIN_CELL_COUNT
  }

  function ResolveProgress(c: Color, progress: int): Option<Resolution>
    decreases 1
  {
    if progress <= 0 then None
    else if progress <= 50 then ResolveMainProgress(c, progress)
    else if progress <= 50 + HOME_CELL_COUNT then Some(Resolution(Piece(Home, progress - 51), NoEffect))
    else if progress == 51 + HOME_CELL_COUNT then Some(Resolution(Piece(Finished, 0), NoEffect))
    else None
  }

  function ResolveMainProgress(c: Color, progress: int): Option<Resolution>
    decreases if 1 <= progress <= 50 then 0 else 2
  {
    if progress < 1 || progress > 50 then ResolveProgress(c, progress)
    else if progress == 18 then Some(Resolution(Piece(Main, IndexForProgress(c, 30)), Shortcut))
    else if progress % 4 == 2 && progress < 50 then
      if progress + 4 == 18 then Some(Resolution(Piece(Main, IndexForProgress(c, 30)), JumpShortcut))
      else Some(Resolution(Piece(Main, IndexForProgress(c, progress + 4)), Jump))
    else Some(Resolution(Piece(Main, IndexForProgress(c, progress)), NoEffect))
  }

  function ResolveMove(c: Color, piece: Piece, roll: int): Option<Resolution> {
    if roll < 1 || roll > 6 then None
    else match piece.zone
      case Hangar => if roll != 5 && roll != 6 then None else Some(Resolution(Piece(Launch, 0), NoEffect))
      case Launch => ResolveMainProgress(c, roll)
      case Main =>
        (match ProgressForIndex(c, piece.index)
         case None => None
         case Some(progress) => ResolveProgress(c, progress + roll))
      case Home =>
        var over := piece.index + roll;
        var target := if over > HOME_CELL_COUNT then 2 * HOME_CELL_COUNT - over else over;
        if target < HOME_CELL_COUNT then Some(Resolution(Piece(Home, target), NoEffect))
        else if target == HOME_CELL_COUNT then Some(Resolution(Piece(Finished, 0), NoEffect))
        else None
      case Finished => None
  }

  /** The cells a piece touches down on, the last of them its destination. */
  function LandingCells(r: Resolution): seq<Piece> {
    if r.to.zone != Main then []
    else match r.effect
      case NoEffect => [Back(r.to, 0)]
      case Jump => [Back(r.to, 4), Back(r.to, 0)]
      case Shortcut => [Back(r.to, 12), Back(r.to, 0)]
      case JumpShortcut => [Back(r.to, 16), Back(r.to, 12), Back(r.to, 0)]
  }

  function Back(to: Piece, offset: int): Piece {
    Piece(Main, (to.index - offset + MAIN_CELL_COUNT) % MAIN_CELL_COUNT)
  }

  function Destinations(r: Resolution, captureLandings: bool, captureCrossing: bool): seq<Piece> {
    (if captureLandings then LandingCells(r) else if r.to.zone == Main then [r.to] else [])
    + (if captureCrossing && (r.effect == Shortcut || r.effect == JumpShortcut) then [Piece(Home, 2)] else [])
  }

  // --------------------------------------------------- choosing and capturing pieces

  predicate Movable(c: Color, piece: Piece, value: int, allowBounce: bool, allowFiveLaunch: bool) {
    && ResolveMove(c, piece, value).Some?
    && (allowBounce || piece.zone != Home || piece.index + value <= HOME_CELL_COUNT)
    && (allowFiveLaunch || value != 5 || piece.zone != Hangar)
  }

  /** The slots below `n` whose piece may move, in slot order. */
  function MovableSlots(c: Color, pieces: seq<Piece>, value: int, allowBounce: bool, allowFiveLaunch: bool, n: nat): seq<int>
    requires n <= |pieces|
  {
    if n == 0 then []
    else
      MovableSlots(c, pieces, value, allowBounce, allowFiveLaunch, n - 1)
      + (if Movable(c, pieces[n - 1], value, allowBounce, allowFiveLaunch) then [n - 1] else [])
  }

  predicate Hit(piece: Piece, destinations: seq<Piece>) {
    (piece.zone == Main || piece.zone == Home) && piece in destinations
  }

  /** The slots below `n` that are captured, in slot order. */
  function CapturedSlots(pieces: seq<Piece>, destinations: seq<Piece>, n: nat): seq<int>
    requires n <= |pieces|
  {
    if n == 0 then []
    else CapturedSlots(pieces, destinations, n - 1) + (if Hit(pieces[n - 1], destinations) then [n - 1] else [])
  }

  /** Captured pieces return to their own hangar slot. */
  function SentHome(pieces: seq<Piece>, destinations: seq<Piece>): (r: seq<Piece>)
    ensures |r| == |pieces|
  {
    seq(|pieces|, i requires 0 <= i < |pieces| => if Hit(pieces[i], destinations) then Piece(Hangar, i) else pieces[i])
  }

  predicate AllFinished(pieces: seq<Piece>) {
    |pieces| == PIECE_COUNT && forall i :: 0 <= i < |pieces| ==> pieces[i].zone == Finished
  }

  // ------------------------------------------------------------------ the validator

  predicate ValidPiece(piece: Piece, slot: int) {
    match piece.zone
    case Hangar => piece.index == slot
    case Launch => piece.index == 0
    case Finished => piece.index == 0
    case Main => 0 <= piece.index < MAIN_CELL_COUNT
    case Home => 0 <= piece.index < HOME_CELL_COUNT
  }

  predicate ValidPieces(c: Color, pieces: seq<Piece>) {
    |pieces| == PIECE_COUNT
    && forall i :: 0 <= i < PIECE_COUNT ==>
      ValidPiece(pieces[i], i) && (pieces[i].zone == Main ==> ProgressForIndex(c, pieces[i].index).Some?)
  }

  predicate ValidState(s: State) {
    && 0 <= s.captures.black <= CAPTURE_CAP && 0 <= s.captures.white <= CAPTURE_CAP
    && (s.users.black.None? || s.users.white.None? || s.users.black != s.users.white)
    && ValidPieces(Black, s.pieces.black) && ValidPieces(White, s.pieces.white)
    && (match s.phase
        case AwaitingRoll => s.dice == 0
        case AwaitingMove =>
          1 <= s.dice <= 6 && MovableSlots(s.next, s.pieces.Of(s.next), s.dice, true, true, PIECE_COUNT) != [])
    && if s.active then
         s.result.None? && s.winner.None? && !AllFinished(s.pieces.black) && !AllFinished(s.pieces.white)
       else
         s.result == Some(Goal) && s.winner.Some? && s.phase.AwaitingRoll?
         && ((s.winner == s.users.black && AllFinished(s.pieces.black))
             || (s.winner == s.users.white && AllFinished(s.pieces.white)))
  }

  function HangarPieces(): seq<Piece> {
    [Piece(Hangar, 0), Piece(Hangar, 1), Piece(Hangar, 2), Piece(Hangar, 3)]
  }

  function InitialState(): State {
    State(Sides(0, 0), true, AwaitingRoll, Sides(None, None), Black, 0, Sides(HangarPieces(), HangarPieces()), None, None)
  }

  function InitialSnapshot(): Snap {
    GameSnapshot(0, InitialState())
  }

  // -------------------------------------------------------------------- the two steps

  function Bind(s: State, actor: UserId): Result<State, RuleError> {
    match s.users.Of(s.next)
    case Some(user) => if user != actor then Err(NotYourTurn) else Ok(s)
    case None =>
      if s.users.Of(s.next.Opposite()) == Some(actor) then Err(NotYourTurn)
      else Ok(s.(users := s.users.With(s.next, Some(actor))))
  }

  function Encoded(event: Event, revision: int, s: State): Reply {
    if ValidState(s) then Ok(Applied(event, GameSnapshot(revision, s))) else Err(InvalidSnapshot)
  }

  /** The state after a bound player's piece has moved and the given slots were sent home. */
  function AfterMove(s: State, actor: UserId, pieceIndex: int, to: Piece, destinations: seq<Piece>): State
    requires 0 <= pieceIndex < |s.pieces.Of(s.next)|
  {
    var c := s.next;
    var enemy := c.Opposite();
    var mine := s.pieces.Of(c)[pieceIndex := to];
    var taken := |CapturedSlots(s.pieces.Of(enemy), destinations, |s.pieces.Of(enemy)|)|;
    var moved := s.(
      pieces := s.pieces.With(c, mine).With(enemy, SentHome(s.pieces.Of(enemy), destinations)),
      captures := s.captures.With(c, s.captures.Of(c) + taken),
      dice := 0,
      phase := AwaitingRoll);
    if AllFinished(mine) then moved.(active := false, winner := Some(actor), result := Some(Goal))
    else if s.dice != 6 then moved.(next := enemy)
    else moved
  }

  function ApplyMove(snap: Snap, actor: UserId, pieceIndex: int, captureLandings: bool, captureCrossing: bool): Reply {
    if pieceIndex < 0 || pieceIndex >= PIECE_COUNT then Err(InvalidAction)
    else if snap.revision < 0 || !ValidState(snap.state) then Err(InvalidSnapshot)
    else if !snap.state.active || snap.state.phase != AwaitingMove then Err(InvalidPhase)
    else match Bind(snap.state, actor)
      case Err(e) => Err(e)
      case Ok(s) =>
        var from := s.pieces.Of(s.next)[pieceIndex];
        match ResolveMove(s.next, from, s.dice)
        case None => Err(InvalidMove)
        case Some(r) =>
          var destinations := Destinations(r, captureLandings, captureCrossing);
          var enemy := s.pieces.Of(s.next.Opposite());
          var payload := MoveAccepted(s.next, actor, pieceIndex, s.dice, from, r.to, r.effect,
                                      CapturedSlots(enemy, destinations, |enemy|));
          Encoded(GameEvent(snap.revision + 1, actor, payload), snap.revision + 1,
                  AfterMove(s, actor, pieceIndex, r.to, destinations))
  }

  function AfterRoll(s: State, value: int, movable: seq<int>): State {
    if movable != [] then s.(phase := AwaitingMove, dice := value)
    else if value != 6 then s.(next := s.next.Opposite())
    else s
  }

  function ApplyRoll(snap: Snap, actor: UserId, value: int, allowBounce: bool, allowFiveLaunch: bool): Reply {
    if value < 1 || value > 6 then Err(InvalidAction)
    else if snap.revision < 0 || !ValidState(snap.state) then Err(InvalidSnapshot)
    else if !snap.state.active || snap.state.phase != AwaitingRoll then Err(InvalidPhase)
    else match Bind(snap.state, actor)
      case Err(e) => Err(e)
      case Ok(s) =>
        var movable := MovableSlots(s.next, s.pieces.Of(s.next), value, allowBounce, allowFiveLaunch, PIECE_COUNT);
        var payload := RollAccepted(s.next, actor, value, movable, None);
        Encoded(GameEvent(snap.revision + 1, actor, payload), snap.revision + 1, AfterRoll(s, value, movable))
  }

  // ---------------------------------------------------------------------- the replay

  predicate ValidIndices(indices: seq<int>) {
    && (forall i :: 0 <= i < |indices| ==> 0 <= indices[i] < PIECE_COUNT)
    && (forall i, j :: 0 <= i < j < |indices| ==> indices[i] != indices[j])
  }

  /** An empty penalty list is dropped; a nonempty one is never silently discarded. */
  function Normalize(p: Payload): Option<Payload> {
    if p.RollAccepted? && p.penalty.Some? then
      if p.penalty.value == [] then Some(p.(penalty := None)) else None
    else Some(p)
  }

  predicate DecodesRoll(p: Payload) {
    p.RollAccepted? && p.penalty.None? && 1 <= p.value <= 6 && ValidIndices(p.movable)
  }

  predicate DecodesMove(p: Payload) {
    && p.MoveAccepted? && 0 <= p.pieceIndex < PIECE_COUNT && 1 <= p.roll <= 6
    && ValidPiece(p.from, p.pieceIndex) && ValidPiece(p.to, p.pieceIndex) && ValidIndices(p.captured)
  }

  predicate Matches(reply: Reply, payload: Payload) {
    reply.Ok? && reply.value.event.payload == payload
  }

  // Rule variants, newest first: index 0 is today's rule.
  const ROLL_VARIANTS: seq<(bool, bool)> := [(true, true), (true, false), (false, true), (false, false)]
  const MOVE_VARIANTS: seq<(bool, bool)> := [(true, true), (true, false), (false, false)]

  function Variants(p: Payload): seq<(bool, bool)> {
    if p.RollAccepted? then ROLL_VARIANTS else MOVE_VARIANTS
  }

  /** What rule variant `v` answers to the action that `payload` records. */
  function Attempt(snap: Snap, actor: UserId, payload: Payload, v: (bool, bool)): Reply {
    match payload
    case RollAccepted(_, _, value, _, _) => ApplyRoll(snap, actor, value, v.0, v.1)
    case MoveAccepted(_, _, pieceIndex, _, _, _, _, _) => ApplyMove(snap, actor, pieceIndex, v.0, v.1)
  }

  /** The first variant from `k` on whose payload matches; the last reply when none does. */
  function Search(snap: Snap, actor: UserId, payload: Payload, k: nat): Reply
    requires k < |Variants(payload)|
    decreases |Variants(payload)| - k
  {
    var reply := Attempt(snap, actor, payload, Variants(payload)[k]);
    if Matches(reply, payload) || k == |Variants(payload)| - 1 then reply
    else Search(snap, actor, payload, k + 1)
  }

  function ReplayEvent(snap: Snap, event: Event): Result<Snap, RuleError> {
    match Normalize(event.payload)
    case None => Err(InvalidEvent)
    case Some(p) =>
      if !(DecodesRoll(p) || DecodesMove(p)) || p.user != event.actor then Err(InvalidEvent)
      else
        var first := Attempt(snap, event.actor, p, Variants(p)[0]);
        var reply := if first.Ok? && !Matches(first, p) then Search(snap, event.actor, p, 1) else first;
        if Matches(reply, p) && reply.value.event.revision == event.revision
        then Ok(reply.value.next) else Err(InvalidEvent)
  }

  /** Replaying the whole log: the last event is applied to the replay of the ones before it. */
  function Rebuilt(events: seq<Event>): Result<Snap, RuleError> {
    if events == [] then Ok(InitialSnapshot())
    else match Rebuilt(events[..|events| - 1])
      case Err(e) => Err(e)
      case Ok(snap) =>
        if events[|events| - 1].revision != |events| then Err(InvalidEvent)
        else ReplayEvent(snap, events[|events| - 1])
  }

  // ------------------------------------------------------- what the slot lists contain

  lemma {:induction false} MovableSlotsSpec(c: Color, pieces: seq<Piece>, value: int, allowBounce: bool, allowFiveLaunch: bool, n: nat)
    requires n <= |pieces|
    ensures var r := MovableSlots(c, pieces, value, allowBounce, allowFiveLaunch, n);
      && (forall i :: 0 <= i < |r| ==> 0 <= r[i] < n && Movable(c, pieces[r[i]], value, allowBounce, allowFiveLaunch))
      && (forall i, j :: 0 <= i < j < |r| ==> r[i] < r[j])
      && (forall k :: 0 <= k < n && Movable(c, pieces[k], value, allowBounce, allowFiveLaunch) ==> k in r)
  {
    hide Movable;
    if n > 0 {
      MovableSlotsSpec(c, pieces, value, allowBounce, allowFiveLaunch, n - 1);
    }
  }

  lemma {:induction false} CapturedSlotsSpec(pieces: seq<Piece>, destinations: seq<Piece>, n: nat)
    requires n <= |pieces|
    ensures var r := CapturedSlots(pieces, destinations, n);
      && (forall i :: 0 <= i < |r| ==> 0 <= r[i] < n && Hit(pieces[r[i]], destinations))
      && (forall i, j :: 0 <= i < j < |r| ==> r[i] < r[j])
      && (forall k :: 0 <= k < n && Hit(pieces[k], destinations) ==> k in r)
  {
    if n > 0 {
      CapturedSlotsSpec(pieces, destinations, n - 1);
    }
  }

  ghost function Filtered(c: Color, pieces: seq<Piece>, value: int, allowBounce: bool, allowFiveLaunch: bool, slots: seq<int>): seq<int>
    requires forall i :: 0 <= i < |slots| ==> 0 <= slots[i] < |pieces|
  {
    if slots == [] then []
    else
      var last := slots[|slots| - 1];
      Filtered(c, pieces, value, allowBounce, allowFiveLaunch, slots[..|slots| - 1])
      + (if Movable(c, pieces[last], value, allowBounce, allowFiveLaunch) then [last] else [])
  }

  /** Filtering today's movable slots by an older rule leaves exactly that rule's movable slots. */
  lemma {:induction false} FilteredIsMovableSlots(c: Color, pieces: seq<Piece>, value: int, allowBounce: bool, allowFiveLaunch: bool, n: nat)
    requires n <= |pieces|
    ensures var r := MovableSlots(c, pieces, value, true, true, n);
      && (forall i :: 0 <= i < |r| ==> 0 <= r[i] < n)
      && Filtered(c, pieces, value, allowBounce, allowFiveLaunch, r)
         == MovableSlots(c, pieces, value, allowBounce, allowFiveLaunch, n)
  {
    hide ResolveMove;
    if n > 0 {
      FilteredIsMovableSlots(c, pieces, value, allowBounce, allowFiveLaunch, n - 1);
      var before := MovableSlots(c, pieces, value, true, true, n - 1);
      var slots := MovableSlots(c, pieces, value, true, true, n);
      var last := pieces[n - 1];
      assert Movable(c, last, value, allowBounce, allowFiveLaunch) ==> Movable(c, last, value, true, true);
      if Movable(c, last, value, true, true) {
        assert slots == before + [n - 1];
        assert slots[..|slots| - 1] == before;
      } else {
        assert slots == before;
      }
    }
  }

  lemma {:induction false} RebuiltPrefix(events: seq<Event>, k: nat)
    requires k <= |events|
    ensures Rebuilt(events[..k]).Err? ==> Rebuilt(events) == Err(InvalidEvent)
    ensures Rebuilt(events).Err? ==> Rebuilt(events) == Err(InvalidEvent)
  {
    if events != [] {
      var front := events[..|events| - 1];
      if k < |events| {
        assert front[..k] == events[..k];
        RebuiltPrefix(front, k);
      } else {
        assert events[..k] == events;
        RebuiltPrefix(front, 0);
      }
    }
  }

  // ================================================================ the engine's loops

  method MovablePieces(c: Color, pieces: seq<Piece>, roll: int) returns (result: seq<int>)
    ensures result == MovableSlots(c, pieces, roll, true, true, |pieces|)
  {
    result := [];
    for index := 0 to |pieces|
      invariant result == MovableSlots(c, pieces, roll, true, true, index)
    {
      if ResolveMove(c, pieces[index], roll).Some? {
        result := result + [index];
      }
    }
  }

  /** Loops over the opponent's pieces and, for each, over the destinations until one hits. */
  method CaptureAt(state: State, color: Color, destinations: seq<Piece>) returns (next: State, captured: seq<int>)
    ensures captured == CapturedSlots(state.pieces.Of(color.Opposite()), destinations, |state.pieces.Of(color.Opposite())|)
    ensures next == state.(pieces := state.pieces.With(color.Opposite(), SentHome(state.pieces.Of(color.Opposite()), destinations)))
  {
    var opponent := color.Opposite();
    var original := state.pieces.Of(opponent);
    var pieces := original;
    captured := [];
    for index := 0 to |original|
      invariant |pieces| == |original|
      invariant forall i :: 0 <= i < index ==> pieces[i] == SentHome(original, destinations)[i]
      invariant forall i :: index <= i < |original| ==> pieces[i] == original[i]
      invariant captured == CapturedSlots(original, destinations, index)
    {
      var d := 0;
      while d < |destinations|
        invariant 0 <= d <= |destinations|
        invariant forall k :: 0 <= k < d ==> !Hit(original[index], [destinations[k]])
        invariant |pieces| == |original| && pieces[index] == original[index]
        invariant forall i :: 0 <= i < index ==> pieces[i] == SentHome(original, destinations)[i]
        invariant forall i :: index < i < |original| ==> pieces[i] == original[i]
        invariant captured == CapturedSlots(original, destinations, index)
      {
        if (original[index].zone == Main || original[index].zone == Home) && original[index] == destinations[d] {
          break;
        }
        d := d + 1;
      }
      assert Hit(original[index], destinations) <==> d < |destinations| by {
        if d == |destinations| && original[index] in destinations {
          var k :| 0 <= k < |destinations| && destinations[k] == original[index];
          assert !Hit(original[index], [destinations[k]]);
        }
      }
      if d < |destinations| {
        pieces := pieces[index := Piece(Hangar, index)];
        captured := captured + [index];
      }
    }
    assert pieces == SentHome(original, destinations);
    next := state.(pieces := state.pieces.With(opponent, pieces));
  }

  /** The mutating half of a move: the piece, the captures, the counters, the turn. */
  method PlayResolved(bound: State, actor: UserId, pieceIndex: int, resolution: Resolution,
                      captureLandings: bool, captureCrossing: bool)
    returns (state: State, captured: seq<int>)
    requires |bound.pieces.black| == |bound.pieces.white| == PIECE_COUNT && 0 <= pieceIndex < PIECE_COUNT
    ensures var destinations := Destinations(resolution, captureLandings, captureCrossing);
      && state == AfterMove(bound, actor, pieceIndex, resolution.to, destinations)
      && captured == CapturedSlots(bound.pieces.Of(bound.next.Opposite()), destinations, PIECE_COUNT)
  {
    hide LandingCells, AllFinished, SentHome, CapturedSlots;
    state := bound;
    var color, roll := state.next, state.dice;
    state := state.(pieces := state.pieces.With(color, state.pieces.Of(color)[pieceIndex := resolution.to]));
    var destinations: seq<Piece> := [];
    if resolution.to.zone == Main {
      destinations := [resolution.to];
    }
    if captureLandings {
      destinations := LandingCells(resolution);
    }
    if captureCrossing && (resolution.effect == Shortcut || resolution.effect == JumpShortcut) {
      destinations := destinations + [Piece(Home, 2)];
    }
    assert destinations == Destinations(resolution, captureLandings, captureCrossing);
    state, captured := CaptureAt(state, color, destinations);
    state := state.(captures := state.captures.With(color, state.captures.Of(color) + |captured|));
    state := state.(dice := 0, phase := AwaitingRoll);
    if AllFinished(state.pieces.Of(color)) {
      state := state.(active := false, winner := Some(actor), result := Some(Goal));
    } else if roll != 6 {
      state := state.(next := color.Opposite());
    }
  }

  method ApplyMoveWithCrossing(snapshot: Snap, actor: UserId, pieceIndex: int, captureLandings: bool, captureCrossing: bool)
    returns (reply: Reply)
    ensures reply == ApplyMove(snapshot, actor, pieceIndex, captureLandings, captureCrossing)
  {
    if pieceIndex < 0 || pieceIndex >= PIECE_COUNT {
      return Err(InvalidAction);
    }
    if snapshot.revision < 0 || !ValidState(snapshot.state) {
      return Err(InvalidSnapshot);
    }
    assert |snapshot.state.pieces.black| == |snapshot.state.pieces.white| == PIECE_COUNT;
    hide ResolveMove, ValidState, AfterMove, Destinations, CapturedSlots;
    if !snapshot.state.active || snapshot.state.phase != AwaitingMove {
      return Err(InvalidPhase);
    }
    var bound := Bind(snapshot.state, actor);
    if bound.Err? {
      return Err(bound.error);
    }
    var color, roll := bound.value.next, bound.value.dice;
    var from := bound.value.pieces.Of(color)[pieceIndex];
    var resolution := ResolveMove(color, from, roll);
    if resolution.None? {
      return Err(InvalidMove);
    }
    var state, captured := PlayResolved(bound.value, actor, pieceIndex, resolution.value, captureLandings, captureCrossing);
    var payload := MoveAccepted(color, actor, pieceIndex, roll, from, resolution.value.to, resolution.value.effect, captured);
    if !ValidState(state) {
      return Err(InvalidSnapshot);
    }
    return Ok(Applied(GameEvent(snapshot.revision + 1, actor, payload), GameSnapshot(snapshot.revision + 1, state)));
  }

  /** Keeps only the movable pieces that the older rule also moved. */
  method LegacyMovable(color: Color, pieces: seq<Piece>, value: int, movable: seq<int>, allowBounce: bool, allowFiveLaunch: bool)
    returns (legacy: seq<int>)
    requires movable == MovableSlots(color, pieces, value, true, true, |pieces|)
    ensures legacy == MovableSlots(color, pieces, value, allowBounce, allowFiveLaunch, |pieces|)
  {
    hide ResolveMove, MovableSlots, Movable, Filtered;
    MovableSlotsSpec(color, pieces, value, true, true, |pieces|);
    FilteredIsMovableSlots(color, pieces, value, allowBounce, allowFiveLaunch, |pieces|);
    FilteredNothing(color, pieces, value, allowBounce, allowFiveLaunch);
    legacy := [];
    for i := 0 to |movable|
      invariant legacy == Filtered(color, pieces, value, allowBounce, allowFiveLaunch, movable[..i])
    {
      var piece := pieces[movable[i]];
      FilteredOne(color, pieces, value, allowBounce, allowFiveLaunch, movable, i);
      if (allowBounce || piece.zone != Home || piece.index + value <= HOME_CELL_COUNT)
         && (allowFiveLaunch || value != 5 || piece.zone != Hangar) {
        legacy := legacy + [movable[i]];
      }
    }
    assert movable[..|movable|] == movable;
  }

  lemma FilteredNothing(c: Color, pieces: seq<Piece>, value: int, allowBounce: bool, allowFiveLaunch: bool)
    ensures Filtered(c, pieces, value, allowBounce, allowFiveLaunch, []) == []
  {
  }

  lemma FilteredOne(c: Color, pieces: seq<Piece>, value: int, allowBounce: bool, allowFiveLaunch: bool, slots: seq<int>, i: nat)
    requires i < |slots| && forall k :: 0 <= k < |slots| ==> 0 <= slots[k] < |pieces|
    requires Movable(c, pieces[slots[i]], value, true, true)
    ensures var piece := pieces[slots[i]];
      Filtered(c, pieces, value, allowBounce, allowFiveLaunch, slots[..i + 1])
      == Filtered(c, pieces, value, allowBounce, allowFiveLaunch, slots[..i])
         + if (allowBounce || piece.zone != Home || piece.index + value <= HOME_CELL_COUNT)
              && (allowFiveLaunch || value != 5 || piece.zone != Hangar) then [slots[i]] else []
  {
    hide ResolveMove;
    assert slots[..i + 1][..i] == slots[..i];
  }

  method ApplyRollValueWithOptions(snapshot: Snap, actor: UserId, value: int, allowBounce: bool, allowFiveLaunch: bool)
    returns (reply: Reply)
    ensures reply == ApplyRoll(snapshot, actor, value, allowBounce, allowFiveLaunch)
  {
    if value < 1 || value > 6 {
      return Err(InvalidAction);
    }
    if snapshot.revision < 0 || !ValidState(snapshot.state) {
      return Err(InvalidSnapshot);
    }
    assert |snapshot.state.pieces.black| == |snapshot.state.pieces.white| == PIECE_COUNT;
    hide ResolveMove, ValidState, MovableSlots;
    if !snapshot.state.active || snapshot.state.phase != AwaitingRoll {
      return Err(InvalidPhase);
    }
    var bound := Bind(snapshot.state, actor);
    if bound.Err? {
      return Err(bound.error);
    }
    var state := bound.value;
    var color := state.next;
    var pieces := state.pieces.Of(color);
    var movable := MovablePieces(color, pieces, value);
    if !allowBounce || !allowFiveLaunch {
      movable := LegacyMovable(color, pieces, value, movable, allowBounce, allowFiveLaunch);
    }
    if |movable| != 0 {
      state := state.(phase := AwaitingMove, dice := value);
    } else if value != 6 {
      state := state.(next := color.Opposite());
    }
    var payload := RollAccepted(color, actor, value, movable, None);
    if !ValidState(state) {
      return Err(InvalidSnapshot);
    }
    return Ok(Applied(GameEvent(snapshot.revision + 1, actor, payload), GameSnapshot(snapshot.revision + 1, state)));
  }

  method Try(snapshot: Snap, actor: UserId, payload: Payload, options: (bool, bool)) returns (reply: Reply)
    ensures reply == Attempt(snapshot, actor, payload, options)
  {
    match payload
    case RollAccepted(_, _, value, _, _) =>
      reply := ApplyRollValueWithOptions(snapshot, actor, value, options.0, options.1);
    case MoveAccepted(_, _, pieceIndex, _, _, _, _, _) =>
      reply := ApplyMoveWithCrossing(snapshot, actor, pieceIndex, options.0, options.1);
  }

  /** The older rules in turn, up to the first that reproduces the payload. */
  method TryOlder(snapshot: Snap, actor: UserId, payload: Payload) returns (produced: Reply)
    ensures produced == Search(snapshot, actor, payload, 1)
  {
    hide Attempt;
    var options := Variants(payload);
    var k := 1;
    while true
      invariant 1 <= k < |options|
      invariant Search(snapshot, actor, payload, 1) == Search(snapshot, actor, payload, k)
      decreases |options| - k
    {
      produced := Try(snapshot, actor, payload, options[k]);
      if (produced.Ok? && produced.value.event.payload == payload) || k == |options| - 1 {
        break;
      }
      k := k + 1;
    }
  }

  /** Replays the log, trying the older rules on an event whose payload today's rule does not reproduce. */
  method Rebuild(events: seq<Event>) returns (result: Result<Snap, RuleError>)
    ensures result == Rebuilt(events)
  {
    hide ApplyRoll, ApplyMove, Attempt, Search, DecodesRoll, DecodesMove, InitialSnapshot;
    var snapshot := InitialSnapshot();
    for index := 0 to |events|
      invariant Rebuilt(events[..index]) == Ok(snapshot)
    {
      var persisted := events[index];
      assert events[..index + 1][..index] == events[..index];
      RebuiltPrefix(events, index + 1);
      var normalized := Normalize(persisted.payload);
      if normalized.None? || persisted.revision != index + 1
         || !(DecodesRoll(normalized.value) || DecodesMove(normalized.value))
         || normalized.value.user != persisted.actor {
        return Err(InvalidEvent);
      }
      var payload := normalized.value;
      var options := Variants(payload);
      var produced := Try(snapshot, persisted.actor, payload, options[0]);
      if produced.Ok? && produced.value.event.payload != payload {
        produced := TryOlder(snapshot, persisted.actor, payload);
      }
      if produced.Err? || produced.value.event.payload != payload || produced.value.event.revision != persisted.revision {
        return Err(InvalidEvent);
      }
      snapshot := produced.value.next;
    }
    assert events[..|events|] == events;
    return Ok(snapshot);
  }
}
