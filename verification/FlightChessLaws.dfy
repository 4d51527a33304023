/** Aeroplane chess read off its log: where a die takes a piece, whom it captures, whose turn follows,
    and from that exactly which requests a game accepts. */
module FlightChessLaws {
  import opened Common
  import opened FlightChess
  import opened FlightChessProofs
  import opened FlightChessRuns

  // --------------------------------------------------------------------- where a piece stands

  function Cell(c: Color, n: int): Piece {
    Piece(Main, ((if c.Black? then 26 else 0) + n - 1) % 52)
  }

  /** The piece has gone `n` cells: none on its launch pad, up to 50 on the track, five more along its
      own lane, and it is in at 56. */
  predicate Stands(c: Color, piece: Piece, n: int) {
    if n == 0 then piece == Piece(Launch, 0)
    else if 1 <= n <= 50 then piece == Cell(c, n)
    else if 51 <= n <= 55 then piece == Piece(Home, n - 51)
    else n == 56 && piece == Piece(Finished, 0)
  }

  /** Every fourth cell of a piece's way, from the second on, has its own colour. */
  predicate OwnColoured(n: int) {
    n % 4 == 2
  }

  /** Where the die takes a piece that has gone `n` cells. On the track it touches down `roll` cells
      further on; from an own-coloured cell before the fiftieth it jumps on by four; and from the
      eighteenth, reached by the die or by such a jump, the shortcut takes it to the thirtieth.
      Along the lane it moves plainly, and what the die has left over at the end it moves back. */
  predicate Lands(c: Color, n: int, roll: int, to: Piece, effect: Effect) {
    var t := n + roll;
    if t > 50 then Stands(c, to, if t <= 56 then t else 112 - t) && effect == NoEffect
    else if t == 18 then Stands(c, to, 30) && effect == Shortcut
    else if t + 4 == 18 then Stands(c, to, 30) && effect == JumpShortcut
    else if OwnColoured(t) && t < 50 then Stands(c, to, t + 4) && effect == Jump
    else Stands(c, to, t) && effect == NoEffect
  }

  /** A piece leaves the hangar for the launch pad on a five or a six, and then goes its way. */
  ghost predicate Goes(c: Color, from: Piece, roll: int, to: Piece, effect: Effect) {
    if from.zone == Hangar then (roll == 5 || roll == 6) && to == Piece(Launch, 0) && effect == NoEffect
    else exists n :: 0 <= n <= 55 && Stands(c, from, n) && Lands(c, n, roll, to, effect)
  }

  lemma StandsOnce(c: Color, piece: Piece, n: int, m: int)
    requires Stands(c, piece, n) && Stands(c, piece, m)
    ensures n == m
  {
    if 1 <= n <= 50 {
      ProgressOfIndex(c, n);
    }
    if 1 <= m <= 50 {
      ProgressOfIndex(c, m);
    }
    assert forall k :: Cell(c, k) == Piece(Main, IndexForProgress(c, k));
    hide IndexForProgress, ProgressForIndex;
  }

  lemma EveryPieceStands(c: Color, piece: Piece, slot: int) returns (n: int)
    requires WellPlaced(c, piece, slot) && piece.zone != Hangar
    ensures 0 <= n <= 56 && Stands(c, piece, n)
    ensures piece.zone == Finished <==> n == 56
    ensures piece.zone == Launch <==> n == 0
    ensures piece.zone == Main ==> ProgressForIndex(c, piece.index) == Some(n)
  {
    match piece.zone {
      case Launch => n := 0;
      case Main =>
        IndexOfProgress(c, piece.index);
        n := ProgressForIndex(c, piece.index).value;
      case Home => n := piece.index + 51;
      case Finished => n := 56;
    }
  }

  lemma ResolvedGoes(c: Color, from: Piece, slot: int, roll: int)
    requires WellPlaced(c, from, slot) && 1 <= roll <= 6
    ensures var r := ResolveMove(c, from, roll);
      && (r.Some? <==> CanMove(from, roll))
      && (r.Some? ==> Goes(c, from, roll, r.value.to, r.value.effect))
  {
    if from.zone != Hangar {
      var n := EveryPieceStands(c, from, slot);
      hide ProgressForIndex;
      if n < 56 {
        ResolvedLands(c, from, n, roll);
      }
    }
  }

  lemma ResolvedLands(c: Color, from: Piece, n: int, roll: int)
    requires 0 <= n <= 55 && Stands(c, from, n) && 1 <= roll <= 6 && from.zone in {Launch, Main, Home}
    requires from.zone == Main ==> ProgressForIndex(c, from.index) == Some(n)
    requires from.zone == Launch <==> n == 0
    ensures var r := ResolveMove(c, from, roll); r.Some? && Lands(c, n, roll, r.value.to, r.value.effect)
  {
    hide ProgressForIndex;
    if from.zone == Home {
      assert n == from.index + 51;
    } else {
      assert n <= 50;
      assert ResolveMove(c, from, roll) == ResolveProgress(c, n + roll);
      hide ResolveMove;
      ProgressLands(c, n, roll);
    }
    hide Cell;
  }

  lemma ProgressLands(c: Color, n: int, roll: int)
    requires 0 <= n <= 50 && 1 <= roll <= 6
    ensures var r := ResolveProgress(c, n + roll); r.Some? && Lands(c, n, roll, r.value.to, r.value.effect)
  {
    CellOfProgress(c, n + roll);
    CellOfProgress(c, n + roll + 4);
    CellOfProgress(c, 30);
    hide Cell, IndexForProgress;
  }

  lemma CellOfProgress(c: Color, n: int)
    ensures Cell(c, n) == Piece(Main, IndexForProgress(c, n))
  {
  }

  /** A piece can move with this die unless it is in, or in the hangar and the die shows neither five nor six. */
  predicate CanMove(piece: Piece, roll: int) {
    piece.zone != Finished && (piece.zone == Hangar ==> roll == 5 || roll == 6)
  }

  // ----------------------------------------------------------------------- what it captures

  /** The cells of the track a piece touches down on, counted along its way. */
  function TouchDowns(n: int, roll: int): set<int> {
    var t := n + roll;
    if t > 50 then {}
    else if t == 18 then {18, 30}
    else if t == 14 then {14, 18, 30}
    else if OwnColoured(t) && t < 50 then {t, t + 4}
    else {t}
  }

  /** Today's rule: a move strikes what stands where it touches down, and its shortcut what stands on
      the third cell of the other colour's lane. An older rule spared that lane; an older one still
      struck only on the move's last cell. */
  predicate Strikes(c: Color, n: int, roll: int, landings: bool, crossing: bool, piece: Piece) {
    var touched := TouchDowns(n, roll);
    || (exists k :: k in touched && (landings || forall m :: m in touched ==> m <= k) && piece == Cell(c, k))
    || (crossing && (n + roll == 14 || n + roll == 18) && piece == Piece(Home, 2))
  }

  lemma EffectOfLanding(c: Color, n: int, roll: int, to: Piece, effect: Effect)
    requires 0 <= n <= 50 && 1 <= roll <= 6 && n + roll <= 50 && Lands(c, n, roll, to, effect)
    ensures to.zone == Main
    ensures effect == NoEffect ==> TouchDowns(n, roll) == {n + roll} && to == Cell(c, n + roll) && n + roll != 18 && n + roll != 14
    ensures effect == Jump ==> TouchDowns(n, roll) == {n + roll, n + roll + 4} && to == Cell(c, n + roll + 4) && n + roll != 18 && n + roll != 14
    ensures effect == Shortcut ==> TouchDowns(n, roll) == {18, 30} && to == Cell(c, 30) && n + roll == 18
    ensures effect == JumpShortcut ==> TouchDowns(n, roll) == {14, 18, 30} && to == Cell(c, 30) && n + roll == 14
  {
    hide Cell;
    if n + roll + 4 <= 50 {
      assert Stands(c, to, n + roll + 4) ==> to == Cell(c, n + roll + 4);
    }
    CellIsMain(c, n + roll);
    CellIsMain(c, n + roll + 4);
    CellIsMain(c, 30);
  }

  lemma CellIsMain(c: Color, n: int)
    ensures Cell(c, n).zone == Main
  {
  }

  lemma CellBack(c: Color, n: int, k: int)
    requires 1 <= k <= n <= 50
    ensures Back(Cell(c, n), n - k) == Cell(c, k)
  {
    if c.Black? {
      CellNumber(n);
      CellNumber(k);
    }
  }

  lemma CellNumber(n: int)
    requires 1 <= n <= 50
    ensures (26 + n - 1) % 52 == if n <= 26 then n + 25 else n - 27
  {
  }

  /** The cells the rules look at are the ones struck. */
  lemma DestinationsStrike(c: Color, n: int, roll: int, r: Resolution, landings: bool, crossing: bool, piece: Piece)
    requires 0 <= n <= 55 && 1 <= roll <= 6 && Lands(c, n, roll, r.to, r.effect) && (piece.zone == Main || piece.zone == Home)
    ensures Hit(piece, Destinations(r, landings, crossing)) <==> Strikes(c, n, roll, landings, crossing, piece)
  {
    var t := n + roll;
    if t <= 50 {
      EffectOfLanding(c, n, roll, r.to, r.effect);
      TrackStrike(c, n, roll, r, landings, crossing, piece);
    }
    hide Cell;
  }

  lemma TrackStrike(c: Color, n: int, roll: int, r: Resolution, landings: bool, crossing: bool, piece: Piece)
    requires 0 <= n && 1 <= roll <= 6 && n + roll <= 50 && r.to.zone == Main && (piece.zone == Main || piece.zone == Home)
    requires match r.effect
             case NoEffect => TouchDowns(n, roll) == {n + roll} && r.to == Cell(c, n + roll) && n + roll != 18 && n + roll != 14
             case Jump => TouchDowns(n, roll) == {n + roll, n + roll + 4} && r.to == Cell(c, n + roll + 4) && n + roll + 4 <= 50 && n + roll != 18 && n + roll != 14
             case Shortcut => TouchDowns(n, roll) == {18, 30} && r.to == Cell(c, 30) && n + roll == 18
             case JumpShortcut => TouchDowns(n, roll) == {14, 18, 30} && r.to == Cell(c, 30) && n + roll == 14
    ensures Hit(piece, Destinations(r, landings, crossing)) <==> Strikes(c, n, roll, landings, crossing, piece)
  {
    match r.effect
    case NoEffect => CellBack(c, n + roll, n + roll); hide Cell, Back, TouchDowns;
    case Jump =>
      CellBack(c, n + roll + 4, n + roll + 4);
      CellBack(c, n + roll + 4, n + roll);
      hide Cell, Back, TouchDowns;
    case Shortcut =>
      CellBack(c, 30, 30);
      CellBack(c, 30, 18);
      hide Cell, Back, TouchDowns;
    case JumpShortcut =>
      CellBack(c, 30, 30);
      CellBack(c, 30, 18);
      CellBack(c, 30, 14);
      hide Cell, Back, TouchDowns;
  }

  /** A move from the hangar or out of sight of the track strikes nothing. */
  ghost predicate Struck(c: Color, from: Piece, roll: int, landings: bool, crossing: bool, piece: Piece) {
    (piece.zone == Main || piece.zone == Home)
    && exists n :: 0 <= n <= 55 && Stands(c, from, n) && Strikes(c, n, roll, landings, crossing, piece)
  }

  lemma HitMeansStruck(c: Color, from: Piece, slot: int, roll: int, r: Resolution, landings: bool, crossing: bool, piece: Piece)
    requires WellPlaced(c, from, slot) && 1 <= roll <= 6 && ResolveMove(c, from, roll) == Some(r)
    ensures Hit(piece, Destinations(r, landings, crossing)) <==> Struck(c, from, roll, landings, crossing, piece)
  {
    hide Destinations, Strikes, Lands, ProgressForIndex, ResolveProgress, ResolveMainProgress;
    if from.zone == Hangar {
      NothingFromTheHangar(c, from, r, landings, crossing);
    } else {
      ResolvedGoes(c, from, slot, roll);
      var n :| 0 <= n <= 55 && Stands(c, from, n) && Lands(c, n, roll, r.to, r.effect);
      if piece.zone == Main || piece.zone == Home {
        DestinationsStrike(c, n, roll, r, landings, crossing, piece);
      }
      forall m | 0 <= m <= 55 && Stands(c, from, m) ensures m == n {
        StandsOnce(c, from, n, m);
      }
    }
    hide ResolveMove, Stands;
  }

  lemma NothingFromTheHangar(c: Color, from: Piece, r: Resolution, landings: bool, crossing: bool)
    requires from.zone == Hangar && (exists roll :: ResolveMove(c, from, roll) == Some(r))
    ensures Destinations(r, landings, crossing) == [] && forall n :: !Stands(c, from, n)
  {
  }

  // ------------------------------------------------------------------------- one event

  predicate Ascends(indices: seq<int>) {
    forall i, j :: 0 <= i < j < |indices| ==> indices[i] < indices[j]
  }

  /** A six keeps the turn, until all the mover's pieces are in, which wins. */
  predicate TurnAfterMove(s: State, actor: UserId, t: State) {
    && |t.pieces.Of(s.next)| == 4 && t.phase == AwaitingRoll && t.dice == 0
    && (!t.active <==> forall i :: 0 <= i < 4 ==> t.pieces.Of(s.next)[i].zone == Finished)
    && (if t.active then t.winner.None? && t.result.None? && t.next == (if s.dice == 6 then s.next else s.next.Opposite())
        else t.winner == Some(actor) && t.result == Some(Goal))
  }

  /** The captured pieces are back in their hangar slots, and counted. */
  predicate BoardAfterMove(s: State, pieceIndex: int, to: Piece, captured: seq<int>, t: State) {
    var c, enemy := s.next, s.next.Opposite();
    && |s.pieces.Of(c)| == |s.pieces.Of(enemy)| == |t.pieces.Of(enemy)| == 4 && 0 <= pieceIndex < 4
    && t.pieces.Of(c) == s.pieces.Of(c)[pieceIndex := to]
    && (forall i :: 0 <= i < 4 ==> t.pieces.Of(enemy)[i] == if i in captured then Piece(Hangar, i) else s.pieces.Of(enemy)[i])
    && t.captures.Of(c) == s.captures.Of(c) + |captured| && t.captures.Of(enemy) == s.captures.Of(enemy)
  }

  /** What a logged move says, and what it leaves: the moved piece goes where the die takes it, the
      struck pieces are sent back and counted, nothing else moves; the mover has won exactly if all
      four pieces are in, and otherwise a six keeps the turn. */
  ghost predicate MoveTold(s: State, actor: UserId, p: Payload, t: State, landings: bool, crossing: bool) {
    && p.MoveAccepted? && p.color == s.next && p.user == actor && p.roll == s.dice
    && BoardAfterMove(s, p.pieceIndex, p.to, p.captured, t) && TurnAfterMove(s, actor, t)
    && p.from == s.pieces.Of(s.next)[p.pieceIndex] && Goes(s.next, p.from, p.roll, p.to, p.effect)
    && Ascends(p.captured)
    && (forall i :: i in p.captured <==> 0 <= i < 4 && Struck(s.next, p.from, p.roll, landings, crossing, s.pieces.Of(s.next.Opposite())[i]))
  }

  /** Every logged move, under today's rule and under both older ones. */
  lemma EveryMoveIsTold(snap: Snap, actor: UserId, pieceIndex: int, landings: bool, crossing: bool)
    requires ApplyMove(snap, actor, pieceIndex, landings, crossing).Ok?
    ensures var a := ApplyMove(snap, actor, pieceIndex, landings, crossing).value;
      MoveTold(snap.state, actor, a.event.payload, a.next.state, landings, crossing) && a.event.payload.pieceIndex == pieceIndex
  {
    hide ResolveMove, Destinations, CapturedSlots, Goes, Struck, ValidState, ApplyMove, AfterMove, BoardAfterMove, TurnAfterMove, Ascends, Bind,
      WellPlaced;
    AppliedMove(snap, actor, pieceIndex, landings, crossing);
    OwnPlace(snap.state, pieceIndex);
    var s := Bind(snap.state, actor).value;
    var from, enemy := s.pieces.Of(s.next)[pieceIndex], s.pieces.Of(s.next.Opposite());
    var r := ResolveMove(s.next, from, s.dice).value;
    var destinations := Destinations(r, landings, crossing);
    ResolvedGoes(s.next, from, pieceIndex, s.dice);
    CapturesAreStruck(s.next, from, pieceIndex, s.dice, r, landings, crossing, enemy);
    BoardOf(s, actor, pieceIndex, r.to, destinations);
    TurnOf(s, actor, pieceIndex, r.to, destinations);
    SameButSeats(snap.state, s, actor, pieceIndex, r.to, CapturedSlots(enemy, destinations, 4), AfterMove(s, actor, pieceIndex, r.to, destinations));
  }

  lemma SameButSeats(s: State, bound: State, actor: UserId, pieceIndex: int, to: Piece, captured: seq<int>, t: State)
    requires bound == s.(users := bound.users)
    ensures BoardAfterMove(s, pieceIndex, to, captured, t) == BoardAfterMove(bound, pieceIndex, to, captured, t)
    ensures TurnAfterMove(s, actor, t) == TurnAfterMove(bound, actor, t)
  {
  }

  lemma AppliedMove(snap: Snap, actor: UserId, pieceIndex: int, landings: bool, crossing: bool)
    requires ApplyMove(snap, actor, pieceIndex, landings, crossing).Ok?
    ensures ValidState(snap.state) && snap.state.active && snap.state.phase == AwaitingMove && Bind(snap.state, actor).Ok?
    ensures var s := Bind(snap.state, actor).value;
      && s == snap.state.(users := s.users) && |s.pieces.black| == |s.pieces.white| == 4 && 0 <= pieceIndex < 4
      && ResolveMove(s.next, s.pieces.Of(s.next)[pieceIndex], s.dice).Some?
    ensures var s, a := Bind(snap.state, actor).value, ApplyMove(snap, actor, pieceIndex, landings, crossing).value;
      var from, enemy := s.pieces.Of(s.next)[pieceIndex], s.pieces.Of(s.next.Opposite());
      var r := ResolveMove(s.next, from, s.dice).value;
      var destinations := Destinations(r, landings, crossing);
      && a.event.payload == MoveAccepted(s.next, actor, pieceIndex, s.dice, from, r.to, r.effect, CapturedSlots(enemy, destinations, 4))
      && a.next.state == AfterMove(s, actor, pieceIndex, r.to, destinations)
  {
    PiecesOf(snap.state);
    hide ResolveMove, Destinations, CapturedSlots, ValidState, AfterMove;
  }

  lemma CapturesAreStruck(c: Color, from: Piece, slot: int, roll: int, r: Resolution, landings: bool, crossing: bool, enemy: seq<Piece>)
    requires WellPlaced(c, from, slot) && 1 <= roll <= 6 && ResolveMove(c, from, roll) == Some(r) && |enemy| == 4
    ensures var captured := CapturedSlots(enemy, Destinations(r, landings, crossing), 4);
      Ascends(captured) && forall i :: i in captured <==> 0 <= i < 4 && Struck(c, from, roll, landings, crossing, enemy[i])
  {
    CapturedSlotsSpec(enemy, Destinations(r, landings, crossing), 4);
    forall i | 0 <= i < 4 ensures Hit(enemy[i], Destinations(r, landings, crossing)) <==> Struck(c, from, roll, landings, crossing, enemy[i]) {
      HitMeansStruck(c, from, slot, roll, r, landings, crossing, enemy[i]);
    }
    hide CapturedSlots, Destinations, ResolveMove, WellPlaced, Struck, Hit;
  }

  lemma BoardOf(s: State, actor: UserId, pieceIndex: int, to: Piece, destinations: seq<Piece>)
    requires |s.pieces.black| == |s.pieces.white| == 4 && 0 <= pieceIndex < 4
    ensures BoardAfterMove(s, pieceIndex, to, CapturedSlots(s.pieces.Of(s.next.Opposite()), destinations, 4), AfterMove(s, actor, pieceIndex, to, destinations))
  {
    CapturedSlotsSpec(s.pieces.Of(s.next.Opposite()), destinations, 4);
    hide CapturedSlots, Hit, AllFinished;
  }

  lemma TurnOf(s: State, actor: UserId, pieceIndex: int, to: Piece, destinations: seq<Piece>)
    requires |s.pieces.black| == |s.pieces.white| == 4 && 0 <= pieceIndex < 4 && s.active && s.winner.None? && s.result.None?
    ensures TurnAfterMove(s, actor, AfterMove(s, actor, pieceIndex, to, destinations))
  {
    hide CapturedSlots, SentHome;
  }

  lemma OwnPlace(s: State, slot: int)
    requires ValidState(s) && 0 <= slot < 4
    ensures |s.pieces.black| == |s.pieces.white| == 4 && WellPlaced(s.next, s.pieces.Of(s.next)[slot], slot)
    ensures s.active ==> s.winner.None? && s.result.None?
    ensures s.phase == AwaitingMove ==> 1 <= s.dice <= 6
  {
    hide MovableSlots, ProgressForIndex;
    assert s.next.Black? || s.next.White?;
  }

  /** What a logged roll says, and what it leaves: the pieces that can move; the same player moves
      one of them, or, when there is none, only a six keeps the turn. */
  ghost predicate RollTold(s: State, actor: UserId, p: Payload, t: State, allowBounce: bool, allowFiveLaunch: bool) {
    var pieces := s.pieces.Of(s.next);
    && p.RollAccepted? && p.color == s.next && p.user == actor && 1 <= p.value <= 6 && |pieces| == 4
    && Ascends(p.movable)
    && (forall i :: i in p.movable <==> 0 <= i < 4 && Listed(pieces[i], p.value, allowBounce, allowFiveLaunch))
    && t.pieces == s.pieces && t.captures == s.captures && t.active && t.winner.None? && t.result.None?
    && (if p.movable != [] then t.phase == AwaitingMove && t.dice == p.value && t.next == s.next
        else t.phase == AwaitingRoll && t.dice == 0 && t.next == (if p.value == 6 then s.next else s.next.Opposite()))
  }

  lemma EveryRollIsTold(snap: Snap, actor: UserId, value: int, allowBounce: bool, allowFiveLaunch: bool)
    requires ApplyRoll(snap, actor, value, allowBounce, allowFiveLaunch).Ok?
    ensures var a := ApplyRoll(snap, actor, value, allowBounce, allowFiveLaunch).value;
      RollTold(snap.state, actor, a.event.payload, a.next.state, allowBounce, allowFiveLaunch) && a.event.payload.value == value
  {
    hide ApplyRoll, Bind, ValidState, MovableSlots, Listed, Ascends, WellPlaced;
    AppliedRoll(snap, actor, value, allowBounce, allowFiveLaunch);
    OwnPlace(snap.state, 0);
    ListedCanMove(snap.state, value, allowBounce, allowFiveLaunch);
  }

  lemma AppliedRoll(snap: Snap, actor: UserId, value: int, allowBounce: bool, allowFiveLaunch: bool)
    requires ApplyRoll(snap, actor, value, allowBounce, allowFiveLaunch).Ok?
    ensures ValidState(snap.state) && snap.state.active && snap.state.phase == AwaitingRoll && snap.state.dice == 0 && 1 <= value <= 6
    ensures Bind(snap.state, actor).Ok? && |snap.state.pieces.black| == |snap.state.pieces.white| == 4
    ensures var s, a := Bind(snap.state, actor).value, ApplyRoll(snap, actor, value, allowBounce, allowFiveLaunch).value;
      var movable := MovableSlots(s.next, s.pieces.Of(s.next), value, allowBounce, allowFiveLaunch, 4);
      && s == snap.state.(users := s.users)
      && a.event.payload == RollAccepted(s.next, actor, value, movable, None) && a.next.state == AfterRoll(s, value, movable)
  {
    PiecesOf(snap.state);
    hide ResolveMove, MovableSlots, AfterRoll, ValidPieces;
  }

  predicate Listed(piece: Piece, value: int, allowBounce: bool, allowFiveLaunch: bool) {
    && CanMove(piece, value)
    && (allowBounce || !(piece.zone == Home && piece.index + value > 5))
    && (allowFiveLaunch || !(piece.zone == Hangar && value == 5))
  }

  lemma ListedCanMove(s: State, value: int, allowBounce: bool, allowFiveLaunch: bool)
    requires ValidState(s) && 1 <= value <= 6 && |s.pieces.black| == |s.pieces.white| == 4
    ensures var pieces := s.pieces.Of(s.next);
      var movable := MovableSlots(s.next, pieces, value, allowBounce, allowFiveLaunch, 4);
      Ascends(movable) && forall i :: i in movable <==> 0 <= i < 4 && Listed(pieces[i], value, allowBounce, allowFiveLaunch)
  {
    var pieces := s.pieces.Of(s.next);
    MovableSlotsSpec(s.next, pieces, value, allowBounce, allowFiveLaunch, 4);
    forall i | 0 <= i < 4
      ensures Movable(s.next, pieces[i], value, allowBounce, allowFiveLaunch) <==> Listed(pieces[i], value, allowBounce, allowFiveLaunch)
    {
      OwnPlace(s, i);
      ResolvedGoes(s.next, pieces[i], i, value);
      hide ResolveMove, Goes, CanMove;
    }
    hide MovableSlots, Movable, Listed, ValidState;
  }

  // ------------------------------------------------------------------------ whole games

  /** What a log leaves to be done: black rolls first; a roll that lets a piece move is followed by the
      same player's move; after that, or when nothing can move, the turn passes unless a six was rolled. */
  datatype Due = Due(phase: Phase, color: Color, dice: int)

  function DueAfter(log: seq<Event>): Due {
    if log == [] then Due(AwaitingRoll, Black, 0)
    else match log[|log| - 1].payload
      case RollAccepted(c, _, value, movable, _) =>
        if movable != [] then Due(AwaitingMove, c, value) else Due(AwaitingRoll, if value == 6 then c else c.Opposite(), 0)
      case MoveAccepted(c, _, _, roll, _, _, _, _) => Due(AwaitingRoll, if roll == 6 then c else c.Opposite(), 0)
  }

  /** Whoever has played this colour so far is this player, and whoever has not is not. */
  ghost predicate SeatFits(log: seq<Event>, c: Color, actor: UserId) {
    forall i :: 0 <= i < |log| ==> (log[i].payload.color == c <==> log[i].actor == actor)
  }

  ghost predicate InStep(g: Game) {
    var s := g.snap.state;
    && (s.active ==> Due(s.phase, s.next, s.dice) == DueAfter(g.log))
    && (forall i :: 0 <= i < |g.log| ==> s.users.Of(g.log[i].payload.color) == Some(g.log[i].actor))
    && (forall c: Color :: s.users.Of(c).Some? ==> exists i :: 0 <= i < |g.log| && g.log[i].payload.color == c)
    && (s.users.black.None? || s.users.white.None? || s.users.black != s.users.white)
  }

  lemma BindsIfSeatFits(g: Game, actor: UserId)
    requires InStep(g)
    ensures Bind(g.snap.state, actor).Ok? <==> SeatFits(g.log, g.snap.state.next, actor)
  {
    var s := g.snap.state;
    assert s.next.Opposite() != s.next;
    if SeatFits(g.log, s.next, actor) && s.users.Of(s.next).Some? {
      var i :| 0 <= i < |g.log| && g.log[i].payload.color == s.next;
    }
    if SeatFits(g.log, s.next, actor) && s.users.Of(s.next.Opposite()).Some? {
      var i :| 0 <= i < |g.log| && g.log[i].payload.color == s.next.Opposite();
    }
    if Bind(s, actor).Ok? {
      forall i | 0 <= i < |g.log| ensures g.log[i].payload.color == s.next <==> g.log[i].actor == actor {
        assert s.users.Of(g.log[i].payload.color) == Some(g.log[i].actor);
      }
    }
  }

  // An accepted request seats its actor, and leaves what its event says is due.
  lemma AnswerSeats(snap: Snap, r: Request)
    requires Answer(snap, r).Ok?
    ensures var a := Answer(snap, r).value;
      && snap.state.active && Bind(snap.state, r.actor).Ok?
      && a.event.actor == r.actor && a.event.payload.color == snap.state.next
      && a.next.state.users == snap.state.users.With(snap.state.next, Some(r.actor))
      && (a.next.state.active ==> Due(a.next.state.phase, a.next.state.next, a.next.state.dice) == DueAfter([a.event]))
  {
    hide ApplyRoll, ApplyMove, Bind, Goes, Struck, Ascends, Listed, CanMove, MovableSlots, AfterMove, ResolveMove, ValidState, Destinations,
      CapturedSlots;
    BoundSeats(snap.state, r.actor);
    match r {
      case Roll(actor, value, allowBounce, allowFiveLaunch, _) =>
        AppliedRoll(snap, actor, value, allowBounce, allowFiveLaunch);
        EveryRollIsTold(snap, actor, value, allowBounce, allowFiveLaunch);
        RollEvent(snap, actor, value, allowBounce, allowFiveLaunch);
      case Move(actor, pieceIndex, rule) =>
        AppliedMove(snap, actor, pieceIndex, rule.Options().0, rule.Options().1);
        EveryMoveIsTold(snap, actor, pieceIndex, rule.Options().0, rule.Options().1);
        MoveEvent(snap, actor, pieceIndex, rule.Options().0, rule.Options().1);
    }
  }

  lemma BoundSeats(s: State, actor: UserId)
    ensures Bind(s, actor).Ok? ==> Bind(s, actor).value.users == s.users.With(s.next, Some(actor))
  {
  }

  lemma RollEvent(snap: Snap, actor: UserId, value: int, allowBounce: bool, allowFiveLaunch: bool)
    requires ApplyRoll(snap, actor, value, allowBounce, allowFiveLaunch).Ok?
    ensures var a := ApplyRoll(snap, actor, value, allowBounce, allowFiveLaunch).value;
      && a.event.actor == actor && Bind(snap.state, actor).Ok? && a.next.state.users == Bind(snap.state, actor).value.users
      && a.event.payload.RollAccepted? && a.event.payload.penalty == None
  {
    hide MovableSlots, ValidState, Bind;
  }

  lemma MoveEvent(snap: Snap, actor: UserId, pieceIndex: int, landings: bool, crossing: bool)
    requires ApplyMove(snap, actor, pieceIndex, landings, crossing).Ok?
    ensures var a := ApplyMove(snap, actor, pieceIndex, landings, crossing).value;
      a.event.actor == actor && Bind(snap.state, actor).Ok? && a.next.state.users == Bind(snap.state, actor).value.users
  {
    PiecesOf(snap.state);
    hide ResolveMove, CapturedSlots, SentHome, Destinations, ValidState, AllFinished;
  }

  lemma StepStaysInStep(g: Game, r: Request)
    requires InStep(g)
    ensures InStep(Step(g, r))
  {
    hide Answer, Bind;
    if Answer(g.snap, r).Ok? {
      AnswerSeats(g.snap, r);
      BindsIfSeatFits(g, r.actor);
      NextInStep(g, Answer(g.snap, r).value, r.actor);
    }
  }

  lemma NextInStep(g: Game, a: Applied<State, Payload>, actor: UserId)
    requires InStep(g) && SeatFits(g.log, g.snap.state.next, actor)
    requires a.event.actor == actor && a.event.payload.color == g.snap.state.next
    requires a.next.state.users == g.snap.state.users.With(g.snap.state.next, Some(actor))
    requires a.next.state.active ==> Due(a.next.state.phase, a.next.state.next, a.next.state.dice) == DueAfter([a.event])
    ensures InStep(Game(g.log + [a.event], a.next))
  {
    var s, t, log := g.snap.state, a.next.state, g.log + [a.event];
    assert s.next.Opposite() != s.next;
    forall i | 0 <= i < |log| ensures t.users.Of(log[i].payload.color) == Some(log[i].actor) {
      assert i < |g.log| ==> log[i] == g.log[i];
    }
    forall c: Color | t.users.Of(c).Some? ensures exists i :: 0 <= i < |log| && log[i].payload.color == c {
      if c == s.next {
        assert log[|g.log|].payload.color == c;
      } else {
        assert c == s.next.Opposite() && s.users.Of(c).Some?;
        var i :| 0 <= i < |g.log| && g.log[i].payload.color == c;
        assert log[i].payload.color == c;
      }
    }
    if t.users.Of(s.next.Opposite()).Some? {
      var i :| 0 <= i < |g.log| && g.log[i].payload.color == s.next.Opposite();
      assert g.log[i].actor != actor;
    }
  }

  lemma {:induction false} EveryGameIsInStep(requests: seq<Request>)
    ensures InStep(Play(requests))
  {
    hide InStep, Step;
    if requests == [] {
      NothingPlayed();
    } else {
      EveryGameIsInStep(requests[..|requests| - 1]);
      StepStaysInStep(Play(requests[..|requests| - 1]), requests[|requests| - 1]);
    }
  }

  lemma NothingPlayed()
    ensures InStep(Game([], InitialSnapshot()))
  {
  }

  /** A side has brought all its pieces in. */
  predicate AllIn(s: State) {
    exists c: Color :: |s.pieces.Of(c)| == 4 && forall i :: 0 <= i < 4 ==> s.pieces.Of(c)[i].zone == Finished
  }

  /** In any game, under whatever mixture of rules so far, a die is accepted from exactly the player whose
      roll the log leaves due, until a side has all its pieces in. */
  lemma RollAcceptedExactlyWhenDue(requests: seq<Request>, actor: UserId, value: int)
    ensures var g := Play(requests);
      var due := DueAfter(g.log);
      && (ApplyRoll(g.snap, actor, value, true, true).Ok? <==>
            1 <= value <= 6 && !AllIn(g.snap.state) && due.phase == AwaitingRoll && SeatFits(g.log, due.color, actor))
      && (g.snap.state.active <==> !AllIn(g.snap.state))
  {
    var g := Play(requests);
    EveryGameIsInStep(requests);
    SoundGame(requests);
    OverWhenAllIn(g.snap.state);
    hide Play, InStep, ValidState, AllIn, DueAfter, SeatFits, Bind;
    if g.snap.state.active {
      DueIsDue(g);
      BindsIfSeatFits(g, actor);
    }
    if ApplyRoll(g.snap, actor, value, true, true).Ok? {
      AppliedRoll(g.snap, actor, value, true, true);
    } else if g.snap.state.active && g.snap.state.phase == AwaitingRoll && 1 <= value <= 6 && Bind(g.snap.state, actor).Ok? {
      EveryRollIsAccepted(g.snap, actor, value, true, true);
    }
  }

  lemma DueIsDue(g: Game)
    requires InStep(g) && g.snap.state.active
    ensures Due(g.snap.state.phase, g.snap.state.next, g.snap.state.dice) == DueAfter(g.log)
  {
  }

  lemma SoundGame(requests: seq<Request>)
    ensures var g := Play(requests); ValidState(g.snap.state) && g.snap.revision == |g.log|
  {
    EveryGameIsSound(requests);
    hide Play, ValidState, NoSharedCell, Balanced, Launches, Moves;
  }

  lemma OverWhenAllIn(s: State)
    requires ValidState(s)
    ensures s.active <==> !AllIn(s)
  {
    hide MovableSlots, ValidPieces;
    assert s.pieces.Of(Black) == s.pieces.black && s.pieces.Of(White) == s.pieces.white;
    if !s.active {
      var c := if AllFinished(s.pieces.black) then Black else White;
      assert |s.pieces.Of(c)| == 4;
    }
  }

  /** The enemy pieces that the move would strike. */
  ghost function StruckSlots(s: State, c: Color, pieceIndex: int, roll: int): set<int>
    requires |s.pieces.Of(c.Opposite())| == 4 && 0 <= pieceIndex < |s.pieces.Of(c)|
  {
    set i | 0 <= i < 4 && Struck(c, s.pieces.Of(c)[pieceIndex], roll, true, true, s.pieces.Of(c.Opposite())[i])
  }

  lemma {:induction false} AscendingCount(slots: seq<int>, all: set<int>)
    requires Ascends(slots) && forall i :: i in slots <==> i in all
    ensures |slots| == |all|
  {
    if slots == [] {
      assert forall i :: i in all ==> i in slots;
      assert all == {};
    } else {
      var front, last := slots[..|slots| - 1], slots[|slots| - 1];
      assert slots == front + [last] && last !in front;
      AscendingCount(front, all - {last});
    }
  }

  /** A move is accepted from exactly the player whose move is due, with a piece that the rolled die can
      move, as long as what it strikes keeps the mover's captures within the counter's cap. */
  lemma MoveAcceptedExactlyWhenDue(requests: seq<Request>, actor: UserId, pieceIndex: int)
    ensures var g := Play(requests);
      var s, due := g.snap.state, DueAfter(g.log);
      && |s.pieces.black| == |s.pieces.white| == 4
      && (ApplyMove(g.snap, actor, pieceIndex, true, true).Ok? <==>
            && !AllIn(s) && due.phase == AwaitingMove && SeatFits(g.log, due.color, actor)
            && 0 <= pieceIndex < 4 && CanMove(s.pieces.Of(due.color)[pieceIndex], due.dice)
            && s.captures.Of(due.color) + |StruckSlots(s, due.color, pieceIndex, due.dice)| <= 2048)
  {
    var g := Play(requests);
    EveryGameIsInStep(requests);
    SoundGame(requests);
    OverWhenAllIn(g.snap.state);
    PiecesOf(g.snap.state);
    hide Play, InStep, ValidState, AllIn, DueAfter, SeatFits, Bind, CanMove, ResolveMove, ApplyMove, CapturedSlots, Destinations, WellPlaced, Goes,
      StruckSlots;
    var s := g.snap.state;
    if s.active {
      DueIsDue(g);
      BindsIfSeatFits(g, actor);
      if 0 <= pieceIndex < 4 {
        OwnPlace(s, pieceIndex);
        if s.phase == AwaitingMove {
          ResolvedGoes(s.next, s.pieces.Of(s.next)[pieceIndex], pieceIndex, s.dice);
        }
      }
      if s.phase == AwaitingMove && Bind(s, actor).Ok? && 0 <= pieceIndex < 4 && CanMove(s.pieces.Of(s.next)[pieceIndex], s.dice) {
        BoundSeats(s, actor);
        BoundKeepsRest(s, actor);
        LegalMoveIsAccepted(g.snap, actor, pieceIndex, true, true);
        StruckAreCaptured(s, pieceIndex);
      }
    }
    if ApplyMove(g.snap, actor, pieceIndex, true, true).Ok? {
      AppliedMove(g.snap, actor, pieceIndex, true, true);
    }
  }

  lemma StruckAreCaptured(s: State, pieceIndex: int)
    requires |s.pieces.black| == |s.pieces.white| == 4 && 0 <= pieceIndex < 4 && 1 <= s.dice <= 6
    requires WellPlaced(s.next, s.pieces.Of(s.next)[pieceIndex], pieceIndex)
    requires ResolveMove(s.next, s.pieces.Of(s.next)[pieceIndex], s.dice).Some?
    ensures var r := ResolveMove(s.next, s.pieces.Of(s.next)[pieceIndex], s.dice).value;
      |CapturedSlots(s.pieces.Of(s.next.Opposite()), Destinations(r, true, true), 4)| == |StruckSlots(s, s.next, pieceIndex, s.dice)|
  {
    hide ResolveMove, Destinations, CapturedSlots, WellPlaced, Struck;
    var r := ResolveMove(s.next, s.pieces.Of(s.next)[pieceIndex], s.dice).value;
    var enemy := s.pieces.Of(s.next.Opposite());
    CapturesAreStruck(s.next, s.pieces.Of(s.next)[pieceIndex], pieceIndex, s.dice, r, true, true, enemy);
    AscendingCount(CapturedSlots(enemy, Destinations(r, true, true), 4), StruckSlots(s, s.next, pieceIndex, s.dice));
  }

  lemma BoundKeepsRest(s: State, actor: UserId)
    ensures Bind(s, actor).Ok? ==> Bind(s, actor).value == s.(users := Bind(s, actor).value.users)
  {
  }

  // ---------------------------------------------------------------------- only games replay

  // The request, and the rule, that an attempt stands for.
  function AttemptedBy(e: Event, k: int): Request
    requires 0 <= k < |Variants(e.payload)|
  {
    match e.payload
    case RollAccepted(_, _, value, _, penalty) => Roll(e.actor, value, ROLL_VARIANTS[k].0, ROLL_VARIANTS[k].1, penalty.Some?)
    case MoveAccepted(_, _, pieceIndex, _, _, _, _, _) =>
      Move(e.actor, pieceIndex, if k == 0 then Today else if k == 1 then LandingsOnly else DestinationOnly)
  }

  lemma {:induction false} SearchFinds(snap: Snap, actor: UserId, payload: Payload, k: nat) returns (found: nat)
    requires k < |Variants(payload)| && Matches(Search(snap, actor, payload, k), payload)
    ensures k <= found < |Variants(payload)| && Attempt(snap, actor, payload, Variants(payload)[found]) == Search(snap, actor, payload, k)
    decreases |Variants(payload)| - k
  {
    hide Attempt;
    var reply := Attempt(snap, actor, payload, Variants(payload)[k]);
    if Matches(reply, payload) || k == |Variants(payload)| - 1 {
      found := k;
    } else {
      found := SearchFinds(snap, actor, payload, k + 1);
    }
  }

  lemma ReplayedOnce(snap: Snap, e: Event) returns (r: Request)
    requires ReplayEvent(snap, e).Ok?
    ensures Answer(snap, r) == Ok(Applied(e, ReplayEvent(snap, e).value))
  {
    hide ApplyRoll, ApplyMove, Search, DecodesRoll, DecodesMove;
    var p := Normalize(e.payload).value;
    var first := Attempt(snap, e.actor, p, Variants(p)[0]);
    var k := 0;
    if first.Ok? && !Matches(first, p) {
      k := SearchFinds(snap, e.actor, p, 1);
    }
    AttemptAnswers(snap, e, p, k);
    r := AttemptedBy(e, k);
  }

  lemma AttemptAnswers(snap: Snap, e: Event, p: Payload, k: nat)
    requires Normalize(e.payload) == Some(p) && k < |Variants(p)|
    requires var reply := Attempt(snap, e.actor, p, Variants(p)[k]); Matches(reply, p) && reply.value.event.revision == e.revision
    ensures k < |Variants(e.payload)|
    ensures Answer(snap, AttemptedBy(e, k)) == Ok(Applied(e, Attempt(snap, e.actor, p, Variants(p)[k]).value.next))
  {
    hide ApplyRoll, ApplyMove;
    match p {
      case RollAccepted(_, _, value, _, _) =>
        assert ROLL_VARIANTS[k] == Variants(p)[k];
        RollEvent(snap, e.actor, value, ROLL_VARIANTS[k].0, ROLL_VARIANTS[k].1);
      case MoveAccepted(_, _, pieceIndex, _, _, _, _, _) =>
        assert MOVE_VARIANTS[k] == Variants(p)[k];
        MoveEvent(snap, e.actor, pieceIndex, MOVE_VARIANTS[k].0, MOVE_VARIANTS[k].1);
    }
  }

  /** Replay accepts nothing that was not played: a log that replays is the log of a game, in which its
      players made just these rolls and moves, each under some rule that was once in force, and it
      replays to the position of that game. */
  lemma {:induction false} ReplayedWasPlayed(events: seq<Event>) returns (requests: seq<Request>)
    requires Rebuilt(events).Ok?
    ensures Play(requests) == Game(events, Rebuilt(events).value) && |requests| == |events|
  {
    hide Answer, ReplayEvent, InitialSnapshot;
    if events == [] {
      requests := [];
    } else {
      var front, e := events[..|events| - 1], events[|events| - 1];
      requests := ReplayedWasPlayed(front);
      var r := ReplayedOnce(Rebuilt(front).value, e);
      assert (requests + [r])[..|requests|] == requests;
      assert events == front + [e];
      requests := requests + [r];
    }
  }
}
