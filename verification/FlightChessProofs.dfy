/** What the aeroplane-chess rules guarantee: every step keeps the validator satisfied, no
    position is stuck, pieces are conserved, and a log written under any mixture of rule
    variants replays to exactly the position it was written from. */
module FlightChessProofs {
  import opened Common
  import opened FlightChess

  // ------------------------------------------------------------------ board arithmetic

  lemma ProgressOfIndex(c: Color, progress: int)
    requires 1 <= progress <= 50
    ensures var index := IndexForProgress(c, progress);
      0 <= index < MAIN_CELL_COUNT && ProgressForIndex(c, index) == Some(progress)
  {
    if c.Black? && progress >= 27 {
      assert IndexForProgress(c, progress) == progress - 27;
    }
  }

  lemma IndexOfProgress(c: Color, index: int)
    requires ProgressForIndex(c, index).Some?
    ensures var progress := ProgressForIndex(c, index).value;
      1 <= progress <= 50 && IndexForProgress(c, progress) == index
  {
    if c.White? || index < 26 {
      assert (index - Start(c) + MAIN_CELL_COUNT) % MAIN_CELL_COUNT == index - Start(c) + if c.White? then 0 else MAIN_CELL_COUNT;
    }
  }

  predicate WellPlaced(c: Color, piece: Piece, slot: int) {
    ValidPiece(piece, slot) && (piece.zone == Main ==> ProgressForIndex(c, piece.index).Some?)
  }

  lemma ResolvedProgressIsValid(c: Color, progress: int, slot: int)
    requires 1 <= progress
    ensures var r := ResolveProgress(c, progress);
      r.Some? ==> r.value.to.zone != Hangar && WellPlaced(c, r.value.to, slot)
  {
    if progress <= 50 {
      ProgressOfIndex(c, progress);
    }
    if progress + 4 <= 50 {
      ProgressOfIndex(c, progress + 4);
    }
    ProgressOfIndex(c, 30);
    hide ProgressForIndex, IndexForProgress;
  }

  /** A move always takes a well-placed piece out of the hangar to a well-placed cell. */
  lemma ResolvedPieceIsValid(c: Color, piece: Piece, slot: int, roll: int)
    requires WellPlaced(c, piece, slot) && ResolveMove(c, piece, roll).Some?
    ensures var to := ResolveMove(c, piece, roll).value.to;
      to.zone != Hangar && WellPlaced(c, to, slot)
  {
    if piece.zone == Main {
      IndexOfProgress(c, piece.index);
      ResolvedProgressIsValid(c, ProgressForIndex(c, piece.index).value + roll, slot);
    } else if piece.zone == Launch {
      ResolvedProgressIsValid(c, roll, slot);
    }
    hide ProgressForIndex, ResolveProgress;
  }

  // --------------------------------------------------------------- one step keeps validity

  lemma SentHomeIsValid(c: Color, pieces: seq<Piece>, destinations: seq<Piece>)
    requires ValidPieces(c, pieces)
    ensures ValidPieces(c, SentHome(pieces, destinations))
    ensures AllFinished(SentHome(pieces, destinations)) ==> AllFinished(pieces)
  {
    hide ProgressForIndex;
    var home := SentHome(pieces, destinations);
    forall i | 0 <= i < PIECE_COUNT
      ensures ValidPiece(home[i], i) && (home[i].zone == Main ==> ProgressForIndex(c, home[i].index).Some?)
      ensures home[i].zone == Finished ==> pieces[i].zone == Finished
    {
    }
  }

  predicate BelowCap(s: State) {
    s.captures.black <= CAPTURE_CAP && s.captures.white <= CAPTURE_CAP
  }

  lemma BindKeepsValidity(s: State, actor: UserId)
    requires ValidState(s) && Bind(s, actor).Ok?
    ensures ValidState(Bind(s, actor).value) || !s.active
    ensures Bind(s, actor).value.users.Of(s.next) == Some(actor)
  {
    hide ValidPieces, MovableSlots, AllFinished;
  }

  /** The only thing that can make the validator reject a played move is the capture cap. */
  lemma MoveKeepsValidity(s: State, actor: UserId, pieceIndex: int, resolution: Resolution, destinations: seq<Piece>)
    requires ValidState(s) && s.active && s.phase == AwaitingMove && s.users.Of(s.next) == Some(actor)
    requires 0 <= pieceIndex < PIECE_COUNT
    requires ResolveMove(s.next, s.pieces.Of(s.next)[pieceIndex], s.dice) == Some(resolution)
    ensures var next := AfterMove(s, actor, pieceIndex, resolution.to, destinations);
      ValidState(next) <==> BelowCap(next)
  {
    var c := s.next;
    var enemy := c.Opposite();
    var mine := s.pieces.Of(c)[pieceIndex := resolution.to];
    assert ValidPieces(c, mine) by {
      ResolvedPieceIsValid(c, s.pieces.Of(c)[pieceIndex], pieceIndex, s.dice);
    }
    SentHomeIsValid(enemy, s.pieces.Of(enemy), destinations);
    hide ValidPieces, MovableSlots, AllFinished, SentHome, CapturedSlots, ResolveMove;
  }

  lemma RollKeepsValidity(s: State, value: int, allowBounce: bool, allowFiveLaunch: bool)
    requires ValidState(s) && s.active && s.phase == AwaitingRoll && 1 <= value <= 6
    ensures ValidState(AfterRoll(s, value, MovableSlots(s.next, s.pieces.Of(s.next), value, allowBounce, allowFiveLaunch, PIECE_COUNT)))
  {
    var pieces := s.pieces.Of(s.next);
    var movable := MovableSlots(s.next, pieces, value, allowBounce, allowFiveLaunch, PIECE_COUNT);
    if movable != [] {
      MovableSlotsSpec(s.next, pieces, value, allowBounce, allowFiveLaunch, PIECE_COUNT);
      MovableSlotsSpec(s.next, pieces, value, true, true, PIECE_COUNT);
      assert Movable(s.next, pieces[movable[0]], value, true, true);
      assert movable[0] in MovableSlots(s.next, pieces, value, true, true, PIECE_COUNT);
    }
    hide ValidPieces, MovableSlots, AllFinished;
  }

  /** In a valid active position every die value is accepted from the player to roll. */
  lemma EveryRollIsAccepted(snap: Snap, actor: UserId, value: int, allowBounce: bool, allowFiveLaunch: bool)
    requires snap.revision >= 0 && ValidState(snap.state) && snap.state.active && snap.state.phase == AwaitingRoll
    requires 1 <= value <= 6 && Bind(snap.state, actor).Ok?
    ensures ApplyRoll(snap, actor, value, allowBounce, allowFiveLaunch).Ok?
  {
    BindKeepsValidity(snap.state, actor);
    RollKeepsValidity(Bind(snap.state, actor).value, value, allowBounce, allowFiveLaunch);
    hide ValidState, MovableSlots;
  }

  /** A legal move is refused exactly when its captures would pass the counter's cap. */
  lemma LegalMoveIsAccepted(snap: Snap, actor: UserId, pieceIndex: int, captureLandings: bool, captureCrossing: bool)
    requires snap.revision >= 0 && ValidState(snap.state) && snap.state.active && snap.state.phase == AwaitingMove
    requires 0 <= pieceIndex < PIECE_COUNT && Bind(snap.state, actor).Ok?
    requires ResolveMove(snap.state.next, snap.state.pieces.Of(snap.state.next)[pieceIndex], snap.state.dice).Some?
    ensures var s := Bind(snap.state, actor).value;
      var r := ResolveMove(s.next, s.pieces.Of(s.next)[pieceIndex], s.dice).value;
      var enemy := s.pieces.Of(s.next.Opposite());
      var taken := |CapturedSlots(enemy, Destinations(r, captureLandings, captureCrossing), PIECE_COUNT)|;
      && (ApplyMove(snap, actor, pieceIndex, captureLandings, captureCrossing).Ok? <==> s.captures.Of(s.next) + taken <= CAPTURE_CAP)
      && taken <= PIECE_COUNT
  {
    BindKeepsValidity(snap.state, actor);
    var s := Bind(snap.state, actor).value;
    var r := ResolveMove(s.next, s.pieces.Of(s.next)[pieceIndex], s.dice).value;
    var destinations := Destinations(r, captureLandings, captureCrossing);
    MoveKeepsValidity(s, actor, pieceIndex, r, destinations);
    AtMostAllCaptured(s.pieces.Of(s.next.Opposite()), destinations, PIECE_COUNT);
    hide MovableSlots, AllFinished, SentHome, CapturedSlots, ResolveMove, Destinations;
  }

  lemma {:induction false} AtMostAllCaptured(pieces: seq<Piece>, destinations: seq<Piece>, n: nat)
    requires n <= |pieces|
    ensures |CapturedSlots(pieces, destinations, n)| <= n
  {
    if n > 0 {
      AtMostAllCaptured(pieces, destinations, n - 1);
    }
  }

  /** How many pieces today's rule would capture with this move. */
  function TodayTakes(s: State, pieceIndex: int): nat {
    if 0 <= pieceIndex < |s.pieces.Of(s.next)| && ResolveMove(s.next, s.pieces.Of(s.next)[pieceIndex], s.dice).Some? then
      var r := ResolveMove(s.next, s.pieces.Of(s.next)[pieceIndex], s.dice).value;
      var enemy := s.pieces.Of(s.next.Opposite());
      |CapturedSlots(enemy, Destinations(r, true, true), |enemy|)|
    else 0
  }

  /** The piece may move, and its captures stay within the counter's cap. */
  predicate MoveFits(s: State, pieceIndex: int) {
    && 0 <= pieceIndex < |s.pieces.Of(s.next)| && ResolveMove(s.next, s.pieces.Of(s.next)[pieceIndex], s.dice).Some?
    && s.captures.Of(s.next) + TodayTakes(s, pieceIndex) <= CAPTURE_CAP
  }

  /** When an active position is stuck: never awaiting a roll, and awaiting a move exactly if every
      movable piece would carry the mover's captures past the cap; so not four captures below it. */
  lemma NoPositionIsStuck(snap: Snap, actor: UserId)
    requires snap.revision >= 0 && ValidState(snap.state) && snap.state.active && Bind(snap.state, actor).Ok?
    ensures snap.state.phase == AwaitingRoll ==>
      forall value :: 1 <= value <= 6 ==> ApplyRoll(snap, actor, value, true, true).Ok?
    ensures snap.state.phase == AwaitingMove ==>
      forall pieceIndex :: ApplyMove(snap, actor, pieceIndex, true, true).Ok? <==> MoveFits(snap.state, pieceIndex)
    ensures snap.state.phase == AwaitingMove && snap.state.captures.Of(snap.state.next) + PIECE_COUNT <= CAPTURE_CAP ==>
      exists pieceIndex :: ApplyMove(snap, actor, pieceIndex, true, true).Ok?
  {
    hide MovableSlots, ResolveMove, MoveFits, ApplyMove, ApplyRoll, TodayTakes;
    if snap.state.phase == AwaitingRoll {
      forall value | 1 <= value <= 6 ensures ApplyRoll(snap, actor, value, true, true).Ok? {
        EveryRollIsAccepted(snap, actor, value, true, true);
      }
    } else {
      var s := snap.state;
      forall pieceIndex ensures ApplyMove(snap, actor, pieceIndex, true, true).Ok? <==> MoveFits(s, pieceIndex) {
        MoveIsAcceptedIfItFits(snap, actor, pieceIndex);
      }
      var first := FirstMovable(s);
      AtMostFourTaken(s, first);
      FitsBelowCap(s, first);
    }
  }

  lemma FirstMovable(s: State) returns (pieceIndex: int)
    requires ValidState(s) && s.phase == AwaitingMove
    ensures |s.pieces.black| == |s.pieces.white| == PIECE_COUNT && 0 <= pieceIndex < PIECE_COUNT
    ensures ResolveMove(s.next, s.pieces.Of(s.next)[pieceIndex], s.dice).Some?
  {
    MovableSlotsSpec(s.next, s.pieces.Of(s.next), s.dice, true, true, PIECE_COUNT);
    pieceIndex := MovableSlots(s.next, s.pieces.Of(s.next), s.dice, true, true, PIECE_COUNT)[0];
    hide MovableSlots, ResolveMove;
  }

  lemma FitsBelowCap(s: State, pieceIndex: int)
    requires 0 <= pieceIndex < |s.pieces.Of(s.next)| && ResolveMove(s.next, s.pieces.Of(s.next)[pieceIndex], s.dice).Some?
    requires TodayTakes(s, pieceIndex) <= PIECE_COUNT
    ensures s.captures.Of(s.next) + PIECE_COUNT <= CAPTURE_CAP ==> MoveFits(s, pieceIndex)
  {
  }

  lemma AtMostFourTaken(s: State, pieceIndex: int)
    requires |s.pieces.black| == |s.pieces.white| == PIECE_COUNT
    ensures TodayTakes(s, pieceIndex) <= PIECE_COUNT
  {
    hide ResolveMove, Destinations;
    if 0 <= pieceIndex < PIECE_COUNT && ResolveMove(s.next, s.pieces.Of(s.next)[pieceIndex], s.dice).Some? {
      var r := ResolveMove(s.next, s.pieces.Of(s.next)[pieceIndex], s.dice).value;
      AtMostAllCaptured(s.pieces.Of(s.next.Opposite()), Destinations(r, true, true), PIECE_COUNT);
    }
  }

  lemma MoveIsAcceptedIfItFits(snap: Snap, actor: UserId, pieceIndex: int)
    requires snap.revision >= 0 && ValidState(snap.state) && snap.state.active && snap.state.phase == AwaitingMove && Bind(snap.state, actor).Ok?
    ensures ApplyMove(snap, actor, pieceIndex, true, true).Ok? <==> MoveFits(snap.state, pieceIndex)
  {
    hide MovableSlots, AllFinished, SentHome, CapturedSlots, ResolveMove, Destinations, AfterMove, Encoded;
    var s := snap.state;
    if 0 <= pieceIndex < PIECE_COUNT && ResolveMove(s.next, s.pieces.Of(s.next)[pieceIndex], s.dice).Some? {
      LegalMoveIsAccepted(snap, actor, pieceIndex, true, true);
    }
  }
}
