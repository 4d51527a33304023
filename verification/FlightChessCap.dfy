/** Two games that run into the capture cap. Black and white capture each other's only piece over
    and over, ten events a round, until the counters are full: then one game can no longer be
    replayed, and the other has no move left. No match of the service is a tenth as long. */
module FlightChessCap {
  import opened Common
  import opened FlightChess
  import opened FlightChessProofs
  import opened FlightChessRuns

  // ----------------------------------------------------------------------- playing requests

  function Next(snap: Snap, r: Request): Snap {
    match Answer(snap, r)
    case Err(_) => snap
    case Ok(a) => a.next
  }

  function NextAll(snap: Snap, requests: seq<Request>): Snap {
    if requests == [] then snap else Next(NextAll(snap, requests[..|requests| - 1]), requests[|requests| - 1])
  }

  lemma {:induction false} PlayIsNextAll(requests: seq<Request>)
    ensures Play(requests).snap == NextAll(InitialSnapshot(), requests)
  {
    hide Answer, InitialSnapshot;
    if requests != [] {
      PlayIsNextAll(requests[..|requests| - 1]);
    }
  }

  lemma {:induction false} NextAllOf(snap: Snap, a: seq<Request>, b: seq<Request>)
    ensures NextAll(snap, a + b) == NextAll(NextAll(snap, a), b)
  {
    hide Next;
    if b == [] {
      assert a + b == a;
    } else {
      assert (a + b)[..|a + b| - 1] == a + b[..|b| - 1];
      NextAllOf(snap, a, b[..|b| - 1]);
    }
  }

  // A roll under today's rules, and the move it is used for.
  function Turn(actor: UserId, value: int, pieceIndex: int): seq<Request> {
    [Roll(actor, value, true, true, false), Move(actor, pieceIndex, Today)]
  }

  lemma NextTurn(snap: Snap, actor: UserId, value: int, pieceIndex: int)
    ensures NextAll(snap, Turn(actor, value, pieceIndex)) == Next(Next(snap, Roll(actor, value, true, true, false)), Move(actor, pieceIndex, Today))
  {
    hide Next;
    var turn := Turn(actor, value, pieceIndex);
    assert turn[..1] == [Roll(actor, value, true, true, false)] && turn[..1][..0] == [];
    assert NextAll(snap, turn[..1]) == Next(snap, turn[0]);
  }

  /** A legal turn is played whenever its captures fit. */
  lemma TurnIsPlayed(snap: Snap, actor: UserId, value: int, pieceIndex: int, r: Resolution)
    requires snap.revision >= 0 && ValidState(snap.state) && snap.state.active && snap.state.phase == AwaitingRoll
    requires Bind(snap.state, actor).Ok? && 1 <= value <= 6 && 0 <= pieceIndex < PIECE_COUNT
    requires ResolveMove(snap.state.next, snap.state.pieces.Of(snap.state.next)[pieceIndex], value) == Some(r)
    requires var s := snap.state;
      s.captures.Of(s.next) + |CapturedSlots(s.pieces.Of(s.next.Opposite()), Destinations(r, true, true), PIECE_COUNT)| <= CAPTURE_CAP
    ensures var s := Bind(snap.state, actor).value;
      var after := NextAll(snap, Turn(actor, value, pieceIndex));
      && after == GameSnapshot(snap.revision + 2, AfterMove(s.(phase := AwaitingMove, dice := value), actor, pieceIndex, r.to, Destinations(r, true, true)))
      && ValidState(after.state)
  {
    hide ValidState, ResolveMove, CapturedSlots, SentHome, AllFinished, Destinations;
    NextTurn(snap, actor, value, pieceIndex);
    EveryRollIsAccepted(snap, actor, value, true, true);
    SomePieceMoves(snap.state, value, pieceIndex);
    var rolled := Next(snap, Roll(actor, value, true, true, false));
    assert rolled == GameSnapshot(snap.revision + 1, Bind(snap.state, actor).value.(phase := AwaitingMove, dice := value));
    RollFacts(snap, actor, value, true, true);
    hide AfterMove, MovableSlots, Answer;
    MoveIsPlayed(rolled, actor, pieceIndex, r);
  }

  lemma SomePieceMoves(s: State, value: int, pieceIndex: int)
    requires ValidState(s) && 0 <= pieceIndex < PIECE_COUNT && ResolveMove(s.next, s.pieces.Of(s.next)[pieceIndex], value).Some?
    ensures |s.pieces.black| == |s.pieces.white| == PIECE_COUNT
    ensures MovableSlots(s.next, s.pieces.Of(s.next), value, true, true, PIECE_COUNT) != []
  {
    MovableSlotsSpec(s.next, s.pieces.Of(s.next), value, true, true, PIECE_COUNT);
    hide MovableSlots, ResolveMove;
  }

  lemma MoveIsPlayed(snap: Snap, actor: UserId, pieceIndex: int, r: Resolution)
    requires snap.revision >= 0 && ValidState(snap.state) && snap.state.active && snap.state.phase == AwaitingMove
    requires snap.state.users.Of(snap.state.next) == Some(actor) && 0 <= pieceIndex < PIECE_COUNT
    requires ResolveMove(snap.state.next, snap.state.pieces.Of(snap.state.next)[pieceIndex], snap.state.dice) == Some(r)
    requires var s := snap.state;
      s.captures.Of(s.next) + |CapturedSlots(s.pieces.Of(s.next.Opposite()), Destinations(r, true, true), PIECE_COUNT)| <= CAPTURE_CAP
    ensures var after := Next(snap, Move(actor, pieceIndex, Today));
      && after == GameSnapshot(snap.revision + 1, AfterMove(snap.state, actor, pieceIndex, r.to, Destinations(r, true, true)))
      && ValidState(after.state)
  {
    LegalMoveIsAccepted(snap, actor, pieceIndex, true, true);
    hide ValidState, ResolveMove, CapturedSlots, AfterMove, Destinations;
  }

  // ------------------------------------------------------------------------- a small board

  function Waiting(slot: int): Piece {
    Piece(Hangar, slot)
  }

  /** Black has one piece that may be out, white two. */
  function Board(black: int, white: int, next: Color, b: Piece, w: Piece, x: Piece): State {
    State(Sides(black, white), true, AwaitingRoll, Sides(Some(1), Some(2)), next, 0,
          Sides([b, Waiting(1), Waiting(2), Waiting(3)], [w, x, Waiting(2), Waiting(3)]), None, None)
  }

  lemma OnlyTheFirst(pieces: seq<Piece>, destinations: seq<Piece>)
    requires |pieces| == PIECE_COUNT && forall i :: 1 <= i < PIECE_COUNT ==> !Hit(pieces[i], destinations)
    ensures CapturedSlots(pieces, destinations, PIECE_COUNT) == if Hit(pieces[0], destinations) then [0] else []
    ensures SentHome(pieces, destinations) == pieces[0 := if Hit(pieces[0], destinations) then Waiting(0) else pieces[0]]
  {
    hide Hit;
    assert CapturedSlots(pieces, destinations, 0) == [];
    assert CapturedSlots(pieces, destinations, 2) == CapturedSlots(pieces, destinations, 1);
    assert CapturedSlots(pieces, destinations, 3) == CapturedSlots(pieces, destinations, 1);
  }

  lemma BlackTurn(revision: nat, black: int, white: int, b: Piece, w: Piece, x: Piece, value: int, r: Resolution)
    requires ValidState(Board(black, white, Black, b, w, x)) && 1 <= value <= 6
    requires ResolveMove(Black, b, value) == Some(r) && r.to.zone != Finished && !Hit(x, Destinations(r, true, true))
    requires black + (if Hit(w, Destinations(r, true, true)) then 1 else 0) <= CAPTURE_CAP
    ensures var hit := Hit(w, Destinations(r, true, true));
      var after := Board(black + if hit then 1 else 0, white, if value == 6 then Black else White, r.to, if hit then Waiting(0) else w, x);
      NextAll(GameSnapshot(revision, Board(black, white, Black, b, w, x)), Turn(1, value, 0)) == GameSnapshot(revision + 2, after) && ValidState(after)
  {
    hide ValidState, ResolveMove, Destinations, CapturedSlots, SentHome, Hit, AllFinished;
    var s := Board(black, white, Black, b, w, x);
    var destinations := Destinations(r, true, true);
    NeverHit();
    OnlyTheFirst(s.pieces.white, destinations);
    TurnIsPlayed(GameSnapshot(revision, s), 1, value, 0, r);
    assert s.pieces.black[0 := r.to] == [r.to, Waiting(1), Waiting(2), Waiting(3)];
    NotFinished(s.pieces.black[0 := r.to]);
    assert s.pieces.white[0 := w] == s.pieces.white;
    assert s.pieces.white[0 := Waiting(0)] == [Waiting(0), x, Waiting(2), Waiting(3)];
  }

  lemma WhiteTurn(revision: nat, black: int, white: int, b: Piece, w: Piece, x: Piece, value: int, pieceIndex: int, r: Resolution)
    requires ValidState(Board(black, white, White, b, w, x)) && 1 <= value <= 6 && (pieceIndex == 0 || pieceIndex == 1)
    requires ResolveMove(White, if pieceIndex == 0 then w else x, value) == Some(r) && r.to.zone != Finished
    requires white + (if Hit(b, Destinations(r, true, true)) then 1 else 0) <= CAPTURE_CAP
    ensures var hit := Hit(b, Destinations(r, true, true));
      var after := Board(black, white + if hit then 1 else 0, if value == 6 then White else Black, if hit then Waiting(0) else b,
                         if pieceIndex == 0 then r.to else w, if pieceIndex == 1 then r.to else x);
      NextAll(GameSnapshot(revision, Board(black, white, White, b, w, x)), Turn(2, value, pieceIndex)) == GameSnapshot(revision + 2, after) && ValidState(after)
  {
    hide ValidState, ResolveMove, Destinations, CapturedSlots, SentHome, Hit, AllFinished;
    var s := Board(black, white, White, b, w, x);
    var destinations := Destinations(r, true, true);
    NeverHit();
    OnlyTheFirst(s.pieces.black, destinations);
    TurnIsPlayed(GameSnapshot(revision, s), 2, value, pieceIndex, r);
    var mine := s.pieces.white[pieceIndex := r.to];
    assert mine == [if pieceIndex == 0 then r.to else w, if pieceIndex == 1 then r.to else x, Waiting(2), Waiting(3)];
    NotFinished(mine);
    assert s.pieces.black[0 := b] == s.pieces.black;
    assert s.pieces.black[0 := Waiting(0)] == [Waiting(0), Waiting(1), Waiting(2), Waiting(3)];
  }

  lemma NotFinished(pieces: seq<Piece>)
    requires |pieces| == PIECE_COUNT && pieces[2] == Waiting(2)
    ensures !AllFinished(pieces)
  {
  }

  lemma NeverHit()
    ensures forall slot, destinations: seq<Piece> :: !Hit(Waiting(slot), destinations)
  {
  }

  /** With nothing out, a one passes the turn. */
  lemma BlackPasses(revision: nat, black: int, white: int, w: Piece, x: Piece)
    requires ValidState(Board(black, white, Black, Waiting(0), w, x))
    ensures NextAll(GameSnapshot(revision, Board(black, white, Black, Waiting(0), w, x)), [Roll(1, 1, true, true, false)])
            == GameSnapshot(revision + 1, Board(black, white, White, Waiting(0), w, x))
    ensures ValidState(Board(black, white, White, Waiting(0), w, x))
  {
    hide ValidState;
    var snap := GameSnapshot(revision, Board(black, white, Black, Waiting(0), w, x));
    var r := Roll(1, 1, true, true, false);
    assert [r][..0] == [];
    assert NextAll(snap, [r]) == Next(snap, r) by {
      hide Next;
    }
    EveryRollIsAccepted(snap, 1, 1, true, true);
    RollFacts(snap, 1, 1, true, true);
    NothingMoves(snap.state.pieces.black, PIECE_COUNT);
    hide MovableSlots;
  }

  lemma {:induction false} NothingMoves(pieces: seq<Piece>, n: nat)
    requires n <= |pieces| && forall i :: 0 <= i < |pieces| ==> pieces[i].zone == Hangar
    ensures MovableSlots(Black, pieces, 1, true, true, n) == []
  {
    if n > 0 {
      NothingMoves(pieces, n - 1);
    }
  }

  // ------------------------------------------------------------------- rounds of captures

  const LAUNCHED := Resolution(Piece(Launch, 0), NoEffect)
  const OUT := Resolution(Piece(Main, 35), Jump)
  const ACROSS := Resolution(Piece(Main, 3), JumpShortcut)
  const FOUR := Resolution(Piece(Main, 3), NoEffect)

  lemma BlackPaths()
    ensures forall slot :: ResolveMove(Black, Waiting(slot), 6) == Some(LAUNCHED)
    ensures ResolveMove(Black, LAUNCHED.to, 6) == Some(OUT) && ResolveMove(Black, OUT.to, 4) == Some(ACROSS)
    ensures Destinations(LAUNCHED, true, true) == [] && Destinations(OUT, true, true) == [Piece(Main, 31), Piece(Main, 35)]
    ensures Destinations(ACROSS, true, true) == [Piece(Main, 39), Piece(Main, 43), Piece(Main, 3), Piece(Home, 2)]
    ensures Destinations(ACROSS, false, false) == [Piece(Main, 3)]
  {
    assert ProgressForIndex(Black, 35) == Some(10);
  }

  lemma WhitePaths()
    ensures forall slot :: ResolveMove(White, Waiting(slot), 6) == Some(LAUNCHED)
    ensures ResolveMove(White, LAUNCHED.to, 4) == Some(FOUR) && Destinations(FOUR, true, true) == [Piece(Main, 3)]
    ensures Destinations(LAUNCHED, true, true) == []
  {
  }

  // A white piece stands on cell 3, black has nothing out and rolls; both have captured `n`.
  function Round(n: int): State {
    Board(n, n, Black, Waiting(0), FOUR.to, Waiting(1))
  }

  function BlackRuns(): seq<Request> {
    Turn(1, 6, 0) + Turn(1, 6, 0)
  }

  // Black launches and comes within four of cell 3 by two sixes.
  lemma BlackComesClose(revision: nat, black: int, white: int, w: Piece, x: Piece)
    requires ValidState(Board(black, white, Black, Waiting(0), w, x))
    requires w.zone == Main && w.index == 3 && (x == Waiting(1) || x == Piece(Main, 39))
    ensures NextAll(GameSnapshot(revision, Board(black, white, Black, Waiting(0), w, x)), BlackRuns())
            == GameSnapshot(revision + 4, Board(black, white, Black, OUT.to, w, x))
    ensures ValidState(Board(black, white, Black, OUT.to, w, x))
  {
    hide ValidState, ResolveMove, Destinations, NextAll, Turn, Hit, Board;
    CaptureCounts(black, white, w, x);
    BlackPaths();
    NoneNear(w);
    NoneNear(x);
    var start := GameSnapshot(revision, Board(black, white, Black, Waiting(0), w, x));
    BlackTurn(revision, black, white, Waiting(0), w, x, 6, LAUNCHED);
    BlackTurn(revision + 2, black, white, LAUNCHED.to, w, x, 6, OUT);
    NextAllOf(start, Turn(1, 6, 0), Turn(1, 6, 0));
  }

  lemma NoneNear(piece: Piece)
    requires piece.zone != Home && (piece.zone == Main ==> piece.index == 3 || piece.index == 39)
    ensures !Hit(piece, []) && !Hit(piece, [Piece(Main, 31), Piece(Main, 35)])
  {
  }

  lemma CaptureCounts(black: int, white: int, w: Piece, x: Piece)
    requires ValidState(Board(black, white, Black, Waiting(0), w, x))
    ensures 0 <= black <= CAPTURE_CAP && 0 <= white <= CAPTURE_CAP
  {
    hide MovableSlots;
  }

  function OneRound(): seq<Request> {
    BlackRuns() + Turn(1, 4, 0) + Turn(2, 6, 0) + Turn(2, 4, 0)
  }

  lemma RoundIsPlayed(revision: nat, n: int)
    requires ValidState(Round(n)) && n < CAPTURE_CAP
    ensures NextAll(GameSnapshot(revision, Round(n)), OneRound()) == GameSnapshot(revision + 10, Round(n + 1)) && ValidState(Round(n + 1))
  {
    hide ValidState, ResolveMove, Destinations, NextAll, Turn, BlackRuns, Board;
    BlackPaths();
    WhitePaths();
    var start := GameSnapshot(revision, Round(n));
    var a := BlackRuns();
    var b := a + Turn(1, 4, 0);
    var c := b + Turn(2, 6, 0);
    BlackComesClose(revision, n, n, FOUR.to, Waiting(1));
    BlackTurn(revision + 4, n, n, OUT.to, FOUR.to, Waiting(1), 4, ACROSS);
    NextAllOf(start, a, Turn(1, 4, 0));
    WhiteTurn(revision + 6, n + 1, n, ACROSS.to, Waiting(0), Waiting(1), 6, 0, LAUNCHED);
    NextAllOf(start, b, Turn(2, 6, 0));
    WhiteTurn(revision + 8, n + 1, n, ACROSS.to, LAUNCHED.to, Waiting(1), 4, 0, FOUR);
    NextAllOf(start, c, Turn(2, 4, 0));
  }

  function Rounds(n: nat): seq<Request> {
    if n == 0 then [Roll(1, 1, true, true, false)] + Turn(2, 6, 0) + Turn(2, 4, 0) else Rounds(n - 1) + OneRound()
  }

  lemma GameOpens()
    ensures NextAll(InitialSnapshot(), [Roll(1, 1, true, true, false)])
            == GameSnapshot(1, InitialState().(users := Sides(Some(1), None), next := White))
    ensures ValidState(InitialState().(users := Sides(Some(1), None), next := White))
  {
    var r := Roll(1, 1, true, true, false);
    assert [r][..0] == [];
    assert NextAll(InitialSnapshot(), [r]) == Next(InitialSnapshot(), r) by {
      hide Next, InitialSnapshot;
    }
    InitialIsValid();
    hide ValidState;
    EveryRollIsAccepted(InitialSnapshot(), 1, 1, true, true);
    RollFacts(InitialSnapshot(), 1, 1, true, true);
    NothingMoves(InitialState().pieces.black, PIECE_COUNT);
    hide MovableSlots;
  }

  lemma InitialIsValid()
    ensures ValidState(InitialState())
  {
    InitialIsSound();
    hide ValidState, NoSharedCell, Balanced, Moves, Launches;
  }

  lemma WhiteOpens(snap: Snap)
    requires snap == GameSnapshot(1, InitialState().(users := Sides(Some(1), None), next := White)) && ValidState(snap.state)
    ensures NextAll(snap, Turn(2, 6, 0)) == GameSnapshot(3, Board(0, 0, White, Waiting(0), LAUNCHED.to, Waiting(1)))
    ensures ValidState(Board(0, 0, White, Waiting(0), LAUNCHED.to, Waiting(1)))
  {
    hide ValidState, ResolveMove, Destinations, CapturedSlots, SentHome, Hit, AllFinished;
    WhitePaths();
    assert HangarPieces() == [Waiting(0), Waiting(1), Waiting(2), Waiting(3)];
    NeverHit();
    OnlyTheFirst(HangarPieces(), []);
    TurnIsPlayed(snap, 2, 6, 0, LAUNCHED);
    var mine := HangarPieces()[0 := LAUNCHED.to];
    assert mine == [LAUNCHED.to, Waiting(1), Waiting(2), Waiting(3)];
    NotFinished(mine);
    assert HangarPieces()[0 := Waiting(0)] == HangarPieces();
  }

  /** After the opening and `n` rounds, both players have captured `n` pieces. */
  lemma {:induction false} RoundsArePlayed(n: nat)
    requires n <= CAPTURE_CAP
    ensures NextAll(InitialSnapshot(), Rounds(n)) == GameSnapshot(5 + 10 * n, Round(n)) && ValidState(Round(n))
  {
    hide ValidState, NextAll, Turn, OneRound, ResolveMove, Destinations, InitialState, InitialSnapshot;
    if n == 0 {
      GameOpens();
      WhitePaths();
      var begun := NextAll(InitialSnapshot(), [Roll(1, 1, true, true, false)]);
      WhiteOpens(begun);
      NextAllOf(InitialSnapshot(), [Roll(1, 1, true, true, false)], Turn(2, 6, 0));
      WhiteTurn(3, 0, 0, Waiting(0), LAUNCHED.to, Waiting(1), 4, 0, FOUR);
      NextAllOf(InitialSnapshot(), [Roll(1, 1, true, true, false)] + Turn(2, 6, 0), Turn(2, 4, 0));
    } else {
      RoundsArePlayed(n - 1);
      RoundIsPlayed(5 + 10 * (n - 1), n - 1);
      NextAllOf(InitialSnapshot(), Rounds(n - 1), OneRound());
    }
  }

  // ----------------------------------------------------------------- a game with no move left

  /** Black, four cells short of white's piece, with the die already showing four. */
  function FourThrown(n: int, x: Piece): State {
    Board(n, n, Black, OUT.to, FOUR.to, x).(phase := AwaitingMove, dice := 4)
  }

  lemma FourIsThrown(revision: nat, n: int, x: Piece)
    requires ValidState(Board(n, n, Black, OUT.to, FOUR.to, x))
    ensures NextAll(GameSnapshot(revision, Board(n, n, Black, OUT.to, FOUR.to, x)), [Roll(1, 4, true, true, false)])
            == GameSnapshot(revision + 1, FourThrown(n, x))
    ensures ValidState(FourThrown(n, x))
  {
    hide ValidState, ResolveMove, Destinations;
    BlackPaths();
    var snap := GameSnapshot(revision, Board(n, n, Black, OUT.to, FOUR.to, x));
    var r := Roll(1, 4, true, true, false);
    assert [r][..0] == [];
    assert NextAll(snap, [r]) == Next(snap, r) by {
      hide Next;
    }
    EveryRollIsAccepted(snap, 1, 4, true, true);
    RollFacts(snap, 1, 4, true, true);
    SomePieceMoves(snap.state, 4, 0);
    hide MovableSlots;
  }

  lemma OneIsTaken(n: int)
    ensures TodayTakes(FourThrown(n, Waiting(1)), 0) == 1
  {
    var s := FourThrown(n, Waiting(1));
    BlackPaths();
    OnlyTheFirst(s.pieces.white, Destinations(ACROSS, true, true));
    hide ResolveMove, Destinations, CapturedSlots;
  }

  lemma HangarStays(slot: int)
    ensures ResolveMove(Black, Waiting(slot), 4) == None
  {
  }

  lemma NothingFits(pieceIndex: int)
    ensures !MoveFits(FourThrown(CAPTURE_CAP, Waiting(1)), pieceIndex)
  {
    OneIsTaken(CAPTURE_CAP);
    HangarStays(pieceIndex);
    hide TodayTakes, ResolveMove;
  }

  /** The cap leaves this game without any move: black must play its only piece, which captures,
      and its counter is full. */
  lemma CapStopsAGame()
    ensures exists requests :: var snap := Play(requests).snap;
      snap.state.active && snap.state.phase == AwaitingMove && forall r :: IsCurrent(r) ==> Answer(snap, r).Err?
  {
    hide NextAll, ValidState, Turn, BlackRuns, Rounds, MoveFits, Answer, Play, InitialSnapshot;
    var n := CAPTURE_CAP;
    var a := Rounds(n) + BlackRuns();
    var requests := a + [Roll(1, 4, true, true, false)];
    RoundsArePlayed(n);
    BlackComesClose(5 + 10 * n, n, n, FOUR.to, Waiting(1));
    NextAllOf(InitialSnapshot(), Rounds(n), BlackRuns());
    FourIsThrown(9 + 10 * n, n, Waiting(1));
    NextAllOf(InitialSnapshot(), a, [Roll(1, 4, true, true, false)]);
    PlayIsNextAll(requests);
    var snap := Play(requests).snap;
    forall pieceIndex ensures !MoveFits(snap.state, pieceIndex) {
      NothingFits(pieceIndex);
    }
    hide Board;
    forall r | IsCurrent(r) ensures Answer(snap, r).Err? {
      NoAnswer(snap, r);
    }
  }

  lemma NoAnswer(snap: Snap, r: Request)
    requires snap.revision >= 0 && snap.state == FourThrown(CAPTURE_CAP, Waiting(1)) && ValidState(snap.state) && IsCurrent(r)
    requires forall pieceIndex :: !MoveFits(snap.state, pieceIndex)
    ensures Answer(snap, r).Err?
  {
    hide ValidState, MoveFits, ResolveMove, Encoded;
    if r.Move? && r.actor == 1 {
      NoPositionIsStuck(snap, 1);
      hide ApplyMove;
    }
  }

  // ------------------------------------------------------------ a game that does not replay

  const FAR := Piece(Main, 39)

  // White takes a second piece to cell 39 while black passes.
  function Detour(): seq<Request> {
    Turn(2, 6, 1) + Turn(2, 6, 1) + Turn(2, 4, 1) + [Roll(1, 1, true, true, false)] + Turn(2, 6, 1) + Turn(2, 4, 1)
  }

  const NINE := Resolution(Piece(Main, 9), Jump)
  const BEYOND := Resolution(Piece(Main, 29), JumpShortcut)
  const CLOSER := Resolution(Piece(Main, 35), NoEffect)
  const THERE := Resolution(FAR, NoEffect)

  lemma DetourPaths()
    ensures ResolveMove(White, LAUNCHED.to, 6) == Some(NINE) && ResolveMove(White, NINE.to, 4) == Some(BEYOND)
    ensures ResolveMove(White, BEYOND.to, 6) == Some(CLOSER) && ResolveMove(White, CLOSER.to, 4) == Some(THERE)
  {
    assert ProgressForIndex(White, 9) == Some(10) && ProgressForIndex(White, 29) == Some(30) && ProgressForIndex(White, 35) == Some(36);
  }

  lemma DetourIsTaken(revision: nat, n: int)
    requires ValidState(Board(n, n, White, Waiting(0), FOUR.to, Waiting(1)))
    ensures NextAll(GameSnapshot(revision, Board(n, n, White, Waiting(0), FOUR.to, Waiting(1))), Detour())
            == GameSnapshot(revision + 11, Board(n, n, Black, Waiting(0), FOUR.to, FAR))
    ensures ValidState(Board(n, n, Black, Waiting(0), FOUR.to, FAR))
  {
    hide ValidState, ResolveMove, Destinations, NextAll, Turn, Hit, Board;
    WhiteCounts(n);
    WhitePaths();
    DetourPaths();
    NeverHit();
    var start := GameSnapshot(revision, Board(n, n, White, Waiting(0), FOUR.to, Waiting(1)));
    var pass := [Roll(1, 1, true, true, false)];
    var a := Turn(2, 6, 1) + Turn(2, 6, 1);
    var b := a + Turn(2, 4, 1);
    var c := b + pass;
    var d := c + Turn(2, 6, 1);
    WhiteTurn(revision, n, n, Waiting(0), FOUR.to, Waiting(1), 6, 1, LAUNCHED);
    WhiteTurn(revision + 2, n, n, Waiting(0), FOUR.to, LAUNCHED.to, 6, 1, NINE);
    NextAllOf(start, Turn(2, 6, 1), Turn(2, 6, 1));
    WhiteTurn(revision + 4, n, n, Waiting(0), FOUR.to, NINE.to, 4, 1, BEYOND);
    NextAllOf(start, a, Turn(2, 4, 1));
    BlackPasses(revision + 6, n, n, FOUR.to, BEYOND.to);
    NextAllOf(start, b, pass);
    WhiteTurn(revision + 7, n, n, Waiting(0), FOUR.to, BEYOND.to, 6, 1, CLOSER);
    NextAllOf(start, c, Turn(2, 6, 1));
    WhiteTurn(revision + 9, n, n, Waiting(0), FOUR.to, CLOSER.to, 4, 1, THERE);
    NextAllOf(start, d, Turn(2, 4, 1));
  }

  lemma WhiteCounts(n: int)
    requires ValidState(Board(n, n, White, Waiting(0), FOUR.to, Waiting(1)))
    ensures 0 <= n <= CAPTURE_CAP
  {
    hide MovableSlots;
  }

  lemma TodayTakesTwo(n: int)
    ensures TodayTakes(FourThrown(n, FAR), 0) == 2
  {
    var s := FourThrown(n, FAR);
    BlackPaths();
    BothTaken(s.pieces.white, Destinations(ACROSS, true, true));
    hide ResolveMove, Destinations, CapturedSlots;
  }

  lemma OlderRuleCounts(n: int)
    ensures var s := FourThrown(n, FAR);
      && ResolveMove(Black, s.pieces.black[0], 4) == Some(ACROSS)
      && |CapturedSlots(s.pieces.white, Destinations(ACROSS, false, false), PIECE_COUNT)| == 1
  {
    BlackPaths();
    OnlyTheFirst(FourThrown(n, FAR).pieces.white, Destinations(ACROSS, false, false));
    hide ResolveMove, Destinations, CapturedSlots;
  }

  lemma OlderRuleTakesOne(revision: nat, n: int)
    requires ValidState(FourThrown(n, FAR)) && n + 1 <= CAPTURE_CAP
    ensures Answer(GameSnapshot(revision, FourThrown(n, FAR)), Move(1, 0, DestinationOnly)).Ok?
  {
    hide ValidState, ResolveMove, Destinations, CapturedSlots, ApplyMove;
    OlderRuleCounts(n);
    LegalMoveIsAccepted(GameSnapshot(revision, FourThrown(n, FAR)), 1, 0, false, false);
  }

  lemma BothTaken(pieces: seq<Piece>, destinations: seq<Piece>)
    requires |pieces| == PIECE_COUNT && Hit(pieces[0], destinations) && Hit(pieces[1], destinations)
    requires !Hit(pieces[2], destinations) && !Hit(pieces[3], destinations)
    ensures |CapturedSlots(pieces, destinations, PIECE_COUNT)| == 2
  {
    hide Hit;
    assert CapturedSlots(pieces, destinations, 0) == [];
    assert CapturedSlots(pieces, destinations, 2) == [0, 1];
    assert CapturedSlots(pieces, destinations, 3) == [0, 1];
  }

  predicate Current(requests: seq<Request>) {
    forall i :: 0 <= i < |requests| ==> IsCurrent(requests[i])
  }

  lemma {:induction false} RoundsAreCurrent(n: nat)
    ensures Current(Rounds(n))
  {
    if n > 0 {
      RoundsAreCurrent(n - 1);
    }
  }

  // Everything before the move that is counted differently.
  function LongGame(): seq<Request> {
    Rounds(CAPTURE_CAP - 1) + [Roll(1, 1, true, true, false)] + Detour() + BlackRuns() + [Roll(1, 4, true, true, false)]
  }

  lemma LongGameIsPlayed(n: nat)
    requires n + 1 == CAPTURE_CAP
    ensures Play(LongGame()).snap == GameSnapshot(22 + 10 * n, FourThrown(n, FAR)) && ValidState(FourThrown(n, FAR))
  {
    hide NextAll, ValidState, Turn, BlackRuns, Rounds, Play, InitialSnapshot, Detour, Board, ResolveMove, Destinations, Hit, Current, FourThrown;
    var pass := [Roll(1, 1, true, true, false)];
    var a := Rounds(n) + pass;
    RoundsArePlayed(n);
    hide Round;
    RoundFacts(n);
    BlackPasses(5 + 10 * n, n, n, FOUR.to, Waiting(1));
    NextAllOf(InitialSnapshot(), Rounds(n), pass);
    DetourIsTaken(6 + 10 * n, n);
    NextAllOf(InitialSnapshot(), a, Detour());
    BlackComesClose(17 + 10 * n, n, n, FOUR.to, FAR);
    NextAllOf(InitialSnapshot(), a + Detour(), BlackRuns());
    FourIsThrown(21 + 10 * n, n, FAR);
    NextAllOf(InitialSnapshot(), a + Detour() + BlackRuns(), [Roll(1, 4, true, true, false)]);
    PlayIsNextAll(LongGame());
  }

  lemma RoundFacts(n: int)
    ensures Round(n) == Board(n, n, Black, Waiting(0), FOUR.to, Waiting(1))
  {
  }

  lemma LongGameIsCurrent()
    ensures Current(LongGame())
  {
    RoundsAreCurrent(CAPTURE_CAP - 1);
    ShortPartsAreCurrent();
    hide Rounds, Detour, BlackRuns;
  }

  lemma ShortPartsAreCurrent()
    ensures Current(Detour()) && Current(BlackRuns())
  {
  }

  /** The cap can defeat replay: in this game an older rule accepts a move that captures one piece
      and fills the counter; today's rule would capture two, refuses, and is the only one asked. */
  lemma CapDefeatsReplay()
    ensures exists requests, last ::
      && Rebuilt(Play(requests).log) == Ok(Play(requests).snap)
      && Answer(Play(requests).snap, last).Ok?
      && Rebuilt(Play(requests + [last]).log) == Err(InvalidEvent)
  {
    hide LongGame, Play, Answer, ValidState, Rebuilt, TodayTakes, Board, AllWithinCap;
    var requests, last := LongGame(), Move(1, 0, DestinationOnly);
    LongGameIsPlayed(CAPTURE_CAP - 1);
    LongGameIsCurrent();
    TodayTakesTwo(CAPTURE_CAP - 1);
    OlderRuleTakesOne(22 + 10 * (CAPTURE_CAP - 1), CAPTURE_CAP - 1);
    CurrentGamesStayWithinCap(requests);
    ReplayIsFaithful(requests);
    assert !WithinCap(Play(requests).snap.state, last) by {
      FourFacts(CAPTURE_CAP - 1);
    }
    OneMoreWithinCap(requests, last);
    ReplayIsFaithful(requests + [last]);
  }

  lemma CurrentGamesStayWithinCap(requests: seq<Request>)
    requires Current(requests)
    ensures AllWithinCap(requests)
  {
    hide AllWithinCap, Play;
    GamesStayWithinCap(requests);
  }

  lemma FourFacts(n: int)
    ensures FourThrown(n, FAR).captures.Of(FourThrown(n, FAR).next) == n
  {
  }
}
