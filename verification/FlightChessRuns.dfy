/** Whole games of aeroplane chess, played under any mixture of today's and older rules:
    conservation of pieces, and replay of the log. */
module FlightChessRuns {
  import opened Common
  import opened FlightChess
  import opened FlightChessProofs

  datatype MoveRule = Today | LandingsOnly | DestinationOnly {
    function Options(): (bool, bool) {
      match this
      case Today => (true, true)
      case LandingsOnly => (true, false)
      case DestinationOnly => (false, false)
    }
  }

  /** A request, and the rule in force when it was answered. A roll logged in the old format
      also carried an empty penalty list. */
  datatype Request =
    | Roll(actor: UserId, value: int, allowBounce: bool, allowFiveLaunch: bool, oldFormat: bool)
    | Move(actor: UserId, pieceIndex: int, rule: MoveRule)

  predicate IsCurrent(r: Request) {
    match r
    case Roll(_, _, allowBounce, allowFiveLaunch, _) => allowBounce && allowFiveLaunch
    case Move(_, _, rule) => rule == Today
  }

  function Answer(snap: Snap, r: Request): Reply {
    match r
    case Roll(actor, value, allowBounce, allowFiveLaunch, oldFormat) =>
      var reply := ApplyRoll(snap, actor, value, allowBounce, allowFiveLaunch);
      if oldFormat && reply.Ok? then
        var event := reply.value.event;
        Ok(Applied(event.(payload := event.payload.(penalty := Some([]))), reply.value.next))
      else reply
    case Move(actor, pieceIndex, rule) =>
      ApplyMove(snap, actor, pieceIndex, rule.Options().0, rule.Options().1)
  }

  datatype Game = Game(log: seq<Event>, snap: Snap)

  /** A refused request leaves the game as it was. */
  function Step(g: Game, r: Request): Game {
    match Answer(g.snap, r)
    case Err(_) => g
    case Ok(applied) => Game(g.log + [applied.event], applied.next)
  }

  function Play(requests: seq<Request>): Game {
    if requests == [] then Game([], InitialSnapshot())
    else Step(Play(requests[..|requests| - 1]), requests[|requests| - 1])
  }

  // ------------------------------------------------------------------- counting pieces

  function Out(pieces: seq<Piece>, n: nat): nat
    requires n <= |pieces|
  {
    if n == 0 then 0 else Out(pieces, n - 1) + if pieces[n - 1].zone != Hangar then 1 else 0
  }

  function OutOf(s: State, c: Color): nat {
    Out(s.pieces.Of(c), |s.pieces.Of(c)|)
  }

  function Launches(log: seq<Event>, c: Color): nat {
    if log == [] then 0
    else
      var p := log[|log| - 1].payload;
      Launches(log[..|log| - 1], c) + if p.MoveAccepted? && p.color == c && p.from.zone == Hangar then 1 else 0
  }

  function Moves(log: seq<Event>): nat {
    if log == [] then 0
    else Moves(log[..|log| - 1]) + if log[|log| - 1].payload.MoveAccepted? then 1 else 0
  }

  lemma {:induction false} OutAfterReplacing(pieces: seq<Piece>, k: nat, to: Piece, n: nat)
    requires k < |pieces| && n <= |pieces| && to.zone != Hangar
    ensures Out(pieces[k := to], n) == Out(pieces, n) + if k < n && pieces[k].zone == Hangar then 1 else 0
  {
    if n > 0 {
      OutAfterReplacing(pieces, k, to, n - 1);
    }
  }

  lemma {:induction false} OutAfterCapture(pieces: seq<Piece>, destinations: seq<Piece>, n: nat)
    requires n <= |pieces|
    ensures Out(SentHome(pieces, destinations), n) + |CapturedSlots(pieces, destinations, n)| == Out(pieces, n)
  {
    if n > 0 {
      OutAfterCapture(pieces, destinations, n - 1);
    }
  }

  // -------------------------------------------------------------- no cell is shared

  ghost predicate NoSharedCell(s: State) {
    forall i, j :: 0 <= i < |s.pieces.black| && 0 <= j < |s.pieces.white|
      && s.pieces.black[i].zone == Main && s.pieces.white[j].zone == Main
      ==> s.pieces.black[i] != s.pieces.white[j]
  }

  lemma DestinationIsStruck(r: Resolution, captureLandings: bool, captureCrossing: bool)
    requires r.to.zone == Main && 0 <= r.to.index < MAIN_CELL_COUNT
    ensures r.to in Destinations(r, captureLandings, captureCrossing)
  {
    assert Back(r.to, 0) == r.to;
    var cells := LandingCells(r);
    assert cells[|cells| - 1] == r.to;
  }

  lemma MoveKeepsCellsApart(s: State, actor: UserId, pieceIndex: int, to: Piece, destinations: seq<Piece>)
    requires |s.pieces.black| == |s.pieces.white| == PIECE_COUNT && 0 <= pieceIndex < PIECE_COUNT
    requires NoSharedCell(s)
    requires to.zone == Main ==> to in destinations
    ensures NoSharedCell(AfterMove(s, actor, pieceIndex, to, destinations))
  {
    hide AllFinished, CapturedSlots;
    var enemy := s.pieces.Of(s.next.Opposite());
    var home := SentHome(enemy, destinations);
    forall j | 0 <= j < |home| && home[j].zone == Main ensures home[j] == enemy[j] && home[j] != to {
    }
    var next := AfterMove(s, actor, pieceIndex, to, destinations);
    assert next.pieces.Of(s.next) == s.pieces.Of(s.next)[pieceIndex := to];
    assert next.pieces.Of(s.next.Opposite()) == home;
  }

  // ------------------------------------------------------------ what every game keeps

  predicate Balanced(g: Game, c: Color) {
    Launches(g.log, c) == OutOf(g.snap.state, c) + g.snap.state.captures.Of(c.Opposite())
  }

  ghost predicate Sound(g: Game) {
    && g.snap.revision == |g.log|
    && ValidState(g.snap.state)
    && NoSharedCell(g.snap.state)
    && Balanced(g, Black) && Balanced(g, White)
    && Launches(g.log, Black) + Launches(g.log, White) <= Moves(g.log)
    && 2 * Moves(g.log) + (if g.snap.state.phase == AwaitingMove then 1 else 0) <= |g.log|
  }

  /** One accepted move: what it logs and what it leaves. */
  lemma MoveFacts(snap: Snap, actor: UserId, pieceIndex: int, captureLandings: bool, captureCrossing: bool)
    requires ApplyMove(snap, actor, pieceIndex, captureLandings, captureCrossing).Ok?
    ensures var a := ApplyMove(snap, actor, pieceIndex, captureLandings, captureCrossing).value;
      var s, t, p := snap.state, a.next.state, a.event.payload;
      var c := s.next;
      && snap.revision >= 0 && ValidState(s) && ValidState(t) && s.phase == AwaitingMove && t.phase == AwaitingRoll
      && a.next.revision == a.event.revision == snap.revision + 1
      && p.MoveAccepted? && p.color == c && DecodesMove(p) && p.user == actor == a.event.actor && p.pieceIndex == pieceIndex
      && OutOf(t, c) == OutOf(s, c) + (if p.from.zone == Hangar then 1 else 0)
      && OutOf(t, c.Opposite()) + |p.captured| == OutOf(s, c.Opposite())
      && t.captures.Of(c) == s.captures.Of(c) + |p.captured|
      && t.captures.Of(c.Opposite()) == s.captures.Of(c.Opposite())
      && (NoSharedCell(s) ==> NoSharedCell(t))
  {
    BindKeepsValidity(snap.state, actor);
    var s := Bind(snap.state, actor).value;
    var c := s.next;
    var from := s.pieces.Of(c)[pieceIndex];
    var r := ResolveMove(c, from, s.dice).value;
    var destinations := Destinations(r, captureLandings, captureCrossing);
    var enemy := s.pieces.Of(c.Opposite());
    ResolvedPieceIsValid(c, from, pieceIndex, s.dice);
    OutAfterReplacing(s.pieces.Of(c), pieceIndex, r.to, PIECE_COUNT);
    OutAfterCapture(enemy, destinations, PIECE_COUNT);
    CapturedSlotsSpec(enemy, destinations, PIECE_COUNT);
    if r.to.zone == Main {
      DestinationIsStruck(r, captureLandings, captureCrossing);
    }
    if NoSharedCell(s) {
      MoveKeepsCellsApart(s, actor, pieceIndex, r.to, destinations);
    }
    hide ResolveMove, Destinations, CapturedSlots, SentHome, AllFinished, ValidPieces, MovableSlots, Out, NoSharedCell;
  }

  lemma RollFacts(snap: Snap, actor: UserId, value: int, allowBounce: bool, allowFiveLaunch: bool)
    requires ApplyRoll(snap, actor, value, allowBounce, allowFiveLaunch).Ok?
    ensures var a := ApplyRoll(snap, actor, value, allowBounce, allowFiveLaunch).value;
      var s, t, p := snap.state, a.next.state, a.event.payload;
      && snap.revision >= 0 && ValidState(s) && ValidState(t) && s.phase == AwaitingRoll
      && a.next.revision == a.event.revision == snap.revision + 1
      && p.RollAccepted? && p.color == s.next && DecodesRoll(p) && p.user == actor == a.event.actor && p.value == value
      && t.pieces == s.pieces && t.captures == s.captures
  {
    var s := Bind(snap.state, actor).value;
    MovableSlotsAreIndices(s.next, s.pieces.Of(s.next), value, allowBounce, allowFiveLaunch);
    hide MovableSlots, ValidIndices, ValidState;
  }

  lemma MovableSlotsAreIndices(c: Color, pieces: seq<Piece>, dice: int, allowBounce: bool, allowFiveLaunch: bool)
    requires |pieces| == PIECE_COUNT
    ensures ValidIndices(MovableSlots(c, pieces, dice, allowBounce, allowFiveLaunch, PIECE_COUNT))
  {
    MovableSlotsSpec(c, pieces, dice, allowBounce, allowFiveLaunch, PIECE_COUNT);
    hide MovableSlots, ResolveMove;
  }

  lemma LogGrows(log: seq<Event>, e: Event, c: Color)
    ensures Launches(log + [e], c)
            == Launches(log, c) + if e.payload.MoveAccepted? && e.payload.color == c && e.payload.from.zone == Hangar then 1 else 0
    ensures Moves(log + [e]) == Moves(log) + if e.payload.MoveAccepted? then 1 else 0
  {
    assert (log + [e])[..|log|] == log;
  }

  lemma RollKeepsSound(g: Game, actor: UserId, value: int, allowBounce: bool, allowFiveLaunch: bool, oldFormat: bool)
    requires Sound(g)
    ensures Sound(Step(g, Roll(actor, value, allowBounce, allowFiveLaunch, oldFormat)))
  {
    hide ApplyRoll, ValidState, OutOf, NoSharedCell, Launches, Moves;
    var r := Roll(actor, value, allowBounce, allowFiveLaunch, oldFormat);
    if Answer(g.snap, r).Ok? {
      var next := Step(g, r);
      RollFacts(g.snap, actor, value, allowBounce, allowFiveLaunch);
      RollKeepsPieces(g.snap.state, next.snap.state);
      var e := next.log[|g.log|];
      LogGrows(g.log, e, Black);
      LogGrows(g.log, e, White);
    }
  }

  lemma MoveKeepsSound(g: Game, actor: UserId, pieceIndex: int, rule: MoveRule)
    requires Sound(g)
    ensures Sound(Step(g, Move(actor, pieceIndex, rule)))
  {
    hide ApplyMove, ValidState, OutOf, NoSharedCell, Launches, Moves;
    var r := Move(actor, pieceIndex, rule);
    if Answer(g.snap, r).Ok? {
      var next := Step(g, r);
      MoveFacts(g.snap, actor, pieceIndex, rule.Options().0, rule.Options().1);
      var e := next.log[|g.log|];
      LogGrows(g.log, e, Black);
      LogGrows(g.log, e, White);
    }
  }

  lemma StepKeepsSound(g: Game, r: Request)
    requires Sound(g)
    ensures Sound(Step(g, r))
  {
    match r
    case Roll(actor, value, allowBounce, allowFiveLaunch, oldFormat) =>
      RollKeepsSound(g, actor, value, allowBounce, allowFiveLaunch, oldFormat);
    case Move(actor, pieceIndex, rule) =>
      MoveKeepsSound(g, actor, pieceIndex, rule);
  }

  lemma RollKeepsPieces(s: State, t: State)
    requires t.pieces == s.pieces
    ensures NoSharedCell(t) == NoSharedCell(s) && forall c :: OutOf(t, c) == OutOf(s, c)
  {
  }

  lemma {:induction false} EveryGameIsSound(requests: seq<Request>)
    ensures Sound(Play(requests))
  {
    if requests == [] {
      InitialIsSound();
    } else {
      EveryGameIsSound(requests[..|requests| - 1]);
      StepKeepsSound(Play(requests[..|requests| - 1]), requests[|requests| - 1]);
    }
    hide Sound, Step;
  }

  lemma InitialIsSound()
    ensures Sound(Game([], InitialSnapshot()))
  {
    assert HangarPieces()[0].zone == Hangar;
    assert Out(HangarPieces(), 0) == Out(HangarPieces(), 1) == Out(HangarPieces(), 2) == Out(HangarPieces(), 3) == 0;
  }

  lemma SoundBoundsCaptures(g: Game)
    requires Sound(g)
    ensures 0 <= g.snap.state.captures.black && 0 <= g.snap.state.captures.white
    ensures 2 * (g.snap.state.captures.black + g.snap.state.captures.white) <= g.snap.revision
  {
    hide Launches, Moves, OutOf, NoSharedCell, ValidPieces, MovableSlots;
    assert Launches(g.log, Black) == OutOf(g.snap.state, Black) + g.snap.state.captures.white;
    assert Launches(g.log, White) == OutOf(g.snap.state, White) + g.snap.state.captures.black;
  }

  /** Every launch is a piece still out or a piece the opponent has captured, so the capture
      counters together never pass half the revision. */
  lemma Conservation(requests: seq<Request>, c: Color)
    ensures var g := Play(requests);
      && Launches(g.log, c) == OutOf(g.snap.state, c) + g.snap.state.captures.Of(c.Opposite())
      && 0 <= g.snap.state.captures.black && 0 <= g.snap.state.captures.white
      && 2 * (g.snap.state.captures.black + g.snap.state.captures.white) <= g.snap.revision
  {
    EveryGameIsSound(requests);
    var g := Play(requests);
    SoundBoundsCaptures(g);
    assert Balanced(g, Black) && Balanced(g, White);
    assert c.Black? || c.White?;
    hide Launches, OutOf, ValidState, NoSharedCell, Moves;
  }

  // ----------------------------------------------------------------------------- replay

  lemma MoveIsUnambiguous(snap: Snap, actor: UserId, pieceIndex: int, v: (bool, bool), w: (bool, bool))
    requires ApplyMove(snap, actor, pieceIndex, v.0, v.1).Ok? && ApplyMove(snap, actor, pieceIndex, w.0, w.1).Ok?
    requires ApplyMove(snap, actor, pieceIndex, v.0, v.1).value.event == ApplyMove(snap, actor, pieceIndex, w.0, w.1).value.event
    ensures ApplyMove(snap, actor, pieceIndex, v.0, v.1) == ApplyMove(snap, actor, pieceIndex, w.0, w.1)
  {
    var s := Bind(snap.state, actor).value;
    var r := ResolveMove(s.next, s.pieces.Of(s.next)[pieceIndex], s.dice).value;
    hide ResolveMove, Destinations, ValidState, MovableSlots, SentHome, CapturedSlots, AllFinished, AfterMove;
    SameCapturesSameMove(s, actor, pieceIndex, r.to, Destinations(r, v.0, v.1), Destinations(r, w.0, w.1));
  }

  lemma SameCapturesSameMove(s: State, actor: UserId, pieceIndex: int, to: Piece, d: seq<Piece>, e: seq<Piece>)
    requires 0 <= pieceIndex < |s.pieces.Of(s.next)|
    requires var enemy := s.pieces.Of(s.next.Opposite()); CapturedSlots(enemy, d, |enemy|) == CapturedSlots(enemy, e, |enemy|)
    ensures AfterMove(s, actor, pieceIndex, to, d) == AfterMove(s, actor, pieceIndex, to, e)
  {
    SameCapturesSameBoard(s.pieces.Of(s.next.Opposite()), d, e);
    hide SentHome, CapturedSlots, AllFinished;
  }

  /** Two rule variants that log the same payload leave the same position. */
  lemma ReplayIsUnambiguous(snap: Snap, actor: UserId, payload: Payload, v: (bool, bool), w: (bool, bool))
    requires Matches(Attempt(snap, actor, payload, v), payload) && Matches(Attempt(snap, actor, payload, w), payload)
    ensures Attempt(snap, actor, payload, v) == Attempt(snap, actor, payload, w)
  {
    hide ValidState;
    match payload {
      case RollAccepted(_, _, value, _, _) =>
        RollFacts(snap, actor, value, v.0, v.1);
        RollFacts(snap, actor, value, w.0, w.1);
        hide MovableSlots;
      case MoveAccepted(_, _, pieceIndex, _, _, _, _, _) =>
        MoveFacts(snap, actor, pieceIndex, v.0, v.1);
        MoveFacts(snap, actor, pieceIndex, w.0, w.1);
        hide ApplyMove;
        MoveIsUnambiguous(snap, actor, pieceIndex, v, w);
    }
  }

  lemma SameCapturesSameBoard(pieces: seq<Piece>, d: seq<Piece>, e: seq<Piece>)
    requires CapturedSlots(pieces, d, |pieces|) == CapturedSlots(pieces, e, |pieces|)
    ensures SentHome(pieces, d) == SentHome(pieces, e)
  {
    CapturedSlotsSpec(pieces, d, |pieces|);
    CapturedSlotsSpec(pieces, e, |pieces|);
    var captured := CapturedSlots(pieces, d, |pieces|);
    forall i | 0 <= i < |pieces| ensures Hit(pieces[i], d) == Hit(pieces[i], e) {
      assert Hit(pieces[i], d) ==> i in captured;
      assert Hit(pieces[i], e) ==> i in captured;
    }
    hide Hit, CapturedSlots;
  }

  lemma {:induction false} SearchFindsAMatch(snap: Snap, actor: UserId, payload: Payload, j: nat, k: nat)
    requires j <= k < |Variants(payload)|
    requires Matches(Attempt(snap, actor, payload, Variants(payload)[k]), payload)
    ensures Search(snap, actor, payload, j) == Attempt(snap, actor, payload, Variants(payload)[k])
    decreases k - j
  {
    if Matches(Attempt(snap, actor, payload, Variants(payload)[j]), payload) {
      ReplayIsUnambiguous(snap, actor, payload, Variants(payload)[j], Variants(payload)[k]);
    } else {
      SearchFindsAMatch(snap, actor, payload, j + 1, k);
    }
  }

  /** Whichever variant `k` wrote an event, replay reaches the position that variant left if today's
      rule answers at all, whatever the others answer, and fails otherwise. */
  lemma ReplayOrderDoesNotMatter(snap: Snap, event: Event, payload: Payload, k: nat)
    requires Normalize(event.payload) == Some(payload)
    requires (DecodesRoll(payload) || DecodesMove(payload)) && payload.user == event.actor && event.revision == snap.revision + 1
    requires k < |Variants(payload)| && Matches(Attempt(snap, event.actor, payload, Variants(payload)[k]), payload)
    ensures ReplayEvent(snap, event) ==
      if Attempt(snap, event.actor, payload, Variants(payload)[0]).Ok?
      then Ok(Attempt(snap, event.actor, payload, Variants(payload)[k]).value.next) else Err(InvalidEvent)
  {
    var first := Attempt(snap, event.actor, payload, Variants(payload)[0]);
    if Matches(first, payload) {
      ReplayIsUnambiguous(snap, event.actor, payload, Variants(payload)[0], Variants(payload)[k]);
    } else {
      SearchFindsAMatch(snap, event.actor, payload, 1, k);
    }
    assert Attempt(snap, event.actor, payload, Variants(payload)[k]).value.event.revision == event.revision by {
      hide ResolveMove, AfterMove, Destinations, MovableSlots, CapturedSlots;
    }
    hide ApplyMove, ApplyRoll, DecodesRoll, DecodesMove;
  }

  /** The mover's captures, counted today's way, stay within the cap. */
  predicate WithinCap(s: State, r: Request) {
    r.Move? ==> s.captures.Of(s.next) + TodayTakes(s, r.pieceIndex) <= CAPTURE_CAP
  }

  /** Today's rule answers an action that some rule accepted exactly when that is so. */
  lemma TodayAnswersExactlyWithinCap(snap: Snap, r: Request)
    requires Answer(snap, r).Ok?
    ensures (match r
             case Roll(actor, value, _, _, _) => ApplyRoll(snap, actor, value, true, true).Ok?
             case Move(actor, pieceIndex, _) => ApplyMove(snap, actor, pieceIndex, true, true).Ok?)
            <==> WithinCap(snap.state, r)
    ensures IsCurrent(r) || snap.state.captures.Of(snap.state.next) + PIECE_COUNT <= CAPTURE_CAP ==> WithinCap(snap.state, r)
  {
    match r
    case Roll(actor, value, allowBounce, allowFiveLaunch, _) =>
      hide ValidState, MovableSlots;
      EveryRollIsAccepted(snap, actor, value, true, true);
    case Move(actor, pieceIndex, _) =>
      hide ValidState, ResolveMove, Destinations, CapturedSlots, AfterMove;
      PiecesOf(snap.state);
      LegalMoveIsAccepted(snap, actor, pieceIndex, true, true);
  }

  lemma PiecesOf(s: State)
    requires ValidState(s)
    ensures |s.pieces.black| == |s.pieces.white| == PIECE_COUNT
  {
    hide MovableSlots;
  }

  lemma ReplayOneEvent(g: Game, r: Request)
    requires Sound(g) && Answer(g.snap, r).Ok?
    ensures ReplayEvent(g.snap, Answer(g.snap, r).value.event) ==
      if WithinCap(g.snap.state, r) then Ok(Answer(g.snap, r).value.next) else Err(InvalidEvent)
  {
    TodayAnswersExactlyWithinCap(g.snap, r);
    hide ValidState, NoSharedCell, WithinCap;
    var applied := Answer(g.snap, r).value;
    match r
    case Roll(actor, value, allowBounce, allowFiveLaunch, oldFormat) =>
      RollFacts(g.snap, actor, value, allowBounce, allowFiveLaunch);
      var payload := ApplyRoll(g.snap, actor, value, allowBounce, allowFiveLaunch).value.event.payload;
      var k := if allowBounce then if allowFiveLaunch then 0 else 1 else if allowFiveLaunch then 2 else 3;
      assert Variants(payload)[k] == (allowBounce, allowFiveLaunch);
      hide ApplyRoll, ApplyMove;
      ReplayOrderDoesNotMatter(g.snap, applied.event, payload, k);
    case Move(actor, pieceIndex, rule) =>
      MoveFacts(g.snap, actor, pieceIndex, rule.Options().0, rule.Options().1);
      var payload := applied.event.payload;
      var k := match rule case Today => 0 case LandingsOnly => 1 case DestinationOnly => 2;
      assert Variants(payload)[k] == rule.Options();
      hide ApplyRoll, ApplyMove;
      ReplayOrderDoesNotMatter(g.snap, applied.event, payload, k);
  }

  /** Every accepted request of a game, at its time, was within the cap as today's rule counts. */
  ghost predicate AllWithinCap(requests: seq<Request>) {
    forall k :: 0 <= k < |requests| && Answer(Play(requests[..k]).snap, requests[k]).Ok? ==>
      WithinCap(Play(requests[..k]).snap.state, requests[k])
  }

  /** The log of any game, under any mixture of rules, replays to the position it was written
      from if and only if its captures were always within the cap as today's rule counts them;
      otherwise replay fails. */
  lemma {:induction false} ReplayIsFaithful(requests: seq<Request>)
    ensures Rebuilt(Play(requests).log) == if AllWithinCap(requests) then Ok(Play(requests).snap) else Err(InvalidEvent)
  {
    hide Answer, AllWithinCap, WithinCap, Rebuilt, InitialSnapshot, Sound;
    if requests == [] {
      NothingReplays();
    } else {
      var front, last := requests[..|requests| - 1], requests[|requests| - 1];
      ReplayIsFaithful(front);
      OneMoreWithinCap(front, last);
      assert requests == front + [last];
      EveryGameIsSound(front);
      if Answer(Play(front).snap, last).Ok? {
        OneMoreReplays(Play(front), last);
      }
    }
  }

  lemma NothingReplays()
    ensures Rebuilt([]) == Ok(InitialSnapshot()) && AllWithinCap([])
  {
    hide InitialSnapshot, Play, Answer, WithinCap;
  }

  // How one more event changes what a log replays to.
  lemma OneMoreReplays(g: Game, r: Request)
    requires Sound(g) && Answer(g.snap, r).Ok?
    ensures var log := g.log + [Answer(g.snap, r).value.event];
      && (Rebuilt(g.log) == Ok(g.snap) ==>
            Rebuilt(log) == if WithinCap(g.snap.state, r) then Ok(Answer(g.snap, r).value.next) else Err(InvalidEvent))
      && (Rebuilt(g.log).Err? ==> Rebuilt(log) == Err(InvalidEvent))
  {
    hide Answer, ReplayEvent, WithinCap, ValidState, NoSharedCell, Balanced, Launches, Moves, InitialSnapshot;
    ReplayOneEvent(g, r);
    AnswerRevision(g.snap, r);
    var log := g.log + [Answer(g.snap, r).value.event];
    assert log[..|log| - 1] == g.log;
    RebuiltPrefix(log, |g.log|);
  }

  lemma OneMoreWithinCap(front: seq<Request>, last: Request)
    ensures AllWithinCap(front + [last]) <==>
      AllWithinCap(front) && (Answer(Play(front).snap, last).Ok? ==> WithinCap(Play(front).snap.state, last))
  {
    hide Play, Answer, WithinCap;
    var requests := front + [last];
    assert requests[..|front|] == front;
    assert forall k :: 0 <= k < |front| ==> requests[..k] == front[..k] && requests[k] == front[k];
    if AllWithinCap(requests) {
      forall k | 0 <= k < |front| && Answer(Play(front[..k]).snap, front[k]).Ok? ensures WithinCap(Play(front[..k]).snap.state, front[k]) {
        assert requests[..k] == front[..k];
      }
    }
  }

  /** That is so under today's rules at any length, and under any mixture of older rules up to 4088
      events: eight times what a match of the service can hold. */
  lemma {:induction false} GamesStayWithinCap(requests: seq<Request>)
    requires |Play(requests).log| <= 4088 || forall i :: 0 <= i < |requests| ==> IsCurrent(requests[i])
    ensures AllWithinCap(requests)
  {
    hide Answer, Launches, OutOf, InitialSnapshot, ValidState, NoSharedCell, Balanced, Moves, WithinCap;
    if requests != [] {
      var front, last := requests[..|requests| - 1], requests[|requests| - 1];
      var before := Play(front);
      assert |before.log| <= |Play(requests).log|;
      GamesStayWithinCap(front);
      assert requests == front + [last];
      OneMoreWithinCap(front, last);
      if Answer(before.snap, last).Ok? {
        EveryGameIsSound(front);
        Conservation(front, Black);
        TodayAnswersExactlyWithinCap(before.snap, last);
      }
    }
  }

  lemma AnswerRevision(snap: Snap, r: Request)
    requires Answer(snap, r).Ok?
    ensures Answer(snap, r).value.event.revision == Answer(snap, r).value.next.revision == snap.revision + 1
  {
    hide ResolveMove, AfterMove, Destinations, MovableSlots, CapturedSlots;
  }
}
