/** Chinese checkers: moves are reversible up to the camp rules, legality is symmetric under
    rotating the board, and every game keeps its pieces, its wings empty and its validator happy. */
module ChineseCheckersProofs {
  import opened Common
  import opened ChineseCheckers
  import opened ChineseCheckersRules

  // ------------------------------------------------------------------ reversing a move

  function Reversed(path: seq<int>): (r: seq<int>)
    ensures |r| == |path| && forall i :: 0 <= i < |r| ==> r[i] == path[|path| - 1 - i]
  {
    seq(|path|, i requires 0 <= i < |path| => path[|path| - 1 - i])
  }

  lemma HopIsSymmetric(cells: Cells, from: int, to: int)
    ensures Hop(cells, from, to) ==> Hop(cells, to, from)
    ensures Adjacent(from, to) <==> Adjacent(to, from)
  {
    hide PointOf, IndexOf;
    if JumpApart(from, to) {
      assert Middle(from, to) == Middle(to, from);
    }
  }

  /** After a legal move, the piece could travel straight back along the same holes: every
      check but the two camp rules passes on the new board. */
  lemma MoveIsReversible(cells: Cells, c: Color, path: seq<int>)
    requires LegalPath(cells, c, path)
    ensures ReachablePath(Moved(cells, c, path), c, Reversed(path))
  {
    hide Hop, Adjacent;
    var back := Reversed(path);
    var after := Moved(cells, c, path);
    var n := |path|;
    assert path[0] != path[n - 1];
    assert after[back[0] := Empty] == cells[path[0] := Empty];
    var lifted: Cells := cells[path[0] := Empty];
    forall i | 1 <= i < n
      ensures OnBoard(back[i]) && lifted[back[i]] == Empty
      ensures if Adjacent(back[i - 1], back[i]) then n == 2 else Hop(lifted, back[i - 1], back[i])
    {
      HopIsSymmetric(lifted, path[n - 1 - i], path[n - i]);
    }
  }

  // ------------------------------------------------------------------ rotating the board

  function Opposed(i: int): int {
    120 - i
  }

  function Swapped(cell: Cell): Cell {
    match cell case Empty => Empty case Stone(c) => Stone(c.Opposite())
  }

  /** The board seen from the other side of the table. */
  function Rotated(cells: Cells): Cells {
    seq(BOARD_CELLS, i requires 0 <= i < BOARD_CELLS => Swapped(cells[Opposed(i)]))
  }

  function RotatedPath(path: seq<int>): (r: seq<int>)
    ensures |r| == |path|
  {
    seq(|path|, i requires 0 <= i < |path| => Opposed(path[i]))
  }

  lemma RotatedRow(i: int)
    requires OnBoard(i)
    ensures RowOf(Opposed(i)) == 16 - RowOf(i)
    ensures Offset(16 - RowOf(i)) + Offset(RowOf(i)) + Len(RowOf(i)) == 121
    ensures Len(16 - RowOf(i)) == Len(RowOf(i)) && StartX(16 - RowOf(i)) + StartX(RowOf(i)) + 2 * (Len(RowOf(i)) - 1) == 24
  {
  }

  lemma RotatedPoint(i: int)
    requires OnBoard(i)
    ensures PointOf(Opposed(i)) == Point(24 - PointOf(i).x2, 16 - PointOf(i).y)
  {
    RotatedRow(i);
    hide RowOf, Offset, Len, StartX;
  }

  lemma RotatedHole(p: Point)
    ensures IndexOf(Point(24 - p.x2, 16 - p.y)) == if IndexOf(p).Some? then Some(Opposed(IndexOf(p).value)) else None
  {
    hide PointOf, IndexOf;
    var q := Point(24 - p.x2, 16 - p.y);
    if IndexOf(p).Some? {
      PointIsAHole(p);
      RotatedPoint(IndexOf(p).value);
      HoleIsOnItsRow(Opposed(IndexOf(p).value));
    } else if IndexOf(q).Some? {
      PointIsAHole(q);
      RotatedPoint(IndexOf(q).value);
      HoleIsOnItsRow(Opposed(IndexOf(q).value));
      assert false;
    }
  }

  lemma CampsRotate(i: int, c: Color)
    requires OnBoard(i)
    ensures NeutralCamp(Opposed(i)) == NeutralCamp(i)
    ensures TargetCamp(Opposed(i), c.Opposite()) == TargetCamp(i, c)
  {
    RotatedRow(i);
    hide RowOf, Offset, Len;
    HoleIsOnItsRow(i);
  }

  lemma HopRotates(cells: Cells, from: int, to: int)
    requires OnBoard(from) && OnBoard(to)
    ensures Hop(Rotated(cells), Opposed(from), Opposed(to)) == Hop(cells, from, to)
    ensures Adjacent(Opposed(from), Opposed(to)) == Adjacent(from, to)
  {
    hide PointOf, IndexOf;
    RotatedPoint(from);
    RotatedPoint(to);
    var m := Point(PointOf(from).x2 + (PointOf(to).x2 - PointOf(from).x2) / 2,
                   PointOf(from).y + (PointOf(to).y - PointOf(from).y) / 2);
    RotatedHole(m);
    if JumpApart(from, to) {
      assert Middle(Opposed(from), Opposed(to)) == IndexOf(Point(24 - m.x2, 16 - m.y));
    }
  }

  /** Turning the board round and swapping the colours keeps every path's legality. */
  lemma LegalityRotates(cells: Cells, c: Color, path: seq<int>)
    ensures LegalPath(Rotated(cells), c.Opposite(), RotatedPath(path)) == LegalPath(cells, c, path)
  {
    var back := RotatedPath(path);
    if LegalPath(cells, c, path) {
      LegalAfterRotation(cells, c, path);
    }
    if LegalPath(Rotated(cells), c.Opposite(), back) {
      assert Rotated(Rotated(cells)) == cells by {
        assert forall cell: Cell :: Swapped(Swapped(cell)) == cell;
      }
      assert RotatedPath(back) == path;
      LegalAfterRotation(Rotated(cells), c.Opposite(), back);
    }
    hide LegalPath;
  }

  lemma LegalAfterRotation(cells: Cells, c: Color, path: seq<int>)
    requires LegalPath(cells, c, path)
    ensures LegalPath(Rotated(cells), c.Opposite(), RotatedPath(path))
  {
    hide Hop, Adjacent, NeutralCamp, TargetCamp;
    var back := RotatedPath(path);
    var n := |path|;
    var lifted: Cells := cells[path[0] := Empty];
    assert Rotated(cells)[back[0] := Empty] == Rotated(lifted);
    forall i | 1 <= i < n
      ensures OnBoard(back[i]) && Rotated(lifted)[back[i]] == Empty
      ensures if Adjacent(back[i - 1], back[i]) then n == 2 else Hop(Rotated(lifted), back[i - 1], back[i])
    {
      HopRotates(lifted, path[i - 1], path[i]);
    }
    CampsRotate(path[0], c);
    CampsRotate(path[n - 1], c);
  }

  // --------------------------------------------------------------------- counting pieces

  lemma {:induction false} CountAfterWriting(cells: Cells, k: int, cell: Cell, c: Color, n: nat)
    requires OnBoard(k) && n <= BOARD_CELLS
    ensures Count(cells[k := cell], c, n) + (if k < n && cells[k] == Stone(c) then 1 else 0)
            == Count(cells, c, n) + (if k < n && cell == Stone(c) then 1 else 0)
  {
    if n > 0 {
      CountAfterWriting(cells, k, cell, c, n - 1);
    }
  }

  lemma MoveKeepsPieces(cells: Cells, c: Color, path: seq<int>)
    requires LegalPath(cells, c, path)
    ensures forall k :: Pieces(Moved(cells, c, path), k) == Pieces(cells, k)
  {
    var source, destination := path[0], path[|path| - 1];
    assert source != destination;
    forall k ensures Pieces(Moved(cells, c, path), k) == Pieces(cells, k) {
      CountAfterWriting(cells, source, Empty, k, BOARD_CELLS);
      CountAfterWriting(cells[source := Empty], destination, Stone(c), k, BOARD_CELLS);
    }
    hide LegalPath, Count;
  }

  // How many of the first `n` holes are target holes of `c` holding its pieces.
  function Home(cells: Cells, c: Color, n: nat): nat
    requires n <= BOARD_CELLS
  {
    if n == 0 then 0
    else Home(cells, c, n - 1) + if TargetCamp(n - 1, c) && cells[n - 1] == Stone(c) then 1 else 0
  }

  lemma {:induction false} HomeAfterMove(cells: Cells, c: Color, path: seq<int>, k: Color, n: nat)
    requires LegalPath(cells, c, path) && n <= BOARD_CELLS
    ensures var source, destination := path[0], path[|path| - 1];
      Home(Moved(cells, c, path), k, n) + (if k == c && source < n && TargetCamp(source, c) then 1 else 0)
      == Home(cells, k, n) + (if k == c && destination < n && TargetCamp(destination, c) then 1 else 0)
  {
    hide HopsUpTo, CampRules;
    if n > 0 {
      HomeAfterMove(cells, c, path, k, n - 1);
      assert path[0] != path[|path| - 1];
    }
  }

  /** A move never takes a piece out of its own target camp, never fills the opponent's, and
      never leaves a piece in a wing. */
  lemma MoveRespectsCamps(cells: Cells, c: Color, path: seq<int>)
    requires LegalPath(cells, c, path)
    ensures var after := Moved(cells, c, path);
      && (forall k :: Home(after, k, BOARD_CELLS) >= Home(cells, k, BOARD_CELLS))
      && (CompletedCamp(after, c.Opposite()) ==> CompletedCamp(cells, c.Opposite()))
      && (WingsEmpty(cells) ==> WingsEmpty(after))
  {
    forall k ensures Home(Moved(cells, c, path), k, BOARD_CELLS) >= Home(cells, k, BOARD_CELLS) {
      HomeAfterMove(cells, c, path, k, BOARD_CELLS);
    }
    hide NeutralCamp, HopsUpTo, TargetCamp, Home;
  }

  ghost predicate WingsEmpty(cells: Cells) {
    forall i :: OnBoard(i) && NeutralCamp(i) ==> cells[i] == Empty
  }

  // ---------------------------------------------------------------------- whole games

  /** Whatever is played from a position the validator accepts, the validator accepts. */
  lemma MovePassesValidator(snap: Snap, actor: UserId, path: seq<int>)
    requires ApplyMove(snap, actor, path).Ok?
    ensures var a := ApplyMove(snap, actor, path).value;
      Decodes(a.next) && (WingsEmpty(snap.state.board) ==> WingsEmpty(a.next.state.board))
      && (forall k :: Home(a.next.state.board, k, BOARD_CELLS) >= Home(snap.state.board, k, BOARD_CELLS))
  {
    var s := Bind(snap.state, actor).value;
    MoveKeepsPieces(s.board, s.next, path);
    MoveRespectsCamps(s.board, s.next, path);
    hide LegalPath, CompletedCamp, Pieces, WingsEmpty, Home, DecodesPath, Moved;
  }

  lemma {:induction false} InitialCounts(n: nat)
    requires n <= BOARD_CELLS
    ensures Count(InitialBoard(), Black, n) == (if n <= 10 then n else 10)
    ensures Count(InitialBoard(), White, n) == (if n <= 111 then 0 else n - 111)
  {
    if n > 0 {
      InitialCounts(n - 1);
    }
  }

  lemma InitialPassesValidator()
    ensures Decodes(InitialSnapshot()) && WingsEmpty(InitialBoard())
  {
    InitialCounts(BOARD_CELLS);
    assert TargetCamp(0, White) && InitialBoard()[0] == Stone(Black);
    assert TargetCamp(120, Black) && InitialBoard()[120] == Stone(White);
    forall i | OnBoard(i) && NeutralCamp(i) ensures InitialBoard()[i] == Empty {
      WingsAreInTheMiddle(i);
    }
    hide Count, NeutralCamp;
  }

  lemma WingsAreInTheMiddle(i: int)
    requires OnBoard(i) && NeutralCamp(i)
    ensures 10 <= i < 111
  {
  }

  datatype Request = Request(actor: UserId, path: seq<int>)

  datatype Game = Game(log: seq<Event>, snap: Snap)

  function Step(g: Game, r: Request): Game {
    match ApplyMove(g.snap, r.actor, r.path)
    case Err(_) => g
    case Ok(a) => Game(g.log + [a.event], a.next)
  }

  function Play(requests: seq<Request>): Game {
    if requests == [] then Game([], InitialSnapshot())
    else Step(Play(requests[..|requests| - 1]), requests[|requests| - 1])
  }

  lemma ReplayOneMove(snap: Snap, actor: UserId, path: seq<int>)
    requires ApplyMove(snap, actor, path).Ok?
    ensures var a := ApplyMove(snap, actor, path).value;
      ReplayEvent(snap, a.event) == Ok(a.next) && a.event.revision == a.next.revision == snap.revision + 1
  {
    hide Decodes, AfterMove, LegalPath, DecodesPath;
  }

  /** In every game there are ten pieces of each colour, the wings are empty, the validator
      accepts the position and the log replays to it. */
  lemma {:induction false} EveryGameReplays(requests: seq<Request>)
    ensures var g := Play(requests);
      && Decodes(g.snap) && WingsEmpty(g.snap.state.board)
      && Pieces(g.snap.state.board, Black) == Pieces(g.snap.state.board, White) == 10
      && Rebuilt(g.log) == Ok(g.snap) && g.snap.revision == |g.log|
  {
    if requests == [] {
      InitialPassesValidator();
    } else {
      var before := Play(requests[..|requests| - 1]);
      EveryGameReplays(requests[..|requests| - 1]);
      var r := requests[|requests| - 1];
      if ApplyMove(before.snap, r.actor, r.path).Ok? {
        MovePassesValidator(before.snap, r.actor, r.path);
        ReplayOneMove(before.snap, r.actor, r.path);
        var log := Play(requests).log;
        assert log[..|log| - 1] == before.log;
      }
    }
    hide ReplayEvent, ApplyMove, CompletedCamp, Count, WingsEmpty;
  }

  /** Over any further play, no colour ever has fewer pieces home than before. */
  lemma {:induction false} HomeNeverShrinks(requests: seq<Request>, n: nat, c: Color)
    requires n <= |requests|
    ensures Home(Play(requests[..n]).snap.state.board, c, BOARD_CELLS) <= Home(Play(requests).snap.state.board, c, BOARD_CELLS)
  {
    if n == |requests| {
      assert requests[..n] == requests;
    } else {
      var front := requests[..|requests| - 1];
      assert front[..n] == requests[..n];
      HomeNeverShrinks(front, n, c);
      var before := Play(front);
      var r := requests[|requests| - 1];
      if ApplyMove(before.snap, r.actor, r.path).Ok? {
        MovePassesValidator(before.snap, r.actor, r.path);
      }
    }
    hide ApplyMove, Home, Decodes, WingsEmpty;
  }
}
