/** Chinese checkers on the 121-hole star (server/internal/games/chinesecheckers). */
module ChineseCheckers {
  import opened Common

  const BOARD_CELLS := 121
  const ROWS := 17
  const ROW_LENGTHS: seq<int> := [1, 2, 3, 4, 13, 12, 11, 10, 9, 10, 11, 12, 13, 4, 3, 2, 1]
  const ROW_STARTS: seq<int> := [12, 11, 10, 9, 0, 1, 2, 3, 4, 3, 2, 1, 0, 9, 10, 11, 12]

  datatype Point = Point(x2: int, y: int)

  // ---------------------------------------------------------------------- the geometry

  function Len(row: int): int {
    if row < 4 then row + 1 else if row <= 8 then 17 - row else if row <= 12 then row + 1 else 17 - row
  }

  function StartX(row: int): int {
    if row < 4 then 12 - row else if row <= 8 then row - 4 else if row <= 12 then 12 - row else row - 4
  }

  /** How many holes the rows above `row` have. */
  function Offset(row: int): int {
    if row <= 0 then 0 else if row == 1 then 1 else if row == 2 then 3 else if row == 3 then 6
    else if row == 4 then 10 else if row == 5 then 23 else if row == 6 then 35 else if row == 7 then 46
    else if row == 8 then 56 else if row == 9 then 65 else if row == 10 then 75 else if row == 11 then 86
    else if row == 12 then 98 else if row == 13 then 111 else if row == 14 then 115 else if row == 15 then 118
    else if row == 16 then 120 else 121
  }

  function RowOf(i: int): int {
    if i < 1 then 0 else if i < 3 then 1 else if i < 6 then 2 else if i < 10 then 3
    else if i < 23 then 4 else if i < 35 then 5 else if i < 46 then 6 else if i < 56 then 7
    else if i < 65 then 8 else if i < 75 then 9 else if i < 86 then 10 else if i < 98 then 11
    else if i < 111 then 12 else if i < 115 then 13 else if i < 118 then 14 else if i < 120 then 15 else 16
  }

  function PointOf(i: int): Point {
    Point(StartX(RowOf(i)) + 2 * (i - Offset(RowOf(i))), RowOf(i))
  }

  function IndexOf(p: Point): Option<int> {
    if 0 <= p.y < ROWS && (p.x2 - StartX(p.y)) % 2 == 0 && 0 <= (p.x2 - StartX(p.y)) / 2 < Len(p.y)
    then Some(Offset(p.y) + (p.x2 - StartX(p.y)) / 2)
    else None
  }

  predicate OnBoard(i: int) {
    0 <= i < BOARD_CELLS
  }

  lemma TablesAreRegular(row: int)
    requires 0 <= row < ROWS
    ensures ROW_LENGTHS[row] == Len(row) && ROW_STARTS[row] == StartX(row) && Offset(row + 1) == Offset(row) + Len(row)
  {
  }

  lemma HoleOfRow(row: int, column: int)
    requires 0 <= row < ROWS && 0 <= column < Len(row)
    ensures OnBoard(Offset(row) + column) && RowOf(Offset(row) + column) == row
    ensures PointOf(Offset(row) + column) == Point(StartX(row) + 2 * column, row)
    ensures IndexOf(Point(StartX(row) + 2 * column, row)) == Some(Offset(row) + column)
  {
  }

  lemma HoleIsOnItsRow(i: int)
    requires OnBoard(i)
    ensures 0 <= RowOf(i) < ROWS && 0 <= i - Offset(RowOf(i)) < Len(RowOf(i))
    ensures IndexOf(PointOf(i)) == Some(i)
  {
    HoleOfRow(RowOf(i), i - Offset(RowOf(i)));
  }

  lemma PointIsAHole(p: Point)
    requires IndexOf(p).Some?
    ensures OnBoard(IndexOf(p).value) && PointOf(IndexOf(p).value) == p
  {
    HoleOfRow(p.y, (p.x2 - StartX(p.y)) / 2);
  }

  /** Fills the two tables row by row; together they are a bijection of holes and points. */
  method BuildGeometry() returns (points: array<Point>, indices: map<Point, int>)
    ensures points.Length == BOARD_CELLS && fresh(points)
    ensures forall i :: OnBoard(i) ==> points[i] == PointOf(i)
    ensures forall p :: p in indices <==> IndexOf(p).Some?
    ensures forall p :: p in indices ==> IndexOf(p) == Some(indices[p])
  {
    hide PointOf, IndexOf, Offset;
    points := new Point[BOARD_CELLS](_ => Point(0, 0));
    indices := map[];
    var index := 0;
    assert Offset(0) == 0 && Offset(ROWS) == BOARD_CELLS by { BoardEnds(); }
    for row := 0 to ROWS
      invariant index == Offset(row)
      invariant forall i :: 0 <= i < index && i < BOARD_CELLS ==> points[i] == PointOf(i) && PointOf(i) in indices
      invariant forall p :: p in indices ==> 0 <= indices[p] < index && IndexOf(p) == Some(indices[p])
    {
      TablesAreRegular(row);
      for column := 0 to ROW_LENGTHS[row]
        invariant index == Offset(row) + column
        invariant forall i :: 0 <= i < index && i < BOARD_CELLS ==> points[i] == PointOf(i) && PointOf(i) in indices
        invariant forall p :: p in indices ==> 0 <= indices[p] < index && IndexOf(p) == Some(indices[p])
      {
        HoleOfRow(row, column);
        var value := Point(ROW_STARTS[row] + 2 * column, row);
        points[index] := value;
        indices := indices[value := index];
        index := index + 1;
      }
    }
    forall p | IndexOf(p).Some? ensures p in indices {
      PointIsAHole(p);
    }
  }

  lemma BoardEnds()
    ensures Offset(0) == 0 && Offset(ROWS) == BOARD_CELLS
  {
  }

  // --------------------------------------------------------------------------- camps

  predicate TargetCamp(i: int, c: Color) {
    if c.Black? then 111 <= i < BOARD_CELLS else 0 <= i <= 9
  }

  /** The four wings where no piece may rest. */
  predicate NeutralCamp(i: int) {
    OnBoard(i) &&
    var row := RowOf(i);
    var column := i - Offset(row);
    var depth := if 4 <= row <= 7 then 8 - row else if 9 <= row <= 12 then row - 8 else 0;
    depth > 0 && (column < depth || column >= Len(row) - depth)
  }

  method IsNeutralCamp(index: int) returns (neutral: bool)
    ensures neutral == NeutralCamp(index)
  {
    if index < 0 || index >= BOARD_CELLS {
      return false;
    }
    var row := PointOf(index).y;
    if row < 4 || row > 12 || row == 8 {
      return false;
    }
    var rowOffset := 0;
    for current := 0 to row
      invariant rowOffset == Offset(current)
    {
      TablesAreRegular(current);
      rowOffset := rowOffset + ROW_LENGTHS[current];
    }
    TablesAreRegular(row);
    var column := index - rowOffset;
    var wingDepth := if row <= 7 then 8 - row else row - 8;
    return wingDepth > 0 && (column < wingDepth || column >= ROW_LENGTHS[row] - wingDepth);
  }

  // ---------------------------------------------------------------------------- moves

  type Cells = s: seq<Cell> | |s| == BOARD_CELLS witness seq(BOARD_CELLS, _ => Empty)

  predicate AdjacentDelta(x2: int, y: int) {
    (y == 0 && (x2 == -2 || x2 == 2)) || ((y == -1 || y == 1) && (x2 == -1 || x2 == 1))
  }

  predicate JumpDelta(x2: int, y: int) {
    (y == 0 && (x2 == -4 || x2 == 4)) || ((y == -2 || y == 2) && (x2 == -2 || x2 == 2))
  }

  predicate Adjacent(from: int, to: int) {
    AdjacentDelta(PointOf(to).x2 - PointOf(from).x2, PointOf(to).y - PointOf(from).y)
  }

  predicate JumpApart(from: int, to: int) {
    JumpDelta(PointOf(to).x2 - PointOf(from).x2, PointOf(to).y - PointOf(from).y)
  }

  function Middle(from: int, to: int): Option<int> {
    IndexOf(Point(PointOf(from).x2 + (PointOf(to).x2 - PointOf(from).x2) / 2,
                  PointOf(from).y + (PointOf(to).y - PointOf(from).y) / 2))
  }

  /** A jump over a piece that stands on the fixed board `cells`. */
  predicate Hop(cells: Cells, from: int, to: int) {
    && JumpApart(from, to)
    && Middle(from, to).Some?
    && OnBoard(Middle(from, to).value) && cells[Middle(from, to).value] != Empty
  }

  predicate Distinct(path: seq<int>) {
    forall i, j :: 0 <= i < j < |path| ==> path[i] != path[j]
  }

  /** The first `n` hops of `path` on the fixed board: one step, or jumps all along. */
  predicate HopsUpTo(cells: Cells, path: seq<int>, n: int) {
    forall i :: 1 <= i < n && i < |path| ==>
      OnBoard(path[i]) && cells[path[i]] == Empty
      && if Adjacent(path[i - 1], path[i]) then |path| == 2 else Hop(cells, path[i - 1], path[i])
  }

  predicate ProperPath(path: seq<int>) {
    2 <= |path| <= BOARD_CELLS && (forall i :: 0 <= i < |path| ==> OnBoard(path[i])) && Distinct(path)
  }

  /** Everything a path must satisfy except the two camp rules, on the board as it stands with
      only the moving piece lifted off. */
  predicate ReachablePath(cells: Cells, c: Color, path: seq<int>) {
    && ProperPath(path)
    && cells[path[0]] == Stone(c) && cells[path[|path| - 1]] == Empty
    && HopsUpTo(cells[path[0] := Empty], path, |path|)
  }

  predicate CampRules(c: Color, path: seq<int>)
    requires |path| > 0
  {
    !NeutralCamp(path[|path| - 1]) && (TargetCamp(path[0], c) ==> TargetCamp(path[|path| - 1], c))
  }

  predicate LegalPath(cells: Cells, c: Color, path: seq<int>) {
    ReachablePath(cells, c, path) && CampRules(c, path)
  }

  method IsProperPath(path: seq<int>) returns (proper: bool)
    ensures proper == ProperPath(path)
  {
    if |path| < 2 || |path| > BOARD_CELLS {
      return false;
    }
    var seen: set<int> := {};
    for i := 0 to |path|
      invariant forall k :: 0 <= k < i ==> OnBoard(path[k])
      invariant forall x :: x in seen <==> x in path[..i]
      invariant Distinct(path[..i])
    {
      if path[i] < 0 || path[i] >= BOARD_CELLS {
        return false;
      }
      if path[i] in seen {
        var k :| 0 <= k < i && path[k] == path[i];
        return false;
      }
      assert path[..i + 1] == path[..i] + [path[i]];
      seen := seen + {path[i]};
    }
    assert path[..|path|] == path;
    return true;
  }

  /** Walks the path moving the piece on its own copy of the board, hop by hop. */
  method ValidMovePath(board: Cells, color: Color, path: seq<int>) returns (valid: bool)
    ensures valid == LegalPath(board, color, path)
  {
    hide IndexOf, PointOf, NeutralCamp, AdjacentDelta, JumpDelta;
    var proper := IsProperPath(path);
    if !proper {
      return false;
    }
    var source, destination := path[0], path[|path| - 1];
    var neutral := IsNeutralCamp(destination);
    if board[source] != Stone(color) || board[destination] != Empty || neutral {
      return false;
    }
    if TargetCamp(source, color) && !TargetCamp(destination, color) {
      return false;
    }
    var cells := board;
    var current := source;
    cells := cells[current := Empty];
    ghost var lifted: Cells := cells;
    for i := 1 to |path|
      invariant current == path[i - 1]
      invariant cells == if i == 1 then lifted else lifted[current := Stone(color)]
      invariant lifted[current] == Empty
      invariant HopsUpTo(lifted, path, i)
    {
      hide ReachablePath, CampRules, ProperPath;
      var next := path[i];
      assert next != current;
      if cells[next] != Empty {
        StuckAt(board, color, path, i);
        return false;
      }
      var x2 := PointOf(next).x2 - PointOf(current).x2;
      var y := PointOf(next).y - PointOf(current).y;
      if AdjacentDelta(x2, y) {
        if |path| != 2 {
          StuckAt(board, color, path, i);
          return false;
        }
      } else if JumpDelta(x2, y) {
        MiddleIsBetween(current, next);
        var middle := Middle(current, next);
        if middle.None? || cells[middle.value] == Empty {
          StuckAt(board, color, path, i);
          return false;
        }
      } else {
        StuckAt(board, color, path, i);
        return false;
      }
      cells := cells[current := Empty];
      cells := cells[next := Stone(color)];
      current := next;
    }
    return true;
  }

  lemma StuckAt(board: Cells, color: Color, path: seq<int>, i: int)
    requires ProperPath(path) && 1 <= i < |path|
    requires var lifted := board[path[0] := Empty];
      !(lifted[path[i]] == Empty && if Adjacent(path[i - 1], path[i]) then |path| == 2 else Hop(lifted, path[i - 1], path[i]))
    ensures !LegalPath(board, color, path)
  {
    hide Hop, Adjacent;
  }

  /** The hole jumped over is a hole of the board, and neither end of the jump. */
  lemma MiddleIsBetween(from: int, to: int)
    requires OnBoard(from) && OnBoard(to) && JumpApart(from, to)
    ensures Middle(from, to).Some? ==>
      OnBoard(Middle(from, to).value) && Middle(from, to).value != from && Middle(from, to).value != to
  {
    hide IndexOf, PointOf;
    var m := Point(PointOf(from).x2 + (PointOf(to).x2 - PointOf(from).x2) / 2,
                   PointOf(from).y + (PointOf(to).y - PointOf(from).y) / 2);
    if IndexOf(m).Some? {
      PointIsAHole(m);
      HoleIsOnItsRow(from);
      HoleIsOnItsRow(to);
    }
  }
}
