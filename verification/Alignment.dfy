/**
 The shortest-path distance between two picture features: an edit-distance table in a flat
 array. Doubles are reals, and the final square root is not taken.
 */
module Alignment {
  import opened FeatureTypes

  function Abs(x: real): real {
    if x < 0.0 then -x else x
  }

  function Min(x: real, y: real): real {
    if x < y then x else y
  }

  // ---------- alignment paths ----------

  /** One move through the table: a row is a sample of `p2`, a column one of `p1`. */
  datatype Move = Diagonal | Down | Right

  function Row(path: seq<Move>): nat {
    if path == [] then 0 else Row(path[..|path| - 1]) + if path[|path| - 1] == Right then 0 else 1
  }

  function Column(path: seq<Move>): nat {
    if path == [] then 0 else Column(path[..|path| - 1]) + if path[|path| - 1] == Down then 0 else 1
  }

  /** The cost of arriving at (i, j) by `move`. In column 0 the code takes the absolute value of the
      sample and the penalty together. */
  function MoveCost(p1: seq<real>, p2: seq<real>, penalty: real, move: Move, i: nat, j: nat): real
    requires i <= |p2| && j <= |p1|
    requires move != Right ==> i > 0
    requires move != Down ==> j > 0
  {
    match move
    case Diagonal => Abs(p2[i - 1] - p1[j - 1])
    case Down => if j == 0 then Abs(p2[i - 1] + penalty) else Abs(p2[i - 1]) + penalty
    case Right => Abs(p1[j - 1]) + penalty
  }

  function PathCost(p1: seq<real>, p2: seq<real>, penalty: real, path: seq<Move>): real
    requires Row(path) <= |p2| && Column(path) <= |p1|
  {
    if path == [] then 0.0
    else PathCost(p1, p2, penalty, path[..|path| - 1])
         + MoveCost(p1, p2, penalty, path[|path| - 1], Row(path), Column(path))
  }

  // ---------- the table ----------

  function Least(x: real, y: real, z: real): real {
    Min(x, Min(y, z))
  }

  function Cell(p1: seq<real>, p2: seq<real>, penalty: real, i: nat, j: nat): real
    requires i <= |p2| && j <= |p1|
  {
    if i == 0 && j == 0 then 0.0
    else if i == 0 then Cell(p1, p2, penalty, 0, j - 1) + MoveCost(p1, p2, penalty, Right, 0, j)
    else if j == 0 then Cell(p1, p2, penalty, i - 1, 0) + MoveCost(p1, p2, penalty, Down, i, 0)
    else
      Least(Cell(p1, p2, penalty, i - 1, j - 1) + MoveCost(p1, p2, penalty, Diagonal, i, j),
            Cell(p1, p2, penalty, i - 1, j) + MoveCost(p1, p2, penalty, Down, i, j),
            Cell(p1, p2, penalty, i, j - 1) + MoveCost(p1, p2, penalty, Right, i, j))
  }

  predicate Steps(holds: (nat, nat) -> bool, a: nat, b: nat)
    requires a > 0 && b > 0
  {
    holds(a - 1, b) && holds(a, b - 1) && holds(a - 1, b - 1) ==> holds(a, b)
  }

  /** What holds along the first row and the first column, and of a cell when of its three neighbours, holds
      throughout. */
  lemma {:induction false} TableInduction(rows: nat, columns: nat, holds: (nat, nat) -> bool, i: nat, j: nat)
    requires i <= rows && j <= columns
    requires forall k: nat :: k <= columns ==> holds(0, k)
    requires forall k: nat :: k <= rows ==> holds(k, 0)
    requires forall a: nat, b: nat :: 0 < a <= rows && 0 < b <= columns ==> Steps(holds, a, b)
    ensures holds(i, j)
  {
    if i > 0 && j > 0 {
      TableInduction(rows, columns, holds, i - 1, j);
      TableInduction(rows, columns, holds, i, j - 1);
      TableInduction(rows, columns, holds, i - 1, j - 1);
      assert Steps(holds, i, j);
    }
  }

  /** The cell that a move to (i, j) comes from. */
  function From(p1: seq<real>, p2: seq<real>, penalty: real, move: Move, i: nat, j: nat): real
    requires i <= |p2| && j <= |p1|
    requires move != Right ==> i > 0
    requires move != Down ==> j > 0
  {
    Cell(p1, p2, penalty, if move == Right then i else i - 1, if move == Down then j else j - 1)
  }

  /** A cell is at most what any one move to it costs. */
  lemma {:induction false} CellAtMostMove(p1: seq<real>, p2: seq<real>, penalty: real, move: Move, i: nat, j: nat)
    requires i <= |p2| && j <= |p1|
    requires move != Right ==> i > 0
    requires move != Down ==> j > 0
    ensures Cell(p1, p2, penalty, i, j) <= From(p1, p2, penalty, move, i, j) + MoveCost(p1, p2, penalty, move, i, j)
  {
  }

  /** No path to a cell is cheaper than what the table holds there. */
  lemma {:induction false} CellIsLowerBound(p1: seq<real>, p2: seq<real>, penalty: real, path: seq<Move>)
    requires Row(path) <= |p2| && Column(path) <= |p1|
    ensures Cell(p1, p2, penalty, Row(path), Column(path)) <= PathCost(p1, p2, penalty, path)
  {
    if path != [] {
      CellIsLowerBound(p1, p2, penalty, path[..|path| - 1]);
      CellAtMostMove(p1, p2, penalty, path[|path| - 1], Row(path), Column(path));
    }
  }

  /** ... and some path costs exactly that. */
  lemma {:induction false} CellIsAttained(p1: seq<real>, p2: seq<real>, penalty: real, i: nat, j: nat)
    returns (path: seq<Move>)
    requires i <= |p2| && j <= |p1|
    ensures Row(path) == i && Column(path) == j
    ensures PathCost(p1, p2, penalty, path) == Cell(p1, p2, penalty, i, j)
  {
    if i == 0 && j == 0 {
      path := [];
    } else {
      var diagonal :=
        if i > 0 && j > 0 then Cell(p1, p2, penalty, i - 1, j - 1) + MoveCost(p1, p2, penalty, Diagonal, i, j) else 0.0;
      var move :=
        if i == 0 then Right
        else if j == 0 then Down
        else if Cell(p1, p2, penalty, i, j) == diagonal then Diagonal
        else if Cell(p1, p2, penalty, i, j) == Cell(p1, p2, penalty, i - 1, j) + MoveCost(p1, p2, penalty, Down, i, j)
          then Down
        else Right;
      var before := CellIsAttained(p1, p2, penalty, if move == Right then i else i - 1,
                                   if move == Down then j else j - 1);
      path := before + [move];
      assert path[..|path| - 1] == before;
    }
  }

  /** `d` is the least value in the last row and the last column. */
  ghost predicate IsBoundaryMin(p1: seq<real>, p2: seq<real>, penalty: real, d: real)
    requires |p1| == |p2|
  {
    var n := |p1|;
    && (forall k: nat :: k <= n ==> d <= Cell(p1, p2, penalty, n, k) && d <= Cell(p1, p2, penalty, k, n))
    && (exists k: nat :: k <= n && (d == Cell(p1, p2, penalty, n, k) || d == Cell(p1, p2, penalty, k, n)))
  }

  /** In terms of paths: the cheapest way to use up either feature. */
  ghost predicate UsesUpOne(p1: seq<real>, p2: seq<real>, path: seq<Move>) {
    Row(path) <= |p2| && Column(path) <= |p1| && (Row(path) == |p2| || Column(path) == |p1|)
  }

  ghost predicate IsCheapest(p1: seq<real>, p2: seq<real>, penalty: real, cost: real) {
    && (forall path :: UsesUpOne(p1, p2, path) ==> cost <= PathCost(p1, p2, penalty, path))
    && (exists path :: UsesUpOne(p1, p2, path) && cost == PathCost(p1, p2, penalty, path))
  }

  lemma {:induction false} DistanceIsCheapestPath(p1: seq<real>, p2: seq<real>, penalty: real, d: real)
    requires |p1| == |p2| && IsBoundaryMin(p1, p2, penalty, d)
    ensures IsCheapest(p1, p2, penalty, d)
  {
    forall path | UsesUpOne(p1, p2, path) ensures d <= PathCost(p1, p2, penalty, path) {
      CellIsLowerBound(p1, p2, penalty, path);
    }
    var n := |p1|;
    var k: nat :| k <= n && (d == Cell(p1, p2, penalty, n, k) || d == Cell(p1, p2, penalty, k, n));
    var path;
    if d == Cell(p1, p2, penalty, n, k) {
      path := CellIsAttained(p1, p2, penalty, n, k);
    } else {
      path := CellIsAttained(p1, p2, penalty, k, n);
    }
    assert UsesUpOne(p1, p2, path);
  }

  // ---------- laws of the distance ----------

  lemma {:induction false} InnerNonNegative(p1: seq<real>, p2: seq<real>, penalty: real, i: nat, j: nat)
    requires 0 < i <= |p2| && 0 < j <= |p1| && penalty >= 0.0
    requires Cell(p1, p2, penalty, i - 1, j) >= 0.0
    requires Cell(p1, p2, penalty, i, j - 1) >= 0.0
    requires Cell(p1, p2, penalty, i - 1, j - 1) >= 0.0
    ensures Cell(p1, p2, penalty, i, j) >= 0.0
  {
  }

  lemma {:induction false} EdgeNonNegative(p1: seq<real>, p2: seq<real>, penalty: real, k: nat)
    requires penalty >= 0.0
    ensures k <= |p1| ==> Cell(p1, p2, penalty, 0, k) >= 0.0
    ensures k <= |p2| ==> Cell(p1, p2, penalty, k, 0) >= 0.0
  {
    if k > 0 { EdgeNonNegative(p1, p2, penalty, k - 1); }
  }

  ghost function NonNegativeCells(p1: seq<real>, p2: seq<real>, penalty: real): (nat, nat) -> bool {
    (a: nat, b: nat) => a <= |p2| && b <= |p1| && Cell(p1, p2, penalty, a, b) >= 0.0
  }

  lemma {:induction false} NonNegativeCellsStep(p1: seq<real>, p2: seq<real>, penalty: real, a: nat, b: nat)
    requires 0 < a <= |p2| && 0 < b <= |p1| && penalty >= 0.0
    ensures Steps(NonNegativeCells(p1, p2, penalty), a, b)
  {
    var holds := NonNegativeCells(p1, p2, penalty);
    if holds(a - 1, b) && holds(a, b - 1) && holds(a - 1, b - 1) {
      InnerNonNegative(p1, p2, penalty, a, b);
    }
  }

  lemma {:induction false} CellNonNegative(p1: seq<real>, p2: seq<real>, penalty: real, i: nat, j: nat)
    requires i <= |p2| && j <= |p1| && penalty >= 0.0
    ensures Cell(p1, p2, penalty, i, j) >= 0.0
  {
    var holds := NonNegativeCells(p1, p2, penalty);
    forall k: nat | k <= |p1| ensures holds(0, k) {
      EdgeNonNegative(p1, p2, penalty, k);
    }
    forall k: nat | k <= |p2| ensures holds(k, 0) {
      EdgeNonNegative(p1, p2, penalty, k);
    }
    forall a: nat, b: nat | 0 < a <= |p2| && 0 < b <= |p1| ensures Steps(holds, a, b) {
      NonNegativeCellsStep(p1, p2, penalty, a, b);
    }
    TableInduction(|p2|, |p1|, holds, i, j);
  }

  lemma {:induction false} DistanceNonNegative(p1: seq<real>, p2: seq<real>, penalty: real, d: real)
    requires |p1| == |p2| && penalty >= 0.0 && IsBoundaryMin(p1, p2, penalty, d)
    ensures d >= 0.0
  {
    var n := |p1|;
    var k: nat :| k <= n && (d == Cell(p1, p2, penalty, n, k) || d == Cell(p1, p2, penalty, k, n));
    CellNonNegative(p1, p2, penalty, n, k);
    CellNonNegative(p1, p2, penalty, k, n);
  }

  function AbsDifference(p1: seq<real>, p2: seq<real>, k: nat): real
    requires k <= |p1| == |p2|
  {
    if k == 0 then 0.0 else AbsDifference(p1, p2, k - 1) + Abs(p2[k - 1] - p1[k - 1])
  }

  lemma {:induction false} DiagonalBound(p1: seq<real>, p2: seq<real>, penalty: real, k: nat)
    requires k <= |p1| == |p2|
    ensures Cell(p1, p2, penalty, k, k) <= AbsDifference(p1, p2, k)
  {
    if k > 0 { DiagonalBound(p1, p2, penalty, k - 1); }
  }

  /** At most the sum of the absolute differences, so at most their mean once divided by the size. */
  lemma {:induction false} DistanceAtMostAbsDifference(p1: seq<real>, p2: seq<real>, penalty: real, d: real)
    requires |p1| == |p2| && IsBoundaryMin(p1, p2, penalty, d)
    ensures d <= AbsDifference(p1, p2, |p1|)
  {
    DiagonalBound(p1, p2, penalty, |p1|);
  }

  lemma {:induction false} NoDifference(p: seq<real>, k: nat)
    requires k <= |p|
    ensures AbsDifference(p, p, k) == 0.0
  {
    if k > 0 { NoDifference(p, k - 1); }
  }

  lemma {:induction false} DistanceToSelfIsZero(p: seq<real>, penalty: real, d: real)
    requires penalty >= 0.0 && IsBoundaryMin(p, p, penalty, d)
    ensures d == 0.0
  {
    DistanceNonNegative(p, p, penalty, d);
    DistanceAtMostAbsDifference(p, p, penalty, d);
    NoDifference(p, |p|);
  }

  // ---------- column 0 ----------

  /** The recurrence with the penalty added outside the absolute value everywhere. */
  function PlainCell(p1: seq<real>, p2: seq<real>, penalty: real, i: nat, j: nat): real
    requires i <= |p2| && j <= |p1|
  {
    if i == 0 && j == 0 then 0.0
    else if i == 0 then PlainCell(p1, p2, penalty, 0, j - 1) + (Abs(p1[j - 1]) + penalty)
    else if j == 0 then PlainCell(p1, p2, penalty, i - 1, 0) + (Abs(p2[i - 1]) + penalty)
    else
      Least(PlainCell(p1, p2, penalty, i - 1, j - 1) + Abs(p2[i - 1] - p1[j - 1]),
            PlainCell(p1, p2, penalty, i - 1, j) + (Abs(p2[i - 1]) + penalty),
            PlainCell(p1, p2, penalty, i, j - 1) + (Abs(p1[j - 1]) + penalty))
  }

  ghost predicate Undistorted(p: seq<real>, penalty: real) {
    penalty == 0.0 || forall k :: 0 <= k < |p| ==> p[k] >= 0.0
  }

  lemma {:induction false} InnerAtMostPlain(p1: seq<real>, p2: seq<real>, penalty: real, i: nat, j: nat)
    requires 0 < i <= |p2| && 0 < j <= |p1|
    ensures && Cell(p1, p2, penalty, i - 1, j) <= PlainCell(p1, p2, penalty, i - 1, j)
            && Cell(p1, p2, penalty, i, j - 1) <= PlainCell(p1, p2, penalty, i, j - 1)
            && Cell(p1, p2, penalty, i - 1, j - 1) <= PlainCell(p1, p2, penalty, i - 1, j - 1)
            ==> Cell(p1, p2, penalty, i, j) <= PlainCell(p1, p2, penalty, i, j)
  {
  }

  lemma {:induction false} RowIsPlain(p1: seq<real>, p2: seq<real>, penalty: real, j: nat)
    requires j <= |p1|
    ensures Cell(p1, p2, penalty, 0, j) == PlainCell(p1, p2, penalty, 0, j)
  {
    if j > 0 { RowIsPlain(p1, p2, penalty, j - 1); }
  }

  lemma {:induction false} ColumnAtMostPlain(p1: seq<real>, p2: seq<real>, penalty: real, i: nat)
    requires i <= |p2| && penalty >= 0.0
    ensures Cell(p1, p2, penalty, i, 0) <= PlainCell(p1, p2, penalty, i, 0)
  {
    if i > 0 { ColumnAtMostPlain(p1, p2, penalty, i - 1); }
  }

  ghost function CellsAtMostPlain(p1: seq<real>, p2: seq<real>, penalty: real): (nat, nat) -> bool {
    (a: nat, b: nat) => a <= |p2| && b <= |p1| && Cell(p1, p2, penalty, a, b) <= PlainCell(p1, p2, penalty, a, b)
  }

  lemma {:induction false} CellsAtMostPlainStep(p1: seq<real>, p2: seq<real>, penalty: real, a: nat, b: nat)
    requires 0 < a <= |p2| && 0 < b <= |p1|
    ensures Steps(CellsAtMostPlain(p1, p2, penalty), a, b)
  {
    InnerAtMostPlain(p1, p2, penalty, a, b);
  }

  lemma {:induction false} CellAtMostPlain(p1: seq<real>, p2: seq<real>, penalty: real, i: nat, j: nat)
    requires i <= |p2| && j <= |p1| && penalty >= 0.0
    ensures Cell(p1, p2, penalty, i, j) <= PlainCell(p1, p2, penalty, i, j)
  {
    var holds := CellsAtMostPlain(p1, p2, penalty);
    forall k: nat | k <= |p1| ensures holds(0, k) {
      RowIsPlain(p1, p2, penalty, k);
    }
    forall k: nat | k <= |p2| ensures holds(k, 0) {
      ColumnAtMostPlain(p1, p2, penalty, k);
    }
    forall a: nat, b: nat | 0 < a <= |p2| && 0 < b <= |p1| ensures Steps(holds, a, b) {
      CellsAtMostPlainStep(p1, p2, penalty, a, b);
    }
    TableInduction(|p2|, |p1|, holds, i, j);
  }

  lemma {:induction false} ColumnIsPlain(p1: seq<real>, p2: seq<real>, penalty: real, i: nat)
    requires i <= |p2| && penalty >= 0.0 && Undistorted(p2, penalty)
    ensures Cell(p1, p2, penalty, i, 0) == PlainCell(p1, p2, penalty, i, 0)
  {
    if i > 0 { ColumnIsPlain(p1, p2, penalty, i - 1); }
  }

  ghost function CellsArePlain(p1: seq<real>, p2: seq<real>, penalty: real): (nat, nat) -> bool {
    (a: nat, b: nat) => a <= |p2| && b <= |p1| && Cell(p1, p2, penalty, a, b) == PlainCell(p1, p2, penalty, a, b)
  }

  lemma {:induction false} CellsArePlainStep(p1: seq<real>, p2: seq<real>, penalty: real, a: nat, b: nat)
    requires 0 < a <= |p2| && 0 < b <= |p1|
    ensures Steps(CellsArePlain(p1, p2, penalty), a, b)
  {
    InnerStepIsPlain(p1, p2, penalty, a, b);
  }

  lemma {:induction false} CellIsPlain(p1: seq<real>, p2: seq<real>, penalty: real, i: nat, j: nat)
    requires i <= |p2| && j <= |p1| && penalty >= 0.0 && Undistorted(p2, penalty)
    ensures Cell(p1, p2, penalty, i, j) == PlainCell(p1, p2, penalty, i, j)
  {
    var holds := CellsArePlain(p1, p2, penalty);
    forall k: nat | k <= |p1| ensures holds(0, k) {
      RowIsPlain(p1, p2, penalty, k);
    }
    forall k: nat | k <= |p2| ensures holds(k, 0) {
      ColumnIsPlain(p1, p2, penalty, k);
    }
    forall a: nat, b: nat | 0 < a <= |p2| && 0 < b <= |p1| ensures Steps(holds, a, b) {
      CellsArePlainStep(p1, p2, penalty, a, b);
    }
    TableInduction(|p2|, |p1|, holds, i, j);
  }

  lemma {:induction false} InnerStepIsPlain(p1: seq<real>, p2: seq<real>, penalty: real, i: nat, j: nat)
    requires 0 < i <= |p2| && 0 < j <= |p1|
    ensures && Cell(p1, p2, penalty, i - 1, j) == PlainCell(p1, p2, penalty, i - 1, j)
            && Cell(p1, p2, penalty, i, j - 1) == PlainCell(p1, p2, penalty, i, j - 1)
            && Cell(p1, p2, penalty, i - 1, j - 1) == PlainCell(p1, p2, penalty, i - 1, j - 1)
            ==> Cell(p1, p2, penalty, i, j) == PlainCell(p1, p2, penalty, i, j)
  {
  }

  lemma {:induction false} ColumnFallsBehind(p1: seq<real>, p2: seq<real>, penalty: real, k: nat, i: nat)
    requires k < i <= |p2| && penalty > 0.0 && p2[k] < 0.0
    ensures Cell(p1, p2, penalty, i, 0) < PlainCell(p1, p2, penalty, i, 0)
  {
    ColumnAtMostPlain(p1, p2, penalty, i - 1);
    if k < i - 1 { ColumnFallsBehind(p1, p2, penalty, k, i - 1); }
  }

  /** The misplaced parenthesis leaves the table as it should be exactly when no sample of the second
      feature is negative, or there is no penalty. */
  lemma {:induction false} ColumnZeroExactly(p1: seq<real>, p2: seq<real>, penalty: real)
    requires penalty >= 0.0
    ensures (forall i: nat, j: nat :: i <= |p2| && j <= |p1| ==>
            Cell(p1, p2, penalty, i, j) == PlainCell(p1, p2, penalty, i, j))
            <==> Undistorted(p2, penalty)
  {
    if Undistorted(p2, penalty) {
      forall i: nat, j: nat | i <= |p2| && j <= |p1|
        ensures Cell(p1, p2, penalty, i, j) == PlainCell(p1, p2, penalty, i, j)
      {
        CellIsPlain(p1, p2, penalty, i, j);
      }
    } else {
      var k :| 0 <= k < |p2| && p2[k] < 0.0;
      ColumnFallsBehind(p1, p2, penalty, k, |p2|);
    }
  }

  lemma {:induction false} EdgeTranspose(p1: seq<real>, p2: seq<real>, penalty: real, k: nat)
    requires k <= |p1|
    ensures PlainCell(p1, p2, penalty, 0, k) == PlainCell(p2, p1, penalty, k, 0)
  {
    if k > 0 { EdgeTranspose(p1, p2, penalty, k - 1); }
  }

  lemma {:induction false} InnerTranspose(p1: seq<real>, p2: seq<real>, penalty: real, i: nat, j: nat)
    requires 0 < i <= |p2| && 0 < j <= |p1|
    ensures && PlainCell(p1, p2, penalty, i - 1, j) == PlainCell(p2, p1, penalty, j, i - 1)
            && PlainCell(p1, p2, penalty, i, j - 1) == PlainCell(p2, p1, penalty, j - 1, i)
            && PlainCell(p1, p2, penalty, i - 1, j - 1) == PlainCell(p2, p1, penalty, j - 1, i - 1)
            ==> PlainCell(p1, p2, penalty, i, j) == PlainCell(p2, p1, penalty, j, i)
  {
    assert Abs(p2[i - 1] - p1[j - 1]) == Abs(p1[j - 1] - p2[i - 1]);
  }

  ghost function CellsTranspose(p1: seq<real>, p2: seq<real>, penalty: real): (nat, nat) -> bool {
    (a: nat, b: nat) => a <= |p2| && b <= |p1| && PlainCell(p1, p2, penalty, a, b) == PlainCell(p2, p1, penalty, b, a)
  }

  lemma {:induction false} CellsTransposeStep(p1: seq<real>, p2: seq<real>, penalty: real, a: nat, b: nat)
    requires 0 < a <= |p2| && 0 < b <= |p1|
    ensures Steps(CellsTranspose(p1, p2, penalty), a, b)
  {
    InnerTranspose(p1, p2, penalty, a, b);
  }

  lemma {:induction false} PlainTranspose(p1: seq<real>, p2: seq<real>, penalty: real, i: nat, j: nat)
    requires i <= |p2| && j <= |p1|
    ensures PlainCell(p1, p2, penalty, i, j) == PlainCell(p2, p1, penalty, j, i)
  {
    var holds := CellsTranspose(p1, p2, penalty);
    forall k: nat | k <= |p1| ensures holds(0, k) {
      EdgeTranspose(p1, p2, penalty, k);
    }
    forall k: nat | k <= |p2| ensures holds(k, 0) {
      EdgeTranspose(p2, p1, penalty, k);
    }
    forall a: nat, b: nat | 0 < a <= |p2| && 0 < b <= |p1| ensures Steps(holds, a, b) {
      CellsTransposeStep(p1, p2, penalty, a, b);
    }
    TableInduction(|p2|, |p1|, holds, i, j);
  }

  lemma {:induction false} CellTranspose(p1: seq<real>, p2: seq<real>, penalty: real, i: nat, j: nat)
    requires i <= |p2| && j <= |p1| && penalty >= 0.0
    requires Undistorted(p1, penalty) && Undistorted(p2, penalty)
    ensures Cell(p1, p2, penalty, i, j) == Cell(p2, p1, penalty, j, i)
  {
    CellIsPlain(p1, p2, penalty, i, j);
    CellIsPlain(p2, p1, penalty, j, i);
    PlainTranspose(p1, p2, penalty, i, j);
  }

  /** For features without negative samples the distance is symmetric. */
  lemma {:induction false} DistanceSymmetric(p1: seq<real>, p2: seq<real>, penalty: real, d: real)
    requires |p1| == |p2| && penalty >= 0.0
    requires Undistorted(p1, penalty) && Undistorted(p2, penalty)
    ensures IsBoundaryMin(p1, p2, penalty, d) <==> IsBoundaryMin(p2, p1, penalty, d)
  {
    var n := |p1|;
    forall k: nat | k <= n
      ensures Cell(p1, p2, penalty, n, k) == Cell(p2, p1, penalty, k, n)
      ensures Cell(p1, p2, penalty, k, n) == Cell(p2, p1, penalty, n, k)
    {
      CellTranspose(p1, p2, penalty, n, k);
      CellTranspose(p1, p2, penalty, k, n);
    }
  }

  /** In general it is not. */
  lemma {:induction false} DistanceNotSymmetric()
    ensures IsBoundaryMin([5.0], [-1.0], 1.0, 0.0)
    ensures IsBoundaryMin([-1.0], [5.0], 1.0, 2.0)
  {
    assert Cell([5.0], [-1.0], 1.0, 0, 1) == 6.0 && Cell([5.0], [-1.0], 1.0, 1, 0) == 0.0;
    assert Cell([5.0], [-1.0], 1.0, 1, 1) == 6.0;
    assert Cell([-1.0], [5.0], 1.0, 0, 1) == 2.0 && Cell([-1.0], [5.0], 1.0, 1, 0) == 6.0;
    assert Cell([-1.0], [5.0], 1.0, 1, 1) == 6.0;
  }

  // ---------- the algorithm ----------

  lemma {:induction false} ProductNonNegative(a: int, b: int)
    requires a >= 0 && b >= 0
    ensures a * b >= 0
  {
  }

  lemma {:induction false} MultipleIsFar(c: int, width: int)
    requires width > 0 && c != 0
    ensures c * width >= width || c * width <= -width
  {
    if c > 0 {
      ProductNonNegative(c - 1, width);
      assert c * width == (c - 1) * width + width;
    } else {
      ProductNonNegative(-c - 1, width);
      assert c * width == -((-c - 1) * width) - width;
    }
  }

  lemma {:induction false} FlatIndex(i: int, j: int, width: int)
    requires 0 <= j < width && 0 <= i
    ensures (i * width + j) / width == i && (i * width + j) % width == j
  {
    var k := i * width + j;
    var q, r := k / width, k % width;
    assert k == q * width + r && 0 <= r < width;
    assert (q - i) * width == q * width - i * width == j - r;
    if q != i { MultipleIsFar(q - i, width); }
  }

  /** The cell stored at flat index `k`. */
  function FlatCell(p1: seq<real>, p2: seq<real>, penalty: real, k: nat): real
    requires |p1| == |p2| && k / (|p1| + 1) <= |p1|
  {
    Cell(p1, p2, penalty, k / (|p1| + 1), k % (|p1| + 1))
  }

  lemma {:induction false} RowStart(i: nat, n: nat)
    requires i <= n
    ensures (i + 1) * (n + 1) == i * (n + 1) + n + 1 <= (n + 1) * (n + 1)
  {
    assert (i + 1) * (n + 1) <= (n + 1) * (n + 1);
  }

  ghost predicate Filled(coef: array<real>, p1: seq<real>, p2: seq<real>, penalty: real, upTo: nat)
    requires |p1| == |p2|
    reads coef
  {
    && upTo <= coef.Length
    && forall k: nat :: k < upTo && k / (|p1| + 1) <= |p1| ==> coef[k] == FlatCell(p1, p2, penalty, k)
  }

  predicate OnBoundary(n: nat, a: nat, b: nat) {
    a <= n && b <= n && (a == n || b == n)
  }

  predicate Before(a: nat, b: nat, i: nat, j: nat) {
    a < i || (a == i && b < j)
  }

  /** The least of the boundary values met before (i, j) in row order. */
  ghost predicate IsMinSoFar(n: nat, value: (nat, nat) -> real, i: nat, j: nat, d: real) {
    && (forall a: nat, b: nat {:trigger value(a, b)} :: OnBoundary(n, a, b) && Before(a, b, i, j) ==> d <= value(a, b))
    && (exists a: nat, b: nat {:trigger value(a, b)} :: OnBoundary(n, a, b) && Before(a, b, i, j) && d == value(a, b))
  }

  lemma {:induction false} MinSoFarStep(n: nat, value: (nat, nat) -> real, i: nat, j: nat, d: real)
    requires i <= n && j <= n && IsMinSoFar(n, value, i, j, d)
    ensures IsMinSoFar(n, value, i, j + 1, if (j == n || i == n) && value(i, j) < d then value(i, j) else d)
  {
    assert Before(i, j, i, j + 1);
  }

  ghost function Table(p1: seq<real>, p2: seq<real>, penalty: real): (nat, nat) -> real {
    (i: nat, j: nat) => if i <= |p2| && j <= |p1| then Cell(p1, p2, penalty, i, j) else 0.0
  }

  lemma {:induction false} MinSoFarDone(p1: seq<real>, p2: seq<real>, penalty: real, d: real)
    requires |p1| == |p2| && IsMinSoFar(|p1|, Table(p1, p2, penalty), |p1| + 1, 0, d)
    ensures IsBoundaryMin(p1, p2, penalty, d)
  {
    var n := |p1|;
    var table := Table(p1, p2, penalty);
    forall k: nat | k <= n ensures d <= Cell(p1, p2, penalty, n, k) && d <= Cell(p1, p2, penalty, k, n) {
      assert OnBoundary(n, n, k) && Before(n, k, n + 1, 0) && OnBoundary(n, k, n) && Before(k, n, n + 1, 0);
      assert table(n, k) == Cell(p1, p2, penalty, n, k) && table(k, n) == Cell(p1, p2, penalty, k, n);
    }
    var a: nat, b: nat :| OnBoundary(n, a, b) && Before(a, b, n + 1, 0) && d == table(a, b);
    assert d == Cell(p1, p2, penalty, a, b);
  }

  lemma {:induction false} FilledTable(coef: array<real>, p1: seq<real>, p2: seq<real>, penalty: real, i: nat, j: nat)
    requires |p1| == |p2| && coef.Length == (|p1| + 1) * (|p1| + 1)
    requires Filled(coef, p1, p2, penalty, coef.Length) && i <= |p1| && j <= |p1|
    ensures i * (|p1| + 1) + j < coef.Length && coef[i * (|p1| + 1) + j] == Cell(p1, p2, penalty, i, j)
  {
    RowStart(i, |p1|);
    FlatIndex(i, j, |p1| + 1);
  }

  /** Fills the table of one channel and returns the least boundary value. `d` is the moving
      pointer into the flat array. */
  method FillTable(coef: array<real>, p1: seq<real>, p2: seq<real>, penalty: real) returns (minDist: real)
    requires |p1| == |p2| && coef.Length == (|p1| + 1) * (|p1| + 1)
    modifies coef
    ensures Filled(coef, p1, p2, penalty, coef.Length)
    ensures IsBoundaryMin(p1, p2, penalty, minDist)
  {
    var n := |p1|;
    FirstRow(coef, p1, p2, penalty);
    var d := n + 1;
    FlatIndex(0, n, n + 1);
    minDist := coef[d - 1];
    ghost var table := Table(p1, p2, penalty);
    assert OnBoundary(n, 0, n) && Before(0, n, 1, 0) && table(0, n) == minDist;
    for i := 1 to n + 1
      invariant d == i * (n + 1)
      invariant Filled(coef, p1, p2, penalty, d)
      invariant IsMinSoFar(|p1|, Table(p1, p2, penalty), i, 0, minDist)
    {
      RowStart(i, n);
      minDist := FillRow(coef, p1, p2, penalty, i, d, minDist);
      d := d + n + 1;
    }
    MinSoFarDone(p1, p2, penalty, minDist);
  }

  method FirstRow(coef: array<real>, p1: seq<real>, p2: seq<real>, penalty: real)
    requires |p1| == |p2| && coef.Length >= |p1| + 1
    modifies coef
    ensures Filled(coef, p1, p2, penalty, |p1| + 1)
  {
    var n := |p1|;
    coef[0] := 0.0;
    var d := 1;
    FlatIndex(0, 0, n + 1);
    for j := 1 to n + 1
      invariant d == j
      invariant Filled(coef, p1, p2, penalty, d)
    {
      FlatIndex(0, j, n + 1);
      FlatIndex(0, j - 1, n + 1);
      coef[d] := coef[d - 1] + Abs(p1[j - 1]) + penalty;
      d := d + 1;
    }
  }

  method FillRow(coef: array<real>, p1: seq<real>, p2: seq<real>, penalty: real, i: nat, start: nat, least: real)
    returns (minDist: real)
    requires |p1| == |p2| && 1 <= i <= |p1|
    requires start == i * (|p1| + 1) && start + |p1| + 1 <= coef.Length
    requires Filled(coef, p1, p2, penalty, start)
    requires IsMinSoFar(|p1|, Table(p1, p2, penalty), i, 0, least)
    modifies coef
    ensures Filled(coef, p1, p2, penalty, start + |p1| + 1)
    ensures IsMinSoFar(|p1|, Table(p1, p2, penalty), i + 1, 0, minDist)
  {
    var n := |p1|;
    var d := start;
    minDist := least;
    for j := 0 to n + 1
      invariant d == start + j
      invariant Filled(coef, p1, p2, penalty, d)
      invariant IsMinSoFar(n, Table(p1, p2, penalty), i, j, minDist)
    {
      minDist := FillOne(coef, p1, p2, penalty, i, j, d, minDist);
      d := d + 1;
    }
  }

  /** One cell, and the least boundary value with it. */
  method FillOne(coef: array<real>, p1: seq<real>, p2: seq<real>, penalty: real, i: nat, j: nat, d: nat, least: real)
    returns (minDist: real)
    requires |p1| == |p2| && 1 <= i <= |p1| && j <= |p1|
    requires d == i * (|p1| + 1) + j < coef.Length && |p1| + 1 <= d
    requires Filled(coef, p1, p2, penalty, d)
    requires IsMinSoFar(|p1|, Table(p1, p2, penalty), i, j, least)
    modifies coef
    ensures Filled(coef, p1, p2, penalty, d + 1)
    ensures IsMinSoFar(|p1|, Table(p1, p2, penalty), i, j + 1, minDist)
  {
    var n := |p1|;
    FlatIndex(i, j, n + 1);
    FillCell(coef, p1, p2, penalty, i, j, d);
    MinSoFarStep(n, Table(p1, p2, penalty), i, j, least);
    minDist := least;
    if (j == n || i == n) && coef[d] < minDist {
      minDist := coef[d];
    }
  }

  /** Where the neighbours of a cell are in the flat array. */
  lemma {:induction false} Neighbours(d: nat, width: nat)
    requires width > 0 && d >= width
    ensures (d - width) / width == d / width - 1 && (d - width) % width == d % width
    ensures d % width > 0 ==> (d - 1) / width == d / width && (d - 1) % width == d % width - 1
    ensures d % width > 0 ==> d - width - 1 >= 0
                              && (d - width - 1) / width == d / width - 1 && (d - width - 1) % width == d % width - 1
  {
    var i, j := d / width, d % width;
    assert d == i * width + j;
    FlatIndex(i - 1, j, width);
    assert (i - 1) * width + j == d - width;
    if j > 0 {
      FlatIndex(i, j - 1, width);
      FlatIndex(i - 1, j - 1, width);
    }
  }

  /** What the neighbours hold. */
  lemma {:induction false} NeighbourCells(coef: array<real>, p1: seq<real>, p2: seq<real>, penalty: real, i: nat,
                                          j: nat, d: nat)
    requires |p1| == |p2| && 1 <= i <= |p1| && j <= |p1|
    requires |p1| + 1 <= d < coef.Length && d / (|p1| + 1) == i && d % (|p1| + 1) == j
    requires Filled(coef, p1, p2, penalty, d)
    ensures coef[d - |p1| - 1] == Cell(p1, p2, penalty, i - 1, j)
    ensures j > 0 ==> d - |p1| - 2 >= 0 && coef[d - |p1| - 2] == Cell(p1, p2, penalty, i - 1, j - 1)
    ensures j > 0 ==> coef[d - 1] == Cell(p1, p2, penalty, i, j - 1)
  {
    Neighbours(d, |p1| + 1);
    assert coef[d - |p1| - 1] == FlatCell(p1, p2, penalty, d - |p1| - 1);
    if j > 0 {
      assert coef[d - |p1| - 2] == FlatCell(p1, p2, penalty, d - |p1| - 2);
      assert coef[d - 1] == FlatCell(p1, p2, penalty, d - 1);
    }
  }

  /** The body of the inner loop: one cell out of its three neighbours. */
  method CellValue(coef: array<real>, p1: seq<real>, p2: seq<real>, penalty: real, i: nat, j: nat, d: nat)
    returns (x: real)
    requires |p1| == |p2| && 1 <= i <= |p1| && j <= |p1|
    requires |p1| + 1 <= d < coef.Length && d / (|p1| + 1) == i && d % (|p1| + 1) == j
    requires Filled(coef, p1, p2, penalty, d)
    ensures x == Cell(p1, p2, penalty, i, j)
  {
    var n := |p1|;
    NeighbourCells(coef, p1, p2, penalty, i, j, d);
    if j == 0 {
      x := coef[d - n - 1] + Abs(p2[i - 1] + penalty);
    } else {
      x := Min(coef[d - n - 2] + Abs(p2[i - 1] - p1[j - 1]),
               Min(coef[d - n - 1] + Abs(p2[i - 1]) + penalty,
                   coef[d - 1] + Abs(p1[j - 1]) + penalty));
    }
  }

  /** The body of the inner loop: one cell out of its three neighbours. */
  method FillCell(coef: array<real>, p1: seq<real>, p2: seq<real>, penalty: real, i: nat, j: nat, d: nat)
    requires |p1| == |p2| && 1 <= i <= |p1| && j <= |p1|
    requires |p1| + 1 <= d < coef.Length && d / (|p1| + 1) == i && d % (|p1| + 1) == j
    requires Filled(coef, p1, p2, penalty, d)
    modifies coef
    ensures Filled(coef, p1, p2, penalty, d + 1)
    ensures coef[d] == Cell(p1, p2, penalty, i, j)
  {
    var x := CellValue(coef, p1, p2, penalty, i, j, d);
    coef[d] := x;
  }

  /** A double as far as it matters here. */
  datatype Double = NotANumber | Number(value: real)

  /** A least value over the feature size. That of empty features is 0, and 0 over 0 is not a number. */
  function Over(least: real, size: nat): Double
    requires size == 0 ==> least == 0.0
  {
    if size == 0 then NotANumber else Number(least / size as real)
  }

  function Plus(x: Double, y: Double): Double {
    if x.Number? && y.Number? then Number(x.value + y.value) else NotANumber
  }

  function Sum(d: seq<Double>): Double {
    if d == [] then Number(0.0) else Plus(Sum(d[..|d| - 1]), d[|d| - 1])
  }

  predicate IsSquare(d: Double, square: Double) {
    if d.Number? then square.Number? && square.value == d.value * d.value else square.NotANumber?
  }

  predicate AreSquares(d: seq<Double>, squares: seq<Double>) {
    |d| == |squares| && forall k :: 0 <= k < |d| ==> IsSquare(d[k], squares[k])
  }

  lemma {:induction false} SumOfThree(squares: seq<Double>)
    requires |squares| == 3
    ensures Sum(squares) == Plus(Plus(Plus(Number(0.0), squares[0]), squares[1]), squares[2])
  {
    assert squares[..2][..1] == squares[..1] && squares[..1][..0] == [];
    assert Sum(squares[..1]) == Plus(Number(0.0), squares[0]);
  }

  /** The sum of the squares of the three distances, which is not a number unless all of them are. */
  predicate IsTotal(d: seq<Double>, total: Double) {
    && |d| == 3
    && if d[0].Number? && d[1].Number? && d[2].Number? then
         && total.Number?
         && total.value == d[0].value * d[0].value + d[1].value * d[1].value + d[2].value * d[2].value
       else total.NotANumber?
  }

  lemma {:induction false} TotalIs(d: seq<Double>, squares: seq<Double>, total: Double)
    requires |d| == 3 && AreSquares(d, squares) && total == Sum(squares)
    ensures IsTotal(d, total)
  {
    SumOfThree(squares);
    assert IsSquare(d[0], squares[0]) && IsSquare(d[1], squares[1]) && IsSquare(d[2], squares[2]);
  }

  lemma {:induction false} EmptyLeastIsZero(p1: seq<real>, p2: seq<real>, penalty: real, least: real)
    requires |p1| == |p2| == 0 && IsBoundaryMin(p1, p2, penalty, least)
    ensures least == 0.0
  {
    assert Cell(p1, p2, penalty, 0, 0) == 0.0;
  }

  /** Per channel the cost of the cheapest path over the feature size, and in the last place the sum of
      the squares. Features that do not have the same shape are not compared. */
  method ShortestPathDistance(a: FeatureData<real>, b: FeatureData<real>, penalty: real, distance: array<Double>)
    returns (comparable: bool)
    requires a.Initialized() && b.Initialized()
    requires distance.Length == CHANNELS + 1
    modifies distance
    ensures comparable == (a.useYuv == b.useYuv && a.featureSize == b.featureSize && a.featureType == b.featureType)
    ensures !comparable ==> distance[..] == old(distance[..])
    ensures comparable ==>
              && AreDistances(a, b, penalty, distance[..CHANNELS])
              && IsTotal(distance[..CHANNELS], distance[CHANNELS])
  {
    if a.useYuv != b.useYuv || a.featureSize != b.featureSize || a.featureType != b.featureType {
      return false;
    }
    var coef := new real[(a.featureSize + 1) * (a.featureSize + 1)];
    for c := 0 to CHANNELS + 1
      invariant forall k :: 0 <= k < c ==> distance[k] == Number(0.0)
    {
      distance[c] := Number(0.0);
    }
    ghost var squares: seq<Double> := [];
    for c := 0 to CHANNELS
      invariant AreDistances(a, b, penalty, distance[..c])
      invariant AreSquares(distance[..c], squares) && distance[CHANNELS] == Sum(squares)
    {
      var d := ChannelDistance(coef, a, b, penalty, c);
      OneMoreDistance(a, b, penalty, distance[..c], d);
      var square := SquareOf(d);
      MoreSquares(distance[..c], squares, d, square);
      SumOneMore(squares, square);
      Store(distance, c, d, Plus(distance[CHANNELS], square));
      squares := squares + [square];
    }
    TotalIs(distance[..CHANNELS], squares, distance[CHANNELS]);
    comparable := true;
  }

  method SquareOf(d: Double) returns (square: Double)
    ensures IsSquare(d, square)
  {
    square := if d.Number? then Number(d.value * d.value) else NotANumber;
  }

  lemma {:induction false} MoreSquares(d: seq<Double>, squares: seq<Double>, x: Double, square: Double)
    requires AreSquares(d, squares) && IsSquare(x, square)
    ensures AreSquares(d + [x], squares + [square])
  {
  }

  lemma {:induction false} SumOneMore(squares: seq<Double>, square: Double)
    ensures Sum(squares + [square]) == Plus(Sum(squares), square)
  {
    assert (squares + [square])[..|squares|] == squares;
  }

  /** Stores one channel's distance and the sum of the squares so far. */
  method Store(distance: array<Double>, c: nat, d: Double, total: Double)
    requires c < CHANNELS < distance.Length
    modifies distance
    ensures distance[..c + 1] == old(distance[..c]) + [d] && distance[CHANNELS] == total
  {
    distance[c] := d;
    distance[CHANNELS] := total;
  }

  method ChannelDistance(coef: array<real>, a: FeatureData<real>, b: FeatureData<real>, penalty: real, c: int)
    returns (d: Double)
    requires a.Initialized() && b.Initialized() && a.featureSize == b.featureSize && 0 <= c < CHANNELS
    requires coef.Length == (a.featureSize + 1) * (a.featureSize + 1)
    modifies coef
    ensures IsChannelDistance(a, b, penalty, c, d)
  {
    var minDist := FillTable(coef, a.features[c], b.features[c], penalty);
    if a.featureSize == 0 {
      EmptyLeastIsZero(a.features[c], b.features[c], penalty, minDist);
    }
    d := Over(minDist, a.featureSize);
    DistanceIsCheapestPath(a.features[c], b.features[c], penalty, minDist);
    OverIsDistance(a.features[c], b.features[c], penalty, minDist, d);
  }

  /** `v` added up `n` times. */
  function Multiple(v: real, n: nat): real {
    if n == 0 then 0.0 else Multiple(v, n - 1) + v
  }

  lemma {:induction false} MultipleIsProduct(v: real, n: nat)
    ensures Multiple(v, n) == v * n as real
  {
    if n > 0 {
      MultipleIsProduct(v, n - 1);
      OneMoreTime(v, (n - 1) as real);
    }
  }

  lemma {:induction false} OneMoreTime(v: real, x: real)
    ensures v * x + v == v * (x + 1.0)
  {
  }

  /** Times the size, the distance is the cost of the cheapest path; there is none between empty features. */
  ghost predicate IsDistance(p1: seq<real>, p2: seq<real>, penalty: real, d: Double) {
    if p1 == [] then d.NotANumber? else d.Number? && IsCheapest(p1, p2, penalty, Multiple(d.value, |p1|))
  }

  lemma {:induction false} OverAddsUp(least: real, size: nat)
    requires size > 0 || least == 0.0
    ensures Over(least, size).Number? <==> size > 0
    ensures size > 0 ==> Multiple(Over(least, size).value, size) == least
  {
    if size > 0 { MultipleIsProduct(Over(least, size).value, size); }
  }

  lemma {:induction false} OverIsDistance(p1: seq<real>, p2: seq<real>, penalty: real, least: real, d: Double)
    requires |p1| > 0 || least == 0.0
    requires IsCheapest(p1, p2, penalty, least) && d == Over(least, |p1|)
    ensures IsDistance(p1, p2, penalty, d)
  {
    OverAddsUp(least, |p1|);
  }

  ghost predicate IsChannelDistance(a: FeatureData<real>, b: FeatureData<real>, penalty: real, c: int, d: Double)
    requires a.Initialized() && b.Initialized() && a.featureSize == b.featureSize && 0 <= c < CHANNELS
  {
    IsDistance(a.features[c], b.features[c], penalty, d)
  }

  lemma {:induction false} AtMostMean(v: real, n: nat, sum: real)
    requires n > 0 && 0.0 <= Multiple(v, n) <= sum
    ensures 0.0 <= v <= sum / n as real
  {
    MultipleIsProduct(v, n);
    assert v == Multiple(v, n) / n as real;
  }

  lemma {:induction false} CheapestIsBoundaryMin(p1: seq<real>, p2: seq<real>, penalty: real, cost: real)
    requires |p1| == |p2| && IsCheapest(p1, p2, penalty, cost)
    ensures IsBoundaryMin(p1, p2, penalty, cost)
  {
    var n := |p1|;
    forall k: nat | k <= n ensures cost <= Cell(p1, p2, penalty, n, k) && cost <= Cell(p1, p2, penalty, k, n) {
      var path := CellIsAttained(p1, p2, penalty, n, k);
      assert UsesUpOne(p1, p2, path);
      path := CellIsAttained(p1, p2, penalty, k, n);
      assert UsesUpOne(p1, p2, path);
    }
    var path :| UsesUpOne(p1, p2, path) && cost == PathCost(p1, p2, penalty, path);
    CellIsLowerBound(p1, p2, penalty, path);
  }

  lemma {:induction false} CheapestBounds(p1: seq<real>, p2: seq<real>, penalty: real, cost: real)
    requires |p1| == |p2| && penalty >= 0.0 && IsCheapest(p1, p2, penalty, cost)
    ensures 0.0 <= cost <= AbsDifference(p1, p2, |p1|)
  {
    CheapestIsBoundaryMin(p1, p2, penalty, cost);
    DistanceNonNegative(p1, p2, penalty, cost);
    DistanceAtMostAbsDifference(p1, p2, penalty, cost);
  }

  /** The distance stored for a channel is at most the mean of the absolute differences, and not negative. */
  lemma {:induction false} DistanceAtMostMean(p1: seq<real>, p2: seq<real>, penalty: real, d: Double)
    requires |p1| == |p2| > 0 && penalty >= 0.0 && IsDistance(p1, p2, penalty, d)
    ensures 0.0 <= d.value <= AbsDifference(p1, p2, |p1|) / |p1| as real
  {
    CheapestBounds(p1, p2, penalty, Multiple(d.value, |p1|));
    AtMostMean(d.value, |p1|, AbsDifference(p1, p2, |p1|));
  }

  /** The distances of the first channels. */
  ghost predicate AreDistances(a: FeatureData<real>, b: FeatureData<real>, penalty: real, d: seq<Double>)
    requires a.Initialized() && b.Initialized() && a.featureSize == b.featureSize && |d| <= CHANNELS
  {
    forall c :: 0 <= c < |d| ==> IsChannelDistance(a, b, penalty, c, d[c])
  }

  lemma {:induction false} OneMoreDistance(a: FeatureData<real>, b: FeatureData<real>, penalty: real,
                                           before: seq<Double>,
                                           d: Double)
    requires a.Initialized() && b.Initialized() && a.featureSize == b.featureSize && |before| < CHANNELS
    requires AreDistances(a, b, penalty, before) && IsChannelDistance(a, b, penalty, |before|, d)
    ensures AreDistances(a, b, penalty, before + [d])
  {
  }
}
