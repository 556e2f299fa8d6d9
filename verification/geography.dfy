/**
 * The integer grid of the simulation: points, the 8-connected (Moore)
 * neighbourhood of a point clipped to the grid or to a rectangle, the
 * rejection sampler that draws pairwise-distinct points, and the housing
 * area rectangle.
 */
module Geography {

  /** A grid cell; equality is equality of the coordinate pair. */
  datatype Point = Point(x: int, y: int)

  function Max(a: int, b: int): int { if a >= b then a else b }

  function Min(a: int, b: int): int { if a <= b then a else b }

  /** Integer division as Rust performs it on i32: the quotient is truncated toward zero. */
  function RustDiv(a: int, b: int): int
    requires b > 0
  {
    if a >= 0 then a / b else -((-a) / b)
  }

  lemma MulAtLeast(x: int, y: int)
    requires x >= 0 && y >= 1
    ensures x * y >= x
  {
    assert x * y == x * (y - 1) + x;
    assert x * (y - 1) >= 0;
  }

  /** The quotient of a non-negative dividend by a positive divisor, bracketed by multiples of the divisor. */
  lemma DivBounds(a: int, b: int)
    requires a >= 0 && b > 0
    ensures 0 <= a / b <= a
    ensures (a / b) * b <= a < (a / b + 1) * b
  {
    var q, r := a / b, a % b;
    assert a == q * b + r;
    assert 0 <= r < b;
    assert q >= 0 by {
      if q < 0 {
        MulAtLeast(-q, b);
      }
    }
    assert q * b >= q by {
      MulAtLeast(q, b);
    }
    assert (q + 1) * b == q * b + b;
  }

  /** The cell lies on the `size` x `size` grid. */
  predicate InGrid(q: Point, size: int) {
    0 <= q.x < size && 0 <= q.y < size
  }

  // ---------------------------------------------------------------------------
  // Row-major order and distinctness

  /** `a` comes before `b` in row-major order: by x, then by y. */
  predicate RowMajorBefore(a: Point, b: Point) {
    a.x < b.x || (a.x == b.x && a.y < b.y)
  }

  predicate RowMajorSorted(s: seq<Point>) {
    forall i, j :: 0 <= i < j < |s| ==> RowMajorBefore(s[i], s[j])
  }

  predicate Distinct(s: seq<Point>) {
    forall i, j :: 0 <= i < j < |s| ==> s[i] != s[j]
  }

  function Elements(s: seq<Point>): set<Point> {
    set q | q in s
  }

  lemma SortedAppend(a: seq<Point>, b: seq<Point>)
    requires RowMajorSorted(a) && RowMajorSorted(b)
    requires forall u, v :: u in a && v in b ==> RowMajorBefore(u, v)
    ensures RowMajorSorted(a + b)
  {
    forall i, j | 0 <= i < j < |a + b| ensures RowMajorBefore((a + b)[i], (a + b)[j]) {
      if j < |a| {
      } else if i >= |a| {
        assert (a + b)[i] == b[i - |a|] && (a + b)[j] == b[j - |a|];
      } else {
        assert (a + b)[i] in a && (a + b)[j] in b;
      }
    }
  }

  lemma SortedIsDistinct(s: seq<Point>)
    requires RowMajorSorted(s)
    ensures Distinct(s)
  {
    forall i, j | 0 <= i < j < |s| ensures s[i] != s[j] {
      assert RowMajorBefore(s[i], s[j]);
    }
  }

  /** A sequence without duplicates has as many elements as its set. */
  lemma {:induction false} DistinctElements(s: seq<Point>)
    requires Distinct(s)
    ensures |Elements(s)| == |s|
  {
    if s != [] {
      var init := s[..|s| - 1];
      assert Distinct(init);
      DistinctElements(init);
      assert s == init + [s[|s| - 1]];
      assert s[|s| - 1] !in init;
      assert Elements(s) == Elements(init) + {s[|s| - 1]};
    }
  }

  // ---------------------------------------------------------------------------
  // The neighbour enumeration as a specification

  /** What the inner loop emits for cell (row, col): nothing for the centre `p` itself. */
  function Cell(p: Point, row: int, col: int): seq<Point> {
    if row == p.x && col == p.y then [] else [Point(row, col)]
  }

  /** One sweep of the inner loop over columns loY .. col - 1 of `row`, without `p`. */
  function Column(p: Point, row: int, loY: int, col: int): seq<Point>
    decreases col - loY
  {
    if col <= loY then [] else Column(p, row, loY, col - 1) + Cell(p, row, col - 1)
  }

  /** The outer loop over rows loX .. row - 1, each swept over columns loY .. hiY, without `p`. */
  function Block(p: Point, loX: int, row: int, loY: int, hiY: int): seq<Point>
    decreases row - loX
  {
    if row <= loX then [] else Block(p, loX, row - 1, loY, hiY) + Column(p, row - 1, loY, hiY + 1)
  }

  /**
   * The enumeration of `get_neighbor_within`: the 3x3 block around `p`
   * clipped to the inclusive rectangle [start, end], in row-major order,
   * without `p`.
   */
  function NeighborsWithin(p: Point, start: Point, end: Point): seq<Point> {
    Block(p, Max(start.x, p.x - 1), Min(p.x + 1, end.x) + 1, Max(start.y, p.y - 1), Min(p.y + 1, end.y))
  }

  /** The enumeration of `get_neighbor_cells`: clipped to the grid [0, size - 1] on both axes. */
  function NeighborCells(p: Point, size: int): seq<Point> {
    NeighborsWithin(p, Point(0, 0), Point(size - 1, size - 1))
  }

  // ---------------------------------------------------------------------------
  // Facts about Column and Block

  lemma ColumnStep(p: Point, row: int, loY: int, col: int)
    requires loY <= col
    ensures Column(p, row, loY, col + 1) == Column(p, row, loY, col) + Cell(p, row, col)
  {
  }

  lemma BlockStep(p: Point, loX: int, row: int, loY: int, hiY: int, col: int)
    requires loX <= row && loY <= col && (col == hiY + 1 || (col == loY && hiY + 1 <= loY))
    ensures Block(p, loX, row + 1, loY, hiY) == Block(p, loX, row, loY, hiY) + Column(p, row, loY, col)
  {
  }

  lemma AppendAssoc(a: seq<Point>, b: seq<Point>, q: Point)
    ensures (a + b) + [q] == a + (b + [q])
  {
  }

  lemma {:induction false} ColumnMembers(p: Point, row: int, loY: int, col: int, q: Point)
    ensures q in Column(p, row, loY, col) <==> q != p && q.x == row && loY <= q.y < col
    decreases col - loY
  {
    if col > loY {
      ColumnMembers(p, row, loY, col - 1, q);
    }
  }

  lemma {:induction false} ColumnSorted(p: Point, row: int, loY: int, col: int)
    ensures RowMajorSorted(Column(p, row, loY, col))
    decreases col - loY
  {
    if col > loY {
      ColumnSorted(p, row, loY, col - 1);
      forall u, v | u in Column(p, row, loY, col - 1) && v in Cell(p, row, col - 1)
        ensures RowMajorBefore(u, v)
      {
        ColumnMembers(p, row, loY, col - 1, u);
      }
      SortedAppend(Column(p, row, loY, col - 1), Cell(p, row, col - 1));
    }
  }

  lemma {:induction false} ColumnLength(p: Point, row: int, loY: int, col: int)
    ensures |Column(p, row, loY, col)| == Max(0, col - loY) - (if row == p.x && loY <= p.y < col then 1 else 0)
    decreases col - loY
  {
    if col > loY {
      ColumnLength(p, row, loY, col - 1);
    }
  }

  lemma {:induction false} BlockMembers(p: Point, loX: int, row: int, loY: int, hiY: int, q: Point)
    ensures q in Block(p, loX, row, loY, hiY) <==> q != p && loX <= q.x < row && loY <= q.y <= hiY
    decreases row - loX
  {
    if row > loX {
      BlockMembers(p, loX, row - 1, loY, hiY, q);
      ColumnMembers(p, row - 1, loY, hiY + 1, q);
    }
  }

  lemma {:induction false} BlockSorted(p: Point, loX: int, row: int, loY: int, hiY: int)
    ensures RowMajorSorted(Block(p, loX, row, loY, hiY))
    decreases row - loX
  {
    if row > loX {
      BlockSorted(p, loX, row - 1, loY, hiY);
      ColumnSorted(p, row - 1, loY, hiY + 1);
      forall u, v | u in Block(p, loX, row - 1, loY, hiY) && v in Column(p, row - 1, loY, hiY + 1)
        ensures RowMajorBefore(u, v)
      {
        BlockMembers(p, loX, row - 1, loY, hiY, u);
        ColumnMembers(p, row - 1, loY, hiY + 1, v);
      }
      SortedAppend(Block(p, loX, row - 1, loY, hiY), Column(p, row - 1, loY, hiY + 1));
    }
  }

  lemma {:induction false} BlockLength(p: Point, loX: int, row: int, loY: int, hiY: int)
    ensures |Block(p, loX, row, loY, hiY)|
         == Max(0, row - loX) * Max(0, hiY - loY + 1)
          - (if loX <= p.x < row && loY <= p.y <= hiY then 1 else 0)
    decreases row - loX
  {
    if row > loX {
      BlockLength(p, loX, row - 1, loY, hiY);
      ColumnLength(p, row - 1, loY, hiY + 1);
      var h := Max(0, hiY - loY + 1);
      assert (row - loX) * h == (row - 1 - loX) * h + h;
    }
  }

  /** Products of two widths of at most 3: at most 9, and above 6 only for the full 3x3 block. */
  lemma SmallProduct(w: int, h: int)
    requires 0 <= w <= 3 && 0 <= h <= 3
    ensures w * h <= 9
    ensures w * h > 6 ==> w == 3 && h == 3
  {
    if w == 0 {
    } else if w == 1 {
    } else if w == 2 {
    } else {
    }
  }

  // ---------------------------------------------------------------------------
  // Properties of the neighbour enumerations

  /** A point is enumerated exactly when it lies in both clipped ranges and is not the centre. */
  lemma NeighborsWithinMembers(p: Point, start: Point, end: Point, q: Point)
    ensures q in NeighborsWithin(p, start, end) <==>
              && q != p
              && Max(start.x, p.x - 1) <= q.x <= Min(p.x + 1, end.x)
              && Max(start.y, p.y - 1) <= q.y <= Min(p.y + 1, end.y)
  {
    BlockMembers(p, Max(start.x, p.x - 1), Min(p.x + 1, end.x) + 1, Max(start.y, p.y - 1), Min(p.y + 1, end.y), q);
  }

  /** The enumeration is strictly row-major (x ascending, then y ascending), hence free of duplicates. */
  lemma NeighborsWithinOrdered(p: Point, start: Point, end: Point)
    ensures RowMajorSorted(NeighborsWithin(p, start, end))
    ensures Distinct(NeighborsWithin(p, start, end))
  {
    BlockSorted(p, Max(start.x, p.x - 1), Min(p.x + 1, end.x) + 1, Max(start.y, p.y - 1), Min(p.y + 1, end.y));
    SortedIsDistinct(NeighborsWithin(p, start, end));
  }

  /**
   * The number of enumerated points: width times height of the clipped
   * block, less one when the centre lies inside the rectangle; never more
   * than 8.
   */
  lemma NeighborsWithinLength(p: Point, start: Point, end: Point)
    ensures var w := Max(0, Min(p.x + 1, end.x) - Max(start.x, p.x - 1) + 1);
            var h := Max(0, Min(p.y + 1, end.y) - Max(start.y, p.y - 1) + 1);
            |NeighborsWithin(p, start, end)|
              == w * h - (if start.x <= p.x <= end.x && start.y <= p.y <= end.y then 1 else 0)
    ensures |NeighborsWithin(p, start, end)| <= 8
  {
    var loX, hiX := Max(start.x, p.x - 1), Min(p.x + 1, end.x);
    var loY, hiY := Max(start.y, p.y - 1), Min(p.y + 1, end.y);
    BlockLength(p, loX, hiX + 1, loY, hiY);
    SmallProduct(Max(0, hiX - loX + 1), Max(0, hiY - loY + 1));
  }

  /** The two values the repository's test `get_neighbor_within` expects. */
  lemma NeighborsWithinTestValues()
    ensures |NeighborsWithin(Point(1, 1), Point(0, 0), Point(2, 2))| == 8
    ensures |NeighborsWithin(Point(1, 2), Point(0, 0), Point(2, 2))| == 5
  {
    NeighborsWithinLength(Point(1, 1), Point(0, 0), Point(2, 2));
    NeighborsWithinLength(Point(1, 2), Point(0, 0), Point(2, 2));
  }

  /** `get_neighbor_cells` never yields the centre, and every point it yields is inside the clipped block. */
  lemma NeighborCellsBounds(p: Point, size: int)
    ensures p !in NeighborCells(p, size)
    ensures forall q :: q in NeighborCells(p, size) ==>
              && Max(0, p.x - 1) <= q.x <= Min(p.x + 1, size - 1)
              && Max(0, p.y - 1) <= q.y <= Min(p.y + 1, size - 1)
  {
    NeighborsWithinMembers(p, Point(0, 0), Point(size - 1, size - 1), p);
    forall q | q in NeighborCells(p, size)
      ensures Max(0, p.x - 1) <= q.x <= Min(p.x + 1, size - 1)
      ensures Max(0, p.y - 1) <= q.y <= Min(p.y + 1, size - 1)
    {
      NeighborsWithinMembers(p, Point(0, 0), Point(size - 1, size - 1), q);
    }
  }

  /** At most 8 neighbours, and exactly 8 precisely for the interior points of the grid. */
  lemma NeighborCellsCount(p: Point, size: int)
    ensures |NeighborCells(p, size)| <= 8
    ensures |NeighborCells(p, size)| == 8 <==> 1 <= p.x <= size - 2 && 1 <= p.y <= size - 2
  {
    NeighborsWithinLength(p, Point(0, 0), Point(size - 1, size - 1));
    SmallProduct(Max(0, Min(p.x + 1, size - 1) - Max(0, p.x - 1) + 1),
                 Max(0, Min(p.y + 1, size - 1) - Max(0, p.y - 1) + 1));
  }

  // ---------------------------------------------------------------------------
  // The enumerating methods

  /** `Point::get_neighbor_within`: nested loops that push each neighbour inside [start, end]. */
  method GetNeighborWithin(p: Point, start: Point, end: Point) returns (neighbors: seq<Point>)
    ensures neighbors == NeighborsWithin(p, start, end)
  {
    neighbors := [];
    var loX, hiX := Max(start.x, p.x - 1), Min(p.x + 1, end.x);
    var loY, hiY := Max(start.y, p.y - 1), Min(p.y + 1, end.y);
    assert NeighborsWithin(p, start, end) == Block(p, loX, hiX + 1, loY, hiY);
    var row := loX;
    while row <= hiX
      invariant loX <= row && (row <= hiX + 1 || row == loX)
      invariant neighbors == Block(p, loX, row, loY, hiY)
    {
      ghost var done := neighbors;
      var col := loY;
      while col <= hiY
        invariant loY <= col && (col <= hiY + 1 || col == loY)
        invariant neighbors == done + Column(p, row, loY, col)
      {
        ColumnStep(p, row, loY, col);
        if row == p.x && col == p.y {
          col := col + 1;
          continue;
        }
        AppendAssoc(done, Column(p, row, loY, col), Point(row, col));
        neighbors := neighbors + [Point(row, col)];
        col := col + 1;
      }
      BlockStep(p, loX, row, loY, hiY, col);
      row := row + 1;
    }
  }

  /** `Point::get_neighbor_cells`: the same loops, clipped to the grid [0, size - 1]. */
  method GetNeighborCells(p: Point, size: int) returns (neighbors: seq<Point>)
    ensures neighbors == NeighborCells(p, size)
  {
    neighbors := [];
    var loX, hiX := Max(0, p.x - 1), Min(p.x + 1, size - 1);
    var loY, hiY := Max(0, p.y - 1), Min(p.y + 1, size - 1);
    assert NeighborCells(p, size) == Block(p, loX, hiX + 1, loY, hiY);
    var row := loX;
    while row <= hiX
      invariant loX <= row && (row <= hiX + 1 || row == loX)
      invariant neighbors == Block(p, loX, row, loY, hiY)
    {
      ghost var done := neighbors;
      var col := loY;
      while col <= hiY
        invariant loY <= col && (col <= hiY + 1 || col == loY)
        invariant neighbors == done + Column(p, row, loY, col)
      {
        ColumnStep(p, row, loY, col);
        if row == p.x && col == p.y {
          col := col + 1;
          continue;
        }
        AppendAssoc(done, Column(p, row, loY, col), Point(row, col));
        neighbors := neighbors + [Point(row, col)];
        col := col + 1;
      }
      BlockStep(p, loX, row, loY, hiY, col);
      row := row + 1;
    }
  }

  // ---------------------------------------------------------------------------
  // Rejection sampling of pairwise-distinct points

  /**
   * The points `point_factory` keeps from a sequence of draws: each draw
   * is appended unless an equal point was kept before.
   */
  function Accepted(draws: seq<Point>): seq<Point>
    decreases |draws|
  {
    if draws == [] then []
    else
      var kept := Accepted(draws[..|draws| - 1]);
      if draws[|draws| - 1] in kept then kept else kept + [draws[|draws| - 1]]
  }

  /** Every draw is kept or already present; nothing else is kept. */
  lemma {:induction false} AcceptedMembers(draws: seq<Point>, q: Point)
    ensures q in Accepted(draws) <==> q in draws
    decreases |draws|
  {
    if draws != [] {
      var init := draws[..|draws| - 1];
      AcceptedMembers(init, q);
      assert draws == init + [draws[|draws| - 1]];
    }
  }

  /** The kept points are pairwise distinct. */
  lemma {:induction false} AcceptedDistinct(draws: seq<Point>)
    ensures Distinct(Accepted(draws))
    decreases |draws|
  {
    if draws != [] {
      AcceptedDistinct(draws[..|draws| - 1]);
    }
  }

  /** Kept points are only ever appended: what was kept from a prefix of the draws is a prefix of what is kept from all. */
  lemma {:induction false} AcceptedPrefix(draws: seq<Point>, k: nat)
    requires k <= |draws|
    ensures Accepted(draws[..k]) <= Accepted(draws)
    decreases |draws| - k
  {
    if k < |draws| {
      var init := draws[..|draws| - 1];
      assert init[..k] == draws[..k];
      AcceptedPrefix(init, k);
    } else {
      assert draws[..k] == draws;
    }
  }

  /** Draws that are already pairwise distinct are all kept, in order. */
  lemma {:induction false} AcceptedOfDistinct(draws: seq<Point>)
    requires Distinct(draws)
    ensures Accepted(draws) == draws
    decreases |draws|
  {
    if draws != [] {
      var init := draws[..|draws| - 1];
      assert Distinct(init);
      AcceptedOfDistinct(init);
      assert draws[|draws| - 1] !in init;
      assert draws == init + [draws[|draws| - 1]];
    }
  }

  /** The number of kept points is the number of distinct cells drawn. */
  lemma AcceptedSize(draws: seq<Point>)
    ensures |Accepted(draws)| == |Elements(draws)|
  {
    AcceptedDistinct(draws);
    DistinctElements(Accepted(draws));
    forall q ensures q in Elements(Accepted(draws)) <==> q in Elements(draws) {
      AcceptedMembers(draws, q);
    }
    assert Elements(Accepted(draws)) == Elements(draws);
  }

  /** Every cell of the grid once, in row-major order. */
  function GridCells(size: int): (cells: seq<Point>)
    ensures size >= 0 ==> |cells| == size * size
  {
    BlockLength(Point(-1, -1), 0, size, 0, size - 1);
    Block(Point(-1, -1), 0, size, 0, size - 1)
  }

  lemma GridCellsFacts(size: int)
    requires size >= 0
    ensures Distinct(GridCells(size))
    ensures forall q :: q in GridCells(size) <==> InGrid(q, size)
  {
    BlockSorted(Point(-1, -1), 0, size, 0, size - 1);
    SortedIsDistinct(GridCells(size));
    forall q ensures q in GridCells(size) <==> InGrid(q, size) {
      BlockMembers(Point(-1, -1), 0, size, 0, size - 1, q);
    }
  }

  /**
   * Whenever n <= size * size, the generator can fill the request: the
   * first n draws of a row-major sweep of the grid lie on the grid and
   * make the sampler keep exactly n points.
   */
  lemma PointFactoryCanFill(size: int, n: nat)
    requires size >= 0 && n <= size * size
    ensures forall q :: q in GridCells(size)[..n] ==> InGrid(q, size)
    ensures |Accepted(GridCells(size)[..n])| == n
  {
    GridCellsFacts(size);
    var draws := GridCells(size)[..n];
    assert Distinct(draws);
    AcceptedOfDistinct(draws);
  }

  /** However the generator draws on the grid, at most size * size points are ever kept. */
  lemma PointFactoryCapacity(size: int, draws: seq<Point>)
    requires size >= 0
    requires forall q :: q in draws ==> InGrid(q, size)
    ensures |Accepted(draws)| <= size * size
  {
    GridCellsFacts(size);
    DistinctElements(GridCells(size));
    AcceptedSize(draws);
    var drawn, grid := Elements(draws), Elements(GridCells(size));
    assert drawn <= grid;
    assert grid == drawn + (grid - drawn);
  }

  /**
   * `point_factory`: draw (x, y) with both coordinates in [0, size), keep it
   * unless an equal point is already kept, until `numberOfPoints` are kept.
   * The random generator is the sequence `draws`; `used` counts the draws
   * consumed. When the draws run out first, fewer points are returned.
   */
  method PointFactory(size: int, numberOfPoints: nat, draws: seq<Point>) returns (points: seq<Point>, used: nat)
    requires forall i :: 0 <= i < |draws| ==> InGrid(draws[i], size)
    ensures used <= |draws| && points == Accepted(draws[..used])
    ensures |points| == numberOfPoints || (used == |draws| && |points| < numberOfPoints)
    ensures used > 0 ==> |Accepted(draws[..used - 1])| < numberOfPoints
    ensures Distinct(points)
    ensures forall q :: q in points ==> InGrid(q, size)
  {
    points := [];
    used := 0;
    while |points| != numberOfPoints && used < |draws|
      invariant used <= |draws| && points == Accepted(draws[..used])
      invariant |points| <= numberOfPoints
      invariant used > 0 ==> |Accepted(draws[..used - 1])| < numberOfPoints
      invariant Distinct(points)
      invariant forall q :: q in points ==> InGrid(q, size)
    {
      var randX, randY := draws[used].x, draws[used].y;
      assert draws[..used + 1][..used] == draws[..used];
      used := used + 1;
      var isDuplicate := false;
      for j := 0 to |points|
        invariant isDuplicate <==> Point(randX, randY) in points[..j]
      {
        if points[j] == Point(randX, randY) {
          isDuplicate := true;
        }
        assert points[..j + 1] == points[..j] + [points[j]];
      }
      assert points[..|points|] == points;
      if !isDuplicate {
        points := points + [Point(randX, randY)];
      }
      AcceptedDistinct(draws[..used]);
      forall q | q in points ensures InGrid(q, size) {
        AcceptedMembers(draws[..used], q);
      }
    }
  }

  // ---------------------------------------------------------------------------
  // The housing area

  /** `HousingArea`: an inclusive rectangle from `startOffset` to `endOffset`. */
  datatype HousingArea = HousingArea(startOffset: Point, endOffset: Point)

  /**
   * `HousingArea::new`: the rectangle from (0, 0) to
   * (gridSize / houseRelatedSize, gridSize), with Rust's truncating division;
   * `houseRelatedSize` is the constant HOUSE_RELATED_SIZE.
   */
  function NewHousingArea(gridSize: int, houseRelatedSize: int): (area: HousingArea)
    requires houseRelatedSize > 0
    ensures area.startOffset == Point(0, 0) && area.endOffset.y == gridSize
    ensures gridSize >= 0 ==>
              && 0 <= area.endOffset.x <= gridSize
              && area.endOffset.x * houseRelatedSize <= gridSize < (area.endOffset.x + 1) * houseRelatedSize
    ensures gridSize < 0 ==> area.endOffset.x <= 0
  {
    DivBounds(if gridSize >= 0 then gridSize else -gridSize, houseRelatedSize);
    HousingArea(Point(0, 0), Point(RustDiv(gridSize, houseRelatedSize), gridSize))
  }

  /** The repository's test expects the end corner (2, 5) for grid size 5: exactly when HOUSE_RELATED_SIZE is 2. */
  lemma HousingAreaTestValue(houseRelatedSize: int)
    requires houseRelatedSize > 0
    ensures NewHousingArea(5, houseRelatedSize).endOffset == Point(2, 5) <==> houseRelatedSize == 2
  {
    var area := NewHousingArea(5, houseRelatedSize);
    if houseRelatedSize == 2 {
      assert area.endOffset.x * 2 <= 5 < (area.endOffset.x + 1) * 2;
    }
  }

  /** `HousingArea::get_house_dimensions`: the neighbours of the home inside the area; `size` is not used. */
  method GetHouseDimensions(area: HousingArea, homeLocation: Point, size: int) returns (cells: seq<Point>)
    ensures cells == NeighborsWithin(homeLocation, area.startOffset, area.endOffset)
  {
    cells := GetNeighborWithin(homeLocation, area.startOffset, area.endOffset);
  }

  /**
   * The end corner is inclusive: a home on the last grid row y = gridSize - 1
   * is offered the cell straight above it, on row y = gridSize.
   */
  lemma HouseDimensionsReachRowGridSize(gridSize: int, houseRelatedSize: int, home: Point)
    requires houseRelatedSize > 0 && gridSize >= 1
    requires 0 <= home.x <= NewHousingArea(gridSize, houseRelatedSize).endOffset.x && home.y == gridSize - 1
    ensures Point(home.x, gridSize) in NeighborsWithin(home, Point(0, 0), NewHousingArea(gridSize, houseRelatedSize).endOffset)
  {
    NeighborsWithinMembers(home, Point(0, 0), NewHousingArea(gridSize, houseRelatedSize).endOffset, Point(home.x, gridSize));
  }
}
