/** The accumulation features: the (x, y) plane is cut into square cells
    anchored at the smallest x and y of the cloud, the points are grouped by
    cell, each cell gets its point count, z standard deviation and z range, and
    these are joined back onto every point in input order. A point's features
    are then looked up by an exact match on its three coordinates. */
module Accumulation {
  import opened Numerics

  /** The first three columns of one row of the cloud. */
  datatype Point3 = Point3(x: real, y: real, z: real)

  /** A two-dimensional numpy array of |rows| rows and width columns. */
  datatype Matrix = Matrix(width: nat, rows: seq<seq<real>>)

  predicate Rectangular(m: Matrix) {
    forall i :: 0 <= i < |m.rows| ==> |m.rows[i]| == m.width
  }

  /** The bin size and buffer build_accumulation_features uses unless told otherwise. */
  const DefaultBinSize: real := 0.25
  const DefaultBuffer: real := 0.001

  /** The pair (xbin, ybin) of interval indices a point falls into. */
  datatype Cell = Cell(xbin: int, ybin: int)

  /** What one cell aggregates: its point count, the z standard deviation
      (ddof 1, nan for a single point) and max z - min z. */
  datatype CellStats = CellStats(count: nat, std: Scalar, zRange: real)

  /** One row of the merged table: a point and the statistics of its cell. */
  datatype AccRow = AccRow(x: real, y: real, z: real, count: nat, std: Scalar, zRange: real)

  /** The anchor and extent of the cells. */
  datatype Grid = Grid(xmin: real, xmax: real, ymin: real, ymax: real, binSize: real, buf: real)

  function Points(m: Matrix): (ps: seq<Point3>)
    requires Rectangular(m) && m.width == 3
    ensures |ps| == |m.rows|
    ensures forall i :: 0 <= i < |ps| ==>
              ps[i] == Point3(m.rows[i][0], m.rows[i][1], m.rows[i][2])
  {
    seq(|m.rows|, i requires 0 <= i < |m.rows| && |m.rows[i]| == 3 =>
          Point3(m.rows[i][0], m.rows[i][1], m.rows[i][2]))
  }

  function Xs(ps: seq<Point3>): (xs: seq<real>)
    ensures |xs| == |ps| && forall i :: 0 <= i < |ps| ==> xs[i] == ps[i].x
  {
    seq(|ps|, i requires 0 <= i < |ps| => ps[i].x)
  }

  function Ys(ps: seq<Point3>): (ys: seq<real>)
    ensures |ys| == |ps| && forall i :: 0 <= i < |ps| ==> ys[i] == ps[i].y
  {
    seq(|ps|, i requires 0 <= i < |ps| => ps[i].y)
  }

  /** The grid of a non-empty cloud: anchored at its smallest x and y. */
  function GridOf(ps: seq<Point3>, binSize: real, buf: real): (g: Grid)
    requires |ps| > 0
    ensures g.binSize == binSize && g.buf == buf
    ensures forall i :: 0 <= i < |ps| ==>
              g.xmin <= ps[i].x <= g.xmax && g.ymin <= ps[i].y <= g.ymax
    ensures exists i :: 0 <= i < |ps| && g.xmin == ps[i].x
    ensures exists i :: 0 <= i < |ps| && g.xmax == ps[i].x
    ensures exists i :: 0 <= i < |ps| && g.ymin == ps[i].y
    ensures exists i :: 0 <= i < |ps| && g.ymax == ps[i].y
  {
    Grid(Min(Xs(ps)), Max(Xs(ps)), Min(Ys(ps)), Max(Ys(ps)), binSize, buf)
  }

  /** The smallest integer not below r. */
  function Ceil(r: real): (c: int)
    ensures r <= c as real < r + 1.0
  {
    -((-r).Floor)
  }

  /** The number of values np.arange(start, stop, step) yields for step > 0. */
  function ArangeLength(start: real, stop: real, step: real): (n: nat)
    requires step > 0.0
    ensures stop <= start ==> n == 0
    ensures start < stop ==> start + (n - 1) as real * step < stop <= start + n as real * step
  {
    if stop <= start then 0
    else
      var q := (stop - start) / step;
      var c := Ceil(q);
      DivideNonNegative(stop - start, step);
      QuotientTimesDivisor(stop - start, step);
      MultiplyLe(q, c as real, step);
      MultiplyLt((c - 1) as real, q, step);
      c
  }

  /** pd.cut(..., right=False) on the edges start, start + step, ...,
      start + (count - 1) * step: x lies in the half-open interval k. */
  predicate InBin(start: real, step: real, count: nat, k: int, x: real)
    ensures InBin(start, step, count, k, x) && step > 0.0 ==> k == BinIndex(start, step, x)
  {
    var inside := && 0 <= k && k + 1 < count
                  && start + k as real * step <= x < start + (k + 1) as real * step;
    if inside && step > 0.0 then BinIndexUnique(start, step, x, k); true else inside
  }

  /** The interval index of x on edges anchored at start. */
  function BinIndex(start: real, step: real, x: real): int
    requires step > 0.0
  {
    ((x - start) / step).Floor
  }

  function CellOf(g: Grid, p: Point3): Cell
    requires g.binSize > 0.0
  {
    Cell(BinIndex(g.xmin, g.binSize, p.x), BinIndex(g.ymin, g.binSize, p.y))
  }

  /** The floor index puts x in its half-open interval. */
  lemma BinIndexBounds(start: real, step: real, x: real)
    requires step > 0.0 && start <= x
    ensures var k := BinIndex(start, step, x);
      0 <= k && start + k as real * step <= x < start + (k + 1) as real * step
  {
    var q := (x - start) / step;
    var k := q.Floor;
    DivideNonNegative(x - start, step);
    QuotientTimesDivisor(x - start, step);
    assert k as real <= q < (k + 1) as real;
    MultiplyLe(k as real, q, step);
    MultiplyLt(q, (k + 1) as real, step);
    assert q * step == x - start;
    assert x - start < (k + 1) as real * step;
  }

  /** An interval containing x has the floor index. */
  lemma BinIndexUnique(start: real, step: real, x: real, k: int)
    requires step > 0.0
    requires start + k as real * step <= x < start + (k + 1) as real * step
    ensures k == BinIndex(start, step, x)
  {
    var q := (x - start) / step;
    DivideLe(k as real * step, x - start, step);
    DivideLt(x - start, (k + 1) as real * step, step);
    QuotientOfProduct(k as real * step, k as real, step);
    QuotientOfProduct((k + 1) as real * step, (k + 1) as real, step);
    assert k as real <= q < (k + 1) as real;
  }

  /** The last edge lies beyond hi + buf, so every x up to hi has an interval. */
  lemma EnoughEdges(start: real, hi: real, step: real, buf: real, x: real)
    requires step > 0.0 && buf > 0.0 && start <= x <= hi
    ensures BinIndex(start, step, x) + 1 < ArangeLength(start, hi + step + buf, step)
  {
    var q := (x - start) / step;
    var y := (hi + step + buf - start) / step;
    DivideLt(x - start, hi + buf - start, step);
    ShiftQuotient(hi + buf - start, step);
    assert hi + step + buf - start == (hi + buf - start) + step;
    assert q + 1.0 < y;
  }

  /** The number of edges np.arange(start, hi + step + buf, step). */
  function EdgeCount(start: real, hi: real, step: real, buf: real): nat
    requires step > 0.0
  {
    ArangeLength(start, hi + step + buf, step)
  }

  /** pd.cut with right=False on the edges np.arange(start, hi + step + buf, step)
      puts every x in [start, hi] into exactly one interval, the floor index. */
  lemma PdCutIsBinIndex(start: real, hi: real, step: real, buf: real, x: real)
    requires step > 0.0 && buf > 0.0 && start <= x <= hi
    ensures InBin(start, step, EdgeCount(start, hi, step, buf), BinIndex(start, step, x), x)
    ensures forall k :: InBin(start, step, EdgeCount(start, hi, step, buf), k, x) ==>
              k == BinIndex(start, step, x)
  {
    BinIndexBounds(start, step, x);
    EnoughEdges(start, hi, step, buf, x);
    forall k | InBin(start, step, EdgeCount(start, hi, step, buf), k, x)
      ensures k == BinIndex(start, step, x)
    {
      BinIndexUnique(start, step, x, k);
    }
  }

  /** Every point of the cloud lies in exactly one x interval and one y
      interval of its grid, those of its cell. */
  lemma {:induction false} EveryPointInOneCell(ps: seq<Point3>, binSize: real, buf: real, i: int)
    requires |ps| > 0 && binSize > 0.0 && buf > 0.0 && 0 <= i < |ps|
    ensures var g := GridOf(ps, binSize, buf);
      && InBin(g.xmin, binSize, EdgeCount(g.xmin, g.xmax, binSize, buf), CellOf(g, ps[i]).xbin, ps[i].x)
      && InBin(g.ymin, binSize, EdgeCount(g.ymin, g.ymax, binSize, buf), CellOf(g, ps[i]).ybin, ps[i].y)
      && (forall k :: InBin(g.xmin, binSize, EdgeCount(g.xmin, g.xmax, binSize, buf), k, ps[i].x) ==>
            k == CellOf(g, ps[i]).xbin)
      && (forall k :: InBin(g.ymin, binSize, EdgeCount(g.ymin, g.ymax, binSize, buf), k, ps[i].y) ==>
            k == CellOf(g, ps[i]).ybin)
  {
    var g := GridOf(ps, binSize, buf);
    PdCutIsBinIndex(g.xmin, g.xmax, binSize, buf, ps[i].x);
    PdCutIsBinIndex(g.ymin, g.ymax, binSize, buf, ps[i].y);
  }

  /** The cell of every point, in input order: the xbin and ybin columns. */
  function Cells(ps: seq<Point3>, g: Grid): (cs: seq<Cell>)
    requires g.binSize > 0.0
    ensures |cs| == |ps| && forall i :: 0 <= i < |ps| ==> cs[i] == CellOf(g, ps[i])
  {
    seq(|ps|, i requires 0 <= i < |ps| => CellOf(g, ps[i]))
  }

  /** The z values of the points of cell c, in input order: the group of c. */
  function CellZs(ps: seq<Point3>, g: Grid, c: Cell): (zs: seq<real>)
    requires g.binSize > 0.0
    ensures |zs| <= |ps|
  {
    if ps == [] then []
    else
      var last := ps[|ps| - 1];
      CellZs(ps[..|ps| - 1], g, c) + (if CellOf(g, last) == c then [last.z] else [])
  }

  /** z is the z value of some point of cell c. */
  predicate ZOfCell(ps: seq<Point3>, g: Grid, c: Cell, z: real)
    requires g.binSize > 0.0
  {
    exists i :: 0 <= i < |ps| && CellOf(g, ps[i]) == c && z == ps[i].z
  }

  /** Every value of a group is the z of a point of its cell. */
  lemma {:induction false} CellZsFromCell(ps: seq<Point3>, g: Grid, c: Cell)
    requires g.binSize > 0.0
    ensures forall j :: 0 <= j < |CellZs(ps, g, c)| ==> ZOfCell(ps, g, c, CellZs(ps, g, c)[j])
  {
    if ps != [] {
      var n := |ps| - 1;
      var prefix := CellZs(ps[..n], g, c);
      CellZsFromCell(ps[..n], g, c);
      assert CellZs(ps, g, c) == prefix + (if CellOf(g, ps[n]) == c then [ps[n].z] else []);
      forall j | 0 <= j < |CellZs(ps, g, c)| ensures ZOfCell(ps, g, c, CellZs(ps, g, c)[j]) {
        if j < |prefix| {
          assert ZOfCell(ps[..n], g, c, prefix[j]);
          var i :| 0 <= i < |ps[..n]| && CellOf(g, ps[..n][i]) == c && prefix[j] == ps[..n][i].z;
          assert ps[..n][i] == ps[i];
        } else {
          assert CellZs(ps, g, c)[j] == ps[n].z;
        }
      }
    }
  }

  /** A group holds the z value of every point of its cell. */
  lemma {:induction false} CellZsMembers(ps: seq<Point3>, g: Grid, c: Cell)
    requires g.binSize > 0.0
    ensures forall i :: 0 <= i < |ps| && CellOf(g, ps[i]) == c ==> ps[i].z in CellZs(ps, g, c)
  {
    if ps != [] {
      var n := |ps| - 1;
      CellZsMembers(ps[..n], g, c);
      forall i | 0 <= i < |ps| && CellOf(g, ps[i]) == c ensures ps[i].z in CellZs(ps, g, c) {
        if i < n {
          assert ps[..n][i] == ps[i];
        }
      }
    }
  }

  /** A group has as many values as there are points in its cell. */
  lemma {:induction false} CellZsCount(ps: seq<Point3>, g: Grid, c: Cell)
    requires g.binSize > 0.0
    ensures |CellZs(ps, g, c)| == multiset(Cells(ps, g))[c]
  {
    if ps != [] {
      var n := |ps| - 1;
      CellZsCount(ps[..n], g, c);
      assert Cells(ps, g) == Cells(ps[..n], g) + [CellOf(g, ps[n])];
    }
  }

  /** The statistics pandas' count, std, min and max give one non-empty group. */
  function Aggregate(zs: seq<real>): (s: CellStats)
    requires |zs| > 0
    ensures s.count == |zs| >= 1
    ensures 0.0 <= s.zRange && forall i :: 0 <= i < |zs| ==> s.zRange >= zs[i] - Min(zs)
    ensures exists i, j :: 0 <= i < |zs| && 0 <= j < |zs| && s.zRange == zs[i] - zs[j]
    ensures s.std == NonFinite <==> |zs| == 1
    ensures |zs| > 1 ==> s.std == StdDev(zs, 1)
  {
    CellStats(|zs|, if |zs| == 1 then NonFinite else StdDev(zs, 1), Max(zs) - Min(zs))
  }

  /** Row i of the merged table: point i with the statistics of its cell. */
  function TableRow(ps: seq<Point3>, g: Grid, i: int): AccRow
    requires g.binSize > 0.0 && 0 <= i < |ps|
  {
    CellZsMembers(ps, g, CellOf(g, ps[i]));
    Joined(ps[i], Aggregate(CellZs(ps, g, CellOf(g, ps[i]))))
  }

  /** The merged table of a non-empty cloud: row i describes point i. */
  function Table(ps: seq<Point3>, g: Grid): (t: seq<AccRow>)
    requires g.binSize > 0.0
    ensures |t| == |ps| && forall i :: 0 <= i < |ps| ==> t[i] == TableRow(ps, g, i)
  {
    seq(|ps|, i requires 0 <= i < |ps| => TableRow(ps, g, i))
  }

  /** What build_accumulation_features returns: an assertion error unless the
      cloud has three columns, np.min's ValueError on an empty cloud, and
      otherwise one row per point, in input order. The buffer is the positive
      epsilon that keeps the largest x and y inside the last bin, so that every
      point has a cell. */
  function AccumulationTable(m: Matrix, binSize: real, buf: real): (r: Result<seq<AccRow>, Error>)
    requires Rectangular(m) && binSize > 0.0 && buf > 0.0
    ensures r.Err? <==> m.width != 3 || |m.rows| == 0
    ensures r.Err? ==> r.error == (if m.width != 3 then AssertionFailed else EmptyArgument)
    ensures r.Ok? ==> |r.value| == |m.rows|
  {
    if m.width != 3 then Err(AssertionFailed)
    else if |m.rows| == 0 then Err(EmptyArgument)
    else
      var ps := Points(m);
      Ok(Table(ps, GridOf(ps, binSize, buf)))
  }

  /** The xbin and ybin columns: the cell of every point. */
  method AssignCells(ps: seq<Point3>, g: Grid) returns (cells: seq<Cell>)
    requires g.binSize > 0.0
    ensures cells == Cells(ps, g)
  {
    cells := [];
    for i := 0 to |ps|
      invariant cells == Cells(ps[..i], g)
    {
      assert Cells(ps[..i + 1], g) == Cells(ps[..i], g) + [CellOf(g, ps[i])];
      cells := cells + [CellOf(g, ps[i])];
    }
    assert ps[..|ps|] == ps;
  }

  /** groupby(["xbin", "ybin"])["z"]: the z values of every occupied cell, in
      input order. pandas also lists the empty (xbin, ybin) pairs of the
      categorical bins, with count 0; no point belongs to them, so the left
      merge never picks them up and they are not kept here. */
  method GroupByCell(ps: seq<Point3>, g: Grid, cells: seq<Cell>) returns (groups: map<Cell, seq<real>>)
    requires g.binSize > 0.0 && cells == Cells(ps, g)
    ensures forall c :: c in groups ==> groups[c] == CellZs(ps, g, c) != []
    ensures forall c :: c !in groups ==> CellZs(ps, g, c) == []
  {
    groups := map[];
    for i := 0 to |ps|
      invariant forall c :: c in groups ==> groups[c] == CellZs(ps[..i], g, c) != []
      invariant forall c :: c !in groups ==> CellZs(ps[..i], g, c) == []
    {
      assert ps[..i + 1][..i] == ps[..i];
      var c := cells[i];
      var zs := if c in groups then groups[c] else [];
      groups := groups[c := zs + [ps[i].z]];
    }
    assert ps[..|ps|] == ps;
  }

  /** A point followed by the statistics of its cell. */
  function Joined(p: Point3, s: CellStats): AccRow {
    AccRow(p.x, p.y, p.z, s.count, s.std, s.zRange)
  }

  /** merge(aggdf, on=["xbin", "ybin"], how="left"): each point followed by
      the statistics recorded for its cell. */
  method MergeStats(ps: seq<Point3>, cells: seq<Cell>, stats: map<Cell, CellStats>)
    returns (rows: seq<AccRow>)
    requires |cells| == |ps| && forall i :: 0 <= i < |ps| ==> cells[i] in stats
    ensures |rows| == |ps| && forall k :: 0 <= k < |ps| ==> rows[k] == Joined(ps[k], stats[cells[k]])
  {
    rows := [];
    for i := 0 to |ps|
      invariant |rows| == i && forall k :: 0 <= k < i ==> rows[k] == Joined(ps[k], stats[cells[k]])
    {
      rows := rows + [Joined(ps[i], stats[cells[i]])];
    }
  }

  /** When every occupied cell's statistics are the aggregate of its group,
      the merged rows are the table. */
  lemma MergedTable(ps: seq<Point3>, g: Grid, cells: seq<Cell>, stats: map<Cell, CellStats>, rows: seq<AccRow>)
    requires g.binSize > 0.0 && cells == Cells(ps, g) && forall i :: 0 <= i < |ps| ==> cells[i] in stats
    requires forall c :: c in stats && CellZs(ps, g, c) != [] ==> stats[c] == Aggregate(CellZs(ps, g, c))
    requires |rows| == |ps| && forall k :: 0 <= k < |ps| ==> rows[k] == Joined(ps[k], stats[cells[k]])
    ensures rows == Table(ps, g)
  {
    forall k | 0 <= k < |ps| ensures rows[k] == TableRow(ps, g, k) {
      CellZsMembers(ps, g, cells[k]);
    }
  }

  /** build_accumulation_features: bins the points, groups their z values by
      cell, aggregates every group and left-joins the aggregates back onto the
      points. */
  method BuildAccumulationFeatures(m: Matrix, binSize: real, buf: real) returns (r: Result<seq<AccRow>, Error>)
    requires Rectangular(m) && binSize > 0.0 && buf > 0.0
    ensures r == AccumulationTable(m, binSize, buf)
  {
    if m.width != 3 {
      return Err(AssertionFailed);
    }
    var ps := Points(m);
    if |ps| == 0 {
      return Err(EmptyArgument);
    }
    var g := GridOf(ps, binSize, buf);
    var cells := AssignCells(ps, g);
    var groups := GroupByCell(ps, g, cells);
    // agg(["count", "min", "max", "std"]) and the z_range column
    var stats := map c | c in groups :: Aggregate(groups[c]);
    forall i | 0 <= i < |ps| ensures cells[i] in stats {
      CellZsMembers(ps, g, cells[i]);
    }
    var rows := MergeStats(ps, cells, stats);
    MergedTable(ps, g, cells, stats, rows);
    return Ok(rows);
  }

  /** The rows of the table keep the points' coordinates and order, and each
      carries the statistics of its point's cell: the number of points sharing
      the cell (at least the point itself), the range of their z values and
      their standard deviation with one degree of freedom removed. */
  lemma TableRowsDescribeCells(m: Matrix, binSize: real, buf: real, i: int)
    requires Rectangular(m) && binSize > 0.0 && buf > 0.0 && m.width == 3 && 0 <= i < |m.rows|
    ensures var r := AccumulationTable(m, binSize, buf);
      var ps := Points(m);
      var g := GridOf(ps, binSize, buf);
      var zs := CellZs(ps, g, CellOf(g, ps[i]));
      && r.Ok?
      && Point3(r.value[i].x, r.value[i].y, r.value[i].z) == ps[i]
      && r.value[i].count == multiset(Cells(ps, g))[CellOf(g, ps[i])] >= 1
      && ps[i].z in zs
      && r.value[i].zRange == Max(zs) - Min(zs) >= 0.0
      && r.value[i].std == (if |zs| == 1 then NonFinite else StdDev(zs, 1))
  {
    var ps := Points(m);
    var g := GridOf(ps, binSize, buf);
    CellZsMembers(ps, g, CellOf(g, ps[i]));
    CellZsCount(ps, g, CellOf(g, ps[i]));
  }

  /** Sum of the multiplicities in m of the cells of s. */
  ghost function CountsOver(s: set<Cell>, m: multiset<Cell>): nat
    decreases s
  {
    if s == {} then 0
    else
      var c :| c in s;
      m[c] + CountsOver(s - {c}, m)
  }

  /** The sum does not depend on which cell is taken first. */
  lemma {:induction false} CountsOverSplit(s: set<Cell>, m: multiset<Cell>, c: Cell)
    requires c in s
    ensures CountsOver(s, m) == m[c] + CountsOver(s - {c}, m)
    decreases s
  {
    var d :| d in s && CountsOver(s, m) == m[d] + CountsOver(s - {d}, m);
    if d != c {
      CountsOverSplit(s - {d}, m, c);
      CountsOverSplit(s - {c}, m, d);
      assert s - {d} - {c} == s - {c} - {d};
    }
  }

  /** Adding one cell to the multiset adds one to the sum if the cell is counted. */
  lemma {:induction false} CountsOverAdd(s: set<Cell>, m: multiset<Cell>, c: Cell)
    ensures CountsOver(s, m + multiset{c}) == CountsOver(s, m) + (if c in s then 1 else 0)
    decreases s
  {
    if s != {} {
      var d :| d in s;
      CountsOverSplit(s, m, d);
      CountsOverSplit(s, m + multiset{c}, d);
      CountsOverAdd(s - {d}, m, c);
    }
  }

  /** The cells holding at least one point. */
  function Occupied(ps: seq<Point3>, g: Grid): (s: set<Cell>)
    requires g.binSize > 0.0
    ensures forall c :: c in s <==> c in multiset(Cells(ps, g))
  {
    set i | 0 <= i < |ps| :: CellOf(g, ps[i])
  }

  /** The counts of the distinct occupied cells add up to the number of points. */
  lemma {:induction false} OccupiedCountsSumToSize(ps: seq<Point3>, g: Grid)
    requires g.binSize > 0.0
    ensures CountsOver(Occupied(ps, g), multiset(Cells(ps, g))) == |ps|
  {
    if ps != [] {
      var n := |ps| - 1;
      var prefix := ps[..n];
      var c := CellOf(g, ps[n]);
      var s, m := Occupied(prefix, g), multiset(Cells(prefix, g));
      OccupiedCountsSumToSize(prefix, g);
      assert Cells(ps, g) == Cells(prefix, g) + [c];
      assert Occupied(ps, g) == s + {c};
      assert multiset(Cells(ps, g)) == m + multiset{c};
      CountsOverNewPoint(s, m, c);
    }
  }

  /** One more point, in cell c, adds one to the sum over the occupied cells. */
  lemma CountsOverNewPoint(s: set<Cell>, m: multiset<Cell>, c: Cell)
    requires forall d :: d in s <==> d in m
    ensures CountsOver(s + {c}, m + multiset{c}) == CountsOver(s, m) + 1
  {
    CountsOverAdd(s + {c}, m, c);
    if c in s {
      assert s + {c} == s;
    } else {
      CountsOverSplit(s + {c}, m, c);
      assert s + {c} - {c} == s;
      assert m[c] == 0;
    }
  }

  /** The coordinates of a table row. */
  function RowPoint(row: AccRow): Point3 {
    Point3(row.x, row.y, row.z)
  }

  /** The indices of the rows with exactly p's coordinates, in increasing order:
      features.query("x==@point_x & y==@point_y & z==@point_z"). */
  function Matches(table: seq<AccRow>, p: Point3): (ks: seq<nat>)
    ensures forall k :: 0 <= k < |table| ==> (RowPoint(table[k]) == p <==> k in ks)
    ensures forall j :: 0 <= j < |ks| ==> ks[j] < |table|
    ensures forall i, j :: 0 <= i < j < |ks| ==> ks[i] < ks[j]
  {
    if table == [] then []
    else
      var n := |table| - 1;
      Matches(table[..n], p) + (if RowPoint(table[n]) == p then [n] else [])
  }

  /** Row k is the one and only row with p's coordinates. */
  predicate OnlyMatch(table: seq<AccRow>, p: Point3, k: int) {
    && 0 <= k < |table| && RowPoint(table[k]) == p
    && forall j :: 0 <= j < |table| && RowPoint(table[j]) == p ==> j == k
  }

  /** The accumulation features of a row: [count, z_range, std]. */
  function RowFeatures(row: AccRow): (f: seq<Scalar>)
    ensures |f| == 3 && f[0] == Exact(row.count as real) && f[1] == Exact(row.zRange) && f[2] == row.std
  {
    [Exact(row.count as real), Exact(row.zRange), row.std]
  }

  /** retrieve_accumulation_features: the count, z range and z standard
      deviation of the one row matching the point; the assertion fails unless
      exactly one row matches. */
  function RetrieveAccumulationFeatures(p: Point3, table: seq<AccRow>): (r: Result<seq<Scalar>, Error>)
    ensures r.Err? ==> r.error == AssertionFailed
    ensures r.Ok? <==> exists k :: OnlyMatch(table, p, k)
    ensures r.Ok? ==> exists k :: OnlyMatch(table, p, k) && r.value == RowFeatures(table[k])
  {
    var ks := Matches(table, p);
    if |ks| != 1 then
      if |ks| > 1 then
        assert ks[0] in ks && ks[1] in ks && ks[0] != ks[1];
        Err(AssertionFailed)
      else
        Err(AssertionFailed)
    else
      assert ks[0] in ks;
      assert OnlyMatch(table, p, ks[0]);
      Ok(RowFeatures(table[ks[0]]))
  }

  /** Looking a row's point up succeeds exactly when no other row has the same
      coordinates, and then returns that row's statistics. */
  lemma RetrieveRow(table: seq<AccRow>, i: int)
    requires 0 <= i < |table|
    ensures var r := RetrieveAccumulationFeatures(RowPoint(table[i]), table);
      && (r.Ok? <==> forall j :: 0 <= j < |table| && RowPoint(table[j]) == RowPoint(table[i]) ==> j == i)
      && (r.Ok? ==> r.value == RowFeatures(table[i]))
  {
    var p := RowPoint(table[i]);
    if forall j :: 0 <= j < |table| && RowPoint(table[j]) == p ==> j == i {
      assert OnlyMatch(table, p, i);
    }
  }

  /** The table's rows carry the cloud's points, in order. */
  lemma TablePoints(m: Matrix, binSize: real, buf: real)
    requires Rectangular(m) && binSize > 0.0 && buf > 0.0 && m.width == 3 && |m.rows| > 0
    ensures var table := AccumulationTable(m, binSize, buf).value;
      forall j :: 0 <= j < |table| ==> RowPoint(table[j]) == Points(m)[j]
  {
  }

  /** Looking up a point of the cloud in the table built from it succeeds
      exactly when no other point has the same coordinates, and then returns
      the statistics of the point's cell. */
  lemma RetrieveFromOwnTable(m: Matrix, binSize: real, buf: real, i: int)
    requires Rectangular(m) && binSize > 0.0 && buf > 0.0 && m.width == 3 && 0 <= i < |m.rows|
    ensures var ps := Points(m);
      var table := AccumulationTable(m, binSize, buf).value;
      var r := RetrieveAccumulationFeatures(ps[i], table);
      && (r.Ok? <==> forall j :: 0 <= j < |ps| && ps[j] == ps[i] ==> j == i)
      && (r.Ok? ==> r.value == RowFeatures(table[i]))
  {
    TablePoints(m, binSize, buf);
    RetrieveFromRows(AccumulationTable(m, binSize, buf).value, Points(m), i);
  }

  lemma RetrieveFromRows(table: seq<AccRow>, ps: seq<Point3>, i: int)
    requires |table| == |ps| && 0 <= i < |ps|
    requires forall j :: 0 <= j < |table| ==> RowPoint(table[j]) == ps[j]
    ensures var r := RetrieveAccumulationFeatures(ps[i], table);
      && (r.Ok? <==> forall j :: 0 <= j < |ps| && ps[j] == ps[i] ==> j == i)
      && (r.Ok? ==> r.value == RowFeatures(table[i]))
  {
    RetrieveRow(table, i);
  }

  /** A point that occurs twice makes the lookup fail. */
  lemma DuplicatePointFails(m: Matrix, binSize: real, buf: real, i: int, j: int)
    requires Rectangular(m) && binSize > 0.0 && buf > 0.0 && m.width == 3
    requires 0 <= i < |m.rows| && 0 <= j < |m.rows| && i != j && m.rows[i] == m.rows[j]
    ensures RetrieveAccumulationFeatures(Points(m)[i], AccumulationTable(m, binSize, buf).value).Err?
  {
    RetrieveFromOwnTable(m, binSize, buf, i);
    assert Points(m)[j] == Points(m)[i];
  }
}
