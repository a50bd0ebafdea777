/** Geometric properties of a point's neighbourhood that do not come from PCA:
    the 3D radius, z range, z spread and density, and the 2D radius and
    density of the neighbours projected on the (x, y) plane. */
module LocalProperties {
  import opened Numerics

  /** A point or neighbour projected on the (x, y) plane. */
  datatype Point2 = Point2(x: real, y: real)

  /** compute_3D_properties: radius, z range, z standard deviation, density and
      verticality, in this order. np.max and np.ptp raise on an empty input;
      the density is a numpy division, infinite for a zero radius; verticality
      is never computed and always nan. */
  function Properties3D(zs: seq<real>, distances: seq<real>): (r: Result<seq<Scalar>, Error>)
    ensures r.Err? <==> |distances| == 0 || |zs| == 0
    ensures r.Err? ==> r.error == EmptyArgument
    ensures r.Ok? ==> |r.value| == 5 && r.value[4] == NonFinite && r.value[2] == StdDev(zs, 0)
    ensures r.Ok? ==>
              && r.value[0].Exact?
              && r.value[0].v in distances
              && forall i :: 0 <= i < |distances| ==> distances[i] <= r.value[0].v
    ensures r.Ok? ==>
              && r.value[1].Exact?
              && 0.0 <= r.value[1].v
              && (exists i, j :: 0 <= i < |zs| && 0 <= j < |zs| && r.value[1].v == zs[i] - zs[j])
              && forall i, j :: 0 <= i < |zs| && 0 <= j < |zs| ==> zs[i] - zs[j] <= r.value[1].v
    ensures r.Ok? ==> (r.value[3] == NonFinite <==> r.value[0].v == 0.0)
    ensures r.Ok? && r.value[0].v != 0.0 ==>
              var radius := r.value[0].v;
              r.value[3] == OverPi((|distances| + 1) as real / (4.0 / 3.0 * (radius * radius * radius)))
  {
    if |distances| == 0 || |zs| == 0 then Err(EmptyArgument)
    else
      var radius := Max(distances);
      var zRange := Max(zs) - Min(zs);
      var n := |distances| as real;
      var density := if radius == 0.0 then NonFinite
                     else OverPi((n + 1.0) / (4.0 / 3.0 * (radius * radius * radius)));
      Ok([Exact(radius), Exact(zRange), StdDev(zs, 0), density, NonFinite])
  }

  /** The squared planar distance between two points: (x - x')**2 + (y - y')**2. */
  function SquaredDistance(p: Point2, q: Point2): (d: real)
    ensures 0.0 <= d
    ensures d == 0.0 <==> p == q
  {
    SquareSign(q.x - p.x);
    SquareSign(q.y - p.y);
    Product(q.x - p.x, q.x - p.x) + Product(q.y - p.y, q.y - p.y)
  }

  /** A product of two reals, named so that a square can be reasoned about as
      the product of two equal factors. */
  function Product(a: real, b: real): real
  {
    a * b
  }

  /** A square is zero for zero and positive otherwise. */
  lemma SquareSign(a: real)
    ensures a == 0.0 ==> Product(a, a) == 0.0
    ensures a != 0.0 ==> 0.0 < Product(a, a)
  {
    if a > 0.0 {
      ProductOfPositives(a, a);
    } else if a < 0.0 {
      ProductOfNegatives(a, a);
    }
  }

  lemma ProductOfPositives(a: real, b: real)
    requires 0.0 < a && 0.0 < b
    ensures 0.0 < Product(a, b)
  {
  }

  lemma ProductOfNegatives(a: real, b: real)
    requires a < 0.0 && b < 0.0
    ensures 0.0 < Product(a, b)
  {
  }

  /** The squared planar distance of every neighbour to the point. */
  function SquaredDistances(point: Point2, neighbors: seq<Point2>): (d: seq<real>)
    ensures |d| == |neighbors|
    ensures forall i :: 0 <= i < |neighbors| ==> d[i] == SquaredDistance(point, neighbors[i])
  {
    seq(|neighbors|, i requires 0 <= i < |neighbors| => SquaredDistance(point, neighbors[i]))
  }

  /** The largest squared distance is zero exactly when every neighbour has
      the point's x and y. */
  lemma LargestSquaredDistanceZero(point: Point2, neighbors: seq<Point2>)
    requires |neighbors| > 0
    ensures 0.0 <= Max(SquaredDistances(point, neighbors))
    ensures Max(SquaredDistances(point, neighbors)) == 0.0 <==>
              forall i :: 0 <= i < |neighbors| ==> neighbors[i] == point
  {
    var d := SquaredDistances(point, neighbors);
    assert d[0] <= Max(d);
    if Max(d) == 0.0 {
      forall i | 0 <= i < |neighbors| ensures neighbors[i] == point {
        assert d[i] <= Max(d);
      }
    }
  }

  /** compute_2D_properties: the planar radius (the square root of the largest
      squared distance, since the root is increasing) and the planar density.
      max raises on no neighbours; the density is a Python float division,
      which raises when every neighbour shares the point's x and y. */
  function Properties2D(point: Point2, neighbors: seq<Point2>): (r: Result<seq<Scalar>, Error>)
    ensures r.Err? <==> |neighbors| == 0 || forall i :: 0 <= i < |neighbors| ==> neighbors[i] == point
    ensures r.Err? ==> r.error == (if |neighbors| == 0 then EmptyArgument else ZeroDivision)
    ensures r.Ok? ==>
              && |r.value| == 2
              && r.value[0].SquareRoot?
              && 0.0 < r.value[0].radicand
              && r.value[0].radicand in SquaredDistances(point, neighbors)
              && (forall i :: 0 <= i < |neighbors| ==>
                    SquaredDistances(point, neighbors)[i] <= r.value[0].radicand)
              && r.value[1] == OverPi((|neighbors| + 1) as real / r.value[0].radicand)
  {
    if |neighbors| == 0 then Err(EmptyArgument)
    else
      var squared := SquaredDistances(point, neighbors);
      LargestSquaredDistanceZero(point, neighbors);
      var largest := Max(squared);
      if largest == 0.0 then Err(ZeroDivision)
      else Ok([SquareRoot(largest), OverPi((|neighbors| + 1) as real / largest)])
  }
}
