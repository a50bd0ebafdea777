/** Descriptors computed from the eigenvalues of a neighbourhood's PCA: the
    normalisation to sum 1, the Brodu-Lague barycentric coordinates in the
    explained-variance triangle, the Weinmann 3D shape ratios and the 2D
    eigenvalue sum and ratio. The eigenvalues themselves come from PCA and are
    inputs here. */
module EigenFeatures {
  import opened Numerics

  /** Dividing by the sum gives values that sum to one. */
  lemma QuotientsSumToOne(l: seq<real>)
    requires Sum(l) != 0.0
    ensures Sum(Quotients(l, Sum(l))) == 1.0
  {
    SumOfQuotients(l, Sum(l));
    SelfQuotient(Sum(l));
  }

  /** Non-negative values divided by their sum lie in [0,1]. */
  lemma QuotientsInUnitInterval(l: seq<real>)
    requires NonNegative(l) && Sum(l) != 0.0
    ensures forall i :: 0 <= i < |l| ==> 0.0 <= Quotients(l, Sum(l))[i] <= 1.0
  {
    SumBoundsTerms(l);
    var q := Quotients(l, Sum(l));
    forall i | 0 <= i < |l| ensures 0.0 <= q[i] <= 1.0 {
      QuotientInUnitInterval(l[i], Sum(l));
    }
  }

  /** Dividing by a positive number keeps the order. */
  lemma QuotientsDescending(l: seq<real>, d: real)
    requires Descending(l) && d > 0.0
    ensures Descending(Quotients(l, d))
  {
    var q := Quotients(l, d);
    forall i, j | 0 <= i <= j < |l| ensures q[j] <= q[i] {
      DivideLe(l[j], l[i], d);
    }
  }

  /** Dividing by a non-zero sum: exact values that sum to one. */
  lemma NormalizedSumsToOne(l: seq<real>)
    requires Sum(l) != 0.0
    ensures var e := Exacts(Quotients(l, Sum(l)));
      AllExact(e) && Sum(ExactValues(e)) == 1.0
  {
    QuotientsSumToOne(l);
  }

  /** Dividing non-negative values by their non-zero sum gives values in [0,1]. */
  lemma NormalizedInUnitInterval(l: seq<real>)
    requires Sum(l) != 0.0
    ensures NonNegative(l) ==> var e := Exacts(Quotients(l, Sum(l)));
      forall i :: 0 <= i < |e| ==> 0.0 <= e[i].v <= 1.0
  {
    if NonNegative(l) {
      QuotientsInUnitInterval(l);
    }
  }

  /** Dividing by a positive sum keeps descending values descending. */
  lemma NormalizedDescending(l: seq<real>)
    requires Sum(l) != 0.0
    ensures Descending(l) && Sum(l) > 0.0 ==> Descending(ExactValues(Exacts(Quotients(l, Sum(l)))))
  {
    if Descending(l) && Sum(l) > 0.0 {
      QuotientsDescending(l, Sum(l));
    }
  }

  /** normalize_over_1: every value divided by the sum of all of them. The only
      caller hands it a numpy array, whose division by a zero sum yields nan. */
  function NormalizeOver1(l: seq<real>): (e: seq<Scalar>)
    ensures |e| == |l|
    ensures Sum(l) == 0.0 ==> forall i :: 0 <= i < |e| ==> e[i] == NonFinite
    ensures Sum(l) != 0.0 ==> AllExact(e) && Sum(ExactValues(e)) == 1.0
    ensures NonNegative(l) && Sum(l) != 0.0 ==>
              forall i :: 0 <= i < |e| ==> 0.0 <= e[i].v <= 1.0
    ensures Descending(l) && Sum(l) > 0.0 ==> Descending(ExactValues(e))
  {
    var s := Sum(l);
    if s == 0.0 then
      seq(|l|, i => NonFinite)
    else
      NormalizedSumsToOne(l);
      NormalizedInUnitInterval(l);
      NormalizedDescending(l);
      Exacts(Quotients(l, s))
  }

  /** Normalising is blind to the scale of its input. */
  lemma NormalizeOver1ScaleInvariant(l: seq<real>, c: real)
    requires c > 0.0
    ensures NormalizeOver1(Scale(l, c)) == NormalizeOver1(l)
  {
    var s := Sum(l);
    SumOfMultiples(l, c);
    if s != 0.0 {
      QuotientsOfMultiples(l, c, s);
      var q := Quotients(l, s);
      assert Quotients(Scale(l, c), c * s) == q;
      assert Sum(Scale(l, c)) == c * s != 0.0;
      assert NormalizeOver1(Scale(l, c)) == Exacts(q);
    } else {
      assert Sum(Scale(l, c)) == 0.0;
    }
  }

  lemma QuotientsOfMultiples(l: seq<real>, c: real, s: real)
    requires c != 0.0 && s != 0.0
    ensures Quotients(Scale(l, c), c * s) == Quotients(l, s)
  {
    var scaled := Scale(l, c);
    var qs, q := Quotients(scaled, c * s), Quotients(l, s);
    forall i | 0 <= i < |l| ensures qs[i] == q[i] {
      CancelCommonFactor(l[i], c, s);
    }
  }

  /** features3d: the first two barycentric coordinates (alpha for 1D, beta for
      2D) of an eigenvalue triple in the triangle of explained variance. */
  function VarianceSpaceCoordinates(eigenvalues: seq<real>): (ab: seq<real>)
    requires |eigenvalues| >= 2
    ensures |ab| == 2
    ensures ab[0] + ab[1] == 3.0 * eigenvalues[0] + 3.0 * eigenvalues[1] - 2.0
  {
    var a := eigenvalues[0] - eigenvalues[1];
    var b := 2.0 * eigenvalues[0] + 4.0 * eigenvalues[1] - 2.0;
    [a, b]
  }

  /** For normalised, descending, non-negative eigenvalues the coordinates are
      alpha = e0 - e1, beta = 2 (e1 - e2) and the implicit gamma = 3 e2: the
      point lies in the triangle, so alpha + beta <= 1. */
  lemma VarianceSpaceTriangle(e: seq<real>)
    requires |e| == 3 && Sum(e) == 1.0 && NonNegative(e) && Descending(e)
    ensures var ab := VarianceSpaceCoordinates(e);
      && ab[1] == 2.0 * (e[1] - e[2])
      && 1.0 - ab[0] - ab[1] == 3.0 * e[2]
      && 0.0 <= ab[0] && 0.0 <= ab[1] && ab[0] + ab[1] <= 1.0
  {
    SumOfThree(e);
  }

  /** The loop passes raw singular values, which are not normalised: for them the
      triangle bound need not hold. */
  lemma RawSingularValuesLeaveTriangle()
    ensures var ab := VarianceSpaceCoordinates([2.0, 1.0, 0.0]); ab[0] + ab[1] > 1.0
  {
  }

  /** The normalised values of a non-zero sum are its quotients. */
  lemma NormalizedValues(l: seq<real>)
    requires Sum(l) != 0.0
    ensures AllExact(NormalizeOver1(l)) && ExactValues(NormalizeOver1(l)) == Quotients(l, Sum(l))
  {
    assert NormalizeOver1(l) == Exacts(Quotients(l, Sum(l)));
  }

  /** compute_3D_features: curvature change, linearity, planarity, scattering,
      omnivariance, anisotropy, eigenentropy and eigenvalue sum, in this order.
      Eigenvalues are non-negative by construction. math.log raises on a zero
      normalised eigenvalue; a zero sum makes every normalised value nan, and
      nan propagates to every descriptor but the sum. */
  function EigenFeatures3D(lbda: seq<real>): (r: Result<seq<Scalar>, Error>)
    requires |lbda| >= 3 && NonNegative(lbda)
    ensures r.Err? <==> 0.0 < Sum(lbda) && exists i :: 0 <= i < |lbda| && lbda[i] == 0.0
    ensures r.Err? ==> r.error == MathDomain
    ensures r.Ok? ==> |r.value| == 8 && r.value[7] == Exact(Sum(lbda))
    ensures r.Ok? && Sum(lbda) == 0.0 ==> forall i :: 0 <= i < 7 ==> r.value[i] == NonFinite
    ensures r.Ok? && Sum(lbda) != 0.0 ==>
              && AllExact(NormalizeOver1(lbda))
              && var e := ExactValues(NormalizeOver1(lbda));
              && r.value[4] == CubeRoot(e[0] * e[1] * e[2])
              && r.value[6] == Entropy(e)
  {
    var s := Sum(lbda);
    if s == 0.0 then
      var e := NormalizeOver1(lbda);
      Ok([e[2], NonFinite, NonFinite, NonFinite, NonFinite, NonFinite, NonFinite, Exact(s)])
    else if exists i :: 0 <= i < |lbda| && lbda[i] == 0.0 then
      SumBoundsTerms(lbda);
      Err(MathDomain)
    else
      LargestNormalizedPositive(lbda);
      Ok(ShapeDescriptors(ExactValues(NormalizeOver1(lbda)), s))
  }

  /** Positive eigenvalues normalise to exact values, the largest positive. */
  lemma LargestNormalizedPositive(lbda: seq<real>)
    requires |lbda| >= 1 && NonNegative(lbda) && Sum(lbda) != 0.0
    requires forall i :: 0 <= i < |lbda| ==> lbda[i] != 0.0
    ensures AllExact(NormalizeOver1(lbda)) && ExactValues(NormalizeOver1(lbda))[0] > 0.0
  {
    SumBoundsTerms(lbda);
    NormalizedValues(lbda);
    PositiveQuotient(lbda[0], Sum(lbda));
  }

  /** The eight descriptors of compute_3D_features from normalised eigenvalues
      whose largest is non-zero. */
  function ShapeDescriptors(e: seq<real>, s: real): (d: seq<Scalar>)
    requires |e| >= 3 && e[0] != 0.0
    ensures |d| == 8 && d[7] == Exact(s)
    ensures d[4] == CubeRoot(e[0] * e[1] * e[2]) && d[6] == Entropy(e)
  {
    [Exact(e[2]), Exact((e[0] - e[1]) / e[0]), Exact((e[1] - e[2]) / e[0]),
     Exact(e[2] / e[0]), CubeRoot(e[0] * e[1] * e[2]), Exact((e[0] - e[2]) / e[0]),
     Entropy(e), Exact(s)]
  }

  /** For a descending triple of positive eigenvalues the shape descriptors are
      all defined and linearity + planarity + scattering = 1,
      anisotropy = linearity + planarity, each of the four lies in [0,1], and the
      curvature change is the smallest normalised eigenvalue, at most 1/3. */
  lemma ShapeFeatureIdentities(lbda: seq<real>)
    requires |lbda| == 3 && Descending(lbda) && 0.0 < lbda[2]
    ensures EigenFeatures3D(lbda).Ok?
    ensures var f := EigenFeatures3D(lbda).value;
      && f[0].Exact? && f[1].Exact? && f[2].Exact? && f[3].Exact? && f[5].Exact?
      && f[1].v + f[2].v + f[3].v == 1.0
      && f[5].v == f[1].v + f[2].v
      && 0.0 <= f[1].v <= 1.0 && 0.0 <= f[2].v <= 1.0
      && 0.0 <= f[3].v <= 1.0 && 0.0 <= f[5].v <= 1.0
      && 0.0 < f[0].v <= 1.0 / 3.0
      && f[7] == Exact(lbda[0] + lbda[1] + lbda[2])
  {
    SumOfThree(lbda);
    var s := Sum(lbda);
    NormalizedValues(lbda);
    QuotientsSumToOne(lbda);
    QuotientsDescending(lbda, s);
    var e := Quotients(lbda, s);
    SumOfThree(e);
    PositiveQuotient(lbda[2], s);
    RatiosInUnitInterval(e[0], e[1], e[2]);
  }

  lemma RatiosInUnitInterval(e0: real, e1: real, e2: real)
    requires 0.0 < e2 <= e1 <= e0 && e0 + e1 + e2 == 1.0
    ensures (e0 - e1) / e0 + (e1 - e2) / e0 + e2 / e0 == 1.0
    ensures (e0 - e2) / e0 == (e0 - e1) / e0 + (e1 - e2) / e0
    ensures 0.0 <= (e0 - e1) / e0 <= 1.0 && 0.0 <= (e1 - e2) / e0 <= 1.0
    ensures 0.0 <= e2 / e0 <= 1.0 && 0.0 <= (e0 - e2) / e0 <= 1.0
    ensures e2 <= 1.0 / 3.0
  {
    QuotientInUnitInterval(e0 - e1, e0);
    QuotientInUnitInterval(e1 - e2, e0);
    QuotientInUnitInterval(e2, e0);
    QuotientInUnitInterval(e0 - e2, e0);
  }

  /** Scaling every eigenvalue by c > 0 leaves the seven shape descriptors
      unchanged and scales the eigenvalue sum. */
  lemma EigenFeatures3DScaleFree(lbda: seq<real>, c: real)
    requires |lbda| >= 3 && NonNegative(lbda) && c > 0.0
    ensures var scaled := Scale(lbda, c);
      && NonNegative(scaled)
      && var r, q := EigenFeatures3D(scaled), EigenFeatures3D(lbda);
      && r.Ok? == q.Ok?
      && (r.Ok? ==> r.value[..7] == q.value[..7] && r.value[7] == Exact(c * Sum(lbda)))
  {
    ZeroEntriesOfMultiples(lbda, c);
    if Sum(lbda) == 0.0 {
      ScaleFreeZeroSum(lbda, c);
    } else {
      SumOfMultiples(lbda, c);
      NormalizeOver1ScaleInvariant(lbda, c);
      NonZeroFactors(c, Sum(lbda));
      SameNormalizationSameDescriptors(Scale(lbda, c), lbda);
    }
  }

  lemma ScaleFreeZeroSum(lbda: seq<real>, c: real)
    requires |lbda| >= 3 && NonNegative(lbda) && NonNegative(Scale(lbda, c)) && c > 0.0
    requires Sum(lbda) == 0.0
    ensures var r, q := EigenFeatures3D(Scale(lbda, c)), EigenFeatures3D(lbda);
      && r.Ok? && q.Ok?
      && r.value[..7] == q.value[..7] && r.value[7] == Exact(c * Sum(lbda))
  {
    SumOfMultiples(lbda, c);
    NormalizeOver1ScaleInvariant(lbda, c);
    var scaled := Scale(lbda, c);
    assert Sum(scaled) == 0.0;
    var r, q := EigenFeatures3D(scaled), EigenFeatures3D(lbda);
    assert r.value[0] == q.value[0];
  }

  /** Two eigenvalue lists with non-zero sums, the same normalisation and the
      same zero entries get the same seven shape descriptors. */
  lemma SameNormalizationSameDescriptors(l1: seq<real>, l2: seq<real>)
    requires |l1| >= 3 && |l2| >= 3 && NonNegative(l1) && NonNegative(l2)
    requires Sum(l1) != 0.0 && Sum(l2) != 0.0
    requires NormalizeOver1(l1) == NormalizeOver1(l2)
    requires (exists i :: 0 <= i < |l1| && l1[i] == 0.0) <==> (exists i :: 0 <= i < |l2| && l2[i] == 0.0)
    ensures var r, q := EigenFeatures3D(l1), EigenFeatures3D(l2);
      && r.Ok? == q.Ok?
      && (r.Ok? ==> r.value[..7] == q.value[..7])
  {
    EigenFeatures3DNonZeroSum(l1);
    EigenFeatures3DNonZeroSum(l2);
  }

  /** A neighbourhood whose points all coincide has only zero singular values,
      and those are exactly the non-negative values that sum to zero: the
      descriptors are then all nan and nothing raises. */
  lemma AllZeroEigenvalues(lbda: seq<real>)
    requires |lbda| >= 3 && NonNegative(lbda)
    ensures Sum(lbda) == 0.0 <==> forall i :: 0 <= i < |lbda| ==> lbda[i] == 0.0
    ensures (forall i :: 0 <= i < |lbda| ==> lbda[i] == 0.0) ==>
              && EigenFeatures3D(lbda).Ok?
              && forall i :: 0 <= i < 7 ==> EigenFeatures3D(lbda).value[i] == NonFinite
  {
    SumZeroIffAllZero(lbda);
  }

  /** With a non-zero sum, compute_3D_features fails exactly on a zero
      eigenvalue and otherwise gives the descriptors of the normalised values. */
  lemma EigenFeatures3DNonZeroSum(lbda: seq<real>)
    requires |lbda| >= 3 && NonNegative(lbda) && Sum(lbda) != 0.0
    ensures AllExact(NormalizeOver1(lbda))
    ensures var r := EigenFeatures3D(lbda);
      && (r.Err? <==> exists i :: 0 <= i < |lbda| && lbda[i] == 0.0)
      && (r.Ok? ==> ExactValues(NormalizeOver1(lbda))[0] != 0.0
                    && r.value == ShapeDescriptors(ExactValues(NormalizeOver1(lbda)), Sum(lbda)))
  {
    NormalizedValues(lbda);
    if !exists i :: 0 <= i < |lbda| && lbda[i] == 0.0 {
      LargestNormalizedPositive(lbda);
    }
  }

  lemma ZeroEntriesOfMultiples(l: seq<real>, c: real)
    requires c != 0.0
    ensures NonNegative(l) && c > 0.0 ==> NonNegative(Scale(l, c))
    ensures (exists i :: 0 <= i < |l| && Scale(l, c)[i] == 0.0) <==> (exists i :: 0 <= i < |l| && l[i] == 0.0)
  {
    var m := Scale(l, c);
    if exists i :: 0 <= i < |l| && l[i] == 0.0 {
      var i :| 0 <= i < |l| && l[i] == 0.0;
      assert m[i] == 0.0;
    }
    if exists i :: 0 <= i < |l| && m[i] == 0.0 {
      var i :| 0 <= i < |l| && m[i] == 0.0;
      NonZeroProduct(c, l[i]);
    }
    if NonNegative(l) && c > 0.0 {
      forall i | 0 <= i < |l| ensures 0.0 <= m[i] {
        NonNegativeProduct(c, l[i]);
      }
    }
  }

  /** compute_2D_features: the sum of the 2D eigenvalues and the ratio of the
      first to the second (a numpy division: nan or infinite when the second is
      zero). */
  function EigenFeatures2D(lbda: seq<real>): (r: seq<Scalar>)
    requires |lbda| >= 2
    ensures |r| == 2
    ensures |lbda| == 2 ==> r[0] == Exact(lbda[0] + lbda[1])
    ensures r[1] == NonFinite <==> lbda[1] == 0.0
    ensures lbda[1] != 0.0 ==> r[1].Exact?
    ensures r[1].Exact? ==> r[1].v * lbda[1] == lbda[0]
    ensures Descending(lbda) && 0.0 < lbda[1] ==> r[1].Exact? && 1.0 <= r[1].v
  {
    var r := [Exact(Sum(lbda)), Divide(lbda[0], lbda[1])];
    if |lbda| == 2 then SumOfTwo(lbda); r else r
  }
}
