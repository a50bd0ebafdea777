/** Values shared by the feature formulas: the failure-compatible Result type
    standing for the exceptions the extractor raises, the Scalar type of one
    output cell, and sum/max/min over sequences of reals. */
module Numerics {

  datatype Option<+T> = None | Some(value: T)

  datatype Result<+T, +E> = Ok(value: T) | Err(error: E) {
    predicate IsFailure() { Err? }

    function PropagateFailure<U>(): Result<U, E>
      requires Err?
    {
      Err(error)
    }

    function Extract(): T
      requires Ok?
    {
      value
    }
  }

  /** The exceptions that end a feature computation. */
  datatype Error =
    | AssertionFailed  // an `assert` statement of the extractor fails
    | EmptyArgument    // ValueError: maximum or minimum of an empty sequence
    | MathDomain       // ValueError: math.log of a number that is not positive
    | ZeroDivision     // ZeroDivisionError: Python float division by zero

  /** One cell of a feature record. Floating point is modelled by exact reals;
      numpy's nan and infinities, which a numpy division by zero or the literal
      np.nan produce, are one value NonFinite. The transcendental quantities are
      kept as uninterpreted terms over the reals they are computed from. */
  datatype Scalar =
    | Exact(v: real)                       // a value of rational arithmetic only
    | NonFinite                            // nan, +inf or -inf
    | CubeRoot(radicand: real)             // x ** (1/3)
    | Entropy(probabilities: seq<real>)    // -sum of p * ln(p)
    | StdDev(values: seq<real>, ddof: nat) // standard deviation with ddof degrees of freedom removed
    | SquareRoot(radicand: real)           // math.sqrt(x)
    | OverPi(numerator: real)              // numerator / pi

  /** numpy's division of two float64 values: a zero divisor gives nan or an infinity. */
  function Divide(a: real, b: real): (r: Scalar)
    ensures r == NonFinite <==> b == 0.0
    ensures b != 0.0 ==> r.Exact?
    ensures r.Exact? ==> r.v * b == a
  {
    if b == 0.0 then NonFinite else Exact(a / b)
  }

  predicate AllExact(s: seq<Scalar>) {
    forall i :: 0 <= i < |s| ==> s[i].Exact?
  }

  function ExactValues(s: seq<Scalar>): (r: seq<real>)
    requires AllExact(s)
    ensures |r| == |s| && forall i :: 0 <= i < |s| ==> s[i] == Exact(r[i])
  {
    seq(|s|, i requires 0 <= i < |s| => s[i].v)
  }

  function Exacts(s: seq<real>): (r: seq<Scalar>)
    ensures |r| == |s| && AllExact(r) && ExactValues(r) == s
  {
    seq(|s|, i requires 0 <= i < |s| => Exact(s[i]))
  }

  predicate NonNegative(s: seq<real>) {
    forall i :: 0 <= i < |s| ==> 0.0 <= s[i]
  }

  /** Sorted from the largest to the smallest, as PCA returns its values. */
  predicate Descending(s: seq<real>) {
    forall i, j :: 0 <= i <= j < |s| ==> s[j] <= s[i]
  }

  function Sum(s: seq<real>): real {
    if s == [] then 0.0 else s[0] + Sum(s[1..])
  }

  lemma SumOfTwo(s: seq<real>)
    requires |s| == 2
    ensures Sum(s) == s[0] + s[1]
  {
    assert s[1..][0] == s[1] && s[1..][1..] == [];
    calc {
      Sum(s);
      s[0] + Sum(s[1..]);
      s[0] + (s[1] + Sum(s[1..][1..]));
    }
  }

  lemma SumOfThree(s: seq<real>)
    requires |s| == 3
    ensures Sum(s) == s[0] + s[1] + s[2]
  {
    assert s[1..][0] == s[1] && s[1..][1..] == s[2..] && s[2..][0] == s[2] && s[2..][1..] == [];
    calc {
      Sum(s);
      s[0] + Sum(s[1..]);
      s[0] + (s[1] + Sum(s[2..]));
      s[0] + (s[1] + (s[2] + Sum(s[2..][1..])));
    }
  }

  /** Every term of a sum of non-negative reals is at most the sum. */
  lemma {:induction false} SumBoundsTerms(s: seq<real>)
    requires NonNegative(s)
    ensures 0.0 <= Sum(s)
    ensures forall i :: 0 <= i < |s| ==> s[i] <= Sum(s)
  {
    if s != [] {
      SumBoundsTerms(s[1..]);
      forall i | 1 <= i < |s| ensures s[i] <= Sum(s) {
        assert s[i] == s[1..][i - 1];
      }
    }
  }

  /** A sum of non-negative reals is zero only when every term is. */
  lemma {:induction false} SumZeroIffAllZero(s: seq<real>)
    requires NonNegative(s)
    ensures Sum(s) == 0.0 <==> forall i :: 0 <= i < |s| ==> s[i] == 0.0
  {
    if s != [] {
      SumZeroIffAllZero(s[1..]);
      SumBoundsTerms(s[1..]);
      if forall i :: 0 <= i < |s| ==> s[i] == 0.0 {
        assert forall i :: 0 <= i < |s| - 1 ==> s[1..][i] == s[i + 1];
      }
      if Sum(s) == 0.0 {
        forall i | 0 <= i < |s| ensures s[i] == 0.0 {
          if i > 0 { assert s[i] == s[1..][i - 1]; }
        }
      }
    }
  }

  /** Every term divided by a non-zero d. */
  function Quotients(s: seq<real>, d: real): (q: seq<real>)
    requires d != 0.0
    ensures |q| == |s|
    ensures forall i :: 0 <= i < |s| ==> q[i] == s[i] / d
  {
    seq(|s|, i requires 0 <= i < |s| => s[i] / d)
  }

  /** Dividing every term by d divides the sum by d. */
  lemma {:induction false} SumOfQuotients(s: seq<real>, d: real)
    requires d != 0.0
    ensures Sum(Quotients(s, d)) == Sum(s) / d
  {
    var q := Quotients(s, d);
    if s != [] {
      var rest := s[1..];
      SumOfQuotients(rest, d);
      assert q[1..] == Quotients(rest, d);
      AddQuotients(s[0], Sum(rest), d);
    }
  }

  lemma AddQuotients(a: real, b: real, d: real)
    requires d != 0.0
    ensures a / d + b / d == (a + b) / d
  {
  }

  /** Every term multiplied by c. */
  function Scale(s: seq<real>, c: real): (m: seq<real>)
    ensures |m| == |s| && forall i :: 0 <= i < |s| ==> m[i] == c * s[i]
  {
    seq(|s|, i requires 0 <= i < |s| => c * s[i])
  }

  /** Multiplying every term by c multiplies the sum by c. */
  lemma {:induction false} SumOfMultiples(s: seq<real>, c: real)
    ensures Sum(Scale(s, c)) == c * Sum(s)
  {
    var m := Scale(s, c);
    if s != [] {
      SumOfMultiples(s[1..], c);
      var tail := Scale(s[1..], c);
      assert |m[1..]| == |tail|;
      assert forall i :: 0 <= i < |tail| ==> m[1..][i] == tail[i];
      assert m[1..] == tail;
    }
  }

  /** np.max: the largest element. */
  function Max(s: seq<real>): (m: real)
    requires |s| > 0
    ensures m in s
    ensures forall i :: 0 <= i < |s| ==> s[i] <= m
  {
    if |s| == 1 then s[0]
    else
      var rest := Max(s[1..]);
      if rest <= s[0] then s[0] else rest
  }

  /** np.min: the smallest element. */
  function Min(s: seq<real>): (m: real)
    requires |s| > 0
    ensures m in s
    ensures forall i :: 0 <= i < |s| ==> m <= s[i]
  {
    if |s| == 1 then s[0]
    else
      var rest := Min(s[1..]);
      if s[0] <= rest then s[0] else rest
  }

  // Facts of real arithmetic shared by the grid and the descriptor proofs.

  lemma QuotientTimesDivisor(a: real, d: real)
    requires d != 0.0
    ensures (a / d) * d == a
  {
  }

  lemma MultiplyLe(a: real, b: real, c: real)
    requires a <= b && c > 0.0
    ensures a * c <= b * c
  {
  }

  lemma MultiplyLt(a: real, b: real, c: real)
    requires a < b && c > 0.0
    ensures a * c < b * c
  {
  }

  lemma DivideLe(a: real, b: real, c: real)
    requires a <= b && c > 0.0
    ensures a / c <= b / c
  {
  }

  lemma DivideLt(a: real, b: real, c: real)
    requires a < b && c > 0.0
    ensures a / c < b / c
  {
  }

  lemma DivideNonNegative(a: real, c: real)
    requires 0.0 <= a && c > 0.0
    ensures 0.0 <= a / c
  {
  }

  lemma QuotientOfProduct(x: real, y: real, c: real)
    requires c != 0.0 && x == y * c
    ensures x / c == y
  {
  }

  lemma ShiftQuotient(a: real, c: real)
    requires c > 0.0
    ensures (a + c) / c == a / c + 1.0
  {
    var q := a / c;
    QuotientTimesDivisor(a, c);
    assert (q + 1.0) * c == q * c + c;
    QuotientOfProduct(a + c, q + 1.0, c);
  }

  lemma SelfQuotient(s: real)
    requires s != 0.0
    ensures s / s == 1.0
  {
  }

  lemma QuotientInUnitInterval(a: real, s: real)
    requires 0.0 <= a <= s && s != 0.0
    ensures 0.0 <= a / s <= 1.0
  {
  }

  lemma CancelCommonFactor(a: real, c: real, s: real)
    requires c != 0.0 && s != 0.0
    ensures (c * a) / (c * s) == a / s
  {
  }

  lemma PositiveQuotient(a: real, s: real)
    requires 0.0 < a && 0.0 < s
    ensures 0.0 < a / s
  {
  }

  lemma NonZeroFactors(a: real, b: real)
    requires a != 0.0 && b != 0.0
    ensures a * b != 0.0
  {
  }

  lemma NonZeroProduct(a: real, b: real)
    requires a != 0.0 && a * b == 0.0
    ensures b == 0.0
  {
  }

  lemma NonNegativeProduct(a: real, b: real)
    requires 0.0 < a && 0.0 <= b
    ensures 0.0 <= a * b
  {
  }
}
