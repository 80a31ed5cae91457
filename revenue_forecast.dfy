/** compute_mape: the mean absolute percentage error of a forecast, on a
    0-100 scale, over the positions whose actual value is not zero. */
module RevenueForecast {
  import opened Builtins

  /** Some actual value is nonzero, so the mean is over a nonempty set. */
  predicate HasNonzero(actual: seq<real>)
  {
    exists i :: 0 <= i < |actual| && actual[i] != 0.0
  }

  /** The prediction is exact at every position the mask keeps. */
  predicate ExactWhereKept(actual: seq<real>, predicted: seq<real>)
    requires |actual| == |predicted|
  {
    forall i :: 0 <= i < |actual| && actual[i] != 0.0 ==> predicted[i] == actual[i]
  }

  /** The (actual, predicted) pairs where actual != 0, in their original order. */
  function Masked(actual: seq<real>, predicted: seq<real>): (m: seq<(real, real)>)
    requires |actual| == |predicted|
    ensures |m| <= |actual|
    ensures forall j :: 0 <= j < |m| ==> m[j].0 != 0.0
  {
    if |actual| == 0 then []
    else (if actual[0] != 0.0 then [(actual[0], predicted[0])] else []) + Masked(actual[1..], predicted[1..])
  }

  /** |(actual - predicted) / actual| for each kept pair. */
  function AbsPercentErrors(pairs: seq<(real, real)>): (e: seq<real>)
    requires forall j :: 0 <= j < |pairs| ==> pairs[j].0 != 0.0
    ensures |e| == |pairs|
    ensures forall j :: 0 <= j < |e| ==> e[j] >= 0.0
  {
    if |pairs| == 0 then []
    else [Abs((pairs[0].0 - pairs[0].1) / pairs[0].0)] + AbsPercentErrors(pairs[1..])
  }

  /** Every position with a nonzero actual value has its pair kept. */
  lemma {:induction false} MaskedKeepsNonzero(actual: seq<real>, predicted: seq<real>)
    requires |actual| == |predicted|
    ensures forall i :: 0 <= i < |actual| && actual[i] != 0.0 ==> (actual[i], predicted[i]) in Masked(actual, predicted)
  {
    if |actual| > 0 {
      var a, p := actual[1..], predicted[1..];
      MaskedKeepsNonzero(a, p);
      var head: seq<(real, real)> := if actual[0] != 0.0 then [(actual[0], predicted[0])] else [];
      assert Masked(actual, predicted) == head + Masked(a, p);
      forall i | 0 <= i < |actual| && actual[i] != 0.0
        ensures (actual[i], predicted[i]) in Masked(actual, predicted)
      {
        if i > 0 {
          assert (actual[i], predicted[i]) == (a[i - 1], p[i - 1]);
        }
      }
    }
  }

  /** Each error is |(actual - predicted) / actual| of the pair at the same position. */
  lemma {:induction false} AbsPercentErrorsPointwise(pairs: seq<(real, real)>)
    requires forall j :: 0 <= j < |pairs| ==> pairs[j].0 != 0.0
    ensures forall j :: 0 <= j < |pairs| ==>
      AbsPercentErrors(pairs)[j] == Abs((pairs[j].0 - pairs[j].1) / pairs[j].0)
  {
    if |pairs| > 0 {
      var rest := pairs[1..];
      AbsPercentErrorsPointwise(rest);
      var e := AbsPercentErrors(pairs);
      assert e == [Abs((pairs[0].0 - pairs[0].1) / pairs[0].0)] + AbsPercentErrors(rest);
      forall j | 0 <= j < |pairs| ensures e[j] == Abs((pairs[j].0 - pairs[j].1) / pairs[j].0) {
        if j > 0 {
          assert e[j] == AbsPercentErrors(rest)[j - 1];
          assert pairs[j] == rest[j - 1];
        }
      }
    }
  }

  /** Every element of s is c. */
  predicate AllEqual(s: seq<real>, c: real)
  {
    forall j :: 0 <= j < |s| ==> s[j] == c
  }

  /** Every prediction is its actual value times (1 + c). */
  predicate OffByFactor(actual: seq<real>, predicted: seq<real>, c: real)
    requires |actual| == |predicted|
  {
    forall i :: 0 <= i < |actual| ==> predicted[i] == actual[i] * (1.0 + c)
  }

  function Sum(s: seq<real>): real
  {
    if |s| == 0 then 0.0 else s[0] + Sum(s[1..])
  }

  function Mean(s: seq<real>): real
    requires |s| > 0
  {
    Sum(s) / |s| as real
  }

  /** The MAPE itself: 100 times the mean of the kept errors. */
  function ComputeMape(actual: seq<real>, predicted: seq<real>): (r: real)
    requires |actual| == |predicted|
    requires HasNonzero(actual)
    ensures r >= 0.0
    ensures r == 0.0 <==> ExactWhereKept(actual, predicted)
  {
    var errors := AbsPercentErrors(Masked(actual, predicted));
    MaskedNonempty(actual, predicted);
    SumNonnegative(errors);
    SumZeroIff(errors);
    ErrorsZeroIff(actual, predicted);
    ScaledMean(Sum(errors), |errors|);
    assert Mean(errors) * 100.0 == Sum(errors) / |errors| as real * 100.0;
    Mean(errors) * 100.0
  }

  // ---------------------------------------------------------------------
  // Lemmas

  /** A nonzero actual value keeps at least one pair. */
  lemma {:induction false} MaskedNonempty(actual: seq<real>, predicted: seq<real>)
    requires |actual| == |predicted|
    requires HasNonzero(actual)
    ensures |Masked(actual, predicted)| > 0
  {
    if actual[0] == 0.0 {
      var i :| 0 <= i < |actual| && actual[i] != 0.0;
      assert actual[1..][i - 1] != 0.0;
      MaskedNonempty(actual[1..], predicted[1..]);
    }
  }

  /** The mask works position by position and keeps the original order:
      masking a concatenation concatenates the masks. With the one-element
      case (a pair is kept exactly when its actual value is nonzero) this
      determines the kept pairs completely. */
  lemma {:induction false} MaskedConcat(a1: seq<real>, p1: seq<real>, a2: seq<real>, p2: seq<real>)
    requires |a1| == |p1| && |a2| == |p2|
    ensures Masked(a1 + a2, p1 + p2) == Masked(a1, p1) + Masked(a2, p2)
  {
    if |a1| > 0 {
      assert (a1 + a2)[1..] == a1[1..] + a2;
      assert (p1 + p2)[1..] == p1[1..] + p2;
      MaskedConcat(a1[1..], p1[1..], a2, p2);
    } else {
      assert a1 + a2 == a2;
      assert p1 + p2 == p2;
    }
  }

  /** One position is kept exactly when its actual value is nonzero. */
  lemma MaskedSingle(a: real, p: real)
    ensures Masked([a], [p]) == if a != 0.0 then [(a, p)] else []
  {
    assert Masked([a], [p]) == (if a != 0.0 then [(a, p)] else []) + Masked([], []);
  }

  lemma {:induction false} SumNonnegative(s: seq<real>)
    requires forall j :: 0 <= j < |s| ==> s[j] >= 0.0
    ensures Sum(s) >= 0.0
  {
    if |s| > 0 {
      SumNonnegative(s[1..]);
    }
  }

  /** A sum of non-negative terms is zero exactly when every term is. */
  lemma {:induction false} SumZeroIff(s: seq<real>)
    requires forall j :: 0 <= j < |s| ==> s[j] >= 0.0
    ensures Sum(s) == 0.0 <==> AllEqual(s, 0.0)
  {
    if |s| > 0 {
      SumNonnegative(s[1..]);
      SumZeroIff(s[1..]);
      if Sum(s) == 0.0 {
        forall j | 0 <= j < |s| ensures s[j] == 0.0 {
          if j > 0 { assert s[j] == s[1..][j - 1]; }
        }
      }
    }
  }

  /** 100 times the mean of a non-negative total is non-negative, and zero
      exactly when the total is. */
  lemma ScaledMean(total: real, n: nat)
    requires n > 0
    ensures total >= 0.0 ==> total / n as real * 100.0 >= 0.0
    ensures total / n as real * 100.0 == 0.0 <==> total == 0.0
  {
    var m := total / n as real;
    assert total == m * n as real;
  }

  /** One percentage error is zero exactly when the prediction is exact. */
  lemma ErrorZeroIff(x: real, y: real)
    requires x != 0.0
    ensures Abs((x - y) / x) == 0.0 <==> y == x
  {
    var q := (x - y) / x;
    assert x - y == q * x;
  }

  /** Exactness splits into the head position and the rest. */
  lemma ExactCons(actual: seq<real>, predicted: seq<real>)
    requires |actual| == |predicted| > 0
    ensures ExactWhereKept(actual, predicted) <==>
      (actual[0] != 0.0 ==> predicted[0] == actual[0]) && ExactWhereKept(actual[1..], predicted[1..])
  {
    var a, p := actual[1..], predicted[1..];
    if ExactWhereKept(actual, predicted) {
      forall i | 0 <= i < |a| && a[i] != 0.0 ensures p[i] == a[i] {
        assert actual[i + 1] == a[i];
      }
    }
    if (actual[0] != 0.0 ==> predicted[0] == actual[0]) && ExactWhereKept(a, p) {
      forall i | 0 <= i < |actual| && actual[i] != 0.0 ensures predicted[i] == actual[i] {
        if i > 0 { assert actual[i] == a[i - 1]; }
      }
    }
  }

  /** Every kept error is zero exactly when the prediction is exact at
      every kept position. */
  lemma {:induction false} ErrorsZeroIff(actual: seq<real>, predicted: seq<real>)
    requires |actual| == |predicted|
    ensures AllEqual(AbsPercentErrors(Masked(actual, predicted)), 0.0) <==> ExactWhereKept(actual, predicted)
  {
    if |actual| > 0 {
      var a, p := actual[1..], predicted[1..];
      ErrorsZeroIff(a, p);
      ExactCons(actual, predicted);
      var head := if actual[0] != 0.0 then [(actual[0], predicted[0])] else [];
      var tail := Masked(a, p);
      assert Masked(actual, predicted) == head + tail;
      AppendErrors(head, tail);
      var e := AbsPercentErrors(Masked(actual, predicted));
      var et := AbsPercentErrors(tail);
      if actual[0] != 0.0 {
        ErrorZeroIff(actual[0], predicted[0]);
        assert e == [Abs((actual[0] - predicted[0]) / actual[0])] + et;
        AllEqualCons(e[0], et, 0.0);
      } else {
        assert e == et;
      }
    }
  }

  lemma AllEqualCons(x: real, t: seq<real>, c: real)
    ensures AllEqual([x] + t, c) <==> x == c && AllEqual(t, c)
  {
    if x == c && AllEqual(t, c) {
      forall j | 0 <= j < |[x] + t| ensures ([x] + t)[j] == c {
        if j > 0 { assert ([x] + t)[j] == t[j - 1]; }
      }
    }
    if AllEqual([x] + t, c) {
      assert ([x] + t)[0] == x;
      forall j | 0 <= j < |t| ensures t[j] == c {
        assert ([x] + t)[j + 1] == t[j];
      }
    }
  }

  lemma {:induction false} AppendErrors(x: seq<(real, real)>, y: seq<(real, real)>)
    requires forall j :: 0 <= j < |x| ==> x[j].0 != 0.0
    requires forall j :: 0 <= j < |y| ==> y[j].0 != 0.0
    ensures forall j :: 0 <= j < |x + y| ==> (x + y)[j].0 != 0.0
    ensures AbsPercentErrors(x + y) == AbsPercentErrors(x) + AbsPercentErrors(y)
  {
    if |x| > 0 {
      assert (x + y)[1..] == x[1..] + y;
      AppendErrors(x[1..], y);
    } else {
      assert x + y == y;
    }
  }

  /** Positions whose actual value is zero play no part: predictions that
      agree wherever actual is nonzero give the same mask, hence the same MAPE. */
  lemma {:induction false} MaskIgnoresZeroActuals(actual: seq<real>, p1: seq<real>, p2: seq<real>)
    requires |actual| == |p1| == |p2|
    requires forall i :: 0 <= i < |actual| && actual[i] != 0.0 ==> p1[i] == p2[i]
    ensures Masked(actual, p1) == Masked(actual, p2)
  {
    if |actual| > 0 {
      forall i | 0 <= i < |actual| - 1 && actual[1..][i] != 0.0 ensures p1[1..][i] == p2[1..][i] {
        assert actual[i + 1] != 0.0;
      }
      MaskIgnoresZeroActuals(actual[1..], p1[1..], p2[1..]);
    }
  }

  /** Hence the MAPE does not depend on the predictions at zero actuals. */
  lemma MapeIgnoresZeroActuals(actual: seq<real>, p1: seq<real>, p2: seq<real>)
    requires |actual| == |p1| == |p2|
    requires HasNonzero(actual)
    requires forall i :: 0 <= i < |actual| && actual[i] != 0.0 ==> p1[i] == p2[i]
    ensures ComputeMape(actual, p1) == ComputeMape(actual, p2)
  {
    MaskIgnoresZeroActuals(actual, p1, p2);
  }

  /** A sequence of n copies of c sums to n * c. */
  lemma {:induction false} SumConstant(s: seq<real>, c: real)
    requires AllEqual(s, c)
    ensures Sum(s) == |s| as real * c
  {
    if |s| > 0 {
      SumConstant(s[1..], c);
    }
  }

  /** Every pair's prediction is its actual value times (1 + c). */
  predicate PairsOffByFactor(pairs: seq<(real, real)>, c: real)
  {
    forall j :: 0 <= j < |pairs| ==> pairs[j].1 == pairs[j].0 * (1.0 + c)
  }

  /** Dropping the first position keeps every prediction off by the same factor. */
  lemma OffByFactorTail(actual: seq<real>, predicted: seq<real>, c: real)
    requires |actual| == |predicted| > 0
    requires OffByFactor(actual, predicted, c)
    ensures OffByFactor(actual[1..], predicted[1..], c)
  {
    var a, p := actual[1..], predicted[1..];
    forall i | 0 <= i < |a| ensures p[i] == a[i] * (1.0 + c) {
      assert p[i] == predicted[i + 1] && a[i] == actual[i + 1];
    }
  }

  /** Pairs off by the same factor stay so when concatenated. */
  lemma PairsOffByFactorAppend(x: seq<(real, real)>, y: seq<(real, real)>, c: real)
    requires PairsOffByFactor(x, c) && PairsOffByFactor(y, c)
    ensures PairsOffByFactor(x + y, c)
  {
    forall j | 0 <= j < |x + y| ensures (x + y)[j].1 == (x + y)[j].0 * (1.0 + c) {
      if j < |x| { assert (x + y)[j] == x[j]; } else { assert (x + y)[j] == y[j - |x|]; }
    }
  }

  /** The mask keeps the relation between predictions and actual values. */
  lemma {:induction false} MaskedOffByFactor(actual: seq<real>, predicted: seq<real>, c: real)
    requires |actual| == |predicted|
    requires OffByFactor(actual, predicted, c)
    ensures PairsOffByFactor(Masked(actual, predicted), c)
  {
    if |actual| > 0 {
      var a, p := actual[1..], predicted[1..];
      OffByFactorTail(actual, predicted, c);
      MaskedOffByFactor(a, p, c);
      var head: seq<(real, real)> := if actual[0] != 0.0 then [(actual[0], predicted[0])] else [];
      assert PairsOffByFactor(head, c) by {
        assert predicted[0] == actual[0] * (1.0 + c);
      }
      assert Masked(actual, predicted) == head + Masked(a, p);
      PairsOffByFactorAppend(head, Masked(a, p), c);
    }
  }

  /** Each error of pairs off by the same relative amount c is |c|. */
  lemma {:induction false} UniformErrors(pairs: seq<(real, real)>, c: real)
    requires forall j :: 0 <= j < |pairs| ==> pairs[j].0 != 0.0
    requires PairsOffByFactor(pairs, c)
    ensures AllEqual(AbsPercentErrors(pairs), Abs(c))
  {
    if |pairs| > 0 {
      var rest := pairs[1..];
      assert PairsOffByFactor(rest, c) by {
        forall j | 0 <= j < |rest| ensures rest[j].1 == rest[j].0 * (1.0 + c) {
          assert rest[j] == pairs[j + 1];
        }
      }
      UniformErrors(rest, c);
      var x := pairs[0].0;
      assert pairs[0].1 == x * (1.0 + c);
      RelativeError(x, c);
      assert AbsPercentErrors(pairs) == [Abs((x - pairs[0].1) / x)] + AbsPercentErrors(rest);
      AllEqualCons(Abs((x - pairs[0].1) / x), AbsPercentErrors(rest), Abs(c));
    }
  }

  /** A forecast off by the same relative amount c at every position has a
      MAPE of 100 |c|. */
  lemma UniformRelativeError(actual: seq<real>, predicted: seq<real>, c: real)
    requires |actual| == |predicted|
    requires HasNonzero(actual)
    requires OffByFactor(actual, predicted, c)
    ensures ComputeMape(actual, predicted) == 100.0 * Abs(c)
  {
    var e := AbsPercentErrors(Masked(actual, predicted));
    MaskedOffByFactor(actual, predicted, c);
    UniformErrors(Masked(actual, predicted), c);
    MaskedNonempty(actual, predicted);
    MeanOfConstant(e, Abs(c));
  }

  lemma RelativeError(x: real, c: real)
    requires x != 0.0
    ensures Abs((x - x * (1.0 + c)) / x) == Abs(c)
  {
    assert x - x * (1.0 + c) == -c * x;
  }

  /** The mean of n copies of c is c. */
  lemma MeanOfConstant(s: seq<real>, c: real)
    requires |s| > 0 && AllEqual(s, c)
    ensures Mean(s) == c
  {
    SumConstant(s, c);
    var n := |s| as real;
    assert Sum(s) == n * c;
  }
}
