/** `compareResults`: over the adapters whose result has a score, the mean,
    minimum, maximum, spread and population standard deviation, and the
    scores more than 1.5 standard deviations from the mean. The deviation is
    kept squared (the variance) and the outlier test squared on both sides,
    which is equivalent because both sides are non-negative. */
module Stats {
  import opened Wrappers
  import opened Standard

  datatype Scored = Scored(api: string, score: real)

  datatype Statistics = Statistics(avg: real, min: real, max: real, spread: real, variance: real)

  datatype Comparison = Comparison(statistics: Statistics, scores: seq<Scored>, outliers: seq<Scored>)

  /** `.filter(([_, result]) => result.score !== undefined).map(...)`. */
  function ScoredEntries(results: seq<(string, StandardResult)>): (r: seq<Scored>)
    ensures |r| <= |results|
    decreases |results|
  {
    if |results| == 0 then []
    else
      var rest := ScoredEntries(results[1..]);
      match results[0].1.score
      case Some(s) => [Scored(results[0].0, s)] + rest
      case None => rest
  }

  /** Every listed score comes from a result with that name and score. */
  lemma {:induction false} ScoredEntriesSound(results: seq<(string, StandardResult)>, k: nat)
    requires k < |ScoredEntries(results)|
    ensures exists i :: 0 <= i < |results| &&
              results[i].0 == ScoredEntries(results)[k].api &&
              results[i].1.score == Some(ScoredEntries(results)[k].score)
    decreases |results|
  {
    if results[0].1.score.Some? && k == 0 {
      assert results[0].0 == ScoredEntries(results)[k].api;
    } else {
      var j := if results[0].1.score.Some? then k - 1 else k;
      ScoredEntriesSound(results[1..], j);
      var i :| 0 <= i < |results[1..]| &&
               results[1..][i].0 == ScoredEntries(results[1..])[j].api &&
               results[1..][i].1.score == Some(ScoredEntries(results[1..])[j].score);
      assert results[i + 1] == results[1..][i];
    }
  }

  /** Every result with a score is listed. */
  lemma {:induction false} ScoredEntriesComplete(results: seq<(string, StandardResult)>, i: nat)
    requires i < |results| && results[i].1.score.Some?
    ensures Scored(results[i].0, results[i].1.score.value) in ScoredEntries(results)
    decreases |results|
  {
    if i > 0 {
      ScoredEntriesComplete(results[1..], i - 1);
      assert results[1..][i - 1] == results[i];
    }
  }

  /** No scores are listed exactly when no result has a score. */
  lemma {:induction false} ScoredEntriesEmpty(results: seq<(string, StandardResult)>)
    ensures |ScoredEntries(results)| == 0 <==> forall i :: 0 <= i < |results| ==> results[i].1.score.None?
  {
    if |ScoredEntries(results)| == 0 {
      forall i | 0 <= i < |results| ensures results[i].1.score.None? {
        if results[i].1.score.Some? {
          ScoredEntriesComplete(results, i);
        }
      }
    } else {
      ScoredEntriesSound(results, 0);
    }
  }

  function Sum(xs: seq<Scored>): real
    decreases |xs|
  {
    if |xs| == 0 then 0.0 else xs[0].score + Sum(xs[1..])
  }

  function Min(xs: seq<Scored>): (m: real)
    requires |xs| > 0
    ensures forall i :: 0 <= i < |xs| ==> m <= xs[i].score
    ensures exists i :: 0 <= i < |xs| && m == xs[i].score
    decreases |xs|
  {
    if |xs| == 1 then xs[0].score
    else
      var rest := Min(xs[1..]);
      assert forall i :: 1 <= i < |xs| ==> xs[i] == xs[1..][i - 1];
      if xs[0].score <= rest then xs[0].score else rest
  }

  function Max(xs: seq<Scored>): (m: real)
    requires |xs| > 0
    ensures forall i :: 0 <= i < |xs| ==> xs[i].score <= m
    ensures exists i :: 0 <= i < |xs| && m == xs[i].score
    decreases |xs|
  {
    if |xs| == 1 then xs[0].score
    else
      var rest := Max(xs[1..]);
      assert forall i :: 1 <= i < |xs| ==> xs[i] == xs[1..][i - 1];
      if xs[0].score >= rest then xs[0].score else rest
  }

  function Sq(x: real): (r: real)
    ensures r >= 0.0
  {
    x * x
  }

  /** `Math.pow(s.score - avg, 2)` summed. */
  function SumSq(xs: seq<Scored>, avg: real): (r: real)
    ensures r >= 0.0
    decreases |xs|
  {
    if |xs| == 0 then 0.0 else Sq(xs[0].score - avg) + SumSq(xs[1..], avg)
  }

  /** `Math.abs(s.score - avg) > stdDev * 1.5`, squared. */
  predicate IsOutlier(s: real, avg: real, variance: real) {
    Sq(s - avg) > 2.25 * variance
  }

  function Outliers(xs: seq<Scored>, avg: real, variance: real): (r: seq<Scored>)
    ensures |r| <= |xs|
    ensures forall k :: 0 <= k < |r| ==> r[k] in xs && IsOutlier(r[k].score, avg, variance)
    ensures forall i :: 0 <= i < |xs| && IsOutlier(xs[i].score, avg, variance) ==> xs[i] in r
    decreases |xs|
  {
    if |xs| == 0 then []
    else
      var rest := Outliers(xs[1..], avg, variance);
      assert forall i :: 1 <= i < |xs| ==> xs[i] == xs[1..][i - 1];
      if IsOutlier(xs[0].score, avg, variance) then [xs[0]] + rest else rest
  }

  /** The statistics of a non-empty list of scores. */
  function Summarize(scores: seq<Scored>): (r: Comparison)
    requires |scores| > 0
    ensures r.scores == scores
    ensures exists i :: 0 <= i < |scores| && r.statistics.min == scores[i].score
    ensures exists i :: 0 <= i < |scores| && r.statistics.max == scores[i].score
    ensures forall i :: 0 <= i < |scores| ==> r.statistics.min <= scores[i].score <= r.statistics.max
    ensures r.statistics.spread == r.statistics.max - r.statistics.min
    ensures r.statistics.avg == Mean(scores) && r.statistics.variance == Variance(scores)
    ensures forall k :: 0 <= k < |r.outliers| ==>
              r.outliers[k] in scores && IsOutlier(r.outliers[k].score, r.statistics.avg, r.statistics.variance)
    ensures forall i :: 0 <= i < |scores| && IsOutlier(scores[i].score, r.statistics.avg, r.statistics.variance) ==>
              scores[i] in r.outliers
  {
    var avg := Mean(scores);
    var variance := Variance(scores);
    var max := Max(scores);
    var min := Min(scores);
    Comparison(Statistics(avg, min, max, max - min, variance), scores, Outliers(scores, avg, variance))
  }

  /** The mean: `n` times it is the sum of the scores. */
  function Mean(scores: seq<Scored>): (avg: real)
    requires |scores| > 0
    ensures (|scores| as real) * avg == Sum(scores)
  {
    Quotient(Sum(scores), |scores| as real)
  }

  /** The population variance: `n` times it is the sum of squared deviations
      from the mean. */
  function Variance(scores: seq<Scored>): (variance: real)
    requires |scores| > 0
    ensures (|scores| as real) * variance == SumSq(scores, Mean(scores))
  {
    Quotient(SumSq(scores, Mean(scores)), |scores| as real)
  }

  /** `a / n`, carrying the product it inverts. */
  function Quotient(a: real, n: real): (q: real)
    requires n > 0.0
    ensures n * q == a
  {
    DivMul(a, n, a / n);
    a / n
  }

  /** `compareResults`: nothing when no result has a score. */
  function CompareResults(results: seq<(string, StandardResult)>): (r: Option<Comparison>)
    ensures r.None? <==> forall i :: 0 <= i < |results| ==> results[i].1.score.None?
    ensures r.Some? ==> r.value.scores == ScoredEntries(results)
  {
    var scores := ScoredEntries(results);
    ScoredEntriesEmpty(results);
    if |scores| == 0 then None else Some(Summarize(scores))
  }

  /** Every score lies in `[lo, hi]`, so the sum lies in `[n * lo, n * hi]`. */
  lemma {:induction false} SumBounds(xs: seq<Scored>, lo: real, hi: real)
    requires forall i :: 0 <= i < |xs| ==> lo <= xs[i].score <= hi
    ensures |xs| as real * lo <= Sum(xs) <= |xs| as real * hi
    decreases |xs|
  {
    if |xs| > 0 {
      var tail := xs[1..];
      assert Sum(xs) == xs[0].score + Sum(tail);
      assert forall i :: 0 <= i < |tail| ==> lo <= tail[i].score <= hi by {
        forall i | 0 <= i < |tail|
          ensures lo <= tail[i].score <= hi
        {
          assert tail[i] == xs[i + 1];
        }
      }
      SumBounds(tail, lo, hi);
      AddBounds(|tail| as real, lo, hi, Sum(tail), xs[0].score);
      assert |xs| as real == |tail| as real + 1.0;
    }
  }

  /** One more term in `[lo, hi]` widens the bounds of a sum of `m` terms by one. */
  lemma AddBounds(m: real, lo: real, hi: real, rest: real, x: real)
    requires m * lo <= rest <= m * hi && lo <= x <= hi
    ensures (m + 1.0) * lo <= x + rest <= (m + 1.0) * hi
  {
    Distribute(m, lo);
    Distribute(m, hi);
  }

  lemma Distribute(c: real, t: real)
    ensures (c + 1.0) * t == c * t + t
  {
  }

  /** A quotient `q` of `a` by `n` lies between `lo` and `hi` when `a` lies
      between `n * lo` and `n * hi`. */
  lemma ProductBetween(n: real, q: real, a: real, lo: real, hi: real)
    requires n > 0.0 && n * q == a && n * lo <= a <= n * hi
    ensures lo <= q <= hi
  {
  }

  lemma ProductNonNegative(n: real, q: real, a: real)
    requires n > 0.0 && n * q == a && a >= 0.0
    ensures q >= 0.0
  {
  }

  /** The statistics are ordered: `min <= avg <= max`, a non-negative
      spread, and a non-negative variance. */
  lemma SummaryOrdered(scores: seq<Scored>)
    requires |scores| > 0
    ensures var st := Summarize(scores).statistics;
            st.min <= st.avg <= st.max && st.spread >= 0.0 && st.variance >= 0.0
  {
    var st := Summarize(scores).statistics;
    MeanBetween(scores, st.min, st.max);
    VarianceNonNegative(scores);
  }

  /** The mean of scores in `[lo, hi]` lies in `[lo, hi]`. */
  lemma MeanBetween(scores: seq<Scored>, lo: real, hi: real)
    requires |scores| > 0
    requires forall i :: 0 <= i < |scores| ==> lo <= scores[i].score <= hi
    ensures lo <= Mean(scores) <= hi
  {
    SumBounds(scores, lo, hi);
    ProductBetween(|scores| as real, Mean(scores), Sum(scores), lo, hi);
  }

  lemma VarianceNonNegative(scores: seq<Scored>)
    requires |scores| > 0
    ensures Variance(scores) >= 0.0
  {
    ProductNonNegative(|scores| as real, Variance(scores), SumSq(scores, Mean(scores)));
  }

  /** Equal scores have themselves as mean and no variance. */
  lemma EqualMoments(scores: seq<Scored>, c: real)
    requires |scores| > 0
    requires forall i :: 0 <= i < |scores| ==> scores[i].score == c
    ensures Mean(scores) == c && Variance(scores) == 0.0
  {
    var n := |scores| as real;
    SumConstant(scores, c);
    ProductCancel(n, Mean(scores), c);
    SumSqConstant(scores, c);
    ProductCancel(n, Variance(scores), 0.0);
  }

  /** The sum of `n` equal scores `c` is `n * c`. */
  lemma {:induction false} SumConstant(xs: seq<Scored>, c: real)
    requires forall i :: 0 <= i < |xs| ==> xs[i].score == c
    ensures Sum(xs) == |xs| as real * c
    decreases |xs|
  {
    if |xs| > 0 {
      SumBounds(xs, c, c);
    }
  }

  /** Equal scores have no deviation from their mean. */
  lemma {:induction false} SumSqConstant(xs: seq<Scored>, c: real)
    requires forall i :: 0 <= i < |xs| ==> xs[i].score == c
    ensures SumSq(xs, c) == 0.0
    decreases |xs|
  {
    if |xs| > 0 {
      assert forall i :: 1 <= i < |xs| ==> xs[i] == xs[1..][i - 1];
      SumSqConstant(xs[1..], c);
    }
  }

  lemma ProductCancel(n: real, q: real, c: real)
    requires n > 0.0 && n * q == n * c
    ensures q == c
  {
  }

  lemma {:induction false} NoOutliersWhenEqual(xs: seq<Scored>, c: real)
    requires forall i :: 0 <= i < |xs| ==> xs[i].score == c
    ensures Outliers(xs, c, 0.0) == []
    decreases |xs|
  {
    if |xs| > 0 {
      assert forall i :: 1 <= i < |xs| ==> xs[i] == xs[1..][i - 1];
      NoOutliersWhenEqual(xs[1..], c);
    }
  }

  /** When all scores are equal, the mean is that score, the spread and
      the variance are zero and nothing is an outlier. */
  lemma EqualScoresNoOutliers(scores: seq<Scored>, c: real)
    requires |scores| > 0
    requires forall i :: 0 <= i < |scores| ==> scores[i].score == c
    ensures var cmp := Summarize(scores);
            cmp.statistics.avg == c && cmp.statistics.spread == 0.0 &&
            cmp.statistics.variance == 0.0 && cmp.outliers == []
  {
    EqualMoments(scores, c);
    NoOutliersWhenEqual(scores, c);
  }

  /** `k` copies of `t` added up: the outlier bound without a product. */
  function Times(k: nat, t: real): real
    decreases k
  {
    if k == 0 then 0.0 else t + Times(k - 1, t)
  }

  lemma {:induction false} TimesIsProduct(k: nat, t: real)
    ensures Times(k, t) == k as real * t
    decreases k
  {
    if k > 0 {
      TimesIsProduct(k - 1, t);
      Distribute((k - 1) as real, t);
    }
  }

  /** Squared deviations add up to at least `2.25 * variance` for each
      outlier, and strictly more as soon as there is one. */
  lemma {:induction false} SumSqAboveOutliers(xs: seq<Scored>, avg: real, variance: real)
    ensures var count := |Outliers(xs, avg, variance)|;
            SumSq(xs, avg) >= Times(count, 2.25 * variance) &&
            (count > 0 ==> SumSq(xs, avg) > Times(count, 2.25 * variance))
    decreases |xs|
  {
    if |xs| > 0 {
      SumSqAboveOutliers(xs[1..], avg, variance);
    }
  }

  lemma MinorityArithmetic(n: real, count: nat, variance: real, total: real)
    requires n > 0.0 && count > 0 && variance == total / n && total >= 0.0
    requires total > Times(count, 2.25 * variance)
    ensures variance > 0.0 && 2.25 * (count as real) < n
  {
    DivMul(total, n, variance);
    ProductNonNegative(n, variance, total);
    TimesIsProduct(count, 2.25 * variance);
    if variance == 0.0 {
      assert false;
    }
    assert n * variance > (2.25 * count as real) * variance;
  }

  lemma DivMul(a: real, n: real, q: real)
    requires n > 0.0 && q == a / n
    ensures n * q == a
  {
  }

  /** The bound on abstract mean and variance. */
  lemma OutlierBound(scores: seq<Scored>, avg: real, variance: real)
    requires |scores| > 0
    requires variance == SumSq(scores, avg) / (|scores| as real)
    requires |Outliers(scores, avg, variance)| > 0
    ensures variance > 0.0 && 2.25 * (|Outliers(scores, avg, variance)| as real) < |scores| as real
  {
    SumSqAboveOutliers(scores, avg, variance);
    MinorityArithmetic(|scores| as real, |Outliers(scores, avg, variance)|, variance, SumSq(scores, avg));
  }

  /** Chebyshev's bound for the 1.5-deviation rule: outliers exist only
      when the scores differ, and fewer than 4/9 of the scores are outliers. */
  lemma OutliersMinority(scores: seq<Scored>)
    requires |scores| > 0
    requires |Summarize(scores).outliers| > 0
    ensures var cmp := Summarize(scores);
            cmp.statistics.variance > 0.0 &&
            2.25 * (|cmp.outliers| as real) < |scores| as real
  {
    SummaryParts(scores);
    OutlierBound(scores, Mean(scores), Variance(scores));
  }

  lemma SummaryParts(scores: seq<Scored>)
    requires |scores| > 0
    ensures Summarize(scores).outliers == Outliers(scores, Mean(scores), Variance(scores))
  {
  }

  lemma ScoredEntriesCons(head: (string, StandardResult), tail: seq<(string, StandardResult)>)
    ensures ScoredEntries([head] + tail) ==
            (if head.1.score.Some? then [Scored(head.0, head.1.score.value)] else []) + ScoredEntries(tail)
  {
    assert ([head] + tail)[1..] == tail;
  }

  lemma ExampleScores(results: seq<(string, StandardResult)>, scores: seq<Scored>)
    requires results == [("a", StandardResult(Some(90.0), None)),
                         ("b", StandardResult(Some(92.0), None)),
                         ("c", StandardResult(Some(88.0), None)),
                         ("d", StandardResult(Some(40.0), None)),
                         ("e", StandardResult(None, None))]
    requires scores == [Scored("a", 90.0), Scored("b", 92.0), Scored("c", 88.0), Scored("d", 40.0)]
    ensures ScoredEntries(results) == scores
  {
    assert ScoredEntries(results[4..]) == [] by {
      ScoredEntriesCons(results[4], []);
      assert [results[4]] + [] == results[4..];
    }
    assert ScoredEntries(results[3..]) == scores[3..] by {
      ScoredEntriesCons(results[3], results[4..]);
      assert [results[3]] + results[4..] == results[3..];
    }
    assert ScoredEntries(results[2..]) == scores[2..] by {
      ScoredEntriesCons(results[2], results[3..]);
      assert [results[2]] + results[3..] == results[2..];
      assert [scores[2]] + scores[3..] == scores[2..];
    }
    assert ScoredEntries(results[1..]) == scores[1..] by {
      ScoredEntriesCons(results[1], results[2..]);
      assert [results[1]] + results[2..] == results[1..];
      assert [scores[1]] + scores[2..] == scores[1..];
    }
    ScoredEntriesCons(results[0], results[1..]);
    assert [results[0]] + results[1..] == results;
    assert [scores[0]] + scores[1..] == scores;
  }

  lemma ExampleMoments(scores: seq<Scored>)
    requires scores == [Scored("a", 90.0), Scored("b", 92.0), Scored("c", 88.0), Scored("d", 40.0)]
    ensures Sum(scores) == 310.0 && SumSq(scores, 77.5) == 1883.0
  {
    assert Sum(scores[3..]) == 40.0;
    assert Sum(scores[2..]) == 128.0;
    assert Sum(scores[1..]) == 220.0;
    assert Sq(90.0 - 77.5) == 156.25;
    assert Sq(92.0 - 77.5) == 210.25;
    assert Sq(88.0 - 77.5) == 110.25;
    assert Sq(40.0 - 77.5) == 1406.25;
    assert SumSq(scores[4..], 77.5) == 0.0;
    assert SumSq(scores[3..], 77.5) == 1406.25;
    assert SumSq(scores[2..], 77.5) == 1516.5;
    assert SumSq(scores[1..], 77.5) == 1726.75;
  }

  lemma ExampleOutliers(scores: seq<Scored>)
    requires scores == [Scored("a", 90.0), Scored("b", 92.0), Scored("c", 88.0), Scored("d", 40.0)]
    ensures Outliers(scores, 77.5, 470.75) == [Scored("d", 40.0)]
  {
    assert Outliers(scores[4..], 77.5, 470.75) == [];
    assert Outliers(scores[3..], 77.5, 470.75) == [Scored("d", 40.0)];
    assert Outliers(scores[2..], 77.5, 470.75) == [Scored("d", 40.0)];
    assert Outliers(scores[1..], 77.5, 470.75) == [Scored("d", 40.0)];
  }

  /** Scores 90, 92, 88 and 40, plus a result without a score: mean 77.5,
      variance 470.75, and only the 40 deviates by more than 1.5 standard
      deviations. */
  lemma OutlierExample()
    ensures var results := [("a", StandardResult(Some(90.0), None)),
                            ("b", StandardResult(Some(92.0), None)),
                            ("c", StandardResult(Some(88.0), None)),
                            ("d", StandardResult(Some(40.0), None)),
                            ("e", StandardResult(None, None))];
            var cmp := CompareResults(results);
            cmp.Some? && cmp.value.statistics.avg == 77.5 &&
            cmp.value.statistics.variance == 470.75 &&
            cmp.value.outliers == [Scored("d", 40.0)]
  {
    var results := [("a", StandardResult(Some(90.0), None)),
                    ("b", StandardResult(Some(92.0), None)),
                    ("c", StandardResult(Some(88.0), None)),
                    ("d", StandardResult(Some(40.0), None)),
                    ("e", StandardResult(None, None))];
    var scores := [Scored("a", 90.0), Scored("b", 92.0), Scored("c", 88.0), Scored("d", 40.0)];
    ExampleScores(results, scores);
    ExampleMoments(scores);
    ExampleOutliers(scores);
  }
}
