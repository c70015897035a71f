/** The score analyser of the evaluator: from the stored ratings it derives the
    mean, the per-tier distribution, the pass flag and the executive summary.
    Averages and percentages are exact reals; the summary is its branch tag and
    the two trailing clauses rather than the literal sentences. */
module ScoreAnalysis {

  datatype Option<T> = None | Some(value: T)

  /** The highest tier of the quality scale; the mean is also reported as a
      percentage of it. */
  const MaxTier: int := 5

  /** The five base narratives of the executive summary, in the order in which
      their conditions are tried. */
  datatype Narrative =
    | Excellent               // passes and at least 80% of ratings in tiers 4-5
    | Strong                  // passes and at least 60% of ratings in tiers 4-5
    | ModeratelyFunctional    // mean at least 3 and at most 30% in tiers 1-2
    | SignificantLimitations  // at least 50% in tiers 1-2
    | Mixed                   // none of the above

  /** A summary is a base narrative followed by the threshold clause ("meets"
      when `meetsThreshold`, "falls below" otherwise) and, when `moderateNote`,
      the clause about moderate performance. */
  datatype Summary = Summary(base: Narrative, meetsThreshold: bool, moderateNote: bool)

  /** The report returned to the dashboard.  `distribution` and
      `distributionPercent` are keyed by the tiers 1..5. */
  datatype Report = Report(
    scores: seq<int>,
    average: real,
    percentage: real,
    passes: bool,
    distribution: map<int, nat>,
    distributionPercent: map<int, real>,
    summary: Summary,
    totalImages: nat)

  predicate IsTier(t: int) {
    1 <= t <= MaxTier
  }

  /** Every score is one of the tier values of the quality scale. */
  predicate AllTiers(s: seq<int>) {
    forall i :: 0 <= i < |s| ==> IsTier(s[i])
  }

  function Sum(s: seq<int>): int {
    if s == [] then 0 else Sum(s[..|s| - 1]) + s[|s| - 1]
  }

  /** The number of scores equal to `v` (Python's `scores.count(v)`). */
  function Count(s: seq<int>, v: int): nat {
    if s == [] then 0 else Count(s[..|s| - 1], v) + (if s[|s| - 1] == v then 1 else 0)
  }

  /** `count / total * 100`, or 0 when there is nothing to divide by. */
  function Percent(count: nat, total: nat): real {
    if total > 0 then (count as real / total as real) * 100.0 else 0.0
  }

  /** The ordered if/elif chain that picks the base narrative: the first
      condition that holds wins. */
  function Classify(passes: bool, average: real, high: real, low: real): (r: Narrative)
    ensures r == Excellent <==> passes && high >= 80.0
    ensures r in {Excellent, Strong} <==> passes && high >= 60.0
    ensures r == ModeratelyFunctional ==> average >= 3.0 && low <= 30.0
    ensures r == SignificantLimitations ==> low >= 50.0 && !(average >= 3.0 && low <= 30.0)
    ensures r == Mixed ==> low < 50.0 && !(average >= 3.0 && low <= 30.0)
  {
    if passes && high >= 80.0 then Excellent
    else if passes && high >= 60.0 then Strong
    else if average >= 3.0 && low <= 30.0 then ModeratelyFunctional
    else if low >= 50.0 then SignificantLimitations
    else Mixed
  }

  /** The mean of a non-empty list of scores. */
  function Mean(scores: seq<int>): real
    requires scores != []
  {
    Sum(scores) as real / |scores| as real
  }

  /** Tier i |-> number of scores equal to i, for the tiers 1..5. */
  function Distribution(scores: seq<int>): (d: map<int, nat>)
    ensures forall i :: i in d <==> 1 <= i <= MaxTier
  {
    map i | 1 <= i <= MaxTier :: Count(scores, i)
  }

  /** Tier i |-> its count as a percentage of `total`. */
  function DistributionPercent(distribution: map<int, nat>, total: nat): (p: map<int, real>)
    ensures p.Keys == distribution.Keys
  {
    map i | i in distribution :: Percent(distribution[i], total)
  }

  /** The base narrative and the two trailing clauses, from the pass flag, the
      mean and the tier percentages. */
  function Summarize(passes: bool, average: real, distributionPercent: map<int, real>): Summary
    requires forall i :: 1 <= i <= MaxTier ==> i in distributionPercent
  {
    var high := distributionPercent[4] + distributionPercent[5];
    var low := distributionPercent[1] + distributionPercent[2];
    Summary(Classify(passes, average, high, low), passes, distributionPercent[3] >= 50.0)
  }

  /** The analysis of the stored ratings: no report when there are none,
      otherwise the report of the dashboard. */
  function Analyze(scores: seq<int>, totalImages: nat): (r: Option<Report>)
    ensures r.None? <==> scores == []
    ensures r.Some? ==> r.value.scores == scores && r.value.totalImages == totalImages
  {
    if scores == [] then None
    else
      var average := Mean(scores);
      var percentage := (average / MaxTier as real) * 100.0;
      var distribution := Distribution(scores);
      var distributionPercent := DistributionPercent(distribution, |scores|);
      var passes := average >= 4.0;
      var summary := Summarize(passes, average, distributionPercent);
      Some(Report(scores, average, percentage, passes, distribution, distributionPercent, summary, totalImages))
  }

  /** The summary decided on the integer counts alone: every threshold on a
      mean or a percentage is cross-multiplied by the number of scores. */
  function ReferenceSummary(s: seq<int>): Summary {
    var n := |s|;
    var high := Count(s, 4) + Count(s, 5);
    var low := Count(s, 1) + Count(s, 2);
    var passes := 4 * n <= Sum(s);
    var base :=
      if passes && 5 * high >= 4 * n then Excellent
      else if passes && 5 * high >= 3 * n then Strong
      else if 3 * n <= Sum(s) && 10 * low <= 3 * n then ModeratelyFunctional
      else if 2 * low >= n then SignificantLimitations
      else Mixed;
    Summary(base, passes, 2 * Count(s, 3) >= n)
  }

  // ---------------------------------------------------------------------------
  // Counting

  lemma {:induction false} CountIsMultiplicity(s: seq<int>, v: int)
    ensures Count(s, v) == multiset(s)[v]
  {
    if s != [] {
      CountIsMultiplicity(s[..|s| - 1], v);
      assert s == s[..|s| - 1] + [s[|s| - 1]];
    }
  }

  /** When every score is a tier value, the five tier counts cover all scores. */
  lemma {:induction false} CountsCoverScores(s: seq<int>)
    requires AllTiers(s)
    ensures Count(s, 1) + Count(s, 2) + Count(s, 3) + Count(s, 4) + Count(s, 5) == |s|
  {
    if s != [] {
      CountsCoverScores(s[..|s| - 1]);
    }
  }

  /** When every score is a tier value, the sum of the scores is the sum over the
      tiers of tier value times tier count. */
  lemma {:induction false} SumByTier(s: seq<int>)
    requires AllTiers(s)
    ensures Sum(s) == Count(s, 1) + 2 * Count(s, 2) + 3 * Count(s, 3) + 4 * Count(s, 4) + 5 * Count(s, 5)
  {
    if s != [] {
      SumByTier(s[..|s| - 1]);
    }
  }

  // ---------------------------------------------------------------------------
  // Real arithmetic bridged to integers

  lemma QuotientBounds(x: real, n: real, t: real)
    requires n > 0.0
    ensures x / n >= t <==> x >= t * n
    ensures x / n <= t <==> x <= t * n
  {
    var q := x / n;
    assert q * n == x;
    if q >= t { assert q * n >= t * n; }
    if x >= t * n { assert q * n >= t * n; }
    if q <= t { assert q * n <= t * n; }
    if x <= t * n { assert q * n <= t * n; }
  }

  lemma PercentSumBounds(a: nat, b: nat, n: nat, t: int)
    requires n > 0
    ensures Percent(a, n) + Percent(b, n) >= t as real <==> 100 * (a + b) >= t * n
    ensures Percent(a, n) + Percent(b, n) <= t as real <==> 100 * (a + b) <= t * n
  {
    var nr := n as real;
    assert Percent(a, n) + Percent(b, n) == ((a + b) as real * 100.0) / nr;
    QuotientBounds((a + b) as real * 100.0, nr, t as real);
  }

  // ---------------------------------------------------------------------------
  // Properties of the report

  /** The mean times the number of scores is their sum, and the mean is at
      least t exactly when the sum is at least t times the number of scores. */
  lemma MeanBounds(scores: seq<int>, t: int)
    requires scores != []
    ensures Mean(scores) * |scores| as real == Sum(scores) as real
    ensures Mean(scores) >= t as real <==> t * |scores| <= Sum(scores)
  {
    QuotientBounds(Sum(scores) as real, |scores| as real, t as real);
  }

  /** The report carries the mean of the scores; its percentage is that mean
      scaled to 100 for a maximum of 5; the pass flag holds exactly when the
      mean is at least 4, which is when the scores sum to at least 4 per
      score, and when the percentage is at least 80. */
  lemma MeanAndPass(scores: seq<int>, totalImages: nat)
    requires scores != []
    ensures var r := Analyze(scores, totalImages).value;
      && r.average == Mean(scores)
      && r.percentage == r.average * 20.0
      && (r.passes <==> 4 * |scores| <= Sum(scores))
      && (r.passes <==> r.percentage >= 80.0)
  {
    MeanBounds(scores, 4);
  }

  /** Percentages of the same total add like their counts. */
  lemma PercentAdds(a: nat, b: nat, n: nat)
    requires n > 0
    ensures Percent(a, n) + Percent(b, n) == Percent(a + b, n)
  {
    var nr := n as real;
    var qa, qb, q := a as real / nr, b as real / nr, (a + b) as real / nr;
    assert qa * nr == a as real && qb * nr == b as real && q * nr == (a + b) as real;
    assert (q - qa - qb) * nr == 0.0;
  }

  /** Five counts that make up the total have percentages that add up to 100. */
  lemma PercentsAddUp(c1: nat, c2: nat, c3: nat, c4: nat, c5: nat, n: nat)
    requires n > 0 && c1 + c2 + c3 + c4 + c5 == n
    ensures Percent(c1, n) + Percent(c2, n) + Percent(c3, n) + Percent(c4, n) + Percent(c5, n) == 100.0
  {
    PercentAdds(c1, c2, n);
    PercentAdds(c1 + c2, c3, n);
    PercentAdds(c1 + c2 + c3, c4, n);
    PercentAdds(c1 + c2 + c3 + c4, c5, n);
    PercentOfAll(n);
  }

  lemma PercentOfAll(n: nat)
    requires n > 0
    ensures Percent(n, n) == 100.0
  {
  }

  /** `distribution[i]` is the number of occurrences of tier i among the scores
      and `distributionPercent[i]` is that number's percentage of all scores. */
  lemma DistributionIsMultiplicity(scores: seq<int>, totalImages: nat, i: int)
    requires scores != [] && 1 <= i <= 5
    ensures var r := Analyze(scores, totalImages).value;
      && i in r.distribution && i in r.distributionPercent
      && r.distribution[i] == multiset(scores)[i]
      && r.distributionPercent[i] == Percent(r.distribution[i], |scores|)
  {
    CountIsMultiplicity(scores, i);
  }

  /** With every score a tier value, the counts sum to the number of scores and
      the percentages to 100. */
  lemma DistributionTotals(scores: seq<int>, totalImages: nat)
    requires scores != [] && AllTiers(scores)
    ensures var r := Analyze(scores, totalImages).value;
      && r.distribution[1] + r.distribution[2] + r.distribution[3] + r.distribution[4] + r.distribution[5] == |scores|
      && r.distributionPercent[1] + r.distributionPercent[2] + r.distributionPercent[3]
         + r.distributionPercent[4] + r.distributionPercent[5] == 100.0
  {
    CountsCoverScores(scores);
    PercentsAddUp(Count(scores, 1), Count(scores, 2), Count(scores, 3), Count(scores, 4), Count(scores, 5), |scores|);
  }

  /** The summary of the report is the one decided on the integer counts: the
      real thresholds on means and percentages select the same branch and the
      same trailing clauses as their cross-multiplied integer forms. */
  lemma SummaryMatchesReference(scores: seq<int>, totalImages: nat)
    requires scores != []
    ensures Analyze(scores, totalImages).value.summary == ReferenceSummary(scores)
  {
    var n := |scores|;
    MeanBounds(scores, 4);
    MeanBounds(scores, 3);
    var c1, c2, c3, c4, c5 := Count(scores, 1), Count(scores, 2), Count(scores, 3), Count(scores, 4), Count(scores, 5);
    PercentSumBounds(c4, c5, n, 80);
    PercentSumBounds(c4, c5, n, 60);
    PercentSumBounds(c1, c2, n, 30);
    PercentSumBounds(c1, c2, n, 50);
    PercentSumBounds(c3, 0, n, 50);
    assert Percent(0, n) == 0.0;
  }

  /** On the integer counts: a set of tier ratings whose sum reaches 4 per
      score is classified as excellent, strong or moderately functional. */
  lemma PassingReferenceNarratives(scores: seq<int>)
    requires scores != [] && AllTiers(scores)
    ensures 4 * |scores| <= Sum(scores) ==>
      ReferenceSummary(scores).base in {Excellent, Strong, ModeratelyFunctional}
  {
    SumByTier(scores);
    CountsCoverScores(scores);
  }

  /** A passing set of tier ratings always gets one of the three favourable
      narratives; the "significant limitations" and "mixed results" narratives
      are reached only by failing sets.  Conversely, the two best narratives
      are reached only by passing sets. */
  lemma PassingNarratives(scores: seq<int>, totalImages: nat)
    requires scores != [] && AllTiers(scores)
    ensures var r := Analyze(scores, totalImages).value;
      && (r.passes ==> r.summary.base in {Excellent, Strong, ModeratelyFunctional})
      && (r.summary.base in {Excellent, Strong} ==> r.passes)
      && r.summary.meetsThreshold == r.passes
  {
    SummaryMatchesReference(scores, totalImages);
    MeanAndPass(scores, totalImages);
    PassingReferenceNarratives(scores);
  }

  /** The order of the stored ratings does not matter: two score lists with the
      same multiset of tier values get the same report apart from the raw list. */
  lemma OrderIrrelevant(s: seq<int>, t: seq<int>, totalImages: nat)
    requires s != [] && AllTiers(s) && multiset(s) == multiset(t)
    ensures var a, b := Analyze(s, totalImages).value, Analyze(t, totalImages).value;
      a.(scores := t) == b
  {
    assert t != [] by { assert |t| == |multiset(t)| == |multiset(s)| == |s|; }
    assert AllTiers(t) by {
      forall i | 0 <= i < |t| ensures IsTier(t[i]) {
        assert t[i] in multiset(t);
        assert t[i] in multiset(s);
        var j :| 0 <= j < |s| && s[j] == t[i];
      }
    }
    assert |t| == |s| by { assert |multiset(t)| == |multiset(s)|; }
    forall v ensures Count(s, v) == Count(t, v) {
      CountIsMultiplicity(s, v);
      CountIsMultiplicity(t, v);
    }
    SumByTier(s);
    SumByTier(t);
  }

  // ---------------------------------------------------------------------------
  // Worked cases

  /** Sum and count of a list extended by one score. */
  lemma Snoc(s: seq<int>, x: int, v: int)
    ensures Sum(s + [x]) == Sum(s) + x
    ensures Count(s + [x], v) == Count(s, v) + (if x == v then 1 else 0)
  {
    assert (s + [x])[..|s|] == s;
  }

  /** Sum and counts of a five-score list, spelled out per position. */
  lemma Tally5(a: int, b: int, c: int, d: int, e: int, v: int)
    ensures Sum([a, b, c, d, e]) == a + b + c + d + e
    ensures Count([a, b, c, d, e], v)
         == (if a == v then 1 else 0) + (if b == v then 1 else 0) + (if c == v then 1 else 0)
          + (if d == v then 1 else 0) + (if e == v then 1 else 0)
  {
    Snoc([], a, v);
    assert [] + [a] == [a];
    Snoc([a], b, v);
    assert [a] + [b] == [a, b];
    Snoc([a, b], c, v);
    assert [a, b] + [c] == [a, b, c];
    Snoc([a, b, c], d, v);
    assert [a, b, c] + [d] == [a, b, c, d];
    Snoc([a, b, c, d], e, v);
    assert [a, b, c, d] + [e] == [a, b, c, d, e];
  }

  /** Four fives and a four: mean 4.8 (96%), 80% fives, the excellent branch,
      the "meets threshold" clause and no moderate-performance clause. */
  lemma ExcellentCase()
    ensures var r := Analyze([5, 5, 5, 5, 4], 5).value;
      && r.average == 4.8 && r.percentage == 96.0 && r.passes
      && r.distribution == map[1 := 0, 2 := 0, 3 := 0, 4 := 1, 5 := 4]
      && r.summary == Summary(Excellent, true, false)
  {
    var s := [5, 5, 5, 5, 4];
    Tally5(5, 5, 5, 5, 4, 1); Tally5(5, 5, 5, 5, 4, 2); Tally5(5, 5, 5, 5, 4, 3);
    Tally5(5, 5, 5, 5, 4, 4); Tally5(5, 5, 5, 5, 4, 5);
    assert Sum(s) == 24 && |s| == 5;
    assert Mean(s) == 4.8;
    assert Distribution(s) == map[1 := 0, 2 := 0, 3 := 0, 4 := 1, 5 := 4];
    assert ReferenceSummary(s) == Summary(Excellent, true, false);
    SummaryMatchesReference(s, 5);
  }

  /** Two ones, two twos and a three: mean 1.8, 80% in tiers 1-2, the
      "significant limitations" branch and the "falls below" clause. */
  lemma LimitedCase()
    ensures var r := Analyze([1, 1, 2, 2, 3], 5).value;
      && r.average == 1.8 && !r.passes
      && r.summary == Summary(SignificantLimitations, false, false)
  {
    var s := [1, 1, 2, 2, 3];
    Tally5(1, 1, 2, 2, 3, 1); Tally5(1, 1, 2, 2, 3, 2); Tally5(1, 1, 2, 2, 3, 3);
    Tally5(1, 1, 2, 2, 3, 4); Tally5(1, 1, 2, 2, 3, 5);
    assert Sum(s) == 9 && |s| == 5;
    assert ReferenceSummary(s) == Summary(SignificantLimitations, false, false);
    SummaryMatchesReference(s, 5);
  }

  /** Five threes: mean 3.0, no ratings in tiers 1-2, so the moderately
      functional branch fires, and 100% in tier 3 adds the moderate clause. */
  lemma ModerateCase()
    ensures var r := Analyze([3, 3, 3, 3, 3], 5).value;
      && r.average == 3.0 && !r.passes
      && r.summary == Summary(ModeratelyFunctional, false, true)
  {
    var s := [3, 3, 3, 3, 3];
    Tally5(3, 3, 3, 3, 3, 1); Tally5(3, 3, 3, 3, 3, 2); Tally5(3, 3, 3, 3, 3, 3);
    Tally5(3, 3, 3, 3, 3, 4); Tally5(3, 3, 3, 3, 3, 5);
    assert Sum(s) == 15 && |s| == 5;
    assert ReferenceSummary(s) == Summary(ModeratelyFunctional, false, true);
    SummaryMatchesReference(s, 5);
  }
}
