/** The rating flow of the evaluator page: one reviewer steps through the fixed
    catalogue of image pairs, stores a tier for each, submits on the last one,
    opens the dashboard and may start over.  Every user action is a method that
    takes effect only when its button is on the current page and enabled;
    otherwise nothing changes. */
module RatingFlow {
  import opened ScoreAnalysis

  /** The number of image pairs in the catalogue. */
  const ImageCount: nat := 5

  /** A value of the quality scale, the only thing a rating button stores. */
  type Tier = t: int | IsTier(t) witness 1

  datatype ViewMode = SideBySide | OriginalOnly | ProcessedOnly

  /** The stored ratings of images 0..n-1 in ascending image order.  The flow
      stores image k's first rating before any rating of a later image, so this
      is also the insertion order in which the dictionary lists its values. */
  function ScoresInOrder(ratings: map<nat, int>, n: nat): (r: seq<int>)
    ensures |r| <= n
    ensures forall j :: 0 <= j < |r| ==> r[j] in ratings.Values
  {
    if n == 0 then []
    else ScoresInOrder(ratings, n - 1) + (if n - 1 in ratings then [ratings[n - 1]] else [])
  }

  /** When images 0..n-1 are all rated, the list holds exactly their ratings. */
  lemma {:induction false} ScoresInOrderComplete(ratings: map<nat, int>, n: nat)
    requires forall k: nat :: k < n ==> k in ratings
    ensures |ScoresInOrder(ratings, n)| == n
    ensures forall k :: 0 <= k < n ==> ScoresInOrder(ratings, n)[k] == ratings[k]
  {
    if n > 0 {
      ScoresInOrderComplete(ratings, n - 1);
    }
  }

  /** Only stored tier values ever reach the list. */
  lemma {:induction false} ScoresInOrderTiers(ratings: map<nat, int>, n: nat)
    requires forall k :: k in ratings ==> IsTier(ratings[k])
    ensures AllTiers(ScoresInOrder(ratings, n))
  {
    if n > 0 {
      ScoresInOrderTiers(ratings, n - 1);
    }
  }

  class Session {
    var currentImage: nat
    var ratings: map<nat, int>
    var showAnalysis: bool
    var evaluationComplete: bool
    var viewMode: ViewMode
    var celebrationShown: bool

    /** The session invariant: the index is in range, every image before it is
        rated and none after it, every stored rating is a tier value, the
        evaluation is complete only on the last image once it is rated, and the
        celebration marker is set exactly while the evaluation is complete. */
    ghost predicate Valid()
      reads this
    {
      && currentImage < ImageCount
      && (forall k :: k in ratings ==> k <= currentImage && IsTier(ratings[k]))
      && (forall k: nat :: k < currentImage ==> k in ratings)
      && (evaluationComplete ==> currentImage == ImageCount - 1 && currentImage in ratings)
      && (showAnalysis ==> evaluationComplete)
      && (celebrationShown <==> evaluationComplete)
    }

    /** The values the session starts with and returns to on reset. */
    predicate Initial()
      reads this
    {
      && currentImage == 0
      && ratings == map[]
      && !showAnalysis
      && !evaluationComplete
      && viewMode == SideBySide
      && !celebrationShown
    }

    /** Every image of the catalogue has a stored rating. */
    predicate AllRated()
      reads this
    {
      forall k: nat :: k < ImageCount ==> k in ratings
    }

    /** The rating of image k as the page reads it: 0 when not yet rated. */
    function RatingOf(k: nat): int
      reads this
    {
      if k in ratings then ratings[k] else 0
    }

    /** The page shown: rating, thank-you (after submit) or dashboard. */
    predicate OnRatingPage()
      reads this
    {
      !showAnalysis && !evaluationComplete
    }

    predicate OnThankYouPage()
      reads this
    {
      !showAnalysis && evaluationComplete
    }

    /** The scores handed to the analyser, in the order they were stored. */
    function Scores(): seq<int>
      reads this
    {
      ScoresInOrder(ratings, ImageCount)
    }

    /** A complete evaluation has a rating for every image. */
    lemma CompleteMeansAllRated()
      requires Valid() && evaluationComplete
      ensures AllRated()
    {
    }

    /** The session state as first initialised. */
    constructor ()
      ensures Valid() && Initial()
    {
      currentImage := 0;
      ratings := map[];
      showAnalysis := false;
      evaluationComplete := false;
      viewMode := SideBySide;
      celebrationShown := false;
    }

    /** A rating button: stores the tier for the current image and changes
        nothing else. */
    method Rate(tier: Tier) returns (taken: bool)
      requires Valid()
      modifies this
      ensures Valid()
      ensures taken == old(OnRatingPage())
      ensures ratings == if taken then old(ratings)[old(currentImage) := tier] else old(ratings)
      ensures currentImage == old(currentImage) && viewMode == old(viewMode)
      ensures showAnalysis == old(showAnalysis) && evaluationComplete == old(evaluationComplete)
      ensures celebrationShown == old(celebrationShown)
    {
      taken := OnRatingPage();
      if taken {
        ratings := ratings[currentImage := tier];
      }
    }

    /** "Next": shown below the last image, enabled once the current image is
        rated; moves to the following image. */
    method Next() returns (taken: bool)
      requires Valid()
      modifies this
      ensures Valid()
      ensures taken == (old(OnRatingPage()) && old(currentImage) < ImageCount - 1 && old(RatingOf(currentImage)) != 0)
      ensures currentImage == if taken then old(currentImage) + 1 else old(currentImage)
      ensures ratings == old(ratings) && viewMode == old(viewMode)
      ensures showAnalysis == old(showAnalysis) && evaluationComplete == old(evaluationComplete)
      ensures celebrationShown == old(celebrationShown)
    {
      taken := OnRatingPage() && currentImage < ImageCount - 1 && RatingOf(currentImage) != 0;
      if taken {
        currentImage := currentImage + 1;
      }
    }

    /** "Submit": shown on the last image, enabled once it is rated; marks the
        evaluation complete, at which point every image is rated.  The page
        rendered next is the thank-you page, whose first showing sets the
        celebration marker and celebrates. */
    method Submit() returns (taken: bool)
      requires Valid()
      modifies this
      ensures Valid()
      ensures taken == (old(OnRatingPage()) && old(currentImage) == ImageCount - 1 && old(RatingOf(currentImage)) != 0)
      ensures evaluationComplete == (old(evaluationComplete) || taken)
      ensures taken ==> AllRated()
      ensures taken ==> !old(celebrationShown)
      ensures celebrationShown == (old(celebrationShown) || taken)
      ensures currentImage == old(currentImage) && ratings == old(ratings) && viewMode == old(viewMode)
      ensures showAnalysis == old(showAnalysis)
    {
      taken := OnRatingPage() && currentImage == ImageCount - 1 && RatingOf(currentImage) != 0;
      if taken {
        evaluationComplete := true;
        celebrationShown := true;
      }
    }

    /** A later rendering of the thank-you page: it celebrates only when the
        marker is unset, which never happens once Submit has set it. */
    method Celebrate() returns (first: bool)
      requires Valid()
      ensures first == (OnThankYouPage() && !celebrationShown)
      ensures !first
    {
      first := OnThankYouPage() && !celebrationShown;
    }

    /** "View Analysis" on the thank-you page: switches to the dashboard. */
    method ViewAnalysis() returns (taken: bool)
      requires Valid()
      modifies this
      ensures Valid()
      ensures taken == old(OnThankYouPage())
      ensures showAnalysis == (old(showAnalysis) || taken)
      ensures currentImage == old(currentImage) && ratings == old(ratings) && viewMode == old(viewMode)
      ensures evaluationComplete == old(evaluationComplete) && celebrationShown == old(celebrationShown)
    {
      taken := OnThankYouPage();
      if taken {
        showAnalysis := true;
      }
    }

    /** "Start New Evaluation", on the thank-you page and on the dashboard:
        every field back to its initial value and the celebration marker
        removed. */
    method Reset() returns (taken: bool)
      requires Valid()
      modifies this
      ensures Valid()
      ensures taken == old(evaluationComplete)
      ensures taken ==> Initial()
      ensures !taken ==> currentImage == old(currentImage) && ratings == old(ratings) && viewMode == old(viewMode)
      ensures !taken ==> showAnalysis == old(showAnalysis) && evaluationComplete == old(evaluationComplete)
      ensures !taken ==> celebrationShown == old(celebrationShown)
    {
      taken := evaluationComplete;
      if taken {
        currentImage := 0;
        ratings := map[];
        showAnalysis := false;
        evaluationComplete := false;
        viewMode := SideBySide;
        celebrationShown := false;
      }
    }

    /** The report the dashboard renders.  Because the dashboard is only shown
        after a complete evaluation, the analyser always has one score per
        image and returns a report, whose tier counts cover every image. */
    method Dashboard() returns (report: Report)
      requires Valid() && showAnalysis
      ensures Analyze(Scores(), ImageCount) == Some(report)
      ensures |report.scores| == ImageCount
      ensures forall k :: 0 <= k < ImageCount ==> report.scores[k] == ratings[k]
      ensures report.distribution[1] + report.distribution[2] + report.distribution[3]
              + report.distribution[4] + report.distribution[5] == ImageCount
    {
      CompleteMeansAllRated();
      ScoresInOrderComplete(ratings, ImageCount);
      ScoresInOrderTiers(ratings, ImageCount);
      DistributionTotals(Scores(), ImageCount);
      report := Analyze(Scores(), ImageCount).value;
    }
  }

  /** The rating pages of a whole evaluation, from a fresh session: rate image
      k with tiers[k], press Next after each image but the last and Submit
      after the last.  The session ends on the thank-you page holding exactly
      these tiers. */
  method RateAll(session: Session, tiers: seq<Tier>)
    requires |tiers| == ImageCount
    requires session.Valid() && session.Initial()
    modifies session
    ensures session.Valid() && session.OnThankYouPage()
    ensures forall k: nat :: k < ImageCount ==> k in session.ratings && session.ratings[k] == tiers[k]
  {
    var i := 0;
    while i < ImageCount
      invariant 0 <= i <= ImageCount
      invariant session.Valid() && !session.showAnalysis
      invariant session.evaluationComplete <==> i == ImageCount
      invariant i < ImageCount ==> session.currentImage == i
      invariant forall k: nat :: k in session.ratings <==> k < i
      invariant forall k: nat :: k < i ==> session.ratings[k] == tiers[k]
    {
      var rated := session.Rate(tiers[i]);
      assert rated && session.currentImage == i;
      var moved;
      if i < ImageCount - 1 {
        moved := session.Next();
      } else {
        moved := session.Submit();
      }
      assert moved;
      i := i + 1;
    }
  }

  /** A whole evaluation from a fresh session: the rating pages as in RateAll,
      then "View Analysis".  The dashboard reports exactly these tiers. */
  method Evaluate(tiers: seq<Tier>) returns (report: Report)
    requires |tiers| == ImageCount
    ensures Analyze(tiers, ImageCount) == Some(report)
  {
    var session := new Session();
    RateAll(session, tiers);
    var shown := session.ViewAnalysis();
    report := session.Dashboard();
    ScoresInOrderComplete(session.ratings, ImageCount);
    assert session.Scores() == tiers by {
      forall k | 0 <= k < ImageCount ensures session.Scores()[k] == tiers[k] {
        assert session.ratings[k] == tiers[k];
      }
    }
  }
}
