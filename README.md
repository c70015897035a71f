# Background-removal evaluator: score analyser and rating flow

This project models the two parts of the Streamlit evaluator app (`app.py`) that have behaviour worth stating.

- **The score analyser** (`calculate_analysis`), module `ScoreAnalysis`. It turns the stored 1–5 ratings into a report: the mean, the mean as a percentage of 5, a count per tier and its percentage, a pass flag, and an executive summary. The summary is chosen from five narratives by an ordered if/elif chain and is followed by two trailing clauses. `Analyze` returns `None` when there are no ratings. The summary is modelled as the branch tag (`Narrative`) plus two booleans: whether the "meets threshold" clause is used instead of "falls below", and whether the moderate-performance clause is appended. Means and percentages are exact `real`s. `ReferenceSummary` is an independent definition that decides the same branch on integer counts, with every threshold cross-multiplied by the number of scores.
- **The rating flow** (session state and the page logic), module `RatingFlow`. It is a class `Session` with the fields the app keeps in its session state: `current_image`, `ratings`, `show_analysis`, `evaluation_complete`, `view_mode` and the `celebration_shown` marker. It has one method per user action. Each action takes effect only when its button is shown on the current page and enabled. Otherwise the method leaves the state unchanged and returns `false`. `Valid()` holds in every reachable state. It says the index is in range, every earlier image is rated, no later image is, every stored rating is a tier value, the evaluation is complete only once the last image is rated, and the celebration marker is set exactly while the evaluation is complete. As a consequence, whenever the dashboard is shown the analyser gets one score per image and returns a report.

The app inserts ratings into its dictionary in ascending image order, because only the current image can be rated and there is no going back. So `list(ratings.values())` is the ratings in image order, which is what `ScoresInOrder` produces. `OrderIrrelevant` shows that the report does not depend on that order anyway.

## Model

| member | source | states |
|---|---|---|
| ScoreAnalysis.Analyze | app.py:391-437 | no report exactly when no rating is stored (no division by zero); a report carries the scores it was given and the catalogue size |
| ScoreAnalysis.Classify | app.py:410-419 | first match wins: excellent exactly when passing with at least 80% in tiers 4-5; excellent or strong exactly when passing with at least 60%; "moderately functional" only with mean at least 3 and at most 30% in tiers 1-2; "significant limitations" only when that fails and at least 50% are in tiers 1-2; "mixed" only when both fail |
| ScoreAnalysis.MeanBounds | app.py:397 | the mean times the number of scores is their sum; the mean is at least t exactly when the sum is at least t per score |
| ScoreAnalysis.MeanAndPass | app.py:396-408 | the report's average is the mean, its percentage is 20 times the mean, and `passes` holds exactly when the sum is at least 4 per score, and exactly when the percentage is at least 80 |
| ScoreAnalysis.CountIsMultiplicity | app.py:401 | the count of a value equals its multiplicity in the multiset of scores |
| ScoreAnalysis.CountsCoverScores | app.py:401-403 | when all scores are tier values, the five tier counts add up to the number of scores |
| ScoreAnalysis.SumByTier | app.py:397-401 | when all scores are tier values, their sum is the sum of tier value times tier count |
| ScoreAnalysis.PercentsAddUp | app.py:403 | five counts that make up the total have percentages summing to 100 |
| ScoreAnalysis.DistributionIsMultiplicity | app.py:400-403 | `distribution[i]` is the number of scores equal to i and `distribution_percent[i]` its percentage of all scores, for each tier i |
| ScoreAnalysis.DistributionTotals | app.py:400-403 | with tier-valued scores, the distribution sums to the number of scores and the percentages to 100 |
| ScoreAnalysis.SummaryMatchesReference | app.py:405-426 | the first-match chain on real thresholds (80, 60, 30, 50 and means 4 and 3) and both trailing clauses choose the same as the integer cross-multiplied reference |
| ScoreAnalysis.PassingReferenceNarratives | app.py:408-419 | on the integer counts, tier ratings that sum to at least 4 per score always get the excellent, strong or moderately-functional branch |
| ScoreAnalysis.PassingNarratives | app.py:408-422 | a passing set of tier ratings gets only the excellent, strong or moderately-functional narrative, never "significant limitations" or "mixed"; the first two narratives imply passing; the threshold clause is "meets" exactly when passing |
| ScoreAnalysis.OrderIrrelevant | app.py:396 | two rating lists with the same multiset of tier values give the same report apart from the raw list |
| ScoreAnalysis.ExcellentCase | app.py:391-437 | [5,5,5,5,4]: mean 4.8, 96%, passes, counts {4:1, 5:4}, excellent narrative with "meets" and no moderate clause |
| ScoreAnalysis.LimitedCase | app.py:391-437 | [1,1,2,2,3]: mean 1.8, fails, "significant limitations" with "falls below" |
| ScoreAnalysis.ModerateCase | app.py:391-437 | [3,3,3,3,3]: mean 3.0, fails, moderately-functional narrative and the moderate-performance clause |
| RatingFlow.ScoresInOrder | app.py:396 | the list of stored ratings has at most one entry per image and holds only stored ratings |
| RatingFlow.ScoresInOrderComplete | app.py:396 | when every image is rated, the score list has one entry per image, the rating of image k at position k |
| RatingFlow.ScoresInOrderTiers | app.py:618 | only stored tier values reach the score list |
| RatingFlow.Session.constructor | app.py:250-259 | the initial session: image 0, no ratings, both flags false, side-by-side view, no celebration marker, and the invariant holds |
| RatingFlow.Session.Rate | app.py:609-619 | on the rating page, stores the tier for the current image and changes no other rating, index or flag; elsewhere nothing changes |
| RatingFlow.Session.Next | app.py:625-634 | advances the index by one exactly when on the rating page, below the last image, with the current image rated; the index stays in range |
| RatingFlow.Session.Submit | app.py:635-642 | on the last image, once it is rated, marks the evaluation complete, and then every image is rated; the thank-you page it leads to sets the celebration marker, which was unset before |
| RatingFlow.Session.CompleteMeansAllRated | app.py:627-642 | a complete evaluation has a rating for every image |
| RatingFlow.Session.Celebrate | app.py:318-319 | a later rendering of the thank-you page celebrates only when the marker is unset, so never again after Submit |
| RatingFlow.Session.ViewAnalysis | app.py:539-542 | from the thank-you page, switches to the dashboard and changes nothing else |
| RatingFlow.Session.Reset | app.py:439-447 | "Start New Evaluation" is available exactly on the thank-you page and the dashboard; there it returns every field to its initial value and removes the marker, elsewhere nothing changes |
| RatingFlow.Session.Dashboard | app.py:450-452 | on the dashboard the analyser returns a report with one score per image, in image order, whose tier counts sum to the number of images |
| RatingFlow.RateAll | app.py:602-642 | from a fresh session, rating each image with the given tier and pressing Next, then Submit on the last, ends on the thank-you page with exactly those tiers stored |
| RatingFlow.Evaluate | app.py:450-452 | after those rating pages and "View Analysis", the dashboard's report is exactly the analysis of the given tiers |

## Left out

- Page rendering: CSS, headers, metrics, the progress bar, loading images from URLs, and the Plotly chart with its annotations. They call a UI framework and a charting library and hold no logic beyond formatting.
- The view-mode buttons (`create_view_mode_buttons`). They are UI plumbing. `viewMode` is kept only because initialisation and reset set it.
- `create_celebration_animation`: the balloons, the three one-second messages and `time.sleep` are left out. Only its one-shot `celebration_shown` marker is modelled. `Session.Submit` sets it, because the page rendered after Submit is the thank-you page. `Session.Celebrate` is any later rendering of that page, which never celebrates again.
- `custom_radio_buttons`: it depends on what the framework's radio widget returns, and the main flow does not use it.
- Floating point: averages and percentages are exact reals. Python computes them in IEEE doubles, whose rounding could differ exactly at a threshold boundary, for example a tier share that should be exactly 30 or 80 percent.
- The literal summary sentences: they are represented by the `Narrative` tag and the two clause flags.
- The item and tier catalogues: only their sizes (5 images) and the tier values 1–5 are used.
- Streamlit's rerun after each button press and the rendering of each page are not modelled. Each action method is one button press followed by the next rendering.
