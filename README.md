# Hostel food-wastage predictor: scorer and dashboard figures

This project models two parts of a React front end that estimates whether a
hostel mess will waste food at a given meal:

- `PredictionForm` (`prediction_form.dfy`) models the form's wastage-risk
  scorer (`calculatePrediction`). It reads the booking rate and six
  form fields (hostel, day, weekend flag, special event, weather and meal
  type). Each rule that fires adds a weight to a running score
  and records a factor. Then a bounded noise term is added, the score is
  clamped to [0.05, 0.95], and the scorer gives a Yes/No label, a confidence
  tier, and either the factor list or the sentinel "Normal operating
  conditions". The module also models how picking a day sets the weekend
  field, and when the submit button is disabled.
- `Dashboard` (`dashboard.dfy`) models the figures the overview page
  computes from its hostel list and weekly table: total capacity, the
  rounded average occupancy, the rounded average waste rate, each hostel's
  waste band (badge and bar colour), and each day's rounded three-meal
  average.

The scorer appears twice in the model:

- `CalculatePrediction` is the scorer as the code runs it. It takes one
  rule block after another and updates the score and the factor list in
  place. Each block is its own method.
- `Predict` is a definition by reference. The fired factors are the fixed
  rule `Catalog` filtered by the independent per-rule condition `Fires`,
  and the score is the sum of their weights.

`CalculatePrediction` is proved to return exactly `Predict`'s result. The
properties are lemmas about `Predict`.

Two points of the code shape the model:

- `isWeekend` is a text field like the others: it holds "Yes", "No" or ""
  (not chosen), and the weekend rule compares it with "Yes".
- The code does no input validation of its own. The scorer runs `parseInt`
  on whatever the form holds, and the only guard is the disabled submit
  button. The model therefore requires `totalStudents > 0` of the scorer
  (see "Left out") and models the button's predicate on its own.

## Model

| member | source | states |
|---|---|---|
| PredictionForm.CalculatePrediction | src/components/PredictionForm.tsx:38-107 | The step-by-step scorer (the booking rate, six rule blocks, noise, clamp, label, tier, factor list or sentinel) returns exactly the result of the reference definition `Predict`. |
| PredictionForm.BookingTier | src/components/PredictionForm.tsx:51-58 | After the booking if/else-if, the score and factors are those of the fired rules among {low booking, moderate booking}. |
| PredictionForm.WeekendEffects | src/components/PredictionForm.tsx:60-64 | Adds the weekend rule's weight and description exactly when it fires. The running state then matches the first three rules of the catalogue. |
| PredictionForm.SpecialEvents | src/components/PredictionForm.tsx:66-70 | Adds the special-event rule's weight and description exactly when it fires. The running state then matches the first four rules. |
| PredictionForm.WeatherImpact | src/components/PredictionForm.tsx:72-76 | Adds the bad-weather rule's weight and description exactly when the weather is Rainy or Stormy. The running state then matches the first five rules. |
| PredictionForm.MealTypePatterns | src/components/PredictionForm.tsx:78-85 | After the Dinner/Breakfast if/else-if, the running state matches the first seven rules. |
| PredictionForm.HostelPatterns | src/components/PredictionForm.tsx:87-91 | Adds the hostel-specific weight and description exactly for the flagged hostel. The running state then matches the whole catalogue. |
| PredictionForm.Clamp | src/components/PredictionForm.tsx:96 | The clamped value lies in [0.05, 0.95]. A score inside that range is unchanged, a score at or below 0.05 becomes 0.05, and one at or above 0.95 becomes 0.95. |
| PredictionForm.LabelOf | src/components/PredictionForm.tsx:99 | The label is Yes iff the probability is strictly above 0.5, so exactly 0.5 is No. |
| PredictionForm.ConfidenceOf | src/components/PredictionForm.tsx:100 | High iff p > 0.7 and Low iff p <= 0.4. The tier never contradicts the label: High comes only with Yes, and Yes never with Low. |
| PredictionForm.BookingRate | src/components/PredictionForm.tsx:45 | The rate times the student count is the booked count. A booked count between 0 and the student count gives a rate in [0, 1]. |
| PredictionForm.Fires | src/components/PredictionForm.tsx:52-91 | Each rule's firing condition. The second branch of each if/else-if fires only when the first cannot: moderate booking needs a rate of at least 0.6, and breakfast needs a meal type other than Dinner. |
| PredictionForm.Weight | src/components/PredictionForm.tsx:53-89 | Every rule raises the score, by between 0.05 and 0.4. |
| PredictionForm.Description | src/components/PredictionForm.tsx:54-90 | Every factor text is non-empty and differs from the sentinel "Normal operating conditions". |
| PredictionForm.Predict | src/components/PredictionForm.tsx:96-101 | The probability lies in [0.05, 0.95]. The label is Yes iff p > 0.5. The tier is High iff p > 0.7, Medium iff 0.4 < p <= 0.7, and Low iff p <= 0.4. Yes is never paired with Low. The factor list is never empty. |
| PredictionForm.Rank | src/components/PredictionForm.tsx:51-91 | Each rule has a position in the fixed evaluation order. |
| PredictionForm.Extend | src/components/PredictionForm.tsx:53-54 | Recording one more factor adds its weight to the score and appends its description to the list. |
| PredictionForm.PrefixStep | src/components/PredictionForm.tsx:51-91 | Evaluating one more rule adds its weight to the score when it fires and nothing otherwise. The factor count grows by one exactly when it fires. |
| PredictionForm.RecordRule | src/components/PredictionForm.tsx:52-54 | A firing rule's `+=` and `push` carry the running state from the first k rules to the first k+1. |
| PredictionForm.SkipRule | src/components/PredictionForm.tsx:51-91 | A rule that does not fire leaves the state unchanged, and the state still matches the first k+1 rules. |
| PredictionForm.FiredUpToMembers | src/components/PredictionForm.tsx:51-91 | A rule is among the fired rules of the first k exactly when its position is below k and it fires. |
| PredictionForm.FiredUpToOrdered | src/components/PredictionForm.tsx:51-91 | The fired rules of the first k have positions below k, in strictly increasing order. |
| PredictionForm.FiredExactly | src/components/PredictionForm.tsx:51-91 | The recorded rules are exactly the ones that fire, in evaluation order, with no duplicates. The list is empty exactly when no rule fires. |
| PredictionForm.BookingTierBands | src/components/PredictionForm.tsx:45-58 | Low booking is recorded iff 10·booked < 6·total (rate < 0.6). Moderate is recorded iff 6·total <= 10·booked < 8·total, so rate 0.6 is moderate and 0.8 is neither. The two are never both recorded. |
| PredictionForm.RateBelow | src/components/PredictionForm.tsx:45 | The booking rate is below tenths/10 iff 10·booked < tenths·total. |
| PredictionForm.ScoreBounds | src/components/PredictionForm.tsx:48-91 | The pre-noise score lies in [0, 1.35] and at most six factors are recorded. The score is 1.35 exactly when low booking, weekend, special event, bad weather, dinner and the flagged hostel all fire. |
| PredictionForm.AlternativesBound | src/components/PredictionForm.tsx:52-85 | Each if/else-if pair of rules (booking tiers, meal types) records at most one factor. It adds at most its first branch's weight, and adds exactly that weight iff the first branch fires. |
| PredictionForm.DescriptionsDistinct | src/components/PredictionForm.tsx:54-90 | The factor descriptions are pairwise distinct. None of them equals the sentinel. |
| PredictionForm.FactorsExplainRules | src/components/PredictionForm.tsx:49-101 | A rule's description is among the reported factors iff the rule fires. The sentinel is reported iff no rule fires, and then it is the only factor. At most six factors are reported. |
| PredictionForm.NoiseNeverAddsFactor | src/components/PredictionForm.tsx:93-96 | The noise term changes no factor. A larger noise never lowers the probability. |
| PredictionForm.AllRulesFire | src/components/PredictionForm.tsx:38-107 | When all six compatible rules fire, the sum is 1.35 and the probability is clamped to 0.95, labelled Yes with High confidence. The six descriptions are listed in evaluation order. |
| PredictionForm.NoRuleFires | src/components/PredictionForm.tsx:38-107 | When no rule fires, the probability is the noise clamped up to 0.05, labelled No with Low confidence. The only factor is the sentinel. |
| PredictionForm.ScenarioQuietLunch | src/components/PredictionForm.tsx:38-107 | 57 of 60 booked, weekday Sunny lunch, no event, noise 0: probability 0.05, No, Low, sentinel only. The form can be submitted. |
| PredictionForm.ScenarioEverythingFires | src/components/PredictionForm.tsx:38-107 | 20 of 60 booked, Stormy Sunday dinner with an event at the flagged hostel, noise 0: probability 0.95, Yes, High, six factors. The form can be submitted. |
| PredictionForm.ScenarioModerateBreakfast | src/components/PredictionForm.tsx:38-107 | 42 of 60 booked, Cloudy weekday breakfast, noise 0: probability 0.25, No, Low, the factors moderate booking and breakfast. The form can be submitted. |
| PredictionForm.SelectDay | src/components/PredictionForm.tsx:144 | Picking a day sets it, and sets the weekend field to "Yes" for Saturday/Sunday and "No" otherwise. No other field changes. |
| PredictionForm.WeekendRuleAfterSelectDay | src/components/PredictionForm.tsx:61 | After a day is picked, the weekend rule fires iff the day is Saturday or Sunday. The same holds for the weekend field being "Yes". |
| PredictionForm.SubmitDisabled | src/components/PredictionForm.tsx:235 | Submit is enabled iff nothing is loading and none of the seven required fields is empty. |
| PredictionForm.SubmitIgnoresWeekendField | src/components/PredictionForm.tsx:235 | The weekend field does not affect whether submit is enabled. |
| Dashboard.Sum | src/components/Dashboard.tsx:30-32 | The `reduce` fold from 0. For non-negative values the sum is non-negative and at least each value. |
| Dashboard.TotalCapacity | src/components/Dashboard.tsx:30 | For non-negative capacities the total is at least each hostel's capacity. For n hostels it lies between n times the smallest and n times the largest capacity. |
| Dashboard.MinMaxBound | src/components/Dashboard.tsx:31-32 | Every value lies between the list's minimum and maximum, and both are in the list. |
| Dashboard.SumBetween | src/components/Dashboard.tsx:30-32 | A fold of n values lies between n·min and n·max. |
| Dashboard.SumConcat | src/components/Dashboard.tsx:30 | The fold of a concatenation is the sum of the folds. |
| Dashboard.RoundDiv | src/components/Dashboard.tsx:31 | `Math.round(s / n)` for n > 0 is the nearest integer r, a half rounded up: 2nr − n <= 2s < 2nr + n. |
| Dashboard.RoundedMean | src/components/Dashboard.tsx:31-32 | The rounded mean of a non-empty list lies between its minimum and maximum, and is the nearest integer to sum/length. |
| Dashboard.RoundedBetween | src/components/Dashboard.tsx:31-32 | Rounding a quotient whose value lies in [lo, hi] gives an integer in [lo, hi]. |
| Dashboard.TotalCapacityConcat | src/components/Dashboard.tsx:30 | Total capacity is additive over groups of hostels, and 0 for none. |
| Dashboard.AverageOccupancy | src/components/Dashboard.tsx:31 | The average occupancy lies between two hostels' occupancies and is the rounded mean of all of them. |
| Dashboard.AverageWasteRate | src/components/Dashboard.tsx:32 | The average waste rate lies between two hostels' rates and is the rounded mean of all of them. |
| Dashboard.BadgeVariant | src/components/Dashboard.tsx:103 | The badge is "destructive" iff rate > 25, "warning" iff 20 < rate <= 25, and "success" iff rate <= 20. |
| Dashboard.BarClass | src/components/Dashboard.tsx:111-112 | The bar colour is "bg-" followed by the badge variant, so bar and badge always agree. |
| Dashboard.DayAverage | src/components/Dashboard.tsx:135 | The day's figure is the nearest integer to the mean of its three meals and lies between the smallest and the largest of them. |
| Dashboard.SampleHostelFigures | src/components/Dashboard.tsx:6-11 | Sample hostels: capacity 235, occupancy 78, waste rate 22, four hostels, badges warning/success/destructive/success. |
| Dashboard.SampleWeekFigures | src/components/Dashboard.tsx:13-21 | Sample week: daily averages 17, 18, 19, 18, 25, 35, 38. |

## Left out

- Rendering, `useState` and the updates of the loading flag: these are React presentation. The form's state is a value, and `loading` is a parameter of `SubmitDisabled`.
- The 1500 ms `setTimeout` around the scorer: it is presentation latency. The model computes the result synchronously.
- `Math.random() * 0.2`: it becomes the parameter `noise`, required to lie in [0, 0.2).
- `parseInt` of the two number fields: the parsed values are parameters. Text that does not parse (NaN), and a zero or negative student count, are not modelled. `CalculatePrediction` and `Predict` require `totalStudents > 0`, although the code guards against the empty field only by disabling submit.
- Floating point in the scorer: weights, the booking rate and the score are exact reals. Binary rounding (for example 0.4 + 0.25 + … not summing to exactly 1.35 in doubles) is not modelled, nor is the `toFixed` display of the probability.
- Floating point on the dashboard: `/ hostels.length` and `/ 3` are double divisions followed by `Math.round`. The model computes them exactly in integers (`RoundDiv`). The two agree as long as the sums stay well below 2^52.
- The option lists of the selects (hostels, days, meal types, weather, Yes/No): the model accepts any string in every field, as the state type does.
- The per-rule blocks of `calculatePrediction` are separate methods in the model, called in the code's order. The state they pass along is the pair (score, factors), which the code keeps in two local variables.
- Dashboard averages of an empty hostel list: the code would show NaN. `AverageOccupancy` and `AverageWasteRate` require a non-empty list.
- The "Active Hostels" card (src/components/Dashboard.tsx:78) shows `hostels.length`. That is `|hs|` and has no member of its own.
- The dashboard's fixed meal-statistics table, icons and bar widths: these are static display data.
- DataUpload, VisualizationDashboard, InsightsPanel and the Index page are not part of this model.
