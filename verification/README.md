# Profile comparator: comparison and advice logic in Dafny

This project models the comparison logic of a browser-extension popup that compares a
user's competitive-programming profile with a competitor's. The popup downloads two
profile payloads and two contest payloads, then does four things:

- It pairs them into a two-sided comparison record (`compareProfiles`).
- It reads the acceptance rate from the profile's "All" submission totals
  (`calculateAcceptanceRate`).
- It computes a submission rate from each submission calendar
  (`calculateAverageSubmissions`).
- It writes an advice sentence and colours each difference green or red (the
  `interpretation` and `determineColor` closures of `generateComparisonHtml`).

The model uses immutable datatypes and pure functions. The parts with loops are methods.

Modules, one per file:

- `Outcomes` (`outcomes.dfy`): `Option` for absent JSON fields and `Result` for
  operations that can fail.
- `Model` (`model.dfy`): the raw payloads `RawProfile`, `RawContest` and
  `SubmissionStat`, and the derived records `ProfileMetrics` and `ComparisonResult`.
  Also the two fractions: `AcceptanceRate` and `SubmissionRate`.
- `Comparator` (`comparator.dfy`): the "All"-entry lookup, the normalisation of one
  person's payloads, and `compareProfiles`.
- `SubmissionRates` (`submission_rate.dfy`): the span in days and the trailing-window
  total.
- `Advice` (`advice.dfy`): the list of categories where I am behind, and the advice
  sentence.
- `Colors` (`color.dfy`): the sign-to-colour classifier.

Modelling choices:

- Numbers from the JSON payloads are `int`. Contest rating and top percentage are
  `real`. Contest fields the API may leave out are `Option`s, and they are carried
  through as absent, never turned into zero.
- The acceptance rate is kept as the exact fraction `100 * count / submissions`. It is
  the pair `(count, submissions)`, and `Percent()` divides when the total is non-zero.
  The average submission rate is kept the same way, as `(windowSubmissions,
  daysDifference)`.
- The submission calendar is a `map<int, int>` from Unix seconds to counts.
- The clock read `new Date()` becomes the parameter `nowMs`, in milliseconds, like
  `Date.getTime()`. A calendar date is its key times 1000, exactly as in the code. So
  the window `[nowMs - daysDifference * 86400000, nowMs]` is compared in milliseconds.
  - When the clock is on a whole second, the window is `[now - days, now]` in seconds,
    both ends included (`WholeSecondWindow`).
  - Otherwise the oldest second is not counted (`FractionalSecondWindow`).
- The span (`daysDifference`) comes from the oldest and newest keys. The total is
  counted in the trailing window ending now, not over the historical range. The model
  keeps this mismatch as written. `StaleCalendarCountsNothing` shows its effect: a
  long-inactive profile counts zero submissions, however long its history.
- The code sorts the dates only to take the first and last one. The model finds the
  least and greatest key directly (`FindSpan`). It sums the window in any order, which
  gives the same integer total.
- When the code reads `.submissions` of the missing "All" entry, it throws a
  `TypeError`. The model returns `Failure(MissingAggregate)` in that case. A failure on
  either side fails the whole comparison.
- The advice text is built the way the code builds it: a default sentence,
  `"Give more contests."` cut before its full stop with `" and f"` appended, a bare
  `"F"`, then `"ocus more on … problems."`. The contract of `Interpretation` states the
  resulting four sentences. They use an independent serial-comma ("Oxford comma")
  list, `SerialList`, defined for lists of any length.

## Model

| member | source | states |
|---|---|---|
| Comparator.FindAggregate | popup.js:151 | returns the index of the first entry whose difficulty is "All", and none exactly when no entry has that difficulty |
| Comparator.CalculateAcceptanceRate | popup.js:150-155 | fails with MissingAggregate exactly when no entry is "All"; otherwise the rate is count and submissions of the first "All" entry, as the fraction 100·count/submissions |
| Model.AcceptanceRate.Percent | popup.js:154 | the percentage is the exact quotient: p · total = 100 · accepted; it needs a non-zero total |
| Comparator.AcceptancePercentBounds | popup.js:154 | a rate whose accepted count lies between 0 and its positive total is a percentage between 0 and 100 |
| Comparator.NormalizeProfile | popup.js:117-129 | one side's record copies every field from that person's profile and contest payloads (absent contest fields stay absent) and reads the acceptance rate from the first "All" entry; it fails exactly when there is no such entry |
| Comparator.DerivedFromUnique | popup.js:117-129 | a person's two payloads determine their record completely: two records derived from the same inputs are equal |
| Comparator.CompareProfiles | popup.js:111-148 | succeeds exactly when both profiles have an "All" entry; my record is derived only from my payloads and the competitor's only from theirs |
| Comparator.CompareProfilesSwap | popup.js:117-147 | exchanging the two people exchanges the two sides of the result and nothing else; neither side ever gets the other's data |
| Comparator.MyProfileIgnoresCompetitor | popup.js:117-129 | my record is the same whatever the competitor's payloads are |
| SubmissionRates.CeilDiv | popup.js:170 | the rounded-up quotient is the least multiple count covering the numerator |
| SubmissionRates.FindSpan | popup.js:158-166 | returns the earliest and latest calendar keys, the first and last of the sorted dates |
| SubmissionRates.SumWindow | popup.js:177-186 | the total is the sum of the counts of exactly those keys whose date in milliseconds lies in the closed window |
| SubmissionRates.CalculateAverageSubmissions | popup.js:157-191 | fails exactly for an empty calendar; otherwise the span is the rounded-up day count between the earliest and latest key, and the total sums exactly the keys in the trailing window of that many days ending at the clock |
| Model.SubmissionRate.AverageSubmissions | popup.js:188 | the average is the exact quotient: avg · daysDifference = windowSubmissions; it needs a non-zero span |
| SubmissionRates.DaysDifferenceInSeconds | popup.js:159-170 | the span measured in seconds is the least whole number of days covering the distance between the oldest and newest key |
| SubmissionRates.WholeSecondWindow | popup.js:173-179 | with the clock on a whole second, a key is counted iff it lies in [now − days·86400, now], both ends included |
| SubmissionRates.FractionalSecondWindow | popup.js:173-179 | with the clock between whole seconds, a key is counted iff it lies in (now − days·86400, now]: the oldest second is lost |
| SubmissionRates.CountUpdate | popup.js:177-186 | changing the count of an existing key leaves the span alone and changes the total by exactly the change if the key is in the window, and not at all otherwise |
| SubmissionRates.StaleCalendarCountsNothing | popup.js:170-186 | when the newest key is older than the trailing window, the total is zero |
| SubmissionRates.TenDayScenario | popup.js:157-191 | entries of 5 and 3 submissions ten days apart, read at the newer one, give a ten-day span, a total of 8 and an average of 0.8 |
| Advice.LessSolvedCategories | popup.js:234-244 | a category is listed iff my solved count in it is strictly below the competitor's; the list is in easy, medium, hard order with no repeats and at most three entries |
| Advice.SerialListUpToThree | popup.js:262-268 | a list of one, two or three items is written "X", "X and Y" and "X, Y, and Z" |
| Advice.FocusSuffix | popup.js:262-268 | the appended tail is "ocus more on <serial-comma list> problems." for one to three categories and empty for none |
| Advice.GiveMoreContestsAndFocus | popup.js:248-255 | dropping the full stop of "Give more contests." and appending " and f" continues into "Give more contests and focus more on … problems." |
| Advice.FocusCapital | popup.js:259-267 | the bare "F" and the appended tail form "Focus more on … problems." |
| Advice.Interpretation | popup.js:231-271 | the advice is "You are good in all aspects." when nothing is behind, "Give more contests." when only attendance is behind, "Give more contests and focus more on <list> problems." when both are, and "Focus more on <list> problems." when only categories are |
| Advice.AdviceDependsOnlyOnSolvedAndAttendance | popup.js:231-271 | two comparisons that agree on the three solved counts and the attendance of both sides get the same advice; rank, acceptance rate, rating, global ranking and top percentage never matter |
| Advice.AllGoodIff | popup.js:232-259 | the praise is given iff I am behind in no category and not behind in attendance |
| Advice.EasyOnlyScenario | popup.js:231-271 | behind in easy only (ahead in medium, tied in hard) with equal attendance gives the list [easy] and "Focus more on easy problems." |
| Advice.OrderedIsSubset | popup.js:235-244 | a repetition-free list in easy, medium, hard order is one of the eight ordered subsets |
| Advice.RenderedDetermines | popup.js:262-268 | different ordered category lists are written differently |
| Advice.AdviceOpening | popup.js:232-260 | the advice starts with "G" iff attendance is behind, and otherwise with "Y" for the praise or "F" when categories follow |
| Advice.AdviceDetermines | popup.js:231-271 | equal advice implies the same list of behind categories and the same attendance outcome: the sentence loses no information |
| Colors.DetermineColor | popup.js:201-209 | "green" iff the difference is positive, "red" iff negative, "" iff zero |
| Colors.DetermineColorReversed | popup.js:201-209 | negating a difference exchanges green and red and leaves no colour unchanged |

## Left out

- DOM access, event listeners and the HTML template (popup.js:1-65, 272-381) are
  presentation only.
- The extension's settings store that remembers the two profile identifiers
  (popup.js:3-14, 26-29) is external storage.
- `fetchProfileData` and `fetchContestData` (popup.js:67-109) are network I/O and
  console logging. Their results are the model's `RawProfile` and `RawContest` inputs.
- `toFixed` formatting and floating-point division (popup.js:154, 188, 218, 227,
  371-372) are not modelled. Rates are exact fractions instead.
  - The `NaN` and `Infinity` a zero denominator produces are not modelled.
    `AcceptanceRate.Percent` needs a non-zero total, and
    `SubmissionRate.AverageSubmissions` needs a non-zero span. A single-entry
    calendar has span 0, and the model gives it no average.
- The `Date` constructor's validity range (beyond ±8.64e15 ms) is not modelled, so
  out-of-range dates never become invalid.
- String keys of the calendar object that are not in canonical decimal form (such as
  "007") are not modelled. The model's keys are the numbers themselves.
- `formatDifference`, `safeToFixed` and the top-percentage colour (popup.js:212-229,
  272-274) only format markup.
- SubmissionRates.CalculateAverageSubmissions: for an empty calendar the code does not
  throw; it returns `NaN` for both the average and the span. The model returns
  `Failure(EmptyCalendar)` to stand for that `NaN` pair.
- Colors.DetermineColor: takes a real difference, so the `NaN` difference of an absent
  contest field (which the code leaves uncoloured) is not modelled.
