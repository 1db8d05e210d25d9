/** The data model of the profile comparator: the raw payloads the two remote APIs
    return, the normalised per-person metrics built from them, and the derived values
    (acceptance rate, submission rate) the comparison table displays. */
module Model {
  import opened Outcomes

  /** Milliseconds in a second, as used by the `Date` conversions. */
  const MillisPerSecond: int := 1000

  /** Seconds in a day. */
  const SecondsPerDay: int := 86400

  /** Milliseconds in a day: the divisor `1000 * 60 * 60 * 24`. */
  const MillisPerDay: int := 86400000

  /** Why a comparison could not be produced. */
  datatype Error =
    | MissingAggregate  // `totalSubmissions` has no entry whose difficulty is "All"
    | EmptyCalendar     // the submission calendar has no entries

  /** One entry of a profile's `totalSubmissions` list. The difficulty is the raw
      string the API sends ("All", "Easy", "Medium" or "Hard"). */
  datatype SubmissionStat = SubmissionStat(difficulty: string, submissions: int, count: int)

  /** The submission calendar: Unix timestamp in seconds (the object's numeric key)
      mapped to the number of submissions recorded under it. */
  type Calendar = map<int, int>

  /** The profile payload returned by the profile API. */
  datatype RawProfile = RawProfile(
    ranking: int,
    totalSolved: int,
    totalSubmissions: seq<SubmissionStat>,
    easySolved: int,
    mediumSolved: int,
    hardSolved: int,
    submissionCalendar: Calendar)

  /** The contest payload returned by the contest API. Rating, global ranking and top
      percentage are absent for a user without contest history. */
  datatype RawContest = RawContest(
    contestAttend: int,
    contestRating: Option<real>,
    contestGlobalRanking: Option<int>,
    contestTopPercentage: Option<real>)

  /** An acceptance rate kept as the exact fraction `100 * accepted / total`. */
  datatype AcceptanceRate = AcceptanceRate(accepted: int, total: int) {

    /** The rate as a percentage; the division needs some submissions. */
    function Percent(): (p: real)
      requires total != 0
      ensures p * total as real == 100.0 * accepted as real
    {
      100.0 * accepted as real / total as real
    }
  }

  /** The normalised metrics of one person, as shown in one column of the table. */
  datatype ProfileMetrics = ProfileMetrics(
    rank: int,
    totalSolved: int,
    acceptanceRate: AcceptanceRate,
    solvedEasy: int,
    solvedMedium: int,
    solvedHard: int,
    submissionCalendar: Calendar,
    contestAttend: int,
    contestRating: Option<real>,
    contestGlobalRanking: Option<int>,
    contestTopPercentage: Option<real>)

  /** The two sides of a comparison: the user's own metrics and the competitor's. */
  datatype ComparisonResult = ComparisonResult(myProfile: ProfileMetrics, competitorProfile: ProfileMetrics)

  /** The submission rate of one calendar, kept as the fraction
      `windowSubmissions / daysDifference`. */
  datatype SubmissionRate = SubmissionRate(windowSubmissions: int, daysDifference: nat) {

    /** The average number of submissions per day; the division needs a non-zero span. */
    function AverageSubmissions(): (avg: real)
      requires daysDifference > 0
      ensures avg * daysDifference as real == windowSubmissions as real
    {
      windowSubmissions as real / daysDifference as real
    }
  }
}
