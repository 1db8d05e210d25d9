/** The comparator: the acceptance-rate lookup, the normalisation of one person's raw
    payloads into `ProfileMetrics`, and the pairing of the two people into a
    `ComparisonResult`. */
module Comparator {
  import opened Outcomes
  import opened Model

  /** The difficulty label of the aggregate entry of `totalSubmissions`. */
  const AggregateDifficulty: string := "All"

  /** `i` is the first entry of `stats` whose difficulty is "All". */
  ghost predicate FirstAggregate(stats: seq<SubmissionStat>, i: int) {
    && 0 <= i < |stats|
    && stats[i].difficulty == AggregateDifficulty
    && forall j :: 0 <= j < i ==> stats[j].difficulty != AggregateDifficulty
  }

  /** Some entry of `stats` has difficulty "All". */
  ghost predicate HasAggregate(stats: seq<SubmissionStat>) {
    exists i :: 0 <= i < |stats| && stats[i].difficulty == AggregateDifficulty
  }

  /** The index that `Array.prototype.find` stops at when looking for the "All" entry. */
  function FindAggregate(stats: seq<SubmissionStat>): (r: Option<nat>)
    ensures r.Some? ==> FirstAggregate(stats, r.value)
    ensures r.None? ==> forall j :: 0 <= j < |stats| ==> stats[j].difficulty != AggregateDifficulty
  {
    if |stats| == 0 then None
    else if stats[0].difficulty == AggregateDifficulty then Some(0)
    else match FindAggregate(stats[1..])
      case None => None
      case Some(i) => Some(i + 1)
  }

  /** `calculateAcceptanceRate`: reads `submissions` and `count` from the first entry
      whose difficulty is "All"; without such an entry the field access fails. */
  function CalculateAcceptanceRate(stats: seq<SubmissionStat>): (r: Result<AcceptanceRate, Error>)
    ensures r.Failure? <==> !HasAggregate(stats)
    ensures r.Failure? ==> r.error == MissingAggregate
    ensures r.Success? ==>
      exists i :: FirstAggregate(stats, i)
        && r.value == AcceptanceRate(stats[i].count, stats[i].submissions)
  {
    match FindAggregate(stats)
    case None => Failure(MissingAggregate)
    case Some(i) => Success(AcceptanceRate(stats[i].count, stats[i].submissions))
  }

  /** When no more submissions were accepted than made, the rate is a percentage. */
  lemma AcceptancePercentBounds(rate: AcceptanceRate)
    requires 0 <= rate.accepted <= rate.total && rate.total > 0
    ensures 0.0 <= rate.Percent() <= 100.0
  {
  }

  /** `m` is what the object literal in `compareProfiles` builds from `profile` and `contest`: every
      field copied from the same-named (or renamed) input field, absent contest fields
      kept absent, and the acceptance rate read from the first "All" entry. */
  ghost predicate DerivedFrom(m: ProfileMetrics, profile: RawProfile, contest: RawContest) {
    && m.rank == profile.ranking
    && m.totalSolved == profile.totalSolved
    && (exists i :: FirstAggregate(profile.totalSubmissions, i)
          && m.acceptanceRate == AcceptanceRate(profile.totalSubmissions[i].count,
                                                profile.totalSubmissions[i].submissions))
    && m.solvedEasy == profile.easySolved
    && m.solvedMedium == profile.mediumSolved
    && m.solvedHard == profile.hardSolved
    && m.submissionCalendar == profile.submissionCalendar
    && m.contestAttend == contest.contestAttend
    && m.contestRating == contest.contestRating
    && m.contestGlobalRanking == contest.contestGlobalRanking
    && m.contestTopPercentage == contest.contestTopPercentage
  }

  /** A person's inputs determine their metrics: at most one record is derived from them. */
  lemma DerivedFromUnique(m1: ProfileMetrics, m2: ProfileMetrics, profile: RawProfile, contest: RawContest)
    requires DerivedFrom(m1, profile, contest) && DerivedFrom(m2, profile, contest)
    ensures m1 == m2
  {
  }

  /** One side of `compareProfiles`: the metrics of one person. */
  function NormalizeProfile(profile: RawProfile, contest: RawContest): (r: Result<ProfileMetrics, Error>)
    ensures r.Failure? <==> !HasAggregate(profile.totalSubmissions)
    ensures r.Failure? ==> r.error == MissingAggregate
    ensures r.Success? ==> DerivedFrom(r.value, profile, contest)
  {
    var rate :- CalculateAcceptanceRate(profile.totalSubmissions);
    Success(ProfileMetrics(
      rank := profile.ranking,
      totalSolved := profile.totalSolved,
      acceptanceRate := rate,
      solvedEasy := profile.easySolved,
      solvedMedium := profile.mediumSolved,
      solvedHard := profile.hardSolved,
      submissionCalendar := profile.submissionCalendar,
      contestAttend := contest.contestAttend,
      contestRating := contest.contestRating,
      contestGlobalRanking := contest.contestGlobalRanking,
      contestTopPercentage := contest.contestTopPercentage))
  }

  /** `compareProfiles`: my record is built only from my inputs and the competitor's
      only from theirs; the comparison fails when either profile lacks an "All" entry. */
  function CompareProfiles(
    myProfileData: RawProfile,
    competitorProfileData: RawProfile,
    myContestData: RawContest,
    competitorContestData: RawContest
  ): (r: Result<ComparisonResult, Error>)
    ensures r.Success? <==>
      HasAggregate(myProfileData.totalSubmissions) && HasAggregate(competitorProfileData.totalSubmissions)
    ensures r.Failure? ==> r.error == MissingAggregate
    ensures r.Success? ==>
      && DerivedFrom(r.value.myProfile, myProfileData, myContestData)
      && DerivedFrom(r.value.competitorProfile, competitorProfileData, competitorContestData)
  {
    var myProfile :- NormalizeProfile(myProfileData, myContestData);
    var competitorProfile :- NormalizeProfile(competitorProfileData, competitorContestData);
    Success(ComparisonResult(myProfile, competitorProfile))
  }

  /** Exchanging the two people exchanges the two sides of the result: nothing is
      swapped or mixed between them. */
  lemma CompareProfilesSwap(a: RawProfile, b: RawProfile, ca: RawContest, cb: RawContest)
    ensures CompareProfiles(a, b, ca, cb).Success? == CompareProfiles(b, a, cb, ca).Success?
    ensures CompareProfiles(a, b, ca, cb).Success? ==>
      && CompareProfiles(a, b, ca, cb).value.myProfile == CompareProfiles(b, a, cb, ca).value.competitorProfile
      && CompareProfiles(a, b, ca, cb).value.competitorProfile == CompareProfiles(b, a, cb, ca).value.myProfile
  {
  }

  /** My record does not depend on the competitor's inputs. */
  lemma MyProfileIgnoresCompetitor(
    mine: RawProfile, myContest: RawContest,
    b1: RawProfile, c1: RawContest, b2: RawProfile, c2: RawContest)
    requires CompareProfiles(mine, b1, myContest, c1).Success?
    requires CompareProfiles(mine, b2, myContest, c2).Success?
    ensures CompareProfiles(mine, b1, myContest, c1).value.myProfile
         == CompareProfiles(mine, b2, myContest, c2).value.myProfile
  {
  }
}
