/** The fan-out of a finished analysis into challenge progress: four
  * progress reports to the user-challenge service, one per metric. A report
  * that throws ends the fan-out. Called on its own, each report is its own
  * transaction and the reports before a failing one stay applied. Called
  * from the session end, the reports join that method's transaction, and a
  * failing report rolls the whole session end back. */
module ChallengeProgressUpdater {
  import opened Common
  import opened Entities
  import opened ChallengeRules
  import opened ChallengeStore
  import UserChallengeService

  /** toLong: a missing count reports as 0, a present one unchanged. */
  function ToLong(v: Option<int>): (r: int)
    ensures v.None? ==> r == 0
    ensures v.Some? ==> r == v.value
    ensures v.GetOrElse(0) == r
  {
    match v
    case None => 0
    case Some(x) => x
  }

  /** The reports of one result, in the order they are made. */
  function Reports(drowsiness: Option<int>, phoneUsage: Option<int>, smoking: Option<int>, score: Option<int>)
    : (rs: seq<(string, int)>)
    ensures |rs| == 4
    ensures rs[0] == (DROWSINESS_COUNT, ToLong(drowsiness)) && rs[1] == (PHONE_USAGE_COUNT, ToLong(phoneUsage))
    ensures rs[2] == (SMOKING_COUNT, ToLong(smoking)) && rs[3] == (DRIVING_SCORE, ToLong(score))
  {
    [(DROWSINESS_COUNT, ToLong(drowsiness)), (PHONE_USAGE_COUNT, ToLong(phoneUsage)),
     (SMOKING_COUNT, ToLong(smoking)), (DRIVING_SCORE, ToLong(score))]
  }

  /** Making the reports one after another: the table they leave and the
    * error of the first report that throws, if any. */
  function Run(ps: seq<UserChallenge>, userId: int, reports: seq<(string, int)>, now: int)
    : (r: (seq<UserChallenge>, Result<(), ChallengeError>))
    ensures reports == [] ==> r == (ps, Ok(()))
    ensures r.1.Ok? ==> |r.0| == |ps|
    decreases |reports|
  {
    if reports == [] then (ps, Ok(()))
    else
      var step := MapAll(ps, UserChallengeService.MetricUpdate(userId, reports[0].0, reports[0].1, now));
      if step.Err? then (ps, Err(step.error))
      else Run(step.value, userId, reports[1..], now)
  }

  /** A driving-score report at the end of a run changes nothing: the
    * service ignores progress on the driving score. */
  lemma {:induction false} TrailingDrivingScoreIsNoOp(ps: seq<UserChallenge>, userId: int,
                                                       reports: seq<(string, int)>, value: int, now: int)
    ensures Run(ps, userId, reports + [(DRIVING_SCORE, value)], now) == Run(ps, userId, reports, now)
    decreases |reports|
  {
    if reports == [] {
      UserChallengeService.DrivingScoreIgnored(ps, userId, value, now);
      assert Run(ps, userId, [(DRIVING_SCORE, value)], now) == Run(ps, userId, [], now);
    } else {
      assert (reports + [(DRIVING_SCORE, value)])[0] == reports[0];
      assert (reports + [(DRIVING_SCORE, value)])[1..] == reports[1..] + [(DRIVING_SCORE, value)];
      var step := MapAll(ps, UserChallengeService.MetricUpdate(userId, reports[0].0, reports[0].1, now));
      if step.Ok? {
        TrailingDrivingScoreIsNoOp(step.value, userId, reports[1..], value, now);
      }
    }
  }

  /** Hence updateFrom's outcome depends only on the three risk counts,
    * never on the driving score. */
  lemma ScoreNeverMatters(ps: seq<UserChallenge>, userId: int, drowsiness: Option<int>, phoneUsage: Option<int>,
                          smoking: Option<int>, score1: Option<int>, score2: Option<int>, now: int)
    ensures Run(ps, userId, Reports(drowsiness, phoneUsage, smoking, score1), now) ==
            Run(ps, userId, Reports(drowsiness, phoneUsage, smoking, score2), now)
  {
    var risks := Reports(drowsiness, phoneUsage, smoking, score1)[..3];
    assert Reports(drowsiness, phoneUsage, smoking, score1) == risks + [(DRIVING_SCORE, ToLong(score1))];
    assert Reports(drowsiness, phoneUsage, smoking, score2) == risks + [(DRIVING_SCORE, ToLong(score2))];
    TrailingDrivingScoreIsNoOp(ps, userId, risks, ToLong(score1), now);
    TrailingDrivingScoreIsNoOp(ps, userId, risks, ToLong(score2), now);
  }

  /** One report, then the rest. */
  lemma RunFirst(ps: seq<UserChallenge>, userId: int, reports: seq<(string, int)>, now: int,
                 r: Result<(), ChallengeError>, qs: seq<UserChallenge>)
    requires reports != []
    requires var step := MapAll(ps, UserChallengeService.MetricUpdate(userId, reports[0].0, reports[0].1, now));
      (r.Ok? <==> step.Ok?) && (r.Ok? ==> qs == step.value) && (r.Err? ==> r.error == step.error && qs == ps)
    ensures r.Err? ==> Run(ps, userId, reports, now) == (qs, Err(r.error))
    ensures r.Ok? ==> Run(ps, userId, reports, now) == Run(qs, userId, reports[1..], now)
  {
  }

  /** updateFrom: the result's drowsiness, phone-use and smoking counts and
    * its driving score are reported, in that order, all for the result's
    * user. */
  method UpdateFrom(store: Store, result: AnalysisResult, now: int) returns (r: Result<(), ChallengeError>)
    requires store.Valid()
    modifies store
    ensures store.Valid()
    ensures store.challenges == old(store.challenges) && store.nextChallengeId == old(store.nextChallengeId)
    ensures var run := Run(old(store.participations), result.userId,
              Reports(result.drowsinessCount, result.phoneUsageCount, result.smokingCount, result.drivingScore), now);
      store.participations == run.0 && (r.Ok? <==> run.1.Ok?) && (r.Err? ==> r.error == run.1.error)
  {
    var userId := result.userId;
    var reports := Reports(result.drowsinessCount, result.phoneUsageCount, result.smokingCount, result.drivingScore);
    ghost var before := store.participations;
    r := UserChallengeService.UpdateProgressByMetric(store, userId, DROWSINESS_COUNT, ToLong(result.drowsinessCount), now);
    RunFirst(before, userId, reports, now, r, store.participations);
    if r.Err? {
      return;
    }
    before := store.participations;
    r := UserChallengeService.UpdateProgressByMetric(store, userId, PHONE_USAGE_COUNT, ToLong(result.phoneUsageCount), now);
    assert reports[1..][0] == reports[1] && reports[1..][1..] == reports[2..];
    RunFirst(before, userId, reports[1..], now, r, store.participations);
    if r.Err? {
      return;
    }
    before := store.participations;
    r := UserChallengeService.UpdateProgressByMetric(store, userId, SMOKING_COUNT, ToLong(result.smokingCount), now);
    assert reports[2..][0] == reports[2] && reports[2..][1..] == reports[3..];
    RunFirst(before, userId, reports[2..], now, r, store.participations);
    if r.Err? {
      return;
    }
    before := store.participations;
    r := UserChallengeService.UpdateProgressByMetric(store, userId, DRIVING_SCORE, ToLong(result.drivingScore), now);
    assert reports[3..][0] == reports[3] && reports[3..][1..] == [];
    RunFirst(before, userId, reports[3..], now, r, store.participations);
  }
}
