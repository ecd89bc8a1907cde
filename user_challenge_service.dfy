/** The user-challenge service (the newer variant): progress by metric
  * ignores the driving score, whose challenges are judged on Mondays
  * against the user's weekly average score instead of the stored progress.
  * The shared operations (joining, creating, progress on one record, weekly
  * generation) are those of `UserChallenges`. */
module UserChallengeService {
  import opened Common
  import opened Entities
  import opened ChallengeRules
  import opened ChallengeStore
  import opened UserChallenges
  import UserScore

  /** The reward of this variant's weekly score challenge. */
  const SCORE_REWARD: string := "drive master of the week"

  /** The pass updateProgressByMetric makes. */
  function MetricUpdate(userId: int, metric: string, value: int, now: int): Pass
  {
    MetricPass(userId, metric, value, now, true)
  }

  /** updateProgressByMetric: every IN_PROGRESS record of the user on the
    * metric gets the value added, and completes when its comparator is met;
    * the whole update is rolled back when one comparison throws. */
  method UpdateProgressByMetric(store: Store, userId: int, metric: string, value: int, now: int)
    returns (r: Result<(), ChallengeError>)
    requires store.Valid()
    modifies store
    ensures store.Valid()
    ensures store.challenges == old(store.challenges) && store.nextChallengeId == old(store.nextChallengeId)
    ensures store.nextParticipationId == old(store.nextParticipationId)
    ensures r.Ok? <==> MapAll(old(store.participations), MetricUpdate(userId, metric, value, now)).Ok?
    ensures r.Ok? ==> store.participations == MapAll(old(store.participations), MetricUpdate(userId, metric, value, now)).value
    ensures r.Err? ==> r.error == MapAll(old(store.participations), MetricUpdate(userId, metric, value, now)).error
    ensures r.Err? ==> store.participations == old(store.participations)
  {
    r := store.ApplyPass(MetricUpdate(userId, metric, value, now));
  }

  /** Progress on the driving score changes nothing at all. */
  lemma DrivingScoreIgnored(ps: seq<UserChallenge>, userId: int, value: int, now: int)
    ensures MapAll(ps, MetricUpdate(userId, DRIVING_SCORE, value, now)) == Ok(ps)
  {
    var r := MapAll(ps, MetricUpdate(userId, DRIVING_SCORE, value, now));
    assert r.Ok?;
    assert r.value == ps;
  }

  /** What progress on `metric` does to one record: a selected record gets
    * the value added, keeps its status when it has no comparator, and
    * completes at `now` when its comparator is met; any other record is
    * untouched. */
  predicate Progressed(uc: UserChallenge, q: UserChallenge, userId: int, metric: string, value: int, now: int)
  {
    (Tracks(uc, userId, metric) ==> q.currentValue == Some(CurrentOrZero(uc) + value)) &&
    (Tracks(uc, userId, metric) && uc.comparator.None? ==> q.status == uc.status) &&
    ((Tracks(uc, userId, metric) && uc.comparator.Some? &&
      Satisfied(uc.comparator.value, CurrentOrZero(uc) + value, uc.targetValue)) ==>
       q.status == ChallengeCompleted && q.completedAt == Some(now)) &&
    (!Tracks(uc, userId, metric) ==> q == uc)
  }

  /** A selected record that compares against a null target makes the
    * update throw. */
  predicate Throws(uc: UserChallenge, userId: int, metric: string)
  {
    Tracks(uc, userId, metric) && uc.comparator.Some? && IsComparison(uc.comparator.value) && uc.targetValue.None?
  }

  lemma MetricRecord(uc: UserChallenge, userId: int, metric: string, value: int, now: int)
    requires metric != DRIVING_SCORE
    ensures Step(MetricUpdate(userId, metric, value, now), uc).Err? <==> Throws(uc, userId, metric)
    ensures Step(MetricUpdate(userId, metric, value, now), uc).Ok? ==>
      Progressed(uc, Step(MetricUpdate(userId, metric, value, now), uc).value, userId, metric, value, now)
  {
  }

  /** Progress on any other metric: the pass fails exactly when a selected
    * record compares against a null target; otherwise every record is
    * progressed as `Progressed` says. */
  lemma MetricProgress(ps: seq<UserChallenge>, userId: int, metric: string, value: int, now: int)
    requires metric != DRIVING_SCORE
    ensures var r := MapAll(ps, MetricUpdate(userId, metric, value, now));
      (r.Err? <==> exists i :: 0 <= i < |ps| && Throws(ps[i], userId, metric)) &&
      (r.Ok? ==> forall i :: 0 <= i < |ps| ==> Progressed(ps[i], r.value[i], userId, metric, value, now))
  {
    var p := MetricUpdate(userId, metric, value, now);
    var r := MapAll(ps, p);
    if r.Err? {
      var j :| 0 <= j < |ps| && !Step(p, ps[j]).Ok?;
      MetricRecord(ps[j], userId, metric, value, now);
    } else {
      forall i | 0 <= i < |ps|
        ensures !Throws(ps[i], userId, metric)
        ensures Progressed(ps[i], r.value[i], userId, metric, value, now)
      {
        MetricRecord(ps[i], userId, metric, value, now);
      }
    }
  }

  /** The pass evaluateChallenges makes on `today`. */
  function Evaluation(today: int, isMonday: bool, weeklyAverage: int -> Option<int>): Pass
  {
    EvaluatePass(today, isMonday, weeklyAverage, true)
  }

  /** evaluateChallenges: every IN_PROGRESS record that ended before today
    * is settled, except driving-score records, which are settled only on a
    * Monday and against the weekly average; the whole evaluation is rolled
    * back when one record has a null target or comparator. */
  method EvaluateChallenges(store: Store, today: int, isMonday: bool, weeklyAverage: int -> Option<int>)
    returns (r: Result<(), ChallengeError>)
    requires store.Valid()
    modifies store
    ensures store.Valid()
    ensures store.challenges == old(store.challenges) && store.nextChallengeId == old(store.nextChallengeId)
    ensures store.nextParticipationId == old(store.nextParticipationId)
    ensures r.Ok? <==> MapAll(old(store.participations), Evaluation(today, isMonday, weeklyAverage)).Ok?
    ensures r.Ok? ==> store.participations == MapAll(old(store.participations), Evaluation(today, isMonday, weeklyAverage)).value
    ensures r.Err? ==> r.error == MapAll(old(store.participations), Evaluation(today, isMonday, weeklyAverage)).error
    ensures r.Err? ==> store.participations == old(store.participations)
  {
    r := store.ApplyPass(Evaluation(today, isMonday, weeklyAverage));
  }

  /** What an evaluation does to one record `uc`, leaving `q`: a record
    * that has not expired is untouched; an expired driving-score record is
    * untouched except on a Monday with a known weekly average. Every other
    * expired record is judged, on its stored progress or, for the driving
    * score, on the weekly average: COMPLETED on success and FAILED
    * otherwise, with the reward granted on success to a record that had
    * explicitly not received it, and no other field changed. */
  predicate Settled(uc: UserChallenge, q: UserChallenge, today: int, isMonday: bool,
                    weeklyAverage: int -> Option<int>)
  {
    var isScore := uc.targetMetric == Some(DRIVING_SCORE);
    (!Expired(uc, today) ==> q == uc) &&
    ((Expired(uc, today) && isScore && (!isMonday || weeklyAverage(uc.userId).None?)) ==> q == uc) &&
    ((Expired(uc, today) && (!isScore || (isMonday && weeklyAverage(uc.userId).Some?))) ==>
      uc.comparator.Some? &&
      var value := if isScore then weeklyAverage(uc.userId).value else CurrentOrZero(uc);
      var success := Satisfied(uc.comparator.value, value, uc.targetValue);
      (q.status == ChallengeCompleted <==> success) &&
      (q.status == ChallengeFailed <==> !success) &&
      (q.rewardGiven == Some(true) <==>
         (success && uc.rewardGiven == Some(false)) || uc.rewardGiven == Some(true)) &&
      q == uc.(status := q.status, rewardGiven := q.rewardGiven))
  }

  /** One record that evaluates without error is settled as `Settled` says. */
  lemma SettledRecord(uc: UserChallenge, today: int, isMonday: bool, weeklyAverage: int -> Option<int>)
    requires Step(Evaluation(today, isMonday, weeklyAverage), uc).Ok?
    ensures Settled(uc, Step(Evaluation(today, isMonday, weeklyAverage), uc).value, today, isMonday, weeklyAverage)
  {
  }

  /** An evaluation that succeeds settles every record as `Settled` says. */
  lemma EvaluationSettles(ps: seq<UserChallenge>, today: int, isMonday: bool, weeklyAverage: int -> Option<int>)
    requires MapAll(ps, Evaluation(today, isMonday, weeklyAverage)).Ok?
    ensures var qs := MapAll(ps, Evaluation(today, isMonday, weeklyAverage)).value;
      forall i :: 0 <= i < |ps| ==> Settled(ps[i], qs[i], today, isMonday, weeklyAverage)
  {
    var p := Evaluation(today, isMonday, weeklyAverage);
    var qs := MapAll(ps, p).value;
    forall i | 0 <= i < |ps|
      ensures Settled(ps[i], qs[i], today, isMonday, weeklyAverage)
    {
      assert Step(p, ps[i]) == Ok(qs[i]);
      SettledRecord(ps[i], today, isMonday, weeklyAverage);
    }
  }

  /** Evaluating twice is evaluating once: a settled record is no longer
    * in progress, and every other record is left as the first pass left it. */
  lemma EvaluationIdempotent(ps: seq<UserChallenge>, today: int, isMonday: bool, weeklyAverage: int -> Option<int>)
    requires MapAll(ps, Evaluation(today, isMonday, weeklyAverage)).Ok?
    ensures var qs := MapAll(ps, Evaluation(today, isMonday, weeklyAverage)).value;
      MapAll(qs, Evaluation(today, isMonday, weeklyAverage)) == Ok(qs)
  {
    var p := Evaluation(today, isMonday, weeklyAverage);
    var qs := MapAll(ps, p).value;
    forall i | 0 <= i < |qs|
      ensures Step(p, qs[i]) == Ok(qs[i])
    {
      assert Step(p, ps[i]) == Ok(qs[i]);
    }
    var again := MapAll(qs, p);
    assert again.Ok?;
    assert again.value == qs;
  }

  /** calculateDisplayValue: the stored progress, except for a
    * driving-score challenge, which shows the weekly average score (0 when
    * there is none). */
  function DisplayValue(uc: UserChallenge, weeklyAverage: Option<int>): (v: Option<int>)
    ensures uc.targetMetric == Some(DRIVING_SCORE) ==> v.Some? && v.value == weeklyAverage.GetOrElse(0)
    ensures uc.targetMetric != Some(DRIVING_SCORE) ==> v == uc.currentValue
    ensures v.None? ==> uc.currentValue.None?
  {
    if uc.targetMetric != Some(DRIVING_SCORE) then uc.currentValue
    else Some(if weeklyAverage.Some? then weeklyAverage.value else 0)
  }

  /** createWeeklyPersonalChallengesForUser, fed with the weekly score
    * answer: the average decides the score challenge and the answer's risk
    * counts the risk challenge. */
  method CreateWeeklyPersonalChallengesForUser(store: Store, userId: int, resp: UserScore.ScoreResponse,
                                               monday: int, today: int, now: int)
    returns (scoreChallenge: Option<UserChallenge>, riskChallenge: Option<UserChallenge>)
    requires store.Valid()
    modifies store
    ensures store.Valid()
    ensures store.challenges == old(store.challenges) && store.nextChallengeId == old(store.nextChallengeId)
    ensures scoreChallenge.Some? <==>
      resp.averageScore > 0 && !TracksAt(old(store.participations), userId, DRIVING_SCORE, monday)
    ensures scoreChallenge.Some? ==>
      scoreChallenge.value == ScoreChallenge(userId, resp.averageScore, SCORE_REWARD, monday, now)
                                .(userChallengeId := old(store.nextParticipationId))
    ensures UserScore.NoRiskCounts(resp) ==> riskChallenge.None?
    ensures store.participations == old(store.participations) + Created(scoreChallenge) + Created(riskChallenge)
  {
    scoreChallenge, riskChallenge := CreateWeeklyPersonalChallenges(
      store, userId, Some(resp.averageScore), resp.drowsinessCount, resp.phoneUsageCount, resp.smokingCount,
      SCORE_REWARD, monday, today, now);
  }

  /** The weekly score answer the generation is fed with never carries a
    * risk count, so whatever the user's week was, no risk challenge is
    * ever generated from it. */
  lemma RiskChallengeNeverGenerated(userId: int, rows: seq<UserScore.ScoreRecord>)
    ensures var resp := UserScore.RangeResponse(userId, rows, Some("weekly"));
      MaxMetric(MetricEntries(resp.drowsinessCount, resp.phoneUsageCount, resp.smokingCount)).None?
  {
    var resp := UserScore.RangeResponse(userId, rows, Some("weekly"));
    assert MetricEntries(resp.drowsinessCount, resp.phoneUsageCount, resp.smokingCount) == [];
  }
}
