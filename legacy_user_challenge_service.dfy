/** The older user-challenge service: progress by metric applies to every
  * metric, the driving score included, and an expired driving-score
  * challenge is judged on Mondays against its stored progress, like every
  * other challenge. Joining, creation, progress on one record and weekly
  * generation are the shared operations of `UserChallenges`. */
module LegacyUserChallengeService {
  import opened Common
  import opened Entities
  import opened ChallengeRules
  import opened ChallengeStore
  import opened UserChallenges
  import UserScore
  import UserChallengeService

  /** The reward of this variant's weekly score challenge. */
  const SCORE_REWARD: string := "weekly champion"

  /** The pass updateProgressByMetric makes. */
  function MetricUpdate(userId: int, metric: string, value: int, now: int): Pass
  {
    MetricPass(userId, metric, value, now, false)
  }

  /** updateProgressByMetric: every IN_PROGRESS record of the user on the
    * metric gets the value added and completes when its comparator is met;
    * the whole update is rolled back when one comparison throws. */
  method UpdateProgressByMetric(store: Store, userId: int, metric: string, value: int, now: int)
    returns (r: Result<(), ChallengeError>)
    requires store.Valid()
    modifies store
    ensures store.Valid()
    ensures store.challenges == old(store.challenges) && store.nextChallengeId == old(store.nextChallengeId)
    ensures store.nextParticipationId == old(store.nextParticipationId)
    ensures r.Ok? <==> MapAll(old(store.participations), MetricUpdate(userId, metric, value, now)).Ok?
    ensures r.Ok? ==> store.participations == MapAll(old(store.participations), MetricUpdate(userId, metric, value, now)).value
    ensures r.Err? ==> r.error == MapAll(old(store.participations), MetricUpdate(userId, metric, value, now)).error
    ensures r.Err? ==> store.participations == old(store.participations)
  {
    r := store.ApplyPass(MetricUpdate(userId, metric, value, now));
  }

  /** Off the driving score, both variants update progress alike. */
  lemma MetricUpdatesAgree(ps: seq<UserChallenge>, userId: int, metric: string, value: int, now: int)
    requires metric != DRIVING_SCORE
    ensures MapAll(ps, MetricUpdate(userId, metric, value, now)) ==
            MapAll(ps, UserChallengeService.MetricUpdate(userId, metric, value, now))
  {
    var older := MapAll(ps, MetricUpdate(userId, metric, value, now));
    var newer := MapAll(ps, UserChallengeService.MetricUpdate(userId, metric, value, now));
    assert forall i :: 0 <= i < |ps| ==>
      Step(MetricUpdate(userId, metric, value, now), ps[i]) ==
      Step(UserChallengeService.MetricUpdate(userId, metric, value, now), ps[i]);
    if older.Err? {
      var j :| 0 <= j < |ps| && Step(MetricUpdate(userId, metric, value, now), ps[j]) == Err(older.error) &&
        forall k :: 0 <= k < j ==> Step(MetricUpdate(userId, metric, value, now), ps[k]).Ok?;
      var j' :| 0 <= j' < |ps| &&
        Step(UserChallengeService.MetricUpdate(userId, metric, value, now), ps[j']) == Err(newer.error) &&
        forall k :: 0 <= k < j' ==> Step(UserChallengeService.MetricUpdate(userId, metric, value, now), ps[k]).Ok?;
      assert j == j';
    } else {
      assert older.value == newer.value;
    }
  }

  /** On the driving score the variants differ: here a tracked record of
    * the user gets the value added, where the newer variant ignores it. */
  lemma DrivingScoreProgresses(ps: seq<UserChallenge>, userId: int, value: int, now: int, i: int)
    requires 0 <= i < |ps| && Tracks(ps[i], userId, DRIVING_SCORE)
    requires MapAll(ps, MetricUpdate(userId, DRIVING_SCORE, value, now)).Ok?
    ensures MapAll(ps, MetricUpdate(userId, DRIVING_SCORE, value, now)).value[i].currentValue ==
            Some(CurrentOrZero(ps[i]) + value)
    ensures MapAll(ps, UserChallengeService.MetricUpdate(userId, DRIVING_SCORE, value, now))
            .value[i] == ps[i]
  {
    assert Step(MetricUpdate(userId, DRIVING_SCORE, value, now), ps[i]).Ok?;
    UserChallengeService.DrivingScoreIgnored(ps, userId, value, now);
  }

  /** The pass evaluateChallenges makes on `today`. */
  function Evaluation(today: int, isMonday: bool): Pass
  {
    EvaluatePass(today, isMonday, _ => None, false)
  }

  /** evaluateChallenges: every IN_PROGRESS record that ended before today
    * is settled against its stored progress, driving-score records only on
    * a Monday; the whole evaluation is rolled back when one record has a
    * null target or comparator. */
  method EvaluateChallenges(store: Store, today: int, isMonday: bool)
    returns (r: Result<(), ChallengeError>)
    requires store.Valid()
    modifies store
    ensures store.Valid()
    ensures store.challenges == old(store.challenges) && store.nextChallengeId == old(store.nextChallengeId)
    ensures store.nextParticipationId == old(store.nextParticipationId)
    ensures r.Ok? <==> MapAll(old(store.participations), Evaluation(today, isMonday)).Ok?
    ensures r.Ok? ==> store.participations == MapAll(old(store.participations), Evaluation(today, isMonday)).value
    ensures r.Err? ==> r.error == MapAll(old(store.participations), Evaluation(today, isMonday)).error
    ensures r.Err? ==> store.participations == old(store.participations)
  {
    r := store.ApplyPass(Evaluation(today, isMonday));
  }

  /** What an evaluation does to one record `uc`, leaving `q`: an expired
    * record that is evaluated is COMPLETED when its stored progress meets
    * the target and FAILED otherwise, and gets its reward only on success
    * when it had explicitly not received it, no other field changing; a
    * driving-score record is left alone on any day but Monday, and so is a
    * record that has not expired. */
  predicate Settled(uc: UserChallenge, q: UserChallenge, today: int, isMonday: bool)
  {
    (!Expired(uc, today) ==> q == uc) &&
    ((Expired(uc, today) && uc.targetMetric == Some(DRIVING_SCORE) && !isMonday) ==> q == uc) &&
    ((Expired(uc, today) && (uc.targetMetric != Some(DRIVING_SCORE) || isMonday)) ==>
      uc.comparator.Some? &&
      var success := Satisfied(uc.comparator.value, CurrentOrZero(uc), uc.targetValue);
      (q.status == ChallengeCompleted <==> success) &&
      (q.status == ChallengeFailed <==> !success) &&
      (q.rewardGiven == Some(true) <==>
         (success && uc.rewardGiven == Some(false)) || uc.rewardGiven == Some(true)) &&
      q == uc.(status := q.status, rewardGiven := q.rewardGiven))
  }

  /** One record that evaluates without error is settled as `Settled` says. */
  lemma SettledRecord(uc: UserChallenge, today: int, isMonday: bool)
    requires Step(Evaluation(today, isMonday), uc).Ok?
    ensures Settled(uc, Step(Evaluation(today, isMonday), uc).value, today, isMonday)
  {
  }

  /** An evaluation that succeeds settles every record as `Settled` says. */
  lemma EvaluationSettles(ps: seq<UserChallenge>, today: int, isMonday: bool)
    requires MapAll(ps, Evaluation(today, isMonday)).Ok?
    ensures var qs := MapAll(ps, Evaluation(today, isMonday)).value;
      forall i :: 0 <= i < |ps| ==> Settled(ps[i], qs[i], today, isMonday)
  {
    var p := Evaluation(today, isMonday);
    var qs := MapAll(ps, p).value;
    forall i | 0 <= i < |ps|
      ensures Settled(ps[i], qs[i], today, isMonday)
    {
      assert Step(p, ps[i]) == Ok(qs[i]);
      SettledRecord(ps[i], today, isMonday);
    }
  }

  /** On a Monday the variants part ways on an expired driving-score
    * record: this one judges the stored progress, the newer one the weekly
    * average. Off the driving score they settle every record alike. */
  lemma EvaluationsAgreeOffDrivingScore(uc: UserChallenge, today: int, isMonday: bool,
                                        weeklyAverage: int -> Option<int>)
    requires uc.targetMetric != Some(DRIVING_SCORE)
    ensures Step(Evaluation(today, isMonday), uc) ==
            Step(UserChallengeService.Evaluation(today, isMonday, weeklyAverage), uc)
  {
  }

  /** createWeeklyPersonalChallengesForUser, fed with the weekly score
    * answer, as in the newer variant but with this variant's reward. */
  method CreateWeeklyPersonalChallengesForUser(store: Store, userId: int, resp: UserScore.ScoreResponse,
                                               monday: int, today: int, now: int)
    returns (scoreChallenge: Option<UserChallenge>, riskChallenge: Option<UserChallenge>)
    requires store.Valid()
    modifies store
    ensures store.Valid()
    ensures store.challenges == old(store.challenges) && store.nextChallengeId == old(store.nextChallengeId)
    ensures scoreChallenge.Some? <==>
      resp.averageScore > 0 && !TracksAt(old(store.participations), userId, DRIVING_SCORE, monday)
    ensures scoreChallenge.Some? ==>
      scoreChallenge.value == ScoreChallenge(userId, resp.averageScore, SCORE_REWARD, monday, now)
                                .(userChallengeId := old(store.nextParticipationId))
    ensures UserScore.NoRiskCounts(resp) ==> riskChallenge.None?
    ensures store.participations == old(store.participations) + Created(scoreChallenge) + Created(riskChallenge)
  {
    scoreChallenge, riskChallenge := CreateWeeklyPersonalChallenges(
      store, userId, Some(resp.averageScore), resp.drowsinessCount, resp.phoneUsageCount, resp.smokingCount,
      SCORE_REWARD, monday, today, now);
  }
}
