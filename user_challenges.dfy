/** The operations both user-challenge services share, over the shared
  * tables of a `Store`: joining a common challenge, creating a personal one,
  * reporting progress on one record, and generating the weekly personal
  * challenges of a user. Every operation runs in one transaction: when it
  * throws, the tables are left as they were. */
module UserChallenges {
  import opened Common
  import opened Entities
  import opened ChallengeRules
  import opened ChallengeStore

  /** The comparator a participation in a common challenge is judged with. */
  const COMMON_COMPARATOR: string := ">="

  /** fromChallenge: a participation of `userId` in `ch` that copies the
    * challenge's metric, target, reward and period (its id is assigned when
    * it is saved). */
  function FromChallenge(userId: int, ch: Challenge, now: int): UserChallenge
  {
    UserChallenge(0, userId, Some(ch.challengeId), ch.title, ch.targetMetric, ch.targetValue,
                  Some(COMMON_COMPARATOR), ch.rewardInfo, Some(0), Some(false), InProgress,
                  Some(ch.startDate), Some(ch.endDate), now, None)
  }

  /** createCustom: a personal challenge of `userId`, tied to no common
    * challenge. */
  function Custom(userId: int, title: string, metric: string, target: int, comparator: string,
                  rewardInfo: string, start: int, end: int, now: int): UserChallenge
  {
    UserChallenge(0, userId, None, title, Some(metric), Some(target), Some(comparator), rewardInfo,
                  Some(0), Some(false), InProgress, Some(start), Some(end), now, None)
  }

  /** A participation just created by either factory is open, unrewarded,
    * has made no progress and starts on the date it is keyed by. */
  lemma FactoriesStartOpen(userId: int, ch: Challenge, title: string, metric: string, target: int,
                           comparator: string, rewardInfo: string, start: int, end: int, now: int)
    ensures var j := FromChallenge(userId, ch, now);
      j.status == InProgress && CurrentOrZero(j) == 0 && j.rewardGiven == Some(false) &&
      j.userId == userId && j.challengeId == Some(ch.challengeId) && j.startDate == Some(ch.startDate)
    ensures var c := Custom(userId, title, metric, target, comparator, rewardInfo, start, end, now);
      c.status == InProgress && CurrentOrZero(c) == 0 && c.rewardGiven == Some(false) &&
      c.userId == userId && c.challengeId.None? && c.targetMetric == Some(metric) &&
      c.startDate == Some(start) && c.targetValue == Some(target)
  {
  }

  /** updateProgress: the record with the given id gets the value added and
    * is completed when its comparator is met; a missing record is an error,
    * and so is a comparison against a null target. */
  method UpdateProgress(store: Store, userChallengeId: int, value: int, now: int)
    returns (r: Result<UserChallenge, ChallengeError>)
    requires store.Valid()
    modifies store
    ensures store.Valid()
    ensures store.challenges == old(store.challenges) && store.nextChallengeId == old(store.nextChallengeId)
    ensures store.nextParticipationId == old(store.nextParticipationId)
    ensures FindParticipation(old(store.participations), userChallengeId).None? ==>
      r == Err(UserChallengeNotFound)
    ensures FindParticipation(old(store.participations), userChallengeId).Some? ==>
      var i := FindParticipation(old(store.participations), userChallengeId).value;
      r == ProgressStep(old(store.participations)[i], value, now) &&
      (r.Ok? ==> store.participations == old(store.participations)[i := r.value])
    ensures r.Err? ==> store.participations == old(store.participations)
  {
    var found := FindParticipation(store.participations, userChallengeId);
    if found.None? {
      return Err(UserChallengeNotFound);
    }
    var i := found.value;
    r := ProgressStep(store.participations[i], value, now);
    if r.Ok? {
      store.Replace(i, r.value);
    }
  }

  /** joinCommonChallenge: the user and the challenge must exist and the user
    * must not already take part in it from the challenge's start date; the
    * saved participation copies the challenge, and joining again is then
    * rejected. */
  method JoinCommonChallenge(store: Store, userId: int, challengeId: int, now: int)
    returns (r: Result<UserChallenge, ChallengeError>)
    requires store.Valid()
    modifies store
    ensures store.Valid()
    ensures store.challenges == old(store.challenges) && store.nextChallengeId == old(store.nextChallengeId)
    ensures userId !in store.users ==> r == Err(UserNotFound)
    ensures userId in store.users && FindChallenge(store.challenges, challengeId).None? ==>
      r == Err(ChallengeNotFound)
    ensures userId in store.users && FindChallenge(store.challenges, challengeId).Some? ==>
      var ch := store.challenges[FindChallenge(store.challenges, challengeId).value];
      (JoinedAt(old(store.participations), userId, challengeId, ch.startDate) ==> r == Err(AlreadyJoined)) &&
      ((!JoinedAt(old(store.participations), userId, challengeId, ch.startDate) &&
        Participates(old(store.participations), userId, challengeId)) ==> r == Err(UniqueKeyViolation)) &&
      (r.Ok? ==> (r.value == FromChallenge(userId, ch, now).(userChallengeId := old(store.nextParticipationId)) &&
                  JoinedAt(store.participations, userId, challengeId, ch.startDate)))
    ensures r.Ok? <==> (userId in store.users && FindChallenge(store.challenges, challengeId).Some? &&
                        !Participates(old(store.participations), userId, challengeId))
    ensures r.Ok? ==> store.participations == old(store.participations) + [r.value]
    ensures r.Err? ==> store.participations == old(store.participations) &&
                       store.nextParticipationId == old(store.nextParticipationId)
  {
    if userId !in store.users {
      return Err(UserNotFound);
    }
    var found := FindChallenge(store.challenges, challengeId);
    if found.None? {
      return Err(ChallengeNotFound);
    }
    var ch := store.challenges[found.value];
    if JoinedAt(store.participations, userId, ch.challengeId, ch.startDate) {
      return Err(AlreadyJoined);
    }
    r := store.SaveParticipation(FromChallenge(userId, ch, now));
    if r.Ok? {
      assert store.participations[|store.participations| - 1] == r.value;
    }
  }

  /** The fields of a challenge-creation request; a request naming a common
    * challenge joins it, any other creates a personal challenge. */
  datatype CreateRequest = CreateRequest(
    userId: int,
    challengeId: Option<int>,
    title: string,
    targetMetric: string,
    targetValue: int,
    comparator: string,
    rewardInfo: string,
    startDate: int,
    endDate: int)

  /** The personal challenge a request creates. */
  function RequestedCustom(req: CreateRequest, now: int): UserChallenge
  {
    Custom(req.userId, req.title, req.targetMetric, req.targetValue, req.comparator, req.rewardInfo,
           req.startDate, req.endDate, now)
  }

  /** createUserChallenge: a request naming a common challenge is rejected
    * when the user already joined it from the requested start date; a
    * personal request is rejected when the user already tracks that metric
    * from that date, and only then when its target is negative. */
  method CreateUserChallenge(store: Store, req: CreateRequest, now: int)
    returns (r: Result<UserChallenge, ChallengeError>)
    requires store.Valid()
    modifies store
    ensures store.Valid()
    ensures store.challenges == old(store.challenges) && store.nextChallengeId == old(store.nextChallengeId)
    ensures req.userId !in store.users ==> r == Err(UserNotFound)
    ensures req.userId in store.users && req.challengeId.Some? ==>
      var found := FindChallenge(store.challenges, req.challengeId.value);
      (found.None? ==> r == Err(ChallengeNotFound)) &&
      (found.Some? && JoinedAt(old(store.participations), req.userId, req.challengeId.value, req.startDate) ==>
        r == Err(AlreadyJoined)) &&
      (found.Some? && !JoinedAt(old(store.participations), req.userId, req.challengeId.value, req.startDate) ==>
        (r.Ok? <==> !Participates(old(store.participations), req.userId, req.challengeId.value)) &&
        (r.Ok? ==> r.value == FromChallenge(req.userId, store.challenges[found.value], now)
                               .(userChallengeId := old(store.nextParticipationId))))
    ensures req.userId in store.users && req.challengeId.None? ==>
      var dup := TracksAt(old(store.participations), req.userId, req.targetMetric, req.startDate);
      (dup ==> r == Err(AlreadyCreated)) &&
      (!dup && req.targetValue < 0 ==> r == Err(NegativeTarget)) &&
      (!dup && req.targetValue >= 0 ==>
        r == Ok(RequestedCustom(req, now).(userChallengeId := old(store.nextParticipationId))))
    ensures r.Ok? ==> store.participations == old(store.participations) + [r.value]
    ensures r.Err? ==> store.participations == old(store.participations) &&
                       store.nextParticipationId == old(store.nextParticipationId)
  {
    if req.userId !in store.users {
      return Err(UserNotFound);
    }
    if req.challengeId.Some? {
      var found := FindChallenge(store.challenges, req.challengeId.value);
      if found.None? {
        return Err(ChallengeNotFound);
      }
      var ch := store.challenges[found.value];
      if JoinedAt(store.participations, req.userId, ch.challengeId, req.startDate) {
        return Err(AlreadyJoined);
      }
      r := store.SaveParticipation(FromChallenge(req.userId, ch, now));
      return;
    }
    if TracksAt(store.participations, req.userId, req.targetMetric, req.startDate) {
      return Err(AlreadyCreated);
    }
    if req.targetValue < 0 {
      return Err(NegativeTarget);
    }
    r := store.SaveParticipation(RequestedCustom(req, now));
  }

  /** The max search over the metric entries, as the services write it: the
    * best so far starts at -1 and is replaced only by a strictly greater
    * count, so the first of equal maxima wins. */
  method FindMaxMetric(entries: seq<(string, int)>) returns (maxMetric: Option<string>, maxValue: int)
    ensures maxMetric.None? <==> MaxMetric(entries).None?
    ensures maxMetric.None? ==> maxValue == -1
    ensures maxMetric.Some? ==> MaxMetric(entries) == Some((maxMetric.value, maxValue))
  {
    maxMetric := None;
    maxValue := -1;
    for i := 0 to |entries|
      invariant maxMetric.None? <==> MaxMetric(entries[..i]).None?
      invariant maxMetric.None? ==> maxValue == -1
      invariant maxMetric.Some? ==> MaxMetric(entries[..i]) == Some((maxMetric.value, maxValue))
    {
      assert entries[..i + 1][..i] == entries[..i];
      if entries[i].1 > maxValue {
        maxMetric := Some(entries[i].0);
        maxValue := entries[i].1;
      }
    }
    assert entries[..|entries|] == entries;
  }

  /** A personal challenge of another metric than `metric` does not make
    * the user track `metric`. */
  lemma TracksAtOther(ps: seq<UserChallenge>, uc: UserChallenge, userId: int, metric: string, start: int)
    requires uc.targetMetric != Some(metric)
    ensures TracksAt(ps + [uc], userId, metric, start) <==> TracksAt(ps, userId, metric, start)
  {
    if TracksAt(ps + [uc], userId, metric, start) {
      var i :| 0 <= i < |ps + [uc]| && (ps + [uc])[i].userId == userId &&
        (ps + [uc])[i].targetMetric == Some(metric) && (ps + [uc])[i].startDate == Some(start);
      assert i < |ps| && ps[i] == (ps + [uc])[i];
    }
    if TracksAt(ps, userId, metric, start) {
      var i :| 0 <= i < |ps| && ps[i].userId == userId && ps[i].targetMetric == Some(metric) &&
        ps[i].startDate == Some(start);
      assert (ps + [uc])[i] == ps[i];
    }
  }

  /** The score challenge a user gets for the week starting `monday`, when
    * the weekly average is positive. */
  function ScoreChallenge(userId: int, avg: int, reward: string, monday: int, now: int): UserChallenge
  {
    Custom(userId, SCORE_TITLE, DRIVING_SCORE, ScoreTarget(avg), ">=", reward, monday, monday + 6, now)
  }

  /** The risk challenge for the most frequent risk behaviour `metric`,
    * seen `count` times, running for seven days from `today`. */
  function RiskChallenge(userId: int, metric: string, count: int, today: int, now: int): UserChallenge
    requires CHALLENGE_THRESHOLD <= count < SUSPICIOUS_THRESHOLD
  {
    Custom(userId, RiskTitle(metric), metric, RiskTarget(count), "<=", RISK_REWARD, today, today + 6, now)
  }

  /** The records an optional creation adds. */
  function Created(o: Option<UserChallenge>): (s: seq<UserChallenge>)
    ensures |s| <= 1
  {
    if o.Some? then [o.value] else []
  }

  /** The most frequent risk behaviour is one of the three risk metrics,
    * never the driving score. */
  lemma MaxMetricIsRisk(drowsiness: Option<int>, phoneUsage: Option<int>, smoking: Option<int>)
    ensures var m := MaxMetric(MetricEntries(drowsiness, phoneUsage, smoking));
      m.Some? ==> m.value.0 in {DROWSINESS_COUNT, PHONE_USAGE_COUNT, SMOKING_COUNT} && m.value.0 != DRIVING_SCORE
  {
    var entries := MetricEntries(drowsiness, phoneUsage, smoking);
    var m := MaxMetric(entries);
    if m.Some? {
      var i :| 0 <= i < |entries| && entries[i] == m.value &&
        forall k :: 0 <= k < i ==> entries[k].1 < m.value.1;
      assert entries[i].0 in {DROWSINESS_COUNT, PHONE_USAGE_COUNT, SMOKING_COUNT};
    }
  }

  /** The first half of the weekly generation: a score challenge ten points
    * above a positive weekly average (capped at 100), unless the user
    * already tracks the driving score from this Monday. */
  method CreateScoreChallenge(store: Store, userId: int, avg: Option<int>, reward: string, monday: int, now: int)
    returns (created: Option<UserChallenge>)
    requires store.Valid()
    modifies store
    ensures store.Valid()
    ensures store.challenges == old(store.challenges) && store.nextChallengeId == old(store.nextChallengeId)
    ensures created.Some? <==>
      avg.Some? && avg.value > 0 && !TracksAt(old(store.participations), userId, DRIVING_SCORE, monday)
    ensures created.Some? ==>
      created.value == ScoreChallenge(userId, avg.value, reward, monday, now)
                         .(userChallengeId := old(store.nextParticipationId))
    ensures store.participations == old(store.participations) + Created(created)
    ensures store.nextParticipationId == old(store.nextParticipationId) + |Created(created)|
  {
    created := None;
    if avg.Some? && avg.value > 0 && !TracksAt(store.participations, userId, DRIVING_SCORE, monday) {
      var saved := store.SaveParticipation(ScoreChallenge(userId, avg.value, reward, monday, now));
      created := Some(saved.value);
    }
  }

  /** The second half: a risk challenge for the most frequent risk
    * behaviour, when it was seen at least 10 and fewer than 100 times and
    * the user does not already track that metric from today. A count of
    * 100 or more only flags the account, creating nothing. */
  method CreateRiskChallenge(store: Store, userId: int,
                             drowsiness: Option<int>, phoneUsage: Option<int>, smoking: Option<int>,
                             today: int, now: int)
    returns (created: Option<UserChallenge>)
    requires store.Valid()
    modifies store
    ensures store.Valid()
    ensures store.challenges == old(store.challenges) && store.nextChallengeId == old(store.nextChallengeId)
    ensures var m := MaxMetric(MetricEntries(drowsiness, phoneUsage, smoking));
      created.Some? <==>
        (m.Some? && CHALLENGE_THRESHOLD <= m.value.1 < SUSPICIOUS_THRESHOLD &&
         !TracksAt(old(store.participations), userId, m.value.0, today))
    ensures var m := MaxMetric(MetricEntries(drowsiness, phoneUsage, smoking));
      created.Some? ==>
        (m.Some? && CHALLENGE_THRESHOLD <= m.value.1 < SUSPICIOUS_THRESHOLD &&
         created.value == RiskChallenge(userId, m.value.0, m.value.1, today, now)
                            .(userChallengeId := old(store.nextParticipationId)))
    ensures store.participations == old(store.participations) + Created(created)
    ensures store.nextParticipationId == old(store.nextParticipationId) + |Created(created)|
  {
    created := None;
    var maxMetric, maxValue := FindMaxMetric(MetricEntries(drowsiness, phoneUsage, smoking));
    if maxMetric.Some? && CHALLENGE_THRESHOLD <= maxValue < SUSPICIOUS_THRESHOLD {
      if !TracksAt(store.participations, userId, maxMetric.value, today) {
        var saved := store.SaveParticipation(RiskChallenge(userId, maxMetric.value, maxValue, today, now));
        created := Some(saved.value);
      }
    }
  }

  /** createWeeklyPersonalChallengesForUser: the score challenge, then the
    * risk challenge, each created under its own condition; the score
    * challenge never hides a risk challenge, because it tracks another
    * metric. */
  method CreateWeeklyPersonalChallenges(store: Store, userId: int, avg: Option<int>,
                                        drowsiness: Option<int>, phoneUsage: Option<int>, smoking: Option<int>,
                                        scoreReward: string, monday: int, today: int, now: int)
    returns (scoreChallenge: Option<UserChallenge>, riskChallenge: Option<UserChallenge>)
    requires store.Valid()
    modifies store
    ensures store.Valid()
    ensures store.challenges == old(store.challenges) && store.nextChallengeId == old(store.nextChallengeId)
    ensures scoreChallenge.Some? <==>
      avg.Some? && avg.value > 0 && !TracksAt(old(store.participations), userId, DRIVING_SCORE, monday)
    ensures scoreChallenge.Some? ==>
      scoreChallenge.value == ScoreChallenge(userId, avg.value, scoreReward, monday, now)
                                .(userChallengeId := old(store.nextParticipationId))
    ensures var m := MaxMetric(MetricEntries(drowsiness, phoneUsage, smoking));
      riskChallenge.Some? <==>
        (m.Some? && CHALLENGE_THRESHOLD <= m.value.1 < SUSPICIOUS_THRESHOLD &&
         !TracksAt(old(store.participations), userId, m.value.0, today))
    ensures var m := MaxMetric(MetricEntries(drowsiness, phoneUsage, smoking));
      riskChallenge.Some? ==>
        (m.Some? && CHALLENGE_THRESHOLD <= m.value.1 < SUSPICIOUS_THRESHOLD &&
         riskChallenge.value == RiskChallenge(userId, m.value.0, m.value.1, today, now)
           .(userChallengeId := old(store.nextParticipationId) + |Created(scoreChallenge)|))
    ensures store.participations == old(store.participations) + Created(scoreChallenge) + Created(riskChallenge)
  {
    var before := store.participations;
    scoreChallenge := CreateScoreChallenge(store, userId, avg, scoreReward, monday, now);
    MaxMetricIsRisk(drowsiness, phoneUsage, smoking);
    var m := MaxMetric(MetricEntries(drowsiness, phoneUsage, smoking));
    if scoreChallenge.None? {
      assert store.participations == before;
    } else if m.Some? {
      TracksAtOther(before, scoreChallenge.value, userId, m.value.0, today);
    }
    riskChallenge := CreateRiskChallenge(store, userId, drowsiness, phoneUsage, smoking, today, now);
  }
}
