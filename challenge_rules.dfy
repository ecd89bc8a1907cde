/** The rules both user-challenge services apply to a participation: how
  * progress accumulates, when a comparator is satisfied, how an expired
  * challenge is settled, and how the weekly personal challenges are chosen.
  * A pass over the participation table is a `Pass` applied to every record;
  * a pass fails as a whole when one record throws, because the surrounding
  * transaction is rolled back. */
module ChallengeRules {
  import opened Common
  import opened Entities

  datatype ChallengeError =
    | UserNotFound
    | ChallengeNotFound
    | UserChallengeNotFound
    | DuplicateChallenge
    | DuplicateParticipation
    | AlreadyJoined
    | AlreadyCreated
    | NegativeTarget
    | NullTarget
    | NullComparator
    | UniqueKeyViolation

  const DRIVING_SCORE: string := "driving_score"
  const DROWSINESS_COUNT: string := "drowsiness_count"
  const PHONE_USAGE_COUNT: string := "phone_usage_count"
  const SMOKING_COUNT: string := "smoking_count"

  /** The identity of a participation: its id, its owner and its challenge. */
  predicate SameIdentity(a: UserChallenge, b: UserChallenge)
  {
    a.userChallengeId == b.userChallengeId && a.userId == b.userId && a.challengeId == b.challengeId
  }

  /** The comparators the services understand. */
  predicate IsComparison(cmp: string)
  {
    cmp == ">=" || cmp == "<="
  }

  /** `value` meets `target` under `cmp`; any other comparator never does. */
  predicate Satisfied(cmp: string, value: int, target: Option<int>)
  {
    (cmp == ">=" && target.Some? && value >= target.value) ||
    (cmp == "<=" && target.Some? && value <= target.value)
  }

  /** The comparator switch: comparing against a null target unboxes it and
    * throws; an unknown comparator is simply not satisfied. */
  function Judge(cmp: string, value: int, target: Option<int>): (r: Result<bool, ChallengeError>)
    ensures r.Err? <==> IsComparison(cmp) && target.None?
    ensures r.Err? ==> r.error == NullTarget
    ensures r.Ok? ==> (r.value <==> Satisfied(cmp, value, target))
  {
    if cmp == ">=" then (if target.None? then Err(NullTarget) else Ok(value >= target.value))
    else if cmp == "<=" then (if target.None? then Err(NullTarget) else Ok(value <= target.value))
    else Ok(false)
  }

  /** Raising a value never loses ">=", lowering it never loses "<=". */
  lemma SatisfiedMonotone(cmp: string, lower: int, higher: int, target: Option<int>)
    requires lower <= higher
    ensures cmp == ">=" && Satisfied(cmp, lower, target) ==> Satisfied(cmp, higher, target)
    ensures cmp == "<=" && Satisfied(cmp, higher, target) ==> Satisfied(cmp, lower, target)
  {
  }

  /** updateProgress on one record: the value is added to the progress
    * (null progress counting as 0) and, when the comparator is met, a
    * challenge that is not yet COMPLETED becomes COMPLETED at `now`. */
  function ProgressStep(uc: UserChallenge, value: int, now: int): (r: Result<UserChallenge, ChallengeError>)
    ensures r.Err? <==> uc.comparator.Some? && IsComparison(uc.comparator.value) && uc.targetValue.None?
    ensures r.Ok? ==> (SameIdentity(uc, r.value) &&
      r.value == uc.(currentValue := Some(CurrentOrZero(uc) + value),
                     status := r.value.status, completedAt := r.value.completedAt))
    ensures r.Ok? && uc.status == ChallengeCompleted ==>
      r.value.status == ChallengeCompleted && r.value.completedAt == uc.completedAt
    ensures r.Ok? && uc.status != ChallengeCompleted ==>
      var met := uc.comparator.Some? && Satisfied(uc.comparator.value, CurrentOrZero(uc) + value, uc.targetValue);
      (met ==> r.value.status == ChallengeCompleted && r.value.completedAt == Some(now)) &&
      (!met ==> r.value.status == uc.status && r.value.completedAt == uc.completedAt)
  {
    var updated := CurrentOrZero(uc) + value;
    var next := uc.(currentValue := Some(updated));
    if uc.comparator.None? then Ok(next)
    else
      var done := Judge(uc.comparator.value, updated, uc.targetValue);
      if done.Err? then Err(done.error)
      else if done.value && uc.status != ChallengeCompleted then
        Ok(next.(status := ChallengeCompleted, completedAt := Some(now)))
      else Ok(next)
  }

  /** Two progress reports add up: progress is the sum of the reported
    * values, whatever the comparator decided in between. */
  lemma ProgressAccumulates(uc: UserChallenge, v1: int, v2: int, now1: int, now2: int)
    requires ProgressStep(uc, v1, now1).Ok?
    ensures var once := ProgressStep(uc, v1, now1).value;
      ProgressStep(once, v2, now2).Ok? &&
      ProgressStep(once, v2, now2).value.currentValue == Some(CurrentOrZero(uc) + v1 + v2)
  {
  }

  /** The per-record update of updateProgressByMetric: as updateProgress,
    * except that the status is not checked first (only IN_PROGRESS records
    * are selected) and a null comparator only records the progress. */
  function MetricStep(uc: UserChallenge, value: int, now: int): (r: Result<UserChallenge, ChallengeError>)
    ensures r.Err? <==> uc.comparator.Some? && IsComparison(uc.comparator.value) && uc.targetValue.None?
    ensures r.Ok? ==> SameIdentity(uc, r.value) && r.value.currentValue == Some(CurrentOrZero(uc) + value)
    ensures r.Ok? ==>
      var met := uc.comparator.Some? && Satisfied(uc.comparator.value, CurrentOrZero(uc) + value, uc.targetValue);
      (met ==> r.value == uc.(currentValue := Some(CurrentOrZero(uc) + value),
                              status := ChallengeCompleted, completedAt := Some(now))) &&
      (!met ==> r.value == uc.(currentValue := Some(CurrentOrZero(uc) + value)))
  {
    var updated := CurrentOrZero(uc) + value;
    var next := uc.(currentValue := Some(updated));
    if uc.comparator.None? then Ok(next)
    else
      var done := Judge(uc.comparator.value, updated, uc.targetValue);
      if done.Err? then Err(done.error)
      else if done.value then Ok(next.(status := ChallengeCompleted, completedAt := Some(now)))
      else Ok(next)
  }

  /** An expired record is settled against `curr`: COMPLETED when the
    * comparator is met, FAILED otherwise; the reward is granted only on
    * success and only when it was explicitly not yet given. Switching on a
    * null comparator throws. */
  function Settle(uc: UserChallenge, curr: int): (r: Result<UserChallenge, ChallengeError>)
    ensures r.Err? <==> uc.comparator.None?
    ensures r.Err? ==> r.error == NullComparator
    ensures r.Ok? ==>
      var success := Satisfied(uc.comparator.value, curr, uc.targetValue);
      SameIdentity(uc, r.value) && r.value.currentValue == uc.currentValue &&
      (r.value.status == ChallengeCompleted <==> success) &&
      (r.value.status == ChallengeFailed <==> !success) &&
      (r.value.rewardGiven == Some(true) <==> (success && uc.rewardGiven == Some(false)) || uc.rewardGiven == Some(true)) &&
      r.value == uc.(status := r.value.status, rewardGiven := r.value.rewardGiven)
  {
    if uc.comparator.None? then Err(NullComparator)
    else
      var success := Satisfied(uc.comparator.value, curr, uc.targetValue);
      Ok(uc.(status := if success then ChallengeCompleted else ChallengeFailed,
             rewardGiven := if success && uc.rewardGiven == Some(false) then Some(true) else uc.rewardGiven))
  }

  /** A record evaluateChallenges selects: still IN_PROGRESS and ended before
    * today (a record without an end date is never selected). */
  predicate Expired(uc: UserChallenge, today: int)
  {
    uc.status == InProgress && uc.endDate.Some? && uc.endDate.value < today
  }

  /** A record updateProgressByMetric selects. */
  predicate Tracks(uc: UserChallenge, userId: int, metric: string)
  {
    uc.userId == userId && uc.targetMetric == Some(metric) && uc.status == InProgress
  }

  /** A pass over the participation table, with what distinguishes the two
    * services: whether `driving_score` progress is ignored, and whether an
    * expired `driving_score` challenge is judged against the weekly average
    * score (`weeklyAverage`, by user) instead of its stored progress. */
  datatype Pass =
    | MetricPass(userId: int, metric: string, value: int, now: int, skipDrivingScore: bool)
    | EvaluatePass(today: int, isMonday: bool, weeklyAverage: int -> Option<int>, useWeeklyAverage: bool)

  /** What a pass does to one record. */
  function Step(p: Pass, uc: UserChallenge): (r: Result<UserChallenge, ChallengeError>)
    ensures r.Ok? ==> SameIdentity(uc, r.value)
  {
    match p
    case MetricPass(userId, metric, value, now, skip) =>
      if !Tracks(uc, userId, metric) then Ok(uc)
      else if skip && metric == DRIVING_SCORE then Ok(uc)
      else MetricStep(uc, value, now)
    case EvaluatePass(today, isMonday, weeklyAverage, useAverage) =>
      if !Expired(uc, today) then Ok(uc)
      else if uc.targetValue.None? then Err(NullTarget)
      else if uc.targetMetric == Some(DRIVING_SCORE) && !isMonday then Ok(uc)
      else if uc.targetMetric == Some(DRIVING_SCORE) && useAverage then
        (if weeklyAverage(uc.userId).None? then Ok(uc) else Settle(uc, weeklyAverage(uc.userId).value))
      else Settle(uc, CurrentOrZero(uc))
  }

  /** A pass over every record, in table order; the first record that throws
    * makes the whole pass fail. */
  function MapAll(ps: seq<UserChallenge>, p: Pass): (r: Result<seq<UserChallenge>, ChallengeError>)
    ensures r.Ok? <==> forall i :: 0 <= i < |ps| ==> Step(p, ps[i]).Ok?
    ensures r.Ok? ==> |r.value| == |ps| && forall i :: 0 <= i < |ps| ==> Step(p, ps[i]) == Ok(r.value[i])
    ensures r.Err? ==> exists j :: (0 <= j < |ps| && Step(p, ps[j]) == Err(r.error) &&
      forall k :: 0 <= k < j ==> Step(p, ps[k]).Ok?)
  {
    if ps == [] then Ok([])
    else
      var first := Step(p, ps[0]);
      if first.Err? then Err(first.error)
      else
        var rest := MapAll(ps[1..], p);
        if rest.Err? then
          var j :| 0 <= j < |ps[1..]| && Step(p, ps[1..][j]) == Err(rest.error) &&
            forall k :: 0 <= k < j ==> Step(p, ps[1..][k]).Ok?;
          assert Step(p, ps[j + 1]) == Err(rest.error);
          assert forall k :: 0 <= k < j + 1 ==> Step(p, ps[k]).Ok? by {
            forall k | 0 <= k < j + 1
              ensures Step(p, ps[k]).Ok?
            {
              if k > 0 {
                assert ps[k] == ps[1..][k - 1];
              }
            }
          }
          Err(rest.error)
        else
          assert forall i :: 1 <= i < |ps| ==> ps[i] == ps[1..][i - 1];
          Ok([first.value] + rest.value)
  }

  // ---------------------------------------------------------------------------
  // Weekly personal challenges

  /** The weekly score challenge's target: ten points above the average,
    * capped at 100. */
  function ScoreTarget(avg: int): (t: int)
    ensures t <= 100
    ensures avg <= 90 ==> t == avg + 10
    ensures avg >= 90 ==> t == 100
    ensures avg <= 100 ==> t >= avg
  {
    Min(avg + 10, 100)
  }

  /** Fewest occurrences that earn a risk challenge, and the count from which
    * an account is only flagged as suspicious instead. */
  const CHALLENGE_THRESHOLD: int := 10
  const SUSPICIOUS_THRESHOLD: int := 100

  /** The risk challenge's target: half the week's count, rounded down. */
  function RiskTarget(maxValue: int): (t: int)
    requires CHALLENGE_THRESHOLD <= maxValue < SUSPICIOUS_THRESHOLD
    ensures 2 * t <= maxValue <= 2 * t + 1
    ensures 5 <= t < 50 && t < maxValue
  {
    JavaDiv(maxValue, 2)
  }

  /** The risk counts that are present, in the order a default HashMap
    * holding the three metric keys iterates them (drowsiness_count,
    * phone_usage_count, smoking_count, by their string hash buckets). */
  function MetricEntries(drowsiness: Option<int>, phoneUsage: Option<int>, smoking: Option<int>)
    : (e: seq<(string, int)>)
    ensures |e| <= 3
    ensures forall i :: 0 <= i < |e| ==> e[i].0 in {DROWSINESS_COUNT, PHONE_USAGE_COUNT, SMOKING_COUNT}
  {
    (if drowsiness.Some? then [(DROWSINESS_COUNT, drowsiness.value)] else []) +
    (if phoneUsage.Some? then [(PHONE_USAGE_COUNT, phoneUsage.value)] else []) +
    (if smoking.Some? then [(SMOKING_COUNT, smoking.value)] else [])
  }

  /** The max search: starting from -1, an entry replaces the best so far
    * only when strictly greater, so the first of equal maxima wins. */
  function MaxMetric(entries: seq<(string, int)>): (m: Option<(string, int)>)
    ensures m.None? <==> forall i :: 0 <= i < |entries| ==> entries[i].1 <= -1
    ensures m.Some? ==> m.value.1 > -1 && exists i :: (0 <= i < |entries| && entries[i] == m.value &&
      forall k :: 0 <= k < i ==> entries[k].1 < m.value.1)
    ensures m.Some? ==> forall i :: 0 <= i < |entries| ==> entries[i].1 <= m.value.1
    decreases |entries|
  {
    if entries == [] then None
    else
      var prev := MaxMetric(entries[..|entries| - 1]);
      var last := entries[|entries| - 1];
      assert forall i :: 0 <= i < |entries| - 1 ==> entries[..|entries| - 1][i] == entries[i];
      if (prev.None? && last.1 > -1) || (prev.Some? && last.1 > prev.value.1) then Some(last)
      else prev
  }

  /** The title of a risk challenge, by metric. */
  function RiskTitle(metric: string): string
  {
    if metric == SMOKING_COUNT then "smoking reduction challenge"
    else if metric == DROWSINESS_COUNT then "drowsiness reduction challenge"
    else if metric == PHONE_USAGE_COUNT then "phone use reduction challenge"
    else "risk reduction challenge"
  }

  const SCORE_TITLE: string := "weekly score challenge"
  const RISK_REWARD: string := "personal reward"
}
