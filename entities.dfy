/** The persistent records the services read and update: an analysis result,
  * a challenge, a user's participation in a challenge, and the user who owns
  * the participations. Dates are day numbers and instants are milliseconds. */
module Entities {
  import opened Common

  datatype AnalysisStatus = Completed | Partial | Failed

  datatype ChallengeStatus = InProgress | ChallengeCompleted | ChallengeFailed

  /** The score every result starts from; no deduction is applied yet. */
  const BASE_SCORE: int := 100

  /** The floor applied to a computed score (`Math.max(0, score)`). */
  function ClampScore(score: int): (r: int)
    ensures r >= 0 && r >= score
    ensures score >= 0 ==> r == score
    ensures score < 0 ==> r == 0
  {
    Max(0, score)
  }

  /** The outcome of one finished driving session. The counts are nullable
    * boxed integers in the source, hence `Option`. */
  class AnalysisResult {
    const userId: int
    var drowsinessCount: Option<int>
    var phoneUsageCount: Option<int>
    var smokingCount: Option<int>
    var totalDuration: Option<int>
    var drivingScore: Option<int>
    var analyzedAt: int
    var status: AnalysisStatus

    /** createAnalysisResult: copies the counts and the duration, stamps the
      * analysis time, marks the result COMPLETED and scores it. */
    constructor Create(userId: int, drowsinessCount: Option<int>, phoneUsageCount: Option<int>,
                       smokingCount: Option<int>, totalDuration: Option<int>, now: int)
      ensures this.userId == userId
      ensures this.drowsinessCount == drowsinessCount && this.phoneUsageCount == phoneUsageCount
      ensures this.smokingCount == smokingCount && this.totalDuration == totalDuration
      ensures analyzedAt == now && status == Completed
      ensures drivingScore == Some(BASE_SCORE) && drivingScore.value >= 0
    {
      this.userId := userId;
      this.drowsinessCount := drowsinessCount;
      this.phoneUsageCount := phoneUsageCount;
      this.smokingCount := smokingCount;
      this.totalDuration := totalDuration;
      analyzedAt := now;
      status := Completed;
      new;
      CalculateScore();
    }

    /** calculateScore: the score is the base score floored at zero, which is
      * always 100; nothing else about the result changes. */
    method CalculateScore()
      modifies this
      ensures drivingScore == Some(BASE_SCORE) && drivingScore.value >= 0
      ensures drowsinessCount == old(drowsinessCount) && phoneUsageCount == old(phoneUsageCount)
      ensures smokingCount == old(smokingCount) && totalDuration == old(totalDuration)
      ensures analyzedAt == old(analyzedAt) && status == old(status)
    {
      var score := BASE_SCORE;
      drivingScore := Some(ClampScore(score));
    }
  }

  /** A challenge offered to every user. `(title, startDate, endDate)` is a
    * unique key of the challenge table. */
  datatype Challenge = Challenge(
    challengeId: int,
    title: string,
    description: string,
    targetValue: Option<int>,
    targetMetric: Option<string>,
    rewardInfo: string,
    startDate: int,
    endDate: int)

  /** A user's participation in a challenge, or a personal challenge of the
    * user's own. The metric, target, comparator and dates are read by both
    * challenge services; the nullable ones are `Option`s. */
  datatype UserChallenge = UserChallenge(
    userChallengeId: int,
    userId: int,
    challengeId: Option<int>,
    title: string,
    targetMetric: Option<string>,
    targetValue: Option<int>,
    comparator: Option<string>,
    rewardInfo: string,
    currentValue: Option<int>,
    rewardGiven: Option<bool>,
    status: ChallengeStatus,
    startDate: Option<int>,
    endDate: Option<int>,
    joinedAt: int,
    completedAt: Option<int>)

  /** The progress recorded so far; a missing value counts as zero. */
  function CurrentOrZero(uc: UserChallenge): int
  {
    uc.currentValue.GetOrElse(0)
  }

  /** The participation that joinChallenge creates for `userId` in `ch`,
    * before it is saved (its id is assigned by the table). */
  function Joined(id: int, userId: int, ch: Challenge, now: int): UserChallenge
  {
    UserChallenge(id, userId, Some(ch.challengeId), ch.title, None, None, None, "",
                  Some(0), Some(false), InProgress, None, None, now, None)
  }

  /** A fresh participation has made no progress, is open and unrewarded,
    * and belongs to the given user and challenge. */
  lemma JoinedStartsOpen(id: int, userId: int, ch: Challenge, now: int)
    ensures var uc := Joined(id, userId, ch, now);
      CurrentOrZero(uc) == 0 && uc.status == InProgress && uc.rewardGiven == Some(false) &&
      uc.completedAt.None? && uc.userId == userId && uc.challengeId == Some(ch.challengeId)
  {
  }

  /** The owner of participations, holding them in a list. */
  class User {
    const userId: int
    var challenges: seq<UserChallenge>

    constructor(userId: int)
      ensures this.userId == userId && challenges == []
    {
      this.userId := userId;
      challenges := [];
    }

    /** setUser seen from the user's side: the participation now belongs to
      * this user and is appended to the user's list, which grows by one. */
    method Attach(uc: UserChallenge) returns (attached: UserChallenge)
      modifies this
      ensures attached == uc.(userId := userId)
      ensures challenges == old(challenges) + [attached]
      ensures |challenges| == |old(challenges)| + 1
    {
      attached := uc.(userId := userId);
      challenges := challenges + [attached];
    }
  }

  /** joinChallenge: builds the participation of `user` in `ch` and attaches
    * it to the user's list. */
  method JoinChallenge(id: int, user: User, ch: Challenge, now: int) returns (uc: UserChallenge)
    modifies user
    ensures uc == Joined(id, user.userId, ch, now)
    ensures user.challenges == old(user.challenges) + [uc]
  {
    uc := Joined(id, user.userId, ch, now);
    uc := user.Attach(uc);
  }
}
