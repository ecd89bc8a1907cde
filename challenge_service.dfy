/** The common-challenge service: creating a challenge, which must not
  * repeat the title and period of an existing one; looking a challenge up;
  * and joining one, at most once per user. */
module ChallengeService {
  import opened Common
  import opened Entities
  import opened ChallengeRules
  import opened ChallengeStore

  /** The fields of a challenge-creation request that the challenge keeps. */
  datatype ChallengeRequest = ChallengeRequest(
    title: string,
    description: string,
    targetValue: int,
    targetMetric: string,
    rewardInfo: string,
    startDate: int,
    endDate: int)

  /** The challenge a request describes, with the id it is saved under. */
  function Requested(id: int, req: ChallengeRequest): Challenge
  {
    Challenge(id, req.title, req.description, Some(req.targetValue), Some(req.targetMetric), req.rewardInfo,
              req.startDate, req.endDate)
  }

  /** createChallenge: rejected exactly when a challenge with the same
    * title and period exists; otherwise the table grows by exactly the new
    * challenge, whose id is returned, and creating it again is rejected. */
  method CreateChallenge(store: Store, req: ChallengeRequest) returns (r: Result<int, ChallengeError>)
    requires store.Valid()
    modifies store
    ensures store.Valid()
    ensures store.participations == old(store.participations)
    ensures store.nextParticipationId == old(store.nextParticipationId)
    ensures r.Err? <==> ChallengeExists(old(store.challenges), req.title, req.startDate, req.endDate)
    ensures r.Err? ==> (r.error == DuplicateChallenge && store.challenges == old(store.challenges) &&
                        store.nextChallengeId == old(store.nextChallengeId))
    ensures r.Ok? ==> (r.value == old(store.nextChallengeId) &&
                       store.challenges == old(store.challenges) + [Requested(r.value, req)] &&
                       ChallengeExists(store.challenges, req.title, req.startDate, req.endDate))
  {
    if ChallengeExists(store.challenges, req.title, req.startDate, req.endDate) {
      return Err(DuplicateChallenge);
    }
    var saved := store.SaveChallenge(Requested(0, req));
    assert saved.Ok?;
    assert store.challenges[|store.challenges| - 1] == saved.value;
    r := Ok(saved.value.challengeId);
  }

  /** getChallengeById: the challenge with that id, or not-found. */
  method GetChallengeById(store: Store, challengeId: int) returns (r: Result<Challenge, ChallengeError>)
    ensures r.Ok? <==> exists i :: 0 <= i < |store.challenges| && store.challenges[i].challengeId == challengeId
    ensures r.Ok? ==> r.value in store.challenges && r.value.challengeId == challengeId
    ensures r.Err? ==> r.error == ChallengeNotFound
  {
    var found := FindChallenge(store.challenges, challengeId);
    if found.None? {
      return Err(ChallengeNotFound);
    }
    r := Ok(store.challenges[found.value]);
  }

  /** joinChallenge: an existing participation of the user in the
    * challenge is rejected before anything is looked up; then the user and
    * the challenge must exist. A successful join saves exactly one fresh
    * IN_PROGRESS participation and answers true; it never answers false. */
  method JoinChallenge(store: Store, challengeId: int, userId: int, now: int) returns (r: Result<bool, ChallengeError>)
    requires store.Valid()
    modifies store
    ensures store.Valid()
    ensures store.challenges == old(store.challenges) && store.nextChallengeId == old(store.nextChallengeId)
    ensures Participates(old(store.participations), userId, challengeId) ==> r == Err(DuplicateParticipation)
    ensures !Participates(old(store.participations), userId, challengeId) && userId !in store.users ==>
      r == Err(UserNotFound)
    ensures (!Participates(old(store.participations), userId, challengeId) && userId in store.users &&
             FindChallenge(store.challenges, challengeId).None?) ==> r == Err(ChallengeNotFound)
    ensures r.Ok? <==> (!Participates(old(store.participations), userId, challengeId) && userId in store.users &&
                        FindChallenge(store.challenges, challengeId).Some?)
    ensures r.Ok? ==>
      var ch := store.challenges[FindChallenge(store.challenges, challengeId).value];
      r.value && store.participations == old(store.participations) + [Joined(old(store.nextParticipationId), userId, ch, now)] &&
      Participates(store.participations, userId, challengeId)
    ensures r.Err? ==> store.participations == old(store.participations) &&
                       store.nextParticipationId == old(store.nextParticipationId)
  {
    if Participates(store.participations, userId, challengeId) {
      return Err(DuplicateParticipation);
    }
    if userId !in store.users {
      return Err(UserNotFound);
    }
    var found := FindChallenge(store.challenges, challengeId);
    if found.None? {
      return Err(ChallengeNotFound);
    }
    var ch := store.challenges[found.value];
    var saved := store.SaveParticipation(Joined(0, userId, ch, now));
    assert saved.Ok?;
    assert store.participations[|store.participations| - 1] == saved.value;
    r := Ok(true);
  }
}
