/** The two tables the challenge services share: the challenges, whose
  * `(title, startDate, endDate)` is a unique key, and the participations,
  * where `(user, challenge)` is a unique key. Ids are assigned on insert. */
module ChallengeStore {
  import opened Common
  import opened Entities
  import opened ChallengeRules

  predicate SameChallengeKey(a: Challenge, b: Challenge)
  {
    a.title == b.title && a.startDate == b.startDate && a.endDate == b.endDate
  }

  /** Both unique keys hold and every id is below the next one to assign. */
  predicate ChallengesValid(cs: seq<Challenge>, nextId: int)
  {
    (forall i, j :: 0 <= i < j < |cs| ==> !SameChallengeKey(cs[i], cs[j]) && cs[i].challengeId != cs[j].challengeId) &&
    (forall i :: 0 <= i < |cs| ==> cs[i].challengeId < nextId)
  }

  predicate ParticipationsValid(ps: seq<UserChallenge>, nextId: int)
  {
    (forall i, j :: 0 <= i < j < |ps| ==>
      ps[i].userChallengeId != ps[j].userChallengeId &&
      !(ps[i].challengeId.Some? && ps[i].userId == ps[j].userId && ps[i].challengeId == ps[j].challengeId)) &&
    (forall i :: 0 <= i < |ps| ==> ps[i].userChallengeId < nextId)
  }

  /** A pass that keeps every record's identity keeps the table valid. */
  lemma SameIdentitiesKeepValid(ps: seq<UserChallenge>, qs: seq<UserChallenge>, nextId: int)
    requires ParticipationsValid(ps, nextId)
    requires |qs| == |ps| && forall i :: 0 <= i < |ps| ==> SameIdentity(ps[i], qs[i])
    ensures ParticipationsValid(qs, nextId)
  {
  }

  /** existsByUserUserIdAndChallengeChallengeId. */
  predicate Participates(ps: seq<UserChallenge>, userId: int, challengeId: int)
  {
    exists i :: 0 <= i < |ps| && ps[i].userId == userId && ps[i].challengeId == Some(challengeId)
  }

  /** existsByUser_UserIdAndChallenge_ChallengeIdAndStartDate. */
  predicate JoinedAt(ps: seq<UserChallenge>, userId: int, challengeId: int, start: int)
  {
    exists i :: 0 <= i < |ps| && ps[i].userId == userId && ps[i].challengeId == Some(challengeId) &&
      ps[i].startDate == Some(start)
  }

  /** existsByUser_UserIdAndTargetMetricAndStartDate. */
  predicate TracksAt(ps: seq<UserChallenge>, userId: int, metric: string, start: int)
  {
    exists i :: 0 <= i < |ps| && ps[i].userId == userId && ps[i].targetMetric == Some(metric) &&
      ps[i].startDate == Some(start)
  }

  /** existsByTitleAndStartDateAndEndDate. */
  predicate ChallengeExists(cs: seq<Challenge>, title: string, start: int, end: int)
  {
    exists i :: 0 <= i < |cs| && cs[i].title == title && cs[i].startDate == start && cs[i].endDate == end
  }

  /** findById on the challenge table. */
  function FindChallenge(cs: seq<Challenge>, id: int): (i: Option<nat>)
    ensures i.Some? ==> i.value < |cs| && cs[i.value].challengeId == id
    ensures i.None? ==> forall j :: 0 <= j < |cs| ==> cs[j].challengeId != id
  {
    if cs == [] then None
    else if cs[0].challengeId == id then Some(0)
    else
      var rest := FindChallenge(cs[1..], id);
      if rest.None? then None else Some(rest.value + 1)
  }

  /** findById on the participation table. */
  function FindParticipation(ps: seq<UserChallenge>, id: int): (i: Option<nat>)
    ensures i.Some? ==> i.value < |ps| && ps[i.value].userChallengeId == id
    ensures i.None? ==> forall j :: 0 <= j < |ps| ==> ps[j].userChallengeId != id
  {
    if ps == [] then None
    else if ps[0].userChallengeId == id then Some(0)
    else
      var rest := FindParticipation(ps[1..], id);
      if rest.None? then None else Some(rest.value + 1)
  }

  class Store {
    /** The ids of the registered users. */
    const users: set<int>
    var challenges: seq<Challenge>
    var participations: seq<UserChallenge>
    var nextChallengeId: int
    var nextParticipationId: int

    predicate Valid()
      reads this
    {
      ChallengesValid(challenges, nextChallengeId) && ParticipationsValid(participations, nextParticipationId)
    }

    constructor(users: set<int>)
      ensures Valid() && this.users == users
      ensures challenges == [] && participations == []
    {
      this.users := users;
      challenges := [];
      participations := [];
      nextChallengeId := 1;
      nextParticipationId := 1;
    }

    /** Saving a challenge: it gets the next id; the unique key rejects a
      * second challenge with the same title and period. */
    method SaveChallenge(c: Challenge) returns (r: Result<Challenge, ChallengeError>)
      requires Valid()
      modifies this
      ensures Valid()
      ensures participations == old(participations) && nextParticipationId == old(nextParticipationId)
      ensures r.Err? <==> ChallengeExists(old(challenges), c.title, c.startDate, c.endDate)
      ensures r.Err? ==> (r.error == UniqueKeyViolation && challenges == old(challenges) &&
        nextChallengeId == old(nextChallengeId))
      ensures r.Ok? ==> (r.value == c.(challengeId := old(nextChallengeId)) &&
        challenges == old(challenges) + [r.value] && nextChallengeId == old(nextChallengeId) + 1)
    {
      if ChallengeExists(challenges, c.title, c.startDate, c.endDate) {
        return Err(UniqueKeyViolation);
      }
      var saved := c.(challengeId := nextChallengeId);
      challenges := challenges + [saved];
      nextChallengeId := nextChallengeId + 1;
      r := Ok(saved);
    }

    /** Saving a participation: it gets the next id; the unique key rejects
      * a second participation of the same user in the same challenge. */
    method SaveParticipation(uc: UserChallenge) returns (r: Result<UserChallenge, ChallengeError>)
      requires Valid()
      modifies this
      ensures Valid()
      ensures challenges == old(challenges) && nextChallengeId == old(nextChallengeId)
      ensures r.Err? <==> uc.challengeId.Some? && Participates(old(participations), uc.userId, uc.challengeId.value)
      ensures r.Err? ==> (r.error == UniqueKeyViolation && participations == old(participations) &&
        nextParticipationId == old(nextParticipationId))
      ensures r.Ok? ==> (r.value == uc.(userChallengeId := old(nextParticipationId)) &&
        participations == old(participations) + [r.value] && nextParticipationId == old(nextParticipationId) + 1)
    {
      if uc.challengeId.Some? && Participates(participations, uc.userId, uc.challengeId.value) {
        return Err(UniqueKeyViolation);
      }
      var saved := uc.(userChallengeId := nextParticipationId);
      participations := participations + [saved];
      nextParticipationId := nextParticipationId + 1;
      r := Ok(saved);
    }

    /** Replacing one participation by an updated copy of itself. */
    method Replace(i: nat, uc: UserChallenge)
      requires Valid() && i < |participations| && SameIdentity(participations[i], uc)
      modifies this
      ensures Valid()
      ensures participations == old(participations)[i := uc]
      ensures challenges == old(challenges) && nextChallengeId == old(nextChallengeId)
      ensures nextParticipationId == old(nextParticipationId)
    {
      SameIdentitiesKeepValid(participations, participations[i := uc], nextParticipationId);
      participations := participations[i := uc];
    }

    /** Applying a pass to every participation, as the services' loops over
      * the selected records do; when a record throws, the transaction is
      * rolled back and the table is left as it was. */
    method ApplyPass(p: Pass) returns (r: Result<(), ChallengeError>)
      requires Valid()
      modifies this
      ensures Valid()
      ensures challenges == old(challenges) && nextChallengeId == old(nextChallengeId)
      ensures nextParticipationId == old(nextParticipationId)
      ensures r.Ok? <==> MapAll(old(participations), p).Ok?
      ensures r.Ok? ==> participations == MapAll(old(participations), p).value
      ensures r.Err? ==> r.error == MapAll(old(participations), p).error && participations == old(participations)
    {
      var ps := participations;
      var out: seq<UserChallenge> := [];
      for i := 0 to |ps|
        invariant |out| == i
        invariant forall k :: 0 <= k < i ==> Step(p, ps[k]) == Ok(out[k])
      {
        var next := Step(p, ps[i]);
        if next.Err? {
          var whole := MapAll(ps, p);
          var j :| 0 <= j < |ps| && Step(p, ps[j]) == Err(whole.error) &&
            forall k :: 0 <= k < j ==> Step(p, ps[k]).Ok?;
          assert j == i;
          return Err(next.error);
        }
        out := out + [next.value];
      }
      SameIdentitiesKeepValid(ps, out, nextParticipationId);
      participations := out;
      r := Ok(());
    }
  }
}
