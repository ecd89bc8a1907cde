/** The video service: it accepts batches of camera frames from a driving
  * session, remembers when each user's session started and when its last
  * batch arrived, forwards the usable frames to the analysis server and turns
  * the detections into alerts; at the end of a session it asks the server for
  * the final counts, forgets the session and records an analysis result.
  *
  * The analysis runs asynchronously in the source; here it runs to completion
  * inside the call that accepted the batch. */
module VideoService {
  import opened Common
  import opened VideoDto
  import opened Entities
  import opened GrpcClient
  import opened AlertService

  /** The error codes of the service's ApiException. */
  datatype ApiError = InvalidRequest | UserNotFound | FrameProcessingError | SessionEndError

  // ---------------------------------------------------------------------------
  // Alert routing

  /** The position of a risk in the order in which alerts are sent. */
  function AlertRank(k: RiskKind): int
  {
    match k
    case Drowsiness => 0
    case PhoneUsage => 1
    case Smoking => 2
  }

  /** The risks an analysis response raises an alert for: none for an
    * incomplete analysis, otherwise one per detection flag that is set. */
  function AlertKinds(resp: RealtimeAnalysisResponse): (kinds: seq<RiskKind>)
    ensures !resp.analysisCompleted ==> kinds == []
    ensures resp.analysisCompleted ==>
      (Drowsiness in kinds <==> resp.drowsinessDetected) &&
      (PhoneUsage in kinds <==> resp.phoneUsageDetected) &&
      (Smoking in kinds <==> resp.smokingDetected)
    ensures forall i, j :: 0 <= i < j < |kinds| ==> AlertRank(kinds[i]) < AlertRank(kinds[j])
  {
    if !resp.analysisCompleted then []
    else
      (if resp.drowsinessDetected then [Drowsiness] else []) +
      (if resp.phoneUsageDetected then [PhoneUsage] else []) +
      (if resp.smokingDetected then [Smoking] else [])
  }

  /** A call that ends in an error, whatever its message, raises no alert. */
  lemma FailedAnalysisAlertsNothing(userId: int, end: RetryEnd<RealtimeAnalysisResponse>)
    requires !end.Answered?
    ensures AlertKinds(RealtimeResult(userId, end)) == []
  {
  }

  /** The alerts sent for `kinds`, each tagged with the batch. */
  function AlertsOf(u: int, kinds: seq<RiskKind>, batchId: int): (alerts: seq<Alert>)
    ensures |alerts| == |kinds|
    ensures forall i :: 0 <= i < |kinds| ==> alerts[i] == Alert(u, kinds[i], true, Some(batchId))
  {
    seq(|kinds|, i requires 0 <= i < |kinds| => Alert(u, kinds[i], true, Some(batchId)))
  }

  /** The registry after sending the alerts for `kinds` one after the other;
    * `sendOk` says whether the send for a risk succeeds. */
  function SentEach(r: Registry, u: int, kinds: seq<RiskKind>, batchId: int, now: int,
                    sendOk: RiskKind -> bool): Registry
    decreases |kinds|
  {
    if kinds == [] then r
    else SentEach(Sent(r, u, Alert(u, kinds[0], true, Some(batchId)), now, sendOk(kinds[0])),
                  u, kinds[1..], batchId, now, sendOk)
  }

  /** Sending a series of alerts keeps the maps in step and neither removes
    * nor replaces the emitter of any other user. */
  lemma {:induction false} SentEachKeepsOthers(r: Registry, u: int, kinds: seq<RiskKind>, batchId: int,
                                               now: int, sendOk: RiskKind -> bool)
    requires InStep(r)
    ensures var s := SentEach(r, u, kinds, batchId, now, sendOk);
      InStep(s) &&
      (forall v :: v != u ==> (v in s.emitters <==> v in r.emitters)) &&
      (forall v :: v != u && v in r.emitters ==> s.emitters[v] == r.emitters[v])
    decreases |kinds|
  {
    if kinds != [] {
      var a := Alert(u, kinds[0], true, Some(batchId));
      SentEffect(r, u, a, now, sendOk(kinds[0]));
      CleanedLocal(r, u, u);
      SentEachKeepsOthers(Sent(r, u, a, now, sendOk(kinds[0])), u, kinds[1..], batchId, now, sendOk);
    }
  }

  /** Alerts for a user without an emitter change nothing. */
  lemma {:induction false} SentEachWithoutEmitter(r: Registry, u: int, kinds: seq<RiskKind>, batchId: int,
                                                  now: int, sendOk: RiskKind -> bool)
    requires u !in r.emitters
    ensures SentEach(r, u, kinds, batchId, now, sendOk) == r
    decreases |kinds|
  {
    if kinds != [] {
      SentEachWithoutEmitter(r, u, kinds[1..], batchId, now, sendOk);
    }
  }

  /** The alerts for a non-empty list of risks: the first, then the rest. */
  lemma AlertsOfFirst(u: int, kinds: seq<RiskKind>, batchId: int)
    requires kinds != []
    ensures AlertsOf(u, kinds, batchId) == [Alert(u, kinds[0], true, Some(batchId))] + AlertsOf(u, kinds[1..], batchId)
  {
    assert AlertsOf(u, kinds, batchId)[1..] == AlertsOf(u, kinds[1..], batchId);
  }

  /** One successful send: the alert is appended, the user stays connected
    * and the remaining sends all still succeed. */
  lemma SentEachFirstOk(r: Registry, u: int, kinds: seq<RiskKind>, batchId: int,
                        now: int, sendOk: RiskKind -> bool)
    requires u in r.emitters && kinds != []
    requires forall i :: 0 <= i < |kinds| ==> sendOk(kinds[i])
    ensures var r1 := Sent(r, u, Alert(u, kinds[0], true, Some(batchId)), now, true);
      u in r1.emitters && r1.delivered == r.delivered + [Alert(u, kinds[0], true, Some(batchId))] &&
      SentEach(r, u, kinds, batchId, now, sendOk) == SentEach(r1, u, kinds[1..], batchId, now, sendOk)
    ensures forall i :: 0 <= i < |kinds[1..]| ==> sendOk(kinds[1..][i])
  {
    assert sendOk(kinds[0]);
    forall i | 0 <= i < |kinds[1..]| ensures sendOk(kinds[1..][i]) {
      assert kinds[1..][i] == kinds[i + 1];
    }
  }

  /** Appending the first alert and then the rest is appending them all. */
  lemma DeliveredInOrder(d: seq<Alert>, u: int, kinds: seq<RiskKind>, batchId: int)
    requires kinds != []
    ensures (d + [Alert(u, kinds[0], true, Some(batchId))]) + AlertsOf(u, kinds[1..], batchId)
            == d + AlertsOf(u, kinds, batchId)
  {
    AlertsOfFirst(u, kinds, batchId);
    assert (d + [Alert(u, kinds[0], true, Some(batchId))]) + AlertsOf(u, kinds[1..], batchId)
        == d + ([Alert(u, kinds[0], true, Some(batchId))] + AlertsOf(u, kinds[1..], batchId));
  }

  /** When every send succeeds, the alerts are delivered in order and the
    * user stays connected. */
  lemma {:induction false} SentEachAllDelivered(r: Registry, u: int, kinds: seq<RiskKind>, batchId: int,
                                                now: int, sendOk: RiskKind -> bool)
    requires u in r.emitters
    requires forall i :: 0 <= i < |kinds| ==> sendOk(kinds[i])
    ensures var s := SentEach(r, u, kinds, batchId, now, sendOk);
      u in s.emitters && s.delivered == r.delivered + AlertsOf(u, kinds, batchId)
    decreases |kinds|
  {
    if kinds != [] {
      SentEachFirstOk(r, u, kinds, batchId, now, sendOk);
      var r1 := Sent(r, u, Alert(u, kinds[0], true, Some(batchId)), now, true);
      SentEachAllDelivered(r1, u, kinds[1..], batchId, now, sendOk);
      DeliveredInOrder(r.delivered, u, kinds, batchId);
    }
  }

  // ---------------------------------------------------------------------------
  // Session bookkeeping

  /** The session's start and last-frame times at session end: the stored
    * start or 0, and the stored last frame or the start. */
  function SessionBounds(starts: map<int, int>, lasts: map<int, int>, u: int): (b: (int, int))
    ensures b.0 == (if u in starts then starts[u] else 0)
    ensures b.1 == (if u in lasts then lasts[u] else b.0)
  {
    var start := if u in starts then starts[u] else 0;
    (start, if u in lasts then lasts[u] else start)
  }

  /** The recorded duration in seconds: whole seconds between the two times
    * (Java's truncating long division, narrowed to int), at least one. */
  function SessionDuration(start: int, last: int): (d: int)
    ensures d >= 1 && IsInt32(d)
    ensures 1000 <= last - start && IsInt32((last - start) / 1000) ==> d == (last - start) / 1000
    ensures IsInt32(last - start) && last - start < 2000 ==> d == 1
  {
    Max(1, ToInt32(JavaDiv(last - start, 1000)))
  }

  /** A session without any stored frame time lasts one second. */
  lemma SessionWithoutFramesLastsOneSecond(starts: map<int, int>, u: int)
    ensures var b := SessionBounds(starts, map[], u); SessionDuration(b.0, b.1) == 1
  {
  }

  class VideoService {
    /** The ids of the users that exist. */
    const users: set<int>
    /** userSessionStartTimes */
    var sessionStart: map<int, int>
    /** userLastFrameTimestamps */
    var lastFrame: map<int, int>

    constructor(users: set<int>)
      ensures this.users == users && sessionStart == map[] && lastFrame == map[]
    {
      this.users := users;
      sessionStart := map[];
      lastFrame := map[];
    }

    /** validateFrames: the non-null frames with at least one byte of data,
      * in their original order; a missing list gives none. */
    method ValidateFrames(frames: Option<seq<Option<FrameData>>>) returns (valid: seq<FrameData>)
      ensures valid == ValidFrames(frames)
    {
      valid := [];
      if frames.None? || frames.value == [] {
        return;
      }
      var s := frames.value;
      for i := 0 to |s|
        invariant valid == KeepValid(s[..i])
      {
        assert s[..i + 1][..i] == s[..i];
        if s[i].Some? && s[i].value.data.Some? && |s[i].value.data.value| > 0 {
          valid := valid + [s[i].value];
        }
      }
      assert s[..|s|] == s;
    }

    /** processFrameBatch. A missing batch or user id is an invalid request
      * and an unknown user is not found; both leave the session maps alone.
      * A missing batch id or timestamp fails while unboxing or storing it,
      * before either map changes. Otherwise the session start is set when the
      * batch id is 0 or the user has none, the last-frame time is always set,
      * and when some frame is usable the frames are analysed and one alert is
      * sent per detection. `sendOk` says whether the alert send for a risk
      * succeeds; `kinds` are the risks alerted. */
    method ProcessFrameBatch(batch: Option<FrameBatchRequest>, now: int, maxRetries: int,
                             call: nat -> Attempt<RealtimeAnalysisResponse>,
                             hub: AlertHub, sendOk: RiskKind -> bool)
      returns (r: Result<FrameProcessedResponse, ApiError>, kinds: seq<RiskKind>)
      requires hub.Valid()
      modifies this, hub
      ensures hub.Valid()
      ensures r == Err(InvalidRequest) <==> batch.None? || batch.value.userId.None?
      ensures batch.Some? && batch.value.userId.Some? && batch.value.userId.value !in users ==>
        r == Err(UserNotFound)
      ensures (batch.Some? && batch.value.userId.Some? && batch.value.userId.value in users &&
               (batch.value.batchId.None? || batch.value.timestamp.None?)) ==> r == Err(FrameProcessingError)
      ensures r.Ok? <==> batch.Some? && batch.value.userId.Some? && batch.value.userId.value in users &&
                         batch.value.batchId.Some? && batch.value.timestamp.Some?
      ensures r.Err? ==>
        sessionStart == old(sessionStart) && lastFrame == old(lastFrame) &&
        kinds == [] && hub.State() == old(hub.State())
      ensures r.Ok? ==>
        var b := batch.value;
        var u := b.userId.value;
        var ts := b.timestamp.value;
        r.value == FrameProcessedResponse(u, b.batchId.value, ts, true) &&
        sessionStart == (if b.batchId.value == 0 || u !in old(sessionStart)
                         then old(sessionStart)[u := ts] else old(sessionStart)) &&
        lastFrame == old(lastFrame)[u := ts] &&
        kinds == (if ValidFrames(b.frames) == [] then []
                  else AlertKinds(RealtimeResult(u, Retry(call, maxRetries).end))) &&
        hub.State() == SentEach(old(hub.State()), u, kinds, b.batchId.value, now, sendOk)
    {
      kinds := [];
      if batch.None? || batch.value.userId.None? {
        r := Err(InvalidRequest);
        return;
      }
      var b := batch.value;
      var u := b.userId.value;
      if u !in users {
        r := Err(UserNotFound);
        return;
      }
      var validFrames := ValidateFrames(b.frames);
      if b.batchId.None? || b.timestamp.None? {
        r := Err(FrameProcessingError);
        return;
      }
      var batchId := b.batchId.value;
      var ts := b.timestamp.value;
      if batchId == 0 || u !in sessionStart {
        sessionStart := sessionStart[u := ts];
      }
      lastFrame := lastFrame[u := ts];
      if validFrames != [] {
        kinds := AnalyzeAndAlert(u, batchId, ts, validFrames, now, maxRetries, call, hub, sendOk);
      }
      r := Ok(FrameProcessedResponse(u, batchId, ts, true));
    }

    /** The asynchronous half of processFrameBatch: analyse the usable frames
      * and send one alert per risk detected, tagged with the batch. */
    method AnalyzeAndAlert(u: int, batchId: int, ts: int, validFrames: seq<FrameData>, now: int,
                           maxRetries: int, call: nat -> Attempt<RealtimeAnalysisResponse>,
                           hub: AlertHub, sendOk: RiskKind -> bool)
      returns (kinds: seq<RiskKind>)
      requires validFrames != [] && forall i :: 0 <= i < |validFrames| ==> IsValidFrame(Some(validFrames[i]))
      requires hub.Valid()
      modifies hub
      ensures hub.Valid()
      ensures kinds == AlertKinds(RealtimeResult(u, Retry(call, maxRetries).end))
      ensures hub.State() == SentEach(old(hub.State()), u, kinds, batchId, now, sendOk)
    {
      AllValidKept(Wrap(validFrames));
      assert Unwrap(Wrap(validFrames)) == validFrames;
      var response, _, _, _ := AnalyzeFrames(Some(u), Some(batchId), Some(ts), Some(Wrap(validFrames)),
                                             now, maxRetries, call);
      kinds := AlertKinds(response);
      var i := 0;
      while i < |kinds|
        invariant 0 <= i <= |kinds| && hub.Valid()
        invariant SentEach(old(hub.State()), u, kinds, batchId, now, sendOk) ==
                  SentEach(hub.State(), u, kinds[i..], batchId, now, sendOk)
      {
        hub.SendRiskBehaviorAlert(Some(u), kinds[i], true, Some(batchId), now, sendOk(kinds[i]));
        assert kinds[i..][1..] == kinds[i + 1..];
        i := i + 1;
      }
    }

    /** endDrivingSession. A missing request, user id or session id is an
      * invalid request and an unknown user is not found, with nothing
      * changed. Otherwise the final counts are requested for the stored start
      * time (or 0) and the given end time (or now), the session is forgotten
      * in both maps, the user's alert connection is removed, and an analysis
      * result covering the session's duration is recorded; the reply says
      * `saved` even when the analysis did not complete. */
    method EndDrivingSession(request: Option<DrivingSessionEndRequest>, now: int, maxRetries: int,
                             call: nat -> Attempt<FinalAnalysisResponse>, hub: AlertHub)
      returns (r: Result<DrivingSessionEndResponse, ApiError>, sent: Option<ProtoSessionEnd>,
               result: AnalysisResult?)
      requires hub.Valid()
      modifies this, hub
      ensures hub.Valid()
      ensures r == Err(InvalidRequest) <==>
        request.None? || request.value.userId.None? || request.value.sessionId.None?
      ensures (request.Some? && request.value.userId.Some? && request.value.sessionId.Some? &&
               request.value.userId.value !in users) ==> r == Err(UserNotFound)
      ensures r.Ok? <==> request.Some? && request.value.userId.Some? && request.value.sessionId.Some? &&
                         request.value.userId.value in users
      ensures r.Err? ==>
        sessionStart == old(sessionStart) && lastFrame == old(lastFrame) &&
        hub.State() == old(hub.State()) && sent.None? && result == null
      ensures r.Ok? ==>
        var q := request.value;
        var u := q.userId.value;
        var bounds := SessionBounds(old(sessionStart), old(lastFrame), u);
        var f := FinalResult(u, Retry(call, maxRetries).end);
        sent == Some(ProtoSessionEnd(u, q.sessionId.value, bounds.0, q.endTimestamp.GetOrElse(now))) &&
        r.value == DrivingSessionEndResponse(u, q.sessionId.value, f.drowsinessCount, f.phoneUsageCount,
                                             f.smokingCount, Some(BASE_SCORE), true) &&
        sessionStart == old(sessionStart) - {u} && lastFrame == old(lastFrame) - {u} &&
        hub.State() == Cleaned(old(hub.State()), u) &&
        result != null && fresh(result) && result.userId == u && result.status == Completed &&
        result.drowsinessCount == Some(f.drowsinessCount) &&
        result.phoneUsageCount == Some(f.phoneUsageCount) &&
        result.smokingCount == Some(f.smokingCount) &&
        result.totalDuration == Some(SessionDuration(bounds.0, bounds.1))
    {
      sent, result := None, null;
      if request.None? || request.value.userId.None? || request.value.sessionId.None? {
        r := Err(InvalidRequest);
        return;
      }
      var q := request.value;
      var u := q.userId.value;
      if u !in users {
        r := Err(UserNotFound);
        return;
      }
      var start := if u in sessionStart then sessionStart[u] else 0;
      var last := if u in lastFrame then lastFrame[u] else start;
      var endTs := if q.endTimestamp.Some? then q.endTimestamp.value else now;
      var f, request', _, _ := GrpcClient.EndDrivingSession(Some(u), q.sessionId, Some(start), Some(endTs),
                                                            now, maxRetries, call);
      sent := request';
      sessionStart := sessionStart - {u};
      lastFrame := lastFrame - {u};
      hub.RemoveConnection(Some(u));
      var duration := SessionDuration(start, last);
      result := new AnalysisResult.Create(u, Some(f.drowsinessCount), Some(f.phoneUsageCount),
                                          Some(f.smokingCount), Some(duration), now);
      r := Ok(DrivingSessionEndResponse(u, q.sessionId.value, f.drowsinessCount, f.phoneUsageCount,
                                        f.smokingCount, result.drivingScore, true));
    }
  }
}
