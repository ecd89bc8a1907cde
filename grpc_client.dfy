/** The client of the remote analysis server. Each of its two calls checks its
  * arguments, then tries the remote procedure up to `maxRetries` times:
  * UNAVAILABLE and DEADLINE_EXCEEDED are retried after a pause of
  * 1000 * (failures so far) milliseconds, any other status ends the call. Every
  * failure is turned into an error response; nothing is thrown.
  *
  * The outcome of attempt k (0-based) is the oracle `call(k)`; the pauses are
  * returned instead of slept. */
module GrpcClient {
  import opened Common
  import opened VideoDto

  // ---------------------------------------------------------------------------
  // Messages

  datatype ProtoFrame = ProtoFrame(data: seq<byte>, frameId: int)

  /** The realtime analysis request. */
  datatype ProtoFrameBatch = ProtoFrameBatch(userId: int, batchId: int, timestamp: int, frames: seq<ProtoFrame>)

  /** The end-of-session request. */
  datatype ProtoSessionEnd = ProtoSessionEnd(userId: int, sessionId: int, startTimestamp: int, endTimestamp: int)

  /** Protobuf strings are never null: an unset message reads as "". */
  datatype RealtimeAnalysisResponse = RealtimeAnalysisResponse(
    userId: int,
    drowsinessDetected: bool, phoneUsageDetected: bool, smokingDetected: bool,
    analysisCompleted: bool, errorMessage: string)

  datatype FinalAnalysisResponse = FinalAnalysisResponse(
    userId: int,
    drowsinessCount: int, phoneUsageCount: int, smokingCount: int,
    analysisCompleted: bool, errorMessage: string)

  // ---------------------------------------------------------------------------
  // Retry policy

  datatype StatusCode = Unavailable | DeadlineExceeded | OtherStatus(name: string)

  /** One remote invocation: a reply, or a StatusRuntimeException. */
  datatype Attempt<R> = Reply(response: R) | Failure(code: StatusCode, description: string)

  predicate Retryable(code: StatusCode)
  {
    code == Unavailable || code == DeadlineExceeded
  }

  /** How a retry loop ends: with a reply, with the message of the failure that
    * stopped it, or without any attempt. */
  datatype RetryEnd<R> = Answered(response: R) | Failed(message: string) | Exhausted

  datatype Trace<R> = Trace(end: RetryEnd<R>, attempts: nat)

  /** The loop `while (retries < maxRetries)` entered with `retries` failures
    * behind it. */
  function RetryFrom<R>(call: nat -> Attempt<R>, maxRetries: int, retries: nat): Trace<R>
    decreases if retries < maxRetries then maxRetries - retries else 0
  {
    if retries >= maxRetries then Trace(Exhausted, retries)
    else match call(retries)
      case Reply(r) => Trace(Answered(r), retries + 1)
      case Failure(code, msg) =>
        if retries + 1 < maxRetries && Retryable(code) then RetryFrom(call, maxRetries, retries + 1)
        else Trace(Failed(msg), retries + 1)
  }

  function Retry<R>(call: nat -> Attempt<R>, maxRetries: int): Trace<R>
  {
    RetryFrom(call, maxRetries, 0)
  }

  /** The pauses taken before attempts 2, 3, ...: 1000 ms times the number of
    * failures so far, so each pause is longer than the one before. */
  function Backoff(pauses: nat): (d: seq<int>)
    ensures |d| == pauses
    ensures forall k :: 0 <= k < pauses ==> d[k] == 1000 * (k + 1)
    ensures forall j, k :: 0 <= j < k < pauses ==> d[j] < d[k]
  {
    seq(pauses, k => 1000 * (k + 1))
  }

  /** The shared retry loop of both remote calls. */
  method CallWithRetries<R>(call: nat -> Attempt<R>, maxRetries: int) returns (end: RetryEnd<R>, attempts: nat, delays: seq<int>)
    ensures Trace(end, attempts) == Retry(call, maxRetries)
    ensures delays == Backoff(if attempts == 0 then 0 else attempts - 1)
  {
    var retries: nat := 0;
    attempts := 0;
    delays := [];
    while retries < maxRetries
      invariant attempts == retries
      invariant retries == 0 || retries < maxRetries
      invariant delays == Backoff(retries)
      invariant Retry(call, maxRetries) == RetryFrom(call, maxRetries, retries)
      decreases maxRetries - retries
    {
      attempts := attempts + 1;
      var outcome := call(retries);
      match outcome {
        case Reply(response) =>
          return Answered(response), attempts, delays;
        case Failure(code, description) =>
          retries := retries + 1;
          if retries < maxRetries && Retryable(code) {
            delays := delays + [1000 * retries];
          } else {
            return Failed(description), attempts, delays;
          }
      }
    }
    return Exhausted, attempts, delays;
  }

  /** Everything about a retry loop's run: the attempts before the last all
    * failed with a retryable status, the last attempt decides the end, and
    * at most `maxRetries` attempts are made. */
  lemma {:induction false} RetryFromShape<R>(call: nat -> Attempt<R>, maxRetries: int, retries: nat)
    requires retries < maxRetries
    ensures var t := RetryFrom(call, maxRetries, retries);
      retries < t.attempts <= maxRetries &&
      (forall j :: retries <= j < t.attempts - 1 ==> call(j).Failure? && Retryable(call(j).code)) &&
      (match call(t.attempts - 1)
        case Reply(r) => t.end == Answered(r)
        case Failure(code, msg) => t.end == Failed(msg) && (!Retryable(code) || t.attempts == maxRetries))
    decreases maxRetries - retries
  {
    match call(retries)
    case Reply(_) =>
    case Failure(code, _) =>
      if retries + 1 < maxRetries && Retryable(code) {
        RetryFromShape(call, maxRetries, retries + 1);
      }
  }

  /** At most max(0, maxRetries) remote invocations are made; none at all, and
    * the loop falls through to "Max retries exceeded", when maxRetries <= 0. */
  lemma RetryBounds<R>(call: nat -> Attempt<R>, maxRetries: int)
    ensures Retry(call, maxRetries).attempts <= Max(0, maxRetries)
    ensures Retry(call, maxRetries).attempts == 0 <==> maxRetries <= 0
    ensures Retry(call, maxRetries).end.Exhausted? <==> maxRetries <= 0
  {
    if maxRetries > 0 {
      RetryFromShape(call, maxRetries, 0);
    }
  }

  /** A non-retryable failure ends the loop right after that attempt. */
  lemma NonRetryableStops<R>(call: nat -> Attempt<R>, maxRetries: int, k: nat)
    requires k < maxRetries
    requires forall j :: 0 <= j < k ==> call(j).Failure? && Retryable(call(j).code)
    requires call(k).Failure? && !Retryable(call(k).code)
    ensures Retry(call, maxRetries) == Trace(Failed(call(k).description), k + 1)
  {
    NonRetryableStopsFrom(call, maxRetries, k, 0);
  }

  lemma {:induction false} NonRetryableStopsFrom<R>(call: nat -> Attempt<R>, maxRetries: int, k: nat, j: nat)
    requires j <= k < maxRetries
    requires forall i :: j <= i < k ==> call(i).Failure? && Retryable(call(i).code)
    requires call(k).Failure? && !Retryable(call(k).code)
    ensures RetryFrom(call, maxRetries, j) == Trace(Failed(call(k).description), k + 1)
    decreases k - j
  {
    if j < k {
      NonRetryableStopsFrom(call, maxRetries, k, j + 1);
    }
  }

  /** With the default of three attempts, two UNAVAILABLE failures and then a
    * reply give that reply on the third attempt, after pauses of 1 s and 2 s. */
  lemma ThirdAttemptSucceeds<R>(call: nat -> Attempt<R>, r: R)
    requires call(0).Failure? && call(0).code == Unavailable
    requires call(1).Failure? && call(1).code == Unavailable
    requires call(2) == Reply(r)
    ensures Retry(call, 3) == Trace(Answered(r), 3)
    ensures Backoff(Retry(call, 3).attempts - 1) == [1000, 2000]
  {
    assert RetryFrom(call, 3, 2) == Trace(Answered(r), 3);
  }

  /** With three attempts all failing with retryable statuses, the third
    * failure is not retried: the loop leaves through its error branch with
    * that failure's message. */
  lemma AllRetryableFail<R>(call: nat -> Attempt<R>)
    requires forall k :: 0 <= k < 3 ==> call(k).Failure? && Retryable(call(k).code)
    ensures Retry(call, 3) == Trace(Failed(call(2).description), 3)
  {
    assert call(0).Failure? && call(1).Failure? && call(2).Failure?;
    assert RetryFrom(call, 3, 2) == Trace(Failed(call(2).description), 3);
  }

  // ---------------------------------------------------------------------------
  // Error responses

  const ERROR_PREFIX: string := "gRPC call failed: "

  predicate IsErrorMessage(s: string)
  {
    |ERROR_PREFIX| <= |s| && s[..|ERROR_PREFIX|] == ERROR_PREFIX
  }

  /** createRealtimeErrorResponse: nothing detected, analysis not completed. */
  function RealtimeError(userId: Option<int>, message: string): (r: RealtimeAnalysisResponse)
    ensures !r.analysisCompleted && IsErrorMessage(r.errorMessage)
    ensures !r.drowsinessDetected && !r.phoneUsageDetected && !r.smokingDetected
    ensures r.errorMessage[|ERROR_PREFIX|..] == message
    ensures userId.Some? ==> r.userId == userId.value
    ensures userId.None? ==> r.userId == 0
  {
    RealtimeAnalysisResponse(userId.GetOrElse(0), false, false, false, false, ERROR_PREFIX + message)
  }

  /** createFinalErrorResponse: all counts zero, analysis not completed. */
  function FinalError(userId: Option<int>, message: string): (r: FinalAnalysisResponse)
    ensures !r.analysisCompleted && IsErrorMessage(r.errorMessage)
    ensures r.drowsinessCount == 0 && r.phoneUsageCount == 0 && r.smokingCount == 0
    ensures r.errorMessage[|ERROR_PREFIX|..] == message
    ensures userId.Some? ==> r.userId == userId.value
    ensures userId.None? ==> r.userId == 0
  {
    FinalAnalysisResponse(userId.GetOrElse(0), 0, 0, 0, false, ERROR_PREFIX + message)
  }

  /** The response a realtime call gives for each way its retry loop ends. */
  function RealtimeResult(userId: int, end: RetryEnd<RealtimeAnalysisResponse>): RealtimeAnalysisResponse
  {
    match end
    case Answered(r) => r
    case Failed(msg) => RealtimeError(Some(userId), msg)
    case Exhausted => RealtimeError(Some(userId), "Max retries exceeded")
  }

  function FinalResult(userId: int, end: RetryEnd<FinalAnalysisResponse>): FinalAnalysisResponse
  {
    match end
    case Answered(r) => r
    case Failed(msg) => FinalError(Some(userId), msg)
    case Exhausted => FinalError(Some(userId), "Max retries exceeded")
  }

  // ---------------------------------------------------------------------------
  // The two remote calls

  /** Converts the frames to protocol messages; a missing frameId is sent as 0. */
  method ToProtoFrames(frames: seq<FrameData>) returns (proto: seq<ProtoFrame>)
    requires forall i :: 0 <= i < |frames| ==> frames[i].data.Some?
    ensures |proto| == |frames|
    ensures forall i :: 0 <= i < |frames| ==>
      proto[i].data == frames[i].data.value && proto[i].frameId == frames[i].frameId.GetOrElse(0)
  {
    proto := [];
    for i := 0 to |frames|
      invariant |proto| == i
      invariant forall j :: 0 <= j < i ==>
        proto[j].data == frames[j].data.value && proto[j].frameId == frames[j].frameId.GetOrElse(0)
    {
      var id := if frames[i].frameId.Some? then frames[i].frameId.value else 0;
      proto := proto + [ProtoFrame(frames[i].data.value, id)];
    }
  }

  /** analyzeFrames: argument checks, then the retry loop. `request` is the
    * message sent, if any; `attempts` counts remote invocations. */
  method AnalyzeFrames(
    userId: Option<int>, batchId: Option<int>, timestamp: Option<int>,
    frames: Option<seq<Option<FrameData>>>,
    now: int, maxRetries: int, call: nat -> Attempt<RealtimeAnalysisResponse>)
    returns (response: RealtimeAnalysisResponse, request: Option<ProtoFrameBatch>, attempts: nat, delays: seq<int>)
    ensures userId.None? || batchId.None? ==>
      response == RealtimeError(userId, "Missing required parameters") && request.None?
    ensures userId.Some? && batchId.Some? && (frames.None? || frames.value == []) ==>
      response == RealtimeError(userId, "No frames to analyze") && request.None?
    ensures userId.Some? && batchId.Some? && frames.Some? && frames.value != [] && ValidFrames(frames) == [] ==>
      response == RealtimeError(userId, "No valid frames to analyze") && request.None?
    ensures request.None? ==> attempts == 0 && delays == []
    ensures request.Some? <==> userId.Some? && batchId.Some? && ValidFrames(frames) != []
    ensures request.Some? ==>
      var valid := ValidFrames(frames);
      var t := Retry(call, maxRetries);
      request.value.userId == userId.value && request.value.batchId == batchId.value &&
      request.value.timestamp == timestamp.GetOrElse(now) &&
      |request.value.frames| == |valid| &&
      (forall i :: 0 <= i < |valid| ==>
        request.value.frames[i] == ProtoFrame(valid[i].data.value, valid[i].frameId.GetOrElse(0))) &&
      attempts == t.attempts && response == RealtimeResult(userId.value, t.end) &&
      delays == Backoff(if attempts == 0 then 0 else attempts - 1)
  {
    attempts, delays, request := 0, [], None;
    if userId.None? || batchId.None? {
      response := RealtimeError(userId, "Missing required parameters");
      return;
    }
    if frames.None? || frames.value == [] {
      response := RealtimeError(userId, "No frames to analyze");
      return;
    }
    var validFrames := ValidFrames(frames);
    if validFrames == [] {
      response := RealtimeError(userId, "No valid frames to analyze");
      return;
    }
    var protoFrames := ToProtoFrames(validFrames);
    var ts := if timestamp.Some? then timestamp.value else now;
    request := Some(ProtoFrameBatch(userId.value, batchId.value, ts, protoFrames));
    var end;
    end, attempts, delays := CallWithRetries(call, maxRetries);
    response := RealtimeResult(userId.value, end);
  }

  /** endDrivingSession: argument checks, timestamp defaults (one hour ago and
    * now), then the retry loop. */
  method EndDrivingSession(
    userId: Option<int>, sessionId: Option<int>, startTimestamp: Option<int>, endTimestamp: Option<int>,
    now: int, maxRetries: int, call: nat -> Attempt<FinalAnalysisResponse>)
    returns (response: FinalAnalysisResponse, request: Option<ProtoSessionEnd>, attempts: nat, delays: seq<int>)
    ensures userId.None? || sessionId.None? ==>
      response == FinalError(userId, "Missing required parameters") && request.None? && attempts == 0 && delays == []
    ensures userId.Some? && sessionId.Some? ==>
      var t := Retry(call, maxRetries);
      request == Some(ProtoSessionEnd(userId.value, sessionId.value,
        startTimestamp.GetOrElse(now - 3600000), endTimestamp.GetOrElse(now))) &&
      attempts == t.attempts && response == FinalResult(userId.value, t.end) &&
      delays == Backoff(if attempts == 0 then 0 else attempts - 1)
  {
    if userId.None? || sessionId.None? {
      response := FinalError(userId, "Missing required parameters");
      request, attempts, delays := None, 0, [];
      return;
    }
    var safeStart := if startTimestamp.Some? then startTimestamp.value else now - 3600000;
    var safeEnd := if endTimestamp.Some? then endTimestamp.value else now;
    request := Some(ProtoSessionEnd(userId.value, sessionId.value, safeStart, safeEnd));
    var end;
    end, attempts, delays := CallWithRetries(call, maxRetries);
    response := FinalResult(userId.value, end);
  }
}
