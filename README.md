# Driving analysis: a verified model

This project is a Dafny model of the server core of the DMS driving-analysis service. A phone streams
dashboard-camera frames over a WebSocket. The server decodes each binary batch, tracks the driving
session, asks a remote vision service over gRPC whether the driver is drowsy, on the phone or smoking,
and pushes risk alerts to subscribers over server-sent events. When a session ends, the server stores an
analysis result. That result then drives the business rules around it:

- daily, weekly and monthly user scores;
- feedback texts;
- personal and common challenges;
- monthly rankings.

Every request path also passes through a JWT filter.

One Dafny module stands for each source file of that core:

| module | file | what it holds |
|---|---|---|
| `Common` | `common.dfy` | Option/Result, Java's truncating division, 32-bit wrap-around, sums |
| `VideoDto` | `video_dto.dfy` | frame batches and the usable-frame filter |
| `FrameCodec` | `frame_codec.dfy` | the length-prefixed binary batch format, decoding and its inverse |
| `FrameEndpoint` | `frame_endpoint.dfy` | the WebSocket handler: open sessions, binary and text messages |
| `GrpcClient` | `grpc_client.dfy` | the analysis client's bounded retry loop and its error values |
| `VideoService` | `video_service.dfy` | the per-user session maps, frame validation, alert routing and session end |
| `AlertService` | `alert_service.dfy` | the SSE connection registry: three maps kept in step, keep-alive and idle sweeps |
| `Entities` | `entities.dfy` | the analysis result, the user and the initial state of a participation |
| `Feedback` | `feedback.dfy` | main risk, severities, content shape, risk totals, the weekly batch |
| `FeedbackScheduler` | `feedback_scheduler.dfy` | the weekly job's batches of 50 users |
| `JwtFilter` | `jwt_filter.dfy` | bearer-token extraction and the filter's decision |
| `UserScore` | `user_score.dfy` | the score table's running means and the score queries |
| `ChallengeRules`, `ChallengeStore` | `challenge_rules.dfy`, `challenge_store.dfy` | the comparator rules and the challenge and participation tables with their unique keys |
| `ChallengeService` | `challenge_service.dfy` | creating, finding and joining common challenges |
| `UserChallenges`, `UserChallengeService`, `LegacyUserChallengeService` | `user_challenges.dfy`, `user_challenge_service.dfy`, `legacy_user_challenge_service.dfy` | the two user-challenge service variants and what they share |
| `ChallengeProgressUpdater` | `challenge_progress_updater.dfy` | the fan-out of a result into four progress reports |
| `Ranking` | `ranking.dfy` | the monthly ranking recalculation, the period labels and the my-rank lookups |

Code that mutates maps, lists or tables is modelled as classes whose methods state their whole new state.
Examples are the session maps, the alert registry, the score, challenge and ranking tables, and the
socket handler's session set. Pure helpers are modelled as functions, and lemmas relate the two.

Database tables are sequences of records. Each repository query is a predicate or function over such a
sequence. A Spring transaction that throws rolls back, so it appears as an error result with the table
unchanged.

## Model

| member | source | states |
|---|---|---|
| VideoDto.KeepValid | drivinganalysis/src/main/java/com/sejong/drivinganalysis/service/VideoService.java:189-209 | only usable frames (present, at least one byte) are kept, every usable frame is kept, and a list of usable frames keeps its length |
| VideoDto.ValidFrames | drivinganalysis/src/main/java/com/sejong/drivinganalysis/service/VideoService.java:180-209 | a missing frame list yields no frames; otherwise the result is the in-order filter of the list (with KeepValidAt: each usable frame once per occurrence, in place) |
| VideoDto.KeepValidSingle | drivinganalysis/src/main/java/com/sejong/drivinganalysis/service/VideoService.java:194-208 | one entry is kept, unwrapped, exactly when it is present and has at least one byte |
| VideoDto.KeepValidAppend | drivinganalysis/src/main/java/com/sejong/drivinganalysis/service/VideoService.java:189-209 | filtering a concatenation is the concatenation of the filtered parts, so the filter keeps the original order |
| VideoDto.KeepValidAround | drivinganalysis/src/main/java/com/sejong/drivinganalysis/service/VideoService.java:189-209 | filtering a list split around one entry filters the part before, the entry and the part after |
| VideoDto.KeepValidAt | drivinganalysis/src/main/java/com/sejong/drivinganalysis/service/VideoService.java:189-209 | a usable entry is kept exactly once, between the kept frames before it and those after it; an unusable one is dropped and changes nothing else |
| VideoDto.KeepValidIdempotent | drivinganalysis/src/main/java/com/sejong/drivinganalysis/service/GrpcClientService.java:85-88 | filtering the already filtered frames again (as the analysis client does) changes nothing |
| VideoDto.AllValidKept | drivinganalysis/src/main/java/com/sejong/drivinganalysis/service/VideoService.java:193-209 | a list whose frames are all usable is passed on unchanged, in order |
| VideoDto.Wrap | drivinganalysis/src/main/java/com/sejong/drivinganalysis/controller/FrameWebSocketHandler.java:120-130 | the decoded frames become a list of present frames, one for one |
| VideoDto.Unwrap | drivinganalysis/src/main/java/com/sejong/drivinganalysis/service/GrpcClientService.java:85-88 | a list of present frames gives back those frames, one for one |
| FrameCodec.ReadInt32BE | drivinganalysis/src/main/java/com/sejong/drivinganalysis/controller/FrameWebSocketHandler.java:99-102 | the big-endian length prefix is a signed 32-bit value |
| FrameCodec.WriteInt32BE | drivinganalysis/src/main/java/com/sejong/drivinganalysis/controller/FrameWebSocketHandler.java:99-102 | the sender's prefix for a 32-bit value is four bytes |
| FrameCodec.Int32RoundTrip | drivinganalysis/src/main/java/com/sejong/drivinganalysis/controller/FrameWebSocketHandler.java:99-102 | reading back a written prefix gives the same signed 32-bit value |
| FrameCodec.DecodeFrames | drivinganalysis/src/main/java/com/sejong/drivinganalysis/controller/FrameWebSocketHandler.java:120-130 | on success one frame per metadata entry, and the read position only moves forward within the buffer |
| FrameCodec.PrependNothing | drivinganalysis/src/main/java/com/sejong/drivinganalysis/controller/FrameWebSocketHandler.java:120-130 | putting no frames in front of a frame-loop result leaves it as it is |
| FrameCodec.PrependTwice | drivinganalysis/src/main/java/com/sejong/drivinganalysis/controller/FrameWebSocketHandler.java:120-130 | frames collected in two steps equal frames collected at once |
| FrameCodec.Decode | drivinganalysis/src/main/java/com/sejong/drivinganalysis/controller/FrameWebSocketHandler.java:96-130 | a decoded message ends after the prefix and within the buffer, with one frame per metadata entry |
| FrameCodec.ToRequest | drivinganalysis/src/main/java/com/sejong/drivinganalysis/controller/FrameWebSocketHandler.java:136-141 | the batch request carries the metadata's user id, batch id and timestamp and the decoded frames |
| FrameCodec.DecodeMessage | drivinganalysis/src/main/java/com/sejong/drivinganalysis/controller/FrameWebSocketHandler.java:96-130 | the handler's step-by-step buffer reads, with their underflow, negative-size and missing-length failures, give exactly the decoding that Decode specifies |
| FrameCodec.Encode | drivinganalysis/src/main/java/com/sejong/drivinganalysis/controller/FrameWebSocketHandler.java:101-130 | a message is the prefix, the metadata bytes and the payloads, with no other bytes |
| FrameCodec.DecodeFramesRoundTrip | drivinganalysis/src/main/java/com/sejong/drivinganalysis/controller/FrameWebSocketHandler.java:120-130 | payloads whose lengths the metadata announces are read back one by one, each with its entry's frame id |
| FrameCodec.RoundTrip | drivinganalysis/src/main/java/com/sejong/drivinganalysis/controller/FrameWebSocketHandler.java:96-130 | an encoded message, with any trailing bytes, decodes to its metadata and exactly its payloads |
| FrameCodec.DecodeFramesOnPrefix | drivinganalysis/src/main/java/com/sejong/drivinganalysis/controller/FrameWebSocketHandler.java:120-130 | the frame loop gives the same result on any prefix of the buffer that holds all frames read |
| FrameCodec.DecodeOnPrefix | drivinganalysis/src/main/java/com/sejong/drivinganalysis/controller/FrameWebSocketHandler.java:96-130 | a message cut after its last frame decodes the same; one cut before it fails |
| FrameCodec.TrailingBytesIgnored | drivinganalysis/src/main/java/com/sejong/drivinganalysis/controller/FrameWebSocketHandler.java:120-130 | bytes after the last announced frame never change the decoding |
| FrameCodec.DecodeFramesExtend | drivinganalysis/src/main/java/com/sejong/drivinganalysis/controller/FrameWebSocketHandler.java:120-130 | a frame loop that succeeds gives the same result on a longer buffer |
| FrameCodec.DecodedFramesFollowMetadata | drivinganalysis/src/main/java/com/sejong/drivinganalysis/controller/FrameWebSocketHandler.java:121-129 | frame i carries entry i's frame id and exactly entry i's length in bytes |
| FrameEndpoint.Contains | drivinganalysis/src/main/java/com/sejong/drivinganalysis/controller/FrameWebSocketHandler.java:73 | true exactly when the marker occurs somewhere in the message |
| FrameEndpoint.ErrorReply | drivinganalysis/src/main/java/com/sejong/drivinganalysis/controller/FrameWebSocketHandler.java:193-204 | an error message is sent exactly when the session is present and open |
| FrameEndpoint.FrameEndpoint.constructor | drivinganalysis/src/main/java/com/sejong/drivinganalysis/controller/FrameWebSocketHandler.java:51-61 | the endpoint starts with no sessions |
| FrameEndpoint.FrameEndpoint.OnOpen | drivinganalysis/src/main/java/com/sejong/drivinganalysis/controller/FrameWebSocketHandler.java:51-53 | the session is registered under its id and no other entry changes |
| FrameEndpoint.FrameEndpoint.OnClose | drivinganalysis/src/main/java/com/sejong/drivinganalysis/controller/FrameWebSocketHandler.java:161-166 | exactly that session id is forgotten |
| FrameEndpoint.FrameEndpoint.OnError | drivinganalysis/src/main/java/com/sejong/drivinganalysis/controller/FrameWebSocketHandler.java:172-177 | exactly that session id is forgotten |
| FrameEndpoint.FrameEndpoint.OnBinaryMessage | drivinganalysis/src/main/java/com/sejong/drivinganalysis/controller/FrameWebSocketHandler.java:96-155 | an undecodable message is answered with an error and changes no session state or alert connection; an unknown user or a missing batch id is answered with an error and changes nothing; otherwise the reply is the acknowledgement for the metadata's user, batch and timestamp, the session start becomes the batch time when the batch id is 0 or no session was stored, the last-frame time becomes the batch time, and one alert per detection is sent when a decoded frame is usable |
| FrameEndpoint.FrameEndpoint.OnTextMessage | drivinganalysis/src/main/java/com/sejong/drivinganalysis/controller/FrameWebSocketHandler.java:68-88 | text without the END_SESSION marker changes nothing and gets no reply; an unreadable command gets an error and ends no session; a readable command is handed to the session end: without user or session id it gets an invalid-request error, for an unknown user a not-found error, both changing nothing; otherwise the reply is the summary with the final counts and `saved`, the user's session is forgotten in both maps and their alert connection removed |
| GrpcClient.Backoff | drivinganalysis/src/main/java/com/sejong/drivinganalysis/service/GrpcClientService.java:144-145 | the k-th pause is 1000·k ms, so pauses grow strictly (linear, not exponential) |
| GrpcClient.CallWithRetries | drivinganalysis/src/main/java/com/sejong/drivinganalysis/service/GrpcClientService.java:125-158 | the retry loop ends as the reference definition Retry says, after a pause before every attempt but the first |
| GrpcClient.RetryFromShape | drivinganalysis/src/main/java/com/sejong/drivinganalysis/service/GrpcClientService.java:135-153 | every attempt before the last failed retryably, and the loop stops at a reply, a non-retryable failure or the last allowed attempt |
| GrpcClient.RetryBounds | drivinganalysis/src/main/java/com/sejong/drivinganalysis/service/GrpcClientService.java:125-126 | at most max(0, maxRetries) calls are made, none exactly when maxRetries ≤ 0, and only then does the loop end with "Max retries exceeded" |
| GrpcClient.NonRetryableStops | drivinganalysis/src/main/java/com/sejong/drivinganalysis/service/GrpcClientService.java:140-153 | a failure other than UNAVAILABLE or DEADLINE_EXCEEDED ends the loop with its message right after that attempt |
| GrpcClient.NonRetryableStopsFrom | drivinganalysis/src/main/java/com/sejong/drivinganalysis/service/GrpcClientService.java:140-153 | the same, for the loop entered after earlier retryable failures |
| GrpcClient.ThirdAttemptSucceeds | drivinganalysis/src/main/java/com/sejong/drivinganalysis/service/GrpcClientService.java:41-42 | with the default of three attempts, two UNAVAILABLE failures then a reply give that reply after pauses of 1000 and 2000 ms |
| GrpcClient.AllRetryableFail | drivinganalysis/src/main/java/com/sejong/drivinganalysis/service/GrpcClientService.java:140-153 | with three retryable failures the third one's message is returned; the loop never runs out on its own |
| GrpcClient.RealtimeError | drivinganalysis/src/main/java/com/sejong/drivinganalysis/service/GrpcClientService.java:234-243 | nothing detected, analysis not completed, the message behind the "gRPC call failed: " prefix, user id or 0 |
| GrpcClient.FinalError | drivinganalysis/src/main/java/com/sejong/drivinganalysis/service/GrpcClientService.java:248-257 | all counts zero, analysis not completed, the message behind the prefix, user id or 0 |
| GrpcClient.ToProtoFrames | drivinganalysis/src/main/java/com/sejong/drivinganalysis/service/GrpcClientService.java:97-108 | one protocol frame per usable frame, same bytes, a missing frame id sent as 0 |
| GrpcClient.AnalyzeFrames | drivinganalysis/src/main/java/com/sejong/drivinganalysis/service/GrpcClientService.java:68-163 | missing ids, no frames or no usable frames give the matching error response and no call; otherwise the request holds the usable frames and the timestamp (or now) and the result is that of the retry loop |
| GrpcClient.EndDrivingSession | drivinganalysis/src/main/java/com/sejong/drivinganalysis/service/GrpcClientService.java:169-229 | missing ids give the error response with no call; otherwise the request holds the start (or now minus one hour) and end (or now) and the result is that of the retry loop |
| VideoService.AlertKinds | drivinganalysis/src/main/java/com/sejong/drivinganalysis/service/VideoService.java:118-146 | no alert for an incomplete analysis; otherwise an alert for each detection flag that is set and only for those, in the order drowsiness, phone, smoking |
| VideoService.FailedAnalysisAlertsNothing | drivinganalysis/src/main/java/com/sejong/drivinganalysis/service/VideoService.java:118-122 | a call that ends in an error never raises an alert |
| VideoService.AlertsOf | drivinganalysis/src/main/java/com/sejong/drivinganalysis/service/VideoService.java:128-145 | one alert per risk, for the user, marked detected, tagged with the batch id |
| VideoService.SentEachKeepsOthers | drivinganalysis/src/main/java/com/sejong/drivinganalysis/service/VideoService.java:124-146 | sending a series of alerts keeps the emitter maps in step and leaves every other user's emitter as it was |
| VideoService.SentEachWithoutEmitter | drivinganalysis/src/main/java/com/sejong/drivinganalysis/service/AlertService.java:262-266 | alerts for a user without a connection change nothing |
| VideoService.SentEachAllDelivered | drivinganalysis/src/main/java/com/sejong/drivinganalysis/service/VideoService.java:124-146 | when every send succeeds, the alerts are delivered in detection order and the user stays connected |
| VideoService.SessionBounds | drivinganalysis/src/main/java/com/sejong/drivinganalysis/service/VideoService.java:304-310 | the session start is the stored one or 0; the last frame is the stored one or the start |
| VideoService.SessionDuration | drivinganalysis/src/main/java/com/sejong/drivinganalysis/service/VideoService.java:345-346 | the recorded duration is at least one second and a 32-bit value; it is the whole seconds elapsed when that is at least one and fits, and 1 for less than two seconds |
| VideoService.SessionWithoutFramesLastsOneSecond | drivinganalysis/src/main/java/com/sejong/drivinganalysis/service/VideoService.java:305-346 | a session with no recorded frame time is recorded as one second long |
| VideoService.VideoService.constructor | drivinganalysis/src/main/java/com/sejong/drivinganalysis/service/VideoService.java:48-50 | both session maps start empty |
| VideoService.VideoService.ValidateFrames | drivinganalysis/src/main/java/com/sejong/drivinganalysis/service/VideoService.java:179-217 | the loop keeps exactly the frames the filter ValidFrames specifies |
| VideoService.VideoService.ProcessFrameBatch | drivinganalysis/src/main/java/com/sejong/drivinganalysis/service/VideoService.java:60-174 | a missing batch or user id is INVALID_REQUEST and an unknown user USER_NOT_FOUND, both with nothing changed; otherwise the start time is set for batch 0 or a new session, the last-frame time is always set, one alert is sent per detection when some frame is usable, and the acknowledgement echoes the batch |
| VideoService.VideoService.AnalyzeAndAlert | drivinganalysis/src/main/java/com/sejong/drivinganalysis/service/VideoService.java:100-153 | the alerts sent are those AlertKinds derives from the retry loop's result, sent one after the other |
| VideoService.VideoService.EndDrivingSession | drivinganalysis/src/main/java/com/sejong/drivinganalysis/service/VideoService.java:286-415 | missing ids are INVALID_REQUEST and an unknown user USER_NOT_FOUND, with nothing changed; otherwise the final counts are requested for the stored start, the session is forgotten in both maps, the alert connection is removed and a completed analysis result with the counts and the session's duration is recorded |
| AlertService.SentEffect | drivinganalysis/src/main/java/com/sejong/drivinganalysis/service/AlertService.java:259-292 | a send keeps the three maps in step, removes the user only when its send fails, removes nobody else, and delivers the alert exactly when the user is connected and the send succeeds |
| AlertService.CleanedIdempotent | drivinganalysis/src/main/java/com/sejong/drivinganalysis/service/AlertService.java:326-347 | cleaning a user up twice is the same as once |
| AlertService.CleanedLocal | drivinganalysis/src/main/java/com/sejong/drivinganalysis/service/AlertService.java:326-347 | cleaning up an unconnected user changes nothing; cleanup keeps the maps in step and leaves every other user's emitter, connection time and last activity as they were |
| AlertService.CleanedAllStep | drivinganalysis/src/main/java/com/sejong/drivinganalysis/service/AlertService.java:197-199 | cleaning up users one after another equals cleaning up the whole set |
| AlertService.KeepAliveEffect | drivinganalysis/src/main/java/com/sejong/drivinganalysis/service/AlertService.java:159-207 | after the keep-alive sweep a user is connected iff it was and its ping succeeded; survivors keep their emitter and connection time and get last activity = now; failed emitters are completed; nothing is delivered |
| AlertService.IdleSweepEffect | drivinganalysis/src/main/java/com/sejong/drivinganalysis/service/AlertService.java:212-253 | after the idle sweep a user is connected iff it was and was idle for at most IDLE_TIMEOUT (15 minutes); survivors are untouched |
| AlertService.AlertHub.constructor | drivinganalysis/src/main/java/com/sejong/drivinganalysis/service/AlertService.java:32-39 | no connections, nothing completed or delivered |
| AlertService.AlertHub.CleanupUser | drivinganalysis/src/main/java/com/sejong/drivinganalysis/service/AlertService.java:326-347 | the user is removed from all three maps and its emitter completed |
| AlertService.AlertHub.CreateAlertConnection | drivinganalysis/src/main/java/com/sejong/drivinganalysis/service/AlertService.java:79-153 | a null or non-positive id is rejected with nothing changed; a live existing emitter is reused with its activity refreshed; otherwise the old one is cleaned up and a fresh emitter is registered only if its connect event went out, and is completed otherwise |
| AlertService.AlertHub.SendKeepAliveToAll | drivinganalysis/src/main/java/com/sejong/drivinganalysis/service/AlertService.java:159-207 | the loop's result is KeptAlive: pings refresh the successful users, then the failed ones are cleaned up |
| AlertService.AlertHub.CleanupAll | drivinganalysis/src/main/java/com/sejong/drivinganalysis/service/AlertService.java:197-199 | cleaning up each user of a set in turn gives CleanedAll of that set |
| AlertService.AlertHub.CleanupStaleConnections | drivinganalysis/src/main/java/com/sejong/drivinganalysis/service/AlertService.java:212-253 | exactly the connected users idle for longer than IDLE_TIMEOUT are cleaned up |
| AlertService.AlertHub.SendRiskBehaviorAlert | drivinganalysis/src/main/java/com/sejong/drivinganalysis/service/AlertService.java:259-292 | a null user changes nothing; otherwise the state becomes Sent: delivered and refreshed on success, cleaned up on failure, untouched without an emitter |
| AlertService.AlertHub.RemoveConnection | drivinganalysis/src/main/java/com/sejong/drivinganalysis/service/AlertService.java:297-321 | a null or unconnected user changes nothing; a connected one is cleaned up whatever the close event's outcome |
| Entities.ClampScore | drivinganalysis/src/main/java/com/sejong/drivinganalysis/entity/AnalysisResult.java:74 | the stored score is never negative and equals the computed score when that is not negative |
| Entities.AnalysisResult.Create | drivinganalysis/src/main/java/com/sejong/drivinganalysis/entity/AnalysisResult.java:52-66 | a new result carries the given counts and duration, is COMPLETED, was analysed now, and has the base score 100 |
| Entities.AnalysisResult.CalculateScore | drivinganalysis/src/main/java/com/sejong/drivinganalysis/entity/AnalysisResult.java:69-75 | the score becomes 100 whatever the counts, and nothing else changes |
| Entities.JoinedStartsOpen | drivinganalysis/src/main/java/com/sejong/drivinganalysis/entity/UserChallenge.java:57-65 | a fresh participation has progress 0, is IN_PROGRESS, unrewarded, not completed, and belongs to the given user and challenge |
| Entities.User.constructor | drivinganalysis/src/main/java/com/sejong/drivinganalysis/entity/User.java:37-38 | a new user has no participations |
| Entities.User.Attach | drivinganalysis/src/main/java/com/sejong/drivinganalysis/entity/UserChallenge.java:51-54 | the participation now names the user and is appended to the user's list, which grows by exactly one |
| Entities.JoinChallenge | drivinganalysis/src/main/java/com/sejong/drivinganalysis/entity/UserChallenge.java:57-65 | the participation built is the open one Joined describes, and it is appended to the user's list |
| Feedback.MainFeedbackType | drivinganalysis/src/main/java/com/sejong/drivinganalysis/service/FeedbackService.java:377-388 | the type is the first of drowsiness, phone use, smoking whose count is positive, GENERAL when none is; comparing a null count fails |
| Feedback.GeneralMeansNoRisk | drivinganalysis/src/main/java/com/sejong/drivinganalysis/service/FeedbackService.java:377-388 | with all counts present, GENERAL exactly when no count is positive |
| Feedback.SeverityForScore | drivinganalysis/src/main/java/com/sejong/drivinganalysis/service/FeedbackService.java:393-403 | LOW iff score ≥ 75, MEDIUM iff 60 ≤ score < 75, HIGH iff score < 60 |
| Feedback.SeverityForScoreMonotone | drivinganalysis/src/main/java/com/sejong/drivinganalysis/service/FeedbackService.java:393-403 | a lower score is never judged less severe |
| Feedback.SeverityForCount | drivinganalysis/src/main/java/com/sejong/drivinganalysis/service/FeedbackService.java:612-620 | LOW iff count ≤ 2, MEDIUM iff 3 ≤ count ≤ 5, HIGH iff count > 5 |
| Feedback.SeverityForCountMonotone | drivinganalysis/src/main/java/com/sejong/drivinganalysis/service/FeedbackService.java:612-620 | more occurrences are never judged less severe |
| Feedback.TimeOfDayName | drivinganalysis/src/main/java/com/sejong/drivinganalysis/service/FeedbackService.java:706-716 | 5–11 morning, 12–17 afternoon, 18–21 evening, every other hour late night, each with the hour itself |
| Feedback.FeedbackContent | drivinganalysis/src/main/java/com/sejong/drivinganalysis/service/FeedbackService.java:408-435 | a drive's text always has an opening and at least one more part |
| Feedback.FeedbackContentShape | drivinganalysis/src/main/java/com/sejong/drivinganalysis/service/FeedbackService.java:408-470 | from 90 on, GENERAL mentions no risk and any other type gets the short note; below 90 the note cites the count; the closing caution is appended exactly below 60 |
| Feedback.DrivingFeedback | drivinganalysis/src/main/java/com/sejong/drivinganalysis/service/FeedbackService.java:45-56 | a drive's feedback exists exactly when its type can be determined, and belongs to the result's user |
| Feedback.DrivingFeedbackFacts | drivinganalysis/src/main/java/com/sejong/drivinganalysis/service/FeedbackService.java:45-56 | the feedback is about a risk whose count is positive, cites that count below 90, is LOW and opens with praise from 90 on, and ends with the closing caution exactly when it is HIGH |
| Feedback.RiskTotalsShape | drivinganalysis/src/main/java/com/sejong/drivinganalysis/service/FeedbackService.java:489-516 | GENERAL is never a key, no total is zero, and no results give an empty map |
| Feedback.AnalyzeRiskBehaviors | drivinganalysis/src/main/java/com/sejong/drivinganalysis/service/FeedbackService.java:489-520 | the loop's map holds, for each risk, the sum of its counts over the present results (null as 0), without the zero totals |
| Feedback.EnumIndex | drivinganalysis/src/main/java/com/sejong/drivinganalysis/service/FeedbackService.java:495 | every type has its place in the enum's iteration order |
| Feedback.MaxEntry | drivinganalysis/src/main/java/com/sejong/drivinganalysis/service/FeedbackService.java:530-532 | the stream maximum: none iff no listed key is in the map; otherwise an entry of the map whose value is at least every listed value, the first such in the listed order |
| Feedback.MostFrequentRisk | drivinganalysis/src/main/java/com/sejong/drivinganalysis/service/FeedbackService.java:525-533 | null iff the map is empty; otherwise an entry of the map whose value is at least every other value, and of equal values the first in enum order |
| Feedback.WeeklyFeedbackFor | drivinganalysis/src/main/java/com/sejong/drivinganalysis/service/FeedbackService.java:130-159 | no feedback iff no risk occurred in the week; otherwise a feedback for the user about a risk (never GENERAL) with the largest total and the weekly severity of that total |
| Feedback.WeeklyBatchBounds | drivinganalysis/src/main/java/com/sejong/drivinganalysis/service/FeedbackService.java:94-115 | no more feedbacks than ids, each for a known id of the batch with results in the week |
| Feedback.WeeklyBatchAppend | drivinganalysis/src/main/java/com/sejong/drivinganalysis/service/FeedbackService.java:94-115 | handling two id lists one after the other gives the feedbacks of both, in order |
| Feedback.GenerateWeeklyFeedbacksBatch | drivinganalysis/src/main/java/com/sejong/drivinganalysis/service/FeedbackService.java:62-124 | a null or empty list gives no feedback; otherwise the loop skips unknown users, users without results and weeks without risk, exactly as WeeklyBatch describes |
| FeedbackScheduler.BatchCount | drivinganalysis/src/main/java/com/sejong/drivinganalysis/scheduler/FeedbackScheduler.java:67-77 | no batch iff no id; otherwise c batches with 50(c−1) < n ≤ 50c, that is n/50 rounded up |
| FeedbackScheduler.Batches | drivinganalysis/src/main/java/com/sejong/drivinganalysis/scheduler/FeedbackScheduler.java:67-70 | there are BatchCount(n) slices |
| FeedbackScheduler.BatchSizes | drivinganalysis/src/main/java/com/sejong/drivinganalysis/scheduler/FeedbackScheduler.java:69-70 | every batch holds 1 to 50 ids and all but the last exactly 50 |
| FeedbackScheduler.BatchesPrefix | drivinganalysis/src/main/java/com/sejong/drivinganalysis/scheduler/FeedbackScheduler.java:67-76 | the first k batches together are the first min(50k, n) ids |
| FeedbackScheduler.NextBatch | drivinganalysis/src/main/java/com/sejong/drivinganalysis/scheduler/FeedbackScheduler.java:67-76 | batch k starts at 50k inside the list and is the slice [50k, min(50k+50, n)) |
| FeedbackScheduler.BatchesCover | drivinganalysis/src/main/java/com/sejong/drivinganalysis/scheduler/FeedbackScheduler.java:68-74 | the batches laid end to end are the id list: every id is handed over exactly once, in order |
| FeedbackScheduler.GenerateWeeklyFeedbacks | drivinganalysis/src/main/java/com/sejong/drivinganalysis/scheduler/FeedbackScheduler.java:41-83 | the loop hands over exactly the slices Batches describes (none for no ids) and collects the same feedbacks as one batch of all ids |
| JwtFilter.ResolveToken | drivinganalysis/src/main/java/com/sejong/drivinganalysis/utils/JwtTokenFilter.java:67-73 | a token exactly when the header is present and starts with "Bearer " (case-sensitive); then "Bearer " + token is the header and the token is 7 characters shorter |
| JwtFilter.ResolveRoundTrip | drivinganalysis/src/main/java/com/sejong/drivinganalysis/utils/JwtTokenFilter.java:69-70 | any token, even an empty one, sent as "Bearer " + token is resolved back to itself |
| JwtFilter.ResolveRejects | drivinganalysis/src/main/java/com/sejong/drivinganalysis/utils/JwtTokenFilter.java:68-72 | a lower-case "bearer " prefix, a missing, an empty or a blank header carry no token |
| JwtFilter.Decide | drivinganalysis/src/main/java/com/sejong/drivinganalysis/utils/JwtTokenFilter.java:37-58 | no token continues unauthenticated; the request is rejected exactly when its token is expired or invalid; the user lookup's exception escapes exactly when the token is valid but names no existing user; it continues authenticated, as the looked-up user, exactly when the token is valid and the user exists |
| JwtFilter.FilterExchange.constructor | drivinganalysis/src/main/java/com/sejong/drivinganalysis/utils/JwtTokenFilter.java:33-35 | the exchange starts with no error code and the chain not yet continued |
| JwtFilter.FilterExchange.DoFilterInternal | drivinganalysis/src/main/java/com/sejong/drivinganalysis/utils/JwtTokenFilter.java:33-59 | a rejected request gets status 401 and the error code, with authentication untouched and the chain not continued; when the user lookup throws, nothing changes and the chain is not continued; any other request continues, authenticated as the token's user when the token was valid |
| Common.JavaDiv | drivinganalysis/src/main/java/com/sejong/drivinganalysis/service/VideoService.java:345 | Java's long division truncates toward zero: for a positive divisor the quotient rounds a non-negative dividend down and a negative one up |
| Common.ToInt32 | drivinganalysis/src/main/java/com/sejong/drivinganalysis/service/VideoService.java:345 | the (int) narrowing keeps a value congruent modulo 2^32 within the int range, and changes no value already in range |
| Ranking.AddRowSums | drivinganalysis/src/main/java/com/sejong/drivinganalysis/ranking/service/RankingService.java:170-179 | adding a row keeps every aggregate's sum and count equal to its user's contributions |
| UserScore.DivBetween | drivinganalysis/src/main/java/com/sejong/drivinganalysis/service/UserScoreService.java:52 | Java's truncating division of a total between n·lo and n·hi by n stays in [lo, hi] |
| UserScore.MeanBounds | drivinganalysis/src/main/java/com/sejong/drivinganalysis/service/UserScoreService.java:47-56 | the truncated mean of values in [lo, hi] lies in [lo, hi] |
| UserScore.DailyScore | drivinganalysis/src/main/java/com/sejong/drivinganalysis/service/UserScoreService.java:47-56 | the new session's own score when the day has no session; otherwise the truncated mean of the day's scores (d·n ≤ sum < (d+1)·n); within [0,100] when the inputs are |
| UserScore.PeriodScore | drivinganalysis/src/main/java/com/sejong/drivinganalysis/service/UserScoreService.java:85-91 | the truncated mean of the earlier days' daily scores and today's; today's daily score when there are no earlier days; within [0,100] when the inputs are |
| UserScore.Between | drivinganalysis/src/main/java/com/sejong/drivinganalysis/service/UserScoreService.java:70-71 | exactly the records of the user dated within the range, both ends included |
| UserScore.Dailies | drivinganalysis/src/main/java/com/sejong/drivinganalysis/service/UserScoreService.java:85-87 | the records' daily scores one for one, and none exactly when some daily score is null (unboxing it throws) |
| UserScore.FindRow | drivinganalysis/src/main/java/com/sejong/drivinganalysis/service/UserScoreService.java:59-60 | the first record of the user on the day, or none when there is no such record |
| UserScore.WithToday | drivinganalysis/src/main/java/com/sejong/drivinganalysis/service/UserScoreService.java:59-60 | after find-or-create the table holds a record of the user for today |
| UserScore.PeriodUpdateIsRunningMean | drivinganalysis/src/main/java/com/sejong/drivinganalysis/service/UserScoreService.java:70-92 | because today's record exists by the time the period is queried, the "first record of the period" branch is never taken: the weekly and monthly scores are always the mean of the earlier days and today |
| UserScore.BetweenAppendLater | drivinganalysis/src/main/java/com/sejong/drivinganalysis/service/UserScoreService.java:59-60 | a record created for a later day does not change the earlier days' records |
| UserScore.PeriodUpdateBounds | drivinganalysis/src/main/java/com/sejong/drivinganalysis/service/UserScoreService.java:65-121 | with valid scores everywhere the new weekly and monthly scores stay within [0,100] |
| UserScore.ScoreTable.constructor | drivinganalysis/src/main/java/com/sejong/drivinganalysis/service/UserScoreService.java:27 | the table starts empty |
| UserScore.ScoreTable.UpdateUserScore | drivinganalysis/src/main/java/com/sejong/drivinganalysis/service/UserScoreService.java:35-127 | an unknown user is USER_NOT_FOUND and a null daily score among the averaged records fails, both with the table unchanged; otherwise today's record (found, or created with a fresh id) gets the daily score and the weekly and monthly running means, and no other record changes |
| UserScore.ValidateYearMonth | drivinganalysis/src/main/java/com/sejong/drivinganalysis/service/UserScoreService.java:641-648 | INVALID_YEAR iff the year is outside [2000,2100]; otherwise INVALID_MONTH iff the month is outside [1,12]; no error iff both are in range |
| UserScore.Dispatch | drivinganalysis/src/main/java/com/sejong/drivinganalysis/service/UserScoreService.java:141-167 | year+month+week selects the week, year+month the month, a year alone the year; otherwise the given range, or the seven days ending today |
| UserScore.SelectScore | drivinganalysis/src/main/java/com/sejong/drivinganalysis/service/UserScoreService.java:172-187 | "weekly" and "monthly" pick those scores, any other period the daily score, and a null score reads as 0 |
| UserScore.RangeScores | drivinganalysis/src/main/java/com/sejong/drivinganalysis/service/UserScoreService.java:170-190 | one point per record, in the records' order, with its id, date and selected score |
| UserScore.Positives | drivinganalysis/src/main/java/com/sejong/drivinganalysis/service/UserScoreService.java:549 | exactly the positive values |
| UserScore.Values | drivinganalysis/src/main/java/com/sejong/drivinganalysis/service/UserScoreService.java:548 | the series' values one for one |
| UserScore.AverageScore | drivinganalysis/src/main/java/com/sejong/drivinganalysis/service/UserScoreService.java:546-552 | 0 when no value is positive; otherwise the mean of the positive values rounded half up (within half of the exact mean); within [0,100] for valid scores |
| UserScore.AverageFacts | drivinganalysis/src/main/java/com/sejong/drivinganalysis/service/UserScoreService.java:546-552 | the rounded mean is within half of the exact mean and stays within [0,100] for valid scores |
| UserScore.SumOfPositives | drivinganalysis/src/main/java/com/sejong/drivinganalysis/service/UserScoreService.java:549-550 | a sum of positive values is at least their number, so the rounded mean is at least 1 |
| UserScore.RoundedBounds | drivinganalysis/src/main/java/com/sejong/drivinganalysis/service/UserScoreService.java:198 | Math.round of total/n lands within half of it, and in [0,100] when the total is at most 100·n |
| UserScore.RangeResponse | drivinganalysis/src/main/java/com/sejong/drivinganalysis/service/UserScoreService.java:156-200 | one point per record with its date and selected score, an average within [0,100] for valid scores, and no risk count filled in |
| UserScore.FirstOn | drivinganalysis/src/main/java/com/sejong/drivinganalysis/service/UserScoreService.java:368-370 | the first record dated that day, or none when there is none |
| UserScore.DayEntry | drivinganalysis/src/main/java/com/sejong/drivinganalysis/service/UserScoreService.java:313-320 | the point for a day: the first record on that day with a null score as 0, or a zero point without an id when the day has no record |
| UserScore.ScoresForMonth | drivinganalysis/src/main/java/com/sejong/drivinganalysis/service/UserScoreService.java:288-330 | an invalid year or month is rejected; otherwise exactly one point per day of the month in date order, each the day's DayEntry, with their rounded average and no risk count |
| UserScore.ScoresForWeek | drivinganalysis/src/main/java/com/sejong/drivinganalysis/service/UserScoreService.java:336-390 | an invalid year or month is rejected; INVALID_WEEK iff neither the week's first nor last day falls in the month; otherwise seven points from the week's Monday, each the day's DayEntry, with their rounded average |
| ChallengeRules.Judge | drivinganalysis/src/main/java/com/sejong/drivinganalysis/service/UserChallengeServiceImpl.java:205-209 | a ">=" or "<=" comparison against a null target fails (unboxing it throws); otherwise the outcome holds exactly when the value meets the target under the comparator, and an unknown comparator never holds |
| ChallengeRules.SatisfiedMonotone | drivinganalysis/src/main/java/com/sejong/drivinganalysis/service/UserChallengeServiceImpl.java:133-137 | raising the value never loses a met ">=" target and lowering it never loses a met "<=" target |
| ChallengeRules.ProgressStep | drivinganalysis/src/main/java/com/sejong/drivinganalysis/service/UserChallengeServiceImpl.java:128-142 | progress becomes the old progress (null as 0) plus the value; a met comparator completes a not-yet-completed challenge at that moment; a completed one keeps its status and completion time; identity and every other field unchanged; fails only on a comparison against a null target |
| ChallengeRules.ProgressAccumulates | drivinganalysis/src/main/java/com/sejong/drivinganalysis/service/UserChallengeServiceImpl.java:128-129 | two successive updates leave the sum of both values on top of the old progress |
| ChallengeRules.MetricStep | drivinganalysis/src/main/java/com/sejong/drivinganalysis/service/UserChallengeServiceImpl.java:157-172 | progress becomes old progress plus the value; a met comparator completes the record at that moment; a null or unknown comparator only records the progress; fails only on a comparison against a null target |
| ChallengeRules.Settle | drivinganalysis/src/main/java/com/sejong/drivinganalysis/service/UserChallengeServiceImpl.java:205-214 | a null comparator throws; otherwise COMPLETED exactly on success and FAILED exactly otherwise, the reward marked given on success when it was explicitly not yet given, progress and every other field unchanged |
| ChallengeRules.Step | drivinganalysis/src/main/java/com/sejong/drivinganalysis/service/UserChallengeServiceImpl.java:185-214 | whatever a pass does to one record keeps its id, owner and challenge |
| ChallengeRules.MapAll | drivinganalysis/src/main/java/com/sejong/drivinganalysis/service/UserChallengeServiceImpl.java:152-173 | the pass succeeds exactly when every record's step does, and then yields each record's step in order; otherwise it fails with the error of the first failing record |
| ChallengeRules.ScoreTarget | drivinganalysis/src/main/java/com/sejong/drivinganalysis/service/UserChallengeServiceImpl.java:226 | the score target is the average plus ten, capped at 100, and never below an average of at most 100 |
| ChallengeRules.RiskTarget | drivinganalysis/src/main/java/com/sejong/drivinganalysis/service/UserChallengeServiceImpl.java:257-258 | for a count in [10,100) the target is half of it rounded down, at least 5 and below the count |
| ChallengeRules.MetricEntries | drivinganalysis/src/main/java/com/sejong/drivinganalysis/service/UserChallengeServiceImpl.java:239-242 | at most one entry per present risk count, each named by one of the three risk metrics |
| ChallengeRules.MaxMetric | drivinganalysis/src/main/java/com/sejong/drivinganalysis/service/UserChallengeServiceImpl.java:244-251 | none exactly when no entry exceeds -1; otherwise the first entry holding the largest value, which no entry exceeds |
| ChallengeStore.SameIdentitiesKeepValid | drivinganalysis/src/main/java/com/sejong/drivinganalysis/entity/UserChallenge.java:12-14 | replacing records by updated copies with the same identities keeps the participation table's unique key and ids valid |
| ChallengeStore.FindChallenge | drivinganalysis/src/main/java/com/sejong/drivinganalysis/challenge/ChallengeServiceImpl.java:83-84 | the position of the challenge with that id, or none exactly when no challenge has it |
| ChallengeStore.FindParticipation | drivinganalysis/src/main/java/com/sejong/drivinganalysis/service/UserChallengeServiceImpl.java:125-126 | the position of the participation with that id, or none exactly when no record has it |
| ChallengeStore.Store.constructor | drivinganalysis/src/main/java/com/sejong/drivinganalysis/entity/Challenge.java:13-18 | both tables start empty over the given users, with their unique keys holding |
| ChallengeStore.Store.SaveChallenge | drivinganalysis/src/main/java/com/sejong/drivinganalysis/entity/Challenge.java:13-18 | a challenge whose title and period are taken is a unique-key violation with nothing saved; otherwise it is appended under the next id and the participation table is unchanged |
| ChallengeStore.Store.SaveParticipation | drivinganalysis/src/main/java/com/sejong/drivinganalysis/entity/UserChallenge.java:12-14 | a second participation of a user in the same challenge is a unique-key violation with nothing saved; otherwise it is appended under the next id and the challenge table is unchanged |
| ChallengeStore.Store.Replace | drivinganalysis/src/main/java/com/sejong/drivinganalysis/service/UserChallengeServiceImpl.java:129 | only the one record is replaced, by a copy with the same identity, and the tables stay valid |
| ChallengeStore.Store.ApplyPass | drivinganalysis/src/main/java/com/sejong/drivinganalysis/service/UserChallengeServiceImpl.java:152-173 | the table becomes the pass's result when every record succeeds; on the first failure the error is returned and the transaction leaves the table as it was |
| ChallengeService.CreateChallenge | drivinganalysis/src/main/java/com/sejong/drivinganalysis/challenge/ChallengeServiceImpl.java:32-60 | DUPLICATE exactly when a challenge with the same title, start and end exists, with nothing saved; otherwise the requested challenge is saved and its new id returned, the participations untouched |
| ChallengeService.GetChallengeById | drivinganalysis/src/main/java/com/sejong/drivinganalysis/challenge/ChallengeServiceImpl.java:82-86 | found exactly when a challenge has that id, and then it is that challenge; not-found otherwise |
| ChallengeService.JoinChallenge | drivinganalysis/src/main/java/com/sejong/drivinganalysis/challenge/ChallengeServiceImpl.java:91-103 | an existing participation of the user in the challenge is rejected first, then an unknown user, then an unknown challenge, each saving nothing; otherwise one IN_PROGRESS participation with progress 0 is appended and true returned |
| ChallengeProgressUpdater.ToLong | drivinganalysis/src/main/java/com/sejong/drivinganalysis/configuration/ChallengeProgressUpdater.java:23-25 | a missing count reports as 0 and a present one unchanged |
| ChallengeProgressUpdater.Reports | drivinganalysis/src/main/java/com/sejong/drivinganalysis/configuration/ChallengeProgressUpdater.java:17-20 | four reports in order: drowsiness, phone use, smoking, driving score, each with its count or 0 |
| ChallengeProgressUpdater.Run | drivinganalysis/src/main/java/com/sejong/drivinganalysis/configuration/ChallengeProgressUpdater.java:14-21 | no reports leave the table as it is; a successful run keeps the table's length |
| ChallengeProgressUpdater.TrailingDrivingScoreIsNoOp | drivinganalysis/src/main/java/com/sejong/drivinganalysis/configuration/ChallengeProgressUpdater.java:20 | the closing driving-score report changes neither the table nor the outcome |
| ChallengeProgressUpdater.ScoreNeverMatters | drivinganalysis/src/main/java/com/sejong/drivinganalysis/configuration/ChallengeProgressUpdater.java:17-20 | the outcome of an update does not depend on the result's driving score |
| ChallengeProgressUpdater.RunFirst | drivinganalysis/src/main/java/com/sejong/drivinganalysis/configuration/ChallengeProgressUpdater.java:17-20 | a run is its first report's pass followed by the rest; a failing report stops the run with that error and the table as the failed pass left it |
| ChallengeProgressUpdater.UpdateFrom | drivinganalysis/src/main/java/com/sejong/drivinganalysis/configuration/ChallengeProgressUpdater.java:14-21 | the table and outcome are those of making the four reports in order for the result's user |
| UserChallenges.FactoriesStartOpen | drivinganalysis/src/main/java/com/sejong/drivinganalysis/entity/UserChallenge.java:57-65 | a freshly created participation, common or personal, is IN_PROGRESS with progress 0 and no reward given, tied to its user and to its challenge or metric and start day |
| UserChallenges.UpdateProgress | drivinganalysis/src/main/java/com/sejong/drivinganalysis/service/UserChallengeServiceImpl.java:122-144 | an unknown id is not-found; otherwise only that record changes, to its ProgressStep, and a failing step leaves the table unchanged |
| UserChallenges.JoinCommonChallenge | drivinganalysis/src/main/java/com/sejong/drivinganalysis/service/UserChallengeServiceImpl.java:36-51 | an unknown user or challenge is not-found; a participation in the challenge from its start day is a duplicate; otherwise exactly one participation in it is appended, each failure leaving the table unchanged |
| UserChallenges.CreateUserChallenge | drivinganalysis/src/main/java/com/sejong/drivinganalysis/service/UserChallengeServiceImpl.java:59-94 | with a challenge id: as joining that challenge, the duplicate check using the request's start day; without: a personal challenge already tracking the metric from the start day is a duplicate and a negative target is rejected; otherwise exactly the requested personal challenge is appended |
| UserChallenges.FindMaxMetric | drivinganalysis/src/main/java/com/sejong/drivinganalysis/service/UserChallengeServiceImpl.java:244-251 | the loop over the entries finds exactly MaxMetric's entry, and -1 with no metric when there is none |
| UserChallenges.TracksAtOther | drivinganalysis/src/main/java/com/sejong/drivinganalysis/service/UserChallengeServiceImpl.java:262-263 | a new challenge on another metric does not change whether the user already tracks a metric from a day |
| UserChallenges.Created | drivinganalysis/src/main/java/com/sejong/drivinganalysis/service/UserChallengeServiceImpl.java:235 | an optional creation adds at most one record |
| UserChallenges.MaxMetricIsRisk | drivinganalysis/src/main/java/com/sejong/drivinganalysis/service/UserChallengeServiceImpl.java:239-251 | the most frequent risk behaviour is one of the three risk metrics, never the driving score |
| UserChallenges.CreateScoreChallenge | drivinganalysis/src/main/java/com/sejong/drivinganalysis/service/UserChallengeServiceImpl.java:224-237 | a ">=" challenge on the driving score for the week from Monday with target min(avg+10,100) is appended exactly when the average is positive and no driving-score challenge starts that Monday; nothing else changes |
| UserChallenges.CreateRiskChallenge | drivinganalysis/src/main/java/com/sejong/drivinganalysis/service/UserChallengeServiceImpl.java:244-281 | a "<=" challenge on the most frequent risk metric with half its count as target is appended exactly when that count lies in [10,100) and the user tracks no such challenge from today; nothing is created otherwise |
| UserChallenges.CreateWeeklyPersonalChallenges | drivinganalysis/src/main/java/com/sejong/drivinganalysis/service/UserChallengeServiceImpl.java:218-282 | the score challenge, then the risk challenge, each exactly under its own condition, and nothing else appended |
| UserChallengeService.UpdateProgressByMetric | drivinganalysis/src/main/java/com/sejong/drivinganalysis/service/UserChallengeServiceImpl.java:146-174 | the table becomes the metric pass's result, which skips driving-score progress; on the first failure the table is unchanged |
| UserChallengeService.DrivingScoreIgnored | drivinganalysis/src/main/java/com/sejong/drivinganalysis/service/UserChallengeServiceImpl.java:153-155 | progress on the driving score changes no record |
| UserChallengeService.MetricRecord | drivinganalysis/src/main/java/com/sejong/drivinganalysis/service/UserChallengeServiceImpl.java:157-172 | a record fails exactly when it is selected and compares against a null target; otherwise a selected record progresses and completes when met, and any other record is unchanged |
| UserChallengeService.MetricProgress | drivinganalysis/src/main/java/com/sejong/drivinganalysis/service/UserChallengeServiceImpl.java:149-172 | for any other metric the pass fails exactly when some selected record throws, and otherwise every record is progressed or left alone as MetricRecord says |
| UserChallengeService.EvaluateChallenges | drivinganalysis/src/main/java/com/sejong/drivinganalysis/service/UserChallengeServiceImpl.java:176-216 | the table becomes the evaluation pass's result; on the first failure the table is unchanged |
| UserChallengeService.EvaluationSettles | drivinganalysis/src/main/java/com/sejong/drivinganalysis/service/UserChallengeServiceImpl.java:185-214 | records that have not expired stay as they are; an expired driving-score record waits for a Monday and a known weekly average; every other expired record is COMPLETED when its progress or that average meets the target and FAILED otherwise, rewarded exactly on success when it had explicitly not been, with no other field changed |
| UserChallengeService.SettledRecord | drivinganalysis/src/main/java/com/sejong/drivinganalysis/service/UserChallengeServiceImpl.java:185-214 | one record evaluated without error: untouched unless expired and judged; a judged record is COMPLETED exactly when its progress (or, for the driving score on a Monday, the weekly average) meets the target, FAILED otherwise, its reward granted exactly on success when it was explicitly false, no other field changed |
| UserChallengeService.EvaluationIdempotent | drivinganalysis/src/main/java/com/sejong/drivinganalysis/service/UserChallengeServiceImpl.java:182-183 | evaluating the table a second time on the same day changes nothing more |
| UserChallengeService.DisplayValue | drivinganalysis/src/main/java/com/sejong/drivinganalysis/service/UserChallengeServiceImpl.java:284-292 | a driving-score challenge shows the weekly average (0 when there is none); any other shows its stored progress |
| UserChallengeService.CreateWeeklyPersonalChallengesForUser | drivinganalysis/src/main/java/com/sejong/drivinganalysis/service/UserChallengeServiceImpl.java:218-282 | fed with the weekly score answer: the score challenge on a positive average, and no risk challenge when the answer carries no risk counts |
| UserChallengeService.RiskChallengeNeverGenerated | drivinganalysis/src/main/java/com/sejong/drivinganalysis/service/UserScoreService.java:193-199 | the weekly score answer never carries a risk count, so no most frequent risk behaviour is ever found and no risk challenge is created |
| LegacyUserChallengeService.UpdateProgressByMetric | drivinganalysis/src/main/java/com/sejong/drivinganalysis/challenge/UserChallengeServiceImpl.java:128-152 | the table becomes the metric pass's result, with no driving-score skip; on the first failure the table is unchanged |
| LegacyUserChallengeService.MetricUpdatesAgree | drivinganalysis/src/main/java/com/sejong/drivinganalysis/challenge/UserChallengeServiceImpl.java:134-150 | off the driving score both variants update progress identically |
| LegacyUserChallengeService.DrivingScoreProgresses | drivinganalysis/src/main/java/com/sejong/drivinganalysis/challenge/UserChallengeServiceImpl.java:134-137 | here a tracked driving-score record's progress grows by the value, where the newer variant leaves the table untouched |
| LegacyUserChallengeService.EvaluateChallenges | drivinganalysis/src/main/java/com/sejong/drivinganalysis/challenge/UserChallengeServiceImpl.java:154-187 | the table becomes the evaluation pass's result; on the first failure the table is unchanged |
| LegacyUserChallengeService.EvaluationSettles | drivinganalysis/src/main/java/com/sejong/drivinganalysis/challenge/UserChallengeServiceImpl.java:163-186 | records that have not expired stay; an expired driving-score record waits for a Monday; every expired record is settled on its stored progress |
| LegacyUserChallengeService.SettledRecord | drivinganalysis/src/main/java/com/sejong/drivinganalysis/challenge/UserChallengeServiceImpl.java:163-186 | one record evaluated without error: COMPLETED exactly when its stored progress meets the target, FAILED otherwise, rewarded only on success; untouched when not expired or a driving-score record off Monday |
| LegacyUserChallengeService.EvaluationsAgreeOffDrivingScore | drivinganalysis/src/main/java/com/sejong/drivinganalysis/challenge/UserChallengeServiceImpl.java:165-185 | off the driving score both variants evaluate a record identically |
| LegacyUserChallengeService.CreateWeeklyPersonalChallengesForUser | drivinganalysis/src/main/java/com/sejong/drivinganalysis/challenge/UserChallengeServiceImpl.java:189-275 | as the newer variant, with this variant's reward text |
| Ranking.FormatInt | drivinganalysis/src/main/java/com/sejong/drivinganalysis/ranking/service/RankingService.java:32 | Java's %d: at least one character, a leading minus exactly for negative numbers, and never a 'W' |
| Ranking.FormatInt02 | drivinganalysis/src/main/java/com/sejong/drivinganalysis/ranking/service/RankingService.java:32 | Java's %02d: at least two characters, exactly two for 0..99, and never a 'W' |
| Ranking.DigitsRoundTrip | drivinganalysis/src/main/java/com/sejong/drivinganalysis/ranking/service/RankingService.java:32 | the decimal digits of a natural number read back as that number |
| Ranking.FormatIntRoundTrip | drivinganalysis/src/main/java/com/sejong/drivinganalysis/ranking/service/RankingService.java:117 | the %d label of any integer reads back as that integer |
| Ranking.MonthPeriod | drivinganalysis/src/main/java/com/sejong/drivinganalysis/ranking/service/RankingService.java:32 | the monthly period label contains no 'W', so it never looks like a week label |
| Ranking.MonthPeriodRoundTrip | drivinganalysis/src/main/java/com/sejong/drivinganalysis/ranking/service/RankingService.java:157 | a month label reads back as its year and month, so distinct months have distinct labels |
| Ranking.FirstW | drivinganalysis/src/main/java/com/sejong/drivinganalysis/ranking/service/RankingService.java:117 | the position of the first 'W' of a label, or none exactly when it has none |
| Ranking.WeekPeriodRoundTrip | drivinganalysis/src/main/java/com/sejong/drivinganalysis/ranking/service/RankingService.java:117 | a week label reads back as its year and week, and no week label equals a month label |
| Ranking.WeekWindow | drivinganalysis/src/main/java/com/sejong/drivinganalysis/ranking/service/RankingService.java:110-112 | a week's window spans seven days, first to last |
| Ranking.DayInOneWeek | drivinganalysis/src/main/java/com/sejong/drivinganalysis/ranking/service/RankingService.java:110-112 | a day lies in a numbered week's window exactly when the week is the one its offset from the first of January gives, so the windows tile the days |
| Ranking.InsertBy | drivinganalysis/src/main/java/com/sejong/drivinganalysis/ranking/service/RankingService.java:185 | inserting adds exactly one element, keeping every other one |
| Ranking.SortBy | drivinganalysis/src/main/java/com/sejong/drivinganalysis/ranking/service/RankingService.java:185 | the sort is a permutation of its input |
| Ranking.InsertBySorted | drivinganalysis/src/main/java/com/sejong/drivinganalysis/ranking/service/RankingService.java:185 | inserting into a sorted list under a total order keeps it sorted |
| Ranking.SortBySorted | drivinganalysis/src/main/java/com/sejong/drivinganalysis/ranking/service/RankingService.java:185 | under a total order the sort yields a sorted permutation of its input |
| Ranking.SortedAllPairs | drivinganalysis/src/main/java/com/sejong/drivinganalysis/ranking/service/RankingService.java:185 | in a sorted list under a chaining order every element may precede every later one |
| Ranking.Contribution | drivinganalysis/src/main/java/com/sejong/drivinganalysis/ranking/service/RankingService.java:177 | a row contributes its daily score, and a null score 0 |
| Ranking.IndexOf | drivinganalysis/src/main/java/com/sejong/drivinganalysis/ranking/service/RankingService.java:170-171 | the position of a user's aggregate, or -1 exactly when the user has none |
| Ranking.AddRowDescribes | drivinganalysis/src/main/java/com/sejong/drivinganalysis/ranking/service/RankingService.java:170-182 | adding one more row to a grouping that sums up the earlier rows gives one that sums up all of them |
| Ranking.GroupDescribes | drivinganalysis/src/main/java/com/sejong/drivinganalysis/ranking/service/RankingService.java:170-182 | the grouping holds one aggregate per user with rows that month, none for anyone else, each with the sum and number of that user's contributions |
| Ranking.AtLeastTotal | drivinganalysis/src/main/java/com/sejong/drivinganalysis/ranking/service/RankingService.java:185 | any two averages compare one way or the other |
| Ranking.AtLeastTransitive | drivinganalysis/src/main/java/com/sejong/drivinganalysis/ranking/service/RankingService.java:185 | comparing averages chains |
| Ranking.Rounded | drivinganalysis/src/main/java/com/sejong/drivinganalysis/ranking/service/RankingService.java:192 | Math.round of the average: the nearest integer, halves rounded up |
| Ranking.RoundedWithin | drivinganalysis/src/main/java/com/sejong/drivinganalysis/ranking/service/RankingService.java:192 | the rounded average of scores within [lo, hi] stays within [lo, hi], so the int cast loses nothing |
| Ranking.MonthlyRows | drivinganalysis/src/main/java/com/sejong/drivinganalysis/ranking/service/RankingService.java:188-199 | one saved row per ranked aggregate |
| Ranking.Kept | drivinganalysis/src/main/java/com/sejong/drivinganalysis/ranking/service/RankingService.java:159-164 | exactly the rows that are not this period's monthly rows remain |
| Ranking.RankedFromGroup | drivinganalysis/src/main/java/com/sejong/drivinganalysis/ranking/service/RankingService.java:170-185 | every ranked aggregate sums up its own user's contributions that month |
| Ranking.RankedDistinct | drivinganalysis/src/main/java/com/sejong/drivinganalysis/ranking/service/RankingService.java:170-185 | no user is ranked twice |
| Ranking.RankedOrdered | drivinganalysis/src/main/java/com/sejong/drivinganalysis/ranking/service/RankingService.java:185 | averages never increase down the ranking |
| Ranking.RankedCovers | drivinganalysis/src/main/java/com/sejong/drivinganalysis/ranking/service/RankingService.java:167-185 | exactly the users with scores that month are ranked |
| Ranking.RecalculatedRows | drivinganalysis/src/main/java/com/sejong/drivinganalysis/ranking/service/RankingService.java:186-199 | positions run 1..n without gaps; the row at position i+1 holds the i-th ranked user's rounded average (null scores as 0), dated the month's last day and labelled with the period |
| Ranking.RecalculatedOrder | drivinganalysis/src/main/java/com/sejong/drivinganalysis/ranking/service/RankingService.java:185-199 | no user gets two rows, and a better position never has a lower average |
| Ranking.RecalculatedCovers | drivinganalysis/src/main/java/com/sejong/drivinganalysis/ranking/service/RankingService.java:167-199 | exactly the users with scores that month get a row |
| Ranking.CountOnce | drivinganalysis/src/main/java/com/sejong/drivinganalysis/ranking/service/RankingService.java:170-171 | an aggregate occurs once in a grouping with distinct users |
| Ranking.RankingTable.constructor | drivinganalysis/src/main/java/com/sejong/drivinganalysis/ranking/service/RankingService.java:27 | the ranking table starts empty |
| Ranking.RankingTable.CalculateAndSaveMonthlyRanking | drivinganalysis/src/main/java/com/sejong/drivinganalysis/ranking/service/RankingService.java:153-200 | a year or month that is no calendar month fails before anything is deleted and leaves the table as it was; otherwise the table becomes the rows of other periods and types followed by the month's recalculated rows |
| Ranking.RankingTable.SaveRanked | drivinganalysis/src/main/java/com/sejong/drivinganalysis/ranking/service/RankingService.java:187-199 | the loop appends one row per ranked aggregate, positions counting up from 1 |
| Ranking.RecalculationReplaces | drivinganalysis/src/main/java/com/sejong/drivinganalysis/ranking/service/RankingService.java:159-199 | afterwards the period's monthly rows are exactly the recalculated ones, and every row of another period or type survives |
| Ranking.ScoreBeforeTotal | drivinganalysis/src/main/java/com/sejong/drivinganalysis/ranking/service/RankingService.java:94 | the descending, nulls-last order compares any two rows |
| Ranking.FirstIndexOf | drivinganalysis/src/main/java/com/sejong/drivinganalysis/ranking/service/RankingService.java:96-97 | the position of the user's first row, or none exactly when they have no row |
| Ranking.FindMyRank | drivinganalysis/src/main/java/com/sejong/drivinganalysis/ranking/service/RankingService.java:96-102 | the user's first row in the sorted list gives the position (its index plus one) and the score; no row gives no rank; a null score there throws |
| Ranking.MyRankIn | drivinganalysis/src/main/java/com/sejong/drivinganalysis/ranking/service/RankingService.java:92-103 | no user asked gives no rank; otherwise the lookup over the rows sorted by score descending, nulls last |
| Ranking.ByScoreOrdered | drivinganalysis/src/main/java/com/sejong/drivinganalysis/ranking/service/RankingService.java:94 | in the sorted list every row may precede every later one |
| Ranking.MyRankFacts | drivinganalysis/src/main/java/com/sejong/drivinganalysis/ranking/service/RankingService.java:136-147 | a user is ranked exactly when they have a row; everyone ahead has a score at least theirs; the lookup throws only when their score and every later one is null |
| Ranking.MyMonthlyRank | drivinganalysis/src/main/java/com/sejong/drivinganalysis/ranking/service/RankingService.java:53-59 | a user asked for gets the position and score of a stored monthly row of theirs for the period, and nothing exactly when there is none |
| Ranking.MonthlyLookupAfterRecalculation | drivinganalysis/src/main/java/com/sejong/drivinganalysis/ranking/service/RankingService.java:53-59 | after a recalculation the monthly lookup finds a user exactly when they had scores that month, at the position and score the recalculation gave |

Where the code and its own comments or names disagree, the model follows the code:

- The code's comments call the retry pause exponential (GrpcClientService.java:145 and :213). It is
  1000·k ms before attempt k+1, which is linear.
- The video service calls an alert operation for risk behaviour that the alert service does not define under
  that name. It is modelled after the drowsiness alert, which the alert service does define.

## Left out

- I/O and frameworks are not modelled. This covers the WebSocket, SSE and gRPC transports, Spring
  transactions (only their rollback on an exception is modelled), JPA paging, the DTO builders and logging.
- AlertService.AlertHub.CreateAlertConnection: the emitter's onCompletion, onTimeout and onError
  callbacks (AlertService.java:114-127) are not modelled. Each calls `cleanupUser` for the user, so in the
  source a late callback of a replaced emitter can remove the user's newer emitter; the model never does.
- ChallengeService.CreateChallenge: the challenge type and category that createChallenge copies from the
  request are not modelled. No modelled operation reads them.
- The JSON metadata of a frame batch is parsed by an oracle parameter. Only the byte framing around it is modelled.
- The outcome of each gRPC attempt is an oracle over the attempt number. Each SSE send's success is a boolean
  or an oracle. `Thread.sleep` is recorded as a list of delays.
- GrpcClient.AnalyzeFrames and GrpcClient.EndDrivingSession: the catch-all `catch (Exception e)`
  (GrpcClientService.java:159-162 and 225-228) is not a separate path. Its effect, an error response
  with "Unexpected error: " and the message, is covered by the `call` oracle returning a non-retryable
  `Failure` whose description is that text.
- The wall clock is an input. This covers `System.currentTimeMillis` and `LocalDateTime.now`, and the java.time
  results: Monday of the week, the last day of a month, whether today is a Monday, and the months the
  ends of a week fall in.
- The asynchronous hand-off (`CompletableFuture`) is flattened into sequential calls, and the
  concurrent maps into plain maps. Interleavings between users are not modelled.
- The video service's session end does not model its follow-up calls: the score update, the feedback and
  the challenge progress. Each runs in its own try/catch. Their effects are modelled in their own modules,
  as standalone calls.
- VideoService.VideoService.EndDrivingSession: does not model the rollback a failed follow-up causes.
  The session end is one `@Transactional` method, and the follow-ups join its transaction. A runtime
  exception in one of them marks that transaction rollback-only, and the catch does not undo this. At
  commit the whole session end is rolled back: the result, the score and the earlier progress reports.
  The caller then gets an unexpected-rollback error instead of the `saved` answer the model returns.
- ChallengeProgressUpdater.UpdateFrom: keeps the reports before a failing one only when it is called
  alone, outside any transaction. Called from the session end, a failing report rolls back everything,
  as the line above says.
- The Korean message, title and reward texts are replaced by segment datatypes or plain labels. Only their
  structure and choice are modelled.
- `Long` and `int` overflow is not modelled; integers are unbounded. The one exception is the `(int)`
  cast of the session duration, which is written out as 32-bit wrap-around.
- HashMap iteration order is unspecified in Java. The model takes the ranking grouping and the metric
  entries in order of first appearance or listing. A different order can only change which of equal
  maxima or averages comes first.
- Averages taken in `double` are exact rationals in the model: the ranking and `calculateAverageScore`.
  `Math.round` is rounding half up of the exact value.
- Ranking.ByAverage: the stability of the insertion sort is not stated as a lemma. Only "sorted and a
  permutation" is proved.
- Ranking ids, user names and the paging of the ranking lists are not modelled. Only positions, scores and
  periods are.
- UserScore: `getScoresForYear`, `getScoreStatistics`, `getMonthScore`, `getWeekScore` and
  `updateUserScoreWithCustomDate` are not modelled. The last is `updateUserScore` with a given date.
- UserScore.Dispatch: does not include the user-existence check `getUserScores` makes first.
- The remaining read-only challenge queries and the DTO mappers are not modelled: `getAvailableUserChallenges`,
  `getAllChallenges`, `searchChallengesByKeyword`, `getMyChallenges`, `getUserChallenges` and
  `getUserChallengeDetail`.
- The `fromChallenge` and `createCustom` factories of a participation do not appear in the entity file.
  They are modelled by what the services need: a common challenge's participation is judged with ">=".
- ChallengeStore.Store.SaveParticipation: the (user, challenge) unique key is enforced only for records
  tied to a common challenge. Personal challenges have no challenge id.
- ChallengeService.JoinChallenge: does not model the in-memory list of the user's challenges that
  `setUser` grows. That side is modelled by `Entities.User.Attach`.
- UserChallengeService.EvaluateChallenges: the weekly average score of each user is an oracle
  parameter, in place of the nested score query.
- Feedback: `analyzeTimePattern`, `getDayOfWeekName`, `getFeedbackTypeName` and the text of the weekly
  feedback are not modelled. Its type, count and severity are.
- FeedbackScheduler.GenerateWeeklyFeedbacks: the job's try/catch around the whole batch loop is not
  modelled. In the source the first batch that throws ends the job and the later batches are skipped;
  the model processes every batch. The previous week's dates and the distinct-user query are inputs.
- JwtFilter.Decide: token validation and the user lookup are oracles (JWT signing is not modelled).
  A lookup that finds no user stands for the UsernameNotFoundException of loadUserByUsername; what
  happens to that exception after it leaves the filter is not modelled. The 401 response body text is
  not modelled.
- FrameEndpoint.OnTextMessage: the JSON reading of an END_SESSION message is an oracle parameter. The reply
  is the response value itself, not its JSON text.

## Findings

| source | as written | input that shows it | evidently intended | confidence | as-written member | corrected member |
|---|---|---|---|---|---|---|
| drivinganalysis/src/main/java/com/sejong/drivinganalysis/service/UserScoreService.java:193-199 | the weekly score answer never sets the drowsiness, phone-use or smoking counts, yet weekly generation reads them to choose a risk challenge | any user with a week of scores, e.g. one record with daily score 80 and ten drowsiness detections that week | the answer carries the week's risk counts, so a count in [10,100) yields a risk challenge | high (not executed) | UserChallengeService.RiskChallengeNeverGenerated | UserChallenges.CreateRiskChallenge |
