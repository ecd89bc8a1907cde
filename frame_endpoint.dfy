/** The WebSocket endpoint drivers stream to. Binary messages carry a batch of
  * frames (see FrameCodec); text messages carry control commands, of which
  * only END_SESSION is understood. The endpoint keeps the open sessions by
  * id. Serialising replies to JSON is not modelled: a reply is the value that
  * would be serialised. */
module FrameEndpoint {
  import opened Common
  import opened VideoDto
  import opened FrameCodec
  import opened GrpcClient
  import opened AlertService
  import opened VideoService
  import Entities

  /** A client connection, identified by its id. */
  datatype Session = Session(id: string, open: bool)

  /** Why a message could not be handled. */
  datatype Failure =
    | Decoding(decodeError: DecodeError)
    | Service(apiError: ApiError)
    | UnreadableCommand

  /** What the endpoint sends back over the session. */
  datatype Outbound =
    | Processed(batch: FrameProcessedResponse)
    | SessionEnded(summary: DrivingSessionEndResponse)
    | ErrorMessage(failure: Failure)

  /** The marker that identifies an END_SESSION command. */
  const END_SESSION_MARKER: string := "\"type\":\"END_SESSION\""

  /** `sub` occurs in `s` starting at index `i`. */
  predicate OccursAt(s: string, sub: string, i: int)
  {
    0 <= i && i + |sub| <= |s| && s[i..i + |sub|] == sub
  }

  /** String.contains. */
  function Contains(s: string, sub: string): (b: bool)
    ensures b <==> exists i :: OccursAt(s, sub, i)
    decreases |s|
  {
    if |s| < |sub| then false
    else if s[..|sub|] == sub then
      assert OccursAt(s, sub, 0);
      true
    else
      var rest := Contains(s[1..], sub);
      assert rest ==> exists i :: OccursAt(s, sub, i) by {
        if rest {
          var j :| OccursAt(s[1..], sub, j);
          assert s[1..][j..j + |sub|] == s[j + 1..j + 1 + |sub|];
          assert OccursAt(s, sub, j + 1);
        }
      }
      assert (exists i :: OccursAt(s, sub, i)) ==> rest by {
        if exists i :: OccursAt(s, sub, i) {
          var i :| OccursAt(s, sub, i);
          assert i != 0;
          assert s[1..][i - 1..i - 1 + |sub|] == s[i..i + |sub|];
          assert OccursAt(s[1..], sub, i - 1);
        }
      }
      rest
  }

  /** sendErrorMessage: nothing is sent over a missing or closed session. */
  function ErrorReply(session: Option<Session>, failure: Failure): (out: Option<Outbound>)
    ensures out.Some? <==> session.Some? && session.value.open
    ensures out.Some? ==> out.value == ErrorMessage(failure)
  {
    if session.None? || !session.value.open then None else Some(ErrorMessage(failure))
  }

  class FrameEndpoint {
    /** The open sessions by id. */
    var sessions: map<string, Session>
    const service: VideoService
    const hub: AlertHub

    constructor(service: VideoService, hub: AlertHub)
      ensures sessions == map[] && this.service == service && this.hub == hub
    {
      sessions := map[];
      this.service := service;
      this.hub := hub;
    }

    /** onOpen: the session is registered under its id. */
    method OnOpen(session: Session)
      modifies this
      ensures sessions == old(sessions)[session.id := session]
    {
      sessions := sessions[session.id := session];
    }

    /** onClose: the session is forgotten; other sessions stay. */
    method OnClose(session: Session)
      modifies this
      ensures sessions == old(sessions) - {session.id}
    {
      sessions := sessions - {session.id};
    }

    /** onError: as onClose. */
    method OnError(session: Session)
      modifies this
      ensures sessions == old(sessions) - {session.id}
    {
      sessions := sessions - {session.id};
    }

    /** onBinaryMessage: decode the message, hand the batch to the video
      * service and reply with its acknowledgement. A message that does not
      * decode never reaches the service; it, like a batch the service
      * rejects, is answered with an error message if the session is open. */
    method OnBinaryMessage(buf: seq<byte>, session: Session, parse: MetadataParser,
                           now: int, maxRetries: int, call: nat -> Attempt<RealtimeAnalysisResponse>,
                           sendOk: RiskKind -> bool)
      returns (out: Option<Outbound>)
      requires hub.Valid()
      modifies service, hub
      ensures hub.Valid()
      ensures Decode(buf, parse).Err? ==>
        out == ErrorReply(Some(session), Decoding(Decode(buf, parse).error)) &&
        service.sessionStart == old(service.sessionStart) && service.lastFrame == old(service.lastFrame) &&
        hub.State() == old(hub.State())
      ensures Decode(buf, parse).Ok? ==>
        var md := Decode(buf, parse).value.metadata;
        (md.userId !in service.users ==> out == ErrorReply(Some(session), Service(UserNotFound))) &&
        (md.userId in service.users && md.batchId.None? ==>
          out == ErrorReply(Some(session), Service(FrameProcessingError))) &&
        (md.userId in service.users && md.batchId.Some? ==>
          out == Some(Processed(FrameProcessedResponse(md.userId, md.batchId.value, md.timestamp, true))))
      ensures Decode(buf, parse).Ok? ==>
        var md := Decode(buf, parse).value.metadata;
        (md.userId !in service.users || md.batchId.None?) ==>
          service.sessionStart == old(service.sessionStart) && service.lastFrame == old(service.lastFrame) &&
          hub.State() == old(hub.State())
      ensures Decode(buf, parse).Ok? ==>
        var d := Decode(buf, parse).value;
        var md := d.metadata;
        var u := md.userId;
        md.userId in service.users && md.batchId.Some? ==>
          service.sessionStart == (if md.batchId.value == 0 || u !in old(service.sessionStart)
                                   then old(service.sessionStart)[u := md.timestamp]
                                   else old(service.sessionStart)) &&
          service.lastFrame == old(service.lastFrame)[u := md.timestamp] &&
          hub.State() == SentEach(old(hub.State()), u,
                                  if ValidFrames(Some(Wrap(d.frames))) == [] then []
                                  else AlertKinds(RealtimeResult(u, Retry(call, maxRetries).end)),
                                  md.batchId.value, now, sendOk)
    {
      var d := DecodeMessage(buf, parse);
      if d.Err? {
        out := ErrorReply(Some(session), Decoding(d.error));
        return;
      }
      var r, _ := service.ProcessFrameBatch(Some(ToRequest(d.value)), now, maxRetries, call, hub, sendOk);
      if r.Ok? {
        out := Some(Processed(r.value));
      } else {
        out := ErrorReply(Some(session), Service(r.error));
      }
    }

    /** onTextMessage: a message containing the END_SESSION marker is read as
      * a session-end request (`readRequest` is the JSON reader; None when it
      * throws) and handed to the video service, whose summary is sent back;
      * any other text gets no reply. */
    method OnTextMessage(message: string, session: Session,
                         readRequest: string -> Option<DrivingSessionEndRequest>,
                         now: int, maxRetries: int, call: nat -> Attempt<FinalAnalysisResponse>)
      returns (out: Option<Outbound>)
      requires hub.Valid()
      modifies service, hub
      ensures hub.Valid()
      ensures !Contains(message, END_SESSION_MARKER) ==>
        out.None? && service.sessionStart == old(service.sessionStart) &&
        service.lastFrame == old(service.lastFrame) && hub.State() == old(hub.State())
      ensures Contains(message, END_SESSION_MARKER) && readRequest(message).None? ==>
        out == ErrorReply(Some(session), UnreadableCommand) &&
        service.sessionStart == old(service.sessionStart) && service.lastFrame == old(service.lastFrame) &&
        hub.State() == old(hub.State())
      ensures out.Some? && out.value.SessionEnded? ==>
        Contains(message, END_SESSION_MARKER) && out.value.summary.saved
      ensures Contains(message, END_SESSION_MARKER) && readRequest(message).Some? ==>
        var q := readRequest(message).value;
        (q.userId.None? || q.sessionId.None? ==>
          out == ErrorReply(Some(session), Service(InvalidRequest))) &&
        (q.userId.Some? && q.sessionId.Some? && q.userId.value !in service.users ==>
          out == ErrorReply(Some(session), Service(UserNotFound))) &&
        (q.userId.None? || q.sessionId.None? || q.userId.value !in service.users ==>
          service.sessionStart == old(service.sessionStart) && service.lastFrame == old(service.lastFrame) &&
          hub.State() == old(hub.State()))
      ensures Contains(message, END_SESSION_MARKER) && readRequest(message).Some? ==>
        var q := readRequest(message).value;
        q.userId.Some? && q.sessionId.Some? && q.userId.value in service.users ==>
          var u := q.userId.value;
          var f := FinalResult(u, Retry(call, maxRetries).end);
          out == Some(SessionEnded(DrivingSessionEndResponse(u, q.sessionId.value, f.drowsinessCount,
                                                             f.phoneUsageCount, f.smokingCount,
                                                             Some(Entities.BASE_SCORE), true))) &&
          service.sessionStart == old(service.sessionStart) - {u} &&
          service.lastFrame == old(service.lastFrame) - {u} &&
          hub.State() == Cleaned(old(hub.State()), u)
    {
      out := None;
      if !Contains(message, END_SESSION_MARKER) {
        return;
      }
      var request := readRequest(message);
      if request.None? {
        out := ErrorReply(Some(session), UnreadableCommand);
        return;
      }
      var r, _, _ := service.EndDrivingSession(request, now, maxRetries, call, hub);
      if r.Ok? {
        out := Some(SessionEnded(r.value));
      } else {
        out := ErrorReply(Some(session), Service(r.error));
      }
    }
  }
}
