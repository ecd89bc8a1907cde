/** Request and response records exchanged between the WebSocket endpoint,
  * the video service and the analysis client. Java's nullable boxed fields
  * are `Option`s. */
module VideoDto {
  import opened Common

  /** One camera frame: its encoded bytes and the client's frame number. */
  datatype FrameData = FrameData(data: Option<seq<byte>>, frameId: Option<int>)

  /** A batch of frames as handed to the video service. */
  datatype FrameBatchRequest = FrameBatchRequest(
    userId: Option<int>,
    batchId: Option<int>,
    timestamp: Option<int>,
    frames: Option<seq<Option<FrameData>>>)

  /** The acknowledgement returned for every accepted batch. */
  datatype FrameProcessedResponse = FrameProcessedResponse(
    userId: int, batchId: int, timestamp: int, processed: bool)

  /** The END_SESSION control message. */
  datatype DrivingSessionEndRequest = DrivingSessionEndRequest(
    userId: Option<int>, sessionId: Option<int>, endTimestamp: Option<int>)

  /** The reply to END_SESSION. */
  datatype DrivingSessionEndResponse = DrivingSessionEndResponse(
    userId: int, sessionId: int,
    drowsinessCount: int, phoneUsageCount: int, smokingCount: int,
    drivingScore: Option<int>, saved: bool)

  /** A frame is usable when it is present and carries at least one byte. */
  predicate IsValidFrame(f: Option<FrameData>)
  {
    f.Some? && f.value.data.Some? && |f.value.data.value| > 0
  }

  /** The usable frames of a list, in their original order. */
  function KeepValid(s: seq<Option<FrameData>>): (r: seq<FrameData>)
    ensures |r| <= |s|
    ensures forall j :: 0 <= j < |r| ==> IsValidFrame(Some(r[j]))
    ensures forall i :: 0 <= i < |s| && IsValidFrame(s[i]) ==> s[i].value in r
    ensures (forall i :: 0 <= i < |s| ==> IsValidFrame(s[i])) ==> |r| == |s|
  {
    if s == [] then []
    else
      var init := KeepValid(s[..|s| - 1]);
      var last := s[|s| - 1];
      assert forall i :: 0 <= i < |s| - 1 ==> s[..|s| - 1][i] == s[i];
      init + (if IsValidFrame(last) then [last.value] else [])
  }

  /** The filter applied by both the video service and the analysis client:
    * a missing list has no usable frames. */
  function ValidFrames(frames: Option<seq<Option<FrameData>>>): (r: seq<FrameData>)
    ensures frames.None? ==> r == []
    ensures frames.Some? ==> |r| <= |frames.value|
    ensures forall j :: 0 <= j < |r| ==> IsValidFrame(Some(r[j]))
    ensures frames.Some? ==> forall i :: 0 <= i < |frames.value| && IsValidFrame(frames.value[i]) ==>
      frames.value[i].value in r
    ensures frames.Some? && (forall i :: 0 <= i < |frames.value| ==> IsValidFrame(frames.value[i])) ==>
      r == Unwrap(frames.value)
    ensures frames.Some? ==> r == KeepValid(frames.value)
  {
    if frames.None? then [] else
      var s := frames.value;
      if forall i :: 0 <= i < |s| ==> IsValidFrame(s[i]) then
        AllValidKept(s);
        KeepValid(s)
      else KeepValid(s)
  }

  /** A single entry is kept, unwrapped, exactly when it is usable. */
  lemma KeepValidSingle(f: Option<FrameData>)
    ensures KeepValid([f]) == if IsValidFrame(f) then [f.value] else []
  {
    assert [f][..0] == [];
  }

  /** Filtering a concatenation filters each part and keeps their order:
    * with KeepValidSingle, the result is exactly the usable frames of the
    * list, each as often as it occurs, in their original order. */
  lemma {:induction false} KeepValidAppend(a: seq<Option<FrameData>>, b: seq<Option<FrameData>>)
    ensures KeepValid(a + b) == KeepValid(a) + KeepValid(b)
    decreases |b|
  {
    if b == [] {
      assert a + b == a;
    } else {
      var init := b[..|b| - 1];
      KeepValidAppend(a, init);
      assert (a + b)[..|a + b| - 1] == a + init;
      assert (a + b)[|a + b| - 1] == b[|b| - 1];
    }
  }

  /** Filtering a list split around one entry filters the three parts. */
  lemma KeepValidAround(a: seq<Option<FrameData>>, f: Option<FrameData>, b: seq<Option<FrameData>>)
    ensures KeepValid(a + [f] + b) == KeepValid(a) + KeepValid([f]) + KeepValid(b)
  {
    KeepValidAppend(a + [f], b);
    KeepValidAppend(a, [f]);
  }

  /** The entry at position |a| of a list: a usable one is kept right after
    * the usable frames before it and ahead of those after it; an unusable
    * one leaves no trace. So every occurrence of a usable frame is kept, once
    * each, in its original position relative to the others. */
  lemma KeepValidAt(a: seq<Option<FrameData>>, f: Option<FrameData>, b: seq<Option<FrameData>>)
    ensures IsValidFrame(f) ==> KeepValid(a + [f] + b) == KeepValid(a) + [f.value] + KeepValid(b)
    ensures !IsValidFrame(f) ==> KeepValid(a + [f] + b) == KeepValid(a) + KeepValid(b)
  {
    KeepValidAround(a, f, b);
    KeepValidSingle(f);
    if !IsValidFrame(f) {
      assert KeepValid(a) + [] == KeepValid(a);
    }
  }

  /** Keeping the usable frames twice changes nothing. */
  lemma {:induction false} KeepValidIdempotent(s: seq<Option<FrameData>>)
    ensures KeepValid(Wrap(KeepValid(s))) == KeepValid(s)
  {
    var r := KeepValid(s);
    AllValidKept(Wrap(r));
  }

  /** Every frame of a list whose frames are all usable is kept, in place. */
  lemma {:induction false} AllValidKept(s: seq<Option<FrameData>>)
    requires forall i :: 0 <= i < |s| ==> IsValidFrame(s[i])
    ensures KeepValid(s) == Unwrap(s)
    decreases |s|
  {
    if s != [] {
      AllValidKept(s[..|s| - 1]);
      assert Unwrap(s[..|s| - 1]) + [s[|s| - 1].value] == Unwrap(s);
    }
  }

  function Wrap(s: seq<FrameData>): (r: seq<Option<FrameData>>)
    ensures |r| == |s| && forall i :: 0 <= i < |s| ==> r[i] == Some(s[i])
  {
    seq(|s|, i requires 0 <= i < |s| => Some(s[i]))
  }

  function Unwrap(s: seq<Option<FrameData>>): (r: seq<FrameData>)
    requires forall i :: 0 <= i < |s| ==> IsValidFrame(s[i])
    ensures |r| == |s| && forall i :: 0 <= i < |s| ==> Some(r[i]) == s[i]
  {
    if s == [] then [] else
      assert forall i :: 0 <= i < |s| - 1 ==> s[..|s| - 1][i] == s[i];
      assert IsValidFrame(s[|s| - 1]);
      Unwrap(s[..|s| - 1]) + [s[|s| - 1].value]
  }
}
