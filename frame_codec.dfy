/** The binary frame-batch message received on the WebSocket:
  *
  *   [length L : 4 bytes, big-endian signed int32]
  *   [L bytes of metadata]
  *   [payload of frame 0][payload of frame 1] ...
  *
  * The metadata (a JSON object giving userId, batchId, timestamp and one
  * {frameId, length} entry per frame) is decoded by a parser that is a
  * parameter here; only the byte framing around it is modelled. */
module FrameCodec {
  import opened Common
  import opened VideoDto

  /** One entry of the metadata's "frames" array. A missing "length" is null. */
  datatype FrameInfo = FrameInfo(length: Option<int>, frameId: Option<int>)

  /** The parsed metadata. `batchId` is absent when the JSON has no such key. */
  datatype Metadata = Metadata(userId: int, batchId: Option<int>, timestamp: int, frames: seq<FrameInfo>)

  /** The JSON parser: `None` when the bytes are not a metadata object with a
    * userId, a timestamp and a frames array of the expected types. */
  type MetadataParser = seq<byte> -> Option<Metadata>

  /** Why decoding stopped; each is an exception in the handler. */
  datatype DecodeError =
    | ShortLengthPrefix                 // fewer than 4 bytes: buffer underflow
    | NegativeMetadataLength            // negative array size
    | TruncatedMetadata                 // fewer than L bytes left: buffer underflow
    | MalformedMetadata                 // the parser rejected the metadata
    | MissingFrameLength(index: nat)    // unboxing a null length
    | NegativeFrameLength(index: nat)   // negative array size
    | TruncatedFrame(index: nat)        // fewer than length bytes left: buffer underflow

  /** A decoded message and the buffer position after the last frame. */
  datatype Decoded = Decoded(metadata: Metadata, frames: seq<FrameData>, position: nat)

  const PREFIX_SIZE: nat := 4

  /** ByteBuffer.getInt in big-endian order. */
  function ReadInt32BE(b0: byte, b1: byte, b2: byte, b3: byte): (x: int)
    ensures IsInt32(x)
  {
    var u := ((b0 * 256 + b1) * 256 + b2) * 256 + b3;
    if u > INT32_MAX then u - 0x1_0000_0000 else u
  }

  /** ByteBuffer.putInt in big-endian order (the client's side of the prefix). */
  function WriteInt32BE(x: int): (b: seq<byte>)
    requires IsInt32(x)
    ensures |b| == 4
  {
    var u := if x < 0 then x + 0x1_0000_0000 else x;
    [u / 0x100_0000, (u / 0x1_0000) % 256, (u / 256) % 256, u % 256]
  }

  lemma Int32RoundTrip(x: int)
    requires IsInt32(x)
    ensures var b := WriteInt32BE(x); ReadInt32BE(b[0], b[1], b[2], b[3]) == x
  {
    var u := if x < 0 then x + 0x1_0000_0000 else x;
    var b := WriteInt32BE(x);
    var b0: int, b1: int, b2: int, b3: int := b[0], b[1], b[2], b[3];
    assert ((b0 * 256 + b1) * 256 + b2) * 256 + b3 == u;
  }

  /** Reads the frames listed in `infos` from `pos` on; `index` numbers the
    * first of them. On success, gives the frames and the new position. */
  function DecodeFrames(buf: seq<byte>, pos: nat, infos: seq<FrameInfo>, index: nat): (r: Result<(seq<FrameData>, nat), DecodeError>)
    requires pos <= |buf|
    ensures r.Ok? ==> pos <= r.value.1 <= |buf| && |r.value.0| == |infos|
    decreases |infos|
  {
    if infos == [] then Ok(([], pos))
    else match infos[0].length
      case None => Err(MissingFrameLength(index))
      case Some(n) =>
        if n < 0 then Err(NegativeFrameLength(index))
        else if |buf| - pos < n then Err(TruncatedFrame(index))
        else
          var frame := FrameData(Some(buf[pos..pos + n]), infos[0].frameId);
          Prepend([frame], DecodeFrames(buf, pos + n, infos[1..], index + 1))
  }

  /** Puts already-decoded frames in front of a decoding result. */
  function Prepend(done: seq<FrameData>, r: Result<(seq<FrameData>, nat), DecodeError>): Result<(seq<FrameData>, nat), DecodeError>
  {
    match r
    case Err(e) => Err(e)
    case Ok((rest, end)) => Ok((done + rest, end))
  }

  lemma PrependNothing(r: Result<(seq<FrameData>, nat), DecodeError>)
    ensures Prepend([], r) == r
  {
    match r
    case Err(_) =>
    case Ok((rest, end)) => assert [] + rest == rest;
  }

  lemma PrependTwice(a: seq<FrameData>, b: seq<FrameData>, r: Result<(seq<FrameData>, nat), DecodeError>)
    ensures Prepend(a, Prepend(b, r)) == Prepend(a + b, r)
  {
    match r
    case Err(_) =>
    case Ok((rest, end)) => assert a + (b + rest) == (a + b) + rest;
  }

  /** The whole message, as the handler reads it from position 0. */
  function Decode(buf: seq<byte>, parse: MetadataParser): (r: Result<Decoded, DecodeError>)
    ensures r.Ok? ==> PREFIX_SIZE <= r.value.position <= |buf|
    ensures r.Ok? ==> |r.value.frames| == |r.value.metadata.frames|
  {
    if |buf| < PREFIX_SIZE then Err(ShortLengthPrefix)
    else
      var len := ReadInt32BE(buf[0], buf[1], buf[2], buf[3]);
      if len < 0 then Err(NegativeMetadataLength)
      else if |buf| - PREFIX_SIZE < len then Err(TruncatedMetadata)
      else match parse(buf[PREFIX_SIZE..PREFIX_SIZE + len])
        case None => Err(MalformedMetadata)
        case Some(md) =>
          match DecodeFrames(buf, PREFIX_SIZE + len, md.frames, 0)
          case Err(e) => Err(e)
          case Ok((frames, end)) => Ok(Decoded(md, frames, end))
  }

  /** The request the handler builds from a decoded message. */
  function ToRequest(d: Decoded): (req: FrameBatchRequest)
    ensures req.userId == Some(d.metadata.userId) && req.batchId == d.metadata.batchId
    ensures req.timestamp == Some(d.metadata.timestamp)
    ensures req.frames == Some(Wrap(d.frames))
  {
    FrameBatchRequest(Some(d.metadata.userId), d.metadata.batchId, Some(d.metadata.timestamp), Some(Wrap(d.frames)))
  }

  /** The handler's decoding steps: read the prefix, the metadata, then one
    * payload per metadata entry, advancing a buffer position. */
  method DecodeMessage(buf: seq<byte>, parse: MetadataParser) returns (r: Result<Decoded, DecodeError>)
    ensures r == Decode(buf, parse)
  {
    if |buf| < PREFIX_SIZE {
      return Err(ShortLengthPrefix);
    }
    var jsonLength := ReadInt32BE(buf[0], buf[1], buf[2], buf[3]);
    if jsonLength < 0 {
      return Err(NegativeMetadataLength);
    }
    if |buf| - PREFIX_SIZE < jsonLength {
      return Err(TruncatedMetadata);
    }
    var position: nat := PREFIX_SIZE + jsonLength;
    var parsed := parse(buf[PREFIX_SIZE..position]);
    if parsed.None? {
      return Err(MalformedMetadata);
    }
    var md := parsed.value;
    var infos := md.frames;
    ghost var start := position;
    var frames: seq<FrameData> := [];
    var i := 0;
    assert infos[i..] == infos;
    PrependNothing(DecodeFrames(buf, position, infos, 0));
    while i < |infos|
      invariant 0 <= i <= |infos|
      invariant start <= position <= |buf|
      invariant |frames| == i
      invariant DecodeFrames(buf, start, infos, 0) == Prepend(frames, DecodeFrames(buf, position, infos[i..], i))
      decreases |infos| - i
    {
      var frameLength := infos[i].length;
      if frameLength.None? {
        return Err(MissingFrameLength(i));
      }
      if frameLength.value < 0 {
        return Err(NegativeFrameLength(i));
      }
      if |buf| - position < frameLength.value {
        return Err(TruncatedFrame(i));
      }
      var frameData := buf[position..position + frameLength.value];
      assert infos[i..][1..] == infos[i + 1..];
      PrependTwice(frames, [FrameData(Some(frameData), infos[i].frameId)], DecodeFrames(buf, position + frameLength.value, infos[i + 1..], i + 1));
      frames := frames + [FrameData(Some(frameData), infos[i].frameId)];
      position := position + frameLength.value;
      i := i + 1;
    }
    assert infos[i..] == [];
    assert frames + [] == frames;
    return Ok(Decoded(md, frames, position));
  }

  // ---------------------------------------------------------------------------
  // The sending side, used to state the round trip.

  /** The payloads laid end to end. */
  function Payloads(ps: seq<seq<byte>>): seq<byte>
  {
    if ps == [] then [] else ps[0] + Payloads(ps[1..])
  }

  /** A message carrying metadata bytes `meta` and the given payloads. */
  function Encode(meta: seq<byte>, ps: seq<seq<byte>>): (m: seq<byte>)
    requires |meta| <= INT32_MAX
    ensures |m| == PREFIX_SIZE + |meta| + |Payloads(ps)|
  {
    WriteInt32BE(|meta|) + meta + Payloads(ps)
  }

  /** The metadata entries announce exactly the payloads' lengths. */
  predicate Announces(infos: seq<FrameInfo>, ps: seq<seq<byte>>)
  {
    |infos| == |ps| && forall i :: 0 <= i < |ps| ==> infos[i].length == Some(|ps[i]|)
  }

  lemma {:induction false} DecodeFramesRoundTrip(head: seq<byte>, ps: seq<seq<byte>>, tail: seq<byte>, infos: seq<FrameInfo>, index: nat)
    requires Announces(infos, ps)
    ensures var buf := head + Payloads(ps) + tail;
      var r := DecodeFrames(buf, |head|, infos, index);
      r.Ok? && r.value.1 == |head| + |Payloads(ps)| &&
      forall i :: 0 <= i < |ps| ==> r.value.0[i] == FrameData(Some(ps[i]), infos[i].frameId)
    decreases |ps|
  {
    var buf := head + Payloads(ps) + tail;
    if ps != [] {
      var p := ps[0];
      assert Payloads(ps) == p + Payloads(ps[1..]);
      assert buf == (head + p) + Payloads(ps[1..]) + tail;
      assert buf[|head|..|head| + |p|] == p;
      assert Announces(infos[1..], ps[1..]) by {
        forall i | 0 <= i < |ps[1..]| ensures infos[1..][i].length == Some(|ps[1..][i]|) {
          assert infos[1..][i] == infos[i + 1] && ps[1..][i] == ps[i + 1];
        }
      }
      DecodeFramesRoundTrip(head + p, ps[1..], tail, infos[1..], index + 1);
      var rest := DecodeFrames(buf, |head| + |p|, infos[1..], index + 1);
      assert DecodeFrames(buf, |head|, infos, index) == Prepend([FrameData(Some(p), infos[0].frameId)], rest);
      forall i | 0 <= i < |ps|
        ensures DecodeFrames(buf, |head|, infos, index).value.0[i] == FrameData(Some(ps[i]), infos[i].frameId)
      {
        if i > 0 {
          assert ps[1..][i - 1] == ps[i] && infos[1..][i - 1] == infos[i];
        }
      }
    }
  }

  /** Round trip: a message built from metadata bytes that parse to `md` and
    * from payloads of the announced lengths decodes to `md` and exactly those
    * payloads, in order, whatever bytes follow it. */
  lemma RoundTrip(meta: seq<byte>, md: Metadata, ps: seq<seq<byte>>, trailing: seq<byte>, parse: MetadataParser)
    requires |meta| <= INT32_MAX
    requires parse(meta) == Some(md)
    requires Announces(md.frames, ps)
    ensures var r := Decode(Encode(meta, ps) + trailing, parse);
      r.Ok? && r.value.metadata == md && r.value.position == |Encode(meta, ps)| &&
      |r.value.frames| == |ps| &&
      forall i :: 0 <= i < |ps| ==> r.value.frames[i] == FrameData(Some(ps[i]), md.frames[i].frameId)
  {
    var buf := Encode(meta, ps) + trailing;
    var prefix := WriteInt32BE(|meta|);
    Int32RoundTrip(|meta|);
    assert buf[..4] == prefix;
    assert buf[PREFIX_SIZE..PREFIX_SIZE + |meta|] == meta;
    assert buf == (prefix + meta) + Payloads(ps) + trailing;
    DecodeFramesRoundTrip(prefix + meta, ps, trailing, md.frames, 0);
  }

  lemma {:induction false} DecodeFramesOnPrefix(buf: seq<byte>, k: nat, pos: nat, infos: seq<FrameInfo>, index: nat)
    requires pos <= k <= |buf|
    requires DecodeFrames(buf, pos, infos, index).Ok?
    ensures var end := DecodeFrames(buf, pos, infos, index).value.1;
      (k >= end ==> DecodeFrames(buf[..k], pos, infos, index) == DecodeFrames(buf, pos, infos, index)) &&
      (k < end ==> DecodeFrames(buf[..k], pos, infos, index).Err?)
    decreases |infos|
  {
    if infos != [] {
      var n := infos[0].length.value;
      if k - pos >= n {
        assert buf[..k][pos..pos + n] == buf[pos..pos + n];
        DecodeFramesOnPrefix(buf, k, pos + n, infos[1..], index + 1);
      }
    }
  }

  /** Decoding reads nothing beyond the last declared frame, and a message
    * cut anywhere before that point fails to decode. */
  lemma DecodeOnPrefix(buf: seq<byte>, k: nat, parse: MetadataParser)
    requires k <= |buf|
    requires Decode(buf, parse).Ok?
    ensures k >= Decode(buf, parse).value.position ==> Decode(buf[..k], parse) == Decode(buf, parse)
    ensures k < Decode(buf, parse).value.position ==> Decode(buf[..k], parse).Err?
  {
    var cut := buf[..k];
    if k >= PREFIX_SIZE {
      assert cut[0] == buf[0] && cut[1] == buf[1] && cut[2] == buf[2] && cut[3] == buf[3];
      var len := ReadInt32BE(buf[0], buf[1], buf[2], buf[3]);
      if k - PREFIX_SIZE >= len {
        assert cut[PREFIX_SIZE..PREFIX_SIZE + len] == buf[PREFIX_SIZE..PREFIX_SIZE + len];
        var md := parse(buf[PREFIX_SIZE..PREFIX_SIZE + len]).value;
        DecodeFramesOnPrefix(buf, k, PREFIX_SIZE + len, md.frames, 0);
      }
    }
  }

  /** Bytes after the last declared frame are never inspected: appending
    * anything to a decodable message gives the same result. */
  lemma TrailingBytesIgnored(buf: seq<byte>, extra: seq<byte>, parse: MetadataParser)
    requires Decode(buf, parse).Ok?
    ensures Decode(buf + extra, parse) == Decode(buf, parse)
  {
    var whole := buf + extra;
    var d := Decode(buf, parse).value;
    assert whole[..|buf|] == buf;
    assert whole[..4] == buf[..4];
    // Decoding the longer buffer sees the same prefix, metadata and frames.
    assert whole[0] == buf[0] && whole[1] == buf[1] && whole[2] == buf[2] && whole[3] == buf[3];
    var len := ReadInt32BE(buf[0], buf[1], buf[2], buf[3]);
    assert whole[PREFIX_SIZE..PREFIX_SIZE + len] == buf[PREFIX_SIZE..PREFIX_SIZE + len];
    var md := parse(buf[PREFIX_SIZE..PREFIX_SIZE + len]).value;
    DecodeFramesExtend(buf, extra, PREFIX_SIZE + len, md.frames, 0);
  }

  lemma {:induction false} DecodeFramesExtend(buf: seq<byte>, extra: seq<byte>, pos: nat, infos: seq<FrameInfo>, index: nat)
    requires pos <= |buf|
    requires DecodeFrames(buf, pos, infos, index).Ok?
    ensures DecodeFrames(buf + extra, pos, infos, index) == DecodeFrames(buf, pos, infos, index)
    decreases |infos|
  {
    if infos != [] {
      var n := infos[0].length.value;
      assert (buf + extra)[pos..pos + n] == buf[pos..pos + n];
      DecodeFramesExtend(buf, extra, pos + n, infos[1..], index + 1);
    }
  }

  /** Ordering: frame i of a decoded message carries metadata entry i's
    * frameId and exactly that entry's declared number of bytes. */
  lemma {:induction false} DecodedFramesFollowMetadata(buf: seq<byte>, pos: nat, infos: seq<FrameInfo>, index: nat)
    requires pos <= |buf|
    requires DecodeFrames(buf, pos, infos, index).Ok?
    ensures var fs := DecodeFrames(buf, pos, infos, index).value.0;
      forall i :: 0 <= i < |infos| ==>
        fs[i].frameId == infos[i].frameId && infos[i].length.Some? &&
        fs[i].data.Some? && |fs[i].data.value| == infos[i].length.value
    decreases |infos|
  {
    if infos != [] {
      var n := infos[0].length.value;
      DecodedFramesFollowMetadata(buf, pos + n, infos[1..], index + 1);
      var fs := DecodeFrames(buf, pos, infos, index).value.0;
      var rest := DecodeFrames(buf, pos + n, infos[1..], index + 1).value.0;
      assert fs == [FrameData(Some(buf[pos..pos + n]), infos[0].frameId)] + rest;
      forall i | 0 < i < |infos|
        ensures fs[i].frameId == infos[i].frameId && infos[i].length.Some? &&
          fs[i].data.Some? && |fs[i].data.value| == infos[i].length.value
      {
        assert fs[i] == rest[i - 1] && infos[1..][i - 1] == infos[i];
      }
    }
  }
}
