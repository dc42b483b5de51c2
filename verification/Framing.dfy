/** Length-prefixed frames on a byte stream (crates/varmlen-service-core/src/framing.rs). */
module Framing {
  import opened Wrappers
  import opened Bytes

  const MAX_FRAME_BYTES := 0x10_0000

  datatype FrameError = FrameTooLarge | InvalidFrame | IoFailed

  function Frame(payload: seq<Byte>): (r: seq<Byte>)
    requires |payload| <= MAX_FRAME_BYTES
    ensures |r| == 4 + |payload|
  {
    BigEndian(|payload|) + payload
  }

  /** What reading one frame off the front of a stream gives, and what it leaves. */
  function Unframe(bytes: seq<Byte>): (r: Result<(seq<Byte>, seq<Byte>), FrameError>)
    ensures r.Ok? ==> |r.value.0| <= MAX_FRAME_BYTES && |r.value.1| < |bytes|
  {
    if |bytes| < 4 then Err(InvalidFrame)
    else
      var length := FromBigEndian(bytes[..4]);
      if length > MAX_FRAME_BYTES then Err(FrameTooLarge)
      else if |bytes| - 4 < length then Err(InvalidFrame)
      else Ok((bytes[4..4 + length], bytes[4 + length..]))
  }

  /** A frame is read back exactly, whatever follows it; and nothing but its frame reads as a payload. */
  lemma UnframeExactlyFrames(bytes: seq<Byte>, payload: seq<Byte>, rest: seq<Byte>)
    requires |payload| <= MAX_FRAME_BYTES
    ensures Unframe(bytes) == Ok((payload, rest)) <==> bytes == Frame(payload) + rest
  {
    BigEndianBothWays(|payload|, if |bytes| >= 4 then bytes[..4] else []);
    if bytes == Frame(payload) + rest {
      assert bytes[..4] == BigEndian(|payload|);
    }
    if Unframe(bytes) == Ok((payload, rest)) {
      assert bytes == bytes[..4] + bytes[4..4 + |payload|] + bytes[4 + |payload|..];
    }
  }

  predicate AllFit(payloads: seq<seq<Byte>>) {
    forall i | 0 <= i < |payloads| :: |payloads[i]| <= MAX_FRAME_BYTES
  }

  function Frames(payloads: seq<seq<Byte>>): seq<Byte>
    requires AllFit(payloads)
  {
    if payloads == [] then [] else Frame(payloads[0]) + Frames(payloads[1..])
  }

  /** A stream of whole frames, split into their payloads. */
  function Unframes(bytes: seq<Byte>): Option<seq<seq<Byte>>>
    decreases |bytes|
  {
    if bytes == [] then Some([])
    else match Unframe(bytes)
      case Err(_) => None
      case Ok((payload, rest)) =>
        match Unframes(rest)
        case None => None
        case Some(others) => Some([payload] + others)
  }

  /** Frames are a prefix code: a stream splits into a list of payloads exactly when it is their frames in order. */
  lemma {:induction false} UnframesExactlyFrames(bytes: seq<Byte>, payloads: seq<seq<Byte>>)
    requires AllFit(payloads)
    ensures Unframes(bytes) == Some(payloads) <==> bytes == Frames(payloads)
    decreases |bytes| + |payloads|
  {
    if payloads == [] || bytes == [] {
    } else {
      match Unframe(bytes)
      case Err(_) =>
        if bytes == Frames(payloads) {
          UnframeExactlyFrames(bytes, payloads[0], Frames(payloads[1..]));
        }
      case Ok((payload, rest)) =>
        UnframeExactlyFrames(bytes, payload, rest);
        UnframesExactlyFrames(rest, payloads[1..]);
        if bytes == Frames(payloads) {
          UnframeExactlyFrames(bytes, payloads[0], Frames(payloads[1..]));
        }
        assert payloads == [payloads[0]] + payloads[1..];
        if Unframes(bytes) == Some(payloads) {
          var others := Unframes(rest).value;
          assert ([payload] + others)[0] == payload && ([payload] + others)[1..] == others;
        }
    }
  }

  /** One direction of a connection: what was written and not read yet. */
  class Stream {
    var pending: seq<Byte>

    constructor ()
      ensures pending == []
    {
      pending := [];
    }

    /** Writing may stop short at any byte. */
    method WriteAll(bytes: seq<Byte>) returns (ok: bool)
      modifies this
      ensures ok ==> pending == old(pending) + bytes
      ensures !ok ==> exists k | 0 <= k <= |bytes| :: pending == old(pending) + bytes[..k]
    {
      ok := *;
      var k :| 0 <= k <= |bytes|;
      pending := pending + if ok then bytes else bytes[..k];
    }

    /** `write_payload`. */
    method WritePayload(payload: seq<Byte>) returns (r: Outcome<FrameError>)
      modifies this
      ensures r.Done? ==> |payload| <= MAX_FRAME_BYTES && pending == old(pending) + Frame(payload)
      ensures |payload| > MAX_FRAME_BYTES <==> r == Failed(FrameTooLarge)
      ensures r == Failed(FrameTooLarge) ==> pending == old(pending)
      ensures r == Failed(IoFailed) ==> exists k | 0 <= k <= 4 + |payload| ::
                pending == old(pending) + Frame(payload)[..k]
    {
      if |payload| > MAX_FRAME_BYTES {
        return Failed(FrameTooLarge);
      }
      var ok := WriteAll(BigEndian(|payload|));
      if !ok {
        ghost var k :| 0 <= k <= 4 && pending == old(pending) + BigEndian(|payload|)[..k];
        assert Frame(payload)[..k] == BigEndian(|payload|)[..k];
        return Failed(IoFailed);
      }
      ok := WriteAll(payload);
      if !ok {
        ghost var k :| 0 <= k <= |payload| && pending == old(pending) + BigEndian(|payload|) + payload[..k];
        assert Frame(payload)[..4 + k] == BigEndian(|payload|) + payload[..k];
        return Failed(IoFailed);
      }
      r := Done;
    }

    /** `read_payload`; what a failed read leaves is of no use to anyone. */
    method ReadPayload() returns (r: Result<seq<Byte>, FrameError>)
      modifies this
      ensures match Unframe(old(pending))
              case Ok((payload, rest)) => r == Ok(payload) && pending == rest
              case Err(error) => r == Err(error)
    {
      if |pending| < 4 {
        pending := [];
        return Err(InvalidFrame);
      }
      var length := FromBigEndian(pending[..4]);
      pending := pending[4..];
      if length > MAX_FRAME_BYTES {
        return Err(FrameTooLarge);
      }
      if |pending| < length {
        pending := [];
        return Err(InvalidFrame);
      }
      assert pending[..length] == old(pending)[4..4 + length] && pending[length..] == old(pending)[4 + length..];
      r := Ok(pending[..length]);
      pending := pending[length..];
    }
  }

  /** Whatever is sent arrives: as many payloads as the reader asks for, in order and unchanged. */
  method Transfer(stream: Stream, payloads: seq<seq<Byte>>) returns (received: seq<seq<Byte>>, sent: bool)
    requires stream.pending == []
    modifies stream
    ensures sent ==> AllFit(payloads) && received == payloads && stream.pending == []
    ensures !AllFit(payloads) ==> !sent
  {
    received, sent := [], true;
    for i := 0 to |payloads|
      invariant AllFit(payloads[..i]) && stream.pending == Frames(payloads[..i])
    {
      var r := stream.WritePayload(payloads[i]);
      if r.Failed? {
        return [], false;
      }
      FramesAppend(payloads[..i], payloads[i]);
      assert payloads[..i + 1] == payloads[..i] + [payloads[i]];
    }
    assert payloads[..|payloads|] == payloads;
    for i := 0 to |payloads|
      invariant AllFit(payloads) && received == payloads[..i] && stream.pending == Frames(payloads[i..])
    {
      assert payloads[i..][1..] == payloads[i + 1..];
      UnframeExactlyFrames(stream.pending, payloads[i], Frames(payloads[i + 1..]));
      var r := stream.ReadPayload();
      received := received + [r.value];
    }
  }

  lemma {:induction false} FramesAppend(payloads: seq<seq<Byte>>, payload: seq<Byte>)
    requires AllFit(payloads) && |payload| <= MAX_FRAME_BYTES
    ensures AllFit(payloads + [payload])
    ensures Frames(payloads + [payload]) == Frames(payloads) + Frame(payload)
  {
    if payloads == [] {
      assert [payload][1..] == [];
    } else {
      FramesAppend(payloads[1..], payload);
      assert (payloads + [payload])[1..] == payloads[1..] + [payload];
    }
  }
}
