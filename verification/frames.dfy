/** Length-prefixed frames on the socket (rkwhisper-protocol/src/lib.rs). */
module Frames {
  import opened Wrappers
  import opened Wire
  import M = Messages
  import MessageTheorems

  const FRAME_MAX_BYTES: nat := 1024 * 1024

  datatype FrameError = TooLong | UnexpectedEof

  function LittleEndian32(n: u32): seq<byte> {
    [n % 256, n / 256 % 256, n / 0x1_0000 % 256, n / 0x100_0000]
  }

  function FromLittleEndian(b: seq<byte>): u32
    requires |b| == 4
  {
    var low: int, middle: int, high: int, top: int := b[0], b[1], b[2], b[3];
    low + 256 * middle + 0x1_0000 * high + 0x100_0000 * top
  }

  lemma LittleEndianRoundTrip(n: u32)
    ensures FromLittleEndian(LittleEndian32(n)) == n
  {
    assert n == n % 256 + 256 * (n / 256);
    assert n / 256 / 256 == n / 0x1_0000 && n / 0x1_0000 / 256 == n / 0x100_0000;
  }

  /** A frame as it stands on the wire. */
  function Framed(frame: seq<byte>): seq<byte>
    requires |frame| <= FRAME_MAX_BYTES
  {
    LittleEndian32(|frame|) + frame
  }

  /** The first frame of a stream. */
  function FirstFrame(stream: seq<byte>): Result<Got<seq<byte>>, FrameError> {
    if |stream| < 4 then Err(UnexpectedEof)
    else
      var len := FromLittleEndian(stream[..4]);
      if len > FRAME_MAX_BYTES then Err(TooLong)
      else if |stream| < 4 + len then Err(UnexpectedEof)
      else Ok(Got(stream[4..4 + len], 4 + len))
  }

  /** The number in four bytes, the lowest first. */
  ghost predicate Announces(stream: seq<byte>, len: nat) {
    |stream| >= 4 && len == stream[0] + 256 * stream[1] as int + 65536 * stream[2] as int + 16777216 * stream[3] as int
  }

  /** A frame stands behind its length. */
  lemma FrameBehindLength(frame: seq<byte>)
    requires |frame| <= 1048576
    ensures Announces(Framed(frame), |frame|) && Framed(frame)[4..] == frame
  {
    LittleEndianRoundTrip(|frame|);
  }

  /** A frame is read if it is at most 1 MiB long and all of it is there; nothing else is. */
  lemma FirstFrameMeans(stream: seq<byte>, len: nat)
    requires Announces(stream, len)
    ensures FirstFrame(stream) ==
              if len > 1048576 then Err(TooLong)
              else if |stream| < 4 + len then Err(UnexpectedEof)
              else Ok(Got(stream[4..4 + len], 4 + len))
  {
  }

  /** One direction of the socket: what has been written and not yet read. */
  class ByteStream {
    var pending: seq<byte>

    method WriteFrame(frame: seq<byte>) returns (r: Result<(), FrameError>)
      modifies this
      ensures r == if |frame| > 1048576 then Err(TooLong) else Ok(())
      ensures pending == if |frame| > 1048576 then old(pending) else old(pending) + Framed(frame)
    {
      if |frame| > FRAME_MAX_BYTES {
        return Err(TooLong);
      }
      pending := pending + LittleEndian32(|frame|);
      pending := pending + frame;
      assert pending == old(pending) + Framed(frame);
      return Ok(());
    }

    method ReadExact(count: nat) returns (r: Result<seq<byte>, FrameError>)
      modifies this
      ensures if count <= |old(pending)| then r == Ok(old(pending)[..count]) && pending == old(pending)[count..]
              else r == Err(UnexpectedEof)
    {
      if |pending| < count {
        pending := [];
        return Err(UnexpectedEof);
      }
      r := Ok(pending[..count]);
      pending := pending[count..];
    }

    method ReadFrame() returns (r: Result<seq<byte>, FrameError>)
      modifies this
      ensures match FirstFrame(old(pending))
              case Ok(got) => got.next <= |old(pending)| && r == Ok(got.value) && pending == old(pending)[got.next..]
              case Err(e) => r == Err(e)
    {
      var header :- ReadExact(4);
      var len := FromLittleEndian(header);
      if len > FRAME_MAX_BYTES {
        return Err(TooLong);
      }
      var frame :- ReadExact(len);
      assert old(pending)[4..][..len] == old(pending)[4..4 + len];
      assert old(pending)[4..][len..] == old(pending)[4 + len..];
      return Ok(frame);
    }
  }

  // ------------------------------------------------------------------ streams

  predicate AllFit(frames: seq<seq<byte>>) {
    forall i :: 0 <= i < |frames| ==> |frames[i]| <= 1048576
  }

  function Written(frames: seq<seq<byte>>): seq<byte>
    requires AllFit(frames)
  {
    if |frames| == 0 then [] else Framed(frames[0]) + Written(frames[1..])
  }

  /** The frames a reader gets out of a stream, and the error that stopped it before the end, if any. */
  datatype Reading = Reading(frames: seq<seq<byte>>, stopped: Option<FrameError>)

  function ReadAll(stream: seq<byte>): Reading
    decreases |stream|
  {
    if |stream| == 0 then Reading([], None)
    else match FirstFrame(stream)
      case Err(e) => Reading([], Some(e))
      case Ok(got) =>
        var rest := ReadAll(stream[got.next..]);
        Reading([got.value] + rest.frames, rest.stopped)
  }

  lemma FirstOfFramed(frame: seq<byte>, rest: seq<byte>)
    requires |frame| <= FRAME_MAX_BYTES
    ensures FirstFrame(Framed(frame) + rest) == Ok(Got(frame, |Framed(frame)|))
    ensures (Framed(frame) + rest)[|Framed(frame)|..] == rest
  {
    var stream := Framed(frame) + rest;
    assert stream[..4] == LittleEndian32(|frame|);
    LittleEndianRoundTrip(|frame|);
    assert stream[4..4 + |frame|] == frame;
  }

  lemma ReadAllStep(frame: seq<byte>, rest: seq<byte>)
    requires |frame| <= FRAME_MAX_BYTES
    ensures ReadAll(Framed(frame) + rest) == Reading([frame] + ReadAll(rest).frames, ReadAll(rest).stopped)
  {
    FirstOfFramed(frame, rest);
    assert 0 < |Framed(frame)|;
    hide Framed, FirstFrame;
  }

  lemma CutFrame(frame: seq<byte>, n: nat)
    requires |frame| <= FRAME_MAX_BYTES && n < |Framed(frame)|
    ensures FirstFrame(Framed(frame)[..n]) == Err(UnexpectedEof)
  {
    if n >= 4 {
      assert Framed(frame)[..n][..4] == LittleEndian32(|frame|);
      LittleEndianRoundTrip(|frame|);
    }
  }

  /** A cut inside the first frame. */
  lemma CutInFirst(frames: seq<seq<byte>>, n: nat)
    requires AllFit(frames) && frames != [] && n < |Framed(frames[0])|
    ensures n <= |Written(frames)|
    ensures ReadAll(Written(frames)[..n]) == Reading([], if n == 0 then None else Some(UnexpectedEof))
  {
    assert Written(frames)[..n] == Framed(frames[0])[..n];
    CutFrame(frames[0], n);
    hide Framed, FirstFrame;
  }

  /** A cut behind it. */
  lemma CutLater(frames: seq<seq<byte>>, n: nat)
    requires AllFit(frames) && frames != [] && |Framed(frames[0])| <= n <= |Written(frames)|
    ensures var after := n - |Framed(frames[0])|;
            && after <= |Written(frames[1..])|
            && var reading := ReadAll(Written(frames[1..])[..after]);
               ReadAll(Written(frames)[..n]) == Reading([frames[0]] + reading.frames, reading.stopped)
  {
    var head, rest := Framed(frames[0]), Written(frames[1..]);
    assert (head + rest)[..n] == head + rest[..n - |head|];
    ReadAllStep(frames[0], rest[..n - |head|]);
    hide Framed, ReadAll;
  }

  /** Byte n is inside frame k, or just before it. */
  ghost predicate CutIn(frames: seq<seq<byte>>, n: nat, k: nat)
    requires AllFit(frames)
  {
    && k <= |frames| && |Written(frames[..k])| <= n
    && (k < |frames| ==> n < |Written(frames[..k + 1])|)
  }

  lemma CutInLater(frames: seq<seq<byte>>, n: nat, k: nat)
    requires AllFit(frames) && frames != [] && |Framed(frames[0])| <= n
    requires CutIn(frames[1..], n - |Framed(frames[0])|, k)
    ensures CutIn(frames, n, k + 1)
    ensures |Written(frames[..k + 1])| == |Framed(frames[0])| + |Written(frames[1..][..k])|
    ensures frames[..k + 1] == [frames[0]] + frames[1..][..k]
  {
    WrittenPrefix(frames, k);
    if k + 1 < |frames| {
      WrittenPrefix(frames, k + 1);
    }
    hide Written, Framed;
  }

  /**
   However a stream of frames is cut off, the reader gets exactly the frames that
   are complete, in order, and notices when the cut is inside one.
   */
  lemma {:induction false} CutStreamsAreNoticed(frames: seq<seq<byte>>, n: nat) returns (k: nat)
    requires AllFit(frames) && n <= |Written(frames)|
    ensures CutIn(frames, n, k) && ReadAll(Written(frames)[..n]).frames == frames[..k]
    ensures ReadAll(Written(frames)[..n]).stopped ==
              if n == |Written(frames[..k])| then None else Some(UnexpectedEof)
  {
    if frames == [] {
      k := 0;
    } else if n < |Framed(frames[0])| {
      k := 0;
      CutInFirst(frames, n);
      WrittenPrefix(frames, 0);
      assert frames[..0] == frames[1..][..0] == [] && Written([]) == [];
      hide Written, ReadAll, Framed;
    } else {
      hide Written, ReadAll, Framed, CutIn;
      CutLater(frames, n);
      var k' := CutStreamsAreNoticed(frames[1..], n - |Framed(frames[0])|);
      assert k' <= |frames[1..]| by { CutIsInside(frames[1..], n - |Framed(frames[0])|, k'); }
      CutInLater(frames, n, k');
      k := k' + 1;
    }
  }

  lemma CutIsInside(frames: seq<seq<byte>>, n: nat, k: nat)
    requires AllFit(frames) && CutIn(frames, n, k)
    ensures k <= |frames|
  {
  }

  lemma WrittenPrefix(frames: seq<seq<byte>>, k: nat)
    requires AllFit(frames) && k < |frames|
    ensures Written(frames[..k + 1]) == Framed(frames[0]) + Written(frames[1..][..k])
  {
    assert frames[..k + 1][1..] == frames[1..][..k];
  }

  /** Written frames are read back as the same list. */
  lemma FramesRoundTrip(frames: seq<seq<byte>>)
    requires AllFit(frames)
    ensures ReadAll(Written(frames)) == Reading(frames, None)
  {
    var all := Written(frames);
    assert all[..|all|] == all;
    var k := CutStreamsAreNoticed(frames, |all|);
    if k < |frames| {
      WrittenGrows(frames, k + 1);
    }
    assert frames[..|frames|] == frames;
  }

  lemma {:induction false} WrittenGrows(frames: seq<seq<byte>>, k: nat)
    requires AllFit(frames) && k <= |frames|
    ensures |Written(frames[..k])| <= |Written(frames)|
  {
    if k > 0 {
      WrittenPrefix(frames, k - 1);
      WrittenGrows(frames[1..], k - 1);
    }
  }

  /** What is in the frames a client has read, decoded one by one. */
  function Decoded(frames: seq<seq<byte>>): seq<Result<M.Response, ProtoError>> {
    seq(|frames|, i requires 0 <= i < |frames| => M.DecodeResponse(frames[i]))
  }

  function EncodedAll(responses: seq<M.Response>): seq<seq<byte>> {
    seq(|responses|, i requires 0 <= i < |responses| => M.EncodeResponse(responses[i]))
  }

  /** Responses arrive in order and unchanged; a broken connection loses only a tail of them. */
  lemma ResponsesArrive(responses: seq<M.Response>, n: nat) returns (k: nat)
    requires AllFit(EncodedAll(responses)) && n <= |Written(EncodedAll(responses))|
    ensures k <= |responses|
    ensures var got := Decoded(ReadAll(Written(EncodedAll(responses))[..n]).frames);
            |got| == k && forall i :: 0 <= i < k ==> got[i] == Ok(responses[i])
    ensures n == |Written(EncodedAll(responses))| ==> k == |responses|
  {
    hide M.EncodeResponse, M.DecodeResponse, Written, ReadAll;
    var frames := EncodedAll(responses);
    k := CutStreamsAreNoticed(frames, n);
    forall i | 0 <= i < k ensures M.DecodeResponse(frames[i]) == Ok(responses[i]) {
      assert |frames[i]| <= FRAME_MAX_BYTES;
      assert M.EncodeResponse(responses[i]) + [] == frames[i];
      MessageTheorems.ResponseRoundTrip(responses[i], []);
    }
    if n == |Written(frames)| {
      assert Written(frames)[..n] == Written(frames);
      FramesRoundTrip(frames);
    }
  }
}
