/** The encoder and decoder as programs over a growing buffer and a moving position (rkwhisper-protocol/src/lib.rs). */
module Codec {
  import opened Wrappers
  import opened Wire
  import M = Messages

  // ------------------------------------------------------------------ writing

  class ProtoOutput {
    var out: seq<byte>
    ghost var fields: seq<Field>

    /** Between two fields the buffer holds the encoding of those written. */
    ghost predicate Valid()
      reads this
    {
      out == EncodeFields(fields)
    }

    constructor ()
      ensures Valid() && fields == []
    {
      out, fields := [], [];
    }

    method Varint(value: u64)
      modifies this`out
      ensures out == old(out) + EncodeVarint(value)
    {
      var v: nat := value;
      while v >= 0x80
        invariant out + EncodeVarint(v) == old(out) + EncodeVarint(value)
      {
        var rest := EncodeVarint(v / 128);
        assert out + ([v % 128 + 128] + rest) == (out + [v % 128 + 128]) + rest;
        out := out + [v % 128 + 128];
        v := v / 128;
      }
      out := out + [v];
    }

    method FieldVarint(number: u32, value: u64)
      requires Valid()
      modifies this
      ensures Valid() && fields == old(fields) + [Field(number, Payload.Varint(value))]
    {
      ghost var f := Field(number, Payload.Varint(value));
      hide EncodeVarint;
      Varint(number * 8);
      Varint(value);
      fields := fields + [f];
      OneMore(old(fields), f);
      assert out == old(out) + EncodeField(f);
    }

    method FieldFixed32(number: u32, value: M.Float)
      requires Valid()
      modifies this
      ensures Valid() && fields == old(fields) + [Field(number, Fixed32(value))]
    {
      ghost var f := Field(number, Fixed32(value));
      hide EncodeVarint;
      Varint(number * 8 + 5);
      out := out + value;
      fields := fields + [f];
      OneMore(old(fields), f);
      assert out == old(out) + EncodeField(f);
    }

    method FieldMessage(number: u32, value: seq<byte>)
      requires Valid() && |value| < TWO_64
      modifies this
      ensures Valid() && fields == old(fields) + [Field(number, Bytes(value))]
    {
      ghost var f := Field(number, Bytes(value));
      hide EncodeVarint;
      Varint(number * 8 + 2);
      Varint(|value|);
      out := out + value;
      fields := fields + [f];
      OneMore(old(fields), f);
      assert out == old(out) + EncodeField(f);
    }

    method FieldString(number: u32, value: M.Utf8)
      requires Valid() && |value| < TWO_64
      modifies this
      ensures Valid() && fields == old(fields) + [Field(number, Bytes(value))]
    {
      FieldMessage(number, value);
    }
  }

  lemma OneMore(fs: seq<Field>, f: Field)
    ensures EncodeFields(fs + [f]) == EncodeFields(fs) + EncodeField(f)
  {
    assert (fs + [f])[..|fs|] == fs;
  }

  method EncodeAudioFormat(a: M.AudioFormat) returns (bytes: seq<byte>)
    ensures bytes == M.EncodeAudioFormat(a)
  {
    hide EncodeFields;
    var out := new ProtoOutput();
    out.FieldVarint(1, a.sampleRate);
    out.FieldVarint(2, a.channels);
    out.FieldVarint(3, SignExtended(a.sampleFormat));
    assert out.fields == M.AudioFields(a);
    return out.out;
  }

  method EncodeVadOptions(v: M.VadOptions) returns (bytes: seq<byte>)
    ensures bytes == M.EncodeVadOptions(v)
  {
    hide EncodeFields;
    var out := new ProtoOutput();
    if v.threshold.Some? {
      out.FieldFixed32(1, v.threshold.value);
    }
    assert out.fields == M.OptionalFloat(1, v.threshold);
    if v.minSpeechMs.Some? {
      out.FieldVarint(2, v.minSpeechMs.value);
    }
    assert out.fields == M.OptionalFloat(1, v.threshold) + M.OptionalVarint(2, v.minSpeechMs);
    ghost var two := out.fields;
    if v.minSilenceMs.Some? {
      out.FieldVarint(3, v.minSilenceMs.value);
    }
    assert out.fields == two + M.OptionalVarint(3, v.minSilenceMs);
    ghost var three := out.fields;
    if v.speechPadMs.Some? {
      out.FieldVarint(4, v.speechPadMs.value);
    }
    assert out.fields == three + M.OptionalVarint(4, v.speechPadMs);
    ghost var four := out.fields;
    if v.windowSamples.Some? {
      out.FieldVarint(5, v.windowSamples.value);
    }
    assert out.fields == four + M.OptionalVarint(5, v.windowSamples);
    return out.out;
  }

  /** Lengths are 64-bit numbers: no buffer in memory is longer. */
  ghost predicate HelloFits(h: M.ClientHello) {
    && |h.model| < TWO_64 && |h.lang| < TWO_64 && |h.task| < TWO_64 && |h.suppressTokens| < TWO_64 && |h.clientId| < TWO_64
    && |M.EncodeAudioFormat(h.audioFormat)| < TWO_64 && |M.EncodeVadOptions(h.vad)| < TWO_64
  }

  lemma HelloFieldsInOrder(h: M.ClientHello)
    ensures M.HelloFields(h) ==
              [] + [Field(1, Bytes(h.model))] + [Field(3, Bytes(h.lang))] + [Field(4, Bytes(h.task))]
              + [Field(5, Varint(h.maxNewTokens))] + [Field(6, Varint(h.beamSize))]
              + [Field(7, Varint(if h.notimestamps then 1 else 0))] + [Field(8, Bytes(h.suppressTokens))]
              + [Field(9, Bytes(M.EncodeAudioFormat(h.audioFormat)))] + [Field(10, Bytes(M.EncodeVadOptions(h.vad)))]
              + [Field(11, Bytes(h.clientId))]
  {
    hide M.EncodeAudioFormat, M.EncodeVadOptions, M.ValidUtf8;
  }

  method EncodeClientHello(h: M.ClientHello) returns (bytes: seq<byte>)
    requires HelloFits(h)
    ensures bytes == M.EncodeClientHello(h)
  {
    hide EncodeFields, EncodeField, EncodeVarint, M.HelloFields, M.EncodeAudioFormat, M.EncodeVadOptions, M.ValidUtf8;
    var out := new ProtoOutput();
    out.FieldString(1, h.model);
    out.FieldString(3, h.lang);
    out.FieldString(4, h.task);
    out.FieldVarint(5, h.maxNewTokens);
    out.FieldVarint(6, h.beamSize);
    out.FieldVarint(7, if h.notimestamps then 1 else 0);
    out.FieldString(8, h.suppressTokens);
    var audio := EncodeAudioFormat(h.audioFormat);
    out.FieldMessage(9, audio);
    var vad := EncodeVadOptions(h.vad);
    out.FieldMessage(10, vad);
    out.FieldString(11, h.clientId);
    HelloFieldsInOrder(h);
    return out.out;
  }

  ghost predicate ResponseFits(r: M.Response) {
    && |EncodeFields(M.ResponseFields(r))| < TWO_64
    && (r.Hello? ==> |M.EncodeAudioFormat(r.server.audioFormat)| < TWO_64)
    && (r.Segment? ==> |r.text| < TWO_64)
    && (r.Failed? ==> |r.error| < TWO_64)
    && (r.BackOff? ==> |r.reason| < TWO_64)
  }

  method EncodeBody(r: M.Response) returns (body: seq<byte>)
    requires ResponseFits(r)
    ensures body == EncodeFields(M.ResponseFields(r))
  {
    hide M.EncodeAudioFormat, EncodeFields;
    var msg := new ProtoOutput();
    match r {
      case Hello(server) =>
        var audio := EncodeAudioFormat(server.audioFormat);
        msg.FieldMessage(1, audio);
        msg.FieldVarint(2, server.ringCapacityBytes);
        msg.FieldVarint(3, server.ringHeaderBytes);
      case Segment(text, begin, end) =>
        msg.FieldString(1, text);
        msg.FieldFixed32(2, begin);
        msg.FieldFixed32(3, end);
      case Done(audioS, rtf) =>
        msg.FieldFixed32(1, audioS);
        msg.FieldFixed32(2, rtf);
      case Failed(error) =>
        msg.FieldString(1, error);
      case Cancelled(audioS, rtf, dispatched, completed) =>
        msg.FieldFixed32(1, audioS);
        msg.FieldFixed32(2, rtf);
        msg.FieldVarint(3, dispatched);
        msg.FieldVarint(4, completed);
      case BackOff(reason, retryAfterMs) =>
        msg.FieldString(1, reason);
        msg.FieldVarint(2, retryAfterMs);
      case SpeechStarted(begin) =>
        msg.FieldVarint(1, 1);
        msg.FieldFixed32(2, begin);
      case SpeechEnded(end) =>
        msg.FieldVarint(1, 2);
        msg.FieldFixed32(2, end);
    }
    assert msg.fields == M.ResponseFields(r);
    return msg.out;
  }

  method EncodeResponse(r: M.Response) returns (bytes: seq<byte>)
    requires ResponseFits(r)
    ensures bytes == M.EncodeResponse(r)
  {
    hide EncodeField, M.ResponseFields, M.NumberOf;
    var body := EncodeBody(r);
    var out := new ProtoOutput();
    out.FieldMessage(M.NumberOf(r), body);
    OneMore([], Field(M.NumberOf(r), Bytes(body)));
    return out.out;
  }

  // ------------------------------------------------------------------ reading

  lemma WeightsSplit(w: nat, digit: nat, rest: nat)
    ensures w * (digit + 128 * rest) == w * digit + (w * 128) * rest
  {
  }

  /** What a shift by 7 k bits keeps of a byte's low seven bits. */
  lemma ShiftKeeps(b: byte, w: nat, k: nat)
    requires k <= 9 && w * Limit(k) == TWO_64
    ensures (b % 128 * w) % TWO_64 == w * if k == 9 then b % 2 else b % 128
    ensures k < 9 ==> w * 128 * Limit(k + 1) == TWO_64
  {
    LimitIsPositive(k);
    if k == 9 {
      TopBit(b % 128);
    } else {
      BelowLimit(b % 128, w, Limit(k));
    }
  }

  /** The digits from the k-th on complete what has been read since `start`. */
  ghost predicate Accumulated(bytes: seq<byte>, start: nat, at: nat, k: nat, value: nat, weight: nat)
    requires k <= 10
  {
    ReadDigits(bytes, start, 0) ==
      match ReadDigits(bytes, at, k)
      case Ok(got) => Ok(Got(value + weight * got.value, got.next))
      case Err(e) => Err(e)
  }

  lemma AddDigit(bytes: seq<byte>, start: nat, at: nat, k: nat, value: nat, weight: nat)
    requires k <= 9 && at < |bytes| && weight * Limit(k) == TWO_64 && Accumulated(bytes, start, at, k, value, weight)
    ensures var v := value + (bytes[at] % 128 * weight) % TWO_64;
            if bytes[at] < 128 then ReadDigits(bytes, start, 0) == Ok(Got(v, at + 1))
            else Accumulated(bytes, start, at + 1, k + 1, v, weight * 128) && (k < 9 ==> weight * 128 * Limit(k + 1) == TWO_64)
  {
    ShiftKeeps(bytes[at], weight, k);
    var rest := ReadDigits(bytes, at + 1, k + 1);
    if k < 9 && rest.Ok? {
      WeightsSplit(weight, bytes[at] % 128, rest.value.value);
    }
    hide Limit;
  }

  lemma TopBit(d: nat)
    ensures d * 0x8000_0000_0000_0000 % TWO_64 == 0x8000_0000_0000_0000 * (d % 2)
  {
    assert d * 0x8000_0000_0000_0000 == TWO_64 * (d / 2) + 0x8000_0000_0000_0000 * (d % 2);
  }

  lemma BelowLimit(d: nat, w: nat, n: nat)
    requires d < n && w * n == TWO_64
    ensures d * w % TWO_64 == w * d
  {
    assert w * (n - d) == w * n - w * d;
    assert 0 < w * (n - d);
  }

  class ProtoInput {
    const bytes: seq<byte>
    var at: nat

    constructor (bytes: seq<byte>)
      ensures this.bytes == bytes && at == 0
    {
      this.bytes := bytes;
      at := 0;
    }

    predicate IsEmpty()
      reads this
    {
      at >= |bytes|
    }

    method Varint() returns (r: Result<u64, ProtoError>)
      modifies this
      ensures match ReadVarint(bytes, old(at))
              case Ok(got) => r == Ok(got.value) && at == got.next
              case Err(e) => r == Err(e)
    {
      LimitIs64();
      var value: nat, weight: nat := 0, 1;
      for k := 0 to 10
        invariant k < 10 ==> weight * Limit(k) == TWO_64
        invariant Accumulated(bytes, old(at), at, k, value, weight)
      {
        if at >= |bytes| {
          return Err(Truncated);
        }
        var b := bytes[at];
        AddDigit(bytes, old(at), at, k, value, weight);
        at := at + 1;
        value := value + (b % 128 * weight) % TWO_64;  // an or of disjoint bits is a sum
        if b < 128 {
          return Ok(value);
        }
        weight := weight * 128;
      }
      return Err(VarintTooLong);
    }

    method Key() returns (r: Result<(u32, nat), ProtoError>)
      modifies this
      ensures match ReadKey(bytes, old(at))
              case Ok(got) => r == Ok(got.value) && at == got.next
              case Err(e) => r == Err(e)
    {
      var key :- Varint();
      return Ok((AsU32(key / 8), key % 8));
    }

    method Bytes() returns (r: Result<seq<byte>, ProtoError>)
      modifies this
      ensures match ReadBytes(bytes, old(at))
              case Ok(got) => r == Ok(got.value) && at == got.next
              case Err(e) => r == Err(e)
    {
      var len :- Varint();
      var end := at + len;
      if end >= TWO_64 {
        return Err(LengthOverflow);
      }
      if end > |bytes| {
        return Err(Truncated);
      }
      var data := bytes[at..end];
      at := end;
      return Ok(data);
    }

    method String() returns (r: Result<M.Utf8, ProtoError>)
      modifies this
      ensures match ReadBytes(bytes, old(at))
              case Ok(got) => r == M.Text(got.value) && at == got.next
              case Err(e) => r == Err(e)
    {
      var data :- Bytes();
      if !M.ValidUtf8(data) {
        return Err(NotUtf8);
      }
      return Ok(data);
    }

    method Fixed32() returns (r: Result<M.Float, ProtoError>)
      modifies this
      ensures match TakeBytes(bytes, old(at), 4)
              case Ok(got) => r == Ok(got.value) && at == got.next
              case Err(e) => r == Err(e)
    {
      var end := at + 4;
      if end > |bytes| {
        return Err(Truncated);
      }
      var four := bytes[at..end];
      at := end;
      return Ok(four);
    }

    method Skip(wire: nat) returns (r: Result<(), ProtoError>)
      modifies this
      ensures match ReadPayload(bytes, old(at), wire)
              case Ok(got) => r == Ok(()) && at == got.next
              case Err(e) => r == Err(e)
    {
      if wire == 0 {
        var _ :- Varint();
      } else if wire == 1 {
        at := at + 8;
      } else if wire == 2 {
        var _ :- Bytes();
      } else if wire == 5 {
        at := at + 4;
      } else {
        return Err(UnsupportedWire(wire));
      }
      if at > |bytes| {
        return Err(Truncated);
      }
      return Ok(());
    }
  }

  method DecodeAudioFormat(bytes: seq<byte>) returns (r: Result<M.AudioFormat, ProtoError>)
    ensures r == M.DecodeAudioFormat(bytes)
  {
    hide ReadKey, ReadVarint, ReadBytes, TakeBytes;
    var format := M.NO_AUDIO_FORMAT;
    var input := new ProtoInput(bytes);
    while !input.IsEmpty()
      invariant Walk(M.ApplyAudio, format, bytes, input.at) ==
                  Walk(M.ApplyAudio, M.NO_AUDIO_FORMAT, bytes, 0)
      decreases |bytes| - input.at
    {
      var key :- input.Key();
      match key {
        case (1, 0) =>
          var v :- input.Varint();
          format := format.(sampleRate := AsU32(v));
        case (2, 0) =>
          var v :- input.Varint();
          format := format.(channels := AsU32(v));
        case (3, 0) =>
          var v :- input.Varint();
          format := format.(sampleFormat := AsI32(v));
        case (_, wire) => var _ :- input.Skip(wire);
      }
    }
    return Ok(format);
  }

  method DecodeVadOptions(bytes: seq<byte>) returns (r: Result<M.VadOptions, ProtoError>)
    ensures r == M.DecodeVadOptions(bytes)
  {
    hide ReadKey, ReadVarint, ReadBytes, TakeBytes;
    var vad := M.NO_VAD_OPTIONS;
    var input := new ProtoInput(bytes);
    while !input.IsEmpty()
      invariant Walk(M.ApplyVad, vad, bytes, input.at) ==
                  Walk(M.ApplyVad, M.NO_VAD_OPTIONS, bytes, 0)
      decreases |bytes| - input.at
    {
      var key :- input.Key();
      match key {
        case (1, 5) =>
          var v :- input.Fixed32();
          vad := vad.(threshold := Some(v));
        case (2, 0) =>
          var v :- input.Varint();
          vad := vad.(minSpeechMs := Some(AsU32(v)));
        case (3, 0) =>
          var v :- input.Varint();
          vad := vad.(minSilenceMs := Some(AsU32(v)));
        case (4, 0) =>
          var v :- input.Varint();
          vad := vad.(speechPadMs := Some(AsU32(v)));
        case (5, 0) =>
          var v :- input.Varint();
          vad := vad.(windowSamples := Some(v));
        case (_, wire) => var _ :- input.Skip(wire);
      }
    }
    return Ok(vad);
  }

  method DecodeClientHello(bytes: seq<byte>) returns (r: Result<M.ClientHello, ProtoError>)
    ensures r == M.DecodeClientHello(bytes)
  {
    hide ReadKey, ReadVarint, ReadBytes, TakeBytes, M.DecodeAudioFormat, M.DecodeVadOptions, M.Text, M.ValidUtf8;
    var hello := M.DEFAULT_HELLO;
    var input := new ProtoInput(bytes);
    while !input.IsEmpty()
      invariant Walk(M.ApplyHello, hello, bytes, input.at) ==
                  Walk(M.ApplyHello, M.DEFAULT_HELLO, bytes, 0)
      decreases |bytes| - input.at
    {
      var key :- input.Key();
      match key {
        case (1, 2) =>
          var v :- input.String();
          hello := hello.(model := v);
        case (3, 2) =>
          var v :- input.String();
          hello := hello.(lang := v);
        case (4, 2) =>
          var v :- input.String();
          hello := hello.(task := v);
        case (5, 0) =>
          var v :- input.Varint();
          hello := hello.(maxNewTokens := v);
        case (6, 0) =>
          var v :- input.Varint();
          hello := hello.(beamSize := v);
        case (7, 0) =>
          var v :- input.Varint();
          hello := hello.(notimestamps := v != 0);
        case (8, 2) =>
          var v :- input.String();
          hello := hello.(suppressTokens := v);
        case (9, 2) =>
          var b :- input.Bytes();
          var v :- DecodeAudioFormat(b);
          hello := hello.(audioFormat := v);
        case (10, 2) =>
          var b :- input.Bytes();
          var v :- DecodeVadOptions(b);
          hello := hello.(vad := v);
        case (11, 2) =>
          var v :- input.String();
          hello := hello.(clientId := v);
        case (_, wire) => var _ :- input.Skip(wire);
      }
    }
    if hello.model == [] {
      return Err(MissingModel);
    }
    return Ok(hello);
  }

  method DecodeServerHello(bytes: seq<byte>) returns (r: Result<M.ServerHello, ProtoError>)
    ensures r == M.DecodeServerHello(bytes)
  {
    hide ReadKey, ReadVarint, ReadBytes, TakeBytes, M.DecodeAudioFormat;
    var hello := M.ServerHello(M.NO_AUDIO_FORMAT, 0, 0);
    var input := new ProtoInput(bytes);
    while !input.IsEmpty()
      invariant Walk(M.ApplyServerHello, hello, bytes, input.at) ==
                  Walk(M.ApplyServerHello, M.ServerHello(M.NO_AUDIO_FORMAT, 0, 0), bytes, 0)
      decreases |bytes| - input.at
    {
      var key :- input.Key();
      match key {
        case (1, 2) =>
          var b :- input.Bytes();
          var v :- DecodeAudioFormat(b);
          hello := hello.(audioFormat := v);
        case (2, 0) =>
          var v :- input.Varint();
          hello := hello.(ringCapacityBytes := v);
        case (3, 0) =>
          var v :- input.Varint();
          hello := hello.(ringHeaderBytes := AsU32(v));
        case (_, wire) => var _ :- input.Skip(wire);
      }
    }
    return Ok(hello);
  }

  method DecodeSegment(bytes: seq<byte>) returns (r: Result<M.Response, ProtoError>)
    ensures r == M.DecodeBody(2, bytes)
  {
    hide ReadKey, ReadVarint, ReadBytes, TakeBytes, M.Text, M.ValidUtf8;
    var text: M.Utf8 := [];
    var begin, end := M.FLOAT_ZERO, M.FLOAT_ZERO;
    var input := new ProtoInput(bytes);
    while !input.IsEmpty()
      invariant Walk(M.ApplySegment, M.Segment(text, begin, end), bytes, input.at) ==
                  Walk(M.ApplySegment, M.NO_SEGMENT, bytes, 0)
      decreases |bytes| - input.at
    {
      var key :- input.Key();
      match key {
        case (1, 2) => text :- input.String();
        case (2, 5) => begin :- input.Fixed32();
        case (3, 5) => end :- input.Fixed32();
        case (_, wire) => var _ :- input.Skip(wire);
      }
    }
    return Ok(M.Segment(text, begin, end));
  }

  method DecodeDone(bytes: seq<byte>) returns (r: Result<M.Response, ProtoError>)
    ensures r == M.DecodeBody(3, bytes)
  {
    hide ReadKey, ReadVarint, ReadBytes, TakeBytes;
    var audioS, rtf := M.FLOAT_ZERO, M.FLOAT_ZERO;
    var input := new ProtoInput(bytes);
    while !input.IsEmpty()
      invariant Walk(M.ApplyDone, M.Done(audioS, rtf), bytes, input.at) ==
                  Walk(M.ApplyDone, M.NO_DONE, bytes, 0)
      decreases |bytes| - input.at
    {
      var key :- input.Key();
      match key {
        case (1, 5) => audioS :- input.Fixed32();
        case (2, 5) => rtf :- input.Fixed32();
        case (_, wire) => var _ :- input.Skip(wire);
      }
    }
    return Ok(M.Done(audioS, rtf));
  }

  method DecodeError(bytes: seq<byte>) returns (r: Result<M.Response, ProtoError>)
    ensures r == M.DecodeBody(4, bytes)
  {
    hide ReadKey, ReadVarint, ReadBytes, TakeBytes, M.Text, M.ValidUtf8;
    var text: M.Utf8 := [];
    var input := new ProtoInput(bytes);
    while !input.IsEmpty()
      invariant Walk(M.ApplyFailed, M.Failed(text), bytes, input.at) ==
                  Walk(M.ApplyFailed, M.NO_ERROR, bytes, 0)
      decreases |bytes| - input.at
    {
      var key :- input.Key();
      match key {
        case (1, 2) => text :- input.String();
        case (_, wire) => var _ :- input.Skip(wire);
      }
    }
    return Ok(M.Failed(text));
  }

  method DecodeCancelled(bytes: seq<byte>) returns (r: Result<M.Response, ProtoError>)
    ensures r == M.DecodeBody(5, bytes)
  {
    hide ReadKey, ReadVarint, ReadBytes, TakeBytes;
    var audioS, rtf := M.FLOAT_ZERO, M.FLOAT_ZERO;
    var dispatched: u64, completed: u64 := 0, 0;
    var input := new ProtoInput(bytes);
    while !input.IsEmpty()
      invariant Walk(M.ApplyCancelled, M.Cancelled(audioS, rtf, dispatched, completed), bytes, input.at) ==
                  Walk(M.ApplyCancelled, M.NO_CANCELLED, bytes, 0)
      decreases |bytes| - input.at
    {
      var key :- input.Key();
      match key {
        case (1, 5) => audioS :- input.Fixed32();
        case (2, 5) => rtf :- input.Fixed32();
        case (3, 0) => dispatched :- input.Varint();
        case (4, 0) => completed :- input.Varint();
        case (_, wire) => var _ :- input.Skip(wire);
      }
    }
    return Ok(M.Cancelled(audioS, rtf, dispatched, completed));
  }

  method DecodeBackOff(bytes: seq<byte>) returns (r: Result<M.Response, ProtoError>)
    ensures r == M.DecodeBody(6, bytes)
  {
    hide ReadKey, ReadVarint, ReadBytes, TakeBytes, M.Text, M.ValidUtf8;
    var text: M.Utf8 := [];
    var retryAfterMs: u32 := 0;
    var input := new ProtoInput(bytes);
    while !input.IsEmpty()
      invariant Walk(M.ApplyBackOff, M.BackOff(text, retryAfterMs), bytes, input.at) ==
                  Walk(M.ApplyBackOff, M.NO_BACK_OFF, bytes, 0)
      decreases |bytes| - input.at
    {
      var key :- input.Key();
      match key {
        case (1, 2) => text :- input.String();
        case (2, 0) =>
          var v :- input.Varint();
          retryAfterMs := AsU32(v);
        case (_, wire) => var _ :- input.Skip(wire);
      }
    }
    return Ok(M.BackOff(text, retryAfterMs));
  }

  method DecodeSpeechEvent(bytes: seq<byte>) returns (r: Result<M.Response, ProtoError>)
    ensures r == M.DecodeSpeechEvent(bytes)
  {
    hide ReadKey, ReadVarint, ReadBytes, TakeBytes;
    var event: u64, timestamp := 0, M.FLOAT_ZERO;
    var input := new ProtoInput(bytes);
    while !input.IsEmpty()
      invariant Walk(M.ApplySpeech, M.SpeechEvent(event, timestamp), bytes, input.at) ==
                  Walk(M.ApplySpeech, M.NO_EVENT, bytes, 0)
      decreases |bytes| - input.at
    {
      var key :- input.Key();
      match key {
        case (1, 0) => event :- input.Varint();
        case (2, 5) => timestamp :- input.Fixed32();
        case (_, wire) => var _ :- input.Skip(wire);
      }
    }
    match event {
      case 1 => return Ok(M.SpeechStarted(timestamp));
      case 2 => return Ok(M.SpeechEnded(timestamp));
      case _ => return Err(UnknownSpeechEvent(event));
    }
  }

  method DecodeResponse(bytes: seq<byte>) returns (r: Result<M.Response, ProtoError>)
    ensures r == M.DecodeResponse(bytes)
  {
    hide ReadKey, ReadBytes, Walk;
    var input := new ProtoInput(bytes);
    var key :- input.Key();
    var (number, wire) := key;
    if wire != 2 {
      return Err(ResponseWire(wire));
    }
    var body :- input.Bytes();
    match number {
      case 1 => var hello :- DecodeServerHello(body); return Ok(M.Hello(hello));
      case 2 => r := DecodeSegment(body);
      case 3 => r := DecodeDone(body);
      case 4 => r := DecodeError(body);
      case 5 => r := DecodeCancelled(body);
      case 6 => r := DecodeBackOff(body);
      case 7 => r := DecodeSpeechEvent(body);
      case _ => return Err(UnknownResponse(number));
    }
  }
}
