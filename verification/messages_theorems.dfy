/** Round trips, cut-short messages and unknown fields (rkwhisper-protocol/src/lib.rs). */
module MessageTheorems {
  import opened Wrappers
  import opened Wire
  import opened Messages

  // ------------------------------------------------------------------ helpers

  /** Adding at most one field to a list already folded. */
  lemma Push<M>(apply: (M, Field) -> Result<M, ProtoError>, start: M, fs: seq<Field>, more: seq<Field>, m: M, m': M)
    requires |more| <= 1 && Fold(apply, start, fs) == Ok(m)
    requires if more == [] then m' == m else apply(m, more[0]) == Ok(m')
    ensures Fold(apply, start, fs + more) == Ok(m')
  {
    if more == [] {
      assert fs + more == fs;
    } else {
      assert fs + more == fs + [more[0]];
      assert (fs + more)[..|fs|] == fs;
    }
  }

  lemma FoldNothing<M>(apply: (M, Field) -> Result<M, ProtoError>, m: M)
    ensures Fold(apply, m, []) == Ok(m)
  {
  }

  lemma {:induction false} PartFits(fs: seq<Field>, i: nat)
    requires i < |fs|
    ensures |EncodeField(fs[i])| <= |EncodeFields(fs)|
  {
    hide EncodeField;
    var n := |fs| - 1;
    if i < n {
      PartFits(fs[..n], i);
    }
  }

  lemma DataFits(fs: seq<Field>, i: nat, data: seq<byte>)
    requires i < |fs| && fs[i].payload == Bytes(data)
    ensures |data| <= |EncodeFields(fs)|
  {
    hide EncodeFields, EncodeVarint;
    PartFits(fs, i);
  }

  // ------------------------------------------------------------- sub-messages

  lemma AudioRoundTrip(a: AudioFormat)
    requires |EncodeAudioFormat(a)| < TWO_64
    ensures DecodeAudioFormat(EncodeAudioFormat(a)) == Ok(a)
  {
    hide EncodeFields, Fold, Walk;
    CastsRoundTrip(a.sampleFormat, a.sampleRate);
    CastsRoundTrip(a.sampleFormat, a.channels);
    var fs, m0 := AudioFields(a), NO_AUDIO_FORMAT;
    var m1 := m0.(sampleRate := a.sampleRate);
    var m2 := m1.(channels := a.channels);
    FoldNothing(ApplyAudio, m0);
    Push(ApplyAudio, m0, [], [fs[0]], m0, m1);
    Push(ApplyAudio, m0, [] + [fs[0]], [fs[1]], m1, m2);
    Push(ApplyAudio, m0, [] + [fs[0]] + [fs[1]], [fs[2]], m2, a);
    assert [] + [fs[0]] + [fs[1]] + [fs[2]] == fs;
    WalkOfEncoding(ApplyAudio, m0, fs);
  }

  lemma VadFolds(v: VadOptions)
    ensures Fold(ApplyVad, NO_VAD_OPTIONS, VadFields(v)) == Ok(v)
  {
    hide Fold;
    var a, b, c, d, e := OptionalFloat(1, v.threshold), OptionalVarint(2, v.minSpeechMs), OptionalVarint(3, v.minSilenceMs),
      OptionalVarint(4, v.speechPadMs), OptionalVarint(5, v.windowSamples);
    var m0 := NO_VAD_OPTIONS;
    var m1 := m0.(threshold := v.threshold);
    var m2 := m1.(minSpeechMs := v.minSpeechMs);
    var m3 := m2.(minSilenceMs := v.minSilenceMs);
    var m4 := m3.(speechPadMs := v.speechPadMs);
    FoldNothing(ApplyVad, m0);
    assert [] + a == a;
    Push(ApplyVad, m0, [], a, m0, m1);
    Push(ApplyVad, m0, a, b, m1, m2);
    Push(ApplyVad, m0, a + b, c, m2, m3);
    Push(ApplyVad, m0, a + b + c, d, m3, m4);
    Push(ApplyVad, m0, a + b + c + d, e, m4, v);
  }

  lemma VadFieldsOk(v: VadOptions)
    ensures forall i :: 0 <= i < |VadFields(v)| ==> FieldOk(VadFields(v)[i])
  {
    forall i | 0 <= i < |VadFields(v)| ensures FieldOk(VadFields(v)[i]) {
      assert VadFields(v)[i] in VadFields(v);
    }
  }

  lemma VadRoundTrip(v: VadOptions)
    requires |EncodeVadOptions(v)| < TWO_64
    ensures DecodeVadOptions(EncodeVadOptions(v)) == Ok(v)
  {
    hide EncodeFields, Fold, Walk, VadFields, ApplyVad, FieldOk;
    VadFieldsOk(v);
    VadFolds(v);
    WalkOfEncoding(ApplyVad, NO_VAD_OPTIONS, VadFields(v));
  }

  // ------------------------------------------------------------- client hello

  lemma HelloFolds(h: ClientHello)
    requires DecodeAudioFormat(EncodeAudioFormat(h.audioFormat)) == Ok(h.audioFormat)
    requires DecodeVadOptions(EncodeVadOptions(h.vad)) == Ok(h.vad)
    ensures Fold(ApplyHello, DEFAULT_HELLO, HelloFields(h)) == Ok(h)
  {
    hide Fold, DecodeAudioFormat, DecodeVadOptions, EncodeAudioFormat, EncodeVadOptions, ValidUtf8;
    var fs := HelloFields(h);
    var m0 := DEFAULT_HELLO;
    var m1 := m0.(model := h.model);
    var m2 := m1.(lang := h.lang);
    var m3 := m2.(task := h.task);
    var m4 := m3.(maxNewTokens := h.maxNewTokens);
    var m5 := m4.(beamSize := h.beamSize);
    var m6 := m5.(notimestamps := h.notimestamps);
    var m7 := m6.(suppressTokens := h.suppressTokens);
    var m8 := m7.(audioFormat := h.audioFormat);
    var m9 := m8.(vad := h.vad);
    FoldNothing(ApplyHello, m0);
    var s0 := [] + [fs[0]];
    var s1 := s0 + [fs[1]];
    var s2 := s1 + [fs[2]];
    var s3 := s2 + [fs[3]];
    var s4 := s3 + [fs[4]];
    var s5 := s4 + [fs[5]];
    var s6 := s5 + [fs[6]];
    var s7 := s6 + [fs[7]];
    var s8 := s7 + [fs[8]];
    Push(ApplyHello, m0, [], [fs[0]], m0, m1);
    Push(ApplyHello, m0, s0, [fs[1]], m1, m2);
    Push(ApplyHello, m0, s1, [fs[2]], m2, m3);
    Push(ApplyHello, m0, s2, [fs[3]], m3, m4);
    Push(ApplyHello, m0, s3, [fs[4]], m4, m5);
    Push(ApplyHello, m0, s4, [fs[5]], m5, m6);
    Push(ApplyHello, m0, s5, [fs[6]], m6, m7);
    Push(ApplyHello, m0, s6, [fs[7]], m7, m8);
    Push(ApplyHello, m0, s7, [fs[8]], m8, m9);
    Push(ApplyHello, m0, s8, [fs[9]], m9, h);
    assert s8 + [fs[9]] == fs;
  }

  lemma HelloFieldsOk(h: ClientHello)
    ensures forall i :: 0 <= i < |HelloFields(h)| ==> FieldOk(HelloFields(h)[i])
  {
    hide EncodeAudioFormat, EncodeVadOptions;
  }

  lemma HelloPartsFit(h: ClientHello)
    ensures |EncodeAudioFormat(h.audioFormat)| <= |EncodeClientHello(h)|
    ensures |EncodeVadOptions(h.vad)| <= |EncodeClientHello(h)|
  {
    hide EncodeFields, EncodeAudioFormat, EncodeVadOptions;
    DataFits(HelloFields(h), 7, EncodeAudioFormat(h.audioFormat));
    DataFits(HelloFields(h), 8, EncodeVadOptions(h.vad));
  }

  /** A client hello survives the wire exactly when it names a model. */
  lemma ClientHelloRoundTrip(h: ClientHello)
    requires |EncodeClientHello(h)| < TWO_64
    ensures DecodeClientHello(EncodeClientHello(h)) == if h.model == [] then Err(MissingModel) else Ok(h)
  {
    hide EncodeFields, Fold, Walk, HelloFields, ApplyHello, FieldOk, EncodeAudioFormat, EncodeVadOptions,
         DecodeAudioFormat, DecodeVadOptions;
    HelloPartsFit(h);
    AudioRoundTrip(h.audioFormat);
    VadRoundTrip(h.vad);
    HelloFolds(h);
    HelloFieldsOk(h);
    WalkOfEncoding(ApplyHello, DEFAULT_HELLO, HelloFields(h));
  }

  predicate KnownToHello(f: Field) {
    || (f.payload.Bytes? && f.number in [1, 3, 4, 8, 9, 10, 11])
    || (f.payload.Varint? && f.number in [5, 6, 7])
  }

  lemma UnknownIsIdle(unknown: Field)
    requires !KnownToHello(unknown)
    ensures forall m :: ApplyHello(m, unknown) == Ok(m)
  {
    hide DecodeAudioFormat, DecodeVadOptions, Text;
  }

  lemma HelloWithout(a: seq<Field>, unknown: Field, b: seq<Field>)
    requires !KnownToHello(unknown)
    ensures Fold(ApplyHello, DEFAULT_HELLO, a + [unknown] + b) == Fold(ApplyHello, DEFAULT_HELLO, a + b)
  {
    hide Fold, ApplyHello, KnownToHello;
    UnknownIsIdle(unknown);
    IdleFieldVanishes(ApplyHello, DEFAULT_HELLO, a, unknown, b);
  }

  lemma HelloOfFields(fs: seq<Field>)
    requires AllOk(fs) && |EncodeFields(fs)| < TWO_64
    ensures DecodeClientHello(EncodeFields(fs)) ==
              match Fold(ApplyHello, DEFAULT_HELLO, fs)
              case Err(e) => Err(e)
              case Ok(hello) => if hello.model == [] then Err(MissingModel) else Ok(hello)
  {
    hide EncodeFields, Fold, Walk, ApplyHello, FieldOk;
    WalkOfEncoding(ApplyHello, DEFAULT_HELLO, fs);
  }

  ghost predicate AllOk(fs: seq<Field>) { forall i :: 0 <= i < |fs| ==> FieldOk(fs[i]) }

  lemma AllOkAppends(a: seq<Field>, b: seq<Field>)
    requires AllOk(a) && AllOk(b)
    ensures AllOk(a + b)
  {
    hide FieldOk;
  }

  /** A hello that only names a model takes the documented value for everything else. */
  lemma MissingFieldsDefault(model: Utf8)
    requires model != [] && |EncodeFields([Field(1, Bytes(model))])| < TWO_64
    ensures DecodeClientHello(EncodeFields([Field(1, Bytes(model))]))
            == Ok(ClientHello(model, ENGLISH, TRANSCRIBE, 128, 5, false, DEFAULT_TOKENS,
                              AudioFormat(16000, 1, 1), VadOptions(None, None, None, None, None), CLIENT_ID))
  {
    var fs := [Field(1, Bytes(model))];
    HelloOfFields(fs);
    hide EncodeFields, DecodeClientHello, ValidUtf8, Ascii;
    FoldNothing(ApplyHello, DEFAULT_HELLO);
    Push(ApplyHello, DEFAULT_HELLO, [], fs, DEFAULT_HELLO, DEFAULT_HELLO.(model := model));
    assert [] + fs == fs;
  }

  ghost predicate Spells(b: Utf8, s: string) { |b| == |s| && forall i :: 0 <= i < |s| ==> b[i] == s[i] as int }

  lemma DefaultTexts()
    ensures Spells(ENGLISH, "en") && Spells(TRANSCRIBE, "transcribe")
    ensures Spells(DEFAULT_TOKENS, "default") && Spells(CLIENT_ID, "rkwhisper-rust-client")
  {
    hide ValidUtf8;
  }

  /** An empty body leaves every part of a response empty; an event must have a type, and a response a known number. */
  lemma EmptyBodies(number: u32)
    ensures var zero := [0, 0, 0, 0];
            DecodeBody(number, []) ==
              if number == 1 then Ok(Hello(ServerHello(AudioFormat(0, 0, 0), 0, 0)))
              else if number == 2 then Ok(Segment([], zero, zero))
              else if number == 3 then Ok(Done(zero, zero))
              else if number == 4 then Ok(Failed([]))
              else if number == 5 then Ok(Cancelled(zero, zero, 0, 0))
              else if number == 6 then Ok(BackOff([], 0))
              else if number == 7 then Err(UnknownSpeechEvent(0))
              else Err(UnknownResponse(number))
  {
  }

  /** A well-formed field the decoder does not know changes nothing, wherever it stands between two fields. */
  lemma UnknownFieldIsIgnored(a: seq<Field>, unknown: Field, b: seq<Field>)
    requires AllOk(a) && AllOk([unknown]) && AllOk(b) && !KnownToHello(unknown)
    requires |EncodeFields(a + [unknown] + b)| < TWO_64 && |EncodeFields(a + b)| < TWO_64
    ensures DecodeClientHello(EncodeFields(a + [unknown] + b)) == DecodeClientHello(EncodeFields(a + b))
  {
    hide EncodeFields, Fold, ApplyHello, AllOk, KnownToHello, DecodeClientHello;
    HelloWithout(a, unknown, b);
    AllOkAppends(a, [unknown]);
    AllOkAppends(a + [unknown], b);
    AllOkAppends(a, b);
    HelloOfFields(a + [unknown] + b);
    HelloOfFields(a + b);
  }

  // ---------------------------------------------------------------- responses

  lemma ServerHelloFolds(s: ServerHello)
    requires DecodeAudioFormat(EncodeAudioFormat(s.audioFormat)) == Ok(s.audioFormat)
    ensures Fold(ApplyServerHello, ServerHello(NO_AUDIO_FORMAT, 0, 0), ResponseFields(Hello(s))) == Ok(s)
  {
    hide Fold, DecodeAudioFormat, EncodeAudioFormat;
    var fs, m0 := ResponseFields(Hello(s)), ServerHello(NO_AUDIO_FORMAT, 0, 0);
    var m1 := m0.(audioFormat := s.audioFormat);
    var m2 := m1.(ringCapacityBytes := s.ringCapacityBytes);
    FoldNothing(ApplyServerHello, m0);
    Push(ApplyServerHello, m0, [], [fs[0]], m0, m1);
    Push(ApplyServerHello, m0, [] + [fs[0]], [fs[1]], m1, m2);
    Push(ApplyServerHello, m0, [] + [fs[0]] + [fs[1]], [fs[2]], m2, s);
    assert [] + [fs[0]] + [fs[1]] + [fs[2]] == fs;
  }

  /** The decoder's variables before the first field. */
  function EmptyOf(r: Response): Response {
    match r
    case Segment(_, _, _) => NO_SEGMENT
    case Done(_, _) => NO_DONE
    case Failed(_) => NO_ERROR
    case Cancelled(_, _, _, _) => NO_CANCELLED
    case BackOff(_, _) => NO_BACK_OFF
    case _ => r
  }

  function ApplyOf(r: Response): (Response, Field) -> Result<Response, ProtoError> {
    match r
    case Segment(_, _, _) => ApplySegment
    case Done(_, _) => ApplyDone
    case Failed(_) => ApplyFailed
    case Cancelled(_, _, _, _) => ApplyCancelled
    case BackOff(_, _) => ApplyBackOff
    case _ => (m, f) => Ok(m)
  }

  predicate IsEvent(r: Response) { r.SpeechStarted? || r.SpeechEnded? }

  function EventOf(r: Response): SpeechEvent
    requires IsEvent(r)
  {
    if r.SpeechStarted? then SpeechEvent(1, r.begin) else SpeechEvent(2, r.end)
  }

  /** A response's fields, applied in order, build the response. */
  lemma FieldsBuild(r: Response)
    requires !r.Hello? && !IsEvent(r)
    ensures Fold(ApplyOf(r), EmptyOf(r), ResponseFields(r)) == Ok(r)
  {
    hide Fold, ValidUtf8;
    var apply, fs, m0 := ApplyOf(r), ResponseFields(r), EmptyOf(r);
    FoldNothing(apply, m0);
    match r {
      case Segment(text, begin, _) =>
        var m1 := Segment(text, FLOAT_ZERO, FLOAT_ZERO);
        var m2 := Segment(text, begin, FLOAT_ZERO);
        Push(apply, m0, [], [fs[0]], m0, m1);
        Push(apply, m0, [] + [fs[0]], [fs[1]], m1, m2);
        Push(apply, m0, [] + [fs[0]] + [fs[1]], [fs[2]], m2, r);
        assert [] + [fs[0]] + [fs[1]] + [fs[2]] == fs;
      case Failed(_) =>
        Push(apply, m0, [], [fs[0]], m0, r);
        assert [] + [fs[0]] == fs;
      case Cancelled(audioS, rtf, dispatched, _) =>
        var m1 := Cancelled(audioS, FLOAT_ZERO, 0, 0);
        var m2 := Cancelled(audioS, rtf, 0, 0);
        var m3 := Cancelled(audioS, rtf, dispatched, 0);
        Push(apply, m0, [], [fs[0]], m0, m1);
        Push(apply, m0, [] + [fs[0]], [fs[1]], m1, m2);
        Push(apply, m0, [] + [fs[0]] + [fs[1]], [fs[2]], m2, m3);
        Push(apply, m0, [] + [fs[0]] + [fs[1]] + [fs[2]], [fs[3]], m3, r);
        assert [] + [fs[0]] + [fs[1]] + [fs[2]] + [fs[3]] == fs;
      case Done(audioS, _) => TwoFieldsBuild(apply, m0, fs, Done(audioS, FLOAT_ZERO), r);
      case BackOff(reason, _) => TwoFieldsBuild(apply, m0, fs, BackOff(reason, 0), r);
    }
  }

  lemma EventFieldsBuild(r: Response)
    requires IsEvent(r)
    ensures Fold(ApplySpeech, NO_EVENT, ResponseFields(r)) == Ok(EventOf(r))
  {
    hide Fold;
    TwoFieldsBuild(ApplySpeech, NO_EVENT, ResponseFields(r), NO_EVENT.(event := EventOf(r).event), EventOf(r));
  }

  lemma TwoFieldsBuild<M>(apply: (M, Field) -> Result<M, ProtoError>, m0: M, fs: seq<Field>, m1: M, m2: M)
    requires |fs| == 2 && apply(m0, fs[0]) == Ok(m1) && apply(m1, fs[1]) == Ok(m2)
    ensures Fold(apply, m0, fs) == Ok(m2)
  {
    hide Fold;
    FoldNothing(apply, m0);
    Push(apply, m0, [], [fs[0]], m0, m1);
    Push(apply, m0, [] + [fs[0]], [fs[1]], m1, m2);
    assert [] + [fs[0]] + [fs[1]] == fs;
  }

  lemma ResponseFieldsOk(r: Response)
    ensures forall i :: 0 <= i < |ResponseFields(r)| ==> FieldOk(ResponseFields(r)[i])
  {
  }

  lemma ServerHelloRoundTrip(s: ServerHello)
    requires |EncodeFields(ResponseFields(Hello(s)))| < TWO_64
    ensures DecodeServerHello(EncodeFields(ResponseFields(Hello(s)))) == Ok(s)
  {
    hide EncodeFields, Fold, Walk, EncodeAudioFormat, DecodeAudioFormat, ApplyServerHello, FieldOk;
    var fs := ResponseFields(Hello(s));
    ResponseFieldsOk(Hello(s));
    DataFits(fs, 0, EncodeAudioFormat(s.audioFormat));
    AudioRoundTrip(s.audioFormat);
    ServerHelloFolds(s);
    hide ResponseFields;
    WalkOfEncoding(ApplyServerHello, ServerHello(NO_AUDIO_FORMAT, 0, 0), fs);
  }

  lemma BodyOfEvent(r: Response, body: seq<byte>)
    requires IsEvent(r) && Walk(ApplySpeech, NO_EVENT, body, 0) == Ok(EventOf(r))
    ensures DecodeBody(NumberOf(r), body) == Ok(r)
  {
    hide Walk;
  }

  lemma BodyRoundTrip(r: Response)
    requires |EncodeFields(ResponseFields(r))| < TWO_64
    ensures DecodeBody(NumberOf(r), EncodeFields(ResponseFields(r))) == Ok(r)
  {
    hide EncodeFields, Fold, Walk, DecodeServerHello, DecodeSpeechEvent, ResponseFields, FieldOk;
    ResponseFieldsOk(r);
    if r.Hello? {
      ServerHelloRoundTrip(r.server);
    } else if IsEvent(r) {
      EventFieldsBuild(r);
      WalkOfEncoding(ApplySpeech, NO_EVENT, ResponseFields(r));
      BodyOfEvent(r, EncodeFields(ResponseFields(r)));
    } else {
      FieldsBuild(r);
      WalkOfEncoding(ApplyOf(r), EmptyOf(r), ResponseFields(r));
    }
  }

  /** What stands at the front of the bytes is decoded, whatever comes after. */
  lemma DecodeOfField(bytes: seq<byte>, number: u32, body: seq<byte>)
    requires |bytes| < TWO_64 && Stands(EncodeField(Field(number, Bytes(body))), bytes, 0)
    ensures DecodeResponse(bytes) == DecodeBody(number, body)
  {
    hide EncodeVarint, ReadVarint, DecodeBody, Stands, KeyOf, ReadKey, ReadBytes;
    var f := Field(number, Bytes(body));
    var key := EncodeVarint(KeyOf(f));
    StandsField(bytes, 0, f);
    KeyRoundTrip(bytes, 0, f);
    BytesRoundTrip(bytes, |key|, body);
  }

  lemma BytesRoundTrip(bytes: seq<byte>, at: nat, body: seq<byte>)
    requires |bytes| < TWO_64 && Stands(PayloadBytes(Bytes(body)), bytes, at)
    ensures ReadBytes(bytes, at) == Ok(Got(body, at + |PayloadBytes(Bytes(body))|))
  {
    PayloadRoundTrip(bytes, at, Field(0, Bytes(body)));
    hide PayloadBytes, ReadBytes;
  }

  /** Every response is decoded from its encoding, even if more bytes follow it in the frame. */
  lemma ResponseRoundTrip(r: Response, more: seq<byte>)
    requires |EncodeResponse(r) + more| < TWO_64
    ensures DecodeResponse(EncodeResponse(r) + more) == Ok(r)
  {
    var body := EncodeFields(ResponseFields(r));
    var f := Field(NumberOf(r), Bytes(body));
    assert |body| <= |EncodeField(f)| by {
      hide EncodeVarint;
    }
    hide EncodeFields, EncodeField, DecodeBody, DecodeResponse;
    DecodeOfField(EncodeResponse(r) + more, NumberOf(r), body);
    BodyRoundTrip(r);
  }

  /** No response can be mistaken for another: the encoding is injective. */
  lemma ResponsesDiffer(r: Response, s: Response)
    requires |EncodeResponse(r)| < TWO_64 && EncodeResponse(r) == EncodeResponse(s)
    ensures r == s
  {
    hide EncodeResponse, DecodeResponse;
    assert EncodeResponse(r) + [] == EncodeResponse(r);
    ResponseRoundTrip(r, []);
    ResponseRoundTrip(s, []);
  }

  /** A response cut short anywhere is rejected. */
  lemma CutResponseIsRejected(r: Response, n: nat)
    requires n < |EncodeResponse(r)| < TWO_64
    ensures DecodeResponse(EncodeResponse(r)[..n]) == Err(Truncated)
  {
    var body := EncodeFields(ResponseFields(r));
    var bytes := EncodeResponse(r)[..n];
    assert bytes[0..] == bytes;
    hide EncodeFields, ReadKey, ReadBytes, ReadPayload;
    BytesFieldCutShort(bytes, NumberOf(r), body);
    CutResponse(bytes, Field(NumberOf(r), Bytes(body)));
  }

  /** An error while reading the field is what the decoder reports, unless the wire type is wrong. */
  lemma CutResponse(bytes: seq<byte>, f: Field)
    requires f.payload.Bytes? && CutShort(EncodeField(f), bytes, 0) && ReadField(bytes, 0) == Err(Truncated)
    ensures DecodeResponse(bytes) == Err(Truncated)
  {
    hide EncodeVarint, ReadVarint, KeyOf, PayloadBytes, ReadKey, CutShort, Stands, ReadBytes, DecodeBody;
    CutParts(EncodeVarint(KeyOf(f)), PayloadBytes(f.payload), bytes, 0);
    if Stands(EncodeVarint(KeyOf(f)), bytes, 0) {
      KeyRoundTrip(bytes, 0, f);
    } else {
      KeyCutShort(bytes, f);
    }
  }

  lemma KeyCutShort(bytes: seq<byte>, f: Field)
    requires CutShort(EncodeVarint(KeyOf(f)), bytes, 0)
    ensures ReadKey(bytes, 0) == Err(Truncated)
  {
    hide EncodeVarint, ReadVarint;
    VarintCutShort(bytes, 0, KeyOf(f));
  }
}
