/** The bytes of each message, key by key, as any Protocol Buffers peer reads and writes them. */
module Layouts {
  import opened Wrappers
  import opened Wire
  import opened Messages

  /** A field of numbers; `key` is the field number times eight. */
  function Number(key: byte, v: nat): seq<byte> { [key] + EncodeVarint(v) }

  /** A field of text or of a sub-message; `key` is the field number times eight plus two. */
  function Delimited(key: byte, data: seq<byte>): seq<byte> { [key] + (EncodeVarint(|data|) + data) }

  /** A field of a 32-bit float; `key` is the field number times eight plus five. */
  function FourBytes(key: byte, v: Float): seq<byte> { [key] + v }

  lemma {:induction false} FieldsSplit(fs: seq<Field>, k: nat)
    requires k < |fs|
    ensures EncodeFields(fs[..k + 1]) == EncodeFields(fs[..k]) + EncodeField(fs[k])
  {
    assert fs[..k + 1][..k] == fs[..k];
  }

  lemma FieldBytes(f: Field)
    requires f.number < 16
    ensures match f.payload
            case Varint(v) => EncodeField(f) == Number(f.number * 8, v)
            case Fixed64(eight) => true
            case Bytes(data) => EncodeField(f) == Delimited(f.number * 8 + 2, data)
            case Fixed32(four) => |four| == 4 ==> EncodeField(f) == FourBytes(f.number * 8 + 5, four)
  {
    assert KeyOf(f) < 128;
  }

  /** The fields of a short list, one after the other. */
  lemma OneField(fs: seq<Field>)
    requires |fs| == 1
    ensures EncodeFields(fs) == EncodeField(fs[0])
  {
    FieldsSplit(fs, 0);
    assert fs[..1] == fs && fs[..0] == [];
  }

  lemma TwoFields(fs: seq<Field>)
    requires |fs| == 2
    ensures EncodeFields(fs) == EncodeField(fs[0]) + EncodeField(fs[1])
  {
    FieldsSplit(fs, 1);
    assert fs[..2] == fs;
    OneField(fs[..1]);
  }

  lemma ThreeFields(fs: seq<Field>)
    requires |fs| == 3
    ensures EncodeFields(fs) == EncodeField(fs[0]) + EncodeField(fs[1]) + EncodeField(fs[2])
  {
    FieldsSplit(fs, 2);
    assert fs[..3] == fs;
    TwoFields(fs[..2]);
  }

  lemma FourFields(fs: seq<Field>)
    requires |fs| == 4
    ensures EncodeFields(fs) == EncodeField(fs[0]) + EncodeField(fs[1]) + EncodeField(fs[2]) + EncodeField(fs[3])
  {
    FieldsSplit(fs, 3);
    assert fs[..4] == fs;
    ThreeFields(fs[..3]);
  }

  lemma AudioFormatBytes(a: AudioFormat)
    ensures EncodeAudioFormat(a)
            == Number(0x08, a.sampleRate) + Number(0x10, a.channels)
               + Number(0x18, a.sampleFormat % 0x1_0000_0000_0000_0000)
  {
    var fs := AudioFields(a);
    ThreeFields(fs);
    hide EncodeField, EncodeFields, Number;
    FieldBytes(fs[0]);
    FieldBytes(fs[1]);
    FieldBytes(fs[2]);
  }

  lemma OptionalNumberBytes(number: u32, v: Option<int>)
    requires number < 16 && (v.Some? ==> 0 <= v.value < TWO_64)
    ensures EncodeFields(OptionalVarint(number, v)) == if v.Some? then Number(number * 8, v.value) else []
  {
    if v.Some? {
      OneField(OptionalVarint(number, v));
      FieldBytes(OptionalVarint(number, v)[0]);
    }
  }

  lemma OptionalFloatBytes(number: u32, v: Option<Float>)
    requires number < 16
    ensures EncodeFields(OptionalFloat(number, v)) == if v.Some? then FourBytes(number * 8 + 5, v.value) else []
  {
    if v.Some? {
      OneField(OptionalFloat(number, v));
      FieldBytes(OptionalFloat(number, v)[0]);
    }
  }

  lemma OneMore(fs: seq<Field>, f: Field)
    ensures EncodeFields(fs + [f]) == EncodeFields(fs) + EncodeField(f)
  {
    assert (fs + [f])[..|fs|] == fs;
  }

  lemma Regroup(a: seq<byte>, b: seq<byte>, c: seq<byte>)
    ensures (a + b) + c == a + (b + c)
  {
  }

  lemma {:induction false} FieldsAppend(a: seq<Field>, b: seq<Field>)
    ensures EncodeFields(a + b) == EncodeFields(a) + EncodeFields(b)
    decreases |b|
  {
    if b == [] {
      assert EncodeFields([]) == [];
      assert a + b == a;
    } else {
      hide EncodeField, EncodeFields;
      var front, last := b[..|b| - 1], b[|b| - 1];
      assert b == front + [last] && a + b == (a + front) + [last];
      FieldsAppend(a, front);
      OneMore(a + front, last);
      OneMore(front, last);
      Regroup(EncodeFields(a), EncodeFields(front), EncodeField(last));
    }
  }

  /** An option that is not set takes no bytes. */
  lemma VadOptionsBytes(v: VadOptions)
    ensures EncodeVadOptions(v)
            == (if v.threshold.Some? then FourBytes(0x0D, v.threshold.value) else [])
               + (if v.minSpeechMs.Some? then Number(0x10, v.minSpeechMs.value) else [])
               + (if v.minSilenceMs.Some? then Number(0x18, v.minSilenceMs.value) else [])
               + (if v.speechPadMs.Some? then Number(0x20, v.speechPadMs.value) else [])
               + (if v.windowSamples.Some? then Number(0x28, v.windowSamples.value) else [])
  {
    hide EncodeFields, OptionalFloat, OptionalVarint, FourBytes, Number;
    var one, two, three := OptionalFloat(1, v.threshold), OptionalVarint(2, v.minSpeechMs), OptionalVarint(3, v.minSilenceMs);
    var four, five := OptionalVarint(4, v.speechPadMs), OptionalVarint(5, v.windowSamples);
    OptionalFloatBytes(1, v.threshold);
    OptionalNumberBytes(2, v.minSpeechMs);
    OptionalNumberBytes(3, v.minSilenceMs);
    OptionalNumberBytes(4, v.speechPadMs);
    OptionalNumberBytes(5, v.windowSamples);
    FieldsAppend(one, two);
    FieldsAppend(one + two, three);
    FieldsAppend(one + two + three, four);
    FieldsAppend(one + two + three + four, five);
  }

  lemma FourFieldBytes(f0: Field, f1: Field, f2: Field, f3: Field)
    ensures EncodeFields([f0, f1, f2, f3]) == EncodeField(f0) + EncodeField(f1) + EncodeField(f2) + EncodeField(f3)
  {
    FourFields([f0, f1, f2, f3]);
  }

  lemma HelloFront(h: ClientHello)
    ensures EncodeFields(HelloFields(h)[..4])
            == Delimited(0x0A, h.model) + Delimited(0x1A, h.lang) + Delimited(0x22, h.task) + Number(0x28, h.maxNewTokens)
  {
    hide EncodeField, EncodeFields, Number, Delimited;
    var fs := [Field(1, Bytes(h.model)), Field(3, Bytes(h.lang)), Field(4, Bytes(h.task)), Field(5, Varint(h.maxNewTokens))];
    assert HelloFields(h)[..4] == fs;
    FourFieldBytes(fs[0], fs[1], fs[2], fs[3]);
    FieldBytes(fs[0]);
    FieldBytes(fs[1]);
    FieldBytes(fs[2]);
    FieldBytes(fs[3]);
  }

  lemma HelloMiddle(h: ClientHello)
    ensures EncodeFields(HelloFields(h)[4..8])
            == Number(0x30, h.beamSize) + Number(0x38, if h.notimestamps then 1 else 0)
               + Delimited(0x42, h.suppressTokens) + Delimited(0x4A, EncodeAudioFormat(h.audioFormat))
  {
    hide EncodeField, EncodeFields, Number, Delimited, EncodeAudioFormat;
    var fs := [Field(6, Varint(h.beamSize)), Field(7, Varint(if h.notimestamps then 1 else 0)),
               Field(8, Bytes(h.suppressTokens)), Field(9, Bytes(EncodeAudioFormat(h.audioFormat)))];
    assert HelloFields(h)[4..8] == fs;
    FourFieldBytes(fs[0], fs[1], fs[2], fs[3]);
    FieldBytes(fs[0]);
    FieldBytes(fs[1]);
    FieldBytes(fs[2]);
    FieldBytes(fs[3]);
  }

  lemma HelloBack(h: ClientHello)
    ensures EncodeFields(HelloFields(h)[8..]) == Delimited(0x52, EncodeVadOptions(h.vad)) + Delimited(0x5A, h.clientId)
  {
    hide EncodeField, EncodeFields, Delimited, EncodeVadOptions;
    var fs := [Field(10, Bytes(EncodeVadOptions(h.vad))), Field(11, Bytes(h.clientId))];
    assert HelloFields(h)[8..] == fs;
    TwoFields(fs);
    FieldBytes(fs[0]);
    FieldBytes(fs[1]);
  }

  lemma ClientHelloBytes(h: ClientHello)
    ensures EncodeClientHello(h)
            == (Delimited(0x0A, h.model) + Delimited(0x1A, h.lang) + Delimited(0x22, h.task) + Number(0x28, h.maxNewTokens))
               + (Number(0x30, h.beamSize) + Number(0x38, if h.notimestamps then 1 else 0)
                  + Delimited(0x42, h.suppressTokens) + Delimited(0x4A, EncodeAudioFormat(h.audioFormat)))
               + (Delimited(0x52, EncodeVadOptions(h.vad)) + Delimited(0x5A, h.clientId))
  {
    HelloFront(h);
    HelloMiddle(h);
    HelloBack(h);
    HelloParts(HelloFields(h));
    hide EncodeFields, Number, Delimited, EncodeAudioFormat, EncodeVadOptions, HelloFields;
  }

  lemma HelloParts(fs: seq<Field>)
    requires |fs| == 10
    ensures EncodeFields(fs) == EncodeFields(fs[..4]) + EncodeFields(fs[4..8]) + EncodeFields(fs[8..])
  {
    hide EncodeFields;
    assert fs == fs[..4] + fs[4..8] + fs[8..];
    FieldsAppend(fs[..4], fs[4..8]);
    FieldsAppend(fs[..4] + fs[4..8], fs[8..]);
  }

  /** The bytes of a response without those of the outer message. */
  function BodyBytes(r: Response): seq<byte> {
    match r
    case Hello(s) =>
      Delimited(0x0A, EncodeAudioFormat(s.audioFormat)) + Number(0x10, s.ringCapacityBytes) + Number(0x18, s.ringHeaderBytes)
    case Segment(text, begin, end) => Delimited(0x0A, text) + FourBytes(0x15, begin) + FourBytes(0x1D, end)
    case Done(audioS, rtf) => FourBytes(0x0D, audioS) + FourBytes(0x15, rtf)
    case Failed(error) => Delimited(0x0A, error)
    case Cancelled(audioS, rtf, dispatched, completed) =>
      FourBytes(0x0D, audioS) + FourBytes(0x15, rtf) + Number(0x18, dispatched) + Number(0x20, completed)
    case BackOff(reason, ms) => Delimited(0x0A, reason) + Number(0x10, ms)
    case SpeechStarted(begin) => Number(0x08, 1) + FourBytes(0x15, begin)
    case SpeechEnded(end) => Number(0x08, 2) + FourBytes(0x15, end)
  }

  lemma TwoFieldBytes(f0: Field, f1: Field)
    ensures EncodeFields([f0, f1]) == EncodeField(f0) + EncodeField(f1)
  {
    TwoFields([f0, f1]);
  }

  lemma ThreeFieldBytes(f0: Field, f1: Field, f2: Field)
    ensures EncodeFields([f0, f1, f2]) == EncodeField(f0) + EncodeField(f1) + EncodeField(f2)
  {
    ThreeFields([f0, f1, f2]);
  }

  lemma FailedBody(error: Utf8)
    ensures EncodeFields(ResponseFields(Failed(error))) == Delimited(0x0A, error)
  {
    OneField([Field(1, Bytes(error))]);
    FieldBytes(Field(1, Bytes(error)));
  }

  lemma BodyIs(r: Response)
    ensures EncodeFields(ResponseFields(r)) == BodyBytes(r)
  {
    hide EncodeField, EncodeFields, Number, Delimited, FourBytes, EncodeAudioFormat;
    var fs := ResponseFields(r);
    match r {
      case Failed(error) => FailedBody(error);
      case Hello(_) =>
        ThreeFieldBytes(fs[0], fs[1], fs[2]);
        FieldBytes(fs[0]);
        FieldBytes(fs[1]);
        FieldBytes(fs[2]);
      case Segment(_, _, _) =>
        ThreeFieldBytes(fs[0], fs[1], fs[2]);
        FieldBytes(fs[0]);
        FieldBytes(fs[1]);
        FieldBytes(fs[2]);
      case Cancelled(_, _, _, _) =>
        FourFieldBytes(fs[0], fs[1], fs[2], fs[3]);
        FieldBytes(fs[0]);
        FieldBytes(fs[1]);
        FieldBytes(fs[2]);
        FieldBytes(fs[3]);
      case _ =>
        TwoFieldBytes(fs[0], fs[1]);
        FieldBytes(fs[0]);
        FieldBytes(fs[1]);
    }
  }

  lemma ResponseBytes(r: Response)
    ensures EncodeResponse(r)
            == match r
               case Hello(_) => Delimited(0x0A, BodyBytes(r))
               case Segment(_, _, _) => Delimited(0x12, BodyBytes(r))
               case Done(_, _) => Delimited(0x1A, BodyBytes(r))
               case Failed(_) => Delimited(0x22, BodyBytes(r))
               case Cancelled(_, _, _, _) => Delimited(0x2A, BodyBytes(r))
               case BackOff(_, _) => Delimited(0x32, BodyBytes(r))
               case _ => Delimited(0x3A, BodyBytes(r))
  {
    BodyIs(r);
    hide EncodeFields, BodyBytes, Delimited, EncodeField, ResponseFields;
    FieldBytes(Field(NumberOf(r), Bytes(EncodeFields(ResponseFields(r)))));
  }
}
