/** The messages of the daemon protocol and their encodings (rkwhisper-protocol/src/lib.rs). */
module Messages {
  import opened Wrappers
  import opened Wire

  // ---------------------------------------------------------------- scalars

  predicate Continues(b: byte) { 0x80 <= b <= 0xBF }

  /** How long the UTF-8 sequence at the front is; nothing if there is none. */
  function Utf8Length(b: seq<byte>): nat {
    if |b| >= 1 && b[0] < 0x80 then 1
    else if |b| >= 2 && 0xC2 <= b[0] <= 0xDF && Continues(b[1]) then 2
    else if |b| >= 3 && Continues(b[2]) &&
            (   (b[0] == 0xE0 && 0xA0 <= b[1] <= 0xBF)
             || (0xE1 <= b[0] <= 0xEC && Continues(b[1]))
             || (b[0] == 0xED && 0x80 <= b[1] <= 0x9F)
             || (0xEE <= b[0] <= 0xEF && Continues(b[1]))) then 3
    else if |b| >= 4 && Continues(b[2]) && Continues(b[3]) &&
            (   (b[0] == 0xF0 && 0x90 <= b[1] <= 0xBF)
             || (0xF1 <= b[0] <= 0xF3 && Continues(b[1]))
             || (b[0] == 0xF4 && 0x80 <= b[1] <= 0x8F)) then 4
    else 0
  }

  predicate ValidUtf8(b: seq<byte>) {
    |b| == 0 || (Utf8Length(b) > 0 && ValidUtf8(b[Utf8Length(b)..]))
  }

  /** A string, by its bytes. */
  type Utf8 = b: seq<byte> | ValidUtf8(b) witness []

  function Text(b: seq<byte>): Result<Utf8, ProtoError> {
    if ValidUtf8(b) then Ok(b) else Err(NotUtf8)
  }

  lemma {:induction false} AsciiIsUtf8(b: seq<byte>)
    requires forall i :: 0 <= i < |b| ==> b[i] < 0x80
    ensures ValidUtf8(b)
  {
    if |b| > 0 {
      AsciiIsUtf8(b[1..]);
    }
  }

  function Ascii(s: string): Utf8
    requires forall i :: 0 <= i < |s| ==> s[i] < 128 as char
  {
    var bytes: seq<byte> := seq(|s|, i requires 0 <= i < |s| => s[i] as int);
    AsciiIsUtf8(bytes);
    bytes
  }

  /** A 32-bit float, by its little-endian bytes. */
  type Float = b: seq<byte> | |b| == 4 witness [0, 0, 0, 0]

  const FLOAT_ZERO: Float := [0, 0, 0, 0]

  // ----------------------------------------------------------- sub-messages

  datatype AudioFormat = AudioFormat(sampleRate: u32, channels: u32, sampleFormat: i32)

  function AudioFields(a: AudioFormat): seq<Field> {
    [Field(1, Varint(a.sampleRate)), Field(2, Varint(a.channels)), Field(3, Varint(SignExtended(a.sampleFormat)))]
  }

  function EncodeAudioFormat(a: AudioFormat): seq<byte> { EncodeFields(AudioFields(a)) }

  function ApplyAudio(m: AudioFormat, f: Field): Result<AudioFormat, ProtoError> {
    match (f.number, f.payload)
    case (1, Varint(v)) => Ok(m.(sampleRate := AsU32(v)))
    case (2, Varint(v)) => Ok(m.(channels := AsU32(v)))
    case (3, Varint(v)) => Ok(m.(sampleFormat := AsI32(v)))
    case _ => Ok(m)
  }

  const NO_AUDIO_FORMAT := AudioFormat(0, 0, 0)

  function DecodeAudioFormat(bytes: seq<byte>): Result<AudioFormat, ProtoError> {
    Walk(ApplyAudio, NO_AUDIO_FORMAT, bytes, 0)
  }

  datatype VadOptions = VadOptions(
    threshold: Option<Float>, minSpeechMs: Option<u32>, minSilenceMs: Option<u32>,
    speechPadMs: Option<u32>, windowSamples: Option<u64>)

  function OptionalVarint(number: u32, v: Option<int>): seq<Field>
    requires v.Some? ==> 0 <= v.value < TWO_64
  {
    if v.Some? then [Field(number, Varint(v.value))] else []
  }

  function OptionalFloat(number: u32, v: Option<Float>): seq<Field> {
    if v.Some? then [Field(number, Fixed32(v.value))] else []
  }

  function VadFields(v: VadOptions): seq<Field> {
    OptionalFloat(1, v.threshold) + OptionalVarint(2, v.minSpeechMs) + OptionalVarint(3, v.minSilenceMs)
    + OptionalVarint(4, v.speechPadMs) + OptionalVarint(5, v.windowSamples)
  }

  function EncodeVadOptions(v: VadOptions): seq<byte> { EncodeFields(VadFields(v)) }

  function ApplyVad(m: VadOptions, f: Field): Result<VadOptions, ProtoError> {
    match (f.number, f.payload)
    case (1, Fixed32(four)) => Ok(if |four| == 4 then m.(threshold := Some(four)) else m)
    case (2, Varint(v)) => Ok(m.(minSpeechMs := Some(AsU32(v))))
    case (3, Varint(v)) => Ok(m.(minSilenceMs := Some(AsU32(v))))
    case (4, Varint(v)) => Ok(m.(speechPadMs := Some(AsU32(v))))
    case (5, Varint(v)) => Ok(m.(windowSamples := Some(v)))
    case _ => Ok(m)
  }

  const NO_VAD_OPTIONS := VadOptions(None, None, None, None, None)

  function DecodeVadOptions(bytes: seq<byte>): Result<VadOptions, ProtoError> {
    Walk(ApplyVad, NO_VAD_OPTIONS, bytes, 0)
  }

  // ----------------------------------------------------------- client hello

  datatype ClientHello = ClientHello(
    model: Utf8, lang: Utf8, task: Utf8, maxNewTokens: u64, beamSize: u64, notimestamps: bool,
    suppressTokens: Utf8, audioFormat: AudioFormat, vad: VadOptions, clientId: Utf8)

  const ENGLISH: Utf8 := Ascii("en")
  const TRANSCRIBE: Utf8 := Ascii("transcribe")
  const DEFAULT_TOKENS: Utf8 := Ascii("default")
  const CLIENT_ID: Utf8 := Ascii("rkwhisper-rust-client")

  const DEFAULT_HELLO := ClientHello(
    [], ENGLISH, TRANSCRIBE, 128, 5, false, DEFAULT_TOKENS, AudioFormat(16000, 1, 1), NO_VAD_OPTIONS, CLIENT_ID)

  function HelloFields(h: ClientHello): seq<Field> {
    [Field(1, Bytes(h.model)), Field(3, Bytes(h.lang)), Field(4, Bytes(h.task)),
     Field(5, Varint(h.maxNewTokens)), Field(6, Varint(h.beamSize)), Field(7, Varint(if h.notimestamps then 1 else 0)),
     Field(8, Bytes(h.suppressTokens)), Field(9, Bytes(EncodeAudioFormat(h.audioFormat))),
     Field(10, Bytes(EncodeVadOptions(h.vad))), Field(11, Bytes(h.clientId))]
  }

  function EncodeClientHello(h: ClientHello): seq<byte> { EncodeFields(HelloFields(h)) }

  function ApplyHello(m: ClientHello, f: Field): Result<ClientHello, ProtoError> {
    match (f.number, f.payload)
    case (1, Bytes(b)) => var text :- Text(b); Ok(m.(model := text))
    case (3, Bytes(b)) => var text :- Text(b); Ok(m.(lang := text))
    case (4, Bytes(b)) => var text :- Text(b); Ok(m.(task := text))
    case (5, Varint(v)) => Ok(m.(maxNewTokens := v))
    case (6, Varint(v)) => Ok(m.(beamSize := v))
    case (7, Varint(v)) => Ok(m.(notimestamps := v != 0))
    case (8, Bytes(b)) => var text :- Text(b); Ok(m.(suppressTokens := text))
    case (9, Bytes(b)) => var audio :- DecodeAudioFormat(b); Ok(m.(audioFormat := audio))
    case (10, Bytes(b)) => var vad :- DecodeVadOptions(b); Ok(m.(vad := vad))
    case (11, Bytes(b)) => var text :- Text(b); Ok(m.(clientId := text))
    case _ => Ok(m)
  }

  function DecodeClientHello(bytes: seq<byte>): Result<ClientHello, ProtoError> {
    var hello :- Walk(ApplyHello, DEFAULT_HELLO, bytes, 0);
    if hello.model == [] then Err(MissingModel) else Ok(hello)
  }

  // -------------------------------------------------------------- responses

  datatype ServerHello = ServerHello(audioFormat: AudioFormat, ringCapacityBytes: u64, ringHeaderBytes: u32)

  datatype Response =
    | Hello(server: ServerHello)
    | Segment(text: Utf8, begin: Float, end: Float)
    | Done(audioS: Float, rtf: Float)
    | Failed(error: Utf8)
    | Cancelled(audioS: Float, rtf: Float, windowsDispatched: u64, windowsCompleted: u64)
    | BackOff(reason: Utf8, retryAfterMs: u32)
    | SpeechStarted(begin: Float)
    | SpeechEnded(end: Float)

  /** The field of the outer message that a response travels in. */
  function NumberOf(r: Response): u32 {
    match r
    case Hello(_) => 1
    case Segment(_, _, _) => 2
    case Done(_, _) => 3
    case Failed(_) => 4
    case Cancelled(_, _, _, _) => 5
    case BackOff(_, _) => 6
    case SpeechStarted(_) => 7
    case SpeechEnded(_) => 7
  }

  function ResponseFields(r: Response): seq<Field> {
    match r
    case Hello(s) =>
      [Field(1, Bytes(EncodeAudioFormat(s.audioFormat))), Field(2, Varint(s.ringCapacityBytes)), Field(3, Varint(s.ringHeaderBytes))]
    case Segment(text, begin, end) => [Field(1, Bytes(text)), Field(2, Fixed32(begin)), Field(3, Fixed32(end))]
    case Done(audioS, rtf) => [Field(1, Fixed32(audioS)), Field(2, Fixed32(rtf))]
    case Failed(error) => [Field(1, Bytes(error))]
    case Cancelled(audioS, rtf, dispatched, completed) =>
      [Field(1, Fixed32(audioS)), Field(2, Fixed32(rtf)), Field(3, Varint(dispatched)), Field(4, Varint(completed))]
    case BackOff(reason, ms) => [Field(1, Bytes(reason)), Field(2, Varint(ms))]
    case SpeechStarted(begin) => [Field(1, Varint(1)), Field(2, Fixed32(begin))]
    case SpeechEnded(end) => [Field(1, Varint(2)), Field(2, Fixed32(end))]
  }

  function EncodeResponse(r: Response): seq<byte> {
    EncodeField(Field(NumberOf(r), Bytes(EncodeFields(ResponseFields(r)))))
  }

  function ApplyServerHello(m: ServerHello, f: Field): Result<ServerHello, ProtoError> {
    match (f.number, f.payload)
    case (1, Bytes(b)) => var audio :- DecodeAudioFormat(b); Ok(m.(audioFormat := audio))
    case (2, Varint(v)) => Ok(m.(ringCapacityBytes := v))
    case (3, Varint(v)) => Ok(m.(ringHeaderBytes := AsU32(v)))
    case _ => Ok(m)
  }

  function FloatOf(four: seq<byte>, otherwise: Float): Float { if |four| == 4 then four else otherwise }

  /** The smaller decoders' variables are the parts of the response they build. */
  function ApplySegment(m: Response, f: Field): Result<Response, ProtoError> {
    match (m, f.number, f.payload)
    case (Segment(_, _, _), 1, Bytes(b)) => var text :- Text(b); Ok(m.(text := text))
    case (Segment(_, begin, _), 2, Fixed32(four)) => Ok(m.(begin := FloatOf(four, begin)))
    case (Segment(_, _, end), 3, Fixed32(four)) => Ok(m.(end := FloatOf(four, end)))
    case _ => Ok(m)
  }

  function ApplyDone(m: Response, f: Field): Result<Response, ProtoError> {
    match (m, f.number, f.payload)
    case (Done(audioS, rtf), 1, Fixed32(four)) => Ok(Done(FloatOf(four, audioS), rtf))
    case (Done(audioS, rtf), 2, Fixed32(four)) => Ok(Done(audioS, FloatOf(four, rtf)))
    case _ => Ok(m)
  }

  function ApplyFailed(m: Response, f: Field): Result<Response, ProtoError> {
    match (m, f.number, f.payload)
    case (Failed(_), 1, Bytes(b)) => var error :- Text(b); Ok(m.(error := error))
    case _ => Ok(m)
  }

  function ApplyCancelled(m: Response, f: Field): Result<Response, ProtoError> {
    match (m, f.number, f.payload)
    case (Cancelled(audioS, rtf, sent, back), 1, Fixed32(four)) => Ok(Cancelled(FloatOf(four, audioS), rtf, sent, back))
    case (Cancelled(audioS, rtf, sent, back), 2, Fixed32(four)) => Ok(Cancelled(audioS, FloatOf(four, rtf), sent, back))
    case (Cancelled(_, _, _, _), 3, Varint(v)) => Ok(m.(windowsDispatched := v))
    case (Cancelled(_, _, _, _), 4, Varint(v)) => Ok(m.(windowsCompleted := v))
    case _ => Ok(m)
  }

  function ApplyBackOff(m: Response, f: Field): Result<Response, ProtoError> {
    match (m, f.number, f.payload)
    case (BackOff(_, _), 1, Bytes(b)) => var reason :- Text(b); Ok(m.(reason := reason))
    case (BackOff(_, _), 2, Varint(v)) => Ok(m.(retryAfterMs := AsU32(v)))
    case _ => Ok(m)
  }

  datatype SpeechEvent = SpeechEvent(event: u64, timestamp: Float)

  function ApplySpeech(m: SpeechEvent, f: Field): Result<SpeechEvent, ProtoError> {
    match (f.number, f.payload)
    case (1, Varint(v)) => Ok(m.(event := v))
    case (2, Fixed32(four)) => Ok(m.(timestamp := FloatOf(four, m.timestamp)))
    case _ => Ok(m)
  }

  const NO_SEGMENT := Segment([], FLOAT_ZERO, FLOAT_ZERO)
  const NO_DONE := Done(FLOAT_ZERO, FLOAT_ZERO)
  const NO_ERROR := Failed([])
  const NO_CANCELLED := Cancelled(FLOAT_ZERO, FLOAT_ZERO, 0, 0)
  const NO_BACK_OFF := BackOff([], 0)
  const NO_EVENT := SpeechEvent(0, FLOAT_ZERO)

  function DecodeServerHello(body: seq<byte>): Result<ServerHello, ProtoError> {
    Walk(ApplyServerHello, ServerHello(NO_AUDIO_FORMAT, 0, 0), body, 0)
  }

  function DecodeSpeechEvent(body: seq<byte>): Result<Response, ProtoError> {
    var m :- Walk(ApplySpeech, NO_EVENT, body, 0);
    if m.event == 1 then Ok(SpeechStarted(m.timestamp))
    else if m.event == 2 then Ok(SpeechEnded(m.timestamp))
    else Err(UnknownSpeechEvent(m.event))
  }

  function DecodeBody(number: u32, body: seq<byte>): Result<Response, ProtoError> {
    match number
    case 1 => var server :- DecodeServerHello(body); Ok(Hello(server))
    case 2 => Walk(ApplySegment, NO_SEGMENT, body, 0)
    case 3 => Walk(ApplyDone, NO_DONE, body, 0)
    case 4 => Walk(ApplyFailed, NO_ERROR, body, 0)
    case 5 => Walk(ApplyCancelled, NO_CANCELLED, body, 0)
    case 6 => Walk(ApplyBackOff, NO_BACK_OFF, body, 0)
    case 7 => DecodeSpeechEvent(body)
    case _ => Err(UnknownResponse(number))
  }

  /** Only the first field is looked at. */
  function DecodeResponse(bytes: seq<byte>): Result<Response, ProtoError> {
    var key :- ReadKey(bytes, 0);
    if key.value.1 != 2 then Err(ResponseWire(key.value.1))
    else
      var body :- ReadBytes(bytes, key.next);
      DecodeBody(key.value.0, body.value)
  }
}
