/**
 One audio session over the shared ring: the client's send loop
 (rkwhisper-client/src/lib.rs) on one side, the daemon's stream reader
 (rkwhisper/src/daemon_stream.rs) on the other, a queue of signal bytes between
 them.  Loads, stores and single byte copies of the two sides interleave freely.
 */
module Session {
  import opened Wrappers
  import opened Ring

  const CHUNK_BYTES: nat := 1024

  // ------------------------------------------------------- chunking (reader)

  /** A signed 16-bit little-endian sample. */
  function SampleOf(lo: byte, hi: byte): int {
    var u := lo + 256 * hi;
    if u < 32768 then u else u - 65536
  }

  function Samples(pcm: seq<byte>): seq<int> {
    seq(|pcm| / 2, i requires 0 <= i < |pcm| / 2 => SampleOf(pcm[2 * i], pcm[2 * i + 1]))
  }

  /** Sample i is the 16-bit number whose low byte comes first. */
  lemma SamplesAreLittleEndian(pcm: seq<byte>, i: nat)
    requires 2 * i + 1 < |pcm|
    ensures i < |Samples(pcm)| && -32768 <= Samples(pcm)[i] < 32768
    ensures Samples(pcm)[i] % 256 == pcm[2 * i] && Samples(pcm)[i] / 256 % 256 == pcm[2 * i + 1]
  {
  }

  /** Full chunks off the front of the buffer. */
  function FullChunks(pcm: seq<byte>): seq<seq<byte>>
    decreases |pcm|
  {
    if |pcm| < CHUNK_BYTES then [] else [pcm[..CHUNK_BYTES]] + FullChunks(pcm[CHUNK_BYTES..])
  }

  function Leftover(pcm: seq<byte>): seq<byte>
    decreases |pcm|
  {
    if |pcm| < CHUNK_BYTES then pcm else Leftover(pcm[CHUNK_BYTES..])
  }

  /** What a flush sends, what it keeps, and whether it succeeds: a final odd byte is an error. */
  datatype Flush = Flush(chunks: seq<seq<byte>>, left: seq<byte>, ok: bool)

  function FlushOf(pcm: seq<byte>, final: bool): Flush {
    var left := Leftover(pcm);
    if !final || left == [] then Flush(FullChunks(pcm), left, true)
    else if |left| % 2 == 0 then Flush(FullChunks(pcm) + [left], [], true)
    else Flush(FullChunks(pcm), [], false)
  }

  method FlushPcmChunks(buffered: seq<byte>, final: bool) returns (flush: Flush)
    ensures flush == FlushOf(buffered, final)
  {
    var pcm, sent := buffered, [];
    while |pcm| >= CHUNK_BYTES
      invariant sent + FullChunks(pcm) == FullChunks(buffered) && Leftover(pcm) == Leftover(buffered)
      decreases |pcm|
    {
      var chunk := pcm[..CHUNK_BYTES];
      assert sent + ([chunk] + FullChunks(pcm[CHUNK_BYTES..])) == (sent + [chunk]) + FullChunks(pcm[CHUNK_BYTES..]);
      pcm := pcm[CHUNK_BYTES..];
      sent := sent + [chunk];
    }
    assert sent + [] == sent;
    if final && pcm != [] {
      if |pcm| % 2 != 0 {
        return Flush(sent, [], false);
      }
      return Flush(sent + [pcm], [], true);
    }
    return Flush(sent, pcm, true);
  }

  function Join(chunks: seq<seq<byte>>): seq<byte> {
    if chunks == [] then [] else Join(chunks[..|chunks| - 1]) + chunks[|chunks| - 1]
  }

  function JoinSamples(chunks: seq<seq<byte>>): seq<int> {
    if chunks == [] then [] else JoinSamples(chunks[..|chunks| - 1]) + Samples(chunks[|chunks| - 1])
  }

  ghost predicate AllFull(chunks: seq<seq<byte>>) {
    forall i :: 0 <= i < |chunks| ==> |chunks[i]| == 1024
  }

  /** All full but perhaps the last, which is not empty and holds whole samples. */
  ghost predicate EndsEven(chunks: seq<seq<byte>>) {
    chunks != [] ==>
      var last := chunks[|chunks| - 1];
      AllFull(chunks[..|chunks| - 1]) && 0 < |last| <= 1024 && |last| % 2 == 0
  }

  lemma {:induction false} JoinAppends(a: seq<seq<byte>>, b: seq<seq<byte>>)
    ensures Join(a + b) == Join(a) + Join(b)
    decreases |b|
  {
    if b == [] {
      assert a + b == a;
    } else {
      var front, last := b[..|b| - 1], b[|b| - 1];
      assert (a + b)[..|a + b| - 1] == a + front;
      JoinAppends(a, front);
      calc {
        Join(a + b);
        Join(a + front) + last;
        (Join(a) + Join(front)) + last;
        Join(a) + (Join(front) + last);
      }
    }
  }

  lemma FullAppend(a: seq<seq<byte>>, b: seq<seq<byte>>)
    requires AllFull(a) && AllFull(b)
    ensures AllFull(a + b)
  {
  }

  lemma JoinOfOne(chunk: seq<byte>)
    ensures Join([chunk]) == chunk
  {
    var none: seq<seq<byte>> := [];
    assert [chunk][..0] == none;
    assert Join(none) + chunk == chunk;
  }

  lemma {:induction false} ChunksKeepBytes(pcm: seq<byte>)
    ensures Join(FullChunks(pcm)) + Leftover(pcm) == pcm
    ensures AllFull(FullChunks(pcm)) && |Leftover(pcm)| < CHUNK_BYTES && |Leftover(pcm)| % 2 == |pcm| % 2
    decreases |pcm|
  {
    if |pcm| >= CHUNK_BYTES {
      var head, tail := pcm[..CHUNK_BYTES], pcm[CHUNK_BYTES..];
      ChunksKeepBytes(tail);
      var rest, left := FullChunks(tail), Leftover(tail);
      FullAppend([head], rest);
      JoinAppends([head], rest);
      JoinOfOne(head);
      hide Join, AllFull;
      calc {
        Join([head] + rest) + left;
        (head + Join(rest)) + left;
        head + (Join(rest) + left);
        head + tail;
        pcm;
      }
    }
  }

  lemma {:induction false} FullChunksAreEven(chunks: seq<seq<byte>>)
    requires AllFull(chunks)
    ensures |Join(chunks)| % 2 == 0
  {
    if chunks != [] {
      FullChunksAreEven(chunks[..|chunks| - 1]);
    }
  }

  /**
   A flush moves bytes from the buffer to chunks and loses none; a final one
   leaves nothing, and fails exactly when the stream so far has odd length.
   */
  lemma FlushKeepsBytes(chunks: seq<seq<byte>>, buffer: seq<byte>, final: bool)
    requires AllFull(chunks)
    ensures var f := FlushOf(buffer, final);
            && (f.ok <==> !(final && (|Join(chunks)| + |buffer|) % 2 == 1))
            && (if f.ok then Join(chunks + f.chunks) + f.left == Join(chunks) + buffer
                else Join(chunks + f.chunks) <= Join(chunks) + buffer)
            && (if f.ok && final then f.left == [] && EndsEven(chunks + f.chunks) else AllFull(chunks + f.chunks))
  {
    hide Join, FullChunks, Leftover, AllFull, EndsEven;
    var full, left := FullChunks(buffer), Leftover(buffer);
    WholeChunks(chunks, buffer);
    FullEndsEven(chunks + full);
    if final && left != [] && |left| % 2 == 0 {
      FinalChunk(chunks, full, left);
    }
  }

  lemma WholeChunks(chunks: seq<seq<byte>>, buffer: seq<byte>)
    requires AllFull(chunks)
    ensures AllFull(chunks + FullChunks(buffer))
    ensures Join(chunks + FullChunks(buffer)) + Leftover(buffer) == Join(chunks) + buffer
    ensures |Leftover(buffer)| < CHUNK_BYTES && |Leftover(buffer)| % 2 == (|Join(chunks)| + |buffer|) % 2
  {
    hide Join, FullChunks, Leftover, AllFull;
    var full, left := FullChunks(buffer), Leftover(buffer);
    ChunksKeepBytes(buffer);
    FullAppend(chunks, full);
    JoinAppends(chunks, full);
    FullChunksAreEven(chunks);
    assert Join(chunks + full) + left == Join(chunks) + (Join(full) + left);
  }

  lemma FinalChunk(chunks: seq<seq<byte>>, full: seq<seq<byte>>, left: seq<byte>)
    requires AllFull(chunks + full) && 0 < |left| < CHUNK_BYTES && |left| % 2 == 0
    ensures Join(chunks + (full + [left])) + [] == Join(chunks + full) + left
    ensures EndsEven(chunks + (full + [left]))
  {
    var all := chunks + full;
    assert chunks + (full + [left]) == all + [left];
    JoinAppends(all, [left]);
    JoinOfOne(left);
    assert (all + [left])[..|all|] == all;
  }

  lemma FullEndsEven(chunks: seq<seq<byte>>)
    requires AllFull(chunks)
    ensures EndsEven(chunks)
  {
  }

  /** Even-length stretches can be converted to samples separately. */
  lemma SamplesAppend(a: seq<byte>, b: seq<byte>)
    requires |a| % 2 == 0
    ensures Samples(a + b) == Samples(a) + Samples(b)
  {
    var ab := a + b;
    assert |ab| / 2 == |a| / 2 + |b| / 2;
    forall i | 0 <= i < |ab| / 2 ensures Samples(ab)[i] == (Samples(a) + Samples(b))[i] {
      if i >= |a| / 2 {
        assert ab[2 * i] == b[2 * (i - |a| / 2)] && ab[2 * i + 1] == b[2 * (i - |a| / 2) + 1];
      }
    }
  }

  lemma {:induction false} SamplesOfJoin(chunks: seq<seq<byte>>)
    requires forall i :: 0 <= i < |chunks| ==> |chunks[i]| % 2 == 0
    ensures |Join(chunks)| % 2 == 0 && Samples(Join(chunks)) == JoinSamples(chunks)
  {
    if chunks != [] {
      var n := |chunks| - 1;
      SamplesOfJoin(chunks[..n]);
      SamplesAppend(Join(chunks[..n]), chunks[n]);
    }
  }

  // ----------------------------------------------------------- the two sides

  datatype Signal = DataReady | EndOfStream | Cancel

  /** The client inside `push_available`, with the counter it loaded and how far its copy has come. */
  datatype Producer =
    | Idle
    | SawRead(read: nat)
    | Copying(read: nat, count: nat, done: nat)
    | MustSignal
    | Over

  /** Why the reader is draining or flushing. The program reports AtEnd and AtHangUp alike as completion. */
  datatype Why = More | AtEnd | AtHangUp

  datatype Outcome = Completed | HungUp | Cancelled | OddByte(why: Why)

  /** The reader inside a drain. */
  datatype Consumer =
    | Listening
    | Draining(why: Why)
    | Loaded(write: nat, done: nat, why: Why)
    | Flushing(why: Why)
    | Ended(outcome: Outcome)

  /** How the client went: what it was doing, and whether bytes were in the ring that the reader would not look for again. */
  datatype Closing = Closing(producer: Producer, unheard: bool)

  /**
   `upto` is where the audio handed to `send_audio` so far ends, `pcm` all the
   audio of the session; `buffer` the reader's bytes not yet chunked.
   */
  datatype State = State(
    cells: seq<byte>, read: nat, write: nat,
    upto: nat, producer: Producer,
    signals: seq<Signal>, hangUp: Option<Closing>,
    consumer: Consumer, buffer: seq<byte>, chunks: seq<seq<byte>>)

  function Start(capacity: nat): State {
    State(seq(capacity, i => 0), 0, 0, 0, Idle, [], None, Listening, [], [])
  }

  datatype Step =
    // client
    | SendMore(more: nat)     // send_audio is called with more audio
    | LoadRead
    | LoadWrite               // sizes the push; a full ring sends the client back to sleep
    | CopyByte
    | StoreWrite
    | SendSignal
    | Finish
    | CancelSession
    | HangUp                  // the socket closes, perhaps because the client died in the middle of a push
    // reader
    | Hear                    // takes a signal byte
    | HearHangUp              // the socket is at its end
    | LoadCounters
    | TakeByte
    | StoreRead
    | FlushChunks

  /** The ring holds bytes, no signal is on its way, and the reader is not about to load a counter that counts them. */
  predicate Unheard(s: State) {
    && s.read < s.write && s.signals == []
    && match s.consumer
       case Draining(_) => false
       case Loaded(write, _, _) => write < s.write
       case Ended(_) => false
       case _ => true
  }

  predicate Enabled(pcm: seq<byte>, s: State, step: Step) {
    match step
    case SendMore(more) => s.producer.Idle? && s.write == s.upto && s.upto + more <= |pcm|
    case LoadRead => s.producer.Idle? && s.write < s.upto
    case LoadWrite => s.producer.SawRead?
    case CopyByte => s.producer.Copying? && s.producer.done < s.producer.count
                     && s.write + s.producer.done < |pcm| && 0 < |s.cells|
    case StoreWrite => s.producer.Copying? && s.producer.done == s.producer.count
    case SendSignal => s.producer.MustSignal?
    case Finish => s.producer.Idle? && s.write == s.upto == |pcm|
    case CancelSession => s.producer.Idle?
    case HangUp => s.hangUp.None?
    case Hear => s.consumer.Listening? && s.signals != []
    case HearHangUp => s.consumer.Listening? && s.signals == [] && s.hangUp.Some?
    case LoadCounters => s.consumer.Draining?
    case TakeByte => s.consumer.Loaded? && s.read + s.consumer.done < s.consumer.write && 0 < |s.cells|
    case StoreRead => s.consumer.Loaded? && s.read + s.consumer.done >= s.consumer.write
    case FlushChunks => s.consumer.Flushing?
  }

  function AfterFlush(s: State): State
    requires s.consumer.Flushing?
  {
    var f := FlushOf(s.buffer, s.consumer.why != More);
    s.(chunks := s.chunks + f.chunks, buffer := f.left,
       consumer := if !f.ok then Ended(OddByte(s.consumer.why))
                   else match s.consumer.why
                        case More => Listening
                        case AtEnd => Ended(Completed)
                        case AtHangUp => Ended(HungUp))
  }

  function AfterHear(s: State): State
    requires s.signals != []
  {
    s.(signals := s.signals[1..],
       consumer := match s.signals[0]
                   case DataReady => Draining(More)
                   case EndOfStream => Draining(AtEnd)
                   case Cancel => Ended(Cancelled))
  }

  function AfterClient(pcm: seq<byte>, s: State, step: Step): State
    requires Enabled(pcm, s, step)
  {
    match step
    case SendMore(more) => s.(upto := s.upto + more)
    case LoadRead => s.(producer := SawRead(s.read))
    case LoadWrite =>
      var count := Min(s.upto - s.write, |s.cells| - (s.write - s.producer.read));
      s.(producer := if count <= 0 then Idle else Copying(s.producer.read, count, 0))
    case CopyByte =>
      var i := s.write + s.producer.done;
      s.(cells := s.cells[Cell(i, 0, |s.cells|) := pcm[i]],
         producer := s.producer.(done := s.producer.done + 1))
    case StoreWrite => s.(write := s.write + s.producer.count, producer := MustSignal)
    case SendSignal => s.(signals := s.signals + [DataReady], producer := Idle)
    case Finish => s.(signals := s.signals + [EndOfStream], producer := Over)
    case CancelSession => s.(signals := s.signals + [Cancel], producer := Over)
    case HangUp => s.(hangUp := Some(Closing(s.producer, Unheard(s))), producer := Over)
    case _ => s
  }

  function AfterReader(pcm: seq<byte>, s: State, step: Step): State
    requires Enabled(pcm, s, step)
  {
    match step
    case Hear => AfterHear(s)
    case HearHangUp => s.(consumer := Flushing(AtHangUp))
    case LoadCounters => s.(consumer := Loaded(s.write, 0, s.consumer.why))
    case TakeByte =>
      s.(buffer := s.buffer + [s.cells[Cell(s.read + s.consumer.done, 0, |s.cells|)]],
         consumer := s.consumer.(done := s.consumer.done + 1))
    case StoreRead => s.(read := s.consumer.write, consumer := Flushing(s.consumer.why))
    case FlushChunks => AfterFlush(s)
    case _ => s
  }

  predicate IsReaders(step: Step) {
    step.Hear? || step.HearHangUp? || step.LoadCounters? || step.TakeByte? || step.StoreRead? || step.FlushChunks?
  }

  function After(pcm: seq<byte>, s: State, step: Step): State
    requires Enabled(pcm, s, step)
  {
    if IsReaders(step) then AfterReader(pcm, s, step) else AfterClient(pcm, s, step)
  }

  /** The client's copy loop run on its own for n bytes. */
  ghost function CopyRun(pcm: seq<byte>, s: State, n: nat): State
    requires s.producer.Copying? && s.producer.done == 0 && n <= s.producer.count <= |s.cells|
    requires s.write + s.producer.count <= |pcm|
    ensures var t := CopyRun(pcm, s, n);
            |t.cells| == |s.cells| && t == s.(cells := t.cells, producer := s.producer.(done := n))
  {
    if n == 0 then s else AfterClient(pcm, CopyRun(pcm, s, n - 1), CopyByte)
  }

  /** Byte by byte, it leaves the cells exactly as the two block copies of `push_available` do. */
  lemma {:induction false} CopyRunIsPush(pcm: seq<byte>, s: State, n: nat)
    requires s.producer.Copying? && s.producer.done == 0 && n <= s.producer.count <= |s.cells|
    requires s.write + s.producer.count <= |pcm|
    ensures Copied(s.cells, CopyRun(pcm, s, n).cells, s.write, pcm[s.write..s.write + n])
  {
    var cells := |s.cells|;
    if n > 0 {
      CopyRunIsPush(pcm, s, n - 1);
      var before, after := CopyRun(pcm, s, n - 1).cells, CopyRun(pcm, s, n).cells;
      forall c | 0 <= c < cells ensures
        after[c] == var d := Ahead(s.write, c, cells); if d < n then pcm[s.write..s.write + n][d] else s.cells[c]
      {
        CellAhead(s.write, c, cells);
        AheadOfCell(s.write, n - 1, cells);
        assert Cell(s.write + (n - 1), 0, cells) == Cell(s.write, n - 1, cells);
        assert before[c] == var d := Ahead(s.write, c, cells);
          if d < n - 1 then pcm[s.write..s.write + (n - 1)][d] else s.cells[c];
      }
    }
  }

  // ------------------------------------------------------------- invariant

  /** Bytes the reader has taken out of the ring, whether or not it has said so yet. */
  function Taken(s: State): nat { s.read + if s.consumer.Loaded? then s.consumer.done else 0 }

  /** The cell of stream position i holds that byte. */
  ghost predicate Holds(pcm: seq<byte>, cells: seq<byte>, i: nat) {
    0 < |cells| && i < |pcm| && cells[Cell(i, 0, |cells|)] == pcm[i]
  }

  /** The ring is never over- or underrun, and holds the next bytes of the stream. */
  ghost predicate RingOk(pcm: seq<byte>, s: State) {
    && s.read <= s.write <= s.read + |s.cells|
    && s.write <= s.upto <= |pcm|
    && forall i: nat :: s.read <= i < s.write ==> Holds(pcm, s.cells, i)
  }

  ghost predicate ProducerOk(pcm: seq<byte>, s: State) {
    match s.producer
    case SawRead(read) => read <= s.read && s.write <= read + |s.cells|
    case Copying(read, count, done) =>
      && read <= s.read && done <= count && 0 < count
      && s.write + count <= read + |s.cells| && s.write + count <= s.upto
      && forall i: nat :: s.write <= i < s.write + done ==> Holds(pcm, s.cells, i)
    case _ => true
  }

  /** Chunks are full while the stream runs; a completed stream may end with one shorter, even one. */
  ghost predicate ChunksOk(s: State) {
    if s.consumer == Ended(Completed) || s.consumer == Ended(HungUp) then
      s.buffer == [] && EndsEven(s.chunks)
    else AllFull(s.chunks)
  }

  /** What has been chunked and buffered is what has been taken, and that is a prefix of the stream. */
  ghost predicate ConsumerOk(pcm: seq<byte>, s: State) {
    && (s.consumer.Loaded? ==> s.read + s.consumer.done <= s.consumer.write <= s.write)
    && Taken(s) <= s.write <= |pcm|
    && (if s.consumer.Ended? && s.consumer.outcome.OddByte? then
          s.read % 2 == 1 && Join(s.chunks) <= pcm
        else
          Join(s.chunks) + s.buffer == pcm[..Taken(s)])
    && ChunksOk(s)
  }

  predicate ReaderAtEnd(c: Consumer) {
    match c
    case Draining(why) => why == AtEnd
    case Loaded(_, _, why) => why == AtEnd
    case Flushing(why) => why == AtEnd
    case Ended(outcome) => outcome == Completed || outcome == OddByte(AtEnd)
    case Listening => false
  }

  /** The end-of-stream signal is sent only when everything is in the ring, so the last drain gets it all. */
  ghost predicate EndOk(pcm: seq<byte>, s: State) {
    && (EndOfStream in s.signals || ReaderAtEnd(s.consumer) ==> s.producer.Over? && s.write == |pcm|)
    && (ReaderAtEnd(s.consumer) ==>
          match s.consumer
          case Loaded(write, _, _) => write == |pcm|
          case Flushing(_) => s.read == |pcm|
          case Ended(_) => s.read == |pcm|
          case _ => true)
  }

  /** The client has gone before announcing its last push, and the reader had finished looking. */
  predicate Lost(s: State) { s.hangUp.Some? && s.hangUp.value.unheard }

  /** No lost wake-up while the client lives: bytes in the ring are announced, about to be, or about to be looked at. */
  ghost predicate WakeOk(s: State) {
    || Lost(s) || s.consumer.Ended? || s.producer.MustSignal? || s.signals != []
    || s.consumer.Draining? || (s.consumer.Loaded? && s.consumer.write == s.write)
    || s.read == s.write
  }

  ghost predicate HangUpOk(s: State) {
    && (s.hangUp.Some? ==> s.producer.Over?)
    && (Lost(s) ==> s.hangUp.value.producer == MustSignal && (Unheard(s) || (s.consumer.Ended? && s.read < s.write)))
    && (s.consumer == Flushing(AtHangUp) || s.consumer == Ended(HungUp) || s.consumer == Ended(OddByte(AtHangUp)) ==>
          s.hangUp.Some? && (s.read == s.write || Lost(s)))
    && !(s.consumer.Draining? && s.consumer.why == AtHangUp) && !(s.consumer.Loaded? && s.consumer.why == AtHangUp)
    && s.consumer != Ended(OddByte(More))
  }

  ghost predicate SessionOk(pcm: seq<byte>, s: State) {
    && RingOk(pcm, s) && ProducerOk(pcm, s) && ConsumerOk(pcm, s)
    && EndOk(pcm, s) && WakeOk(s) && HangUpOk(s)
  }

  // ---------------------------------------------------------- preservation

  lemma StartOk(pcm: seq<byte>, capacity: nat)
    ensures SessionOk(pcm, Start(capacity))
  {
  }

  /** Copying a byte into a free cell disturbs no byte within a capacity of it. */
  lemma CopyKeeps(pcm: seq<byte>, cells: seq<byte>, i: nat, j: nat)
    requires Holds(pcm, cells, i) && i < j < i + |cells| && j < |pcm|
    ensures Holds(pcm, cells[Cell(j, 0, |cells|) := pcm[j]], i)
  {
    CellsDiffer(i, j, |cells|);
  }

  lemma CopyByteOk(pcm: seq<byte>, s: State)
    requires SessionOk(pcm, s) && Enabled(pcm, s, CopyByte)
    ensures SessionOk(pcm, AfterClient(pcm, s, CopyByte))
  {
    var j := s.write + s.producer.done;
    var s' := AfterClient(pcm, s, CopyByte);
    forall i: nat | s.read <= i < j ensures Holds(pcm, s'.cells, i) {
      assert Holds(pcm, s.cells, i);
      CopyKeeps(pcm, s.cells, i, j);
    }
    hide ConsumerOk;
    assert Holds(pcm, s'.cells, j);
    CopyKeepsReader(pcm, s, s');
  }

  lemma CopyKeepsReader(pcm: seq<byte>, s: State, s': State)
    requires ConsumerOk(pcm, s) && s' == s.(cells := s'.cells, producer := s'.producer)
    ensures ConsumerOk(pcm, s')
  {
  }

  lemma ClientOk(pcm: seq<byte>, s: State, step: Step)
    requires SessionOk(pcm, s) && Enabled(pcm, s, step) && !IsReaders(step)
    ensures SessionOk(pcm, AfterClient(pcm, s, step))
  {
    if step.CopyByte? {
      CopyByteOk(pcm, s);
    } else {
      ClientKeepsReader(pcm, s, AfterClient(pcm, s, step));
      hide ConsumerOk;
    }
  }

  lemma ClientKeepsReader(pcm: seq<byte>, s: State, s': State)
    requires ConsumerOk(pcm, s) && s.write <= s'.write <= |pcm|
    requires s' == s.(write := s'.write, upto := s'.upto, producer := s'.producer, signals := s'.signals, hangUp := s'.hangUp)
    ensures ConsumerOk(pcm, s')
  {
  }

  lemma TakeByteOk(pcm: seq<byte>, s: State)
    requires SessionOk(pcm, s) && Enabled(pcm, s, TakeByte)
    ensures SessionOk(pcm, AfterReader(pcm, s, TakeByte))
  {
    var i := Taken(s);
    assert Holds(pcm, s.cells, i);
    assert Join(s.chunks) + (s.buffer + [pcm[i]]) == (Join(s.chunks) + s.buffer) + [pcm[i]] == pcm[..i + 1];
  }

  lemma FlushKeepsReader(pcm: seq<byte>, s: State)
    requires s.consumer.Flushing? && ConsumerOk(pcm, s)
    ensures ConsumerOk(pcm, AfterFlush(s))
    ensures !FlushOf(s.buffer, s.consumer.why != More).ok ==> s.consumer.why != More
  {
    FlushKeepsBytes(s.chunks, s.buffer, s.consumer.why != More);
    assert |Join(s.chunks)| + |s.buffer| == s.read;
    hide Join, FlushOf, AllFull, EndsEven;
  }

  lemma FlushOk(pcm: seq<byte>, s: State)
    requires SessionOk(pcm, s) && s.consumer.Flushing?
    ensures SessionOk(pcm, AfterFlush(s))
  {
    FlushKeepsReader(pcm, s);
    hide ConsumerOk, FlushOf;
  }

  lemma ReaderOk(pcm: seq<byte>, s: State, step: Step)
    requires SessionOk(pcm, s) && Enabled(pcm, s, step) && IsReaders(step)
    ensures SessionOk(pcm, AfterReader(pcm, s, step))
  {
    if step.TakeByte? {
      TakeByteOk(pcm, s);
    } else if step.FlushChunks? {
      FlushOk(pcm, s);
    } else {
      hide Join, AfterFlush;
    }
  }

  ghost predicate IsRun(pcm: seq<byte>, capacity: nat, states: seq<State>, steps: seq<Step>) {
    Continues(pcm, states, steps) && states[0] == Start(capacity)
  }

  ghost predicate Continues(pcm: seq<byte>, states: seq<State>, steps: seq<Step>) {
    && |states| == |steps| + 1
    && forall i :: 0 <= i < |steps| ==>
         Enabled(pcm, states[i], steps[i]) && states[i + 1] == After(pcm, states[i], steps[i])
  }

  /** Every interleaving of the two sides keeps the invariant. */
  lemma {:induction false} RunsAreOk(pcm: seq<byte>, capacity: nat, states: seq<State>, steps: seq<Step>, n: nat)
    requires IsRun(pcm, capacity, states, steps) && n < |states|
    ensures SessionOk(pcm, states[n])
  {
    hide SessionOk, Enabled, AfterReader, AfterClient;
    if n == 0 {
      StartOk(pcm, capacity);
    } else {
      RunsAreOk(pcm, capacity, states, steps, n - 1);
      if IsReaders(steps[n - 1]) {
        ReaderOk(pcm, states[n - 1], steps[n - 1]);
      } else {
        ClientOk(pcm, states[n - 1], steps[n - 1]);
      }
    }
  }

  // -------------------------------------------------------------- theorems

  /**
   The ring is a FIFO in every state of every interleaving, half-finished pushes
   and drains included: bytes taken followed by what is left are the bytes pushed.
   A reader that ended on an odd byte has dropped that byte and nothing else.
   */
  lemma RingIsFifo(pcm: seq<byte>, capacity: nat, states: seq<State>, steps: seq<Step>, n: nat)
    requires IsRun(pcm, capacity, states, steps) && n < |states|
    ensures var s := states[n];
            && s.read <= Taken(s) <= s.write <= s.read + |s.cells| && s.write <= |pcm|
            && Unrolled(s.cells, Taken(s), s.write) == pcm[Taken(s)..s.write]
            && if s.consumer.Ended? && s.consumer.outcome.OddByte? then Join(s.chunks) <= pcm
               else Join(s.chunks) + s.buffer + Unrolled(s.cells, Taken(s), s.write) == pcm[..s.write]
  {
    RunsAreOk(pcm, capacity, states, steps, n);
    var s := states[n];
    var from := Taken(s);
    var rest := Unrolled(s.cells, from, s.write);
    forall i | 0 <= i < |rest| ensures rest[i] == pcm[from + i] {
      assert Holds(pcm, s.cells, from + i);
      assert Cell(from, i, |s.cells|) == Cell(from + i, 0, |s.cells|);
    }
    assert pcm[..from] + rest == pcm[..s.write];
  }

  /** A copy in progress is always within bounds, and neither side ever sees an overrun. */
  lemma CopiesStayInBounds(pcm: seq<byte>, capacity: nat, states: seq<State>, steps: seq<Step>, n: nat)
    requires IsRun(pcm, capacity, states, steps) && n < |states|
    ensures var s := states[n];
            && (s.producer.SawRead? ==> 0 <= s.write - s.producer.read <= |s.cells|)
            && (s.producer.Copying? && s.producer.done < s.producer.count ==> Enabled(pcm, s, CopyByte))
            && (s.consumer.Draining? ==> 0 <= s.write - s.read <= |s.cells|)
            && (s.consumer.Loaded? && s.read + s.consumer.done < s.consumer.write ==> Enabled(pcm, s, TakeByte))
  {
    RunsAreOk(pcm, capacity, states, steps, n);
    DrainsStayInBounds(pcm, states[n]);
    hide IsRun;
  }

  lemma DrainsStayInBounds(pcm: seq<byte>, s: State)
    requires RingOk(pcm, s) && ConsumerOk(pcm, s)
    ensures s.consumer.Loaded? && s.read + s.consumer.done < s.consumer.write ==> Enabled(pcm, s, TakeByte)
  {
    if s.consumer.Loaded? && s.read + s.consumer.done < s.consumer.write {
      assert Holds(pcm, s.cells, s.read + s.consumer.done);
    }
  }

  lemma JoinOfLastShort(chunks: seq<seq<byte>>)
    requires EndsEven(chunks)
    ensures forall i :: 0 <= i < |chunks| ==> |chunks[i]| % 2 == 0
  {
    forall i | 0 <= i < |chunks| ensures |chunks[i]| % 2 == 0 {
      if i < |chunks| - 1 {
        assert |chunks[..|chunks| - 1][i]| == CHUNK_BYTES;
      }
    }
  }

  /**
   A session that was finished delivers its audio exactly when the byte count is
   even: the chunks' samples are then the samples sent, and all chunks but the
   last hold 512 of them.  Otherwise it ends with an error, every full chunk
   having been delivered.
   */
  lemma FinishedSessionDelivers(pcm: seq<byte>, capacity: nat, states: seq<State>, steps: seq<Step>, n: nat)
    requires IsRun(pcm, capacity, states, steps) && n < |states|
    requires states[n].consumer.Ended? && ReaderAtEnd(states[n].consumer)
    ensures var s := states[n];
            && (s.consumer.outcome == Completed <==> |pcm| % 2 == 0)
            && (if |pcm| % 2 == 0 then
                  && JoinSamples(s.chunks) == Samples(pcm)
                  && forall i :: 0 <= i < |s.chunks| ==>
                       if i < |s.chunks| - 1 then |Samples(s.chunks[i])| == 512 else 1 <= |Samples(s.chunks[i])| <= 512
                else AllFull(s.chunks) && Join(s.chunks) <= pcm)
  {
    RunsAreOk(pcm, capacity, states, steps, n);
    EndedSessionDelivers(pcm, states[n]);
    hide IsRun, SessionOk;
  }

  lemma EndedSessionDelivers(pcm: seq<byte>, s: State)
    requires SessionOk(pcm, s) && s.consumer.Ended? && ReaderAtEnd(s.consumer)
    ensures s.consumer.outcome == Completed <==> |pcm| % 2 == 0
    ensures |pcm| % 2 == 0 ==>
              && JoinSamples(s.chunks) == Samples(pcm)
              && forall i :: 0 <= i < |s.chunks| ==>
                   if i < |s.chunks| - 1 then |Samples(s.chunks[i])| == 512 else 1 <= |Samples(s.chunks[i])| <= 512
    ensures |pcm| % 2 == 1 ==> AllFull(s.chunks) && Join(s.chunks) <= pcm
  {
    assert pcm[..|pcm|] == pcm;
    if s.consumer.outcome == Completed {
      JoinOfLastShort(s.chunks);
      SamplesOfJoin(s.chunks);
      assert Join(s.chunks) + [] == Join(s.chunks);
      forall i | 0 <= i < |s.chunks| - 1 ensures |s.chunks[i]| == CHUNK_BYTES {
        assert s.chunks[..|s.chunks| - 1][i] == s.chunks[i];
      }
    }
  }

  /**
   A session whose socket closed without an end-of-stream signal delivers a prefix
   of what was pushed, and all of it exactly when nothing was unheard at that
   moment.  Only a client that dies between storing its write counter and
   signalling leaves something unheard: the reader flushes without draining.
   */
  lemma HungUpSessionDelivers(pcm: seq<byte>, capacity: nat, states: seq<State>, steps: seq<Step>, n: nat)
    requires IsRun(pcm, capacity, states, steps) && n < |states| && states[n].consumer == Ended(HungUp)
    ensures var s := states[n];
            && s.hangUp.Some? && s.write <= |pcm|
            && Join(s.chunks) <= pcm[..s.write]
            && (Join(s.chunks) == pcm[..s.write] <==> !s.hangUp.value.unheard)
            && (s.hangUp.value.producer != MustSignal ==> Join(s.chunks) == pcm[..s.write])
  {
    RunsAreOk(pcm, capacity, states, steps, n);
    HungUpDelivers(pcm, states[n]);
    hide IsRun, SessionOk;
  }

  lemma HungUpDelivers(pcm: seq<byte>, s: State)
    requires SessionOk(pcm, s) && s.consumer == Ended(HungUp)
    ensures s.hangUp.Some? && s.write <= |pcm| && Join(s.chunks) <= pcm[..s.write]
    ensures Join(s.chunks) == pcm[..s.write] <==> !s.hangUp.value.unheard
    ensures s.hangUp.value.producer != MustSignal ==> !s.hangUp.value.unheard
  {
    assert Join(s.chunks) + [] == Join(s.chunks) == pcm[..s.read];
  }

  /** No lost wake-up: while the ring holds bytes and the client is between pushes, or has gone heard, the reader can act. */
  lemma ReaderIsNotStuck(pcm: seq<byte>, capacity: nat, states: seq<State>, steps: seq<Step>, n: nat) returns (step: Step)
    requires IsRun(pcm, capacity, states, steps) && n < |states|
    requires var s := states[n];
             s.read < s.write && !s.consumer.Ended? && !s.producer.MustSignal? && !Lost(s)
    ensures IsReaders(step) && Enabled(pcm, states[n], step)
  {
    var s := states[n];
    RunsAreOk(pcm, capacity, states, steps, n);
    DrainsStayInBounds(pcm, s);
    match s.consumer {
      case Listening => step := Hear;
      case Draining(_) => step := LoadCounters;
      case Loaded(write, done, _) => step := if s.read + done < write then TakeByte else StoreRead;
      case Flushing(_) => step := FlushChunks;
    }
  }

  // ----------------------------------------------------- clients that die

  /** A stretch of a run and one step more. */
  lemma OneMore(pcm: seq<byte>, states: seq<State>, steps: seq<Step>, step: Step) returns (longer: seq<State>, more: seq<Step>)
    requires Continues(pcm, states, steps) && Enabled(pcm, states[|steps|], step)
    ensures Continues(pcm, longer, more) && |longer| == |more| + 1 && longer[0] == states[0]
    ensures longer[|more|] == After(pcm, states[|steps|], step)
  {
    longer, more := states + [After(pcm, states[|steps|], step)], steps + [step];
  }

  /** The client sends one more byte, up to the point where it must signal. */
  lemma PushByte(pcm: seq<byte>, states: seq<State>, steps: seq<Step>) returns (longer: seq<State>, more: seq<Step>)
    requires Continues(pcm, states, steps)
    requires var s := states[|steps|];
             s.producer == Idle && s.read <= s.write == s.upto < |pcm| && s.write - s.read < |s.cells|
    ensures Continues(pcm, longer, more) && |longer| == |more| + 1 && longer[0] == states[0]
    ensures var s := states[|steps|];
            longer[|more|] == s.(cells := s.cells[Cell(s.write, 0, |s.cells|) := pcm[s.write]],
                                 write := s.write + 1, upto := s.write + 1, producer := MustSignal)
  {
    var s := states[|steps|];
    hide Continues, Cell, Unheard, AfterFlush, AfterHear;
    var s1 := s.(upto := s.write + 1);
    longer, more := OneMore(pcm, states, steps, SendMore(1));
    longer, more := OneMore(pcm, longer, more, LoadRead);
    assert longer[|more|] == s1.(producer := SawRead(s.read));
    longer, more := OneMore(pcm, longer, more, LoadWrite);
    assert longer[|more|] == s1.(producer := Copying(s.read, 1, 0));
    var s2 := s1.(cells := s.cells[Cell(s.write, 0, |s.cells|) := pcm[s.write]]);
    longer, more := OneMore(pcm, longer, more, CopyByte);
    assert longer[|more|] == s2.(producer := Copying(s.read, 1, 1));
    longer, more := OneMore(pcm, longer, more, StoreWrite);
  }

  /** A client that dies after a push and before its signal: the reader flushes without draining, and the push is lost. */
  lemma DyingClientLosesPush(pcm: seq<byte>, capacity: nat) returns (states: seq<State>, steps: seq<Step>)
    requires 0 < capacity && pcm != []
    ensures IsRun(pcm, capacity, states, steps)
    ensures var s := states[|steps|];
            && s.consumer == Ended(HungUp) && s.hangUp.Some? && s.hangUp.value.producer == MustSignal
            && s.write == 1 && s.chunks == []
  {
    hide Continues;
    states, steps := [Start(capacity)], [];
    assert Continues(pcm, states, steps) by { Alone(pcm, states[0]); }
    states, steps := PushByte(pcm, states, steps);
    states, steps := OneMore(pcm, states, steps, HangUp);
    states, steps := OneMore(pcm, states, steps, HearHangUp);
    states, steps := OneMore(pcm, states, steps, FlushChunks);
  }

  lemma Alone(pcm: seq<byte>, s: State)
    ensures Continues(pcm, [s], [])
  {
  }

  /** Dying there is not always a loss: the signal of the push before may still make the reader drain both. */
  lemma DyingClientMayBeHeard(pcm: seq<byte>, capacity: nat) returns (states: seq<State>, steps: seq<Step>)
    requires 1 < capacity && |pcm| == 2
    ensures IsRun(pcm, capacity, states, steps)
    ensures var s := states[|steps|];
            && s.consumer == Ended(HungUp) && s.hangUp.Some? && s.hangUp.value.producer == MustSignal
            && s.write == 2 && Join(s.chunks) == pcm
  {
    hide Continues;
    states, steps := [Start(capacity)], [];
    assert Continues(pcm, states, steps) by { Alone(pcm, states[0]); }
    states, steps := PushByte(pcm, states, steps);
    states, steps := OneMore(pcm, states, steps, SendSignal);
    states, steps := PushByte(pcm, states, steps);
    states, steps := OneMore(pcm, states, steps, HangUp);
    states, steps := DrainTwo(pcm, states, steps);
    states, steps := FlushTwo(pcm, states, steps);
    HungUpSessionDelivers(pcm, capacity, states, steps, |steps|);
    assert pcm[..2] == pcm;
  }

  /** The reader's steps from there on. */
  lemma DrainTwo(pcm: seq<byte>, states: seq<State>, steps: seq<Step>) returns (longer: seq<State>, more: seq<Step>)
    requires Continues(pcm, states, steps)
    requires var s := states[|steps|];
             && s.signals == [DataReady] && s.consumer == Listening && s.read == 0 && s.write == 2
             && s.buffer == [] && s.chunks == [] && s.hangUp.Some? && 0 < |s.cells|
    ensures Continues(pcm, longer, more) && |longer| == |more| + 1 && longer[0] == states[0]
    ensures var s, t := states[|steps|], longer[|more|];
            |t.buffer| == 2 && t == s.(signals := [], consumer := Flushing(More), read := 2, buffer := t.buffer)
  {
    var s := states[|steps|];
    hide Continues, FlushOf;
    longer, more := OneMore(pcm, states, steps, Hear);
    longer, more := OneMore(pcm, longer, more, LoadCounters);
    assert longer[|more|] == s.(signals := [], consumer := Loaded(2, 0, More));
    longer, more := OneMore(pcm, longer, more, TakeByte);
    var b := longer[|more|].buffer;
    assert |b| == 1 && longer[|more|] == s.(signals := [], consumer := Loaded(2, 1, More), buffer := b);
    longer, more := OneMore(pcm, longer, more, TakeByte);
    var c := longer[|more|].buffer;
    assert |c| == 2 && longer[|more|] == s.(signals := [], consumer := Loaded(2, 2, More), buffer := c);
    longer, more := OneMore(pcm, longer, more, StoreRead);
  }

  lemma FlushTwo(pcm: seq<byte>, states: seq<State>, steps: seq<Step>) returns (longer: seq<State>, more: seq<Step>)
    requires Continues(pcm, states, steps)
    requires var s := states[|steps|];
             s.signals == [] && s.consumer == Flushing(More) && |s.buffer| == 2 && s.chunks == [] && s.hangUp.Some?
    ensures Continues(pcm, longer, more) && |longer| == |more| + 1 && longer[0] == states[0]
    ensures var s, t := states[|steps|], longer[|more|];
            t == s.(consumer := Ended(HungUp), buffer := [], chunks := t.chunks)
  {
    var s := states[|steps|];
    hide Continues, FlushOf;
    TwoByteFlush(s.buffer);
    longer, more := OneMore(pcm, states, steps, FlushChunks);
    assert longer[|more|] == s.(consumer := Listening);
    longer, more := OneMore(pcm, longer, more, HearHangUp);
    longer, more := OneMore(pcm, longer, more, FlushChunks);
  }

  lemma TwoByteFlush(buffer: seq<byte>)
    requires |buffer| == 2
    ensures FlushOf(buffer, false) == Flush([], buffer, true) && FlushOf(buffer, true) == Flush([buffer], [], true)
  {
    assert FullChunks(buffer) + [buffer] == [buffer];
  }
}
