/** The Protocol Buffers wire format as rkwhisper-protocol/src/lib.rs writes and reads it. */
module Wire {
  import opened Wrappers

  const TWO_64: nat := 0x1_0000_0000_0000_0000
  const TWO_32: nat := 0x1_0000_0000

  type u64 = n: int | 0 <= n < TWO_64
  type u32 = n: int | 0 <= n < TWO_32
  type i32 = n: int | -0x8000_0000 <= n < 0x8000_0000

  /** The kinds of decoding error; their texts are not modelled. */
  datatype ProtoError =
    | Truncated | VarintTooLong | LengthOverflow | NotUtf8 | UnsupportedWire(wire: nat)
    | MissingModel | ResponseWire(wire: nat) | UnknownResponse(field: u32) | UnknownSpeechEvent(event: u64)

  /** Something read, and where to read on. */
  datatype Got<+T> = Got(value: T, next: nat)

  // ------------------------------------------------------------ integer casts

  function AsU32(v: u64): u32 { v % TWO_32 }

  function AsI32(v: u64): i32 {
    var low := v % TWO_32;
    if low < 0x8000_0000 then low else low - TWO_32
  }

  /** Casting a negative i32 to u64 extends its sign. */
  function SignExtended(v: i32): u64 { if v < 0 then v + TWO_64 else v }

  lemma CastsRoundTrip(v: i32, w: u32)
    ensures AsI32(SignExtended(v)) == v && AsU32(w) == w
  {
  }

  /** A cast changes a number by a multiple of 2^32. */
  lemma CastsTruncate(v: u64)
    ensures (AsU32(v) - v) % 0x1_0000_0000 == 0 && (AsI32(v) - v) % 0x1_0000_0000 == 0
  {
  }

  /** Extending a sign changes a number by a multiple of 2^64. */
  lemma ExtensionWraps(v: i32)
    ensures (SignExtended(v) - v) % 0x1_0000_0000_0000_0000 == 0
  {
  }

  // ------------------------------------------------------------------ varints

  function EncodeVarint(v: nat): (bytes: seq<byte>)
    ensures 0 < |bytes|
  {
    if v < 128 then [v] else [v % 128 + 128] + EncodeVarint(v / 128)
  }

  /** What the digits from the k-th on may still add up to. */
  function Limit(k: nat): nat
    requires k <= 9
    decreases 9 - k
  {
    if k == 9 then 2 else 128 * Limit(k + 1)
  }

  lemma LimitIs64()
    ensures Limit(0) == TWO_64
  {
    assert Limit(8) == 256;
    assert Limit(6) == 128 * 128 * 256;
    assert Limit(4) == 128 * 128 * 128 * 128 * 256;
    assert Limit(2) == 128 * 128 * 128 * 128 * 128 * 128 * 256;
  }

  /**
   Digits from the k-th on, least significant first. At most ten bytes are read;
   of the tenth only the lowest bit survives the shift.
   */
  function ReadDigits(bytes: seq<byte>, at: nat, k: nat): (r: Result<Got<nat>, ProtoError>)
    requires k <= 10
    ensures r.Ok? ==> k <= 9 && r.value.value < Limit(k) && at < r.value.next <= |bytes|
    decreases 10 - k
  {
    if k == 10 then Err(VarintTooLong)
    else if |bytes| <= at then Err(Truncated)
    else
      var digit := if k == 9 then bytes[at] % 2 else bytes[at] % 128;
      if bytes[at] < 128 then LimitIsPositive(k); Ok(Got(digit, at + 1))
      else
        var rest :- ReadDigits(bytes, at + 1, k + 1);
        Ok(Got(digit + 128 * rest.value, rest.next))
  }

  lemma LimitIsPositive(k: nat)
    requires k <= 9
    ensures if k == 9 then Limit(k) == 2 else Limit(k) >= 256
    decreases 9 - k
  {
    if k < 9 {
      LimitIsPositive(k + 1);
    }
  }

  function ReadVarint(bytes: seq<byte>, at: nat): (r: Result<Got<u64>, ProtoError>)
    ensures r.Ok? ==> at < r.value.next <= |bytes|
  {
    LimitIs64();
    var got :- ReadDigits(bytes, at, 0);
    Ok(Got(got.value, got.next))
  }

  /** The number that seven bits of each byte make, the lowest first. */
  function Value(bytes: seq<byte>): nat {
    if |bytes| == 0 then 0 else bytes[0] % 128 + 128 * Value(bytes[1..])
  }

  /** All bytes but the last have their high bit set. */
  ghost predicate IsVarint(bytes: seq<byte>) {
    |bytes| > 0 && forall i :: 0 <= i < |bytes| ==> (bytes[i] >= 128 <==> i < |bytes| - 1)
  }

  /** The encoding is the number in base 128, without leading zeros. */
  lemma {:induction false} VarintIsBase128(v: nat)
    ensures IsVarint(EncodeVarint(v)) && Value(EncodeVarint(v)) == v
    ensures v > 0 ==> EncodeVarint(v)[|EncodeVarint(v)| - 1] > 0
  {
    if v >= 128 {
      VarintIsBase128(v / 128);
      assert EncodeVarint(v)[1..] == EncodeVarint(v / 128);
    }
  }

  /** What the digits that are left at k make of the bytes. */
  ghost predicate DigitsAre(bytes: seq<byte>, at: nat, k: nat, r: Result<Got<nat>, ProtoError>)
    requires k <= 10 && at <= |bytes|
  {
    match r
    case Ok(got) =>
      && k < 10 && at < got.next <= |bytes| && got.next - at <= 10 - k && IsVarint(bytes[at..got.next])
      && exists q: nat :: Value(bytes[at..got.next]) == got.value + Limit(k) * q
    case Err(e) =>
      && (forall i :: at <= i < Min(at + 10 - k, |bytes|) ==> bytes[i] >= 128)
      && e == if |bytes| - at < 10 - k then Truncated else VarintTooLong
  }

  lemma {:induction false} DigitsMean(bytes: seq<byte>, at: nat, k: nat)
    requires k <= 10 && at <= |bytes|
    ensures DigitsAre(bytes, at, k, ReadDigits(bytes, at, k))
    decreases 10 - k
  {
    if k < 10 && at < |bytes| {
      if bytes[at] < 128 {
        OneDigit(bytes, at, k);
      } else {
        DigitsMean(bytes, at + 1, k + 1);
        var rest := ReadDigits(bytes, at + 1, k + 1);
        if rest.Ok? {
          DigitStep(bytes, at, k, rest);
          hide ReadDigits;
          AnotherDigit(bytes, at, k, rest.value);
        }
      }
    }
  }

  lemma LongerVarint(b: byte, more: seq<byte>)
    requires b >= 128 && IsVarint(more)
    ensures IsVarint([b] + more) && Value([b] + more) == b % 128 + 128 * Value(more)
  {
    assert ([b] + more)[1..] == more;
  }

  lemma AnotherDigit(bytes: seq<byte>, at: nat, k: nat, got: Got<nat>)
    requires k < 9 && at < |bytes| && bytes[at] >= 128 && DigitsAre(bytes, at + 1, k + 1, Ok(got))
    ensures DigitsAre(bytes, at, k, Ok(Got(bytes[at] % 128 + 128 * got.value, got.next)))
  {
    hide Value, IsVarint;
    var q: nat :| Value(bytes[at + 1..got.next]) == got.value + Limit(k + 1) * q;
    assert bytes[at..got.next] == [bytes[at]] + bytes[at + 1..got.next];
    LongerVarint(bytes[at], bytes[at + 1..got.next]);
    assert Limit(k) == 128 * Limit(k + 1);
    hide Limit;
    assert Limit(k) * q == 128 * (Limit(k + 1) * q);
  }

  lemma OneDigit(bytes: seq<byte>, at: nat, k: nat)
    requires k <= 9 && at < |bytes| && bytes[at] < 128
    ensures DigitsAre(bytes, at, k, ReadDigits(bytes, at, k))
  {
    var one := bytes[at..at + 1];
    assert one[1..] == [];
    assert Value(one) == bytes[at];
    if k == 9 {
      assert bytes[at] == bytes[at] % 2 + Limit(9) * (bytes[at] / 2);
    } else {
      assert bytes[at] == bytes[at] + Limit(k) * 0;
    }
  }

  lemma Reduced(x: nat, v: u64, q: nat)
    requires x == v + TWO_64 * q
    ensures v == x % 0x1_0000_0000_0000_0000
  {
  }

  /**
   What is read from any bytes: up to the first byte without a high bit, which must
   be among the first ten, and the number modulo 2^64.
   */
  lemma VarintMeans(bytes: seq<byte>, at: nat)
    requires at <= |bytes|
    ensures match ReadVarint(bytes, at)
            case Ok(got) =>
              && got.next - at <= 10 && IsVarint(bytes[at..got.next])
              && got.value == Value(bytes[at..got.next]) % 0x1_0000_0000_0000_0000
            case Err(e) =>
              && (forall i :: at <= i < Min(at + 10, |bytes|) ==> bytes[i] >= 128)
              && e == if |bytes| - at < 10 then Truncated else VarintTooLong
  {
    LimitIs64();
    DigitsMean(bytes, at, 0);
    hide ReadDigits, Value, Limit, IsVarint;
    if ReadDigits(bytes, at, 0).Ok? {
      var got := ReadDigits(bytes, at, 0).value;
      var q: nat :| Value(bytes[at..got.next]) == got.value + Limit(0) * q;
      Reduced(Value(bytes[at..got.next]), got.value, q);
    }
  }

  /** x is what the bytes hold from a position on. */
  ghost predicate Stands(x: seq<byte>, bytes: seq<byte>, at: nat) {
    at + |x| <= |bytes| && bytes[at..at + |x|] == x
  }

  lemma StandsParts(x: seq<byte>, y: seq<byte>, bytes: seq<byte>, at: nat)
    requires Stands(x + y, bytes, at)
    ensures Stands(x, bytes, at) && Stands(y, bytes, at + |x|)
  {
    assert bytes[at..at + |x|] == (x + y)[..|x|];
    assert bytes[at + |x|..at + |x| + |y|] == (x + y)[|x|..];
  }

  lemma DigitStep(bytes: seq<byte>, at: nat, k: nat, rest: Result<Got<nat>, ProtoError>)
    requires at < |bytes| && bytes[at] >= 128 && k <= 8 && ReadDigits(bytes, at + 1, k + 1) == rest
    ensures ReadDigits(bytes, at, k) ==
              if rest.Err? then rest else Ok(Got(bytes[at] % 128 + 128 * rest.value.value, rest.value.next))
  {
  }

  lemma FirstStands(b: byte, rest: seq<byte>, bytes: seq<byte>, at: nat)
    requires Stands([b] + rest, bytes, at)
    ensures bytes[at] == b && Stands(rest, bytes, at + 1)
  {
    StandsParts([b], rest, bytes, at);
    assert bytes[at..at + 1][0] == b;
  }

  lemma LastDigit(bytes: seq<byte>, at: nat, v: nat, k: nat)
    requires at < |bytes| && bytes[at] == v < 128 && k <= 9 && v < Limit(k)
    ensures ReadDigits(bytes, at, k) == Ok(Got(v, at + 1))
  {
    LimitIsPositive(k);
  }

  lemma MoreDigits(v: nat, k: nat)
    requires k <= 9 && 128 <= v < Limit(k)
    ensures k <= 8 && v / 128 < Limit(k + 1) && (v % 128 + 128) % 128 + 128 * (v / 128) == v
  {
  }

  lemma {:induction false} DigitsRead(bytes: seq<byte>, at: nat, v: nat, k: nat)
    requires k <= 9 && v < Limit(k) && Stands(EncodeVarint(v), bytes, at)
    ensures ReadDigits(bytes, at, k) == Ok(Got(v, at + |EncodeVarint(v)|))
    decreases v
  {
    if v < 128 {
      assert EncodeVarint(v) == [v];
      hide EncodeVarint, Stands, ReadDigits, Limit;
      FirstStands(v, [], bytes, at);
      LastDigit(bytes, at, v, k);
    } else {
      var rest := EncodeVarint(v / 128);
      assert EncodeVarint(v) == [v % 128 + 128] + rest;
      hide Stands, ReadDigits, EncodeVarint, Limit;
      MoreDigits(v, k);
      FirstStands(v % 128 + 128, rest, bytes, at);
      DigitsRead(bytes, at + 1, v / 128, k + 1);
      DigitStep(bytes, at, k, Ok(Got(v / 128, at + 1 + |rest|)));
    }
  }

  /** Every 64-bit number is read back from its encoding, wherever that stands. */
  lemma VarintRoundTrip(bytes: seq<byte>, at: nat, v: u64)
    requires Stands(EncodeVarint(v), bytes, at)
    ensures ReadVarint(bytes, at) == Ok(Got(v, at + |EncodeVarint(v)|))
  {
    LimitIs64();
    DigitsRead(bytes, at, v, 0);
  }

  /** The bytes from `at` on are a beginning of x that is not all of it. */
  ghost predicate CutShort(x: seq<byte>, bytes: seq<byte>, at: nat) {
    at <= |bytes| < at + |x| && bytes[at..] == x[..|bytes| - at]
  }

  lemma FirstCutShort(b: byte, rest: seq<byte>, bytes: seq<byte>, at: nat)
    requires CutShort([b] + rest, bytes, at) && at < |bytes|
    ensures bytes[at] == b && CutShort(rest, bytes, at + 1)
  {
    assert bytes[at..][0] == ([b] + rest)[0];
    assert bytes[at + 1..] == bytes[at..][1..];
    assert ([b] + rest)[..|bytes| - at][1..] == rest[..|bytes| - at - 1];
  }

  lemma {:induction false} DigitsCutShort(bytes: seq<byte>, at: nat, v: nat, k: nat)
    requires k <= 9 && v < Limit(k) && CutShort(EncodeVarint(v), bytes, at)
    ensures ReadDigits(bytes, at, k) == Err(Truncated)
    decreases v
  {
    LimitIsPositive(k);
    if at < |bytes| {
      assert v >= 128;
      FirstCutShort(v % 128 + 128, EncodeVarint(v / 128), bytes, at);
      DigitsCutShort(bytes, at + 1, v / 128, k + 1);
      DigitStep(bytes, at, k, Err(Truncated));
      hide CutShort, ReadDigits;
    }
  }

  /** What is cut short is cut short in its first or its second part. */
  lemma CutParts(x: seq<byte>, y: seq<byte>, bytes: seq<byte>, at: nat)
    requires CutShort(x + y, bytes, at)
    ensures CutShort(x, bytes, at) || (Stands(x, bytes, at) && CutShort(y, bytes, at + |x|))
  {
    var n := |bytes| - at;
    if n < |x| {
      assert (x + y)[..n] == x[..n];
    } else {
      assert bytes[at..at + |x|] == bytes[at..][..|x|] == (x + y)[..n][..|x|] == x;
      assert bytes[at + |x|..] == bytes[at..][|x|..] == (x + y)[..n][|x|..] == y[..n - |x|];
    }
  }

  lemma VarintCutShort(bytes: seq<byte>, at: nat, v: u64)
    requires CutShort(EncodeVarint(v), bytes, at)
    ensures ReadVarint(bytes, at) == Err(Truncated)
  {
    LimitIs64();
    DigitsCutShort(bytes, at, v, 0);
  }

  // ------------------------------------------------------------------- fields

  datatype Payload = Varint(value: u64) | Fixed64(eight: seq<byte>) | Bytes(data: seq<byte>) | Fixed32(four: seq<byte>)

  datatype Field = Field(number: u32, payload: Payload)

  function WireType(p: Payload): nat {
    match p
    case Varint(_) => 0
    case Fixed64(_) => 1
    case Bytes(_) => 2
    case Fixed32(_) => 5
  }

  predicate FieldOk(f: Field) {
    match f.payload
    case Fixed64(eight) => |eight| == 8
    case Fixed32(four) => |four| == 4
    case _ => true
  }

  function KeyOf(f: Field): u64 { f.number * 8 + WireType(f.payload) }

  function PayloadBytes(p: Payload): seq<byte> {
    match p
    case Varint(v) => EncodeVarint(v)
    case Fixed64(eight) => eight
    case Bytes(data) => EncodeVarint(|data|) + data
    case Fixed32(four) => four
  }

  function EncodeField(f: Field): seq<byte> { EncodeVarint(KeyOf(f)) + PayloadBytes(f.payload) }

  function EncodeFields(fs: seq<Field>): seq<byte> {
    var n := |fs| - 1;
    if n < 0 then [] else EncodeFields(fs[..n]) + EncodeField(fs[n])
  }

  /** The field number is what is left of the key in 32 bits. */
  function ReadKey(bytes: seq<byte>, at: nat): (r: Result<Got<(u32, nat)>, ProtoError>)
    ensures r.Ok? ==> at < r.value.next <= |bytes|
  {
    var key :- ReadVarint(bytes, at);
    Ok(Got((AsU32(key.value / 8), key.value % 8), key.next))
  }

  function ReadBytes(bytes: seq<byte>, at: nat): (r: Result<Got<seq<byte>>, ProtoError>)
    ensures r.Ok? ==> at < r.value.next <= |bytes|
  {
    var len :- ReadVarint(bytes, at);
    if len.next + len.value >= TWO_64 then Err(LengthOverflow) else TakeBytes(bytes, len.next, len.value)
  }

  function TakeBytes(bytes: seq<byte>, at: nat, count: nat): (r: Result<Got<seq<byte>>, ProtoError>)
    ensures r.Ok? ==> at <= |bytes| && r.value.next == at + count <= |bytes| && r.value.value == bytes[at..at + count]
  {
    if at + count > |bytes| then Err(Truncated) else Ok(Got(bytes[at..at + count], at + count))
  }

  /** Reading a known field and skipping an unknown one move on alike. */
  function ReadPayload(bytes: seq<byte>, at: nat, wire: nat): (r: Result<Got<Payload>, ProtoError>)
    ensures r.Ok? && at <= |bytes| ==> at <= r.value.next <= |bytes|
  {
    if wire == 0 then
      var v :- ReadVarint(bytes, at);
      Ok(Got(Varint(v.value), v.next))
    else if wire == 1 then
      var b :- TakeBytes(bytes, at, 8);
      Ok(Got(Fixed64(b.value), b.next))
    else if wire == 2 then
      var b :- ReadBytes(bytes, at);
      Ok(Got(Bytes(b.value), b.next))
    else if wire == 5 then
      var b :- TakeBytes(bytes, at, 4);
      Ok(Got(Fixed32(b.value), b.next))
    else Err(UnsupportedWire(wire))
  }

  function ReadField(bytes: seq<byte>, at: nat): (r: Result<Got<Field>, ProtoError>)
    ensures r.Ok? ==> at < r.value.next <= |bytes|
  {
    var key :- ReadKey(bytes, at);
    var payload :- ReadPayload(bytes, key.next, key.value.1);
    Ok(Got(Field(key.value.0, payload.value), payload.next))
  }

  lemma KeyRoundTrip(bytes: seq<byte>, at: nat, f: Field)
    requires Stands(EncodeVarint(KeyOf(f)), bytes, at)
    ensures ReadKey(bytes, at) == Ok(Got((f.number, WireType(f.payload)), at + |EncodeVarint(KeyOf(f))|))
  {
    hide EncodeVarint, ReadVarint;
    VarintRoundTrip(bytes, at, KeyOf(f));
  }

  lemma PayloadRoundTrip(bytes: seq<byte>, at: nat, f: Field)
    requires FieldOk(f) && |bytes| < TWO_64 && Stands(PayloadBytes(f.payload), bytes, at)
    ensures ReadPayload(bytes, at, WireType(f.payload)) == Ok(Got(f.payload, at + |PayloadBytes(f.payload)|))
  {
    hide EncodeVarint, ReadVarint;
    match f.payload {
      case Varint(v) => VarintRoundTrip(bytes, at, v);
      case Bytes(data) =>
        StandsParts(EncodeVarint(|data|), data, bytes, at);
        VarintRoundTrip(bytes, at, |data|);
      case _ =>
    }
  }

  lemma FieldFromParts(bytes: seq<byte>, at: nat, f: Field, mid: nat, end: nat)
    requires ReadKey(bytes, at) == Ok(Got((f.number, WireType(f.payload)), mid))
    requires ReadPayload(bytes, mid, WireType(f.payload)) == Ok(Got(f.payload, end))
    ensures ReadField(bytes, at) == Ok(Got(f, end))
  {
    hide ReadKey, ReadPayload, WireType;
  }

  lemma StandsField(bytes: seq<byte>, at: nat, f: Field)
    requires Stands(EncodeField(f), bytes, at)
    ensures var key, payload := EncodeVarint(KeyOf(f)), PayloadBytes(f.payload);
            && Stands(key, bytes, at) && Stands(payload, bytes, at + |key|)
            && |EncodeField(f)| == |key| + |payload|
  {
    hide Stands, EncodeVarint, PayloadBytes, KeyOf;
    StandsParts(EncodeVarint(KeyOf(f)), PayloadBytes(f.payload), bytes, at);
  }

  /** Every field is read back from its encoding, wherever that stands. */
  lemma FieldRoundTrip(bytes: seq<byte>, at: nat, f: Field)
    requires FieldOk(f) && |bytes| < TWO_64 && Stands(EncodeField(f), bytes, at)
    ensures ReadField(bytes, at) == Ok(Got(f, at + |EncodeField(f)|))
  {
    hide Stands, EncodeField, EncodeVarint, KeyOf, PayloadBytes, ReadField, ReadKey, ReadPayload, WireType, FieldOk;
    var key, payload := EncodeVarint(KeyOf(f)), PayloadBytes(f.payload);
    StandsField(bytes, at, f);
    KeyRoundTrip(bytes, at, f);
    PayloadRoundTrip(bytes, at + |key|, f);
    FieldFromParts(bytes, at, f, at + |key|, at + |key| + |payload|);
  }

  lemma LengthCutShort(bytes: seq<byte>, at: nat, data: seq<byte>)
    requires CutShort(PayloadBytes(Bytes(data)), bytes, at) && at + |PayloadBytes(Bytes(data))| < TWO_64
    ensures ReadPayload(bytes, at, 2) == Err(Truncated)
  {
    hide EncodeVarint, ReadVarint, CutShort;
    var len := EncodeVarint(|data|);
    CutParts(len, data, bytes, at);
    if CutShort(len, bytes, at) {
      VarintCutShort(bytes, at, |data|);
    } else {
      VarintRoundTrip(bytes, at, |data|);
      assert |bytes| < at + |len| + |data| by { CutIsShorter(data, bytes, at + |len|); }
    }
  }

  lemma CutIsShorter(x: seq<byte>, bytes: seq<byte>, at: nat)
    requires CutShort(x, bytes, at)
    ensures at <= |bytes| < at + |x|
  {
  }

  /** A length-delimited field that is cut short anywhere is rejected. */
  lemma BytesFieldCutShort(bytes: seq<byte>, number: u32, data: seq<byte>)
    requires |EncodeField(Field(number, Bytes(data)))| < TWO_64
    requires CutShort(EncodeField(Field(number, Bytes(data))), bytes, 0)
    ensures ReadField(bytes, 0) == Err(Truncated)
  {
    hide EncodeVarint, ReadVarint, CutShort, Stands, PayloadBytes, KeyOf, ReadPayload;
    var f := Field(number, Bytes(data));
    var key := EncodeVarint(KeyOf(f));
    CutParts(key, PayloadBytes(f.payload), bytes, 0);
    if CutShort(key, bytes, 0) {
      VarintCutShort(bytes, 0, KeyOf(f));
    } else {
      KeyRoundTrip(bytes, 0, f);
      LengthCutShort(bytes, |key|, data);
    }
  }

  // ----------------------------------------------------------------- messages

  /** A decoder's loop: fields one after the other, each applied to the message so far. */
  function Walk<M>(apply: (M, Field) -> Result<M, ProtoError>, m: M, bytes: seq<byte>, at: nat): Result<M, ProtoError>
    decreases |bytes| - at
  {
    if |bytes| <= at then Ok(m)
    else
      var field :- ReadField(bytes, at);
      var m' :- apply(m, field.value);
      Walk(apply, m', bytes, field.next)
  }

  /** The same on a list of fields: a later field of the same number wins. */
  function Fold<M>(apply: (M, Field) -> Result<M, ProtoError>, m: M, fs: seq<Field>): Result<M, ProtoError> {
    var n := |fs| - 1;
    if n < 0 then Ok(m)
    else
      var m' :- Fold(apply, m, fs[..n]);
      apply(m', fs[n])
  }

  lemma {:induction false} FoldFirst<M>(apply: (M, Field) -> Result<M, ProtoError>, m: M, fs: seq<Field>)
    requires fs != []
    ensures Fold(apply, m, fs) ==
              match apply(m, fs[0])
              case Err(e) => Err(e)
              case Ok(m') => Fold(apply, m', fs[1..])
  {
    var n := |fs| - 1;
    if n > 0 {
      FoldFirst(apply, m, fs[..n]);
      assert fs[..n][1..] == fs[1..][..n - 1];
    }
  }

  lemma {:induction false} EncodeFieldsFirst(fs: seq<Field>)
    requires fs != []
    ensures EncodeFields(fs) == EncodeField(fs[0]) + EncodeFields(fs[1..])
  {
    var n := |fs| - 1;
    if n > 0 {
      EncodeFieldsFirst(fs[..n]);
      assert fs[..n][1..] == fs[1..][..n - 1];
    }
  }

  lemma {:induction false} WalkFolds<M>(apply: (M, Field) -> Result<M, ProtoError>, m: M, fs: seq<Field>,
                                        bytes: seq<byte>, at: nat)
    requires forall i :: 0 <= i < |fs| ==> FieldOk(fs[i])
    requires |bytes| < TWO_64 && Stands(EncodeFields(fs), bytes, at) && at + |EncodeFields(fs)| == |bytes|
    ensures Walk(apply, m, bytes, at) == Fold(apply, m, fs)
    decreases |fs|
  {
    hide ReadField, EncodeField, FieldOk;
    if fs != [] {
      EncodeFieldsFirst(fs);
      FoldFirst(apply, m, fs);
      hide EncodeFields, Fold;
      StandsParts(EncodeField(fs[0]), EncodeFields(fs[1..]), bytes, at);
      FieldRoundTrip(bytes, at, fs[0]);
      var next := at + |EncodeField(fs[0])|;
      match apply(m, fs[0]) {
        case Ok(m') => WalkFolds(apply, m', fs[1..], bytes, next);
        case Err(_) =>
      }
    }
  }

  /** Walking an encoded list of fields applies them in order. */
  lemma WalkOfEncoding<M>(apply: (M, Field) -> Result<M, ProtoError>, m: M, fs: seq<Field>)
    requires forall i :: 0 <= i < |fs| ==> FieldOk(fs[i])
    requires |EncodeFields(fs)| < TWO_64
    ensures Walk(apply, m, EncodeFields(fs), 0) == Fold(apply, m, fs)
  {
    WalkFolds(apply, m, fs, EncodeFields(fs), 0);
  }

  lemma {:induction false} FoldSplits<M>(apply: (M, Field) -> Result<M, ProtoError>, m: M, a: seq<Field>, b: seq<Field>)
    ensures Fold(apply, m, a + b) ==
              match Fold(apply, m, a)
              case Err(e) => Err(e)
              case Ok(m') => Fold(apply, m', b)
    decreases |b|
  {
    if b == [] {
      assert a + b == a;
    } else {
      var n := |b| - 1;
      assert (a + b)[..|a| + n] == a + b[..n];
      FoldSplits(apply, m, a, b[..n]);
    }
  }

  /** A field that changes nothing can be put anywhere between two fields. */
  lemma IdleFieldVanishes<M>(apply: (M, Field) -> Result<M, ProtoError>, m: M, a: seq<Field>, idle: Field, b: seq<Field>)
    requires forall x :: apply(x, idle) == Ok(x)
    ensures Fold(apply, m, a + [idle] + b) == Fold(apply, m, a + b)
  {
    FoldSplits(apply, m, a, b);
    FoldSplits(apply, m, a, [idle]);
    FoldSplits(apply, m, a + [idle], b);
    match Fold(apply, m, a) {
      case Ok(m') =>
        var none: seq<Field> := [];
        assert [idle][..0] == none;
        assert Fold(apply, m', [idle]) == apply(m', idle);
      case Err(_) =>
    }
  }
}
