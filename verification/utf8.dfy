/** What the protocol's strings may be: the UTF-8 encodings of sequences of Unicode scalar values. */
module Utf8Texts {
  import opened Wrappers
  import opened Messages

  /** A code point that is not a surrogate. */
  predicate IsScalar(c: nat) { c < 0xD800 || 0xE000 <= c < 0x11_0000 }

  /** Up to 7, 11, 16 or 21 bits, in a leading byte and groups of six (RFC 3629, section 3). */
  function EncodeScalar(c: nat): seq<byte>
    requires IsScalar(c)
  {
    if c < 0x80 then [c]
    else if c < 0x800 then [0xC0 + c / 64, 0x80 + c % 64]
    else if c < 0x1_0000 then [0xE0 + c / 4096, 0x80 + c / 64 % 64, 0x80 + c % 64]
    else [0xF0 + c / 262144, 0x80 + c / 4096 % 64, 0x80 + c / 64 % 64, 0x80 + c % 64]
  }

  ghost predicate AreScalars(text: seq<nat>) { forall i :: 0 <= i < |text| ==> IsScalar(text[i]) }

  function EncodeText(text: seq<nat>): seq<byte>
    requires AreScalars(text)
  {
    if |text| == 0 then [] else EncodeScalar(text[0]) + EncodeText(text[1..])
  }

  /** The groups of six of a number. */
  lemma Groups(h: nat, i: nat, k: nat, l: nat)
    requires i < 64 && k < 64 && l < 64
    ensures var c := ((h * 64 + i) * 64 + k) * 64 + l;
            c / 262144 == h && c / 4096 % 64 == i && c / 64 % 64 == k && c % 64 == l
  {
    var c := ((h * 64 + i) * 64 + k) * 64 + l;
    assert c / 64 == (h * 64 + i) * 64 + k;
    assert c / 4096 == h * 64 + i;
  }

  /** The code point that a sequence of three bytes encodes, unless it is overlong or a surrogate. */
  lemma OfThree(h: nat, k: nat, l: nat) returns (c: nat)
    requires h < 16 && k < 64 && l < 64
    requires h == 0 ==> k >= 32
    requires h == 13 ==> k < 32
    ensures IsScalar(c) && EncodeScalar(c) == [0xE0 + h, 0x80 + k, 0x80 + l]
  {
    Groups(0, h, k, l);
    c := (h * 64 + k) * 64 + l;
    assert c / 4096 == h;
  }

  /** And of four, unless it is overlong or beyond the last code point. */
  lemma OfFour(h: nat, i: nat, k: nat, l: nat) returns (c: nat)
    requires h < 5 && i < 64 && k < 64 && l < 64
    requires h == 0 ==> i >= 16
    requires h == 4 ==> i < 16
    ensures IsScalar(c) && EncodeScalar(c) == [0xF0 + h, 0x80 + i, 0x80 + k, 0x80 + l]
  {
    Groups(h, i, k, l);
    c := ((h * 64 + i) * 64 + k) * 64 + l;
  }

  lemma FrontIsScalar(b: seq<byte>) returns (c: nat)
    requires Utf8Length(b) > 0
    ensures IsScalar(c) && EncodeScalar(c) == b[..Utf8Length(b)]
  {
    var n := Utf8Length(b);
    if n == 1 {
      c := b[0];
    } else if n == 2 {
      Groups(0, 0, b[0] - 0xC0, b[1] - 0x80);
      c := (b[0] as int - 0xC0) * 64 + (b[1] as int - 0x80);
    } else {
      hide EncodeScalar, IsScalar;
      if n == 3 {
        c := OfThree(b[0] - 0xE0, b[1] - 0x80, b[2] - 0x80);
      } else {
        c := OfFour(b[0] - 0xF0, b[1] - 0x80, b[2] - 0x80, b[3] - 0x80);
      }
    }
  }

  lemma ScalarIsFront(c: nat, rest: seq<byte>)
    requires IsScalar(c)
    ensures Utf8Length(EncodeScalar(c) + rest) == |EncodeScalar(c)|
  {
    var bytes := EncodeScalar(c) + rest;
  }

  lemma {:induction false} EncodingIsValid(text: seq<nat>)
    requires AreScalars(text)
    ensures ValidUtf8(EncodeText(text))
  {
    if |text| > 0 {
      hide Utf8Length, EncodeScalar;
      EncodingIsValid(text[1..]);
      ScalarIsFront(text[0], EncodeText(text[1..]));
    }
  }

  lemma {:induction false} ValidIsEncoding(b: seq<byte>) returns (text: seq<nat>)
    requires ValidUtf8(b)
    ensures AreScalars(text) && EncodeText(text) == b
    decreases |b|
  {
    text := [];
    if |b| > 0 {
      hide Utf8Length, EncodeScalar, IsScalar;
      var c := FrontIsScalar(b);
      var rest := ValidIsEncoding(b[Utf8Length(b)..]);
      text := [c] + rest;
      assert text[1..] == rest;
    }
  }

  /** A string is accepted if and only if it encodes some sequence of scalar values. */
  lemma Utf8IsEncodedText(b: seq<byte>)
    ensures Text(b).Ok? <==> exists text :: AreScalars(text) && EncodeText(text) == b
    ensures Text(b).Ok? ==> Text(b).value == b
  {
    if ValidUtf8(b) {
      var text := ValidIsEncoding(b);
    }
    if text :| AreScalars(text) && EncodeText(text) == b {
      EncodingIsValid(text);
    }
  }
}
