/** Which bytes the decoder takes for a file name: the UTF-8 encodings of Unicode scalar values (section 3 of
    RFC 3629) and nothing else. */
module BlobNames {
  import opened Basics
  import opened BlobMessages

  type Scalar = c: int | 0 <= c < 0x11_0000 && !(0xD800 <= c < 0xE000) witness 0

  function EncodeScalar(c: Scalar): (b: Bytes)
    ensures b != []
  {
    if c < 0x80 then [c]
    else if c < 0x800 then [0xC0 + c / 64, 0x80 + c % 64]
    else if c < 0x1_0000 then [0xE0 + c / 64 / 64, 0x80 + c / 64 % 64, 0x80 + c % 64]
    else [0xF0 + c / 64 / 64 / 64, 0x80 + c / 64 / 64 % 64, 0x80 + c / 64 % 64, 0x80 + c % 64]
  }

  function EncodeScalars(cs: seq<Scalar>): Bytes {
    if cs == [] then [] else EncodeScalar(cs[0]) + EncodeScalars(cs[1..])
  }

  /** An encoded scalar is recognised at its length, whatever follows. */
  lemma ScalarIsRecognised(c: Scalar, tail: Bytes)
    ensures FirstCharacter(EncodeScalar(c) + tail) == |EncodeScalar(c)|
  {
    var b := EncodeScalar(c) + tail;
    assert forall i :: 0 <= i < |EncodeScalar(c)| ==> b[i] == EncodeScalar(c)[i];
  }

  lemma SixBits(high: nat, low: nat)
    requires low < 64
    ensures (high * 64 + low) / 64 == high && (high * 64 + low) % 64 == low
  {
  }

  /** The six bits that a byte adds. */
  function Bits(b: byte): (n: int)
    ensures Tail(b) ==> 0 <= n < 64
  {
    b as int - 0x80
  }

  lemma PairIsScalar(b: Bytes) returns (c: Scalar)
    requires b != [] && FirstCharacter(b) == 2
    ensures EncodeScalar(c) == b[..2]
  {
    c := (b[0] as int - 0xC0) * 64 + Bits(b[1]);
    SixBits(b[0] as int - 0xC0, Bits(b[1]));
  }

  lemma TripleIsScalar(b: Bytes) returns (c: Scalar)
    requires b != [] && FirstCharacter(b) == 3
    ensures EncodeScalar(c) == b[..3]
  {
    var high := (b[0] as int - 0xE0) * 64 + Bits(b[1]);
    c := high * 64 + Bits(b[2]);
    SixBits(b[0] as int - 0xE0, Bits(b[1]));
    SixBits(high, Bits(b[2]));
  }

  lemma QuadIsScalar(b: Bytes) returns (c: Scalar)
    requires b != [] && FirstCharacter(b) == 4
    ensures EncodeScalar(c) == b[..4]
  {
    var higher := (b[0] as int - 0xF0) * 64 + Bits(b[1]);
    var high := higher * 64 + Bits(b[2]);
    c := high * 64 + Bits(b[3]);
    SixBits(b[0] as int - 0xF0, Bits(b[1]));
    SixBits(higher, Bits(b[2]));
    SixBits(high, Bits(b[3]));
  }

  /** What is recognised is an encoded scalar. */
  lemma RecognisedIsScalar(b: Bytes) returns (c: Scalar)
    requires b != [] && FirstCharacter(b) > 0
    ensures EncodeScalar(c) == b[..FirstCharacter(b)]
  {
    match FirstCharacter(b)
    case 1 => c := b[0];
    case 2 => c := PairIsScalar(b);
    case 3 => c := TripleIsScalar(b);
    case _ => c := QuadIsScalar(b);
  }

  lemma {:induction false} EncodedIsUtf8(cs: seq<Scalar>)
    ensures Utf8(EncodeScalars(cs))
  {
    if cs != [] {
      ScalarIsRecognised(cs[0], EncodeScalars(cs[1..]));
      EncodedIsUtf8(cs[1..]);
    }
  }

  lemma {:induction false} Utf8IsEncoded(b: Bytes) returns (cs: seq<Scalar>)
    requires Utf8(b)
    ensures EncodeScalars(cs) == b
    decreases |b|
  {
    hide FirstCharacter, EncodeScalar;
    if b == [] {
      cs := [];
    } else {
      var c := RecognisedIsScalar(b);
      var rest := Utf8IsEncoded(b[FirstCharacter(b)..]);
      cs := [c] + rest;
    }
  }

  /** A name is accepted if and only if it encodes some text. */
  lemma NameIsTextWhen(b: Bytes)
    ensures Utf8(b) <==> exists cs :: EncodeScalars(cs) == b
  {
    if Utf8(b) {
      var cs := Utf8IsEncoded(b);
    }
    if cs :| EncodeScalars(cs) == b { EncodedIsUtf8(cs); }
  }
}
