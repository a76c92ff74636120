// The little-endian blob format of stored embeddings. A word is the bit
// pattern of a 32-bit float.

module Codec {
  import opened Wrappers

  type Byte = x: int | 0 <= x < 0x100
  type Word = x: int | 0 <= x < 0x1_0000_0000

  datatype CodecError = LengthNotMultipleOf4(length: nat)

  function WordToBytes(w: Word): (b: seq<Byte>)
    ensures |b| == 4
  {
    var w1: int := w / 0x100;
    var w2: int := w1 / 0x100;
    [w % 0x100, w1 % 0x100, w2 % 0x100, w2 / 0x100]
  }

  function BytesToWord(b: seq<Byte>): Word
    requires |b| == 4
  {
    var b0: int, b1: int, b2: int, b3: int := b[0], b[1], b[2], b[3];
    b0 + 0x100 * b1 + 0x1_0000 * b2 + 0x100_0000 * b3
  }

  function Encode(v: seq<Word>): (b: seq<Byte>)
    ensures |b| == 4 * |v|
  {
    if v == [] then [] else WordToBytes(v[0]) + Encode(v[1..])
  }

  function Decode(b: seq<Byte>): (v: seq<Word>)
    requires |b| % 4 == 0
    ensures 4 * |v| == |b|
  {
    if b == [] then [] else [BytesToWord(b[..4])] + Decode(b[4..])
  }

  method EmbeddingToBytes(v: seq<Word>) returns (out: seq<Byte>)
    ensures out == Encode(v)
  {
    out := [];
    for i := 0 to |v|
      invariant out + Encode(v[i..]) == Encode(v)
    {
      assert v[i..][1..] == v[i + 1..];
      out := out + WordToBytes(v[i]);
    }
  }

  /** Decodes into a reused buffer, which is left alone when the length is wrong. */
  method BytesToEmbeddingInto(bytes: seq<Byte>, buffer: seq<Word>) returns (r: Result<(), CodecError>, out: seq<Word>)
    ensures r.Err? <==> |bytes| % 4 != 0
    ensures r.Ok? ==> out == Decode(bytes)
    ensures r.Err? ==> out == buffer && r.error == LengthNotMultipleOf4(|bytes|)
  {
    if |bytes| % 4 != 0 {
      return Err(LengthNotMultipleOf4(|bytes|)), buffer;
    }
    out := [];
    var i := 0;
    while i < |bytes|
      invariant 0 <= i <= |bytes| && i % 4 == 0
      invariant out + Decode(bytes[i..]) == Decode(bytes)
    {
      assert bytes[i..][..4] == bytes[i..i + 4] && bytes[i..][4..] == bytes[i + 4..];
      out := out + [BytesToWord(bytes[i..i + 4])];
      i := i + 4;
    }
    r := Ok(());
  }

  lemma WordRoundTrip(w: Word)
    ensures BytesToWord(WordToBytes(w)) == w
  {
  }

  lemma LowByte(r: int, q: int)
    requires 0 <= r < 0x100
    ensures (r + 0x100 * q) % 0x100 == r && (r + 0x100 * q) / 0x100 == q
  {
  }

  lemma BytesRoundTrip(b: seq<Byte>)
    requires |b| == 4
    ensures WordToBytes(BytesToWord(b)) == b
  {
    var w: int := BytesToWord(b);
    var b0: int, b1: int, b2: int, b3: int := b[0], b[1], b[2], b[3];
    var w2 := b2 + 0x100 * b3;
    var w1 := b1 + 0x100 * w2;
    LowByte(b2, b3);
    LowByte(b1, w2);
    LowByte(b0, w1);
    assert w == b0 + 0x100 * w1;
  }

  /** Reading back what was written returns the vector, bit for bit. */
  lemma {:induction false} DecodeEncode(v: seq<Word>)
    ensures Decode(Encode(v)) == v
  {
    if v != [] {
      DecodeEncode(v[1..]);
      WordRoundTrip(v[0]);
      assert Encode(v)[..4] == WordToBytes(v[0]) && Encode(v)[4..] == Encode(v[1..]);
    }
  }

  /** Every blob of a whole number of words is the encoding of exactly one vector. */
  lemma {:induction false} EncodeDecode(b: seq<Byte>)
    requires |b| % 4 == 0
    ensures Encode(Decode(b)) == b
  {
    if b != [] {
      EncodeDecode(b[4..]);
      BytesRoundTrip(b[..4]);
      assert b[..4] + b[4..] == b;
      assert Decode(b)[1..] == Decode(b[4..]);
    }
  }

  /** Four bytes a word, the lowest first. */
  lemma {:induction false} LowestByteFirst(v: seq<Word>, i: nat)
    requires i < |v|
    ensures var b := Encode(v);
            var b0: int, b1: int, b2: int, b3: int := b[4 * i], b[4 * i + 1], b[4 * i + 2], b[4 * i + 3];
            v[i] == b0 + 0x100 * b1 + 0x1_0000 * b2 + 0x100_0000 * b3
  {
    if i == 0 {
      WordRoundTrip(v[0]);
    } else {
      LowestByteFirst(v[1..], i - 1);
      assert Encode(v)[4..] == Encode(v[1..]);
    }
  }
}
