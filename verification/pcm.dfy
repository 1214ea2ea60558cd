/** 16-bit PCM handling shared by the microphone encoder and the speech
    synthesiser: clamping, two's-complement little-endian byte packing and
    its inverse, the chunked conversion of a byte buffer to a "binary string"
    ahead of base64 encoding, and the conversion of a decoded binary string
    back into bytes for the avatar service. Samples arrive as reals: the
    single-precision rounding of `Float32Array` is not modelled. */
module Pcm {
  import opened Common

  /** Largest magnitude a packed sample may have. */
  const SampleMax := 32767

  /** `Math.max(-32767, Math.min(32767, x))`. */
  function ClampSample(x: int): (r: int)
    ensures -SampleMax <= r <= SampleMax
    ensures -SampleMax <= x <= SampleMax ==> r == x
    ensures x > SampleMax ==> r == SampleMax
    ensures x < -SampleMax ==> r == -SampleMax
  {
    if x > SampleMax then SampleMax else if x < -SampleMax then -SampleMax else x
  }

  /** `Math.max(-1, Math.min(1, s))`. */
  function ClampUnit(s: real): (c: real)
    ensures -1.0 <= c <= 1.0
    ensures -1.0 <= s <= 1.0 ==> c == s
  {
    if s > 1.0 then 1.0 else if s < -1.0 then -1.0 else s
  }

  /** `Math.floor(clamped * 32767)` for a microphone sample. */
  function FloatToSample(s: real): (x: int)
    ensures -SampleMax <= x <= SampleMax
    ensures 0.0 <= s ==> 0 <= x
  {
    (ClampUnit(s) * 32767.0).Floor
  }

  /** `x & 0xFF`: the low byte of the two's-complement representation. */
  function LowByte(x: int): byte {
    (x % 256) as byte
  }

  /** `(x >> 8) & 0xFF`: an arithmetic shift is a floor division by 256. */
  function HighByte(x: int): byte {
    ((x / 256) % 256) as byte
  }

  /** Little-endian two's-complement decoding of one 16-bit sample. */
  function DecodeSample(lo: byte, hi: byte): (x: int)
    ensures -32768 <= x <= 32767
  {
    var u := lo as int + 256 * hi as int;
    if u >= 32768 then u - 65536 else u
  }

  /** Every 16-bit value survives packing into two bytes. */
  lemma SampleRoundTrip(x: int)
    requires -32768 <= x <= 32767
    ensures DecodeSample(LowByte(x), HighByte(x)) == x
  {
    var q, r := x / 256, x % 256;
    assert x == 256 * q + r && 0 <= r < 256;
    assert -128 <= q <= 127;
    assert LowByte(x) as int == r;
    if q >= 0 {
      assert HighByte(x) as int == q;
    } else {
      assert q % 256 == q + 256;
      assert HighByte(x) as int == q + 256;
    }
  }

  /** Every byte pair is the packing of the sample it decodes to. */
  lemma BytesRoundTrip(lo: byte, hi: byte)
    ensures LowByte(DecodeSample(lo, hi)) == lo
    ensures HighByte(DecodeSample(lo, hi)) == hi
  {
    var u := lo as int + 256 * hi as int;
    if u >= 32768 {
      assert (u - 65536) % 256 == lo as int;
      assert (u - 65536) / 256 == hi as int - 256;
    }
  }

  /** Packs samples as consecutive little-endian byte pairs. */
  function Pack(xs: seq<int>): (r: seq<byte>)
    ensures |r| == 2 * |xs|
    ensures forall i :: 0 <= i < |xs| ==> r[2 * i] == LowByte(xs[i]) && r[2 * i + 1] == HighByte(xs[i])
  {
    seq(2 * |xs|, j requires 0 <= j < 2 * |xs| => if j % 2 == 0 then LowByte(xs[j / 2]) else HighByte(xs[j / 2]))
  }

  /** Reads a byte buffer back as little-endian 16-bit samples. */
  function Unpack(b: seq<byte>): (xs: seq<int>)
    requires |b| % 2 == 0
    ensures |xs| == |b| / 2
    ensures forall i :: 0 <= i < |xs| ==> xs[i] == DecodeSample(b[2 * i], b[2 * i + 1])
  {
    seq(|b| / 2, i requires 0 <= i < |b| / 2 => DecodeSample(b[2 * i], b[2 * i + 1]))
  }

  predicate InSampleRange(xs: seq<int>) {
    forall i :: 0 <= i < |xs| ==> -32768 <= xs[i] <= 32767
  }

  /** Decoding a packed buffer recovers the samples. */
  lemma PackUnpack(xs: seq<int>)
    requires InSampleRange(xs)
    ensures Unpack(Pack(xs)) == xs
  {
    var ys := Unpack(Pack(xs));
    forall i | 0 <= i < |xs|
      ensures ys[i] == xs[i]
    {
      SampleRoundTrip(xs[i]);
    }
  }

  /** Packing the decoded samples of a buffer gives the buffer back. */
  lemma UnpackPack(b: seq<byte>)
    requires |b| % 2 == 0
    ensures Pack(Unpack(b)) == b
  {
    var xs := Unpack(b);
    var r := Pack(xs);
    forall i | 0 <= i < |xs|
      ensures r[2 * i] == b[2 * i] && r[2 * i + 1] == b[2 * i + 1]
    {
      BytesRoundTrip(b[2 * i], b[2 * i + 1]);
    }
    forall j | 0 <= j < |b|
      ensures r[j] == b[j]
    {
      var i := j / 2;
      assert j == 2 * i || j == 2 * i + 1;
    }
  }

  /** The microphone path: each float sample quantised, then packed. */
  function EncodeFrame(samples: seq<real>): (bytes: seq<byte>)
    ensures |bytes| == 2 * |samples|
    ensures forall i :: 0 <= i < |samples| ==>
      -SampleMax <= DecodeSample(bytes[2 * i], bytes[2 * i + 1]) <= SampleMax
    ensures Unpack(bytes) == seq(|samples|, i requires 0 <= i < |samples| => FloatToSample(samples[i]))
  {
    var xs := seq(|samples|, i requires 0 <= i < |samples| => FloatToSample(samples[i]));
    PackUnpack(xs);
    Pack(xs)
  }

  /** `String.fromCharCode` over bytes: one character per byte. */
  function BinaryString(b: seq<byte>): (s: string)
    ensures |s| == |b|
  {
    seq(|b|, i requires 0 <= i < |b| => b[i] as int as char)
  }

  lemma BinaryStringAppend(x: seq<byte>, y: seq<byte>)
    ensures BinaryString(x + y) == BinaryString(x) + BinaryString(y)
  {
  }

  /** Size of the slices handed to `String.fromCharCode` at once. */
  const ChunkSize := 8192

  /** The binary string is built slice by slice of at most 8192 bytes; the
      result is the whole-buffer conversion. */
  method ChunkedBinaryString(b: seq<byte>) returns (s: string)
    ensures s == BinaryString(b)
  {
    s := "";
    var i := 0;
    while i < |b|
      invariant 0 <= i
      invariant i < |b| ==> s == BinaryString(b[..i])
      invariant i >= |b| ==> s == BinaryString(b)
      decreases |b| - i
    {
      var end := if i + ChunkSize < |b| then i + ChunkSize else |b|;
      BinaryStringAppend(b[..i], b[i..end]);
      assert b[..i] + b[i..end] == b[..end];
      s := s + BinaryString(b[i..end]);
      i := i + ChunkSize;
    }
  }

  /** The bytes of a decoded binary string: a `Uint8Array` keeps each
      character code modulo 256. */
  function Latin1Bytes(s: string): (b: seq<byte>)
    ensures |b| == |s|
  {
    seq(|s|, i requires 0 <= i < |s| => (s[i] as int % 256) as byte)
  }

  /** The copying loop that turns `atob`'s output into a `Uint8Array`. */
  method BytesOfBinaryString(s: string) returns (bytes: seq<byte>)
    ensures bytes == Latin1Bytes(s)
  {
    bytes := [];
    var i := 0;
    while i < |s|
      invariant 0 <= i <= |s|
      invariant bytes == Latin1Bytes(s[..i])
    {
      bytes := bytes + [(s[i] as int % 256) as byte];
      i := i + 1;
    }
    assert s[..i] == s;
  }

  /** A byte buffer turned into a binary string and back is unchanged. */
  lemma BinaryStringBytes(b: seq<byte>)
    ensures Latin1Bytes(BinaryString(b)) == b
  {
  }
}
