/** Audio sample conversion done by the capture callback before each frame is sent: every
    captured sample is clamped to the signed 16-bit range and stored into an `Int16Array`,
    whose buffer is then read as little-endian bytes. */
module Pcm {

  type byte = x: int | 0 <= x < 256

  const MinSample: int := -32768
  const MaxSample: int := 32767

  predicate InRange(x: int) {
    MinSample <= x <= MaxSample
  }

  function Min(a: int, b: int): int { if a <= b then a else b }
  function Max(a: int, b: int): int { if a >= b then a else b }

  /** `Math.max(-32768, Math.min(32767, x))`: saturates instead of wrapping. */
  function Clamp16(x: int): (r: int)
    ensures InRange(r)
    ensures InRange(x) ==> r == x
    ensures x < MinSample ==> r == MinSample
    ensures x > MaxSample ==> r == MaxSample
  {
    Max(MinSample, Min(MaxSample, x))
  }

  /** The conversion an `Int16Array` element store applies to an integer: reduction modulo
      2^16 into the signed range. */
  function ToInt16(x: int): (r: int)
    ensures InRange(r)
    ensures (r - x) % 65536 == 0
  {
    (x + 32768) % 65536 - 32768
  }

  /** Because of the clamp, storing a clamped sample never wraps around. */
  lemma ClampPreventsWrap(x: int)
    ensures ToInt16(Clamp16(x)) == Clamp16(x)
  {
    var c := Clamp16(x);
    assert 0 <= c + 32768 < 65536;
  }

  /** The clamped value of every sample of a frame. */
  function ClampAll(input: seq<int>): (out: seq<int>)
    ensures |out| == |input|
    ensures forall i :: 0 <= i < |input| ==> out[i] == Clamp16(input[i])
  {
    seq(|input|, i requires 0 <= i < |input| => Clamp16(input[i]))
  }

  /** The `for` loop of the capture callback: fills a fresh 16-bit buffer with the clamped
      samples. */
  method ClampFrame(input: seq<int>) returns (output: array<int>)
    ensures output.Length == |input|
    ensures output[..] == ClampAll(input)
    ensures forall i :: 0 <= i < output.Length ==> InRange(output[i])
  {
    output := new int[|input|];
    for i := 0 to |input|
      invariant forall k :: 0 <= k < i ==> output[k] == Clamp16(input[k])
    {
      ClampPreventsWrap(input[i]);
      output[i] := ToInt16(Clamp16(input[i]));
    }
  }

  /** The two little-endian bytes of a signed 16-bit sample (two's complement). */
  function SampleBytes(s: int): (b: seq<byte>)
    requires InRange(s)
    ensures |b| == 2
  {
    var u := if s < 0 then s + 65536 else s;
    [u % 256, u / 256]
  }

  /** The sample that two little-endian bytes encode. */
  function DecodeSample(lo: byte, hi: byte): (s: int)
    ensures InRange(s)
  {
    var u := lo + 256 * hi;
    if u >= 32768 then u - 65536 else u
  }

  lemma SampleRoundTrip(s: int)
    requires InRange(s)
    ensures DecodeSample(SampleBytes(s)[0], SampleBytes(s)[1]) == s
  {
    var u := if s < 0 then s + 65536 else s;
    assert u % 256 + 256 * (u / 256) == u;
  }

  /** The bytes of `new Uint8Array(output.buffer)` on a little-endian platform. */
  function EncodeLe(samples: seq<int>): (bytes: seq<byte>)
    requires forall i :: 0 <= i < |samples| ==> InRange(samples[i])
    ensures |bytes| == 2 * |samples|
  {
    if |samples| == 0 then [] else SampleBytes(samples[0]) + EncodeLe(samples[1..])
  }

  /** Reads samples back from little-endian bytes: the receiving side of an audio frame. */
  function DecodeLe(bytes: seq<byte>): (samples: seq<int>)
    requires |bytes| % 2 == 0
    ensures |samples| == |bytes| / 2
    ensures forall i :: 0 <= i < |samples| ==> InRange(samples[i])
  {
    if |bytes| == 0 then [] else [DecodeSample(bytes[0], bytes[1])] + DecodeLe(bytes[2..])
  }

  /** `String.fromCharCode(...bytes)`: one character per byte, whose code is the byte. */
  function ByteString(bytes: seq<byte>): (s: string)
    ensures |s| == |bytes|
    ensures forall i :: 0 <= i < |bytes| ==> s[i] as int == bytes[i]
  {
    seq(|bytes|, i requires 0 <= i < |bytes| => bytes[i] as char)
  }

  /** The byte each character of a binary string stands for (`charCodeAt`), for characters
      below 256. */
  function CharCodes(s: string): (bytes: seq<byte>)
    requires forall i :: 0 <= i < |s| ==> s[i] as int < 256
    ensures |bytes| == |s|
  {
    seq(|s|, i requires 0 <= i < |s| => s[i] as int)
  }

  /** The binary string of the audio buffer loses no byte. */
  lemma CharCodesByteString(bytes: seq<byte>)
    ensures CharCodes(ByteString(bytes)) == bytes
  {
  }

  /** What the service decodes from a frame is exactly the clamped samples. */
  lemma {:induction false} DecodeEncode(samples: seq<int>)
    requires forall i :: 0 <= i < |samples| ==> InRange(samples[i])
    ensures DecodeLe(EncodeLe(samples)) == samples
  {
    if |samples| > 0 {
      var bytes := EncodeLe(samples);
      SampleRoundTrip(samples[0]);
      assert bytes[2..] == EncodeLe(samples[1..]);
      DecodeEncode(samples[1..]);
      assert samples == [samples[0]] + samples[1..];
    }
  }
}
