/** The 16-bit PCM helpers of the voice call: `createBlob` turns a microphone
    frame into an outbound chunk, `decode` turns a received binary string into
    bytes, and `decodeAudioData` reads those bytes as 16-bit samples and splits
    them by channel.

    Samples are exact reals; the 16-bit codes, the bytes and the channel layout
    are exactly those of the typed arrays the component uses (little-endian
    byte order). */
module Pcm {
  import opened Wrappers

  /** A value a `Uint8Array` element can hold. */
  type Byte = x: int | 0 <= x < 256

  /** A value an `Int16Array` element can hold. */
  type Int16 = x: int | -32768 <= x < 32768

  /** MIME type of every outbound chunk. */
  const PcmMimeType: string := "audio/pcm;rate=16000"

  /** Factor between a normalised sample and its 16-bit code. */
  const Scale: real := 32768.0

  /** Bounds the Web Audio API puts on `createBuffer`'s sample rate. */
  const MinSampleRate: nat := 3000
  const MaxSampleRate: nat := 768000

  /** An outbound chunk. `data` is the binary string (one character per byte)
      that is handed to the browser's base64 encoder. */
  datatype Blob = Blob(data: string, mimeType: string)

  /** Why `decodeAudioData` throws: the `Int16Array` view needs an even byte
      count, and `createBuffer` refuses zero channels, zero frames and a sample
      rate outside its range. */
  datatype DecodeError = OddByteLength | UnsupportedBuffer

  /** A decoded `AudioBuffer`: `length` frames per channel at `sampleRate`. */
  datatype AudioData = AudioData(sampleRate: nat, length: nat, channels: seq<seq<real>>) {
    function Duration(): (d: real)
      requires sampleRate > 0
      ensures d >= 0.0
    {
      length as real / sampleRate as real
    }
  }

  // ---------------------------------------------------------------------------
  // Sample codes
  // ---------------------------------------------------------------------------

  /** Conversion of a finite number to an integer: truncation toward zero. */
  function Truncate(x: real): (n: int)
    ensures x >= 0.0 ==> 0 <= n && n as real <= x < n as real + 1.0
    ensures x < 0.0 ==> n <= 0 && n as real - 1.0 < x <= n as real
  {
    if x >= 0.0 then x.Floor else -((-x).Floor)
  }

  /** Reduction of an integer modulo 2^16 into the signed 16-bit range, as a
      store into an `Int16Array` does. */
  function Wrap16(n: int): (v: Int16)
    ensures (v - n) % 65536 == 0
    ensures -32768 <= n < 32768 ==> v == n
  {
    var m := n % 65536;
    if m >= 32768 then m - 65536 else m
  }

  /** The normalised value of a 16-bit code, as `decodeAudioData` computes it. */
  function Dequantize(v: Int16): (x: real)
    ensures -1.0 <= x < 1.0
  {
    v as real / Scale
  }

  /** The code `createBlob` stores for one sample: the sample times 32768,
      truncated and wrapped, never clamped. Within 1/32768 of the sample for
      every sample in [-1, 1); see FullScaleSampleWraps for 1.0 itself. */
  function Quantize(x: real): (v: Int16)
    ensures -1.0 <= x < 1.0 ==> x - 1.0 / Scale < Dequantize(v) < x + 1.0 / Scale
  {
    Wrap16(Truncate(x * Scale))
  }

  /** The full-scale positive sample wraps to the most negative code, so it
      decodes as -1.0 instead of (nearly) 1.0. */
  lemma FullScaleSampleWraps()
    ensures Truncate(1.0 * Scale) == 32768
    ensures Quantize(1.0) == -32768
    ensures Dequantize(Quantize(1.0)) == -1.0
  {
  }

  /** The quantisation the round trip needs: truncate, then saturate at the
      ends of the 16-bit range. Within 1/32768 of every sample in [-1, 1]. */
  function QuantizeClamped(x: real): (v: Int16)
    ensures -1.0 <= x <= 1.0 ==> x - 1.0 / Scale <= Dequantize(v) <= x + 1.0 / Scale
    ensures -1.0 <= x < 1.0 ==> v == Quantize(x)
  {
    var t := Truncate(x * Scale);
    if t > 32767 then 32767 else if t < -32768 then -32768 else t
  }

  function Quantized(xs: seq<real>): (vs: seq<Int16>)
    ensures |vs| == |xs|
  {
    seq(|xs|, i requires 0 <= i < |xs| => Quantize(xs[i]))
  }

  function QuantizedClamped(xs: seq<real>): (vs: seq<Int16>)
    ensures |vs| == |xs|
  {
    seq(|xs|, i requires 0 <= i < |xs| => QuantizeClamped(xs[i]))
  }

  // ---------------------------------------------------------------------------
  // Little-endian byte layout of an Int16Array's buffer
  // ---------------------------------------------------------------------------

  /** The first byte an `Int16Array` element occupies: the low eight bits of
      its two's-complement pattern. */
  function LowByte(v: Int16): (b: Byte)
    ensures (v - b) % 256 == 0
  {
    (v % 65536) % 256
  }

  /** The second byte: together with the first it spells the 16-bit pattern. */
  function HighByte(v: Int16): (h: Byte)
    ensures 256 * h + LowByte(v) == v % 65536
  {
    (v % 65536) / 256
  }

  /** The element two bytes of the buffer read as: the code whose 16-bit
      pattern they spell, low byte first. */
  function FromBytes(lo: Byte, hi: Byte): (v: Int16)
    ensures v % 65536 == lo + 256 * hi
    ensures v < 0 <==> hi >= 128
  {
    var u := lo + 256 * hi;
    if u >= 32768 then u - 65536 else u
  }

  lemma BytesOfCode(v: Int16)
    ensures FromBytes(LowByte(v), HighByte(v)) == v
  {
  }

  lemma CodeOfBytes(lo: Byte, hi: Byte)
    ensures LowByte(FromBytes(lo, hi)) == lo && HighByte(FromBytes(lo, hi)) == hi
  {
  }

  /** The bytes of an `Int16Array`'s buffer: two per code, low byte first. */
  function EncodeLE(xs: seq<Int16>): (b: seq<Byte>)
    ensures |b| == 2 * |xs|
  {
    seq(2 * |xs|, k requires 0 <= k < 2 * |xs| =>
      if k % 2 == 0 then LowByte(xs[k / 2]) else HighByte(xs[k / 2]))
  }

  /** The elements of an `Int16Array` viewing an even number of bytes. */
  function DecodeLE(b: seq<Byte>): (xs: seq<Int16>)
    requires |b| % 2 == 0
    ensures |xs| == |b| / 2
  {
    seq(|b| / 2, i requires 0 <= i < |b| / 2 => FromBytes(b[2 * i], b[2 * i + 1]))
  }

  lemma EncodeLEAt(xs: seq<Int16>, i: nat)
    requires i < |xs|
    ensures EncodeLE(xs)[2 * i] == LowByte(xs[i]) && EncodeLE(xs)[2 * i + 1] == HighByte(xs[i])
  {
    assert (2 * i) % 2 == 0 && (2 * i) / 2 == i;
    assert (2 * i + 1) % 2 == 1 && (2 * i + 1) / 2 == i;
  }

  /** Viewing the buffer of an `Int16Array` as bytes and back gives the codes. */
  lemma {:induction false} DecodeEncodeLE(xs: seq<Int16>)
    ensures DecodeLE(EncodeLE(xs)) == xs
  {
    var b := EncodeLE(xs);
    var ys := DecodeLE(b);
    assert |ys| == |xs|;
    forall i | 0 <= i < |xs|
      ensures ys[i] == xs[i]
    {
      EncodeLEAt(xs, i);
      assert ys[i] == FromBytes(b[2 * i], b[2 * i + 1]);
      BytesOfCode(xs[i]);
    }
  }

  /** Viewing an even number of bytes as codes and back gives the bytes. */
  lemma {:induction false} EncodeDecodeLE(b: seq<Byte>)
    requires |b| % 2 == 0
    ensures EncodeLE(DecodeLE(b)) == b
  {
    var xs := DecodeLE(b);
    forall k | 0 <= k < |b|
      ensures EncodeLE(xs)[k] == b[k]
    {
      var i := k / 2;
      CodeOfBytes(b[2 * i], b[2 * i + 1]);
    }
  }

  // ---------------------------------------------------------------------------
  // Binary strings
  // ---------------------------------------------------------------------------

  /** `String.fromCharCode(...bytes)`: one character per byte. */
  function BinaryString(b: seq<Byte>): (s: string)
    ensures |s| == |b|
  {
    seq(|b|, i requires 0 <= i < |b| => b[i] as char)
  }

  /** The bytes `decode` stores: each character code, reduced modulo 256 by the
      `Uint8Array` store. */
  function DecodeBinary(s: string): (b: seq<Byte>)
    ensures |b| == |s|
  {
    seq(|s|, i requires 0 <= i < |s| => (s[i] as int) % 256)
  }

  lemma {:induction false} BinaryStringRoundTrip(b: seq<Byte>)
    ensures DecodeBinary(BinaryString(b)) == b
  {
    var s := BinaryString(b);
    forall i | 0 <= i < |b|
      ensures DecodeBinary(s)[i] == b[i]
    {
      assert s[i] == b[i] as char;
    }
  }

  // ---------------------------------------------------------------------------
  // Channel split
  // ---------------------------------------------------------------------------

  /** Frame `i` of channel `c` lies inside the interleaved codes. */
  lemma InterleavedIndex(i: nat, c: nat, numChannels: nat, n: nat)
    requires c < numChannels && i < n / numChannels
    ensures i * numChannels + c < n
  {
    var q := n / numChannels;
    assert q * numChannels <= n;
    assert i + 1 <= q;
    assert (i + 1) * numChannels <= q * numChannels;
  }

  /** Interleaved codes split by channel: frame `i` of channel `c` is code
      `i * numChannels + c` divided by 32768; the frame count is the code count
      divided by the channel count, truncated. */
  function Deinterleave(codes: seq<Int16>, numChannels: nat): (channels: seq<seq<real>>)
    requires numChannels > 0
    ensures |channels| == numChannels
    ensures forall c :: 0 <= c < numChannels ==> |channels[c]| == |codes| / numChannels
  {
    seq(numChannels, c requires 0 <= c < numChannels => Channel(codes, numChannels, c))
  }

  function Channel(codes: seq<Int16>, numChannels: nat, c: nat): (samples: seq<real>)
    requires c < numChannels
    ensures |samples| == |codes| / numChannels
    ensures forall i :: 0 <= i < |samples| ==> -1.0 <= samples[i] < 1.0
  {
    var frameCount := |codes| / numChannels;
    seq(frameCount, i requires 0 <= i < frameCount =>
      InterleavedIndex(i, c, numChannels, |codes|);
      Dequantize(codes[i * numChannels + c]))
  }

  /** What `decodeAudioData` builds from `b`, or why it throws. */
  function DecodeAudio(b: seq<Byte>, sampleRate: nat, numChannels: nat): (r: Result<AudioData, DecodeError>)
    ensures r.Failure? <==>
      || |b| % 2 == 1
      || numChannels == 0
      || |b| / 2 < numChannels
      || !(MinSampleRate <= sampleRate <= MaxSampleRate)
    ensures r.Failure? ==> (r.error == OddByteLength <==> |b| % 2 == 1)
    ensures r.Success? ==>
      && r.value.sampleRate == sampleRate
      && r.value.length == (|b| / 2) / numChannels
      && |r.value.channels| == numChannels
      && forall c :: 0 <= c < numChannels ==> |r.value.channels[c]| == r.value.length
  {
    if |b| % 2 == 1 then Failure(OddByteLength)
    else
      var codes := DecodeLE(b);
      if numChannels == 0 || |codes| / numChannels == 0 || !(MinSampleRate <= sampleRate <= MaxSampleRate) then
        Failure(UnsupportedBuffer)
      else
        Success(AudioData(sampleRate, |codes| / numChannels, Deinterleave(codes, numChannels)))
  }

  /** Frame `i` of channel `c` comes from the two bytes of interleaved code
      `i * numChannels + c`. */
  lemma ChannelLayout(b: seq<Byte>, sampleRate: nat, numChannels: nat, c: nat, i: nat)
    requires DecodeAudio(b, sampleRate, numChannels).Success?
    requires c < numChannels && i < DecodeAudio(b, sampleRate, numChannels).value.length
    ensures 2 * (i * numChannels + c) + 1 < |b|
    ensures DecodeAudio(b, sampleRate, numChannels).value.channels[c][i]
         == Dequantize(FromBytes(b[2 * (i * numChannels + c)], b[2 * (i * numChannels + c) + 1]))
  {
    var codes := DecodeLE(b);
    var k := i * numChannels + c;
    InterleavedIndex(i, c, numChannels, |codes|);
    assert DecodeAudio(b, sampleRate, numChannels).value.channels[c] == Channel(codes, numChannels, c);
    assert Channel(codes, numChannels, c)[i] == Dequantize(codes[k]);
    assert codes[k] == FromBytes(b[2 * k], b[2 * k + 1]);
  }

  /** Packing codes as `createBlob` does and decoding them as one channel gives
      back every code, divided by 32768, and the buffer lasts one sample period
      per code. */
  lemma {:induction false} MonoRoundTrip(xs: seq<Int16>, sampleRate: nat)
    requires xs != [] && MinSampleRate <= sampleRate <= MaxSampleRate
    ensures DecodeAudio(EncodeLE(xs), sampleRate, 1).Success?
    ensures DecodeAudio(EncodeLE(xs), sampleRate, 1).value
         == AudioData(sampleRate, |xs|, [seq(|xs|, i requires 0 <= i < |xs| => Dequantize(xs[i]))])
  {
    DecodeEncodeLE(xs);
    var r := DecodeAudio(EncodeLE(xs), sampleRate, 1);
    var expected := seq(|xs|, i requires 0 <= i < |xs| => Dequantize(xs[i]));
    assert r.value.channels[0] == expected;
  }

  /** A frame encoded as `createBlob` does and read back through `decode` and
      `decodeAudioData` with one channel is within 1/32768 of the original,
      sample by sample, when every sample is in [-1, 1). */
  lemma {:induction false} FrameRoundTrip(xs: seq<real>, sampleRate: nat)
    requires xs != [] && MinSampleRate <= sampleRate <= MaxSampleRate
    requires forall i :: 0 <= i < |xs| ==> -1.0 <= xs[i] < 1.0
    ensures DecodeAudio(DecodeBinary(BinaryString(EncodeLE(Quantized(xs)))), sampleRate, 1).Success?
    ensures var a := DecodeAudio(DecodeBinary(BinaryString(EncodeLE(Quantized(xs)))), sampleRate, 1).value;
      a.length == |xs| &&
      forall i :: 0 <= i < |xs| ==> xs[i] - 1.0 / Scale < a.channels[0][i] < xs[i] + 1.0 / Scale
  {
    BinaryStringRoundTrip(EncodeLE(Quantized(xs)));
    MonoRoundTrip(Quantized(xs), sampleRate);
  }

  /** With saturating quantisation the same round trip holds for every sample
      in [-1, 1], the full-scale one included. */
  lemma {:induction false} ClampedFrameRoundTrip(xs: seq<real>, sampleRate: nat)
    requires xs != [] && MinSampleRate <= sampleRate <= MaxSampleRate
    requires forall i :: 0 <= i < |xs| ==> -1.0 <= xs[i] <= 1.0
    ensures DecodeAudio(DecodeBinary(BinaryString(EncodeLE(QuantizedClamped(xs)))), sampleRate, 1).Success?
    ensures var a := DecodeAudio(DecodeBinary(BinaryString(EncodeLE(QuantizedClamped(xs)))), sampleRate, 1).value;
      a.length == |xs| &&
      forall i :: 0 <= i < |xs| ==> xs[i] - 1.0 / Scale <= a.channels[0][i] <= xs[i] + 1.0 / Scale
  {
    BinaryStringRoundTrip(EncodeLE(QuantizedClamped(xs)));
    MonoRoundTrip(QuantizedClamped(xs), sampleRate);
  }

  // ---------------------------------------------------------------------------
  // The helpers themselves
  // ---------------------------------------------------------------------------

  /** `createBlob`: one 16-bit code per sample, stored in a fresh `Int16Array`,
      whose buffer becomes the chunk's binary string. */
  method CreateBlob(data: array<real>) returns (blob: Blob)
    ensures blob.mimeType == PcmMimeType
    ensures |blob.data| == 2 * data.Length
    ensures blob.data == BinaryString(EncodeLE(Quantized(data[..])))
    ensures DecodeLE(DecodeBinary(blob.data)) == Quantized(data[..])
  {
    var l := data.Length;
    var int16 := new Int16[l];
    for i := 0 to l
      invariant forall k :: 0 <= k < i ==> int16[k] == Quantize(data[k])
    {
      int16[i] := Quantize(data[i]);
    }
    assert int16[..] == Quantized(data[..]);
    blob := Blob(BinaryString(EncodeLE(int16[..])), PcmMimeType);
    BinaryStringRoundTrip(EncodeLE(int16[..]));
    DecodeEncodeLE(int16[..]);
  }

  /** `decode` after the base64 step: a byte per character of the binary
      string, holding its character code. */
  method Decode(binaryString: string) returns (bytes: array<Byte>)
    ensures bytes.Length == |binaryString|
    ensures forall i :: 0 <= i < |binaryString| ==> bytes[i] == (binaryString[i] as int) % 256
    ensures bytes[..] == DecodeBinary(binaryString)
  {
    var len := |binaryString|;
    bytes := new Byte[len];
    for i := 0 to len
      invariant forall k :: 0 <= k < i ==> bytes[k] == (binaryString[k] as int) % 256
    {
      bytes[i] := (binaryString[i] as int) % 256;
    }
  }

  /** The channel data of `buffer` is that of `a`. */
  ghost predicate Holds(buffer: array2<real>, a: AudioData)
    reads buffer
  {
    && buffer.Length0 == |a.channels|
    && buffer.Length1 == a.length
    && forall c, i :: 0 <= c < buffer.Length0 && 0 <= i < buffer.Length1 ==>
         |a.channels[c]| == a.length && buffer[c, i] == a.channels[c][i]
  }

  /** `decodeAudioData`: views the bytes as 16-bit codes and fills one row of
      the new buffer per channel. */
  method DecodeAudioData(data: array<Byte>, sampleRate: nat, numChannels: nat)
    returns (r: Result<array2<real>, DecodeError>)
    ensures r.Failure? <==> DecodeAudio(data[..], sampleRate, numChannels).Failure?
    ensures r.Failure? ==> r.error == DecodeAudio(data[..], sampleRate, numChannels).error
    ensures r.Success? ==> Holds(r.value, DecodeAudio(data[..], sampleRate, numChannels).value)
  {
    if data.Length % 2 == 1 {
      return Failure(OddByteLength);
    }
    var dataInt16 := DecodeLE(data[..]);
    if numChannels == 0 || |dataInt16| / numChannels == 0 || !(MinSampleRate <= sampleRate <= MaxSampleRate) {
      return Failure(UnsupportedBuffer);
    }
    var frameCount := |dataInt16| / numChannels;
    ghost var a := DecodeAudio(data[..], sampleRate, numChannels).value;
    var buffer := new real[numChannels, frameCount];
    for channel := 0 to numChannels
      invariant forall c, i :: 0 <= c < channel && 0 <= i < frameCount ==> buffer[c, i] == a.channels[c][i]
    {
      for i := 0 to frameCount
        invariant forall c, j :: 0 <= c < channel && 0 <= j < frameCount ==> buffer[c, j] == a.channels[c][j]
        invariant forall j :: 0 <= j < i ==> buffer[channel, j] == a.channels[channel][j]
      {
        InterleavedIndex(i, channel, numChannels, |dataInt16|);
        buffer[channel, i] := Dequantize(dataInt16[i * numChannels + channel]);
      }
    }
    r := Success(buffer);
  }
}
