/** The PCM codec of services/audioUtils.ts: the byte loops around atob and btoa, the
    Int16 little-endian layout of microphone frames, and the de-interleaving and
    normalisation of received PCM into an audio buffer. Float32 rounding is not modelled:
    samples are reals. */
module AudioUtils {
  import opened Wrappers
  import opened Base64

  type int16 = x: int | -32768 <= x < 32768

  const PcmMimeType: string := "audio/pcm;rate=16000"

  /** The media payload sent to the live session. */
  datatype Blob = Blob(data: string, mimeType: string)

  /** An AudioBuffer: sample rate, length in frames, and one sample sequence per channel. */
  datatype AudioBuffer = AudioBuffer(sampleRate: int, length: nat, channels: seq<seq<real>>)

  // ---------------------------------------------------------------- decode / encode

  /** What decode returns for a base 64 string: the bytes of the decoded binary string. */
  function DecodeBytes(base64: string): Result<seq<byte>, Exception> {
    match Atob(base64)
    case Err(e) => Err(e)
    case Ok(bin) => Ok(ByteValues(bin))
  }

  /** Each character code stored into a Uint8Array, which keeps it modulo 256. */
  function ByteValues(bin: string): seq<byte> {
    seq(|bin|, i requires 0 <= i < |bin| => bin[i] as int % 256)
  }

  /** decode: atob, then one byte per character of the binary string. */
  method Decode(base64: string) returns (r: Result<array<byte>, Exception>)
    ensures r.Err? <==> Atob(base64).Err?
    ensures r.Err? ==> r.error == InvalidCharacterError
    ensures r.Ok? ==> r.value.Length == |Atob(base64).value|
    ensures r.Ok? ==> r.value[..] == ByteValues(Atob(base64).value)
    ensures r.Ok? ==> forall i :: 0 <= i < r.value.Length ==> r.value[i] == Atob(base64).value[i] as int
  {
    var decoded := Atob(base64);
    if decoded.Err? {
      return Err(decoded.error);
    }
    var bytes := CharCodeBytes(decoded.value);
    r := Ok(bytes);
  }

  /** The loop of decode: byte i is the code of character i. */
  method CharCodeBytes(binaryString: string) returns (bytes: array<byte>)
    requires IsBinaryString(binaryString)
    ensures bytes.Length == |binaryString|
    ensures bytes[..] == ByteValues(binaryString)
    ensures forall i :: 0 <= i < bytes.Length ==> bytes[i] == binaryString[i] as int
  {
    var len := |binaryString|;
    bytes := new byte[len];
    for i := 0 to len
      invariant forall k :: 0 <= k < i ==> bytes[k] == binaryString[k] as int
    {
      // a Uint8Array element keeps the character code modulo 256
      bytes[i] := binaryString[i] as int % 256;
    }
    assert bytes[..] == ByteValues(binaryString);
  }

  /** encode: one character per byte, then btoa. */
  method Encode(bytes: array<byte>) returns (s: string)
    ensures s == EncodeBytes(bytes[..])
  {
    var binary := "";
    for i := 0 to bytes.Length
      invariant binary == BinaryString(bytes[..i])
    {
      binary := binary + [bytes[i] as char];
    }
    assert bytes[..bytes.Length] == bytes[..];
    assert CharCodes(binary) == bytes[..];
    s := Btoa(binary).value;
  }

  /** A byte value survives the round trip through a character code. */
  lemma ByteValuesOfBinaryString(b: seq<byte>)
    ensures ByteValues(BinaryString(b)) == b
  {
    var bin := BinaryString(b);
    forall i | 0 <= i < |bin| ensures ByteValues(bin)[i] == b[i] {
      assert bin[i] == b[i] as char;
    }
  }

  /** atob of the encoding of bytes is their binary string. */
  lemma AtobEncodeBytes(b: seq<byte>)
    ensures Atob(EncodeBytes(b)) == Ok(BinaryString(b))
  {
    var bin := BinaryString(b);
    assert CharCodes(bin) == b;
    AtobBtoa(bin);
  }

  /** decode undoes encode for every byte sequence. */
  lemma DecodeEncode(b: seq<byte>)
    ensures DecodeBytes(EncodeBytes(b)) == Ok(b)
  {
    AtobEncodeBytes(b);
    ByteValuesOfBinaryString(b);
  }

  // ---------------------------------------------------------------- Int16 conversion

  /** Truncation toward zero. */
  function Truncate(x: real): (n: int)
    ensures 0.0 <= x ==> n as real <= x < n as real + 1.0
    ensures x < 0.0 ==> n as real - 1.0 < x <= n as real
  {
    if x >= 0.0 then x.Floor else -((-x).Floor)
  }

  /** ToInt16 of section 7.1.8 of ECMA-262, which an Int16Array element assignment applies:
      truncate toward zero, then reduce modulo 2^16 into [-2^15, 2^15); nothing is clamped. */
  function ToInt16(x: real): (v: int16)
    ensures (v - Truncate(x)) % 65536 == 0
  {
    var m := Truncate(x) % 65536;
    if m >= 32768 then m - 65536 else m
  }

  /** A value in [-2^15, 2^15) whose integer part is itself is kept by ToInt16. */
  lemma ToInt16Exact(x: real)
    requires x.Floor as real == x && -32768.0 <= x < 32768.0
    ensures ToInt16(x) == x.Floor
  {
  }

  /** The full-scale sample 1.0 is not clamped to 32767: it wraps to -32768. */
  lemma FullScaleWraps()
    ensures ToInt16(1.0 * 32768.0) == -32768
  {
  }

  /** Reads a 16-bit two's complement value from its unsigned bit pattern. */
  function Signed16(u: int): int16
    requires 0 <= u < 65536
  {
    if u >= 32768 then u - 65536 else u
  }

  /** The bytes of an Int16Array's buffer, low byte first (a little-endian platform). */
  function Int16Bytes(v: seq<int16>): (b: seq<byte>)
    ensures |b| == 2 * |v|
  {
    seq(2 * |v|, k requires 0 <= k < 2 * |v| => if k % 2 == 0 then LowByte(v[k / 2]) else HighByte(v[k / 2]))
  }

  function LowByte(x: int16): byte {
    x as int % 256
  }

  function HighByte(x: int16): byte {
    x as int % 65536 / 256
  }

  /** The values of an Int16Array viewing the buffer of `b`. */
  function Int16View(b: seq<byte>): (v: seq<int16>)
    requires |b| % 2 == 0
    ensures |v| == |b| / 2
  {
    seq(|b| / 2, k requires 0 <= k < |b| / 2 => Signed16(b[2 * k] as int + 256 * b[2 * k + 1] as int))
  }

  lemma Int16PairInverse(x: int16)
    ensures Signed16(LowByte(x) as int + 256 * HighByte(x) as int) == x
  {
    var u := x % 65536;
    assert x % 256 == u % 256;
    assert u == u / 256 * 256 + u % 256;
  }

  lemma Int16BytesAt(v: seq<int16>, k: nat)
    requires k < |v|
    ensures Int16Bytes(v)[2 * k] == LowByte(v[k]) && Int16Bytes(v)[2 * k + 1] == HighByte(v[k])
  {
    assert (2 * k) % 2 == 0 && (2 * k) / 2 == k;
    assert (2 * k + 1) % 2 == 1 && (2 * k + 1) / 2 == k;
  }

  /** Viewing the bytes of an Int16 array as Int16 gives the array back. */
  lemma Int16ViewOfBytes(v: seq<int16>)
    ensures Int16View(Int16Bytes(v)) == v
  {
    var b := Int16Bytes(v);
    forall k | 0 <= k < |v| ensures Int16View(b)[k] == v[k] {
      Int16BytesAt(v, k);
      Int16PairInverse(v[k]);
    }
  }

  // ---------------------------------------------------------------- decodeAudioData

  /** Frames in the buffer: createBuffer truncates int16Count / numChannels to an integer. */
  function FrameCount(int16Count: nat, numChannels: nat): nat {
    if numChannels == 0 then 0 else int16Count / numChannels
  }

  lemma FrameIndexInRange(i: nat, c: nat, frames: nat, n: nat)
    requires i < frames && c < n
    ensures i * n + c < frames * n
  {
    calc {
      i * n + c;
    <
      i * n + n;
    ==
      (i + 1) * n;
    <=  { assert i + 1 <= frames; }
      frames * n;
    }
  }

  lemma FramesFit(count: nat, n: nat)
    requires n > 0
    ensures FrameCount(count, n) * n <= count
  {
  }

  /** Channel c, frame i: the interleaved value i * n + c, normalised by 32768. */
  function ChannelSample(pcm: seq<int16>, n: nat, frames: nat, c: nat, i: nat): real
    requires frames * n <= |pcm| && c < n && i < frames
  {
    FrameIndexInRange(i, c, frames, n);
    pcm[i * n + c] as real / 32768.0
  }

  /** Lines 37-43: the samples getChannelData(c) holds once the fill loop has run. */
  function Channel(pcm: seq<int16>, n: nat, frames: nat, c: nat): seq<real>
    requires frames * n <= |pcm| && c < n
  {
    seq(frames, i requires 0 <= i < frames => ChannelSample(pcm, n, frames, c, i))
  }

  /** What decodeAudioData returns for the bytes of a PCM chunk: the Int16Array view fails
      on an odd byte count, createBuffer fails on zero channels or zero frames. */
  function AudioBufferOf(bytes: seq<byte>, sampleRate: int, numChannels: nat): (r: Result<AudioBuffer, Exception>)
    ensures r.Ok? <==> |bytes| % 2 == 0 && 0 < numChannels <= |bytes| / 2
    ensures |bytes| % 2 != 0 ==> r == Err(RangeError)
    ensures |bytes| % 2 == 0 && r.Err? ==> r.error == NotSupportedError
    ensures r.Ok? ==> r.value.sampleRate == sampleRate && r.value.length == |bytes| / 2 / numChannels
    ensures r.Ok? ==> |r.value.channels| == numChannels
  {
    if |bytes| % 2 != 0 then Err(RangeError)
    else
      var pcm := Int16View(bytes);
      var frames := FrameCount(|pcm|, numChannels);
      if numChannels == 0 || frames == 0 then Err(NotSupportedError)
      else
        FramesFit(|pcm|, numChannels);
        Ok(AudioBuffer(sampleRate, frames,
                       seq(numChannels, c requires 0 <= c < numChannels => Channel(pcm, numChannels, frames, c))))
  }

  /** Channel c, frame i of a decoded buffer holds the Int16 at i * numChannels + c,
      divided by 32768. */
  lemma DeinterleavedLayout(bytes: seq<byte>, sampleRate: int, numChannels: nat, c: nat, i: nat)
    requires AudioBufferOf(bytes, sampleRate, numChannels).Ok?
    requires c < numChannels && i < AudioBufferOf(bytes, sampleRate, numChannels).value.length
    ensures i * numChannels + c < |Int16View(bytes)|
    ensures |AudioBufferOf(bytes, sampleRate, numChannels).value.channels[c]| == |bytes| / 2 / numChannels
    ensures AudioBufferOf(bytes, sampleRate, numChannels).value.channels[c][i]
         == Int16View(bytes)[i * numChannels + c] as real / 32768.0
  {
    var frames := FrameCount(|bytes| / 2, numChannels);
    FramesFit(|bytes| / 2, numChannels);
    FrameIndexInRange(i, c, frames, numChannels);
  }

  /** decodeAudioData: view the bytes as Int16, then fill each channel of a fresh buffer. */
  method DecodeAudioData(data: array<byte>, sampleRate: int, numChannels: nat) returns (r: Result<AudioBuffer, Exception>)
    ensures r == AudioBufferOf(data[..], sampleRate, numChannels)
  {
    if data.Length % 2 != 0 {
      return Err(RangeError);
    }
    var dataInt16 := Int16View(data[..]);
    var frameCount := FrameCount(|dataInt16|, numChannels);
    if numChannels == 0 || frameCount == 0 {
      return Err(NotSupportedError);
    }
    FramesFit(|dataInt16|, numChannels);
    var channels: seq<seq<real>> := [];
    for channel := 0 to numChannels
      invariant |channels| == channel
      invariant forall c :: 0 <= c < channel ==> channels[c] == Channel(dataInt16, numChannels, frameCount, c)
    {
      var channelData := FillChannel(dataInt16, numChannels, frameCount, channel);
      channels := channels + [channelData[..]];
    }
    assert channels == seq(numChannels, c requires 0 <= c < numChannels => Channel(dataInt16, numChannels, frameCount, c));
    r := Ok(AudioBuffer(sampleRate, frameCount, channels));
  }

  /** The inner loop of decodeAudioData: one channel of the buffer. */
  method FillChannel(dataInt16: seq<int16>, numChannels: nat, frameCount: nat, channel: nat) returns (channelData: array<real>)
    requires frameCount * numChannels <= |dataInt16| && channel < numChannels
    ensures channelData[..] == Channel(dataInt16, numChannels, frameCount, channel)
  {
    channelData := new real[frameCount];
    for i := 0 to frameCount
      invariant forall k :: 0 <= k < i ==> channelData[k] == ChannelSample(dataInt16, numChannels, frameCount, channel, k)
    {
      FrameIndexInRange(i, channel, frameCount, numChannels);
      channelData[i] := dataInt16[i * numChannels + channel] as real / 32768.0;
    }
  }

  /** Every decoded sample lies in [-1, 1), since an Int16 lies in [-32768, 32767]. */
  lemma DecodedSamplesInRange(bytes: seq<byte>, sampleRate: int, numChannels: nat, c: nat, i: nat)
    requires AudioBufferOf(bytes, sampleRate, numChannels).Ok?
    requires c < numChannels && i < AudioBufferOf(bytes, sampleRate, numChannels).value.length
    ensures -1.0 <= AudioBufferOf(bytes, sampleRate, numChannels).value.channels[c][i] < 1.0
  {
    DeinterleavedLayout(bytes, sampleRate, numChannels, c, i);
  }

  // ---------------------------------------------------------------- createBlob

  /** The Int16 values createBlob stores for a frame of samples. */
  function Pcm16(samples: seq<real>): (v: seq<int16>)
    ensures |v| == |samples|
  {
    seq(|samples|, i requires 0 <= i < |samples| => ToInt16(samples[i] * 32768.0))
  }

  function BlobOf(samples: seq<real>): Blob {
    Blob(EncodeBytes(Int16Bytes(Pcm16(samples))), PcmMimeType)
  }

  /** createBlob: scale each sample into an Int16Array, then encode its bytes. */
  method CreateBlob(data: array<real>) returns (blob: Blob)
    ensures blob == BlobOf(data[..])
    ensures blob.mimeType == PcmMimeType
  {
    var l := data.Length;
    var int16 := new int16[l];
    for i := 0 to l
      invariant forall k :: 0 <= k < i ==> int16[k] == ToInt16(data[k] * 32768.0)
    {
      int16[i] := ToInt16(data[i] * 32768.0);
    }
    assert int16[..] == Pcm16(data[..]);
    var view := Int16Bytes(int16[..]);
    var bytes := new byte[|view|](k requires 0 <= k < |view| => view[k]);
    assert bytes[..] == view;
    var encoded := Encode(bytes);
    blob := Blob(encoded, PcmMimeType);
  }

  /** The payload of a blob decodes to the Int16 bytes of its samples: 2 bytes per sample. */
  lemma BlobPayload(samples: seq<real>)
    ensures DecodeBytes(BlobOf(samples).data) == Ok(Int16Bytes(Pcm16(samples)))
    ensures |Int16Bytes(Pcm16(samples))| == 2 * |samples|
  {
    DecodeEncode(Int16Bytes(Pcm16(samples)));
  }

  /** Value i of an Int16 array sits at bytes 2i and 2i+1, low byte first, in two's complement. */
  lemma Int16BytesLayout(v: seq<int16>, i: nat)
    requires i < |v|
    ensures Int16Bytes(v)[2 * i] == v[i] % 256
    ensures (Int16Bytes(v)[2 * i] as int + 256 * Int16Bytes(v)[2 * i + 1] as int - v[i] as int) % 65536 == 0
  {
    var b := Int16Bytes(v);
    assert b[2 * i] == LowByte(v[i]);
    assert b[2 * i + 1] == HighByte(v[i]);
    var u := v[i] as int % 65536;
    assert v[i] as int % 256 == u % 256;
    assert u == u / 256 * 256 + u % 256;
  }

  /** A sample whose scaled value is an Int16 exactly. */
  predicate IsExactSample(x: real) {
    (x * 32768.0).Floor as real == x * 32768.0 && -32768.0 <= x * 32768.0 < 32768.0
  }

  /** Int16 values divided by 32768, the samples decodeAudioData produces from them. */
  function Rescaled(pcm: seq<int16>): seq<real> {
    seq(|pcm|, i requires 0 <= i < |pcm| => pcm[i] as real / 32768.0)
  }

  /** With one channel, channel 0 holds every value in order. */
  lemma MonoChannel(pcm: seq<int16>)
    ensures Channel(pcm, 1, |pcm|, 0) == Rescaled(pcm)
  {
    forall i | 0 <= i < |pcm| ensures Channel(pcm, 1, |pcm|, 0)[i] == Rescaled(pcm)[i] {
      assert i * 1 + 0 == i;
    }
  }

  /** One channel of Int16 values decodes to those values divided by 32768. */
  lemma MonoDecode(pcm: seq<int16>, sampleRate: int)
    requires |pcm| > 0
    ensures AudioBufferOf(Int16Bytes(pcm), sampleRate, 1)
         == Ok(AudioBuffer(sampleRate, |pcm|, [Rescaled(pcm)]))
  {
    var bytes := Int16Bytes(pcm);
    Int16ViewOfBytes(pcm);
    assert Int16View(bytes) == pcm;
    assert FrameCount(|pcm|, 1) == |pcm|;
    MonoChannel(pcm);
    assert seq(1, c requires 0 <= c < 1 => Channel(pcm, 1, |pcm|, c)) == [Rescaled(pcm)];
  }

  /** An exact sample is scaled to an Int16 and back without loss. */
  lemma ExactSampleRoundTrip(x: real)
    requires IsExactSample(x)
    ensures ToInt16(x * 32768.0) as real / 32768.0 == x
  {
    var y := x * 32768.0;
    ToInt16Exact(y);
    assert ToInt16(y) as real == y;
  }

  /** Exact samples are scaled into Int16 values and rescaled back unchanged. */
  lemma {:induction false} RescaledPcm16(samples: seq<real>)
    requires forall i :: 0 <= i < |samples| ==> IsExactSample(samples[i])
    ensures Rescaled(Pcm16(samples)) == samples
  {
    var pcm := Pcm16(samples);
    forall i | 0 <= i < |samples| ensures Rescaled(pcm)[i] == samples[i] {
      assert pcm[i] == ToInt16(samples[i] * 32768.0);
      ExactSampleRoundTrip(samples[i]);
    }
  }

  /** On one channel, exact samples survive createBlob, decode and decodeAudioData. */
  lemma SampleRoundTrip(samples: seq<real>, sampleRate: int)
    requires |samples| > 0
    requires forall i :: 0 <= i < |samples| ==> IsExactSample(samples[i])
    ensures DecodeBytes(BlobOf(samples).data).Ok?
    ensures AudioBufferOf(DecodeBytes(BlobOf(samples).data).value, sampleRate, 1)
         == Ok(AudioBuffer(sampleRate, |samples|, [samples]))
  {
    var pcm := Pcm16(samples);
    BlobPayload(samples);
    MonoDecode(pcm, sampleRate);
    RescaledPcm16(samples);
  }

  /** Any sample in [-1, 1) is scaled to an Int16 and divided back to within one
      quantisation step, 1/32768, of itself (toward zero, since ToInt16 truncates). */
  lemma SampleQuantisation(x: real)
    requires -1.0 <= x < 1.0
    ensures -1.0 / 32768.0 < x - ToInt16(x * 32768.0) as real / 32768.0 < 1.0 / 32768.0
  {
    var y := x * 32768.0;
    assert -32768 <= Truncate(y) < 32768;
    assert ToInt16(y) == Truncate(y);
  }

  /** A frame of samples in [-1, 1), scaled to Int16 and normalised back, is within one
      quantisation step of the original, sample by sample. */
  lemma {:induction false} RescaledPcm16WithinStep(samples: seq<real>)
    requires forall i :: 0 <= i < |samples| ==> -1.0 <= samples[i] < 1.0
    ensures |Rescaled(Pcm16(samples))| == |samples|
    ensures forall i :: 0 <= i < |samples| ==>
              -1.0 / 32768.0 < samples[i] - Rescaled(Pcm16(samples))[i] < 1.0 / 32768.0
  {
    var pcm := Pcm16(samples);
    forall i | 0 <= i < |samples|
      ensures -1.0 / 32768.0 < samples[i] - Rescaled(pcm)[i] < 1.0 / 32768.0
    {
      assert pcm[i] == ToInt16(samples[i] * 32768.0);
      SampleQuantisation(samples[i]);
    }
  }

  /** On one channel, every sample in [-1, 1) survives createBlob, decode and
      decodeAudioData to within one quantisation step. */
  lemma SampleRoundTripWithinStep(samples: seq<real>, sampleRate: int)
    requires |samples| > 0
    requires forall i :: 0 <= i < |samples| ==> -1.0 <= samples[i] < 1.0
    ensures DecodeBytes(BlobOf(samples).data).Ok?
    ensures var r := AudioBufferOf(DecodeBytes(BlobOf(samples).data).value, sampleRate, 1);
            && r.Ok? && r.value.length == |samples| && |r.value.channels| == 1
            && |r.value.channels[0]| == |samples|
            && forall i :: 0 <= i < |samples| ==>
                 -1.0 / 32768.0 < samples[i] - r.value.channels[0][i] < 1.0 / 32768.0
  {
    var pcm := Pcm16(samples);
    BlobPayload(samples);
    MonoDecode(pcm, sampleRate);
    RescaledPcm16WithinStep(samples);
  }
}
