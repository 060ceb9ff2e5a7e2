/**
 * The byte, string and sample helpers at the top of services/liveClient.ts:
 * `createBlob` (microphone samples to a base64 PCM blob), `encode` and
 * `decode` (bytes to and from base64 through a binary string) and
 * `decodeAudioData` (16-bit PCM bytes to per-channel sample arrays).
 *
 * Samples are integers: `createBlob` receives the values `data[i] * 32768`
 * already truncated to integers, and `decodeAudioData` yields the 16-bit
 * samples themselves, not their float images divided by 32768.
 */
module AudioCodec {
  import opened Wrappers
  import opened Base64
  import opened BinaryString

  /** A value an Int16Array element can hold. */
  type Int16 = x: int | -32768 <= x < 32768

  /** The MIME type every captured blob carries. */
  const PcmMimeType: string := "audio/pcm;rate=16000"

  /** The playback context's sample rate and channel count used for server audio. */
  const OutputSampleRate: nat := 24000
  const OutputChannels: nat := 1

  /** What `createBlob` returns: base64 PCM data and its MIME type. */
  datatype Blob = Blob(data: string, mimeType: string)

  /** An AudioBuffer: its sample rate, its length in frames and one sample array per channel. */
  datatype AudioBuffer = AudioBuffer(sampleRate: nat, length: nat, channels: seq<seq<Int16>>)

  /** Storing an integer into an Int16Array element: the value modulo 2^16, read as signed. */
  function ToInt16(n: int): (r: Int16)
    ensures (r - n) % 65536 == 0
    ensures -32768 <= n < 32768 ==> r == n
  {
    var m := n % 65536;
    if m < 32768 then m else m - 65536
  }

  /** Every element stored into an Int16Array. */
  function ToInt16s(data: seq<int>): (r: seq<Int16>)
    ensures |r| == |data| && forall i :: 0 <= i < |data| ==> r[i] == ToInt16(data[i])
  {
    seq(|data|, i requires 0 <= i < |data| => ToInt16(data[i]))
  }

  /** The low byte of a sample in two's complement. */
  function LowByte(x: Int16): Byte
  {
    (x % 65536) % 256
  }

  /** The high byte of a sample in two's complement. */
  function HighByte(x: Int16): Byte
  {
    (x % 65536) / 256
  }

  /** The sample two little-endian bytes hold. */
  function SampleOf(lo: Byte, hi: Byte): Int16
  {
    var u := lo + 256 * hi;
    if u < 32768 then u else u - 65536
  }

  lemma SampleOfBytes(x: Int16)
    ensures SampleOf(LowByte(x), HighByte(x)) == x
  {
  }

  /** The bytes of an Int16Array's buffer (little-endian), as a Uint8Array view sees them. */
  function LittleEndian(samples: seq<Int16>): (b: seq<Byte>)
    ensures |b| == 2 * |samples|
    ensures forall k :: 0 <= k < |b| ==> b[k] == if k % 2 == 0 then LowByte(samples[k / 2]) else HighByte(samples[k / 2])
  {
    seq(2 * |samples|, k requires 0 <= k < 2 * |samples| =>
      if k % 2 == 0 then LowByte(samples[k / 2]) else HighByte(samples[k / 2]))
  }

  /** The Int16Array view of a buffer of even length (little-endian). */
  function SamplesOf(b: seq<Byte>): (s: seq<Int16>)
    requires |b| % 2 == 0
    ensures |s| == |b| / 2
    ensures forall i :: 0 <= i < |s| ==> s[i] == SampleOf(b[2 * i], b[2 * i + 1])
  {
    seq(|b| / 2, i requires 0 <= i < |b| / 2 => SampleOf(b[2 * i], b[2 * i + 1]))
  }

  /** Viewing the bytes of an Int16Array as an Int16Array again gives back its samples. */
  lemma SamplesOfLittleEndian(s: seq<Int16>)
    ensures SamplesOf(LittleEndian(s)) == s
  {
    var b := LittleEndian(s);
    forall i | 0 <= i < |s| ensures SamplesOf(b)[i] == s[i] {
      assert b[2 * i] == LowByte(s[i]) by { assert (2 * i) % 2 == 0 && (2 * i) / 2 == i; }
      assert b[2 * i + 1] == HighByte(s[i]) by { assert (2 * i + 1) % 2 == 1 && (2 * i + 1) / 2 == i; }
      SampleOfBytes(s[i]);
    }
  }

  /** `encode`: the base64 text of a byte array, built through a binary string. */
  method Encode(bytes: seq<Byte>) returns (r: string)
    ensures Btoa(CharsOf(bytes)) == Success(r)
    ensures r == Base64.Encode(bytes)
  {
    var binary := "";
    var i := 0;
    while i < |bytes|
      invariant 0 <= i <= |bytes|
      invariant |binary| == i
      invariant forall k :: 0 <= k < i ==> binary[k] as int == bytes[k]
    {
      binary := binary + [bytes[i] as char];
      i := i + 1;
    }
    assert binary == CharsOf(bytes);
    BytesOfCharsOf(bytes);
    r := Btoa(binary).value;
  }

  /** `decode`: the bytes that base64 text stands for; `atob`'s error when it stands for none. */
  method Decode(base64: string) returns (r: Result<array<Byte>, DomError>)
    ensures r.Failure? <==> Base64.Decode(base64).None?
    ensures r.Failure? ==> r.error == InvalidCharacterError
    ensures r.Success? ==> fresh(r.value) && r.value[..] == Base64.Decode(base64).value
  {
    var decoded := Atob(base64);
    if decoded.Failure? {
      return Failure(decoded.error);
    }
    var binaryString := decoded.value;
    var len := |binaryString|;
    var bytes := new Byte[len];
    for i := 0 to len
      invariant forall k :: 0 <= k < i ==> bytes[k] == binaryString[k] as int
    {
      bytes[i] := binaryString[i] as int;
    }
    assert bytes[..] == BytesOf(binaryString);
    BytesOfCharsOf(Base64.Decode(base64).value);
    r := Success(bytes);
  }

  /** `createBlob`: one microphone frame as 16-bit little-endian PCM in base64, tagged 16 kHz. */
  method CreateBlob(data: seq<int>) returns (blob: Blob)
    ensures blob.mimeType == PcmMimeType
    ensures blob.data == Base64.Encode(LittleEndian(ToInt16s(data)))
  {
    var l := |data|;
    var int16 := new Int16[l];
    for i := 0 to l
      invariant forall k :: 0 <= k < i ==> int16[k] == ToInt16(data[k])
    {
      int16[i] := ToInt16(data[i]);
    }
    assert int16[..] == ToInt16s(data);
    var encoded := Encode(LittleEndian(int16[..]));
    blob := Blob(encoded, PcmMimeType);
  }

  /** The bytes of a blob's data: two per input sample, holding the stored samples. */
  lemma BlobRoundTrip(data: seq<int>)
    ensures var bytes := LittleEndian(ToInt16s(data));
      && Base64.Decode(Base64.Encode(bytes)) == Some(bytes)
      && |bytes| == 2 * |data|
      && |bytes| % 2 == 0
      && SamplesOf(bytes) == ToInt16s(data)
  {
    var bytes := LittleEndian(ToInt16s(data));
    assert Base64.Decode(Base64.Encode(bytes)) == Some(bytes) by {
      DecodeEncode(bytes);
    }
    assert SamplesOf(bytes) == ToInt16s(data) by {
      SamplesOfLittleEndian(ToInt16s(data));
    }
  }

  lemma MulMonotone(a: nat, b: nat, n: nat)
    requires a <= b
    ensures a * n <= b * n
  {
  }

  /** The index `i * n + c` of channel `c`, frame `i` stays inside the samples. */
  lemma InterleavedIndex(i: nat, c: nat, frames: nat, n: nat, total: nat)
    requires i < frames && c < n && frames * n <= total
    ensures i * n + c < total
  {
    MulMonotone(i + 1, frames, n);
  }

  /**
   * Where frame `i` of channel `c` sits among samples interleaved over `n` channels.
   * The frame count is `samples / n` rounded down. When `n` does not divide the
   * sample count the source's frame count is fractional; `createBuffer` truncates
   * its length argument to the same rounded-down count, and the copy loop's one
   * extra frame reads past the samples and writes past the channel, which the
   * typed array drops, so the buffer it returns is the one modelled here.
   */
  function SampleIndex(i: nat, c: nat, n: nat): nat
  {
    i * n + c
  }

  lemma InterleavedIndices(frames: nat, n: nat, total: nat)
    requires frames * n <= total
    ensures forall i: nat, c: nat :: i < frames && c < n ==> SampleIndex(i, c, n) < total
  {
    forall i: nat, c: nat | i < frames && c < n ensures SampleIndex(i, c, n) < total {
      InterleavedIndex(i, c, frames, n, total);
    }
  }

  /** Frames of `samples` interleaved over `n` channels: channel c, frame i is sample `i * n + c`. */
  function Deinterleave(samples: seq<Int16>, n: nat): (r: seq<seq<Int16>>)
    requires n > 0
    ensures |r| == n
    ensures forall c :: 0 <= c < n ==> |r[c]| == |samples| / n
    ensures forall c, i :: 0 <= c < n && 0 <= i < |samples| / n ==>
      SampleIndex(i, c, n) < |samples| && r[c][i] == samples[SampleIndex(i, c, n)]
  {
    var frames := |samples| / n;
    assert frames * n <= |samples|;
    InterleavedIndices(frames, n, |samples|);
    seq(n, c requires 0 <= c < n => seq(frames, i requires 0 <= i < frames => samples[SampleIndex(i, c, n)]))
  }

  /** The samples' buffer as `decodeAudioData` builds it, or the error it throws. */
  function AudioBufferOf(data: seq<Byte>, sampleRate: nat, numChannels: nat): (r: Result<AudioBuffer, DomError>)
    ensures r.Failure? <==> |data| % 2 != 0 || numChannels == 0 || sampleRate == 0 || |data| / 2 / numChannels == 0
    ensures |data| % 2 != 0 ==> r == Failure(RangeError)
    ensures |data| % 2 == 0 && (numChannels == 0 || sampleRate == 0 || |data| / 2 / numChannels == 0) ==>
      r == Failure(NotSupportedError)
    ensures r.Success? ==> r.value.sampleRate == sampleRate && r.value.length == |data| / 2 / numChannels
    ensures r.Success? ==>
      |data| % 2 == 0 && numChannels > 0 && r.value.channels == Deinterleave(SamplesOf(data), numChannels)
  {
    if |data| % 2 != 0 then Failure(RangeError)
    else if numChannels == 0 || sampleRate == 0 || |data| / 2 / numChannels == 0 then Failure(NotSupportedError)
    else
      var samples := SamplesOf(data);
      Success(AudioBuffer(sampleRate, |samples| / numChannels, Deinterleave(samples, numChannels)))
  }

  /** The playing time of a buffer in seconds. */
  function Duration(b: AudioBuffer): (d: real)
    ensures d >= 0.0
    ensures b.length > 0 && b.sampleRate > 0 ==> d > 0.0
  {
    if b.sampleRate == 0 then 0.0 else b.length as real / b.sampleRate as real
  }

  /**
   * `decodeAudioData`: views the bytes as 16-bit samples (a RangeError for an
   * odd byte count), creates a buffer of `samples / numChannels` frames (a
   * NotSupportedError when a count or the rate is zero) and fills channel c,
   * frame i with sample `i * numChannels + c`.
   */
  method DecodeAudioData(data: array<Byte>, sampleRate: nat, numChannels: nat)
    returns (r: Result<AudioBuffer, DomError>)
    ensures r == AudioBufferOf(data[..], sampleRate, numChannels)
  {
    if data.Length % 2 != 0 {
      return Failure(RangeError);
    }
    var dataInt16 := SamplesOf(data[..]);
    if numChannels == 0 || sampleRate == 0 || |dataInt16| / numChannels == 0 {
      return Failure(NotSupportedError);
    }
    var frameCount := |dataInt16| / numChannels;
    assert frameCount * numChannels <= |dataInt16|;
    var channels: seq<seq<Int16>> := [];
    for channel := 0 to numChannels
      invariant |channels| == channel
      invariant forall c :: 0 <= c < channel ==> channels[c] == Deinterleave(dataInt16, numChannels)[c]
    {
      var channelData := new Int16[frameCount];
      for i := 0 to frameCount
        invariant forall k :: 0 <= k < i ==>
          SampleIndex(k, channel, numChannels) < |dataInt16| &&
          channelData[k] == dataInt16[SampleIndex(k, channel, numChannels)]
      {
        InterleavedIndex(i, channel, frameCount, numChannels, |dataInt16|);
        channelData[i] := dataInt16[i * numChannels + channel];
      }
      assert channelData[..] == Deinterleave(dataInt16, numChannels)[channel];
      channels := channels + [channelData[..]];
    }
    assert channels == Deinterleave(dataInt16, numChannels);
    assert AudioBufferOf(data[..], sampleRate, numChannels) == Success(AudioBuffer(sampleRate, frameCount, channels));
    r := Success(AudioBuffer(sampleRate, frameCount, channels));
  }

  /** With one channel, as the live client requests, channel 0 is the samples in order. */
  lemma MonoChannelIsSamples(data: seq<Byte>, sampleRate: nat)
    requires |data| % 2 == 0 && |data| >= 2 && sampleRate > 0
    ensures AudioBufferOf(data, sampleRate, 1).Success?
    ensures AudioBufferOf(data, sampleRate, 1).value.channels == [SamplesOf(data)]
  {
    var samples := SamplesOf(data);
    var ch := Deinterleave(samples, 1);
    assert |ch| == 1;
    forall i | 0 <= i < |samples| ensures ch[0][i] == samples[i] {
      assert SampleIndex(i, 0, 1) == i;
    }
    assert ch[0] == samples;
    assert ch == [samples];
  }

  /** Audio captured by `createBlob` and played back mono carries the stored samples unchanged. */
  lemma CaptureThenPlayback(data: seq<int>)
    requires |data| > 0
    ensures var bytes := Base64.Decode(Base64.Encode(LittleEndian(ToInt16s(data))));
      bytes.Some? && AudioBufferOf(bytes.value, OutputSampleRate, OutputChannels).Success? &&
      AudioBufferOf(bytes.value, OutputSampleRate, OutputChannels).value.channels == [ToInt16s(data)]
  {
    BlobRoundTrip(data);
    MonoChannelIsSamples(LittleEndian(ToInt16s(data)), OutputSampleRate);
    SamplesOfLittleEndian(ToInt16s(data));
  }
}
