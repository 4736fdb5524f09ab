/** utils/audioUtils.ts: base 64 text to bytes, and raw 16-bit PCM bytes to a
    padded, normalised, de-interleaved sample buffer. */
module AudioUtils {
  import opened Wrappers
  import opened Base64

  /** What makes a decode step throw. */
  datatype AudioError =
    | InvalidCharacter     // `atob` rejects the text
    | NotSupported         // `createBuffer` rejects the channel count or rate

  /** `decode`: `atob`, then one byte per character of the binary string,
      written into a new byte array of exactly that length. */
  method Decode(base64: string) returns (r: Result<array<Byte>, AudioError>)
    ensures r.Success? <==> Atob(base64).Some?
    ensures r.Failure? ==> r.error == InvalidCharacter
    ensures r.Success? ==>
      && fresh(r.value)
      && r.value.Length == |Atob(base64).value|
      && (forall i :: 0 <= i < r.value.Length ==> r.value[i] == Atob(base64).value[i] as int)
      && r.value[..] == Base64.Decode(base64).value
  {
    var decoded := Atob(base64);
    if decoded.None? {
      return Failure(InvalidCharacter);
    }
    var binaryString := decoded.value;
    var len := |binaryString|;
    var bytes := new Byte[len];
    for i := 0 to len
      invariant forall k :: 0 <= k < i ==> bytes[k] == binaryString[k] as int
    {
      bytes[i] := binaryString[i] as int;
    }
    return Success(bytes);
  }

  type Int16 = v: int | -32768 <= v < 32768

  /** One element of an `Int16Array` over little-endian bytes: the low byte
      first, the value read in two's complement. */
  function ToInt16(lo: Byte, hi: Byte): (v: Int16)
    ensures v % 65536 == lo + 256 * hi
    ensures v < 0 <==> hi >= 128
  {
    var u := lo + 256 * hi;
    if u < 32768 then u else u - 65536
  }

  /** The two little-endian bytes of a 16-bit value. */
  function Int16Bytes(v: Int16): (b: (Byte, Byte))
  {
    var u := v % 65536;
    (u % 256, u / 256)
  }

  /** Reading back the bytes of a 16-bit value gives the value: `ToInt16` is
      exactly the two's-complement reading. */
  lemma Int16RoundTrip(v: Int16)
    ensures ToInt16(Int16Bytes(v).0, Int16Bytes(v).1) == v
  {
    var u := v % 65536;
    assert u % 256 + 256 * (u / 256) == u;
    assert v >= 0 ==> u == v;
    assert v < 0 ==> u == v + 65536;
  }

  /** `new Int16Array(data.buffer, data.byteOffset, data.byteLength / 2)`:
      the length is truncated, so an odd trailing byte is not read. */
  function Int16View(data: seq<Byte>): (r: seq<Int16>)
    ensures |r| == |data| / 2
    ensures forall k :: 0 <= k < |r| ==> r[k] == ToInt16(data[2 * k], data[2 * k + 1])
  {
    seq(|data| / 2, k requires 0 <= k < |data| / 2 => ToInt16(data[2 * k], data[2 * k + 1]))
  }

  /** `sample / 32768.0`. The quotient of a 16-bit integer by 2^15 is exact in
      single precision, so a real number models it without loss. */
  function Normalise(v: Int16): (x: real)
    ensures -1.0 <= x < 1.0
    ensures x * 32768.0 == v as real
  {
    v as real / 32768.0
  }

  /** `Math.ceil(sampleRate * 0.5)`: half a second of frames, rounded up. */
  function PaddingFrames(sampleRate: nat): (p: nat)
    ensures sampleRate <= 2 * p <= sampleRate + 1
  {
    (sampleRate + 1) / 2
  }

  /** Whole frames in a view of `sampleCount` interleaved samples. */
  function FrameCount(sampleCount: nat, numChannels: nat): (f: nat)
    requires numChannels > 0
    ensures f * numChannels <= sampleCount < (f + 1) * numChannels
  {
    sampleCount / numChannels
  }

  /** Every sample a whole frame holds lies inside the view. */
  lemma FrameIndexInView(sampleCount: nat, numChannels: nat, i: nat, c: nat)
    requires numChannels > 0 && i < FrameCount(sampleCount, numChannels) && c < numChannels
    ensures i * numChannels + c < sampleCount
  {
    var f := FrameCount(sampleCount, numChannels);
    assert (i + 1) * numChannels <= f * numChannels by {
      MulMonotone(i + 1, f, numChannels);
    }
  }

  lemma MulMonotone(a: nat, b: nat, n: nat)
    requires a <= b
    ensures a * n <= b * n
  {
  }

  /** The specified content of channel `c` at frame `i` of the decoded buffer:
      the normalised interleaved sample for a whole frame, silence after. */
  function Sample(view: seq<Int16>, numChannels: nat, c: nat, i: nat): (x: real)
    requires numChannels > 0 && c < numChannels
  {
    if i < FrameCount(|view|, numChannels) then
      FrameIndexInView(|view|, numChannels, i, c);
      Normalise(view[i * numChannels + c])
    else 0.0
  }

  /** A decoded buffer only holds values in [-1, 1); the padding is silence. */
  lemma SampleRange(view: seq<Int16>, numChannels: nat, c: nat, i: nat)
    requires numChannels > 0 && c < numChannels
    ensures -1.0 <= Sample(view, numChannels, c, i) < 1.0
    ensures i >= FrameCount(|view|, numChannels) ==> Sample(view, numChannels, c, i) == 0.0
  {
  }

  /** For mono input the buffer is the view itself, normalised, followed by the pad. */
  lemma MonoSample(view: seq<Int16>, i: nat)
    ensures FrameCount(|view|, 1) == |view|
    ensures i < |view| ==> Sample(view, 1, 0, i) * 32768.0 == view[i] as real
  {
  }

  /** At 24000 Hz, the rate the page player asks for, the pad is 12000 frames. */
  lemma PaddingAt24kHz()
    ensures PaddingFrames(24000) == 12000
  {
  }

  /** The AudioBuffer that `ctx.createBuffer` returns: `numberOfChannels`
      channels of `length` frames, all zero. */
  class AudioBuffer {
    const numberOfChannels: nat
    const length: nat
    const sampleRate: nat
    const channelData: array2<real>

    ghost predicate Valid() {
      channelData.Length0 == numberOfChannels && channelData.Length1 == length
    }

    constructor (numberOfChannels: nat, length: nat, sampleRate: nat)
      ensures Valid() && fresh(channelData)
      ensures this.numberOfChannels == numberOfChannels && this.length == length
      ensures this.sampleRate == sampleRate
      ensures forall c, i :: 0 <= c < numberOfChannels && 0 <= i < length ==> channelData[c, i] == 0.0
    {
      this.numberOfChannels := numberOfChannels;
      this.length := length;
      this.sampleRate := sampleRate;
      channelData := new real[numberOfChannels, length]((c, i) => 0.0);
    }
  }

  /** `decodeAudioData`, with the frame count rounded down to whole frames
      (see FrameCount and LoopFramesAsWritten). `createBuffer` refuses zero
      channels and a zero sample rate. */
  method DecodeAudioData(data: array<Byte>, sampleRate: nat, numChannels: nat)
    returns (r: Result<AudioBuffer, AudioError>)
    ensures r.Failure? ==> r.error == NotSupported
    ensures r.Success? <==> numChannels > 0 && sampleRate > 0
    ensures r.Success? ==>
      var buffer := r.value;
      var view := Int16View(data[..]);
      && fresh(buffer) && fresh(buffer.channelData) && buffer.Valid()
      && buffer.numberOfChannels == numChannels
      && buffer.sampleRate == sampleRate
      && buffer.length == FrameCount(|view|, numChannels) + PaddingFrames(sampleRate)
      && forall c, i :: 0 <= c < numChannels && 0 <= i < buffer.length ==>
           buffer.channelData[c, i] == Sample(view, numChannels, c, i)
  {
    if numChannels == 0 || sampleRate == 0 {
      return Failure(NotSupported);
    }
    var dataInt16 := Int16View(data[..]);
    var frameCount := FrameCount(|dataInt16|, numChannels);
    var paddingFrames := PaddingFrames(sampleRate);
    var totalFrames := frameCount + paddingFrames;
    var buffer := new AudioBuffer(numChannels, totalFrames, sampleRate);
    var channelData := buffer.channelData;
    for channel := 0 to numChannels
      invariant forall c, i :: 0 <= c < channel && 0 <= i < totalFrames ==>
        channelData[c, i] == Sample(dataInt16, numChannels, c, i)
      invariant forall c, i :: channel <= c < numChannels && 0 <= i < totalFrames ==>
        channelData[c, i] == 0.0
    {
      for i := 0 to frameCount
        invariant forall c, k :: 0 <= c < channel && 0 <= k < totalFrames ==>
          channelData[c, k] == Sample(dataInt16, numChannels, c, k)
        invariant forall k :: 0 <= k < i ==> channelData[channel, k] == Sample(dataInt16, numChannels, channel, k)
        invariant forall c, k :: channel <= c < numChannels && 0 <= k < totalFrames && (c != channel || k >= i) ==>
          channelData[c, k] == 0.0
      {
        FrameIndexInView(|dataInt16|, numChannels, i, channel);
        channelData[channel, i] := Normalise(dataInt16[i * numChannels + channel]);
      }
    }
    return Success(buffer);
  }

  /** As written, `frameCount = dataInt16.length / numChannels` is a
      floating-point quotient, and `for (let i = 0; i < frameCount; i++)` runs
      once for every integer below it: the quotient rounded up. */
  function LoopFramesAsWritten(sampleCount: nat, numChannels: nat): (n: nat)
    requires numChannels > 0
    ensures sampleCount <= n * numChannels
    ensures n > 0 ==> (n - 1) * numChannels < sampleCount
  {
    (sampleCount + numChannels - 1) / numChannels
  }

  /** When the samples do not fill whole frames, the as-written loop runs one
      partial frame more than there are whole frames, and its last read of the
      highest channel lies past the end of the Int16Array (the read yields
      `undefined`, and the stored sample is NaN). */
  lemma {:induction false} PartialFrameReadsPastView(sampleCount: nat, numChannels: nat)
    requires numChannels > 1 && sampleCount % numChannels != 0
    ensures LoopFramesAsWritten(sampleCount, numChannels) == FrameCount(sampleCount, numChannels) + 1
    ensures (LoopFramesAsWritten(sampleCount, numChannels) - 1) * numChannels + (numChannels - 1) >= sampleCount
  {
    var f, l := FrameCount(sampleCount, numChannels), LoopFramesAsWritten(sampleCount, numChannels);
    assert f * numChannels < sampleCount;
    MulLess(f, l, numChannels);
    MulLess(l - 1, f + 1, numChannels);
  }

  /** Multiplying by a positive factor keeps a strict order, so it can be cancelled. */
  lemma MulLess(a: nat, b: nat, n: nat)
    requires n > 0 && a * n < b * n
    ensures a < b
  {
    if a >= b {
      MulMonotone(b, a, n);
    }
  }

  /** The concrete case: six bytes of stereo PCM are three samples; the loop
      runs for frames 0 and 1 and reads sample 3 for channel 1 of frame 1. */
  lemma ThreeSamplesInStereo()
    ensures |Int16View([0, 0, 0, 0, 0, 0])| == 3
    ensures LoopFramesAsWritten(3, 2) == 2 && FrameCount(3, 2) == 1
    ensures (LoopFramesAsWritten(3, 2) - 1) * 2 + 1 == |Int16View([0, 0, 0, 0, 0, 0])|
  {
  }
}
