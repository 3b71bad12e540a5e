/** The buffer transforms applied after decoding: `trimSilence` (cut the
    quiet head and tail, judged on channel 0) and `normalizeAudio` (scale so
    that the loudest sample reaches 0.95). Both hand their result to
    `audioBufferToWav`. */
module Transforms {
  import opened Wrappers
  import opened Bytes
  import opened Wav

  function Abs(x: real): (r: real)
    ensures r >= 0.0 && (r == x || r == -x)
  {
    if x < 0.0 then -x else x
  }

  /** `Math.abs(data[i]) > threshold`. */
  predicate Loud(x: real, threshold: real) {
    Abs(x) > threshold
  }

  predicate AnyLoud(data: seq<real>, threshold: real) {
    exists i :: 0 <= i < |data| && Loud(data[i], threshold)
  }

  // ---------------------------------------------------------------------
  // trimSilence
  // ---------------------------------------------------------------------

  /** The first loud index. */
  function FirstLoud(data: seq<real>, threshold: real): (r: Option<nat>)
    ensures r.None? <==> !AnyLoud(data, threshold)
    ensures r.Some? ==> r.value < |data| && Loud(data[r.value], threshold)
                        && forall j :: 0 <= j < r.value ==> !Loud(data[j], threshold)
    decreases |data|
  {
    if |data| == 0 then None
    else if Loud(data[0], threshold) then Some(0)
    else match FirstLoud(data[1..], threshold)
      case None =>
        assert forall j :: 0 <= j < |data| ==> !Loud(data[j], threshold) by {
          forall j | 0 <= j < |data| ensures !Loud(data[j], threshold) {
            if j > 0 { assert data[j] == data[1..][j - 1]; }
          }
        }
        None
      case Some(i) =>
        assert forall j :: 0 < j <= i ==> data[j] == data[1..][j - 1];
        Some(i + 1)
  }

  /** The last loud index. */
  function LastLoud(data: seq<real>, threshold: real): (r: Option<nat>)
    ensures r.None? <==> !AnyLoud(data, threshold)
    ensures r.Some? ==> r.value < |data| && Loud(data[r.value], threshold)
                        && forall j :: r.value < j < |data| ==> !Loud(data[j], threshold)
    decreases |data|
  {
    if |data| == 0 then None
    else if Loud(data[|data| - 1], threshold) then Some(|data| - 1)
    else match LastLoud(data[..|data| - 1], threshold)
      case None =>
        assert forall j :: 0 <= j < |data| ==> !Loud(data[j], threshold) by {
          forall j | 0 <= j < |data| ensures !Loud(data[j], threshold) {
            if j < |data| - 1 { assert data[j] == data[..|data| - 1][j]; }
          }
        }
        None
      case Some(i) =>
        assert forall j :: i <= j < |data| - 1 ==> data[j] == data[..|data| - 1][j];
        Some(i)
  }

  /** `start` of the source: the first loud index, 0 when there is none. */
  function TrimStart(data: seq<real>, threshold: real): nat {
    FirstLoud(data, threshold).GetOr(0)
  }

  /** `end` of the source: the last loud index, `data.length - 1` when there
      is none. */
  function TrimEnd(data: seq<real>, threshold: real): int {
    match LastLoud(data, threshold)
    case Some(e) => e
    case None => |data| - 1
  }

  /** The forward loop with its `break`. */
  method FindStart(data: seq<real>, threshold: real) returns (start: nat)
    ensures AnyLoud(data, threshold) ==>
              start < |data| && Loud(data[start], threshold)
              && forall j :: 0 <= j < start ==> !Loud(data[j], threshold)
    ensures !AnyLoud(data, threshold) ==> start == 0
    ensures start == TrimStart(data, threshold)
  {
    start := 0;
    var i := 0;
    while i < |data|
      invariant 0 <= i <= |data|
      invariant forall j :: 0 <= j < i ==> !Loud(data[j], threshold)
    {
      if Loud(data[i], threshold) {
        start := i;
        FirstLoudUnique(data, threshold, i);
        return;
      }
      i := i + 1;
    }
  }

  /** The backward loop with its `break`. */
  method FindEnd(data: seq<real>, threshold: real) returns (end: int)
    ensures AnyLoud(data, threshold) ==>
              0 <= end < |data| && Loud(data[end], threshold)
              && forall j :: end < j < |data| ==> !Loud(data[j], threshold)
    ensures !AnyLoud(data, threshold) ==> end == |data| - 1
    ensures end == TrimEnd(data, threshold)
  {
    end := |data| - 1;
    var i := |data| - 1;
    while i >= 0
      invariant -1 <= i < |data|
      invariant forall j :: i < j < |data| ==> !Loud(data[j], threshold)
    {
      if Loud(data[i], threshold) {
        end := i;
        LastLoudUnique(data, threshold, i);
        return;
      }
      i := i - 1;
    }
  }

  lemma FirstLoudUnique(data: seq<real>, threshold: real, i: nat)
    requires i < |data| && Loud(data[i], threshold)
    requires forall j :: 0 <= j < i ==> !Loud(data[j], threshold)
    ensures FirstLoud(data, threshold) == Some(i)
  {
    var r := FirstLoud(data, threshold);
    assert r.Some?;
    assert !(r.value < i);
  }

  lemma LastLoudUnique(data: seq<real>, threshold: real, i: nat)
    requires i < |data| && Loud(data[i], threshold)
    requires forall j :: i < j < |data| ==> !Loud(data[j], threshold)
    ensures LastLoud(data, threshold) == Some(i)
  {
    var r := LastLoud(data, threshold);
    assert r.Some?;
    assert !(r.value > i);
  }

  /** Every channel cut to the frames `[start, start + len)`. */
  function Slice(buffer: AudioBuffer, start: nat, len: nat): (r: AudioBuffer)
    requires buffer.WellFormed() && start + len <= buffer.length
    ensures r.WellFormed() && r.length == len
    ensures r.sampleRate == buffer.sampleRate && r.NumberOfChannels() == buffer.NumberOfChannels()
    ensures forall c, i :: 0 <= c < r.NumberOfChannels() && 0 <= i < len ==>
              r.channels[c][i] == buffer.channels[c][start + i]
  {
    AudioBuffer(buffer.sampleRate, len,
      seq(|buffer.channels|, c requires 0 <= c < |buffer.channels| => buffer.channels[c][start..start + len]))
  }

  /** `trimSilence` as written: channel 0 is scanned for the first and last
      sample above the threshold and every channel keeps the half-open range
      `[start, end)`. `getChannelData(0)` fails on a buffer without channels
      and `createBuffer` refuses a length below 1. */
  function TrimSilence(buffer: AudioBuffer, threshold: real): (r: Result<AudioBuffer>)
    requires buffer.WellFormed()
    ensures buffer.NumberOfChannels() == 0 ==> r.Err?
    ensures buffer.NumberOfChannels() > 0 ==>
              var data := buffer.channels[0];
              var start, end := TrimStart(data, threshold), TrimEnd(data, threshold);
              (r.Ok? <==> start < end)
              && (r.Ok? ==> r.value == Slice(buffer, start, end - start))
  {
    if buffer.NumberOfChannels() == 0 then Err("IndexSizeError: channel 0 does not exist")
    else
      var data := buffer.channels[0];
      var start, end := TrimStart(data, threshold), TrimEnd(data, threshold);
      var trimmedLength := end - start;
      if trimmedLength < 1 then Err("NotSupportedError: buffer length must be at least 1")
      else Ok(Slice(buffer, start, trimmedLength))
  }

  /** What the half-open slice means: the kept frames run from the first
      loud sample up to, but not including, the last one; a single loud
      sample, or a one-frame quiet buffer, is an error; a quiet buffer of two
      or more frames loses only its last frame. */
  lemma TrimSilenceBounds(buffer: AudioBuffer, threshold: real)
    requires buffer.WellFormed() && buffer.NumberOfChannels() > 0
    ensures var data := buffer.channels[0];
            var r := TrimSilence(buffer, threshold);
            && (AnyLoud(data, threshold) ==>
                  var first, last := FirstLoud(data, threshold).value, LastLoud(data, threshold).value;
                  first <= last
                  && (r.Ok? <==> first < last)
                  && (r.Ok? ==> r.value.length == last - first
                                && Loud(r.value.channels[0][0], threshold)))
            && (!AnyLoud(data, threshold) ==>
                  (r.Ok? <==> buffer.length >= 2)
                  && (r.Ok? ==> r.value == Slice(buffer, 0, buffer.length - 1)))
  {
  }

  /** The half-open slice loses the last loud sample: with channel 0 =
      [0, 0.5, 0.5, 0] and threshold 0.01 two samples are loud, but the
      trimmed buffer holds one. */
  lemma TrimDropsLastLoud()
    ensures var b := AudioBuffer(16000, 4, [[0.0, 0.5, 0.5, 0.0]]);
            var r := TrimSilence(b, 0.01);
            r.Ok? && r.value.channels == [[0.5]]
  {
    var b := AudioBuffer(16000, 4, [[0.0, 0.5, 0.5, 0.0]]);
    var data := b.channels[0];
    FirstLoudUnique(data, 0.01, 1);
    LastLoudUnique(data, 0.01, 2);
    assert TrimSilence(b, 0.01).value.channels[0] == [0.5];
  }

  /** A single loud sample makes the half-open slice empty, so the code's
      `createBuffer` call with length 0 throws, where the closed slice keeps
      the sample. */
  lemma TrimRejectsSingleLoudSample()
    ensures var b := AudioBuffer(16000, 3, [[0.0, 0.5, 0.0]]);
            TrimSilence(b, 0.01).Err? &&
            TrimSilenceInclusive(b, 0.01).Ok? && TrimSilenceInclusive(b, 0.01).value.channels == [[0.5]]
  {
    var b := AudioBuffer(16000, 3, [[0.0, 0.5, 0.0]]);
    var data := b.channels[0];
    FirstLoudUnique(data, 0.01, 1);
    LastLoudUnique(data, 0.01, 1);
    assert TrimSilenceInclusive(b, 0.01).value.channels[0] == [0.5];
  }

  /** `trimSilence` with the slice the code evidently means: every channel
      keeps the closed range from the first to the last loud sample of
      channel 0 (the whole buffer when nothing is loud). */
  function TrimSilenceInclusive(buffer: AudioBuffer, threshold: real): (r: Result<AudioBuffer>)
    requires buffer.WellFormed()
    ensures r.Err? <==> buffer.NumberOfChannels() == 0 || buffer.length == 0
  {
    if buffer.NumberOfChannels() == 0 then Err("IndexSizeError: channel 0 does not exist")
    else
      var data := buffer.channels[0];
      var start, end := TrimStart(data, threshold), TrimEnd(data, threshold);
      var trimmedLength := end - start + 1;
      if trimmedLength < 1 then Err("NotSupportedError: buffer length must be at least 1")
      else Ok(Slice(buffer, start, trimmedLength))
  }

  /** The corrected trim keeps every loud sample of channel 0, in place
      relative to the first one, begins and ends on a loud sample, and
      leaves a buffer with no loud sample unchanged. */
  lemma TrimInclusiveKeepsLoud(buffer: AudioBuffer, threshold: real)
    requires buffer.WellFormed() && buffer.NumberOfChannels() > 0 && buffer.length > 0
    ensures var data := buffer.channels[0];
            var out := TrimSilenceInclusive(buffer, threshold).value;
            && out.NumberOfChannels() == buffer.NumberOfChannels()
            && out.sampleRate == buffer.sampleRate
            && (forall i :: 0 <= i < |data| && Loud(data[i], threshold) ==>
                  var k := i - TrimStart(data, threshold);
                  0 <= k < out.length && out.channels[0][k] == data[i])
            && (AnyLoud(data, threshold) ==>
                  Loud(out.channels[0][0], threshold)
                  && Loud(out.channels[0][out.length - 1], threshold))
            && (!AnyLoud(data, threshold) ==> out.channels == buffer.channels)
  {
    var data := buffer.channels[0];
    var out := TrimSilenceInclusive(buffer, threshold).value;
    var start := TrimStart(data, threshold);
    forall i | 0 <= i < |data| && Loud(data[i], threshold)
      ensures 0 <= i - start < out.length
    {
      assert FirstLoud(data, threshold).Some? && LastLoud(data, threshold).Some?;
    }
    if !AnyLoud(data, threshold) {
      assert forall c :: 0 <= c < |buffer.channels| ==> buffer.channels[c][0..buffer.length] == buffer.channels[c];
    }
  }

  /** The `trimSilence` pipeline up to the WAV bytes, as written: the two
      scans, the half-open slice, then `audioBufferToWav`. */
  method TrimSilenceToWav(buffer: AudioBuffer, threshold: real) returns (r: Result<seq<uint8>>)
    requires buffer.WellFormed()
    ensures r.Ok? <==> TrimSilence(buffer, threshold).Ok?
    ensures r.Ok? ==> EncodesBuffer(r.value, TrimSilence(buffer, threshold).value)
  {
    if buffer.NumberOfChannels() == 0 {
      return Err("IndexSizeError: channel 0 does not exist");
    }
    var data := buffer.channels[0];
    var start := FindStart(data, threshold);
    var end := FindEnd(data, threshold);
    var trimmedLength := end - start;
    if trimmedLength < 1 {
      return Err("NotSupportedError: buffer length must be at least 1");
    }
    var trimmed := Slice(buffer, start, trimmedLength);
    var bytes := AudioBufferToWav(trimmed);
    assert TrimSilence(buffer, threshold) == Ok(trimmed);
    assert EncodesBuffer(bytes, trimmed);
    r := Ok(bytes);
  }

  /** The same pipeline over the corrected, closed slice. */
  method TrimSilenceInclusiveToWav(buffer: AudioBuffer, threshold: real) returns (r: Result<seq<uint8>>)
    requires buffer.WellFormed()
    ensures r.Ok? <==> TrimSilenceInclusive(buffer, threshold).Ok?
    ensures r.Ok? ==> EncodesBuffer(r.value, TrimSilenceInclusive(buffer, threshold).value)
  {
    if buffer.NumberOfChannels() == 0 {
      return Err("IndexSizeError: channel 0 does not exist");
    }
    var data := buffer.channels[0];
    var start := FindStart(data, threshold);
    var end := FindEnd(data, threshold);
    var trimmedLength := end - start + 1;
    if trimmedLength < 1 {
      return Err("NotSupportedError: buffer length must be at least 1");
    }
    var trimmed := Slice(buffer, start, trimmedLength);
    var bytes := AudioBufferToWav(trimmed);
    assert TrimSilenceInclusive(buffer, threshold) == Ok(trimmed);
    assert EncodesBuffer(bytes, trimmed);
    r := Ok(bytes);
  }

  /** `bytes` is the WAV encoding of the well-formed `buffer`: its length,
      its header, and each sample slot. */
  ghost predicate EncodesBuffer(bytes: seq<uint8>, buffer: AudioBuffer) {
    && buffer.WellFormed()
    && |bytes| == WavLength(buffer.length, buffer.NumberOfChannels())
    && bytes[..HEADER_SIZE] == Header(buffer.NumberOfChannels(), buffer.sampleRate, |bytes|)
    && forall f, c :: 0 <= f < buffer.length && 0 <= c < buffer.NumberOfChannels() ==>
         SampleOffset(buffer.NumberOfChannels(), f, c) + 2 <= |bytes|
         && ReadSample(bytes, buffer.NumberOfChannels(), f, c) == Quantize(buffer.channels[c][f])
  }

  // ---------------------------------------------------------------------
  // normalizeAudio
  // ---------------------------------------------------------------------

  /** No sample of `data` is louder than `p`. */
  ghost predicate Bounded(data: seq<real>, p: real) {
    forall i :: 0 <= i < |data| ==> Abs(data[i]) <= p
  }

  /** Some sample of `data` has magnitude `p`. */
  ghost predicate Attains(data: seq<real>, p: real) {
    exists i :: 0 <= i < |data| && Abs(data[i]) == p
  }

  /** `p` is the peak of the buffer: no sample's magnitude exceeds it, and it
      is either 0 (the starting value of the search) or some sample's
      magnitude. */
  ghost predicate IsPeak(buffer: AudioBuffer, p: real) {
    && p >= 0.0
    && (forall c :: 0 <= c < |buffer.channels| ==> Bounded(buffer.channels[c], p))
    && (p == 0.0 || exists c :: 0 <= c < |buffer.channels| && Attains(buffer.channels[c], p))
  }

  /** The peak is unique. */
  lemma PeakUnique(buffer: AudioBuffer, p: real, q: real)
    requires IsPeak(buffer, p) && IsPeak(buffer, q)
    ensures p == q
  {
  }

  /** A zero peak means every sample is zero. */
  lemma ZeroPeakIsSilence(buffer: AudioBuffer, c: nat, i: nat)
    requires IsPeak(buffer, 0.0)
    requires c < |buffer.channels| && i < |buffer.channels[c]|
    ensures buffer.channels[c][i] == 0.0
  {
    assert Bounded(buffer.channels[c], 0.0);
    assert Abs(buffer.channels[c][i]) <= 0.0;
  }

  /** The peak search of `normalizeAudio`:
      `maxAmplitude = Math.max(maxAmplitude, Math.abs(data[i]))` over every
      channel, starting from 0. */
  method FindPeak(buffer: AudioBuffer) returns (maxAmplitude: real)
    ensures IsPeak(buffer, maxAmplitude)
  {
    maxAmplitude := 0.0;
    ghost var wc, wi := 0, 0;
    for channel := 0 to |buffer.channels|
      invariant maxAmplitude >= 0.0
      invariant forall c :: 0 <= c < channel ==> Bounded(buffer.channels[c], maxAmplitude)
      invariant maxAmplitude != 0.0 ==>
                  wc < channel && wi < |buffer.channels[wc]| && Abs(buffer.channels[wc][wi]) == maxAmplitude
    {
      var data := buffer.channels[channel];
      for i := 0 to |data|
        invariant maxAmplitude >= 0.0
        invariant forall c :: 0 <= c < channel ==> Bounded(buffer.channels[c], maxAmplitude)
        invariant forall j :: 0 <= j < i ==> Abs(data[j]) <= maxAmplitude
        invariant maxAmplitude != 0.0 ==>
                    wc <= channel && wi < |buffer.channels[wc]| && Abs(buffer.channels[wc][wi]) == maxAmplitude
      {
        if Abs(data[i]) > maxAmplitude {
          maxAmplitude := Abs(data[i]);
          wc, wi := channel, i;
        }
      }
      assert Bounded(data, maxAmplitude);
    }
    if maxAmplitude != 0.0 {
      assert Attains(buffer.channels[wc], maxAmplitude);
    }
  }

  /** Largest magnitude in one channel, or 0. */
  function ChannelPeak(data: seq<real>): (p: real)
    ensures p >= 0.0 && Bounded(data, p)
    ensures p == 0.0 || Attains(data, p)
    decreases |data|
  {
    if |data| == 0 then 0.0
    else
      var init := data[..|data| - 1];
      var rest := ChannelPeak(init);
      assert forall i :: 0 <= i < |data| - 1 ==> data[i] == init[i];
      var x := Abs(data[|data| - 1]);
      if x > rest then x else rest
  }

  /** Largest magnitude over the first `n` channels, or 0. */
  function PeakUpTo(buffer: AudioBuffer, n: nat): (p: real)
    requires n <= |buffer.channels|
    ensures p >= 0.0
    ensures forall c :: 0 <= c < n ==> Bounded(buffer.channels[c], p)
    ensures p == 0.0 || exists c :: 0 <= c < n && Attains(buffer.channels[c], p)
    decreases n
  {
    if n == 0 then 0.0
    else
      var rest := PeakUpTo(buffer, n - 1);
      var here := ChannelPeak(buffer.channels[n - 1]);
      if here > rest then here else rest
  }

  /** The peak of the whole buffer. */
  function Peak(buffer: AudioBuffer): (p: real)
    ensures IsPeak(buffer, p)
  {
    PeakUpTo(buffer, |buffer.channels|)
  }

  /** One channel with every sample multiplied by `factor`. */
  function ScaleChannel(data: seq<real>, factor: real): (r: seq<real>)
    ensures |r| == |data|
    ensures forall i :: 0 <= i < |data| ==> r[i] == data[i] * factor
  {
    seq(|data|, i requires 0 <= i < |data| => data[i] * factor)
  }

  /** Every sample multiplied by `factor`. */
  function ScaleBuffer(buffer: AudioBuffer, factor: real): (r: AudioBuffer)
    ensures r.sampleRate == buffer.sampleRate && r.length == buffer.length
    ensures |r.channels| == |buffer.channels|
    ensures forall c :: 0 <= c < |r.channels| ==> r.channels[c] == ScaleChannel(buffer.channels[c], factor)
  {
    AudioBuffer(buffer.sampleRate, buffer.length,
      seq(|buffer.channels|, c requires 0 <= c < |buffer.channels| => ScaleChannel(buffer.channels[c], factor)))
  }

  lemma AbsScale(x: real, k: real)
    requires k > 0.0
    ensures Abs(x * k) == Abs(x) * k
  {
  }

  /** A sample of magnitude `p`, scaled by `k > 0`, has magnitude `p * k`. */
  lemma ScaledMagnitude(x: real, k: real, p: real, y: real)
    requires k > 0.0 && y == x * k && Abs(x) == p
    ensures Abs(y) == p * k
  {
    AbsScale(x, k);
  }

  lemma DivCancel(a: real, b: real)
    requires a != 0.0
    ensures a * (b / a) == b
  {
  }

  lemma MulMono(a: real, b: real, k: real)
    requires a <= b && k > 0.0
    ensures a * k <= b * k
  {
  }

  /** Scaling a channel by a positive factor scales its bound. */
  lemma ScaledBound(data: seq<real>, p: real, k: real, target: real)
    requires k > 0.0 && target == p * k && Bounded(data, p)
    ensures Bounded(ScaleChannel(data, k), target)
  {
    var r := ScaleChannel(data, k);
    forall i | 0 <= i < |r| ensures Abs(r[i]) <= target {
      AbsScale(data[i], k);
      MulMono(Abs(data[i]), p, k);
    }
  }

  /** Scaling a channel by a positive factor scales the magnitudes it
      attains. */
  lemma ScaledAttains(data: seq<real>, p: real, k: real, target: real)
    requires k > 0.0 && target == p * k && Attains(data, p)
    ensures Attains(ScaleChannel(data, k), target)
  {
    var r := ScaleChannel(data, k);
    var i :| 0 <= i < |data| && Abs(data[i]) == p;
    ScaledMagnitude(data[i], k, p, r[i]);
  }

  /** Scaling by a positive factor scales the peak by the same factor. */
  lemma ScaledPeak(buffer: AudioBuffer, p: real, factor: real, target: real)
    requires IsPeak(buffer, p) && factor > 0.0 && target == p * factor
    ensures IsPeak(ScaleBuffer(buffer, factor), target)
  {
    var r := ScaleBuffer(buffer, factor);
    forall c | 0 <= c < |r.channels|
      ensures Bounded(r.channels[c], target)
    {
      ScaledBound(buffer.channels[c], p, factor, target);
    }
    if p != 0.0 {
      var c :| 0 <= c < |buffer.channels| && Attains(buffer.channels[c], p);
      ScaledAttains(buffer.channels[c], p, factor, target);
      assert Attains(r.channels[c], target);
    }
  }

  /** Scaling by 0.95 / peak brings the peak to exactly 0.95. */
  lemma NormalizedPeak(buffer: AudioBuffer, p: real)
    requires IsPeak(buffer, p) && p > 0.0
    ensures IsPeak(ScaleBuffer(buffer, 0.95 / p), 0.95)
  {
    DivCancel(p, 0.95);
    ScaledPeak(buffer, p, 0.95 / p, 0.95);
  }

  /** `normalizeAudio` on the decoded buffer: every sample is multiplied by
      the same factor 0.95 / peak, after which the peak is exactly 0.95. A
      silent buffer (peak 0) has no finite factor: the source multiplies by
      Infinity and gets NaN samples, which this model reports as `None`. */
  method NormalizeAudio(buffer: AudioBuffer) returns (r: Option<AudioBuffer>)
    ensures r.None? <==> Peak(buffer) == 0.0
    ensures r.Some? ==>
              && r.value == ScaleBuffer(buffer, 0.95 / Peak(buffer))
              && IsPeak(r.value, 0.95)
  {
    var maxAmplitude := FindPeak(buffer);
    PeakUnique(buffer, maxAmplitude, Peak(buffer));
    if maxAmplitude == 0.0 {
      return None;
    }
    var factor := 0.95 / maxAmplitude;
    var scaled := ScaleBuffer(buffer, factor);
    NormalizedPeak(buffer, maxAmplitude);
    r := Some(scaled);
  }

  /** The `normalizeAudio` pipeline up to the WAV bytes. When the buffer is
      silent the source's NaN samples are written by `setInt16` as 0, so every
      stored sample is 0. */
  method NormalizeAudioToWav(buffer: AudioBuffer) returns (out: seq<uint8>)
    requires buffer.WellFormed()
    ensures |out| == WavLength(buffer.length, buffer.NumberOfChannels())
    ensures out[..HEADER_SIZE] == Header(buffer.NumberOfChannels(), buffer.sampleRate, |out|)
    ensures forall f, c :: 0 <= f < buffer.length && 0 <= c < buffer.NumberOfChannels() ==>
              SampleOffset(buffer.NumberOfChannels(), f, c) + 2 <= |out|
              && ReadSample(out, buffer.NumberOfChannels(), f, c)
                 == if Peak(buffer) == 0.0 then 0
                    else Quantize(ScaleBuffer(buffer, 0.95 / Peak(buffer)).channels[c][f])
  {
    var normalized := NormalizeAudio(buffer);
    match normalized {
      case None =>
        out := AudioBufferToWav(buffer);
        forall f, c | 0 <= f < buffer.length && 0 <= c < buffer.NumberOfChannels()
          ensures ReadSample(out, buffer.NumberOfChannels(), f, c) == 0
        {
          ZeroPeakIsSilence(buffer, c, f);
        }
      case Some(scaled) =>
        out := AudioBufferToWav(scaled);
    }
  }
}
