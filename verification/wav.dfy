/** `audioBufferToWav`: a decoded buffer becomes a canonical 44-byte RIFF/WAVE
    header (one `fmt ` chunk, WAVE_FORMAT_PCM, 16 bits per sample) followed by
    the samples interleaved frame by frame, each a little-endian signed 16-bit
    integer. */
module Wav {
  import opened Bytes
  import opened Wrappers

  /** A decoded `AudioBuffer`: one sample sequence per channel, every one of
      `length` frames. Samples are exact reals. */
  datatype AudioBuffer = AudioBuffer(sampleRate: nat, length: nat, channels: seq<seq<real>>) {

    function NumberOfChannels(): nat {
      |channels|
    }

    /** What an `AudioBuffer` guarantees: every channel holds `length` samples. */
    ghost predicate WellFormed() {
      forall c :: 0 <= c < |channels| ==> |channels[c]| == length
    }
  }

  const HEADER_SIZE: nat := 44

  /** `buffer.length * numOfChan * 2 + 44`. */
  function WavLength(frames: nat, numChannels: nat): (n: nat)
    ensures n >= HEADER_SIZE
  {
    frames * numChannels * 2 + HEADER_SIZE
  }

  // ---------------------------------------------------------------------
  // Sample conversion: clamp, asymmetric scale, truncate toward zero.
  // ---------------------------------------------------------------------

  /** `Math.max(-1, Math.min(1, x))`. */
  function Clamp(x: real): (r: real)
    ensures -1.0 <= r <= 1.0
    ensures -1.0 <= x <= 1.0 ==> r == x
    ensures x > 1.0 ==> r == 1.0
    ensures x < -1.0 ==> r == -1.0
  {
    if x < -1.0 then -1.0 else if x > 1.0 then 1.0 else x
  }

  /** `sample < 0 ? sample * 0x8000 : sample * 0x7FFF`. */
  function Scale(s: real): real {
    if s < 0.0 then s * 32768.0 else s * 32767.0
  }

  /** Truncation toward zero, the integer part `ToInt16` keeps. */
  function Trunc(r: real): (n: int)
    ensures r >= 0.0 ==> n >= 0 && n as real <= r < n as real + 1.0
    ensures r < 0.0 ==> n <= 0 && n as real - 1.0 < r <= n as real
  {
    if r >= 0.0 then r.Floor else -((-r).Floor)
  }

  /** The 16-bit value stored for one sample. */
  function Quantize(x: real): (q: int)
    ensures IsInt16(q)
    ensures x >= 0.0 ==> 0 <= q <= 0x7FFF
    ensures x < 0.0 ==> -0x8000 <= q <= 0
    ensures x >= 1.0 ==> q == 0x7FFF
    ensures x <= -1.0 ==> q == -0x8000
  {
    Trunc(Scale(Clamp(x)))
  }

  /** The usual reading of a stored value back as a sample: the inverse of the
      asymmetric scale. */
  function Dequantize(q: int): (x: real)
    requires IsInt16(q)
    ensures -1.0 <= x <= 1.0
  {
    if q < 0 then q as real / 32768.0 else q as real / 32767.0
  }

  /** Every 16-bit value survives reading back and writing again. */
  lemma QuantizeDequantize(q: int)
    requires IsInt16(q)
    ensures Quantize(Dequantize(q)) == q
  {
    var x := Dequantize(q);
    if q < 0 {
      assert Scale(Clamp(x)) == q as real;
    } else {
      assert Scale(Clamp(x)) == q as real;
    }
  }

  /** Writing then reading back loses less than one step of the scale: the
      recovered sample lies within 1/32767 of the clamped input, on the side of
      zero. */
  lemma DequantizeQuantize(x: real)
    ensures Clamp(x) >= 0.0 ==> 0.0 <= Clamp(x) - Dequantize(Quantize(x)) < 1.0 / 32767.0
    ensures Clamp(x) < 0.0 ==> 0.0 <= Dequantize(Quantize(x)) - Clamp(x) < 1.0 / 32768.0
  {
    var s := Clamp(x);
    var q := Quantize(x);
    if s >= 0.0 {
      assert q as real <= s * 32767.0 < q as real + 1.0;
      assert q >= 0;
    } else {
      assert q as real - 1.0 < s * 32768.0 <= q as real;
      if q == 0 {
        assert Dequantize(q) == 0.0;
      } else {
        assert q < 0;
      }
    }
  }

  lemma FloorMonotone(a: real, b: real)
    requires a <= b
    ensures a.Floor <= b.Floor
  {
  }

  lemma TruncMonotone(a: real, b: real)
    requires a <= b
    ensures Trunc(a) <= Trunc(b)
  {
    if a >= 0.0 {
      FloorMonotone(a, b);
    } else if b < 0.0 {
      FloorMonotone(-b, -a);
    }
  }

  /** Louder input never gives a smaller stored value. */
  lemma QuantizeMonotone(x: real, y: real)
    requires x <= y
    ensures Quantize(x) <= Quantize(y)
  {
    var cx, cy := Clamp(x), Clamp(y);
    assert cx <= cy;
    assert Scale(cx) <= Scale(cy);
    TruncMonotone(Scale(cx), Scale(cy));
  }

  // ---------------------------------------------------------------------
  // The header: the canonical layout, and a parser as its partner.
  // ---------------------------------------------------------------------

  const RIFF_TAG: nat := 0x46464952
  const WAVE_TAG: nat := 0x45564157
  const FMT_TAG: nat := 0x20746d66
  const DATA_TAG: nat := 0x61746164

  /** The four magic numbers are the ASCII chunk identifiers once written
      little-endian. */
  lemma TagsSpellIdentifiers()
    ensures LE32(RIFF_TAG) == Ascii("RIFF")
    ensures LE32(WAVE_TAG) == Ascii("WAVE")
    ensures LE32(FMT_TAG) == Ascii("fmt ")
    ensures LE32(DATA_TAG) == Ascii("data")
  {
  }

  /** The RIFF chunk descriptor: tag, file length minus 8, form type. */
  function RiffDescriptor(riffSize: nat): (b: seq<uint8>)
    requires IsUint32(riffSize)
    ensures |b| == 12
  {
    LE32(RIFF_TAG) + LE32(riffSize) + LE32(WAVE_TAG)
  }

  /** The `fmt ` chunk: size 16, PCM format 1, channel count, sample rate,
      byte rate, block align, 16 bits per sample. */
  function FmtChunk(channels: nat, rate: nat, byteRate: nat, blockAlign: nat): (b: seq<uint8>)
    requires IsUint16(channels) && IsUint32(rate) && IsUint32(byteRate) && IsUint16(blockAlign)
    ensures |b| == 24
  {
    LE32(FMT_TAG) + LE32(16) + LE16(1) + LE16(channels)
    + LE32(rate) + LE32(byteRate) + LE16(blockAlign) + LE16(16)
  }

  /** The `data` chunk's tag and size. */
  function DataChunkHeader(dataSize: nat): (b: seq<uint8>)
    requires IsUint32(dataSize)
    ensures |b| == 8
  {
    LE32(DATA_TAG) + LE32(dataSize)
  }

  /** The 44 header bytes for `numChannels` channels at `sampleRate`, in a file
      of `length` bytes, with the wrap-around `setUint16`/`setUint32` apply. */
  function Header(numChannels: nat, sampleRate: nat, length: nat): (h: seq<uint8>)
    requires length >= HEADER_SIZE
    ensures |h| == HEADER_SIZE
  {
    RiffDescriptor(ToUint32(length - 8))
    + FmtChunk(ToUint16(numChannels), ToUint32(sampleRate),
               ToUint32(sampleRate * 2 * numChannels), ToUint16(numChannels * 2))
    + DataChunkHeader(ToUint32(length - HEADER_SIZE))
  }

  /** The bytes of `m` when it sits between `a` and `z`. */
  lemma Middle(a: seq<uint8>, m: seq<uint8>, z: seq<uint8>)
    ensures (a + m + z)[|a|..|a| + |m|] == m
  {
  }

  lemma RiffLayout(riffSize: nat)
    requires IsUint32(riffSize)
    ensures var b := RiffDescriptor(riffSize);
      b[0..4] == Ascii("RIFF") && DecodeLE32(b[4..8]) == riffSize && b[8..12] == Ascii("WAVE")
  {
    var b := RiffDescriptor(riffSize);
    TagsSpellIdentifiers();
    assert b[0..4] == LE32(RIFF_TAG);
    assert b[4..8] == LE32(riffSize);
    assert b[8..12] == LE32(WAVE_TAG);
    DecodeEncode32(riffSize);
  }

  lemma FmtLayout(channels: nat, rate: nat, byteRate: nat, blockAlign: nat)
    requires IsUint16(channels) && IsUint32(rate) && IsUint32(byteRate) && IsUint16(blockAlign)
    ensures var b := FmtChunk(channels, rate, byteRate, blockAlign);
      && b[0..4] == Ascii("fmt ")
      && DecodeLE32(b[4..8]) == 16
      && DecodeLE16(b[8..10]) == 1
      && DecodeLE16(b[10..12]) == channels
      && DecodeLE32(b[12..16]) == rate
      && DecodeLE32(b[16..20]) == byteRate
      && DecodeLE16(b[20..22]) == blockAlign
      && DecodeLE16(b[22..24]) == 16
  {
    var b := FmtChunk(channels, rate, byteRate, blockAlign);
    TagsSpellIdentifiers();
    assert b[0..4] == LE32(FMT_TAG);
    assert b[4..8] == LE32(16);
    assert b[8..10] == LE16(1);
    assert b[10..12] == LE16(channels);
    assert b[12..16] == LE32(rate);
    assert b[16..20] == LE32(byteRate);
    assert b[20..22] == LE16(blockAlign);
    Middle(b[..22], LE16(16), []);
    assert b == b[..22] + LE16(16) + [];
    DecodeEncode32(16);
    DecodeEncode16(1);
    DecodeEncode16(channels);
    DecodeEncode32(rate);
    DecodeEncode32(byteRate);
    DecodeEncode16(blockAlign);
    DecodeEncode16(16);
  }

  lemma DataLayout(dataSize: nat)
    requires IsUint32(dataSize)
    ensures var b := DataChunkHeader(dataSize);
      b[0..4] == Ascii("data") && DecodeLE32(b[4..8]) == dataSize
  {
    var b := DataChunkHeader(dataSize);
    TagsSpellIdentifiers();
    assert b[0..4] == LE32(DATA_TAG);
    assert b[4..8] == LE32(dataSize);
    DecodeEncode32(dataSize);
  }

  /** Every field of the header sits at its fixed offset. */
  lemma HeaderLayout(numChannels: nat, sampleRate: nat, length: nat)
    requires length >= HEADER_SIZE
    ensures var h := Header(numChannels, sampleRate, length);
      && h[0..4] == Ascii("RIFF")
      && DecodeLE32(h[4..8]) == ToUint32(length - 8)
      && h[8..12] == Ascii("WAVE")
      && h[12..16] == Ascii("fmt ")
      && DecodeLE32(h[16..20]) == 16
      && DecodeLE16(h[20..22]) == 1
      && DecodeLE16(h[22..24]) == ToUint16(numChannels)
      && DecodeLE32(h[24..28]) == ToUint32(sampleRate)
      && DecodeLE32(h[28..32]) == ToUint32(sampleRate * 2 * numChannels)
      && DecodeLE16(h[32..34]) == ToUint16(numChannels * 2)
      && DecodeLE16(h[34..36]) == 16
      && h[36..40] == Ascii("data")
      && DecodeLE32(h[40..44]) == ToUint32(length - HEADER_SIZE)
  {
    var h := Header(numChannels, sampleRate, length);
    var riffSize, dataSize := ToUint32(length - 8), ToUint32(length - HEADER_SIZE);
    var ch, rate := ToUint16(numChannels), ToUint32(sampleRate);
    var byteRate, align := ToUint32(sampleRate * 2 * numChannels), ToUint16(numChannels * 2);
    var r, f, d := RiffDescriptor(riffSize), FmtChunk(ch, rate, byteRate, align), DataChunkHeader(dataSize);
    RiffLayout(riffSize);
    FmtLayout(ch, rate, byteRate, align);
    DataLayout(dataSize);
    assert h == r + f + d;
    assert h[0..4] == r[0..4] && h[4..8] == r[4..8] && h[8..12] == r[8..12];
    assert h[12..16] == f[0..4] && h[16..20] == f[4..8] && h[20..22] == f[8..10];
    assert h[22..24] == f[10..12] && h[24..28] == f[12..16] && h[28..32] == f[16..20];
    assert h[32..34] == f[20..22] && h[34..36] == f[22..24];
    assert h[36..40] == d[0..4] && h[40..44] == d[4..8];
  }

  /** The header fields a reader recovers. */
  datatype Format = Format(numChannels: nat, sampleRate: nat, length: nat)

  /** A file whose header values need no wrap-around. */
  predicate Representable(numChannels: nat, sampleRate: nat, length: nat) {
    && HEADER_SIZE <= length
    && IsUint32(length - 8)
    && IsUint16(numChannels * 2)
    && IsUint32(sampleRate)
    && IsUint32(sampleRate * 2 * numChannels)
  }

  /** Reads a `fmt ` chunk: the tag, size and constants must be the canonical
      ones and byte rate and block align must agree with the channel count and
      sample rate. */
  function ParseFmt(b: seq<uint8>): (r: Option<(nat, nat)>)
    requires |b| == 24
    ensures r.Some? ==> IsUint16(r.value.0 * 2) && IsUint32(r.value.1) && IsUint32(r.value.1 * 2 * r.value.0)
  {
    var chans := DecodeLE16(b[10..12]);
    var rate := DecodeLE32(b[12..16]);
    var byteRate := DecodeLE32(b[16..20]);
    var align := DecodeLE16(b[20..22]);
    if && b[0..4] == LE32(FMT_TAG)
       && DecodeLE32(b[4..8]) == 16
       && DecodeLE16(b[8..10]) == 1
       && byteRate == rate * 2 * chans
       && align == chans * 2
       && DecodeLE16(b[22..24]) == 16
    then Some((chans, rate))
    else None
  }

  /** A strict reader of the canonical header: the tags must be present, the
      `fmt ` chunk canonical, and the RIFF size must be the data size plus 36. */
  function ParseHeader(h: seq<uint8>): (r: Option<Format>)
    requires |h| == HEADER_SIZE
    ensures r.Some? ==> Representable(r.value.numChannels, r.value.sampleRate, r.value.length)
  {
    var riffSize := DecodeLE32(h[4..8]);
    var dataSize := DecodeLE32(h[40..44]);
    var fmt := ParseFmt(h[12..36]);
    if && fmt.Some?
       && h[0..4] == LE32(RIFF_TAG)
       && h[8..12] == LE32(WAVE_TAG)
       && h[36..40] == LE32(DATA_TAG)
       && riffSize == dataSize + 36
    then Some(Format(fmt.value.0, fmt.value.1, dataSize + HEADER_SIZE))
    else None
  }

  lemma ParseFmtOfFmt(numChannels: nat, sampleRate: nat)
    requires IsUint16(numChannels * 2) && IsUint32(sampleRate) && IsUint32(sampleRate * 2 * numChannels)
    ensures ParseFmt(FmtChunk(numChannels, sampleRate, sampleRate * 2 * numChannels, numChannels * 2))
            == Some((numChannels, sampleRate))
  {
    FmtLayout(numChannels, sampleRate, sampleRate * 2 * numChannels, numChannels * 2);
    TagsSpellIdentifiers();
  }

  lemma FmtOfParseFmt(b: seq<uint8>)
    requires |b| == 24 && ParseFmt(b).Some?
    ensures var (c, r) := ParseFmt(b).value;
            FmtChunk(c, r, r * 2 * c, c * 2) == b
  {
    EncodeDecode32(b[4..8]);
    EncodeDecode16(b[8..10]);
    EncodeDecode16(b[10..12]);
    EncodeDecode32(b[12..16]);
    EncodeDecode32(b[16..20]);
    EncodeDecode16(b[20..22]);
    EncodeDecode16(b[22..24]);
    assert b == b[0..4] + b[4..8] + b[8..10] + b[10..12] + b[12..16] + b[16..20]
              + b[20..22] + b[22..24];
  }

  /** Reading a written header gives back what was written. */
  lemma ParseHeaderOfHeader(numChannels: nat, sampleRate: nat, length: nat)
    requires Representable(numChannels, sampleRate, length)
    ensures ParseHeader(Header(numChannels, sampleRate, length))
            == Some(Format(numChannels, sampleRate, length))
  {
    var h := Header(numChannels, sampleRate, length);
    HeaderLayout(numChannels, sampleRate, length);
    TagsSpellIdentifiers();
    assert h[12..36] == FmtChunk(numChannels, sampleRate, sampleRate * 2 * numChannels, numChannels * 2);
    ParseFmtOfFmt(numChannels, sampleRate);
  }

  lemma RiffOfBytes(b: seq<uint8>)
    requires |b| == 12 && b[0..4] == LE32(RIFF_TAG) && b[8..12] == LE32(WAVE_TAG)
    ensures RiffDescriptor(DecodeLE32(b[4..8])) == b
  {
    EncodeDecode32(b[4..8]);
    assert b == b[0..4] + b[4..8] + b[8..12];
  }

  lemma DataOfBytes(b: seq<uint8>)
    requires |b| == 8 && b[0..4] == LE32(DATA_TAG)
    ensures DataChunkHeader(DecodeLE32(b[4..8])) == b
  {
    EncodeDecode32(b[4..8]);
    assert b == b[0..4] + b[4..8];
  }

  /** A header the reader accepts is exactly the one the writer produces for
      the values read. */
  lemma HeaderOfParseHeader(h: seq<uint8>)
    requires |h| == HEADER_SIZE
    requires ParseHeader(h).Some?
    ensures var f := ParseHeader(h).value;
            Header(f.numChannels, f.sampleRate, f.length) == h
  {
    var f := ParseHeader(h).value;
    FmtOfFields(h[12..36], f.numChannels, f.sampleRate);
    HeaderOfFields(h, f.numChannels, f.sampleRate, f.length);
  }

  /** A `fmt ` chunk that reads back as `c` and `rate` is the one the writer
      produces for them. */
  lemma FmtOfFields(m: seq<uint8>, c: nat, rate: nat)
    requires |m| == 24 && ParseFmt(m) == Some((c, rate))
    ensures FmtChunk(ToUint16(c), ToUint32(rate), ToUint32(rate * 2 * c), ToUint16(c * 2)) == m
  {
    FmtOfParseFmt(m);
  }

  /** Bytes whose tags and sizes read back as `length`, around the `fmt `
      chunk the writer produces for `c` and `rate`, are the header the writer
      produces for those values. */
  lemma HeaderOfFields(h: seq<uint8>, c: nat, rate: nat, length: nat)
    requires |h| == HEADER_SIZE && length >= HEADER_SIZE
    requires h[0..4] == LE32(RIFF_TAG) && h[8..12] == LE32(WAVE_TAG) && h[36..40] == LE32(DATA_TAG)
    requires DecodeLE32(h[4..8]) == length - 8 && DecodeLE32(h[40..44]) == length - HEADER_SIZE
    requires FmtChunk(ToUint16(c), ToUint32(rate), ToUint32(rate * 2 * c), ToUint16(c * 2)) == h[12..36]
    ensures Header(c, rate, length) == h
  {
    var r, m, d := h[..12], h[12..36], h[36..];
    assert RiffDescriptor(ToUint32(length - 8)) == r by {
      assert r[0..4] == h[0..4] && r[4..8] == h[4..8] && r[8..12] == h[8..12];
      RiffOfBytes(r);
    }
    assert DataChunkHeader(ToUint32(length - HEADER_SIZE)) == d by {
      assert d[0..4] == h[36..40] && d[4..8] == h[40..44];
      DataOfBytes(d);
    }
    assert h == r + m + d;
  }

  // ---------------------------------------------------------------------
  // The writer: a DataView with a moving position.
  // ---------------------------------------------------------------------

  /** The `view` being filled and the closure variable `pos`. */
  datatype Cursor = Cursor(view: seq<uint8>, pos: nat)

  /** `view` with `b` written at `at`, every other byte kept. */
  function WriteAt(view: seq<uint8>, at: nat, b: seq<uint8>): (r: seq<uint8>)
    requires at + |b| <= |view|
    ensures |r| == |view|
    ensures r[at..at + |b|] == b
    ensures forall i :: 0 <= i < |view| && !(at <= i < at + |b|) ==> r[i] == view[i]
  {
    view[..at] + b + view[at + |b|..]
  }

  /** The local `setUint16`: writes `data` little-endian at `pos`, then
      advances `pos` by two. */
  function SetUint16(cur: Cursor, data: int): (r: Cursor)
    requires cur.pos + 2 <= |cur.view|
    ensures r.pos == cur.pos + 2 && |r.view| == |cur.view|
    ensures DecodeLE16(r.view[cur.pos..r.pos]) == ToUint16(data)
    ensures r.view[..r.pos] == cur.view[..cur.pos] + LE16(ToUint16(data))
    ensures forall i :: 0 <= i < |cur.view| && !(cur.pos <= i < r.pos) ==> r.view[i] == cur.view[i]
  {
    DecodeEncode16(ToUint16(data));
    Cursor(WriteAt(cur.view, cur.pos, LE16(ToUint16(data))), cur.pos + 2)
  }

  /** The local `setUint32`: writes `data` little-endian at `pos`, then
      advances `pos` by four. */
  function SetUint32(cur: Cursor, data: int): (r: Cursor)
    requires cur.pos + 4 <= |cur.view|
    ensures r.pos == cur.pos + 4 && |r.view| == |cur.view|
    ensures DecodeLE32(r.view[cur.pos..r.pos]) == ToUint32(data)
    ensures r.view[..r.pos] == cur.view[..cur.pos] + LE32(ToUint32(data))
    ensures forall i :: 0 <= i < |cur.view| && !(cur.pos <= i < r.pos) ==> r.view[i] == cur.view[i]
  {
    DecodeEncode32(ToUint32(data));
    Cursor(WriteAt(cur.view, cur.pos, LE32(ToUint32(data))), cur.pos + 4)
  }

  /** `view.setInt16(pos, sample, true); pos += 2`: ECMAScript `ToInt16`
      truncates the number toward zero and wraps it to 16 bits. */
  function SetInt16(cur: Cursor, sample: real): (r: Cursor)
    requires cur.pos + 2 <= |cur.view|
    ensures r.pos == cur.pos + 2 && |r.view| == |cur.view|
    ensures IsInt16(Trunc(sample)) ==>
              Int16Value(DecodeLE16(r.view[cur.pos..r.pos])) == Trunc(sample)
    ensures forall i :: 0 <= i < |cur.view| && !(cur.pos <= i < r.pos) ==> r.view[i] == cur.view[i]
  {
    SetUint16(cur, Trunc(sample))
  }

  lemma Assoc(a: seq<uint8>, b: seq<uint8>, c: seq<uint8>)
    ensures a + b + c == a + (b + c)
  {
  }

  /** The eight writes of the `fmt ` chunk, appended to what is written. */
  method WriteFmt(cur: Cursor, numOfChan: nat, sampleRate: nat) returns (r: Cursor)
    requires cur.pos + 24 <= |cur.view|
    ensures r.pos == cur.pos + 24 && |r.view| == |cur.view|
    ensures r.view[..r.pos] == cur.view[..cur.pos]
              + FmtChunk(ToUint16(numOfChan), ToUint32(sampleRate),
                         ToUint32(sampleRate * 2 * numOfChan), ToUint16(numOfChan * 2))
  {
    var before := cur.view[..cur.pos];
    var byteRate := sampleRate * 2 * numOfChan;
    var align := numOfChan * 2;
    r := SetUint32(cur, FMT_TAG);
    r := SetUint32(r, 16);
    var a := LE32(FMT_TAG) + LE32(16);
    Assoc(before, LE32(FMT_TAG), LE32(16));
    r := SetUint16(r, 1);
    Assoc(before, a, LE16(1));
    a := a + LE16(1);
    r := SetUint16(r, numOfChan);
    Assoc(before, a, LE16(ToUint16(numOfChan)));
    a := a + LE16(ToUint16(numOfChan));
    r := SetUint32(r, sampleRate);
    Assoc(before, a, LE32(ToUint32(sampleRate)));
    a := a + LE32(ToUint32(sampleRate));
    r := SetUint32(r, byteRate);
    Assoc(before, a, LE32(ToUint32(byteRate)));
    a := a + LE32(ToUint32(byteRate));
    r := SetUint16(r, align);
    Assoc(before, a, LE16(ToUint16(align)));
    a := a + LE16(ToUint16(align));
    r := SetUint16(r, 16);
    Assoc(before, a, LE16(16));
  }

  /** The thirteen `setUint32`/`setUint16` calls of the header, from position
      0 of a view of `length` bytes: they leave the canonical header in the
      first 44 bytes and the position at 44. */
  method WriteHeader(cur: Cursor, numOfChan: nat, sampleRate: nat) returns (r: Cursor)
    requires cur.pos == 0 && |cur.view| >= HEADER_SIZE
    ensures r.pos == HEADER_SIZE && |r.view| == |cur.view|
    ensures r.view[..HEADER_SIZE] == Header(numOfChan, sampleRate, |cur.view|)
  {
    var length := |cur.view|;
    r := SetUint32(cur, RIFF_TAG);
    r := SetUint32(r, length - 8);
    r := SetUint32(r, WAVE_TAG);
    var riff := RiffDescriptor(ToUint32(length - 8));
    assert r.view[..12] == riff;
    r := WriteFmt(r, numOfChan, sampleRate);
    var fmt := FmtChunk(ToUint16(numOfChan), ToUint32(sampleRate),
                        ToUint32(sampleRate * 2 * numOfChan), ToUint16(numOfChan * 2));
    r := SetUint32(r, DATA_TAG);
    r := SetUint32(r, length - r.pos - 4);
    Assoc(riff + fmt, LE32(DATA_TAG), LE32(ToUint32(length - HEADER_SIZE)));
  }

  /** Byte offset of frame `f`, channel `c`. */
  function SampleOffset(numChannels: nat, f: nat, c: nat): nat {
    HEADER_SIZE + 2 * (f * numChannels + c)
  }

  /** The sample a reader finds for frame `f`, channel `c`. */
  function ReadSample(bytes: seq<uint8>, numChannels: nat, f: nat, c: nat): int
    requires SampleOffset(numChannels, f, c) + 2 <= |bytes|
  {
    var at := SampleOffset(numChannels, f, c);
    Int16Value(DecodeLE16(bytes[at..at + 2]))
  }

  /** Distinct (frame, channel) pairs own distinct, non-overlapping slots. */
  lemma SampleOffsetInjective(numChannels: nat, f: nat, c: nat, f': nat, c': nat)
    requires c < numChannels && c' < numChannels
    requires (f, c) != (f', c')
    ensures SampleOffset(numChannels, f, c) + 2 <= SampleOffset(numChannels, f', c')
         || SampleOffset(numChannels, f', c') + 2 <= SampleOffset(numChannels, f, c)
  {
    if f < f' {
      SlotBefore(numChannels, f, c, f', 0);
    } else if f' < f {
      SlotBefore(numChannels, f', c', f, 0);
    }
  }

  /** The slots tile the data chunk: every data byte belongs to the slot of
      exactly the frame and channel its position names. */
  lemma SampleSlotCovers(frames: nat, numChannels: nat, p: nat)
    requires HEADER_SIZE <= p < WavLength(frames, numChannels)
    ensures numChannels > 0
    ensures var k := (p - HEADER_SIZE) / 2;
            var f, c := k / numChannels, k % numChannels;
            f < frames && c < numChannels
            && SampleOffset(numChannels, f, c) <= p < SampleOffset(numChannels, f, c) + 2
  {
    var k := (p - HEADER_SIZE) / 2;
    assert k < frames * numChannels;
    var f, c := k / numChannels, k % numChannels;
    assert k == f * numChannels + c;
    if f >= frames {
      MulLe(frames, f, numChannels);
    }
  }

  lemma MulLe(a: nat, b: nat, n: nat)
    requires a <= b
    ensures a * n <= b * n
  {
  }

  /** A slot of an earlier frame, or of an earlier channel in the same frame,
      ends before the writer's position. */
  lemma SlotBefore(numChannels: nat, f: nat, c: nat, frame: nat, i: nat)
    requires c < numChannels
    requires f < frame || (f == frame && c < i)
    ensures SampleOffset(numChannels, f, c) + 2 <= HEADER_SIZE + 2 * (frame * numChannels + i)
  {
    if f < frame {
      MulLe(f + 1, frame, numChannels);
    }
  }

  /** Before the last frame has been written the data chunk is not full. */
  lemma FrameInRange(frames: nat, numChannels: nat, offset: nat)
    requires HEADER_SIZE + 2 * (offset * numChannels) < WavLength(frames, numChannels)
    ensures offset < frames && numChannels > 0
  {
    if offset >= frames {
      MulLe(frames, offset, numChannels);
    }
  }

  /** A sample slot that lies inside a shared prefix reads the same. */
  lemma ReadSamplePrefix(v: seq<uint8>, w: seq<uint8>, p: nat, numChannels: nat, f: nat, c: nat)
    requires p <= |v| && p <= |w| && v[..p] == w[..p]
    requires SampleOffset(numChannels, f, c) + 2 <= p
    ensures ReadSample(v, numChannels, f, c) == ReadSample(w, numChannels, f, c)
  {
    var at := SampleOffset(numChannels, f, c);
    assert v[at..at + 2] == v[..p][at..at + 2];
    assert w[at..at + 2] == w[..p][at..at + 2];
  }

  /** The inner `for` loop of the source: writes one frame, every channel in
      order, each sample clamped, scaled and stored with `setInt16`. Nothing
      before the frame changes. */
  method WriteFrame(cur: Cursor, buffer: AudioBuffer, offset: nat) returns (r: Cursor)
    requires buffer.WellFormed() && offset < buffer.length
    requires cur.pos == SampleOffset(buffer.NumberOfChannels(), offset, 0)
    requires cur.pos + 2 * buffer.NumberOfChannels() <= |cur.view|
    ensures r.pos == cur.pos + 2 * buffer.NumberOfChannels() && |r.view| == |cur.view|
    ensures r.view[..cur.pos] == cur.view[..cur.pos]
    ensures forall c :: 0 <= c < buffer.NumberOfChannels() ==>
              SampleOffset(buffer.NumberOfChannels(), offset, c) + 2 <= r.pos
              && ReadSample(r.view, buffer.NumberOfChannels(), offset, c)
                 == Quantize(buffer.channels[c][offset])
  {
    var numOfChan := buffer.NumberOfChannels();
    r := cur;
    for i := 0 to numOfChan
      invariant |r.view| == |cur.view|
      invariant r.pos == SampleOffset(numOfChan, offset, i)
      invariant r.view[..cur.pos] == cur.view[..cur.pos]
      invariant forall c :: 0 <= c < i ==>
                  SampleOffset(numOfChan, offset, c) + 2 <= r.pos
                  && ReadSample(r.view, numOfChan, offset, c) == Quantize(buffer.channels[c][offset])
    {
      var sample := Clamp(buffer.channels[i][offset]);
      sample := Scale(sample);
      var prev := r;
      r := SetInt16(r, sample);
      assert r.view[..prev.pos] == prev.view[..prev.pos];
      forall c | 0 <= c < i
        ensures ReadSample(r.view, numOfChan, offset, c) == ReadSample(prev.view, numOfChan, offset, c)
      {
        ReadSamplePrefix(r.view, prev.view, prev.pos, numOfChan, offset, c);
      }
      assert r.view[prev.pos..r.pos] == r.view[SampleOffset(numOfChan, offset, i)..SampleOffset(numOfChan, offset, i) + 2];
    }
  }

  /** `audioBufferToWav`, step by step as the source writes it. The result has
      `frames * channels * 2 + 44` bytes, starts with the canonical header and
      holds each frame's sample for each channel, quantized, in its slot. */
  method AudioBufferToWav(buffer: AudioBuffer) returns (out: seq<uint8>)
    requires buffer.WellFormed()
    ensures |out| == WavLength(buffer.length, buffer.NumberOfChannels())
    ensures out[..HEADER_SIZE] == Header(buffer.NumberOfChannels(), buffer.sampleRate, |out|)
    ensures forall f, c :: 0 <= f < buffer.length && 0 <= c < buffer.NumberOfChannels() ==>
              SampleOffset(buffer.NumberOfChannels(), f, c) + 2 <= |out|
              && ReadSample(out, buffer.NumberOfChannels(), f, c) == Quantize(buffer.channels[c][f])
  {
    var numOfChan := buffer.NumberOfChannels();
    var length := WavLength(buffer.length, numOfChan);
    var cur := Cursor(seq(length, _ => 0 as uint8), 0);
    cur := WriteHeader(cur, numOfChan, buffer.sampleRate);
    ghost var header := cur.view[..HEADER_SIZE];

    var offset := 0;
    while cur.pos < length
      invariant |cur.view| == length
      invariant cur.pos == SampleOffset(numOfChan, offset, 0) <= length
      invariant offset <= buffer.length
      invariant cur.view[..HEADER_SIZE] == header
      invariant Written(cur.view, buffer, offset, cur.pos)
      decreases length - cur.pos
    {
      FrameInRange(buffer.length, numOfChan, offset);
      MulLe(offset + 1, buffer.length, numOfChan);
      var prev := cur;
      cur := WriteFrame(cur, buffer, offset);
      assert cur.view[..HEADER_SIZE] == cur.view[..prev.pos][..HEADER_SIZE];
      NextFrame(numOfChan, offset);
      WrittenStep(prev.view, cur.view, buffer, offset);
      offset := offset + 1;
    }
    FramesDone(buffer.length, numOfChan, offset);
    out := cur.view;
  }

  /** The first `frames` frames of `buffer` sit quantized in their slots of
      `view`, all of them before `bound`. */
  ghost predicate Written(view: seq<uint8>, buffer: AudioBuffer, frames: nat, bound: nat)
    requires buffer.WellFormed() && frames <= buffer.length
  {
    && bound <= |view|
    && forall f, c :: 0 <= f < frames && 0 <= c < buffer.NumberOfChannels() ==>
         SampleOffset(buffer.NumberOfChannels(), f, c) + 2 <= bound
         && ReadSample(view, buffer.NumberOfChannels(), f, c) == Quantize(buffer.channels[c][f])
  }

  /** Writing frame `offset` after the frames before it, without touching the
      bytes before its slot, extends the written prefix by one frame. */
  lemma WrittenStep(prev: seq<uint8>, view: seq<uint8>, buffer: AudioBuffer, offset: nat)
    requires buffer.WellFormed() && offset < buffer.length
    requires var p := SampleOffset(buffer.NumberOfChannels(), offset, 0);
             p <= |prev| && p <= |view| && view[..p] == prev[..p] && Written(prev, buffer, offset, p)
    requires SampleOffset(buffer.NumberOfChannels(), offset + 1, 0) <= |view|
    requires forall c :: 0 <= c < buffer.NumberOfChannels() ==>
               SampleOffset(buffer.NumberOfChannels(), offset, c) + 2 <= SampleOffset(buffer.NumberOfChannels(), offset + 1, 0)
               && ReadSample(view, buffer.NumberOfChannels(), offset, c) == Quantize(buffer.channels[c][offset])
    ensures Written(view, buffer, offset + 1, SampleOffset(buffer.NumberOfChannels(), offset + 1, 0))
  {
    var n := buffer.NumberOfChannels();
    var p, q := SampleOffset(n, offset, 0), SampleOffset(n, offset + 1, 0);
    forall f, c | 0 <= f < offset + 1 && 0 <= c < n
      ensures SampleOffset(n, f, c) + 2 <= q
      ensures ReadSample(view, n, f, c) == Quantize(buffer.channels[c][f])
    {
      if f < offset {
        NextFrame(n, offset);
        ReadSamplePrefix(view, prev, p, n, f, c);
      }
    }
  }

  /** The next frame starts one block (two bytes per channel) later. */
  lemma NextFrame(numChannels: nat, f: nat)
    ensures SampleOffset(numChannels, f + 1, 0) == SampleOffset(numChannels, f, 0) + 2 * numChannels
  {
  }

  /** Once the position reaches the end, every frame has been written. */
  lemma FramesDone(frames: nat, numChannels: nat, offset: nat)
    requires offset <= frames
    requires HEADER_SIZE + 2 * (offset * numChannels) >= WavLength(frames, numChannels)
    ensures numChannels > 0 ==> offset == frames
  {
    if numChannels > 0 && offset < frames {
      MulLe(offset + 1, frames, numChannels);
    }
  }
}
