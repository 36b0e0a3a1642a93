/**
 * The WAV serialiser of the sentiment recorder (`createWavFile` and
 * `writeString`): the canonical 44-byte header of a RIFF `WAVE` file with a
 * WAVE_FORMAT_PCM `fmt ` chunk and a `data` chunk, followed by the interleaved
 * 16-bit samples of every channel.
 */
module Wav {
  import opened Common
  import Pcm

  /**
   * The decoded recording handed to `createWavFile` (a Web Audio `AudioBuffer`):
   * its sample rate, its length in frames and one sample sequence per channel.
   */
  datatype AudioBuffer = AudioBuffer(sampleRate: nat, length: nat, channelData: seq<seq<real>>)
  {
    /** Every channel of an `AudioBuffer` holds exactly `length` samples. */
    predicate Valid() {
      forall c :: 0 <= c < |channelData| ==> |channelData[c]| == length
    }

    function NumberOfChannels(): nat {
      |channelData|
    }
  }

  const HeaderSize: nat := 44
  const PcmFormat: nat := 1
  const BitsPerSample: nat := 16
  const FmtChunkSize: nat := 16

  /** Size in bytes of the `data` chunk: frames x channels x 2. */
  function DataLength(buf: AudioBuffer): nat {
    buf.length * buf.NumberOfChannels() * 2
  }

  /** The bytes a character-code string is written as, one per character. */
  function Ascii(s: string): seq<Byte> {
    Pcm.Latin1Bytes(s)
  }

  /** `DataView.setUint16(.., v, true)`: the value is reduced modulo 2^16, low byte first. */
  function U16LE(v: int): seq<Byte> {
    var w := v % 0x1_0000;
    [w % 256, w / 256]
  }

  /** `DataView.setUint32(.., v, true)`: the value is reduced modulo 2^32, low byte first. */
  function U32LE(v: int): seq<Byte> {
    var w := v % 0x1_0000_0000;
    [w % 256, (w / 256) % 256, (w / 0x1_0000) % 256, w / 0x100_0000]
  }

  /** The unsigned little-endian value of two bytes, as a reader of the file sees it. */
  function U16Value(b: seq<Byte>): nat
    requires |b| == 2
  {
    b[0] as int + 256 * (b[1] as int)
  }

  /** The unsigned little-endian value of four bytes, as a reader of the file sees it. */
  function U32Value(b: seq<Byte>): nat
    requires |b| == 4
  {
    b[0] as int + 256 * (b[1] as int) + 0x1_0000 * (b[2] as int) + 0x100_0000 * (b[3] as int)
  }

  lemma U16RoundTrip(v: int)
    ensures |U16LE(v)| == 2 && U16Value(U16LE(v)) == v % 0x1_0000
  {
  }

  lemma U32RoundTrip(v: int)
    ensures |U32LE(v)| == 4 && U32Value(U32LE(v)) == v % 0x1_0000_0000
  {
    var w := v % 0x1_0000_0000;
    var b0, b1, b2, b3 := w % 256, (w / 256) % 256, (w / 0x1_0000) % 256, w / 0x100_0000;
    assert w / 256 == b1 + 256 * (w / 0x1_0000);
    assert w / 0x1_0000 == b2 + 256 * b3;
  }

  /** The "RIFF" chunk descriptor: tag, size of the rest of the file, form type. */
  function RiffDescriptor(buf: AudioBuffer): (d: seq<Byte>)
    ensures |d| == 12
  {
    Ascii("RIFF") + U32LE(36 + DataLength(buf)) + Ascii("WAVE")
  }

  /** The "fmt " sub-chunk of a WAVE_FORMAT_PCM file. */
  function FmtChunk(buf: AudioBuffer): (f: seq<Byte>)
    ensures |f| == 24
  {
    var channels := buf.NumberOfChannels();
    Ascii("fmt ") + U32LE(FmtChunkSize) + U16LE(PcmFormat) + U16LE(channels)
    + U32LE(buf.sampleRate) + U32LE(buf.sampleRate * channels * 2)
    + U16LE(channels * 2) + U16LE(BitsPerSample)
  }

  /** The "data" sub-chunk header: tag and body size. */
  function DataChunkHeader(buf: AudioBuffer): (d: seq<Byte>)
    ensures |d| == 8
  {
    Ascii("data") + U32LE(DataLength(buf))
  }

  /** The 44 header bytes, in file order. */
  function Header(buf: AudioBuffer): (h: seq<Byte>)
    ensures |h| == HeaderSize
  {
    RiffDescriptor(buf) + FmtChunk(buf) + DataChunkHeader(buf)
  }

  /** The int16 samples of frame `i`, one per channel in channel order. */
  function Frame(buf: AudioBuffer, i: nat): (f: seq<int>)
    requires buf.Valid() && i < buf.length
    ensures |f| == buf.NumberOfChannels()
  {
    seq(buf.NumberOfChannels(), c requires 0 <= c < buf.NumberOfChannels() =>
      Pcm.SampleToPcm16(buf.channelData[c][i]))
  }

  /** The first `n` frames, channel index innermost. */
  function Interleave(buf: AudioBuffer, n: nat): seq<int>
    requires buf.Valid() && n <= buf.length
  {
    if n == 0 then [] else Interleave(buf, n - 1) + Frame(buf, n - 1)
  }

  /** The whole file `createWavFile` wraps in its Blob. */
  function WavFile(buf: AudioBuffer): seq<Byte>
    requires buf.Valid()
  {
    Header(buf) + Pcm.SplitSamples(Interleave(buf, buf.length))
  }

  lemma MulBound(i: nat, c: nat, n: nat, k: nat)
    requires i < n && c < k
    ensures i * k + c < n * k
  {
    MulMono(i + 1, n, k);
    assert (i + 1) * k == i * k + k;
  }

  lemma MulMono(a: nat, b: nat, k: nat)
    requires a <= b
    ensures a * k <= b * k
  {
    assert b * k == a * k + (b - a) * k;
  }

  lemma {:induction false} InterleaveLength(buf: AudioBuffer, n: nat)
    requires buf.Valid() && n <= buf.length
    ensures |Interleave(buf, n)| == n * buf.NumberOfChannels()
  {
    if n > 0 {
      InterleaveLength(buf, n - 1);
      assert (n - 1) * buf.NumberOfChannels() + buf.NumberOfChannels() == n * buf.NumberOfChannels();
    }
  }

  /** Sample (frame `i`, channel `c`) sits at index `i * channels + c` of the interleaving. */
  lemma {:induction false} InterleaveAt(buf: AudioBuffer, n: nat, i: nat, c: nat)
    requires buf.Valid() && n <= buf.length && i < n && c < buf.NumberOfChannels()
    ensures i * buf.NumberOfChannels() + c < |Interleave(buf, n)|
    ensures Interleave(buf, n)[i * buf.NumberOfChannels() + c] == Pcm.SampleToPcm16(buf.channelData[c][i])
  {
    var k := buf.NumberOfChannels();
    InterleaveLength(buf, n);
    InterleaveLength(buf, n - 1);
    MulBound(i, c, n, k);
    if i < n - 1 {
      InterleaveAt(buf, n - 1, i, c);
    } else {
      assert i * k + c == |Interleave(buf, n - 1)| + c;
    }
  }

  /** The file is the 44-byte header plus two bytes per sample per channel. */
  lemma WavLength(buf: AudioBuffer)
    requires buf.Valid()
    ensures |WavFile(buf)| == HeaderSize + DataLength(buf)
  {
    InterleaveLength(buf, buf.length);
  }

  /** Where each header field sits and what a reader decodes from it. */
  lemma HeaderLayout(buf: AudioBuffer)
    requires buf.Valid()
    ensures |WavFile(buf)| >= HeaderSize
    ensures WavFile(buf)[0..4] == Ascii("RIFF")
    ensures U32Value(WavFile(buf)[4..8]) == (36 + DataLength(buf)) % 0x1_0000_0000
    ensures WavFile(buf)[8..12] == Ascii("WAVE")
    ensures WavFile(buf)[12..16] == Ascii("fmt ")
    ensures U32Value(WavFile(buf)[16..20]) == FmtChunkSize
    ensures U16Value(WavFile(buf)[20..22]) == PcmFormat
    ensures U16Value(WavFile(buf)[22..24]) == buf.NumberOfChannels() % 0x1_0000
    ensures U32Value(WavFile(buf)[24..28]) == buf.sampleRate % 0x1_0000_0000
    ensures U32Value(WavFile(buf)[28..32]) == (buf.sampleRate * buf.NumberOfChannels() * 2) % 0x1_0000_0000
    ensures U16Value(WavFile(buf)[32..34]) == (buf.NumberOfChannels() * 2) % 0x1_0000
    ensures U16Value(WavFile(buf)[34..36]) == BitsPerSample
    ensures WavFile(buf)[36..40] == Ascii("data")
    ensures U32Value(WavFile(buf)[40..44]) == DataLength(buf) % 0x1_0000_0000
  {
    var k := buf.NumberOfChannels();
    var w := WavFile(buf);
    U32RoundTrip(36 + DataLength(buf));
    U32RoundTrip(FmtChunkSize);
    U16RoundTrip(PcmFormat);
    U16RoundTrip(k);
    U32RoundTrip(buf.sampleRate);
    U32RoundTrip(buf.sampleRate * k * 2);
    U16RoundTrip(k * 2);
    U16RoundTrip(BitsPerSample);
    U32RoundTrip(DataLength(buf));
    assert w[4..8] == U32LE(36 + DataLength(buf));
    assert w[16..20] == U32LE(FmtChunkSize);
    assert w[20..22] == U16LE(PcmFormat);
    assert w[22..24] == U16LE(k);
    assert w[24..28] == U32LE(buf.sampleRate);
    assert w[28..32] == U32LE(buf.sampleRate * k * 2);
    assert w[32..34] == U16LE(k * 2);
    assert w[34..36] == U16LE(BitsPerSample);
    assert w[40..44] == U32LE(DataLength(buf));
  }

  /**
   * The sample of frame `i`, channel `c` is the little-endian int16 at offset
   * 44 + 2 (i * channels + c), converted as `float32ToPcm16` converts.
   */
  lemma SampleLayout(buf: AudioBuffer, i: nat, c: nat)
    requires buf.Valid() && i < buf.length && c < buf.NumberOfChannels()
    ensures HeaderSize + 2 * (i * buf.NumberOfChannels() + c) + 1 < |WavFile(buf)|
    ensures Pcm.Int16FromBytes(WavFile(buf)[HeaderSize + 2 * (i * buf.NumberOfChannels() + c)],
                               WavFile(buf)[HeaderSize + 2 * (i * buf.NumberOfChannels() + c) + 1])
            == Pcm.SampleToPcm16(buf.channelData[c][i])
  {
    var j := i * buf.NumberOfChannels() + c;
    var samples := Interleave(buf, buf.length);
    InterleaveAt(buf, buf.length, i, c);
    SampleBytesAt(Header(buf), samples, j);
    Pcm.Int16BytesRoundTrip(samples[j]);
  }

  /** Sample `j` of a block written after `h` occupies bytes `|h| + 2j` and `|h| + 2j + 1`. */
  lemma SampleBytesAt(h: seq<Byte>, samples: seq<int>, j: nat)
    requires j < |samples|
    ensures |h| + 2 * j + 1 < |h + Pcm.SplitSamples(samples)|
    ensures (h + Pcm.SplitSamples(samples))[|h| + 2 * j] == Pcm.LowByte(samples[j])
    ensures (h + Pcm.SplitSamples(samples))[|h| + 2 * j + 1] == Pcm.HighByte(samples[j])
  {
    var body := Pcm.SplitSamples(samples);
    assert body[2 * j] == Pcm.LowByte(samples[j]);
    assert body[2 * j + 1] == Pcm.HighByte(samples[j]);
  }

  /** `writeString`: one `setUint8` per character, from `offset` on. */
  method WriteString(view: array<Byte>, offset: nat, s: string)
    requires offset + |s| <= view.Length
    modifies view
    ensures view[..offset] == old(view[..offset])
    ensures view[offset..offset + |s|] == Ascii(s)
    ensures view[offset + |s|..] == old(view[offset + |s|..])
  {
    for i := 0 to |s|
      invariant view[..offset] == old(view[..offset])
      invariant view[offset..offset + i] == Ascii(s)[..i]
      invariant view[offset + |s|..] == old(view[offset + |s|..])
      invariant forall k :: offset + i <= k < offset + |s| ==> view[k] == old(view[k])
    {
      view[offset + i] := Latin1(s[i]);
    }
  }

  /** `DataView.setUint16(offset, v, true)`. */
  method SetUint16(view: array<Byte>, offset: nat, v: int)
    requires offset + 2 <= view.Length
    modifies view
    ensures view[..offset] == old(view[..offset])
    ensures view[offset..offset + 2] == U16LE(v)
    ensures view[offset + 2..] == old(view[offset + 2..])
  {
    var w := v % 0x1_0000;
    view[offset] := w % 256;
    view[offset + 1] := w / 256;
  }

  /** `DataView.setUint32(offset, v, true)`. */
  method SetUint32(view: array<Byte>, offset: nat, v: int)
    requires offset + 4 <= view.Length
    modifies view
    ensures view[..offset] == old(view[..offset])
    ensures view[offset..offset + 4] == U32LE(v)
    ensures view[offset + 4..] == old(view[offset + 4..])
  {
    var w := v % 0x1_0000_0000;
    view[offset] := w % 256;
    view[offset + 1] := (w / 256) % 256;
    view[offset + 2] := (w / 0x1_0000) % 256;
    view[offset + 3] := w / 0x100_0000;
  }

  /** `DataView.setInt16(offset, v, true)` for a value already truncated to an integer. */
  method SetInt16(view: array<Byte>, offset: nat, v: int)
    requires offset + 2 <= view.Length
    modifies view
    ensures view[..offset] == old(view[..offset])
    ensures view[offset..offset + 2] == Pcm.SplitSamples([v])
    ensures view[offset + 2..] == old(view[offset + 2..])
  {
    view[offset] := Pcm.LowByte(v);
    view[offset + 1] := Pcm.HighByte(v);
  }



  /** The "RIFF" chunk descriptor written by `createWavFile` at offset 0. */
  method WriteRiffDescriptor(view: array<Byte>, buf: AudioBuffer)
    requires 12 <= view.Length
    modifies view
    ensures view[..] == RiffDescriptor(buf) + old(view[12..])
  {
    ghost var original, prefix, h: seq<Byte> := view[..], [], [];
    ghost var before: seq<Byte>;
    before := view[..];
    WriteString(view, 0, "RIFF");
    Overwrite(before, view[..], prefix, h, Ascii("RIFF"), original, 0);
    h := h + Ascii("RIFF");
    before := view[..];
    SetUint32(view, 4, 36 + DataLength(buf));
    Overwrite(before, view[..], prefix, h, U32LE(36 + DataLength(buf)), original, 4);
    h := h + U32LE(36 + DataLength(buf));
    before := view[..];
    WriteString(view, 8, "WAVE");
    Overwrite(before, view[..], prefix, h, Ascii("WAVE"), original, 8);
    h := h + Ascii("WAVE");
  }

  /** The "fmt " sub-chunk written by `createWavFile` at offset 12. */
  method WriteFmtChunk(view: array<Byte>, buf: AudioBuffer)
    requires 36 <= view.Length
    modifies view
    ensures view[..] == old(view[..12]) + FmtChunk(buf) + old(view[36..])
  {
    var channels := buf.NumberOfChannels();
    ghost var original, prefix, h: seq<Byte> := view[..], view[..12], [];
    ghost var before: seq<Byte>;
    before := view[..];
    WriteString(view, 12, "fmt ");
    Overwrite(before, view[..], prefix, h, Ascii("fmt "), original, 12);
    h := h + Ascii("fmt ");
    before := view[..];
    SetUint32(view, 16, FmtChunkSize);
    Overwrite(before, view[..], prefix, h, U32LE(FmtChunkSize), original, 16);
    h := h + U32LE(FmtChunkSize);
    before := view[..];
    SetUint16(view, 20, PcmFormat);
    Overwrite(before, view[..], prefix, h, U16LE(PcmFormat), original, 20);
    h := h + U16LE(PcmFormat);
    before := view[..];
    SetUint16(view, 22, channels);
    Overwrite(before, view[..], prefix, h, U16LE(channels), original, 22);
    h := h + U16LE(channels);
    before := view[..];
    SetUint32(view, 24, buf.sampleRate);
    Overwrite(before, view[..], prefix, h, U32LE(buf.sampleRate), original, 24);
    h := h + U32LE(buf.sampleRate);
    before := view[..];
    SetUint32(view, 28, buf.sampleRate * channels * 2);
    Overwrite(before, view[..], prefix, h, U32LE(buf.sampleRate * channels * 2), original, 28);
    h := h + U32LE(buf.sampleRate * channels * 2);
    before := view[..];
    SetUint16(view, 32, channels * 2);
    Overwrite(before, view[..], prefix, h, U16LE(channels * 2), original, 32);
    h := h + U16LE(channels * 2);
    before := view[..];
    SetUint16(view, 34, BitsPerSample);
    Overwrite(before, view[..], prefix, h, U16LE(BitsPerSample), original, 34);
    h := h + U16LE(BitsPerSample);
  }

  /** The "data" sub-chunk header written by `createWavFile` at offset 36. */
  method WriteDataChunkHeader(view: array<Byte>, buf: AudioBuffer)
    requires HeaderSize <= view.Length
    modifies view
    ensures view[..] == old(view[..36]) + DataChunkHeader(buf) + old(view[HeaderSize..])
  {
    ghost var original, prefix, h: seq<Byte> := view[..], view[..36], [];
    ghost var before: seq<Byte>;
    before := view[..];
    WriteString(view, 36, "data");
    Overwrite(before, view[..], prefix, h, Ascii("data"), original, 36);
    h := h + Ascii("data");
    before := view[..];
    SetUint32(view, 40, DataLength(buf));
    Overwrite(before, view[..], prefix, h, U32LE(DataLength(buf)), original, 40);
    h := h + U32LE(DataLength(buf));
  }

  /** The header part of `createWavFile`: its three chunk headers, in file order. */
  method WriteHeader(view: array<Byte>, buf: AudioBuffer)
    requires HeaderSize <= view.Length
    modifies view
    ensures view[..HeaderSize] == Header(buf)
    ensures view[HeaderSize..] == old(view[HeaderSize..])
  {
    ghost var tail := view[HeaderSize..];
    WriteRiffDescriptor(view, buf);
    WriteFmtChunk(view, buf);
    WriteDataChunkHeader(view, buf);
    assert view[..] == Header(buf) + tail;
  }


  /** Each prefix of the interleaving fits in the `data` chunk. */
  lemma InterleaveFits(buf: AudioBuffer, n: nat)
    requires buf.Valid() && n <= buf.length
    ensures |Interleave(buf, n)| <= |Interleave(buf, buf.length)|
  {
    InterleaveLength(buf, n);
    InterleaveLength(buf, buf.length);
    MulMono(n, buf.length, buf.NumberOfChannels());
  }

  /** The whole interleaving fills the `data` chunk exactly. */
  lemma InterleaveFills(buf: AudioBuffer)
    requires buf.Valid()
    ensures 2 * |Interleave(buf, buf.length)| == DataLength(buf)
  {
    InterleaveLength(buf, buf.length);
  }

  /** One more frame appends its samples' bytes. */
  lemma InterleaveStep(buf: AudioBuffer, i: nat)
    requires buf.Valid() && i < buf.length
    ensures |Interleave(buf, i + 1)| == |Interleave(buf, i)| + buf.NumberOfChannels()
    ensures Pcm.SplitSamples(Interleave(buf, i + 1))
         == Pcm.SplitSamples(Interleave(buf, i)) + Pcm.SplitSamples(Frame(buf, i))
  {
    SplitConcat(Interleave(buf, i), Frame(buf, i));
  }

  /**
   * One pass of the inner loop of `createWavFile`: the samples of frame `i`,
   * channel by channel, at the running offset after what is already written.
   */
  method WriteFrame(view: array<Byte>, buf: AudioBuffer, channels: seq<seq<real>>, i: nat, offset: nat,
                    ghost written: seq<Byte>)
    returns (next: nat)
    requires buf.Valid() && channels == buf.channelData && i < buf.length
    requires |written| == HeaderSize + offset
    requires HeaderSize + offset + 2 * |channels| <= view.Length
    requires view[..HeaderSize + offset] == written
    modifies view
    ensures next == offset + 2 * |channels|
    ensures view[..HeaderSize + next] == written + Pcm.SplitSamples(Frame(buf, i))
  {
    var numOfChannels := |channels|;
    next := offset;
    ghost var frame := Frame(buf, i);
    for channel := 0 to numOfChannels
      invariant next == offset + 2 * channel
      invariant view[..HeaderSize + next] == written + Pcm.SplitSamples(frame[..channel])
    {
      var sample := Pcm.Clamp(channels[channel][i]);
      var value := if sample < 0.0 then Pcm.Trunc(sample * Pcm.NegativeScale)
                   else Pcm.Trunc(sample * Pcm.PositiveScale);
      ghost var before := view[..];
      SetInt16(view, HeaderSize + next, value);
      SampleWritten(before, view[..], written, frame[..channel], value);
      assert frame[..channel + 1] == frame[..channel] + [value];
      next := next + 2;
    }
    assert frame[..numOfChannels] == frame;
  }

  /**
   * The sample part of `createWavFile`: for each frame, for each channel, the
   * converted sample at the running offset after the header.
   */
  method WriteSamples(view: array<Byte>, buf: AudioBuffer, channels: seq<seq<real>>, ghost header: seq<Byte>)
    requires buf.Valid() && channels == buf.channelData
    requires view.Length == HeaderSize + 2 * |Interleave(buf, buf.length)|
    requires |header| == HeaderSize && view[..HeaderSize] == header
    modifies view
    ensures view[..] == header + Pcm.SplitSamples(Interleave(buf, buf.length))
  {
    var offset := 0;
    for i := 0 to buf.length
      invariant offset == 2 * |Interleave(buf, i)|
      invariant HeaderSize + offset <= view.Length
      invariant view[..HeaderSize + offset] == header + Pcm.SplitSamples(Interleave(buf, i))
    {
      InterleaveFits(buf, i + 1);
      InterleaveStep(buf, i);
      ghost var written := header + Pcm.SplitSamples(Interleave(buf, i));
      offset := WriteFrame(view, buf, channels, i, offset, written);
      AppendFrame(header, buf, i);
    }
    WholePrefix(view[..], HeaderSize + offset);
  }

  /** The bytes written so far, followed by frame `i`, are those of the first `i + 1` frames. */
  lemma AppendFrame(header: seq<Byte>, buf: AudioBuffer, i: nat)
    requires buf.Valid() && i < buf.length
    ensures (header + Pcm.SplitSamples(Interleave(buf, i))) + Pcm.SplitSamples(Frame(buf, i))
         == header + Pcm.SplitSamples(Interleave(buf, i + 1))
  {
    InterleaveStep(buf, i);
  }

  lemma WholePrefix(v: seq<Byte>, n: nat)
    requires |v| == n
    ensures v[..n] == v
  {
  }

  /**
   * `createWavFile`: allocates 44 + data-length bytes, writes the header fields at
   * their fixed offsets, then every sample, frame by frame and channel by channel,
   * through a running offset.
   */
  method CreateWavFile(buf: AudioBuffer) returns (wav: array<Byte>)
    requires buf.Valid()
    ensures wav[..] == WavFile(buf)
  {
    var numOfChannels := buf.NumberOfChannels();
    var length := buf.length * numOfChannels * 2;
    var sampleRate := buf.sampleRate;
    wav := new Byte[HeaderSize + length];

    WriteHeader(wav, buf);

    var channels: seq<seq<real>> := [];
    for c := 0 to numOfChannels
      invariant channels == buf.channelData[..c]
    {
      channels := channels + [buf.channelData[c]];
    }
    assert channels == buf.channelData;

    InterleaveFills(buf);
    WriteSamples(wav, buf, channels, Header(buf));
  }

  /**
   * Overwriting the bytes right after the already written `prefix + h` with `piece`
   * extends what is written and leaves the original contents behind it.
   */
  lemma Overwrite(before: seq<Byte>, after: seq<Byte>, prefix: seq<Byte>, h: seq<Byte>,
                  piece: seq<Byte>, original: seq<Byte>, k: nat)
    requires k == |prefix| + |h| && k + |piece| <= |original|
    requires before == prefix + h + original[k..] && |after| == |before|
    requires after[..k] == before[..k]
    requires after[k..k + |piece|] == piece
    requires after[k + |piece|..] == before[k + |piece|..]
    ensures after == prefix + (h + piece) + original[k + |piece|..]
  {
    assert after == after[..k] + after[k..k + |piece|] + after[k + |piece|..];
  }

  /** A prefix that is known piecewise is the concatenation of its pieces. */
  lemma PrefixGrows(a: seq<Byte>, offset: nat, n: nat, h: seq<Byte>, piece: seq<Byte>)
    requires offset + n <= |a| && a[..offset] == h && a[offset..offset + n] == piece
    ensures a[..offset + n] == h + piece
  {
    assert a[..offset + n] == a[..offset] + a[offset..offset + n];
  }

  /** Writing one more sample right after the samples written so far extends them. */
  lemma SampleWritten(before: seq<Byte>, after: seq<Byte>, h: seq<Byte>, written: seq<int>, value: int)
    requires |after| == |before| && |h| + 2 * |written| + 2 <= |before|
    requires before[..|h| + 2 * |written|] == h + Pcm.SplitSamples(written)
    requires after[..|h| + 2 * |written|] == before[..|h| + 2 * |written|]
    requires after[|h| + 2 * |written|..|h| + 2 * |written| + 2] == Pcm.SplitSamples([value])
    ensures after[..|h| + 2 * |written| + 2] == h + Pcm.SplitSamples(written + [value])
  {
    var k := |h| + 2 * |written|;
    PrefixGrows(after, k, 2, h + Pcm.SplitSamples(written), Pcm.SplitSamples([value]));
    SplitAppend(written, value);
    assert (h + Pcm.SplitSamples(written)) + Pcm.SplitSamples([value])
        == h + (Pcm.SplitSamples(written) + Pcm.SplitSamples([value]));
  }

  /** Splitting a concatenation splits each part. */
  lemma SplitConcat(a: seq<int>, b: seq<int>)
    ensures Pcm.SplitSamples(a + b) == Pcm.SplitSamples(a) + Pcm.SplitSamples(b)
  {
    forall k | 2 * |a| <= k < 2 * |a + b|
      ensures (k - 2 * |a|) / 2 == k / 2 - |a| && (k - 2 * |a|) % 2 == k % 2
    {
    }
  }

  /** Appending one sample appends its two bytes. */
  lemma SplitAppend(vs: seq<int>, v: int)
    ensures Pcm.SplitSamples(vs + [v]) == Pcm.SplitSamples(vs) + Pcm.SplitSamples([v])
  {
  }
}
