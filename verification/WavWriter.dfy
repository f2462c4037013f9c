/** The mono 16-bit WAV writer (src/core/wav_writer.cpp), up to the bytes of the file. */
module WavWriter {
  import opened Tone
  import opened ToneRenderer

  type Byte = x: int | 0 <= x < 256
  type Sample16 = x: int | -32768 <= x < 32768

  const SUPPORTED_RATES: seq<nat> :=
    [8_000, 11_025, 16_000, 22_050, 32_000, 44_100, 48_000, 88_200, 96_000, 176_400, 192_000]

  const RENDER_BLOCK_FRAMES: nat := 4_096

  // ------------------------------------------------------------------------ numbers

  function U16Bytes(value: nat): (b: seq<Byte>)
    requires value < 0x1_0000
    ensures |b| == 2
  {
    [value % 256, value / 256]
  }

  function U32Bytes(value: nat): (b: seq<Byte>)
    requires value < 0x1_0000_0000
    ensures |b| == 4
  {
    [value % 256, value / 256 % 256, value / 0x1_0000 % 256, value / 0x100_0000]
  }

  /** Two's complement. */
  function Raw16(sample: Sample16): (raw: nat)
    ensures raw < 0x1_0000
  {
    if sample < 0 then sample + 0x1_0000 else sample
  }

  /** Rounds half away from zero. */
  function Round(x: real): int {
    if x >= 0.0 then (x + 0.5).Floor else -((-x + 0.5).Floor)
  }

  function ToPcm16(sample: real): Sample16 {
    if sample <= -1.0 then -32768
    else if sample >= 1.0 then 32767
    else
      RoundBounds(sample, if sample < 0.0 then 32768.0 else 32767.0);
      Round(sample * if sample < 0.0 then 32768.0 else 32767.0)
  }

  lemma RoundBounds(sample: real, scale: real)
    requires -1.0 < sample < 1.0 && ((scale == 32768.0 && sample < 0.0) || (scale == 32767.0 && sample >= 0.0))
    ensures -32768 <= Round(sample * scale) <= 32767
  {
    if sample < 0.0 {
      assert -32768.0 < sample * scale < 0.0;
    } else {
      assert 0.0 <= sample * scale < 32767.0;
    }
  }

  /** Silence is zero, the extremes are reached, and louder is never quieter. */
  lemma PcmIsMonotone(a: real, b: real)
    requires a <= b
    ensures ToPcm16(a) <= ToPcm16(b)
    ensures ToPcm16(0.0) == 0 && ToPcm16(-1.0) == -32768 && ToPcm16(1.0) == 32767
  {
    var (s, t) := (if a < 0.0 then 32768.0 else 32767.0, if b < 0.0 then 32768.0 else 32767.0);
    if -1.0 < a && b < 1.0 {
      if a < 0.0 <= b {
        RoundSign(a * s);
        RoundSign(b * t);
      } else {
        RoundOrder(a * s, b * t);
      }
    } else if -1.0 < a < 1.0 {
      RoundBounds(a, s);
    } else if -1.0 < b < 1.0 {
      RoundBounds(b, t);
    }
  }

  lemma RoundSign(x: real)
    ensures x >= 0.0 ==> Round(x) >= 0
    ensures x <= 0.0 ==> Round(x) <= 0
  {
  }

  lemma RoundOrder(x: real, y: real)
    requires x <= y
    ensures Round(x) <= Round(y)
  {
  }

  // ------------------------------------------------------------------------- header

  function Tag(text: string): (b: seq<Byte>)
    requires forall i :: 0 <= i < |text| ==> text[i] as int < 256
    ensures |b| == |text|
  {
    seq(|text|, i requires 0 <= i < |text| => text[i] as int)
  }

  function Header(rate: nat, dataBytes: nat): (header: seq<Byte>)
    requires 2 * rate < 0x1_0000_0000 && dataBytes + 36 < 0x1_0000_0000
    ensures |header| == 44
  {
    Tag("RIFF") + U32Bytes(36 + dataBytes) + Tag("WAVE") + FormatChunk(rate) + Tag("data") + U32Bytes(dataBytes)
  }

  function FormatChunk(rate: nat): (chunk: seq<Byte>)
    requires 2 * rate < 0x1_0000_0000
    ensures |chunk| == 24
  {
    Tag("fmt ") + U32Bytes(16) + U16Bytes(1) + U16Bytes(1) + U32Bytes(rate) + U32Bytes(2 * rate) + U16Bytes(2) + U16Bytes(16)
  }

  /** Puts the next field; the part already filled is some bytes and the fields after them. */
  method Put(header: array<Byte>, offset: nat, bytes: seq<Byte>, ghost before: seq<Byte>, ghost fields: seq<Byte>)
    requires offset + |bytes| <= header.Length && header[..offset] == before + fields
    modifies header
    ensures header[..offset + |bytes|] == before + (fields + bytes)
  {
    forall k | 0 <= k < |bytes| {
      header[offset + k] := bytes[k];
    }
    assert header[..offset + |bytes|] == before + fields + bytes;
    Continue(before, fields, bytes);
  }

  lemma Continue(a: seq<Byte>, b: seq<Byte>, c: seq<Byte>)
    ensures a + b + c == a + (b + c)
  {
  }

  /** wavHeader: every field put at its offset. */
  method MakeHeader(rate: nat, dataBytes: nat) returns (header: array<Byte>)
    requires 2 * rate < 0x1_0000_0000 && dataBytes + 36 < 0x1_0000_0000
    ensures fresh(header) && header[..] == Header(rate, dataBytes)
  {
    hide U32Bytes, U16Bytes, Tag;
    header := new Byte[44](_ => 0);
    ghost var fields := Tag("RIFF");
    assert [] + ([] + fields) == fields;
    Put(header, 0, Tag("RIFF"), [], []);
    Put(header, 4, U32Bytes(36 + dataBytes), [], fields);
    fields := fields + U32Bytes(36 + dataBytes);
    Put(header, 8, Tag("WAVE"), [], fields);
    fields := fields + Tag("WAVE");
    PutFormat(header, rate, fields);
    fields := fields + FormatChunk(rate);
    assert [] + fields == fields;
    Put(header, 36, Tag("data"), [], fields);
    fields := fields + Tag("data");
    Put(header, 40, U32Bytes(dataBytes), [], fields);
    assert header[..44] == header[..] && [] + (fields + U32Bytes(dataBytes)) == Header(rate, dataBytes);
  }

  method PutFormat(header: array<Byte>, rate: nat, ghost before: seq<Byte>)
    requires header.Length == 44 && 2 * rate < 0x1_0000_0000 && header[..12] == before
    modifies header
    ensures header[..36] == before + FormatChunk(rate)
  {
    hide U32Bytes, U16Bytes, Tag;
    ghost var fields := Tag("fmt ");
    assert before + [] == before && [] + fields == fields;
    Put(header, 12, Tag("fmt "), before, []);
    Put(header, 16, U32Bytes(16), before, fields);
    fields := fields + U32Bytes(16);
    Put(header, 20, U16Bytes(1), before, fields);
    fields := fields + U16Bytes(1);
    Put(header, 22, U16Bytes(1), before, fields);
    fields := fields + U16Bytes(1);
    Put(header, 24, U32Bytes(rate), before, fields);
    fields := fields + U32Bytes(rate);
    Put(header, 28, U32Bytes(rate * 2), before, fields);
    fields := fields + U32Bytes(rate * 2);
    Put(header, 32, U16Bytes(2), before, fields);
    fields := fields + U16Bytes(2);
    Put(header, 34, U16Bytes(16), before, fields);
  }

  // --------------------------------------------------------------------------- data

  function PcmBytes(pcm: seq<Sample16>): (bytes: seq<Byte>)
    ensures |bytes| == 2 * |pcm|
  {
    if pcm == [] then [] else PcmBytes(pcm[..|pcm| - 1]) + U16Bytes(Raw16(pcm[|pcm| - 1]))
  }

  function ToPcm(samples: seq<Sample>): (pcm: seq<Sample16>)
    ensures |pcm| == |samples|
  {
    seq(|samples|, i requires 0 <= i < |samples| => ToPcm16(samples[i]))
  }

  /** The file of some samples. */
  function WavFile(rate: nat, pcm: seq<Sample16>): (file: seq<Byte>)
    requires 2 * rate < 0x1_0000_0000 && 2 * |pcm| + 36 < 0x1_0000_0000
    ensures |file| == 44 + 2 * |pcm|
  {
    Header(rate, 2 * |pcm|) + PcmBytes(pcm)
  }

  lemma {:induction false} PcmBytesConcat(a: seq<Sample16>, b: seq<Sample16>)
    ensures PcmBytes(a + b) == PcmBytes(a) + PcmBytes(b)
    decreases |b|
  {
    hide U16Bytes, Raw16;
    if b == [] {
      assert a + b == a;
    } else {
      var c := b[..|b| - 1];
      PcmBytesConcat(a, c);
      assert (a + b)[..|a + b| - 1] == a + c && (a + b)[|a + b| - 1] == b[|b| - 1];
      var (x, y, z) := (PcmBytes(a), PcmBytes(c), U16Bytes(Raw16(b[|b| - 1])));
      assert x + y + z == x + (y + z);
    }
  }

  /** The byte-emission loop for one block. */
  method EmitBlock(samples: array<Sample>, count: nat, pcmBytes: array<Byte>)
    requires count <= samples.Length && 2 * count <= pcmBytes.Length
    modifies pcmBytes
    ensures pcmBytes[..2 * count] == PcmBytes(ToPcm(samples[..count]))
  {
    hide ToPcm16, Raw16, U16Bytes;
    for index := 0 to count
      invariant pcmBytes[..2 * index] == PcmBytes(ToPcm(samples[..index]))
    {
      var raw := Raw16(ToPcm16(samples[index]));
      var bytes := U16Bytes(raw);
      pcmBytes[2 * index] := bytes[0];
      pcmBytes[2 * index + 1] := bytes[1];
      assert ToPcm(samples[..index + 1])[..index] == ToPcm(samples[..index]);
      assert pcmBytes[..2 * (index + 1)] == pcmBytes[..2 * index] + bytes;
    }
  }

  datatype WriteResult = Written(file: seq<Byte>, frameCount: nat) | UnsupportedRate | BadEvents | TooManyFrames

  /** The rendering and the byte emission, block by block. */
  method EmitFile(renderer: ToneRenderer, rate: nat) returns (result: WriteResult)
    requires renderer.Valid() && renderer.frameIndex == 0 && 2 * rate < 0x1_0000_0000
    modifies renderer
    ensures result == if 2 * renderer.FrameCount() + 36 >= 0x1_0000_0000 then TooManyFrames
                      else Written(WavFile(rate, ToPcm(Reference(renderer.oscillator, renderer.events, renderer.eventEndFrames))),
                                   renderer.FrameCount())
  {
    hide PhaseAt, SampleAt, ToPcm16, Header;
    if renderer.FrameCount() > (0xFFFF_FFFF - 36) / 2 {
      return TooManyFrames;
    }
    ghost var reference := Reference(renderer.oscillator, renderer.events, renderer.eventEndFrames);
    var header := MakeHeader(rate, 2 * renderer.FrameCount());
    var file: seq<Byte> := header[..];
    ghost var start := file;
    var samples := new Sample[RENDER_BLOCK_FRAMES](_ => 0.0);
    var pcmBytes := new Byte[2 * RENDER_BLOCK_FRAMES](_ => 0);
    while !renderer.Finished()
      invariant renderer.Valid() && file == start + PcmBytes(ToPcm(reference[..renderer.frameIndex]))
      decreases renderer.FrameCount() - renderer.frameIndex
    {
      ghost var before := renderer.frameIndex;
      var count := renderer.Render(samples);
      EmitBlock(samples, count, pcmBytes);
      BlockBytes(reference, before, renderer.frameIndex);
      Continue(start, PcmBytes(ToPcm(reference[..before])), pcmBytes[..2 * count]);
      file := file + pcmBytes[..2 * count];
    }
    assert reference[..renderer.frameIndex] == reference;
    result := Written(file, renderer.FrameCount());
  }

  /** writePcm16WavAtomic without the file system. */
  method Write(oscillator: Oscillator, events: seq<ToneEvent>, rate: nat) returns (result: WriteResult)
    requires ValidEvents(events)
    ensures result.UnsupportedRate? <==> rate !in SUPPORTED_RATES
    ensures result.Written? ==>
              && rate in SUPPORTED_RATES && Renderable(events, rate)
              && result.frameCount == Boundary(events, rate) && 2 * result.frameCount + 36 < 0x1_0000_0000
              && exists table ::
                && IsTable(table, events, rate) && |Reference(oscillator, events, table)| == result.frameCount
                && result.file == WavFile(rate, ToPcm(Reference(oscillator, events, table)))
    ensures result.BadEvents? <==> rate in SUPPORTED_RATES && !Buildable(events, rate)
    ensures result.TooManyFrames? <==>
              rate in SUPPORTED_RATES && Buildable(events, rate) && 2 * Boundary(events, rate) + 36 >= 0x1_0000_0000
  {
    hide ToPcm, WavFile, Reference, Boundary, Length, Sounds, PrefixOverflows;
    if rate !in SUPPORTED_RATES {
      return UnsupportedRate;
    }
    var table := BuildTable(events, rate);
    if !table.Exact? {
      return BadEvents;
    }
    TableNonDecreasing(table.value, events, rate);
    var renderer := new ToneRenderer(oscillator, events, table.value);
    LastEntry(table.value, events, rate);
    result := EmitFile(renderer, rate);
  }

  lemma LastEntry(table: seq<nat>, events: seq<ToneEvent>, rate: nat)
    requires ValidEvents(events) && Renderable(events, rate) && IsTable(table, events, rate)
    ensures |table| == |events| > 0 && table[|table| - 1] == Boundary(events, rate)
  {
    assert events[..|events|] == events;
  }

  lemma BlockBytes(samples: seq<Sample>, i: nat, j: nat)
    requires i <= j <= |samples|
    ensures PcmBytes(ToPcm(samples[..j])) == PcmBytes(ToPcm(samples[..i])) + PcmBytes(ToPcm(samples[i..j]))
  {
    hide ToPcm16;
    assert ToPcm(samples[..j]) == ToPcm(samples[..i]) + ToPcm(samples[i..j]);
    PcmBytesConcat(ToPcm(samples[..i]), ToPcm(samples[i..j]));
  }
}
