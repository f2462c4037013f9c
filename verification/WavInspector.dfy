/** The WAV inspector (src/core/wav_inspector.cpp) on the bytes of a file: chunk walk,
    format checks and sample statistics, and what it says of the writer's files. */
module WavInspector {
  import opened Arithmetic
  import opened Optional
  import opened WavWriter

  datatype Limits = Limits(maximumInputBytes: nat, maximumUnknownChunkBytes: nat, maximumChunkCount: nat)

  const INT64_MAX: int := 0x7FFF_FFFF_FFFF_FFFF
  const UINT64_MAX: int := 0xFFFF_FFFF_FFFF_FFFF
  const BLOCK_BYTES: nat := 8192

  datatype InspectError = InputTooLarge | InvalidContainer | MalformedContainer | UnsupportedFormat | ResourceLimit

  datatype Checked<T> = Good(value: T) | Bad(error: InspectError)

  // ------------------------------------------------------------------------ numbers

  function ReadU16(bytes: seq<Byte>, offset: nat): nat
    requires offset + 2 <= |bytes|
  {
    bytes[offset] as int + 0x100 * bytes[offset + 1] as int
  }

  function ReadU32(bytes: seq<Byte>, offset: nat): nat
    requires offset + 4 <= |bytes|
  {
    bytes[offset] as int + 0x100 * bytes[offset + 1] as int + 0x1_0000 * bytes[offset + 2] as int
    + 0x100_0000 * bytes[offset + 3] as int
  }

  lemma U32RoundTrip(bytes: seq<Byte>, offset: nat, value: nat)
    requires offset + 4 <= |bytes| && value < 0x1_0000_0000 && bytes[offset..offset + 4] == U32Bytes(value)
    ensures ReadU32(bytes, offset) == value
  {
    U32Value(value);
    hide U32Bytes;
    assert bytes[offset] == bytes[offset..offset + 4][0] && bytes[offset + 1] == bytes[offset..offset + 4][1];
    assert bytes[offset + 2] == bytes[offset..offset + 4][2] && bytes[offset + 3] == bytes[offset..offset + 4][3];
  }

  lemma U32Value(value: nat)
    requires value < 0x1_0000_0000
    ensures ReadU32(U32Bytes(value), 0) == value
  {
    var (b, c) := (value / 0x100, value / 0x1_0000);
    NextByte(value);
    NextByte(b);
    assert c == b / 0x100 && value / 0x100_0000 == c / 0x100;
    hide ReadU32, U32Bytes;
    BytesOf(value, b, c, c / 0x100);
  }

  /** Dropping two bytes is dropping one twice. */
  lemma NextByte(n: nat)
    ensures n / 0x1_0000 == n / 0x100 / 0x100 && n / 0x100_0000 == n / 0x1_0000 / 0x100
  {
  }

  lemma BytesOf(value: nat, b: nat, c: nat, d: nat)
    requires value < 0x1_0000_0000 && b == value / 0x100 && c == value / 0x1_0000 == b / 0x100
    requires d == value / 0x100_0000 == c / 0x100
    ensures ReadU32(U32Bytes(value), 0) == value
  {
    assert U32Bytes(value) == [value % 0x100, b % 0x100, c % 0x100, d];
    assert value == 0x100 * b + value % 0x100 && b == 0x100 * c + b % 0x100 && c == 0x100 * d + c % 0x100;
  }

  lemma U16RoundTrip(bytes: seq<Byte>, offset: nat, value: nat)
    requires offset + 2 <= |bytes| && value < 0x1_0000 && bytes[offset..offset + 2] == U16Bytes(value)
    ensures ReadU16(bytes, offset) == value
  {
    assert bytes[offset] == bytes[offset..offset + 2][0] && bytes[offset + 1] == bytes[offset..offset + 2][1];
  }

  /** Two's complement. */
  function DecodeSample(low: Byte, high: Byte): Sample16 {
    var raw := low as int + 0x100 * high as int;
    if raw >= 0x8000 then raw - 0x1_0000 else raw
  }

  lemma SampleRoundTrip(sample: Sample16)
    ensures DecodeSample(U16Bytes(Raw16(sample))[0], U16Bytes(Raw16(sample))[1]) == sample
  {
  }

  // --------------------------------------------------------------------- statistics

  datatype Statistics = Statistics(
    minimum: Sample16, maximum: Sample16, peak: nat, sum: int, squareSum: nat, clippedPositive: nat, clippedNegative: nat)

  const NO_SAMPLES := Statistics(32767, -32768, 0, 0, 0, 0, 0)

  function Magnitude(sample: Sample16): nat {
    if sample < 0 then -(sample as int) else sample
  }

  function AddSample(s: Statistics, sample: Sample16): Statistics {
    Statistics(if sample < s.minimum then sample else s.minimum, if sample > s.maximum then sample else s.maximum,
               if Magnitude(sample) > s.peak then Magnitude(sample) else s.peak,
               s.sum + sample, s.squareSum + Square(sample),
               s.clippedPositive + (if sample == 32767 then 1 else 0), s.clippedNegative + (if sample == -32768 then 1 else 0))
  }

  function Square(sample: Sample16): (q: nat)
    ensures q <= 0x4000_0000
  {
    SquareBound(Magnitude(sample));
    Magnitude(sample) * Magnitude(sample)
  }

  lemma SquareBound(m: nat)
    requires m <= 0x8000
    ensures 0 <= m * m <= 0x4000_0000
  {
    OrderedProduct(m, 0x8000, m);
  }

  lemma OrderedProduct(a: nat, b: nat, c: nat)
    requires a <= b
    ensures a * c <= b * c
  {
  }

  /** The direct fold over all samples. */
  function Analyse(pcm: seq<Sample16>): Statistics {
    if pcm == [] then NO_SAMPLES else AddSample(Analyse(pcm[..|pcm| - 1]), pcm[|pcm| - 1])
  }

  /** checkedAccumulate's guards. */
  predicate Overflows(s: Statistics, sample: Sample16) {
    || (sample > 0 && s.sum > INT64_MAX - sample)
    || (sample < 0 && s.sum < -INT64_MAX - 1 - sample)
    || s.squareSum > UINT64_MAX - Square(sample)
  }

  lemma {:induction false} StatisticsBounded(pcm: seq<Sample16>)
    ensures var s := Analyse(pcm);
            && -32768 * |pcm| <= s.sum <= 32767 * |pcm| && s.squareSum <= 0x4000_0000 * |pcm|
            && s.clippedPositive + s.clippedNegative <= |pcm|
  {
    hide Square;
    if pcm != [] {
      StatisticsBounded(pcm[..|pcm| - 1]);
    }
  }

  /** Sizes of chunks are 32-bit words. */
  const CHUNK_SIZES: nat := 0x1_0000_0000

  /** No accumulator check can fire on the samples of one chunk. */
  lemma NeverOverflows(pcm: seq<Sample16>, sample: Sample16)
    requires 2 * |pcm| <= CHUNK_SIZES
    ensures !Overflows(Analyse(pcm), sample)
  {
    hide Square, Analyse;
    StatisticsBounded(pcm);
  }

  /** What the fold means: the extremes are attained bounds. */
  lemma {:induction false} ExtremesAreAttained(pcm: seq<Sample16>)
    requires pcm != []
    ensures var s := Analyse(pcm);
            && s.minimum in pcm && s.maximum in pcm && forall i :: 0 <= i < |pcm| ==> s.minimum <= pcm[i] <= s.maximum
  {
    hide Square, Magnitude;
    var prior, last := pcm[..|pcm| - 1], pcm[|pcm| - 1];
    assert pcm == prior + [last];
    if prior != [] {
      ExtremesAreAttained(prior);
      assert Analyse(prior).minimum in pcm && Analyse(prior).maximum in pcm;
    }
  }

  /** ... the peak is the larger of their magnitudes, and clipping is counted exactly when
      the largest or smallest code occurs. */
  lemma {:induction false} PeakAndClipping(pcm: seq<Sample16>)
    requires pcm != []
    ensures var s := Analyse(pcm);
            && s.peak == (if Magnitude(s.minimum) > Magnitude(s.maximum) then Magnitude(s.minimum) else Magnitude(s.maximum))
            && (s.clippedPositive > 0 <==> s.maximum == 32767) && (s.clippedNegative > 0 <==> s.minimum == -32768)
            && s.minimum <= s.maximum
  {
    hide Square;
    var prior := pcm[..|pcm| - 1];
    if prior != [] {
      PeakAndClipping(prior);
    }
  }

  // ------------------------------------------------------------------------- samples

  function Samples(bytes: seq<Byte>): (pcm: seq<Sample16>)
    requires |bytes| % 2 == 0
    ensures |pcm| == |bytes| / 2
  {
    seq(|bytes| / 2, i requires 0 <= i < |bytes| / 2 => DecodeSample(bytes[2 * i], bytes[2 * i + 1]))
  }

  lemma {:induction false} SamplesOfPcm(pcm: seq<Sample16>)
    ensures Samples(PcmBytes(pcm)) == pcm
  {
    hide U16Bytes, Raw16, DecodeSample;
    if pcm != [] {
      var prior, last := pcm[..|pcm| - 1], pcm[|pcm| - 1];
      SamplesOfPcm(prior);
      SampleRoundTrip(last);
      var (a, b) := (PcmBytes(pcm), PcmBytes(prior));
      forall i | 0 <= i < |pcm| ensures Samples(a)[i] == pcm[i] {
        if i < |prior| {
          assert a[2 * i] == b[2 * i] && a[2 * i + 1] == b[2 * i + 1];
          assert Samples(b)[i] == prior[i];
        }
      }
    }
  }

  datatype Analysed = Analysed(statistics: Statistics) | Overflowed

  /** One block of sample pairs. */
  method AddBlock(block: seq<Byte>, statistics: Statistics, ghost before: seq<Sample16>) returns (result: Analysed)
    requires |block| % 2 == 0 && statistics == Analyse(before)
    ensures result.Analysed? ==> result.statistics == Analyse(before + Samples(block))
    ensures 2 * |before| + |block| <= CHUNK_SIZES ==> result.Analysed?
  {
    hide Overflows, Square, DecodeSample, AddSample, Magnitude;
    var now := statistics;
    ghost var pcm := Samples(block);
    assert before + pcm[..0] == before;
    for index := 0 to |block| / 2
      invariant now == Analyse(before + pcm[..index])
    {
      var sample := DecodeSample(block[2 * index], block[2 * index + 1]);
      ghost var so := before + pcm[..index];
      assert before + pcm[..index + 1] == so + [sample];
      assert (so + [sample])[..|so|] == so;
      if Overflows(now, sample) {
        if 2 * |before| + |block| <= CHUNK_SIZES {
          NeverOverflows(so, sample);
          assert false;
        }
        return Overflowed;
      }
      now := AddSample(now, sample);
    }
    assert pcm[..|block| / 2] == pcm;
    result := Analysed(now);
  }

  lemma SamplesJoin(a: seq<Byte>, b: seq<Byte>)
    requires |a| % 2 == 0 && |b| % 2 == 0
    ensures Samples(a + b) == Samples(a) + Samples(b)
  {
    hide DecodeSample;
  }

  /** analyseSamples: reads the data in blocks and accumulates with overflow checks; block
      by block comes to the same as all at once. */
  method AnalyseSamples(file: seq<Byte>, offset: nat, size: nat) returns (result: Analysed)
    requires offset + size <= |file| && size % 2 == 0
    ensures result.Analysed? ==> result.statistics == Analyse(Samples(file[offset..offset + size]))
    ensures size <= CHUNK_SIZES ==> result.Analysed?
  {
    hide Samples, Analyse;
    var read := 0;
    EmptySamples();
    result := Analysed(NO_SAMPLES);
    assert file[offset..offset] == [];
    while read < size
      invariant read <= size && read % 2 == 0
      invariant result == Analysed(Analyse(Samples(file[offset..offset + read])))
    {
      var count := Min(size - read, BLOCK_BYTES);
      var block := file[offset + read..offset + read + count];
      ghost var done := file[offset..offset + read];
      SamplesJoin(done, block);
      assert done + block == file[offset..offset + (read + count)];
      result := AddBlock(block, result.statistics, Samples(done));
      if result.Overflowed? {
        return;
      }
      read := read + count;
    }
  }

  lemma EmptySamples()
    ensures Samples([]) == [] && Analyse([]) == NO_SAMPLES
  {
  }

  // ---------------------------------------------------------------------- chunk walk

  datatype Format = Format(audioFormat: nat, channels: nat, sampleRate: nat, byteRate: nat, blockAlignment: nat, bitsPerSample: nat)

  datatype Data = Data(offset: nat, size: nat)

  datatype Chunks = Chunks(format: Option<Format>, data: Option<Data>)

  function HasTag(file: seq<Byte>, offset: nat, tag: seq<Byte>): bool {
    offset + |tag| <= |file| && file[offset..offset + |tag|] == tag
  }

  function ReadFormat(file: seq<Byte>, offset: nat): Format
    requires offset + 16 <= |file|
  {
    Format(ReadU16(file, offset), ReadU16(file, offset + 2), ReadU32(file, offset + 4), ReadU32(file, offset + 8),
           ReadU16(file, offset + 12), ReadU16(file, offset + 14))
  }

  /** The size of a chunk whose header starts here, with its padding byte. */
  function PaddedSize(file: seq<Byte>, offset: nat): nat
    requires offset + 8 <= |file|
  {
    var size := ReadU32(file, offset + 4);
    size + size % 2
  }

  /** One chunk: its header, padding and, if it is known, its contents. */
  function TakeChunk(file: seq<Byte>, limits: Limits, offset: nat, chunks: Chunks): Checked<Chunks>
    requires offset + 8 <= |file|
  {
    var size, start := ReadU32(file, offset + 4), offset + 8;
    if start + PaddedSize(file, offset) > |file| then Bad(MalformedContainer)
    else if size % 2 == 1 && file[start + size] != 0 then Bad(MalformedContainer)
    else if HasTag(file, offset, Tag("fmt ")) then
      if chunks.format.Some? || size != 16 then Bad(MalformedContainer)
      else Good(chunks.(format := Some(ReadFormat(file, start))))
    else if HasTag(file, offset, Tag("data")) then
      if chunks.data.Some? then Bad(MalformedContainer) else Good(chunks.(data := Some(Data(start, size))))
    else if size > limits.maximumUnknownChunkBytes then Bad(ResourceLimit)
    else Good(chunks)
  }

  function Walk(file: seq<Byte>, limits: Limits, offset: nat, count: nat, chunks: Chunks): Checked<Chunks>
    requires offset <= |file|
    decreases |file| - offset
  {
    if offset == |file| then Good(chunks)
    else if count >= limits.maximumChunkCount then Bad(ResourceLimit)
    else if |file| - offset < 8 then Bad(MalformedContainer)
    else
      match TakeChunk(file, limits, offset, chunks)
      case Bad(error) => Bad(error)
      case Good(next) => Walk(file, limits, offset + 8 + PaddedSize(file, offset), count + 1, next)
  }

  function ValidateFormat(f: Format, d: Data): Option<InspectError> {
    if f.audioFormat != 1 || f.channels != 1 || f.bitsPerSample != 16 || f.sampleRate !in SUPPORTED_RATES then
      Some(UnsupportedFormat)
    else if f.blockAlignment != 2 || f.byteRate != 2 * f.sampleRate || d.size == 0 || d.size % 2 != 0 then
      Some(MalformedContainer)
    else None
  }

  /** Everything before the samples are read. */
  function Locate(file: seq<Byte>, limits: Limits): Checked<(Format, Data)> {
    if limits.maximumInputBytes == 0 || limits.maximumUnknownChunkBytes == 0 || limits.maximumChunkCount == 0 then
      Bad(ResourceLimit)
    else if |file| > limits.maximumInputBytes then Bad(InputTooLarge)
    else if |file| < 12 then Bad(InvalidContainer)
    else if HasTag(file, 0, Tag("RF64")) || HasTag(file, 0, Tag("RIFX")) then Bad(UnsupportedFormat)
    else if !HasTag(file, 0, Tag("RIFF")) || !HasTag(file, 8, Tag("WAVE")) then Bad(InvalidContainer)
    else if ReadU32(file, 4) + 8 != |file| then Bad(MalformedContainer)
    else
      match Walk(file, limits, 12, 0, Chunks(None, None))
      case Bad(error) => Bad(error)
      case Good(Chunks(Some(f), Some(d))) =>
        (match ValidateFormat(f, d)
         case Some(error) => Bad(error)
         case None => Good((f, d)))
      case Good(_) => Bad(MalformedContainer)
  }

  datatype Inspection = Inspection(sampleRate: nat, frameCount: nat, statistics: Statistics)

  method WalkChunks(file: seq<Byte>, limits: Limits) returns (result: Checked<Chunks>)
    requires |file| >= 12
    ensures result == Walk(file, limits, 12, 0, Chunks(None, None))
  {
    hide TakeChunk, PaddedSize;
    var offset, count, chunks := 12, 0, Chunks(None, None);
    while offset < |file|
      invariant offset <= |file|
      invariant Walk(file, limits, 12, 0, Chunks(None, None)) == Walk(file, limits, offset, count, chunks)
      decreases |file| - offset
    {
      if count >= limits.maximumChunkCount {
        return Bad(ResourceLimit);
      }
      if |file| - offset < 8 {
        return Bad(MalformedContainer);
      }
      var taken := TakeChunk(file, limits, offset, chunks);
      if taken.Bad? {
        return taken;
      }
      ChunkInside(file, limits, offset, chunks);
      chunks := taken.value;
      offset, count := offset + 8 + PaddedSize(file, offset), count + 1;
    }
    result := Good(chunks);
  }

  lemma ChunkInside(file: seq<Byte>, limits: Limits, offset: nat, chunks: Chunks)
    requires offset + 8 <= |file| && TakeChunk(file, limits, offset, chunks).Good?
    ensures offset + 8 + PaddedSize(file, offset) <= |file|
  {
  }

  /** What the walk found lies inside the file. */
  predicate Inside(file: seq<Byte>, chunks: Chunks) {
    chunks.data.Some? ==> chunks.data.value.offset + chunks.data.value.size <= |file| && chunks.data.value.size < CHUNK_SIZES
  }

  lemma {:induction false} WalkStaysInside(file: seq<Byte>, limits: Limits, offset: nat, count: nat, chunks: Chunks)
    requires offset <= |file| && Inside(file, chunks) && Walk(file, limits, offset, count, chunks).Good?
    ensures Inside(file, Walk(file, limits, offset, count, chunks).value)
    decreases |file| - offset
  {
    if offset < |file| {
      ChunkInside(file, limits, offset, chunks);
      var next := TakeChunk(file, limits, offset, chunks).value;
      assert Inside(file, next);
      hide TakeChunk, PaddedSize;
      WalkStaysInside(file, limits, offset + 8 + PaddedSize(file, offset), count + 1, next);
    }
  }

  lemma LocatedInside(file: seq<Byte>, limits: Limits)
    ensures Locate(file, limits).Good? ==>
              var d := Locate(file, limits).value.1; d.offset + d.size <= |file| && d.size % 2 == 0 && d.size < CHUNK_SIZES
  {
    hide Walk, HasTag, ReadU32, ValidateFormat;
    if Locate(file, limits).Good? {
      WalkStaysInside(file, limits, 12, 0, Chunks(None, None));
      ValidIsAligned(Locate(file, limits).value.0, Locate(file, limits).value.1);
    }
  }

  /** What a file holds: its rate and the fold over all its samples, or why it is refused. */
  function Inspected(file: seq<Byte>, limits: Limits): Checked<Inspection> {
    LocatedInside(file, limits);
    match Locate(file, limits)
    case Bad(error) => Bad(error)
    case Good((f, d)) => Good(Inspection(f.sampleRate, d.size / 2, Analyse(Samples(file[d.offset..d.offset + d.size]))))
  }

  /** inspectPcm16Wav without the file system. Its overflow checks never fire. */
  method Inspect(file: seq<Byte>, limits: Limits) returns (result: Checked<Inspection>)
    ensures result == Inspected(file, limits)
  {
    hide Walk, HasTag, ValidateFormat, Analyse, Samples, ReadU32;
    if limits.maximumInputBytes == 0 || limits.maximumUnknownChunkBytes == 0 || limits.maximumChunkCount == 0 {
      return Bad(ResourceLimit);
    }
    if |file| > limits.maximumInputBytes {
      return Bad(InputTooLarge);
    }
    if |file| < 12 {
      return Bad(InvalidContainer);
    }
    if HasTag(file, 0, Tag("RF64")) || HasTag(file, 0, Tag("RIFX")) {
      return Bad(UnsupportedFormat);
    }
    if !HasTag(file, 0, Tag("RIFF")) || !HasTag(file, 8, Tag("WAVE")) {
      return Bad(InvalidContainer);
    }
    if ReadU32(file, 4) + 8 != |file| {
      return Bad(MalformedContainer);
    }
    var walked := WalkChunks(file, limits);
    if walked.Bad? {
      return Bad(walked.error);
    }
    if walked.value.format.None? || walked.value.data.None? {
      return Bad(MalformedContainer);
    }
    WalkStaysInside(file, limits, 12, 0, Chunks(None, None));
    var format, data := walked.value.format.value, walked.value.data.value;
    var error := ValidateFormat(format, data);
    if error.Some? {
      return Bad(error.value);
    }
    ValidIsAligned(format, data);
    var analysed := AnalyseSamples(file, data.offset, data.size);
    if analysed.Overflowed? {
      return Bad(ResourceLimit);
    }
    result := Good(Inspection(format.sampleRate, data.size / 2, analysed.statistics));
  }

  lemma ValidIsAligned(f: Format, d: Data)
    requires ValidateFormat(f, d).None?
    ensures d.size % 2 == 0
  {
  }

  // -------------------------------------------------------------- the writer's files

  lemma RiffFields(rate: nat, pcm: seq<Sample16>)
    requires 2 * rate < 0x1_0000_0000 && 2 * |pcm| + 36 < 0x1_0000_0000
    ensures var file := WavFile(rate, pcm);
            && |file| == 44 + 2 * |pcm|
            && file[0..4] == Tag("RIFF") && file[4..8] == U32Bytes(36 + 2 * |pcm|) && file[8..12] == Tag("WAVE")
            && file[12..36] == FormatChunk(rate)
            && file[36..40] == Tag("data") && file[40..44] == U32Bytes(2 * |pcm|) && file[44..] == PcmBytes(pcm)
  {
    hide U32Bytes, Tag, FormatChunk, PcmBytes;
  }

  lemma FormatFields(file: seq<Byte>, rate: nat)
    requires 2 * rate < 0x1_0000_0000 && |file| >= 36 && file[12..36] == FormatChunk(rate)
    ensures HasTag(file, 12, Tag("fmt ")) && ReadU32(file, 16) == 16
            && ReadFormat(file, 20) == Format(1, 1, rate, 2 * rate, 2, 16)
  {
    var c := FormatChunk(rate);
    ChunkFields(rate);
    hide FormatChunk, U32Bytes, U16Bytes, Tag;
    forall k | 0 <= k < 24 ensures file[12 + k] == c[k] {
      assert file[12 + k] == file[12..36][k];
    }
    assert file[12..16] == file[12..36][0..4];
    U32RoundTrip(c, 4, 16);
    U32RoundTrip(c, 12, rate);
    U32RoundTrip(c, 16, 2 * rate);
    U16RoundTrip(c, 8, 1);
    U16RoundTrip(c, 10, 1);
    U16RoundTrip(c, 20, 2);
    U16RoundTrip(c, 22, 16);
    SameFormat(file, c);
  }

  lemma SameFormat(file: seq<Byte>, c: seq<Byte>)
    requires |c| == 24 && |file| >= 36 && forall k :: 12 <= k < 36 ==> file[k] == c[k - 12]
    ensures ReadU32(file, 16) == ReadU32(c, 4) && ReadFormat(file, 20) == ReadFormat(c, 8)
  {
  }

  lemma ChunkFields(rate: nat)
    requires 2 * rate < 0x1_0000_0000
    ensures var c := FormatChunk(rate);
            && c[0..4] == Tag("fmt ") && c[4..8] == U32Bytes(16) && c[8..10] == U16Bytes(1) && c[10..12] == U16Bytes(1)
            && c[12..16] == U32Bytes(rate) && c[16..20] == U32Bytes(2 * rate) && c[20..22] == U16Bytes(2)
               && c[22..24] == U16Bytes(16)
  {
    hide U32Bytes, U16Bytes, Tag;
  }

  lemma RatesAreSmall(rate: nat)
    requires rate in SUPPORTED_RATES
    ensures rate <= 192_000
  {
  }

  /** Inspecting a written file finds the rate and the statistics of exactly the samples
      written. */
  lemma InspectsWhatWasWritten(file: seq<Byte>, rate: nat, pcm: seq<Sample16>, limits: Limits)
    requires rate in SUPPORTED_RATES && pcm != [] && 2 * |pcm| + 36 < 0x1_0000_0000
    requires file == WavFile(rate, pcm)
    requires |file| <= limits.maximumInputBytes && 2 <= limits.maximumChunkCount && 0 < limits.maximumUnknownChunkBytes
    ensures Inspected(file, limits) == Good(Inspection(rate, |pcm|, Analyse(pcm)))
  {
    hide *;
    WrittenFields(file, rate, pcm, limits);
    InspectedAt(file, limits, Format(1, 1, rate, 2 * rate, 2, 16), Data(44, 2 * |pcm|), pcm);
  }

  lemma WrittenFields(file: seq<Byte>, rate: nat, pcm: seq<Sample16>, limits: Limits)
    requires rate in SUPPORTED_RATES && pcm != [] && 2 * |pcm| + 36 < 0x1_0000_0000
    requires file == WavFile(rate, pcm)
    requires |file| <= limits.maximumInputBytes && 2 <= limits.maximumChunkCount && 0 < limits.maximumUnknownChunkBytes
    ensures |file| == 44 + 2 * |pcm|
    ensures Locate(file, limits) == Good((Format(1, 1, rate, 2 * rate, 2, 16), Data(44, 2 * |pcm|)))
    ensures Samples(file[44..44 + 2 * |pcm|]) == pcm
  {
    hide WavFile, PcmBytes, Tag, Samples, Locate, U32Bytes, FormatChunk;
    RatesAreSmall(rate);
    RiffFields(rate, pcm);
    SamplesWritten(file, pcm);
    LocatesWritten(rate, pcm, limits);
  }

  lemma InspectedAt(file: seq<Byte>, limits: Limits, f: Format, d: Data, pcm: seq<Sample16>)
    requires Locate(file, limits) == Good((f, d)) && d.offset + d.size <= |file| && d.size % 2 == 0
    requires Samples(file[d.offset..d.offset + d.size]) == pcm
    ensures Inspected(file, limits) == Good(Inspection(f.sampleRate, d.size / 2, Analyse(pcm)))
  {
    hide Locate, Samples, Analyse;
  }

  lemma SamplesWritten(file: seq<Byte>, pcm: seq<Sample16>)
    requires |file| == 44 + 2 * |pcm| && file[44..] == PcmBytes(pcm)
    ensures Samples(file[44..44 + 2 * |pcm|]) == pcm
  {
    hide PcmBytes, Samples;
    assert file[44..44 + 2 * |pcm|] == file[44..];
    SamplesOfPcm(pcm);
  }

  lemma LocatesWritten(rate: nat, pcm: seq<Sample16>, limits: Limits)
    requires rate in SUPPORTED_RATES && pcm != [] && 2 * |pcm| + 36 < 0x1_0000_0000
    requires 44 + 2 * |pcm| <= limits.maximumInputBytes && 2 <= limits.maximumChunkCount
             && 0 < limits.maximumUnknownChunkBytes
    ensures Locate(WavFile(rate, pcm), limits) == Good((Format(1, 1, rate, 2 * rate, 2, 16), Data(44, 2 * |pcm|)))
  {
    hide WavFile, PcmBytes, Tag, Locate, U32Bytes, FormatChunk;
    RatesAreSmall(rate);
    RiffFields(rate, pcm);
    LocatesFields(WavFile(rate, pcm), rate, 2 * |pcm|, limits);
  }

  lemma LocatesFields(file: seq<Byte>, rate: nat, bytes: nat, limits: Limits)
    requires rate in SUPPORTED_RATES && bytes > 0 && bytes % 2 == 0 && bytes + 36 < 0x1_0000_0000
    requires 44 + bytes <= limits.maximumInputBytes && 2 <= limits.maximumChunkCount
             && 0 < limits.maximumUnknownChunkBytes
    requires |file| == 44 + bytes && file[0..4] == Tag("RIFF") && file[4..8] == U32Bytes(36 + bytes)
             && file[8..12] == Tag("WAVE")
    requires file[12..36] == FormatChunk(rate) && file[36..40] == Tag("data") && file[40..44] == U32Bytes(bytes)
    ensures Locate(file, limits) == Good((Format(1, 1, rate, 2 * rate, 2, 16), Data(44, bytes)))
  {
    hide Tag, Locate, ReadU32, U32Bytes, FormatChunk, ReadFormat, HasTag, Walk;
    RatesAreSmall(rate);
    RiffTags(file, bytes);
    FormatFields(file, rate);
    TagsDiffer();
    WalkWritten(file, rate, bytes, limits);
    LocateWritten(file, rate, bytes, limits);
  }

  lemma RiffTags(file: seq<Byte>, bytes: nat)
    requires |file| == 44 + bytes && bytes + 36 < 0x1_0000_0000
    requires file[0..4] == Tag("RIFF") && file[4..8] == U32Bytes(36 + bytes) && file[8..12] == Tag("WAVE")
    requires file[36..40] == Tag("data") && file[40..44] == U32Bytes(bytes)
    ensures HasTag(file, 0, Tag("RIFF")) && HasTag(file, 8, Tag("WAVE")) && HasTag(file, 36, Tag("data"))
    ensures ReadU32(file, 4) == 36 + bytes && ReadU32(file, 40) == bytes
  {
    hide Tag, U32Bytes, ReadU32;
    U32RoundTrip(file, 4, 36 + bytes);
    U32RoundTrip(file, 40, bytes);
  }

  lemma LocateWritten(file: seq<Byte>, rate: nat, bytes: nat, limits: Limits)
    requires |file| == 44 + bytes && bytes > 0 && bytes % 2 == 0 && rate in SUPPORTED_RATES
    requires 44 + bytes <= limits.maximumInputBytes && 2 <= limits.maximumChunkCount
             && 0 < limits.maximumUnknownChunkBytes
    requires HasTag(file, 0, Tag("RIFF")) && HasTag(file, 8, Tag("WAVE")) && ReadU32(file, 4) == 36 + bytes
    requires Tag("RIFF") != Tag("RF64") && Tag("RIFF") != Tag("RIFX")
    requires Walk(file, limits, 12, 0, Chunks(None, None))
          == Good(Chunks(Some(Format(1, 1, rate, 2 * rate, 2, 16)), Some(Data(44, bytes))))
    ensures Locate(file, limits) == Good((Format(1, 1, rate, 2 * rate, 2, 16), Data(44, bytes)))
  {
    hide Walk, Tag, ReadU32;
    FormatIsValid(rate, bytes);
    hide ValidateFormat;
  }

  lemma FormatIsValid(rate: nat, bytes: nat)
    requires rate in SUPPORTED_RATES && bytes > 0 && bytes % 2 == 0
    ensures ValidateFormat(Format(1, 1, rate, 2 * rate, 2, 16), Data(44, bytes)).None?
  {
  }

  lemma TagsDiffer()
    ensures Tag("RIFF") != Tag("RF64") && Tag("RIFF") != Tag("RIFX") && Tag("fmt ") != Tag("data")
  {
    assert Tag("RIFF")[1] != Tag("RF64")[1] && Tag("RIFF")[3] != Tag("RIFX")[3] && Tag("fmt ")[0] != Tag("data")[0];
  }

  lemma WalkWritten(file: seq<Byte>, rate: nat, bytes: nat, limits: Limits)
    requires |file| == 44 + bytes && bytes % 2 == 0 && 2 <= limits.maximumChunkCount
    requires HasTag(file, 12, Tag("fmt ")) && ReadU32(file, 16) == 16
    requires ReadFormat(file, 20) == Format(1, 1, rate, 2 * rate, 2, 16)
    requires HasTag(file, 36, Tag("data")) && ReadU32(file, 40) == bytes && Tag("fmt ") != Tag("data")
    ensures Walk(file, limits, 12, 0, Chunks(None, None))
         == Good(Chunks(Some(Format(1, 1, rate, 2 * rate, 2, 16)), Some(Data(44, bytes))))
  {
    hide ReadU32, Tag, ReadFormat;
    var first := Chunks(Some(Format(1, 1, rate, 2 * rate, 2, 16)), None);
    assert TakeChunk(file, limits, 12, Chunks(None, None)) == Good(first) && PaddedSize(file, 12) == 16;
    var both := first.(data := Some(Data(44, bytes)));
    assert TakeChunk(file, limits, 36, first) == Good(both) && PaddedSize(file, 36) == bytes;
    hide TakeChunk, PaddedSize;
    assert Walk(file, limits, 44 + bytes, 2, both) == Good(both);
    assert Walk(file, limits, 36, 1, first) == Good(both);
  }
}
