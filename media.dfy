/** The WAV codec of the library (the RIFF "WAVE" form: a "fmt " chunk and a
    "data" chunk), over an in-memory byte sequence that stands for the file.
    Multi-byte fields are little-endian. */
module Media {
  import opened Common
  import opened LittleEndian
  import Sounds

  /** The four-character chunk tags, as the little-endian u32 their bytes read as. */
  const RiffTag: U32 := 0x46464952   // "RIFF"
  const WaveTag: U32 := 0x45564157   // "WAVE"
  const FmtTag: U32 := 0x20746D66    // "fmt "
  const DataTag: U32 := 0x61746164   // "data"

  /** sizeof(wav_head_t) and sizeof(chunk_head_t). */
  const WavHeadSize: nat := 36
  const ChunkHeadSize: nat := 8

  /** wav_head_t: the RIFF header and the "fmt " chunk. */
  datatype WavHead = WavHead(
    head: U32, fileSize: U32, wavHead: U32,
    fmtHead: U32, chunkSize: U32, format: U16, numChannels: U16,
    sampleRate: U32, byteRate: U32, alignment: U16, sampleSizeB: U16)

  /** chunk_head_t */
  datatype ChunkHead = ChunkHead(head: U32, size: U32)

  function EncodeHead(h: WavHead): (b: seq<Byte>)
    ensures |b| == WavHeadSize
  {
    EncodeU32(h.head) + EncodeU32(h.fileSize) + EncodeU32(h.wavHead)
    + EncodeU32(h.fmtHead) + EncodeU32(h.chunkSize) + EncodeU16(h.format) + EncodeU16(h.numChannels)
    + EncodeU32(h.sampleRate) + EncodeU32(h.byteRate) + EncodeU16(h.alignment) + EncodeU16(h.sampleSizeB)
  }

  function DecodeHead(b: seq<Byte>): WavHead
    requires |b| == WavHeadSize
  {
    WavHead(DecodeU32(b[0..4]), DecodeU32(b[4..8]), DecodeU32(b[8..12]),
            DecodeU32(b[12..16]), DecodeU32(b[16..20]), DecodeU16(b[20..22]), DecodeU16(b[22..24]),
            DecodeU32(b[24..28]), DecodeU32(b[28..32]), DecodeU16(b[32..34]), DecodeU16(b[34..36]))
  }

  function EncodeChunk(c: ChunkHead): (b: seq<Byte>)
    ensures |b| == ChunkHeadSize
  {
    EncodeU32(c.head) + EncodeU32(c.size)
  }

  function DecodeChunk(b: seq<Byte>): ChunkHead
    requires |b| == ChunkHeadSize
  {
    ChunkHead(DecodeU32(b[0..4]), DecodeU32(b[4..8]))
  }

  /** Where each field of wav_head_t lies: the RIFF descriptor. */
  lemma HeadLayoutRiff(h: WavHead)
    ensures EncodeHead(h)[0..4] == EncodeU32(h.head)
    ensures EncodeHead(h)[4..8] == EncodeU32(h.fileSize)
    ensures EncodeHead(h)[8..12] == EncodeU32(h.wavHead)
  {
  }

  /** The "fmt " chunk header, the format tag and the channel count. */
  lemma HeadLayoutFmt(h: WavHead)
    ensures EncodeHead(h)[12..16] == EncodeU32(h.fmtHead)
    ensures EncodeHead(h)[16..20] == EncodeU32(h.chunkSize)
    ensures EncodeHead(h)[20..22] == EncodeU16(h.format)
    ensures EncodeHead(h)[22..24] == EncodeU16(h.numChannels)
  {
  }

  /** The rates, the block alignment and the bits per sample. */
  lemma HeadLayoutRates(h: WavHead)
    ensures EncodeHead(h)[24..28] == EncodeU32(h.sampleRate)
    ensures EncodeHead(h)[28..32] == EncodeU32(h.byteRate)
    ensures EncodeHead(h)[32..34] == EncodeU16(h.alignment)
    ensures EncodeHead(h)[34..36] == EncodeU16(h.sampleSizeB)
  {
  }

  lemma HeadRoundTrip(h: WavHead)
    ensures DecodeHead(EncodeHead(h)) == h
  {
    HeadLayoutRiff(h);
    HeadLayoutFmt(h);
    HeadLayoutRates(h);
    U32RoundTrip(h.head);
    U32RoundTrip(h.fileSize);
    U32RoundTrip(h.wavHead);
    U32RoundTrip(h.fmtHead);
    U32RoundTrip(h.chunkSize);
    U16RoundTrip(h.format);
    U16RoundTrip(h.numChannels);
    U32RoundTrip(h.sampleRate);
    U32RoundTrip(h.byteRate);
    U16RoundTrip(h.alignment);
    U16RoundTrip(h.sampleSizeB);
  }

  lemma ChunkRoundTrip(c: ChunkHead)
    ensures DecodeChunk(EncodeChunk(c)) == c
  {
    var b := EncodeChunk(c);
    assert b[0..4] == EncodeU32(c.head) && b[4..8] == EncodeU32(c.size);
    U32RoundTrip(c.head);
    U32RoundTrip(c.size);
  }

  /** The three tags a header must carry. */
  predicate TagsOk(h: WavHead)
  {
    h.head == RiffTag && h.wavHead == WaveTag && h.fmtHead == FmtTag
  }

  /** The format-tag / bit-width mapping: only integer PCM of 16 bits and
      IEEE float of 32 bits are understood. */
  function FormatOf(format: U16, bits: U16): (r: Option<AudioFmt>)
    ensures r == Some(FmtI16) <==> format == 1 && bits == 16
    ensures r == Some(FmtF32) <==> format == 3 && bits == 32
    ensures r.Some? ==> r.value != FmtNone
  {
    if format == 1 && bits == 16 then Some(FmtI16)
    else if format == 3 && bits == 32 then Some(FmtF32)
    else None
  }

  /** Reading and checking the 36-byte header. */
  function ReadHead(file: seq<Byte>): Result<WavHead>
  {
    if |file| < WavHeadSize then Err(ErrIn)
    else
      var h := DecodeHead(file[..WavHeadSize]);
      if !TagsOk(h) then Err(ErrFtype) else Ok(h)
  }

  /** caMediaGetInfoWAV. `None` is a file that cannot be opened. */
  function GetInfoWav(file: Option<seq<Byte>>): Result<WavInfo>
  {
    match file
    case None => Err(ErrFile)
    case Some(f) =>
      match ReadHead(f)
      case Err(e) => Err(e)
      case Ok(h) =>
        match FormatOf(h.format, h.sampleSizeB)
        case None => Err(ErrFtype)
        case Some(fmt) => Ok(WavInfo(h.sampleRate, h.numChannels, fmt))
  }

  /** The chunk scan from position pos: chunk headers are read and skipped by
      their declared size until one tagged "data"; the result is that header
      and where its payload starts. Running out of bytes finds nothing. */
  function FindData(file: seq<Byte>, pos: nat): (r: Option<(ChunkHead, nat)>)
    ensures r.Some? ==> r.value.0.head == DataTag
    ensures r.Some? ==> pos + ChunkHeadSize <= r.value.1 <= |file|
    decreases |file| - pos
  {
    if pos + ChunkHeadSize > |file| then None
    else
      var c := DecodeChunk(file[pos..pos + ChunkHeadSize]);
      if c.head == DataTag then Some((c, pos + ChunkHeadSize))
      else FindData(file, pos + ChunkHeadSize + c.size)
  }

  /** One step of the scan. */
  lemma FindDataStep(file: seq<Byte>, pos: nat, c: ChunkHead)
    requires pos + ChunkHeadSize <= |file|
    requires c == DecodeChunk(file[pos..pos + ChunkHeadSize])
    ensures c.head == DataTag ==> FindData(file, pos) == Some((c, pos + ChunkHeadSize))
    ensures c.head != DataTag ==> FindData(file, pos) == FindData(file, pos + ChunkHeadSize + c.size)
  {
  }

  /** The chunk-scan loop of caMediaLoadWAV. */
  method ScanToData(file: seq<Byte>) returns (found: Option<(ChunkHead, nat)>)
    ensures found == FindData(file, WavHeadSize)
  {
    var pos := WavHeadSize;
    while pos + ChunkHeadSize <= |file|
      invariant FindData(file, pos) == FindData(file, WavHeadSize)
      decreases |file| - pos
    {
      var c := DecodeChunk(file[pos..pos + ChunkHeadSize]);
      FindDataStep(file, pos, c);
      if c.head == DataTag {
        return Some((c, pos + ChunkHeadSize));
      }
      pos := pos + ChunkHeadSize + c.size;
    }
    return None;
  }

  /** What caMediaLoadWAV settles before it allocates: the header, the data
      chunk, where its payload starts and the sample format. */
  datatype Plan = Plan(head: WavHead, data: ChunkHead, start: nat, fmt: AudioFmt)

  /** The checks of caMediaLoadWAV in their order: open, header size, tags,
      data chunk, format. */
  function PlanLoad(file: Option<seq<Byte>>): (r: Result<Plan>)
    ensures r.Ok? ==> r.value.fmt != FmtNone
  {
    match file
    case None => Err(ErrFile)
    case Some(f) =>
      match ReadHead(f)
      case Err(e) => Err(e)
      case Ok(h) =>
        match FindData(f, WavHeadSize)
        case None => Err(ErrIn)
        case Some(found) =>
          match FormatOf(h.format, h.sampleSizeB)
          case None => Err(ErrFtype)
          case Some(fmt) => Ok(Plan(h, found.0, found.1, fmt))
  }

  /** The data chunk holds a whole number of samples (otherwise the source
      reads the chunk past the end of the buffer it allocated). */
  predicate DataAligned(file: Option<seq<Byte>>)
  {
    var p := PlanLoad(file);
    p.Ok? ==> p.value.data.size % p.value.fmt as int == 0
  }

  /** The data chunk's declared bytes lie within the file. */
  predicate PayloadPresent(file: seq<Byte>, p: Plan)
  {
    p.start + p.data.size <= |file|
  }

  /** The bytes of the data chunk. */
  function Payload(file: seq<Byte>, p: Plan): (b: seq<Byte>)
    requires PayloadPresent(file, p)
    ensures |b| == p.data.size
  {
    file[p.start..p.start + p.data.size]
  }

  /** The samples the payload bytes hold. */
  function DecodeSamples(fmt: AudioFmt, payload: seq<Byte>): (d: Sounds.Storage)
    ensures fmt == FmtI16 ==> Sounds.Holds(d, fmt, |payload| / 2)
    ensures fmt == FmtF32 ==> Sounds.Holds(d, fmt, |payload| / 4)
  {
    if fmt == FmtI16 then Sounds.Int16s(DecodeI16s(payload))
    else if fmt == FmtF32 then Sounds.Float32s(DecodeF32s(payload))
    else Sounds.ZeroBytes
  }

  /** The stream description caMediaLoadWAV reports, as written: the sample
      rate is stored into the 16-bit channel count as well. */
  function LoadedInfoAsWritten(p: Plan): WavInfo
  {
    WavInfo(p.head.sampleRate, p.head.sampleRate % 0x1_0000, p.fmt)
  }

  /** The stream description the header holds, which caMediaGetInfoWAV
      reports: the channel count comes from the channel field. */
  function LoadedInfo(p: Plan): WavInfo
  {
    WavInfo(p.head.sampleRate, p.head.numChannels, p.fmt)
  }

  /** caMediaLoadWAV. On success the sound holds size / fmt samples decoded
      from the payload, and info is the description as written
      (LoadedInfoAsWritten). */
  method LoadWav(s: Sounds.Sound, file: Option<seq<Byte>>, allocFails: bool) returns (r: CaResult, info: Option<WavInfo>)
    requires DataAligned(file)
    modifies s
    ensures PlanLoad(file).Err? ==> r == PlanLoad(file).error && info == None && unchanged(s)
    ensures PlanLoad(file).Ok? && allocFails ==> r == ErrAlloc && info == None && s.data == Sounds.NoStorage
    ensures PlanLoad(file).Ok? && allocFails ==>
              && s.numSamples == old(s.numSamples) && s.curSample == old(s.curSample)
              && s.fmt == old(s.fmt) && s.isPlaying == old(s.isPlaying)
    ensures PlanLoad(file).Ok? && !allocFails ==>
              && s.numSamples == PlanLoad(file).value.data.size / PlanLoad(file).value.fmt as int
              && s.fmt == PlanLoad(file).value.fmt && s.curSample == 0 && !s.isPlaying
    ensures PlanLoad(file).Ok? && !allocFails && !PayloadPresent(file.value, PlanLoad(file).value) ==>
              r == ErrIn && info == None
    ensures PlanLoad(file).Ok? && !allocFails && PayloadPresent(file.value, PlanLoad(file).value) ==>
              && r == Success
              && s.data == DecodeSamples(s.fmt, Payload(file.value, PlanLoad(file).value))
              && Sounds.Holds(s.data, s.fmt, s.numSamples)
    ensures PlanLoad(file).Ok? && !allocFails && PayloadPresent(file.value, PlanLoad(file).value) ==>
              info == Some(LoadedInfoAsWritten(PlanLoad(file).value))
  {
    info := None;
    if file.None? {
      return ErrFile, None;
    }
    var f := file.value;
    if |f| < WavHeadSize {
      assert ReadHead(f) == Err(ErrIn);
      return ErrIn, None;
    }
    var h := DecodeHead(f[..WavHeadSize]);
    if !TagsOk(h) {
      assert ReadHead(f) == Err(ErrFtype);
      return ErrFtype, None;
    }
    assert ReadHead(f) == Ok(h);
    var found := ScanToData(f);
    if found.None? {
      assert PlanLoad(file) == Err(ErrIn);
      return ErrIn, None;
    }
    var c, start := found.value.0, found.value.1;
    var fmt := FormatOf(h.format, h.sampleSizeB);
    if fmt.None? {
      assert PlanLoad(file) == Err(ErrFtype);
      return ErrFtype, None;
    }
    var p := Plan(h, c, start, fmt.value);
    assert PlanLoad(file) == Ok(p);
    r := Sounds.InitSound(s, c.size / fmt.value as int, fmt.value, allocFails);
    if r != Success {
      return;
    }
    if !PayloadPresent(f, p) {
      return ErrIn, None;
    }
    var payload := Payload(f, p);
    s.data := DecodeSamples(fmt.value, payload);
    info := Some(LoadedInfoAsWritten(p));
    r := Success;
  }

  /** The header caMediaSaveWAV fills in for dataSize bytes of samples. */
  function SaveHead(fmt: AudioFmt, dataSize: nat, sampleRate: U32, numChannels: U16): WavHead
  {
    WavHead(RiffTag, (WavHeadSize + ChunkHeadSize + dataSize - 8) % 0x1_0000_0000, WaveTag,
            FmtTag, 16, if fmt == FmtF32 then 3 else 1, numChannels,
            sampleRate, (sampleRate * numChannels * fmt as int) % 0x1_0000_0000,
            (numChannels * fmt as int) % 0x1_0000, fmt as int * 8)
  }

  /** The bytes of a saved file: header, "data" chunk header, samples. */
  function WavFile(fmt: AudioFmt, payload: seq<Byte>, sampleRate: U32, numChannels: U16): seq<Byte>
  {
    EncodeHead(SaveHead(fmt, |payload|, sampleRate, numChannels))
    + EncodeChunk(ChunkHead(DataTag, |payload| % 0x1_0000_0000))
    + payload
  }

  /** The numSamples * fmt bytes fwrite takes from the storage. */
  function SampleBytes(d: Sounds.Storage, fmt: AudioFmt, n: nat): (b: seq<Byte>)
    requires Sounds.Provides(d, fmt, n)
    ensures |b| == n * fmt as int
  {
    if fmt == FmtI16 then EncodeI16s(d.i[..n])
    else if fmt == FmtF32 then EncodeF32s(d.f[..n])
    else []
  }

  /** The count fwrite(ptr, size, count, f) reports when every write
      succeeds: a zero element size or count writes nothing and reports 0
      (section 7.21.8.2 of ISO C). */
  function WrittenCount(size: nat, count: nat): (n: nat)
    ensures n == count <==> size != 0 || count == 0
  {
    if size == 0 || count == 0 then 0 else count
  }

  /** caMediaSaveWAV: the bytes written to the file and the result.
      `canOpen` says whether the file could be opened. A sound without a
      format but with samples gets its headers written and is then reported
      as an output error, because fwrite of zero-size elements reports 0. */
  method SaveWav(s: Sounds.Sound, canOpen: bool, sampleRate: U32, numChannels: U16) returns (r: CaResult, out: seq<Byte>)
    requires Sounds.Provides(s.data, s.fmt, s.numSamples)
    ensures !canOpen ==> r == ErrFile && out == []
    ensures canOpen ==> out == WavFile(s.fmt, SampleBytes(s.data, s.fmt, s.numSamples), sampleRate, numChannels)
    ensures canOpen && s.fmt == FmtNone && s.numSamples != 0 ==> r == ErrOut
    ensures canOpen && (s.fmt != FmtNone || s.numSamples == 0) ==> r == Success
  {
    if !canOpen {
      return ErrFile, [];
    }
    var dataSize := s.numSamples * s.fmt as int;
    var head := SaveHead(s.fmt, dataSize, sampleRate, numChannels);
    var chunk := ChunkHead(DataTag, dataSize % 0x1_0000_0000);
    out := EncodeHead(head);
    out := out + EncodeChunk(chunk);
    out := out + SampleBytes(s.data, s.fmt, s.numSamples);
    if WrittenCount(s.fmt as int, s.numSamples) != s.numSamples {
      return ErrOut, out;
    }
    r := Success;
  }

  /** The four-character tags as the bytes of the file. */
  const RiffBytes: seq<Byte> := [0x52, 0x49, 0x46, 0x46]   // 'R' 'I' 'F' 'F'
  const WaveBytes: seq<Byte> := [0x57, 0x41, 0x56, 0x45]   // 'W' 'A' 'V' 'E'
  const FmtBytes: seq<Byte> := [0x66, 0x6D, 0x74, 0x20]    // 'f' 'm' 't' ' '
  const DataBytes: seq<Byte> := [0x64, 0x61, 0x74, 0x61]   // 'd' 'a' 't' 'a'

  /** The tags of a 36-byte header are right exactly when its bytes spell
      "RIFF" at 0, "WAVE" at 8 and "fmt " at 12. */
  lemma TagsOkBytes(b: seq<Byte>)
    requires |b| == WavHeadSize
    ensures TagsOk(DecodeHead(b)) <==> b[0..4] == RiffBytes && b[8..12] == WaveBytes && b[12..16] == FmtBytes
  {
    U32Match(b[0..4], RiffTag);
    U32Match(b[8..12], WaveTag);
    U32Match(b[12..16], FmtTag);
  }

  /** A header is accepted exactly when the file has 36 bytes with the three
      tags in place; a short file is an input error and a wrong tag a
      file-type error. */
  lemma ReadHeadAccepts(f: seq<Byte>)
    ensures |f| < WavHeadSize ==> ReadHead(f) == Err(ErrIn)
    ensures ReadHead(f).Ok? <==>
              |f| >= WavHeadSize && f[0..4] == RiffBytes && f[8..12] == WaveBytes && f[12..16] == FmtBytes
    ensures |f| >= WavHeadSize && ReadHead(f).Err? ==> ReadHead(f) == Err(ErrFtype)
  {
    if |f| >= WavHeadSize {
      var b := f[..WavHeadSize];
      TagsOkBytes(b);
      assert b[0..4] == f[0..4] && b[8..12] == f[8..12] && b[12..16] == f[12..16];
    }
  }

  /** A chunk header decodes as "data" exactly when its first four bytes spell it. */
  lemma DataTagBytes(b: seq<Byte>)
    requires |b| == ChunkHeadSize
    ensures DecodeChunk(b).head == DataTag <==> b[0..4] == DataBytes
  {
    U32Match(b[0..4], DataTag);
  }

  /** The three parts of a saved file. */
  lemma WavFileParts(fmt: AudioFmt, payload: seq<Byte>, sampleRate: U32, numChannels: U16)
    ensures var file := WavFile(fmt, payload, sampleRate, numChannels);
      && |file| == WavHeadSize + ChunkHeadSize + |payload|
      && file[..WavHeadSize] == EncodeHead(SaveHead(fmt, |payload|, sampleRate, numChannels))
      && file[WavHeadSize..WavHeadSize + ChunkHeadSize] == EncodeChunk(ChunkHead(DataTag, |payload| % 0x1_0000_0000))
      && file[WavHeadSize + ChunkHeadSize..] == payload
  {
  }

  /** What caMediaSaveWAV writes, caMediaGetInfoWAV reads back: the sample
      rate, the channel count and the format (a sound without a format is
      saved with 0 bits per sample, which is then refused). */
  lemma SaveGetInfoRoundTrip(fmt: AudioFmt, payload: seq<Byte>, sampleRate: U32, numChannels: U16)
    ensures fmt != FmtNone ==>
              GetInfoWav(Some(WavFile(fmt, payload, sampleRate, numChannels))) == Ok(WavInfo(sampleRate, numChannels, fmt))
    ensures fmt == FmtNone ==>
              GetInfoWav(Some(WavFile(fmt, payload, sampleRate, numChannels))) == Err(ErrFtype)
  {
    WavFileParts(fmt, payload, sampleRate, numChannels);
    HeadRoundTrip(SaveHead(fmt, |payload|, sampleRate, numChannels));
  }

  /** The data chunk of a saved file is found right after the header. */
  lemma SavedDataFound(fmt: AudioFmt, payload: seq<Byte>, sampleRate: U32, numChannels: U16)
    requires |payload| < 0x1_0000_0000
    ensures FindData(WavFile(fmt, payload, sampleRate, numChannels), WavHeadSize)
            == Some((ChunkHead(DataTag, |payload|), WavHeadSize + ChunkHeadSize))
  {
    var file := WavFile(fmt, payload, sampleRate, numChannels);
    var c := ChunkHead(DataTag, |payload|);
    assert file[WavHeadSize..WavHeadSize + ChunkHeadSize] == EncodeChunk(c);
    ChunkRoundTrip(c);
    FindDataStep(file, WavHeadSize, c);
  }

  /** Samples written by caMediaSaveWAV decode to the same samples. */
  lemma SamplesRoundTrip(d: Sounds.Storage, fmt: AudioFmt, n: nat)
    requires fmt != FmtNone && Sounds.Provides(d, fmt, n)
    ensures DecodeSamples(fmt, SampleBytes(d, fmt, n)) == Sounds.Prefix(d, fmt, n)
  {
    if fmt == FmtI16 {
      I16sRoundTrip(d.i[..n]);
    } else {
      F32sRoundTrip(d.f[..n]);
    }
  }

  /** A sound saved by caMediaSaveWAV (with a format, and no more than 4 GiB
      of samples) passes every check of caMediaLoadWAV, and its data chunk
      decodes to the first numSamples samples of the sound, at the rate it
      was saved with. */
  lemma SaveLoadRoundTrip(d: Sounds.Storage, fmt: AudioFmt, n: nat, sampleRate: U32, numChannels: U16)
    requires fmt != FmtNone && Sounds.Provides(d, fmt, n)
    requires n * fmt as int < 0x1_0000_0000
    ensures var file := WavFile(fmt, SampleBytes(d, fmt, n), sampleRate, numChannels);
      && PlanLoad(Some(file)).Ok?
      && DataAligned(Some(file))
      && PlanLoad(Some(file)).value.fmt == fmt
      && PlanLoad(Some(file)).value.head.sampleRate == sampleRate
      && PlanLoad(Some(file)).value.data.size / fmt as int == n
      && PayloadPresent(file, PlanLoad(Some(file)).value)
      && DecodeSamples(fmt, Payload(file, PlanLoad(Some(file)).value)) == Sounds.Prefix(d, fmt, n)
  {
    var payload := SampleBytes(d, fmt, n);
    var file := WavFile(fmt, payload, sampleRate, numChannels);
    WavFileParts(fmt, payload, sampleRate, numChannels);
    var h := SaveHead(fmt, |payload|, sampleRate, numChannels);
    HeadRoundTrip(h);
    assert ReadHead(file) == Ok(h);
    SavedDataFound(fmt, payload, sampleRate, numChannels);
    var p := Plan(h, ChunkHead(DataTag, |payload|), WavHeadSize + ChunkHeadSize, fmt);
    assert PlanLoad(Some(file)) == Ok(p);
    assert Payload(file, p) == payload;
    SamplesRoundTrip(d, fmt, n);
  }

  /** Whenever caMediaLoadWAV gets past its checks, caMediaGetInfoWAV on the
      same file succeeds with the description the header holds. */
  lemma GetInfoAgreesWithLoad(file: Option<seq<Byte>>)
    requires PlanLoad(file).Ok?
    ensures GetInfoWav(file) == Ok(LoadedInfo(PlanLoad(file).value))
  {
  }

  /** Loading a saved file describes the stream it was saved with. */
  lemma SaveLoadInfoRoundTrip(d: Sounds.Storage, fmt: AudioFmt, n: nat, sampleRate: U32, numChannels: U16)
    requires fmt != FmtNone && Sounds.Provides(d, fmt, n)
    requires n * fmt as int < 0x1_0000_0000
    ensures var file := WavFile(fmt, SampleBytes(d, fmt, n), sampleRate, numChannels);
      && PlanLoad(Some(file)).Ok?
      && LoadedInfo(PlanLoad(Some(file)).value) == WavInfo(sampleRate, numChannels, fmt)
  {
    var file := WavFile(fmt, SampleBytes(d, fmt, n), sampleRate, numChannels);
    SaveLoadRoundTrip(d, fmt, n, sampleRate, numChannels);
    GetInfoAgreesWithLoad(Some(file));
    SaveGetInfoRoundTrip(fmt, SampleBytes(d, fmt, n), sampleRate, numChannels);
  }

  /** As written, loading a saved file reports the sample rate (truncated
      to 16 bits) as the channel count, so the channel count does not
      survive the round trip unless it happens to equal that value; a
      stereo 44100 Hz file comes back with 44100 channels. */
  lemma LoadedChannelsAsWritten(d: Sounds.Storage, fmt: AudioFmt, n: nat, sampleRate: U32, numChannels: U16)
    requires fmt != FmtNone && Sounds.Provides(d, fmt, n)
    requires n * fmt as int < 0x1_0000_0000
    ensures var file := WavFile(fmt, SampleBytes(d, fmt, n), sampleRate, numChannels);
      && PlanLoad(Some(file)).Ok?
      && LoadedInfoAsWritten(PlanLoad(Some(file)).value).numChannels == sampleRate % 0x1_0000
      && (LoadedInfoAsWritten(PlanLoad(Some(file)).value) == WavInfo(sampleRate, numChannels, fmt)
          <==> sampleRate % 0x1_0000 == numChannels)
    ensures sampleRate == 44100 && numChannels == 2 ==>
      LoadedInfoAsWritten(PlanLoad(Some(WavFile(fmt, SampleBytes(d, fmt, n), sampleRate, numChannels))).value).numChannels == 44100
  {
    SaveLoadRoundTrip(d, fmt, n, sampleRate, numChannels);
  }

  /** The header a reader finds in a saved file: the RIFF size is the file
      length minus 8, the "fmt " chunk is 16 bytes long, the format tag is 3
      for float samples and 1 otherwise, the byte rate, alignment and bit
      width follow from the sample width (all truncated to their field
      widths), and the "data" chunk declares the payload length, which is
      what follows it. */
  lemma SavedHeader(fmt: AudioFmt, payload: seq<Byte>, sampleRate: U32, numChannels: U16)
    ensures var file := WavFile(fmt, payload, sampleRate, numChannels);
      var h := DecodeHead(file[..WavHeadSize]);
      && |file| == WavHeadSize + ChunkHeadSize + |payload|
      && TagsOk(h)
      && h.fileSize == (|file| - 8) % 0x1_0000_0000
      && h.chunkSize == 16
      && h.format == (if fmt == FmtF32 then 3 else 1)
      && h.numChannels == numChannels && h.sampleRate == sampleRate
      && h.byteRate == (sampleRate * numChannels * fmt as int) % 0x1_0000_0000
      && h.alignment == (numChannels * fmt as int) % 0x1_0000
      && h.sampleSizeB == 8 * fmt as int
      && DecodeChunk(file[WavHeadSize..WavHeadSize + ChunkHeadSize]) == ChunkHead(DataTag, |payload| % 0x1_0000_0000)
      && file[WavHeadSize + ChunkHeadSize..] == payload
  {
    WavFileParts(fmt, payload, sampleRate, numChannels);
    HeadRoundTrip(SaveHead(fmt, |payload|, sampleRate, numChannels));
    ChunkRoundTrip(ChunkHead(DataTag, |payload| % 0x1_0000_0000));
  }

  /** The load scans for the data chunk before it looks at the format, and
      the info query does not scan at all: a well-tagged file without a data
      chunk fails to load with an input error whatever its format, while
      the info query accepts or refuses it on its format alone. */
  lemma LoadErrorOrder(f: seq<Byte>)
    requires ReadHead(f).Ok? && FindData(f, WavHeadSize).None?
    ensures PlanLoad(Some(f)) == Err(ErrIn)
    ensures FormatOf(ReadHead(f).value.format, ReadHead(f).value.sampleSizeB).None? ==> GetInfoWav(Some(f)) == Err(ErrFtype)
    ensures FormatOf(ReadHead(f).value.format, ReadHead(f).value.sampleSizeB).Some? ==> GetInfoWav(Some(f)).Ok?
  {
  }
}
