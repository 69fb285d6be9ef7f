# A verified model of the CAudio mixer, sound buffers and WAV codec

CAudio is a small C audio library. An application creates sound buffers
(`sound_t`), loads them from or saves them to WAV files, and plays them
through a mixer. The mixer keeps a queue of playing sounds. An audio backend
calls the mixer once per period; each call sums every queued sound into the
output buffer and drops the sounds that have finished.

This project models three parts of the library in Dafny and proves
properties about each:

- **The mixer** (`mixing.dfy`, module `Mixing`), modelled on `src/ca_mixer.c`:
  - the queue behind the sentinel node, as a `seq<Node<S>>` field of the class `Mixer<S>`;
  - `caMixerPlaySound` (`Play`) and the per-period callback (`Callback`);
  - the two sample adders (`AddSamples`) and the queue clean-up (`Clean`, `Unlink`);
  - the node-freeing loop of `caMixerDestroy` (`Destroy`);
  - the choice of adder at creation (`SelectAdder`).

  The mixer is generic in the sample type `S`, with the element addition
  `plus` of its adder and the zero sample `silence` as fields. The two
  creation methods tie them to the adder that `SelectAdder` picks.
  `NewMixerI16`, for every format other than `CA_FMT_F32`, fixes them to
  `Add16` (addition narrowed back to `int16_t`, wrapping modulo 2^16 and
  never clamped) and 0. `NewMixerF32` leaves the IEEE addition as a
  parameter. `CallbackI16` states what one callback of an int16 mixer
  outputs. Completion signals are `Flag` objects, the
  application-owned `bool` locations.
- **Sound buffers** (`sounds.dfy`, module `Sounds`), modelled on `src/ca_sound.c`:
  - the class `Sound` with the fields of `sound_t`;
  - `caInitSound`, `caDestroySound`, `caSoundCopy` and `caSoundSize`;
  - the storage-replacing shape of `caSoundToF` / `caSoundToI`.

  The format's value is the byte width of one sample (`CA_FMT_NONE = 0`,
  `CA_FMT_I16 = 2`, `CA_FMT_F32 = 4`). The storage is typed: no storage,
  a zero-byte block, int16 samples or float samples.
- **The WAV codec** (`media.dfy`, module `Media`, on top of
  `little_endian.dfy` and `common.dfy`), modelled on `src/ca_media.c`:
  - the 36-byte `wav_head_t` and the 8-byte `chunk_head_t`, encoded
    little-endian over a byte sequence that stands for the file;
  - `caMediaGetInfoWAV` (`GetInfoWav`) and `caMediaLoadWAV`: the load's
    checks are `PlanLoad`, its chunk-scan loop is `ScanToData`, and
    `LoadWav` does the whole load;
  - `caMediaSaveWAV` (`SaveWav`). Its output is `WavFile`: header, data
    chunk header, samples.

  This is the RIFF WAVE form of the *Multimedia Programming Interface and
  Data Specifications 1.0*: format tag 1 is `WAVE_FORMAT_PCM` and 3 is
  `WAVE_FORMAT_IEEE_FLOAT`.
- **Sample scaling** (`scaling.dfy`, module `Scaling`): the per-sample
  scaling of the float conversions, on real numbers. It supports the second
  finding below.

Allocation failure is an input of every operation that allocates
(`allocFails`). Whether a file opens is also an input: `file: Option<...>`
for reading, `canOpen` for writing. The per-sample float scaling of
`caSoundToF` / `caSoundToI` is a function parameter of `SoundToF` /
`SoundToI`. The float adder's IEEE addition is the `plus` parameter.

Behaviours of the code worth knowing, each carried by the model:

- A node leaves the queue in the same callback whose cursor advance
  (src/ca_mixer.c:271, 287) takes it to or past its length, because the
  clean-up at line 227 runs right after the adders (`PrunedInSamePeriod`).
  Every node left in the queue therefore keeps the bound that
  inc/ca_sound.h:31 states for a sound's cursor.
- `caSoundToF` / `caSoundToI` replace the storage but leave `fmt` as it was
  (`SoundToF`, `SoundToI`).
- `caSoundToF` divides each sample by −32768 (src/ca_sound.c:85; second
  finding).
- `caMediaLoadWAV` reports the sample rate as the channel count
  (src/ca_media.c:152; first finding).
- Saving a sound whose format is `CA_FMT_NONE` but which has samples writes
  the headers and then reports `CA_ERR_OUT`. The reason is that `fwrite`
  with element size 0 (src/ca_media.c:212) reports 0 items (section
  7.21.8.2 of ISO C).
- A mixer whose format is `CA_FMT_NONE` silences nothing, because the
  callback's `memset` (src/ca_mixer.c:214) covers `num_samples * fmt` bytes
  (`SilencedCount`).

## Model

| member | source | states |
|---|---|---|
| LittleEndian.U32RoundTrip | src/ca_media.c:9-34 | decoding the four little-endian bytes of a `uint32_t` field gives the value back |
| LittleEndian.U32BytesRoundTrip | src/ca_media.c:9-34 | every four bytes are the encoding of the value they decode to, so a header field is determined by its bytes |
| LittleEndian.U32Match | src/ca_media.c:64 | four bytes decode to a tag exactly when they are that tag's encoding |
| LittleEndian.I16sRoundTrip | src/ca_media.c:142 | int16 samples written sample after sample, two bytes each, decode back to the same samples |
| LittleEndian.F32sRoundTrip | src/ca_media.c:142 | float samples written as their four-byte patterns decode back to the same patterns |
| Sounds.InitSound | src/ca_sound.c:9-27 | on success: storage of `numSamples` all-zero samples in the given format, cursor 0, not playing, and the cursor invariant holds. On allocation failure: `CA_ERR_ALLOC`, the data pointer is NULL and the other fields are untouched |
| Sounds.DestroySound | src/ca_sound.c:29-48 | a null sound is left alone; otherwise data NULL, counts 0, `CA_FMT_NONE` and not playing. The final state does not depend on the initial one, so destroying twice is destroying once |
| Sounds.SoundCopy | src/ca_sound.c:51-73 | on success dst gets its own storage holding the first `num_samples` samples of src (the `num_samples * fmt` bytes), and src's counts and format. dst is not playing, and its cursor invariant holds when src's does. Allocation failure gives `CA_ERR_ALLOC` and leaves the counts |
| Sounds.SoundSize | src/ca_sound.c:117-120 | the size is 2 bytes per sample for I16, 4 for F32 and 0 for NONE |
| Sounds.SizeIsStorageBytes | src/ca_sound.c:117-120 | for a sound laid out as its format says, the reported size is the size of its storage |
| Sounds.Convert | src/ca_sound.c:84-85 | the new storage has exactly `num_samples` elements, element k converted from old element k (the loop of both conversions) |
| Sounds.SoundToF | src/ca_sound.c:75-94 | int16 storage is replaced by float storage of exactly `num_samples` converted samples; `num_samples`, `cur_sample`, `is_playing` and also `fmt` are unchanged, so the cursor invariant is kept; allocation failure keeps the old storage |
| Sounds.SoundToI | src/ca_sound.c:96-115 | the reverse replacement, with the same unchanged fields |
| Mixing.SelectAdder | src/ca_mixer.c:115 | the float adder exactly for `CA_FMT_F32`, the int16 adder for every other format |
| Mixing.Add16 | src/ca_mixer.c:283-284 | int16 addition agrees with integer addition modulo 2^16 and equals it whenever the sum fits: wrap-around, no clamping |
| Mixing.AddSamples | src/ca_mixer.c:258-288 | with n = min(req, num_samples − cur_sample), `dst[i]` becomes `dst[i] + src[cur_sample + i]` for i < n. Every other `dst[i]` is untouched, and the cursor advances by the full req |
| Mixing.Unlink | src/ca_mixer.c:233-256 | the kept nodes are exactly the unfinished ones in their order, and false is written through every removed node's signal |
| Mixing.Mixer.Clean | src/ca_mixer.c:233-256 | the queue becomes its unfinished nodes in order, and every node left has cur < num. Removed nodes' signals become false and no other flag changes |
| Mixing.UnfinishedMembers | src/ca_mixer.c:238-255 | a node survives the clean-up exactly when it was queued and is not finished |
| Mixing.UnfinishedConcat | src/ca_mixer.c:238-255 | the clean-up keeps relative order: cleaning a concatenation is concatenating the cleaned parts |
| Mixing.QueueAccounting | src/ca_mixer.c:233-256 | every node is either kept or removed: live nodes after a clean-up = nodes before it − removed nodes |
| Mixing.PrunedSignals | src/ca_mixer.c:241-252 | the flags the clean-up clears are exactly the signals of the nodes it removes, so the removed nodes counted above are the ones whose signals `Clean` and `Callback` clear |
| Mixing.PrunedInSamePeriod | src/ca_mixer.c:221-241 | a node leaves the queue in the callback whose advance takes its cursor to or past its length, and survives it otherwise |
| Mixing.MixAllBeyond | src/ca_mixer.c:264-268 | output samples at or past the requested count are never written by any adder |
| Mixing.MixAllInt16 | src/ca_mixer.c:280-284 | after int16 mixing, each output sample is the wrapped integer sum of what it held and every node's sample at its cursor (0 past a node's end) |
| Mixing.MixedPeriodInt16 | src/ca_mixer.c:208-230 | in one int16 period the first req output samples are the wrapped sum of the queued nodes' samples; the rest keep their value |
| Mixing.TwoSoundsMixed | src/ca_mixer.c:208-230 | four samples of 1000 and two of 500, mixed over a four-sample period, give 1500, 1500, 1000, 1000 |
| Mixing.TwoSoundsPruned | src/ca_mixer.c:233-256 | after that pass both nodes are removed and both signals are the ones cleared, so the next pass mixes nothing |
| Mixing.Mixer.constructor | src/ca_mixer.c:84-117 | the queue starts empty, the adder is chosen from the format and the stream description is stored |
| Mixing.NewMixerI16 | src/ca_mixer.c:75-117 | a mixer for any format but `CA_FMT_F32` gets the int16 adder, which adds with wrapping `Add16` onto zero samples; its queue is empty, it stores the stream description, and its dummy signal location is fresh, so no flag of the caller's |
| Mixing.NewMixerF32 | src/ca_mixer.c:75-117 | a `CA_FMT_F32` mixer gets the float adder and the all-bits-clear zero sample; its queue is empty and its dummy signal location is fresh, so no flag of the caller's |
| Mixing.CallbackI16 | src/ca_mixer.c:208-231 | one callback of an int16 mixer sets each of the first `frames * channels` outputs to the wrapped integer sum of the queued samples at their cursors; for `CA_FMT_NONE` the sum is added onto the old output. Later outputs keep their value. The queue becomes the unfinished advanced nodes and stays valid; the finished nodes' signals are cleared and no other flag changes, so another period or a play can follow |
| Mixing.PassI16 | src/ca_mixer.c:214-224 | per output index: the wrapped sum after a full memset, the wrapped old value plus the sum after an empty one, and the old value past the requested count |
| Mixing.Mixer.Play | src/ca_mixer.c:157-184 | the queue becomes `[new node] + old queue`, with the sound's data and count and cursor 0. A given signal is set true and stored in the node; no signal stores the dummy location and writes no flag. Allocation failure leaves the queue |
| Mixing.Mixer.AddAll | src/ca_mixer.c:216-224 | the output is every node, front to back, added by the adder; every cursor advanced by req |
| Mixing.Mixer.Callback | src/ca_mixer.c:208-231 | the output is the silenced buffer plus every node's slice from its cursor. The queue becomes the unfinished advanced nodes, each with cur < num; their signals are cleared, no other flag changes, and the result is `paContinue` |
| Mixing.Mixer.Destroy | src/ca_mixer.c:130-139 | every node and the sentinel are freed (count = nodes + 1), the queue is empty and no signal is written |
| Media.HeadLayoutRiff | src/ca_media.c:11-14 | the RIFF tag, the RIFF size and the WAVE tag sit at bytes 0, 4 and 8 |
| Media.HeadLayoutFmt | src/ca_media.c:16-20 | the fmt tag, chunk size, format tag and channel count sit at bytes 12, 16, 20 and 22 |
| Media.HeadLayoutRates | src/ca_media.c:21-24 | the sample rate, byte rate, alignment and bit width sit at bytes 24, 28, 32 and 34 |
| Media.HeadRoundTrip | src/ca_media.c:9-26 | a `wav_head_t` written and read back is the same header |
| Media.ChunkRoundTrip | src/ca_media.c:29-34 | a `chunk_head_t` written and read back is the same chunk header |
| Media.FormatOf | src/ca_media.c:68-73 | (1, 16) maps to I16 and (3, 32) to F32, each in both directions; everything else is refused |
| Media.TagsOkBytes | src/ca_media.c:38-40 | a header's tags are right exactly when its bytes spell "RIFF", "WAVE" and "fmt " at 0, 8 and 12 |
| Media.ReadHeadAccepts | src/ca_media.c:52-65 | fewer than 36 bytes is `CA_ERR_IN`; otherwise the header is accepted exactly when the three tags are in place, and refused with `CA_ERR_FTYPE` |
| Media.DataTagBytes | src/ca_media.c:41 | a chunk is the data chunk exactly when its first bytes spell "data" |
| Media.FindData | src/ca_media.c:107-117 | a chunk the scan finds is tagged "data", and its 8-byte header lies within the file after the WAV header (its declared payload may run past the end) |
| Media.FindDataStep | src/ca_media.c:110-111 | one scan step: a data chunk is the answer, any other chunk is skipped by its declared size |
| Media.ScanToData | src/ca_media.c:110-117 | the scan loop finds what the chunk-by-chunk definition finds, or nothing when the bytes run out |
| Media.LoadErrorOrder | src/ca_media.c:100-130 | a well-tagged file without a data chunk fails to load with `CA_ERR_IN` whatever its format. The info query, which does not scan, decides on the format alone |
| Media.DecodeSamples | src/ca_media.c:142 | the payload bytes hold `size / 2` int16 or `size / 4` float samples laid out as the format says |
| Media.LoadWav | src/ca_media.c:83-160 | a load fails with the first failing check (open, header, tags, data chunk, format); allocation failure is `CA_ERR_ALLOC` with the data pointer NULL and the counts, cursor, format and playing flag untouched. Otherwise the sound has `size / fmt` samples, cursor 0 and the format. A payload that is cut short is `CA_ERR_IN`; a full one is decoded into the storage, and the info is returned as written |
| Media.SampleBytes | src/ca_media.c:212 | the samples written take exactly `num_samples * fmt` bytes |
| Media.WrittenCount | src/ca_media.c:212 | fwrite reports all items written exactly when the element size is nonzero or there are no items |
| Media.SaveWav | src/ca_media.c:162-222 | an unopenable file is `CA_ERR_FILE`. Otherwise the bytes are header, data chunk header and samples; the result is `CA_ERR_OUT` for a sound with samples but no format, and success otherwise |
| Media.SavedHeader | src/ca_media.c:171-196 | a saved file's header reads back with the right tags and RIFF size = file length − 8, chunk size 16, format 3 for F32 and 1 otherwise, the given rate and channels, byte rate, alignment and bits from the sample width (truncated to the field widths), and a data chunk declaring the length of the payload that follows (mod 2^32) |
| Media.SaveGetInfoRoundTrip | src/ca_media.c:44-81 | the info query on a saved I16 or F32 file returns the rate, channel count and format it was saved with; a formatless sound's file is refused |
| Media.SavedDataFound | src/ca_media.c:107-117 | the scan finds a saved file's data chunk right after the header |
| Media.SamplesRoundTrip | src/ca_media.c:142 | saved samples decode to the sound's first `num_samples` samples |
| Media.SaveLoadRoundTrip | src/ca_media.c:83-160 | a saved I16 or F32 sound (under 4 GiB of samples) passes every check of the load. It loads back with the same format, rate and sample count, and its samples decode to the sound's samples |
| Media.GetInfoAgreesWithLoad | src/ca_media.c:44-81 | whenever the load gets past its checks, the info query on the same file returns the header's rate, channel count and format |
| Media.SaveLoadInfoRoundTrip | src/ca_media.c:44-81 | the header of a saved file describes the stream it was saved with (the corrected load info) |
| Media.LoadedChannelsAsWritten | src/ca_media.c:149-154 | as written, loading a saved file reports rate mod 2^16 as the channel count, which equals the saved channel count only by coincidence; 44100 Hz stereo comes back with 44100 channels |
| Scaling.ToFloat | src/ca_sound.c:85 | the intended int16-to-float scaling lands in [−1, 1) and keeps the sign and zero |
| Scaling.ToInt | src/ca_sound.c:106 | float-to-int16 scaling of a value in [−1, 1] lands in the int16 range |
| Scaling.TruncBounds | src/ca_sound.c:106 | the cast to `int16_t` truncates toward zero by less than one |
| Scaling.ToFloatAsWrittenNegates | src/ca_sound.c:85 | as written, converting to float and back gives the negation of what the intended scaling gives |
| Scaling.ToFloatAsWrittenFlipsSign | src/ca_sound.c:85 | as written, 1000 converted to float and back is −999 |
| Scaling.ScaledRoundTrip | src/ca_sound.c:75-115 | with the intended scaling, a sample converted to float and back keeps its sign and moves exactly one unit toward zero |

## Findings

| source | as written | input that shows it | evidently intended | confidence | as-written member | corrected member |
|---|---|---|---|---|---|---|
| src/ca_media.c:152 | the loaded info's channel count is set from the sample rate | a 44100 Hz stereo file saved by `caMediaSaveWAV` loads back reporting 44100 channels | the header's channel count, as `caMediaGetInfoWAV` reports it (line 77) | high; not executed | Media.LoadedChannelsAsWritten | Media.SaveLoadInfoRoundTrip |
| src/ca_sound.c:85 | each int16 sample is divided by −32768 | sample 1000 converted by `caSoundToF` then `caSoundToI` becomes −999 | division by 32768, so that `caSoundToI` (×32767) gives back the sample up to one unit | likely; not executed | Scaling.ToFloatAsWrittenFlipsSign | Scaling.ScaledRoundTrip |

`LoadWav` keeps the code's behaviour for the info it reports. The
corrected description, `LoadedInfo`, is the one that the info query
(`GetInfoAgreesWithLoad`) and the save/load round trip use. The sound
conversions take their scaling as a parameter; `Scaling.ToFloat` is the
intended one.

## Left out

- PortAudio: `Pa_Initialize`, opening, starting, stopping and closing the stream, `Pa_Terminate`, `caAudioFmtToPA` and `caMixerBegin`. The stream and initialisation parts of `caMixerCreate` / `caMixerDestroy` are left out too, along with their error paths (`CA_ERR_PA`, and `CA_ERR_ALLOC` for the mixer or the sentinel). These are calls into a library outside the model. The mixer constructor covers only the queue, the adder and the stream description.
- Concurrency: `caMixerPlaySound` and the callback share the list without synchronisation. Play and callback are modelled as atomic steps, not as interleavings.
- Float arithmetic: the F32 adder's IEEE addition is the abstract `plus`. The conversions' scale factors are the parameters `toFloat` / `toInt`; the `Scaling` module treats them on real numbers, without rounding.
- `caSoundSetSeconds`: a float computation of the cursor, outside the modelled core.
- The dummy signal pointer is never allocated in the source, so writing through it is undefined. The model gives the mixer a private fresh `Flag` instead.
- Aliasing between a sound's storage and the queue nodes that view it. A node holds a copy of the sample sequence, so changes the application makes to a playing sound's samples are not seen by the mixer.
- The `void*` / `audio_data_t` reinterpretation. Storage is typed per format, so reading int16 storage as float (or the reverse) is not expressible. `SoundToF` / `SoundToI` require storage of the source kind, which the header declares as their precondition. Copying and saving likewise require storage matching `fmt` (`Provides`).
- Sounds.SoundCopy: requires `src != dst`. In the source, copying a sound onto itself reads from the freshly allocated, uninitialised block.
- Memory release: the leaks of the source are not represented. These are dst's old storage in `caSoundCopy` and the buffer after a failed read in `caMediaLoadWAV` (lines 142-146).
- Media.LoadWav: requires the data chunk size to be a multiple of the sample width. Otherwise the source reads `size` bytes into a buffer of `size / fmt * fmt` bytes, past its end.
- Media.LoadWav: after a short payload read, the model says nothing about the storage's contents; the source leaves it partially filled.
- Media.FindData: a chunk header cut short by the end of the file counts as "no data chunk". The source then tests whatever the partial read left in its chunk header.
- Write failures (`CA_ERR_OUT` from a failing `fwrite` of the headers or samples) are not modelled; only the zero-width case, which does not depend on the file, is.
- Integer widths: `size_t` counts (`num_samples`, `cur_sample`, data sizes) are unbounded naturals. The fixed-width header fields are truncated explicitly (`SaveHead`).
- Mixing.Mixer.Callback: requires a valid queue (every node's cursor within its length and data). A mixer state reached from outside the modelled operations is not covered.
