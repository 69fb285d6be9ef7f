/** Types shared by the whole library: the sample format (whose value is the
    byte width of one sample), the result codes, the fixed-width integers the
    C code uses, and the stream description of a WAV file. */
module Common {

  /** audio_fmt_t: CA_FMT_NONE = 0, CA_FMT_I16 = 2, CA_FMT_F32 = 4. The value
      of each format is the size of one of its samples in bytes, and every
      size computation of the library multiplies by it. */
  newtype AudioFmt = x: int | x == 0 || x == 2 || x == 4

  const FmtNone: AudioFmt := 0
  const FmtI16: AudioFmt := 2
  const FmtF32: AudioFmt := 4

  /** ca_result_t */
  datatype CaResult = Success | ErrPa | ErrInvalid | ErrAlloc | ErrFile | ErrFtype | ErrOut | ErrIn

  /** One byte of a file. */
  type Byte = x: int | 0 <= x < 0x100
  type Int16 = x: int | -0x8000 <= x < 0x8000
  type U16 = x: int | 0 <= x < 0x1_0000
  type U32 = x: int | 0 <= x < 0x1_0000_0000

  /** A 32-bit float sample, held as its IEEE-754 bit pattern; float
      arithmetic itself is not part of the model. */
  type F32 = U32

  /** wav_info_t */
  datatype WavInfo = WavInfo(sampleRate: U32, numChannels: U16, fmt: AudioFmt)

  datatype Option<T> = None | Some(value: T)

  datatype Result<T> = Ok(value: T) | Err(error: CaResult)
}
