/** The sound buffer (sound_t) and its lifecycle: initialisation to silence,
    destruction, copying, conversion between sample formats and size. The
    storage is typed per format; allocation failure is an input of each
    operation that allocates. */
module Sounds {
  import opened Common

  /** What a sound's data pointer refers to. */
  datatype Storage =
    | NoStorage                 // the NULL pointer
    | ZeroBytes                 // a valid block of zero bytes (calloc/malloc of size 0 for CA_FMT_NONE)
    | Int16s(i: seq<Int16>)     // int16_t samples
    | Float32s(f: seq<F32>)     // float samples

  /** Bytes the storage occupies. */
  function StorageBytes(d: Storage): nat
  {
    match d
    case Int16s(i) => 2 * |i|
    case Float32s(f) => 4 * |f|
    case _ => 0
  }

  /** The storage holds at least n samples laid out in format fmt, so that
      reading n * fmt bytes from it stays inside it. */
  predicate Provides(d: Storage, fmt: AudioFmt, n: nat)
  {
    if fmt == FmtI16 then d.Int16s? && n <= |d.i|
    else if fmt == FmtF32 then d.Float32s? && n <= |d.f|
    else true
  }

  /** The first n samples of storage in format fmt: what a copy of
      n * fmt bytes of it holds. */
  function Prefix(d: Storage, fmt: AudioFmt, n: nat): (p: Storage)
    requires Provides(d, fmt, n)
    ensures Provides(p, fmt, n) && StorageBytes(p) == n * fmt as int
    ensures fmt == FmtI16 ==> forall k :: 0 <= k < n ==> p.i[k] == d.i[k]
    ensures fmt == FmtF32 ==> forall k :: 0 <= k < n ==> p.f[k] == d.f[k]
  {
    if fmt == FmtI16 then Int16s(d.i[..n])
    else if fmt == FmtF32 then Float32s(d.f[..n])
    else ZeroBytes
  }

  /** Every sample of the storage is zero (all bits clear). */
  predicate AllZero(d: Storage)
  {
    match d
    case Int16s(i) => forall k :: 0 <= k < |i| ==> i[k] == 0
    case Float32s(f) => forall k :: 0 <= k < |f| ==> f[k] == 0
    case _ => true
  }

  /** The block calloc(n, fmt) returns. */
  function Zeros(fmt: AudioFmt, n: nat): (d: Storage)
    ensures Provides(d, fmt, n) && AllZero(d)
    ensures StorageBytes(d) == n * fmt as int
  {
    if fmt == FmtI16 then Int16s(seq(n, _ => 0))
    else if fmt == FmtF32 then Float32s(seq(n, _ => 0))
    else ZeroBytes
  }

  /** sound_t: every operation below writes these fields through a pointer. */
  class Sound {
    var data: Storage
    var numSamples: nat
    var curSample: nat
    var fmt: AudioFmt
    var isPlaying: bool

    /** The documented invariant of sound_t: the play position lies within the sound. */
    ghost predicate Valid()
      reads this
    {
      curSample <= numSamples
    }
  }

  /** caSoundSize: the size of the sound's data in bytes. */
  function SoundSize(s: Sound): (bytes: nat)
    reads s
    ensures s.fmt == FmtI16 ==> bytes == 2 * s.numSamples
    ensures s.fmt == FmtF32 ==> bytes == 4 * s.numSamples
    ensures s.fmt == FmtNone ==> bytes == 0
  {
    s.numSamples * s.fmt as int
  }

  /** The storage holds exactly n samples in format fmt (the buffer
      invariant: storage bytes = number of samples times sample width). */
  predicate Holds(d: Storage, fmt: AudioFmt, n: nat)
  {
    if fmt == FmtI16 then d.Int16s? && |d.i| == n
    else if fmt == FmtF32 then d.Float32s? && |d.f| == n
    else d.NoStorage? || d.ZeroBytes?
  }

  /** What caSoundSize reports is the size of the storage of a sound whose
      storage is laid out as its format says. */
  lemma SizeIsStorageBytes(s: Sound)
    requires Holds(s.data, s.fmt, s.numSamples)
    ensures SoundSize(s) == StorageBytes(s.data)
  {
  }

  /** caInitSound */
  method InitSound(s: Sound, numSamples: nat, fmt: AudioFmt, allocFails: bool) returns (r: CaResult)
    modifies s
    ensures allocFails ==> r == ErrAlloc && s.data == NoStorage
    ensures allocFails ==> s.numSamples == old(s.numSamples) && s.curSample == old(s.curSample)
    ensures allocFails ==> s.fmt == old(s.fmt) && s.isPlaying == old(s.isPlaying)
    ensures !allocFails ==> r == Success && s.data == Zeros(fmt, numSamples)
    ensures !allocFails ==> s.numSamples == numSamples && s.curSample == 0
    ensures !allocFails ==> s.fmt == fmt && !s.isPlaying
    ensures !allocFails ==> s.Valid() && Holds(s.data, s.fmt, s.numSamples)
  {
    if allocFails {
      s.data := NoStorage;
      return ErrAlloc;
    }
    s.data := Zeros(fmt, numSamples);
    s.numSamples := numSamples;
    s.curSample := 0;
    s.fmt := fmt;
    s.isPlaying := false;
    r := Success;
  }

  /** caDestroySound: a null sound is left alone; otherwise the storage is
      released and every field reset. The final state does not depend on the
      initial one, so destroying twice is the same as destroying once. */
  method DestroySound(s: Sound?)
    modifies s
    ensures s != null ==> s.data == NoStorage && s.numSamples == 0 && s.curSample == 0
    ensures s != null ==> s.fmt == FmtNone && !s.isPlaying && s.Valid()
  {
    if s == null {
      return;
    }
    if s.data != NoStorage {
      s.data := NoStorage;
    }
    s.numSamples := 0;
    s.curSample := 0;
    s.fmt := FmtNone;
    s.isPlaying := false;
  }

  /** caSoundCopy: dst receives its own storage holding the numSamples * fmt
      bytes of src, and src's counters and format. src is not written. */
  method SoundCopy(src: Sound, dst: Sound, allocFails: bool) returns (r: CaResult)
    requires src != dst
    requires Provides(src.data, src.fmt, src.numSamples)
    modifies dst
    ensures allocFails ==> r == ErrAlloc && dst.data == NoStorage
    ensures allocFails ==> dst.numSamples == old(dst.numSamples) && dst.curSample == old(dst.curSample)
    ensures allocFails ==> dst.fmt == old(dst.fmt) && dst.isPlaying == old(dst.isPlaying)
    ensures !allocFails ==> r == Success && dst.data == Prefix(src.data, src.fmt, src.numSamples)
    ensures !allocFails ==> dst.numSamples == src.numSamples && dst.curSample == src.curSample
    ensures !allocFails ==> dst.fmt == src.fmt && !dst.isPlaying
    ensures !allocFails ==> Holds(dst.data, dst.fmt, dst.numSamples)
    ensures !allocFails && src.Valid() ==> dst.Valid()
  {
    if allocFails {
      dst.data := NoStorage;
      return ErrAlloc;
    }
    dst.data := Prefix(src.data, src.fmt, src.numSamples);
    dst.numSamples := src.numSamples;
    dst.curSample := src.curSample;
    dst.fmt := src.fmt;
    dst.isPlaying := false;
    r := Success;
  }

  /** The conversion loop of caSoundToF and of caSoundToI: sample k of the
      new storage is the conversion of sample k of the old one. */
  method Convert<A, B>(src: seq<A>, n: nat, convert: A -> B) returns (out: seq<B>)
    requires n <= |src|
    ensures |out| == n
    ensures forall k :: 0 <= k < n ==> out[k] == convert(src[k])
  {
    out := [];
    var i := 0;
    while i < n
      invariant 0 <= i <= n
      invariant |out| == i
      invariant forall k :: 0 <= k < i ==> out[k] == convert(src[k])
    {
      out := out + [convert(src[i])];
      i := i + 1;
    }
  }

  /** The int16 samples of a storage (none when it holds something else). */
  function Int16View(d: Storage): seq<Int16>
  {
    if d.Int16s? then d.i else []
  }

  function Float32View(d: Storage): seq<F32>
  {
    if d.Float32s? then d.f else []
  }

  /** caSoundToF: replaces int16 storage by float storage of exactly
      numSamples samples. The per-sample scaling is the parameter toFloat.
      numSamples, curSample, isPlaying and also fmt are left as they were. */
  method SoundToF(s: Sound, toFloat: Int16 -> F32, allocFails: bool) returns (r: CaResult)
    requires s.numSamples == 0 || (s.data.Int16s? && s.numSamples <= |s.data.i|)
    modifies s
    ensures s.numSamples == old(s.numSamples) && s.curSample == old(s.curSample)
    ensures s.fmt == old(s.fmt) && s.isPlaying == old(s.isPlaying)
    ensures old(s.Valid()) ==> s.Valid()
    ensures allocFails ==> r == ErrAlloc && s.data == old(s.data)
    ensures !allocFails ==> r == Success && s.data.Float32s? && |s.data.f| == s.numSamples
    ensures !allocFails ==> forall k :: 0 <= k < s.numSamples ==> s.data.f[k] == toFloat(old(Int16View(s.data))[k])
  {
    if allocFails {
      return ErrAlloc;
    }
    var converted := Convert(Int16View(s.data), s.numSamples, toFloat);
    s.data := Float32s(converted);
    r := Success;
  }

  /** caSoundToI: the reverse conversion, with the same shape. */
  method SoundToI(s: Sound, toInt: F32 -> Int16, allocFails: bool) returns (r: CaResult)
    requires s.numSamples == 0 || (s.data.Float32s? && s.numSamples <= |s.data.f|)
    modifies s
    ensures s.numSamples == old(s.numSamples) && s.curSample == old(s.curSample)
    ensures s.fmt == old(s.fmt) && s.isPlaying == old(s.isPlaying)
    ensures old(s.Valid()) ==> s.Valid()
    ensures allocFails ==> r == ErrAlloc && s.data == old(s.data)
    ensures !allocFails ==> r == Success && s.data.Int16s? && |s.data.i| == s.numSamples
    ensures !allocFails ==> forall k :: 0 <= k < s.numSamples ==> s.data.i[k] == toInt(old(Float32View(s.data))[k])
  {
    if allocFails {
      return ErrAlloc;
    }
    var converted := Convert(Float32View(s.data), s.numSamples, toInt);
    s.data := Int16s(converted);
    r := Success;
  }
}
