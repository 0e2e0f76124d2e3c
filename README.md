# record-wav: the WAV encoder, modelled and proved in Dafny

record-wav captures 16-bit samples from an input device into a `WavFile`
buffer. When capture stops, the program serializes the buffer as a canonical
RIFF/WAVE file: a 44-byte header followed by the samples as little-endian `i16`.
This project models that encoder (`src/main.rs`, lines 66-243) and proves its
byte layout.

Files:

- `little_endian.dfy` (module `LittleEndian`): the integer types `uint8`,
  `uint16`, `uint32` and `int16`. It has the little-endian encodings that
  Rust's `to_le_bytes` produces, their decoders, the round-trip lemmas in both
  directions, and the truncating `as u32` cast.
- `binary_serialize.dfy` (module `BinarySerialize`): the `BinarySerialize`
  trait. Each implementation (`u8`, `u16`, `u32`, `i16`, `WavFormat`,
  `Vec<T>`) is one constructor of the sum type `Encodable`, and `Serialize`
  dispatches on it.
  - `NeededSize` is `needed_size`.
  - `Wire` is the reference byte sequence that a successful `serialize`
    writes.
  - There is one `serialize` method per implementation, plus the dispatching
    `Serialize`.
  - A Rust sub-slice `&mut buffer[lo..hi]` becomes the window `[lo, hi)` of
    an `array<uint8>`. Every `serialize` method proves three things: it fails exactly when
    the window is shorter than `needed_size`; on success it writes `Wire(e)` at
    `lo`; and it changes no byte outside what it wrote, which means no byte at
    all when it fails.
- `wav_file.dfy` (module `Wav`):
  - the `WavFile` class: append-only `samples`, with constant `channels`,
    `sampleRate`, `bitsPerSample = 16` and `format = PCM`;
  - `WavBytes`, the reference file contents;
  - `IsCanonicalWav`, the checks a reader makes field by field;
  - lemmas proving that `WavBytes` passes those checks, and that they
    determine every byte.

  `WavFile.Serialize` performs the writes of `serialize` (lines 100-132) in
  source order. The proof splits them into three helpers along the RIFF chunk
  boundaries: the "RIFF" descriptor, the "fmt " sub-chunk, and the "data"
  sub-chunk with the samples. This keeps each proof obligation small.

Properties that follow from these contracts:

- `needed_size` is `44 + 2n`.
- Each push grows it by 2.
- `serialize` succeeds exactly when the buffer holds `needed_size` bytes. So
  a buffer of `needed_size - 1` bytes fails and one of `needed_size` bytes
  succeeds.
- Its output is a function of the buffer state, so encoding the same state
  twice gives identical bytes.

Two behaviours of the code that the model keeps:

- The size of a `Vec` is its length times its first element's size, not a
  sum of element sizes. This is why `Homogeneous` is required.
- The size fields are cast with `as u32`, which truncates.

## Model

| member | source | states |
|---|---|---|
| LittleEndian.EncodeU16 | src/main.rs:207 | `u16::to_le_bytes` gives 2 bytes whose little-endian value is the input |
| LittleEndian.EncodeU32 | src/main.rs:191 | `u32::to_le_bytes` gives 4 bytes whose little-endian value is the input |
| LittleEndian.EncodeI16 | src/main.rs:223 | `i16::to_le_bytes` gives 2 bytes whose little-endian two's-complement value is the input |
| LittleEndian.EncodeDecodeU16 | src/main.rs:207 | every 2-byte sequence is the `u16` encoding of its decoded value (the encoding is onto, so decoding inverts it) |
| LittleEndian.EncodeDecodeU32 | src/main.rs:191 | every 4-byte sequence is the `u32` encoding of its decoded value |
| LittleEndian.EncodeDecodeI16 | src/main.rs:223 | every 2-byte sequence is the `i16` encoding of its two's-complement value |
| LittleEndian.TruncateU32 | src/main.rs:106 | `as u32` keeps the value when it is below 2^32, and is always congruent to it modulo 2^32 |
| BinarySerialize.NeededSize | src/main.rs:158-164 | `needed_size`: 1, 2, 4, 2 and 2 bytes for `u8`, `u16`, `u32`, `i16` and `WavFormat` (lines 142-144, 182-232), and for a `Vec` 0 when empty, otherwise its length times its first element's size; its partner `WireLength` proves it is the exact length of the encoding |
| BinarySerialize.FormatCode | src/main.rs:135-139 | the `#[repr(u16)]` discriminant of `PCM`, 1, which `*self as u16` serializes (line 151); `Wav.MonoFmtChunk`, `Wav.StereoFmtChunk` and the two file examples pin its bytes to 01 00; `SerializeFormat` and `FmtChunkFields` state that it decodes to 1 |
| BinarySerialize.Homogeneous | src/main.rs:158-164 | every `Vec` holds elements of one encoded size, the case in which `len() * self[0].needed_size()` is right; `WireLength` and `Serialize` assume it, and `Wav.Samples` establishes it for the sample buffer |
| BinarySerialize.WireLength | src/main.rs:90-93 | for every encodable value whose vectors are homogeneous, `needed_size` equals the exact length of the bytes `serialize` writes |
| BinarySerialize.WireAllLength | src/main.rs:158-164 | a vector of n elements of k bytes each encodes to n*k bytes, matching `len() * self[0].needed_size()` |
| BinarySerialize.WireAllAt | src/main.rs:171-175 | the `off` accumulator: element i of a vector of k-byte elements is encoded at bytes [i*k, (i+1)*k) |
| BinarySerialize.CopyFromSlice | src/main.rs:105 | `copy_from_slice` puts the source bytes at the window and changes nothing else |
| BinarySerialize.SerializeU8 | src/main.rs:229-243 | fails exactly when the window is shorter than 1 byte, and then writes nothing; otherwise sets the first byte to the value and nothing else |
| BinarySerialize.SerializeU16 | src/main.rs:197-211 | fails exactly when the window is shorter than 2 bytes, and then writes nothing; otherwise the first 2 bytes decode to the value and nothing else changes |
| BinarySerialize.SerializeU32 | src/main.rs:181-195 | fails exactly when the window is shorter than 4 bytes, and then writes nothing; otherwise the first 4 bytes decode to the value and nothing else changes |
| BinarySerialize.SerializeI16 | src/main.rs:213-227 | fails exactly when the window is shorter than 2 bytes, and then writes nothing; otherwise the first 2 bytes decode (two's complement) to the value and nothing else changes |
| BinarySerialize.SerializeFormat | src/main.rs:141-155 | fails exactly when the window is shorter than 2 bytes; otherwise writes the `u16` format code 1 for PCM and nothing else |
| BinarySerialize.Serialize | src/main.rs:90-93 | for any homogeneous value: fails exactly when the window is shorter than `needed_size`, writing nothing; otherwise writes its reference encoding at the window start and changes no other byte |
| BinarySerialize.SerializeVec | src/main.rs:166-178 | fails exactly when the window is shorter than `len * first size`; otherwise writes the elements' encodings back to back in order, never hitting the `?` error path, and changes no other byte |
| Wav.Samples | src/main.rs:71 | the `samples: Vec<i16>` field as an encodable value: one `i16` element per sample, in order, and homogeneous, so the `Vec` size rule and `Serialize` apply to it |
| Wav.SamplesSize | src/main.rs:158-164 | `Vec<i16>::needed_size` is 2 bytes per sample, 0 when empty |
| Wav.ByteRate | src/main.rs:116-117 | `avg_bytes_per_sec`, `sample_rate * 16 * channels / 8`; `ExactFormatFields` proves it is exactly 2 * rate * channels |
| Wav.BlockAlign | src/main.rs:120 | `block_align`, `16 * channels / 8`; `ExactFormatFields` proves it is exactly 2 * channels |
| Wav.ExactFormatFields | src/main.rs:116-120 | with 16-bit samples neither `/ 8` truncates: byte rate is 2 * rate * channels and block align 2 * channels |
| Wav.FormatFieldsInRange | src/main.rs:116-121 | the Rust result types of the two expressions: under the no-overflow precondition `avg_bytes_per_sec` is a `u32` value and `block_align` a `u16` value |
| Wav.WavFile.constructor | src/main.rs:75-83 | a new file has the given channels and rate, no samples, and needs 44 bytes; `format` is PCM and `bitsPerSample` 16 by declaration |
| Wav.WavFile.PushSample | src/main.rs:85-87 | appends the sample at the end and grows `needed_size` by exactly 2 |
| Wav.WavFile.NeededSize | src/main.rs:96-98 | `needed_size` is 44 + 2 * number of samples |
| Wav.WavFile.Serialize | src/main.rs:100-132 | returns `Err` exactly when the buffer is shorter than `needed_size`, leaving it untouched; otherwise the first `needed_size` bytes are the canonical file and every later byte is unchanged |
| Wav.WavFile.WriteRiffDescriptor | src/main.rs:105-108 | writes "RIFF", the total size minus 8 as `u32`, "WAVE" at [0, 12), nothing else |
| Wav.WavFile.WriteFmtChunk | src/main.rs:109-123 | writes the "fmt " sub-chunk at [12, 36), nothing else; none of the field serializations fails |
| Wav.WavFile.WriteDataChunk | src/main.rs:124-129 | writes "data", the payload size and the samples at [36, needed_size), nothing else |
| Wav.PayloadAt | src/main.rs:129 | sample i of the payload is the little-endian `i16` at bytes [2i, 2i+2) |
| Wav.WavBytesIsCanonical | src/main.rs:100-132 | if total size - 8 fits 32 bits, the encoding passes every reader check: "RIFF"/"WAVE"/"fmt "/"data" at 0/8/12/36, total-size field + 8 = length, 16, PCM 1, channels, rate, byte rate, block align, 16 bits, data size = 2n, sample i at 44+2i |
| Wav.CanonicalIsWavBytes | src/main.rs:100-132 | conversely, any byte sequence passing all those checks is exactly the encoder's output |
| Wav.SizeFieldWraps | src/main.rs:106 | once total size - 8 reaches 2^32 the total-size field holds it modulo 2^32, so it no longer matches the length |
| Wav.TagBytes | src/main.rs:105-124 | the four tags are the ASCII bytes of "RIFF", "WAVE", "fmt " and "data" |
| Wav.MonoExample | src/main.rs:100-132 | 1 channel, 8000 Hz, samples 0, -1, 32767, -32768 encode to the listed 52 bytes (byte rate 16000, block align 2, data size 8) |
| Wav.EmptyStereoExample | src/main.rs:100-132 | 2 channels, 44100 Hz, no samples encode to the listed 44 bytes (byte rate 176400, block align 4, data size 0) |

## Left out

- `main` (src/main.rs:11-64) is not modelled. It covers audio device discovery and configuration through cpal, building and playing the input stream, the stdin stop signal, and creating and writing `out.wav`. All of these are I/O or foreign-library calls.
- The `Arc<Mutex<WavFile>>` sharing between the audio callback thread and the main thread is left out; the model is sequential. Concurrency is not modelled because `needed_size` and `serialize` run under one lock on a frozen `samples`, which is exactly the sequential case.
- Wav.WavFile.Serialize: requires `FormatFieldsFit`, meaning both products of the left-to-right evaluation `(sample_rate * 16) * channels` fit a `u32` (the first matters on its own when `channels` is 0) and `16 * channels` fits a `u16`. The Rust multiplications panic on overflow in debug builds and wrap in release builds, and neither outcome is modelled.
- BinarySerialize.Serialize: requires `Homogeneous`, meaning every `Vec` holds elements of one encoded size. With mixed sizes, `Vec::needed_size` (len × first size) is wrong, and the element slices could run past the buffer and panic. No Rust `Vec<T>` in this program has mixed sizes.
- `usize` overflow in `44 + samples.needed_size()` and in `len * size` is not modelled (sizes are unbounded `nat`). The `as u32` casts of the two size fields are modelled as truncation.
- Rust slice-index panics are excluded by `lo <= hi <= buf.Length`. The encoder's own windows always satisfy this once the size check has passed.
