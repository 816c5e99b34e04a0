# hash_benchmark harness, modelled in Dafny

This project models the harness of `hash_benchmark`, a micro-benchmark that
times many hash and checksum functions on generated input buffers. The hash
algorithms themselves are not modelled. The model covers five parts:

- **Input generator** (`Common`, src/common.rs). `init_vec` returns the fixed
  test text for size 0 and otherwise `size` bytes from a generator seeded
  with the seed. `init_cursor` wraps the same bytes in a cursor at position 0.
- **Result normalisers** (`Common`, `Hex`). `get_res_hash` prints a value
  with `{:x}`. For an integer that is its canonical lowercase hex numeral. For
  an md5 digest it is two digits per byte. `get_res_result` prints the hex on
  success and the error's debug text on failure. `get_res_string` passes text
  through unchanged.
- **Benchmark case and Stat** (`Harness`, src/hash_test.rs). `HashTest` is a
  datatype with function-valued fields. It has the constructors `new`,
  `new_vec`, `new_cursor`, `new_vec_str` and `new_wrapper`. `run` builds the
  buffer, calls the function under test once, normalises the result and
  copies name, size and seed into the `Stat`.
- **Throughput** (`Units`, `Harness.SizePerSec`, `Harness.Speed`). The rate
  is bytes per second. The unit-scaling loop is computed over exact reals. It
  is characterised by `Units.IsScaled`, and that characterisation has exactly
  one solution.
- **Catalogue and runner** (`Brenchmark`, src/brenchmark.rs). `btest` is the
  fixed, ordered list of 46 entries. Each entry has a name and a wiring: the
  constructor, the buffer shape, the adapter closure and the normaliser.
  `RunAll` runs any list of entries in order. The Python twin
  (`PyBench`, hash_brenchmark.py) is modelled too: its `speed` loop, the
  record `hash_brenchmark` builds, and the six-entry generator
  `test_brenchmark`.

Opaque collaborators are function-valued parameters. These are the hash
crates (`Brenchmark.Externals`), `SmallRng` (`Common.Rng`), Python's `Random`
and the mmh3/xxhash functions (`PyBench.PyExternals`), and the clock (an
`elapsed` duration per case, in nanoseconds). Their types carry what the
crates guarantee about their output: an md5 digest has 16 bytes, every other
digest is non-empty, `sha256::digest` gives 64 lowercase hex digits, and the
`{:?}` text of an `io::Error` is non-empty. A generator is modelled as "the
byte at each position of a buffer of this length, for this seed". It is not
one endless stream, because a seeded generator's fill of a short buffer need
not be a prefix of its fill of a longer one.

The size-0 test text `"1234567890abcdefghijklmnopqrstuvwxyzABCDEFGHIJKLMNOPQRSTUVWXYZ"`
is 62 bytes long, not 64. The model follows the code (`Common.InitTestVec`).

Two behaviours that follow from the code are stated as lemmas:

- At size 0, the Rust `Stat` reports size 0 although 62 bytes were hashed
  (`Brenchmark.ZeroSizeStats`).
- The Python record reports `len(data)`, which is 62 at size 0
  (`PyBench.ZeroSizeRecords`).

`run_slice` and `run_cursor` are `Common.RunSlice` and `Common.RunCursor`. What
they guarantee is stated where they are used, in `Brenchmark.ExecuteResult`:
the function receives the whole buffer and the unchanged seed.

## Model

| member | source | states |
|---|---|---|
| Hex.FormatInt | src/common.rs:24-26 | `{:x}` of an integer is lowercase hex with no `0x` prefix, at least one digit, and a leading `0` only when the value is zero |
| Hex.FormatZero | src/common.rs:25 | zero prints as `"0"` |
| Hex.ParseFormat | src/common.rs:24-26 | the printed numeral parses back to the integer |
| Hex.FormatParse | src/common.rs:24-26 | every canonical numeral is what `{:x}` prints for its value, so printing is a bijection onto canonical numerals |
| Hex.EncodeBytes | src/hash_test.rs:90 | `hex::encode` gives two lowercase hex digits per byte |
| Hex.DecodeEncode | src/hash_test.rs:90 | decoding the hex text gives back the digest bytes |
| Hex.EncodeDecode | src/hash_test.rs:90 | every even-length lowercase hex text is the encoding of its decoding |
| Hex.EncodeInjective | src/hash_test.rs:90 | two digests print the same exactly when they are equal |
| Common.TestTextIsAscii | src/common.rs:8 | the byte-string literal is 62 ASCII characters |
| Common.InitTestVec | src/common.rs:7-9 | the fixed buffer is the 62 ASCII bytes of the test text, whatever the arguments |
| Common.InitVec | src/common.rs:11-19 | size 0 gives the fixed text; any other size gives exactly `size` bytes, each the seeded generator's byte at that position |
| Common.InitVecZeroIgnoresSeed | src/common.rs:12-14 | size 0 gives the same 62 bytes for every seed |
| Common.InitVecReproducible | src/common.rs:15-18 | equal (size, seed) give byte-identical buffers, in both the slice and the cursor shape |
| Common.InitCursor | src/common.rs:20-22 | the cursor starts at position 0 over exactly the `init_vec` bytes |
| Common.ResHash | src/common.rs:24-26 | an integer becomes a canonical hex numeral that parses back to it (and is `"0"` exactly for zero); a digest becomes two hex digits per byte and decodes back to it |
| Common.ResResult | src/common.rs:27-32 | success gives the hex of the value; failure gives the error's debug text, never a failure |
| Common.ResString | src/common.rs:33-35 | text passes through unchanged |
| Units.Rate | hash_brenchmark.py:23 | for a positive duration, rate times elapsed seconds is the byte count, and the rate is non-negative |
| Units.ScaledValue | src/hash_test.rs:35-40 | the scaled value times 1024 to the unit index is the original rate |
| Units.ScaledUnique | src/hash_test.rs:36-41 | the loop's exit conditions allow exactly one (value, unit) pair |
| Units.SmallRateInBytes | src/hash_test.rs:37 | a rate of at most 1024 stays unchanged, in unit `B` |
| Harness.New | src/hash_test.rs:61-70 | name, size, seed and the three functions are stored as given |
| Harness.NewCursor | src/hash_test.rs:73-75 | cursor-shaped input from `init_cursor`, normalised by `get_res_result` |
| Harness.NewVec | src/hash_test.rs:78-80 | slice-shaped input from `init_vec`, normalised by `get_res_hash` |
| Harness.NewVecStr | src/hash_test.rs:83-85 | slice-shaped input from `init_vec`, text passed through |
| Harness.NewWrapper | src/hash_test.rs:89-91 | slice-shaped input; the function ignores the seed and returns lowercase hex twice as long as the digest that decodes back to the digest of its input, i.e. `hex::encode(D::digest(data))` |
| Harness.Run | src/hash_test.rs:95-108 | the Stat has the case's name, size and seed and the measured time; its text is the normaliser applied to the function's result on the buffer built from the case's own size and seed |
| Harness.RunVec | src/hash_test.rs:96-100 | a `new_vec` case reports the hex of the function's value on `init_vec(size, seed)` |
| Harness.RunCursorCase | src/hash_test.rs:95-108 | running a case built by `new_cursor` gives the function a fresh cursor at position 0 over `init_vec(size, seed)` and reports the hex of the value or the error's text |
| Harness.RunWrapper | src/hash_test.rs:89-91 | a `new_wrapper` case reports the digest of the case buffer as lowercase hex of twice its length, and that hex decodes back to the digest |
| Harness.SizePerSec | src/hash_test.rs:29-31 | for a positive duration, bytes per second times elapsed seconds is the recorded size |
| Harness.Speed | src/hash_test.rs:32-42 | the loop ends at a unit index of at most 8; the value is at most 1024 unless the index is 8; a rate of at most 1024 stays unchanged in `B` |
| Brenchmark.Execute | src/brenchmark.rs:29-74 | every entry's Stat carries the entry's name and the suite's size and seed |
| Brenchmark.ExecuteResult | src/common.rs:39-44 | the function under test receives the whole case buffer and the unchanged seed (or none, if the adapter drops it); the result text is canonical hex, two digits per digest byte (decoding back to the digest), unchanged text, or the error's text, depending on the wiring |
| Brenchmark.ExecuteNonEmpty | src/brenchmark.rs:29-74 | whatever its wiring, an entry's Stat has a non-empty result text |
| Brenchmark.RunAll | src/brenchmark.rs:28-75 | one Stat per entry, in entry order, each with the given size and seed |
| Brenchmark.Btest | src/brenchmark.rs:27-76 | exactly 46 Stats, the i-th named after catalogue entry i, all with the requested size and seed |
| Brenchmark.BtestResultsNonEmpty | src/brenchmark.rs:27-76 | every one of the 46 Stats has a non-empty result text |
| Brenchmark.CatalogueEnds | src/brenchmark.rs:29-74 | 46 entries, from `md5_compute` first to `murmur3_x86_128_of_slice` last |
| Brenchmark.CursorEntries | src/brenchmark.rs:69-71 | exactly the three murmur3 streaming entries use the cursor shape and `get_res_result`, and each runs as a `new_cursor` case around its streaming adapter |
| Brenchmark.Sha256PassThrough | src/brenchmark.rs:55 | the `sha256` entry passes its text result through unchanged |
| Brenchmark.SeedDroppingEntries | src/brenchmark.rs:29-60 | the adapters that drop the seed are exactly md5, the digest objects, the crc entries, sha256 and seahash |
| Brenchmark.SeedIgnoredAtSizeZero | src/brenchmark.rs:29-60 | at size 0, an entry whose adapter drops the seed gives the same result text for every seed |
| Brenchmark.ZeroSizeStats | src/hash_test.rs:103 | at size 0 every Stat reports size 0 while the hashed buffer is 62 bytes |
| PyBench.Step | hash_brenchmark.py:12-14 | the loop stays within the 9 units, divides by 1024 once per step, and stops at a value of at most 1024 unless the last unit was reached |
| PyBench.Speed | hash_brenchmark.py:7-15 | the reading meets the loop's exit conditions; a rate of at most 1024 stays unchanged in `B` |
| PyBench.SpeedMatchesAnyScaling | hash_brenchmark.py:7-15 | any reading meeting the exit conditions, such as the one `Stat::speed` computes, equals the Python reading |
| PyBench.HashBenchmark | hash_brenchmark.py:18-32 | a zero duration raises a division error; otherwise the record has `size = len(data)`, the given name, seed and duration, the function's result, the rate and its scaled reading |
| PyBench.TestData | hash_brenchmark.py:35-40 | size 0 gives the fixed 62-byte text; any other size gives exactly `size` generated bytes |
| PyBench.YieldFrom | hash_brenchmark.py:41-49 | records come in list order and each has a positive duration; the generator stops at the first zero duration with a division error |
| PyBench.TestBrenchmark | hash_brenchmark.py:35-49 | the generator yields at most six records, named in list order and sized by the data, each holding its function's result on the shared data and seed and its own elapsed time; it yields all six exactly when no duration is zero |
| PyBench.ZeroSizeRecords | hash_brenchmark.py:26 | at size 0 every record reports 62 bytes |

## Left out

- Hash and checksum algorithms (md5, blake2, sha1/2/3, keccak, sm3, crc, xxhash, twox-hash, seahash, murmur3, mmh3): these are foreign crates and modules. They are function-valued fields of `Externals` and `PyExternals`.
- The internals of `SmallRng` and Python `Random.randbytes`: only the buffer length and the dependence on (size, seed) are modelled.
- Wall-clock timing (`Instant`, `perf_counter_ns`): it is nondeterministic, so each case's elapsed time is a parameter.
- Harness.SizePerSec: requires a positive duration. In the source, a zero `Duration` gives an infinite or NaN `f64`. Floating-point infinities are not modelled.
- Harness.Speed: returns the scaled value and the unit index, not the `{:.2}{unit}/s` text. Float formatting is not modelled, and rates are exact reals, not `f64`.
- PyBench.Speed: returns the scaled value and the unit index, not the `"%.2s%s/s"` text. That text truncates `str(speed)` to two characters.
- The fixed-width `Display` layout of `Stat` (src/hash_test.rs:44-56): this is console formatting.
- src/main.rs and the Python `main` and `test_value`: CSV and console output and the 25-size sweep driver are I/O.
- The text of `io::Error`'s debug output: `IoError` carries it as an opaque string.
- `usize` and `u64` overflow of sizes: sizes are unbounded naturals. Seeds are bounded to `u32`, and widening them to `u64` keeps the value.
