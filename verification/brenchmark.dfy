/** The fixed catalogue of src/brenchmark.rs and the suite runner `btest`.
    The hash and checksum crates are not modelled: they are the opaque
    functions of an `Externals` value. */
module Brenchmark {
  import opened Prelude
  import opened Hex
  import opened Common
  import opened Harness

  /** The 16-byte value `md5::compute` returns. */
  type Md5Digest = s: seq<byte> | |s| == 16 witness seq(16, _ => 0)

  /** The output of `Digest::digest`: every digest algorithm of the catalogue
      has a fixed, non-zero output size. */
  type DigestBytes = s: seq<byte> | |s| > 0 witness [0]

  /** The text `sha256::digest` returns: 64 lowercase hex digits. */
  type Sha256Hex = s: string | |s| == 64 && IsLowerHex(s) witness seq(64, _ => '0')

  /** The collaborators the catalogue calls, keyed by the entry's name where
      one calling convention serves several crates. */
  datatype Externals = Externals(
    rng: Rng,                                            // SmallRng, as `init_vec` uses it
    unseeded: (string, seq<byte>) -> nat,                // crc, crc16, crc32fast, crc64, seahash
    seeded: (string, seq<byte>, u64) -> nat,             // twox_hash, xxhash_rust, murmur3 `*_of_slice`
    md5: seq<byte> -> Md5Digest,                         // md5::compute
    digest: (string, seq<byte>) -> DigestBytes,          // `Digest::digest` of blake2, sha1, sha2, sha3, sm3
    text: (string, seq<byte>) -> Sha256Hex,              // sha256::digest
    streaming: (string, Cursor, u32) -> Result<nat, IoError>) // murmur3 over a reader

  /** Whether the adapter closure passes the seed on (`|d, s|`) or drops it (`|d, _: u32|`). */
  datatype SeedUse = Discarded | Passed

  /** How an entry is wired: the constructor it uses and the adapter it installs. */
  datatype Call =
    | IntOfSlice(seedUse: SeedUse) // `new_vec` + `run_slice`, integer result
    | Md5OfSlice                   // `new_vec` + `run_slice` over `md5::compute`
    | TextOfSlice                  // `new_vec_str` + `run_slice`, text result
    | DigestOf                     // `new_wrapper::<D>`
    | IntOfCursor                  // `new_cursor` + `run_cursor`

  datatype Entry = Entry(name: string, call: Call)

  datatype Shape = SliceShape | CursorShape

  datatype Normaliser = ResHashNormaliser | ResResultNormaliser | ResStringNormaliser

  /** The buffer shape the entry's constructor builds. */
  function ShapeOf(c: Call): Shape {
    if c.IntOfCursor? then CursorShape else SliceShape
  }

  /** The normaliser the entry's constructor installs. */
  function NormaliserOf(c: Call): Normaliser {
    match c
    case IntOfSlice(_) => ResHashNormaliser
    case Md5OfSlice => ResHashNormaliser
    case TextOfSlice => ResStringNormaliser
    case DigestOf => ResStringNormaliser
    case IntOfCursor => ResResultNormaliser
  }

  /** The adapter ignores the seed it is handed. */
  predicate DiscardsSeed(c: Call) {
    c == IntOfSlice(Discarded) || c.Md5OfSlice? || c.TextOfSlice? || c.DigestOf?
  }

  function Entries(names: seq<string>, call: Call): (es: seq<Entry>)
    ensures |es| == |names|
    ensures forall i :: 0 <= i < |es| ==> es[i] == Entry(names[i], call)
  {
    seq(|names|, i requires 0 <= i < |names| => Entry(names[i], call))
  }

  /** The catalogue, in declaration order, one group per run of identically
      wired entries. */
  const Catalogue: seq<Entry> :=
    [Entry("md5_compute", Md5OfSlice)]
    + Entries(["Blake2b512", "Blake2s256", "Sha1", "Keccak224", "Keccak256", "Keccak384",
               "Keccak512", "Keccak256Full", "Sha3_224", "Sha3_256", "Sha3_384", "Sha3_512",
               "Sha224", "Sha256", "Sha384", "Sha512", "Sha512_224", "Sha512_256", "sm3"], DigestOf)
    + Entries(["crc<u16>", "crc<u32>", "crc<u64>", "crc16", "crc32fast", "crc64"], IntOfSlice(Discarded))
    + [Entry("sha256", TextOfSlice)]
    + Entries(["twox_hash::XxHash32", "twox_hash::XxHash64", "twox_hash::XxHash3_64",
               "twox_hash::XxHash3_128"], IntOfSlice(Passed))
    + [Entry("seahash", IntOfSlice(Discarded))]
    + Entries(["xxhash::xxh32", "xxhash::xxh64", "xxhash::xxh3_64_with_seed",
               "xxhash::xxh3_128_with_seed", "xxhash::const_xxh32", "xxhash::const_xxh64",
               "xxhash::const_xxh3_64_with_seed", "xxhash::const_xxh3_128_with_seed"], IntOfSlice(Passed))
    + Entries(["murmur3_32", "murmur3_x64_128", "murmur3_x86_128"], IntOfCursor)
    + Entries(["murmur3_32_of_slice", "murmur3_x64_128_of_slice", "murmur3_x86_128_of_slice"], IntOfSlice(Passed))

  /** The function under test the adapter of a `new_vec` entry installs. */
  function SliceFn(e: Entry, ext: Externals): (seq<byte>, u32) -> Hexable
    requires e.call.IntOfSlice? || e.call.Md5OfSlice?
  {
    match e.call
    case IntOfSlice(Discarded) =>
      (data: seq<byte>, sd: u32) => RunSlice(data, sd, (d: seq<byte>, _: u64) => Integer(ext.unseeded(e.name, d)))
    case IntOfSlice(Passed) =>
      (data: seq<byte>, sd: u32) => RunSlice(data, sd, (d: seq<byte>, s: u64) => Integer(ext.seeded(e.name, d, s)))
    case Md5OfSlice =>
      (data: seq<byte>, sd: u32) => RunSlice(data, sd, (d: seq<byte>, _: u64) => ByteArray(ext.md5(d)))
  }

  /** The streaming function the entry's adapter installs, on a cursor. */
  function CursorFn(e: Entry, ext: Externals): (Cursor, u32) -> Result<Hexable, IoError> {
    (c: Cursor, sd: u32) =>
      match RunCursor(c, sd, (r: Cursor, s: u32) => ext.streaming(e.name, r, s))
      case Ok(n) => Ok(Integer(n))
      case Err(err) => Err(err)
  }

  /** Builds the entry's case with the constructor its wiring names, and runs
      it: the Stat carries the entry's name and the suite's size and seed. */
  function Execute(e: Entry, ext: Externals, size: nat, seed: u32, elapsed: Duration): (s: Stat)
    ensures s.name == e.name && s.size == size && s.seed == seed && s.duration == elapsed
  {
    match e.call
    case IntOfSlice(_) => Run(NewVec(e.name, size, seed, ext.rng, SliceFn(e, ext)), elapsed)
    case Md5OfSlice => Run(NewVec(e.name, size, seed, ext.rng, SliceFn(e, ext)), elapsed)
    case TextOfSlice =>
      Run(NewVecStr(e.name, size, seed, ext.rng,
                    (data: seq<byte>, sd: u32) => RunSlice(data, sd, (d: seq<byte>, _: u64) => ext.text(e.name, d))),
          elapsed)
    case DigestOf => Run(NewWrapper(e.name, size, seed, ext.rng, d => ext.digest(e.name, d)), elapsed)
    case IntOfCursor => Run(NewCursor(e.name, size, seed, ext.rng, CursorFn(e, ext)), elapsed)
  }

  /** What each wiring reports. The function under test receives the whole
      case buffer built from `size` and `seed` (a cursor at position 0 for the
      streaming entries) and the seed unchanged unless the adapter drops it;
      integers come back as canonical hex, digests as two digits per byte,
      text unchanged, and a failed stream as the error's text. */
  lemma ExecuteResult(e: Entry, ext: Externals, size: nat, seed: u32, elapsed: Duration)
    ensures var s := Execute(e, ext, size, seed, elapsed).resString;
            var buffer := InitVec(ext.rng, size, seed);
            && (e.call == IntOfSlice(Discarded) ==>
                  IsCanonical(s) && ParseInt(s) == ext.unseeded(e.name, buffer))
            && (e.call == IntOfSlice(Passed) ==>
                  IsCanonical(s) && ParseInt(s) == ext.seeded(e.name, buffer, seed))
            && (e.call.Md5OfSlice? ==>
                  |s| == 32 && IsLowerHex(s) && DecodeBytes(s) == ext.md5(buffer))
            && (e.call.TextOfSlice? ==> s == ext.text(e.name, buffer))
            && (e.call.DigestOf? ==>
                  IsLowerHex(s) && |s| == 2 * |ext.digest(e.name, buffer)|
                  && DecodeBytes(s) == ext.digest(e.name, buffer))
            && (e.call.IntOfCursor? ==>
                  match ext.streaming(e.name, Cursor(buffer, 0), seed)
                  case Ok(n) => IsCanonical(s) && ParseInt(s) == n
                  case Err(err) => s == err.debug)
  {
    match e.call
    case IntOfSlice(_) => RunVec(e.name, size, seed, ext.rng, SliceFn(e, ext), elapsed);
    case Md5OfSlice => RunVec(e.name, size, seed, ext.rng, SliceFn(e, ext), elapsed);
    case TextOfSlice =>
    case DigestOf => RunWrapper(e.name, size, seed, ext.rng, d => ext.digest(e.name, d), elapsed);
    case IntOfCursor => RunCursorCase(e.name, size, seed, ext.rng, CursorFn(e, ext), elapsed);
  }

  /** Every wiring reports a non-empty text: a hex numeral has at least one
      digit, a digest at least two, sha256 sixty-four, and an error's debug
      text is never empty. */
  lemma ExecuteNonEmpty(e: Entry, ext: Externals, size: nat, seed: u32, elapsed: Duration)
    ensures Execute(e, ext, size, seed, elapsed).resString != ""
  {
    ExecuteResult(e, ext, size, seed, elapsed);
  }

  /** The runner: one Stat per entry, in order, each for the given size and
      seed; `elapsed(i)` is the time measured for entry `i`. It knows nothing
      of the particular entries. */
  function RunAll(entries: seq<Entry>, ext: Externals, size: nat, seed: u32, elapsed: nat -> Duration): (stats: seq<Stat>)
    ensures |stats| == |entries|
    ensures forall i :: 0 <= i < |stats| ==>
      stats[i].name == entries[i].name && stats[i].size == size && stats[i].seed == seed
      && stats[i].duration == elapsed(i)
    ensures forall i :: 0 <= i < |stats| ==> stats[i] == Execute(entries[i], ext, size, seed, elapsed(i))
  {
    var stats := seq(|entries|, i requires 0 <= i < |entries| => Execute(entries[i], ext, size, seed, elapsed(i)));
    forall i | 0 <= i < |stats|
      ensures stats[i].name == entries[i].name && stats[i].size == size && stats[i].seed == seed
      ensures stats[i].duration == elapsed(i)
    {
      var s := Execute(entries[i], ext, size, seed, elapsed(i));
      assert stats[i] == s;
    }
    stats
  }

  /** `btest`: the runner over the catalogue, giving 46 Stats in catalogue order. */
  function Btest(ext: Externals, size: nat, seed: u32, elapsed: nat -> Duration): (stats: seq<Stat>)
    ensures |stats| == |Catalogue| == 46
    ensures forall i :: 0 <= i < |stats| ==>
      stats[i].name == Catalogue[i].name && stats[i].size == size && stats[i].seed == seed
    ensures forall i :: 0 <= i < |stats| ==> stats[i] == Execute(Catalogue[i], ext, size, seed, elapsed(i))
  {
    CatalogueEnds();
    RunAll(Catalogue, ext, size, seed, elapsed)
  }

  /** Every one of the 46 Stats `btest` returns has a non-empty result text. */
  lemma BtestResultsNonEmpty(ext: Externals, size: nat, seed: u32, elapsed: nat -> Duration)
    ensures forall i :: 0 <= i < 46 ==> Btest(ext, size, seed, elapsed)[i].resString != ""
  {
    var stats := Btest(ext, size, seed, elapsed);
    forall i | 0 <= i < 46
      ensures stats[i].resString != ""
    {
      ExecuteNonEmpty(Catalogue[i], ext, size, seed, elapsed(i));
    }
  }

  /** The catalogue opens with md5 and closes with the murmur3 x86 slice hash. */
  lemma CatalogueEnds()
    ensures |Catalogue| == 46
    ensures Catalogue[0].name == "md5_compute"
    ensures Catalogue[45].name == "murmur3_x86_128_of_slice"
  {
  }

  /** Exactly the three murmur3 streaming entries use the cursor shape (and
      with it `get_res_result`); every other entry uses the slice shape. Those
      three are built by `new_cursor` around their streaming adapter. */
  lemma CursorEntries(ext: Externals, size: nat, seed: u32, elapsed: Duration)
    ensures forall i :: 0 <= i < |Catalogue| ==>
      (ShapeOf(Catalogue[i].call) == CursorShape <==> 40 <= i <= 42)
    ensures forall i :: 0 <= i < |Catalogue| ==>
      (NormaliserOf(Catalogue[i].call) == ResResultNormaliser <==> ShapeOf(Catalogue[i].call) == CursorShape)
    ensures Catalogue[40].name == "murmur3_32" && Catalogue[41].name == "murmur3_x64_128"
    ensures Catalogue[42].name == "murmur3_x86_128"
    ensures forall i :: 40 <= i <= 42 ==>
      Execute(Catalogue[i], ext, size, seed, elapsed)
      == Run(NewCursor(Catalogue[i].name, size, seed, ext.rng, CursorFn(Catalogue[i], ext)), elapsed)
  {
  }

  /** The `sha256` entry passes its text result through unchanged. */
  lemma Sha256PassThrough(ext: Externals, size: nat, seed: u32, elapsed: Duration)
    ensures Catalogue[26].name == "sha256"
    ensures NormaliserOf(Catalogue[26].call) == ResStringNormaliser
    ensures Execute(Catalogue[26], ext, size, seed, elapsed).resString
            == ext.text("sha256", InitVec(ext.rng, size, seed))
  {
    ExecuteResult(Catalogue[26], ext, size, seed, elapsed);
  }

  /** The seed-dropping entries: md5 (0), the nineteen digest objects (1-19),
      the six crc entries (20-25), sha256 (26) and seahash (31). */
  lemma SeedDroppingEntries()
    ensures forall i :: 0 <= i < |Catalogue| ==>
      (DiscardsSeed(Catalogue[i].call) <==> i <= 26 || i == 31)
  {
  }

  /** At size zero the buffer is the fixed text, so an entry whose adapter
      drops the seed reports the same result for every seed. */
  lemma SeedIgnoredAtSizeZero(e: Entry, ext: Externals, seed1: u32, seed2: u32, elapsed: Duration)
    requires DiscardsSeed(e.call)
    ensures Execute(e, ext, 0, seed1, elapsed).resString == Execute(e, ext, 0, seed2, elapsed).resString
  {
    var r1 := Execute(e, ext, 0, seed1, elapsed).resString;
    var r2 := Execute(e, ext, 0, seed2, elapsed).resString;
    InitVecZeroIgnoresSeed(ext.rng, ext.rng, seed1, seed2);
    ExecuteResult(e, ext, 0, seed1, elapsed);
    ExecuteResult(e, ext, 0, seed2, elapsed);
    match e.call
    case IntOfSlice(_) =>
      CanonicalInjective(r1, r2);
    case Md5OfSlice =>
      EncodeDecode(r1);
      EncodeDecode(r2);
    case DigestOf =>
      EncodeDecode(r1);
      EncodeDecode(r2);
    case TextOfSlice =>
  }

  /** At size zero every Stat reports size 0, although each function under
      test hashed the 62 bytes of the fixed text. */
  lemma ZeroSizeStats(ext: Externals, seed: u32, elapsed: nat -> Duration)
    ensures forall i :: 0 <= i < 46 ==> Btest(ext, 0, seed, elapsed)[i].size == 0
    ensures |InitVec(ext.rng, 0, seed)| == 62
  {
  }
}
