/** The input generator and the result normalisers of src/common.rs. */
module Common {
  import opened Prelude
  import opened Hex

  /** The fixed test text used for a requested size of zero: the ten digits
      from 1 to 0, then the lower-case and the upper-case alphabet. */
  const TestText := "1234567890" + "abcdefghijklmnopqrstuvwxyz" + "ABCDEFGHIJKLMNOPQRSTUVWXYZ"

  /** The test text is 62 ASCII characters, so it is a valid byte-string literal. */
  lemma TestTextIsAscii()
    ensures IsAscii(TestText) && |TestText| == 62
  {
    assert IsAscii("1234567890");
    assert IsAscii("abcdefghijklmnopqrstuvwxyz");
    assert IsAscii("ABCDEFGHIJKLMNOPQRSTUVWXYZ");
  }

  /** `init_test_vec`: the 62 bytes of `TestText`, whatever the arguments. */
  function InitTestVec(size: nat, seed: u32): (v: seq<byte>)
    ensures |v| == 62
    ensures IsAscii(TestText) && v == AsciiBytes(TestText)
  {
    TestTextIsAscii();
    AsciiBytes(TestText)
  }

  /** The seeded generator: `Rng(seed, len)` is the byte at each position of a
      `len`-byte buffer filled by `SmallRng::seed_from_u64(seed)`. Its
      internals are not modelled; the buffer length is a parameter because the
      generator's fill of a shorter buffer need not be a prefix of a longer one. */
  type Rng = (u64, nat) -> nat -> byte

  /** `init_vec`: the test text for size zero, otherwise exactly `size` bytes of
      the generator seeded with the seed widened to 64 bits. */
  function InitVec(rng: Rng, size: nat, seed: u32): (v: seq<byte>)
    ensures size == 0 ==> v == InitTestVec(size, seed)
    ensures size > 0 ==> |v| == size
    ensures size > 0 ==> forall i :: 0 <= i < size ==> v[i] == rng(seed, size)(i)
  {
    if size == 0 then InitTestVec(size, seed)
    else seq(size, i requires 0 <= i < size => rng(seed, size)(i))
  }

  /** Size zero gives the same buffer for every seed (and every generator). */
  lemma InitVecZeroIgnoresSeed(rng1: Rng, rng2: Rng, seed1: u32, seed2: u32)
    ensures InitVec(rng1, 0, seed1) == InitVec(rng2, 0, seed2)
    ensures |InitVec(rng1, 0, seed1)| == 62
  {
  }

  /** The buffer depends on nothing but (size, seed) and the bytes the seeded
      generator produces: equal seeds give byte-identical buffers, in both shapes. */
  lemma InitVecReproducible(rng: Rng, size: nat, seed1: u32, seed2: u32)
    requires seed1 == seed2 || size == 0
    ensures InitVec(rng, size, seed1) == InitVec(rng, size, seed2)
    ensures InitCursor(rng, size, seed1) == InitCursor(rng, size, seed2)
  {
  }

  /** `std::io::Cursor<Vec<u8>>`: the bytes and a read position. */
  datatype Cursor = Cursor(inner: seq<byte>, position: nat)

  /** `init_cursor`: a cursor at position 0 over exactly the `init_vec` bytes. */
  function InitCursor(rng: Rng, size: nat, seed: u32): (c: Cursor)
    ensures c.position == 0
    ensures c.inner == InitVec(rng, size, seed)
    ensures size > 0 ==> |c.inner| == size
  {
    Cursor(InitVec(rng, size, seed), 0)
  }

  /** A value of a type implementing `LowerHex` among those the catalogue
      returns: an unsigned integer (u16 .. u128) or an md5 digest, which
      prints as two digits per byte. */
  datatype Hexable = Integer(n: nat) | ByteArray(bytes: seq<byte>)

  /** The `{:?}` text of a value: Rust's derived and hand-written `Debug`
      output for an error is never empty. */
  type DebugText = s: string | |s| > 0 witness "Error"

  /** `std::io::Error`; only its `{:?}` text matters here, and that text is
      taken as given. */
  datatype IoError = IoError(debug: DebugText)

  /** `get_res_hash`: `format!("{:x}", result)`. An integer prints as its
      canonical lowercase hex numeral; a digest prints two digits per byte. */
  function ResHash(h: Hexable): (s: string)
    ensures IsLowerHex(s)
    ensures h.Integer? ==> IsCanonical(s) && ParseInt(s) == h.n
    ensures h.Integer? ==> (s == "0" <==> h.n == 0)
    ensures h.ByteArray? ==> |s| == 2 * |h.bytes| && DecodeBytes(s) == h.bytes
  {
    match h
    case Integer(n) =>
      ParseFormat(n);
      FormatZero();
      FormatInt(n)
    case ByteArray(bytes) =>
      DecodeEncode(bytes);
      EncodeBytes(bytes)
  }

  /** `get_res_result`: the hex text on success and the error's debug text
      on failure; it never fails itself. */
  function ResResult(r: Result<Hexable, IoError>): (s: string)
    ensures r.Ok? ==> s == ResHash(r.value) && IsLowerHex(s)
    ensures r.Err? ==> s == r.error.debug
  {
    match r
    case Ok(v) => ResHash(v)
    case Err(e) => e.debug
  }

  /** `get_res_string`: a result that is already text passes through. */
  function ResString(result: string): (s: string)
    ensures s == result
  {
    result
  }

  /** `run_slice`: the function is applied once, to the whole buffer, with the
      seed converted into the callee's seed type (a value-preserving widening). */
  function RunSlice<R>(data: seq<byte>, seed: u32, f: (seq<byte>, u64) -> R): R
  {
    f(data, seed)
  }

  /** `run_cursor`: likewise for a streaming function reading from the cursor;
      its fallible result is handed back as it is. */
  function RunCursor<R>(data: Cursor, seed: u32, f: (Cursor, u32) -> Result<R, IoError>): Result<R, IoError>
  {
    f(data, seed)
  }
}
