/** The benchmark case, its execution and the Stat record of src/hash_test.rs. */
module Harness {
  import opened Prelude
  import opened Hex
  import opened Common
  import opened Units

  /** An elapsed time in nanoseconds, the resolution of `std::time::Duration`. */
  type Duration = nat

  /** `HashTest<BufferT, ResT>`: a named case with its size and seed, the
      function building its input, the function under test and the normaliser. */
  datatype HashTest<!B, !R> = HashTest(
    name: string,
    size: nat,
    seed: u32,
    initFn: (nat, u32) -> B,
    runFn: (B, u32) -> R,
    resFn: R -> string)

  /** The measurement record one execution produces. */
  datatype Stat = Stat(name: string, size: nat, seed: u32, duration: Duration, resString: string)

  /** `HashTest::new`: every part is stored as given. */
  function New<B, R>(name: string, size: nat, seed: u32, initFn: (nat, u32) -> B,
                     runFn: (B, u32) -> R, resFn: R -> string): (t: HashTest<B, R>)
    ensures t.name == name && t.size == size && t.seed == seed
    ensures t.initFn == initFn && t.runFn == runFn && t.resFn == resFn
  {
    HashTest(name, size, seed, initFn, runFn, resFn)
  }

  /** `new_cursor`: cursor-shaped input, normalised by `get_res_result`. */
  function NewCursor(name: string, size: nat, seed: u32, rng: Rng,
                     runFn: (Cursor, u32) -> Result<Hexable, IoError>): (t: HashTest<Cursor, Result<Hexable, IoError>>)
    ensures t.name == name && t.size == size && t.seed == seed && t.runFn == runFn
    ensures forall n: nat, s: u32 :: t.initFn(n, s) == InitCursor(rng, n, s)
    ensures forall r :: t.resFn(r) == ResResult(r)
  {
    New(name, size, seed, (n: nat, s: u32) => InitCursor(rng, n, s), runFn, ResResult)
  }

  /** `new_vec`: slice-shaped input, normalised by `get_res_hash`. */
  function NewVec(name: string, size: nat, seed: u32, rng: Rng,
                  runFn: (seq<byte>, u32) -> Hexable): (t: HashTest<seq<byte>, Hexable>)
    ensures t.name == name && t.size == size && t.seed == seed && t.runFn == runFn
    ensures forall n: nat, s: u32 :: t.initFn(n, s) == InitVec(rng, n, s)
    ensures forall h :: t.resFn(h) == ResHash(h)
  {
    New(name, size, seed, (n: nat, s: u32) => InitVec(rng, n, s), runFn, ResHash)
  }

  /** `new_vec_str`: slice-shaped input, normalised by `get_res_string`. */
  function NewVecStr(name: string, size: nat, seed: u32, rng: Rng,
                     runFn: (seq<byte>, u32) -> string): (t: HashTest<seq<byte>, string>)
    ensures t.name == name && t.size == size && t.seed == seed && t.runFn == runFn
    ensures forall n: nat, s: u32 :: t.initFn(n, s) == InitVec(rng, n, s)
    ensures forall text :: t.resFn(text) == text
  {
    New(name, size, seed, (n: nat, s: u32) => InitVec(rng, n, s), runFn, ResString)
  }

  /** `new_wrapper::<D>`: slice-shaped input; the function under test feeds
      the whole buffer to the digest `D`, discards the seed and hex-encodes
      the digest; the text passes through `get_res_string`. */
  function NewWrapper(name: string, size: nat, seed: u32, rng: Rng,
                      digest: seq<byte> -> seq<byte>): (t: HashTest<seq<byte>, string>)
    ensures t.name == name && t.size == size && t.seed == seed
    ensures forall n: nat, s: u32 :: t.initFn(n, s) == InitVec(rng, n, s)
    ensures forall data, s :: IsLowerHex(t.runFn(data, s))
    ensures forall data, s :: |t.runFn(data, s)| == 2 * |digest(data)|
    ensures forall data, s :: DecodeBytes(t.runFn(data, s)) == digest(data)
    ensures forall data, s1, s2 :: t.runFn(data, s1) == t.runFn(data, s2)
    ensures forall text :: t.resFn(text) == text
  {
    var runFn := (data: seq<byte>, _: u32) => EncodeBytes(digest(data));
    assert forall data, s :: runFn(data, s) == EncodeBytes(digest(data));
    forall data: seq<byte> ensures DecodeBytes(EncodeBytes(digest(data))) == digest(data) {
      DecodeEncode(digest(data));
    }
    New(name, size, seed, (n: nat, s: u32) => InitVec(rng, n, s), runFn, ResString)
  }

  /** `HashTestRun::run`: build the input from the case's own size and seed,
      run the function under test once on it with the case's seed, normalise
      the result, and record it with the case's name, size and seed and the
      measured time (a parameter here: the clock is not modelled). */
  function Run<B, R>(t: HashTest<B, R>, elapsed: Duration): (s: Stat)
    ensures s.name == t.name && s.size == t.size && s.seed == t.seed
    ensures s.duration == elapsed
    ensures s.resString == t.resFn(t.runFn(t.initFn(t.size, t.seed), t.seed))
  {
    var buffer := t.initFn(t.size, t.seed);
    var res := t.runFn(buffer, t.seed);
    Stat(t.name, t.size, t.seed, elapsed, t.resFn(res))
  }

  /** A `new_vec` case reports the hex of the function's value on the buffer
      `init_vec` builds from the case's size and seed. */
  lemma RunVec(name: string, size: nat, seed: u32, rng: Rng, f: (seq<byte>, u32) -> Hexable, elapsed: Duration)
    ensures Run(NewVec(name, size, seed, rng, f), elapsed).resString == ResHash(f(InitVec(rng, size, seed), seed))
  {
  }

  /** A `new_cursor` case reads from a fresh cursor at position 0 over the same
      bytes, and reports either the hex of the value or the error's text. */
  lemma RunCursorCase(name: string, size: nat, seed: u32, rng: Rng,
                      f: (Cursor, u32) -> Result<Hexable, IoError>, elapsed: Duration)
    ensures var r := f(Cursor(InitVec(rng, size, seed), 0), seed);
            var s := Run(NewCursor(name, size, seed, rng, f), elapsed).resString;
            (r.Ok? ==> s == ResHash(r.value)) && (r.Err? ==> s == r.error.debug)
  {
  }

  /** A `new_wrapper` case reports the digest of the case buffer, two lowercase
      digits per byte, from which the digest is recovered. */
  lemma RunWrapper(name: string, size: nat, seed: u32, rng: Rng, digest: seq<byte> -> seq<byte>, elapsed: Duration)
    ensures var s := Run(NewWrapper(name, size, seed, rng, digest), elapsed).resString;
            IsLowerHex(s) && |s| == 2 * |digest(InitVec(rng, size, seed))|
            && DecodeBytes(s) == digest(InitVec(rng, size, seed))
  {
    DecodeEncode(digest(InitVec(rng, size, seed)));
  }

  /** `size_per_sec`: the recorded size over the recorded duration, so that
      rate times seconds is the size. A zero duration (an infinite or
      undefined float) is excluded. */
  function SizePerSec(s: Stat): (rate: real)
    requires s.duration > 0
    ensures rate >= 0.0
    ensures rate * (s.duration as real) == NanosPerSecond * (s.size as real)
  {
    Rate(s.size, s.duration)
  }

  /** `Stat::speed`: the throughput scaled to a unit of `UnitNames` (its
      two-decimal rendering is not modelled). */
  method Speed(s: Stat) returns (r: Reading)
    requires s.duration > 0
    ensures IsScaled(SizePerSec(s), r)
    ensures r.unitIndex < |UnitNames|
    ensures r.unitIndex + 1 < |UnitNames| ==> r.value <= Base
    ensures SizePerSec(s) <= Base ==> r == Reading(SizePerSec(s), 0)
  {
    var rate := SizePerSec(s);
    var speed := rate;
    var unitIndex: nat := 0;
    while unitIndex + 1 < |UnitNames| && speed > Base
      invariant unitIndex < |UnitNames|
      invariant speed == Shrink(rate, unitIndex)
      invariant unitIndex > 0 ==> speed > 1.0
      decreases |UnitNames| - unitIndex
    {
      unitIndex := unitIndex + 1;
      speed := speed / Base;
    }
    r := Reading(speed, unitIndex);
    if rate <= Base {
      SmallRateInBytes(rate, r);
    }
  }
}
