/** The Python twin of the harness, hash_brenchmark.py: its `speed` loop, the
    record `hash_brenchmark` builds and the six-entry generator `test_brenchmark`. */
module PyBench {
  import opened Prelude
  import opened Common
  import opened Units

  /** One pass of the `while` loop of `speed`, as tail recursion: step to the
      next unit while the value exceeds 1024 and a larger unit remains. */
  function Step(speed: real, unitIndex: nat): (r: Reading)
    requires unitIndex < |UnitNames|
    requires unitIndex > 0 ==> speed > 1.0
    ensures unitIndex <= r.unitIndex < |UnitNames|
    ensures r.value == Shrink(speed, r.unitIndex - unitIndex)
    ensures r.unitIndex + 1 < |UnitNames| ==> r.value <= Base
    ensures r.unitIndex > 0 ==> r.value > 1.0
    decreases |UnitNames| - unitIndex
  {
    if unitIndex + 1 < |UnitNames| && speed > Base then
      var r := Step(speed / Base, unitIndex + 1);
      ShrinkShift(speed, r.unitIndex - unitIndex - 1);
      r
    else
      Reading(speed, unitIndex)
  }

  /** `speed`: the rate scaled to a unit (the `"%.2s"` rendering is not modelled). */
  function Speed(sizePerSec: real): (r: Reading)
    ensures IsScaled(sizePerSec, r)
    ensures sizePerSec <= Base ==> r == Reading(sizePerSec, 0)
  {
    var r := Step(sizePerSec, 0);
    if sizePerSec <= Base then SmallRateInBytes(sizePerSec, r); r else r
  }

  /** The Python loop and the Rust loop compute the same reading: any reading
      meeting the loop's exit conditions is the one `Speed` returns. */
  lemma SpeedMatchesAnyScaling(x: real, r: Reading)
    requires IsScaled(x, r)
    ensures r == Speed(x)
  {
    ScaledUnique(x, r, Speed(x));
  }

  /** Python's `ZeroDivisionError`, the only failure the record builder has. */
  datatype PyError = ZeroDivisionError

  /** The dictionary `hash_brenchmark` returns. */
  datatype Record = Record(
    name: string,
    size: nat,
    seed: int,
    durationNs: nat,
    sizePerSec: real,
    speed: Reading,
    res: int)

  /** `hash_brenchmark`: `func` is called once on the data and the seed; a
      zero elapsed time makes the rate a division by zero, which raises. */
  function HashBenchmark(name: string, data: seq<byte>, seed: int, func: (seq<byte>, int) -> int,
                         durationNs: nat): (r: Result<Record, PyError>)
    ensures r.Err? <==> durationNs == 0
    ensures r.Ok? ==> r.value.name == name && r.value.size == |data| && r.value.seed == seed
    ensures r.Ok? ==> r.value.durationNs == durationNs && r.value.res == func(data, seed)
    ensures r.Ok? ==> r.value.sizePerSec == Rate(|data|, durationNs)
    ensures r.Ok? ==> IsScaled(r.value.sizePerSec, r.value.speed)
  {
    var res := func(data, seed);
    if durationNs == 0 then Err(ZeroDivisionError)
    else
      var sizePerSec := Rate(|data|, durationNs);
      Ok(Record(name, |data|, seed, durationNs, sizePerSec, Speed(sizePerSec), res))
  }

  /** `Random(seed).randbytes(size)`, position by position; its internals are
      not modelled. */
  type PyRng = (int, nat) -> nat -> byte

  /** The data `test_brenchmark` hashes: the fixed 62-byte text for size zero
      (the same literal as the Rust test vector), otherwise `size` bytes of
      the seeded generator. */
  function TestData(rng: PyRng, size: nat, seed: int): (data: seq<byte>)
    ensures size == 0 ==> IsAscii(TestText) && data == AsciiBytes(TestText) && |data| == 62
    ensures size > 0 ==> |data| == size
    ensures size > 0 ==> forall i :: 0 <= i < size ==> data[i] == rng(seed, size)(i)
  {
    if size > 0 then seq(size, i requires 0 <= i < size => rng(seed, size)(i))
    else TestTextIsAscii(); AsciiBytes(TestText)
  }

  /** The names of the six functions, in the order the generator yields them. */
  const Algorithms: seq<string> := [
    "mmh3_32_uintdigest", "mmh3_x64_128_uintdigest", "mmh3_x86_128_uintdigest",
    "xxh32_intdigest", "xxh3_64_intdigest", "xxh3_128_intdigest"]

  /** The mmh3 and xxhash functions, keyed by name, and the generator. */
  datatype PyExternals = PyExternals(rng: PyRng, hash: string -> (seq<byte>, int) -> int)

  /** What a consumer of the generator sees: the records yielded, and the
      exception that ended it early, if any. */
  datatype Yielded = Yielded(records: seq<Record>, raised: Option<PyError>)

  /** The generator over the functions `names` from entry `i` on: it yields one record per entry until an
      entry's elapsed time is zero, which raises instead. */
  function YieldFrom(ext: PyExternals, names: seq<string>, data: seq<byte>, seed: int, elapsed: nat -> nat, i: nat): (y: Yielded)
    requires i <= |names|
    ensures |y.records| <= |names| - i
    ensures forall k :: 0 <= k < |y.records| ==>
      y.records[k].name == names[i + k] && y.records[k].size == |data| && y.records[k].seed == seed
      && y.records[k].durationNs == elapsed(i + k) > 0 && y.records[k].res == ext.hash(names[i + k])(data, seed)
    ensures y.raised.None? <==> |y.records| == |names| - i
    ensures y.raised.Some? ==> elapsed(i + |y.records|) == 0
    decreases |names| - i
  {
    if i == |names| then Yielded([], None)
    else
      var name := names[i];
      match HashBenchmark(name, data, seed, ext.hash(name), elapsed(i))
      case Err(e) => Yielded([], Some(e))
      case Ok(record) =>
        var rest := YieldFrom(ext, names, data, seed, elapsed, i + 1);
        var records := [record] + rest.records;
        forall k | 0 <= k < |records|
          ensures records[k].name == names[i + k] && records[k].size == |data| && records[k].seed == seed
          ensures records[k].durationNs == elapsed(i + k) > 0
          ensures records[k].res == ext.hash(names[i + k])(data, seed)
        {
          if k > 0 {
            assert records[k] == rest.records[(k - 1)];
            assert i + 1 + (k - 1) == i + k;
          }
        }
        Yielded(records, rest.raised)
  }

  /** `test_brenchmark`: the data is built once from size and seed; the six
      functions run on it in order. It runs to completion exactly when no
      elapsed time is zero, and otherwise stops at the first zero. */
  function TestBrenchmark(ext: PyExternals, size: nat, seed: int, elapsed: nat -> nat): (y: Yielded)
    ensures |y.records| <= 6
    ensures forall k :: 0 <= k < |y.records| ==>
      y.records[k].name == Algorithms[k] && y.records[k].size == |TestData(ext.rng, size, seed)|
      && y.records[k].seed == seed
    ensures forall k :: 0 <= k < |y.records| ==>
      y.records[k].res == ext.hash(Algorithms[k])(TestData(ext.rng, size, seed), seed)
      && y.records[k].durationNs == elapsed(k)
    ensures y.raised.None? <==> (forall k :: 0 <= k < 6 ==> elapsed(k) > 0)
    ensures y.raised.None? <==> |y.records| == 6
    ensures y.raised.Some? ==> elapsed(|y.records|) == 0 && forall k :: 0 <= k < |y.records| ==> elapsed(k) > 0
  {
    var y := YieldFrom(ext, Algorithms, TestData(ext.rng, size, seed), seed, elapsed, 0);
    assert forall k :: 0 <= k < |y.records| ==> elapsed(k) > 0 by {
      forall k | 0 <= k < |y.records| ensures elapsed(k) > 0 {
        assert y.records[k].durationNs == elapsed(0 + k) > 0;
      }
    }
    y
  }

  /** At size zero every record reports 62 bytes, the length of the fixed
      text, whatever the seed. */
  lemma ZeroSizeRecords(ext: PyExternals, seed: int, elapsed: nat -> nat)
    ensures forall k :: 0 <= k < |TestBrenchmark(ext, 0, seed, elapsed).records| ==>
      TestBrenchmark(ext, 0, seed, elapsed).records[k].size == 62
  {
  }
}
