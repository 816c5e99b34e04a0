/** The human-scaled throughput shared by `Stat::speed` and the Python
    `speed`: divide by 1024 and step to the next unit while the value exceeds
    1024 and a larger unit remains. Values are exact reals, not floats. */
module Units {

  const UnitNames: seq<string> := ["B", "KB", "MB", "GB", "TB", "PB", "EB", "YB", "BB"]

  const Base: real := 1024.0

  const NanosPerSecond: real := 1000000000.0

  /** Bytes per second for `len` bytes handled in `durationNs` nanoseconds,
      computed as both programs do, `1e9 / duration * len`: rate times
      elapsed seconds is the byte count. A zero duration is excluded. */
  function Rate(len: nat, durationNs: nat): (rate: real)
    requires durationNs > 0
    ensures rate >= 0.0
    ensures rate * (durationNs as real) == NanosPerSecond * (len as real)
  {
    var q := NanosPerSecond / durationNs as real;
    assert q * (durationNs as real) == NanosPerSecond;
    q * len as real
  }

  /** `Base` to the power `k`. */
  function Pow(k: nat): (p: real)
    ensures p >= 1.0
  {
    if k == 0 then 1.0 else Base * Pow(k - 1)
  }

  /** `x` divided `k` times by `Base`: the value after `k` passes of the loop. */
  function Shrink(x: real, k: nat): real {
    if k == 0 then x else Shrink(x, k - 1) / Base
  }

  /** The scaled value times 1024 to the unit index is the input. */
  lemma {:induction false} ShrinkTimesPow(x: real, k: nat)
    ensures Shrink(x, k) * Pow(k) == x
  {
    if k > 0 {
      ShrinkTimesPow(x, k - 1);
      var s := Shrink(x, k - 1);
      var p := Pow(k - 1);
      assert Shrink(x, k) * Pow(k) == (s / Base) * (Base * p);
      assert (s / Base) * (Base * p) == s * p;
    }
  }

  /** Dividing first and then `k` times is dividing `k + 1` times. */
  lemma {:induction false} ShrinkShift(x: real, k: nat)
    ensures Shrink(x / Base, k) == Shrink(x, k + 1)
  {
    if k > 0 {
      ShrinkShift(x, k - 1);
    }
  }

  /** Once the value is at most 1024, one more division leaves it at most 1,
      and further divisions keep it there. */
  lemma {:induction false} ShrinkStaysSmall(x: real, j: nat, k: nat)
    requires j < k && Shrink(x, j) <= Base
    ensures Shrink(x, k) <= 1.0
    decreases k
  {
    if j + 1 < k {
      ShrinkStaysSmall(x, j, k - 1);
    }
  }

  /** A scaled value and the index of its unit in `UnitNames`. */
  datatype Reading = Reading(value: real, unitIndex: nat) {
    /** The unit's name, as the rendered text shows it. */
    function Unit(): string
      requires unitIndex < |UnitNames|
    {
      UnitNames[unitIndex]
    }
  }

  /** What the loop guarantees on exit: a valid unit index, the value is the
      input divided that many times by 1024, the value is at most 1024 unless
      the last unit was reached, and a step was only taken from a value above 1024. */
  predicate IsScaled(x: real, r: Reading) {
    && r.unitIndex < |UnitNames|
    && r.value == Shrink(x, r.unitIndex)
    && (r.unitIndex + 1 < |UnitNames| ==> r.value <= Base)
    && (r.unitIndex > 0 ==> r.value > 1.0)
  }

  /** A scaled reading stands for its input: value times 1024^index is the input. */
  lemma ScaledValue(x: real, r: Reading)
    requires IsScaled(x, r)
    ensures r.value * Pow(r.unitIndex) == x
  {
    ShrinkTimesPow(x, r.unitIndex);
  }

  /** The exit conditions pin the reading down: there is only one. */
  lemma ScaledUnique(x: real, r1: Reading, r2: Reading)
    requires IsScaled(x, r1) && IsScaled(x, r2)
    ensures r1 == r2
  {
    if r1.unitIndex < r2.unitIndex {
      ShrinkStaysSmall(x, r1.unitIndex, r2.unitIndex);
      assert false;
    } else if r2.unitIndex < r1.unitIndex {
      ShrinkStaysSmall(x, r2.unitIndex, r1.unitIndex);
      assert false;
    }
  }

  /** A rate of at most 1024 is read in bytes, unchanged. */
  lemma SmallRateInBytes(x: real, r: Reading)
    requires IsScaled(x, r) && x <= Base
    ensures r == Reading(x, 0)
  {
    assert IsScaled(x, Reading(x, 0));
    ScaledUnique(x, r, Reading(x, 0));
  }
}
