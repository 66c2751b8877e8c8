/**
 * The sizes for which the latency sweep measures: four steps from each power of
 * two to the next, up to the first size that reaches the end of the memory.
 */
module LatMemRd {
  import opened Bits

  const MIN_RANGE: nat := 4096

  /** Size number t of the sweep. */
  function Size(t: nat): (n: nat)
    ensures n > 0
  {
    (4 + t % 4) * Pow2(10 + t / 4)
  }

  function StepAt(t: nat): nat {
    Pow2(10 + t / 4)
  }

  lemma SizeForm(t: nat)
    ensures Size(t) == Pow2(12 + t / 4) + (t % 4) * Pow2(12 + t / 4 - 2)
  {
    var p := Pow2(10 + t / 4);
    assert Pow2(12 + t / 4) == 4 * p;
    assert (4 + t % 4) * p == 4 * p + (t % 4) * p;
  }

  lemma SizeGrows(t: nat)
    ensures Size(t + 1) == Size(t) + StepAt(t)
    ensures StepAt(t + 1) == if (t + 1) % 4 == 0 then 2 * StepAt(t) else StepAt(t)
  {
    var p := StepAt(t);
    if (t + 1) % 4 == 0 {
      assert (t + 1) / 4 == t / 4 + 1;
      assert Size(t) == 7 * p && Size(t + 1) == 4 * (2 * p);
    } else {
      assert (t + 1) / 4 == t / 4 && (t + 1) % 4 == t % 4 + 1;
      assert (4 + t % 4 + 1) * p == (4 + t % 4) * p + p;
    }
  }

  lemma {:induction false} SizesIncrease(s: nat, t: nat)
    requires s < t
    ensures Size(s) + 1024 * (t - s) <= Size(t)
  {
    SizeGrows(t - 1);
    Pow2Monotone(10, 10 + (t - 1) / 4);
    assert Pow2(10) == 1024 by { assert Pow2(5) == 32; Pow2Sum(5, 5); }
    if s < t - 1 {
      SizesIncrease(s, t - 1);
    }
  }

  lemma BetweenPowers(m: nat, k: nat)
    ensures !(Pow2(m) < Pow2(k) < Pow2(m + 1))
  {
    if k <= m {
      Pow2Monotone(k, m);
    } else {
      Pow2Monotone(m + 1, k);
    }
  }

  lemma SizeBounds(t: nat)
    ensures var m := 12 + t / 4;
            if t % 4 == 0 then Size(t) == Pow2(m) else Pow2(m) < Size(t) < Pow2(m + 1)
  {
    SizeForm(t);
    var q := Pow2(12 + t / 4 - 2);
    assert Pow2(12 + t / 4) == 4 * q && Pow2(12 + t / 4 + 1) == 8 * q by { FourTimes(12 + t / 4); }
    assert t % 4 == 1 ==> Size(t) == 5 * q;
    assert t % 4 == 2 ==> Size(t) == 6 * q;
    assert t % 4 == 3 ==> Size(t) == 7 * q;
  }

  lemma FourTimes(m: nat)
    requires m >= 2
    ensures Pow2(m) == 4 * Pow2(m - 2) && Pow2(m + 1) == 8 * Pow2(m - 2)
  {
    assert Pow2(m - 1) == 2 * Pow2(m - 2);
    assert Pow2(m + 1) == 2 * Pow2(m);
  }

  /** Every fourth size is a power of two, and no other one is. */
  lemma PowerIffFourth(t: nat)
    ensures IsPowerOfTwo(Size(t)) <==> t % 4 == 0
  {
    SizeBounds(t);
    forall k: nat | t % 4 != 0 ensures Pow2(k) != Size(t) {
      BetweenPowers(12 + t / 4, k);
    }
  }

  ghost predicate IsSweep(ranges: seq<nat>, n: nat) {
    |ranges| == n && forall t :: 0 <= t < n ==> ranges[t] == Size(t)
  }

  lemma SizeAtPower(k: nat)
    requires k >= 12
    ensures Size(4 * (k - 12)) == Pow2(k)
  {
    var t := 4 * (k - 12);
    assert t % 4 == 0 && t / 4 == k - 12;
    SizeBounds(t);
  }

  /** The sweep holds every power of two from its first size to its last. */
  lemma PowersAreMeasured(ranges: seq<nat>, k: nat)
    requires IsSweep(ranges, |ranges|) && k >= 12 && ranges != [] && Pow2(k) <= ranges[|ranges| - 1]
    ensures Pow2(k) in ranges
  {
    var t := 4 * (k - 12);
    SizeAtPower(k);
    var last := |ranges| - 1;
    if last < t {
      SizesIncrease(last, t);
    } else {
      assert ranges[t] == Pow2(k);
    }
  }

  /** When the memory ends at a power of two of at least 4096, the sweep ends exactly there. */
  lemma SweepEndsAtPower(ranges: seq<nat>, k: nat)
    requires IsSweep(ranges, |ranges|) && k >= 12 && ranges != []
    requires ranges[|ranges| - 1] >= Pow2(k)
    requires forall t :: 0 <= t < |ranges| - 1 ==> ranges[t] < Pow2(k)
    ensures ranges[|ranges| - 1] == Pow2(k)
  {
    PowersAreMeasured(ranges, k);
    var t :| 0 <= t < |ranges| && ranges[t] == Pow2(k);
    assert t == |ranges| - 1;
  }

  method IsPow2(num: nat) returns (b: bool)
    ensures b <==> IsPowerOfTwo(num)
  {
    PowerOfTwoTest(num);
    b := num != 0 && BitAnd(num, num - 1) == 0;
  }

  /** Stops at the first size that reaches the end of the memory. */
  method Ranges(maxRange: int) returns (ranges: seq<nat>)
    ensures ranges != [] && IsSweep(ranges, |ranges|)
    ensures ranges[|ranges| - 1] >= maxRange
    ensures forall t :: 0 <= t < |ranges| - 1 ==> ranges[t] < maxRange
    ensures forall s, t :: 0 <= s < t < |ranges| ==> ranges[s] < ranges[t]
  {
    FirstSize();
    ranges := [MIN_RANGE];
    var step, last := 1024, MIN_RANGE;
    ghost var n := 0;
    while last < maxRange
      invariant |ranges| == n + 1 && IsSweep(ranges, n + 1) && last == ranges[n]
      invariant step == StepAt(n)
      invariant forall t :: 0 <= t < n ==> ranges[t] < maxRange
      decreases maxRange - last
    {
      SizeGrows(n);
      PowerIffFourth(n + 1);
      var newRange := last + step;
      var pow2 := IsPow2(newRange);
      if pow2 {
        step := step * 2;
      }
      ranges, last, n := ranges + [newRange], newRange, n + 1;
    }
    forall s, t | 0 <= s < t < |ranges| ensures ranges[s] < ranges[t] {
      SizesIncrease(s, t);
    }
  }

  lemma FirstSize()
    ensures Size(0) == MIN_RANGE && StepAt(0) == 1024
  {
    assert Pow2(5) == 32;
    Pow2Sum(5, 5);
  }
}
