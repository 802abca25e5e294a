/**
 * The class-level constants of ParameterGenerator (param_generator.py): the
 * wall clearance step, the two weighted value pools whose repetitions encode
 * probability mass, the noise distance range, and the noise distance grid
 * that gen_noise_sources_list builds with np.arange.
 */
module Distributions {
  import opened Geometry

  /** `ParameterGenerator.step`: the grid step and the wall clearance. */
  const Step: real := 0.5

  /** `noise_distance_range = [0.5, 7.5]`. */
  const NoiseDistanceRange: Range := Range(0.5, 7.5)

  /** n copies of v: one run of equal values of a weighted pool. */
  function Repeat(v: real, n: nat): seq<real> {
    seq(n, _ => v)
  }

  // target_distance_distribute, one run per source line.
  const TargetOnes: seq<real> := Repeat(1.0, 14)
  const TargetTwos: seq<real> := Repeat(2.0, 22)
  const TargetThrees: seq<real> := Repeat(3.0, 29)
  const TargetFours: seq<real> := Repeat(4.0, 21)
  const TargetFives: seq<real> := Repeat(5.0, 9)
  const TargetSixes: seq<real> := Repeat(6.0, 2)
  const TargetSevens: seq<real> := Repeat(7.0, 1)

  /** `target_distance_distribute`: target-to-microphone distances in meters. */
  const TargetDistanceDistribute: seq<real> :=
    TargetOnes + TargetTwos + TargetThrees + TargetFours + TargetFives + TargetSixes + TargetSevens

  /** The frequencies documented beside target_distance_distribute. */
  const TargetDistanceFrequencies: map<real, nat> :=
    map[1.0 := 14, 2.0 := 22, 3.0 := 29, 4.0 := 21, 5.0 := 9, 6.0 := 2, 7.0 := 1]

  // t60_distribute, one run per source line.
  const T60Zeros: seq<real> := Repeat(0.0, 4)
  const T60Tenths: seq<real> := Repeat(0.1, 6)
  const T60Twos: seq<real> := Repeat(0.2, 7)
  const T60Threes: seq<real> := Repeat(0.3, 10)
  const T60Fours: seq<real> := Repeat(0.4, 13)
  const T60Fives: seq<real> := Repeat(0.5, 17)
  const T60Sixes: seq<real> := Repeat(0.6, 17)
  const T60Sevens: seq<real> := Repeat(0.7, 13)
  const T60Eights: seq<real> := Repeat(0.8, 7)
  const T60Nines: seq<real> := Repeat(0.9, 4)

  /** `t60_distribute`: reverberation times in seconds. */
  const T60Distribute: seq<real> :=
    T60Zeros + T60Tenths + T60Twos + T60Threes + T60Fours + T60Fives + T60Sixes + T60Sevens + T60Eights + T60Nines

  /** The frequencies documented beside t60_distribute. */
  const T60Frequencies: map<real, nat> :=
    map[0.0 := 4, 0.1 := 6, 0.2 := 7, 0.3 := 10, 0.4 := 13, 0.5 := 17, 0.6 := 17, 0.7 := 13, 0.8 := 7, 0.9 := 4]

  /** The documented frequency of v, zero for a value the table does not list. */
  function Frequency(table: map<real, nat>, v: real): nat {
    if v in table then table[v] else 0
  }

  /** A run of n copies of v holds v exactly n times and nothing else. */
  lemma {:induction false} RepeatCount(v: real, n: nat, w: real)
    ensures multiset(Repeat(v, n))[w] == if w == v then n else 0
  {
    if n > 0 {
      assert Repeat(v, n) == Repeat(v, n - 1) + [v];
      RepeatCount(v, n - 1, w);
    }
  }

  lemma RunCount(run: seq<real>, v: real, n: nat, w: real)
    requires run == Repeat(v, n)
    ensures multiset(run)[w] == if w == v then n else 0
  {
    RepeatCount(v, n, w);
  }

  /** Every value occurs in target_distance_distribute exactly as often as its comment says. */
  lemma TargetDistanceMatchesFrequencies(v: real)
    ensures multiset(TargetDistanceDistribute)[v] == Frequency(TargetDistanceFrequencies, v)
  {
    TargetDistanceRunTotals(v);
    TargetDistanceTable(v);
  }

  lemma TargetDistanceRunTotals(v: real)
    ensures multiset(TargetDistanceDistribute)[v] ==
      (if v == 1.0 then 14 else 0) + (if v == 2.0 then 22 else 0) + (if v == 3.0 then 29 else 0)
      + (if v == 4.0 then 21 else 0) + (if v == 5.0 then 9 else 0) + (if v == 6.0 then 2 else 0)
      + (if v == 7.0 then 1 else 0)
  {
    TargetRunTotalsOf(TargetOnes, TargetTwos, TargetThrees, TargetFours, TargetFives, TargetSixes, TargetSevens, v);
  }

  lemma TargetRunTotalsOf(r1: seq<real>, r2: seq<real>, r3: seq<real>, r4: seq<real>, r5: seq<real>,
                        r6: seq<real>, r7: seq<real>, v: real)
    requires r1 == Repeat(1.0, 14) && r2 == Repeat(2.0, 22) && r3 == Repeat(3.0, 29) && r4 == Repeat(4.0, 21)
    requires r5 == Repeat(5.0, 9) && r6 == Repeat(6.0, 2) && r7 == Repeat(7.0, 1)
    ensures multiset(r1 + r2 + r3 + r4 + r5 + r6 + r7)[v] ==
      (if v == 1.0 then 14 else 0) + (if v == 2.0 then 22 else 0) + (if v == 3.0 then 29 else 0)
      + (if v == 4.0 then 21 else 0) + (if v == 5.0 then 9 else 0) + (if v == 6.0 then 2 else 0)
      + (if v == 7.0 then 1 else 0)
  {
    RunCount(r1, 1.0, 14, v);
    RunCount(r2, 2.0, 22, v);
    RunCount(r3, 3.0, 29, v);
    RunCount(r4, 4.0, 21, v);
    RunCount(r5, 5.0, 9, v);
    RunCount(r6, 6.0, 2, v);
    RunCount(r7, 7.0, 1, v);
  }

  lemma TargetDistanceTable(v: real)
    ensures Frequency(TargetDistanceFrequencies, v) ==
      (if v == 1.0 then 14 else 0) + (if v == 2.0 then 22 else 0) + (if v == 3.0 then 29 else 0)
      + (if v == 4.0 then 21 else 0) + (if v == 5.0 then 9 else 0) + (if v == 6.0 then 2 else 0)
      + (if v == 7.0 then 1 else 0)
  {
  }

  /** Every value occurs in t60_distribute exactly as often as its comment says. */
  lemma T60MatchesFrequencies(v: real)
    ensures multiset(T60Distribute)[v] == Frequency(T60Frequencies, v)
  {
    T60RunTotals(v);
    T60Table(v);
  }

  lemma T60RunTotals(v: real)
    ensures multiset(T60Distribute)[v] ==
      (if v == 0.0 then 4 else 0) + (if v == 0.1 then 6 else 0) + (if v == 0.2 then 7 else 0)
      + (if v == 0.3 then 10 else 0) + (if v == 0.4 then 13 else 0) + (if v == 0.5 then 17 else 0)
      + (if v == 0.6 then 17 else 0) + (if v == 0.7 then 13 else 0) + (if v == 0.8 then 7 else 0)
      + (if v == 0.9 then 4 else 0)
  {
    T60RunTotalsOf(T60Zeros, T60Tenths, T60Twos, T60Threes, T60Fours, T60Fives, T60Sixes, T60Sevens,
                   T60Eights, T60Nines, v);
  }

  lemma T60RunTotalsOf(r0: seq<real>, r1: seq<real>, r2: seq<real>, r3: seq<real>, r4: seq<real>,
                       r5: seq<real>, r6: seq<real>, r7: seq<real>, r8: seq<real>, r9: seq<real>, v: real)
    requires r0 == Repeat(0.0, 4) && r1 == Repeat(0.1, 6) && r2 == Repeat(0.2, 7) && r3 == Repeat(0.3, 10)
    requires r4 == Repeat(0.4, 13) && r5 == Repeat(0.5, 17) && r6 == Repeat(0.6, 17) && r7 == Repeat(0.7, 13)
    requires r8 == Repeat(0.8, 7) && r9 == Repeat(0.9, 4)
    ensures multiset(r0 + r1 + r2 + r3 + r4 + r5 + r6 + r7 + r8 + r9)[v] ==
      (if v == 0.0 then 4 else 0) + (if v == 0.1 then 6 else 0) + (if v == 0.2 then 7 else 0)
      + (if v == 0.3 then 10 else 0) + (if v == 0.4 then 13 else 0) + (if v == 0.5 then 17 else 0)
      + (if v == 0.6 then 17 else 0) + (if v == 0.7 then 13 else 0) + (if v == 0.8 then 7 else 0)
      + (if v == 0.9 then 4 else 0)
  {
    RunCount(r0, 0.0, 4, v);
    RunCount(r1, 0.1, 6, v);
    RunCount(r2, 0.2, 7, v);
    RunCount(r3, 0.3, 10, v);
    RunCount(r4, 0.4, 13, v);
    RunCount(r5, 0.5, 17, v);
    RunCount(r6, 0.6, 17, v);
    RunCount(r7, 0.7, 13, v);
    RunCount(r8, 0.8, 7, v);
    RunCount(r9, 0.9, 4, v);
  }

  lemma T60Table(v: real)
    ensures Frequency(T60Frequencies, v) ==
      (if v == 0.0 then 4 else 0) + (if v == 0.1 then 6 else 0) + (if v == 0.2 then 7 else 0)
      + (if v == 0.3 then 10 else 0) + (if v == 0.4 then 13 else 0) + (if v == 0.5 then 17 else 0)
      + (if v == 0.6 then 17 else 0) + (if v == 0.7 then 13 else 0) + (if v == 0.8 then 7 else 0)
      + (if v == 0.9 then 4 else 0)
  {
  }

  /** Every target distance is a whole number of metres from 1 to 7. */
  lemma TargetDistanceBetween(r: real)
    requires r in TargetDistanceDistribute
    ensures 1.0 <= r <= 7.0
  {
    TargetDistanceRunTotals(r);
  }

  /** Every reverberation time lies between 0.0 and 0.9 seconds. */
  lemma T60Between(v: real)
    requires v in T60Distribute
    ensures 0.0 <= v <= 0.9
  {
    T60RunTotals(v);
  }

  /** Both pools hold 98 draws, the total mass of their documented tables. */
  lemma PoolSizes()
    ensures |TargetDistanceDistribute| == 98 && |T60Distribute| == 98
  {
  }

  /** The least integer not below x. */
  function Ceil(x: real): (c: int)
    ensures x <= c as real < x + 1.0
  {
    -((-x).Floor)
  }

  /** The number of values `np.arange(start, stop, step)` yields: ceil((stop - start) / step), or none. */
  function ArangeLength(start: real, stop: real, step: real): (n: nat)
    requires 0.0 < step
    ensures n == 0 <==> stop <= start
  {
    if stop <= start then 0
    else
      var d := (stop - start) / step;
      assert d * step == stop - start;
      assert 0.0 < d;
      Ceil(d)
  }

  /** `np.arange(start, stop, step)`: start, start + step, ... while below stop. */
  function Arange(start: real, stop: real, step: real): seq<real>
    requires 0.0 < step
  {
    seq(ArangeLength(start, stop, step), k => start + k as real * step)
  }

  lemma MulStrict(a: real, b: real, c: real)
    requires a < b && 0.0 < c
    ensures a * c < b * c
  {
    assert b * c - a * c == (b - a) * c;
  }

  /** Every value of the grid is `start + k * step` and lies in [start, stop). */
  lemma ArangeWithin(start: real, stop: real, step: real, k: nat)
    requires 0.0 < step
    requires k < |Arange(start, stop, step)|
    ensures Arange(start, stop, step)[k] == start + k as real * step
    ensures start <= Arange(start, stop, step)[k] < stop
  {
    assert start < stop;
    var d := (stop - start) / step;
    assert d * step == stop - start;
    assert |Arange(start, stop, step)| == Ceil(d);
    assert (k as real) < d;
    MulStrict(k as real, d, step);
    assert k as real * step < stop - start;
    assert 0.0 <= k as real * step;
  }

  /** The grid misses no step below stop: `start + k * step < stop` makes k an index of it. */
  lemma ArangeComplete(start: real, stop: real, step: real, k: nat)
    requires 0.0 < step
    requires start + k as real * step < stop
    ensures k < |Arange(start, stop, step)|
    ensures Arange(start, stop, step)[k] == start + k as real * step
  {
    var d := (stop - start) / step;
    assert d * step == stop - start;
    if d <= k as real {
      assert d * step <= k as real * step;
    }
  }

  /** The grid's stop in gen_noise_sources_list: max_distance, capped at 7.5. */
  function NoiseStop(maxDistance: real): (stop: real)
    ensures stop <= NoiseDistanceRange.hi && stop <= maxDistance
    ensures stop == maxDistance || stop == NoiseDistanceRange.hi
  {
    if maxDistance <= NoiseDistanceRange.hi then maxDistance else NoiseDistanceRange.hi
  }

  /** `noise_distance_distribute`: `np.arange(0.5, NoiseStop(max_distance), step)`. */
  function NoiseDistanceDistribute(maxDistance: real): seq<real> {
    Arange(NoiseDistanceRange.lo, NoiseStop(maxDistance), Step)
  }

  /**
   * The noise distance grid holds exactly the values 0.5 + 0.5 k below
   * min(max_distance, 7.5): each radius it offers is at least 0.5 and falls
   * short of both 7.5 and max_distance.
   */
  lemma NoiseGridBounds(maxDistance: real, k: nat)
    requires k < |NoiseDistanceDistribute(maxDistance)|
    ensures NoiseDistanceDistribute(maxDistance)[k] == 0.5 + 0.5 * k as real
    ensures 0.5 <= NoiseDistanceDistribute(maxDistance)[k]
    ensures NoiseDistanceDistribute(maxDistance)[k] < 7.5
    ensures NoiseDistanceDistribute(maxDistance)[k] < maxDistance
  {
    ArangeWithin(NoiseDistanceRange.lo, NoiseStop(maxDistance), Step, k);
  }

  /** Every 0.5 + 0.5 k below min(max_distance, 7.5) is offered by the noise grid. */
  lemma NoiseGridComplete(maxDistance: real, k: nat)
    requires 0.5 + 0.5 * k as real < maxDistance && 0.5 + 0.5 * k as real < 7.5
    ensures k < |NoiseDistanceDistribute(maxDistance)|
    ensures NoiseDistanceDistribute(maxDistance)[k] == 0.5 + 0.5 * k as real
  {
    ArangeComplete(NoiseDistanceRange.lo, NoiseStop(maxDistance), Step, k);
  }

  /** The noise grid is empty exactly when min(max_distance, 7.5) is at most 0.5. */
  lemma NoiseGridEmptyIff(maxDistance: real)
    ensures |NoiseDistanceDistribute(maxDistance)| == 0 <==> maxDistance <= 0.5
  {
  }

  /** Any radius drawn from the noise grid is in [0.5, 7.5) and below max_distance. */
  lemma NoiseRadiusBounds(maxDistance: real, r: real)
    requires r in NoiseDistanceDistribute(maxDistance)
    ensures 0.5 <= r < 7.5 && r < maxDistance
  {
    var k :| 0 <= k < |NoiseDistanceDistribute(maxDistance)| && NoiseDistanceDistribute(maxDistance)[k] == r;
    NoiseGridBounds(maxDistance, k);
  }
}
