/**
 * The decision structure of the lux computation: which branch of the
 * piecewise approximation a pair of raw channel readings selects, and when
 * the result is 0. The ratio tests `data1 / data0 < k / 100` are written
 * cross-multiplied, `100 * data1 < k * data0`, so they stay in integers.
 */
module LuxRegions {
  import opened Registers

  /** A raw sixteen-bit channel count. */
  type UShort = x: int | 0 <= x < 0x1_0000

  /** The reading a saturated channel returns. */
  const SATURATED: UShort := 0xFFFF

  /** Zero: the result is 0.0. BranchN: the N-th formula computes the result. */
  datatype Region = Zero | Branch1 | Branch2 | Branch3 | Branch4

  /** Nominal integration time in milliseconds; 0 stands for Manual, whose time is unknown. */
  function Milliseconds(t: IntegrationTiming): (ms: nat)
    ensures ms == 0 <==> t == Manual
    ensures ms <= 402
  {
    match t
    case Ms13 => 14
    case Ms101 => 101
    case Ms402 => 402
    case Manual => 0
  }

  /** Branch selection by ratio = data1 / data0 against 0.50, 0.61, 0.80 and 1.30. */
  function RatioRegion(data0: nat, data1: nat): (r: Region)
    ensures r == Zero <==> 100 * data1 >= 130 * data0
  {
    if 100 * data1 < 50 * data0 then Branch1
    else if 100 * data1 < 61 * data0 then Branch2
    else if 100 * data1 < 80 * data0 then Branch3
    else if 100 * data1 < 130 * data0 then Branch4
    else Zero
  }

  /** The region the lux computation lands in for channel counts data0, data1 and a timing. */
  function Classify(data0: UShort, data1: UShort, timing: IntegrationTiming): (r: Region)
    ensures r == Zero <==>
      data0 == SATURATED || data1 == SATURATED || timing == Manual
      || data0 == 0 || 100 * data1 >= 130 * data0
  {
    if data0 == SATURATED || data1 == SATURATED then Zero
    else if Milliseconds(timing) == 0 then Zero
    else RatioRegion(data0, data1)
  }

  /** Reference definition: the branch chosen by the real-valued ratio. */
  ghost function RegionOfRatio(ratio: real): Region {
    if ratio < 0.50 then Branch1
    else if ratio < 0.61 then Branch2
    else if ratio < 0.80 then Branch3
    else if ratio < 1.30 then Branch4
    else Zero
  }

  /** For a positive denominator, comparing the quotient equals comparing the cross products. */
  lemma QuotientBelow(data0: nat, data1: nat, k: nat)
    requires data0 > 0
    ensures data1 as real / data0 as real < k as real / 100.0 <==> 100 * data1 < k * data0
  {
  }

  /** The cross-multiplied tests select the same branch as the real-valued ratio. */
  lemma CrossMultiplicationExact(data0: nat, data1: nat)
    requires data0 > 0
    ensures RatioRegion(data0, data1) == RegionOfRatio(data1 as real / data0 as real)
  {
    QuotientBelow(data0, data1, 50);
    QuotientBelow(data0, data1, 61);
    QuotientBelow(data0, data1, 80);
    QuotientBelow(data0, data1, 130);
  }

  /**
   * With no broadband count every test fails, as every comparison with the
   * infinite or undefined quotient does, and the result is 0.
   */
  lemma NoBroadbandIsZero(data1: nat)
    ensures RatioRegion(0, data1) == Zero
  {
  }

  /**
   * Outside the zero cases (a saturated channel, Manual timing, no broadband
   * count), the lux computation takes the branch the real-valued ratio selects.
   */
  lemma ClassifyFollowsRatio(data0: UShort, data1: UShort, timing: IntegrationTiming)
    requires data0 > 0 && data0 != SATURATED && data1 != SATURATED && timing != Manual
    ensures Classify(data0, data1, timing) == RegionOfRatio(data1 as real / data0 as real)
  {
    CrossMultiplicationExact(data0, data1);
  }

  /** A ratio exactly at a threshold selects the branch above it. */
  lemma BoundariesGoUp(n: nat)
    requires n > 0
    ensures RatioRegion(100 * n, 50 * n) == Branch2
    ensures RatioRegion(100 * n, 61 * n) == Branch3
    ensures RatioRegion(100 * n, 80 * n) == Branch4
    ensures RatioRegion(100 * n, 130 * n) == Zero
  {
  }

  /** Position of a region along increasing ratio; Zero (ratio >= 1.30) comes last. */
  function Rank(r: Region): nat {
    match r
    case Branch1 => 1
    case Branch2 => 2
    case Branch3 => 3
    case Branch4 => 4
    case Zero => 5
  }

  /** More infrared against the same broadband count never moves to a lower branch. */
  lemma RegionMonotone(data0: nat, data1: nat, data1': nat)
    requires data0 > 0 && data1 <= data1'
    ensures Rank(RatioRegion(data0, data1)) <= Rank(RatioRegion(data0, data1'))
  {
  }
}
