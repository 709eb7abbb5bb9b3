/**
 * Progress bucketing: `get_closest_percent` walks the constant tuple of
 * thresholds 0, 10, ..., 100 in ascending order and returns the first
 * threshold `p` with `percent - p < 10`; when none qualifies it falls off the
 * end of the loop and returns `None`.
 */
module Progress {
  import opened Wrappers

  const PERCENTS: seq<int> := [0, 10, 20, 30, 40, 50, 60, 70, 80, 90, 100]

  /** The thresholds are the multiples of ten from 0 to 100, in ascending order. */
  lemma PercentsAreTens()
    ensures |PERCENTS| == 11
    ensures forall k :: 0 <= k < |PERCENTS| ==> PERCENTS[k] == 10 * k
  {
  }

  /** The early-return loop of `get_closest_percent`, resumed at position `j` of `PERCENTS`. */
  function SearchFrom(percent: real, j: nat): (r: Option<int>)
    requires j <= |PERCENTS|
    decreases |PERCENTS| - j
    ensures r.Some? ==> r.value in PERCENTS[j..] && percent - r.value as real < 10.0
    ensures r.None? <==> j == |PERCENTS| || percent >= 110.0
  {
    PercentsAreTens();
    if j == |PERCENTS| then None
    else if percent - PERCENTS[j] as real < 10.0 then Some(PERCENTS[j])
    else SearchFrom(percent, j + 1)
  }

  /** `get_closest_percent(percent)`: the lowest threshold that `percent` has passed. */
  function GetClosestPercent(percent: real): (r: Option<int>)
    ensures r.Some? ==> r.value in PERCENTS && percent < r.value as real + 10.0
    ensures r.None? <==> percent >= 110.0
  {
    SearchFrom(percent, 0)
  }

  /** Closed form of the search from position `j`: `10 * max(j, floor(percent / 10))`. */
  lemma {:induction false} SearchFromClosedForm(percent: real, j: nat)
    requires j <= 10 && percent < 110.0
    decreases 10 - j
    ensures SearchFrom(percent, j) == Some(10 * if (percent / 10.0).Floor <= j then j else (percent / 10.0).Floor)
  {
    if percent - PERCENTS[j] as real >= 10.0 {
      assert PERCENTS[j] == 10 * j;
      SearchFromClosedForm(percent, j + 1);
    }
  }

  /** Below 110 the result is the multiple of ten just below `percent` (0 for anything under 10). */
  lemma ClosestPercentIsFloor(percent: real)
    requires percent < 110.0
    ensures GetClosestPercent(percent) == Some(10 * if percent < 0.0 then 0 else (percent / 10.0).Floor)
  {
    SearchFromClosedForm(percent, 0);
  }

  /** For a percentage in [0, 110) the returned threshold `r` satisfies `r <= percent < r + 10`. */
  lemma ClosestPercentBrackets(percent: real)
    requires 0.0 <= percent < 110.0
    ensures GetClosestPercent(percent).Some?
    ensures var r := GetClosestPercent(percent).value as real; r <= percent < r + 10.0
  {
    SearchFromClosedForm(percent, 0);
  }

  /** A negative percentage maps to the first threshold, 0. */
  lemma NegativePercentIsZero(percent: real)
    requires percent < 0.0
    ensures GetClosestPercent(percent) == Some(0)
  {
  }

  /** Where both results are defined, a larger percentage never maps to a smaller threshold. */
  lemma ClosestPercentMonotone(p1: real, p2: real)
    requires p1 <= p2
    requires GetClosestPercent(p1).Some? && GetClosestPercent(p2).Some?
    ensures GetClosestPercent(p1).value <= GetClosestPercent(p2).value
  {
    SearchFromClosedForm(p1, 0);
    SearchFromClosedForm(p2, 0);
    assert (p1 / 10.0).Floor <= (p2 / 10.0).Floor;
  }
}
