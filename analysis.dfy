/**
 * Waveform structure analysis (generate_timestamps.py).
 *
 * The decoded mono channel is a sequence of integer samples; the track
 * duration (read from the file's tags) and the tempo in beats per minute are
 * positive real parameters. Reading the file and estimating the tempo happen
 * outside the model.
 */
module Analysis {
  import opened Wrappers

  datatype Level = Low | Medium | High

  datatype AnalysisError =
    | EmptyWaveform    // `max()` of an empty channel raises
    | NoBlockLength    // `count_ >= None`: no sample index spans one 4-bar block
    | NoCompleteBlock  // `max()` of an empty dict of block averages raises

  /** First and last downbeat, in seconds. */
  datatype Window = Window(start: real, finish: real)

  /** Seconds per beat. */
  function BeatLength(bpm: real): (r: real)
    requires bpm > 0.0
    ensures r > 0.0
  {
    1.0 / (bpm / 60.0)
  }

  /** Seconds per 4-bar block of 16 beats. */
  function BlockLength(bpm: real): (r: real)
    requires bpm > 0.0
    ensures r > 0.0
  {
    BeatLength(bpm) * 16.0
  }

  /** Python's `max()` of a non-empty channel. */
  function Peak(data: seq<int>): (m: int)
    requires |data| > 0
    ensures m in data
    ensures forall k :: 0 <= k < |data| ==> data[k] <= m
  {
    if |data| == 1 then data[0]
    else
      var m := Peak(data[..|data| - 1]);
      assert forall k :: 0 <= k < |data| - 1 ==> data[k] == data[..|data| - 1][k];
      if data[|data| - 1] > m then data[|data| - 1] else m
  }

  /** The loudness threshold `highest_db / 1.5`. */
  function Threshold(data: seq<int>): real
    requires |data| > 0
  {
    Peak(data) as real / 1.5
  }

  /** `data[::-1]`. */
  function Reversed(data: seq<int>): (r: seq<int>)
    ensures |r| == |data|
    ensures forall k :: 0 <= k < |data| ==> r[k] == data[|data| - 1 - k]
  {
    seq(|data|, k requires 0 <= k < |data| => data[|data| - 1 - k])
  }

  /**
   * Where `for count, point in enumerate(s): if point >= threshold: break`
   * leaves `count`: the first index at or above the threshold, or the last
   * index when the loop runs to the end. Searched from index `from`.
   */
  function StopIndex(s: seq<int>, threshold: real, from: nat): (c: nat)
    requires from < |s|
    decreases |s| - from
    ensures from <= c < |s|
    ensures forall j :: from <= j < c ==> (s[j] as real) < threshold
    ensures s[c] as real >= threshold || c == |s| - 1
  {
    if s[from] as real >= threshold || from == |s| - 1 then from
    else StopIndex(s, threshold, from + 1)
  }

  /** Converts a sample index to seconds: `index / length * duration`. */
  function Seconds(index: int, length: nat, duration: real): real
    requires length > 0
  {
    index as real / length as real * duration
  }

  /** Indices `0 <= i < j <= length` convert to times `0 <= Seconds(i) < Seconds(j) <= duration`. */
  lemma SecondsOrdered(i: int, j: int, length: nat, duration: real)
    requires length > 0 && duration > 0.0 && 0 <= i < j <= length
    ensures 0.0 <= Seconds(i, length, duration) < Seconds(j, length, duration) <= duration
  {
    var n := length as real;
    assert 0.0 <= i as real / n < j as real / n <= 1.0;
  }

  /** The window `guess_first_and_last_down_beat` computes for a non-empty channel. */
  function WindowOf(data: seq<int>, duration: real): Window
    requires |data| > 0
  {
    var count := StopIndex(data, Threshold(data), 0);
    var count2 := StopIndex(Reversed(data), Threshold(data), 0);
    Window(Seconds(count, |data|, duration), Seconds(|data| - count2, |data|, duration))
  }

  /** The scan loop of lines 29-31 (and, on the reversed channel, 34-36). */
  method ScanForLoud(s: seq<int>, threshold: real) returns (count: nat)
    requires |s| > 0
    ensures count == StopIndex(s, threshold, 0)
  {
    count := 0;
    for k := 0 to |s|
      invariant forall j :: 0 <= j < k ==> (s[j] as real) < threshold
      invariant k > 0 ==> count == k - 1
    {
      count := k;
      if s[k] as real >= threshold {
        break;
      }
    }
    StopIndexUnique(s, threshold, count);
  }

  /** Any index with the stopping property is the one `StopIndex` finds. */
  lemma {:induction false} StopIndexUnique(s: seq<int>, threshold: real, c: nat)
    requires c < |s|
    requires forall j :: 0 <= j < c ==> (s[j] as real) < threshold
    requires s[c] as real >= threshold || c == |s| - 1
    ensures StopIndex(s, threshold, 0) == c
  {
  }

  /**
   * `guess_first_and_last_down_beat`: the first and last sample at or above
   * `max / 1.5`, converted to seconds as `index / len * duration`.
   */
  method GuessFirstAndLastDownBeat(data: seq<int>, duration: real) returns (r: Result<Window, AnalysisError>)
    ensures |data| == 0 <==> r == Failure(EmptyWaveform)
    ensures |data| > 0 ==> r == Success(WindowOf(data, duration))
  {
    if |data| == 0 {
      return Failure(EmptyWaveform);
    }
    var highest := Peak(data);
    var threshold := highest as real / 1.5;
    var count := ScanForLoud(data, threshold);
    var count2 := ScanForLoud(Reversed(data), threshold);
    r := Success(Window(Seconds(count, |data|, duration), Seconds(|data| - count2, |data|, duration)));
  }

  /** A scan over a sequence holding a sample at or above the threshold at `p` stops on such a sample, no later than `p`. */
  lemma StopsOnLoud(s: seq<int>, threshold: real, p: nat)
    requires p < |s| && s[p] as real >= threshold
    ensures var c := StopIndex(s, threshold, 0); s[c] as real >= threshold && c <= p
  {
  }

  /** Both scans stop on a loud sample, and the forward one no later than the backward one. */
  lemma ScansMeet(data: seq<int>, t: real, c: nat, c2: nat)
    requires |data| > 0 && Peak(data) >= 0 && t == Threshold(data)
    requires c == StopIndex(data, t, 0) && c2 == StopIndex(Reversed(data), t, 0)
    ensures data[c] as real >= t
    ensures data[|data| - 1 - c2] as real >= t
    ensures c <= |data| - 1 - c2
  {
    var rev := Reversed(data);
    var p :| 0 <= p < |data| && data[p] == Peak(data);
    assert rev[|data| - 1 - p] as real >= t;
    StopsOnLoud(rev, t, |data| - 1 - p);
    StopsOnLoud(data, t, |data| - 1 - c2);
  }

  /** When the peak is non-negative and the duration positive, `0 <= start < finish <= duration`. */
  lemma WindowBounds(data: seq<int>, duration: real)
    requires |data| > 0 && Peak(data) >= 0 && duration > 0.0
    ensures 0.0 <= WindowOf(data, duration).start
    ensures WindowOf(data, duration).start < WindowOf(data, duration).finish
    ensures WindowOf(data, duration).finish <= duration
  {
    var c := StopIndex(data, Threshold(data), 0);
    var c2 := StopIndex(Reversed(data), Threshold(data), 0);
    ScansMeet(data, Threshold(data), c, c2);
    SecondsOrdered(c, |data| - c2, |data|, duration);
  }

  /**
   * `get_timestamps`: starting at the first downbeat, one timestamp per
   * 16 beats until the last downbeat has been reached or passed.
   */
  method GetTimestamps(data: seq<int>, duration: real, bpm: real) returns (r: Result<seq<real>, AnalysisError>)
    requires bpm > 0.0
    ensures |data| == 0 <==> r == Failure(EmptyWaveform)
    ensures |data| > 0 ==> r.Success?
    ensures r.Success? ==> |data| > 0 && |r.value| > 0
    ensures r.Success? ==> r.value[0] == WindowOf(data, duration).start
    ensures r.Success? ==> forall k :: 0 < k < |r.value| ==> r.value[k] == r.value[k - 1] + BlockLength(bpm)
    ensures r.Success? ==> forall k :: 0 <= k < |r.value| - 1 ==> r.value[k] < WindowOf(data, duration).finish
    ensures r.Success? ==> r.value[|r.value| - 1] >= WindowOf(data, duration).finish
  {
    var w := GuessFirstAndLastDownBeat(data, duration);
    if w.Failure? {
      return Failure(w.error);
    }
    var timestamps := StepUntil(w.value.start, w.value.finish, BlockLength(bpm));
    r := Success(timestamps);
  }

  /** `ts` starts at `first` and climbs by `step`, and its last entry is `first + (|ts| - 1) * step`. */
  ghost predicate Stepped(ts: seq<real>, first: real, step: real)
  {
    && |ts| > 0 && ts[0] == first
    && ts[|ts| - 1] == first + (|ts| - 1) as real * step
    && forall k :: 0 < k < |ts| ==> ts[k] == ts[k - 1] + step
  }

  /** One pass of the loop below: appending the next step keeps `Stepped`, and the loop has not yet run past its bound. */
  lemma StepKeeps(ts: seq<real>, first: real, finish: real, step: real)
    requires step > 0.0 && Stepped(ts, first, step) && ts[|ts| - 1] < finish
    requires forall k :: 0 <= k < |ts| - 1 ==> ts[k] < finish
    ensures Stepped(ts + [ts[|ts| - 1] + step], first, step)
    ensures |ts| <= ((finish - first) / step).Floor + 1
  {
    StepsBelow(|ts| - 1, step, finish - first);
  }

  /** The `while` loop of `get_timestamps`: steps of `step` from `first` until `finish` is reached or passed. */
  method StepUntil(first: real, finish: real, step: real) returns (timestamps: seq<real>)
    requires step > 0.0
    ensures |timestamps| > 0 && timestamps[0] == first
    ensures forall k :: 0 < k < |timestamps| ==> timestamps[k] == timestamps[k - 1] + step
    ensures forall k :: 0 <= k < |timestamps| - 1 ==> timestamps[k] < finish
    ensures timestamps[|timestamps| - 1] >= finish
  {
    var start := first;
    timestamps := [start];
    ghost var bound := ((finish - first) / step).Floor + 1;
    while start < finish
      invariant Stepped(timestamps, first, step) && timestamps[|timestamps| - 1] == start
      invariant forall k :: 0 <= k < |timestamps| - 1 ==> timestamps[k] < finish
      decreases bound - |timestamps|
    {
      StepKeeps(timestamps, first, finish, step);
      timestamps := timestamps + [start + step];
      start := start + step;
    }
  }

  /** Fewer whole steps than fit in a span: `k * step < span` bounds `k` by `floor(span / step)`. */
  lemma StepsBelow(k: int, step: real, span: real)
    requires step > 0.0 && k as real * step < span
    ensures k <= (span / step).Floor
  {
    assert k as real < span / step;
  }

  /** Whether index `c` of a channel of `length` samples lies at least one 4-bar block into the track. */
  predicate SpansBlock(c: nat, length: nat, duration: real, bpm: real)
    requires length > 0 && duration > 0.0 && bpm > 0.0
  {
    c as real / length as real >= BlockLength(bpm) / duration
  }

  /**
   * `get_counts_in_4_bars`: the smallest sample index whose position in the
   * track is at least one 4-bar block, or `None` when the track is shorter.
   */
  method GetCountsIn4Bars(data: seq<int>, duration: real, bpm: real) returns (r: Option<nat>)
    requires duration > 0.0 && bpm > 0.0
    ensures r.Some? ==> r.value < |data| && SpansBlock(r.value, |data|, duration, bpm)
    ensures r.Some? ==> forall j :: 0 <= j < r.value ==> !SpansBlock(j, |data|, duration, bpm)
    ensures r.None? ==> forall j :: 0 <= j < |data| ==> !SpansBlock(j, |data|, duration, bpm)
    ensures r.Some? ==> r.value >= 1
  {
    var length := |data|;
    var lengthOf16Beats := BlockLength(bpm);
    for count := 0 to |data|
      invariant forall j :: 0 <= j < count ==> !SpansBlock(j, length, duration, bpm)
    {
      if count as real / length as real >= lengthOf16Beats / duration {
        assert count != 0 by {
          assert lengthOf16Beats / duration > 0.0;
        }
        return Some(count);
      }
    }
    return None;
  }

  /** The reference definition of `get_counts_in_4_bars` used by the intensity pass. */
  function CountsIn4Bars(length: nat, duration: real, bpm: real, from: nat): (r: Option<nat>)
    requires duration > 0.0 && bpm > 0.0 && from <= length
    decreases length - from
    ensures r.Some? ==> from <= r.value < length && SpansBlock(r.value, length, duration, bpm)
    ensures r.Some? ==> forall j :: from <= j < r.value ==> !SpansBlock(j, length, duration, bpm)
    ensures r.None? ==> forall j :: from <= j < length ==> !SpansBlock(j, length, duration, bpm)
    ensures r.Some? ==> r.value > 0
  {
    if from == length then None
    else if SpansBlock(from, length, duration, bpm) then Some(from)
    else CountsIn4Bars(length, duration, bpm, from + 1)
  }

  /** The samples the intensity pass accumulates: those whose relative position lies in the window. */
  predicate InWindow(count: nat, length: nat, duration: real, w: Window)
    requires length > 0 && duration > 0.0
  {
    w.start / duration <= count as real / length as real <= w.finish / duration
  }

  function Abs(x: int): nat
  {
    if x < 0 then -x else x
  }

  /** `|sample|` of every in-window sample among the first `n`, in order. */
  ghost function Selected(data: seq<int>, duration: real, w: Window, n: nat): (s: seq<nat>)
    requires 0 < |data| && n <= |data| && duration > 0.0
  {
    if n == 0 then []
    else Selected(data, duration, w, n - 1) + (if InWindow(n - 1, |data|, duration, w) then [Abs(data[n - 1])] else [])
  }

  lemma {:induction false} SelectedGrows(data: seq<int>, duration: real, w: Window, k: nat, n: nat)
    requires 0 < |data| && k <= n <= |data| && duration > 0.0
    ensures |Selected(data, duration, w, k)| <= |Selected(data, duration, w, n)|
    decreases n
  {
    if k < n {
      SelectedGrows(data, duration, w, k, n - 1);
    }
  }

  function Sum(s: seq<nat>): (r: nat)
  {
    if |s| == 0 then 0 else Sum(s[..|s| - 1]) + s[|s| - 1]
  }

  ghost function Mean(block: seq<nat>): real
    requires |block| > 0
  {
    Sum(block) as real / |block| as real
  }

  /** Concatenation of consecutive blocks. */
  ghost function Flatten(blocks: seq<seq<nat>>): seq<nat>
  {
    if |blocks| == 0 then [] else Flatten(blocks[..|blocks| - 1]) + blocks[|blocks| - 1]
  }

  /**
   * `blocks` cut `s` from the front into consecutive runs of exactly `m`
   * values, leaving a trailing remainder shorter than `m`.
   */
  ghost predicate Partition(s: seq<nat>, m: nat, blocks: seq<seq<nat>>)
  {
    && (forall b :: 0 <= b < |blocks| ==> |blocks[b]| == m)
    && |Flatten(blocks)| <= |s|
    && s[..|Flatten(blocks)|] == Flatten(blocks)
    && |s| - |Flatten(blocks)| < m
  }

  /** `peak` is the largest block mean and is attained. */
  ghost predicate IsLoudest(peak: real, blocks: seq<seq<nat>>)
    requires forall b :: 0 <= b < |blocks| ==> |blocks[b]| > 0
  {
    (exists b :: 0 <= b < |blocks| && Mean(blocks[b]) == peak) &&
    (forall b :: 0 <= b < |blocks| ==> Mean(blocks[b]) <= peak)
  }

  /** The labelling rule of lines 129-134: strictly above 96% of the loudest is High, above 65% Medium. */
  function Classify(average: real, peak: real): Level
  {
    if average > 0.96 * peak then High
    else if average > 0.65 * peak then Medium
    else Low
  }

  /** The keys of `m` are exactly `0, 1, ..., n - 1`. */
  ghost predicate Dense<V>(m: map<int, V>, n: nat)
  {
    forall b :: b in m <==> 0 <= b < n
  }

  /** Python's `max(intensities.values())` over keys `0 .. n - 1`. */
  function MaxAverage(averages: map<int, real>, n: nat): (peak: real)
    requires n > 0 && forall b :: 0 <= b < n ==> b in averages
    ensures exists b :: 0 <= b < n && averages[b] == peak
    ensures forall b :: 0 <= b < n ==> averages[b] <= peak
  {
    if n == 1 then averages[0]
    else
      var rest := MaxAverage(averages, n - 1);
      if averages[n - 1] > rest then averages[n - 1] else rest
  }

  /** The in-window magnitudes of the whole channel. */
  ghost function SelectedAll(data: seq<int>, duration: real): seq<nat>
    requires 0 < |data| && duration > 0.0
  {
    Selected(data, duration, WindowOf(data, duration), |data|)
  }

  /**
   * `labels` is what `get_intensities` returns: the in-window magnitudes cut
   * into consecutive blocks of `counts_in_4_bars` samples (a trailing partial
   * block dropped), keyed `0, 1, ...` in order, each labelled relative to the
   * loudest block mean.
   */
  ghost predicate Labelled(data: seq<int>, duration: real, bpm: real, labels: map<int, Level>)
    requires 0 < |data| && duration > 0.0 && bpm > 0.0
  {
    var m := CountsIn4Bars(|data|, duration, bpm, 0);
    && m.Some?
    && exists blocks: seq<seq<nat>>, peak: real ::
      && Partition(SelectedAll(data, duration), m.value, blocks)
      && |blocks| > 0
      && IsLoudest(peak, blocks)
      && Dense(labels, |blocks|) && |labels| == |blocks|
      && forall b :: 0 <= b < |blocks| ==> labels[b] == Classify(Mean(blocks[b]), peak)
  }

  lemma FlattenAppend(blocks: seq<seq<nat>>, block: seq<nat>)
    ensures Flatten(blocks + [block]) == Flatten(blocks) + block
  {
    assert (blocks + [block])[..|blocks|] == blocks;
  }

  lemma SumAppend(s: seq<nat>, x: nat)
    ensures Sum(s + [x]) == Sum(s) + x
  {
    assert (s + [x])[..|s|] == s;
  }

  /**
   * The state of the accumulation loop after reading the in-window
   * magnitudes `sel`: `blocks` are the closed blocks of `m` samples each,
   * in order, and `count_`/`sum_` the length and total of the open one.
   */
  ghost predicate Accumulating(sel: seq<nat>, m: nat, blocks: seq<seq<nat>>, count_: int, sum_: real)
  {
    && m >= 1
    && (forall b :: 0 <= b < |blocks| ==> |blocks[b]| == m)
    && |Flatten(blocks)| <= |sel| && sel[..|Flatten(blocks)|] == Flatten(blocks)
    && (|blocks| > 0 ==> |Flatten(blocks)| >= m)
    && (|blocks| == 0 ==> |Flatten(blocks)| == 0)
    && count_ == |sel| - |Flatten(blocks)| < m
    && sum_ == Sum(sel[|Flatten(blocks)|..]) as real
  }

  /** One more in-window sample that leaves the open block short. */
  lemma AccumulateSample(sel: seq<nat>, m: nat, blocks: seq<seq<nat>>, count_: int, sum_: real, x: nat)
    requires Accumulating(sel, m, blocks, count_, sum_)
    requires count_ + 1 < m
    ensures Accumulating(sel + [x], m, blocks, count_ + 1, sum_ + x as real)
  {
    var done := |Flatten(blocks)|;
    assert sel[done..] + [x] == (sel + [x])[done..];
    assert (sel + [x])[..done] == sel[..done];
    SumAppend(sel[done..], x);
  }

  /** One more in-window sample that completes the open block. */
  lemma CloseBlock(sel: seq<nat>, m: nat, blocks: seq<seq<nat>>, count_: int, sum_: real, x: nat)
    requires Accumulating(sel, m, blocks, count_, sum_)
    requires count_ + 1 >= m
    ensures var block := (sel + [x])[|Flatten(blocks)|..];
      && |block| == m
      && Mean(block) == (sum_ + x as real) / (count_ + 1) as real
      && Accumulating(sel + [x], m, blocks + [block], 0, 0.0)
  {
    ClosedBlockMean(sel, m, blocks, count_, sum_, x);
    ClosedBlockAccumulating(sel, m, blocks, x);
  }

  lemma ClosedBlockMean(sel: seq<nat>, m: nat, blocks: seq<seq<nat>>, count_: int, sum_: real, x: nat)
    requires Accumulating(sel, m, blocks, count_, sum_)
    requires count_ + 1 >= m
    ensures var block := (sel + [x])[|Flatten(blocks)|..];
      && |block| == m
      && Mean(block) == (sum_ + x as real) / (count_ + 1) as real
  {
    var done := |Flatten(blocks)|;
    assert sel[done..] + [x] == (sel + [x])[done..];
    SumAppend(sel[done..], x);
  }

  lemma ClosedBlockAccumulating(sel: seq<nat>, m: nat, blocks: seq<seq<nat>>, x: nat)
    requires m >= 1 && forall b :: 0 <= b < |blocks| ==> |blocks[b]| == m
    requires |Flatten(blocks)| <= |sel| && sel[..|Flatten(blocks)|] == Flatten(blocks)
    requires |sel| - |Flatten(blocks)| + 1 == m
    ensures Accumulating(sel + [x], m, blocks + [(sel + [x])[|Flatten(blocks)|..]], 0, 0.0)
  {
    var done := |Flatten(blocks)|;
    var block := (sel + [x])[done..];
    assert |block| == m;
    FlattenAppend(blocks, block);
    var after := blocks + [block];
    assert sel[..done] + block == sel + [x];
    assert Flatten(after) == sel + [x];
    assert (sel + [x])[|sel + [x]|..] == [];
    assert forall b :: 0 <= b < |after| ==> |after[b]| == m by {
      assert forall b :: 0 <= b < |blocks| ==> after[b] == blocks[b];
    }
  }

  /**
   * The state of `get_intensities` after the in-window magnitudes `sel`:
   * the running block as `Accumulating` says, and one recorded mean per
   * closed block under the keys `0 .. barBlock - 1`.
   */
  ghost predicate Averaging(sel: seq<nat>, m: nat, blocks: seq<seq<nat>>, count_: int, sum_: real,
                            averages: map<int, real>, barBlock: nat)
  {
    && Accumulating(sel, m, blocks, count_, sum_)
    && |blocks| == barBlock && Dense(averages, barBlock)
    && forall b :: 0 <= b < barBlock ==> averages[b] == Mean(blocks[b])
  }

  /**
   * One in-window sample of magnitude `x` (lines 111-123): count it, add it
   * to the running sum, and once `size` samples are in, record their mean
   * under the next key and start a new block.
   */
  method AddSample(size: nat, count_: int, sum_: real, averages: map<int, real>, barBlock: nat, x: nat,
                   ghost sel: seq<nat>, ghost blocks: seq<seq<nat>>)
    returns (count_': int, sum_': real, averages': map<int, real>, barBlock': nat, ghost blocks': seq<seq<nat>>)
    requires Averaging(sel, size, blocks, count_, sum_, averages, barBlock)
    ensures Averaging(sel + [x], size, blocks', count_', sum_', averages', barBlock')
    ensures barBlock' == if count_ + 1 >= size then barBlock + 1 else barBlock
  {
    if count_ + 1 < size {
      AccumulateSample(sel, size, blocks, count_, sum_, x);
    } else {
      CloseBlock(sel, size, blocks, count_, sum_, x);
    }
    ghost var block := (sel + [x])[|Flatten(blocks)|..];
    count_' := count_ + 1;
    sum_' := sum_ + x as real;
    // the source's `sys.exit()` guard on a negative running sum never fires
    assert sum_' >= 0.0;
    averages', barBlock', blocks' := averages, barBlock, blocks;
    if count_' >= size {
      averages' := averages[barBlock := sum_' / count_' as real];
      blocks' := blocks + [block];
      assert forall b :: 0 <= b < barBlock ==> blocks'[b] == blocks[b];
      count_' := 0;
      sum_' := 0.0;
      barBlock' := barBlock + 1;
    }
  }

  lemma AveragingStart(m: nat)
    requires m >= 1
    ensures Averaging([], m, [], 0, 0.0, map[], 0)
  {
  }

  /** At the end of the pass the closed blocks partition the magnitudes read. */
  lemma AveragingDone(sel: seq<nat>, m: nat, blocks: seq<seq<nat>>, count_: int, sum_: real,
                      averages: map<int, real>, barBlock: nat)
    requires Averaging(sel, m, blocks, count_, sum_, averages, barBlock)
    ensures Partition(sel, m, blocks)
    ensures barBlock == 0 <==> |sel| < m
    ensures forall b :: 0 <= b < barBlock ==> |blocks[b]| > 0
  {
  }

  /**
   * The accumulation loop of `get_intensities`: one pass over the channel
   * adding up `|sample|` for the samples inside the window `w`; every
   * `countsIn4Bars` of them close a block whose mean is recorded under the
   * next key. Without a block length the pass gives up (`failed`) at the
   * first in-window sample, where the source compares against `None`.
   */
  method AverageBlocks(data: seq<int>, duration: real, w: Window, countsIn4Bars: Option<nat>)
    returns (failed: bool, averages: map<int, real>, barBlock: nat, ghost blocks: seq<seq<nat>>)
    requires 0 < |data| && duration > 0.0
    requires countsIn4Bars.Some? ==> countsIn4Bars.value > 0
    ensures failed <==> countsIn4Bars.None? && |Selected(data, duration, w, |data|)| > 0
    ensures !failed && countsIn4Bars.None? ==> barBlock == 0
    ensures !failed && countsIn4Bars.Some? ==>
              && Partition(Selected(data, duration, w, |data|), countsIn4Bars.value, blocks)
              && (barBlock == 0 <==> |Selected(data, duration, w, |data|)| < countsIn4Bars.value)
    ensures |blocks| == barBlock && Dense(averages, barBlock)
    ensures forall b :: 0 <= b < barBlock ==> |blocks[b]| > 0 && averages[b] == Mean(blocks[b])
  {
    var length := |data|;
    averages := map[];
    var count_ := 0;
    var sum_: real := 0.0;
    barBlock := 0;
    ghost var m: nat := if countsIn4Bars.Some? then countsIn4Bars.value else 1;
    ghost var sel: seq<nat> := [];
    blocks := [];
    AveragingStart(m);
    for count := 0 to |data|
      invariant sel == Selected(data, duration, w, count)
      invariant countsIn4Bars.Some? ==> m == countsIn4Bars.value
      invariant countsIn4Bars.None? ==> |sel| == 0
      invariant Averaging(sel, m, blocks, count_, sum_, averages, barBlock)
    {
      if InWindow(count, length, duration, w) {
        var point := data[count];
        if countsIn4Bars.None? {
          SelectedGrows(data, duration, w, count + 1, |data|);
          AveragingDone(sel, m, blocks, count_, sum_, averages, barBlock);
          return true, averages, barBlock, blocks;
        }
        count_, sum_, averages, barBlock, blocks :=
          AddSample(countsIn4Bars.value, count_, sum_, averages, barBlock, Abs(point), sel, blocks);
        sel := sel + [Abs(point)];
      }
    }
    AveragingDone(sel, m, blocks, count_, sum_, averages, barBlock);
    failed := false;
  }

  /**
   * `get_intensities`: the downbeat window, the block length, the block
   * means, and then each block labelled High, Medium or Low against the
   * loudest one, keys visited in insertion order `0, 1, ...`.
   */
  method GetIntensities(data: seq<int>, duration: real, bpm: real) returns (r: Result<map<int, Level>, AnalysisError>)
    requires duration > 0.0 && bpm > 0.0
    ensures |data| == 0 <==> r == Failure(EmptyWaveform)
    ensures r == Failure(NoBlockLength) <==>
              |data| > 0 && CountsIn4Bars(|data|, duration, bpm, 0).None? && |SelectedAll(data, duration)| > 0
    ensures r == Failure(NoCompleteBlock) <==>
              |data| > 0 && (|SelectedAll(data, duration)| == 0 || CountsIn4Bars(|data|, duration, bpm, 0).Some?) &&
              (CountsIn4Bars(|data|, duration, bpm, 0).Some? ==> |SelectedAll(data, duration)| < CountsIn4Bars(|data|, duration, bpm, 0).value)
    ensures r.Success? ==> |data| > 0 && Labelled(data, duration, bpm, r.value)
  {
    var window := GuessFirstAndLastDownBeat(data, duration);
    if window.Failure? {
      return Failure(window.error);
    }
    var countsIn4Bars := GetCountsIn4Bars(data, duration, bpm);
    CountsIn4BarsUnique(|data|, duration, bpm, countsIn4Bars);
    var failed, averages, barBlock, blocks := AverageBlocks(data, duration, window.value, countsIn4Bars);
    if failed {
      return Failure(NoBlockLength);
    }
    if barBlock == 0 {
      return Failure(NoCompleteBlock);
    }
    var peak := MaxAverage(averages, barBlock);
    var labels := LabelBlocks(averages, barBlock, peak);
    assert IsLoudest(peak, blocks);
    r := Success(labels);
  }

  /**
   * The labelling loop of `get_intensities` (lines 128-134): each key in
   * insertion order `0, 1, ...` gets the label of its mean against `peak`.
   */
  method LabelBlocks(averages: map<int, real>, barBlock: nat, peak: real) returns (labels: map<int, Level>)
    requires Dense(averages, barBlock)
    ensures Dense(labels, barBlock) && |labels| == barBlock
    ensures forall b :: 0 <= b < barBlock ==> labels[b] == Classify(averages[b], peak)
  {
    labels := map[];
    for key := 0 to barBlock
      invariant Dense(labels, key) && |labels| == key
      invariant forall b :: 0 <= b < key ==> labels[b] == Classify(averages[b], peak)
    {
      ghost var before := labels;
      labels := labels[key := Classify(averages[key], peak)];
      assert forall b :: 0 <= b < key ==> labels[b] == before[b];
    }
  }

  /** The loop of `get_counts_in_4_bars` and its reference definition agree. */
  lemma CountsIn4BarsUnique(length: nat, duration: real, bpm: real, r: Option<nat>)
    requires duration > 0.0 && bpm > 0.0
    requires r.Some? ==> r.value < length && SpansBlock(r.value, length, duration, bpm)
    requires r.Some? ==> forall j :: 0 <= j < r.value ==> !SpansBlock(j, length, duration, bpm)
    requires r.None? ==> forall j :: 0 <= j < length ==> !SpansBlock(j, length, duration, bpm)
    ensures r == CountsIn4Bars(length, duration, bpm, 0)
  {
  }

  lemma MeanNonNegative(block: seq<nat>)
    requires |block| > 0
    ensures Mean(block) >= 0.0
  {
  }

  /**
   * Labelling against the loudest block mean (lines 125-134): that mean is
   * never negative; when it is positive, every block attaining it is High;
   * when it is zero, every block is Low.
   */
  lemma LoudestBlockIsHigh(blocks: seq<seq<nat>>, peak: real, labels: map<int, Level>)
    requires forall b :: 0 <= b < |blocks| ==> |blocks[b]| > 0
    requires |blocks| > 0 && IsLoudest(peak, blocks)
    requires Dense(labels, |blocks|)
    requires forall b :: 0 <= b < |blocks| ==> labels[b] == Classify(Mean(blocks[b]), peak)
    ensures peak >= 0.0
    ensures peak > 0.0 ==> forall b :: 0 <= b < |blocks| && Mean(blocks[b]) == peak ==> labels[b] == High
    ensures peak == 0.0 ==> forall b :: b in labels ==> labels[b] == Low
  {
    var top :| 0 <= top < |blocks| && Mean(blocks[top]) == peak;
    MeanNonNegative(blocks[top]);
    if peak == 0.0 {
      forall b | b in labels
        ensures labels[b] == Low
      {
        MeanNonNegative(blocks[b]);
      }
    }
  }

  /** What `get_intensities` returns has a High block, or only Low ones. */
  lemma SomeBlockHighOrAllLow(data: seq<int>, duration: real, bpm: real, labels: map<int, Level>)
    requires 0 < |data| && duration > 0.0 && bpm > 0.0
    requires Labelled(data, duration, bpm, labels)
    ensures (exists b :: b in labels && labels[b] == High) || (forall b :: b in labels ==> labels[b] == Low)
  {
    var m := CountsIn4Bars(|data|, duration, bpm, 0);
    var blocks: seq<seq<nat>>, peak: real :|
      && Partition(SelectedAll(data, duration), m.value, blocks)
      && |blocks| > 0
      && IsLoudest(peak, blocks)
      && Dense(labels, |blocks|) && |labels| == |blocks|
      && forall b :: 0 <= b < |blocks| ==> labels[b] == Classify(Mean(blocks[b]), peak);
    LoudestBlockIsHigh(blocks, peak, labels);
    var top :| 0 <= top < |blocks| && Mean(blocks[top]) == peak;
    if peak > 0.0 {
      assert labels[top] == High;
    }
  }

  function Rank(l: Level): nat
  {
    match l
    case Low => 0
    case Medium => 1
    case High => 2
  }

  /** A louder block never gets a lower label than a quieter one. */
  lemma ClassifyMonotone(a: real, a': real, peak: real)
    requires a <= a'
    ensures Rank(Classify(a, peak)) <= Rank(Classify(a', peak))
  {
  }

  /** The least key of a non-empty finite set of keys. */
  ghost function Least(keys: set<int>): (k: int)
    requires keys != {}
    ensures k in keys && forall j :: j in keys ==> k <= j
    decreases |keys|
  {
    var x := PickKey(keys);
    var others := keys - {x};
    if others == {} then
      assert forall j :: j in keys ==> j == x by {
        forall j | j in keys ensures j == x {
          assert j !in others;
        }
      }
      x
    else
      var m := Least(others);
      assert forall j :: j in keys ==> j == x || j in others;
      if x < m then x else m
  }

  /** Some element of a non-empty set. */
  ghost function PickKey(keys: set<int>): (x: int)
    requires keys != {}
    ensures x in keys
  {
    NonEmptyHasKey(keys);
    var y :| y in keys; y
  }

  lemma NonEmptyHasKey(keys: set<int>)
    requires keys != {}
    ensures exists y :: y in keys
  {
    if forall y :: y !in keys {
      assert false;
    }
  }

  /**
   * The ordering step of `save_intensities`: the `(key, label)` pairs of
   * the map in ascending key order (the keys are distinct, so `sorted` on
   * the pairs orders by key), built by taking the least remaining key.
   */
  method OrderSections(intensities: map<int, Level>) returns (ordered: seq<(int, Level)>)
    ensures |ordered| == |intensities|
    ensures forall p :: 0 <= p < |ordered| ==> ordered[p].0 in intensities && intensities[ordered[p].0] == ordered[p].1
    ensures forall k :: k in intensities ==> exists p :: 0 <= p < |ordered| && ordered[p].0 == k
    ensures forall p, q :: 0 <= p < q < |ordered| ==> ordered[p].0 < ordered[q].0
  {
    var rest := intensities.Keys;
    ordered := [];
    while rest != {}
      invariant OrderedPrefix(intensities, rest, ordered)
      decreases |rest|
    {
      ghost var least := Least(rest);
      var key :| key in rest && forall j :: j in rest ==> key <= j;
      TakeLeast(intensities, rest, ordered, key);
      ordered := ordered + [(key, intensities[key])];
      rest := rest - {key};
    }
    assert |intensities.Keys| == |intensities|;
  }

  /**
   * The loop invariant of `OrderSections`: `ordered` lists, in ascending
   * order and with their labels, exactly the keys no longer in `rest`, all
   * of them below every key still in `rest`.
   */
  ghost predicate OrderedPrefix(intensities: map<int, Level>, rest: set<int>, ordered: seq<(int, Level)>)
  {
    Listed(intensities, rest, ordered) && Ascending(rest, ordered)
  }

  /** `ordered` holds the entries whose keys have left `rest`, each once. */
  ghost predicate Listed(intensities: map<int, Level>, rest: set<int>, ordered: seq<(int, Level)>)
  {
    && rest <= intensities.Keys
    && |ordered| + |rest| == |intensities.Keys|
    && (forall p :: 0 <= p < |ordered| ==> ordered[p].0 in intensities && ordered[p].0 !in rest && intensities[ordered[p].0] == ordered[p].1)
    && (forall k :: k in intensities && k !in rest ==> exists p :: 0 <= p < |ordered| && ordered[p].0 == k)
  }

  /** The keys of `ordered` rise, and stay below every key left in `rest`. */
  ghost predicate Ascending(rest: set<int>, ordered: seq<(int, Level)>)
  {
    && (forall p, q :: 0 <= p < q < |ordered| ==> ordered[p].0 < ordered[q].0)
    && (forall p, k :: 0 <= p < |ordered| && k in rest ==> ordered[p].0 < k)
  }

  /** Moving the least remaining key to the end of `ordered` keeps the invariant. */
  lemma TakeLeast(intensities: map<int, Level>, rest: set<int>, ordered: seq<(int, Level)>, key: int)
    requires OrderedPrefix(intensities, rest, ordered)
    requires key in rest && forall j :: j in rest ==> key <= j
    ensures OrderedPrefix(intensities, rest - {key}, ordered + [(key, intensities[key])])
  {
    ListedStep(intensities, rest, ordered, key);
    AscendingStep(rest, ordered, key, intensities[key]);
  }

  lemma ListedStep(intensities: map<int, Level>, rest: set<int>, ordered: seq<(int, Level)>, key: int)
    requires Listed(intensities, rest, ordered) && key in rest
    ensures Listed(intensities, rest - {key}, ordered + [(key, intensities[key])])
  {
    var ordered', rest' := ordered + [(key, intensities[key])], rest - {key};
    forall k | k in intensities && k !in rest'
      ensures exists p :: 0 <= p < |ordered'| && ordered'[p].0 == k
    {
      if k == key {
        assert ordered'[|ordered|].0 == k;
      } else {
        var p :| 0 <= p < |ordered| && ordered[p].0 == k;
        assert ordered'[p].0 == k;
      }
    }
  }

  lemma AscendingStep(rest: set<int>, ordered: seq<(int, Level)>, key: int, level: Level)
    requires Ascending(rest, ordered)
    requires key in rest && forall j :: j in rest ==> key <= j
    ensures Ascending(rest - {key}, ordered + [(key, level)])
  {
  }
}
