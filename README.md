# Music video generator: a Dafny model of its scheduling core

The generator cuts random footage to the beat of a song. It works in three stages, and the
model covers all three.

1. **Analysis** (`generate_timestamps.py`) reads the song's mono waveform.
   - It guesses the first and last downbeat: the first and last sample at or above `max / 1.5`.
   - It lists one timestamp per 4-bar block (16 beats) between the two downbeats.
   - It finds how many samples make up a 4-bar block.
   - It averages `|sample|` over each block inside the window and labels every block High,
     Medium or Low relative to the loudest block.
   - Saving the labels sorts them by section.
2. **Scheduling** (`make_sub_movies.py`; the single-variant copies `simple_vid.py`,
   `SimpleVid.py` and `SmartVid.py` repeat the same loop) builds one *take*.
   - An optional title intro comes first.
   - Footage shots of `i` beats follow. The rate `i` is re-rolled at every 16-beat boundary.
     The uniform variant (`simple_vid`) picks it from a fixed table until the last downbeat.
     The intensity variant (`smart_vid`) picks it from the table of the block's label, for
     `16 * len(intensities)` beats.
   - In the intensity variant, a Low block followed by a High one ("a drop") is one 16-beat
     shot that fades out, and the High block after a Low one is cut at one shot per beat.
   - An optional title outro ends the take.
   - `main` makes `complexity` takes.
3. **Reduction** (`music_video_generator.py:91-121`) difference-blends the takes pairwise.
   - Every neighbouring pair of takes is blended.
   - Neighbouring blends are blended again ("mashed").
   - The two top mashes are blended into `<song>_generated.mp4`.
   - Each first-level blend and the final blend are skipped when their output file already
     exists. The mash step's test never skips anything (see "## Findings").
   - With two or three takes, the last blend or mash is renamed to the generated file. A
     rerun then finds that intermediate missing and issues it again, under either test.

`get_closest_percent` (in `tools.py`, and copied in `SimpleVid.py`) buckets progress
percentages for the console.

Modules:

- `Wrappers` (`wrappers.dfy`): `Option` and `Result`.
- `Progress` (`progress.dfy`): the percentage bucketing, as pure functions.
- `Analysis` (`analysis.dfy`): the waveform analysis.
  - Each Python loop is a `method` with a `while`/`for` loop.
  - Each loop is proved against a reference function (`StopIndex`, `CountsIn4Bars`,
    `Selected`/`Partition`/`Mean`, `Classify`) or a complete description of its result
    (`Stepped` for the timestamps, a sorted permutation for the sections).
- `Scheduler` (`scheduler.dfy`): the take builder.
  - The random source is a pair of oracle functions, `choice(k, n) < n` and
    `0 <= randint(k, hi) <= hi`, indexed by a draw counter that the methods thread through.
  - A take is a `Plan`: intro title, shots, outro title. Videos are never rendered.
- `Reducer` (`reducer.dfy`): the reduction loop over a folder modelled as a set of artifacts.
  - Every ffmpeg call and every `os.rename` is a `Command`.
  - The loop is proved to issue exactly the commands `CommandsFrom` lists, iteration by
    iteration, and to leave the folder at `Apply(files0, log)`.

## Model

| member | source | states |
|---|---|---|
| Progress.PercentsAreTens | tools.py:4 | The thresholds are the eleven multiples of ten 0, 10, ..., 100, in ascending order |
| Progress.SearchFrom | tools.py:18-20 | The early-return loop returns a threshold from the rest of the tuple that `percent` is less than 10 above; it falls off the end (None) exactly when the tuple is exhausted or `percent >= 110` |
| Progress.GetClosestPercent | tools.py:14-20 | The result is one of the thresholds with `percent < r + 10`; it is None exactly when `percent >= 110` |
| Progress.SearchFromClosedForm | tools.py:18-20 | Resumed at position `j`, the search returns `10 * max(j, floor(percent / 10))` for every `percent < 110` |
| Progress.ClosestPercentIsFloor | tools.py:14-20 | Below 110 the bucket is the multiple of ten at or below `percent` (0 for negatives) |
| Progress.ClosestPercentBrackets | tools.py:14-20 | For `0 <= percent < 110` the bucket `r` satisfies `r <= percent < r + 10` (the docstring's "lowest passed threshold") |
| Progress.NegativePercentIsZero | SimpleVid.py:20-26 | A negative percentage maps to the first threshold, 0 |
| Progress.ClosestPercentMonotone | tools.py:14-20 | A larger percentage never gets a smaller bucket |
| Analysis.BeatLength | generate_timestamps.py:53 | Seconds per beat `1 / (bpm / 60)` is positive for a positive tempo |
| Analysis.BlockLength | generate_timestamps.py:74-75 | A 4-bar block, 16 beats, lasts a positive time |
| Analysis.Peak | generate_timestamps.py:25 | `max(data)` is a sample of the channel and no sample exceeds it |
| Analysis.Reversed | generate_timestamps.py:34 | `data[::-1]` has the same length and index `k` holds sample `len - 1 - k` |
| Analysis.StopIndex | generate_timestamps.py:29-31 | The index where the scan stops: every earlier sample is below the threshold, and it is at or above it or is the last index |
| Analysis.ScanForLoud | generate_timestamps.py:29-31 | The `enumerate`/`break` loop leaves `count` at exactly `StopIndex` |
| Analysis.StopIndexUnique | generate_timestamps.py:29-36 | Any index with the stopping property is the one `StopIndex` gives: the scan's result is determined |
| Analysis.GuessFirstAndLastDownBeat | generate_timestamps.py:18-40 | An empty channel fails (`max` raises); otherwise the window is `count / len * duration` and `(len - count2) / len * duration` for the forward and backward scans |
| Analysis.SecondsOrdered | generate_timestamps.py:40 | Index-to-seconds conversion keeps order and stays within `[0, duration]` |
| Analysis.StopsOnLoud | generate_timestamps.py:29-31 | A scan over a channel holding a sample at or above the threshold stops on such a sample, no later than the first one |
| Analysis.ScansMeet | generate_timestamps.py:25-36 | With a non-negative peak both scans stop on a loud sample, and the first downbeat's index is at or before the last one's |
| Analysis.WindowBounds | generate_timestamps.py:18-40 | With a non-negative peak and a positive duration, `0 <= start < finish <= duration` |
| Analysis.GetTimestamps | generate_timestamps.py:43-60 | An empty channel fails, and any other channel gives a list. The list starts at the first downbeat, consecutive entries are one 4-bar block apart, every entry but the last is before the last downbeat, and the last is at or past it |
| Analysis.StepUntil | generate_timestamps.py:55-58 | The loop's list starts at the first downbeat and climbs one step at a time; every entry but the last is before the last downbeat, and the last is at or past it |
| Analysis.GetCountsIn4Bars | generate_timestamps.py:63-80 | The smallest index whose relative position reaches one block (and it is at least 1), or None when no index does |
| Analysis.CountsIn4Bars | generate_timestamps.py:78-80 | The reference search: the first index from `from` that spans a block, none before it spans one, None when none does |
| Analysis.CountsIn4BarsUnique | generate_timestamps.py:78-80 | The loop's result and the reference search agree on every channel length |
| Analysis.AccumulateSample | generate_timestamps.py:111-112 | A sample that leaves the open block short extends its count and sum and keeps the closed blocks |
| Analysis.CloseBlock | generate_timestamps.py:118-123 | A sample that completes the open block closes it: its mean is `sum_ / count_` and the loop restarts from zero |
| Analysis.ClosedBlockMean | generate_timestamps.py:118-119 | The recorded average of a closed block is the mean of exactly its samples |
| Analysis.ClosedBlockAccumulating | generate_timestamps.py:121-123 | After closing, the closed blocks are a prefix of the magnitudes read, each of the block length |
| Analysis.AddSample | generate_timestamps.py:111-123 | One in-window sample keeps the accumulation invariant and advances `bar_block` exactly when a block closes |
| Analysis.AveragingStart | generate_timestamps.py:104-106 | The initial `count_ = 0`, `sum_ = 0`, `bar_block = 0` satisfy the invariant |
| Analysis.AveragingDone | generate_timestamps.py:108-123 | After the pass the closed blocks partition the magnitudes read, leaving a trailing partial block, and no block closes exactly when fewer samples than a block were read |
| Analysis.AverageBlocks | generate_timestamps.py:104-123 | Without a block length the pass fails exactly when some sample is in the window. Otherwise the averages are keyed `0 .. bar_block - 1`, each the mean of its block, and the blocks partition the in-window magnitudes |
| Analysis.MaxAverage | generate_timestamps.py:125 | `max(intensities.values())` is attained and bounds every block average |
| Analysis.LabelBlocks | generate_timestamps.py:128-134 | Every key keeps its place and gets the label of its average against the peak: above 96% High, above 65% Medium, else Low |
| Analysis.GetIntensities | generate_timestamps.py:83-136 | Fails with an empty channel (`max` raises), with a track shorter than one block while some sample is in the window (`count_ >= None` raises), or with no complete block (`max` of an empty dict). Otherwise the labels are those of the consecutive block means |
| Analysis.MeanNonNegative | generate_timestamps.py:112-119 | A block mean of magnitudes is non-negative |
| Analysis.LoudestBlockIsHigh | generate_timestamps.py:125-134 | For blocks labelled against their largest mean `peak`: `peak >= 0`; when `peak > 0`, every block whose mean is `peak` is High; when `peak == 0`, every block is Low |
| Analysis.SomeBlockHighOrAllLow | generate_timestamps.py:125-134 | What `get_intensities` returns has a High block or only Low blocks |
| Analysis.ClassifyMonotone | generate_timestamps.py:129-134 | A louder block never gets a lower label than a quieter one |
| Analysis.Least | generate_timestamps.py:148 | The least key of a non-empty key set is in it and below every other key |
| Analysis.TakeLeast | generate_timestamps.py:144-148 | Appending the least remaining key with its label keeps the output sorted and complete for the keys taken |
| Analysis.OrderSections | generate_timestamps.py:144-148 | The `(section, label)` pairs: one per key, each with its own label, every key present, keys strictly ascending |
| Scheduler.RateTablesHoldRates | make_sub_movies.py:18-20 | Every entry of the four rate tables is 1, 4, 8 or 16 beats |
| Scheduler.Intro | make_sub_movies.py:47-54 | A start under 4 s gets a blacked-out title clip of that length, a later start a title fading in over half its length, a start of 0 none; an empty title folder fails exactly when a title is needed |
| Scheduler.ChooseRate | make_sub_movies.py:73-97 | Uniform variant: a rate from its table, no fade. Intensity variant: High after Low is 1; other High, Medium and Low use their tables; Low before High is 16 and fades; a missing next section falls back to the Low table |
| Scheduler.DrawShot | make_sub_movies.py:99-111 | A shot of exactly `i` beats from an existing clip at a whole-second offset that leaves room for it; it fades out over its last quarter exactly when flagged |
| Scheduler.Outro | make_sub_movies.py:126-129 | If the shots end before the song does, a title fills the rest, fading out over its second half; none otherwise; an empty title folder fails exactly then |
| Scheduler.RateFits | make_sub_movies.py:67-75 | A shot of a rate re-rolled at a 16-beat boundary never straddles the next boundary, and the rate keeps fitting until then |
| Scheduler.BlocksBegun | make_sub_movies.py:97 | `current4_bar_block` equals the number of 16-beat blocks begun |
| Scheduler.CutStep | make_sub_movies.py:99-115 | Appending a shot chosen by the rules at the current beat keeps every loop invariant: valid shots, aligned blocks, the variant's rate and fade rules |
| Scheduler.OpenBlock | make_sub_movies.py:67-97 | At a 16-beat boundary the rate is re-rolled by the variant's rule and the section counter advances; elsewhere the previous rate is kept and nothing fades |
| Scheduler.CutShot | make_sub_movies.py:99-115 | One loop body: a shot of the current rate is cut, and `start` and `beats` advance by it |
| Scheduler.CutShots | make_sub_movies.py:56-124 | Fails exactly when there is no footage and the loop would run. Otherwise the shots are valid and block-aligned and follow the variant's rules; uniform: every shot starts before the last downbeat and the end is at or past it; intensity: the shots cover exactly `16 * len(intensities)` beats |
| Scheduler.MakeSubMovie | make_sub_movies.py:23-129 | A take is intro, shots and outro as above; an empty title folder (`titles == 0`) fails exactly when an intro is needed, or when the cut shots end before the song does and an outro is needed; an empty footage list fails exactly when the loop runs |
| Scheduler.MakeTakes | make_sub_movies.py:183-185 | `complexity` takes, each meeting the take rules; the run fails only if titles or footage are missing |
| Scheduler.EveryBlockOpens | make_sub_movies.py:65-97 | Since no shot straddles a boundary, every labelled section has a shot opening its block, so each section gets its own rate |
| Scheduler.FadeOutLeadsIntoDrop | make_sub_movies.py:79-112 | A faded shot is a 16-beat block before a drop, fading over 4 beats, and the next shot opens the drop at one beat, unfaded |
| Scheduler.LowIntoHighAt120 | make_sub_movies.py:79-115 | At 120 bpm, sections Low then High give exactly one 16-beat shot fading over 2 s followed by sixteen 1-beat shots |
| Reducer.SubVidPaths | music_video_generator.py:91 | The takes are exactly the `subVid` entries of the listing, and all are takes |
| Reducer.SubVidPathsSnoc | music_video_generator.py:91 | Listing one more entry puts it in front of the takes when it is a take. Together with the empty listing this fixes the order: the reversed listing |
| Reducer.SubVidPathsDistinct | music_video_generator.py:91 | A listing without repeats gives takes without repeats |
| Reducer.LastListedFirst | music_video_generator.py:91 | The take listed last is take 0 |
| Reducer.Slots | music_video_generator.py:92-93 | `[''] * k` is `k` empty slots, and none for `k <= 0` |
| Reducer.BlendPair | music_video_generator.py:102-108 | Fills the blend slot and blends take `i + 1` over take `i` unless the output exists; with two takes the blend becomes the generated file; nothing else in the folder changes |
| Reducer.MashPair | music_video_generator.py:109-116 | Fills the mash slot and issues the mash of the two blends above take `i` under the chosen guard; with three takes it becomes the generated file |
| Reducer.MashStepCommands | music_video_generator.py:109-116 | The mash is issued exactly when the guard lets it through: always under the slot test, and only into a missing file under the target test |
| Reducer.IssueMash | music_video_generator.py:113-116 | Running an issued mash appends it, and the rename for three takes, to the log; only the mash and the generated file change in the folder |
| Reducer.MashTop | music_video_generator.py:117-121 | Issues the blend of the two top mashes into the generated file at most once, when it is missing |
| Reducer.Step | music_video_generator.py:100-121 | One iteration extends the log by that iteration's commands and keeps the folder and the slots in step with them |
| Reducer.BlendTakes | music_video_generator.py:91-121 | No takes: exit before blending. Otherwise the loop issues exactly `CommandsFrom(takes, files0, guard, 0)` and the folder ends as that log applied to the starting folder |
| Reducer.OneTake | music_video_generator.py:100 | A single take is never blended |
| Reducer.TwoTakes | music_video_generator.py:100-108 | Two takes: one blend renamed to the generated file, or nothing if the blend exists; the generated file then exists |
| Reducer.ThreeTakes | music_video_generator.py:100-116 | Three takes, as written: the missing blends, then the mash of the two blends renamed to the generated file |
| Reducer.IterationShape | music_video_generator.py:100-121 | Per iteration: blends are issued only into missing files; with the target guard, so are mashes; with four takes or more, only the top mash writes the generated file, in iteration `n - 4` alone and only when it is missing |
| Reducer.FinalBlend | music_video_generator.py:117-121 | With four takes or more, the only command writing the generated file is the blend of the mashes of the two takes listed first; it is issued iff the file is missing, and only by iteration `n - 4` |
| Reducer.BlendsOnlyMissing | music_video_generator.py:102-103 | A first-level blend is issued only when its output is missing |
| Reducer.AsWrittenMashesEveryTime | music_video_generator.py:109 | As written, every mash is issued on every run, whatever the folder holds |
| Reducer.CorrectedMashesOnlyMissing | music_video_generator.py:109-112 | With the existence test on the mash's own output, a mash is issued only when that output is missing |
| Reducer.CorrectedRerunIsSilent | music_video_generator.py:100-121 | With the corrected test, a folder holding every intermediate and the generated file gets no command |
| Reducer.CorrectedRunCompletes | music_video_generator.py:100-121 | With four takes or more, a corrected run leaves every blend, every mash and the generated file in the folder |
| Reducer.CorrectedRerunAfterRunIsSilent | music_video_generator.py:100-121 | With one take or four and more, rerunning the corrected loop on the folder a run left behind issues nothing |
| Reducer.TwoTakesRerunRepeats | music_video_generator.py:102-108 | Two takes, either test: the run renames the blend away, so the rerun issues the same blend and rename again |
| Reducer.ThreeTakesRerunRemashes | music_video_generator.py:109-116 | Three takes, even corrected: the run renames the mash away, so the rerun issues the mash again |
| Reducer.AsWrittenRerunRemashes | music_video_generator.py:109-121 | Four takes whose intermediates and output all exist: as written the rerun issues two mashes; with the corrected test it issues none |

## Left out

- Reading the WAV file, taking its first channel, and the duration from its tags are left
  out. The channel is a `seq<int>` parameter and the duration a positive `real` parameter.
  `guess_bpm` (librosa) is also left out; the tempo is a positive parameter.
- The scheduler's `1 / (bpm / 60)` is the beat length used everywhere.
  `make_sub_movies.py:44` writes `60 / bpm`. In exact arithmetic the two are equal, and the
  model does not follow floating-point rounding.
- Floating point in general is left out: times, sums and means are exact `real`s.
- Samples are unbounded integers.
  - The source's fixed-width samples make `abs` of the type's minimum wrap to itself
    (`abs(-32768)` is -32768 for 16-bit samples, and likewise at -2^31 for 32-bit). That is the only way
    `sum_ < 0` at `generate_timestamps.py:114-115` could hold.
  - With unbounded samples the model proves that this guard never fires, and it omits
    `sys.exit`.
- Analysis.GetCountsIn4Bars requires a positive duration. The source would raise a
  `ZeroDivisionError` with a zero duration and a non-empty channel.
- Analysis.AverageBlocks tests for a missing block length before accumulating, where the
  source raises at `count_ >= None` on the first in-window sample. The outcomes are the same.
- Writing the CSV in `save_intensities` is left out. `Analysis.OrderSections` models the
  ordering that feeds it.
- Rendering is left out:
  - all of moviepy (subclips, `colorx`, fades, resizing, concatenation, writing the take);
  - ffmpeg;
  - the `Pool`/logging parallel mode.
  
  The parallel mode runs the same `make_sub_movie` calls; `Scheduler.MakeTakes` runs them in
  order.
- Randomness is left out: `random.choice` and `random.randint` are oracle parameters. The
  model states what holds for every oracle obeying their ranges.
- Scheduler.MakeSubMovie requires `LongClips`: every clip is at least one block (16 beats)
  long. In the source a shorter clip makes `randint` raise, and the `while True` retry loop
  draws again, forever if no clip is long enough. The retries are not modelled.
- Scheduler.MakeSubMovie models an empty title folder (`titles == 0`) only. A missing
  `titles` folder makes `os.listdir` at `make_sub_movies.py:42` raise on every take, before
  anything is built.
- Reducer.CorrectedRerunAfterRunIsSilent covers one take and four or more. With two or three
  takes the last intermediate is renamed to the generated file, so even the corrected loop
  redoes that step on a rerun (Reducer.TwoTakesRerunRepeats, Reducer.ThreeTakesRerunRemashes).
- Title clips are assumed long enough for the intro and outro subclips. Their own lengths are
  not modelled.
- Scheduler.MakeSubMovie requires `finish != 0` when the uniform loop runs. The source's
  progress line divides by `finish` there. The progress printing itself, and
  `current_render_percent`, are left out. `Progress.GetClosestPercent` models the bucketing
  they use.
- Reducer.BlendTakes: each command is assumed to succeed and create its output. `os.system`
  failures are not modelled.
  - `os.rename` replaces an existing target, as on POSIX.
  - The `count` counter and the prints are left out.
  - The chromashift pass (`music_video_generator.py:123-148`) and the take-generation
    trigger before the loop are not part of this model.
- Reducer.BlendTakes takes the mash guard as a parameter. `SlotGuard` is the code as
  written; `TargetGuard` is the corrected test.
- `video_downloader.py`, `MusicVideoGenerator.py` (an older command-line driver that runs the
  other scripts and ffmpeg through `os.system`) and `mutiprocessing_log.py` are not part of
  this model.

## Findings

| source | as written | input that shows it | evidently intended | confidence | as-written member | corrected member |
|---|---|---|---|---|---|---|
| music_video_generator.py:109 | `not exists(mashed_vid_paths[i])` tests the slot before line 112 fills it. The slot is still `''`, so the test always passes and every mash is re-run on every run | Four takes whose blends, mashes and generated file all exist (Reducer.AsWrittenRerunRemashes): the rerun still issues two ffmpeg mashes, and nothing reads their outputs | Fill the slot first and test the mash's own output, as the blend step does at lines 102-103 | not executed | Reducer.AsWrittenMashesEveryTime | Reducer.CorrectedMashesOnlyMissing |
