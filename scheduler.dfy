/**
 * The beat scheduler of `make_sub_movie` (make_sub_movies.py, and its earlier
 * copies simple_vid.py, SimpleVid.py and SmartVid.py).
 *
 * A take is an optional title-clip intro, a body of footage shots whose
 * lengths are whole numbers of beats, and an optional title-clip outro. The
 * `SimpleVid` variant (`dynamic == 'simple_vid'`) fills the time between the
 * first and the last downbeat, re-rolling a uniform rate every 16 beats; the
 * `SmartVid` variant (`dynamic == 'smart_vid'`) renders exactly one 16-beat
 * block per labelled section, its rate chosen by the section's intensity.
 *
 * `random.choice` and `random.randint` are oracles indexed by a draw counter
 * that every call advances; clips are given by their durations in seconds and
 * title clips by their number.
 */
module Scheduler {
  import opened Wrappers
  import opened Analysis

  /** Weighted rates (beats per shot) of the uniform variant. */
  const SIMPLE_RATES: seq<nat> := [1, 4, 4, 4, 8, 8, 16, 16, 16]
  const HIGH_INTENSITY: seq<nat> := [1, 1, 1, 4, 4, 4]
  const MEDIUM_INTENSITY: seq<nat> := [4, 4, 4, 4, 8, 8, 8, 16]
  const LOW_INTENSITY: seq<nat> := [8, 8, 8, 16, 16, 16, 16]

  /** The `dynamic` argument. */
  datatype Variant = SimpleVid | SmartVid

  /** What moviepy applies to a clip: nothing, `colorx 0.0`, `fadein`, `fadeout`. */
  datatype Effect = Plain | Blackout | FadeIn(seconds: real) | FadeOut(seconds: real)

  /** `subclip(0, length)` of title clip number `clip`. */
  datatype Title = Title(clip: nat, length: real, effect: Effect)

  /** `subclip(offset, offset + beats * beat)` of footage clip number `clip`. */
  datatype Shot = Shot(clip: nat, offset: int, beats: nat, effect: Effect)

  /** The `videos` list of one take: intro, body, outro. */
  datatype Plan = Plan(intro: Option<Title>, body: seq<Shot>, outro: Option<Title>)

  datatype ScheduleError =
    | NoTitleClips     // `random.choice` on an empty title folder raises
    | NoFootageClips   // `random.choice` on an empty footage list raises

  ghost predicate ChoiceOracle(choice: (nat, nat) -> nat)
  {
    forall k, n :: n > 0 ==> choice(k, n) < n
  }

  ghost predicate RandintOracle(randint: (nat, int) -> int)
  {
    forall k, hi :: hi >= 0 ==> 0 <= randint(k, hi) <= hi
  }

  /** Every footage clip lasts at least one 4-bar block, so no draw is ever rejected. */
  ghost predicate LongClips(clips: seq<real>, beat: real)
  {
    forall c :: 0 <= c < |clips| ==> clips[c] >= 16.0 * beat
  }

  /** The rates in use divide 16. */
  predicate IsRate(i: nat)
  {
    i == 1 || i == 4 || i == 8 || i == 16
  }

  lemma RateTablesHoldRates()
    ensures forall k :: 0 <= k < |SIMPLE_RATES| ==> IsRate(SIMPLE_RATES[k])
    ensures forall k :: 0 <= k < |HIGH_INTENSITY| ==> IsRate(HIGH_INTENSITY[k])
    ensures forall k :: 0 <= k < |MEDIUM_INTENSITY| ==> IsRate(MEDIUM_INTENSITY[k])
    ensures forall k :: 0 <= k < |LOW_INTENSITY| ==> IsRate(LOW_INTENSITY[k])
  {
  }

  /** Intro: a blacked-out title under 4 seconds, a faded-in one from 4 seconds, none at 0. */
  predicate IntroRule(start: real, titles: nat, intro: Option<Title>)
  {
    if start > 0.0 then
      && intro.Some? && intro.value.clip < titles && intro.value.length == start
      && intro.value.effect == (if start < 4.0 then Blackout else FadeIn(start / 2.0))
    else intro.None?
  }

  /** Outro: a title filling the track after the last shot, fading out over its second half. */
  predicate OutroRule(end: real, duration: real, titles: nat, outro: Option<Title>)
  {
    if end < duration then
      && outro.Some? && outro.value.clip < titles && outro.value.length == duration - end
      && outro.value.effect == FadeOut((duration - end) / 2.0)
    else outro.None?
  }

  /** The running total of beats before each shot, and after the last. */
  function Starts(body: seq<Shot>): (r: seq<nat>)
    ensures |r| == |body| + 1 && r[0] == 0
  {
    if |body| == 0 then [0]
    else
      var before := Starts(body[..|body| - 1]);
      before + [before[|body| - 1] + body[|body| - 1].beats]
  }

  /** The `beats` counter when shot `j` was cut. */
  function BeatsBefore(body: seq<Shot>, j: nat): nat
    requires j <= |body|
  {
    Starts(body)[j]
  }

  function TotalBeats(body: seq<Shot>): nat
  {
    Starts(body)[|body|]
  }

  /** A shot is a whole number of beats from a real clip, starting where the clip is long enough. */
  ghost predicate ShotOk(clips: seq<real>, beat: real, s: Shot)
  {
    && s.clip < |clips|
    && IsRate(s.beats)
    && 0 <= s.offset <= (clips[s.clip] - beat * s.beats as real).Floor
  }

  /**
   * No shot straddles a 16-beat boundary, and the rate changes only at a
   * boundary: a shot that does not open a block repeats the previous rate.
   */
  ghost predicate Aligned(body: seq<Shot>)
  {
    forall j :: 0 <= j < |body| ==>
      && BeatsBefore(body, j) % 16 + body[j].beats <= 16
      && (BeatsBefore(body, j) % 16 != 0 ==> j > 0 && body[j].beats == body[j - 1].beats)
  }

  ghost predicate ShotsValid(clips: seq<real>, beat: real, body: seq<Shot>)
  {
    (forall j :: 0 <= j < |body| ==> ShotOk(clips, beat, body[j])) && Aligned(body)
  }

  /** The time `beats` beats after `start`. */
  function At(start: real, beats: nat, beat: real): real
  {
    start + beats as real * beat
  }

  lemma AtStep(start: real, beats: nat, i: nat, beat: real)
    ensures At(start, beats, beat) + beat * i as real == At(start, beats + i, beat)
  {
  }

  /** The uniform variant: every shot starts before `finish`, block rates come from `SIMPLE_RATES`, nothing fades. */
  ghost predicate UniformBody(start: real, finish: real, beat: real, body: seq<Shot>)
  {
    && (forall j :: 0 <= j < |body| ==> At(start, BeatsBefore(body, j), beat) < finish)
    && (forall j :: 0 <= j < |body| && BeatsBefore(body, j) % 16 == 0 ==> body[j].beats in SIMPLE_RATES)
    && (forall j :: 0 <= j < |body| ==> body[j].effect == Plain)
  }

  /** Section `b` is Low and the next section exists and is High: a drop follows. */
  ghost predicate DropAhead(intensities: map<int, Level>, b: nat)
    requires b in intensities
  {
    intensities[b] == Low && b + 1 in intensities && intensities[b + 1] == High
  }

  /** The rate rule of the intensity variant for the block of section `b`. */
  ghost predicate SmartRate(intensities: map<int, Level>, b: nat, i: nat)
    requires Dense(intensities, |intensities|) && b < |intensities|
  {
    match intensities[b]
    case High => if b > 0 && intensities[b - 1] == Low then i == 1 else i in HIGH_INTENSITY
    case Medium => i in MEDIUM_INTENSITY
    case Low => if DropAhead(intensities, b) then i == 16 else i in LOW_INTENSITY
  }

  /**
   * The intensity variant: every shot lies within the labelled sections, each
   * block opens with the rate its section calls for, and exactly the opening
   * shot of a block before a drop fades out over its last quarter.
   */
  ghost predicate IntensityBody(intensities: map<int, Level>, beat: real, body: seq<Shot>)
  {
    && Dense(intensities, |intensities|)
    && InSections(intensities, body)
    && RatesFollow(intensities, body)
    && FadesBeforeDrops(intensities, beat, body)
  }

  ghost predicate InSections(intensities: map<int, Level>, body: seq<Shot>)
  {
    forall j :: 0 <= j < |body| ==> BeatsBefore(body, j) < 16 * |intensities|
  }

  ghost predicate RatesFollow(intensities: map<int, Level>, body: seq<Shot>)
    requires Dense(intensities, |intensities|) && InSections(intensities, body)
  {
    forall j :: 0 <= j < |body| && BeatsBefore(body, j) % 16 == 0 ==>
      SmartRate(intensities, BeatsBefore(body, j) / 16, body[j].beats)
  }

  /**
   * The effect of a shot of `beats` beats cut at beat `at`: the opener of a
   * block before a drop fades out over its last quarter, nothing else fades.
   */
  ghost function FadeRule(intensities: map<int, Level>, beat: real, at: nat, beats: nat): Effect
    requires Dense(intensities, |intensities|) && at < 16 * |intensities|
  {
    if at % 16 == 0 && DropAhead(intensities, at / 16) then FadeOut(beat * beats as real / 4.0) else Plain
  }

  ghost predicate FadesBeforeDrops(intensities: map<int, Level>, beat: real, body: seq<Shot>)
    requires Dense(intensities, |intensities|) && InSections(intensities, body)
  {
    forall j :: 0 <= j < |body| ==> body[j].effect == FadeRule(intensities, beat, BeatsBefore(body, j), body[j].beats)
  }

  /** The loop guard: `start < finish` for the uniform variant, `beats < len(intensities) * 16` otherwise. */
  function Continues(variant: Variant, position: real, finish: real, beats: nat, sections: nat): bool
  {
    if variant == SimpleVid then position < finish else beats < 16 * sections
  }

  /** Everything `make_sub_movie` promises about a take it completes. */
  ghost predicate Scheduled(variant: Variant, bpm: real, start: real, finish: real, duration: real,
                            intensities: map<int, Level>, clips: seq<real>, titles: nat, plan: Plan)
    requires bpm > 0.0
  {
    var beat := BeatLength(bpm);
    && IntroRule(start, titles, plan.intro)
    && BodyRule(variant, beat, start, finish, intensities, clips, plan.body)
    && OutroRule(At(start, TotalBeats(plan.body), beat), duration, titles, plan.outro)
  }

  method Intro(start: real, titles: nat, choice: (nat, nat) -> nat, draws0: nat)
    returns (r: Result<Option<Title>, ScheduleError>, draws: nat)
    requires ChoiceOracle(choice)
    ensures r.Failure? <==> titles == 0 && start > 0.0
    ensures r.Failure? ==> r.error == NoTitleClips
    ensures r.Success? ==> IntroRule(start, titles, r.value)
    ensures draws >= draws0
  {
    draws := draws0;
    if 0.0 < start < 4.0 {
      if titles == 0 {
        return Failure(NoTitleClips), draws;
      }
      var title := choice(draws, titles);
      draws := draws + 1;
      r := Success(Some(Title(title, start, Blackout)));
    } else if start > 0.0 {
      if titles == 0 {
        return Failure(NoTitleClips), draws;
      }
      var title := choice(draws, titles);
      draws := draws + 1;
      r := Success(Some(Title(title, start, FadeIn(start / 2.0))));
    } else {
      r := Success(None);
    }
  }

  /** The rate selection at a 16-beat boundary, and whether the shot it opens fades out. */
  method ChooseRate(variant: Variant, intensities: map<int, Level>, cur: nat, choice: (nat, nat) -> nat, draws0: nat)
    returns (i: nat, fadeOut: bool, draws: nat)
    requires ChoiceOracle(choice)
    requires variant == SmartVid ==> Dense(intensities, |intensities|) && cur < |intensities|
    ensures IsRate(i) && draws >= draws0
    ensures variant == SimpleVid ==> i in SIMPLE_RATES && !fadeOut
    ensures variant == SmartVid ==> SmartRate(intensities, cur, i) && (fadeOut <==> DropAhead(intensities, cur))
  {
    RateTablesHoldRates();
    draws := draws0;
    fadeOut := false;
    if variant == SimpleVid {
      i := SIMPLE_RATES[choice(draws, |SIMPLE_RATES|)];
      draws := draws + 1;
    } else if intensities[cur] == High {
      if cur > 0 && intensities[cur - 1] == Low {
        i := 1;
      } else {
        i := HIGH_INTENSITY[choice(draws, |HIGH_INTENSITY|)];
        draws := draws + 1;
      }
    } else if intensities[cur] == Medium {
      i := MEDIUM_INTENSITY[choice(draws, |MEDIUM_INTENSITY|)];
      draws := draws + 1;
    } else if cur + 1 in intensities && intensities[cur + 1] == High {
      i := 16;
      fadeOut := true;
    } else {
      // also the `KeyError` fallback for the last section
      i := LOW_INTENSITY[choice(draws, |LOW_INTENSITY|)];
      draws := draws + 1;
    }
  }

  /** One footage shot of `i` beats from a random clip at a random whole-second offset. */
  method DrawShot(clips: seq<real>, beat: real, i: nat, fadeOut: bool,
                  choice: (nat, nat) -> nat, randint: (nat, int) -> int, draws0: nat)
    returns (shot: Shot, draws: nat)
    requires ChoiceOracle(choice) && RandintOracle(randint)
    requires |clips| > 0 && IsRate(i) && beat > 0.0 && LongClips(clips, beat)
    ensures ShotOk(clips, beat, shot) && shot.beats == i
    ensures shot.effect == (if fadeOut then FadeOut(beat * i as real / 4.0) else Plain)
    ensures draws == draws0 + 2
  {
    var video := choice(draws0, |clips|);
    assert beat * i as real <= beat * 16.0;
    var videoStart := randint(draws0 + 1, (clips[video] - beat * i as real).Floor);
    shot := Shot(video, videoStart, i, if fadeOut then FadeOut(beat * i as real / 4.0) else Plain);
    draws := draws0 + 2;
  }

  method Outro(end: real, duration: real, titles: nat, choice: (nat, nat) -> nat, draws0: nat)
    returns (r: Result<Option<Title>, ScheduleError>, draws: nat)
    requires ChoiceOracle(choice)
    ensures r.Failure? <==> titles == 0 && end < duration
    ensures r.Failure? ==> r.error == NoTitleClips
    ensures r.Success? ==> OutroRule(end, duration, titles, r.value)
    ensures draws >= draws0
  {
    draws := draws0;
    if end < duration {
      if titles == 0 {
        return Failure(NoTitleClips), draws;
      }
      var title := choice(draws, titles);
      draws := draws + 1;
      r := Success(Some(Title(title, duration - end, FadeOut((duration - end) / 2.0))));
    } else {
      r := Success(None);
    }
  }

  lemma Appended(body: seq<Shot>, s: Shot)
    ensures Starts(body + [s]) == Starts(body) + [TotalBeats(body) + s.beats]
  {
    assert (body + [s])[..|body|] == body;
  }

  /** `beats` is a whole number of shots of rate `i` past a 16-beat boundary. */
  predicate Fits(beats: nat, i: nat)
  {
    && IsRate(i)
    && (i == 4 ==> beats % 4 == 0)
    && (i == 8 ==> beats % 8 == 0)
    && (i == 16 ==> beats % 16 == 0)
  }

  /** Any rate fits at a 16-beat boundary. */
  lemma BoundaryFits(beats: nat, i: nat)
    requires IsRate(i) && beats % 16 == 0
    ensures Fits(beats, i)
  {
  }

  /** One more shot of a rate that fits stays inside its 16-beat block and keeps fitting. */
  lemma RateFits(beats: nat, i: nat)
    requires Fits(beats, i)
    ensures beats % 16 + i <= 16
    ensures Fits(beats + i, i)
  {
    var q, r := beats / 16, beats % 16;
    assert beats == 16 * q + r;
    if i == 4 {
      var k := beats / 4;
      assert beats == 4 * k;
      assert r == 4 * (k - 4 * q);
      assert beats + 4 == 4 * (k + 1);
    } else if i == 8 {
      var k := beats / 8;
      assert beats == 8 * k;
      assert r == 8 * (k - 2 * q);
      assert beats + 8 == 8 * (k + 1);
    } else if i == 16 {
      assert beats + 16 == 16 * (q + 1);
    }
  }

  /** The count of started blocks `(beats + 15) / 16` grows by one exactly when a shot opens a block. */
  lemma BlocksBegun(beats: nat, i: nat)
    requires IsRate(i) && beats % 16 + i <= 16
    ensures (beats + i + 15) / 16 == (if beats % 16 == 0 then beats / 16 + 1 else (beats + 15) / 16)
    ensures beats % 16 == 0 ==> (beats + 15) / 16 == beats / 16
  {
    var q, r := beats / 16, beats % 16;
    assert beats == 16 * q + r;
    assert 16 * (q + 1) <= beats + i + 15 < 16 * (q + 2);
  }

  /** A shot that starts inside the labelled sections ends inside them. */
  lemma WithinSections(beats: nat, i: nat, sections: nat)
    requires beats % 16 + i <= 16 && beats < 16 * sections
    ensures beats + i <= 16 * sections
  {
    var q, r := beats / 16, beats % 16;
    assert beats == 16 * q + r;
    assert q < sections;
  }

  lemma ShotsValidStep(clips: seq<real>, beat: real, body: seq<Shot>, s: Shot)
    requires ShotsValid(clips, beat, body) && ShotOk(clips, beat, s)
    requires TotalBeats(body) % 16 + s.beats <= 16
    requires TotalBeats(body) % 16 != 0 ==> |body| > 0 && s.beats == body[|body| - 1].beats
    ensures ShotsValid(clips, beat, body + [s])
  {
    Appended(body, s);
    var next := body + [s];
    forall j | 0 <= j < |next|
      ensures ShotOk(clips, beat, next[j])
      ensures BeatsBefore(next, j) % 16 + next[j].beats <= 16
      ensures BeatsBefore(next, j) % 16 != 0 ==> j > 0 && next[j].beats == next[j - 1].beats
    {
      if j < |body| {
        assert next[j] == body[j] && BeatsBefore(next, j) == BeatsBefore(body, j);
        if j > 0 {
          assert next[j - 1] == body[j - 1];
        }
      } else {
        assert next[j] == s && BeatsBefore(next, j) == TotalBeats(body);
        if j > 0 {
          assert next[j - 1] == body[j - 1];
        }
      }
    }
  }

  lemma UniformStep(start: real, finish: real, beat: real, body: seq<Shot>, s: Shot)
    requires UniformBody(start, finish, beat, body)
    requires At(start, TotalBeats(body), beat) < finish
    requires TotalBeats(body) % 16 == 0 ==> s.beats in SIMPLE_RATES
    requires s.effect == Plain
    ensures UniformBody(start, finish, beat, body + [s])
  {
    Appended(body, s);
    var next := body + [s];
    forall j | 0 <= j < |next|
      ensures At(start, BeatsBefore(next, j), beat) < finish
      ensures BeatsBefore(next, j) % 16 == 0 ==> next[j].beats in SIMPLE_RATES
      ensures next[j].effect == Plain
    {
      if j < |body| {
        assert next[j] == body[j] && BeatsBefore(next, j) == BeatsBefore(body, j);
      } else {
        assert BeatsBefore(next, j) == TotalBeats(body);
      }
    }
  }

  lemma IntensityStep(intensities: map<int, Level>, beat: real, body: seq<Shot>, s: Shot)
    requires IntensityBody(intensities, beat, body)
    requires TotalBeats(body) < 16 * |intensities|
    requires TotalBeats(body) % 16 == 0 ==> SmartRate(intensities, TotalBeats(body) / 16, s.beats)
    requires s.effect == FadeRule(intensities, beat, TotalBeats(body), s.beats)
    ensures IntensityBody(intensities, beat, body + [s])
  {
    Appended(body, s);
    InSectionsStep(intensities, body, s);
    RatesFollowStep(intensities, body, s);
    FadesBeforeDropsStep(intensities, beat, body, s);
  }

  lemma InSectionsStep(intensities: map<int, Level>, body: seq<Shot>, s: Shot)
    requires InSections(intensities, body) && TotalBeats(body) < 16 * |intensities|
    requires Starts(body + [s]) == Starts(body) + [TotalBeats(body) + s.beats]
    ensures InSections(intensities, body + [s])
  {
    var next := body + [s];
    forall j | 0 <= j < |next|
      ensures BeatsBefore(next, j) < 16 * |intensities|
    {
      if j < |body| {
        assert BeatsBefore(next, j) == BeatsBefore(body, j);
      } else {
        assert BeatsBefore(next, j) == TotalBeats(body);
      }
    }
  }

  lemma RatesFollowStep(intensities: map<int, Level>, body: seq<Shot>, s: Shot)
    requires Dense(intensities, |intensities|) && InSections(intensities, body + [s])
    requires InSections(intensities, body) && RatesFollow(intensities, body)
    requires TotalBeats(body) < 16 * |intensities|
    requires TotalBeats(body) % 16 == 0 ==> SmartRate(intensities, TotalBeats(body) / 16, s.beats)
    requires Starts(body + [s]) == Starts(body) + [TotalBeats(body) + s.beats]
    ensures RatesFollow(intensities, body + [s])
  {
    var next := body + [s];
    forall j | 0 <= j < |next| && BeatsBefore(next, j) % 16 == 0
      ensures SmartRate(intensities, BeatsBefore(next, j) / 16, next[j].beats)
    {
      if j < |body| {
        assert next[j] == body[j] && BeatsBefore(next, j) == BeatsBefore(body, j);
      } else {
        assert next[j] == s && BeatsBefore(next, j) == TotalBeats(body);
      }
    }
  }

  lemma FadesBeforeDropsStep(intensities: map<int, Level>, beat: real, body: seq<Shot>, s: Shot)
    requires Dense(intensities, |intensities|) && InSections(intensities, body + [s])
    requires InSections(intensities, body) && FadesBeforeDrops(intensities, beat, body)
    requires TotalBeats(body) < 16 * |intensities|
    requires s.effect == FadeRule(intensities, beat, TotalBeats(body), s.beats)
    requires Starts(body + [s]) == Starts(body) + [TotalBeats(body) + s.beats]
    ensures FadesBeforeDrops(intensities, beat, body + [s])
  {
    var next := body + [s];
    forall j | 0 <= j < |next|
      ensures next[j].effect == FadeRule(intensities, beat, BeatsBefore(next, j), next[j].beats)
    {
      if j < |body| {
        assert next[j] == body[j] && BeatsBefore(next, j) == BeatsBefore(body, j);
      } else {
        assert next[j] == s && BeatsBefore(next, j) == TotalBeats(body);
      }
    }
  }

  /** What the loop of `make_sub_movie` promises about the shots it cuts. */
  ghost predicate BodyRule(variant: Variant, beat: real, start: real, finish: real,
                           intensities: map<int, Level>, clips: seq<real>, body: seq<Shot>)
  {
    && ShotsValid(clips, beat, body)
    && (variant == SimpleVid ==> UniformBody(start, finish, beat, body) && At(start, TotalBeats(body), beat) >= finish)
    && (variant == SmartVid ==> IntensityBody(intensities, beat, body) && TotalBeats(body) == 16 * |intensities|)
  }

  /** The loop invariant of `make_sub_movie` over the shots cut so far. */
  ghost predicate Cutting(variant: Variant, beat: real, start: real, finish: real,
                          intensities: map<int, Level>, clips: seq<real>, body: seq<Shot>)
  {
    && ShotsValid(clips, beat, body)
    && (variant == SimpleVid ==> UniformBody(start, finish, beat, body))
    && (variant == SmartVid ==> IntensityBody(intensities, beat, body))
  }

  /** Cutting one more shot, chosen by the rules at the current beat, keeps the invariant. */
  lemma CutStep(variant: Variant, beat: real, start: real, finish: real,
                intensities: map<int, Level>, clips: seq<real>, body: seq<Shot>, s: Shot)
    requires Cutting(variant, beat, start, finish, intensities, clips, body)
    requires ShotOk(clips, beat, s)
    requires TotalBeats(body) % 16 + s.beats <= 16
    requires TotalBeats(body) % 16 != 0 ==> |body| > 0 && s.beats == body[|body| - 1].beats
    requires variant == SimpleVid ==>
               && At(start, TotalBeats(body), beat) < finish
               && (TotalBeats(body) % 16 == 0 ==> s.beats in SIMPLE_RATES)
               && s.effect == Plain
    requires variant == SmartVid ==>
               && TotalBeats(body) < 16 * |intensities|
               && (TotalBeats(body) % 16 == 0 ==> SmartRate(intensities, TotalBeats(body) / 16, s.beats))
               && s.effect == FadeRule(intensities, beat, TotalBeats(body), s.beats)
    ensures Cutting(variant, beat, start, finish, intensities, clips, body + [s])
    ensures TotalBeats(body + [s]) == TotalBeats(body) + s.beats
  {
    ShotsValidStep(clips, beat, body, s);
    if variant == SimpleVid {
      UniformStep(start, finish, beat, body, s);
    } else {
      IntensityStep(intensities, beat, body, s);
    }
    Appended(body, s);
  }

  /**
   * The state of the loop of `make_sub_movie` at its head: `position` is
   * `start` advanced by the `beats` cut so far, the last shot's rate `i`
   * still fits, `newBlock` is set only before the first shot, and the
   * intensity variant's section counter `cur` counts the blocks begun.
   */
  ghost predicate Looping(variant: Variant, beat: real, start: real, finish: real,
                          intensities: map<int, Level>, clips: seq<real>, body: seq<Shot>,
                          beats: nat, position: real, i: nat, cur: nat, newBlock: bool)
  {
    && position == At(start, beats, beat)
    && beats == TotalBeats(body)
    && (newBlock <==> |body| == 0)
    && (|body| == 0 ==> beats == 0)
    && (|body| > 0 ==> |clips| > 0 && i == body[|body| - 1].beats && Fits(beats, i))
    && Cutting(variant, beat, start, finish, intensities, clips, body)
    && (variant == SmartVid ==> cur == (beats + 15) / 16 && beats <= 16 * |intensities|)
  }

  /**
   * The head of the loop body: at a 16-beat boundary (and before the first
   * shot) the rate is chosen afresh and the intensity variant moves on to
   * the next section; elsewhere the previous rate `i0` is kept.
   */
  method OpenBlock(variant: Variant, intensities: map<int, Level>, beats: nat, newBlock: bool, i0: nat, cur0: nat,
                   choice: (nat, nat) -> nat, draws0: nat)
    returns (i: nat, fadeOut: bool, cur: nat, draws: nat)
    requires ChoiceOracle(choice)
    requires newBlock ==> beats == 0
    requires variant == SmartVid ==>
               Dense(intensities, |intensities|) && cur0 == (beats + 15) / 16 && beats < 16 * |intensities|
    ensures draws >= draws0
    ensures beats % 16 == 0 ==> IsRate(i)
    ensures beats % 16 == 0 && variant == SimpleVid ==> i in SIMPLE_RATES && !fadeOut
    ensures beats % 16 == 0 && variant == SmartVid ==>
              && SmartRate(intensities, beats / 16, i)
              && (fadeOut <==> DropAhead(intensities, beats / 16))
              && cur == beats / 16 + 1
    ensures beats % 16 != 0 ==> i == i0 && !fadeOut && cur == cur0
  {
    var opens := newBlock;
    if beats % 16 == 0 {
      opens := true;
    }
    i, fadeOut, cur, draws := i0, false, cur0, draws0;
    if opens {
      i, fadeOut, draws := ChooseRate(variant, intensities, cur, choice, draws);
      if variant == SmartVid {
        cur := cur + 1;
      }
    }
  }

  /** The rest of the loop body: cut one shot of `i` beats and advance `start` and `beats`. */
  method CutShot(variant: Variant, beat: real, start: real, finish: real,
                 intensities: map<int, Level>, clips: seq<real>,
                 body: seq<Shot>, beats: nat, position: real, i: nat, fadeOut: bool,
                 ghost i0: nat, ghost cur0: nat, ghost cur: nat,
                 choice: (nat, nat) -> nat, randint: (nat, int) -> int, draws0: nat)
    returns (body': seq<Shot>, beats': nat, position': real, draws: nat)
    requires beat > 0.0 && |clips| > 0
    requires ChoiceOracle(choice) && RandintOracle(randint)
    requires LongClips(clips, beat)
    requires Looping(variant, beat, start, finish, intensities, clips, body, beats, position, i0, cur0, |body| == 0)
    requires Continues(variant, position, finish, beats, |intensities|)
    requires beats % 16 == 0 ==> IsRate(i)
    requires beats % 16 == 0 && variant == SimpleVid ==> i in SIMPLE_RATES && !fadeOut
    requires beats % 16 == 0 && variant == SmartVid ==>
               && SmartRate(intensities, beats / 16, i)
               && (fadeOut <==> DropAhead(intensities, beats / 16))
               && cur == beats / 16 + 1
    requires beats % 16 != 0 ==> i == i0 && !fadeOut && cur == cur0
    ensures Looping(variant, beat, start, finish, intensities, clips, body', beats', position', i, cur, false)
    ensures beats' == beats + i && beats' > beats && draws == draws0 + 2
  {
    if beats % 16 == 0 {
      BoundaryFits(beats, i);
    }
    var shot;
    shot, draws := DrawShot(clips, beat, i, fadeOut, choice, randint, draws0);
    RateFits(beats, i);
    BlocksBegun(beats, i);
    if variant == SmartVid {
      WithinSections(beats, i, |intensities|);
    }
    CutStep(variant, beat, start, finish, intensities, clips, body, shot);
    body' := body + [shot];
    AtStep(start, beats, i, beat);
    position' := position + beat * i as real;
    beats' := beats + i;
  }

  /**
   * The main loop of `make_sub_movie`: while the guard holds, re-roll the
   * rate at a 16-beat boundary, cut one shot of that many beats, and advance
   * `start` and `beats`.
   */
  method CutShots(variant: Variant, beat: real, start: real, finish: real,
                  intensities: map<int, Level>, clips: seq<real>,
                  choice: (nat, nat) -> nat, randint: (nat, int) -> int, draws0: nat)
    returns (r: Result<seq<Shot>, ScheduleError>, draws: nat)
    requires beat > 0.0
    requires ChoiceOracle(choice) && RandintOracle(randint)
    requires LongClips(clips, beat)
    requires variant == SmartVid ==> Dense(intensities, |intensities|)
    ensures draws >= draws0
    ensures r.Failure? <==> |clips| == 0 && Continues(variant, start, finish, 0, |intensities|)
    ensures r.Failure? ==> r.error == NoFootageClips
    ensures r.Success? ==> BodyRule(variant, beat, start, finish, intensities, clips, r.value)
  {
    draws := draws0;
    var newBlock := true;
    var cur: nat := 0;
    var fadeOut := false;
    var beats: nat := 0;
    var i: nat := 0;
    var position := start;
    var body: seq<Shot> := [];
    ghost var bound: int := if variant == SimpleVid then ((finish - start) / beat).Floor + 1 else 16 * |intensities|;
    while Continues(variant, position, finish, beats, |intensities|)
      invariant Looping(variant, beat, start, finish, intensities, clips, body, beats, position, i, cur, newBlock)
      invariant !fadeOut && draws >= draws0
      decreases bound - beats
    {
      if variant == SimpleVid {
        StepsBelow(beats, beat, finish - start);
      }
      ghost var i0, cur0 := i, cur;
      i, fadeOut, cur, draws := OpenBlock(variant, intensities, beats, newBlock, i, cur, choice, draws);
      if |clips| == 0 {
        return Failure(NoFootageClips), draws;
      }
      body, beats, position, draws :=
        CutShot(variant, beat, start, finish, intensities, clips, body, beats, position, i, fadeOut,
                i0, cur0, cur, choice, randint, draws);
      fadeOut := false;
      newBlock := false;
    }
    r := Success(body);
  }

  /**
   * `make_sub_movie`: the intro title, the shots of the main loop, then the
   * outro title. `shots` is the body the loop cut (empty when the intro or
   * the loop raised); the outro needs a title exactly when it ends early.
   */
  method MakeSubMovie(variant: Variant, bpm: real, start: real, finish: real, duration: real,
                      intensities: map<int, Level>, clips: seq<real>, titles: nat,
                      choice: (nat, nat) -> nat, randint: (nat, int) -> int, draws0: nat)
    returns (r: Result<Plan, ScheduleError>, draws: nat, ghost shots: seq<Shot>)
    requires bpm > 0.0
    requires ChoiceOracle(choice) && RandintOracle(randint)
    requires LongClips(clips, BeatLength(bpm))
    requires variant == SmartVid ==> Dense(intensities, |intensities|)
    requires variant == SimpleVid && start < finish ==> finish != 0.0
    ensures draws >= draws0
    ensures titles == 0 && start > 0.0 ==> r == Failure(NoTitleClips)
    ensures r == Failure(NoTitleClips) ==> titles == 0
    ensures !(titles == 0 && start > 0.0) && r != Failure(NoFootageClips) ==>
              BodyRule(variant, BeatLength(bpm), start, finish, intensities, clips, shots)
    ensures r == Failure(NoTitleClips) <==>
              titles == 0 && (start > 0.0 ||
                (r != Failure(NoFootageClips) && At(start, TotalBeats(shots), BeatLength(bpm)) < duration))
    ensures r.Success? ==> r.value.body == shots
    ensures r == Failure(NoFootageClips) <==>
              |clips| == 0 && !(titles == 0 && start > 0.0) && Continues(variant, start, finish, 0, |intensities|)
    ensures titles > 0 && |clips| > 0 ==> r.Success?
    ensures r.Success? ==> Scheduled(variant, bpm, start, finish, duration, intensities, clips, titles, r.value)
  {
    var beat := BeatLength(bpm);
    shots := [];
    var intro;
    intro, draws := Intro(start, titles, choice, draws0);
    if intro.Failure? {
      return Failure(intro.error), draws, shots;
    }
    var body;
    body, draws := CutShots(variant, beat, start, finish, intensities, clips, choice, randint, draws);
    if body.Failure? {
      return Failure(body.error), draws, shots;
    }
    shots := body.value;
    var outro;
    outro, draws := Outro(At(start, TotalBeats(body.value), beat), duration, titles, choice, draws);
    if outro.Failure? {
      return Failure(outro.error), draws, shots;
    }
    r := Success(Plan(intro.value, body.value, outro.value));
  }

  /**
   * The per-take loop of `main` (run one take after another): `complexity`
   * takes from the same analysis inputs, the random stream carried over from
   * take to take; the first take that raises ends the run.
   */
  method MakeTakes(variant: Variant, complexity: nat, bpm: real, start: real, finish: real, duration: real,
                   intensities: map<int, Level>, clips: seq<real>, titles: nat,
                   choice: (nat, nat) -> nat, randint: (nat, int) -> int, draws0: nat)
    returns (r: Result<seq<Plan>, ScheduleError>, draws: nat)
    requires bpm > 0.0
    requires ChoiceOracle(choice) && RandintOracle(randint)
    requires LongClips(clips, BeatLength(bpm))
    requires variant == SmartVid ==> Dense(intensities, |intensities|)
    requires variant == SimpleVid && start < finish ==> finish != 0.0
    ensures draws >= draws0
    ensures r.Success? ==> |r.value| == complexity
    ensures r.Success? ==> forall k :: 0 <= k < complexity ==>
              Scheduled(variant, bpm, start, finish, duration, intensities, clips, titles, r.value[k])
    ensures titles > 0 && |clips| > 0 ==> r.Success?
    ensures r.Failure? ==> complexity > 0 && (titles == 0 || |clips| == 0)
  {
    var takes: seq<Plan> := [];
    draws := draws0;
    for idx := 0 to complexity
      invariant |takes| == idx && draws >= draws0
      invariant forall k :: 0 <= k < idx ==>
                  Scheduled(variant, bpm, start, finish, duration, intensities, clips, titles, takes[k])
    {
      var take;
      ghost var shots;
      take, draws, shots := MakeSubMovie(variant, bpm, start, finish, duration, intensities, clips, titles, choice, randint, draws);
      if take.Failure? {
        return Failure(take.error), draws;
      }
      takes := takes + [take.value];
    }
    r := Success(takes);
  }

  lemma {:induction false} StartsStep(body: seq<Shot>, j: nat)
    requires j < |body|
    ensures BeatsBefore(body, j + 1) == BeatsBefore(body, j) + body[j].beats
    decreases |body|
  {
    var init := body[..|body| - 1];
    if j < |body| - 1 {
      StartsStep(init, j);
      assert init[j] == body[j];
    }
  }

  /**
   * Because no shot straddles a 16-beat boundary, every boundary below the
   * end of the body is the start of some shot: each labelled section gets a
   * block of its own, opened by the rate its label calls for.
   */
  lemma {:induction false} EveryBlockOpens(body: seq<Shot>, sections: nat)
    requires Aligned(body) && TotalBeats(body) == 16 * sections
    ensures forall b :: 0 <= b < sections ==> exists j :: 0 <= j < |body| && BeatsBefore(body, j) == 16 * b
  {
    BoundariesReached(body, |body|);
    forall b | 0 <= b < sections
      ensures exists j :: 0 <= j < |body| && BeatsBefore(body, j) == 16 * b
    {
      assert 16 * b <= BeatsBefore(body, |body|) && (16 * b) % 16 == 0;
      var j :| 0 <= j <= |body| && BeatsBefore(body, j) == 16 * b;
      assert j < |body|;
    }
  }

  lemma {:induction false} BoundariesReached(body: seq<Shot>, n: nat)
    requires Aligned(body) && n <= |body|
    ensures forall m :: 0 <= m <= BeatsBefore(body, n) && m % 16 == 0 ==>
              exists j :: 0 <= j <= n && BeatsBefore(body, j) == m
  {
    if n > 0 {
      BoundariesReached(body, n - 1);
      StartsStep(body, n - 1);
      forall m | 0 <= m <= BeatsBefore(body, n) && m % 16 == 0
        ensures exists j :: 0 <= j <= n && BeatsBefore(body, j) == m
      {
        if m <= BeatsBefore(body, n - 1) {
          var j :| 0 <= j <= n - 1 && BeatsBefore(body, j) == m;
        } else {
          assert BeatsBefore(body, n) == m;
        }
      }
    }
  }

  /**
   * A faded-out shot is the 16-beat opener of a Low block before a High one,
   * and the very next shot opens the drop at rate 1, unfaded.
   */
  lemma FadeOutLeadsIntoDrop(intensities: map<int, Level>, beat: real, body: seq<Shot>, j: nat)
    requires IntensityBody(intensities, beat, body) && TotalBeats(body) == 16 * |intensities|
    requires j < |body| && body[j].effect.FadeOut?
    ensures body[j].beats == 16 && body[j].effect == FadeOut(4.0 * beat)
    ensures j + 1 < |body| && body[j + 1].beats == 1 && body[j + 1].effect == Plain
  {
    var b := BeatsBefore(body, j) / 16;
    assert BeatsBefore(body, j) % 16 == 0 && DropAhead(intensities, b);
    StartsStep(body, j);
    assert BeatsBefore(body, j + 1) == 16 * (b + 1);
    assert b + 1 < |intensities|;
    assert BeatsBefore(body, j + 1) != TotalBeats(body);
    assert BeatsBefore(body, j + 1) / 16 == b + 1;
  }

  /**
   * A Low section followed by a High one at 120 bpm: the Low block is one
   * 16-beat shot fading out over its last 2 seconds, the drop is sixteen
   * 1-beat shots.
   */
  lemma LowIntoHighAt120(start: real, finish: real, duration: real, clips: seq<real>, titles: nat, plan: Plan)
    requires Scheduled(SmartVid, 120.0, start, finish, duration, map[0 := Low, 1 := High], clips, titles, plan)
    ensures |plan.body| == 17
    ensures plan.body[0].beats == 16 && plan.body[0].effect == FadeOut(2.0)
    ensures forall k :: 1 <= k < 17 ==> plan.body[k].beats == 1 && plan.body[k].effect == Plain
  {
    var intensities := map[0 := Low, 1 := High];
    var body := plan.body;
    var beat := BeatLength(120.0);
    assert beat == 0.5;
    assert IntensityBody(intensities, beat, body) && Aligned(body) && TotalBeats(body) == 32;
    assert |body| > 0;
    assert BeatsBefore(body, 0) == 0 && DropAhead(intensities, 0);
    StartsStep(body, 0);
    var j := 1;
    while j < |body|
      invariant 1 <= j <= |body| && j <= 17
      invariant BeatsBefore(body, j) == 15 + j
      invariant forall k :: 1 <= k < j ==> body[k].beats == 1 && body[k].effect == Plain
    {
      assert BeatsBefore(body, j) < 32;
      StartsStep(body, j);
      if j == 1 {
        assert BeatsBefore(body, j) % 16 == 0 && BeatsBefore(body, j) / 16 == 1;
        assert SmartRate(intensities, 1, body[j].beats) && !DropAhead(intensities, 1);
      } else {
        assert BeatsBefore(body, j) % 16 != 0;
        assert body[j].beats == body[j - 1].beats;
      }
      assert body[j].beats == 1 && body[j].effect == Plain;
      j := j + 1;
    }
  }
}
