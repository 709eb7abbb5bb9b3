/**
 * The pairwise blend of the takes (music_video_generator.py, the loop that
 * reduces the `subVid` takes to one generated video).
 *
 * The temp folder is a set of artifacts. Take `k` is `Sub(k)`; the
 * `replace("subVid", "blended")` and `replace("blended", "mashed")` renamings
 * turn it into `Blended(k)` and `Mashed(k)`; `Generated` is the
 * `<song>_generated.mp4` output. Every ffmpeg `blend='difference'` call is a
 * `Blend` command that adds its output to the folder; `os.rename` removes the
 * old name and adds the new one.
 */
module Reducer {
  import opened Wrappers

  datatype Artifact = Sub(id: nat) | Blended(id: nat) | Mashed(id: nat) | Generated | Other(id: nat)

  datatype Command =
    | Blend(top: Artifact, bottom: Artifact, out: Artifact)
    | Rename(from: Artifact, to: Artifact)

  /**
   * What the existence test before a mash looks at: the still-empty slot
   * `mashed_vid_paths[i]` (the code as it stands) or the file about to be
   * written (the test the blend step uses).
   */
  datatype MashGuard = SlotGuard | TargetGuard

  datatype Outcome =
    | NoSubMovies                                  // `sys.exit` before any blend
    | Reduced(files: set<Artifact>, log: seq<Command>)

  predicate Distinct<T(==)>(s: seq<T>)
  {
    forall p, q :: 0 <= p < q < |s| ==> s[p] != s[q]
  }

  /** The takes: the folder listing reversed, keeping the `subVid` entries. */
  function SubVidPaths(listing: seq<Artifact>): (subs: seq<Artifact>)
    ensures forall a :: a in subs <==> a in listing && a.Sub?
    ensures AllSubs(subs)
  {
    if |listing| == 0 then []
    else
      var rest := SubVidPaths(listing[1..]);
      assert forall a :: a in rest ==> a in listing[1..];
      if listing[0].Sub? then rest + [listing[0]] else rest
  }

  /** A listing without repeats gives takes without repeats. */
  lemma {:induction false} SubVidPathsDistinct(listing: seq<Artifact>)
    requires Distinct(listing)
    ensures Distinct(SubVidPaths(listing))
  {
    if |listing| > 0 {
      SubVidPathsDistinct(listing[1..]);
      assert listing[0] !in listing[1..] by {
        NotLater(listing, 0);
      }
    }
  }

  /**
   * Listing one more entry puts it in front of the takes when it is a take:
   * with `SubVidPaths([]) == []` this fixes the order as the reversed listing.
   */
  lemma {:induction false} SubVidPathsSnoc(listing: seq<Artifact>, a: Artifact)
    ensures SubVidPaths(listing + [a]) == (if a.Sub? then [a] else []) + SubVidPaths(listing)
    decreases |listing|
  {
    var front := if a.Sub? then [a] else [];
    if |listing| == 0 {
      assert (listing + [a])[1..] == [];
    } else {
      var rest := listing[1..];
      assert (listing + [a])[0] == listing[0] && (listing + [a])[1..] == rest + [a];
      SubVidPathsSnoc(rest, a);
      var tail := if listing[0].Sub? then [listing[0]] else [];
      assert SubVidPaths(listing + [a]) == front + SubVidPaths(rest) + tail;
      assert SubVidPaths(listing) == SubVidPaths(rest) + tail;
    }
  }

  predicate AllSubs(subs: seq<Artifact>)
  {
    forall j :: 0 <= j < |subs| ==> subs[j].Sub?
  }

  /** `[''] * k`: Python repeats a list a negative number of times as the empty list. */
  function Slots(k: int): (r: seq<Option<Artifact>>)
    ensures |r| == if k <= 0 then 0 else k
    ensures forall j :: 0 <= j < |r| ==> r[j] == None
  {
    if k <= 0 then [] else seq(k, _ => None)
  }

  /** `exists(path)`; `exists('')` is false. */
  predicate Exists(files: set<Artifact>, slot: Option<Artifact>)
  {
    slot.Some? && slot.value in files
  }

  function Perform(files: set<Artifact>, c: Command): set<Artifact>
  {
    match c
    case Blend(_, _, out) => files + {out}
    case Rename(from, to) => files - {from} + {to}
  }

  /** The folder after running `log` from `files`. */
  function Apply(files: set<Artifact>, log: seq<Command>): set<Artifact>
  {
    if |log| == 0 then files else Perform(Apply(files, log[..|log| - 1]), log[|log| - 1])
  }

  /**
   * Iteration `i` (counting down from `n - 2`), first part: the blend of take
   * `i + 1` over take `i`, unless its output is already in the folder the run
   * started from; with two takes the blend is renamed to the generated file.
   */
  function BlendStep(subs: seq<Artifact>, files0: set<Artifact>, i: nat): seq<Command>
    requires AllSubs(subs) && i + 1 < |subs|
  {
    var blended := Blended(subs[i + 1].id);
    if blended !in files0 then
      [Blend(subs[i + 1], subs[i], blended)] + (if i == 0 && |subs| == 2 then [Rename(blended, Generated)] else [])
    else []
  }

  /**
   * Second part, for `i < n - 2`: the mash of the two blends above take `i`,
   * renamed to the generated file when there are three takes. The code as it
   * stands issues it every time; the target guard skips an existing mash.
   */
  function MashStep(subs: seq<Artifact>, files0: set<Artifact>, guard: MashGuard, i: nat): seq<Command>
    requires AllSubs(subs) && i + 1 < |subs|
  {
    var n := |subs|;
    if i < n - 2 && (guard == SlotGuard || Mashed(subs[i + 2].id) !in files0) then
      [Blend(Blended(subs[i + 2].id), Blended(subs[i + 1].id), Mashed(subs[i + 2].id))]
        + (if i == 0 && n == 3 then [Rename(Mashed(subs[i + 2].id), Generated)] else [])
    else []
  }

  /**
   * Third part: the blend of the two top mashes into the generated file.
   * The first iteration allowed to try it is `n - 4`, and once it has run the
   * generated file exists, so it is issued there or nowhere.
   */
  function FinalStep(subs: seq<Artifact>, files0: set<Artifact>, i: nat): seq<Command>
    requires AllSubs(subs) && i + 1 < |subs|
  {
    if i + 4 == |subs| && Generated !in files0 then
      [Blend(Mashed(subs[i + 3].id), Mashed(subs[i + 2].id), Generated)]
    else []
  }

  function Iteration(subs: seq<Artifact>, files0: set<Artifact>, guard: MashGuard, i: nat): seq<Command>
    requires AllSubs(subs) && i + 1 < |subs|
  {
    BlendStep(subs, files0, i) + MashStep(subs, files0, guard, i) + FinalStep(subs, files0, i)
  }

  /** Blocks of commands run from the last one to the first. */
  function FlattenFromLast<T>(blocks: seq<seq<T>>): seq<T>
  {
    if |blocks| == 0 then [] else FlattenFromLast(blocks[1..]) + blocks[0]
  }

  /** The passes of iterations `i` up to `n - 2`, indexed from `i`; the loop runs them from the top down. */
  function Passes(subs: seq<Artifact>, files0: set<Artifact>, guard: MashGuard, i: nat): (r: seq<seq<Command>>)
    requires AllSubs(subs)
    ensures |r| == if i + 1 < |subs| then |subs| - 1 - i else 0
  {
    if i + 1 < |subs| then
      seq(|subs| - 1 - i, k requires 0 <= k < |subs| - 1 - i => Iteration(subs, files0, guard, i + k))
    else []
  }

  /** The commands of iterations `n - 2` down to `i`. */
  function CommandsFrom(subs: seq<Artifact>, files0: set<Artifact>, guard: MashGuard, i: nat): seq<Command>
    requires AllSubs(subs)
  {
    FlattenFromLast(Passes(subs, files0, guard, i))
  }

  lemma CommandsFromStep(subs: seq<Artifact>, files0: set<Artifact>, guard: MashGuard, i: nat)
    requires AllSubs(subs) && i + 1 < |subs|
    ensures CommandsFrom(subs, files0, guard, i) == CommandsFrom(subs, files0, guard, i + 1) + Iteration(subs, files0, guard, i)
  {
    var p, q := Passes(subs, files0, guard, i), Passes(subs, files0, guard, i + 1);
    assert p[1..] == q;
  }

  lemma {:induction false} FromLastMembers<T>(blocks: seq<seq<T>>)
    ensures forall x :: x in FlattenFromLast(blocks) <==> exists k :: 0 <= k < |blocks| && x in blocks[k]
    decreases |blocks|
  {
    if |blocks| > 0 {
      var rest := blocks[1..];
      FromLastMembers(rest);
      assert forall k :: 0 <= k < |rest| ==> rest[k] == blocks[k + 1];
    }
  }

  lemma {:induction false} FromLastEmpty<T>(blocks: seq<seq<T>>)
    requires forall k :: 0 <= k < |blocks| ==> blocks[k] == []
    ensures FlattenFromLast(blocks) == []
    decreases |blocks|
  {
    if |blocks| > 0 {
      FromLastEmpty(blocks[1..]);
    }
  }

  /** `a` is written or removed by one of the iterations `n - 2` down to `i`. */
  predicate Touched(subs: seq<Artifact>, i: nat, a: Artifact)
  {
    || a == Generated
    || (a.Blended? && i + 1 <= |subs| && Sub(a.id) in subs[i + 1..])
    || (a.Mashed? && i + 2 <= |subs| && Sub(a.id) in subs[i + 2..])
  }

  lemma TouchedGrows(subs: seq<Artifact>, i: nat)
    requires i + 1 < |subs|
    ensures forall a :: Touched(subs, i + 1, a) ==> Touched(subs, i, a)
  {
    assert subs[i + 2..] == subs[i + 1..][1..];
    if i + 3 <= |subs| {
      assert subs[i + 3..] == subs[i + 2..][1..];
    }
  }

  /** Iteration `i` writes only what it touches. */
  lemma TouchedByIteration(subs: seq<Artifact>, i: nat)
    requires AllSubs(subs) && i + 1 < |subs|
    ensures Touched(subs, i, Blended(subs[i + 1].id))
    ensures i + 2 < |subs| ==> Touched(subs, i, Mashed(subs[i + 2].id))
  {
    assert subs[i + 1] in subs[i + 1..] && subs[i + 1] == Sub(subs[i + 1].id);
    if i + 2 < |subs| {
      assert subs[i + 2] in subs[i + 2..] && subs[i + 2] == Sub(subs[i + 2].id);
    }
  }

  /** In a listing without repeats, an entry does not come back further on. */
  lemma NotLater<T>(s: seq<T>, p: nat)
    requires Distinct(s) && p < |s|
    ensures s[p] !in s[p + 1..]
  {
    var t := s[p + 1..];
    assert forall k :: 0 <= k < |t| ==> t[k] == s[p + 1 + k];
  }

  lemma ApplySnoc(files: set<Artifact>, log: seq<Command>, c: Command)
    ensures Apply(files, log + [c]) == Perform(Apply(files, log), c)
  {
    assert (log + [c])[..|log|] == log;
  }

  /**
   * What the loop knows of the folder once iterations `n - 2` down to `i`
   * have run: what they did not touch is as the run found it, and with four
   * takes or more the generated file exists once the final blend is due.
   */
  ghost predicate Tracked(subs: seq<Artifact>, files0: set<Artifact>, i: nat, files: set<Artifact>)
  {
    && (forall a :: !Touched(subs, i, a) ==> (a in files <==> a in files0))
    && (|subs| >= 4 ==> (Generated in files <==> Generated in files0 || i + 4 <= |subs|))
  }

  /** Slots `from` and up of `blend_vid_paths` hold their blends; the rest are still empty. */
  predicate BlendSlots(subs: seq<Artifact>, from: nat, slots: seq<Option<Artifact>>)
    requires AllSubs(subs)
  {
    && |slots| == |subs| - 1
    && forall j :: 0 <= j < |slots| ==> slots[j] == if j < from then None else Some(Blended(subs[j + 1].id))
  }

  /** Slots `from` and up of `mashed_vid_paths` hold their mashes; the rest are still empty. */
  predicate MashSlots(subs: seq<Artifact>, from: nat, slots: seq<Option<Artifact>>)
    requires AllSubs(subs)
  {
    && |slots| == (if |subs| < 2 then 0 else |subs| - 2)
    && forall j :: 0 <= j < |slots| ==> slots[j] == if j < from then None else Some(Mashed(subs[j + 2].id))
  }

  /** First part of iteration `i`: blend take `i + 1` over take `i` unless the blend exists. */
  method BlendPair(subs: seq<Artifact>, ghost files0: set<Artifact>, i: nat, files: set<Artifact>, log: seq<Command>,
                   blendVidPaths: seq<Option<Artifact>>)
    returns (files': set<Artifact>, log': seq<Command>, blendVidPaths': seq<Option<Artifact>>)
    requires AllSubs(subs) && Distinct(subs) && i + 1 < |subs|
    requires BlendSlots(subs, i + 1, blendVidPaths)
    requires files == Apply(files0, log) && Tracked(subs, files0, i + 1, files)
    ensures BlendSlots(subs, i, blendVidPaths')
    ensures log' == log + BlendStep(subs, files0, i) && files' == Apply(files0, log')
    ensures forall a :: a != Blended(subs[i + 1].id) && a != Generated ==> (a in files' <==> a in files)
    ensures |subs| >= 4 ==> (Generated in files' <==> Generated in files)
  {
    var blended := Blended(subs[i + 1].id);
    blendVidPaths' := blendVidPaths[i := Some(blended)];
    NotLater(subs, i + 1);
    assert subs[i + 1] == Sub(blended.id);
    files', log' := files, log;
    if !Exists(files', blendVidPaths'[i]) {
      ApplySnoc(files0, log', Blend(subs[i + 1], subs[i], blended));
      log', files' := log' + [Blend(subs[i + 1], subs[i], blended)], files' + {blended};
      if i == 0 && |blendVidPaths'| == 1 {
        ApplySnoc(files0, log', Rename(blended, Generated));
        log', files' := log' + [Rename(blended, Generated)], files' - {blended} + {Generated};
      }
    }
  }

  /**
   * Second part, for `i < n - 2`: mash the blends of takes `i + 2` and
   * `i + 1`. With the slot guard the test reads the slot before it is
   * filled; with the target guard the slot is filled first.
   */
  method MashPair(subs: seq<Artifact>, ghost files0: set<Artifact>, guard: MashGuard, i: nat, files: set<Artifact>,
                  log: seq<Command>, blendVidPaths: seq<Option<Artifact>>, mashedVidPaths: seq<Option<Artifact>>)
    returns (files': set<Artifact>, log': seq<Command>, mashedVidPaths': seq<Option<Artifact>>)
    requires AllSubs(subs) && i + 1 < |subs|
    requires BlendSlots(subs, i, blendVidPaths) && MashSlots(subs, i + 1, mashedVidPaths)
    requires files == Apply(files0, log)
    requires i + 2 < |subs| ==> (Mashed(subs[i + 2].id) in files <==> Mashed(subs[i + 2].id) in files0)
    ensures MashSlots(subs, i, mashedVidPaths')
    ensures log' == log + MashStep(subs, files0, guard, i) && files' == Apply(files0, log')
    ensures forall a :: (i + 2 >= |subs| || a != Mashed(subs[i + 2].id)) && a != Generated ==> (a in files' <==> a in files)
    ensures |subs| >= 4 ==> (Generated in files' <==> Generated in files)
  {
    files', log', mashedVidPaths' := files, log, mashedVidPaths;
    if i < |subs| - 2 {
      var mashed := Mashed(subs[i + 2].id);
      MashSlotsStep(subs, i, mashedVidPaths);
      if guard == TargetGuard {
        mashedVidPaths' := mashedVidPaths'[i := Some(mashed)];
      }
      var issue := !Exists(files', mashedVidPaths'[i]);
      if issue {
        mashedVidPaths' := mashedVidPaths'[i := Some(mashed)];
      }
      assert mashedVidPaths' == mashedVidPaths[i := Some(mashed)];
      MashStepCommands(subs, files0, guard, i);
      files', log' := IssueMash(subs, files0, i, files, log, blendVidPaths[i + 1].value, blendVidPaths[i].value,
                                issue, i == 0 && |mashedVidPaths'| == 1);
    }
  }

  /** Filling slot `i` with its mash extends the filled slots down to `i`. */
  lemma MashSlotsStep(subs: seq<Artifact>, i: nat, slots: seq<Option<Artifact>>)
    requires AllSubs(subs) && i + 2 < |subs| && MashSlots(subs, i + 1, slots)
    ensures slots[i] == None
    ensures MashSlots(subs, i, slots[i := Some(Mashed(subs[i + 2].id))])
  {
  }

  /** The commands of the mash above take `i` when it is issued, and none when it is skipped. */
  function MashCommands(subs: seq<Artifact>, i: nat, issue: bool): seq<Command>
    requires AllSubs(subs) && i + 2 < |subs|
  {
    if issue then [MashOf(subs, i)] + (if i == 0 && |subs| == 3 then [Rename(Mashed(subs[i + 2].id), Generated)] else [])
    else []
  }

  /** The mash step issues the mash exactly when the guard lets it through. */
  lemma MashStepCommands(subs: seq<Artifact>, files0: set<Artifact>, guard: MashGuard, i: nat)
    requires AllSubs(subs) && i + 2 < |subs|
    ensures MashStep(subs, files0, guard, i)
            == MashCommands(subs, i, guard == SlotGuard || Mashed(subs[i + 2].id) !in files0)
  {
  }

  /** Run the mash above take `i` (lines 113-116) when `issue` holds, renaming it when it is the `last` one. */
  method IssueMash(subs: seq<Artifact>, ghost files0: set<Artifact>, i: nat, files: set<Artifact>, log: seq<Command>,
                   top: Artifact, bottom: Artifact, issue: bool, last: bool)
    returns (files': set<Artifact>, log': seq<Command>)
    requires AllSubs(subs) && i + 2 < |subs|
    requires top == Blended(subs[i + 2].id) && bottom == Blended(subs[i + 1].id)
    requires last <==> i == 0 && |subs| == 3
    requires files == Apply(files0, log)
    ensures log' == log + MashCommands(subs, i, issue) && files' == Apply(files0, log')
    ensures forall a :: a != Mashed(subs[i + 2].id) && a != Generated ==> (a in files' <==> a in files)
    ensures |subs| >= 4 ==> (Generated in files' <==> Generated in files)
  {
    files', log' := files, log;
    if issue {
      var mashed := Mashed(subs[i + 2].id);
      ApplySnoc(files0, log', Blend(top, bottom, mashed));
      log', files' := log' + [Blend(top, bottom, mashed)], files' + {mashed};
      if last {
        ApplySnoc(files0, log', Rename(mashed, Generated));
        log', files' := log' + [Rename(mashed, Generated)], files' - {mashed} + {Generated};
      }
    }
  }

  /** Third part, for `i < n - 3`: the two top mashes into the generated file, unless it exists. */
  method MashTop(subs: seq<Artifact>, ghost files0: set<Artifact>, i: nat, files: set<Artifact>, log: seq<Command>,
                 mashedVidPaths: seq<Option<Artifact>>)
    returns (files': set<Artifact>, log': seq<Command>)
    requires AllSubs(subs) && i + 1 < |subs|
    requires MashSlots(subs, i, mashedVidPaths)
    requires files == Apply(files0, log)
    requires |subs| >= 4 ==> (Generated in files <==> Generated in files0 || i + 5 <= |subs|)
    ensures log' == log + FinalStep(subs, files0, i) && files' == Apply(files0, log')
    ensures forall a :: a != Generated ==> (a in files' <==> a in files)
    ensures |subs| >= 4 ==> (Generated in files' <==> Generated in files0 || i + 4 <= |subs|)
  {
    files', log' := files, log;
    if i < |subs| - 3 && Generated !in files {
      ApplySnoc(files0, log, Blend(mashedVidPaths[i + 1].value, mashedVidPaths[i].value, Generated));
      log', files' := log + [Blend(mashedVidPaths[i + 1].value, mashedVidPaths[i].value, Generated)], files + {Generated};
    }
  }

  /** The loop state once iterations `n - 2` down to `i` have run. */
  ghost predicate Reducing(subs: seq<Artifact>, files0: set<Artifact>, guard: MashGuard, i: nat, files: set<Artifact>,
                           log: seq<Command>, blendVidPaths: seq<Option<Artifact>>, mashedVidPaths: seq<Option<Artifact>>)
  {
    && AllSubs(subs) && i < |subs|
    && BlendSlots(subs, i, blendVidPaths) && MashSlots(subs, i, mashedVidPaths)
    && log == CommandsFrom(subs, files0, guard, i) && files == Apply(files0, log)
    && Tracked(subs, files0, i, files)
  }

  lemma Regroup(log: seq<Command>, b: seq<Command>, m: seq<Command>, f: seq<Command>)
    ensures log + b + m + f == log + (b + m + f)
  {
  }

  /** The folder facts survive an iteration that writes only what it touches. */
  lemma TrackedStep(subs: seq<Artifact>, files0: set<Artifact>, i: nat, files: set<Artifact>, files': set<Artifact>)
    requires AllSubs(subs) && i + 1 < |subs|
    requires Tracked(subs, files0, i + 1, files)
    requires forall a :: !Touched(subs, i, a) ==> (a in files' <==> a in files)
    requires |subs| >= 4 ==> (Generated in files' <==> Generated in files0 || i + 4 <= |subs|)
    ensures Tracked(subs, files0, i, files')
  {
    TouchedGrows(subs, i);
  }

  /** One pass of the loop body, iteration `i`. */
  method Step(subs: seq<Artifact>, ghost files0: set<Artifact>, guard: MashGuard, i: nat, files: set<Artifact>,
              log: seq<Command>, blendVidPaths: seq<Option<Artifact>>, mashedVidPaths: seq<Option<Artifact>>)
    returns (files': set<Artifact>, log': seq<Command>, blendVidPaths': seq<Option<Artifact>>, mashedVidPaths': seq<Option<Artifact>>)
    requires Distinct(subs) && i + 1 < |subs|
    requires Reducing(subs, files0, guard, i + 1, files, log, blendVidPaths, mashedVidPaths)
    ensures Reducing(subs, files0, guard, i, files', log', blendVidPaths', mashedVidPaths')
  {
    TouchedByIteration(subs, i);
    if i + 2 < |subs| {
      NotLater(subs, i + 2);
      assert subs[i + 2] == Sub(subs[i + 2].id);
      assert !Touched(subs, i + 1, Mashed(subs[i + 2].id));
    }
    files', log', blendVidPaths' := BlendPair(subs, files0, i, files, log, blendVidPaths);
    ghost var blended := files';
    files', log', mashedVidPaths' := MashPair(subs, files0, guard, i, files', log', blendVidPaths', mashedVidPaths);
    ghost var mashed := files';
    files', log' := MashTop(subs, files0, i, files', log', mashedVidPaths');
    assert forall a :: !Touched(subs, i, a) ==> (a in mashed <==> a in files);
    TrackedStep(subs, files0, i, files, files');
    CommandsFromStep(subs, files0, guard, i);
    Regroup(log, BlendStep(subs, files0, i), MashStep(subs, files0, guard, i), FinalStep(subs, files0, i));
  }

  /**
   * The blend loop. The folder starts as `files0` and `listing` is its
   * directory listing; the result is the folder after the loop and the
   * commands it issued, in order.
   */
  method BlendTakes(listing: seq<Artifact>, files0: set<Artifact>, guard: MashGuard) returns (r: Outcome)
    requires Distinct(listing)
    requires forall a :: a in listing <==> a in files0
    ensures r.NoSubMovies? <==> |SubVidPaths(listing)| == 0
    ensures r.Reduced? ==> r.log == CommandsFrom(SubVidPaths(listing), files0, guard, 0)
    ensures r.Reduced? ==> r.files == Apply(files0, r.log)
  {
    var subVidPaths := SubVidPaths(listing);
    var n := |subVidPaths|;
    var blendVidPaths := Slots(n - 1);
    var mashedVidPaths := Slots(n - 2);
    if n == 0 {
      return NoSubMovies;
    }
    SubVidPathsDistinct(listing);
    var files, log := files0, [];
    var i: nat := n - 1;
    while i > 0
      invariant Reducing(subVidPaths, files0, guard, i, files, log, blendVidPaths, mashedVidPaths)
    {
      i := i - 1;
      files, log, blendVidPaths, mashedVidPaths := Step(subVidPaths, files0, guard, i, files, log, blendVidPaths, mashedVidPaths);
    }
    return Reduced(files, log);
  }

  // Properties of the commands the loop issues

  /** The take listed last comes first: `reversed(os.listdir(...))`. */
  lemma {:induction false} LastListedFirst(listing: seq<Artifact>)
    requires |listing| > 0 && listing[|listing| - 1].Sub?
    ensures |SubVidPaths(listing)| > 0 && SubVidPaths(listing)[0] == listing[|listing| - 1]
  {
    if |listing| > 1 {
      var rest := listing[1..];
      assert rest[|rest| - 1] == listing[|listing| - 1];
      LastListedFirst(rest);
    }
  }

  /** A single take is never blended: the loop has no iteration. */
  lemma OneTake(subs: seq<Artifact>, files0: set<Artifact>, guard: MashGuard)
    requires AllSubs(subs) && |subs| == 1
    ensures CommandsFrom(subs, files0, guard, 0) == []
  {
  }

  /** Two takes: one blend, renamed to the generated file, unless the blend is already there. */
  lemma TwoTakes(subs: seq<Artifact>, files0: set<Artifact>, guard: MashGuard)
    requires AllSubs(subs) && |subs| == 2
    ensures var b := Blended(subs[1].id);
      CommandsFrom(subs, files0, guard, 0)
      == if b in files0 then [] else [Blend(subs[1], subs[0], b), Rename(b, Generated)]
    ensures Blended(subs[1].id) !in files0 ==> Generated in Apply(files0, CommandsFrom(subs, files0, guard, 0))
  {
    var b := Blended(subs[1].id);
    CommandsFromStep(subs, files0, guard, 0);
    assert CommandsFrom(subs, files0, guard, 1) == [];
    assert CommandsFrom(subs, files0, guard, 0) == [] + Iteration(subs, files0, guard, 0);
    if b !in files0 {
      var log := [Blend(subs[1], subs[0], b), Rename(b, Generated)];
      assert log[..1] == [Blend(subs[1], subs[0], b)] && log[..1][..0] == [];
    }
  }

  /**
   * Three takes, as written: the two blends that are missing, then the mash
   * of the two blends, renamed to the generated file.
   */
  lemma ThreeTakes(subs: seq<Artifact>, files0: set<Artifact>)
    requires AllSubs(subs) && |subs| == 3
    ensures var b1, b2, m := Blended(subs[1].id), Blended(subs[2].id), Mashed(subs[2].id);
      CommandsFrom(subs, files0, SlotGuard, 0)
      == (if b2 in files0 then [] else [Blend(subs[2], subs[1], b2)])
       + (if b1 in files0 then [] else [Blend(subs[1], subs[0], b1)])
       + [Blend(b2, b1, m), Rename(m, Generated)]
  {
    var b1, b2, m := Blended(subs[1].id), Blended(subs[2].id), Mashed(subs[2].id);
    assert Iteration(subs, files0, SlotGuard, 1) == (if b2 in files0 then [] else [Blend(subs[2], subs[1], b2)]);
    assert Iteration(subs, files0, SlotGuard, 0)
           == (if b1 in files0 then [] else [Blend(subs[1], subs[0], b1)]) + [Blend(b2, b1, m), Rename(m, Generated)];
    CommandsFromStep(subs, files0, SlotGuard, 1);
    CommandsFromStep(subs, files0, SlotGuard, 0);
    assert CommandsFrom(subs, files0, SlotGuard, 2) == [];
  }

  /** `c` writes `a`: a blend into it or a rename onto it. */
  predicate WritesTo(c: Command, a: Artifact)
  {
    (c.Blend? && c.out == a) || (c.Rename? && c.to == a)
  }

  /** The blend of the mashes of the two takes listed first into the generated file. */
  function TopMash(subs: seq<Artifact>): Command
    requires AllSubs(subs) && |subs| >= 4
  {
    Blend(Mashed(subs[|subs| - 1].id), Mashed(subs[|subs| - 2].id), Generated)
  }

  /** The mash of the blends above take `i`, as the loop issues it. */
  function MashOf(subs: seq<Artifact>, i: nat): Command
    requires AllSubs(subs) && i + 2 < |subs|
  {
    Blend(Blended(subs[i + 2].id), Blended(subs[i + 1].id), Mashed(subs[i + 2].id))
  }

  /** A command is issued by the loop when some iteration issues it. */
  lemma CommandsFromMembers(subs: seq<Artifact>, files0: set<Artifact>, guard: MashGuard)
    requires AllSubs(subs)
    ensures forall c :: (c in CommandsFrom(subs, files0, guard, 0)
                         <==> exists j: nat :: j + 1 < |subs| && c in Iteration(subs, files0, guard, j))
  {
    var p := Passes(subs, files0, guard, 0);
    FromLastMembers(p);
    assert forall j :: 0 <= j < |p| ==> p[j] == Iteration(subs, files0, guard, j);
  }

  /** What one iteration issues, command by command. */
  lemma IterationShape(subs: seq<Artifact>, files0: set<Artifact>, guard: MashGuard, i: nat)
    requires AllSubs(subs) && i + 1 < |subs|
    ensures forall c :: c in Iteration(subs, files0, guard, i) && c.Blend? && c.out.Blended? ==> c.out !in files0
    ensures guard == TargetGuard ==>
      forall c :: c in Iteration(subs, files0, guard, i) && c.Blend? && c.out.Mashed? ==> c.out !in files0
    ensures |subs| >= 4 ==>
      forall c :: c in Iteration(subs, files0, guard, i) && WritesTo(c, Generated) ==> c == TopMash(subs)
    ensures |subs| >= 4 ==> (TopMash(subs) in Iteration(subs, files0, guard, i) <==> i + 4 == |subs| && Generated !in files0)
    ensures guard == SlotGuard && i + 2 < |subs| ==> MashOf(subs, i) in Iteration(subs, files0, guard, i)
  {
    var b, m, f := BlendStep(subs, files0, i), MashStep(subs, files0, guard, i), FinalStep(subs, files0, i);
    assert forall c :: c in b && c.Blend? ==> c.out !in files0;
    assert forall c :: c in m && c.Blend? ==> c.out.Mashed? && (guard == TargetGuard ==> c.out !in files0);
    assert forall c :: c in f ==> c.out == Generated;
    assert |subs| >= 4 ==> forall c :: c in b + m ==> !WritesTo(c, Generated);
    assert |subs| >= 4 ==> forall c :: c in f ==> c == TopMash(subs);
    assert guard == SlotGuard && i + 2 < |subs| ==> MashOf(subs, i) in m;
  }

  /**
   * With four takes or more, the one command that writes the generated file
   * is the blend of the mashes of the two takes listed first; it is issued
   * by iteration `n - 4` alone, and only when the file is missing. The
   * mashes of the lower takes feed nothing.
   */
  lemma FinalBlend(subs: seq<Artifact>, files0: set<Artifact>, guard: MashGuard)
    requires AllSubs(subs) && |subs| >= 4
    ensures forall c :: c in CommandsFrom(subs, files0, guard, 0) && WritesTo(c, Generated) ==> c == TopMash(subs)
    ensures TopMash(subs) in CommandsFrom(subs, files0, guard, 0) <==> Generated !in files0
    ensures forall j: nat :: j + 1 < |subs| && TopMash(subs) in Iteration(subs, files0, guard, j) ==> j + 4 == |subs|
  {
    CommandsFromMembers(subs, files0, guard);
    forall j: nat | j + 1 < |subs| {
      IterationShape(subs, files0, guard, j);
    }
    if Generated !in files0 {
      assert TopMash(subs) in Iteration(subs, files0, guard, |subs| - 4);
    }
  }

  /** Either guard: a first-level blend is issued only when its output is missing. */
  lemma BlendsOnlyMissing(subs: seq<Artifact>, files0: set<Artifact>, guard: MashGuard)
    requires AllSubs(subs)
    ensures forall c :: c in CommandsFrom(subs, files0, guard, 0) && c.Blend? && c.out.Blended? ==> c.out !in files0
  {
    CommandsFromMembers(subs, files0, guard);
    forall j: nat | j + 1 < |subs| {
      IterationShape(subs, files0, guard, j);
    }
  }

  /** As written: every mash is issued on every run, whatever the folder holds. */
  lemma AsWrittenMashesEveryTime(subs: seq<Artifact>, files0: set<Artifact>)
    requires AllSubs(subs)
    ensures forall j: nat :: j + 2 < |subs| ==> MashOf(subs, j) in CommandsFrom(subs, files0, SlotGuard, 0)
  {
    CommandsFromMembers(subs, files0, SlotGuard);
    forall j: nat | j + 2 < |subs| ensures MashOf(subs, j) in CommandsFrom(subs, files0, SlotGuard, 0) {
      IterationShape(subs, files0, SlotGuard, j);
    }
  }

  /** Every intermediate and the generated file are in the folder: a rerun of a finished song. */
  predicate AllPresent(subs: seq<Artifact>, files0: set<Artifact>)
    requires AllSubs(subs)
  {
    && Generated in files0
    && (forall m :: 1 <= m < |subs| ==> Blended(subs[m].id) in files0)
    && (forall m :: 2 <= m < |subs| ==> Mashed(subs[m].id) in files0)
  }

  /** Corrected: with the target guard, a mash is issued only when its output is missing. */
  lemma CorrectedMashesOnlyMissing(subs: seq<Artifact>, files0: set<Artifact>)
    requires AllSubs(subs)
    ensures forall c :: c in CommandsFrom(subs, files0, TargetGuard, 0) && c.Blend? && c.out.Mashed? ==> c.out !in files0
  {
    CommandsFromMembers(subs, files0, TargetGuard);
    forall j: nat | j + 1 < |subs| {
      IterationShape(subs, files0, TargetGuard, j);
    }
  }

  /** Corrected: rerunning a finished song issues nothing. */
  lemma CorrectedRerunIsSilent(subs: seq<Artifact>, files0: set<Artifact>)
    requires AllSubs(subs) && AllPresent(subs, files0)
    ensures CommandsFrom(subs, files0, TargetGuard, 0) == []
  {
    var p := Passes(subs, files0, TargetGuard, 0);
    forall j | 0 <= j < |p| ensures p[j] == [] {
      assert Blended(subs[j + 1].id) in files0;
      assert j + 2 < |subs| ==> Mashed(subs[j + 2].id) in files0;
      assert BlendStep(subs, files0, j) == [];
      assert MashStep(subs, files0, TargetGuard, j) == [];
      assert FinalStep(subs, files0, j) == [];
      assert p[j] == Iteration(subs, files0, TargetGuard, j);
    }
    FromLastEmpty(p);
  }

  /** Applying only blends keeps everything in the folder and adds every output. */
  lemma {:induction false} BlendsOnlyAdd(files: set<Artifact>, log: seq<Command>)
    requires forall c :: c in log ==> c.Blend?
    ensures files <= Apply(files, log)
    ensures forall c :: c in log ==> c.out in Apply(files, log)
    decreases |log|
  {
    if |log| > 0 {
      var init := log[..|log| - 1];
      assert forall c :: c in init ==> c in log;
      BlendsOnlyAdd(files, init);
      assert forall c :: c in log ==> c in init || c == log[|log| - 1];
    }
  }

  /** With four takes or more the loop renames nothing, so its log is blends only. */
  lemma NoRenamesFromFour(subs: seq<Artifact>, files0: set<Artifact>, guard: MashGuard)
    requires AllSubs(subs) && |subs| >= 4
    ensures forall c :: c in CommandsFrom(subs, files0, guard, 0) ==> c.Blend?
  {
    CommandsFromMembers(subs, files0, guard);
    forall c | c in CommandsFrom(subs, files0, guard, 0)
      ensures c.Blend?
    {
      var j: nat :| j + 1 < |subs| && c in Iteration(subs, files0, guard, j);
      IterationBlendsOnly(subs, files0, guard, j);
    }
  }

  lemma IterationBlendsOnly(subs: seq<Artifact>, files0: set<Artifact>, guard: MashGuard, i: nat)
    requires AllSubs(subs) && |subs| >= 4 && i + 1 < |subs|
    ensures forall c :: c in Iteration(subs, files0, guard, i) ==> c.Blend?
  {
    var b, m, f := BlendStep(subs, files0, i), MashStep(subs, files0, guard, i), FinalStep(subs, files0, i);
    assert forall c :: c in b ==> c.Blend?;
    assert forall c :: c in m ==> c.Blend?;
    assert forall c :: c in b + m + f ==> c in b || c in m || c in f;
  }

  /** With four takes or more, a corrected run leaves every intermediate and the generated file. */
  lemma CorrectedRunCompletes(subs: seq<Artifact>, files0: set<Artifact>)
    requires AllSubs(subs) && |subs| >= 4
    ensures AllPresent(subs, Apply(files0, CommandsFrom(subs, files0, TargetGuard, 0)))
  {
    var log := CommandsFrom(subs, files0, TargetGuard, 0);
    var files1 := Apply(files0, log);
    NoRenamesFromFour(subs, files0, TargetGuard);
    BlendsOnlyAdd(files0, log);
    CommandsFromMembers(subs, files0, TargetGuard);
    forall m | 1 <= m < |subs|
      ensures Blended(subs[m].id) in files1
    {
      if Blended(subs[m].id) !in files0 {
        assert Blend(subs[m], subs[m - 1], Blended(subs[m].id)) in Iteration(subs, files0, TargetGuard, m - 1);
      }
    }
    forall m | 2 <= m < |subs|
      ensures Mashed(subs[m].id) in files1
    {
      if Mashed(subs[m].id) !in files0 {
        assert MashOf(subs, m - 2) in Iteration(subs, files0, TargetGuard, m - 2);
      }
    }
    FinalBlend(subs, files0, TargetGuard);
  }

  /**
   * Corrected, one take or four and more: rerunning on the folder a run
   * left behind issues nothing.
   */
  lemma CorrectedRerunAfterRunIsSilent(subs: seq<Artifact>, files0: set<Artifact>)
    requires AllSubs(subs) && (|subs| == 1 || |subs| >= 4)
    ensures CommandsFrom(subs, Apply(files0, CommandsFrom(subs, files0, TargetGuard, 0)), TargetGuard, 0) == []
  {
    if |subs| >= 4 {
      CorrectedRunCompletes(subs, files0);
      CorrectedRerunIsSilent(subs, Apply(files0, CommandsFrom(subs, files0, TargetGuard, 0)));
    }
  }

  /**
   * Two takes, either guard: the blend is renamed to the generated file, so a
   * rerun finds it missing and blends and renames again.
   */
  lemma TwoTakesRerunRepeats(subs: seq<Artifact>, files0: set<Artifact>, guard: MashGuard)
    requires AllSubs(subs) && |subs| == 2 && Blended(subs[1].id) !in files0
    ensures var files1 := Apply(files0, CommandsFrom(subs, files0, guard, 0));
      && Blended(subs[1].id) !in files1
      && CommandsFrom(subs, files1, guard, 0) == CommandsFrom(subs, files0, guard, 0) != []
  {
    var b := Blended(subs[1].id);
    var log := [Blend(subs[1], subs[0], b), Rename(b, Generated)];
    TwoTakes(subs, files0, guard);
    assert log[..1] == [Blend(subs[1], subs[0], b)] && log[..1][..0] == [];
    var files1 := Apply(files0, log);
    assert b !in files1;
    TwoTakes(subs, files1, guard);
  }

  /**
   * Three takes, even corrected: the mash is renamed to the generated file,
   * so a rerun finds it missing and mashes again.
   */
  lemma ThreeTakesRerunRemashes(subs: seq<Artifact>, files0: set<Artifact>)
    requires AllSubs(subs) && |subs| == 3 && Mashed(subs[2].id) !in files0
    ensures var files1 := Apply(files0, CommandsFrom(subs, files0, TargetGuard, 0));
      && Mashed(subs[2].id) !in files1
      && MashOf(subs, 0) in CommandsFrom(subs, files1, TargetGuard, 0)
  {
    var m := Mashed(subs[2].id);
    var log := CommandsFrom(subs, files0, TargetGuard, 0);
    CommandsFromStep(subs, files0, TargetGuard, 0);
    assert MashStep(subs, files0, TargetGuard, 0) == [MashOf(subs, 0), Rename(m, Generated)];
    assert FinalStep(subs, files0, 0) == [];
    assert log[|log| - 1] == Rename(m, Generated);
    var files1 := Apply(files0, log);
    assert m !in files1;
    CommandsFromStep(subs, files1, TargetGuard, 0);
    assert MashOf(subs, 0) in MashStep(subs, files1, TargetGuard, 0);
  }

  /** Four takes, listed `Sub(0)` to `Sub(3)`, after a finished run. */
  const RERUN_TAKES: seq<Artifact> := [Sub(3), Sub(2), Sub(1), Sub(0)]
  const RERUN_FOLDER: set<Artifact> := {Blended(0), Blended(1), Blended(2), Mashed(0), Mashed(1), Generated}

  lemma RerunFolderComplete()
    ensures AllPresent(RERUN_TAKES, RERUN_FOLDER)
  {
  }

  /**
   * As written, on four takes whose intermediates and output all exist, the
   * rerun still runs two mashes whose outputs nothing reads.
   */
  lemma AsWrittenRerunRemashes()
    ensures AllPresent(RERUN_TAKES, RERUN_FOLDER)
    ensures CommandsFrom(RERUN_TAKES, RERUN_FOLDER, SlotGuard, 0)
            == [Blend(Blended(0), Blended(1), Mashed(0)), Blend(Blended(1), Blended(2), Mashed(1))]
    ensures CommandsFrom(RERUN_TAKES, RERUN_FOLDER, TargetGuard, 0) == []
  {
    var subs, files0 := RERUN_TAKES, RERUN_FOLDER;
    assert Iteration(subs, files0, SlotGuard, 2) == [];
    assert Iteration(subs, files0, SlotGuard, 1) == [Blend(Blended(0), Blended(1), Mashed(0))];
    assert Iteration(subs, files0, SlotGuard, 0) == [Blend(Blended(1), Blended(2), Mashed(1))];
    CommandsFromStep(subs, files0, SlotGuard, 2);
    CommandsFromStep(subs, files0, SlotGuard, 1);
    CommandsFromStep(subs, files0, SlotGuard, 0);
    assert CommandsFrom(subs, files0, SlotGuard, 3) == [];
    RerunFolderComplete();
    CorrectedRerunIsSilent(subs, files0);
  }
}
