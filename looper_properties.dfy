/** Properties of the loop pipeline stated over the functions of `Looper`:
    the shape of the concat manifest, the time windows its invocations cut,
    and what a run leaves behind when every stage succeeds or when one
    fails. */
module LooperProperties {
  import opened Decimal
  import opened Ffmpeg
  import opened Looper

  // ---------------------------------------------------------------------
  // The concat manifest

  /** How often `x` occurs in `s`. */
  function Count<T(==)>(s: seq<T>, x: T): nat {
    if s == [] then 0 else (if s[0] == x then 1 else 0) + Count(s[1..], x)
  }

  lemma {:induction false} CountAppend<T>(a: seq<T>, b: seq<T>, x: T)
    ensures Count(a + b, x) == Count(a, x) + Count(b, x)
  {
    if a == [] {
      assert a + b == b;
    } else {
      assert (a + b)[1..] == a[1..] + b;
      CountAppend(a[1..], b, x);
    }
  }

  lemma {:induction false} CountRepeat(block: seq<string>, c: nat, x: string)
    ensures Count(Repeat(block, c), x) == c * Count(block, x)
  {
    if c > 0 {
      CountRepeat(block, c - 1, x);
      CountAppend(Repeat(block, c - 1), block, x);
    }
  }

  lemma {:induction false} RepeatLength(block: seq<string>, c: nat)
    ensures |Repeat(block, c)| == c * |block|
  {
    if c > 0 {
      RepeatLength(block, c - 1);
    }
  }

  /** Pass `j` of the repetition holds a copy of the block. */
  lemma {:induction false} RepeatAt(block: seq<string>, c: nat, j: nat, i: nat)
    requires j < c && i < |block|
    ensures j * |block| + i < |Repeat(block, c)|
    ensures Repeat(block, c)[j * |block| + i] == block[i]
  {
    RepeatLength(block, c - 1);
    if j < c - 1 {
      RepeatAt(block, c - 1, j, i);
    } else {
      assert j * |block| == (c - 1) * |block|;
    }
  }

  /** A manifest line names exactly one file. */
  lemma ManifestLineInjective(a: string, b: string)
    requires ManifestLine(a) == ManifestLine(b)
    ensures a == b
  {
    var la, lb := ManifestLine(a), ManifestLine(b);
    assert |a| == |la| - 8 && |b| == |lb| - 8;
    assert a == la[6..|la| - 2];
    assert b == lb[6..|lb| - 2];
  }

  /** The manifest of a run with a crossfade: intro, then `loopCount` pairs
      of crossfade and loop, then a last crossfade and the outro. */
  lemma ConcatListWithCrossfade(n: Names, c: nat)
    ensures var m := ConcatList(n, c, true);
      && |m| == 2 * c + 3
      && m[0] == ManifestLine(n.intro)
      && (forall i :: 1 <= i <= 2 * c ==>
            m[i] == if i % 2 == 1 then ManifestLine(n.crossfade) else ManifestLine(n.loop))
      && m[1 + 2 * c] == ManifestLine(n.crossfade)
      && m[2 + 2 * c] == ManifestLine(n.outro)
  {
    var m := ConcatList(n, c, true);
    var block := LoopBlock(n, true);
    assert block == [ManifestLine(n.crossfade), ManifestLine(n.loop)];
    RepeatLength(block, c);
    var r := Repeat(block, c);
    assert m == [ManifestLine(n.intro)] + r + [ManifestLine(n.crossfade)] + [ManifestLine(n.outro)];
    forall i | 1 <= i <= 2 * c
      ensures m[i] == if i % 2 == 1 then ManifestLine(n.crossfade) else ManifestLine(n.loop)
    {
      var j := (i - 1) / 2;
      RepeatAt(block, c, j, (i - 1) % 2);
      assert m[i] == r[2 * j + (i - 1) % 2];
    }
  }

  /** The manifest of a run without a crossfade: intro, `loopCount` loop
      lines, outro. */
  lemma ConcatListWithoutCrossfade(n: Names, c: nat)
    ensures var m := ConcatList(n, c, false);
      && |m| == c + 2
      && m[0] == ManifestLine(n.intro)
      && (forall i :: 1 <= i <= c ==> m[i] == ManifestLine(n.loop))
      && m[1 + c] == ManifestLine(n.outro)
  {
    var m := ConcatList(n, c, false);
    var block := LoopBlock(n, false);
    assert block == [ManifestLine(n.loop)];
    RepeatLength(block, c);
    var r := Repeat(block, c);
    assert m == [ManifestLine(n.intro)] + r + [ManifestLine(n.outro)];
    forall i | 1 <= i <= c
      ensures m[i] == ManifestLine(n.loop)
    {
      RepeatAt(block, c, i - 1, 0);
      assert m[i] == r[i - 1];
    }
  }

  function Is(a: string, x: string): nat {
    if a == x then 1 else 0
  }

  /** A one-line manifest counts the file it names. */
  lemma CountLine(a: string, x: string)
    ensures Count([ManifestLine(a)], ManifestLine(x)) == Is(a, x)
  {
    assert [ManifestLine(a)][1..] == [];
    if ManifestLine(a) == ManifestLine(x) {
      ManifestLineInjective(a, x);
    }
  }

  /** How often the manifest names file `x`. */
  lemma CountInConcatList(n: Names, c: nat, hasCrossfade: bool, x: string)
    ensures Count(ConcatList(n, c, hasCrossfade), ManifestLine(x)) ==
      Is(n.intro, x) + c * ((if hasCrossfade then Is(n.crossfade, x) else 0) + Is(n.loop, x))
      + (if hasCrossfade then Is(n.crossfade, x) else 0) + Is(n.outro, x)
  {
    var line := ManifestLine(x);
    var block := LoopBlock(n, hasCrossfade);
    var cf := if hasCrossfade then [ManifestLine(n.crossfade)] else [];
    var head, tail := [ManifestLine(n.intro)], [ManifestLine(n.outro)];
    var r := Repeat(block, c);
    assert ConcatList(n, c, hasCrossfade) == head + r + cf + tail;
    CountAppend(head + r + cf, tail, line);
    CountAppend(head + r, cf, line);
    CountAppend(head, r, line);
    CountRepeat(block, c, line);
    CountLine(n.intro, x);
    CountLine(n.outro, x);
    CountLine(n.loop, x);
    CountAppend(cf, [ManifestLine(n.loop)], line);
    if hasCrossfade {
      CountLine(n.crossfade, x);
    } else {
      assert cf == [];
    }
  }

  /** With distinct names the manifest holds one intro line, one outro line,
      exactly `loopCount` loop lines and, with a crossfade, one crossfade
      line more than that (none without). */
  lemma ConcatListCounts(n: Names, c: nat, hasCrossfade: bool)
    requires Distinct(n)
    ensures var m := ConcatList(n, c, hasCrossfade);
      && Count(m, ManifestLine(n.intro)) == 1
      && Count(m, ManifestLine(n.outro)) == 1
      && Count(m, ManifestLine(n.loop)) == c
      && Count(m, ManifestLine(n.crossfade)) == (if hasCrossfade then c + 1 else 0)
  {
    CountInConcatList(n, c, hasCrossfade, n.intro);
    CountInConcatList(n, c, hasCrossfade, n.outro);
    CountInConcatList(n, c, hasCrossfade, n.loop);
    CountInConcatList(n, c, hasCrossfade, n.crossfade);
  }

  // ---------------------------------------------------------------------
  // Time windows

  /** Where each stage places its time arguments. */
  lemma StageTimeArgs(req: Request, n: Names, t: Times)
    ensures var intro, s1, s2 := StageArgs(Intro, req, n, t), StageArgs(CrossfadeSample1, req, n, t), StageArgs(CrossfadeSample2, req, n, t);
      var lp, outro := StageArgs(LoopSegment, req, n, t), StageArgs(Outro, req, n, t);
      && |intro| == 6 && intro[3] == "-t" && intro[4] == t.fadeOutStart
      && |s1| == 10 && s1[3] == "-ss" && s1[4] == t.fadeOutStart && s1[5] == "-t" && s1[6] == t.fadeLength
      && s1[8] == "afade=t=out:st=" + t.fadeOutStart + ":d=" + t.fadeLength
      && |s2| == 10 && s2[3] == "-ss" && s2[4] == t.fadeInStart && s2[5] == "-t" && s2[6] == t.fadeLength
      && s2[8] == "afade=t=in:st=" + t.fadeInStart + ":d=" + t.fadeLength
      && |lp| == 8 && lp[3] == "-ss" && lp[4] == t.loopStart && lp[5] == "-t" && lp[6] == t.loopLength
      && |outro| == 6 && outro[3] == "-ss" && outro[4] == t.loopStart
  {
  }

  /** The intro and the outro, read back from their argument vectors: the
      intro runs from the start of the track to the fade-out start, and the
      outro runs from the loop start to the end of the track. */
  lemma IntroOutroWindows(req: Request, n: Names, w: Window)
    ensures var t := TimesOf(w);
      var intro, outro := StageArgs(Intro, req, n, t), StageArgs(Outro, req, n, t);
      && |intro| == 6 && intro[3] == "-t" && ParseSeconds(intro[4]) == Some(w.fadeOutStart)
      && |outro| == 6 && outro[3] == "-ss" && ParseSeconds(outro[4]) == Some(w.loopStart)
  {
    var t := TimesOf(w);
    StageTimeArgs(req, n, t);
    SecondsRoundTrip(w.fadeOutStart);
    SecondsRoundTrip(w.loopStart);
  }

  /** The two crossfade samples, read back from their argument vectors: the
      fade-out sample starts where the intro ends, the fade-in sample starts
      a crossfade length before the loop start, both last a crossfade length
      and each fade covers its whole sample. */
  lemma SampleWindows(req: Request, n: Names, w: Window)
    ensures var t := TimesOf(w);
      var s1, s2 := StageArgs(CrossfadeSample1, req, n, t), StageArgs(CrossfadeSample2, req, n, t);
      && |s1| == 10 && s1[3] == "-ss" && s1[5] == "-t"
      && ParseSeconds(s1[4]) == Some(w.fadeOutStart) && ParseSeconds(s1[6]) == Some(w.fadeLength)
      && s1[8] == "afade=t=out:st=" + s1[4] + ":d=" + s1[6]
      && |s2| == 10 && s2[3] == "-ss" && s2[5] == "-t"
      && ParseSeconds(s2[4]) == Some(w.fadeInStart) && ParseSeconds(s2[6]) == Some(w.fadeLength)
      && s2[8] == "afade=t=in:st=" + s2[4] + ":d=" + s2[6]
  {
    var t := TimesOf(w);
    StageTimeArgs(req, n, t);
    SecondsRoundTrip(w.fadeOutStart);
    SecondsRoundTrip(w.fadeInStart);
    SecondsRoundTrip(w.fadeLength);
  }

  /** The loop segment, read back from its argument vector: it starts at the
      loop start and lasts the loop length. */
  lemma LoopWindow(req: Request, n: Names, w: Window)
    ensures var lp := StageArgs(LoopSegment, req, n, TimesOf(w));
      && |lp| == 8 && lp[3] == "-ss" && lp[5] == "-t"
      && ParseSeconds(lp[4]) == Some(w.loopStart) && ParseSeconds(lp[6]) == Some(w.loopLength)
  {
    var t := TimesOf(w);
    StageTimeArgs(req, n, t);
    SecondsRoundTrip(w.loopStart);
    SecondsRoundTrip(w.loopLength);
  }

  // ---------------------------------------------------------------------
  // Runs that succeed and runs that fail

  /** The invocations `stages` make, in order. */
  function Invocations(stages: seq<Stage>, req: Request, n: Names, t: Times): seq<Invocation> {
    if stages == [] then []
    else [Invocation(req.ffmpegPath, StageArgs(stages[0], req, n, t))] + Invocations(stages[1..], req, n, t)
  }

  /** The file a successful stage's invocation writes. */
  function Target(st: Stage, req: Request, n: Names): string {
    if st == Merge then req.outputPath else StageOutput(st, n)
  }

  /** The files that exist after a stage succeeds: a full-mode merge first
      writes the manifest, the invocation writes its target, and the mix
      then deletes the two samples. */
  function FileStep(files: set<string>, st: Stage, req: Request, n: Names): set<string> {
    var written := (if st == Merge && !req.isTest then files + {n.concatList} else files) + {Target(st, req, n)};
    if st == CrossfadeMix then written - {n.crossfade1} - {n.crossfade2} else written
  }

  function FilesAfter(files: set<string>, stages: seq<Stage>, req: Request, n: Names): set<string>
    decreases |stages|
  {
    if stages == [] then files else FilesAfter(FileStep(files, stages[0], req, n), stages[1..], req, n)
  }

  predicate SucceedThrough(outcomes: seq<ProcessOutcome>, k: nat)
    requires k <= |outcomes|
  {
    forall i :: 0 <= i < k ==> Succeeded(outcomes[i])
  }

  /** Every argument vector starts with `-y`: outputs are overwritten. */
  lemma StageArgsOverwrite(st: Stage, req: Request, n: Names, t: Times)
    ensures StageArgs(st, req, n, t)[0] == "-y"
  {
    match st
    case Intro =>
    case CrossfadeSample1 =>
    case CrossfadeSample2 =>
    case CrossfadeMix =>
    case LoopSegment =>
    case Outro =>
    case Merge =>
  }

  /** Every stage records its invocation and leaves the finished channel
      alone; only a full-mode merge writes the manifest. */
  lemma StageRecords(s: Snapshot, st: Stage, req: Request, n: Names, t: Times, o: ProcessOutcome)
    ensures var s1 := StageStep(s, st, req, n, t, o);
      && s1.issued == s.issued + [Invocation(req.ffmpegPath, StageArgs(st, req, n, t))]
      && s1.finished == s.finished
      && s1.manifest == if st == Merge && !req.isTest then ConcatList(n, req.loopCount as nat, HasCrossfade(req)) else s.manifest
  {
    var s1 := StageInvoked(s, st, req, n, t, o);
    assert s1.issued == s.issued + [Invocation(req.ffmpegPath, StageArgs(st, req, n, t))];
  }

  /** The files a successful stage leaves. */
  lemma StageSucceededFiles(s: Snapshot, st: Stage, req: Request, n: Names, t: Times, o: ProcessOutcome)
    requires Succeeded(o)
    ensures StageStep(s, st, req, n, t, o).files == FileStep(s.files, st, req, n)
  {
    var args := StageArgs(st, req, n, t);
    if st != Merge {
      StageArgsEndWithOutput(st, req, n, t);
    }
    assert args[|args| - 1] == Target(st, req, n);
  }

  /** What a failed stage changes besides its record: its error is the last
      event twice over (once from the invocation, once forwarded), and no
      file is rendered. */
  lemma StageFailed(s: Snapshot, st: Stage, req: Request, n: Names, t: Times, o: ProcessOutcome)
    requires !Succeeded(o)
    ensures var s1 := StageStep(s, st, req, n, t, o); var e := Err(RunResult(o).error);
      && s1.files == (if st == Merge && !req.isTest then s.files + {n.concatList} else s.files)
      && |s1.events| >= 2 && s1.events[|s1.events| - 2..] == [e, e]
  {
    RunOutcomeReported(o);
    var s0 := if st == Merge then PrepareMerge(s, req, n) else s;
    var s1 := StageStep(s, st, req, n, t, o);
    var before := Said(s0, Announcement(st)).events + RunEvents(o);
    assert s1.events == before + [Err(RunResult(o).error)];
    assert before[|before| - 1] == Err(RunResult(o).error);
  }

  lemma AppendAssoc<T>(a: seq<T>, x: T, b: seq<T>)
    ensures a + [x] + b == a + ([x] + b)
  {
  }

  lemma SucceedLater(outcomes: seq<ProcessOutcome>, k: nat)
    requires 0 < k <= |outcomes| && SucceedThrough(outcomes, k)
    ensures Succeeded(outcomes[0]) && SucceedThrough(outcomes[1..], k - 1)
  {
    forall i | 0 <= i < k - 1
      ensures Succeeded(outcomes[1..][i])
    {
      assert outcomes[1..][i] == outcomes[i + 1];
    }
  }

  /** A successful first stage: the run continues from the snapshot it
      leaves, whose files are those `FileStep` names. (This and the other
      step lemmas each state one component, to keep the inductions small.) */
  lemma SucceededStepFiles(s: Snapshot, stages: seq<Stage>, req: Request, n: Names, t: Times,
                           outcomes: seq<ProcessOutcome>)
    returns (s1: Snapshot)
    requires 0 < |stages| <= |outcomes| && Succeeded(outcomes[0])
    ensures RunStages(s, stages, req, n, t, outcomes) == RunStages(s1, stages[1..], req, n, t, outcomes[1..])
    ensures s1.files == FileStep(s.files, stages[0], req, n)
  {
    s1 := StageStep(s, stages[0], req, n, t, outcomes[0]);
    StageSucceededFiles(s, stages[0], req, n, t, outcomes[0]);
  }

  /** A failed first stage: the run ends with the snapshot it leaves and the
      finished signal; no file is rendered. */
  lemma FailedStepFiles(s: Snapshot, stages: seq<Stage>, req: Request, n: Names, t: Times,
                        outcomes: seq<ProcessOutcome>)
    returns (s1: Snapshot)
    requires 0 < |stages| <= |outcomes| && !Succeeded(outcomes[0])
    ensures RunStages(s, stages, req, n, t, outcomes) == Finished(s1)
    ensures s1.files == (if stages[0] == Merge && !req.isTest then s.files + {n.concatList} else s.files)
  {
    s1 := StageStep(s, stages[0], req, n, t, outcomes[0]);
    StageFailed(s, stages[0], req, n, t, outcomes[0]);
  }

  /** A successful first stage records its invocation. */
  lemma SucceededStepIssued(s: Snapshot, stages: seq<Stage>, req: Request, n: Names, t: Times,
                            outcomes: seq<ProcessOutcome>)
    returns (s1: Snapshot)
    requires 0 < |stages| <= |outcomes| && Succeeded(outcomes[0])
    ensures RunStages(s, stages, req, n, t, outcomes) == RunStages(s1, stages[1..], req, n, t, outcomes[1..])
    ensures s1.issued == s.issued + [Invocation(req.ffmpegPath, StageArgs(stages[0], req, n, t))]
  {
    s1 := StageStep(s, stages[0], req, n, t, outcomes[0]);
    StageRecords(s, stages[0], req, n, t, outcomes[0]);
  }

  /** A failed first stage records its invocation. */
  lemma FailedStepIssued(s: Snapshot, stages: seq<Stage>, req: Request, n: Names, t: Times,
                         outcomes: seq<ProcessOutcome>)
    returns (s1: Snapshot)
    requires 0 < |stages| <= |outcomes| && !Succeeded(outcomes[0])
    ensures RunStages(s, stages, req, n, t, outcomes) == Finished(s1)
    ensures s1.issued == s.issued + [Invocation(req.ffmpegPath, StageArgs(stages[0], req, n, t))]
  {
    s1 := StageStep(s, stages[0], req, n, t, outcomes[0]);
    StageRecords(s, stages[0], req, n, t, outcomes[0]);
  }

  /** A failed first stage keeps the finished channel and leaves its error
      as the last two events. */
  lemma FailedStepEnd(s: Snapshot, stages: seq<Stage>, req: Request, n: Names, t: Times,
                      outcomes: seq<ProcessOutcome>)
    returns (s1: Snapshot)
    requires 0 < |stages| <= |outcomes| && !Succeeded(outcomes[0])
    ensures RunStages(s, stages, req, n, t, outcomes) == Finished(s1)
    ensures s1.finished == s.finished
    ensures var e := Err(RunResult(outcomes[0]).error); |s1.events| >= 2 && s1.events[|s1.events| - 2..] == [e, e]
  {
    s1 := StageStep(s, stages[0], req, n, t, outcomes[0]);
    StageRecords(s, stages[0], req, n, t, outcomes[0]);
    StageFailed(s, stages[0], req, n, t, outcomes[0]);
  }

  /** A successful first stage keeps the finished channel. */
  lemma SucceededStepFinished(s: Snapshot, stages: seq<Stage>, req: Request, n: Names, t: Times,
                              outcomes: seq<ProcessOutcome>)
    returns (s1: Snapshot)
    requires 0 < |stages| <= |outcomes| && Succeeded(outcomes[0])
    ensures RunStages(s, stages, req, n, t, outcomes) == RunStages(s1, stages[1..], req, n, t, outcomes[1..])
    ensures s1.finished == s.finished
  {
    s1 := StageStep(s, stages[0], req, n, t, outcomes[0]);
    StageRecords(s, stages[0], req, n, t, outcomes[0]);
  }

  /** A successful first stage writes the manifest when it is a full-mode
      merge. */
  lemma SucceededStepManifest(s: Snapshot, stages: seq<Stage>, req: Request, n: Names, t: Times,
                              outcomes: seq<ProcessOutcome>)
    returns (s1: Snapshot)
    requires 0 < |stages| <= |outcomes| && Succeeded(outcomes[0])
    ensures RunStages(s, stages, req, n, t, outcomes) == RunStages(s1, stages[1..], req, n, t, outcomes[1..])
    ensures s1.manifest == if stages[0] == Merge && !req.isTest then ConcatList(n, req.loopCount as nat, HasCrossfade(req)) else s.manifest
  {
    s1 := StageStep(s, stages[0], req, n, t, outcomes[0]);
    StageRecords(s, stages[0], req, n, t, outcomes[0]);
  }

  /** When every stage succeeds, the run issues one invocation per stage, in
      order. */
  lemma {:induction false} RunIssuedSucceeding(s: Snapshot, stages: seq<Stage>, req: Request, n: Names, t: Times,
                                               outcomes: seq<ProcessOutcome>)
    requires |stages| <= |outcomes| && SucceedThrough(outcomes, |stages|)
    ensures RunStages(s, stages, req, n, t, outcomes).issued == s.issued + Invocations(stages, req, n, t)
    decreases |stages|
  {
    if stages != [] {
      SucceedLater(outcomes, |stages|);
      var s1 := SucceededStepIssued(s, stages, req, n, t, outcomes);
      RunIssuedSucceeding(s1, stages[1..], req, n, t, outcomes[1..]);
      AppendAssoc(s.issued, Invocation(req.ffmpegPath, StageArgs(stages[0], req, n, t)), Invocations(stages[1..], req, n, t));
    }
  }

  /** When every stage succeeds, the run sends the finished signal once and
      ends its events with "Done!". */
  lemma {:induction false} RunEndSucceeding(s: Snapshot, stages: seq<Stage>, req: Request, n: Names, t: Times,
                                            outcomes: seq<ProcessOutcome>)
    requires |stages| <= |outcomes| && SucceedThrough(outcomes, |stages|)
    ensures var r := RunStages(s, stages, req, n, t, outcomes);
      && r.finished == s.finished + [true]
      && r.events != [] && r.events[|r.events| - 1] == Ok(Program("Done!"))
    decreases |stages|
  {
    if stages != [] {
      SucceedLater(outcomes, |stages|);
      var s1 := SucceededStepFinished(s, stages, req, n, t, outcomes);
      RunEndSucceeding(s1, stages[1..], req, n, t, outcomes[1..]);
    }
  }

  /** When every stage succeeds, the run leaves the files the stages wrote
      minus those the cleanup deletes. */
  lemma {:induction false} RunFilesSucceeding(s: Snapshot, stages: seq<Stage>, req: Request, n: Names, t: Times,
                                              outcomes: seq<ProcessOutcome>)
    requires |stages| <= |outcomes| && SucceedThrough(outcomes, |stages|)
    ensures RunStages(s, stages, req, n, t, outcomes).files == FilesAfter(s.files, stages, req, n) - CleanedUp(req, n)
    decreases |stages|
  {
    if stages != [] {
      SucceedLater(outcomes, |stages|);
      var s1 := SucceededStepFiles(s, stages, req, n, t, outcomes);
      RunFilesSucceeding(s1, stages[1..], req, n, t, outcomes[1..]);
    }
  }

  /** When every stage succeeds, the run holds the manifest a full-mode
      merge wrote, and the one it started with otherwise. */
  lemma {:induction false} RunManifestSucceeding(s: Snapshot, stages: seq<Stage>, req: Request, n: Names, t: Times,
                                                 outcomes: seq<ProcessOutcome>)
    requires |stages| <= |outcomes| && SucceedThrough(outcomes, |stages|)
    ensures RunStages(s, stages, req, n, t, outcomes).manifest ==
      (if Merge in stages && !req.isTest then ConcatList(n, req.loopCount as nat, HasCrossfade(req)) else s.manifest)
    decreases |stages|
  {
    if stages != [] {
      SucceedLater(outcomes, |stages|);
      var s1 := SucceededStepManifest(s, stages, req, n, t, outcomes);
      RunManifestSucceeding(s1, stages[1..], req, n, t, outcomes[1..]);
      InFirstOrRest(stages, Merge);
    }
  }

  lemma InFirstOrRest<T>(s: seq<T>, x: T)
    requires s != []
    ensures x in s <==> s[0] == x || x in s[1..]
  {
    assert s == [s[0]] + s[1..];
  }

  /** When stage `k` is the first to fail, the run issues the invocations of
      stages `0..k` and no later one. */
  lemma {:induction false} RunIssuedFailing(s: Snapshot, stages: seq<Stage>, req: Request, n: Names, t: Times,
                                            outcomes: seq<ProcessOutcome>, k: nat)
    requires k < |stages| <= |outcomes| && SucceedThrough(outcomes, k) && !Succeeded(outcomes[k])
    ensures RunStages(s, stages, req, n, t, outcomes).issued == s.issued + Invocations(stages[..k + 1], req, n, t)
    decreases k
  {
    var x := Invocation(req.ffmpegPath, StageArgs(stages[0], req, n, t));
    assert stages[..k + 1][0] == stages[0];
    assert stages[..k + 1][1..] == stages[1..][..k];
    if k == 0 {
      var s1 := FailedStepIssued(s, stages, req, n, t, outcomes);
      assert Invocations(stages[..1], req, n, t) == [x] + Invocations([], req, n, t);
    } else {
      SucceedLater(outcomes, k);
      var s1 := SucceededStepIssued(s, stages, req, n, t, outcomes);
      RunIssuedFailing(s1, stages[1..], req, n, t, outcomes[1..], k - 1);
      AppendAssoc(s.issued, x, Invocations(stages[1..][..k], req, n, t));
    }
  }

  /** When stage `k` is the first to fail, the run sends the finished signal
      once and ends its events with the failure's error twice, so no
      "Done!". */
  lemma {:induction false} RunEndFailing(s: Snapshot, stages: seq<Stage>, req: Request, n: Names, t: Times,
                                         outcomes: seq<ProcessOutcome>, k: nat)
    requires k < |stages| <= |outcomes| && SucceedThrough(outcomes, k) && !Succeeded(outcomes[k])
    ensures var r := RunStages(s, stages, req, n, t, outcomes); var e := Err(RunResult(outcomes[k]).error);
      && r.finished == s.finished + [true]
      && |r.events| >= 2 && r.events[|r.events| - 2..] == [e, e]
    decreases k
  {
    if k == 0 {
      var s1 := FailedStepEnd(s, stages, req, n, t, outcomes);
    } else {
      SucceedLater(outcomes, k);
      var s1 := SucceededStepFinished(s, stages, req, n, t, outcomes);
      RunEndFailing(s1, stages[1..], req, n, t, outcomes[1..], k - 1);
      assert outcomes[1..][k - 1] == outcomes[k];
    }
  }

  /** No stage says "Done!": only the final cleanup does. */
  lemma StageNeverDone(s: Snapshot, st: Stage, req: Request, n: Names, t: Times, o: ProcessOutcome)
    requires Ok(Program("Done!")) !in s.events
    ensures Ok(Program("Done!")) !in StageStep(s, st, req, n, t, o).events
  {
    RunSendsNoMilestone(o);
    var s0 := if st == Merge then PrepareMerge(s, req, n) else s;
    var s1 := StageInvoked(s, st, req, n, t, o);
    assert s1.events == s0.events + [Ok(Program(Announcement(st)))] + RunEvents(o) + Reported(RunResult(o));
  }

  /** A failed first stage ends the run without saying "Done!". */
  lemma FailedStepNeverDone(s: Snapshot, stages: seq<Stage>, req: Request, n: Names, t: Times,
                            outcomes: seq<ProcessOutcome>)
    returns (s1: Snapshot)
    requires 0 < |stages| <= |outcomes| && !Succeeded(outcomes[0])
    requires Ok(Program("Done!")) !in s.events
    ensures RunStages(s, stages, req, n, t, outcomes) == Finished(s1)
    ensures Ok(Program("Done!")) !in s1.events
  {
    s1 := StageStep(s, stages[0], req, n, t, outcomes[0]);
    StageNeverDone(s, stages[0], req, n, t, outcomes[0]);
  }

  /** A successful first stage does not say "Done!" either. */
  lemma SucceededStepNeverDone(s: Snapshot, stages: seq<Stage>, req: Request, n: Names, t: Times,
                               outcomes: seq<ProcessOutcome>)
    returns (s1: Snapshot)
    requires 0 < |stages| <= |outcomes| && Succeeded(outcomes[0])
    requires Ok(Program("Done!")) !in s.events
    ensures RunStages(s, stages, req, n, t, outcomes) == RunStages(s1, stages[1..], req, n, t, outcomes[1..])
    ensures Ok(Program("Done!")) !in s1.events
  {
    s1 := StageStep(s, stages[0], req, n, t, outcomes[0]);
    StageNeverDone(s, stages[0], req, n, t, outcomes[0]);
  }

  /** When stage `k` is the first to fail, the run never says "Done!". */
  lemma {:induction false} RunNeverDoneFailing(s: Snapshot, stages: seq<Stage>, req: Request, n: Names, t: Times,
                                               outcomes: seq<ProcessOutcome>, k: nat)
    requires k < |stages| <= |outcomes| && SucceedThrough(outcomes, k) && !Succeeded(outcomes[k])
    requires Ok(Program("Done!")) !in s.events
    ensures Ok(Program("Done!")) !in RunStages(s, stages, req, n, t, outcomes).events
    decreases k
  {
    if k == 0 {
      var s1 := FailedStepNeverDone(s, stages, req, n, t, outcomes);
    } else {
      SucceedLater(outcomes, k);
      var s1 := SucceededStepNeverDone(s, stages, req, n, t, outcomes);
      RunNeverDoneFailing(s1, stages[1..], req, n, t, outcomes[1..], k - 1);
    }
  }

  /** When stage `k` is the first to fail, the run deletes nothing beyond the
      crossfade samples a completed mix consumed: the files are those the
      earlier stages left (and the manifest, when the merge failed). */
  lemma {:induction false} RunFilesFailing(s: Snapshot, stages: seq<Stage>, req: Request, n: Names, t: Times,
                                           outcomes: seq<ProcessOutcome>, k: nat)
    requires k < |stages| <= |outcomes| && SucceedThrough(outcomes, k) && !Succeeded(outcomes[k])
    ensures RunStages(s, stages, req, n, t, outcomes).files ==
      (var f := FilesAfter(s.files, stages[..k], req, n);
       if stages[k] == Merge && !req.isTest then f + {n.concatList} else f)
    decreases k
  {
    if k == 0 {
      var s1 := FailedStepFiles(s, stages, req, n, t, outcomes);
      assert FilesAfter(s.files, stages[..0], req, n) == s.files;
    } else {
      SucceedLater(outcomes, k);
      var s1 := SucceededStepFiles(s, stages, req, n, t, outcomes);
      RunFilesFailing(s1, stages[1..], req, n, t, outcomes[1..], k - 1);
      assert stages[1..][k - 1] == stages[k];
      FilesAfterPrefix(s.files, stages, req, n, k);
    }
  }

  lemma FilesAfterPrefix(files: set<string>, stages: seq<Stage>, req: Request, n: Names, k: nat)
    requires 0 < k <= |stages|
    ensures FilesAfter(files, stages[..k], req, n) == FilesAfter(FileStep(files, stages[0], req, n), stages[1..][..k - 1], req, n)
  {
    assert stages[..k][0] == stages[0] && stages[..k][1..] == stages[1..][..k - 1];
  }

  // ---------------------------------------------------------------------
  // Files across the stages

  /** The samples are the only temporary files a stage deletes. */
  predicate KeepsAllBut(before: set<string>, after: set<string>, n: Names) {
    forall x :: x in before && x != n.crossfade1 && x != n.crossfade2 ==> x in after
  }

  lemma {:induction false} FilesAfterKeeps(files: set<string>, stages: seq<Stage>, req: Request, n: Names)
    ensures KeepsAllBut(files, FilesAfter(files, stages, req, n), n)
    decreases |stages|
  {
    if stages != [] {
      var f1 := FileStep(files, stages[0], req, n);
      assert KeepsAllBut(files, f1, n);
      FilesAfterKeeps(f1, stages[1..], req, n);
    }
  }

  /** Every stage other than a crossfade sample leaves its target behind for
      good: only the samples are ever deleted. */
  lemma {:induction false} FilesAfterHasTargets(files: set<string>, stages: seq<Stage>, req: Request, n: Names, i: nat)
    requires Distinct(n) && req.outputPath != n.crossfade1 && req.outputPath != n.crossfade2
    requires i < |stages| && stages[i] != CrossfadeSample1 && stages[i] != CrossfadeSample2
    ensures Target(stages[i], req, n) in FilesAfter(files, stages, req, n)
    decreases |stages|
  {
    var f1 := FileStep(files, stages[0], req, n);
    if i == 0 {
      assert Target(stages[0], req, n) in f1;
      FilesAfterKeeps(f1, stages[1..], req, n);
    } else {
      assert stages[1..][i - 1] == stages[i];
      FilesAfterHasTargets(f1, stages[1..], req, n, i - 1);
    }
  }

  /** Stages without the mix delete nothing, so everything before them and
      every target they write is still there afterwards. */
  lemma {:induction false} FilesAfterWithoutMix(files: set<string>, stages: seq<Stage>, req: Request, n: Names)
    requires CrossfadeMix !in stages
    ensures files <= FilesAfter(files, stages, req, n)
    ensures forall i :: 0 <= i < |stages| ==> Target(stages[i], req, n) in FilesAfter(files, stages, req, n)
    decreases |stages|
  {
    if stages != [] {
      var f1 := FileStep(files, stages[0], req, n);
      assert stages[0] in stages && files <= f1;
      assert forall x :: x in stages[1..] ==> x in stages;
      FilesAfterWithoutMix(f1, stages[1..], req, n);
      forall i | 0 < i < |stages|
        ensures Target(stages[i], req, n) in FilesAfter(files, stages, req, n)
      {
        assert stages[1..][i - 1] == stages[i];
      }
    }
  }

  lemma {:induction false} FilesAfterAppend(files: set<string>, a: seq<Stage>, b: seq<Stage>, req: Request, n: Names)
    ensures FilesAfter(files, a + b, req, n) == FilesAfter(FilesAfter(files, a, req, n), b, req, n)
    decreases |a|
  {
    if a == [] {
      assert a + b == b;
    } else {
      assert (a + b)[0] == a[0] && (a + b)[1..] == a[1..] + b;
      FilesAfterAppend(FileStep(files, a[0], req, n), a[1..], b, req, n);
    }
  }

  lemma FilesAfterOne(files: set<string>, st: Stage, req: Request, n: Names)
    ensures FilesAfter(files, [st], req, n) == FileStep(files, st, req, n)
  {
    assert [st][1..] == [];
  }

  /** The crossfade block leaves the mix and takes the samples away again. */
  lemma CrossfadeFiles(files: set<string>, req: Request, n: Names)
    requires Distinct(n) && n.crossfade1 !in files && n.crossfade2 !in files
    ensures FilesAfter(files, CrossfadeStages(true), req, n) == files + {n.crossfade}
  {
    var f1 := files + {n.crossfade1};
    var f2 := f1 + {n.crossfade2};
    assert CrossfadeStages(true) == [CrossfadeSample1] + [CrossfadeSample2] + [CrossfadeMix];
    FilesAfterAppend(files, [CrossfadeSample1] + [CrossfadeSample2], [CrossfadeMix], req, n);
    FilesAfterAppend(files, [CrossfadeSample1], [CrossfadeSample2], req, n);
    FilesAfterOne(files, CrossfadeSample1, req, n);
    FilesAfterOne(f1, CrossfadeSample2, req, n);
    FilesAfterOne(f2, CrossfadeMix, req, n);
    assert FileStep(f2, CrossfadeMix, req, n) == f2 + {n.crossfade} - {n.crossfade1} - {n.crossfade2};
  }

  /** The stages after the crossfade block: the loop segment (full mode),
      the outro, and the merge with its manifest (full mode) and output. */
  lemma FinalFiles(files: set<string>, req: Request, n: Names)
    ensures FilesAfter(files, FinalStages(req.isTest), req, n) ==
      files + (if req.isTest then {} else {n.loop}) + {n.outro}
      + (if req.isTest then {} else {n.concatList}) + {req.outputPath}
  {
    if req.isTest {
      assert FinalStages(true) == [Outro] + [Merge];
      FilesAfterAppend(files, [Outro], [Merge], req, n);
      FilesAfterOne(files, Outro, req, n);
      FilesAfterOne(files + {n.outro}, Merge, req, n);
    } else {
      assert FinalStages(false) == [LoopSegment] + [Outro] + [Merge];
      FilesAfterAppend(files, [LoopSegment] + [Outro], [Merge], req, n);
      FilesAfterAppend(files, [LoopSegment], [Outro], req, n);
      FilesAfterOne(files, LoopSegment, req, n);
      FilesAfterOne(files + {n.loop}, Outro, req, n);
      FilesAfterOne(files + {n.loop} + {n.outro}, Merge, req, n);
    }
  }

  /** The files a fully successful plan writes and keeps, besides `files`. */
  function Written(req: Request, n: Names): set<string> {
    {n.intro} + (if HasCrossfade(req) then {n.crossfade} else {})
    + (if req.isTest then {} else {n.loop}) + {n.outro}
    + (if req.isTest then {} else {n.concatList}) + {req.outputPath}
  }

  lemma PlanFiles(files: set<string>, req: Request, n: Names)
    requires Distinct(n) && n.crossfade1 !in files && n.crossfade2 !in files
    ensures FilesAfter(files, Plan(HasCrossfade(req), req.isTest), req, n) == files + Written(req, n)
  {
    var c := CrossfadeStages(HasCrossfade(req));
    var f1 := files + {n.intro};
    assert Plan(HasCrossfade(req), req.isTest) == [Intro] + c + FinalStages(req.isTest);
    FilesAfterAppend(files, [Intro] + c, FinalStages(req.isTest), req, n);
    FilesAfterAppend(files, [Intro], c, req, n);
    FilesAfterOne(files, Intro, req, n);
    var f2 := FilesAfter(f1, c, req, n);
    if HasCrossfade(req) {
      CrossfadeFiles(f1, req, n);
    } else {
      assert f2 == f1;
    }
    FinalFiles(f2, req, n);
  }

  // ---------------------------------------------------------------------
  // Whole runs

  lemma {:induction false} InvocationsAt(stages: seq<Stage>, req: Request, n: Names, t: Times)
    ensures var inv := Invocations(stages, req, n, t);
      && |inv| == |stages|
      && forall i :: 0 <= i < |inv| ==> inv[i] == Invocation(req.ffmpegPath, StageArgs(stages[i], req, n, t))
    decreases |stages|
  {
    if stages != [] {
      InvocationsAt(stages[1..], req, n, t);
      var inv := Invocations(stages, req, n, t);
      forall i | 1 <= i < |inv|
        ensures inv[i] == Invocation(req.ffmpegPath, StageArgs(stages[i], req, n, t))
      {
        assert inv[i] == Invocations(stages[1..], req, n, t)[i - 1];
        assert stages[1..][i - 1] == stages[i];
      }
    }
  }

  /** Which stages a plan holds: intro, outro and merge always; the three
      crossfade stages exactly when there is a crossfade; the loop segment
      exactly in full mode. */
  lemma PlanMembers(hasCrossfade: bool, isTest: bool, st: Stage)
    ensures st in Plan(hasCrossfade, isTest) <==>
      match st
      case CrossfadeSample1 | CrossfadeSample2 | CrossfadeMix => hasCrossfade
      case LoopSegment => !isTest
      case _ => true
  {
    PlanAt(hasCrossfade, isTest);
    var p := Plan(hasCrossfade, isTest);
    assert p == [Intro] + CrossfadeStages(hasCrossfade) + FinalStages(isTest);
  }

  lemma PreambleKeeps(s: Snapshot, req: Request)
    ensures var p := Preamble(s, req);
      p.issued == s.issued && p.finished == s.finished && p.files == s.files && p.manifest == s.manifest
  {
  }

  /** A run whose invocations all succeed makes 3 + 3·[crossfade] +
      [full mode] invocations, each of `ffmpegPath` with arguments that start
      with `-y`. */
  lemma SuccessfulRunInvocations(s: Snapshot, req: Request, n: Names, t: Times, outcomes: seq<ProcessOutcome>)
    requires EnoughOutcomes(req, outcomes)
    requires SucceedThrough(outcomes, |Plan(HasCrossfade(req), req.isTest)|)
    ensures var r := RunStages(Preamble(s, req), Plan(HasCrossfade(req), req.isTest), req, n, t, outcomes);
      && |r.issued| == |s.issued| + 3 + (if HasCrossfade(req) then 3 else 0) + (if req.isTest then 0 else 1)
      && r.issued[..|s.issued|] == s.issued
      && forall i :: |s.issued| <= i < |r.issued| ==>
           r.issued[i].program == req.ffmpegPath && r.issued[i].args != [] && r.issued[i].args[0] == "-y"
  {
    var plan, p := Plan(HasCrossfade(req), req.isTest), Preamble(s, req);
    PreambleKeeps(s, req);
    PlanAt(HasCrossfade(req), req.isTest);
    RunIssuedSucceeding(p, plan, req, n, t, outcomes);
    InvocationsAt(plan, req, n, t);
    var r := RunStages(p, plan, req, n, t, outcomes);
    forall i | |s.issued| <= i < |r.issued|
      ensures r.issued[i].program == req.ffmpegPath && r.issued[i].args != [] && r.issued[i].args[0] == "-y"
    {
      StageArgsOverwrite(plan[i - |s.issued|], req, n, t);
    }
  }

  /** The cleanup deletes every temporary file the plan wrote and keeps the
      output. */
  lemma CleanupLeavesOutput(files: set<string>, req: Request, n: Names)
    requires Distinct(n) && files !! NameSet(n) && req.outputPath !in NameSet(n)
    ensures (files + Written(req, n)) - CleanedUp(req, n) == files + {req.outputPath}
  {
    var w, c := Written(req, n), CleanedUp(req, n);
    assert w - c <= {req.outputPath};
    assert files !! c;
  }

  /** A run whose invocations all succeed signals finished once and says
      "Done!" last. In full mode the last manifest content written is
      `ConcatList`; the cleanup then removes the file (`SuccessfulRunFiles`). */
  lemma SuccessfulRunEnd(s: Snapshot, req: Request, n: Names, t: Times, outcomes: seq<ProcessOutcome>)
    requires EnoughOutcomes(req, outcomes)
    requires SucceedThrough(outcomes, |Plan(HasCrossfade(req), req.isTest)|)
    ensures var r := RunStages(Preamble(s, req), Plan(HasCrossfade(req), req.isTest), req, n, t, outcomes);
      && r.finished == s.finished + [true]
      && r.events != [] && r.events[|r.events| - 1] == Ok(Program("Done!"))
      && r.manifest == if req.isTest then s.manifest else ConcatList(n, req.loopCount as nat, HasCrossfade(req))
  {
    var plan, p := Plan(HasCrossfade(req), req.isTest), Preamble(s, req);
    PreambleKeeps(s, req);
    PlanAt(HasCrossfade(req), req.isTest);
    RunEndSucceeding(p, plan, req, n, t, outcomes);
    RunManifestSucceeding(p, plan, req, n, t, outcomes);
    assert Merge in plan by {
      assert plan[|plan| - 1] == Merge;
    }
  }

  /** A run whose invocations all succeed, starting with none of its
      temporary files present, leaves the files as they were plus the
      output. */
  lemma SuccessfulRunFiles(s: Snapshot, req: Request, n: Names, t: Times, outcomes: seq<ProcessOutcome>)
    requires EnoughOutcomes(req, outcomes) && Distinct(n)
    requires SucceedThrough(outcomes, |Plan(HasCrossfade(req), req.isTest)|)
    requires s.files !! NameSet(n) && req.outputPath !in NameSet(n)
    ensures RunStages(Preamble(s, req), Plan(HasCrossfade(req), req.isTest), req, n, t, outcomes).files
      == s.files + {req.outputPath}
  {
    var plan, p := Plan(HasCrossfade(req), req.isTest), Preamble(s, req);
    PreambleKeeps(s, req);
    RunFilesSucceeding(p, plan, req, n, t, outcomes);
    PlanFiles(s.files, req, n);
    CleanupLeavesOutput(s.files, req, n);
  }

  /** A run whose invocation `k` is the first to fail: it makes exactly
      `k + 1` invocations, signals finished once, ends with the failure's
      error twice (no "Done!"), and keeps every file that existed before it
      and every segment rendered before the failure, except the crossfade
      samples a completed mix consumed. When the mix did not complete, the
      samples are kept too. */
  lemma FailedRun(s: Snapshot, req: Request, n: Names, t: Times, outcomes: seq<ProcessOutcome>, k: nat)
    requires EnoughOutcomes(req, outcomes) && Distinct(n)
    requires k < |Plan(HasCrossfade(req), req.isTest)| && SucceedThrough(outcomes, k) && !Succeeded(outcomes[k])
    requires req.outputPath != n.crossfade1 && req.outputPath != n.crossfade2
    ensures var r := RunStages(Preamble(s, req), Plan(HasCrossfade(req), req.isTest), req, n, t, outcomes); var e := Err(RunResult(outcomes[k]).error);
      var plan := Plan(HasCrossfade(req), req.isTest);
      && |r.issued| == |s.issued| + k + 1
      && r.finished == s.finished + [true]
      && |r.events| >= 2 && r.events[|r.events| - 2..] == [e, e]
      && (Ok(Program("Done!")) !in s.events ==> Ok(Program("Done!")) !in r.events)
      && KeepsAllBut(s.files, r.files, n)
      && (forall i :: 0 <= i < k && plan[i] != CrossfadeSample1 && plan[i] != CrossfadeSample2 ==>
            Target(plan[i], req, n) in r.files)
      && (CrossfadeMix !in plan[..k] ==>
            s.files <= r.files && forall i :: 0 <= i < k ==> Target(plan[i], req, n) in r.files)
  {
    var plan, p := Plan(HasCrossfade(req), req.isTest), Preamble(s, req);
    PreambleKeeps(s, req);
    RunIssuedFailing(p, plan, req, n, t, outcomes, k);
    InvocationsAt(plan[..k + 1], req, n, t);
    RunEndFailing(p, plan, req, n, t, outcomes, k);
    RunFilesFailing(p, plan, req, n, t, outcomes, k);
    if Ok(Program("Done!")) !in s.events {
      RunNeverDoneFailing(p, plan, req, n, t, outcomes, k);
    }
    var r := RunStages(p, plan, req, n, t, outcomes);
    var f := FilesAfter(s.files, plan[..k], req, n);
    assert f <= r.files;
    FilesAfterKeeps(s.files, plan[..k], req, n);
    forall i | 0 <= i < k && plan[i] != CrossfadeSample1 && plan[i] != CrossfadeSample2
      ensures Target(plan[i], req, n) in r.files
    {
      assert plan[..k][i] == plan[i];
      FilesAfterHasTargets(s.files, plan[..k], req, n, i);
    }
    if CrossfadeMix !in plan[..k] {
      FilesAfterWithoutMix(s.files, plan[..k], req, n);
      forall i | 0 <= i < k
        ensures Target(plan[i], req, n) in r.files
      {
        assert plan[..k][i] == plan[i];
      }
    }
  }
}
