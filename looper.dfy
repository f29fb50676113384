/** The loop-building pipeline (`create_loop` in src/looper.rs).

    A run renders an intro, optionally a crossfade (two faded samples mixed
    into one), optionally the loop segment, and an outro, each by one ffmpeg
    invocation, then merges them into the output file and deletes its
    temporary files. It reports milestones and ffmpeg's output on the event
    channel and sends one signal on the finished channel when it stops.

    The first half of this module states the run as functions over a
    `Snapshot` of everything the run can change: the plan of stages, the
    argument vector of each, the concat manifest, and `RunStages`, which
    steps through the plan and stops at the first failure. The class
    `LoopRun` then performs the run statement by statement, as the source
    does, and `CreateLoop` is proved to reach exactly the snapshot
    `CreateLoopSpec` describes. */
module Looper {
  import opened Decimal
  import opened Ffmpeg

  newtype u8 = x: int | 0 <= x < 256

  /** The arguments of `create_loop`. Times are whole milliseconds. */
  datatype Request = Request(
    startMs: int,
    endMs: int,
    crossfadeMs: int,
    loopCount: u8,
    ffmpegPath: string,
    filePath: string,
    outputPath: string,
    isTest: bool)

  /** The crossfade stages run only for a strictly positive crossfade. */
  predicate HasCrossfade(req: Request) {
    req.crossfadeMs > 0
  }

  // ---------------------------------------------------------------------
  // Temporary file names

  datatype Names = Names(
    intro: string,
    outro: string,
    loop: string,
    crossfade1: string,
    crossfade2: string,
    crossfade: string,
    concatList: string)

  /** The seven temporary names of a run, derived from the process id. */
  function TempNames(pid: nat): Names {
    var id := NatToString(pid);
    Names(
      "intro_echo_blend_" + id + ".wav",
      "outro_echo_blend_" + id + ".wav",
      "loop_echo_blend_" + id + ".wav",
      "crossfade_echo_blend_1_" + id + ".wav",
      "crossfade_echo_blend_2_" + id + ".wav",
      "crossfade_echo_blend_" + id + ".wav",
      "concat_list_echo_blend_" + id + ".txt")
  }

  function NameSet(n: Names): set<string> {
    {n.intro, n.outro, n.loop, n.crossfade1, n.crossfade2, n.crossfade, n.concatList}
  }

  predicate Distinct(n: Names) {
    && n.intro != n.outro && n.intro != n.loop && n.intro != n.crossfade1
    && n.intro != n.crossfade2 && n.intro != n.crossfade && n.intro != n.concatList
    && n.outro != n.loop && n.outro != n.crossfade1 && n.outro != n.crossfade2
    && n.outro != n.crossfade && n.outro != n.concatList
    && n.loop != n.crossfade1 && n.loop != n.crossfade2 && n.loop != n.crossfade
    && n.loop != n.concatList
    && n.crossfade1 != n.crossfade2 && n.crossfade1 != n.crossfade
    && n.crossfade1 != n.concatList
    && n.crossfade2 != n.crossfade && n.crossfade2 != n.concatList
    && n.crossfade != n.concatList
  }

  /** Whatever the process id, the seven names are pairwise different. */
  lemma TempNamesDistinct(pid: nat)
    ensures Distinct(TempNames(pid))
  {
    var n := TempNames(pid);
    var id := NatToString(pid);
    var k := |id|;
    assert n.intro[0] == 'i';
    assert n.outro[0] == 'o';
    assert n.loop[0] == 'l';
    assert n.crossfade1[1] == 'r';
    assert n.crossfade2[1] == 'r';
    assert n.crossfade[1] == 'r';
    assert n.concatList[0] == 'c' && n.concatList[1] == 'o';
    assert n.crossfade1[21] == '1';
    assert n.crossfade2[21] == '2';
    assert |n.crossfade1| == k + 27;
    assert |n.crossfade2| == k + 27;
    assert |n.crossfade| == k + 25;
  }

  // ---------------------------------------------------------------------
  // The plan of stages and their ffmpeg arguments

  datatype Stage = Intro | CrossfadeSample1 | CrossfadeSample2 | CrossfadeMix | LoopSegment | Outro | Merge

  /** The stages of the `crossfade_s > 0` block. */
  function CrossfadeStages(hasCrossfade: bool): seq<Stage> {
    if hasCrossfade then [CrossfadeSample1, CrossfadeSample2, CrossfadeMix] else []
  }

  /** The stages after the crossfade block. */
  function FinalStages(isTest: bool): seq<Stage> {
    (if isTest then [] else [LoopSegment]) + [Outro, Merge]
  }

  /** The invocations a run makes when none fails, in order. */
  function Plan(hasCrossfade: bool, isTest: bool): seq<Stage> {
    [Intro] + CrossfadeStages(hasCrossfade) + FinalStages(isTest)
  }

  lemma PlanSplit(hasCrossfade: bool, isTest: bool)
    ensures var p, c := Plan(hasCrossfade, isTest), CrossfadeStages(hasCrossfade);
      && |p| == 1 + |c| + |FinalStages(isTest)|
      && p[0] == Intro && p[1..1 + |c|] == c && p[1 + |c|..] == FinalStages(isTest)
  {
    var p, c := Plan(hasCrossfade, isTest), CrossfadeStages(hasCrossfade);
    assert p == [Intro] + c + FinalStages(isTest);
    assert p[1..1 + |c|] == c;
  }

  lemma PlanAt(hasCrossfade: bool, isTest: bool)
    ensures var p, c, l := Plan(hasCrossfade, isTest), (if hasCrossfade then 3 else 0), (if isTest then 0 else 1);
      && |p| == 3 + c + l
      && p[0] == Intro
      && (hasCrossfade ==> p[1] == CrossfadeSample1 && p[2] == CrossfadeSample2 && p[3] == CrossfadeMix)
      && (!isTest ==> p[1 + c] == LoopSegment)
      && p[1 + c + l] == Outro && p[2 + c + l] == Merge
  {
  }

  /** The milestone sent just before a stage's invocation. */
  function Announcement(st: Stage): string {
    match st
    case Intro => "Rendering intro..."
    case CrossfadeSample1 => "Rendering crossfade sample 1..."
    case CrossfadeSample2 => "Rendering crossfade sample 2..."
    case CrossfadeMix => "Rendering crossfade..."
    case LoopSegment => "Rendering loop segment..."
    case Outro => "Rendering outro..."
    case Merge => "Merging segments..."
  }

  /** One line of the concat manifest. */
  function ManifestLine(name: string): string {
    "file '" + name + "'\n"
  }

  /** What one pass of the loop adds to the manifest. */
  function LoopBlock(n: Names, hasCrossfade: bool): seq<string> {
    (if hasCrossfade then [ManifestLine(n.crossfade)] else []) + [ManifestLine(n.loop)]
  }

  function Repeat(block: seq<string>, count: nat): seq<string> {
    if count == 0 then [] else Repeat(block, count - 1) + block
  }

  /** The full-mode manifest: intro, `loopCount` passes of (crossfade, loop),
      a last crossfade, outro; the crossfade lines only with a crossfade. */
  function ConcatList(n: Names, loopCount: nat, hasCrossfade: bool): seq<string> {
    [ManifestLine(n.intro)]
    + Repeat(LoopBlock(n, hasCrossfade), loopCount)
    + (if hasCrossfade then [ManifestLine(n.crossfade)] else [])
    + [ManifestLine(n.outro)]
  }

  predicate EndsWith(s: string, suffix: string) {
    |suffix| <= |s| && s[|s| - |suffix|..] == suffix
  }

  /** `-i` before each input file. */
  function InputArgs(inputs: seq<string>): seq<string> {
    if inputs == [] then [] else ["-i", inputs[0]] + InputArgs(inputs[1..])
  }

  /** An mp3 output is re-encoded at fixed quality; anything else is copied. */
  function CodecArgs(outputPath: string): seq<string> {
    if EndsWith(outputPath, ".mp3") then ["-q:a", "2"] else ["-c", "copy"]
  }

  /** The merge invocation. A test run concatenates intro, crossfade (if
      any) and outro with a filter graph over as many inputs as it names; a
      full run hands the manifest to the concat demuxer. */
  function MergeArgs(isTest: bool, hasCrossfade: bool, n: Names, outputPath: string): (args: seq<string>)
    ensures |args| >= 2 && args[0] == "-y" && args[|args| - 1] == outputPath
  {
    if isTest then
      var inputs := [n.intro] + (if hasCrossfade then [n.crossfade] else []) + [n.outro];
      ["-y"] + InputArgs(inputs)
      + ["-filter_complex", "concat=n=" + NatToString(|inputs|) + ":v=0:a=1", outputPath]
    else
      ["-y", "-f", "concat", "-safe", "0", "-i", n.concatList] + CodecArgs(outputPath) + [outputPath]
  }

  /** A test-run merge names its two or three inputs and a filter graph over
      that many. */
  lemma TestMergeArgs(hasCrossfade: bool, n: Names, outputPath: string)
    ensures MergeArgs(true, hasCrossfade, n, outputPath) ==
      if hasCrossfade then
        ["-y"] + ["-i", n.intro, "-i", n.crossfade, "-i", n.outro,
                  "-filter_complex", "concat=n=3:v=0:a=1", outputPath]
      else
        ["-y"] + ["-i", n.intro, "-i", n.outro, "-filter_complex", "concat=n=2:v=0:a=1", outputPath]
  {
    var inputs := [n.intro] + (if hasCrossfade then [n.crossfade] else []) + [n.outro];
    assert InputArgs([n.outro]) == ["-i", n.outro] by {
      assert [n.outro][1..] == [];
    }
    if hasCrossfade {
      assert "concat=n=" + NatToString(3) + ":v=0:a=1" == "concat=n=3:v=0:a=1";
      assert inputs == [n.intro, n.crossfade, n.outro];
      assert InputArgs([n.crossfade, n.outro]) == ["-i", n.crossfade] + InputArgs([n.outro]) by {
        assert [n.crossfade, n.outro][1..] == [n.outro];
      }
      assert InputArgs(inputs) == ["-i", n.intro] + InputArgs([n.crossfade, n.outro]) by {
        assert inputs[1..] == [n.crossfade, n.outro];
      }
    } else {
      assert "concat=n=" + NatToString(2) + ":v=0:a=1" == "concat=n=2:v=0:a=1";
      assert inputs == [n.intro, n.outro];
      assert InputArgs(inputs) == ["-i", n.intro] + InputArgs([n.outro]) by {
        assert inputs[1..] == [n.outro];
      }
    }
  }

  /** A full-run merge hands the manifest to the concat demuxer, then the
      codec arguments, then the output. */
  lemma FullMergeArgs(hasCrossfade: bool, n: Names, outputPath: string)
    ensures var head := ["-y"] + ["-f", "concat", "-safe", "0", "-i", n.concatList];
      MergeArgs(false, hasCrossfade, n, outputPath) ==
      if EndsWith(outputPath, ".mp3") then head + ["-q:a"] + ["2"] + [outputPath]
      else head + ["-c"] + ["copy"] + [outputPath]
  {
  }

  /** The time windows of a run in milliseconds: the end of the intro
      (where the fade-out sample starts), the start of the fade-in sample,
      the crossfade length, the loop start (where the outro starts) and the
      length of the loop segment. */
  datatype Window = Window(
    fadeOutStart: int,
    fadeInStart: int,
    fadeLength: int,
    loopStart: int,
    loopLength: int)

  /** The windows `create_loop` computes from its arguments. They meet at
      the seams of the loop: the fade-out sample ends at the loop end, the
      fade-in sample ends at the loop start, and the loop segment ends where
      the fade-out sample begins, so the loop segment and one crossfade
      together last exactly from the loop start to the loop end. */
  function WindowOf(req: Request): (w: Window)
    ensures w.fadeOutStart + w.fadeLength == req.endMs
    ensures w.fadeInStart + w.fadeLength == w.loopStart == req.startMs
    ensures w.loopStart + w.loopLength == w.fadeOutStart
    ensures w.loopLength + w.fadeLength == req.endMs - req.startMs
  {
    Window(
      req.endMs - req.crossfadeMs,
      req.startMs - req.crossfadeMs,
      req.crossfadeMs,
      req.startMs,
      req.endMs - req.startMs - req.crossfadeMs)
  }

  /** The same windows as ffmpeg receives them, printed as seconds. */
  datatype Times = Times(
    fadeOutStart: string,
    fadeInStart: string,
    fadeLength: string,
    loopStart: string,
    loopLength: string)

  function TimesOf(w: Window): Times {
    Times(Seconds(w.fadeOutStart), Seconds(w.fadeInStart), Seconds(w.fadeLength),
          Seconds(w.loopStart), Seconds(w.loopLength))
  }

  /** The `afade` filter of a crossfade sample. */
  function Fade(direction: string, start: string, duration: string): string {
    "afade=t=" + direction + ":st=" + start + ":d=" + duration
  }

  /** The argument vector of each stage's invocation. */
  function StageArgs(st: Stage, req: Request, n: Names, t: Times): (args: seq<string>)
    ensures args != []
  {
    match st
    case Intro =>
      ["-y", "-i", req.filePath, "-t", t.fadeOutStart, n.intro]
    case CrossfadeSample1 =>
      ["-y", "-i", req.filePath, "-ss", t.fadeOutStart, "-t", t.fadeLength,
       "-af", Fade("out", t.fadeOutStart, t.fadeLength), n.crossfade1]
    case CrossfadeSample2 =>
      ["-y", "-i", req.filePath, "-ss", t.fadeInStart, "-t", t.fadeLength,
       "-af", Fade("in", t.fadeInStart, t.fadeLength), n.crossfade2]
    case CrossfadeMix =>
      ["-y", "-i", n.crossfade1, "-i", n.crossfade2,
       "-filter_complex", "amix=inputs=2:duration=first:dropout_transition=0:normalize=0", n.crossfade]
    case LoopSegment =>
      ["-y", "-i", req.filePath, "-ss", t.loopStart, "-t", t.loopLength, n.loop]
    case Outro =>
      ["-y", "-i", req.filePath, "-ss", t.loopStart, n.outro]
    case Merge =>
      MergeArgs(req.isTest, HasCrossfade(req), n, req.outputPath)
  }

  // ---------------------------------------------------------------------
  // The run as a sequence of snapshots

  /** One attempted ffmpeg process (started or not): the program and its
      arguments. */
  datatype Invocation = Invocation(program: string, args: seq<string>)

  /** Everything a run changes: the event channel, the finished channel (each
      signal is `Ok(true)`), the processes it started, the files that exist,
      and the contents of the concat manifest. */
  datatype Snapshot = Snapshot(
    events: seq<Event>,
    finished: seq<bool>,
    issued: seq<Invocation>,
    files: set<string>,
    manifest: seq<string>)

  function Said(s: Snapshot, text: string): Snapshot {
    s.(events := s.events + [Ok(Program(text))])
  }

  function Finished(s: Snapshot): Snapshot {
    s.(finished := s.finished + [true])
  }

  /** `execute_ffmpeg_command`: start the process, which sends what
      `RunEvents` says; on success the file named by the last argument
      exists, on failure the error is sent once more. */
  function Invoked(s: Snapshot, program: string, args: seq<string>, o: ProcessOutcome): Snapshot
    requires args != []
  {
    s.(issued := s.issued + [Invocation(program, args)],
       events := s.events + RunEvents(o) + Reported(RunResult(o)),
       files := if RunResult(o) == Success then s.files + {args[|args| - 1]} else s.files)
  }

  predicate Succeeded(o: ProcessOutcome) {
    RunResult(o) == Success
  }

  /** Before the merge, a full run writes the concat manifest. */
  function PrepareMerge(s: Snapshot, req: Request, n: Names): Snapshot {
    if req.isTest then s
    else s.(files := s.files + {n.concatList}, manifest := ConcatList(n, req.loopCount as nat, HasCrossfade(req)))
  }

  /** A stage up to and including its invocation: a full-mode merge first
      writes the manifest; then the announcement and the invocation. */
  function StageInvoked(s: Snapshot, st: Stage, req: Request, n: Names, t: Times, o: ProcessOutcome): Snapshot {
    var s0 := if st == Merge then PrepareMerge(s, req, n) else s;
    Invoked(Said(s0, Announcement(st)), req.ffmpegPath, StageArgs(st, req, n, t), o)
  }

  /** One stage: its invocation, and after a successful mix the deletion of
      the two crossfade samples. */
  function StageStep(s: Snapshot, st: Stage, req: Request, n: Names, t: Times, o: ProcessOutcome): Snapshot {
    var s1 := StageInvoked(s, st, req, n, t, o);
    if st == CrossfadeMix && Succeeded(o) then
      var s2 := Said(s1, "Deleting crossfade samples...");
      s2.(files := s2.files - {n.crossfade1} - {n.crossfade2})
    else s1
  }

  /** The temporary files the final cleanup deletes. */
  function CleanedUp(req: Request, n: Names): set<string> {
    {n.concatList, n.intro, n.outro}
    + (if req.isTest then {} else {n.loop})
    + (if HasCrossfade(req) then {n.crossfade} else {})
  }

  function Cleanup(s: Snapshot, req: Request, n: Names): Snapshot {
    var s1 := Said(s, "Deleting segments...");
    Finished(Said(s1.(files := s1.files - CleanedUp(req, n)), "Done!"))
  }

  /** Run `stages` with one outcome each, stopping after the first failure
      (which sends the finished signal), or clean up when all succeed. */
  function RunStages(s: Snapshot, stages: seq<Stage>, req: Request, n: Names, t: Times, outcomes: seq<ProcessOutcome>): Snapshot
    requires |outcomes| >= |stages|
    decreases |stages|
  {
    if stages == [] then Cleanup(s, req, n)
    else
      var s1 := StageStep(s, stages[0], req, n, t, outcomes[0]);
      if Succeeded(outcomes[0]) then RunStages(s1, stages[1..], req, n, t, outcomes[1..])
      else Finished(s1)
  }

  /** The two notices sent before any stage. */
  function Preamble(s: Snapshot, req: Request): Snapshot {
    var s1 := if req.crossfadeMs == 0 then Said(s, "Crossfade duration is 0, skipping crossfade...") else s;
    if req.isTest then Said(s1, "Test run, skipping loop segment...") else s1
  }

  predicate EnoughOutcomes(req: Request, outcomes: seq<ProcessOutcome>) {
    |outcomes| >= |Plan(HasCrossfade(req), req.isTest)|
  }

  /** A run with temporary names `n`, from the snapshot before it. */
  function RunSpec(s: Snapshot, req: Request, n: Names, outcomes: seq<ProcessOutcome>): Snapshot
    requires EnoughOutcomes(req, outcomes)
  {
    RunStages(Preamble(s, req), Plan(HasCrossfade(req), req.isTest), req, n, TimesOf(WindowOf(req)), outcomes)
  }

  /** A whole run, from the snapshot before it. */
  function CreateLoopSpec(s: Snapshot, req: Request, pid: nat, outcomes: seq<ProcessOutcome>): Snapshot
    requires EnoughOutcomes(req, outcomes)
  {
    RunSpec(s, req, TempNames(pid), outcomes)
  }

  lemma RunStagesAt(s: Snapshot, stages: seq<Stage>, req: Request, n: Names, t: Times, outcomes: seq<ProcessOutcome>, k: nat)
    requires k < |stages| <= |outcomes|
    ensures RunStages(s, stages[k..], req, n, t, outcomes[k..]) ==
      var s1 := StageStep(s, stages[k], req, n, t, outcomes[k]);
      if Succeeded(outcomes[k]) then RunStages(s1, stages[k + 1..], req, n, t, outcomes[k + 1..])
      else Finished(s1)
  {
    assert stages[k..][1..] == stages[k + 1..];
    assert outcomes[k..][1..] == outcomes[k + 1..];
  }

  /** The file a stage's invocation writes, for the stages that write a
      temporary file. */
  function StageOutput(st: Stage, n: Names): string
    requires st != Merge
  {
    match st
    case Intro => n.intro
    case CrossfadeSample1 => n.crossfade1
    case CrossfadeSample2 => n.crossfade2
    case CrossfadeMix => n.crossfade
    case LoopSegment => n.loop
    case Outro => n.outro
  }

  /** The segments that existed before a stage still exist after it; only
      the mix removes the crossfade samples it consumed. */
  predicate Kept(before: set<string>, after: set<string>, st: Stage, n: Names) {
    && (n.intro in before ==> n.intro in after)
    && (n.outro in before ==> n.outro in after)
    && (n.loop in before ==> n.loop in after)
    && (n.crossfade in before ==> n.crossfade in after)
    && (n.concatList in before ==> n.concatList in after)
    && (st != CrossfadeMix && n.crossfade1 in before ==> n.crossfade1 in after)
    && (st != CrossfadeMix && n.crossfade2 in before ==> n.crossfade2 in after)
  }

  /** An invocation never deletes a file. */
  lemma InvokedKeepsFiles(s: Snapshot, program: string, args: seq<string>, o: ProcessOutcome)
    requires args != []
    ensures s.files <= Invoked(s, program, args, o).files
  {
  }

  /** A successful stage keeps the segments rendered before it. */
  lemma StageKeepsFiles(s: Snapshot, st: Stage, req: Request, n: Names, t: Times, o: ProcessOutcome)
    requires Distinct(n) && Succeeded(o)
    ensures Kept(s.files, StageStep(s, st, req, n, t, o).files, st, n)
  {
    var s0 := if st == Merge then PrepareMerge(s, req, n) else s;
    assert s.files <= s0.files;
    var s1 := StageInvoked(s, st, req, n, t, o);
    InvokedKeepsFiles(Said(s0, Announcement(st)), req.ffmpegPath, StageArgs(st, req, n, t), o);
    assert s.files <= s1.files;
    var after := StageStep(s, st, req, n, t, o).files;
    if st == CrossfadeMix {
      assert s.files - {n.crossfade1} - {n.crossfade2} <= after;
    } else {
      assert s.files <= after;
    }
  }

  /** Every rendering stage names its output file last. */
  lemma StageArgsEndWithOutput(st: Stage, req: Request, n: Names, t: Times)
    requires st != Merge
    ensures var args := StageArgs(st, req, n, t); args[|args| - 1] == StageOutput(st, n)
  {
    match st
    case Intro =>
    case CrossfadeSample1 =>
    case CrossfadeSample2 =>
    case CrossfadeMix =>
    case LoopSegment =>
    case Outro =>
  }

  /** After a successful stage, the file it renders exists. */
  lemma StageRendersFile(s: Snapshot, st: Stage, req: Request, n: Names, t: Times, o: ProcessOutcome)
    requires Distinct(n) && Succeeded(o) && st != Merge
    ensures StageOutput(st, n) in StageStep(s, st, req, n, t, o).files
  {
    StageArgsEndWithOutput(st, req, n, t);
    var s1 := StageInvoked(s, st, req, n, t, o);
    assert StageOutput(st, n) in s1.files;
    if st == CrossfadeMix {
      assert StageStep(s, st, req, n, t, o).files == s1.files - {n.crossfade1} - {n.crossfade2};
    } else {
      assert StageStep(s, st, req, n, t, o).files == s1.files;
    }
  }

  /** After stage `k` of `stages` succeeds, the rest of the run is the run of
      the remaining stages from the new snapshot. */
  lemma Advance(goal: Snapshot, s: Snapshot, stages: seq<Stage>, req: Request, n: Names, t: Times,
                outcomes: seq<ProcessOutcome>, k: nat)
    requires k < |stages| <= |outcomes|
    requires goal == RunStages(s, stages[k..], req, n, t, outcomes[k..])
    requires Succeeded(outcomes[k])
    ensures goal == RunStages(StageStep(s, stages[k], req, n, t, outcomes[k]), stages[k + 1..], req, n, t, outcomes[k + 1..])
  {
    RunStagesAt(s, stages, req, n, t, outcomes, k);
  }

  /** When stage `k` fails, the run ends with that stage and the finished signal. */
  lemma Abort(goal: Snapshot, s: Snapshot, stages: seq<Stage>, req: Request, n: Names, t: Times,
              outcomes: seq<ProcessOutcome>, k: nat)
    requires k < |stages| <= |outcomes|
    requires goal == RunStages(s, stages[k..], req, n, t, outcomes[k..])
    requires !Succeeded(outcomes[k])
    ensures goal == Finished(StageStep(s, stages[k], req, n, t, outcomes[k]))
  {
    RunStagesAt(s, stages, req, n, t, outcomes, k);
  }

  // ---------------------------------------------------------------------
  // The run, statement by statement

  class LoopRun {
    const tx: Channel
    var finished: seq<bool>
    var issued: seq<Invocation>
    var files: set<string>
    var manifest: seq<string>

    constructor (tx: Channel, files: set<string>)
      ensures this.tx == tx && this.files == files
      ensures finished == [] && issued == [] && manifest == []
    {
      this.tx := tx;
      this.files := files;
      finished, issued, manifest := [], [], [];
    }

    ghost function State(): Snapshot
      reads this, tx
    {
      Snapshot(tx.sent, finished, issued, files, manifest)
    }

    method SendProgram(text: string)
      modifies tx
      ensures State() == Said(old(State()), text)
    {
      tx.Send(Ok(Program(text)));
    }

    method SignalFinished()
      modifies this
      ensures State() == Finished(old(State()))
    {
      finished := finished + [true];
    }

    /** `remove_file(..).unwrap()`: the file must exist. */
    method RemoveFile(name: string)
      requires name in files
      modifies this
      ensures State() == old(State()).(files := old(files) - {name})
    {
      files := files - {name};
    }

    /** `remove_file(..).unwrap_or_default()`: a missing file is tolerated. */
    method RemoveFileIfPresent(name: string)
      modifies this
      ensures State() == old(State()).(files := old(files) - {name})
    {
      files := files - {name};
    }

    method ExecuteFfmpegCommand(program: string, args: seq<string>, o: ProcessOutcome) returns (ok: bool)
      requires args != []
      modifies this, tx
      ensures ok == Succeeded(o)
      ensures State() == Invoked(old(State()), program, args, o)
    {
      issued := issued + [Invocation(program, args)];
      var r := RunFfmpeg(program, args, tx, o);
      match r {
        case Success =>
          files := files + {args[|args| - 1]};
          ok := true;
        case Failure(e) =>
          tx.Send(Err(e));
          ok := false;
      }
    }

    /** Create the manifest file and write its lines one by one. */
    method WriteConcatList(n: Names, loopCount: u8, hasCrossfade: bool)
      modifies this
      ensures State() == old(State()).(files := old(files) + {n.concatList},
                                       manifest := ConcatList(n, loopCount as nat, hasCrossfade))
    {
      files := files + {n.concatList};
      manifest := [];
      manifest := manifest + [ManifestLine(n.intro)];
      var i := 0;
      while i < loopCount
        invariant 0 <= i <= loopCount
        invariant manifest == [ManifestLine(n.intro)] + Repeat(LoopBlock(n, hasCrossfade), i as nat)
        invariant finished == old(finished) && issued == old(issued)
        invariant files == old(files) + {n.concatList}
      {
        if hasCrossfade {
          manifest := manifest + [ManifestLine(n.crossfade)];
        }
        manifest := manifest + [ManifestLine(n.loop)];
        i := i + 1;
      }
      if hasCrossfade {
        manifest := manifest + [ManifestLine(n.crossfade)];
      }
      manifest := manifest + [ManifestLine(n.outro)];
    }

    /** The intro: everything before the crossfade window. */
    method RenderIntro(req: Request, n: Names, t: Times, o: ProcessOutcome) returns (ok: bool)
      modifies this, tx
      ensures ok == Succeeded(o)
      ensures State() == StageStep(old(State()), Intro, req, n, t, o)
    {
      SendProgram("Rendering intro...");
      ok := ExecuteFfmpegCommand(req.ffmpegPath,
        ["-y", "-i", req.filePath, "-t", t.fadeOutStart, n.intro], o);
    }

    /** The end of the loop, faded out over the crossfade window. */
    method RenderCrossfadeSample1(req: Request, n: Names, t: Times, o: ProcessOutcome) returns (ok: bool)
      modifies this, tx
      ensures ok == Succeeded(o)
      ensures State() == StageStep(old(State()), CrossfadeSample1, req, n, t, o)
    {
      SendProgram("Rendering crossfade sample 1...");
      ok := ExecuteFfmpegCommand(req.ffmpegPath,
        ["-y", "-i", req.filePath, "-ss", t.fadeOutStart, "-t", t.fadeLength,
         "-af", Fade("out", t.fadeOutStart, t.fadeLength), n.crossfade1],
        o);
    }

    /** The audio just before the loop start, faded in. */
    method RenderCrossfadeSample2(req: Request, n: Names, t: Times, o: ProcessOutcome) returns (ok: bool)
      modifies this, tx
      ensures ok == Succeeded(o)
      ensures State() == StageStep(old(State()), CrossfadeSample2, req, n, t, o)
    {
      SendProgram("Rendering crossfade sample 2...");
      var args := ["-y", "-i", req.filePath, "-ss", t.fadeInStart, "-t", t.fadeLength,
                   "-af", Fade("in", t.fadeInStart, t.fadeLength), n.crossfade2];
      ok := ExecuteFfmpegCommand(req.ffmpegPath, args, o);
    }

    /** Mix the two samples; on success delete them. */
    method RenderCrossfade(req: Request, n: Names, t: Times, o: ProcessOutcome) returns (ok: bool)
      requires Distinct(n) && n.crossfade1 in files && n.crossfade2 in files
      modifies this, tx
      ensures ok == Succeeded(o)
      ensures State() == StageStep(old(State()), CrossfadeMix, req, n, t, o)
    {
      SendProgram("Rendering crossfade...");
      ok := ExecuteFfmpegCommand(req.ffmpegPath,
        ["-y", "-i", n.crossfade1, "-i", n.crossfade2,
         "-filter_complex", "amix=inputs=2:duration=first:dropout_transition=0:normalize=0", n.crossfade],
        o);
      if ok {
        SendProgram("Deleting crossfade samples...");
        RemoveFile(n.crossfade1);
        RemoveFile(n.crossfade2);
      }
    }

    /** The repeated body: from the loop start, as long as the loop minus
        the crossfade. */
    method RenderLoopSegment(req: Request, n: Names, t: Times, o: ProcessOutcome) returns (ok: bool)
      modifies this, tx
      ensures ok == Succeeded(o)
      ensures State() == StageStep(old(State()), LoopSegment, req, n, t, o)
    {
      SendProgram("Rendering loop segment...");
      ok := ExecuteFfmpegCommand(req.ffmpegPath,
        ["-y", "-i", req.filePath, "-ss", t.loopStart, "-t", t.loopLength, n.loop],
        o);
    }

    /** The outro: everything from the loop start on. */
    method RenderOutro(req: Request, n: Names, t: Times, o: ProcessOutcome) returns (ok: bool)
      modifies this, tx
      ensures ok == Succeeded(o)
      ensures State() == StageStep(old(State()), Outro, req, n, t, o)
    {
      SendProgram("Rendering outro...");
      ok := ExecuteFfmpegCommand(req.ffmpegPath,
        ["-y", "-i", req.filePath, "-ss", t.loopStart, n.outro], o);
    }

    /** Build the merge command argument by argument, writing the manifest
        in full mode. */
    method MergeCommand(req: Request, n: Names) returns (cmd: seq<string>)
      modifies this
      ensures cmd == MergeArgs(req.isTest, HasCrossfade(req), n, req.outputPath)
      ensures State() == PrepareMerge(old(State()), req, n)
    {
      cmd := ["-y"];
      if req.isTest {
        TestMergeArgs(HasCrossfade(req), n, req.outputPath);
        if req.crossfadeMs > 0 {
          cmd := cmd + ["-i", n.intro, "-i", n.crossfade, "-i", n.outro,
                        "-filter_complex", "concat=n=3:v=0:a=1", req.outputPath];
        } else {
          cmd := cmd + ["-i", n.intro, "-i", n.outro,
                        "-filter_complex", "concat=n=2:v=0:a=1", req.outputPath];
        }
      } else {
        FullMergeArgs(HasCrossfade(req), n, req.outputPath);
        WriteConcatList(n, req.loopCount, req.crossfadeMs > 0);
        cmd := cmd + ["-f", "concat", "-safe", "0", "-i", n.concatList];
        if EndsWith(req.outputPath, ".mp3") {
          cmd := cmd + ["-q:a"];
          cmd := cmd + ["2"];
        } else {
          cmd := cmd + ["-c"];
          cmd := cmd + ["copy"];
        }
        cmd := cmd + [req.outputPath];
      }
    }

    /** The merge: build the command, then run it. */
    method MergeSegments(req: Request, n: Names, t: Times, o: ProcessOutcome) returns (ok: bool)
      modifies this, tx
      ensures ok == Succeeded(o)
      ensures State() == StageStep(old(State()), Merge, req, n, t, o)
    {
      var cmd := MergeCommand(req, n);
      SendProgram("Merging segments...");
      ok := ExecuteFfmpegCommand(req.ffmpegPath, cmd, o);
    }

    /** Delete the temporary files (the manifest may be missing; the others
        must exist), then report completion. */
    method DeleteSegments(req: Request, n: Names)
      requires Distinct(n) && n.intro in files && n.outro in files
      requires !req.isTest ==> n.loop in files
      requires HasCrossfade(req) ==> n.crossfade in files
      modifies this, tx
      ensures State() == Cleanup(old(State()), req, n)
    {
      SendProgram("Deleting segments...");
      ghost var said := State();
      RemoveFileIfPresent(n.concatList);
      RemoveFile(n.intro);
      RemoveFile(n.outro);
      if !req.isTest {
        RemoveFile(n.loop);
      }
      if req.crossfadeMs > 0 {
        RemoveFile(n.crossfade);
      }
      assert files == said.files - CleanedUp(req, n);
      SendProgram("Done!");
      SignalFinished();
    }

    /** One stage of the run as the thread writes each of them: announce it,
        invoke ffmpeg and, when that fails, send the finished signal (after
        which the thread returns). `goal` is what the rest of the run, from
        stage `k` on, must produce. */
    method Attempt(st: Stage, req: Request, n: Names, t: Times, ghost goal: Snapshot, ghost stages: seq<Stage>,
                   outcomes: seq<ProcessOutcome>, k: nat)
      returns (ok: bool)
      requires k < |stages| <= |outcomes| && stages[k] == st
      requires goal == RunStages(State(), stages[k..], req, n, t, outcomes[k..])
      requires Distinct(n) && (st == CrossfadeMix ==> n.crossfade1 in files && n.crossfade2 in files)
      modifies this, tx
      ensures ok == Succeeded(outcomes[k])
      ensures !ok ==> State() == goal
      ensures ok ==> Kept(old(files), files, st, n)
      ensures ok && st != Merge ==> StageOutput(st, n) in files
      ensures ok ==> goal == RunStages(State(), stages[k + 1..], req, n, t, outcomes[k + 1..])
    {
      ghost var before := State();
      var o := outcomes[k];
      match st {
        case Intro => ok := RenderIntro(req, n, t, o);
        case CrossfadeSample1 => ok := RenderCrossfadeSample1(req, n, t, o);
        case CrossfadeSample2 => ok := RenderCrossfadeSample2(req, n, t, o);
        case CrossfadeMix => ok := RenderCrossfade(req, n, t, o);
        case LoopSegment => ok := RenderLoopSegment(req, n, t, o);
        case Outro => ok := RenderOutro(req, n, t, o);
        case Merge => ok := MergeSegments(req, n, t, o);
      }
      if !ok {
        Abort(goal, before, stages, req, n, t, outcomes, k);
        SignalFinished();
      } else {
        Advance(goal, before, stages, req, n, t, outcomes, k);
        StageKeepsFiles(before, st, req, n, t, o);
        if st != Merge {
          StageRendersFile(before, st, req, n, t, o);
        }
      }
    }

    /** The `crossfade_s > 0` block: the two samples and their mix, which
        replaces them. */
    method RenderCrossfadeStages(req: Request, n: Names, t: Times, ghost goal: Snapshot, ghost stages: seq<Stage>,
                                 outcomes: seq<ProcessOutcome>, k: nat)
      returns (ok: bool)
      requires k + 3 <= |stages| <= |outcomes| && Distinct(n) && n.intro in files
      requires stages[k..k + 3] == CrossfadeStages(true)
      requires goal == RunStages(State(), stages[k..], req, n, t, outcomes[k..])
      modifies this, tx
      ensures !ok ==> State() == goal
      ensures ok ==> n.intro in files && n.crossfade in files
      ensures ok ==> goal == RunStages(State(), stages[k + 3..], req, n, t, outcomes[k + 3..])
    {
      assert stages[k] == stages[k..k + 3][0];
      assert stages[k + 1] == stages[k..k + 3][1];
      assert stages[k + 2] == stages[k..k + 3][2];
      ok := Attempt(CrossfadeSample1, req, n, t, goal, stages, outcomes, k);
      if !ok {
        return;
      }

      ok := Attempt(CrossfadeSample2, req, n, t, goal, stages, outcomes, k + 1);
      if !ok {
        return;
      }

      ok := Attempt(CrossfadeMix, req, n, t, goal, stages, outcomes, k + 2);
      if !ok {
        return;
      }
    }

    /** The `!is_test` block: the loop segment. */
    method RenderLoopStage(req: Request, n: Names, t: Times, ghost goal: Snapshot, ghost stages: seq<Stage>,
                           outcomes: seq<ProcessOutcome>, k: nat)
      returns (ok: bool)
      requires Distinct(n) && n.intro in files && (HasCrossfade(req) ==> n.crossfade in files)
      requires k < |stages| <= |outcomes| && stages[k..] == FinalStages(false)
      requires goal == RunStages(State(), stages[k..], req, n, t, outcomes[k..])
      modifies this, tx
      ensures !ok ==> State() == goal
      ensures ok ==> n.intro in files && n.loop in files && (HasCrossfade(req) ==> n.crossfade in files)
      ensures ok ==> stages[k + 1..] == [Outro, Merge]
      ensures ok ==> goal == RunStages(State(), stages[k + 1..], req, n, t, outcomes[k + 1..])
    {
      assert stages[k] == stages[k..][0];
      ok := Attempt(LoopSegment, req, n, t, goal, stages, outcomes, k);
      assert stages[k + 1..] == stages[k..][1..];
    }

    /** The outro, the merge and the clean-up. */
    method RenderOutroAndMerge(req: Request, n: Names, t: Times, ghost goal: Snapshot, ghost stages: seq<Stage>,
                               outcomes: seq<ProcessOutcome>, k: nat)
      requires Distinct(n) && n.intro in files
      requires (HasCrossfade(req) ==> n.crossfade in files) && (!req.isTest ==> n.loop in files)
      requires k <= |stages| <= |outcomes| && stages[k..] == [Outro, Merge]
      requires goal == RunStages(State(), stages[k..], req, n, t, outcomes[k..])
      modifies this, tx
      ensures State() == goal
    {
      assert stages[k] == stages[k..][0] && stages[k + 1] == stages[k..][1];
      var ok := Attempt(Outro, req, n, t, goal, stages, outcomes, k);
      if !ok {
        return;
      }
      ok := Attempt(Merge, req, n, t, goal, stages, outcomes, k + 1);
      if !ok {
        return;
      }
      assert stages[k + 2..] == [];
      DeleteSegments(req, n);
    }

    /** The body of the thread `create_loop` once it has named its temporary
        files `n` and printed its time arguments `t`; `outcomes[k]` is how
        the k-th ffmpeg invocation turns out. */
    method Run(req: Request, n: Names, t: Times, outcomes: seq<ProcessOutcome>)
      requires Distinct(n) && EnoughOutcomes(req, outcomes)
      modifies this, tx
      ensures State() == RunStages(Preamble(old(State()), req), Plan(HasCrossfade(req), req.isTest), req, n, t, outcomes)
    {
      ghost var stages := Plan(HasCrossfade(req), req.isTest);
      PlanSplit(HasCrossfade(req), req.isTest);
      if req.crossfadeMs == 0 {
        SendProgram("Crossfade duration is 0, skipping crossfade...");
      }
      if req.isTest {
        SendProgram("Test run, skipping loop segment...");
      }
      ghost var goal := RunStages(State(), stages, req, n, t, outcomes);
      assert stages[0..] == stages && outcomes[0..] == outcomes;
      var ok := Attempt(Intro, req, n, t, goal, stages, outcomes, 0);
      if !ok {
        return;
      }

      if req.crossfadeMs > 0 {
        ok := RenderCrossfadeStages(req, n, t, goal, stages, outcomes, 1);
        if !ok {
          return;
        }
      }
      var k := if req.crossfadeMs > 0 then 4 else 1;
      if !req.isTest {
        ok := RenderLoopStage(req, n, t, goal, stages, outcomes, k);
        if !ok {
          return;
        }
        k := k + 1;
      }
      RenderOutroAndMerge(req, n, t, goal, stages, outcomes, k);
    }

    /** The thread `create_loop` starts; `pid` is the process id the
        temporary names are made from. */
    method CreateLoop(req: Request, pid: nat, outcomes: seq<ProcessOutcome>)
      requires EnoughOutcomes(req, outcomes)
      modifies this, tx
      ensures State() == CreateLoopSpec(old(State()), req, pid, outcomes)
    {
      var n := TempNames(pid);
      TempNamesDistinct(pid);
      var t := TimesOf(WindowOf(req));
      Run(req, n, t, outcomes);
    }
  }
}
