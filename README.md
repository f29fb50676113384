# EchoBlend loop pipeline, modelled in Dafny

EchoBlend turns a section of an audio file into a long, seamless loop by
driving ffmpeg. This project models the part of the program that does this:

- `create_loop` and `execute_ffmpeg_command` in `src/looper.rs`. The thread
  names seven temporary files after the process id. It renders an intro,
  optionally two crossfade samples and their mix, optionally the loop segment,
  and an outro, one ffmpeg invocation each. It then writes the concat manifest
  (full mode only) and merges the pieces into the output. Last, it deletes the
  temporary files. Milestones go to the event channel. The finished channel
  gets one signal when the thread stops, whether it completed or a stage
  failed.
- `run_ffmpeg` in `src/ffmpeg.rs`. It starts the process and forwards each
  output stream line by line until the stream's first read error. A
  standard-error line counts as an error when its lower-case form contains
  "error". The spawn, exit and wait outcomes are turned into a result, and a
  failure is also sent on the channel.

The model has four modules:

- `Decimal` (`decimal.dfy`) prints the process id and the time arguments as
  decimal text. Times are whole milliseconds. `Seconds` prints them as
  seconds, the way Rust prints the `f32` nearest to that many seconds, and `ParseSeconds` reads
  them back.
- `Ffmpeg` (`ffmpeg.dfy`) holds the event types, the `Channel` class (an
  append-only sequence of sent events) and the classification rule. The
  reader loop is `ForwardLines`, and `RunFfmpeg` is one invocation. The
  process is an oracle `ProcessOutcome`: a spawn error, or the lines (or read
  error) of each stream and how the wait ended.
- `Looper` (`looper.dfy`) states the run as functions over a `Snapshot` of
  everything the run changes: events, finished signals, issued invocations,
  existing files and manifest contents. `RunStages` steps through the stage
  plan and stops at the first failure. The class `LoopRun` performs the run
  statement by statement, as the thread does, with early returns.
  `LoopRun.CreateLoop` is proved to reach exactly `CreateLoopSpec`.
- `LooperProperties` (`looper_properties.dfy`) proves what the pipeline
  promises about those functions: the manifest's shape, the time windows,
  what a fully successful run does and leaves, and what a run whose k-th
  invocation fails does and leaves.

## Model

| member | source | states |
|---|---|---|
| Decimal.NatToString | src/looper.rs:22-28 | The process id prints as a non-empty string of digits that starts with '0' only for 0. |
| Decimal.ParseNatToString | src/looper.rs:22-28 | Reading back the printed process id gives the id. |
| Decimal.Seconds | src/looper.rs:76-83 | A time prints with a leading minus sign exactly when it is negative, and a digit comes first after any sign. `SecondsRoundTrip` is its partner. |
| Decimal.SecondsRoundTrip | src/looper.rs:76-83 | A printed time, negative ones included, reads back as the milliseconds it was printed from. |
| Decimal.SecondsInjective | src/looper.rs:76-83 | Different times never print the same, so two arguments print alike exactly when their times are equal. |
| Ffmpeg.ContainsIffOccurs | src/ffmpeg.rs:52 | `contains` scanning from the left holds exactly when the pattern occurs at some index. |
| Ffmpeg.ClassifyStderr | src/ffmpeg.rs:51-58 | A standard-error line becomes `Stderr` exactly when its lower-case form contains "error" at some index, and `Stdout` otherwise. The text is kept unchanged. |
| Ffmpeg.LineEvent | src/ffmpeg.rs:32-33 | A line read becomes an `Ok` event carrying the line's text and never a milestone. A standard-output line is always `Stdout`. |
| Ffmpeg.ReaderEvents | src/ffmpeg.rs:28-67 | What one reader sends for its reads. `ReaderForwardsUntilFailure` characterises it. |
| Ffmpeg.FirstFailure | src/ffmpeg.rs:49-66 | The index of the first failed read: every read before it succeeded, and it is a failure unless it is the end. |
| Ffmpeg.ReaderForwardsUntilFailure | src/ffmpeg.rs:28-67 | A reader sends the lines before its first failed read, in order, then that read's error once, and nothing more. The error is the only `Err` it sends. |
| Ffmpeg.StdoutReaderNeverStderr | src/ffmpeg.rs:28-42 | The standard-output reader never sends a `Stderr` line. |
| Ffmpeg.ReaderSendsNoMilestone | src/ffmpeg.rs:28-67 | Neither reader ever sends a pipeline milestone. |
| Ffmpeg.ForwardLines | src/ffmpeg.rs:47-67 | The reader loop, with its early return on a read error, appends exactly `ReaderEvents` to the channel. |
| Ffmpeg.RunResult | src/ffmpeg.rs:11-82 | What one invocation returns: the spawn error, the exit message, the wait error, or success. `RunOutcomeReported` characterises it. |
| Ffmpeg.RunEvents | src/ffmpeg.rs:11-82 | What one invocation sends. `RunOutcomeReported` and `RunSendsNoMilestone` characterise it. |
| Ffmpeg.RunOutcomeReported | src/ffmpeg.rs:11-82 | Spawn failure: the error is returned and sent once, with no reader started. Other failures: the returned error is the last event sent. A non-zero exit gives "ffmpeg exited with error code: <status>". Success happens exactly on a successful exit, and then only the readers' events are sent. |
| Ffmpeg.RunSendsNoMilestone | src/ffmpeg.rs:6-83 | Nothing one invocation sends is a pipeline milestone. |
| Ffmpeg.AwaitExit | src/ffmpeg.rs:70-82 | Waiting returns the exit mapping and sends the failure message once, or nothing on success. |
| Ffmpeg.RunFfmpeg | src/ffmpeg.rs:6-83 | One invocation returns `RunResult` and sends exactly `RunEvents`: stdout events, then stderr events, then the failure report. |
| Looper.TempNames | src/looper.rs:22-28 | The seven temporary names made from the process id. `TempNamesDistinct` proves them pairwise different. |
| Looper.TempNamesDistinct | src/looper.rs:22-28 | For every process id, the seven temporary names are pairwise different. |
| Looper.PlanSplit | src/looper.rs:44-271 | The plan is the intro, then the crossfade block, then the final stages. |
| Looper.Plan | src/looper.rs:44-271 | The stages `create_loop` invokes, in order: intro, the crossfade block when the crossfade is positive, the loop segment in full mode, outro, merge. `PlanAt` and `PlanMembers` characterise it. |
| Looper.PlanAt | src/looper.rs:44-271 | The plan has 3 + 3·[crossfade] + [full mode] stages, in the order intro, sample 1, sample 2, mix, loop, outro, merge. |
| Looper.MergeArgs | src/looper.rs:197-263 | The merge command starts with `-y` and names the output last. |
| Looper.TestMergeArgs | src/looper.rs:198-221 | The test-mode merge names intro, crossfade (only with a crossfade) and outro as inputs. Its filter is `concat=n=3` with a crossfade and `concat=n=2` without, so n equals the number of inputs. Loop count and extension play no part. |
| Looper.FullMergeArgs | src/looper.rs:247-262 | The full-mode merge is `-y -f concat -safe 0 -i <manifest>`, then `-q:a 2` for an `.mp3` output and `-c copy` otherwise, then the output. |
| Looper.WindowOf | src/looper.rs:55-163 | The windows meet at the loop's seams. The fade-out sample ends at the loop end, and the fade-in sample ends at the loop start. The loop segment ends where the fade-out sample begins. Loop length plus crossfade equals end minus start. |
| Looper.ConcatList | src/looper.rs:223-245 | The manifest lines of a full run. `ConcatListWithCrossfade`, `ConcatListWithoutCrossfade` and `ConcatListCounts` give every position and count. |
| Looper.StageArgs | src/looper.rs:48-263 | Every stage's argument vector is non-empty. `StageTimeArgs`, the window lemmas, `StageArgsOverwrite` and `StageArgsEndWithOutput` state its contents. |
| Looper.Invoked | src/looper.rs:293-305 | One `execute_ffmpeg_command`: the attempt is recorded, the invocation's events are sent, and a failure is sent once more. On success the file named last exists. `StageRecords`, `StageSucceededFiles` and `StageFailed` state its effects. |
| Looper.Preamble | src/looper.rs:30-42 | The zero-crossfade and test-run notices. `PreambleKeeps` shows they change only the events. |
| Looper.RunStages | src/looper.rs:44-289 | The stages run in plan order, stopping with the finished signal at the first failure or ending with the cleanup. The `Run*Succeeding` and `Run*Failing` lemmas characterise it. |
| Looper.Cleanup | src/looper.rs:273-289 | Announces the cleanup, deletes `CleanedUp`, says "Done!" and signals finished. `CleanupLeavesOutput` and `RunEndSucceeding` state its effect. |
| Looper.PrepareMerge | src/looper.rs:223-245 | Before a full-mode merge the manifest file is created and holds `ConcatList`; a test-mode merge changes nothing. `RunManifestSucceeding` characterises it. |
| Looper.StageInvoked | src/looper.rs:44-263 | One stage block up to its invocation: a full-mode merge first writes the manifest, then the stage's announcement, then one `execute_ffmpeg_command` with the stage's arguments. `StageRecords`, `StageSucceededFiles` and `StageFailed` characterise it. |
| Looper.StageStep | src/looper.rs:44-263 | One whole stage block: `StageInvoked`, then, after a successful mix only, "Deleting crossfade samples..." and the deletion of both samples (src/looper.rs:141-146). `StageKeepsFiles`, `StageSucceededFiles`, `StageFailed` and `StageNeverDone` characterise it. |
| Looper.StageKeepsFiles | src/looper.rs:66-195 | A successful stage keeps the intro, outro, loop, crossfade and manifest files that existed before it. Only the mix removes the two crossfade samples. |
| Looper.StageArgsEndWithOutput | src/looper.rs:48-188 | Every rendering stage names its own temporary file as its last argument. |
| Looper.StageRendersFile | src/looper.rs:48-195 | After a successful rendering stage, its file exists. |
| Looper.LoopRun.SendProgram | src/looper.rs:44-47 | Sending a milestone appends `Ok(Program(text))` and changes nothing else. |
| Looper.LoopRun.SignalFinished | src/looper.rs:62 | The finished channel gets one `true` more. |
| Looper.LoopRun.RemoveFile | src/looper.rs:145-146 | `remove_file(..).unwrap()` needs the file to exist and removes it. |
| Looper.LoopRun.RemoveFileIfPresent | src/looper.rs:277 | `remove_file(..).unwrap_or_default()` removes the file if present. |
| Looper.LoopRun.ExecuteFfmpegCommand | src/looper.rs:293-305 | The run is recorded and the invocation's events sent. On failure, its error is sent once more and false returned. On success, the output file exists. |
| Looper.LoopRun.WriteConcatList | src/looper.rs:223-245 | The manifest file exists and holds exactly `ConcatList`, written line by line in the `loop_count` loop. |
| Looper.LoopRun.RenderIntro | src/looper.rs:44-64 | Announces and invokes the intro stage: the state is `StageStep` for `Intro`. |
| Looper.LoopRun.RenderCrossfadeSample1 | src/looper.rs:67-91 | The state is `StageStep` for the fade-out sample. |
| Looper.LoopRun.RenderCrossfadeSample2 | src/looper.rs:92-116 | The state is `StageStep` for the fade-in sample. |
| Looper.LoopRun.RenderCrossfade | src/looper.rs:117-146 | The state is `StageStep` for the mix. After a successful mix both samples are announced and deleted, and they must exist. |
| Looper.LoopRun.RenderLoopSegment | src/looper.rs:149-173 | The state is `StageStep` for the loop segment. |
| Looper.LoopRun.RenderOutro | src/looper.rs:175-195 | The state is `StageStep` for the outro. |
| Looper.LoopRun.MergeCommand | src/looper.rs:197-263 | The `cmd` grown by `append`/`push` equals `MergeArgs`. In full mode the manifest is written first. |
| Looper.LoopRun.MergeSegments | src/looper.rs:264-271 | The state is `StageStep` for the merge. |
| Looper.LoopRun.DeleteSegments | src/looper.rs:273-289 | Cleanup deletes the manifest (absence tolerated), intro, outro, the loop iff full mode and the crossfade iff there is one. Then it says "Done!" and signals finished. |
| Looper.LoopRun.Attempt | src/looper.rs:48-64 | One stage followed by the early return: on failure the run ends with the finished signal; on success it continues with the remaining stages. |
| Looper.LoopRun.RenderCrossfadeStages | src/looper.rs:66-147 | The `crossfade_s > 0` block runs its three stages, stopping at the first failure. |
| Looper.LoopRun.RenderLoopStage | src/looper.rs:149-173 | The `!is_test` block runs the loop segment stage. |
| Looper.LoopRun.RenderOutroAndMerge | src/looper.rs:175-289 | The outro, the merge and, when both succeed, the cleanup. |
| Looper.LoopRun.Run | src/looper.rs:30-289 | The thread body reaches exactly `RunStages` of the plan after the two notices. |
| Looper.LoopRun.CreateLoop | src/looper.rs:7-291 | A whole run reaches exactly `CreateLoopSpec`, with names from the process id and times from the request. |
| LooperProperties.ManifestLineInjective | src/looper.rs:226 | A manifest line names exactly one file. |
| LooperProperties.ConcatListWithCrossfade | src/looper.rs:223-245 | With a crossfade the manifest has 2c+3 lines. The intro is first. Each of the c passes is a crossfade line followed by a loop line. A last crossfade and then the outro close it. |
| LooperProperties.ConcatListWithoutCrossfade | src/looper.rs:223-245 | Without a crossfade it has c+2 lines: intro, c loop lines, outro. |
| LooperProperties.ConcatListCounts | src/looper.rs:223-245 | With distinct names the manifest holds one intro line and one outro line. It holds exactly c loop lines. It holds c+1 crossfade lines with a crossfade and none without. |
| LooperProperties.StageTimeArgs | src/looper.rs:48-188 | Where each stage puts its `-t`/`-ss` values, and the `afade` filters built from the same values. |
| LooperProperties.IntroOutroWindows | src/looper.rs:48-188 | Read back, the intro's `-t` is the fade-out start (end − cf), and the outro's `-ss` is the loop start. |
| LooperProperties.SampleWindows | src/looper.rs:71-110 | Read back, sample 1 starts at end − cf and sample 2 at start − cf. Both last cf, and each `afade` starts and lasts exactly as its sample does. |
| LooperProperties.LoopWindow | src/looper.rs:154-165 | Read back, the loop segment starts at `start` and lasts end − start − cf. |
| LooperProperties.StageArgsOverwrite | src/looper.rs:50-197 | Every argument vector starts with `-y`. |
| LooperProperties.StageRecords | src/looper.rs:44-271 | Each stage records exactly its own invocation and sends no finished signal. Only a full-mode merge writes the manifest. |
| LooperProperties.StageSucceededFiles | src/looper.rs:44-271 | A successful stage adds its target file, plus the manifest for a full merge. A successful mix then removes the two samples. |
| LooperProperties.StageFailed | src/looper.rs:293-305 | A failed stage renders no file. With the readers' events sent before the exit report, its error is the last event twice over. |
| LooperProperties.StageNeverDone | src/looper.rs:44-271 | No stage says "Done!". |
| LooperProperties.RunIssuedSucceeding | src/looper.rs:44-271 | When every stage succeeds, the run issues one invocation per stage, in plan order. |
| LooperProperties.RunEndSucceeding | src/looper.rs:273-289 | When every stage succeeds, the finished channel gets exactly one signal, and "Done!" is the last event in the model's event order. |
| LooperProperties.RunFilesSucceeding | src/looper.rs:44-289 | When every stage succeeds, the files are those the stages wrote minus those the cleanup deletes. |
| LooperProperties.RunManifestSucceeding | src/looper.rs:223-245 | When every stage succeeds, the manifest is `ConcatList` if a full-mode merge ran, and unchanged otherwise. |
| LooperProperties.RunIssuedFailing | src/looper.rs:48-271 | When stage k is the first to fail, exactly the invocations of stages 0..k are issued and no later one. |
| LooperProperties.RunEndFailing | src/looper.rs:298-303 | When stage k is the first to fail, the finished channel gets exactly one signal. In the model's event order, the failure's error is the last event twice over. |
| LooperProperties.RunNeverDoneFailing | src/looper.rs:59-64 | When stage k is the first to fail, "Done!" is never sent. |
| LooperProperties.RunFilesFailing | src/looper.rs:59-64 | When stage k is the first to fail, nothing is cleaned up. The files are those the earlier stages left, plus the manifest when the merge failed. |
| LooperProperties.FilesAfterKeeps | src/looper.rs:141-146 | Stages delete no file other than the two crossfade samples. |
| LooperProperties.FilesAfterHasTargets | src/looper.rs:48-195 | Every completed stage other than a sample leaves its file in place for good. |
| LooperProperties.FilesAfterWithoutMix | src/looper.rs:44-195 | Stages that do not include the mix delete nothing: every file before them and every file they render is still there afterwards. |
| LooperProperties.CrossfadeFiles | src/looper.rs:66-147 | The crossfade block adds the mix and leaves no sample behind. |
| LooperProperties.FinalFiles | src/looper.rs:149-271 | The final stages add loop (full mode), outro, manifest (full mode) and output. |
| LooperProperties.PlanFiles | src/looper.rs:44-271 | A successful plan adds exactly the intro, the crossfade (with one), the loop and manifest (full mode), the outro and the output. |
| LooperProperties.CleanupLeavesOutput | src/looper.rs:273-289 | Cleanup removes every temporary file the plan wrote and keeps the output. |
| LooperProperties.PlanMembers | src/looper.rs:44-271 | Intro, outro and merge always run. The three crossfade stages run iff there is a crossfade. The loop segment runs iff in full mode. |
| LooperProperties.PreambleKeeps | src/looper.rs:30-42 | The two notices change only the events. |
| LooperProperties.SuccessfulRunInvocations | src/looper.rs:44-271 | A fully successful run makes 3 + 3·[cf>0] + [!is_test] invocations. Each one runs the ffmpeg path with arguments starting with `-y`. |
| LooperProperties.SuccessfulRunEnd | src/looper.rs:264-289 | A fully successful run signals finished once and, in the model's event order, says "Done!" last. In full mode the last manifest content written, which the concat demuxer read, is `ConcatList`; the manifest file itself is then removed (`SuccessfulRunFiles`). A test run writes no manifest. |
| LooperProperties.SuccessfulRunFiles | src/looper.rs:44-289 | A fully successful run that starts with no temporary file leaves the files as they were, plus the output. |
| LooperProperties.FailedRun | src/looper.rs:48-271 | When invocation k is the first to fail, the run makes exactly k+1 invocations and signals finished once. In the model's event order it ends with the error twice. It never says "Done!". It keeps every earlier file and every segment rendered before the failure, except the samples a completed mix consumed. When the mix did not complete, it keeps every earlier file and every segment rendered before the failure, samples included. |

## Left out

- Threads and channels. The reader threads, the `create_loop` thread and the
  mpsc channels are not modelled as concurrency. A channel is an append-only
  sequence. One invocation sends its standard-output events, then its
  standard-error events, then the exit report, so no interleaving between the
  two readers, or with the next stage's milestone, is modelled. The order
  within each stream is kept.
- Processes. ffmpeg is never run. Each invocation's outcome (spawn error,
  lines and read errors per stream, exit or wait result) is an input. The
  text an `ExitStatus` displays as is part of that input.
- The filesystem. Files are a set of names and the manifest is a sequence of
  lines. A successful invocation is taken to create the file named by its
  last argument, and a failed one creates nothing. Audio content is not
  modelled.
- Panics. A `.unwrap()` on `remove_file` is a precondition, proved to hold
  from the stages the run itself completed. Other files deleted from outside
  are not modelled. A `.unwrap()` on a `send` (a dropped receiver) and on the
  manifest's create and writes is not modelled.
- Floating point. Times are whole milliseconds. `f32` rounding of the
  boundaries and of their differences is not modelled. `Seconds` prints what
  `f32` `Display` prints for the `f32` nearest to a millisecond value below
  2^14 seconds (about 4.5 hours) in magnitude. There adjacent `f32` values
  are less than 1 ms apart, so the shortest text that reads back as that
  `f32` is the millisecond text. Above that bound `Display` may print other
  digits.
- `std::process::id()` is a parameter `pid`.
- Lowercasing is ASCII only. For the pattern "error" this agrees with
  Unicode `to_lowercase`. The only non-ASCII characters that lower to ASCII
  letters are the Kelvin sign and the dotted capital I, and neither lowers to
  e, r or o. Lines that change length when lowercased are not modelled.
- `get_ffmpeg`, `download_ffmpeg`, `extract_ffmpeg` and `find_ffmpeg`
  (src/ffmpeg.rs:85-148) are not part of this model. They cover network
  download, an external 7z and directory walking.
- src/app.rs (the user interface and settings) and src/main.rs (start-up)
  are not part of this model.
- LoopRun.Run and LoopRun.CreateLoop require an outcome for every stage the
  plan could run (`EnoughOutcomes`). The ones after a failure are never
  consulted.
- StageFailed, RunEndFailing and FailedRun: "the error is the last event
  twice over" holds only in the model's event order. Nothing joins the reader
  threads, so in the program a reader may still send a line after the exit
  error or between it and the forwarded error.
- RunEndSucceeding and SuccessfulRunEnd: "Done!" is the last event only in
  the model's event order. In the program a reader of the merge may still
  send a line after it.
- The code has no request validator. Any start, end and crossfade are
  accepted, including a negative crossfade. A negative crossfade skips the
  crossfade stages without the notice sent for a zero crossfade.
- Cleanup on success is not best effort. Only the manifest's removal
  tolerates a missing file; the other removals panic when the file is
  missing.
- Temporary names come from the process id, so they are the same for every
  run in one process.
- A failed run deletes nothing beyond the two crossfade samples that a
  completed mix already removed.
