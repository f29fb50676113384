/** One ffmpeg invocation (`run_ffmpeg` in src/ffmpeg.rs): start the process,
    forward what its two output streams print to the event channel, and turn
    how it ended into a result.

    The process itself is not run: a `ProcessOutcome` says whether it could be
    started, which lines (or which read error) each stream yields and how the
    wait for it ended. The two reader threads of the source run concurrently;
    this model sends everything the standard-output reader sends, then
    everything the standard-error reader sends, then the exit report. */
module Ffmpeg {

  /** What the user interface shows: a milestone of the pipeline, or one line
      of the tool's output shown as normal or as an error. */
  datatype ConsoleText = Program(text: string) | Stdout(text: string) | Stderr(text: string)

  /** One message on the event channel (`Result<ConsoleText, String>`). */
  datatype Event = Ok(console: ConsoleText) | Err(error: string)

  /** The result of one invocation (`Result<(), String>`). */
  datatype Status = Success | Failure(error: string)

  /** One step of `BufReader::lines()`: a line, or the error that ends the stream. */
  datatype LineRead = Line(text: string) | ReadFailed(error: string)

  datatype Stream = StdoutStream | StderrStream

  /** How `wait()` ended: the process exited (successfully or not, with the
      text its exit status displays as), or waiting itself failed. */
  datatype ExitOutcome = Exited(success: bool, status: string) | WaitFailed(error: string)

  datatype ProcessOutcome =
    | SpawnFailed(error: string)
    | Spawned(stdout: seq<LineRead>, stderr: seq<LineRead>, exit: ExitOutcome)

  /** The sending end of an unbounded channel: everything sent, in order. */
  class Channel {
    var sent: seq<Event>

    constructor ()
      ensures sent == []
    {
      sent := [];
    }

    method Send(e: Event)
      modifies this
      ensures sent == old(sent) + [e]
    {
      sent := sent + [e];
    }
  }

  // ---------------------------------------------------------------------
  // Classifying a line of standard error

  function LowerAscii(c: char): char {
    if 'A' <= c <= 'Z' then (c as int + 32) as char else c
  }

  function Lowercase(s: string): string {
    seq(|s|, i requires 0 <= i < |s| => LowerAscii(s[i]))
  }

  predicate OccursAt(s: string, pattern: string, i: int) {
    0 <= i && i + |pattern| <= |s| && s[i..i + |pattern|] == pattern
  }

  /** `str::contains`, scanning from the left. */
  predicate Contains(s: string, pattern: string)
    decreases |s|
  {
    |pattern| <= |s| && (s[..|pattern|] == pattern || Contains(s[1..], pattern))
  }

  lemma {:induction false} ContainsIffOccurs(s: string, pattern: string)
    ensures Contains(s, pattern) <==> exists i :: OccursAt(s, pattern, i)
    decreases |s|
  {
    if |pattern| <= |s| {
      if s[..|pattern|] == pattern {
        assert OccursAt(s, pattern, 0);
      } else {
        ContainsIffOccurs(s[1..], pattern);
        if exists i :: OccursAt(s[1..], pattern, i) {
          var i :| OccursAt(s[1..], pattern, i);
          assert s[i + 1..i + 1 + |pattern|] == s[1..][i..i + |pattern|];
          assert OccursAt(s, pattern, i + 1);
        }
        if exists i :: OccursAt(s, pattern, i) {
          var i :| OccursAt(s, pattern, i);
          assert i != 0;
          assert s[1..][i - 1..i - 1 + |pattern|] == s[i..i + |pattern|];
          assert OccursAt(s[1..], pattern, i - 1);
        }
      }
    }
  }

  /** A standard-error line is shown as an error exactly when its lower-case
      form contains "error"; otherwise it is shown as normal output. The text
      is kept as it was. */
  function ClassifyStderr(line: string): (t: ConsoleText)
    ensures t.text == line
    ensures t.Stderr? <==> exists i :: OccursAt(Lowercase(line), "error", i)
    ensures t.Stdout? <==> !t.Stderr?
  {
    ContainsIffOccurs(Lowercase(line), "error");
    if Contains(Lowercase(line), "error") then Stderr(line) else Stdout(line)
  }

  // ---------------------------------------------------------------------
  // The reader threads

  /** The event one line read from `stream` becomes. */
  function LineEvent(stream: Stream, text: string): (e: Event)
    ensures e.Ok? && e.console.text == text && !e.console.Program?
    ensures stream == StdoutStream ==> e.console.Stdout?
  {
    Ok(if stream == StdoutStream then Stdout(text) else ClassifyStderr(text))
  }

  /** Everything one reader thread sends for the reads it makes. */
  function ReaderEvents(stream: Stream, lines: seq<LineRead>): seq<Event> {
    if lines == [] then []
    else match lines[0]
      case ReadFailed(e) => [Err(e)]
      case Line(text) => [LineEvent(stream, text)] + ReaderEvents(stream, lines[1..])
  }

  /** Index of the first failed read, or `|lines|` when every read succeeds. */
  function FirstFailure(lines: seq<LineRead>): (k: nat)
    ensures k <= |lines|
    ensures forall i :: 0 <= i < k ==> lines[i].Line?
    ensures k < |lines| ==> lines[k].ReadFailed?
  {
    if lines == [] || lines[0].ReadFailed? then 0 else 1 + FirstFailure(lines[1..])
  }

  /** A reader forwards the lines before the first failed read, in order, then
      sends that read's error once and nothing more. */
  lemma {:induction false} ReaderForwardsUntilFailure(stream: Stream, lines: seq<LineRead>)
    ensures var evs, k := ReaderEvents(stream, lines), FirstFailure(lines);
      && |evs| == (if k < |lines| then k + 1 else k)
      && (forall i :: 0 <= i < k ==> evs[i] == LineEvent(stream, lines[i].text))
      && (k < |lines| ==> evs[k] == Err(lines[k].error))
      && (forall i :: 0 <= i < |evs| && evs[i].Err? ==> i == k)
  {
    if lines != [] && lines[0].Line? {
      ReaderForwardsUntilFailure(stream, lines[1..]);
    }
  }

  /** The standard-output reader never shows a line as an error. */
  lemma StdoutReaderNeverStderr(lines: seq<LineRead>)
    ensures forall e :: e in ReaderEvents(StdoutStream, lines) ==> !(e.Ok? && e.console.Stderr?)
  {
    ReaderForwardsUntilFailure(StdoutStream, lines);
    var evs := ReaderEvents(StdoutStream, lines);
    forall e | e in evs ensures !(e.Ok? && e.console.Stderr?) {
      var i :| 0 <= i < |evs| && evs[i] == e;
    }
  }

  /** A reader forwards lines of output and read errors, never a milestone of
      the pipeline. */
  lemma ReaderSendsNoMilestone(stream: Stream, lines: seq<LineRead>)
    ensures forall e :: e in ReaderEvents(stream, lines) ==> !(e.Ok? && e.console.Program?)
  {
    ReaderForwardsUntilFailure(stream, lines);
    var evs := ReaderEvents(stream, lines);
    forall e | e in evs ensures !(e.Ok? && e.console.Program?) {
      var i :| 0 <= i < |evs| && evs[i] == e;
    }
  }

  /** One reader thread: read lines until the stream ends or a read fails. */
  method ForwardLines(stream: Stream, lines: seq<LineRead>, tx: Channel)
    modifies tx
    ensures tx.sent == old(tx.sent) + ReaderEvents(stream, lines)
  {
    var i := 0;
    while i < |lines|
      invariant 0 <= i <= |lines|
      invariant old(tx.sent) + ReaderEvents(stream, lines) == tx.sent + ReaderEvents(stream, lines[i..])
    {
      assert lines[i..][1..] == lines[i + 1..];
      match lines[i] {
        case Line(text) =>
          if stream == StdoutStream {
            tx.Send(Ok(Stdout(text)));
          } else {
            tx.Send(Ok(ClassifyStderr(text)));
          }
        case ReadFailed(e) =>
          tx.Send(Err(e));
          return;
      }
      i := i + 1;
    }
  }

  // ---------------------------------------------------------------------
  // Starting the process and waiting for it

  function ExitMessage(status: string): string {
    "ffmpeg exited with error code: " + status
  }

  function ExitResult(exit: ExitOutcome): Status {
    match exit
    case Exited(success, status) => if success then Success else Failure(ExitMessage(status))
    case WaitFailed(e) => Failure(e)
  }

  function RunResult(o: ProcessOutcome): Status {
    match o
    case SpawnFailed(e) => Failure(e)
    case Spawned(_, _, exit) => ExitResult(exit)
  }

  /** A failure is also reported on the channel; success adds nothing. */
  function Reported(r: Status): seq<Event> {
    if r.Failure? then [Err(r.error)] else []
  }

  /** Everything one invocation sends on the event channel. */
  function RunEvents(o: ProcessOutcome): seq<Event> {
    match o
    case SpawnFailed(e) => [Err(e)]
    case Spawned(out, err, exit) =>
      ReaderEvents(StdoutStream, out) + ReaderEvents(StderrStream, err) + Reported(ExitResult(exit))
  }

  /** How an invocation ends and what it reports: a spawn failure is sent once
      and returned, with no reader started; a failed exit or wait is sent
      once, last, with the very text that is returned; a successful exit sends
      nothing beyond what the readers forwarded. */
  lemma RunOutcomeReported(o: ProcessOutcome)
    ensures o.SpawnFailed? ==> RunResult(o) == Failure(o.error) && RunEvents(o) == [Err(o.error)]
    ensures RunResult(o).Failure? ==>
      RunEvents(o) != [] && RunEvents(o)[|RunEvents(o)| - 1] == Err(RunResult(o).error)
    ensures RunResult(o) == Success <==> o.Spawned? && o.exit.Exited? && o.exit.success
    ensures RunResult(o) == Success ==>
      RunEvents(o) == ReaderEvents(StdoutStream, o.stdout) + ReaderEvents(StderrStream, o.stderr)
    ensures o.Spawned? && o.exit.Exited? && !o.exit.success ==>
      RunResult(o) == Failure("ffmpeg exited with error code: " + o.exit.status)
  {
  }

  /** Nothing one invocation sends is a milestone of the pipeline. */
  lemma RunSendsNoMilestone(o: ProcessOutcome)
    ensures forall e :: e in RunEvents(o) ==> !(e.Ok? && e.console.Program?)
  {
    if o.Spawned? {
      ReaderSendsNoMilestone(StdoutStream, o.stdout);
      ReaderSendsNoMilestone(StderrStream, o.stderr);
    }
  }

  /** The end of `run_ffmpeg`: wait for the process and report how it ended. */
  method AwaitExit(exit: ExitOutcome, tx: Channel) returns (r: Status)
    modifies tx
    ensures r == ExitResult(exit)
    ensures tx.sent == old(tx.sent) + Reported(r)
  {
    match exit
    case Exited(success, status) =>
      if success {
        r := Success;
      } else {
        var msg := ExitMessage(status);
        tx.Send(Err(msg));
        r := Failure(msg);
      }
    case WaitFailed(e) =>
      tx.Send(Err(e));
      r := Failure(e);
  }

  /** `run_ffmpeg`: the process started from `program` and `args` behaves as
      `outcome` says. */
  method RunFfmpeg(program: string, args: seq<string>, tx: Channel, outcome: ProcessOutcome)
    returns (r: Status)
    modifies tx
    ensures r == RunResult(outcome)
    ensures tx.sent == old(tx.sent) + RunEvents(outcome)
  {
    match outcome
    case SpawnFailed(e) =>
      tx.Send(Err(e));
      return Failure(e);
    case Spawned(out, err, exit) =>
      ForwardLines(StdoutStream, out, tx);
      ForwardLines(StderrStream, err, tx);
      r := AwaitExit(exit, tx);
      assert tx.sent == old(tx.sent) + (ReaderEvents(StdoutStream, out) + ReaderEvents(StderrStream, err) + Reported(r));
  }
}
