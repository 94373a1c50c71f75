/**
 * The online prediction pump of the deep-learning connector
 * (`startOnlinePrediction`, `checkForSemFile`) and the decision
 * `executePrediction` takes for one CSV report.
 *
 * Timers are replaced by events: a `Tick` is the moment the pending
 * `setTimeout` fires (or the pending synchronous call runs) and carries what
 * the step observes, the module-level `predictingStatus.isRunning` flag and the
 * report directory; a `ClassifierExit` is the spawned classifier's callback.
 * Each step reports the delay it schedules before the next call, in ms.
 */
module Pump {
  import opened Wrappers
  import opened Text

  /** `startOnlinePrediction` re-checks a missing CSV after this many ms, with no cap. */
  const CsvRetryMs: nat := 1000
  /** `checkForSemFile` re-checks a missing marker after this many ms. */
  const SemRetryMs: nat := 500
  /** The miss count at which the marker wait gives up on the report. */
  const SemMissLimit: nat := 120
  /** Fewer data lines than this and the CSV is not sent to the classifier. */
  const MinDataLines: nat := 3

  // ---------------------------------------------------------------- executePrediction

  /** A line that counts as flow data: not blank and not a `#` comment (judged on the line as split, untrimmed). */
  predicate IsDataLine(line: string) {
    !IsBlank(line) && !StartsWith(line, "#")
  }

  /**
   * The `filter` of `fileContent.trim().split('\n')`: every data line is kept,
   * as often as it occurs, and nothing else.
   */
  function FilterData(lines: seq<string>): (r: seq<string>)
    ensures |r| <= |lines|
    ensures forall l :: l in r ==> l in lines && IsDataLine(l)
    ensures forall l :: multiset(r)[l] == if IsDataLine(l) then multiset(lines)[l] else 0
  {
    if lines == [] then []
    else
      var rest := FilterData(lines[1..]);
      assert lines == [lines[0]] + lines[1..];
      if IsDataLine(lines[0]) then [lines[0]] + rest else rest
  }

  function DataLines(content: string): seq<string> {
    FilterData(Split(Trim(content), '\n'))
  }

  /** How one call of `executePrediction` disposes of a report. */
  datatype Launch =
    | Skipped  // fewer than 3 data lines: completion(0) at once, returns false
    | Crashed  // reading the file threw: completion(1) at once, returns false
    | Spawned  // classifier spawned: completion comes from its exit, returns true

  /** `content` is what `readFileSync` returned, `None` when `statSync`/`readFileSync` threw. */
  function Execute(content: Option<string>): Launch {
    match content
    case None => Crashed
    case Some(text) => if |DataLines(text)| < MinDataLines then Skipped else Spawned
  }

  /** The return value of `executePrediction`. */
  function Returned(l: Launch): bool {
    l == Spawned
  }

  /**
   * The exit codes passed to `onComplete`: `classifierFailed` is `None` while
   * the spawned classifier still runs and `Some(error != null)` once it called back.
   */
  function Completions(l: Launch, classifierFailed: Option<bool>): seq<int> {
    match l
    case Skipped => [0]
    case Crashed => [1]
    case Spawned =>
      match classifierFailed
      case None => []
      case Some(failed) => [if failed then 1 else 0]
  }

  /**
   * Once the classifier (if any) has exited, `onComplete` has been called
   * exactly once; with code 0 exactly when the report was skipped or the
   * classifier succeeded; and the function returned true exactly when it spawned.
   */
  lemma CompletesExactlyOnce(content: Option<string>, failed: bool)
    ensures var l := Execute(content);
      && |Completions(l, Some(failed))| == 1
      && (Completions(l, Some(failed))[0] == 0 <==> l == Skipped || (l == Spawned && !failed))
      && (Returned(l) <==> content.Some? && |DataLines(content.value)| >= MinDataLines)
      && (l == Spawned ==> Completions(l, None) == [])
  {
  }

  /**
   * For a report written as lines joined by newlines, with no white space at
   * its very start and end, the classifier is skipped exactly when fewer than
   * 3 of the lines are data lines (comments and blank lines never count). A
   * final newline, as a CSV writer leaves, changes nothing.
   */
  lemma SkipIffFewDataLines(lines: seq<string>)
    requires |lines| >= 1
    requires forall l :: l in lines ==> '\n' !in l
    requires lines[0] != [] && !IsSpace(lines[0][0])
    requires lines[|lines| - 1] != [] && !IsSpace(lines[|lines| - 1][|lines[|lines| - 1]| - 1])
    ensures Execute(Some(Join(lines, "\n"))) == Skipped <==> |FilterData(lines)| < MinDataLines
    ensures Execute(Some(Join(lines, "\n"))) == Spawned <==> |FilterData(lines)| >= MinDataLines
    ensures Execute(Some(Join(lines, "\n") + "\n")) == Execute(Some(Join(lines, "\n")))
  {
    var text := Join(lines, "\n");
    JoinEnds(lines);
    TrimUnchanged(text);
    TrimJoinedLines(lines);
    SplitJoin(lines, '\n');
  }

  /** The scenario of a header and one data line: skipped, completion 0, nothing spawned. */
  lemma HeaderAndOneRowIsSkipped(header: string, row: string)
    requires '\n' !in header && '\n' !in row
    requires header != [] && !IsSpace(header[0])
    requires row != [] && !IsSpace(row[|row| - 1])
    ensures Execute(Some(header + "\n" + row)) == Skipped
    ensures Completions(Skipped, None) == [0]
  {
    var lines := [header, row];
    assert Join(lines, "\n") == header + "\n" + row;
    assert forall l :: l in lines ==> '\n' !in l;
    SkipIffFewDataLines(lines);
  }

  /** A line holding only an ideographic space is blank to `trim`, so a header, such a line and one row are skipped. */
  lemma WideSpaceLineIsNotData()
    ensures Execute(Some("h\n\U{3000}\nr")) == Skipped
  {
    var lines := ["h", "\U{3000}", "r"];
    assert Join(lines, "\n") == "h\n\U{3000}\nr";
    assert forall l :: l in lines ==> '\n' !in l;
    assert IsDataLine("h") && IsDataLine("r") by {
      assert !IsSpace("h"[0]) && !IsSpace("r"[0]);
    }
    assert !IsDataLine(lines[1]);
    assert FilterData(["r"]) == ["r"] by {
      assert ["r"][1..] == [];
    }
    assert FilterData(lines[1..]) == ["r"] by {
      assert lines[1..][1..] == ["r"];
    }
    assert FilterData(lines) == ["h", "r"];
    SkipIffFewDataLines(lines);
  }

  // ---------------------------------------------------------------- the pump

  /** The call that is pending in the pump's self-rescheduling chain. */
  datatype Call =
    | CheckCsv(index: nat, waitCount: nat)                      // startOnlinePrediction(..., index, waitCount)
    | CheckSem(index: nat, report: string, semWaitCount: nat)   // checkForSemFile(..., index, report, semWaitCount)
    | Classifying(index: nat)                                   // executePrediction's classifier is running
    | Stopped(index: nat)                                       // returned without scheduling anything

  /** What a step observes of the report directory: the `.csv` and `.sem` listings and the CSV contents that can be read. */
  datatype Listing = Listing(csvFiles: seq<string>, semFiles: seq<string>, contents: map<string, string>)

  datatype Event =
    | Tick(running: bool, dir: Listing)
    | ClassifierExit(failed: bool)

  /** One step: the next pending call, the delay scheduled before it, and the index sent to `executePrediction`, if any. */
  datatype Step = Step(next: Call, delayMs: nat, processed: Option<nat>)

  function Content(dir: Listing, report: string): Option<string> {
    if report in dir.contents then Some(dir.contents[report]) else None
  }

  /** The pending call runs (`Tick`) or the classifier calls back (`ClassifierExit`). */
  function Next(c: Call, e: Event): Step {
    match e
    case ClassifierExit(_) =>
      // whatever the exit code, the chain goes on at the next index
      if c.Classifying? then Step(CheckCsv(c.index + 1, 0), 0, None) else Step(c, 0, None)
    case Tick(running, dir) =>
      match c
      case Stopped(_) => Step(c, 0, None)
      case Classifying(_) => Step(c, 0, None)
      case CheckCsv(i, w) =>
        if !running then Step(Stopped(i), 0, None)
        else if i >= |dir.csvFiles| then Step(CheckCsv(i, w + 1), CsvRetryMs, None)
        else Step(CheckSem(i, dir.csvFiles[i], 0), 0, None)
      case CheckSem(i, report, n) =>
        if !running then Step(Stopped(i), 0, None)
        else if report + ".sem" !in dir.semFiles then
          if n + 1 >= SemMissLimit then Step(CheckCsv(i + 1, 0), 0, None)
          else Step(CheckSem(i, report, n + 1), SemRetryMs, None)
        else if Execute(Content(dir, report)) == Spawned then Step(Classifying(i), 0, Some(i))
        else Step(CheckCsv(i + 1, 0), 0, Some(i))
  }

  /** The smallest report index the chain may still send to the classifier. */
  function Frontier(c: Call): nat {
    match c
    case CheckCsv(i, _) => i
    case CheckSem(i, _, _) => i
    case Classifying(i) => i + 1
    case Stopped(i) => i
  }

  /** A single step never moves the chain back, and processing index `p` moves its frontier to `p + 1`. */
  lemma StepMonotone(c: Call, e: Event)
    ensures Frontier(Next(c, e).next) >= Frontier(c)
    ensures Next(c, e).processed.Some? ==>
      Next(c, e).processed.value == Frontier(c) && Frontier(Next(c, e).next) == Frontier(c) + 1
    ensures c.Stopped? ==> Next(c, e) == Step(c, 0, None)
  {
  }

  datatype Trace = Trace(last: Call, processed: seq<nat>, elapsedMs: nat)

  /** The chain driven through a sequence of events. */
  function Run(c: Call, events: seq<Event>): Trace
    decreases |events|
  {
    if events == [] then Trace(c, [], 0)
    else
      var s := Next(c, events[0]);
      var t := Run(s.next, events[1..]);
      Trace(t.last, (if s.processed.Some? then [s.processed.value] else []) + t.processed, s.delayMs + t.elapsedMs)
  }

  ghost predicate StrictlyIncreasing(s: seq<nat>) {
    forall i, j :: 0 <= i < j < |s| ==> s[i] < s[j]
  }

  /**
   * Index monotonicity and at-most-once processing: over any run, the indices
   * sent to the classifier strictly increase (so none is processed twice), all
   * lie at or beyond the starting frontier, and the final frontier is past them.
   */
  lemma {:induction false} RunProcessesInOrder(c: Call, events: seq<Event>)
    ensures var t := Run(c, events);
      && StrictlyIncreasing(t.processed)
      && Frontier(t.last) >= Frontier(c)
      && (forall k :: 0 <= k < |t.processed| ==> Frontier(c) <= t.processed[k] < Frontier(t.last))
    decreases |events|
  {
    if events != [] {
      var s := Next(c, events[0]);
      StepMonotone(c, events[0]);
      RunProcessesInOrder(s.next, events[1..]);
    }
  }

  /** Once the chain has returned without rescheduling, nothing ever happens again. */
  lemma {:induction false} StoppedStaysStopped(i: nat, events: seq<Event>)
    ensures Run(Stopped(i), events) == Trace(Stopped(i), [], 0)
    decreases |events|
  {
    if events != [] {
      StoppedStaysStopped(i, events[1..]);
    }
  }

  /** A tick that finds `predictingStatus.isRunning` false ends a waiting chain without scheduling anything. */
  lemma StopEndsChain(c: Call, dir: Listing)
    requires c.CheckCsv? || c.CheckSem?
    ensures Next(c, Tick(false, dir)) == Step(Stopped(c.index), 0, None)
  {
  }

  ghost predicate AllTicksStopped(events: seq<Event>) {
    forall k :: 0 <= k < |events| && events[k].Tick? ==> !events[k].running
  }

  /** While every tick sees the flag false, no report is sent to the classifier, whatever state the chain was in. */
  lemma {:induction false} NoProcessingWhileStopped(c: Call, events: seq<Event>)
    requires AllTicksStopped(events)
    ensures Run(c, events).processed == []
    decreases |events|
  {
    if events != [] {
      assert AllTicksStopped(events[1..]) by {
        forall k | 0 <= k < |events[1..]| && events[1..][k].Tick?
          ensures !events[1..][k].running
        {
          assert events[1..][k] == events[k + 1];
        }
      }
      NoProcessingWhileStopped(Next(c, events[0]).next, events[1..]);
    }
  }

  ghost predicate CsvAbsentTicks(events: seq<Event>, i: nat) {
    forall k :: 0 <= k < |events| ==>
      events[k].Tick? && events[k].running && |events[k].dir.csvFiles| <= i
  }

  /** With no CSV at the index, the chain keeps re-checking that same index every 1000 ms, with no attempt cap. */
  lemma {:induction false} CsvWaitHasNoCap(i: nat, w: nat, events: seq<Event>)
    requires CsvAbsentTicks(events, i)
    ensures Run(CheckCsv(i, w), events) == Trace(CheckCsv(i, w + |events|), [], CsvRetryMs * |events|)
    decreases |events|
  {
    if events != [] {
      assert CsvAbsentTicks(events[1..], i) by {
        forall k | 0 <= k < |events[1..]| ensures events[1..][k] == events[k + 1] { }
      }
      CsvWaitHasNoCap(i, w + 1, events[1..]);
    }
  }

  ghost predicate SemAbsentTicks(events: seq<Event>, report: string) {
    forall k :: 0 <= k < |events| ==>
      events[k].Tick? && events[k].running && report + ".sem" !in events[k].dir.semFiles
  }

  /**
   * The marker wait: from miss count `n`, each tick without `<csv>.sem` adds a
   * miss and waits 500 ms; the 120th miss abandons the report and moves on to
   * the next index at once, without processing it.
   */
  lemma {:induction false} SemWait(i: nat, report: string, n: nat, events: seq<Event>)
    requires SemAbsentTicks(events, report)
    requires n + |events| <= SemMissLimit
    ensures n + |events| < SemMissLimit ==>
      Run(CheckSem(i, report, n), events) == Trace(CheckSem(i, report, n + |events|), [], SemRetryMs * |events|)
    ensures n + |events| == SemMissLimit && events != [] ==>
      Run(CheckSem(i, report, n), events) == Trace(CheckCsv(i + 1, 0), [], SemRetryMs * (|events| - 1))
    decreases |events|
  {
    if events != [] {
      assert SemAbsentTicks(events[1..], report) by {
        forall k | 0 <= k < |events[1..]| ensures events[1..][k] == events[k + 1] { }
      }
      if n + 1 < SemMissLimit {
        SemWait(i, report, n + 1, events[1..]);
      } else {
        assert events[1..] == [];
      }
    }
  }

  /** Exactly 120 missing-marker polls, 119 waits of 500 ms (59.5 s) apart, abandon the report for the next index. */
  lemma SemTimeoutAfter120Misses(i: nat, report: string, events: seq<Event>)
    requires SemAbsentTicks(events, report)
    requires |events| == SemMissLimit
    ensures Run(CheckSem(i, report, 0), events) == Trace(CheckCsv(i + 1, 0), [], 59500)
    ensures forall k :: 0 < k < SemMissLimit ==>
      Run(CheckSem(i, report, 0), events[..k]).last == CheckSem(i, report, k)
  {
    SemWait(i, report, 0, events);
    forall k | 0 < k < SemMissLimit
      ensures Run(CheckSem(i, report, 0), events[..k]).last == CheckSem(i, report, k)
    {
      assert SemAbsentTicks(events[..k], report) by {
        forall j | 0 <= j < k ensures events[..k][j] == events[j] { }
      }
      SemWait(i, report, 0, events[..k]);
    }
  }

  /**
   * When the marker is there the report is processed, and the chain then
   * continues at the next index whatever the classifier's exit code.
   */
  lemma ProcessThenAdvance(i: nat, report: string, n: nat, dir: Listing, failed: bool)
    requires report + ".sem" in dir.semFiles
    ensures var s := Next(CheckSem(i, report, n), Tick(true, dir));
      && s.processed == Some(i)
      && (if Execute(Content(dir, report)) == Spawned then
            s.next == Classifying(i) && Next(s.next, ClassifierExit(failed)).next == CheckCsv(i + 1, 0)
          else s.next == CheckCsv(i + 1, 0))
  {
  }
}
