/** The stand-alone transcription thread (whispers2t_batch_transcriber.py).
    The worker first puts every matching file of the directory into its
    queue, then loads the model outside any `try`, then takes files from the
    queue one by one until the queue is empty or a stop request is seen.
    What the speech library does is an input: whether the model loads,
    which files fail to transcribe or to be written (keyed by the running
    count of processed files, with the text of the exception), and before
    which iteration another thread asks the worker to stop. */
module BatchTranscriber {
  import opened Common
  import opened Paths
  import opened FileScanner
  import Constants
  import SystemUtils
  import ModelManager
  import BatchProcessor

  /** A progress report, with the running count and the total. */
  datatype Report =
    | Processing(file: Path, count: nat, total: nat)
    | Completed(file: Path, output: Path, count: nat, total: nat)
    | FileError(file: Path, cause: string, count: nat, total: nat)

  /** What a run does that can be observed: the loader call, the `progress`
      and `finished` signals, the calls into the speech library, and the
      release of the model. */
  datatype Event =
    | Load(args: ModelManager.LoadArgs)
    | Progress(report: Report)
    | Transcribe(input: Path, task: string, batchSize: int)
    | Write(output: Path, format: string)
    | Release
    | Finished

  /** The text of a progress signal. */
  function ReportText(r: Report): (text: string)
    ensures r.Processing? ==> StartsWith(text, "Processing ")
    ensures r.Completed? ==> StartsWith(text, "Completed ")
    ensures r.FileError? ==> StartsWith(text, "Error processing file ")
    ensures EndsWith(text, " (" + NatText(r.count) + "/" + NatText(r.total) + ")")
  {
    var counts := " (" + NatText(r.count) + "/" + NatText(r.total) + ")";
    match r
    case Processing(file, _, _) => "Processing " + PathText(file) + counts
    case Completed(file, output, _, _) => "Completed " + PathText(file) + " to " + PathText(output) + counts
    case FileError(file, cause, _, _) => "Error processing file " + PathText(file) + ": " + cause + counts
  }

  /** The fixed inputs of the processing loop: the file total shown in the
      reports, the task, batch size and output format, and which files
      (by their running count) fail to transcribe or to be written, with
      the text of the exception. */
  datatype Job = Job(total: nat, task: string, batchSize: int, format: string,
                     transcribeErrors: map<nat, string>, writeErrors: map<nat, string>)

  /** Everything the file taken as number `count` produces: the
      "Processing" report and the transcription, then one outcome. An
      exception from the transcription, from `with_suffix` or from the
      writer becomes an error report, and the loop goes on. */
  function FileEvents(count: nat, file: Path, job: Job): (fx: seq<Event>)
    ensures 3 <= |fx| <= 4
  {
    [Progress(Processing(file, count, job.total)), Transcribe(file, job.task, job.batchSize)]
      + Outcome(count, file, job)
  }

  function Outcome(count: nat, file: Path, job: Job): (o: seq<Event>)
    ensures 1 <= |o| <= 2
  {
    var suffix := "." + job.format;
    if count in job.transcribeErrors then [Progress(FileError(file, job.transcribeErrors[count], count, job.total))]
    else
      match WithSuffix(file, suffix)
      case Replaced(out) =>
        [Write(out, job.format)] +
        (if count in job.writeErrors then [Progress(FileError(file, job.writeErrors[count], count, job.total))]
         else [Progress(Completed(file, out, count, job.total))])
      case _ =>
        var r := WithSuffix(file, suffix);
        [Progress(FileError(file, BatchProcessor.SuffixErrorText(file, suffix, r), count, job.total))]
  }

  /** Each file taken is announced, then transcribed, then ends with one
      report: "Completed" (naming the output beside the input, with the
      format as suffix) when nothing failed, an error report otherwise. The
      output is written only after a transcription that succeeded. */
  lemma FileEventsShape(count: nat, file: Path, job: Job)
    ensures var fx := FileEvents(count, file, job);
      var out := WithSuffix(file, "." + job.format);
      var ok := count !in job.transcribeErrors && out.Replaced? && count !in job.writeErrors;
      fx[0] == Progress(Processing(file, count, job.total)) &&
      fx[1] == Transcribe(file, job.task, job.batchSize) &&
      fx[|fx| - 1].Progress? &&
      (ok ==> fx[|fx| - 1].report == Completed(file, out.path, count, job.total)) &&
      (!ok <==> fx[|fx| - 1].report.FileError?) &&
      (|fx| == 4 <==> count !in job.transcribeErrors && out.Replaced?) &&
      (|fx| == 4 ==> fx[2] == Write(out.path, job.format))
  {
  }

  /** Each file's events under `job`, as a function of its count and path. */
  function PerFile(job: Job): (nat, Path) -> seq<Event>
  {
    (count: nat, file: Path) => FileEvents(count, file, job)
  }

  /** The events of the first `n` files taken from the queue `q`, the file
      taken as number `count` contributing `fileEvents(count, file)`. */
  function ConsumedWith(q: seq<Path>, n: nat, fileEvents: (nat, Path) -> seq<Event>): seq<Event>
    requires n <= |q|
  {
    if n == 0 then [] else ConsumedWith(q, n - 1, fileEvents) + fileEvents(n, q[n - 1])
  }

  /** The events of the first `n` files taken from the queue `q`. */
  function Consumed(q: seq<Path>, n: nat, job: Job): seq<Event>
    requires n <= |q|
  {
    ConsumedWith(q, n, PerFile(job))
  }

  /** The whole of `run` after enumeration, `k` files being taken before the
      loop ends: a loader that raises ends the run at once, with no file
      processed, no release and no `finished`. */
  function RunEvents(q: seq<Path>, k: nat, args: ModelManager.LoadArgs, loadOk: bool, job: Job): seq<Event>
    requires k <= |q|
  {
    if !loadOk then [Load(args)]
    else [Load(args)] + Consumed(q, k, job) + [Release, Finished]
  }

  /** The inputs handed to the speech library, in call order. */
  function Transcribed(t: seq<Event>): seq<Path>
  {
    if t == [] then []
    else Transcribed(t[..|t| - 1]) + (if t[|t| - 1].Transcribe? then [t[|t| - 1].input] else [])
  }

  lemma {:induction false} TranscribedAppend(a: seq<Event>, b: seq<Event>)
    ensures Transcribed(a + b) == Transcribed(a) + Transcribed(b)
    decreases |b|
  {
    if b != [] {
      assert (a + b)[..|a + b| - 1] == a + b[..|b| - 1];
      TranscribedAppend(a, b[..|b| - 1]);
    } else {
      assert a + b == a;
    }
  }

  /** Each file is transcribed exactly once, under its own name. */
  lemma FileTranscribedOnce(count: nat, file: Path, job: Job)
    ensures Transcribed(FileEvents(count, file, job)) == [file]
  {
    var o := Outcome(count, file, job);
    var head := [Progress(Processing(file, count, job.total)), Transcribe(file, job.task, job.batchSize)];
    assert Transcribed(head) == [file] by {
      assert head[..1] == [head[0]] && [head[0]][..0] == [];
      assert Transcribed([head[0]]) == [];
    }
    assert Transcribed(o) == [] by {
      if |o| == 2 {
        assert o[..1] == [o[0]] && [o[0]][..0] == [];
        assert Transcribed([o[0]]) == [];
        assert !o[1].Transcribe?;
      } else {
        assert o[..0] == [];
        assert !o[0].Transcribe?;
      }
    }
    TranscribedAppend(head, o);
  }

  /** The queue is first in, first out: the files transcribed are the first
      `n` of the queue, in queue order, whatever fails along the way. */
  lemma ConsumedInQueueOrder(q: seq<Path>, n: nat, job: Job)
    requires n <= |q|
    ensures Transcribed(Consumed(q, n, job)) == q[..n]
  {
    forall count: nat, file: Path
      ensures Transcribed(PerFile(job)(count, file)) == [file]
    {
      FileTranscribedOnce(count, file, job);
    }
    ConsumedWithInOrder(q, n, PerFile(job));
  }

  /** When every file's events transcribe that file once, the files are
      transcribed in queue order. */
  lemma {:induction false} ConsumedWithInOrder(q: seq<Path>, n: nat, fileEvents: (nat, Path) -> seq<Event>)
    requires n <= |q|
    requires forall count: nat, file: Path :: Transcribed(fileEvents(count, file)) == [file]
    ensures Transcribed(ConsumedWith(q, n, fileEvents)) == q[..n]
  {
    if n > 0 {
      ConsumedWithInOrder(q, n - 1, fileEvents);
      TranscribedAppend(ConsumedWith(q, n - 1, fileEvents), fileEvents(n, q[n - 1]));
      TakeSnoc(q, n);
    }
  }

  /** No event in `t` is a loader call, a release or `finished`, and every
      report carries the total `total` and a count between `lo` and `hi`. */
  predicate Counted(t: seq<Event>, total: nat, lo: int, hi: int)
  {
    forall i :: 0 <= i < |t| ==> (t[i].Transcribe? || t[i].Write? ||
      (t[i].Progress? && t[i].report.total == total && lo <= t[i].report.count <= hi))
  }

  lemma CountedAppend(a: seq<Event>, b: seq<Event>, total: nat, lo: int, hi: int)
    requires Counted(a, total, lo, hi) && Counted(b, total, lo, hi)
    ensures Counted(a + b, total, lo, hi)
  {
    forall i | 0 <= i < |a + b|
      ensures (a + b)[i].Transcribe? || (a + b)[i].Write? ||
        ((a + b)[i].Progress? && (a + b)[i].report.total == total && lo <= (a + b)[i].report.count <= hi)
    {
      if i >= |a| {
        assert (a + b)[i] == b[i - |a|];
      }
    }
  }

  lemma CountedWiden(t: seq<Event>, total: nat, lo: int, hi: int, lo': int, hi': int)
    requires Counted(t, total, lo, hi) && lo' <= lo && hi <= hi'
    ensures Counted(t, total, lo', hi')
  {
  }

  /** A file's reports carry its own count and the total. */
  lemma FileEventsCounted(count: nat, file: Path, job: Job)
    ensures Counted(FileEvents(count, file, job), job.total, count, count)
  {
  }

  /** The count rises by one per file taken, before its transcription: the
      reports of the first `n` files count from 1 to at most `n`. */
  lemma ConsumedCounted(q: seq<Path>, n: nat, job: Job)
    requires n <= |q|
    ensures Counted(Consumed(q, n, job), job.total, 1, n)
  {
    forall count: nat, file: Path
      ensures Counted(PerFile(job)(count, file), job.total, count, count)
    {
      FileEventsCounted(count, file, job);
    }
    ConsumedWithCounted(q, n, PerFile(job), job.total);
  }

  /** When every file's reports carry its own count, the reports of the
      first `n` files carry counts from 1 to `n`. */
  lemma {:induction false} ConsumedWithCounted(q: seq<Path>, n: nat, fileEvents: (nat, Path) -> seq<Event>, total: nat)
    requires n <= |q|
    requires forall count: nat, file: Path :: Counted(fileEvents(count, file), total, count, count)
    ensures Counted(ConsumedWith(q, n, fileEvents), total, 1, n)
  {
    if n > 0 {
      var prev := ConsumedWith(q, n - 1, fileEvents);
      var last := fileEvents(n, q[n - 1]);
      ConsumedWithCounted(q, n - 1, fileEvents, total);
      CountedWiden(prev, total, 1, n - 1, 1, n);
      CountedWiden(last, total, n, n, 1, n);
      CountedAppend(prev, last, total, 1, n);
    }
  }

  /** How many `finished` signals a trace of the worker holds, counted as
      for the batch processor's own signal type. */
  function CountFinished(t: seq<Event>): nat
  {
    if t == [] then 0 else CountFinished(t[..|t| - 1]) + (if t[|t| - 1].Finished? then 1 else 0)
  }

  lemma {:induction false} CountFinishedAppend(a: seq<Event>, b: seq<Event>)
    ensures CountFinished(a + b) == CountFinished(a) + CountFinished(b)
    decreases |b|
  {
    if b != [] {
      assert (a + b)[..|a + b| - 1] == a + b[..|b| - 1];
      CountFinishedAppend(a, b[..|b| - 1]);
    } else {
      assert a + b == a;
    }
  }

  lemma {:induction false} CountedHasNoFinished(t: seq<Event>, total: nat, lo: int, hi: int)
    requires Counted(t, total, lo, hi)
    ensures CountFinished(t) == 0
  {
    if t != [] {
      var init := t[..|t| - 1];
      assert Counted(init, total, lo, hi) by {
        forall i | 0 <= i < |init|
          ensures init[i] == t[i]
        {
        }
      }
      CountedHasNoFinished(init, total, lo, hi);
    }
  }

  /** A run whose model loaded transcribes the first `k` queued files in
      queue order, then releases the model and emits `finished` exactly
      once, as its last event; a run whose loader raised transcribes
      nothing and never emits `finished`. */
  lemma RunOutcome(q: seq<Path>, k: nat, args: ModelManager.LoadArgs, loadOk: bool, job: Job)
    requires k <= |q|
    ensures var t := RunEvents(q, k, args, loadOk, job);
      t[0] == Load(args) &&
      Transcribed(t) == (if loadOk then q[..k] else []) &&
      CountFinished(t) == (if loadOk then 1 else 0) &&
      (loadOk ==> t[|t| - 2..] == [Release, Finished])
  {
    var head: seq<Event> := [Load(args)];
    assert Transcribed(head) == [] && CountFinished(head) == 0 by {
      assert head[..0] == [];
    }
    if loadOk {
      var tail: seq<Event> := [Release, Finished];
      assert Transcribed(tail) == [] && CountFinished(tail) == 1 by {
        assert tail[..1] == [Release] && [Release][..0] == [];
      }
      assert Transcribed(Consumed(q, k, job)) == q[..k] by {
        ConsumedInQueueOrder(q, k, job);
      }
      assert CountFinished(Consumed(q, k, job)) == 0 by {
        ConsumedCounted(q, k, job);
        CountedHasNoFinished(Consumed(q, k, job), job.total, 1, k);
      }
      TranscribedAppend(head, Consumed(q, k, job));
      TranscribedAppend(head + Consumed(q, k, job), tail);
      AppendEmpty(q[..k]);
      CountFinishedAppend(head, Consumed(q, k, job));
      CountFinishedAppend(head + Consumed(q, k, job), tail);
      DropAppended(head + Consumed(q, k, job), tail);
    }
  }

  /** For a fresh worker (empty queue, count zero) every report's count is
      at most the number of files enumerated: failed files are counted, but
      no file is taken twice. */
  lemma CountsWithinTotal(entries: seq<Node>, directory: Path, extensions: seq<string>, recursive: bool,
                          k: nat, job: Job)
    requires k <= |Collected(entries, directory, extensions, recursive)|
    requires job.total == MatchCount(entries, directory, extensions, recursive)
    ensures Counted(Consumed(Collected(entries, directory, extensions, recursive), k, job), job.total, 1, job.total)
  {
    CollectedLength(entries, directory, extensions, recursive);
    ConsumedCounted(Collected(entries, directory, extensions, recursive), k, job);
    CountedWiden(Consumed(Collected(entries, directory, extensions, recursive), k, job), job.total, 1, k, 1, job.total);
  }

  /** One more file taken extends the events by that file's events. */
  lemma ConsumedStep(q: seq<Path>, n: nat, job: Job, prior: seq<Event>)
    requires n < |q|
    ensures prior + Consumed(q, n + 1, job) == (prior + Consumed(q, n, job)) + FileEvents(n + 1, q[n], job)
  {
  }

  class Worker {
    const directory: Path
    /** What the directory holds. */
    const entries: seq<Node>
    const recursive: bool
    const outputFormat: string
    const device: string
    const modelInfo: Constants.ModelInfo
    const beamSize: int
    const batchSize: int
    const task: string
    const selectedExtensions: seq<string>
    /** `CPU_THREADS`, fixed when the module is loaded. */
    const cpuThreads: int
    var queue: seq<Path>
    var enumerationDone: bool
    /** The `threading.Event` that `request_stop` sets. */
    var stopRequested: bool
    var totalFiles: nat
    var events: seq<Event>

    /** A worker for a catalog entry. The task name is stored lower-cased,
        and the thread count keeps eight logical cores free but is at least
        four. */
    constructor (directory: Path, entries: seq<Node>, recursive: bool, outputFormat: string, device: string,
                 modelInfo: Constants.ModelInfo, beamSize: int, batchSize: int, task: string,
                 selectedExtensions: seq<string>, reportedCores: Option<int>)
      ensures this.directory == directory && this.entries == entries && this.recursive == recursive
      ensures this.outputFormat == outputFormat && this.device == device && this.modelInfo == modelInfo
      ensures this.beamSize == beamSize && this.batchSize == batchSize
      ensures this.selectedExtensions == selectedExtensions
      ensures this.task == Lower(task)
      ensures cpuThreads == Max(4, SystemUtils.LogicalCoreCount(reportedCores) - 8)
      ensures queue == [] && !enumerationDone && !stopRequested && totalFiles == 0 && events == []
    {
      this.directory, this.entries, this.recursive := directory, entries, recursive;
      this.outputFormat, this.device, this.modelInfo := outputFormat, device, modelInfo;
      this.beamSize, this.batchSize := beamSize, batchSize;
      this.task := Lower(task);
      this.selectedExtensions := selectedExtensions;
      this.cpuThreads := SystemUtils.OptimalCpuThreads(reportedCores);
      queue, enumerationDone, stopRequested, totalFiles, events := [], false, false, 0, [];
    }

    /** `request_stop`: setting the flag again changes nothing. */
    method RequestStop()
      modifies this`stopRequested
      ensures stopRequested
    {
      stopRequested := true;
    }

    /** The arguments `run` gives the loader. */
    function LoadArgs(): (a: ModelManager.LoadArgs)
      ensures a.nMels.Some? <==> Contains(modelInfo.repoId, "large-v3")
      ensures a.nMels.Some? ==> a.nMels.value == 128
      ensures a.cpuThreads == (if device == "cpu" then cpuThreads else 4)
      ensures a.repoId == modelInfo.repoId && a.device == device
      ensures a.computeType == modelInfo.precision && a.beamSize == beamSize
    {
      ModelManager.LoadArguments(modelInfo, ModelManager.Config("", device, beamSize, modelInfo.precision),
                                 cpuThreads)
    }

    /** `enqueue_files`: for each pattern in extension order, put every
        match into the queue and count it; then mark enumeration done. */
    method EnqueueFiles()
      modifies this`queue, this`totalFiles, this`enumerationDone
      ensures queue == old(queue) + Collected(entries, directory, selectedExtensions, recursive)
      ensures totalFiles == old(totalFiles) + MatchCount(entries, directory, selectedExtensions, recursive)
      ensures totalFiles - old(totalFiles) == |queue| - |old(queue)|
      ensures enumerationDone
    {
      ghost var queued := queue;
      ghost var counted := totalFiles;
      for i := 0 to |selectedExtensions|
        invariant queue == queued + Collected(entries, directory, selectedExtensions[..i], recursive)
        invariant totalFiles == counted + MatchCount(entries, directory, selectedExtensions[..i], recursive)
      {
        var matches := if recursive then RGlob(entries, directory, selectedExtensions[i])
                       else Glob(entries, directory, selectedExtensions[i]);
        CollectedStep(entries, directory, selectedExtensions, i, recursive);
        AppendAssociative(queued, Collected(entries, directory, selectedExtensions[..i], recursive), matches);
        PutAll(matches);
      }
      TakeAll(selectedExtensions);
      enumerationDone := true;
      CollectedLength(entries, directory, selectedExtensions, recursive);
    }

    /** The inner loop of `enqueue_files`: put each path of one pattern's
        matches into the queue, in the order found, counting each. */
    method PutAll(paths: seq<Path>)
      modifies this`queue, this`totalFiles
      ensures queue == old(queue) + paths
      ensures totalFiles == old(totalFiles) + |paths|
    {
      for j := 0 to |paths|
        invariant queue == old(queue) + paths[..j]
        invariant totalFiles == old(totalFiles) + j
      {
        TakeSnoc(paths, j + 1);
        AppendAssociative(old(queue), paths[..j], [paths[j]]);
        queue := queue + [paths[j]];
        totalFiles := totalFiles + 1;
      }
      TakeAll(paths);
    }

    /** The loop's fixed inputs, with the total as it stands. */
    function JobOf(transcribeErrors: map<nat, string>, writeErrors: map<nat, string>): Job
      reads this`totalFiles
    {
      Job(totalFiles, task, batchSize, outputFormat, transcribeErrors, writeErrors)
    }

    /** The body of the `try` for the file taken as number `count`. */
    method ProcessFile(count: nat, file: Path, transcribeErrors: map<nat, string>, writeErrors: map<nat, string>)
      modifies this`events
      ensures events == old(events) + FileEvents(count, file, JobOf(transcribeErrors, writeErrors))
    {
      var processing := Progress(Processing(file, count, totalFiles));
      var transcribe := Transcribe(file, task, batchSize);
      events := events + [processing];
      events := events + [transcribe];
      if count in transcribeErrors {
        var error := Progress(FileError(file, transcribeErrors[count], count, totalFiles));
        events := events + [error];
        SnocThree(old(events), processing, transcribe, error);
        return;
      }
      var suffix := "." + outputFormat;
      var out := WithSuffix(file, suffix);
      if !out.Replaced? {
        var error := Progress(FileError(file, BatchProcessor.SuffixErrorText(file, suffix, out), count, totalFiles));
        events := events + [error];
        SnocThree(old(events), processing, transcribe, error);
        return;
      }
      var write := Write(out.path, outputFormat);
      events := events + [write];
      var last := if count in writeErrors then Progress(FileError(file, writeErrors[count], count, totalFiles))
                  else Progress(Completed(file, out.path, count, totalFiles));
      events := events + [last];
      SnocFour(old(events), processing, transcribe, write, last);
    }

    /** `self._stop_event.is_set()`, when another thread's request may
        arrive just before the check. */
    method StopChecked(arrives: bool) returns (stop: bool)
      modifies this`stopRequested
      ensures stopRequested == (old(stopRequested) || arrives)
      ensures stop == stopRequested
    {
      if arrives {
        stopRequested := true;
      }
      stop := stopRequested;
    }

    /** One iteration of the `while` loop: take the oldest file, count it
        and process it. */
    method TakeNext(processed: nat, ghost original: seq<Path>, ghost prior: seq<Event>, ghost job: Job,
                    transcribeErrors: map<nat, string>, writeErrors: map<nat, string>)
      requires job == JobOf(transcribeErrors, writeErrors)
      requires processed < |original| && queue == original[processed..]
      requires events == prior + Consumed(original, processed, job)
      modifies this`queue, this`events
      ensures queue == original[processed + 1..]
      ensures events == prior + Consumed(original, processed + 1, job)
    {
      DropNext(original, processed);
      var file := queue[0];
      queue := queue[1..];
      ProcessFile(processed + 1, file, transcribeErrors, writeErrors);
      ConsumedStep(original, processed, job, prior);
    }

    /** One turn of the loop over a non-empty queue: the stop check, then,
        when no stop is requested, the next file. */
    method NextStep(processed: nat, stopAt: nat, ghost original: seq<Path>, ghost prior: seq<Event>,
                    ghost job: Job, ghost stoppedBefore: bool,
                    transcribeErrors: map<nat, string>, writeErrors: map<nat, string>)
      returns (stop: bool)
      requires job == JobOf(transcribeErrors, writeErrors)
      requires processed < |original| && queue == original[processed..]
      requires events == prior + Consumed(original, processed, job)
      requires stopRequested == stoppedBefore
      requires processed <= BatchProcessor.Started(|original|, stoppedBefore, stopAt)
      modifies this`queue, this`stopRequested, this`events
      ensures stop ==> processed == BatchProcessor.Started(|original|, stoppedBefore, stopAt)
      ensures stop ==> queue == old(queue) && events == old(events)
      ensures stop ==> stopRequested == (stoppedBefore || stopAt < |original|)
      ensures !stop ==> processed + 1 <= BatchProcessor.Started(|original|, stoppedBefore, stopAt)
      ensures !stop ==> stopRequested == stoppedBefore
      ensures !stop ==> queue == original[processed + 1..]
      ensures !stop ==> events == prior + Consumed(original, processed + 1, job)
    {
      stop := StopChecked(processed == stopAt);
      if !stop {
        TakeNext(processed, original, prior, job, transcribeErrors, writeErrors);
      }
    }

    /** The `while` loop of `run`: while the queue is not empty (enumeration
        being done), check the stop flag (another thread's request arrives
        just before the check of iteration `stopAt`, counting from 0), then
        take the oldest file, count it and process it. */
    method Drain(stopAt: nat, transcribeErrors: map<nat, string>, writeErrors: map<nat, string>)
      requires enumerationDone
      modifies this`queue, this`stopRequested, this`events
      ensures var k := BatchProcessor.Started(|old(queue)|, old(stopRequested), stopAt);
        queue == old(queue)[k..] &&
        events == old(events) + Consumed(old(queue), k, JobOf(transcribeErrors, writeErrors))
      ensures stopRequested == (old(stopRequested) || stopAt < |old(queue)|)
    {
      ghost var original := queue;
      ghost var prior := events;
      ghost var job := JobOf(transcribeErrors, writeErrors);
      ghost var started := BatchProcessor.Started(|queue|, stopRequested, stopAt);
      var processed: nat := 0;
      DropNone(queue);
      AppendEmpty(events);
      var stop := false;
      while !stop && (queue != [] || !enumerationDone)
        invariant enumerationDone && job == JobOf(transcribeErrors, writeErrors)
        invariant processed <= started
        invariant queue == original[processed..]
        invariant events == prior + Consumed(original, processed, job)
        invariant stop ==> processed == started && stopRequested == (old(stopRequested) || stopAt < |original|)
        invariant !stop ==> stopRequested == old(stopRequested)
        decreases |queue|, !stop
      {
        stop := NextStep(processed, stopAt, original, prior, job, old(stopRequested),
                         transcribeErrors, writeErrors);
        if !stop {
          processed := processed + 1;
        }
      }
    }

    /** `run`: enumerate, load the model (a loader that raises ends the run
        there), drain the queue, release the model, emit `finished`. */
    method Run(loadOk: bool, stopAt: nat, transcribeErrors: map<nat, string>, writeErrors: map<nat, string>)
      returns (completed: bool)
      modifies this`queue, this`totalFiles, this`enumerationDone, this`stopRequested, this`events
      ensures completed == loadOk && enumerationDone
      ensures totalFiles == old(totalFiles) + MatchCount(entries, directory, selectedExtensions, recursive)
      ensures var q := old(queue) + Collected(entries, directory, selectedExtensions, recursive);
        var k := if loadOk then BatchProcessor.Started(|q|, old(stopRequested), stopAt) else 0;
        queue == q[k..] &&
        events == old(events) + RunEvents(q, k, LoadArgs(), loadOk, JobOf(transcribeErrors, writeErrors)) &&
        stopRequested == (old(stopRequested) || (loadOk && stopAt < |q|))
    {
      EnqueueFiles();
      ghost var q := queue;
      ghost var e0 := events;
      var load := Load(LoadArgs());
      events := events + [load];
      if !loadOk {
        DropNone(q);
        completed := false;
        return;
      }
      Drain(stopAt, transcribeErrors, writeErrors);
      ghost var k := BatchProcessor.Started(|q|, old(stopRequested), stopAt);
      events := events + [Release];
      events := events + [Finished];
      AroundBlock(e0, load, Consumed(q, k, JobOf(transcribeErrors, writeErrors)), Release, Finished);
      completed := true;
    }
  }
}
