/** The batch run over a scanned, sorted list of files
    (core/transcription/batch_processor.py). The run asks the model manager
    for a model, then transcribes the files in order, checking the stop flag
    before each one. What the speech library does is an input: which files
    fail to transcribe or to be written, with the text of the exception, and
    after how many files another thread asks the run to stop. */
module BatchProcessor {
  import opened Common
  import opened Paths
  import Constants
  import Settings
  import ModelManager

  /** What a run does that can be observed: the `progress`, `error` and
      `finished` signals, and the calls into the speech library. */
  datatype Effect =
    | Progress(current: int, total: int, message: string)
    | Error(message: string)
    | Finished
    | Transcribe(input: Path, task: string, batchSize: int)
    | Write(output: Path, format: string)

  const LoadFailedText: string := "Failed to load model"

  function ProcessingText(name: string): string { "Processing " + name }
  function CompletedText(name: string): string { "Completed " + name }
  function FileErrorText(name: string, cause: string): string { "Error processing " + name + ": " + cause }

  /** The text of the ValueError that `with_suffix` raises. */
  function SuffixErrorText(file: Path, suffix: string, r: SuffixResult): string
  {
    if r.InvalidSuffix? then "Invalid suffix '" + suffix + "'"
    else "PosixPath('" + PathText(file) + "') has an empty name"
  }

  /** The request made to the manager: the settings' key, device and beam
      size, and the precision of the catalog entry. */
  function ConfigOf(s: Settings.TranscriptionSettings, info: Constants.ModelInfo): ModelManager.Config
  {
    ModelManager.Config(s.modelKey, s.device, s.beamSize, info.precision)
  }

  /** Everything one file produces, `idx` counting from 1: the "Processing"
      progress and the transcription, then its outcome. */
  function FileEffects(idx: int, total: int, file: Path, s: Settings.TranscriptionSettings,
                       transcribeErrors: map<int, string>, writeErrors: map<int, string>): (fx: seq<Effect>)
    ensures 3 <= |fx| <= 4
    ensures fx[0] == Progress(idx, total, ProcessingText(Name(file)))
    ensures fx[1] == Transcribe(file, s.taskMode, s.batchSize)
  {
    [Progress(idx, total, ProcessingText(Name(file))), Transcribe(file, s.taskMode, s.batchSize)]
      + Outcome(idx, total, file, s, transcribeErrors, writeErrors)
  }

  /** What follows the transcription of one file: one error or, after
      writing the output next to the input with the format as suffix, the
      "Completed" progress. */
  function Outcome(idx: int, total: int, file: Path, s: Settings.TranscriptionSettings,
                   transcribeErrors: map<int, string>, writeErrors: map<int, string>): (o: seq<Effect>)
    ensures 1 <= |o| <= 2
  {
    var name := Name(file);
    var suffix := "." + s.outputFormat;
    if idx in transcribeErrors then [Error(FileErrorText(name, transcribeErrors[idx]))]
    else
      match WithSuffix(file, suffix)
      case Replaced(out) =>
        [Write(out, s.outputFormat)] +
        (if idx in writeErrors then [Error(FileErrorText(name, writeErrors[idx]))]
         else [Progress(idx, total, CompletedText(name))])
      case r => [Error(FileErrorText(name, SuffixErrorText(file, suffix, r)))]
  }

  /** The effects of the first `n` files, in list order. */
  function Files(files: seq<Path>, n: nat, s: Settings.TranscriptionSettings,
                 transcribeErrors: map<int, string>, writeErrors: map<int, string>): (t: seq<Effect>)
    requires n <= |files|
  {
    if n == 0 then []
    else Files(files, n - 1, s, transcribeErrors, writeErrors)
         + FileEffects(n, |files|, files[n - 1], s, transcribeErrors, writeErrors)
  }

  /** No effect in `t` is `finished`, and every progress report carries
      the total `total` and a position between `lo` and `hi`. */
  predicate Tagged(t: seq<Effect>, total: int, lo: int, hi: int)
  {
    forall i :: 0 <= i < |t| ==>
      !t[i].Finished? && (t[i].Progress? ==> t[i].total == total && lo <= t[i].current <= hi)
  }

  lemma TaggedAppend(a: seq<Effect>, b: seq<Effect>, total: int, lo: int, hi: int)
    requires Tagged(a, total, lo, hi) && Tagged(b, total, lo, hi)
    ensures Tagged(a + b, total, lo, hi)
  {
    forall i | 0 <= i < |a + b|
      ensures !(a + b)[i].Finished? &&
        ((a + b)[i].Progress? ==> (a + b)[i].total == total && lo <= (a + b)[i].current <= hi)
    {
      if i >= |a| {
        assert (a + b)[i] == b[i - |a|];
      }
    }
  }

  lemma TaggedWiden(t: seq<Effect>, total: int, lo: int, hi: int, lo': int, hi': int)
    requires Tagged(t, total, lo, hi) && lo' <= lo && hi <= hi'
    ensures Tagged(t, total, lo', hi')
  {
  }

  lemma TaggedSnoc(earlier: seq<Effect>, last: seq<Effect>, total: int, n: int)
    requires 1 <= n
    requires Tagged(earlier, total, 1, n - 1) && Tagged(last, total, n, n)
    ensures Tagged(earlier + last, total, 1, n)
  {
    TaggedWiden(earlier, total, 1, n - 1, 1, n);
    TaggedWiden(last, total, n, n, 1, n);
    TaggedAppend(earlier, last, total, 1, n);
  }

  /** No effect of a file is `finished`, and its progress reports carry its
      own position and the total. */
  lemma FileEffectsTags(idx: int, total: int, file: Path, s: Settings.TranscriptionSettings,
                        transcribeErrors: map<int, string>, writeErrors: map<int, string>)
    ensures Tagged(FileEffects(idx, total, file, s, transcribeErrors, writeErrors), total, idx, idx)
  {
  }

  /** Progress never claims a position past the files started so far nor a
      total other than the number of files, and `finished` is not among
      the per-file effects. */
  lemma {:induction false} FilesTags(files: seq<Path>, n: nat, s: Settings.TranscriptionSettings,
                                     transcribeErrors: map<int, string>, writeErrors: map<int, string>)
    requires n <= |files|
    ensures Tagged(Files(files, n, s, transcribeErrors, writeErrors), |files|, 1, n)
  {
    if n > 0 {
      FilesTags(files, n - 1, s, transcribeErrors, writeErrors);
      FilesTagsStep(files, n, s, transcribeErrors, writeErrors);
    }
  }

  lemma FilesTagsStep(files: seq<Path>, n: nat, s: Settings.TranscriptionSettings,
                      transcribeErrors: map<int, string>, writeErrors: map<int, string>)
    requires 0 < n <= |files|
    requires Tagged(Files(files, n - 1, s, transcribeErrors, writeErrors), |files|, 1, n - 1)
    ensures Tagged(Files(files, n, s, transcribeErrors, writeErrors), |files|, 1, n)
  {
    FileEffectsTags(n, |files|, files[n - 1], s, transcribeErrors, writeErrors);
    TaggedSnoc(Files(files, n - 1, s, transcribeErrors, writeErrors),
               FileEffects(n, |files|, files[n - 1], s, transcribeErrors, writeErrors), |files|, n);
  }

  /** One more started file extends the trace by that file's effects. */
  lemma FilesStep(files: seq<Path>, n: nat, s: Settings.TranscriptionSettings,
                  transcribeErrors: map<int, string>, writeErrors: map<int, string>, prior: seq<Effect>)
    requires n < |files|
    ensures prior + Files(files, n + 1, s, transcribeErrors, writeErrors) ==
      (prior + Files(files, n, s, transcribeErrors, writeErrors))
        + FileEffects(n + 1, |files|, files[n], s, transcribeErrors, writeErrors)
  {
  }

  /** How many files start: none when the stop was requested before the run,
      else every file up to the one before which the stop arrives. Failing
      files do not shorten the run. */
  function Started(n: nat, stoppedBefore: bool, stopAt: nat): (k: nat)
    ensures k <= n
    ensures !stoppedBefore ==> k <= stopAt
    ensures !stoppedBefore && stopAt >= n ==> k == n
    ensures stoppedBefore ==> k == 0
    ensures !stoppedBefore && stopAt < n ==> k == stopAt
  {
    if stoppedBefore then 0 else Min(stopAt, n)
  }

  /** The whole run: a model that could not be obtained gives one error;
      otherwise the started files in order. `finished` closes every run. */
  function RunTrace(files: seq<Path>, s: Settings.TranscriptionSettings, loaded: bool, started: nat,
                    transcribeErrors: map<int, string>, writeErrors: map<int, string>): seq<Effect>
    requires started <= |files|
  {
    if !loaded then [Error(LoadFailedText), Finished]
    else Files(files, started, s, transcribeErrors, writeErrors) + [Finished]
  }

  /** How many `finished` signals a trace of the processor holds.  The
      stand-alone worker counts its own `finished` events the same way; the
      two signal vocabularies are separate types because the two programs
      emit different signals. */
  function CountFinished(t: seq<Effect>): nat
  {
    if t == [] then 0 else CountFinished(t[..|t| - 1]) + (if t[|t| - 1].Finished? then 1 else 0)
  }

  lemma {:induction false} CountFinishedAppend(a: seq<Effect>, b: seq<Effect>)
    ensures CountFinished(a + b) == CountFinished(a) + CountFinished(b)
    decreases |b|
  {
    if b != [] {
      assert (a + b)[..|a + b| - 1] == a + b[..|b| - 1];
      CountFinishedAppend(a, b[..|b| - 1]);
    } else {
      assert a + b == a;
    }
  }

  /** A sequence without `Finished` counts none. */
  lemma {:induction false} CountFinishedNone(t: seq<Effect>)
    requires forall e :: e in t ==> !e.Finished?
    ensures CountFinished(t) == 0
  {
    if t != [] {
      assert forall e :: e in t[..|t| - 1] ==> e in t;
      CountFinishedNone(t[..|t| - 1]);
    }
  }

  /** `finished` is emitted exactly once, and last, on every path. */
  lemma FinishedOnceAndLast(files: seq<Path>, s: Settings.TranscriptionSettings, loaded: bool, started: nat,
                            transcribeErrors: map<int, string>, writeErrors: map<int, string>)
    requires started <= |files|
    ensures var t := RunTrace(files, s, loaded, started, transcribeErrors, writeErrors);
      CountFinished(t) == 1 && t[|t| - 1] == Finished
  {
    var body := if loaded then Files(files, started, s, transcribeErrors, writeErrors) else [Error(LoadFailedText)];
    assert RunTrace(files, s, loaded, started, transcribeErrors, writeErrors) == body + [Finished];
    FilesTags(files, started, s, transcribeErrors, writeErrors);
    CountFinishedNone(body);
    CountFinishedAppend(body, [Finished]);
    assert [Finished][..0] == [];
  }

  /** Each started file announces itself, is transcribed, and ends with
      exactly one outcome: "Completed" when nothing failed, an error
      otherwise. The output is written only after a transcription that
      succeeded, to the input path with the format as its suffix. */
  lemma FileEffectsShape(idx: int, total: int, file: Path, s: Settings.TranscriptionSettings,
                         transcribeErrors: map<int, string>, writeErrors: map<int, string>)
    ensures var fx := FileEffects(idx, total, file, s, transcribeErrors, writeErrors);
      var suffix := "." + s.outputFormat;
      3 <= |fx| <= 4 &&
      fx[0] == Progress(idx, total, ProcessingText(Name(file))) &&
      fx[1] == Transcribe(file, s.taskMode, s.batchSize) &&
      (fx[|fx| - 1] == Progress(idx, total, CompletedText(Name(file))) <==>
        idx !in transcribeErrors && WithSuffix(file, suffix).Replaced? && idx !in writeErrors) &&
      (fx[|fx| - 1].Error? <==>
        !(idx !in transcribeErrors && WithSuffix(file, suffix).Replaced? && idx !in writeErrors)) &&
      (|fx| == 4 <==> idx !in transcribeErrors && WithSuffix(file, suffix).Replaced?) &&
      (|fx| == 4 ==> fx[2] == Write(WithSuffix(file, suffix).path, s.outputFormat))
  {
  }

  /** A progress report announcing that a file is being processed. */
  predicate Announces(e: Effect)
  {
    e.Progress? && StartsWith(e.message, "Processing ")
  }

  /** The positions announced by "Processing" progress, in emission order. */
  function ProcessingIndices(t: seq<Effect>): seq<int>
  {
    if t == [] then []
    else
      var e := t[|t| - 1];
      ProcessingIndices(t[..|t| - 1]) +
        (if Announces(e) then [e.current] else [])
  }

  lemma {:induction false} ProcessingIndicesAppend(a: seq<Effect>, b: seq<Effect>)
    ensures ProcessingIndices(a + b) == ProcessingIndices(a) + ProcessingIndices(b)
    decreases |b|
  {
    if b != [] {
      assert (a + b)[..|a + b| - 1] == a + b[..|b| - 1];
      ProcessingIndicesAppend(a, b[..|b| - 1]);
    } else {
      assert a + b == a;
    }
  }

  /** A file announces exactly its own position once. */
  lemma FileAnnouncesOnce(idx: int, total: int, file: Path, s: Settings.TranscriptionSettings,
                          transcribeErrors: map<int, string>, writeErrors: map<int, string>)
    ensures ProcessingIndices(FileEffects(idx, total, file, s, transcribeErrors, writeErrors)) == [idx]
  {
    var head := [Progress(idx, total, ProcessingText(Name(file))), Transcribe(file, s.taskMode, s.batchSize)];
    var rest := Outcome(idx, total, file, s, transcribeErrors, writeErrors);
    HeadAnnounces(idx, total, file, s);
    OutcomeAnnouncesNothing(idx, total, file, s, transcribeErrors, writeErrors);
    ProcessingIndicesAppend(head, rest);
  }

  lemma HeadAnnounces(idx: int, total: int, file: Path, s: Settings.TranscriptionSettings)
    ensures ProcessingIndices([Progress(idx, total, ProcessingText(Name(file))),
                               Transcribe(file, s.taskMode, s.batchSize)]) == [idx]
  {
    var head := [Progress(idx, total, ProcessingText(Name(file))), Transcribe(file, s.taskMode, s.batchSize)];
    assert StartsWith(ProcessingText(Name(file)), "Processing ");
    assert head[..1] == [head[0]] && [head[0]][..0] == [];
    assert ProcessingIndices([head[0]]) == [idx];
  }

  lemma OutcomeAnnouncesNothing(idx: int, total: int, file: Path, s: Settings.TranscriptionSettings,
                                transcribeErrors: map<int, string>, writeErrors: map<int, string>)
    ensures ProcessingIndices(Outcome(idx, total, file, s, transcribeErrors, writeErrors)) == []
  {
    var rest := Outcome(idx, total, file, s, transcribeErrors, writeErrors);
    assert !StartsWith(CompletedText(Name(file)), "Processing ") by {
      assert CompletedText(Name(file))[0] == 'C';
    }
    assert forall i :: 0 <= i < |rest| ==> !Announces(rest[i]);
    AnnouncesNothing(rest);
  }

  lemma {:induction false} AnnouncesNothing(t: seq<Effect>)
    requires forall i :: 0 <= i < |t| ==> !Announces(t[i])
    ensures ProcessingIndices(t) == []
  {
    if t != [] {
      AnnouncesNothing(t[..|t| - 1]);
    }
  }

  /** `[1, 2, ..., n]`. */
  function OneTo(n: nat): (r: seq<int>)
    ensures |r| == n && forall i :: 0 <= i < n ==> r[i] == i + 1
  {
    if n == 0 then [] else OneTo(n - 1) + [n]
  }

  /** The files are started at positions 1, 2, ..., k in list order, and no
      other file is started. */
  lemma {:induction false} FilesStartInOrder(files: seq<Path>, n: nat, s: Settings.TranscriptionSettings,
                                             transcribeErrors: map<int, string>, writeErrors: map<int, string>)
    requires n <= |files|
    ensures ProcessingIndices(Files(files, n, s, transcribeErrors, writeErrors)) == OneTo(n)
  {
    if n > 0 {
      FilesStartInOrder(files, n - 1, s, transcribeErrors, writeErrors);
      FileAnnouncesOnce(n, |files|, files[n - 1], s, transcribeErrors, writeErrors);
      ProcessingIndicesAppend(Files(files, n - 1, s, transcribeErrors, writeErrors),
                              FileEffects(n, |files|, files[n - 1], s, transcribeErrors, writeErrors));
    }
  }

  /** Over a whole run that obtained a model, the announced positions are
      1..k, where k is the number of files before the stop (all of them
      without a stop): a stop prevents every later file from starting, and
      failing files never end the run early. */
  lemma RunStartsInOrder(files: seq<Path>, s: Settings.TranscriptionSettings, stoppedBefore: bool, stopAt: nat,
                         transcribeErrors: map<int, string>, writeErrors: map<int, string>)
    ensures var k := Started(|files|, stoppedBefore, stopAt);
      ProcessingIndices(RunTrace(files, s, true, k, transcribeErrors, writeErrors)) == OneTo(k)
  {
    var k := Started(|files|, stoppedBefore, stopAt);
    FilesStartInOrder(files, k, s, transcribeErrors, writeErrors);
    ProcessingIndicesAppend(Files(files, k, s, transcribeErrors, writeErrors), [Finished]);
    assert ProcessingIndices([Finished]) == [] by {
      assert [Finished][..0] == [];
    }
  }

  /** Requests that differ only in settings outside the cache key (batch
      size, output format, task, recursion, extensions) reach the manager as
      the same request, so the second one is served from the cache. */
  lemma SameKeyReusesModel(a: Settings.TranscriptionSettings, b: Settings.TranscriptionSettings,
                           info: Constants.ModelInfo, m: ModelManager.State,
                           catalog: Constants.Catalog, cpuThreads: int, loadError: string, loadOk: bool)
    requires a.modelKey == b.modelKey && a.device == b.device && a.beamSize == b.beamSize
    requires Constants.Lookup(catalog, a.modelKey).Some?
    ensures var after := ModelManager.GetOrLoad(m, ConfigOf(a, info), catalog, cpuThreads, true, loadError).0;
      ModelManager.Hit(after, ConfigOf(b, info)) &&
      ModelManager.GetOrLoad(after, ConfigOf(b, info), catalog, cpuThreads, loadOk, loadError) == (after, after.model)
  {
  }

  class Processor {
    const files: seq<Path>
    const settings: Settings.TranscriptionSettings
    const modelInfo: Constants.ModelInfo
    const manager: ModelManager.Manager
    /** The `threading.Event` that `request_stop` sets. */
    var stopRequested: bool
    var effects: seq<Effect>

    constructor (files: seq<Path>, settings: Settings.TranscriptionSettings,
                 modelInfo: Constants.ModelInfo, manager: ModelManager.Manager)
      ensures this.files == files && this.settings == settings
      ensures this.modelInfo == modelInfo && this.manager == manager
      ensures !stopRequested && effects == []
    {
      this.files, this.settings, this.modelInfo, this.manager := files, settings, modelInfo, manager;
      stopRequested, effects := false, [];
    }

    /** `request_stop`: setting the flag again changes nothing. */
    method RequestStop()
      modifies this`stopRequested
      ensures stopRequested
    {
      stopRequested := true;
    }

    /** The body of the loop for the file at position `idx` (from 1): the
        per-file `try` catches every failure and reports it. */
    method ProcessFile(idx: int, total: int, file: Path,
                       transcribeErrors: map<int, string>, writeErrors: map<int, string>)
      modifies this`effects
      ensures effects == old(effects) + FileEffects(idx, total, file, settings, transcribeErrors, writeErrors)
    {
      var name := Name(file);
      effects := effects + [Progress(idx, total, ProcessingText(name))];
      effects := effects + [Transcribe(file, settings.taskMode, settings.batchSize)];
      if idx in transcribeErrors {
        effects := effects + [Error(FileErrorText(name, transcribeErrors[idx]))];
        return;
      }
      var suffix := "." + settings.outputFormat;
      var out := WithSuffix(file, suffix);
      if !out.Replaced? {
        effects := effects + [Error(FileErrorText(name, SuffixErrorText(file, suffix, out)))];
        return;
      }
      effects := effects + [Write(out.path, settings.outputFormat)];
      if idx in writeErrors {
        effects := effects + [Error(FileErrorText(name, writeErrors[idx]))];
      } else {
        effects := effects + [Progress(idx, total, CompletedText(name))];
      }
    }

    /** `self._stop_event.is_set()`, when another thread's request may
        arrive just before the check. */
    method StopChecked(arrives: bool) returns (stop: bool)
      modifies this`stopRequested
      ensures stopRequested == (old(stopRequested) || arrives)
      ensures stop == stopRequested
    {
      if arrives {
        stopRequested := true;
      }
      stop := stopRequested;
    }

    /** One iteration of the `for` loop, for the file at `idx`: the stop
        check, then, unless it stops the loop, the file. */
    method StartFile(idx: nat, stopAt: nat, ghost prior: seq<Effect>, ghost stoppedBefore: bool,
                     transcribeErrors: map<int, string>, writeErrors: map<int, string>)
      returns (stop: bool)
      requires idx < |files| && idx <= Started(|files|, stoppedBefore, stopAt)
      requires stopRequested == stoppedBefore
      requires effects == prior + Files(files, idx, settings, transcribeErrors, writeErrors)
      modifies this`stopRequested, this`effects
      ensures stop ==> idx == Started(|files|, stoppedBefore, stopAt) && effects == old(effects) &&
                       stopRequested == (stoppedBefore || stopAt < |files|)
      ensures !stop ==> idx < Started(|files|, stoppedBefore, stopAt) && stopRequested == stoppedBefore &&
                        effects == prior + Files(files, idx + 1, settings, transcribeErrors, writeErrors)
    {
      stop := StopChecked(idx == stopAt);
      if !stop {
        ProcessFile(idx + 1, |files|, files[idx], transcribeErrors, writeErrors);
        FilesStep(files, idx, settings, transcribeErrors, writeErrors, prior);
      }
    }

    /** The `for` loop of `run`: before each file, check the stop flag (the
        request of another thread arrives just before the check for the
        file at position `stopAt`, counting from 0), then process the file. */
    method StartFiles(stopAt: nat, transcribeErrors: map<int, string>, writeErrors: map<int, string>)
      modifies this`stopRequested, this`effects
      ensures effects == old(effects) +
        Files(files, Started(|files|, old(stopRequested), stopAt), settings, transcribeErrors, writeErrors)
      ensures stopRequested == (old(stopRequested) || stopAt < |files|)
    {
      ghost var started := Started(|files|, stopRequested, stopAt);
      ghost var prior := effects;
      var idx := 0;
      var stop := false;
      while !stop && idx < |files|
        invariant idx <= started
        invariant effects == prior + Files(files, idx, settings, transcribeErrors, writeErrors)
        invariant stop ==> idx == started && stopRequested == (old(stopRequested) || stopAt < |files|)
        invariant !stop ==> stopRequested == old(stopRequested)
        decreases |files| - idx, !stop
      {
        stop := StartFile(idx, stopAt, prior, old(stopRequested), transcribeErrors, writeErrors);
        if !stop {
          idx := idx + 1;
        }
      }
    }

    /** `run`. The stop request of another thread arrives just before the
        check that precedes file number `stopAt + 1` (never, when `stopAt`
        is at least the number of files). */
    method Run(loadOk: bool, loadError: string, stopAt: nat,
               transcribeErrors: map<int, string>, writeErrors: map<int, string>)
      requires manager.Valid()
      modifies this`stopRequested, this`effects, manager
      ensures manager.Valid()
      ensures var (m, r) := ModelManager.GetOrLoad(old(manager.Snapshot()), ConfigOf(settings, modelInfo),
                                                   manager.catalog, manager.cpuThreads, loadOk, loadError);
        manager.Snapshot() == m &&
        effects == old(effects) +
          RunTrace(files, settings, r.Some?, Started(|files|, old(stopRequested), stopAt),
                   transcribeErrors, writeErrors) &&
        stopRequested == (old(stopRequested) || (r.Some? && stopAt < |files|))
    {
      var model := manager.GetOrLoadModel(settings.modelKey, settings.device, settings.beamSize,
                                          modelInfo.precision, loadOk, loadError);
      if model.None? {
        effects := effects + [Error(LoadFailedText)];
        effects := effects + [Finished];
        return;
      }
      StartFiles(stopAt, transcribeErrors, writeErrors);
      effects := effects + [Finished];
    }
  }
}
