# WhisperS2T batch transcriber — a verified model of its core

This project models the orchestration code of the WhisperS2T batch
transcriber in Dafny. The transcriber is a desktop tool that runs a
CTranslate2 Whisper speech model over every audio file of a folder. The
model covers these parts:

- the **single-slot model cache** (`ModelManager`): release before load, a
  cache hit on an equal configuration, and an idempotent cleanup;
- the two **batch loops** that turn a list or a queue of files into a trace of
  progress, error, speech-library and `finished` events:
  - the newer `BatchProcessor`;
  - the older stand-alone `Worker`;
- the **file scanner**: per-extension glob results, concatenated and then
  sorted;
- the **metrics stores**:
  - both copies keep a bounded history and a subscriber list;
  - the newer copy isolates subscriber exceptions and the older copy does not;
- the **metrics widgets' state**: the sparkline window, the speedometer and arc
  clamps, and visualization switching;
- the **configuration rules**:
  - the model catalog derived from the specification table;
  - the device and precision filter of the settings panel;
  - the CPU batch-size advisory;
  - quantization ordering;
  - thread and core counts;
  - the bfloat16 capability test.

What the foreign libraries do is an **input** of each operation, never a
hidden choice:

- whether the speech model loads;
- which files fail to transcribe or to be written, with the exception text;
- when another thread requests a stop;
- which subscriber callbacks raise;
- the CUDA device count, the core count and the compute capability.

Each state-changing Python class is a Dafny `class`:

- its fields are the source's fields;
- each method's `ensures` ties the new state to a specification function of
  the old state;
- lemmas prove what the source promises about those functions.

Modules follow the source files:

| module | source file |
|---|---|
| `Common` | shared string, order and sequence helpers |
| `SystemUtils` | utils/system_utils.py |
| `Utilities` | utilities.py |
| `Settings` | config/settings.py |
| `Constants` | config/constants.py |
| `SettingsWidget` | gui/settings_widget.py |
| `Paths` | the parts of pathlib that the loops use |
| `FileScanner` | core/transcription/file_scanner.py |
| `ModelManager` | core/models/manager.py |
| `BatchProcessor` | core/transcription/batch_processor.py |
| `BatchTranscriber` | whispers2t_batch_transcriber.py |
| `MonitoringStore` | core/monitoring/metrics_store.py |
| `Visualizations` | gui/widgets/visualizations.py |
| `MetricsBar` | metrics_bar.py |

## Model

| member | source | states |
|---|---|---|
| SystemUtils.ComputeAndPlatformInfo | utils/system_utils.py:6-13 | "cpu" is always first; "cuda" is present iff the CUDA device count is positive; nothing else is listed |
| SystemUtils.LogicalCoreCount | utils/system_utils.py:15-17 | the reported count is kept unless it is None or 0, which give 1; the result is at least 1 for any non-negative or missing count |
| SystemUtils.HasBfloat16Support | utils/system_utils.py:19-26 | false whenever CUDA is unavailable |
| SystemUtils.Bfloat16Capability | utils/system_utils.py:24-26 | for a (major, minor) capability, support holds iff CUDA is available and major > 8, or major = 8 and minor ≥ 6 (Python tuple order) |
| SystemUtils.OptimalCpuThreads | utils/system_utils.py:28-32 | equals max(4, cores − 8); at least 4; equals cores − 8 from 12 cores on, and 4 up to 12 cores |
| Utilities.ComputeAndPlatformInfo | utilities.py:4-10 | gives the same device list as the system_utils copy: "cpu" first, "cuda" iff a device is visible |
| Utilities.DropInt16 | utilities.py:14 | keeps exactly the input types other than 'int16' |
| Utilities.KeepAvailable | utilities.py:16 | keeps exactly the types in the order list that are also available |
| Utilities.KeepAvailableIsSubsequence | utilities.py:16 | the filter keeps the order list's order |
| Utilities.DesiredOrderDistinct | utilities.py:15 | the preferred order names no type twice |
| Utilities.SupportedQuantizations | utilities.py:12-17 | never 'int16'; exactly the input types that the preferred order names; in preferred order; no duplicates, even when the input repeats a type |
| Settings.Validate | config/settings.py:17-27 | at most one warning; a warning iff the lower-cased device is "cpu" and the batch size exceeds 8; the warning is the advisory text |
| Settings.CpuSpellings | config/settings.py:21 | the devices that lower-case to "cpu" are exactly the 3-letter spellings of c, p, u in either case |
| Settings.ValidateIgnoresCase | config/settings.py:21 | device names that differ only in case get the same warnings |
| Constants.SpecKeys | config/constants.py:46 | one key "{name} - {prec}" per table row, in row order |
| Constants.Names | config/constants.py:57 | the name of each table row, in row order |
| Constants.Lookup | core/models/manager.py:52 | `WHISPER_MODELS[key]`: found iff the key is in the dictionary, and then the stored entry; None stands for KeyError |
| Constants.Insert | config/constants.py:45-55 | after `d[k] = v` the pair (k, v) is in the dictionary |
| Constants.InsertKeys | config/constants.py:45-55 | an insertion keeps the key order, and appends a key that is new |
| Constants.InsertEntries | config/constants.py:45-55 | in a dictionary an insertion overwrites the entry for k and keeps every other entry |
| Constants.FillDictKeys | config/constants.py:45-55 | the comprehension's keys are the pairs' keys without repetition, in order of first appearance |
| Constants.FillDictEntries | config/constants.py:45-55 | every entry of the comprehension is one of the pairs |
| Constants.Rows | config/constants.py:46-53 | the i-th row becomes the pair of its key and its info |
| Constants.WhisperModelsKeys | config/constants.py:45-55 | `WHISPER_MODELS` keys are the table keys deduplicated in first-appearance order; they are distinct; every table row has an entry |
| Constants.WhisperModelsEntries | config/constants.py:45-55 | every catalog entry is the key and the info of some table row |
| Constants.CatalogEntryShape | config/constants.py:46-49 | every entry is stored under "{name} - {prec}" of its own name and precision; its repo_id is "ctranslate2-4you/{slug}-ct2-{prec}" |
| Constants.ModelNames | config/constants.py:57 | `MODEL_NAMES` has no duplicates, holds exactly the table's names, and follows first-appearance order |
| Constants.PrecisionsOf | config/constants.py:59-61 | every listed precision belongs to a table row with that name |
| Constants.PrecisionsComplete | config/constants.py:59-61 | every table row with that name has its precision listed |
| Constants.ModelPrecisions | config/constants.py:59-61 | the keys of the `setdefault(...).append` loop are exactly the table's names; each maps to that name's precisions in table order, and never to an empty list |
| Constants.DistilModels | config/constants.py:63 | `DISTIL_MODELS` holds exactly the model names that start with "Distil" |
| SettingsWidget.OfferedModels | gui/settings_widget.py:118-127 | lists a key iff the catalog has that key with a precision the device accepts; keeps catalog order |
| SettingsWidget.OfferedModelsByDevice | gui/settings_widget.py:119-127 | "cpu" is offered exactly the float32 entries; "cuda" is offered float32 and float16 entries, and bfloat16 entries iff bfloat16 is supported |
| SettingsWidget.OtherDeviceOffersNothing | gui/settings_widget.py:118-127 | a device other than "cpu" or "cuda" is offered no model |
| SettingsWidget.OfferedModelsDistinct | gui/settings_widget.py:116-127 | with the application's catalog the model box never lists a key twice |
| SettingsWidget.OfferedModelsSnoc | gui/settings_widget.py:118-127 | one more catalog entry extends the list at its end, exactly when that entry is offered |
| SettingsWidget.DefaultDeviceChoice | gui/settings_widget.py:97-104 | the default device is "cuda" iff a CUDA device is visible, and is always a listed device |
| SettingsWidget.SliderValue | gui/settings_widget.py:59-62 | a slider value lies within its range and in-range values are kept |
| SettingsWidget.SettingsWidget.constructor | gui/settings_widget.py:20-23 | beam 1, batch 8, "txt" and "transcribe"; the reported devices; the default device; the models offered for it |
| SettingsWidget.SettingsWidget.PopulateDevices | gui/settings_widget.py:95-106 | lists the reported devices, selects "cuda" if listed else "cpu", and rebuilds the model box |
| SettingsWidget.SettingsWidget.SelectDevice | gui/settings_widget.py:108-111 | only a listed device can be selected; the model box is rebuilt for the selection |
| SettingsWidget.SettingsWidget.UpdateModelOptions | gui/settings_widget.py:113-127 | the box is cleared and refilled in catalog order with exactly the offered models; the first of them is selected |
| SettingsWidget.SettingsWidget.SelectModel | gui/settings_widget.py:130-132 | only a listed model can be selected |
| SettingsWidget.SettingsWidget.SetBeamSize | gui/settings_widget.py:59-62 | the beam slider holds the value moved into 1..5 |
| SettingsWidget.SettingsWidget.SetBatchSize | gui/settings_widget.py:79-82 | the batch slider holds the value moved into 1..200 |
| SettingsWidget.SettingsWidget.GetModel | gui/settings_widget.py:130-132 | the selected model is one of the listed models, or empty when none is listed |
| SettingsWidget.SettingsWidget.GetDevice | gui/settings_widget.py:134-136 | the selected device is always a listed device |
| SettingsWidget.SettingsWidget.GetBeamSize | gui/settings_widget.py:146-148 | the beam size lies in 1..5 |
| SettingsWidget.SettingsWidget.GetBatchSize | gui/settings_widget.py:150-152 | the batch size lies in 1..200 |
| Paths.PathLeReflexive | core/transcription/file_scanner.py:20 | path order (part by part, as pathlib compares paths) is reflexive |
| Paths.PathLeTotal | core/transcription/file_scanner.py:20 | path order is total |
| Paths.PathLeTransitive | core/transcription/file_scanner.py:20 | path order is transitive |
| Paths.PathLeAntisymmetric | core/transcription/file_scanner.py:20 | path order is antisymmetric |
| Paths.LastIndexOf | core/transcription/batch_processor.py:70 | the last position of the character, or −1 when it is absent |
| Paths.SuffixOf | core/transcription/batch_processor.py:70 | a suffix is empty or starts with a dot, ends the name, and is shorter than the name |
| Paths.WithSuffix | core/transcription/batch_processor.py:70 | `with_suffix` raises for a suffix containing "/", a suffix not starting with ".", or a lone "."; otherwise it raises iff the name is empty; a result keeps the directory and the number of parts |
| Paths.StemNotEmpty | core/transcription/batch_processor.py:70 | a name that is not empty keeps a stem that is not empty |
| Paths.LastDotOfNewName | core/transcription/batch_processor.py:70 | after appending "." and an extension without dots, the appended dot is the last one |
| Paths.OutputPathShape | core/transcription/batch_processor.py:70 | the output path is in the input's directory, keeps the input's stem, and has ".{format}" as its suffix |
| Paths.WithSuffixIdempotent | core/transcription/batch_processor.py:70 | replacing the suffix again with the same one changes nothing |
| FileScanner.Glob | core/transcription/file_scanner.py:18 | every result is a direct child of the directory whose name matches `*{ext}` |
| FileScanner.RGlob | core/transcription/file_scanner.py:16 | every result lies below the directory and its name matches `*{ext}` |
| FileScanner.GlobWithinRGlob | core/transcription/file_scanner.py:15-18 | the direct matches are exactly the recursive matches of depth one |
| FileScanner.PatternMatches | core/transcription/file_scanner.py:15-18 | `rglob` is used iff recursive; without recursion only direct children are found |
| FileScanner.Collected | core/transcription/file_scanner.py:11-18 | every collected path matches some `*{ext}`; without recursion every path is a direct child |
| FileScanner.CollectedLength | core/transcription/file_scanner.py:14-18 | nothing is deduplicated: the collected length is the sum of the per-pattern match counts |
| FileScanner.InsertSorted | core/transcription/file_scanner.py:20 | the insertion adds exactly the one element |
| FileScanner.InsertSortedSorted | core/transcription/file_scanner.py:20 | inserting into a sorted list keeps it sorted |
| FileScanner.SortPaths | core/transcription/file_scanner.py:20 | `sorted(files)` is sorted and a permutation of its input |
| FileScanner.SortedUnique | core/transcription/file_scanner.py:20 | two sorted permutations of one collection are equal, so any correct sort agrees with `SortPaths` |
| FileScanner.SortedHeadIsLeast | core/transcription/file_scanner.py:20 | the head of a sorted list is below every element |
| FileScanner.Scanner.constructor | core/transcription/file_scanner.py:5-6 | the scanner looks at the given directory and its entries |
| FileScanner.Scanner.ScanDirectory | core/transcription/file_scanner.py:8-20 | the result is sorted; it is a permutation of the per-pattern results concatenated in extension order; its length is the sum of the match counts; every path matches some pattern; without recursion only direct children appear; no extensions gives an empty result |
| FileScanner.Scanner.CountFiles | core/transcription/file_scanner.py:22-25 | the count is the length of `scan_directory`, the sum of the per-pattern match counts |
| ModelManager.LoadArguments | core/models/manager.py:50-71 | the loader gets the entry's repo_id, the device, the precision and the beam size; `n_mels=128` iff 'large-v3' occurs in repo_id; on "cpu" it gets the manager's thread count, and 4 threads elsewhere |
| ModelManager.HitReturnsCached | core/models/manager.py:37-43 | a held model with an equal configuration is returned, with no load, no release and no signal |
| ModelManager.MissReleasesThenLoads | core/models/manager.py:37-39 | on a miss the log grows by a release (iff a model was held) followed by the loader call (unless the key is unknown) |
| ModelManager.LoadSuccess | core/models/manager.py:37-43 | after a successful load the returned model is the held one; the configuration is the request; `model_loaded` is emitted once |
| ModelManager.LoadFailure | core/models/manager.py:44-46 | when the key is unknown or the loader raises, the result is None; `model_error` carries the message; the slot is empty; the configuration keeps its old value |
| ModelManager.FailureForcesReload | core/models/manager.py:37-46 | after a failed load, the next request is a miss and calls the loader again, even for the same configuration |
| ModelManager.GetOrLoadCoherent | core/models/manager.py:25-48 | `get_or_load_model` keeps the invariant: at most one model is ever in memory; a held model matches the remembered configuration |
| ModelManager.AppendLoad | core/models/manager.py:38-39 | a load started with nothing in memory keeps one model at a time |
| ModelManager.ReleaseCoherent | core/models/manager.py:73-81 | a release keeps the invariant and leaves nothing in memory |
| ModelManager.CleanupIdempotent | core/models/manager.py:83-87 | `cleanup` empties the slot, a second cleanup changes nothing, and cleaning an empty manager changes nothing |
| ModelManager.KeyErrorText | core/models/manager.py:44-45 | the message of the KeyError for an unknown key is the key's `repr`: it begins and ends with the quote `repr` chooses, and the text between them reads back as the key |
| Common.ReprQuote | core/models/manager.py:45 | `repr` quotes with `"` exactly when the text holds `'` and no `"`, and with `'` otherwise |
| Common.PyRepr | core/models/manager.py:45 | the `repr` of a text starts and ends with the chosen quote and is at least two characters longer than the text |
| Common.ReprRoundTrip | core/models/manager.py:45 | undoing the escapes between the quotes gives back the original text |
| Common.ReprPlain | core/models/manager.py:45 | a text without `'`, backslash or control characters is shown unchanged between single quotes |
| ModelManager.Manager.constructor | core/models/manager.py:18-23 | the manager starts empty; its thread count is max(4, cores − 8); the invariant holds |
| ModelManager.Manager.GetOrLoadModel | core/models/manager.py:25-48 | the new state and the result are those of `GetOrLoad`, and the invariant is kept |
| ModelManager.Manager.ReleaseCurrentModel | core/models/manager.py:73-81 | the new state is `ReleaseCurrent` of the old one |
| ModelManager.Manager.Cleanup | core/models/manager.py:83-87 | the slot is empty afterwards and the invariant is kept |
| BatchProcessor.FileEffects | core/transcription/batch_processor.py:57-80 | a file's effects start with its "Processing" progress and then its transcription |
| BatchProcessor.Outcome | core/transcription/batch_processor.py:69-80 | after the transcription come one or two effects (see `FileEffectsShape`) |
| BatchProcessor.FilesTags | core/transcription/batch_processor.py:51-57 | every progress of the first n files carries total = len(files) and a position in 1..n; no per-file effect is `finished` |
| BatchProcessor.Started | core/transcription/batch_processor.py:53-55 | the number of files started: none when stopped before the run; otherwise the files before the stop; all of them without a stop |
| BatchProcessor.FinishedOnceAndLast | core/transcription/batch_processor.py:32-87 | `finished` is emitted exactly once, as the last effect, on every path |
| BatchProcessor.FileEffectsShape | core/transcription/batch_processor.py:57-80 | "Processing" comes first, then the transcription, then exactly one outcome: "Completed" iff nothing failed, an error otherwise; the output is written only after a successful transcription, to the input with the new suffix |
| BatchProcessor.FileAnnouncesOnce | core/transcription/batch_processor.py:57 | each file announces its own position exactly once |
| BatchProcessor.OneTo | core/transcription/batch_processor.py:53 | the positions 1..n of `enumerate(files, 1)` |
| BatchProcessor.FilesStartInOrder | core/transcription/batch_processor.py:53-57 | the first n files are announced at positions 1, 2, ..., n, in list order |
| BatchProcessor.RunStartsInOrder | core/transcription/batch_processor.py:46-80 | a run with a model announces positions 1..k; after a stop no further file starts; failing files never end the run early |
| BatchProcessor.SameKeyReusesModel | core/transcription/batch_processor.py:39-44 | two runs whose settings share key, device and beam size send the same request, and the second is a cache hit |
| BatchProcessor.Processor.constructor | core/transcription/batch_processor.py:19-26 | the processor keeps its inputs, with the stop flag clear and no effects |
| BatchProcessor.Processor.RequestStop | core/transcription/batch_processor.py:28-30 | the stop flag is set, and setting it again changes nothing |
| BatchProcessor.Processor.ProcessFile | core/transcription/batch_processor.py:57-80 | the loop body appends exactly `FileEffects` of the file |
| BatchProcessor.Processor.StartFiles | core/transcription/batch_processor.py:53-80 | the loop appends the effects of the first `Started` files; the stop flag ends up set iff it was set before or a stop arrived |
| BatchProcessor.Processor.Run | core/transcription/batch_processor.py:32-87 | the manager moves as `GetOrLoad` says; a missing model gives "Failed to load model" then `finished`; otherwise the started files then `finished` |
| BatchTranscriber.ReportText | whispers2t_batch_transcriber.py:89-98 | each message starts with "Processing ", "Completed " or "Error processing file ", and ends with " (count/total)" |
| BatchTranscriber.FileEventsShape | whispers2t_batch_transcriber.py:87-100 | "Processing" comes first, then the transcription, then exactly one report: "Completed" naming the output iff nothing failed, an error report otherwise; writing only follows a successful transcription |
| BatchTranscriber.FileEvents | whispers2t_batch_transcriber.py:89-100 | a file taken produces three or four events |
| BatchTranscriber.Outcome | whispers2t_batch_transcriber.py:92-100 | one or two events follow the transcription |
| BatchTranscriber.TranscribedAppend | whispers2t_batch_transcriber.py:91 | the transcriptions of two traces concatenate |
| BatchTranscriber.FileTranscribedOnce | whispers2t_batch_transcriber.py:91 | each file taken is transcribed exactly once |
| BatchTranscriber.ConsumedInQueueOrder | whispers2t_batch_transcriber.py:83-100 | the files transcribed are the first n of the queue in FIFO order, whatever fails |
| BatchTranscriber.ConsumedCounted | whispers2t_batch_transcriber.py:87-100 | the reports of the first n files carry the total and counts in 1..n; the count rises once per file, before its transcription |
| BatchTranscriber.CountedHasNoFinished | whispers2t_batch_transcriber.py:83-100 | the loop itself never emits `finished` |
| BatchTranscriber.RunOutcome | whispers2t_batch_transcriber.py:62-105 | a loaded model gives: the load first; the first k queued files transcribed in queue order; then release and `finished` once, last; a loader that raises gives no transcription and no `finished` |
| BatchTranscriber.CountsWithinTotal | whispers2t_batch_transcriber.py:46-100 | for a fresh worker every report's count is between 1 and `total_files` |
| BatchTranscriber.Worker.constructor | whispers2t_batch_transcriber.py:21-35 | the task is stored lower-cased; `CPU_THREADS` = max(4, cores − 8); the queue is empty, the flags are clear and the total is 0 |
| BatchTranscriber.Worker.RequestStop | whispers2t_batch_transcriber.py:37-38 | the stop flag is set |
| BatchTranscriber.Worker.LoadArgs | whispers2t_batch_transcriber.py:64-76 | `n_mels=128` iff 'large-v3' occurs in repo_id; `CPU_THREADS` threads on "cpu" and 4 elsewhere; the repo, device, precision and beam size are passed through |
| BatchTranscriber.Worker.EnqueueFiles | whispers2t_batch_transcriber.py:46-56 | the queue grows by the matches, pattern-major in extension order; `total_files` grows by the number enqueued; enumeration is marked done |
| BatchTranscriber.Worker.PutAll | whispers2t_batch_transcriber.py:49-51 | the paths are queued in the order found, each counted once |
| BatchTranscriber.Worker.ProcessFile | whispers2t_batch_transcriber.py:88-100 | the loop body appends exactly `FileEvents` of the file |
| BatchTranscriber.Worker.Drain | whispers2t_batch_transcriber.py:81-100 | the loop takes the first k files in FIFO order, where k is as in the batch processor; the queue keeps the rest; the stop flag ends up set iff a stop arrived |
| BatchTranscriber.Worker.Run | whispers2t_batch_transcriber.py:58-105 | enumerate first, then load, then drain, release and `finished`; a raising loader stops right after the load attempt |
| Common.Lower | whispers2t_batch_transcriber.py:30 | lower-casing keeps the length and lower-cases each ASCII letter |
| Common.HasSubstring | whispers2t_batch_transcriber.py:65 | Python's `in` on strings: the text occurs at some offset |
| Common.StrLeTotal | core/transcription/file_scanner.py:20 | Python's string order is total |
| Common.StrLeTransitive | core/transcription/file_scanner.py:20 | Python's string order is transitive |
| Common.StrLeAntisymmetric | core/transcription/file_scanner.py:20 | Python's string order is antisymmetric |
| Common.Dedup | config/constants.py:57 | `OrderedDict.fromkeys` keeps each element once and nothing else |
| Common.DedupFirstAppearanceOrder | config/constants.py:57 | the deduplicated list follows first-appearance order |
| Common.NatText | whispers2t_batch_transcriber.py:89 | `str(n)` is decimal digits without a leading zero |
| Common.NatTextRoundTrip | whispers2t_batch_transcriber.py:89 | reading the digits back gives n |
| MonitoringStore.Recorded | core/monitoring/metrics_store.py:19-21 | appending grows the history by one, unless the buffer was already full |
| MonitoringStore.RecordedWithinBuffer | core/monitoring/metrics_store.py:19-21 | with buffer_size ≥ 0, a history within the buffer stays within it |
| MonitoringStore.RecordedNewestLast | core/monitoring/metrics_store.py:19-21 | the new sample is last; the history is empty only when it was empty and buffer_size < 1 |
| MonitoringStore.RecordedEvictsOldest | core/monitoring/metrics_store.py:19-21 | when full, exactly the oldest sample is dropped and the others keep their order; otherwise the old history is an untouched prefix |
| MonitoringStore.Latest | core/monitoring/metrics_store.py:46-49 | the last sample, or None for an empty history |
| MonitoringStore.LatestAfterRecorded | core/monitoring/metrics_store.py:16-49 | with room for one sample, the latest is the sample just added |
| MonitoringStore.RemoveFirst | core/monitoring/metrics_store.py:29-33 | an absent callback changes nothing; a present one removes exactly one copy |
| MonitoringStore.RemoveFirstSplits | core/monitoring/metrics_store.py:32-33 | the copy removed is the first occurrence, and the rest keep their order |
| MonitoringStore.SubscribeThenUnsubscribe | core/monitoring/metrics_store.py:24-33 | subscribing then unsubscribing a new callback restores the list; for a duplicate, the earlier registration goes |
| MonitoringStore.NotifiedCallsEveryone | core/monitoring/metrics_store.py:35-44 | every subscriber of the snapshot is called once, in order, with the sample; a raising one is reported and the rest are still called |
| MonitoringStore.NotifiedStep | core/monitoring/metrics_store.py:40-44 | one more subscriber adds its own call at the end |
| MonitoringStore.MetricsStore.constructor | core/monitoring/metrics_store.py:10-14 | the buffer size is the argument, 100 when it is omitted; the history and the subscriber list start empty |
| MonitoringStore.MetricsStore.AddMetrics | core/monitoring/metrics_store.py:16-22 | the history is `Recorded`; the subscribers are unchanged; all of them are notified |
| MonitoringStore.MetricsStore.Subscribe | core/monitoring/metrics_store.py:24-27 | the callback is appended, duplicates allowed |
| MonitoringStore.MetricsStore.Unsubscribe | core/monitoring/metrics_store.py:29-33 | the list becomes `RemoveFirst` of the old list |
| MonitoringStore.MetricsStore.NotifySubscribers | core/monitoring/metrics_store.py:35-44 | the calls are those of `Notified` over the snapshot |
| MonitoringStore.MetricsStore.GetLatestMetrics | core/monitoring/metrics_store.py:46-49 | returns `Latest` of the history |
| MonitoringStore.MetricsStore.Clear | core/monitoring/metrics_store.py:51-54 | the history becomes empty; the subscribers are left alone |
| Visualizations.PyMax | gui/widgets/visualizations.py:292 | Python's `max` of two numbers is the larger of them |
| Visualizations.PyMin | gui/widgets/visualizations.py:292 | Python's `min` of two numbers is the smaller of them |
| Visualizations.Windowed | gui/widgets/visualizations.py:123-125 | the window holds `max_values` values once full, and otherwise grows by one |
| Visualizations.WindowedKeepsNewest | gui/widgets/visualizations.py:115-125 | the window never exceeds `max_values`; it is a suffix of the old values plus the new one; the new value is last unless `max_values` is 0 |
| Visualizations.WindowedDropsOldest | gui/widgets/visualizations.py:123-125 | a full window drops exactly its oldest value; one with room only grows |
| Visualizations.Clamped | gui/widgets/visualizations.py:290-292 | lies in [min, max] when min ≤ max; in-range values are kept; below or above give the bound; min > max gives min |
| Visualizations.ClampedIdempotent | gui/widgets/visualizations.py:290-292 | setting the value shown changes nothing |
| Visualizations.ArcLevel | gui/widgets/visualizations.py:454-456 | lies in [0, 100]; in-range values are kept; out-of-range values give the nearer bound |
| Visualizations.ArcLevelIsClamp | gui/widgets/visualizations.py:454-456 | the arc's min-of-max equals the speedometer clamp over [0, 100], and is idempotent |
| Visualizations.Sparkline.constructor | gui/widgets/visualizations.py:115-118 | the window is empty, with `max_values` 125 by default |
| Visualizations.Sparkline.AddValue | gui/widgets/visualizations.py:123-125 | the values become `Windowed` of the old values |
| Visualizations.Speedometer.constructor | gui/widgets/visualizations.py:281-286 | range 0..100 by default, current value 0 |
| Visualizations.Speedometer.SetValue | gui/widgets/visualizations.py:290-292 | the value stored is `Clamped` |
| Visualizations.ArcGraph.constructor | gui/widgets/visualizations.py:447-450 | the value starts at 0 |
| Visualizations.ArcGraph.SetValue | gui/widgets/visualizations.py:454-456 | the value stored is `ArcLevel` |
| MetricsBar.FirstRaising | metrics_bar.py:60-61 | the position of the first raising subscriber, or the length: everyone before it does not raise |
| MetricsBar.Reached | metrics_bar.py:60-61 | at most all subscribers are reached |
| MetricsBar.UnisolatedStopsAtFirstFailure | metrics_bar.py:56-61 | the subscribers called are the first ones, in order, up to and including the first that raises; all but the last succeed; an exception escapes iff some subscriber raises, and it belongs to the last one called; with none raising, everyone is called |
| MetricsBar.MetricsStore.constructor | metrics_bar.py:34-38 | the buffer size is the argument, 100 when it is omitted; the history and the subscriber list start empty |
| MetricsBar.MetricsStore.AddMetrics | metrics_bar.py:40-45 | the history is `Recorded` before any callback runs; the subscribers up to the first raising one are called; its exception is returned |
| MetricsBar.MetricsStore.Subscribe | metrics_bar.py:47-49 | the callback is appended |
| MetricsBar.MetricsStore.Unsubscribe | metrics_bar.py:51-54 | the first occurrence is removed if present; otherwise nothing changes |
| MetricsBar.MetricsStore.NotifySubscribers | metrics_bar.py:56-61 | the snapshot is walked in order until the first exception, which is handed back |
| MetricsBar.Sparkline.constructor | metrics_bar.py:222-225 | the window is empty, with `max_values` 125 by default |
| MetricsBar.Sparkline.AddValue | metrics_bar.py:230-231 | the values become `Windowed` of the old values |
| MetricsBar.Speedometer.constructor | metrics_bar.py:363-367 | range 0..100 by default, current value 0 |
| MetricsBar.Speedometer.SetValue | metrics_bar.py:371-372 | the value stored is `Clamped` |
| MetricsBar.ArcGraph.constructor | metrics_bar.py:510-514 | the value starts at 0 |
| MetricsBar.ArcGraph.SetValue | metrics_bar.py:518-519 | the value stored is `ArcLevel` |
| MetricsBar.Switched | metrics_bar.py:694-713 | afterwards the visualization type is the requested index |
| MetricsBar.SwitchedProperties | metrics_bar.py:694-713 | choosing the current index is a no-op; a new index in 0..3 shows a live widget of that kind; a new index outside 0..3 disposes the old widget and shows nothing new; choosing twice is the same as choosing once |
| MetricsBar.MenuChoicesShowLiveWidget | metrics_bar.py:680-713 | from the initial sparkline display, any series of menu choices (indices 0..3) leaves a live widget of the selected kind on show |
| MetricsBar.Bar.constructor | metrics_bar.py:649-651 | the bar starts on the sparkline visualization |
| MetricsBar.Bar.ChangeVisualization | metrics_bar.py:694-713 | the display becomes `Switched` of the old display |

## Left out

- Speech library: `whisper_s2t.load_model`, `transcribe_with_vad` and `write_outputs` are calls recorded in the traces; their success is an input.
- Threads and locks: `QThread`, `QMutex`, `threading.Lock`, `threading.Event` and the queue's timeout are left out. Locked regions are atomic, and a stop request is an input giving the iteration before which it arrives.
- Callback re-entrancy: a metrics subscriber that subscribes or unsubscribes while it is being notified is not modelled. The snapshot makes such changes invisible to the current notification anyway.
- Timing: `QElapsedTimer` and the processing-time text of `finished` are left out. `finished` is an event without its text.
- Printing: the coloured console copy of a transcriber error and the printed subscriber error of the monitoring store are left out.
- `Queue.task_done` has no observable effect in this program and is left out.
- Model release: `del`, `torch.cuda.empty_cache()` and `gc.collect()` are one `Release` event in the transcriber and one `Release` operation in the model manager.
- Loader exception text: a failing loader is an input flag in the batch processor and the transcriber.
- BatchTranscriber.Worker.constructor: takes the catalog entry rather than the key, so the KeyError raised by an unknown key is not modelled there. `Constants.Lookup` models that lookup for the model manager.
- BatchTranscriber.Worker.constructor: the imported `get_logical_core_count` is not defined in utilities.py, and the stand-alone script imports a top-level `constants` module. The model uses the utils/system_utils.py definition and the config/constants.py catalog.
- BatchProcessor.Processor.Run: the outer `except` that reports "Processing failed" is not modelled. Every exception inside it is either caught per file or turned into None by the manager.
- BatchProcessor.SuffixErrorText and BatchTranscriber.ReportText: Python's `repr` quoting of suffixes and paths and the text of a path's `str` are approximated. The text is put between single quotes with no escaping (`Common.PyRepr` is used for the KeyError message only), and paths are joined with "/".
- Common.PyRepr: ASCII only. Python also escapes non-printable non-ASCII characters as `\x`, `\u` or `\U`; the model leaves every character from code 128 up unchanged.
- Common.Lower: lower-cases ASCII letters only. Python's full Unicode case mapping is not modelled.
- Paths: POSIX paths only. A path is the sequence of its parts, and pathlib's flavour-specific normalisation is left out.
- FileScanner.Glob: `*{ext}` is read as "the name ends with ext". Wildcards inside an extension, case rules, hidden files and the traversal order of `rglob` are left out. The directory is an input tree.
- Visualizations.Sparkline.constructor: `max_values` is a natural number. The ValueError that `deque` raises for a negative `maxlen` is not modelled.
- Visualizations: values are `real`. Floating-point rounding and NaN, for which Python's `max` and `min` depend on argument order, are not modelled.
- Painting, colours, gradients, pixmap caches and layouts of the widgets are left out. `MetricsBar.Bar` keeps only the selected index and whether the shown widget is live or disposed.
- Metrics collection: `MetricsCollector` and the psutil and NVML readers are left out. Samples are an arbitrary type.
- Subscriber identity: Python compares callbacks with `==`; the model uses an equality type.
