/** The single-slot model cache (core/models/manager.py). The manager holds
    at most one loaded speech model together with the configuration it was
    loaded for. The loader and the release of a model are recorded as
    operations; whether the loader succeeds, and the text of its exception,
    are inputs. */
module ModelManager {
  import opened Common
  import SystemUtils
  import Constants

  /** The cache key: exactly these four request fields. */
  datatype Config = Config(modelKey: string, device: string, beamSize: int, precision: string)

  /** The arguments handed to `whisper_s2t.load_model`. */
  datatype LoadArgs = LoadArgs(
    repoId: string,
    device: string,
    computeType: string,
    beamSize: int,
    cpuThreads: int,
    nMels: Option<int>)

  /** A loaded model: the loader call that produced it and its position in
      the operation log. */
  datatype Model = Model(serial: nat, args: LoadArgs)

  /** What the manager does to memory: free the held model, or call the
      loader (which may raise). */
  datatype Op = Release | Load(args: LoadArgs, ok: bool)

  /** The `model_loaded` and `model_error` signals. */
  datatype Event = ModelLoaded(modelKey: string, device: string) | ModelError(message: string)

  datatype State = State(model: Option<Model>, config: Option<Config>, ops: seq<Op>, events: seq<Event>)

  /** The arguments of the loader call for `cfg`: the repository of the
      catalog entry, 128 mel bins for the large-v3 family, and the
      manager's thread count on CPU but 4 threads on any other device. */
  function LoadArguments(info: Constants.ModelInfo, cfg: Config, cpuThreads: int): (a: LoadArgs)
    ensures a.nMels.Some? <==> Contains(info.repoId, "large-v3")
    ensures a.nMels.Some? ==> a.nMels.value == 128
    ensures cfg.device == "cpu" ==> a.cpuThreads == cpuThreads
    ensures cfg.device != "cpu" ==> a.cpuThreads == 4
    ensures a.repoId == info.repoId && a.device == cfg.device
    ensures a.computeType == cfg.precision && a.beamSize == cfg.beamSize
  {
    LoadArgs(info.repoId, cfg.device, cfg.precision, cfg.beamSize,
             if cfg.device == "cpu" then cpuThreads else 4,
             if HasSubstring(info.repoId, "large-v3") then Some(128) else None)
  }

  /** `str(KeyError(key))`: the `repr` of the key, which reads back as
      the key between the quotes `repr` chooses. */
  function KeyErrorText(key: string): (r: string)
    ensures |r| >= 2 && r[0] == ReprQuote(key) && r[|r| - 1] == ReprQuote(key)
    ensures Unescaped(r[1..|r| - 1]) == key
  {
    ReprRoundTrip(key);
    PyRepr(key)
  }

  /** Whether a model is in memory after the operations of `ops`. */
  function Resident(ops: seq<Op>): bool
  {
    if ops == [] then false
    else match ops[|ops| - 1]
      case Release => false
      case Load(_, ok) => ok
  }

  /** No load starts while a model is in memory, and nothing is released
      unless a model is in memory: two models never coexist. */
  ghost predicate OneAtATime(ops: seq<Op>)
  {
    (forall i :: 0 <= i < |ops| && ops[i].Load? ==> !Resident(ops[..i])) &&
    (forall i :: 0 <= i < |ops| && ops[i].Release? ==> Resident(ops[..i]))
  }

  /** The manager's invariant: the slot is full exactly when the log says a
      model is in memory, the log keeps one model at a time, and a held
      model is the one loaded for the remembered configuration. */
  ghost predicate Coherent(s: State, catalog: Constants.Catalog, cpuThreads: int)
  {
    s.model.Some? == Resident(s.ops) && OneAtATime(s.ops) &&
    (s.model.Some? ==>
       (s.config.Some? &&
        Constants.Lookup(catalog, s.config.value.modelKey).Some? &&
        s.model.value.args ==
          LoadArguments(Constants.Lookup(catalog, s.config.value.modelKey).value, s.config.value, cpuThreads)))
  }

  /** `_release_current_model`: free the held model, if any. */
  function ReleaseCurrent(s: State): State
  {
    if s.model.Some? then s.(model := None, ops := s.ops + [Release]) else s
  }

  /** The cache is hit when a model is held and the request equals the
      remembered configuration. */
  predicate Hit(s: State, cfg: Config)
  {
    s.model.Some? && s.config == Some(cfg)
  }

  /** `get_or_load_model`: on a hit, return the held model. On a miss,
      release first, then look the key up in the catalog (an unknown key
      raises KeyError) and call the loader; success stores the model and the
      configuration and emits `model_loaded`; any exception emits
      `model_error` and returns None, with the slot left empty and the old
      configuration kept. */
  function GetOrLoad(s: State, cfg: Config, catalog: Constants.Catalog, cpuThreads: int,
                     loadOk: bool, loadError: string): (State, Option<Model>)
  {
    if Hit(s, cfg) then (s, s.model)
    else
      var released := ReleaseCurrent(s);
      match Constants.Lookup(catalog, cfg.modelKey)
      case None =>
        (released.(events := s.events + [ModelError(KeyErrorText(cfg.modelKey))]), None)
      case Some(info) =>
        var args := LoadArguments(info, cfg, cpuThreads);
        var ops := released.ops + [Load(args, loadOk)];
        if loadOk then
          var m := Model(|ops| - 1, args);
          (State(Some(m), Some(cfg), ops, s.events + [ModelLoaded(cfg.modelKey, cfg.device)]), Some(m))
        else
          (released.(ops := ops, events := s.events + [ModelError(loadError)]), None)
  }

  /** The log of a miss: a release exactly when a model was held, then the
      loader call unless the key is unknown. */
  function MissOps(s: State, cfg: Config, catalog: Constants.Catalog, cpuThreads: int, loadOk: bool): seq<Op>
  {
    (if s.model.Some? then [Release] else []) +
    match Constants.Lookup(catalog, cfg.modelKey)
    case None => []
    case Some(info) => [Load(LoadArguments(info, cfg, cpuThreads), loadOk)]
  }

  /** A hit changes nothing and returns the held model. */
  lemma HitReturnsCached(s: State, cfg: Config, catalog: Constants.Catalog, cpuThreads: int,
                         loadOk: bool, loadError: string)
    requires Hit(s, cfg)
    ensures GetOrLoad(s, cfg, catalog, cpuThreads, loadOk, loadError) == (s, s.model)
  {
  }

  /** On a miss the release, if any, comes strictly before the load. */
  lemma MissReleasesThenLoads(s: State, cfg: Config, catalog: Constants.Catalog, cpuThreads: int,
                              loadOk: bool, loadError: string)
    requires !Hit(s, cfg)
    ensures GetOrLoad(s, cfg, catalog, cpuThreads, loadOk, loadError).0.ops
            == s.ops + MissOps(s, cfg, catalog, cpuThreads, loadOk)
  {
  }

  /** A successful load: the model is stored with the requested
      configuration, returned, and announced exactly once. */
  lemma LoadSuccess(s: State, cfg: Config, catalog: Constants.Catalog, cpuThreads: int, loadError: string)
    requires !Hit(s, cfg) && Constants.Lookup(catalog, cfg.modelKey).Some?
    ensures var (t, r) := GetOrLoad(s, cfg, catalog, cpuThreads, true, loadError);
      r.Some? && t.model == r && t.config == Some(cfg) &&
      r.value.args == LoadArguments(Constants.Lookup(catalog, cfg.modelKey).value, cfg, cpuThreads) &&
      t.events == s.events + [ModelLoaded(cfg.modelKey, cfg.device)]
  {
  }

  /** A failed load (unknown key, or the loader raised): None is returned,
      the error is reported, the slot is empty and the configuration is the
      one remembered before. */
  lemma LoadFailure(s: State, cfg: Config, catalog: Constants.Catalog, cpuThreads: int,
                    loadOk: bool, loadError: string)
    requires !Hit(s, cfg)
    requires Constants.Lookup(catalog, cfg.modelKey).None? || !loadOk
    ensures var (t, r) := GetOrLoad(s, cfg, catalog, cpuThreads, loadOk, loadError);
      r.None? && t.model.None? && t.config == s.config &&
      t.events == s.events + [ModelError(
        if Constants.Lookup(catalog, cfg.modelKey).None? then KeyErrorText(cfg.modelKey) else loadError)]
  {
  }

  /** After a failure the slot is empty, so the next request, even the same
      one, is a miss and calls the loader again. */
  lemma FailureForcesReload(s: State, cfg: Config, catalog: Constants.Catalog, cpuThreads: int,
                            loadError: string, next: Config, nextOk: bool, nextError: string)
    requires !Hit(s, cfg) && Constants.Lookup(catalog, cfg.modelKey).Some?
    requires Constants.Lookup(catalog, next.modelKey).Some?
    ensures var t := GetOrLoad(s, cfg, catalog, cpuThreads, false, loadError).0;
      !Hit(t, next) &&
      GetOrLoad(t, next, catalog, cpuThreads, nextOk, nextError).0.ops
        == t.ops + [Load(LoadArguments(Constants.Lookup(catalog, next.modelKey).value, next, cpuThreads), nextOk)]
  {
  }

  /** `get_or_load_model` keeps the manager coherent. */
  lemma {:induction false} GetOrLoadCoherent(s: State, cfg: Config, catalog: Constants.Catalog, cpuThreads: int,
                                             loadOk: bool, loadError: string)
    requires Coherent(s, catalog, cpuThreads)
    ensures Coherent(GetOrLoad(s, cfg, catalog, cpuThreads, loadOk, loadError).0, catalog, cpuThreads)
  {
    if !Hit(s, cfg) {
      var released := ReleaseCurrent(s);
      ReleaseCoherent(s, catalog, cpuThreads);
      match Constants.Lookup(catalog, cfg.modelKey)
      case None =>
      case Some(info) =>
        var args := LoadArguments(info, cfg, cpuThreads);
        AppendLoad(released.ops, args, loadOk);
    }
  }

  /** Appending a load to a log with nothing in memory keeps it one at a time. */
  lemma AppendLoad(ops: seq<Op>, args: LoadArgs, ok: bool)
    requires OneAtATime(ops) && !Resident(ops)
    ensures OneAtATime(ops + [Load(args, ok)]) && Resident(ops + [Load(args, ok)]) == ok
  {
    var ops' := ops + [Load(args, ok)];
    assert ops'[..|ops|] == ops;
    assert forall i :: 0 <= i < |ops| ==> ops'[..i] == ops[..i];
  }

  /** Releasing keeps the manager coherent and leaves the slot empty. */
  lemma ReleaseCoherent(s: State, catalog: Constants.Catalog, cpuThreads: int)
    requires Coherent(s, catalog, cpuThreads)
    ensures Coherent(ReleaseCurrent(s), catalog, cpuThreads)
    ensures ReleaseCurrent(s).model.None? && !Resident(ReleaseCurrent(s).ops)
  {
    if s.model.Some? {
      var ops' := s.ops + [Release];
      assert ops'[..|s.ops|] == s.ops;
      assert forall i :: 0 <= i < |s.ops| ==> ops'[..i] == s.ops[..i];
    }
  }

  /** `cleanup` empties the slot, and a second cleanup changes nothing. */
  lemma CleanupIdempotent(s: State)
    ensures ReleaseCurrent(s).model.None?
    ensures ReleaseCurrent(ReleaseCurrent(s)) == ReleaseCurrent(s)
    ensures s.model.None? ==> ReleaseCurrent(s) == s
  {
  }

  class Manager {
    var currentModel: Option<Model>
    var currentConfig: Option<Config>
    /** The log of releases and loader calls, and the signals emitted. */
    var ops: seq<Op>
    var events: seq<Event>
    const cpuThreads: int
    /** The catalog the keys are looked up in (`WHISPER_MODELS`). */
    const catalog: Constants.Catalog

    ghost function Snapshot(): State
      reads this
    {
      State(currentModel, currentConfig, ops, events)
    }

    ghost predicate Valid()
      reads this
    {
      Coherent(Snapshot(), catalog, cpuThreads)
    }

    /** An empty manager whose CPU thread count keeps eight logical cores
        free but is at least 4. */
    constructor (catalog: Constants.Catalog, reportedCores: Option<int>)
      ensures Valid()
      ensures currentModel.None? && currentConfig.None? && ops == [] && events == []
      ensures this.catalog == catalog
      ensures cpuThreads == SystemUtils.OptimalCpuThreads(reportedCores)
    {
      this.catalog := catalog;
      currentModel, currentConfig, ops, events := None, None, [], [];
      var cores := SystemUtils.LogicalCoreCount(reportedCores);
      cpuThreads := if 4 >= cores - 8 then 4 else cores - 8;
    }

    /** `get_or_load_model`, with the lock held for the whole call. */
    method GetOrLoadModel(modelKey: string, device: string, beamSize: int, precision: string,
                          loadOk: bool, loadError: string) returns (r: Option<Model>)
      requires Valid()
      modifies this`currentModel, this`currentConfig, this`ops, this`events
      ensures Valid()
      ensures (Snapshot(), r) ==
        GetOrLoad(old(Snapshot()), Config(modelKey, device, beamSize, precision), catalog, cpuThreads, loadOk, loadError)
    {
      ghost var s := Snapshot();
      var cfg := Config(modelKey, device, beamSize, precision);
      GetOrLoadCoherent(s, cfg, catalog, cpuThreads, loadOk, loadError);
      if currentModel.None? || currentConfig != Some(cfg) {
        ReleaseCurrentModel();
        ghost var released := Snapshot();
        assert released == ReleaseCurrent(s);
        var info := Constants.Lookup(catalog, modelKey);
        if info.None? {
          events := events + [ModelError(KeyErrorText(modelKey))];
          assert Snapshot() == released.(events := s.events + [ModelError(KeyErrorText(modelKey))]);
          return None;
        }
        var args := LoadArguments(info.value, cfg, cpuThreads);
        ops := ops + [Load(args, loadOk)];
        if !loadOk {
          events := events + [ModelError(loadError)];
          assert Snapshot() == released.(ops := ops, events := s.events + [ModelError(loadError)]);
          return None;
        }
        currentModel := Some(Model(|ops| - 1, args));
        currentConfig := Some(cfg);
        events := events + [ModelLoaded(modelKey, device)];
        assert Snapshot() == State(currentModel, Some(cfg), ops, s.events + [ModelLoaded(modelKey, device)]);
      }
      r := currentModel;
    }

    /** `_release_current_model`: a no-op when nothing is held. */
    method ReleaseCurrentModel()
      modifies this`currentModel, this`ops
      ensures Snapshot() == ReleaseCurrent(old(Snapshot()))
    {
      if currentModel.Some? {
        currentModel := None;
        ops := ops + [Release];
      }
    }

    /** `cleanup`: release under the lock. */
    method Cleanup()
      requires Valid()
      modifies this`currentModel, this`ops
      ensures Valid()
      ensures Snapshot() == ReleaseCurrent(old(Snapshot()))
      ensures currentModel.None?
    {
      ReleaseCoherent(Snapshot(), catalog, cpuThreads);
      ReleaseCurrentModel();
    }
  }
}
