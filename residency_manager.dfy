/** `ModelManager`: the table of models resident in device memory.

    `registry` is the static map from model id to file path; `models` maps each resident id to
    its loaded `LlamaBrain`. Whether a path exists on disk and what the `Llama(...)` constructor
    does are parameters: `pathExists` and `construct`. The ghost `log` records, in order, each
    unload and each call of `_load_model`, with the ids resident at that moment. */
module ResidencyManager {
  import opened Outcomes

  type ModelId = string
  type Path = string

  /** The loader arguments `_load_model` passes to `Llama(...)`. */
  const ContextWindow: int := 2048
  const ThreadCount: int := 6
  const GpuLayers: int := -1        // every layer on the device

  datatype LoadParams = LoadParams(path: Path, contextWindow: int, threads: int, gpuLayers: int)

  /** What the `Llama(...)` constructor did: produced a model instance, or raised. */
  datatype LoadAttempt = Constructed(instance: nat) | Crashed(cause: string)

  /** `LlamaBrain(llama_instance, model_id)`. */
  datatype Brain = Brain(modelId: ModelId, instance: nat)

  /** The exceptions `_load_model` raises: `ValueError`, `FileNotFoundError`, or the loader's own
      exception re-raised. */
  datatype LoadError = UnknownModel(modelId: ModelId) | FileMissing(modelId: ModelId, path: Path) | LoadFailed(cause: string)

  datatype Event = Unloaded(modelId: ModelId) | LoadCalled(modelId: ModelId, resident: set<ModelId>)

  function DefaultRegistry(): map<ModelId, Path> {
    map["gemma-3-1b" := "models/gemma-3-1b/google_gemma-3-1b-it-Q4_K_M.gguf"]
  }

  /** The table left by the eviction loop of `safe_load`: every entry other than `keep` removed. */
  function Evicted(models: map<ModelId, Brain>, keep: ModelId): (m: map<ModelId, Brain>)
    ensures forall k :: k in m <==> k in models && k == keep
    ensures forall k :: k in m ==> m[k] == models[k]
    ensures |m| <= 1
  {
    if keep in models then map[keep := models[keep]] else map[]
  }

  /** The arguments `_load_model` passes to `Llama(...)` for a model file. */
  function LoaderArgs(path: Path): LoadParams {
    LoadParams(path, ContextWindow, ThreadCount, GpuLayers)
  }

  /** `_load_model(model_id)` for a given registry, file system and loader. */
  function LoadModel(registry: map<ModelId, Path>, id: ModelId, pathExists: Path -> bool,
                     construct: LoadParams -> LoadAttempt): (r: Result<Brain, LoadError>)
    // `ValueError` for an unregistered id
    ensures r == Err(UnknownModel(id)) <==> id !in registry
    // `FileNotFoundError` for a registered id whose file is missing
    ensures r.Err? && r.error.FileMissing? <==> id in registry && !pathExists(registry[id])
    ensures r.Err? && r.error.FileMissing? ==> r.error == FileMissing(id, registry[id])
    // the loader's own exception, re-raised as is
    ensures r.Err? && r.error.LoadFailed? <==>
              id in registry && pathExists(registry[id]) && construct(LoaderArgs(registry[id])).Crashed?
    ensures id in registry && pathExists(registry[id]) && construct(LoaderArgs(registry[id])).Crashed? ==>
              r == Err(LoadFailed(construct(LoaderArgs(registry[id])).cause))
    // otherwise the brain of this id, wrapping the instance the loader built from the registry path
    ensures r.Ok? <==>
              id in registry && pathExists(registry[id]) && construct(LoaderArgs(registry[id])).Constructed?
    ensures r.Ok? ==> r.value == Brain(id, construct(LoaderArgs(registry[id])).instance)
  {
    if id !in registry then Err(UnknownModel(id))
    else
      var path := registry[id];
      if !pathExists(path) then Err(FileMissing(id, path))
      else match construct(LoaderArgs(path))
        case Constructed(instance) => Ok(Brain(id, instance))
        case Crashed(cause) => Err(LoadFailed(cause))
  }

  /** No two distinct ids are resident at once. */
  ghost predicate AtMostOneResident(models: map<ModelId, Brain>) {
    forall a, b :: a in models && b in models ==> a == b
  }

  lemma AtMostOneResidentSize(models: map<ModelId, Brain>)
    requires AtMostOneResident(models)
    ensures |models| <= 1
  {
    if models != map[] {
      var k :| k in models;
      assert models.Keys == {k};
      assert |models| == |models.Keys|;
    }
  }

  /** `events` unloads each id of `ids` exactly once, and does nothing else. */
  ghost predicate UnloadsExactly(events: seq<Event>, ids: set<ModelId>) {
    && |events| == |ids|
    && (forall i :: 0 <= i < |events| ==> events[i].Unloaded? && events[i].modelId in ids)
    && (forall k :: k in ids ==> Unloaded(k) in events)
  }

  /** `after` is `before` followed by one unload of each id of `ids`. */
  ghost predicate UnloadedSince(before: seq<Event>, after: seq<Event>, ids: set<ModelId>) {
    && |before| <= |after|
    && after[..|before|] == before
    && UnloadsExactly(after[|before|..], ids)
  }

  /** `after` is `before` followed by one unload of each id of `ids`, then one call of the loader
      for `id`, made while nothing was resident. */
  ghost predicate EvictedThenLoadCalled(before: seq<Event>, after: seq<Event>, ids: set<ModelId>, id: ModelId) {
    && |before| < |after|
    && after[|after| - 1] == LoadCalled(id, {})
    && UnloadedSince(before, after[..|after| - 1], ids)
  }

  lemma UnloadOneMore(events: seq<Event>, ids: set<ModelId>, k: ModelId)
    requires UnloadsExactly(events, ids) && k !in ids
    ensures UnloadsExactly(events + [Unloaded(k)], ids + {k})
  {
    var more := events + [Unloaded(k)];
    forall j | j in ids + {k} ensures Unloaded(j) in more {
      if j != k {
        assert Unloaded(j) in events;
      } else {
        assert more[|events|] == Unloaded(k);
      }
    }
  }

  lemma UnloadedSinceOneMore(base: seq<Event>, before: seq<Event>, ids: set<ModelId>, k: ModelId)
    requires UnloadedSince(base, before, ids) && k !in ids
    ensures UnloadedSince(base, before + [Unloaded(k)], ids + {k})
  {
    var after := before + [Unloaded(k)];
    assert after[|base|..] == before[|base|..] + [Unloaded(k)];
    assert after[..|base|] == before[..|base|];
    UnloadOneMore(before[|base|..], ids, k);
  }

  /** What the eviction loop's invariants give once no id remains to be visited. */
  lemma EvictionDone(models: map<ModelId, Brain>, start: map<ModelId, Brain>, keep: ModelId, done: set<ModelId>)
    requires forall k :: k in models <==> k in start && k == keep
    requires forall k :: k in models ==> models[k] == start[k]
    requires forall k :: k in done <==> k in start && k != keep
    ensures models == Evicted(start, keep)
    ensures done == start.Keys - {keep}
  {
  }

  /** The outcome `safe_load` reports for a load attempt, and the table it leaves. */
  function LoadOutcome(load: Result<Brain, LoadError>): Outcome<LoadError> {
    match load
    case Ok(_) => Pass
    case Err(e) => Fail(e)
  }

  function AfterLoad(id: ModelId, load: Result<Brain, LoadError>): map<ModelId, Brain> {
    match load
    case Ok(brain) => map[id := brain]
    case Err(_) => map[]
  }

  class ModelManager {
    const registry: map<ModelId, Path>
    var models: map<ModelId, Brain>
    ghost var log: seq<Event>

    /** At most one model is resident; each resident entry is the brain of its own id, loaded
        from the registry. */
    ghost predicate Valid()
      reads this
    {
      && AtMostOneResident(models)
      && (forall k :: k in models ==> models[k].modelId == k && k in registry)
    }

    /** `__init__()`: the one-entry registry and an empty table. */
    constructor ()
      ensures Valid()
      ensures registry == DefaultRegistry() && models == map[] && log == []
    {
      registry := DefaultRegistry();
      models := map[];
      log := [];
    }

    /** `is_ready()`: some model is resident. */
    function IsReady(): (ready: bool)
      reads this
      requires Valid()
      ensures ready <==> exists k :: k in models
    {
      |models| > 0
    }

    /** `unload_model(model_id)`: removes the entry if present, otherwise does nothing. */
    method Unload(id: ModelId)
      requires Valid()
      modifies this`models, this`log
      ensures Valid() && |models| <= 1
      ensures models == old(models) - {id}
      ensures log == if id in old(models) then old(log) + [Unloaded(id)] else old(log)
    {
      if id in models {
        models := models - {id};
        log := log + [Unloaded(id)];
      }
      AtMostOneResidentSize(models);
    }

    /** Step 1 of `safe_load`: the loop over a snapshot of the resident ids, unloading each one
        that is not `id`. */
    method EvictOthers(id: ModelId)
      requires Valid()
      modifies this`models, this`log
      ensures Valid()
      ensures models == Evicted(old(models), id)
      ensures UnloadedSince(old(log), log, old(models).Keys - {id})
    {
      var start := models;
      var remaining := models.Keys;
      ghost var done: set<ModelId> := {};
      ghost var base := log;
      assert log[|base|..] == [];
      while remaining != {}
        invariant Valid()
        invariant remaining <= start.Keys
        invariant forall k :: k in done <==> k in start && k !in remaining && k != id
        invariant forall k :: k in models <==> k in start && (k in remaining || k == id)
        invariant forall k :: k in models ==> models[k] == start[k]
        invariant UnloadedSince(base, log, done)
        decreases remaining
      {
        var k :| k in remaining;
        remaining := remaining - {k};
        if k != id {
          ghost var before := log;
          Unload(k);
          UnloadedSinceOneMore(base, before, done, k);
          done := done + {k};
        }
      }
      EvictionDone(models, start, id, done);
    }

    /** `safe_load(model_id)`: unloads every other resident model, then loads `model_id` if it is
        not resident. */
    method SafeLoad(id: ModelId, pathExists: Path -> bool, construct: LoadParams -> LoadAttempt)
      returns (r: Outcome<LoadError>)
      requires Valid()
      modifies this`models, this`log
      ensures Valid() && |models| <= 1
      // afterwards nothing but `id` is resident
      ensures forall k :: k in models ==> k == id
      ensures old(id in models) ==>
        && r == Pass && models == Evicted(old(models), id)
        && UnloadedSince(old(log), log, old(models).Keys - {id})
      // every other model is unloaded, then the loader is called once, with nothing resident;
      // if it fails nothing is resident
      ensures !old(id in models) ==>
        && r == LoadOutcome(LoadModel(registry, id, pathExists, construct))
        && models == AfterLoad(id, LoadModel(registry, id, pathExists, construct))
        && EvictedThenLoadCalled(old(log), log, old(models).Keys, id)
    {
      EvictOthers(id);
      if id !in models {
        assert models == map[];
        assert old(models).Keys - {id} == old(models).Keys;
        ghost var evicted := log;
        log := log + [LoadCalled(id, models.Keys)];
        assert log[..|log| - 1] == evicted;
        var load := LoadModel(registry, id, pathExists, construct);
        match load {
          case Ok(brain) =>
            models := models[id := brain];
            r := Pass;
          case Err(e) =>
            r := Fail(e);
        }
      } else {
        r := Pass;
      }
      AtMostOneResidentSize(models);
    }

    /** `get_model(model_id)`: the resident brain of `model_id`, loading it (after evicting the
        others) when it is not resident. The re-check under the lock is kept; with one step at a
        time it always finds the id still absent. */
    method GetModel(id: ModelId, pathExists: Path -> bool, construct: LoadParams -> LoadAttempt)
      returns (r: Result<Brain, LoadError>)
      requires Valid()
      modifies this`models, this`log
      ensures Valid() && |models| <= 1
      // already resident: returned as is, nothing changes, nothing is loaded
      ensures old(id in models) ==> r == Ok(old(models)[id]) && models == old(models) && log == old(log)
      ensures !old(id in models) ==>
        && r == LoadModel(registry, id, pathExists, construct)
        && models == AfterLoad(id, r)
        && EvictedThenLoadCalled(old(log), log, old(models).Keys, id)
      ensures r.Ok? ==> id in models && r.value == models[id] && r.value.modelId == id
    {
      if id !in models {
        if id !in models {
          var loaded := SafeLoad(id, pathExists, construct);
          if loaded.Fail? {
            AtMostOneResidentSize(models);
            return Err(loaded.error);
          }
        }
      }
      r := Ok(models[id]);
      AtMostOneResidentSize(models);
    }
  }
}
