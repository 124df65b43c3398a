/**
 * ModelRegistry (nemo_guardrails_cai/models/registry.py): the one name -> service
 * dictionary that the guardrail actions and the model service read. Pure functions
 * over a `Snapshot` (each name with its service's state) state what the registry's
 * operations mean; the class's methods are proved against them.
 */
module Registry {
  import opened Wrappers
  import opened HuggingFace

  /** What the registry holds, as a value: each name with its service's state. */
  type Snapshot = map<string, ServiceState>

  const SupportedType: string := "huggingface"

  /** The state a freshly registered service is left in. */
  function Registered(config: ModelConfig, autoLoad: bool, cudaAvailable: bool, mpsAvailable: bool, step: LoadStep)
    : ServiceState
  {
    if autoLoad then LoadOutcome(InitialState(config), cudaAvailable, mpsAvailable, step).state
    else InitialState(config)
  }

  /** `register_model` on a snapshot: an unsupported type raises ValueError, a failed
      automatic load lets its exception through, and otherwise the name is bound to the
      new service, replacing any earlier one, with every other name untouched. */
  function RegisterOutcome(snap: Snapshot, name: string, modelType: string, config: ModelConfig, autoLoad: bool,
                           cudaAvailable: bool, mpsAvailable: bool, step: LoadStep): (r: Result<Snapshot, PyError>)
    ensures modelType != SupportedType ==> r == Err(ValueError("Unsupported model type: " + modelType))
    ensures r.Ok? <==> modelType == SupportedType
                       && (!autoLoad || LoadOutcome(InitialState(config), cudaAvailable, mpsAvailable, step).error.None?)
    ensures r.Ok? ==> && r.value.Keys == snap.Keys + {name}
                      && r.value[name].IsLoaded() == autoLoad
                      && r.value[name] == Registered(config, autoLoad, cudaAvailable, mpsAvailable, step)
                      && forall n :: n in snap && n != name ==> r.value[n] == snap[n]
  {
    if modelType != SupportedType then Err(ValueError("Unsupported model type: " + modelType))
    else if autoLoad then
      var loaded := LoadOutcome(InitialState(config), cudaAvailable, mpsAvailable, step);
      if loaded.error.Some? then Err(loaded.error.value)
      else Ok(snap[name := loaded.state])
    else Ok(snap[name := InitialState(config)])
  }

  /** The registry after a call of `register_model`, whether it returns or raises. */
  function Registering(snap: Snapshot, name: string, modelType: string, config: ModelConfig, autoLoad: bool,
                       cudaAvailable: bool, mpsAvailable: bool, step: LoadStep): Snapshot
  {
    match RegisterOutcome(snap, name, modelType, config, autoLoad, cudaAvailable, mpsAvailable, step)
    case Ok(after) => after
    case Err(_) => snap
  }

  /** `get_model` on a snapshot. */
  function Lookup(snap: Snapshot, name: string): (r: Option<ServiceState>)
    ensures r.Some? <==> name in snap
    ensures r.Some? ==> r.value == snap[name]
  {
    if name in snap then Some(snap[name]) else None
  }

  /** `predict` on a snapshot: ValueError for an unknown name, RuntimeError for a model
      that is not loaded, otherwise the model's `predict_single`. */
  function RegistryPredict(snap: Snapshot, name: string, classify: Classifier, text: string)
    : (r: Result<Prediction, PyError>)
    ensures name !in snap ==> r == Err(ValueError("Model '" + name + "' not found in registry"))
    ensures name in snap && !snap[name].IsLoaded() ==> r == Err(RuntimeError("Model '" + name + "' is not loaded"))
    ensures name in snap && snap[name].IsLoaded() ==> r == PredictSingleSpec(snap[name], classify, text)
    ensures r.Ok? ==> name in snap && snap[name].IsLoaded()
  {
    match Lookup(snap, name)
    case None => Err(ValueError("Model '" + name + "' not found in registry"))
    case Some(s) =>
      if !s.IsLoaded() then Err(RuntimeError("Model '" + name + "' is not loaded"))
      else PredictSingleSpec(s, classify, text)
  }

  /** `health_check`'s dict. */
  datatype RegistryHealth = RegistryHealth(totalModels: nat, models: map<string, Health>)

  function HealthReport(snap: Snapshot): (h: RegistryHealth)
    ensures h.totalModels == |snap| && h.models.Keys == snap.Keys
    ensures forall n :: n in snap ==> h.models[n] == HealthOf(snap[n])
  {
    RegistryHealth(|snap|, map n | n in snap :: HealthOf(snap[n]))
  }

  /** One entry of `list_models`. */
  datatype ModelInfo = ModelInfo(serviceType: string, loaded: bool, modelName: Option<string>, device: string)

  function ModelList(snap: Snapshot): (m: map<string, ModelInfo>)
    ensures m.Keys == snap.Keys
    ensures forall n :: n in snap ==> m[n] == ModelInfo(ServiceClass, snap[n].IsLoaded(), snap[n].modelName, snap[n].device)
  {
    map n | n in snap :: ModelInfo(ServiceClass, snap[n].IsLoaded(), snap[n].modelName, snap[n].device)
  }

  /** What `pop(key, default)` finds: no key, a key set to null, or a value. */
  datatype Popped<T> = Absent | Null | Given(value: T)

  /** One entry of the `models` section: `type` and `auto_load` (popped before the rest
      of the dict is handed to the service) and the service configuration. */
  datatype ModelEntry = ModelEntry(modelType: Popped<string>, autoLoad: Popped<bool>, config: ModelConfig)

  /** `pop("type", "huggingface")` as `register_model` compares and formats it: a null
      type is `None`, which is never "huggingface" and reads "None" in the message. */
  function TypeOf(entry: ModelEntry): (t: string)
    ensures t == SupportedType <==> entry.modelType.Absent? || entry.modelType == Given(SupportedType)
  {
    match entry.modelType
    case Absent => SupportedType
    case Null => "None"
    case Given(t) => t
  }

  /** `pop("auto_load", True)` as `if auto_load:` reads it: null is falsy. */
  function AutoLoadOf(entry: ModelEntry): (load: bool)
    ensures load <==> entry.autoLoad.Absent? || entry.autoLoad == Given(true)
  {
    match entry.autoLoad
    case Absent => true
    case Null => false
    case Given(b) => b
  }

  /** `load_from_config` on a snapshot: each entry is registered in turn, type defaulting
      to "huggingface" and auto_load to true; an entry that fails is skipped. */
  function ConfigOutcome(snap: Snapshot, section: seq<(string, ModelEntry)>, cudaAvailable: bool, mpsAvailable: bool,
                         steps: string -> LoadStep): Snapshot
    decreases |section|
  {
    if section == [] then snap
    else
      var before := ConfigOutcome(snap, section[..|section| - 1], cudaAvailable, mpsAvailable, steps);
      ConfigStep(before, section[|section| - 1].0, section[|section| - 1].1, cudaAvailable, mpsAvailable, steps)
  }

  /** One iteration of `load_from_config`, with the entry's defaults filled in. */
  function ConfigStep(before: Snapshot, name: string, entry: ModelEntry, cudaAvailable: bool, mpsAvailable: bool,
                      steps: string -> LoadStep): Snapshot
  {
    Registering(before, name, TypeOf(entry), entry.config, AutoLoadOf(entry),
                cudaAvailable, mpsAvailable, steps(name))
  }

  /** Whether registering this entry goes through. */
  predicate EntrySucceeds(name: string, entry: ModelEntry, cudaAvailable: bool, mpsAvailable: bool, steps: string -> LoadStep) {
    var autoLoad := AutoLoadOf(entry);
    && TypeOf(entry) == SupportedType
    && (!autoLoad || LoadOutcome(InitialState(entry.config), cudaAvailable, mpsAvailable, steps(name)).error.None?)
  }

  /** After `load_from_config` the registry holds the names it held before and exactly
      those configured names whose registration went through; a failing entry does not
      keep the others from being registered, and names not configured keep their services. */
  lemma ConfigOutcomeNames(snap: Snapshot, section: seq<(string, ModelEntry)>, cudaAvailable: bool,
                           mpsAvailable: bool, steps: string -> LoadStep)
    ensures var out := ConfigOutcome(snap, section, cudaAvailable, mpsAvailable, steps);
      && (forall n :: n in out <==> n in snap || exists i :: 0 <= i < |section| && section[i].0 == n
                                                         && EntrySucceeds(n, section[i].1, cudaAvailable, mpsAvailable, steps))
      && (forall n :: n in snap && (forall i :: 0 <= i < |section| ==> section[i].0 != n) ==> out[n] == snap[n])
  {
    ConfigOutcomeDomain(snap, section, cudaAvailable, mpsAvailable, steps);
    ConfigOutcomeKeeps(snap, section, cudaAvailable, mpsAvailable, steps);
  }

  lemma ConfigOutcomeDomain(snap: Snapshot, section: seq<(string, ModelEntry)>, cudaAvailable: bool,
                            mpsAvailable: bool, steps: string -> LoadStep)
    ensures forall n :: n in ConfigOutcome(snap, section, cudaAvailable, mpsAvailable, steps) <==>
                        n in snap || exists i :: 0 <= i < |section| && section[i].0 == n
                                                && EntrySucceeds(n, section[i].1, cudaAvailable, mpsAvailable, steps)
  {
    ConfigOutcomeKeys(snap, section, cudaAvailable, mpsAvailable, steps);
    SucceededNamesIff(section, cudaAvailable, mpsAvailable, steps);
  }

  /** The configured names whose registration goes through. */
  function SucceededNames(section: seq<(string, ModelEntry)>, cudaAvailable: bool, mpsAvailable: bool,
                          steps: string -> LoadStep): set<string>
    decreases |section|
  {
    if section == [] then {}
    else
      var last := section[|section| - 1];
      SucceededNames(section[..|section| - 1], cudaAvailable, mpsAvailable, steps)
        + (if EntrySucceeds(last.0, last.1, cudaAvailable, mpsAvailable, steps) then {last.0} else {})
  }

  lemma {:induction false} ConfigOutcomeKeys(snap: Snapshot, section: seq<(string, ModelEntry)>, cudaAvailable: bool,
                                             mpsAvailable: bool, steps: string -> LoadStep)
    ensures ConfigOutcome(snap, section, cudaAvailable, mpsAvailable, steps).Keys
         == snap.Keys + SucceededNames(section, cudaAvailable, mpsAvailable, steps)
    decreases |section|
  {
    if section != [] {
      var init := section[..|section| - 1];
      ConfigOutcomeKeys(snap, init, cudaAvailable, mpsAvailable, steps);
      var last := |section| - 1;
      ConfigStepNames(ConfigOutcome(snap, init, cudaAvailable, mpsAvailable, steps), section[last].0, section[last].1,
                      cudaAvailable, mpsAvailable, steps);
    }
  }

  lemma {:induction false} SucceededNamesIff(section: seq<(string, ModelEntry)>, cudaAvailable: bool,
                                             mpsAvailable: bool, steps: string -> LoadStep)
    ensures forall n :: n in SucceededNames(section, cudaAvailable, mpsAvailable, steps) <==>
                        exists i :: 0 <= i < |section| && section[i].0 == n
                                    && EntrySucceeds(n, section[i].1, cudaAvailable, mpsAvailable, steps)
    decreases |section|
  {
    if section != [] {
      var init := section[..|section| - 1];
      SucceededNamesIff(init, cudaAvailable, mpsAvailable, steps);
      assert forall i :: 0 <= i < |init| ==> init[i] == section[i];
      var last := |section| - 1;
      assert forall n :: (exists i :: 0 <= i < |section| && section[i].0 == n
                                     && EntrySucceeds(n, section[i].1, cudaAvailable, mpsAvailable, steps))
                         <==> ((exists i :: 0 <= i < |init| && init[i].0 == n
                                     && EntrySucceeds(n, init[i].1, cudaAvailable, mpsAvailable, steps))
                               || (section[last].0 == n && EntrySucceeds(n, section[last].1, cudaAvailable, mpsAvailable, steps)));
    }
  }

  lemma {:induction false} ConfigOutcomeKeeps(snap: Snapshot, section: seq<(string, ModelEntry)>, cudaAvailable: bool,
                                              mpsAvailable: bool, steps: string -> LoadStep)
    ensures var out := ConfigOutcome(snap, section, cudaAvailable, mpsAvailable, steps);
      forall n :: n in snap && (forall i :: 0 <= i < |section| ==> section[i].0 != n) ==> n in out && out[n] == snap[n]
    decreases |section|
  {
    if section != [] {
      var init := section[..|section| - 1];
      ConfigOutcomeKeeps(snap, init, cudaAvailable, mpsAvailable, steps);
      assert forall i :: 0 <= i < |init| ==> init[i] == section[i];
      var last := |section| - 1;
      ConfigStepNames(ConfigOutcome(snap, init, cudaAvailable, mpsAvailable, steps), section[last].0, section[last].1,
                      cudaAvailable, mpsAvailable, steps);
    }
  }

  /** One entry of `load_from_config` adds its name exactly when registering it goes
      through and leaves every other name as it was. */
  lemma ConfigStepNames(before: Snapshot, name: string, entry: ModelEntry, cudaAvailable: bool, mpsAvailable: bool,
                        steps: string -> LoadStep)
    ensures var after := ConfigStep(before, name, entry, cudaAvailable, mpsAvailable, steps);
      && (forall n :: n in after <==> n in before || (n == name && EntrySucceeds(name, entry, cudaAvailable, mpsAvailable, steps)))
      && (forall n :: n in before && n != name ==> after[n] == before[n])
  {
  }

  /** A `type` set to null is rejected as "None" and the entry is skipped; an `auto_load`
      set to null registers the model without loading it. */
  lemma NullSettings(before: Snapshot, name: string, entry: ModelEntry, cudaAvailable: bool, mpsAvailable: bool,
                     steps: string -> LoadStep)
    ensures entry.modelType.Null? ==>
              && RegisterOutcome(before, name, TypeOf(entry), entry.config, AutoLoadOf(entry), cudaAvailable,
                                 mpsAvailable, steps(name)) == Err(ValueError("Unsupported model type: None"))
              && ConfigStep(before, name, entry, cudaAvailable, mpsAvailable, steps) == before
    ensures entry.autoLoad.Null? && TypeOf(entry) == SupportedType ==>
              var after := ConfigStep(before, name, entry, cudaAvailable, mpsAvailable, steps);
              name in after && !after[name].IsLoaded() && after[name] == InitialState(entry.config)
  {
    assert "Unsupported model type: " + "None" == "Unsupported model type: None";
  }

  /** The service `register_model` creates, loaded when `auto_load` is set. */
  method NewService(config: ModelConfig, autoLoad: bool, cudaAvailable: bool, mpsAvailable: bool, step: LoadStep)
    returns (service: HuggingFaceModelService, error: Option<PyError>)
    ensures fresh(service)
    ensures error.None? <==> !autoLoad || LoadOutcome(InitialState(config), cudaAvailable, mpsAvailable, step).error.None?
    ensures error.Some? ==> error == LoadOutcome(InitialState(config), cudaAvailable, mpsAvailable, step).error
    ensures error.None? ==> service.State() == Registered(config, autoLoad, cudaAvailable, mpsAvailable, step)
  {
    service := new HuggingFaceModelService(config);
    error := None;
    if autoLoad {
      error := service.Load(cudaAvailable, mpsAvailable, step);
    }
  }

  /** No service object is bound to two names. */
  predicate Distinct(m: map<string, HuggingFaceModelService>) {
    forall a, b :: a in m && b in m && a != b ==> m[a] != m[b]
  }

  /** The registry object; the source's class-level dictionary is this one instance. */
  class ModelRegistry {
    var models: map<string, HuggingFaceModelService>

    /** Every name has a service of its own: `register_model` always creates a new one. */
    predicate Valid()
      reads this
    {
      Distinct(models)
    }

    function Snapshot(): Snapshot
      reads this, models.Values
    {
      map n | n in models :: models[n].State()
    }

    constructor()
      ensures Valid() && models == map[]
    {
      models := map[];
    }

    /** `register_model` */
    method RegisterModel(name: string, modelType: string, config: ModelConfig, autoLoad: bool,
                         cudaAvailable: bool, mpsAvailable: bool, step: LoadStep)
      returns (r: Result<HuggingFaceModelService, PyError>)
      requires Valid()
      modifies this
      ensures Valid()
      ensures Snapshot() == Registering(old(Snapshot()), name, modelType, config, autoLoad, cudaAvailable, mpsAvailable, step)
      ensures r.Ok? <==> RegisterOutcome(old(Snapshot()), name, modelType, config, autoLoad, cudaAvailable, mpsAvailable, step).Ok?
      ensures r.Ok? ==> fresh(r.value) && models == old(models)[name := r.value]
      ensures r.Err? ==> models == old(models)
      ensures r.Err? ==>
        r.error == RegisterOutcome(old(Snapshot()), name, modelType, config, autoLoad, cudaAvailable, mpsAvailable, step).error
    {
      if modelType != SupportedType {
        return Err(ValueError("Unsupported model type: " + modelType));
      }
      var service, error := NewService(config, autoLoad, cudaAvailable, mpsAvailable, step);
      if error.Some? {
        return Err(error.value);
      }
      Bind(name, service);
      r := Ok(service);
    }

    /** Binds `name` to a service the registry does not hold yet. */
    method Bind(name: string, service: HuggingFaceModelService)
      requires Valid() && service !in models.Values
      modifies this
      ensures Valid() && models == old(models)[name := service]
      ensures Snapshot() == old(Snapshot())[name := service.State()]
    {
      models := models[name := service];
    }

    /** `get_model` */
    function GetModel(name: string): (r: Option<HuggingFaceModelService>)
      reads this
      ensures r.Some? <==> name in models
      ensures r.Some? ==> r.value == models[name]
    {
      if name in models then Some(models[name]) else None
    }

    /** `unregister_model`: a registered name is unloaded and removed, and only it. */
    method UnregisterModel(name: string) returns (removed: bool)
      requires Valid()
      modifies this, if name in models then {models[name]} else {}
      ensures Valid()
      ensures removed <==> name in old(models)
      ensures models == old(models) - {name}
      ensures removed ==> old(models)[name].State() == Unloaded(old(models[name].State()))
      ensures Snapshot() == old(Snapshot()) - {name}
    {
      if name in models {
        var model := models[name];
        model.Unload();
        models := models - {name};
        return true;
      }
      return false;
    }

    /** `unregister_all`: `unregister_model` on every registered name; every service is
        unloaded and the registry ends empty. */
    method UnregisterAll()
      requires Valid()
      modifies this, models.Values
      ensures Valid() && models == map[]
      ensures forall s :: s in old(models.Values) ==> s.State() == Unloaded(old(s.State()))
    {
      ghost var before := models;
      ghost var initial := Snapshot();
      while models != map[]
        invariant models.Keys <= before.Keys && Distinct(before)
        invariant forall n :: n in models ==> models[n] == before[n]
        invariant UnloadedExcept(before, initial)
        decreases models.Keys
      {
        var n :| n in models;
        RemoveOne(n, before, initial);
      }
    }

    /** The services in `before` that are no longer registered are unloaded; the others
        are as they were. */
    ghost predicate UnloadedExcept(before: map<string, HuggingFaceModelService>, initial: Snapshot)
      reads this, before.Values
    {
      && before.Keys == initial.Keys
      && forall n :: n in before ==> before[n].State() == if n in models then initial[n] else Unloaded(initial[n])
    }

    /** One iteration of `unregister_all`: the body of `unregister_model` for a present name. */
    method RemoveOne(n: string, ghost before: map<string, HuggingFaceModelService>, ghost initial: Snapshot)
      requires n in models && models.Keys <= before.Keys && Distinct(before)
      requires forall m :: m in models ==> models[m] == before[m]
      requires UnloadedExcept(before, initial)
      modifies this, models[n]
      ensures models == old(models) - {n}
      ensures UnloadedExcept(before, initial)
    {
      var service := models[n];
      service.Unload();
      models := models - {n};
      forall m | m in before && m != n
        ensures before[m].State() == if m in models then initial[m] else Unloaded(initial[m])
      {
        assert before[m] != service;
      }
    }

    /** `predict` */
    method Predict(name: string, classify: Classifier, text: string) returns (r: Result<Prediction, PyError>)
      ensures r == RegistryPredict(Snapshot(), name, classify, text)
    {
      var model := GetModel(name);
      if model.None? {
        return Err(ValueError("Model '" + name + "' not found in registry"));
      }
      if model.value.model.None? {
        return Err(RuntimeError("Model '" + name + "' is not loaded"));
      }
      r := model.value.PredictSingle(classify, text);
    }

    /** `load_from_config`; `remaining` is each entry's dict after the two pops. */
    method LoadFromConfig(section: seq<(string, ModelEntry)>, cudaAvailable: bool, mpsAvailable: bool,
                          steps: string -> LoadStep)
      returns (remaining: seq<(string, ModelEntry)>)
      requires Valid()
      modifies this
      ensures Valid()
      ensures Snapshot() == ConfigOutcome(old(Snapshot()), section, cudaAvailable, mpsAvailable, steps)
      ensures |remaining| == |section|
      ensures forall i :: 0 <= i < |section| ==>
                remaining[i] == (section[i].0, section[i].1.(modelType := Absent, autoLoad := Absent))
    {
      ghost var start := Snapshot();
      remaining := [];
      var i := 0;
      while i < |section|
        invariant i <= |section| && Valid()
        invariant Snapshot() == ConfigOutcome(start, section[..i], cudaAvailable, mpsAvailable, steps)
        invariant |remaining| == i
        invariant forall j :: 0 <= j < i ==>
                    remaining[j] == (section[j].0, section[j].1.(modelType := Absent, autoLoad := Absent))
      {
        assert section[..i + 1][..i] == section[..i];
        var (name, entry) := section[i];
        var modelType := TypeOf(entry);
        var autoLoad := AutoLoadOf(entry);
        remaining := remaining + [(name, entry.(modelType := Absent, autoLoad := Absent))];
        var _ := RegisterModel(name, modelType, entry.config, autoLoad, cudaAvailable, mpsAvailable, steps(name));
        i := i + 1;
      }
      assert section[..i] == section;
    }
  }
}
