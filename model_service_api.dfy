/**
 * The standalone model service (model_service.py): the `/health` and `/predict`
 * handlers over the registry, and the start-up in `main` that picks the port and
 * registers the one model. FastAPI, uvicorn, argparse and the environment are not
 * modelled: requests, command-line values and `CDSW_APP_PORT` arrive as arguments.
 */
module ModelServiceApi {
  import opened Wrappers
  import opened PyText
  import opened HuggingFace
  import opened Registry

  // ----- /health -----

  datatype HealthResponse = HealthResponse(status: string, models: map<string, Health>)

  /** `GET /health`: "healthy" as soon as one model is registered (loaded or not),
      with every registered model's own health. */
  function HealthEndpoint(snap: Snapshot): (h: HealthResponse)
    ensures h.status == "healthy" <==> snap != map[]
    ensures h.status == "no_models_loaded" <==> snap == map[]
    ensures h.models.Keys == snap.Keys
    ensures forall n :: n in snap ==> h.models[n] == HealthOf(snap[n])
  {
    var health := HealthReport(snap);
    assert snap != map[] ==> |snap| > 0 by {
      if snap != map[] {
        var n :| n in snap;
      }
    }
    HealthResponse(if health.totalModels > 0 then "healthy" else "no_models_loaded", health.models)
  }

  // ----- /predict -----

  datatype PredictionRequest = PredictionRequest(texts: seq<string>, modelName: string)

  /** The request body as pydantic fills it in: `model_name` defaults to "default". */
  function NewRequest(texts: seq<string>, modelName: Option<string>): (r: PredictionRequest)
    ensures r.texts == texts
    ensures modelName.None? ==> r.modelName == "default"
    ensures modelName.Some? ==> r.modelName == modelName.value
  {
    PredictionRequest(texts, modelName.GetOr("default"))
  }

  /** What a handler answers: the predictions with the requested model's name, or an
      `HTTPException`. */
  datatype Response =
    | Predictions(predictions: seq<Prediction>, modelName: string)
    | HttpError(status: int, detail: string)

  /** `str(e)` for the exceptions a loaded model's `predict` can raise. */
  function ErrorText(e: PyError): (text: string)
    ensures (e.ValueError? || e.RuntimeError? || e.LibraryError?) ==> text == e.message
    ensures e.IndexError? ==> text == "list index out of range"
    ensures e.TypeError? ==> text == "'NoneType' object is not callable"
  {
    match e
    case ValueError(m) => m
    case RuntimeError(m) => m
    case IndexError => "list index out of range"
    case TypeError => "'NoneType' object is not callable"
    case LibraryError(m) => m
  }

  /** `POST /predict`: 404 for a name that is not registered, 503 for a model that is
      not loaded, 500 with the error text when the model raises, and otherwise the
      model's predictions with the requested name echoed. */
  function PredictEndpoint(snap: Snapshot, classify: Classifier, req: PredictionRequest): (r: Response)
    ensures r.HttpError? ==> r.status in {404, 503, 500}
    ensures r == HttpError(404, "Model '" + req.modelName + "' not found") <==> req.modelName !in snap
    ensures r == HttpError(503, "Model '" + req.modelName + "' is not loaded") <==>
      req.modelName in snap && !snap[req.modelName].IsLoaded()
    ensures r.Predictions? <==>
      req.modelName in snap && PredictSpec(snap[req.modelName], classify, req.texts).Ok?
    ensures r.Predictions? ==>
      r.modelName == req.modelName && r.predictions == PredictSpec(snap[req.modelName], classify, req.texts).value
    ensures r.HttpError? && r.status == 500 ==>
      req.modelName in snap && snap[req.modelName].IsLoaded()
      && r.detail == ErrorText(PredictSpec(snap[req.modelName], classify, req.texts).error)
  {
    match Lookup(snap, req.modelName)
    case None => HttpError(404, "Model '" + req.modelName + "' not found")
    case Some(model) =>
      if !model.IsLoaded() then HttpError(503, "Model '" + req.modelName + "' is not loaded")
      else match PredictSpec(model, classify, req.texts)
        case Err(e) => HttpError(500, ErrorText(e))
        case Ok(predictions) => Predictions(predictions, req.modelName)
  }

  /** The endpoint and the registry's own `predict` agree on one text: the endpoint
      answers 404 exactly where the registry raises ValueError, 503 exactly where it
      raises RuntimeError for an unloaded model, and when the registry returns a
      prediction the endpoint's first prediction is that one. */
  lemma EndpointAgreesWithRegistry(snap: Snapshot, classify: Classifier, name: string, text: string)
    ensures var r := PredictEndpoint(snap, classify, PredictionRequest([text], name));
      var p := RegistryPredict(snap, name, classify, text);
      && (r.HttpError? && r.status == 404 <==> p == Err(ValueError("Model '" + name + "' not found in registry")))
      && (r.HttpError? && r.status == 503 <==> p == Err(RuntimeError("Model '" + name + "' is not loaded")))
      && (p.Ok? ==> r.Predictions? && r.predictions != [] && r.predictions[0] == p.value)
  {
    if name in snap && snap[name].IsLoaded() {
      assert RegistryPredict(snap, name, classify, text) == PredictSingleSpec(snap[name], classify, text);
    }
  }

  // ----- main -----

  /** The command line of `model_service.py`; `None` marks an option not given. */
  datatype ServiceArgs = ServiceArgs(
    model: string, modelName: Option<string>, device: Option<string>, port: Option<int>,
    host: Option<string>, threshold: Option<real>, labels: Option<seq<string>>)

  /** The port: `--port` when given, else `CDSW_APP_PORT` read with `int()`, else 8081.
      A value `int()` rejects raises ValueError before anything is loaded. */
  function SelectPort(argPort: Option<int>, envPort: Option<string>): (r: Result<int, PyError>)
    ensures argPort.Some? ==> r == Ok(argPort.value)
    ensures argPort.None? && envPort.None? ==> r == Ok(8081)
    ensures argPort.None? && envPort.Some? ==>
      (r.Ok? <==> ParseInt(envPort.value).Some?) && (r.Ok? ==> r.value == ParseInt(envPort.value).value)
  {
    if argPort.Some? then Ok(argPort.value)
    else if envPort.None? then Ok(8081)
    else match ParseInt(envPort.value)
      case Some(p) => Ok(p)
      case None => Err(ValueError("invalid literal for int() with base 10: '" + envPort.value + "'"))
  }

  /** Whatever number the platform writes into `CDSW_APP_PORT` is the port served on. */
  lemma EnvPortRoundTrip(port: int)
    ensures SelectPort(None, Some(IntToString(port))) == Ok(port)
  {
    ParseIntToString(port);
  }

  /** The configuration `main` registers the model with. */
  function ServiceConfig(args: ServiceArgs): (c: ModelConfig)
    ensures c.modelName == Some(args.model) && c.taskType == Some("classification")
    ensures c.device == Some(args.device.GetOr("cpu")) && c.threshold == Some(args.threshold.GetOr(0.5))
    ensures c.labels == Some(args.labels.GetOr(["safe", "unsafe"]))
    ensures c.batchSize == Some(1) && c.maxLength == Some(512) && c.useFastTokenizer.None?
  {
    ModelConfig(Some(args.model), Some(args.device.GetOr("cpu")), Some(1), Some(512),
                Some(args.threshold.GetOr(0.5)), Some("classification"),
                Some(args.labels.GetOr(["safe", "unsafe"])), None)
  }

  /** How `main` ends. */
  datatype Startup =
    | PortError(error: PyError)    // `int(CDSW_APP_PORT)` raised
    | LoadFailed                   // registering the model raised: exit code 1
    | Serving(host: string, port: int)

  /** `main`: pick the port, then register and load the model under `--model-name`
      (default "default"); on success the service is started on the chosen host and port. */
  method StartService(registry: ModelRegistry, args: ServiceArgs, envPort: Option<string>,
                      cudaAvailable: bool, mpsAvailable: bool, step: LoadStep)
    returns (outcome: Startup)
    requires registry.Valid()
    modifies registry
    ensures registry.Valid()
    ensures SelectPort(args.port, envPort).Err? ==>
      outcome == PortError(SelectPort(args.port, envPort).error) && registry.models == old(registry.models)
    ensures SelectPort(args.port, envPort).Ok? ==>
      var registered := RegisterOutcome(old(registry.Snapshot()), args.modelName.GetOr("default"), SupportedType,
                                        ServiceConfig(args), true, cudaAvailable, mpsAvailable, step);
      && (registered.Ok? ==> outcome == Serving(args.host.GetOr("0.0.0.0"), SelectPort(args.port, envPort).value)
                             && registry.Snapshot() == registered.value)
      && (registered.Err? ==> outcome == LoadFailed && registry.models == old(registry.models))
  {
    var port := SelectPort(args.port, envPort);
    if port.Err? {
      return PortError(port.error);
    }
    var registered := registry.RegisterModel(args.modelName.GetOr("default"), SupportedType,
                                             ServiceConfig(args), true, cudaAvailable, mpsAvailable, step);
    if registered.Err? {
      return LoadFailed;
    }
    outcome := Serving(args.host.GetOr("0.0.0.0"), port.value);
  }
}
