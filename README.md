# nemo-guardrails-cai, modelled in Dafny

This project models the decision logic of nemo-guardrails-cai, which deploys NVIDIA
NeMo Guardrails on Cloudera AI (CAI) and hosts local classification models for it.
The model covers two groups.

- **Deployment orchestration.**
  - `JobRunner` (`cai_integration/trigger_jobs.py`) finds the root job of a jobs
    configuration in the project's job listing. If the root is not listed, it falls back to
    the first configured job that is. It triggers that one job and polls the run to a verdict.
  - `GuardrailsDeployer` (`cai_integration/launch_guardrails.py`) builds the application
    payload from its configuration and creates the application. It then polls until the
    application runs and records how to reach it.
- **Local-model service layer.**
  - `BaseModelService` and `HuggingFaceModelService` cover loading, label mapping, the
    safety rule, and prediction post-processing.
  - `ModelRegistry` is the name → service dictionary.
  - The guardrail actions consult the registry and fail open.
  - The rest of this group:
    - `GuardrailsConfig`, with its dict/YAML mapping;
    - `retry_with_backoff` and `validate_config_path`;
    - the model service's HTTP handlers and start-up.

The network, the clock, the file system and the ML library become inputs:

- An HTTP call is a `CmlApi.Reply`: it raised, or it answered with a status, a text and that
  text parsed.
- A waiting loop reads a finite sequence of per-poll replies against a poll budget
  (`PollBudget(timeout) = ceil(timeout / 10)`).
- The inference pipeline is a `HuggingFace.Classifier` function.
- What the transformers library does on `load` is a `HuggingFace.LoadStep`.

Stateful parts are Dafny classes whose methods are proved against pure specification
functions:

- `HuggingFaceModelService` is specified by `ServiceState`.
- `ModelRegistry` is specified by `Snapshot`, a map from names to service states.

Loops are methods with invariants:

- `list_jobs`
- both waiting loops
- `run`'s fallback loop
- the `predict` loop
- `load_from_config`
- `unregister_all`
- the retry wrapper

Modules, one file each:

| file | module |
|---|---|
| `wrappers.dfy` | `Option` and `Result` |
| `py_text.dfy` | Python's `strip`, `lower`, `int()` and `str(int)` |
| `json_value.dfy` | JSON/YAML values, truthiness and `dict.get` |
| `pure_path.dfy` | `PurePosixPath` parsing and printing |
| `cml_api.dfy` | the REST client shared by `JobRunner` and `GuardrailsDeployer` |
| `trigger_jobs.dfy` | `JobRunner` |
| `launch_guardrails.dfy` | `GuardrailsDeployer` |
| `huggingface.dfy` | `BaseModelService` and `HuggingFaceModelService` |
| `registry.dfy` | `ModelRegistry` |
| `model_checks.dfy` | the guardrail actions |
| `config.dfy` | `GuardrailsConfig` |
| `utils.dfy` | `retry_with_backoff` and `validate_config_path` |
| `model_service_api.dfy` | the model service |

## Model

| member | source | states |
|---|---|---|
| CmlApi.Connect | cai_integration/trigger_jobs.py:39-44 | The API URL is the host with every trailing slash removed, then "/api/v2". The header is "Bearer " and the stripped key. `GuardrailsDeployer` (cai_integration/launch_guardrails.py, lines 51-56) builds the same two values. |
| CmlApi.RequestUrlLayout | cai_integration/trigger_jobs.py:39-50 | The request URL is the host with its trailing slashes removed, then "/api/v2/", then the endpoint with its leading slashes removed. Exactly one slash joins each pair. `GuardrailsDeployer` (cai_integration/launch_guardrails.py, lines 51-73) builds its URLs the same way. |
| CmlApi.SlashesIgnored | cai_integration/trigger_jobs.py:39-50 | Adding slashes to the end of the host or the start of the endpoint leaves the URL unchanged. |
| CmlApi.BearerHeader | cai_integration/trigger_jobs.py:40-44 | The Authorization header is "Bearer " followed by the key, when the key has no surrounding white space. |
| CmlApi.MakeRequest | cai_integration/trigger_jobs.py:46-75 | A reply gives a result iff the call returned a 2xx status. An empty or non-JSON 2xx body gives `{}`. Otherwise the result is the parsed object. `GuardrailsDeployer` (cai_integration/launch_guardrails.py, lines 59-98) classifies replies the same way. |
| CmlApi.UsableReply | cai_integration/trigger_jobs.py:91 | A result passes `if result:` iff the reply was 2xx with a non-empty JSON object. So `{}` is treated like a failed request. |
| CmlApi.PollBudget | cai_integration/trigger_jobs.py:130-150 | The polls start at 0, 10, 20, … seconds. Exactly those that start before the timeout take place. |
| CmlApi.PollOutcome | cai_integration/trigger_jobs.py:130-153 | A wait polls at most its budget. It succeeds only on a poll its judge passes. |
| CmlApi.PollOutcomeAllPending | cai_integration/trigger_jobs.py:130-153 | If every poll is pending, the wait fails after the whole budget. |
| CmlApi.PollOutcomeFirstTerminal | cai_integration/trigger_jobs.py:130-153 | The first terminal poll decides the wait and ends it. |
| CmlApi.PollSucceedsIff | cai_integration/trigger_jobs.py:130-153 | For any judge, a wait succeeds iff some poll within the budget passes and every earlier poll is pending. |
| TriggerJobs.NewRunner | cai_integration/trigger_jobs.py:29-44 | A runner exists iff `CML_HOST` and `CML_API_KEY` are both set and non-empty. It is connected to that host and key. |
| TriggerJobs.JobMapLastWins | cai_integration/trigger_jobs.py:87-99 | A name is mapped iff some entry has that name and a truthy id. A later entry overwrites an earlier one. Every mapped id is truthy. |
| TriggerJobs.JobMapDomain | cai_integration/trigger_jobs.py:87-99 | A name is mapped iff some entry has that name and a truthy id. |
| TriggerJobs.JobMapValue | cai_integration/trigger_jobs.py:87-99 | A name is mapped to the id of the last entry that has that name and a truthy id. |
| TriggerJobs.JobMapTruthy | cai_integration/trigger_jobs.py:87-99 | Every mapped id is truthy. |
| TriggerJobs.ListJobs | cai_integration/trigger_jobs.py:87-99 | The loop builds exactly the map that `JobMap` describes. A failed or empty listing gives the empty map. It raises (`None` here) when "jobs" is not iterable, when an item has no `.get`, and when a truthy name is a list or a dict. |
| TriggerJobs.GetJobIdByName | cai_integration/trigger_jobs.py:101-104 | It raises iff `list_jobs` raises. Otherwise the id is truthy iff the name is not null and the listing has an entry with that name. The id is the listed one, and `None` otherwise. |
| TriggerJobs.FirstRootFrom | cai_integration/trigger_jobs.py:164-167 | The result is the first index from `i` whose job has no parent. If there is none, every later job has a parent. |
| TriggerJobs.GetRootJob | cai_integration/trigger_jobs.py:155-167 | There is a root iff some job has no `parent_job_key`. The root is the first such job in declaration order. |
| TriggerJobs.FirstListedFrom | cai_integration/trigger_jobs.py:215-223 | The result is the first configured job whose name, defaulting to its key, is listed. No job before it is listed. |
| TriggerJobs.PlanCases | cai_integration/trigger_jobs.py:189-227 | No root, or an empty root key, stops the run. Otherwise a first listing that raises stops it. Without the fallback the chosen job is the root, under its listed id. Every other outcome is the fallback's. |
| TriggerJobs.Plan | cai_integration/trigger_jobs.py:189-227 | A chosen job is a configured job whose name is not null, and the chosen id is truthy. `PlanCases` says which listing the id comes from. |
| TriggerJobs.FallbackChoice | cai_integration/trigger_jobs.py:203-227 | A job chosen by the fallback is a configured job with a non-null name, listed with a truthy id. |
| TriggerJobs.FallbackCases | cai_integration/trigger_jobs.py:203-227 | The fallback stops iff the second listing raises, and reports no jobs iff that listing is empty. Otherwise it chooses the first configured job the listing has, under its listed id. It gives up iff no configured name is listed. A null name is never listed. |
| TriggerJobs.RaisingListingStops | cai_integration/trigger_jobs.py:189-201 | When the first listing raises, `run` stops after that one GET. Nothing is triggered. |
| TriggerJobs.RunId | cai_integration/trigger_jobs.py:106-114 | The run id is truthy iff the trigger answered 2xx with a non-empty object holding a truthy "id". It is that "id". |
| TriggerJobs.WaitForJobCompletion | cai_integration/trigger_jobs.py:121-153 | The loop agrees with `PollOutcome` under the job verdicts. It polls the run's URL once per poll. |
| TriggerJobs.JobSucceedsOnlyOnSucceeded | cai_integration/trigger_jobs.py:130-153 | The wait succeeds iff some poll sees "succeeded" before any poll sees "failed", "stopped" or "killed". A timeout fails. |
| TriggerJobs.RunTriggersOnce | cai_integration/trigger_jobs.py:242-250 | `run` sends exactly one POST when it has chosen a job, and none otherwise. That POST goes to the chosen job's runs URL, so child jobs are never triggered. |
| TriggerJobs.LookupLogSendsNoPost | cai_integration/trigger_jobs.py:187-229 | Choosing the job sends no POST: the listing requests are all GETs. |
| TriggerJobs.ChooseJob | cai_integration/trigger_jobs.py:187-229 | The root lookup and the fallback choose the job that `Plan` names. They send one listing request, or two when falling back. |
| TriggerJobs.ChooseFallback | cai_integration/trigger_jobs.py:209-227 | The fallback loop chooses what `FallbackChoice` describes. |
| TriggerJobs.Run | cai_integration/trigger_jobs.py:169-268 | `run` succeeds iff a job was chosen, the trigger returned a run id, and the wait succeeded. A listing that raises is a failure, with no trigger: when the first listing raises, the only request is that GET. The wait uses the job's timeout, 3600 by default. It sends the requests of `RunLog`, with exactly one POST when a job was chosen and none otherwise. |
| LaunchGuardrails.LoadConfig | cai_integration/launch_guardrails.py:100-122 | A missing file gives the default configuration: 4 CPUs, 16 GB and guardrails path "config". Otherwise the file's mapping is used. |
| LaunchGuardrails.DefaultConfig | cai_integration/launch_guardrails.py:114-122 | The defaults are exactly a server section with 4 CPUs and 16 GB and a guardrails section with path "config". |
| LaunchGuardrails.AppPayload | cai_integration/launch_guardrails.py:124-155 | The payload is built iff both sections are dicts. It is named nemo-guardrails-server and runs the start-up script. Each setting is copied when present. Otherwise cpu is 4, memory 16, the config path "config", authentication bypass True, and the runtime the fixed image. |
| LaunchGuardrails.MissingFilePayload | cai_integration/launch_guardrails.py:104-155 | Without a configuration file the payload is made of the defaults alone. |
| LaunchGuardrails.CreateApplication | cai_integration/launch_guardrails.py:157-172 | The response is accepted iff it is a 2xx non-empty JSON object with an "id" key. |
| LaunchGuardrails.WaitForAppReady | cai_integration/launch_guardrails.py:197-232 | The loop agrees with `PollOutcome` when only "running" passes. It polls the application's URL once per poll. |
| LaunchGuardrails.ReadyOnlyWhenRunning | cai_integration/launch_guardrails.py:209-232 | The application is ready iff some poll within the budget sees "running". "failed" is not terminal, so a failed wait uses the whole budget. |
| LaunchGuardrails.SaveConnectionInfo | cai_integration/launch_guardrails.py:234-251 | The subdomain is the "subdomain" key, else "name", else "guardrails". The url is https:// followed by the subdomain. The id, name, status and created_at are copied. |
| LaunchGuardrails.DeployCreatesOnce | cai_integration/launch_guardrails.py:290-302 | `main` creates at most one application. The create POST comes before every poll. |
| LaunchGuardrails.CreateLogShape | cai_integration/launch_guardrails.py:290-307 | From the creation on, the first request is the one create POST. Every later request is a poll. |
| LaunchGuardrails.CreateAndWait | cai_integration/launch_guardrails.py:290-307 | The exit status is 0 iff the creation returned a truthy id and the wait succeeded. Only then is the record saved, and it is built from the creation response. The requests are the create POST, then the polls. |
| LaunchGuardrails.Prepare | cai_integration/launch_guardrails.py:265-289 | `main` reaches `create_application` with a client, a project id and a payload iff the three environment variables are non-empty and the payload was built. The client is the one built from "https://" and the domain, with the API key. |
| LaunchGuardrails.Deploy | cai_integration/launch_guardrails.py:260-315 | The exit status is 0 iff the environment is complete, the payload was built, the creation returned a truthy id, and the wait succeeded. The record is saved only then, and it is built from the creation response. |
| HuggingFace.InitialState | nemo_guardrails_cai/models/base.py:17-36 | A new service holds the configured values, each with its default. It has no model, tokenizer or pipeline. |
| HuggingFace.DefaultServiceState | nemo_guardrails_cai/models/huggingface.py:38-40 | Without configuration the service uses task "classification", labels ["safe", "unsafe"] and a fast tokenizer. From the base class (nemo_guardrails_cai/models/base.py, lines 30-35) it takes device "cpu", batch size 1, 512 tokens and threshold 0.5, and it is not loaded. |
| HuggingFace.Unloaded | nemo_guardrails_cai/models/base.py:79-83 | After `unload` there is no model and no tokenizer, so the service is not loaded. Labels, threshold and pipeline stay. |
| HuggingFace.UnloadIdempotent | nemo_guardrails_cai/models/base.py:79-83 | A second `unload` changes nothing. |
| HuggingFace.ChooseDevice | nemo_guardrails_cai/models/huggingface.py:55-63 | The device is GPU 0 iff cuda is requested and available, and "mps" iff mps is requested and available. Otherwise it is the CPU. |
| HuggingFace.LoadOutcome | nemo_guardrails_cai/models/huggingface.py:43-103 | Loading succeeds iff the requested pipeline kind is classification and the library loads cleanly. Success stores the model and a pipeline on the chosen device. Any other kind raises ValueError after the tokenizer is stored. A failing step keeps what came before it: a tokenizer failure leaves the state as it was, a model failure stores only the tokenizer, and a pipeline failure stores the tokenizer and the model but keeps the old pipeline. |
| HuggingFace.PipelineFailureLeavesLoaded | nemo_guardrails_cai/models/huggingface.py:65-87 | A pipeline failure on a service with no pipeline leaves it loaded with no pipeline. `predict` then raises TypeError, not RuntimeError. |
| HuggingFace.PyIndex | nemo_guardrails_cai/models/huggingface.py:165-166 | `labels[idx]` follows Python indexing: a negative index counts from the end, and an index outside [-len, len) raises. |
| HuggingFace.MapLabel | nemo_guardrails_cai/models/huggingface.py:152-171 | A mapped label is a configured label or the lower-cased raw label. A label without the `LABEL_` prefix is only lower-cased. With the prefix, the part up to the next underscore is read by `int()`. If `int()` rejects it, the result is the lower-cased label. If it gives an index Python can use, the result is that label, counted from the end when negative. Any other index gives the lower-cased label. |
| HuggingFace.MapLabelLeadingZero | nemo_guardrails_cai/models/huggingface.py:162-166 | `int()` accepts leading zeros, so `LABEL_01` maps to the second label. |
| HuggingFace.MapLabelExtraPart | nemo_guardrails_cai/models/huggingface.py:162-166 | `split("_")[1]` ignores what follows a second underscore, so `LABEL_1_extra` maps to the second label. |
| HuggingFace.MapLabelBadIndex | nemo_guardrails_cai/models/huggingface.py:162-171 | `LABEL_x` and `LABEL_` make `int()` raise ValueError, which is caught, so the lower-cased label is returned. |
| HuggingFace.MapLabelIndex | nemo_guardrails_cai/models/huggingface.py:162-171 | `LABEL_<i>` maps to `labels[i]`, counted from the end when i is negative. It maps to the lower-cased raw label when i is out of range. |
| HuggingFace.LabelRawParses | nemo_guardrails_cai/models/huggingface.py:162-166 | The index written after `LABEL_` is read back by `int()` as the same index. |
| HuggingFace.DetermineSafety | nemo_guardrails_cai/models/huggingface.py:173-197 | A result is unsafe iff its lower-cased label is in the seven-label unsafe set and its score is strictly above the threshold. |
| HuggingFace.SafetyMonotone | nemo_guardrails_cai/models/huggingface.py:184-197 | Raising the threshold never makes a safe verdict unsafe. |
| HuggingFace.Postprocess | nemo_guardrails_cai/models/huggingface.py:121-144 | A list result uses its first element. A missing label is "LABEL_0" and a missing score 0.0. The raw label, the mapped label and the threshold are reported. `is_safe` is the safety rule on the mapped label. An empty list raises IndexError. |
| HuggingFace.PostprocessAll | nemo_guardrails_cai/models/huggingface.py:117-146 | The loop raises IndexError iff some pipeline result is an empty list. Otherwise there is one prediction per result, in order, each the one that result gives. |
| HuggingFace.PredictSpec | nemo_guardrails_cai/models/huggingface.py:105-150 | `predict` raises RuntimeError when not loaded, and TypeError when loaded with no pipeline. Otherwise it post-processes the pipeline's results. |
| HuggingFace.PredictSingleSpec | nemo_guardrails_cai/models/base.py:64-73 | `predict_single(t)` is the first element of `predict([t])`. |
| HuggingFace.HealthOf | nemo_guardrails_cai/models/base.py:85-97 | `loaded` is `is_loaded()`. The status is "healthy" iff loaded, else "not_loaded". The model name and device are echoed. |
| HuggingFace.ProcessResults | nemo_guardrails_cai/models/huggingface.py:121-146 | The appending loop computes `PostprocessAll`. |
| HuggingFace.HuggingFaceModelService.constructor | nemo_guardrails_cai/models/huggingface.py:26-41 | The new object's state is `InitialState(config)`. |
| HuggingFace.HuggingFaceModelService.Load | nemo_guardrails_cai/models/huggingface.py:43-103 | The method's new state and error are those of `LoadOutcome`. |
| HuggingFace.HuggingFaceModelService.Unload | nemo_guardrails_cai/models/base.py:79-83 | The new state is `Unloaded` of the old one. |
| HuggingFace.HuggingFaceModelService.Predict | nemo_guardrails_cai/models/huggingface.py:105-150 | The result is `PredictSpec` of the object's state. |
| HuggingFace.HuggingFaceModelService.PredictSingle | nemo_guardrails_cai/models/base.py:64-73 | The result is `PredictSingleSpec` of the object's state. |
| HuggingFace.HuggingFaceModelService.SetLabels | nemo_guardrails_cai/models/huggingface.py:199-206 | The label list is replaced wholesale and nothing else changes. |
| HuggingFace.HuggingFaceModelService.SetThreshold | nemo_guardrails_cai/models/huggingface.py:208-218 | A value outside [0, 1] raises ValueError and changes nothing. Any other value becomes the threshold. |
| Registry.RegisterOutcome | nemo_guardrails_cai/models/registry.py:31-74 | A type other than "huggingface" raises ValueError. A failed automatic load lets its error through. In both cases the registry is unchanged. Otherwise the name is bound to a new service, replacing any earlier one. That service is the one built from the given config and, when `auto_load` is set, loaded (`Registered`). It is loaded iff `auto_load`, and every other name is unchanged. |
| Registry.Lookup | nemo_guardrails_cai/models/registry.py:76-86 | `get_model` finds a service iff the name is registered. |
| Registry.RegistryPredict | nemo_guardrails_cai/models/registry.py:147-169 | An unknown name raises ValueError, and an unloaded model RuntimeError, each with its message. Otherwise the result is exactly the model's `predict_single`, whether that returns or raises. |
| Registry.HealthReport | nemo_guardrails_cai/models/registry.py:132-145 | `total_models` is the number of registered names. Each model's health is its own `health_check`. |
| Registry.ModelList | nemo_guardrails_cai/models/registry.py:88-103 | There is one entry per registered name, with its type, load state, model name and device. |
| Registry.ConfigOutcomeNames | nemo_guardrails_cai/models/registry.py:171-212 | After `load_from_config` the registry holds the earlier names and exactly the configured names whose registration succeeded. A failing entry does not stop the others. Names that are not configured keep their services. |
| Registry.TypeOf | nemo_guardrails_cai/models/registry.py:55-59 | The popped type is "huggingface" iff the key is absent or holds that string. A null type is `None`, which reads "None" in the error message. |
| Registry.AutoLoadOf | nemo_guardrails_cai/models/registry.py:62 | The model is loaded iff `auto_load` is absent or True. A null value is falsy. |
| Registry.NullSettings | nemo_guardrails_cai/models/registry.py:196-210 | A null `type` raises "Unsupported model type: None", and the entry is skipped. A null `auto_load` registers the model unloaded, in its initial state. |
| Registry.ConfigStepNames | nemo_guardrails_cai/models/registry.py:196-210 | One configured entry adds its name iff its registration goes through. Every other name keeps its service. |
| Registry.ModelRegistry.constructor | nemo_guardrails_cai/models/registry.py:23 | The registry starts empty. |
| Registry.ModelRegistry.RegisterModel | nemo_guardrails_cai/models/registry.py:31-74 | The new snapshot is the one `RegisterOutcome` gives, with a fresh service object. On an error nothing changes. |
| Registry.ModelRegistry.GetModel | nemo_guardrails_cai/models/registry.py:76-86 | The result is the registered object, or `None` when the name is absent. |
| Registry.ModelRegistry.UnregisterModel | nemo_guardrails_cai/models/registry.py:105-123 | A present name is unloaded and removed, and the call returns True. An absent name returns False. No other entry changes. |
| Registry.ModelRegistry.UnregisterAll | nemo_guardrails_cai/models/registry.py:125-130 | Every registered service is unloaded, and the registry ends empty. |
| Registry.ModelRegistry.Predict | nemo_guardrails_cai/models/registry.py:147-169 | The result is `RegistryPredict` of the current snapshot. |
| Registry.ModelRegistry.LoadFromConfig | nemo_guardrails_cai/models/registry.py:171-212 | The loop leaves the snapshot that `ConfigOutcome` describes. `type` defaults to "huggingface" and `auto_load` to True, and both are popped out of each entry. |
| ModelChecks.CheckLocal | nemo_guardrails_cai/actions/model_checks.py:15-114 | A jailbreak is reported iff the context holds a non-empty text message. The model it names must be registered and loaded and must predict unsafe. A missing context or message, an unknown model and any error give False. The toxicity check follows the same rule, with "toxicity_model" and "toxicity_detector". |
| ModelChecks.CheckJailbreakLocal | nemo_guardrails_cai/actions/model_checks.py:15-63 | A jailbreak is reported only for a truthy message and a registered, loaded model named by "jailbreak_model", by default "jailbreak_detector". |
| ModelChecks.CheckToxicityLocal | nemo_guardrails_cai/actions/model_checks.py:66-114 | Toxicity is reported only for a truthy message and a registered, loaded model named by "toxicity_model", by default "toxicity_detector". |
| ModelChecks.FlaggedMeansConfidentUnsafe | nemo_guardrails_cai/actions/model_checks.py:51-58 | A flagged message has an unsafe label and a score strictly above that model's threshold. |
| ModelChecks.CheckResult.IsSafe | nemo_guardrails_cai/actions/model_checks.py:141-169 | Every fallback result is safe. |
| ModelChecks.CheckResult.Score | nemo_guardrails_cai/actions/model_checks.py:141-169 | Every fallback result scores 0.0. |
| ModelChecks.CheckWithLocalModel | nemo_guardrails_cai/actions/model_checks.py:117-169 | No text gives "unknown". For a text, or a non-empty string message, a registered model's `predict_single` result is returned unchanged, and a raise gives "error". An unregistered model gives "model_not_found". A message that cannot be sliced gives "error". |
| ModelChecks.TextPrecedence | nemo_guardrails_cai/actions/model_checks.py:138-148 | An explicit text, even "", makes the context irrelevant. Without one, the context's message is checked as if it had been passed. |
| ModelChecks.JailbreakAgreesWithGeneric | nemo_guardrails_cai/actions/model_checks.py:41-58 | The jailbreak action is True exactly when the generic action, on the same context and model, returns an unsafe result. |
| PurePath.ParseStr | nemo_guardrails_cai/config.py:60 | `Path(str(p)) == p` for every path that `Path` produces. |
| PurePath.NormaliseIdempotent | nemo_guardrails_cai/config.py:81 | Turning a path into a string and back settles after one round. |
| Config.Defaults | nemo_guardrails_cai/config.py:27-38 | The defaults are path "config", host "0.0.0.0", port 8080, provider "openai", no model, key or base, streaming on, log level "INFO", CORS ["*"], and empty extra and local-model configuration. |
| Config.FromDict | nemo_guardrails_cai/config.py:50-72 | `from_yaml` succeeds iff the document is a mapping, config_path a string, and "server" and "llm" mappings. `local_models` is copied. |
| Config.EmptyGivesDefaults | nemo_guardrails_cai/config.py:54-72 | An empty document gives exactly the dataclass defaults. |
| Config.FromDictKeyByKey | nemo_guardrails_cai/config.py:54-72 | Every setting is read from its section. A key that is absent takes the dataclass default, whatever else the document holds. |
| Config.DefaultPathParses | nemo_guardrails_cai/config.py:54-60 | The default `config_path` string "config" becomes the default path. |
| Config.TopLevelReadBack | nemo_guardrails_cai/config.py:80-97 | `to_dict` holds the path as a string, the server and llm sections, and the extra and local-model configuration. |
| Config.ServerSectionReadBack | nemo_guardrails_cai/config.py:82-88 | The server section holds host, port, streaming, log_level and cors_origins. |
| Config.LlmSectionReadBack | nemo_guardrails_cai/config.py:89-94 | The llm section holds provider, model, api_key and api_base. |
| Config.ToDictRoundTrip | nemo_guardrails_cai/config.py:54-97 | Reading back what `to_dict` writes gives the configuration unchanged. |
| Config.ToDict | nemo_guardrails_cai/config.py:80-97 | `to_dict` writes exactly five top-level keys, five server keys and four llm keys. |
| Config.ReloadStable | nemo_guardrails_cai/config.py:41-106 | Loading, saving and loading again gives the same configuration. |
| Utils.RetryWithBackoff | nemo_guardrails_cai/utils.py:13-56 | See the list after this table. |
| Utils.MissingFiles | nemo_guardrails_cai/utils.py:80-84 | The warned files are exactly the required files that are absent. |
| Utils.ValidateConfigPath | nemo_guardrails_cai/utils.py:59-86 | The result is valid iff the path exists and is a directory. A missing config.yml only gives a warning. |
| ModelServiceApi.HealthEndpoint | model_service.py:65-72 | The status is "healthy" iff at least one model is registered, else "no_models_loaded". Each model's health is reported. |
| ModelServiceApi.NewRequest | model_service.py:47-50 | `model_name` defaults to "default". |
| ModelServiceApi.PredictEndpoint | model_service.py:75-114 | An unregistered name gives 404 and an unloaded model 503. A model error gives 500 with its text. Otherwise the predictions are returned with the requested model name. |
| ModelServiceApi.ErrorText | model_service.py:112-114 | `str(e)` is the exception's message. IndexError and calling a missing pipeline give their fixed CPython texts. |
| ModelServiceApi.EndpointAgreesWithRegistry | model_service.py:88-103 | On one text, the endpoint gives 404 and 503 exactly where the registry's `predict` raises ValueError and RuntimeError. A prediction from the registry is the endpoint's first prediction. |
| ModelServiceApi.SelectPort | model_service.py:174-177 | The port is `--port`, else `int(CDSW_APP_PORT)`, else 8081. A value `int()` rejects raises. |
| ModelServiceApi.EnvPortRoundTrip | model_service.py:174-177 | Any integer written to `CDSW_APP_PORT` is the port served on. |
| ModelServiceApi.StartService | model_service.py:123-221 | A bad port aborts before anything is registered. A registration that fails exits with 1 and leaves the registry unchanged. Otherwise the service serves on the chosen host and port with the model registered. |

What `Utils.RetryWithBackoff` states:

- It calls the function at most `max_retries + 1` times.
- It stops at the first success, or at the first exception it does not catch.
- It re-raises the last caught exception after exactly `max_retries + 1` failures.
- It sleeps only between attempts.
- Before retry k it sleeps `initial_delay * backoff_factor^k`.
- A negative `max_retries` makes no call at all.

## Left out

- HTTP transport, wall-clock time and sleeping. Replies and poll budgets are inputs. The budget assumes that requests take no time and that each sleep lasts exactly 10 seconds.
- JSON and YAML parsing, and file reads and writes. The model works on the values they produce. `save` and `json.dump` are modelled by the dict they would write. JSON bodies that parse to something other than an object are not modelled.
- JSON numbers are integers. Floats are not modelled, and neither is the f-string rendering of lists and dicts in URLs.
- Logging, printing, argparse (including its `--device` choices check), `sys.exit` and the scripts' `main` wrappers. Only the decision logic of `main` is modelled.
- `ModelRegistry.__new__`: the singleton mechanics are not modelled. The model has one registry object.
- The transformers and torch calls inside `load` and `predict`. The model takes their outcome and output as inputs.
- ModelChecks.CheckLocal: a message that is a non-empty list reaches a registered, loaded model's pipeline in Python. What the pipeline does with a list is foreign code, so the model does not flag it.
- ModelChecks.CheckWithLocalModel: the same list message with a registered model gives "error" here. Python would pass it to `predict_single`: an unloaded model raises, which matches, and a loaded pipeline's answer is foreign code.
- `async`: the actions are modelled as ordinary functions.
- Scores, thresholds and delays are mathematical reals, not floating point.
- `str.lower()` and `int()` are modelled for ASCII only. Unicode case mapping and Unicode digits are left out.
- nemo_guardrails_cai/server.py, app.py, cai_integration/setup_environment.py, cai_integration/app_startup.py and the build scripts are not part of this model. They are glue around foreign libraries and subprocesses.
- TriggerJobs.Entries: a "jobs" list whose items are not all dicts raises wherever the first such item is. The model decides the raise before the loop, which gives the same outcome.
- TriggerJobs.JobMap: entries whose truthy name is an int or a bool are skipped. Python stores them under a key that no configured name can look up. They only make a difference to whether the fallback reports "no jobs" or "no match", and both stop without a trigger. A configured `name:` that is neither a string nor null is not modelled.
- TriggerJobs.TimeoutOf: a `timeout` that is not an integer is not modelled.
- Registry.ModelRegistry.UnregisterAll: the loop body is `unregister_model` inlined for a present name. The contract is the same.
- Registry.ModelRegistry.LoadFromConfig: the pops are modelled by returning each entry after the pops. A models section given in some form other than a dict of dicts is not modelled. A `type` or `auto_load` of some other JSON type is not modelled.
- HuggingFace.InitialState: a service-config key (nemo_guardrails_cai/models/base.py:30-34, nemo_guardrails_cai/models/huggingface.py:38-40) set to null or to a value of another type is treated as absent and takes its default. Python keeps the null, and later fails: `score > None` and `len(None)` raise TypeError.
- HuggingFace.ServiceState: `batch_size` is kept, but the `Classifier` does not receive it.
- LaunchGuardrails.LoadConfig: a file holding something other than a mapping is not modelled.
- cai_integration/trigger_jobs.py:169-173 and 242-246 trigger only the root job. The child jobs are triggered by the platform when their parent succeeds, so the model has no step that triggers them.
