/**
 * The local classification model service: BaseModelService
 * (nemo_guardrails_cai/models/base.py) together with its one implementation,
 * HuggingFaceModelService (nemo_guardrails_cai/models/huggingface.py).
 * The transformers library is not modelled: what loading does is a `LoadStep`,
 * and the inference pipeline is a `Classifier` function given by the caller.
 */
module HuggingFace {
  import opened Wrappers
  import opened PyText

  /** The exceptions the service raises or lets through. */
  datatype PyError =
    | ValueError(message: string)
    | RuntimeError(message: string)
    | IndexError
    | TypeError
    | LibraryError(message: string)

  /** The per-model configuration dict; `None` marks an absent key. */
  datatype ModelConfig = ModelConfig(
    modelName: Option<string>, device: Option<string>, batchSize: Option<int>,
    maxLength: Option<int>, threshold: Option<real>, taskType: Option<string>,
    labels: Option<seq<string>>, useFastTokenizer: Option<bool>)

  /** The device `load` hands the pipeline: the first GPU (0), "mps", or the CPU (-1). */
  datatype Device = Gpu0 | AppleMps | Cpu

  /** What `from_pretrained` returned and `pipeline(...)` built. */
  datatype Tokenizer = Tokenizer(modelName: Option<string>, fast: bool)
  datatype Model = Model(modelName: Option<string>)
  datatype Pipeline = Pipeline(model: Model, tokenizer: Tokenizer, device: Device, maxLength: int)

  /** How far the library gets when `load` calls it. */
  datatype LoadStep =
    | TokenizerFails(message: string)
    | ModelFails(message: string)
    | PipelineFails(message: string)
    | LoadsCleanly

  /** One dict the text-classification pipeline returns; `None` marks an absent key. */
  datatype RawPrediction = RawPrediction(labelName: Option<string>, score: Option<real>)

  /** A pipeline result: one dict, or a list of them (top-k output). */
  datatype RawResult = Single(prediction: RawPrediction) | Multi(predictions: seq<RawPrediction>)

  /** The inference pipeline: the results for a batch of texts. */
  type Classifier = (Pipeline, seq<string>) -> seq<RawResult>

  /** One entry of `predict`'s result. */
  datatype Prediction = Prediction(labelName: string, score: real, isSafe: bool, rawLabel: string, threshold: real)

  /** `health_check`'s dict. */
  datatype Health = Health(service: string, modelName: Option<string>, device: string, loaded: bool, status: string)

  const ServiceClass: string := "HuggingFaceModelService"
  const NotLoadedMessage: string := "Model not loaded. Call load() first."
  const ThresholdMessage: string := "Threshold must be between 0 and 1"

  /** Everything a service holds, as a value. */
  datatype ServiceState = ServiceState(
    modelName: Option<string>, device: string, batchSize: int, maxLength: int,
    threshold: real, taskType: string, labels: seq<string>, useFastTokenizer: bool,
    tokenizer: Option<Tokenizer>, model: Option<Model>, pipeline: Option<Pipeline>)
  {
    /** `is_loaded`: `self.model is not None`. */
    predicate IsLoaded() {
      model.Some?
    }
  }

  /** The state `__init__` sets up: the configured values with their defaults, and no
      model, tokenizer or pipeline. */
  function InitialState(config: ModelConfig): (s: ServiceState)
    ensures !s.IsLoaded() && s.tokenizer.None? && s.pipeline.None?
    ensures s.modelName == config.modelName
    ensures s.device == config.device.GetOr("cpu") && s.batchSize == config.batchSize.GetOr(1)
    ensures s.maxLength == config.maxLength.GetOr(512) && s.threshold == config.threshold.GetOr(0.5)
    ensures s.taskType == config.taskType.GetOr("classification")
    ensures s.labels == config.labels.GetOr(["safe", "unsafe"])
    ensures s.useFastTokenizer == config.useFastTokenizer.GetOr(true)
  {
    ServiceState(config.modelName, config.device.GetOr("cpu"), config.batchSize.GetOr(1),
                 config.maxLength.GetOr(512), config.threshold.GetOr(0.5),
                 config.taskType.GetOr("classification"), config.labels.GetOr(["safe", "unsafe"]),
                 config.useFastTokenizer.GetOr(true), None, None, None)
  }

  /** An empty configuration gives device "cpu", batch size 1, 512 tokens, threshold 0.5,
      the classification task, the labels ["safe", "unsafe"] and a fast tokenizer. */
  lemma DefaultServiceState()
    ensures var s := InitialState(ModelConfig(None, None, None, None, None, None, None, None));
      && s.device == "cpu" && s.batchSize == 1 && s.maxLength == 512 && s.threshold == 0.5
      && s.taskType == "classification" && s.labels == ["safe", "unsafe"] && s.useFastTokenizer
      && !s.IsLoaded()
  {
  }

  /** The state after `unload`: no model and no tokenizer (the pipeline stays). */
  function Unloaded(s: ServiceState): (r: ServiceState)
    ensures !r.IsLoaded() && r.tokenizer.None?
    ensures r.pipeline == s.pipeline && r.labels == s.labels && r.threshold == s.threshold
  {
    s.(model := None, tokenizer := None)
  }

  /** Unloading twice is unloading once. */
  lemma UnloadIdempotent(s: ServiceState)
    ensures Unloaded(Unloaded(s)) == Unloaded(s)
  {
  }

  // ----- load -----

  /** The device choice in `load`. */
  function ChooseDevice(device: string, cudaAvailable: bool, mpsAvailable: bool): (d: Device)
    ensures d == Gpu0 <==> device == "cuda" && cudaAvailable
    ensures d == AppleMps <==> device == "mps" && mpsAvailable
  {
    if device == "cuda" && cudaAvailable then Gpu0
    else if device == "mps" && mpsAvailable then AppleMps
    else Cpu
  }

  datatype LoadResult = LoadResult(state: ServiceState, error: Option<PyError>)

  /** `load`: the tokenizer is stored first, then (for the classification task only) the
      model, then the pipeline; a step that fails raises and keeps what came before it. */
  function LoadOutcome(s: ServiceState, cudaAvailable: bool, mpsAvailable: bool, step: LoadStep): (r: LoadResult)
    ensures r.error.None? <==> s.taskType == "classification" && step == LoadsCleanly
    ensures r.error.None? ==> && r.state.IsLoaded() && r.state.tokenizer.Some?
                              && r.state.pipeline == Some(Pipeline(r.state.model.value, r.state.tokenizer.value,
                                   ChooseDevice(s.device, cudaAvailable, mpsAvailable), s.maxLength))
    ensures s.taskType != "classification" && !step.TokenizerFails?
            ==> r == LoadResult(s.(tokenizer := Some(Tokenizer(s.modelName, s.useFastTokenizer))),
                                Some(ValueError("Unsupported task type: " + s.taskType)))
    ensures step.TokenizerFails? ==> r.state == s
    ensures s.taskType == "classification" && step.ModelFails?
            ==> r.state == s.(tokenizer := Some(Tokenizer(s.modelName, s.useFastTokenizer)))
    ensures s.taskType == "classification" && step.PipelineFails?
            ==> r.state == s.(tokenizer := Some(Tokenizer(s.modelName, s.useFastTokenizer)), model := Some(Model(s.modelName)))
    ensures r.state.labels == s.labels && r.state.threshold == s.threshold && r.state.device == s.device
  {
    var device := ChooseDevice(s.device, cudaAvailable, mpsAvailable);
    if step.TokenizerFails? then LoadResult(s, Some(LibraryError(step.message)))
    else
      var tokenizer := Tokenizer(s.modelName, s.useFastTokenizer);
      var s1 := s.(tokenizer := Some(tokenizer));
      if s.taskType != "classification" then
        LoadResult(s1, Some(ValueError("Unsupported task type: " + s.taskType)))
      else if step.ModelFails? then LoadResult(s1, Some(LibraryError(step.message)))
      else
        var model := Model(s.modelName);
        var s2 := s1.(model := Some(model));
        if step.PipelineFails? then LoadResult(s2, Some(LibraryError(step.message)))
        else LoadResult(s2.(pipeline := Some(Pipeline(model, tokenizer, device, s.maxLength))), None)
  }

  /** A pipeline failure on a service that never had a pipeline leaves it loaded, since
      the model is already stored, but without a pipeline: `predict` then raises
      TypeError instead of RuntimeError. */
  lemma PipelineFailureLeavesLoaded(s: ServiceState, cudaAvailable: bool, mpsAvailable: bool, message: string,
                                    classify: Classifier, texts: seq<string>)
    requires s.taskType == "classification" && s.pipeline.None?
    ensures var r := LoadOutcome(s, cudaAvailable, mpsAvailable, PipelineFails(message));
      && r.error == Some(LibraryError(message))
      && r.state.IsLoaded() && r.state.pipeline.None?
      && PredictSpec(r.state, classify, texts) == Err(TypeError)
  {
  }

  // ----- _map_label and _determine_safety -----

  /** The text before the first `sep`: `s.split(sep)[0]`. */
  function UpTo(s: string, sep: char): (r: string)
    ensures |r| <= |s| && r == s[..|r|] && sep !in r
    ensures |r| < |s| ==> s[|r|] == sep
  {
    if s == [] || s[0] == sep then [] else [s[0]] + UpTo(s[1..], sep)
  }

  /** `xs[i]` with Python's negative indexing; `None` where it raises IndexError. */
  function PyIndex<T>(xs: seq<T>, i: int): (r: Option<T>)
    ensures r.Some? <==> -|xs| <= i < |xs|
    ensures 0 <= i < |xs| ==> r == Some(xs[i])
    ensures -|xs| <= i < 0 ==> r == Some(xs[|xs| + i])
  {
    if 0 <= i < |xs| then Some(xs[i])
    else if -|xs| <= i < 0 then Some(xs[|xs| + i])
    else None
  }

  const LabelPrefix: string := "LABEL_"

  /** `_map_label`: `LABEL_<i>` names `labels[i]` when `int()` accepts the part after the
      prefix (up to the next underscore) and the index is usable; every other label is
      returned lower-cased. */
  function MapLabel(raw: string, labels: seq<string>): (r: string)
    ensures r in labels || r == Lower(raw)
    ensures !(|raw| >= 6 && raw[..6] == LabelPrefix) ==> r == Lower(raw)
    ensures |raw| >= 6 && raw[..6] == LabelPrefix && ParseInt(UpTo(raw[6..], '_')).None? ==> r == Lower(raw)
    ensures |raw| >= 6 && raw[..6] == LabelPrefix && ParseInt(UpTo(raw[6..], '_')).Some?
            ==> var i := ParseInt(UpTo(raw[6..], '_')).value;
                && (-|labels| <= i < |labels| ==> r == PyIndex(labels, i).value)
                && (!(-|labels| <= i < |labels|) ==> r == Lower(raw))
  {
    if |raw| >= 6 && raw[..6] == LabelPrefix then
      match ParseInt(UpTo(raw[6..], '_'))
      case None => Lower(raw)
      case Some(idx) =>
        if idx < |labels| then
          match PyIndex(labels, idx)
          case Some(name) => name
          case None => Lower(raw)
        else Lower(raw)
    else Lower(raw)
  }

  /** `LABEL_<i>` maps to the i-th configured label, counted from the end when `i` is
      negative, and to the lower-cased raw label when `i` is out of range. */
  lemma MapLabelIndex(i: int, labels: seq<string>)
    ensures 0 <= i < |labels| ==> MapLabel(LabelPrefix + IntToString(i), labels) == labels[i]
    ensures -|labels| <= i < 0 ==> MapLabel(LabelPrefix + IntToString(i), labels) == labels[|labels| + i]
    ensures !(-|labels| <= i < |labels|)
            ==> MapLabel(LabelPrefix + IntToString(i), labels) == Lower(LabelPrefix + IntToString(i))
  {
    LabelRawParses(i);
  }

  /** `int()` accepts leading zeros, so `LABEL_01` names the second label. */
  lemma MapLabelLeadingZero(labels: seq<string>)
    requires |labels| >= 2
    ensures MapLabel("LABEL_01", labels) == labels[1]
  {
    var raw := "LABEL_01";
    assert raw[..6] == LabelPrefix && raw[6..] == "01";
    assert UpTo("01", '_') == "01";
    LeadingZeroParses();
  }

  lemma LeadingZeroParses()
    ensures ParseInt("01") == Some(1)
  {
    var t := "01";
    assert Strip(t) == t by { StripUnpadded(t); }
    assert IsDigitRun(t);
    assert DigitsValue(t) == 1 by { assert t[..1] == "0" && "0"[..0] == ""; }
  }

  /** `split("_")[1]` drops everything after a second underscore, so `LABEL_1_extra`
      names the second label. */
  lemma MapLabelExtraPart(labels: seq<string>)
    requires |labels| >= 2
    ensures MapLabel("LABEL_1_extra", labels) == labels[1]
  {
    var raw := "LABEL_1_extra";
    assert raw[..6] == LabelPrefix && raw[6..] == "1_extra";
    assert UpTo("1_extra", '_') == "1";
    OneParses();
  }

  lemma OneParses()
    ensures ParseInt("1") == Some(1)
  {
    var t := "1";
    assert Strip(t) == t by { StripUnpadded(t); }
    assert IsDigitRun(t);
    assert DigitsValue(t) == 1 by { assert t[..0] == ""; }
  }

  /** An index part `int()` rejects raises ValueError, which `_map_label` catches and
      answers with the lower-cased label. */
  lemma MapLabelBadIndex(labels: seq<string>)
    ensures MapLabel("LABEL_x", labels) == Lower("LABEL_x")
    ensures MapLabel("LABEL_", labels) == Lower("LABEL_")
  {
    assert "LABEL_x"[..6] == LabelPrefix && "LABEL_x"[6..] == "x";
    assert UpTo("x", '_') == "x";
    StripUnpadded("x");
    assert !IsDigitRun("x");
    assert "LABEL_"[6..] == "";
  }

  /** The index part of `LABEL_<i>` reads back as `i`. */
  lemma LabelRawParses(i: int)
    ensures var raw := LabelPrefix + IntToString(i);
      |raw| >= 6 && raw[..6] == LabelPrefix && ParseInt(UpTo(raw[6..], '_')) == Some(i)
  {
    var digits := IntToString(i);
    var raw := LabelPrefix + digits;
    assert raw[..6] == LabelPrefix && raw[6..] == digits;
    assert UpTo(digits, '_') == digits;
    ParseIntToString(i);
  }

  /** `_determine_safety`'s fixed set of labels that mean unsafe content. */
  const UnsafeLabels: set<string> := {"unsafe", "toxic", "jailbreak", "harmful", "negative", "attack", "malicious"}

  /** `_determine_safety`: unsafe only for an unsafe label whose score is strictly above
      the threshold. */
  function DetermineSafety(name: string, score: real, threshold: real): (safe: bool)
    ensures Lower(name) !in UnsafeLabels ==> safe
    ensures score <= threshold ==> safe
    ensures Lower(name) in UnsafeLabels && score > threshold ==> !safe
  {
    !(Lower(name) in UnsafeLabels && score > threshold)
  }

  /** Raising the threshold never turns a safe verdict into an unsafe one. */
  lemma SafetyMonotone(name: string, score: real, low: real, high: real)
    requires low <= high
    ensures DetermineSafety(name, score, low) ==> DetermineSafety(name, score, high)
  {
  }

  // ----- predict -----

  /** The loop body of `predict` for one pipeline result. */
  function Postprocess(result: RawResult, labels: seq<string>, threshold: real): (r: Result<Prediction, PyError>)
    ensures r.Err? <==> result == Multi([])
    ensures r.Err? ==> r.error == IndexError
    ensures r.Ok? ==>
      var raw := if result.Single? then result.prediction else result.predictions[0];
      var rawName := raw.labelName.GetOr("LABEL_0");
      var score := raw.score.GetOr(0.0);
      && r.value.labelName == MapLabel(rawName, labels) && r.value.rawLabel == rawName
      && r.value.score == score && r.value.threshold == threshold
      && r.value.isSafe == DetermineSafety(MapLabel(rawName, labels), score, threshold)
  {
    if result == Multi([]) then Err(IndexError)
    else
      var raw := if result.Single? then result.prediction else result.predictions[0];
      var rawName := raw.labelName.GetOr("LABEL_0");
      var score := raw.score.GetOr(0.0);
      var name := MapLabel(rawName, labels);
      Ok(Prediction(name, score, DetermineSafety(name, score, threshold), rawName, threshold))
  }

  /** Applies `f` to each element in order, stopping at the first error. */
  function CollectAll<A, B>(f: A -> Result<B, PyError>, xs: seq<A>): (r: Result<seq<B>, PyError>)
    ensures r.Ok? ==> |r.value| == |xs|
    ensures r.Err? ==> exists i :: 0 <= i < |xs| && f(xs[i]) == Err(r.error)
    decreases |xs|
  {
    if xs == [] then Ok([])
    else
      match CollectAll(f, xs[..|xs| - 1])
      case Err(e) => assert forall i :: 0 <= i < |xs| - 1 ==> xs[..|xs| - 1][i] == xs[i]; Err(e)
      case Ok(ys) =>
        match f(xs[|xs| - 1])
        case Err(e) => Err(e)
        case Ok(y) => Ok(ys + [y])
  }

  /** The collection succeeds iff every element succeeds, and then holds each element's
      value in order. */
  lemma {:induction false} CollectAllPointwise<A, B>(f: A -> Result<B, PyError>, xs: seq<A>)
    ensures var r := CollectAll(f, xs);
      && (r.Ok? <==> forall i :: 0 <= i < |xs| ==> f(xs[i]).Ok?)
      && (r.Ok? ==> forall i :: 0 <= i < |xs| ==> f(xs[i]) == Ok(r.value[i]))
    decreases |xs|
  {
    if xs != [] {
      var init := xs[..|xs| - 1];
      CollectAllPointwise(f, init);
      assert forall i :: 0 <= i < |init| ==> init[i] == xs[i];
    }
  }

  /** The predictions for a sequence of pipeline results: one per result, in order, unless
      some result is an empty list, which raises IndexError. */
  function PostprocessAll(results: seq<RawResult>, labels: seq<string>, threshold: real)
    : (r: Result<seq<Prediction>, PyError>)
    ensures r.Ok? <==> forall i :: 0 <= i < |results| ==> results[i] != Multi([])
    ensures r.Ok? ==> |r.value| == |results|
                      && forall i :: 0 <= i < |results| ==> Postprocess(results[i], labels, threshold) == Ok(r.value[i])
    ensures r.Err? ==> r.error == IndexError
  {
    var f := (x: RawResult) => Postprocess(x, labels, threshold);
    CollectAllPointwise(f, results);
    CollectAll(f, results)
  }

  /** `predict` on a state: RuntimeError when not loaded; otherwise the post-processed
      pipeline results (a loaded model without a pipeline cannot be called: TypeError). */
  function PredictSpec(s: ServiceState, classify: Classifier, texts: seq<string>): (r: Result<seq<Prediction>, PyError>)
    ensures !s.IsLoaded() ==> r == Err(RuntimeError(NotLoadedMessage))
    ensures s.IsLoaded() && s.pipeline.None? ==> r == Err(TypeError)
    ensures s.IsLoaded() && s.pipeline.Some? ==>
      r == PostprocessAll(classify(s.pipeline.value, texts), s.labels, s.threshold)
  {
    if !s.IsLoaded() then Err(RuntimeError(NotLoadedMessage))
    else if s.pipeline.None? then Err(TypeError)
    else PostprocessAll(classify(s.pipeline.value, texts), s.labels, s.threshold)
  }

  /** `predict_single(t)`: the first element of `predict([t])`. */
  function PredictSingleSpec(s: ServiceState, classify: Classifier, text: string): (r: Result<Prediction, PyError>)
    ensures r.Ok? <==> PredictSpec(s, classify, [text]).Ok? && PredictSpec(s, classify, [text]).value != []
    ensures r.Ok? ==> r.value == PredictSpec(s, classify, [text]).value[0]
    ensures !s.IsLoaded() ==> r == Err(RuntimeError(NotLoadedMessage))
  {
    match PredictSpec(s, classify, [text])
    case Err(e) => Err(e)
    case Ok(ps) => if ps == [] then Err(IndexError) else Ok(ps[0])
  }

  /** `health_check` on a state. */
  function HealthOf(s: ServiceState): (h: Health)
    ensures h.loaded == s.IsLoaded()
    ensures h.status == "healthy" <==> s.IsLoaded()
    ensures h.status == (if s.IsLoaded() then "healthy" else "not_loaded")
    ensures h.modelName == s.modelName && h.device == s.device && h.service == ServiceClass
  {
    Health(ServiceClass, s.modelName, s.device, s.IsLoaded(), if s.IsLoaded() then "healthy" else "not_loaded")
  }

  /** The loop of `predict` over the pipeline results, appending one prediction each. */
  method ProcessResults(results: seq<RawResult>, labels: seq<string>, threshold: real)
    returns (r: Result<seq<Prediction>, PyError>)
    ensures r == PostprocessAll(results, labels, threshold)
  {
    var predictions := [];
    var i := 0;
    while i < |results|
      invariant i <= |results| && |predictions| == i
      invariant forall j :: 0 <= j < i ==> Postprocess(results[j], labels, threshold) == Ok(predictions[j])
    {
      match Postprocess(results[i], labels, threshold) {
        case Err(e) =>
          return Err(e);
        case Ok(p) =>
          predictions := predictions + [p];
      }
      i := i + 1;
    }
    ghost var all := PostprocessAll(results, labels, threshold);
    assert all.Ok? && all.value == predictions;
    r := Ok(predictions);
  }

  /** A HuggingFaceModelService object. */
  class HuggingFaceModelService {
    const config: ModelConfig
    const modelName: Option<string>
    const device: string
    const batchSize: int
    const maxLength: int
    var threshold: real
    const taskType: string
    var labels: seq<string>
    const useFastTokenizer: bool
    var tokenizer: Option<Tokenizer>
    var model: Option<Model>
    var pipeline: Option<Pipeline>

    function State(): ServiceState
      reads this
    {
      ServiceState(modelName, device, batchSize, maxLength, threshold, taskType, labels,
                   useFastTokenizer, tokenizer, model, pipeline)
    }

    constructor(config: ModelConfig)
      ensures State() == InitialState(config) && this.config == config
    {
      this.config := config;
      modelName := config.modelName;
      device := config.device.GetOr("cpu");
      batchSize := config.batchSize.GetOr(1);
      maxLength := config.maxLength.GetOr(512);
      threshold := config.threshold.GetOr(0.5);
      taskType := config.taskType.GetOr("classification");
      labels := config.labels.GetOr(["safe", "unsafe"]);
      useFastTokenizer := config.useFastTokenizer.GetOr(true);
      tokenizer := None;
      model := None;
      pipeline := None;
    }

    /** `load`, with device availability and the library's behaviour as arguments. */
    method Load(cudaAvailable: bool, mpsAvailable: bool, step: LoadStep) returns (error: Option<PyError>)
      modifies this
      ensures LoadResult(State(), error) == LoadOutcome(old(State()), cudaAvailable, mpsAvailable, step)
    {
      var chosen := ChooseDevice(device, cudaAvailable, mpsAvailable);
      if step.TokenizerFails? {
        return Some(LibraryError(step.message));
      }
      tokenizer := Some(Tokenizer(modelName, useFastTokenizer));
      if taskType == "classification" {
        if step.ModelFails? {
          return Some(LibraryError(step.message));
        }
        model := Some(Model(modelName));
        if step.PipelineFails? {
          return Some(LibraryError(step.message));
        }
        pipeline := Some(Pipeline(model.value, tokenizer.value, chosen, maxLength));
        error := None;
      } else {
        error := Some(ValueError("Unsupported task type: " + taskType));
      }
    }

    /** `unload` */
    method Unload()
      modifies this
      ensures State() == Unloaded(old(State()))
    {
      model := None;
      tokenizer := None;
    }

    /** `predict`: one prediction per pipeline result, appended in order. */
    method Predict(classify: Classifier, texts: seq<string>) returns (r: Result<seq<Prediction>, PyError>)
      ensures r == PredictSpec(State(), classify, texts)
    {
      if model.None? {
        return Err(RuntimeError(NotLoadedMessage));
      }
      if pipeline.None? {
        return Err(TypeError);
      }
      var results := classify(pipeline.value, texts);
      r := ProcessResults(results, labels, threshold);
    }

    /** `predict_single` */
    method PredictSingle(classify: Classifier, text: string) returns (r: Result<Prediction, PyError>)
      ensures r == PredictSingleSpec(State(), classify, text)
    {
      var all := Predict(classify, [text]);
      if all.Err? {
        return Err(all.error);
      }
      if all.value == [] {
        return Err(IndexError);
      }
      r := Ok(all.value[0]);
    }

    /** `set_labels` */
    method SetLabels(labels: seq<string>)
      modifies this
      ensures State() == old(State()).(labels := labels)
    {
      this.labels := labels;
    }

    /** `set_threshold`: a value outside [0, 1] raises ValueError and changes nothing. */
    method SetThreshold(t: real) returns (error: Option<PyError>)
      modifies this
      ensures 0.0 <= t <= 1.0 ==> error.None? && State() == old(State()).(threshold := t)
      ensures !(0.0 <= t <= 1.0) ==> error == Some(ValueError(ThresholdMessage)) && State() == old(State())
    {
      if !(0.0 <= t <= 1.0) {
        return Some(ValueError(ThresholdMessage));
      }
      threshold := t;
      error := None;
    }
  }
}
