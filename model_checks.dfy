/**
 * The guardrail actions that consult the local models
 * (nemo_guardrails_cai/actions/model_checks.py). Each one reads the guardrails
 * context, looks a model up in the registry and fails open: whatever goes wrong,
 * the content is let through.
 */
module ModelChecks {
  import opened Wrappers
  import opened JsonValue
  import opened HuggingFace
  import opened Registry

  /** `check_jailbreak_local` and `check_toxicity_local`: true only when the model named by
      `context[modelKey]` (default `defaultModel`) is registered and reports the user
      message unsafe. A missing context or message, an unknown model and any exception
      (a model that is not loaded, a message that is not text) give false. */
  function CheckLocal(context: Option<Fields>, modelKey: string, defaultModel: string,
                      snap: Snapshot, classify: Classifier): (flagged: bool)
    ensures context.None? ==> !flagged
    ensures context.Some? && !Truthy(Get(context.value, "user_message", JStr(""))) ==> !flagged
    ensures flagged <==>
      && context.Some?
      && var message := Get(context.value, "user_message", JStr(""));
         var model := Get(context.value, modelKey, JStr(defaultModel));
         && message.JStr? && message.s != [] && model.JStr? && model.s in snap
         && snap[model.s].IsLoaded()
         && PredictSingleSpec(snap[model.s], classify, message.s).Ok?
         && !PredictSingleSpec(snap[model.s], classify, message.s).value.isSafe
  {
    if context.None? then false
    else
      var message := Get(context.value, "user_message", JStr(""));
      if !Truthy(message) then false
      else if !message.JStr? then false
      else
        var model := Get(context.value, modelKey, JStr(defaultModel));
        if !model.JStr? then false
        else match Lookup(snap, model.s)
          case None => false
          case Some(service) =>
            match PredictSingleSpec(service, classify, message.s)
            case Err(_) => false
            case Ok(p) => !p.isSafe
  }

  /** `check_jailbreak_local`: the model named by "jailbreak_model", by default
      "jailbreak_detector". */
  function CheckJailbreakLocal(context: Option<Fields>, snap: Snapshot, classify: Classifier): (flagged: bool)
    ensures flagged ==>
      && context.Some? && Truthy(Get(context.value, "user_message", JStr("")))
      && var model := Get(context.value, "jailbreak_model", JStr("jailbreak_detector"));
         model.JStr? && model.s in snap && snap[model.s].IsLoaded()
  {
    CheckLocal(context, "jailbreak_model", "jailbreak_detector", snap, classify)
  }

  /** `check_toxicity_local`: the model named by "toxicity_model", by default
      "toxicity_detector". */
  function CheckToxicityLocal(context: Option<Fields>, snap: Snapshot, classify: Classifier): (flagged: bool)
    ensures flagged ==>
      && context.Some? && Truthy(Get(context.value, "user_message", JStr("")))
      && var model := Get(context.value, "toxicity_model", JStr("toxicity_detector"));
         model.JStr? && model.s in snap && snap[model.s].IsLoaded()
  {
    CheckLocal(context, "toxicity_model", "toxicity_detector", snap, classify)
  }

  /** A flagged message is one the model classified with one of the unsafe labels and a
      score strictly above that model's threshold. */
  lemma FlaggedMeansConfidentUnsafe(context: Option<Fields>, modelKey: string, defaultModel: string,
                                    snap: Snapshot, classify: Classifier)
    requires CheckLocal(context, modelKey, defaultModel, snap, classify)
    ensures var model := Get(context.value, modelKey, JStr(defaultModel));
      && model.JStr? && model.s in snap
      && var p := PredictSingleSpec(snap[model.s], classify, Get(context.value, "user_message", JStr("")).s).value;
         PyText.Lower(p.labelName) in UnsafeLabels && p.score > snap[model.s].threshold
  {
    var model := Get(context.value, modelKey, JStr(defaultModel));
    var s := snap[model.s];
    var text := Get(context.value, "user_message", JStr("")).s;
    var all := PredictSpec(s, classify, [text]);
    var results := classify(s.pipeline.value, [text]);
    assert Postprocess(results[0], s.labels, s.threshold) == Ok(all.value[0]);
  }

  /** What `check_with_local_model` returns: a fail-open dict with the given "label", or
      the model's prediction. */
  datatype CheckResult = Fallback(reason: string) | Predicted(prediction: Prediction)
  {
    /** The result's "is_safe": a fallback is always safe. */
    function IsSafe(): (safe: bool)
      ensures Fallback? ==> safe
    {
      match this
      case Fallback(_) => true
      case Predicted(p) => p.isSafe
    }

    /** The result's "score": a fallback scores 0.0. */
    function Score(): (score: real)
      ensures Fallback? ==> score == 0.0
    {
      match this
      case Fallback(_) => 0.0
      case Predicted(p) => p.score
    }
  }

  /** `return model.predict_single(text)` inside the `try`: the prediction as it is, or
      the "error" fallback when it raises. */
  function Answer(prediction: Result<Prediction, PyError>): (r: CheckResult)
    ensures r.Predicted? <==> prediction.Ok?
    ensures prediction.Ok? ==> r.prediction == prediction.value
    ensures prediction.Err? ==> r == Fallback("error")
  {
    match prediction
    case Ok(p) => Predicted(p)
    case Err(_) => Fallback("error")
  }

  /** `text[:100]` in the log line works on strings and lists and raises TypeError on
      every other value. */
  predicate Sliceable(m: Json) {
    m.JStr? || m.JArr?
  }

  /** `check_with_local_model`: an explicit `text` is checked as given, even when empty;
      only when it is `None` does the context's "user_message" count. No text gives
      "unknown", an unregistered model "model_not_found", an exception "error", and
      otherwise the registered model's `predict_single` result is returned as it is. */
  function CheckWithLocalModel(modelName: string, text: Option<string>, context: Option<Fields>,
                               snap: Snapshot, classify: Classifier): (r: CheckResult)
    ensures text.None? && context.None? ==> r == Fallback("unknown")
    ensures text.None? && context.Some? && !Truthy(Get(context.value, "user_message", JStr(""))) ==> r == Fallback("unknown")
    ensures r.Fallback? ==> r.reason in {"unknown", "model_not_found", "error"}
    ensures r == Fallback("model_not_found") ==> modelName !in snap
    ensures text.Some? && modelName !in snap ==> r == Fallback("model_not_found")
    ensures text.Some? && modelName in snap ==> r == Answer(PredictSingleSpec(snap[modelName], classify, text.value))
    ensures text.None? && context.Some? ==>
      var m := Get(context.value, "user_message", JStr(""));
      && (m.JStr? && m.s != [] && modelName in snap ==> r == Answer(PredictSingleSpec(snap[modelName], classify, m.s)))
      && (Truthy(m) && Sliceable(m) && modelName !in snap ==> r == Fallback("model_not_found"))
      && (Truthy(m) && !Sliceable(m) ==> r == Fallback("error"))
    ensures r.Predicted? ==> modelName in snap && snap[modelName].IsLoaded()
  {
    var message: Option<Json> :=
      if text.Some? then Some(JStr(text.value))
      else if context.None? then None
      else
        var m := Get(context.value, "user_message", JStr(""));
        if Truthy(m) then Some(m) else None;
    match message
    case None => Fallback("unknown")
    case Some(m) =>
      if !Sliceable(m) then Fallback("error")
      else match Lookup(snap, modelName)
        case None => Fallback("model_not_found")
        case Some(service) =>
          if !m.JStr? then Fallback("error")
          else Answer(PredictSingleSpec(service, classify, m.s))
  }

  /** An explicit text wins over the context; with no explicit text, the context's
      message is checked exactly as if it had been passed as the text. */
  lemma TextPrecedence(modelName: string, text: string, context: Option<Fields>, snap: Snapshot, classify: Classifier)
    ensures CheckWithLocalModel(modelName, Some(text), context, snap, classify)
         == CheckWithLocalModel(modelName, Some(text), None, snap, classify)
    ensures context.Some? && Get(context.value, "user_message", JStr("")) == JStr(text) && text != [] ==>
      CheckWithLocalModel(modelName, None, context, snap, classify)
      == CheckWithLocalModel(modelName, Some(text), None, snap, classify)
  {
  }

  /** The jailbreak action flags a message exactly when the generic action, asked about
      the same context and the same model, returns an unsafe result. */
  lemma JailbreakAgreesWithGeneric(context: Option<Fields>, snap: Snapshot, classify: Classifier)
    requires context.Some? ==> Get(context.value, "jailbreak_model", JStr("jailbreak_detector")).JStr?
    ensures var model := if context.None? then "jailbreak_detector"
                         else Get(context.value, "jailbreak_model", JStr("jailbreak_detector")).s;
      CheckJailbreakLocal(context, snap, classify)
      <==> !CheckWithLocalModel(model, None, context, snap, classify).IsSafe()
  {
  }
}
