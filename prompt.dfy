/** The `x_openai.prompt` action (OpenAIController.js:190-204): the text checks, then the
    service call. */
module Prompt {
  import opened Values
  import opened Keys
  import opened Config
  import opened Entities
  import opened Requests

  const MIN_LENGTH: int := 3
  const MAX_LENGTH: int := 6000

  /** The outcome of the checks on `params.text`. */
  datatype PromptCheck = MissingText | TooShort | TooLong | Accepted

  /** `text?.length`: strings and arrays have one; any other value gives `undefined`, and an
      `undefined` length compares false with both bounds. */
  function Length(v: Value): Option<int> {
    match v
    case Str(s) => Some(|s|)
    case List(items) => Some(|items|)
    case _ => None
  }

  /** The three guards in order; `None` is a missing `params`. */
  function ValidatePrompt(params: Option<Params>): (r: PromptCheck)
    ensures r == MissingText <==> params.None? || params.value.text.Undefined?
    ensures r == TooShort <==>
      params.Some? && !params.value.text.Undefined?
      && Length(params.value.text).Some? && Length(params.value.text).value < MIN_LENGTH
    ensures r == TooLong <==>
      params.Some? && Length(params.value.text).Some? && Length(params.value.text).value > MAX_LENGTH
    ensures r == Accepted <==>
      params.Some? && !params.value.text.Undefined?
      && (Length(params.value.text).None? || MIN_LENGTH <= Length(params.value.text).value <= MAX_LENGTH)
  {
    if params.None? || params.value.text.Undefined? then MissingText
    else
      var n := Length(params.value.text);
      if n.Some? && n.value < MIN_LENGTH then TooShort
      else if n.Some? && n.value > MAX_LENGTH then TooLong
      else Accepted
  }

  /** The bounds are inclusive: 3 and 6000 characters pass, 2 and 6001 do not. */
  lemma PromptBounds(p: Params, s: string)
    requires p.text == Str(s)
    ensures |s| <= 2 ==> ValidatePrompt(Some(p)) == TooShort
    ensures 3 <= |s| <= 6000 ==> ValidatePrompt(Some(p)) == Accepted
    ensures |s| >= 6001 ==> ValidatePrompt(Some(p)) == TooLong
  {
  }

  /** A `null` text, or any text without a length, reaches the service. */
  lemma LengthlessTextAccepted(p: Params)
    requires !p.text.Undefined? && Length(p.text).None?
    ensures ValidatePrompt(Some(p)) == Accepted
  {
  }

  /** What the action resolves to: a refusal (a warning is logged and nothing is sent), or
      the outcome of the service call. */
  datatype PromptResult = Refused(reason: PromptCheck) | Called(call: Call)

  /** `performOnEntity(e, "x_openai.prompt", params)` for entity `id` with attributes
      `attrs`. */
  function RunPrompt(id: string, attrs: map<string, Value>, models: Option<map<string, ModelConfig>>,
                     params: Option<Params>, send: Request -> Response): (r: PromptResult)
    ensures ValidatePrompt(params) != Accepted ==> r == Refused(ValidatePrompt(params))
    ensures ValidatePrompt(params) == Accepted ==>
      params.Some? && r == Called(CallService(id, attrs, models, params.value, send))
  {
    var check := ValidatePrompt(params);
    if check != Accepted then Refused(check)
    else Called(CallService(id, attrs, models, params.value, send))
  }

  /** An accepted prompt on an entity whose stored service is "openai" and which has a
      configuration entry is sent to the OpenAI endpoint; without `x_openaimodel` it asks
      for the default model. */
  lemma OpenAIPromptSent(id: string, attrs: map<string, Value>, models: map<string, ModelConfig>,
                         params: Params, send: Request -> Response)
    requires id in models && Get(attrs, SERVICE_ATTR) == Str("openai")
    requires Nullish(Get(attrs, LEGACY_MODEL_ATTR))
    requires ValidatePrompt(Some(params)) == Accepted
    ensures var r := RunPrompt(id, attrs, Some(models), Some(params), send);
      && r.Called? && r.call.Sent?
      && r.call.request.url == OPENAI_URL
      && r.call.request.body.model == Str(DEFAULT_MODEL)
  {
    assert EntryFor(models, id) == Some(models[id]);
  }

  /** An entity a pass created for a valid entry configured with a service spelled "OpenAI"
      (in any letter case), prompted with an accepted text: the request goes to the OpenAI
      endpoint and asks for the default model, whatever the entry's `model`. */
  lemma FreshOpenAIEntityPrompt(m: Store, systemId: string, cfg: ControllerConfig, hash: int, k: string,
                                params: Params, send: Request -> Response)
    requires cfg.models.Some? && k in ValidIds(cfg.models.value) && k !in m
    requires Lower(LastValid(cfg.models.value, k).service.value) == "openai"
    requires ValidatePrompt(Some(params)) == Accepted
    ensures k in Pass(m, systemId, cfg, hash)
    ensures var r := RunPrompt(k, Pass(m, systemId, cfg, hash)[k].attributes,
                               Some(IndexById(cfg.models.value)), Some(params), send);
      && r.Called? && r.call.Sent?
      && r.call.request.url == OPENAI_URL
      && r.call.request.body.model == Str(DEFAULT_MODEL)
  {
    var cs := cfg.models.value;
    PassService(m, systemId, cfg, hash, k);
    PassKeepsLegacyModel(m, systemId, cfg, hash, k);
    ValidIdsMembers(cs);
    var i :| 0 <= i < |cs| && IsValid(cs[i]) && cs[i].id.value == k;
    assert Key(cs[i]) == k;
    IndexByIdKeys(cs);
    OpenAIPromptSent(k, Pass(m, systemId, cfg, hash)[k].attributes, IndexById(cs), params, send);
  }
}
