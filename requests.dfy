/** Request building and reply handling of `callService` (OpenAIController.js:116-183), with
    the network call `fetch` as a function parameter from requests to responses. */
module Requests {
  import opened Values
  import opened Keys
  import opened Config

  /** The call-time parameters of the prompt action. */
  datatype Params = Params(
    text: Value,
    maxTokens: Value,
    temperature: Value,
    topP: Value,
    frequencyPenalty: Value,
    presencePenalty: Value,
    stop: Value)

  datatype Message = Message(role: string, content: Value)

  /** The request body. A `None` field holds `undefined`, which JSON serialisation omits. */
  datatype Body = Body(
    model: Value,
    messages: seq<Message>,
    maxTokens: Option<Value>,
    maxCompletionTokens: Option<Value>,
    temperature: Value,
    topP: Value,
    frequencyPenalty: Value,
    presencePenalty: Value,
    stop: Value)

  /** A POST request: URL, headers in insertion order, body. */
  datatype Request = Request(url: string, headers: seq<(string, string)>, body: Body)

  /** What `fetch` resolves to: `response.ok`, `.url`, `.status`, `.statusText` and the
      decoded `response.json()`. */
  datatype Response = Response(ok: bool, url: string, status: int, statusText: string, json: Value)

  datatype CallError =
    /** The TypeError of reading a field of a missing entry: `models` is still null, or
        `models[e.id]` is undefined and one of its fields is read. */
    | MissingModelConfig
    /** `Model is not supported: <service>`. */
    | UnsupportedService(service: Value)
    /** `HTTP error - <url> - <status> - <statusText>`. */
    | HttpError(url: string, status: int, statusText: string)
    /** The TypeError of a reply without `choices[0].message`. */
    | MalformedResponse

  /** A call either fails before `fetch` is reached, or sends exactly one request. */
  datatype Call = Rejected(error: CallError) | Sent(request: Request, reply: Result<Value, CallError>)

  const OPENAI_URL: string := "https://api.openai.com/v1/chat/completions"
  const DEFAULT_MODEL: string := "gpt-4"
  const JSON_CONTENT: (string, string) := ("Content-Type", "application/json")

  /** The five generation parameters and `stop`. */
  datatype Field = MaxTokens | Temperature | TopP | FrequencyPenalty | PresencePenalty | Stop

  function ParamOf(p: Params, f: Field): Value {
    match f
    case MaxTokens => p.maxTokens
    case Temperature => p.temperature
    case TopP => p.topP
    case FrequencyPenalty => p.frequencyPenalty
    case PresencePenalty => p.presencePenalty
    case Stop => p.stop
  }

  function ConfigOf(c: ModelConfig, f: Field): Value {
    match f
    case MaxTokens => c.maxTokens
    case Temperature => c.temperature
    case TopP => c.topP
    case FrequencyPenalty => c.frequencyPenalty
    case PresencePenalty => c.presencePenalty
    case Stop => c.stop
  }

  /** The hardcoded defaults (OpenAIController.js:129-134). */
  function DefaultOf(f: Field): Value {
    match f
    case MaxTokens => Num(2000.0)
    case Temperature => Num(0.5)
    case TopP => Num(1.0)
    case FrequencyPenalty => Num(0.0)
    case PresencePenalty => Num(0.0)
    case Stop => Null
  }

  /** The value of a JavaScript `||` chain: its first truthy operand, or its last one. */
  function FirstTruthy(vs: seq<Value>): Value
    requires vs != []
  {
    if |vs| == 1 || Truthy(vs[0]) then vs[0] else FirstTruthy(vs[1..])
  }

  /** `a || b || c` groups as `a || (b || c)` and yields the first truthy operand. */
  lemma OrChain(a: Value, b: Value, c: Value)
    ensures FirstTruthy([a, b, c]) == Or(a, Or(b, c))
  {
    var bc, abc := [b, c], [a, b, c];
    assert bc[1..] == [c];
    assert FirstTruthy(bc) == Or(b, c);
    assert abc[1..] == bc;
  }

  /** `params.f || config.f || default`. The config entry is only read when the call-time
      value is falsy; reading it when it is missing is the TypeError `None`. */
  function Resolve(p: Params, cfg: Option<ModelConfig>, f: Field): (r: Option<Value>)
    ensures cfg.Some? ==> r == Some(FirstTruthy([ParamOf(p, f), ConfigOf(cfg.value, f), DefaultOf(f)]))
    ensures r.None? <==> cfg.None? && !Truthy(ParamOf(p, f))
  {
    match cfg
    case None => if Truthy(ParamOf(p, f)) then Some(ParamOf(p, f)) else None
    case Some(c) =>
      OrChain(ParamOf(p, f), ConfigOf(c, f), DefaultOf(f));
      Some(Or(ParamOf(p, f), Or(ConfigOf(c, f), DefaultOf(f))))
  }

  /** A falsy call-time value (`0`, `""`, `false`, `null`) never overrides the
      configuration or the default. */
  lemma FalsyParamIgnored(p: Params, c: ModelConfig, f: Field)
    requires !Truthy(ParamOf(p, f))
    ensures Resolve(p, Some(c), f) == Some(Or(ConfigOf(c, f), DefaultOf(f)))
  {
  }

  /** The string a template literal or a header value makes of an optional string. */
  function Text(o: Option<string>): string {
    match o
    case Some(s) => s
    case None => "undefined"
  }

  /** The `body` object of OpenAIController.js:126-135. */
  function BuildBody(attrs: map<string, Value>, cfg: Option<ModelConfig>, p: Params): Option<Body> {
    var mt, t, tp := Resolve(p, cfg, MaxTokens), Resolve(p, cfg, Temperature), Resolve(p, cfg, TopP);
    var fp, pp, st := Resolve(p, cfg, FrequencyPenalty), Resolve(p, cfg, PresencePenalty), Resolve(p, cfg, Stop);
    if mt.None? || t.None? || tp.None? || fp.None? || pp.None? || st.None? then None
    else Some(Body(
      Coalesce(Get(attrs, LEGACY_MODEL_ATTR), Str(DEFAULT_MODEL)),
      [Message("user", p.text)],
      Some(mt.value), None, t.value, tp.value, fp.value, pp.value, st.value))
  }

  /** The body and the per-service switch (OpenAIController.js:122-164) for an entity with
      attributes `attrs` whose configuration entry is `cfg`. */
  function BuildRequest(attrs: map<string, Value>, cfg: Option<ModelConfig>, p: Params): (r: Result<Request, CallError>)
    ensures r.Ok? ==> cfg.Some?
    ensures r.Ok? ==> Get(attrs, SERVICE_ATTR) in {Str("openai"), Str("azure")}
    ensures cfg.Some? && Get(attrs, SERVICE_ATTR) !in {Str("openai"), Str("azure")} ==>
      r == Err(UnsupportedService(Get(attrs, SERVICE_ATTR)))
    ensures cfg.Some? && Get(attrs, SERVICE_ATTR) in {Str("openai"), Str("azure")} ==> r.Ok?
    ensures r.Ok? ==>
      && r.value.body.messages == [Message("user", p.text)]
      && r.value.body.model == Coalesce(Get(attrs, LEGACY_MODEL_ATTR), Str(DEFAULT_MODEL))
      && Some(r.value.body.temperature) == Resolve(p, cfg, Temperature)
      && Some(r.value.body.topP) == Resolve(p, cfg, TopP)
      && Some(r.value.body.frequencyPenalty) == Resolve(p, cfg, FrequencyPenalty)
      && Some(r.value.body.presencePenalty) == Resolve(p, cfg, PresencePenalty)
      && Some(r.value.body.stop) == Resolve(p, cfg, Stop)
    ensures r.Ok? && Get(attrs, SERVICE_ATTR) == Str("openai") ==>
      && r.value.url == OPENAI_URL
      && r.value.headers == [JSON_CONTENT, ("Authorization", "Bearer " + Text(cfg.value.apiKey))]
      && r.value.body.maxCompletionTokens == Resolve(p, cfg, MaxTokens)
      && r.value.body.maxTokens.None?
    ensures r.Ok? && Get(attrs, SERVICE_ATTR) == Str("azure") ==>
      && r.value.url == Text(cfg.value.endpoint)
      && r.value.headers == [JSON_CONTENT, ("api-key", Text(cfg.value.apiKey))]
      && r.value.body.maxTokens == Resolve(p, cfg, MaxTokens)
      && r.value.body.maxCompletionTokens.None?
  {
    var service := Get(attrs, SERVICE_ATTR);
    match BuildBody(attrs, cfg, p)
    case None => Err(MissingModelConfig)
    case Some(body) =>
      if service == Str("openai") then
        if cfg.None? then Err(MissingModelConfig)
        else Ok(Request(OPENAI_URL, [JSON_CONTENT, ("Authorization", "Bearer " + Text(cfg.value.apiKey))],
                        body.(maxCompletionTokens := body.maxTokens, maxTokens := None)))
      else if service == Str("azure") then
        if cfg.None? then Err(MissingModelConfig)
        else Ok(Request(Text(cfg.value.endpoint), [JSON_CONTENT, ("api-key", Text(cfg.value.apiKey))], body))
      else Err(UnsupportedService(service))
  }

  /** The entity's model attribute is read under the key `x_openaimodel`, so an entity whose
      stored value there is missing asks for `gpt-4`, whatever `x_openai.model` holds. */
  lemma ModelFallsBack(attrs: map<string, Value>, cfg: Option<ModelConfig>, p: Params)
    requires Nullish(Get(attrs, LEGACY_MODEL_ATTR))
    requires BuildRequest(attrs, cfg, p).Ok?
    ensures BuildRequest(attrs, cfg, p).value.body.model == Str(DEFAULT_MODEL)
  {
  }

  /** The reply shape `{choices: [{message: {content: c}}, ...]}`. */
  predicate HasContent(data: Value, content: Value) {
    && data.Obj? && "choices" in data.fields
    && var choices := data.fields["choices"];
    && choices.List? && |choices.items| > 0
    && var choice := choices.items[0];
    && choice.Obj? && "message" in choice.fields
    && var message := choice.fields["message"];
    && message.Obj? && "content" in message.fields
    && message.fields["content"] == content
  }

  /** `data.choices[0].message.content`: reading past a missing `choices`, an empty list or a
      choice without `message` throws, while a message without `content` yields `undefined`. */
  function Extract(data: Value): (r: Result<Value, CallError>)
    ensures forall c :: HasContent(data, c) ==> r == Ok(c)
    ensures r.Err? ==> r.error == MalformedResponse
    ensures Nullish(data) ==> r.Err?
    ensures data.Obj? && "choices" !in data.fields ==> r == Err(MalformedResponse)
    ensures data.Obj? && "choices" in data.fields && data.fields["choices"] == List([]) ==>
      r == Err(MalformedResponse)
    ensures (data.Obj? && "choices" in data.fields && data.fields["choices"].List?
             && |data.fields["choices"].items| > 0 && data.fields["choices"].items[0].Obj?
             && "message" !in data.fields["choices"].items[0].fields) ==>
      r == Err(MalformedResponse)
    ensures (data.Obj? && "choices" in data.fields && data.fields["choices"].List?
             && |data.fields["choices"].items| > 0 && data.fields["choices"].items[0].Obj?
             && "message" in data.fields["choices"].items[0].fields
             && data.fields["choices"].items[0].fields["message"].Obj?
             && "content" !in data.fields["choices"].items[0].fields["message"].fields) ==>
      r == Ok(Undefined)
  {
    match Member(data, "choices")
    case None => Err(MalformedResponse)
    case Some(choices) =>
      match First(choices)
      case None => Err(MalformedResponse)
      case Some(choice) =>
        match Member(choice, "message")
        case None => Err(MalformedResponse)
        case Some(message) =>
          match Member(message, "content")
          case None => Err(MalformedResponse)
          case Some(content) => Ok(content)
  }

  /** OpenAIController.js:174-182: a non-ok response is rejected with its url, status and
      status text; an ok one yields the first choice's message content. */
  function HandleResponse(resp: Response): (r: Result<Value, CallError>)
    ensures !resp.ok ==> r == Err(HttpError(resp.url, resp.status, resp.statusText))
    ensures resp.ok ==> forall c :: HasContent(resp.json, c) ==> r == Ok(c)
    ensures resp.ok && r.Err? ==> r.error == MalformedResponse
    ensures resp.ok ==> r == Extract(resp.json)
  {
    if !resp.ok then Err(HttpError(resp.url, resp.status, resp.statusText))
    else Extract(resp.json)
  }

  /** `models[id]` as an optional entry. */
  function EntryFor(models: map<string, ModelConfig>, id: string): Option<ModelConfig> {
    if id in models then Some(models[id]) else None
  }

  /** `callService(e, params)` for entity `id` with attributes `attrs`, the loaded `models`
      map (`None` while it is still null) and the network `send`. */
  function CallService(id: string, attrs: map<string, Value>, models: Option<map<string, ModelConfig>>,
                       p: Params, send: Request -> Response): (r: Call)
    ensures models.None? ==> r == Rejected(MissingModelConfig)
    ensures models.Some? ==> (r.Sent? <==> BuildRequest(attrs, EntryFor(models.value, id), p).Ok?)
    ensures r.Sent? ==> models.Some? && r.request == BuildRequest(attrs, EntryFor(models.value, id), p).value
    ensures r.Sent? ==> r.reply == HandleResponse(send(r.request))
    ensures Get(attrs, SERVICE_ATTR) !in {Str("openai"), Str("azure")} ==> r.Rejected?
  {
    match models
    case None => Rejected(MissingModelConfig)
    case Some(ms) =>
      match BuildRequest(attrs, EntryFor(ms, id), p)
      case Err(e) => Rejected(e)
      case Ok(req) => Sent(req, HandleResponse(send(req)))
  }
}
