/** Sending a prompt: `send_to_llm` chooses one of three senders,
    `send_to_openai`, `send_to_openrouter` and `send_to_o3_pro`, which share
    one sequence of steps and differ in client settings, system message and
    request shape. The network is not modelled: `construct` says whether a
    client with given settings can be built, `call` answers a request with
    the reply's text (itself `None` when the reply carries none) or `None`
    where the call raises, and `encode` stands for the tokenizer library. */
module Dispatch {
  import opened Wrappers
  import opened Registry
  import opened Parameters
  import opened Accounting

  /** The three senders: the response API for `o3-pro`, chat completions
      at OpenAI, chat completions at OpenRouter. */
  datatype Route = ResponseApi | OpenAIChat | OpenRouterChat

  /** What a sender gives the client it builds. `None` leaves a setting to
      the client library's default. */
  datatype ClientSettings = ClientSettings(baseUrl: Option<string>, apiKeyVariable: Option<string>, timeout: real, maxRetries: nat)

  function ClientFor(route: Route): ClientSettings {
    match route
    case ResponseApi => ClientSettings(None, None, 60.0, 2)
    case OpenAIChat => ClientSettings(None, None, 30.0, 2)
    case OpenRouterChat => ClientSettings(Some(OpenRouterUrl), Some(OpenRouterKeyVariable), 30.0, 2)
  }

  const OpenRouterUrl: string := "https://openrouter.ai/api/v1"
  const OpenRouterKeyVariable: string := "OPENROUTER_API_KEY"

  /** The system message each sender puts before the prompt. */
  function Persona(route: Route): string {
    match route
    case ResponseApi => AnalystPersona
    case _ => AssistantPersona
  }

  const AnalystPersona: string := "You are a security assistant specialized in vulnerability analysis."
  const AssistantPersona: string := "You are a security assistant."

  datatype Message = Message(role: string, content: string)

  /** A request: the route names the endpoint (and whether the messages go
      in `input` or in `messages`); `params` are the remaining keywords. */
  datatype Request = Request(route: Route, model: string, messages: seq<Message>, params: Params)

  /** Token counts and cost of a call; `None` where counting was disabled
      or failed. */
  datatype Usage = Usage(inputTokens: Option<nat>, outputTokens: Option<nat>, cost: Option<real>)

  /** A completed call: what was sent, the text returned, the usage. */
  datatype Outcome = Outcome(request: Request, content: Option<string>, usage: Usage)

  /** The fixed `reasoning` keyword of the response API request. */
  const HighEffort: Value := Mapping(map["effort" := "high"])

  // ---------------------------------------------------------------------
  // The specification

  /** The keywords handed to validation: the temperature when given, then
      the caller's other keywords. */
  function CallParameters(temperature: Option<real>, kwargs: Params): Params {
    (if temperature.Some? then map["temperature" := Number(temperature.value)] else map[]) + kwargs
  }

  /** The request a sender builds from validated parameters: the system
      message and the prompt, and for the response API the fixed high
      reasoning effort, which a validated `reasoning` keyword replaces. */
  function RequestFor(route: Route, model: string, prompt: string, validated: Params): Request {
    var messages := [Message("system", Persona(route)), Message("user", prompt)];
    if route == ResponseApi then Request(route, model, messages, map["reasoning" := HighEffort] + validated)
    else Request(route, model, messages, validated)
  }

  /** Counts and cost: the prompt is counted when counting is on; the reply
      only when counting is on and the reply has text; the cost only when
      both counts exist. */
  function UsageFor(counting: bool, prompt: string, content: Option<string>, model: string,
                    encode: (string, string) -> Option<nat>): Usage {
    var input := if counting then Some(CountTokens(prompt, model, encode)) else None;
    var output := if counting && content.Some? then Some(CountTokens(content.value, model, encode)) else None;
    var cost := if input.Some? && output.Some? then Some(CalculateCost(input.value, output.value, model)) else None;
    Usage(input, output, cost)
  }

  /** What a sender does, as a function of its inputs, of the outcome of
      validating its keywords and of the outside world: the client is built
      first, then the validation outcome decides, then the request is
      sent. */
  function SendSpec(route: Route, prompt: string, model: string, validation: Result<Params, Error>, counting: bool,
                    construct: ClientSettings -> bool, call: Request -> Option<Option<string>>,
                    encode: (string, string) -> Option<nat>): Result<Outcome, Error> {
    if !construct(ClientFor(route)) then Failure(ClientFailure)
    else match validation
      case Failure(e) => Failure(e)
      case Success(validated) =>
        var request := RequestFor(route, model, prompt, validated);
        match call(request)
        case None => Failure(CallFailure)
        case Some(content) => Success(Outcome(request, content, UsageFor(counting, prompt, content, model, encode)))
  }

  /** The sender `send_to_llm` picks: `o3-pro` by name, then the provider;
      an unknown model raises before any client is built. */
  function RouteFor(model: string): (r: Result<Route, Error>)
    ensures r.Success? <==> model == "o3-pro" || Lookup(model).Some?
    ensures r.Failure? ==> r.error == UnknownModel(model)
  {
    if model == "o3-pro" then Success(ResponseApi)
    else match IsOpenAIModel(model)
      case Failure(e) => Failure(e)
      case Success(openai) => Success(if openai then OpenAIChat else OpenRouterChat)
  }

  // ---------------------------------------------------------------------
  // The operations

  /** The steps the three senders share. */
  method Send(route: Route, prompt: string, model: string, temperature: Option<real>, counting: bool, kwargs: Params,
              construct: ClientSettings -> bool, call: Request -> Option<Option<string>>,
              encode: (string, string) -> Option<nat>) returns (r: Result<Outcome, Error>)
    requires "temperature" !in kwargs
    ensures r == SendSpec(route, prompt, model, Validate(model, CallParameters(temperature, kwargs)), counting, construct, call, encode)
  {
    if !construct(ClientFor(route)) {
      return Failure(ClientFailure);
    }
    var params: Params := if temperature.Some? then map["temperature" := Number(temperature.value)] else map[];
    params := params + kwargs;
    assert params == CallParameters(temperature, kwargs);
    var validation := ValidateModelParameters(model, params);
    if validation.Failure? {
      return Failure(validation.error);
    }
    var validated := validation.value;
    var inputTokens: Option<nat> := None;
    var outputTokens: Option<nat> := None;
    var cost: Option<real> := None;
    if counting {
      inputTokens := Some(CountTokens(prompt, model, encode));
    }
    var request := RequestFor(route, model, prompt, validated);
    var response := call(request);
    if response.None? {
      return Failure(CallFailure);
    }
    var content := response.value;
    if counting && content.Some? {
      outputTokens := Some(CountTokens(content.value, model, encode));
    }
    if inputTokens.Some? && outputTokens.Some? {
      cost := Some(CalculateCost(inputTokens.value, outputTokens.value, model));
    }
    return Success(Outcome(request, content, Usage(inputTokens, outputTokens, cost)));
  }

  /** `send_to_openai`. */
  method SendToOpenAI(prompt: string, model: string, temperature: Option<real>, counting: bool, kwargs: Params,
                      construct: ClientSettings -> bool, call: Request -> Option<Option<string>>,
                      encode: (string, string) -> Option<nat>) returns (r: Result<Outcome, Error>)
    requires "temperature" !in kwargs
    ensures r == SendSpec(OpenAIChat, prompt, model, Validate(model, CallParameters(temperature, kwargs)), counting, construct, call, encode)
  {
    r := Send(OpenAIChat, prompt, model, temperature, counting, kwargs, construct, call, encode);
  }

  /** `send_to_openrouter`. */
  method SendToOpenRouter(prompt: string, model: string, temperature: Option<real>, counting: bool, kwargs: Params,
                          construct: ClientSettings -> bool, call: Request -> Option<Option<string>>,
                          encode: (string, string) -> Option<nat>) returns (r: Result<Outcome, Error>)
    requires "temperature" !in kwargs
    ensures r == SendSpec(OpenRouterChat, prompt, model, Validate(model, CallParameters(temperature, kwargs)), counting, construct, call, encode)
  {
    r := Send(OpenRouterChat, prompt, model, temperature, counting, kwargs, construct, call, encode);
  }

  /** `send_to_o3_pro`. */
  method SendToO3Pro(prompt: string, model: string, temperature: Option<real>, counting: bool, kwargs: Params,
                     construct: ClientSettings -> bool, call: Request -> Option<Option<string>>,
                     encode: (string, string) -> Option<nat>) returns (r: Result<Outcome, Error>)
    requires "temperature" !in kwargs
    ensures r == SendSpec(ResponseApi, prompt, model, Validate(model, CallParameters(temperature, kwargs)), counting, construct, call, encode)
  {
    r := Send(ResponseApi, prompt, model, temperature, counting, kwargs, construct, call, encode);
  }

  /** `send_to_llm`: route, then send. */
  method SendToLlm(prompt: string, model: string, temperature: Option<real>, counting: bool, kwargs: Params,
                   construct: ClientSettings -> bool, call: Request -> Option<Option<string>>,
                   encode: (string, string) -> Option<nat>) returns (r: Result<Outcome, Error>)
    requires "temperature" !in kwargs
    ensures RouteFor(model).Failure? ==> r == Failure(UnknownModel(model))
    ensures RouteFor(model).Success? ==>
      r == SendSpec(RouteFor(model).value, prompt, model, Validate(model, CallParameters(temperature, kwargs)), counting, construct, call, encode)
  {
    if model == "o3-pro" {
      r := SendToO3Pro(prompt, model, temperature, counting, kwargs, construct, call, encode);
      return;
    }
    var openai := IsOpenAIModel(model);
    if openai.Failure? {
      return Failure(openai.error);
    }
    if openai.value {
      r := SendToOpenAI(prompt, model, temperature, counting, kwargs, construct, call, encode);
    } else {
      r := SendToOpenRouter(prompt, model, temperature, counting, kwargs, construct, call, encode);
    }
  }

  // ---------------------------------------------------------------------
  // Properties

  /** Only `o3-pro` goes to the response API; every other known model goes
      to OpenAI chat completions exactly when its provider is `openai`. */
  lemma RouteRule(model: string)
    ensures RouteFor(model) == Success(ResponseApi) <==> model == "o3-pro"
    ensures model != "o3-pro" && Lookup(model).Some? ==>
      RouteFor(model) == Success(if Lookup(model).value in OpenAIProviderModels then OpenAIChat else OpenRouterChat)
  {
  }

  /** The usage rule: the prompt is counted exactly when counting is on;
      the reply exactly when counting is on and it has text; the cost exists
      exactly when both counts do, and is the price of those counts. */
  lemma UsageRule(counting: bool, prompt: string, content: Option<string>, model: string, encode: (string, string) -> Option<nat>)
    ensures var u := UsageFor(counting, prompt, content, model, encode);
      && (u.inputTokens.Some? <==> counting)
      && (u.outputTokens.Some? <==> counting && content.Some?)
      && (u.cost.Some? <==> counting && content.Some?)
      && (u.cost.Some? ==> u.cost.value == CalculateCost(u.inputTokens.value, u.outputTokens.value, model))
      && (u.cost.Some? ==> u.cost.value >= 0.0)
  {
    var u := UsageFor(counting, prompt, content, model, encode);
    if u.cost.Some? {
      CostMonotone(0, 0, u.inputTokens.value, u.outputTokens.value, model);
    }
  }

  /** Whatever the world does, the order of failures is: client, then
      validation, then call; a completed send returns the request built
      from the validated keywords, the call's text and its usage. */
  lemma SendSteps(route: Route, prompt: string, model: string, validation: Result<Params, Error>, counting: bool,
                  construct: ClientSettings -> bool, call: Request -> Option<Option<string>>,
                  encode: (string, string) -> Option<nat>)
    ensures var r := SendSpec(route, prompt, model, validation, counting, construct, call, encode);
      && (!construct(ClientFor(route)) ==> r == Failure(ClientFailure))
      && (construct(ClientFor(route)) && validation.Failure? ==> r == Failure(validation.error))
      && (r.Success? <==> construct(ClientFor(route)) && validation.Success? && call(RequestFor(route, model, prompt, validation.value)).Some?)
      && (r.Success? ==>
            && r.value.request == RequestFor(route, model, prompt, validation.value)
            && r.value.content == call(r.value.request).value
            && r.value.usage == UsageFor(counting, prompt, r.value.content, model, encode))
  {
  }

  /** `send_to_llm` refuses an unknown model whatever the world does, and
      the error names the model. */
  lemma UnknownModelRejected(model: string)
    requires Lookup(model).None? && model != "o3-pro"
    ensures RouteFor(model) == Failure(UnknownModel(model))
  {
  }

  /** Every request carries the sender's system message and then the
      prompt, and the model it was asked for. */
  lemma RequestShape(route: Route, model: string, prompt: string, validated: Params)
    ensures RequestFor(route, model, prompt, validated).messages == [Message("system", Persona(route)), Message("user", prompt)]
    ensures RequestFor(route, model, prompt, validated).model == model
    ensures route != ResponseApi ==> RequestFor(route, model, prompt, validated).params == validated
  {
  }

  /** The response API request always asks for a reasoning effort: the
      validated `reasoning` keyword when there is one, high otherwise. Its
      other keywords are the validated ones. */
  lemma ReasoningOverride(model: string, prompt: string, validated: Params)
    ensures var p := RequestFor(ResponseApi, model, prompt, validated).params;
      && "reasoning" in p
      && p["reasoning"] == (if "reasoning" in validated then validated["reasoning"] else HighEffort)
      && (forall k | k in p && k != "reasoning" :: k in validated && p[k] == validated[k])
  {
  }

  /** For `o3-pro` the keywords always validate, the caller's `reasoning`
      keyword reaches the request in place of the high effort, and no
      temperature is sent. */
  lemma O3ProReasoning(model: string, prompt: string, temperature: Option<real>, kwargs: Params)
    requires "temperature" !in kwargs && Lookup(model) == Some(O3Pro)
    ensures Validate(model, CallParameters(temperature, kwargs)).Success?
    ensures var p := RequestFor(ResponseApi, model, prompt, Validate(model, CallParameters(temperature, kwargs)).value).params;
      && "temperature" !in p
      && p["reasoning"] == (if "reasoning" in kwargs then kwargs["reasoning"] else HighEffort)
  {
    var c := ConfigOf(O3Pro);
    var params := CallParameters(temperature, kwargs);
    assert Validate(model, params) == Normalize(c, params);
    ParameterTable(O3Pro);
    O3ProNormalize(c, params);
    assert "reasoning" in params <==> "reasoning" in kwargs;
    assert "reasoning" in kwargs ==> params["reasoning"] == kwargs["reasoning"];
  }

  lemma O3ProNormalize(c: Config, params: Params)
    requires c.supportedParameters == ReasoningParameters + ["reasoning"]
    ensures Normalize(c, params).Success?
    ensures "temperature" !in Normalize(c, params).value
    ensures "reasoning" in params <==> "reasoning" in Normalize(c, params).value
    ensures "reasoning" in params ==> Normalize(c, params).value["reasoning"] == params["reasoning"]
  {
    assert "reasoning" in c.supportedParameters && "temperature" !in c.supportedParameters;
    TemperatureRule(c, params);
    if "reasoning" in params {
      CopyRule(c, params, "reasoning");
    } else {
      KeysOrigin(c, params);
    }
  }

  /** A reasoning model never receives a temperature, whatever the caller
      passes. */
  lemma NoTemperatureForReasoningModels(route: Route, model: string, prompt: string, params: Params)
    requires Lookup(model).Some? && Lookup(model).value in ReasoningModels
    requires Validate(model, params).Success?
    ensures "temperature" !in RequestFor(route, model, prompt, Validate(model, params).value).params
  {
    RegisteredKeysSupported(model, params);
  }

  /** For a chat model, a temperature the caller gives is the one sent when
      it is in range and refused otherwise; none given sends the default,
      0. */
  lemma ChatTemperatureSent(route: Route, model: string, prompt: string, temperature: Option<real>, kwargs: Params)
    requires "temperature" !in kwargs
    requires Lookup(model).Some? && Lookup(model).value !in ReasoningModels
    ensures var v := Validate(model, CallParameters(temperature, kwargs));
      && (v.Success? <==> temperature.None? || 0.0 <= temperature.value <= 2.0)
      && (v.Success? ==>
            var p := RequestFor(route, model, prompt, v.value).params;
            "temperature" in p && p["temperature"] == Number(if temperature.Some? then temperature.value else 0.0))
  {
    var m := Lookup(model).value;
    var c := ConfigOf(m);
    var params := CallParameters(temperature, kwargs);
    assert Validate(model, params) == Normalize(c, params);
    ParameterTable(m);
    TemperatureTable(m);
    ChatNormalize(c, temperature, kwargs);
  }

  lemma ChatNormalize(c: Config, temperature: Option<real>, kwargs: Params)
    requires "temperature" !in kwargs
    requires "temperature" in c.supportedParameters && c.defaultTemperature == 0.0
    ensures var v := Normalize(c, CallParameters(temperature, kwargs));
      && (v.Success? <==> temperature.None? || 0.0 <= temperature.value <= c.maxTemperature)
      && (v.Success? ==> "temperature" in v.value && v.value["temperature"] == Number(if temperature.Some? then temperature.value else 0.0))
  {
    var params := CallParameters(temperature, kwargs);
    assert "temperature" in params <==> temperature.Some?;
    assert temperature.Some? ==> params["temperature"] == Number(temperature.value);
    TemperatureRule(c, params);
  }
}
