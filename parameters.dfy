/** `validate_model_parameters`: the keyword arguments of a call, checked
    and reshaped for one model's configuration. */
module Parameters {
  import opened Wrappers
  import opened Registry

  /** A keyword argument's value: a number, a text, or a flat mapping such
      as the `reasoning` argument `{"effort": "high"}`. */
  datatype Value = Number(x: real) | Text(s: string) | Mapping(entries: map<string, string>)

  type Params = map<string, Value>

  // ---------------------------------------------------------------------
  // The specification

  /** Whether the copying loop forwards argument `k` for a model that
      supports `sp`: a supported name, except `max_tokens` when the model
      takes `max_completion_tokens` instead. */
  predicate Forwarded(sp: seq<string>, k: string) {
    k in sp && !(k == "max_tokens" && "max_completion_tokens" in sp)
  }

  /** The arguments among `keys` that the copying loop forwards, with the
      caller's values. */
  function Copied(kwargs: Params, sp: seq<string>, keys: set<string>): (out: Params)
    requires keys <= kwargs.Keys
    ensures out.Keys == set k | k in keys && Forwarded(sp, k)
    ensures forall k | k in out :: out[k] == kwargs[k]
  {
    map k | k in keys && Forwarded(sp, k) :: kwargs[k]
  }

  /** Visiting one more argument adds its entry when it is forwarded. */
  lemma CopiedStep(kwargs: Params, sp: seq<string>, done: set<string>, p: string, base: Params)
    requires done <= kwargs.Keys && p in kwargs
    ensures Forwarded(sp, p) ==> base + Copied(kwargs, sp, done + {p}) == (base + Copied(kwargs, sp, done))[p := kwargs[p]]
    ensures !Forwarded(sp, p) ==> Copied(kwargs, sp, done + {p}) == Copied(kwargs, sp, done)
  {
  }

  /** The temperature entry: the caller's value when it is a number in
      `[0, maxTemperature]`, the default when the caller gives none, an
      error for any other value; nothing for a model without temperature. */
  function TemperatureEntry(c: Config, kwargs: Params): (r: Result<Params, Error>)
    ensures r.Success? ==> r.value.Keys <= {"temperature"}
  {
    if "temperature" !in c.supportedParameters then Success(map[])
    else if "temperature" !in kwargs then Success(map["temperature" := Number(c.defaultTemperature)])
    else match kwargs["temperature"]
      case Number(x) =>
        if 0.0 <= x <= c.maxTemperature then Success(map["temperature" := Number(x)])
        else Failure(TemperatureOutOfRange(x, c.maxTemperature))
      case _ => Failure(TemperatureNotComparable)
  }

  /** The output-length entry set before the loop: `max_tokens` renamed to
      `max_completion_tokens` where the model takes that, kept as
      `max_tokens` otherwise, whether or not the model lists it. */
  function TokenLimitEntry(c: Config, kwargs: Params): (out: Params)
    ensures out.Keys <= {"max_tokens", "max_completion_tokens"}
    ensures forall k | k in out :: "max_tokens" in kwargs && out[k] == kwargs["max_tokens"]
  {
    if "max_tokens" !in kwargs then map[]
    else if "max_completion_tokens" in c.supportedParameters then map["max_completion_tokens" := kwargs["max_tokens"]]
    else map["max_tokens" := kwargs["max_tokens"]]
  }

  /** The parameters a configuration makes of the arguments: the
      temperature entry, then the output-length entry, then every forwarded
      argument, a later write replacing an earlier one. */
  function Normalize(c: Config, kwargs: Params): Result<Params, Error> {
    match TemperatureEntry(c, kwargs)
    case Failure(e) => Failure(e)
    case Success(t) =>
      Success(t + TokenLimitEntry(c, kwargs) + Copied(kwargs, c.supportedParameters, kwargs.Keys))
  }

  /** `validate_model_parameters` as a function of its inputs. */
  function Validate(model: string, kwargs: Params): Result<Params, Error> {
    match GetModelConfig(model)
    case Failure(e) => Failure(e)
    case Success(c) => Normalize(c, kwargs)
  }

  // ---------------------------------------------------------------------
  // The operation

  /** The source's steps: look the model up, set the temperature, map the
      output length, then copy the supported arguments. */
  method ValidateModelParameters(model: string, kwargs: Params) returns (r: Result<Params, Error>)
    ensures r == Validate(model, kwargs)
  {
    var lookup := GetModelConfig(model);
    if lookup.Failure? {
      return Failure(lookup.error);
    }
    var config := lookup.value;
    var sp := config.supportedParameters;
    var validated: Params := map[];
    if "temperature" in sp {
      if "temperature" in kwargs {
        var temp := kwargs["temperature"];
        if !temp.Number? {
          return Failure(TemperatureNotComparable);
        }
        if !(0.0 <= temp.x <= config.maxTemperature) {
          return Failure(TemperatureOutOfRange(temp.x, config.maxTemperature));
        }
        validated := validated["temperature" := temp];
      } else {
        validated := validated["temperature" := Number(config.defaultTemperature)];
      }
    }
    if "max_tokens" in kwargs && "max_completion_tokens" in sp {
      validated := validated["max_completion_tokens" := kwargs["max_tokens"]];
    } else if "max_tokens" in kwargs {
      validated := validated["max_tokens" := kwargs["max_tokens"]];
    }
    assert validated == TemperatureEntry(config, kwargs).value + TokenLimitEntry(config, kwargs);
    validated := ForwardSupported(kwargs, sp, validated);
    return Success(validated);
  }

  /** The copying loop of `validate_model_parameters`: every argument the
      model supports is written into `validated`, except `max_tokens` where
      it was renamed. The arguments are visited in no particular order: the
      result does not depend on it. */
  method ForwardSupported(kwargs: Params, sp: seq<string>, validated: Params) returns (out: Params)
    ensures out == validated + Copied(kwargs, sp, kwargs.Keys)
  {
    out := validated;
    var todo := kwargs.Keys;
    ghost var done: set<string> := {};
    while todo != {}
      invariant todo <= kwargs.Keys && done == kwargs.Keys - todo
      invariant out == validated + Copied(kwargs, sp, done)
      decreases |todo|
    {
      var param :| param in todo;
      CopiedStep(kwargs, sp, done, param, validated);
      todo := todo - {param};
      done := done + {param};
      if param == "max_tokens" && "max_completion_tokens" in sp {
        continue;
      }
      if param in sp {
        out := out[param := kwargs[param]];
      }
    }
    assert done == kwargs.Keys;
  }

  // ---------------------------------------------------------------------
  // Properties

  /** The temperature rule: a model with temperature gets the caller's
      value, checked against its range, or its default; a model without
      temperature never gets one, whatever the caller passed. */
  lemma TemperatureRule(c: Config, kwargs: Params)
    ensures "temperature" !in c.supportedParameters ==>
      Normalize(c, kwargs).Success? && "temperature" !in Normalize(c, kwargs).value
    ensures "temperature" in c.supportedParameters && "temperature" !in kwargs ==>
      Normalize(c, kwargs).Success? && Normalize(c, kwargs).value["temperature"] == Number(c.defaultTemperature)
    ensures "temperature" in c.supportedParameters && "temperature" in kwargs ==>
      (Normalize(c, kwargs).Success? <==> kwargs["temperature"].Number? && 0.0 <= kwargs["temperature"].x <= c.maxTemperature)
    ensures "temperature" in c.supportedParameters && "temperature" in kwargs && Normalize(c, kwargs).Success? ==>
      Normalize(c, kwargs).value["temperature"] == kwargs["temperature"]
  {
  }

  /** The only errors are the unknown model and the temperature. */
  lemma ErrorCases(model: string, kwargs: Params)
    ensures Validate(model, kwargs).Failure? ==>
      (Validate(model, kwargs).error == UnknownModel(model) <==> Lookup(model).None?)
    ensures Validate(model, kwargs).Failure? && Lookup(model).Some? ==>
      "temperature" in kwargs && "temperature" in ConfigOf(Lookup(model).value).supportedParameters
  {
  }

  /** The output-length rule: `max_tokens` becomes `max_completion_tokens`
      for a model that takes that (an explicit `max_completion_tokens`
      argument wins) and is never passed on to it; otherwise it stays
      `max_tokens`. */
  lemma MaxTokensRule(c: Config, kwargs: Params)
    requires Normalize(c, kwargs).Success?
    ensures var out := Normalize(c, kwargs).value;
      "max_completion_tokens" in c.supportedParameters ==>
        && "max_tokens" !in out
        && ("max_completion_tokens" in out <==> "max_tokens" in kwargs || "max_completion_tokens" in kwargs)
        && ("max_completion_tokens" in kwargs ==> out["max_completion_tokens"] == kwargs["max_completion_tokens"])
        && ("max_completion_tokens" !in kwargs && "max_tokens" in kwargs ==> out["max_completion_tokens"] == kwargs["max_tokens"])
    ensures var out := Normalize(c, kwargs).value;
      "max_completion_tokens" !in c.supportedParameters ==>
        && "max_completion_tokens" !in out
        && ("max_tokens" in out <==> "max_tokens" in kwargs)
        && ("max_tokens" in kwargs ==> out["max_tokens"] == kwargs["max_tokens"])
  {
    var out := Normalize(c, kwargs).value;
    var sp := c.supportedParameters;
    var copied := Copied(kwargs, sp, kwargs.Keys);
    assert "max_tokens" !in copied || "max_completion_tokens" !in sp;
    assert "max_completion_tokens" in copied <==> "max_completion_tokens" in kwargs && "max_completion_tokens" in sp;
  }

  /** Whatever the configuration, the result never holds both output-length
      parameters. */
  lemma NeverBothTokenLimits(c: Config, kwargs: Params)
    requires Normalize(c, kwargs).Success?
    ensures !("max_tokens" in Normalize(c, kwargs).value && "max_completion_tokens" in Normalize(c, kwargs).value)
  {
    MaxTokensRule(c, kwargs);
  }

  /** The copy rule: a supported argument other than a renamed `max_tokens`
      reaches the result with the caller's value; an unsupported one, other
      than `max_tokens`, does not reach it. */
  lemma CopyRule(c: Config, kwargs: Params, k: string)
    requires Normalize(c, kwargs).Success? && k in kwargs
    ensures Forwarded(c.supportedParameters, k) ==> k in Normalize(c, kwargs).value && Normalize(c, kwargs).value[k] == kwargs[k]
    ensures k !in c.supportedParameters && k != "max_tokens" ==> k !in Normalize(c, kwargs).value
  {
  }

  /** Every key of the result is the temperature, one of the output-length
      names, or a supported argument. */
  lemma KeysOrigin(c: Config, kwargs: Params)
    requires Normalize(c, kwargs).Success?
    ensures forall k | k in Normalize(c, kwargs).value ::
      || (k == "temperature" && k in c.supportedParameters)
      || (k == "max_completion_tokens" && "max_completion_tokens" in c.supportedParameters && "max_tokens" in kwargs)
      || (k == "max_tokens" && "max_tokens" in kwargs)
      || (k in kwargs && Forwarded(c.supportedParameters, k))
  {
  }

  /** For the models of the table, every key of the result is a parameter
      the model supports: the unlisted `max_tokens` the source keeps never
      arises there, and no reasoning model gets a temperature. */
  lemma RegisteredKeysSupported(model: string, kwargs: Params)
    requires Validate(model, kwargs).Success?
    ensures Lookup(model).Some?
    ensures forall k | k in Validate(model, kwargs).value :: k in ConfigOf(Lookup(model).value).supportedParameters
    ensures Lookup(model).value in ReasoningModels ==> "temperature" !in Validate(model, kwargs).value
  {
    var m := Lookup(model).value;
    var c := ConfigOf(m);
    TokenLimitTable(m);
    ParameterTable(m);
    KeysOrigin(c, kwargs);
  }
}
