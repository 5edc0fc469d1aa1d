/** Token counting and cost estimation of the LLM handler. The tokenizer
    library is not modelled: `encode` stands for it, giving the number of
    tokens a named tokenizer makes of a text, or `None` where the library
    raises (an unknown tokenizer name, a download that fails). */
module Accounting {
  import opened Wrappers
  import opened Registry

  /** The tokenizer the fallback tiers use. */
  const ReferenceTokenizer: string := "gpt-4"

  /** The last tier: one token per four characters, rounded down. */
  function EstimateTokens(text: string): (n: nat)
    ensures 4 * n <= |text| < 4 * n + 4
  {
    |text| / 4
  }

  /** `count_tokens`: the model's own tokenizer; if the model is unknown or
      that tokenizer fails, the reference tokenizer; if that fails too, the
      estimate. */
  function CountTokens(text: string, model: string, encode: (string, string) -> Option<nat>): nat {
    var first :=
      match GetModelConfig(model)
      case Failure(_) => None
      case Success(c) => encode(c.tokenizer, text);
    if first.Some? then first.value
    else
      var second := encode(ReferenceTokenizer, text);
      if second.Some? then second.value
      else EstimateTokens(text)
  }

  /** Which tier answers, for every model and every tokenizer behaviour. */
  lemma CountTokensTiers(text: string, model: string, encode: (string, string) -> Option<nat>)
    ensures Lookup(model).Some? && encode(ConfigOf(Lookup(model).value).tokenizer, text).Some? ==>
      CountTokens(text, model, encode) == encode(ConfigOf(Lookup(model).value).tokenizer, text).value
    ensures (Lookup(model).None? || encode(ConfigOf(Lookup(model).value).tokenizer, text).None?) && encode(ReferenceTokenizer, text).Some? ==>
      CountTokens(text, model, encode) == encode(ReferenceTokenizer, text).value
    ensures (Lookup(model).None? || encode(ConfigOf(Lookup(model).value).tokenizer, text).None?) && encode(ReferenceTokenizer, text).None? ==>
      CountTokens(text, model, encode) == EstimateTokens(text)
  {
  }

  /** A count is always produced, and a count that no tokenizer gives is
      the estimate, within a quarter of the text's length. */
  lemma CountTokensDefined(text: string, model: string, encode: (string, string) -> Option<nat>)
    ensures || (exists name :: encode(name, text) == Some(CountTokens(text, model, encode)))
            || 4 * CountTokens(text, model, encode) <= |text| < 4 * CountTokens(text, model, encode) + 4
  {
    CountTokensTiers(text, model, encode);
    var n := CountTokens(text, model, encode);
    match GetModelConfig(model)
    case Success(c) =>
      if encode(c.tokenizer, text).Some? {
        assert encode(c.tokenizer, text) == Some(n);
      } else if encode(ReferenceTokenizer, text).Some? {
        assert encode(ReferenceTokenizer, text) == Some(n);
      }
    case Failure(_) =>
      if encode(ReferenceTokenizer, text).Some? {
        assert encode(ReferenceTokenizer, text) == Some(n);
      }
  }

  /** The price `calculate_cost` uses: the model's, or GPT-4's for a model
      without one. */
  function PricingFor(model: string): (p: Pricing)
    ensures Lookup(model).Some? ==> p == PricingOf(Lookup(model).value)
    ensures Lookup(model).None? ==> p == PricingOf(Gpt4)
  {
    match Lookup(model)
    case Some(m) => PricingOf(m)
    case None => PricingOf(Gpt4)
  }

  /** Tokens in thousands times the price per thousand, for input and
      output. */
  function CostAt(p: Pricing, inputTokens: int, outputTokens: int): real {
    (inputTokens as real / 1000.0) * p.input + (outputTokens as real / 1000.0) * p.output
  }

  /** `calculate_cost`. */
  function CalculateCost(inputTokens: int, outputTokens: int, model: string): real {
    CostAt(PricingFor(model), inputTokens, outputTokens)
  }

  /** Cost is additive in the token counts, and zero for no tokens. */
  lemma CostAtAdditive(p: Pricing, in1: int, out1: int, in2: int, out2: int)
    ensures CostAt(p, 0, 0) == 0.0
    ensures CostAt(p, in1 + in2, out1 + out2) == CostAt(p, in1, out1) + CostAt(p, in2, out2)
  {
    assert ((in1 + in2) as real / 1000.0) * p.input == (in1 as real / 1000.0) * p.input + (in2 as real / 1000.0) * p.input;
    assert ((out1 + out2) as real / 1000.0) * p.output == (out1 as real / 1000.0) * p.output + (out2 as real / 1000.0) * p.output;
  }

  /** At non-negative prices, cost is non-negative and grows with the
      counts. */
  lemma CostAtMonotone(p: Pricing, in1: nat, out1: nat, in2: nat, out2: nat)
    requires 0.0 <= p.input && 0.0 <= p.output
    requires in1 <= in2 && out1 <= out2
    ensures 0.0 <= CostAt(p, in1, out1) <= CostAt(p, in2, out2)
  {
    assert 0.0 <= (in1 as real / 1000.0) * p.input <= (in2 as real / 1000.0) * p.input;
    assert 0.0 <= (out1 as real / 1000.0) * p.output <= (out2 as real / 1000.0) * p.output;
  }

  /** No price `calculate_cost` can use is negative. */
  lemma PricingForNonNegative(model: string)
    ensures 0.0 <= PricingFor(model).input && 0.0 <= PricingFor(model).output
  {
    match Lookup(model)
    case Some(m) => PricingTable(m);
    case None => PricingTable(Gpt4);
  }

  /** A call with no tokens costs nothing, and the cost adds up over
      calls: two calls cost what one call with their summed counts costs. */
  lemma CostAdditive(in1: int, out1: int, in2: int, out2: int, model: string)
    ensures CalculateCost(0, 0, model) == 0.0
    ensures CalculateCost(in1 + in2, out1 + out2, model) == CalculateCost(in1, out1, model) + CalculateCost(in2, out2, model)
  {
    CostAtAdditive(PricingFor(model), in1, out1, in2, out2);
  }

  /** Counts that grow never make the cost shrink, and no count gives a
      negative cost. */
  lemma CostMonotone(in1: nat, out1: nat, in2: nat, out2: nat, model: string)
    requires in1 <= in2 && out1 <= out2
    ensures 0.0 <= CalculateCost(in1, out1, model) <= CalculateCost(in2, out2, model)
  {
    PricingForNonNegative(model);
    CostAtMonotone(PricingFor(model), in1, out1, in2, out2);
  }

  /** A model without a price is charged as GPT-4: $0.03 and $0.06 per
      thousand tokens. */
  lemma CostFallback(inputTokens: int, outputTokens: int, model: string)
    requires Lookup(model).None?
    ensures CalculateCost(inputTokens, outputTokens, model) == CalculateCost(inputTokens, outputTokens, "gpt-4")
    ensures CalculateCost(inputTokens, outputTokens, model) == CostAt(Pricing(0.03, 0.06), inputTokens, outputTokens)
  {
    assert Lookup("gpt-4") == Some(Gpt4);
  }
}
