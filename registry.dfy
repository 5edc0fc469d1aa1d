/** The static model tables of the LLM handler and the lookups on them.

    `MODEL_CONFIGS` and `MODEL_PRICING` are dict displays keyed by model
    name. Both have the same 51 keys; `qwen/qwen3-235b-a22b` is written
    twice in each, and a dict display keeps the entry written last. The
    model gives the key set one enumeration, `Model`, with `Lookup` as the
    key test on names and one table function per column. Prices are US
    dollars per 1,000 tokens. */
module Registry {
  import opened Wrappers

  datatype Pricing = Pricing(input: real, output: real)

  /** A configuration entry without its free-text description, which
      `Description` holds. */
  datatype Config = Config(
    maxTemperature: real,
    defaultTemperature: real,
    supportedParameters: seq<string>,
    tokenizer: string,
    provider: string)

  /** What the handler raises, as values. */
  datatype Error =
    | UnknownModel(model: string)
    | TemperatureOutOfRange(value: real, maxTemperature: real)
    | TemperatureNotComparable
    | ClientFailure
    | CallFailure

  /** The parameters of the chat models. */
  const FullParameters: seq<string> := ["temperature", "max_tokens", "top_p", "frequency_penalty", "presence_penalty"]

  /** The parameters of the reasoning models, which take no temperature and
      bound their output with `max_completion_tokens`. */
  const ReasoningParameters: seq<string> := ["max_completion_tokens", "top_p", "frequency_penalty", "presence_penalty"]

  /** One constructor per key of the two tables, in the order of the
      configuration table. */
  datatype Model =
    | Gpt5
    | Gpt4
    | Gpt4Turbo
    | Gpt4o
    | Gpt4TurboPreview
    | Gpt35Turbo
    | Gpt35TurboInstruct
    | OpenaiGpt5
    | O3
    | O3Mini
    | O3Pro
    | O1
    | O1Pro
    | O1Mini
    | O4Mini
    | DeepseekDeepseekCoder
    | DeepseekDeepseekCoder33bInstruct
    | DeepseekDeepseekCoder67bInstruct
    | DeepseekDeepseekLlm67bChat
    | DeepseekDeepseekLlm7bChat
    | DeepseekDeepseekMath7bInstruct
    | DeepseekDeepseekReasoner7bInstruct
    | DeepseekDeepseekReasoner34bInstruct
    | DeepseekDeepseekR1
    | GoogleGemini15Flash
    | GoogleGemini15Pro
    | GoogleGemini20FlashExp
    | GoogleGemini20ProExp
    | MetaLlamaLlama4Maverick
    | QwenQwen3235bA22b
    | MistralaiMistralSmall3224bInstructFree
    | MetaLlamaLlamaGuard412b
    | AnthropicClaudeSonnet4
    | AnthropicClaudeOpus4
    | MetaLlamaLlama4ScoutFree
    | GoogleGemini25Pro
    | GoogleGemini20Flash001
    | GoogleGemini25Flash
    | XAiGrok4
    | MistralaiCodestral2508
    | MistralaiMixtral8x22bInstruct
    | MistralaiMixtral8x7bInstruct
    | QwenQwen3Coder
    | QwenQwen25Coder32bInstruct
    | MetaLlamaLlama3170bInstruct
    | MetaLlamaLlama4Scout
    | DeepseekDeepseekR1DistillLlama70b
    | DeepseekDeepseekChatV31
    | BigcodeStarcoder215bInstruct
    | OpenaiGptOss120b
    | OpenaiGptOss20b

  /** The key test of both tables: `name in MODEL_CONFIGS`, and which entry. */
  function Lookup(name: string): Option<Model> {
    match name
    case "gpt-5" => Some(Gpt5)
    case "gpt-4" => Some(Gpt4)
    case "gpt-4-turbo" => Some(Gpt4Turbo)
    case "gpt-4o" => Some(Gpt4o)
    case "gpt-4-turbo-preview" => Some(Gpt4TurboPreview)
    case "gpt-3.5-turbo" => Some(Gpt35Turbo)
    case "gpt-3.5-turbo-instruct" => Some(Gpt35TurboInstruct)
    case "openai/gpt-5" => Some(OpenaiGpt5)
    case "o3" => Some(O3)
    case "o3-mini" => Some(O3Mini)
    case "o3-pro" => Some(O3Pro)
    case "o1" => Some(O1)
    case "o1-pro" => Some(O1Pro)
    case "o1-mini" => Some(O1Mini)
    case "o4-mini" => Some(O4Mini)
    case "deepseek/deepseek-coder" => Some(DeepseekDeepseekCoder)
    case "deepseek/deepseek-coder-33b-instruct" => Some(DeepseekDeepseekCoder33bInstruct)
    case "deepseek/deepseek-coder-6.7b-instruct" => Some(DeepseekDeepseekCoder67bInstruct)
    case "deepseek/deepseek-llm-67b-chat" => Some(DeepseekDeepseekLlm67bChat)
    case "deepseek/deepseek-llm-7b-chat" => Some(DeepseekDeepseekLlm7bChat)
    case "deepseek/deepseek-math-7b-instruct" => Some(DeepseekDeepseekMath7bInstruct)
    case "deepseek/deepseek-reasoner-7b-instruct" => Some(DeepseekDeepseekReasoner7bInstruct)
    case "deepseek/deepseek-reasoner-34b-instruct" => Some(DeepseekDeepseekReasoner34bInstruct)
    case "deepseek/deepseek-r1" => Some(DeepseekDeepseekR1)
    case "google/gemini-1.5-flash" => Some(GoogleGemini15Flash)
    case "google/gemini-1.5-pro" => Some(GoogleGemini15Pro)
    case "google/gemini-2.0-flash-exp" => Some(GoogleGemini20FlashExp)
    case "google/gemini-2.0-pro-exp" => Some(GoogleGemini20ProExp)
    case "meta-llama/llama-4-maverick" => Some(MetaLlamaLlama4Maverick)
    case "qwen/qwen3-235b-a22b" => Some(QwenQwen3235bA22b)
    case "mistralai/mistral-small-3.2-24b-instruct:free" => Some(MistralaiMistralSmall3224bInstructFree)
    case "meta-llama/llama-guard-4-12b" => Some(MetaLlamaLlamaGuard412b)
    case "anthropic/claude-sonnet-4" => Some(AnthropicClaudeSonnet4)
    case "anthropic/claude-opus-4" => Some(AnthropicClaudeOpus4)
    case "meta-llama/llama-4-scout:free" => Some(MetaLlamaLlama4ScoutFree)
    case "google/gemini-2.5-pro" => Some(GoogleGemini25Pro)
    case "google/gemini-2.0-flash-001" => Some(GoogleGemini20Flash001)
    case "google/gemini-2.5-flash" => Some(GoogleGemini25Flash)
    case "x-ai/grok-4" => Some(XAiGrok4)
    case "mistralai/codestral-2508" => Some(MistralaiCodestral2508)
    case "mistralai/mixtral-8x22b-instruct" => Some(MistralaiMixtral8x22bInstruct)
    case "mistralai/mixtral-8x7b-instruct" => Some(MistralaiMixtral8x7bInstruct)
    case "qwen/qwen3-coder" => Some(QwenQwen3Coder)
    case "qwen/qwen-2.5-coder-32b-instruct" => Some(QwenQwen25Coder32bInstruct)
    case "meta-llama/llama-3.1-70b-instruct" => Some(MetaLlamaLlama3170bInstruct)
    case "meta-llama/llama-4-scout" => Some(MetaLlamaLlama4Scout)
    case "deepseek/deepseek-r1-distill-llama-70b" => Some(DeepseekDeepseekR1DistillLlama70b)
    case "deepseek/deepseek-chat-v3.1" => Some(DeepseekDeepseekChatV31)
    case "bigcode/starcoder2-15b-instruct" => Some(BigcodeStarcoder215bInstruct)
    case "openai/gpt-oss-120b" => Some(OpenaiGptOss120b)
    case "openai/gpt-oss-20b" => Some(OpenaiGptOss20b)
    case _ => None
  }

  /** The configuration table's entry for a model, description aside. */
  function ConfigOf(m: Model): Config {
    match m
    case Gpt5 => Config(2.0, 0.0, FullParameters, "gpt-4", "openai")
    case Gpt4 => Config(2.0, 0.0, FullParameters, "gpt-4", "openai")
    case Gpt4Turbo => Config(2.0, 0.0, FullParameters, "gpt-4", "openai")
    case Gpt4o => Config(2.0, 0.0, FullParameters, "gpt-4o", "openai")
    case Gpt4TurboPreview => Config(2.0, 0.0, FullParameters, "gpt-4", "openai")
    case Gpt35Turbo => Config(2.0, 0.0, FullParameters, "gpt-3.5-turbo", "openai")
    case Gpt35TurboInstruct => Config(2.0, 0.0, FullParameters, "gpt-3.5-turbo", "openai")
    case OpenaiGpt5 => Config(2.0, 0.0, FullParameters, "gpt-4", "openrouter")
    case O3 => Config(1.0, 0.0, ReasoningParameters, "gpt-4", "openrouter")
    case O3Mini => Config(1.0, 0.0, ReasoningParameters, "gpt-4", "openrouter")
    case O3Pro => Config(1.0, 0.0, ReasoningParameters + ["reasoning"], "gpt-4", "openai")
    case O1 => Config(1.0, 0.0, ReasoningParameters, "gpt-4", "openrouter")
    case O1Pro => Config(1.0, 0.0, ReasoningParameters, "gpt-4", "openrouter")
    case O1Mini => Config(1.0, 0.0, ReasoningParameters, "gpt-4", "openrouter")
    case O4Mini => Config(1.0, 0.0, ReasoningParameters, "gpt-4", "openrouter")
    case DeepseekDeepseekCoder => Config(2.0, 0.0, FullParameters, "gpt-4", "openrouter")
    case DeepseekDeepseekCoder33bInstruct => Config(2.0, 0.0, FullParameters, "gpt-4", "openrouter")
    case DeepseekDeepseekCoder67bInstruct => Config(2.0, 0.0, FullParameters, "gpt-4", "openrouter")
    case DeepseekDeepseekLlm67bChat => Config(2.0, 0.0, FullParameters, "gpt-4", "openrouter")
    case DeepseekDeepseekLlm7bChat => Config(2.0, 0.0, FullParameters, "gpt-4", "openrouter")
    case DeepseekDeepseekMath7bInstruct => Config(2.0, 0.0, FullParameters, "gpt-4", "openrouter")
    case DeepseekDeepseekReasoner7bInstruct => Config(2.0, 0.0, FullParameters, "gpt-4", "openrouter")
    case DeepseekDeepseekReasoner34bInstruct => Config(2.0, 0.0, FullParameters, "gpt-4", "openrouter")
    case DeepseekDeepseekR1 => Config(2.0, 0.0, FullParameters, "gpt-4", "openrouter")
    case GoogleGemini15Flash => Config(2.0, 0.0, FullParameters, "gpt-4", "openrouter")
    case GoogleGemini15Pro => Config(2.0, 0.0, FullParameters, "gpt-4", "openrouter")
    case GoogleGemini20FlashExp => Config(2.0, 0.0, FullParameters, "gpt-4", "openrouter")
    case GoogleGemini20ProExp => Config(2.0, 0.0, FullParameters, "gpt-4", "openrouter")
    case MetaLlamaLlama4Maverick => Config(2.0, 0.0, FullParameters, "gpt-4", "openrouter")
    case QwenQwen3235bA22b => Config(2.0, 0.0, FullParameters, "gpt-4", "openrouter")
    case MistralaiMistralSmall3224bInstructFree => Config(2.0, 0.0, FullParameters, "gpt-4", "openrouter")
    case MetaLlamaLlamaGuard412b => Config(2.0, 0.0, FullParameters, "gpt-4", "openrouter")
    case AnthropicClaudeSonnet4 => Config(2.0, 0.0, FullParameters, "gpt-4", "openrouter")
    case AnthropicClaudeOpus4 => Config(2.0, 0.0, FullParameters, "gpt-4", "openrouter")
    case MetaLlamaLlama4ScoutFree => Config(2.0, 0.0, FullParameters, "gpt-4", "openrouter")
    case GoogleGemini25Pro => Config(2.0, 0.0, FullParameters, "gpt-4", "openrouter")
    case GoogleGemini20Flash001 => Config(2.0, 0.0, FullParameters, "gpt-4", "openrouter")
    case GoogleGemini25Flash => Config(2.0, 0.0, FullParameters, "gpt-4", "openrouter")
    case XAiGrok4 => Config(2.0, 0.0, FullParameters, "gpt-4", "openrouter")
    case MistralaiCodestral2508 => Config(2.0, 0.0, FullParameters, "gpt-4", "openrouter")
    case MistralaiMixtral8x22bInstruct => Config(2.0, 0.0, FullParameters, "gpt-4", "openrouter")
    case MistralaiMixtral8x7bInstruct => Config(2.0, 0.0, FullParameters, "gpt-4", "openrouter")
    case QwenQwen3Coder => Config(2.0, 0.0, FullParameters, "gpt-4", "openrouter")
    case QwenQwen25Coder32bInstruct => Config(2.0, 0.0, FullParameters, "gpt-4", "openrouter")
    case MetaLlamaLlama3170bInstruct => Config(2.0, 0.0, FullParameters, "gpt-4", "openrouter")
    case MetaLlamaLlama4Scout => Config(2.0, 0.0, FullParameters, "gpt-4", "openrouter")
    case DeepseekDeepseekR1DistillLlama70b => Config(2.0, 0.0, FullParameters, "gpt-4", "openrouter")
    case DeepseekDeepseekChatV31 => Config(2.0, 0.0, FullParameters, "gpt-4", "openrouter")
    case BigcodeStarcoder215bInstruct => Config(2.0, 0.0, FullParameters, "gpt-4", "openrouter")
    case OpenaiGptOss120b => Config(2.0, 0.0, FullParameters, "gpt-4", "openrouter")
    case OpenaiGptOss20b => Config(2.0, 0.0, FullParameters, "gpt-4", "openrouter")
  }

  /** The `description` of a model's configuration entry. */
  function Description(m: Model): string {
    match m
    case Gpt5 => "GPT-5 model with full parameter support"
    case Gpt4 => "GPT-4 model with full parameter support"
    case Gpt4Turbo => "GPT-4 Turbo model with full parameter support"
    case Gpt4o => "GPT-4o model with full parameter support"
    case Gpt4TurboPreview => "GPT-4 Turbo Preview model with full parameter support"
    case Gpt35Turbo => "GPT-3.5 Turbo model with full parameter support"
    case Gpt35TurboInstruct => "GPT-3.5 Turbo Instruct model with full parameter support"
    case OpenaiGpt5 => "GPT-5 model with full parameter support via OpenRouter"
    case O3 => "o3 model with temperature range 0-1, uses max_completion_tokens, does NOT support temperature"
    case O3Mini => "o3-mini model with temperature range 0-1, uses max_completion_tokens, does NOT support temperature"
    case O3Pro => "o3-pro model with temperature range 0-1, uses max_completion_tokens, does NOT support temperature, uses OpenAI response API"
    case O1 => "o1 model with temperature range 0-1, uses max_completion_tokens, does NOT support temperature"
    case O1Pro => "o1-pro model with temperature range 0-1, uses max_completion_tokens, does NOT support temperature"
    case O1Mini => "o1-mini model with temperature range 0-1, uses max_completion_tokens, does NOT support temperature"
    case O4Mini => "o4-mini model with temperature range 0-1, uses max_completion_tokens, does NOT support temperature"
    case DeepseekDeepseekCoder => "DeepSeek Coder model with full parameter support"
    case DeepseekDeepseekCoder33bInstruct => "DeepSeek Coder 33B Instruct model with full parameter support"
    case DeepseekDeepseekCoder67bInstruct => "DeepSeek Coder 6.7B Instruct model with full parameter support"
    case DeepseekDeepseekLlm67bChat => "DeepSeek LLM 67B Chat model with full parameter support"
    case DeepseekDeepseekLlm7bChat => "DeepSeek LLM 7B Chat model with full parameter support"
    case DeepseekDeepseekMath7bInstruct => "DeepSeek Math 7B Instruct model with full parameter support"
    case DeepseekDeepseekReasoner7bInstruct => "DeepSeek Reasoner 7B Instruct model with full parameter support"
    case DeepseekDeepseekReasoner34bInstruct => "DeepSeek Reasoner 34B Instruct model with full parameter support"
    case DeepseekDeepseekR1 => "DeepSeek R1 model with full parameter support"
    case GoogleGemini15Flash => "Google Gemini 1.5 Flash model with full parameter support"
    case GoogleGemini15Pro => "Google Gemini 1.5 Pro model with full parameter support"
    case GoogleGemini20FlashExp => "Google Gemini 2.0 Flash Experimental model with full parameter support"
    case GoogleGemini20ProExp => "Google Gemini 2.0 Pro Experimental model with full parameter support"
    case MetaLlamaLlama4Maverick => "Meta Llama 4 Maverick model (free tier) with full parameter support"
    case QwenQwen3235bA22b => "Qwen3 235B A22B MoE model with full parameter support"
    case MistralaiMistralSmall3224bInstructFree => "Mistral Small 3.2B Instruct model (free tier) with full parameter support"
    case MetaLlamaLlamaGuard412b => "Meta Llama Guard 4 12B model with full parameter support"
    case AnthropicClaudeSonnet4 => "Anthropic Claude Sonnet 4 model with full parameter support"
    case AnthropicClaudeOpus4 => "Anthropic Claude Opus 4 model with full parameter support"
    case MetaLlamaLlama4ScoutFree => "Meta Llama Scout 4 model (free tier) with full parameter support"
    case GoogleGemini25Pro => "Google Gemini 2.5 Pro model with full parameter support"
    case GoogleGemini20Flash001 => "Google Gemini 2.0 Flash model with full parameter support"
    case GoogleGemini25Flash => "Google Gemini 2.5 Flash model with full parameter support"
    case XAiGrok4 => "X.AI Grok-4 model with full parameter support"
    case MistralaiCodestral2508 => "Mistral Codestral 2508 model specialized for coding tasks with full parameter support"
    case MistralaiMixtral8x22bInstruct => "Mistral Mixtral 8x22B Instruct model with full parameter support"
    case MistralaiMixtral8x7bInstruct => "Mistral Mixtral 8x7B Instruct model with full parameter support"
    case QwenQwen3Coder => "Qwen3 Coder 480B MoE model specialized for coding tasks with full parameter support"
    case QwenQwen25Coder32bInstruct => "Qwen2.5 Coder 32B Instruct model specialized for coding tasks with full parameter support"
    case MetaLlamaLlama3170bInstruct => "Meta Llama 3.1 70B Instruct model with full parameter support"
    case MetaLlamaLlama4Scout => "Meta Llama Scout 4 model (free tier) with full parameter support"
    case DeepseekDeepseekR1DistillLlama70b => "DeepSeek R1 Distill Llama 70B model with full parameter support"
    case DeepseekDeepseekChatV31 => "DeepSeek Chat v3.1 model with full parameter support"
    case BigcodeStarcoder215bInstruct => "BigCode StarCoder2 15B Instruct model specialized for coding tasks with full parameter support"
    case OpenaiGptOss120b => "OpenAI GPT-OSS 120B model with full parameter support"
    case OpenaiGptOss20b => "OpenAI GPT-OSS 20B model with full parameter support"
  }

  /** The pricing table's entry for a model. */
  function PricingOf(m: Model): Pricing {
    match m
    case Gpt5 => Pricing(0.00125, 0.01)
    case Gpt4 => Pricing(0.03, 0.06)
    case Gpt4Turbo => Pricing(0.01, 0.03)
    case Gpt4o => Pricing(0.005, 0.015)
    case Gpt4TurboPreview => Pricing(0.01, 0.03)
    case Gpt35Turbo => Pricing(0.001, 0.002)
    case Gpt35TurboInstruct => Pricing(0.0015, 0.002)
    case OpenaiGpt5 => Pricing(0.00125, 0.01)
    case O3 => Pricing(0.015, 0.06)
    case O3Mini => Pricing(0.003, 0.015)
    case O3Pro => Pricing(0.015, 0.06)
    case O1 => Pricing(0.015, 0.06)
    case O1Pro => Pricing(0.015, 0.06)
    case O1Mini => Pricing(0.003, 0.015)
    case O4Mini => Pricing(0.003, 0.015)
    case DeepseekDeepseekCoder => Pricing(0.00014, 0.00028)
    case DeepseekDeepseekCoder33bInstruct => Pricing(0.00014, 0.00028)
    case DeepseekDeepseekCoder67bInstruct => Pricing(0.00014, 0.00028)
    case DeepseekDeepseekLlm67bChat => Pricing(0.00014, 0.00028)
    case DeepseekDeepseekLlm7bChat => Pricing(0.00014, 0.00028)
    case DeepseekDeepseekMath7bInstruct => Pricing(0.00014, 0.00028)
    case DeepseekDeepseekReasoner7bInstruct => Pricing(0.00014, 0.00028)
    case DeepseekDeepseekReasoner34bInstruct => Pricing(0.00014, 0.00028)
    case DeepseekDeepseekR1 => Pricing(0.00014, 0.00028)
    case GoogleGemini15Flash => Pricing(0.000075, 0.0003)
    case GoogleGemini15Pro => Pricing(0.00375, 0.015)
    case GoogleGemini20FlashExp => Pricing(0.000075, 0.0003)
    case GoogleGemini20ProExp => Pricing(0.00375, 0.015)
    case MetaLlamaLlama4Maverick => Pricing(0.00015, 0.0006)
    case QwenQwen3235bA22b => Pricing(0.00013, 0.0006)
    case MistralaiMistralSmall3224bInstructFree => Pricing(0.0, 0.0)
    case MetaLlamaLlamaGuard412b => Pricing(0.0001, 0.0002)
    case AnthropicClaudeSonnet4 => Pricing(0.003, 0.015)
    case AnthropicClaudeOpus4 => Pricing(0.015, 0.075)
    case MetaLlamaLlama4ScoutFree => Pricing(0.0, 0.0)
    case GoogleGemini25Pro => Pricing(0.00375, 0.015)
    case GoogleGemini20Flash001 => Pricing(0.0001, 0.0004)
    case GoogleGemini25Flash => Pricing(0.0001, 0.0004)
    case XAiGrok4 => Pricing(0.0001, 0.0004)
    case MistralaiCodestral2508 => Pricing(0.0003, 0.0009)
    case MistralaiMixtral8x22bInstruct => Pricing(0.0009, 0.0009)
    case MistralaiMixtral8x7bInstruct => Pricing(0.0009, 0.0009)
    case QwenQwen3Coder => Pricing(0.0002, 0.0008)
    case QwenQwen25Coder32bInstruct => Pricing(0.00005, 0.0002)
    case MetaLlamaLlama3170bInstruct => Pricing(0.0001, 0.00028)
    case MetaLlamaLlama4Scout => Pricing(0.0001, 0.00028)
    case DeepseekDeepseekR1DistillLlama70b => Pricing(0.000026, 0.000104)
    case DeepseekDeepseekChatV31 => Pricing(0.00014, 0.00028)
    case BigcodeStarcoder215bInstruct => Pricing(0.00014, 0.00028)
    case OpenaiGptOss120b => Pricing(0.0005, 0.0015)
    case OpenaiGptOss20b => Pricing(0.0002, 0.0006)
  }

  /** The models whose entries name the reasoning parameters. */
  const ReasoningModels: set<Model> := {O3, O3Mini, O3Pro, O1, O1Pro, O1Mini, O4Mini}

  /** The models whose entries name `openai` as provider. */
  const OpenAIProviderModels: set<Model> := {Gpt5, Gpt4, Gpt4Turbo, Gpt4o, Gpt4TurboPreview, Gpt35Turbo, Gpt35TurboInstruct, O3Pro}

  /** `get_model_config`: the entry of a known model, `ValueError` for any
      other name. */
  function GetModelConfig(model: string): (r: Result<Config, Error>)
    ensures r.Success? <==> Lookup(model).Some?
    ensures r.Success? ==> r.value == ConfigOf(Lookup(model).value)
    ensures r.Failure? ==> r.error == UnknownModel(model)
  {
    match Lookup(model)
    case None => Failure(UnknownModel(model))
    case Some(m) => Success(ConfigOf(m))
  }

  /** `is_openai_model`: `o3-pro` by name, then the provider of the entry;
      an unknown name raises from the lookup. */
  function IsOpenAIModel(model: string): (r: Result<bool, Error>)
    ensures model == "o3-pro" ==> r == Success(true)
    ensures model != "o3-pro" ==> (r.Success? <==> Lookup(model).Some?)
    ensures model != "o3-pro" && r.Success? ==> (r.value <==> Lookup(model).value in OpenAIProviderModels)
  {
    if model == "o3-pro" then Success(true)
    else
      match GetModelConfig(model)
      case Failure(e) => Failure(e)
      case Success(c) =>
        ProviderTable(Lookup(model).value);
        Success(c.provider == "openai")
  }

  /** What `get_model_info` returns for a known model. */
  datatype ModelInfo = ModelInfo(
    model: string,
    config: Config,
    description: string,
    pricing: Pricing,
    supportedParameters: seq<string>,
    maxTemperature: real,
    defaultTemperature: real,
    provider: string)

  /** `get_model_info`: the entry, its description and its price, with the
      entry's main fields repeated at the top level. */
  function GetModelInfo(model: string): (r: Result<ModelInfo, Error>)
    ensures r.Success? <==> Lookup(model).Some?
    ensures r.Failure? ==> r.error == UnknownModel(model)
    ensures r.Success? ==>
      var m := Lookup(model).value;
      && r.value.model == model
      && r.value.config == ConfigOf(m)
      && r.value.description == Description(m)
      && r.value.pricing == PricingOf(m)
      && r.value.supportedParameters == ConfigOf(m).supportedParameters
      && r.value.maxTemperature == ConfigOf(m).maxTemperature
      && r.value.defaultTemperature == ConfigOf(m).defaultTemperature
      && r.value.provider == ConfigOf(m).provider
  {
    match Lookup(model)
    case None => Failure(UnknownModel(model))
    case Some(m) =>
      var c := ConfigOf(m);
      Success(ModelInfo(model, c, Description(m), PricingOf(m), c.supportedParameters, c.maxTemperature, c.defaultTemperature, c.provider))
  }

  // ---------------------------------------------------------------------
  // Properties of the tables

  /** Every entry's default temperature lies in its range, and the range is
      `[0, 1]` for the reasoning models and `[0, 2]` for the others. */
  lemma TemperatureTable(m: Model)
    ensures ConfigOf(m).defaultTemperature == 0.0
    ensures ConfigOf(m).maxTemperature == if m in ReasoningModels then 1.0 else 2.0
    ensures 0.0 <= ConfigOf(m).defaultTemperature <= ConfigOf(m).maxTemperature
  {
  }

  /** Every entry supports one of the two parameter lists; only `o3-pro`
      adds `reasoning`. */
  lemma ParameterTable(m: Model)
    ensures ConfigOf(m).supportedParameters ==
      if m == O3Pro then ReasoningParameters + ["reasoning"]
      else if m in ReasoningModels then ReasoningParameters
      else FullParameters
  {
    if m !in ReasoningModels {
      assert ConfigOf(m).supportedParameters == FullParameters;
    }
  }

  /** No entry supports both `max_tokens` and `max_completion_tokens`, and
      an entry supports `temperature` exactly when it does not support
      `max_completion_tokens`. */
  lemma TokenLimitTable(m: Model)
    ensures !("max_tokens" in ConfigOf(m).supportedParameters && "max_completion_tokens" in ConfigOf(m).supportedParameters)
    ensures "temperature" in ConfigOf(m).supportedParameters <==> "max_completion_tokens" !in ConfigOf(m).supportedParameters
    ensures "max_completion_tokens" in ConfigOf(m).supportedParameters <==> m in ReasoningModels
  {
    ParameterTable(m);
  }

  /** The providers: `openai` for the eight direct models, `openrouter` for
      every other. */
  lemma ProviderTable(m: Model)
    ensures ConfigOf(m).provider == if m in OpenAIProviderModels then "openai" else "openrouter"
  {
  }

  /** The tokenizers named by the entries. */
  lemma TokenizerTable(m: Model)
    ensures ConfigOf(m).tokenizer ==
      if m == Gpt4o then "gpt-4o"
      else if m == Gpt35Turbo || m == Gpt35TurboInstruct then "gpt-3.5-turbo"
      else "gpt-4"
  {
  }

  /** No price is negative. */
  lemma PricingTable(m: Model)
    ensures 0.0 <= PricingOf(m).input && 0.0 <= PricingOf(m).output
  {
  }

  /** The duplicated key keeps the entries written last: its later
      description, and the same price in both of its pricing entries. */
  lemma DuplicateKeyKeepsLast()
    ensures Description(QwenQwen3235bA22b) == "Qwen3 235B A22B MoE model with full parameter support"
    ensures PricingOf(QwenQwen3235bA22b) == Pricing(0.00013, 0.0006)
  {
  }

  /** `o3-pro` is a key of the tables. */
  lemma O3ProRegistered()
    ensures Lookup("o3-pro") == Some(O3Pro)
  {
  }
}
