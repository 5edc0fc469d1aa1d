# LLM dispatch and verdict extraction, modelled in Dafny

This project models two parts of ZeroFalse's LLM tooling:

- **The LLM API handler** (`OWASP/llm_api_handler.py`). This part covers:
  - the static model registry (`MODEL_CONFIGS` and `MODEL_PRICING`);
  - the parameter normaliser `validate_model_parameters`;
  - token counting and cost accounting;
  - the routing done by `send_to_llm`;
  - the common request/usage logic of `send_to_openai`, `send_to_openrouter` and `send_to_o3_pro`;
  - `get_model_info`.
- **The OpenRouter prompt generator's call** (`OpenVuln/generate_prompts_with_openrouter.py`). This part covers:
  - `_call_openrouter_api`, with its failure paths and its five-stage cascade that recovers a verdict from the model's answer;
  - `_generate_fallback_response`;
  - `_generate_prompt`.

Modules, one per component:

| file | module | what it holds |
|---|---|---|
| `wrappers.dfy` | `Wrappers` | `Option` and `Result`: Python's `None` and raised exceptions as values |
| `registry.dfy` | `Registry` | both tables, the lookups, the table invariants |
| `parameters.dfy` | `Parameters` | `validate_model_parameters`: a specification function, the imperative method with its copying loop, and the properties |
| `accounting.dfy` | `Accounting` | `count_tokens` (three tiers over a tokenizer oracle) and `calculate_cost` (on reals) |
| `dispatch.dfy` | `Dispatch` | routing, request building and the usage record, with the three senders as methods over abstract client/call oracles |
| `json.dfy` | `Json` | the part of `json.loads` the cascade relies on, Python's dict semantics for decoded objects, and a writer for round trips |
| `scanners.dfy` | `Scanners` | hand-written scanners for the three regular expressions, plus `str.strip` and `str.replace` |
| `extraction.dfy` | `Extraction` | the cascade stages, the generator class and its call |
| `cascade.dfy` | `Cascade` | whole answers followed through the cascade: a fenced verdict after prose, a verdict among other brace-delimited spans, and four bare key-value lines |

Design decisions:

- **Registry tables.** The two dict displays share one key set of 51 names. That set is the enumeration `Registry.Model`. `Registry.Lookup` is the key test (`name in MODEL_CONFIGS`). `ConfigOf`, `Description` and `PricingOf` give the entries.
  - `qwen/qwen3-235b-a22b` is written twice in each display.
  - Python keeps the entry written last, and so does the model: its later description ("Qwen3 235B A22B MoE model …") is the one used.
  - The two pricing entries for this key are equal.
- **Prices and temperatures** are `real`.
- **Token counts.** The tokenizer library is an oracle `encode(tokenizerName, text): Option<nat>`, where `None` means the library raised.
- **Network calls** are oracles:
  - `construct` for client construction;
  - `call` for the chat or response API; it gives the reply's text, `None` for no text, or raises;
  - `post` for the OpenRouter HTTP request; it gives a status and a body, or raises.
- **Keyword arguments** are modelled as a `map<string, Value>`.
  - `send_to_*` take `temperature` as a named argument, so Python never lets `temperature` into `**kwargs`. The senders therefore require `"temperature" !in kwargs`.
- **Where the specification and the code differ, the model follows the code:**
  - A supplied `max_tokens` is emitted as `max_tokens` for any model that does not list `max_completion_tokens`, whether or not the model lists `max_tokens` (line 749). No registered model is affected: `Parameters.RegisteredKeysSupported`.
  - A supplied temperature is refused only when the model supports temperature. A model without temperature drops it silently.
  - A supplied temperature that is not a number makes Python's comparison raise `TypeError`. The model reports this as the separate error `TemperatureNotComparable`.
  - Stages 1 and 2 of the cascade do not check for the four required fields. Only stages 3 to 5 guarantee them: `Extraction.RecoverHasRequired`.
  - An answer that decodes to a JSON value other than an object makes stage 1 raise on `update`. The generator then returns its fallback record, which names `self.model` and not the call's model.

## Model

| member | source | states |
|---|---|---|
| Registry.GetModelConfig | OWASP/llm_api_handler.py:699-715 | succeeds exactly for the names of the configuration table, with that name's entry; otherwise fails with `UnknownModel` naming the model |
| Registry.IsOpenAIModel | OWASP/llm_api_handler.py:682-697 | `o3-pro` is OpenAI by name; any other name fails exactly when unknown, and is OpenAI exactly when its entry's provider is `openai` |
| Registry.GetModelInfo | OWASP/llm_api_handler.py:1172-1196 | fails exactly for unknown names; otherwise returns the name, entry, description, price and the entry's parameters, temperatures and provider |
| Registry.TemperatureTable | OWASP/llm_api_handler.py:245-680 | every entry has default temperature 0 and maximum 1 (reasoning models) or 2, so 0 ≤ default ≤ maximum |
| Registry.ParameterTable | OWASP/llm_api_handler.py:245-680 | each entry lists the chat parameters, or the reasoning parameters, or (`o3-pro` only) those plus `reasoning` |
| Registry.TokenLimitTable | OWASP/llm_api_handler.py:245-680 | no entry lists both output-length names; an entry lists `temperature` exactly when it does not list `max_completion_tokens`, which is exactly for the seven reasoning models |
| Registry.ProviderTable | OWASP/llm_api_handler.py:245-680 | the provider is `openai` for the seven direct OpenAI models and `o3-pro`, `openrouter` for all others |
| Registry.TokenizerTable | OWASP/llm_api_handler.py:245-680 | the tokenizer is `gpt-4o` for gpt-4o, `gpt-3.5-turbo` for the two GPT-3.5 models, `gpt-4` otherwise |
| Registry.PricingTable | OWASP/llm_api_handler.py:14-242 | no price is negative |
| Registry.DuplicateKeyKeepsLast | OWASP/llm_api_handler.py:597-604 | the twice-written key keeps its later description, and its price |
| Registry.O3ProRegistered | OWASP/llm_api_handler.py:329-336 | `o3-pro` is a key of the tables |
| Parameters.TemperatureEntry | OWASP/llm_api_handler.py:735-743 | the temperature part of the result holds at most the key `temperature` |
| Parameters.TokenLimitEntry | OWASP/llm_api_handler.py:745-749 | the output-length part holds only output-length names, each carrying the caller's `max_tokens` |
| Parameters.ValidateModelParameters | OWASP/llm_api_handler.py:717-761 | the imperative steps compute exactly the specification `Validate` |
| Parameters.ForwardSupported | OWASP/llm_api_handler.py:751-761 | the copying loop, in any visiting order, adds exactly the forwarded arguments with the caller's values |
| Parameters.TemperatureRule | OWASP/llm_api_handler.py:735-743 | without temperature support: no error and no temperature key; with support and no value given: the default; with a value: success iff it is a number in [0, max], and then that value unchanged |
| Parameters.ErrorCases | OWASP/llm_api_handler.py:732-743 | the only failures are the unknown model and a supplied temperature for a model that supports temperature |
| Parameters.MaxTokensRule | OWASP/llm_api_handler.py:745-755 | when the model lists `max_completion_tokens`, `max_tokens` never appears, and `max_completion_tokens` carries the caller's value; otherwise `max_tokens` appears iff supplied, with its value |
| Parameters.NeverBothTokenLimits | OWASP/llm_api_handler.py:745-755 | for any configuration, the result never holds both output-length names |
| Parameters.CopyRule | OWASP/llm_api_handler.py:751-761 | a supported argument (other than a renamed `max_tokens`) is copied with its value; an unsupported one (other than `max_tokens`) is dropped without error |
| Parameters.KeysOrigin | OWASP/llm_api_handler.py:735-761 | every output key is the supported temperature, a mapped output-length name, or a forwarded argument; only the default temperature is never supplied by the caller |
| Parameters.RegisteredKeysSupported | OWASP/llm_api_handler.py:717-761 | for registered models every output key is supported, and reasoning models never get a temperature |
| Accounting.EstimateTokens | OWASP/llm_api_handler.py:779 | the estimate n satisfies 4n ≤ len(text) < 4n + 4, which is `len(text) // 4` |
| Accounting.CountTokensTiers | OWASP/llm_api_handler.py:763-781 | the model's tokenizer answers when the model is known and it succeeds; else the gpt-4 tokenizer; else the estimate |
| Accounting.CountTokensDefined | OWASP/llm_api_handler.py:763-781 | a count always exists: either one some tokenizer gives, or the length-based estimate |
| Accounting.PricingFor | OWASP/llm_api_handler.py:785-787 | the model's price row, or GPT-4's for a model without one |
| Accounting.CostAdditive | OWASP/llm_api_handler.py:783-791 | zero tokens cost zero, and cost is additive in the input and output counts |
| Accounting.CostMonotone | OWASP/llm_api_handler.py:783-791 | cost is non-negative and grows with the counts |
| Accounting.CostFallback | OWASP/llm_api_handler.py:785-787 | a model without a price row is charged at GPT-4's $0.03 / $0.06 per thousand |
| Dispatch.RouteFor | OWASP/llm_api_handler.py:807-815 | routing succeeds exactly for `o3-pro` and registered models, and fails with `UnknownModel` otherwise |
| Dispatch.Send | OWASP/llm_api_handler.py:831-929 | the sender's steps compute exactly `SendSpec` on the validated call parameters |
| Dispatch.SendToOpenAI | OWASP/llm_api_handler.py:817-929 | `send_to_openai` is `SendSpec` on the OpenAI chat route (30 s client, assistant persona) |
| Dispatch.SendToOpenRouter | OWASP/llm_api_handler.py:931-1045 | `send_to_openrouter` is `SendSpec` on the OpenRouter route (OpenRouter URL and key, 30 s) |
| Dispatch.SendToO3Pro | OWASP/llm_api_handler.py:1047-1161 | `send_to_o3_pro` is `SendSpec` on the response API route (60 s, analyst persona, reasoning effort) |
| Dispatch.SendToLlm | OWASP/llm_api_handler.py:793-815 | an unknown model fails before any client is built; otherwise the result is that of the routed sender |
| Dispatch.RouteRule | OWASP/llm_api_handler.py:807-815 | only `o3-pro` goes to the response API; other known models go to OpenAI chat exactly when their provider is `openai` |
| Dispatch.UsageRule | OWASP/llm_api_handler.py:851-896 | input counted iff counting is on; output iff counting is on and the reply has text; cost exists iff both counts do, equals their price, and is non-negative |
| Dispatch.SendSteps | OWASP/llm_api_handler.py:831-929 | failures come in order client, validation, call; success returns the request built from the validated parameters, the reply and its usage |
| Dispatch.UnknownModelRejected | OWASP/llm_api_handler.py:712-713 | an unregistered model other than `o3-pro` is refused with `UnknownModel` |
| Dispatch.RequestShape | OWASP/llm_api_handler.py:865-872 | every request carries the route's system persona and then the prompt; chat requests carry exactly the validated parameters |
| Dispatch.ReasoningOverride | OWASP/llm_api_handler.py:1095-1103 | the response API request always has `reasoning`: a validated caller value overrides the fixed high effort; other keys are the validated ones |
| Dispatch.O3ProReasoning | OWASP/llm_api_handler.py:1073-1103 | for `o3-pro` validation always succeeds, no temperature is sent, and the caller's `reasoning` replaces the high effort |
| Dispatch.NoTemperatureForReasoningModels | OWASP/llm_api_handler.py:735-743 | a reasoning model's request never carries a temperature |
| Dispatch.ChatTemperatureSent | OWASP/llm_api_handler.py:844-846 | for chat models, parameter validation succeeds iff the given temperature is absent or in [0, 2], and the request then carries it, or the default 0 |
| Json.ParseBraceIsObject | OpenVuln/generate_prompts_with_openrouter.py:221-222 | a text starting with `{` decodes to an object or not at all |
| Json.ToDict | OpenVuln/generate_prompts_with_openrouter.py:191 | a decoded object's dict has exactly the member names as keys |
| Json.ToDictLastWins | OpenVuln/generate_prompts_with_openrouter.py:191 | when a name occurs more than once in an object, the last member with that name gives the dict's value |
| Json.ObjectRoundTrip | OpenVuln/generate_prompts_with_openrouter.py:191 | a flat object of printable strings, written as JSON, decodes to the same members in order |
| Scanners.FindFenced | OpenVuln/generate_prompts_with_openrouter.py:201-202 | a found group begins with `{` and ends with `}` |
| Scanners.FencedSearch | OpenVuln/generate_prompts_with_openrouter.py:201-202 | the search finds a group iff the pattern matches somewhere; the group is that of the leftmost match, ending at the first `}` followed by a closing fence |
| Scanners.LooseShape | OpenVuln/generate_prompts_with_openrouter.py:216 | every candidate is `{`, brace-free text holding `"False Positive"`, then `}` |
| Scanners.LooseCandidatesRule | OpenVuln/generate_prompts_with_openrouter.py:216-217 | `findall` returns exactly the matches at every position, in text order |
| Scanners.FindField | OpenVuln/generate_prompts_with_openrouter.py:242-245 | a captured value is non-empty and has no `"` |
| Scanners.FieldSearch | OpenVuln/generate_prompts_with_openrouter.py:242-245 | the search finds a value iff the pattern matches somewhere, and gives the leftmost match's value |
| Scanners.ReplaceAbsent | OpenVuln/generate_prompts_with_openrouter.py:135 | a text without the pattern is unchanged by `replace` |
| Scanners.ReplaceJoin | OpenVuln/generate_prompts_with_openrouter.py:135 | pieces without the pattern joined by it become the same pieces joined by the replacement |
| Extraction.Stamp | OpenVuln/generate_prompts_with_openrouter.py:192-194 | `update({"model_used": model})` adds or overwrites `model_used` and keeps every other entry |
| Extraction.ErrorRecord | OpenVuln/generate_prompts_with_openrouter.py:260-266 | the four fields are `ERROR`, `model_used` is the given model, and there are no other keys |
| Extraction.FencedStage | OpenVuln/generate_prompts_with_openrouter.py:199-210 | a fenced result names the call's model |
| Extraction.FirstComplete | OpenVuln/generate_prompts_with_openrouter.py:219-233 | a loose result has the four fields and names the call's model |
| Extraction.FieldStage | OpenVuln/generate_prompts_with_openrouter.py:242-255 | a field-stage result has the four fields and names the call's model |
| Extraction.Recover | OpenVuln/generate_prompts_with_openrouter.py:197-266 | stages 2 to 5 always give a record naming the call's model |
| Extraction.ExtractVerdict | OpenVuln/generate_prompts_with_openrouter.py:187-266 | the imperative cascade computes exactly `Extract`: first success over the stages |
| Extraction.TryCandidates | OpenVuln/generate_prompts_with_openrouter.py:219-233 | the candidate loop returns the first candidate that decodes with the four fields, stamped; skips the rest |
| Extraction.OpenRouterPromptGenerator.constructor | OpenVuln/generate_prompts_with_openrouter.py:22-32 | the key is the one given, or the environment's when none is given; the default model is `openai/gpt-4o-mini` |
| Extraction.OpenRouterPromptGenerator.GenerateFallbackResponse | OpenVuln/generate_prompts_with_openrouter.py:277-285 | four `ERROR` fields and the generator's own model, nothing else |
| Extraction.OpenRouterPromptGenerator.GeneratePrompt | OpenVuln/generate_prompts_with_openrouter.py:133-135 | a template without the placeholder is unchanged, and filling with the placeholder itself changes nothing |
| Extraction.OpenRouterPromptGenerator.CallOpenRouterApi | OpenVuln/generate_prompts_with_openrouter.py:137-275 | the call computes exactly `CallSpec`: key check, request, status check, reply text, cascade, fallbacks |
| Extraction.PromptFillsEveryPlaceholder | OpenVuln/generate_prompts_with_openrouter.py:133-135 | every `{code_context}` is replaced by the context text |
| Extraction.FallbackPaths | OpenVuln/generate_prompts_with_openrouter.py:139-180 | no key, a raised request, a non-OK status, an unreadable reply or a stage-1 raise give the fallback record naming the generator's model |
| Extraction.NonObjectAnswer | OpenVuln/generate_prompts_with_openrouter.py:189-195 | an answer decoding to a non-object raises in stage 1 |
| Extraction.AnsweredCall | OpenVuln/generate_prompts_with_openrouter.py:182-275 | with a reply text, the result is the cascade's, naming the call's model, unless stage 1 raised |
| Extraction.DirectObject | OpenVuln/generate_prompts_with_openrouter.py:189-195 | an answer that is a JSON object is returned as that dict with `model_used` set, and no required-field check |
| Extraction.EmptyObjectAccepted | OpenVuln/generate_prompts_with_openrouter.py:189-195 | `{}` is accepted by stage 1 and comes back as `model_used` alone |
| Extraction.RecoverHasRequired | OpenVuln/generate_prompts_with_openrouter.py:212-266 | once stages 1 and 2 fail, the result has all four required fields |
| Extraction.LooseStageRule | OpenVuln/generate_prompts_with_openrouter.py:219-233 | stage 3 fails iff no candidate is acceptable, and otherwise returns the leftmost acceptable one |
| Extraction.NoBracesNoCandidates | OpenVuln/generate_prompts_with_openrouter.py:216-217 | text without braces has no loose candidates |
| Extraction.FieldStageRule | OpenVuln/generate_prompts_with_openrouter.py:242-255 | stage 4 succeeds iff all four patterns match, and gives exactly the four fields (each non-empty, without `"`) and `model_used` |
| Extraction.SentinelWhenAllFail | OpenVuln/generate_prompts_with_openrouter.py:258-266 | when stages 2 to 4 fail, the result is the `ERROR` record naming the call's model |
| Extraction.VerdictRoundTrip | OpenVuln/generate_prompts_with_openrouter.py:189-195 | a flat JSON object of printable strings comes back from the cascade as that dict with `model_used` set |
| Cascade.ProseIsNoJson | OpenVuln/generate_prompts_with_openrouter.py:189-196 | an answer whose first character can begin no JSON text fails `json.loads` and goes past stage 1 |
| Cascade.FencedVerdict | OpenVuln/generate_prompts_with_openrouter.py:189-208 | a verdict of printable strings without backticks, written as JSON in a `json` fence after prose that starts with such a character and holds no backtick, comes back from stage 2 as that dict with `model_used` set, whatever follows the fence |
| Cascade.LooseVerdict | OpenVuln/generate_prompts_with_openrouter.py:189-235 | a verdict whose first key is `False Positive`, written as JSON after prose whose own brace spans are all refused, comes back from stage 3 as that dict with `model_used` set, whatever spans follow it |
| Cascade.FieldVerdict | OpenVuln/generate_prompts_with_openrouter.py:189-255 | four bare `"key": "value"` lines, one per required field in order, whose values are non-empty and hold no `"`, backtick or brace, come back from stage 4 as exactly those four values and `model_used` |
| Cascade.FieldsOnly | OpenVuln/generate_prompts_with_openrouter.py:197-255 | a text that is no JSON, holds no backtick and no brace, and in which all four field patterns match, gets stage 4's record of those values |
| Scanners.FencedAt | OpenVuln/generate_prompts_with_openrouter.py:201-202 | conversely to `FencedSearch`, a match with none to its left and none shorter is the group the search finds |
| Scanners.NoFenceWithoutTicks | OpenVuln/generate_prompts_with_openrouter.py:201-202 | a text without backticks has no fenced group |
| Scanners.LooseFromBefore | OpenVuln/generate_prompts_with_openrouter.py:216-217 | `findall` over a text followed by one starting with `{` gives the matches of the first text, then those from where the second starts |

## Left out

- Network and client construction: OpenAI client construction, `chat.completions.create`, `responses.create` and `requests.post`/`requests.get` are oracle parameters. Their retries and timeouts are library behaviour; the model records the timeout and retry settings each sender passes.
- The tokenizer library (tiktoken): an oracle. Its encodings are not modelled.
- Printed usage summaries, warnings and logging: output only.
- Environment and connectivity checks (`test_model_connectivity`, `test_openrouter_connectivity`, `validate_api_key`, `validate_openai_api_key`, `validate_openrouter_api_key`): environment and network I/O.
- Reading the environment: `os.getenv` becomes a parameter of the generator's constructor.
- The file, CSV and batch work of the prompt generator:
  - `_load_projects_info`, template discovery and reading, `_get_code_context_files`, `_read_code_context`, `_create_project_directory`;
  - `save_results_to_csv`, `list_available_models`, `_get_available_models` (HTTP), `process_projects_with_openrouter`, `run`, `main`.
- `list_supported_models`: it returns the configuration table itself, which the model gives as `Registry.Lookup` and `Registry.ConfigOf`.
- IEEE floating point and `:.4f` formatting: prices, temperatures and costs are `real`.
- JSON decoding of lone UTF-16 surrogates in `\u` escapes: Python keeps them in the string, but a Dafny `char` cannot hold one, so such text is treated as undecodable.
- The error detail of failed calls (HTTP reason and body): logged only, so it is not modelled.
- The `usage` entry of the OpenRouter reply: read at line 186 and never used.
- The `HTTP-Referer` and `X-Title` request headers: fixed analytics values, left out of `ChatPost`.
- Extraction.OpenRouterPromptGenerator.GeneratePrompt: its own contract states only the unchanged-template cases. Replacement of every occurrence is stated by `Extraction.PromptFillsEveryPlaceholder`.
- Json.Parse: has no nesting-depth limit and no limit on the digits of an integer literal. CPython's `json.loads` raises `RecursionError` on deep nesting, and from Python 3.11 `ValueError` on integer literals of more than 4300 digits. Neither is a `JSONDecodeError`, so:
  - in stages 1 and 2 (lines 191 and 204) it escapes to the outer `except Exception` (line 272), which returns the fallback record naming the generator's model;
  - in stage 3 (line 223) it leaves the candidate loop for `except Exception: pass` (line 234), skipping the remaining candidates and going on to the field stage;
  - in `response.json()` (line 182) it likewise gives the fallback record.
  The model decodes such texts instead, because the recursion limit depends on the interpreter's stack state and the digit limit on its configuration.
