/** The prompt generator's call to OpenRouter and the extraction of a
    verdict from the model's answer: a chain of ever looser readings of the
    answer text (the whole text as JSON, a fenced JSON block, loose objects
    holding the first field, the four fields one by one) ending in a record
    of `ERROR` values. Failures before an answer text exists give the
    generator's fallback record. The network is not modelled: `post` answers
    a request with a status and a body, or raises. */
module Extraction {
  import opened Wrappers
  import opened Json
  import opened Scanners

  /** A decoded answer, as the Python dict it becomes. */
  type Record = map<string, Json>

  const FalsePositive: string := "False Positive"
  const SanitizationFound: string := "Sanitization Found?"
  const AttackFeasible: string := "Attack Feasible?"
  const Confidence: string := "Confidence"
  const ModelUsed: string := "model_used"
  const ErrorMark: string := "ERROR"

  /** The four fields a verdict has. */
  const RequiredFields: seq<string> := [FalsePositive, SanitizationFound, AttackFeasible, Confidence]

  /** The quoted keys the field-by-field patterns look for. */
  const SanitizationPattern: string := "\"Sanitization Found?\""
  const AttackPattern: string := "\"Attack Feasible?\""
  const ConfidencePattern: string := "\"Confidence\""

  /** The model the generator uses when none is given. */
  const DefaultModel: string := "openai/gpt-4o-mini"

  /** The placeholder a prompt template holds. */
  const Placeholder: string := "{code_context}"

  /** The endpoint the request goes to. */
  const CompletionsUrl: string := "https://openrouter.ai/api/v1/chat/completions"

  predicate HasRequired(r: Record) {
    forall f | f in RequiredFields :: f in r
  }

  /** `update({"model_used": model})`: adds the entry, or replaces it. */
  function Stamp(r: Record, model: string): (out: Record)
    ensures out.Keys == r.Keys + {ModelUsed}
    ensures ModelUsed in out && out[ModelUsed] == JString(model)
    ensures forall k | k in r && k != ModelUsed :: out[k] == r[k]
  {
    r[ModelUsed := JString(model)]
  }

  /** The record of `ERROR` values, naming `model`. */
  function ErrorRecord(model: string): (r: Record)
    ensures HasRequired(r)
    ensures r.Keys == {FalsePositive, SanitizationFound, AttackFeasible, Confidence, ModelUsed}
    ensures forall f | f in RequiredFields :: r[f] == JString(ErrorMark)
    ensures r[ModelUsed] == JString(model)
  {
    map[FalsePositive := JString(ErrorMark), SanitizationFound := JString(ErrorMark),
        AttackFeasible := JString(ErrorMark), Confidence := JString(ErrorMark),
        ModelUsed := JString(model)]
  }

  // ---------------------------------------------------------------------
  // The HTTP exchange

  /** The request posted: endpoint, the key sent as `Bearer` authorization,
      the model and the single user message, and the timeout in seconds. */
  datatype ChatPost = ChatPost(url: string, apiKey: string, model: string, prompt: string, timeout: nat)

  /** What `requests.post` does: raise a request exception, or answer. */
  datatype PostOutcome = Raised | Answered(status: int, body: string)

  /** `response.ok`: false exactly for the client and server error
      statuses. */
  predicate IsOk(status: int) {
    !(400 <= status < 600)
  }

  /** The member `key` of an object, as Python's `d[key]` finds it; `None`
      where that raises. */
  function Member(v: Json, key: string): Option<Json> {
    if v.JObject? && key in ToDict(v.members) then Some(ToDict(v.members)[key]) else None
  }

  const ChoicesKey: string := "choices"
  const MessageKey: string := "message"
  const ContentKey: string := "content"

  /** `response.json()["choices"][0]["message"]["content"]` as a text that
      `json.loads` accepts; `None` wherever one of these steps raises, or
      where the content is no text. */
  function ReplyContent(body: string): Option<string> {
    var result := Parse(body);
    if result.None? then None
    else
      var choices := Member(result.value, ChoicesKey);
      if choices.None? || !choices.value.JArray? || choices.value.items == [] then None
      else
        var message := Member(choices.value.items[0], MessageKey);
        if message.None? then None
        else
          var content := Member(message.value, ContentKey);
          if content.Some? && content.value.JString? then Some(content.value.s) else None
  }

  // ---------------------------------------------------------------------
  // The stages

  /** The fenced block, when it decodes to an object. A body that does not
      decode falls through to the next stage. */
  function FencedStage(content: string, model: string): (r: Option<Record>)
    ensures r.Some? ==> ModelUsed in r.value && r.value[ModelUsed] == JString(model)
  {
    match FindFenced(content)
    case None => None
    case Some(body) =>
      match Parse(body)
      case Some(JObject(ms)) => Some(Stamp(ToDict(ms), model))
      case _ => None
  }

  /** The shape every loose candidate has (`LooseShape`): it begins with
      `{` and ends with `}`, so stripping it changes nothing
      (`StripKeeps`), and if it decodes, it decodes to an object
      (`ParseBraceIsObject`). */
  predicate Braced(c: string) {
    |c| >= 2 && c[0] == '{' && c[|c| - 1] == '}'
  }

  /** A loose candidate is taken when it decodes to an object holding the
      four fields. */
  predicate Acceptable(c: string) {
    var p := Parse(c);
    p.Some? && p.value.JObject? && HasRequired(ToDict(p.value.members))
  }

  /** The candidates of a text are braced. */
  lemma CandidatesBraced(content: string)
    ensures forall c | c in LooseCandidates(content) :: Braced(c)
  {
    LooseCandidatesRule(content);
    forall c | c in LooseCandidates(content) ensures Braced(c) {
      var i :| 0 <= i < |content| && LooseAt(content, i) && c == LooseSpan(content, i);
      LooseShape(content, i);
    }
  }

  /** The position of the first acceptable candidate from `i` on. */
  function FirstAcceptable(cs: seq<string>, i: nat): (r: Option<nat>)
    requires i <= |cs|
    ensures r.Some? ==> i <= r.value < |cs| && Acceptable(cs[r.value])
    ensures r.Some? ==> forall j | i <= j < r.value :: !Acceptable(cs[j])
    ensures r.None? ==> forall j | i <= j < |cs| :: !Acceptable(cs[j])
    decreases |cs| - i
  {
    if i == |cs| then None
    else if Acceptable(cs[i]) then Some(i)
    else FirstAcceptable(cs, i + 1)
  }

  /** The decoded candidate as a dict. */
  function Decoded(c: string): (r: Record)
    requires Acceptable(c)
    ensures HasRequired(r)
  {
    ToDict(Parse(c).value.members)
  }

  /** The loose stage: the first acceptable candidate, stamped with the
      model. */
  function FirstComplete(cs: seq<string>, model: string): (r: Option<Record>)
    ensures r.Some? ==> HasRequired(r.value) && ModelUsed in r.value && r.value[ModelUsed] == JString(model)
  {
    match FirstAcceptable(cs, 0)
    case None => None
    case Some(i) => Some(Stamp(Decoded(cs[i]), model))
  }

  /** The four field patterns, when all of them match. */
  function FieldStage(content: string, model: string): (r: Option<Record>)
    ensures r.Some? ==> HasRequired(r.value) && ModelUsed in r.value && r.value[ModelUsed] == JString(model)
  {
    var fp := FindField(content, FalsePositivePattern);
    var sf := FindField(content, SanitizationPattern);
    var af := FindField(content, AttackPattern);
    var cf := FindField(content, ConfidencePattern);
    if fp.Some? && sf.Some? && af.Some? && cf.Some? then Some(FieldRecord(fp.value, sf.value, af.value, cf.value, model))
    else None
  }

  /** The record the field stage builds from the four captured values. */
  function FieldRecord(fp: string, sf: string, af: string, cf: string, model: string): (r: Record)
    ensures HasRequired(r)
    ensures r.Keys == {FalsePositive, SanitizationFound, AttackFeasible, Confidence, ModelUsed}
    ensures r[FalsePositive] == JString(fp) && r[SanitizationFound] == JString(sf)
    ensures r[AttackFeasible] == JString(af) && r[Confidence] == JString(cf)
    ensures r[ModelUsed] == JString(model)
  {
    FieldsDistinct();
    map[FalsePositive := JString(fp), SanitizationFound := JString(sf),
        AttackFeasible := JString(af), Confidence := JString(cf),
        ModelUsed := JString(model)]
  }

  /** Stages 2 to 5, for an answer that is no JSON text. */
  function Recover(content: string, model: string): (r: Record)
    ensures ModelUsed in r && r[ModelUsed] == JString(model)
  {
    var fenced := FencedStage(content, model);
    if fenced.Some? then fenced.value
    else
      var loose := FirstComplete(LooseCandidates(content), model);
      if loose.Some? then loose.value
      else
        var fields := FieldStage(content, model);
        if fields.Some? then fields.value
        else ErrorRecord(model)
  }

  /** The whole cascade: an answer that decodes to an object is that
      object; one that decodes to anything else raises on `update` (`None`);
      one that does not decode goes through the other stages. */
  function Extract(content: string, model: string): Option<Record> {
    match Parse(content)
    case Some(v) => if v.JObject? then Some(Stamp(ToDict(v.members), model)) else None
    case None => Some(Recover(content, model))
  }

  /** The model a call uses: the one given, unless it is missing or
      empty. */
  function Chosen(requested: Option<string>, defaultModel: string): string {
    if requested.Some? && requested.value != "" then requested.value else defaultModel
  }

  predicate HasKey(apiKey: Option<string>) {
    apiKey.Some? && apiKey.value != ""
  }

  /** `_call_openrouter_api` as a function of the generator's key and
      model, the call's arguments and the network. */
  function CallSpec(apiKey: Option<string>, defaultModel: string, prompt: string, requested: Option<string>,
                    post: ChatPost -> PostOutcome): Record {
    if !HasKey(apiKey) then ErrorRecord(defaultModel)
    else
      var model := Chosen(requested, defaultModel);
      match post(ChatPost(CompletionsUrl, apiKey.value, model, prompt, 60))
      case Raised => ErrorRecord(defaultModel)
      case Answered(status, body) =>
        if !IsOk(status) then ErrorRecord(defaultModel)
        else
          match ReplyContent(body)
          case None => ErrorRecord(defaultModel)
          case Some(content) =>
            match Extract(content, model)
            case None => ErrorRecord(defaultModel)
            case Some(r) => r
  }

  // ---------------------------------------------------------------------
  // The generator

  /** The generator's state that the call uses: the API key and the default
      model, both set when it is made. */
  class OpenRouterPromptGenerator {
    const apiKey: Option<string>
    const model: string

    /** The key given, or else the one in the environment variable
        `OPENROUTER_API_KEY` (`environmentKey`). */
    constructor(apiKey: Option<string>, environmentKey: Option<string>, model: string := DefaultModel)
      ensures this.apiKey == (if HasKey(apiKey) then apiKey else environmentKey)
      ensures this.model == model
    {
      this.apiKey := if HasKey(apiKey) then apiKey else environmentKey;
      this.model := model;
    }

    /** `_generate_fallback_response`: the four fields set to `ERROR` and
        the generator's own model. */
    function GenerateFallbackResponse(): (r: Record)
      ensures HasRequired(r)
      ensures r.Keys == {FalsePositive, SanitizationFound, AttackFeasible, Confidence, ModelUsed}
      ensures forall f | f in RequiredFields :: r[f] == JString(ErrorMark)
      ensures r[ModelUsed] == JString(model)
    {
      ErrorRecord(model)
    }

    /** `_generate_prompt`: every `{code_context}` in the template replaced
        by the context. */
    function GeneratePrompt(template: string, codeContext: string): (r: string)
      ensures !Occurs(template, Placeholder) ==> r == template
      ensures codeContext == Placeholder ==> r == template
    {
      ReplaceSelf(template, Placeholder);
      ReplaceAbsent(template, Placeholder, codeContext);
      ReplaceAll(template, Placeholder, codeContext)
    }

    /** `_call_openrouter_api`: the key check, the request, the status
        check, the answer's text, then the stages in order. */
    method CallOpenRouterApi(prompt: string, model: Option<string>, post: ChatPost -> PostOutcome) returns (r: Record)
      ensures r == CallSpec(apiKey, this.model, prompt, model, post)
    {
      if !HasKey(apiKey) {
        return GenerateFallbackResponse();
      }
      var chosen := if model.Some? && model.value != "" then model.value else this.model;
      var outcome := post(ChatPost(CompletionsUrl, apiKey.value, chosen, prompt, 60));
      if outcome.Raised? || !IsOk(outcome.status) {
        return GenerateFallbackResponse();
      }
      var reply := ReplyContent(outcome.body);
      if reply.None? {
        return GenerateFallbackResponse();
      }
      var verdict := ExtractVerdict(reply.value, chosen);
      if verdict.None? {
        return GenerateFallbackResponse();
      }
      return verdict.value;
    }
  }

  /** `_generate_prompt` replaces every placeholder: a template made of
      pieces without the placeholder, joined by it, becomes those pieces
      joined by the context. */
  lemma PromptFillsEveryPlaceholder(g: OpenRouterPromptGenerator, pieces: seq<string>, codeContext: string)
    requires pieces != []
    requires forall i | 0 <= i < |pieces| :: !Occurs(pieces[i], Placeholder)
    ensures g.GeneratePrompt(Join(pieces, Placeholder), codeContext) == Join(pieces, codeContext)
  {
    assert forall k | 0 < k < |Placeholder| :: Placeholder[k] != Placeholder[0];
    ReplaceJoin(pieces, Placeholder, codeContext);
  }

  /** The stages of `_call_openrouter_api` once the answer's text is read;
      `None` where stage 1 raises on `update`. */
  method ExtractVerdict(content: string, model: string) returns (r: Option<Record>)
    ensures r == Extract(content, model)
  {
    // Stage 1: the whole text.
    var direct := Parse(content);
    if direct.Some? {
      if !direct.value.JObject? {
        return None;
      }
      return Some(Stamp(ToDict(direct.value.members), model));
    }
    // Stage 2: the first fenced block.
    var fenced := FindFenced(content);
    if fenced.Some? {
      var parsed := Parse(fenced.value);
      if parsed.Some? && parsed.value.JObject? {
        return Some(Stamp(ToDict(parsed.value.members), model));
      }
    }
    assert FencedStage(content, model).None?;
    // Stage 3: the loose candidates, left to right.
    CandidatesBraced(content);
    var loose := TryCandidates(LooseCandidates(content), model);
    if loose.Some? {
      return loose;
    }
    // Stage 4: the fields one by one.
    var fp := FindField(content, FalsePositivePattern);
    var sf := FindField(content, SanitizationPattern);
    var af := FindField(content, AttackPattern);
    var cf := FindField(content, ConfidencePattern);
    if fp.Some? && sf.Some? && af.Some? && cf.Some? {
      return Some(FieldRecord(fp.value, sf.value, af.value, cf.value, model));
    }
    // Stage 5: the error record for the call's model.
    return Some(ErrorRecord(model));
  }

  /** The loop of stage 3: each candidate stripped and decoded; one that
      does not decode is skipped, one without the four fields passed
      over. */
  method TryCandidates(candidates: seq<string>, model: string) returns (r: Option<Record>)
    requires forall c | c in candidates :: Braced(c)
    ensures r == FirstComplete(candidates, model)
  {
    var i := 0;
    while i < |candidates|
      invariant 0 <= i <= |candidates|
      invariant FirstAcceptable(candidates, 0) == FirstAcceptable(candidates, i)
    {
      var text := Strip(candidates[i]);
      assert Braced(candidates[i]);
      StripKeeps(candidates[i]);
      var parsed := Parse(text);
      if parsed.None? {
        i := i + 1;
        continue;
      }
      if parsed.value.JObject? {
        var fields := ToDict(parsed.value.members);
        if HasRequired(fields) {
          assert Acceptable(candidates[i]);
          return Some(Stamp(fields, model));
        }
      }
      i := i + 1;
    }
    return None;
  }

  // ---------------------------------------------------------------------
  // Properties

  /** Every failure before an answer text exists gives the fallback
      record, which names the generator's model even when the call asked
      for another. */
  lemma FallbackPaths(apiKey: Option<string>, defaultModel: string, prompt: string, requested: Option<string>,
                      post: ChatPost -> PostOutcome)
    ensures !HasKey(apiKey) ==> CallSpec(apiKey, defaultModel, prompt, requested, post) == ErrorRecord(defaultModel)
    ensures HasKey(apiKey) ==>
      var sent := ChatPost(CompletionsUrl, apiKey.value, Chosen(requested, defaultModel), prompt, 60);
      (|| post(sent).Raised?
       || !IsOk(post(sent).status)
       || ReplyContent(post(sent).body).None?
       || Extract(ReplyContent(post(sent).body).value, Chosen(requested, defaultModel)).None?) ==>
        CallSpec(apiKey, defaultModel, prompt, requested, post) == ErrorRecord(defaultModel)
  {
  }

  /** An answer that decodes to a JSON value other than an object raises on
      `update`, so the call gives the fallback record too. */
  lemma NonObjectAnswer(content: string, model: string)
    requires Parse(content).Some? && !Parse(content).value.JObject?
    ensures Extract(content, model).None?
  {
  }

  /** A call given an answer text returns what the stages make of it, and
      the result names the call's model unless stage 1 raised. */
  lemma AnsweredCall(apiKey: Option<string>, defaultModel: string, prompt: string, requested: Option<string>,
                     post: ChatPost -> PostOutcome)
    requires HasKey(apiKey)
    requires var sent := ChatPost(CompletionsUrl, apiKey.value, Chosen(requested, defaultModel), prompt, 60);
      post(sent).Answered? && IsOk(post(sent).status) && ReplyContent(post(sent).body).Some?
    ensures var sent := ChatPost(CompletionsUrl, apiKey.value, Chosen(requested, defaultModel), prompt, 60);
      var e := Extract(ReplyContent(post(sent).body).value, Chosen(requested, defaultModel));
      var r := CallSpec(apiKey, defaultModel, prompt, requested, post);
      && (e.Some? ==> r == e.value && ModelUsed in r && r[ModelUsed] == JString(Chosen(requested, defaultModel)))
      && (e.None? ==> r == ErrorRecord(defaultModel))
  {
  }

  /** An answer that is a JSON object is returned as it is, with
      `model_used` added or replaced; none of the four fields is
      required. */
  lemma DirectObject(content: string, model: string, ms: seq<(string, Json)>)
    requires Parse(content) == Some(JObject(ms))
    ensures Extract(content, model).Some?
    ensures var r := Extract(content, model).value;
      && r.Keys == ToDict(ms).Keys + {ModelUsed}
      && r[ModelUsed] == JString(model)
      && (forall k | k in ToDict(ms) && k != ModelUsed :: r[k] == ToDict(ms)[k])
  {
  }

  /** The empty object is an answer: it comes back as `model_used`
      alone. */
  lemma EmptyObjectAccepted(model: string)
    ensures Extract("{}", model) == Some(map[ModelUsed := JString(model)])
  {
    assert ObjectText([]) == "{}";
    ObjectRoundTrip([]);
  }

  /** Once the direct and fenced readings fail, the result holds the four
      fields: the loose stage checks them, the field stage and the error
      record set them. */
  lemma RecoverHasRequired(content: string, model: string)
    requires FencedStage(content, model).None?
    ensures HasRequired(Recover(content, model))
  {
  }

  /** The loose stage returns the leftmost candidate that decodes to an
      object with the four fields, and nothing when there is none. */
  lemma LooseStageRule(content: string, model: string)
    ensures var cs := LooseCandidates(content);
      var r := FirstComplete(cs, model);
      && (r.None? <==> forall i | 0 <= i < |cs| :: !Acceptable(cs[i]))
      && (forall i | 0 <= i < |cs| && Acceptable(cs[i]) && (forall j | 0 <= j < i :: !Acceptable(cs[j])) ::
            r == Some(Stamp(Decoded(cs[i]), model)))
  {
    var cs := LooseCandidates(content);
    var k := FirstAcceptable(cs, 0);
    forall i | 0 <= i < |cs| && Acceptable(cs[i]) && (forall j | 0 <= j < i :: !Acceptable(cs[j]))
      ensures FirstComplete(cs, model) == Some(Stamp(Decoded(cs[i]), model))
    {
      assert k.Some?;
      assert k.value == i;
    }
  }

  /** A text without braces holds no candidate. */
  lemma NoBracesNoCandidates(content: string)
    requires forall m | 0 <= m < |content| :: !IsBrace(content[m])
    ensures LooseCandidates(content) == []
  {
    LooseFromIsMatches(content, 0);
    LooseMatchesSkip(content, 0, |content|);
  }

  /** A field value is a non-empty text without `"`. */
  predicate Clean(v: Json) {
    v.JString? && v.s != [] && forall m | 0 <= m < |v.s| :: v.s[m] != '"'
  }

  /** The field stage succeeds exactly when all four patterns match, and
      then gives the four fields, each a clean text, and `model_used`. */
  lemma FieldStageRule(content: string, model: string)
    ensures FieldStage(content, model).Some? <==>
      && FindField(content, FalsePositivePattern).Some? && FindField(content, SanitizationPattern).Some?
      && FindField(content, AttackPattern).Some? && FindField(content, ConfidencePattern).Some?
    ensures FieldStage(content, model).Some? ==>
      var r := FieldStage(content, model).value;
      && r.Keys == {FalsePositive, SanitizationFound, AttackFeasible, Confidence, ModelUsed}
      && Clean(r[FalsePositive]) && Clean(r[SanitizationFound]) && Clean(r[AttackFeasible]) && Clean(r[Confidence])
  {
    var fp := FindField(content, FalsePositivePattern);
    var sf := FindField(content, SanitizationPattern);
    var af := FindField(content, AttackPattern);
    var cf := FindField(content, ConfidencePattern);
    if fp.Some? && sf.Some? && af.Some? && cf.Some? {
      var r := FieldStage(content, model).value;
      assert r == FieldRecord(fp.value, sf.value, af.value, cf.value, model);
    }
  }

  /** The five keys of a verdict are five different texts. */
  lemma FieldsDistinct()
    ensures FalsePositive != SanitizationFound && FalsePositive != AttackFeasible && FalsePositive != Confidence
    ensures SanitizationFound != AttackFeasible && SanitizationFound != Confidence && AttackFeasible != Confidence
    ensures ModelUsed !in RequiredFields
  {
    assert FalsePositive[0] != SanitizationFound[0] && FalsePositive[0] != AttackFeasible[0] && FalsePositive[0] != Confidence[0];
    assert SanitizationFound[0] != AttackFeasible[0] && SanitizationFound[0] != Confidence[0] && AttackFeasible[0] != Confidence[0];
    assert ModelUsed[0] !in {FalsePositive[0], SanitizationFound[0], AttackFeasible[0], Confidence[0]};
  }

  /** When no stage finds a verdict, the result is the error record naming
      the call's model. */
  lemma SentinelWhenAllFail(content: string, model: string)
    requires FencedStage(content, model).None?
    requires forall c | c in LooseCandidates(content) :: !Acceptable(c)
    requires FieldStage(content, model).None?
    ensures Recover(content, model) == ErrorRecord(model)
  {
    var cs := LooseCandidates(content);
    assert forall i | 0 <= i < |cs| :: !Acceptable(cs[i]);
  }

  /** An answer written as a flat JSON object of texts comes back as that
      object, with `model_used` set to the call's model. */
  lemma VerdictRoundTrip(ps: seq<(string, string)>, model: string)
    requires AllPrintable(ps)
    ensures Extract(ObjectText(ps), model) == Some(Stamp(ToDict(StringMembers(ps)), model))
  {
    ObjectRoundTrip(ps);
  }
}
