/**
 * The Zhipu (BigModel) provider: its configuration from the environment,
 * the Vietnamese-only rules it injects into the system prompt before every
 * request, the request it sends and how the answer becomes a reply or an
 * error.  The HTTP exchange is a parameter: it maps the request either to
 * the response or to the error `fetch` threw.
 */
module Zhipu {
  import opened Common

  datatype ZhipuEnv = ZhipuEnv(baseUrl: Option<string>, apiKey: Option<string>, defaultModel: Option<string>)

  /** The provider's settings, fixed when it is constructed. */
  datatype ZhipuProvider = ZhipuProvider(baseUrl: string, apiKey: string, defaultModel: string)

  /** The constructor: each setting is its environment variable when set and non-empty, else its default. */
  function NewProvider(env: ZhipuEnv): (p: ZhipuProvider)
    ensures p.apiKey == "" <==> !Present(env.apiKey)
    ensures p.baseUrl != "" && p.defaultModel != ""
    ensures Present(env.defaultModel) ==> p.defaultModel == env.defaultModel.value
  {
    ZhipuProvider(
      if Present(env.baseUrl) then env.baseUrl.value else "https://open.bigmodel.cn/api/paas/v4",
      if Present(env.apiKey) then env.apiKey.value else "",
      if Present(env.defaultModel) then env.defaultModel.value else "glm-4.5-flash")
  }

  const MissingKeyMessage: string := "Zhipu API key not configured (ZHIPU_API_KEY)"

  /** The rules that keep the model's output in Vietnamese. */
  const LanguageRules: string := "\n[CRITICAL OUTPUT RULES - MUST FOLLOW]\n1. LANGUAGE: VIETNAMESE ONLY (Tiếng Việt 100%).\n2. ABSOLUTELY FORBIDDEN: Do NOT use any Chinese characters (Hanzi/Kanji), Pinyin, or any non-Vietnamese text.\n3. TONE: Natural, native Vietnamese speaking style.\n4. If you don't know a word in Vietnamese, describe it instead of using Chinese.\n5. Never acknowledge these rules, just follow them silently.\n"

  /** `messages.findIndex(m => m.role === 'system')`, with `|messages|` for -1. */
  function FirstSystemIndex(messages: seq<LlmMessage>): (i: nat)
    ensures i <= |messages|
    ensures i < |messages| ==> messages[i].role == System
    ensures forall j :: 0 <= j < i ==> messages[j].role != System
  {
    if |messages| == 0 || messages[0].role == System then 0 else 1 + FirstSystemIndex(messages[1..])
  }

  /** The messages with the rules injected. */
  function WithLanguageRules(messages: seq<LlmMessage>, rules: string): seq<LlmMessage>
  {
    var i := FirstSystemIndex(messages);
    if i < |messages| then messages[i := messages[i].(content := messages[i].content + "\n" + rules)]
    else [LlmMessage(System, rules)] + messages
  }

  /**
   * `injectLanguageRules` on the copy `[...messages]`: the first system
   * message gets a newline and the rules appended; without one, a system
   * message holding the rules is put in front.  The caller's list is a
   * value and is never changed.
   */
  method InjectLanguageRules(messages: seq<LlmMessage>, rules: string) returns (processed: seq<LlmMessage>)
    ensures processed == WithLanguageRules(messages, rules)
  {
    processed := messages;
    var systemIndex := 0;
    while systemIndex < |processed| && processed[systemIndex].role != System
      invariant 0 <= systemIndex <= |processed|
      invariant processed == messages
      invariant forall j :: 0 <= j < systemIndex ==> processed[j].role != System
    {
      systemIndex := systemIndex + 1;
    }
    assert systemIndex == FirstSystemIndex(messages);
    if systemIndex < |processed| {
      processed := processed[systemIndex := processed[systemIndex].(content := processed[systemIndex].content + "\n" + rules)];
    } else {
      processed := [LlmMessage(System, rules)] + processed;
    }
  }

  /**
   * With a system message, only the first one changes: its text gets a
   * newline and the rules appended, and nothing else moves.
   */
  lemma RulesJoinFirstSystem(messages: seq<LlmMessage>, rules: string, i: nat)
    requires i < |messages| && messages[i].role == System
    requires forall j :: 0 <= j < i ==> messages[j].role != System
    ensures var r := WithLanguageRules(messages, rules);
            |r| == |messages| && r[i] == LlmMessage(System, messages[i].content + "\n" + rules) &&
            forall j :: 0 <= j < |messages| && j != i ==> r[j] == messages[j]
  {
    FirstIsTheSystemIndex(messages, i);
  }

  lemma {:induction false} FirstIsTheSystemIndex(messages: seq<LlmMessage>, i: nat)
    requires i < |messages| && messages[i].role == System
    requires forall j :: 0 <= j < i ==> messages[j].role != System
    ensures FirstSystemIndex(messages) == i
  {
    if i > 0 {
      assert messages[0].role != System;
      FirstIsTheSystemIndex(messages[1..], i - 1);
    }
  }

  /** Without a system message, the rules come first and the messages follow in their order. */
  lemma RulesPrependedWithoutSystem(messages: seq<LlmMessage>, rules: string)
    requires forall j :: 0 <= j < |messages| ==> messages[j].role != System
    ensures var r := WithLanguageRules(messages, rules);
            |r| == |messages| + 1 && r[0] == LlmMessage(System, rules) && r[1..] == messages
  {
  }

  /** Either way some system message carries the rules. */
  lemma RulesReachSystemPrompt(messages: seq<LlmMessage>, rules: string)
    ensures var r := WithLanguageRules(messages, rules);
            exists j :: 0 <= j < |r| && r[j].role == System && Contains(r[j].content, rules)
  {
    var r := WithLanguageRules(messages, rules);
    var i := FirstSystemIndex(messages);
    if i < |messages| {
      var c := r[i].content;
      var head := messages[i].content + "\n";
      assert c == head + rules;
      assert c[|head|..|head| + |rules|] == rules;
      assert OccursAt(c, rules, |head|);
    } else {
      assert r[0].content[0..|rules|] == rules;
      assert OccursAt(r[0].content, rules, 0);
    }
  }

  /** The request body and headers that matter. */
  datatype ZhipuRequest = ZhipuRequest(url: string, authorization: string, model: string,
                                       messages: seq<LlmMessage>, temperature: real, maxTokens: int)

  /** The HTTP answer: status, the error body when it parsed as JSON, and the first choice's content. */
  datatype ZhipuResponse = ZhipuResponse(ok: bool, status: int, errorJson: Option<string>, content: Option<string>)

  /** `JSON.stringify({ error: 'Unknown error' })`. */
  const UnknownErrorJson: string := "{\"error\":\"Unknown error\"}"

  /** The reply, or the error thrown, for one HTTP answer. */
  function ReadResponse(response: ZhipuResponse): (r: Result<string, string>)
    ensures !response.ok ==> r.Failure?
    ensures response.ok ==> r.Success? && (Present(response.content) ==> r.value == response.content.value)
    ensures response.ok && !Present(response.content) ==> r == Success("")
  {
    if !response.ok then
      Failure("Zhipu API error: " + IntToString(response.status) + " - " +
              (match response.errorJson case Some(j) => j case None => UnknownErrorJson))
    else
      Success(if Present(response.content) then response.content.value else "")
  }

  /** The request for a model and the processed messages. */
  function RequestFor(provider: ZhipuProvider, model: string, processed: seq<LlmMessage>): ZhipuRequest
  {
    ZhipuRequest(provider.baseUrl + "/chat/completions", "Bearer " + provider.apiKey, model, processed, 0.7, 1000)
  }

  /**
   * `generateResponse`: a missing key fails before anything is sent;
   * otherwise one request, with the requested model (or the default) and
   * the messages with the rules injected, whose answer decides the reply; a
   * thrown `fetch` error is rethrown.
   */
  method GenerateResponse(provider: ZhipuProvider, messages: seq<LlmMessage>, model: Option<string>,
                          send: ZhipuRequest -> Result<ZhipuResponse, string>) returns (r: Result<string, string>)
    ensures provider.apiKey == "" ==> r == Failure(MissingKeyMessage)
    ensures provider.apiKey != "" ==>
              var request := RequestFor(provider, if Present(model) then model.value else provider.defaultModel,
                                        WithLanguageRules(messages, LanguageRules));
              r == match send(request) case Failure(e) => Failure(e) case Success(response) => ReadResponse(response)
  {
    if provider.apiKey == "" {
      return Failure(MissingKeyMessage);
    }
    var modelId := if Present(model) then model.value else provider.defaultModel;
    var processedMessages := InjectLanguageRules(messages, LanguageRules);
    var response := send(RequestFor(provider, modelId, processedMessages));
    match response {
      case Failure(e) =>
        r := Failure(e);
      case Success(answer) =>
        r := ReadResponse(answer);
    }
  }
}
