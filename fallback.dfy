/**
 * The fallback chains: per primary provider, an ordered list of
 * (provider, model) pairs restricted to the providers whose API key is
 * configured; `generateWithFallback`, which tries the preferred model and
 * then the chain, at most two attempts in all; and
 * `generateWithSmartFallback`, which picks the model list by the length of
 * the latest user message, injects the matching narrative instruction into
 * the system prompt and tries that list, again at most twice.
 *
 * The environment is a record of optional strings.  Each attempt goes
 * through the router; the model takes that call as a parameter giving, for
 * the messages, the provider, the model and the attempt number, either the
 * router's reply or the message of the error it threw (a timeout is one
 * such error).
 */
module Fallback {
  import opened Common
  import ModelSelector

  datatype FallbackModel = FallbackModel(provider: string, model: string, name: string)

  /** The environment variables the chains read. */
  datatype KeyEnv = KeyEnv(
    googleModel3: Option<string>,
    geminiApiKey: Option<string>,
    googleGenerativeAiApiKey: Option<string>,
    siliconApiKey: Option<string>,
    moonshotApiKey: Option<string>,
    openRouterApiKey: Option<string>,
    zhipuApiKey: Option<string>,
    deepseekApiKey: Option<string>)

  /** `getGeminiFlashModel`: the configured model, or the stable alias when the variable is unset or empty. */
  function GeminiFlashModel(env: KeyEnv): (m: string)
    ensures m != ""
    ensures env.googleModel3.None? || env.googleModel3 == Some("") ==> m == "gemini-2.5-flash"
    ensures env.googleModel3.Some? && env.googleModel3.value != "" ==> m == env.googleModel3.value
  {
    if Present(env.googleModel3) then env.googleModel3.value else "gemini-2.5-flash"
  }

  /** Whether the key of one of the six known providers is set; `None` for any other provider. */
  function KeyFor(env: KeyEnv, provider: string): Option<bool>
  {
    if provider == "gemini" then Some(Present(env.geminiApiKey) || Present(env.googleGenerativeAiApiKey))
    else if provider == "silicon" then Some(Present(env.siliconApiKey))
    else if provider == "moonshot" then Some(Present(env.moonshotApiKey))
    else if provider == "openrouter" then Some(Present(env.openRouterApiKey))
    else if provider == "zhipu" then Some(Present(env.zhipuApiKey))
    else if provider == "deepseek" then Some(Present(env.deepseekApiKey))
    else None
  }

  /** The test of `filterByAvailableKeys`: a known provider needs its key, an unknown one passes. */
  predicate HasKey(env: KeyEnv, provider: string)
  {
    match KeyFor(env, provider)
    case Some(available) => available
    case None => true
  }

  function AvailableModel(env: KeyEnv): FallbackModel -> bool
  {
    (m: FallbackModel) => HasKey(env, m.provider)
  }

  /** `filterByAvailableKeys`. */
  function FilterByAvailableKeys(models: seq<FallbackModel>, env: KeyEnv): seq<FallbackModel>
  {
    Filter(models, AvailableModel(env))
  }

  /**
   * The filter keeps exactly the models whose provider is usable, and only
   * models of the chain.
   */
  lemma FilterByKeysKeepsUsable(models: seq<FallbackModel>, env: KeyEnv)
    ensures forall i :: 0 <= i < |FilterByAvailableKeys(models, env)| ==>
              HasKey(env, FilterByAvailableKeys(models, env)[i].provider) &&
              FilterByAvailableKeys(models, env)[i] in models
    ensures forall m :: m in models && HasKey(env, m.provider) ==> m in FilterByAvailableKeys(models, env)
  {
    FilterSound(models, AvailableModel(env));
    FilterComplete(models, AvailableModel(env));
  }

  /** A provider outside the six known ones is never filtered out. */
  lemma UnknownProviderPasses(env: KeyEnv, provider: string)
    requires provider !in ["gemini", "silicon", "moonshot", "openrouter", "zhipu", "deepseek"]
    ensures HasKey(env, provider)
  {
  }

  /** Every key `small` sets is set in `large` too. */
  predicate KeysWithin(small: KeyEnv, large: KeyEnv)
  {
    && (Present(small.geminiApiKey) ==> Present(large.geminiApiKey))
    && (Present(small.googleGenerativeAiApiKey) ==> Present(large.googleGenerativeAiApiKey))
    && (Present(small.siliconApiKey) ==> Present(large.siliconApiKey))
    && (Present(small.moonshotApiKey) ==> Present(large.moonshotApiKey))
    && (Present(small.openRouterApiKey) ==> Present(large.openRouterApiKey))
    && (Present(small.zhipuApiKey) ==> Present(large.zhipuApiKey))
    && (Present(small.deepseekApiKey) ==> Present(large.deepseekApiKey))
  }

  /** Setting more keys never rules out a provider. */
  lemma MoreKeysKeepProviders(small: KeyEnv, large: KeyEnv, provider: string)
    requires KeysWithin(small, large)
    ensures HasKey(small, provider) ==> HasKey(large, provider)
  {
  }

  /** With no key set (unset or empty), exactly the providers outside the six known ones pass. */
  lemma NoKeysOnlyUnknownProviders(env: KeyEnv, provider: string)
    requires !Present(env.geminiApiKey) && !Present(env.googleGenerativeAiApiKey) && !Present(env.siliconApiKey)
    requires !Present(env.moonshotApiKey) && !Present(env.openRouterApiKey) && !Present(env.zhipuApiKey)
    requires !Present(env.deepseekApiKey)
    ensures HasKey(env, provider) <==> provider !in ["gemini", "silicon", "moonshot", "openrouter", "zhipu", "deepseek"]
  {
  }

  /** Gemini passes with either of its two keys. */
  lemma GeminiEitherKey(env: KeyEnv)
    ensures HasKey(env, "gemini") <==> Present(env.geminiApiKey) || Present(env.googleGenerativeAiApiKey)
  {
  }

  /** With the key of every provider of a chain set, the chain is kept whole and in order. */
  lemma AllKeysKeepChain(models: seq<FallbackModel>, env: KeyEnv)
    requires forall i :: 0 <= i < |models| ==> HasKey(env, models[i].provider)
    ensures FilterByAvailableKeys(models, env) == models
  {
    FilterKeepsAll(models, AvailableModel(env));
  }

  // ---------------------------------------------------------------------
  // The chains
  // ---------------------------------------------------------------------

  function GeminiModel(flash: string): FallbackModel { FallbackModel("gemini", flash, "Gemini 2.5 Flash") }
  const QwenModel := FallbackModel("silicon", "Qwen/Qwen2.5-14B-Instruct", "Qwen 2.5 14B")
  const SiliconDeepseekModel := FallbackModel("silicon", "deepseek-ai/DeepSeek-V3", "DeepSeek V3 (Silicon)")
  const DeepseekModel := FallbackModel("deepseek", "deepseek-chat", "DeepSeek Chat")
  const MoonshotModel := FallbackModel("moonshot", "moonshot-v1-32k", "Moonshot V1 32K")
  const OpenRouterModel := FallbackModel("openrouter", "meta-llama/llama-3.3-70b-instruct", "Llama 3.3 70B (OpenRouter)")
  const ZhipuModel := FallbackModel("zhipu", "glm-4-plus", "GLM-4 Plus")

  /** The keys of the chain table, in the order they are written. */
  const ChainNames: seq<string> :=
    ["gemini", "google", "silicon", "siliconflow", "deepseek", "zhipu", "moonshot", "openrouter", "default"]

  /** The unfiltered chain of a table key; `default` for any other name. */
  function RawChain(name: string, flash: string): seq<FallbackModel>
  {
    var gemini := GeminiModel(flash);
    if name == "gemini" || name == "google" then
      [gemini, QwenModel, SiliconDeepseekModel, DeepseekModel, MoonshotModel, OpenRouterModel]
    else if name == "silicon" || name == "siliconflow" then
      [SiliconDeepseekModel, QwenModel, gemini, DeepseekModel, MoonshotModel, OpenRouterModel]
    else if name == "deepseek" then
      [DeepseekModel, SiliconDeepseekModel, QwenModel, gemini, MoonshotModel, OpenRouterModel]
    else if name == "zhipu" then
      [ZhipuModel, QwenModel, SiliconDeepseekModel, DeepseekModel, gemini]
    else if name == "moonshot" then
      [MoonshotModel, gemini, QwenModel, SiliconDeepseekModel, DeepseekModel, OpenRouterModel]
    else if name == "openrouter" then
      [OpenRouterModel, gemini, QwenModel, SiliconDeepseekModel, DeepseekModel, MoonshotModel]
    else
      [QwenModel, SiliconDeepseekModel, DeepseekModel, gemini, MoonshotModel, OpenRouterModel]
  }

  /** Each named chain leads with its own provider's model; the default chain leads with Qwen on SiliconFlow. */
  lemma ChainsLeadWithTheirProvider(name: string, flash: string)
    requires name in ChainNames
    ensures RawChain(name, flash)[0].provider ==
              (if name == "google" then "gemini"
               else if name == "siliconflow" || name == "default" then "silicon"
               else name)
  {
  }

  /**
   * `getFallbackChains`: every table key, mapped to its chain filtered by
   * key availability.  A chain may come out empty (the source only logs
   * that).
   */
  method GetFallbackChains(env: KeyEnv) returns (chains: map<string, seq<FallbackModel>>)
    ensures chains.Keys == set n | n in ChainNames
    ensures forall n :: n in chains ==> chains[n] == FilterByAvailableKeys(RawChain(n, GeminiFlashModel(env)), env)
  {
    var flash := GeminiFlashModel(env);
    chains := map[];
    var k := 0;
    while k < |ChainNames|
      invariant 0 <= k <= |ChainNames|
      invariant chains.Keys == set n | n in ChainNames[..k]
      invariant forall n :: n in chains ==> chains[n] == FilterByAvailableKeys(RawChain(n, flash), env)
    {
      var key := ChainNames[k];
      chains := chains[key := FilterByAvailableKeys(RawChain(key, flash), env)];
      assert ChainNames[..k + 1] == ChainNames[..k] + [key];
      k := k + 1;
    }
    assert ChainNames[..k] == ChainNames;
  }

  /** `chains[primaryProvider.toLowerCase()] || chains.default`: an empty chain is still an array, so it is used. */
  function ChainFor(chains: map<string, seq<FallbackModel>>, primaryProvider: string): seq<FallbackModel>
    requires "default" in chains
  {
    var key := Lower(primaryProvider);
    if key in chains then chains[key] else chains["default"]
  }

  /**
   * On the table `getFallbackChains` builds, the lookup takes the chain of
   * the lower-cased provider name when the table has one and the default
   * chain otherwise, filtered either way.
   */
  lemma ChainLookup(chains: map<string, seq<FallbackModel>>, env: KeyEnv, primaryProvider: string)
    requires chains.Keys == set n | n in ChainNames
    requires forall n :: n in chains ==> chains[n] == FilterByAvailableKeys(RawChain(n, GeminiFlashModel(env)), env)
    ensures "default" in chains
    ensures ChainFor(chains, primaryProvider) ==
              FilterByAvailableKeys(RawChain(if Lower(primaryProvider) in ChainNames then Lower(primaryProvider) else "default",
                                             GeminiFlashModel(env)), env)
  {
    assert ChainNames[8] == "default";
  }

  // ---------------------------------------------------------------------
  // The attempt chain of generateWithFallback
  // ---------------------------------------------------------------------

  /** A chain entry equal, in provider and model, to the preferred pair. */
  predicate SameAsPrimary(f: FallbackModel, primaryProvider: string, primaryModel: Option<string>)
  {
    primaryModel.Some? && f.provider == primaryProvider && f.model == primaryModel.value
  }

  function NotPrimary(primaryProvider: string, primaryModel: Option<string>): FallbackModel -> bool
  {
    (f: FallbackModel) => !SameAsPrimary(f, primaryProvider, primaryModel)
  }

  /** The preferred model as the first attempt, when one is given (an empty model name counts as none). */
  function PrimaryAttempt(primaryProvider: string, primaryModel: Option<string>): seq<FallbackModel>
  {
    if Present(primaryModel) then [FallbackModel(primaryProvider, primaryModel.value, primaryProvider + "/" + primaryModel.value)]
    else []
  }

  /** The attempt chain: the preferred model, then the fallback chain without the preferred pair. */
  function AttemptChain(primaryProvider: string, primaryModel: Option<string>, fallbackChain: seq<FallbackModel>): seq<FallbackModel>
  {
    PrimaryAttempt(primaryProvider, primaryModel) + Filter(fallbackChain, NotPrimary(primaryProvider, primaryModel))
  }

  /** The loop of `generateWithFallback` that builds the attempt chain. */
  method BuildAttemptChain(primaryProvider: string, primaryModel: Option<string>, fallbackChain: seq<FallbackModel>)
    returns (chain: seq<FallbackModel>)
    ensures chain == AttemptChain(primaryProvider, primaryModel, fallbackChain)
  {
    chain := [];
    if Present(primaryModel) {
      chain := chain + [FallbackModel(primaryProvider, primaryModel.value, primaryProvider + "/" + primaryModel.value)];
    }
    var keep := NotPrimary(primaryProvider, primaryModel);
    var k := 0;
    while k < |fallbackChain|
      invariant 0 <= k <= |fallbackChain|
      invariant chain == PrimaryAttempt(primaryProvider, primaryModel) + Filter(fallbackChain[..k], keep)
    {
      var fallback := fallbackChain[k];
      FilterAppend(fallbackChain[..k], [fallback], keep);
      assert fallbackChain[..k + 1] == fallbackChain[..k] + [fallback];
      if fallback.provider == primaryProvider && primaryModel.Some? && fallback.model == primaryModel.value {
        k := k + 1;
        continue;
      }
      chain := chain + [fallback];
      k := k + 1;
    }
    assert fallbackChain[..k] == fallbackChain;
  }

  /**
   * With a preferred model, the attempt chain starts with the preferred
   * pair and no later entry has that provider and model; every other entry
   * of the fallback chain follows, and nothing else.
   */
  lemma PrimaryComesFirstOnce(primaryProvider: string, primaryModel: Option<string>, fallbackChain: seq<FallbackModel>)
    requires Present(primaryModel)
    ensures var chain := AttemptChain(primaryProvider, primaryModel, fallbackChain);
            |chain| >= 1 && chain[0].provider == primaryProvider && chain[0].model == primaryModel.value &&
            (forall j :: 1 <= j < |chain| ==> !(chain[j].provider == primaryProvider && chain[j].model == primaryModel.value)) &&
            (forall j :: 1 <= j < |chain| ==> chain[j] in fallbackChain) &&
            (forall f :: f in fallbackChain && !SameAsPrimary(f, primaryProvider, primaryModel) ==> f in chain[1..])
  {
    var chain := AttemptChain(primaryProvider, primaryModel, fallbackChain);
    var rest := Filter(fallbackChain, NotPrimary(primaryProvider, primaryModel));
    FilterSound(fallbackChain, NotPrimary(primaryProvider, primaryModel));
    FilterComplete(fallbackChain, NotPrimary(primaryProvider, primaryModel));
    assert chain[1..] == rest;
    forall j | 1 <= j < |chain|
      ensures !(chain[j].provider == primaryProvider && chain[j].model == primaryModel.value) && chain[j] in fallbackChain
    {
      assert chain[j] == rest[j - 1];
    }
  }

  /** Without a preferred model the attempt chain is the fallback chain itself. */
  lemma NoPrimaryKeepsChain(primaryProvider: string, primaryModel: Option<string>, fallbackChain: seq<FallbackModel>)
    requires primaryModel.None?
    ensures AttemptChain(primaryProvider, primaryModel, fallbackChain) == fallbackChain
  {
    FilterKeepsAll(fallbackChain, NotPrimary(primaryProvider, primaryModel));
  }

  // ---------------------------------------------------------------------
  // Attempts
  // ---------------------------------------------------------------------

  /** `MAX_ATTEMPTS`. */
  const MaxAttempts: nat := 2

  const AllFailedCode: string := "LLM_ALL_PROVIDERS_FAILED"

  /** What the router returns on success. */
  datatype ProviderReply = ProviderReply(reply: string, providerUsed: string, modelUsed: string)

  /** One call through the router: messages, provider, model and attempt number to a reply or an error message. */
  type ProviderCall = (seq<LlmMessage>, string, string, nat) -> Result<ProviderReply, string>

  /** `error?.message || 'Unknown error'`. */
  function ErrorMessage(message: string): string
  {
    if message != "" then message else "Unknown error"
  }

  datatype AttemptRecord = AttemptRecord(provider: string, model: string, error: string)

  datatype FallbackResult = FallbackResult(reply: string, providerUsed: string, modelUsed: string,
                                           attemptCount: nat, fallbackUsed: bool)

  datatype FallbackOutcome =
    | Answered(result: FallbackResult)
    | AllFailed(code: string, message: string, attempts: seq<AttemptRecord>, providersTried: seq<string>)
    | Exhausted(message: string)

  /** The outcome of attempt `i` on the chain. */
  function Outcome(messages: seq<LlmMessage>, chain: seq<FallbackModel>, call: ProviderCall, i: nat): Result<ProviderReply, string>
    requires i < |chain|
  {
    call(messages, chain[i].provider, chain[i].model, i)
  }

  /** The first attempt from `k` on, below `n`, that succeeds, or `n`. */
  function FirstSuccess(messages: seq<LlmMessage>, chain: seq<FallbackModel>, call: ProviderCall, k: nat, n: nat): (i: nat)
    requires k <= n <= |chain|
    ensures k <= i <= n
    ensures i < n ==> Outcome(messages, chain, call, i).Success?
    decreases n - k
  {
    if k == n || Outcome(messages, chain, call, k).Success? then k
    else FirstSuccess(messages, chain, call, k + 1, n)
  }

  lemma {:induction false} FailedBeforeFirstSuccess(messages: seq<LlmMessage>, chain: seq<FallbackModel>, call: ProviderCall, k: nat, n: nat)
    requires k <= n <= |chain|
    ensures forall j :: k <= j < FirstSuccess(messages, chain, call, k, n) ==> Outcome(messages, chain, call, j).Failure?
    decreases n - k
  {
    if k < n && Outcome(messages, chain, call, k).Failure? {
      FailedBeforeFirstSuccess(messages, chain, call, k + 1, n);
    }
  }

  /** The error text of attempt `i`, or the empty text when it succeeded. */
  function FailureText(messages: seq<LlmMessage>, chain: seq<FallbackModel>, call: ProviderCall, i: nat): string
    requires i < |chain|
  {
    match Outcome(messages, chain, call, i)
    case Failure(m) => ErrorMessage(m)
    case Success(_) => ""
  }

  /** The records of the first `n` attempts. */
  function Attempts(messages: seq<LlmMessage>, chain: seq<FallbackModel>, call: ProviderCall, n: nat): (r: seq<AttemptRecord>)
    requires n <= |chain|
    ensures |r| == n
  {
    seq(n, j requires 0 <= j < n => AttemptRecord(chain[j].provider, chain[j].model, FailureText(messages, chain, call, j)))
  }

  /** `attempts.map(a => `${a.provider}/${a.model}`)`. */
  function ProvidersTried(attempts: seq<AttemptRecord>): (r: seq<string>)
    ensures |r| == |attempts|
  {
    seq(|attempts|, j requires 0 <= j < |attempts| => attempts[j].provider + "/" + attempts[j].model)
  }

  function AggregatedMessage(count: nat): string
  {
    "Tất cả " + IntToString(count) + " model đều thất bại. Vui lòng thử lại sau."
  }

  const ExhaustedMessage: string := "Fallback chain exhausted without result"

  /** The answer of a successful attempt `i`. */
  function AnswerAt(reply: ProviderReply, i: nat): FallbackResult
  {
    FallbackResult(reply.reply, reply.providerUsed, reply.modelUsed, i + 1, i > 0)
  }

  /**
   * The attempt loop of `generateWithFallback`: the first success among the
   * first `min(|chain|, 2)` entries answers, with its attempt number; when
   * all of them fail the last failure throws the aggregated error listing
   * every attempt in order; an empty chain throws the exhaustion error.
   */
  method TryChain(messages: seq<LlmMessage>, chain: seq<FallbackModel>, call: ProviderCall) returns (r: FallbackOutcome)
    ensures var n := Min(|chain|, MaxAttempts);
            var i := FirstSuccess(messages, chain, call, 0, n);
            if n == 0 then r == Exhausted(ExhaustedMessage)
            else if i < n then r == Answered(AnswerAt(Outcome(messages, chain, call, i).value, i))
            else var attempts := Attempts(messages, chain, call, n);
                 r == AllFailed(AllFailedCode, AggregatedMessage(n), attempts, ProvidersTried(attempts))
    ensures r.Answered? ==> 1 <= r.result.attemptCount <= Min(|chain|, MaxAttempts) &&
                            (r.result.fallbackUsed <==> r.result.attemptCount > 1)
  {
    var n := Min(|chain|, MaxAttempts);
    var attempts: seq<AttemptRecord> := [];
    var k := 0;
    while k < n
      invariant 0 <= k <= n
      invariant FirstSuccess(messages, chain, call, 0, n) == FirstSuccess(messages, chain, call, k, n)
      invariant attempts == Attempts(messages, chain, call, k)
      invariant n > 0 ==> k < n
    {
      var attempt := chain[k];
      var result := call(messages, attempt.provider, attempt.model, k);
      match result {
        case Success(reply) =>
          return Answered(FallbackResult(reply.reply, reply.providerUsed, reply.modelUsed, k + 1, k > 0));
        case Failure(message) =>
          var errorMsg := ErrorMessage(message);
          attempts := attempts + [AttemptRecord(attempt.provider, attempt.model, errorMsg)];
          assert attempts == Attempts(messages, chain, call, k + 1);
          if k == n - 1 {
            return AllFailed(AllFailedCode, AggregatedMessage(|attempts|), attempts, ProvidersTried(attempts));
          }
      }
      k := k + 1;
    }
    return Exhausted(ExhaustedMessage);
  }

  /** When every attempt fails, each record carries that attempt's own entry and error text, in order. */
  lemma AllFailedListsAttempts(messages: seq<LlmMessage>, chain: seq<FallbackModel>, call: ProviderCall)
    requires |chain| >= 1
    requires FirstSuccess(messages, chain, call, 0, Min(|chain|, MaxAttempts)) == Min(|chain|, MaxAttempts)
    ensures var attempts := Attempts(messages, chain, call, Min(|chain|, MaxAttempts));
            forall j :: 0 <= j < |attempts| ==>
              Outcome(messages, chain, call, j).Failure? &&
              attempts[j] == AttemptRecord(chain[j].provider, chain[j].model, ErrorMessage(Outcome(messages, chain, call, j).error)) &&
              ProvidersTried(attempts)[j] == chain[j].provider + "/" + chain[j].model
  {
    FailedBeforeFirstSuccess(messages, chain, call, 0, Min(|chain|, MaxAttempts));
  }

  /**
   * `generateWithFallback`: the attempt chain for the provider and the
   * optional preferred model over the filtered chain table, then the
   * attempt loop.
   */
  method GenerateWithFallback(messages: seq<LlmMessage>, primaryProvider: string, primaryModel: Option<string>,
                              env: KeyEnv, call: ProviderCall) returns (r: FallbackOutcome)
    ensures var chain := AttemptChain(primaryProvider, primaryModel, ChainFor(FilteredChains(env), primaryProvider));
            r.Answered? ==> 1 <= r.result.attemptCount <= Min(|chain|, MaxAttempts)
    ensures Present(primaryModel) ==> !r.Exhausted?
    ensures r.AllFailed? ==> r.code == AllFailedCode && 1 <= |r.attempts| <= MaxAttempts
    ensures var chain := AttemptChain(primaryProvider, primaryModel, ChainFor(FilteredChains(env), primaryProvider));
            var n := Min(|chain|, MaxAttempts);
            var i := FirstSuccess(messages, chain, call, 0, n);
            if n == 0 then r == Exhausted(ExhaustedMessage)
            else if i < n then r == Answered(AnswerAt(Outcome(messages, chain, call, i).value, i))
            else var attempts := Attempts(messages, chain, call, n);
                 r == AllFailed(AllFailedCode, AggregatedMessage(n), attempts, ProvidersTried(attempts))
  {
    var chains := GetFallbackChains(env);
    FilteredChainsAgree(chains, env);
    ChainLookup(chains, env, primaryProvider);
    var fallbackChain := ChainFor(chains, primaryProvider);
    var chain := BuildAttemptChain(primaryProvider, primaryModel, fallbackChain);
    r := TryChain(messages, chain, call);
  }

  /** The table `getFallbackChains` returns, as a value. */
  function FilteredChains(env: KeyEnv): (chains: map<string, seq<FallbackModel>>)
    ensures "default" in chains
  {
    assert ChainNames[8] == "default";
    map n | n in ChainNames :: FilterByAvailableKeys(RawChain(n, GeminiFlashModel(env)), env)
  }

  lemma FilteredChainsAgree(chains: map<string, seq<FallbackModel>>, env: KeyEnv)
    requires chains.Keys == set n | n in ChainNames
    requires forall n :: n in chains ==> chains[n] == FilterByAvailableKeys(RawChain(n, GeminiFlashModel(env)), env)
    ensures chains == FilteredChains(env)
  {
  }

  // ---------------------------------------------------------------------
  // Smart fallback
  // ---------------------------------------------------------------------

  function IsUserMessage(m: LlmMessage): bool { m.role == User }

  /** `userMessages[userMessages.length - 1]?.content || ''`. */
  function LatestUserContent(messages: seq<LlmMessage>): string
  {
    var users := Filter(messages, IsUserMessage);
    if |users| == 0 then "" else users[|users| - 1].content
  }

  /** The latest user text is the content of the last user message, or empty when there is none. */
  lemma LatestUserIsLast(messages: seq<LlmMessage>)
    ensures (forall j :: 0 <= j < |messages| ==> messages[j].role != User) ==> LatestUserContent(messages) == ""
    ensures forall j :: 0 <= j < |messages| && messages[j].role == User &&
                        (forall k :: j < k < |messages| ==> messages[k].role != User) ==>
              LatestUserContent(messages) == messages[j].content
  {
    if forall j :: 0 <= j < |messages| ==> messages[j].role != User {
      FilterDropsAll(messages, IsUserMessage);
    }
    forall j | 0 <= j < |messages| && messages[j].role == User &&
               (forall k :: j < k < |messages| ==> messages[k].role != User)
      ensures LatestUserContent(messages) == messages[j].content
    {
      LastUserMessage(messages, j);
    }
  }

  lemma LastUserMessage(messages: seq<LlmMessage>, j: nat)
    requires j < |messages| && messages[j].role == User
    requires forall k :: j < k < |messages| ==> messages[k].role != User
    ensures LatestUserContent(messages) == messages[j].content
  {
    var before := messages[..j];
    var after := messages[j + 1..];
    assert messages == before + [messages[j]] + after;
    FilterAppend(before + [messages[j]], after, IsUserMessage);
    FilterAppend(before, [messages[j]], IsUserMessage);
    assert forall i :: 0 <= i < |after| ==> after[i] == messages[j + 1 + i];
    FilterDropsAll(after, IsUserMessage);
    assert Filter([messages[j]], IsUserMessage) == [messages[j]];
  }

  /**
   * The narrative instruction joins the system prompt: appended after a
   * blank line to a leading system message, otherwise as a new leading
   * system message.  The other messages are kept in order and the input is
   * a value, so the caller's list is untouched.
   */
  function InjectInstruction(messages: seq<LlmMessage>, instruction: string): (r: seq<LlmMessage>)
    ensures |r| >= 1 && r[0].role == System
    ensures |messages| > 0 && messages[0].role == System ==>
              |r| == |messages| && r[1..] == messages[1..] && r[0].content == messages[0].content + "\n\n" + instruction
    ensures !(|messages| > 0 && messages[0].role == System) ==>
              |r| == |messages| + 1 && r[1..] == messages && r[0].content == instruction
  {
    if |messages| > 0 && messages[0].role == System then
      [messages[0].(content := messages[0].content + "\n\n" + instruction)] + messages[1..]
    else
      [LlmMessage(System, instruction)] + messages
  }

  /** Either way the system prompt ends with the instruction and there is exactly one more or the same number of messages. */
  lemma InstructionEndsSystemPrompt(messages: seq<LlmMessage>, instruction: string)
    ensures var r := InjectInstruction(messages, instruction);
            |r[0].content| >= |instruction| && r[0].content[|r[0].content| - |instruction|..] == instruction
  {
    var r := InjectInstruction(messages, instruction);
    if |messages| > 0 && messages[0].role == System {
      var head := messages[0].content + "\n\n";
      assert r[0].content == head + instruction;
      assert r[0].content[|head|..] == instruction;
    }
  }

  /** The key filter of smart fallback: like the chain filter, except that it does not know `deepseek`. */
  predicate SmartHasKey(env: KeyEnv, provider: string)
  {
    provider == "deepseek" || HasKey(env, provider)
  }

  function SmartAvailable(env: KeyEnv): ModelSelector.ModelConfig -> bool
  {
    (m: ModelSelector.ModelConfig) => SmartHasKey(env, m.provider)
  }

  /** The smart filter keeps exactly the usable models of the category list, in order. */
  lemma SmartFilterKeepsUsable(models: seq<ModelSelector.ModelConfig>, env: KeyEnv)
    ensures forall i :: 0 <= i < |Filter(models, SmartAvailable(env))| ==>
              SmartHasKey(env, Filter(models, SmartAvailable(env))[i].provider) &&
              Filter(models, SmartAvailable(env))[i] in models
    ensures forall m :: m in models && SmartHasKey(env, m.provider) ==> m in Filter(models, SmartAvailable(env))
  {
    FilterSound(models, SmartAvailable(env));
    FilterComplete(models, SmartAvailable(env));
  }

  /** With no SiliconFlow and no Gemini key, no long-form model remains except the Moonshot one, and only with its key. */
  lemma LongFormNeedsKeys(env: KeyEnv)
    requires !Present(env.siliconApiKey) && !Present(env.geminiApiKey) && !Present(env.googleGenerativeAiApiKey)
    ensures Filter(ModelSelector.LongFormModels, SmartAvailable(env)) ==
              if Present(env.moonshotApiKey) then [ModelSelector.LongFormModels[3]] else []
  {
    var ms := ModelSelector.LongFormModels;
    var keep := SmartAvailable(env);
    assert ms == [ms[0], ms[1], ms[2]] + [ms[3]];
    FilterAppend([ms[0], ms[1], ms[2]], [ms[3]], keep);
    FilterDropsAll([ms[0], ms[1], ms[2]], keep);
  }

  datatype SmartAttempt = SmartAttempt(provider: string, model: string, displayName: string, error: string)

  datatype SmartResult = SmartResult(reply: string, providerUsed: string, modelUsed: string, attemptCount: nat,
                                     fallbackUsed: bool, category: ModelSelector.MessageCategory, wordCount: nat,
                                     maxTokensUsed: int)

  datatype SmartOutcome =
    | SmartAnswered(result: SmartResult)
    | SmartAllFailed(code: string, message: string, category: ModelSelector.MessageCategory,
                     attempts: seq<SmartAttempt>, providersTried: seq<string>)
    | NoModels(message: string)

  const NoModelsMessage: string := "[Smart Fallback] No models available with valid API keys!"

  function CategoryName(category: ModelSelector.MessageCategory): string
  {
    if category == ModelSelector.Long then "long" else "short"
  }

  function SmartAggregatedMessage(count: nat, category: ModelSelector.MessageCategory): string
  {
    "Tất cả " + IntToString(count) + " model " + CategoryName(category) + " đều thất bại. Vui lòng thử lại sau."
  }

  /** The outcome of attempt `i` on a model list. */
  function SmartOutcomeAt(messages: seq<LlmMessage>, models: seq<ModelSelector.ModelConfig>, call: ProviderCall, i: nat)
    : Result<ProviderReply, string>
    requires i < |models|
  {
    call(messages, models[i].provider, models[i].modelName, i)
  }

  /** The first attempt from `k` on, below `n`, that succeeds, or `n`. */
  function SmartFirstSuccess(messages: seq<LlmMessage>, models: seq<ModelSelector.ModelConfig>, call: ProviderCall,
                             k: nat, n: nat): (i: nat)
    requires k <= n <= |models|
    ensures k <= i <= n
    ensures i < n ==> SmartOutcomeAt(messages, models, call, i).Success?
    decreases n - k
  {
    if k == n || SmartOutcomeAt(messages, models, call, k).Success? then k
    else SmartFirstSuccess(messages, models, call, k + 1, n)
  }

  lemma {:induction false} SmartFailedBeforeFirstSuccess(messages: seq<LlmMessage>, models: seq<ModelSelector.ModelConfig>,
                                                         call: ProviderCall, k: nat, n: nat)
    requires k <= n <= |models|
    ensures forall j :: k <= j < SmartFirstSuccess(messages, models, call, k, n) ==>
              SmartOutcomeAt(messages, models, call, j).Failure?
    decreases n - k
  {
    if k < n && SmartOutcomeAt(messages, models, call, k).Failure? {
      SmartFailedBeforeFirstSuccess(messages, models, call, k + 1, n);
    }
  }

  function SmartAttempts(messages: seq<LlmMessage>, models: seq<ModelSelector.ModelConfig>, call: ProviderCall, n: nat)
    : (r: seq<SmartAttempt>)
    requires n <= |models|
    ensures |r| == n
  {
    seq(n, j requires 0 <= j < n =>
      SmartAttempt(models[j].provider, models[j].modelName, models[j].displayName,
                   match SmartOutcomeAt(messages, models, call, j) case Failure(m) => ErrorMessage(m) case Success(_) => ""))
  }

  function SmartProvidersTried(attempts: seq<SmartAttempt>): (r: seq<string>)
    ensures |r| == |attempts|
  {
    seq(|attempts|, j requires 0 <= j < |attempts| => attempts[j].provider + "/" + attempts[j].model)
  }

  /** What one smart request fixes before its attempts: category, word count and token budget. */
  datatype SmartPlan = SmartPlan(category: ModelSelector.MessageCategory, wordCount: nat, maxTokens: int)

  /**
   * The attempt loop of `generateWithSmartFallback` over the usable models:
   * the first success among the first two answers; otherwise the error
   * names the category and lists every attempt in order.
   */
  method TrySmartModels(messages: seq<LlmMessage>, models: seq<ModelSelector.ModelConfig>, plan: SmartPlan,
                        call: ProviderCall) returns (r: SmartOutcome)
    requires |models| >= 1
    ensures var n := Min(|models|, MaxAttempts);
            var i := SmartFirstSuccess(messages, models, call, 0, n);
            if i < n then
              var reply := SmartOutcomeAt(messages, models, call, i).value;
              r == SmartAnswered(SmartResult(reply.reply, reply.providerUsed, reply.modelUsed, i + 1, i > 0,
                                             plan.category, plan.wordCount, plan.maxTokens))
            else
              var attempts := SmartAttempts(messages, models, call, n);
              r == SmartAllFailed(AllFailedCode, SmartAggregatedMessage(n, plan.category), plan.category,
                                  attempts, SmartProvidersTried(attempts))
  {
    var n := Min(|models|, MaxAttempts);
    var attempts: seq<SmartAttempt> := [];
    var k := 0;
    while k < n
      invariant 0 <= k <= n
      invariant SmartFirstSuccess(messages, models, call, 0, n) == SmartFirstSuccess(messages, models, call, k, n)
      invariant attempts == SmartAttempts(messages, models, call, k)
    {
      var modelConfig := models[k];
      var result := call(messages, modelConfig.provider, modelConfig.modelName, k);
      match result {
        case Success(reply) =>
          return SmartAnswered(SmartResult(reply.reply, reply.providerUsed, reply.modelUsed, k + 1, k > 0,
                                           plan.category, plan.wordCount, plan.maxTokens));
        case Failure(message) =>
          attempts := attempts + [SmartAttempt(modelConfig.provider, modelConfig.modelName, modelConfig.displayName,
                                               ErrorMessage(message))];
          assert attempts == SmartAttempts(messages, models, call, k + 1);
      }
      k := k + 1;
    }
    r := SmartAllFailed(AllFailedCode, SmartAggregatedMessage(|attempts|, plan.category), plan.category,
                        attempts, SmartProvidersTried(attempts));
  }

  /**
   * `generateWithSmartFallback`: the category and the sorted model list of
   * the latest user message, the instruction of that category and
   * language injected into the messages, the models without a usable key
   * dropped (none left is an error before any attempt), then the attempts,
   * each sent the injected messages.
   */
  method GenerateWithSmartFallback(messages: seq<LlmMessage>, userLanguage: string, env: KeyEnv,
                                   lists: ModelSelector.ModelLists, call: ProviderCall) returns (r: SmartOutcome)
    requires lists.Valid()
    modifies lists.longFormModels, lists.shortFormModels
    ensures var latest := LatestUserContent(messages);
            var category := ModelSelector.DetectMessageCategory(latest);
            var models := if category == ModelSelector.Long then lists.longFormModels[..] else lists.shortFormModels[..];
            var available := Filter(models, SmartAvailable(env));
            var enhanced := InjectInstruction(messages, ModelSelector.GetNarrativeInstruction(category, userLanguage));
            if |available| == 0 then r == NoModels(NoModelsMessage)
            else
              var n := Min(|available|, MaxAttempts);
              var i := SmartFirstSuccess(enhanced, available, call, 0, n);
              (r.SmartAnswered? <==> i < n) &&
              (!r.SmartAnswered? ==> r.SmartAllFailed?) &&
              (r.SmartAnswered? ==>
                 var reply := SmartOutcomeAt(enhanced, available, call, i).value;
                 r.result == SmartResult(reply.reply, reply.providerUsed, reply.modelUsed, i + 1, i > 0, category,
                                         ModelSelector.GetWordCount(latest),
                                         ModelSelector.GetRecommendedMaxTokens(category))) &&
              (r.SmartAllFailed? ==>
                 var attempts := SmartAttempts(enhanced, available, call, n);
                 r == SmartAllFailed(AllFailedCode, SmartAggregatedMessage(n, category), category,
                                     attempts, SmartProvidersTried(attempts)))
    ensures lists.Valid()
    ensures var selected := if ModelSelector.DetectMessageCategory(LatestUserContent(messages)) == ModelSelector.Long
                            then lists.longFormModels else lists.shortFormModels;
            ModelSelector.SortedByPriority(selected[..]) && multiset(selected[..]) == multiset(old(selected[..]))
    ensures unchanged(if ModelSelector.DetectMessageCategory(LatestUserContent(messages)) == ModelSelector.Long
                      then lists.shortFormModels else lists.longFormModels)
  {
    var latestUserMessage := LatestUserContent(messages);
    var category, models, wordCount := lists.SelectModelForMessage(latestUserMessage, None);
    var maxTokens := ModelSelector.GetRecommendedMaxTokens(category);
    var instruction := ModelSelector.GetNarrativeInstruction(category, userLanguage);
    var enhancedMessages := InjectInstruction(messages, instruction);
    var availableModels := Filter(models[..], SmartAvailable(env));
    if |availableModels| == 0 {
      return NoModels(NoModelsMessage);
    }
    r := TrySmartModels(enhancedMessages, availableModels, SmartPlan(category, wordCount, maxTokens), call);
  }
}
