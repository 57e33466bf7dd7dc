/**
 * The provider router: the ordered, duplicate-free list of candidate
 * providers (the preferred one, else the configured default, then the
 * configured fallbacks), and the loop that tries them in turn, moving on
 * only after a retriable error while fallback is enabled.
 *
 * The environment variables are a record of optional strings, and the
 * provider call is a parameter that gives, for the attempt number and the
 * provider, either the reply or the error thrown.
 */
module Router {
  import opened Common

  const ValidProviders: seq<string> := ["silicon", "gemini"]

  /** A property of a thrown value: absent, a number or a string. */
  datatype Field = Absent | Num(n: int) | Text(s: string)

  predicate Truthy(f: Field)
  {
    (f.Num? && f.n != 0) || (f.Text? && f.s != "")
  }

  /** `a || b`. */
  function Or(a: Field, b: Field): Field
  {
    if Truthy(a) then a else b
  }

  /** The parts of a thrown error the router reads. */
  datatype LlmError = LlmError(responseStatus: Field, status: Field, code: Field, message: Field, responseData: Field)

  datatype Env = Env(defaultProvider: Option<string>, enableFallback: Option<string>, fallbackProviders: Option<string>)

  // ---------------------------------------------------------------------
  // Retriable errors
  // ---------------------------------------------------------------------

  const RetriableKeywords: seq<string> :=
    ["quota", "rate limit", "overload", "unavailable", "network", "fetch failed", "503", "429"]

  /** `error?.response?.status || error?.status || error?.code`. */
  function StatusOf(e: LlmError): Field
  {
    Or(Or(e.responseStatus, e.status), e.code)
  }

  /** `String(error?.message || '')`. */
  function MessageOf(e: LlmError): string
  {
    match Or(e.message, Text(""))
    case Text(s) => s
    case Num(n) => IntToString(n)
    case Absent => ""
  }

  /** `isRetriableLLMError`. */
  predicate IsRetriable(e: LlmError)
  {
    var status := StatusOf(e);
    status == Num(429) || status == Num(503) || ContainsAny(Lower(MessageOf(e)), RetriableKeywords)
  }

  /** A rate-limited or overloaded status is retriable, whatever the message says. */
  lemma RetriableStatus(e: LlmError)
    requires StatusOf(e) == Num(429) || StatusOf(e) == Num(503)
    ensures IsRetriable(e)
  {
  }

  /**
   * The response status hides the others: a 500 response with a 429 status
   * field and no message is not retriable.
   */
  lemma ResponseStatusWins(status: Field)
    ensures !IsRetriable(LlmError(Num(500), Num(429), status, Absent, Absent))
  {
    var e := LlmError(Num(500), Num(429), status, Absent, Absent);
    assert StatusOf(e) == Num(500);
    assert MessageOf(e) == "";
  }

  /** A status of 0 counts as missing, so the next field decides. */
  lemma ZeroStatusFallsThrough(e: LlmError)
    requires e.responseStatus == Num(0) && e.status == Num(0)
    ensures StatusOf(e) == e.code
  {
  }

  /** A keyword anywhere in the message, in any letter case, makes the error retriable. */
  lemma RetriableKeyword(e: LlmError, k: nat)
    requires k < |RetriableKeywords| && Contains(Lower(MessageOf(e)), RetriableKeywords[k])
    ensures IsRetriable(e)
  {
  }

  // ---------------------------------------------------------------------
  // Candidates
  // ---------------------------------------------------------------------

  predicate IsValidProvider(p: string)
  {
    p in ValidProviders
  }

  /** `filterValidProviders`. */
  function FilterValidProviders(providers: seq<string>): (r: seq<string>)
    ensures forall i :: 0 <= i < |r| ==> IsValidProvider(r[i])
    ensures forall p :: p in providers && IsValidProvider(p) ==> p in r
  {
    FilterSound(providers, IsValidProvider);
    FilterComplete(providers, IsValidProvider);
    Filter(providers, IsValidProvider)
  }

  /** The list in first-occurrence order without repeats: `Array.from(new Set(list))`. */
  function Dedup(s: seq<string>): (r: seq<string>)
    ensures forall x :: x in r <==> x in s
    ensures NoDuplicates(r)
    ensures |s| > 0 ==> |r| > 0 && r[0] == s[0]
    decreases |s|
  {
    if |s| == 0 then []
    else
      var r := Dedup(s[..|s| - 1]);
      assert s == s[..|s| - 1] + [s[|s| - 1]];
      if s[|s| - 1] in r then r else r + [s[|s| - 1]]
  }

  /** A list without repeats is left as it is. */
  lemma {:induction false} DedupKeepsDistinct(s: seq<string>)
    requires NoDuplicates(s)
    ensures Dedup(s) == s
    decreases |s|
  {
    if |s| > 0 {
      var init := s[..|s| - 1];
      assert NoDuplicates(init);
      DedupKeepsDistinct(init);
      assert s[|s| - 1] !in init;
      assert s == init + [s[|s| - 1]];
    }
  }

  /** The first candidate: a valid preferred provider, else a valid configured default, else gemini. */
  function FirstCandidate(preferred: string, env: Env): (p: string)
    ensures IsValidProvider(p)
    ensures preferred != "default" && IsValidProvider(preferred) ==> p == preferred
  {
    if preferred != "default" && IsValidProvider(preferred) then preferred
    else if env.defaultProvider.Some? && IsValidProvider(env.defaultProvider.value) then env.defaultProvider.value
    else "gemini"
  }

  predicate FallbackEnabled(env: Env)
  {
    env.enableFallback == Some("true")
  }

  /** `(LLM_FALLBACK_PROVIDERS || '').split(',').map(trim)`. */
  function FallbackEntries(env: Env): seq<string>
  {
    var raw := match env.fallbackProviders case Some(v) => v case None => "";
    var parts := Split(raw, ',');
    seq(|parts|, i requires 0 <= i < |parts| => Trim(parts[i]))
  }

  /** `.filter(p => p && p !== candidates[0])`. */
  function OtherEntries(entries: seq<string>, first: string): seq<string>
  {
    Filter(entries, p => p != "" && p != first)
  }

  /** The valid configured fallbacks other than the first candidate, when fallback is enabled. */
  function Fallbacks(first: string, env: Env): seq<string>
  {
    if FallbackEnabled(env) then FilterValidProviders(OtherEntries(FallbackEntries(env), first)) else []
  }

  /** The candidate list `getCandidateProviders` returns. */
  function CandidateProviders(preferred: string, env: Env): seq<string>
  {
    var first := FirstCandidate(preferred, env);
    Dedup([first] + Fallbacks(first, env))
  }

  /**
   * `getCandidateProviders`: the first candidate, then (when fallback is
   * enabled) the valid configured fallbacks other than it; repeats dropped.
   */
  method GetCandidateProviders(preferred: string, env: Env) returns (candidates: seq<string>)
    ensures candidates == CandidateProviders(preferred, env)
  {
    var list: seq<string> := [];
    if preferred != "default" {
      if IsValidProvider(preferred) {
        list := list + [preferred];
      }
    }
    if |list| == 0 {
      var defaultProvider :=
        if env.defaultProvider.Some? && IsValidProvider(env.defaultProvider.value) then env.defaultProvider.value
        else "gemini";
      list := list + [defaultProvider];
    }
    assert list == [FirstCandidate(preferred, env)];
    if FallbackEnabled(env) {
      var fallbackRaw := OtherEntries(FallbackEntries(env), list[0]);
      var fallbackList := FilterValidProviders(fallbackRaw);
      list := list + fallbackList;
    }
    assert list == [FirstCandidate(preferred, env)] + Fallbacks(FirstCandidate(preferred, env), env);
    candidates := Dedup(list);
  }

  /** There are only two valid providers, so a repeat-free list of them has at most two entries. */
  lemma AtMostTwoValid(s: seq<string>)
    requires NoDuplicates(s)
    requires forall i :: 0 <= i < |s| ==> IsValidProvider(s[i])
    ensures |s| <= 2
  {
    if |s| > 2 {
      ThreeValidRepeat(s);
    }
  }

  /** Among any three valid providers two are the same. */
  lemma ThreeValidRepeat(s: seq<string>)
    requires |s| >= 3
    requires forall i :: 0 <= i < |s| ==> IsValidProvider(s[i])
    ensures !NoDuplicates(s)
  {
    assert IsValidProvider(s[0]) && IsValidProvider(s[1]) && IsValidProvider(s[2]);
  }

  /**
   * The candidates are never empty and start with the first candidate; they
   * hold only valid providers, each once, so at most two; without fallback
   * the first candidate is the only one.
   */
  lemma CandidatesShape(preferred: string, env: Env)
    ensures var c := CandidateProviders(preferred, env);
            |c| >= 1 && c[0] == FirstCandidate(preferred, env) && NoDuplicates(c) && |c| <= 2 &&
            (forall i :: 0 <= i < |c| ==> IsValidProvider(c[i])) &&
            (!FallbackEnabled(env) ==> c == [FirstCandidate(preferred, env)])
  {
    var first := FirstCandidate(preferred, env);
    var list := [first] + Fallbacks(first, env);
    var c := Dedup(list);
    forall i | 0 <= i < |c| ensures IsValidProvider(c[i]) {
      assert c[i] in list;
    }
    AtMostTwoValid(c);
    if !FallbackEnabled(env) {
      assert list == [first];
      DedupKeepsDistinct(list);
    }
  }

  // ---------------------------------------------------------------------
  // Trying the candidates
  // ---------------------------------------------------------------------

  datatype RouteOutcome =
    | Replied(reply: string, providerUsed: string, modelUsed: string)
    | Rethrown(error: LlmError)
    | AllFailed(code: string, message: string, providersTried: seq<string>, lastError: LlmError)

  const AllFailedCode: string := "LLM_ALL_PROVIDERS_FAILED"

  /** `model || 'default-for-provider'`. */
  function ModelUsed(model: Option<string>): string
  {
    if model.Some? && model.value != "" then model.value else "default-for-provider"
  }

  const AllFailedDetail: string := "Tất cả nhà cung cấp LLM đều gặp lỗi (quota hoặc server)."
  const NonTextDetail: string := "LLM providers unavailable or quota exceeded."

  /**
   * The message of the aggregated error: the first truthy one of the last
   * error's response data and message, else a fixed text; a detail that is
   * not a string gives a second fixed text.
   */
  function AggregatedMessage(lastError: LlmError): (m: string)
    ensures var data := lastError.responseData;
            Truthy(data) ==> m == if data.Text? then data.s else NonTextDetail
    ensures var message := lastError.message;
            !Truthy(lastError.responseData) && Truthy(message) ==> m == if message.Text? then message.s else NonTextDetail
    ensures !Truthy(lastError.responseData) && !Truthy(lastError.message) ==> m == AllFailedDetail
  {
    match Or(Or(lastError.responseData, lastError.message), Text(AllFailedDetail))
    case Text(s) => s
    case _ => NonTextDetail
  }

  /** A failed attempt after which the loop goes on to the next candidate. */
  predicate MovesOn(outcome: Result<string, LlmError>, fallback: bool)
  {
    outcome.Failure? && fallback && IsRetriable(outcome.error)
  }

  /** The first attempt from `k` on that stops the loop, or the number of candidates. */
  function StopIndex(candidates: seq<string>, call: (nat, string) -> Result<string, LlmError>, fallback: bool, k: nat): (i: nat)
    requires k <= |candidates|
    ensures k <= i <= |candidates|
    ensures i < |candidates| ==> !MovesOn(call(i, candidates[i]), fallback)
    decreases |candidates| - k
  {
    if k == |candidates| || !MovesOn(call(k, candidates[k]), fallback) then k
    else StopIndex(candidates, call, fallback, k + 1)
  }

  lemma {:induction false} MovedOnBeforeStop(candidates: seq<string>, call: (nat, string) -> Result<string, LlmError>, fallback: bool, k: nat)
    requires k <= |candidates|
    ensures forall j :: k <= j < StopIndex(candidates, call, fallback, k) ==> MovesOn(call(j, candidates[j]), fallback)
    decreases |candidates| - k
  {
    if k < |candidates| && MovesOn(call(k, candidates[k]), fallback) {
      MovedOnBeforeStop(candidates, call, fallback, k + 1);
    }
  }

  /**
   * The loop of `generateWithProviders`: the first successful candidate
   * answers; a failure is rethrown at once unless fallback is enabled and
   * the error is retriable; when every candidate fails the aggregated error
   * lists them all in order.
   */
  method TryCandidates(candidates: seq<string>, call: (nat, string) -> Result<string, LlmError>,
                       env: Env, model: Option<string>) returns (r: RouteOutcome)
    requires |candidates| >= 1
    ensures var i := StopIndex(candidates, call, FallbackEnabled(env), 0);
            if i < |candidates| then
              match call(i, candidates[i])
              case Success(reply) => r == Replied(reply, candidates[i], ModelUsed(model))
              case Failure(e) => r == Rethrown(e)
            else
              r.AllFailed? && call(|candidates| - 1, candidates[|candidates| - 1]) == Failure(r.lastError) &&
              r == AllFailed(AllFailedCode, AggregatedMessage(r.lastError), candidates, r.lastError)
  {
    var fallback := FallbackEnabled(env);
    var tried: seq<string> := [];
    var lastError := LlmError(Absent, Absent, Absent, Absent, Absent);
    var k := 0;
    while k < |candidates|
      invariant 0 <= k <= |candidates|
      invariant StopIndex(candidates, call, fallback, 0) == StopIndex(candidates, call, fallback, k)
      invariant tried == candidates[..k]
      invariant k > 0 ==> call(k - 1, candidates[k - 1]) == Failure(lastError)
    {
      var outcome := call(k, candidates[k]);
      match outcome {
        case Success(reply) =>
          return Replied(reply, candidates[k], ModelUsed(model));
        case Failure(e) =>
          tried := tried + [candidates[k]];
          lastError := e;
          if !fallback || !IsRetriable(e) {
            return Rethrown(e);
          }
      }
      k := k + 1;
    }
    assert tried == candidates;
    r := AllFailed(AllFailedCode, AggregatedMessage(lastError), tried, lastError);
  }

  /** With fallback disabled only the first candidate is ever called. */
  lemma NoFallbackStopsFirst(candidates: seq<string>, call: (nat, string) -> Result<string, LlmError>, env: Env)
    requires |candidates| >= 1 && !FallbackEnabled(env)
    ensures StopIndex(candidates, call, FallbackEnabled(env), 0) == 0
  {
  }

  /** A reply comes from a candidate reached only through retriable failures of all the earlier ones. */
  lemma RepliedAfterRetriableFailures(candidates: seq<string>, call: (nat, string) -> Result<string, LlmError>, env: Env)
    requires |candidates| >= 1
    ensures var i := StopIndex(candidates, call, FallbackEnabled(env), 0);
            forall j :: 0 <= j < i ==>
              call(j, candidates[j]).Failure? && FallbackEnabled(env) && IsRetriable(call(j, candidates[j]).error)
  {
    MovedOnBeforeStop(candidates, call, FallbackEnabled(env), 0);
  }

  /** `generateWithProviders`; the provider option defaults to `default`. */
  method GenerateWithProviders(provider: Option<string>, model: Option<string>, env: Env,
                               call: (nat, string) -> Result<string, LlmError>) returns (r: RouteOutcome)
    ensures r.Replied? ==> IsValidProvider(r.providerUsed)
    ensures r.AllFailed? ==> r.code == AllFailedCode && |r.providersTried| >= 1 && NoDuplicates(r.providersTried)
    ensures var c := CandidateProviders(match provider case Some(p) => p case None => "default", env);
            (r.Replied? ==> r.providerUsed in c) && (r.AllFailed? ==> r.providersTried == c)
    ensures var c := CandidateProviders(match provider case Some(p) => p case None => "default", env);
            var i := StopIndex(c, call, FallbackEnabled(env), 0);
            if i < |c| then
              match call(i, c[i])
              case Success(reply) => r == Replied(reply, c[i], ModelUsed(model))
              case Failure(e) => r == Rethrown(e)
            else
              |c| >= 1 && r.AllFailed? && call(|c| - 1, c[|c| - 1]) == Failure(r.lastError) &&
              r == AllFailed(AllFailedCode, AggregatedMessage(r.lastError), c, r.lastError)
  {
    var preferred := match provider case Some(p) => p case None => "default";
    var candidates := GetCandidateProviders(preferred, env);
    CandidatesShape(preferred, env);
    r := TryCandidates(candidates, call, env, model);
    var i := StopIndex(candidates, call, FallbackEnabled(env), 0);
    if i < |candidates| {
      assert r.Replied? ==> r.providerUsed == candidates[i];
    }
  }
}
