/**
 * The chat endpoint (`POST /api/chat`) without its database and network
 * calls: the request guards, the context window chosen per provider, the
 * text of the user's turn, the reply's metadata (impact and reaction) and
 * its stage check, and the counter that triggers a refresh of the phone
 * content.  Stored rows, the prompt builder and the fallback chain are
 * inputs; the JSON extraction and the metadata stripping, which are
 * regular-expression and `JSON.parse` work, are parameters.
 */
module ChatRoute {
  import opened Common

  // ---------------------------------------------------------------------
  // Request guards
  // ---------------------------------------------------------------------

  /** An early HTTP answer: status and error code or message. */
  datatype ErrorResponse = ErrorResponse(status: int, error: string)

  /**
   * The checks before any work: a guest is refused, a request without a
   * character id or message is malformed, and a character that is not the
   * user's own, or does not exist, is not found.
   */
  function RequestGuard(isAuthed: bool, characterId: Option<string>, message: Option<string>,
                        relationshipFound: bool, characterFound: bool): (r: Option<ErrorResponse>)
    ensures r.None? <==> isAuthed && Present(characterId) && Present(message) && relationshipFound && characterFound
    ensures !isAuthed ==> r == Some(ErrorResponse(403, "Vui lòng đăng nhập để nhắn tin"))
    ensures isAuthed && !(Present(characterId) && Present(message)) ==>
              r == Some(ErrorResponse(400, "characterId and message are required"))
    ensures r.Some? && r.value.status == 404 <==>
              isAuthed && Present(characterId) && Present(message) && !(relationshipFound && characterFound)
  {
    if !isAuthed then Some(ErrorResponse(403, "Vui lòng đăng nhập để nhắn tin"))
    else if !Present(characterId) || !Present(message) then Some(ErrorResponse(400, "characterId and message are required"))
    else if !relationshipFound then Some(ErrorResponse(404, "Character not found"))
    else if !characterFound then Some(ErrorResponse(404, "Character not found"))
    else None
  }

  // ---------------------------------------------------------------------
  // Adaptive context window
  // ---------------------------------------------------------------------

  datatype ContextLimits = ContextLimits(historyLimit: nat, memoryLimit: nat)

  const HighContextProviders: seq<string> := ["gemini", "google"]
  const StandardContextProviders: seq<string> := ["silicon", "siliconflow", "deepseek", "qwen", "moonshot"]

  /**
   * `getContextLimits`: the lower-cased provider (an empty one reads as
   * `default`) picks the high, standard or default tier.
   */
  function GetContextLimits(provider: string): (r: ContextLimits)
    ensures var p := Lower(if provider == "" then "default" else provider);
            (p in HighContextProviders ==> r == ContextLimits(100, 30)) &&
            (p in StandardContextProviders ==> r == ContextLimits(50, 15)) &&
            (p !in HighContextProviders && p !in StandardContextProviders ==> r == ContextLimits(30, 10))
    ensures r.memoryLimit < r.historyLimit
  {
    var p := Lower(if provider == "" then "default" else provider);
    if p == "gemini" || p == "google" then ContextLimits(100, 30)
    else if p in StandardContextProviders then ContextLimits(50, 15)
    else ContextLimits(30, 10)
  }

  /** The provider's name is matched without regard to ASCII case. */
  lemma ContextLimitsIgnoreCase(a: string, b: string)
    requires Lower(a) == Lower(b)
    ensures GetContextLimits(a) == GetContextLimits(b)
  {
    assert |a| == |Lower(a)| && |b| == |Lower(b)|;
  }

  /** A bigger tier never keeps less history or fewer memories. */
  lemma TiersAreOrdered(provider: string)
    ensures var r := GetContextLimits(provider);
            30 <= r.historyLimit <= 100 && 10 <= r.memoryLimit <= 30
    ensures var r := GetContextLimits(provider);
            r.historyLimit == 100 <==> r.memoryLimit == 30
  {
  }

  /**
   * The provider used: the character's own, unless it is missing, empty or
   * `default`, when `LLM_DEFAULT_PROVIDER` (or `silicon`) is used.
   */
  function EffectiveProvider(characterProvider: Option<string>, defaultProviderEnv: Option<string>): (p: string)
    ensures Present(characterProvider) && characterProvider.value != "default" ==> p == characterProvider.value
    ensures !(Present(characterProvider) && characterProvider.value != "default") ==>
              p == (if Present(defaultProviderEnv) then defaultProviderEnv.value else "silicon")
    ensures p != ""
  {
    var rawProvider := if Present(characterProvider) then characterProvider.value else "default";
    var defaultProvider := if Present(defaultProviderEnv) then defaultProviderEnv.value else "silicon";
    if rawProvider == "default" then defaultProvider else rawProvider
  }

  /** The model asked for: the character's unless missing, empty or `default`, else `LLM_DEFAULT_MODEL` if set. */
  function PreferredModel(modelName: Option<string>, defaultModelEnv: Option<string>): (m: Option<string>)
    ensures Present(modelName) && modelName.value != "default" ==> m == modelName
    ensures !(Present(modelName) && modelName.value != "default") ==>
              m == (if Present(defaultModelEnv) then defaultModelEnv else None)
    ensures m.Some? ==> m.value != ""
  {
    if Present(modelName) && modelName.value != "default" then modelName
    else if Present(defaultModelEnv) then defaultModelEnv
    else None
  }

  // ---------------------------------------------------------------------
  // The user's turn
  // ---------------------------------------------------------------------

  /** The message being replied to: whether the user wrote it, and its text. */
  datatype ReplyTarget = ReplyTarget(fromUser: bool, content: string)

  const QuoteLimit: nat := 200

  /** The quoted message, cut to 200 characters with `...` when it was longer. */
  function Quote(content: string): (q: string)
    ensures |content| <= QuoteLimit ==> q == content
    ensures |content| > QuoteLimit ==> q == content[..QuoteLimit] + "..."
    ensures |q| <= QuoteLimit + 3 && StartsWith(q, content[..Min(|content|, QuoteLimit)])
  {
    if |content| > QuoteLimit then
      var q := content[..QuoteLimit] + "...";
      assert q[..QuoteLimit] == content[..QuoteLimit];
      q
    else content
  }

  /** A text that is set and not only whitespace. */
  predicate HasText(v: Option<string>)
  {
    v.Some? && Trim(v.value) != ""
  }

  const GoalHeader: string := "[IMPORTANT SCENE CONTEXT - Follow this throughout the conversation:]\n"
  const DirectionHeader: string := "\n\n[INSTRUCTION FOR YOUR NEXT RESPONSE ONLY - After reading, execute this direction:]\n"

  const ReplyContextPrefix: string := "[Ngữ cảnh: Tin nhắn này đang trả lời tin nhắn trước của "

  /** The turn before the scene director: the scene or the message, or the reply context and the message. */
  function BaseContent(sceneDescription: Option<string>, message: string, replyTo: Option<ReplyTarget>,
                       nicknameForUser: string, characterName: string): string
  {
    match replyTo
    case None => if sceneDescription.Some? then "[Phone check scene] " + sceneDescription.value else message
    case Some(target) => ReplyContext(target, nicknameForUser, characterName) + message
  }

  /** The context line naming who wrote the message being replied to, and quoting it. */
  function ReplyContext(target: ReplyTarget, nicknameForUser: string, characterName: string): (r: string)
    ensures var author := if target.fromUser then nicknameForUser else characterName;
            StartsWith(r, ReplyContextPrefix + author + ": \"" + Quote(target.content)) && EndsWith(r, "\"]\n")
  {
    var head := ReplyContextPrefix + (if target.fromUser then nicknameForUser else characterName) + ": \"" +
                Quote(target.content);
    var r := head + "\"]\n";
    assert r[..|head|] == head && r[|r| - 3..] == "\"]\n";
    r
  }

  /** The goal's block in front of the turn. */
  function GoalBlock(goal: string): string
  {
    GoalHeader + Trim(goal) + "\n\n[User's message:]\n"
  }

  /** A scene goal with text goes in front of the turn. */
  function WithGoal(sceneGoal: Option<string>, content: string): (c: string)
    ensures HasText(sceneGoal) ==> StartsWith(c, GoalBlock(sceneGoal.value)) && c[|GoalBlock(sceneGoal.value)|..] == content
    ensures !HasText(sceneGoal) ==> c == content
  {
    if HasText(sceneGoal) then
      var c := GoalBlock(sceneGoal.value) + content;
      assert c[..|GoalBlock(sceneGoal.value)|] == GoalBlock(sceneGoal.value);
      c
    else content
  }

  /** A next direction with text goes behind the turn. */
  function WithDirection(content: string, nextDirection: Option<string>): (c: string)
    ensures HasText(nextDirection) ==> StartsWith(c, content) && c[|content|..] == DirectionHeader + Trim(nextDirection.value)
    ensures HasText(nextDirection) ==> EndsWith(c, DirectionHeader + Trim(nextDirection.value))
    ensures !HasText(nextDirection) ==> c == content
  {
    if HasText(nextDirection) then
      var tail := DirectionHeader + Trim(nextDirection.value);
      var c := content + tail;
      assert c[|c| - |tail|..] == tail && c[..|content|] == content && c[|content|..] == tail;
      c
    else content
  }

  /**
   * The text of the user's turn: the phone-check scene description or the
   * message; with a reply target found, a context line quoting it followed
   * by the message; then the scene goal in front and the next direction
   * behind, each trimmed and only when it has text.
   */
  function UserContent(sceneDescription: Option<string>, message: string, replyTo: Option<ReplyTarget>,
                       nicknameForUser: string, characterName: string,
                       sceneGoal: Option<string>, nextDirection: Option<string>): (c: string)
    ensures HasText(sceneGoal) ==> StartsWith(c, GoalBlock(sceneGoal.value))
    ensures HasText(nextDirection) ==> EndsWith(c, DirectionHeader + Trim(nextDirection.value))
    ensures c == (if HasText(sceneGoal) then GoalBlock(sceneGoal.value) else "")
                 + BaseContent(sceneDescription, message, replyTo, nicknameForUser, characterName)
                 + (if HasText(nextDirection) then DirectionHeader + Trim(nextDirection.value) else "")
  {
    var base := BaseContent(sceneDescription, message, replyTo, nicknameForUser, characterName);
    var goal := if HasText(sceneGoal) then GoalBlock(sceneGoal.value) else "";
    var direction := if HasText(nextDirection) then DirectionHeader + Trim(nextDirection.value) else "";
    var withGoal := WithGoal(sceneGoal, base);
    var c := WithDirection(withGoal, nextDirection);
    assert withGoal == goal + base by {
      SplitAt(withGoal, |goal|);
    }
    assert c == withGoal + direction by {
      SplitAt(c, |withGoal|);
    }
    assert HasText(sceneGoal) ==> c[..|goal|] == goal;
    c
  }

  lemma SplitAt(s: string, k: nat)
    requires k <= |s|
    ensures s == s[..k] + s[k..]
  {
  }

  /**
   * With a reply target the scene description is dropped: the turn is the
   * quoted context and the user's own message, around which the goal and
   * direction are placed.
   */
  lemma ReplyReplacesScene(sceneDescription: Option<string>, message: string, target: ReplyTarget,
                           nicknameForUser: string, characterName: string)
    ensures UserContent(sceneDescription, message, Some(target), nicknameForUser, characterName, None, None) ==
            ReplyContext(target, nicknameForUser, characterName) + message
  {
  }

  /** With nothing added the turn is the user's message, or the scene when one is set. */
  lemma PlainTurn(sceneDescription: Option<string>, message: string, nicknameForUser: string, characterName: string)
    ensures UserContent(sceneDescription, message, None, nicknameForUser, characterName, None, None) ==
            (if sceneDescription.Some? then "[Phone check scene] " + sceneDescription.value else message)
  {
  }

  const EnglishReminder: string :=
    "⚠️ CRITICAL REMINDER: Reply in ENGLISH ONLY. Do NOT use Vietnamese AT ALL. This is a strict requirement."

  /**
   * The messages sent: the built prompt, the user's turn, and for English
   * a final system reminder.
   */
  function PromptMessages(basePrompt: seq<LlmMessage>, userContent: string, userLanguage: Option<string>): (m: seq<LlmMessage>)
    ensures |m| == |basePrompt| + (if userLanguage == Some("en") then 2 else 1)
    ensures m[..|basePrompt|] == basePrompt
    ensures m[|basePrompt|] == LlmMessage(User, userContent)
    ensures userLanguage == Some("en") ==> m[|m| - 1] == LlmMessage(System, EnglishReminder)
  {
    var promptMessages := basePrompt + [LlmMessage(User, userContent)];
    if userLanguage == Some("en") then promptMessages + [LlmMessage(System, EnglishReminder)] else promptMessages
  }

  // ---------------------------------------------------------------------
  // Reply metadata
  // ---------------------------------------------------------------------

  /**
   * What `JSON.parse` found in the metadata block: a numeric `impact`, a
   * string `reaction` and a `reason`, each when present.
   */
  datatype Metadata = Metadata(impact: Option<real>, reaction: Option<string>, reason: Option<string>)

  const Reactions: seq<string> := ["NONE", "LIKE", "HEARTBEAT"]

  /** The stages that may not receive a heartbeat. */
  const EarlyStages: seq<string> := ["STRANGER", "ACQUAINTANCE", "UNDEFINED"]

  /** The processed reply's impact, reaction and reason. */
  datatype Outcome = Outcome(impact: real, reaction: string, reason: string)

  /** A reaction is accepted when its upper-cased form is one of the three. */
  predicate AcceptedReaction(v: Option<string>)
  {
    Present(v) && Upper(v.value) in Reactions
  }

  /** The metadata as read: impact clamped to [-2, 2] (0 without one), an accepted reaction (else NONE). */
  function ParsedOutcome(metadata: Option<Metadata>): (o: Outcome)
    ensures -2.0 <= o.impact <= 2.0 && o.reaction in Reactions
    ensures metadata.None? ==> o == Outcome(0.0, "NONE", "")
    ensures metadata.Some? ==>
              var md := metadata.value;
              && o.impact == (if md.impact.Some? then ClampReal(md.impact.value, -2.0, 2.0) else 0.0)
              && o.reaction == (if AcceptedReaction(md.reaction) then Upper(md.reaction.value) else "NONE")
              && o.reason == (if Present(md.reason) then md.reason.value else "")
    ensures metadata.Some? && metadata.value.impact.Some? && -2.0 <= metadata.value.impact.value <= 2.0 ==>
              o.impact == metadata.value.impact.value
  {
    match metadata
    case None => Outcome(0.0, "NONE", "")
    case Some(md) =>
      Outcome(if md.impact.Some? then ClampReal(md.impact.value, -2.0, 2.0) else 0.0,
              if AcceptedReaction(md.reaction) then Upper(md.reaction.value) else "NONE",
              if Present(md.reason) then md.reason.value else "")
  }

  /** Outside production an accepted forced reaction wins, with impact 2 for a heartbeat and 1 otherwise. */
  function DevForced(o: Outcome, isDev: bool, devForceReaction: Option<string>): (f: Outcome)
    ensures isDev && AcceptedReaction(devForceReaction) ==>
              f == o.(reaction := Upper(devForceReaction.value),
                       impact := if Upper(devForceReaction.value) == "HEARTBEAT" then 2.0 else 1.0)
    ensures !(isDev && AcceptedReaction(devForceReaction)) ==> f == o
  {
    if isDev && AcceptedReaction(devForceReaction) then
      var forced := Upper(devForceReaction.value);
      o.(reaction := forced, impact := if forced == "HEARTBEAT" then 2.0 else 1.0)
    else o
  }

  /** `relationshipConfig.stage || 'UNDEFINED'`. */
  function StageOf(stage: Option<string>): string
  {
    if Present(stage) then stage.value else "UNDEFINED"
  }

  /** A heartbeat in an early stage is downgraded to a like; nothing else changes. */
  function StageChecked(o: Outcome, stage: Option<string>): (c: Outcome)
    ensures c.impact == o.impact && c.reason == o.reason
    ensures StageOf(stage) in EarlyStages && o.reaction == "HEARTBEAT" ==> c.reaction == "LIKE"
    ensures !(StageOf(stage) in EarlyStages && o.reaction == "HEARTBEAT") ==> c.reaction == o.reaction
  {
    if StageOf(stage) in EarlyStages && o.reaction == "HEARTBEAT" then o.(reaction := "LIKE") else o
  }

  /** The JSON answer of a successful turn. */
  datatype ChatReply = ChatReply(reply: string, reaction: string, reactionReason: string, impactScaled: real,
                                 storedReaction: Option<string>)

  /** The reaction kept on the user's message: none for `NONE`. */
  function StoredReaction(reaction: string): (s: Option<string>)
    ensures s.None? <==> reaction == "NONE"
    ensures s.Some? ==> s.value == reaction
  {
    if reaction != "NONE" then Some(reaction) else None
  }

  const EmptyReplyError: string := "LLM_EMPTY_REPLY"

  /** The whole post-processing of the model's reply, as one definition. */
  function ReplyFor(aiResponse: Option<string>, parseMetadata: string -> Option<Metadata>,
                    stripMetadata: string -> string, isDev: bool, devForceReaction: Option<string>,
                    stage: Option<string>): Result<ChatReply, string>
  {
    var raw := if aiResponse.Some? then aiResponse.value else "";
    Answer(stripMetadata(raw), StageChecked(DevForced(ParsedOutcome(parseMetadata(raw)), isDev, devForceReaction), stage))
  }

  /** The answer for the stripped text and the final outcome: an error when nothing is left of the text. */
  function Answer(text: string, o: Outcome): Result<ChatReply, string>
  {
    if text == "" then Failure(EmptyReplyError)
    else Success(ChatReply(text, o.reaction, o.reason, o.impact * 3.0, StoredReaction(o.reaction)))
  }

  /** The `try` block: defaults first, then what the parsed metadata supplies. */
  method ReadMetadata(metadata: Option<Metadata>) returns (impactScore: real, reactionType: string, reactionReason: string)
    ensures Outcome(impactScore, reactionType, reactionReason) == ParsedOutcome(metadata)
  {
    impactScore := 0.0;
    reactionType := "NONE";
    reactionReason := "";
    if metadata.Some? {
      var md := metadata.value;
      if md.impact.Some? {
        impactScore := ClampReal(md.impact.value, -2.0, 2.0);
      }
      if AcceptedReaction(md.reaction) {
        reactionType := Upper(md.reaction.value);
      }
      if Present(md.reason) {
        reactionReason := md.reason.value;
      }
    }
  }

  /**
   * The reply's post-processing as the route runs it: defaults, the
   * metadata read from the raw text, the stripped text, a forced reaction,
   * the stage check and the empty-reply check, in that order.
   */
  method ProcessReply(aiResponse: Option<string>, parseMetadata: string -> Option<Metadata>,
                      stripMetadata: string -> string, isDev: bool, devForceReaction: Option<string>,
                      stage: Option<string>) returns (r: Result<ChatReply, string>)
    ensures r == ReplyFor(aiResponse, parseMetadata, stripMetadata, isDev, devForceReaction, stage)
  {
    var text := if aiResponse.Some? then aiResponse.value else "";
    ghost var raw := text;
    var impactScore, reactionType, reactionReason := ReadMetadata(parseMetadata(text));
    ghost var parsed := Outcome(impactScore, reactionType, reactionReason);
    text := stripMetadata(text);
    if isDev && AcceptedReaction(devForceReaction) {
      reactionType := Upper(devForceReaction.value);
      impactScore := if reactionType == "HEARTBEAT" then 2.0 else 1.0;
    }
    assert Outcome(impactScore, reactionType, reactionReason) == DevForced(parsed, isDev, devForceReaction);
    ghost var forced := Outcome(impactScore, reactionType, reactionReason);
    var currentStage := StageOf(stage);
    if currentStage in EarlyStages && reactionType == "HEARTBEAT" {
      reactionType := "LIKE";
    }
    assert Outcome(impactScore, reactionType, reactionReason) == StageChecked(forced, stage);
    assert text == stripMetadata(raw);
    if text == "" {
      return Failure(EmptyReplyError);
    }
    r := Success(ChatReply(text, reactionType, reactionReason, impactScore * 3.0, StoredReaction(reactionType)));
    assert r == Answer(text, Outcome(impactScore, reactionType, reactionReason));
  }

  /**
   * Whatever the model answers, the impact is in [-2, 2] and the reported
   * scaled impact three times it, so in [-6, 6]; the reaction is one of the
   * three, and it is stored exactly when it is not NONE.
   */
  lemma ReplyBounds(aiResponse: Option<string>, parseMetadata: string -> Option<Metadata>,
                    stripMetadata: string -> string, isDev: bool, devForceReaction: Option<string>,
                    stage: Option<string>)
    ensures var r := ReplyFor(aiResponse, parseMetadata, stripMetadata, isDev, devForceReaction, stage);
            r.Success? ==>
              -6.0 <= r.value.impactScaled <= 6.0 && r.value.reaction in Reactions &&
              (r.value.storedReaction.None? <==> r.value.reaction == "NONE")
  {
  }

  /** No early stage ever sees a heartbeat, not even a forced one. */
  lemma NoEarlyHeartbeat(aiResponse: Option<string>, parseMetadata: string -> Option<Metadata>,
                         stripMetadata: string -> string, isDev: bool, devForceReaction: Option<string>,
                         stage: Option<string>)
    requires StageOf(stage) in EarlyStages
    ensures var r := ReplyFor(aiResponse, parseMetadata, stripMetadata, isDev, devForceReaction, stage);
            r.Success? ==> r.value.reaction != "HEARTBEAT"
  {
  }

  /** A reply that strips to nothing is an error, and any other is answered with its stripped text. */
  lemma EmptyReplyFails(aiResponse: Option<string>, parseMetadata: string -> Option<Metadata>,
                        stripMetadata: string -> string, isDev: bool, devForceReaction: Option<string>,
                        stage: Option<string>)
    ensures var raw := if aiResponse.Some? then aiResponse.value else "";
            var r := ReplyFor(aiResponse, parseMetadata, stripMetadata, isDev, devForceReaction, stage);
            (r == Failure(EmptyReplyError) <==> stripMetadata(raw) == "") &&
            (r.Success? ==> r.value.reply == stripMetadata(raw))
  {
  }

  /** Without metadata or a forced reaction the turn is neutral: impact 0 and no reaction. */
  lemma NeutralWithoutMetadata(aiResponse: Option<string>, parseMetadata: string -> Option<Metadata>,
                               stripMetadata: string -> string, isDev: bool, stage: Option<string>)
    requires parseMetadata(if aiResponse.Some? then aiResponse.value else "").None?
    ensures var r := ReplyFor(aiResponse, parseMetadata, stripMetadata, isDev, None, stage);
            r.Success? ==> r.value.impactScaled == 0.0 && r.value.reaction == "NONE" && r.value.storedReaction.None?
  {
  }

  // ---------------------------------------------------------------------
  // Phone content counter
  // ---------------------------------------------------------------------

  /** The short replies that never count as a message worth counting. */
  const ShortPhrases: seq<string> :=
    ["ok", "okay", "yes", "no", "yeah", "yep", "nope", "ừ", "à", "ờ", "ô", "ồ", "ừm", "uhm", "hm", "hmm",
     "lol", "haha", "hihi"]

  /** Equal up to case, character by character, as the `i` flag compares. */
  predicate SameUpToCase(a: string, b: string)
  {
    |a| == |b| && forall i :: 0 <= i < |a| ==> LowerChar(a[i]) == LowerChar(b[i])
  }

  /** The whole text is one of the short phrases. */
  predicate IsShortPhrase(t: string)
  {
    exists k :: 0 <= k < |ShortPhrases| && SameUpToCase(t, ShortPhrases[k])
  }

  /** Under five UTF-16 units once trimmed, or a short phrase. */
  predicate IsTrivial(message: string)
  {
    Utf16Length(Trim(message)) < 5 || IsShortPhrase(Trim(message))
  }

  /**
   * Every short phrase is under five characters, so the phrase test never
   * decides anything the length test has not: a message is trivial
   * exactly when its trimmed text is under five UTF-16 units.
   */
  lemma TrivialIsShort(message: string)
    ensures IsTrivial(message) <==> Utf16Length(Trim(message)) < 5
  {
    var t := Trim(message);
    if IsShortPhrase(t) {
      var k :| 0 <= k < |ShortPhrases| && SameUpToCase(t, ShortPhrases[k]);
      ShortPhraseFits(k);
      forall i | 0 <= i < |t|
        ensures t[i] as int <= 0xFFFF
      {
        LowerCharKeepsPlane(t[i]);
        LowerCharKeepsPlane(ShortPhrases[k][i]);
      }
      Utf16LengthInBmp(t);
    }
  }

  /** Every short phrase has at most four characters, all in the Basic Multilingual Plane. */
  lemma ShortPhraseFits(k: nat)
    requires k < |ShortPhrases|
    ensures |ShortPhrases[k]| <= 4
    ensures forall i :: 0 <= i < |ShortPhrases[k]| ==> ShortPhrases[k][i] as int <= 0xFFFF
  {
    var w := ShortPhrases[k];
    assert w in ShortPhrases;
  }

  /** Lower-casing never moves a character into or out of the Basic Multilingual Plane. */
  lemma LowerCharKeepsPlane(c: char)
    ensures c as int <= 0xFFFF <==> LowerChar(c) as int <= 0xFFFF
  {
  }

  /** The phone settings of the character, as stored. */
  datatype PhoneFields = PhoneFields(messageCount: Option<int>, updateFrequency: Option<int>,
                                     autoUpdate: bool, lastUpdatedMs: Option<int>)

  /** What the counter step does: the count written back, if any, and whether a refresh is triggered. */
  datatype PhoneStep = PhoneStep(storedCount: Option<int>, triggerRefresh: bool)

  const DefaultUpdateFrequency: int := 20
  const RefreshCooldownMs: int := 5 * 60 * 1000

  /** `n || d` for a stored number: zero and null both give the default. */
  function OrDefault(n: Option<int>, d: int): int
  {
    if n.Some? && n.value != 0 then n.value else d
  }

  /**
   * The counter step after a turn: with auto-update on and a message that
   * is not trivial, the count goes up by one and, once it reaches the
   * frequency (20 by default), a refresh fires when the last one is at
   * least five minutes old or there was none.
   */
  function PhoneCounterStep(character: Option<PhoneFields>, message: string, nowMs: int): (r: PhoneStep)
    ensures r.triggerRefresh ==> r.storedCount.Some?
    ensures r.storedCount.Some? <==> character.Some? && character.value.autoUpdate && !IsTrivial(message)
    ensures r.storedCount.Some? ==> r.storedCount.value == OrDefault(character.value.messageCount, 0) + 1
    ensures r.triggerRefresh <==>
              r.storedCount.Some? &&
              r.storedCount.value >= OrDefault(character.value.updateFrequency, DefaultUpdateFrequency) &&
              (character.value.lastUpdatedMs.None? || nowMs - character.value.lastUpdatedMs.value >= RefreshCooldownMs)
  {
    match character
    case None => PhoneStep(None, false)
    case Some(c) =>
      if !c.autoUpdate || IsTrivial(message) then PhoneStep(None, false)
      else
        var newCount := OrDefault(c.messageCount, 0) + 1;
        var threshold := OrDefault(c.updateFrequency, DefaultUpdateFrequency);
        var cooledDown := c.lastUpdatedMs.None? || nowMs - c.lastUpdatedMs.value >= RefreshCooldownMs;
        PhoneStep(Some(newCount), newCount >= threshold && cooledDown)
  }

  /** A trivial message never moves the counter, let alone triggers a refresh. */
  lemma TrivialNeverCounts(character: Option<PhoneFields>, message: string, nowMs: int)
    requires Utf16Length(Trim(message)) < 5
    ensures PhoneCounterStep(character, message, nowMs) == PhoneStep(None, false)
  {
  }

  // ---------------------------------------------------------------------
  // Failures
  // ---------------------------------------------------------------------

  /** What went wrong: an authentication error, or an error with an optional code, tried providers and detail. */
  datatype RouteError = AuthError(message: string)
                      | OtherError(code: Option<string>, providersTried: Option<seq<string>>, detail: Option<string>)

  datatype ErrorBody = ErrorBody(status: int, error: string, detail: string)

  /**
   * The catch-all answer: 401 for authentication, 503 naming the providers
   * tried when every provider failed, 500 with the error's text otherwise.
   */
  function ErrorAnswer(e: RouteError): (b: ErrorBody)
    ensures e.AuthError? <==> b.status == 401
    ensures e.OtherError? && e.code == Some("LLM_ALL_PROVIDERS_FAILED") ==>
              b.status == 503 && b.error == "LLM_ERROR" &&
              EndsWith(b.detail, "(Đã thử: " + Join(if e.providersTried.Some? then e.providersTried.value else [], ", ") + ")")
    ensures e.OtherError? && e.code != Some("LLM_ALL_PROVIDERS_FAILED") ==> b.status == 500 && b.error == "LLM_ERROR"
  {
    match e
    case AuthError(m) => ErrorBody(401, m, "")
    case OtherError(code, tried, detail) =>
      if code == Some("LLM_ALL_PROVIDERS_FAILED") then
        var names := Join(if tried.Some? then tried.value else [], ", ");
        var tail := "(Đã thử: " + names + ")";
        var d := "Tất cả mô hình AI đều đang quá tải hoặc hết quota. Bạn thử lại sau một chút nhé. " + tail;
        assert d[|d| - |tail|..] == tail;
        ErrorBody(503, "LLM_ERROR", d)
      else
        ErrorBody(500, "LLM_ERROR", if Present(detail) then detail.value else "Unknown error - AI không trả lời được")
  }
}
