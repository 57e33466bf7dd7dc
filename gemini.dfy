/**
 * The Gemini provider call: the checks before any request, the split of
 * the messages into the system instruction and the conversation, the
 * mapping of roles to Gemini's `user`/`model`, the request body, and the
 * reply read from the answer.  The HTTP exchange is a parameter: it maps
 * the request either to the response or to the error `fetch` threw.
 */
module Gemini {
  import opened Common

  datatype GeminiEnv = GeminiEnv(apiKey: Option<string>, defaultModel: Option<string>)

  const GeminiBaseUrl: string := "https://generativelanguage.googleapis.com/v1beta"
  const MissingKeyMessage: string := "Missing GEMINI_API_KEY"
  const NoMessagesMessage: string := "No messages provided to Gemini"
  const FallbackUserText: string := "Hãy bắt đầu một cuộc trò chuyện ngọt ngào bằng tiếng Việt với người yêu của bạn."

  // ---------------------------------------------------------------------
  // The system instruction
  // ---------------------------------------------------------------------

  /** `systemInstruction`: `None` for `null`, otherwise the text taken (possibly empty). */
  datatype Separated = Separated(systemInstruction: Option<string>, conversation: seq<LlmMessage>)

  /**
   * The state after the loop has seen `messages`: a system message is taken
   * as the instruction while the instruction is still `null` or empty,
   * every other message goes to the conversation.
   */
  function SeparateUpTo(messages: seq<LlmMessage>): Separated
    decreases |messages|
  {
    if |messages| == 0 then Separated(None, [])
    else
      var s := SeparateUpTo(messages[..|messages| - 1]);
      var msg := messages[|messages| - 1];
      if msg.role == System && !Present(s.systemInstruction) then Separated(Some(msg.content), s.conversation)
      else Separated(s.systemInstruction, s.conversation + [msg])
  }

  /** The loop of `callGemini` that separates the system instruction from the conversation. */
  method Separate(messages: seq<LlmMessage>) returns (systemInstruction: Option<string>, conversation: seq<LlmMessage>)
    ensures Separated(systemInstruction, conversation) == SeparateUpTo(messages)
  {
    systemInstruction := None;
    conversation := [];
    var k := 0;
    while k < |messages|
      invariant 0 <= k <= |messages|
      invariant Separated(systemInstruction, conversation) == SeparateUpTo(messages[..k])
    {
      var msg := messages[k];
      assert messages[..k + 1][..k] == messages[..k];
      if msg.role == System && !Present(systemInstruction) {
        systemInstruction := Some(msg.content);
      } else {
        conversation := conversation + [msg];
      }
      k := k + 1;
    }
    assert messages[..k] == messages;
  }

  function NotSystem(m: LlmMessage): bool { m.role != System }

  /** A system message whose text is not empty, the one that ends the search. */
  predicate SystemWithText(m: LlmMessage) { m.role == System && m.content != "" }

  /** The index of the first system message with text, or `|messages|`. */
  function FirstSystemWithText(messages: seq<LlmMessage>): (i: nat)
    ensures i <= |messages|
    ensures i < |messages| ==> SystemWithText(messages[i])
    ensures forall j :: 0 <= j < i ==> !SystemWithText(messages[j])
  {
    if |messages| == 0 || SystemWithText(messages[0]) then 0 else 1 + FirstSystemWithText(messages[1..])
  }

  lemma {:induction false} FirstSystemWithTextSnoc(messages: seq<LlmMessage>, msg: LlmMessage)
    ensures FirstSystemWithText(messages + [msg]) ==
              if FirstSystemWithText(messages) < |messages| then FirstSystemWithText(messages)
              else if SystemWithText(msg) then |messages| else |messages| + 1
    decreases |messages|
  {
    if |messages| > 0 && !SystemWithText(messages[0]) {
      assert (messages + [msg])[1..] == messages[1..] + [msg];
      FirstSystemWithTextSnoc(messages[1..], msg);
    }
  }

  /** Whether the list holds a system message. */
  predicate AnySystem(messages: seq<LlmMessage>)
    decreases |messages|
  {
    |messages| > 0 && (AnySystem(messages[..|messages| - 1]) || messages[|messages| - 1].role == System)
  }

  lemma {:induction false} AnySystemIff(messages: seq<LlmMessage>)
    ensures AnySystem(messages) <==> exists j :: 0 <= j < |messages| && messages[j].role == System
    decreases |messages|
  {
    if |messages| > 0 {
      var init := messages[..|messages| - 1];
      AnySystemIff(init);
      if exists j :: 0 <= j < |init| && init[j].role == System {
        var j :| 0 <= j < |init| && init[j].role == System;
        assert messages[j].role == System;
      }
      if exists j :: 0 <= j < |messages| && messages[j].role == System {
        var j :| 0 <= j < |messages| && messages[j].role == System;
        if j < |init| {
          assert init[j].role == System;
        }
      }
    }
  }

  /**
   * The instruction the loop takes, with `f` the first system message that
   * has text: its text when there is one; otherwise the (empty) text of a
   * system message when there is one, and `null` when there is none.
   */
  predicate InstructionShape(messages: seq<LlmMessage>)
  {
    var s := SeparateUpTo(messages);
    var f := FirstSystemWithText(messages);
    (f < |messages| ==> s.systemInstruction == Some(messages[f].content)) &&
    (f == |messages| ==> !Present(s.systemInstruction) && (s.systemInstruction.Some? <==> AnySystem(messages)))
  }

  lemma {:induction false} InstructionShapeHolds(messages: seq<LlmMessage>)
    ensures InstructionShape(messages)
    decreases |messages|
  {
    if |messages| > 0 {
      var init := messages[..|messages| - 1];
      var msg := messages[|messages| - 1];
      assert messages == init + [msg];
      InstructionShapeHolds(init);
      FirstSystemWithTextSnoc(init, msg);
      if FirstSystemWithText(init) < |init| {
        assert messages[FirstSystemWithText(init)] == init[FirstSystemWithText(init)];
      }
    }
  }

  /**
   * The conversation the loop builds: every non-system message before the
   * first system message with text, then everything after it (later system
   * messages included); with no such message, the non-system messages.
   */
  predicate ConversationShape(messages: seq<LlmMessage>)
  {
    var f := FirstSystemWithText(messages);
    SeparateUpTo(messages).conversation ==
      if f < |messages| then Filter(messages[..f], NotSystem) + messages[f + 1..] else Filter(messages, NotSystem)
  }

  lemma {:induction false} ConversationShapeHolds(messages: seq<LlmMessage>)
    ensures ConversationShape(messages)
    decreases |messages|
  {
    if |messages| > 0 {
      var init := messages[..|messages| - 1];
      var msg := messages[|messages| - 1];
      assert messages == init + [msg];
      ConversationShapeHolds(init);
      InstructionShapeHolds(init);
      FirstSystemWithTextSnoc(init, msg);
      var f := FirstSystemWithText(init);
      if f < |init| {
        StepAfterFound(init, msg, f);
      } else if msg.role == System {
        StepAtSystem(init, msg);
      } else {
        StepAtOther(init, msg);
      }
    } else {
      assert Filter(messages, NotSystem) == [];
    }
  }

  /** Once an instruction with text is taken, every later message joins the conversation. */
  lemma StepAfterFound(init: seq<LlmMessage>, msg: LlmMessage, f: nat)
    requires f == FirstSystemWithText(init) && f < |init|
    requires Present(SeparateUpTo(init).systemInstruction)
    requires SeparateUpTo(init).conversation == Filter(init[..f], NotSystem) + init[f + 1..]
    requires FirstSystemWithText(init + [msg]) == f
    ensures ConversationShape(init + [msg])
  {
    SeparateAfterInstruction(init, msg);
    SnocSlices(init, msg, f);
    var kept, after := Filter(init[..f], NotSystem), init[f + 1..];
    assert kept + after + [msg] == kept + (after + [msg]);
  }

  /** Once the instruction is set, a further message is appended to the conversation. */
  lemma SeparateAfterInstruction(init: seq<LlmMessage>, msg: LlmMessage)
    requires Present(SeparateUpTo(init).systemInstruction)
    ensures SeparateUpTo(init + [msg]).conversation == SeparateUpTo(init).conversation + [msg]
  {
    assert (init + [msg])[..|init|] == init;
  }

  /** A system message seen while the instruction is `null` or empty is taken, not kept. */
  lemma StepAtSystem(init: seq<LlmMessage>, msg: LlmMessage)
    requires FirstSystemWithText(init) == |init| && msg.role == System
    requires !Present(SeparateUpTo(init).systemInstruction)
    requires SeparateUpTo(init).conversation == Filter(init, NotSystem)
    requires FirstSystemWithText(init + [msg]) == if SystemWithText(msg) then |init| else |init| + 1
    ensures ConversationShape(init + [msg])
  {
    var messages := init + [msg];
    assert messages[..|messages| - 1] == init;
    FilterSkipsLast(init, msg, NotSystem);
    assert SeparateUpTo(messages).conversation == SeparateUpTo(init).conversation;
    if msg.content != "" {
      assert messages[..|init|] == init;
      assert messages[|init| + 1..] == [];
    }
  }

  /** A non-system message seen before any instruction with text joins the conversation. */
  lemma StepAtOther(init: seq<LlmMessage>, msg: LlmMessage)
    requires FirstSystemWithText(init) == |init| && msg.role != System
    requires SeparateUpTo(init).conversation == Filter(init, NotSystem)
    requires FirstSystemWithText(init + [msg]) == |init| + 1
    ensures ConversationShape(init + [msg])
  {
    var messages := init + [msg];
    assert messages[..|messages| - 1] == init;
    FilterAppend(init, [msg], NotSystem);
    assert Filter([msg], NotSystem) == [msg];
    assert SeparateUpTo(messages).conversation == SeparateUpTo(init).conversation + [msg];
  }

  lemma SnocSlices<T>(init: seq<T>, x: T, f: nat)
    requires f < |init|
    ensures (init + [x])[..f] == init[..f]
    ensures (init + [x])[f + 1..] == init[f + 1..] + [x]
  {
  }

  /**
   * In the usual case, where the first system message has text, it alone
   * becomes the instruction, and the conversation is every other message
   * in order.
   */
  lemma FirstSystemBecomesInstruction(messages: seq<LlmMessage>, i: nat)
    requires i < |messages| && messages[i].role == System && messages[i].content != ""
    requires forall j :: 0 <= j < i ==> messages[j].role != System
    ensures SeparateUpTo(messages) == Separated(Some(messages[i].content), messages[..i] + messages[i + 1..])
  {
    InstructionShapeHolds(messages);
    ConversationShapeHolds(messages);
    var f := FirstSystemWithText(messages);
    assert SystemWithText(messages[i]);
    assert f <= i;
    FilterKeepsAll(messages[..i], NotSystem);
  }

  // ---------------------------------------------------------------------
  // The request
  // ---------------------------------------------------------------------

  datatype Content = Content(role: string, text: string)

  /** `role: msg.role === 'assistant' ? 'model' : 'user'`. */
  function GeminiRole(role: Role): string
  {
    if role == Assistant then "model" else "user"
  }

  /** The conversation as Gemini contents, or the fallback user message when it is empty. */
  function ContentsOf(conversation: seq<LlmMessage>): (contents: seq<Content>)
    ensures |contents| >= 1
    ensures |conversation| > 0 ==> |contents| == |conversation|
    ensures |conversation| > 0 ==> forall i :: 0 <= i < |conversation| ==> contents[i] == Content(GeminiRole(conversation[i].role), conversation[i].content)
    ensures |conversation| == 0 ==> contents == [Content("user", FallbackUserText)]
  {
    var mapped := seq(|conversation|, i requires 0 <= i < |conversation| =>
                      Content(GeminiRole(conversation[i].role), conversation[i].content));
    if |mapped| == 0 then mapped + [Content("user", FallbackUserText)] else mapped
  }

  /** Assistant turns are the model's, every other turn (system ones too) is the user's. */
  lemma RolesMapToGemini(conversation: seq<LlmMessage>, i: nat)
    requires i < |conversation|
    ensures ContentsOf(conversation)[i].role == "model" <==> conversation[i].role == Assistant
    ensures ContentsOf(conversation)[i].role == "user" <==> conversation[i].role != Assistant
  {
  }

  datatype GeminiBody = GeminiBody(contents: seq<Content>, systemInstruction: Option<string>)

  datatype GeminiRequest = GeminiRequest(url: string, body: GeminiBody)

  /** The HTTP answer: status, the error text, and the text of each part of the first candidate. */
  datatype GeminiResponse = GeminiResponse(ok: bool, status: int, errorText: string, parts: Option<seq<Option<string>>>)

  /** `p.text || ''` for each part. */
  function PartTexts(parts: seq<Option<string>>): (texts: seq<string>)
    ensures |texts| == |parts|
  {
    seq(|parts|, i requires 0 <= i < |parts| => if Present(parts[i]) then parts[i].value else "")
  }

  /** The reply: the parts' texts joined by spaces, or empty without parts, trimmed. */
  function ReplyText(parts: Option<seq<Option<string>>>): (r: string)
    ensures r == [] || (!IsSpace(r[0]) && !IsSpace(r[|r| - 1]))
    ensures parts.None? ==> r == ""
  {
    var text := if parts.Some? then Join(PartTexts(parts.value), " ") else "";
    Trim(text)
  }

  /** A single part is returned trimmed. */
  lemma SinglePartReply(t: string)
    ensures ReplyText(Some([Some(t)])) == Trim(t)
  {
    assert PartTexts([Some(t)]) == [if t != "" then t else ""];
  }

  function ReadResponse(response: GeminiResponse): (r: Result<string, string>)
    ensures r.Success? <==> response.ok
  {
    if !response.ok then Failure("Gemini API error: " + IntToString(response.status) + " " + response.errorText)
    else Success(ReplyText(response.parts))
  }

  /**
   * `callGemini`: a missing key and then an empty message list fail before
   * any request; otherwise one request to the model's endpoint, carrying
   * the contents and, exactly when the instruction taken has text, the
   * system instruction; a thrown `fetch` error is rethrown.
   */
  method CallGemini(messages: seq<LlmMessage>, model: Option<string>, env: GeminiEnv,
                    send: GeminiRequest -> Result<GeminiResponse, string>) returns (r: Result<string, string>)
    ensures !Present(env.apiKey) ==> r == Failure(MissingKeyMessage)
    ensures Present(env.apiKey) && |messages| == 0 ==> r == Failure(NoMessagesMessage)
    ensures Present(env.apiKey) && |messages| > 0 ==>
              var s := SeparateUpTo(messages);
              var modelId := if Present(model) then model.value
                             else if Present(env.defaultModel) then env.defaultModel.value else "gemini-1.5-flash";
              var body := GeminiBody(ContentsOf(s.conversation), if Present(s.systemInstruction) then s.systemInstruction else None);
              var request := GeminiRequest(GeminiBaseUrl + "/models/" + modelId + ":generateContent?key=" + env.apiKey.value, body);
              r == match send(request) case Failure(e) => Failure(e) case Success(response) => ReadResponse(response)
  {
    var modelId := if Present(model) then model.value
                   else if Present(env.defaultModel) then env.defaultModel.value else "gemini-1.5-flash";
    if !Present(env.apiKey) {
      return Failure(MissingKeyMessage);
    }
    if |messages| == 0 {
      return Failure(NoMessagesMessage);
    }
    var systemInstruction, conversation := Separate(messages);
    var contents := ContentsOf(conversation);
    var body := GeminiBody(contents, None);
    if Present(systemInstruction) {
      body := body.(systemInstruction := systemInstruction);
    }
    var url := GeminiBaseUrl + "/models/" + modelId + ":generateContent?key=" + env.apiKey.value;
    var response := send(GeminiRequest(url, body));
    match response {
      case Failure(e) =>
        r := Failure(e);
      case Success(answer) =>
        r := ReadResponse(answer);
    }
  }

  /** The request carries a system instruction exactly when some system message has text. */
  lemma InstructionSentIffSystemText(messages: seq<LlmMessage>)
    ensures var s := SeparateUpTo(messages);
            Present(s.systemInstruction) <==> exists j :: 0 <= j < |messages| && SystemWithText(messages[j])
  {
    InstructionShapeHolds(messages);
    var f := FirstSystemWithText(messages);
    if f == |messages| {
      assert forall j :: 0 <= j < |messages| ==> !SystemWithText(messages[j]);
    }
  }

  /**
   * When no system message has text, every system message is dropped from
   * the conversation, and the instruction is `null` exactly when there was
   * no system message at all (otherwise it is empty and is not sent).
   */
  lemma EmptySystemMessagesDropped(messages: seq<LlmMessage>)
    requires forall j :: 0 <= j < |messages| ==> !SystemWithText(messages[j])
    ensures var s := SeparateUpTo(messages);
            s.conversation == Filter(messages, NotSystem) &&
            (s.systemInstruction.None? <==> forall j :: 0 <= j < |messages| ==> messages[j].role != System) &&
            (s.systemInstruction.Some? ==> s.systemInstruction.value == "")
  {
    InstructionShapeHolds(messages);
    ConversationShapeHolds(messages);
    AnySystemIff(messages);
    var f := FirstSystemWithText(messages);
    assert f == |messages|;
  }
}
