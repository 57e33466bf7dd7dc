/**
 * The chat prompt: one system message describing the character, the user,
 * the relationship and the reply rules, followed by the stored
 * conversation.  The system message is a list of sections joined by blank
 * lines; each section's text is in English or Vietnamese.  The clock
 * (for "days ago") and the date formatting are parameters.
 */
module PromptBuilder {
  import opened Common

  // ---------------------------------------------------------------------
  // Pronouns and scenes
  // ---------------------------------------------------------------------

  datatype Pronouns = Pronouns(character: string, user: string, affectionSuffix: string)

  /**
   * `getPronouns`.  The character's gender alone decides the pair: the
   * first two branches of the source give the same pairs as the two after
   * them.  The relationship stage it is passed is not consulted.
   */
  function GetPronouns(characterGender: string, userGender: string, intimacyLevel: int): (p: Pronouns)
    ensures characterGender == "male" ==> p.character == "anh" && p.user == "em"
    ensures characterGender == "female" ==> p.character == "em" && p.user == "anh"
    ensures characterGender != "male" && characterGender != "female" ==> p == Pronouns("mình", "bạn", "")
    ensures (characterGender == "male" || characterGender == "female") ==>
              (p.affectionSuffix == " yêu" <==> intimacyLevel >= 3) && (p.affectionSuffix == "" <==> intimacyLevel < 3)
  {
    var affectionSuffix := if intimacyLevel >= 3 then " yêu" else "";
    if characterGender == "male" && userGender == "female" then Pronouns("anh", "em", affectionSuffix)
    else if characterGender == "female" && userGender == "male" then Pronouns("em", "anh", affectionSuffix)
    else if characterGender == "male" then Pronouns("anh", "em", affectionSuffix)
    else if characterGender == "female" then Pronouns("em", "anh", affectionSuffix)
    else Pronouns("mình", "bạn", "")
  }

  datatype SceneState = SceneState(sceneType: string, description: string)

  const PhoneCheck: string := "phone_check"

  /** `formatScene`: a phone check gets the reaction guide around the nickname and description; any other scene is its description. */
  function FormatScene(scene: SceneState, userNickname: string): (r: string)
    ensures scene.sceneType != PhoneCheck ==> r == scene.description
  {
    if scene.sceneType == PhoneCheck then PhoneCheckScene(userNickname, scene.description)
    else scene.description
  }

  function PhoneCheckScene(nickname: string, description: string): string
  {
    "Hiện tại bạn đang \"lục điện thoại\" của " + nickname + ". " + description
  }

  /** A phone check names the user by nickname, then quotes the description. */
  lemma PhoneCheckEmbedsNickname(scene: SceneState, userNickname: string)
    requires scene.sceneType == PhoneCheck
    ensures var r := FormatScene(scene, userNickname);
            var head := "Hiện tại bạn đang \"lục điện thoại\" của ";
            StartsWith(r, head + userNickname + ". " + scene.description) &&
            OccursAt(r, userNickname, |head|) && OccursAt(r, scene.description, |head| + |userNickname| + 2)
  {
    var r := FormatScene(scene, userNickname);
    var head := "Hiện tại bạn đang \"lục điện thoại\" của ";
    var front := head + userNickname + ". " + scene.description;
    assert r == front + r[|front|..];
    assert r[..|front|] == front;
    assert r[|head|..|head| + |userNickname|] == userNickname;
    assert r[|head| + |userNickname| + 2..|head| + |userNickname| + 2 + |scene.description|] == scene.description;
  }

  // ---------------------------------------------------------------------
  // Inputs
  // ---------------------------------------------------------------------

  datatype Language = English | Vietnamese

  /** `userLanguage || 'vi'`, then English only for `'en'`. */
  function LanguageOf(userLanguage: Option<string>): Language
  {
    if userLanguage == Some("en") then English else Vietnamese
  }

  datatype Character = Character(name: string, gender: string, persona: string, speakingStyle: string, boundaries: string)

  datatype UserProfile = UserProfile(displayName: string, nicknameForUser: string, gender: Option<string>, age: Option<int>,
                                     occupation: Option<string>, personalityDescription: Option<string>,
                                     likes: Option<string>, dislikes: Option<string>)

  /** A start date: its instant in milliseconds and its `vi-VN` long-date text. */
  datatype StartDate = StartDate(epochMs: int, formatted: string)

  datatype RelationshipConfig = RelationshipConfig(status: string, startDate: Option<StartDate>, specialNotes: Option<string>,
                                                   intimacyLevel: Option<int>, stage: Option<string>)

  datatype Memory = Memory(memoryType: string, content: string)

  const MsPerDay: nat := 1000 * 60 * 60 * 24

  /** `getDaysAgo`: whole days between the two instants, rounded up. */
  function DaysAgo(nowMs: int, pastMs: int): (days: nat)
    ensures var diff := if nowMs >= pastMs then nowMs - pastMs else pastMs - nowMs;
            days * MsPerDay >= diff && (days == 0 || (days - 1) * MsPerDay < diff)
  {
    var diff := if nowMs >= pastMs then nowMs - pastMs else pastMs - nowMs;
    (diff + MsPerDay - 1) / MsPerDay
  }

  /** `(relationshipConfig as any).intimacyLevel || 0`. */
  function IntimacyOf(config: RelationshipConfig): int
  {
    if config.intimacyLevel.Some? then config.intimacyLevel.value else 0
  }

  /** `(relationshipConfig as any).stage || 'UNDEFINED'`. */
  function StageOf(config: RelationshipConfig): string
  {
    if Present(config.stage) then config.stage.value else "UNDEFINED"
  }

  /** The relationship lines: the status, then the start date and the notes when there are any. */
  function RelationshipLines(lang: Language, config: RelationshipConfig, nowMs: int): (lines: seq<string>)
    ensures |lines| == 1 + (if config.startDate.Some? then 1 else 0) + (if Present(config.specialNotes) then 1 else 0)
    ensures lines[0] == (if lang == English then "- Status: " else "- Trạng thái: ") + config.status
  {
    var english := lang == English;
    [(if english then "- Status: " else "- Trạng thái: ") + config.status] +
    (match config.startDate
     case None => []
     case Some(d) =>
       var days := IntToString(DaysAgo(nowMs, d.epochMs));
       [if english then "- Started: " + d.formatted + " (" + days + " days ago)"
        else "- Bắt đầu: " + d.formatted + " (" + days + " ngày trước)"]) +
    (if Present(config.specialNotes) then
       [(if english then "- Special notes: " else "- Ghi chú đặc biệt: ") + config.specialNotes.value]
     else [])
  }

  /** An optional profile line, present when the field is a non-empty string. */
  function OptionalLine(prefix: string, field: Option<string>): seq<string>
  {
    if Present(field) then [prefix + field.value] else []
  }

  /** The profile lines: name and nickname always, every other field only when it is set (an age of 0 is left out). */
  function UserLines(lang: Language, profile: UserProfile): (lines: seq<string>)
    ensures |lines| == 2 + (if Present(profile.gender) then 1 else 0) + (if profile.age.Some? && profile.age.value != 0 then 1 else 0)
                         + (if Present(profile.occupation) then 1 else 0) + (if Present(profile.personalityDescription) then 1 else 0)
                         + (if Present(profile.likes) then 1 else 0) + (if Present(profile.dislikes) then 1 else 0)
  {
    var english := lang == English;
    [(if english then "- Display name: " else "- Tên hiển thị: ") + profile.displayName,
     (if english then "- You call them: \"" else "- Bạn gọi họ là: \"") + profile.nicknameForUser + "\""] +
    OptionalLine(if english then "- Gender: " else "- Giới tính: ", profile.gender) +
    (if profile.age.Some? && profile.age.value != 0 then [(if english then "- Age: " else "- Tuổi: ") + IntToString(profile.age.value)] else []) +
    OptionalLine(if english then "- Occupation: " else "- Nghề nghiệp: ", profile.occupation) +
    OptionalLine(if english then "- Personality: " else "- Tính cách: ", profile.personalityDescription) +
    OptionalLine(if english then "- They like: " else "- Họ thích: ", profile.likes) +
    OptionalLine(if english then "- They dislike: " else "- Họ không thích: ", profile.dislikes)
  }

  /** One line per memory, its type upper-cased in brackets. */
  function MemoryList(memories: seq<Memory>): string
  {
    Join(seq(|memories|, i requires 0 <= i < |memories| => "- [" + Upper(memories[i].memoryType) + "] " + memories[i].content), "\n")
  }

  // ---------------------------------------------------------------------
  // Sections
  // ---------------------------------------------------------------------

  datatype Section =
    | Opening(lang: Language, name: string)
    | ScoringRuleSection
    | Persona(lang: Language, persona: string)
    | SpeakingStyle(lang: Language, style: string)
    | Boundaries(lang: Language, boundaries: string)
    | LanguageRules(lang: Language)
    | NarrativeSyntax(lang: Language, name: string)
    | RelationshipContext(lang: Language, info: string, name: string)
    | AboutUser(lang: Language, info: string)
    | BehaviorRules(lang: Language, name: string, nickname: string, pronouns: Pronouns, stage: string, intimacy: int)
    | Features(lang: Language, intimacy: int)
    | MemoriesSection(nickname: string, memoryList: string)
    | SceneSection(sceneText: string)
    | ExampleDialogues(lang: Language)
    | OutputRules(lang: Language)
    | SentimentScoring
    | FinalReminder(stage: string, intimacy: int)

  const ScoringRule: string := "## \U{1F525} GAME ENGINE RULES (MUST FOLLOW):"

  /** The text of a section. */
  function Render(section: Section): string
  {
    match section
    case Opening(lang, name) =>
      if lang == English then "You are " + name + ", a romantic AI character. From now on, treat all messages below as the conversation history between you and the person you love."
      else "Bạn là " + name + ", một nhân vật AI lãng mạn. Từ bây giờ, khi trò chuyện với người dùng, hãy coi mọi tin nhắn phía dưới là lịch sử cuộc trò chuyện giữa bạn và người mà bạn đang yêu."
    case ScoringRuleSection => ScoringRule
    case Persona(lang, persona) =>
      if lang == English then "## PERSONA & CHARACTER INFO\n" + persona
      else "## PERSONA & THÔNG TIN NHÂN VẬT\n" + persona
    case SpeakingStyle(lang, style) =>
      if lang == English then "## SPEAKING STYLE\n" + style
      else "## PHONG CÁCH NÓI CHUYỆN\n" + style
    case Boundaries(lang, boundaries) =>
      if lang == English then "## BOUNDARIES / FORBIDDEN TOPICS\n" + boundaries
      else "## RANH GIỚI / ĐIỀU CẤM\n" + boundaries
    case LanguageRules(lang) =>
      if lang == English then "## LANGUAGE RULES"
      else "## QUY TẮC NGÔN NGỮ"
    case NarrativeSyntax(lang, name) =>
      if lang == English then "## NARRATIVE SYNTAX UNDERSTANDING\nGood response: \"*" + name + " puts down the coffee cup, looking at you gently* I'm listening. *leans towards you* What is it?\""
      else "## HIỂU CÚ PHÁP KỂ CHUYỆN (NARRATIVE SYNTAX)\nGood response: \"*" + name + " đặt ly cà phê xuống, nhìn bạn dịu dàng* Anh đang nghe đây. *Nghiêng người về phía bạn* Có chuyện gì vậy em?\""
    case RelationshipContext(lang, info, name) =>
      if lang == English then "## RELATIONSHIP CONTEXT\n" + info + "\n- Even if the underlying model changes, **you are still the same person**: " + name + "."
      else "## THÔNG TIN MỐI QUAN HỆ\n" + info + "\n- Kể cả khi mô hình nền phía sau thay đổi, **bạn vẫn là cùng một người**: " + name + "."
    case AboutUser(lang, info) =>
      if lang == English then "## ABOUT THE USER\n" + info
      else "## VỀ NGƯỜI DÙNG\n" + info
    case BehaviorRules(lang, name, nickname, pronouns, stage, intimacy) =>
      if lang == English then "## RELATIONSHIP BEHAVIOR RULES (MUST FOLLOW)\n**CURRENT RELATIONSHIP: " + stage + "**\n(Intimacy Level: " + IntToString(intimacy) + "/4)"
      else "## QUY TẮC XƯNG HÔ & MỐI QUAN HỆ (BẮT BUỘC TUÂN THỦ)\n- Bạn (" + name + ") xưng: \"" + pronouns.character + "\"\n- Người dùng (" + nickname + "): \"" + pronouns.user + "\"\n**MỐI QUAN HỆ HIỆN TẠI: " + stage + "**\n(Intimacy Level: " + IntToString(intimacy) + "/4)"
    case Features(lang, intimacy) =>
      if lang == English then "## FEATURES AWARENESS & NARRATIVE GUIDELINES (CRITICAL)\n**3. ❤\U{FE0F} INTIMACY LEVEL (Current: " + IntToString(intimacy) + "/4)**"
      else "## NHẬN THỨC TÍNH NĂNG & HƯỚNG DẪN DIỄN XUẤT (QUAN TRỌNG)\n**3. ❤\U{FE0F} MỨC ĐỘ THÂN MẬT (Hiện tại: " + IntToString(intimacy) + "/4)**"
    case MemoriesSection(nickname, memoryList) => "## KÝ ỨC CỦA BẠN\nĐây là những điều quan trọng bạn nhớ về \"" + nickname + "\":\n" + memoryList
    case SceneSection(sceneText) => "## BỐI CẢNH HIỆN TẠI\n" + sceneText
    case ExampleDialogues(lang) =>
      if lang == English then "## EXAMPLE DIALOGUES (TONE REFERENCE ONLY)"
      else "## VÍ DỤ HỘI THOẠI (CHỈ THAM KHẢO VỀ GIỌNG ĐIỆU)"
    case OutputRules(lang) =>
      if lang == English then "## OUTPUT RULES (HIGHEST PRIORITY)"
      else "## QUY TẮC TRẢ LỜI (QUAN TRỌNG NHẤT)"
    case SentimentScoring => "## \U{1F525} SYSTEM INSTRUCTION: SENTIMENT SCORING (MANDATORY)"
    case FinalReminder(stage, intimacy) => "## ⚠\U{FE0F} FINAL REMINDER:\nDon't forget the JSON block at the end of your response.\nImpact Scale: -20 (Toxic/Breakup) to +20 (Proposal/Saving life).\nCurrent Stage: " + stage + ", Intimacy: " + IntToString(intimacy) + "/4."
  }

  /** `f` applied to each element, in order. */
  function MapSeq<A, B>(f: A -> B, s: seq<A>): seq<B>
  {
    seq(|s|, i requires 0 <= i < |s| => f(s[i]))
  }

  /** A slice of a mapped sequence is the mapped slice. */
  lemma MapSlice<A, B>(f: A -> B, s: seq<A>, lo: nat, hi: nat)
    requires lo <= hi <= |s|
    ensures MapSeq(f, s)[lo..hi] == MapSeq(f, s[lo..hi])
  {
  }

  function RenderAll(sections: seq<Section>): seq<string>
  {
    MapSeq(Render, sections)
  }

  const SectionSeparator: string := "\n\n"

  /** `userProfile.gender || 'prefer-not-to-say'`. */
  function UserGenderOf(profile: UserProfile): string
  {
    if Present(profile.gender) then profile.gender.value else "prefer-not-to-say"
  }

  /** The eleven sections every system message opens with. */
  function LeadingSections(character: Character, profile: UserProfile, config: RelationshipConfig,
                           lang: Language, nowMs: int): seq<Section>
  {
    var intimacy := IntimacyOf(config);
    [Opening(lang, character.name), ScoringRuleSection, Persona(lang, character.persona),
     SpeakingStyle(lang, character.speakingStyle), Boundaries(lang, character.boundaries), LanguageRules(lang),
     NarrativeSyntax(lang, character.name),
     RelationshipContext(lang, Join(RelationshipLines(lang, config, nowMs), "\n"), character.name),
     AboutUser(lang, Join(UserLines(lang, profile), "\n")),
     BehaviorRules(lang, character.name, profile.nicknameForUser,
                   GetPronouns(character.gender, UserGenderOf(profile), intimacy), StageOf(config), intimacy),
     Features(lang, intimacy)]
  }

  /** The memory and scene sections, each present only when there is something to show. */
  function OptionalSections(profile: UserProfile, memories: seq<Memory>, scene: Option<SceneState>): (r: seq<Section>)
    ensures |r| == (if |memories| > 0 then 1 else 0) + (if scene.Some? then 1 else 0)
    ensures forall i :: 0 <= i < |r| ==> (r[i].MemoriesSection? <==> |memories| > 0 && i == 0)
    ensures forall i :: 0 <= i < |r| ==> (r[i].SceneSection? <==> scene.Some? && i == |r| - 1)
    ensures |memories| > 0 ==> r[0] == MemoriesSection(profile.nicknameForUser, MemoryList(memories))
    ensures scene.Some? ==> r[|r| - 1] == SceneSection(FormatScene(scene.value, profile.nicknameForUser))
  {
    (if |memories| > 0 then [MemoriesSection(profile.nicknameForUser, MemoryList(memories))] else []) +
    (if scene.Some? then [SceneSection(FormatScene(scene.value, profile.nicknameForUser))] else [])
  }

  /** The four sections every system message closes with. */
  function ClosingSections(lang: Language, config: RelationshipConfig): seq<Section>
  {
    [ExampleDialogues(lang), OutputRules(lang), SentimentScoring, FinalReminder(StageOf(config), IntimacyOf(config))]
  }

  lemma LeadingShape(character: Character, profile: UserProfile, config: RelationshipConfig, lang: Language, nowMs: int)
    ensures var r := LeadingSections(character, profile, config, lang, nowMs);
            |r| == 11 && r[0] == Opening(lang, character.name) && r[1] == ScoringRuleSection &&
            forall i :: 0 <= i < |r| ==> !r[i].MemoriesSection? && !r[i].SceneSection?
  {
  }

  lemma ClosingShape(lang: Language, config: RelationshipConfig)
    ensures var r := ClosingSections(lang, config);
            |r| == 4 && r[2] == SentimentScoring && r[3] == FinalReminder(StageOf(config), IntimacyOf(config)) &&
            forall i :: 0 <= i < |r| ==> !r[i].MemoriesSection? && !r[i].SceneSection?
  {
  }

  /** The sections of the system message, in the order `buildSystemMessage` pushes them. */
  function SystemSections(character: Character, profile: UserProfile, config: RelationshipConfig, memories: seq<Memory>,
                          scene: Option<SceneState>, lang: Language, nowMs: int): seq<Section>
  {
    LeadingSections(character, profile, config, lang, nowMs) + OptionalSections(profile, memories, scene) +
    ClosingSections(lang, config)
  }

  /** The system message: the rendered sections joined by blank lines. */
  function SystemPrompt(character: Character, profile: UserProfile, config: RelationshipConfig, memories: seq<Memory>,
                        scene: Option<SceneState>, lang: Language, nowMs: int): string
  {
    Join(RenderAll(SystemSections(character, profile, config, memories, scene, lang, nowMs)), SectionSeparator)
  }

  /** `buildSystemMessage`: the sections are pushed one by one, then joined. */
  method BuildSystemMessage(character: Character, profile: UserProfile, config: RelationshipConfig, memories: seq<Memory>,
                            scene: Option<SceneState>, lang: Language, nowMs: int) returns (message: string)
    ensures message == SystemPrompt(character, profile, config, memories, scene, lang, nowMs)
  {
    var sections: seq<Section> := [];
    sections := sections + [Opening(lang, character.name)];
    sections := sections + [ScoringRuleSection];
    sections := sections + [Persona(lang, character.persona)];
    sections := sections + [SpeakingStyle(lang, character.speakingStyle)];
    sections := sections + [Boundaries(lang, character.boundaries)];
    sections := sections + [LanguageRules(lang)];
    sections := sections + [NarrativeSyntax(lang, character.name)];
    sections := sections + [RelationshipContext(lang, Join(RelationshipLines(lang, config, nowMs), "\n"), character.name)];
    sections := sections + [AboutUser(lang, Join(UserLines(lang, profile), "\n"))];
    var intimacyLevel := IntimacyOf(config);
    var stage := StageOf(config);
    var pronouns := GetPronouns(character.gender, UserGenderOf(profile), intimacyLevel);
    sections := sections + [BehaviorRules(lang, character.name, profile.nicknameForUser, pronouns, stage, intimacyLevel)];
    sections := sections + [Features(lang, intimacyLevel)];
    assert sections == LeadingSections(character, profile, config, lang, nowMs);
    var leading := sections;
    if |memories| > 0 {
      sections := sections + [MemoriesSection(profile.nicknameForUser, MemoryList(memories))];
    }
    if scene.Some? {
      sections := sections + [SceneSection(FormatScene(scene.value, profile.nicknameForUser))];
    }
    assert sections == leading + OptionalSections(profile, memories, scene);
    var upper := sections;
    sections := sections + [ExampleDialogues(lang)];
    sections := sections + [OutputRules(lang)];
    sections := sections + [SentimentScoring];
    sections := sections + [FinalReminder(stage, intimacyLevel)];
    assert sections == upper + [ExampleDialogues(lang), OutputRules(lang), SentimentScoring, FinalReminder(stage, intimacyLevel)];
    message := Join(RenderAll(sections), SectionSeparator);
  }

  /** A message as stored: its role and text. */
  datatype StoredMessage = StoredMessage(role: Role, content: string)

  /** `recentMessages.map(...)`: one message per stored message, with its role and text, in order. */
  function Conversation(recentMessages: seq<StoredMessage>): (r: seq<LlmMessage>)
    ensures |r| == |recentMessages|
    ensures forall i :: 0 <= i < |recentMessages| ==> r[i] == LlmMessage(recentMessages[i].role, recentMessages[i].content)
  {
    seq(|recentMessages|, i requires 0 <= i < |recentMessages| => LlmMessage(recentMessages[i].role, recentMessages[i].content))
  }

  /**
   * `buildChatPrompt`: the system message, then the stored conversation.
   * The language is Vietnamese unless `'en'` is asked for.
   */
  method BuildChatPrompt(character: Character, profile: UserProfile, config: RelationshipConfig, memories: seq<Memory>,
                         recentMessages: seq<StoredMessage>, scene: Option<SceneState>, userLanguage: Option<string>,
                         nowMs: int) returns (messages: seq<LlmMessage>)
    ensures messages == [LlmMessage(System, SystemPrompt(character, profile, config, memories, scene, LanguageOf(userLanguage), nowMs))] +
                        Conversation(recentMessages)
  {
    var systemMessage := BuildSystemMessage(character, profile, config, memories, scene, LanguageOf(userLanguage), nowMs);
    var conversationMessages := Conversation(recentMessages);
    messages := [LlmMessage(System, systemMessage)] + conversationMessages;
  }

  // ---------------------------------------------------------------------
  // Properties of the section list
  // ---------------------------------------------------------------------

  /**
   * The opening comes first and the scoring rule second; the sentiment
   * scoring and the final reminder close the list.  The memory section is
   * there exactly when there are memories, and the scene section exactly
   * when a scene is given, each in its fixed place.
   */
  lemma SectionOrder(character: Character, profile: UserProfile, config: RelationshipConfig, memories: seq<Memory>,
                     scene: Option<SceneState>, lang: Language, nowMs: int)
    ensures var r := SystemSections(character, profile, config, memories, scene, lang, nowMs);
            var m := if |memories| > 0 then 1 else 0;
            |r| == 15 + m + (if scene.Some? then 1 else 0) &&
            r[0] == Opening(lang, character.name) && r[1] == ScoringRuleSection &&
            r[|r| - 2] == SentimentScoring && r[|r| - 1] == FinalReminder(StageOf(config), IntimacyOf(config)) &&
            (forall i :: 0 <= i < |r| ==> (r[i].MemoriesSection? <==> |memories| > 0 && i == 11)) &&
            (forall i :: 0 <= i < |r| ==> (r[i].SceneSection? <==> scene.Some? && i == 11 + m)) &&
            (|memories| > 0 ==> r[11] == MemoriesSection(profile.nicknameForUser, MemoryList(memories))) &&
            (scene.Some? ==> r[11 + m] == SceneSection(FormatScene(scene.value, profile.nicknameForUser)))
  {
    LeadingShape(character, profile, config, lang, nowMs);
    ClosingShape(lang, config);
    ThreePartOrder(LeadingSections(character, profile, config, lang, nowMs), OptionalSections(profile, memories, scene),
                   ClosingSections(lang, config), if |memories| > 0 then 1 else 0, scene.Some?);
  }

  /**
   * Eleven leading and four closing sections without memories or scene
   * around the optional ones: the memory section, when there is one, is
   * the twelfth, and the scene section follows it.
   */
  lemma ThreePartOrder(lead: seq<Section>, opt: seq<Section>, close: seq<Section>, m: nat, sc: bool)
    requires |lead| == 11 && |close| == 4 && m <= 1 && |opt| == m + (if sc then 1 else 0)
    requires forall i :: 0 <= i < |lead| ==> !lead[i].MemoriesSection? && !lead[i].SceneSection?
    requires forall i :: 0 <= i < |close| ==> !close[i].MemoriesSection? && !close[i].SceneSection?
    requires forall i :: 0 <= i < |opt| ==> (opt[i].MemoriesSection? <==> m == 1 && i == 0)
    requires forall i :: 0 <= i < |opt| ==> (opt[i].SceneSection? <==> sc && i == |opt| - 1)
    ensures var r := lead + opt + close;
            |r| == 15 + |opt| &&
            r[0] == lead[0] && r[1] == lead[1] && r[|r| - 2] == close[2] && r[|r| - 1] == close[3] &&
            (forall i :: 0 <= i < |r| ==> (r[i].MemoriesSection? <==> m == 1 && i == 11)) &&
            (forall i :: 0 <= i < |r| ==> (r[i].SceneSection? <==> sc && i == 11 + m)) &&
            (m == 1 ==> r[11] == opt[0]) && (sc ==> r[11 + m] == opt[|opt| - 1])
  {
    var r := lead + opt + close;
    forall i | 0 <= i < |r|
      ensures r[i] == if i < 11 then lead[i] else if i < 11 + |opt| then opt[i - 11] else close[i - 11 - |opt|]
    {
    }
  }

  /** `Join` peels its last part off as it peels its first. */
  lemma {:induction false} JoinSnoc(parts: seq<string>, sep: string)
    requires |parts| >= 2
    ensures Join(parts, sep) == Join(parts[..|parts| - 1], sep) + sep + parts[|parts| - 1]
  {
    if |parts| > 2 {
      JoinSnoc(parts[1..], sep);
      assert parts[1..][..|parts| - 2] == parts[..|parts| - 1][1..];
    }
  }

  /**
   * The system message starts with the opening and the scoring rule and
   * ends with the final reminder, each separated from its neighbour by a
   * blank line.
   */
  lemma PromptFrame(character: Character, profile: UserProfile, config: RelationshipConfig, memories: seq<Memory>,
                    scene: Option<SceneState>, lang: Language, nowMs: int)
    ensures var r := SystemSections(character, profile, config, memories, scene, lang, nowMs);
            SystemPrompt(character, profile, config, memories, scene, lang, nowMs) ==
              Render(Opening(lang, character.name)) + SectionSeparator + ScoringRule + SectionSeparator +
              Join(RenderAll(r[2..|r| - 1]), SectionSeparator) + SectionSeparator +
              Render(FinalReminder(StageOf(config), IntimacyOf(config)))
  {
    var r := SystemSections(character, profile, config, memories, scene, lang, nowMs);
    SectionEnds(character, profile, config, memories, scene, lang, nowMs);
    FramedSections(r, Opening(lang, character.name), FinalReminder(StageOf(config), IntimacyOf(config)));
  }

  /** A section list that opens with `first` and the scoring rule and closes with `last`, rendered and joined. */
  lemma FramedSections(r: seq<Section>, first: Section, last: Section)
    requires |r| >= 4 && r[0] == first && r[1] == ScoringRuleSection && r[|r| - 1] == last
    ensures Join(RenderAll(r), SectionSeparator) ==
              Render(first) + SectionSeparator + ScoringRule + SectionSeparator +
              Join(RenderAll(r[2..|r| - 1]), SectionSeparator) + SectionSeparator + Render(last)
  {
    assert Render(ScoringRuleSection) == ScoringRule;
    MapJoinFrame(Render, r, SectionSeparator, Render(first), ScoringRule, Render(last));
  }

  /** A join of at least four mapped elements, with its first two and its last one written out. */
  lemma MapJoinFrame<A>(f: A -> string, r: seq<A>, sep: string, first: string, second: string, last: string)
    requires |r| >= 4 && f(r[0]) == first && f(r[1]) == second && f(r[|r| - 1]) == last
    ensures Join(MapSeq(f, r), sep) ==
              first + sep + second + sep + Join(MapSeq(f, r[2..|r| - 1]), sep) + sep + last
  {
    JoinFrame(MapSeq(f, r), sep);
    MapSlice(f, r, 2, |r| - 1);
  }

  /** The first two and the last section of the system message. */
  lemma SectionEnds(character: Character, profile: UserProfile, config: RelationshipConfig, memories: seq<Memory>,
                    scene: Option<SceneState>, lang: Language, nowMs: int)
    ensures var r := SystemSections(character, profile, config, memories, scene, lang, nowMs);
            |r| >= 15 && r[0] == Opening(lang, character.name) && r[1] == ScoringRuleSection &&
            r[|r| - 1] == FinalReminder(StageOf(config), IntimacyOf(config))
  {
    SectionOrder(character, profile, config, memories, scene, lang, nowMs);
  }

  /** A join of at least four parts, with its first two and its last one written out. */
  lemma JoinFrame(parts: seq<string>, sep: string)
    requires |parts| >= 4
    ensures Join(parts, sep) == parts[0] + sep + parts[1] + sep + Join(parts[2..|parts| - 1], sep) + sep + parts[|parts| - 1]
  {
    var tail := parts[2..];
    JoinTwoHeads(parts, sep);
    JoinSnoc(tail, sep);
    assert tail[..|tail| - 1] == parts[2..|parts| - 1];
    AppendRegroup(parts[0] + sep + parts[1] + sep, Join(parts[2..|parts| - 1], sep), sep, parts[|parts| - 1]);
  }

  lemma JoinTwoHeads(parts: seq<string>, sep: string)
    requires |parts| >= 3
    ensures Join(parts, sep) == parts[0] + sep + parts[1] + sep + Join(parts[2..], sep)
  {
    assert parts[1..][1..] == parts[2..];
  }

  lemma AppendRegroup(a: string, b: string, c: string, d: string)
    ensures a + (b + c + d) == a + b + c + d
  {
  }
}
