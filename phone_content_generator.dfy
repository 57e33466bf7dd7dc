/**
 * The conversation side of the phone-content generator: which chat messages
 * are too trivial to matter, the conversation transcript handed to the
 * model, the decision whether there is enough conversation to generate
 * anything, and the replacement of name placeholders in the generated
 * phone content (call log, messages, notes, calendar).
 *
 * Lengths are JavaScript's: UTF-16 code units, so an emoji beyond U+FFFF
 * counts twice.
 */
module PhoneContentGenerator {
  import opened Common

  datatype SimpleMessage = SimpleMessage(role: string, content: string)

  datatype CallType = Incoming | Outgoing | Missed

  datatype CallLog = CallLog(contact: string, kind: CallType, duration: Option<string>, timestamp: string)

  datatype PhoneMessage = PhoneMessage(contact: string, preview: string, isDraft: bool, isUnsent: bool, timestamp: string)

  datatype NoteCategory = Feelings | Quotes | Reminders | Thoughts

  datatype Note = Note(title: string, content: string, category: NoteCategory, timestamp: string)

  datatype EventType = Plan | Reminder | Date

  datatype CalendarEvent = CalendarEvent(title: string, date: string, time: Option<string>,
                                         description: Option<string>, kind: EventType)

  /** Phone content as it comes back from the model: any of the four lists may be missing. */
  datatype PhoneContent = PhoneContent(
    callLogs: Option<seq<CallLog>>,
    messages: Option<seq<PhoneMessage>>,
    notes: Option<seq<Note>>,
    calendar: Option<seq<CalendarEvent>>,
    generatedAt: string)

  // ---------------------------------------------------------------------
  // Trivial messages
  // ---------------------------------------------------------------------

  const TrivialPhrases: seq<string> := [
    "ok", "okay", "yes", "no", "yeah", "yep", "nope",
    "ừ", "à", "ờ", "ô", "ồ", "ừm", "uhm", "hm", "hmm",
    "lol", "haha", "hihi", "\U{1F602}", "\U{1F605}", "\U{1F44D}", "\U{2764}\U{FE0F}"]

  /** The accented lower-case letters of the letter class, after `a-zA-Z`, in the order the class lists them. */
  predicate IsVietnameseLetter(c: char)
  {
    c == 'à' || c == 'á' || c == 'ạ' || c == 'ả' || c == 'ã' || c == 'â'
    || c == 'ầ' || c == 'ấ' || c == 'ậ' || c == 'ẩ' || c == 'ẫ' || c == 'ă'
    || c == 'ằ' || c == 'ắ' || c == 'ặ' || c == 'ẳ' || c == 'ẵ' || c == 'è'
    || c == 'é' || c == 'ẹ' || c == 'ẻ' || c == 'ẽ' || c == 'ê' || c == 'ề'
    || c == 'ế' || c == 'ệ' || c == 'ể' || c == 'ễ' || c == 'ì' || c == 'í'
    || c == 'ị' || c == 'ỉ' || c == 'ĩ' || c == 'ò' || c == 'ó' || c == 'ọ'
    || c == 'ỏ' || c == 'õ' || c == 'ô' || c == 'ồ' || c == 'ố' || c == 'ộ'
    || c == 'ổ' || c == 'ỗ' || c == 'ơ' || c == 'ờ' || c == 'ớ' || c == 'ợ'
    || c == 'ở' || c == 'ỡ' || c == 'ù' || c == 'ú' || c == 'ụ' || c == 'ủ'
    || c == 'ũ' || c == 'ư' || c == 'ừ' || c == 'ứ' || c == 'ự' || c == 'ử'
    || c == 'ữ' || c == 'ỳ' || c == 'ý' || c == 'ỵ' || c == 'ỷ' || c == 'ỹ'
    || c == 'đ'
  }

  /** One character of the letter class; the `i` flag lets an upper-case accented letter in as well. */
  predicate IsLetter(c: char)
  {
    ('a' <= c <= 'z') || ('A' <= c <= 'Z') || IsVietnameseLetter(c) || IsVietnameseLetter(LowerChar(c))
  }

  predicate HasLetter(s: string)
  {
    exists i :: 0 <= i < |s| && IsLetter(s[i])
  }

  /** `content.toLowerCase().trim()`. */
  function Normalize(content: string): string
  {
    Trim(Lower(content))
  }

  /** `isTrivialMessage`. */
  predicate IsTrivialMessage(content: string)
  {
    var normalized := Normalize(content);
    if Utf16Length(normalized) < 5 then true
    else if Utf16Length(normalized) < 10 && !HasLetter(normalized) then true
    else normalized in TrivialPhrases
  }

  /** A string whose JavaScript length is at most four. */
  predicate Short(s: string)
  {
    |s| <= 2 || (|s| <= 4 && forall i :: 0 <= i < |s| ==> s[i] as int <= 0xFFFF)
  }

  lemma ShortIsUnderFive(s: string)
    requires Short(s)
    ensures Utf16Length(s) < 5
  {
    if |s| > 2 {
      Utf16LengthInBmp(s);
    }
  }

  lemma PhrasesAreShort()
    ensures forall k :: 0 <= k < |TrivialPhrases| ==> Short(TrivialPhrases[k])
  {
  }

  /**
   * Every trivial phrase is shorter than five code units, so the phrase list
   * never decides anything: a message is trivial exactly when its normalized
   * text is under five code units, or under ten with no letter.
   */
  lemma TrivialIff(content: string)
    ensures var n := Normalize(content);
            IsTrivialMessage(content) <==>
              Utf16Length(n) < 5 || (Utf16Length(n) < 10 && !HasLetter(n))
  {
    var n := Normalize(content);
    if n in TrivialPhrases {
      PhrasesAreShort();
      var k :| 0 <= k < |TrivialPhrases| && TrivialPhrases[k] == n;
      ShortIsUnderFive(TrivialPhrases[k]);
    }
  }

  /** A text of ten code units or more is never trivial. */
  lemma LongIsMeaningful(content: string)
    requires Utf16Length(Normalize(content)) >= 10
    ensures !IsTrivialMessage(content)
  {
    TrivialIff(content);
  }

  /** Characters beyond U+FFFF, such as most emoji. */
  predicate Astral(s: string)
  {
    forall i :: 0 <= i < |s| ==> s[i] as int > 0xFFFF
  }

  lemma {:induction false} AstralLength(s: string)
    requires Astral(s)
    ensures Utf16Length(s) == 2 * |s|
  {
    if |s| > 0 {
      AstralLength(s[1..]);
    }
  }

  /** An astral text is its own normalization and holds no letter. */
  lemma AstralNormalizes(s: string)
    requires Astral(s)
    ensures Normalize(s) == s && !HasLetter(s)
  {
    assert Lower(s) == s;
    TrimOfTrimmed(s);
    forall i | 0 <= i < |s| ensures !IsLetter(s[i]) {
      assert LowerChar(s[i]) == s[i];
    }
  }

  /**
   * Emoji are counted in code units: up to four of them make a trivial
   * message but five are meaningful, although the code meant "very short
   * and no letters" to cover emoji-only messages.
   */
  lemma EmojiOnlyTrivialIff(s: string)
    requires Astral(s)
    ensures IsTrivialMessage(s) <==> |s| < 5
  {
    AstralNormalizes(s);
    AstralLength(s);
    TrivialIff(s);
  }

  // ---------------------------------------------------------------------
  // Meaningful messages
  // ---------------------------------------------------------------------

  /** A message worth keeping in the conversation. */
  predicate Meaningful(msg: SimpleMessage)
  {
    !IsTrivialMessage(msg.content)
  }

  /** `filterMeaningfulMessages`: the non-trivial messages, and all of them. */
  function FilterMeaningful(messages: seq<SimpleMessage>): (r: seq<SimpleMessage>)
    ensures forall i :: 0 <= i < |r| ==> !IsTrivialMessage(r[i].content) && r[i] in messages
    ensures forall m :: m in messages && !IsTrivialMessage(m.content) ==> m in r
  {
    FilterSound(messages, Meaningful);
    FilterComplete(messages, Meaningful);
    Filter(messages, Meaningful)
  }

  // ---------------------------------------------------------------------
  // Conversation context
  // ---------------------------------------------------------------------

  const NoConversation: string := "Chưa có cuộc trò chuyện đáng kể nào."

  /** `messages.slice(-30)`: the last thirty messages, or all of them. */
  function Recent(messages: seq<SimpleMessage>): (r: seq<SimpleMessage>)
    ensures |r| == Min(|messages|, 30)
    ensures r == messages[|messages| - |r|..]
  {
    if |messages| > 30 then messages[|messages| - 30..] else messages
  }

  function Speaker(msg: SimpleMessage, characterName: string, userName: string): string
  {
    if msg.role == "user" then userName else characterName
  }

  function Line(msg: SimpleMessage, characterName: string, userName: string): string
  {
    Speaker(msg, characterName, userName) + ": " + msg.content
  }

  function Lines(messages: seq<SimpleMessage>, characterName: string, userName: string): (r: seq<string>)
    ensures |r| == |messages|
  {
    seq(|messages|, i requires 0 <= i < |messages| => Line(messages[i], characterName, userName))
  }

  /**
   * `buildConversationContext`: one line per meaningful recent message, or
   * the fixed placeholder, which no real context can be mistaken for.
   */
  function BuildConversationContext(messages: seq<SimpleMessage>, characterName: string, userName: string): (r: string)
    ensures r == NoConversation <==> FilterMeaningful(Recent(messages)) == []
  {
    var meaningful := FilterMeaningful(Recent(messages));
    if |meaningful| == 0 then NoConversation
    else
      var lines := Lines(meaningful, characterName, userName);
      var r := Join(lines, "\n");
      var speaker := Speaker(meaningful[0], characterName, userName);
      JoinStartsWithFirst(lines, "\n");
      assert lines[0][|speaker|] == ':';
      assert r[|speaker|] == ':';
      PlaceholderHasNoColon();
      r
  }

  lemma PlaceholderHasNoColon()
    ensures ':' !in NoConversation
  {
  }

  lemma JoinStartsWithFirst(parts: seq<string>, sep: string)
    requires |parts| >= 1
    ensures |parts[0]| <= |Join(parts, sep)| && Join(parts, sep)[..|parts[0]|] == parts[0]
  {
    if |parts| > 1 {
      var rest := Join(parts[1..], sep);
      assert Join(parts, sep) == parts[0] + (sep + rest);
    }
  }

  /** Only the last thirty messages matter: anything older is ignored. */
  lemma ContextOnlyLastThirty(older: seq<SimpleMessage>, recent: seq<SimpleMessage>, characterName: string, userName: string)
    requires |recent| >= 30
    ensures BuildConversationContext(older + recent, characterName, userName) ==
            BuildConversationContext(recent, characterName, userName)
  {
    RecentOfLonger(older, recent);
  }

  lemma RecentOfLonger(older: seq<SimpleMessage>, recent: seq<SimpleMessage>)
    requires |recent| >= 30
    ensures Recent(older + recent) == Recent(recent)
  {
    var all := older + recent;
    assert all[|all| - 30..] == recent[|recent| - 30..];
  }

  /** When the last thirty messages are all trivial the context is the fixed placeholder. */
  lemma ContextOfTrivialTalk(messages: seq<SimpleMessage>, characterName: string, userName: string)
    requires forall i :: |messages| - 30 <= i < |messages| && 0 <= i ==> IsTrivialMessage(messages[i].content)
    ensures BuildConversationContext(messages, characterName, userName) == NoConversation
  {
    var recent := Recent(messages);
    forall i | 0 <= i < |recent| ensures !Meaningful(recent[i]) {
      assert recent[i] == messages[|messages| - |recent| + i];
    }
    FilterDropsAll(recent, Meaningful);
  }

  /** A trivial reply added to a short conversation leaves the context as it was. */
  lemma ContextIgnoresTrivial(messages: seq<SimpleMessage>, msg: SimpleMessage, characterName: string, userName: string)
    requires |messages| < 30 && IsTrivialMessage(msg.content)
    ensures BuildConversationContext(messages + [msg], characterName, userName) ==
            BuildConversationContext(messages, characterName, userName)
  {
    assert !Meaningful(msg);
    FilterSkipsLast(messages, msg, Meaningful);
    assert Recent(messages + [msg]) == messages + [msg];
  }

  lemma NoNewlineInLine(msg: SimpleMessage, characterName: string, userName: string)
    requires !ContainsChar(characterName, '\n') && !ContainsChar(userName, '\n') && !ContainsChar(msg.content, '\n')
    ensures !ContainsChar(Line(msg, characterName, userName), '\n')
  {
    var sp := Speaker(msg, characterName, userName);
    var l := Line(msg, characterName, userName);
    forall i | 0 <= i < |l| ensures l[i] != '\n' {
      if i < |sp| {
        assert l[i] == sp[i];
      } else if i >= |sp| + 2 {
        assert l[i] == msg.content[i - |sp| - 2];
      }
    }
  }

  /**
   * With single-line names and messages, the context has one line per
   * meaningful recent message, in order: the user's own messages under the
   * user's name, every other message under the character's name.
   */
  lemma ContextLines(messages: seq<SimpleMessage>, characterName: string, userName: string)
    requires !ContainsChar(characterName, '\n') && !ContainsChar(userName, '\n')
    requires forall i :: 0 <= i < |messages| ==> !ContainsChar(messages[i].content, '\n')
    requires FilterMeaningful(Recent(messages)) != []
    ensures var m := FilterMeaningful(Recent(messages));
            var lines := Split(BuildConversationContext(messages, characterName, userName), '\n');
            |lines| == |m| &&
            forall k :: 0 <= k < |m| ==>
              lines[k] == (if m[k].role == "user" then userName else characterName) + ": " + m[k].content
  {
    var recent := Recent(messages);
    var m := Filter(recent, Meaningful);
    FilterSound(recent, Meaningful);
    forall k | 0 <= k < |m| ensures !ContainsChar(m[k].content, '\n') {
      var j :| 0 <= j < |recent| && recent[j] == m[k];
      assert recent[j] == messages[|messages| - |recent| + j];
    }
    JoinedLinesSplit(m, characterName, userName);
  }

  /** Single-line messages under single-line names split back into their lines. */
  lemma JoinedLinesSplit(m: seq<SimpleMessage>, characterName: string, userName: string)
    requires |m| >= 1
    requires !ContainsChar(characterName, '\n') && !ContainsChar(userName, '\n')
    requires forall k :: 0 <= k < |m| ==> !ContainsChar(m[k].content, '\n')
    ensures Split(Join(Lines(m, characterName, userName), "\n"), '\n') == Lines(m, characterName, userName)
  {
    var lines := Lines(m, characterName, userName);
    forall k | 0 <= k < |lines| ensures !ContainsChar(lines[k], '\n') {
      NoNewlineInLine(m[k], characterName, userName);
    }
    SplitJoin(lines, '\n');
  }

  /** `shouldGenerateContent`. */
  predicate ShouldGenerateContent(messages: seq<SimpleMessage>)
  {
    var meaningful := FilterMeaningful(messages);
    if |meaningful| < 5 then false
    else if |messages| < 3 then false
    else true
  }

  /** The greeting-phase check is implied: generation needs exactly five meaningful messages or more. */
  lemma ShouldGenerateIff(messages: seq<SimpleMessage>)
    ensures ShouldGenerateContent(messages) <==> |FilterMeaningful(messages)| >= 5
  {
  }

  /** Five messages of at least ten code units each are enough to generate. */
  lemma FiveLongMessagesGenerate(messages: seq<SimpleMessage>)
    requires |messages| >= 5
    requires forall i :: 0 <= i < |messages| ==> Utf16Length(Normalize(messages[i].content)) >= 10
    ensures ShouldGenerateContent(messages)
  {
    forall i | 0 <= i < |messages| ensures Meaningful(messages[i]) {
      LongIsMeaningful(messages[i].content);
    }
    FilterKeepsAll(messages, Meaningful);
  }

  // ---------------------------------------------------------------------
  // Name placeholders
  // ---------------------------------------------------------------------

  /**
   * `replaceInString`: `{user}` in any case becomes the user's name, then
   * `{char}` in any case the character's name, then the literal `User` the
   * user's name, each with `$` patterns in the name expanded as a string
   * replacement expands them.
   */
  function ReplaceInString(str: string, characterName: string, userName: string): (r: string)
    ensures str == "" ==> r == ""
  {
    if str == "" then str
    else Replace(Replace(Replace(str, "{user}", userName, true), "{char}", characterName, true), "User", userName, false)
  }

  /** For names without `$`, the result is that of the three character-by-character scans in turn. */
  lemma ReplaceInStringByScan(str: string, characterName: string, userName: string)
    requires '$' !in userName && '$' !in characterName
    ensures ReplaceInString(str, characterName, userName)
              == ReplaceAll(ReplaceAllCI(ReplaceAllCI(str, "{user}", userName), "{char}", characterName), "User", userName)
  {
    if str != "" {
      var once := Replace(str, "{user}", userName, true);
      var twice := Replace(once, "{char}", characterName, true);
      ReplaceMatchesScan(str, "{user}", userName, 0, true);
      assert str[0..] == str;
      ReplaceMatchesScan(once, "{char}", characterName, 0, true);
      assert once[0..] == once;
      ReplaceMatchesScan(twice, "User", userName, 0, false);
      assert twice[0..] == twice;
    } else {
      assert ReplaceAllCI(str, "{user}", userName) == str;
      assert ReplaceAllCI(str, "{char}", characterName) == str;
    }
  }

  predicate NoPlaceholder(s: string)
  {
    !ContainsCI(s, "{user}") && !ContainsCI(s, "{char}") && !Contains(s, "User")
  }

  /** No character of a text without `U` can start the word `User`. */
  lemma NoCapitalUStartsNoUser(t: string)
    requires 'U' !in t
    ensures forall k :: 0 <= k < |t| ==> !SameChar(t[k], 'U', false)
  {
  }

  /** With names without `$`, a leading text without `{` or `U` is copied and the rest is replaced on its own. */
  lemma ReplaceAfterPlainText(plain: string, rest: string, characterName: string, userName: string)
    requires '{' !in plain && 'U' !in plain && '$' !in userName && '$' !in characterName
    ensures ReplaceInString(plain + rest, characterName, userName) == plain + ReplaceInString(rest, characterName, userName)
  {
    NoBraceStartsNoPlaceholder(plain);
    NoCapitalUStartsNoUser(plain);
    var once := Replace(rest, "{user}", userName, true);
    var twice := Replace(once, "{char}", characterName, true);
    ReplacePlainPrefix(plain, rest, "{user}", userName, true);
    ReplacePlainPrefix(plain, once, "{char}", characterName, true);
    ReplacePlainPrefix(plain, twice, "User", userName, false);
  }

  /**
   * With names without `$` and a user name without `{` or `U`, a leading
   * `{user}` tag becomes the user's name and the rest is replaced on its own.
   */
  lemma ReplaceAtUserTag(tag: string, rest: string, characterName: string, userName: string)
    requires EqualsCI(tag, "{user}") && '$' !in userName && '$' !in characterName
    requires '{' !in userName && 'U' !in userName
    ensures ReplaceInString(tag + rest, characterName, userName) == userName + ReplaceInString(rest, characterName, userName)
  {
    NoBraceStartsNoPlaceholder(userName);
    NoCapitalUStartsNoUser(userName);
    var once := Replace(rest, "{user}", userName, true);
    var twice := Replace(once, "{char}", characterName, true);
    ReplaceLeadingMatch(tag, rest, "{user}", userName, true);
    ReplacePlainPrefix(userName, once, "{char}", characterName, true);
    ReplacePlainPrefix(userName, twice, "User", userName, false);
  }

  /**
   * With names without `$` and a character name without `U`, a leading
   * `{char}` tag becomes the character's name and the rest is replaced on
   * its own. A `U` in the character's name could start a `User` that the
   * last pass replaces by the user's name.
   */
  lemma ReplaceAtCharTag(tag: string, rest: string, characterName: string, userName: string)
    requires EqualsCI(tag, "{char}") && '$' !in userName && '$' !in characterName && 'U' !in characterName
    ensures ReplaceInString(tag + rest, characterName, userName) == characterName + ReplaceInString(rest, characterName, userName)
  {
    NoCapitalUStartsNoUser(characterName);
    var once := Replace(rest, "{user}", userName, true);
    var twice := Replace(once, "{char}", characterName, true);
    CharTagSurvivesUserPass(tag, rest, userName);
    ReplaceLeadingMatch(tag, once, "{char}", characterName, true);
    ReplacePlainPrefix(characterName, twice, "User", userName, false);
  }

  /** With names without `$`, a leading `User` in ordinary text becomes the user's name as well, and the rest is replaced on its own. */
  lemma ReplaceAtUserWord(rest: string, characterName: string, userName: string)
    requires '$' !in userName && '$' !in characterName
    ensures ReplaceInString("User" + rest, characterName, userName) == userName + ReplaceInString(rest, characterName, userName)
  {
    var once := Replace(rest, "{user}", userName, true);
    var twice := Replace(once, "{char}", characterName, true);
    NoBraceStartsNoPlaceholder("User");
    ReplacePlainPrefix("User", rest, "{user}", userName, true);
    ReplacePlainPrefix("User", once, "{char}", characterName, true);
    ReplaceLeadingMatch("User", twice, "User", userName, false);
  }

  /** Text without a placeholder is left as it is. */
  lemma ReplaceKeepsPlainText(str: string, characterName: string, userName: string)
    requires NoPlaceholder(str)
    ensures ReplaceInString(str, characterName, userName) == str
  {
    if str != "" {
      ReplaceAbsent(str, "{user}", userName, true);
      ReplaceAbsent(str, "{char}", characterName, true);
      ReplaceAbsent(str, "User", userName, false);
    }
  }

  /**
   * A `{user}` tag, in whatever case, becomes the user's name with its `$`
   * patterns expanded against the tag, which for a name without `$` is the
   * name itself.
   */
  lemma ReplaceUserTag(tag: string, characterName: string, userName: string)
    requires EqualsCI(tag, "{user}") && NoPlaceholder(ExpandReplacement(userName, tag, 0, 6))
    ensures ReplaceInString(tag, characterName, userName) == ExpandReplacement(userName, tag, 0, 6)
    ensures '$' !in userName ==> ReplaceInString(tag, characterName, userName) == userName
  {
    var expanded := ExpandReplacement(userName, tag, 0, 6);
    ReplaceWholeMatch(tag, "{user}", userName, true);
    ReplaceAbsent(expanded, "{char}", characterName, true);
    ReplaceAbsent(expanded, "User", userName, false);
  }

  /**
   * A `{char}` tag, in whatever case, becomes the character's name with its
   * `$` patterns expanded against the tag, which for a name without `$` is
   * the name itself.
   */
  lemma ReplaceCharTag(tag: string, characterName: string, userName: string)
    requires EqualsCI(tag, "{char}") && NoPlaceholder(ExpandReplacement(characterName, tag, 0, 6))
    ensures ReplaceInString(tag, characterName, userName) == ExpandReplacement(characterName, tag, 0, 6)
    ensures '$' !in characterName ==> ReplaceInString(tag, characterName, userName) == characterName
  {
    var expanded := ExpandReplacement(characterName, tag, 0, 6);
    assert !ContainsCI(tag, "{user}") by {
      forall i | 0 <= i <= |tag| - 6 ensures !OccursAtCI(tag, "{user}", i) {
        assert i == 0 && tag[0..6] == tag;
        assert AsciiLower(tag[1]) == 'c';
      }
    }
    ReplaceAbsent(tag, "{user}", userName, true);
    ReplaceWholeMatch(tag, "{char}", characterName, true);
    ReplaceAbsent(expanded, "User", userName, false);
  }

  /**
   * A user name `$&` puts every `{user}` and every `User` back as it was
   * written; only the character placeholders change.
   */
  lemma UserNameOfMatchPattern(str: string, characterName: string)
    ensures ReplaceInString(str, characterName, "$&")
              == if str == "" then "" else Replace(str, "{char}", characterName, true)
  {
    if str != "" {
      ReplaceByMatchKeeps(str, "{user}", 0, true);
      assert str[0..] == str;
      var twice := Replace(str, "{char}", characterName, true);
      ReplaceByMatchKeeps(twice, "User", 0, false);
      assert twice[0..] == twice;
    }
  }

  /** A user name `$$` puts a single `$` in place of a `{user}` tag. */
  lemma UserNameOfEscapedDollar(tag: string, characterName: string)
    requires EqualsCI(tag, "{user}")
    ensures ReplaceInString(tag, characterName, "$$") == "$"
  {
    assert ExpandReplacement("$$", tag, 0, 6) == "$";
    ReplaceUserTag(tag, characterName, "$$");
  }

  function OrEmpty<T>(list: Option<seq<T>>): seq<T>
  {
    match list case Some(l) => l case None => []
  }

  function ReplaceInCall(call: CallLog, characterName: string, userName: string): CallLog
  {
    call.(contact := ReplaceInString(call.contact, characterName, userName))
  }

  function ReplaceInMessage(msg: PhoneMessage, characterName: string, userName: string): PhoneMessage
  {
    msg.(contact := ReplaceInString(msg.contact, characterName, userName),
         preview := ReplaceInString(msg.preview, characterName, userName))
  }

  function ReplaceInNote(note: Note, characterName: string, userName: string): Note
  {
    note.(title := ReplaceInString(note.title, characterName, userName),
          content := ReplaceInString(note.content, characterName, userName))
  }

  /** A missing description reads as the empty text, which stays empty. */
  function ReplaceInEvent(event: CalendarEvent, characterName: string, userName: string): CalendarEvent
  {
    var description := match event.description case Some(d) => d case None => "";
    event.(title := ReplaceInString(event.title, characterName, userName),
           description := Some(ReplaceInString(description, characterName, userName)))
  }

  /**
   * `replaceNamePlaceholders`: every list is present afterwards (a missing
   * one becomes empty) and keeps its length, each entry at each position is
   * the entry there with its texts rewritten, and the generation time is
   * kept.
   */
  function ReplaceNamePlaceholders(content: PhoneContent, characterName: string, userName: string): (r: PhoneContent)
    ensures r.callLogs.Some? && |r.callLogs.value| == |OrEmpty(content.callLogs)|
    ensures r.messages.Some? && |r.messages.value| == |OrEmpty(content.messages)|
    ensures r.notes.Some? && |r.notes.value| == |OrEmpty(content.notes)|
    ensures r.calendar.Some? && |r.calendar.value| == |OrEmpty(content.calendar)|
    ensures forall i :: 0 <= i < |r.callLogs.value| ==>
              r.callLogs.value[i] == ReplaceInCall(OrEmpty(content.callLogs)[i], characterName, userName)
    ensures forall i :: 0 <= i < |r.messages.value| ==>
              r.messages.value[i] == ReplaceInMessage(OrEmpty(content.messages)[i], characterName, userName)
    ensures forall i :: 0 <= i < |r.notes.value| ==>
              r.notes.value[i] == ReplaceInNote(OrEmpty(content.notes)[i], characterName, userName)
    ensures forall i :: 0 <= i < |r.calendar.value| ==>
              r.calendar.value[i] == ReplaceInEvent(OrEmpty(content.calendar)[i], characterName, userName)
    ensures r.generatedAt == content.generatedAt
  {
    var calls := OrEmpty(content.callLogs);
    var msgs := OrEmpty(content.messages);
    var notes := OrEmpty(content.notes);
    var events := OrEmpty(content.calendar);
    PhoneContent(
      Some(seq(|calls|, i requires 0 <= i < |calls| => ReplaceInCall(calls[i], characterName, userName))),
      Some(seq(|msgs|, i requires 0 <= i < |msgs| => ReplaceInMessage(msgs[i], characterName, userName))),
      Some(seq(|notes|, i requires 0 <= i < |notes| => ReplaceInNote(notes[i], characterName, userName))),
      Some(seq(|events|, i requires 0 <= i < |events| => ReplaceInEvent(events[i], characterName, userName))),
      content.generatedAt)
  }

  /**
   * Only the texts are rewritten: call types, durations, draft and unsent
   * flags, categories, dates, times, event types and timestamps are kept,
   * and every event ends up with a description.
   */
  lemma ReplaceKeepsTheRest(content: PhoneContent, characterName: string, userName: string)
    ensures var r := ReplaceNamePlaceholders(content, characterName, userName);
            (forall i :: 0 <= i < |r.callLogs.value| ==>
               var a := r.callLogs.value[i]; var b := OrEmpty(content.callLogs)[i];
               a.kind == b.kind && a.duration == b.duration && a.timestamp == b.timestamp) &&
            (forall i :: 0 <= i < |r.messages.value| ==>
               var a := r.messages.value[i]; var b := OrEmpty(content.messages)[i];
               a.isDraft == b.isDraft && a.isUnsent == b.isUnsent && a.timestamp == b.timestamp) &&
            (forall i :: 0 <= i < |r.notes.value| ==>
               var a := r.notes.value[i]; var b := OrEmpty(content.notes)[i];
               a.category == b.category && a.timestamp == b.timestamp) &&
            (forall i :: 0 <= i < |r.calendar.value| ==>
               var a := r.calendar.value[i]; var b := OrEmpty(content.calendar)[i];
               a.date == b.date && a.time == b.time && a.kind == b.kind && a.description.Some?)
  {
  }

  predicate PlainCall(c: CallLog) { NoPlaceholder(c.contact) }
  predicate PlainMessage(m: PhoneMessage) { NoPlaceholder(m.contact) && NoPlaceholder(m.preview) }
  predicate PlainNote(n: Note) { NoPlaceholder(n.title) && NoPlaceholder(n.content) }
  predicate PlainEvent(e: CalendarEvent)
  {
    NoPlaceholder(e.title) && e.description.Some? && NoPlaceholder(e.description.value)
  }

  /** Complete content without a placeholder anywhere comes back unchanged. */
  lemma ReplaceKeepsPlainContent(content: PhoneContent, characterName: string, userName: string)
    requires content.callLogs.Some? && content.messages.Some? && content.notes.Some? && content.calendar.Some?
    requires forall i :: 0 <= i < |content.callLogs.value| ==> PlainCall(content.callLogs.value[i])
    requires forall i :: 0 <= i < |content.messages.value| ==> PlainMessage(content.messages.value[i])
    requires forall i :: 0 <= i < |content.notes.value| ==> PlainNote(content.notes.value[i])
    requires forall i :: 0 <= i < |content.calendar.value| ==> PlainEvent(content.calendar.value[i])
    ensures ReplaceNamePlaceholders(content, characterName, userName) == content
  {
    var r := ReplaceNamePlaceholders(content, characterName, userName);
    forall i | 0 <= i < |content.callLogs.value|
      ensures r.callLogs.value[i] == content.callLogs.value[i]
    {
      ReplaceKeepsPlainText(content.callLogs.value[i].contact, characterName, userName);
    }
    forall i | 0 <= i < |content.messages.value|
      ensures r.messages.value[i] == content.messages.value[i]
    {
      var m := content.messages.value[i];
      ReplaceKeepsPlainText(m.contact, characterName, userName);
      ReplaceKeepsPlainText(m.preview, characterName, userName);
    }
    forall i | 0 <= i < |content.notes.value|
      ensures r.notes.value[i] == content.notes.value[i]
    {
      var n := content.notes.value[i];
      ReplaceKeepsPlainText(n.title, characterName, userName);
      ReplaceKeepsPlainText(n.content, characterName, userName);
    }
    forall i | 0 <= i < |content.calendar.value|
      ensures r.calendar.value[i] == content.calendar.value[i]
    {
      var e := content.calendar.value[i];
      ReplaceKeepsPlainText(e.title, characterName, userName);
      ReplaceKeepsPlainText(e.description.value, characterName, userName);
    }
    assert r.callLogs.value == content.callLogs.value;
    assert r.messages.value == content.messages.value;
    assert r.notes.value == content.notes.value;
    assert r.calendar.value == content.calendar.value;
  }
}
