/**
 * The model selector: a message of a hundred words or more is "long" and is
 * answered by the long-form model list, anything shorter by the short-form
 * list; each list is handed out sorted by priority, and the category also
 * fixes the narrative instruction, the token budget and the temperature.
 */
module ModelSelector {
  import opened Common

  datatype MessageCategory = Short | Long

  datatype VietnameseQuality = Excellent | Good | Ok

  datatype ModelConfig = ModelConfig(
    provider: string,
    modelName: string,
    displayName: string,
    maxTokens: int,
    contextWindow: int,
    vietnameseQuality: VietnameseQuality,
    isFree: bool,
    priority: int)

  const LongFormModels: seq<ModelConfig> := [
    ModelConfig("silicon", "Qwen/Qwen2.5-32B-Instruct", "Qwen 2.5 32B (SiliconFlow)", 4000, 32768, Excellent, true, 1),
    ModelConfig("silicon", "deepseek-ai/DeepSeek-V3", "DeepSeek V3 (SiliconFlow)", 4000, 65536, Excellent, true, 2),
    ModelConfig("gemini", "gemini-2.5-flash", "Gemini 2.5 Flash", 8000, 1000000, Good, true, 3),
    ModelConfig("moonshot", "moonshot-v1-128k", "Moonshot V1 128K", 4000, 131072, Ok, true, 4)]

  const ShortFormModels: seq<ModelConfig> := [
    ModelConfig("silicon", "deepseek-ai/DeepSeek-V3", "DeepSeek V3 (SiliconFlow)", 800, 65536, Excellent, true, 1),
    ModelConfig("silicon", "Qwen/Qwen2.5-7B-Instruct", "Qwen 2.5 7B (SiliconFlow)", 800, 32768, Excellent, true, 2),
    ModelConfig("gemini", "gemini-2.5-flash", "Gemini 2.5 Flash", 800, 1000000, Good, true, 3),
    ModelConfig("openrouter", "openai/gpt-oss-120b", "GPT OSS 120B (OpenRouter)", 800, 8192, Ok, true, 4)]

  const LongFormThreshold: nat := 100

  // ---------------------------------------------------------------------
  // Counting words
  // ---------------------------------------------------------------------

  /**
   * `s.split(/\s+/)`: the pieces between the maximal runs of whitespace,
   * with an empty piece before a leading run and after a trailing one.
   */
  function SplitOnSpace(s: string): (r: seq<string>)
    ensures |r| >= 1
    decreases |s|
  {
    if |s| == 0 then [""]
    else if IsSpace(s[0]) then [""] + SplitOnSpace(s[SkipSpace(s, 0)..])
    else var rest := SplitOnSpace(s[1..]); [[s[0]] + rest[0]] + rest[1..]
  }

  /** `parts.filter(w => w.length > 0)`. */
  function NonEmpty(parts: seq<string>): (r: seq<string>)
    ensures |r| <= |parts|
  {
    if |parts| == 0 then []
    else (if |parts[0]| > 0 then [parts[0]] else []) + NonEmpty(parts[1..])
  }

  /** `getWordCount`: the number of maximal runs of non-whitespace characters. */
  function GetWordCount(message: string): (n: nat)
    ensures n == WordStarts(message, true)
  {
    SplitCountsWords(Trim(message));
    TrimKeepsWordStarts(message);
    |NonEmpty(SplitOnSpace(Trim(message)))|
  }

  /**
   * The reference count: the positions holding a non-whitespace character
   * right after whitespace (or, when `afterSpace` holds, after the start).
   */
  function WordStarts(s: string, afterSpace: bool): nat
  {
    if |s| == 0 then 0
    else (if afterSpace && !IsSpace(s[0]) then 1 else 0) + WordStarts(s[1..], IsSpace(s[0]))
  }

  /** Leading whitespace adds no word, and the word after it starts a new one. */
  lemma {:induction false} SkippedSpaces(s: string, k: nat, afterSpace: bool)
    requires 1 <= k <= |s| && forall m :: 0 <= m < k ==> IsSpace(s[m])
    ensures WordStarts(s, afterSpace) == WordStarts(s[k..], true)
    decreases k
  {
    if k > 1 {
      SkippedSpaces(s[1..], k - 1, true);
      assert s[1..][k - 1..] == s[k..];
    }
  }

  lemma {:induction false} AllSpaceNoStarts(s: string, afterSpace: bool)
    requires AllSpace(s)
    ensures WordStarts(s, afterSpace) == 0
  {
    if |s| > 0 {
      AllSpaceNoStarts(s[1..], true);
    }
  }

  /** Trailing whitespace adds no word. */
  lemma {:induction false} TrailingSpaces(x: string, y: string, afterSpace: bool)
    requires AllSpace(y)
    ensures WordStarts(x + y, afterSpace) == WordStarts(x, afterSpace)
    decreases |x|
  {
    if |x| == 0 {
      assert x + y == y;
      AllSpaceNoStarts(y, afterSpace);
    } else {
      assert (x + y)[1..] == x[1..] + y;
      TrailingSpaces(x[1..], y, IsSpace(x[0]));
    }
  }

  /**
   * Splitting on whitespace and dropping the empty pieces leaves one piece
   * per word start (and, past the first piece, one per word start after it).
   */
  lemma {:induction false} SplitCountsWords(s: string)
    ensures |NonEmpty(SplitOnSpace(s))| == WordStarts(s, true)
    ensures |NonEmpty(SplitOnSpace(s)[1..])| == WordStarts(s, false)
    decreases |s|
  {
    if |s| > 0 {
      if IsSpace(s[0]) {
        var k := SkipSpace(s, 0);
        SkipSpaceSkipsSpaces(s, 0);
        var t := s[k..];
        SplitCountsWords(t);
        var parts := [""] + SplitOnSpace(t);
        assert parts[1..] == SplitOnSpace(t);
        assert NonEmpty(parts) == NonEmpty(SplitOnSpace(t));
        SkippedSpaces(s, k, true);
        SkippedSpaces(s, k, false);
      } else {
        var rest := SplitOnSpace(s[1..]);
        SplitCountsWords(s[1..]);
        var parts := [[s[0]] + rest[0]] + rest[1..];
        assert parts[1..] == rest[1..];
      }
    }
  }

  /** Trimming first changes no count. */
  lemma TrimKeepsWordStarts(s: string)
    ensures WordStarts(Trim(s), true) == WordStarts(s, true)
  {
    var a := SkipSpace(s, 0);
    SkipSpaceSkipsSpaces(s, 0);
    if a == |s| {
      AllSpaceNoStarts(s, true);
    } else {
      var b := BackSpace(s, a, |s|);
      BackSpaceSkipsSpaces(s, a, |s|);
      if a > 0 {
        SkippedSpaces(s, a, true);
      }
      assert s[a..] == s[a..b] + s[b..];
      TrailingSpaces(s[a..b], s[b..], true);
    }
  }

  /** Only a blank message has no words. */
  lemma NoWordsIffBlank(message: string)
    ensures GetWordCount(message) == 0 <==> AllSpace(message)
  {
    if AllSpace(message) {
      AllSpaceNoStarts(message, true);
    } else {
      var k := SkipSpace(message, 0);
      SkipSpaceSkipsSpaces(message, 0);
      assert k < |message|;
      if k > 0 {
        SkippedSpaces(message, k, true);
      }
    }
  }

  /** `detectMessageCategory`. */
  function DetectMessageCategory(message: string): (c: MessageCategory)
    ensures c == Long <==> GetWordCount(message) >= LongFormThreshold
  {
    var wordCount := |NonEmpty(SplitOnSpace(Trim(message)))|;
    if wordCount >= LongFormThreshold then Long else Short
  }

  /** A message is long exactly when it has a hundred runs of non-whitespace characters or more. */
  lemma LongIffHundredWords(message: string)
    ensures DetectMessageCategory(message) == Long <==> WordStarts(message, true) >= LongFormThreshold
  {
  }

  // ---------------------------------------------------------------------
  // Model lists
  // ---------------------------------------------------------------------

  predicate SortedByPriority(s: seq<ModelConfig>)
  {
    forall i, j :: 0 <= i < j < |s| ==> s[i].priority <= s[j].priority
  }

  /** Both built-in lists hold priorities 1 to 4 in order, so sorting leaves them as declared. */
  lemma BuiltInListsSorted()
    ensures |LongFormModels| == 4 && forall i :: 0 <= i < 4 ==> LongFormModels[i].priority == i + 1
    ensures |ShortFormModels| == 4 && forall i :: 0 <= i < 4 ==> ShortFormModels[i].priority == i + 1
    ensures SortedByPriority(LongFormModels) && SortedByPriority(ShortFormModels)
  {
  }

  /**
   * `Array.prototype.sort` with `(a, b) => a.priority - b.priority`, as an
   * insertion sort that moves an entry only past a strictly larger
   * priority, so an already sorted array is left as it is.
   */
  method SortByPriority(a: array<ModelConfig>)
    modifies a
    ensures SortedByPriority(a[..])
    ensures multiset(a[..]) == multiset(old(a[..]))
    ensures SortedByPriority(old(a[..])) ==> a[..] == old(a[..])
  {
    var i := 0;
    while i < a.Length
      invariant 0 <= i <= a.Length
      invariant SortedByPriority(a[..i])
      invariant multiset(a[..]) == multiset(old(a[..]))
      invariant SortedByPriority(old(a[..])) ==> a[..] == old(a[..])
    {
      InsertLast(a, i);
      i := i + 1;
    }
    assert a[..a.Length] == a[..];
  }

  /** One insertion step: `a[i]` moves left past every strictly larger priority. */
  method InsertLast(a: array<ModelConfig>, i: nat)
    requires i < a.Length && SortedByPriority(a[..i])
    modifies a
    ensures SortedByPriority(a[..i + 1])
    ensures multiset(a[..]) == multiset(old(a[..]))
    ensures SortedByPriority(old(a[..i + 1])) ==> a[..] == old(a[..])
  {
    var j := i;
    InsertionStart(a[..], i);
    while j > 0 && a[j - 1].priority > a[j].priority
      invariant 0 <= j <= i
      invariant multiset(a[..]) == multiset(old(a[..]))
      invariant SortedAround(a[..], j, i)
      invariant j == i ==> a[..] == old(a[..])
      invariant j < i ==> old(a[i - 1]).priority > old(a[i]).priority
    {
      ghost var before := a[..];
      SwapWithPrevious(a, j);
      assert a[..] == before[j - 1 := before[j]][j := before[j - 1]];
      SwapKeepsSortedAround(before, j, i);
      j := j - 1;
    }
    InsertionDone(a[..], j, i);
    assert j < i ==> old(a[..i + 1])[i - 1] == old(a[i - 1]) && old(a[..i + 1])[i] == old(a[i]);
  }

  /**
   * The first `i + 1` entries are in order except that the one at `j` may
   * be out of place with those before it.
   */
  ghost predicate SortedAround(s: seq<ModelConfig>, j: nat, i: nat)
    requires j <= i < |s|
  {
    (forall k, l :: 0 <= k < l <= i && l != j ==> s[k].priority <= s[l].priority) &&
    (forall k, l :: 0 <= k < j < l <= i ==> s[k].priority <= s[l].priority)
  }

  lemma InsertionStart(s: seq<ModelConfig>, i: nat)
    requires i < |s| && SortedByPriority(s[..i])
    ensures SortedAround(s, i, i)
  {
    assert forall k :: 0 <= k < i ==> s[..i][k] == s[k];
  }

  lemma SwapKeepsSortedAround(s: seq<ModelConfig>, j: nat, i: nat)
    requires 0 < j <= i < |s| && SortedAround(s, j, i) && s[j - 1].priority > s[j].priority
    ensures SortedAround(s[j - 1 := s[j]][j := s[j - 1]], j - 1, i)
  {
  }

  lemma InsertionDone(s: seq<ModelConfig>, j: nat, i: nat)
    requires j <= i < |s| && SortedAround(s, j, i)
    requires j == 0 || s[j - 1].priority <= s[j].priority
    ensures SortedByPriority(s[..i + 1])
  {
  }

  method SwapWithPrevious(a: array<ModelConfig>, j: nat)
    requires 0 < j < a.Length
    modifies a
    ensures a[j - 1] == old(a[j]) && a[j] == old(a[j - 1])
    ensures forall k :: 0 <= k < a.Length && k != j - 1 && k != j ==> a[k] == old(a[k])
    ensures multiset(a[..]) == multiset(old(a[..]))
  {
    a[j - 1], a[j] := a[j], a[j - 1];
  }


  /** The two module-level lists, which `selectModelConfig` sorts in place and hands out. */
  class ModelLists {
    const longFormModels: array<ModelConfig>
    const shortFormModels: array<ModelConfig>

    predicate Valid()
    {
      longFormModels != shortFormModels
    }

    constructor()
      ensures Valid()
      ensures longFormModels[..] == LongFormModels && shortFormModels[..] == ShortFormModels
    {
      longFormModels := new ModelConfig[|LongFormModels|](i requires 0 <= i < |LongFormModels| => LongFormModels[i]);
      shortFormModels := new ModelConfig[|ShortFormModels|](i requires 0 <= i < |ShortFormModels| => ShortFormModels[i]);
    }

    /**
     * `selectModelConfig`: the category's list, sorted by priority in place;
     * the caller receives the module's own array, and the other list is not
     * touched.
     */
    method SelectModelConfig(category: MessageCategory) returns (models: array<ModelConfig>)
      requires Valid()
      modifies longFormModels, shortFormModels
      ensures models == (if category == Long then longFormModels else shortFormModels)
      ensures SortedByPriority(models[..])
      ensures multiset(models[..]) == multiset(old(models[..]))
      ensures SortedByPriority(old(models[..])) ==> models[..] == old(models[..])
      ensures unchanged(if category == Long then shortFormModels else longFormModels)
    {
      models := if category == Long then longFormModels else shortFormModels;
      SortByPriority(models);
    }

    /**
     * `selectModelForMessage`: a forced category wins over detection, while
     * the word count is always the message's own.
     */
    method SelectModelForMessage(message: string, forceCategory: Option<MessageCategory>)
      returns (category: MessageCategory, models: array<ModelConfig>, wordCount: nat)
      requires Valid()
      modifies longFormModels, shortFormModels
      ensures category == (match forceCategory case Some(c) => c case None => DetectMessageCategory(message))
      ensures wordCount == GetWordCount(message)
      ensures models == (if category == Long then longFormModels else shortFormModels)
      ensures SortedByPriority(models[..])
      ensures multiset(models[..]) == multiset(old(models[..]))
      ensures unchanged(if category == Long then shortFormModels else longFormModels)
    {
      wordCount := GetWordCount(message);
      category := match forceCategory case Some(c) => c case None => DetectMessageCategory(message);
      models := SelectModelConfig(category);
    }
  }

  // ---------------------------------------------------------------------
  // Instructions and parameters
  // ---------------------------------------------------------------------

  const LongEnglishInstruction: string := "\n\U{1F3AC} LONG-FORM NARRATIVE MODE\n\nUser is writing a long message (≥100 words) - This is story mode or detailed roleplay.\n\nRESPONSE GUIDELINES:\n- Length: 3-5 detailed paragraphs (300-500 words)\n- Style: Descriptive, narrative, storytelling\n- Content:\n  * Describe scenes, atmosphere, emotions in detail\n  * Express character's inner thoughts\n  * Use long, complex, literary sentences\n  * Create vivid imagery for the reader\n- Match user's level of detail and emotion!\n\nExample style:\n\"The afternoon sunlight filtered through the window, casting shimmering streaks across the wooden floor. She sat there, fingers trembling, eyes following every line of the message he had just sent. Her heart beat faster, a mix of happiness and anxiety. She knew she had to reply, but the words kept swirling in her mind, refusing to form proper sentences...\"\n"

  const LongVietnameseInstruction: string := "\n\U{1F3AC} CHẾ ĐỘ TRUYỆN DÀI (LONG-FORM NARRATIVE MODE)\n\nUser đang viết tin nhắn dài (≥100 từ) - Đây là story mode hoặc roleplay chi tiết.\n\nQUY TẮC TRẢ LỜI:\n- Độ dài: 3-5 đoạn văn chi tiết (300-500 từ)\n- Phong cách: Mô tả, kể chuyện, văn học\n- Nội dung:\n  * Mô tả cảnh, không khí, cảm xúc chi tiết\n  * Diễn tả suy nghĩ nội tâm của nhân vật\n  * Dùng câu văn dài, phức tạp, văn chương\n  * Tạo hình ảnh sống động cho reader\n- Phải MATCH với độ dài và chi tiết của user!\n\nVí dụ phong cách:\n\"Ánh nắng chiều hắt qua khung cửa sổ, vẽ những vệt sáng lấp lánh trên sàn gỗ. Em ngồi đó, ngón tay run run, ánh mắt dõi theo từng dòng chữ anh vừa gửi. Tim em đập nhanh hơn, một cảm giác lẫn lộn giữa hạnh phúc và lo lắng. Em biết em phải trả lời, nhưng những từ ngữ cứ mãi lẩn quẩn trong đầu, không chịu sắp xếp thành câu...\"\n"

  const ShortEnglishInstruction: string := "\n\U{1F4AC} CASUAL CHAT MODE\n\nUser is chatting normally (<100 words).\n\nRESPONSE GUIDELINES:\n- Length: 1-2 short paragraphs (50-150 words)\n- Style: Conversational, friendly, natural\n- Content: Direct response, don't ramble\n- Keep it casual, like everyday texting\n\nExample style:\n\"Hmm, I understand! Don't worry, I'll try to find time to meet you this weekend. I miss you too \U{1F60A}\"\n"

  const ShortVietnameseInstruction: string := "\n\U{1F4AC} CHẾ ĐỘ CHAT THƯỜNG\n\nUser đang chat thông thường (<100 từ).\n\nQUY TẮC TRẢ LỜI:\n- Độ dài: 1-2 đoạn ngắn (50-150 từ)\n- Phong cách: Hội thoại, thân thiện, tự nhiên\n- Nội dung: Trả lời trực tiếp, không lan man\n- Giữ casual như chat hàng ngày\n\nVí dụ phong cách:\n\"Ừm, em hiểu rồi! Anh đừng lo, em sẽ cố gắng sắp xếp thời gian để gặp anh cuối tuần này. Em cũng nhớ anh lắm đấy \U{1F60A}\"\n"

  datatype Language = English | Vietnamese

  /** Which of the four instructions applies. */
  datatype NarrativeInstruction = NarrativeInstruction(category: MessageCategory, language: Language)

  /** The category's instruction, in English exactly for the language code `en` and in Vietnamese otherwise. */
  function SelectInstruction(category: MessageCategory, userLanguage: string): (i: NarrativeInstruction)
    ensures i.category == category
    ensures i.language == English <==> userLanguage == "en"
  {
    NarrativeInstruction(category, if userLanguage == "en" then English else Vietnamese)
  }

  function InstructionText(i: NarrativeInstruction): string
  {
    match i
    case NarrativeInstruction(Long, English) => LongEnglishInstruction
    case NarrativeInstruction(Long, Vietnamese) => LongVietnameseInstruction
    case NarrativeInstruction(Short, English) => ShortEnglishInstruction
    case NarrativeInstruction(Short, Vietnamese) => ShortVietnameseInstruction
  }

  /**
   * `getNarrativeInstruction`: the category's English text exactly for the
   * code `en`, and its Vietnamese text for every other code.
   */
  function GetNarrativeInstruction(category: MessageCategory, userLanguage: string): (r: string)
    ensures r == InstructionText(NarrativeInstruction(category, English)) <==> userLanguage == "en"
    ensures r == InstructionText(NarrativeInstruction(category, Vietnamese)) <==> userLanguage != "en"
  {
    InstructionsDiffer(category);
    InstructionText(SelectInstruction(category, userLanguage))
  }

  /** The two languages' texts of a category are different texts. */
  lemma InstructionsDiffer(category: MessageCategory)
    ensures InstructionText(NarrativeInstruction(category, English)) != InstructionText(NarrativeInstruction(category, Vietnamese))
  {
    if category == Long {
      assert |LongEnglishInstruction| != |LongVietnameseInstruction|;
    } else {
      assert |ShortEnglishInstruction| != |ShortVietnameseInstruction|;
    }
  }

  /**
   * `getRecommendedMaxTokens`: the token budget of the category's
   * first-priority model, which no model of that category goes below.
   */
  function GetRecommendedMaxTokens(category: MessageCategory): (n: int)
    ensures var models := if category == Long then LongFormModels else ShortFormModels;
            n == models[0].maxTokens && forall i :: 0 <= i < |models| ==> n <= models[i].maxTokens
  {
    if category == Long then 4000 else 800
  }

  /** `getRecommendedTemperature`: slightly warmer for storytelling. */
  function GetRecommendedTemperature(category: MessageCategory): (t: real)
    ensures 0.7 <= t <= 0.8
    ensures t > 0.7 <==> category == Long
  {
    if category == Long then 0.8 else 0.7
  }
}
