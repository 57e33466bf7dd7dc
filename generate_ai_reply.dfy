/**
 * The phone screen's AI reply endpoint (`POST /api/phone/generate-ai-reply`)
 * without its database and network calls: the sentiment block read from
 * the model's answer, the template replies of notification contacts, the
 * cooldown gates that decide whether a reply is generated, and the reply
 * that is finally saved.  `JSON.parse` is a parameter; the clock is a
 * number of milliseconds.
 */
module GenerateAiReply {
  import opened Common
  import PronounValidator

  // ---------------------------------------------------------------------
  // The sentiment block
  // ---------------------------------------------------------------------

  /** The key the pattern looks for, quotes included. */
  const ImpactKey: string := "\"impact\""

  /** The last `"impact"` (any ASCII case) that ends at or before position `limit`. */
  function LastImpactBefore(s: string, limit: nat): (p: Option<nat>)
    requires limit <= |s|
    ensures p.Some? ==> p.value + |ImpactKey| <= limit && OccursAtCI(s, ImpactKey, p.value)
    ensures p.Some? ==> forall q :: p.value < q && q + |ImpactKey| <= limit ==> !OccursAtCI(s, ImpactKey, q)
    ensures p.None? ==> forall q :: 0 <= q && q + |ImpactKey| <= limit ==> !OccursAtCI(s, ImpactKey, q)
    decreases limit
  {
    if limit < |ImpactKey| then None
    else if OccursAtCI(s, ImpactKey, limit - |ImpactKey|) then Some(limit - |ImpactKey|)
    else LastImpactBefore(s, limit - 1)
  }

  /** The first `{` before position `bound`. */
  function FirstOpenBefore(s: string, bound: nat): (k: Option<nat>)
    requires bound <= |s|
    ensures k.Some? ==> k.value < bound && s[k.value] == '{' && forall j :: 0 <= j < k.value ==> s[j] != '{'
    ensures k.None? ==> forall j :: 0 <= j < bound ==> s[j] != '{'
  {
    match IndexOfChar(s[..bound], '{')
    case None => None
    case Some(k) => Some(k)
  }

  /** The start of a match and the position just after it. */
  datatype Span = Span(start: nat, end: nat)

  /**
   * `/(\{[\s\S]*"impact"[\s\S]*\})/i`: the start and end of the match. The
   * greedy parts take it from the first `{` that has a `"impact"` after it
   * (with a `}` after that) to the last `}` of the text.  No `{` stands
   * before the match, so the first occurrence of the matched text, which
   * the route removes, is the match itself.
   */
  function DeepMatch(s: string): (m: Option<Span>)
    ensures m.Some? ==> m.value.start < m.value.end <= |s|
  {
    match LastIndexOfChar(s, '}')
    case None => None
    case Some(close) =>
      match LastImpactBefore(s, close)
      case None => None
      case Some(p) =>
        match FirstOpenBefore(s, p)
        case None => None
        case Some(i) => Some(Span(i, close + 1))
  }

  /**
   * A match runs from a `{` with none before it to the last `}` of the
   * text, with an `"impact"` between them; without a match no `{`,
   * `"impact"` and `}` stand in that order.
   */
  lemma DeepMatchShape(s: string)
    ensures DeepMatch(s).Some? ==> var Span(i, e) := DeepMatch(s).value;
            s[i] == '{' && s[e - 1] == '}' &&
            (forall j :: 0 <= j < i ==> s[j] != '{') &&
            (forall j :: e <= j < |s| ==> s[j] != '}') &&
            (exists p :: i < p && p + |ImpactKey| < e && OccursAtCI(s, ImpactKey, p))
    ensures DeepMatch(s).None? ==> forall i, p, q :: 0 <= i < p && p + |ImpactKey| <= q < |s| && s[i] == '{' && s[q] == '}' ==>
                                                !OccursAtCI(s, ImpactKey, p)
  {
  }

  /**
   * A reply followed by a metadata block: the match is exactly the block,
   * whatever the reply says, provided it opens no brace.
   */
  lemma BlockAfterReplyFound(raw: string, n: nat)
    requires n < |raw| && raw[n] == '{' && raw[|raw| - 1] == '}'
    requires forall j :: 0 <= j < n ==> raw[j] != '{'
    requires exists q :: n < q && q + |ImpactKey| < |raw| && OccursAtCI(raw, ImpactKey, q)
    ensures DeepMatch(raw) == Some(Span(n, |raw|))
  {
    DeepMatchShape(raw);
    var q :| n < q && q + |ImpactKey| < |raw| && OccursAtCI(raw, ImpactKey, q);
    assert raw[n] == '{' && OccursAtCI(raw, ImpactKey, q) && raw[|raw| - 1] == '}';
  }

  /** `.replace(/,\s*}/g, '}')`: a comma followed only by whitespace before a `}` is dropped. */
  function RemoveTrailingCommas(s: string): (r: string)
    ensures |r| <= |s|
    decreases |s|
  {
    if |s| == 0 then ""
    else if s[0] == ',' && SkipSpace(s, 1) < |s| && s[SkipSpace(s, 1)] == '}' then
      "}" + RemoveTrailingCommas(s[SkipSpace(s, 1) + 1..])
    else [s[0]] + RemoveTrailingCommas(s[1..])
  }

  /** A text without commas is left as it is. */
  lemma {:induction false} NoCommaUnchanged(s: string)
    requires !ContainsChar(s, ',')
    ensures RemoveTrailingCommas(s) == s
    decreases |s|
  {
    if |s| > 0 {
      assert s[0] != ',';
      assert !ContainsChar(s[1..], ',') by {
        forall j | 0 <= j < |s[1..]| ensures s[1..][j] != ',' { assert s[1..][j] == s[j + 1]; }
      }
      NoCommaUnchanged(s[1..]);
      assert s == [s[0]] + s[1..];
    }
  }

  /** A comma with only whitespace before a `}` is dropped along with that whitespace, and the repair goes on after the brace. */
  lemma TrailingCommaDropped(ws: string, rest: string)
    requires forall k :: 0 <= k < |ws| ==> IsSpace(ws[k])
    ensures RemoveTrailingCommas("," + ws + "}" + rest) == "}" + RemoveTrailingCommas(rest)
  {
    var s := "," + ws + "}" + rest;
    assert forall k :: 1 <= k < 1 + |ws| ==> s[k] == ws[k - 1];
    assert s[1 + |ws|] == '}';
    SkipSpaceOver(s, 1, |ws|);
    assert s[1 + |ws| + 1..] == rest;
  }

  /** A comma whose whitespace run is followed by anything but `}`, or by the end, is kept. */
  lemma CommaKept(ws: string, rest: string)
    requires forall k :: 0 <= k < |ws| ==> IsSpace(ws[k])
    requires |rest| == 0 || (!IsSpace(rest[0]) && rest[0] != '}')
    ensures RemoveTrailingCommas("," + ws + rest) == "," + RemoveTrailingCommas(ws + rest)
  {
    var t := ws + rest;
    var s := "," + t;
    assert "," + ws + rest == s;
    var k := 1 + |ws|;
    assert forall j :: 1 <= j < k ==> s[j] == ws[j - 1];
    assert k == |s| || (s[k] == rest[0] && !IsSpace(s[k]) && s[k] != '}');
    SkipSpaceOver(s, 1, |ws|);
    LoneCommaKept(s);
    assert s[1..] == t;
  }

  lemma LoneCommaKept(s: string)
    requires |s| > 0 && s[0] == ',' && !(SkipSpace(s, 1) < |s| && s[SkipSpace(s, 1)] == '}')
    ensures RemoveTrailingCommas(s) == "," + RemoveTrailingCommas(s[1..])
  {
  }

  /** A character other than a comma is kept. */
  lemma OtherCharacterKept(c: char, rest: string)
    requires c != ','
    ensures RemoveTrailingCommas([c] + rest) == [c] + RemoveTrailingCommas(rest)
  {
    assert ([c] + rest)[1..] == rest;
  }

  /** A prefix without commas is kept, and the repair goes on behind it. */
  lemma {:induction false} CommaFreePrefixKept(a: string, rest: string)
    requires !ContainsChar(a, ',')
    ensures RemoveTrailingCommas(a + rest) == a + RemoveTrailingCommas(rest)
    decreases |a|
  {
    if |a| > 0 {
      assert a[0] != ',';
      assert !ContainsChar(a[1..], ',') by {
        forall j | 0 <= j < |a[1..]| ensures a[1..][j] != ',' { assert a[1..][j] == a[j + 1]; }
      }
      assert a + rest == [a[0]] + (a[1..] + rest);
      OtherCharacterKept(a[0], a[1..] + rest);
      CommaFreePrefixKept(a[1..], rest);
      var c, tail, t := a[0], a[1..], RemoveTrailingCommas(rest);
      assert [c] + (tail + t) == a + t;
    } else {
      assert a + rest == rest;
    }
  }

  /** The block `{"impact": 1, }` is repaired to `{"impact": 1}`. */
  lemma TrailingCommaRepaired()
    ensures RemoveTrailingCommas("{\"impact\": 1, }") == "{\"impact\": 1}"
  {
    var head := "{\"impact\": 1";
    assert "{\"impact\": 1, }" == head + ("," + " " + "}" + "");
    assert !ContainsChar(head, ',') by {
      forall j | 0 <= j < |head| ensures head[j] != ',' { }
    }
    CommaFreePrefixKept(head, "," + " " + "}" + "");
    TrailingCommaDropped(" ", "");
    assert head + "}" == "{\"impact\": 1}";
  }

  /** Not a comma and not whitespace: the characters the repair never touches. */
  predicate IsKept(c: char)
  {
    c != ',' && !IsSpace(c)
  }

  /** Only commas and whitespace are removed: every other character is kept, in order. */
  lemma {:induction false} RemoveTrailingCommasKeepsTheRest(s: string)
    ensures Filter(RemoveTrailingCommas(s), IsKept) == Filter(s, IsKept)
    decreases |s|
  {
    if |s| > 0 {
      var k := SkipSpace(s, 1);
      var r := RemoveTrailingCommas(s[1..]);
      if s[0] == ',' && k < |s| && s[k] == '}' {
        var tail := RemoveTrailingCommas(s[k + 1..]);
        RemoveTrailingCommasKeepsTheRest(s[k + 1..]);
        SkipSpaceSkipsSpaces(s, 1);
        assert s == s[..k] + ([s[k]] + s[k + 1..]);
        FilterAppend(s[..k], [s[k]] + s[k + 1..], IsKept);
        FilterDropsAll(s[..k], IsKept);
        FilterAppend([s[k]], s[k + 1..], IsKept);
        FilterAppend("}", tail, IsKept);
      } else {
        RemoveTrailingCommasKeepsTheRest(s[1..]);
        assert s == [s[0]] + s[1..];
        FilterAppend([s[0]], s[1..], IsKept);
        FilterAppend([s[0]], r, IsKept);
      }
    }
  }

  /** The fields of the parsed block: a numeric impact and a reaction string, each when present. */
  datatype Sentiment = Sentiment(impact: Option<real>, reaction: Option<string>)

  /** The reply with its metadata taken out, the impact and the reaction. */
  datatype Parsed = Parsed(cleanedReply: string, impactScore: real, reactionType: string)

  /** Code fences removed (`json` fences in any case), then trimmed. */
  function StripFences(text: string): string
  {
    Trim(ReplaceAll(ReplaceAllCI(text, "```json", ""), "```", ""))
  }

  /** The text around the block, trimmed, then without its code fences. */
  function WithoutBlock(raw: string, i: nat, e: nat): string
    requires i <= e <= |raw|
  {
    StripFences(Trim(raw[..i] + raw[e..]))
  }

  /**
   * `parseAIResponseWithSentiment`: without a block, or when it does not
   * parse, the text is returned unchanged with impact 0 and reaction NONE;
   * otherwise the impact is clamped to [-5, 5], a non-empty reaction is
   * upper-cased, and the block and code fences are removed from the text.
   */
  function SentimentOf(raw: string, parseJson: string -> Option<Sentiment>): (r: Parsed)
    ensures -5.0 <= r.impactScore <= 5.0
    ensures DeepMatch(raw).None? ==> r == Parsed(raw, 0.0, "NONE")
  {
    match DeepMatch(raw)
    case None => Parsed(raw, 0.0, "NONE")
    case Some(Span(i, e)) =>
      match parseJson(RemoveTrailingCommas(raw[i..e]))
      case None => Parsed(raw, 0.0, "NONE")
      case Some(md) =>
        Parsed(WithoutBlock(raw, i, e),
               if md.impact.Some? then ClampReal(md.impact.value, -5.0, 5.0) else 0.0,
               if Present(md.reaction) then Upper(md.reaction.value) else "NONE")
  }

  /** The parser as the route runs it, reassigning the text, the impact and the reaction. */
  method ParseAIResponseWithSentiment(rawResponse: string, parseJson: string -> Option<Sentiment>)
    returns (cleanedReply: string, impactScore: real, reactionType: string)
    ensures Parsed(cleanedReply, impactScore, reactionType) == SentimentOf(rawResponse, parseJson)
  {
    var text := rawResponse;
    impactScore := 0.0;
    reactionType := "NONE";
    var deepMatch := DeepMatch(text);
    if deepMatch.Some? {
      var Span(i, e) := deepMatch.value;
      var fixedJson := RemoveTrailingCommas(text[i..e]);
      var metadata := parseJson(fixedJson);
      if metadata.Some? {
        if metadata.value.impact.Some? {
          impactScore := ClampReal(metadata.value.impact.value, -5.0, 5.0);
        }
        if Present(metadata.value.reaction) {
          reactionType := Upper(metadata.value.reaction.value);
        }
        text := Trim(text[..i] + text[e..]);
        text := StripFences(text);
      }
    }
    cleanedReply := text;
  }

  /**
   * A reply followed by a block that parses: the reply, trimmed and without
   * fences, is kept, and the block gives the clamped impact and the reaction.
   */
  lemma ReplyWithBlockParsed(raw: string, n: nat, parseJson: string -> Option<Sentiment>, md: Sentiment)
    requires n < |raw| && raw[n] == '{' && raw[|raw| - 1] == '}'
    requires forall j :: 0 <= j < n ==> raw[j] != '{'
    requires exists q :: n < q && q + |ImpactKey| < |raw| && OccursAtCI(raw, ImpactKey, q)
    requires parseJson(RemoveTrailingCommas(raw[n..])) == Some(md)
    ensures SentimentOf(raw, parseJson).cleanedReply == StripFences(Trim(raw[..n]))
    ensures SentimentOf(raw, parseJson).impactScore ==
              if md.impact.Some? then ClampReal(md.impact.value, -5.0, 5.0) else 0.0
    ensures SentimentOf(raw, parseJson).reactionType ==
              if Present(md.reaction) then Upper(md.reaction.value) else "NONE"
  {
    BlockAfterReplyFound(raw, n);
    assert raw[n..|raw|] == raw[n..];
    assert raw[..n] + raw[|raw|..] == raw[..n];
    ParsedAround(raw, parseJson, n, |raw|, raw[n..], raw[..n], md);
  }

  /** A match made of a parsed block: what stands around it, cleaned, and the block's fields. */
  lemma ParsedAround(raw: string, parseJson: string -> Option<Sentiment>, i: nat, e: nat,
                     block: string, around: string, md: Sentiment)
    requires DeepMatch(raw) == Some(Span(i, e)) && e <= |raw|
    requires raw[i..e] == block && raw[..i] + raw[e..] == around
    requires parseJson(RemoveTrailingCommas(block)) == Some(md)
    ensures SentimentOf(raw, parseJson).cleanedReply == StripFences(Trim(around))
    ensures SentimentOf(raw, parseJson).impactScore ==
              if md.impact.Some? then ClampReal(md.impact.value, -5.0, 5.0) else 0.0
    ensures SentimentOf(raw, parseJson).reactionType ==
              if Present(md.reaction) then Upper(md.reaction.value) else "NONE"
  {
    SentimentOfParsedBlock(raw, parseJson, i, e, md);
    WithoutBlockAround(raw, i, e, around);
  }

  /** A match whose block parses: the text around it, the clamped impact and the reaction. */
  lemma SentimentOfParsedBlock(raw: string, parseJson: string -> Option<Sentiment>, i: nat, e: nat, md: Sentiment)
    requires DeepMatch(raw) == Some(Span(i, e))
    requires parseJson(RemoveTrailingCommas(raw[i..e])) == Some(md)
    ensures SentimentOf(raw, parseJson) ==
            Parsed(WithoutBlock(raw, i, e),
                   if md.impact.Some? then ClampReal(md.impact.value, -5.0, 5.0) else 0.0,
                   if Present(md.reaction) then Upper(md.reaction.value) else "NONE")
  {
  }

  lemma WithoutBlockAround(raw: string, i: nat, e: nat, around: string)
    requires i <= e <= |raw| && raw[..i] + raw[e..] == around
    ensures WithoutBlock(raw, i, e) == StripFences(Trim(around))
  {
  }

  /** A block that does not parse changes nothing: the text comes back as it was, neutral. */
  lemma UnparsedBlockIsNeutral(raw: string, parseJson: string -> Option<Sentiment>)
    requires DeepMatch(raw).Some?
    requires parseJson(RemoveTrailingCommas(raw[DeepMatch(raw).value.start..DeepMatch(raw).value.end])) == None
    ensures SentimentOf(raw, parseJson) == Parsed(raw, 0.0, "NONE")
  {
  }

  /** A reply without any `}` has no block: it comes back as it was, neutral. */
  lemma NoBraceIsNeutral(raw: string, parseJson: string -> Option<Sentiment>)
    requires forall j :: 0 <= j < |raw| ==> raw[j] != '}'
    ensures SentimentOf(raw, parseJson) == Parsed(raw, 0.0, "NONE")
  {
  }

  datatype Mood = Positive | Negative | Neutral

  /** `mapImpactToSentiment`: the sign of the impact. */
  function MapImpactToSentiment(impact: real): (m: Mood)
    ensures m == Positive <==> impact > 0.0
    ensures m == Negative <==> impact < 0.0
    ensures m == Neutral <==> impact == 0.0
  {
    if impact > 0.0 then Positive
    else if impact < 0.0 then Negative
    else Neutral
  }

  // ---------------------------------------------------------------------
  // Notification contacts
  // ---------------------------------------------------------------------

  const NotificationKeys: seq<string> := ["ngân hàng", "bank", "shopee", "lazada", "grab", "momo", "zalopay"]

  /** A contact whose lower-cased name mentions a bank or a shopping, ride or wallet service. */
  predicate IsNotificationContact(senderName: string)
  {
    ContainsAny(Lower(senderName), NotificationKeys)
  }

  /** The notification test is case-blind: any spelling of a key, inside any name, passes it. */
  lemma NotificationInAnyCase(a: string, p: string, b: string, k: nat)
    requires k < |NotificationKeys| && Lower(p) == NotificationKeys[k]
    ensures IsNotificationContact(a + p + b)
  {
    LowerKeepsOccurrence(a, p, b);
  }

  /** The services with their own template, in the order the route looks for them. */
  datatype Service = Bank | Shopee | Lazada | Grab | MoMo | ZaloPay | OtherService

  function ServiceOf(lowerName: string): (svc: Service)
    ensures svc == Bank <==> Contains(lowerName, "ngân hàng") || Contains(lowerName, "bank")
    ensures svc == Shopee <==> !(Contains(lowerName, "ngân hàng") || Contains(lowerName, "bank")) && Contains(lowerName, "shopee")
    ensures svc == Lazada <==> !(Contains(lowerName, "ngân hàng") || Contains(lowerName, "bank") || Contains(lowerName, "shopee"))
                               && Contains(lowerName, "lazada")
    ensures svc == Grab <==> !(Contains(lowerName, "ngân hàng") || Contains(lowerName, "bank") || Contains(lowerName, "shopee")
                               || Contains(lowerName, "lazada")) && Contains(lowerName, "grab")
    ensures svc == MoMo <==> !(Contains(lowerName, "ngân hàng") || Contains(lowerName, "bank") || Contains(lowerName, "shopee")
                               || Contains(lowerName, "lazada") || Contains(lowerName, "grab")) && Contains(lowerName, "momo")
    ensures svc == ZaloPay <==> !(Contains(lowerName, "ngân hàng") || Contains(lowerName, "bank") || Contains(lowerName, "shopee")
                                  || Contains(lowerName, "lazada") || Contains(lowerName, "grab") || Contains(lowerName, "momo"))
                                && Contains(lowerName, "zalopay")
    ensures svc == OtherService <==> !ContainsAny(lowerName, NotificationKeys)
  {
    if Contains(lowerName, "ngân hàng") || Contains(lowerName, "bank") then
      assert NotificationKeys[0] == "ngân hàng" && NotificationKeys[1] == "bank";
      Bank
    else if Contains(lowerName, "shopee") then assert NotificationKeys[2] == "shopee"; Shopee
    else if Contains(lowerName, "lazada") then assert NotificationKeys[3] == "lazada"; Lazada
    else if Contains(lowerName, "grab") then assert NotificationKeys[4] == "grab"; Grab
    else if Contains(lowerName, "momo") then assert NotificationKeys[5] == "momo"; MoMo
    else if Contains(lowerName, "zalopay") then assert NotificationKeys[6] == "zalopay"; ZaloPay
    else
      assert !ContainsAny(lowerName, NotificationKeys) by {
        forall k | 0 <= k < |NotificationKeys| ensures !Contains(lowerName, NotificationKeys[k]) {
          assert NotificationKeys[k] in ["ngân hàng", "bank", "shopee", "lazada", "grab", "momo", "zalopay"];
        }
      }
      OtherService
  }

  /** The emoji a service's template opens with, in either language. */
  function ServiceMark(svc: Service): char
  {
    match svc
    case Bank => '\U{1F4F1}'
    case Shopee => '\U{1F6CD}'
    case Lazada => '\U{1F4E6}'
    case Grab => '\U{1F697}'
    case MoMo => '\U{1F4B0}'
    case ZaloPay => '\U{1F4B3}'
    case OtherService => '\U{1F916}'
  }

  /** The template reply of a service: its emoji, then its text, in Vietnamese when the language is `vi` and in English otherwise. */
  function Template(svc: Service, vietnamese: bool): (t: string)
    ensures |t| > 0 && t[0] == ServiceMark(svc)
  {
    [ServiceMark(svc)] + TemplateText(svc, vietnamese)
  }

  /** What follows the emoji in a template. */
  function TemplateText(svc: Service, vietnamese: bool): string
  {
    match svc
    case Bank => if vietnamese then " Tin nhắn không được phản hồi tự động. Vui lòng liên hệ Hotline: 1900-xxxx hoặc mở App ngân hàng để được hỗ trợ."
                 else " This number does not support auto-reply. Please contact Hotline: 1900-xxxx or open Banking App for support."
    case Shopee => if vietnamese then "\U{FE0F} Shopee không hỗ trợ phản hồi qua SMS. Vui lòng mở app Shopee hoặc liên hệ hotline: 1900-1234 để được hỗ trợ."
                   else "\U{FE0F} Shopee does not support SMS replies. Please open Shopee app or call: 1900-1234."
    case Lazada => if vietnamese then " Lazada không hỗ trợ phản hồi qua tin nhắn. Vui lòng truy cập app Lazada hoặc gọi: 1900-6035."
                   else " Lazada does not support SMS replies. Please visit Lazada app or call: 1900-6035."
    case Grab => if vietnamese then " Grab không hỗ trợ phản hồi qua SMS. Vui lòng mở app Grab để theo dõi chuyến đi hoặc liên hệ hotline: 1900-1239."
                 else " Grab does not support SMS replies. Please open Grab app to track your ride or call: 1900-1239."
    case MoMo => if vietnamese then " MoMo không hỗ trợ phản hồi tự động. Vui lòng mở app MoMo hoặc gọi Hotline: 1900-545-436."
                 else " MoMo does not support auto-reply. Please open MoMo app or call: 1900-545-436."
    case ZaloPay => if vietnamese then " ZaloPay không hỗ trợ phản hồi qua SMS. Vui lòng mở app ZaloPay hoặc liên hệ: 1900-5555."
                    else " ZaloPay does not support SMS replies. Please open ZaloPay app or call: 1900-5555."
    case OtherService => if vietnamese then " Dịch vụ này không hỗ trợ phản hồi tự động. Vui lòng liên hệ qua app hoặc hotline."
                         else " This service does not support auto-reply. Please contact via app or hotline."
  }

  /** `userLanguage = 'vi'` by default. */
  function LanguageOf(userLanguage: Option<string>): string
  {
    if userLanguage.Some? then userLanguage.value else "vi"
  }

  const PreviewLength: nat := 50

  /** The conversation preview: the first 50 characters of the reply. */
  function Preview(reply: string): (p: string)
    ensures |p| == Min(|reply|, PreviewLength) && p == reply[..|p|]
  {
    if |reply| <= PreviewLength then reply else reply[..PreviewLength]
  }

  /** The answer for a notification contact: a template saved from the contact, with a neutral sentiment. */
  datatype AutoReply = AutoReply(content: string, preview: string, impact: real, reaction: string)

  function AutoReplyFor(senderName: string, userLanguage: Option<string>): (r: AutoReply)
    ensures r.impact == 0.0 && r.reaction == "NONE" && r.preview == Preview(r.content)
    ensures r.content == Template(ServiceOf(Lower(senderName)), userLanguage.None? || userLanguage.value == "vi")
  {
    var content := Template(ServiceOf(Lower(senderName)), LanguageOf(userLanguage) == "vi");
    AutoReply(content, Preview(content), 0.0, "NONE")
  }

  /** Without a language the reply is the Vietnamese one. */
  lemma MissingLanguageIsVietnamese(senderName: string)
    ensures AutoReplyFor(senderName, None) == AutoReplyFor(senderName, Some("vi"))
  {
  }

  /** Each service has a template of its own: the opening emoji tells the services apart, whatever the language. */
  lemma TemplatesNameTheirService(a: Service, b: Service, va: bool, vb: bool)
    requires a != b
    ensures Template(a, va) != Template(b, vb)
  {
    MarksDistinct(a, b);
    var ta, tb := Template(a, va), Template(b, vb);
    assert ta[0] != tb[0];
  }

  lemma MarksDistinct(a: Service, b: Service)
    requires a != b
    ensures ServiceMark(a) != ServiceMark(b)
  {
  }

  /** A notification contact always has a service of its own, never the generic template. */
  lemma NotificationHasService(senderName: string)
    requires IsNotificationContact(senderName)
    ensures ServiceOf(Lower(senderName)) != OtherService
  {
  }

  /** A contact gets a service's own template exactly when it passes the notification test. */
  lemma NotificationIffService(senderName: string)
    ensures IsNotificationContact(senderName) <==> ServiceOf(Lower(senderName)) != OtherService
  {
  }

  /** "Vietcombank" mentions `bank`, so it is answered with the bank template. */
  lemma BankBrandGetsBankTemplate()
    ensures IsNotificationContact("Vietcombank")
    ensures AutoReplyFor("Vietcombank", None).content == Template(Bank, true)
  {
    LowerKeepsOccurrence("Vietcom", "bank", "");
    assert Lower("bank") == "bank";
    assert "Vietcom" + "bank" + "" == "Vietcombank";
    assert Contains(Lower("Vietcombank"), NotificationKeys[1]);
    assert ServiceOf(Lower("Vietcombank")) == Bank;
  }

  /** A bank in the name takes the bank template, whatever other service it also mentions. */
  lemma BankWins(senderName: string, userLanguage: Option<string>)
    requires Contains(Lower(senderName), "bank")
    ensures AutoReplyFor(senderName, userLanguage).content == Template(Bank, LanguageOf(userLanguage) == "vi")
  {
  }

  // ---------------------------------------------------------------------
  // Cooldown gates
  // ---------------------------------------------------------------------

  const CooldownProductionMs: int := 2 * 60 * 60 * 1000
  const CooldownDevMs: int := 10 * 1000
  const InChatWindowMs: int := 60 * 1000

  /** Ten seconds in dev mode, two hours otherwise. */
  function CooldownMs(devModeEnabled: bool): (ms: int)
    ensures devModeEnabled ==> ms == 10000
    ensures !devModeEnabled ==> ms == 7200000
  {
    if devModeEnabled then CooldownDevMs else CooldownProductionMs
  }

  /** A phone message: who sent it (`user`, `contact`, ...), its text and its time. */
  datatype PhoneMessage = PhoneMessage(role: string, content: string, timestampMs: int)

  /** The conversation row, when found: when a reply was last generated, if ever. */
  datatype Conversation = Conversation(lastGeneratedAtMs: Option<int>)

  /** The route's early answers, and whether it goes on to generate. */
  datatype Gate =
    | NotificationReply
    | MissingConversationId
    | SelfContinuationCooldown(remainingMs: int, status: int)
    | ConversationNotFound
    | CooldownActive(remainingMs: int)
    | NoMessages
    | NotNeeded
    | Generate

  /** What the gates read. `history` is the latest (at most 20) messages, oldest first. */
  datatype GateInput = GateInput(senderName: string, hasConversationId: bool, devModeEnabled: bool,
                                 forceTrigger: bool, nowMs: int, history: seq<PhoneMessage>,
                                 conversation: Option<Conversation>, lastUserMessageMs: Option<int>)

  /** The newest message is from the contact and is younger than the cooldown. */
  predicate ContactSpokeLast(g: GateInput)
  {
    |g.history| > 0 && g.history[|g.history| - 1].role == "contact" &&
    g.nowMs - g.history[|g.history| - 1].timestampMs < CooldownMs(g.devModeEnabled)
  }

  /** The user sent a message less than a minute ago. */
  predicate InChat(g: GateInput)
  {
    g.lastUserMessageMs.Some? && g.nowMs - g.lastUserMessageMs.value < InChatWindowMs
  }

  /** The milliseconds left of the cooldown since the last generated reply. */
  function GenerationRemaining(g: GateInput): int
    requires g.conversation.Some? && g.conversation.value.lastGeneratedAtMs.Some?
  {
    CooldownMs(g.devModeEnabled) - (g.nowMs - g.conversation.value.lastGeneratedAtMs.value)
  }

  /** Not a notification contact, an id given, and no early self-continuation answer. */
  predicate PastEarlyChecks(g: GateInput)
  {
    !IsNotificationContact(g.senderName) && g.hasConversationId && !(ContactSpokeLast(g) && !g.forceTrigger)
  }

  /** Outside the chat window, an unforced request within a cooldown of the last generated reply. */
  predicate GenerationBlocked(g: GateInput)
  {
    g.conversation.Some? && !InChat(g) && g.conversation.value.lastGeneratedAtMs.Some? &&
    GenerationRemaining(g) > 0 && !g.forceTrigger
  }

  /**
   * The gates in the route's order: notification contacts, the missing id,
   * the early self-continuation check, the conversation lookup, the
   * out-of-chat cooldown, an empty history, then the late self-continuation
   * check on the newest message.
   */
  function ReplyGate(g: GateInput): (r: Gate)
    ensures r == NotificationReply <==> IsNotificationContact(g.senderName)
    ensures r == MissingConversationId <==> !IsNotificationContact(g.senderName) && !g.hasConversationId
    ensures r == ConversationNotFound <==> PastEarlyChecks(g) && g.conversation.None?
    ensures r == NoMessages <==>
              PastEarlyChecks(g) && g.conversation.Some? && !GenerationBlocked(g) && |g.history| == 0
    ensures r == NotNeeded <==>
              PastEarlyChecks(g) && g.conversation.Some? && !GenerationBlocked(g) && |g.history| > 0 &&
              g.history[|g.history| - 1].role == "contact" && InChat(g)
    ensures r.CooldownActive? <==> PastEarlyChecks(g) && GenerationBlocked(g)
    ensures r.CooldownActive? ==> 0 < r.remainingMs
    ensures r.SelfContinuationCooldown? ==> r.status == 200 && 0 < r.remainingMs
    ensures r == Generate ==>
              PastEarlyChecks(g) && g.conversation.Some? && !GenerationBlocked(g) && |g.history| > 0
  {
    var cooldown := CooldownMs(g.devModeEnabled);
    if IsNotificationContact(g.senderName) then NotificationReply
    else if !g.hasConversationId then MissingConversationId
    else if ContactSpokeLast(g) && !g.forceTrigger then
      var last := g.history[|g.history| - 1];
      SelfContinuationCooldown(cooldown - (g.nowMs - last.timestampMs), 200)
    else if g.conversation.None? then ConversationNotFound
    else if GenerationBlocked(g) then
      CooldownActive(GenerationRemaining(g))
    else if |g.history| == 0 then NoMessages
    else
      var last := g.history[|g.history| - 1];
      if last.role == "user" then Generate
      else if last.role == "contact" && !InChat(g) then
        var elapsed := g.nowMs - last.timestampMs;
        if elapsed >= cooldown then Generate
        else if !g.forceTrigger then SelfContinuationCooldown(cooldown - elapsed, 429)
        else Generate
      else if last.role == "contact" then NotNeeded
      else Generate
  }

  /**
   * The early self-continuation answer is given exactly when the newest
   * message is the contact's, younger than the cooldown, and the request is
   * not forced; the time left is positive and completes the cooldown.
   */
  lemma EarlySelfContinuation(g: GateInput)
    requires !IsNotificationContact(g.senderName) && g.hasConversationId
    ensures ReplyGate(g).SelfContinuationCooldown? <==> ContactSpokeLast(g) && !g.forceTrigger
    ensures ReplyGate(g).SelfContinuationCooldown? ==>
              var last := g.history[|g.history| - 1];
              ReplyGate(g) == SelfContinuationCooldown(CooldownMs(g.devModeEnabled) - (g.nowMs - last.timestampMs), 200) &&
              0 < ReplyGate(g).remainingMs
  {
  }

  /**
   * The late self-continuation check can never refuse: every case it would
   * refuse was already answered by the early check.
   */
  lemma LateSelfContinuationUnreachable(g: GateInput)
    ensures ReplyGate(g).SelfContinuationCooldown? ==> ReplyGate(g).status == 200
  {
  }

  /**
   * Outside the chat window, a reply generated less than a cooldown ago
   * blocks an unforced request, with the time left.
   */
  lemma OutOfChatCooldown(g: GateInput)
    requires !IsNotificationContact(g.senderName) && g.hasConversationId && !(ContactSpokeLast(g) && !g.forceTrigger)
    requires g.conversation.Some?
    ensures ReplyGate(g).CooldownActive? <==>
              !InChat(g) && g.conversation.value.lastGeneratedAtMs.Some? && GenerationRemaining(g) > 0 && !g.forceTrigger
    ensures ReplyGate(g).CooldownActive? ==> ReplyGate(g).remainingMs == GenerationRemaining(g) > 0
  {
  }

  /** A forced request is never held back by a cooldown. */
  lemma ForceSkipsCooldowns(g: GateInput)
    requires g.forceTrigger
    ensures !ReplyGate(g).SelfContinuationCooldown? && !ReplyGate(g).CooldownActive?
  {
  }

  /** A reply is generated only for a known conversation with messages. */
  lemma GenerateNeedsMessages(g: GateInput)
    requires ReplyGate(g) == Generate
    ensures g.hasConversationId && g.conversation.Some? && |g.history| > 0 && !IsNotificationContact(g.senderName)
  {
  }

  // ---------------------------------------------------------------------
  // The prompt's messages
  // ---------------------------------------------------------------------

  /** The history for the model: the contact's messages are the assistant's, all others the user's. */
  function HistoryMessages(history: seq<PhoneMessage>): (m: seq<LlmMessage>)
    ensures |m| == |history|
    ensures forall k :: 0 <= k < |history| ==>
              m[k] == LlmMessage(if history[k].role == "contact" then Assistant else User, history[k].content)
  {
    seq(|history|, k requires 0 <= k < |history| =>
      LlmMessage(if history[k].role == "contact" then Assistant else User, history[k].content))
  }

  /** The messages sent: the system prompt, then the history. */
  function LlmMessages(systemPrompt: string, history: seq<PhoneMessage>): (m: seq<LlmMessage>)
    ensures |m| == |history| + 1 && m[0] == LlmMessage(System, systemPrompt) && m[1..] == HistoryMessages(history)
  {
    [LlmMessage(System, systemPrompt)] + HistoryMessages(history)
  }

  /** `isMotherRole`: the name mentions `mẹ` or `mom`. */
  predicate IsMotherName(lowerName: string)
  {
    Contains(lowerName, "mẹ") || Contains(lowerName, "mom")
  }

  /** `isFatherRole`: the name mentions `bố`, `ba` or `dad`. */
  predicate IsFatherName(lowerName: string)
  {
    Contains(lowerName, "bố") || Contains(lowerName, "ba") || Contains(lowerName, "dad")
  }

  /** `isBossRole`: the name mentions `sếp` or `boss`. */
  predicate IsBossName(lowerName: string)
  {
    Contains(lowerName, "sếp") || Contains(lowerName, "boss")
  }

  /** What the system prompt says the contact is to the user, from the contact's lower-cased name. */
  datatype Relation = MotherRelation | FatherRelation | BossRelation | FriendRelation | Acquaintance

  function RelationOf(lowerName: string): (rel: Relation)
    ensures rel == MotherRelation <==> IsMotherName(lowerName) || Contains(lowerName, "me ")
    ensures rel == FatherRelation <==> !(IsMotherName(lowerName) || Contains(lowerName, "me ")) && IsFatherName(lowerName)
    ensures rel == BossRelation <==> !(IsMotherName(lowerName) || Contains(lowerName, "me ")) && !IsFatherName(lowerName)
                                     && IsBossName(lowerName)
    ensures rel == FriendRelation <==> !(IsMotherName(lowerName) || Contains(lowerName, "me ")) && !IsFatherName(lowerName)
                                       && !IsBossName(lowerName) && (Contains(lowerName, "bạn") || Contains(lowerName, "friend"))
  {
    if Contains(lowerName, "mẹ") || Contains(lowerName, "mom") || Contains(lowerName, "me ") then MotherRelation
    else if Contains(lowerName, "bố") || Contains(lowerName, "ba") || Contains(lowerName, "dad") then FatherRelation
    else if Contains(lowerName, "sếp") || Contains(lowerName, "boss") then BossRelation
    else if Contains(lowerName, "bạn") || Contains(lowerName, "friend") then FriendRelation
    else Acquaintance
  }

  /** Which pronoun rules the system prompt carries. */
  datatype PronounRules = MotherRules | FatherRules | BossRules | NaturalRules

  function PronounRulesOf(lowerName: string): (rules: PronounRules)
    ensures rules == MotherRules <==> IsMotherName(lowerName)
    ensures rules == FatherRules <==> !IsMotherName(lowerName) && IsFatherName(lowerName)
    ensures rules == BossRules <==> !IsMotherName(lowerName) && !IsFatherName(lowerName) && IsBossName(lowerName)
    ensures rules == NaturalRules <==> !IsMotherName(lowerName) && !IsFatherName(lowerName) && !IsBossName(lowerName)
    ensures rules == MotherRules ==> RelationOf(lowerName) == MotherRelation
  {
    if Contains(lowerName, "mẹ") || Contains(lowerName, "mom") then MotherRules
    else if Contains(lowerName, "bố") || Contains(lowerName, "ba") || Contains(lowerName, "dad") then FatherRules
    else if Contains(lowerName, "sếp") || Contains(lowerName, "boss") then BossRules
    else NaturalRules
  }

  /**
   * `me ` makes the contact a mother in the relationship line but not in
   * the pronoun rules: "me lan" is told it is the mother and then to speak
   * naturally.
   */
  lemma MeIsMotherOnlyInContext()
    ensures RelationOf("me lan") == MotherRelation && PronounRulesOf("me lan") == NaturalRules
  {
    var name := "me lan";
    assert OccursAt(name, "me ", 0);
    forall p | p in ["mẹ", "mom", "bố", "ba", "dad", "sếp", "boss"] ensures !Contains(name, p) {
      NoPairNoMatch(name, p);
    }
  }

  /** A word whose first two letters never stand side by side in the text does not occur in it. */
  lemma NoPairNoMatch(s: string, p: string)
    requires |p| >= 2
    requires forall i :: 0 <= i && i + 1 < |s| ==> s[i] != p[0] || s[i + 1] != p[1]
    ensures !Contains(s, p)
  {
    forall i | 0 <= i <= |s| - |p| ensures !OccursAt(s, p, i) {
      assert s[i..i + |p|][0] == s[i] && s[i..i + |p|][1] == s[i + 1];
    }
  }

  // ---------------------------------------------------------------------
  // The saved reply
  // ---------------------------------------------------------------------

  /** A reply of nothing but metadata becomes a heart, an ellipsis or a murmur, by the impact's sign. */
  function EmptyReplyFallback(impactScore: real): string
  {
    if impactScore > 0.0 then "❤️" else if impactScore < 0.0 then "..." else "Ừm..."
  }

  /**
   * The reply saved: the cleaned reply, or the impact's fallback when it is
   * blank; then, when the contact's role rejects it and has a fallback
   * reply, that fallback instead.
   */
  function SavedReply(cleanedReply: string, impactScore: real, senderName: string): (r: string)
    ensures r != ""
    ensures var reply := if Trim(cleanedReply) == "" then EmptyReplyFallback(impactScore) else cleanedReply;
            var validation := PronounValidator.Validation(reply, PronounValidator.DetectRole(senderName));
            r == (if !validation.valid && validation.fallbackReply.Some? then validation.fallbackReply.value else reply)
  {
    var reply := if Trim(cleanedReply) == "" then EmptyReplyFallback(impactScore) else cleanedReply;
    assert reply != "" by {
      if Trim(cleanedReply) != "" { assert |Trim(cleanedReply)| <= |cleanedReply|; }
    }
    var validation := PronounValidator.Validation(reply, PronounValidator.DetectRole(senderName));
    if !validation.valid && validation.fallbackReply.Some? then
      assert validation.fallbackReply == PronounValidator.Fallback(PronounValidator.DetectRole(senderName));
      validation.fallbackReply.value
    else reply
  }

  /** A blank reply from a friend, which the validator never rejects, is saved as the impact's fallback. */
  lemma BlankReplyFallsBack(cleanedReply: string, impactScore: real, senderName: string)
    requires Trim(cleanedReply) == ""
    requires PronounValidator.DetectRole(senderName) == PronounValidator.Friend
    ensures SavedReply(cleanedReply, impactScore, senderName) == EmptyReplyFallback(impactScore)
  {
    PronounValidator.FriendIsNeverChecked(EmptyReplyFallback(impactScore));
  }

  /** The affection update: the mood of the impact and the newest user message, when there is one and a character. */
  function AffectionUpdate(history: seq<PhoneMessage>, hasCharacterId: bool, impactScore: real): (u: Option<(Mood, string)>)
    ensures u.Some? ==> hasCharacterId && u.value.0 == MapImpactToSentiment(impactScore)
    ensures u.Some? ==> exists k :: 0 <= k < |history| && history[k].role == "user" && history[k].content == u.value.1 &&
                                   forall j :: k < j < |history| ==> history[j].role != "user"
    ensures u.None? ==> !hasCharacterId || forall k :: 0 <= k < |history| ==> history[k].role != "user"
    decreases |history|
  {
    if |history| == 0 || !hasCharacterId then None
    else if history[|history| - 1].role == "user" then Some((MapImpactToSentiment(impactScore), history[|history| - 1].content))
    else
      var front := history[..|history| - 1];
      var u := AffectionUpdate(front, hasCharacterId, impactScore);
      assert forall k :: 0 <= k < |front| ==> front[k] == history[k];
      u
  }
}
