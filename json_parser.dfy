/**
 * Extracting and parsing the JSON an LLM returns: markdown fences and chatty
 * prefixes are removed, the text is cut down to the span from the first
 * opening brace or bracket to the last matching closer, and parsing falls
 * back to a small textual repair and then to a caller-given default.
 *
 * `JSON.parse` itself is a parameter (`parse`), a total function from text to
 * a JSON value or an error message.
 */
module JsonParser {
  import opened Common

  // ---------------------------------------------------------------------
  // Regular-expression pieces
  // ---------------------------------------------------------------------

  /** The length of the run `\s*` at position `i`, maximal as a greedy quantifier takes it (`SpaceRunIsMaximal`). */
  function SpaceRun(s: string, i: nat): (n: nat)
    requires i <= |s|
    ensures i + n <= |s|
    decreases |s| - i
  {
    if i < |s| && IsSpace(s[i]) then 1 + SpaceRun(s, i + 1) else 0
  }

  lemma {:induction false} SpaceRunIsMaximal(s: string, i: nat)
    requires i <= |s|
    ensures forall k :: i <= k < i + SpaceRun(s, i) ==> IsSpace(s[k])
    ensures i + SpaceRun(s, i) == |s| || !IsSpace(s[i + SpaceRun(s, i)])
    decreases |s| - i
  {
    if i < |s| && IsSpace(s[i]) {
      SpaceRunIsMaximal(s, i + 1);
    }
  }

  /** The length of the run `\w*` at position `i`, maximal (`WordRunIsMaximal`). */
  function WordRun(s: string, i: nat): (n: nat)
    requires i <= |s|
    ensures i + n <= |s|
    decreases |s| - i
  {
    if i < |s| && IsWordChar(s[i]) then 1 + WordRun(s, i + 1) else 0
  }

  lemma {:induction false} WordRunIsMaximal(s: string, i: nat)
    requires i <= |s|
    ensures forall k :: i <= k < i + WordRun(s, i) ==> IsWordChar(s[k])
    ensures i + WordRun(s, i) == |s| || !IsWordChar(s[i + WordRun(s, i)])
    decreases |s| - i
  {
    if i < |s| && IsWordChar(s[i]) {
      WordRunIsMaximal(s, i + 1);
    }
  }

  // ---------------------------------------------------------------------
  // Step 1: markdown fences
  // ---------------------------------------------------------------------

  /** Three backticks starting at position `i`. */
  predicate FenceAt(s: string, i: nat)
  {
    i + 3 <= |s| && s[i] == '`' && s[i + 1] == '`' && s[i + 2] == '`'
  }

  /** The tag `json` or `JSON` starting at position `i` (no other spelling). */
  predicate TagAt(s: string, i: nat)
  {
    i + 4 <= |s| &&
    ((s[i] == 'j' && s[i + 1] == 's' && s[i + 2] == 'o' && s[i + 3] == 'n') ||
     (s[i] == 'J' && s[i + 1] == 'S' && s[i + 2] == 'O' && s[i + 3] == 'N'))
  }

  predicate HasFence(s: string)
  {
    exists i :: 0 <= i < |s| && FenceAt(s, i)
  }

  // `s.replace(/```(?:json|JSON)?\s*/g, '')` when `tag` holds, and
  // `s.replace(/```\s*/g, '')` when it does not: every fence, with the tag
  // and the whitespace after it, is deleted, scanning left to right.
  function StripFences(s: string, tag: bool): (r: string)
    ensures |r| <= |s|
    decreases |s|
  {
    if |s| == 0 then []
    else if FenceAt(s, 0) then
      var skip := if tag && TagAt(s, 3) then 7 else 3;
      StripFences(s[skip + SpaceRun(s, skip)..], tag)
    else [s[0]] + StripFences(s[1..], tag)
  }

  /** What is left of a text opens with two backticks only if the text itself does. */
  lemma StripFencesTwoHeads(s: string, tag: bool)
    requires |StripFences(s, tag)| >= 2 && StripFences(s, tag)[0] == '`' && StripFences(s, tag)[1] == '`'
    ensures |s| >= 2 && s[0] == '`' && s[1] == '`'
  {
    if !FenceAt(s, 0) {
      var t := StripFences(s[1..], tag);
      assert t[0] == '`';
      assert |s[1..]| > 0 && s[1..][0] == '`';
    }
  }

  /** A kept character cannot start a fence together with what the scan leaves after it. */
  lemma NoFenceAtFront(s: string, tag: bool)
    requires |s| > 0 && !FenceAt(s, 0)
    ensures !FenceAt([s[0]] + StripFences(s[1..], tag), 0)
  {
    var t := StripFences(s[1..], tag);
    if |t| >= 2 && t[0] == '`' && t[1] == '`' {
      StripFencesTwoHeads(s[1..], tag);
      assert s[1..][1] == s[2];
    }
  }

  /** After the scan no fence is left in the text: deleting one never brings two backtick runs together. */
  lemma {:induction false} NoFenceLeft(s: string, tag: bool)
    ensures !HasFence(StripFences(s, tag))
    decreases |s|
  {
    if |s| > 0 {
      if FenceAt(s, 0) {
        var skip := if tag && TagAt(s, 3) then 7 else 3;
        NoFenceLeft(s[skip + SpaceRun(s, skip)..], tag);
      } else {
        var t := StripFences(s[1..], tag);
        var r := [s[0]] + t;
        NoFenceLeft(s[1..], tag);
        NoFenceAtFront(s, tag);
        forall i: nat | 0 < i
          ensures FenceAt(r, i) <==> FenceAt(t, i - 1)
        {
        }
      }
    }
  }

  /** With no fence in the text there is nothing to delete: the second fence pass changes nothing. */
  lemma {:induction false} StripFencesIdentity(s: string, tag: bool)
    requires !HasFence(s)
    ensures StripFences(s, tag) == s
    decreases |s|
  {
    if |s| > 0 {
      assert !FenceAt(s, 0);
      forall i: nat
        ensures FenceAt(s[1..], i) <==> FenceAt(s, i + 1)
      {
      }
      StripFencesIdentity(s[1..], tag);
    }
  }

  /** A text without backticks passes a fence pass unchanged, whatever follows it. */
  lemma {:induction false} StripFencesSkipsPlain(x: string, y: string, tag: bool)
    requires forall i :: 0 <= i < |x| ==> x[i] != '`'
    ensures StripFences(x + y, tag) == x + StripFences(y, tag)
    decreases |x|
  {
    if |x| > 0 {
      calc {
        StripFences(x + y, tag);
        == { assert (x + y)[0] == x[0]; }
        [x[0]] + StripFences((x + y)[1..], tag);
        == { assert (x + y)[1..] == x[1..] + y; }
        [x[0]] + StripFences(x[1..] + y, tag);
        == { StripFencesSkipsPlain(x[1..], y, tag); }
        [x[0]] + (x[1..] + StripFences(y, tag));
        == { assert x == [x[0]] + x[1..]; }
        x + StripFences(y, tag);
      }
    } else {
      assert x + y == y;
    }
  }

  // ---------------------------------------------------------------------
  // Step 2: chatty prefixes
  // ---------------------------------------------------------------------

  /**
   * One element of an anchored, case-insensitive prefix pattern: one of the
   * alternatives `alts` (lower-case ASCII, tried in order), or nothing at all
   * when `optional`.
   */
  datatype Piece = Piece(alts: seq<string>, optional: bool)

  /**
   * Where a match of `ps` that starts at `i` ends, trying alternatives in
   * order and an optional piece's presence before its absence, backtracking
   * as the regular-expression engine does.
   */
  function MatchPieces(s: string, ps: seq<Piece>, i: nat): (e: Option<nat>)
    requires i <= |s|
    ensures e.Some? ==> i <= e.value <= |s|
    decreases |ps|, 1, 0
  {
    if |ps| == 0 then Some(i) else TryAlternatives(s, ps, i, 0)
  }

  function TryAlternatives(s: string, ps: seq<Piece>, i: nat, k: nat): (e: Option<nat>)
    requires i <= |s| && |ps| > 0 && k <= |ps[0].alts|
    ensures e.Some? ==> i <= e.value <= |s|
    decreases |ps|, 0, |ps[0].alts| - k
  {
    if k == |ps[0].alts| then
      if ps[0].optional then MatchPieces(s, ps[1..], i) else None
    else
      var alt := ps[0].alts[k];
      var tail := if OccursAtCI(s, alt, i) then MatchPieces(s, ps[1..], i + |alt|) else None;
      if tail.Some? then tail else TryAlternatives(s, ps, i, k + 1)
  }

  /** `^Here(?:'s| is) (?:the )?(?:JSON|response|result):` (the trailing `\s*` is added by `StripPrefix`). */
  const HereIsPattern: seq<Piece> :=
    [Piece(["here"], false), Piece(["'s", " is"], false), Piece([" "], false), Piece(["the "], true),
     Piece(["json", "response", "result"], false), Piece([":"], false)]

  /** `^(?:The )?(?:JSON|response|result):`. */
  const LabelPattern: seq<Piece> :=
    [Piece(["the "], true), Piece(["json", "response", "result"], false), Piece([":"], false)]

  const PrefixPatterns: seq<seq<Piece>> :=
    [HereIsPattern, LabelPattern, [Piece(["output:"], false)], [Piece(["response:"], false)]]

  /** `text.replace(pattern, '')`, with `\s*` after the pattern: only a match at the very start is removed. */
  function StripPrefix(s: string, pattern: seq<Piece>): (r: string)
    ensures |r| <= |s| && r == s[|s| - |r|..]
    ensures MatchPieces(s, pattern, 0).None? ==> r == s
    ensures MatchPieces(s, pattern, 0).Some? ==> r == [] || !IsSpace(r[0])
  {
    match MatchPieces(s, pattern, 0)
    case None => s
    case Some(e) =>
      SpaceRunIsMaximal(s, e);
      s[e + SpaceRun(s, e)..]
  }

  /** The text after the first `k` prefix patterns, applied in order. */
  function StripPrefixes(s: string, k: nat): string
    requires k <= |PrefixPatterns|
  {
    if k == 0 then s else StripPrefix(StripPrefixes(s, k - 1), PrefixPatterns[k - 1])
  }

  /** The text after fences and prefixes: what the boundary search works on. */
  function Unwrapped(raw: string): string
  {
    StripPrefixes(StripFences(StripFences(Trim(raw), true), false), |PrefixPatterns|)
  }

  /** The pattern opens with a piece that must be a word. */
  predicate OpensWithWord(pattern: seq<Piece>)
  {
    |pattern| > 0 && !pattern[0].optional &&
    forall k :: 0 <= k < |pattern[0].alts| ==> |pattern[0].alts[k]| > 0 && 'a' <= pattern[0].alts[k][0] <= 'z'
  }

  /** No alternative of a piece made of words matches at a non-letter. */
  lemma {:induction false} NoLetterNoAlternative(s: string, pattern: seq<Piece>, k: nat)
    requires |pattern| > 0 && !pattern[0].optional && k <= |pattern[0].alts|
    requires forall j :: 0 <= j < |pattern[0].alts| ==> |pattern[0].alts[j]| > 0 && 'a' <= pattern[0].alts[j][0] <= 'z'
    requires |s| > 0 && !('a' <= AsciiLower(s[0]) <= 'z')
    ensures TryAlternatives(s, pattern, 0, k).None?
    decreases |pattern[0].alts| - k
  {
    if k < |pattern[0].alts| {
      var alt := pattern[0].alts[k];
      if |alt| <= |s| {
        assert s[0..|alt|][0] == s[0];
      }
      assert !OccursAtCI(s, alt, 0);
      NoLetterNoAlternative(s, pattern, k + 1);
    }
  }

  /** A pattern that must open with a word does not match a text that opens with a non-letter. */
  lemma NoLetterNoMatch(s: string, pattern: seq<Piece>)
    requires OpensWithWord(pattern)
    requires |s| > 0 && !('a' <= AsciiLower(s[0]) <= 'z')
    ensures MatchPieces(s, pattern, 0).None?
  {
    NoLetterNoAlternative(s, pattern, 0);
  }

  lemma PatternsOpenWithWords()
    ensures OpensWithWord(HereIsPattern) && OpensWithWord(LabelPattern[1..])
    ensures OpensWithWord(PrefixPatterns[2]) && OpensWithWord(PrefixPatterns[3])
    ensures PrefixPatterns[0] == HereIsPattern && PrefixPatterns[1] == LabelPattern
    ensures |LabelPattern| > 0 && LabelPattern[0] == Piece(["the "], true)
  {
  }

  /** The optional `the ` of the label pattern is absent before a non-letter. */
  lemma LabelSkipsArticle(s: string)
    requires |s| > 0 && !('a' <= AsciiLower(s[0]) <= 'z')
    requires |LabelPattern| > 0 && LabelPattern[0] == Piece(["the "], true)
    ensures MatchPieces(s, LabelPattern, 0) == MatchPieces(s, LabelPattern[1..], 0)
  {
    var p := LabelPattern;
    if 4 <= |s| {
      assert s[0..4][0] == s[0];
    }
    assert !OccursAtCI(s, "the ", 0);
    assert TryAlternatives(s, p, 0, 1) == MatchPieces(s, p[1..], 0);
  }

  /** None of the four prefix patterns matches a text that opens with a non-letter. */
  lemma NoPatternMatches(s: string, k: nat)
    requires k < |PrefixPatterns| && |s| > 0 && !('a' <= AsciiLower(s[0]) <= 'z')
    ensures MatchPieces(s, PrefixPatterns[k], 0).None?
  {
    PatternsOpenWithWords();
    if k == 1 {
      LabelSkipsArticle(s);
      NoLetterNoMatch(s, LabelPattern[1..]);
    } else {
      NoLetterNoMatch(s, PrefixPatterns[k]);
    }
  }

  /** A text that opens with anything but a letter (a brace or a bracket, say) has no prefix to remove. */
  lemma {:induction false} NoPrefixBeforeNonLetter(s: string, k: nat)
    requires k <= |PrefixPatterns| && |s| > 0 && !('a' <= AsciiLower(s[0]) <= 'z')
    ensures StripPrefixes(s, k) == s
  {
    if k > 0 {
      NoPrefixBeforeNonLetter(s, k - 1);
      NoPatternMatches(s, k - 1);
    }
  }

  // ---------------------------------------------------------------------
  // Step 3: the JSON boundaries
  // ---------------------------------------------------------------------

  predicate IsOpener(c: char) { c == '{' || c == '[' }

  /** The closer that matches an opener. */
  function Partner(open: char): char
  {
    if open == '{' then '}' else ']'
  }

  /** The first opener of the text and its position, whichever of `{` and `[` comes first. */
  function FirstOpener(t: string): (r: Option<nat>)
    ensures r.Some? ==> r.value < |t| && IsOpener(t[r.value]) && forall j :: 0 <= j < r.value ==> !IsOpener(t[j])
    ensures r.None? ==> forall j :: 0 <= j < |t| ==> !IsOpener(t[j])
  {
    var firstBrace := IndexOfChar(t, '{');
    var firstBracket := IndexOfChar(t, '[');
    if firstBrace.None? && firstBracket.None? then None
    else if firstBrace.None? then firstBracket
    else if firstBracket.None? then firstBrace
    else if firstBrace.value < firstBracket.value then firstBrace
    else firstBracket
  }

  /** The span from the opener at `start` to the last matching closer; the whole text when that closer does not come later. */
  function Bounds(t: string, start: nat): string
    requires start < |t|
  {
    var lastEnd := LastIndexOfChar(t, Partner(t[start]));
    if lastEnd.Some? && lastEnd.value > start then t[start..lastEnd.value + 1] else t
  }

  /** The boundary step: the span from the first opener to the last matching closer, when that closer comes later. */
  function Extract(t: string): string
  {
    match FirstOpener(t)
    case None => t
    case Some(start) => Trim(Bounds(t, start))
  }

  /** `cleanJsonString`. */
  function Cleaned(raw: string): string
  {
    Extract(Unwrapped(raw))
  }

  /** The first opener is at `start` when one is there and none comes before it. */
  lemma FirstOpenerAt(t: string, start: nat)
    requires start < |t| && IsOpener(t[start]) && forall j :: 0 <= j < start ==> !IsOpener(t[j])
    ensures FirstOpener(t) == Some(start)
  {

  }

  /** The last `c` is at `end` when `c` is there and not after it. */
  lemma LastIndexAt(t: string, c: char, end: nat)
    requires end < |t| && t[end] == c && forall j :: end < j < |t| ==> t[j] != c
    ensures LastIndexOfChar(t, c) == Some(end)
  {

  }

  /** Without any brace or bracket the text is returned as the earlier steps left it, without a final trim. */
  lemma NoOpenerKeepsText(t: string)
    requires forall j :: 0 <= j < |t| ==> !IsOpener(t[j])
    ensures Extract(t) == t
  {
  }

  /**
   * With an opener at `start` (the first one) and the last matching closer at
   * `end` after it, the result is exactly the inclusive span between them.
   */
  lemma SliceFromOpenerToLastCloser(t: string, start: nat, end: nat)
    requires start < end < |t| && IsOpener(t[start]) && forall j :: 0 <= j < start ==> !IsOpener(t[j])
    requires t[end] == Partner(t[start]) && forall j :: end < j < |t| ==> t[j] != Partner(t[start])
    ensures Extract(t) == t[start..end + 1]
    ensures Extract(t)[0] == t[start] && Extract(t)[|Extract(t)| - 1] == Partner(t[start])
  {
    FirstOpenerAt(t, start);
    LastIndexAt(t, Partner(t[start]), end);
    ExtractIsSpan(t, start, end);
  }

  lemma ExtractIsSpan(t: string, start: nat, end: nat)
    requires start < end < |t| && FirstOpener(t) == Some(start)
    requires t[end] == Partner(t[start]) && LastIndexOfChar(t, Partner(t[start])) == Some(end)
    ensures Extract(t) == t[start..end + 1]
  {
    var span := t[start..end + 1];
    assert Bounds(t, start) == span;
    SpanEndsNotSpace(t, start, end);
    TrimOfTrimmed(span);
  }

  lemma SpanEndsNotSpace(t: string, start: nat, end: nat)
    requires start < end < |t| && IsOpener(t[start]) && t[end] == Partner(t[start])
    ensures var span := t[start..end + 1]; !IsSpace(span[0]) && !IsSpace(span[|span| - 1])
  {
    var span := t[start..end + 1];
    assert span[0] == t[start] && span[|span| - 1] == t[end];
  }

  /** With no matching closer after the first opener, nothing is cut: the text is only trimmed. */
  lemma NoCloserAfterOpener(t: string, start: nat)
    requires start < |t| && IsOpener(t[start]) && forall j :: 0 <= j < start ==> !IsOpener(t[j])
    requires forall j :: start < j < |t| ==> t[j] != Partner(t[start])
    ensures Extract(t) == Trim(t)
  {
    FirstOpenerAt(t, start);
    var lastEnd := LastIndexOfChar(t, Partner(t[start]));
    assert lastEnd.None? || lastEnd.value <= start;
  }

  /** Once an opener exists the result is trimmed. */
  lemma TrimmedWhenOpener(t: string)
    requires exists j :: 0 <= j < |t| && IsOpener(t[j])
    ensures var r := Extract(t); r == [] || (!IsSpace(r[0]) && !IsSpace(r[|r| - 1]))
  {
    var j :| 0 <= j < |t| && IsOpener(t[j]);
    assert FirstOpener(t).Some?;
  }

  /** The no-brace path is not trimmed again: a space left in front of a deleted fence survives. */
  lemma UntrimmedWithoutOpener()
    ensures Cleaned("42 ```") == "42 "
  {
    var raw := "42 ```";
    TrimOfTrimmed(raw);
    assert raw == "42 " + "```";
    StripFencesSkipsPlain("42 ", "```", true);
    assert StripFences("```", true) == "";
    assert "42 " + "" == "42 ";
    StripFencesSkipsPlain("42 ", "", false);
    NoPrefixBeforeNonLetter("42 ", |PrefixPatterns|);
    NoOpenerKeepsText("42 ");
  }

  /** The closing fence after a line break leaves the line break. */
  lemma ClosingFenceGoes(tag: bool)
    ensures StripFences("\n```", tag) == "\n"
  {
    var s := "\n```";
    assert s[1..] == "```";
    assert StripFences("```", tag) == "";
  }

  /** A tagged fence and one whitespace character go, and the scan goes on with what follows. */
  lemma TaggedFenceStep(s: string, w: string)
    requires |s| >= 8 && FenceAt(s, 0) && TagAt(s, 3) && IsSpace(s[7]) && s[8..] == w
    requires |w| == 0 || !IsSpace(w[0])
    ensures StripFences(s, true) == StripFences(w, true)
  {
    assert SpaceRun(s, 8) == 0;
  }

  /** The characters of a fenced, tagged body. */
  lemma JsonFenceShape(body: string)
    requires |body| > 0
    ensures var s := "```json\n" + (body + "\n```");
            |s| >= 8 && FenceAt(s, 0) && TagAt(s, 3) && IsSpace(s[7]) && s[8..] == body + "\n```" &&
            (body + "\n```")[0] == body[0]
  {
  }

  /** The opening fence, its `json` tag and the line break after it go together. */
  lemma OpeningFenceGoes(body: string)
    requires |body| > 0 && !IsSpace(body[0])
    ensures StripFences("```json\n" + (body + "\n```"), true) == StripFences(body + "\n```", true)
  {
    var s := "```json\n" + (body + "\n```");
    var w := body + "\n```";
    JsonFenceShape(body);
    TaggedFenceStep(s, w);
  }

  /** The fence pass turns a fenced, tagged body into the body and the line break before the closing fence. */
  lemma FenceAroundBody(body: string)
    requires |body| > 0 && !IsSpace(body[0])
    requires forall i :: 0 <= i < |body| ==> body[i] != '`'
    ensures StripFences("```json\n" + (body + "\n```"), true) == body + "\n"
  {
    OpeningFenceGoes(body);
    StripFencesSkipsPlain(body, "\n```", true);
    ClosingFenceGoes(true);
  }

  /** The text steps 1 and 2 leave of a fenced, tagged body. */
  lemma UnwrapFenced(body: string)
    requires |body| > 0 && body[0] == '{'
    requires forall i :: 0 <= i < |body| ==> body[i] != '`'
    ensures Unwrapped("```json\n" + (body + "\n```")) == body + "\n"
  {
    var raw := "```json\n" + (body + "\n```");
    var fenced := body + "\n";
    calc {
      Unwrapped(raw);
      == { assert raw[0] == '`' && raw[|raw| - 1] == '`'; TrimOfTrimmed(raw); }
      StripPrefixes(StripFences(StripFences(raw, true), false), |PrefixPatterns|);
      == { FenceAroundBody(body); }
      StripPrefixes(StripFences(fenced, false), |PrefixPatterns|);
      == { StripFencesSkipsPlain(fenced, "", false); assert fenced + "" == fenced; }
      StripPrefixes(fenced, |PrefixPatterns|);
      == { assert fenced[0] == '{'; NoPrefixBeforeNonLetter(fenced, |PrefixPatterns|); }
      fenced;
    }
  }

  /** A fenced object, the usual shape of an LLM's JSON reply, comes out as the bare object. */
  lemma FencedObjectIsExtracted(body: string)
    requires |body| >= 2 && body[0] == '{' && body[|body| - 1] == '}'
    requires forall i :: 0 <= i < |body| ==> body[i] != '`'
    ensures Cleaned("```json\n" + (body + "\n```")) == body
  {
    UnwrapFenced(body);
    var fenced := body + "\n";
    SliceFromOpenerToLastCloser(fenced, 0, |body| - 1);
    assert fenced[..|body|] == body;
  }

  /** The prefix patterns, removed one after another. */
  method StripPrefixPatterns(unfenced: string) returns (text: string)
    ensures text == StripPrefixes(unfenced, |PrefixPatterns|)
  {
    text := unfenced;
    for k := 0 to |PrefixPatterns|
      invariant text == StripPrefixes(unfenced, k)
    {
      text := StripPrefix(text, PrefixPatterns[k]);
    }
  }

  /** The first opener as the source finds it: both `indexOf`s, then the earlier one, with its closer. */
  method FindOpener(text: string) returns (found: bool, startIndex: nat, endChar: char)
    ensures found <==> FirstOpener(text).Some?
    ensures found ==> FirstOpener(text) == Some(startIndex) && endChar == Partner(text[startIndex])
  {
    var firstBrace := IndexOfChar(text, '{');
    var firstBracket := IndexOfChar(text, '[');
    found := true;
    if firstBrace.None? && firstBracket.None? {
      found, startIndex, endChar := false, 0, ' ';
    } else if firstBrace.None? {
      endChar, startIndex := ']', firstBracket.value;
    } else if firstBracket.None? {
      endChar, startIndex := '}', firstBrace.value;
    } else if firstBrace.value < firstBracket.value {
      endChar, startIndex := '}', firstBrace.value;
    } else {
      endChar, startIndex := ']', firstBracket.value;
    }
  }

  /** Step 3 as the source runs it: the opener and its closer, the slice, the final trim. */
  method FindBoundaries(t: string) returns (text: string)
    ensures text == Extract(t)
  {
    text := t;
    var found, startIndex, endChar := FindOpener(text);
    if !found {
      return text;
    }
    var lastEnd := LastIndexOfChar(text, endChar);
    if lastEnd.Some? && lastEnd.value > startIndex {
      text := text[startIndex..lastEnd.value + 1];
    }
    assert text == Bounds(t, startIndex);
    text := Trim(text);
  }

  /** `cleanJsonString` as the source runs it: successive reassignments of `text`. */
  method CleanJsonString(raw: string) returns (text: string)
    ensures text == Cleaned(raw)
  {
    text := Trim(raw);
    text := StripFences(text, true);
    text := StripFences(text, false);
    text := StripPrefixPatterns(text);
    text := FindBoundaries(text);
  }

  // ---------------------------------------------------------------------
  // Repair
  // ---------------------------------------------------------------------

  /** `s.replace(/,\s*([}\]])/g, '$1')`: a comma, and the whitespace after it, is dropped before a closer. */
  function DropTrailingCommas(s: string): string
    decreases |s|
  {
    if |s| == 0 then s
    else
      var n := SpaceRun(s, 1);
      if s[0] == ',' && 1 + n < |s| && (s[1 + n] == '}' || s[1 + n] == ']') then
        [s[1 + n]] + DropTrailingCommas(s[2 + n..])
      else [s[0]] + DropTrailingCommas(s[1..])
  }

  /** The spans of a match of `([{,]\s*)(\w+)(\s*:)` at the start of `s`: the key is `s[a..b]` and the colon is at `c`. */
  function KeyMatch(s: string): (m: Option<(nat, nat, nat)>)
    ensures m.Some? ==> 1 <= m.value.0 < m.value.1 <= m.value.2 < |s|
  {
    if |s| > 0 && (s[0] == '{' || s[0] == ',') then
      var a := 1 + SpaceRun(s, 1);
      var b := a + WordRun(s, a);
      var c := b + SpaceRun(s, b);
      if b > a && c < |s| && s[c] == ':' then Some((a, b, c)) else None
    else None
  }

  /**
   * `s.replace(/([{,]\s*)(\w+)(\s*:)/g, '$1"$2"$3')`: a bare word between a
   * brace or comma and a colon is quoted.  The pattern cannot backtrack into
   * another match: its runs `\s*` and `\w+` are maximal and nothing else can
   * follow them.
   */
  function QuoteKeys(s: string): string
    decreases |s|
  {
    if |s| == 0 then s
    else match KeyMatch(s)
      case Some((a, b, c)) => s[..a] + "\"" + s[a..b] + "\"" + s[b..c + 1] + QuoteKeys(s[c + 1..])
      case None => [s[0]] + QuoteKeys(s[1..])
  }

  /** The second parse attempt reads the text with both repairs applied. */
  function Repaired(s: string): string
  {
    QuoteKeys(DropTrailingCommas(s))
  }

  predicate IsCommaOrSpace(c: char) { c == ',' || IsSpace(c) }

  predicate IsQuote(c: char) { c == '"' }

  /** `t` is `s` with some characters of the kind `dropped` deleted. */
  predicate Embeds(s: string, t: string, dropped: char -> bool)
    decreases |s|
  {
    if |s| == 0 then |t| == 0
    else (|t| > 0 && s[0] == t[0] && Embeds(s[1..], t[1..], dropped)) || (dropped(s[0]) && Embeds(s[1..], t, dropped))
  }

  lemma {:induction false} EmbedsSelf(s: string, dropped: char -> bool)
    ensures Embeds(s, s, dropped)
    decreases |s|
  {
    if |s| > 0 {
      EmbedsSelf(s[1..], dropped);
    }
  }

  lemma {:induction false} EmbedsAppend(s: string, t: string, s': string, t': string, dropped: char -> bool)
    requires Embeds(s, t, dropped) && Embeds(s', t', dropped)
    ensures Embeds(s + s', t + t', dropped)
    decreases |s|
  {
    if |s| == 0 {
      assert s + s' == s' && t + t' == t';
    } else {
      assert (s + s')[1..] == s[1..] + s';
      if |t| > 0 && s[0] == t[0] && Embeds(s[1..], t[1..], dropped) {
        EmbedsAppend(s[1..], t[1..], s', t', dropped);
        assert (t + t')[1..] == t[1..] + t';
      } else {
        EmbedsAppend(s[1..], t, s', t', dropped);
      }
    }
  }

  /** A prefix made only of droppable characters may be deleted. */
  lemma {:induction false} EmbedsDropPrefix(s: string, t: string, k: nat, dropped: char -> bool)
    requires k <= |s| && (forall j :: 0 <= j < k ==> dropped(s[j])) && Embeds(s[k..], t, dropped)
    ensures Embeds(s, t, dropped)
    decreases k
  {
    if k > 0 {
      assert s[1..][k - 1..] == s[k..];
      EmbedsDropPrefix(s[1..], t, k - 1, dropped);
    }
  }

  /** The comma repair only deletes: each character it keeps is the original's, in order, and it removes only commas and whitespace. */
  lemma {:induction false} DropTrailingCommasOnlyDeletes(s: string)
    ensures Embeds(s, DropTrailingCommas(s), IsCommaOrSpace)
    decreases |s|
  {
    if |s| > 0 {
      var n := SpaceRun(s, 1);
      if s[0] == ',' && 1 + n < |s| && (s[1 + n] == '}' || s[1 + n] == ']') {
        var r := DropTrailingCommas(s[2 + n..]);
        SpaceRunIsMaximal(s, 1);
        DropTrailingCommasOnlyDeletes(s[2 + n..]);
        var u := s[1 + n..];
        assert u[1..] == s[2 + n..];
        assert Embeds(u, [s[1 + n]] + r, IsCommaOrSpace) by {
          assert ([s[1 + n]] + r)[1..] == r;
        }
        EmbedsDropPrefix(s, [s[1 + n]] + r, 1 + n, IsCommaOrSpace);
      } else {
        DropTrailingCommasOnlyDeletes(s[1..]);
        assert ([s[0]] + DropTrailingCommas(s[1..]))[1..] == DropTrailingCommas(s[1..]);
      }
    }
  }

  /** Characters kept on both sides keep the embedding. */
  lemma {:induction false} EmbedsKeep(x: string, u': string, u: string, dropped: char -> bool)
    requires Embeds(u', u, dropped)
    ensures Embeds(x + u', x + u, dropped)
  {
    EmbedsSelf(x, dropped);
    EmbedsAppend(x, x, u', u, dropped);
  }

  /** An inserted quote is deleted again. */
  lemma EmbedsQuote(u': string, u: string)
    requires Embeds(u', u, IsQuote)
    ensures Embeds("\"" + u', u, IsQuote)
  {
    assert ("\"" + u')[1..] == u';
  }

  /** One quoted key: the key and what surrounds it are kept, the two quotes are inserted. */
  lemma QuotedKeyEmbeds(x: string, k: string, y: string, rest': string, rest: string)
    requires Embeds(rest', rest, IsQuote)
    ensures Embeds(x + "\"" + k + "\"" + y + rest', x + k + y + rest, IsQuote)
  {
    EmbedsKeep(y, rest', rest, IsQuote);
    EmbedsQuote(y + rest', y + rest);
    EmbedsKeep(k, "\"" + (y + rest'), y + rest, IsQuote);
    EmbedsQuote(k + ("\"" + (y + rest')), k + (y + rest));
    EmbedsKeep(x, "\"" + (k + ("\"" + (y + rest'))), k + (y + rest), IsQuote);
    assert x + "\"" + k + "\"" + y + rest' == x + ("\"" + (k + ("\"" + (y + rest'))));
    assert x + k + y + rest == x + (k + (y + rest));
  }

  lemma SplitAt(s: string, a: nat, b: nat, c: nat)
    requires a <= b <= c < |s|
    ensures s[..a] + s[a..b] + s[b..c + 1] + s[c + 1..] == s
  {
    assert s[..a] + s[a..b] == s[..b];
    assert s[..b] + s[b..c + 1] == s[..c + 1];
  }

  /** The key repair only inserts double quotes: deleting quotes from its output gives the input back. */
  lemma {:induction false} QuoteKeysOnlyInserts(s: string)
    ensures Embeds(QuoteKeys(s), s, IsQuote)
    decreases |s|
  {
    if |s| > 0 {
      match KeyMatch(s)
      case Some((a, b, c)) =>
        QuoteKeysOnlyInserts(s[c + 1..]);
        QuotedKeyEmbeds(s[..a], s[a..b], s[b..c + 1], QuoteKeys(s[c + 1..]), s[c + 1..]);
        SplitAt(s, a, b, c);
      case None =>
        QuoteKeysOnlyInserts(s[1..]);
        EmbedsKeep([s[0]], QuoteKeys(s[1..]), s[1..], IsQuote);
        assert [s[0]] + s[1..] == s;
    }
  }

  /** A text with no comma and no opening brace has nothing to repair. */
  lemma {:induction false} RepairIdentity(s: string)
    requires !ContainsChar(s, ',') && !ContainsChar(s, '{')
    ensures Repaired(s) == s
    decreases |s|
  {
    if |s| > 0 {
      assert !ContainsChar(s[1..], ',') && !ContainsChar(s[1..], '{') by {
        forall i | 0 <= i < |s[1..]| ensures s[1..][i] != ',' && s[1..][i] != '{' {
          assert s[1..][i] == s[i + 1];
        }
      }
      RepairIdentity(s[1..]);
      assert s[0] != ',' && s[0] != '{';
      assert DropTrailingCommas(s) == [s[0]] + DropTrailingCommas(s[1..]);
      assert DropTrailingCommas(s[1..]) == s[1..] by {
        DropIdentity(s[1..]);
      }
      DropIdentity(s);
    }
  }

  lemma {:induction false} DropIdentity(s: string)
    requires !ContainsChar(s, ',')
    ensures DropTrailingCommas(s) == s
    decreases |s|
  {
    if |s| > 0 {
      assert !ContainsChar(s[1..], ',') by {
        forall i | 0 <= i < |s[1..]| ensures s[1..][i] != ',' {
          assert s[1..][i] == s[i + 1];
        }
      }
      DropIdentity(s[1..]);
      assert s[0] != ',';
    }
  }

  /** A character other than `{` and `,` is copied as it is. */
  lemma QuoteKeysCopies(c: char, rest: string)
    requires c != '{' && c != ','
    ensures QuoteKeys([c] + rest) == [c] + QuoteKeys(rest)
  {
    assert ([c] + rest)[1..] == rest;
  }

  lemma BareKeyMatch()
    ensures KeyMatch("{a:1}") == Some((1, 2, 2))
  {
    var s := "{a:1}";
    assert SpaceRun(s, 1) == 0;
    assert WordRun(s, 1) == 1 by { assert WordRun(s, 2) == 0; }
    assert SpaceRun(s, 2) == 0;
  }

  lemma BareKeyPieces()
    ensures var s := "{a:1}";
            s[..1] + "\"" + s[1..2] + "\"" + s[2..3] + s[3..] == "{\"a\":1}"
  {
  }

  /** The repair quotes a bare key: `{a:1}` becomes `{"a":1}`. */
  lemma QuotesBareKey()
    ensures Repaired("{a:1}") == "{\"a\":1}"
  {
    var s := "{a:1}";
    DropIdentity(s);
    BareKeyMatch();
    assert s[3..] == "1}";
    assert QuoteKeys("1}") == "1}" by {
      QuoteKeysCopies('}', "");
      QuoteKeysCopies('1', "}");
    }
    BareKeyPieces();
  }

  /** The repair drops a trailing comma: `[1,]` becomes `[1]`. */
  lemma DropsTrailingComma()
    ensures Repaired("[1,]") == "[1]"
  {
    TrailingCommaDropped();
    NoKeysToQuote();
  }

  lemma TrailingCommaDropped()
    ensures DropTrailingCommas("[1,]") == "[1]"
  {
    assert DropTrailingCommas(",]") == "]" by {
      assert SpaceRun(",]", 1) == 0 && ",]"[2..] == "";
    }
    assert DropTrailingCommas("1,]") == "1]" by {
      assert SpaceRun("1,]", 1) == 0 && "1,]"[1..] == ",]";
    }
    assert SpaceRun("[1,]", 1) == 0 && "[1,]"[1..] == "1,]";
  }

  lemma NoKeysToQuote()
    ensures QuoteKeys("[1]") == "[1]"
  {
    assert QuoteKeys("]") == "]" by {
      assert KeyMatch("]") == None && "]"[1..] == "";
    }
    assert QuoteKeys("1]") == "1]" by {
      assert KeyMatch("1]") == None && "1]"[1..] == "]";
    }
    assert KeyMatch("[1]") == None && "[1]"[1..] == "1]";
  }

  // ---------------------------------------------------------------------
  // Parsing
  // ---------------------------------------------------------------------

  datatype Json =
    | JsonNull
    | JsonBool(b: bool)
    | JsonNumber(n: real)
    | JsonString(s: string)
    | JsonArray(items: seq<Json>)
    | JsonObject(members: seq<(string, Json)>)

  datatype ParseResult = ParseResult(
    success: bool,
    data: Json,
    error: Option<string>,
    rawText: string,
    cleanedText: Option<string>)

  const EmptyInputError := "Empty or invalid input"

  /**
   * `parseJsonSafe`: an empty input fails at once; otherwise the cleaned text
   * is parsed, then its repair; when both fail the fallback is returned with
   * the second parser error.
   */
  function ParseJsonSafe(raw: string, fallback: Json, parse: string -> Result<Json, string>): (r: ParseResult)
    ensures r.rawText == raw
    ensures raw == [] ==> !r.success && r.data == fallback && r.error == Some(EmptyInputError) && r.cleanedText == None
    ensures raw != [] ==> (r.success <==> parse(Cleaned(raw)).Success? || parse(Repaired(Cleaned(raw))).Success?)
    ensures r.success ==> r.error == None && r.cleanedText.Some? && parse(r.cleanedText.value) == Success(r.data)
    ensures raw != [] && parse(Cleaned(raw)).Success? ==>
              r.data == parse(Cleaned(raw)).value && r.cleanedText == Some(Cleaned(raw))
    ensures !r.success ==> r.data == fallback
    ensures raw != [] && !r.success ==>
              r.error == Some(parse(Repaired(Cleaned(raw))).error) && r.cleanedText == Some(Cleaned(raw))
  {
    if raw == [] then
      ParseResult(false, fallback, Some(EmptyInputError), raw, None)
    else
      var cleanedText := Cleaned(raw);
      match parse(cleanedText)
      case Success(parsed) => ParseResult(true, parsed, None, raw, Some(cleanedText))
      case Failure(_) =>
        var fixedText := Repaired(cleanedText);
        match parse(fixedText)
        case Success(parsed) => ParseResult(true, parsed, None, raw, Some(fixedText))
        case Failure(e2) => ParseResult(false, fallback, Some(e2), raw, Some(cleanedText))
  }

  /** `parseJsonArray`: the parsed array's items, and `[]` on any failure or when the value is not an array. */
  function ParseJsonArray(raw: string, parse: string -> Result<Json, string>): (items: seq<Json>)
    ensures raw == [] ==> items == []
    ensures items != [] ==> exists text :: text in {Cleaned(raw), Repaired(Cleaned(raw))} && parse(text) == Success(JsonArray(items))
    ensures raw != [] && parse(Cleaned(raw)).Success? ==>
              items == (if parse(Cleaned(raw)).value.JsonArray? then parse(Cleaned(raw)).value.items else [])
  {
    var result := ParseJsonSafe(raw, JsonArray([]), parse);
    if result.success && result.data.JsonArray? then result.data.items else []
  }

  /** `parseJsonObject`: the parsed value when it is an object (not null, not an array), else the fallback. */
  function ParseJsonObject(raw: string, fallback: Json, parse: string -> Result<Json, string>): (r: Json)
    ensures r == fallback || r.JsonObject?
    ensures raw == [] ==> r == fallback
    ensures r != fallback ==> exists text :: text in {Cleaned(raw), Repaired(Cleaned(raw))} && parse(text) == Success(r)
    ensures raw != [] && parse(Cleaned(raw)).Success? ==>
              r == (if parse(Cleaned(raw)).value.JsonObject? then parse(Cleaned(raw)).value else fallback)
  {
    var result := ParseJsonSafe(raw, fallback, parse);
    if result.success && result.data.JsonObject? then result.data else fallback
  }
}
