/**
 * The interactive-storytelling syntax of chat messages: `[narrator]`,
 * `*action*` or `**action**`, `(thought)`, the placeholders `{user}` and
 * `{char}`, and plain dialogue in between.
 *
 * The combined global regular expression of the parser is written out as
 * `MatchAt` (the alternatives at one position, tried in order) and
 * `FindMatch` (the leftmost position from `lastIndex` on, as `exec` does).
 */
module NarrativeParser {
  import opened Common

  datatype TokenType = Narrator | Action | Thought | Placeholder | Dialogue

  datatype Token = Token(kind: TokenType, content: string, raw: string)

  datatype ParsedNarrative = ParsedNarrative(tokens: seq<Token>, hasNarrative: bool, narrativeTypes: seq<TokenType>)

  /** The five capture groups of the combined pattern, in their order. */
  datatype Alternative = Bracket | DoubleStar | Star | Paren | Brace

  /** A match of the combined pattern: the group that matched and the end (exclusive) of the match. */
  datatype Match = Match(alt: Alternative, end: nat)

  // ---------------------------------------------------------------------
  // The pattern
  // ---------------------------------------------------------------------

  /** The first position at or after `j` holding `c`: the stop of a greedy `[^c]+` run. */
  function NextChar(s: string, j: nat, c: char): (r: Option<nat>)
    ensures r.Some? ==> j <= r.value < |s| && s[r.value] == c
    decreases |s| - j
  {
    if j >= |s| then None
    else if s[j] == c then Some(j)
    else NextChar(s, j + 1, c)
  }

  /** No `c` lies between `j` and the position found, nor anywhere after `j` when none is found. */
  lemma {:induction false} NextCharFirst(s: string, j: nat, c: char)
    ensures NextChar(s, j, c).Some? ==> forall m :: j <= m < NextChar(s, j, c).value ==> s[m] != c
    ensures NextChar(s, j, c).None? ==> forall m :: j <= m < |s| ==> s[m] != c
    decreases |s| - j
  {
    if j < |s| && s[j] != c {
      NextCharFirst(s, j + 1, c);
    }
  }

  /**
   * `open [^close]+ close` starting at `i`: the end (exclusive) of the
   * match, just past the first `close` after the opener, provided at least
   * one other character lies between.
   */
  /** The first occurrence at or after `j` is the one position with no earlier occurrence. */
  lemma {:induction false} NextCharFound(s: string, j: nat, c: char, k: nat)
    requires j <= k < |s| && s[k] == c
    requires forall m :: j <= m < k ==> s[m] != c
    ensures NextChar(s, j, c) == Some(k)
    decreases k - j
  {
    if j < k {
      NextCharFound(s, j + 1, c, k);
    }
  }

  function Enclosed(s: string, i: nat, open: char, close: char): (r: Option<nat>)
    ensures r.Some? ==> i + 3 <= r.value <= |s| && s[i] == open && s[r.value - 1] == close
  {
    if i < |s| && s[i] == open then
      match NextChar(s, i + 1, close)
      case Some(k) => if k > i + 1 then Some(k + 1) else None
      case None => None
    else None
  }

  /** The pattern matches at `i` exactly when a non-closer follows the opener and a closer comes later; the match stops at the first closer. */
  /** A marker pair with a non-empty interior free of the closer is enclosed. */
  lemma EnclosedAt(s: string, i: nat, open: char, close: char, k: nat)
    requires i + 1 < k < |s| && s[i] == open && s[k] == close
    requires forall m :: i < m < k ==> s[m] != close
    ensures Enclosed(s, i, open, close) == Some(k + 1)
  {
    NextCharFound(s, i + 1, close, k);
  }

  lemma EnclosedNoCloser(s: string, i: nat, open: char, close: char)
    requires Enclosed(s, i, open, close).Some?
    ensures forall m :: i < m < Enclosed(s, i, open, close).value - 1 ==> s[m] != close
  {
    NextCharFirst(s, i + 1, close);
  }

  lemma EnclosedIff(s: string, i: nat, open: char, close: char)
    ensures Enclosed(s, i, open, close).None? <==> !(i + 1 < |s| && s[i] == open && s[i + 1] != close
                                                     && exists m :: i + 1 < m < |s| && s[m] == close)
  {
    NextCharFirst(s, i + 1, close);
  }

  /** `\*\*[^*]+\*\*` starting at `i`. */
  function DoubleEnclosed(s: string, i: nat): (r: Option<nat>)
    ensures r.Some? ==> i + 5 <= r.value <= |s| && s[i] == '*' && s[i + 1] == '*'
                        && s[r.value - 2] == '*' && s[r.value - 1] == '*'
  {
    if i + 1 < |s| && s[i] == '*' && s[i + 1] == '*' then
      match NextChar(s, i + 2, '*')
      case Some(k) => if k > i + 2 && k + 1 < |s| && s[k + 1] == '*' then Some(k + 2) else None
      case None => None
    else None
  }

  /** The run between the double stars holds no star. */
  lemma DoubleEnclosedNoStar(s: string, i: nat)
    requires DoubleEnclosed(s, i).Some?
    ensures forall m :: i + 1 < m < DoubleEnclosed(s, i).value - 2 ==> s[m] != '*'
  {
    NextCharFirst(s, i + 2, '*');
  }

  /** The placeholders of the parser's pattern, matched case-sensitively. */
  predicate PlaceholderAt(s: string, i: nat)
  {
    OccursAt(s, "{user}", i) || OccursAt(s, "{char}", i)
  }

  /** The combined pattern at position `i`: the first alternative that matches there wins. */
  function MatchAt(s: string, i: nat): (r: Option<Match>)
    ensures r.Some? ==> i + 3 <= r.value.end <= |s|
  {
    if Enclosed(s, i, '[', ']').Some? then Some(Match(Bracket, Enclosed(s, i, '[', ']').value))
    else if DoubleEnclosed(s, i).Some? then Some(Match(DoubleStar, DoubleEnclosed(s, i).value))
    else if Enclosed(s, i, '*', '*').Some? then Some(Match(Star, Enclosed(s, i, '*', '*').value))
    else if Enclosed(s, i, '(', ')').Some? then Some(Match(Paren, Enclosed(s, i, '(', ')').value))
    else if PlaceholderAt(s, i) then Some(Match(Brace, i + 6))
    else None
  }

  /** `pattern.exec(text)` with `lastIndex == from`: the leftmost position at or after `from` where the pattern matches. */
  function FindMatch(s: string, from: nat): (r: Option<nat>)
    ensures r.Some? ==> from <= r.value < |s| && MatchAt(s, r.value).Some?
    decreases |s| - from
  {
    if from >= |s| then None
    else if MatchAt(s, from).Some? then Some(from)
    else FindMatch(s, from + 1)
  }

  /** The match found is the leftmost one: the pattern matches nowhere between `from` and it (or the end). */
  lemma {:induction false} FindMatchLeftmost(s: string, from: nat)
    ensures FindMatch(s, from).Some? ==> forall j :: from <= j < FindMatch(s, from).value ==> MatchAt(s, j).None?
    ensures FindMatch(s, from).None? <==> forall j :: from <= j < |s| ==> MatchAt(s, j).None?
    decreases |s| - from
  {
    if from < |s| && MatchAt(s, from).None? {
      FindMatchLeftmost(s, from + 1);
      assert FindMatch(s, from) == FindMatch(s, from + 1);
    }
  }

  // ---------------------------------------------------------------------
  // Tokens
  // ---------------------------------------------------------------------

  function KindOf(alt: Alternative): TokenType
  {
    match alt
    case Bracket => Narrator
    case DoubleStar => Action
    case Star => Action
    case Paren => Thought
    case Brace => Placeholder
  }

  /** The token of a match: the matched text as raw, without its delimiters as content. */
  function MarkerToken(s: string, i: nat, m: Match): Token
    requires i + 3 <= m.end <= |s|
    requires m.alt == DoubleStar ==> i + 5 <= m.end
  {
    var raw := s[i..m.end];
    var content := if m.alt == DoubleStar then raw[2..|raw| - 2] else raw[1..|raw| - 1];
    Token(KindOf(m.alt), content, raw)
  }

  /** Whitespace only (or empty): the texts whose `trim()` is empty. */
  predicate Blank(g: string)
  {
    |g| == 0 || (IsSpace(g[0]) && Blank(g[1..]))
  }

  lemma {:induction false} BlankIsTrimEmpty(g: string)
    ensures Blank(g) <==> AllSpace(g)
    ensures Blank(g) <==> Trim(g) == ""
    decreases |g|
  {
    TrimEmptyIffAllSpace(g);
    if |g| > 0 {
      BlankIsTrimEmpty(g[1..]);
      assert forall i :: 1 <= i < |g| ==> g[i] == g[1..][i - 1];
    }
  }

  /** Plain text between matches becomes a dialogue token unless it is blank. */
  function Gap(g: string): seq<Token>
  {
    if Blank(g) then [] else [Token(Dialogue, g, g)]
  }

  /** The tokens the scan emits from `from` on. */
  function ScanFrom(s: string, from: nat): seq<Token>
    requires from <= |s|
    decreases |s| - from
  {
    match FindMatch(s, from)
    case None => Gap(s[from..])
    case Some(i) =>
      var m := MatchAt(s, i).value;
      Gap(s[from..i]) + [MarkerToken(s, i, m)] + ScanFrom(s, m.end)
  }

  /** The `Set` of narrative types, listed in insertion order. */
  function AddType(types: seq<TokenType>, kind: TokenType): seq<TokenType>
  {
    if kind == Dialogue || kind in types then types else types + [kind]
  }

  function TypesOf(ts: seq<Token>): seq<TokenType>
  {
    if |ts| == 0 then [] else AddType(TypesOf(ts[..|ts| - 1]), ts[|ts| - 1].kind)
  }

  /** What `parseNarrativeContent` returns. */
  function Parse(text: string): ParsedNarrative
  {
    if text == "" then ParsedNarrative([Token(Dialogue, "", "")], false, [])
    else
      var scanned := ScanFrom(text, 0);
      var tokens := if scanned == [] then [Token(Dialogue, text, text)] else scanned;
      ParsedNarrative(tokens, |TypesOf(scanned)| > 0, TypesOf(scanned))
  }

  lemma TypesOfAppend(ts: seq<Token>, t: Token)
    ensures TypesOf(ts + [t]) == AddType(TypesOf(ts), t.kind)
  {
    assert (ts + [t])[..|ts|] == ts;
  }

  /** One round of the scan: the gap before the leftmost match, the match's token, then the rest. */
  lemma ScanStep(s: string, from: nat)
    requires from <= |s| && FindMatch(s, from).Some?
    ensures var i := FindMatch(s, from).value;
            var m := MatchAt(s, i).value;
            ScanFrom(s, from) == Gap(s[from..i]) + [MarkerToken(s, i, m)] + ScanFrom(s, m.end)
  {
  }

  lemma ConcatAssoc(a: seq<Token>, b: seq<Token>, t: Token, c: seq<Token>)
    ensures a + b + [t] + c == a + (b + [t] + c)
  {
  }

  /** `tokens.push(token)`, with `narrativeTypes.add(type)` for a marker token. */
  method PushToken(tokens: seq<Token>, types: seq<TokenType>, token: Token) returns (tokens': seq<Token>, types': seq<TokenType>)
    requires types == TypesOf(tokens)
    ensures tokens' == tokens + [token]
    ensures types' == TypesOf(tokens')
  {
    TypesOfAppend(tokens, token);
    tokens' := tokens + [token];
    types' := if token.kind == Dialogue then types else AddType(types, token.kind);
  }

  /**
   * The body of the `exec` loop for a match at `index`: the plain text
   * since `lastIndex` (unless it is blank), then the match's token; the
   * new `lastIndex` is the end of the match.
   */
  method PushMatch(text: string, lastIndex: nat, index: nat, tokens: seq<Token>, types: seq<TokenType>)
    returns (tokens': seq<Token>, types': seq<TokenType>, end: nat)
    requires lastIndex <= |text| && FindMatch(text, lastIndex) == Some(index)
    requires types == TypesOf(tokens)
    ensures lastIndex < end <= |text|
    ensures tokens' + ScanFrom(text, end) == tokens + ScanFrom(text, lastIndex)
    ensures types' == TypesOf(tokens')
  {
    var m := MatchAt(text, index).value;
    ScanStep(text, lastIndex);
    ghost var gap := Gap(text[lastIndex..index]);
    ghost var rest := ScanFrom(text, m.end);
    tokens', types' := tokens, types;
    if index > lastIndex {
      var plainText := text[lastIndex..index];
      // `plainText.trim()` is non-empty exactly when the text is not blank (`BlankIsTrimEmpty`)
      if !Blank(plainText) {
        tokens', types' := PushToken(tokens', types', Token(Dialogue, plainText, plainText));
      }
    }
    assert tokens' == tokens + gap;
    var token := MarkerToken(text, index, m);
    tokens', types' := PushToken(tokens', types', token);
    ConcatAssoc(tokens, gap, token, rest);
    end := m.end;
  }

  /** `parseNarrativeContent`: the `exec` loop, pushing tokens and recording narrative types. */
  method ParseNarrativeContent(text: string) returns (r: ParsedNarrative)
    ensures r == Parse(text)
  {
    if text == "" {
      return ParsedNarrative([Token(Dialogue, "", "")], false, []);
    }
    var tokens: seq<Token> := [];
    var types: seq<TokenType> := [];
    var lastIndex: nat := 0;
    var next := FindMatch(text, lastIndex);
    while next.Some?
      invariant lastIndex <= |text|
      invariant next == FindMatch(text, lastIndex)
      invariant tokens + ScanFrom(text, lastIndex) == ScanFrom(text, 0)
      invariant types == TypesOf(tokens)
      decreases |text| - lastIndex
    {
      tokens, types, lastIndex := PushMatch(text, lastIndex, next.value, tokens, types);
      next := FindMatch(text, lastIndex);
    }
    assert ScanFrom(text, lastIndex) == Gap(text[lastIndex..]);
    if lastIndex < |text| {
      var remainingText := text[lastIndex..];
      if !Blank(remainingText) {
        tokens, types := PushToken(tokens, types, Token(Dialogue, remainingText, remainingText));
      }
    }
    assert tokens == ScanFrom(text, 0);
    var hasNarrative := |types| > 0;
    if |tokens| == 0 {
      tokens := [Token(Dialogue, text, text)];
    }
    r := ParsedNarrative(tokens, hasNarrative, types);
  }

  // ---------------------------------------------------------------------
  // Properties of the parse
  // ---------------------------------------------------------------------

  /** The shape every token of the scan has. */
  predicate WellFormed(t: Token)
  {
    match t.kind
    case Dialogue => t.content == t.raw && !Blank(t.raw)
    case Narrator => |t.content| >= 1 && t.raw == ['['] + t.content + [']'] && !ContainsChar(t.content, ']')
    case Action =>
      |t.content| >= 1 && !ContainsChar(t.content, '*')
      && (t.raw == ['*'] + t.content + ['*'] || t.raw == "**" + t.content + "**")
    case Thought => |t.content| >= 1 && t.raw == ['('] + t.content + [')'] && !ContainsChar(t.content, ')')
    case Placeholder => (t.content == "user" || t.content == "char") && t.raw == ['{'] + t.content + ['}']
  }

  /** The text of an `open [^close]+ close` match is its delimiters around the text between. */
  lemma EnclosedShape(s: string, i: nat, open: char, close: char)
    requires Enclosed(s, i, open, close).Some?
    ensures var e := Enclosed(s, i, open, close).value;
            var raw := s[i..e];
            raw[1..|raw| - 1] == s[i + 1..e - 1] && raw == [open] + s[i + 1..e - 1] + [close]
            && !ContainsChar(s[i + 1..e - 1], close)
  {
    var e := Enclosed(s, i, open, close).value;
    var raw := s[i..e];
    assert raw[0] == open && raw[|raw| - 1] == close;
    assert raw == [raw[0]] + raw[1..|raw| - 1] + [raw[|raw| - 1]];
    var content := s[i + 1..e - 1];
    assert raw[1..|raw| - 1] == content;
    EnclosedNoCloser(s, i, open, close);
    assert forall k :: 0 <= k < |content| ==> content[k] == s[i + 1 + k];
  }

  /** The token of a bracket, star or parenthesis match: its delimiters around a non-empty content without the closer. */
  lemma EnclosedTokenWellFormed(s: string, i: nat, alt: Alternative, open: char, close: char)
    requires (alt, open, close) in {(Bracket, '[', ']'), (Star, '*', '*'), (Paren, '(', ')')}
    requires Enclosed(s, i, open, close).Some?
    ensures WellFormed(MarkerToken(s, i, Match(alt, Enclosed(s, i, open, close).value)))
  {
    EnclosedShape(s, i, open, close);
  }

  /** The token of a `**` match: two stars on each side of a non-empty content without stars. */
  lemma DoubleStarTokenWellFormed(s: string, i: nat)
    requires DoubleEnclosed(s, i).Some?
    ensures WellFormed(MarkerToken(s, i, Match(DoubleStar, DoubleEnclosed(s, i).value)))
  {
    var e := DoubleEnclosed(s, i).value;
    var raw := s[i..e];
    var content := s[i + 2..e - 2];
    assert raw[2..|raw| - 2] == content;
    assert raw == "**" + content + "**";
    DoubleEnclosedNoStar(s, i);
    assert forall k :: 0 <= k < |content| ==> content[k] == s[i + 2 + k];
  }

  /** The token of a placeholder match: `user` or `char` in braces. */
  lemma PlaceholderTokenWellFormed(s: string, i: nat)
    requires i + 6 <= |s| && PlaceholderAt(s, i)
    ensures WellFormed(MarkerToken(s, i, Match(Brace, i + 6)))
  {
    var raw := s[i..i + 6];
    assert raw == "{user}" || raw == "{char}";
    var content := raw[1..|raw| - 1];
    assert content == "user" || content == "char";
    assert raw == ['{'] + content + ['}'];
  }

  lemma MarkerTokenWellFormed(s: string, i: nat)
    requires MatchAt(s, i).Some?
    ensures WellFormed(MarkerToken(s, i, MatchAt(s, i).value))
  {
    if Enclosed(s, i, '[', ']').Some? {
      EnclosedTokenWellFormed(s, i, Bracket, '[', ']');
    } else if DoubleEnclosed(s, i).Some? {
      DoubleStarTokenWellFormed(s, i);
    } else if Enclosed(s, i, '*', '*').Some? {
      EnclosedTokenWellFormed(s, i, Star, '*', '*');
    } else if Enclosed(s, i, '(', ')').Some? {
      EnclosedTokenWellFormed(s, i, Paren, '(', ')');
    } else {
      PlaceholderTokenWellFormed(s, i);
    }
  }

  /**
   * Every dialogue token of the scan is non-blank plain text, and every
   * other token is its delimiters around a non-empty content.
   */
  lemma {:induction false} ScanWellFormed(s: string, from: nat)
    requires from <= |s|
    ensures forall k :: 0 <= k < |ScanFrom(s, from)| ==> WellFormed(ScanFrom(s, from)[k])
    decreases |s| - from
  {
    match FindMatch(s, from)
    case None =>
    case Some(i) =>
      var m := MatchAt(s, i).value;
      MarkerTokenWellFormed(s, i);
      ScanWellFormed(s, m.end);
  }

  /** Without a match the scan emits no marker; with one, it emits a marker token. */
  lemma ScanHasMarkerIffMatch(s: string, from: nat)
    requires from <= |s|
    ensures (exists k :: 0 <= k < |ScanFrom(s, from)| && ScanFrom(s, from)[k].kind != Dialogue)
            <==> FindMatch(s, from).Some?
  {
    match FindMatch(s, from)
    case None =>
    case Some(i) =>
      var m := MatchAt(s, i).value;
      var g := Gap(s[from..i]);
      assert ScanFrom(s, from)[|g|] == MarkerToken(s, i, m);
  }

  /** The recorded types are distinct non-dialogue kinds: exactly the kinds of the non-dialogue tokens. */
  lemma {:induction false} TypesOfFacts(ts: seq<Token>)
    ensures NoDuplicates(TypesOf(ts))
    ensures Dialogue !in TypesOf(ts)
    ensures forall t :: t in TypesOf(ts) ==> exists k :: 0 <= k < |ts| && ts[k].kind == t
    ensures forall k :: 0 <= k < |ts| && ts[k].kind != Dialogue ==> ts[k].kind in TypesOf(ts)
    decreases |ts|
  {
    if |ts| > 0 {
      var init := ts[..|ts| - 1];
      TypesOfFacts(init);
      assert forall k :: 0 <= k < |init| ==> init[k] == ts[k];
    }
  }

  /** hasNarrative holds exactly when some token is not dialogue, and the narrative types are distinct. */
  lemma ParseFacts(text: string)
    ensures |Parse(text).tokens| >= 1
    ensures text == "" ==> Parse(text).tokens == [Token(Dialogue, "", "")] && !Parse(text).hasNarrative
    ensures text != "" && ScanFrom(text, 0) == [] ==> Parse(text).tokens == [Token(Dialogue, text, text)]
    ensures Parse(text).hasNarrative <==> exists k :: 0 <= k < |Parse(text).tokens| && Parse(text).tokens[k].kind != Dialogue
    ensures NoDuplicates(Parse(text).narrativeTypes) && Dialogue !in Parse(text).narrativeTypes
  {
    if text != "" {
      var scanned := ScanFrom(text, 0);
      TypesOfFacts(scanned);
      if Parse(text).hasNarrative {
        assert TypesOf(scanned)[0] in TypesOf(scanned);
      }
    }
  }

  /** The scanned tokens (the parse unless it fell back to one dialogue token) are all well formed. */
  lemma ParseTokensWellFormed(text: string)
    requires text != "" && ScanFrom(text, 0) != []
    ensures forall k :: 0 <= k < |Parse(text).tokens| ==> WellFormed(Parse(text).tokens[k])
  {
    ScanWellFormed(text, 0);
  }

  // ---------------------------------------------------------------------
  // The raw texts reproduce the input up to blank gaps
  // ---------------------------------------------------------------------

  function RemoveSpaces(s: string): string
  {
    if |s| == 0 then "" else (if IsSpace(s[0]) then "" else [s[0]]) + RemoveSpaces(s[1..])
  }

  function ConcatRaw(ts: seq<Token>): string
  {
    if |ts| == 0 then "" else ts[0].raw + ConcatRaw(ts[1..])
  }

  lemma {:induction false} RemoveSpacesAppend(a: string, b: string)
    ensures RemoveSpaces(a + b) == RemoveSpaces(a) + RemoveSpaces(b)
    decreases |a|
  {
    if |a| > 0 {
      assert (a + b)[0] == a[0] && (a + b)[1..] == a[1..] + b;
      RemoveSpacesAppend(a[1..], b);
    } else {
      assert a + b == b;
    }
  }

  lemma {:induction false} RemoveSpacesOfBlank(g: string)
    requires Blank(g)
    ensures RemoveSpaces(g) == ""
    decreases |g|
  {
    if |g| > 0 {
      RemoveSpacesOfBlank(g[1..]);
    }
  }

  lemma {:induction false} ConcatRawAppend(a: seq<Token>, b: seq<Token>)
    ensures ConcatRaw(a + b) == ConcatRaw(a) + ConcatRaw(b)
    decreases |a|
  {
    if |a| > 0 {
      assert (a + b)[0] == a[0] && (a + b)[1..] == a[1..] + b;
      ConcatRawAppend(a[1..], b);
    } else {
      assert a + b == b;
    }
  }

  lemma GapRaw(g: string)
    ensures RemoveSpaces(ConcatRaw(Gap(g))) == RemoveSpaces(g)
  {
    if Blank(g) {
      RemoveSpacesOfBlank(g);
    } else {
      var ts := Gap(g);
      assert ts == [Token(Dialogue, g, g)];
      assert ConcatRaw(ts) == g + ConcatRaw(ts[1..]);
      assert ts[1..] == [];
      assert ConcatRaw(ts[1..]) == "";
      assert g + "" == g;
    }
  }

  lemma RemoveSpaces3(a: string, b: string, c: string)
    ensures RemoveSpaces(a + b + c) == RemoveSpaces(a) + RemoveSpaces(b) + RemoveSpaces(c)
  {
    RemoveSpacesAppend(a + b, c);
    RemoveSpacesAppend(a, b);
  }

  lemma ConcatRaw3(a: seq<Token>, t: Token, c: seq<Token>)
    ensures ConcatRaw(a + [t] + c) == ConcatRaw(a) + t.raw + ConcatRaw(c)
  {
    ConcatRawAppend(a + [t], c);
    ConcatRawAppend(a, [t]);
    assert [t][1..] == [];
  }

  /**
   * Concatenating the raw texts of the scanned tokens gives back the input
   * from `from` on, apart from the whitespace of the blank gaps that were
   * dropped.
   */
  lemma {:induction false} ScanReproducesInput(s: string, from: nat)
    requires from <= |s|
    ensures RemoveSpaces(ConcatRaw(ScanFrom(s, from))) == RemoveSpaces(s[from..])
    decreases |s| - from
  {
    match FindMatch(s, from)
    case None =>
      GapRaw(s[from..]);
    case Some(i) =>
      var m := MatchAt(s, i).value;
      ScanStep(s, from);
      GapRaw(s[from..i]);
      ScanReproducesInput(s, m.end);
      PiecesReproduce(s, from, i, m.end, Gap(s[from..i]), MarkerToken(s, i, m), ScanFrom(s, m.end));
  }

  /** A gap, a token and the rest reproduce the text from `from` on when each reproduces its own part. */
  lemma PiecesReproduce(s: string, from: nat, i: nat, e: nat, gap: seq<Token>, t: Token, rest: seq<Token>)
    requires from <= i <= e <= |s| && t.raw == s[i..e]
    requires RemoveSpaces(ConcatRaw(gap)) == RemoveSpaces(s[from..i])
    requires RemoveSpaces(ConcatRaw(rest)) == RemoveSpaces(s[e..])
    ensures RemoveSpaces(ConcatRaw(gap + [t] + rest)) == RemoveSpaces(s[from..])
  {
    var a, b, c := s[from..i], s[i..e], s[e..];
    assert s[from..] == a + b + c;
    RemoveSpaces3(a, b, c);
    ConcatRaw3(gap, t, rest);
    RemoveSpaces3(ConcatRaw(gap), b, ConcatRaw(rest));
  }

  // ---------------------------------------------------------------------
  // hasNarrativeSyntax
  // ---------------------------------------------------------------------

  /** The alternatives of the case-insensitive test pattern at position `i` (no `**` alternative, placeholders in any case). */
  predicate SyntaxAt(s: string, i: nat)
  {
    Enclosed(s, i, '[', ']').Some? || Enclosed(s, i, '*', '*').Some? || Enclosed(s, i, '(', ')').Some?
    || OccursAtCI(s, "{user}", i) || OccursAtCI(s, "{char}", i)
  }

  /** `hasNarrativeSyntax`: false for the empty text, otherwise whether the test pattern occurs anywhere. */
  predicate HasNarrativeSyntax(text: string)
  {
    text != "" && exists i :: 0 <= i < |text| && SyntaxAt(text, i)
  }

  /** A match of the parser's pattern is a match of the test pattern at the same place, or one further for `**`. */
  lemma MatchIsSyntax(s: string, i: nat)
    requires MatchAt(s, i).Some?
    ensures SyntaxAt(s, i) || (i + 1 < |s| && SyntaxAt(s, i + 1))
  {
    var m := MatchAt(s, i).value;
    if m.alt == DoubleStar {
      var k := NextChar(s, i + 2, '*').value;
      assert Enclosed(s, i + 1, '*', '*') == Some(k + 1);
    } else if m.alt == Brace {
      assert OccursAtCI(s, "{user}", i) || OccursAtCI(s, "{char}", i);
    }
  }

  /** Whenever the parse reports narrative, the syntax test agrees. */
  lemma NarrativeImpliesSyntax(text: string)
    requires Parse(text).hasNarrative
    ensures HasNarrativeSyntax(text)
  {
    ParseFacts(text);
    var k :| 0 <= k < |Parse(text).tokens| && Parse(text).tokens[k].kind != Dialogue;
    ScanHasMarkerIffMatch(text, 0);
    var i := FindMatch(text, 0).value;
    MatchIsSyntax(text, i);
  }

  /** Conversely, any match of the parser's (case-sensitive) pattern makes the parse report narrative. */
  lemma MatchImpliesNarrative(text: string, j: nat)
    requires MatchAt(text, j).Some?
    ensures Parse(text).hasNarrative
  {
    FindMatchLeftmost(text, 0);
    ScanHasMarkerIffMatch(text, 0);
    ParseFacts(text);
  }

  /** The two patterns differ on case: an upper-case placeholder passes the test but is parsed as dialogue. */
  lemma UpperCasePlaceholderIsOnlySyntax()
    ensures HasNarrativeSyntax("{USER}")
    ensures !Parse("{USER}").hasNarrative
  {
    var s := "{USER}";
    assert s[0..6] == s;
    assert OccursAtCI(s, "{user}", 0);
    assert SyntaxAt(s, 0);
    forall j | 0 <= j < |s| ensures MatchAt(s, j).None? {
      assert s[j] != '[' && s[j] != '*' && s[j] != '(';
      if j == 0 {
        assert s[0..6][1] != "{user}"[1] && s[0..6][1] != "{char}"[1];
      }
    }
    FindMatchLeftmost(s, 0);
    ScanHasMarkerIffMatch(s, 0);
    ParseFacts(s);
  }

  // ---------------------------------------------------------------------
  // replaceNarrativePlaceholders
  // ---------------------------------------------------------------------

  /**
   * Every `{user}`, then every `{char}`, in any letter case, replaced by the
   * names, with `$` patterns in a name expanded as a string replacement
   * expands them; the empty text is returned as is.
   */
  function ReplaceNarrativePlaceholders(text: string, userName: string, characterName: string): (r: string)
    ensures text == "" ==> r == ""
  {
    if text == "" then text
    else Replace(Replace(text, "{user}", userName, true), "{char}", characterName, true)
  }

  /** For names without `$`, the result is that of scanning for `{user}`, then `{char}`, a character at a time. */
  lemma ReplaceNarrativeByScan(text: string, userName: string, characterName: string)
    requires '$' !in userName && '$' !in characterName
    ensures ReplaceNarrativePlaceholders(text, userName, characterName)
              == ReplaceAllCI(ReplaceAllCI(text, "{user}", userName), "{char}", characterName)
  {
    if text != "" {
      var once := Replace(text, "{user}", userName, true);
      ReplaceMatchesScan(text, "{user}", userName, 0, true);
      assert text[0..] == text;
      ReplaceMatchesScan(once, "{char}", characterName, 0, true);
      assert once[0..] == once;
    } else {
      assert ReplaceAllCI(text, "{user}", userName) == text;
    }
  }

  /** A text without placeholders comes back unchanged. */
  lemma ReplaceWithoutPlaceholders(text: string, userName: string, characterName: string)
    requires !ContainsCI(text, "{user}") && !ContainsCI(text, "{char}")
    ensures ReplaceNarrativePlaceholders(text, userName, characterName) == text
  {
    if text != "" {
      ReplaceAbsent(text, "{user}", userName, true);
      ReplaceAbsent(text, "{char}", characterName, true);
    }
  }

  /** The user placeholder is replaced first, so a user name `{char}` is replaced in turn by the character's name. */
  lemma UserReplacedBeforeChar(tag: string, characterName: string)
    requires EqualsCI(tag, "{user}") && '$' !in characterName
    ensures ReplaceNarrativePlaceholders(tag, "{char}", characterName) == characterName
  {
    ReplaceWholeMatch(tag, "{user}", "{char}", true);
    assert '$' !in "{char}";
    ReplaceWholeMatch("{char}", "{char}", characterName, true);
  }

  /** With names without `$`, a leading text without `{` is copied and the rest is replaced on its own. */
  lemma ReplaceAfterPlainText(plain: string, rest: string, userName: string, characterName: string)
    requires '{' !in plain && '$' !in userName && '$' !in characterName
    ensures ReplaceNarrativePlaceholders(plain + rest, userName, characterName)
              == plain + ReplaceNarrativePlaceholders(rest, userName, characterName)
  {
    NoBraceStartsNoPlaceholder(plain);
    ReplacePlainPrefix(plain, rest, "{user}", userName, true);
    ReplacePlainPrefix(plain, Replace(rest, "{user}", userName, true), "{char}", characterName, true);
  }

  /**
   * With names without `$` and a user name without `{`, a leading user
   * placeholder becomes the user's name and the rest is replaced on its own.
   */
  lemma ReplaceAtUserTag(tag: string, rest: string, userName: string, characterName: string)
    requires EqualsCI(tag, "{user}") && '$' !in userName && '$' !in characterName && '{' !in userName
    ensures ReplaceNarrativePlaceholders(tag + rest, userName, characterName)
              == userName + ReplaceNarrativePlaceholders(rest, userName, characterName)
  {
    ReplaceLeadingMatch(tag, rest, "{user}", userName, true);
    NoBraceStartsNoPlaceholder(userName);
    ReplacePlainPrefix(userName, Replace(rest, "{user}", userName, true), "{char}", characterName, true);
  }

  /** With names without `$`, a leading character placeholder becomes the character's name and the rest is replaced on its own. */
  lemma ReplaceAtCharTag(tag: string, rest: string, userName: string, characterName: string)
    requires EqualsCI(tag, "{char}") && '$' !in userName && '$' !in characterName
    ensures ReplaceNarrativePlaceholders(tag + rest, userName, characterName)
              == characterName + ReplaceNarrativePlaceholders(rest, userName, characterName)
  {
    CharTagSurvivesUserPass(tag, rest, userName);
    ReplaceLeadingMatch(tag, Replace(rest, "{user}", userName, true), "{char}", characterName, true);
  }

  /** A user name `$&` puts every user placeholder back as it was written; only the character placeholders change. */
  lemma UserNameOfMatchPattern(text: string, characterName: string)
    ensures ReplaceNarrativePlaceholders(text, "$&", characterName)
              == if text == "" then "" else Replace(text, "{char}", characterName, true)
  {
    ReplaceByMatchKeeps(text, "{user}", 0, true);
    assert text[0..] == text;
  }

  /** A user name `$$` puts a single `$` in place of the user placeholder. */
  lemma UserNameOfEscapedDollar(tag: string, characterName: string)
    requires EqualsCI(tag, "{user}")
    ensures ReplaceNarrativePlaceholders(tag, "$$", characterName) == "$"
  {
    ReplaceWholeMatch(tag, "{user}", "$$", true);
    assert ExpandReplacement("$$", tag, 0, 6) == "$";
    ReplaceAbsent("$", "{char}", characterName, true);
  }

  // ---------------------------------------------------------------------
  // extractNarrativeContext
  // ---------------------------------------------------------------------

  datatype NarrativeContext = NarrativeContext(scene: Option<string>, actions: seq<string>, thoughts: Option<string>, dialogue: string)

  /** `tokens.find(t => t.type === kind)?.content`. */
  function FirstContent(ts: seq<Token>, kind: TokenType): Option<string>
  {
    if |ts| == 0 then None
    else if ts[0].kind == kind then Some(ts[0].content)
    else FirstContent(ts[1..], kind)
  }

  /** The content found is that of the first token of the kind, and nothing is found only without such a token. */
  lemma {:induction false} FirstContentIsFirst(ts: seq<Token>, kind: TokenType)
    ensures FirstContent(ts, kind).Some? ==>
              exists k :: 0 <= k < |ts| && ts[k].kind == kind && ts[k].content == FirstContent(ts, kind).value
                          && forall j :: 0 <= j < k ==> ts[j].kind != kind
    ensures FirstContent(ts, kind).None? <==> forall k :: 0 <= k < |ts| ==> ts[k].kind != kind
    decreases |ts|
  {
    if |ts| > 0 && ts[0].kind != kind {
      FirstContentIsFirst(ts[1..], kind);
      assert forall k :: 1 <= k < |ts| ==> ts[k] == ts[1..][k - 1];
      if FirstContent(ts, kind).Some? {
        var k :| 0 <= k < |ts[1..]| && ts[1..][k].kind == kind && ts[1..][k].content == FirstContent(ts, kind).value
                 && forall j :: 0 <= j < k ==> ts[1..][j].kind != kind;
        assert ts[k + 1].kind == kind;
      }
    }
  }

  /** `tokens.filter(t => t.type === kind).map(t => t.content)`. */
  function Contents(ts: seq<Token>, kind: TokenType): seq<string>
  {
    if |ts| == 0 then [] else (if ts[0].kind == kind then [ts[0].content] else []) + Contents(ts[1..], kind)
  }

  /** The filter keeps the selected contents in token order: appending a token appends its content iff it has the kind. */
  lemma {:induction false} ContentsAppend(a: seq<Token>, b: seq<Token>, kind: TokenType)
    ensures Contents(a + b, kind) == Contents(a, kind) + Contents(b, kind)
    decreases |a|
  {
    if |a| > 0 {
      assert (a + b)[0] == a[0] && (a + b)[1..] == a[1..] + b;
      ContentsAppend(a[1..], b, kind);
    } else {
      assert a + b == b;
    }
  }

  /** `x || null` for an optional string: the empty string counts as absent. */
  function OrNull(o: Option<string>): Option<string>
  {
    if o.Some? && o.value != "" then o else None
  }

  /**
   * `extractNarrativeContext`: the first narrator and thought contents, the
   * action contents in order and the dialogue joined with spaces and
   * trimmed; an empty scene or thought is reported as absent.
   */
  function ExtractNarrativeContext(text: string): (c: NarrativeContext)
    ensures c.scene.Some? ==> c.scene.value != "" && c.scene == FirstContent(Parse(text).tokens, Narrator)
    ensures c.thoughts.Some? ==> c.thoughts.value != "" && c.thoughts == FirstContent(Parse(text).tokens, Thought)
    ensures FirstContent(Parse(text).tokens, Narrator) == Some("") ==> c.scene.None?
    ensures FirstContent(Parse(text).tokens, Thought) == Some("") ==> c.thoughts.None?
  {
    var tokens := Parse(text).tokens;
    NarrativeContext(
      OrNull(FirstContent(tokens, Narrator)),
      Contents(tokens, Action),
      OrNull(FirstContent(tokens, Thought)),
      Trim(Join(Contents(tokens, Dialogue), " ")))
  }

  /** A scene (a thought) is reported exactly when the parse has a narrator (thought) token; it is the first one's content. */
  lemma ExtractSceneAndThought(text: string)
    ensures var c := ExtractNarrativeContext(text);
            var ts := Parse(text).tokens;
            (c.scene.Some? <==> exists k :: 0 <= k < |ts| && ts[k].kind == Narrator)
            && (c.thoughts.Some? <==> exists k :: 0 <= k < |ts| && ts[k].kind == Thought)
            && (c.scene.Some? ==> c.scene == FirstContent(ts, Narrator))
            && (c.thoughts.Some? ==> c.thoughts == FirstContent(ts, Thought))
  {
    var ts := Parse(text).tokens;
    FirstContentIsFirst(ts, Narrator);
    FirstContentIsFirst(ts, Thought);
    if text != "" && ScanFrom(text, 0) != [] {
      ParseTokensWellFormed(text);
    } else {
      assert |ts| == 1 && ts[0].kind == Dialogue;
    }
  }

  /** A text without any markup is all dialogue: no scene, actions or thoughts, and the trimmed text as dialogue. */
  lemma ExtractPlainText(text: string)
    requires FindMatch(text, 0).None?
    ensures ExtractNarrativeContext(text) == NarrativeContext(None, [], None, Trim(text))
  {
    var ts := Parse(text).tokens;
    assert ts == [Token(Dialogue, text, text)];
    assert ts[1..] == [];
    assert Contents(ts, Dialogue) == [text];
    assert Contents(ts, Action) == [];
    assert FirstContent(ts, Narrator) == None;
    assert FirstContent(ts, Thought) == None;
    assert Join([text], " ") == text;
  }
}
