/**
 * Shared vocabulary for the model: optional values and results, and the
 * string operations of JavaScript that the application code relies on
 * (`trim`, `toLowerCase`, `includes`, `indexOf`, `split`, `join`,
 * `replace` with a literal or case-insensitive pattern).
 *
 * Strings are sequences of Unicode scalar values.  Case mapping covers
 * ASCII, Latin-1 and the Vietnamese letters, which is all the text the
 * application compares.
 */
module Common {

  datatype Option<T> = None | Some(value: T)

  datatype Result<T, E> = Success(value: T) | Failure(error: E)

  /** An environment variable or optional text that JavaScript reads as truthy: present and not empty. */
  predicate Present(v: Option<string>)
  {
    v.Some? && v.value != ""
  }

  /** The roles of a chat message sent to a language model. */
  datatype Role = System | User | Assistant

  /** `LLMMessage`. */
  datatype LlmMessage = LlmMessage(role: Role, content: string)

  // ---------------------------------------------------------------------
  // Character classes
  // ---------------------------------------------------------------------

  /** The JavaScript regular-expression class `\s` (WhiteSpace and LineTerminator). */
  predicate IsSpace(c: char)
  {
    c == ' ' || c == '\t' || c == '\n' || c == '\r' || c == '\U{B}' || c == '\U{C}'
    || c == '\U{A0}' || c == '\U{1680}' || ('\U{2000}' <= c <= '\U{200A}')
    || c == '\U{2028}' || c == '\U{2029}' || c == '\U{202F}' || c == '\U{205F}'
    || c == '\U{3000}' || c == '\U{FEFF}'
  }

  /** The characters the regular-expression `.` refuses to match. */
  predicate IsLineTerminator(c: char)
  {
    c == '\n' || c == '\r' || c == '\U{2028}' || c == '\U{2029}'
  }

  /** The class `\d` (ASCII digits only). */
  predicate IsDigit(c: char)
  {
    '0' <= c <= '9'
  }

  /** The class `\w`: ASCII letters, digits and underscore. */
  predicate IsWordChar(c: char)
  {
    ('a' <= c <= 'z') || ('A' <= c <= 'Z') || IsDigit(c) || c == '_'
  }

  predicate AllSpace(s: string)
  {
    forall i :: 0 <= i < |s| ==> IsSpace(s[i])
  }

  // ---------------------------------------------------------------------
  // Case mapping
  // ---------------------------------------------------------------------

  predicate IsUpperVietnamese(c: char)
  {
    c == '\U{102}' || c == '\U{110}' || c == '\U{128}' || c == '\U{168}'
    || c == '\U{1A0}' || c == '\U{1AF}'
    || ('\U{1EA0}' <= c <= '\U{1EF8}' && (c as int) % 2 == 0)
  }

  predicate IsLowerVietnamese(c: char)
  {
    c == '\U{103}' || c == '\U{111}' || c == '\U{129}' || c == '\U{169}'
    || c == '\U{1A1}' || c == '\U{1B0}'
    || ('\U{1EA1}' <= c <= '\U{1EF9}' && (c as int) % 2 == 1)
  }

  /** `toLowerCase` on one character, for ASCII, Latin-1 and Vietnamese letters. */
  function LowerChar(c: char): (r: char)
    ensures 'A' <= c <= 'Z' ==> r as int == c as int + 32
    ensures !('A' <= c <= 'Z') ==> (r < '\U{80}' <==> c < '\U{80}')
    ensures r < '\U{80}' ==> r == AsciiLower(c)
  {
    if 'A' <= c <= 'Z' || ('\U{C0}' <= c <= '\U{DE}' && c != '\U{D7}') then (c as int + 32) as char
    else if c == '\U{178}' then '\U{FF}'
    else if c == '\U{1AF}' then '\U{1B0}'
    else if IsUpperVietnamese(c) then (c as int + 1) as char
    else c
  }

  /**
   * `toUpperCase` on one character, for ASCII, Latin-1 and Vietnamese
   * letters; the capitals of `ÿ` and `µ` lie outside Latin-1. `ß`, whose
   * capital is the two letters `SS`, is kept as it is.
   */
  function UpperChar(c: char): (r: char)
    ensures 'a' <= c <= 'z' ==> r as int == c as int - 32
  {
    if 'a' <= c <= 'z' || ('\U{E0}' <= c <= '\U{FE}' && c != '\U{F7}') then (c as int - 32) as char
    else if c == '\U{FF}' then '\U{178}'
    else if c == '\U{B5}' then '\U{39C}'
    else if c == '\U{1B0}' then '\U{1AF}'
    else if IsLowerVietnamese(c) then (c as int - 1) as char
    else c
  }

  /** ASCII-only lower case: the canonical form of case-insensitive matching against an ASCII pattern. */
  function AsciiLower(c: char): char
  {
    if 'A' <= c <= 'Z' then (c as int + 32) as char else c
  }

  function Lower(s: string): (r: string)
    ensures |r| == |s|
    ensures forall i :: 0 <= i < |s| ==> r[i] == LowerChar(s[i])
  {
    seq(|s|, i requires 0 <= i < |s| => LowerChar(s[i]))
  }

  function Upper(s: string): (r: string)
    ensures |r| == |s|
    ensures forall i :: 0 <= i < |s| ==> r[i] == UpperChar(s[i])
  {
    seq(|s|, i requires 0 <= i < |s| => UpperChar(s[i]))
  }

  /** Case-insensitive equality of two strings, as a regular expression with the `i` flag compares an ASCII pattern. */
  predicate EqualsCI(a: string, b: string)
  {
    |a| == |b| && forall i :: 0 <= i < |a| ==> AsciiLower(a[i]) == AsciiLower(b[i])
  }

  // ---------------------------------------------------------------------
  // Trimming
  // ---------------------------------------------------------------------

  /** The first position at or after `i` that holds no whitespace, or `|s|`. */
  function SkipSpace(s: string, i: nat): (k: nat)
    requires i <= |s|
    ensures i <= k <= |s| && (k == |s| || !IsSpace(s[k]))
    decreases |s| - i
  {
    if i < |s| && IsSpace(s[i]) then SkipSpace(s, i + 1) else i
  }

  /** A run of whitespace followed by something else, or by the end, is skipped whole. */
  lemma {:induction false} SkipSpaceOver(s: string, i: nat, n: nat)
    requires i + n <= |s|
    requires forall k :: i <= k < i + n ==> IsSpace(s[k])
    requires i + n == |s| || !IsSpace(s[i + n])
    ensures SkipSpace(s, i) == i + n
    decreases n
  {
    if n > 0 {
      SkipSpaceOver(s, i + 1, n - 1);
    }
  }

  /** The end of `s[lo..j]` once its trailing whitespace is removed. */
  function BackSpace(s: string, lo: nat, j: nat): (k: nat)
    requires lo <= j <= |s|
    ensures lo <= k <= j && (k == lo || !IsSpace(s[k - 1]))
    ensures lo < j && !IsSpace(s[lo]) ==> lo < k
    decreases j
  {
    if j > lo && IsSpace(s[j - 1]) then BackSpace(s, lo, j - 1) else j
  }

  /** `String.prototype.trim`: the text between the leading and the trailing whitespace. */
  function Trim(s: string): (r: string)
    ensures |r| <= |s|
    ensures r == [] || (!IsSpace(r[0]) && !IsSpace(r[|r| - 1]))
  {
    var a := SkipSpace(s, 0);
    if a == |s| then [] else s[a..BackSpace(s, a, |s|)]
  }

  lemma {:induction false} SkipSpaceSkipsSpaces(s: string, i: nat)
    requires i <= |s|
    ensures forall m :: i <= m < SkipSpace(s, i) ==> IsSpace(s[m])
    decreases |s| - i
  {
    if i < |s| && IsSpace(s[i]) {
      SkipSpaceSkipsSpaces(s, i + 1);
    }
  }

  lemma {:induction false} BackSpaceSkipsSpaces(s: string, lo: nat, j: nat)
    requires lo <= j <= |s|
    ensures forall m :: BackSpace(s, lo, j) <= m < j ==> IsSpace(s[m])
    decreases j
  {
    if j > lo && IsSpace(s[j - 1]) {
      BackSpaceSkipsSpaces(s, lo, j - 1);
    }
  }

  /** A text trims to nothing exactly when it is all whitespace. */
  lemma TrimEmptyIffAllSpace(s: string)
    ensures Trim(s) == [] <==> AllSpace(s)
  {
    SkipSpaceSkipsSpaces(s, 0);
    var a := SkipSpace(s, 0);
    if a < |s| {
      assert !IsSpace(s[a]);
    }
  }

  lemma TrimOfTrimmed(s: string)
    requires s == [] || (!IsSpace(s[0]) && !IsSpace(s[|s| - 1]))
    ensures Trim(s) == s
  {
    if s != [] {
      assert SkipSpace(s, 0) == 0;
      assert BackSpace(s, 0, |s|) == |s|;
    }
  }

  // ---------------------------------------------------------------------
  // Searching
  // ---------------------------------------------------------------------

  predicate StartsWith(s: string, p: string)
  {
    |p| <= |s| && s[..|p|] == p
  }

  predicate EndsWith(s: string, suffix: string)
  {
    |suffix| <= |s| && s[|s| - |suffix|..] == suffix
  }

  predicate OccursAt(s: string, p: string, i: int)
  {
    0 <= i && i + |p| <= |s| && s[i..i + |p|] == p
  }

  /** `s.includes(p)`. */
  predicate Contains(s: string, p: string)
  {
    exists i :: 0 <= i <= |s| - |p| && OccursAt(s, p, i)
  }

  predicate ContainsAny(s: string, ps: seq<string>)
  {
    exists k :: 0 <= k < |ps| && Contains(s, ps[k])
  }

  predicate ContainsChar(s: string, c: char)
  {
    exists i :: 0 <= i < |s| && s[i] == c
  }

  /** A scan for `p` from position `i` on, one candidate position at a time. */
  predicate ScanFor(s: string, p: string, i: nat)
    decreases |s| - i
  {
    i + |p| <= |s| && (OccursAt(s, p, i) || ScanFor(s, p, i + 1))
  }

  /** The scan finds `p` exactly when `p` occurs at or after `i`. */
  lemma {:induction false} ScanForIff(s: string, p: string, i: nat)
    ensures ScanFor(s, p, i) <==> exists j :: i <= j <= |s| - |p| && OccursAt(s, p, j)
    decreases |s| - i
  {
    if i + |p| <= |s| {
      ScanForIff(s, p, i + 1);
      if exists j :: i <= j <= |s| - |p| && OccursAt(s, p, j) {
        var j :| i <= j <= |s| - |p| && OccursAt(s, p, j);
        if j > i {
          assert ScanFor(s, p, i + 1);
        }
      }
    }
  }

  /** A pattern with a character the text lacks does not occur in it. */
  lemma AbsentByChar(s: string, p: string, m: nat)
    requires m < |p| && p[m] !in s
    ensures !Contains(s, p)
  {
    forall i | 0 <= i <= |s| - |p|
      ensures !OccursAt(s, p, i)
    {
      assert s[i..i + |p|][m] == s[i + m];
    }
  }

  /** An occurrence, checked one character at a time. */
  lemma OccursByChars(s: string, p: string, i: nat)
    requires i + |p| <= |s| && forall k :: 0 <= k < |p| ==> s[i + k] == p[k]
    ensures OccursAt(s, p, i)
  {
    assert s[i..i + |p|] == p;
  }

  /** `includes`, decided by the scan. */
  lemma ContainsByScan(s: string, p: string)
    ensures Contains(s, p) <==> ScanFor(s, p, 0)
  {
    ScanForIff(s, p, 0);
  }

  /** Lower-casing a text keeps every occurrence of a word, lower-cased, at its place. */
  lemma LowerKeepsOccurrence(a: string, p: string, b: string)
    ensures OccursAt(Lower(a + p + b), Lower(p), |a|)
  {
    var s := a + p + b;
    var l, lp := Lower(s), Lower(p);
    forall j | 0 <= j < |p| ensures l[|a| + j] == lp[j] {
      assert s[|a| + j] == p[j];
    }
    assert l[|a|..|a| + |p|] == lp;
  }

  /** `s.indexOf(p, from)`: the first occurrence at or after `from`. */
  function IndexOf(s: string, p: string, from: nat): (r: Option<nat>)
    ensures r.Some? ==> from <= r.value && OccursAt(s, p, r.value)
    ensures r.Some? ==> forall j :: from <= j < r.value ==> !OccursAt(s, p, j)
    ensures r.None? ==> forall j :: from <= j ==> !OccursAt(s, p, j)
    decreases |s| - from
  {
    if from + |p| > |s| then None
    else if s[from..from + |p|] == p then Some(from)
    else IndexOf(s, p, from + 1)
  }

  /** `s.indexOf(c)` for a single character. */
  function IndexOfChar(s: string, c: char): (r: Option<nat>)
    ensures r.Some? ==> r.value < |s| && s[r.value] == c && forall j :: 0 <= j < r.value ==> s[j] != c
    ensures r.None? <==> !ContainsChar(s, c)
  {
    if |s| == 0 then None
    else if s[0] == c then Some(0)
    else match IndexOfChar(s[1..], c)
      case None => None
      case Some(k) => Some(k + 1)
  }

  /** `s.lastIndexOf(c)` for a single character. */
  function LastIndexOfChar(s: string, c: char): (r: Option<nat>)
    ensures r.Some? ==> r.value < |s| && s[r.value] == c && forall j :: r.value < j < |s| ==> s[j] != c
    ensures r.None? ==> forall j :: 0 <= j < |s| ==> s[j] != c
  {
    LastIndexBelow(s, c, |s|)
  }

  /** The last `c` strictly before position `n`. */
  function LastIndexBelow(s: string, c: char, n: nat): (r: Option<nat>)
    requires n <= |s|
    ensures r.Some? ==> r.value < n && s[r.value] == c && forall j :: r.value < j < n ==> s[j] != c
    ensures r.None? ==> forall j :: 0 <= j < n ==> s[j] != c
  {
    if n == 0 then None
    else if s[n - 1] == c then Some(n - 1)
    else LastIndexBelow(s, c, n - 1)
  }

  // ---------------------------------------------------------------------
  // Splitting and joining
  // ---------------------------------------------------------------------

  /** `parts.join(sep)`. */
  function Join(parts: seq<string>, sep: string): string
  {
    if |parts| == 0 then ""
    else if |parts| == 1 then parts[0]
    else parts[0] + sep + Join(parts[1..], sep)
  }

  /** `s.split(sep)` for a one-character separator: always at least one part, none containing `sep`. */
  function Split(s: string, sep: char): (r: seq<string>)
    ensures |r| >= 1
    ensures forall k :: 0 <= k < |r| ==> !ContainsChar(r[k], sep)
    ensures Join(r, [sep]) == s
  {
    match IndexOfChar(s, sep)
    case None => [s]
    case Some(i) =>
      var rest := Split(s[i + 1..], sep);
      assert !ContainsChar(s[..i], sep);
      assert s == s[..i] + [sep] + s[i + 1..];
      [s[..i]] + rest
  }

  /** Splitting a joined sequence gives the parts back, when none of them contains the separator. */
  lemma {:induction false} SplitJoin(parts: seq<string>, sep: char)
    requires |parts| >= 1
    requires forall k :: 0 <= k < |parts| ==> !ContainsChar(parts[k], sep)
    ensures Split(Join(parts, [sep]), sep) == parts
  {
    if |parts| == 1 {
      assert IndexOfChar(parts[0], sep).None?;
    } else {
      var j := Join(parts, [sep]);
      var tail := Join(parts[1..], [sep]);
      assert j == parts[0] + [sep] + tail;
      assert IndexOfChar(parts[0], sep).None?;
      IndexOfCharAfterPrefix(parts[0], tail, sep);
      assert j[..|parts[0]|] == parts[0];
      assert j[|parts[0]| + 1..] == tail;
      SplitJoin(parts[1..], sep);
      assert Split(j, sep) == [parts[0]] + Split(tail, sep);
      assert parts == [parts[0]] + parts[1..];
    }
  }

  lemma IndexOfCharAfterPrefix(a: string, b: string, c: char)
    requires !ContainsChar(a, c)
    ensures IndexOfChar(a + [c] + b, c) == Some(|a|)
  {
    var s := a + [c] + b;
    var r := IndexOfChar(s, c);
    assert s[|a|] == c;
    assert ContainsChar(s, c);
  }

  // ---------------------------------------------------------------------
  // Replacing
  // ---------------------------------------------------------------------

  /** `s.replace(/p/g, rep)` for a literal pattern and a replacement without `$`: leftmost, non-overlapping occurrences, one character at a time. */
  function ReplaceAll(s: string, p: string, rep: string): string
    requires |p| > 0
    decreases |s|
  {
    if |s| < |p| then s
    else if s[..|p|] == p then rep + ReplaceAll(s[|p|..], p, rep)
    else [s[0]] + ReplaceAll(s[1..], p, rep)
  }

  /** `s.replace(/p/gi, rep)` for an ASCII pattern and a replacement without `$`. */
  function ReplaceAllCI(s: string, p: string, rep: string): string
    requires |p| > 0
    decreases |s|
  {
    if |s| < |p| then s
    else if EqualsCI(s[..|p|], p) then rep + ReplaceAllCI(s[|p|..], p, rep)
    else [s[0]] + ReplaceAllCI(s[1..], p, rep)
  }

  predicate OccursAtCI(s: string, p: string, i: int)
  {
    0 <= i && i + |p| <= |s| && EqualsCI(s[i..i + |p|], p)
  }

  predicate ContainsCI(s: string, p: string)
  {
    exists i :: 0 <= i <= |s| - |p| && OccursAtCI(s, p, i)
  }

  /** Without an occurrence of the pattern, replacing changes nothing. */
  lemma {:induction false} ReplaceAllCIIdentity(s: string, p: string, rep: string)
    requires |p| > 0 && !ContainsCI(s, p)
    ensures ReplaceAllCI(s, p, rep) == s
    decreases |s|
  {
    if |s| >= |p| {
      assert !OccursAtCI(s, p, 0);
      assert !ContainsCI(s[1..], p) by {
        forall i | 0 <= i <= |s[1..]| - |p| ensures !OccursAtCI(s[1..], p, i) {
          assert s[1..][i..i + |p|] == s[i + 1..i + 1 + |p|];
          assert !OccursAtCI(s, p, i + 1);
        }
      }
      ReplaceAllCIIdentity(s[1..], p, rep);
    }
  }

  lemma {:induction false} ReplaceAllIdentity(s: string, p: string, rep: string)
    requires |p| > 0 && !Contains(s, p)
    ensures ReplaceAll(s, p, rep) == s
    decreases |s|
  {
    if |s| >= |p| {
      assert OccursAt(s, p, 0) == (s[..|p|] == p);
      assert !Contains(s[1..], p) by {
        forall i | 0 <= i <= |s[1..]| - |p| ensures !OccursAt(s[1..], p, i) {
          assert s[1..][i..i + |p|] == s[i + 1..i + 1 + |p|];
          assert OccursAt(s, p, i + 1) == OccursAt(s[1..], p, i);
        }
      }
      ReplaceAllIdentity(s[1..], p, rep);
    }
  }

  // ---------------------------------------------------------------------
  // Replacement patterns
  // ---------------------------------------------------------------------

  /**
   * The text that a string replacement inserts for the match `s[i..j]` of a
   * regular expression without capture groups: `$$` gives `$`, `$&` the
   * match, `` $` `` the text before the match and `$'` the text after it.
   * Every other character, a `$` followed by anything else included, is
   * inserted as it is.
   */
  function ExpandReplacement(rep: string, s: string, i: nat, j: nat): (r: string)
    requires i <= j <= |s|
    ensures '$' !in rep ==> r == rep
    decreases |rep|
  {
    if |rep| == 0 then ""
    else if rep[0] == '$' && |rep| >= 2 && rep[1] in "$&`'" then
      (match rep[1]
       case '$' => "$"
       case '&' => s[i..j]
       case '`' => s[..i]
       case _ => s[j..]) + ExpandReplacement(rep[2..], s, i, j)
    else [rep[0]] + ExpandReplacement(rep[1..], s, i, j)
  }

  /** Two characters compared as the pattern compares them: as ASCII letters in either case when `ci` holds (the `i` flag). */
  predicate SameChar(a: char, b: char, ci: bool)
  {
    if ci then AsciiLower(a) == AsciiLower(b) else a == b
  }

  /** The pattern from its `k`-th character on matches the text from `i + k` on. */
  predicate PatternFrom(s: string, p: string, i: nat, k: nat, ci: bool)
    decreases |p| - k
  {
    k >= |p| || (i + k < |s| && SameChar(s[i + k], p[k], ci) && PatternFrom(s, p, i, k + 1, ci))
  }

  /** An occurrence of `p` at `i`, compared one character at a time. */
  predicate PatternAt(s: string, p: string, i: nat, ci: bool)
  {
    i + |p| <= |s| && PatternFrom(s, p, i, 0, ci)
  }

  lemma {:induction false} PatternFromAll(s: string, p: string, i: nat, k: nat, ci: bool)
    requires i + |p| <= |s| && k <= |p|
    ensures PatternFrom(s, p, i, k, ci) <==> forall m :: k <= m < |p| ==> SameChar(s[i + m], p[m], ci)
    decreases |p| - k
  {
    if k < |p| {
      PatternFromAll(s, p, i, k + 1, ci);
    }
  }

  /** The character-by-character occurrence is the occurrence `OccursAt` (or, with `ci`, `OccursAtCI`) states. */
  lemma PatternAtIff(s: string, p: string, i: nat, ci: bool)
    ensures PatternAt(s, p, i, ci) <==> if ci then OccursAtCI(s, p, i) else OccursAt(s, p, i)
  {
    if i + |p| <= |s| {
      PatternFromAll(s, p, i, 0, ci);
      var w := s[i..i + |p|];
      assert forall m :: 0 <= m < |p| ==> w[m] == s[i + m];
      if !ci && (forall m :: 0 <= m < |p| ==> SameChar(s[i + m], p[m], ci)) {
        assert w == p;
      }
    }
  }

  /**
   * `s.replace(/p/g, rep)` (with `ci`, `/p/gi`) for a pattern that matches
   * itself literally, on the text from `from` on. Occurrences are taken
   * leftmost first and never overlap: each one gives way to the replacement
   * expanded against it, and the search goes on after it; the text between
   * occurrences is copied.
   */
  function ReplaceMatches(s: string, p: string, rep: string, from: nat, ci: bool): (r: string)
    requires |p| > 0 && from <= |s|
    decreases |s| - from
  {
    if from + |p| > |s| then s[from..]
    else if PatternAt(s, p, from, ci) then ExpandReplacement(rep, s, from, from + |p|) + ReplaceMatches(s, p, rep, from + |p|, ci)
    else [s[from]] + ReplaceMatches(s, p, rep, from + 1, ci)
  }

  /** `s.replace(/p/g, rep)` on the whole text. */
  function Replace(s: string, p: string, rep: string, ci: bool): string
    requires |p| > 0
  {
    ReplaceMatches(s, p, rep, 0, ci)
  }

  /** A text that is exactly one occurrence is replaced by the replacement expanded against it. */
  lemma ReplaceWholeMatch(s: string, p: string, rep: string, ci: bool)
    requires |p| > 0 && if ci then EqualsCI(s, p) else s == p
    ensures Replace(s, p, rep, ci) == ExpandReplacement(rep, s, 0, |s|)
  {
    assert s[0..|p|] == s;
    PatternAtIff(s, p, 0, ci);
    assert ReplaceMatches(s, p, rep, |s|, ci) == "";
  }

  /** Without an occurrence from `from` on, the rest of the text is copied unchanged. */
  lemma {:induction false} ReplaceWithoutMatch(s: string, p: string, rep: string, from: nat, ci: bool)
    requires |p| > 0 && from <= |s|
    requires forall j :: from <= j ==> !PatternAt(s, p, j, ci)
    ensures ReplaceMatches(s, p, rep, from, ci) == s[from..]
    decreases |s| - from
  {
    if from + |p| <= |s| {
      assert !PatternAt(s, p, from, ci);
      ReplaceWithoutMatch(s, p, rep, from + 1, ci);
      assert s[from..] == [s[from]] + s[from + 1..];
    }
  }

  /** A text in which the pattern does not occur is left as it is. */
  lemma ReplaceAbsent(s: string, p: string, rep: string, ci: bool)
    requires |p| > 0 && if ci then !ContainsCI(s, p) else !Contains(s, p)
    ensures Replace(s, p, rep, ci) == s
  {
    forall j | 0 <= j
      ensures !PatternAt(s, p, j, ci)
    {
      PatternAtIff(s, p, j, ci);
      if j <= |s| - |p| {
        if ci {
          assert !OccursAtCI(s, p, j);
        } else {
          assert !OccursAt(s, p, j);
        }
      }
    }
    ReplaceWithoutMatch(s, p, rep, 0, ci);
  }

  /** A replacement of `$&` puts every occurrence back as it was found, so the text is unchanged. */
  lemma {:induction false} ReplaceByMatchKeeps(s: string, p: string, from: nat, ci: bool)
    requires |p| > 0 && from <= |s|
    ensures ReplaceMatches(s, p, "$&", from, ci) == s[from..]
    decreases |s| - from
  {
    if from + |p| <= |s| {
      if PatternAt(s, p, from, ci) {
        assert ExpandReplacement("$&", s, from, from + |p|) == s[from..from + |p|];
        ReplaceByMatchKeeps(s, p, from + |p|, ci);
        assert s[from..] == s[from..from + |p|] + s[from + |p|..];
      } else {
        ReplaceByMatchKeeps(s, p, from + 1, ci);
        assert s[from..] == [s[from]] + s[from + 1..];
      }
    }
  }

  /** The character-by-character scan: `ReplaceAllCI` with the `i` flag, `ReplaceAll` without. */
  function ScanReplace(s: string, p: string, rep: string, ci: bool): string
    requires |p| > 0
  {
    if ci then ReplaceAllCI(s, p, rep) else ReplaceAll(s, p, rep)
  }

  /**
   * For a replacement without `$`, jumping from occurrence to occurrence
   * gives what the character-by-character scan gives.
   */
  lemma {:induction false} ReplaceMatchesScan(s: string, p: string, rep: string, from: nat, ci: bool)
    requires |p| > 0 && from <= |s| && '$' !in rep
    ensures ReplaceMatches(s, p, rep, from, ci) == ScanReplace(s[from..], p, rep, ci)
    decreases |s| - from
  {
    var t := s[from..];
    if |t| >= |p| {
      assert t[..|p|] == s[from..from + |p|];
      PatternAtIff(s, p, from, ci);
      if PatternAt(s, p, from, ci) {
        assert t[|p|..] == s[from + |p|..];
        ReplaceMatchesScan(s, p, rep, from + |p|, ci);
      } else {
        assert t[1..] == s[from + 1..];
        ReplaceMatchesScan(s, p, rep, from + 1, ci);
      }
    }
  }

  /** With a replacement without `$`, replacing from `k` on is replacing in the text that starts at `k`. */
  lemma ReplaceFrom(s: string, p: string, rep: string, k: nat, ci: bool)
    requires |p| > 0 && k <= |s| && '$' !in rep
    ensures ReplaceMatches(s, p, rep, k, ci) == Replace(s[k..], p, rep, ci)
  {
    ReplaceMatchesScan(s, p, rep, k, ci);
    ReplaceMatchesScan(s[k..], p, rep, 0, ci);
    assert s[k..][0..] == s[k..];
  }

  /** A leading occurrence gives way to the replacement, and the rest is replaced on its own. */
  lemma ReplaceLeadingMatch(m: string, b: string, p: string, rep: string, ci: bool)
    requires |p| > 0 && '$' !in rep && if ci then EqualsCI(m, p) else m == p
    ensures Replace(m + b, p, rep, ci) == rep + Replace(b, p, rep, ci)
  {
    var s := m + b;
    assert s[0..|p|] == m;
    PatternAtIff(s, p, 0, ci);
    ReplaceFrom(s, p, rep, |p|, ci);
    assert s[|p|..] == b;
  }

  /** A leading character where no occurrence starts is copied, and the replacement goes on behind it. */
  lemma ReplaceAfterNonMatch(c: char, b: string, p: string, rep: string, ci: bool)
    requires |p| > 0 && '$' !in rep && !PatternAt([c] + b, p, 0, ci)
    ensures Replace([c] + b, p, rep, ci) == [c] + Replace(b, p, rep, ci)
  {
    var s := [c] + b;
    if |p| <= |s| {
      ReplaceFrom(s, p, rep, 1, ci);
      assert s[1..] == b;
    } else {
      assert Replace(s, p, rep, ci) == s;
      assert Replace(b, p, rep, ci) == b;
    }
  }

  /** A prefix none of whose characters can start an occurrence is copied, and the replacement goes on behind it. */
  lemma {:induction false} ReplacePlainPrefix(a: string, b: string, p: string, rep: string, ci: bool)
    requires |p| > 0 && '$' !in rep
    requires forall k :: 0 <= k < |a| ==> !SameChar(a[k], p[0], ci)
    ensures Replace(a + b, p, rep, ci) == a + Replace(b, p, rep, ci)
    decreases |a|
  {
    var s := a + b;
    if |a| > 0 {
      if |p| <= |s| {
        assert s[0] == a[0];
        assert !PatternAt(s, p, 0, ci);
        ReplaceFrom(s, p, rep, 1, ci);
        assert s[1..] == a[1..] + b;
        ReplacePlainPrefix(a[1..], b, p, rep, ci);
        var c, tail, t := a[0], a[1..], Replace(b, p, rep, ci);
        assert [c] + (tail + t) == a + t;
      } else {
        assert Replace(s, p, rep, ci) == s;
        assert Replace(b, p, rep, ci) == b;
      }
    } else {
      assert s == b;
    }
  }

  /** No character of a text without `{` can start a placeholder. */
  lemma NoBraceStartsNoPlaceholder(t: string)
    requires '{' !in t
    ensures forall k :: 0 <= k < |t| ==> !SameChar(t[k], '{', true)
  {
  }

  /** The `{user}` pass copies a leading `{char}` tag, in any case, and goes on behind it. */
  lemma CharTagSurvivesUserPass(tag: string, rest: string, userName: string)
    requires EqualsCI(tag, "{char}") && '$' !in userName
    ensures Replace(tag + rest, "{user}", userName, true) == tag + Replace(rest, "{user}", userName, true)
  {
    var name := tag[1..];
    assert tag + rest == [tag[0]] + (name + rest);
    assert AsciiLower(tag[1]) != AsciiLower("{user}"[1]);
    assert !PatternAt(tag + rest, "{user}", 0, true);
    ReplaceAfterNonMatch(tag[0], name + rest, "{user}", userName, true);
    assert forall k :: 0 <= k < |name| ==> AsciiLower(name[k]) == AsciiLower("{char}"[k + 1]);
    NoBraceStartsNoPlaceholder(name);
    ReplacePlainPrefix(name, rest, "{user}", userName, true);
    var once := Replace(rest, "{user}", userName, true);
    assert [tag[0]] + (name + once) == tag + once;
  }

  // ---------------------------------------------------------------------
  // Filtering
  // ---------------------------------------------------------------------

  /** `s.filter(keep)`. */
  function Filter<T>(s: seq<T>, keep: T -> bool): (r: seq<T>)
    ensures |r| <= |s|
  {
    if |s| == 0 then []
    else (if keep(s[0]) then [s[0]] else []) + Filter(s[1..], keep)
  }

  /** What the filter keeps passes the test and comes from the input. */
  lemma {:induction false} FilterSound<T>(s: seq<T>, keep: T -> bool)
    ensures forall i :: 0 <= i < |Filter(s, keep)| ==> keep(Filter(s, keep)[i])
    ensures forall i :: 0 <= i < |Filter(s, keep)| ==> Filter(s, keep)[i] in s
  {
    if |s| > 0 {
      var r := Filter(s, keep);
      var head := if keep(s[0]) then [s[0]] else [];
      var t := Filter(s[1..], keep);
      FilterSound(s[1..], keep);
      forall i | 0 <= i < |r| ensures keep(r[i]) && r[i] in s {
        if i < |head| {
          assert r[i] == s[0];
        } else {
          assert r[i] == t[i - |head|];
          assert t[i - |head|] in s[1..];
        }
      }
    }
  }

  /** Every element of the input that passes the test is kept. */
  lemma {:induction false} FilterComplete<T>(s: seq<T>, keep: T -> bool)
    ensures forall m :: m in s && keep(m) ==> m in Filter(s, keep)
  {
    if |s| > 0 {
      FilterComplete(s[1..], keep);
      assert s == [s[0]] + s[1..];
    }
  }

  /** Filtering keeps the order: the filter of a concatenation is the concatenation of the filters. */
  lemma {:induction false} FilterAppend<T>(a: seq<T>, b: seq<T>, keep: T -> bool)
    ensures Filter(a + b, keep) == Filter(a, keep) + Filter(b, keep)
  {
    if |a| > 0 {
      assert (a + b)[1..] == a[1..] + b;
      FilterAppend(a[1..], b, keep);
    } else {
      assert a + b == b;
    }
  }

  /** A sequence whose every element passes is kept whole. */
  lemma {:induction false} FilterKeepsAll<T>(s: seq<T>, keep: T -> bool)
    requires forall i :: 0 <= i < |s| ==> keep(s[i])
    ensures Filter(s, keep) == s
  {
    if |s| > 0 {
      FilterKeepsAll(s[1..], keep);
    }
  }

  /** An element that fails the test adds nothing at the end. */
  lemma FilterSkipsLast<T>(s: seq<T>, x: T, keep: T -> bool)
    requires !keep(x)
    ensures Filter(s + [x], keep) == Filter(s, keep)
  {
    FilterAppend(s, [x], keep);
    assert Filter([x], keep) == [];
  }

  /** A sequence whose every element fails leaves nothing. */
  lemma {:induction false} FilterDropsAll<T>(s: seq<T>, keep: T -> bool)
    requires forall i :: 0 <= i < |s| ==> !keep(s[i])
    ensures Filter(s, keep) == []
  {
    if |s| > 0 {
      FilterDropsAll(s[1..], keep);
    }
  }


  // ---------------------------------------------------------------------
  // Lengths
  // ---------------------------------------------------------------------

  /** `s.length`: JavaScript counts UTF-16 code units, two for a character beyond U+FFFF. */
  function Utf16Length(s: string): (n: nat)
    ensures |s| <= n <= 2 * |s|
  {
    if |s| == 0 then 0 else (if s[0] as int > 0xFFFF then 2 else 1) + Utf16Length(s[1..])
  }

  /** In the Basic Multilingual Plane the JavaScript length is the number of characters. */
  lemma {:induction false} Utf16LengthInBmp(s: string)
    requires forall i :: 0 <= i < |s| ==> s[i] as int <= 0xFFFF
    ensures Utf16Length(s) == |s|
  {
    if |s| > 0 {
      Utf16LengthInBmp(s[1..]);
    }
  }

  /** The UTF-16 code units of one character: itself in the Basic Multilingual Plane, a surrogate pair beyond it. */
  function CharUnits(c: char): (u: seq<int>)
    ensures |u| == if c as int > 0xFFFF then 2 else 1
    ensures forall k :: 0 <= k < |u| ==> 0 <= u[k] <= 0xFFFF
    ensures c as int > 0xFFFF ==>
              0xD800 <= u[0] <= 0xDBFF && 0xDC00 <= u[1] <= 0xDFFF && 0x10000 + (u[0] - 0xD800) * 0x400 + (u[1] - 0xDC00) == c as int
    ensures c as int <= 0xFFFF ==> u[0] == c as int && !(0xD800 <= u[0] <= 0xDFFF)
  {
    var v := c as int;
    if v > 0xFFFF then [0xD800 + (v - 0x10000) / 0x400, 0xDC00 + (v - 0x10000) % 0x400] else [v]
  }

  /** The codes `charCodeAt` reads, in order: the UTF-16 code units of the text. */
  function Utf16Units(s: string): (u: seq<int>)
    ensures |u| == Utf16Length(s)
  {
    if |s| == 0 then [] else CharUnits(s[0]) + Utf16Units(s[1..])
  }

  /** The code units of a concatenation are those of its parts, one after the other. */
  lemma {:induction false} Utf16UnitsAppend(a: string, b: string)
    ensures Utf16Units(a + b) == Utf16Units(a) + Utf16Units(b)
    decreases |a|
  {
    if |a| > 0 {
      assert (a + b)[1..] == a[1..] + b;
      Utf16UnitsAppend(a[1..], b);
    } else {
      assert a + b == b;
    }
  }

  /** In the Basic Multilingual Plane every character is its own code unit. */
  lemma {:induction false} Utf16UnitsInBmp(s: string)
    requires forall i :: 0 <= i < |s| ==> s[i] as int <= 0xFFFF
    ensures |Utf16Units(s)| == |s|
    ensures forall i :: 0 <= i < |s| ==> Utf16Units(s)[i] == s[i] as int
    decreases |s|
  {
    if |s| > 0 {
      Utf16UnitsInBmp(s[1..]);
      assert forall i :: 1 <= i < |s| ==> s[1..][i - 1] == s[i];
    }
  }

  // ---------------------------------------------------------------------
  // Numbers as text
  // ---------------------------------------------------------------------

  function DigitChar(d: nat): char
    requires d < 16
  {
    "0123456789abcdef"[d]
  }

  function NatToDigits(n: nat, base: nat): (r: string)
    requires 2 <= base <= 16
    ensures |r| >= 1
    decreases n
  {
    if n < base then [DigitChar(n)] else NatToDigits(n / base, base) + [DigitChar(n % base)]
  }

  /** `String(n)` for an integer. */
  function IntToString(n: int): string
  {
    if n < 0 then "-" + NatToDigits(-n, 10) else NatToDigits(n, 10)
  }

  /** `n.toString(16)` for an integer: a minus sign then the lower-case digits of the magnitude. */
  function IntToHex(n: int): string
  {
    if n < 0 then "-" + NatToDigits(-n, 16) else NatToDigits(n, 16)
  }

  function Min(a: int, b: int): int { if a <= b then a else b }
  function Max(a: int, b: int): int { if a >= b then a else b }

  /** Clamping, written as the source writes it: `max(lo, min(hi, v))`. */
  function ClampReal(v: real, lo: real, hi: real): (r: real)
    requires lo <= hi
    ensures lo <= r <= hi
    ensures lo <= v <= hi ==> r == v
  {
    if v < lo then lo else if v > hi then hi else v
  }

  function NoDuplicates<T(==)>(s: seq<T>): bool
  {
    forall i, j :: 0 <= i < j < |s| ==> s[i] != s[j]
  }
}
