/**
 * The formatting toolbar of the chat input: wrapping the textarea's
 * selection in narrative markers, or inserting a placeholder, and the new
 * cursor position.  The textarea itself (its ref, focus, the deferred
 * `setSelectionRange`) is outside the model; the selection is given as
 * `start <= end <= |text|`, which the DOM guarantees for a textarea.
 */
module ParseToolbar {
  import opened Common
  import NarrativeParser

  datatype Syntax = Bracket | Action | Thought | UserPlaceholder | CharPlaceholder

  datatype WrapResult = WrapResult(newText: string, cursor: nat)

  predicate IsWrap(syntax: Syntax)
  {
    syntax == Bracket || syntax == Action || syntax == Thought
  }

  /** The opening marker of a wrap. */
  function Opener(syntax: Syntax): char
    requires IsWrap(syntax)
  {
    match syntax
    case Bracket => '['
    case Action => '*'
    case Thought => '('
  }

  /** The closing marker of a wrap. */
  function Closer(syntax: Syntax): char
    requires IsWrap(syntax)
  {
    match syntax
    case Bracket => ']'
    case Action => '*'
    case Thought => ')'
  }

  /** The six-character placeholder that replaces the selection. */
  function Placeholder(syntax: Syntax): (p: string)
    requires !IsWrap(syntax)
    ensures |p| == 6 && NarrativeParser.PlaceholderAt(p, 0)
  {
    var u := "{user}";
    var c := "{char}";
    assert u[0..6] == u && c[0..6] == c;
    if syntax == UserPlaceholder then u else c
  }

  /** What goes between the text before the selection and the text after it. */
  function Insertion(selected: string, syntax: Syntax): string
  {
    if IsWrap(syntax) then
      if |selected| > 0 then [Opener(syntax)] + selected + [Closer(syntax)] else [Opener(syntax), Closer(syntax)]
    else
      Placeholder(syntax)
  }

  /**
   * `handleWrap`: the new text and the cursor.  The text before `start` and
   * after `end` is kept verbatim; the length grows by two for a wrap and
   * changes by `6 - (end - start)` for a placeholder; the cursor stays
   * inside the new text.
   */
  function HandleWrap(text: string, start: nat, end: nat, syntax: Syntax): (r: WrapResult)
    requires start <= end <= |text|
    ensures start <= r.cursor <= |r.newText| - (|text| - end)
    ensures r.newText[..start] == text[..start]
    ensures r.newText[|r.newText| - (|text| - end)..] == text[end..]
    ensures IsWrap(syntax) ==> |r.newText| == |text| + 2
    ensures !IsWrap(syntax) ==> |r.newText| == |text| + 6 - (end - start)
  {
    var selectedText := text[start..end];
    var beforeText := text[..start];
    var afterText := text[end..];
    var newText := beforeText + Insertion(selectedText, syntax) + afterText;
    var cursorPos :=
      if !IsWrap(syntax) then start + 6
      else if |selectedText| > 0 then start + |selectedText| + 2
      else start + 1;
    assert newText[..start] == beforeText;
    assert newText[|newText| - |afterText|..] == afterText;
    WrapResult(newText, cursorPos)
  }

  /** The new text is the old prefix, the inserted markers and the old suffix, in that order. */
  lemma HandleWrapSplices(text: string, start: nat, end: nat, syntax: Syntax)
    requires start <= end <= |text|
    ensures var r := HandleWrap(text, start, end, syntax);
            r.newText == text[..start] + Insertion(text[start..end], syntax) + text[end..]
  {
  }

  /**
   * With a selection, a wrap surrounds exactly the selected text and leaves
   * the cursor right after the closing marker.
   */
  lemma WrapSurroundsSelection(text: string, start: nat, end: nat, syntax: Syntax)
    requires start < end <= |text| && IsWrap(syntax)
    ensures var r := HandleWrap(text, start, end, syntax);
            r.cursor == start + (end - start) + 2 &&
            r.newText[start..r.cursor] == [Opener(syntax)] + text[start..end] + [Closer(syntax)] &&
            r.newText[r.cursor..] == text[end..]
  {
    var r := HandleWrap(text, start, end, syntax);
    var mid := [Opener(syntax)] + text[start..end] + [Closer(syntax)];
    assert r.newText == text[..start] + mid + text[end..];
    assert r.newText[start..r.cursor] == mid;
  }

  /**
   * With no selection, a wrap inserts an empty marker pair and puts the
   * cursor between the two markers.
   */
  lemma EmptyWrapCursorBetweenMarkers(text: string, pos: nat, syntax: Syntax)
    requires pos <= |text| && IsWrap(syntax)
    ensures var r := HandleWrap(text, pos, pos, syntax);
            r.cursor == pos + 1 &&
            r.newText[r.cursor - 1] == Opener(syntax) && r.newText[r.cursor] == Closer(syntax) &&
            r.newText == text[..pos] + [Opener(syntax), Closer(syntax)] + text[pos..]
  {
    var r := HandleWrap(text, pos, pos, syntax);
    assert r.newText == text[..pos] + [Opener(syntax), Closer(syntax)] + text[pos..];
  }

  /**
   * A placeholder replaces the selection (whatever it is, empty or not) and
   * the cursor ends right after the placeholder.
   */
  lemma PlaceholderReplacesSelection(text: string, start: nat, end: nat, syntax: Syntax)
    requires start <= end <= |text| && !IsWrap(syntax)
    ensures var r := HandleWrap(text, start, end, syntax);
            r.cursor == start + 6 &&
            r.newText[start..r.cursor] == Placeholder(syntax) &&
            r.newText[r.cursor..] == text[end..]
  {
    var r := HandleWrap(text, start, end, syntax);
    assert r.newText == text[..start] + Placeholder(syntax) + text[end..];
    assert r.newText[start..r.cursor] == Placeholder(syntax);
  }

  /**
   * The markers the toolbar inserts are the ones the narrative parser reads:
   * a wrapped selection free of the closing marker (and, for an action, of
   * any star) is one parser match that ends at the new cursor.
   */
  lemma WrapIsParsedAsMarker(text: string, start: nat, end: nat, syntax: Syntax)
    requires start < end <= |text| && IsWrap(syntax)
    requires forall k :: start <= k < end ==> text[k] != Closer(syntax)
    requires syntax == Action ==> forall k :: start <= k < end ==> text[k] != '*'
    ensures var r := HandleWrap(text, start, end, syntax);
            NarrativeParser.MatchAt(r.newText, start) ==
              Some(NarrativeParser.Match(match syntax
                                         case Bracket => NarrativeParser.Bracket
                                         case Action => NarrativeParser.Star
                                         case Thought => NarrativeParser.Paren, r.cursor))
  {
    var r := HandleWrap(text, start, end, syntax);
    var s := r.newText;
    var c := r.cursor;
    WrapInterior(text, start, end, syntax);
    NarrativeParser.EnclosedAt(s, start, Opener(syntax), Closer(syntax), c - 1);
    if syntax == Action {
      assert s[start + 1] != '*';
    }
  }

  /** The characters between the inserted markers are the selection's. */
  lemma WrapInterior(text: string, start: nat, end: nat, syntax: Syntax)
    requires start < end <= |text| && IsWrap(syntax)
    ensures var r := HandleWrap(text, start, end, syntax);
            r.cursor == end + 2 && r.newText[start] == Opener(syntax) && r.newText[end + 1] == Closer(syntax) &&
            forall m :: start < m < end + 1 ==> r.newText[m] == text[m - 1]
  {
    var r := HandleWrap(text, start, end, syntax);
    WrapSurroundsSelection(text, start, end, syntax);
    var s := r.newText;
    var mid := s[start..end + 2];
    assert s[start] == mid[0];
    assert s[end + 1] == mid[end + 1 - start];
    forall m | start < m < end + 1 ensures s[m] == text[m - 1] {
      assert s[m] == mid[m - start];
      assert mid[m - start] == text[start..end][m - start - 1];
    }
  }

  /** A placeholder the toolbar inserts is one parser match of six characters. */
  lemma PlaceholderIsParsedAsMarker(text: string, start: nat, end: nat, syntax: Syntax)
    requires start <= end <= |text| && !IsWrap(syntax)
    ensures var r := HandleWrap(text, start, end, syntax);
            NarrativeParser.MatchAt(r.newText, start) == Some(NarrativeParser.Match(NarrativeParser.Brace, r.cursor))
  {
    var r := HandleWrap(text, start, end, syntax);
    PlaceholderReplacesSelection(text, start, end, syntax);
    var s := r.newText;
    assert s[start..start + 6] == Placeholder(syntax);
    assert s[start] == '{';
  }

  /**
   * Clicking outside the menu or pressing Escape closes it only while the
   * input holds more than whitespace.
   */
  function MayDismiss(textValue: string): (b: bool)
    ensures b <==> !AllSpace(textValue)
  {
    TrimEmptyIffAllSpace(textValue);
    |Trim(textValue)| > 0
  }
}
