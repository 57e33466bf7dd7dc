/**
 * The interface language: the provider that remembers the user's choice
 * in the browser's local storage, and the placeholder filling used by
 * translated strings.  Local storage is a field of the provider holding
 * the stored key/value pairs.
 */
module I18n {
  import opened Common

  datatype Language = En | Vi

  function Code(lang: Language): string
  {
    match lang
    case En => "en"
    case Vi => "vi"
  }

  const LanguageStorageKey: string := "app-language"

  /** The saved language, when the stored value is exactly one of the two codes. */
  function SavedLanguage(storage: map<string, string>): (saved: Option<Language>)
    ensures saved.Some? <==> LanguageStorageKey in storage && storage[LanguageStorageKey] in ["en", "vi"]
    ensures saved.Some? ==> Code(saved.value) == storage[LanguageStorageKey]
  {
    if LanguageStorageKey in storage && storage[LanguageStorageKey] == "en" then Some(En)
    else if LanguageStorageKey in storage && storage[LanguageStorageKey] == "vi" then Some(Vi)
    else None
  }

  /** Storing a language and reading it back gives the same language. */
  lemma StoredLanguageReadsBack(storage: map<string, string>, lang: Language)
    ensures SavedLanguage(storage[LanguageStorageKey := Code(lang)]) == Some(lang)
  {
  }

  /** `LanguageProvider`: the current language, whether the saved one was loaded, and local storage. */
  class LanguageProvider {
    var lang: Language
    var isLoaded: bool
    var storage: map<string, string>

    /** The state starts in English, not yet loaded. */
    constructor (storage: map<string, string>)
      ensures lang == En && !isLoaded && this.storage == storage
    {
      lang := En;
      isLoaded := false;
      this.storage := storage;
    }

    /** The mount effect: a valid saved language is adopted, anything else leaves the language as it was. */
    method LoadSavedLanguage()
      modifies this
      ensures lang == (if SavedLanguage(storage).Some? then SavedLanguage(storage).value else old(lang))
      ensures isLoaded && storage == old(storage)
    {
      var saved := SavedLanguage(storage);
      if saved.Some? {
        lang := saved.value;
      }
      isLoaded := true;
    }

    /** `setLang`: the language changes and its code is stored under the key. */
    method SetLang(newLang: Language)
      modifies this
      ensures lang == newLang && SavedLanguage(storage) == Some(newLang)
      ensures storage == old(storage)[LanguageStorageKey := Code(newLang)] && isLoaded == old(isLoaded)
    {
      lang := newLang;
      storage := storage[LanguageStorageKey := Code(newLang)];
      StoredLanguageReadsBack(old(storage), newLang);
    }
  }

  /** A freshly mounted provider shows English unless a valid language was saved. */
  method MountProvider(storage: map<string, string>) returns (provider: LanguageProvider)
    ensures fresh(provider) && provider.isLoaded && provider.storage == storage
    ensures provider.lang == (if SavedLanguage(storage).Some? then SavedLanguage(storage).value else En)
  {
    provider := new LanguageProvider(storage);
    provider.LoadSavedLanguage();
  }

  // ---------------------------------------------------------------------
  // Interpolation
  // ---------------------------------------------------------------------

  /** A value to interpolate: a string, or an integer written in decimal. */
  datatype Value = Text(text: string) | Number(n: int)

  function ValueString(v: Value): string
  {
    match v
    case Text(t) => t
    case Number(n) => IntToString(n)
  }

  /** The length of the run of `\w` characters starting at `i`. */
  function WordRun(s: string, i: nat): (n: nat)
    requires i <= |s|
    ensures i + n <= |s|
    ensures forall k :: i <= k < i + n ==> IsWordChar(s[k])
    ensures i + n < |s| ==> !IsWordChar(s[i + n])
    decreases |s| - i
  {
    if i < |s| && IsWordChar(s[i]) then 1 + WordRun(s, i + 1) else 0
  }

  /** The key of the placeholder `{key}` that starts the text, if one does. */
  function PlaceholderAt(s: string): (key: Option<string>)
    ensures key.Some? ==> IsKey(key.value) && StartsWith(s, "{" + key.value + "}")
  {
    if |s| > 0 && s[0] == '{' then
      var n := WordRun(s, 1);
      if n > 0 && 1 + n < |s| && s[1 + n] == '}' then
        assert s[..n + 2] == "{" + s[1..1 + n] + "}";
        Some(s[1..1 + n])
      else None
    else None
  }

  /** A placeholder key: one or more word characters. */
  predicate IsKey(key: string)
  {
    |key| > 0 && forall k :: 0 <= k < |key| ==> IsWordChar(key[k])
  }

  /** What a placeholder becomes: its value when the key is known, else itself. */
  function Replacement(key: string, values: map<string, Value>): string
  {
    if key in values then ValueString(values[key]) else "{" + key + "}"
  }

  /** The text holds no opening brace, so no placeholder can start in it. */
  predicate NoBrace(s: string)
    decreases |s|
  {
    |s| == 0 || (s[0] != '{' && NoBrace(s[1..]))
  }

  /**
   * `interpolate`: one left-to-right pass over the template; each
   * placeholder found is replaced and scanning resumes after it. A
   * template without an opening brace comes back unchanged.
   */
  function Interpolate(template: string, values: map<string, Value>): (r: string)
    ensures NoBrace(template) ==> r == template
    decreases |template|
  {
    if |template| == 0 then ""
    else match PlaceholderAt(template)
      case Some(key) =>
        Replacement(key, values) + Interpolate(template[|key| + 2..], values)
      case None =>
        assert template == [template[0]] + template[1..];
        [template[0]] + Interpolate(template[1..], values)
  }

  /** A placeholder `{key}` is recognised wherever it stands first. */
  lemma PlaceholderRecognised(key: string, rest: string)
    requires IsKey(key)
    ensures PlaceholderAt("{" + key + "}" + rest) == Some(key)
  {
    var s := "{" + key + "}" + rest;
    WordRunOfKey(s, key, 1);
    assert s[1..1 + |key|] == key;
  }

  lemma {:induction false} WordRunOfKey(s: string, key: string, i: nat)
    requires IsKey(key) && 1 <= i <= |key| + 1 && |key| + 2 <= |s| && s[|key| + 1] == '}'
    requires forall k :: 1 <= k <= |key| ==> s[k] == key[k - 1]
    ensures WordRun(s, i) == |key| + 1 - i
    decreases |key| + 1 - i
  {
    if i <= |key| {
      assert IsWordChar(key[i - 1]);
      WordRunOfKey(s, key, i + 1);
    }
  }

  /** A known key is replaced by its value, which is not scanned again. */
  lemma KnownKeyReplaced(key: string, rest: string, values: map<string, Value>)
    requires IsKey(key) && key in values
    ensures Interpolate("{" + key + "}" + rest, values) == ValueString(values[key]) + Interpolate(rest, values)
  {
    var s := "{" + key + "}" + rest;
    PlaceholderRecognised(key, rest);
    assert s[|key| + 2..] == rest;
  }

  /** An unknown key leaves its placeholder as it was. */
  lemma UnknownKeyKept(key: string, rest: string, values: map<string, Value>)
    requires IsKey(key) && key !in values
    ensures Interpolate("{" + key + "}" + rest, values) == "{" + key + "}" + Interpolate(rest, values)
  {
    var s := "{" + key + "}" + rest;
    PlaceholderRecognised(key, rest);
    assert s[|key| + 2..] == rest;
  }

  /** Text without an opening brace passes through unchanged in front of whatever follows. */
  lemma {:induction false} PlainTextKept(plain: string, rest: string, values: map<string, Value>)
    requires forall k :: 0 <= k < |plain| ==> plain[k] != '{'
    ensures Interpolate(plain + rest, values) == plain + Interpolate(rest, values)
    decreases |plain|
  {
    if |plain| > 0 {
      var s := plain + rest;
      assert s[0] == plain[0] && plain[0] != '{';
      assert PlaceholderAt(s) == None;
      PlainTextKept(plain[1..], rest, values);
      assert s[1..] == plain[1..] + rest;
      var c, tail, t := plain[0], plain[1..], Interpolate(rest, values);
      assert [c] + (tail + t) == plain + t;
    } else {
      assert plain + rest == rest;
    }
  }

  /** With no values every placeholder stays, so the template comes back unchanged. */
  lemma {:induction false} EmptyValuesIdentity(template: string)
    ensures Interpolate(template, map[]) == template
    decreases |template|
  {
    if |template| > 0 {
      match PlaceholderAt(template)
      case Some(key) =>
        EmptyValuesIdentity(template[|key| + 2..]);
        assert template == template[..|key| + 2] + template[|key| + 2..];
      case None =>
        EmptyValuesIdentity(template[1..]);
        assert template == [template[0]] + template[1..];
    }
  }
}
