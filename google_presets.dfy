/**
 * The Google Gemini models offered in settings.  The models named by the
 * environment variables GOOGLE_MODEL_1 … GOOGLE_MODEL_20 come first, in
 * the order of their numbers, each labelled from its id. When none of
 * these variables is set, three built-in models are offered instead.  The
 * environment is a parameter: variable number `i` maps to its value.
 */
module GooglePresets {
  import opened Common

  datatype GooglePresetModel = GooglePresetModel(key: string, id: string, labelText: string, recommended: bool)

  /** The ids that get a star. */
  const RecommendedModels: seq<string> := ["gemini-2.5-pro", "gemini-2.5-flash", "gemini-3-flash-preview"]

  /** Variables GOOGLE_MODEL_1 up to this number are read. */
  const MaxEnvModels: nat := 20

  const Star: string := "⭐ "

  // ---------------------------------------------------------------------
  // Labels
  // ---------------------------------------------------------------------

  /** One hyphen-separated part: kept when it starts with a digit, else its first character is upper-cased. */
  function FormatPart(part: string): (r: string)
    ensures |r| == |part|
    ensures forall k :: 0 < k < |part| ==> r[k] == part[k]
    ensures |part| > 0 ==> r[0] == if IsDigit(part[0]) then part[0] else UpperChar(part[0])
  {
    if |part| == 0 || IsDigit(part[0]) then part else [UpperChar(part[0])] + part[1..]
  }

  function FormatParts(parts: seq<string>): (r: seq<string>)
    ensures |r| == |parts|
    ensures forall k :: 0 <= k < |parts| ==> r[k] == FormatPart(parts[k])
  {
    seq(|parts|, k requires 0 <= k < |parts| => FormatPart(parts[k]))
  }

  /**
   * `formatModelLabel`: the id split on hyphens, each part formatted, joined
   * with spaces. The label has the id's length and, at every position, the
   * character `LabelChar` says.
   */
  function FormatModelLabel(modelId: string): (r: string)
    ensures |r| == |modelId|
    ensures forall k :: 0 <= k < |modelId| ==> r[k] == LabelChar(modelId, k)
  {
    JoinFormatted(Split(modelId, '-'));
    Join(FormatParts(Split(modelId, '-')), " ")
  }

  /**
   * The label character by character, independently of splitting: a hyphen
   * becomes a space, the first character of a part is upper-cased unless it
   * is a digit, and any other character is kept.
   */
  function LabelChar(s: string, k: nat): char
    requires k < |s|
  {
    if s[k] == '-' then ' '
    else if (k == 0 || s[k - 1] == '-') && !IsDigit(s[k]) then UpperChar(s[k])
    else s[k]
  }

  lemma {:induction false} JoinFormatted(parts: seq<string>)
    requires |parts| >= 1
    requires forall k :: 0 <= k < |parts| ==> !ContainsChar(parts[k], '-')
    ensures var s, t := Join(parts, "-"), Join(FormatParts(parts), " ");
            |t| == |s| && forall k :: 0 <= k < |s| ==> t[k] == LabelChar(s, k)
  {
    var p := parts[0];
    var fp := FormatPart(p);
    if |parts| == 1 {
      forall k | 0 <= k < |p|
        ensures fp[k] == LabelChar(p, k)
      {
        assert p[k] != '-';
        if k > 0 {
          assert p[k - 1] != '-';
        }
      }
    } else {
      var rest := parts[1..];
      assert FormatParts(parts)[1..] == FormatParts(rest);
      JoinFormatted(rest);
      var s, s' := Join(parts, "-"), Join(rest, "-");
      var t, t' := Join(FormatParts(parts), " "), Join(FormatParts(rest), " ");
      assert s == p + "-" + s';
      assert t == fp + " " + t';
      forall k | 0 <= k < |s|
        ensures t[k] == LabelChar(s, k)
      {
        if k < |p| {
          assert s[k] == p[k] && t[k] == fp[k];
          assert p[k] != '-';
          if k > 0 {
            assert s[k - 1] == p[k - 1];
            assert p[k - 1] != '-';
          }
        } else if k > |p| {
          var k' := k - |p| - 1;
          assert s[k] == s'[k'] && t[k] == t'[k'];
          if k' > 0 {
            assert s[k - 1] == s'[k' - 1];
          }
        }
      }
    }
  }

  /**
   * For an id without spaces, splitting the label on spaces gives back one
   * part per hyphen-separated part of the id, each formatted.
   */
  lemma PartCountPreserved(modelId: string)
    requires !ContainsChar(modelId, ' ')
    ensures Split(FormatModelLabel(modelId), ' ') == FormatParts(Split(modelId, '-'))
    ensures |Split(FormatModelLabel(modelId), ' ')| == |Split(modelId, '-')|
  {
    var parts := Split(modelId, '-');
    var formatted := FormatParts(parts);
    forall k | 0 <= k < |formatted|
      ensures !ContainsChar(formatted[k], ' ')
    {
      var part := parts[k];
      assert !ContainsChar(part, ' ') by {
        if ContainsChar(part, ' ') {
          JoinKeepsChars(parts, "-", k, ' ');
        }
      }
      forall j | 0 <= j < |part|
        ensures formatted[k][j] != ' '
      {
        assert part[j] != ' ';
      }
    }
    SplitJoin(formatted, ' ');
  }

  /** A character of a part is a character of the joined string. */
  lemma {:induction false} JoinKeepsChars(parts: seq<string>, sep: string, k: nat, c: char)
    requires k < |parts| && ContainsChar(parts[k], c)
    ensures ContainsChar(Join(parts, sep), c)
  {
    var j :| 0 <= j < |parts[k]| && parts[k][j] == c;
    if |parts| > 1 {
      var s := Join(parts, sep);
      var tail := Join(parts[1..], sep);
      assert s == parts[0] + sep + tail;
      if k == 0 {
        assert s[j] == c;
      } else {
        JoinKeepsChars(parts[1..], sep, k - 1, c);
        var i :| 0 <= i < |tail| && tail[i] == c;
        assert s[|parts[0]| + |sep| + i] == c;
      }
    }
  }

  // ---------------------------------------------------------------------
  // Presets
  // ---------------------------------------------------------------------

  /** The preset for the model named by variable number `i`. */
  function PresetFor(i: nat, modelId: string): GooglePresetModel
  {
    var isRecommended := modelId in RecommendedModels;
    var text := FormatModelLabel(modelId);
    GooglePresetModel("google-model-" + IntToString(i), modelId, if isRecommended then Star + text else text, isRecommended)
  }

  /** The presets from variables 1 to `n`, one for each variable with a non-empty value. */
  function EnvPresets(modelVar: nat -> Option<string>, n: nat): seq<GooglePresetModel>
  {
    if n == 0 then []
    else EnvPresets(modelVar, n - 1) + (if Present(modelVar(n)) then [PresetFor(n, modelVar(n).value)] else [])
  }

  /** The numbers of the variables from 1 to `n` with a non-empty value, in ascending order. */
  function SetVariables(modelVar: nat -> Option<string>, n: nat): seq<nat>
  {
    if n == 0 then [] else SetVariables(modelVar, n - 1) + (if Present(modelVar(n)) then [n] else [])
  }

  const DefaultPresets: seq<GooglePresetModel> := [
    GooglePresetModel("gemini-2.5-flash", "gemini-2.5-flash", "⭐ Gemini 2.5 Flash", true),
    GooglePresetModel("gemini-2.5-pro", "gemini-2.5-pro", "⭐ Gemini 2.5 Pro", true),
    GooglePresetModel("gemini-2.0-flash", "gemini-2.0-flash", "Gemini 2.0 Flash", false)
  ]

  /** What `getGooglePresets` returns. */
  function GooglePresetList(modelVar: nat -> Option<string>): seq<GooglePresetModel>
  {
    var envModels := EnvPresets(modelVar, MaxEnvModels);
    if |envModels| > 0 then envModels else DefaultPresets
  }

  /**
   * `getGooglePresets`: variables 1 to 20 are read in order and every
   * non-empty one adds its preset; without any, the built-in list.
   */
  method GetGooglePresets(modelVar: nat -> Option<string>) returns (presets: seq<GooglePresetModel>)
    ensures presets == GooglePresetList(modelVar)
  {
    var envModels: seq<GooglePresetModel> := [];
    for i := 1 to MaxEnvModels + 1
      invariant envModels == EnvPresets(modelVar, i - 1)
    {
      var modelId := modelVar(i);
      if Present(modelId) {
        var text := FormatModelLabel(modelId.value);
        var isRecommended := modelId.value in RecommendedModels;
        envModels := envModels + [GooglePresetModel("google-model-" + IntToString(i), modelId.value,
                                                    if isRecommended then Star + text else text, isRecommended)];
      }
    }
    if |envModels| > 0 {
      return envModels;
    }
    return DefaultPresets;
  }

  /**
   * The presets from the environment are those of the set variables, one
   * each and in the order of the variables' numbers.
   */
  lemma {:induction false} EnvPresetsFollowVariables(modelVar: nat -> Option<string>, n: nat)
    ensures var ps, ix := EnvPresets(modelVar, n), SetVariables(modelVar, n);
            |ps| == |ix| &&
            forall j :: 0 <= j < |ix| ==>
              1 <= ix[j] <= n && Present(modelVar(ix[j])) && ps[j] == PresetFor(ix[j], modelVar(ix[j]).value)
  {
    if n > 0 {
      EnvPresetsFollowVariables(modelVar, n - 1);
    }
  }

  /** The set variables, ascending and complete. */
  lemma {:induction false} SetVariablesAscending(modelVar: nat -> Option<string>, n: nat)
    ensures var ix := SetVariables(modelVar, n);
            forall j, j' :: 0 <= j < j' < |ix| ==> ix[j] < ix[j']
    ensures forall i :: 1 <= i <= n && Present(modelVar(i)) ==> i in SetVariables(modelVar, n)
  {
    if n > 0 {
      SetVariablesAscending(modelVar, n - 1);
      EnvPresetsFollowVariables(modelVar, n - 1);
    }
  }

  /** Without any set variable the built-in list is returned, and with one the environment's list. */
  lemma DefaultsIffNoVariable(modelVar: nat -> Option<string>)
    ensures (forall i :: 1 <= i <= MaxEnvModels ==> !Present(modelVar(i))) ==> GooglePresetList(modelVar) == DefaultPresets
    ensures (exists i :: 1 <= i <= MaxEnvModels && Present(modelVar(i))) ==>
              GooglePresetList(modelVar) == EnvPresets(modelVar, MaxEnvModels) && |GooglePresetList(modelVar)| > 0
  {
    EnvPresetsEmptyIff(modelVar, MaxEnvModels);
  }

  lemma {:induction false} EnvPresetsEmptyIff(modelVar: nat -> Option<string>, n: nat)
    ensures |EnvPresets(modelVar, n)| == 0 <==> forall i :: 1 <= i <= n ==> !Present(modelVar(i))
  {
    if n > 0 {
      EnvPresetsEmptyIff(modelVar, n - 1);
    }
  }

  /**
   * A preset is recommended exactly when its id is one of the starred ids,
   * and then its label starts with the star.  Its label starts with the
   * star exactly when it is recommended, unless the id itself starts with
   * the star.
   */
  lemma StarIffRecommended(i: nat, modelId: string)
    ensures PresetFor(i, modelId).recommended <==> modelId in RecommendedModels
    ensures PresetFor(i, modelId).recommended ==> StartsWith(PresetFor(i, modelId).labelText, Star)
    ensures (|modelId| == 0 || modelId[0] != '⭐') ==>
              (StartsWith(PresetFor(i, modelId).labelText, Star) <==> PresetFor(i, modelId).recommended)
  {
    var text := FormatModelLabel(modelId);
    var p := PresetFor(i, modelId);
    if p.recommended {
      assert (Star + text)[..|Star|] == Star;
    } else if |modelId| > 0 && modelId[0] != '⭐' {
      assert UpperChar(modelId[0]) != '⭐';
      assert text[0] != Star[0];
    }
  }

  /** The built-in presets keep the same rule: a star exactly on the recommended ids. */
  lemma DefaultsStarIffRecommended()
    ensures forall p :: p in DefaultPresets ==>
              (p.recommended <==> p.id in RecommendedModels) && (p.recommended <==> StartsWith(p.labelText, Star))
  {
    assert DefaultPresets[0].labelText[..|Star|] == Star;
    assert DefaultPresets[1].labelText[..|Star|] == Star;
    assert DefaultPresets[2].labelText[0] != Star[0];
  }
}
