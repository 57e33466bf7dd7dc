/**
 * The pronoun guard of the phone replies: a reply written in the voice of a
 * mother, father or boss must not address the user as a child or an
 * employee would ("Dạ", "con biết rồi", ...).  A reply that breaks a rule
 * gets the role's fixed fallback reply.
 *
 * The regular expressions of the source are written out as predicates over
 * the lower-cased, trimmed reply.
 */
module PronounValidator {
  import opened Common

  datatype Role = Mother | Father | Boss | Friend

  datatype ValidationResult = ValidationResult(
    valid: bool,
    errors: seq<string>,
    warnings: seq<string>,
    fallbackReply: Option<string>)

  const MotherDaError := "CRITICAL: AI started reply with \"Dạ\" (mother cannot speak as child!)"
  const MotherKnowsError := "CRITICAL: AI said \"con biết rồi\" (mother is not \"con\"!)"
  const MotherMissesError := "CRITICAL: AI said \"con nhớ mẹ\" (wrong direction - mother should say \"mẹ nhớ con\"!)"
  const MotherWillError := "CRITICAL: AI used \"con sẽ\" referring to self (mother is not \"con\"!)"
  const MotherWarning := "WARNING: Reply lacks maternal pronouns (\"mẹ\", \"con ơi\", \"ừ con\")"
  const FatherDaError := "CRITICAL: Father cannot start with \"Dạ\""
  const FatherKnowsError := "CRITICAL: Father cannot say \"con biết rồi ạ\""
  const BossDaError := "CRITICAL: Boss cannot start with \"Dạ\""
  const BossKnowsError := "CRITICAL: Boss cannot say \"em biết rồi ạ\""

  /** The fallback reply of each role; a friend has none. */
  function Fallback(role: Role): Option<string>
  {
    match role
    case Mother => Some("Ừ con, mẹ biết rồi ❤️")
    case Father => Some("Ừ con, bố đây")
    case Boss => Some("Được rồi, sếp đồng ý")
    case Friend => None
  }

  /** `aiReply.toLowerCase().trim()`. */
  function Normalize(aiReply: string): string
  {
    Trim(Lower(aiReply))
  }

  /** `/^dạ[\s<seps>]/`: "dạ" at the very start, then whitespace or one of `seps`. */
  predicate DaThen(lower: string, seps: string)
  {
    |lower| >= 3 && lower[..2] == "dạ" && (IsSpace(lower[2]) || lower[2] in seps)
  }

  /** `/a.*b/`: an occurrence of `a`, later an occurrence of `b`, and no line break between them. */
  predicate FollowedOnLine(s: string, a: string, b: string)
  {
    exists i, j :: 0 <= i && i + |a| <= j <= |s| - |b| && OccursAt(s, a, i) && OccursAt(s, b, j) &&
      forall k :: i + |a| <= k < j ==> !IsLineTerminator(s[k])
  }

  /** Maternal vocabulary: `/mẹ|con ơi|con à|ừ con/`. */
  predicate MaternalLanguage(lower: string)
  {
    Contains(lower, "mẹ") || Contains(lower, "con ơi") || Contains(lower, "con à") || Contains(lower, "ừ con")
  }

  predicate MotherDa(lower: string) { DaThen(lower, ".,!?") || lower == "dạ" }
  predicate MotherWill(lower: string) { Contains(lower, "con sẽ") && !FollowedOnLine(lower, "mẹ", "con sẽ") }
  predicate ParentDa(lower: string, title: string) { StartsWith(lower, "dạ " + title) || DaThen(lower, ".,") }

  function If(c: bool, msg: string): seq<string>
  {
    if c then [msg] else []
  }

  /** Whether a normalised reply breaks one of its role's rules. */
  predicate BreaksRule(role: Role, lower: string)
  {
    match role
    case Mother => MotherDa(lower) || Contains(lower, "con biết rồi") || Contains(lower, "con nhớ mẹ") || MotherWill(lower)
    case Father => ParentDa(lower, "bố") || FollowedOnLine(lower, "con biết rồi", "ạ")
    case Boss => ParentDa(lower, "sếp") || FollowedOnLine(lower, "em biết rồi", "ạ")
    case Friend => false
  }

  /** The errors of a normalised reply, in the order the rules are checked: none exactly when no rule is broken. */
  function RoleErrors(role: Role, lower: string): (errs: seq<string>)
    ensures errs == [] <==> !BreaksRule(role, lower)
    ensures |errs| <= 4
  {
    match role
    case Mother =>
      If(MotherDa(lower), MotherDaError) + If(Contains(lower, "con biết rồi"), MotherKnowsError)
      + If(Contains(lower, "con nhớ mẹ"), MotherMissesError) + If(MotherWill(lower), MotherWillError)
    case Father =>
      If(ParentDa(lower, "bố"), FatherDaError) + If(FollowedOnLine(lower, "con biết rồi", "ạ"), FatherKnowsError)
    case Boss =>
      If(ParentDa(lower, "sếp"), BossDaError) + If(FollowedOnLine(lower, "em biết rồi", "ạ"), BossKnowsError)
    case Friend => []
  }

  /** Each rule of a role contributes its message exactly when the reply breaks the rule, and no message twice. */
  lemma RoleErrorsMessages(role: Role, lower: string)
    ensures var errs := RoleErrors(role, lower);
      NoDuplicates(errs) &&
      (role == Mother ==>
        (MotherDaError in errs <==> MotherDa(lower)) &&
        (MotherKnowsError in errs <==> Contains(lower, "con biết rồi")) &&
        (MotherMissesError in errs <==> Contains(lower, "con nhớ mẹ")) &&
        (MotherWillError in errs <==> MotherWill(lower))) &&
      (role == Father ==>
        (FatherDaError in errs <==> ParentDa(lower, "bố")) &&
        (FatherKnowsError in errs <==> FollowedOnLine(lower, "con biết rồi", "ạ"))) &&
      (role == Boss ==>
        (BossDaError in errs <==> ParentDa(lower, "sếp")) &&
        (BossKnowsError in errs <==> FollowedOnLine(lower, "em biết rồi", "ạ")))
  {
  }

  /** The warnings of a normalised reply: only a mother's reply can lack its vocabulary. */
  function RoleWarnings(role: Role, lower: string): (ws: seq<string>)
    ensures |ws| > 0 <==> role == Mother && !MaternalLanguage(lower)
  {
    If(role == Mother && !MaternalLanguage(lower), MotherWarning)
  }

  /**
   * `validateAIResponse`: valid exactly when no rule is broken; the
   * fallback is offered exactly when one is; warnings play no part in
   * either.
   */
  function Outcome(role: Role, lower: string): (r: ValidationResult)
    ensures r.valid <==> r.errors == []
    ensures r.valid <==> !BreaksRule(role, lower)
    ensures r.fallbackReply.Some? <==> r.errors != []
    ensures r.fallbackReply.Some? ==> r.fallbackReply == Fallback(role)
    ensures |r.warnings| > 0 <==> role == Mother && !MaternalLanguage(lower)
  {
    var errors := RoleErrors(role, lower);
    ValidationResult(errors == [], errors, RoleWarnings(role, lower), if errors != [] then Fallback(role) else None)
  }

  /** The outcome for a raw reply: the rules see it lower-cased and trimmed. */
  function Validation(aiReply: string, role: Role): ValidationResult
  {
    Outcome(role, Normalize(aiReply))
  }

  /** `list.push(msg)` when the rule's condition holds. */
  method PushIf(list: seq<string>, broken: bool, msg: string) returns (list': seq<string>)
    ensures list' == list + If(broken, msg)
  {
    list' := list;
    if broken {
      list' := list' + [msg];
    }
  }

  lemma EmptyPrefix4(a: seq<string>, b: seq<string>, c: seq<string>, d: seq<string>)
    ensures [] + a + b + c + d == a + b + c + d
  {
  }

  /** The mother's rules, checked one after another. */
  method MotherRules(lower: string) returns (errors: seq<string>, warnings: seq<string>)
    ensures errors == RoleErrors(Mother, lower) && warnings == RoleWarnings(Mother, lower)
  {
    errors := PushIf([], MotherDa(lower), MotherDaError);
    errors := PushIf(errors, Contains(lower, "con biết rồi"), MotherKnowsError);
    errors := PushIf(errors, Contains(lower, "con nhớ mẹ"), MotherMissesError);
    errors := PushIf(errors, Contains(lower, "con sẽ") && !FollowedOnLine(lower, "mẹ", "con sẽ"), MotherWillError);
    warnings := PushIf([], !MaternalLanguage(lower), MotherWarning);
    EmptyPrefix4(If(MotherDa(lower), MotherDaError), If(Contains(lower, "con biết rồi"), MotherKnowsError),
                 If(Contains(lower, "con nhớ mẹ"), MotherMissesError), If(MotherWill(lower), MotherWillError));
  }

  /** The father's or the boss's rules: a "dạ" opening and a subordinate's "biết rồi ... ạ". */
  method SuperiorRules(lower: string, role: Role) returns (errors: seq<string>)
    requires role == Father || role == Boss
    ensures errors == RoleErrors(role, lower)
  {
    if role == Father {
      errors := PushIf([], ParentDa(lower, "bố"), FatherDaError);
      errors := PushIf(errors, FollowedOnLine(lower, "con biết rồi", "ạ"), FatherKnowsError);
    } else {
      errors := PushIf([], ParentDa(lower, "sếp"), BossDaError);
      errors := PushIf(errors, FollowedOnLine(lower, "em biết rồi", "ạ"), BossKnowsError);
    }
  }

  /** The validator as the source runs it: the rules of the role one after another, pushing onto the two lists. */
  method ValidateAIResponse(aiReply: string, characterRole: Role) returns (r: ValidationResult)
    ensures r == Validation(aiReply, characterRole)
  {
    var errors: seq<string> := [];
    var warnings: seq<string> := [];
    var fallbackReply: Option<string> := None;
    var lower := Normalize(aiReply);
    if characterRole == Mother {
      errors, warnings := MotherRules(lower);
      fallbackReply := Fallback(Mother);
    }
    if characterRole == Father || characterRole == Boss {
      errors := SuperiorRules(lower, characterRole);
      fallbackReply := Fallback(characterRole);
    }
    r := ValidationResult(|errors| == 0, errors, warnings, if |errors| > 0 then fallbackReply else None);
  }

  /** A friend is never checked: always valid, no warnings, no fallback. */
  lemma FriendIsNeverChecked(aiReply: string)
    ensures Validation(aiReply, Friend) == ValidationResult(true, [], [], None)
  {
  }

  /** Every parent role refuses a reply that opens with "dạ" and a space, a full stop or a comma. */
  lemma ParentsRefuseDa(aiReply: string, role: Role)
    requires role != Friend && DaThen(Normalize(aiReply), ".,")
    ensures !Validation(aiReply, role).valid
    ensures Validation(aiReply, role).fallbackReply == Fallback(role)
  {
    var lower := Normalize(aiReply);
    assert StartsWith(lower, "dạ") by {
      assert lower[..2] == "dạ";
    }
  }

  /** The fallback of each parent role speaks in that role's own voice. */
  lemma FallbacksUseOwnPronoun()
    ensures Contains(Fallback(Mother).value, "mẹ")
    ensures Contains(Fallback(Father).value, "bố")
    ensures Contains(Fallback(Boss).value, "sếp")
  {
    assert OccursAt(Fallback(Mother).value, "mẹ", 7);
    assert OccursAt(Fallback(Father).value, "bố", 7);
    assert OccursAt(Fallback(Boss).value, "sếp", 10);
  }

  /** A reply whose lower-cased form has no surrounding whitespace normalises to that form. */
  lemma NormalizedAs(reply: string, lower: string)
    requires Lower(reply) == lower && (lower == [] || (!IsSpace(lower[0]) && !IsSpace(lower[|lower| - 1])))
    ensures Normalize(reply) == lower
  {
    TrimOfTrimmed(lower);
  }

  /** A reply that breaks no rule of its role passes with neither errors nor a fallback. */
  lemma ValidWhenNoRuleBroken(reply: string, lower: string, role: Role)
    requires Normalize(reply) == lower && !BreaksRule(role, lower)
    ensures Validation(reply, role).valid && Validation(reply, role).errors == [] && Validation(reply, role).fallbackReply == None
  {
  }

  /** A mother's reply that neither opens with "d" nor holds one of the three forbidden phrases is valid. */
  lemma GoodMotherReply(reply: string, lower: string)
    requires Lower(reply) == lower
    requires |lower| > 2 && !IsSpace(lower[0]) && !IsSpace(lower[|lower| - 1]) && lower[0] != 'd'
    requires !Contains(lower, "con biết rồi") && !Contains(lower, "con nhớ mẹ") && !Contains(lower, "con sẽ")
    ensures Validation(reply, Mother).valid && Validation(reply, Mother).errors == []
  {
    NormalizedAs(reply, lower);
    assert !BreaksRule(Mother, lower) by {
      assert lower[..2][0] == lower[0];
    }
    ValidWhenNoRuleBroken(reply, lower, Mother);
  }

  /** "ăn cơm chưa" holds none of the phrases the rules look for. */
  lemma AnComLacksPhrases()
    ensures !Contains("ăn cơm chưa", "con biết rồi")
    ensures !Contains("ăn cơm chưa", "con nhớ mẹ")
    ensures !Contains("ăn cơm chưa", "con sẽ")
    ensures !Contains("ăn cơm chưa", "mẹ")
    ensures !Contains("ăn cơm chưa", "con ơi")
    ensures !Contains("ăn cơm chưa", "con à")
    ensures !Contains("ăn cơm chưa", "ừ con")
  {
    AbsentByChar("ăn cơm chưa", "con biết rồi", 1);
    AbsentByChar("ăn cơm chưa", "con nhớ mẹ", 1);
    AbsentByChar("ăn cơm chưa", "con sẽ", 1);
    AbsentByChar("ăn cơm chưa", "mẹ", 1);
    AbsentByChar("ăn cơm chưa", "con ơi", 1);
    AbsentByChar("ăn cơm chưa", "con à", 1);
    AbsentByChar("ăn cơm chưa", "ừ con", 0);
  }

  /** A reply no rule refuses is valid whatever the warnings say: one lacking maternal words carries only the warning. */
  lemma WarningKeepsReplyValid()
    ensures var r := Validation("Ăn cơm chưa", Mother);
            r.valid && r.errors == [] && r.warnings == [MotherWarning] && r.fallbackReply == None
  {
    LowerCase1();
    AnComLacksPhrases();
    NormalizedAs("Ăn cơm chưa", "ăn cơm chưa");
    GoodMotherReply("Ăn cơm chưa", "ăn cơm chưa");
  }

  /** "ừ con, mẹ biết rồi" holds none of the phrases the rules look for. */
  lemma GoodReplyLacksPhrases1()
    ensures !Contains("ừ con, mẹ biết rồi", "con biết rồi")
    ensures !Contains("ừ con, mẹ biết rồi", "con nhớ mẹ")
    ensures !Contains("ừ con, mẹ biết rồi", "con sẽ")
  {
    assert "ừ con, mẹ biết rồi"[6] != "con biết rồi"[0];
    assert !ScanFor("ừ con, mẹ biết rồi", "con biết rồi", 6);
    assert "ừ con, mẹ biết rồi"[5] != "con biết rồi"[0];
    assert !ScanFor("ừ con, mẹ biết rồi", "con biết rồi", 5);
    assert "ừ con, mẹ biết rồi"[4] != "con biết rồi"[0];
    assert !ScanFor("ừ con, mẹ biết rồi", "con biết rồi", 4);
    assert "ừ con, mẹ biết rồi"[3] != "con biết rồi"[0];
    assert !ScanFor("ừ con, mẹ biết rồi", "con biết rồi", 3);
    assert "ừ con, mẹ biết rồi"[5] != "con biết rồi"[3];
    assert !ScanFor("ừ con, mẹ biết rồi", "con biết rồi", 2);
    assert "ừ con, mẹ biết rồi"[1] != "con biết rồi"[0];
    assert !ScanFor("ừ con, mẹ biết rồi", "con biết rồi", 1);
    assert "ừ con, mẹ biết rồi"[0] != "con biết rồi"[0];
    assert !ScanFor("ừ con, mẹ biết rồi", "con biết rồi", 0);
    ContainsByScan("ừ con, mẹ biết rồi", "con biết rồi");
    AbsentByChar("ừ con, mẹ biết rồi", "con nhớ mẹ", 5);
    AbsentByChar("ừ con, mẹ biết rồi", "con sẽ", 4);
  }

  /** A good mother reply of the test suite breaks no rule. */
  lemma GoodMotherReplyValid1()
    ensures Validation("Ừ con, mẹ biết rồi", Mother).valid && Validation("Ừ con, mẹ biết rồi", Mother).errors == []
  {
    LowerCase2();
    GoodReplyLacksPhrases1();
    GoodMotherReply("Ừ con, mẹ biết rồi", "ừ con, mẹ biết rồi");
  }

  /** "con ơi, mẹ nhớ con quá" holds none of the phrases the rules look for. */
  lemma GoodReplyLacksPhrases2()
    ensures !Contains("con ơi, mẹ nhớ con quá", "con biết rồi")
    ensures !Contains("con ơi, mẹ nhớ con quá", "con nhớ mẹ")
    ensures !Contains("con ơi, mẹ nhớ con quá", "con sẽ")
  {
    AbsentByChar("con ơi, mẹ nhớ con quá", "con biết rồi", 4);
    LacksConNhoMe();
    AbsentByChar("con ơi, mẹ nhớ con quá", "con sẽ", 4);
  }

  /** The scan for "con nhớ mẹ" passes over every position of "con ơi, mẹ nhớ con quá". */
  lemma LacksConNhoMe()
    ensures !Contains("con ơi, mẹ nhớ con quá", "con nhớ mẹ")
  {
    assert "con ơi, mẹ nhớ con quá"[12] != "con nhớ mẹ"[0];
    assert !ScanFor("con ơi, mẹ nhớ con quá", "con nhớ mẹ", 12);
    assert "con ơi, mẹ nhớ con quá"[11] != "con nhớ mẹ"[0];
    assert !ScanFor("con ơi, mẹ nhớ con quá", "con nhớ mẹ", 11);
    assert "con ơi, mẹ nhớ con quá"[10] != "con nhớ mẹ"[0];
    assert !ScanFor("con ơi, mẹ nhớ con quá", "con nhớ mẹ", 10);
    assert "con ơi, mẹ nhớ con quá"[9] != "con nhớ mẹ"[0];
    assert !ScanFor("con ơi, mẹ nhớ con quá", "con nhớ mẹ", 9);
    assert "con ơi, mẹ nhớ con quá"[8] != "con nhớ mẹ"[0];
    assert !ScanFor("con ơi, mẹ nhớ con quá", "con nhớ mẹ", 8);
    assert "con ơi, mẹ nhớ con quá"[7] != "con nhớ mẹ"[0];
    assert !ScanFor("con ơi, mẹ nhớ con quá", "con nhớ mẹ", 7);
    assert "con ơi, mẹ nhớ con quá"[6] != "con nhớ mẹ"[0];
    assert !ScanFor("con ơi, mẹ nhớ con quá", "con nhớ mẹ", 6);
    assert "con ơi, mẹ nhớ con quá"[5] != "con nhớ mẹ"[0];
    assert !ScanFor("con ơi, mẹ nhớ con quá", "con nhớ mẹ", 5);
    assert "con ơi, mẹ nhớ con quá"[4] != "con nhớ mẹ"[0];
    assert !ScanFor("con ơi, mẹ nhớ con quá", "con nhớ mẹ", 4);
    assert "con ơi, mẹ nhớ con quá"[3] != "con nhớ mẹ"[0];
    assert !ScanFor("con ơi, mẹ nhớ con quá", "con nhớ mẹ", 3);
    assert "con ơi, mẹ nhớ con quá"[2] != "con nhớ mẹ"[0];
    assert !ScanFor("con ơi, mẹ nhớ con quá", "con nhớ mẹ", 2);
    assert "con ơi, mẹ nhớ con quá"[1] != "con nhớ mẹ"[0];
    assert !ScanFor("con ơi, mẹ nhớ con quá", "con nhớ mẹ", 1);
    assert "con ơi, mẹ nhớ con quá"[4] != "con nhớ mẹ"[4];
    assert !ScanFor("con ơi, mẹ nhớ con quá", "con nhớ mẹ", 0);
    ContainsByScan("con ơi, mẹ nhớ con quá", "con nhớ mẹ");
  }

  /** A good mother reply of the test suite breaks no rule. */
  lemma GoodMotherReplyValid2()
    ensures Validation("Con ơi, mẹ nhớ con quá", Mother).valid && Validation("Con ơi, mẹ nhớ con quá", Mother).errors == []
  {
    LowerCase3();
    GoodReplyLacksPhrases2();
    GoodMotherReply("Con ơi, mẹ nhớ con quá", "con ơi, mẹ nhớ con quá");
  }

  /** "mẹ nấu cơm chờ con đây" holds none of the phrases the rules look for. */
  lemma GoodReplyLacksPhrases3()
    ensures !Contains("mẹ nấu cơm chờ con đây", "con biết rồi")
    ensures !Contains("mẹ nấu cơm chờ con đây", "con nhớ mẹ")
    ensures !Contains("mẹ nấu cơm chờ con đây", "con sẽ")
  {
    AbsentByChar("mẹ nấu cơm chờ con đây", "con biết rồi", 4);
    AbsentByChar("mẹ nấu cơm chờ con đây", "con nhớ mẹ", 6);
    AbsentByChar("mẹ nấu cơm chờ con đây", "con sẽ", 4);
  }

  /** A good mother reply of the test suite breaks no rule. */
  lemma GoodMotherReplyValid3()
    ensures Validation("Mẹ nấu cơm chờ con đây", Mother).valid && Validation("Mẹ nấu cơm chờ con đây", Mother).errors == []
  {
    LowerCase4();
    GoodReplyLacksPhrases3();
    GoodMotherReply("Mẹ nấu cơm chờ con đây", "mẹ nấu cơm chờ con đây");
  }

  /** "con về chưa? mẹ lo lắm" holds none of the phrases the rules look for. */
  lemma GoodReplyLacksPhrases4()
    ensures !Contains("con về chưa? mẹ lo lắm", "con biết rồi")
    ensures !Contains("con về chưa? mẹ lo lắm", "con nhớ mẹ")
    ensures !Contains("con về chưa? mẹ lo lắm", "con sẽ")
  {
    AbsentByChar("con về chưa? mẹ lo lắm", "con biết rồi", 4);
    AbsentByChar("con về chưa? mẹ lo lắm", "con nhớ mẹ", 6);
    AbsentByChar("con về chưa? mẹ lo lắm", "con sẽ", 4);
  }

  /** A good mother reply of the test suite breaks no rule. */
  lemma GoodMotherReplyValid4()
    ensures Validation("Con về chưa? Mẹ lo lắm", Mother).valid && Validation("Con về chưa? Mẹ lo lắm", Mother).errors == []
  {
    LowerCase5();
    GoodReplyLacksPhrases4();
    GoodMotherReply("Con về chưa? Mẹ lo lắm", "con về chưa? mẹ lo lắm");
  }

  /** A mother's reply opening with "dạ" and a separator is refused with the "Dạ" error and the mother's fallback. */
  lemma MotherDaReply(reply: string, lower: string)
    requires Lower(reply) == lower && DaThen(lower, ".,!?") && !IsSpace(lower[|lower| - 1])
    ensures !Validation(reply, Mother).valid && MotherDaError in Validation(reply, Mother).errors
    ensures Validation(reply, Mother).fallbackReply == Fallback(Mother)
  {
    NormalizedAs(reply, lower);
    RoleErrorsMessages(Mother, lower);
  }

  /** The "Dạ" error names "Dạ", as the test suite looks for. */
  lemma MotherDaErrorNamesDa()
    ensures Contains(MotherDaError, "Dạ")
  {
    OccursByChars(MotherDaError, "Dạ", 33);
  }

  /** "Dạ" reply 1 of the test suite is refused. */
  lemma MotherDaRefused1()
    ensures !Validation("Dạ. Con nhớ ăn nha", Mother).valid && MotherDaError in Validation("Dạ. Con nhớ ăn nha", Mother).errors
    ensures Validation("Dạ. Con nhớ ăn nha", Mother).fallbackReply == Fallback(Mother)
  {
    LowerCase6();
    MotherDaReply("Dạ. Con nhớ ăn nha", "dạ. con nhớ ăn nha");
  }

  /** "Dạ" reply 2 of the test suite is refused. */
  lemma MotherDaRefused2()
    ensures !Validation("Dạ mẹ ơi", Mother).valid && MotherDaError in Validation("Dạ mẹ ơi", Mother).errors
    ensures Validation("Dạ mẹ ơi", Mother).fallbackReply == Fallback(Mother)
  {
    LowerCase7();
    MotherDaReply("Dạ mẹ ơi", "dạ mẹ ơi");
  }

  /** "Dạ" reply 3 of the test suite is refused. */
  lemma MotherDaRefused3()
    ensures !Validation("Dạ, con biết rồi ạ", Mother).valid && MotherDaError in Validation("Dạ, con biết rồi ạ", Mother).errors
    ensures Validation("Dạ, con biết rồi ạ", Mother).fallbackReply == Fallback(Mother)
  {
    LowerCase8();
    MotherDaReply("Dạ, con biết rồi ạ", "dạ, con biết rồi ạ");
  }

  /** A mother's reply holding "con biết rồi" is refused with the error that quotes it. */
  lemma MotherKnowsReply(reply: string, lower: string)
    requires Lower(reply) == lower && OccursAt(lower, "con biết rồi", 0)
    requires !IsSpace(lower[0]) && !IsSpace(lower[|lower| - 1])
    ensures !Validation(reply, Mother).valid && MotherKnowsError in Validation(reply, Mother).errors
  {
    NormalizedAs(reply, lower);
    RoleErrorsMessages(Mother, lower);
  }

  /** The error names "con biết rồi", as the test suite looks for. */
  lemma MotherKnowsErrorNamesPhrase()
    ensures Contains(MotherKnowsError, "con biết rồi")
  {
    OccursByChars(MotherKnowsError, "con biết rồi", 19);
  }

  lemma KnowsPhraseAtStart()
    ensures OccursAt("con biết rồi mẹ ạ", "con biết rồi", 0)
  {
    OccursByChars("con biết rồi mẹ ạ", "con biết rồi", 0);
  }

  /** "con biết rồi mẹ ạ" is refused with the error that quotes "con biết rồi". */
  lemma MotherKnowsRefused()
    ensures !Validation("con biết rồi mẹ ạ", Mother).valid && MotherKnowsError in Validation("con biết rồi mẹ ạ", Mother).errors
  {
    LowerCase9();
    KnowsPhraseAtStart();
    MotherKnowsReply("con biết rồi mẹ ạ", "con biết rồi mẹ ạ");
  }

  /** A father's or boss's reply opening with "dạ" and the title is refused with the role's fallback. */
  lemma SuperiorReply(reply: string, lower: string, role: Role, title: string)
    requires (role == Father && title == "bố") || (role == Boss && title == "sếp")
    requires Lower(reply) == lower && StartsWith(lower, "dạ " + title) && !IsSpace(lower[|lower| - 1])
    ensures !Validation(reply, role).valid && Validation(reply, role).fallbackReply == Fallback(role)
  {
    NormalizedAs(reply, lower);
  }

  /** The father reply "Dạ bố ơi" of the test suite is refused, with the father's fallback. */
  lemma FatherDaRefused1()
    ensures !Validation("Dạ bố ơi", Father).valid && Validation("Dạ bố ơi", Father).fallbackReply == Fallback(Father)
  {
    LowerCase10();
    assert "dạ bố ơi"[..5] == "dạ bố";
    SuperiorReply("Dạ bố ơi", "dạ bố ơi", Father, "bố");
  }

  /** The father reply "Dạ bố" of the test suite is refused, with the father's fallback. */
  lemma FatherDaRefused2()
    ensures !Validation("Dạ bố", Father).valid && Validation("Dạ bố", Father).fallbackReply == Fallback(Father)
  {
    LowerCase11();
    assert "dạ bố"[..5] == "dạ bố";
    SuperiorReply("Dạ bố", "dạ bố", Father, "bố");
  }

  /** The boss reply "Dạ sếp ạ" of the test suite is refused, with the boss's fallback. */
  lemma BossDaRefused1()
    ensures !Validation("Dạ sếp ạ", Boss).valid && Validation("Dạ sếp ạ", Boss).fallbackReply == Fallback(Boss)
  {
    LowerCase12();
    assert "dạ sếp ạ"[..6] == "dạ sếp";
    SuperiorReply("Dạ sếp ạ", "dạ sếp ạ", Boss, "sếp");
  }

  /** The boss reply "Dạ sếp" of the test suite is refused, with the boss's fallback. */
  lemma BossDaRefused2()
    ensures !Validation("Dạ sếp", Boss).valid && Validation("Dạ sếp", Boss).fallbackReply == Fallback(Boss)
  {
    LowerCase13();
    assert "dạ sếp"[..6] == "dạ sếp";
    SuperiorReply("Dạ sếp", "dạ sếp", Boss, "sếp");
  }

  // ---------------------------------------------------------------------
  // detectRole and getCorrectPronouns
  // ---------------------------------------------------------------------

  const MotherKeys: seq<string> := ["mẹ", "mom", "mother"]
  const FatherKeys: seq<string> := ["bố", "ba ", "dad", "father"]
  const BossKeys: seq<string> := ["sếp", "boss", "manager"]

  /** `detectRole`: the first role, in the order mother, father, boss, one of whose keys the lower-cased name contains. */
  function DetectRole(contactName: string): (role: Role)
    ensures role == Mother <==> ContainsAny(Lower(contactName), MotherKeys)
    ensures role == Father <==> !ContainsAny(Lower(contactName), MotherKeys) && ContainsAny(Lower(contactName), FatherKeys)
    ensures role == Boss <==> !ContainsAny(Lower(contactName), MotherKeys) && !ContainsAny(Lower(contactName), FatherKeys)
                              && ContainsAny(Lower(contactName), BossKeys)
  {
    var lower := Lower(contactName);
    if ContainsAny(lower, MotherKeys) then Mother
    else if ContainsAny(lower, FatherKeys) then Father
    else if ContainsAny(lower, BossKeys) then Boss
    else Friend
  }

  /** The role a name is detected as, from which keys its lower-cased form holds. */
  lemma DetectedAs(name: string, lower: string, role: Role)
    requires Lower(name) == lower
    requires role != Mother ==> !ContainsAny(lower, MotherKeys)
    requires role != Mother && role != Father ==> !ContainsAny(lower, FatherKeys)
    requires role == Friend ==> !ContainsAny(lower, BossKeys)
    requires role == Mother ==> ContainsAny(lower, MotherKeys)
    requires role == Father ==> ContainsAny(lower, FatherKeys)
    requires role == Boss ==> ContainsAny(lower, BossKeys)
    ensures DetectRole(name) == role
  {
  }

  /** The mother names of the test suite, Vietnamese and English. ("Mẹ yêu 💕") */
  lemma DetectsMother1()
    ensures DetectRole("Mẹ yêu 💕") == Mother
  {
    LowerCase14();
    assert OccursAt("mẹ yêu 💕", MotherKeys[0], 0);
    DetectedAs("Mẹ yêu 💕", "mẹ yêu 💕", Mother);
  }

  /** The mother names of the test suite, Vietnamese and English. ("Mẹ") */
  lemma DetectsMother2()
    ensures DetectRole("Mẹ") == Mother
  {
    LowerCase15();
    assert OccursAt("mẹ", MotherKeys[0], 0);
    DetectedAs("Mẹ", "mẹ", Mother);
  }

  /** The mother names of the test suite, Vietnamese and English. ("Mom") */
  lemma DetectsMother3()
    ensures DetectRole("Mom") == Mother
  {
    LowerCase16();
    assert OccursAt("mom", MotherKeys[1], 0);
    DetectedAs("Mom", "mom", Mother);
  }

  /** The mother names of the test suite, Vietnamese and English. ("Mother") */
  lemma DetectsMother4()
    ensures DetectRole("Mother") == Mother
  {
    LowerCase17();
    assert OccursAt("mother", MotherKeys[2], 0);
    DetectedAs("Mother", "mother", Mother);
  }

  /** The father names of the test suite. ("Bố") */
  lemma DetectsFather1()
    ensures DetectRole("Bố") == Father
  {
    LowerCase18();
    AbsentByChar("bố", "mẹ", 0);
    AbsentByChar("bố", "mom", 0);
    AbsentByChar("bố", "mother", 0);
    assert !ContainsAny("bố", MotherKeys);
    assert OccursAt("bố", FatherKeys[0], 0);
    DetectedAs("Bố", "bố", Father);
  }

  /** The father names of the test suite. ("Ba ơi") */
  lemma DetectsFather2()
    ensures DetectRole("Ba ơi") == Father
  {
    LowerCase19();
    AbsentByChar("ba ơi", "mẹ", 0);
    AbsentByChar("ba ơi", "mom", 0);
    AbsentByChar("ba ơi", "mother", 0);
    assert !ContainsAny("ba ơi", MotherKeys);
    assert OccursAt("ba ơi", FatherKeys[1], 0);
    DetectedAs("Ba ơi", "ba ơi", Father);
  }

  /** The father names of the test suite. ("Dad") */
  lemma DetectsFather3()
    ensures DetectRole("Dad") == Father
  {
    LowerCase20();
    AbsentByChar("dad", "mẹ", 0);
    AbsentByChar("dad", "mom", 0);
    AbsentByChar("dad", "mother", 0);
    assert !ContainsAny("dad", MotherKeys);
    assert OccursAt("dad", FatherKeys[2], 0);
    DetectedAs("Dad", "dad", Father);
  }

  /** The boss names of the test suite. ("Sếp") */
  lemma DetectsBoss1()
    ensures DetectRole("Sếp") == Boss
  {
    LowerCase21();
    AbsentByChar("sếp", "mẹ", 0);
    AbsentByChar("sếp", "mom", 0);
    AbsentByChar("sếp", "mother", 0);
    assert !ContainsAny("sếp", MotherKeys);
    AbsentByChar("sếp", "bố", 0);
    AbsentByChar("sếp", "ba ", 0);
    AbsentByChar("sếp", "dad", 0);
    AbsentByChar("sếp", "father", 0);
    assert !ContainsAny("sếp", FatherKeys);
    assert OccursAt("sếp", BossKeys[0], 0);
    DetectedAs("Sếp", "sếp", Boss);
  }

  /** The boss names of the test suite. ("Boss") */
  lemma DetectsBoss2()
    ensures DetectRole("Boss") == Boss
  {
    LowerCase22();
    AbsentByChar("boss", "mẹ", 0);
    AbsentByChar("boss", "mom", 0);
    AbsentByChar("boss", "mother", 0);
    assert !ContainsAny("boss", MotherKeys);
    AbsentByChar("boss", "bố", 1);
    AbsentByChar("boss", "ba ", 1);
    AbsentByChar("boss", "dad", 0);
    AbsentByChar("boss", "father", 0);
    assert !ContainsAny("boss", FatherKeys);
    assert OccursAt("boss", BossKeys[1], 0);
    DetectedAs("Boss", "boss", Boss);
  }

  /** The boss names of the test suite. ("Manager") */
  lemma DetectsBoss3()
    ensures DetectRole("Manager") == Boss
  {
    LowerCase23();
    AbsentByChar("manager", "mẹ", 1);
    AbsentByChar("manager", "mom", 1);
    AbsentByChar("manager", "mother", 1);
    assert !ContainsAny("manager", MotherKeys);
    AbsentByChar("manager", "bố", 0);
    AbsentByChar("manager", "ba ", 0);
    AbsentByChar("manager", "dad", 0);
    AbsentByChar("manager", "father", 0);
    assert !ContainsAny("manager", FatherKeys);
    assert OccursAt("manager", BossKeys[2], 0);
    DetectedAs("Manager", "manager", Boss);
  }

  /** Names without any key default to friend. ("Bạn thân") */
  lemma DefaultsToFriend1()
    ensures DetectRole("Bạn thân") == Friend
  {
    LowerCase24();
    AbsentByChar("bạn thân", "mẹ", 0);
    AbsentByChar("bạn thân", "mom", 0);
    AbsentByChar("bạn thân", "mother", 0);
    assert !ContainsAny("bạn thân", MotherKeys);
    AbsentByChar("bạn thân", "bố", 1);
    AbsentByChar("bạn thân", "ba ", 1);
    AbsentByChar("bạn thân", "dad", 0);
    AbsentByChar("bạn thân", "father", 0);
    assert !ContainsAny("bạn thân", FatherKeys);
    AbsentByChar("bạn thân", "sếp", 0);
    AbsentByChar("bạn thân", "boss", 1);
    AbsentByChar("bạn thân", "manager", 0);
    assert !ContainsAny("bạn thân", BossKeys);
    DetectedAs("Bạn thân", "bạn thân", Friend);
  }

  /** Names without any key default to friend. ("Unknown person") */
  lemma DefaultsToFriend2()
    ensures DetectRole("Unknown person") == Friend
  {
    LowerCase25();
    AbsentByChar("unknown person", "mẹ", 0);
    AbsentByChar("unknown person", "mom", 0);
    AbsentByChar("unknown person", "mother", 0);
    assert !ContainsAny("unknown person", MotherKeys);
    AbsentByChar("unknown person", "bố", 0);
    AbsentByChar("unknown person", "ba ", 0);
    AbsentByChar("unknown person", "dad", 0);
    AbsentByChar("unknown person", "father", 0);
    assert !ContainsAny("unknown person", FatherKeys);
    AbsentByChar("unknown person", "sếp", 1);
    AbsentByChar("unknown person", "boss", 0);
    AbsentByChar("unknown person", "manager", 0);
    assert !ContainsAny("unknown person", BossKeys);
    DetectedAs("Unknown person", "unknown person", Friend);
  }

  /** "Me oi", which the test suite counts as a mother, holds no key ("me" is not "mẹ") and is a friend. */
  lemma UnaccentedMeIsFriend()
    ensures DetectRole("Me oi") == Friend
  {
    LowerCase26();
    AbsentByChar("me oi", "mẹ", 1);
    assert "me oi"[2] != "mom"[0];
    assert !ScanFor("me oi", "mom", 2);
    assert "me oi"[1] != "mom"[0];
    assert !ScanFor("me oi", "mom", 1);
    assert "me oi"[1] != "mom"[1];
    assert !ScanFor("me oi", "mom", 0);
    ContainsByScan("me oi", "mom");
    AbsentByChar("me oi", "mother", 2);
    assert !ContainsAny("me oi", MotherKeys);
    AbsentByChar("me oi", "bố", 0);
    AbsentByChar("me oi", "ba ", 0);
    AbsentByChar("me oi", "dad", 0);
    AbsentByChar("me oi", "father", 0);
    assert !ContainsAny("me oi", FatherKeys);
    AbsentByChar("me oi", "sếp", 0);
    AbsentByChar("me oi", "boss", 0);
    AbsentByChar("me oi", "manager", 1);
    assert !ContainsAny("me oi", BossKeys);
    DetectedAs("Me oi", "me oi", Friend);
  }

  lemma LowerCase1()
    ensures Lower("Ăn cơm chưa") == "ăn cơm chưa"
  {
  }

  lemma LowerCase2()
    ensures Lower("Ừ con, mẹ biết rồi") == "ừ con, mẹ biết rồi"
  {
  }

  lemma LowerCase3()
    ensures Lower("Con ơi, mẹ nhớ con quá") == "con ơi, mẹ nhớ con quá"
  {
  }

  lemma LowerCase4()
    ensures Lower("Mẹ nấu cơm chờ con đây") == "mẹ nấu cơm chờ con đây"
  {
  }

  lemma LowerCase5()
    ensures Lower("Con về chưa? Mẹ lo lắm") == "con về chưa? mẹ lo lắm"
  {
  }

  lemma LowerCase6()
    ensures Lower("Dạ. Con nhớ ăn nha") == "dạ. con nhớ ăn nha"
  {
  }

  lemma LowerCase7()
    ensures Lower("Dạ mẹ ơi") == "dạ mẹ ơi"
  {
  }

  lemma LowerCase8()
    ensures Lower("Dạ, con biết rồi ạ") == "dạ, con biết rồi ạ"
  {
  }

  lemma LowerCase9()
    ensures Lower("con biết rồi mẹ ạ") == "con biết rồi mẹ ạ"
  {
  }

  lemma LowerCase10()
    ensures Lower("Dạ bố ơi") == "dạ bố ơi"
  {
  }

  lemma LowerCase11()
    ensures Lower("Dạ bố") == "dạ bố"
  {
  }

  lemma LowerCase12()
    ensures Lower("Dạ sếp ạ") == "dạ sếp ạ"
  {
  }

  lemma LowerCase13()
    ensures Lower("Dạ sếp") == "dạ sếp"
  {
  }

  lemma LowerCase14()
    ensures Lower("Mẹ yêu 💕") == "mẹ yêu 💕"
  {
  }

  lemma LowerCase15()
    ensures Lower("Mẹ") == "mẹ"
  {
  }

  lemma LowerCase16()
    ensures Lower("Mom") == "mom"
  {
  }

  lemma LowerCase17()
    ensures Lower("Mother") == "mother"
  {
  }

  lemma LowerCase18()
    ensures Lower("Bố") == "bố"
  {
  }

  lemma LowerCase19()
    ensures Lower("Ba ơi") == "ba ơi"
  {
  }

  lemma LowerCase20()
    ensures Lower("Dad") == "dad"
  {
  }

  lemma LowerCase21()
    ensures Lower("Sếp") == "sếp"
  {
  }

  lemma LowerCase22()
    ensures Lower("Boss") == "boss"
  {
  }

  lemma LowerCase23()
    ensures Lower("Manager") == "manager"
  {
  }

  lemma LowerCase24()
    ensures Lower("Bạn thân") == "bạn thân"
  {
  }

  lemma LowerCase25()
    ensures Lower("Unknown person") == "unknown person"
  {
  }

  lemma LowerCase26()
    ensures Lower("Me oi") == "me oi"
  {
  }

  datatype Pronouns = Pronouns(selfReference: seq<string>, addressOther: seq<string>, forbidden: seq<string>)

  /** `getCorrectPronouns`: a fixed table per role. */
  function GetCorrectPronouns(role: Role): (p: Pronouns)
    ensures role == Mother ==> "mẹ" in p.selfReference && "con" in p.addressOther && "Dạ" in p.forbidden
    ensures role == Father ==> "bố" in p.selfReference
    ensures role == Boss ==> "sếp" in p.selfReference
    ensures role == Friend <==> p.forbidden == []
  {
    match role
    case Mother => Pronouns(["mẹ", "mẹ đây"], ["con", "con ơi", "con à"], ["Dạ", "con biết", "con nhớ mẹ"])
    case Father => Pronouns(["bố", "bố đây", "ba"], ["con", "con ơi"], ["Dạ bố", "con biết rồi ạ"])
    case Boss => Pronouns(["sếp", "tôi", "anh/chị"], ["em", "bạn"], ["Dạ sếp", "em biết rồi ạ"])
    case Friend => Pronouns(["tôi", "mình"], ["bạn", "cậu"], [])
  }
}
