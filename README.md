# aimi-chat core, modelled in Dafny

aimi-chat is an AI companion chat app: the user chats with characters, a
relationship engine turns each message's emotional impact into affection
points, intimacy levels and relationship stages, and a simulated phone
screen lets contacts (parents, bosses, services) text the user. This
project models the core of that app and proves properties of the model:

- the relationship engine (`lib/relationship.ts`), the level tables
  (`lib/relationship-levels.ts`), the per-level point ranges
  (`lib/affection-calculator.ts`) and the affection update with its sticky
  phone unlock (`lib/relationship/update-affection-helper.ts`);
- text handling: the narrative tokenizer for `[scene]`, `*action*`,
  `(thought)` and `{user}`/`{char}`, the toolbar's wrap of a text
  selection, the JSON-boundary extraction for model output, `{key}`
  interpolation, model labels, placeholder substitution, the
  trivial-message classifier and the word count;
- validators and classifiers: the pronoun validator, the age/gender
  validator, responsive breakpoints, chat-theme resolution and database
  schema selection;
- LLM routing as control logic: candidate providers, fallback chains and
  their bounded attempt loops, and the rewriting of message lists for the
  Zhipu and Gemini providers, with every provider call an oracle that
  answers with a reply or a failure;
- the post-processing and cooldown rules of the chat endpoint and of the
  phone's AI reply endpoint.

Each source file is one module (`common.dfy` holds the string and
sequence helpers they share). Code that updates state step by step is
modelled by methods with loops and frames, proved against specification
functions. Entities whose fields change become classes. The local
storage, the client cache and the database tables a route writes are
examples. Pure code is modelled by functions. Database reads, `fetch`,
`JSON.parse`, the clock, `Math.random` and the process environment are
parameters.

## Model

| member | source | states |
|---|---|---|
| Common.ExpandReplacement | lib/narrative/parser.ts:146-147 | a replacement text without `$` is inserted as it is; `$$`, `$&`, `` $` `` and `$'` stand for a dollar, the match, and the text before and after the match |
| Common.PatternAtIff | lib/narrative/parser.ts:146-147 | the character-by-character match test agrees with the occurrence predicates, with ASCII case folding under the `i` flag |
| Common.ReplaceWholeMatch | lib/narrative/parser.ts:146-147 | a text that is the pattern (in any case under the `i` flag) becomes the expanded replacement |
| Common.ReplaceAbsent | lib/narrative/parser.ts:146-147 | a text without the pattern comes back unchanged |
| Common.ReplaceByMatchKeeps | lib/narrative/parser.ts:146-147 | replacing every match by `$&` gives the text back |
| Common.ReplaceMatchesScan | lib/narrative/parser.ts:146-147 | for a replacement without `$`, the leftmost, non-overlapping global replacement equals the independent scan that replaces a match and resumes after it |
| Common.ReplaceFrom | lib/narrative/parser.ts:146-147 | for a replacement without `$`, what the global replacement does from a position on is the replacement of the text from there |
| Common.ReplaceLeadingMatch | lib/narrative/parser.ts:146-147 | a leading occurrence becomes the replacement (without `$`) and the rest of the text is replaced on its own |
| Common.ReplaceAfterNonMatch | lib/narrative/parser.ts:146-147 | a leading character where no occurrence starts is kept and the rest of the text is replaced on its own |
| Common.ReplacePlainPrefix | lib/narrative/parser.ts:146-147 | a prefix of which no character can start an occurrence is kept and the rest of the text is replaced on its own |
| Common.CharTagSurvivesUserPass | lib/narrative/parser.ts:146-147 | the `{user}` pass keeps a leading `{char}` tag, in any case, and replaces the rest on its own |
| Common.CharUnits | lib/relationship.ts:113 | a character is one code unit in the Basic Multilingual Plane, where it is not a surrogate, and otherwise a high and a low surrogate from which it is recovered |
| Common.Utf16Units | lib/relationship.ts:112-113 | as many code units as the JavaScript length of the text |
| Common.Utf16UnitsAppend | lib/relationship.ts:112-113 | the code units of a concatenation are those of its parts in order |
| Common.Utf16UnitsInBmp | lib/relationship.ts:112-113 | in the Basic Multilingual Plane the code units are the characters' code points |
| Relationship.CalcIntimacyLevel | lib/relationship.ts:70-79 | the level is 0..4, 0 for negative points, and a level k > 0 exactly when the points reach the k-th stage minimum (11, 101, 1001, 3001) and stay below the next one |
| Relationship.CalcAgreesWithGetIntimacyLevel | lib/relationship.ts:70-79 | on every whole number the level equals the level of the threshold table (`getIntimacyLevel`) |
| Relationship.CalcDisagreesOnFractions | lib/relationship.ts:70-79 | a fractional total such as 10.5 is level 0 here, although it lies above the table's band 0 |
| Relationship.StageIndex | lib/relationship.ts:92-95 | a stage of the order maps to its own position; any other name (BROKEN, UNDEFINED) maps to 0 |
| Relationship.StageForPoints | lib/relationship.ts:97-103 | the natural stage is the highest stage whose minimum is at most the points, and the points lie below the next minimum |
| Relationship.NaturalStageMonotone | lib/relationship.ts:97-103 | more points never give an earlier natural stage |
| Relationship.RecoveryMultiplier | lib/relationship.ts:36-43 | every stage's recovery factor lies in [0.5, 1.5]; a stage not in the table gets 0.5 |
| Relationship.Round | lib/relationship.ts:348 | `Math.round` lies within half a unit of its argument, halves going up |
| Relationship.RoundMonotoneBounds | lib/relationship.ts:348 | rounding keeps an integer bound on either side |
| Relationship.ToInt32 | lib/relationship.ts:115 | `hash & hash` yields a signed 32-bit integer |
| Relationship.ToInt32Shift | lib/relationship.ts:115 | adding a multiple of 2^32 does not change the wrapped value |
| Relationship.HashStepIsMultiplyAdd | lib/relationship.ts:114-115 | one round `((hash << 5) - hash) + code` then `& hash` is 31 * hash + code wrapped to 32 bits |
| Relationship.HashCodesIsWrappedPolynomial | lib/relationship.ts:112-116 | folding the shift-subtract-add round over any codes gives their base-31 polynomial wrapped to 32 signed bits |
| Relationship.HashIsWrappedPolynomial | lib/relationship.ts:110-118 | the hash of a string is the base-31 polynomial of its `charCodeAt` codes, its UTF-16 code units, wrapped to 32 signed bits |
| Relationship.AstralCharHashesSurrogates | lib/relationship.ts:112-117 | a character beyond the Basic Multilingual Plane is hashed as its two surrogates: `😀` hashes to `1b0d63` |
| Relationship.SimpleHash | lib/relationship.ts:110-118 | the loop over the UTF-16 code units ends with the hexadecimal text of that hash value, signed |
| Relationship.DecayForGap | lib/relationship.ts:174-202 | a gap of 24 hours or more clears the apology count and scales momentum by 0.9 (0.7 from 72 hours); the sign never flips and momentum never grows |
| Relationship.DampApologySpam | lib/relationship.ts:207-219 | an apology raises the count by one and, from the third on, keeps 30% of a positive impact; anything else lowers the count by one, floored at 0; the impact keeps its sign and never grows |
| Relationship.ApologyInAnyCase | lib/relationship.ts:105-108 | the apology test ignores case: a message holding any spelling whose lower case is one of the keywords is an apology |
| Relationship.ShoutedSorryIsApology | lib/relationship.ts:105-108 | "SORRY!" is an apology |
| Relationship.ApplyMomentum | lib/relationship.ts:224-234 | new momentum is 0.7 old + 0.3 half-impact clamped to [-1, 1]; a positive impact against negative momentum is damped to at least 30%, otherwise kept |
| Relationship.ScaleAndAccrueDebt | lib/relationship.ts:239-262 | positive impact is scaled by the stage factor, negative kept; debt grows by 1.5 times a loss, is repaid by 60% of a gain floored at 0, and is unchanged at 0 impact |
| Relationship.ProgressStage | lib/relationship.ts:278-327 | BROKEN at -10 or less; UNDEFINED and a running cooldown keep the stage; otherwise one step up when every promotion gate holds, one step down past the margin, else unchanged; `changed` iff the stage differs |
| Relationship.ComputeUpdate | lib/relationship.ts:161-372 | (as AffectionUpdate, DebtUpdate, StageUpdate, PersistedUpdate) points in [-100, 5000] moving with the sign of the impact, level of the unrounded points, broken iff points <= -10, count + 1, momentum in [-1, 1], debt never negative, the apology count, the stage rule, previousStage only on change, and the row persisted with lastStageChangeAt written only on change |
| Relationship.StageMovesAtMostOneStep | lib/relationship.ts:296-325 | a promotion or demotion moves exactly one position in the order |
| Relationship.GatesExclusive | lib/relationship.ts:298-325 | promotion and demotion gates never hold together |
| Relationship.PromotionKeepsMargin | lib/relationship.ts:299-309 | a promoted stage is entered with its rounded points at least the hysteresis margin above its threshold |
| Relationship.RelationshipStore.UpdateRelationshipStats | lib/relationship.ts:147-373 | a missing row fails with the source's message and changes nothing; otherwise only that row changes, and the new row and the returned result, against the old row, meet the whole one-message update contract (affection, debt and apologies, stage rule, persisted row) |
| RelationshipLevels.GetIntimacyLevel | lib/relationship-levels.ts:41-47 | the level is 0..4, every total up to 10 (negatives included) is level 0, and a level's band holds the points |
| RelationshipLevels.BandsContiguous | lib/relationship-levels.ts:27-33 | each band's max + 1 is the next band's min, and every band is non-empty |
| RelationshipLevels.LevelMatchesBand | lib/relationship-levels.ts:41-47 | every total inside band k gets level k |
| RelationshipLevels.LevelMonotone | lib/relationship-levels.ts:41-47 | more points never give a lower level |
| RelationshipLevels.NamesRoundTrip | lib/relationship-levels.ts:3-17 | `LEVEL_NAMES[k]` is the name that `INTIMACY_LEVELS` maps to k |
| RelationshipLevels.IsBroken | lib/relationship-levels.ts:53-55 | a broken total is at level 0 and below the rescue threshold |
| RelationshipLevels.ShouldTriggerRescue | lib/relationship-levels.ts:59-61 | a rescue total is not broken, is within five points of broken and is at level 0 |
| RelationshipLevels.RescueExcludesBroken | lib/relationship-levels.ts:52-61 | rescue and broken never hold together, and one of them holds exactly at or below -5 |
| AffectionCalculator.GetPointsRange | lib/affection-calculator.ts:15-48 | min <= max at every level; NEUTRAL gives exactly {0, 0}; POSITIVE ranges are positive and NEGATIVE ranges negative |
| AffectionCalculator.OtherLevelsUseTopRange | lib/affection-calculator.ts:44-47 | every level other than 0..3 gets the COMMITTED range |
| AffectionCalculator.NegativeMirrorsPositive | lib/affection-calculator.ts:18-46 | at each level the NEGATIVE range is the POSITIVE range negated, {-max, -min} |
| AffectionCalculator.PositiveRangeGrows | lib/affection-calculator.ts:18-45 | the POSITIVE min and max never decrease from level 0 to level 4 |
| AffectionCalculator.CalculatePointsDelta | lib/affection-calculator.ts:54-61 | for any draw in [0, 1) the delta is an integer of the range; a one-point range returns its min |
| AffectionCalculator.EveryDeltaReachable | lib/affection-calculator.ts:54-61 | every integer of the range is the delta of some draw |
| UpdateAffectionHelper.NextAffection | lib/relationship/update-affection-helper.ts:104-122 | new points are the stored points plus a delta of the stored level's range, with no clamping; the level is `getIntimacyLevel` of them; BROKEN iff <= -10, else the stored stage (or STRANGER); unlocked iff already unlocked or >= 101; just unlocked iff not before and >= 101 |
| UpdateAffectionHelper.UnlockIsSticky | lib/relationship/update-affection-helper.ts:116-131 | once unlocked, the phone stays unlocked through any run of updates |
| UpdateAffectionHelper.JustUnlockedAtMostOnce | lib/relationship/update-affection-helper.ts:118-122 | "just unlocked" is reported at most once in any run, and never when the phone was already unlocked |
| UpdateAffectionHelper.AffectionTable.UpdateAffection | lib/relationship/update-affection-helper.ts:35-170 | a missing row is created with 0 points, level 0, STRANGER and the phone locked; a fetch or insert error returns the failure result and leaves the table as it was; an insert that hands back no row fails with "Failed to retrieve relationship data", the new row kept; an update error returns the previous points, level, stage and lock with no fresh unlock; success stores and returns the new state |
| NarrativeParser.NextChar | lib/narrative/parser.ts:44 | the position found holds the character and lies at or after the start: where a greedy `[^c]+` run stops |
| NarrativeParser.NextCharFirst | lib/narrative/parser.ts:44 | no earlier position after the start holds the character, and none at all when nothing is found |
| NarrativeParser.Enclosed | lib/narrative/parser.ts:44 | an `open [^close]+ close` match starts with the opener, ends with the closer and is at least three characters long |
| NarrativeParser.EnclosedIff | lib/narrative/parser.ts:44 | the single-delimiter alternatives match exactly when a non-closer follows the opener and a closer comes later |
| NarrativeParser.EnclosedNoCloser | lib/narrative/parser.ts:44 | the content of such a match holds no closer |
| NarrativeParser.DoubleEnclosed | lib/narrative/parser.ts:44 | a `**[^*]+**` match opens and closes with two stars around at least one character |
| NarrativeParser.DoubleEnclosedNoStar | lib/narrative/parser.ts:44 | the content between the double stars holds no star |
| NarrativeParser.MatchAt | lib/narrative/parser.ts:44 | a match of the combined pattern at a position is at least three characters long and ends inside the text |
| NarrativeParser.FindMatch | lib/narrative/parser.ts:49 | `exec` from `lastIndex` finds a position where the pattern matches |
| NarrativeParser.FindMatchLeftmost | lib/narrative/parser.ts:49 | the match found is the leftmost one, and none is found exactly when the pattern matches nowhere after `lastIndex` |
| NarrativeParser.BlankIsTrimEmpty | lib/narrative/parser.ts:53 | a gap is dropped exactly when its `trim()` is empty, i.e. it is all whitespace |
| NarrativeParser.ScanStep | lib/narrative/parser.ts:49-107 | one round of the loop emits the gap before the leftmost match, then the match's token, then scans on from the match's end |
| NarrativeParser.PushToken | lib/narrative/parser.ts:54-103 | the token is appended and the recorded types stay those of the tokens so far |
| NarrativeParser.PushMatch | lib/narrative/parser.ts:50-106 | the loop body keeps the invariant: tokens so far plus the scan from the new `lastIndex` equal the tokens before plus the scan from the old one, and `lastIndex` strictly grows |
| NarrativeParser.ParseNarrativeContent | lib/narrative/parser.ts:29-135 | the `exec` loop returns exactly the scan, with the trailing text and the one-dialogue-token fallback |
| NarrativeParser.EnclosedShape | lib/narrative/parser.ts:64-101 | a marker's raw text is its delimiters around its content |
| NarrativeParser.MarkerTokenWellFormed | lib/narrative/parser.ts:62-104 | each marker token is typed by the first alternative that matched, with its delimiters stripped as content: narrator `[..]`, action `**..**` or `*..*`, thought `(..)`, placeholder `{user}`/`{char}` |
| NarrativeParser.ScanWellFormed | lib/narrative/parser.ts:50-119 | every dialogue token of the scan is non-blank plain text, and every marker token is well formed |
| NarrativeParser.ScanHasMarkerIffMatch | lib/narrative/parser.ts:49-107 | the scan emits a marker token exactly when the pattern matches somewhere |
| NarrativeParser.TypesOfFacts | lib/narrative/parser.ts:39 | the recorded types are distinct, never dialogue, and exactly the kinds of the marker tokens |
| NarrativeParser.ParseFacts | lib/narrative/parser.ts:30-134 | at least one token; the empty text gives one empty dialogue token; a text without tokens becomes one dialogue token holding it all; hasNarrative iff some token is not dialogue; the types are distinct |
| NarrativeParser.ParseTokensWellFormed | lib/narrative/parser.ts:50-119 | when the scan emitted tokens, all of them are well formed |
| NarrativeParser.RemoveSpacesAppend | lib/narrative/parser.ts:50-119 | removing whitespace distributes over concatenation |
| NarrativeParser.ConcatRawAppend | lib/narrative/parser.ts:50-119 | the raw texts of two token lists concatenate |
| NarrativeParser.GapRaw | lib/narrative/parser.ts:51-59 | a gap's tokens reproduce the gap up to whitespace |
| NarrativeParser.ScanReproducesInput | lib/narrative/parser.ts:50-119 | concatenating the raw texts of the scanned tokens in order gives back the input, apart from the dropped whitespace-only gaps |
| NarrativeParser.MatchIsSyntax | lib/narrative/parser.ts:178-181 | a match of the parser's pattern is a match of the syntax test at the same place, or one further on for `**` |
| NarrativeParser.NarrativeImpliesSyntax | lib/narrative/parser.ts:178-181 | whenever the parse reports narrative, `hasNarrativeSyntax` is true |
| NarrativeParser.MatchImpliesNarrative | lib/narrative/parser.ts:44-104 | any match of the parser's pattern makes the parse report narrative |
| NarrativeParser.UpperCasePlaceholderIsOnlySyntax | lib/narrative/parser.ts:180 | `{USER}` passes the case-insensitive syntax test yet is parsed as dialogue |
| NarrativeParser.ReplaceNarrativePlaceholders | lib/narrative/parser.ts:140-149 | the empty text is returned as is |
| NarrativeParser.ReplaceNarrativeByScan | lib/narrative/parser.ts:145-148 | for names without `$`, the result is the case-insensitive scan for `{user}` followed by the one for `{char}` |
| NarrativeParser.ReplaceWithoutPlaceholders | lib/narrative/parser.ts:145-148 | a text with no `{user}` or `{char}` in any case comes back unchanged |
| NarrativeParser.ReplaceAfterPlainText | lib/narrative/parser.ts:146-148 | for names without `$`, a leading text without `{` is kept and the rest is replaced on its own |
| NarrativeParser.ReplaceAtUserTag | lib/narrative/parser.ts:146-148 | for names without `$` and a user name without `{`, a leading `{user}` in any case becomes the user's name and the rest is replaced on its own |
| NarrativeParser.ReplaceAtCharTag | lib/narrative/parser.ts:146-148 | for names without `$`, a leading `{char}` in any case becomes the character's name and the rest is replaced on its own |
| NarrativeParser.UserReplacedBeforeChar | lib/narrative/parser.ts:146-148 | `{user}` is replaced case-insensitively first, so a user name `{char}` is replaced in turn by the character's name |
| NarrativeParser.UserNameOfMatchPattern | lib/narrative/parser.ts:146-148 | a user name `$&` puts every user placeholder back as written; only the character placeholders change |
| NarrativeParser.UserNameOfEscapedDollar | lib/narrative/parser.ts:146-148 | a user name `$$` turns a user placeholder into a single `$` |
| NarrativeParser.FirstContentIsFirst | lib/narrative/parser.ts:163-165 | `find` returns the first token of the kind, and nothing only when there is none |
| NarrativeParser.ContentsAppend | lib/narrative/parser.ts:164-168 | `filter` then `map` keeps the selected contents in token order |
| NarrativeParser.ExtractNarrativeContext | lib/narrative/parser.ts:155-173 | a reported scene or thought is the first such token's content and never empty; an empty first content is reported as absent |
| NarrativeParser.ExtractSceneAndThought | lib/narrative/parser.ts:161-163 | a scene (a thought) is reported exactly when some narrator (thought) token exists, and it is the first one's content |
| NarrativeParser.ExtractPlainText | lib/narrative/parser.ts:155-173 | a text without markup gives no scene, actions or thoughts, and the trimmed text as dialogue |
| ParseToolbar.Placeholder | components/ParseToolbar.tsx:86-93 | the placeholder is six characters and is a placeholder the narrative parser reads |
| ParseToolbar.HandleWrap | components/ParseToolbar.tsx:58-118 | the prefix before `start` and the suffix after `end` are kept verbatim; the cursor lies between them; wraps add 2 characters and placeholders change the length by 6 - (end - start) |
| ParseToolbar.HandleWrapSplices | components/ParseToolbar.tsx:64-117 | the new text is the prefix, the inserted markers and the suffix, in that order |
| ParseToolbar.WrapSurroundsSelection | components/ParseToolbar.tsx:71-85 | with a selection, bracket, action and thought give opener + selection + closer and put the cursor at start + length + 2, right after the closer |
| ParseToolbar.EmptyWrapCursorBetweenMarkers | components/ParseToolbar.tsx:97-108 | without a selection an empty marker pair is inserted and the cursor sits between the markers at start + 1 |
| ParseToolbar.PlaceholderReplacesSelection | components/ParseToolbar.tsx:86-93 | `{user}` and `{char}` replace the selection, empty or not, and put the cursor at start + 6 |
| ParseToolbar.WrapInterior | components/ParseToolbar.tsx:75-84 | between the inserted markers stand exactly the selected characters |
| ParseToolbar.WrapIsParsedAsMarker | components/ParseToolbar.tsx:75-84 | a wrapped selection free of the closer (and, for an action, of stars) is one narrative-parser match ending at the new cursor |
| ParseToolbar.PlaceholderIsParsedAsMarker | components/ParseToolbar.tsx:86-117 | an inserted placeholder is one six-character parser match |
| ParseToolbar.MayDismiss | components/ParseToolbar.tsx:44-50 | Escape closes the menu iff the input holds more than whitespace |
| PronounValidator.RoleErrors | lib/phone/pronoun-validator.ts:31-82 | a normalised reply has no error exactly when it breaks no rule of its role, and at most four |
| PronounValidator.RoleErrorsMessages | lib/phone/pronoun-validator.ts:31-82 | each rule contributes its own message exactly when the reply breaks it, never twice |
| PronounValidator.RoleWarnings | lib/phone/pronoun-validator.ts:50-53 | a warning is given only to a mother's reply that lacks "mẹ", "con ơi", "con à" and "ừ con" |
| PronounValidator.Outcome | lib/phone/pronoun-validator.ts:84-89 | valid iff there are no errors iff no rule is broken; the fallback is set iff there are errors and is then the role's fallback; warnings play no part |
| PronounValidator.PushIf | lib/phone/pronoun-validator.ts:34-79 | a rule's message is pushed exactly when its condition holds |
| PronounValidator.MotherRules | lib/phone/pronoun-validator.ts:32-56 | the mother's checks, in order, push exactly the mother's errors and warnings |
| PronounValidator.SuperiorRules | lib/phone/pronoun-validator.ts:59-82 | the father's or boss's checks push exactly that role's errors |
| PronounValidator.ValidateAIResponse | lib/phone/pronoun-validator.ts:21-90 | the pushing implementation returns the outcome of the lower-cased, trimmed reply |
| PronounValidator.FriendIsNeverChecked | lib/phone/pronoun-validator.ts:21-90 | a friend's reply is always valid with no warnings and no fallback |
| PronounValidator.ParentsRefuseDa | lib/phone/pronoun-validator.ts:34-73 | for mother, father and boss a reply opening with "dạ" and a space, full stop or comma is refused with the role's fallback |
| PronounValidator.FallbacksUseOwnPronoun | lib/phone/pronoun-validator.ts:55-81 | the mother's fallback contains "mẹ", the father's "bố" and the boss's "sếp" |
| PronounValidator.NormalizedAs | lib/phone/pronoun-validator.ts:29 | a reply whose lower-cased form has no surrounding whitespace normalises to that form |
| PronounValidator.ValidWhenNoRuleBroken | lib/phone/pronoun-validator.ts:84-89 | a reply breaking no rule passes with no errors and no fallback |
| PronounValidator.GoodMotherReply | lib/phone/pronoun-validator.ts:32-49 | a mother's reply that does not open with "d" and holds none of the forbidden phrases is valid |
| PronounValidator.WarningKeepsReplyValid | lib/phone/pronoun-validator.ts:50-53 | "Ăn cơm chưa" is valid for a mother although it carries the missing-vocabulary warning |
| PronounValidator.GoodMotherReplyValid1 | tests/phone-pronoun-validation.test.ts:45-58 | "Ừ con, mẹ biết rồi" is valid with no errors |
| PronounValidator.GoodMotherReplyValid2 | tests/phone-pronoun-validation.test.ts:45-58 | "Con ơi, mẹ nhớ con quá" is valid with no errors |
| PronounValidator.GoodMotherReplyValid3 | tests/phone-pronoun-validation.test.ts:45-58 | "Mẹ nấu cơm chờ con đây" is valid with no errors |
| PronounValidator.GoodMotherReplyValid4 | tests/phone-pronoun-validation.test.ts:45-58 | "Con về chưa? Mẹ lo lắm" is valid with no errors |
| PronounValidator.MotherDaReply | lib/phone/pronoun-validator.ts:34-36 | a mother's reply opening with "dạ" and a separator is refused with the "Dạ" error and the mother's fallback |
| PronounValidator.MotherDaErrorNamesDa | lib/phone/pronoun-validator.ts:35 | the error message contains "Dạ" |
| PronounValidator.MotherDaRefused1 | tests/phone-pronoun-validation.test.ts:60-72 | "Dạ. Con nhớ ăn nha" is refused with the "Dạ" error |
| PronounValidator.MotherDaRefused2 | tests/phone-pronoun-validation.test.ts:80-85 | "Dạ mẹ ơi" is refused with the "Dạ" error and the mother's fallback |
| PronounValidator.MotherDaRefused3 | tests/phone-pronoun-validation.test.ts:60-72 | "Dạ, con biết rồi ạ" is refused with the "Dạ" error |
| PronounValidator.MotherKnowsReply | lib/phone/pronoun-validator.ts:38-40 | a mother's reply holding "con biết rồi" is refused with the error quoting it |
| PronounValidator.MotherKnowsErrorNamesPhrase | lib/phone/pronoun-validator.ts:39 | that error message contains "con biết rồi" |
| PronounValidator.MotherKnowsRefused | tests/phone-pronoun-validation.test.ts:74-78 | "con biết rồi mẹ ạ" is refused with that error |
| PronounValidator.SuperiorReply | lib/phone/pronoun-validator.ts:59-82 | a father's or boss's reply opening with "dạ" and the title is refused with the role's fallback |
| PronounValidator.FatherDaRefused1 | tests/phone-pronoun-validation.test.ts:89-92 | "Dạ bố ơi" is refused for a father |
| PronounValidator.FatherDaRefused2 | tests/phone-pronoun-validation.test.ts:94-98 | "Dạ bố" is refused with the father's fallback |
| PronounValidator.BossDaRefused1 | tests/phone-pronoun-validation.test.ts:102-105 | "Dạ sếp ạ" is refused for a boss |
| PronounValidator.BossDaRefused2 | tests/phone-pronoun-validation.test.ts:107-110 | "Dạ sếp" is refused with the boss's fallback |
| PronounValidator.DetectRole | lib/phone/pronoun-validator.ts:95-109 | mother iff the lower-cased name holds a mother key; father iff no mother key and a father key; boss likewise after both; friend otherwise |
| PronounValidator.DetectedAs | lib/phone/pronoun-validator.ts:95-109 | the detected role follows from which keys the lower-cased name holds |
| PronounValidator.DetectsMother1 | tests/phone-pronoun-validation.test.ts:16 | "Mẹ yêu 💕" is a mother |
| PronounValidator.DetectsMother2 | tests/phone-pronoun-validation.test.ts:17 | "Mẹ" is a mother |
| PronounValidator.DetectsMother3 | tests/phone-pronoun-validation.test.ts:22 | "Mom" is a mother |
| PronounValidator.DetectsMother4 | tests/phone-pronoun-validation.test.ts:23 | "Mother" is a mother |
| PronounValidator.DetectsFather1 | tests/phone-pronoun-validation.test.ts:27 | "Bố" is a father |
| PronounValidator.DetectsFather2 | tests/phone-pronoun-validation.test.ts:28 | "Ba ơi" is a father |
| PronounValidator.DetectsFather3 | tests/phone-pronoun-validation.test.ts:29 | "Dad" is a father |
| PronounValidator.DetectsBoss1 | tests/phone-pronoun-validation.test.ts:33 | "Sếp" is a boss |
| PronounValidator.DetectsBoss2 | tests/phone-pronoun-validation.test.ts:34 | "Boss" is a boss |
| PronounValidator.DetectsBoss3 | tests/phone-pronoun-validation.test.ts:35 | "Manager" is a boss |
| PronounValidator.DefaultsToFriend1 | tests/phone-pronoun-validation.test.ts:39 | "Bạn thân" is a friend |
| PronounValidator.DefaultsToFriend2 | tests/phone-pronoun-validation.test.ts:40 | "Unknown person" is a friend |
| PronounValidator.UnaccentedMeIsFriend | lib/phone/pronoun-validator.ts:95-109 | "Me oi" holds no key and is a friend, although the test suite expects a mother |
| PronounValidator.GetCorrectPronouns | lib/phone/pronoun-validator.ts:114-145 | the mother's table has "mẹ", "con" and "Dạ", the father's "bố", the boss's "sếp", and only the friend forbids nothing |
| JsonParser.SpaceRunIsMaximal | lib/llm/json-parser.ts:32-33 | the `\s*` run is maximal: all whitespace, and followed by the end or a non-space |
| JsonParser.WordRunIsMaximal | lib/llm/json-parser.ts:125 | the `\w+` run is maximal: all word characters, and followed by the end or a non-word character |
| JsonParser.StripFences | lib/llm/json-parser.ts:32-33 | a fence pass never lengthens the text |
| JsonParser.NoFenceLeft | lib/llm/json-parser.ts:32-33 | after the first pass no three backticks are left anywhere |
| JsonParser.StripFencesIdentity | lib/llm/json-parser.ts:33 | so the second pass, on a text without fences, changes nothing |
| JsonParser.StripFencesSkipsPlain | lib/llm/json-parser.ts:32-33 | text without backticks passes a fence pass unchanged |
| JsonParser.StripPrefix | lib/llm/json-parser.ts:42-44 | a prefix pattern removes only a leading match with the whitespace after it, leaves a text it does not match unchanged, and the rest is a suffix of the text |
| JsonParser.NoPatternMatches | lib/llm/json-parser.ts:36-41 | none of the four prefix patterns matches a text opening with a non-letter |
| JsonParser.NoPrefixBeforeNonLetter | lib/llm/json-parser.ts:36-44 | a text opening with a brace or bracket loses no prefix |
| JsonParser.LabelSkipsArticle | lib/llm/json-parser.ts:38 | the optional `The ` of the label pattern is absent before a non-letter |
| JsonParser.FirstOpener | lib/llm/json-parser.ts:49-78 | the position of the earlier of the first `{` and the first `[`, with no opener before it, and none when neither occurs |
| JsonParser.NoOpenerKeepsText | lib/llm/json-parser.ts:56-58 | without a brace or bracket the text is returned as it is, untrimmed |
| JsonParser.SliceFromOpenerToLastCloser | lib/llm/json-parser.ts:80-86 | the result runs from the first opener to the last matching closer after it, inclusive |
| JsonParser.NoCloserAfterOpener | lib/llm/json-parser.ts:81-86 | with no matching closer after the opener only the trim applies |
| JsonParser.TrimmedWhenOpener | lib/llm/json-parser.ts:86 | once an opener exists the result has no surrounding whitespace |
| JsonParser.UntrimmedWithoutOpener | lib/llm/json-parser.ts:29-58 | `42 ` followed by a fence comes back as "42 ": the early return is not trimmed again |
| JsonParser.FenceAroundBody | lib/llm/json-parser.ts:32-33 | a fenced, json-tagged body loses its fence, its tag and the line break after the tag |
| JsonParser.UnwrapFenced | lib/llm/json-parser.ts:29-44 | steps 1 and 2 turn a fenced object into the object and a line break |
| JsonParser.FencedObjectIsExtracted | lib/llm/json-parser.ts:28-87 | a fenced object, the usual shape of an LLM reply, comes out as the bare object |
| JsonParser.StripPrefixPatterns | lib/llm/json-parser.ts:36-44 | the loop over the patterns equals removing all four in order |
| JsonParser.FindOpener | lib/llm/json-parser.ts:49-78 | the two-`indexOf` case analysis finds exactly the first opener and its partner closer |
| JsonParser.FindBoundaries | lib/llm/json-parser.ts:46-86 | the boundary step equals the span from the first opener to its last closer |
| JsonParser.CleanJsonString | lib/llm/json-parser.ts:28-87 | the successive reassignments compute the cleaned text |
| JsonParser.KeyMatch | lib/llm/json-parser.ts:125 | a match of the bare-key pattern has its key span non-empty and inside the text |
| JsonParser.DropTrailingCommasOnlyDeletes | lib/llm/json-parser.ts:123 | the comma repair only deletes commas and whitespace, keeping every other character in order |
| JsonParser.QuoteKeysOnlyInserts | lib/llm/json-parser.ts:125 | the key repair only inserts double quotes: deleting them gives the input back |
| JsonParser.RepairIdentity | lib/llm/json-parser.ts:121-125 | a text with no comma and no `{` is unchanged by the repairs |
| JsonParser.QuotesBareKey | lib/llm/json-parser.ts:125 | `{a:1}` becomes `{"a":1}` |
| JsonParser.DropsTrailingComma | lib/llm/json-parser.ts:123 | `[1,]` becomes `[1]` |
| JsonParser.ParseJsonSafe | lib/llm/json-parser.ts:95-153 | empty input fails with the fallback and the input error; otherwise success iff the cleaned or the repaired text parses, the cleaned text winning, with the text that parsed recorded; failure keeps the fallback |
| JsonParser.ParseJsonArray | lib/llm/json-parser.ts:159-165 | the items of a parsed array and `[]` on failure or any other value |
| JsonParser.ParseJsonObject | lib/llm/json-parser.ts:171-177 | the parsed value only when it is an object, else the fallback |
| PhoneContentGenerator.TrivialIff | lib/llm/phone-content-generator.ts:57-76 | a message is trivial exactly when its normalised text is under five code units, or under ten with no letter: the phrase list never decides anything |
| PhoneContentGenerator.LongIsMeaningful | lib/llm/phone-content-generator.ts:64-75 | a normalised text of ten code units or more is never trivial |
| PhoneContentGenerator.AstralNormalizes | lib/llm/phone-content-generator.ts:64-70 | an emoji-only text is its own normalisation and holds no letter |
| PhoneContentGenerator.EmojiOnlyTrivialIff | lib/llm/phone-content-generator.ts:64-70 | an emoji-only message is trivial iff it has at most four emoji, since each counts two code units |
| PhoneContentGenerator.FilterMeaningful | lib/llm/phone-content-generator.ts:81-83 | keeps exactly the messages that are not trivial, each taken from the input |
| PhoneContentGenerator.Recent | lib/llm/phone-content-generator.ts:90 | the last thirty messages, or all when there are fewer |
| PhoneContentGenerator.BuildConversationContext | lib/llm/phone-content-generator.ts:89-102 | the context is the fixed no-conversation text exactly when none of the last thirty messages is meaningful |
| PhoneContentGenerator.ContextOnlyLastThirty | lib/llm/phone-content-generator.ts:89-101 | messages before the last thirty never change the context |
| PhoneContentGenerator.ContextOfTrivialTalk | lib/llm/phone-content-generator.ts:93-95 | when the last thirty messages are all trivial the context is the fixed placeholder sentence |
| PhoneContentGenerator.ContextIgnoresTrivial | lib/llm/phone-content-generator.ts:81-101 | appending a trivial message to a conversation under thirty messages leaves the context unchanged |
| PhoneContentGenerator.ContextLines | lib/llm/phone-content-generator.ts:97-101 | with single-line texts, the context has one line per meaningful recent message in order, `speaker: content`, the user's messages under the user's name and all others under the character's |
| PhoneContentGenerator.JoinedLinesSplit | lib/llm/phone-content-generator.ts:101 | the newline join of single-line lines splits back into the same lines |
| PhoneContentGenerator.ShouldGenerateIff | lib/llm/phone-content-generator.ts:341-352 | generation is allowed iff at least five messages are meaningful; the three-message check is implied |
| PhoneContentGenerator.FiveLongMessagesGenerate | lib/llm/phone-content-generator.ts:341-352 | five messages of ten code units or more allow generation |
| PhoneContentGenerator.ReplaceInString | lib/llm/phone-content-generator.ts:108-114 | the empty text is returned as is |
| PhoneContentGenerator.ReplaceInStringByScan | lib/llm/phone-content-generator.ts:110-113 | for names without `$`, the result is the case-insensitive scans for `{user}` and `{char}` followed by the case-sensitive scan for `User` |
| PhoneContentGenerator.ReplaceAfterPlainText | lib/llm/phone-content-generator.ts:110-113 | for names without `$`, a leading text without `{` or `U` is kept and the rest is replaced on its own |
| PhoneContentGenerator.ReplaceAtUserTag | lib/llm/phone-content-generator.ts:110-113 | for names without `$` and a user name without `{` or `U`, a leading `{user}` in any case becomes the user's name and the rest is replaced on its own |
| PhoneContentGenerator.ReplaceAtCharTag | lib/llm/phone-content-generator.ts:110-113 | for names without `$` and a character name without `U`, a leading `{char}` in any case becomes the character's name and the rest is replaced on its own |
| PhoneContentGenerator.ReplaceAtUserWord | lib/llm/phone-content-generator.ts:110-113 | for names without `$`, a leading `User` in ordinary text becomes the user's name too, and the rest is replaced on its own |
| PhoneContentGenerator.ReplaceKeepsPlainText | lib/llm/phone-content-generator.ts:108-114 | a text without `{user}`, `{char}` or `User` is left unchanged |
| PhoneContentGenerator.ReplaceUserTag | lib/llm/phone-content-generator.ts:111 | a `{user}` tag in any case becomes the user's name with its `$` patterns expanded against the tag (the name itself when it has no `$`), when that expansion has no placeholder left |
| PhoneContentGenerator.ReplaceCharTag | lib/llm/phone-content-generator.ts:112 | a `{char}` tag in any case becomes the character's name with its `$` patterns expanded against the tag (the name itself when it has no `$`), when that expansion has no placeholder left |
| PhoneContentGenerator.UserNameOfMatchPattern | lib/llm/phone-content-generator.ts:110-113 | a user name `$&` puts every `{user}` and `User` back as written; only the character placeholders change |
| PhoneContentGenerator.UserNameOfEscapedDollar | lib/llm/phone-content-generator.ts:111 | a user name `$$` turns a `{user}` tag into a single `$` |
| PhoneContentGenerator.ReplaceNamePlaceholders | lib/llm/phone-content-generator.ts:107-140 | all four lists are present afterwards, missing ones empty, each as long as the input's; each entry is the input's entry at the same position with its texts rewritten by `replaceInString`; the generation time is kept |
| PhoneContentGenerator.ReplaceKeepsTheRest | lib/llm/phone-content-generator.ts:116-138 | only the texts are rewritten: kinds, durations, flags, categories, dates, times and timestamps are kept, and every event gets a description |
| PhoneContentGenerator.ReplaceKeepsPlainContent | lib/llm/phone-content-generator.ts:107-140 | complete content without any placeholder comes back unchanged |
| ModelSelector.SplitCountsWords | lib/llm/model-selector.ts:120 | splitting on whitespace runs and dropping empty pieces leaves one piece per word start |
| ModelSelector.TrimKeepsWordStarts | lib/llm/model-selector.ts:130 | trimming first changes no word count |
| ModelSelector.GetWordCount | lib/llm/model-selector.ts:129-131 | the word count is the number of maximal runs of non-whitespace characters |
| ModelSelector.NoWordsIffBlank | lib/llm/model-selector.ts:129-131 | the count is zero exactly for a blank message |
| ModelSelector.DetectMessageCategory | lib/llm/model-selector.ts:118-124 | long iff the word count reaches the threshold of 100 |
| ModelSelector.LongIffHundredWords | lib/llm/model-selector.ts:113-124 | long iff the message has at least a hundred runs of non-whitespace characters |
| ModelSelector.BuiltInListsSorted | lib/llm/model-selector.ts:25-110 | both lists hold four models with priorities 1 to 4 in order |
| ModelSelector.SortByPriority | lib/llm/model-selector.ts:139 | the array ends sorted by priority, a permutation of what it held, and unchanged when it was already sorted |
| ModelSelector.InsertLast | lib/llm/model-selector.ts:139 | one insertion step extends the sorted prefix by one, permuting the array |
| ModelSelector.SwapWithPrevious | lib/llm/model-selector.ts:139 | exchanges two neighbours and nothing else |
| ModelSelector.ModelLists.constructor | lib/llm/model-selector.ts:25-110 | the module's two arrays hold the declared lists |
| ModelSelector.ModelLists.SelectModelConfig | lib/llm/model-selector.ts:136-140 | hands out the category's own array, sorted in place as a permutation, leaving the other list untouched |
| ModelSelector.ModelLists.SelectModelForMessage | lib/llm/model-selector.ts:145-157 | the forced category wins over detection, the word count is the message's own, and the category's list is sorted in place |
| ModelSelector.SelectInstruction | lib/llm/model-selector.ts:163-239 | the instruction keeps the category and is English exactly for the code `en`, Vietnamese by default |
| ModelSelector.GetNarrativeInstruction | lib/llm/model-selector.ts:163-239 | the category's English text exactly for the code `en`, its Vietnamese text for every other code |
| ModelSelector.InstructionsDiffer | lib/llm/model-selector.ts:163-239 | the English and Vietnamese texts of a category differ |
| ModelSelector.GetRecommendedMaxTokens | lib/llm/model-selector.ts:244-246 | the budget is the category's first-priority model's, and no model of that category has less |
| ModelSelector.GetRecommendedTemperature | lib/llm/model-selector.ts:251-254 | between 0.7 and 0.8, and warmer exactly for long-form |
| Router.RetriableStatus | lib/llm/router.ts:11-14 | a status of 429 or 503 makes an error retriable whatever its message |
| Router.ResponseStatusWins | lib/llm/router.ts:13 | a truthy response status hides the error's own status: a 500 response with status 429 is not retriable |
| Router.ZeroStatusFallsThrough | lib/llm/router.ts:13 | a status of 0 counts as missing, so the error code decides |
| Router.RetriableKeyword | lib/llm/router.ts:17-21 | any of the eight keywords anywhere in the message, in any case, makes the error retriable |
| Router.FilterValidProviders | lib/llm/router.ts:29-31 | keeps exactly the valid providers of the list |
| Router.Dedup | lib/llm/router.ts:134 | the same members without repeats, the first element first |
| Router.DedupKeepsDistinct | lib/llm/router.ts:134 | a list without repeats is left as it is |
| Router.FirstCandidate | lib/llm/router.ts:99-120 | always a valid provider, and the preferred one whenever it is valid and not `default` |
| Router.GetCandidateProviders | lib/llm/router.ts:99-135 | the pushing implementation returns the candidate list |
| Router.AtMostTwoValid | lib/llm/router.ts:6 | a repeat-free list of valid providers has at most two entries |
| Router.ThreeValidRepeat | lib/llm/router.ts:6 | three valid providers always repeat one |
| Router.CandidatesShape | lib/llm/router.ts:40-43 | the candidates are never empty, so the no-provider error cannot be thrown; they start with the first candidate, are valid, distinct, at most two, and only that one without fallback |
| Router.StopIndex | lib/llm/router.ts:49-81 | the first attempt that does not move on to the next candidate, if any |
| Router.MovedOnBeforeStop | lib/llm/router.ts:61-80 | every attempt before the stop failed in a way that moves on |
| Router.AggregatedMessage | lib/llm/router.ts:85-90 | a truthy response body decides the message, else a truthy error message, else the fixed Vietnamese text; a value that is not a string gives the fixed English text |
| Router.TryCandidates | lib/llm/router.ts:46-96 | the first success answers with its provider and model; a failure is rethrown unless fallback is on and it is retriable; when all fail the aggregated error has the fixed code, the last error and every candidate in order |
| Router.NoFallbackStopsFirst | lib/llm/router.ts:66-69 | without fallback only the first candidate is called |
| Router.RepliedAfterRetriableFailures | lib/llm/router.ts:61-80 | a reply from a later candidate means every earlier one failed retriably with fallback on |
| Router.GenerateWithProviders | lib/llm/router.ts:33-97 | over the candidates of the provider (default when none is given): the first candidate that does not move on decides, its reply answering with that provider and model and its failure rethrown; when every candidate fails retriably the aggregated error has the fixed code, the aggregated message of the last error and lists exactly the candidates, each once |
| Fallback.FilterByKeysKeepsUsable | lib/llm/fallback.ts:81-91 | the filter keeps exactly the models whose provider has a key, unknown providers included, in order |
| Fallback.UnknownProviderPasses | lib/llm/fallback.ts:89 | a provider outside the six known ones always passes |
| Fallback.AllKeysKeepChain | lib/llm/fallback.ts:81-91 | with every key of a chain set the chain is kept whole |
| Fallback.GeminiFlashModel | lib/llm/fallback.ts:44-47 | the Gemini flash model is never empty: `GOOGLE_MODEL_3` when set to a non-empty name, the stable `gemini-2.5-flash` when unset or empty |
| Fallback.MoreKeysKeepProviders | lib/llm/fallback.ts:49-91 | setting more API keys never rules out a provider |
| Fallback.NoKeysOnlyUnknownProviders | lib/llm/fallback.ts:49-91 | with no key set, or every key empty, exactly the providers outside the six known ones pass the key test |
| Fallback.GeminiEitherKey | lib/llm/fallback.ts:50 | Gemini passes the key test exactly when `GEMINI_API_KEY` or `GOOGLE_GENERATIVE_AI_API_KEY` is non-empty |
| Fallback.ChainsLeadWithTheirProvider | lib/llm/fallback.ts:94-117 | each named chain starts with its own provider's model, `google` with Gemini and `siliconflow` and `default` with SiliconFlow |
| Fallback.GetFallbackChains | lib/llm/fallback.ts:59-130 | the table has exactly the nine chain names, each mapped to its chain filtered by key availability |
| Fallback.FilteredChains | lib/llm/fallback.ts:59-130 | the filtered table always has a default chain |
| Fallback.FilteredChainsAgree | lib/llm/fallback.ts:119-129 | the table the loop builds is that value |
| Fallback.ChainLookup | lib/llm/fallback.ts:182-183 | the lookup takes the lower-cased provider's chain when it is a table key and the default chain otherwise; an empty chain is used as it is |
| Fallback.BuildAttemptChain | lib/llm/fallback.ts:170-188 | the loop builds the attempt chain |
| Fallback.PrimaryComesFirstOnce | lib/llm/fallback.ts:173-188 | with a preferred model the chain starts with it, no later entry repeats that pair, and every other fallback follows |
| Fallback.NoPrimaryKeepsChain | lib/llm/fallback.ts:173-188 | without a preferred model the attempt chain is the fallback chain |
| Fallback.FirstSuccess | lib/llm/fallback.ts:191-244 | the first attempt below the bound that succeeds, or the bound |
| Fallback.FailedBeforeFirstSuccess | lib/llm/fallback.ts:218-243 | every attempt before it failed |
| Fallback.TryChain | lib/llm/fallback.ts:190-247 | the first success among the first two entries answers with its attempt number, fallback used iff it is not the first; otherwise the last failure throws the aggregated error listing every attempt; an empty chain gives the exhaustion error |
| Fallback.AllFailedListsAttempts | lib/llm/fallback.ts:224-237 | each record is that attempt's own provider, model and error text, and is listed as provider/model |
| Fallback.GenerateWithFallback | lib/llm/fallback.ts:156-248 | over the attempt chain of the provider, the preferred model and the filtered chain table: an empty chain is the exhaustion error; else the first success among the first two attempts answers with that attempt's reply, provider, model and number, fallback used iff it is not the first; else the aggregated error with its fixed code and message lists every attempt and the providers tried; a preferred model rules out exhaustion |
| Fallback.LatestUserIsLast | lib/llm/fallback.ts:274-275 | the latest user text is the last user message's content, or empty when there is none |
| Fallback.InjectInstruction | lib/llm/fallback.ts:288-301 | a leading system message gets a blank line and the instruction appended; otherwise a system message with the instruction is put first; the other messages are kept in order |
| Fallback.InstructionEndsSystemPrompt | lib/llm/fallback.ts:288-301 | either way the first message ends with the instruction |
| Fallback.SmartFilterKeepsUsable | lib/llm/fallback.ts:304-311 | the smart filter keeps exactly the usable models, with no `deepseek` case |
| Fallback.LongFormNeedsKeys | lib/llm/fallback.ts:304-315 | without SiliconFlow and Gemini keys only the Moonshot long-form model can remain |
| Fallback.SmartFirstSuccess | lib/llm/fallback.ts:320-366 | the first attempt below the bound that succeeds, or the bound |
| Fallback.SmartFailedBeforeFirstSuccess | lib/llm/fallback.ts:350-365 | every attempt before it failed |
| Fallback.TrySmartModels | lib/llm/fallback.ts:317-376 | the first success among the first two models answers with the plan's category, word count and budget; otherwise the error names the category and lists every attempt |
| Fallback.GenerateWithSmartFallback | lib/llm/fallback.ts:263-377 | the category and word count of the latest user message, its token budget, the injected instruction and the usable models decide; no usable model is an error before any attempt; answers iff one of the first two succeeds, with that attempt's reply, provider and model, else the error lists every attempt; the chosen list is left sorted by priority as a permutation of itself and the other list untouched |
| Zhipu.NewProvider | lib/llm/providers/zhipu.ts:23-27 | the key is empty exactly when its variable is unset or empty; the base URL and the default model always have a value, the configured one when set |
| Zhipu.FirstSystemIndex | lib/llm/providers/zhipu.ts:95 | the index of the first system message, or the length when there is none |
| Zhipu.InjectLanguageRules | lib/llm/providers/zhipu.ts:85-112 | the in-place update of the copied list gives the messages with the rules injected |
| Zhipu.RulesJoinFirstSystem | lib/llm/providers/zhipu.ts:97-102 | with a system message only the first one changes: a newline and the rules are appended, and nothing else moves |
| Zhipu.RulesPrependedWithoutSystem | lib/llm/providers/zhipu.ts:103-109 | without one a system message holding the rules comes first, the messages following in order |
| Zhipu.RulesReachSystemPrompt | lib/llm/providers/zhipu.ts:85-112 | either way some system message contains the rules |
| Zhipu.ReadResponse | lib/llm/providers/zhipu.ts:58-67 | a failed status is an error; otherwise the first choice's content, or empty when it is missing |
| Zhipu.GenerateResponse | lib/llm/providers/zhipu.ts:29-72 | a missing key fails before any request; otherwise one request with the requested or default model and the injected messages, whose answer or error is the result |
| Gemini.Separate | lib/llm/providers/gemini.ts:20-30 | the loop gives the separated instruction and conversation |
| Gemini.FirstSystemWithText | lib/llm/providers/gemini.ts:25 | the first system message with text, which ends the search, or the length |
| Gemini.AnySystemIff | lib/llm/providers/gemini.ts:25 | holds iff some message is a system message |
| Gemini.InstructionShapeHolds | lib/llm/providers/gemini.ts:21-30 | the instruction is the text of the first system message with text; without one it is empty when a system message exists and null otherwise |
| Gemini.ConversationShapeHolds | lib/llm/providers/gemini.ts:21-30 | the conversation is the non-system messages before that message and every message after it, later system messages included |
| Gemini.FirstSystemBecomesInstruction | lib/llm/providers/gemini.ts:21-30 | when the first system message has text it alone becomes the instruction and every other message stays in order |
| Gemini.InstructionSentIffSystemText | lib/llm/providers/gemini.ts:48-53 | the request carries an instruction exactly when some system message has text |
| Gemini.EmptySystemMessagesDropped | lib/llm/providers/gemini.ts:24-30 | when no system message has text, all of them are dropped and the instruction, empty or null, is not sent |
| Gemini.ContentsOf | lib/llm/providers/gemini.ts:32-45 | one content per conversation message with its role and text, or the fixed Vietnamese user message when the conversation is empty |
| Gemini.RolesMapToGemini | lib/llm/providers/gemini.ts:33 | assistant turns become `model`, every other turn `user` |
| Gemini.PartTexts | lib/llm/providers/gemini.ts:72 | one text per part |
| Gemini.ReplyText | lib/llm/providers/gemini.ts:70-75 | the reply is trimmed, and empty without parts |
| Gemini.SinglePartReply | lib/llm/providers/gemini.ts:70-75 | a single part comes back trimmed |
| Gemini.ReadResponse | lib/llm/providers/gemini.ts:64-75 | the answer succeeds exactly when the status is ok |
| Gemini.CallGemini | lib/llm/providers/gemini.ts:5-76 | a missing key, then an empty list, fail before any request; otherwise one request to the model's URL with the contents and the instruction when it has text, whose answer or error is the result |
| GooglePresets.FormatPart | lib/llm/google-presets.ts:80-85 | a part keeps its length and every character after the first; the first is kept when it is a digit and upper-cased otherwise (one character for one, see Left out) |
| GooglePresets.FormatParts | lib/llm/google-presets.ts:80-85 | each part is formatted in place |
| GooglePresets.FormatModelLabel | lib/llm/google-presets.ts:77-87 | the label has the id's length; each hyphen becomes a space, each part's first non-digit character is upper-cased, all else is kept |
| GooglePresets.PartCountPreserved | lib/llm/google-presets.ts:77-87 | for an id without spaces the label splits on spaces into exactly the formatted hyphen parts |
| GooglePresets.GetGooglePresets | lib/llm/google-presets.ts:23-71 | the loop over variables 1 to 20 gives the preset list |
| GooglePresets.EnvPresetsFollowVariables | lib/llm/google-presets.ts:27-41 | one preset per set variable, in the order of their numbers, built from that variable |
| GooglePresets.SetVariablesAscending | lib/llm/google-presets.ts:27-41 | the set variables are listed ascending, and all of them |
| GooglePresets.DefaultsIffNoVariable | lib/llm/google-presets.ts:43-70 | the built-in list exactly when no variable is set, else the non-empty environment list |
| GooglePresets.EnvPresetsEmptyIff | lib/llm/google-presets.ts:25-44 | the environment list is empty iff no variable up to the bound is set |
| GooglePresets.StarIffRecommended | lib/llm/google-presets.ts:32-38 | recommended iff the id is one of the three starred ids, and then the label starts with the star; the star marks exactly the recommended ones unless the id itself starts with a star |
| GooglePresets.DefaultsStarIffRecommended | lib/llm/google-presets.ts:51-70 | the built-in presets follow the same rule |
| PromptBuilder.GetPronouns | lib/prompt/builder.ts:18-48 | the character's gender alone picks the pair (male: anh/em, female: em/anh, otherwise mình/bạn with no suffix); the " yêu" suffix appears exactly from intimacy level 3 |
| PromptBuilder.FormatScene | lib/prompt/builder.ts:536-552 | a scene other than a phone check is its bare description |
| PromptBuilder.PhoneCheckEmbedsNickname | lib/prompt/builder.ts:538-548 | a phone check opens by naming the user's nickname, then quotes the description |
| PromptBuilder.DaysAgo | lib/prompt/builder.ts:562-567 | the smallest whole number of days covering the absolute distance between the two instants |
| PromptBuilder.RelationshipLines | lib/prompt/builder.ts:234-272 | the status line first, then one line for a start date and one for non-empty notes |
| PromptBuilder.UserLines | lib/prompt/builder.ts:275-308 | name and nickname lines always, one more for a gender and one for a non-zero age |
| PromptBuilder.OptionalSections | lib/prompt/builder.ts:424-439 | the memory section exactly when there are memories and first, the scene section exactly when a scene is given and last |
| PromptBuilder.LeadingShape | lib/prompt/builder.ts:92-422 | eleven sections open every message, the opening and the scoring rule first, neither of them a memory or scene section |
| PromptBuilder.ClosingShape | lib/prompt/builder.ts:441-531 | four sections close it, the sentiment scoring and the final reminder last |
| PromptBuilder.BuildSystemMessage | lib/prompt/builder.ts:80-534 | the pushed sections joined by blank lines are the system message |
| PromptBuilder.Conversation | lib/prompt/builder.ts:55-58 | one message per stored message, same role and text, in order |
| PromptBuilder.BuildChatPrompt | lib/prompt/builder.ts:50-78 | the system message for the requested language, Vietnamese by default, then the stored conversation |
| PromptBuilder.SectionOrder | lib/prompt/builder.ts:80-534 | fifteen fixed sections plus the optional ones; the memory section sits at position 11 exactly when there are memories, the scene section right after it exactly when a scene is given |
| PromptBuilder.PromptFrame | lib/prompt/builder.ts:80-534 | the message opens with the opening and the scoring rule and ends with the final reminder, each separated by a blank line |
| PromptBuilder.JoinSnoc | lib/prompt/builder.ts:533 | a join splits off its last part as it does its first |
| PromptBuilder.JoinFrame | lib/prompt/builder.ts:533 | a join of four or more parts shows its first two and its last |
| I18n.SavedLanguage | lib/i18n/LanguageContext.tsx:29-30 | a saved language exists exactly when the stored value is `en` or `vi`, and it is the language of that code |
| I18n.StoredLanguageReadsBack | lib/i18n/LanguageContext.tsx:37-40 | storing a language and reading it back gives the same language |
| I18n.LanguageProvider.constructor | lib/i18n/LanguageContext.tsx:24-25 | the state starts in English, not yet loaded |
| I18n.LanguageProvider.LoadSavedLanguage | lib/i18n/LanguageContext.tsx:28-34 | a valid saved language is adopted, anything else keeps the language; the provider is loaded afterwards and storage is unchanged |
| I18n.LanguageProvider.SetLang | lib/i18n/LanguageContext.tsx:37-40 | the language changes and its code is stored under the key, so it reads back |
| I18n.MountProvider | lib/i18n/LanguageContext.tsx:23-34 | a freshly mounted provider shows the saved language when it is valid and English otherwise |
| I18n.WordRun | lib/i18n/LanguageContext.tsx:77 | the maximal run of word characters at a position |
| I18n.PlaceholderAt | lib/i18n/LanguageContext.tsx:77 | a recognised key is a run of word characters standing in braces at the start |
| I18n.PlaceholderRecognised | lib/i18n/LanguageContext.tsx:77 | every `{key}` with a word-character key is recognised where it stands |
| I18n.KnownKeyReplaced | lib/i18n/LanguageContext.tsx:76-78 | a known key is replaced by its value, which is not scanned again |
| I18n.UnknownKeyKept | lib/i18n/LanguageContext.tsx:76-78 | an unknown key leaves its placeholder as it was |
| I18n.PlainTextKept | lib/i18n/LanguageContext.tsx:76-78 | text without an opening brace is copied unchanged |
| I18n.Interpolate | lib/i18n/LanguageContext.tsx:76-78 | a template without an opening brace comes back unchanged |
| I18n.EmptyValuesIdentity | lib/i18n/LanguageContext.tsx:76-78 | with no values the template comes back unchanged |
| ChatThemes.ThemeIdsMatchKeys | lib/ui/chatThemes.ts:53-240 | the table holds the four themes, each under its own id, and the default id is midnight's |
| ChatThemes.GetThemeById | lib/ui/chatThemes.ts:251-253 | the theme stored under a known id, and midnight for a missing or unknown one; always a theme of the table |
| ChatThemes.GetResolvedTheme | lib/ui/chatThemes.ts:259-297 | the theme is spread unchanged and the user-bubble and danger texts always keep the theme's colour |
| ChatThemes.LightModeForcesWhite | lib/ui/chatThemes.ts:280-283 | in light mode all six overridable texts are white |
| ChatThemes.DarkModeForcesSlate | lib/ui/chatThemes.ts:280-283 | in dark mode all six are slate-900 |
| ChatThemes.OtherModesKeepDefaults | lib/ui/chatThemes.ts:273-295 | any other, missing or empty mode keeps the theme's colours, the header following the theme's darkness |
| ChatThemes.AutoHeaderFollowsDarkness | lib/ui/chatThemes.ts:288 | in auto mode the header is white exactly for a dark theme |
| ChatThemes.SakuraIsTheLightTheme | lib/ui/chatThemes.ts:146-190 | sakura is the only theme that is not dark |
| Responsive.GetBreakpoint | lib/responsive.ts:28-32 | mobile up to 767, tablet above that up to 1023, desktop above 1023, each exactly on its range |
| Responsive.ExactlyOneBreakpoint | lib/responsive.ts:37-53 | for a whole number of pixels the three predicates agree with the breakpoint and exactly one holds |
| Responsive.FractionalWidthInTheGap | lib/responsive.ts:28-53 | a width of 1023.5 is a desktop breakpoint yet none of the three predicates holds |
| Responsive.DeviceRanges | lib/responsive.ts:58-64 | Realme 10 up to 390, iPhone 14 up to 393, Realme 10 again up to 767, then tablet and desktop; never the iPhone 14 Pro |
| Responsive.GetDeviceFromWidth | lib/responsive.ts:58-64 | the device is a phone exactly on the mobile breakpoint, the tablet and desktop devices exactly on theirs |
| Responsive.GridColumnsGrowWithWidth | lib/responsive.ts:82-86 | a wider viewport never shows fewer grid columns |
| Responsive.ResponsiveValue | lib/responsive.ts:121-128 | the value for the breakpoint, falling back to the next smaller breakpoint that has one |
| Responsive.ResponsiveValueIsGiven | lib/responsive.ts:121-128 | the value is one of those given, and the mobile value when it is the only one |
| AgeGenderValidator.ValidateAgeOrGender | lib/validation/age-gender-validator.ts:13-28 | valid iff a non-empty gender or any age is given; otherwise the error names the entity |
| AgeGenderValidator.MissingErrorNamesEntity | lib/validation/age-gender-validator.ts:24-27 | the error message ends with `Character` or `User` |
| AgeGenderValidator.AgeZeroIsPresent | lib/validation/age-gender-validator.ts:19 | an age of 0 counts as given |
| AgeGenderValidator.ValidateAgeRange | lib/validation/age-gender-validator.ts:35-60 | valid iff no age or an age from 18 to 99; below 18 and above 99 each get their own message, and the two messages differ |
| AgeGenderValidator.InRangeAgeSatisfiesPresence | lib/validation/age-gender-validator.ts:13-60 | an age passing the range check also passes the presence check |
| Prisma.GetSchemaForRole | lib/prisma.ts:46-61 | production always gets `public`; elsewhere the schema is `dev` exactly for the dev role; only these two schemas occur |
| Prisma.AddSchemaToUrl | lib/prisma.ts:35-38 | the url is kept as a prefix, followed by one separator and `schema=<name>`; the separator is `?` exactly when the url had no `?` |
| Prisma.FirstSchemaParam | lib/prisma.ts:29 | the leftmost position where the schema-parameter pattern matches, and no match before it |
| Prisma.ValueEnd | lib/prisma.ts:29 | the greedy `[^&]+` run ends at the next `&` or at the end of the url |
| Prisma.DropTrailingSeparator | lib/prisma.ts:29 | the result is the url or the url less one character, and it is shorter exactly when the url ended in `?` or `&` |
| Prisma.GetBaseUrl | lib/prisma.ts:22-30 | fails with the missing-url message exactly when `DATABASE_URL` is missing or empty; otherwise both replacements are applied |
| Prisma.NoParamUnchanged | lib/prisma.ts:29 | a url without a schema parameter passes the first replacement unchanged |
| Prisma.RemovesLeftmostParam | lib/prisma.ts:29 | the first replacement keeps the separator of the leftmost parameter, drops `schema=` with its non-empty value and the `&` after it, and keeps the rest |
| Prisma.BaseUrlOfSchemaUrl | lib/prisma.ts:22-38 | reading the base url back from a url the schema was just added to gives the original url (for a url with no schema parameter that does not end in a separator) |
| Prisma.ValueEndOfTail | lib/prisma.ts:29 | a value with no `&` runs to the end of the url |
| Prisma.GetLegacySchema | lib/prisma.ts:109-124 | in production, fails exactly when a schema other than `public` is set, and otherwise gives `public`; elsewhere `APP_SCHEMA` or `dev` |
| Prisma.LoadLegacy | lib/prisma.ts:130-135 | loading changes only `DATABASE_URL` |
| Prisma.ProductionLoadsPublic | lib/prisma.ts:113-135 | a successful load in production points `DATABASE_URL` at the public schema |
| Prisma.LoadedUrlKeepsBase | lib/prisma.ts:130-135 | after loading, the base url read by later clients equals the one read during the load |
| Prisma.ClientCache.constructor | lib/prisma.ts:17 | the cache starts empty |
| Prisma.ClientCache.GetPrismaForSchema | lib/prisma.ts:67-93 | a cached client is returned unchanged; otherwise a new client for the base url plus the schema is cached and returned, or the base-url error is returned with the cache untouched; each schema gets at most one client |
| Prisma.ClientCache.GetPrismaForRole | lib/prisma.ts:99-102 | a client it returns is the one cached for the role's schema |
| ChatRoute.RequestGuard | app/api/chat/route.ts:16-48 | the request goes on exactly when the user is signed in, both fields are given and the relationship and the character exist; a guest gets 403, a missing field 400, a missing row 404 |
| ChatRoute.GetContextLimits | app/api/chat/route.ts:66-82 | Gemini/Google get the high tier, the five standard providers the middle tier, anything else the default tier; memories are always fewer than history messages |
| ChatRoute.ContextLimitsIgnoreCase | app/api/chat/route.ts:68 | two provider names equal up to ASCII case get the same limits |
| ChatRoute.TiersAreOrdered | app/api/chat/route.ts:66-82 | history stays between 30 and 100 and memories between 10 and 30, and the 100-message tier is exactly the 30-memory tier |
| ChatRoute.EffectiveProvider | app/api/chat/route.ts:85-87 | the character's own provider unless it is missing, empty or `default`, then `LLM_DEFAULT_PROVIDER` or `silicon`; never empty |
| ChatRoute.PreferredModel | app/api/chat/route.ts:124-128 | the character's own model unless it is missing, empty or `default`, then `LLM_DEFAULT_MODEL` if set; a chosen model is never empty |
| ChatRoute.Quote | app/api/chat/route.ts:144 | a message of at most 200 characters is quoted whole; a longer one is cut to its first 200 with `...`; a quote is never longer than 203 |
| ChatRoute.ReplyContext | app/api/chat/route.ts:143-145 | the context line names the user's nickname or the character as author, by who wrote the quoted message, and closes the quote |
| ChatRoute.WithGoal | app/api/chat/route.ts:155-162 | a goal with non-blank text is placed, trimmed, in a block in front of the turn, which follows it unchanged; a blank goal changes nothing |
| ChatRoute.WithDirection | app/api/chat/route.ts:165-171 | a direction with non-blank text is appended, trimmed, behind the header and the unchanged turn, which is a prefix of the result; a blank or missing one leaves the turn as it is |
| ChatRoute.UserContent | app/api/chat/route.ts:132-171 | the turn is the goal block (when the goal has text), then the reply-or-scene content, then the direction block (when the direction has text), each part present exactly when its field has text |
| ChatRoute.ReplyReplacesScene | app/api/chat/route.ts:132-147 | with a reply target found, the turn is the context line and the user's message, whatever the scene |
| ChatRoute.PlainTurn | app/api/chat/route.ts:132-134 | with nothing added, the turn is the scene description when a scene is set, else the message |
| ChatRoute.PromptMessages | app/api/chat/route.ts:173-188 | the built prompt comes first and unchanged, then the user's turn, then for English only the reminder as the last message |
| ChatRoute.ParsedOutcome | app/api/chat/route.ts:219-262 | the impact always lies in [-2, 2] and the reaction is one of NONE, LIKE, HEARTBEAT; with no metadata the outcome is neutral; with metadata the impact is its number clamped to [-2, 2] (kept as is inside that range, 0 without one), the reaction its upper-cased form when accepted (else NONE), and the reason its non-empty reason (else empty) |
| ChatRoute.DevForced | app/api/chat/route.ts:267-272 | outside production an accepted forced reaction overrides the one parsed, with impact 2 for a heartbeat and 1 otherwise; otherwise nothing changes |
| ChatRoute.StageChecked | app/api/chat/route.ts:274-279 | in the stranger, acquaintance and undefined stages a heartbeat becomes a like; impact, reason and every other reaction are kept |
| ChatRoute.StoredReaction | app/api/chat/route.ts:305 | the reaction is stored with the user's message exactly when it is not NONE |
| ChatRoute.ReadMetadata | app/api/chat/route.ts:219-262 | the defaults and the parsed fields end equal to the parsed outcome |
| ChatRoute.ProcessReply | app/api/chat/route.ts:219-292 | the route's post-processing gives the reply of the reference definition: parsed, forced, stage-checked, and an error for an empty text |
| ChatRoute.ReplyBounds | app/api/chat/route.ts:247-305 | every answered reply has scaled impact in [-6, 6] and a valid reaction, stored exactly when it is not NONE |
| ChatRoute.NoEarlyHeartbeat | app/api/chat/route.ts:267-279 | no early stage gets a heartbeat, even a forced one |
| ChatRoute.EmptyReplyFails | app/api/chat/route.ts:281-292 | the reply fails with `LLM_EMPTY_REPLY` exactly when the stripped text is empty, and otherwise answers with that text |
| ChatRoute.NeutralWithoutMetadata | app/api/chat/route.ts:219-262 | without metadata and without a forced reaction an answered reply has impact 0 and no reaction |
| ChatRoute.TrivialIsShort | app/api/chat/route.ts:345-346 | a message is trivial exactly when its trimmed text is under five UTF-16 units: the phrase list decides nothing on its own |
| ChatRoute.ShortPhraseFits | app/api/chat/route.ts:346 | every listed short phrase has at most four characters, all in the Basic Multilingual Plane |
| ChatRoute.LowerCharKeepsPlane | app/api/chat/route.ts:346 | case-folding a character never moves it out of or into the Basic Multilingual Plane |
| ChatRoute.PhoneCounterStep | app/api/chat/route.ts:341-389 | the count is written, one above the stored count, exactly when auto-update is on and the message is not trivial; a refresh fires exactly when the new count reaches the frequency (20 by default) and five minutes have passed or there was no refresh |
| ChatRoute.TrivialNeverCounts | app/api/chat/route.ts:345-350 | a trivial message neither moves the counter nor triggers a refresh |
| ChatRoute.ErrorAnswer | app/api/chat/route.ts:409-436 | status 401 exactly for an authentication error; 503 naming the providers tried when all failed; 500 otherwise |
| GenerateAiReply.LastImpactBefore | app/api/phone/generate-ai-reply/route.ts:64 | the last `"impact"` (any ASCII case) ending by the given position, with none after it, or none at all |
| GenerateAiReply.FirstOpenBefore | app/api/phone/generate-ai-reply/route.ts:64 | the first `{` before the given position, with none before it, or none at all |
| GenerateAiReply.DeepMatch | app/api/phone/generate-ai-reply/route.ts:64 | a match is a non-empty span inside the text |
| GenerateAiReply.DeepMatchShape | app/api/phone/generate-ai-reply/route.ts:64 | a match runs from a `{` with no `{` before it to the text's last `}` and holds an `"impact"` between them; no match means no `{`, `"impact"`, `}` stand in that order |
| GenerateAiReply.BlockAfterReplyFound | app/api/phone/generate-ai-reply/route.ts:64-81 | when the text opens its first `{` at a position, ends in `}` and holds an `"impact"` in between, the match runs from that position to the end |
| GenerateAiReply.RemoveTrailingCommas | app/api/phone/generate-ai-reply/route.ts:67 | removing trailing commas never lengthens the text |
| GenerateAiReply.NoCommaUnchanged | app/api/phone/generate-ai-reply/route.ts:67 | a text with no comma is left unchanged |
| GenerateAiReply.TrailingCommaDropped | app/api/phone/generate-ai-reply/route.ts:67 | a comma followed by only whitespace and then `}` is replaced, with that whitespace, by the `}`, and the repair goes on after it |
| GenerateAiReply.CommaKept | app/api/phone/generate-ai-reply/route.ts:67 | a comma whose whitespace run ends the text or is followed by anything but `}` is kept, and the repair goes on right after it |
| GenerateAiReply.OtherCharacterKept | app/api/phone/generate-ai-reply/route.ts:67 | any character other than a comma is kept, and the repair goes on after it |
| GenerateAiReply.CommaFreePrefixKept | app/api/phone/generate-ai-reply/route.ts:67 | a prefix without commas comes through unchanged, followed by the repair of the rest |
| GenerateAiReply.RemoveTrailingCommasKeepsTheRest | app/api/phone/generate-ai-reply/route.ts:67 | the repair removes only commas and whitespace: every other character is kept, in order |
| GenerateAiReply.TrailingCommaRepaired | app/api/phone/generate-ai-reply/route.ts:67 | `{"impact": 1, }` becomes `{"impact": 1}` |
| GenerateAiReply.SentimentOf | app/api/phone/generate-ai-reply/route.ts:54-93 | the impact always lies in [-5, 5]; without a match the text is returned unchanged with impact 0 and reaction NONE |
| GenerateAiReply.ParseAIResponseWithSentiment | app/api/phone/generate-ai-reply/route.ts:54-93 | the route's parser gives exactly the reference result |
| GenerateAiReply.ReplyWithBlockParsed | app/api/phone/generate-ai-reply/route.ts:54-93 | a reply followed by a block that parses keeps only the reply, trimmed and without fences; the impact is the block's clamped impact or 0 without one, the reaction the block's reaction upper-cased or NONE when empty or missing |
| GenerateAiReply.ParsedAround | app/api/phone/generate-ai-reply/route.ts:64-92 | whatever the match, a block that parses leaves the text around it, trimmed and without fences, and gives the block's clamped impact and upper-cased reaction |
| GenerateAiReply.UnparsedBlockIsNeutral | app/api/phone/generate-ai-reply/route.ts:64-92 | a matched block that does not parse leaves the text unchanged, with impact 0 and reaction NONE |
| GenerateAiReply.NoBraceIsNeutral | app/api/phone/generate-ai-reply/route.ts:64-92 | a text without `}` comes back unchanged with impact 0 and reaction NONE |
| GenerateAiReply.MapImpactToSentiment | app/api/phone/generate-ai-reply/route.ts:95-99 | positive, negative or neutral exactly by the sign of the impact |
| GenerateAiReply.ServiceOf | app/api/phone/generate-ai-reply/route.ts:150-179 | one iff per template in the route's order: bank exactly when the name mentions `ngân hàng` or `bank`; Shopee, Lazada, Grab, MoMo, ZaloPay each exactly when the name mentions it and none of the earlier ones; the generic template exactly when it mentions no notification key |
| GenerateAiReply.NotificationInAnyCase | app/api/phone/generate-ai-reply/route.ts:134-141 | the notification test ignores case: a name holding any spelling whose lower case is one of the seven keys passes it |
| GenerateAiReply.NotificationIffService | app/api/phone/generate-ai-reply/route.ts:134-179 | a contact passes the notification test exactly when its name selects a service's own template |
| GenerateAiReply.BankBrandGetsBankTemplate | app/api/phone/generate-ai-reply/route.ts:134-153 | "Vietcombank" passes the notification test and, with no language given, gets the Vietnamese bank template |
| GenerateAiReply.Preview | app/api/phone/generate-ai-reply/route.ts:196 | the preview is the first 50 characters of the reply, or all of it when shorter |
| GenerateAiReply.AutoReplyFor | app/api/phone/generate-ai-reply/route.ts:118-210 | a notification contact's answer is the template of the service its lower-cased name selects, in Vietnamese unless the language is given and is not `vi`; it is neutral (impact 0, reaction NONE) and its preview is the start of the template |
| GenerateAiReply.MissingLanguageIsVietnamese | app/api/phone/generate-ai-reply/route.ts:118-178 | a request without a language is answered exactly as one with `vi` |
| GenerateAiReply.TemplatesNameTheirService | app/api/phone/generate-ai-reply/route.ts:150-179 | templates of different services differ, in any languages: each opens with its own service's emoji |
| GenerateAiReply.NotificationHasService | app/api/phone/generate-ai-reply/route.ts:136-179 | a name that passes the notification test always gets a service's own template, never the generic one |
| GenerateAiReply.BankWins | app/api/phone/generate-ai-reply/route.ts:150-153 | a name mentioning a bank gets the bank template, whatever other service it also names |
| GenerateAiReply.CooldownMs | app/api/phone/generate-ai-reply/route.ts:227-229 | ten seconds in dev mode, two hours otherwise |
| GenerateAiReply.ReplyGate | app/api/phone/generate-ai-reply/route.ts:131-380 | the route's answers in its order, one iff each: the auto-reply exactly for a notification contact; the missing-id error exactly for a non-notification request without an id; not-found exactly when the early checks pass and no conversation is found; the out-of-chat cooldown exactly when they pass and a reply was generated within a cooldown outside the chat window, unforced, with positive time left; no messages exactly when past those with an empty history; not needed exactly when the newest message is the contact's inside the chat window; a generated reply only past all of them, with messages; any self-continuation answer has status 200 and positive time left |
| GenerateAiReply.EarlySelfContinuation | app/api/phone/generate-ai-reply/route.ts:240-262 | the early check refuses exactly when the newest message is the contact's, younger than the cooldown, and the request is not forced; it answers 200 with the positive time left |
| GenerateAiReply.LateSelfContinuationUnreachable | app/api/phone/generate-ai-reply/route.ts:349-369 | the late self-continuation check never refuses: any case it would refuse with 429 was already refused by the early check |
| GenerateAiReply.OutOfChatCooldown | app/api/phone/generate-ai-reply/route.ts:273-313 | outside the chat window, a reply generated less than one cooldown ago blocks an unforced request with 429, giving the time left |
| GenerateAiReply.ForceSkipsCooldowns | app/api/phone/generate-ai-reply/route.ts:244-369 | a forced request is never held back by either cooldown |
| GenerateAiReply.GenerateNeedsMessages | app/api/phone/generate-ai-reply/route.ts:131-380 | a reply is generated only for a conversation that exists and has messages, and never for a notification contact |
| GenerateAiReply.HistoryMessages | app/api/phone/generate-ai-reply/route.ts:497-500 | one model message per phone message, in order: the contact's count as the assistant's, all others as the user's |
| GenerateAiReply.LlmMessages | app/api/phone/generate-ai-reply/route.ts:495-501 | the system prompt comes first, followed by the history |
| GenerateAiReply.RelationOf | app/api/phone/generate-ai-reply/route.ts:391-416 | one iff per relationship line in the route's order: mother exactly for `mẹ`/`mom`/`me `, father exactly for `bố`/`ba`/`dad` without those, boss exactly for `sếp`/`boss` without any earlier word, friend exactly for `bạn`/`friend` without any earlier word |
| GenerateAiReply.PronounRulesOf | app/api/phone/generate-ai-reply/route.ts:420-463 | one iff per rule set in the route's order: mother exactly for `mẹ`/`mom`, father exactly for `bố`/`ba`/`dad` without those, boss exactly for `sếp`/`boss` without any earlier word, natural speech otherwise; the mother's rules are used only for a contact the relationship line also calls the mother |
| GenerateAiReply.MeIsMotherOnlyInContext | app/api/phone/generate-ai-reply/route.ts:393-463 | a contact named "me lan" is told it is the mother, but then given the natural-speech rules |
| GenerateAiReply.NoPairNoMatch | app/api/phone/generate-ai-reply/route.ts:393-424 | a word whose first two letters never stand side by side in the name is not in the name |
| GenerateAiReply.SavedReply | app/api/phone/generate-ai-reply/route.ts:520-550 | the saved reply is never empty; a blank reply becomes the fallback for the impact's sign, and a reply the contact's role rejects becomes that role's fallback |
| GenerateAiReply.BlankReplyFallsBack | app/api/phone/generate-ai-reply/route.ts:520-550 | a friend's blank reply is saved as the fallback for the impact's sign |
| GenerateAiReply.AffectionUpdate | app/api/phone/generate-ai-reply/route.ts:590-598 | the affection update is sent exactly when a character is given and some message is the user's; it carries the impact's mood and the newest user message |

## Left out

- `android/app/src/main/java/com/aimi/chat/MainActivity.java`: it only starts the app shell and has no behaviour to state.
- UI components, pages, contexts and hooks other than the wrap computation of `components/ParseToolbar.tsx`: their rendering, styling and event plumbing are not modelled.
- Network, authentication and database plumbing: all Prisma/Supabase reads and writes, `fetch` and authentication are parameters, or tables held in a class's field. Errors they throw are not modelled unless a route answers them.
- String lengths: strings are sequences of code points. JavaScript counts UTF-16 units. The trivial-message checks count UTF-16 units explicitly (`Common.Utf16Length`). The message hash folds the UTF-16 units of the text (`Common.Utf16Units`), as `charCodeAt` does. Slices such as the 200-character quote and the 50-character preview count code points. The two agree on text inside the Basic Multilingual Plane. Every auto-reply template of the phone reply route opens with an emoji outside that plane, so the source's 50-unit preview of a template holds one character fewer than `GenerateAiReply.Preview`: the source keeps 49 characters where the model keeps 50.
- Case mapping: `toLowerCase`/`toUpperCase` are modelled character by character for ASCII, Latin-1 (with the capitals of `ÿ` and `µ` outside Latin-1) and the Vietnamese letters. Other scripts are left unchanged.
- Common.Upper: `ß` is kept as it is, where `toUpperCase` turns it into the two letters `SS`, so the model keeps the length of every text.
- GooglePresets.FormatPart: the length it states holds in the model only; a part that starts with `ß` is one character longer in the source.
- GooglePresets.FormatModelLabel: its character-by-character label does not hold in the source for a part that starts with `ß`, which gains a character.
- Floating point: momentum, trust debt, multipliers, impacts and temperatures are exact reals. Double rounding, `NaN` and `Infinity` are not modelled. `Math.round` is `floor(x + 0.5)`.
- Regular expressions: only the matching the code spells out is modelled. The global placeholder replacements are modelled with the `$$`, `$&`, `` $` `` and `$'` patterns of a replacement string (`Common.ExpandReplacement`); their patterns have no capture groups, so no other `$` pattern applies. The JSON-extraction and metadata-stripping patterns of the chat endpoint are parameters.
- Prompt texts: the long prompt literals are short placeholder constants. Only which sections appear, and in what order, is modelled. Translation tables and preset files are out as well; the Zhipu language rules are given in full.
- Console logging everywhere, and the `Promise.race` timeouts of `lib/llm/fallback.ts`, which are folded into the provider call's failure.
- generatePhoneContent (`lib/llm/phone-content-generator.ts:151-247`): an LLM call, a regular-expression extraction of its JSON and logging. Only the pure steps it calls are modelled: the context building and the placeholder replacement.
- generateFallbackContent (`lib/llm/phone-content-generator.ts:252-336`): fixed sample content stamped with the clock; not modelled.
- useLanguage and the React context (`lib/i18n/LanguageContext.tsx:43-70`): rendering nothing before the saved language is loaded, the translation lookup and the error thrown outside a provider are React plumbing; not modelled.
- Relationship.CalcIntimacyLevel: the source compares doubles. The model compares reals, and `CalcDisagreesOnFractions` records a fractional total that the two level functions rate differently.
- PronounValidator.DetectRole: the test suite expects `Me oi` to be the mother, but no rule of the validator matches it. The model follows the code (`UnaccentedMeIsFriend`). The validator looks for `ba ` with a space, while the phone reply route looks for `ba`.
- JsonParser.CleanJsonString: when no brace or bracket is left, the text is returned without the final trim, as the code does. Its comment says otherwise.
- Fallback: `chains[key] || chains.default` keeps an empty filtered chain, because an empty array is truthy, so such a chain gets no default. The smart filter has no DeepSeek case and lets its models through.
- Router: `callProvider`'s unknown-provider branch is unreachable, because every candidate is a valid provider. It is not modelled.
- I18n.Interpolate: keys that name `Object.prototype` members (such as `constructor`) are not modelled, since the lookup would find the inherited member. Number values are integers written by `IntToString`, which agrees with `String(n)` for integers; fractional numbers are not modelled.
- ChatThemes.GetThemeById: ids that name `Object.prototype` members (such as `toString`) are not modelled.
- Responsive: `mediaQueries`, `TYPOGRAPHY` and `SPACING` are static tables and are left out. Widths are reals. A fractional width between 1023 and 1024 gets the desktop breakpoint, yet none of `isMobile`, `isTablet` and `isDesktop` holds for it (`FractionalWidthInTheGap`).
- Prisma: the schema-parameter pattern is modelled as its leftmost match. Left out: the `globalThis` client reuse, the log levels chosen by `NODE_ENV` for the legacy client, and reading a mutable `process.env` after the module is loaded.
- Prisma.ClientCache.GetPrismaForRole: states only that a returned client is the one cached for the role's schema; that the cache otherwise changes as for GetPrismaForSchema is not restated.
- ChatRoute: a `reaction` or `devForceReaction` that is not a string is not modelled, where `toUpperCase` throws. With a reply target found the scene description is dropped, as the code does (`ReplyReplacesScene`). The short-phrase pattern never changes the trivial test (`TrivialIsShort`). Loading history and memories, and saving messages, are parameters or left out.
- GenerateAiReply.DeepMatch: its own contract states only that a match is a span inside the text. Its shape is stated by `DeepMatchShape`.
- GenerateAiReply.SentimentOf: its own contract states only the impact bound and the no-match case. A block that parses is covered by `ParsedAround` and `ReplyWithBlockParsed`, one that does not by `UnparsedBlockIsNeutral`.
- GenerateAiReply: a truthy `reaction` that is not a string makes `toUpperCase` throw inside the parser. That path is not modelled.
- GenerateAiReply: the route reads the newest message twice: once alone, then among the latest 20. The gates assume both reads see the same messages at one clock instant, which makes the late 429 refusal unreachable (`LateSelfContinuationUnreachable`).
- GenerateAiReply: left out are the message writes, the LLM call and its 500 answer, the system prompt text, the dev-email label in messages, and the affection request and its answer. The conversation and character ids are reduced to "given or not".
- GenerateAiReply.PronounRulesOf: `me ` makes a contact the mother in the relationship line but not in the pronoun rules (`MeIsMotherOnlyInContext`). The model follows the code.
