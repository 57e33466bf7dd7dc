/**
 * The relationship state machine of a character: affection points, the
 * named stage with hysteresis and a cooldown, and the "emotional momentum"
 * layer (trust debt, momentum with inertia, apology-spam damping,
 * time-gap decay).
 *
 * Floating-point arithmetic is modelled with exact reals.  Timestamps are
 * milliseconds since the epoch.
 */
module Relationship {
  import opened Common
  import RelationshipLevels

  // ---------------------------------------------------------------------
  // Constants
  // ---------------------------------------------------------------------

  const StageOrder: seq<string> := ["STRANGER", "ACQUAINTANCE", "CRUSH", "DATING", "COMMITTED"]

  /** Lower bound of each ordered stage's band (STAGE_THRESHOLDS[..].min). */
  const StageMins: seq<int> := [-9, 11, 101, 1001, 3001]

  const HysteresisUp: int := 2
  const HysteresisDown: int := 5
  const StageCooldown: int := 10

  const DebtAccrualRate: real := 1.5
  const DebtRepayRate: real := 0.6
  const PromotionDebtThreshold: real := 5.0

  const Inertia: real := 0.7
  const PromotionMomentumMin: real := 0.2

  const ApologyKeywords: seq<string> :=
    ["xin lỗi", "sorry", "tha lỗi", "tha thứ", "bỏ qua",
     "anh sai", "em sai", "lỗi của", "hối hận", "ân hận",
     "forgive", "apologize", "my bad", "i was wrong"]
  const ApologySpamThreshold: int := 3
  const ApologySpamPenalty: real := 0.3

  const MillisPerHour: int := 3600000

  // ---------------------------------------------------------------------
  // Helpers
  // ---------------------------------------------------------------------

  /** The visual intimacy level; negative totals are level 0. */
  function CalcIntimacyLevel(points: real): (level: nat)
    ensures level <= 4
    ensures points < 0.0 ==> level == 0
    ensures level > 0 ==> StageMins[level] as real <= points
    ensures level < 4 ==> points < StageMins[level + 1] as real
  {
    if points < 0.0 then 0
    else if points >= 3001.0 then 4
    else if points >= 1001.0 then 3
    else if points >= 101.0 then 2
    else if points >= 11.0 then 1
    else 0
  }

  /** On whole numbers the two level functions of the application agree. */
  lemma CalcAgreesWithGetIntimacyLevel(points: int)
    ensures CalcIntimacyLevel(points as real) == RelationshipLevels.GetIntimacyLevel(points)
  {
  }

  /** Between 10 and 11 the two level functions disagree; fractional totals reach this one. */
  lemma CalcDisagreesOnFractions()
    ensures CalcIntimacyLevel(10.5) == 0
  {
  }

  /** Position of a stage in the stage order; a name not in the order counts as position 0. */
  function StageIndex(stage: string): (i: nat)
    ensures i < |StageOrder|
    ensures stage in StageOrder ==> StageOrder[i] == stage
    ensures stage !in StageOrder ==> i == 0
  {
    if stage == "STRANGER" then 0
    else if stage == "ACQUAINTANCE" then 1
    else if stage == "CRUSH" then 2
    else if stage == "DATING" then 3
    else if stage == "COMMITTED" then 4
    else 0
  }

  /** The stage whose band holds the points (the "natural" stage). */
  function StageForPoints(points: real): (s: string)
    ensures s in StageOrder
    ensures StageIndex(s) > 0 ==> StageMins[StageIndex(s)] as real <= points
    ensures StageIndex(s) < 4 ==> points < StageMins[StageIndex(s) + 1] as real
  {
    if points >= 3001.0 then "COMMITTED"
    else if points >= 1001.0 then "DATING"
    else if points >= 101.0 then "CRUSH"
    else if points >= 11.0 then "ACQUAINTANCE"
    else "STRANGER"
  }

  /** More points never give an earlier natural stage. */
  lemma NaturalStageMonotone(p: real, q: real)
    requires p <= q
    ensures StageIndex(StageForPoints(p)) <= StageIndex(StageForPoints(q))
  {
  }

  /** Recovery speed of positive impact per stage; other names (BROKEN among them) get 0.5. */
  function RecoveryMultiplier(stage: string): (m: real)
    ensures 0.5 <= m <= 1.5
  {
    if stage == "STRANGER" then 0.6
    else if stage == "ACQUAINTANCE" then 0.8
    else if stage == "CRUSH" then 1.0
    else if stage == "DATING" then 1.2
    else if stage == "COMMITTED" then 1.5
    else if stage == "UNDEFINED" then 0.8
    else 0.5
  }

  /** Whether the lower-cased message contains an apology keyword. */
  predicate ContainsApology(message: string)
  {
    ContainsAny(Lower(message), ApologyKeywords)
  }

  /** The apology test is case-blind: any spelling of a keyword, inside any message, counts. */
  lemma ApologyInAnyCase(a: string, p: string, b: string, k: nat)
    requires k < |ApologyKeywords| && Lower(p) == ApologyKeywords[k]
    ensures ContainsApology(a + p + b)
  {
    LowerKeepsOccurrence(a, p, b);
  }

  /** "SORRY" in capitals is an apology. */
  lemma ShoutedSorryIsApology()
    ensures ContainsApology("SORRY!")
  {
    assert Lower("SORRY") == ApologyKeywords[1];
    assert "" + "SORRY" + "!" == "SORRY!";
    ApologyInAnyCase("", "SORRY", "!", 1);
  }

  /** `Math.round`: the nearest integer, halves rounded up. */
  function Round(x: real): (r: int)
    ensures x - 0.5 < r as real <= x + 0.5
  {
    (x + 0.5).Floor
  }

  lemma RoundMonotoneBounds(x: real, k: int)
    ensures x <= k as real ==> Round(x) <= k
    ensures k as real <= x ==> k <= Round(x)
  {
  }

  function AbsReal(x: real): real { if x < 0.0 then -x else x }
  function MaxReal(a: real, b: real): real { if a >= b then a else b }

  // ---------------------------------------------------------------------
  // 32-bit hash of the last message
  // ---------------------------------------------------------------------

  const TwoTo32: int := 0x1_0000_0000
  const TwoTo31: int := 0x8000_0000

  /** ToInt32: the signed 32-bit integer congruent to `x` modulo 2^32. */
  function ToInt32(x: int): (r: int)
    ensures -TwoTo31 <= r < TwoTo31
  {
    (x + TwoTo31) % TwoTo32 - TwoTo31
  }

  lemma ModShift(x: int, k: int)
    ensures (x + k * TwoTo32) % TwoTo32 == x % TwoTo32
  {
    var q := x / TwoTo32;
    assert x == q * TwoTo32 + x % TwoTo32;
    assert x + k * TwoTo32 == (q + k) * TwoTo32 + x % TwoTo32;
  }

  /** Adding a multiple of 2^32 does not change the wrapped value. */
  lemma ToInt32Shift(x: int, k: int)
    ensures ToInt32(x + k * TwoTo32) == ToInt32(x)
  {
    ModShift(x + TwoTo31, k);
    assert x + k * TwoTo32 + TwoTo31 == (x + TwoTo31) + k * TwoTo32;
  }

  lemma ToInt32Diff(x: int)
    ensures x - ToInt32(x) == ((x + TwoTo31) / TwoTo32) * TwoTo32
  {
  }

  /** One round of the hash: `((hash << 5) - hash) + code`, then `hash & hash`. */
  function HashStep(hash: int, code: int): int
  {
    ToInt32(ToInt32(ToInt32(hash) * 32) - hash + code)
  }

  /** The hash folded from the left over a sequence of codes. */
  function HashCodes(codes: seq<int>): int
  {
    if |codes| == 0 then 0 else HashStep(HashCodes(codes[..|codes| - 1]), codes[|codes| - 1])
  }

  /** The hash of a string: its `charCodeAt` codes, the UTF-16 code units, folded from the left. */
  function HashValue(s: string): int
  {
    HashCodes(Utf16Units(s))
  }

  /** The polynomial the hash computes: the sum of codes[i] * 31^(n-1-i). */
  function HashPolynomial(codes: seq<int>): int
  {
    if |codes| == 0 then 0 else 31 * HashPolynomial(codes[..|codes| - 1]) + codes[|codes| - 1]
  }

  /** A hash round is multiplication by 31 and addition, modulo 2^32. */
  lemma HashStepIsMultiplyAdd(hash: int, code: int)
    ensures HashStep(hash, code) == ToInt32(31 * hash + code)
  {
    var a := (hash + TwoTo31) / TwoTo32;
    ToInt32Diff(hash);
    var h := ToInt32(hash);
    assert h == hash - a * TwoTo32;
    var b := (h * 32 + TwoTo31) / TwoTo32;
    ToInt32Diff(h * 32);
    var shifted := ToInt32(h * 32);
    assert shifted == h * 32 - b * TwoTo32;
    assert shifted - hash + code == (31 * hash + code) + (-(32 * a + b)) * TwoTo32;
    ToInt32Shift(31 * hash + code, -(32 * a + b));
  }

  lemma WrapMultiplyAdd(p: int, c: int)
    ensures ToInt32(31 * ToInt32(p) + c) == ToInt32(31 * p + c)
  {
    var m := (p + TwoTo31) / TwoTo32;
    ToInt32Diff(p);
    assert 31 * ToInt32(p) + c == (31 * p + c) + (-31 * m) * TwoTo32;
    ToInt32Shift(31 * p + c, -31 * m);
  }

  /** Folding the codes is their polynomial wrapped to 32 signed bits: the wrap-around loses nothing else. */
  lemma {:induction false} HashCodesIsWrappedPolynomial(codes: seq<int>)
    ensures HashCodes(codes) == ToInt32(HashPolynomial(codes))
  {
    if |codes| > 0 {
      var init := codes[..|codes| - 1];
      var c := codes[|codes| - 1];
      var v := HashCodes(init);
      var p := HashPolynomial(init);
      assert HashCodes(codes) == HashStep(v, c);
      assert HashPolynomial(codes) == 31 * p + c;
      HashCodesIsWrappedPolynomial(init);
      HashStepIsMultiplyAdd(v, c);
      WrapMultiplyAdd(p, c);
    }
  }

  /** The hash of a string is the polynomial of its UTF-16 code units, wrapped to 32 signed bits. */
  lemma HashIsWrappedPolynomial(s: string)
    ensures HashValue(s) == ToInt32(HashPolynomial(Utf16Units(s)))
  {
    HashCodesIsWrappedPolynomial(Utf16Units(s));
  }

  /** A character beyond the Basic Multilingual Plane is hashed as its two surrogates: the hash of `😀` is written `1b0d63`. */
  lemma AstralCharHashesSurrogates()
    ensures Utf16Units("\U{1F600}") == [0xD83D, 0xDE00]
    ensures HashValue("\U{1F600}") == 0x1B0D63 && IntToHex(HashValue("\U{1F600}")) == "1b0d63"
  {
    SmileyUnits();
    SurrogatePairPolynomial();
    HashIsWrappedPolynomial("\U{1F600}");
    HexOf1B0D63();
  }

  lemma SmileyUnits()
    ensures Utf16Units("\U{1F600}") == [0xD83D, 0xDE00]
  {
    assert Utf16Units("\U{1F600}") == CharUnits('\U{1F600}') + Utf16Units("");
  }

  lemma SurrogatePairPolynomial()
    ensures HashPolynomial([0xD83D, 0xDE00]) == 31 * 0xD83D + 0xDE00
  {
    var u: seq<int> := [0xD83D, 0xDE00];
    assert HashPolynomial(u[..1]) == 0xD83D by { assert u[..1][..0] == []; }
  }

  lemma HexOf1B0D63()
    ensures IntToHex(0x1B0D63) == "1b0d63"
  {
    var d1 := NatToDigits(0x1, 16);
    var d2 := NatToDigits(0x1B, 16);
    var d3 := NatToDigits(0x1B0, 16);
    var d4 := NatToDigits(0x1B0D, 16);
    var d5 := NatToDigits(0x1B0D6, 16);
    assert d1 == "1";
    assert d2 == d1 + "b";
    assert d3 == d2 + "0";
    assert d4 == d3 + "d";
    assert d5 == d4 + "6";
    assert NatToDigits(0x1B0D63, 16) == d5 + "3";
  }

  /** `simpleHash`: the loop over the `charCodeAt` codes, then the signed hexadecimal text. */
  method SimpleHash(str: string) returns (hex: string)
    ensures hex == IntToHex(HashValue(str))
  {
    var units := Utf16Units(str);
    var hash := 0;
    var i := 0;
    while i < |units|
      invariant 0 <= i <= |units|
      invariant hash == HashCodes(units[..i])
    {
      var code := units[i];
      hash := (ToInt32(ToInt32(hash) * 32) - hash) + code;
      hash := ToInt32(hash);
      assert units[..i + 1][..i] == units[..i];
      i := i + 1;
    }
    assert units[..i] == units;
    hex := IntToHex(hash);
  }

  // ---------------------------------------------------------------------
  // The stored state and one update
  // ---------------------------------------------------------------------

  /** A row of the relationship table (nullable counters read as 0, as the code does). */
  datatype RelationshipConfig = RelationshipConfig(
    affectionPoints: int,
    intimacyLevel: int,
    stage: string,
    messageCount: int,
    trustDebt: real,
    emotionalMomentum: real,
    apologyCount: int,
    lastActiveAt: Option<int>,
    lastStageChangeAt: Option<int>,
    lastMessageHash: string)

  datatype UpdateResult = UpdateResult(
    affectionPoints: int,
    intimacyLevel: int,
    stage: string,
    messageCount: int,
    lastActiveAt: int,
    stageChanged: bool,
    previousStage: Option<string>,
    isBroken: bool,
    trustDebt: real,
    emotionalMomentum: real)

  /** Hours between the last activity (now, when never active) and now. */
  function HoursSinceActive(config: RelationshipConfig, now: int): real
  {
    var last := match config.lastActiveAt case Some(t) => t case None => now;
    (now - last) as real / MillisPerHour as real
  }

  /** The message count at the last stage change (0 when never changed). */
  function LastStageChange(config: RelationshipConfig): int
  {
    match config.lastStageChangeAt case Some(n) => n case None => 0
  }

  /** Apology counter after the time-gap reset (a gap of a day or more clears it). */
  function ApologyBase(config: RelationshipConfig, now: int): int
  {
    if HoursSinceActive(config, now) >= 24.0 then 0 else config.apologyCount
  }

  predicate CooldownPassed(config: RelationshipConfig)
  {
    config.messageCount + 1 - LastStageChange(config) >= StageCooldown
  }

  /** All promotion gates of the current stage, for the unrounded new points. */
  predicate PromotionGate(stage: string, points: real, debt: real, momentum: real)
  {
    var cur := StageIndex(stage);
    StageIndex(StageForPoints(points)) > cur
    && points >= (StageMins[cur + 1] + HysteresisUp) as real
    && debt < PromotionDebtThreshold
    && momentum > PromotionMomentumMin
  }

  /** The demotion gate of the current stage, for the unrounded new points. */
  predicate DemotionGate(stage: string, points: real)
  {
    var cur := StageIndex(stage);
    StageIndex(StageForPoints(points)) < cur && cur > 0
    && points <= (StageMins[cur] - HysteresisDown) as real
  }

  /** Step 0, time-gap decay: a day's silence clears the apology counter and decays momentum toward 0. */
  method DecayForGap(momentum: real, apologyCount: int, hours: real) returns (m: real, count: int)
    ensures hours >= 24.0 ==> count == 0 && m == (if hours >= 72.0 then momentum * 0.7 else momentum * 0.9)
    ensures hours < 24.0 ==> count == apologyCount && m == momentum
    ensures (m >= 0.0 <==> momentum >= 0.0) && AbsReal(m) <= AbsReal(momentum)
  {
    m := momentum;
    count := apologyCount;
    var prevMomentumSign := if momentum >= 0.0 then 1 else -1;
    if hours >= 24.0 {
      count := 0;
      if hours >= 72.0 {
        m := m * 0.7;
      } else {
        m := m * 0.9;
      }
      // the sign clamp of the source: a positive factor never flips the sign
      if prevMomentumSign < 0 && m > 0.0 {
        m := 0.0;
      } else if prevMomentumSign > 0 && m < 0.0 {
        m := 0.0;
      }
    }
  }

  /** Step 1, apology spam: from the third apology on, a positive impact keeps 30% of its effect. */
  method DampApologySpam(impactScore: real, apologyCount: int, isApology: bool) returns (effective: real, count: int)
    ensures isApology ==> count == apologyCount + 1
    ensures !isApology ==> count == Max(0, apologyCount - 1)
    ensures isApology && count >= ApologySpamThreshold && impactScore > 0.0 ==> effective == impactScore * ApologySpamPenalty
    ensures !(isApology && count >= ApologySpamThreshold) ==> effective == impactScore
    ensures (effective > 0.0 <==> impactScore > 0.0) && (effective < 0.0 <==> impactScore < 0.0)
    ensures AbsReal(effective) <= AbsReal(impactScore)
  {
    effective := impactScore;
    count := apologyCount;
    if isApology {
      count := count + 1;
      if count >= ApologySpamThreshold && impactScore > 0.0 {
        effective := impactScore * ApologySpamPenalty;
      }
    } else {
      count := Max(0, count - 1);
    }
  }

  /** Step 2, momentum with inertia; a positive impact against negative momentum is damped, to no less than 30%. */
  method ApplyMomentum(momentum: real, impact: real) returns (m: real, effective: real)
    ensures m == ClampReal(momentum * Inertia + (impact / 2.0) * (1.0 - Inertia), -1.0, 1.0)
    ensures -1.0 <= m <= 1.0
    ensures (effective > 0.0 <==> impact > 0.0) && (effective < 0.0 <==> impact < 0.0)
    ensures AbsReal(effective) <= AbsReal(impact)
    ensures impact > 0.0 ==> effective >= 0.3 * impact
    ensures m >= 0.0 || impact <= 0.0 ==> effective == impact
  {
    effective := impact;
    var normalizedImpact := effective / 2.0;
    var newMomentum := momentum * Inertia + normalizedImpact * (1.0 - Inertia);
    m := ClampReal(newMomentum, -1.0, 1.0);
    if m < 0.0 && effective > 0.0 {
      var dampeningFactor := 1.0 + m;
      var factor := MaxReal(0.3, dampeningFactor);
      assert 0.3 <= factor <= 1.0;
      var damped := effective * factor;
      DampedBounds(effective, factor, damped);
      effective := damped;
    }
  }

  lemma DampedBounds(x: real, f: real, d: real)
    requires x > 0.0 && 0.3 <= f <= 1.0 && d == x * f
    ensures 0.3 * x <= d <= x
  {
    MulNonneg(x, 1.0 - f);
    MulNonneg(x, f - 0.3);
    assert x * (1.0 - f) == x - x * f;
    assert x * (f - 0.3) == x * f - 0.3 * x;
  }

  lemma MulNonneg(a: real, b: real)
    requires a >= 0.0 && b >= 0.0
    ensures a * b >= 0.0
  {
  }

  lemma ScaleAbove(x: real, f: real, lo: real)
    requires x > 0.0 && lo <= f
    ensures x * f >= lo * x
  {
    MulNonneg(x, f - lo);
    assert x * (f - lo) == x * f - lo * x;
  }

  /** Steps 3 and 4: positive impact scaled by the stage's recovery speed; trust debt grows on loss, shrinks on gain. */
  method ScaleAndAccrueDebt(stage: string, effective: real, trustDebt: real) returns (scaled: real, debt: real)
    ensures effective > 0.0 ==> scaled == effective * RecoveryMultiplier(stage) && 0.0 < scaled <= 1.5 * effective
    ensures effective <= 0.0 ==> scaled == effective
    ensures effective < 0.0 ==> debt == trustDebt + AbsReal(scaled) * DebtAccrualRate && debt > trustDebt
    ensures effective == 0.0 ==> debt == trustDebt
    ensures effective > 0.0 && trustDebt > 0.0 ==> debt == MaxReal(0.0, trustDebt - scaled * DebtRepayRate) && 0.0 <= debt <= trustDebt
    ensures effective > 0.0 && trustDebt <= 0.0 ==> debt == trustDebt
  {
    var stageMultiplier := RecoveryMultiplier(stage);
    if effective > 0.0 {
      scaled := effective * stageMultiplier;
      ScaleAbove(effective, stageMultiplier, 0.5);
      assert scaled <= 1.5 * effective by { ScaleAtMost(effective, stageMultiplier, 1.5); }
    } else {
      scaled := effective * 1.0;
    }
    debt := trustDebt;
    if effective < 0.0 {
      debt := debt + AbsReal(scaled) * DebtAccrualRate;
    } else if effective > 0.0 && debt > 0.0 {
      var repayment := scaled * DebtRepayRate;
      debt := MaxReal(0.0, debt - repayment);
    }
  }

  lemma ScaleAtMost(x: real, f: real, hi: real)
    requires x > 0.0 && f <= hi
    ensures x * f <= hi * x
  {
    MulNonneg(x, hi - f);
    assert x * (hi - f) == hi * x - x * f;
  }

  /**
   * Step 6, stage progression.  BROKEN overrides everything; UNDEFINED never
   * progresses; otherwise, once the cooldown has passed, one step up when
   * every promotion gate holds, or one step down past the hysteresis margin.
   */
  method ProgressStage(config: RelationshipConfig, points: real, trustDebt: real, momentum: real)
    returns (stage: string, changed: bool)
    ensures points <= -10.0 ==> stage == "BROKEN"
    ensures points > -10.0 && (config.stage == "UNDEFINED" || !CooldownPassed(config)) ==> stage == config.stage
    ensures points > -10.0 && config.stage != "UNDEFINED" && CooldownPassed(config) ==>
              stage == (if PromotionGate(config.stage, points, trustDebt, momentum)
                        then StageOrder[StageIndex(config.stage) + 1]
                        else if DemotionGate(config.stage, points) then StageOrder[StageIndex(config.stage) - 1]
                        else config.stage)
    ensures changed <==> stage != config.stage
  {
    var isBroken := points <= -10.0;
    var newMessageCount := config.messageCount + 1;
    stage := config.stage;
    changed := false;
    if isBroken {
      stage := "BROKEN";
      changed := config.stage != "BROKEN";
    }
    if config.stage != "UNDEFINED" && !isBroken {
      var currentStageIdx := StageIndex(config.stage);
      var naturalStageIdx := StageIndex(StageForPoints(points));
      var messagesSinceStageChange := newMessageCount - LastStageChange(config);
      var cooldownPassed := messagesSinceStageChange >= StageCooldown;
      if cooldownPassed {
        if naturalStageIdx > currentStageIdx {
          var targetStage := StageOrder[currentStageIdx + 1];
          var targetThreshold := StageMins[currentStageIdx + 1];
          var meetsAffection := points >= (targetThreshold + HysteresisUp) as real;
          var meetsTrustDebt := trustDebt < PromotionDebtThreshold;
          var meetsMomentum := momentum > PromotionMomentumMin;
          if meetsAffection && meetsTrustDebt && meetsMomentum {
            stage := targetStage;
            changed := true;
          }
        } else if naturalStageIdx < currentStageIdx && currentStageIdx > 0 {
          var currentThreshold := StageMins[currentStageIdx];
          if points <= (currentThreshold - HysteresisDown) as real {
            stage := StageOrder[currentStageIdx - 1];
            changed := true;
          }
        }
      }
    }
  }

  /** Affection after one message: bounded, moved towards the impact's sign by at most 1.5 times its size. */
  predicate AffectionUpdate(config: RelationshipConfig, impactScore: real, result: UpdateResult, points: real)
  {
    (-100.0 <= points <= 5000.0)
    && (impactScore >= 0.0 && -100 <= config.affectionPoints <= 5000 ==> points >= config.affectionPoints as real)
    && (impactScore <= 0.0 && -100 <= config.affectionPoints <= 5000 ==> points <= config.affectionPoints as real)
    && (-100 <= config.affectionPoints <= 5000 ==>
              AbsReal(points - config.affectionPoints as real) <= 1.5 * AbsReal(impactScore))
    && (result.affectionPoints == Round(points) && -100 <= result.affectionPoints <= 5000)
    && (result.intimacyLevel == CalcIntimacyLevel(points))
    && (result.isBroken <==> points <= -10.0)
    && (result.messageCount == config.messageCount + 1)
  }

  /** Momentum stays in [-1, 1]; trust debt grows on a negative impact and never grows otherwise; apologies are counted. */
  predicate DebtUpdate(config: RelationshipConfig, impactScore: real, userMessage: string, now: int,
                       next: RelationshipConfig, result: UpdateResult)
  {
    (-1.0 <= result.emotionalMomentum <= 1.0)
    && (config.trustDebt >= 0.0 ==> result.trustDebt >= 0.0)
    && (impactScore < 0.0 ==> result.trustDebt > config.trustDebt)
    && (impactScore == 0.0 ==> result.trustDebt == config.trustDebt)
    && (impactScore > 0.0 ==> result.trustDebt <= config.trustDebt || config.trustDebt <= 0.0)
    && (ContainsApology(userMessage) ==> next.apologyCount == ApologyBase(config, now) + 1)
    && (!ContainsApology(userMessage) ==> next.apologyCount == Max(0, ApologyBase(config, now) - 1))
  }

  /** Stage after one message: BROKEN on a break, unchanged in cooldown, else one promotion or demotion gate. */
  predicate StageUpdate(config: RelationshipConfig, result: UpdateResult, points: real)
  {
    (result.stageChanged <==> result.stage != config.stage)
    && (result.isBroken ==> result.stage == "BROKEN")
    && (!result.isBroken && (config.stage == "UNDEFINED" || !CooldownPassed(config)) ==> result.stage == config.stage)
    && (!result.isBroken && config.stage != "UNDEFINED" && CooldownPassed(config) ==>
              result.stage == (if PromotionGate(config.stage, points, result.trustDebt, result.emotionalMomentum)
                               then StageOrder[StageIndex(config.stage) + 1]
                               else if DemotionGate(config.stage, points) then StageOrder[StageIndex(config.stage) - 1]
                               else config.stage))
    && (result.previousStage == (if result.stageChanged then Some(config.stage) else None))
  }

  /** The row written back holds the result's values, the message hash and the time of the message. */
  predicate PersistedUpdate(config: RelationshipConfig, userMessage: string, now: int,
                            next: RelationshipConfig, result: UpdateResult)
  {
    (next == config.(affectionPoints := result.affectionPoints, intimacyLevel := result.intimacyLevel,
                            stage := result.stage, lastActiveAt := Some(now), messageCount := result.messageCount,
                            trustDebt := result.trustDebt, emotionalMomentum := result.emotionalMomentum,
                            apologyCount := next.apologyCount, lastMessageHash := IntToHex(HashValue(userMessage)),
                            lastStageChangeAt := if result.stageChanged then Some(result.messageCount) else config.lastStageChangeAt))
    && (result.lastActiveAt == now)
  }

  /**
   * What one message's update promises, for the state `config` before it
   * and the state `next` and result after it. `points` is the new affection
   * total before rounding.
   */
  predicate IsUpdate(config: RelationshipConfig, impactScore: real, userMessage: string, now: int,
                     next: RelationshipConfig, result: UpdateResult, points: real)
  {
    AffectionUpdate(config, impactScore, result, points)
    && DebtUpdate(config, impactScore, userMessage, now, next, result)
    && StageUpdate(config, result, points)
    && PersistedUpdate(config, userMessage, now, next, result)
  }

  /**
   * One message's update of the relationship state, in the order of the
   * source: time-gap decay, apology-spam damping, momentum, recovery
   * damping, stage scaling, trust debt, affection, stage progression.
   */
  method ComputeUpdate(config: RelationshipConfig, impactScore: real, userMessage: string, now: int)
    returns (next: RelationshipConfig, result: UpdateResult, points: real)
    ensures AffectionUpdate(config, impactScore, result, points)
    ensures DebtUpdate(config, impactScore, userMessage, now, next, result)
    ensures StageUpdate(config, result, points)
    ensures PersistedUpdate(config, userMessage, now, next, result)
  {
    var hours := HoursSinceActive(config, now);
    var momentum, apologyCount := DecayForGap(config.emotionalMomentum, config.apologyCount, hours);
    var effective;
    effective, apologyCount := DampApologySpam(impactScore, apologyCount, ContainsApology(userMessage));
    momentum, effective := ApplyMomentum(momentum, effective);
    var scaled, trustDebt := ScaleAndAccrueDebt(config.stage, effective, config.trustDebt);

    points := ClampReal(config.affectionPoints as real + scaled, -100.0, 5000.0);
    var newIntimacyLevel := CalcIntimacyLevel(points);
    var newMessageCount := config.messageCount + 1;
    var isBroken := points <= -10.0;
    var newStage, stageChanged := ProgressStage(config, points, trustDebt, momentum);

    var rounded := Round(points);
    RoundMonotoneBounds(points, -100);
    RoundMonotoneBounds(points, 5000);
    var hash := SimpleHash(userMessage);
    next := config.(affectionPoints := rounded, intimacyLevel := newIntimacyLevel, stage := newStage,
                    lastActiveAt := Some(now), messageCount := newMessageCount, trustDebt := trustDebt,
                    emotionalMomentum := momentum, apologyCount := apologyCount, lastMessageHash := hash,
                    lastStageChangeAt := if stageChanged then Some(newMessageCount) else config.lastStageChangeAt);
    result := UpdateResult(rounded, newIntimacyLevel, newStage, newMessageCount, now, stageChanged,
                           if stageChanged then Some(config.stage) else None, isBroken, trustDebt, momentum);
  }

  /** Outside BROKEN, one update moves the stage by at most one position of the order. */
  lemma StageMovesAtMostOneStep(stage: string, points: real, debt: real, momentum: real)
    ensures PromotionGate(stage, points, debt, momentum) ==> StageIndex(StageOrder[StageIndex(stage) + 1]) == StageIndex(stage) + 1
    ensures DemotionGate(stage, points) ==> StageIndex(StageOrder[StageIndex(stage) - 1]) == StageIndex(stage) - 1
  {
  }

  /** Promotion and demotion gates never both hold. */
  lemma GatesExclusive(stage: string, points: real, debt: real, momentum: real)
    ensures !(PromotionGate(stage, points, debt, momentum) && DemotionGate(stage, points))
  {
  }

  /** A promoted stage is entered only with the hysteresis margin above its threshold. */
  lemma PromotionKeepsMargin(stage: string, points: real, debt: real, momentum: real)
    requires PromotionGate(stage, points, debt, momentum)
    ensures Round(points) >= StageMins[StageIndex(stage) + 1] + HysteresisUp
  {
    RoundMonotoneBounds(points, StageMins[StageIndex(stage) + 1] + HysteresisUp);
  }

  /** The relationship table, keyed by character id. */
  class RelationshipStore {
    var configs: map<string, RelationshipConfig>

    constructor(initial: map<string, RelationshipConfig>)
      ensures configs == initial
    {
      configs := initial;
    }

    /**
     * `updateRelationshipStats`: fails when the character has no row;
     * otherwise only that row changes, to the state one message's update
     * computes from it, and the update's result is returned.
     */
    method UpdateRelationshipStats(characterId: string, impactScore: real, userMessage: string, now: int)
      returns (r: Result<UpdateResult, string>, ghost points: real)
      modifies this
      ensures characterId !in old(configs) ==>
                r == Failure("RelationshipConfig not found for character: " + characterId) && configs == old(configs)
      ensures characterId in old(configs) ==>
                r.Success? && characterId in configs && configs == old(configs)[characterId := configs[characterId]]
                && IsUpdate(old(configs)[characterId], impactScore, userMessage, now, configs[characterId], r.value, points)
    {
      if characterId !in configs {
        return Failure("RelationshipConfig not found for character: " + characterId), 0.0;
      }
      var next, result, p := ComputeUpdate(configs[characterId], impactScore, userMessage, now);
      configs := configs[characterId := next];
      r, points := Success(result), p;
    }
  }
}
