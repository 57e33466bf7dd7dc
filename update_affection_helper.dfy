/**
 * The shared affection update: fetch (or create) the relationship row of a
 * user and a character, add a sentiment-dependent delta, recompute level and
 * stage, and unlock the phone feature once the points reach 101.
 *
 * The database is a map from (user, character) to a row; the errors the
 * database may report are parameters of the update.
 */
module UpdateAffectionHelper {
  import opened Common
  import AffectionCalculator
  import RelationshipLevels

  const PhoneUnlockThreshold: int := 101

  /** A stored row; absent columns are `None` (and read as 0, STRANGER or "not unlocked"). */
  datatype AffectionRow = AffectionRow(
    affectionPoints: Option<int>,
    intimacyLevel: Option<int>,
    stage: Option<string>,
    phoneUnlocked: Option<bool>)

  datatype AffectionUpdateResult = AffectionUpdateResult(
    success: bool,
    affectionPoints: int,
    intimacyLevel: int,
    stage: string,
    phoneUnlocked: bool,
    phoneJustUnlocked: bool,
    error: Option<string>)

  datatype DbError = DbError(code: string, message: string)

  /** The row inserted for a first interaction. */
  const NewRow: AffectionRow := AffectionRow(Some(0), Some(0), Some("STRANGER"), Some(false))

  function PointsOf(row: AffectionRow): int
  {
    match row.affectionPoints case Some(p) => p case None => 0
  }

  function LevelOf(row: AffectionRow): int
  {
    match row.intimacyLevel case Some(l) => l case None => 0
  }

  /** `stats.stage || 'STRANGER'`: a missing or empty stage reads as STRANGER. */
  function StageOf(row: AffectionRow): string
  {
    match row.stage case Some(s) => if s == "" then "STRANGER" else s case None => "STRANGER"
  }

  predicate WasUnlocked(row: AffectionRow)
  {
    row.phoneUnlocked == Some(true)
  }

  const RetrieveFailedMessage: string := "Failed to retrieve relationship data"

  function FailureResult(message: string): AffectionUpdateResult
  {
    AffectionUpdateResult(false, 0, 0, "STRANGER", false, false, Some(message))
  }

  /**
   * Steps 3 to 5: the new points (the delta is drawn from the range of the
   * STORED level), level, stage and phone flags.
   */
  function NextAffection(row: AffectionRow, sentiment: AffectionCalculator.Sentiment, random: real): (u: AffectionUpdateResult)
    requires 0.0 <= random < 1.0
    ensures u.success && u.error == None
    ensures var range := AffectionCalculator.GetPointsRange(sentiment, LevelOf(row));
            PointsOf(row) + range.min <= u.affectionPoints <= PointsOf(row) + range.max
    ensures u.intimacyLevel == RelationshipLevels.GetIntimacyLevel(u.affectionPoints)
    ensures u.stage == (if u.affectionPoints <= -10 then "BROKEN" else StageOf(row))
    ensures u.phoneUnlocked <==> WasUnlocked(row) || u.affectionPoints >= PhoneUnlockThreshold
    ensures u.phoneJustUnlocked <==> !WasUnlocked(row) && u.affectionPoints >= PhoneUnlockThreshold
    ensures WasUnlocked(row) ==> u.phoneUnlocked && !u.phoneJustUnlocked
  {
    var currentPoints := PointsOf(row);
    var currentLevel := LevelOf(row);
    var pointsDelta := AffectionCalculator.CalculatePointsDelta(sentiment, currentLevel, random);
    var newPoints := currentPoints + pointsDelta;
    var newLevel := RelationshipLevels.GetIntimacyLevel(newPoints);
    var stage := if RelationshipLevels.IsBroken(newPoints) then "BROKEN" else StageOf(row);
    var wasPhoneUnlocked := WasUnlocked(row);
    var shouldUnlockPhone := newPoints >= PhoneUnlockThreshold;
    AffectionUpdateResult(true, newPoints, newLevel, stage, wasPhoneUnlocked || shouldUnlockPhone,
                          !wasPhoneUnlocked && shouldUnlockPhone, None)
  }

  /** The row written back after a successful update. */
  function StoredRow(u: AffectionUpdateResult): AffectionRow
  {
    AffectionRow(Some(u.affectionPoints), Some(u.intimacyLevel), Some(u.stage), Some(u.phoneUnlocked))
  }

  /** One draw per message: the sentiment and the `Math.random()` value. */
  datatype Draw = Draw(sentiment: AffectionCalculator.Sentiment, random: real)

  predicate ValidDraws(draws: seq<Draw>)
  {
    forall k :: 0 <= k < |draws| ==> 0.0 <= draws[k].random < 1.0
  }

  /** The row after a run of successful updates. */
  function RunUpdates(row: AffectionRow, draws: seq<Draw>): AffectionRow
    requires ValidDraws(draws)
    decreases |draws|
  {
    if |draws| == 0 then row
    else RunUpdates(StoredRow(NextAffection(row, draws[0].sentiment, draws[0].random)), draws[1..])
  }

  /** How many updates of the run report a fresh unlock. */
  function JustUnlockedCount(row: AffectionRow, draws: seq<Draw>): nat
    requires ValidDraws(draws)
    decreases |draws|
  {
    if |draws| == 0 then 0
    else
      var u := NextAffection(row, draws[0].sentiment, draws[0].random);
      (if u.phoneJustUnlocked then 1 else 0) + JustUnlockedCount(StoredRow(u), draws[1..])
  }

  /** Once unlocked, the phone stays unlocked through any run of updates, whatever the points do. */
  lemma {:induction false} UnlockIsSticky(row: AffectionRow, draws: seq<Draw>)
    requires ValidDraws(draws) && WasUnlocked(row)
    ensures WasUnlocked(RunUpdates(row, draws))
    decreases |draws|
  {
    if |draws| > 0 {
      var u := NextAffection(row, draws[0].sentiment, draws[0].random);
      assert ValidDraws(draws[1..]);
      UnlockIsSticky(StoredRow(u), draws[1..]);
    }
  }

  /** The "just unlocked" signal fires at most once in any run, and never once the phone is unlocked. */
  lemma {:induction false} JustUnlockedAtMostOnce(row: AffectionRow, draws: seq<Draw>)
    requires ValidDraws(draws)
    ensures JustUnlockedCount(row, draws) <= 1
    ensures WasUnlocked(row) ==> JustUnlockedCount(row, draws) == 0
    decreases |draws|
  {
    if |draws| > 0 {
      var u := NextAffection(row, draws[0].sentiment, draws[0].random);
      assert ValidDraws(draws[1..]);
      JustUnlockedAtMostOnce(StoredRow(u), draws[1..]);
    }
  }

  /** The relationship table. */
  class AffectionTable {
    var rows: map<(string, string), AffectionRow>

    constructor(initial: map<(string, string), AffectionRow>)
      ensures rows == initial
    {
      rows := initial;
    }

    /**
     * `updateAffection`.  A fetch error other than "no rows" (PGRST116), a
     * failed insert or a failed update ends with a failure result and the
     * table as it was (plus the new row if only the update failed).  An
     * insert whose `select()` hands back no row (`insertedRowReturned`
     * false) fails with the retrieval message, the new row stored.
     */
    method UpdateAffection(userId: string, characterId: string, sentiment: AffectionCalculator.Sentiment, random: real,
                           fetchError: Option<DbError>, createError: Option<DbError>, insertedRowReturned: bool,
                           updateError: Option<DbError>)
      returns (r: AffectionUpdateResult)
      requires 0.0 <= random < 1.0
      modifies this
      ensures var key := (userId, characterId);
              var found := fetchError.None? && key in old(rows);
              var creates := !found && (fetchError.None? || fetchError.value.code == "PGRST116");
              if !found && !creates then
                r == FailureResult(fetchError.value.message) && rows == old(rows)
              else if creates && createError.Some? then
                r == FailureResult(createError.value.message) && rows == old(rows)
              else if creates && !insertedRowReturned then
                r == FailureResult(RetrieveFailedMessage) && rows == old(rows)[key := NewRow]
              else
                var row := if found then old(rows)[key] else NewRow;
                var u := NextAffection(row, sentiment, random);
                if updateError.Some? then
                  r == AffectionUpdateResult(false, PointsOf(row), LevelOf(row), StageOf(row), WasUnlocked(row), false,
                                             Some(updateError.value.message))
                  && rows == (if creates then old(rows)[key := NewRow] else old(rows))
                else
                  r == u && rows == old(rows)[key := StoredRow(u)]
    {
      var key := (userId, characterId);
      var stats: Option<AffectionRow> := if fetchError.None? && key in rows then Some(rows[key]) else None;
      if stats.None? && (fetchError.None? || fetchError.value.code == "PGRST116") {
        if createError.Some? {
          return FailureResult(createError.value.message);
        }
        rows := rows[key := NewRow];
        stats := if insertedRowReturned then Some(NewRow) else None;
      } else if fetchError.Some? {
        return FailureResult(fetchError.value.message);
      }
      if stats.None? {
        return FailureResult(RetrieveFailedMessage);
      }
      var row := stats.value;
      var u := NextAffection(row, sentiment, random);
      if updateError.Some? {
        return AffectionUpdateResult(false, PointsOf(row), LevelOf(row), StageOf(row), WasUnlocked(row), false,
                                     Some(updateError.value.message));
      }
      rows := rows[key := StoredRow(u)];
      r := u;
    }
  }
}
