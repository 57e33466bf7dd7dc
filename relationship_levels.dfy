/**
 * Intimacy levels 0..4 over the 0..5000 affection scale, and the two
 * negative thresholds: "broken" at -10 and "rescue" between -10 and -5.
 */
module RelationshipLevels {

  datatype Band = Band(min: int, max: int)

  const LevelNames: seq<string> := ["STRANGER", "ACQUAINTANCE", "CRUSH", "DATING", "COMMITTED"]

  /** Inclusive point bands of the five levels; index = level. */
  const LevelThresholds: seq<Band> :=
    [Band(0, 10), Band(11, 100), Band(101, 1000), Band(1001, 3000), Band(3001, 5000)]

  const BrokenThreshold: int := -10
  const RescueThreshold: int := -5

  /** The level whose name is given, as the INTIMACY_LEVELS record maps names to numbers. */
  function LevelOfName(name: string): (r: LevelLookup)
  {
    if name == "STRANGER" then Known(0)
    else if name == "ACQUAINTANCE" then Known(1)
    else if name == "CRUSH" then Known(2)
    else if name == "DATING" then Known(3)
    else if name == "COMMITTED" then Known(4)
    else Unknown
  }

  datatype LevelLookup = Unknown | Known(level: nat)

  /**
   * The level of a point total: the first band whose maximum is not below
   * the points, and level 4 above every band.
   */
  function GetIntimacyLevel(points: int): (level: nat)
    ensures level <= 4
    ensures level > 0 ==> LevelThresholds[level].min <= points
    ensures level < 4 ==> points <= LevelThresholds[level].max
  {
    if points <= LevelThresholds[0].max then 0
    else if points <= LevelThresholds[1].max then 1
    else if points <= LevelThresholds[2].max then 2
    else if points <= LevelThresholds[3].max then 3
    else 4
  }

  /** `isBroken`: at or below -10; a broken relationship sits at the lowest level, below the rescue threshold. */
  function IsBroken(points: int): (r: bool)
    ensures r ==> GetIntimacyLevel(points) == 0 && points < RescueThreshold
  {
    points <= BrokenThreshold
  }

  /** `shouldTriggerRescue`: from -9 to -5, just above broken and still at the lowest level. */
  function ShouldTriggerRescue(points: int): (r: bool)
    ensures r ==> !IsBroken(points) && IsBroken(points - 5) && GetIntimacyLevel(points) == 0
  {
    points <= RescueThreshold && points > BrokenThreshold
  }

  /** The bands are contiguous: each starts right after the previous one ends. */
  lemma BandsContiguous()
    ensures forall k :: 0 <= k < 4 ==> LevelThresholds[k].max + 1 == LevelThresholds[k + 1].min
    ensures forall k :: 0 <= k < 5 ==> LevelThresholds[k].min <= LevelThresholds[k].max
  {
  }

  /** Every point total inside a band gets exactly that band's level. */
  lemma LevelMatchesBand(points: int, k: nat)
    requires k < 5 && LevelThresholds[k].min <= points <= LevelThresholds[k].max
    ensures GetIntimacyLevel(points) == k
  {
  }

  /** More points never lower the level. */
  lemma LevelMonotone(p: int, q: int)
    requires p <= q
    ensures GetIntimacyLevel(p) <= GetIntimacyLevel(q)
  {
  }

  /** Names and numbers of the levels are inverse tables. */
  lemma NamesRoundTrip(k: nat)
    requires k < 5
    ensures LevelOfName(LevelNames[k]) == Known(k)
  {
  }

  /** Rescue and broken never hold together, and one of them holds exactly at or below -5. */
  lemma RescueExcludesBroken(points: int)
    ensures !(IsBroken(points) && ShouldTriggerRescue(points))
    ensures IsBroken(points) || ShouldTriggerRescue(points) <==> points <= RescueThreshold
  {
  }
}
