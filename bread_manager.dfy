/** Player-facing bread logic: the aesthetic name of a level, the /bread stats view, the
    upgrade attempt and the meter reset. The clock and the range draws are inputs. */
module BreadManager {
  import opened Constants
  import opened Models
  import opened RangeGenerator

  // ---------------------------------------------------------------------------------------
  // Aesthetic

  /** How many of the first n milestones a level has reached. Since the milestones increase,
      the reached ones form a prefix: the first c are reached and, below n, milestone c is not. */
  function MilestonesReached(level: int, n: nat): (c: nat)
    requires n <= |AESTHETIC_MILESTONES|
    ensures c <= n
    ensures forall j :: 0 <= j < c ==> AESTHETIC_MILESTONES[j].level <= level
    ensures c < n ==> AESTHETIC_MILESTONES[c].level > level
  {
    MilestonesStrictlyIncrease();
    if n == 0 then 0
    else MilestonesReached(level, n - 1) + (if AESTHETIC_MILESTONES[n - 1].level <= level then 1 else 0)
  }

  /** The name of the highest milestone a level has reached; the first name when none is. */
  function Aesthetic(level: int): string
  {
    var c := MilestonesReached(level, |AESTHETIC_MILESTONES|);
    if c == 0 then AESTHETIC_MILESTONES[0].name else AESTHETIC_MILESTONES[c - 1].name
  }

  /** Over the (strictly increasing) milestones, when milestone i is the highest one reached,
      the first n milestones reached number min(n, i + 1). */
  lemma {:induction false} ReachedUpTo(level: int, i: nat, n: nat)
    requires i < |AESTHETIC_MILESTONES| && n <= |AESTHETIC_MILESTONES|
    requires AESTHETIC_MILESTONES[i].level <= level
    requires forall j :: i < j < |AESTHETIC_MILESTONES| ==> AESTHETIC_MILESTONES[j].level > level
    ensures MilestonesReached(level, n) == Min(n, i + 1)
  {
    MilestonesStrictlyIncrease();
    if n > 0 {
      ReachedUpTo(level, i, n - 1);
    }
  }

  /** No milestone reached: every threshold lies above the level. */
  lemma {:induction false} ReachedNone(level: int, n: nat)
    requires n <= |AESTHETIC_MILESTONES|
    requires forall j :: 0 <= j < |AESTHETIC_MILESTONES| ==> AESTHETIC_MILESTONES[j].level > level
    ensures MilestonesReached(level, n) == 0
  {
    if n > 0 {
      ReachedNone(level, n - 1);
    }
  }

  /** `getAesthetic`: scan the milestones from the highest down and return the first one the
      level has reached, or the first milestone's name. */
  method GetAesthetic(level: int) returns (name: string)
    ensures name == Aesthetic(level)
  {
    var i := |AESTHETIC_MILESTONES| - 1;
    while i >= 0
      invariant -1 <= i < |AESTHETIC_MILESTONES|
      invariant forall j :: i < j < |AESTHETIC_MILESTONES| ==> AESTHETIC_MILESTONES[j].level > level
    {
      if level >= AESTHETIC_MILESTONES[i].level {
        AestheticBetweenMilestones(i, level);
        return AESTHETIC_MILESTONES[i].name;
      }
      i := i - 1;
    }
    ReachedNone(level, |AESTHETIC_MILESTONES|);
    return AESTHETIC_MILESTONES[0].name;
  }

  /** A level exactly on a milestone, or anywhere up to the next one, shows that milestone's
      name; levels at or beyond the last milestone show the last name. */
  lemma AestheticBetweenMilestones(i: nat, level: int)
    requires i < |AESTHETIC_MILESTONES| && AESTHETIC_MILESTONES[i].level <= level
    requires i + 1 < |AESTHETIC_MILESTONES| ==> level < AESTHETIC_MILESTONES[i + 1].level
    ensures Aesthetic(level) == AESTHETIC_MILESTONES[i].name
  {
    MilestonesStrictlyIncrease();
    forall j | i < j < |AESTHETIC_MILESTONES|
      ensures AESTHETIC_MILESTONES[j].level > level
    {
      assert AESTHETIC_MILESTONES[i + 1].level <= AESTHETIC_MILESTONES[j].level;
    }
    ReachedUpTo(level, i, |AESTHETIC_MILESTONES|);
  }

  /** Levels below every milestone still show the first name ("Plain Bread"). */
  lemma AestheticBelowFirstMilestone(level: int)
    requires level < 0
    ensures Aesthetic(level) == "🍞 Plain Bread"
  {
    ReachedNone(level, |AESTHETIC_MILESTONES|);
  }

  /** Gaining levels never moves the bread to a lower milestone. */
  lemma {:induction false} MilestonesReachedMonotone(a: int, b: int, n: nat)
    requires a <= b && n <= |AESTHETIC_MILESTONES|
    ensures MilestonesReached(a, n) <= MilestonesReached(b, n)
  {
    if n > 0 {
      MilestonesReachedMonotone(a, b, n - 1);
    }
  }

  // ---------------------------------------------------------------------------------------
  // Stats view

  /** Filled cells of the jam bar: the meter's fraction of maxPoints in tenths, rounded down. */
  function FilledCells(points: real, maxPoints: int): int
    requires maxPoints > 0
  {
    (points / maxPoints as real * BAR_LENGTH as real).Floor
  }

  function Repeat(c: char, n: nat): (s: string)
    ensures |s| == n && forall i :: 0 <= i < n ==> s[i] == c
  {
    seq(n, _ => c)
  }

  /** The jam bar, or None where building it throws (a negative repeat count: a meter below
      zero or more than 10% above its ceiling). */
  function JamBar(points: real, maxPoints: int): (r: Option<string>)
    requires maxPoints > 0
    ensures r.Some? <==> 0 <= FilledCells(points, maxPoints) <= BAR_LENGTH
    ensures r.Some? ==> |r.value| == BAR_LENGTH
    ensures r.Some? ==>
      forall i :: 0 <= i < BAR_LENGTH ==> (r.value[i] == BAR_FILLED <==> i < FilledCells(points, maxPoints))
  {
    var filled := FilledCells(points, maxPoints);
    if 0 <= filled <= BAR_LENGTH then Some(Repeat(BAR_FILLED, filled) + Repeat(BAR_EMPTY, BAR_LENGTH - filled))
    else None
  }

  /** For a meter within [0, maxPoints] the bar exists, is BAR_LENGTH cells long, and its
      filled cells come first and number floor(10 * points / maxPoints). */
  lemma JamBarShape(points: real, maxPoints: int)
    requires maxPoints > 0 && 0.0 <= points <= maxPoints as real
    ensures var f := FilledCells(points, maxPoints);
      0 <= f <= BAR_LENGTH &&
      (f as real) * (maxPoints as real) <= 10.0 * points < ((f + 1) as real) * (maxPoints as real) &&
      JamBar(points, maxPoints).Some? &&
      |JamBar(points, maxPoints).value| == BAR_LENGTH &&
      forall i :: 0 <= i < BAR_LENGTH ==>
        (JamBar(points, maxPoints).value[i] == BAR_FILLED <==> i < f)
  {
    var m := maxPoints as real;
    var x := points / m * BAR_LENGTH as real;
    ScaledFraction(points, m);
    assert x == points / m * 10.0;
    FloorTimes(x, m, 10.0 * points);
  }

  /** points / m * 10 lies in [0, 10] for points in [0, m], and times m it gives 10 * points. */
  lemma ScaledFraction(points: real, m: real)
    requires m > 0.0 && 0.0 <= points <= m
    ensures 0.0 <= points / m * 10.0 <= 10.0
    ensures points / m * 10.0 * m == 10.0 * points
  {
    var y := points / m;
    assert y * m == points;
    if y > 1.0 { MulStrict(1.0, y, m); }
    if y < 0.0 { MulStrict(y, 0.0, m); }
  }

  /** Multiplying floor(x) <= x < floor(x) + 1 through by a positive m, where prod = x * m. */
  lemma FloorTimes(x: real, m: real, prod: real)
    requires m > 0.0 && x >= 0.0 && prod == x * m
    ensures (x.Floor as real) * m <= prod
    ensures prod < ((x.Floor + 1) as real) * m
  {
    var below := x.Floor as real;
    var above := (x.Floor + 1) as real;
    assert below <= x < above;
    MulStrict(x, above, m);
    assert prod < above * m;
    MulMono(below, x, m, m);
  }

  lemma MulStrict(a: real, b: real, m: real)
    requires a < b && m > 0.0
    ensures a * m < b * m
  {
    assert (b - a) * m > 0.0;
  }

  /** Building the bar throws once the meter is at least 10% over its ceiling. */
  lemma JamBarThrowsOnOverflow(points: real, maxPoints: int)
    requires maxPoints > 0 && points >= 1.1 * maxPoints as real
    ensures JamBar(points, maxPoints).None?
  {
    var m := maxPoints as real;
    assert points / m >= 1.1;
  }

  /** More points never show fewer filled cells. */
  lemma FilledCellsMonotone(p: real, q: real, maxPoints: int)
    requires maxPoints > 0 && p <= q
    ensures FilledCells(p, maxPoints) <= FilledCells(q, maxPoints)
  {
    var m := maxPoints as real;
    assert p / m <= q / m;
  }

  /** The tier the player's meter is in for a given draw of the ranges, looked up as
      `getPlayerStats` and `attemptUpgrade` do: on the raw points, falling back to the top. */
  function TierOf(row: PlayerRow, splits: seq<real>): UpgradeRange
    requires ValidSplits(splits)
  {
    var ranges := UpgradeRanges(row.maxPoints, splits);
    UpgradeRangesShape(row.maxPoints, splits);
    ranges[CurrentRangeIndex(row.currentPoints, ranges)]
  }

  /** The tier under the corrected lookup on the floored points. */
  function CorrectedTierOf(row: PlayerRow, splits: seq<real>): UpgradeRange
    requires ValidSplits(splits)
  {
    var ranges := UpgradeRanges(row.maxPoints, splits);
    UpgradeRangesShape(row.maxPoints, splits);
    ranges[CurrentTierIndex(row.currentPoints, ranges)]
  }

  predicate CanUpgrade(row: PlayerRow, splits: seq<real>)
    requires ValidSplits(splits)
  {
    TierOf(row, splits).levelBonus > 0
  }

  /** `getPlayerStats`, or None where building the jam bar throws. */
  function PlayerStatsOf(row: PlayerRow, splits: seq<real>, now: int): (r: Option<PlayerStats>)
    requires ValidSplits(splits) && row.maxPoints > 0
    ensures r.Some? <==> 0 <= FilledCells(row.currentPoints, row.maxPoints) <= BAR_LENGTH
    ensures r.Some? ==>
      r.value.player == row && r.value.aesthetic == Aesthetic(row.breadLevel) &&
      r.value.jamLevel == TierOf(row, splits).jamLevel &&
      (r.value.canUpgrade <==> TierOf(row, splits).levelBonus > 0) &&
      (r.value.isBoosted <==> now < row.boostExpiresAt) &&
      |r.value.jamBar| == BAR_LENGTH
    ensures r.Some? ==> Some(r.value.jamBar) == JamBar(row.currentPoints, row.maxPoints)
  {
    var bar := JamBar(row.currentPoints, row.maxPoints);
    if bar.None? then None
    else Some(PlayerStats(row, Aesthetic(row.breadLevel), TierOf(row, splits).jamLevel, bar.value,
                          CanUpgrade(row, splits), row.boostExpiresAt > now))
  }

  /** For a meter in [0, maxPoints] the view exists; it reports the level's aesthetic, the
      tier's jam label, an upgrade as possible exactly when the tier gives levels, and a boost
      as active exactly while its expiry lies in the future. */
  lemma PlayerStatsFields(row: PlayerRow, splits: seq<real>, now: int)
    requires ValidSplits(splits) && row.maxPoints > 0
    requires 0.0 <= row.currentPoints <= row.maxPoints as real
    ensures var st := PlayerStatsOf(row, splits, now);
      st.Some? && st.value.player == row &&
      st.value.aesthetic == Aesthetic(row.breadLevel) &&
      |st.value.jamBar| == BAR_LENGTH &&
      Some(st.value.jamBar) == JamBar(row.currentPoints, row.maxPoints) &&
      (forall i :: 0 <= i < BAR_LENGTH ==>
         (st.value.jamBar[i] == BAR_FILLED <==> i < FilledCells(row.currentPoints, row.maxPoints))) &&
      (st.value.canUpgrade <==> TierOf(row, splits).levelBonus > 0) &&
      (st.value.isBoosted <==> now < row.boostExpiresAt)
  {
    JamBarShape(row.currentPoints, row.maxPoints);
  }

  /** A fresh or just-upgraded meter (0 points, ceiling of at least 13) is shown as
      "Not Ready", not upgradable, with an empty bar. */
  lemma StatsAtZeroPoints(row: PlayerRow, splits: seq<real>, now: int)
    requires ValidSplits(splits) && row.maxPoints >= MIN_WIDE_MAX_POINTS && row.currentPoints == 0.0
    ensures var st := PlayerStatsOf(row, splits, now);
      st.Some? && !st.value.canUpgrade && st.value.jamLevel == NOT_READY_JAM &&
      forall i :: 0 <= i < BAR_LENGTH ==> st.value.jamBar[i] == BAR_EMPTY
  {
    ZeroPointsNotReady(row.maxPoints, splits);
    UpgradeRangesShape(row.maxPoints, splits);
    JamBarShape(0.0, row.maxPoints);
  }

  /** A full meter is shown in the "PERFECT" tier, upgradable, with a full bar. */
  lemma StatsAtFullMeter(row: PlayerRow, splits: seq<real>, now: int)
    requires ValidSplits(splits) && row.maxPoints >= 1 && row.currentPoints == row.maxPoints as real
    ensures var st := PlayerStatsOf(row, splits, now);
      st.Some? && st.value.canUpgrade && st.value.jamLevel == "PERFECT" &&
      forall i :: 0 <= i < BAR_LENGTH ==> st.value.jamBar[i] == BAR_FILLED
  {
    MaxPointsInTopRange(row.maxPoints, splits);
    UpgradeRangesShape(row.maxPoints, splits);
    JamBarShape(row.currentPoints, row.maxPoints);
  }

  // ---------------------------------------------------------------------------------------
  // Upgrade

  datatype UpgradeResult = UpgradeResult(success: bool, levelsGained: int)

  /** Levels lost on an overflowed upgrade: floor(level * 10%). */
  function OverflowLoss(level: int): int
  {
    (level as real * 0.1).Floor
  }

  /** The row and the result `attemptUpgrade` produces. */
  function UpgradeOutcome(row: PlayerRow, splits: seq<real>, now: int): (PlayerRow, UpgradeResult)
    requires ValidSplits(splits)
  {
    UpgradeIn(row, TierOf(row, splits), now)
  }

  /** The same attempt under the corrected lookup. */
  function CorrectedUpgradeOutcome(row: PlayerRow, splits: seq<real>, now: int): (PlayerRow, UpgradeResult)
    requires ValidSplits(splits)
  {
    UpgradeIn(row, CorrectedTierOf(row, splits), now)
  }

  /** The upgrade attempt once the tier is known: refuse a tier giving nothing, penalise an
      overflowing meter, otherwise add the tier's bonus. */
  function UpgradeIn(row: PlayerRow, tier: UpgradeRange, now: int): (PlayerRow, UpgradeResult)
  {
    if tier.levelBonus == 0 then (row, UpgradeResult(false, 0))
    else if row.currentPoints > row.maxPoints as real then
      var lost := OverflowLoss(row.breadLevel);
      (row.(breadLevel := Max(1, row.breadLevel - lost), currentPoints := 0.0, lastUpgradeAt := now),
       UpgradeResult(false, -lost))
    else
      (row.(breadLevel := row.breadLevel + tier.levelBonus, currentPoints := 0.0, lastUpgradeAt := now),
       UpgradeResult(true, tier.levelBonus))
  }

  /** `attemptUpgrade`: mutates the player object in place. */
  method AttemptUpgrade(p: Player, splits: seq<real>, now: int) returns (result: UpgradeResult)
    requires ValidSplits(splits)
    modifies p
    ensures (p.Row(), result) == UpgradeOutcome(old(p.Row()), splits, now)
  {
    var ranges := GenerateUpgradeRanges(p.maxPoints, splits);
    var currentRange := GetCurrentRange(p.currentPoints, ranges);
    if currentRange.levelBonus == 0 {
      return UpgradeResult(false, 0);
    }
    if p.currentPoints > p.maxPoints as real {
      var levelsLost := (p.breadLevel as real * 0.1).Floor;
      p.breadLevel := Max(1, p.breadLevel - levelsLost);
      p.currentPoints := 0.0;
      p.lastUpgradeAt := now;
      return UpgradeResult(false, -levelsLost);
    }
    p.breadLevel := p.breadLevel + currentRange.levelBonus;
    p.currentPoints := 0.0;
    p.lastUpgradeAt := now;
    return UpgradeResult(true, currentRange.levelBonus);
  }

  /** Level loss on overflow: a tenth of the level rounded down, never below level 1 after. */
  lemma OverflowLossBounds(level: int)
    requires level >= 1
    ensures OverflowLoss(level) == level / 10
    ensures 0 <= OverflowLoss(level) < level || level == 1
    ensures Max(1, level - OverflowLoss(level)) == level - level / 10
  {
    var x := level as real * 0.1;
    assert (level / 10) as real <= x < (level / 10 + 1) as real;
  }

  /** The upgrade does nothing exactly when the tier gives no levels; otherwise it empties
      the meter and stamps the time. Upgrading is possible in the stats view exactly when the
      upgrade changes the player (for a non-negative ceiling). */
  lemma UpgradeChangesIffCanUpgrade(row: PlayerRow, splits: seq<real>, now: int)
    requires ValidSplits(splits) && row.maxPoints >= 0
    ensures var (after, res) := UpgradeOutcome(row, splits, now);
      (CanUpgrade(row, splits) <==> after != row) &&
      (!CanUpgrade(row, splits) ==> after == row && res == UpgradeResult(false, 0)) &&
      (CanUpgrade(row, splits) ==> after.currentPoints == 0.0 && after.lastUpgradeAt == now)
  {
    UpgradeRangesShape(row.maxPoints, splits);
    var tier := TierOf(row, splits);
    assert tier.levelBonus >= 0;
    if tier.levelBonus > 0 && row.currentPoints <= row.maxPoints as real {
      assert UpgradeOutcome(row, splits, now).0.breadLevel == row.breadLevel + tier.levelBonus;
    }
  }

  /** A successful upgrade (meter within the ceiling, tier above "not ready") adds exactly the
      tier's bonus, one of the ladder's values 1, 2, 4, 10, 20 or 50. */
  lemma UpgradeSuccessAddsBonus(row: PlayerRow, splits: seq<real>, now: int)
    requires ValidSplits(splits) && CanUpgrade(row, splits) && row.currentPoints <= row.maxPoints as real
    ensures var (after, res) := UpgradeOutcome(row, splits, now);
      res.success && res.levelsGained == TierOf(row, splits).levelBonus &&
      res.levelsGained in {1, 2, 4, 10, 20, 50} &&
      after == row.(breadLevel := row.breadLevel + res.levelsGained, currentPoints := 0.0, lastUpgradeAt := now)
  {
    UpgradeRangesShape(row.maxPoints, splits);
    var ranges := UpgradeRanges(row.maxPoints, splits);
    var k := CurrentRangeIndex(row.currentPoints, ranges);
    assert k >= 1;
    assert ranges[k].levelBonus == UPGRADE_RANGES[k - 1].levelBonus;
  }

  /** Upgrading at a full meter always gains 50 levels. */
  lemma UpgradeAtFullMeter(row: PlayerRow, splits: seq<real>, now: int)
    requires ValidSplits(splits) && row.maxPoints >= 1 && row.currentPoints == row.maxPoints as real
    ensures UpgradeOutcome(row, splits, now).1 == UpgradeResult(true, 50)
    ensures UpgradeOutcome(row, splits, now).0.breadLevel == row.breadLevel + 50
  {
    MaxPointsInTopRange(row.maxPoints, splits);
  }

  /** A meter strictly between two ranges (half a point above the top of any range but the
      last) matches no range, so the lookup falls back to the top range and the upgrade gains
      50 levels; the corrected lookup keeps the meter in its own range, which gives fewer. */
  lemma GapPointUpgradesAsWritten(row: PlayerRow, splits: seq<real>, now: int, k: nat)
    requires ValidSplits(splits) && row.maxPoints >= MIN_WIDE_MAX_POINTS && k < RANGE_SPLITS
    requires row.currentPoints == UpgradeRanges(row.maxPoints, splits)[k].max as real + 0.5
    ensures CanUpgrade(row, splits)
    ensures UpgradeOutcome(row, splits, now) ==
      (row.(breadLevel := row.breadLevel + 50, currentPoints := 0.0, lastUpgradeAt := now), UpgradeResult(true, 50))
    ensures CorrectedTierOf(row, splits) == UpgradeRanges(row.maxPoints, splits)[k]
    ensures CorrectedUpgradeOutcome(row, splits, now).1.levelsGained == CorrectedTierOf(row, splits).levelBonus < 50
  {
    var r := UpgradeRanges(row.maxPoints, splits);
    UpgradeRangesShape(row.maxPoints, splits);
    UpgradeRangesWellFormed(row.maxPoints, splits);
    GapPointsFallToTopTier(r, row.maxPoints, k);
  }

  /** Upgrading an overflowed meter (above its ceiling) always fails and costs a tenth of
      the level, rounded down, keeping the level at 1 or above. */
  lemma UpgradeOverflowPenalty(row: PlayerRow, splits: seq<real>, now: int)
    requires ValidSplits(splits) && row.maxPoints >= 1 && row.currentPoints > row.maxPoints as real
    requires row.breadLevel >= 1
    ensures var (after, res) := UpgradeOutcome(row, splits, now);
      res == UpgradeResult(false, -(row.breadLevel / 10)) &&
      after == row.(breadLevel := row.breadLevel - row.breadLevel / 10, currentPoints := 0.0, lastUpgradeAt := now) &&
      1 <= after.breadLevel <= row.breadLevel
  {
    OverflowInTopRange(row.maxPoints, splits, row.currentPoints);
    OverflowLossBounds(row.breadLevel);
  }

  /** A meter at 0 with a ceiling of at least 13 cannot be upgraded. */
  lemma UpgradeAtZeroPointsFails(row: PlayerRow, splits: seq<real>, now: int)
    requires ValidSplits(splits) && row.maxPoints >= MIN_WIDE_MAX_POINTS && row.currentPoints == 0.0
    ensures UpgradeOutcome(row, splits, now) == (row, UpgradeResult(false, 0))
  {
    ZeroPointsNotReady(row.maxPoints, splits);
  }

  /** `resetPointMeter`: empty the meter, restore the starting ceiling and stamp the time. */
  method ResetPointMeter(p: Player, now: int)
    modifies p
    ensures p.Row() == old(p.Row()).(currentPoints := 0.0, maxPoints := INITIAL_MAX_POINTS, lastUpgradeAt := now)
  {
    p.currentPoints := 0.0;
    p.maxPoints := INITIAL_MAX_POINTS;
    p.lastUpgradeAt := now;
  }

  /** After a meter reset the player is "not ready" whatever the draws. */
  lemma ResetLeavesNotReady(row: PlayerRow, splits: seq<real>, now: int, later: int)
    requires ValidSplits(splits)
    ensures var reset := row.(currentPoints := 0.0, maxPoints := INITIAL_MAX_POINTS, lastUpgradeAt := now);
      !CanUpgrade(reset, splits) && UpgradeOutcome(reset, splits, later) == (reset, UpgradeResult(false, 0))
  {
    var reset := row.(currentPoints := 0.0, maxPoints := INITIAL_MAX_POINTS, lastUpgradeAt := now);
    UpgradeAtZeroPointsFails(reset, splits, later);
  }
}
