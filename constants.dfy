/** Game-mechanics constants and the two literal tables (upgrade tiers, aesthetic milestones). */
module Constants {

  /** Number of most-recent messages per channel that share in a point award. */
  const POINT_DISTRIBUTION_WINDOW: int := 10
  const INITIAL_BREAD_LEVEL: int := 1
  const INITIAL_MAX_POINTS: int := 300
  /** +/- 20% variation of the point ceiling when it is re-randomised (as a percentage). */
  const MAX_POINTS_VARIATION_PERCENT: int := 20
  /** Share of levels lost on an overflow (as a percentage). */
  const LEVEL_LOSS_PERCENT: int := 10

  const MS_PER_MINUTE: int := 60 * 1000
  const MS_PER_HOUR: int := 60 * MS_PER_MINUTE

  const BOOST_DURATION_MS: int := 15 * MS_PER_MINUTE
  const BOOST_COOLDOWN_MS: int := 24 * MS_PER_HOUR
  const BOOST_MULTIPLIER: int := 3

  /** One rung of the upgrade ladder: the level bonus and its jam label. */
  datatype TierConfig = TierConfig(levelBonus: int, jamLevel: string)

  const UPGRADE_RANGES: seq<TierConfig> := [
    TierConfig(1, "Light"),
    TierConfig(2, "Spread"),
    TierConfig(4, "Generous"),
    TierConfig(10, "Glazed"),
    TierConfig(20, "Glorious"),
    TierConfig(50, "PERFECT")
  ]

  const NOT_READY_JAM: string := "Not Ready"

  /** Flavour-text thresholds for the number of levels gained by an upgrade. */
  const UPGRADE_LEVEL_EPIC_THRESHOLD: int := 20
  const UPGRADE_LEVEL_GREAT_THRESHOLD: int := 10

  /** A cosmetic name earned once the bread level reaches `level`. */
  datatype Milestone = Milestone(level: int, name: string)

  const AESTHETIC_MILESTONES: seq<Milestone> := [
    Milestone(0, "🍞 Plain Bread"),
    Milestone(5, "🍞 Whole Wheat"),
    Milestone(10, "🥐 Croissant"),
    Milestone(25, "🥖 Baguette"),
    Milestone(50, "🧇 Waffle"),
    Milestone(100, "🥯 Bagel"),
    Milestone(250, "🥨 Pretzel"),
    Milestone(500, "🎂 Cake"),
    Milestone(1000, "👑 Royal Bread"),
    Milestone(2000, "💎 Diamond Bread"),
    Milestone(3000, "🚀 Rocket Bread"),
    Milestone(4000, "🌟 Celestial Bread"),
    Milestone(5000, "🌌 Cosmic Bread"),
    Milestone(7500, "🔥 Inferno Bread"),
    Milestone(10000, "♾️ Infinity Bread")
  ]

  const RANGE_SPLIT_MIN: real := 0.5
  const RANGE_SPLIT_MAX: real := 0.8
  /** One split per upgrade tier: 6 splits give 7 ranges (1 "not ready" + 6 tiers). */
  const RANGE_SPLITS: int := |UPGRADE_RANGES|

  const BAR_LENGTH: int := 10
  const BAR_FILLED: char := '█'
  const BAR_EMPTY: char := '░'

  const POINTS_DISPLAY_DECIMALS: int := 2
  const LEADERBOARD_DISPLAY_SIZE: int := 10
  const MAX_LEADERBOARD_FETCH: int := 100

  function Min(a: int, b: int): int { if a <= b then a else b }
  function Max(a: int, b: int): int { if a >= b then a else b }
  function MinReal(a: real, b: real): real { if a <= b then a else b }
  function MaxReal(a: real, b: real): real { if a >= b then a else b }

  /** The level bonuses of the upgrade ladder rise strictly: 1, 2, 4, 10, 20, 50. */
  lemma UpgradeBonusesStrictlyIncrease()
    ensures |UPGRADE_RANGES| == 6
    ensures forall i, j :: 0 <= i < j < |UPGRADE_RANGES| ==>
      0 < UPGRADE_RANGES[i].levelBonus < UPGRADE_RANGES[j].levelBonus
    ensures UPGRADE_RANGES[|UPGRADE_RANGES| - 1].levelBonus == 50
  {
  }

  /** The milestone thresholds rise strictly and the first one is level 0. */
  lemma MilestonesStrictlyIncrease()
    ensures |AESTHETIC_MILESTONES| == 15 && AESTHETIC_MILESTONES[0].level == 0
    ensures forall i, j :: 0 <= i < j < |AESTHETIC_MILESTONES| ==>
      AESTHETIC_MILESTONES[i].level < AESTHETIC_MILESTONES[j].level
  {
  }

  /** The split count matches the tier count, and the split fractions lie strictly inside (0, 1). */
  lemma RangeSplitConstants()
    ensures RANGE_SPLITS == 6
    ensures 0.0 < RANGE_SPLIT_MIN <= RANGE_SPLIT_MAX < 1.0
  {
  }

  /** Window, starting level and starting ceiling are positive; a boost ends long before its cooldown. */
  lemma ScalarConstants()
    ensures POINT_DISTRIBUTION_WINDOW == 10 && INITIAL_BREAD_LEVEL == 1 && INITIAL_MAX_POINTS == 300
    ensures BOOST_DURATION_MS == 900000 && BOOST_COOLDOWN_MS == 86400000
    ensures 0 < BOOST_DURATION_MS < BOOST_COOLDOWN_MS
    ensures BAR_LENGTH == 10 && BOOST_MULTIPLIER == 3
  {
  }
}
