/** The records the engine passes around, and the mutable player object. */
module Models {
  import opened Constants

  datatype Option<T> = None | Some(value: T)

  /** One row of the players table, keyed by (userId, guildId). Timestamps are epoch
      milliseconds, 0 meaning "never". Points may be fractional. */
  datatype PlayerRow = PlayerRow(
    userId: string,
    guildId: string,
    breadLevel: int,
    currentPoints: real,
    maxPoints: int,
    lastUpgradeAt: int,
    lastBoostUsed: int,
    boostExpiresAt: int)

  /** The row a player starts with the first time they are referenced. */
  function NewPlayerRow(userId: string, guildId: string): (r: PlayerRow)
    ensures r.userId == userId && r.guildId == guildId
    ensures r.breadLevel == 1 && r.currentPoints == 0.0 && r.maxPoints == 300
    ensures r.lastUpgradeAt == 0 && r.lastBoostUsed == 0 && r.boostExpiresAt == 0
  {
    PlayerRow(userId, guildId, INITIAL_BREAD_LEVEL, 0.0, INITIAL_MAX_POINTS, 0, 0, 0)
  }

  /** The in-memory player object handed out by the repository. Game logic mutates it in
      place; the change reaches the table only when it is written back. */
  class Player {
    const userId: string
    const guildId: string
    var breadLevel: int
    var currentPoints: real
    var maxPoints: int
    var lastUpgradeAt: int
    var lastBoostUsed: int
    var boostExpiresAt: int

    function Row(): PlayerRow
      reads this
    {
      PlayerRow(userId, guildId, breadLevel, currentPoints, maxPoints,
                lastUpgradeAt, lastBoostUsed, boostExpiresAt)
    }

    constructor FromRow(r: PlayerRow)
      ensures Row() == r
    {
      userId, guildId := r.userId, r.guildId;
      breadLevel, currentPoints, maxPoints := r.breadLevel, r.currentPoints, r.maxPoints;
      lastUpgradeAt, lastBoostUsed, boostExpiresAt := r.lastUpgradeAt, r.lastBoostUsed, r.boostExpiresAt;
    }
  }

  /** A message remembered in a channel's recency window; position 0 is the newest. */
  datatype TrackedMessage = TrackedMessage(
    messageId: string,
    channelId: string,
    guildId: string,
    userId: string,
    timestamp: int,
    position: int)

  /** An upgrade tier over the point meter: points in [min, max] give `levelBonus` levels. */
  datatype UpgradeRange = UpgradeRange(min: int, max: int, levelBonus: int, jamLevel: string)

  /** Reported when a point award overflowed a player's meter. */
  datatype PenaltyInfo = PenaltyInfo(userId: string, levelsLost: int, oldLevel: int, newLevel: int)

  datatype Channel = Channel(channelId: string, guildId: string, isActive: bool)

  datatype LeaderboardEntry = LeaderboardEntry(userId: string, breadLevel: int, aesthetic: string)

  datatype PlayerStats = PlayerStats(
    player: PlayerRow,
    aesthetic: string,
    jamLevel: string,
    jamBar: string,
    canUpgrade: bool,
    isBoosted: bool)
}
