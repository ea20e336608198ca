/** The façade the bot's commands call: it gates chat by channel, runs upgrades and writes
    back only successful ones, and applies the admins' point and level adjustments. */
module Game {
  import opened Constants
  import opened Models
  import opened RangeGenerator
  import opened BreadManager
  import opened PlayerRepo
  import opened ChannelRepo
  import opened PointTracking

  /** What `upgradePlayerBread` reports. */
  datatype UpgradeReport = UpgradeReport(success: bool, levelsGained: int, newLevel: int, aesthetic: string)

  /** `upgradePlayerBread` on the table: attempt on the (possibly new) player, persist only a
      success, report the level of the in-memory player after the attempt. */
  function UpgradeOn(rows: PlayerTable, userId: string, guildId: string, splits: seq<real>, now: int): (PlayerTable, UpgradeReport)
    requires ValidSplits(splits)
  {
    var rows1 := WithPlayer(rows, userId, guildId);
    var (after, res) := UpgradeOutcome(rows1[(userId, guildId)], splits, now);
    (if res.success then UpdatedRows(rows1, after) else rows1,
     UpgradeReport(res.success, res.levelsGained, after.breadLevel, Aesthetic(after.breadLevel)))
  }

  /** Some leaderboard entry is for user u. */
  predicate Listed(entries: seq<LeaderboardEntry>, u: string)
  {
    exists i :: 0 <= i < |entries| && entries[i].userId == u
  }

  /** Entries copied from the ranked top rows of a guild list their players in rank order,
      and a guild player none of them names ranks after each of them. */
  lemma EntriesKeepRanking(players: PlayerTable, guildId: string, top: seq<PlayerRow>,
                           entries: seq<LeaderboardEntry>)
    requires RowsKeyed(players) && Ranked(top) && |entries| == |top|
    requires forall i :: 0 <= i < |top| ==>
      (top[i].userId, guildId) in players && players[(top[i].userId, guildId)] == top[i]
    requires forall i :: 0 <= i < |top| ==>
      entries[i].userId == top[i].userId && entries[i].breadLevel == top[i].breadLevel
    requires forall k :: k in players && k.1 == guildId && players[k] !in top ==>
      forall i :: 0 <= i < |top| ==> RankedBefore(top[i], players[k])
    ensures forall i, j :: 0 <= i < j < |entries| ==>
      (entries[i].userId, guildId) in players && (entries[j].userId, guildId) in players &&
      RankedBefore(players[(entries[i].userId, guildId)], players[(entries[j].userId, guildId)]) &&
      entries[i].breadLevel >= entries[j].breadLevel
    ensures forall k :: k in players && k.1 == guildId && !Listed(entries, k.0) ==>
      forall i :: 0 <= i < |entries| ==>
        (entries[i].userId, guildId) in players &&
        RankedBefore(players[(entries[i].userId, guildId)], players[k]) &&
        entries[i].breadLevel >= players[k].breadLevel
  {
    forall k | k in players && k.1 == guildId && !Listed(entries, k.0)
      ensures players[k] !in top
    {
      forall j | 0 <= j < |top|
        ensures top[j] != players[k]
      {
        assert entries[j].userId != k.0;
      }
    }
  }

  /** `givePoints` on a row: add, floor at 0, cap at the ceiling. */
  function GivenPoints(row: PlayerRow, amount: real): real
  {
    MinReal(MaxReal(0.0, row.currentPoints + amount), row.maxPoints as real)
  }

  /** `giveLevels` on a row: add, but never below level 1. */
  function GivenLevel(row: PlayerRow, amount: int): int
  {
    Max(1, row.breadLevel + amount)
  }

  /** The ids `getActiveChannels` lists for a guild. */
  function ActiveChannelIds(flags: ChannelFlags, guildId: string): set<string>
  {
    set c | c in ActiveChannels(flags, guildId) :: c.channelId
  }

  // ---------------------------------------------------------------------------------------
  // Lemmas

  /** A channel id is listed for a guild exactly when it is enabled there. */
  lemma ActiveChannelIdsExact(flags: ChannelFlags, guildId: string)
    ensures forall id :: id in ActiveChannelIds(flags, guildId) <==> ChannelActive(flags, id, guildId)
  {
    ActiveChannelsExact(flags, guildId);
    forall id | ChannelActive(flags, id, guildId)
      ensures id in ActiveChannelIds(flags, guildId)
    {
      assert Channel(id, guildId, true) in ActiveChannels(flags, guildId);
    }
  }

  /** A failed attempt, the overflow penalty included, leaves the stored player as it was
      (created if it was missing); a success stores exactly the upgraded row. The report
      carries the attempt's result and the aesthetic of the level it reports. */
  lemma UpgradePersistsOnlySuccess(rows: PlayerTable, userId: string, guildId: string, splits: seq<real>, now: int)
    requires ValidSplits(splits) && RowsKeyed(rows)
    ensures var rows1 := WithPlayer(rows, userId, guildId);
      var (after, res) := UpgradeOutcome(rows1[(userId, guildId)], splits, now);
      var (stored, report) := UpgradeOn(rows, userId, guildId, splits, now);
      report.success == res.success && report.levelsGained == res.levelsGained &&
      report.newLevel == after.breadLevel && report.aesthetic == Aesthetic(report.newLevel) &&
      (!res.success ==> stored == rows1) &&
      (res.success ==> stored == rows1[(userId, guildId) := after])
  {
    var rows1 := WithPlayer(rows, userId, guildId);
    WithPlayerEffect(rows, userId, guildId);
    var (after, res) := UpgradeOutcome(rows1[(userId, guildId)], splits, now);
    if res.success {
      UpdatedRowsEffect(rows1, after);
      assert after.userId == userId && after.guildId == guildId;
    }
  }

  /** On an overflowing meter the report shows the penalised level while the table keeps the
      old one: the penalty is never written back. */
  lemma OverflowReportedNotStored(rows: PlayerTable, userId: string, guildId: string, splits: seq<real>, now: int)
    requires ValidSplits(splits) && RowsKeyed(rows) && (userId, guildId) in rows
    requires var row := rows[(userId, guildId)];
      row.breadLevel >= 10 && row.maxPoints >= 1 && row.currentPoints > row.maxPoints as real
    ensures var (stored, report) := UpgradeOn(rows, userId, guildId, splits, now);
      stored == rows && !report.success && report.levelsGained < 0 &&
      report.newLevel < stored[(userId, guildId)].breadLevel
  {
    var row := rows[(userId, guildId)];
    UpgradeOverflowPenalty(row, splits, now);
  }

  /** `givePoints` keeps the meter in [0, ceiling] for a non-negative ceiling, reaches the
      requested total when it lies in that range, and never touches the level or ceiling. */
  lemma GivePointsClamps(row: PlayerRow, amount: real)
    requires row.maxPoints >= 0
    ensures 0.0 <= GivenPoints(row, amount) <= row.maxPoints as real
    ensures 0.0 <= row.currentPoints + amount <= row.maxPoints as real ==>
      GivenPoints(row, amount) == row.currentPoints + amount
    ensures row.currentPoints + amount < 0.0 ==> GivenPoints(row, amount) == 0.0
    ensures row.currentPoints + amount > row.maxPoints as real ==> GivenPoints(row, amount) == row.maxPoints as real
  {
  }

  /** `giveLevels` always leaves a level of at least 1, and exactly level + amount when that is. */
  lemma GiveLevelsFloor(row: PlayerRow, amount: int)
    ensures GivenLevel(row, amount) >= 1
    ensures row.breadLevel + amount >= 1 ==> GivenLevel(row, amount) == row.breadLevel + amount
    ensures row.breadLevel + amount < 1 ==> GivenLevel(row, amount) == 1
  {
  }

  /** Enabling a channel lists it for its guild; disabling it removes it; other channels keep
      their listing. */
  lemma EnableDisableListing(flags: ChannelFlags, channelId: string, guildId: string, other: string)
    requires other != channelId
    ensures channelId in ActiveChannelIds(flags[(channelId, guildId) := true], guildId)
    ensures channelId !in ActiveChannelIds(flags[(channelId, guildId) := false], guildId)
    ensures other in ActiveChannelIds(flags[(channelId, guildId) := true], guildId) <==>
            other in ActiveChannelIds(flags, guildId)
  {
    var on := flags[(channelId, guildId) := true];
    var off := flags[(channelId, guildId) := false];
    ActiveChannelsExact(on, guildId);
    ActiveChannelsExact(off, guildId);
    ActiveChannelsExact(flags, guildId);
    assert Channel(channelId, guildId, true) in ActiveChannels(on, guildId);
    if other in ActiveChannelIds(on, guildId) {
      var c :| c in ActiveChannels(on, guildId) && c.channelId == other;
      assert Channel(other, guildId, true) in ActiveChannels(flags, guildId);
    }
    if other in ActiveChannelIds(flags, guildId) {
      var c :| c in ActiveChannels(flags, guildId) && c.channelId == other;
      assert Channel(other, guildId, true) in ActiveChannels(on, guildId);
    }
  }

  // ---------------------------------------------------------------------------------------
  // The service

  class GameService {
    const playerRepo: PlayerRepository
    const channelRepo: ChannelRepository
    const pointTracker: PointTracker

    predicate Valid()
      reads this, playerRepo, channelRepo, pointTracker
    {
      playerRepo.Valid() && channelRepo.Valid() &&
      pointTracker.playerRepo == playerRepo && pointTracker.channelRepo == channelRepo
    }

    constructor ()
      ensures Valid() && fresh(playerRepo) && fresh(channelRepo) && fresh(pointTracker)
      ensures playerRepo.players == map[] && channelRepo.flags == map[] && channelRepo.windows == map[]
    {
      var players := new PlayerRepository();
      var channels := new ChannelRepository();
      playerRepo := players;
      channelRepo := channels;
      pointTracker := new PointTracker(channels, players);
    }

    /** `getPlayerStats` for a (possibly new) player; None where the source's bar throws. */
    method GetPlayerStats(userId: string, guildId: string, splits: seq<real>, now: int)
      returns (stats: Option<PlayerStats>)
      requires Valid() && ValidSplits(splits)
      requires (userId, guildId) in playerRepo.players ==> playerRepo.players[(userId, guildId)].maxPoints > 0
      modifies playerRepo
      ensures Valid()
      ensures playerRepo.players == WithPlayer(old(playerRepo.players), userId, guildId)
      ensures stats == PlayerStatsOf(playerRepo.players[(userId, guildId)], splits, now)
    {
      var player := playerRepo.GetOrCreatePlayer(userId, guildId);
      stats := PlayerStatsOf(player.Row(), splits, now);
    }

    method UpgradePlayerBread(userId: string, guildId: string, splits: seq<real>, now: int)
      returns (report: UpgradeReport)
      requires Valid() && ValidSplits(splits)
      modifies playerRepo
      ensures Valid()
      ensures (playerRepo.players, report) == UpgradeOn(old(playerRepo.players), userId, guildId, splits, now)
    {
      var player := playerRepo.GetOrCreatePlayer(userId, guildId);
      var result := AttemptUpgrade(player, splits, now);
      if result.success {
        playerRepo.UpdatePlayer(player);
      }
      var aesthetic := GetAesthetic(player.breadLevel);
      report := UpgradeReport(result.success, result.levelsGained, player.breadLevel, aesthetic);
    }

    /** `getLeaderboard`: the guild's top rows in leaderboard order, each with its aesthetic. */
    method GetLeaderboard(guildId: string, limit: int) returns (entries: seq<LeaderboardEntry>)
      requires Valid()
      ensures limit >= 0 ==> |entries| <= limit
      ensures forall i, j :: 0 <= i < j < |entries| ==> entries[i].breadLevel >= entries[j].breadLevel
      ensures forall i, j :: 0 <= i < j < |entries| ==>
        (entries[i].userId, guildId) in playerRepo.players && (entries[j].userId, guildId) in playerRepo.players &&
        RankedBefore(playerRepo.players[(entries[i].userId, guildId)], playerRepo.players[(entries[j].userId, guildId)])
      ensures forall i, j :: 0 <= i < j < |entries| ==> entries[i].userId != entries[j].userId
      ensures forall i :: 0 <= i < |entries| ==>
        (entries[i].userId, guildId) in playerRepo.players &&
        entries[i].breadLevel == playerRepo.players[(entries[i].userId, guildId)].breadLevel &&
        entries[i].aesthetic == Aesthetic(entries[i].breadLevel)
      ensures limit < 0 || |entries| < limit ==>
        forall k :: k in playerRepo.players && k.1 == guildId ==>
          exists i :: 0 <= i < |entries| && entries[i].userId == k.0
      ensures forall k :: k in playerRepo.players && k.1 == guildId && !Listed(entries, k.0) ==>
        forall i :: 0 <= i < |entries| ==> entries[i].breadLevel >= playerRepo.players[k].breadLevel
      ensures forall k :: k in playerRepo.players && k.1 == guildId && !Listed(entries, k.0) ==>
        forall i :: 0 <= i < |entries| ==>
          (entries[i].userId, guildId) in playerRepo.players &&
          RankedBefore(playerRepo.players[(entries[i].userId, guildId)], playerRepo.players[k])
    {
      var topPlayers := playerRepo.GetTopPlayers(guildId, limit);
      entries := [];
      var i := 0;
      while i < |topPlayers|
        invariant 0 <= i <= |topPlayers| && |entries| == i
        invariant forall j :: 0 <= j < i ==>
          entries[j].userId == topPlayers[j].userId && entries[j].breadLevel == topPlayers[j].breadLevel &&
          entries[j].aesthetic == Aesthetic(topPlayers[j].breadLevel)
      {
        var aesthetic := GetAesthetic(topPlayers[i].breadLevel);
        entries := entries + [LeaderboardEntry(topPlayers[i].userId, topPlayers[i].breadLevel, aesthetic)];
        i := i + 1;
      }
      EntriesKeepRanking(playerRepo.players, guildId, topPlayers, entries);
      if limit < 0 || |entries| < limit {
        forall k | k in playerRepo.players && k.1 == guildId
          ensures exists i :: 0 <= i < |entries| && entries[i].userId == k.0
        {
          var i :| 0 <= i < |topPlayers| && topPlayers[i] == playerRepo.players[k];
          assert entries[i].userId == k.0;
        }
      }
    }

    /** `processMessage`: outside an enabled channel nothing happens; inside one the tracker
        runs with the message stamped `now`. */
    method ProcessMessage(messageId: string, channelId: string, guildId: string, userId: string,
                          policy: AddPointsPolicy, rerolls: seq<int>, now: int)
      returns (penalties: seq<PenaltyInfo>)
      requires Valid() && channelRepo.FreshId(messageId)
      requires |rerolls| >= POINT_DISTRIBUTION_WINDOW && DrawnCeilings(rerolls)
      modifies playerRepo, channelRepo
      ensures Valid()
      ensures channelRepo.flags == old(channelRepo.flags)
      ensures !ChannelActive(old(channelRepo.flags), channelId, guildId) ==>
        penalties == [] && playerRepo.players == old(playerRepo.players) &&
        channelRepo.windows == old(channelRepo.windows)
      ensures ChannelActive(old(channelRepo.flags), channelId, guildId) ==>
        ValidWindow(WindowOf(old(channelRepo.windows), channelId), channelId) &&
        (playerRepo.players, channelRepo.windows, penalties) ==
          ProcessOn(old(playerRepo.players), old(channelRepo.windows),
                    TrackedMessage(messageId, channelId, guildId, userId, now, 0), policy, rerolls, now)
    {
      if !channelRepo.IsChannelActive(channelId, guildId) {
        return [];
      }
      penalties := pointTracker.ProcessMessage(messageId, channelId, guildId, userId, now, policy, rerolls, now);
    }

    method EnableChannel(channelId: string, guildId: string)
      requires Valid()
      modifies channelRepo
      ensures Valid()
      ensures channelRepo.flags == old(channelRepo.flags)[(channelId, guildId) := true]
      ensures channelRepo.windows == old(channelRepo.windows)
    {
      channelRepo.SetChannelActive(channelId, guildId, true);
    }

    method DisableChannel(channelId: string, guildId: string)
      requires Valid()
      modifies channelRepo
      ensures Valid()
      ensures channelRepo.flags == old(channelRepo.flags)[(channelId, guildId) := false]
      ensures channelRepo.windows == old(channelRepo.windows)
    {
      channelRepo.SetChannelActive(channelId, guildId, false);
    }

    /** `getActiveChannels(guildId)`: the ids of exactly the guild's enabled channels. */
    function GetActiveChannels(guildId: string): (ids: set<string>)
      reads this, channelRepo
      ensures forall id :: id in ids <==> ChannelActive(channelRepo.flags, id, guildId)
    {
      ActiveChannelIdsExact(channelRepo.flags, guildId);
      ActiveChannelIds(channelRepo.flags, guildId)
    }

    /** `givePoints`: clamp the adjusted meter to [0, ceiling] and write it back. */
    method GivePoints(userId: string, guildId: string, amount: real) returns (newPoints: real, maxPoints: int)
      requires Valid()
      modifies playerRepo
      ensures Valid()
      ensures var row := WithPlayer(old(playerRepo.players), userId, guildId)[(userId, guildId)];
        newPoints == GivenPoints(row, amount) && maxPoints == row.maxPoints &&
        playerRepo.players == WithPlayer(old(playerRepo.players), userId, guildId)[(userId, guildId) := row.(currentPoints := newPoints)]
    {
      var player := playerRepo.GetOrCreatePlayer(userId, guildId);
      player.currentPoints := MaxReal(0.0, player.currentPoints + amount);
      player.currentPoints := MinReal(player.currentPoints, player.maxPoints as real);
      playerRepo.UpdatePlayer(player);
      return player.currentPoints, player.maxPoints;
    }

    /** `giveLevels`: move the level by `amount`, never below 1, and write it back. */
    method GiveLevels(userId: string, guildId: string, amount: int) returns (newLevel: int, aesthetic: string)
      requires Valid()
      modifies playerRepo
      ensures Valid()
      ensures var row := WithPlayer(old(playerRepo.players), userId, guildId)[(userId, guildId)];
        newLevel == GivenLevel(row, amount) && aesthetic == Aesthetic(newLevel) &&
        playerRepo.players == WithPlayer(old(playerRepo.players), userId, guildId)[(userId, guildId) := row.(breadLevel := newLevel)]
    {
      var player := playerRepo.GetOrCreatePlayer(userId, guildId);
      player.breadLevel := Max(1, player.breadLevel + amount);
      playerRepo.UpdatePlayer(player);
      newLevel := player.breadLevel;
      aesthetic := GetAesthetic(newLevel);
    }
  }
}
