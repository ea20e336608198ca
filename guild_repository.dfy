/** The guild settings table, keyed by guildId, as an in-memory map: the starting meter
    ceiling a guild configures and where boost-expiry notices go. */
module GuildRepo {
  import opened Constants
  import opened Models
  import opened RangeGenerator
  import PlayerRepo

  /** One settings row; a NULL channel id is `None`. */
  datatype GuildSettings = GuildSettings(
    guildId: string,
    initialMaxPoints: int,
    boostExpiryChannelId: Option<string>,
    boostExpiryEnabled: bool)

  type SettingsTable = map<string, GuildSettings>

  /** The smallest starting ceiling `setInitialMaxPoints` accepts as written. */
  const MIN_INITIAL_MAX_POINTS_AS_WRITTEN: int := 10

  /** The smallest starting ceiling whose every re-randomised value (80%..120%, floored) still
      gives each of the seven upgrade ranges at least one point. */
  const MIN_INITIAL_MAX_POINTS: int := 17

  /** Every row is stored under its own guildId. */
  predicate RowsKeyed(table: SettingsTable)
  {
    forall g :: g in table ==> table[g].guildId == g
  }

  /** The settings of a guild that has never written any. */
  function DefaultSettings(guildId: string): (s: GuildSettings)
    ensures s.guildId == guildId && s.initialMaxPoints == INITIAL_MAX_POINTS
    ensures s.boostExpiryChannelId == None && !s.boostExpiryEnabled
  {
    GuildSettings(guildId, INITIAL_MAX_POINTS, None, false)
  }

  /** The stored row, or the defaults a first upsert starts from. */
  function StoredOrDefault(table: SettingsTable, guildId: string): GuildSettings
  {
    if guildId in table then table[guildId] else DefaultSettings(guildId)
  }

  /** `channelId || null`: an empty id reads as no channel. */
  function NonEmpty(channelId: Option<string>): (r: Option<string>)
    ensures r.Some? <==> channelId.Some? && channelId.value != ""
    ensures r.Some? ==> r == channelId
  {
    if channelId.Some? && channelId.value != "" then channelId else None
  }

  /** `getSettings`: the stored row with an empty channel id read as none, or the defaults. */
  function ReadSettings(table: SettingsTable, guildId: string): (s: GuildSettings)
    requires RowsKeyed(table)
    ensures s.guildId == guildId
    ensures guildId !in table ==> s == DefaultSettings(guildId)
    ensures guildId in table ==>
      s.initialMaxPoints == table[guildId].initialMaxPoints &&
      s.boostExpiryEnabled == table[guildId].boostExpiryEnabled &&
      (s.boostExpiryChannelId.Some? <==> table[guildId].boostExpiryChannelId.Some? && table[guildId].boostExpiryChannelId.value != "")
    ensures guildId in table ==> s.boostExpiryChannelId == NonEmpty(table[guildId].boostExpiryChannelId)
  {
    var row := StoredOrDefault(table, guildId);
    row.(boostExpiryChannelId := NonEmpty(row.boostExpiryChannelId))
  }

  /** `setInitialMaxPoints` against a given minimum: below it the call throws and nothing is
      written; otherwise the ceiling is upserted and the other columns kept. */
  function InitialMaxWrite(table: SettingsTable, guildId: string, amount: int, minimum: int): (SettingsTable, bool)
  {
    if amount < minimum then (table, false)
    else (table[guildId := StoredOrDefault(table, guildId).(initialMaxPoints := amount)], true)
  }

  /** `setBoostExpiryChannel`: store the channel and enable notices. */
  function ExpiryChannelWrite(table: SettingsTable, guildId: string, channelId: string): SettingsTable
  {
    table[guildId := StoredOrDefault(table, guildId).(boostExpiryChannelId := Some(channelId), boostExpiryEnabled := true)]
  }

  /** `disableBoostExpiryNotifications`: disable notices and clear the channel. */
  function ExpiryDisabledWrite(table: SettingsTable, guildId: string): SettingsTable
  {
    table[guildId := StoredOrDefault(table, guildId).(boostExpiryChannelId := None, boostExpiryEnabled := false)]
  }

  // ---------------------------------------------------------------------------------------
  // Properties of the table operations

  /** A guild never written reads as ceiling 300, notices disabled, no channel. */
  lemma UnknownGuildDefaults(table: SettingsTable, guildId: string)
    requires RowsKeyed(table) && guildId !in table
    ensures ReadSettings(table, guildId) == GuildSettings(guildId, 300, None, false)
  {
  }

  /** A ceiling below the minimum is refused and changes nothing; one at or above it is then
      read back, with the guild's other settings kept. */
  lemma InitialMaxThenRead(table: SettingsTable, guildId: string, amount: int, minimum: int)
    requires RowsKeyed(table)
    ensures var (after, ok) := InitialMaxWrite(table, guildId, amount, minimum);
      RowsKeyed(after) && (ok <==> amount >= minimum) &&
      (!ok ==> after == table) &&
      (ok ==> ReadSettings(after, guildId) == ReadSettings(table, guildId).(initialMaxPoints := amount))
  {
  }

  /** After `setBoostExpiryChannel(g, c)` notices are enabled and the channel reads back as c
      (as none when c is empty); the ceiling is kept. */
  lemma ExpiryChannelThenRead(table: SettingsTable, guildId: string, channelId: string)
    requires RowsKeyed(table)
    ensures var s := ReadSettings(ExpiryChannelWrite(table, guildId, channelId), guildId);
      RowsKeyed(ExpiryChannelWrite(table, guildId, channelId)) &&
      s.boostExpiryEnabled &&
      s.boostExpiryChannelId == (if channelId == "" then None else Some(channelId)) &&
      s.initialMaxPoints == ReadSettings(table, guildId).initialMaxPoints
  {
  }

  /** After `disableBoostExpiryNotifications(g)` notices are off and there is no channel. */
  lemma ExpiryDisabledThenRead(table: SettingsTable, guildId: string)
    requires RowsKeyed(table)
    ensures var s := ReadSettings(ExpiryDisabledWrite(table, guildId), guildId);
      RowsKeyed(ExpiryDisabledWrite(table, guildId)) &&
      !s.boostExpiryEnabled && s.boostExpiryChannelId == None &&
      s.initialMaxPoints == ReadSettings(table, guildId).initialMaxPoints
  {
  }

  /** Each write touches only its own guild's settings. */
  lemma WritesLeaveOtherGuilds(table: SettingsTable, guildId: string, other: string,
                               amount: int, minimum: int, channelId: string)
    requires RowsKeyed(table) && other != guildId
    ensures RowsKeyed(InitialMaxWrite(table, guildId, amount, minimum).0)
    ensures ReadSettings(InitialMaxWrite(table, guildId, amount, minimum).0, other) == ReadSettings(table, other)
    ensures ReadSettings(ExpiryChannelWrite(table, guildId, channelId), other) == ReadSettings(table, other)
    ensures ReadSettings(ExpiryDisabledWrite(table, guildId), other) == ReadSettings(table, other)
  {
  }

  // ---------------------------------------------------------------------------------------
  // The minimum starting ceiling

  /** As written, the guard accepts a ceiling of 10, and at a ceiling of 10 every draw of the
      generator leaves a player with an empty meter in a tier that upgrades. */
  lemma AsWrittenMinimumAdmitsFreeUpgrade(table: SettingsTable, guildId: string)
    requires RowsKeyed(table)
    ensures var (after, ok) := InitialMaxWrite(table, guildId, 10, MIN_INITIAL_MAX_POINTS_AS_WRITTEN);
      ok && ReadSettings(after, guildId).initialMaxPoints == 10
    ensures forall splits :: ValidSplits(splits) ==>
      UpgradeRanges(10, splits)[CurrentRangeIndex(0.0, UpgradeRanges(10, splits))].levelBonus > 0
  {
    forall splits | ValidSplits(splits)
      ensures UpgradeRanges(10, splits)[CurrentRangeIndex(0.0, UpgradeRanges(10, splits))].levelBonus > 0
    {
      ZeroPointsCanUpgradeBelowTwelve(10, splits);
    }
  }

  /** Every ceiling re-drawn from an accepted starting ceiling is at least 13, so the ranges
      generated from it are well formed and an empty meter is not ready. */
  lemma CorrectedMinimumKeepsRangesWide(base: int, reroll: int, splits: seq<real>)
    requires base >= MIN_INITIAL_MAX_POINTS && ValidSplits(splits)
    requires reroll == base || PlayerRepo.InVariationRange(reroll, base)
    ensures reroll >= MIN_WIDE_MAX_POINTS
    ensures WellFormedTiers(UpgradeRanges(reroll, splits), reroll)
    ensures UpgradeRanges(reroll, splits)[CurrentRangeIndex(0.0, UpgradeRanges(reroll, splits))].levelBonus == 0
  {
    var low := base as real * 0.8;
    assert low >= 13.6;
    assert PlayerRepo.VariationRange(base).0 >= 13;
    UpgradeRangesWellFormed(reroll, splits);
    ZeroPointsNotReady(reroll, splits);
  }

  /** 17 is the least such minimum: from 16 the lowest re-draw is 12, below 13. */
  lemma CorrectedMinimumIsTight()
    ensures PlayerRepo.VariationRange(MIN_INITIAL_MAX_POINTS - 1).0 == 12 < MIN_WIDE_MAX_POINTS
    ensures PlayerRepo.VariationRange(MIN_INITIAL_MAX_POINTS).0 == 13
  {
    assert (16 as real * 0.8) == 12.8;
    assert (17 as real * 0.8) == 13.6;
  }

  // ---------------------------------------------------------------------------------------
  // The repository

  class GuildRepository {
    var settings: SettingsTable

    predicate Valid()
      reads this
    {
      RowsKeyed(settings)
    }

    constructor ()
      ensures Valid() && settings == map[]
    {
      settings := map[];
    }

    /** `getSettings`: a guild with no row reads as the defaults; otherwise its stored row. */
    function GetSettings(guildId: string): (s: GuildSettings)
      reads this
      requires Valid()
      ensures s.guildId == guildId
      ensures guildId !in settings ==> s == DefaultSettings(guildId)
      ensures guildId in settings ==>
        s.initialMaxPoints == settings[guildId].initialMaxPoints &&
        s.boostExpiryEnabled == settings[guildId].boostExpiryEnabled
      ensures guildId in settings ==> s.boostExpiryChannelId == NonEmpty(settings[guildId].boostExpiryChannelId)
    {
      ReadSettings(settings, guildId)
    }

    /** `setInitialMaxPoints` with the minimum of 10 the source enforces; `ok` is false where
        the source throws. */
    method SetInitialMaxPoints(guildId: string, amount: int) returns (ok: bool)
      requires Valid()
      modifies this
      ensures Valid()
      ensures (settings, ok) == InitialMaxWrite(old(settings), guildId, amount, MIN_INITIAL_MAX_POINTS_AS_WRITTEN)
      ensures ok <==> amount >= MIN_INITIAL_MAX_POINTS_AS_WRITTEN
      ensures ok ==> GetInitialMaxPoints(guildId) == amount
      ensures !ok ==> settings == old(settings)
    {
      if amount < MIN_INITIAL_MAX_POINTS_AS_WRITTEN {
        return false;
      }
      settings := settings[guildId := StoredOrDefault(settings, guildId).(initialMaxPoints := amount)];
      ok := true;
    }

    method SetBoostExpiryChannel(guildId: string, channelId: string)
      requires Valid()
      modifies this
      ensures Valid()
      ensures settings == ExpiryChannelWrite(old(settings), guildId, channelId)
    {
      var row := StoredOrDefault(settings, guildId);
      settings := settings[guildId := row.(boostExpiryChannelId := Some(channelId), boostExpiryEnabled := true)];
    }

    method DisableBoostExpiryNotifications(guildId: string)
      requires Valid()
      modifies this
      ensures Valid()
      ensures settings == ExpiryDisabledWrite(old(settings), guildId)
    {
      var row := StoredOrDefault(settings, guildId);
      settings := settings[guildId := row.(boostExpiryChannelId := None, boostExpiryEnabled := false)];
    }

    function IsBoostExpiryEnabled(guildId: string): (r: bool)
      reads this
      requires Valid()
      ensures r <==> guildId in settings && settings[guildId].boostExpiryEnabled
    {
      GetSettings(guildId).boostExpiryEnabled
    }

    function GetBoostExpiryChannelId(guildId: string): (r: Option<string>)
      reads this
      requires Valid()
      ensures r.Some? <==>
        (guildId in settings && settings[guildId].boostExpiryChannelId.Some? &&
         settings[guildId].boostExpiryChannelId.value != "")
      ensures r.Some? ==> r == settings[guildId].boostExpiryChannelId
    {
      NonEmpty(GetSettings(guildId).boostExpiryChannelId)
    }

    function GetInitialMaxPoints(guildId: string): (r: int)
      reads this
      requires Valid()
      ensures r == if guildId in settings then settings[guildId].initialMaxPoints else INITIAL_MAX_POINTS
    {
      GetSettings(guildId).initialMaxPoints
    }
  }
}
