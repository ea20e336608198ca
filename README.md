# spread2bread game core in Dafny

spread2bread is a Discord bot game. Each player in a guild owns a loaf of bread with a
level and a "jam meter". Chatting in an enabled channel hands points to the senders of the
last ten messages there: the most recent sender gets 10/10 of a point, the next 9/10, and
so on. A sender who has activated a jam boost hands out three times as much. When the meter is in a
good range the player may upgrade and gain levels. Upgrading from an overflowing meter costs
a tenth of the player's levels, rounded down. The code's `addPoints` caps the meter at its
ceiling. Only the penalising `addPoints` the project's tests specify makes an overflow while
points are added cost levels: ceil(level/10) of them, leaving at least level 1.

This project models the game core:
- the constants;
- the random upgrade-range generator and the range lookup;
- the bread manager (aesthetic names, stats, jam bar, upgrade, reset);
- the player, channel and guild-settings repositories;
- the point tracker;
- the jam boost service;
- the game service that ties them together.

Each SQLite table is a Dafny `map` held as a field of a repository class:
- the players table is keyed by `(userId, guildId)`;
- the channel flags are keyed by `(channelId, guildId)`;
- the tracked-message window is keyed by channel;
- the guild settings are keyed by guild.

Every state-changing method is proved equal to a specification function of the old state.
The properties are proved as lemmas about those functions.

Randomness, the clock and integer width are handled as follows:
- The generator's six random split points are a parameter `splits` (six reals in [0.5, 0.8]).
- The ceilings re-drawn after a penalty are parameters `reroll`/`rerolls`.
- `Date.now()` is a parameter `now`.
- Points are exact `real`s.
- Timestamps and levels are unbounded `int`s.

Modules, one per source file:
- `Constants`
- `Models`
- `RangeGenerator`
- `BreadManager`
- `PlayerRepo`
- `ChannelRepo`
- `GuildRepo`
- `PointTracking`
- `JamBoost`
- `Game`

Where the code and the project's own tests disagree, the model follows the code. There is one exception:
- The penalising `addPoints` that the tests describe is modelled next to the capping one the code has. A policy parameter selects between them. Its re-drawn ceiling is constrained to the 80%..120% of 300 that the tests check.

The services follow the code as written, including the two findings below. Each finding also has a corrected variant, with the intended property proved, next to the as-written one.

## Model

| member | source | states |
|---|---|---|
| Constants.UpgradeBonusesStrictlyIncrease | src/utils/constants.ts:19-26 | six upgrade configurations, bonuses positive and strictly increasing, the last +50 |
| Constants.MilestonesStrictlyIncrease | src/utils/constants.ts:47-63 | fifteen aesthetic milestones starting at level 0 with strictly increasing levels |
| Constants.RangeSplitConstants | src/utils/constants.ts:66-68 | six splits, each drawn from 0 < 0.5 <= 0.8 < 1 |
| Constants.ScalarConstants | src/utils/constants.ts:3-16 | window 10, initial level 1, initial ceiling 300, boost 15 min shorter than the 24 h cooldown, multiplier 3, bar 10 |
| Models.NewPlayerRow | src/storage/playerRepository.ts:13-17 | a created player starts at level 1, 0 points, ceiling 300, all timestamps 0 |
| Models.Player.FromRow | src/models/index.ts:1-10 | a player object carries exactly the row it is built from |
| RangeGenerator.Lerp | src/game/rangeGenerator.ts:10-12 | the distance left to b shrinks by the factor 1 - t |
| RangeGenerator.Clamp | src/game/rangeGenerator.ts:66-78 | a deflated range ends at the new bound, keeps bonus and jam level, and has min in [0, max-1] (0 when the bound is not positive) |
| RangeGenerator.Deflate | src/game/rangeGenerator.ts:59-82 | the in-place backward pass over the array yields exactly the deflated ranges of the original array |
| RangeGenerator.GenerateUpgradeRanges | src/game/rangeGenerator.ts:18-85 | returns the ranges generated from the splits; seven ranges, the last ending at maxPoints |
| RangeGenerator.NormalizedPartition | src/game/rangeGenerator.ts:21-34 | the normalized intervals tile [0, 1] without gaps; each cut keeps 20%..50% of the remainder |
| RangeGenerator.CutStep | src/game/rangeGenerator.ts:26-31 | each split multiplies the remaining width by 1 - split; cuts strictly increase below 1 |
| RangeGenerator.RemainderBounds | src/game/rangeGenerator.ts:26-31 | after i splits the remainder lies in [1/5^i, 1/2^i] |
| RangeGenerator.ScaledCutLowerBound | src/game/rangeGenerator.ts:40-41 | for maxPoints >= 13 the k-th cut, scaled and floored, is at least 2k |
| RangeGenerator.UpgradeRangesShape | src/game/rangeGenerator.ts:36-57 | seven ranges: first Not Ready with bonus 0, then the six configurations in order, bonuses strictly increasing to +50 |
| RangeGenerator.DeflatedOrdered | src/game/rangeGenerator.ts:59-82 | after deflation the last range ends at maxPoints, mins are >= 0, bonuses are kept and ranges are strictly ordered |
| RangeGenerator.DeflatedCascadeBound | src/game/rangeGenerator.ts:63-81 | range k ends at most 2 per later range below maxPoints (or at -1) |
| RangeGenerator.DeflatedLowerBound | src/game/rangeGenerator.ts:63-81 | with enough room, range k keeps min >= 2k and max >= 2k + 1 |
| RangeGenerator.DeflatedContiguous | src/game/rangeGenerator.ts:63-81 | ranges adjacent before deflation are adjacent integer ranges after it (max + 1 == next min) |
| RangeGenerator.UpgradeRangesOrdered | src/game/rangeGenerator.ts:18-85 | for every maxPoints the generated ranges are strictly increasing, non-negative and end at maxPoints |
| RangeGenerator.UpgradeRangesWellFormed | src/game/rangeGenerator.ts:18-85 | for maxPoints >= 13 the seven ranges are non-empty, contiguous, start at 0 and end at maxPoints |
| RangeGenerator.NarrowBottomRangeBelowThirteen | src/game/rangeGenerator.ts:59-82 | below 13 the deflation pushes the Not Ready range to end at or below 0 |
| RangeGenerator.LowerRangesEndBelowMax | src/game/rangeGenerator.ts:63-82 | only the top range reaches maxPoints, and it holds maxPoints - 1 as well |
| RangeGenerator.CurrentRangeIndexFrom | src/game/rangeGenerator.ts:88-95 | the scan returns the first range holding the points, else the last |
| RangeGenerator.CurrentRangeIndex | src/game/rangeGenerator.ts:87-96 | first matching range, or the last range when none matches |
| RangeGenerator.GetCurrentRange | src/game/rangeGenerator.ts:87-96 | the loop returns the range at that index |
| RangeGenerator.CurrentTierIndex | src/game/rangeGenerator.ts:87-96 | the lookup on the floored points: first match, else the last range |
| RangeGenerator.GetCurrentTier | src/game/rangeGenerator.ts:87-96 | the corrected loop returns the tier at that index |
| RangeGenerator.MaxPointsInTopRange | src/game/rangeGenerator.ts:63-68 | a full meter lies in the top range (+50) under both lookups |
| RangeGenerator.OverflowInTopRange | src/game/rangeGenerator.ts:94-95 | points above maxPoints fall back to the top range (+50) |
| RangeGenerator.TiersIncrease | src/game/rangeGenerator.ts:59-82 | in well-formed tiers every earlier range ends before every later one starts |
| RangeGenerator.WholePointsCovered | src/game/rangeGenerator.ts:59-82 | every whole point between a range's min and maxPoints lies in that range or a later one |
| RangeGenerator.CurrentTierHalfOpen | src/game/rangeGenerator.ts:87-96 | for 0 <= points <= maxPoints exactly one tier holds the floored points, and min <= points < max + 1 |
| RangeGenerator.LookupsAgreeOnMatch | src/game/rangeGenerator.ts:87-96 | whenever the as-written lookup finds a real match, the corrected lookup picks the same range |
| RangeGenerator.GapPointsFallToTopTier | src/game/rangeGenerator.ts:87-96 | points between two integer ranges (max + 0.5) get the top range as written, but their own tier when floored |
| RangeGenerator.GapExample | src/game/rangeGenerator.ts:87-96 | concretely, 100.5 points on ranges 0-100/101-200/201-300 read as +50 as written and as Not Ready when floored |
| RangeGenerator.ZeroPointsNotReady | src/game/rangeGenerator.ts:36-44 | for maxPoints >= 13 an empty meter is Not Ready under both lookups |
| RangeGenerator.ZeroPointsCanUpgradeBelowTwelve | src/game/rangeGenerator.ts:59-82 | for maxPoints <= 11 the Not Ready range is pushed below 0 and an empty meter lands in a paying range |
| BreadManager.MilestonesReached | src/game/breadManager.ts:12-19 | the milestones reached form a prefix: the first c are at or below the level and, below n, milestone c is above it |
| BreadManager.GetAesthetic | src/game/breadManager.ts:12-19 | the backward loop returns the name of the highest milestone reached, else the first |
| BreadManager.ReachedUpTo | src/game/breadManager.ts:13-17 | if milestone i is the highest at or below the level, exactly i + 1 milestones are reached |
| BreadManager.ReachedNone | src/game/breadManager.ts:13-18 | a level below every milestone reaches none |
| BreadManager.AestheticBetweenMilestones | src/game/breadManager.ts:12-19 | a level in [milestone i, milestone i+1) is named by milestone i |
| BreadManager.AestheticBelowFirstMilestone | src/game/breadManager.ts:18 | a negative level falls back to Plain Bread |
| BreadManager.MilestonesReachedMonotone | src/game/breadManager.ts:12-19 | a higher level never reaches fewer milestones |
| BreadManager.Repeat | src/game/breadManager.ts:32 | a repeated character string has the given length and only that character |
| BreadManager.JamBar | src/game/breadManager.ts:29-32 | a bar exists iff the filled count lies in [0, 10]; it is then 10 cells, cell i filled iff i is below the filled count |
| BreadManager.JamBarShape | src/game/breadManager.ts:29-32 | for 0 <= points <= max the bar is 10 cells, floor(10 * points / max) of them filled and filled first |
| BreadManager.ScaledFraction | src/game/breadManager.ts:30-31 | the scaled progress lies in [0, 10] and scales back to the points |
| BreadManager.FloorTimes | src/game/breadManager.ts:31 | the floored progress brackets the product |
| BreadManager.MulStrict | src/game/breadManager.ts:31 | scaling by a positive factor keeps strict order |
| RangeGenerator.MulMono | src/game/rangeGenerator.ts:40-41 | products of non-negative ordered factors are ordered |
| BreadManager.JamBarThrowsOnOverflow | src/game/breadManager.ts:31-32 | from 110% of the ceiling the empty-cell count is negative and the repeat throws |
| BreadManager.FilledCellsMonotone | src/game/breadManager.ts:30-31 | more points never fill fewer cells |
| BreadManager.PlayerStatsFields | src/game/breadManager.ts:21-46 | within the ceiling the stats carry the player and its aesthetic, the jam bar of the meter (10 cells, the first floor(10·points/max) filled), canUpgrade iff the as-written tier's bonus is positive, and boosted iff the expiry is after now |
| BreadManager.PlayerStatsOf | src/game/breadManager.ts:21-46 | stats exist iff the bar can be drawn; then they carry the row, its aesthetic, the tier's jam level, canUpgrade iff that tier pays, boosted iff the expiry is after now, and exactly the jam bar of the meter |
| BreadManager.StatsAtZeroPoints | src/game/breadManager.ts:21-46 | an empty meter at a ceiling >= 13 cannot upgrade, shows Not Ready and an all-empty bar |
| BreadManager.StatsAtFullMeter | src/game/breadManager.ts:21-46 | a full meter can upgrade, shows PERFECT and an all-filled bar |
| BreadManager.AttemptUpgrade | src/game/breadManager.ts:48-72 | the tier is looked up on the raw points, as written; the method updates the player and returns exactly the upgrade outcome of the old row |
| BreadManager.OverflowLossBounds | src/game/breadManager.ts:59-60 | the overflow loss is floor(level / 10), below the level, and the floor of 1 never binds |
| BreadManager.UpgradeChangesIffCanUpgrade | src/game/breadManager.ts:48-72 | the row changes iff the tier pays; otherwise the result is (false, 0) and the row is untouched |
| BreadManager.UpgradeSuccessAddsBonus | src/game/breadManager.ts:66-71 | within the ceiling a paying tier adds its bonus (one of 1, 2, 4, 10, 20, 50), empties the meter and stamps the time |
| BreadManager.UpgradeAtFullMeter | src/game/breadManager.ts:66-71 | a full meter upgrades by +50 |
| BreadManager.GapPointUpgradesAsWritten | src/game/breadManager.ts:48-72 | half a point above any range but the top one, the as-written upgrade gains +50 and empties the meter, while the corrected lookup keeps the meter in its own range, which gives fewer levels |
| BreadManager.UpgradeOverflowPenalty | src/game/breadManager.ts:57-64 | above the ceiling the upgrade fails with -(level/10), the level drops by a tenth (floored), the meter empties and the time is stamped |
| BreadManager.UpgradeAtZeroPointsFails | src/game/breadManager.ts:52-54 | at a ceiling >= 13 an empty meter never upgrades and nothing changes |
| BreadManager.ResetPointMeter | src/game/breadManager.ts:74-78 | the meter is emptied, the ceiling reset to 300, the time stamped, nothing else changed |
| BreadManager.ResetLeavesNotReady | src/game/breadManager.ts:74-78 | after a reset the player cannot upgrade |
| PlayerRepo.PlayerRepository.constructor | src/storage/playerRepository.ts:1-5 | an empty, well-keyed players table |
| PlayerRepo.PlayerRepository.GetOrCreatePlayer | src/storage/playerRepository.ts:6-25 | the table gains a default row iff the player was missing; the returned object is a fresh copy of the stored row |
| PlayerRepo.PlayerRepository.UpdatePlayer | src/storage/playerRepository.ts:27-43 | an existing row is overwritten with the object's fields; a missing one is not created |
| PlayerRepo.PlayerRepository.AddPoints | src/storage/playerRepository.ts:45-52 | the table becomes the capped addition of the old table |
| PlayerRepo.PlayerRepository.AddPointsWithPenalty | tests/unit/pointPenalty.test.ts:33-109 | the penalising `addPoints` the tests specify (the code's own `addPoints` only caps): for a ceiling re-drawn within 80%..120% of 300, the table and result become the penalising addition of the old table, and a reported new ceiling lies in [240, 360] |
| PlayerRepo.PlayerRepository.AddPointsUnder | tests/unit/pointPenalty.test.ts:33-109 | the addition chosen by the policy: the code's capping MIN of playerRepository.ts:45-52, or the tests' penalising addition; a penalty reports a new ceiling in [240, 360] |
| PlayerRepo.PlayerRepository.GetTopPlayers | src/storage/playerRepository.ts:54-62 | stored rows of the guild, by level then points descending, distinct users, at most limit, all of them when fewer than limit, and every left-out row ranks after every returned one |
| PlayerRepo.PlayerRepository.GuildRows | src/storage/playerRepository.ts:54-62 | every stored row of the guild exactly once, each as stored, ranked by level then points |
| PlayerRepo.InsertRanked | src/storage/playerRepository.ts:59 | inserting into the ranking keeps a permutation and grows by one |
| PlayerRepo.InsertKeepsRanked | src/storage/playerRepository.ts:59 | insertion keeps the ranking order |
| PlayerRepo.InsertKeepsDistinct | src/storage/playerRepository.ts:57-59 | inserting a new user keeps users distinct |
| PlayerRepo.InsertedMembers | src/storage/playerRepository.ts:59 | the insertion holds exactly the old rows and the new one |
| PlayerRepo.WithPlayerEffect | src/storage/playerRepository.ts:6-25 | get-or-create keeps every existing row and adds the default row only when missing |
| PlayerRepo.UpdatedRowsEffect | src/storage/playerRepository.ts:27-43 | an update keeps the key set, replaces only the player's own row |
| PlayerRepo.CappedAddEffect | src/storage/playerRepository.ts:45-52 | MIN(current + delta, max): unchanged when under the ceiling, the ceiling otherwise; a missing player changes nothing; no penalty is ever reported |
| PlayerRepo.PenaltyAddAccumulates | tests/unit/pointPenalty.test.ts:33-42 | without overflow the penalising addition just adds |
| PlayerRepo.PenaltyAddOverflows | tests/unit/pointPenalty.test.ts:46-109 | on overflow: ceil(level/10) levels lost, the floor of 1, meter 0, the re-drawn ceiling, the time stamped, all reported; a re-draw from 80%..120% of 300 gives a ceiling in [240, 360] |
| PlayerRepo.AddPointsFrame | src/storage/playerRepository.ts:45-52 | either addition touches only the addressed player's row |
| PlayerRepo.AddPointsKeepsMeters | src/storage/playerRepository.ts:45-52 | adding non-negative points keeps every meter within [0, max]; the capped addition reports no penalty |
| PlayerRepo.AddPointsKeepsCeilingsDrawn | tests/unit/pointPenalty.test.ts:50-63 | with re-draws in 80%..120% of 300, every ceiling stays in [240, 360] after either addition |
| PlayerRepo.CappedAdd | src/storage/playerRepository.ts:45-52 | the key set is kept and no penalty is ever reported |
| PlayerRepo.PenaltyAdd | tests/unit/pointPenalty.test.ts:45-63 | the player's key is added if missing and the result is never "no such player" |
| PlayerRepo.PenaltyAddCases | tests/unit/pointPenalty.test.ts:45-63 | a penalty is reported iff the total exceeds the ceiling; it reports meter 0 and the re-drawn ceiling, otherwise the new total |
| PlayerRepo.PenaltyExamples | src/utils/constants.ts:5-7 | level 1 loses 1 and stays 1; level 20 loses 2 to 18; the 300 ceiling re-draws within [240, 360] |
| PlayerRepo.LevelsLostIsCeilTenth | src/utils/constants.ts:7 | the penalty loses ceil(level / 10) levels |
| ChannelRepo.ActiveChannelsExact | src/storage/channelRepository.ts:25-31 | the listing holds exactly the guild's channels flagged active |
| ChannelRepo.SetThenRead | src/storage/channelRepository.ts:6-23 | a flag reads back as set, other flags are untouched, unknown channels read inactive |
| ChannelRepo.Shifted | src/storage/channelRepository.ts:36-41 | every entry of the window, in order, with its position raised by one |
| ChannelRepo.EvictConsecutive | src/storage/channelRepository.ts:49-53 | deleting positions >= 10 from consecutive positions keeps exactly the prefix below 10 |
| ChannelRepo.InsertedShape | src/storage/channelRepository.ts:33-54 | after insertion: positions 0.. in order, new message at 0, old ones shifted by one, at most 10 kept |
| ChannelRepo.InsertedStep | src/storage/channelRepository.ts:33-54 | one insertion: window stays valid, ids only from the old window and the new one, the message at position 9 is forgotten |
| ChannelRepo.InsertableTail | src/storage/channelRepository.ts:33-54 | a batch of fresh distinct messages stays insertable after its first one is inserted |
| ChannelRepo.InsertAllValid | src/storage/channelRepository.ts:33-54 | many insertions keep the window valid with min(old + new, 10) messages |
| ChannelRepo.AdvanceOne | src/storage/channelRepository.ts:36-47 | one insertion moves the message at p to p + 1 |
| ChannelRepo.InsertAllAdvances | src/storage/channelRepository.ts:36-47 | after n insertions the message at p sits at p + n while p + n < 10 |
| ChannelRepo.InsertAllForgets | src/storage/channelRepository.ts:49-53 | once p + n >= 10 the message is gone |
| ChannelRepo.FirstMessageEvicted | src/storage/channelRepository.ts:49-53 | a message is forgotten after ten later messages in its channel |
| ChannelRepo.RecentShape | src/storage/channelRepository.ts:56-64 | the recent messages are exactly the window's first min(limit, n) entries (all n for a negative limit), in position order, at most 10 |
| ChannelRepo.EvictIdleOnValid | src/storage/channelRepository.ts:66-72 | clearing old messages does nothing on a valid window |
| ChannelRepo.ChannelRepository.constructor | src/storage/channelRepository.ts:5 | empty flags and windows |
| ChannelRepo.ChannelRepository.SetChannelActive | src/storage/channelRepository.ts:16-23 | the flag is upserted; windows unchanged |
| ChannelRepo.ChannelRepository.IsChannelActive | src/storage/channelRepository.ts:6-14 | active iff the channel is configured in the guild and flagged on; unconfigured channels are inactive |
| ChannelRepo.ChannelRepository.GetActiveChannels | src/storage/channelRepository.ts:25-31 | exactly the guild's channels that read as active |
| ChannelRepo.ChannelRepository.GetRecentMessages | src/storage/channelRepository.ts:56-64 | exactly the first min(limit, n) entries of the channel's window (all n for a negative limit), in position order from 0, at most 10 |
| ChannelRepo.ChannelRepository.AddTrackedMessage | src/storage/channelRepository.ts:33-54 | the channel's window becomes the insertion of the message into the old window; other channels and flags unchanged |
| ChannelRepo.ChannelRepository.ClearOldMessages | src/storage/channelRepository.ts:66-72 | on valid state nothing changes |
| GuildRepo.DefaultSettings | src/storage/guildRepository.ts:24-30 | ceiling 300, no channel, notices disabled |
| GuildRepo.NonEmpty | src/storage/guildRepository.ts:19 | an empty channel id reads as none, others unchanged |
| GuildRepo.ReadSettings | src/storage/guildRepository.ts:11-31 | a stored row is read back with its ceiling, notice flag and channel id, an empty channel id as none; a missing one as the defaults |
| GuildRepo.UnknownGuildDefaults | src/storage/guildRepository.ts:24-30 | a guild never written reads (300, none, disabled) |
| GuildRepo.InitialMaxThenRead | src/storage/guildRepository.ts:33-40 | below the minimum nothing is written and the call fails; otherwise the ceiling reads back and the rest is kept |
| GuildRepo.ExpiryChannelThenRead | src/storage/guildRepository.ts:42-48 | notices enabled, the channel read back (none when empty), ceiling kept |
| GuildRepo.ExpiryDisabledThenRead | src/storage/guildRepository.ts:50-56 | notices disabled, no channel, ceiling kept |
| GuildRepo.WritesLeaveOtherGuilds | src/storage/guildRepository.ts:33-56 | every write leaves other guilds' settings as they read before |
| GuildRepo.AsWrittenMinimumAdmitsFreeUpgrade | src/storage/guildRepository.ts:34 | the as-written guard accepts 10, and at 10 an empty meter sits in a paying tier for every draw |
| GuildRepo.CorrectedMinimumKeepsRangesWide | src/storage/guildRepository.ts:34 | from a ceiling >= 17 every re-draw is >= 13, the tiers are well formed and an empty meter is Not Ready |
| GuildRepo.CorrectedMinimumIsTight | src/storage/guildRepository.ts:34 | 16 can re-draw 12, 17 re-draws at least 13 |
| GuildRepo.GuildRepository.constructor | src/storage/guildRepository.ts:10 | an empty settings table |
| GuildRepo.GuildRepository.SetInitialMaxPoints | src/storage/guildRepository.ts:33-40 | the write with the code's minimum of 10: succeeds iff the amount is at least 10, and the ceiling then reads back; nothing changes otherwise |
| GuildRepo.GuildRepository.SetBoostExpiryChannel | src/storage/guildRepository.ts:42-48 | the upsert enabling notices to the channel |
| GuildRepo.GuildRepository.DisableBoostExpiryNotifications | src/storage/guildRepository.ts:50-56 | the upsert disabling notices and clearing the channel |
| GuildRepo.GuildRepository.GetSettings | src/storage/guildRepository.ts:11-31 | the defaults for an unknown guild; otherwise the stored ceiling, notice flag and channel id, an empty channel id as none |
| GuildRepo.GuildRepository.IsBoostExpiryEnabled | src/storage/guildRepository.ts:58-60 | enabled iff the guild has a row with notices enabled |
| GuildRepo.GuildRepository.GetBoostExpiryChannelId | src/storage/guildRepository.ts:62-64 | the stored channel iff it is present and non-empty, otherwise none |
| GuildRepo.GuildRepository.GetInitialMaxPoints | src/storage/guildRepository.ts:66-68 | the stored ceiling, or 300 for an unknown guild |
| JamBoost.CeilDiv | src/services/jamBoostService.ts:24 | ceil(a / d): the least q with a <= q * d |
| JamBoost.BoostDecision | src/services/jamBoostService.ts:11-52 | recharging iff on cooldown, already active iff off cooldown with a running boost, activated otherwise; quoted hours and minutes at least 1; an activation expires one duration from now |
| JamBoost.StatusOf | src/services/jamBoostService.ts:59-87 | active iff the expiry is after now, and then a positive time left; a cooldown left, positive, iff not active and on cooldown |
| JamBoost.FreshPlayerActivates | src/services/jamBoostService.ts:42-51 | a player who never boosted activates for 15 minutes from now |
| JamBoost.RechargingQuotesHours | src/services/jamBoostService.ts:19-30 | within the cooldown the call is refused, nothing changes, and the quoted hours are the remainder rounded up, 1..24 |
| JamBoost.ActiveRefused | src/services/jamBoostService.ts:32-40 | off cooldown with a running boost the call is refused with at least one minute quoted |
| JamBoost.DecisionCases | src/services/jamBoostService.ts:19-51 | activation happens iff neither refusal applies, and then exactly stamps use and expiry, making the boost active |
| JamBoost.ActivationKeepsReachable | src/services/jamBoostService.ts:42-45 | activations keep expiry = last use + 15 min (or both 0) |
| JamBoost.AlreadyActiveUnreachable | src/services/jamBoostService.ts:32-40 | with boost fields set only by activations, the already-active refusal never happens |
| JamBoost.SecondActivationRecharges | src/services/jamBoostService.ts:19-40 | a second call during a running boost is refused as recharging |
| JamBoost.StatusCases | src/services/jamBoostService.ts:59-87 | active with positive time left; else on cooldown with 0 < remaining <= 24 h; else neither |
| JamBoost.ActivateOnFrame | src/services/jamBoostService.ts:16-45 | activation creates the player if need be and changes no other row |
| JamBoost.JamBoostService.constructor | src/services/jamBoostService.ts:7-9 | the service shares the given player repository |
| JamBoost.JamBoostService.ActivateBoost | src/services/jamBoostService.ts:11-52 | the table and answer become the activation decision on the old table |
| JamBoost.JamBoostService.IsBoostActive | src/services/jamBoostService.ts:54-57 | get-or-create, then active iff expiry is after now |
| JamBoost.JamBoostService.GetBoostStatus | src/services/jamBoostService.ts:59-87 | get-or-create, then the status of the stored row |
| PointTracking.AwardValues | src/game/pointTracker.ts:53-61 | position 0 earns 1, position 9 earns 1/10, a boost triples, unboosted awards lie in (0, 1] |
| PointTracking.SharesClosedForm | src/game/pointTracker.ts:53-54 | n positions share n(2*10 - n + 1)/2 tenths |
| PointTracking.SharesUpToWindow | src/game/pointTracker.ts:53-54 | fewer positions share no more than the whole window |
| PointTracking.AwardsBoundedByShares | src/game/pointTracker.ts:47-75 | the awards of a distribution are at most three times the shares of its positions |
| PointTracking.TotalAwardBound | src/game/pointTracker.ts:43-78 | one message hands out at most 3 * 11 / 2 points in total |
| PointTracking.StepFrame | src/game/pointTracker.ts:57-64 | one award touches only its sender's row |
| PointTracking.SenderUntouched | src/game/pointTracker.ts:48-51 | the author of the new message never gains points or a row |
| PointTracking.PenaltiesReported | src/game/pointTracker.ts:63-74 | at most one penalty per award; none under the capping addition; each names a rewarded earlier sender, at least one level lost, the floor of 1 |
| PointTracking.TwoPlayerScenario | src/game/pointTracker.ts:15-78 | A then B in a fresh channel: A gets exactly 1 point, B gets no row, no penalties, the window is [B's, A's at 1] |
| PointTracking.Distributed | src/game/pointTracker.ts:43-78 | the distribution never removes a player |
| PointTracking.DistributedKeepsCeilingsDrawn | tests/unit/pointPenalty.test.ts:57-63 | with re-draws in 80%..120% of 300, every ceiling stays in that range over a whole distribution |
| PointTracking.ProcessOn | src/game/pointTracker.ts:15-41 | no player removed; the sender's row untouched; only the message's channel window changes; no penalties under capping; drawn ceilings stay drawn |
| PointTracking.PointTracker.constructor | src/game/pointTracker.ts:10-13 | the tracker shares the given repositories |
| PointTracking.PointTracker.ProcessMessage | src/game/pointTracker.ts:15-41 | for re-draws in 80%..120% of 300, distribute over the window, then track the message: state and penalties as the specification of the old state |
| PointTracking.PointTracker.DistributePoints | src/game/pointTracker.ts:43-78 | for re-draws in 80%..120% of 300, the loop leaves the table and penalties of the recursive distribution |
| PointTracking.PointTracker.AwardEntry | src/game/pointTracker.ts:53-74 | one loop pass: the new table, penalties and awards are one more step of the recursive distribution |
| Game.UpgradePersistsOnlySuccess | src/services/gameService.ts:23-41 | the report mirrors the attempt and names the in-memory level; only a success is stored |
| Game.OverflowReportedNotStored | src/services/gameService.ts:29-40 | an overflowing upgrade at level >= 10 reports a lower level than the one stored, which stays unchanged |
| Game.GivePointsClamps | src/services/gameService.ts:80-87 | given points are clamped into [0, max] and unchanged otherwise |
| Game.GiveLevelsFloor | src/services/gameService.ts:89-94 | given levels never drop below 1 and are unchanged otherwise |
| Game.EnableDisableListing | src/services/gameService.ts:67-78 | enabling lists the channel, disabling removes it, other channels unaffected |
| Game.ActiveChannelIdsExact | src/services/gameService.ts:75-78 | a channel id is listed iff the channel is active in the guild |
| Game.GameService.constructor | src/services/gameService.ts:10-16 | fresh, empty repositories and a tracker over them |
| Game.GameService.GetPlayerStats | src/services/gameService.ts:18-21 | get-or-create, then the stats of the stored row |
| Game.GameService.UpgradePlayerBread | src/services/gameService.ts:23-41 | table and report as the upgrade specification |
| Game.GameService.GetLeaderboard | src/services/gameService.ts:43-50 | at most limit entries, distinct users, stored levels with their aesthetic, listed by level then points (both descending), all players when fewer than limit, and every guild player left out ranks, by level then points, after every listed one |
| Game.EntriesKeepRanking | src/storage/playerRepository.ts:54-62 | entries copied from the ranked top rows keep the level-then-points order, and a guild player none of them names ranks after each of them |
| Game.GameService.ProcessMessage | src/services/gameService.ts:52-65 | inactive channel: nothing changes and no penalties; active: the tracker's specification at time now, for re-draws in 80%..120% of 300 |
| Game.GameService.EnableChannel | src/services/gameService.ts:67-69 | the channel's flag becomes active |
| Game.GameService.DisableChannel | src/services/gameService.ts:71-73 | the channel's flag becomes inactive |
| Game.GameService.GetActiveChannels | src/services/gameService.ts:75-78 | exactly the ids of the guild's active channels |
| Game.GameService.GivePoints | src/services/gameService.ts:80-87 | the clamped meter is stored and returned with the ceiling |
| Game.GameService.GiveLevels | src/services/gameService.ts:89-94 | the floored level is stored and returned with its aesthetic |

## Left out

- Database access, the retry wrapper (`withDatabaseRetry`) and SQL are replaced by maps. `database.ts` is not part of this model.
- Commands, events, embeds and message formatting are left out, except for the whole hours and minutes the boost messages quote.
- `Math.random()` and `Date.now()` become parameters (`splits`, `reroll`/`rerolls`, `now`).
- Floating-point arithmetic is modelled as exact reals.
- PlayerRepo.PlayerRepository.AddPoints: the code's `addPoints` caps and returns nothing, yet `distributePoints` reads `penaltyApplied`, and the project's tests expect an overflow penalty with a re-drawn ceiling. As written, `result.penaltyApplied` is read from `undefined` (pointTracker.ts:63-66). So `processMessage` throws a TypeError right after its first award to an earlier sender. The remaining awards and `addTrackedMessage` never run. Both behaviours are modelled (`Capped`, `PenaltyOnOverflow`), selected by a policy parameter. `Capped` reads the missing result as "no penalty" and finishes the loop and the tracking, so it is a repair of the code, not the code itself. Under `Capped` no penalty is ever reported.
- PointTracking.PointTracker.DistributePoints: the `??` fallbacks of pointTracker.ts:71-72 are not modelled. A penalty result always carries its old and new levels.
- BreadManager.PlayerStatsOf requires a positive ceiling. At 0 the code divides by zero.
- Game.GameService.GetPlayerStats requires a positive ceiling, for the same reason.
- BreadManager.JamBar returns `None` where `repeat` throws. That happens from 110% of the ceiling.
- ChannelRepo.ChannelRepository.AddTrackedMessage requires a message id not already tracked. The table's primary key would make the insert throw, and that failure is not modelled.
- ChannelRepo.ChannelRepository.ClearOldMessages: its contract holds only on valid windows, where it is idle. Windows made invalid by other writers do not exist in the model.
- ChannelRepo.ChannelRepository.GetActiveChannels and Game.GameService.GetActiveChannels return sets, because the SQL gives no order.
- Game.GameService.GetPlayerStats: the `includeRanges` flag is dropped. The bread manager's `getPlayerStats` takes no such argument.
- The `guild_settings` schema is not shown. A first partial upsert is assumed to start from the same defaults `getSettings` reports.
- New players take the ceiling 300 from `INITIAL_MAX_POINTS` (playerRepository.ts:13-17), as the code does. A test expects the guild's configured ceiling instead.
- The code names the jam level `hotnessLevel` and imports `NOT_READY_HOTNESS`, which constants.ts does not define. The model uses the constant `NOT_READY_JAM`, "Not Ready".
- The overflow penalty of `attemptUpgrade` floors (breadManager.ts:59), as written. The tests' ceil applies only to the penalising `addPoints`.
- Cooldown is checked before an active boost (jamBoostService.ts:19-40), as written. JamBoost.SecondActivationRecharges shows that a second call during a boost is therefore refused as recharging, not as already active.
- `upgradePlayerBread` returns the in-memory level after a failed overflow upgrade without storing it (gameService.ts:32-40). This is modelled as written; see Game.OverflowReportedNotStored.
- JamBoost.JamBoostService.constructor takes the player repository as an argument. The code builds its own `PlayerRepository` (jamBoostService.ts:7-9) over the same players table, so the model shares one repository object instead.
- PlayerRepo.PlayerRepository.AddPointsWithPenalty, PlayerRepo.PlayerRepository.AddPointsUnder, PointTracking.PointTracker.DistributePoints, PointTracking.PointTracker.ProcessMessage and Game.GameService.ProcessMessage require the re-drawn ceilings to lie in 80%..120% of 300, as the project's tests check. The code that draws them is not part of this model.
- PointTracking.PointTracker.ProcessMessage: the tracked message's timestamp is the caller's `now`, as in gameService.ts:63.

## Findings

| source | as written | input that shows it | evidently intended | confidence | as-written member | corrected member |
|---|---|---|---|---|---|---|
| src/storage/guildRepository.ts:34 | `setInitialMaxPoints` accepts any ceiling >= 10; at 10 or 11 the range deflation (rangeGenerator.ts:59-82) pushes the Not Ready range below 0, so a player with an empty meter can upgrade | ceiling 10, any split draw, 0 points | a minimum whose every re-drawn ceiling (80%..120%, floored) keeps all seven ranges at least one point wide and the empty meter Not Ready: 17 | not executed | GuildRepo.AsWrittenMinimumAdmitsFreeUpgrade | GuildRepo.CorrectedMinimumKeepsRangesWide |
| src/game/rangeGenerator.ts:87-96 | ranges are integer intervals [min, max] but points are fractional; points strictly between one range's max and the next min match no range and fall back to the top (+50) range | ranges 0-100, 101-200, 201-300 and 100.5 points | look up the floored points, so every point in [0, maxPoints] lands in its own tier | not executed | BreadManager.GapPointUpgradesAsWritten | RangeGenerator.CurrentTierHalfOpen |

`BreadManager` looks tiers up as written, for stats and upgrades. The corrected lookup (`CurrentTierIndex`) is kept next to it as `CorrectedTierOf` and `CorrectedUpgradeOutcome`. `GuildRepo.GuildRepository.SetInitialMaxPoints` enforces the code's minimum of 10. The corrected minimum of 17 is stated by `GuildRepo.CorrectedMinimumKeepsRangesWide`. The first finding is latent in the code shown here, because new players take their ceiling from `INITIAL_MAX_POINTS` and not from the guild setting.
