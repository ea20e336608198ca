/** The jam boost: a player may, once per cooldown, make the points they hand out count
    triple for a short while. Timestamps are epoch milliseconds; `now` is a parameter. */
module JamBoost {
  import opened Constants
  import opened Models
  import opened PlayerRepo

  /** ceil(a / d) for a positive divisor. */
  function CeilDiv(a: int, d: int): (q: int)
    requires d > 0
    ensures (q - 1) * d < a <= q * d
  {
    (a + d - 1) / d
  }

  /** The three answers of `activateBoost`, with the whole hours or minutes its message quotes. */
  datatype BoostOutcome =
    | Recharging(hoursRemaining: int)
    | AlreadyActive(minutesRemaining: int)
    | Activated(expiresAt: int)

  predicate OnCooldown(row: PlayerRow, now: int)
  {
    row.lastBoostUsed > 0 && now - row.lastBoostUsed < BOOST_COOLDOWN_MS
  }

  predicate BoostActive(row: PlayerRow, now: int)
  {
    row.boostExpiresAt > now
  }

  /** `activateBoost` on a player row: cooldown first, then an active boost, then activate. */
  function BoostDecision(row: PlayerRow, now: int): (r: BoostOutcome)
    ensures r.Recharging? <==> OnCooldown(row, now)
    ensures r.AlreadyActive? <==> !OnCooldown(row, now) && BoostActive(row, now)
    ensures r.Activated? <==> !OnCooldown(row, now) && !BoostActive(row, now)
    ensures r.Recharging? ==> r.hoursRemaining >= 1
    ensures r.AlreadyActive? ==> r.minutesRemaining >= 1
    ensures r.Activated? ==> r.expiresAt == now + BOOST_DURATION_MS
  {
    if OnCooldown(row, now) then
      Recharging(CeilDiv(BOOST_COOLDOWN_MS - (now - row.lastBoostUsed), MS_PER_HOUR))
    else if BoostActive(row, now) then
      AlreadyActive(CeilDiv(row.boostExpiresAt - now, MS_PER_MINUTE))
    else
      Activated(now + BOOST_DURATION_MS)
  }

  /** The row written back: only an activation stamps the two boost fields. */
  function AfterDecision(row: PlayerRow, now: int): PlayerRow
  {
    match BoostDecision(row, now)
    case Activated(expiresAt) => row.(lastBoostUsed := now, boostExpiresAt := expiresAt)
    case _ => row
  }

  /** `activateBoost` on the table: get or create the player, decide, persist an activation. */
  function ActivateOn(rows: PlayerTable, userId: string, guildId: string, now: int): (PlayerTable, BoostOutcome)
  {
    var rows1 := WithPlayer(rows, userId, guildId);
    var row := rows1[(userId, guildId)];
    (rows1[(userId, guildId) := AfterDecision(row, now)], BoostDecision(row, now))
  }

  /** What `getBoostStatus` reports. */
  datatype BoostStatus = BoostStatus(isActive: bool, timeRemaining: Option<int>, cooldownRemaining: Option<int>)

  /** `getBoostStatus`: time left on a running boost, else cooldown left, else neither. */
  function StatusOf(row: PlayerRow, now: int): (r: BoostStatus)
    ensures r.isActive <==> BoostActive(row, now)
    ensures r.timeRemaining.Some? <==> r.isActive
    ensures r.timeRemaining.Some? ==> r.timeRemaining.value > 0
    ensures r.cooldownRemaining.Some? <==> !BoostActive(row, now) && OnCooldown(row, now)
    ensures r.cooldownRemaining.Some? ==> 0 < r.cooldownRemaining.value
  {
    if BoostActive(row, now) then BoostStatus(true, Some(row.boostExpiresAt - now), None)
    else if OnCooldown(row, now) then BoostStatus(false, None, Some(BOOST_COOLDOWN_MS - (now - row.lastBoostUsed)))
    else BoostStatus(false, None, None)
  }

  /** The boost fields a player can reach through `activateBoost` alone (from the new-player
      zeros, at positive times): never used, or expiring one duration after the last use. */
  predicate BoostFieldsReachable(row: PlayerRow)
  {
    (row.lastBoostUsed == 0 && row.boostExpiresAt == 0) ||
    (row.lastBoostUsed > 0 && row.boostExpiresAt == row.lastBoostUsed + BOOST_DURATION_MS)
  }

  // ---------------------------------------------------------------------------------------
  // Lemmas

  /** A player who never boosted activates: the use is stamped now and the boost runs one
      duration (15 minutes). */
  lemma FreshPlayerActivates(row: PlayerRow, now: int)
    requires row.lastBoostUsed == 0 && row.boostExpiresAt == 0 && now >= 0
    ensures BoostDecision(row, now) == Activated(now + 15 * 60 * 1000)
    ensures AfterDecision(row, now) == row.(lastBoostUsed := now, boostExpiresAt := now + BOOST_DURATION_MS)
  {
  }

  /** Within the cooldown, activation is refused, nothing changes, and the hours quoted are
      the remaining cooldown rounded up: at least 1, at most 24 when the last use is not in
      the future. */
  lemma RechargingQuotesHours(row: PlayerRow, now: int)
    requires OnCooldown(row, now)
    ensures BoostDecision(row, now).Recharging? && AfterDecision(row, now) == row
    ensures var h := BoostDecision(row, now).hoursRemaining;
      var left := BOOST_COOLDOWN_MS - (now - row.lastBoostUsed);
      h >= 1 && (h - 1) * MS_PER_HOUR < left <= h * MS_PER_HOUR &&
      (now >= row.lastBoostUsed ==> h <= 24)
  {
  }

  /** Off cooldown with a boost still running, activation is refused and nothing changes;
      the minutes quoted are at least 1. */
  lemma ActiveRefused(row: PlayerRow, now: int)
    requires !OnCooldown(row, now) && BoostActive(row, now)
    ensures BoostDecision(row, now).AlreadyActive? && AfterDecision(row, now) == row
    ensures BoostDecision(row, now).minutesRemaining >= 1
  {
  }

  /** Activation only ever stamps the two boost fields, and exactly when neither refusal applies. */
  lemma DecisionCases(row: PlayerRow, now: int)
    ensures BoostDecision(row, now).Activated? <==> !OnCooldown(row, now) && !BoostActive(row, now)
    ensures BoostDecision(row, now).Activated? ==>
      AfterDecision(row, now) == row.(lastBoostUsed := now, boostExpiresAt := now + BOOST_DURATION_MS) &&
      BoostActive(AfterDecision(row, now), now)
    ensures !BoostDecision(row, now).Activated? ==> AfterDecision(row, now) == row
  {
  }

  /** Activations at positive times keep the boost fields reachable. */
  lemma ActivationKeepsReachable(row: PlayerRow, now: int)
    requires BoostFieldsReachable(row) && now > 0
    ensures BoostFieldsReachable(AfterDecision(row, now))
  {
  }

  /** Since a boost lasts less than the cooldown, the already-active refusal cannot happen to
      a player whose boost fields were set only by activations: while the boost runs the
      player is still on cooldown. */
  lemma AlreadyActiveUnreachable(row: PlayerRow, now: int)
    requires BoostFieldsReachable(row) && now >= 0
    ensures !BoostDecision(row, now).AlreadyActive?
  {
    if row.lastBoostUsed > 0 && !OnCooldown(row, now) {
      assert now - row.lastBoostUsed >= BOOST_COOLDOWN_MS > BOOST_DURATION_MS;
    }
  }

  /** Two activations within one boost: the second is refused as recharging, not as already
      active. */
  lemma SecondActivationRecharges(row: PlayerRow, first: int, second: int)
    requires BoostFieldsReachable(row) && 0 < first <= second < first + BOOST_DURATION_MS
    requires BoostDecision(row, first).Activated?
    ensures BoostActive(AfterDecision(row, first), second)
    ensures BoostDecision(AfterDecision(row, first), second).Recharging?
  {
  }

  /** `getBoostStatus`: while active, a positive time remaining; otherwise on cooldown, a
      cooldown remaining in (0, cooldown] when the last use is not in the future; otherwise
      neither. `isActive` agrees with `isBoostActive`. */
  lemma StatusCases(row: PlayerRow, now: int)
    ensures StatusOf(row, now).isActive == BoostActive(row, now)
    ensures BoostActive(row, now) ==>
      StatusOf(row, now).timeRemaining.Some? && StatusOf(row, now).timeRemaining.value > 0 &&
      StatusOf(row, now).cooldownRemaining.None?
    ensures !BoostActive(row, now) ==> StatusOf(row, now).timeRemaining.None?
    ensures !BoostActive(row, now) && OnCooldown(row, now) ==>
      StatusOf(row, now).cooldownRemaining.Some? && StatusOf(row, now).cooldownRemaining.value > 0 &&
      (now >= row.lastBoostUsed ==> StatusOf(row, now).cooldownRemaining.value <= BOOST_COOLDOWN_MS)
    ensures !BoostActive(row, now) && !OnCooldown(row, now) ==> StatusOf(row, now).cooldownRemaining.None?
  {
  }

  /** `activateBoost` on the table creates the player if need be and changes no other row. */
  lemma ActivateOnFrame(rows: PlayerTable, userId: string, guildId: string, now: int)
    requires RowsKeyed(rows)
    ensures var (after, outcome) := ActivateOn(rows, userId, guildId, now);
      RowsKeyed(after) && after.Keys == rows.Keys + {(userId, guildId)} &&
      after[(userId, guildId)] == AfterDecision(WithPlayer(rows, userId, guildId)[(userId, guildId)], now) &&
      forall k :: k in rows && k != (userId, guildId) ==> after[k] == rows[k]
  {
    WithPlayerEffect(rows, userId, guildId);
  }

  // ---------------------------------------------------------------------------------------
  // The service

  class JamBoostService {
    /** The repository over the shared players table. */
    const playerRepo: PlayerRepository

    constructor (repo: PlayerRepository)
      ensures playerRepo == repo
    {
      playerRepo := repo;
    }

    method ActivateBoost(userId: string, guildId: string, now: int) returns (outcome: BoostOutcome)
      requires playerRepo.Valid()
      modifies playerRepo
      ensures playerRepo.Valid()
      ensures (playerRepo.players, outcome) == ActivateOn(old(playerRepo.players), userId, guildId, now)
    {
      var player := playerRepo.GetOrCreatePlayer(userId, guildId);
      assert playerRepo.players[(userId, guildId) := player.Row()] == playerRepo.players;
      if player.lastBoostUsed > 0 {
        var timeSinceLastBoost := now - player.lastBoostUsed;
        if timeSinceLastBoost < BOOST_COOLDOWN_MS {
          var timeRemaining := BOOST_COOLDOWN_MS - timeSinceLastBoost;
          return Recharging(CeilDiv(timeRemaining, MS_PER_HOUR));
        }
      }
      if player.boostExpiresAt > now {
        return AlreadyActive(CeilDiv(player.boostExpiresAt - now, MS_PER_MINUTE));
      }
      player.lastBoostUsed := now;
      player.boostExpiresAt := now + BOOST_DURATION_MS;
      playerRepo.UpdatePlayer(player);
      outcome := Activated(player.boostExpiresAt);
    }

    method IsBoostActive(userId: string, guildId: string, now: int) returns (active: bool)
      requires playerRepo.Valid()
      modifies playerRepo
      ensures playerRepo.Valid()
      ensures playerRepo.players == WithPlayer(old(playerRepo.players), userId, guildId)
      ensures active == BoostActive(playerRepo.players[(userId, guildId)], now)
    {
      var player := playerRepo.GetOrCreatePlayer(userId, guildId);
      active := player.boostExpiresAt > now;
    }

    method GetBoostStatus(userId: string, guildId: string, now: int) returns (status: BoostStatus)
      requires playerRepo.Valid()
      modifies playerRepo
      ensures playerRepo.Valid()
      ensures playerRepo.players == WithPlayer(old(playerRepo.players), userId, guildId)
      ensures status == StatusOf(playerRepo.players[(userId, guildId)], now)
    {
      var player := playerRepo.GetOrCreatePlayer(userId, guildId);
      if player.boostExpiresAt > now {
        return BoostStatus(true, Some(player.boostExpiresAt - now), None);
      }
      if player.lastBoostUsed > 0 {
        var timeSinceLastBoost := now - player.lastBoostUsed;
        if timeSinceLastBoost < BOOST_COOLDOWN_MS {
          return BoostStatus(false, None, Some(BOOST_COOLDOWN_MS - timeSinceLastBoost));
        }
      }
      status := BoostStatus(false, None, None);
    }
  }
}
