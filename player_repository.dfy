/** The players table, keyed by (userId, guildId), as an in-memory map. */
module PlayerRepo {
  import opened Constants
  import opened Models

  /** (userId, guildId) */
  type PlayerKey = (string, string)

  type PlayerTable = map<PlayerKey, PlayerRow>

  /** Every row is stored under its own (userId, guildId). */
  predicate RowsKeyed(rows: PlayerTable)
  {
    forall k :: k in rows ==> rows[k].userId == k.0 && rows[k].guildId == k.1
  }

  /** Every meter lies within [0, its ceiling]. */
  predicate MetersInRange(rows: PlayerTable)
  {
    forall k :: k in rows ==> 0.0 <= rows[k].currentPoints <= rows[k].maxPoints as real
  }

  /** Every ceiling is one the game can have drawn: the starting 300 or a re-randomised
      value in [240, 360]. */
  predicate CeilingsDrawn(rows: PlayerTable)
  {
    forall k :: k in rows ==> InVariationRange(rows[k].maxPoints, INITIAL_MAX_POINTS)
  }

  // ---------------------------------------------------------------------------------------
  // Table operations as functions of the table

  /** The table after `getOrCreatePlayer(userId, guildId)`. */
  function WithPlayer(rows: PlayerTable, userId: string, guildId: string): PlayerTable
  {
    if (userId, guildId) in rows then rows
    else rows[(userId, guildId) := NewPlayerRow(userId, guildId)]
  }

  /** The table after `updatePlayer(row)`: the UPDATE matches only an existing key. */
  function UpdatedRows(rows: PlayerTable, row: PlayerRow): PlayerTable
  {
    var key := (row.userId, row.guildId);
    if key in rows then
      rows[key := rows[key].(breadLevel := row.breadLevel, currentPoints := row.currentPoints,
                             maxPoints := row.maxPoints, lastUpgradeAt := row.lastUpgradeAt,
                             lastBoostUsed := row.lastBoostUsed, boostExpiresAt := row.boostExpiresAt)]
    else rows
  }

  /** What an `addPoints` call reports. */
  datatype AddPointsResult =
    | NoSuchPlayer
    | NoPenalty(newPoints: real, maxPoints: int)
    | Penalty(levelsLost: int, oldLevel: int, newLevel: int, newPoints: real, maxPoints: int)
  {
    predicate PenaltyApplied() { Penalty? }
  }

  /** `addPoints` as written: `currentPoints = MIN(currentPoints + delta, maxPoints)` on an
      existing row; an UPDATE on a missing row changes nothing. */
  function CappedAdd(rows: PlayerTable, userId: string, guildId: string, delta: real): (r: (PlayerTable, AddPointsResult))
    ensures r.0.Keys == rows.Keys && !r.1.PenaltyApplied()
  {
    var key := (userId, guildId);
    if key !in rows then (rows, NoSuchPlayer)
    else
      var row := rows[key];
      var total := MinReal(row.currentPoints + delta, row.maxPoints as real);
      (rows[key := row.(currentPoints := total)], NoPenalty(total, row.maxPoints))
  }

  /** Levels lost on an overflowing award: max(1, ceil(level * 10%)). */
  function LevelsLost(level: int): int
  {
    Max(1, (level + 9) / 10)
  }

  /** The range a re-randomised ceiling is drawn from: floor(base * 0.8) .. floor(base * 1.2). */
  function VariationRange(baseMaxPoints: int): (int, int)
  {
    ((baseMaxPoints as real * 0.8).Floor, (baseMaxPoints as real * 1.2).Floor)
  }

  predicate InVariationRange(reroll: int, baseMaxPoints: int)
  {
    VariationRange(baseMaxPoints).0 <= reroll <= VariationRange(baseMaxPoints).1
  }

  /** The penalty-on-overflow `addPoints` the tracker and the tests rely on: get or create
      the row, add without capping; if the total exceeds the ceiling, lose levels, empty the
      meter, re-randomise the ceiling (`reroll`) and stamp the time. */
  function PenaltyAdd(rows: PlayerTable, userId: string, guildId: string, delta: real,
                      reroll: int, now: int): (r: (PlayerTable, AddPointsResult))
    ensures r.0.Keys == rows.Keys + {(userId, guildId)} && !r.1.NoSuchPlayer?
  {
    var key := (userId, guildId);
    var rows1 := WithPlayer(rows, userId, guildId);
    var row := rows1[key];
    var total := row.currentPoints + delta;
    if total <= row.maxPoints as real then
      (rows1[key := row.(currentPoints := total)], NoPenalty(total, row.maxPoints))
    else
      var lost := LevelsLost(row.breadLevel);
      var newLevel := Max(1, row.breadLevel - lost);
      (rows1[key := row.(breadLevel := newLevel, currentPoints := 0.0, maxPoints := reroll, lastUpgradeAt := now)],
       Penalty(lost, row.breadLevel, newLevel, 0.0, reroll))
  }

  /** Which `addPoints` contract is in force. */
  datatype AddPointsPolicy = Capped | PenaltyOnOverflow

  function AddPointsBy(policy: AddPointsPolicy, rows: PlayerTable, userId: string, guildId: string,
                       delta: real, reroll: int, now: int): (PlayerTable, AddPointsResult)
  {
    match policy
    case Capped => CappedAdd(rows, userId, guildId, delta)
    case PenaltyOnOverflow => PenaltyAdd(rows, userId, guildId, delta, reroll, now)
  }

  // ---------------------------------------------------------------------------------------
  // Leaderboard order

  /** `ORDER BY breadLevel DESC, currentPoints DESC`: a may come before b. */
  predicate RankedBefore(a: PlayerRow, b: PlayerRow)
  {
    a.breadLevel > b.breadLevel || (a.breadLevel == b.breadLevel && a.currentPoints >= b.currentPoints)
  }

  predicate Ranked(s: seq<PlayerRow>)
  {
    forall i, j :: 0 <= i < j < |s| ==> RankedBefore(s[i], s[j])
  }

  /** Insert a row into a ranked sequence, before the first row it may precede. */
  function InsertRanked(s: seq<PlayerRow>, x: PlayerRow): (r: seq<PlayerRow>)
    ensures multiset(r) == multiset(s) + multiset{x}
    ensures |r| == |s| + 1 && (r[0] == x || (|s| > 0 && r[0] == s[0]))
  {
    if |s| == 0 || RankedBefore(x, s[0]) then [x] + s
    else
      assert s == [s[0]] + s[1..];
      [s[0]] + InsertRanked(s[1..], x)
  }

  /** Insertion keeps a sequence ranked. */
  lemma {:induction false} InsertKeepsRanked(s: seq<PlayerRow>, x: PlayerRow)
    requires Ranked(s)
    ensures Ranked(InsertRanked(s, x))
  {
    if |s| == 0 || RankedBefore(x, s[0]) {
    } else {
      InsertKeepsRanked(s[1..], x);
      var rest := InsertRanked(s[1..], x);
      InsertedMembers(s[1..], x, rest);
      var r := InsertRanked(s, x);
      assert r == [s[0]] + rest;
      forall i, j | 0 <= i < j < |r|
        ensures RankedBefore(r[i], r[j])
      {
        if i == 0 {
          assert r[j] in rest;
          if r[j] != x {
            var m :| 0 <= m < |s[1..]| && s[1..][m] == r[j];
            assert s[m + 1] == r[j];
          }
        } else {
          assert r[i] == rest[i - 1] && r[j] == rest[j - 1];
        }
      }
    }
  }

  // ---------------------------------------------------------------------------------------
  // The repository

  class PlayerRepository {
    var players: PlayerTable

    predicate Valid()
      reads this
    {
      RowsKeyed(players)
    }

    constructor ()
      ensures Valid() && players == map[]
    {
      players := map[];
    }

    /** `getOrCreatePlayer`: a fresh player object holding the (possibly new) stored row. */
    method GetOrCreatePlayer(userId: string, guildId: string) returns (player: Player)
      requires Valid()
      modifies this
      ensures Valid()
      ensures players == WithPlayer(old(players), userId, guildId)
      ensures fresh(player) && player.Row() == players[(userId, guildId)]
    {
      if (userId, guildId) !in players {
        players := players[(userId, guildId) := NewPlayerRow(userId, guildId)];
      }
      player := new Player.FromRow(players[(userId, guildId)]);
    }

    /** `updatePlayer`: overwrite the six mutable columns of the player's row. */
    method UpdatePlayer(player: Player)
      requires Valid()
      modifies this
      ensures Valid()
      ensures players == UpdatedRows(old(players), player.Row())
    {
      var key := (player.userId, player.guildId);
      if key in players {
        players := players[key := players[key].(breadLevel := player.breadLevel,
          currentPoints := player.currentPoints, maxPoints := player.maxPoints,
          lastUpgradeAt := player.lastUpgradeAt, lastBoostUsed := player.lastBoostUsed,
          boostExpiresAt := player.boostExpiresAt)];
      }
    }

    /** `addPoints` as written (capped, reports no penalty). */
    method AddPoints(userId: string, guildId: string, delta: real) returns (result: AddPointsResult)
      requires Valid()
      modifies this
      ensures Valid()
      ensures (players, result) == CappedAdd(old(players), userId, guildId, delta)
    {
      var key := (userId, guildId);
      if key !in players {
        return NoSuchPlayer;
      }
      var row := players[key];
      var total := MinReal(row.currentPoints + delta, row.maxPoints as real);
      players := players[key := row.(currentPoints := total)];
      result := NoPenalty(total, row.maxPoints);
    }

    /** `addPoints` with penalty on overflow; `reroll` is the re-randomised ceiling. */
    method AddPointsWithPenalty(userId: string, guildId: string, delta: real, reroll: int, now: int)
      returns (result: AddPointsResult)
      requires Valid() && InVariationRange(reroll, INITIAL_MAX_POINTS)
      modifies this
      ensures Valid()
      ensures (players, result) == PenaltyAdd(old(players), userId, guildId, delta, reroll, now)
      ensures result.Penalty? ==> 240 <= result.maxPoints <= 360
    {
      PenaltyExamples();
      var player := GetOrCreatePlayer(userId, guildId);
      var total := player.currentPoints + delta;
      var key := (userId, guildId);
      if total <= player.maxPoints as real {
        players := players[key := players[key].(currentPoints := total)];
        return NoPenalty(total, player.maxPoints);
      }
      var lost := LevelsLost(player.breadLevel);
      var newLevel := Max(1, player.breadLevel - lost);
      players := players[key := players[key].(breadLevel := newLevel, currentPoints := 0.0,
                                              maxPoints := reroll, lastUpgradeAt := now)];
      result := Penalty(lost, player.breadLevel, newLevel, 0.0, reroll);
    }

    /** Dispatch on the `addPoints` contract in force. */
    method AddPointsUnder(policy: AddPointsPolicy, userId: string, guildId: string, delta: real,
                          reroll: int, now: int) returns (result: AddPointsResult)
      requires Valid()
      requires policy == PenaltyOnOverflow ==> InVariationRange(reroll, INITIAL_MAX_POINTS)
      modifies this
      ensures Valid()
      ensures (players, result) == AddPointsBy(policy, old(players), userId, guildId, delta, reroll, now)
      ensures result.Penalty? ==> 240 <= result.maxPoints <= 360
    {
      match policy
      case Capped => result := AddPoints(userId, guildId, delta);
      case PenaltyOnOverflow => result := AddPointsWithPenalty(userId, guildId, delta, reroll, now);
    }

    /** `getTopPlayers`: the guild's rows by level then points, both descending, at most
        `limit` of them (a negative limit means no limit). */
    method GetTopPlayers(guildId: string, limit: int) returns (top: seq<PlayerRow>)
      requires Valid()
      ensures Ranked(top)
      ensures forall i :: 0 <= i < |top| ==>
        top[i].guildId == guildId && (top[i].userId, guildId) in players &&
        players[(top[i].userId, guildId)] == top[i]
      ensures DistinctUsers(top)
      ensures limit >= 0 ==> |top| <= limit
      ensures limit < 0 || |top| < limit ==>
        forall k :: k in players && k.1 == guildId ==> players[k] in top
      ensures forall k :: k in players && k.1 == guildId && players[k] !in top ==>
        forall i :: 0 <= i < |top| ==> RankedBefore(top[i], players[k])
    {
      var all := GuildRows(guildId);
      if 0 <= limit < |all| {
        top := all[..limit];
        forall k | k in players && k.1 == guildId && players[k] !in top
          ensures forall i :: 0 <= i < |top| ==> RankedBefore(top[i], players[k])
        {
          PrefixRanksFirst(all, limit, players[k]);
        }
      } else {
        top := all;
      }
    }

    /** Every row of the guild, each once, ranked by level then points. */
    method GuildRows(guildId: string) returns (all: seq<PlayerRow>)
      requires Valid()
      ensures Ranked(all) && DistinctUsers(all)
      ensures forall e :: e in all ==>
        e.guildId == guildId && (e.userId, guildId) in players && players[(e.userId, guildId)] == e
      ensures forall k :: k in players && k.1 == guildId ==> players[k] in all
    {
      all := [];
      var keys := players.Keys;
      while keys != {}
        invariant keys <= players.Keys
        invariant Ranked(all)
        invariant forall e :: e in all ==>
          e.guildId == guildId && (e.userId, guildId) in players &&
          (e.userId, guildId) !in keys && players[(e.userId, guildId)] == e
        invariant DistinctUsers(all)
        invariant forall k :: k in players && k.1 == guildId && k !in keys ==> players[k] in all
        decreases keys
      {
        var k :| k in keys;
        keys := keys - {k};
        if k.1 == guildId {
          ghost var before := all;
          InsertKeepsDistinct(all, players[k]);
          InsertKeepsRanked(all, players[k]);
          all := InsertRanked(all, players[k]);
          InsertedMembers(before, players[k], all);
        }
      }
    }
  }

  /** A row of a ranked sequence that is not among its first n entries ranks after each of them. */
  lemma PrefixRanksFirst(all: seq<PlayerRow>, n: nat, x: PlayerRow)
    requires Ranked(all) && n <= |all| && x in all && x !in all[..n]
    ensures forall i :: 0 <= i < n ==> RankedBefore(all[i], x)
  {
    var j :| 0 <= j < |all| && all[j] == x;
    assert forall i :: 0 <= i < n ==> all[i] == all[..n][i] && all[i] != x;
  }

  predicate DistinctUsers(s: seq<PlayerRow>)
  {
    forall i, j :: 0 <= i < j < |s| ==> s[i].userId != s[j].userId
  }

  /** Inserting a row for a user not yet present keeps the user ids distinct. */
  lemma {:induction false} InsertKeepsDistinct(s: seq<PlayerRow>, x: PlayerRow)
    requires DistinctUsers(s)
    requires forall e :: e in s ==> e.userId != x.userId
    ensures DistinctUsers(InsertRanked(s, x))
  {
    if |s| == 0 || RankedBefore(x, s[0]) {
    } else {
      InsertKeepsDistinct(s[1..], x);
      var rest := InsertRanked(s[1..], x);
      InsertedMembers(s[1..], x, rest);
      var r := InsertRanked(s, x);
      assert r == [s[0]] + rest;
      forall i, j | 0 <= i < j < |r|
        ensures r[i].userId != r[j].userId
      {
        if i == 0 {
          assert r[j] in rest;
          if r[j] != x {
            var m :| 0 <= m < |s[1..]| && s[1..][m] == r[j];
            assert s[m + 1] == r[j];
          }
        } else {
          assert r[i] == rest[i - 1] && r[j] == rest[j - 1];
        }
      }
    }
  }

  /** The members of a ranked insertion are the old members and the inserted row. */
  lemma InsertedMembers(s: seq<PlayerRow>, x: PlayerRow, r: seq<PlayerRow>)
    requires multiset(r) == multiset(s) + multiset{x}
    ensures forall e :: e in r <==> e in s || e == x
    ensures |r| == |s| + 1
  {
    forall e
      ensures e in r <==> e in s || e == x
    {
      assert e in r <==> e in multiset(r);
      assert e in s <==> e in multiset(s);
    }
    assert |multiset(r)| == |r|;
  }

  // ---------------------------------------------------------------------------------------
  // Lemmas

  /** `getOrCreatePlayer` on a missing key adds a level-1 row with an empty meter, the
      starting ceiling and no timestamps; on an existing key it changes nothing. Other rows
      are never touched, and the table stays keyed. */
  lemma WithPlayerEffect(rows: PlayerTable, userId: string, guildId: string)
    requires RowsKeyed(rows)
    ensures var after := WithPlayer(rows, userId, guildId);
      RowsKeyed(after) && (userId, guildId) in after &&
      ((userId, guildId) in rows ==> after == rows) &&
      ((userId, guildId) !in rows ==>
         after.Keys == rows.Keys + {(userId, guildId)} &&
         after[(userId, guildId)].breadLevel == 1 && after[(userId, guildId)].currentPoints == 0.0 &&
         after[(userId, guildId)].maxPoints == 300 && after[(userId, guildId)].lastUpgradeAt == 0 &&
         after[(userId, guildId)].lastBoostUsed == 0 && after[(userId, guildId)].boostExpiresAt == 0) &&
      forall k :: k in rows ==> k in after && after[k] == rows[k]
  {
  }

  /** `updatePlayer` writes the player's six mutable fields into its own row and nothing
      else; for a player with no row it changes nothing. */
  lemma UpdatedRowsEffect(rows: PlayerTable, row: PlayerRow)
    requires RowsKeyed(rows)
    ensures var after := UpdatedRows(rows, row);
      RowsKeyed(after) && after.Keys == rows.Keys &&
      ((row.userId, row.guildId) in rows ==> after[(row.userId, row.guildId)] == row) &&
      forall k :: k in rows && k != (row.userId, row.guildId) ==> after[k] == rows[k]
  {
  }

  /** Capped `addPoints`: the meter becomes min(points + delta, ceiling), nothing else
      changes, no penalty is ever reported, and a missing row is left missing. */
  lemma CappedAddEffect(rows: PlayerTable, userId: string, guildId: string, delta: real)
    ensures var (after, res) := CappedAdd(rows, userId, guildId, delta);
      !res.PenaltyApplied() && after.Keys == rows.Keys &&
      ((userId, guildId) !in rows ==> after == rows && res == NoSuchPlayer) &&
      ((userId, guildId) in rows ==>
         var row := rows[(userId, guildId)];
         after[(userId, guildId)] == row.(currentPoints := res.newPoints) &&
         res.newPoints <= row.maxPoints as real &&
         (res.newPoints == row.currentPoints + delta || res.newPoints == row.maxPoints as real) &&
         (row.currentPoints + delta <= row.maxPoints as real ==> res.newPoints == row.currentPoints + delta)) &&
      forall k :: k in rows && k != (userId, guildId) ==> after[k] == rows[k]
  {
  }

  /** The penalising addition penalises exactly when the total exceeds the ceiling; a
      penalty reports an empty meter and the re-drawn ceiling, otherwise the new total. */
  lemma PenaltyAddCases(rows: PlayerTable, userId: string, guildId: string, delta: real, reroll: int, now: int)
    ensures var row := WithPlayer(rows, userId, guildId)[(userId, guildId)];
      var res := PenaltyAdd(rows, userId, guildId, delta, reroll, now).1;
      (res.PenaltyApplied() <==> row.currentPoints + delta > row.maxPoints as real) &&
      (res.PenaltyApplied() ==> res.newPoints == 0.0 && res.maxPoints == reroll) &&
      (!res.PenaltyApplied() ==> res == NoPenalty(row.currentPoints + delta, row.maxPoints))
  {
  }

  /** Penalty `addPoints` without overflow: the points simply accumulate (a total exactly at
      the ceiling is kept), no penalty, and the result reports what was stored. */
  lemma PenaltyAddAccumulates(rows: PlayerTable, userId: string, guildId: string, delta: real, reroll: int, now: int)
    requires var row := WithPlayer(rows, userId, guildId)[(userId, guildId)];
      row.currentPoints + delta <= row.maxPoints as real
    ensures var row := WithPlayer(rows, userId, guildId)[(userId, guildId)];
      var (after, res) := PenaltyAdd(rows, userId, guildId, delta, reroll, now);
      res == NoPenalty(row.currentPoints + delta, row.maxPoints) &&
      after[(userId, guildId)] == row.(currentPoints := row.currentPoints + delta)
  {
  }

  /** Penalty `addPoints` with overflow: penalty applied, the level drops by
      ceil(level / 10) (at least 1) but not below 1, the meter empties, the ceiling becomes
      the re-randomised one, the time is stamped, and the result reports what was stored. */
  lemma PenaltyAddOverflows(rows: PlayerTable, userId: string, guildId: string, delta: real, reroll: int, now: int)
    requires var row := WithPlayer(rows, userId, guildId)[(userId, guildId)];
      row.currentPoints + delta > row.maxPoints as real && row.breadLevel >= 1
    ensures var row := WithPlayer(rows, userId, guildId)[(userId, guildId)];
      var (after, res) := PenaltyAdd(rows, userId, guildId, delta, reroll, now);
      res.PenaltyApplied() && res.oldLevel == row.breadLevel &&
      res.levelsLost >= 1 && res.levelsLost * 10 >= row.breadLevel && (res.levelsLost - 1) * 10 < row.breadLevel &&
      res.newLevel == Max(1, row.breadLevel - res.levelsLost) && 1 <= res.newLevel <= row.breadLevel &&
      after[(userId, guildId)] == row.(breadLevel := res.newLevel, currentPoints := res.newPoints,
                                       maxPoints := res.maxPoints, lastUpgradeAt := now) &&
      res.newPoints == 0.0 && res.maxPoints == reroll
    ensures InVariationRange(reroll, INITIAL_MAX_POINTS) ==>
      240 <= PenaltyAdd(rows, userId, guildId, delta, reroll, now).1.maxPoints <= 360
  {
    PenaltyExamples();
  }

  /** Both contracts leave other rows alone and keep the table keyed. */
  lemma AddPointsFrame(policy: AddPointsPolicy, rows: PlayerTable, userId: string, guildId: string,
                       delta: real, reroll: int, now: int)
    requires RowsKeyed(rows)
    ensures var (after, _) := AddPointsBy(policy, rows, userId, guildId, delta, reroll, now);
      RowsKeyed(after) &&
      forall k :: k in rows && k != (userId, guildId) ==> k in after && after[k] == rows[k]
  {
  }

  /** Both contracts keep every meter within [0, ceiling] for non-negative awards (and a
      non-negative re-randomised ceiling); the capped one never penalises. */
  lemma AddPointsKeepsMeters(policy: AddPointsPolicy, rows: PlayerTable, userId: string, guildId: string,
                             delta: real, reroll: int, now: int)
    requires MetersInRange(rows) && delta >= 0.0 && reroll >= 0
    ensures var (after, res) := AddPointsBy(policy, rows, userId, guildId, delta, reroll, now);
      MetersInRange(after) && (policy == Capped ==> !res.PenaltyApplied())
  {
  }

  /** Both contracts keep every ceiling one the game can have drawn, provided the
      penalising one re-randomises from the starting 300 as the source does. */
  lemma AddPointsKeepsCeilingsDrawn(policy: AddPointsPolicy, rows: PlayerTable, userId: string, guildId: string,
                                    delta: real, reroll: int, now: int)
    requires CeilingsDrawn(rows)
    requires policy == PenaltyOnOverflow ==> InVariationRange(reroll, INITIAL_MAX_POINTS)
    ensures CeilingsDrawn(AddPointsBy(policy, rows, userId, guildId, delta, reroll, now).0)
    ensures forall k :: k in AddPointsBy(policy, rows, userId, guildId, delta, reroll, now).0 ==>
      240 <= AddPointsBy(policy, rows, userId, guildId, delta, reroll, now).0[k].maxPoints <= 360
  {
    PenaltyExamples();
  }

  /** Worked examples: a level-1 player loses 1 level and stays at 1, a level-20 player loses
      2 and drops to 18; a base of 300 re-randomises within [240, 360]. */
  lemma PenaltyExamples()
    ensures LevelsLost(1) == 1 && Max(1, 1 - LevelsLost(1)) == 1
    ensures LevelsLost(20) == 2 && Max(1, 20 - LevelsLost(20)) == 18
    ensures VariationRange(INITIAL_MAX_POINTS) == (240, 360)
  {
    assert (300 as real * 0.8) == 240.0;
    assert (300 as real * 1.2) == 360.0;
  }

  /** Level loss is ceil(level / 10) for every positive level. */
  lemma LevelsLostIsCeilTenth(level: int)
    requires level >= 1
    ensures LevelsLost(level) == (level + 9) / 10
    ensures LevelsLost(level) * 10 >= level > (LevelsLost(level) - 1) * 10
  {
  }
}
