/** Turning a chat message into points: every earlier message still in the channel's window
    earns its author a share that shrinks with its age, tripled while the author's boost
    runs; then the new message joins the window. */
module PointTracking {
  import opened Constants
  import opened Models
  import opened PlayerRepo
  import opened ChannelRepo
  import JamBoost

  /** The award for the entry at `position`: (W - position) / W, times the boost multiplier
      when the entry's author is boosted. */
  function Award(position: int, boosted: bool): real
  {
    var base := (POINT_DISTRIBUTION_WINDOW - position) as real / POINT_DISTRIBUTION_WINDOW as real;
    if boosted then base * BOOST_MULTIPLIER as real else base
  }

  /** Ceilings drawn as the source re-randomises them: 80%..120% of the starting 300. */
  predicate DrawnCeilings(rerolls: seq<int>)
  {
    forall i :: 0 <= i < |rerolls| ==> InVariationRange(rerolls[i], INITIAL_MAX_POINTS)
  }

  /** The table, the penalties collected so far, and the amounts handed to `addPoints` in order. */
  datatype Distribution = Distribution(rows: PlayerTable, penalties: seq<PenaltyInfo>, awards: seq<real>)

  /** One pass of the loop body for window entry `m`. */
  function AwardStep(d: Distribution, m: TrackedMessage, guildId: string, sender: string,
                     policy: AddPointsPolicy, reroll: int, now: int): Distribution
  {
    if m.userId == sender then d
    else
      var rows1 := WithPlayer(d.rows, m.userId, guildId);
      var points := Award(m.position, JamBoost.BoostActive(rows1[(m.userId, guildId)], now));
      var (rows2, res) := AddPointsBy(policy, rows1, m.userId, guildId, points, reroll, now);
      var found := if res.PenaltyApplied() then [PenaltyInfo(m.userId, res.levelsLost, res.oldLevel, res.newLevel)] else [];
      Distribution(rows2, d.penalties + found, d.awards + [points])
  }

  /** Distributing over one more entry is one more loop pass. */
  lemma DistributedStep(rows: PlayerTable, msgs: seq<TrackedMessage>, i: nat, guildId: string, sender: string,
                        policy: AddPointsPolicy, rerolls: seq<int>, now: int)
    requires i < |msgs| <= |rerolls|
    ensures Distributed(rows, msgs[..i + 1], guildId, sender, policy, rerolls, now) ==
      AwardStep(Distributed(rows, msgs[..i], guildId, sender, policy, rerolls, now), msgs[i], guildId, sender, policy, rerolls[i], now)
  {
    assert msgs[..i + 1][..i] == msgs[..i];
  }

  /** One loop pass assembled from its parts: the award computed on the table with the
      author's row created, then the addition on that table. */
  lemma AwardStepFromParts(d: Distribution, m: TrackedMessage, guildId: string, sender: string,
                           policy: AddPointsPolicy, reroll: int, now: int, points: real,
                           rows2: PlayerTable, res: AddPointsResult)
    requires m.userId != sender
    requires var rows1 := WithPlayer(d.rows, m.userId, guildId);
      points == Award(m.position, JamBoost.BoostActive(rows1[(m.userId, guildId)], now)) &&
      (rows2, res) == AddPointsBy(policy, rows1, m.userId, guildId, points, reroll, now)
    ensures AwardStep(d, m, guildId, sender, policy, reroll, now) ==
      Distribution(rows2,
                   d.penalties + (if res.PenaltyApplied() then [PenaltyInfo(m.userId, res.levelsLost, res.oldLevel, res.newLevel)] else []),
                   d.awards + [points])
  {
  }

  /** `distributePoints` over the window entries `msgs`, in order; `rerolls[i]` is the ceiling
      drawn should entry i's award overflow. */
  function Distributed(rows: PlayerTable, msgs: seq<TrackedMessage>, guildId: string, sender: string,
                       policy: AddPointsPolicy, rerolls: seq<int>, now: int): (r: Distribution)
    requires |rerolls| >= |msgs|
    ensures rows.Keys <= r.rows.Keys
    decreases |msgs|
  {
    if |msgs| == 0 then Distribution(rows, [], [])
    else
      var n := |msgs| - 1;
      AwardStep(Distributed(rows, msgs[..n], guildId, sender, policy, rerolls, now),
                msgs[n], guildId, sender, policy, rerolls[n], now)
  }

  /** `processMessage` on the two tables: distribute over the channel's window as it was,
      then track the new message. */
  function ProcessOn(rows: PlayerTable, windows: Windows, msg: TrackedMessage,
                     policy: AddPointsPolicy, rerolls: seq<int>, now: int): (r: (PlayerTable, Windows, seq<PenaltyInfo>))
    requires |rerolls| >= POINT_DISTRIBUTION_WINDOW && ValidWindow(WindowOf(windows, msg.channelId), msg.channelId)
    ensures rows.Keys <= r.0.Keys
    ensures (msg.userId, msg.guildId) in r.0 <==> (msg.userId, msg.guildId) in rows
    ensures (msg.userId, msg.guildId) in rows ==> r.0[(msg.userId, msg.guildId)] == rows[(msg.userId, msg.guildId)]
    ensures r.1.Keys == windows.Keys + {msg.channelId}
    ensures forall c :: c in windows && c != msg.channelId ==> r.1[c] == windows[c]
    ensures policy == Capped ==> r.2 == []
    ensures CeilingsDrawn(rows) && DrawnCeilings(rerolls) ==> CeilingsDrawn(r.0)
  {
    var before := WindowOf(windows, msg.channelId);
    var recent := Recent(before, POINT_DISTRIBUTION_WINDOW);
    var d := Distributed(rows, recent, msg.guildId, msg.userId, policy, rerolls, now);
    SenderUntouched(rows, recent, msg.guildId, msg.userId, policy, rerolls, now);
    PenaltiesReported(rows, recent, msg.guildId, msg.userId, policy, rerolls, now);
    assert CeilingsDrawn(rows) && DrawnCeilings(rerolls) ==> CeilingsDrawn(d.rows) by {
      if CeilingsDrawn(rows) && DrawnCeilings(rerolls) {
        DistributedKeepsCeilingsDrawn(rows, recent, msg.guildId, msg.userId, policy, rerolls, now);
      }
    }
    (d.rows, windows[msg.channelId := Inserted(before, msg)], d.penalties)
  }

  // ---------------------------------------------------------------------------------------
  // Awards

  /** 1 point at position 0, 1/W at position W - 1, and the boost triples any award. */
  lemma AwardValues(position: int)
    ensures Award(0, false) == 1.0
    ensures Award(POINT_DISTRIBUTION_WINDOW - 1, false) == 1.0 / POINT_DISTRIBUTION_WINDOW as real
    ensures Award(position, true) == 3.0 * Award(position, false)
    ensures 0 <= position < POINT_DISTRIBUTION_WINDOW ==> 0.0 < Award(position, false) <= 1.0
  {
  }

  /** Sum of a sequence of awards. */
  function Sum(s: seq<real>): real
  {
    if |s| == 0 then 0.0 else Sum(s[..|s| - 1]) + s[|s| - 1]
  }

  /** (W - 0) + (W - 1) + ... + (W - (n - 1)). */
  function Shares(n: nat): int
  {
    if n == 0 then 0 else Shares(n - 1) + (POINT_DISTRIBUTION_WINDOW - (n - 1))
  }

  lemma {:induction false} SharesClosedForm(n: nat)
    ensures 2 * Shares(n) == n * (2 * POINT_DISTRIBUTION_WINDOW - n + 1)
  {
    if n > 0 {
      SharesClosedForm(n - 1);
    }
  }

  lemma {:induction false} SharesUpToWindow(n: nat)
    requires n <= POINT_DISTRIBUTION_WINDOW
    ensures Shares(n) <= Shares(POINT_DISTRIBUTION_WINDOW)
    decreases POINT_DISTRIBUTION_WINDOW - n
  {
    if n < POINT_DISTRIBUTION_WINDOW {
      SharesUpToWindow(n + 1);
    }
  }

  /** Over a window whose entry i sits at position i, the awards add up to at most
      3 * Shares(n) / W. */
  lemma {:induction false} AwardsBoundedByShares(rows: PlayerTable, msgs: seq<TrackedMessage>, guildId: string,
                                                 sender: string, policy: AddPointsPolicy, rerolls: seq<int>, now: int)
    requires |rerolls| >= |msgs| && |msgs| <= POINT_DISTRIBUTION_WINDOW
    requires forall i :: 0 <= i < |msgs| ==> msgs[i].position == i
    ensures Sum(Distributed(rows, msgs, guildId, sender, policy, rerolls, now).awards) * 10.0
            <= 3.0 * Shares(|msgs|) as real
    decreases |msgs|
  {
    if |msgs| > 0 {
      var n := |msgs| - 1;
      var d := Distributed(rows, msgs[..n], guildId, sender, policy, rerolls, now);
      AwardsBoundedByShares(rows, msgs[..n], guildId, sender, policy, rerolls, now);
      var m := msgs[n];
      if m.userId != sender {
        var rows1 := WithPlayer(d.rows, m.userId, guildId);
        var points := Award(m.position, JamBoost.BoostActive(rows1[(m.userId, guildId)], now));
        assert points * 10.0 <= 3.0 * (POINT_DISTRIBUTION_WINDOW - n) as real;
        var awards := d.awards + [points];
        assert awards[..|awards| - 1] == d.awards;
        assert Sum(awards) == Sum(d.awards) + points;
      }
    }
  }

  /** One message hands out at most BOOST_MULTIPLIER * (W + 1) / 2 = 16.5 points in total. */
  lemma TotalAwardBound(rows: PlayerTable, w: seq<TrackedMessage>, channelId: string, guildId: string,
                        sender: string, policy: AddPointsPolicy, rerolls: seq<int>, now: int)
    requires ValidWindow(w, channelId) && |rerolls| >= |w|
    ensures Sum(Distributed(rows, w, guildId, sender, policy, rerolls, now).awards)
            <= BOOST_MULTIPLIER as real * (POINT_DISTRIBUTION_WINDOW + 1) as real / 2.0
  {
    AwardsBoundedByShares(rows, w, guildId, sender, policy, rerolls, now);
    SharesUpToWindow(|w|);
    SharesClosedForm(POINT_DISTRIBUTION_WINDOW);
  }

  // ---------------------------------------------------------------------------------------
  // Who is affected

  /** One step touches no row but the entry author's. */
  lemma StepFrame(d: Distribution, m: TrackedMessage, guildId: string, sender: string,
                  policy: AddPointsPolicy, reroll: int, now: int, k: PlayerKey)
    requires k != (m.userId, guildId)
    ensures var after := AwardStep(d, m, guildId, sender, policy, reroll, now).rows;
      (k in after <==> k in d.rows) && (k in after ==> after[k] == d.rows[k])
  {
  }

  /** The sender's own entries earn nothing, and the sender's row is neither created nor
      changed by the distribution. */
  lemma {:induction false} SenderUntouched(rows: PlayerTable, msgs: seq<TrackedMessage>, guildId: string,
                                           sender: string, policy: AddPointsPolicy, rerolls: seq<int>, now: int)
    requires |rerolls| >= |msgs|
    ensures var after := Distributed(rows, msgs, guildId, sender, policy, rerolls, now).rows;
      ((sender, guildId) in after <==> (sender, guildId) in rows) &&
      ((sender, guildId) in rows ==> after[(sender, guildId)] == rows[(sender, guildId)])
    decreases |msgs|
  {
    if |msgs| > 0 {
      var n := |msgs| - 1;
      var d := Distributed(rows, msgs[..n], guildId, sender, policy, rerolls, now);
      SenderUntouched(rows, msgs[..n], guildId, sender, policy, rerolls, now);
      if msgs[n].userId != sender {
        StepFrame(d, msgs[n], guildId, sender, policy, rerolls[n], now, (sender, guildId));
      }
    }
  }

  /** Every penalty is for an author other than the sender, loses at least one level, and
      reports the level it left the player at; under the capped contract there are none. */
  lemma {:induction false} PenaltiesReported(rows: PlayerTable, msgs: seq<TrackedMessage>, guildId: string,
                                             sender: string, policy: AddPointsPolicy, rerolls: seq<int>, now: int)
    requires |rerolls| >= |msgs|
    ensures var d := Distributed(rows, msgs, guildId, sender, policy, rerolls, now);
      |d.penalties| <= |d.awards| <= |msgs| &&
      (policy == Capped ==> d.penalties == []) &&
      forall p :: p in d.penalties ==>
        p.userId != sender && p.levelsLost >= 1 && p.newLevel == Max(1, p.oldLevel - p.levelsLost) &&
        exists i :: 0 <= i < |msgs| && msgs[i].userId == p.userId
    decreases |msgs|
  {
    if |msgs| > 0 {
      var n := |msgs| - 1;
      var d := Distributed(rows, msgs[..n], guildId, sender, policy, rerolls, now);
      PenaltiesReported(rows, msgs[..n], guildId, sender, policy, rerolls, now);
      var m := msgs[n];
      if m.userId != sender {
        var rows1 := WithPlayer(d.rows, m.userId, guildId);
        var points := Award(m.position, JamBoost.BoostActive(rows1[(m.userId, guildId)], now));
        var (rows2, res) := AddPointsBy(policy, rows1, m.userId, guildId, points, rerolls[n], now);
        if policy == Capped {
          CappedAddEffect(rows1, m.userId, guildId, points);
        }
        var d2 := AwardStep(d, m, guildId, sender, policy, rerolls[n], now);
        forall p | p in d2.penalties
          ensures p.userId != sender && p.levelsLost >= 1 && p.newLevel == Max(1, p.oldLevel - p.levelsLost) &&
                  exists i :: 0 <= i < |msgs| && msgs[i].userId == p.userId
        {
          if p in d.penalties {
            var i :| 0 <= i < n && msgs[..n][i].userId == p.userId;
            assert msgs[i].userId == p.userId;
          } else {
            assert msgs[n].userId == p.userId;
          }
        }
      }
    }
  }

  /** With ceilings drawn as the source draws them, every ceiling stays in [240, 360]: the
      rows created carry 300 and every penalty re-draws within the range. */
  lemma {:induction false} DistributedKeepsCeilingsDrawn(rows: PlayerTable, msgs: seq<TrackedMessage>, guildId: string,
                                                         sender: string, policy: AddPointsPolicy, rerolls: seq<int>, now: int)
    requires |rerolls| >= |msgs| && CeilingsDrawn(rows) && DrawnCeilings(rerolls)
    ensures CeilingsDrawn(Distributed(rows, msgs, guildId, sender, policy, rerolls, now).rows)
    decreases |msgs|
  {
    if |msgs| > 0 {
      var n := |msgs| - 1;
      var d := Distributed(rows, msgs[..n], guildId, sender, policy, rerolls, now);
      DistributedKeepsCeilingsDrawn(rows, msgs[..n], guildId, sender, policy, rerolls, now);
      var m := msgs[n];
      if m.userId != sender {
        var rows1 := WithPlayer(d.rows, m.userId, guildId);
        PenaltyExamples();
        assert CeilingsDrawn(rows1);
        var points := Award(m.position, JamBoost.BoostActive(rows1[(m.userId, guildId)], now));
        AddPointsKeepsCeilingsDrawn(policy, rows1, m.userId, guildId, points, rerolls[n], now);
      }
    }
  }

  /** Two players in a fresh channel: A posts, then B posts. A's meter rises by one point,
      B has no row (so reads as an empty meter), and nobody is penalised. */
  lemma TwoPlayerScenario(a: string, b: string, guildId: string, channelId: string,
                          id1: string, id2: string, t1: int, t2: int,
                          policy: AddPointsPolicy, rerolls: seq<int>, now: int)
    requires a != b && id1 != id2 && now >= 0 && |rerolls| >= POINT_DISTRIBUTION_WINDOW
    ensures var m1 := TrackedMessage(id1, channelId, guildId, a, t1, 0);
      var m2 := TrackedMessage(id2, channelId, guildId, b, t2, 0);
      var (rows1, windows1, pen1) := ProcessOn(map[], map[], m1, policy, rerolls, now);
      ValidWindow(WindowOf(windows1, channelId), channelId) &&
      var (rows2, windows2, pen2) := ProcessOn(rows1, windows1, m2, policy, rerolls, now);
      pen1 == [] && pen2 == [] &&
      (a, guildId) in rows2 && rows2[(a, guildId)].currentPoints == 1.0 &&
      (b, guildId) !in rows2 &&
      WindowOf(windows2, channelId) == [m2, m1.(position := 1)]
  {
    var m1 := TrackedMessage(id1, channelId, guildId, a, t1, 0);
    var m2 := TrackedMessage(id2, channelId, guildId, b, t2, 0);
    InsertedShape([], channelId, m1);
    var w1 := Inserted([], m1);
    assert w1 == [m1];
    InsertedShape(w1, channelId, m2);
    var w2 := Inserted(w1, m2);
    assert Recent(w1, POINT_DISTRIBUTION_WINDOW) == [m1];
    LoneEntryAward(m1, guildId, b, policy, rerolls, now);
  }

  /** A window holding one entry at position 0, by someone other than the sender, hands its
      author a fresh row with one whole point and no penalty. */
  lemma LoneEntryAward(m: TrackedMessage, guildId: string, sender: string,
                       policy: AddPointsPolicy, rerolls: seq<int>, now: int)
    requires m.userId != sender && m.position == 0 && now >= 0 && |rerolls| >= 1
    ensures var d := Distributed(map[], [m], guildId, sender, policy, rerolls, now);
      d.penalties == [] && d.rows.Keys == {(m.userId, guildId)} &&
      d.rows[(m.userId, guildId)].currentPoints == 1.0
  {
    assert [m][..0] == [];
    AwardValues(0);
    var a := m.userId;
    var rows0 := WithPlayer(map[], a, guildId);
    assert !JamBoost.BoostActive(rows0[(a, guildId)], now);
    var d0 := Distribution(map[], [], []);
    assert Distributed(map[], [m], guildId, sender, policy, rerolls, now) == AwardStep(d0, m, guildId, sender, policy, rerolls[0], now);
    var (rows2, res) := AddPointsBy(policy, rows0, a, guildId, 1.0, rerolls[0], now);
    assert res == NoPenalty(1.0, 300) && rows2 == rows0[(a, guildId) := rows0[(a, guildId)].(currentPoints := 1.0)];
    assert AwardStep(d0, m, guildId, sender, policy, rerolls[0], now) == Distribution(rows2, [], [1.0]);
  }

  // ---------------------------------------------------------------------------------------
  // The tracker

  class PointTracker {
    const channelRepo: ChannelRepository
    const playerRepo: PlayerRepository

    constructor (channels: ChannelRepository, players: PlayerRepository)
      ensures channelRepo == channels && playerRepo == players
    {
      channelRepo := channels;
      playerRepo := players;
    }

    /** `processMessage`: distribute over the window as it stands, then track the message.
        The message id is the tracked-messages key, so it must not be tracked already. */
    method ProcessMessage(messageId: string, channelId: string, guildId: string, userId: string,
                          timestamp: int, policy: AddPointsPolicy, rerolls: seq<int>, now: int)
      returns (penalties: seq<PenaltyInfo>)
      requires channelRepo.Valid() && channelRepo.FreshId(messageId) && playerRepo.Valid()
      requires |rerolls| >= POINT_DISTRIBUTION_WINDOW && DrawnCeilings(rerolls)
      modifies channelRepo, playerRepo
      ensures channelRepo.Valid() && playerRepo.Valid() && channelRepo.flags == old(channelRepo.flags)
      ensures ValidWindow(WindowOf(old(channelRepo.windows), channelId), channelId)
      ensures (playerRepo.players, channelRepo.windows, penalties) ==
              ProcessOn(old(playerRepo.players), old(channelRepo.windows),
                        TrackedMessage(messageId, channelId, guildId, userId, timestamp, 0), policy, rerolls, now)
    {
      assert channelRepo.windows == old(channelRepo.windows);
      if channelId in channelRepo.windows {
        assert ValidWindow(channelRepo.windows[channelId], channelId);
      }
      var recentMessages := channelRepo.GetRecentMessages(channelId, POINT_DISTRIBUTION_WINDOW);
      penalties := DistributePoints(recentMessages, guildId, userId, policy, rerolls, now);
      var newMessage := TrackedMessage(messageId, channelId, guildId, userId, timestamp, 0);
      channelRepo.AddTrackedMessage(newMessage);
    }

    /** The body of the `distributePoints` loop for one window entry: unless the entry is the
        sender's own, award its author and collect the penalty the addition reports. */
    method AwardEntry(message: TrackedMessage, guildId: string, currentUserId: string, policy: AddPointsPolicy,
                      reroll: int, now: int, ghost penalties: seq<PenaltyInfo>, ghost awards: seq<real>)
      returns (found: seq<PenaltyInfo>, ghost awarded: seq<real>)
      requires playerRepo.Valid() && InVariationRange(reroll, INITIAL_MAX_POINTS)
      modifies playerRepo
      ensures playerRepo.Valid()
      ensures AwardStep(Distribution(old(playerRepo.players), penalties, awards), message, guildId, currentUserId, policy, reroll, now)
              == Distribution(playerRepo.players, penalties + found, awards + awarded)
    {
      if message.userId == currentUserId {
        return [], [];
      }
      ghost var before := Distribution(playerRepo.players, penalties, awards);
      var basePoints := (POINT_DISTRIBUTION_WINDOW - message.position) as real / POINT_DISTRIBUTION_WINDOW as real;
      var sender := playerRepo.GetOrCreatePlayer(message.userId, guildId);
      var isBoostActive := sender.boostExpiresAt > now;
      var points := if isBoostActive then basePoints * BOOST_MULTIPLIER as real else basePoints;
      assert points == Award(message.position, JamBoost.BoostActive(WithPlayer(before.rows, message.userId, guildId)[(message.userId, guildId)], now));
      var result := playerRepo.AddPointsUnder(policy, message.userId, guildId, points, reroll, now);
      AwardStepFromParts(before, message, guildId, currentUserId, policy, reroll, now, points, playerRepo.players, result);
      found := if result.PenaltyApplied() then [PenaltyInfo(message.userId, result.levelsLost, result.oldLevel, result.newLevel)] else [];
      awarded := [points];
    }

    /** `distributePoints`: the loop over the window entries. */
    method DistributePoints(messages: seq<TrackedMessage>, guildId: string, currentUserId: string,
                            policy: AddPointsPolicy, rerolls: seq<int>, now: int)
      returns (penalties: seq<PenaltyInfo>)
      requires playerRepo.Valid() && |rerolls| >= |messages| && DrawnCeilings(rerolls)
      modifies playerRepo
      ensures playerRepo.Valid()
      ensures var d := Distributed(old(playerRepo.players), messages, guildId, currentUserId, policy, rerolls, now);
        playerRepo.players == d.rows && penalties == d.penalties
    {
      penalties := [];
      ghost var awards: seq<real> := [];
      var i := 0;
      while i < |messages|
        invariant 0 <= i <= |messages|
        invariant playerRepo.Valid()
        invariant Distributed(old(playerRepo.players), messages[..i], guildId, currentUserId, policy, rerolls, now)
                  == Distribution(playerRepo.players, penalties, awards)
      {
        DistributedStep(old(playerRepo.players), messages, i, guildId, currentUserId, policy, rerolls, now);
        var found;
        ghost var awarded;
        found, awarded := AwardEntry(messages[i], guildId, currentUserId, policy, rerolls[i], now, penalties, awards);
        penalties := penalties + found;
        awards := awards + awarded;
        i := i + 1;
      }
      assert messages[..|messages|] == messages;
    }
  }
}
