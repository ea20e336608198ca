/** The channels table (enable flags per (channelId, guildId)) and the tracked-messages
    table, kept as one recency window per channel in which index i holds position i. */
module ChannelRepo {
  import opened Constants
  import opened Models

  type ChannelFlags = map<(string, string), bool>
  type Windows = map<string, seq<TrackedMessage>>

  // ---------------------------------------------------------------------------------------
  // Channel flags

  /** A channel never set is disabled. */
  function ChannelActive(flags: ChannelFlags, channelId: string, guildId: string): bool
  {
    if (channelId, guildId) in flags then flags[(channelId, guildId)] else false
  }

  /** The guild's enabled channels. */
  function ActiveChannels(flags: ChannelFlags, guildId: string): set<Channel>
  {
    set k | k in flags && k.1 == guildId && flags[k] :: Channel(k.0, k.1, true)
  }

  /** `getActiveChannels(g)` lists exactly the channels of g whose flag is set, each once. */
  lemma ActiveChannelsExact(flags: ChannelFlags, guildId: string)
    ensures forall c :: c in ActiveChannels(flags, guildId) ==>
      c.guildId == guildId && c.isActive && ChannelActive(flags, c.channelId, guildId)
    ensures forall channelId :: ChannelActive(flags, channelId, guildId) ==>
      Channel(channelId, guildId, true) in ActiveChannels(flags, guildId)
  {
    forall channelId | ChannelActive(flags, channelId, guildId)
      ensures Channel(channelId, guildId, true) in ActiveChannels(flags, guildId)
    {
      var k := (channelId, guildId);
      assert k in flags && k.1 == guildId && flags[k];
    }
  }

  /** `setChannelActive(c, g, b)` then `isChannelActive(c, g) == b`; other channels keep
      their flags; a channel never set reads as disabled. */
  lemma SetThenRead(flags: ChannelFlags, channelId: string, guildId: string, active: bool)
    ensures ChannelActive(flags[(channelId, guildId) := active], channelId, guildId) == active
    ensures forall c, g :: (c, g) != (channelId, guildId) ==>
      ChannelActive(flags[(channelId, guildId) := active], c, g) == ChannelActive(flags, c, g)
    ensures !ChannelActive(map[], channelId, guildId)
  {
  }

  // ---------------------------------------------------------------------------------------
  // Recency windows

  /** A channel's window: at most W entries, entry i at position i, all of that channel,
      message ids distinct. */
  predicate ValidWindow(w: seq<TrackedMessage>, channelId: string)
  {
    |w| <= POINT_DISTRIBUTION_WINDOW &&
    (forall i :: 0 <= i < |w| ==> w[i].position == i && w[i].channelId == channelId) &&
    (forall i, j :: 0 <= i < j < |w| ==> w[i].messageId != w[j].messageId)
  }

  function WindowOf(windows: Windows, channelId: string): seq<TrackedMessage>
  {
    if channelId in windows then windows[channelId] else []
  }

  /** `position = position + 1` for every entry of the channel. */
  function Shifted(w: seq<TrackedMessage>): (r: seq<TrackedMessage>)
    ensures |r| == |w|
    ensures forall i {:trigger r[i]} :: 0 <= i < |w| ==> r[i] == w[i].(position := w[i].position + 1)
  {
    seq(|w|, i requires 0 <= i < |w| => w[i].(position := w[i].position + 1))
  }

  /** `DELETE ... WHERE position >= W`: keep the entries below the window size, in order. */
  function Evict(s: seq<TrackedMessage>): seq<TrackedMessage>
  {
    if |s| == 0 then []
    else (if s[0].position < POINT_DISTRIBUTION_WINDOW then [s[0]] else []) + Evict(s[1..])
  }

  /** The channel's window after `addTrackedMessage(msg)`: shift, insert at 0, evict. */
  function Inserted(w: seq<TrackedMessage>, msg: TrackedMessage): seq<TrackedMessage>
  {
    Evict([msg.(position := 0)] + Shifted(w))
  }

  /** Evicting from entries numbered consecutively from `offset` keeps exactly those below W. */
  lemma {:induction false} EvictConsecutive(s: seq<TrackedMessage>, offset: nat)
    requires forall i :: 0 <= i < |s| ==> s[i].position == i + offset
    ensures Evict(s) == s[..Max(0, Min(|s|, POINT_DISTRIBUTION_WINDOW - offset))]
  {
    if |s| > 0 {
      EvictConsecutive(s[1..], offset + 1);
      if offset < POINT_DISTRIBUTION_WINDOW {
        assert s[..Max(0, Min(|s|, POINT_DISTRIBUTION_WINDOW - offset))]
            == [s[0]] + s[1..][..Max(0, Min(|s| - 1, POINT_DISTRIBUTION_WINDOW - offset - 1))];
      }
    }
  }

  /** `addTrackedMessage` on a valid window: the new message sits at position 0, every old
      entry moves up one position, the oldest falls out once there are more than W, and the
      window stays valid. */
  lemma InsertedShape(w: seq<TrackedMessage>, channelId: string, msg: TrackedMessage)
    requires ValidWindow(w, channelId) && msg.channelId == channelId
    requires forall i :: 0 <= i < |w| ==> w[i].messageId != msg.messageId
    ensures var r := Inserted(w, msg);
      ValidWindow(r, channelId) &&
      |r| == Min(|w| + 1, POINT_DISTRIBUTION_WINDOW) &&
      r[0] == msg.(position := 0) &&
      forall i :: 0 <= i < |w| && i + 1 < POINT_DISTRIBUTION_WINDOW ==> r[i + 1] == w[i].(position := i + 1)
  {
    var s := [msg.(position := 0)] + Shifted(w);
    EvictConsecutive(s, 0);
  }

  /** The message ids of a sequence of entries. */
  function Ids(s: seq<TrackedMessage>): set<string>
  {
    set e | e in s :: e.messageId
  }

  predicate DistinctIds(s: seq<TrackedMessage>)
  {
    forall i, j :: 0 <= i < j < |s| ==> s[i].messageId != s[j].messageId
  }

  /** One insertion: the window stays valid, gains only the new id, moves entry j to j + 1
      and forgets the entry that was at position W - 1. */
  lemma InsertedStep(w: seq<TrackedMessage>, channelId: string, msg: TrackedMessage)
    requires ValidWindow(w, channelId) && msg.channelId == channelId && msg.messageId !in Ids(w)
    ensures var r := Inserted(w, msg);
      ValidWindow(r, channelId) && |r| == Min(|w| + 1, POINT_DISTRIBUTION_WINDOW) &&
      Ids(r) <= Ids(w) + {msg.messageId} &&
      (forall j :: 0 <= j < |w| && j + 1 < POINT_DISTRIBUTION_WINDOW ==> r[j + 1] == w[j].(position := j + 1)) &&
      (forall j :: 0 <= j < |w| && j + 1 >= POINT_DISTRIBUTION_WINDOW ==> w[j].messageId !in Ids(r))
  {
    assert forall i :: 0 <= i < |w| ==> w[i].messageId in Ids(w);
    InsertedShape(w, channelId, msg);
    var r := Inserted(w, msg);
    forall x | x in Ids(r)
      ensures x in Ids(w) + {msg.messageId}
    {
      var e :| e in r && e.messageId == x;
      var i :| 0 <= i < |r| && r[i] == e;
      if i > 0 { assert r[i] == w[i - 1].(position := i); }
    }
    forall j | 0 <= j < |w| && j + 1 >= POINT_DISTRIBUTION_WINDOW
      ensures w[j].messageId !in Ids(r)
    {
      forall e | e in r
        ensures e.messageId != w[j].messageId
      {
        var i :| 0 <= i < |r| && r[i] == e;
        if i > 0 { assert r[i] == w[i - 1].(position := i); }
      }
    }
  }

  /** Insert a batch of messages, oldest first. */
  function InsertAll(w: seq<TrackedMessage>, msgs: seq<TrackedMessage>): seq<TrackedMessage>
    decreases |msgs|
  {
    if |msgs| == 0 then w else InsertAll(Inserted(w, msgs[0]), msgs[1..])
  }

  /** The conditions under which a batch of messages may be tracked in a window: all of the
      channel, ids distinct and not already tracked. */
  predicate Insertable(w: seq<TrackedMessage>, channelId: string, msgs: seq<TrackedMessage>)
  {
    ValidWindow(w, channelId) && DistinctIds(msgs) && Ids(msgs) !! Ids(w) &&
    forall i :: 0 <= i < |msgs| ==> msgs[i].channelId == channelId
  }

  /** Tracking the first message of an insertable batch leaves the rest insertable. */
  lemma InsertableTail(w: seq<TrackedMessage>, channelId: string, msgs: seq<TrackedMessage>)
    requires Insertable(w, channelId, msgs) && |msgs| > 0
    ensures Insertable(Inserted(w, msgs[0]), channelId, msgs[1..])
    ensures msgs[0].messageId !in Ids(w)
  {
    var m, rest := msgs[0], msgs[1..];
    assert m in msgs;
    InsertedStep(w, channelId, m);
    assert Ids(rest) <= Ids(msgs) by {
      assert forall x :: x in rest ==> x in msgs;
    }
    assert m.messageId !in Ids(rest) by {
      forall x | x in rest
        ensures x.messageId != m.messageId
      {
        var j :| 0 <= j < |rest| && rest[j] == x;
        assert msgs[j + 1] == x;
      }
    }
  }

  /** A batch of new messages of the channel keeps the window valid, at min(n + k, W)
      entries, holding only ids it held before or that were inserted. */
  lemma {:induction false} InsertAllValid(w: seq<TrackedMessage>, channelId: string, msgs: seq<TrackedMessage>)
    requires Insertable(w, channelId, msgs)
    ensures var r := InsertAll(w, msgs);
      ValidWindow(r, channelId) && |r| == Min(|w| + |msgs|, POINT_DISTRIBUTION_WINDOW) &&
      Ids(r) <= Ids(w) + Ids(msgs)
    decreases |msgs|
  {
    if |msgs| > 0 {
      InsertableTail(w, channelId, msgs);
      InsertedStep(w, channelId, msgs[0]);
      InsertAllValid(Inserted(w, msgs[0]), channelId, msgs[1..]);
      assert msgs[0] in msgs;
      assert Ids(msgs[1..]) <= Ids(msgs) by {
        assert forall x :: x in msgs[1..] ==> x in msgs;
      }
    }
  }

  /** One insertion moves the entry at position p to p + 1 while p + 1 < W. */
  lemma AdvanceOne(w: seq<TrackedMessage>, channelId: string, msg: TrackedMessage, p: nat)
    requires ValidWindow(w, channelId) && msg.channelId == channelId && msg.messageId !in Ids(w)
    requires p < |w| && p + 1 < POINT_DISTRIBUTION_WINDOW
    ensures p + 1 < |Inserted(w, msg)| && Inserted(w, msg)[p + 1] == w[p].(position := p + 1)
  {
    InsertedStep(w, channelId, msg);
  }

  /** Each further message of the channel moves a tracked entry up one position. */
  lemma {:induction false} InsertAllAdvances(w: seq<TrackedMessage>, channelId: string, msgs: seq<TrackedMessage>, p: nat)
    requires Insertable(w, channelId, msgs) && p < |w| && p + |msgs| < POINT_DISTRIBUTION_WINDOW
    ensures p + |msgs| < |InsertAll(w, msgs)|
    ensures InsertAll(w, msgs)[p + |msgs|] == w[p].(position := p + |msgs|)
    decreases |msgs|
  {
    if |msgs| > 0 {
      InsertableTail(w, channelId, msgs);
      AdvanceOne(w, channelId, msgs[0], p);
      var w1, rest := Inserted(w, msgs[0]), msgs[1..];
      InsertAllAdvances(w1, channelId, rest, p + 1);
      var k := p + |msgs|;
      assert p + 1 + |rest| == k;
      assert w1[p + 1].(position := k) == w[p].(position := k);
    }
  }

  /** Once W further messages of the channel have arrived, a tracked entry is forgotten. */
  lemma {:induction false} InsertAllForgets(w: seq<TrackedMessage>, channelId: string, msgs: seq<TrackedMessage>, p: nat)
    requires Insertable(w, channelId, msgs) && p < |w| && p + |msgs| >= POINT_DISTRIBUTION_WINDOW
    ensures w[p].messageId !in Ids(InsertAll(w, msgs))
    decreases |msgs|
  {
    assert |msgs| > 0;
    InsertableTail(w, channelId, msgs);
    InsertedStep(w, channelId, msgs[0]);
    var w1, rest := Inserted(w, msgs[0]), msgs[1..];
    if p + 1 < POINT_DISTRIBUTION_WINDOW {
      assert w1[p + 1] == w[p].(position := p + 1);
      InsertAllForgets(w1, channelId, rest, p + 1);
    } else {
      assert w[p] in w;
      assert w[p].messageId !in Ids(msgs);
      assert w[p].messageId !in Ids(rest) by {
        assert forall x :: x in rest ==> x in msgs;
      }
      InsertAllValid(w1, channelId, rest);
    }
  }

  /** After W + 1 messages in one channel, the first of them is no longer tracked. */
  lemma FirstMessageEvicted(w: seq<TrackedMessage>, channelId: string, first: TrackedMessage, later: seq<TrackedMessage>)
    requires Insertable(w, channelId, [first] + later) && |later| == POINT_DISTRIBUTION_WINDOW
    ensures first.messageId !in Ids(InsertAll(w, [first] + later))
  {
    var msgs := [first] + later;
    InsertableTail(w, channelId, msgs);
    InsertedShape(w, channelId, first);
    var w1 := Inserted(w, first);
    assert msgs[1..] == later;
    assert w1[0] == first.(position := 0);
    InsertAllForgets(w1, channelId, later, 0);
  }

  /** The first `limit` entries in ascending position (all of them for a negative limit). */
  function Recent(w: seq<TrackedMessage>, limit: int): seq<TrackedMessage>
  {
    if 0 <= limit < |w| then w[..limit] else w
  }

  /** `getRecentMessages` returns at most `limit` entries of the channel, in ascending
      position starting from the newest (position 0). */
  lemma RecentShape(w: seq<TrackedMessage>, channelId: string, limit: int)
    requires ValidWindow(w, channelId)
    ensures var r := Recent(w, limit);
      (limit >= 0 ==> |r| <= limit) && |r| <= POINT_DISTRIBUTION_WINDOW &&
      |r| == (if 0 <= limit < |w| then limit else |w|) && r == w[..|r|] &&
      (limit < 0 || limit >= |w| ==> r == w) &&
      forall i :: 0 <= i < |r| ==> r[i] == w[i] && r[i].position == i && r[i].channelId == channelId
  {
  }

  /** On a valid window the eviction `clearOldMessages` performs removes nothing. */
  lemma EvictIdleOnValid(w: seq<TrackedMessage>, channelId: string)
    requires ValidWindow(w, channelId)
    ensures Evict(w) == w
  {
    EvictConsecutive(w, 0);
  }

  // ---------------------------------------------------------------------------------------
  // The repository

  class ChannelRepository {
    var flags: ChannelFlags
    var windows: Windows

    predicate Valid()
      reads this
    {
      forall c :: c in windows ==> ValidWindow(windows[c], c)
    }

    /** No message id is tracked in any channel. */
    predicate FreshId(messageId: string)
      reads this
    {
      forall c, i :: c in windows && 0 <= i < |windows[c]| ==> windows[c][i].messageId != messageId
    }

    constructor ()
      ensures Valid() && flags == map[] && windows == map[]
    {
      flags := map[];
      windows := map[];
    }

    /** `isChannelActive`: the stored flag, false for a channel never configured. */
    function IsChannelActive(channelId: string, guildId: string): (r: bool)
      reads this
      ensures r <==> (channelId, guildId) in flags && flags[(channelId, guildId)]
    {
      ChannelActive(flags, channelId, guildId)
    }

    method SetChannelActive(channelId: string, guildId: string, isActive: bool)
      modifies this
      ensures flags == old(flags)[(channelId, guildId) := isActive]
      ensures windows == old(windows)
    {
      flags := flags[(channelId, guildId) := isActive];
    }

    /** `getActiveChannels`: exactly the guild's enabled channels. */
    function GetActiveChannels(guildId: string): (r: set<Channel>)
      reads this
      ensures forall c :: c in r ==> c.guildId == guildId && c.isActive && IsChannelActive(c.channelId, guildId)
      ensures forall channelId :: IsChannelActive(channelId, guildId) ==> Channel(channelId, guildId, true) in r
    {
      ActiveChannelsExact(flags, guildId);
      ActiveChannels(flags, guildId)
    }

    /** `addTrackedMessage`; the message id is the table's primary key, so it must be new. */
    method AddTrackedMessage(msg: TrackedMessage)
      requires Valid() && FreshId(msg.messageId)
      modifies this
      ensures Valid()
      ensures windows == old(windows)[msg.channelId := Inserted(WindowOf(old(windows), msg.channelId), msg)]
      ensures flags == old(flags)
    {
      var w := WindowOf(windows, msg.channelId);
      InsertedShape(w, msg.channelId, msg);
      windows := windows[msg.channelId := Inserted(w, msg)];
    }

    /** `getRecentMessages`: the channel's entries by ascending position, at most `limit`. */
    function GetRecentMessages(channelId: string, limit: int): (r: seq<TrackedMessage>)
      reads this
      requires Valid()
      ensures limit >= 0 ==> |r| <= limit
      ensures |r| <= POINT_DISTRIBUTION_WINDOW
      ensures forall i :: 0 <= i < |r| ==> r[i].position == i && r[i].channelId == channelId
      ensures limit < 0 || limit >= |WindowOf(windows, channelId)| ==> r == WindowOf(windows, channelId)
      ensures |r| == if 0 <= limit < |WindowOf(windows, channelId)| then limit else |WindowOf(windows, channelId)|
      ensures r == WindowOf(windows, channelId)[..|r|]
    {
      RecentShape(WindowOf(windows, channelId), channelId, limit);
      Recent(WindowOf(windows, channelId), limit)
    }

    method ClearOldMessages(channelId: string)
      requires Valid()
      modifies this
      ensures Valid()
      ensures windows == old(windows) && flags == old(flags)
    {
      if channelId in windows {
        EvictIdleOnValid(windows[channelId], channelId);
        windows := windows[channelId := Evict(windows[channelId])];
      }
    }
  }
}
