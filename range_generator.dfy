/** Upgrade-range generation: split [0, 1] into RANGE_SPLITS + 1 sub-intervals, scale them by
    the point ceiling, then "deflate" the integer ranges from the top down so that they are
    strictly ordered and end exactly at the ceiling. The random split fractions are an input. */
module RangeGenerator {
  import opened Constants
  import opened Models

  /** A sub-interval of the normalised meter [0, 1]. */
  datatype Interval = Interval(min: real, max: real)

  /** The smallest ceiling for which the top-down pass can keep every range at least one
      point wide: each of the RANGE_SPLITS lower ranges needs one point of width and one
      point of gap below the range above it. */
  const MIN_WIDE_MAX_POINTS: int := 2 * RANGE_SPLITS + 1

  function Lerp(a: real, b: real, t: real): (r: real)
    ensures b - r == (b - a) * (1.0 - t)
  {
    a + (b - a) * t
  }

  /** The random draws are one fraction per split, each within [RANGE_SPLIT_MIN, RANGE_SPLIT_MAX]. */
  predicate ValidSplits(splits: seq<real>)
  {
    |splits| == RANGE_SPLITS &&
    forall k :: 0 <= k < |splits| ==> RANGE_SPLIT_MIN <= splits[k] <= RANGE_SPLIT_MAX
  }

  /** The lower end of the still-unsplit remainder after `i` cuts (`currentMin` in the loop). */
  function Cut(splits: seq<real>, i: nat): real
    requires i <= |splits|
  {
    if i == 0 then 0.0 else Lerp(Cut(splits, i - 1), 1.0, splits[i - 1])
  }

  function Half(i: nat): real { if i == 0 then 1.0 else Half(i - 1) / 2.0 }
  function Fifth(i: nat): real { if i == 0 then 1.0 else Fifth(i - 1) / 5.0 }

  /** The normalised sub-intervals: one per cut, then the leftover [Cut(n), 1]. */
  function Normalized(splits: seq<real>): (n: seq<Interval>)
    ensures |n| == |splits| + 1
  {
    seq(|splits| + 1, k requires 0 <= k <= |splits| =>
      Interval(Cut(splits, k), if k < |splits| then Cut(splits, k + 1) else 1.0))
  }

  /** `Math.floor(x * maxPoints)`. */
  function Scale(x: real, maxPoints: int): int
  {
    (x * maxPoints as real).Floor
  }

  /** The ladder rung for range i >= 1, reusing the last rung if the ladder is too short. */
  function TierConfigFor(i: int): TierConfig
    requires i >= 1
  {
    if i - 1 < |UPGRADE_RANGES| then UPGRADE_RANGES[i - 1] else UPGRADE_RANGES[|UPGRADE_RANGES| - 1]
  }

  /** Range k before deflation: the scaled interval with the "not ready" label for k = 0. */
  function ProvisionalRange(iv: Interval, k: nat, maxPoints: int): UpgradeRange
  {
    if k == 0 then UpgradeRange(Scale(iv.min, maxPoints), Scale(iv.max, maxPoints), 0, NOT_READY_JAM)
    else UpgradeRange(Scale(iv.min, maxPoints), Scale(iv.max, maxPoints),
                      TierConfigFor(k).levelBonus, TierConfigFor(k).jamLevel)
  }

  function Provisional(norm: seq<Interval>, maxPoints: int): (p: seq<UpgradeRange>)
    ensures |p| == |norm|
  {
    seq(|norm|, k requires 0 <= k < |norm| => ProvisionalRange(norm[k], k, maxPoints))
  }

  /** One deflation step: set the range's max, then pull its min to at most max - 1 and at least 0. */
  function Clamp(r: UpgradeRange, newMax: int): (c: UpgradeRange)
    ensures c.max == newMax && c.levelBonus == r.levelBonus && c.jamLevel == r.jamLevel
    ensures 0 <= c.min <= Max(0, r.min)
    ensures newMax >= 1 ==> c.min <= c.max - 1
    ensures newMax <= 0 ==> c.min == 0
  {
    r.(max := newMax, min := Max(0, Min(r.min, newMax - 1)))
  }

  /** Range k after the top-down pass: the top range ends at maxPoints, every other range ends
      below the (already deflated) min of the range above it. */
  function DeflatedAt(prov: seq<UpgradeRange>, maxPoints: int, k: nat): UpgradeRange
    requires k < |prov|
    decreases |prov| - k
  {
    if k == |prov| - 1 then Clamp(prov[k], maxPoints)
    else Clamp(prov[k], Min(prov[k].max, DeflatedAt(prov, maxPoints, k + 1).min - 1))
  }

  function Deflated(prov: seq<UpgradeRange>, maxPoints: int): (d: seq<UpgradeRange>)
    ensures |d| == |prov|
  {
    seq(|prov|, k requires 0 <= k < |prov| => DeflatedAt(prov, maxPoints, k))
  }

  /** What `generateUpgradeRanges(maxPoints)` returns for the given split draws. */
  function UpgradeRanges(maxPoints: int, splits: seq<real>): seq<UpgradeRange>
  {
    Deflated(Provisional(Normalized(splits), maxPoints), maxPoints)
  }

  /** One pass of the deflation loop: range i is clamped below the deflated min of range i + 1
      (or to maxPoints for the top range). */
  lemma DeflateStep(prov: seq<UpgradeRange>, maxPoints: int, i: nat, nextRangeMin: int)
    requires i < |prov|
    requires i < |prov| - 1 ==> nextRangeMin == Deflated(prov, maxPoints)[i + 1].min
    ensures var newMax := if i == |prov| - 1 then maxPoints else Min(prov[i].max, nextRangeMin - 1);
      Deflated(prov, maxPoints)[i] == prov[i].(max := newMax, min := Max(0, Min(prov[i].min, newMax - 1)))
  {
  }

  /** The top-down deflation pass, in place. */
  method Deflate(a: array<UpgradeRange>, maxPoints: int)
    modifies a
    ensures a[..] == Deflated(old(a[..]), maxPoints)
  {
    ghost var prov := a[..];
    ghost var deflated := Deflated(prov, maxPoints);
    var nextRangeMin := maxPoints + 1;
    var i := a.Length;
    while i > 0
      invariant 0 <= i <= a.Length
      invariant forall k :: 0 <= k < i ==> a[k] == prov[k]
      invariant forall k :: i <= k < a.Length ==> a[k] == deflated[k]
      invariant i < a.Length ==> nextRangeMin == a[i].min
    {
      i := i - 1;
      var range := a[i];
      DeflateStep(prov, maxPoints, i, nextRangeMin);
      var newMax: int;
      if i == a.Length - 1 {
        newMax := maxPoints;
      } else {
        newMax := Min(range.max, nextRangeMin - 1);
      }
      var newMin := Min(range.min, newMax - 1);
      newMin := Max(0, newMin);
      a[i] := range.(max := newMax, min := newMin);
      nextRangeMin := newMin;
    }
    assert a[..] == deflated;
  }

  method GenerateUpgradeRanges(maxPoints: int, splits: seq<real>) returns (ranges: seq<UpgradeRange>)
    requires ValidSplits(splits)
    ensures ranges == UpgradeRanges(maxPoints, splits)
    ensures |ranges| == RANGE_SPLITS + 1 && ranges[RANGE_SPLITS].max == maxPoints
  {
    var normalized: seq<Interval> := [];
    var currentMin := 0.0;
    var currentMax := 1.0;
    var i := 0;
    while i < RANGE_SPLITS
      invariant 0 <= i <= RANGE_SPLITS
      invariant |normalized| == i && currentMin == Cut(splits, i) && currentMax == 1.0
      invariant forall k :: 0 <= k < i ==> normalized[k] == Normalized(splits)[k]
    {
      var newMax := Lerp(currentMin, currentMax, splits[i]);
      normalized := normalized + [Interval(currentMin, newMax)];
      currentMin := newMax;
      i := i + 1;
    }
    normalized := normalized + [Interval(currentMin, currentMax)];
    assert normalized == Normalized(splits);

    var a := new UpgradeRange[|normalized|];
    a[0] := ProvisionalRange(normalized[0], 0, maxPoints);
    var j := 1;
    while j < a.Length
      invariant 1 <= j <= a.Length
      invariant forall k :: 0 <= k < j ==> a[k] == Provisional(normalized, maxPoints)[k]
    {
      a[j] := ProvisionalRange(normalized[j], j, maxPoints);
      j := j + 1;
    }
    assert a[..] == Provisional(normalized, maxPoints);
    Deflate(a, maxPoints);
    ranges := a[..];
    assert ranges[RANGE_SPLITS] == DeflatedAt(Provisional(normalized, maxPoints), maxPoints, RANGE_SPLITS);
  }

  // ---------------------------------------------------------------------------------------
  // Range lookup

  predicate InRange(points: real, r: UpgradeRange)
  {
    r.min as real <= points <= r.max as real
  }

  /** First-match scan from index i, falling back to the last range. */
  function CurrentRangeIndexFrom(points: real, ranges: seq<UpgradeRange>, i: nat): (k: nat)
    requires 0 < |ranges| && i <= |ranges|
    ensures k < |ranges|
    ensures (i <= k && InRange(points, ranges[k]) &&
             forall j :: i <= j < k ==> !InRange(points, ranges[j]))
         || (k == |ranges| - 1 && forall j :: i <= j < |ranges| ==> !InRange(points, ranges[j]))
    decreases |ranges| - i
  {
    if i == |ranges| then |ranges| - 1
    else if InRange(points, ranges[i]) then i
    else CurrentRangeIndexFrom(points, ranges, i + 1)
  }

  /** `getCurrentRange` as written: the index of the first range with min <= points <= max,
      or of the last range when none matches. */
  function CurrentRangeIndex(points: real, ranges: seq<UpgradeRange>): (k: nat)
    requires 0 < |ranges|
    ensures k < |ranges|
    ensures InRange(points, ranges[k]) ==> forall j :: 0 <= j < k ==> !InRange(points, ranges[j])
    ensures !InRange(points, ranges[k]) ==>
      k == |ranges| - 1 && forall j :: 0 <= j < |ranges| ==> !InRange(points, ranges[j])
  {
    CurrentRangeIndexFrom(points, ranges, 0)
  }

  /** `getCurrentRange`: scan the ranges in order and return the first one holding `points`,
      or the last range when none does. */
  method GetCurrentRange(points: real, ranges: seq<UpgradeRange>) returns (range: UpgradeRange)
    requires 0 < |ranges|
    ensures range == ranges[CurrentRangeIndex(points, ranges)]
  {
    var i := 0;
    while i < |ranges|
      invariant 0 <= i <= |ranges|
      invariant CurrentRangeIndexFrom(points, ranges, i) == CurrentRangeIndex(points, ranges)
    {
      if points >= ranges[i].min as real && points <= ranges[i].max as real {
        return ranges[i];
      }
      i := i + 1;
    }
    return ranges[|ranges| - 1];
  }

  /** Corrected lookup: the ranges are integer ranges, so the scan is made on the whole
      points (`Math.floor(points)`); fractional points between two ranges then belong to the
      lower one instead of falling through to the top tier. */
  function CurrentTierIndex(points: real, ranges: seq<UpgradeRange>): (k: nat)
    requires 0 < |ranges|
    ensures k < |ranges|
    ensures InRange(points.Floor as real, ranges[k]) ==>
      forall j :: 0 <= j < k ==> !InRange(points.Floor as real, ranges[j])
    ensures !InRange(points.Floor as real, ranges[k]) ==>
      k == |ranges| - 1 && forall j :: 0 <= j < |ranges| ==> !InRange(points.Floor as real, ranges[j])
  {
    CurrentRangeIndex(points.Floor as real, ranges)
  }

  /** The corrected scan, as used by the upgrade logic. */
  method GetCurrentTier(points: real, ranges: seq<UpgradeRange>) returns (range: UpgradeRange)
    requires 0 < |ranges|
    ensures range == ranges[CurrentTierIndex(points, ranges)]
  {
    range := GetCurrentRange(points.Floor as real, ranges);
  }

  // ---------------------------------------------------------------------------------------
  // Tier sequences: what the generator is meant to produce

  /** Tiers that start at 0, end at maxPoints, are each at least one point wide and follow
      each other without a gap in whole points. */
  predicate WellFormedTiers(r: seq<UpgradeRange>, maxPoints: int)
  {
    |r| > 0 && r[0].min == 0 && r[|r| - 1].max == maxPoints &&
    (forall k :: 0 <= k < |r| ==> r[k].min + 1 <= r[k].max) &&
    (forall k :: 0 <= k < |r| - 1 ==> r[k].max + 1 == r[k + 1].min)
  }

  // ---------------------------------------------------------------------------------------
  // Lemmas: the normalised pass

  lemma MulMono(a: real, b: real, c: real, d: real)
    requires 0.0 <= a <= b && 0.0 <= c <= d
    ensures a * c <= b * d
  {
    calc {
      a * c;
    <= { assert (b - a) * c >= 0.0; }
      b * c;
    <= { assert b * (d - c) >= 0.0; }
      b * d;
    }
  }

  /** After i cuts the remainder 1 - Cut(i) lies between 0.2^i and 0.5^i: every cut keeps
      between 20% and 50% of what was left. */
  lemma {:induction false} RemainderBounds(splits: seq<real>, i: nat)
    requires ValidSplits(splits) && i <= |splits|
    ensures 0.0 < Fifth(i) <= 1.0 - Cut(splits, i) <= Half(i) <= 1.0
  {
    if i > 0 {
      RemainderBounds(splits, i - 1);
      var c, s := Cut(splits, i - 1), splits[i - 1];
      assert 1.0 - Cut(splits, i) == (1.0 - c) * (1.0 - s);
      MulMono(Fifth(i - 1), 1.0 - c, 0.2, 1.0 - s);
      MulMono(1.0 - c, Half(i - 1), 1.0 - s, 0.5);
    }
  }

  /** One cut of the normalised pass: the remainder after cut k + 1 is (1 - splits[k]) times
      the remainder after cut k, so it keeps between 20% and 50% of it and the cut moves up. */
  lemma CutStep(splits: seq<real>, k: nat)
    requires ValidSplits(splits) && k < |splits|
    ensures 1.0 - Cut(splits, k + 1) == (1.0 - splits[k]) * (1.0 - Cut(splits, k))
    ensures (1.0 - RANGE_SPLIT_MAX) * (1.0 - Cut(splits, k)) <= 1.0 - Cut(splits, k + 1)
    ensures 1.0 - Cut(splits, k + 1) <= (1.0 - RANGE_SPLIT_MIN) * (1.0 - Cut(splits, k))
    ensures 0.0 <= Cut(splits, k) < Cut(splits, k + 1) < 1.0
  {
    var c, s := Cut(splits, k), splits[k];
    assert 0.0 < 1.0 - c <= 1.0 by { RemainderBounds(splits, k); }
    var rem, f := 1.0 - c, 1.0 - s;
    assert Cut(splits, k + 1) == Lerp(c, 1.0, s);
    assert 1.0 - Cut(splits, k + 1) == f * rem;
    KeptShare(rem, f, 1.0 - Cut(splits, k + 1));
  }

  lemma KeptShare(rem: real, f: real, kept: real)
    requires kept == f * rem && 1.0 - RANGE_SPLIT_MAX <= f <= 1.0 - RANGE_SPLIT_MIN && rem > 0.0
    ensures (1.0 - RANGE_SPLIT_MAX) * rem <= kept <= (1.0 - RANGE_SPLIT_MIN) * rem
  {
    MulMono(1.0 - RANGE_SPLIT_MAX, f, rem, rem);
    MulMono(f, 1.0 - RANGE_SPLIT_MIN, rem, rem);
  }

  /** The normalised pass yields consecutive sub-intervals of [0, 1] that share endpoints
      and have positive width; each cut keeps between 20% and 50% of the remainder above it. */
  lemma NormalizedPartition(splits: seq<real>)
    requires ValidSplits(splits)
    ensures var n := Normalized(splits);
      n[0].min == 0.0 && n[|n| - 1].max == 1.0 &&
      (forall k :: 0 <= k < |n| - 1 ==> n[k].max == n[k + 1].min) &&
      (forall k :: 0 <= k < |n| ==> 0.0 <= n[k].min < n[k].max <= 1.0) &&
      (forall k :: 0 <= k < |splits| ==>
         (1.0 - RANGE_SPLIT_MAX) * (1.0 - n[k].min) <= 1.0 - n[k].max <= (1.0 - RANGE_SPLIT_MIN) * (1.0 - n[k].min))
  {
    var n := Normalized(splits);
    forall k | 0 <= k < |splits|
      ensures 0.0 <= n[k].min < n[k].max < 1.0
      ensures (1.0 - RANGE_SPLIT_MAX) * (1.0 - n[k].min) <= 1.0 - n[k].max <= (1.0 - RANGE_SPLIT_MIN) * (1.0 - n[k].min)
    {
      CutStep(splits, k);
    }
    CutStep(splits, |splits| - 1);
    assert n[|splits|].min == Cut(splits, |splits|);
  }

  /** With at least 13 points, cut i (i <= 6) lands on at least 2i whole points. */
  lemma ScaledCutLowerBound(splits: seq<real>, k: nat, maxPoints: int)
    requires ValidSplits(splits) && k <= |splits| && maxPoints >= MIN_WIDE_MAX_POINTS
    ensures Scale(Cut(splits, k), maxPoints) >= 2 * k
  {
    RemainderBounds(splits, k);
    var c, m := Cut(splits, k), maxPoints as real;
    MulMono(1.0 - Half(k), c, 13.0, m);
    assert Half(1) == 0.5 && Half(2) == 0.25 && Half(3) == 0.125;
    assert Half(4) == 0.0625 && Half(5) == 0.03125 && Half(6) == 0.015625;
    assert (1.0 - Half(k)) * 13.0 >= (2 * k) as real;
    assert c * m >= (2 * k) as real;
  }

  lemma ScaleNonNegative(x: real, maxPoints: int)
    requires 0.0 <= x && 0 <= maxPoints
    ensures Scale(x, maxPoints) >= 0
  {
    MulMono(0.0, x, 0.0, maxPoints as real);
  }

  // ---------------------------------------------------------------------------------------
  // Lemmas: the deflation pass, for arbitrary provisional ranges

  /** Deflation keeps the bonus ladder and labels, ends the top range at maxPoints, never
      produces a negative min, and leaves every range ending strictly below the next one. */
  lemma DeflatedOrdered(prov: seq<UpgradeRange>, maxPoints: int)
    requires |prov| > 0
    ensures var d := Deflated(prov, maxPoints);
      d[|d| - 1].max == maxPoints &&
      (forall k :: 0 <= k < |d| ==> d[k].min >= 0) &&
      (forall k :: 0 <= k < |d| ==> d[k].levelBonus == prov[k].levelBonus && d[k].jamLevel == prov[k].jamLevel) &&
      (forall k :: 0 <= k < |d| - 1 ==> d[k].max < d[k + 1].min)
  {
    var d := Deflated(prov, maxPoints);
    forall k | 0 <= k < |d| - 1
      ensures d[k].max < d[k + 1].min
    {
      assert d[k] == DeflatedAt(prov, maxPoints, k);
    }
  }

  /** The cascade bound: range k can end no higher than maxPoints - 2 * (ranges above it),
      or -1. Each range above takes at least one point of width and one of gap. */
  lemma {:induction false} DeflatedCascadeBound(prov: seq<UpgradeRange>, maxPoints: int, k: nat)
    requires k < |prov|
    ensures DeflatedAt(prov, maxPoints, k).max <= Max(-1, maxPoints - 2 * (|prov| - 1 - k))
    decreases |prov| - k
  {
    if k < |prov| - 1 {
      DeflatedCascadeBound(prov, maxPoints, k + 1);
      var above := DeflatedAt(prov, maxPoints, k + 1);
      assert above.min <= Max(0, above.max - 1);
    }
  }

  /** If provisional range k starts at 2k or above and (below the top) ends at 2k + 1 or
      above, and maxPoints leaves room for the cascade, then deflated range k still starts
      at 2k or above and ends at 2k + 1 or above. */
  lemma {:induction false} DeflatedLowerBound(prov: seq<UpgradeRange>, maxPoints: int, k: nat)
    requires k < |prov|
    requires maxPoints >= 2 * (|prov| - 1) + 1
    requires forall j :: 0 <= j < |prov| ==> prov[j].min >= 2 * j
    requires forall j :: 0 <= j < |prov| - 1 ==> prov[j].max >= 2 * j + 1
    ensures DeflatedAt(prov, maxPoints, k).min >= 2 * k
    ensures DeflatedAt(prov, maxPoints, k).max >= 2 * k + 1
    decreases |prov| - k
  {
    if k < |prov| - 1 {
      DeflatedLowerBound(prov, maxPoints, k + 1);
    }
  }

  /** When the provisional ranges share endpoints (range k ends where range k + 1 starts)
      and start at 0 or above, deflation leaves them contiguous in whole points. */
  lemma DeflatedContiguous(prov: seq<UpgradeRange>, maxPoints: int, k: nat)
    requires k < |prov| - 1
    requires prov[k].max == prov[k + 1].min && prov[k + 1].min >= 0
    ensures DeflatedAt(prov, maxPoints, k).max + 1 == DeflatedAt(prov, maxPoints, k + 1).min
  {
  }

  // ---------------------------------------------------------------------------------------
  // Lemmas: the generator as a whole

  /** `generateUpgradeRanges` returns RANGE_SPLITS + 1 = 7 ranges: range 0 is "not ready"
      with bonus 0, range i >= 1 carries the ladder's bonus i - 1, and the bonuses rise strictly. */
  lemma UpgradeRangesShape(maxPoints: int, splits: seq<real>)
    requires ValidSplits(splits)
    ensures var r := UpgradeRanges(maxPoints, splits);
      |r| == RANGE_SPLITS + 1 == 7 &&
      r[0].levelBonus == 0 && r[0].jamLevel == NOT_READY_JAM &&
      (forall i :: 1 <= i < |r| ==> r[i].levelBonus == UPGRADE_RANGES[i - 1].levelBonus &&
                                    r[i].jamLevel == UPGRADE_RANGES[i - 1].jamLevel) &&
      (forall i, j :: 0 <= i < j < |r| ==> r[i].levelBonus < r[j].levelBonus) &&
      r[|r| - 1].levelBonus == 50
  {
    var prov := Provisional(Normalized(splits), maxPoints);
    DeflatedOrdered(prov, maxPoints);
    UpgradeBonusesStrictlyIncrease();
  }

  /** For every ceiling and every draw: the top range ends exactly at maxPoints, no min is
      negative, and each range ends strictly before the next one starts. */
  lemma UpgradeRangesOrdered(maxPoints: int, splits: seq<real>)
    requires ValidSplits(splits)
    ensures var r := UpgradeRanges(maxPoints, splits);
      |r| == 7 && r[6].max == maxPoints &&
      (forall k :: 0 <= k < 7 ==> r[k].min >= 0) &&
      (forall k :: 0 <= k < 6 ==> r[k].max < r[k + 1].min)
  {
    DeflatedOrdered(Provisional(Normalized(splits), maxPoints), maxPoints);
  }

  /** With maxPoints >= 13 the provisional ranges start at 0, range k starts at 2k or above,
      every range below the top ends at 2k + 1 or above, and each ends where the next starts. */
  lemma ProvisionalWide(splits: seq<real>, maxPoints: int)
    requires ValidSplits(splits) && maxPoints >= MIN_WIDE_MAX_POINTS
    ensures var prov := Provisional(Normalized(splits), maxPoints);
      |prov| == 7 && prov[0].min == 0 &&
      (forall j :: 0 <= j < |prov| ==> prov[j].min >= 2 * j) &&
      (forall j :: 0 <= j < |prov| - 1 ==> prov[j].max >= 2 * j + 1 && prov[j].max == prov[j + 1].min)
  {
    var n := Normalized(splits);
    var prov := Provisional(n, maxPoints);
    forall j | 0 <= j < |prov|
      ensures prov[j].min >= 2 * j
    {
      ScaledCutLowerBound(splits, j, maxPoints);
    }
    forall j | 0 <= j < |prov| - 1
      ensures prov[j].max >= 2 * j + 1 && prov[j].max == prov[j + 1].min
    {
      ScaledCutLowerBound(splits, j + 1, maxPoints);
    }
    assert n[0].min == 0.0;
  }

  /** With maxPoints >= 13 every generated range is at least one point wide, the first starts
      at 0 and the ranges tile [0, maxPoints] in whole points. */
  lemma UpgradeRangesWellFormed(maxPoints: int, splits: seq<real>)
    requires ValidSplits(splits) && maxPoints >= MIN_WIDE_MAX_POINTS
    ensures WellFormedTiers(UpgradeRanges(maxPoints, splits), maxPoints)
  {
    var prov := Provisional(Normalized(splits), maxPoints);
    var r := UpgradeRanges(maxPoints, splits);
    ProvisionalWide(splits, maxPoints);
    forall k | 0 <= k < |r|
      ensures r[k].min + 1 <= r[k].max
    {
      DeflatedLowerBound(prov, maxPoints, k);
      assert r[k] == DeflatedAt(prov, maxPoints, k);
    }
    forall k | 0 <= k < |r| - 1
      ensures r[k].max + 1 == r[k + 1].min
    {
      DeflatedContiguous(prov, maxPoints, k);
    }
    DeflatedLowerBound(prov, maxPoints, 0);
    assert r[0] == DeflatedAt(prov, maxPoints, 0);
  }

  /** Below 13 points the bottom range cannot keep one point of width, whatever the draws:
      it ends at 0 or below while its min is clamped to 0 or above. */
  lemma NarrowBottomRangeBelowThirteen(maxPoints: int, splits: seq<real>)
    requires ValidSplits(splits) && maxPoints < MIN_WIDE_MAX_POINTS
    ensures var r := UpgradeRanges(maxPoints, splits);
      r[0].max <= 0 && r[0].max - r[0].min < 1
  {
    var prov := Provisional(Normalized(splits), maxPoints);
    DeflatedCascadeBound(prov, maxPoints, 0);
    DeflatedOrdered(prov, maxPoints);
  }

  /** Every range below the top ends strictly below maxPoints (for maxPoints >= 1). */
  lemma LowerRangesEndBelowMax(maxPoints: int, splits: seq<real>)
    requires ValidSplits(splits) && maxPoints >= 1
    ensures var r := UpgradeRanges(maxPoints, splits);
      |r| == 7 && r[6].max == maxPoints && r[6].min <= maxPoints - 1 &&
      forall k :: 0 <= k < 6 ==> r[k].max < maxPoints
  {
    var prov := Provisional(Normalized(splits), maxPoints);
    var r := UpgradeRanges(maxPoints, splits);
    forall k | 0 <= k < 6
      ensures r[k].max < maxPoints
    {
      DeflatedCascadeBound(prov, maxPoints, k);
    }
    assert r[6] == DeflatedAt(prov, maxPoints, 6);
  }

  /** A meter at exactly maxPoints is always in the top (+50) range, under both lookups. */
  lemma MaxPointsInTopRange(maxPoints: int, splits: seq<real>)
    requires ValidSplits(splits) && maxPoints >= 1
    ensures var r := UpgradeRanges(maxPoints, splits);
      CurrentRangeIndex(maxPoints as real, r) == 6 &&
      CurrentTierIndex(maxPoints as real, r) == 6 &&
      r[6].levelBonus == 50
  {
    LowerRangesEndBelowMax(maxPoints, splits);
    UpgradeRangesShape(maxPoints, splits);
    var r := UpgradeRanges(maxPoints, splits);
    assert InRange(maxPoints as real, r[6]);
    assert (maxPoints as real).Floor == maxPoints;
  }

  /** A meter above maxPoints (the overflow state) also resolves to the top (+50) range,
      under both lookups. */
  lemma OverflowInTopRange(maxPoints: int, splits: seq<real>, points: real)
    requires ValidSplits(splits) && maxPoints >= 1 && points > maxPoints as real
    ensures var r := UpgradeRanges(maxPoints, splits);
      CurrentRangeIndex(points, r) == 6 && CurrentTierIndex(points, r) == 6 &&
      r[6].levelBonus == 50
  {
    LowerRangesEndBelowMax(maxPoints, splits);
    UpgradeRangesShape(maxPoints, splits);
    var r := UpgradeRanges(maxPoints, splits);
    assert points.Floor >= maxPoints;
    if points.Floor == maxPoints {
      assert InRange(points.Floor as real, r[6]);
    }
  }

  // ---------------------------------------------------------------------------------------
  // Lemmas: lookup over well-formed tiers

  /** Over well-formed tiers, range j ends before range k starts whenever j < k. */
  lemma {:induction false} TiersIncrease(r: seq<UpgradeRange>, maxPoints: int, j: nat, k: nat)
    requires WellFormedTiers(r, maxPoints) && j < k < |r|
    ensures r[j].max < r[k].min
    decreases k - j
  {
    if j + 1 < k {
      TiersIncrease(r, maxPoints, j + 1, k);
    }
  }

  /** Over well-formed tiers, every whole number of points from r[i].min up to maxPoints
      lies in some tier at index i or above. */
  lemma {:induction false} WholePointsCovered(r: seq<UpgradeRange>, maxPoints: int, x: int, i: nat)
    returns (k: nat)
    requires WellFormedTiers(r, maxPoints) && i < |r| && r[i].min <= x <= maxPoints
    ensures i <= k < |r| && InRange(x as real, r[k])
    decreases |r| - i
  {
    if x <= r[i].max {
      k := i;
    } else {
      k := WholePointsCovered(r, maxPoints, x, i + 1);
    }
  }

  /** Corrected lookup over well-formed tiers: any meter value in [0, maxPoints] lands in
      the unique tier whose whole-point span holds its whole points, i.e. the tier with
      min <= points < max + 1. It never falls through to the top tier by accident. */
  lemma CurrentTierHalfOpen(r: seq<UpgradeRange>, maxPoints: int, points: real)
    requires WellFormedTiers(r, maxPoints) && 0.0 <= points <= maxPoints as real
    ensures var k := CurrentTierIndex(points, r);
      InRange(points.Floor as real, r[k]) &&
      r[k].min as real <= points < (r[k].max + 1) as real &&
      forall j :: 0 <= j < |r| && j != k ==> !InRange(points.Floor as real, r[j])
  {
    var x := points.Floor;
    var found := WholePointsCovered(r, maxPoints, x, 0);
    var k := CurrentTierIndex(points, r);
    assert InRange(x as real, r[k]);
    forall j | 0 <= j < |r| && j != k
      ensures !InRange(x as real, r[j])
    {
      if j < k { TiersIncrease(r, maxPoints, j, k); } else { TiersIncrease(r, maxPoints, k, j); }
    }
  }

  /** The as-written lookup agrees with the corrected one whenever it finds a match. */
  lemma LookupsAgreeOnMatch(r: seq<UpgradeRange>, maxPoints: int, points: real)
    requires WellFormedTiers(r, maxPoints) && InRange(points, r[CurrentRangeIndex(points, r)])
    ensures CurrentTierIndex(points, r) == CurrentRangeIndex(points, r)
  {
    var k := CurrentRangeIndex(points, r);
    var x := points.Floor;
    assert r[k].min <= x <= r[k].max;
    var t := CurrentTierIndex(points, r);
    if t < k {
      TiersIncrease(r, maxPoints, t, k);
      assert false;
    } else if t > k {
      assert InRange(x as real, r[k]);
      assert false;
    }
  }

  /** Finding (as written): over well-formed tiers, a fractional meter value just above the
      end of a lower tier, r[k].max + 0.5, matches no tier, so `getCurrentRange` falls back
      to the top tier, while the corrected lookup keeps it in tier k. */
  lemma GapPointsFallToTopTier(r: seq<UpgradeRange>, maxPoints: int, k: nat)
    requires WellFormedTiers(r, maxPoints) && k < |r| - 1
    ensures var points := r[k].max as real + 0.5;
      0.0 <= points <= maxPoints as real &&
      CurrentRangeIndex(points, r) == |r| - 1 &&
      CurrentTierIndex(points, r) == k
  {
    var points := r[k].max as real + 0.5;
    if k > 0 { TiersIncrease(r, maxPoints, 0, k); }
    assert r[k].max >= 0;
    forall j | 0 <= j < |r|
      ensures !InRange(points, r[j])
    {
      if j < k { TiersIncrease(r, maxPoints, j, k); }
      else if j > k + 1 { TiersIncrease(r, maxPoints, k + 1, j); }
    }
    TiersIncrease(r, maxPoints, k, |r| - 1);
    assert r[k].max + 1 <= maxPoints;
    assert points <= maxPoints as real;
    assert points.Floor == r[k].max;
    CurrentTierHalfOpen(r, maxPoints, points);
  }

  /** Finding (as written, concrete): with 300 points split as [0,100], [101,200], [201,300],
      a meter of 100.5 is read as the +50 tier by `getCurrentRange`; the corrected lookup
      reads it as "not ready". */
  lemma GapExample()
    ensures var r := [UpgradeRange(0, 100, 0, NOT_READY_JAM), UpgradeRange(101, 200, 1, "Light"),
                      UpgradeRange(201, 300, 50, "PERFECT")];
      r[CurrentRangeIndex(100.5, r)].levelBonus == 50 && r[CurrentTierIndex(100.5, r)].levelBonus == 0
  {
    var r := [UpgradeRange(0, 100, 0, NOT_READY_JAM), UpgradeRange(101, 200, 1, "Light"),
              UpgradeRange(201, 300, 50, "PERFECT")];
    assert WellFormedTiers(r, 300);
    GapPointsFallToTopTier(r, 300, 0);
  }

  /** Generated ranges with maxPoints >= 13: a meter of 0 is "not ready" under both lookups. */
  lemma ZeroPointsNotReady(maxPoints: int, splits: seq<real>)
    requires ValidSplits(splits) && maxPoints >= MIN_WIDE_MAX_POINTS
    ensures var r := UpgradeRanges(maxPoints, splits);
      CurrentRangeIndex(0.0, r) == 0 && CurrentTierIndex(0.0, r) == 0 && r[0].levelBonus == 0
  {
    UpgradeRangesWellFormed(maxPoints, splits);
    UpgradeRangesShape(maxPoints, splits);
    var r := UpgradeRanges(maxPoints, splits);
    assert InRange(0.0, r[0]);
    assert (0.0).Floor == 0;
  }

  /** Finding (as written): with maxPoints <= 11 the bottom range ends below 0, so a meter of
      0 is read as an upgrade tier (bonus > 0) by both lookups, whatever the draws. */
  lemma ZeroPointsCanUpgradeBelowTwelve(maxPoints: int, splits: seq<real>)
    requires ValidSplits(splits) && maxPoints <= 11
    ensures var r := UpgradeRanges(maxPoints, splits);
      r[0].max < 0 &&
      r[CurrentRangeIndex(0.0, r)].levelBonus > 0 && r[CurrentTierIndex(0.0, r)].levelBonus > 0
  {
    var prov := Provisional(Normalized(splits), maxPoints);
    DeflatedCascadeBound(prov, maxPoints, 0);
    UpgradeRangesShape(maxPoints, splits);
    var r := UpgradeRanges(maxPoints, splits);
    assert !InRange(0.0, r[0]);
    assert (0.0).Floor == 0;
  }
}
