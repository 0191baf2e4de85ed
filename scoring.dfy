/** The quality score of a working proxy and its band (backend.py, the
    scoring block at the end of test_proxy_quality). Latency is in whole
    milliseconds. */
module Scoring {
  import opened Base

  datatype Band = Unavailable | Bad | Poor | Fair | Good | Excellent

  /** Score awarded to any proxy that proved working. */
  const BaseScore: nat := 30

  /** Latency buckets, ascending: being under each one is worth 5 points. */
  const LatencyThresholds: seq<int> := [300, 600, 1000, 2000, 3000, 5000]

  /** Inclusive lower bounds of the bands poor, fair, good and excellent. */
  const BandThresholds: seq<int> := [40, 55, 70, 85]

  function Min(a: int, b: int): int { if a <= b then a else b }

  /** How many of `ts` lie strictly above `x`. */
  function CountAbove(x: int, ts: seq<int>): nat
  {
    if ts == [] then 0 else (if x < ts[0] then 1 else 0) + CountAbove(x, ts[1..])
  }

  /** How many of `ts` are at most `x`. */
  function CountReached(x: int, ts: seq<int>): nat
  {
    if ts == [] then 0 else (if ts[0] <= x then 1 else 0) + CountReached(x, ts[1..])
  }

  /** Bonus for the number of reference sites reached: 20, 25 or 30 for one,
      two, three or more. */
  function SiteBonus(count: nat): (b: nat)
    ensures b == if count == 0 then 0 else 15 + 5 * Min(count, 3)
  {
    if count >= 3 then 30
    else if count >= 2 then 25
    else if count >= 1 then 20
    else 0
  }

  /** Bonus for the best latency: the first ascending bucket it falls under
      decides, so it earns 5 points for every bucket bound above it; no
      measured latency earns nothing. */
  function LatencyBonus(latency: Option<nat>): (b: nat)
    ensures b == if latency.None? then 0 else 5 * CountAbove(latency.value, LatencyThresholds)
    ensures b <= 30
  {
    if latency.None? then 0
    else
      var ms := latency.value;
      assert [5000][1..] == [];
      assert CountAbove(ms, [5000]) == if ms < 5000 then 1 else 0;
      assert [3000, 5000][1..] == [5000];
      assert CountAbove(ms, [3000, 5000]) == if ms < 3000 then 2 else if ms < 5000 then 1 else 0;
      assert [2000, 3000, 5000][1..] == [3000, 5000];
      assert CountAbove(ms, [2000, 3000, 5000]) == if ms < 2000 then 3 else CountAbove(ms, [3000, 5000]);
      assert [1000, 2000, 3000, 5000][1..] == [2000, 3000, 5000];
      assert CountAbove(ms, [1000, 2000, 3000, 5000]) == if ms < 1000 then 4 else CountAbove(ms, [2000, 3000, 5000]);
      assert [600, 1000, 2000, 3000, 5000][1..] == [1000, 2000, 3000, 5000];
      assert CountAbove(ms, [600, 1000, 2000, 3000, 5000]) == if ms < 600 then 5 else CountAbove(ms, [1000, 2000, 3000, 5000]);
      assert LatencyThresholds[1..] == [600, 1000, 2000, 3000, 5000];
      if ms < 300 then 30
      else if ms < 600 then 25
      else if ms < 1000 then 20
      else if ms < 2000 then 15
      else if ms < 3000 then 10
      else if ms < 5000 then 5
      else 0
  }

  /** Bonus for the number of available AI endpoints: 4, 6, 8 or 10 for
      one, two, three, four or more. */
  function AiBonus(available: nat): (b: nat)
    ensures b == if available == 0 then 0 else 2 + 2 * Min(available, 4)
  {
    if available >= 4 then 10
    else if available >= 3 then 8
    else if available >= 2 then 6
    else if available >= 1 then 4
    else 0
  }

  /** The score of a working proxy. It never falls below the base score and
      never exceeds 100; with at most two countable sites (all the prober can
      report) it never exceeds 95. */
  function QualityScore(sites: nat, latency: Option<nat>, aiAvailable: nat): (s: nat)
    ensures BaseScore <= s <= 100
    ensures sites <= 2 ==> s <= 95
  {
    BaseScore + SiteBonus(sites) + LatencyBonus(latency) + AiBonus(aiAvailable)
  }

  /** `a` is at least as fast as `b`; no measurement is the slowest. */
  predicate NoSlower(a: Option<nat>, b: Option<nat>)
  {
    b.None? || (a.Some? && a.value <= b.value)
  }

  lemma {:induction false} CountAboveAntitone(x: int, y: int, ts: seq<int>)
    requires x <= y
    ensures CountAbove(y, ts) <= CountAbove(x, ts)
    decreases |ts|
  {
    if ts != [] { CountAboveAntitone(x, y, ts[1..]); }
  }

  lemma {:induction false} CountReachedMonotone(x: int, y: int, ts: seq<int>)
    requires x <= y
    ensures CountReached(x, ts) <= CountReached(y, ts)
    decreases |ts|
  {
    if ts != [] { CountReachedMonotone(x, y, ts[1..]); }
  }

  /** More sites, a faster best latency or more available endpoints never
      lower the score. */
  lemma ScoreMonotone(s1: nat, s2: nat, l1: Option<nat>, l2: Option<nat>, a1: nat, a2: nat)
    requires s1 <= s2 && NoSlower(l2, l1) && a1 <= a2
    ensures QualityScore(s1, l1, a1) <= QualityScore(s2, l2, a2)
  {
    if l1.Some? {
      CountAboveAntitone(l2.value, l1.value, LatencyThresholds);
    }
  }

  function Rank(b: Band): nat
  {
    match b
    case Unavailable => 0
    case Bad => 1
    case Poor => 2
    case Fair => 3
    case Good => 4
    case Excellent => 5
  }

  /** The band of a working proxy's score: one band above "bad" for every
      band bound (40, 55, 70, 85) the score reaches; never "unavailable". */
  function BandOf(score: int): (b: Band)
    ensures b != Unavailable
    ensures Rank(b) == 1 + CountReached(score, BandThresholds)
  {
    assert [85][1..] == [];
    assert CountReached(score, [85]) == if score >= 85 then 1 else 0;
    assert [70, 85][1..] == [85];
    assert CountReached(score, [70, 85]) == if score >= 85 then 2 else if score >= 70 then 1 else 0;
    assert [55, 70, 85][1..] == [70, 85];
    assert CountReached(score, [55, 70, 85]) == (if score >= 55 then 1 else 0) + CountReached(score, [70, 85]);
    assert BandThresholds[1..] == [55, 70, 85];
    if score >= 85 then Excellent
    else if score >= 70 then Good
    else if score >= 55 then Fair
    else if score >= 40 then Poor
    else Bad
  }

  /** A higher score never lands in a lower band. */
  lemma BandMonotone(s1: int, s2: int)
    requires s1 <= s2
    ensures Rank(BandOf(s1)) <= Rank(BandOf(s2))
  {
    CountReachedMonotone(s1, s2, BandThresholds);
  }

  /** Two reachable sites with a 250 ms best latency and no AI endpoint make
      85 points, the lowest "excellent" score. */
  lemma TwoSitesFastIsExcellent()
    ensures QualityScore(2, Some(250), 0) == 85
    ensures BandOf(QualityScore(2, Some(250), 0)) == Excellent
    ensures BandOf(84) == Good
  {
  }
}
