/**
 * `calculateHealthScore`: the growth, activity, engagement and retention
 * sub-scores of one server and their weighted, rounded total, over exact
 * reals (the source computes in IEEE doubles).
 */
module Health {
  import opened Wrappers
  import Windows

  /** The counts the scorer reads from one fetched guild. */
  datatype HealthFacts = HealthFacts(memberCount: nat, onlineCount: nat, channelCount: nat)

  datatype Breakdown = Breakdown(growth: int, activity: int, engagement: int, retention: int)

  datatype HealthScore =
    | Scored(overall: int, breakdown: Breakdown)
      /** Zero members or zero channels: the source divides by zero and scores NaN. */
    | NotFinite
      /** The score of a restricted record: `{ overall: 0, breakdown: {} }`. */
    | Withheld

  /** The overall score as stored in the health history; None for NaN. */
  function OverallOf(h: HealthScore): Option<int> {
    match h
    case Scored(overall, _) => Some(overall)
    case NotFinite => None
    case Withheld => Some(0)
  }

  function Min(a: real, b: real): real { if a <= b then a else b }

  function Max(a: real, b: real): real { if a >= b then a else b }

  /** `Math.round` on a finite value: the nearest integer, halves rounded up. */
  function Round(x: real): (r: int)
    ensures r as real <= x + 0.5 < r as real + 1.0
  {
    (x + 0.5).Floor
  }

  /**
   * The `reduce` over `recent` that adds, for every index after the first,
   * the difference to the previous count, in index order. The differences
   * telescope to the last count minus the first.
   */
  function GrowthRate(recent: seq<int>): (r: int)
    ensures |recent| > 0 ==> r == recent[|recent| - 1] - recent[0]
    ensures |recent| == 0 ==> r == 0
  {
    if |recent| <= 1 then 0
    else
      var init := recent[..|recent| - 1];
      assert init[0] == recent[0] && init[|init| - 1] == recent[|recent| - 2];
      GrowthRate(init) + (recent[|recent| - 1] - recent[|recent| - 2])
  }

  /**
   * Growth: 50 unless there are at least two samples; otherwise 50 plus the
   * growth of the last seven samples per member times 1000, clamped to [0, 100].
   */
  function GrowthScore(growth: Option<seq<int>>, memberCount: nat): (r: real)
    requires memberCount > 0
    ensures 0.0 <= r <= 100.0
    ensures growth.None? || |growth.value| <= 1 ==> r == 50.0
    ensures growth.Some? && |growth.value| > 1 ==>
      var g := growth.value;
      var k := if |g| < 7 then |g| else 7;
      r == Min(100.0, Max(0.0, 50.0 + ((g[|g| - 1] - g[|g| - k]) as real / memberCount as real) * 1000.0))
  {
    if growth.Some? && |growth.value| > 1 then
      var recent := Windows.Last(growth.value, 7);
      Min(100.0, Max(0.0, 50.0 + (GrowthRate(recent) as real / memberCount as real) * 1000.0))
    else
      50.0
  }

  lemma QuotientScale(t: real, m: real, c: real)
    requires m > 0.0
    ensures (c * t) / m == c * (t / m)
  {
    var q := t / m;
    var p := (c * t) / m;
    assert q * m == t;
    assert p * m == c * t;
    assert (p - c * q) * m == 0.0;
  }

  lemma QuotientAtLeast(t: real, m: real, k: real)
    requires m > 0.0
    ensures t / m >= k <==> t >= k * m
  {
    var q := t / m;
    assert q * m == t;
    if q >= k {
      assert (q - k) * m >= 0.0;
    } else {
      assert (k - q) * m > 0.0;
    }
  }

  lemma QuotientAtMost(t: real, m: real, k: real)
    requires m > 0.0
    ensures t / m <= k <==> t <= k * m
  {
    var q := t / m;
    assert q * m == t;
    if q <= k {
      assert (k - q) * m >= 0.0;
    } else {
      assert (q - k) * m > 0.0;
    }
  }

  /** Activity: messages per member times 20, capped at 100; 0 without an activity record. */
  function ActivityScore(totalMessages: Option<nat>, memberCount: nat): (r: real)
    requires memberCount > 0
    ensures 0.0 <= r <= 100.0
    ensures totalMessages.None? ==> r == 0.0
    ensures totalMessages.Some? ==> (r == 100.0 <==> totalMessages.value >= 5 * memberCount)
    ensures totalMessages.Some? && totalMessages.value <= 5 * memberCount ==>
      r == (20 * totalMessages.value) as real / memberCount as real
  {
    if totalMessages.Some? then
      var m := memberCount as real;
      var t := totalMessages.value as real;
      var q := t / m;
      assert q >= 0.0 by {
        QuotientAtLeast(t, m, 0.0);
      }
      assert q * 20.0 == (20 * totalMessages.value) as real / m by {
        QuotientScale(t, m, 20.0);
        assert (20 * totalMessages.value) as real == 20.0 * t;
      }
      assert (5 * memberCount) as real == 5.0 * m;
      assert q >= 5.0 <==> totalMessages.value >= 5 * memberCount by {
        QuotientAtLeast(t, m, 5.0);
      }
      assert q <= 5.0 <==> totalMessages.value <= 5 * memberCount by {
        QuotientAtMost(t, m, 5.0);
      }
      Min(100.0, q * 20.0)
    else
      0.0
  }

  /**
   * Engagement as the source writes it: `(onlineRatio * 60 + voiceRatio * 40) * 100`.
   * The ratios are weighted by 60 and 40 rather than 0.6 and 0.4, so the
   * result lies in [0, 10000] for ratios in [0, 1], not in [0, 100].
   */
  function EngagementScore(onlineCount: nat, memberCount: nat, activeVoice: Option<nat>, channelCount: nat): (r: real)
    requires memberCount > 0 && channelCount > 0
    ensures r >= 6000.0 * (onlineCount as real / memberCount as real)
    ensures onlineCount <= memberCount && (activeVoice.None? || activeVoice.value <= channelCount) ==>
      r <= 10000.0
  {
    var onlineRatio := onlineCount as real / memberCount as real;
    var voiceRatio := if activeVoice.Some? then activeVoice.value as real / channelCount as real else 0.0;
    assert onlineCount <= memberCount ==> onlineRatio <= 1.0 by {
      if onlineCount <= memberCount { RatioAtMostOne(onlineCount as real, memberCount as real); }
    }
    assert activeVoice.Some? && activeVoice.value <= channelCount ==> voiceRatio <= 1.0 by {
      if activeVoice.Some? && activeVoice.value <= channelCount {
        RatioAtMostOne(activeVoice.value as real, channelCount as real);
      }
    }
    (onlineRatio * 60.0 + voiceRatio * 40.0) * 100.0
  }

  lemma RatioAtMostOne(x: real, y: real)
    requires 0.0 <= x <= y && y > 0.0
    ensures 0.0 <= x / y <= 1.0
  {
    assert x / y * y == x;
  }

  /** Retention: `min(100, memberCount / (memberCount * 1.1) * 100)`, the constant 100/1.1. */
  function RetentionScore(memberCount: nat): (r: real)
    requires memberCount > 0
    ensures r == 1000.0 / 11.0
  {
    var m := memberCount as real;
    assert m / (m * 1.1) == 10.0 / 11.0 by {
      assert (m * 1.1) * (10.0 / 11.0) == m;
    }
    Min(100.0, (m / (m * 1.1)) * 100.0)
  }

  /**
   * The weighted reduce over the four sub-scores (growth .25, activity .3,
   * engagement .3, retention .15). The weights sum to 1, so the result lies
   * between the smallest and the largest sub-score.
   */
  function Weighted(growth: real, activity: real, engagement: real, retention: real): (r: real)
    ensures Min(Min(growth, activity), Min(engagement, retention)) <= r
    ensures r <= Max(Max(growth, activity), Max(engagement, retention))
  {
    growth * 0.25 + activity * 0.3 + engagement * 0.3 + retention * 0.15
  }

  function CalculateHealthScore(facts: HealthFacts, growth: Option<seq<int>>, totalMessages: Option<nat>, activeVoice: Option<nat>): (r: HealthScore)
    requires facts.memberCount > 0 && facts.channelCount > 0
    ensures r.Scored?
  {
    var g := GrowthScore(growth, facts.memberCount);
    var a := ActivityScore(totalMessages, facts.memberCount);
    var e := EngagementScore(facts.onlineCount, facts.memberCount, activeVoice, facts.channelCount);
    var t := RetentionScore(facts.memberCount);
    Scored(Round(Weighted(g, a, e, t)), Breakdown(Round(g), Round(a), Round(e), Round(t)))
  }

  /**
   * What the score means: growth and activity within 0..100, retention the
   * constant 91, the defaults of missing data, engagement up to 10000 (not
   * 100) even for sane ratios, and the overall score the rounded weighted
   * sum, below 100 only when engagement is; each breakdown entry is its
   * sub-score rounded.
   */
  lemma HealthScoreBounds(facts: HealthFacts, growth: Option<seq<int>>, totalMessages: Option<nat>, activeVoice: Option<nat>)
    requires facts.memberCount > 0 && facts.channelCount > 0
    ensures var r := CalculateHealthScore(facts, growth, totalMessages, activeVoice);
      && 0 <= r.breakdown.growth <= 100 && 0 <= r.breakdown.activity <= 100
      && r.breakdown.retention == 91
      && r.breakdown.engagement >= 0 && r.overall >= 0
      && ((growth.None? || |growth.value| <= 1) ==> r.breakdown.growth == 50)
      && (totalMessages.None? ==> r.breakdown.activity == 0)
      && (facts.onlineCount <= facts.memberCount && (activeVoice.None? || activeVoice.value <= facts.channelCount) ==>
            r.breakdown.engagement <= 10000)
      && (EngagementScore(facts.onlineCount, facts.memberCount, activeVoice, facts.channelCount) <= 100.0 ==>
            r.overall <= 99)
    ensures var r := CalculateHealthScore(facts, growth, totalMessages, activeVoice);
      var w := Weighted(GrowthScore(growth, facts.memberCount), ActivityScore(totalMessages, facts.memberCount),
                        EngagementScore(facts.onlineCount, facts.memberCount, activeVoice, facts.channelCount),
                        RetentionScore(facts.memberCount));
      r.overall as real <= w + 0.5 < r.overall as real + 1.0
    ensures CalculateHealthScore(facts, growth, totalMessages, activeVoice).breakdown
         == Breakdown(Round(GrowthScore(growth, facts.memberCount)), Round(ActivityScore(totalMessages, facts.memberCount)),
                      Round(EngagementScore(facts.onlineCount, facts.memberCount, activeVoice, facts.channelCount)),
                      Round(RetentionScore(facts.memberCount)))
  {
    var g := GrowthScore(growth, facts.memberCount);
    var a := ActivityScore(totalMessages, facts.memberCount);
    var e := EngagementScore(facts.onlineCount, facts.memberCount, activeVoice, facts.channelCount);
    var t := RetentionScore(facts.memberCount);
    assert e >= 0.0;
    assert Round(t) == 91;
    assert e <= 100.0 ==> Weighted(g, a, e, t) <= 98.7;
  }

  /**
   * A guild with 1000 members, 300 online, 10 channels, 2 active voice
   * channels, 500 messages and one growth sample. The factors 60 and 40 put
   * its engagement at 2600, far outside the range 0-100 that the comment on
   * the engagement score gives, and its overall score at 809.
   */
  lemma WorkedExample()
    ensures CalculateHealthScore(HealthFacts(1000, 300, 10), Some([1000]), Some(500), Some(2))
         == Scored(809, Breakdown(50, 10, 2600, 91))
  {
    var e := EngagementScore(300, 1000, Some(2), 10);
    assert e == 2600.0;
    assert ActivityScore(Some(500), 1000) == 10.0;
    assert Weighted(50.0, 10.0, e, 1000.0 / 11.0) + 0.5 == 17812.0 / 22.0;
  }
}
