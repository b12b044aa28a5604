/** Band arithmetic: a measure becomes a band index and a gauge fill between 0 and 1. */
module Levels {
  import opened Wrappers

  datatype Reading = Reading(index: int, band: string, fill: real)

  function Clamp01(v: real): (r: real)
    ensures 0.0 <= r <= 1.0 && (0.0 <= v <= 1.0 ==> r == v)
    ensures (v <= 0.0 ==> r == 0.0) && (v >= 1.0 ==> r == 1.0)
  {
    if v < 0.0 then 0.0 else if v > 1.0 then 1.0 else v
  }

  function AtLeastZero(v: real): real {
    if v < 0.0 then 0.0 else v
  }

  /** The band at `index`, or the first one, or nothing. */
  function BandName(bands: seq<string>, index: int): string {
    if 0 <= index < |bands| then bands[index] else if bands != [] then bands[0] else ""
  }

  function Limit(raw: int, max: int): int {
    var lowered := if raw < max then raw else max;
    if lowered < 0 then 0 else lowered
  }

  function BandFromPoints(points: real, width: real, bands: seq<string>): Reading
    requires width > 0.0
  {
    var maxIndex := |bands| - 1;
    var index := Limit(Share(points, width).Floor, maxIndex);
    var band := BandName(bands, index);
    if index >= maxIndex then Reading(maxIndex, band, 1.0)
    else Reading(index, band, Clamp01(Share(points - Times(index as real, width), width)))
  }

  function Times(a: real, b: real): real {
    a * b
  }

  function Share(amount: real, whole: real): real
    requires whole > 0.0
  {
    amount / whole
  }

  function Position(r: Reading): real {
    r.index as real + r.fill
  }

  lemma ShareIsInverse(a: real, width: real)
    requires width > 0.0
    ensures Times(Share(a, width), width) == a
  {
  }

  lemma TimesGrows(a: real, b: real, scale: real)
    requires a <= b && scale >= 0.0
    ensures Times(a, scale) <= Times(b, scale)
  {
    assert (b - a) * scale >= 0.0;
  }

  lemma TimesCancels(a: real, b: real, scale: real)
    requires scale > 0.0
    ensures Times(a, scale) <= Times(b, scale) <==> a <= b
  {
    assert a <= b || (a - b) * scale > 0.0;
    assert b < a || (b - a) * scale >= 0.0;
  }

  lemma TimesDistributes(a: real, b: real, scale: real)
    ensures Times(a - b, scale) == Times(a, scale) - Times(b, scale)
  {
  }

  lemma ShareOrder(p: real, q: real, width: real)
    requires width > 0.0
    ensures Share(p, width) <= Share(q, width) <==> p <= q
  {
    ShareIsInverse(p, width);
    ShareIsInverse(q, width);
    TimesCancels(Share(p, width), Share(q, width), width);
  }

  lemma SharesOfWhole(k: real, width: real)
    requires width > 0.0
    ensures Share(Times(k, width), width) == k
  {
  }

  lemma ShareSubtracts(p: real, k: real, width: real)
    requires width > 0.0
    ensures Share(p - Times(k, width), width) == Share(p, width) - k
  {
    var u := Share(p, width);
    ShareIsInverse(p, width);
    TimesDistributes(u, k, width);
    SharesOfWhole(u - k, width);
  }

  /** Below the top band the gauge reads the measure in widths; at the top it is full. */
  lemma PointsPosition(points: real, width: real, bands: seq<string>)
    requires width > 0.0 && bands != []
    ensures var u := AtLeastZero(Share(points, width));
      Position(BandFromPoints(points, width, bands)) == if u >= (|bands| - 1) as real then |bands| as real else u
  {
    var u, top := Share(points, width), |bands| - 1;
    var k := Limit(u.Floor, top);
    ShareSubtracts(points, k as real, width);
  }

  ghost predicate PointsBracket(points: real, width: real, bands: seq<string>, i: int) {
    && 0 <= i < |bands|
    && (i > 0 ==> Times(i as real, width) <= points)
    && (i < |bands| - 1 ==> points < Times((i + 1) as real, width))
  }

  lemma BandEdge(points: real, width: real, i: int)
    requires width > 0.0
    ensures Times(i as real, width) <= points <==> i <= Share(points, width).Floor
  {
    SharesOfWhole(i as real, width);
    ShareOrder(Times(i as real, width), points, width);
  }

  /** The index is the one band that brackets the measure, the first and last being open-ended;
      with no bands at all it is -1. The fill stays between 0 and 1. */
  lemma PointsBandBrackets(points: real, width: real, bands: seq<string>)
    requires width > 0.0
    ensures var r := BandFromPoints(points, width, bands);
      && 0.0 <= r.fill <= 1.0
      && (bands == [] ==> r == Reading(-1, "", 1.0))
      && (bands != [] ==> forall i :: PointsBracket(points, width, bands, i) <==> i == r.index)
      && (bands != [] ==> r.band == bands[r.index])
  {
    if bands != [] {
      var r := BandFromPoints(points, width, bands);
      forall i
        ensures PointsBracket(points, width, bands, i) <==> i == r.index
      {
        BandEdge(points, width, i);
        BandEdge(points, width, i + 1);
      }
    }
  }

  /** More points never read lower. */
  lemma PointsReadingIsMonotone(p: real, q: real, width: real, bands: seq<string>)
    requires width > 0.0 && p <= q
    ensures Position(BandFromPoints(p, width, bands)) <= Position(BandFromPoints(q, width, bands))
    ensures BandFromPoints(p, width, bands).index <= BandFromPoints(q, width, bands).index
  {
    ShareOrder(p, q, width);
    if bands != [] {
      PointsPosition(p, width, bands);
      PointsPosition(q, width, bands);
    }
  }

  /** Below the top band the reading gives the measure back, negative measures as zero. */
  lemma PointsReadingInverts(points: real, width: real, bands: seq<string>)
    requires width > 0.0 && bands != []
    ensures BandFromPoints(points, width, bands).index < |bands| - 1 ==>
              Times(Position(BandFromPoints(points, width, bands)), width) == AtLeastZero(points)
  {
    PointsPosition(points, width, bands);
    ShareIsInverse(points, width);
    SharesOfWhole(0.0, width);
    ShareOrder(0.0, points, width);
  }

  // Thresholds.

  ghost predicate Ascending(ts: seq<real>) {
    forall i, j :: 0 <= i < j < |ts| ==> ts[i] <= ts[j]
  }

  /** The last threshold, among the first `n`, that the value reaches; 0 if it reaches none. */
  function LastReached(value: real, ts: seq<real>, n: nat): (i: nat)
    requires n <= |ts|
    ensures i == 0 || i < n
    ensures i > 0 ==> value >= ts[i]
    ensures forall j :: i < j < n ==> value < ts[j]
  {
    if n == 0 then 0 else if value >= ts[n - 1] then n - 1 else LastReached(value, ts, n - 1)
  }

  function Compared(ts: seq<real>, bands: seq<string>): nat {
    if |ts| < |bands| then |ts| else |bands|
  }

  function At(ts: seq<real>, i: int, missing: real): real {
    if 0 <= i < |ts| then ts[i] else missing
  }

  function ThresholdReading(value: real, ts: seq<real>, bands: seq<string>): Reading {
    var maxIndex := |bands| - 1;
    var index := LastReached(value, ts, Compared(ts, bands));
    var band := BandName(bands, index);
    if index >= maxIndex then Reading(maxIndex, band, 1.0)
    else
      var lo := At(ts, index, 0.0);
      var hi := At(ts, index + 1, lo);
      Reading(index, band, if hi > lo then Clamp01(Share(value - lo, hi - lo)) else 0.0)
  }

  method BandFromThresholds(value: real, ts: seq<real>, bands: seq<string>) returns (r: Reading)
    ensures r == ThresholdReading(value, ts, bands)
  {
    var maxIndex := |bands| - 1;
    var index := 0;
    var i := 0;
    while i < |ts| && i <= maxIndex
      invariant i <= Compared(ts, bands)
      invariant index == LastReached(value, ts, i)
    {
      if value >= ts[i] {
        index := i;
      }
      i := i + 1;
    }
    var band := BandName(bands, index);
    if index >= maxIndex {
      return Reading(maxIndex, band, 1.0);
    }
    var lo := if index < |ts| then ts[index] else 0.0;
    var hi := if index + 1 < |ts| then ts[index + 1] else lo;
    r := Reading(index, band, if hi > lo then Clamp01(Share(value - lo, hi - lo)) else 0.0);
  }

  ghost predicate ThresholdBracket(value: real, ts: seq<real>, i: int) {
    && 0 <= i < |ts|
    && (i > 0 ==> ts[i] <= value)
    && (i < |ts| - 1 ==> value < ts[i + 1])
  }

  /** With ascending thresholds, one per band, the index is the one band that brackets the value. */
  lemma ThresholdBandBrackets(value: real, ts: seq<real>, bands: seq<string>)
    requires Ascending(ts) && |ts| == |bands| > 0
    ensures var r := ThresholdReading(value, ts, bands);
      && 0.0 <= r.fill <= 1.0 && r.band == bands[r.index]
      && forall i :: ThresholdBracket(value, ts, i) <==> i == r.index
  {
  }

  lemma FillGrows(v: real, w: real, lo: real, hi: real)
    requires v <= w && lo < hi
    ensures Clamp01(Share(v - lo, hi - lo)) <= Clamp01(Share(w - lo, hi - lo))
  {
    ShareOrder(v - lo, w - lo, hi - lo);
  }

  /** A larger value never reads lower, with as many thresholds as there happen to be. */
  lemma ThresholdReadingIsMonotone(v: real, w: real, ts: seq<real>, bands: seq<string>)
    requires Ascending(ts) && v <= w
    ensures Position(ThresholdReading(v, ts, bands)) <= Position(ThresholdReading(w, ts, bands))
  {
    var a, b := ThresholdReading(v, ts, bands), ThresholdReading(w, ts, bands);
    var n := Compared(ts, bands);
    var i, j := LastReached(v, ts, n), LastReached(w, ts, n);
    assert i <= j by {
      if i > 0 {
        assert w >= ts[i];
      }
    }
    if i == j && i < |bands| - 1 {
      var lo := At(ts, i, 0.0);
      var hi := At(ts, i + 1, lo);
      if hi > lo {
        FillGrows(v, w, lo, hi);
      }
    }
  }

  /** Below the top band the reading gives the value back, values under the first threshold as
      that threshold. */
  lemma ThresholdReadingInverts(value: real, ts: seq<real>, bands: seq<string>)
    requires Ascending(ts) && |ts| == |bands| > 0 && ThresholdReading(value, ts, bands).index < |bands| - 1
    ensures var r := ThresholdReading(value, ts, bands); var lo, hi := ts[r.index], ts[r.index + 1];
      lo + Times(r.fill, hi - lo) == if value < ts[0] then ts[0] else value
  {
    var r := ThresholdReading(value, ts, bands);
    var lo, hi := ts[r.index], ts[r.index + 1];
    if hi > lo {
      ShareIsInverse(value - lo, hi - lo);
      SharesOfWhole(0.0, hi - lo);
      SharesOfWhole(1.0, hi - lo);
      ShareOrder(0.0, value - lo, hi - lo);
      ShareOrder(value - lo, hi - lo, hi - lo);
    }
  }

  // Measures.

  datatype Substrate = Substrate(sources: nat, sections: nat, episodes: nat, salience: real)

  datatype Config = Config(sourcePoints: real, sectionPoints: real, episodePoints: real,
                           knowledgeWidth: real, knowledgeBands: seq<string>,
                           bondEpisodePoints: real, salienceScale: real, bondWidth: real, bondBands: seq<string>)

  ghost predicate Sensible(c: Config) {
    && c.sourcePoints >= 0.0 && c.sectionPoints >= 0.0 && c.episodePoints >= 0.0 && c.knowledgeWidth > 0.0
    && c.bondEpisodePoints >= 0.0 && c.salienceScale >= 0.0 && c.bondWidth > 0.0
  }

  function KnowledgePoints(s: Substrate, c: Config): real {
    Times(s.sources as real, c.sourcePoints) + Times(s.sections as real, c.sectionPoints)
    + Times(s.episodes as real, c.episodePoints)
  }

  function BondPoints(s: Substrate, c: Config): int {
    (Times(s.episodes as real, c.bondEpisodePoints) + Times(s.salience, c.salienceScale) + 0.5).Floor
  }

  /** Knowledge is counted: every source, section and episode adds its own points, whatever else
      there is. */
  lemma KnowledgeIsCounted(s: Substrate, t: Substrate, c: Config)
    ensures KnowledgePoints(Substrate(s.sources + t.sources, s.sections + t.sections, s.episodes + t.episodes,
                                      s.salience + t.salience), c)
         == KnowledgePoints(s, c) + KnowledgePoints(t, c)
    ensures KnowledgePoints(Substrate(1, 0, 0, 0.0), c) == c.sourcePoints
    ensures KnowledgePoints(Substrate(0, 1, 0, 0.0), c) == c.sectionPoints
    ensures KnowledgePoints(Substrate(0, 0, 1, 0.0), c) == c.episodePoints
  {
    TimesDistributes((s.sources + t.sources) as real, t.sources as real, c.sourcePoints);
    TimesDistributes((s.sections + t.sections) as real, t.sections as real, c.sectionPoints);
    TimesDistributes((s.episodes + t.episodes) as real, t.episodes as real, c.episodePoints);
  }

  /** Bond points are the weighted episodes and salience, to the nearest whole number, halves up. */
  lemma BondIsRounded(s: Substrate, c: Config, n: int)
    ensures var exact := Times(s.episodes as real, c.bondEpisodePoints) + Times(s.salience, c.salienceScale);
      n == BondPoints(s, c) <==> n as real - 0.5 <= exact < n as real + 0.5
  {
  }

  /** Whatever a companion reads and consolidates only ever adds to its knowledge reading. */
  lemma KnowledgeNeverReadsLower(s: Substrate, t: Substrate, c: Config)
    requires Sensible(c) && s.sources <= t.sources && s.sections <= t.sections && s.episodes <= t.episodes
    ensures Position(BandFromPoints(KnowledgePoints(s, c), c.knowledgeWidth, c.knowledgeBands))
         <= Position(BandFromPoints(KnowledgePoints(t, c), c.knowledgeWidth, c.knowledgeBands))
  {
    TimesGrows(s.sources as real, t.sources as real, c.sourcePoints);
    TimesGrows(s.sections as real, t.sections as real, c.sectionPoints);
    TimesGrows(s.episodes as real, t.episodes as real, c.episodePoints);
    PointsReadingIsMonotone(KnowledgePoints(s, c), KnowledgePoints(t, c), c.knowledgeWidth, c.knowledgeBands);
  }

  /** And to its bond, as long as the new episodes are no less salient on average. */
  lemma BondNeverReadsLower(s: Substrate, t: Substrate, c: Config)
    requires Sensible(c) && s.episodes <= t.episodes && s.salience <= t.salience
    ensures Position(BandFromPoints(BondPoints(s, c) as real, c.bondWidth, c.bondBands))
         <= Position(BandFromPoints(BondPoints(t, c) as real, c.bondWidth, c.bondBands))
  {
    TimesGrows(s.episodes as real, t.episodes as real, c.bondEpisodePoints);
    TimesGrows(s.salience, t.salience, c.salienceScale);
    PointsReadingIsMonotone(BondPoints(s, c) as real, BondPoints(t, c) as real, c.bondWidth, c.bondBands);
  }

  const NEUTRAL_WEIGHT := 0.5

  const DRIVES := 6

  /** A companion that never learned resolves to neutral. */
  function ResolvedWeights(learned: Option<seq<real>>): seq<real> {
    if learned.Some? then learned.value else seq(DRIVES, _ => NEUTRAL_WEIGHT)
  }

  function Deviation(w: real): real {
    if w >= NEUTRAL_WEIGHT then w - NEUTRAL_WEIGHT else NEUTRAL_WEIGHT - w
  }

  function TotalDeviation(weights: seq<real>): real {
    if weights == [] then 0.0
    else TotalDeviation(weights[..|weights| - 1]) + Deviation(weights[|weights| - 1])
  }

  /** How far the drives have moved from neutral, as a share of the furthest they can, capped at 1:
      0 exactly when all are neutral, and for weights in [0, 1] 1 exactly when all are at an
      extreme. */
  method PersonalitySpread(learned: Option<seq<real>>) returns (spread: real)
    requires learned.Some? ==> |learned.value| == DRIVES
    ensures 0.0 <= spread <= 1.0
    ensures var total, most := TotalDeviation(ResolvedWeights(learned)), DRIVES as real * NEUTRAL_WEIGHT;
      spread * DRIVES as real * NEUTRAL_WEIGHT == if total <= most then total else most
    ensures spread == 0.0 <==> learned.None? || forall i :: 0 <= i < DRIVES ==> learned.value[i] == NEUTRAL_WEIGHT
    ensures learned.Some? && (forall i :: 0 <= i < DRIVES ==> 0.0 <= learned.value[i] <= 1.0) ==>
              (spread == 1.0 <==> forall i :: 0 <= i < DRIVES ==> learned.value[i] == 0.0 || learned.value[i] == 1.0)
  {
    var weights := ResolvedWeights(learned);
    var total := 0.0;
    for i := 0 to |weights|
      invariant total == TotalDeviation(weights[..i])
    {
      assert weights[..i + 1][..i] == weights[..i];
      total := total + Deviation(weights[i]);
    }
    assert weights[..|weights|] == weights;
    DeviationIsZero(weights);
    if forall i :: 0 <= i < |weights| ==> 0.0 <= weights[i] <= 1.0 {
      DeviationBounds(weights);
    }
    ShareOf(total, DRIVES);
    assert learned.None? ==> weights[0] == NEUTRAL_WEIGHT;
    spread := Clamp01(total / DRIVES as real / NEUTRAL_WEIGHT);
  }

  lemma {:induction false} DeviationIsZero(weights: seq<real>)
    ensures TotalDeviation(weights) >= 0.0
    ensures TotalDeviation(weights) == 0.0 <==> forall i :: 0 <= i < |weights| ==> weights[i] == NEUTRAL_WEIGHT
  {
    if weights != [] {
      var before := weights[..|weights| - 1];
      DeviationIsZero(before);
      assert forall i :: 0 <= i < |before| ==> before[i] == weights[i];
    }
  }

  lemma ShareOf(total: real, n: nat)
    requires n > 0 && 0.0 <= total
    ensures var share, most := total / n as real / NEUTRAL_WEIGHT, n as real * NEUTRAL_WEIGHT;
      && 0.0 <= share && share * n as real * NEUTRAL_WEIGHT == total && (share == 0.0 <==> total == 0.0)
      && (share <= 1.0 <==> total <= most) && (share >= 1.0 <==> total >= most)
  {
    var average := Share(total, n as real);
    ShareIsInverse(total, n as real);
    TimesCancels(0.0, average, n as real);
    TimesCancels(average, NEUTRAL_WEIGHT, n as real);
    TimesCancels(NEUTRAL_WEIGHT, average, n as real);
    TimesCancels(average, 0.0, n as real);
  }

  lemma {:induction false} DeviationBounds(weights: seq<real>)
    requires forall i :: 0 <= i < |weights| ==> 0.0 <= weights[i] <= 1.0
    ensures TotalDeviation(weights) <= |weights| as real * NEUTRAL_WEIGHT
    ensures TotalDeviation(weights) == |weights| as real * NEUTRAL_WEIGHT <==>
            forall i :: 0 <= i < |weights| ==> weights[i] == 0.0 || weights[i] == 1.0
  {
    if weights != [] {
      var before := weights[..|weights| - 1];
      DeviationBounds(before);
      assert forall i :: 0 <= i < |before| ==> before[i] == weights[i];
    }
  }
}
