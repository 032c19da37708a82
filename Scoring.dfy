/**
 * The scoring engine: metric scores -> pillar scores (weighted mean scaled
 * by 20) -> composite score (weighted mean over the pillars that scored
 * above 0) -> maturity band.
 */
module Scoring {
  import opened Catalog

  datatype Band = Emerging | Developing | Scaling | Leading

  datatype PillarScore = PillarScore(pillarId: string, pillarName: string, score: real)

  datatype ScoreSummary = ScoreSummary(
    compositeScore: real,
    pillarScores: seq<PillarScore>,
    maturityBand: Band)

  /** `bandForScore`: the thresholds are inclusive, so 80, 60 and 40 fall in the higher band. */
  function BandForScore(score: real): (b: Band)
    ensures b == Leading <==> score >= 80.0
    ensures b == Scaling <==> 60.0 <= score < 80.0
    ensures b == Developing <==> 40.0 <= score < 60.0
    ensures b == Emerging <==> score < 40.0
  {
    if score >= 80.0 then Leading
    else if score >= 60.0 then Scaling
    else if score >= 40.0 then Developing
    else Emerging
  }

  function BandRank(b: Band): nat
  {
    match b
    case Emerging => 0
    case Developing => 1
    case Scaling => 2
    case Leading => 3
  }

  /** A higher score never lands in a lower band. */
  lemma BandMonotone(s: real, t: real)
    requires s <= t
    ensures BandRank(BandForScore(s)) <= BandRank(BandForScore(t))
  {
  }

  /** `xs.reduce((sum, value) => sum + value, 0)`. */
  function Sum(xs: seq<real>): real
  {
    if |xs| == 0 then 0.0 else xs[0] + Sum(xs[1..])
  }

  /** `xs.reduce((sum, x, i) => sum + x * ws[i], 0)`. */
  function Dot(xs: seq<real>, ws: seq<real>): real
    requires |xs| == |ws|
  {
    if |xs| == 0 then 0.0 else xs[0] * ws[0] + Dot(xs[1..], ws[1..])
  }

  /** `normalizeWeights`: each weight divided by the total, or all zeros when the total is 0. */
  function NormalizeWeights(ws: seq<real>): (r: seq<real>)
    ensures |r| == |ws|
    ensures Sum(ws) == 0.0 ==> forall i :: 0 <= i < |r| ==> r[i] == 0.0
    ensures Sum(ws) != 0.0 ==> forall i :: 0 <= i < |r| ==> r[i] == ws[i] / Sum(ws)
  {
    var total := Sum(ws);
    seq(|ws|, i requires 0 <= i < |ws| => if total == 0.0 then 0.0 else ws[i] / total)
  }

  lemma {:induction false} SumDivided(ws: seq<real>, t: real)
    requires t != 0.0
    ensures Sum(seq(|ws|, i requires 0 <= i < |ws| => ws[i] / t)) == Sum(ws) / t
  {
    var d := seq(|ws|, i requires 0 <= i < |ws| => ws[i] / t);
    if |ws| > 0 {
      assert d[1..] == seq(|ws[1..]|, i requires 0 <= i < |ws[1..]| => ws[1..][i] / t);
      SumDivided(ws[1..], t);
      assert Sum(d) == ws[0] / t + Sum(ws[1..]) / t;
    }
  }

  /** Normalised weights sum to 1 whenever their total is not 0 (in particular for non-negative weights that are not all 0). */
  lemma NormalizedSumIsOne(ws: seq<real>)
    requires Sum(ws) != 0.0
    ensures Sum(NormalizeWeights(ws)) == 1.0
  {
    var t := Sum(ws);
    assert NormalizeWeights(ws) == seq(|ws|, i requires 0 <= i < |ws| => ws[i] / t);
    SumDivided(ws, t);
    assert t / t == 1.0;
  }

  predicate AllNonNegative(xs: seq<real>)
  {
    forall i :: 0 <= i < |xs| ==> xs[i] >= 0.0
  }

  lemma {:induction false} SumNonNegative(xs: seq<real>)
    requires AllNonNegative(xs)
    ensures Sum(xs) >= 0.0
  {
    if |xs| > 0 {
      SumNonNegative(xs[1..]);
    }
  }

  /** Normalising non-negative weights keeps them non-negative. */
  lemma NormalizedNonNegative(ws: seq<real>)
    requires AllNonNegative(ws)
    ensures AllNonNegative(NormalizeWeights(ws))
  {
    SumNonNegative(ws);
  }

  /** A weighted sum over all-zero weights is 0. */
  lemma {:induction false} DotZeroWeights(xs: seq<real>, ws: seq<real>)
    requires |xs| == |ws|
    requires forall i :: 0 <= i < |ws| ==> ws[i] == 0.0
    ensures Dot(xs, ws) == 0.0
  {
    if |xs| > 0 {
      DotZeroWeights(xs[1..], ws[1..]);
    }
  }

  /** With non-negative weights, a weighted sum of values in [0, hi] lies in [0, hi * total weight]. */
  lemma {:induction false} DotBounds(xs: seq<real>, ws: seq<real>, hi: real)
    requires |xs| == |ws|
    requires AllNonNegative(ws)
    requires forall i :: 0 <= i < |xs| ==> 0.0 <= xs[i] <= hi
    ensures 0.0 <= Dot(xs, ws) <= hi * Sum(ws)
  {
    if |xs| > 0 {
      DotBounds(xs[1..], ws[1..], hi);
      assert 0.0 <= xs[0] * ws[0] <= hi * ws[0] by {
        MulMono(xs[0], hi, ws[0]);
      }
    }
  }

  lemma MulMono(a: real, b: real, c: real)
    requires 0.0 <= a <= b && c >= 0.0
    ensures 0.0 <= a * c <= b * c
  {
  }

  /** A weighted mean with normalised non-negative weights of values in [0, hi] lies in [0, hi]. */
  lemma NormalizedMeanBounds(xs: seq<real>, ws: seq<real>, hi: real)
    requires hi >= 0.0
    requires |xs| == |ws|
    requires AllNonNegative(ws)
    requires forall i :: 0 <= i < |xs| ==> 0.0 <= xs[i] <= hi
    ensures 0.0 <= Dot(xs, NormalizeWeights(ws)) <= hi
  {
    var nw := NormalizeWeights(ws);
    if Sum(ws) == 0.0 {
      DotZeroWeights(xs, nw);
    } else {
      NormalizedNonNegative(ws);
      NormalizedSumIsOne(ws);
      DotBounds(xs, nw, hi);
    }
  }

  /** `new Set(selections.filter((s) => s.selected).map((s) => s.metricId))`. */
  function SelectedMetricIds(selections: seq<Selection>): (ids: set<string>)
    ensures forall s :: s in selections && s.selected ==> s.metricId in ids
    ensures forall id :: id in ids ==> exists s :: s in selections && s.selected && s.metricId == id
  {
    set s | s in selections && s.selected :: s.metricId
  }

  /** `new Map(scores.map((s) => [s.metricId, s.score]))`: a later entry for the same metric overwrites an earlier one. */
  function ScoreMap(scores: seq<SliderScore>): (m: map<string, real>)
    ensures m.Keys == set s | s in scores :: s.metricId
    ensures m.Values <= set s | s in scores :: s.score
  {
    if |scores| == 0 then map[]
    else
      var init := scores[..|scores| - 1];
      var last := scores[|scores| - 1];
      assert scores == init + [last];
      var m := ScoreMap(init);
      assert (set s | s in scores :: s.metricId) == (set s | s in init :: s.metricId) + {last.metricId};
      assert (set s | s in scores :: s.score) == (set s | s in init :: s.score) + {last.score};
      assert m[last.metricId := last.score].Values <= m.Values + {last.score};
      m[last.metricId := last.score]
  }

  /** The score of a metric listed more than once is that of its last entry. */
  lemma {:induction false} ScoreMapLastWins(scores: seq<SliderScore>, k: nat)
    requires k < |scores|
    requires forall j :: k < j < |scores| ==> scores[j].metricId != scores[k].metricId
    ensures scores[k].metricId in ScoreMap(scores)
    ensures ScoreMap(scores)[scores[k].metricId] == scores[k].score
  {
    if k < |scores| - 1 {
      var init := scores[..|scores| - 1];
      ScoreMapLastWins(init, k);
    }
  }

  /** `pillar.metrics.filter((metric) => selectedMetricIds.has(metric.id))`. */
  function SelectedMetrics(ms: seq<Metric>, ids: set<string>): (r: seq<Metric>)
    ensures |r| <= |ms|
    ensures forall m :: m in r <==> m in ms && m.id in ids
  {
    if |ms| == 0 then []
    else if ms[0].id in ids then [ms[0]] + SelectedMetrics(ms[1..], ids)
    else SelectedMetrics(ms[1..], ids)
  }

  function Weights(ms: seq<Metric>): (r: seq<real>)
    ensures |r| == |ms|
  {
    seq(|ms|, i requires 0 <= i < |ms| => ms[i].weight)
  }

  /** `scoreMap.get(metric.id) ?? 0` for each metric: an unscored metric counts as 0. */
  function MetricValues(ms: seq<Metric>, scoreMap: map<string, real>): (r: seq<real>)
    ensures |r| == |ms|
  {
    seq(|ms|, i requires 0 <= i < |ms| => if ms[i].id in scoreMap then scoreMap[ms[i].id] else 0.0)
  }

  /** The score of one pillar on the 0-100 scale (0 when none of its metrics is selected). */
  function PillarValue(p: Pillar, ids: set<string>, scoreMap: map<string, real>): (v: real)
    ensures (forall m :: m in p.metrics ==> m.id !in ids) ==> v == 0.0
    ensures |p.metrics| == 1 && p.metrics[0].id in ids && p.metrics[0].weight != 0.0 ==>
      v == 20.0 * (if p.metrics[0].id in scoreMap then scoreMap[p.metrics[0].id] else 0.0)
  {
    var selected := SelectedMetrics(p.metrics, ids);
    if |selected| == 0 then 0.0
    else
      var xs := MetricValues(selected, scoreMap);
      var ws := Weights(selected);
      assert |p.metrics| == 1 && p.metrics[0].id in ids && p.metrics[0].weight != 0.0 ==> Dot(xs, NormalizeWeights(ws)) == xs[0] by {
        if |p.metrics| == 1 && p.metrics[0].id in ids && p.metrics[0].weight != 0.0 {
          assert selected == p.metrics by { assert p.metrics[0] in selected; }
          SingleWeightMean(xs, ws);
        }
      }
      Dot(xs, NormalizeWeights(ws)) * 20.0
  }

  /** A weighted mean over one value with a non-zero weight is that value. */
  lemma SingleWeightMean(xs: seq<real>, ws: seq<real>)
    requires |xs| == |ws| == 1 && ws[0] != 0.0
    ensures Dot(xs, NormalizeWeights(ws)) == xs[0]
  {
    assert Sum(ws) == ws[0];
    assert NormalizeWeights(ws)[0] == 1.0;
  }

  /** The pillars whose score is above 0, in their original order. */
  function Positive(ps: seq<PillarScore>): (r: seq<PillarScore>)
    ensures |r| <= |ps|
    ensures forall x :: x in r <==> x in ps && x.score > 0.0
    ensures IsSubsequence(r, ps)
  {
    if |ps| == 0 then []
    else if ps[0].score > 0.0 then [ps[0]] + Positive(ps[1..])
    else Positive(ps[1..])
  }

  /** `benchmark.pillars.find((item) => item.id === pillarId)?.weight ?? 1`: the first pillar with that id decides. */
  function PillarWeight(pillars: seq<Pillar>, pillarId: string): (w: real)
    ensures (forall p :: p in pillars ==> p.id != pillarId) ==> w == 1.0
    ensures forall k :: (0 <= k < |pillars| && pillars[k].id == pillarId &&
      forall j :: 0 <= j < k ==> pillars[j].id != pillarId) ==> w == pillars[k].weight
  {
    if |pillars| == 0 then 1.0
    else if pillars[0].id == pillarId then pillars[0].weight
    else
      var rest := PillarWeight(pillars[1..], pillarId);
      assert forall k :: 1 <= k < |pillars| ==> pillars[k] == pillars[1..][k - 1];
      rest
  }

  /** One entry per catalog pillar, in catalog order, scored over the selected metrics. */
  function AllPillarScores(b: Benchmark, selections: seq<Selection>, scores: seq<SliderScore>): (r: seq<PillarScore>)
    ensures |r| == |b.pillars|
    ensures forall i :: 0 <= i < |r| ==> r[i].pillarId == b.pillars[i].id && r[i].pillarName == b.pillars[i].name
    ensures forall i :: 0 <= i < |r| ==>
      r[i].score == PillarValue(b.pillars[i], SelectedMetricIds(selections), ScoreMap(scores))
  {
    var ids := SelectedMetricIds(selections);
    var scoreMap := ScoreMap(scores);
    seq(|b.pillars|, i requires 0 <= i < |b.pillars| =>
      PillarScore(b.pillars[i].id, b.pillars[i].name, PillarValue(b.pillars[i], ids, scoreMap)))
  }

  function PillarWeights(b: Benchmark, ps: seq<PillarScore>): (r: seq<real>)
    ensures |r| == |ps|
  {
    seq(|ps|, i requires 0 <= i < |ps| => PillarWeight(b.pillars, ps[i].pillarId))
  }

  function ScoresOf(ps: seq<PillarScore>): (r: seq<real>)
    ensures |r| == |ps|
  {
    seq(|ps|, i requires 0 <= i < |ps| => ps[i].score)
  }

  /** The weighted mean of the evaluated pillars' scores, each weighted by its catalog pillar. */
  function Composite(b: Benchmark, evaluated: seq<PillarScore>): (c: real)
    ensures |evaluated| == 0 ==> c == 0.0
  {
    Dot(ScoresOf(evaluated), NormalizeWeights(PillarWeights(b, evaluated)))
  }

  /** A single evaluated pillar with a non-zero weight gives its own score as the composite. */
  lemma CompositeOfOne(b: Benchmark, x: PillarScore)
    requires PillarWeight(b.pillars, x.pillarId) != 0.0
    ensures Composite(b, [x]) == x.score
  {
    SingleWeightMean(ScoresOf([x]), PillarWeights(b, [x]));
  }

  /** `calculateScores`. */
  function CalculateScores(b: Benchmark, selections: seq<Selection>, scores: seq<SliderScore>): (r: ScoreSummary)
    ensures forall x :: x in r.pillarScores <==> x in AllPillarScores(b, selections, scores) && x.score > 0.0
    ensures IsSubsequence(r.pillarScores, AllPillarScores(b, selections, scores))
    ensures r.pillarScores == Positive(AllPillarScores(b, selections, scores))
    ensures r.compositeScore == Composite(b, r.pillarScores)
    ensures r.maturityBand == BandForScore(r.compositeScore)
  {
    var evaluated := Positive(AllPillarScores(b, selections, scores));
    var composite := Composite(b, evaluated);
    ScoreSummary(composite, evaluated, BandForScore(composite))
  }

  // ---------------------------------------------------------------------
  // Properties of the engine
  // ---------------------------------------------------------------------

  predicate ValidWeights(b: Benchmark)
  {
    forall i :: 0 <= i < |b.pillars| ==>
      b.pillars[i].weight >= 0.0 &&
      forall k :: 0 <= k < |b.pillars[i].metrics| ==> b.pillars[i].metrics[k].weight >= 0.0
  }

  predicate ScoresInRange(scores: seq<SliderScore>)
  {
    forall i :: 0 <= i < |scores| ==> 0.0 <= scores[i].score <= 5.0
  }

  /** A pillar whose selected metrics have weights summing to 0 scores 0, whatever their scores. */
  lemma ZeroWeightPillarScoresZero(p: Pillar, ids: set<string>, scoreMap: map<string, real>)
    requires Sum(Weights(SelectedMetrics(p.metrics, ids))) == 0.0
    ensures PillarValue(p, ids, scoreMap) == 0.0
  {
    var selected := SelectedMetrics(p.metrics, ids);
    if |selected| > 0 {
      DotZeroWeights(MetricValues(selected, scoreMap), NormalizeWeights(Weights(selected)));
    }
  }

  /** An unscored selected metric is not skipped: it weighs in exactly as a recorded score of 0 would. */
  lemma MissingScoreCountsAsZero(p: Pillar, ids: set<string>, scoreMap: map<string, real>, metricId: string)
    requires metricId !in scoreMap
    ensures PillarValue(p, ids, scoreMap) == PillarValue(p, ids, scoreMap[metricId := 0.0])
  {
    var selected := SelectedMetrics(p.metrics, ids);
    assert MetricValues(selected, scoreMap) == MetricValues(selected, scoreMap[metricId := 0.0]);
  }

  /** With non-negative weights and recorded scores in [0, 5], a pillar scores within [0, 100]. */
  lemma PillarScoreBounds(p: Pillar, ids: set<string>, scores: seq<SliderScore>)
    requires forall k :: 0 <= k < |p.metrics| ==> p.metrics[k].weight >= 0.0
    requires ScoresInRange(scores)
    ensures 0.0 <= PillarValue(p, ids, ScoreMap(scores)) <= 100.0
  {
    var scoreMap := ScoreMap(scores);
    var selected := SelectedMetrics(p.metrics, ids);
    if |selected| > 0 {
      var xs := MetricValues(selected, scoreMap);
      forall i | 0 <= i < |xs| ensures 0.0 <= xs[i] <= 5.0 {
        if selected[i].id in scoreMap {
          assert scoreMap[selected[i].id] in scoreMap.Values;
        }
      }
      forall i | 0 <= i < |selected| ensures Weights(selected)[i] >= 0.0 {
        assert selected[i] in p.metrics;
      }
      NormalizedMeanBounds(xs, Weights(selected), 5.0);
    }
  }

  /** The composite score lies in [0, 100] for non-negative weights and recorded scores in [0, 5]. */
  lemma CompositeBounds(b: Benchmark, selections: seq<Selection>, scores: seq<SliderScore>)
    requires ValidWeights(b)
    requires ScoresInRange(scores)
    ensures 0.0 <= CalculateScores(b, selections, scores).compositeScore <= 100.0
  {
    var all := AllPillarScores(b, selections, scores);
    var evaluated := Positive(all);
    forall i | 0 <= i < |all| ensures 0.0 <= all[i].score <= 100.0 {
      PillarScoreBounds(b.pillars[i], SelectedMetricIds(selections), scores);
    }
    var xs := ScoresOf(evaluated);
    forall i | 0 <= i < |xs| ensures 0.0 <= xs[i] <= 100.0 {
      assert evaluated[i] in all;
    }
    var ws := PillarWeights(b, evaluated);
    forall i | 0 <= i < |ws| ensures ws[i] >= 0.0 {
      PillarWeightNonNegative(b.pillars, evaluated[i].pillarId);
    }
    NormalizedMeanBounds(xs, ws, 100.0);
  }

  lemma {:induction false} PillarWeightNonNegative(pillars: seq<Pillar>, pillarId: string)
    requires forall i :: 0 <= i < |pillars| ==> pillars[i].weight >= 0.0
    ensures PillarWeight(pillars, pillarId) >= 0.0
  {
    if |pillars| > 0 && pillars[0].id != pillarId {
      PillarWeightNonNegative(pillars[1..], pillarId);
    }
  }

  /** When no pillar scores above 0 (e.g. nothing is selected) the composite is 0 and the band is Emerging. */
  lemma NothingEvaluatedIsEmerging(b: Benchmark, selections: seq<Selection>, scores: seq<SliderScore>)
    requires forall x :: x in AllPillarScores(b, selections, scores) ==> x.score <= 0.0
    ensures CalculateScores(b, selections, scores).compositeScore == 0.0
    ensures CalculateScores(b, selections, scores).pillarScores == []
    ensures CalculateScores(b, selections, scores).maturityBand == Emerging
  {
  }

  /** A weighted sum of all-zero values is 0, whatever the weights. */
  lemma {:induction false} DotZeroValues(xs: seq<real>, ws: seq<real>)
    requires |xs| == |ws|
    requires forall k :: 0 <= k < |xs| ==> xs[k] == 0.0
    ensures Dot(xs, ws) == 0.0
  {
    if |xs| > 0 {
      DotZeroValues(xs[1..], ws[1..]);
    }
  }

  /** With no score recorded every pillar scores 0, so the composite is 0 and the band is Emerging. */
  lemma NoScoresIsEmerging(b: Benchmark, selections: seq<Selection>)
    ensures CalculateScores(b, selections, []).compositeScore == 0.0
    ensures CalculateScores(b, selections, []).pillarScores == []
    ensures CalculateScores(b, selections, []).maturityBand == Emerging
  {
    var ids := SelectedMetricIds(selections);
    var scoreMap := ScoreMap([]);
    assert scoreMap == map[];
    forall x | x in AllPillarScores(b, selections, []) ensures x.score <= 0.0 {
      var all := AllPillarScores(b, selections, []);
      var i :| 0 <= i < |all| && all[i] == x;
      var selected := SelectedMetrics(b.pillars[i].metrics, ids);
      if |selected| > 0 {
        DotZeroValues(MetricValues(selected, scoreMap), NormalizeWeights(Weights(selected)));
      }
    }
    NothingEvaluatedIsEmerging(b, selections, []);
  }

  /** With no metric selected every pillar scores 0, so the result is 0 / Emerging with no pillar listed. */
  lemma NoSelectionIsEmerging(b: Benchmark, selections: seq<Selection>, scores: seq<SliderScore>)
    requires forall s :: s in selections ==> !s.selected
    ensures CalculateScores(b, selections, scores).compositeScore == 0.0
    ensures CalculateScores(b, selections, scores).maturityBand == Emerging
  {
    var ids := SelectedMetricIds(selections);
    assert ids == {};
    forall x | x in AllPillarScores(b, selections, scores) ensures x.score <= 0.0 {
      var all := AllPillarScores(b, selections, scores);
      var i :| 0 <= i < |all| && all[i] == x;
      assert SelectedMetrics(b.pillars[i].metrics, ids) == [];
    }
    NothingEvaluatedIsEmerging(b, selections, scores);
  }

  /** When every pillar that scored carries weight 0, the composite is 0 (there is no equal-split fallback). */
  lemma ZeroPillarWeightsGiveZeroComposite(b: Benchmark, selections: seq<Selection>, scores: seq<SliderScore>)
    requires forall i :: 0 <= i < |b.pillars| ==> b.pillars[i].weight == 0.0
    ensures CalculateScores(b, selections, scores).compositeScore == 0.0
  {
    var all := AllPillarScores(b, selections, scores);
    ListedPillarsWeighZero(b.pillars, all);
    var evaluated := Positive(all);
    forall i | 0 <= i < |evaluated| ensures PillarWeight(b.pillars, evaluated[i].pillarId) == 0.0 {
      assert evaluated[i] in all;
    }
    CompositeOfZeroWeights(b, evaluated);
  }

  lemma CompositeOfZeroWeights(b: Benchmark, evaluated: seq<PillarScore>)
    requires forall i :: 0 <= i < |evaluated| ==> PillarWeight(b.pillars, evaluated[i].pillarId) == 0.0
    ensures Composite(b, evaluated) == 0.0
  {
    var ws := PillarWeights(b, evaluated);
    assert forall i :: 0 <= i < |ws| ==> ws[i] == 0.0;
    assert forall i :: 0 <= i < |ws| ==> NormalizeWeights(ws)[i] == 0.0;
    DotZeroWeights(ScoresOf(evaluated), NormalizeWeights(ws));
    assert Composite(b, evaluated) == Dot(ScoresOf(evaluated), NormalizeWeights(ws));
  }

  lemma ListedPillarsWeighZero(pillars: seq<Pillar>, ps: seq<PillarScore>)
    requires forall i :: 0 <= i < |pillars| ==> pillars[i].weight == 0.0
    requires |ps| == |pillars| && forall j :: 0 <= j < |ps| ==> ps[j].pillarId == pillars[j].id
    ensures forall x :: x in ps ==> PillarWeight(pillars, x.pillarId) == 0.0
  {
    ZeroWeightEverywhere(pillars);
  }

  /** With all pillar weights 0, looking up any catalog pillar's weight gives 0. */
  lemma {:induction false} ZeroWeightEverywhere(pillars: seq<Pillar>)
    requires forall i :: 0 <= i < |pillars| ==> pillars[i].weight == 0.0
    ensures forall j :: 0 <= j < |pillars| ==> PillarWeight(pillars, pillars[j].id) == 0.0
  {
    if |pillars| > 0 {
      ZeroWeightEverywhere(pillars[1..]);
      assert forall j :: 1 <= j < |pillars| ==> pillars[1..][j - 1] == pillars[j];
    }
  }

  /** The worked example: metric weights 1 and 3 with scores 3 and 5 give a pillar score of 90. */
  lemma WeightedPillarExample()
    ensures
      var a := Metric("a", "A", "", 1.0, [], []);
      var c := Metric("b", "B", "", 3.0, [], []);
      var p := Pillar("p", "P", "", 1.0, [a, c]);
      PillarValue(p, {"a", "b"}, map["a" := 3.0, "b" := 5.0]) == 90.0
  {
    var a := Metric("a", "A", "", 1.0, [], []);
    var c := Metric("b", "B", "", 3.0, [], []);
    var p := Pillar("p", "P", "", 1.0, [a, c]);
    var selected := SelectedMetrics(p.metrics, {"a", "b"});
    assert selected == [a, c];
    assert Weights(selected) == [1.0, 3.0];
    assert [1.0, 3.0][1..] == [3.0];
    assert Sum(Weights(selected)) == 4.0;
    var nw := NormalizeWeights(Weights(selected));
    assert nw == [0.25, 0.75];
    assert MetricValues(selected, map["a" := 3.0, "b" := 5.0]) == [3.0, 5.0];
  }

  /** The worked example with the second metric unscored: it counts as 0, so the pillar scores 15, not 60. */
  lemma MissingScoreExample()
    ensures
      var a := Metric("a", "A", "", 1.0, [], []);
      var c := Metric("b", "B", "", 3.0, [], []);
      var p := Pillar("p", "P", "", 1.0, [a, c]);
      PillarValue(p, {"a", "b"}, map["a" := 3.0]) == 15.0
  {
    var a := Metric("a", "A", "", 1.0, [], []);
    var c := Metric("b", "B", "", 3.0, [], []);
    var p := Pillar("p", "P", "", 1.0, [a, c]);
    var selected := SelectedMetrics(p.metrics, {"a", "b"});
    assert selected == [a, c];
    assert Weights(selected) == [1.0, 3.0];
    assert [1.0, 3.0][1..] == [3.0];
    assert Sum(Weights(selected)) == 4.0;
    assert NormalizeWeights(Weights(selected)) == [0.25, 0.75];
    assert MetricValues(selected, map["a" := 3.0]) == [3.0, 0.0];
  }
}
