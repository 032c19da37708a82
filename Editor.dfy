/**
 * The benchmark editor: edits of a draft copy of the Pillar -> Metric tree,
 * each addressed by id, and the save and reset buttons that move the draft
 * to and from the saved benchmark. The `Date.now()` readings that name new
 * nodes are parameters.
 */
module BenchmarkEditor {
  import opened Wrappers
  import opened Json
  import opened Catalog

  /** `defaultLabels`, the five slider captions of a new metric. */
  const DefaultLabels: seq<string> := ["Ad-hoc", "Basic", "Defined", "Advanced", "Leading"]

  /** A `Partial<Pillar>`: a field is overwritten only when the patch names it. */
  datatype PillarPatch = PillarPatch(
    id: Option<string>,
    name: Option<string>,
    description: Option<string>,
    weight: Option<real>,
    metrics: Option<seq<Metric>>)

  /** A `Partial<Metric>` over the editable metric fields. */
  datatype MetricPatch = MetricPatch(
    id: Option<string>,
    name: Option<string>,
    description: Option<string>,
    weight: Option<real>,
    labels: Option<seq<string>>)

  /** `{ ...pillar, ...updates }`. */
  function PatchPillar(p: Pillar, u: PillarPatch): Pillar
  {
    Pillar(u.id.GetOr(p.id), u.name.GetOr(p.name), u.description.GetOr(p.description),
      u.weight.GetOr(p.weight), u.metrics.GetOr(p.metrics))
  }

  /** `{ ...metric, ...updates }`. */
  function PatchMetric(m: Metric, u: MetricPatch): Metric
  {
    Metric(u.id.GetOr(m.id), u.name.GetOr(m.name), u.description.GetOr(m.description),
      u.weight.GetOr(m.weight), u.labels.GetOr(m.labels), m.questions)
  }

  /** Spreading the same patch twice is spreading it once, and an empty patch changes nothing. */
  lemma PatchIdempotent(p: Pillar, u: PillarPatch, m: Metric, v: MetricPatch)
    ensures PatchPillar(PatchPillar(p, u), u) == PatchPillar(p, u)
    ensures PatchMetric(PatchMetric(m, v), v) == PatchMetric(m, v)
    ensures PatchPillar(p, PillarPatch(None, None, None, None, None)) == p
    ensures PatchMetric(m, MetricPatch(None, None, None, None, None)) == m
  {
  }

  // ---------------------------------------------------------------------
  // The tree edits
  // ---------------------------------------------------------------------

  /** `updatePillar`: patch every pillar with the id. */
  function UpdatePillar(b: Benchmark, pillarId: string, u: PillarPatch): (r: Benchmark)
    ensures r.name == b.name && r.version == b.version && |r.pillars| == |b.pillars|
  {
    b.(pillars := seq(|b.pillars|, i requires 0 <= i < |b.pillars| =>
      if b.pillars[i].id == pillarId then PatchPillar(b.pillars[i], u) else b.pillars[i]))
  }

  /** The metric list of a pillar after `updateMetric`'s inner `map`. */
  function PatchMetrics(metrics: seq<Metric>, metricId: string, u: MetricPatch): (r: seq<Metric>)
    ensures |r| == |metrics|
  {
    seq(|metrics|, k requires 0 <= k < |metrics| =>
      if metrics[k].id == metricId then PatchMetric(metrics[k], u) else metrics[k])
  }

  /** `updateMetric`: patch the metrics with the id inside the pillars with the id. */
  function UpdateMetric(b: Benchmark, pillarId: string, metricId: string, u: MetricPatch): (r: Benchmark)
    ensures r.name == b.name && r.version == b.version && |r.pillars| == |b.pillars|
  {
    b.(pillars := seq(|b.pillars|, i requires 0 <= i < |b.pillars| =>
      if b.pillars[i].id == pillarId then b.pillars[i].(metrics := PatchMetrics(b.pillars[i].metrics, metricId, u))
      else b.pillars[i]))
  }

  /** `metric-${Date.now()}` and `pillar-${Date.now()}`. */
  function MetricId(clock: nat): string
  {
    "metric-" + NatToString(clock)
  }

  function PillarId(clock: nat): string
  {
    "pillar-" + NatToString(clock)
  }

  /** The metric the editor adds: one weight, the default labels, no questions. */
  function NewMetric(clock: nat): Metric
  {
    Metric(MetricId(clock), "New Metric", "Describe the metric.", 1.0, DefaultLabels, [])
  }

  /** `addPillar`; its two clock readings may differ. */
  function AddPillar(b: Benchmark, pillarClock: nat, metricClock: nat): (r: Benchmark)
    ensures r.name == b.name && r.version == b.version
  {
    b.(pillars := b.pillars + [Pillar(PillarId(pillarClock), "New Pillar", "Describe the pillar.", 1.0, [NewMetric(metricClock)])])
  }

  /** `addMetric`: append a new metric to every pillar with the id. */
  function AddMetric(b: Benchmark, pillarId: string, clock: nat): (r: Benchmark)
    ensures r.name == b.name && r.version == b.version && |r.pillars| == |b.pillars|
  {
    b.(pillars := seq(|b.pillars|, i requires 0 <= i < |b.pillars| =>
      if b.pillars[i].id == pillarId then b.pillars[i].(metrics := b.pillars[i].metrics + [NewMetric(clock)])
      else b.pillars[i]))
  }

  /** `pillars.filter((pillar) => pillar.id !== pillarId)`. */
  function WithoutPillar(pillars: seq<Pillar>, pillarId: string): (r: seq<Pillar>)
    ensures |r| <= |pillars|
    ensures forall p :: p in r <==> p in pillars && p.id != pillarId
  {
    if |pillars| == 0 then []
    else if pillars[0].id != pillarId then [pillars[0]] + WithoutPillar(pillars[1..], pillarId)
    else WithoutPillar(pillars[1..], pillarId)
  }

  /** `metrics.filter((metric) => metric.id !== metricId)`. */
  function WithoutMetric(metrics: seq<Metric>, metricId: string): (r: seq<Metric>)
    ensures |r| <= |metrics|
    ensures forall m :: m in r <==> m in metrics && m.id != metricId
  {
    if |metrics| == 0 then []
    else if metrics[0].id != metricId then [metrics[0]] + WithoutMetric(metrics[1..], metricId)
    else WithoutMetric(metrics[1..], metricId)
  }

  function RemovePillar(b: Benchmark, pillarId: string): (r: Benchmark)
    ensures r.name == b.name && r.version == b.version
  {
    b.(pillars := WithoutPillar(b.pillars, pillarId))
  }

  /** `removeMetric`: drop the metric with the id inside the pillars with the id. */
  function RemoveMetric(b: Benchmark, pillarId: string, metricId: string): (r: Benchmark)
    ensures r.name == b.name && r.version == b.version && |r.pillars| == |b.pillars|
  {
    b.(pillars := seq(|b.pillars|, i requires 0 <= i < |b.pillars| =>
      if b.pillars[i].id == pillarId then b.pillars[i].(metrics := WithoutMetric(b.pillars[i].metrics, metricId))
      else b.pillars[i]))
  }

  /** A label input's change: the rendered metric's labels with one caption replaced, sent as a metric patch. */
  function EditLabel(b: Benchmark, pillarId: string, metricId: string, labels: seq<string>, index: nat, value: string): Benchmark
    requires index < |labels|
  {
    UpdateMetric(b, pillarId, metricId, MetricPatch(None, None, None, None, Some(labels[index := value])))
  }

  // ---------------------------------------------------------------------
  // Only the addressed node changes
  // ---------------------------------------------------------------------

  /** Every pillar without the id is untouched; every pillar with it takes exactly the patched fields and keeps the rest. */
  lemma UpdatePillarSpec(b: Benchmark, pillarId: string, u: PillarPatch)
    ensures var r := UpdatePillar(b, pillarId, u);
      forall i :: 0 <= i < |b.pillars| ==>
        if b.pillars[i].id != pillarId then r.pillars[i] == b.pillars[i]
        else
          && r.pillars[i].name == (if u.name.Some? then u.name.value else b.pillars[i].name)
          && r.pillars[i].weight == (if u.weight.Some? then u.weight.value else b.pillars[i].weight)
          && r.pillars[i].description == (if u.description.Some? then u.description.value else b.pillars[i].description)
          && r.pillars[i].id == (if u.id.Some? then u.id.value else pillarId)
          && r.pillars[i].metrics == (if u.metrics.Some? then u.metrics.value else b.pillars[i].metrics)
  {
  }

  /** Outside the addressed pillar nothing changes; inside it only the addressed metric does, and every pillar keeps its number of metrics. */
  lemma UpdateMetricSpec(b: Benchmark, pillarId: string, metricId: string, u: MetricPatch)
    ensures var r := UpdateMetric(b, pillarId, metricId, u);
      && MetricCount(r.pillars) == MetricCount(b.pillars)
      && forall i :: 0 <= i < |b.pillars| ==>
        if b.pillars[i].id != pillarId then r.pillars[i] == b.pillars[i]
        else
          && r.pillars[i] == b.pillars[i].(metrics := r.pillars[i].metrics)
          && |r.pillars[i].metrics| == |b.pillars[i].metrics|
          && forall k :: 0 <= k < |b.pillars[i].metrics| ==>
               if b.pillars[i].metrics[k].id != metricId then r.pillars[i].metrics[k] == b.pillars[i].metrics[k]
               else r.pillars[i].metrics[k] == PatchMetric(b.pillars[i].metrics[k], u)
  {
    var r := UpdateMetric(b, pillarId, metricId, u);
    SameShapeSameCount(r.pillars, b.pillars);
  }

  /** Two catalogs whose pillars pairwise have as many metrics have as many metrics. */
  lemma {:induction false} SameShapeSameCount(a: seq<Pillar>, c: seq<Pillar>)
    requires |a| == |c| && forall i :: 0 <= i < |a| ==> |a[i].metrics| == |c[i].metrics|
    ensures MetricCount(a) == MetricCount(c)
  {
    if |a| > 0 {
      SameShapeSameCount(a[1..], c[1..]);
    }
  }

  lemma {:induction false} MetricCountAppend(a: seq<Pillar>, c: seq<Pillar>)
    ensures MetricCount(a + c) == MetricCount(a) + MetricCount(c)
  {
    if |a| > 0 {
      assert (a + c)[1..] == a[1..] + c;
      MetricCountAppend(a[1..], c);
    } else {
      assert a + c == c;
    }
  }

  /** `addPillar` keeps every pillar and appends one of weight 1 holding one default metric of weight 1. */
  lemma AddPillarSpec(b: Benchmark, pillarClock: nat, metricClock: nat)
    ensures var r := AddPillar(b, pillarClock, metricClock);
      && |r.pillars| == |b.pillars| + 1
      && r.pillars[..|b.pillars|] == b.pillars
      && r.pillars[|b.pillars|].weight == 1.0
      && r.pillars[|b.pillars|].metrics == [NewMetric(metricClock)]
      && NewMetric(metricClock).weight == 1.0 && NewMetric(metricClock).labels == DefaultLabels
      && MetricCount(r.pillars) == MetricCount(b.pillars) + 1
  {
    var r := AddPillar(b, pillarClock, metricClock);
    MetricCountAppend(b.pillars, [r.pillars[|b.pillars|]]);
    assert MetricCount([r.pillars[|b.pillars|]]) == 1;
  }

  /** `addMetric` appends the new metric to the addressed pillars only. */
  lemma AddMetricSpec(b: Benchmark, pillarId: string, clock: nat)
    ensures var r := AddMetric(b, pillarId, clock);
      forall i :: 0 <= i < |b.pillars| ==>
        if b.pillars[i].id != pillarId then r.pillars[i] == b.pillars[i]
        else
          && r.pillars[i].(metrics := b.pillars[i].metrics) == b.pillars[i]
          && r.pillars[i].metrics[..|b.pillars[i].metrics|] == b.pillars[i].metrics
          && r.pillars[i].metrics[|b.pillars[i].metrics|] == NewMetric(clock)
          && |r.pillars[i].metrics| == |b.pillars[i].metrics| + 1
  {
  }

  /** Filtering distributes over concatenation, so the kept pillars stay in their relative order. */
  lemma {:induction false} WithoutPillarAppend(a: seq<Pillar>, c: seq<Pillar>, pillarId: string)
    ensures WithoutPillar(a + c, pillarId) == WithoutPillar(a, pillarId) + WithoutPillar(c, pillarId)
  {
    if |a| > 0 {
      assert (a + c)[0] == a[0] && (a + c)[1..] == a[1..] + c;
      WithoutPillarAppend(a[1..], c, pillarId);
      var rest, tail := WithoutPillar(a[1..], pillarId), WithoutPillar(c, pillarId);
      assert [a[0]] + (rest + tail) == ([a[0]] + rest) + tail;
    } else {
      assert a + c == c;
    }
  }

  lemma {:induction false} WithoutMetricAppend(a: seq<Metric>, c: seq<Metric>, metricId: string)
    ensures WithoutMetric(a + c, metricId) == WithoutMetric(a, metricId) + WithoutMetric(c, metricId)
  {
    if |a| > 0 {
      assert (a + c)[0] == a[0] && (a + c)[1..] == a[1..] + c;
      WithoutMetricAppend(a[1..], c, metricId);
      var rest, tail := WithoutMetric(a[1..], metricId), WithoutMetric(c, metricId);
      assert [a[0]] + (rest + tail) == ([a[0]] + rest) + tail;
    } else {
      assert a + c == c;
    }
  }

  /** Removing an id nobody has changes nothing. */
  lemma {:induction false} WithoutAbsentPillar(pillars: seq<Pillar>, pillarId: string)
    requires forall p :: p in pillars ==> p.id != pillarId
    ensures WithoutPillar(pillars, pillarId) == pillars
  {
    if |pillars| > 0 {
      assert pillars[0] in pillars;
      assert forall p :: p in pillars[1..] ==> p in pillars;
      WithoutAbsentPillar(pillars[1..], pillarId);
    }
  }

  lemma {:induction false} WithoutAbsentMetric(metrics: seq<Metric>, metricId: string)
    requires forall m :: m in metrics ==> m.id != metricId
    ensures WithoutMetric(metrics, metricId) == metrics
  {
    if |metrics| > 0 {
      assert metrics[0] in metrics;
      assert forall m :: m in metrics[1..] ==> m in metrics;
      WithoutAbsentMetric(metrics[1..], metricId);
    }
  }

  /** `removePillar` drops exactly the pillars with the id, keeping the others in order. */
  lemma RemovePillarSpec(b: Benchmark, pillarId: string, before: seq<Pillar>, after: seq<Pillar>, p: Pillar)
    requires b.pillars == before + [p] + after
    ensures var r := RemovePillar(b, pillarId);
      && (forall q :: q in r.pillars <==> q in b.pillars && q.id != pillarId)
      && r.pillars == WithoutPillar(before, pillarId) + (if p.id == pillarId then [] else [p]) + WithoutPillar(after, pillarId)
  {
    var kept := if p.id == pillarId then [] else [p];
    assert WithoutPillar([p], pillarId) == kept by {
      assert [p][1..] == [];
    }
    WithoutPillarAppend(before + [p], after, pillarId);
    WithoutPillarAppend(before, [p], pillarId);
  }

  /** Removing a freshly added pillar gives the catalog back, provided its id was not already taken. */
  lemma RemoveAddedPillar(b: Benchmark, pillarClock: nat, metricClock: nat)
    requires forall p :: p in b.pillars ==> p.id != PillarId(pillarClock)
    ensures RemovePillar(AddPillar(b, pillarClock, metricClock), PillarId(pillarClock)) == b
  {
    var added := AddPillar(b, pillarClock, metricClock).pillars;
    WithoutPillarAppend(b.pillars, [added[|b.pillars|]], PillarId(pillarClock));
    WithoutAbsentPillar(b.pillars, PillarId(pillarClock));
    assert added == b.pillars + [added[|b.pillars|]];
  }

  /** `removeMetric` drops the metric only inside the addressed pillars, keeping the other metrics in order. */
  lemma RemoveMetricSpec(b: Benchmark, pillarId: string, metricId: string)
    ensures var r := RemoveMetric(b, pillarId, metricId);
      forall i :: 0 <= i < |b.pillars| ==>
        if b.pillars[i].id != pillarId then r.pillars[i] == b.pillars[i]
        else
          && r.pillars[i].(metrics := b.pillars[i].metrics) == b.pillars[i]
          && (forall m :: m in r.pillars[i].metrics <==> m in b.pillars[i].metrics && m.id != metricId)
  {
  }

  /** Removing a freshly added metric gives the catalog back, provided its id was not already taken in the pillar. */
  lemma RemoveAddedMetric(b: Benchmark, pillarId: string, clock: nat)
    requires forall p, m :: p in b.pillars && p.id == pillarId && m in p.metrics ==> m.id != MetricId(clock)
    ensures RemoveMetric(AddMetric(b, pillarId, clock), pillarId, MetricId(clock)) == b
  {
    var added := AddMetric(b, pillarId, clock);
    var r := RemoveMetric(added, pillarId, MetricId(clock));
    forall i | 0 <= i < |b.pillars| ensures r.pillars[i] == b.pillars[i] {
      var p := b.pillars[i];
      if p.id == pillarId {
        assert p in b.pillars;
        WithoutMetricAppend(p.metrics, [NewMetric(clock)], MetricId(clock));
        WithoutAbsentMetric(p.metrics, MetricId(clock));
        assert WithoutMetric([NewMetric(clock)], MetricId(clock)) == [];
        assert r.pillars[i].metrics == p.metrics;
      }
    }
    assert r.pillars == b.pillars;
  }

  /** Editing caption `index` changes that caption of the addressed metric and no other. */
  lemma EditLabelSpec(b: Benchmark, pillarId: string, metricId: string, labels: seq<string>, index: nat, value: string)
    requires index < |labels|
    ensures var r := EditLabel(b, pillarId, metricId, labels, index, value);
      forall i, k ::
        (0 <= i < |b.pillars| && b.pillars[i].id == pillarId
         && 0 <= k < |b.pillars[i].metrics| && b.pillars[i].metrics[k].id == metricId) ==>
        var l := r.pillars[i].metrics[k].labels;
        && |l| == |labels|
        && l[index] == value
        && forall j :: 0 <= j < |labels| && j != index ==> l[j] == labels[j]
  {
  }

  // ---------------------------------------------------------------------
  // The editor page
  // ---------------------------------------------------------------------

  /** The page's draft and the benchmark store's saved catalog. */
  class Editor {
    var draft: Benchmark
    var saved: Benchmark

    /** The draft starts as a copy of the saved benchmark. */
    constructor (benchmark: Benchmark)
      ensures draft == saved == benchmark
    {
      draft, saved := benchmark, benchmark;
    }

    method HandleUpdatePillar(pillarId: string, u: PillarPatch)
      modifies this
      ensures draft == UpdatePillar(old(draft), pillarId, u) && saved == old(saved)
    {
      draft := UpdatePillar(draft, pillarId, u);
    }

    method HandleUpdateMetric(pillarId: string, metricId: string, u: MetricPatch)
      modifies this
      ensures draft == UpdateMetric(old(draft), pillarId, metricId, u) && saved == old(saved)
    {
      draft := UpdateMetric(draft, pillarId, metricId, u);
    }

    method HandleAddPillar(pillarClock: nat, metricClock: nat)
      modifies this
      ensures draft == AddPillar(old(draft), pillarClock, metricClock) && saved == old(saved)
    {
      draft := AddPillar(draft, pillarClock, metricClock);
    }

    method HandleAddMetric(pillarId: string, clock: nat)
      modifies this
      ensures draft == AddMetric(old(draft), pillarId, clock) && saved == old(saved)
    {
      draft := AddMetric(draft, pillarId, clock);
    }

    method HandleRemovePillar(pillarId: string)
      modifies this
      ensures draft == RemovePillar(old(draft), pillarId) && saved == old(saved)
    {
      draft := RemovePillar(draft, pillarId);
    }

    method HandleRemoveMetric(pillarId: string, metricId: string)
      modifies this
      ensures draft == RemoveMetric(old(draft), pillarId, metricId) && saved == old(saved)
    {
      draft := RemoveMetric(draft, pillarId, metricId);
    }

    /** A caption input's change; `labels` are the rendered metric's captions. */
    method HandleLabelChange(pillarId: string, metricId: string, labels: seq<string>, index: nat, value: string)
      requires index < |labels|
      modifies this
      ensures draft == EditLabel(old(draft), pillarId, metricId, labels, index, value) && saved == old(saved)
    {
      var nextLabels := labels;
      nextLabels := nextLabels[index := value];
      draft := UpdateMetric(draft, pillarId, metricId, MetricPatch(None, None, None, None, Some(nextLabels)));
    }

    /** `handleSave`: the draft becomes the saved benchmark. */
    method HandleSave()
      modifies this
      ensures saved == draft == old(draft)
    {
      saved := draft;
    }

    /** `handleReset`: every unsaved edit is dropped. */
    method HandleReset()
      modifies this
      ensures draft == saved == old(saved)
    {
      draft := saved;
    }
  }
}
