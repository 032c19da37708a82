/**
 * The benchmark catalog (Pillar -> Metric -> Question), the per-metric
 * selection flags of an assessment, and the client routes the pages navigate
 * to. The catalog is input to every other module and is never changed by
 * them (only the benchmark editor builds new catalogs).
 */
module Catalog {

  datatype Question = Question(id: string, prompt: string)

  /** `labels` are the five slider captions; `questions` is empty in the older single-slider catalog. */
  datatype Metric = Metric(
    id: string,
    name: string,
    description: string,
    weight: real,
    labels: seq<string>,
    questions: seq<Question>)

  datatype Pillar = Pillar(
    id: string,
    name: string,
    description: string,
    weight: real,
    metrics: seq<Metric>)

  datatype Benchmark = Benchmark(name: string, version: string, pillars: seq<Pillar>)

  /** One flag per catalog metric: whether it takes part in the assessment. */
  datatype Selection = Selection(metricId: string, pillarId: string, selected: bool)

  /** A score entry of the single-slider store: one slider value and free-text notes per metric. */
  datatype SliderScore = SliderScore(metricId: string, pillarId: string, score: real, notes: string)

  /** The client-side routes the pages navigate to (`SliderAssessmentRoute` is the older app's `/assessment`). */
  datatype Route =
    | HomeRoute
    | ModulesRoute
    | ResultsRoute
    | SliderAssessmentRoute
    | AssessmentRoute(pillarId: string, metricId: string)

  /** A catalog metric together with the pillar it belongs to. */
  datatype Entry = Entry(pillar: Pillar, metric: Metric)

  /** `pillar.metrics.map((metric) => ({ pillar, metric }))`. */
  function PillarEntries(p: Pillar): (r: seq<Entry>)
    ensures |r| == |p.metrics|
    ensures forall k :: 0 <= k < |r| ==> r[k] == Entry(p, p.metrics[k])
  {
    seq(|p.metrics|, k requires 0 <= k < |p.metrics| => Entry(p, p.metrics[k]))
  }

  /** `pillars.flatMap(PillarEntries)`: every catalog metric once, pillar-major. */
  function Entries(pillars: seq<Pillar>): seq<Entry>
  {
    if |pillars| == 0 then [] else PillarEntries(pillars[0]) + Entries(pillars[1..])
  }

  /** The number of metrics in the catalog. */
  function MetricCount(pillars: seq<Pillar>): nat
  {
    if |pillars| == 0 then 0 else |pillars[0].metrics| + MetricCount(pillars[1..])
  }

  /** The flattening lists every metric of every pillar and nothing else. */
  lemma {:induction false} EntriesMembers(pillars: seq<Pillar>)
    ensures |Entries(pillars)| == MetricCount(pillars)
    ensures forall e :: e in Entries(pillars) ==> e.pillar in pillars && e.metric in e.pillar.metrics
    ensures forall i, k :: 0 <= i < |pillars| && 0 <= k < |pillars[i].metrics| ==>
      Entry(pillars[i], pillars[i].metrics[k]) in Entries(pillars)
  {
    if |pillars| > 0 {
      EntriesMembers(pillars[1..]);
      forall i, k | 0 <= i < |pillars| && 0 <= k < |pillars[i].metrics|
        ensures Entry(pillars[i], pillars[i].metrics[k]) in Entries(pillars)
      {
        if i == 0 {
          assert PillarEntries(pillars[0])[k] == Entry(pillars[i], pillars[i].metrics[k]);
        } else {
          assert pillars[1..][i - 1] == pillars[i];
        }
      }
    }
  }

  /** The flattening of a concatenation is the concatenation of the flattenings. */
  lemma {:induction false} EntriesAppend(a: seq<Pillar>, b: seq<Pillar>)
    ensures Entries(a + b) == Entries(a) + Entries(b)
  {
    if |a| > 0 {
      assert (a + b)[1..] == a[1..] + b;
      EntriesAppend(a[1..], b);
    } else {
      assert a + b == b;
    }
  }

  /** The metric ids with a selected entry (the pages' `selectedIds` / `selectedMetricIds`). */
  function SelectedIds(selections: seq<Selection>): set<string>
  {
    set s | s in selections && s.selected :: s.metricId
  }

  /** Whether some selected entry belongs to the pillar (`selections.some(...)`). */
  predicate HasSelectedEntry(selections: seq<Selection>, pillarId: string)
  {
    exists s :: s in selections && s.pillarId == pillarId && s.selected
  }

  /** `xs` can be obtained from `ys` by deleting elements (order is kept). */
  predicate IsSubsequence<T(==)>(xs: seq<T>, ys: seq<T>)
  {
    if |xs| == 0 then true
    else if |ys| == 0 then false
    else if xs[0] == ys[0] then IsSubsequence(xs[1..], ys[1..])
    else IsSubsequence(xs, ys[1..])
  }
}
