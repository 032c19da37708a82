/**
 * The respondent's question-by-question page: the metrics it walks through,
 * the per-metric response vectors and their means, the completion flags, and
 * the progress figure each autosave reports.
 */
module ResponseStore {
  import opened Wrappers
  import opened Catalog

  /** A metric's record: one slider value per question, their mean, and whether the respondent moved past it. */
  datatype MetricScore = MetricScore(
    metricId: string,
    pillarId: string,
    responses: seq<int>,
    score: real,
    completed: bool)

  /** The `progress` object an autosave sends; `updatedAt` is the client clock in milliseconds. */
  datatype Progress = Progress(completedMetrics: nat, totalMetrics: nat, percent: nat, updatedAt: int)

  // ---------------------------------------------------------------------
  // The metrics the page walks through
  // ---------------------------------------------------------------------

  /** `selectedPillars`: the catalog pillars with at least one selected entry, in catalog order. */
  function SelectedPillars(pillars: seq<Pillar>, selections: seq<Selection>): (r: seq<Pillar>)
    ensures forall p :: p in r <==> p in pillars && HasSelectedEntry(selections, p.id)
    ensures IsSubsequence(r, pillars)
  {
    if |pillars| == 0 then []
    else if HasSelectedEntry(selections, pillars[0].id) then
      [pillars[0]] + SelectedPillars(pillars[1..], selections)
    else SelectedPillars(pillars[1..], selections)
  }

  /** `selectedMetrics`: every metric of every selected pillar, pillar-major. */
  function SelectedEntries(pillars: seq<Pillar>, selections: seq<Selection>): seq<Entry>
  {
    Entries(SelectedPillars(pillars, selections))
  }

  /** The page lists every metric of a pillar with a selected entry, and no other metric. */
  lemma SelectedEntriesMembers(pillars: seq<Pillar>, selections: seq<Selection>, p: Pillar, m: Metric)
    requires p in pillars && m in p.metrics
    ensures Entry(p, m) in SelectedEntries(pillars, selections) <==> HasSelectedEntry(selections, p.id)
  {
    var sp := SelectedPillars(pillars, selections);
    EntriesMembers(sp);
    if HasSelectedEntry(selections, p.id) {
      var i :| 0 <= i < |sp| && sp[i] == p;
      var k :| 0 <= k < |p.metrics| && p.metrics[k] == m;
      assert Entry(sp[i], sp[i].metrics[k]) in Entries(sp);
    }
  }

  /** `selectedMetrics.findIndex(...)`: the first entry for the route's pillar and metric, or -1. */
  function MetricIndex(entries: seq<Entry>, pillarId: string, metricId: string): (r: int)
    ensures -1 <= r < |entries|
    ensures r == -1 <==> forall k :: 0 <= k < |entries| ==>
      !(entries[k].pillar.id == pillarId && entries[k].metric.id == metricId)
    ensures r >= 0 ==> entries[r].pillar.id == pillarId && entries[r].metric.id == metricId
    ensures r >= 0 ==> forall k :: 0 <= k < r ==>
      !(entries[k].pillar.id == pillarId && entries[k].metric.id == metricId)
  {
    if |entries| == 0 then -1
    else if entries[0].pillar.id == pillarId && entries[0].metric.id == metricId then 0
    else
      var k := MetricIndex(entries[1..], pillarId, metricId);
      if k == -1 then -1 else k + 1
  }

  /** `normalizedIndex`: the route's index, or 0 when the route names no listed metric. */
  function NormalizedIndex(entries: seq<Entry>, pillarId: string, metricId: string): nat
  {
    var k := MetricIndex(entries, pillarId, metricId);
    if k >= 0 then k else 0
  }

  /** `currentEntry`: the route's metric, else the first listed one, else none. */
  function CurrentEntry(entries: seq<Entry>, pillarId: string, metricId: string): (r: Option<Entry>)
    ensures r.None? <==> |entries| == 0
    ensures r.Some? ==> r.value in entries
    ensures (exists k :: 0 <= k < |entries| && entries[k].pillar.id == pillarId && entries[k].metric.id == metricId) ==>
      r.Some? && r.value.pillar.id == pillarId && r.value.metric.id == metricId
  {
    var k := MetricIndex(entries, pillarId, metricId);
    if k >= 0 then Some(entries[k])
    else if |entries| > 0 then Some(entries[0])
    else None
  }

  /** A route naming no listed metric falls back to the first one (index 0). */
  lemma UnknownRouteFallsBack(entries: seq<Entry>, pillarId: string, metricId: string)
    requires forall e :: e in entries ==> !(e.pillar.id == pillarId && e.metric.id == metricId)
    ensures NormalizedIndex(entries, pillarId, metricId) == 0
    ensures CurrentEntry(entries, pillarId, metricId) == if |entries| > 0 then Some(entries[0]) else None
  {
    assert forall k :: 0 <= k < |entries| ==> entries[k] in entries;
  }

  /** Where "Next" leads: the results after the last metric, else the following metric. */
  function NextRoute(entries: seq<Entry>, index: nat): (r: Route)
    requires index < |entries|
    ensures r == ResultsRoute <==> index == |entries| - 1
    ensures r != ResultsRoute ==>
      r == AssessmentRoute(entries[index + 1].pillar.id, entries[index + 1].metric.id)
  {
    if index == |entries| - 1 then ResultsRoute
    else AssessmentRoute(entries[index + 1].pillar.id, entries[index + 1].metric.id)
  }

  /** Where "Back" leads: the module picker from the first metric, else the previous metric. */
  function BackRoute(entries: seq<Entry>, index: nat): (r: Route)
    requires index < |entries|
    ensures r == ModulesRoute <==> index == 0
    ensures r != ModulesRoute ==>
      r == AssessmentRoute(entries[index - 1].pillar.id, entries[index - 1].metric.id)
  {
    if index <= 0 then ModulesRoute
    else AssessmentRoute(entries[index - 1].pillar.id, entries[index - 1].metric.id)
  }

  // ---------------------------------------------------------------------
  // Percentages
  // ---------------------------------------------------------------------

  /** `Math.round(100 * part / whole)` for non-negative integers (halves round up). */
  function RoundedPercent(part: nat, whole: nat): nat
    requires whole > 0
  {
    (200 * part + whole) / (2 * whole)
  }

  /** `min(100, round(100 * part / whole))`, and 0 when there is nothing to count. */
  function CappedPercent(part: nat, whole: nat): (r: nat)
    ensures r <= 100
    ensures whole == 0 ==> r == 0
  {
    if whole == 0 then 0
    else
      var p := RoundedPercent(part, whole);
      if p < 100 then p else 100
  }

  /** The percentage is the nearest integer to 100 * part / whole (halves up), capped at 100. */
  lemma CappedPercentIsRounded(part: nat, whole: nat)
    requires 0 < whole
    requires part <= whole
    ensures var p := CappedPercent(part, whole);
      2 * p * whole <= 200 * part + whole < 2 * p * whole + 2 * whole
  {
    var x := 200 * part + whole;
    var p := x / (2 * whole);
    assert x == p * (2 * whole) + x % (2 * whole);
    assert p * (2 * whole) < 101 * (2 * whole);
    MulStrictCancel(p, 101, 2 * whole);
  }

  /** Cancelling a positive factor from a strict inequality of products. */
  lemma MulStrictCancel(a: int, b: int, d: int)
    ensures d > 0 && a * d < b * d ==> a < b
  {
  }

  /** Reporting every metric as answered gives exactly 100, and nothing answered gives 0. */
  lemma CappedPercentEnds(part: nat, whole: nat)
    requires 0 < whole
    ensures part >= whole ==> CappedPercent(part, whole) == 100
    ensures part == 0 ==> CappedPercent(part, whole) == 0
  {
    var x, d := 200 * part + whole, 2 * whole;
    var p := x / d;
    if part >= whole {
      assert x == p * d + x % d && x % d < d;
      assert 201 * whole <= x < (p + 1) * d;
      assert (p + 1) * d == (2 * p + 2) * whole;
      MulStrictCancel(201, 2 * p + 2, whole);
    }
    if part == 0 {
      assert x == whole < d;
      assert p == 0;
    }
  }

  /** More answered metrics never lower the percentage. */
  lemma CappedPercentMonotone(a: nat, b: nat, whole: nat)
    requires a <= b
    ensures CappedPercent(a, whole) <= CappedPercent(b, whole)
  {
    if whole > 0 {
      var x, y := 200 * a + whole, 200 * b + whole;
      var d := 2 * whole;
      assert x == (x / d) * d + x % d;
      assert y == (y / d) * d + y % d;
      assert (x / d) * d < (y / d + 1) * d;
      MulStrictCancel(x / d, y / d + 1, d);
    }
  }

  /** The `progress` an autosave sends: the count of score entries over the count of listed metrics. */
  function AutosaveProgress(nextScores: seq<MetricScore>, totalMetrics: nat, now: int): (p: Progress)
    ensures p.completedMetrics == |nextScores| && p.totalMetrics == totalMetrics
    ensures p.percent <= 100
  {
    Progress(|nextScores|, totalMetrics, CappedPercent(|nextScores|, totalMetrics), now)
  }

  /** The side-bar figure: the 1-based position of the current metric as a capped percentage. */
  function StepPercent(index: nat, total: nat): (r: nat)
    ensures r <= 100
  {
    CappedPercent(index + 1, total)
  }

  // ---------------------------------------------------------------------
  // Response vectors
  // ---------------------------------------------------------------------

  function IntSum(xs: seq<int>): int
  {
    if |xs| == 0 then 0 else xs[0] + IntSum(xs[1..])
  }

  /** The arithmetic mean of a non-empty response vector. */
  function Mean(xs: seq<int>): real
    requires |xs| > 0
  {
    IntSum(xs) as real / |xs| as real
  }

  lemma {:induction false} IntSumBounds(xs: seq<int>, lo: int, hi: int)
    requires forall i :: 0 <= i < |xs| ==> lo <= xs[i] <= hi
    ensures lo * |xs| <= IntSum(xs) <= hi * |xs|
  {
    if |xs| > 0 {
      IntSumBounds(xs[1..], lo, hi);
    }
  }

  /** Responses on the 1-5 slider have a mean in [1, 5]. */
  lemma MeanBounds(xs: seq<int>)
    requires |xs| > 0
    requires forall i :: 0 <= i < |xs| ==> 1 <= xs[i] <= 5
    ensures 1.0 <= Mean(xs) <= 5.0
  {
    IntSumBounds(xs, 1, 5);
    QuotientBounds(IntSum(xs) as real, |xs| as real, 1.0, 5.0);
  }

  lemma QuotientBounds(s: real, n: real, lo: real, hi: real)
    requires n > 0.0 && lo * n <= s <= hi * n
    ensures lo <= s / n <= hi
  {
    assert s == (s / n) * n;
  }

  /** A vector of `n` default answers (all 1) has mean 1. */
  lemma {:induction false} DefaultsMeanOne(n: nat)
    requires n > 0
    ensures Mean(seq(n, _ => 1)) == 1.0
  {
    var ones := seq(n, _ => 1);
    AllOnesSum(n);
    assert IntSum(ones) as real == n as real;
    assert (n as real) / (n as real) == 1.0;
  }

  lemma {:induction false} AllOnesSum(n: nat)
    ensures IntSum(seq(n, _ => 1)) == n
  {
    if n > 0 {
      assert seq(n, _ => 1)[1..] == seq(n - 1, _ => 1);
      AllOnesSum(n - 1);
    }
  }

  /** `prev.find((score) => score.metricId === id)`: the first entry for the metric. */
  function Find(scores: seq<MetricScore>, metricId: string): (r: Option<MetricScore>)
    ensures r.None? <==> forall s :: s in scores ==> s.metricId != metricId
    ensures r.Some? ==> r.value in scores && r.value.metricId == metricId
    ensures forall k :: (0 <= k < |scores| && scores[k].metricId == metricId &&
      forall j :: 0 <= j < k ==> scores[j].metricId != metricId) ==> r == Some(scores[k])
  {
    if |scores| == 0 then None
    else if scores[0].metricId == metricId then Some(scores[0])
    else
      var rest := Find(scores[1..], metricId);
      assert forall k :: 1 <= k < |scores| ==> scores[k] == scores[1..][k - 1];
      rest
  }

  /** The previous answers stretched to `total` questions, a missing answer read as 1. */
  function PaddedResponses(existing: Option<MetricScore>, total: nat): (r: seq<int>)
    ensures |r| == total
  {
    seq(total, i requires 0 <= i < total =>
      if existing.Some? && i < |existing.value.responses| then existing.value.responses[i] else 1)
  }

  /** The updater of `handleResponseChange`: answer `value` to question `questionIndex` of a metric. */
  function RecordResponse(
    prev: seq<MetricScore>, metricId: string, pillarId: string,
    questionIndex: nat, value: int, totalQuestions: nat): (r: seq<MetricScore>)
    requires questionIndex < totalQuestions
    ensures |r| == |prev| + (if Find(prev, metricId).Some? then 0 else 1)
    ensures forall i :: 0 <= i < |prev| ==> r[i].metricId == prev[i].metricId && r[i].completed == prev[i].completed
    ensures Find(prev, metricId).None? ==> r[|prev|].metricId == metricId && !r[|prev|].completed
  {
    var existing := Find(prev, metricId);
    var responses := PaddedResponses(existing, totalQuestions)[questionIndex := value];
    var average := Mean(responses);
    if existing.Some? then
      seq(|prev|, i requires 0 <= i < |prev| =>
        if prev[i].metricId == metricId then prev[i].(responses := responses, score := average) else prev[i])
    else
      prev + [MetricScore(metricId, pillarId, responses, average, false)]
  }

  /** The answered metric's vector has `totalQuestions` entries, `value` at the answered index, the previous answer (or 1) elsewhere, and its score is their mean. */
  lemma RecordResponseVector(
    prev: seq<MetricScore>, metricId: string, pillarId: string,
    questionIndex: nat, value: int, totalQuestions: nat)
    requires questionIndex < totalQuestions
    ensures var next := RecordResponse(prev, metricId, pillarId, questionIndex, value, totalQuestions);
      var e := Find(next, metricId);
      var old_ := Find(prev, metricId);
      && e.Some?
      && |e.value.responses| == totalQuestions
      && e.value.responses[questionIndex] == value
      && (forall i :: 0 <= i < totalQuestions && i != questionIndex ==>
            e.value.responses[i] ==
              if old_.Some? && i < |old_.value.responses| then old_.value.responses[i] else 1)
      && e.value.score == Mean(e.value.responses)
  {
    var next := RecordResponse(prev, metricId, pillarId, questionIndex, value, totalQuestions);
    var existing := Find(prev, metricId);
    var responses := PaddedResponses(existing, totalQuestions)[questionIndex := value];
    if existing.Some? {
      FindInMapped(prev, metricId, responses, Mean(responses));
    } else {
      FindAppended(prev, metricId, MetricScore(metricId, pillarId, responses, Mean(responses), false));
    }
  }

  lemma {:induction false} FindInMapped(prev: seq<MetricScore>, metricId: string, responses: seq<int>, average: real)
    requires Find(prev, metricId).Some?
    ensures var next := seq(|prev|, i requires 0 <= i < |prev| =>
        if prev[i].metricId == metricId then prev[i].(responses := responses, score := average) else prev[i]);
      Find(next, metricId) == Some(Find(prev, metricId).value.(responses := responses, score := average))
  {
    var next := seq(|prev|, i requires 0 <= i < |prev| =>
        if prev[i].metricId == metricId then prev[i].(responses := responses, score := average) else prev[i]);
    if prev[0].metricId != metricId {
      var rest := seq(|prev[1..]|, i requires 0 <= i < |prev[1..]| =>
        if prev[1..][i].metricId == metricId then prev[1..][i].(responses := responses, score := average) else prev[1..][i]);
      assert next[1..] == rest;
      assert next[0] == prev[0];
      assert Find(next, metricId) == Find(rest, metricId);
      assert Find(prev, metricId) == Find(prev[1..], metricId);
      FindInMapped(prev[1..], metricId, responses, average);
    }
  }

  lemma {:induction false} FindAppended(prev: seq<MetricScore>, metricId: string, e: MetricScore)
    requires Find(prev, metricId).None? && e.metricId == metricId
    ensures Find(prev + [e], metricId) == Some(e)
  {
    if |prev| > 0 {
      assert (prev + [e])[1..] == prev[1..] + [e];
      FindAppended(prev[1..], metricId, e);
    }
  }

  /** Answering a metric that has entries changes only those entries' responses and score, in place. */
  lemma RecordResponseKeepsOthers(
    prev: seq<MetricScore>, metricId: string, pillarId: string,
    questionIndex: nat, value: int, totalQuestions: nat)
    requires questionIndex < totalQuestions
    requires Find(prev, metricId).Some?
    ensures var next := RecordResponse(prev, metricId, pillarId, questionIndex, value, totalQuestions);
      && |next| == |prev|
      && (forall i :: 0 <= i < |prev| && prev[i].metricId != metricId ==> next[i] == prev[i])
      && (forall i :: 0 <= i < |prev| && prev[i].metricId == metricId ==>
            next[i].metricId == metricId && next[i].pillarId == prev[i].pillarId
            && next[i].completed == prev[i].completed)
  {
  }

  /** Answering a metric with no entry appends exactly one, not completed, for the given pillar. */
  lemma RecordResponseAppends(
    prev: seq<MetricScore>, metricId: string, pillarId: string,
    questionIndex: nat, value: int, totalQuestions: nat)
    requires questionIndex < totalQuestions
    requires Find(prev, metricId).None?
    ensures var next := RecordResponse(prev, metricId, pillarId, questionIndex, value, totalQuestions);
      && |next| == |prev| + 1
      && next[..|prev|] == prev
      && next[|prev|].metricId == metricId && next[|prev|].pillarId == pillarId
      && !next[|prev|].completed
  {
  }

  /** Answering the same question twice keeps only the second answer: the result is as if only the second had been given. */
  lemma RecordResponseLastWins(
    prev: seq<MetricScore>, metricId: string, pillarId: string,
    questionIndex: nat, v1: int, v2: int, totalQuestions: nat)
    requires questionIndex < totalQuestions
    ensures RecordResponse(RecordResponse(prev, metricId, pillarId, questionIndex, v1, totalQuestions),
                           metricId, pillarId, questionIndex, v2, totalQuestions)
         == RecordResponse(prev, metricId, pillarId, questionIndex, v2, totalQuestions)
  {
    var mid := RecordResponse(prev, metricId, pillarId, questionIndex, v1, totalQuestions);
    var existing := Find(prev, metricId);
    var r1 := PaddedResponses(existing, totalQuestions)[questionIndex := v1];
    var r2 := PaddedResponses(existing, totalQuestions)[questionIndex := v2];
    RecordResponseVector(prev, metricId, pillarId, questionIndex, v1, totalQuestions);
    var e := Find(mid, metricId).value;
    assert e.responses == r1 by {
      if existing.Some? {
        FindInMapped(prev, metricId, r1, Mean(r1));
      } else {
        FindAppended(prev, metricId, MetricScore(metricId, pillarId, r1, Mean(r1), false));
      }
    }
    assert PaddedResponses(Some(e), totalQuestions)[questionIndex := v2] == r2;
  }

  // ---------------------------------------------------------------------
  // Moving past a metric
  // ---------------------------------------------------------------------

  /** The all-defaults entry `ensureMetricScore` creates for a metric that has none. */
  function DefaultScore(entry: Entry): (s: MetricScore)
    requires |entry.metric.questions| > 0
    ensures s.metricId == entry.metric.id && s.pillarId == entry.pillar.id && !s.completed
    ensures |s.responses| == |entry.metric.questions|
  {
    var defaults := seq(|entry.metric.questions|, _ => 1);
    MetricScore(entry.metric.id, entry.pillar.id, defaults, Mean(defaults), false)
  }

  /** The scores after `ensureMetricScore`, and the entry it returns. */
  function EnsureScore(scores: seq<MetricScore>, entry: Entry): (r: (seq<MetricScore>, MetricScore))
    requires |entry.metric.questions| > 0
    ensures r.1.metricId == entry.metric.id
  {
    var existing := Find(scores, entry.metric.id);
    if existing.Some? then (scores, existing.value)
    else (scores + [DefaultScore(entry)], DefaultScore(entry))
  }

  /** `ensureMetricScore` adds an all-1 entry (score 1, not completed) only when none exists, and otherwise returns the existing entry untouched. */
  lemma EnsureScoreSpec(scores: seq<MetricScore>, entry: Entry)
    requires |entry.metric.questions| > 0
    ensures var (next, current) := EnsureScore(scores, entry);
      if Find(scores, entry.metric.id).Some? then
        next == scores && current == Find(scores, entry.metric.id).value
      else
        && next == scores + [current]
        && current.responses == seq(|entry.metric.questions|, _ => 1)
        && current.score == 1.0 && !current.completed
        && current.pillarId == entry.pillar.id
  {
    DefaultsMeanOne(|entry.metric.questions|);
  }

  /** The updater of `handleNext`: flag the metric's entries as completed. */
  function MarkComplete(scores: seq<MetricScore>, metricId: string): (r: seq<MetricScore>)
    ensures |r| == |scores|
  {
    seq(|scores|, i requires 0 <= i < |scores| =>
      if scores[i].metricId == metricId then scores[i].(completed := true) else scores[i])
  }

  /** The scores after pressing "Next" on `entry`. */
  function AfterNext(scores: seq<MetricScore>, entry: Entry): (r: seq<MetricScore>)
    requires |entry.metric.questions| > 0
    ensures |r| == |scores| + (if Find(scores, entry.metric.id).Some? then 0 else 1)
    ensures forall i :: 0 <= i < |r| && r[i].metricId == entry.metric.id ==> r[i].completed
  {
    MarkComplete(EnsureScore(scores, entry).0, entry.metric.id)
  }

  /** "Next" completes exactly the current metric's entry (creating it with defaults if needed); responses, scores and every other entry stay as they were. */
  lemma AfterNextSpec(scores: seq<MetricScore>, entry: Entry)
    requires |entry.metric.questions| > 0
    ensures var next := AfterNext(scores, entry);
      && |next| == |scores| + (if Find(scores, entry.metric.id).Some? then 0 else 1)
      && (forall i :: 0 <= i < |scores| ==>
            next[i] == if scores[i].metricId == entry.metric.id then scores[i].(completed := true) else scores[i])
      && (Find(scores, entry.metric.id).None? ==>
            next[|scores|] == DefaultScore(entry).(completed := true))
      && Find(next, entry.metric.id).Some? && Find(next, entry.metric.id).value.completed
  {
  }

  /** What the store receives when "Next" is pressed on an unfinished metric is not what the page holds: the page's entry for the metric is completed, the stored one is missing or not completed. */
  lemma NextStoresStaleScores(scores: seq<MetricScore>, entry: Entry)
    requires |entry.metric.questions| > 0
    requires Find(scores, entry.metric.id).None? || !Find(scores, entry.metric.id).value.completed
    ensures Find(AfterNext(scores, entry), entry.metric.id).Some?
    ensures Find(AfterNext(scores, entry), entry.metric.id).value.completed
    ensures scores != AfterNext(scores, entry)
  {
    AfterNextSpec(scores, entry);
  }

  /**
   * The page's score list (`scores`) and the assessment store's copy
   * (`storedScores`, written by `persistAndNavigate`); the route, catalog and
   * selections are read-only inputs.
   */
  class AssessmentPage {
    var scores: seq<MetricScore>
    var storedScores: seq<MetricScore>

    constructor (initial: seq<MetricScore>)
      ensures scores == initial && storedScores == initial
    {
      scores := initial;
      storedScores := initial;
    }

    /** `handleResponseChange`; returns the progress the autosave sends (none without an invite token). The store is not written. */
    method HandleResponseChange(
      metricId: string, pillarId: string, questionIndex: nat, value: int, totalQuestions: nat,
      totalMetrics: nat, invited: bool, now: int) returns (sent: Option<Progress>)
      requires questionIndex < totalQuestions
      modifies this
      ensures scores == RecordResponse(old(scores), metricId, pillarId, questionIndex, value, totalQuestions)
      ensures storedScores == old(storedScores)
      ensures sent == if invited then Some(AutosaveProgress(scores, totalMetrics, now)) else None
    {
      var nextScores: seq<MetricScore> := [];
      var prev := scores;
      var existing := Find(prev, metricId);
      var responses := PaddedResponses(existing, totalQuestions);
      responses := responses[questionIndex := value];
      var average := Mean(responses);
      if existing.Some? {
        nextScores := seq(|prev|, i requires 0 <= i < |prev| =>
          if prev[i].metricId == metricId then prev[i].(responses := responses, score := average) else prev[i]);
      } else {
        nextScores := prev + [MetricScore(metricId, pillarId, responses, average, false)];
      }
      scores := nextScores;
      if invited {
        sent := Some(AutosaveProgress(nextScores, totalMetrics, now));
      } else {
        sent := None;
      }
    }

    /**
     * `handleNext` on the current metric, as written: returns where it
     * navigates and the progress the autosave sends. `persistAndNavigate`
     * stores the `scores` captured when the page last rendered, that is the
     * list from before the press.
     */
    method HandleNext(entries: seq<Entry>, index: nat, invited: bool, now: int)
      returns (target: Route, sent: Option<Progress>)
      requires index < |entries|
      requires |entries[index].metric.questions| > 0
      modifies this
      ensures scores == AfterNext(old(scores), entries[index])
      ensures storedScores == old(scores)
      ensures target == NextRoute(entries, index)
      ensures sent == if invited then Some(AutosaveProgress(scores, |entries|, now)) else None
    {
      var rendered := scores;
      var entry := entries[index];
      var ensured := EnsureScore(scores, entry);
      scores := ensured.0;
      var currentScore := ensured.1;
      scores := MarkComplete(scores, currentScore.metricId);
      sent := if invited then Some(AutosaveProgress(scores, |entries|, now)) else None;
      storedScores := rendered;
      target := NextRoute(entries, index);
    }

    /** `handleNext` with the store written from the list "Next" produced, so the completed entry reaches the results. */
    method HandleNextPersisted(entries: seq<Entry>, index: nat, invited: bool, now: int)
      returns (target: Route, sent: Option<Progress>)
      requires index < |entries|
      requires |entries[index].metric.questions| > 0
      modifies this
      ensures scores == AfterNext(old(scores), entries[index])
      ensures storedScores == scores
      ensures Find(storedScores, entries[index].metric.id).Some?
      ensures Find(storedScores, entries[index].metric.id).value.completed
      ensures target == NextRoute(entries, index)
      ensures sent == if invited then Some(AutosaveProgress(scores, |entries|, now)) else None
    {
      var entry := entries[index];
      AfterNextSpec(scores, entry);
      var ensured := EnsureScore(scores, entry);
      scores := MarkComplete(ensured.0, ensured.1.metricId);
      sent := if invited then Some(AutosaveProgress(scores, |entries|, now)) else None;
      storedScores := scores;
      target := NextRoute(entries, index);
    }

    /** `handleBack`: the store receives the page's scores and the page goes back. */
    method HandleBack(entries: seq<Entry>, index: nat) returns (target: Route)
      requires index < |entries|
      modifies this
      ensures scores == old(scores) && storedScores == old(scores)
      ensures target == BackRoute(entries, index)
    {
      storedScores := scores;
      target := BackRoute(entries, index);
    }
  }
}
