/**
 * The older single-slider assessment page: metric selection toggles, one
 * 1-5 score and free-text notes per metric, and the list of metrics it shows.
 */
module SliderAssessment {
  import opened Wrappers
  import opened Catalog

  /** `handleToggle`'s updater: flip `selected` on the entries of one metric. */
  function Toggle(selections: seq<Selection>, metricId: string): (r: seq<Selection>)
    ensures |r| == |selections|
  {
    seq(|selections|, i requires 0 <= i < |selections| =>
      if selections[i].metricId == metricId then selections[i].(selected := !selections[i].selected)
      else selections[i])
  }

  /** Toggling keeps length, order and ids, flips exactly the named metric's entries, and toggling twice restores the list. */
  lemma ToggleSpec(selections: seq<Selection>, metricId: string)
    ensures var r := Toggle(selections, metricId);
      && (forall i :: 0 <= i < |r| ==>
            r[i].metricId == selections[i].metricId && r[i].pillarId == selections[i].pillarId
            && (r[i].selected != selections[i].selected <==> selections[i].metricId == metricId))
      && Toggle(r, metricId) == selections
  {
  }

  /**
   * `prev.find((score) => score.metricId === metricId)`: the same first-match search as
   * `ResponseStore.Find`, over this page's score records, which carry notes instead of responses.
   */
  function FindScore(scores: seq<SliderScore>, metricId: string): (r: Option<SliderScore>)
    ensures r.None? <==> forall s :: s in scores ==> s.metricId != metricId
    ensures r.Some? ==> r.value in scores && r.value.metricId == metricId
    ensures forall k :: (0 <= k < |scores| && scores[k].metricId == metricId &&
      forall j :: 0 <= j < k ==> scores[j].metricId != metricId) ==> r == Some(scores[k])
  {
    if |scores| == 0 then None
    else if scores[0].metricId == metricId then Some(scores[0])
    else
      var rest := FindScore(scores[1..], metricId);
      assert forall k :: 1 <= k < |scores| ==> scores[k] == scores[1..][k - 1];
      rest
  }

  /** `handleScoreChange`'s updater: set the metric's score, or add an entry with empty notes. */
  function ScoreChange(prev: seq<SliderScore>, metricId: string, pillarId: string, value: real): (r: seq<SliderScore>)
    ensures |r| == |prev| + (if FindScore(prev, metricId).Some? then 0 else 1)
    ensures forall i :: 0 <= i < |prev| ==> r[i].metricId == prev[i].metricId && r[i].notes == prev[i].notes
    ensures forall i :: 0 <= i < |r| && r[i].metricId == metricId ==> r[i].score == value
  {
    if FindScore(prev, metricId).Some? then
      seq(|prev|, i requires 0 <= i < |prev| =>
        if prev[i].metricId == metricId then prev[i].(score := value) else prev[i])
    else prev + [SliderScore(metricId, pillarId, value, "")]
  }

  /** `handleNoteChange`'s updater: set the metric's notes, or add an entry with the default score 3. */
  function NoteChange(prev: seq<SliderScore>, metricId: string, pillarId: string, notes: string): (r: seq<SliderScore>)
    ensures |r| == |prev| + (if FindScore(prev, metricId).Some? then 0 else 1)
    ensures forall i :: 0 <= i < |prev| ==> r[i].metricId == prev[i].metricId && r[i].score == prev[i].score
    ensures forall i :: 0 <= i < |r| && r[i].metricId == metricId ==> r[i].notes == notes
  {
    if FindScore(prev, metricId).Some? then
      seq(|prev|, i requires 0 <= i < |prev| =>
        if prev[i].metricId == metricId then prev[i].(notes := notes) else prev[i])
    else prev + [SliderScore(metricId, pillarId, 3.0, notes)]
  }

  /** A score change on a metric with an entry rewrites only the score of that metric's entries; notes, ids, positions and other entries are kept. */
  lemma ScoreChangeExisting(prev: seq<SliderScore>, metricId: string, pillarId: string, value: real)
    requires FindScore(prev, metricId).Some?
    ensures var r := ScoreChange(prev, metricId, pillarId, value);
      && |r| == |prev|
      && (forall i :: 0 <= i < |prev| ==>
            r[i].metricId == prev[i].metricId && r[i].pillarId == prev[i].pillarId
            && r[i].notes == prev[i].notes
            && r[i].score == if prev[i].metricId == metricId then value else prev[i].score)
  {
  }

  /** A score change on a metric without an entry appends one entry with empty notes. */
  lemma ScoreChangeAbsent(prev: seq<SliderScore>, metricId: string, pillarId: string, value: real)
    requires FindScore(prev, metricId).None?
    ensures ScoreChange(prev, metricId, pillarId, value) == prev + [SliderScore(metricId, pillarId, value, "")]
  {
  }

  /** A notes change on a metric with an entry rewrites only the notes of that metric's entries. */
  lemma NoteChangeExisting(prev: seq<SliderScore>, metricId: string, pillarId: string, notes: string)
    requires FindScore(prev, metricId).Some?
    ensures var r := NoteChange(prev, metricId, pillarId, notes);
      && |r| == |prev|
      && (forall i :: 0 <= i < |prev| ==>
            r[i].metricId == prev[i].metricId && r[i].pillarId == prev[i].pillarId
            && r[i].score == prev[i].score
            && r[i].notes == if prev[i].metricId == metricId then notes else prev[i].notes)
  {
  }

  /** A notes change on a metric without an entry appends one entry with score 3. */
  lemma NoteChangeAbsent(prev: seq<SliderScore>, metricId: string, pillarId: string, notes: string)
    requires FindScore(prev, metricId).None?
    ensures NoteChange(prev, metricId, pillarId, notes) == prev + [SliderScore(metricId, pillarId, 3.0, notes)]
  {
  }

  /** Setting a score and then notes on the same metric leaves both on every entry of that metric, whichever branch each update took. */
  lemma ScoreThenNotes(prev: seq<SliderScore>, metricId: string, pillarId: string, value: real, notes: string)
    ensures var r := NoteChange(ScoreChange(prev, metricId, pillarId, value), metricId, pillarId, notes);
      && FindScore(r, metricId).Some?
      && (forall i :: 0 <= i < |r| && r[i].metricId == metricId ==> r[i].score == value && r[i].notes == notes)
  {
    var mid := ScoreChange(prev, metricId, pillarId, value);
    var j: nat;
    if FindScore(prev, metricId).Some? {
      ScoreChangeExisting(prev, metricId, pillarId, value);
      j :| 0 <= j < |prev| && prev[j] == FindScore(prev, metricId).value;
    } else {
      ScoreChangeAbsent(prev, metricId, pillarId, value);
      j := |prev|;
      assert mid[j] == SliderScore(metricId, pillarId, value, "");
    }
    assert forall i :: 0 <= i < |mid| && mid[i].metricId == metricId ==> mid[i].score == value;
    assert mid[j].metricId == metricId && mid[j] in mid;
    NoteChangeExisting(mid, metricId, pillarId, notes);
    var r := NoteChange(mid, metricId, pillarId, notes);
    assert r[j] in r && r[j].metricId == metricId;
    forall i | 0 <= i < |r| && r[i].metricId == metricId
      ensures r[i].score == value && r[i].notes == notes
    {
      assert r[i].metricId == mid[i].metricId && r[i].score == mid[i].score;
    }
  }

  /** One pillar's contribution to `selectedMetrics`: its metrics whose id is selected, in order. */
  function SelectedOfPillar(p: Pillar, ids: set<string>, k: nat): (r: seq<Entry>)
    requires k <= |p.metrics|
    ensures forall e :: e in r ==> e.pillar == p && e.metric in p.metrics && e.metric.id in ids
    decreases |p.metrics| - k
  {
    if k == |p.metrics| then []
    else if p.metrics[k].id in ids then [Entry(p, p.metrics[k])] + SelectedOfPillar(p, ids, k + 1)
    else SelectedOfPillar(p, ids, k + 1)
  }

  /** `selectedMetrics`: per pillar, the metrics whose id has a selected entry. */
  function SelectedMetrics(pillars: seq<Pillar>, selections: seq<Selection>): (r: seq<Entry>)
    ensures forall e :: e in r ==> e.pillar in pillars && e.metric in e.pillar.metrics && e.metric.id in SelectedIds(selections)
  {
    if |pillars| == 0 then []
    else SelectedOfPillar(pillars[0], SelectedIds(selections), 0) + SelectedMetrics(pillars[1..], selections)
  }

  /** Keeps the entries whose metric id is in `ids`, in order. */
  function FilterEntries(entries: seq<Entry>, ids: set<string>): (r: seq<Entry>)
    ensures forall e :: e in r <==> e in entries && e.metric.id in ids
  {
    if |entries| == 0 then []
    else if entries[0].metric.id in ids then [entries[0]] + FilterEntries(entries[1..], ids)
    else FilterEntries(entries[1..], ids)
  }

  lemma {:induction false} FilterAppend(a: seq<Entry>, b: seq<Entry>, ids: set<string>)
    ensures FilterEntries(a + b, ids) == FilterEntries(a, ids) + FilterEntries(b, ids)
  {
    if |a| > 0 {
      assert (a + b)[1..] == a[1..] + b;
      FilterAppend(a[1..], b, ids);
    } else {
      assert a + b == b;
    }
  }

  lemma {:induction false} SelectedOfPillarIsFilter(p: Pillar, ids: set<string>, k: nat)
    requires k <= |p.metrics|
    ensures SelectedOfPillar(p, ids, k) == FilterEntries(PillarEntries(p)[k..], ids)
    decreases |p.metrics| - k
  {
    if k < |p.metrics| {
      SelectedOfPillarIsFilter(p, ids, k + 1);
      assert PillarEntries(p)[k..][1..] == PillarEntries(p)[k + 1..];
    }
  }

  /** The page lists exactly the catalog metrics whose id has a selected entry, in catalog (pillar-major) order. */
  lemma {:induction false} SelectedMetricsInCatalogOrder(pillars: seq<Pillar>, selections: seq<Selection>)
    ensures SelectedMetrics(pillars, selections) == FilterEntries(Entries(pillars), SelectedIds(selections))
  {
    if |pillars| > 0 {
      var ids := SelectedIds(selections);
      SelectedMetricsInCatalogOrder(pillars[1..], selections);
      SelectedOfPillarIsFilter(pillars[0], ids, 0);
      assert PillarEntries(pillars[0])[0..] == PillarEntries(pillars[0]);
      FilterAppend(PillarEntries(pillars[0]), Entries(pillars[1..]), ids);
    }
  }

  /** The results button is enabled only when at least one metric is listed. */
  predicate CanContinue(pillars: seq<Pillar>, selections: seq<Selection>)
  {
    |SelectedMetrics(pillars, selections)| > 0
  }

  /** Continuing is possible exactly when some catalog metric has a selected entry. */
  lemma CanContinueIff(pillars: seq<Pillar>, selections: seq<Selection>)
    ensures CanContinue(pillars, selections) <==>
      exists i, k :: 0 <= i < |pillars| && 0 <= k < |pillars[i].metrics|
        && pillars[i].metrics[k].id in SelectedIds(selections)
  {
    var ids := SelectedIds(selections);
    SelectedMetricsInCatalogOrder(pillars, selections);
    EntriesMembers(pillars);
    var r := SelectedMetrics(pillars, selections);
    if |r| > 0 {
      assert r[0] in r;
      var p, m := r[0].pillar, r[0].metric;
      var i :| 0 <= i < |pillars| && pillars[i] == p;
      var k :| 0 <= k < |p.metrics| && p.metrics[k] == m;
      assert pillars[i].metrics[k].id in ids;
    }
    if exists i, k :: 0 <= i < |pillars| && 0 <= k < |pillars[i].metrics| && pillars[i].metrics[k].id in ids {
      var i, k :| 0 <= i < |pillars| && 0 <= k < |pillars[i].metrics| && pillars[i].metrics[k].id in ids;
      assert Entry(pillars[i], pillars[i].metrics[k]) in r;
    }
  }

  /** The page's local selections and scores, and the assessment store they are saved to on continue. */
  class SliderPage {
    var localSelections: seq<Selection>
    var scores: seq<SliderScore>
    var storedSelections: seq<Selection>
    var storedScores: seq<SliderScore>

    /** The page starts from the store's selections and scores. */
    constructor (selections: seq<Selection>, initialScores: seq<SliderScore>)
      ensures localSelections == storedSelections == selections
      ensures scores == storedScores == initialScores
    {
      localSelections, storedSelections := selections, selections;
      scores, storedScores := initialScores, initialScores;
    }

    method HandleToggle(metricId: string)
      modifies this
      ensures localSelections == Toggle(old(localSelections), metricId)
      ensures scores == old(scores)
      ensures storedSelections == old(storedSelections) && storedScores == old(storedScores)
    {
      localSelections := Toggle(localSelections, metricId);
    }

    method HandleScoreChange(metricId: string, pillarId: string, value: real)
      modifies this
      ensures scores == ScoreChange(old(scores), metricId, pillarId, value)
      ensures localSelections == old(localSelections)
      ensures storedSelections == old(storedSelections) && storedScores == old(storedScores)
    {
      scores := ScoreChange(scores, metricId, pillarId, value);
    }

    method HandleNoteChange(metricId: string, pillarId: string, notes: string)
      modifies this
      ensures scores == NoteChange(old(scores), metricId, pillarId, notes)
      ensures localSelections == old(localSelections)
      ensures storedSelections == old(storedSelections) && storedScores == old(storedScores)
    {
      scores := NoteChange(scores, metricId, pillarId, notes);
    }

    /** `handleContinue`: save the local selections and scores, then show the results. */
    method HandleContinue() returns (target: Route)
      modifies this
      ensures storedSelections == old(localSelections) && storedScores == old(scores)
      ensures localSelections == old(localSelections) && scores == old(scores)
      ensures target == ResultsRoute
    {
      storedSelections := localSelections;
      storedScores := scores;
      target := ResultsRoute;
    }
  }
}
