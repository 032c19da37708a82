/**
 * The module picker: one checkbox per pillar, checked when all of the
 * pillar's metrics are selected; ticking it sets every entry of the pillar;
 * "Continue" saves the selections and opens the first selected metric.
 */
module ModulePicker {
  import opened Wrappers
  import opened Catalog
  import ResponseStore

  /** `pillar.metrics.filter((metric) => selectedMetricIds.has(metric.id)).length`. */
  function SelectedCount(metrics: seq<Metric>, ids: set<string>): (n: nat)
    ensures n <= |metrics|
  {
    if |metrics| == 0 then 0
    else (if metrics[0].id in ids then 1 else 0) + SelectedCount(metrics[1..], ids)
  }

  /** The checkbox state of a pillar: the selected count equals the metric count. */
  predicate PillarChecked(p: Pillar, selections: seq<Selection>)
  {
    SelectedCount(p.metrics, SelectedIds(selections)) == |p.metrics|
  }

  lemma {:induction false} SelectedCountFull(metrics: seq<Metric>, ids: set<string>)
    ensures SelectedCount(metrics, ids) == |metrics| <==> forall k :: 0 <= k < |metrics| ==> metrics[k].id in ids
  {
    if |metrics| > 0 {
      SelectedCountFull(metrics[1..], ids);
      assert forall k :: 1 <= k < |metrics| ==> metrics[1..][k - 1] == metrics[k];
    }
  }

  /** A pillar is checked exactly when every one of its metrics has a selected entry; a pillar without metrics is checked. */
  lemma CheckedIff(p: Pillar, selections: seq<Selection>)
    ensures PillarChecked(p, selections) <==> forall m :: m in p.metrics ==> m.id in SelectedIds(selections)
    ensures |p.metrics| == 0 ==> PillarChecked(p, selections)
  {
    SelectedCountFull(p.metrics, SelectedIds(selections));
  }

  /** `handlePillarToggle`'s updater: set `selected` on every entry of the pillar. */
  function PillarToggle(selections: seq<Selection>, pillarId: string, selected: bool): (r: seq<Selection>)
    ensures |r| == |selections|
  {
    seq(|selections|, i requires 0 <= i < |selections| =>
      if selections[i].pillarId == pillarId then selections[i].(selected := selected) else selections[i])
  }

  /** Toggling a pillar rewrites the flag of that pillar's entries only, keeping ids and order, and doing it twice is doing it once. */
  lemma PillarToggleSpec(selections: seq<Selection>, pillarId: string, selected: bool)
    ensures var r := PillarToggle(selections, pillarId, selected);
      && (forall i :: 0 <= i < |r| ==>
            r[i].metricId == selections[i].metricId && r[i].pillarId == selections[i].pillarId
            && r[i].selected == if selections[i].pillarId == pillarId then selected else selections[i].selected)
      && PillarToggle(r, pillarId, selected) == r
  {
  }

  /** Whether every metric of the pillar has an entry under that pillar. */
  predicate Covers(selections: seq<Selection>, p: Pillar)
  {
    forall m :: m in p.metrics ==> exists s :: s in selections && s.metricId == m.id && s.pillarId == p.id
  }

  /** Ticking a pillar whose metrics all have entries makes it checked. */
  lemma CheckedAfterTick(selections: seq<Selection>, p: Pillar)
    requires Covers(selections, p)
    ensures PillarChecked(p, PillarToggle(selections, p.id, true))
  {
    var r := PillarToggle(selections, p.id, true);
    forall m | m in p.metrics ensures m.id in SelectedIds(r) {
      var s :| s in selections && s.metricId == m.id && s.pillarId == p.id;
      var i :| 0 <= i < |selections| && selections[i] == s;
      assert r[i] in r && r[i].selected && r[i].metricId == m.id;
    }
    CheckedIff(p, r);
  }

  /** `benchmark.pillars.find(...)`: the first catalog pillar with a selected entry. */
  function FirstSelected(pillars: seq<Pillar>, selections: seq<Selection>): (r: Option<Pillar>)
    ensures r.None? <==> forall p :: p in pillars ==> !HasSelectedEntry(selections, p.id)
    ensures r.Some? ==> r.value in pillars && HasSelectedEntry(selections, r.value.id)
  {
    if |pillars| == 0 then None
    else if HasSelectedEntry(selections, pillars[0].id) then Some(pillars[0])
    else FirstSelected(pillars[1..], selections)
  }

  /** Where "Continue" goes: the first metric of the first selected pillar, else `none/none`; a first selected pillar without metrics gives `none/none` even when a later selected pillar has some. */
  function ContinueRoute(pillars: seq<Pillar>, selections: seq<Selection>): (r: Route)
    ensures (forall p :: p in pillars ==> !HasSelectedEntry(selections, p.id)) ==> r == AssessmentRoute("none", "none")
    ensures FirstSelected(pillars, selections).Some? && |FirstSelected(pillars, selections).value.metrics| == 0 ==>
      r == AssessmentRoute("none", "none")
    ensures r != AssessmentRoute("none", "none") ==>
      exists p :: p in pillars && HasSelectedEntry(selections, p.id) && |p.metrics| > 0 && r == AssessmentRoute(p.id, p.metrics[0].id)
  {
    var first := FirstSelected(pillars, selections);
    if first.Some? && |first.value.metrics| > 0 then
      AssessmentRoute(first.value.id, first.value.metrics[0].id)
    else AssessmentRoute("none", "none")
  }

  lemma {:induction false} FirstSelectedHeadsList(pillars: seq<Pillar>, selections: seq<Selection>)
    requires FirstSelected(pillars, selections).Some?
    ensures |ResponseStore.SelectedPillars(pillars, selections)| > 0
    ensures ResponseStore.SelectedPillars(pillars, selections)[0] == FirstSelected(pillars, selections).value
  {
    if !HasSelectedEntry(selections, pillars[0].id) {
      FirstSelectedHeadsList(pillars[1..], selections);
    }
  }

  /** When the first selected pillar has metrics, "Continue" opens exactly the first metric the assessment page lists. */
  lemma ContinueOpensFirstListed(pillars: seq<Pillar>, selections: seq<Selection>)
    requires FirstSelected(pillars, selections).Some?
    requires |FirstSelected(pillars, selections).value.metrics| > 0
    ensures var es := ResponseStore.SelectedEntries(pillars, selections);
      && |es| > 0
      && ContinueRoute(pillars, selections) == AssessmentRoute(es[0].pillar.id, es[0].metric.id)
  {
    FirstSelectedHeadsList(pillars, selections);
    var sp := ResponseStore.SelectedPillars(pillars, selections);
    assert Entries(sp) == PillarEntries(sp[0]) + Entries(sp[1..]);
  }

  /** The picker's local selections and the assessment store's. */
  class ModulesPage {
    var localSelections: seq<Selection>
    var storedSelections: seq<Selection>

    constructor (selections: seq<Selection>)
      ensures localSelections == storedSelections == selections
    {
      localSelections, storedSelections := selections, selections;
    }

    method HandlePillarToggle(pillarId: string, selected: bool)
      modifies this
      ensures localSelections == PillarToggle(old(localSelections), pillarId, selected)
      ensures storedSelections == old(storedSelections)
    {
      localSelections := PillarToggle(localSelections, pillarId, selected);
    }

    /** `handleContinue`: save, send the selections when invited, and open the first selected metric. */
    method HandleContinue(pillars: seq<Pillar>, invited: bool) returns (patch: Option<seq<Selection>>, target: Route)
      modifies this
      ensures storedSelections == localSelections == old(localSelections)
      ensures patch == if invited then Some(localSelections) else None
      ensures target == ContinueRoute(pillars, localSelections)
    {
      storedSelections := localSelections;
      patch := if invited then Some(localSelections) else None;
      var firstSelected := FirstSelected(pillars, localSelections);
      if firstSelected.Some? && |firstSelected.value.metrics| > 0 {
        var firstMetric := firstSelected.value.metrics[0];
        target := AssessmentRoute(firstSelected.value.id, firstMetric.id);
        return;
      }
      target := AssessmentRoute("none", "none");
    }
  }
}
