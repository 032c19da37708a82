/**
 * The qualification page: each answered question recommends some pillars
 * through its chosen option, and "Continue" turns the union of those
 * recommendations into one selection flag per catalog metric.
 */
module Qualify {
  import opened Wrappers
  import opened Catalog

  datatype QuestionOption = QuestionOption(value: string, caption: string, recommendedPillars: seq<string>)

  datatype QualifyingQuestion = QualifyingQuestion(id: string, prompt: string, options: seq<QuestionOption>)

  /** `answers[question.id]`: the chosen option value, absent when unanswered. */
  function Answer(answers: map<string, string>, questionId: string): Option<string>
  {
    if questionId in answers then Some(answers[questionId]) else None
  }

  /** `question.options.find((item) => item.value === selected)`. */
  function FindOption(options: seq<QuestionOption>, selected: Option<string>): (r: Option<QuestionOption>)
    ensures r.None? <==> forall o :: o in options ==> selected != Some(o.value)
    ensures r.Some? ==> r.value in options && selected == Some(r.value.value)
  {
    if |options| == 0 then None
    else if selected == Some(options[0].value) then Some(options[0])
    else FindOption(options[1..], selected)
  }

  /** The option a question's answer picks, if any. */
  function Chosen(q: QualifyingQuestion, answers: map<string, string>): Option<QuestionOption>
  {
    FindOption(q.options, Answer(answers, q.id))
  }

  /** The pillars one question contributes: those of its chosen option, or none. */
  function Contribution(q: QualifyingQuestion, answers: map<string, string>): set<string>
  {
    var o := Chosen(q, answers);
    if o.Some? then set k | 0 <= k < |o.value.recommendedPillars| :: o.value.recommendedPillars[k] else {}
  }

  /** The recommendations after the first `|questions|` questions have been visited. */
  function Recommended(questions: seq<QualifyingQuestion>, answers: map<string, string>): (r: set<string>)
    ensures |questions| == 0 ==> r == {}
    ensures forall i :: 0 <= i < |questions| ==> Contribution(questions[i], answers) <= r
  {
    if |questions| == 0 then {}
    else
      var init := questions[..|questions| - 1];
      assert forall i :: 0 <= i < |init| ==> questions[i] == init[i];
      Recommended(init, answers) + Contribution(questions[|questions| - 1], answers)
  }

  /** A pillar is recommended exactly when some question's chosen option lists it. */
  lemma {:induction false} RecommendedIff(questions: seq<QualifyingQuestion>, answers: map<string, string>, p: string)
    ensures p in Recommended(questions, answers) <==>
      exists i :: 0 <= i < |questions| && Chosen(questions[i], answers).Some?
        && p in Chosen(questions[i], answers).value.recommendedPillars
  {
    if |questions| > 0 {
      var n := |questions| - 1;
      var init := questions[..n];
      RecommendedIff(init, answers, p);
      assert forall i :: 0 <= i < n ==> init[i] == questions[i];
      var o := Chosen(questions[n], answers);
      if o.Some? && p in o.value.recommendedPillars {
        var k :| 0 <= k < |o.value.recommendedPillars| && o.value.recommendedPillars[k] == p;
        assert p in Contribution(questions[n], answers);
      }
    }
  }

  /** With no answers nothing is recommended. */
  lemma NoAnswersNoRecommendations(questions: seq<QualifyingQuestion>)
    ensures Recommended(questions, map[]) == {}
  {
    forall p ensures p !in Recommended(questions, map[]) {
      RecommendedIff(questions, map[], p);
    }
  }

  /** Answering a question that was unanswered never removes a recommendation. */
  lemma {:induction false} AnsweringOnlyAdds(
    questions: seq<QualifyingQuestion>, answers: map<string, string>, questionId: string, value: string)
    requires questionId !in answers
    ensures Recommended(questions, answers) <= Recommended(questions, answers[questionId := value])
  {
    if |questions| > 0 {
      var n := |questions| - 1;
      AnsweringOnlyAdds(questions[..n], answers, questionId, value);
      if questions[n].id != questionId {
        assert Answer(answers, questions[n].id) == Answer(answers[questionId := value], questions[n].id);
      }
    }
  }

  /** `pillarRecommendations`: a set filled by visiting each question and adding its chosen option's pillars. */
  method PillarRecommendations(questions: seq<QualifyingQuestion>, answers: map<string, string>)
    returns (recommendations: set<string>)
    ensures recommendations == Recommended(questions, answers)
  {
    recommendations := {};
    var i := 0;
    while i < |questions|
      invariant 0 <= i <= |questions|
      invariant recommendations == Recommended(questions[..i], answers)
    {
      var question := questions[i];
      var selected := if question.id in answers then Some(answers[question.id]) else None;
      var option := FindOption(question.options, selected);
      if option.Some? {
        var pillarIds := option.value.recommendedPillars;
        var j := 0;
        while j < |pillarIds|
          invariant 0 <= j <= |pillarIds|
          invariant recommendations == Recommended(questions[..i], answers) + set k | 0 <= k < j :: pillarIds[k]
        {
          recommendations := recommendations + {pillarIds[j]};
          j := j + 1;
        }
      }
      assert questions[..i + 1][..i] == questions[..i];
      i := i + 1;
    }
    assert questions[..|questions|] == questions;
  }

  /** One pillar's entries of the expansion: every metric, flagged by the pillar's recommendation. */
  function PillarSelections(p: Pillar, recommendations: set<string>): (r: seq<Selection>)
    ensures |r| == |p.metrics|
  {
    seq(|p.metrics|, k requires 0 <= k < |p.metrics| =>
      Selection(p.metrics[k].id, p.id, p.id in recommendations))
  }

  /** The `handleNext` expansion: one selection per catalog metric, pillar-major. */
  function ExpandSelections(pillars: seq<Pillar>, recommendations: set<string>): (r: seq<Selection>)
    ensures |r| == MetricCount(pillars)
    ensures forall s :: s in r ==> (s.selected <==> s.pillarId in recommendations)
  {
    if |pillars| == 0 then []
    else PillarSelections(pillars[0], recommendations) + ExpandSelections(pillars[1..], recommendations)
  }

  /** The expansion lines up with the catalog's metric list: one entry per metric, in order, selected exactly when its pillar is recommended. */
  lemma {:induction false} ExpandMatchesCatalog(pillars: seq<Pillar>, recommendations: set<string>)
    ensures var r := ExpandSelections(pillars, recommendations);
      var es := Entries(pillars);
      && |r| == |es|
      && forall i :: 0 <= i < |r| ==>
           r[i] == Selection(es[i].metric.id, es[i].pillar.id, es[i].pillar.id in recommendations)
  {
    if |pillars| > 0 {
      ExpandMatchesCatalog(pillars[1..], recommendations);
    }
  }

  /** Metrics of the same pillar always share one selection flag. */
  lemma SamePillarSameFlag(pillars: seq<Pillar>, recommendations: set<string>, i: nat, j: nat)
    requires i < |ExpandSelections(pillars, recommendations)| && j < |ExpandSelections(pillars, recommendations)|
    requires ExpandSelections(pillars, recommendations)[i].pillarId == ExpandSelections(pillars, recommendations)[j].pillarId
    ensures ExpandSelections(pillars, recommendations)[i].selected == ExpandSelections(pillars, recommendations)[j].selected
  {
    ExpandMatchesCatalog(pillars, recommendations);
  }

  /** The selections "Continue" derives from the answers. */
  function DerivedSelections(pillars: seq<Pillar>, questions: seq<QualifyingQuestion>, answers: map<string, string>): seq<Selection>
  {
    ExpandSelections(pillars, Recommended(questions, answers))
  }

  /** With no answers every derived selection is unselected. */
  lemma NoAnswersSelectsNothing(pillars: seq<Pillar>, questions: seq<QualifyingQuestion>)
    ensures forall s :: s in DerivedSelections(pillars, questions, map[]) ==> !s.selected
  {
    NoAnswersNoRecommendations(questions);
    ExpandMatchesCatalog(pillars, {});
  }

  /** The qualification page's answers and the assessment store's selections. */
  class QualifyPage {
    var answers: map<string, string>
    var storedSelections: seq<Selection>

    constructor (selections: seq<Selection>)
      ensures answers == map[] && storedSelections == selections
    {
      answers := map[];
      storedSelections := selections;
    }

    /** Choosing an option records its value under the question's id. */
    method Choose(questionId: string, value: string)
      modifies this
      ensures answers == old(answers)[questionId := value]
      ensures storedSelections == old(storedSelections)
    {
      answers := answers[questionId := value];
    }

    /** `handleNext`: store the expansion of the recommendations and go to the module picker. */
    method HandleNext(pillars: seq<Pillar>, questions: seq<QualifyingQuestion>) returns (target: Route)
      modifies this
      ensures storedSelections == DerivedSelections(pillars, questions, answers)
      ensures answers == old(answers)
      ensures target == ModulesRoute
    {
      var recommendations := PillarRecommendations(questions, answers);
      storedSelections := ExpandSelections(pillars, recommendations);
      target := ModulesRoute;
    }
  }
}
