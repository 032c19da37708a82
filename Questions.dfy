/**
 * The older guided-questions page. It derives selections from the answers
 * exactly as the qualification page does (module Qualify) and, on
 * "Continue", stores the edited company profile together with them.
 */
module GuidedQuestions {
  import opened Catalog
  import opened Qualify

  /** The company profile the page edits. */
  datatype AssessmentProfile = AssessmentProfile(companyName: string, industry: string, size: string, notes: string)

  datatype ProfileField = CompanyNameField | IndustryField | SizeField | NotesField

  /** One `updateProfile` updater: replace a single field. */
  function EditProfile(p: AssessmentProfile, field: ProfileField, value: string): (r: AssessmentProfile)
    ensures field == CompanyNameField ==> r == p.(companyName := value)
    ensures field == IndustryField ==> r == p.(industry := value)
    ensures field == SizeField ==> r == p.(size := value)
    ensures field == NotesField ==> r == p.(notes := value)
  {
    match field
    case CompanyNameField => p.(companyName := value)
    case IndustryField => p.(industry := value)
    case SizeField => p.(size := value)
    case NotesField => p.(notes := value)
  }

  /** The page's answers and draft profile, and the assessment store's profile and selections. */
  class QuestionsPage {
    var answers: map<string, string>
    var profile: AssessmentProfile
    var storedProfile: AssessmentProfile
    var storedSelections: seq<Selection>

    /** The draft profile starts as the stored one; no question is answered. */
    constructor (stored: AssessmentProfile, selections: seq<Selection>)
      ensures answers == map[] && profile == storedProfile == stored
      ensures storedSelections == selections
    {
      answers := map[];
      profile, storedProfile := stored, stored;
      storedSelections := selections;
    }

    method Choose(questionId: string, value: string)
      modifies this
      ensures answers == old(answers)[questionId := value]
      ensures profile == old(profile)
      ensures storedProfile == old(storedProfile) && storedSelections == old(storedSelections)
    {
      answers := answers[questionId := value];
    }

    method UpdateProfile(field: ProfileField, value: string)
      modifies this
      ensures profile == EditProfile(old(profile), field, value)
      ensures answers == old(answers)
      ensures storedProfile == old(storedProfile) && storedSelections == old(storedSelections)
    {
      profile := EditProfile(profile, field, value);
    }

    /** `handleNext`: store the draft profile and the derived selections (not the answers), then go to the assessment. */
    method HandleNext(pillars: seq<Pillar>, questions: seq<QualifyingQuestion>) returns (target: Route)
      modifies this
      ensures storedProfile == profile
      ensures storedSelections == DerivedSelections(pillars, questions, answers)
      ensures answers == old(answers) && profile == old(profile)
      ensures target == SliderAssessmentRoute
    {
      var recommendations := PillarRecommendations(questions, answers);
      storedProfile := profile;
      storedSelections := ExpandSelections(pillars, recommendations);
      target := SliderAssessmentRoute;
    }
  }
}
