/** The page on which a signed-in company changes an existing survey: the
    form loaded from the survey, the same checks as on creation, and the
    update it hands to the store. */
module EditSurvey {
  import opened Wrappers
  import opened SurveyTypes
  import opened Strings
  import opened Packages
  import opened SurveyQueries
  import opened SurveyContext
  import opened CreateSurvey

  /** The state before the survey is loaded. */
  const BlankForm: FormData := FormData("", "", 2.0, Basic, false, "")

  /** The form filled from a survey. `expiryInput` is the stored expiry as
      the date-time input shows it (its formatting depends on the time
      zone); a survey without expiry shows an empty input. */
  function LoadedForm(s: Survey, expiryInput: string): (f: FormData)
    ensures f.title == s.title && f.description == s.description
    ensures f.rewardPerResponse == s.rewardPerResponse && f.packageType == s.packageType
    ensures f.isActive == s.isActive
    ensures f.expiresAt == if s.expiresAt.Some? && s.expiresAt.value != "" then expiryInput else ""
  {
    FormData(s.title, s.description, s.rewardPerResponse, s.packageType, s.isActive,
      if s.expiresAt.Some? && s.expiresAt.value != "" then expiryInput else "")
  }

  /** The update object: the form's fields, the questions, the bound of
      the chosen package and the expiry, which is carried as `undefined`
      when the input is empty. */
  function EditPatch(f: FormData, qs: seq<Question>): (p: SurveyPatch)
    ensures p.id.None? && p.companyId.None? && p.companyName.None?
    ensures p.responses.None? && p.createdAt.None?
    ensures p.expiresAt == Some(if f.expiresAt == "" then None else Some(f.expiresAt))
    ensures p.maxQuestions == Some(MaxQuestionsFor(f.packageType))
  {
    SurveyPatch(None, Some(f.title), Some(f.description), None, None, Some(qs), None, None,
      Some(if f.expiresAt == "" then None else Some(f.expiresAt)),
      Some(f.isActive), Some(f.packageType), Some(SelectedPackage(f.packageType).maxQuestions),
      Some(f.rewardPerResponse))
  }

  /** Saving keeps the survey's identity, owner, responses and creation
      time, takes every edited field from the form, and clears the expiry
      when the input was emptied. */
  lemma EditKeepsIdentity(s: Survey, f: FormData, qs: seq<Question>)
    ensures var t := Merge(s, EditPatch(f, qs));
      t.id == s.id && t.companyId == s.companyId && t.companyName == s.companyName
      && t.responses == s.responses && t.createdAt == s.createdAt
      && t.title == f.title && t.description == f.description && t.questions == qs
      && t.isActive == f.isActive && t.packageType == f.packageType
      && t.rewardPerResponse == f.rewardPerResponse && t.maxQuestions == MaxQuestionsFor(f.packageType)
    ensures f.expiresAt == "" ==> Merge(s, EditPatch(f, qs)).expiresAt == None
    ensures f.expiresAt != "" ==> Merge(s, EditPatch(f, qs)).expiresAt == Some(f.expiresAt)
  {
  }

  /** Loading a survey and saving it unchanged gives it back, up to the
      bound, which is reset to the package's, and the expiry text. */
  lemma SaveUnchangedRoundTrip(s: Survey)
    requires s.expiresAt.None? && s.maxQuestions == MaxQuestionsFor(s.packageType)
    ensures Merge(s, EditPatch(LoadedForm(s, ""), s.questions)) == s
  {
  }

  /** What the page shows: nobody signed in is sent to login, an unknown
      identifier gets the not-found view, and only then the form. */
  datatype EditView = LoginRedirect | SurveyNotFound | EditFormShown

  function ViewOf(current: Option<Company>, ss: seq<Survey>, surveyId: string): (v: EditView)
    ensures v == LoginRedirect <==> current.None?
    ensures v == SurveyNotFound <==> current.Some? && surveyId !in SurveyIds(ss)
    ensures v == EditFormShown <==> current.Some? && surveyId in SurveyIds(ss)
  {
    if current.None? then LoginRedirect
    else if FindSurvey(ss, surveyId).None? then SurveyNotFound
    else EditFormShown
  }

  /** The page's state for the survey with identifier `surveyId`. */
  class EditSurveyForm {
    const surveyId: string
    var form: FormData
    var questions: seq<Question>

    constructor (surveyId: string)
      ensures this.surveyId == surveyId && form == BlankForm && questions == []
    {
      this.surveyId := surveyId;
      form := BlankForm;
      questions := [];
    }

    /** The effect run when the looked-up survey is there. */
    method Load(s: Survey, expiryInput: string)
      modifies this
      ensures form == LoadedForm(s, expiryInput) && questions == s.questions
    {
      form := LoadedForm(s, expiryInput);
      questions := s.questions;
    }

    method Change(c: FormField)
      modifies this
      ensures form == Changed(old(form), c) && questions == old(questions)
    {
      form := Changed(form, c);
    }

    method SetQuestions(qs: seq<Question>)
      modifies this
      ensures questions == qs && form == old(form)
    {
      questions := qs;
    }

    /** `handleSubmit`: a failed check leaves the store alone; otherwise the
        survey is updated in place. The page only shows the form (`ViewOf`)
        for a known survey and a signed-in company; for an unknown id the
        update would change nothing. Ownership is not checked. */
    method Submit(store: SurveyStore) returns (err: Option<FormError>)
      modifies store
      ensures err == ValidateSubmit(form.title, questions)
      ensures err.Some? ==> store.surveys == old(store.surveys)
      ensures err.None? ==> store.surveys == UpdatedSurveys(old(store.surveys), surveyId, EditPatch(form, questions))
      ensures store.companies == old(store.companies) && store.currentCompany == old(store.currentCompany)
      ensures old(store.Valid()) ==> store.Valid()
    {
      err := ValidateSubmit(form.title, questions);
      if err.Some? {
        return;
      }
      var p := EditPatch(form, questions);
      assert p.id.None?;
      store.UpdateSurvey(surveyId, p);
    }
  }
}
