/** The page on which a signed-in company fills in a new survey: the form,
    its checks, the preview it opens and the survey it hands to the store. */
module CreateSurvey {
  import opened Wrappers
  import opened SurveyTypes
  import opened Strings
  import opened Packages
  import opened SurveyQueries
  import opened SurveyContext

  /** The form's fields besides the questions. The expiry is the text of
      the date-time input; empty means none. */
  datatype FormData = FormData(
    title: string,
    description: string,
    rewardPerResponse: real,
    packageType: PackageType,
    isActive: bool,
    expiresAt: string)

  /** One input's change, as each `onChange` spreads a single field. */
  datatype FormField =
    | TitleField(title: string)
    | DescriptionField(description: string)
    | RewardField(reward: real)
    | PackageField(packageType: PackageType)
    | ActiveField(isActive: bool)
    | ExpiryField(expiresAt: string)

  function Changed(f: FormData, c: FormField): (r: FormData)
    ensures c.TitleField? ==> r == f.(title := c.title)
    ensures c.DescriptionField? ==> r == f.(description := c.description)
    ensures c.RewardField? ==> r == f.(rewardPerResponse := c.reward)
    ensures c.PackageField? ==> r == f.(packageType := c.packageType)
    ensures c.ActiveField? ==> r == f.(isActive := c.isActive)
    ensures c.ExpiryField? ==> r == f.(expiresAt := c.expiresAt)
  {
    match c
    case TitleField(t) => f.(title := t)
    case DescriptionField(d) => f.(description := d)
    case RewardField(x) => f.(rewardPerResponse := x)
    case PackageField(p) => f.(packageType := p)
    case ActiveField(a) => f.(isActive := a)
    case ExpiryField(e) => f.(expiresAt := e)
  }

  /** The form a page opens with: the package the pricing page passed
      along, else the first catalogue package (basic); a reward of 2,
      inactive, no expiry. */
  function InitialForm(fromPricing: Option<PackageType>): (f: FormData)
    ensures f.title == "" && f.description == "" && f.expiresAt == ""
    ensures f.rewardPerResponse == 2.0 && !f.isActive
    ensures fromPricing.Some? ==> f.packageType == fromPricing.value
    ensures fromPricing.None? ==> PackageTypeId(f.packageType) == PAYMENT_PACKAGES[0].id
  {
    FormData("", "", 2.0, fromPricing.GetOr(Basic), false, "")
  }

  /** Why a submission or a preview is refused. */
  datatype FormError = MissingTitle | NoQuestions | BlankQuestion

  /** Some question's text is blank after trimming. */
  predicate SomeQuestionBlank(qs: seq<Question>) {
    exists i :: 0 <= i < |qs| && IsBlank(qs[i].text)
  }

  /** `handleSubmit`'s three checks, in order: title, at least one
      question, no blank question text. The update page makes the same
      three checks. */
  function ValidateSubmit(title: string, qs: seq<Question>): (r: Option<FormError>)
    ensures r == Some(MissingTitle) <==> IsBlank(title)
    ensures r == Some(NoQuestions) <==> !IsBlank(title) && qs == []
    ensures r == Some(BlankQuestion) <==> !IsBlank(title) && qs != [] && SomeQuestionBlank(qs)
    ensures r.None? <==>
      !IsBlank(title) && qs != [] && forall i :: 0 <= i < |qs| ==> !IsBlank(qs[i].text)
  {
    if IsBlank(title) then Some(MissingTitle)
    else if |qs| == 0 then Some(NoQuestions)
    else if SomeQuestionBlank(qs) then Some(BlankQuestion)
    else None
  }

  /** `handlePreview` makes only the first two checks. */
  function ValidatePreview(title: string, qs: seq<Question>): (r: Option<FormError>)
    ensures r == Some(MissingTitle) <==> IsBlank(title)
    ensures r == Some(NoQuestions) <==> !IsBlank(title) && qs == []
    ensures r != Some(BlankQuestion)
  {
    if IsBlank(title) then Some(MissingTitle)
    else if |qs| == 0 then Some(NoQuestions)
    else None
  }

  /** Whatever can be submitted can be previewed; the converse fails
      exactly on a blank question text. */
  lemma PreviewIsWeaker(title: string, qs: seq<Question>)
    ensures ValidateSubmit(title, qs).None? ==> ValidatePreview(title, qs).None?
    ensures ValidatePreview(title, qs).None? && ValidateSubmit(title, qs).Some? ==>
      ValidateSubmit(title, qs) == Some(BlankQuestion)
  {
  }

  /** The survey handed to `addSurvey`: the signed-in company as owner,
      the bound of the chosen package, and no expiry for an empty input. */
  function SubmittedDraft(f: FormData, qs: seq<Question>, company: Company): (d: SurveyDraft)
    ensures d.companyId == company.id && d.companyName == company.name
    ensures d.title == f.title && d.description == f.description && d.questions == qs
    ensures d.isActive == f.isActive && d.packageType == f.packageType
    ensures d.rewardPerResponse == f.rewardPerResponse
    ensures d.maxQuestions == MaxQuestionsFor(f.packageType)
    ensures d.expiresAt == if f.expiresAt == "" then None else Some(f.expiresAt)
  {
    SurveyDraft(f.title, f.description, company.id, company.name, qs,
      if f.expiresAt == "" then None else Some(f.expiresAt),
      f.isActive, f.packageType, SelectedPackage(f.packageType).maxQuestions, f.rewardPerResponse)
  }

  /** The survey the preview shows: identifier "preview", no responses. */
  function PreviewSurvey(f: FormData, qs: seq<Question>, company: Company, now: string): (s: Survey)
    ensures s == NewSurvey(SubmittedDraft(f, qs, company), "preview", now)
    ensures s.responses == [] && s.questions == qs
  {
    Survey("preview", f.title, f.description, company.id, company.name, qs, [], now,
      if f.expiresAt == "" then None else Some(f.expiresAt),
      f.isActive, f.packageType, SelectedPackage(f.packageType).maxQuestions, f.rewardPerResponse)
  }

  /** Nothing on submission compares the questions with the bound: after
      the builder filled the larger package's quota, switching the select
      to a smaller package still submits, and the stored survey then has
      more questions than its own `maxQuestions`. */
  lemma SubmitIgnoresBound(f: FormData, qs: seq<Question>, company: Company)
    requires !IsBlank(f.title)
    requires forall i :: 0 <= i < |qs| ==> !IsBlank(qs[i].text)
    requires |qs| > MaxQuestionsFor(f.packageType)
    ensures ValidateSubmit(f.title, qs).None?
    ensures |SubmittedDraft(f, qs, company).questions| > SubmittedDraft(f, qs, company).maxQuestions
  {
  }

  /** The page's state: the form, the questions the builder reports, and
      whether the preview is open. */
  class CreateSurveyForm {
    var form: FormData
    var questions: seq<Question>
    var showPreview: bool

    constructor (fromPricing: Option<PackageType>)
      ensures form == InitialForm(fromPricing) && questions == [] && !showPreview
    {
      form := InitialForm(fromPricing);
      questions := [];
      showPreview := false;
    }

    /** The bound the page hands to the builder: that of the selected package. */
    function BuilderBound(): (n: nat)
      reads this
      ensures n == MaxQuestionsFor(form.packageType)
      ensures n in {10, 30, 100}
    {
      SelectedPackage(form.packageType).maxQuestions
    }

    method Change(c: FormField)
      modifies this
      ensures form == Changed(old(form), c)
      ensures questions == old(questions) && showPreview == old(showPreview)
    {
      form := Changed(form, c);
    }

    /** `onQuestionsChange` from the builder. */
    method SetQuestions(qs: seq<Question>)
      modifies this
      ensures questions == qs && form == old(form) && showPreview == old(showPreview)
    {
      questions := qs;
    }

    /** `handlePreview`: opens the preview unless a check fails. */
    method Preview() returns (err: Option<FormError>)
      modifies this
      ensures err == ValidatePreview(form.title, questions)
      ensures showPreview == (old(showPreview) || err.None?)
      ensures form == old(form) && questions == old(questions)
      ensures showPreview && !old(showPreview) ==> questions != []
    {
      err := ValidatePreview(form.title, questions);
      if err.None? {
        showPreview := true;
      }
    }

    /** `onClose` of the preview. */
    method ClosePreview()
      modifies this
      ensures !showPreview && form == old(form) && questions == old(questions)
    {
      showPreview := false;
    }

    /** `handleSubmit`: a failed check leaves the store alone; otherwise the
        survey is added for the signed-in company and its id returned. */
    method Submit(store: SurveyStore, freshId: string, now: string) returns (r: Result<string, FormError>)
      requires store.currentCompany.Some?
      requires freshId !in SurveyIds(store.surveys)
      modifies store
      ensures ValidateSubmit(form.title, questions).Some? ==>
        r == Failure(ValidateSubmit(form.title, questions).value)
        && store.surveys == old(store.surveys) && store.companies == old(store.companies)
      ensures ValidateSubmit(form.title, questions).None? ==>
        var d := SubmittedDraft(form, questions, old(store.currentCompany).value);
        r == Success(freshId)
        && store.surveys == old(store.surveys) + [NewSurvey(d, freshId, now)]
        && store.companies == AttachSurvey(old(store.companies), d.companyId, freshId)
      ensures store.currentCompany == old(store.currentCompany)
      ensures old(store.Valid()) ==> store.Valid()
    {
      var err := ValidateSubmit(form.title, questions);
      if err.Some? {
        return Failure(err.value);
      }
      var d := SubmittedDraft(form, questions, store.currentCompany.value);
      var id := store.AddSurvey(d, freshId, now);
      r := Success(id);
    }
  }
}
