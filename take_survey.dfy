/** The respondent's walk through one survey: the checks that decide what
    the page shows, the rule for leaving a question, and the submission
    that records a response in the store. */
module TakeSurvey {
  import opened Wrappers
  import opened SurveyTypes
  import opened Strings
  import opened Seqs
  import opened SurveyQueries
  import opened SurveyContext

  /** What the page shows for the survey it looked up. */
  datatype Entry = NotFound | Inactive | NoQuestions | Ready

  /** The three checks in the page's order: missing, then inactive, then
      without questions. */
  function EntryOf(found: Option<Survey>): (e: Entry)
    ensures e == NotFound <==> found.None?
    ensures e == Inactive <==> found.Some? && !found.value.isActive
    ensures e == NoQuestions <==> found.Some? && found.value.isActive && found.value.questions == []
    ensures e == Ready <==> found.Some? && found.value.isActive && found.value.questions != []
  {
    match found
    case None => NotFound
    case Some(s) =>
      if !s.isActive then Inactive
      else if |s.questions| == 0 then NoQuestions
      else Ready
  }

  /** The page for the route parameter `id`: a missing or empty parameter
      looks nothing up, otherwise `getSurvey(id)` decides. */
  function PageEntry(ss: seq<Survey>, id: Option<string>): (e: Entry)
    ensures e == NotFound <==> id.None? || id.value == "" || id.value !in SurveyIds(ss)
    ensures e == Ready <==>
      id.Some? && id.value != "" && FindSurvey(ss, id.value).Some?
      && FindSurvey(ss, id.value).value.isActive && FindSurvey(ss, id.value).value.questions != []
  {
    EntryOf(if id.Some? && id.value != "" then FindSurvey(ss, id.value) else None)
  }

  /** An inactive survey is reported as inactive even when it also has no
      questions: the activity check comes first. */
  lemma InactiveBeforeEmpty(s: Survey)
    requires !s.isActive && s.questions == []
    ensures EntryOf(Some(s)) == Inactive && EntryOf(Some(s)) != NoQuestions
  {
  }

  /** `!required || Boolean(answers[id])`: an optional question can always
      be left; a required one needs an entry that is not the empty string
      (an array, even an empty one, counts as an answer). */
  function CanProceed(q: Question, answers: map<string, Answer>): (b: bool)
    ensures b <==> !q.required || (q.id in answers && answers[q.id] != Single(""))
  {
    !q.required || IsTruthy(AnswerFor(answers, q.id))
  }

  /** How a press of the forward button ends. */
  datatype NextResult = Blocked | Advanced | MissingContact | SubmittedOk

  /** `handleNext` followed, on the last question, by `handleSubmit`. */
  function NextResultOf(q: Question, answers: map<string, Answer>, isLast: bool,
                        userName: string, userEmail: string): (r: NextResult)
    ensures r == Blocked <==> !CanProceed(q, answers)
    ensures r == Advanced <==> CanProceed(q, answers) && !isLast
    ensures r == MissingContact <==> CanProceed(q, answers) && isLast && (IsBlank(userName) || IsBlank(userEmail))
    ensures r == SubmittedOk <==> CanProceed(q, answers) && isLast && !IsBlank(userName) && !IsBlank(userEmail)
  {
    if !CanProceed(q, answers) then Blocked
    else if !isLast then Advanced
    else if IsBlank(userName) || IsBlank(userEmail) then MissingContact
    else SubmittedOk
  }

  /** Only a response with a non-blank name and email is ever submitted,
      and only from the last question: surrounding whitespace does not help. */
  lemma SubmitNeedsContact(q: Question, answers: map<string, Answer>, isLast: bool,
                           userName: string, userEmail: string)
    ensures NextResultOf(q, answers, isLast, userName, userEmail) == SubmittedOk ==>
      isLast && Trim(userName) != [] && Trim(userEmail) != []
    ensures AllWhitespace(userName) ==> NextResultOf(q, answers, isLast, userName, userEmail) != SubmittedOk
  {
  }

  /** The page state while a ready survey is being answered. The survey is
      the one looked up on entry; nothing on the page changes its questions. */
  class TakeSurveySession {
    const survey: Survey
    var answers: map<string, Answer>
    var index: int
    var submitted: bool
    var userName: string
    var userEmail: string

    /** The current question exists. */
    predicate Valid()
      reads this
    {
      0 <= index < |survey.questions|
    }

    constructor (survey: Survey)
      requires EntryOf(Some(survey)) == Ready
      ensures this.survey == survey
      ensures answers == map[] && index == 0 && !submitted && userName == "" && userEmail == ""
      ensures Valid()
    {
      this.survey := survey;
      answers := map[];
      index := 0;
      submitted := false;
      userName := "";
      userEmail := "";
    }

    function Current(): Question
      requires Valid()
      reads this
    {
      survey.questions[index]
    }

    predicate IsLast()
      reads this
    {
      index == |survey.questions| - 1
    }

    /** `handleAnswerChange`: the answer to that question is replaced. */
    method AnswerChange(questionId: string, value: Answer)
      modifies this
      ensures answers == old(answers)[questionId := value]
      ensures index == old(index) && submitted == old(submitted)
      ensures userName == old(userName) && userEmail == old(userEmail)
    {
      answers := answers[questionId := value];
    }

    method SetUserName(name: string)
      modifies this
      ensures userName == name
      ensures answers == old(answers) && index == old(index) && submitted == old(submitted)
      ensures userEmail == old(userEmail)
    {
      userName := name;
    }

    method SetUserEmail(email: string)
      modifies this
      ensures userEmail == email
      ensures answers == old(answers) && index == old(index) && submitted == old(submitted)
      ensures userName == old(userName)
    {
      userEmail := email;
    }

    /** `handleNext`: a required question without an answer stays put; any
        other question but the last moves forward; on the last question a
        blank name or email stays put, and otherwise the answers are
        recorded as a response (fresh respondent id, no reward claimed) and
        the page is marked submitted. The store's statistics for the
        survey's company then grow by that one response. */
    method Next(store: SurveyStore, userId: string, responseId: string, now: string)
      returns (outcome: NextResult)
      requires Valid() && !submitted
      modifies this, store
      ensures outcome == NextResultOf(survey.questions[old(index)], answers, old(IsLast()), userName, userEmail)
      ensures answers == old(answers) && userName == old(userName) && userEmail == old(userEmail)
      ensures Valid()
      ensures outcome == Advanced ==> index == old(index) + 1
      ensures outcome != Advanced ==> index == old(index)
      ensures submitted <==> outcome == SubmittedOk
      ensures outcome != SubmittedOk ==> store.surveys == old(store.surveys)
      ensures outcome == SubmittedOk ==>
        store.surveys == AppendResponse(old(store.surveys),
          SurveyResponse(responseId, survey.id, userId, answers, now, false))
      ensures store.companies == old(store.companies) && store.currentCompany == old(store.currentCompany)
      ensures old(store.Valid()) ==> store.Valid()
      ensures outcome == SubmittedOk && old(store.Valid()) ==>
        store.GetCompanyStats(survey.companyId) ==
        Plus(old(store.GetCompanyStats(survey.companyId)),
          Gain(old(store.surveys), SurveyResponse(responseId, survey.id, userId, answers, now, false),
            survey.companyId))
    {
      outcome := NextResultOf(survey.questions[index], answers, IsLast(), userName, userEmail);
      if outcome == Advanced {
        index := index + 1;
      } else if outcome == SubmittedOk {
        var r := SurveyResponse(responseId, survey.id, userId, answers, now, false);
        if store.Valid() {
          StatsAfterResponse(store.surveys, r, survey.companyId);
        }
        store.AddResponse(ResponseDraft(survey.id, userId, answers, false), responseId, now);
        submitted := true;
      }
    }

    /** `handlePrevious`: one question back, with no check of its own; the
        button that calls it is disabled on the first question. */
    method Previous()
      requires Valid() && index > 0
      modifies this
      ensures index == old(index) - 1 && Valid()
      ensures answers == old(answers) && submitted == old(submitted)
      ensures userName == old(userName) && userEmail == old(userEmail)
    {
      index := index - 1;
    }
  }
}
