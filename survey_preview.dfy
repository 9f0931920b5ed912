/** The preview a company walks through before it creates a survey: its
    own step rule, which differs from the respondent's page. */
module SurveyPreview {
  import opened Wrappers
  import opened SurveyTypes
  import opened Strings
  import opened TakeSurvey

  /** The preview's `canProceed`: an optional question can always be left;
      a required yes/no question needs any stored answer; a required text
      question needs a stored answer that is not blank after trimming; any
      other required question needs any stored answer. */
  function PreviewCanProceed(q: Question, responses: map<string, Answer>): (b: bool)
    ensures b <==> (!q.required || (q.id in responses
                   && (q.kind == Text ==> responses[q.id].Single? && !AllWhitespace(responses[q.id].value))))
  {
    if !q.required then true
    else if q.kind == Boolean then q.id in responses
    else if q.kind == Text then q.id in responses && responses[q.id].Single? && !IsBlank(responses[q.id].value)
    else q.id in responses
  }

  /** On free text the preview is stricter than the respondent's page: what
      it lets through, the page lets through too. */
  lemma PreviewStricterOnText(q: Question, answers: map<string, Answer>)
    requires q.kind == Text
    ensures PreviewCanProceed(q, answers) ==> CanProceed(q, answers)
  {
  }

  /** A whitespace-only text answer passes on the respondent's page but
      not in the preview. */
  lemma WhitespaceTextDiffers(q: Question, answers: map<string, Answer>)
    requires q.kind == Text && q.required
    ensures CanProceed(q, answers[q.id := Single(" ")])
    ensures !PreviewCanProceed(q, answers[q.id := Single(" ")])
  {
    assert IsWhitespace(' ');
    assert AllWhitespace(" ");
  }

  /** An empty-string choice passes in the preview (it is not `undefined`)
      but not on the respondent's page (it is falsy). */
  lemma EmptyChoiceDiffers(q: Question, answers: map<string, Answer>)
    requires q.kind != Text && q.required
    ensures PreviewCanProceed(q, answers[q.id := Single("")])
    ensures !CanProceed(q, answers[q.id := Single("")])
  {
  }

  /** Away from free text and empty strings both rules agree. */
  lemma AgreeOffText(q: Question, answers: map<string, Answer>)
    requires q.kind != Text
    requires q.id in answers ==> answers[q.id] != Single("")
    ensures PreviewCanProceed(q, answers) <==> CanProceed(q, answers)
  {
  }

  /** The preview state for a survey with at least one question. */
  class PreviewSession {
    const survey: Survey
    var index: int
    var responses: map<string, Answer>
    var showComplete: bool

    predicate Valid()
      reads this
    {
      0 <= index < |survey.questions|
    }

    constructor (survey: Survey)
      requires survey.questions != []
      ensures this.survey == survey
      ensures index == 0 && responses == map[] && !showComplete
      ensures Valid()
    {
      this.survey := survey;
      index := 0;
      responses := map[];
      showComplete := false;
    }

    predicate IsLast()
      reads this
    {
      index == |survey.questions| - 1
    }

    /** The forward button is disabled while the current question cannot be left. */
    predicate NextDisabled()
      requires Valid()
      reads this
    {
      !PreviewCanProceed(survey.questions[index], responses)
    }

    /** `handleAnswer`: the stored answer to that question is replaced. */
    method SetAnswer(questionId: string, value: Answer)
      modifies this
      ensures responses == old(responses)[questionId := value]
      ensures index == old(index) && showComplete == old(showComplete)
    {
      responses := responses[questionId := value];
    }

    /** `handleNext`, which checks nothing itself: the last question ends
        the preview, any other moves one forward. */
    method Next()
      requires Valid()
      modifies this
      ensures old(IsLast()) ==> showComplete && index == old(index)
      ensures !old(IsLast()) ==> index == old(index) + 1 && showComplete == old(showComplete)
      ensures responses == old(responses)
      ensures Valid()
    {
      if IsLast() {
        showComplete := true;
      } else {
        index := index + 1;
      }
    }

    /** `handlePrevious`: one back unless on the first question. */
    method Previous()
      requires Valid()
      modifies this
      ensures index == if old(index) > 0 then old(index) - 1 else old(index)
      ensures responses == old(responses) && showComplete == old(showComplete)
      ensures Valid()
    {
      if index > 0 {
        index := index - 1;
      }
    }
  }
}
