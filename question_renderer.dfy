/** The input widget for one question: which answers it can store and
    which choice it shows as selected. */
module QuestionRenderer {
  import opened Wrappers
  import opened SurveyTypes
  import opened Strings
  import opened TakeSurvey
  import opened SurveyPreview

  /** The choices the widget offers: the question's options for multiple
      choice and rating (none when the question has no options), "yes" and
      "no" for a yes/no question, and no fixed choices for free text. */
  function Choices(q: Question): (cs: seq<string>)
    ensures q.kind == Boolean ==> cs == ["yes", "no"]
    ensures q.kind == Text ==> cs == []
    ensures (q.kind == MultipleChoice || q.kind == Rating) ==>
      (q.options.Some? ==> cs == q.options.value) && (q.options.None? ==> cs == [])
  {
    match q.kind
    case MultipleChoice => q.options.GetOr([])
    case Rating => q.options.GetOr([])
    case Boolean => ["yes", "no"]
    case Text => []
  }

  /** The values `onAnswerChange` can be called with: the text typed for a
      free-text question, otherwise one of the offered choices. */
  predicate CanEmit(q: Question, v: Answer) {
    v.Single? && (q.kind == Text || v.value in Choices(q))
  }

  /** `answers[id] || ''`: a falsy entry is shown as the empty string. */
  function Shown(answers: map<string, Answer>, questionId: string): (a: Answer)
    ensures questionId in answers && answers[questionId] != Single("") ==> a == answers[questionId]
    ensures questionId !in answers ==> a == Single("")
  {
    if IsTruthy(AnswerFor(answers, questionId)) then answers[questionId] else Single("")
  }

  /** `currentAnswer === option`: an array never equals a string. */
  predicate IsChecked(shown: Answer, option: string) {
    shown == Single(option)
  }

  /** A choice or rating widget only emits one of the question's own
      option strings, so it emits nothing for a question without options. */
  lemma EmittedChoiceIsOption(q: Question, v: Answer)
    requires (q.kind == MultipleChoice || q.kind == Rating) && CanEmit(q, v)
    ensures q.options.Some? && v.value in q.options.value
  {
  }

  /** What the text widget stores is always a string, so the preview's
      `answer.trim()` never meets a list: the preview lets the question be
      left exactly when it is optional or the text is not all whitespace. */
  lemma EmittedTextPreview(q: Question, answers: map<string, Answer>, v: Answer)
    requires q.kind == Text && CanEmit(q, v)
    ensures PreviewCanProceed(q, answers[q.id := v]) <==> !q.required || !AllWhitespace(v.value)
  {
  }

  /** Picking a non-empty choice marks it, and only it, as selected and
      lets a required question be left. */
  lemma ChoiceIsShownAndUnblocks(q: Question, answers: map<string, Answer>, v: Answer, other: string)
    requires CanEmit(q, v) && v.value != ""
    ensures IsChecked(Shown(answers[q.id := v], q.id), v.value)
    ensures other != v.value ==> !IsChecked(Shown(answers[q.id := v], q.id), other)
    ensures CanProceed(q, answers[q.id := v])
  {
  }

  /** Either answer to a yes/no question lets it be left. */
  lemma YesNoAlwaysUnblocks(q: Question, answers: map<string, Answer>, v: Answer)
    requires q.kind == Boolean && CanEmit(q, v)
    ensures v == Single("yes") || v == Single("no")
    ensures CanProceed(q, answers[q.id := v])
  {
    assert v.value in ["yes", "no"];
  }

  /** An option with empty text can be picked, but a required question
      stays blocked on it. */
  lemma EmptyChoiceKeepsBlocked(q: Question, answers: map<string, Answer>)
    requires q.required
    ensures !CanProceed(q, answers[q.id := Single("")])
  {
  }

  /** Before any answer no non-empty choice is shown as selected. */
  lemma NothingCheckedBeforeAnswer(answers: map<string, Answer>, questionId: string, option: string)
    requires questionId !in answers && option != ""
    ensures !IsChecked(Shown(answers, questionId), option)
  {
  }
}
