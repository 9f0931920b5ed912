/** The back and forward buttons under a question while a survey is taken. */
module SurveyNavigation {
  import opened SurveyTypes
  import opened Strings
  import opened TakeSurvey

  /** The forward button is disabled when the question cannot be left, and
      on the last question also when the name or the email is blank: made
      only of whitespace, the empty string included. */
  function SubmitDisabled(canProceed: bool, isLast: bool, userName: string, userEmail: string): (b: bool)
    ensures !canProceed ==> b
    ensures canProceed && !isLast ==> !b
    ensures canProceed && isLast ==> (b <==> AllWhitespace(userName) || AllWhitespace(userEmail))
  {
    !canProceed || (isLast && (IsBlank(userName) || IsBlank(userEmail)))
  }

  /** The back button is disabled on the first question only, so at any
      index it leaves enabled a step back stays within the questions. */
  function PreviousDisabled(index: int): (b: bool)
    ensures index >= 0 ==> (!b <==> index > 0)
  {
    index == 0
  }

  /** The forward button is enabled exactly when pressing it would move on
      or submit: the button and `handleNext` apply the same rule. */
  lemma ForwardEnabledIffProgress(q: Question, answers: map<string, Answer>, isLast: bool,
                                  userName: string, userEmail: string)
    ensures !SubmitDisabled(CanProceed(q, answers), isLast, userName, userEmail) <==>
      NextResultOf(q, answers, isLast, userName, userEmail) in {Advanced, SubmittedOk}
  {
  }

  /** Before the last question the name and email play no part. */
  lemma ContactIrrelevantBeforeLast(canProceed: bool, n1: string, e1: string, n2: string, e2: string)
    ensures SubmitDisabled(canProceed, false, n1, e1) == SubmitDisabled(canProceed, false, n2, e2)
    ensures SubmitDisabled(canProceed, false, n1, e1) == !canProceed
  {
  }
}
