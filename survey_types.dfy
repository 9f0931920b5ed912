/** The records of the survey platform: questions, responses, surveys,
    payment packages, companies and survey-taking users. */
module SurveyTypes {
  import opened Wrappers

  /** The four question kinds; nothing else is a question type. */
  datatype QuestionType = MultipleChoice | Text | Rating | Boolean

  /** A question: `options` may be absent (text and yes/no questions) and
      `required` is always a plain flag. */
  datatype Question = Question(
    id: string,
    kind: QuestionType,
    text: string,
    options: Option<seq<string>>,
    required: bool)

  /** What a response records for one question: a single string or a list
      of strings. */
  datatype Answer = Single(value: string) | Multi(items: seq<string>)

  datatype SurveyResponse = SurveyResponse(
    id: string,
    surveyId: string,
    userId: string,
    answers: map<string, Answer>,
    completedAt: string,
    rewardClaimed: bool)

  /** The tier a survey was created under; a survey never has 'none'. */
  datatype PackageType = Basic | Standard | Premium

  /** A survey: the expiry is optional, the question bound and the reward
      are always present. The reward is an exact amount of dollars. */
  datatype Survey = Survey(
    id: string,
    title: string,
    description: string,
    companyId: string,
    companyName: string,
    questions: seq<Question>,
    responses: seq<SurveyResponse>,
    createdAt: string,
    expiresAt: Option<string>,
    isActive: bool,
    packageType: PackageType,
    maxQuestions: int,
    rewardPerResponse: real)

  /** A catalogue entry; an absent `popular` flag reads as false. */
  datatype PaymentPackage = PaymentPackage(
    id: string,
    name: string,
    maxQuestions: nat,
    price: int,
    features: seq<string>,
    popular: bool)

  /** A company account. Its subscription is the text registration was
      given: one of the package ids or 'none' when the front end behaves,
      tested by the guards for being empty or 'none'. */
  datatype Company = Company(
    id: string,
    name: string,
    email: string,
    subscription: string,
    surveys: seq<string>,
    createdAt: string)

  /** A survey taker with two lists of survey ids. */
  datatype User = User(
    id: string,
    name: string,
    email: string,
    createdAt: string,
    favoritesSurveys: seq<string>,
    completedSurveys: seq<string>)

  /** The identifier a package tier is stored and looked up under. */
  function PackageTypeId(p: PackageType): (id: string)
    ensures id != "none" && id != ""
  {
    match p
    case Basic => "basic"
    case Standard => "standard"
    case Premium => "premium"
  }

  /** Distinct tiers have distinct identifiers, so looking a tier up by its
      identifier is a function. */
  lemma PackageTypeIdInjective(p: PackageType, q: PackageType)
    ensures PackageTypeId(p) == PackageTypeId(q) ==> p == q
  {
  }

  /** JavaScript truthiness of `answers[id]`: a missing entry and the empty
      string are falsy; any other string and every array, even an empty one,
      are truthy. */
  function IsTruthy(a: Option<Answer>): (b: bool)
    ensures b <==> a.Some? && a.value != Single("")
  {
    match a
    case None => false
    case Some(Single(s)) => s != ""
    case Some(Multi(_)) => true
  }

  function AnswerFor(answers: map<string, Answer>, questionId: string): Option<Answer> {
    if questionId in answers then Some(answers[questionId]) else None
  }
}
