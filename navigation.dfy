/** The top bar: the two sign-outs, the create-survey button and the
    links shown only to a company with a package. */
module Navigation {
  import opened Wrappers
  import opened SurveyTypes
  import opened SurveyContext
  import opened UserContext
  import opened ProtectedRoute

  /** `handleCreateSurvey`: sign in first, then a package, then the
      survey form. */
  function CreateSurveyTarget(current: Option<Company>): (d: Destination)
    ensures d == Login <==> current.None?
    ensures d == Pricing <==> current.Some? && !HasValidPackage(current.value)
    ensures d == CreateSurveyPage <==> current.Some? && HasValidPackage(current.value)
  {
    if current.None? then Login
    else if !HasValidPackage(current.value) then Pricing
    else CreateSurveyPage
  }

  /** The button sends the browser to the form exactly when the default
      guard would let the form be shown, and elsewhere to the same redirect. */
  lemma CreateButtonAgreesWithGuard(current: Option<Company>)
    ensures CreateSurveyTarget(current) == CreateSurveyPage <==> DefaultGuard(current) == Children
    ensures CreateSurveyTarget(current) != CreateSurveyPage ==> CreateSurveyTarget(current) == DefaultGuard(current)
  {
  }

  /** `hasValidPackage`, which decides whether the company links appear. */
  function ShowsCompanyLinks(current: Option<Company>): (b: bool)
    ensures b <==> DefaultGuard(current) == Children
  {
    current.Some? && HasValidPackage(current.value)
  }

  /** `handleCompanyLogout`: the company is signed out and the browser
      goes home; every guarded page then redirects to login. */
  method CompanyLogout(store: SurveyStore) returns (d: Destination)
    modifies store
    ensures d == Home
    ensures store.currentCompany == None
    ensures store.surveys == old(store.surveys) && store.companies == old(store.companies)
    ensures forall r :: Guard(store.currentCompany, r) == Login
  {
    store.SetCurrentCompany(None);
    d := Home;
  }

  /** `handleUserLogout`: the respondent is signed out and the browser goes home. */
  method UserLogout(users: UserStore) returns (d: Destination)
    modifies users
    ensures d == Home
    ensures users.currentUser == None && users.users == old(users.users)
    ensures forall s :: !users.IsFavorite(s)
  {
    users.SetCurrentUser(None);
    d := Home;
  }
}
