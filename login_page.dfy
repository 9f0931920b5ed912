/** The company sign-in and registration form. */
module LoginPage {
  import opened Wrappers
  import opened SurveyTypes
  import opened SurveyContext
  import opened ProtectedRoute

  /** How a submission of the form ends. */
  datatype LoginOutcome =
    | SignedIn(company: Company)
    | UnknownEmail
    | ChoosePackageFirst
    | Registered(id: string)
    | RegistrationRefused(error: StoreError)

  /** Where the page sends the browser after each outcome: a signed-in
      company without a package to pricing, with one to the dashboard; a
      registration without a chosen package to pricing; a registration to
      the dashboard; a failure keeps the page. */
  function Target(o: LoginOutcome): (d: Destination)
    ensures o.SignedIn? ==> (d == Dashboard <==> HasValidPackage(o.company))
    ensures o.SignedIn? ==> (d == Pricing <==> !HasValidPackage(o.company))
    ensures o.ChoosePackageFirst? ==> d == Pricing
    ensures o.Registered? ==> d == Dashboard
    ensures o.UnknownEmail? || o.RegistrationRefused? ==> d == Stay
  {
    match o
    case SignedIn(c) => if HasValidPackage(c) then Dashboard else Pricing
    case UnknownEmail => Stay
    case ChoosePackageFirst => Pricing
    case Registered(_) => Dashboard
    case RegistrationRefused(_) => Stay
  }

  /** The form's state: sign-in or registration mode and the three inputs. */
  class LoginForm {
    var isLogin: bool
    var name: string
    var email: string
    var password: string

    constructor ()
      ensures isLogin && name == "" && email == "" && password == ""
    {
      isLogin := true;
      name := "";
      email := "";
      password := "";
    }

    /** The link under the form switches between the two modes. */
    method ToggleMode()
      modifies this
      ensures isLogin == !old(isLogin)
      ensures name == old(name) && email == old(email) && password == old(password)
    {
      isLogin := !isLogin;
    }

    method SetInputs(name: string, email: string, password: string)
      modifies this
      ensures this.name == name && this.email == email && this.password == password
      ensures isLogin == old(isLogin)
    {
      this.name := name;
      this.email := email;
      this.password := password;
    }

    /** `handleSubmit`. In sign-in mode the store's sign-in decides; in
        registration mode a missing package choice changes nothing, and
        otherwise the company is registered with that package's id as its
        subscription, unless the email is taken. A dashboard destination
        always passes the default guard. */
    method Submit(store: SurveyStore, packageId: Option<string>, freshId: string, now: string)
      returns (o: LoginOutcome)
      requires freshId !in CompanyIds(store.companies)
      modifies store
      ensures store.surveys == old(store.surveys)
      ensures isLogin ==>
        (FindCompanyByEmail(old(store.companies), email).Some? ==>
          o == SignedIn(FindCompanyByEmail(old(store.companies), email).value))
        && (FindCompanyByEmail(old(store.companies), email).None? ==>
          o == UnknownEmail && store.currentCompany == old(store.currentCompany))
        && store.companies == old(store.companies)
      ensures !isLogin && packageId.None? ==>
        o == ChoosePackageFirst && store.companies == old(store.companies)
        && store.currentCompany == old(store.currentCompany)
      ensures !isLogin && packageId.Some? && EmailTaken(old(store.companies), email) ==>
        o == RegistrationRefused(CompanyEmailTaken) && store.companies == old(store.companies)
        && store.currentCompany == old(store.currentCompany)
      ensures !isLogin && packageId.Some? && !EmailTaken(old(store.companies), email) ==>
        var c := Company(freshId, name, email, packageId.value, [], now);
        o == Registered(freshId) && store.companies == old(store.companies) + [c]
        && store.currentCompany == Some(c)
      ensures o.SignedIn? ==> store.currentCompany == Some(o.company)
      ensures Target(o) == Dashboard && o.SignedIn? ==> DefaultGuard(store.currentCompany) == Children
      ensures old(store.Valid()) ==> store.Valid()
    {
      if isLogin {
        var found := store.LoginCompany(email, password);
        if found.Some? {
          o := SignedIn(found.value);
        } else {
          o := UnknownEmail;
        }
      } else if packageId.None? {
        o := ChoosePackageFirst;
      } else {
        var r := store.RegisterCompany(name, email, password, packageId.value, freshId, now);
        if r.Success? {
          o := Registered(r.value);
        } else {
          o := RegistrationRefused(r.error);
        }
      }
    }
  }

  /** A company registered with a catalogue package is let through by the
      default guard, so the dashboard redirect after registration lands. */
  lemma RegisteredWithTierPassesGuard(c: Company, tier: PackageType)
    requires c.subscription == PackageTypeId(tier)
    ensures DefaultGuard(Some(c)) == Children
  {
  }

  /** A company registered with the subscription "none" would be sent to
      the dashboard and then bounced to pricing. */
  lemma RegisteredWithoutTierBounces(c: Company)
    requires c.subscription == "none"
    ensures DefaultGuard(Some(c)) == Pricing
  {
  }
}
