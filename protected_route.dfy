/** The guard around the company pages: sign-in first, then a package. */
module ProtectedRoute {
  import opened Wrappers
  import opened SurveyTypes
  import opened Packages

  /** Where a page or a handler sends the browser; `Stay` keeps the page. */
  datatype Destination = Login | Pricing | Dashboard | CreateSurveyPage | Home | Children | Stay

  /** A subscription counts when it is neither empty nor "none": every
      catalogue package's id counts, and no package chosen does not. */
  function HasValidPackage(c: Company): (b: bool)
    ensures (exists t :: c.subscription == PackageTypeId(t)) ==> b
    ensures c.subscription == "" || c.subscription == NO_PACKAGE.id ==> !b
  {
    c.subscription != "" && c.subscription != "none"
  }

  /** Nobody signed in goes to the login page; when the route needs a
      package, a company without one goes to pricing; otherwise the page
      is shown. */
  function Guard(current: Option<Company>, requiresPackage: bool): (d: Destination)
    ensures d == Login <==> current.None?
    ensures d == Pricing <==> current.Some? && requiresPackage && !HasValidPackage(current.value)
    ensures d == Children <==> current.Some? && (!requiresPackage || HasValidPackage(current.value))
  {
    if current.None? then Login
    else if requiresPackage && !HasValidPackage(current.value) then Pricing
    else Children
  }

  /** The guard as mounted without the flag, which defaults to requiring a package. */
  function DefaultGuard(current: Option<Company>): (d: Destination)
    ensures d == Children <==> current.Some? && HasValidPackage(current.value)
    ensures d in {Login, Pricing, Children}
  {
    Guard(current, true)
  }

  /** Requiring a package only ever turns a shown page into the pricing
      redirect; it never changes the login redirect. */
  lemma PackageRequirementOnlyAddsPricing(current: Option<Company>)
    ensures Guard(current, true) != Guard(current, false) ==>
      Guard(current, true) == Pricing && Guard(current, false) == Children
    ensures Guard(current, false) != Pricing
  {
  }
}
