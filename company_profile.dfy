/** The signed-in company's profile page: the edit form for name and
    email, and the survey counts it shows. */
module CompanyProfile {
  import opened Wrappers
  import opened SurveyTypes
  import opened Strings
  import opened Seqs
  import opened SurveyQueries
  import opened SurveyContext

  /** `handleSave`'s result: nothing when the name or the email is blank
      after trimming, otherwise the company with both trimmed and every
      other field as it was. */
  function SavedCompany(c: Company, name: string, email: string): (r: Option<Company>)
    ensures r.None? <==> IsBlank(name) || IsBlank(email)
    ensures r.Some? ==> r.value.name == Trim(name) && r.value.email == Trim(email)
    ensures r.Some? ==> r.value.(name := c.name, email := c.email) == c
  {
    if IsBlank(name) || IsBlank(email) then None
    else Some(c.(name := Trim(name), email := Trim(email)))
  }

  /** Saving the saved values again changes nothing: trimming is
      idempotent and a saved name and email are never blank. */
  lemma {:induction false} SaveTwiceIsSaveOnce(c: Company, name: string, email: string)
    requires SavedCompany(c, name, email).Some?
    ensures var d := SavedCompany(c, name, email).value;
      SavedCompany(d, d.name, d.email) == Some(d)
  {
    var n, e := Trim(name), Trim(email);
    assert Trim(n) == n by { TrimIdempotent(name); }
    assert Trim(e) == e by { TrimIdempotent(email); }
    var d := c.(name := n, email := e);
    assert SavedCompany(c, name, email) == Some(d);
  }

  /** The three figures: all the company's surveys, the active ones, and
      their responses. */
  datatype ProfileCounts = ProfileCounts(total: int, active: int, responses: int)

  function CountsOf(ss: seq<Survey>, companyId: string): (p: ProfileCounts)
    ensures 0 <= p.active <= p.total <= |ss|
    ensures p.total == Stats(ss, companyId).totalSurveys
    ensures p.responses == Stats(ss, companyId).totalResponses
  {
    var cs := CompanySurveys(ss, companyId);
    ActiveCompanySurveysBounded(ss, companyId);
    ProfileCounts(|cs|, |ActiveSurveys(cs)|, TotalResponses(cs))
  }

  /** The form: the name and email inputs and whether they are open. */
  class CompanyProfileForm {
    var name: string
    var email: string
    var isEditing: bool

    /** The inputs start from the signed-in company, or empty. */
    constructor (current: Option<Company>)
      ensures current.Some? ==> name == current.value.name && email == current.value.email
      ensures current.None? ==> name == "" && email == ""
      ensures !isEditing
    {
      name := if current.Some? then current.value.name else "";
      email := if current.Some? then current.value.email else "";
      isEditing := false;
    }

    method StartEditing()
      modifies this
      ensures isEditing && name == old(name) && email == old(email)
    {
      isEditing := true;
    }

    method SetInputs(name: string, email: string)
      modifies this
      ensures this.name == name && this.email == email && isEditing == old(isEditing)
    {
      this.name := name;
      this.email := email;
    }

    /** `handleSave`: a blank input refuses and keeps editing; otherwise
        only the signed-in company record is replaced, the collection of
        companies keeps the old name and email, and editing ends. */
    method Save(store: SurveyStore) returns (saved: bool)
      requires store.currentCompany.Some?
      modifies this, store
      ensures var r := SavedCompany(old(store.currentCompany).value, name, email);
        saved == r.Some? && (saved ==> store.currentCompany == r)
      ensures !saved ==> store.currentCompany == old(store.currentCompany) && isEditing == old(isEditing)
      ensures saved ==> !isEditing
      ensures name == old(name) && email == old(email)
      ensures store.surveys == old(store.surveys) && store.companies == old(store.companies)
      ensures old(store.Valid()) ==> store.Valid()
    {
      var r := SavedCompany(store.currentCompany.value, name, email);
      if r.None? {
        return false;
      }
      store.SetCurrentCompany(r);
      isEditing := false;
      saved := true;
    }

    /** `handleCancel`: the inputs go back to the signed-in company's values. */
    method Cancel(current: Company)
      modifies this
      ensures name == current.name && email == current.email && !isEditing
    {
      name := current.name;
      email := current.email;
      isEditing := false;
    }
  }
}
