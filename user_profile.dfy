/** The signed-in respondent's profile page: the edit form for name and
    email, and the two list sizes it shows. */
module UserProfile {
  import opened Wrappers
  import opened SurveyTypes
  import opened Strings
  import opened Seqs
  import opened UserContext

  /** `handleSave`'s result: nothing when the name or the email is blank
      after trimming, otherwise the user with both trimmed and every other
      field, the two survey lists included, as it was. */
  function SavedUser(u: User, name: string, email: string): (r: Option<User>)
    ensures r.None? <==> IsBlank(name) || IsBlank(email)
    ensures r.Some? ==> r.value.name == Trim(name) && r.value.email == Trim(email)
    ensures r.Some? ==> r.value.(name := u.name, email := u.email) == u
  {
    if IsBlank(name) || IsBlank(email) then None
    else Some(u.(name := Trim(name), email := Trim(email)))
  }

  lemma {:induction false} SaveTwiceIsSaveOnce(u: User, name: string, email: string)
    requires SavedUser(u, name, email).Some?
    ensures var d := SavedUser(u, name, email).value;
      SavedUser(d, d.name, d.email) == Some(d)
  {
    var n, e := Trim(name), Trim(email);
    assert Trim(n) == n by { TrimIdempotent(name); }
    assert Trim(e) == e by { TrimIdempotent(email); }
    var d := u.(name := n, email := e);
    assert SavedUser(u, name, email) == Some(d);
  }

  /** Removing an id from a list without duplicates shortens it by one
      exactly when the id was there. */
  lemma {:induction false} FilterOtherLength(favs: seq<string>, surveyId: string)
    requires NoDup(favs)
    ensures |Filter(favs, Other(surveyId))| == |favs| - (if surveyId in favs then 1 else 0)
  {
    if favs != [] {
      var rest := favs[1..];
      assert NoDup(rest) by {
        assert forall i :: 0 <= i < |rest| ==> rest[i] == favs[i + 1];
      }
      assert favs[0] !in rest by {
        assert forall i :: 0 <= i < |rest| ==> rest[i] == favs[i + 1];
      }
      assert surveyId in favs <==> surveyId == favs[0] || surveyId in rest by {
        assert favs == [favs[0]] + rest;
      }
      FilterOtherLength(rest, surveyId);
    }
  }

  /** The favourites count shown goes down by one when a favourite is
      toggled off and up by one when a survey is toggled on. */
  lemma FavoriteCountAfterToggle(favs: seq<string>, surveyId: string)
    requires NoDup(favs)
    ensures |ToggledFavorites(favs, surveyId)| == |favs| + (if surveyId in favs then -1 else 1)
  {
    if surveyId in favs {
      FilterOtherLength(favs, surveyId);
    }
  }

  /** The form: the name and email inputs and whether they are open. */
  class UserProfileForm {
    var name: string
    var email: string
    var isEditing: bool

    constructor (current: Option<User>)
      ensures current.Some? ==> name == current.value.name && email == current.value.email
      ensures current.None? ==> name == "" && email == ""
      ensures !isEditing
    {
      name := if current.Some? then current.value.name else "";
      email := if current.Some? then current.value.email else "";
      isEditing := false;
    }

    method StartEditing()
      modifies this
      ensures isEditing && name == old(name) && email == old(email)
    {
      isEditing := true;
    }

    method SetInputs(name: string, email: string)
      modifies this
      ensures this.name == name && this.email == email && isEditing == old(isEditing)
    {
      this.name := name;
      this.email := email;
    }

    /** `handleSave`: a blank input refuses; otherwise only the signed-in
        user record is replaced, the users list keeps the old values, and
        editing ends. */
    method Save(users: UserStore) returns (saved: bool)
      requires users.currentUser.Some?
      modifies this, users
      ensures var r := SavedUser(old(users.currentUser).value, name, email);
        saved == r.Some? && (saved ==> users.currentUser == r)
      ensures !saved ==> users.currentUser == old(users.currentUser) && isEditing == old(isEditing)
      ensures saved ==> !isEditing
      ensures name == old(name) && email == old(email)
      ensures users.users == old(users.users)
      ensures old(users.Valid()) ==> users.Valid()
    {
      var r := SavedUser(users.currentUser.value, name, email);
      if r.None? {
        return false;
      }
      users.SetCurrentUser(r);
      isEditing := false;
      saved := true;
    }

    method Cancel(current: User)
      modifies this
      ensures name == current.name && email == current.email && !isEditing
    {
      name := current.name;
      email := current.email;
      isEditing := false;
    }
  }
}
