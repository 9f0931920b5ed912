/** The survey-taker store: the users and the pointer to the user who is
    signed in, with sign-in, registration and the favourites toggle. */
module UserContext {
  import opened Wrappers
  import opened SurveyTypes
  import opened Strings
  import opened Seqs

  /** The error `registerUser` throws. */
  datatype UserError = UserEmailTaken

  function UserIds(us: seq<User>): (ids: seq<string>)
    ensures |ids| == |us|
    ensures forall i :: 0 <= i < |us| ==> ids[i] == us[i].id
  {
    seq(|us|, i requires 0 <= i < |us| => us[i].id)
  }

  /** The selector `u => u.email.toLowerCase() === email.toLowerCase()`. */
  function EmailMatches(email: string): User -> bool {
    (u: User) => EqualsIgnoreCase(u.email, email)
  }

  /** The first user whose email equals `email` ignoring case. */
  function FindUserByEmail(us: seq<User>, email: string): (r: Option<User>)
    ensures r.Some? ==> r.value in us && EqualsIgnoreCase(r.value.email, email)
    ensures r.Some? ==>
      exists i :: 0 <= i < |us| && us[i] == r.value && forall j :: 0 <= j < i ==> !EqualsIgnoreCase(us[j].email, email)
    ensures r.None? <==> forall i :: 0 <= i < |us| ==> !EqualsIgnoreCase(us[i].email, email)
  {
    Find(us, EmailMatches(email))
  }

  /** The selector `id => id !== surveyId`. */
  function Other(surveyId: string): string -> bool {
    (id: string) => id != surveyId
  }

  /** The new favourites list: every occurrence removed when the survey is
      a favourite, appended at the end when it is not. */
  function ToggledFavorites(favs: seq<string>, surveyId: string): (r: seq<string>)
    ensures surveyId in r <==> surveyId !in favs
    ensures forall x :: x != surveyId ==> (x in r <==> x in favs)
  {
    if surveyId in favs then
      FilterOtherFacts(favs, surveyId);
      Filter(favs, Other(surveyId))
    else favs + [surveyId]
  }

  lemma FilterOtherFacts(favs: seq<string>, surveyId: string)
    ensures surveyId !in Filter(favs, Other(surveyId))
    ensures forall x :: x != surveyId ==> (x in Filter(favs, Other(surveyId)) <==> x in favs)
  {
    FilterMembership(favs, Other(surveyId), surveyId);
    forall x | x != surveyId
      ensures x in Filter(favs, Other(surveyId)) <==> x in favs
    {
      FilterMembership(favs, Other(surveyId), x);
    }
  }

  /** The toggle never creates a duplicate favourite. */
  lemma ToggleKeepsNoDup(favs: seq<string>, surveyId: string)
    requires NoDup(favs)
    ensures NoDup(ToggledFavorites(favs, surveyId))
  {
    if surveyId in favs {
      FilterNoDup(favs, Other(surveyId));
    } else {
      var r := favs + [surveyId];
      assert forall i :: 0 <= i < |favs| ==> r[i] == favs[i];
    }
  }

  /** Toggling twice gives back the same set of favourites. */
  lemma ToggleTwiceSameMembers(favs: seq<string>, surveyId: string, x: string)
    ensures x in ToggledFavorites(ToggledFavorites(favs, surveyId), surveyId) <==> x in favs
  {
  }

  /** Toggling an absent id twice gives back the very same list. */
  lemma {:induction false} ToggleTwiceRestores(favs: seq<string>, surveyId: string)
    requires surveyId !in favs
    ensures ToggledFavorites(ToggledFavorites(favs, surveyId), surveyId) == favs
  {
    assert surveyId in favs + [surveyId];
    FilterConcat(favs, [surveyId], Other(surveyId));
    FilterKeepsAll(favs, Other(surveyId));
    assert Filter([surveyId], Other(surveyId)) == [] by {
      assert [surveyId][1..] == [];
    }
  }

  /** A present id that is not last comes back at the end: ["a", "b"]
      toggled twice on "a" is ["b", "a"], so only the set is restored. */
  lemma ToggleTwiceReorders()
    ensures ToggledFavorites(ToggledFavorites(["a", "b"], "a"), "a") == ["b", "a"]
  {
    var once := Filter(["a", "b"], Other("a"));
    assert ["a", "b"][1..] == ["b"] && ["b"][1..] == [];
    assert once == ["b"];
  }

  /** `users.map(u => u.id === id ? updated : u)`. */
  function ReplaceUser(us: seq<User>, id: string, updated: User): (r: seq<User>)
    ensures |r| == |us|
    ensures forall i :: 0 <= i < |us| ==> r[i] == if us[i].id == id then updated else us[i]
  {
    seq(|us|, i requires 0 <= i < |us| => if us[i].id == id then updated else us[i])
  }

  /** Replacing under the record's own id keeps every identifier, and so
      keeps identifiers unique. */
  lemma ReplaceUserKeepsIds(us: seq<User>, updated: User)
    ensures UserIds(ReplaceUser(us, updated.id, updated)) == UserIds(us)
  {
  }

  class UserStore {
    var users: seq<User>
    var currentUser: Option<User>

    /** User identifiers are unique. */
    predicate Valid()
      reads this
    {
      NoDup(UserIds(users))
    }

    constructor ()
      ensures users == [] && currentUser == None
      ensures Valid()
    {
      users := [];
      currentUser := None;
    }

    /** `loginUser`: the password is not looked at; the first user whose
        email matches ignoring case is signed in and returned. */
    method LoginUser(email: string, password: string) returns (r: Option<User>)
      modifies this
      ensures r == FindUserByEmail(users, email)
      ensures users == old(users)
      ensures currentUser == if r.Some? then r else old(currentUser)
    {
      r := FindUserByEmail(users, email);
      if r.Some? {
        currentUser := r;
      }
    }

    /** `registerUser`: a taken email (ignoring case) fails and changes
        nothing; otherwise one user with empty favourites and completed
        lists is appended and signed in. */
    method RegisterUser(name: string, email: string, password: string, freshId: string, now: string)
      returns (r: Result<string, UserError>)
      requires freshId !in UserIds(users)
      modifies this
      ensures FindUserByEmail(old(users), email).Some? ==>
        r == Failure(UserEmailTaken) && users == old(users) && currentUser == old(currentUser)
      ensures FindUserByEmail(old(users), email).None? ==>
        var u := User(freshId, name, email, now, [], []);
        r == Success(freshId) && users == old(users) + [u] && currentUser == Some(u)
      ensures old(Valid()) ==> Valid()
    {
      if FindUserByEmail(users, email).Some? {
        return Failure(UserEmailTaken);
      }
      var u := User(freshId, name, email, now, [], []);
      assert UserIds(users + [u]) == UserIds(users) + [freshId];
      users := users + [u];
      currentUser := Some(u);
      r := Success(freshId);
    }

    /** `isFavorite`: false when nobody is signed in. */
    function IsFavorite(surveyId: string): (b: bool)
      reads this
      ensures b <==> currentUser.Some? && surveyId in currentUser.value.favoritesSurveys
    {
      match currentUser
      case None => false
      case Some(u) => surveyId in u.favoritesSurveys
    }

    /** `toggleFavorite`: without a signed-in user nothing happens;
        otherwise the signed-in user's favourites are toggled and the same
        record replaces every stored user with its id. The answer of
        `IsFavorite` for that survey flips, no other survey's answer
        changes, no duplicate is introduced, and other users are untouched. */
    method ToggleFavorite(surveyId: string)
      modifies this
      ensures old(currentUser).None? ==> users == old(users) && currentUser == old(currentUser)
      ensures old(currentUser).Some? ==>
        var c := old(currentUser).value;
        var u := c.(favoritesSurveys := ToggledFavorites(c.favoritesSurveys, surveyId));
        currentUser == Some(u) && users == ReplaceUser(old(users), c.id, u)
      ensures old(currentUser).Some? ==> (IsFavorite(surveyId) <==> !old(IsFavorite(surveyId)))
      ensures forall x :: x != surveyId ==> (IsFavorite(x) <==> old(IsFavorite(x)))
      ensures old(currentUser).Some? && NoDup(old(currentUser).value.favoritesSurveys) ==>
        NoDup(currentUser.value.favoritesSurveys)
      ensures old(Valid()) ==> Valid()
    {
      if currentUser.None? {
        return;
      }
      var c := currentUser.value;
      var u := c.(favoritesSurveys := ToggledFavorites(c.favoritesSurveys, surveyId));
      if NoDup(c.favoritesSurveys) {
        ToggleKeepsNoDup(c.favoritesSurveys, surveyId);
      }
      ReplaceUserKeepsIds(users, u);
      currentUser := Some(u);
      users := ReplaceUser(users, c.id, u);
    }

    /** `setCurrentUser`, as the profile page and sign-out call it. */
    method SetCurrentUser(u: Option<User>)
      modifies this
      ensures currentUser == u && users == old(users)
    {
      currentUser := u;
    }
  }
}
