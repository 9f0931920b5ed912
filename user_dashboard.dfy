/** A respondent's dashboard: the three tabs of surveys, the search box
    over the selected tab, and the earnings total. */
module UserDashboard {
  import opened Wrappers
  import opened SurveyTypes
  import opened Strings
  import opened Seqs
  import opened SurveyQueries

  datatype Tab = Available | Favorites | Completed

  function IsFavoriteOf(u: User): Survey -> bool {
    (s: Survey) => s.id in u.favoritesSurveys
  }

  function CompletedBy(u: User): Survey -> bool {
    (s: Survey) => s.id in u.completedSurveys
  }

  /** The active surveys the user has marked as favourites. */
  function FavoriteSurveys(ss: seq<Survey>, u: User): (r: seq<Survey>)
    ensures |r| <= |ss|
  {
    Filter(ActiveSurveys(ss), IsFavoriteOf(u))
  }

  /** The surveys whose id is on the user's completed list, active or not. */
  function CompletedSurveys(ss: seq<Survey>, u: User): (r: seq<Survey>)
    ensures |r| <= |ss|
    ensures forall i :: 0 <= i < |r| ==> r[i].id in u.completedSurveys
  {
    Filter(ss, CompletedBy(u))
  }

  /** Favourites are exactly the active favourited surveys, while the
      completed list ignores whether a survey is active. */
  lemma {:induction false} TabsExact(ss: seq<Survey>, u: User, s: Survey)
    ensures s in FavoriteSurveys(ss, u) <==> s in ss && s.isActive && s.id in u.favoritesSurveys
    ensures s in CompletedSurveys(ss, u) <==> s in ss && s.id in u.completedSurveys
  {
    FilterMembership(ActiveSurveys(ss), IsFavoriteOf(u), s);
    ActiveSurveysExact(ss, s);
    FilterMembership(ss, CompletedBy(u), s);
  }

  /** The list the selected tab shows: the active surveys, the active
      favourites, or the completed surveys, active or not. */
  function TabList(ss: seq<Survey>, u: User, tab: Tab): (r: seq<Survey>)
    ensures tab == Available ==> forall s :: s in r <==> s in ss && s.isActive
    ensures tab == Favorites ==> forall s :: s in r <==> s in ss && s.isActive && s.id in u.favoritesSurveys
    ensures tab == Completed ==> forall s :: s in r <==> s in ss && s.id in u.completedSurveys
  {
    forall s
      ensures s in ActiveSurveys(ss) <==> s in ss && s.isActive
      ensures s in FavoriteSurveys(ss, u) <==> s in ss && s.isActive && s.id in u.favoritesSurveys
      ensures s in CompletedSurveys(ss, u) <==> s in ss && s.id in u.completedSurveys
    {
      ActiveSurveysExact(ss, s);
      TabsExact(ss, u, s);
    }
    match tab
    case Available => ActiveSurveys(ss)
    case Favorites => FavoriteSurveys(ss, u)
    case Completed => CompletedSurveys(ss, u)
  }

  /** The search condition: the term, ignoring case, occurs in the title,
      the description or the company name. */
  function MatchesTerm(term: string): Survey -> bool {
    (s: Survey) =>
      Contains(Lower(s.title), Lower(term)) || Contains(Lower(s.description), Lower(term))
      || Contains(Lower(s.companyName), Lower(term))
  }

  /** The search ignores the case of the term as well, and the empty term
      matches every survey, so skipping the filter for an empty search box
      shows what filtering would. */
  lemma SearchLaws(term: string, s: Survey, ss: seq<Survey>)
    ensures MatchesTerm(term)(s) == MatchesTerm(Lower(term))(s)
    ensures MatchesTerm("")(s)
    ensures Filter(ss, MatchesTerm("")) == ss
  {
    LowerIdempotent(term);
    assert Lower("") == "";
    assert OccursAt(Lower(s.title), "", 0);
    forall i | 0 <= i < |ss| ensures MatchesTerm("")(ss[i]) {
      assert OccursAt(Lower(ss[i].title), "", 0);
    }
    FilterKeepsAll(ss, MatchesTerm(""));
  }

  /** `totalEarnings`: the rewards of the completed surveys added up. That
      is every survey's reward counted when its id is on the completed
      list and 0 otherwise; without negative rewards it lies between 0 and
      the rewards of all surveys. */
  function TotalEarnings(ss: seq<Survey>, u: User): (r: real)
    ensures r == SumReal(ss, Masked(CompletedBy(u), RewardPerResponse))
    ensures (forall i :: 0 <= i < |ss| ==> ss[i].rewardPerResponse >= 0.0) ==>
      0.0 <= r <= TotalRewardOffered(ss)
  {
    SumRealFilter(ss, CompletedBy(u), RewardPerResponse);
    SumRealMaskedBounds(ss, CompletedBy(u), RewardPerResponse);
    TotalRewardOffered(CompletedSurveys(ss, u))
  }

  /** The dashboard's tab and search box. */
  class DashboardView {
    var activeTab: Tab
    var searchTerm: string

    constructor ()
      ensures activeTab == Available && searchTerm == ""
    {
      activeTab := Available;
      searchTerm := "";
    }

    method SelectTab(t: Tab)
      modifies this
      ensures activeTab == t && searchTerm == old(searchTerm)
    {
      activeTab := t;
    }

    method SetSearchTerm(term: string)
      modifies this
      ensures searchTerm == term && activeTab == old(activeTab)
    {
      searchTerm := term;
    }

    /** `filteredSurveys`: the selected tab's list, then, for a non-empty
        term, the surveys matching it. The result keeps the order of the
        tab's list, holds exactly its matching members, and is the whole
        list for an empty term. */
    method Filtered(ss: seq<Survey>, u: User) returns (r: seq<Survey>)
      ensures searchTerm == "" ==> r == TabList(ss, u, activeTab)
      ensures IsSubsequence(r, TabList(ss, u, activeTab))
      ensures forall s :: s in r <==>
        s in TabList(ss, u, activeTab) && (searchTerm == "" || MatchesTerm(searchTerm)(s))
    {
      var toFilter: seq<Survey> := [];
      match activeTab {
        case Available => toFilter := ActiveSurveys(ss);
        case Favorites => toFilter := FavoriteSurveys(ss, u);
        case Completed => toFilter := CompletedSurveys(ss, u);
      }
      if searchTerm != "" {
        FilterIsSubsequence(toFilter, MatchesTerm(searchTerm));
        forall s ensures s in Filter(toFilter, MatchesTerm(searchTerm)) <==> s in toFilter && MatchesTerm(searchTerm)(s) {
          FilterMembership(toFilter, MatchesTerm(searchTerm), s);
        }
        toFilter := Filter(toFilter, MatchesTerm(searchTerm));
      } else {
        IsSubsequenceRefl(toFilter);
      }
      r := toFilter;
    }
  }
}
