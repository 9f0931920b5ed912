/** The read-only selections and totals over surveys that the store's
    statistics, the dashboards, the survey list and the profile pages all
    compute with the same filter and reduce expressions. */
module SurveyQueries {
  import opened Wrappers
  import opened SurveyTypes
  import opened Seqs

  /** The identifiers of `ss`, in order. */
  function SurveyIds(ss: seq<Survey>): (ids: seq<string>)
    ensures |ids| == |ss|
    ensures forall i :: 0 <= i < |ss| ==> ids[i] == ss[i].id
  {
    seq(|ss|, i requires 0 <= i < |ss| => ss[i].id)
  }

  lemma SurveyIdsConcat(a: seq<Survey>, b: seq<Survey>)
    ensures SurveyIds(a + b) == SurveyIds(a) + SurveyIds(b)
  {
  }

  /** The selector `s => s.id === id`. */
  function HasId(id: string): Survey -> bool {
    (s: Survey) => s.id == id
  }

  /** The selector `s => s.companyId === companyId`. */
  function OfCompany(companyId: string): Survey -> bool {
    (s: Survey) => s.companyId == companyId
  }

  predicate IsActive(s: Survey) {
    s.isActive
  }

  /** `surveys.filter(s => s.isActive)`. */
  function ActiveSurveys(ss: seq<Survey>): (r: seq<Survey>)
    ensures |r| <= |ss|
    ensures forall i :: 0 <= i < |r| ==> r[i].isActive
  {
    Filter(ss, IsActive)
  }

  /** The list holds exactly the active surveys, in their order. */
  lemma ActiveSurveysExact(ss: seq<Survey>, s: Survey)
    ensures s in ActiveSurveys(ss) <==> s in ss && s.isActive
    ensures IsSubsequence(ActiveSurveys(ss), ss)
  {
    FilterMembership(ss, IsActive, s);
    FilterIsSubsequence(ss, IsActive);
  }

  /** `surveys.filter(s => s.companyId === companyId)`. */
  function CompanySurveys(ss: seq<Survey>, companyId: string): (r: seq<Survey>)
    ensures |r| <= |ss|
    ensures forall i :: 0 <= i < |r| ==> r[i].companyId == companyId
  {
    Filter(ss, OfCompany(companyId))
  }

  /** The list holds exactly the surveys of the company, in their order. */
  lemma CompanySurveysExact(ss: seq<Survey>, companyId: string, s: Survey)
    ensures s in CompanySurveys(ss, companyId) <==> s in ss && s.companyId == companyId
    ensures IsSubsequence(CompanySurveys(ss, companyId), ss)
  {
    FilterMembership(ss, OfCompany(companyId), s);
    FilterIsSubsequence(ss, OfCompany(companyId));
  }

  /** One step of the company filter. */
  lemma {:induction false} CompanySurveysCons(ss: seq<Survey>, companyId: string)
    requires ss != []
    ensures CompanySurveys(ss, companyId) ==
      (if ss[0].companyId == companyId then [ss[0]] else []) + CompanySurveys(ss[1..], companyId)
  {
  }

  /** The first survey with identifier `id`, as `surveys.find` returns it. */
  function FindSurvey(ss: seq<Survey>, id: string): (r: Option<Survey>)
    ensures r.Some? ==> r.value in ss && r.value.id == id
    ensures r.None? <==> id !in SurveyIds(ss)
  {
    var r := Find(ss, HasId(id));
    assert r.None? ==> id !in SurveyIds(ss);
    r
  }

  /** A one-step unfolding of the search, for inductive proofs. */
  lemma FindSurveyCons(ss: seq<Survey>, id: string)
    requires ss != []
    ensures FindSurvey(ss, id) == if ss[0].id == id then Some(ss[0]) else FindSurvey(ss[1..], id)
  {
    FindCons(ss, HasId(id));
  }

  function ResponseCount(s: Survey): int {
    |s.responses|
  }

  /** What a survey has paid out: responses times the reward per response. */
  function RewardsPaid(s: Survey): real {
    |s.responses| as real * s.rewardPerResponse
  }

  function RewardPerResponse(s: Survey): real {
    s.rewardPerResponse
  }

  /** The response counts of `ss`, added up; never negative. */
  function TotalResponses(ss: seq<Survey>): (n: int)
    ensures n >= 0
  {
    NonNegativeSum(ss);
    SumInt(ss, ResponseCount)
  }

  lemma {:induction false} NonNegativeSum(ss: seq<Survey>)
    ensures SumInt(ss, ResponseCount) >= 0
  {
    if ss != [] {
      NonNegativeSum(ss[1..]);
    }
  }

  /** The sum of responses times reward over `ss`. */
  function TotalRewardsPaid(ss: seq<Survey>): real {
    SumReal(ss, RewardsPaid)
  }

  /** The sum of `rewardPerResponse` over `ss`. */
  function TotalRewardOffered(ss: seq<Survey>): real {
    SumReal(ss, RewardPerResponse)
  }

  /** The active surveys of a company are among its surveys, and those are
      among all surveys: active <= total <= |surveys|. */
  lemma {:induction false} ActiveCompanySurveysBounded(ss: seq<Survey>, companyId: string)
    ensures |ActiveSurveys(CompanySurveys(ss, companyId))| <= |CompanySurveys(ss, companyId)| <= |ss|
    ensures IsSubsequence(ActiveSurveys(CompanySurveys(ss, companyId)), CompanySurveys(ss, companyId))
    ensures IsSubsequence(CompanySurveys(ss, companyId), ss)
  {
    FilterIsSubsequence(ss, OfCompany(companyId));
    FilterIsSubsequence(CompanySurveys(ss, companyId), IsActive);
  }
}
