/** The survey and company store: two append-only collections and the
    pointer to the company that is signed in, with the operations the
    provider exposes to the pages. */
module SurveyContext {
  import opened Wrappers
  import opened SurveyTypes
  import opened Strings
  import opened Seqs
  import opened SurveyQueries

  /** The error `registerCompany` throws. */
  datatype StoreError = CompanyEmailTaken

  /** A survey as a page hands it to `addSurvey`: everything except the
      identifier, the creation time and the responses. */
  datatype SurveyDraft = SurveyDraft(
    title: string,
    description: string,
    companyId: string,
    companyName: string,
    questions: seq<Question>,
    expiresAt: Option<string>,
    isActive: bool,
    packageType: PackageType,
    maxQuestions: int,
    rewardPerResponse: real)

  /** A company as handed to `addCompany`. */
  datatype CompanyDraft = CompanyDraft(name: string, email: string, subscription: string)

  /** A response as handed to `addResponse`: no identifier, no completion time. */
  datatype ResponseDraft = ResponseDraft(
    surveyId: string,
    userId: string,
    answers: map<string, Answer>,
    rewardClaimed: bool)

  /** `Partial<Survey>`: `None` is a key the update object does not carry.
      For the expiry, `Some(None)` is the key carried with the value
      `undefined`, which the object spread copies over the old expiry. */
  datatype SurveyPatch = SurveyPatch(
    id: Option<string>,
    title: Option<string>,
    description: Option<string>,
    companyId: Option<string>,
    companyName: Option<string>,
    questions: Option<seq<Question>>,
    responses: Option<seq<SurveyResponse>>,
    createdAt: Option<string>,
    expiresAt: Option<Option<string>>,
    isActive: Option<bool>,
    packageType: Option<PackageType>,
    maxQuestions: Option<int>,
    rewardPerResponse: Option<real>)

  const NoChanges: SurveyPatch :=
    SurveyPatch(None, None, None, None, None, None, None, None, None, None, None, None, None)

  datatype CompanyStats = CompanyStats(totalSurveys: int, totalResponses: int, totalRewardsPaid: real)

  function CompanyIds(cs: seq<Company>): (ids: seq<string>)
    ensures |ids| == |cs|
    ensures forall i :: 0 <= i < |cs| ==> ids[i] == cs[i].id
  {
    seq(|cs|, i requires 0 <= i < |cs| => cs[i].id)
  }

  /** The selector `c => c.email.toLowerCase() === email.toLowerCase()`. */
  function EmailMatches(email: string): Company -> bool {
    (c: Company) => EqualsIgnoreCase(c.email, email)
  }

  /** The first company whose email equals `email` ignoring case. */
  function FindCompanyByEmail(cs: seq<Company>, email: string): (r: Option<Company>)
    ensures r.Some? ==> r.value in cs && EqualsIgnoreCase(r.value.email, email)
    ensures r.Some? ==>
      exists i :: 0 <= i < |cs| && cs[i] == r.value && forall j :: 0 <= j < i ==> !EqualsIgnoreCase(cs[j].email, email)
    ensures r.None? <==> forall i :: 0 <= i < |cs| ==> !EqualsIgnoreCase(cs[i].email, email)
  {
    Find(cs, EmailMatches(email))
  }

  /** Some company already has the email, ignoring case. */
  function EmailTaken(cs: seq<Company>, email: string): (b: bool)
    ensures b <==> exists i :: 0 <= i < |cs| && EqualsIgnoreCase(cs[i].email, email)
  {
    FindCompanyByEmail(cs, email).Some?
  }

  /** The draft a stored survey could have been made from: every field but
      the identifier, the responses and the creation time. */
  function DraftOf(s: Survey): SurveyDraft {
    SurveyDraft(s.title, s.description, s.companyId, s.companyName, s.questions,
      s.expiresAt, s.isActive, s.packageType, s.maxQuestions, s.rewardPerResponse)
  }

  /** `{ ...surveyData, id, createdAt, responses: [] }`: the draft's fields
      under the fresh identifier and the creation time, with no responses. */
  function NewSurvey(d: SurveyDraft, id: string, now: string): (s: Survey)
    ensures DraftOf(s) == d
    ensures s.id == id && s.responses == [] && s.createdAt == now
  {
    Survey(id, d.title, d.description, d.companyId, d.companyName, d.questions, [], now,
      d.expiresAt, d.isActive, d.packageType, d.maxQuestions, d.rewardPerResponse)
  }

  /** `companies.map(...)` adding `surveyId` to the survey list of every
      company whose id is `companyId`. */
  function AttachSurvey(cs: seq<Company>, companyId: string, surveyId: string): (r: seq<Company>)
    ensures CompanyIds(r) == CompanyIds(cs)
    ensures forall i :: 0 <= i < |cs| ==>
      r[i].surveys == cs[i].surveys + (if cs[i].id == companyId then [surveyId] else [])
      && r[i].(surveys := cs[i].surveys) == cs[i]
  {
    seq(|cs|, i requires 0 <= i < |cs| =>
      if cs[i].id == companyId then cs[i].(surveys := cs[i].surveys + [surveyId]) else cs[i])
  }

  /** `{ ...survey, ...updates }`. */
  function Merge(s: Survey, p: SurveyPatch): Survey {
    Survey(
      p.id.GetOr(s.id),
      p.title.GetOr(s.title),
      p.description.GetOr(s.description),
      p.companyId.GetOr(s.companyId),
      p.companyName.GetOr(s.companyName),
      p.questions.GetOr(s.questions),
      p.responses.GetOr(s.responses),
      p.createdAt.GetOr(s.createdAt),
      p.expiresAt.GetOr(s.expiresAt),
      p.isActive.GetOr(s.isActive),
      p.packageType.GetOr(s.packageType),
      p.maxQuestions.GetOr(s.maxQuestions),
      p.rewardPerResponse.GetOr(s.rewardPerResponse))
  }

  /** An empty update changes nothing, and applying the same update twice
      is applying it once. */
  lemma {:induction false} MergeLaws(s: Survey, p: SurveyPatch)
    ensures Merge(s, NoChanges) == s
    ensures Merge(Merge(s, p), p) == Merge(s, p)
  {
  }

  /** `surveys.map(s => s.id === id ? { ...s, ...updates } : s)`. */
  function UpdatedSurveys(ss: seq<Survey>, id: string, p: SurveyPatch): (r: seq<Survey>)
    ensures |r| == |ss|
    ensures forall i :: 0 <= i < |ss| ==> r[i] == if ss[i].id == id then Merge(ss[i], p) else ss[i]
  {
    seq(|ss|, i requires 0 <= i < |ss| => if ss[i].id == id then Merge(ss[i], p) else ss[i])
  }

  /** An update for an unknown id is a silent no-op; one that carries no
      new id keeps every identifier in place. */
  lemma {:induction false} UpdatedSurveysFacts(ss: seq<Survey>, id: string, p: SurveyPatch)
    ensures id !in SurveyIds(ss) ==> UpdatedSurveys(ss, id, p) == ss
    ensures p.id.None? ==> SurveyIds(UpdatedSurveys(ss, id, p)) == SurveyIds(ss)
  {
    if id !in SurveyIds(ss) {
      assert forall i :: 0 <= i < |ss| ==> ss[i].id != id by {
        assert forall i :: 0 <= i < |ss| ==> SurveyIds(ss)[i] == ss[i].id;
      }
    }
  }

  function WithResponse(s: Survey, r: SurveyResponse): Survey {
    if s.id == r.surveyId then s.(responses := s.responses + [r]) else s
  }

  /** `surveys.map(...)` appending `r` to the responses of the survey(s)
      whose id is `r.surveyId`. */
  function AppendResponse(ss: seq<Survey>, r: SurveyResponse): (out: seq<Survey>)
    ensures SurveyIds(out) == SurveyIds(ss)
    ensures forall i :: 0 <= i < |ss| ==>
      out[i].responses == ss[i].responses + (if ss[i].id == r.surveyId then [r] else [])
      && out[i].(responses := ss[i].responses) == ss[i]
  {
    seq(|ss|, i requires 0 <= i < |ss| => WithResponse(ss[i], r))
  }

  lemma {:induction false} AppendResponseTail(ss: seq<Survey>, r: SurveyResponse)
    requires ss != []
    ensures AppendResponse(ss, r) == [WithResponse(ss[0], r)] + AppendResponse(ss[1..], r)
  {
  }

  /** A response for a survey that does not exist is dropped silently. */
  lemma {:induction false} AppendResponseUnknown(ss: seq<Survey>, r: SurveyResponse)
    requires r.surveyId !in SurveyIds(ss)
    ensures AppendResponse(ss, r) == ss
  {
    assert forall i :: 0 <= i < |ss| ==> SurveyIds(ss)[i] == ss[i].id;
    assert forall i :: 0 <= i < |ss| ==> WithResponse(ss[i], r) == ss[i];
  }

  /** `getCompanyStats(companyId)`. */
  function Stats(ss: seq<Survey>, companyId: string): (st: CompanyStats)
    ensures 0 <= st.totalSurveys <= |ss|
    ensures st.totalResponses >= 0
  {
    var cs := CompanySurveys(ss, companyId);
    CompanyStats(|cs|, TotalResponses(cs), TotalRewardsPaid(cs))
  }

  /** What one survey adds to its company's statistics. */
  function Contribution(s: Survey, companyId: string): CompanyStats {
    if s.companyId == companyId then CompanyStats(1, |s.responses|, RewardsPaid(s))
    else CompanyStats(0, 0, 0.0)
  }

  function Plus(a: CompanyStats, b: CompanyStats): CompanyStats {
    CompanyStats(a.totalSurveys + b.totalSurveys, a.totalResponses + b.totalResponses,
      a.totalRewardsPaid + b.totalRewardsPaid)
  }

  lemma PlusAssociative(a: CompanyStats, b: CompanyStats, c: CompanyStats)
    ensures Plus(a, Plus(b, c)) == Plus(Plus(a, b), c)
  {
  }

  lemma PlusRegroup(a: CompanyStats, d: CompanyStats, b: CompanyStats)
    ensures Plus(Plus(a, d), b) == Plus(Plus(a, b), d)
  {
  }

  /** The statistics are additive over the survey list, one survey at a time. */
  lemma {:induction false} StatsCons(ss: seq<Survey>, companyId: string)
    requires ss != []
    ensures Stats(ss, companyId) == Plus(Contribution(ss[0], companyId), Stats(ss[1..], companyId))
  {
    CompanySurveysCons(ss, companyId);
    var tail := CompanySurveys(ss[1..], companyId);
    if ss[0].companyId == companyId {
      var cs := [ss[0]] + tail;
      assert cs[0] == ss[0] && cs[1..] == tail;
      assert SumInt(cs, ResponseCount) == ResponseCount(ss[0]) + SumInt(tail, ResponseCount);
      assert SumReal(cs, RewardsPaid) == RewardsPaid(ss[0]) + SumReal(tail, RewardsPaid);
    } else {
      assert [] + tail == tail;
    }
  }

  /** Statistics for a company with no surveys are all zero. */
  lemma {:induction false} StatsEmpty(companyId: string)
    ensures Stats([], companyId) == CompanyStats(0, 0, 0.0)
  {
  }

  /** The store's worked example: two surveys of one company with 2 and 0
      responses paying 5 and 3 per response give 2 surveys, 2 responses and
      10 paid out. */
  lemma {:induction false} StatsExample(a: Survey, b: Survey, companyId: string)
    requires a.companyId == companyId && |a.responses| == 2 && a.rewardPerResponse == 5.0
    requires b.companyId == companyId && |b.responses| == 0 && b.rewardPerResponse == 3.0
    ensures Stats([a, b], companyId) == CompanyStats(2, 2, 10.0)
  {
    assert Stats([b], companyId) == CompanyStats(1, 0, 0.0) by {
      StatsCons([b], companyId);
      assert [b][1..] == [];
      StatsEmpty(companyId);
    }
    assert Contribution(a, companyId) == CompanyStats(1, 2, 10.0);
    assert Stats([a, b], companyId) == Plus(Contribution(a, companyId), Stats([b], companyId)) by {
      StatsCons([a, b], companyId);
      assert [a, b][1..] == [b];
    }
  }

  /** A response moves exactly one survey's numbers: the owner of the
      survey it answers gains one response and that survey's reward; nobody
      gains a survey, and every other company is unaffected. */
  lemma {:induction false} StatsAfterResponse(ss: seq<Survey>, r: SurveyResponse, companyId: string)
    requires NoDup(SurveyIds(ss))
    ensures Stats(AppendResponse(ss, r), companyId) == Plus(Stats(ss, companyId), Gain(ss, r, companyId))
  {
    if ss != [] {
      assert SurveyIds(ss[1..]) == SurveyIds(ss)[1..];
      if ss[0].id == r.surveyId {
        ResponseAtHead(ss, r, companyId);
      } else {
        StatsAfterResponse(ss[1..], r, companyId);
        ResponseBehindHead(ss, r, companyId);
      }
    }
  }

  /** What a response adds to a company's statistics: one response and the
      reward of the survey it answers, when the company owns that survey. */
  function Gain(ss: seq<Survey>, r: SurveyResponse, companyId: string): CompanyStats {
    var t := FindSurvey(ss, r.surveyId);
    if t.Some? && t.value.companyId == companyId then CompanyStats(0, 1, t.value.rewardPerResponse)
    else CompanyStats(0, 0, 0.0)
  }

  lemma {:induction false} ResponseAtHead(ss: seq<Survey>, r: SurveyResponse, companyId: string)
    requires ss != [] && ss[0].id == r.surveyId && NoDup(SurveyIds(ss))
    ensures Stats(AppendResponse(ss, r), companyId) == Plus(Stats(ss, companyId), Gain(ss, r, companyId))
  {
    var h, rest := ss[0], ss[1..];
    var out := AppendResponse(ss, r);
    assert out[0] == WithResponse(h, r) && out[1..] == AppendResponse(rest, r) by {
      AppendResponseTail(ss, r);
    }
    assert r.surveyId !in SurveyIds(rest) by {
      assert forall k :: 0 <= k < |rest| ==> SurveyIds(ss)[k + 1] == rest[k].id;
      assert SurveyIds(ss)[0] == r.surveyId;
    }
    AppendResponseUnknown(rest, r);
    FindSurveyCons(ss, r.surveyId);
    var d := Gain(ss, r, companyId);
    assert Stats(out, companyId) == Plus(Contribution(WithResponse(h, r), companyId), Stats(rest, companyId)) by {
      StatsCons(out, companyId);
    }
    assert Contribution(WithResponse(h, r), companyId) == Plus(Contribution(h, companyId), d) by {
      ContributionAfterResponse(h, r, companyId);
    }
    StatsCons(ss, companyId);
    PlusRegroup(Contribution(h, companyId), d, Stats(rest, companyId));
  }

  lemma {:induction false} ResponseBehindHead(ss: seq<Survey>, r: SurveyResponse, companyId: string)
    requires ss != [] && ss[0].id != r.surveyId
    requires Stats(AppendResponse(ss[1..], r), companyId) ==
      Plus(Stats(ss[1..], companyId), Gain(ss[1..], r, companyId))
    ensures Stats(AppendResponse(ss, r), companyId) == Plus(Stats(ss, companyId), Gain(ss, r, companyId))
  {
    var h, rest := ss[0], ss[1..];
    var out := AppendResponse(ss, r);
    assert out[0] == h && out[1..] == AppendResponse(rest, r) by {
      AppendResponseTail(ss, r);
    }
    assert Gain(ss, r, companyId) == Gain(rest, r, companyId) by {
      FindSurveyCons(ss, r.surveyId);
    }
    assert Stats(out, companyId) == Plus(Contribution(h, companyId), Stats(AppendResponse(rest, r), companyId)) by {
      StatsCons(out, companyId);
    }
    StatsCons(ss, companyId);
    PlusAssociative(Contribution(h, companyId), Stats(rest, companyId), Gain(rest, r, companyId));
  }

  /** A response to `s` itself adds one response and one reward to what
      `s` contributes to its owner. */
  lemma ContributionAfterResponse(s: Survey, r: SurveyResponse, companyId: string)
    requires s.id == r.surveyId
    ensures Contribution(WithResponse(s, r), companyId) ==
      Plus(Contribution(s, companyId), Gain([s], r, companyId))
  {
    var n := |s.responses| as real;
    FindSurveyCons([s], r.surveyId);
    assert |WithResponse(s, r).responses| as real == n + 1.0;
    assert (n + 1.0) * s.rewardPerResponse == n * s.rewardPerResponse + s.rewardPerResponse;
  }

  /** A new survey counts once for its own company and adds no responses. */
  lemma {:induction false} StatsAfterAddSurvey(ss: seq<Survey>, s: Survey, companyId: string)
    requires s.responses == []
    ensures Stats(ss + [s], companyId) ==
      Plus(Stats(ss, companyId), CompanyStats(if s.companyId == companyId then 1 else 0, 0, 0.0))
  {
    var d := CompanyStats(if s.companyId == companyId then 1 else 0, 0, 0.0);
    if ss == [] {
      StatsSingle(ss, s, companyId);
    } else {
      var h, rest := ss[0], ss[1..];
      assert Stats(ss + [s], companyId) == Plus(Contribution(h, companyId), Stats(rest + [s], companyId)) by {
        StatsCons(ss + [s], companyId);
        assert (ss + [s])[0] == h && (ss + [s])[1..] == rest + [s];
      }
      assert Stats(rest + [s], companyId) == Plus(Stats(rest, companyId), d) by {
        StatsAfterAddSurvey(rest, s, companyId);
      }
      assert Stats(ss, companyId) == Plus(Contribution(h, companyId), Stats(rest, companyId)) by {
        StatsCons(ss, companyId);
      }
      PlusAssociative(Contribution(h, companyId), Stats(rest, companyId), d);
    }
  }

  lemma {:induction false} StatsSingle(ss: seq<Survey>, s: Survey, companyId: string)
    requires ss == []
    ensures Stats(ss + [s], companyId) == Plus(Contribution(s, companyId), CompanyStats(0, 0, 0.0))
  {
    var xs := ss + [s];
    StatsCons(xs, companyId);
    assert xs[0] == s;
    assert xs[1..] == [];
    StatsEmpty(companyId);
  }

  /** A new survey is found under its id, and every other lookup is as before. */
  lemma {:induction false} FindAfterAppend(ss: seq<Survey>, s: Survey, id: string)
    requires s.id !in SurveyIds(ss)
    ensures FindSurvey(ss + [s], s.id) == Some(s)
    ensures id != s.id ==> FindSurvey(ss + [s], id) == FindSurvey(ss, id)
  {
    assert forall j :: 0 <= j < |ss| ==> !HasId(s.id)(ss[j]) by {
      assert forall j :: 0 <= j < |ss| ==> SurveyIds(ss)[j] == ss[j].id;
    }
    FindAppendFresh(ss, s, HasId(s.id));
    if id != s.id {
      if id in SurveyIds(ss) {
        var j :| 0 <= j < |ss| && SurveyIds(ss)[j] == id;
        assert HasId(id)(ss[j]);
        FindAppendKnown(ss, s, HasId(id));
      } else {
        assert SurveyIds(ss + [s]) == SurveyIds(ss) + [s.id];
      }
    }
  }

  /** Every survey id a company lists names an existing survey. */
  predicate ListsResolve(cs: seq<Company>, ss: seq<Survey>) {
    forall i, k :: 0 <= i < |cs| && 0 <= k < |cs[i].surveys| ==> cs[i].surveys[k] in SurveyIds(ss)
  }

  /** Adding a survey and listing it under a company keeps identifiers
      unique and every listed id resolvable. */
  lemma {:induction false} AttachKeepsLists(cs: seq<Company>, ss: seq<Survey>, companyId: string, s: Survey)
    requires s.id !in SurveyIds(ss)
    ensures NoDup(SurveyIds(ss)) ==> NoDup(SurveyIds(ss + [s]))
    ensures ListsResolve(cs, ss) ==> ListsResolve(AttachSurvey(cs, companyId, s.id), ss + [s])
  {
    SurveyIdsConcat(ss, [s]);
    var ids := SurveyIds(ss + [s]);
    assert ids == SurveyIds(ss) + [s.id];
    assert forall x :: x in SurveyIds(ss) ==> x in ids;
    if ListsResolve(cs, ss) {
      var out := AttachSurvey(cs, companyId, s.id);
      forall i, k | 0 <= i < |out| && 0 <= k < |out[i].surveys|
        ensures out[i].surveys[k] in ids
      {
        if k < |cs[i].surveys| {
          assert out[i].surveys[k] == cs[i].surveys[k];
        } else {
          assert out[i].surveys[k] == s.id;
        }
      }
    }
  }

  class SurveyStore {
    var surveys: seq<Survey>
    var companies: seq<Company>
    var currentCompany: Option<Company>

    /** Identifiers are unique in both collections, and a company's survey
        list only names surveys that exist. */
    predicate Valid()
      reads this
    {
      NoDup(SurveyIds(surveys)) && NoDup(CompanyIds(companies)) && ListsResolve(companies, surveys)
    }

    constructor ()
      ensures surveys == [] && companies == [] && currentCompany == None
      ensures Valid()
    {
      surveys := [];
      companies := [];
      currentCompany := None;
    }

    /** `loginCompany`: the password is not looked at; the first company
        whose email matches ignoring case is signed in and returned, and
        without a match nothing changes. */
    method LoginCompany(email: string, password: string) returns (r: Option<Company>)
      modifies this
      ensures r == FindCompanyByEmail(companies, email)
      ensures surveys == old(surveys) && companies == old(companies)
      ensures currentCompany == if r.Some? then r else old(currentCompany)
    {
      r := FindCompanyByEmail(companies, email);
      if r.Some? {
        currentCompany := r;
      }
    }

    /** `registerCompany`: a taken email (ignoring case) fails and changes
        nothing; otherwise one company with no surveys and the given
        subscription is appended and signed in, and its id returned. */
    method RegisterCompany(name: string, email: string, password: string, subscription: string,
                           freshId: string, now: string)
      returns (r: Result<string, StoreError>)
      requires freshId !in CompanyIds(companies)
      modifies this
      ensures surveys == old(surveys)
      ensures EmailTaken(old(companies), email) ==>
        r == Failure(CompanyEmailTaken) && companies == old(companies)
        && currentCompany == old(currentCompany)
      ensures !EmailTaken(old(companies), email) ==>
        var c := Company(freshId, name, email, subscription, [], now);
        r == Success(freshId) && companies == old(companies) + [c] && currentCompany == Some(c)
      ensures old(Valid()) ==> Valid()
    {
      if EmailTaken(companies, email) {
        return Failure(CompanyEmailTaken);
      }
      var c := Company(freshId, name, email, subscription, [], now);
      assert CompanyIds(companies + [c]) == CompanyIds(companies) + [freshId];
      ghost var before := companies;
      companies := companies + [c];
      currentCompany := Some(c);
      assert forall i :: 0 <= i < |before| ==> companies[i] == before[i];
      r := Success(freshId);
    }

    /** `addSurvey`: one survey with the fresh id and no responses is
        appended and its id is added to the list of the company it names.
        The signed-in company record is left as it was. */
    method AddSurvey(draft: SurveyDraft, freshId: string, now: string) returns (id: string)
      requires freshId !in SurveyIds(surveys)
      modifies this
      ensures id == freshId
      ensures surveys == old(surveys) + [NewSurvey(draft, freshId, now)]
      ensures companies == AttachSurvey(old(companies), draft.companyId, freshId)
      ensures currentCompany == old(currentCompany)
      ensures old(Valid()) ==> Valid()
    {
      var s := NewSurvey(draft, freshId, now);
      AttachKeepsLists(companies, surveys, draft.companyId, s);
      surveys := surveys + [s];
      companies := AttachSurvey(companies, draft.companyId, freshId);
      id := freshId;
    }

    /** `updateSurvey`: the update is merged into the survey(s) with the
        id, length and order are kept, and an unknown id changes nothing. */
    method UpdateSurvey(id: string, updates: SurveyPatch)
      modifies this
      ensures surveys == UpdatedSurveys(old(surveys), id, updates)
      ensures companies == old(companies) && currentCompany == old(currentCompany)
      ensures old(Valid()) && updates.id.None? ==> Valid()
    {
      UpdatedSurveysFacts(surveys, id, updates);
      surveys := UpdatedSurveys(surveys, id, updates);
    }

    /** `getSurvey`: the first survey with the id, or nothing. */
    function GetSurvey(id: string): (r: Option<Survey>)
      reads this
      ensures r.Some? ==> r.value in surveys && r.value.id == id
      ensures r.None? <==> id !in SurveyIds(surveys)
    {
      FindSurvey(surveys, id)
    }

    /** `addCompany`: appended with a fresh id and no surveys, no duplicate
        check and no change of the signed-in company. */
    method AddCompany(draft: CompanyDraft, freshId: string, now: string) returns (id: string)
      requires freshId !in CompanyIds(companies)
      modifies this
      ensures id == freshId
      ensures companies == old(companies) + [Company(freshId, draft.name, draft.email, draft.subscription, [], now)]
      ensures surveys == old(surveys) && currentCompany == old(currentCompany)
      ensures old(Valid()) ==> Valid()
    {
      var c := Company(freshId, draft.name, draft.email, draft.subscription, [], now);
      assert CompanyIds(companies + [c]) == CompanyIds(companies) + [freshId];
      ghost var before := companies;
      companies := companies + [c];
      id := freshId;
      assert forall i :: 0 <= i < |before| ==> companies[i] == before[i];
    }

    /** `addResponse`: the response, given its id and completion time, is
        appended to the matching survey's responses; nothing else moves. */
    method AddResponse(draft: ResponseDraft, freshId: string, now: string)
      modifies this
      ensures surveys == AppendResponse(old(surveys),
        SurveyResponse(freshId, draft.surveyId, draft.userId, draft.answers, now, draft.rewardClaimed))
      ensures companies == old(companies) && currentCompany == old(currentCompany)
      ensures old(Valid()) ==> Valid()
    {
      var r := SurveyResponse(freshId, draft.surveyId, draft.userId, draft.answers, now, draft.rewardClaimed);
      surveys := AppendResponse(surveys, r);
    }

    /** `setCurrentCompany`, as the profile page and sign-out call it. */
    method SetCurrentCompany(c: Option<Company>)
      modifies this
      ensures currentCompany == c
      ensures surveys == old(surveys) && companies == old(companies)
    {
      currentCompany := c;
    }

    /** `getCompanyStats`. */
    function GetCompanyStats(companyId: string): (st: CompanyStats)
      reads this
      ensures st == Stats(surveys, companyId)
    {
      Stats(surveys, companyId)
    }
  }
}
