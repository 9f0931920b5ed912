/** The charts on a company's dashboard: one bar per survey, the package
    distribution and the running survey count. */
module DashboardStats {
  import opened Wrappers
  import opened SurveyTypes
  import opened Strings
  import opened Seqs
  import opened SurveyQueries
  import opened SurveyContext

  /** A chart label: titles longer than 15 characters are cut to 15 and
      marked with "...". */
  function Truncated(title: string): (r: string)
    ensures |title| <= 15 ==> r == title
    ensures |title| > 15 ==> r == title[..15] + "..." && |r| == 18
    ensures |r| <= 18
  {
    if |title| > 15 then title[..15] + "..." else title
  }

  datatype SurveyBar = SurveyBar(name: string, responses: int, rewards: real, questions: int)

  /** `surveyData`: one bar per company survey, in order. */
  function SurveyData(cs: seq<Survey>): (bars: seq<SurveyBar>)
    ensures |bars| == |cs|
    ensures forall i :: 0 <= i < |cs| ==>
      bars[i] == SurveyBar(Truncated(cs[i].title), |cs[i].responses|, RewardsPaid(cs[i]), |cs[i].questions|)
  {
    seq(|cs|, i requires 0 <= i < |cs| =>
      SurveyBar(Truncated(cs[i].title), |cs[i].responses|, RewardsPaid(cs[i]), |cs[i].questions|))
  }

  function BarRewards(b: SurveyBar): real {
    b.rewards
  }

  function BarResponses(b: SurveyBar): int {
    b.responses
  }

  lemma {:induction false} BarSums(cs: seq<Survey>)
    ensures SumReal(SurveyData(cs), BarRewards) == TotalRewardsPaid(cs)
    ensures SumInt(SurveyData(cs), BarResponses) == TotalResponses(cs)
  {
    if cs != [] {
      assert SurveyData(cs)[1..] == SurveyData(cs[1..]);
      BarSums(cs[1..]);
    }
  }

  /** The bars' rewards and responses add up to the store's statistics for
      the company. */
  lemma BarsMatchStats(ss: seq<Survey>, companyId: string)
    ensures SumReal(SurveyData(CompanySurveys(ss, companyId)), BarRewards) == Stats(ss, companyId).totalRewardsPaid
    ensures SumInt(SurveyData(CompanySurveys(ss, companyId)), BarResponses) == Stats(ss, companyId).totalResponses
    ensures |SurveyData(CompanySurveys(ss, companyId))| == Stats(ss, companyId).totalSurveys
  {
    BarSums(CompanySurveys(ss, companyId));
  }

  datatype PackageCount = PackageCount(name: PackageType, count: int)

  function PackageTypes(cs: seq<Survey>): (ts: seq<PackageType>)
    ensures |ts| == |cs|
    ensures forall i :: 0 <= i < |cs| ==> ts[i] == cs[i].packageType
  {
    seq(|cs|, i requires 0 <= i < |cs| => cs[i].packageType)
  }

  function EntryNamed(t: PackageType): PackageCount -> bool {
    (e: PackageCount) => e.name == t
  }

  /** `data` is the distribution of `s`: one entry per distinct package
      in first-appearance order, holding its number of occurrences. */
  predicate Distribution(data: seq<PackageCount>, s: seq<PackageType>) {
    |data| == |Dedup(s)|
    && forall j :: 0 <= j < |data| ==> data[j].name == Dedup(s)[j] && data[j].count == Count(s, data[j].name)
  }

  lemma {:induction false} BumpStep(data: seq<PackageCount>, s: seq<PackageType>, t: PackageType, j: int)
    requires Distribution(data, s)
    requires 0 <= j < |data| && data[j].name == t
    ensures Distribution(data[j := PackageCount(t, data[j].count + 1)], s + [t])
  {
    assert t in s by {
      assert Dedup(s)[j] == t;
    }
    DedupSnoc(s, t);
    var out := data[j := PackageCount(t, data[j].count + 1)];
    forall k | 0 <= k < |out|
      ensures out[k].name == Dedup(s + [t])[k] && out[k].count == Count(s + [t], out[k].name)
    {
      CountSnoc(s, t, out[k].name);
      if k != j {
        assert data[k].name != t by {
          assert Dedup(s)[k] != Dedup(s)[j];
        }
      }
    }
  }

  lemma {:induction false} PushStep(data: seq<PackageCount>, s: seq<PackageType>, t: PackageType)
    requires Distribution(data, s)
    requires forall j :: 0 <= j < |data| ==> data[j].name != t
    ensures Distribution(data + [PackageCount(t, 1)], s + [t])
  {
    assert t !in Dedup(s) by {
      assert forall j :: 0 <= j < |Dedup(s)| ==> Dedup(s)[j] == data[j].name;
    }
    assert t !in s;
    DedupSnoc(s, t);
    CountSnoc(s, t, t);
    var out := data + [PackageCount(t, 1)];
    forall k | 0 <= k < |data|
      ensures out[k].name == Dedup(s + [t])[k] && out[k].count == Count(s + [t], out[k].name)
    {
      CountSnoc(s, t, data[k].name);
    }
  }

  /** `packageData`: the reduce that bumps the entry for a survey's package
      or pushes a new one. The entries name each package in the order it
      first appears, count its surveys, and add up to the number of surveys. */
  method PackageDistribution(cs: seq<Survey>) returns (data: seq<PackageCount>)
    ensures Distribution(data, PackageTypes(cs))
    ensures forall i, j :: 0 <= i < j < |data| ==> AppearsBefore(PackageTypes(cs), data[i].name, data[j].name)
    ensures SumCounts(Dedup(PackageTypes(cs)), PackageTypes(cs)) == |cs|
  {
    var ts := PackageTypes(cs);
    data := [];
    for i := 0 to |cs|
      invariant Distribution(data, ts[..i])
    {
      var t := cs[i].packageType;
      assert ts[..i + 1] == ts[..i] + [t];
      var existing := FirstIndex(data, EntryNamed(t));
      if existing.Some? {
        var j := existing.value;
        BumpStep(data, ts[..i], t, j);
        data := data[j := PackageCount(t, data[j].count + 1)];
      } else {
        PushStep(data, ts[..i], t);
        data := data + [PackageCount(t, 1)];
      }
    }
    assert ts[..|cs|] == ts;
    DedupCountsSum(ts);
    forall i, j | 0 <= i < j < |data|
      ensures AppearsBefore(ts, data[i].name, data[j].name)
    {
      DedupFirstAppearance(ts, i, j);
    }
  }

  datatype MonthPoint = MonthPoint(month: string, surveys: int, responses: int)

  /** `monthlyData`: the i-th point is labelled "Month i+1" and counts i+1
      surveys, whatever the surveys' creation dates. */
  function MonthlyData(cs: seq<Survey>): (ps: seq<MonthPoint>)
    ensures |ps| == |cs|
    ensures forall i :: 0 <= i < |cs| ==>
      ps[i].surveys == i + 1 && ps[i].responses == |cs[i].responses|
      && ps[i].month == "Month " + NatToString(i + 1)
  {
    seq(|cs|, i requires 0 <= i < |cs| => MonthPoint("Month " + NatToString(i + 1), i + 1, |cs[i].responses|))
  }

  /** The charts appear only for a company with at least one survey. */
  predicate HasData(ss: seq<Survey>, companyId: string) {
    |CompanySurveys(ss, companyId)| > 0
  }

  /** The charts appear exactly when the store's statistics count a survey
      for the company, and then there is at least one bar. */
  lemma HasDataIffSurveys(ss: seq<Survey>, companyId: string)
    ensures HasData(ss, companyId) <==> Stats(ss, companyId).totalSurveys > 0
    ensures HasData(ss, companyId) <==> |SurveyData(CompanySurveys(ss, companyId))| > 0
  {
  }
}
