/** The public list of surveys open to respondents, with its two totals
    and each card's time estimate. */
module SurveysList {
  import opened SurveyTypes
  import opened Seqs
  import opened SurveyQueries

  /** The listed surveys: exactly the active ones, in store order. */
  function Listed(ss: seq<Survey>): (r: seq<Survey>)
    ensures forall s :: s in r <==> s in ss && s.isActive
    ensures IsSubsequence(r, ss)
  {
    forall s ensures s in ActiveSurveys(ss) <==> s in ss && s.isActive {
      ActiveSurveysExact(ss, s);
    }
    FilterIsSubsequence(ss, IsActive);
    ActiveSurveys(ss)
  }

  /** "Total Possible Earnings": the rewards of the listed surveys added
      up. That is every survey's reward counted when it is active and 0
      otherwise; without negative rewards it lies between 0 and the
      rewards of all surveys. */
  function PossibleEarnings(ss: seq<Survey>): (r: real)
    ensures r == SumReal(ss, Masked(IsActive, RewardPerResponse))
    ensures (forall i :: 0 <= i < |ss| ==> ss[i].rewardPerResponse >= 0.0) ==>
      0.0 <= r <= TotalRewardOffered(ss)
  {
    SumRealFilter(ss, IsActive, RewardPerResponse);
    SumRealMaskedBounds(ss, IsActive, RewardPerResponse);
    TotalRewardOffered(Listed(ss))
  }

  /** A survey's responses when it is active, 0 otherwise. */
  function ActiveResponseCount(s: Survey): int {
    if s.isActive then |s.responses| else 0
  }

  /** "Responses Submitted": the listed surveys' responses added up. That
      is every survey's response count taken when it is active and 0
      otherwise, never more than all surveys' responses. */
  function ResponsesSubmitted(ss: seq<Survey>): (n: int)
    ensures n == SumInt(ss, ActiveResponseCount)
    ensures 0 <= n <= TotalResponses(ss)
  {
    ActiveResponsesMasked(ss);
    ActiveResponsesBounded(ss);
    TotalResponses(Listed(ss))
  }

  lemma {:induction false} ActiveResponsesMasked(ss: seq<Survey>)
    ensures TotalResponses(ActiveSurveys(ss)) == SumInt(ss, ActiveResponseCount)
  {
    if ss != [] {
      ActiveResponsesMasked(ss[1..]);
      var rest := ActiveSurveys(ss[1..]);
      if ss[0].isActive {
        assert ActiveSurveys(ss) == [ss[0]] + rest;
        assert ([ss[0]] + rest)[1..] == rest;
      } else {
        assert ActiveSurveys(ss) == rest;
      }
    }
  }

  lemma {:induction false} ActiveResponsesBounded(ss: seq<Survey>)
    ensures TotalResponses(ActiveSurveys(ss)) <= TotalResponses(ss)
  {
    if ss != [] {
      ActiveResponsesBounded(ss[1..]);
      var rest := ActiveSurveys(ss[1..]);
      if ss[0].isActive {
        assert ActiveSurveys(ss) == [ss[0]] + rest;
        assert ([ss[0]] + rest)[1..] == rest;
      } else {
        assert ActiveSurveys(ss) == rest;
      }
    }
  }

  /** `Math.ceil(n * 0.5)` minutes for `n` questions: the least whole
      number of minutes at half a minute per question. */
  function MinutesEstimate(n: nat): (m: nat)
    ensures 2 * m >= n && 2 * m - 1 <= n
  {
    (n + 1) / 2
  }

  /** One more question adds at most one minute. */
  lemma EstimateMonotone(n: nat)
    ensures MinutesEstimate(n) <= MinutesEstimate(n + 1) <= MinutesEstimate(n) + 1
  {
  }
}
