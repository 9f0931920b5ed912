/** The per-question analysis a company sees for one survey: the answers
    collected for a question, the tally of choice answers and the sample
    of text answers. */
module QuestionAnalytics {
  import opened Wrappers
  import opened SurveyTypes
  import opened Strings
  import opened Seqs

  /** The selector `filter(Boolean)` applies to each response's entry. */
  function AnsweredIn(questionId: string): SurveyResponse -> bool {
    (r: SurveyResponse) => IsTruthy(AnswerFor(r.answers, questionId))
  }

  /** `responses.map(r => r.answers[id]).filter(Boolean)`: the entries for
      the question, in response order, without missing or empty ones. */
  function Collected(rs: seq<SurveyResponse>, questionId: string): (r: seq<Answer>)
    ensures |r| <= |rs|
    ensures forall i :: 0 <= i < |r| ==> r[i] != Single("")
    ensures |r| == |Filter(rs, AnsweredIn(questionId))|
    ensures forall i :: 0 <= i < |r| ==>
      AnswerFor(Filter(rs, AnsweredIn(questionId))[i].answers, questionId) == Some(r[i])
  {
    var kept := Filter(rs, AnsweredIn(questionId));
    seq(|kept|, i requires 0 <= i < |kept| => kept[i].answers[questionId])
  }

  /** An answer is collected exactly when some response holds it for the
      question and it is not the empty string. */
  lemma {:induction false} CollectedExact(rs: seq<SurveyResponse>, questionId: string, a: Answer)
    ensures a in Collected(rs, questionId) <==>
      a != Single("") && exists r :: r in rs && questionId in r.answers && r.answers[questionId] == a
  {
    var kept := Filter(rs, AnsweredIn(questionId));
    var c := Collected(rs, questionId);
    if a in c {
      var i :| 0 <= i < |c| && c[i] == a;
      FilterMembership(rs, AnsweredIn(questionId), kept[i]);
    }
    if a != Single("") && exists r :: r in rs && questionId in r.answers && r.answers[questionId] == a {
      var r :| r in rs && questionId in r.answers && r.answers[questionId] == a;
      FilterMembership(rs, AnsweredIn(questionId), r);
      var i :| 0 <= i < |kept| && kept[i] == r;
      assert c[i] == a;
    }
  }

  /** The key a choice answer is counted under: the string itself, or the
      items joined with ", " for a list. */
  function AnswerKey(a: Answer): (k: string)
    ensures a.Single? ==> k == a.value
    ensures a.Multi? ==> k == Join(a.items, ", ")
  {
    match a
    case Single(s) => s
    case Multi(xs) => Join(xs, ", ")
  }

  function Keys(answers: seq<Answer>): (ks: seq<string>)
    ensures |ks| == |answers|
    ensures forall i :: 0 <= i < |answers| ==> ks[i] == AnswerKey(answers[i])
  {
    seq(|answers|, i requires 0 <= i < |answers| => AnswerKey(answers[i]))
  }

  /** Multiple-choice and yes/no questions are tallied. */
  predicate IsTallied(q: Question) {
    q.kind == MultipleChoice || q.kind == Boolean
  }

  /** `counts` and `order` are the tally of `s`: one entry per distinct key
      holding its number of occurrences, and the keys in the order they
      first appear. */
  ghost predicate Tallied(counts: map<string, int>, order: seq<string>, s: seq<string>) {
    (forall k :: k in counts <==> k in s)
    && (forall k :: k in counts ==> counts[k] == Count(s, k))
    && order == Dedup(s)
  }

  /** One answer more: its entry is bumped when present and created when
      not, and the tally then covers the longer list. */
  lemma {:induction false} TallyStep(counts: map<string, int>, order: seq<string>, s: seq<string>, k: string)
    requires Tallied(counts, order, s)
    ensures k in counts ==> Tallied(counts[k := counts[k] + 1], order, s + [k])
    ensures k !in counts ==> Tallied(counts[k := 1], order + [k], s + [k])
  {
    DedupSnoc(s, k);
    forall x ensures Count(s + [k], x) == Count(s, x) + (if k == x then 1 else 0) {
      CountSnoc(s, k, x);
    }
  }

  /** The `forEach` that fills `answerCounts`: every distinct key gets one
      entry holding its number of occurrences; `order` lists the keys in
      the order they were first inserted, and the counts add up to the
      number of answers tallied. */
  method Tally(keys: seq<string>) returns (counts: map<string, int>, order: seq<string>)
    ensures forall k :: k in counts <==> k in keys
    ensures forall k :: k in counts ==> counts[k] == Count(keys, k)
    ensures order == Dedup(keys)
    ensures forall i, j :: 0 <= i < j < |order| ==> AppearsBefore(keys, order[i], order[j])
    ensures SumCounts(order, keys) == |keys|
  {
    counts := map[];
    order := [];
    for i := 0 to |keys|
      invariant Tallied(counts, order, keys[..i])
    {
      var k := keys[i];
      assert keys[..i + 1] == keys[..i] + [k];
      TallyStep(counts, order, keys[..i], k);
      if k in counts {
        counts := counts[k := counts[k] + 1];
      } else {
        counts := counts[k := 1];
        order := order + [k];
      }
    }
    assert keys[..|keys|] == keys;
    DedupCountsSum(keys);
    forall i, j | 0 <= i < j < |order|
      ensures AppearsBefore(keys, order[i], order[j])
    {
      DedupFirstAppearance(keys, i, j);
    }
  }

  /** What a text question shows: the first five answers, and how many
      more there are. */
  function TextSample(answers: seq<Answer>): (r: (seq<Answer>, nat))
    ensures |r.0| == if |answers| < 5 then |answers| else 5
    ensures r.0 == answers[..|r.0|]
    ensures |r.0| + r.1 == |answers|
    ensures r.1 > 0 <==> |answers| > 5
  {
    if |answers| <= 5 then (answers, 0) else (answers[..5], |answers| - 5)
  }

  /** A survey without responses gets no per-question analysis. */
  predicate ShowsAnalysis(s: Survey) {
    |s.responses| > 0
  }

  /** Hiding the analysis hides nothing: without responses no answer is
      collected for any question. */
  lemma NothingHiddenWithoutResponses(s: Survey, questionId: string)
    ensures !ShowsAnalysis(s) ==> Collected(s.responses, questionId) == []
  {
  }
}
