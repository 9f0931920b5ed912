/** The question-list editor: adding (bounded by the package's question
    limit), updating, deleting and reordering questions, the option
    sub-editor, and the rule that a type change applies to the options. */
module SurveyBuilder {
  import opened Wrappers
  import opened SurveyTypes
  import opened Strings
  import opened Seqs

  /** `Partial<Question>`: `None` is a key the update does not carry; for
      the options, `Some(None)` is the key carried with `undefined`. */
  datatype QuestionPatch = QuestionPatch(
    id: Option<string>,
    kind: Option<QuestionType>,
    text: Option<string>,
    options: Option<Option<seq<string>>>,
    required: Option<bool>)

  /** `{ ...q, ...updates }`. */
  function ApplyPatch(q: Question, p: QuestionPatch): Question {
    Question(p.id.GetOr(q.id), p.kind.GetOr(q.kind), p.text.GetOr(q.text),
      p.options.GetOr(q.options), p.required.GetOr(q.required))
  }

  function OptionsPatch(options: seq<string>): QuestionPatch {
    QuestionPatch(None, None, None, Some(Some(options)), None)
  }

  const DefaultOptions: seq<string> := ["Option 1", "Option 2"]

  /** The question `addQuestion` creates: a required, untitled multiple
      choice question whose two options carry the labels `addOption` would
      give the first and the second option. */
  function NewQuestion(id: string): (q: Question)
    ensures q.id == id && q.kind == MultipleChoice && q.text == "" && q.required
    ensures q.options == Some([OptionLabel(1), OptionLabel(2)])
  {
    assert NatToString(1) == [Digit(1)] == "1" && NatToString(2) == [Digit(2)] == "2";
    assert OptionLabel(1) == "Option 1" && OptionLabel(2) == "Option 2";
    Question(id, MultipleChoice, "", Some(DefaultOptions), true)
  }

  /** `addQuestion`: nothing when the limit is reached, otherwise one new
      question at the end. */
  function Added(qs: seq<Question>, maxQuestions: int, freshId: string): (r: seq<Question>)
    ensures |qs| >= maxQuestions ==> r == qs
    ensures |qs| < maxQuestions ==> r == qs + [NewQuestion(freshId)]
  {
    if |qs| >= maxQuestions then qs else qs + [NewQuestion(freshId)]
  }

  /** Adding never goes past the limit that held before, never drops or
      changes an existing question, and grows the list by at most one. */
  lemma AddedWithinBound(qs: seq<Question>, maxQuestions: int, freshId: string)
    ensures |qs| <= maxQuestions ==> |Added(qs, maxQuestions, freshId)| <= maxQuestions
    ensures |Added(qs, maxQuestions, freshId)| <= |qs| + 1
    ensures Added(qs, maxQuestions, freshId)[..|qs|] == qs
  {
  }

  /** `questions.map(q => q.id === id ? { ...q, ...updates } : q)`. */
  function Updated(qs: seq<Question>, id: string, p: QuestionPatch): (r: seq<Question>)
    ensures |r| == |qs|
    ensures forall i :: 0 <= i < |qs| ==> r[i] == if qs[i].id == id then ApplyPatch(qs[i], p) else qs[i]
  {
    seq(|qs|, i requires 0 <= i < |qs| => if qs[i].id == id then ApplyPatch(qs[i], p) else qs[i])
  }

  /** The selector `q => q.id !== id`. */
  function KeepsId(id: string): Question -> bool {
    (q: Question) => q.id != id
  }

  /** `questions.filter(q => q.id !== id)`. */
  function Deleted(qs: seq<Question>, id: string): (r: seq<Question>)
    ensures |r| <= |qs|
    ensures forall i :: 0 <= i < |r| ==> r[i].id != id
  {
    Filter(qs, KeepsId(id))
  }

  /** Deleting removes exactly the questions with the id and keeps the rest
      in their order. */
  lemma DeletedExact(qs: seq<Question>, id: string, q: Question)
    ensures q in Deleted(qs, id) <==> q in qs && q.id != id
    ensures IsSubsequence(Deleted(qs, id), qs)
  {
    FilterMembership(qs, KeepsId(id), q);
    FilterIsSubsequence(qs, KeepsId(id));
  }

  /** `splice(from, 1)` then `splice(to, 0, moved)` on a copy. */
  function Moved(s: seq<Question>, from: int, to: int): (r: seq<Question>)
    requires 0 <= from < |s| && 0 <= to < |s|
    ensures |r| == |s|
    ensures multiset(r) == multiset(s)
    ensures r[to] == s[from]
  {
    var rest := s[..from] + s[from + 1..];
    var x := s[from];
    assert s == s[..from] + [x] + s[from + 1..];
    assert multiset(s) == multiset(rest) + multiset{x};
    assert rest == rest[..to] + rest[to..];
    assert multiset(rest[..to] + [x] + rest[to..]) == multiset(rest[..to]) + multiset{x} + multiset(rest[to..]);
    rest[..to] + [x] + rest[to..]
  }

  /** Where each question ends up: the moved one at `to`, the ones between
      the two positions shifted by one towards `from`, the rest in place. */
  lemma MovedAt(s: seq<Question>, from: int, to: int, k: int)
    requires 0 <= from < |s| && 0 <= to < |s| && 0 <= k < |s|
    ensures Moved(s, from, to)[k] ==
      if k == to then s[from]
      else if from < to && from <= k < to then s[k + 1]
      else if to < from && to < k <= from then s[k - 1]
      else s[k]
  {
    var rest := s[..from] + s[from + 1..];
    assert forall j :: 0 <= j < |rest| ==> rest[j] == if j < from then s[j] else s[j + 1];
    var r := Moved(s, from, to);
    assert forall j :: 0 <= j < |r| ==> r[j] == if j < to then rest[j] else if j == to then s[from] else rest[j - 1];
  }

  /** Moving a question one place up or down swaps it with its neighbour. */
  lemma MoveByOneSwaps(s: seq<Question>, i: int, j: int)
    requires 0 <= i < |s| && 0 <= j < |s| && (j == i - 1 || j == i + 1)
    ensures Moved(s, i, j)[i] == s[j] && Moved(s, i, j)[j] == s[i]
    ensures forall k :: 0 <= k < |s| && k != i && k != j ==> Moved(s, i, j)[k] == s[k]
  {
    MovedAt(s, i, j, i);
    MovedAt(s, i, j, j);
    forall k | 0 <= k < |s| && k != i && k != j
      ensures Moved(s, i, j)[k] == s[k]
    {
      MovedAt(s, i, j, k);
    }
  }

  /** The move on an array, in place: the questions between the two
      positions are shifted by one and the moved question is written at
      its target. */
  method MoveInPlace(a: array<Question>, from: int, to: int)
    requires 0 <= from < a.Length && 0 <= to < a.Length
    modifies a
    ensures a[..] == Moved(old(a[..]), from, to)
  {
    ghost var s := a[..];
    var moved := a[from];
    var k := from;
    if from < to {
      while k < to
        invariant from <= k <= to
        invariant forall j :: 0 <= j < from ==> a[j] == s[j]
        invariant forall j :: from <= j < k ==> a[j] == s[j + 1]
        invariant forall j :: k <= j < a.Length ==> a[j] == s[j]
      {
        a[k] := a[k + 1];
        k := k + 1;
      }
    } else {
      while k > to
        invariant to <= k <= from
        invariant forall j :: 0 <= j <= k ==> a[j] == s[j]
        invariant forall j :: k < j <= from ==> a[j] == s[j - 1]
        invariant forall j :: from < j < a.Length ==> a[j] == s[j]
      {
        a[k] := a[k - 1];
        k := k - 1;
      }
    }
    a[to] := moved;
    forall j | 0 <= j < a.Length
      ensures a[j] == Moved(s, from, to)[j]
    {
      MovedAt(s, from, to, j);
    }
  }

  /** The selector `q => q.id === id`. */
  function HasId(id: string): Question -> bool {
    (q: Question) => q.id == id
  }

  function FindQuestion(qs: seq<Question>, id: string): (r: Option<Question>)
    ensures r.Some? ==> r.value in qs && r.value.id == id
    ensures r.None? <==> forall i :: 0 <= i < |qs| ==> qs[i].id != id
  {
    Find(qs, HasId(id))
  }

  /** The label of the n-th option, `Option ${n}`. */
  function OptionLabel(n: nat): string {
    "Option " + NatToString(n)
  }

  /** `addOption`: the first question with the id, when it has options,
      gives every question with the id its options plus `Option n+1`. */
  function WithAddedOption(qs: seq<Question>, id: string): (r: seq<Question>)
    ensures |r| == |qs|
    ensures forall k :: 0 <= k < |qs| && qs[k].id != id ==> r[k] == qs[k]
    ensures FindQuestion(qs, id).None? || FindQuestion(qs, id).value.options.None? ==> r == qs
    ensures FindQuestion(qs, id).Some? && FindQuestion(qs, id).value.options.Some? ==>
      var before := FindQuestion(qs, id).value.options.value;
      forall k :: 0 <= k < |qs| && qs[k].id == id ==>
        r[k] == qs[k].(options := Some(before + [OptionLabel(|before| + 1)]))
  {
    match FindQuestion(qs, id)
    case Some(q) =>
      if q.options.Some? then
        var opts := q.options.value;
        Updated(qs, id, OptionsPatch(opts + [OptionLabel(|opts| + 1)]))
      else qs
    case None => qs
  }

  /** The added option comes last and is labelled "Option " followed by
      the decimal digits of the new number of options. */
  lemma AddedOptionLabel(qs: seq<Question>, id: string, k: int)
    requires 0 <= k < |qs| && qs[k].id == id
    requires FindQuestion(qs, id).Some? && FindQuestion(qs, id).value.options.Some?
    ensures var before := FindQuestion(qs, id).value.options.value;
      var after := WithAddedOption(qs, id)[k].options;
      after.Some? && |after.value| == |before| + 1 && after.value[..|before|] == before
      && after.value[|before|][..7] == "Option "
      && DecimalValue(after.value[|before|][7..]) == |before| + 1
  {
    var before := FindQuestion(qs, id).value.options.value;
    var added := OptionLabel(|before| + 1);
    assert added[..7] == "Option " && added[7..] == NatToString(|before| + 1);
    assert (before + [added])[..|before|] == before;
  }

  /** `options.filter((_, index) => index !== i)`. */
  function RemoveAt(opts: seq<string>, i: int): (r: seq<string>)
    ensures 0 <= i < |opts| ==>
      && |r| == |opts| - 1
      && (forall k :: 0 <= k < i ==> r[k] == opts[k])
      && (forall k :: i <= k < |r| ==> r[k] == opts[k + 1])
    ensures !(0 <= i < |opts|) ==> r == opts
  {
    if 0 <= i < |opts| then opts[..i] + opts[i + 1..] else opts
  }

  /** `removeOption`: only when the first question with the id has more
      than two options. */
  function WithRemovedOption(qs: seq<Question>, id: string, i: int): (r: seq<Question>)
    ensures |r| == |qs|
    ensures forall k :: 0 <= k < |qs| && qs[k].id != id ==> r[k] == qs[k]
    ensures (FindQuestion(qs, id).None? || FindQuestion(qs, id).value.options.None?
             || |FindQuestion(qs, id).value.options.value| <= 2) ==> r == qs
    ensures (FindQuestion(qs, id).Some? && FindQuestion(qs, id).value.options.Some?
             && |FindQuestion(qs, id).value.options.value| > 2) ==>
      var before := FindQuestion(qs, id).value.options.value;
      forall k :: 0 <= k < |qs| && qs[k].id == id ==>
        r[k] == qs[k].(options := Some(RemoveAt(before, i)))
  {
    match FindQuestion(qs, id)
    case Some(q) =>
      if q.options.Some? && |q.options.value| > 2 then
        Updated(qs, id, OptionsPatch(RemoveAt(q.options.value, i)))
      else qs
    case None => qs
  }

  /** Removal never leaves a question it touches with fewer than two
      options, and leaves every other question alone. */
  lemma RemovedOptionKeepsTwo(qs: seq<Question>, id: string, i: int)
    ensures forall k :: 0 <= k < |qs| ==>
      WithRemovedOption(qs, id, i)[k] == qs[k]
      || (WithRemovedOption(qs, id, i)[k].options.Some? && |WithRemovedOption(qs, id, i)[k].options.value| >= 2)
    ensures forall k :: 0 <= k < |qs| && qs[k].id != id ==> WithRemovedOption(qs, id, i)[k] == qs[k]
  {
  }

  /** The update a type change sends: the new type, and options kept or
      defaulted for choice and rating questions, cleared otherwise; no
      other field of the question changes. */
  function TypeChange(q: Question, t: QuestionType): (p: QuestionPatch)
    ensures ApplyPatch(q, p).kind == t
    ensures (t == Text || t == Boolean) ==> ApplyPatch(q, p).options.None?
    ensures (t == MultipleChoice || t == Rating) && q.options.Some? ==> ApplyPatch(q, p).options == q.options
    ensures (t == MultipleChoice || t == Rating) && q.options.None? ==>
      ApplyPatch(q, p).options == Some(["Option 1", "Option 2"])
    ensures ApplyPatch(q, p).(kind := q.kind, options := q.options) == q
  {
    var options := if t == MultipleChoice || t == Rating then Some(q.options.GetOr(DefaultOptions)) else None;
    QuestionPatch(None, Some(t), None, Some(options), None)
  }

  /** The editor's state: the question list it edits (held by the page and
      replaced through `onQuestionsChange`), the limit it is given and the
      index of the question being dragged. */
  class Builder {
    var questions: seq<Question>
    var maxQuestions: int
    var draggedIndex: Option<int>

    /** The limit holds; only adding checks it. */
    predicate WithinBound()
      reads this
    {
      |questions| <= maxQuestions
    }

    constructor (questions: seq<Question>, maxQuestions: int)
      ensures this.questions == questions && this.maxQuestions == maxQuestions && draggedIndex == None
    {
      this.questions := questions;
      this.maxQuestions := maxQuestions;
      draggedIndex := None;
    }

    /** A new limit from the page, with no check of the current list. */
    method SetMaxQuestions(n: int)
      modifies this
      ensures maxQuestions == n && questions == old(questions) && draggedIndex == old(draggedIndex)
    {
      maxQuestions := n;
    }

    /** Whether the add button is shown. */
    function CanAdd(): (b: bool)
      reads this
      ensures b <==> Added(questions, maxQuestions, "") != questions
    {
      |questions| < maxQuestions
    }

    method AddQuestion(freshId: string)
      modifies this
      ensures questions == Added(old(questions), maxQuestions, freshId)
      ensures maxQuestions == old(maxQuestions) && draggedIndex == old(draggedIndex)
      ensures old(WithinBound()) ==> WithinBound()
    {
      questions := Added(questions, maxQuestions, freshId);
    }

    method UpdateQuestion(id: string, p: QuestionPatch)
      modifies this
      ensures questions == Updated(old(questions), id, p)
      ensures maxQuestions == old(maxQuestions) && draggedIndex == old(draggedIndex)
      ensures old(WithinBound()) ==> WithinBound()
    {
      questions := Updated(questions, id, p);
    }

    method DeleteQuestion(id: string)
      modifies this
      ensures questions == Deleted(old(questions), id)
      ensures maxQuestions == old(maxQuestions) && draggedIndex == old(draggedIndex)
      ensures old(WithinBound()) ==> WithinBound()
    {
      questions := Deleted(questions, id);
    }

    /** `moveQuestion`: copies the list into an array, moves in place and
        hands the array back. Both indices come from the rendered list. */
    method MoveQuestion(from: int, to: int)
      requires 0 <= from < |questions| && 0 <= to < |questions|
      modifies this
      ensures questions == Moved(old(questions), from, to)
      ensures maxQuestions == old(maxQuestions) && draggedIndex == old(draggedIndex)
    {
      var qs := questions;
      var a := new Question[|qs|](i requires 0 <= i < |qs| => qs[i]);
      assert a[..] == qs;
      MoveInPlace(a, from, to);
      questions := a[..];
    }

    /** `moveQuestionUp`: nothing at the top, otherwise a swap with the one above. */
    method MoveQuestionUp(index: int)
      requires 0 <= index < |questions|
      modifies this
      ensures index == 0 ==> questions == old(questions)
      ensures index > 0 ==> questions == Moved(old(questions), index, index - 1)
      ensures maxQuestions == old(maxQuestions) && draggedIndex == old(draggedIndex)
    {
      if index > 0 {
        MoveQuestion(index, index - 1);
      }
    }

    /** `moveQuestionDown`: nothing at the bottom, otherwise a swap with the one below. */
    method MoveQuestionDown(index: int)
      requires 0 <= index < |questions|
      modifies this
      ensures index == |questions| - 1 ==> questions == old(questions)
      ensures index < |old(questions)| - 1 ==> questions == Moved(old(questions), index, index + 1)
      ensures maxQuestions == old(maxQuestions) && draggedIndex == old(draggedIndex)
    {
      if index < |questions| - 1 {
        MoveQuestion(index, index + 1);
      }
    }

    method DragStart(index: int)
      modifies this
      ensures draggedIndex == Some(index)
      ensures questions == old(questions) && maxQuestions == old(maxQuestions)
    {
      draggedIndex := Some(index);
    }

    /** `handleDrop`: moves the dragged question to the drop position unless
        nothing is dragged or it is dropped on itself; always ends the drag. */
    method Drop(dropIndex: int)
      requires 0 <= dropIndex < |questions|
      requires draggedIndex.Some? ==> 0 <= draggedIndex.value < |questions|
      modifies this
      ensures draggedIndex == None && maxQuestions == old(maxQuestions)
      ensures old(draggedIndex).Some? && old(draggedIndex).value != dropIndex ==>
        questions == Moved(old(questions), old(draggedIndex).value, dropIndex)
      ensures old(draggedIndex).None? || old(draggedIndex).value == dropIndex ==> questions == old(questions)
    {
      if draggedIndex.Some? && draggedIndex.value != dropIndex {
        MoveQuestion(draggedIndex.value, dropIndex);
      }
      draggedIndex := None;
    }

    method AddOption(id: string)
      modifies this
      ensures questions == WithAddedOption(old(questions), id)
      ensures maxQuestions == old(maxQuestions) && draggedIndex == old(draggedIndex)
    {
      questions := WithAddedOption(questions, id);
    }

    /** `updateOption`: a copy of the first matching question's options with
        one slot overwritten, given to every question with the id. The index
        is one of the rendered options. */
    method UpdateOption(id: string, optionIndex: int, value: string)
      requires FindQuestion(questions, id).Some? && FindQuestion(questions, id).value.options.Some? ==>
        0 <= optionIndex < |FindQuestion(questions, id).value.options.value|
      modifies this
      ensures FindQuestion(old(questions), id).Some? && FindQuestion(old(questions), id).value.options.Some? ==>
        var opts := FindQuestion(old(questions), id).value.options.value;
        questions == Updated(old(questions), id, OptionsPatch(opts[optionIndex := value]))
      ensures !(FindQuestion(old(questions), id).Some? && FindQuestion(old(questions), id).value.options.Some?) ==>
        questions == old(questions)
      ensures maxQuestions == old(maxQuestions) && draggedIndex == old(draggedIndex)
    {
      var found := FindQuestion(questions, id);
      if found.Some? && found.value.options.Some? {
        var opts := found.value.options.value;
        var a := new string[|opts|](i requires 0 <= i < |opts| => opts[i]);
        a[optionIndex] := value;
        assert a[..] == opts[optionIndex := value];
        questions := Updated(questions, id, OptionsPatch(a[..]));
      }
    }

    method RemoveOption(id: string, optionIndex: int)
      modifies this
      ensures questions == WithRemovedOption(old(questions), id, optionIndex)
      ensures maxQuestions == old(maxQuestions) && draggedIndex == old(draggedIndex)
    {
      questions := WithRemovedOption(questions, id, optionIndex);
    }

    /** The type selector of the question rendered at `index`. */
    method ChangeType(index: int, t: QuestionType)
      requires 0 <= index < |questions|
      modifies this
      ensures questions == Updated(old(questions), old(questions)[index].id, TypeChange(old(questions)[index], t))
      ensures maxQuestions == old(maxQuestions) && draggedIndex == old(draggedIndex)
    {
      var q := questions[index];
      UpdateQuestion(q.id, TypeChange(q, t));
    }
  }
}
