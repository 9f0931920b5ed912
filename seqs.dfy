/** The array built-ins the application uses (`filter`, `find`, `reduce`
    with a sum, `includes`), stated on Dafny sequences, with the facts the
    rest of the model needs about them. */
module Seqs {
  import opened Wrappers

  /** `s.filter(p)`: the elements that satisfy `p`, in their order. */
  function Filter<T>(s: seq<T>, p: T -> bool): (r: seq<T>)
    ensures |r| <= |s|
    ensures forall i :: 0 <= i < |r| ==> p(r[i])
  {
    if s == [] then [] else (if p(s[0]) then [s[0]] else []) + Filter(s[1..], p)
  }

  /** An element is kept exactly when it is in `s` and satisfies `p`. */
  lemma {:induction false} FilterMembership<T>(s: seq<T>, p: T -> bool, x: T)
    ensures x in Filter(s, p) <==> x in s && p(x)
  {
    if s != [] {
      FilterMembership(s[1..], p, x);
      assert s == [s[0]] + s[1..];
    }
  }

  lemma {:induction false} FilterConcat<T>(a: seq<T>, b: seq<T>, p: T -> bool)
    ensures Filter(a + b, p) == Filter(a, p) + Filter(b, p)
  {
    if a == [] {
      assert a + b == b;
    } else {
      assert (a + b)[1..] == a[1..] + b;
      FilterConcat(a[1..], b, p);
    }
  }

  lemma {:induction false} FilterKeepsAll<T>(s: seq<T>, p: T -> bool)
    requires forall i :: 0 <= i < |s| ==> p(s[i])
    ensures Filter(s, p) == s
  {
    if s != [] {
      FilterKeepsAll(s[1..], p);
    }
  }

  /** `r` can be obtained from `s` by deleting elements, keeping the order. */
  predicate IsSubsequence<T(==)>(r: seq<T>, s: seq<T>)
    decreases |s|
  {
    if r == [] then true
    else if s == [] then false
    else if r[0] == s[0] then IsSubsequence(r[1..], s[1..])
    else IsSubsequence(r, s[1..])
  }

  /** Every sequence is a subsequence of itself. */
  lemma {:induction false} IsSubsequenceRefl<T>(s: seq<T>)
    ensures IsSubsequence(s, s)
  {
    if s != [] {
      IsSubsequenceRefl(s[1..]);
    }
  }

  lemma {:induction false} FilterIsSubsequence<T>(s: seq<T>, p: T -> bool)
    ensures IsSubsequence(Filter(s, p), s)
  {
    if s != [] {
      FilterIsSubsequence(s[1..], p);
      var r := Filter(s, p);
      if p(s[0]) {
        assert r[0] == s[0] && r[1..] == Filter(s[1..], p);
      } else {
        assert r == Filter(s[1..], p);
        assert r != [] ==> p(r[0]) && r[0] != s[0];
      }
    }
  }

  /** The index of the first element satisfying `p`, if any. */
  function FirstIndex<T>(s: seq<T>, p: T -> bool): (r: Option<nat>)
    ensures r.Some? ==> r.value < |s| && p(s[r.value])
    ensures r.Some? ==> forall j :: 0 <= j < r.value ==> !p(s[j])
    ensures r.None? <==> forall j :: 0 <= j < |s| ==> !p(s[j])
  {
    if s == [] then None
    else if p(s[0]) then Some(0)
    else match FirstIndex(s[1..], p)
      case None => None
      case Some(i) => Some(i + 1)
  }

  /** Appending keeps an earlier match, and the appended element is the
      first match when nothing before it matches. */
  lemma FirstIndexSnoc<T>(s: seq<T>, y: T, p: T -> bool)
    ensures FirstIndex(s, p).Some? ==> FirstIndex(s + [y], p) == FirstIndex(s, p)
    ensures FirstIndex(s, p).None? && p(y) ==> FirstIndex(s + [y], p) == Some(|s|)
  {
    assert forall j :: 0 <= j < |s| ==> (s + [y])[j] == s[j];
    assert (s + [y])[|s|] == y;
  }

  /** The selector `y => y === x`. */
  function Equals<T(==)>(x: T): T -> bool {
    (y: T) => y == x
  }

  /** `x` and `y` both occur in `s`, and `x` occurs first. */
  predicate AppearsBefore<T(==)>(s: seq<T>, x: T, y: T) {
    FirstIndex(s, Equals(x)).Some? && FirstIndex(s, Equals(y)).Some?
    && FirstIndex(s, Equals(x)).value < FirstIndex(s, Equals(y)).value
  }

  /** `s.find(p)`: the first element satisfying `p`, or nothing. */
  function Find<T>(s: seq<T>, p: T -> bool): (r: Option<T>)
    ensures r.None? <==> forall j :: 0 <= j < |s| ==> !p(s[j])
    ensures r.Some? ==> r.value in s && p(r.value)
    ensures r.Some? ==> exists i :: 0 <= i < |s| && s[i] == r.value && forall j :: 0 <= j < i ==> !p(s[j])
  {
    match FirstIndex(s, p)
    case None => None
    case Some(i) => Some(s[i])
  }

  /** One step of the search: the head if it matches, else the search of the tail. */
  lemma {:induction false} FindCons<T>(s: seq<T>, p: T -> bool)
    requires s != []
    ensures Find(s, p) == if p(s[0]) then Some(s[0]) else Find(s[1..], p)
  {
    if !p(s[0]) {
      match FirstIndex(s[1..], p)
      case None =>
      case Some(i) => assert s[1..][i] == s[i + 1];
    }
  }

  lemma {:induction false} FindAppendFresh<T>(s: seq<T>, x: T, p: T -> bool)
    requires forall j :: 0 <= j < |s| ==> !p(s[j])
    requires p(x)
    ensures Find(s + [x], p) == Some(x)
  {
    assert (s + [x])[|s|] == x;
    assert forall j :: 0 <= j < |s| ==> (s + [x])[j] == s[j];
  }

  lemma {:induction false} FindAppendKnown<T>(s: seq<T>, x: T, p: T -> bool)
    requires exists j :: 0 <= j < |s| && p(s[j])
    ensures Find(s + [x], p) == Find(s, p)
  {
    assert forall j :: 0 <= j < |s| ==> (s + [x])[j] == s[j];
    var i := FirstIndex(s, p).value;
    assert (s + [x])[i] == s[i];
  }

  /** The elements of `s` are pairwise distinct. */
  predicate NoDup<T(==)>(s: seq<T>) {
    forall i, j :: 0 <= i < j < |s| ==> s[i] != s[j]
  }

  lemma {:induction false} FilterNoDup<T>(s: seq<T>, p: T -> bool)
    requires NoDup(s)
    ensures NoDup(Filter(s, p))
  {
    if s != [] {
      var rest := Filter(s[1..], p);
      assert NoDup(s[1..]) by {
        assert forall i :: 0 <= i < |s[1..]| ==> s[1..][i] == s[i + 1];
      }
      FilterNoDup(s[1..], p);
      FilterMembership(s[1..], p, s[0]);
      assert s[0] !in s[1..];
      if p(s[0]) {
        var r := [s[0]] + rest;
        assert forall i :: 1 <= i < |r| ==> r[i] == rest[i - 1];
      }
    }
  }

  /** The number of occurrences of `x` in `s`. */
  function Count<T(==)>(s: seq<T>, x: T): (n: nat)
    ensures n <= |s|
    ensures n == 0 <==> x !in s
  {
    if s == [] then 0
    else Count(s[..|s| - 1], x) + (if s[|s| - 1] == x then 1 else 0)
  }

  lemma CountSnoc<T>(s: seq<T>, y: T, x: T)
    ensures Count(s + [y], x) == Count(s, x) + (if y == x then 1 else 0)
  {
    assert (s + [y])[..|s|] == s;
  }

  lemma {:induction false} CountDistinct<T>(s: seq<T>, x: T)
    requires NoDup(s) && x in s
    ensures Count(s, x) == 1
  {
    var init := s[..|s| - 1];
    assert s == init + [s[|s| - 1]];
    if s[|s| - 1] == x {
      assert x !in init;
    } else {
      assert x in init;
      CountDistinct(init, x);
    }
  }

  /** The distinct elements of `s`, each where it first appears. */
  function Dedup<T(==)>(s: seq<T>): (r: seq<T>)
    ensures NoDup(r)
    ensures forall i :: 0 <= i < |r| ==> r[i] in s
    ensures forall i :: 0 <= i < |s| ==> s[i] in r
  {
    if s == [] then []
    else
      var d := Dedup(s[..|s| - 1]);
      var last := s[|s| - 1];
      assert s == s[..|s| - 1] + [last];
      if last in s[..|s| - 1] then d else d + [last]
  }

  lemma DedupSnoc<T>(s: seq<T>, y: T)
    ensures Dedup(s + [y]) == if y in s then Dedup(s) else Dedup(s) + [y]
  {
    assert (s + [y])[..|s|] == s;
  }

  /** The distinct elements are listed in the order they first appear:
      whatever is listed earlier occurs earlier in `s`. */
  lemma {:induction false} DedupFirstAppearance<T>(s: seq<T>, i: int, j: int)
    requires 0 <= i < j < |Dedup(s)|
    ensures AppearsBefore(s, Dedup(s)[i], Dedup(s)[j])
  {
    var t, y := s[..|s| - 1], s[|s| - 1];
    assert s == t + [y];
    DedupSnoc(t, y);
    var d := Dedup(t);
    var a, b := Dedup(s)[i], Dedup(s)[j];
    assert a == d[i] && a in t;
    FirstIndexSnoc(t, y, Equals(a));
    FirstIndexSnoc(t, y, Equals(b));
    if j < |d| {
      DedupFirstAppearance(t, i, j);
    } else {
      assert b == y && y !in t;
    }
  }

  /** The occurrences in `s` of the elements of `keys`, added up. */
  function SumCounts<T(==)>(keys: seq<T>, s: seq<T>): nat {
    if keys == [] then 0
    else SumCounts(keys[..|keys| - 1], s) + Count(s, keys[|keys| - 1])
  }

  lemma {:induction false} SumCountsSnoc<T>(keys: seq<T>, s: seq<T>, y: T)
    ensures SumCounts(keys, s + [y]) == SumCounts(keys, s) + Count(keys, y)
  {
    if keys != [] {
      SumCountsSnoc(keys[..|keys| - 1], s, y);
      CountSnoc(s, y, keys[|keys| - 1]);
    }
  }

  /** Counting every distinct element once accounts for every element:
      the counts of a tally add up to the number of items tallied. */
  lemma {:induction false} DedupCountsSum<T>(s: seq<T>)
    ensures SumCounts(Dedup(s), s) == |s|
  {
    if s != [] {
      var t, y := s[..|s| - 1], s[|s| - 1];
      assert s == t + [y];
      DedupCountsSum(t);
      var d := Dedup(t);
      DedupSnoc(t, y);
      SumCountsSnoc(d, t, y);
      if y in t {
        CountDistinct(d, y);
      } else {
        assert d + [y] != [] && (d + [y])[..|d|] == d;
        CountSnoc(t, y, y);
      }
    }
  }

  /** `f` where `p` holds, and 0 elsewhere. */
  function Masked<T>(p: T -> bool, f: T -> real): T -> real {
    (x: T) => if p(x) then f(x) else 0.0
  }

  /** Summing over the filtered elements is summing over all of them with
      the others counted as 0. */
  lemma {:induction false} SumRealFilter<T>(s: seq<T>, p: T -> bool, f: T -> real)
    ensures SumReal(Filter(s, p), f) == SumReal(s, Masked(p, f))
  {
    if s != [] {
      SumRealFilter(s[1..], p, f);
      var head: seq<T> := if p(s[0]) then [s[0]] else [];
      SumRealConcat(head, Filter(s[1..], p), f);
      assert [s[0]][1..] == [];
    }
  }

  /** With no negative summand, a masked sum lies between 0 and the full sum. */
  lemma {:induction false} SumRealMaskedBounds<T>(s: seq<T>, p: T -> bool, f: T -> real)
    ensures (forall i :: 0 <= i < |s| ==> f(s[i]) >= 0.0) ==>
      0.0 <= SumReal(s, Masked(p, f)) <= SumReal(s, f)
  {
    if s != [] {
      assert forall i :: 0 <= i < |s[1..]| ==> s[1..][i] == s[i + 1];
      SumRealMaskedBounds(s[1..], p, f);
    }
  }

  /** `s.reduce((acc, x) => acc + f(x), 0)` for integer summands. */
  function SumInt<T>(s: seq<T>, f: T -> int): int {
    if s == [] then 0 else f(s[0]) + SumInt(s[1..], f)
  }

  /** `s.reduce((acc, x) => acc + f(x), 0)` for money amounts. */
  function SumReal<T>(s: seq<T>, f: T -> real): real {
    if s == [] then 0.0 else f(s[0]) + SumReal(s[1..], f)
  }

  lemma {:induction false} SumIntConcat<T>(a: seq<T>, b: seq<T>, f: T -> int)
    ensures SumInt(a + b, f) == SumInt(a, f) + SumInt(b, f)
  {
    if a == [] {
      assert a + b == b;
    } else {
      assert (a + b)[1..] == a[1..] + b;
      SumIntConcat(a[1..], b, f);
    }
  }

  lemma {:induction false} SumRealConcat<T>(a: seq<T>, b: seq<T>, f: T -> real)
    ensures SumReal(a + b, f) == SumReal(a, f) + SumReal(b, f)
  {
    if a == [] {
      assert a + b == b;
    } else {
      assert (a + b)[1..] == a[1..] + b;
      SumRealConcat(a[1..], b, f);
    }
  }
}
