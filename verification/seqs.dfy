/** Order-preserving selection over sequences: the shape shared by SQL
    `WHERE` over a table and JavaScript's `Array.prototype.filter`. */
module Seqs {
  import opened Wrappers

  /** `r` can be obtained from `s` by deleting elements, keeping the order. */
  predicate IsSubsequence<T(==)>(r: seq<T>, s: seq<T>)
    decreases |s|
  {
    if |r| == 0 then true
    else if |s| == 0 then false
    else (r[0] == s[0] && IsSubsequence(r[1..], s[1..])) || IsSubsequence(r, s[1..])
  }

  /** The elements of `s` satisfying `p`, in their original order. */
  function Filter<T(==,!new)>(p: T -> bool, s: seq<T>): (r: seq<T>)
    ensures forall x :: x in r <==> x in s && p(x)
    ensures forall i :: 0 <= i < |r| ==> p(r[i])
    ensures forall x :: p(x) ==> multiset(r)[x] == multiset(s)[x]
    ensures IsSubsequence(r, s)
  {
    SelectSpec(p, s);
    Select(p, s)
  }

  /** The recursion behind `Filter`, kept free of quantified guarantees so
      that equational facts about it stay cheap to prove. */
  function Select<T>(p: T -> bool, s: seq<T>): seq<T>
    decreases |s|
  {
    if |s| == 0 then []
    else if p(s[0]) then [s[0]] + Select(p, s[1..])
    else Select(p, s[1..])
  }

  lemma {:induction false} SelectSpec<T(!new)>(p: T -> bool, s: seq<T>)
    ensures forall x :: x in Select(p, s) <==> x in s && p(x)
    ensures forall i :: 0 <= i < |Select(p, s)| ==> p(Select(p, s)[i])
    ensures forall x :: p(x) ==> multiset(Select(p, s))[x] == multiset(s)[x]
    ensures IsSubsequence(Select(p, s), s)
    decreases |s|
  {
    if |s| > 0 {
      var rest := Select(p, s[1..]);
      SelectSpec(p, s[1..]);
      assert s == [s[0]] + s[1..];
      SubsequenceDropHead(rest, s);
      if p(s[0]) {
        assert ([s[0]] + rest)[1..] == rest;
      }
    }
  }

  lemma {:induction false} SubsequenceDropHead<T>(r: seq<T>, s: seq<T>)
    requires |s| > 0 && IsSubsequence(r, s[1..])
    ensures IsSubsequence(r, s)
  {
  }

  /** The earliest element satisfying `p`: the first row of a query. */
  function FindFirst<T>(p: T -> bool, s: seq<T>): (r: Option<T>)
    ensures r.None? <==> forall i :: 0 <= i < |s| ==> !p(s[i])
    ensures r.Some? ==> r.value in s && p(r.value)
    ensures r.Some? ==> exists k :: 0 <= k < |s| && s[k] == r.value && forall j :: 0 <= j < k ==> !p(s[j])
    decreases |s|
  {
    if |s| == 0 then None
    else if p(s[0]) then Some(s[0])
    else
      var r := FindFirst(p, s[1..]);
      assert forall i :: 1 <= i < |s| ==> s[i] == s[1..][i - 1];
      assert r.Some? ==> exists k :: 0 <= k < |s| && s[k] == r.value && forall j :: 0 <= j < k ==> !p(s[j]) by {
        if r.Some? {
          var k :| 0 <= k < |s[1..]| && s[1..][k] == r.value && forall j :: 0 <= j < k ==> !p(s[1..][j]);
          assert s[k + 1] == r.value && forall j :: 0 <= j < k + 1 ==> !p(s[j]);
        }
      }
      r
  }

  /** Taking `rows[0]` of a non-empty filtered result is `FindFirst`. */
  lemma {:induction false} FindFirstIsFilterHead<T(!new)>(p: T -> bool, s: seq<T>)
    ensures FindFirst(p, s) == if |Filter(p, s)| == 0 then None else Some(Filter(p, s)[0])
    decreases |s|
  {
    if |s| > 0 && !p(s[0]) {
      FindFirstIsFilterHead(p, s[1..]);
    }
  }

  /** Filtering distributes over concatenation. */
  lemma FilterConcat<T(!new)>(p: T -> bool, a: seq<T>, b: seq<T>)
    ensures Filter(p, a + b) == Filter(p, a) + Filter(p, b)
  {
    SelectConcat(p, a, b);
  }

  lemma {:induction false} SelectConcat<T>(p: T -> bool, a: seq<T>, b: seq<T>)
    ensures Select(p, a + b) == Select(p, a) + Select(p, b)
    decreases |a|
  {
    if |a| == 0 {
      assert a + b == b;
    } else {
      SelectConcat(p, a[1..], b);
      assert (a + b)[1..] == a[1..] + b;
    }
  }

  /** A predicate every element satisfies filters nothing out. */
  lemma {:induction false} FilterAll<T(!new)>(p: T -> bool, s: seq<T>)
    requires forall i :: 0 <= i < |s| ==> p(s[i])
    ensures Filter(p, s) == s
    decreases |s|
  {
    if |s| > 0 {
      FilterAll(p, s[1..]);
    }
  }
}
