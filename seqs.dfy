/** Order-preserving sequence combinators: the list comprehensions and the
    "first element that matches" loops of the source are instances of these. */
module Seqs {
  import opened Wrappers

  /** `[x for x in s if p(x)]`: exactly the elements of `s` that satisfy `p`
      survive (the order is the subject of FilterConcat). */
  function Filter<T(!new)>(s: seq<T>, p: T -> bool): (r: seq<T>)
    ensures |r| <= |s|
    ensures forall x :: x in r <==> x in s && p(x)
  {
    if s == [] then []
    else
      assert forall x :: x in s <==> x == s[0] || x in s[1..];
      (if p(s[0]) then [s[0]] else []) + Filter(s[1..], p)
  }

  /** Filtering distributes over concatenation, so the relative order of the
      surviving elements is the order they had in the input. */
  lemma {:induction false} FilterConcat<T(!new)>(a: seq<T>, b: seq<T>, p: T -> bool)
    ensures Filter(a + b, p) == Filter(a, p) + Filter(b, p)
  {
    if a == [] {
      assert a + b == b;
    } else {
      assert (a + b)[1..] == a[1..] + b && (a + b)[0] == a[0];
      FilterConcat(a[1..], b, p);
    }
  }

  /** The head of a filtered sequence is the first element that satisfies `p`. */
  lemma {:induction false} FilterFirst<T(!new)>(s: seq<T>, p: T -> bool, i: nat)
    requires i < |s| && p(s[i]) && forall j :: 0 <= j < i ==> !p(s[j])
    ensures Filter(s, p) != [] && Filter(s, p)[0] == s[i]
  {
    if i > 0 {
      assert forall j :: 0 <= j < i - 1 ==> s[1..][j] == s[j + 1];
      FilterFirst(s[1..], p, i - 1);
    }
  }

  /** `[f(x) for x in s]`: one output per input, in input order. */
  function Map<T, U>(s: seq<T>, f: T -> U): (r: seq<U>)
    ensures |r| == |s| && forall i :: 0 <= i < |s| ==> r[i] == f(s[i])
  {
    if s == [] then [] else [f(s[0])] + Map(s[1..], f)
  }

  /** Mapping distributes over concatenation. */
  lemma MapConcat<T, U>(a: seq<T>, b: seq<T>, f: T -> U)
    ensures Map(a + b, f) == Map(a, f) + Map(b, f)
  {
    assert forall i :: |a| <= i < |a + b| ==> (a + b)[i] == b[i - |a|];
  }

  /** Index of the first element of `s` that satisfies `p`, if any. */
  function FirstIndex<T>(s: seq<T>, p: T -> bool): (r: Option<nat>)
    ensures r.None? <==> forall i :: 0 <= i < |s| ==> !p(s[i])
    ensures r.Some? ==> r.value < |s| && p(s[r.value]) && forall j :: 0 <= j < r.value ==> !p(s[j])
  {
    if s == [] then None
    else if p(s[0]) then Some(0)
    else match FirstIndex(s[1..], p)
      case None => None
      case Some(k) => Some(k + 1)
  }

  /** A loop that builds one output per input and stops at the first input
      that raises: the outputs in input order when every input succeeds, else
      the error of the first input that fails. */
  function Traverse<T, U, E>(s: seq<T>, f: T -> Result<U, E>): (r: Result<seq<U>, E>)
    ensures r.Success? <==> forall j :: 0 <= j < |s| ==> f(s[j]).Success?
    ensures r.Success? ==> |r.value| == |s| && forall j :: 0 <= j < |s| ==> r.value[j] == f(s[j]).value
    ensures r.Failure? ==>
              exists k :: 0 <= k < |s| && f(s[k]).Failure? && r.error == f(s[k]).error &&
                          forall j :: 0 <= j < k ==> f(s[j]).Success?
  {
    if s == [] then Success([])
    else
      match f(s[0])
      case Failure(e) => Failure(e)
      case Success(u) =>
        match Traverse(s[1..], f)
        case Failure(e) =>
          assert forall j :: 1 <= j < |s| ==> s[j] == s[1..][j - 1];
          Failure(e)
        case Success(us) =>
          assert forall j :: 1 <= j < |s| ==> s[j] == s[1..][j - 1];
          Success([u] + us)
  }
}
