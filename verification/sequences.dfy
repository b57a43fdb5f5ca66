/** The two lookups of Swift's `Sequence`/`Collection` that the embedded-content
    accessors rely on: `first` and `first(where:)`, with `filter` as an independent
    reference definition for the latter. */
module Sequences {
  import opened Wrappers

  /** `s.first`: the element at index 0, or nothing for an empty sequence. */
  function First<T>(s: seq<T>): (r: Option<T>)
    ensures r.None? <==> |s| == 0
    ensures r.Some? ==> r.value == s[0]
  {
    if |s| == 0 then None else Some(s[0])
  }

  /** `s.first(where: p)`: the earliest element satisfying `p`, or nothing when no
      element does. */
  function FirstWhere<T>(s: seq<T>, p: T -> bool): (r: Option<T>)
    ensures r.None? <==> forall i :: 0 <= i < |s| ==> !p(s[i])
    ensures r.Some? ==> p(r.value) && r.value in s
    ensures r.Some? ==>
      exists i :: 0 <= i < |s| && s[i] == r.value && forall j :: 0 <= j < i ==> !p(s[j])
  {
    if |s| == 0 then None
    else if p(s[0]) then Some(s[0])
    else
      var r := FirstWhere(s[1..], p);
      assert forall i :: 0 < i < |s| ==> s[i] == s[1..][i - 1];
      r
  }

  /** `s.filter(p)`: the elements satisfying `p`, in their original order. */
  function Filter<T>(s: seq<T>, p: T -> bool): (r: seq<T>)
    ensures |r| <= |s|
    ensures forall i :: 0 <= i < |r| ==> r[i] in s && p(r[i])
    ensures forall i :: 0 <= i < |s| && p(s[i]) ==> s[i] in r
  {
    if |s| == 0 then []
    else if p(s[0]) then [s[0]] + Filter(s[1..], p)
    else Filter(s[1..], p)
  }

  /** A singleton or empty sequence holding the optional value: the
      `if let x { [x] } else { [] }` idiom. */
  function FromOption<T>(o: Option<T>): (s: seq<T>)
    ensures |s| <= 1
    ensures First(s) == o
  {
    match o
    case None => []
    case Some(x) => [x]
  }

  /** `first(where:)` is the first element of the filtered sequence. */
  lemma {:induction false} FirstWhereIsFirstOfFilter<T>(s: seq<T>, p: T -> bool)
    ensures FirstWhere(s, p) == First(Filter(s, p))
  {
    if |s| > 0 && !p(s[0]) {
      FirstWhereIsFirstOfFilter(s[1..], p);
    }
  }

  /** Searching a concatenation searches the left part first and falls through to
      the right part only when the left part has no match. */
  lemma {:induction false} FirstWhereAppend<T>(a: seq<T>, b: seq<T>, p: T -> bool)
    ensures FirstWhere(a + b, p) ==
            if FirstWhere(a, p).Some? then FirstWhere(a, p) else FirstWhere(b, p)
  {
    if |a| > 0 {
      assert (a + b)[0] == a[0];
      assert (a + b)[1..] == a[1..] + b;
      FirstWhereAppend(a[1..], b, p);
    } else {
      assert a + b == b;
    }
  }

  /** When exactly one element satisfies `p`, `first(where:)` finds it wherever it
      sits. */
  lemma FirstWhereUnique<T>(s: seq<T>, p: T -> bool, i: int)
    requires 0 <= i < |s| && p(s[i])
    requires forall j :: 0 <= j < |s| && j != i ==> !p(s[j])
    ensures FirstWhere(s, p) == Some(s[i])
  {
  }
}
