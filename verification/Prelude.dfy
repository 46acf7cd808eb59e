// Shared result types and the sequence facts several modules lean on.
module Prelude {

  datatype Option<+T> = None | Some(value: T)

  datatype Result<+T, +E> = Ok(value: T) | Err(error: E)

  /** Sum of a sequence of integers. */
  function Sum(s: seq<int>): int {
    if s == [] then 0 else Sum(s[..|s| - 1]) + s[|s| - 1]
  }

  lemma {:induction false} SumAppend(s: seq<int>, t: seq<int>)
    ensures Sum(s + t) == Sum(s) + Sum(t)
  {
    if t == [] {
      assert s + t == s;
    } else {
      assert (s + t)[..|s + t| - 1] == s + t[..|t| - 1];
      SumAppend(s, t[..|t| - 1]);
    }
  }

  lemma {:induction false} SumNonNegative(s: seq<int>)
    requires forall i :: 0 <= i < |s| ==> s[i] >= 0
    ensures Sum(s) >= 0
  {
    if s != [] {
      SumNonNegative(s[..|s| - 1]);
    }
  }

  /** The elements of a sequence, each kept where it first appears. */
  function Dedupe<T(==)>(s: seq<T>): seq<T> {
    if s == [] then []
    else
      var before, last := Dedupe(s[..|s| - 1]), s[|s| - 1];
      if last in before then before else before + [last]
  }

  predicate Unique<T(==)>(s: seq<T>) {
    forall i, j :: 0 <= i < j < |s| ==> s[i] != s[j]
  }

  lemma {:induction false} DedupeKeeps<T>(s: seq<T>)
    ensures Unique(Dedupe(s)) && |Dedupe(s)| <= |s|
    ensures forall x :: x in Dedupe(s) <==> x in s
  {
    if s != [] {
      DedupeKeeps(s[..|s| - 1]);
    }
  }

  lemma HasFirst<T>(s: seq<T>)
    ensures s == [] || s[0] in s
  {
  }

  /** Two sequences without repeats over the same elements are equally long. */
  lemma {:induction false} SameElementsSameLength<T>(s: seq<T>, t: seq<T>)
    requires Unique(s) && Unique(t) && forall x :: x in s <==> x in t
    ensures |s| == |t|
  {
    if s == [] {
      HasFirst(t);
    } else {
      var x := s[|s| - 1];
      assert x in s && x in t;
      var i :| 0 <= i < |t| && t[i] == x;
      var rest := t[..i] + t[i + 1..];
      var front := s[..|s| - 1];
      forall y ensures y in front <==> y in rest {
        assert y in s <==> y in front || y == x;
      }
      SameElementsSameLength(front, rest);
    }
  }
}
