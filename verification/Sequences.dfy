/** Options, and sequences seen as the sets of their elements. */
module Sequences {

  datatype Option<T> = None | Some(value: T)

  ghost predicate Distinct<T>(s: seq<T>) {
    forall i, j | 0 <= i < j < |s| :: s[i] != s[j]
  }

  function Members<T(==)>(s: seq<T>): set<T> {
    set x | x in s
  }

  lemma {:induction false} DistinctCount<T>(s: seq<T>)
    ensures |Members(s)| <= |s|
    ensures Distinct(s) ==> |Members(s)| == |s|
  {
    if s != [] {
      var init, last := s[..|s| - 1], s[|s| - 1];
      DistinctCount(init);
      assert Members(s) == Members(init) + {last};
    }
  }

  /** s without x, in the same order. */
  function Remove<T(==,!new)>(s: seq<T>, x: T): (r: seq<T>)
    ensures |r| <= |s|
    ensures x !in s ==> r == s
    ensures forall y :: y in r <==> y in s && y != x
  {
    if s == [] then [] else
      var r := Remove(s[1..], x);
      assert s == [s[0]] + s[1..];
      if s[0] == x then r else [s[0]] + r
  }

  lemma {:induction false} RemoveDistinct<T(!new)>(s: seq<T>, x: T)
    requires Distinct(s)
    ensures Distinct(Remove(s, x))
    ensures |Remove(s, x)| == if x in s then |s| - 1 else |s|
  {
    if s != [] {
      RemoveDistinct(s[1..], x);
      var r := Remove(s[1..], x);
      assert s == [s[0]] + s[1..];
      forall j | 0 <= j < |r|
        ensures r[j] != s[0]
      {
        assert r[j] in r && r[j] in s[1..];
      }
    }
  }
}
