/** Sequences of requests as the scheduler's queues move them: reversal, the split of a queue by what
    became of each entry, and order. */
module SchedulerQueues {
  import opened SchedulingBudgets

  datatype Fate = Taken | Skipped | Ignored

  function Reverse(s: seq<Id>): (r: seq<Id>)
    ensures |r| == |s|
  {
    if s == [] then [] else Reverse(s[1..]) + [s[0]]
  }

  lemma {:induction false} ReverseKeeps(s: seq<Id>)
    ensures multiset(Reverse(s)) == multiset(s)
  {
    if s != [] {
      ReverseKeeps(s[1..]);
      assert s == [s[0]] + s[1..];
    }
  }

  /** Appending one by one at the left reverses what is appended. */
  function ExtendLeft(queue: seq<Id>, s: seq<Id>): seq<Id> {
    Reverse(s) + queue
  }

  /** The entries of one fate, in order. */
  function Select(s: seq<Id>, fates: seq<Fate>, f: Fate): (r: seq<Id>)
    requires |s| == |fates|
  {
    if s == [] then [] else
      var n := |s| - 1;
      Select(s[..n], fates[..n], f) + if fates[n] == f then [s[n]] else []
  }

  lemma SelectMore(s: seq<Id>, fates: seq<Fate>, id: Id, g: Fate, f: Fate)
    requires |s| == |fates|
    ensures Select(s + [id], fates + [g], f) == Select(s, fates, f) + if g == f then [id] else []
  {
    assert (s + [id])[..|s|] == s && (fates + [g])[..|s|] == fates;
  }

  ghost function Count(s: seq<Id>, fates: seq<Fate>, f: Fate): multiset<Id>
    requires |s| == |fates|
  {
    multiset(Select(s, fates, f))
  }

  lemma {:induction false} OneFate(s: seq<Id>, fates: seq<Fate>, x: Id)
    requires |s| == |fates|
    ensures multiset(s)[x] == Count(s, fates, Taken)[x] + Count(s, fates, Skipped)[x] + Count(s, fates, Ignored)[x]
  {
    hide Count;
    if s == [] {
      assert forall f :: Count(s, fates, f) == multiset{} by { NothingCounted(s, fates); }
    } else {
      var n := |s| - 1;
      OneFate(s[..n], fates[..n], x);
      assert s == s[..n] + [s[n]];
      CountMore(s, fates, Taken, x);
      CountMore(s, fates, Skipped, x);
      CountMore(s, fates, Ignored, x);
    }
  }

  lemma NothingCounted(s: seq<Id>, fates: seq<Fate>)
    requires |s| == |fates| == 0
    ensures forall f :: Count(s, fates, f) == multiset{}
  {
  }

  lemma CountMore(s: seq<Id>, fates: seq<Fate>, f: Fate, x: Id)
    requires |s| == |fates| > 0
    ensures var n := |s| - 1;
            Count(s, fates, f)[x] == Count(s[..n], fates[..n], f)[x] + if fates[n] == f && s[n] == x then 1 else 0
  {
  }

  /** Every entry has exactly one fate. */
  lemma SelectSplits(s: seq<Id>, fates: seq<Fate>)
    requires |s| == |fates|
    ensures multiset(s) == Count(s, fates, Taken) + Count(s, fates, Skipped) + Count(s, fates, Ignored)
  {
    hide Count;
    forall x: Id
      ensures multiset(s)[x] == Count(s, fates, Taken)[x] + Count(s, fates, Skipped)[x] + Count(s, fates, Ignored)[x]
    {
      OneFate(s, fates, x);
    }
  }

  lemma {:induction false} NoneSelected(s: seq<Id>, fates: seq<Fate>, f: Fate)
    requires |s| == |fates| && f !in fates
    ensures Select(s, fates, f) == []
  {
    if s != [] {
      var n := |s| - 1;
      assert fates == fates[..n] + [fates[n]];
      NoneSelected(s[..n], fates[..n], f);
    }
  }

  /** a is what remains of b when some entries are struck out. */
  ghost predicate Subsequence(a: seq<Id>, b: seq<Id>)
    decreases |b|
  {
    if b == [] then a == []
    else
      var n := |b| - 1;
      Subsequence(a, b[..n]) || (a != [] && a[|a| - 1] == b[n] && Subsequence(a[..|a| - 1], b[..n]))
  }

  lemma {:induction false} EmptySubsequence(b: seq<Id>)
    ensures Subsequence([], b)
    decreases |b|
  {
    if b != [] {
      EmptySubsequence(b[..|b| - 1]);
    }
  }

  lemma {:induction false} SelectInOrder(s: seq<Id>, fates: seq<Fate>, f: Fate)
    requires |s| == |fates|
    ensures Subsequence(Select(s, fates, f), s)
  {
    if s != [] {
      var n := |s| - 1;
      SelectInOrder(s[..n], fates[..n], f);
      var part := Select(s[..n], fates[..n], f);
      assert s == s[..n] + [s[n]];
      if fates[n] == f {
        SubsequenceAppend(part, s[..n], [s[n]]);
      } else {
        assert part + [] == part;
        SubsequenceRight(part, s[..n], [s[n]]);
      }
    }
  }

  lemma {:induction false} SubsequenceLeft(a: seq<Id>, front: seq<Id>, b: seq<Id>)
    requires Subsequence(a, b)
    ensures Subsequence(a, front + b)
    decreases |b|
  {
    if b == [] {
      EmptySubsequence(front);
      assert front + b == front;
    } else {
      var n := |b| - 1;
      assert (front + b)[..|front + b| - 1] == front + b[..n];
      if Subsequence(a, b[..n]) {
        SubsequenceLeft(a, front, b[..n]);
      } else {
        SubsequenceLeft(a[..|a| - 1], front, b[..n]);
      }
    }
  }

  lemma {:induction false} SubsequenceRight(a: seq<Id>, b: seq<Id>, back: seq<Id>)
    requires Subsequence(a, b)
    ensures Subsequence(a, b + back)
    decreases |back|
  {
    if back == [] {
      assert b + back == b;
    } else {
      assert (b + back)[..|b + back| - 1] == b + back[..|back| - 1];
      SubsequenceRight(a, b, back[..|back| - 1]);
    }
  }

  lemma {:induction false} SubsequenceAppend(a: seq<Id>, b: seq<Id>, back: seq<Id>)
    requires Subsequence(a, b)
    ensures Subsequence(a + back, b + back)
    decreases |back|
  {
    if back == [] {
      assert b + back == b && a + back == a;
    } else {
      var n := |back| - 1;
      assert (b + back)[..|b + back| - 1] == b + back[..n] && (a + back)[..|a + back| - 1] == a + back[..n];
      SubsequenceAppend(a, b, back[..n]);
    }
  }

  lemma {:induction false} ReverseAppend(s: seq<Id>, id: Id)
    ensures Reverse(s + [id]) == [id] + Reverse(s)
  {
    if s == [] {
      assert s + [id] == [id];
    } else {
      assert (s + [id])[1..] == s[1..] + [id];
      ReverseAppend(s[1..], id);
    }
  }

  lemma {:induction false} ReverseConcat(a: seq<Id>, b: seq<Id>)
    ensures Reverse(a + b) == Reverse(b) + Reverse(a)
    decreases |b|
  {
    hide Reverse;
    if b == [] {
      assert a + b == a;
      NothingReversed();
    } else {
      var n := |b| - 1;
      ReverseConcat(a, b[..n]);
      assert b == b[..n] + [b[n]];
      ReverseAppend(b[..n], b[n]);
      assert a + b == (a + b[..n]) + [b[n]];
      ReverseAppend(a + b[..n], b[n]);
    }
  }

  lemma NothingReversed()
    ensures Reverse([]) == []
  {
  }
}
