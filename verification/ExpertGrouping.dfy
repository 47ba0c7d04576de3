/** Routing tokens to experts in groups: the assignments are sorted by expert once, and each expert adds its
    weighted outputs for its own run of them. One value of the hidden vector; values are independent. */
module ExpertGrouping {
  import opened IntFacts
  import opened RealSums

  function Range(n: nat): (s: seq<int>)
    ensures |s| == n
  {
    seq(n, i => i)
  }

  /** order is a sort of the assignments by expert. */
  ghost predicate SortsBy(order: seq<int>, experts: seq<nat>) {
    && |order| == |experts| && multiset(order) == multiset(Range(|experts|))
    && (forall i | 0 <= i < |order| :: 0 <= order[i] < |experts|)
    && (forall i, j | 0 <= i < j < |order| :: experts[order[i]] <= experts[order[j]])
  }

  function Count(experts: seq<nat>, e: nat): nat {
    if experts == [] then 0 else Count(experts[..|experts| - 1], e) + if experts[|experts| - 1] == e then 1 else 0
  }

  function CountBelow(experts: seq<nat>, e: nat): nat {
    if experts == [] then 0 else CountBelow(experts[..|experts| - 1], e) + if experts[|experts| - 1] < e then 1 else 0
  }

  lemma {:induction false} NextBelow(experts: seq<nat>, e: nat)
    ensures CountBelow(experts, e + 1) == CountBelow(experts, e) + Count(experts, e)
  {
    if experts != [] {
      NextBelow(experts[..|experts| - 1], e);
    }
  }

  lemma {:induction false} AllBelow(experts: seq<nat>, e: nat)
    requires forall i | 0 <= i < |experts| :: experts[i] < e
    ensures CountBelow(experts, e) == |experts|
  {
    if experts != [] {
      AllBelow(experts[..|experts| - 1], e);
    }
  }

  lemma {:induction false} NoneBelow(experts: seq<nat>)
    ensures CountBelow(experts, 0) == 0
  {
    if experts != [] {
      NoneBelow(experts[..|experts| - 1]);
    }
  }

  // ---------- sums along a permutation ----------

  function SumOver(order: seq<int>, f: int -> real): real {
    if order == [] then 0.0 else SumOver(order[..|order| - 1], f) + f(order[|order| - 1])
  }

  lemma {:induction false} SumOverConcat(a: seq<int>, b: seq<int>, f: int -> real)
    ensures SumOver(a + b, f) == SumOver(a, f) + SumOver(b, f)
    decreases |b|
  {
    if b == [] {
      assert a + b == a;
    } else {
      var n := |b| - 1;
      assert (a + b)[..|a + b| - 1] == a + b[..n];
      SumOverConcat(a, b[..n], f);
    }
  }

  lemma RangeLast(n: nat)
    requires n > 0
    ensures Range(n) == Range(n - 1) + [n - 1]
  {
  }

  /** The order in which terms are added does not matter. */
  lemma {:induction false} SumOverRange(order: seq<int>, n: nat, f: int -> real)
    requires multiset(order) == multiset(Range(n))
    ensures SumOver(order, f) == Sum(n, f)
    decreases n
  {
    hide Range, SumOver;
    if n == 0 {
      EmptyRange(order);
      SumOverNone(f);
    } else {
      var a, b := LastOfRange(order, n);
      SumOverRange(a + b, n - 1, f);
      SumOverConcat(a + [n - 1], b, f);
      SumOverConcat(a, [n - 1], f);
      SumOverConcat(a, b, f);
      SumOne(n - 1, f);
    }
  }

  lemma LastOfRange(order: seq<int>, n: nat) returns (a: seq<int>, b: seq<int>)
    requires n > 0 && multiset(order) == multiset(Range(n))
    ensures order == a + [n - 1] + b && multiset(a + b) == multiset(Range(n - 1))
  {
    hide Range;
    RangeLast(n);
    assert n - 1 in multiset(order);
    var p :| 0 <= p < |order| && order[p] == n - 1;
    a, b := order[..p], order[p + 1..];
    assert order == a + [n - 1] + b;
    assert multiset(a + b) == multiset(order) - multiset{n - 1};
    assert multiset(Range(n - 1)) == multiset(Range(n)) - multiset{n - 1};
  }

  lemma SumOverNone(f: int -> real)
    ensures SumOver([], f) == 0.0
  {
  }

  lemma SumOne(x: int, f: int -> real)
    ensures SumOver([x], f) == f(x)
  {
    assert [x][..0] == [];
  }

  lemma EmptyRange(order: seq<int>)
    requires multiset(order) == multiset(Range(0))
    ensures order == []
  {
    assert |multiset(order)| == 0;
  }

  // ---------- the runs of a sorted assignment list ----------

  function Sorted(order: seq<int>, experts: seq<nat>): (s: seq<nat>)
    requires forall i | 0 <= i < |order| :: 0 <= order[i] < |experts|
    ensures |s| == |order|
  {
    seq(|order|, i requires 0 <= i < |order| => experts[order[i]])
  }

  function Below(experts: seq<nat>, e: nat): int -> real {
    a => if 0 <= a < |experts| && experts[a] < e then 1.0 else 0.0
  }

  lemma {:induction false} CountIsSum(experts: seq<nat>, e: nat, n: nat)
    requires n <= |experts|
    ensures CountBelow(experts[..n], e) as real == Sum(n, Below(experts, e))
  {
    if n > 0 {
      CountIsSum(experts, e, n - 1);
      assert experts[..n][..n - 1] == experts[..n - 1];
    }
  }

  lemma {:induction false} CountIsSumOver(order: seq<int>, experts: seq<nat>, e: nat)
    requires forall i | 0 <= i < |order| :: 0 <= order[i] < |experts|
    ensures CountBelow(Sorted(order, experts), e) as real == SumOver(order, Below(experts, e))
  {
    if order != [] {
      var n := |order| - 1;
      CountIsSumOver(order[..n], experts, e);
      assert Sorted(order, experts)[..n] == Sorted(order[..n], experts);
    }
  }

  lemma {:induction false} SortedRuns(s: seq<nat>, e: nat)
    requires forall i, j | 0 <= i < j < |s| :: s[i] <= s[j]
    ensures forall i | 0 <= i < |s| :: s[i] < e <==> i < CountBelow(s, e)
    ensures CountBelow(s, e) <= |s|
  {
    if s != [] {
      var n := |s| - 1;
      SortedRuns(s[..n], e);
      if s[n] < e {
        AllBelow(s, e);
      }
    }
  }

  /** After sorting, expert e owns exactly the positions from the number of assignments below e on. */
  lemma RunOfExpert(order: seq<int>, experts: seq<nat>, e: nat)
    requires SortsBy(order, experts)
    ensures CountBelow(experts, e) <= |order|
    ensures forall i | 0 <= i < |order| :: experts[order[i]] < e <==> i < CountBelow(experts, e)
  {
    var s := Sorted(order, experts);
    CountIsSumOver(order, experts, e);
    SumOverRange(order, |experts|, Below(experts, e));
    CountIsSum(experts, e, |experts|);
    assert experts[..|experts|] == experts;
    SortedRuns(s, e);
    assert forall i | 0 <= i < |order| :: s[i] == experts[order[i]];
  }

  // ---------- what every token is owed ----------

  lemma {:induction false} SumSplit(m: nat, n: nat, f: int -> real, g: int -> real)
    requires forall i | 0 <= i < n :: g(i) == f(m + i)
    ensures Sum(m + n, f) == Sum(m, f) + Sum(n, g)
  {
    if n > 0 {
      SumSplit(m, n - 1, f, g);
    }
  }

  /** The flat list holds the top-k slots of token 0, then of token 1, and so on. */
  predicate IsSlotOf(a: int, t: nat, K: nat)
    requires K > 0
  {
    a / K == t
  }

  lemma SlotsAreConsecutive(a: nat, t: nat, K: nat)
    requires K > 0
    ensures IsSlotOf(a, t, K) <==> t * K <= a < t * K + K
  {
    assert a == a / K * K + a % K;
    if t * K <= a < t * K + K {
      DivModUnique(a, t, a - t * K, K);
    }
  }

  /** Only its own top-k slots contribute to a token. */
  lemma OwnSlots(T: nat, K: nat, t: nat, f: int -> real, own: int -> real)
    requires K > 0 && t < T
    requires forall a | 0 <= a < T * K :: own(a) == if IsSlotOf(a, t, K) then f(a) else 0.0
    ensures Sum(T * K, own) == Sum(K, j => f(t * K + j))
  {
    hide IsSlotOf;
    var base, N := t * K, T * K;
    RowInside(T, K, t);
    var slots := j => f(base + j);
    forall a | 0 <= a < N
      ensures own(a) == if base <= a < base + K then f(a) else 0.0
    {
      SlotsAreConsecutive(a, t, K);
    }
    SumTail(base + K, N, own);
    SumSplit(base, K, own, slots);
    SumZero(base, own);
    SumExt(K, slots, j => f(t * K + j));
  }

  lemma RowInside(T: nat, K: nat, t: nat)
    requires K > 0 && t < T
    ensures 0 <= t * K <= t * K + K <= T * K
  {
    assert (t + 1) * K == t * K + K;
    MultiplesMonotone(t + 1, T, K);
    MultiplesMonotone(0, t, K);
  }

  function Owed(K: nat, experts: seq<nat>, weights: seq<real>, output: (nat, nat) -> real, a: int): real
    requires K > 0 && |weights| == |experts|
  {
    if 0 <= a < |experts| then output(experts[a], a / K) * weights[a] else 0.0
  }

  function OwedTo(K: nat, experts: seq<nat>, weights: seq<real>, output: (nat, nat) -> real, t: nat): int -> real
    requires K > 0 && |weights| == |experts|
  {
    a => if IsSlotOf(a, t, K) then Owed(K, experts, weights, output, a) else 0.0
  }

  // ---------- the grouped loop ----------

  lemma OwedIs(K: nat, experts: seq<nat>, weights: seq<real>, output: (nat, nat) -> real, a: nat, value: real)
    requires K > 0 && |weights| == |experts| && a < |experts| && value == output(experts[a], a / K) * weights[a]
    ensures Owed(K, experts, weights, output, a) == value
  {
  }

  /** After the first n sorted assignments every token has what those assignments owe it. */
  ghost predicate Paid(out: seq<real>, order: seq<int>, n: nat, K: nat, experts: seq<nat>, weights: seq<real>,
      output: (nat, nat) -> real)
    requires K > 0 && |weights| == |experts| && n <= |order|
  {
    forall t | 0 <= t < |out| :: out[t] == SumOver(order[..n], OwedTo(K, experts, weights, output, t))
  }

  lemma PayOne(out: seq<real>, order: seq<int>, n: nat, K: nat, experts: seq<nat>, weights: seq<real>, output: (nat,
      nat) -> real)
    requires K > 0 && |weights| == |experts| && n < |order| && 0 <= order[n] < |experts|
    requires Paid(out, order, n, K, experts, weights, output) && 0 <= order[n] / K < |out|
    ensures var token := order[n] / K;
            Paid(out[token := out[token] + Owed(K, experts, weights, output, order[n])], order, n + 1, K, experts,
                weights, output)
  {
    hide Owed;
    assert order[..n + 1][..n] == order[..n];
  }

  lemma NothingPaid(out: seq<real>, order: seq<int>, K: nat, experts: seq<nat>, weights: seq<real>, output: (nat,
      nat) -> real)
    requires K > 0 && |weights| == |experts| && forall t | 0 <= t < |out| :: out[t] == 0.0
    ensures Paid(out, order, 0, K, experts, weights, output)
  {
  }

  /** Everything owed to a token is the sum over its own top-k slots. */
  lemma AllPaid(out: seq<real>, order: seq<int>, T: nat, K: nat, experts: seq<nat>, weights: seq<real>,
      output: (nat, nat) -> real, t: nat)
    requires K > 0 && |weights| == |experts| == T * K && t < |out| == T
    requires SortsBy(order, experts) && Paid(out, order, |order|, K, experts, weights, output)
    ensures out[t] == Sum(K, j => Owed(K, experts, weights, output, t * K + j))
  {
    hide Owed, IsSlotOf;
    assert order[..|order|] == order;
    var own, f := OwedTo(K, experts, weights, output, t), a => Owed(K, experts, weights, output, a);
    SumOverRange(order, T * K, own);
    OwnSlots(T, K, t, f, own);
    SumExt(K, j => f(t * K + j), j => Owed(K, experts, weights, output, t * K + j));
  }

  /** Every token gets the sum over its top-k slots of weight times that expert's output. */
  method GroupedExperts(T: nat, K: nat, E: nat, experts: seq<nat>, weights: seq<real>, output: (nat, nat) -> real,
      order: seq<int>)
      returns (out: array<real>)
    requires K > 0 && |experts| == |weights| == T * K && (forall a | 0 <= a < |experts| :: experts[a] < E)
    requires SortsBy(order, experts)
    ensures out.Length == T
    ensures forall t | 0 <= t < T :: out[t] == Sum(K, j => Owed(K, experts, weights, output, t * K + j))
  {
    hide Paid, Sum, SumOver, CountBelow, Count, Owed;
    out := new real[T](_ => 0.0);
    var start := 0;
    NoneBelow(experts);
    NothingPaid(out[..], order, K, experts, weights, output);
    for e := 0 to E
      invariant start == CountBelow(experts, e) <= |order|
      invariant Paid(out[..], order, start, K, experts, weights, output)
    {
      var end := start + Count(experts, e);
      NextBelow(experts, e);
      RunOfExpert(order, experts, e);
      RunOfExpert(order, experts, e + 1);
      for i := start to end
        invariant Paid(out[..], order, i, K, experts, weights, output)
      {
        var a := order[i];
        assert experts[a] == e;
        TokenInside(a, T, K);
        var token := a / K;
        ghost var before := out[..];
        PayOne(before, order, i, K, experts, weights, output);
        var value := output(e, token) * weights[a];
        OwedIs(K, experts, weights, output, a, value);
        out[token] := out[token] + value;
        assert out[..] == before[token := before[token] + Owed(K, experts, weights, output, a)];
      }
      start := end;
    }
    AllBelow(experts, E);
    forall t | 0 <= t < T
      ensures out[t] == Sum(K, j => Owed(K, experts, weights, output, t * K + j))
    {
      AllPaid(out[..], order, T, K, experts, weights, output, t);
    }
  }

  lemma TokenInside(a: nat, T: nat, K: nat)
    requires K > 0 && a < T * K
    ensures 0 <= a / K < T
  {
    var q := a / K;
    assert a == q * K + a % K;
    if T <= q {
      MultiplesMonotone(T, q, K);
    }
  }
}
