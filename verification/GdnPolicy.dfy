/** The scheduler's index of saved recurrent states: least recently used first. */
module GdnPolicy {
  import opened GdnPrefix
  import opened IntFacts
  import opened Sequences

  datatype CachePolicy = Fine32 | Admission64 | Off

  function Capacity(policy: CachePolicy): nat {
    match policy
    case Fine32 => 32
    case Admission64 => 64
    case Off => 0
  }

  lemma MoveToEndDistinct(s: seq<PrefixKey>, k: PrefixKey)
    requires Distinct(s)
    ensures Distinct(MoveToEnd(s, k))
    ensures |MoveToEnd(s, k)| == if k in s then |s| else |s| + 1
    ensures forall x :: x in MoveToEnd(s, k) <==> x in s || x == k
  {
    RemoveDistinct(s, k);
    var r := Remove(s, k);
    forall j | 0 <= j < |r|
      ensures r[j] != k
    {
      assert r[j] in r;
    }
  }

  /** A key that is used or added becomes the most recent one. */
  function MoveToEnd(s: seq<PrefixKey>, k: PrefixKey): seq<PrefixKey> {
    Remove(s, k) + [k]
  }

  function Overflow(s: seq<PrefixKey>, capacity: nat): nat {
    if |s| > capacity then |s| - capacity else 0
  }

  datatype Admission = Admission(resident: seq<PrefixKey>, evicted: seq<PrefixKey>)

  function AdmitOne(s: seq<PrefixKey>, k: PrefixKey, capacity: nat): Admission {
    var t := MoveToEnd(s, k);
    Admission(t[Overflow(t, capacity)..], t[..Overflow(t, capacity)])
  }

  function Admit(s: seq<PrefixKey>, keys: seq<PrefixKey>, capacity: nat): Admission
    decreases |keys|
  {
    if keys == [] then Admission(s, []) else
      var first := AdmitOne(s, keys[0], capacity);
      var rest := Admit(first.resident, keys[1..], capacity);
      Admission(rest.resident, first.evicted + rest.evicted)
  }

  /** The last key of the list that is resident. */
  function LastResident(keys: seq<PrefixKey>, s: seq<PrefixKey>): (r: Option<PrefixKey>)
    ensures r.Some? ==> r.value in keys && r.value in s
    ensures r.None? ==> forall k | k in keys :: k !in s
  {
    if keys == [] then None
    else if keys[|keys| - 1] in s then Some(keys[|keys| - 1])
    else
      assert keys == keys[..|keys| - 1] + [keys[|keys| - 1]];
      LastResident(keys[..|keys| - 1], s)
  }

  lemma {:induction false} NoneLater(keys: seq<PrefixKey>, s: seq<PrefixKey>) returns (i: nat)
    requires LastResident(keys, s).Some?
    ensures i < |keys| && keys[i] == LastResident(keys, s).value && forall j | i < j < |keys| :: keys[j] !in s
  {
    var n := |keys| - 1;
    if keys[n] in s {
      i := n;
    } else {
      i := NoneLater(keys[..n], s);
      assert forall j | i < j < n :: keys[j] == keys[..n][j];
    }
  }

  /** Among the first n keys of the list, best is the last that is resident, or none is. */
  ghost predicate IsLastOf(live: seq<PrefixKey>, n: int, s: seq<PrefixKey>, best: Option<PrefixKey>) {
    match best
    case None => forall i | 0 <= i < |live| && i < n :: live[i] !in s
    case Some(k) => k in s && exists i :: 0 <= i < |live| && i < n && live[i] == k
                                          && forall j | i < j < |live| && j < n :: live[j] !in s
  }

  lemma SelectIsLast(policy: CachePolicy, s: seq<PrefixKey>, live: seq<PrefixKey>, n: int)
    requires Capacity(policy) > 0
    ensures IsLastOf(live, n, s, SelectRestore(policy, s, live, n))
  {
    var keys := Prefix(live, n);
    assert forall i | 0 <= i < |live| && i < n :: keys[i] == live[i] && live[i] in keys;
    if LastResident(keys, s).Some? {
      var i := NoneLater(keys, s);
      assert live[i] == keys[i] && i < n;
    }
  }

  function Prefix(keys: seq<PrefixKey>, n: int): seq<PrefixKey> {
    if n <= 0 then [] else if n < |keys| then keys[..n] else keys
  }

  function SelectRestore(policy: CachePolicy, s: seq<PrefixKey>, live: seq<PrefixKey>,
      maxBlocks: int): Option<PrefixKey> {
    if Capacity(policy) == 0 then None else LastResident(Prefix(live, maxBlocks), s)
  }

  /** Under admission64, a live branch whose state is not saved. */
  function BranchCandidate(policy: CachePolicy, s: seq<PrefixKey>, live: seq<PrefixKey>,
      maxBlocks: int): Option<PrefixKey> {
    if policy != Admission64 || maxBlocks <= 0 || live == [] then None
    else
      var candidate := live[Min(|live|, maxBlocks) - 1];
      if candidate in s then None else Some(candidate)
  }

  predicate ShouldCaptureFinal(policy: CachePolicy, s: seq<PrefixKey>, key: PrefixKey) {
    match policy
    case Off => false
    case Admission64 => key !in s
    case Fine32 => true
  }

  lemma RemoveSplit(front: seq<PrefixKey>, back: seq<PrefixKey>, k: PrefixKey)
    ensures Remove(front + back, k) == Remove(front, k) + Remove(back, k)
  {
    if front == [] {
      assert front + back == back;
    } else {
      assert (front + back)[1..] == front[1..] + back;
      RemoveSplit(front[1..], back, k);
    }
  }

  lemma DropOldest(front: seq<PrefixKey>, back: seq<PrefixKey>, n: nat)
    requires n <= |front| && Distinct(front + back)
    ensures (front + back)[n..] == front[n..] + back && (front + back)[..n] == front[..n]
    ensures Distinct(front[n..] + back)
    ensures forall x | x in front[..n] :: x !in front[n..] + back
    ensures forall x :: x in front + back <==> x in front[..n] || x in front[n..] + back
  {
    var all := front + back;
    assert front[n..] + back == all[n..];
    assert all == all[..n] + all[n..];
    forall x | x in front[..n]
      ensures x !in all[n..]
    {
      var i :| 0 <= i < n && front[i] == x;
      assert all[i] == x;
    }
  }

  lemma AdmitOneRecent(front: seq<PrefixKey>, back: seq<PrefixKey>, k: PrefixKey, capacity: nat)
      returns (front': seq<PrefixKey>)
    requires Distinct(front + back) && |back| < capacity
    ensures var back' := Remove(back, k) + [k];
            var a := AdmitOne(front + back, k, capacity);
            && a.resident == front' + back' && Distinct(a.resident)
            && (|front + back| <= capacity ==> |a.resident| <= capacity)
            && (forall x | x in a.evicted :: x !in back')
            && (forall x :: x in a.resident <==> (x in front + back && x !in a.evicted) || x == k)
  {
    var t := MoveToEnd(front + back, k);
    var F, back' := Remove(front, k), Remove(back, k) + [k];
    RemoveSplit(front, back, k);
    MoveToEndDistinct(front + back, k);
    assert t == F + back';
    var n := Overflow(t, capacity);
    DropOldest(F, back', n);
    front' := F[n..];
  }

  /** Keys at the recent end survive an admission that fits beside them, and the index ends as
      (resident minus evicted) plus the admitted keys, even when a key is evicted and admitted again. */
  lemma {:induction false} AdmitRecent(front: seq<PrefixKey>, back: seq<PrefixKey>, keys: seq<PrefixKey>, capacity: nat)
    requires Distinct(front + back) && |back| + |keys| <= capacity
    ensures var a := Admit(front + back, keys, capacity);
            && Distinct(a.resident)
            && (|front + back| <= capacity ==> |a.resident| <= capacity)
            && (forall x | x in back :: x !in a.evicted && x in a.resident)
            && (forall x :: x in a.resident <==> (x in front + back && x !in a.evicted) || x in keys)
    decreases |keys|
  {
    if keys != [] {
      var k := keys[0];
      var front' := AdmitOneRecent(front, back, k, capacity);
      var back' := Remove(back, k) + [k];
      AdmitRecent(front', back', keys[1..], capacity);
      assert keys == [k] + keys[1..];
    }
  }

  /** Nothing leaves the index while it holds no more than 32 states under fine32 or 64 under admission64. */
  lemma {:induction false} RoomForAll(policy: CachePolicy, s: seq<PrefixKey>, keys: seq<PrefixKey>)
    requires Distinct(s) && |s| + |keys| <= (match policy case Fine32 => 32 case Admission64 => 64 case Off => 0)
    ensures Admit(s, keys, Capacity(policy)).evicted == []
    decreases |keys|
  {
    if keys != [] {
      MoveToEndDistinct(s, keys[0]);
      RoomForAll(policy, MoveToEnd(s, keys[0]), keys[1..]);
      var t := MoveToEnd(s, keys[0]);
      assert t[0..] == t;
    }
  }

  /** And it never holds more. */
  lemma {:induction false} NeverMore(policy: CachePolicy, s: seq<PrefixKey>, keys: seq<PrefixKey>)
    requires Distinct(s) && |s| <= Capacity(policy)
    ensures |Admit(s, keys, Capacity(policy)).resident|
            <= match policy case Fine32 => 32 case Admission64 => 64 case Off => 0
    decreases |keys|
  {
    if keys != [] {
      MoveToEndDistinct(s, keys[0]);
      var t := MoveToEnd(s, keys[0]);
      var n := Overflow(t, Capacity(policy));
      assert forall i | 0 <= i < |t[n..]| :: t[n..][i] == t[n + i];
      NeverMore(policy, t[n..], keys[1..]);
    }
  }

  class GdnPrefixStatePolicy {
    const policy: CachePolicy
    var resident: seq<PrefixKey>

    ghost predicate Valid()
      reads this
    {
      Distinct(resident) && |resident| <= Capacity(policy)
    }

    constructor (policy: CachePolicy)
      ensures Valid() && this.policy == policy && resident == []
    {
      this.policy := policy;
      resident := [];
    }

    method Select(live: seq<PrefixKey>, maxBlocks: int) returns (best: Option<PrefixKey>)
      requires Valid()
      modifies this
      ensures Valid() && best == SelectRestore(policy, old(resident), live, maxBlocks)
      ensures resident == if best.Some? then MoveToEnd(old(resident), best.value) else old(resident)
      ensures if Capacity(policy) == 0 then best.None? else IsLastOf(live, maxBlocks, old(resident), best)
    {
      hide MoveToEnd, Distinct, IsLastOf;
      best := None;
      if Capacity(policy) > 0 {
        SelectIsLast(policy, resident, live, maxBlocks);
      }
      if Capacity(policy) == 0 || maxBlocks <= 0 {
        return;
      }
      var keys := Prefix(live, maxBlocks);
      for i := 0 to |keys|
        invariant best == LastResident(keys[..i], resident)
      {
        assert keys[..i + 1][..i] == keys[..i];
        if keys[i] in resident {
          best := Some(keys[i]);
        }
      }
      assert keys[..|keys|] == keys;
      if best.Some? {
        MoveToEndDistinct(resident, best.value);
        resident := MoveToEnd(resident, best.value);
      }
    }

    /** Most recent last; the oldest keys leave while the index is over capacity. */
    method AdmitKeys(keys: seq<PrefixKey>) returns (evicted: seq<PrefixKey>)
      requires Valid()
      modifies this
      ensures Valid()
      ensures Capacity(policy) == 0 ==> evicted == [] && resident == old(resident)
      ensures Capacity(policy) > 0 ==> Admission(resident, evicted) == Admit(old(resident), keys, Capacity(policy))
    {
      evicted := [];
      if Capacity(policy) == 0 {
        return;
      }
      ghost var start := resident;
      for i := 0 to |keys|
        invariant Valid()
        invariant var rest := Admit(resident, keys[i..], Capacity(policy));
                  Admission(rest.resident, evicted + rest.evicted) == Admit(start, keys, Capacity(policy))
      {
        assert keys[i..][0] == keys[i] && keys[i..][1..] == keys[i + 1..];
        ghost var before := resident;
        MoveToEndDistinct(resident, keys[i]);
        resident := MoveToEnd(resident, keys[i]);
        ghost var t := resident;
        var dropped := DropOverflow();
        evicted := evicted + dropped;
        assert AdmitOne(before, keys[i], Capacity(policy)) == Admission(resident, dropped);
      }
      assert evicted + [] == evicted;
    }

    method DropOverflow() returns (evicted: seq<PrefixKey>)
      requires Distinct(resident)
      modifies this
      ensures Valid()
      ensures var n := Overflow(old(resident), Capacity(policy));
              resident == old(resident)[n..] && evicted == old(resident)[..n]
    {
      ghost var t := resident;
      evicted := [];
      while |resident| > Capacity(policy)
        invariant |evicted| + |resident| == |t| && |evicted| <= Overflow(t, Capacity(policy))
        invariant resident == t[|evicted|..] && evicted == t[..|evicted|]
      {
        evicted := evicted + [resident[0]];
        resident := resident[1..];
      }
    }
  }
}
