/** Which leading blocks of a prompt are still in the cache when the prompt reaches them. A block that is not there
    takes a new slot, and in a full cache a new slot costs the block that ranks lowest. */
module PrefixHits {
  import opened IntFacts
  import opened Sequences

  /** A content hash; only its order is used. */
  type Block = nat

  /** Smaller leaves first: rarer (when frequency counts), then older, then deeper in its request. */
  datatype Rank = Rank(frequency: int, tick: int, depth: int, block: Block)

  predicate Leaves(a: Rank, b: Rank) {
    || a.frequency < b.frequency
    || (a.frequency == b.frequency && (
          || a.tick < b.tick
          || (a.tick == b.tick && (a.depth > b.depth || (a.depth == b.depth && a.block < b.block)))))
  }

  /** Ranks name their blocks, so two blocks never rank the same. */
  ghost predicate Ranked(ranks: map<Block, Rank>) {
    forall b | b in ranks :: ranks[b].block == b
  }

  // ---------- what a prompt finds when its step begins ----------

  /** Block k of a request is in the cache when the step begins; the cache gives each block once. */
  predicate InCache(cache: set<Block>, hashes: seq<Block>, k: nat)
    requires k < |hashes|
  {
    hashes[k] in cache && hashes[k] !in hashes[..k]
  }

  /** The leading blocks found, when the step begins, in the cache or in the CPU tier. */
  function FoundPrefix(cache: set<Block>, ready: set<Block>, hashes: seq<Block>, n: nat): (k: nat)
    requires n <= |hashes|
    ensures k <= n
  {
    if n == 0 then 0 else
      var k := FoundPrefix(cache, ready, hashes, n - 1);
      if k == n - 1 && (InCache(cache, hashes, n - 1) || hashes[n - 1] in ready) then n else k
  }

  /** How many of the first n blocks have to come from the CPU tier or be computed. */
  function Loads(cache: set<Block>, hashes: seq<Block>, n: nat): (loads: nat)
    requires n <= |hashes|
    ensures loads <= n
  {
    if n == 0 then 0 else Loads(cache, hashes, n - 1) + if InCache(cache, hashes, n - 1) then 0 else 1
  }

  // ---------- what it still finds when it gets there ----------

  /** The other blocks that leave before this one, those already taken aside. */
  function Earlier(start: map<Block, Rank>, block: Block, taken: set<Block>): set<Block>
    requires block in start
  {
    set b | b in start && b !in taken && Leaves(start[b], start[block])
  }

  /** Block k outlives the evictions that the blocks before it cause, where taken are the hits among those. */
  predicate Survives(capacity: nat, start: map<Block, Rank>, hashes: seq<Block>, k: nat, taken: set<Block>)
    requires k < |hashes|
  {
    InCache(start.Keys, hashes, k) && |start| + k - |taken| - capacity <= |Earlier(start, hashes[k], taken)|
  }

  /** The first n blocks' hits in the cache, told from the cache and its ranks when the step begins. */
  function Taken(capacity: nat, start: map<Block, Rank>, hashes: seq<Block>, n: nat): set<Block>
    requires n <= |hashes|
  {
    if n == 0 then {} else
      var taken := Taken(capacity, start, hashes, n - 1);
      if Survives(capacity, start, hashes, n - 1, taken) then taken + {hashes[n - 1]} else taken
  }

  predicate IsHit(capacity: nat, start: map<Block, Rank>, hashes: seq<Block>, k: nat)
    requires k < |hashes|
  {
    Survives(capacity, start, hashes, k, Taken(capacity, start, hashes, k))
  }

  /** The leading blocks hit in one of the tiers. */
  function Effective(capacity: nat, start: map<Block, Rank>, ready: set<Block>, hashes: seq<Block>, n: nat): (k: nat)
    requires n <= |hashes|
    ensures k <= n
  {
    if n == 0 then 0 else
      var k := Effective(capacity, start, ready, hashes, n - 1);
      if k == n - 1 && (IsHit(capacity, start, hashes, n - 1) || hashes[n - 1] in ready) then n else k
  }

  // ---------- a prompt under way ----------

  /** Some blocks of the cache have been asked for, some evicted: those that ranked lowest, and only when the cache
      was full. */
  ghost predicate Evicting(capacity: nat, start: map<Block, Rank>, asked: set<Block>, active: nat, cache: set<Block>,
      evicted: set<Block>)
  {
    && evicted <= start.Keys && cache == start.Keys - evicted - asked
    && (forall v, b | v in evicted && b in cache :: !Leaves(start[b], start[v]))
    && |cache| + active <= capacity && (evicted != {} ==> |cache| + active == capacity)
  }

  /** The hits so far are the blocks of the cache that were asked for and not evicted first. */
  ghost predicate Counting(capacity: nat, start: map<Block, Rank>, hashes: seq<Block>, k: nat, evicted: set<Block>)
    requires k <= |hashes|
  {
    Taken(capacity, start, hashes, k) == start.Keys * Members(hashes[..k]) - evicted
  }

  /** A block is still in the cache when the prompt reaches it if and only if it survives. */
  lemma StillThere(capacity: nat, start: map<Block, Rank>, hashes: seq<Block>, k: nat, cache: set<Block>,
      evicted: set<Block>)
    requires k < |hashes| && Ranked(start) && Evicting(capacity, start, Members(hashes[..k]), k, cache, evicted)
    requires Counting(capacity, start, hashes, k, evicted)
    ensures hashes[k] in cache <==> IsHit(capacity, start, hashes, k)
  {
    hide Taken, Leaves, Earlier, Ranked;
    var block, taken := hashes[k], Taken(capacity, start, hashes, k);
    Parts(start.Keys, Members(hashes[..k]), evicted, cache, taken);
    if block in cache {
      AboveEvicted(start, cache, evicted, taken, block);
    } else if InCache(start.Keys, hashes, k) {
      AmongEvicted(start, cache, evicted, taken, block);
    }
  }

  /** The cache of the start falls into what is left, what was evicted and what was hit. */
  lemma Parts(whole: set<Block>, asked: set<Block>, evicted: set<Block>, cache: set<Block>, taken: set<Block>)
    requires evicted <= whole && cache == whole - evicted - asked && taken == whole * asked - evicted
    ensures whole == cache + evicted + taken && cache !! evicted && evicted !! taken
    ensures |whole| == |cache| + |evicted| + |taken|
  {
    assert whole == cache + evicted + taken;
    SizeOfParts(cache, evicted, taken);
  }

  lemma SizeOfParts(a: set<Block>, b: set<Block>, c: set<Block>)
    requires a !! b && a !! c && b !! c
    ensures |a + b + c| == |a| + |b| + |c|
  {
  }

  lemma SubsetSize<T>(a: set<T>, b: set<T>)
    requires a <= b
    ensures |a| <= |b|
  {
    assert b == a + (b - a);
  }

  lemma AboveEvicted(start: map<Block, Rank>, cache: set<Block>, evicted: set<Block>, taken: set<Block>, block: Block)
    requires Ranked(start) && cache <= start.Keys && evicted <= start.Keys && evicted !! taken
    requires block in cache - evicted
    requires forall v | v in evicted :: !Leaves(start[block], start[v])
    ensures |evicted| <= |Earlier(start, block, taken)|
  {
    assert evicted <= Earlier(start, block, taken);
    SubsetSize(evicted, Earlier(start, block, taken));
  }

  lemma AmongEvicted(start: map<Block, Rank>, cache: set<Block>, evicted: set<Block>, taken: set<Block>, block: Block)
    requires Ranked(start) && start.Keys == cache + evicted + taken && block in evicted
    requires forall b | b in cache :: !Leaves(start[b], start[block])
    ensures |Earlier(start, block, taken)| < |evicted|
  {
    assert Earlier(start, block, taken) <= evicted - {block};
    SubsetSize(Earlier(start, block, taken), evicted - {block});
  }

  /** One more block asked for: a hit leaves the cache, any other may evict one. */
  lemma CountsOn(capacity: nat, start: map<Block, Rank>, hashes: seq<Block>, k: nat, cache: set<Block>,
      evicted: set<Block>, more: set<Block>)
    requires k < |hashes| && Ranked(start) && Evicting(capacity, start, Members(hashes[..k]), k, cache, evicted)
    requires Counting(capacity, start, hashes, k, evicted)
    requires more <= cache && (hashes[k] in cache ==> more == {})
    ensures Counting(capacity, start, hashes, k + 1, evicted + more)
  {
    hide Survives, Ranked, Members, Leaves;
    StillThere(capacity, start, hashes, k, cache, evicted);
    MembersMore(hashes, k);
    TakenMore(start.Keys, Members(hashes[..k]), evicted, cache, hashes[k], more);
  }

  lemma TakenMore(whole: set<Block>, asked: set<Block>, evicted: set<Block>, cache: set<Block>, block: Block,
      more: set<Block>)
    requires cache == whole - evicted - asked && more <= cache && (block in cache ==> more == {})
    ensures whole * (asked + {block}) - (evicted + more) ==
              if block in cache then whole * asked - evicted + {block} else whole * asked - evicted
  {
  }

  lemma MembersMore(s: seq<Block>, k: nat)
    requires k < |s|
    ensures Members(s[..k + 1]) == Members(s[..k]) + {s[k]}
  {
    assert s[..k + 1] == s[..k] + [s[k]];
  }

  // ---------- hits against finds ----------

  /** The blocks before block k, all hit where they could be, do not push it out. */
  predicate Reached(capacity: nat, start: map<Block, Rank>, hashes: seq<Block>, k: nat)
    requires k < |hashes|
  {
    InCache(start.Keys, hashes, k) ==>
      |start| + Loads(start.Keys, hashes, k) - capacity <= |Earlier(start, hashes[k], Members(hashes[..k]))|
  }

  ghost predicate AllReached(capacity: nat, start: map<Block, Rank>, hashes: seq<Block>, n: nat)
    requires n <= |hashes|
  {
    forall k | 0 <= k < n :: Reached(capacity, start, hashes, k)
  }

  /** The blocks of the cache among the first n. */
  lemma {:induction false} CountInCache(cache: set<Block>, hashes: seq<Block>, n: nat)
    requires n <= |hashes|
    ensures |cache * Members(hashes[..n])| == n - Loads(cache, hashes, n)
  {
    if n > 0 {
      var asked, block := Members(hashes[..n - 1]), hashes[n - 1];
      CountInCache(cache, hashes, n - 1);
      MembersMore(hashes, n - 1);
      assert cache * (asked + {block}) ==
        if InCache(cache, hashes, n - 1) then cache * asked + {block} else cache * asked;
    }
  }

  lemma {:induction false} TakenInCache(capacity: nat, start: map<Block, Rank>, hashes: seq<Block>, n: nat)
    requires n <= |hashes|
    ensures Taken(capacity, start, hashes, n) <= start.Keys * Members(hashes[..n])
  {
    hide Members, Earlier;
    if n > 0 {
      TakenInCache(capacity, start, hashes, n - 1);
      MembersMore(hashes, n - 1);
    }
  }

  lemma {:induction false} TakenIsHit(capacity: nat, start: map<Block, Rank>, hashes: seq<Block>, n: nat, b: Block)
      returns (i: nat)
    requires n <= |hashes| && b in Taken(capacity, start, hashes, n)
    ensures i < n && hashes[i] == b && IsHit(capacity, start, hashes, i)
  {
    if b in Taken(capacity, start, hashes, n - 1) {
      i := TakenIsHit(capacity, start, hashes, n - 1, b);
    } else {
      i := n - 1;
    }
  }

  /** While nothing was pushed out, the hits are the blocks of the cache. */
  lemma {:induction false} NoneLost(capacity: nat, start: map<Block, Rank>, hashes: seq<Block>, n: nat)
    requires n <= |hashes| && AllReached(capacity, start, hashes, n)
    ensures Taken(capacity, start, hashes, n) == start.Keys * Members(hashes[..n])
    ensures |Taken(capacity, start, hashes, n)| == n - Loads(start.Keys, hashes, n)
  {
    hide Members, IsHit, InCache, Loads, Reached, Taken;
    if n > 0 {
      NoneLost(capacity, start, hashes, n - 1);
      TakenNext(capacity, start, hashes, n - 1);
      MembersMore(hashes, n - 1);
      NextOfCache(start.Keys, hashes, n - 1);
      NextHit(capacity, start, hashes, n - 1);
    } else {
      NothingTaken(capacity, start, hashes);
    }
    CountInCache(start.Keys, hashes, n);
  }

  lemma TakenNext(capacity: nat, start: map<Block, Rank>, hashes: seq<Block>, k: nat)
    requires k < |hashes|
    ensures Taken(capacity, start, hashes, k + 1) ==
              if IsHit(capacity, start, hashes, k) then Taken(capacity, start, hashes, k) + {hashes[k]}
              else Taken(capacity, start, hashes, k)
  {
  }

  lemma TakenCount(capacity: nat, start: map<Block, Rank>, hashes: seq<Block>, k: nat)
    requires k < |hashes|
    ensures |Taken(capacity, start, hashes, k + 1)| ==
              |Taken(capacity, start, hashes, k)| + if IsHit(capacity, start, hashes, k) then 1 else 0
  {
    TakenInCache(capacity, start, hashes, k);
  }

  lemma TakenAtMost(capacity: nat, start: map<Block, Rank>, hashes: seq<Block>, n: nat)
    requires n <= |hashes|
    ensures |Taken(capacity, start, hashes, n)| <= n - Loads(start.Keys, hashes, n)
  {
    TakenInCache(capacity, start, hashes, n);
    CountInCache(start.Keys, hashes, n);
    SubsetSize(Taken(capacity, start, hashes, n), start.Keys * Members(hashes[..n]));
  }

  lemma NothingTaken(capacity: nat, start: map<Block, Rank>, hashes: seq<Block>)
    ensures Taken(capacity, start, hashes, 0) == start.Keys * Members(hashes[..0])
  {
  }

  /** Then the next is a hit exactly if it is reached. */
  lemma NextHit(capacity: nat, start: map<Block, Rank>, hashes: seq<Block>, k: nat)
    requires k < |hashes| && Taken(capacity, start, hashes, k) == start.Keys * Members(hashes[..k])
    ensures IsHit(capacity, start, hashes, k) <==> InCache(start.Keys, hashes, k) && Reached(capacity, start, hashes, k)
  {
    hide Members, Taken, Earlier, Loads;
    CountInCache(start.Keys, hashes, k);
    if InCache(start.Keys, hashes, k) {
      SameEarlier(start, hashes[k], Members(hashes[..k]));
    }
  }

  lemma NextOfCache(cache: set<Block>, hashes: seq<Block>, k: nat)
    requires k < |hashes|
    ensures cache * (Members(hashes[..k]) + {hashes[k]}) ==
              if InCache(cache, hashes, k) then cache * Members(hashes[..k]) + {hashes[k]}
              else cache * Members(hashes[..k])
  {
  }

  lemma SameEarlier(start: map<Block, Rank>, block: Block, asked: set<Block>)
    requires block in start
    ensures Earlier(start, block, asked) == Earlier(start, block, start.Keys * asked)
  {
  }

  lemma {:induction false} EffectiveInFound(capacity: nat, start: map<Block, Rank>, ready: set<Block>,
      hashes: seq<Block>, n: nat)
    requires n <= |hashes|
    ensures Effective(capacity, start, ready, hashes, n) <= FoundPrefix(start.Keys, ready, hashes, n)
  {
    hide InCache;
    if n > 0 {
      EffectiveInFound(capacity, start, ready, hashes, n - 1);
    }
  }

  lemma {:induction false} EffectiveIsFound(capacity: nat, start: map<Block, Rank>, ready: set<Block>,
      hashes: seq<Block>, n: nat)
    requires n <= |hashes| && AllReached(capacity, start, hashes, FoundPrefix(start.Keys, ready, hashes, n))
    ensures Effective(capacity, start, ready, hashes, n) == FoundPrefix(start.Keys, ready, hashes, n)
  {
    hide InCache, Reached, IsHit, Taken, Members, Loads;
    if n > 0 {
      EffectiveIsFound(capacity, start, ready, hashes, n - 1);
      if FoundPrefix(start.Keys, ready, hashes, n - 1) == n - 1 {
        NoneLost(capacity, start, hashes, n - 1);
        NextHit(capacity, start, hashes, n - 1);
      }
    }
  }

  /** The leading blocks found in the tiers are all hit, those of the cache in the cache, if and only if none of
      them is pushed out before it is reached. */
  lemma HitsAreFound(capacity: nat, start: map<Block, Rank>, ready: set<Block>, hashes: seq<Block>, n: nat)
    requires n <= |hashes|
    ensures var e, found := Effective(capacity, start, ready, hashes, n), FoundPrefix(start.Keys, ready, hashes, n);
            e == found && |Taken(capacity, start, hashes, e)| == e - Loads(start.Keys, hashes, e)
            <==> AllReached(capacity, start, hashes, found)
  {
    hide AllReached, Taken, Loads;
    var found := FoundPrefix(start.Keys, ready, hashes, n);
    if AllReached(capacity, start, hashes, found) {
      EffectiveIsFound(capacity, start, ready, hashes, n);
      NoneLost(capacity, start, hashes, found);
    } else if |Taken(capacity, start, hashes, found)| == found - Loads(start.Keys, hashes, found) {
      AllHitReached(capacity, start, hashes, found, found);
    }
  }

  lemma {:induction false} AllHitReached(capacity: nat, start: map<Block, Rank>, hashes: seq<Block>, n: nat, k: nat)
    requires k <= n <= |hashes| && |Taken(capacity, start, hashes, n)| == n - Loads(start.Keys, hashes, n)
    ensures AllReached(capacity, start, hashes, k)
  {
    hide Taken, Loads, Earlier;
    if k > 0 {
      AllHitReached(capacity, start, hashes, n, k - 1);
      NoneLost(capacity, start, hashes, k - 1);
      NextHit(capacity, start, hashes, k - 1);
      if InCache(start.Keys, hashes, k - 1) {
        TakenInCache(capacity, start, hashes, n);
        CountInCache(start.Keys, hashes, n);
        SameSize(Taken(capacity, start, hashes, n), start.Keys * Members(hashes[..n]));
        assert hashes[k - 1] in hashes[..n];
        var i := TakenIsHit(capacity, start, hashes, n, hashes[k - 1]);
        FirstUse(start.Keys, hashes, i, k - 1);
      }
    }
  }

  lemma SameSize(a: set<Block>, b: set<Block>)
    requires a <= b && |a| == |b|
    ensures a == b
  {
    assert b == a + (b - a);
  }

  lemma FirstUse(cache: set<Block>, hashes: seq<Block>, i: nat, k: nat)
    requires i < |hashes| && k < |hashes| && hashes[i] == hashes[k]
    requires InCache(cache, hashes, i) && InCache(cache, hashes, k)
    ensures i == k
  {
  }

  lemma {:induction false} LoadsGrow(cache: set<Block>, hashes: seq<Block>, m: nat, n: nat)
    requires m <= n <= |hashes|
    ensures Loads(cache, hashes, m) <= Loads(cache, hashes, n)
    decreases n - m
  {
    if m < n {
      LoadsGrow(cache, hashes, m, n - 1);
    }
  }

  /** Nothing is pushed out while the blocks to load fit beside the cache. */
  lemma RoomReaches(capacity: nat, start: map<Block, Rank>, hashes: seq<Block>, n: nat)
    requires n <= |hashes| && |start| + Loads(start.Keys, hashes, n) <= capacity
    ensures AllReached(capacity, start, hashes, n)
  {
    forall k | 0 <= k < n
      ensures Reached(capacity, start, hashes, k)
    {
      LoadsGrow(start.Keys, hashes, k, n);
    }
  }

  /** Without a CPU tier every leading block found is a hit in the cache. */
  lemma NoTierHits(capacity: nat, start: map<Block, Rank>, hashes: seq<Block>, n: nat)
    requires n <= |hashes| && |start| <= capacity
    ensures var e := Effective(capacity, start, {}, hashes, n);
            e == FoundPrefix(start.Keys, {}, hashes, n) && |Taken(capacity, start, hashes, e)| == e
  {
    hide AllReached, Effective, Taken;
    NoLoads(start.Keys, hashes, n);
    RoomReaches(capacity, start, hashes, FoundPrefix(start.Keys, {}, hashes, n));
    HitsAreFound(capacity, start, {}, hashes, n);
  }

  lemma {:induction false} NoLoads(cache: set<Block>, hashes: seq<Block>, n: nat)
    requires n <= |hashes|
    ensures Loads(cache, hashes, FoundPrefix(cache, {}, hashes, n)) == 0
  {
    if n > 0 {
      NoLoads(cache, hashes, n - 1);
    }
  }

  /** When no block is in both tiers, the leading blocks found are all hit if and only if none is pushed out. */
  lemma ApartHits(capacity: nat, start: map<Block, Rank>, ready: set<Block>, hashes: seq<Block>, n: nat)
    requires n <= |hashes| && start.Keys !! ready
    ensures Effective(capacity, start, ready, hashes, n) == FoundPrefix(start.Keys, ready, hashes, n)
            <==> AllReached(capacity, start, hashes, FoundPrefix(start.Keys, ready, hashes, n))
  {
    hide AllReached, Effective, Taken, Loads;
    HitsAreFound(capacity, start, ready, hashes, n);
    ApartCount(capacity, start, ready, hashes, n);
  }

  lemma {:induction false} ApartCount(capacity: nat, start: map<Block, Rank>, ready: set<Block>, hashes: seq<Block>,
      n: nat)
    requires n <= |hashes| && start.Keys !! ready
    ensures var e := Effective(capacity, start, ready, hashes, n);
            |Taken(capacity, start, hashes, e)| == e - Loads(start.Keys, hashes, e)
  {
    hide Taken, InCache, IsHit;
    if n > 0 {
      ApartCount(capacity, start, ready, hashes, n - 1);
      TakenCount(capacity, start, hashes, n - 1);
      HitInCache(capacity, start, hashes, n - 1);
    } else {
      TakenAtMost(capacity, start, hashes, 0);
    }
  }

  lemma HitInCache(capacity: nat, start: map<Block, Rank>, hashes: seq<Block>, k: nat)
    requires k < |hashes|
    ensures IsHit(capacity, start, hashes, k) ==> InCache(start.Keys, hashes, k)
    ensures InCache(start.Keys, hashes, k) ==> hashes[k] in start
  {
  }
}
