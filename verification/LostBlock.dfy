/** A run of the simulator in which a prompt loses a block that was there when its step began. */
module LostBlock {
  import opened CacheTiers
  import opened IntFacts
  import opened PrefixHits
  import opened Sequences
  import opened TraceSimulator

  /** What a request of one full block leaves when the block is not in the cache. */
  ghost predicate OneMore(capacity: nat, cpuCapacity: nat, t: Tiers, block: Block, tick: nat, evicted: set<Block>,
      t': Tiers)
  {
    && evicted <= t.ranks.Keys && t'.ranks.Keys == t.ranks.Keys - evicted + {block}
    && |evicted| == Max(0, |t.ranks| + 1 - capacity) && LeftFirst(t.ranks, evicted, t.ranks.Keys - evicted)
    && t'.last == (t.last - evicted)[block := Use(tick, 0)] && Joined(cpuCapacity, t, evicted, t')
  }

  function OneBlock(block: Block): Record {
    Record([block], 2, 2, 2)
  }

  lemma OneBlockLeaves(capacity: nat, cpuCapacity: nat, t: Tiers, block: Block, tick: nat, evicted: set<Block>,
      t': Tiers)
    requires Replayed(capacity, cpuCapacity, t, OneBlock(block), tick, evicted, t') && block !in t.ranks
    ensures OneMore(capacity, cpuCapacity, t, block, tick, evicted, t')
  {
    hide LeftFirst, Joined, Used, BlocksFor, Members;
    OneUse(t.last - evicted, block, tick);
    BlocksForMeans(2, 2);
    OneMember(block);
    WithoutOther(t.ranks.Keys, evicted, block);
  }

  lemma SomeMember(s: seq<Block>)
    ensures s != [] ==> Members(s) != {}
  {
    if s != [] {
      assert s[0] in Members(s);
    }
  }

  lemma OneMember(block: Block)
    ensures Members([block]) == {block}
  {
  }

  lemma WithoutOther(cache: set<Block>, evicted: set<Block>, block: Block)
    requires block !in cache
    ensures cache - evicted - {block} == cache - evicted
  {
  }

  lemma OneUse(last: map<Block, Use>, block: Block, tick: nat)
    ensures Used(last, [block], 1, tick) == last[block := Use(tick, 0)]
  {
    assert Used(last, [block], 0, tick) == last;
  }

  /** Blocks 1, 2 and 3 fill a cache of three. */
  lemma CacheFills(t: Tiers, block: Block, evicted: set<Block>, t': Tiers)
    requires OneMore(3, 1, t, block, block, evicted, t') && |t.ranks| < 3 && t.cpu == {} && t.deferred == []
    ensures t'.ranks.Keys == t.ranks.Keys + {block} && t'.last == t.last[block := Use(block, 0)]
    ensures t'.cpu == {} && t'.deferred == []
  {
    assert evicted == {} && t.last - {} == t.last;
  }

  const THREE_USES := map[1 := Use(1, 0), 2 := Use(2, 0), 3 := Use(3, 0)]
  const LATER_USES := map[2 := Use(2, 0), 3 := Use(3, 0), 4 := Use(4, 0)]

  lemma OldestGoes(t: Tiers, evicted: set<Block>, t': Tiers)
    requires OneMore(3, 1, t, 4, 4, evicted, t') && t.ranks.Keys == {1, 2, 3} && t.last == THREE_USES && ByRecency(t)
    ensures evicted == {1}
  {
    hide Joined;
    assert |t.ranks| == |{1, 2, 3}| == 3;
    var v :| v in evicted;
    SameSize({v}, evicted);
    var one, other := t.ranks[1], t.ranks[v];
    assert v == 1 || !Leaves(one, other);
  }

  lemma OldestToCpu(t: Tiers, evicted: set<Block>, t': Tiers)
    requires OneMore(3, 1, t, 4, 4, evicted, t') && t.ranks.Keys == {1, 2, 3} && t.last == THREE_USES && ByRecency(t)
    requires t.cpu == {} && t.deferred == []
    ensures t'.ranks.Keys == {2, 3, 4} && t'.last == LATER_USES && t'.cpu == {1}
  {
    OldestGoes(t, evicted, t');
    hide LeftFirst, ByRecency;
    assert |t.cpu + {1}| == 1;
    assert THREE_USES - {1} == map[2 := Use(2, 0), 3 := Use(3, 0)];
  }

  lemma LoadPushesOut(t: Tiers)
    requires t.ranks.Keys == {2, 3, 4} && t.last == LATER_USES && ByRecency(t)
    ensures Effective(3, t.ranks, {1}, [1, 2], 2) < FoundPrefix(t.ranks.Keys, {1}, [1, 2], 2)
  {
    assert |t.ranks| == |{2, 3, 4}| == 3;
    assert FoundPrefix(t.ranks.Keys, {1}, [1, 2], 1) == 1 && Loads(t.ranks.Keys, [1, 2], 1) == 1;
    assert Earlier(t.ranks, 2, Members([1, 2][..1])) == {};
    assert !Reached(3, t.ranks, [1, 2], 1);
    EffectiveInFound(3, t.ranks, {1}, [1, 2], 2);
    ApartHits(3, t.ranks, {1}, [1, 2], 2);
  }

  method ReplayOne(s: Simulator, block: Block, tick: nat)
      returns (error: Option<SimError>, ghost evicted: set<Block>)
    requires s.Valid() && s.Drained() && s.active == 0 && NoTies(s.last, tick) && s.capacity > 0 && block !in s.cache
    modifies s
    ensures error.None? && s.Valid() && s.Drained() && s.active == 0 && NoTies(s.last, tick + 1)
    ensures OneMore(s.capacity, s.cpuCapacity, old(s.Now()), block, tick, evicted, s.Now())
  {
    assert ValidRecord(OneBlock(block)) && BlocksFor(2, 2) == 1 by { BlocksForMeans(2, 2); }
    hide LeftFirst, Joined, NoTies, Replayed, FoundHits, BlocksFor, Members;
    var hit, effective;
    error, hit, effective, evicted := s.Replay(OneBlock(block), tick);
    OneBlockLeaves(s.capacity, s.cpuCapacity, old(s.Now()), block, tick, evicted, s.Now());
  }

  method FillCache(s: Simulator, block: Block)
    requires s.Valid() && s.Drained() && s.active == 0 && NoTies(s.last, block) && block !in s.cache
    requires s.capacity == 3 && s.cpuCapacity == 1 && |s.cache| < 3 && s.cpu == []
    modifies s
    ensures s.Valid() && s.Drained() && s.active == 0 && NoTies(s.last, block + 1) && s.cpu == []
    ensures s.cache == old(s.cache) + {block} && s.last == old(s.last)[block := Use(block, 0)]
  {
    hide OneMore, NoTies, Ranked;
    ghost var t := s.Now();
    assert Members(s.cpu) == {};
    var error;
    ghost var evicted;
    error, evicted := ReplayOne(s, block, block);
    CacheFills(t, block, evicted, s.Now());
    SomeMember(s.cpu);
  }

  method ThreeBlocks() returns (s: Simulator)
    ensures fresh(s) && s.capacity == 3 && s.cpuCapacity == 1 && !s.byFrequency
    ensures s.Valid() && s.Drained() && s.active == 0 && NoTies(s.last, 4)
    ensures s.cache == {1, 2, 3} && s.last == THREE_USES && s.cpu == []
  {
    hide NoTies, Simulator.Valid, Simulator.Drained, Simulator.CpuOk;
    s := new Simulator(3, false, 1);
    FillCache(s, 1);
    assert s.cache == {1} && s.last == map[1 := Use(1, 0)];
    FillCache(s, 2);
    assert s.cache == {1, 2} && s.last == map[1 := Use(1, 0), 2 := Use(2, 0)];
    FillCache(s, 3);
  }

  /** A block found in a tier can be evicted before the prompt reaches it. In a cache of three blocks four requests of
      one block each leave blocks 2, 3 and 4 there and block 1 in the CPU tier. The next prompt wants blocks 1 and 2;
      the load of block 1 evicts block 2. */
  method EvictedBeforeReached() returns (error: Option<SimError>, effective: nat, ghost found: nat)
    ensures error.None? && effective < found
  {
    assert ValidRecord(Record([1, 2], 2, 5, 5)) && BlocksFor(5, 2) == 3;
    assert Record([1, 2], 2, 5, 5).hashes[..PromptFull(Record([1, 2], 2, 5, 5))] == [1, 2];
    assert StrictBlocks(Record([1, 2], 2, 5, 5)) == 2;
    hide *;
    var s := ThreeBlocks();
    ghost var t, evicted;
    t := s.Now();
    assert t.cpu == {};
    s.RanksAreUses();
    error, evicted := ReplayOne(s, 4, 4);
    OldestToCpu(t, evicted, s.Now());
    s.RanksAreUses();
    LoadPushesOut(s.Now());
    found := FoundPrefix(s.cache, Members(s.cpu), [1, 2], 2);
    var hit;
    error, hit, effective, evicted := s.Replay(Record([1, 2], 2, 5, 5), 5);
  }
}
