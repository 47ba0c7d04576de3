/** The offline cache simulator: a recorded trace replayed against a GPU tier that evicts by recency (or by
    frequency first) and a CPU tier that takes what was evicted. */
module TraceSimulator {
  import opened CacheTiers
  import opened GdnPrefix
  import opened IntFacts
  import opened PrefixHits
  import opened Sequences

  /** One validated request of the trace: the hashes of its full blocks. */
  datatype Record = Record(hashes: seq<Block>, blockSize: nat, promptTokens: nat, totalTokens: nat)

  predicate ValidRecord(r: Record) {
    r.blockSize > 0 && 0 < r.promptTokens <= r.totalTokens && |r.hashes| == r.totalTokens / r.blockSize
  }

  function BlocksFor(tokens: nat, B: nat): nat
    requires B > 0
  {
    (tokens + B - 1) / B
  }

  function PromptFull(r: Record): (n: nat)
    requires ValidRecord(r)
    ensures n <= |r.hashes|
  {
    FewerBlocks(r.promptTokens, r.totalTokens, r.blockSize);
    r.promptTokens / r.blockSize
  }

  lemma FewerBlocks(a: nat, b: nat, B: nat)
    requires B > 0 && a <= b
    ensures a / B <= b / B
  {
    var p, q := a / B, b / B;
    assert a == p * B + a % B && b == q * B + b % B;
    assert (q + 1) * B == q * B + B;
    if q < p {
      MultiplesMonotone(q + 1, p, B);
    }
  }

  lemma BlocksForMeans(n: nat, B: nat)
    requires B > 0
    ensures BlocksFor(n, B) == n / B + if n % B == 0 then 0 else 1
  {
    var q, r := n / B, n % B;
    assert n == q * B + r;
    if r == 0 {
      DivModUnique(n + B - 1, q, B - 1, B);
    } else {
      assert n + B - 1 == (q + 1) * B + (r - 1);
      DivModUnique(n + B - 1, q + 1, r - 1, B);
    }
  }

  /** Blocks of the prompt that a hit may cover: at least one token is left to compute. */
  function StrictBlocks(r: Record): (n: nat)
    requires ValidRecord(r)
    ensures n == StrictPrefixBlockCount(r.promptTokens, r.blockSize) && n <= PromptFull(r)
  {
    FewerBlocks(r.promptTokens - 1, r.promptTokens, r.blockSize);
    StrictPrefixBlockCount(r.promptTokens, r.blockSize)
  }

  /** A prompt's partly filled block cannot still be partly filled when the whole request ends on a block. */
  lemma TailSettles(prompt: nat, total: nat, B: nat)
    requires B > 0 && prompt <= total
    ensures prompt / B <= total / B
    ensures prompt / B == total / B && total % B == 0 ==> prompt % B == 0
    ensures prompt / B == total / B && prompt % B != 0 ==> total % B != 0
  {
    FewerBlocks(prompt, total, B);
    assert prompt == prompt / B * B + prompt % B && total == total / B * B + total % B;
  }

  predicate Fits(r: Record, capacity: nat) {
    r.blockSize > 0 && BlocksFor(r.totalTokens, r.blockSize) <= capacity
  }

  datatype SimError = CannotFit | PromptDiverged | TailDiverged | AllocationDiverged | NotDrained | CapacityExceeded

  lemma AppendNew(s: seq<Block>, b: Block)
    requires Distinct(s) && b !in s
    ensures Distinct(s + [b])
  {
  }

  class Simulator {
    const capacity: nat
    const byFrequency: bool
    const cpuCapacity: nat
    var cache: set<Block>
    var last: map<Block, Use>
    var frequency: map<Block, nat>
    /** Least recently used first. */
    var cpu: seq<Block>
    /** Blocks the current request holds. */
    var active: nat
    var deferred: seq<Block>
    var stepNew: set<Block>
    var d2h: nat
    var d2hSkipped: nat
    var h2d: nat
    /** What has happened to the CPU tier since the beginning, and whether the step has read from it. */
    ghost var log: seq<Move>
    ghost var loaded: bool

    ghost predicate CpuOk()
      reads this`cpu, this`deferred
    {
      && Distinct(cpu) && |cpu| <= cpuCapacity && Distinct(deferred)
      && (forall b | b in deferred :: b !in cpu)
      && (deferred != [] ==> |cpu| == cpuCapacity > 0)
    }

    /** The CPU tier is what its history makes of it. */
    ghost predicate Recorded()
      reads this`cpu, this`deferred, this`stepNew, this`loaded, this`log
    {
      Play(cpuCapacity, log) == Tier()
    }

    ghost function Tier(): Cpu
      reads this`cpu, this`deferred, this`stepNew, this`loaded
    {
      Cpu(cpu, deferred, stepNew, loaded)
    }

    /** Both tiers are within capacity, and every block the cache may evict has been used. */
    ghost predicate Valid()
      reads this`cache, this`active, this`last, this`cpu, this`deferred, this`stepNew, this`loaded, this`log
    {
      |cache| + active <= capacity && cache <= last.Keys && CpuOk() && Recorded()
    }

    /** Nothing is waiting for the end of a step. */
    ghost predicate Drained()
      reads this
    {
      deferred == [] && stepNew == {} && !loaded
    }

    constructor (capacity: nat, byFrequency: bool, cpuCapacity: nat)
      ensures Valid() && Drained() && active == 0 && cache == {} && last == map[] && cpu == [] && NoTies(last, 1)
      ensures this.capacity == capacity && this.byFrequency == byFrequency && this.cpuCapacity == cpuCapacity
    {
      this.capacity, this.byFrequency, this.cpuCapacity := capacity, byFrequency, cpuCapacity;
      cache, last, frequency, cpu, active, deferred, stepNew, d2h, d2hSkipped, h2d := {}, map[], map[], [], 0, [],
          {}, 0, 0, 0;
      log, loaded := [], false;
    }

    function Seen(b: Block): nat
      reads this`frequency
    {
      UsesOf(frequency, b)
    }

    function RankOf(b: Block): Rank
      reads this`last, this`frequency
    {
      var use := if b in last then last[b] else Use(-1, -1);
      Rank(if byFrequency then Seen(b) else 0, use.tick, use.depth, b)
    }

    /** The cached blocks and their ranks. */
    ghost function Ranks(): (ranks: map<Block, Rank>)
      reads this`cache, this`last, this`frequency
      ensures ranks.Keys == cache && Ranked(ranks)
    {
      map b | b in cache :: RankOf(b)
    }

    /** With plain recency the ranks are the last uses. */
    lemma RanksAreUses()
      requires Valid() && !byFrequency
      ensures ByRecency(Now())
    {
    }

    ghost function Now(): (t: Tiers)
      reads this`cache, this`last, this`frequency, this`cpu, this`deferred
      ensures t.ranks == Ranks() && t.ranks.Keys == cache && |t.ranks| == |cache| && t.last == last
      ensures t.cpu == Members(cpu) && t.deferred == deferred && Ranked(t.ranks)
    {
      SameCount(Ranks());
      Tiers(Ranks(), last, Members(cpu), deferred)
    }

    /** A block that no other should leave before goes. */
    method Evict() returns (victim: Block)
      requires cache != {}
      modifies this`cache, this`last
      ensures IsLowest(old(Ranks()), victim) && Lost(old(Ranks()), {victim}, Ranks())
      ensures victim in old(cache) && cache == old(cache) - {victim} && last == old(last) - {victim}
    {
      victim :| victim in cache;
      var rest := cache - {victim};
      while rest != {}
        invariant victim in cache && rest <= cache
        invariant forall b | b in cache - rest :: !Leaves(RankOf(b), RankOf(victim))
        decreases |rest|
      {
        var b :| b in rest;
        rest := rest - {b};
        if Leaves(RankOf(b), RankOf(victim)) {
          victim := b;
        }
      }
      cache := cache - {victim};
      last := last - {victim};
    }

    /** A block evicted from the GPU goes to the CPU tier while there is room, else it waits for the step's end. */
    method Demote(victim: Block)
      requires CpuOk()
      modifies this`cpu, this`deferred, this`stepNew, this`d2h
      ensures Tier() == Arrived(cpuCapacity, old(Tier()), victim)
      ensures CpuOk() && Members(old(cpu)) <= Members(cpu)
      ensures cpuCapacity == 0 ==>
                cpu == old(cpu) && deferred == old(deferred) && stepNew == old(stepNew) && d2h == old(d2h)
      ensures cpuCapacity > 0 ==>
                if victim in old(cpu) then cpu == Remove(old(cpu), victim) + [victim]
                    && deferred == old(deferred) && d2h == old(d2h)
                else if victim in old(deferred) then cpu == old(cpu) && deferred == old(deferred) && d2h == old(d2h)
                else if |old(cpu)| < cpuCapacity then
                  cpu == old(cpu) + [victim] && deferred == old(deferred) && d2h == old(d2h) + 1
                      && stepNew == old(stepNew) + {victim}
                else cpu == old(cpu) && deferred == old(deferred) + [victim] && d2h == old(d2h)
      ensures Joined(cpuCapacity, old(Now()), {victim}, Now())
    {
      DistinctCount(cpu);
      if cpuCapacity == 0 {
        return;
      }
      if victim in cpu {
        Touch(victim);
        return;
      }
      if victim in deferred {
        return;
      }
      if |cpu| < cpuCapacity {
        AppendNew(cpu, victim);
        cpu := cpu + [victim];
        stepNew := stepNew + {victim};
        d2h := d2h + 1;
        return;
      }
      AppendNew(deferred, victim);
      deferred := deferred + [victim];
    }

    /** Move to the recent end; the block must be there. */
    method Touch(b: Block)
      requires CpuOk() && b in cpu
      modifies this`cpu
      ensures CpuOk() && Members(cpu) == Members(old(cpu)) && cpu == Remove(old(cpu), b) + [b] && Now() == old(Now())
    {
      RemoveDistinct(cpu, b);
      var r := Remove(cpu, b);
      AppendNew(r, b);
      assert forall x :: x in cpu <==> x in r + [b];
      cpu := r + [b];
    }

    /** A block read from the CPU tier is the most recent there. */
    method ReadBlock(b: Block)
      requires Valid() && b in cpu
      modifies this`cpu, this`log, this`loaded
      ensures Valid() && loaded && log == old(log) + [Load(b)]
      ensures cpu == Remove(old(cpu), b) + [b]
      ensures Members(cpu) == Members(old(cpu)) && Now() == old(Now())
      ensures cpuCapacity == 0 ==> cpu == old(cpu)
    {
      hide Now, Ranks, Play;
      PlayMore(cpuCapacity, log, Load(b));
      Touch(b);
      log, loaded := log + [Load(b)], true;
    }

    /** A block that waits takes the place of the oldest CPU block that did not arrive in this step, at position k, if
        there is one. */
    method ReplaceOldest(b: Block) returns (k: nat)
      requires Distinct(cpu) && b !in cpu
      modifies this`cpu, this`stepNew, this`d2h, this`d2hSkipped
      ensures Distinct(cpu) && |cpu| == old(|cpu|) && k <= |cpu|
      ensures forall i | 0 <= i < k :: old(cpu)[i] in old(stepNew)
      ensures k < |cpu| ==>
                && old(cpu)[k] !in old(stepNew) && cpu == Remove(old(cpu), old(cpu)[k]) + [b]
                && stepNew == old(stepNew) + {b} && d2h == old(d2h) + 1 && d2hSkipped == old(d2hSkipped)
      ensures k == |cpu| ==>
                cpu == old(cpu) && stepNew == old(stepNew) && d2h == old(d2h) && d2hSkipped == old(d2hSkipped) + 1
    {
      k := FirstOld();
      if k < |cpu| {
        var leaving := cpu[k];
        RemoveDistinct(cpu, leaving);
        var r := Remove(cpu, leaving);
        AppendNew(r, b);
        cpu := r + [b];
        stepNew := stepNew + {b};
        d2h := d2h + 1;
      } else {
        d2hSkipped := d2hSkipped + 1;
      }
    }

    /** At the end of a step deferred blocks replace the oldest CPU blocks that are not new in this step,
        unless the step also read from the CPU tier. */
    method ResolveCpuStep(hasH2d: bool)
      requires CpuOk()
      modifies this`cpu, this`deferred, this`stepNew, this`d2h, this`d2hSkipped
      ensures CpuOk() && deferred == [] && stepNew == {}
      ensures !hasH2d ==>
                var m := Min(|old(deferred)|, OldCount(old(cpu), old(stepNew)));
                && cpu == DropOld(old(cpu), old(stepNew), m) + old(deferred)[..m]
                && d2h == old(d2h) + m && d2hSkipped == old(d2hSkipped + |deferred|) - m
      ensures hasH2d ==> d2h == old(d2h)
      ensures |cpu| == old(|cpu|) && (hasH2d || old(deferred) == [] ==> cpu == old(cpu))
      ensures d2h + d2hSkipped == old(d2h + d2hSkipped + |deferred|)
      ensures forall b | b in cpu :: b in old(cpu) || b in old(deferred)
      ensures forall b | b in old(stepNew) && b in old(cpu) :: b in cpu
      ensures Moved(cpuCapacity, old(Now()), {}, {}, Now())
    {
      hide Moved, Now, Ranks, Ranked, Play, Remove, DropOld, OldCount;
      NothingDropped(cpu, stepNew);
      if hasH2d {
        d2hSkipped := d2hSkipped + |deferred|;
      } else {
        var i := 0;
        ghost var m := 0;
        while i < |deferred|
          invariant 0 <= i <= |deferred| && deferred == old(deferred)
          invariant Distinct(cpu) && |cpu| == old(|cpu|) && (i == 0 ==> cpu == old(cpu))
          invariant forall j | i <= j < |deferred| :: deferred[j] !in cpu
          invariant m == Min(i, OldCount(old(cpu), old(stepNew)))
          invariant cpu == DropOld(old(cpu), old(stepNew), m) + deferred[..m]
          invariant stepNew == old(stepNew) + Members(deferred[..m])
          invariant d2h == old(d2h) + m && d2hSkipped == old(d2hSkipped) + i - m
        {
          ghost var now := cpu;
          var k := ReplaceOldest(deferred[i]);
          if m == i {
            ReplaceOne(old(cpu), old(stepNew), deferred, m, now, k);
          } else {
            NoneToReplace(old(cpu), old(stepNew), deferred, m, now, k);
          }
          m := if k < |cpu| then m + 1 else m;
          i := i + 1;
        }
      }
      OnlyOldDropped(old(cpu), old(stepNew), Min(|deferred|, OldCount(old(cpu), old(stepNew))));
      deferred, stepNew := [], {};
      Settled(cpuCapacity, old(Now()), Now());
    }

    /** A step of the request ends; hasH2d if it read from the CPU tier. */
    method EndStep(hasH2d: bool)
      requires CpuOk() && Recorded() && hasH2d == loaded
      modifies this`cpu, this`deferred, this`stepNew, this`d2h, this`d2hSkipped, this`log, this`loaded
      ensures CpuOk() && Drained() && Recorded() && log == old(log) + [StepEnd]
      ensures cpu == if hasH2d then old(cpu) else
                       var m := Min(|old(deferred)|, OldCount(old(cpu), old(stepNew)));
                       DropOld(old(cpu), old(stepNew), m) + old(deferred)[..m]
      ensures Moved(cpuCapacity, old(Now()), {}, {}, Now())
    {
      hide Moved, Now, Ranks, Ranked, Play, DropOld, OldCount, Distinct;
      PlayMore(cpuCapacity, log, StepEnd);
      ResolveCpuStep(hasH2d);
      log, loaded := log + [StepEnd], false;
    }

    /** The oldest CPU block that did not arrive in this step. */
    method FirstOld() returns (k: nat)
      ensures k <= |cpu| && (k < |cpu| ==> cpu[k] !in stepNew) && forall i | 0 <= i < k :: cpu[i] in stepNew
    {
      k := 0;
      while k < |cpu| && cpu[k] in stepNew
        invariant k <= |cpu| && forall i | 0 <= i < k :: cpu[i] in stepNew
      {
        k := k + 1;
      }
    }

    /** The lowest block leaves the cache, for the CPU tier if that has room. */
    method MoveOut() returns (victim: Block)
      requires Valid() && cache != {}
      modifies this`cache, this`last, this`cpu, this`deferred, this`stepNew, this`d2h, this`log
      ensures Recorded() && log == old(log) + [Arrive(victim)]
      ensures CpuOk() && victim in old(cache) && cache == old(cache) - {victim} && last == old(last) - {victim}
      ensures Moved(cpuCapacity, old(Now()), {}, {victim}, Now()) && Members(old(cpu)) <= Members(cpu)
      ensures cpuCapacity == 0 ==> cpu == old(cpu) && stepNew == old(stepNew)
    {
      hide Moved, Now, Ranks, IsLowest, Distinct, Joined, Ranked, Members, RankOf, Remove, Lost, Play, Arrived,
          CpuOk;
      victim := Evict();
      ghost var between := Now();
      Demote(victim);
      PlayMore(cpuCapacity, log, Arrive(victim));
      log := log + [Arrive(victim)];
      EvictedOne(cpuCapacity, old(Now()), victim, between, Now());
    }

    /** One more block for the request; the lowest leaves the cache when both tiers of demand fill it. Fails only
        when the request alone fills the cache. */
    method AllocateSlot() returns (error: Option<SimError>, ghost evicted: set<Block>)
      requires Valid()
      modifies this`cache, this`last, this`active, this`cpu, this`deferred, this`stepNew, this`d2h, this`log
      ensures error == if old(active) >= capacity then Some(CannotFit) else None
      ensures error.None? ==> Valid() && active == old(active) + 1 && cache <= old(cache)
      ensures error.None? ==> Moved(cpuCapacity, old(Now()), {}, evicted, Now())
      ensures error.None? ==> (evicted == {} <==> old(|cache| + active) < capacity)
      ensures error.None? ==> |cache| + active == Min(capacity, old(|cache| + active) + 1)
      ensures error.None? ==> OneArrives(old(log), evicted, log)
      ensures Members(old(cpu)) <= Members(cpu)
      ensures cpuCapacity == 0 ==> cpu == old(cpu) && stepNew == old(stepNew)
    {
      hide Moved, Now, Ranks, Distinct, Ranked, Members, RankOf, Play, Tier, CpuOk;
      evicted := {};
      Settled(cpuCapacity, Now(), Now());
      if |cache| + active >= capacity {
        if cache == {} {
          return Some(CannotFit), {};
        }
        var victim := MoveOut();
        evicted := {victim};
      }
      active := active + 1;
      error := None;
    }

    /** A cached block becomes the request's. */
    method TakeCached(block: Block)
      requires Valid() && block in cache
      modifies this`cache, this`active
      ensures Valid() && active == old(active) + 1 && cache == old(cache) - {block}
      ensures |cache| + active == old(|cache| + active)
      ensures Moved(cpuCapacity, old(Now()), {block}, {}, Now())
    {
      hide Moved, Now, CpuOk, Recorded, Play, Tier, Ranked, Distinct;
      cache := cache - {block};
      active := active + 1;
      GaveBlock(cpuCapacity, old(Now()), block, Now());
    }

    method CountUse(block: Block)
      requires block !in cache
      modifies this`frequency
      ensures Now() == old(Now()) && frequency == Counted(old(frequency), [block])
    {
      CountedOne(frequency, block);
      frequency := frequency[block := Seen(block) + 1];
      assert Ranks() == old(Ranks());
    }

    /** A block that is in neither tier takes a new slot. */
    method NewBlock(block: Block) returns (error: Option<SimError>, ghost evicted: set<Block>)
      requires Valid() && block !in cache
      modifies this`cache, this`last, this`active, this`cpu, this`deferred, this`stepNew, this`d2h, this`log
      ensures error == if old(active) >= capacity then Some(CannotFit) else None
      ensures error.None? ==> Valid() && active == old(active) + 1 && cache <= old(cache)
      ensures error.None? ==> Moved(cpuCapacity, old(Now()), {block}, evicted, Now())
      ensures error.None? ==> (evicted == {} <==> old(|cache| + active) < capacity)
      ensures error.None? ==> |cache| + active == Min(capacity, old(|cache| + active) + 1)
      ensures error.None? ==> Went(old(log), [], evicted, log)
      ensures Members(old(cpu)) <= Members(cpu)
      ensures cpuCapacity == 0 ==> cpu == old(cpu) && stepNew == old(stepNew)
    {
      hide Moved, Now, Ranks, Distinct, Went, Play, OneArrives, CpuOk;
      error, evicted := AllocateSlot();
      if error.None? {
        AskedAbsent(cpuCapacity, old(Now()), block, evicted, Now());
        ArrivalWent(old(log), evicted, log);
      }
    }

    /** A CPU block becomes the most recent one there and takes a new slot. */
    method LoadBlock(block: Block, fromCpu: bool) returns (error: Option<SimError>, ghost evicted: set<Block>)
      requires Valid() && block !in cache && (fromCpu ==> block in cpu)
      modifies this`cache, this`last, this`active, this`cpu, this`deferred, this`stepNew, this`d2h, this`h2d, this`log,
        this`loaded
      ensures error == if old(active) >= capacity then Some(CannotFit) else None
      ensures error.None? ==> Valid() && active == old(active) + 1 && cache <= old(cache)
      ensures error.None? ==> Moved(cpuCapacity, old(Now()), {block}, evicted, Now())
      ensures error.None? ==> (evicted == {} <==> old(|cache| + active) < capacity)
      ensures error.None? ==> |cache| + active == Min(capacity, old(|cache| + active) + 1)
      ensures error.None? ==> Went(old(log), if fromCpu then [block] else [], evicted, log)
      ensures loaded == (old(loaded) || fromCpu)
      ensures h2d == old(h2d) + (if fromCpu then 1 else 0) && Members(old(cpu)) <= Members(cpu)
      ensures cpuCapacity == 0 ==> cpu == old(cpu) && stepNew == old(stepNew)
    {
      hide Moved, Now, Ranks, Distinct, Went, Play, Valid, Members;
      if !fromCpu {
        error, evicted := NewBlock(block);
        return;
      }
      h2d := h2d + 1;
      ReadBlock(block);
      WentOne(old(log), Load(block));
      ghost var between := log;
      error, evicted := NewBlock(block);
      if error.None? {
        WentOn(old(log), [block], {}, between, [], evicted, log);
        assert {} + evicted == evicted && [block] + [] == [block];
      }
    }

    /** A hit takes the block out of the cache; a CPU hit or a miss takes a new slot. */
    method TakeBlock(block: Block, ready: set<Block>)
        returns (error: Option<SimError>, wasCached: bool, wasCpuCached: bool, ghost evicted: set<Block>)
      requires Valid() && ready <= Members(cpu)
      modifies this
      ensures error == if old(active) >= capacity then Some(CannotFit) else None
      ensures wasCached == (block in old(cache)) && wasCpuCached == (!wasCached && block in ready)
      ensures error.None? ==> Valid() && active == old(active) + 1 && ready <= Members(cpu)
      ensures error.None? ==> Moved(cpuCapacity, old(Now()), {block}, evicted, Now())
      ensures error.None? ==> (wasCached ==> evicted == {}) && (evicted == {} || |cache| + active == capacity)
      ensures error.None? ==> |cache| + active >= old(|cache| + active)
      ensures error.None? ==> frequency == Counted(old(frequency), [block])
      ensures error.None? ==> Went(old(log), if wasCpuCached then [block] else [], evicted, log)
      ensures loaded == (old(loaded) || wasCpuCached)
      ensures error.None? ==> h2d == old(h2d) + if wasCpuCached then 1 else 0
      ensures cpuCapacity == 0 ==> cpu == old(cpu) && stepNew == old(stepNew)
    {
      hide Moved, Now, Ranks, Distinct, CpuOk, Seen, Counted, Went, Play;
      wasCached := block in cache;
      wasCpuCached := !wasCached && block in ready;
      error, evicted := None, {};
      WentNowhere(log);
      if wasCached {
        TakeCached(block);
      } else {
        error, evicted := LoadBlock(block, wasCpuCached);
        if error.Some? {
          return;
        }
      }
      CountUse(block);
    }

    /** The first depth blocks of a prompt that began at start have been asked for. */
    ghost predicate Underway(start: Tiers, hashes: seq<Block>, depth: nat, evicted: set<Block>)
      requires depth <= |hashes|
      reads this`cache, this`last, this`frequency, this`cpu, this`deferred, this`active
    {
      && Ranked(start.ranks) && Moved(cpuCapacity, start, Members(hashes[..depth]), evicted, Now())
      && Counting(capacity, start.ranks, hashes, depth, evicted)
      && (evicted != {} ==> |cache| + active == capacity)
    }

    lemma Begins(hashes: seq<Block>, ready: set<Block>, strict: nat)
      requires active == 0 && strict <= |hashes|
      ensures Underway(Now(), hashes, 0, {})
      ensures CountingHits(capacity, Ranks(), ready, hashes, 0, strict, false, 0, 0)
    {
      hide Moved, Counting, CountingHits, Members, Now;
      PromptStarts(capacity, cpuCapacity, Now(), ready, hashes, strict);
    }

    lemma Ends(start: Tiers, hashes: seq<Block>, evicted: set<Block>)
      requires Underway(start, hashes, |hashes|, evicted)
      ensures Moved(cpuCapacity, start, Members(hashes), evicted, Now())
      ensures evicted != {} ==> |cache| + active == capacity
    {
      assert hashes[..|hashes|] == hashes;
    }

    /** A block of a prompt under way is in the cache exactly if it was foretold to survive. */
    method NextBlock(hashes: seq<Block>, depth: nat, ready: set<Block>, ghost start: Tiers, ghost before: set<Block>,
        ghost log0: seq<Move>)
        returns (error: Option<SimError>, wasCached: bool, wasCpuCached: bool, ghost evicted: set<Block>)
      requires Valid() && ready <= Members(cpu) && active == depth < |hashes| && Underway(start, hashes, depth, before)
      requires Went(log0, CpuHits(capacity, start.ranks, ready, hashes, depth), before, log)
      modifies this
      ensures error == if depth >= capacity then Some(CannotFit) else None
      ensures wasCached == IsHit(capacity, start.ranks, hashes, depth)
      ensures wasCpuCached == (!wasCached && hashes[depth] in ready)
      ensures error.None? ==> Valid() && active == depth + 1 && ready <= Members(cpu)
      ensures error.None? ==> Underway(start, hashes, depth + 1, evicted)
      ensures error.None? ==> frequency == Counted(old(frequency), [hashes[depth]])
      ensures error.None? ==> Went(log0, CpuHits(capacity, start.ranks, ready, hashes, depth + 1), evicted, log)
      ensures loaded == (old(loaded) || wasCpuCached)
      ensures error.None? ==> h2d == old(h2d) + if wasCpuCached then 1 else 0
      ensures cpuCapacity == 0 ==> cpu == old(cpu) && stepNew == old(stepNew)
    {
      hide Went, CpuHits, Play, Counted, Moved, Now, Ranks, Distinct, CpuOk, Members, Counting, IsHit, Ranked;
      ghost var now, more := Now(), {};
      IsHitNow(capacity, cpuCapacity, start, hashes, depth, before, now);
      error, wasCached, wasCpuCached, more := TakeBlock(hashes[depth], ready);
      evicted := before + more;
      if error.None? {
        WentOn(log0, CpuHits(capacity, start.ranks, ready, hashes, depth), before, old(log),
          if wasCpuCached then [hashes[depth]] else [], more, log);
        NextCpuHit(capacity, start.ranks, ready, hashes, depth);
        BlockTaken(capacity, cpuCapacity, start, hashes, depth, before, now, more, Now());
      }
    }

    /** Hits count up to the first miss and below the strict boundary. */
    method CountHit(hashes: seq<Block>, depth: nat, strict: nat, wasCached: bool, wasCpuCached: bool, gapBefore: bool,
        hitBefore: nat, effectiveBefore: nat, ghost start: map<Block, Rank>, ghost ready: set<Block>)
        returns (sawGap: bool, hit: nat, effective: nat)
      requires depth < |hashes| && strict <= |hashes| && wasCached == IsHit(capacity, start, hashes, depth)
      requires wasCpuCached == (!wasCached && hashes[depth] in ready)
      requires CountingHits(capacity, start, ready, hashes, depth, strict, gapBefore, hitBefore, effectiveBefore)
      ensures CountingHits(capacity, start, ready, hashes, depth + 1, strict, sawGap, hit, effective)
    {
      hide CountingHits, IsHit;
      sawGap, hit, effective := gapBefore, hitBefore, effectiveBefore;
      if depth < strict {
        if !sawGap && (wasCached || wasCpuCached) {
          effective := effective + 1;
          if wasCached {
            hit := hit + 1;
          }
        } else {
          sawGap := true;
        }
      }
      OneMoreHit(capacity, start, ready, hashes, depth, strict, gapBefore, hitBefore, effectiveBefore, sawGap, hit,
        effective);
    }

    /** The blocks of a prompt one by one. */
    method AskBlocks(hashes: seq<Block>, strict: nat, ready: set<Block>, ghost start: Tiers)
        returns (error: Option<SimError>, hit: nat, effective: nat, claimed: bool, ghost evicted: set<Block>)
      requires Valid() && ready <= Members(cpu) && active == 0 && strict <= |hashes| && Underway(start, hashes, 0, {})
      requires CountingHits(capacity, start.ranks, ready, hashes, 0, strict, false, 0, 0)
      requires (cpuCapacity == 0 ==> ready == {}) && !loaded
      modifies this
      ensures error == if |hashes| > capacity then Some(CannotFit) else None
      ensures error.None? ==> Valid() && active == |hashes| && (claimed <==> h2d > old(h2d))
      ensures error.None? ==> Underway(start, hashes, |hashes|, evicted)
      ensures error.None? ==>
                exists gap :: CountingHits(capacity, start.ranks, ready, hashes, |hashes|, strict, gap, hit, effective)
      ensures error.None? ==> frequency == Counted(old(frequency), hashes)
      ensures error.None? ==> Went(old(log), CpuHits(capacity, start.ranks, ready, hashes, |hashes|), evicted, log)
      ensures error.None? ==> loaded == claimed
      ensures error.None? && cpuCapacity == 0 ==> stepNew == old(stepNew) && !claimed
    {
      hide *;
      CountedNone(frequency, hashes);
      NoCpuHits(capacity, start.ranks, ready, hashes, log);
      var sawGap, depth := false, 0;
      hit, effective, claimed, evicted := 0, 0, false, {};
      while depth < |hashes|
        invariant depth <= |hashes| && Valid() && active == depth <= capacity && ready <= Members(cpu)
        invariant h2d >= old(h2d) && (claimed <==> h2d > old(h2d))
        invariant cpuCapacity == 0 ==> stepNew == old(stepNew) && !claimed
        invariant Underway(start, hashes, depth, evicted) && loaded == claimed
        invariant Went(old(log), CpuHits(capacity, start.ranks, ready, hashes, depth), evicted, log)
        invariant frequency == Counted(old(frequency), hashes[..depth])
        invariant CountingHits(capacity, start.ranks, ready, hashes, depth, strict, sawGap, hit, effective)
      {
        var wasCached, wasCpuCached;
        error, wasCached, wasCpuCached, evicted := NextBlock(hashes, depth, ready, start, evicted, old(log));
        if error.Some? {
          return;
        }
        claimed := claimed || wasCpuCached;
        sawGap, hit, effective :=
          CountHit(hashes, depth, strict, wasCached, wasCpuCached, sawGap, hit, effective, start.ranks, ready);
        CountedMore(old(frequency), hashes, depth);
        depth := depth + 1;
      }
      assert hashes[..|hashes|] == hashes;
      error := None;
    }

    /** The prompt's full blocks in order. A CPU block is readable only if it was there when the step began. The
        hits are exactly those that the cache, its ranks and the CPU tier foretell when the step begins. */
    method ReplayPromptBlocks(hashes: seq<Block>, strict: nat)
        returns (error: Option<SimError>, hit: nat, effective: nat, claimed: bool, ghost evicted: set<Block>)
      requires Valid() && Drained() && active == 0 && strict <= |hashes|
      modifies this
      ensures error == if |hashes| > capacity then Some(CannotFit) else None
      ensures error.None? ==> Valid() && active == |hashes| && (claimed <==> h2d > old(h2d))
      ensures error.None? ==>
                && effective == Effective(capacity, old(Ranks()), Members(old(cpu)), hashes, strict)
                && hit == |Taken(capacity, old(Ranks()), hashes, effective)|
      ensures error.None? ==> Moved(cpuCapacity, old(Now()), Members(hashes), evicted, Now())
      ensures error.None? && evicted != {} ==> |cache| + active == capacity
      ensures error.None? ==> frequency == Counted(old(frequency), hashes)
      ensures error.None? ==>
                Went(old(log), CpuHits(capacity, old(Ranks()), Members(old(cpu)), hashes, |hashes|), evicted, log)
      ensures error.None? ==> loaded == claimed
      ensures error.None? && cpuCapacity == 0 ==> Drained() && !claimed
    {
      hide Went, CpuHits, Play, Counted, Distinct, Moved, Now, Ranks, CountingHits, Ranked, Effective, Taken, Underway;
      var ready := Members(cpu);
      ghost var start := Now();
      Begins(hashes, ready, strict);
      error, hit, effective, claimed, evicted := AskBlocks(hashes, strict, ready, start);
      if error.None? {
        ghost var gap :| CountingHits(capacity, start.ranks, ready, hashes, |hashes|, strict, gap, hit, effective);
        AllHits(capacity, start.ranks, ready, hashes, strict, gap, hit, effective);
        Ends(start, hashes, evicted);
      }
    }

    /** Slots for the rest of the prompt's blocks; then the prompt step ends. */
    method ReplayPrompt(r: Record)
        returns (error: Option<SimError>, hit: nat, effective: nat, ghost evicted: set<Block>)
      requires ValidRecord(r) && Valid() && Drained() && active == 0
      modifies this
      ensures error == if BlocksFor(r.promptTokens, r.blockSize) > capacity then Some(CannotFit) else None
      ensures error.None? ==> Valid() && Drained() && active == BlocksFor(r.promptTokens, r.blockSize)
      ensures error.None? ==> FoundHits(capacity, old(Ranks()), Members(old(cpu)), r, hit, effective)
      ensures error.None? ==> hit <= effective <= StrictPrefixBlockCount(r.promptTokens, r.blockSize)
      ensures error.None? ==> Moved(cpuCapacity, old(Now()), Members(r.hashes[..PromptFull(r)]), evicted, Now())
      ensures error.None? && evicted != {} ==> |cache| + active == capacity
      ensures error.None? ==> PromptStep(old(log),
                CpuHits(capacity, old(Ranks()), Members(old(cpu)), r.hashes[..PromptFull(r)], PromptFull(r)), evicted,
                log)
      ensures error.None? ==> frequency == Counted(old(frequency), r.hashes[..PromptFull(r)])
    {
      hide Tier, Recorded, Went, OneArrives, CpuHits, Play, Counted, Distinct, Seen, BlocksFor, Moved, Now, Ranks;
      hide CpuOk, Members, Effective, Taken, Ranked, FoundPrefix;
      BlocksForMeans(r.promptTokens, r.blockSize);
      var claimed;
      ghost var start := Now();
      ghost var loads := CpuHits(capacity, Ranks(), Members(cpu), r.hashes[..PromptFull(r)], PromptFull(r));
      ghost var asked := Members(r.hashes[..PromptFull(r)]);
      error, hit, effective, claimed, evicted := ReplayPromptBlocks(r.hashes[..PromptFull(r)], StrictBlocks(r));
      if error.Some? {
        return;
      }
      TakenAtMost(capacity, start.ranks, r.hashes[..PromptFull(r)], effective);
      var needed := BlocksFor(r.promptTokens, r.blockSize);
      while active < needed
        invariant Valid() && active <= needed && (evicted != {} ==> |cache| + active == capacity)
        invariant Moved(cpuCapacity, start, asked, evicted, Now())
        invariant Went(old(log), loads, evicted, log) && loaded == claimed
        invariant frequency == Counted(old(frequency), r.hashes[..PromptFull(r)])
        decreases needed - active
      {
        ghost var before, more, between := Now(), {}, log;
        error, more := AllocateSlot();
        if error.Some? {
          return;
        }
        MovedMore(cpuCapacity, start, asked, evicted, before, more, Now());
        ArrivalWent(between, more, log);
        WentOn(old(log), loads, evicted, between, [], more, log);
        assert loads + [] == loads;
        evicted := evicted + more;
      }
      if active != needed {
        error := Some(PromptDiverged);
        return;
      }
      ghost var before, before0 := Now(), log;
      EndStep(claimed);
      MovedStill(cpuCapacity, start, asked, evicted, before, Now());
      assert log[..|log| - 1] == before0;
      error := None;
    }

    /** The tail blocks of a request up to block i have been filled since start, when total slots were in use. */
    ghost predicate Filling(start: Tiers, r: Record, i: nat, evicted: set<Block>, total: nat)
      requires ValidRecord(r) && PromptFull(r) <= i <= |r.hashes|
      reads this`cache, this`last, this`frequency, this`cpu, this`deferred, this`active
    {
      && Moved(cpuCapacity, start, Members(r.hashes[PromptFull(r)..i]), evicted, Now())
      && (Members(r.hashes[PromptFull(r)..]) !! start.ranks.Keys ==>
            |cache| + active >= total && (evicted != {} ==> |cache| + active == capacity))
    }

    /** A slot for a new tail block; its step then ends. */
    method NextTail(r: Record, i: nat, ghost start: Tiers, ghost before: set<Block>, ghost total: nat,
        ghost log0: seq<Move>, ghost n: nat)
        returns (error: Option<SimError>, ghost evicted: set<Block>)
      requires Valid() && Drained() && ValidRecord(r) && PromptFull(r) <= i <= |r.hashes|
      requires Filling(start, r, i, before, total) && Tailed(log0, n, before, log)
      modifies this
      ensures error == if old(active) >= capacity then Some(CannotFit) else None
      ensures error.None? ==> Valid() && Drained() && active == old(active) + 1
      ensures frequency == old(frequency) && (error.None? ==> Tailed(log0, n + 1, evicted, log))
      ensures error.None? ==> Filling(start, r, i, evicted, total)
    {
      hide OneArrives, Tailed, Play, Moved, Now, Ranks, CpuOk, Members, Distinct, Ranked;
      ghost var now, asked, more := Now(), Members(r.hashes[PromptFull(r)..i]), {};
      error, more := AllocateSlot();
      evicted := before + more;
      if error.None? {
        MovedMore(cpuCapacity, start, asked, before, now, more, Now());
        now := Now();
        ghost var between := log;
        EndStep(false);
        TailedMore(log0, n, before, old(log), more, between);
        MovedStill(cpuCapacity, start, asked, evicted, now, Now());
      }
    }

    /** One more use of a block, which may be cached: only its own rank can change. */
    method CountAny(block: Block)
      modifies this`frequency
      ensures frequency == Counted(old(frequency), [block])
      ensures Ranks().Keys == old(Ranks()).Keys && forall b | b in cache && b != block :: Ranks()[b] == old(Ranks())[b]
    {
      CountedOne(frequency, block);
      frequency := frequency[block := Seen(block) + 1];
    }

    method TakeOut(block: Block)
      modifies this`cache
      ensures cache == old(cache) - {block}
      ensures Ranks().Keys == old(Ranks()).Keys - {block} && forall b | b in cache :: Ranks()[b] == old(Ranks())[b]
    {
      hide Ranked, Leaves;
      cache := cache - {block};
    }

    lemma StillValid(before: set<Block>)
      requires |before| + active <= capacity && before <= last.Keys && CpuOk() && Recorded()
      requires cache <= before && |cache| <= |before|
      ensures Valid()
    {
      hide CpuOk, Recorded;
    }

    /** A block filled by decoding stops being a free cached one. */
    method UseBlock(block: Block)
      requires Valid()
      modifies this`frequency, this`cache
      ensures frequency == Counted(old(frequency), [block])
      ensures Valid() && cache == old(cache) - {block} && Moved(cpuCapacity, old(Now()), {block}, {}, Now())
    {
      hide Counted, Moved, Now, Ranks, Ranked, Leaves, Distinct, CpuOk, Recorded, Lost;
      CountAny(block);
      TakeOut(block);
      SubsetSize(cache, old(cache));
      StillValid(old(cache));
      LostOne(old(Ranks()), block, Ranks());
      GaveBlock(cpuCapacity, old(Now()), block, Now());
    }

    method FillBlock(r: Record, i: nat, ghost start: Tiers, ghost evicted: set<Block>, ghost total: nat)
      requires Valid() && ValidRecord(r) && PromptFull(r) <= i < |r.hashes| && Filling(start, r, i, evicted, total)
      modifies this`frequency, this`cache
      ensures frequency == Counted(old(frequency), [r.hashes[i]])
      ensures Valid() && Filling(start, r, i + 1, evicted, total)
    {
      hide Counted, Moved, Now, Ranks, CpuOk, Distinct, Ranked;
      ghost var now := Now();
      UseBlock(r.hashes[i]);
      MovedKeys(cpuCapacity, start, Members(r.hashes[PromptFull(r)..i]), evicted, now);
      assert r.hashes[i] in r.hashes[PromptFull(r)..];
      MovedBlock(cpuCapacity, start, r.hashes, PromptFull(r), i, evicted, now, Now());
    }

    /** Generated tokens: the partly filled last block of the prompt fills up before a new one is taken. */
    method ReplayDecode(r: Record) returns (error: Option<SimError>, ghost evicted: set<Block>)
      requires ValidRecord(r) && Valid() && Drained() && active == BlocksFor(r.promptTokens, r.blockSize)
      modifies this
      ensures error == if BlocksFor(r.totalTokens, r.blockSize) > capacity then Some(CannotFit) else None
      ensures error.None? ==> Valid() && Drained() && active == BlocksFor(r.totalTokens, r.blockSize)
      ensures error.None? ==> frequency == Counted(old(frequency), r.hashes[PromptFull(r)..])
      ensures error.None? ==> Tailed(old(log), NewSlots(r), evicted, log)
      ensures error.None? ==> Filling(old(Now()), r, |r.hashes|, evicted, old(|cache| + active))
    {
      hide Tailed, Play, Counted, Distinct, BlocksFor, Moved, Now, Ranks, CpuOk, Members, Ranked, Filling;
      BlocksForMeans(r.promptTokens, r.blockSize);
      BlocksForMeans(r.totalTokens, r.blockSize);
      TailSettles(r.promptTokens, r.totalTokens, r.blockSize);
      var mutableTail := r.promptTokens % r.blockSize != 0;
      var i := PromptFull(r);
      evicted := {};
      ghost var start, total := Now(), |cache| + active;
      NothingFilled(r);
      NoTail(log);
      ghost var first := active;
      CountedNone(frequency, r.hashes[PromptFull(r)..]);
      while i < |r.hashes|
        invariant PromptFull(r) <= i <= |r.hashes| && Valid() && Drained() && Filling(start, r, i, evicted, total)
        invariant frequency == Counted(old(frequency), r.hashes[PromptFull(r)..][..i - PromptFull(r)])
        invariant active >= first && Tailed(old(log), active - first, evicted, log)
        invariant active == i + if mutableTail then 1 else 0
        invariant i > PromptFull(r) ==> !mutableTail
        invariant i == PromptFull(r) ==> mutableTail == (r.promptTokens % r.blockSize != 0)
      {
        if !mutableTail {
          error, evicted := NextTail(r, i, start, evicted, total, old(log), active - first);
          if error.Some? {
            return;
          }
          mutableTail := true;
        }
        FillBlock(r, i, start, evicted, total);
        mutableTail := false;
        CountedMore(old(frequency), r.hashes[PromptFull(r)..], i - PromptFull(r));
        i := i + 1;
      }
      assert r.hashes[PromptFull(r)..][..i - PromptFull(r)] == r.hashes[PromptFull(r)..];
      if r.totalTokens % r.blockSize != 0 {
        if !mutableTail {
          error, evicted := NextTail(r, i, start, evicted, total, old(log), active - first);
          if error.Some? {
            return;
          }
          mutableTail := true;
        }
      } else if mutableTail {
        return Some(TailDiverged), evicted;
      }
      if active != BlocksFor(r.totalTokens, r.blockSize) {
        return Some(AllocationDiverged), evicted;
      }
      if deferred != [] || stepNew != {} {
        return Some(NotDrained), evicted;
      }
      error := None;
    }

    lemma NothingFilled(r: Record)
      requires ValidRecord(r)
      ensures Filling(Now(), r, PromptFull(r), {}, |cache| + active)
    {
      hide Moved, Now;
      NothingMoved(cpuCapacity, Now(), r.hashes, PromptFull(r));
    }

    /** The request's full blocks become free cached blocks, the deepest the first to leave among them. */
    method Release(hashes: seq<Block>, tick: nat) returns (error: Option<SimError>)
      requires Valid() && Drained() && |hashes| <= active
      modifies this
      ensures error.None? && Valid() && Drained() && active == 0
      ensures cache == old(cache) + Members(hashes) && cpu == old(cpu) && frequency == old(frequency)
              && log == old(log)
      ensures last == Used(old(last), hashes, |hashes|, tick)
    {
      hide Distinct, CpuOk, Recorded, Play, Tier;
      DistinctCount(hashes);
      cache := cache + Members(hashes);
      active := 0;
      if |cache| > capacity {
        return Some(CapacityExceeded);
      }
      var depth := 0;
      while depth < |hashes|
        invariant depth <= |hashes| && last == Used(old(last), hashes, depth, tick)
        modifies `last
      {
        last := last[hashes[depth] := Use(tick, depth)];
        depth := depth + 1;
      }
      UsedKeys(old(last), hashes, |hashes|, tick);
      assert hashes[..|hashes|] == hashes;
      error := None;
    }

    /** One request. The replay fails exactly when the request alone needs more blocks than the cache has. Its hits are
        those foretold when it begins; the blocks evicted on the way ranked below all that stayed. */
    method Replay(r: Record, tick: nat)
        returns (error: Option<SimError>, hit: nat, effective: nat, ghost evicted: set<Block>)
      requires ValidRecord(r) && Valid() && Drained() && active == 0 && NoTies(last, tick)
      modifies this
      ensures error == if BlocksFor(r.totalTokens, r.blockSize) > capacity then Some(CannotFit) else None
      ensures error.None? ==> Valid() && Drained() && active == 0 && NoTies(last, tick + 1)
      ensures error.None? ==> FoundHits(capacity, old(Ranks()), Members(old(cpu)), r, hit, effective)
      ensures error.None? ==> hit <= effective <= StrictPrefixBlockCount(r.promptTokens, r.blockSize)
      ensures error.None? ==> RequestLog(capacity, old(Ranks()), Members(old(cpu)), r, evicted, old(log), log)
      ensures error.None? ==> frequency == Counted(old(frequency), r.hashes)
      ensures error.None? ==> Replayed(capacity, cpuCapacity, old(Now()), r, tick, evicted, Now())
    {
      hide PromptStep, Tailed, CpuHits, RequestLog, Play, Counted, Distinct, BlocksFor, Moved, Now, Ranks, CpuOk,
          Members, Ranked, Filling, FoundHits, Replayed, NoTies, TailMoved, NewSlots, Recorded, Tier, Used;
      MoreBlocks(r);
      ghost var start := Now();
      error, hit, effective, evicted := ReplayPrompt(r);
      if error.Some? {
        return;
      }
      ghost var mid, total, more, prompt, held := Now(), |cache| + active, {}, log, active;
      error, more := ReplayDecode(r);
      if error.Some? {
        return;
      }
      ghost var end, slots := Now(), active;
      RequestLogged(capacity, start.ranks, start.cpu, r, evicted, old(log), prompt, more, log);
      Filled(mid, r, more, total);
      CountedConcat(old(frequency), r.hashes[..PromptFull(r)], r.hashes[PromptFull(r)..]);
      assert r.hashes[..PromptFull(r)] + r.hashes[PromptFull(r)..] == r.hashes;
      error := Release(r.hashes, tick);
      RequestDone(capacity, cpuCapacity, start, r, tick, evicted, mid, total, more, end, slots, Now());
      evicted := evicted + more;
    }

    lemma Filled(start: Tiers, r: Record, evicted: set<Block>, total: nat)
      requires ValidRecord(r) && Filling(start, r, |r.hashes|, evicted, total)
      ensures TailMoved(capacity, cpuCapacity, start, r, evicted, total, Now(), active)
    {
      hide Moved, Now;
      assert r.hashes[PromptFull(r)..|r.hashes|] == r.hashes[PromptFull(r)..];
    }

    /** The block that leaves first was used less often, when that counts; else longer ago, or deeper in the same
        request. */
    lemma LeavesBefore(a: Block, b: Block, tick: int)
      requires Valid() && NoTies(last, tick) && a in cache && b in cache && a != b
      ensures Leaves(Ranks()[a], Ranks()[b]) <==>
                if byFrequency && Seen(a) != Seen(b) then Seen(a) < Seen(b)
                else last[a].tick < last[b].tick || (last[a].tick == last[b].tick && last[a].depth > last[b].depth)
    {
      assert last[a] != last[b];
    }

    lemma RanksAre()
      requires Valid()
      ensures RankedBy(byFrequency, frequency, Now()) && PlayedTo(cpuCapacity, log, Now())
    {
    }

    /** A whole trace: it is replayed to the end exactly when every request fits. Each request starts from what the one
        before left, with the ranks that the uses so far give; its hits are those foretold then. */
    method Simulate(records: seq<Record>)
        returns (error: Option<SimError>, hits: seq<Hits>, ghost tiers: seq<Tiers>, ghost evicted: seq<set<Block>>,
            ghost logs: seq<seq<Move>>)
      requires Valid() && Drained() && active == 0 && NoTies(last, 1) && forall r | r in records :: ValidRecord(r)
      modifies this
      ensures error.None? <==> forall r | r in records :: Fits(r, capacity)
      ensures error.Some? ==> error.value == CannotFit
      ensures error.None? ==> Valid() && |cache| <= capacity && |cpu| <= cpuCapacity && NoTies(last, |records| + 1)
      ensures error.None? ==>
                && |hits| == |evicted| == |records| && |tiers| == |records| + 1
                && tiers[0] == old(Now()) && tiers[|records|] == Now()
                && |logs| == |records| + 1 && logs[0] == old(log) && logs[|records|] == log
                && frequency == Counted(old(frequency), AllHashes(records, |records|))
                && forall i | 0 <= i < |records| ::
                     Step(capacity, cpuCapacity, byFrequency, old(frequency), records, i, tiers, hits[i], evicted[i],
                          logs)
    {
      hide BlocksFor, Distinct, Replayed, FoundHits, Now, Ranks, NoTies, Counted, AllHashes, RankedBy, RequestLog,
          PlayedTo, Play;
      hits, tiers, evicted, logs := [], [Now()], [], [log];
      ghost var uses := frequency;
      NothingCounted(frequency, records);
      for i := 0 to |records|
        invariant Valid() && Drained() && active == 0 && NoTies(last, i + 1)
        invariant forall j | 0 <= j < i :: Fits(records[j], capacity)
        invariant |hits| == |evicted| == i && |tiers| == i + 1 && tiers[0] == old(Now()) && tiers[i] == Now()
        invariant |logs| == i + 1 && logs[0] == old(log) && logs[i] == log
        invariant frequency == Counted(uses, AllHashes(records, i))
        invariant forall j | 0 <= j < i ::
            Step(capacity, cpuCapacity, byFrequency, uses, records, j, tiers, hits[j], evicted[j], logs)
      {
        var hit, effective;
        ghost var out;
        RanksAre();
        error, hit, effective, out := Replay(records[i], i + 1);
        if error.Some? {
          assert records[i] in records;
          return;
        }
        CountedConcat(uses, AllHashes(records, i), records[i].hashes);
        MoreHashes(records, i);
        hits, tiers, evicted, logs := hits + [Hits(hit, effective)], tiers + [Now()], evicted + [out],
          logs + [log];
      }
      error := None;
    }
  }

  /** Leading blocks hit in the cache, and in one of the tiers. */
  datatype Hits = Hits(hit: nat, effective: nat)

  /** The CPU tier is what its history makes of it. */
  ghost predicate PlayedTo(cpuCapacity: nat, log: seq<Move>, t: Tiers) {
    Members(Play(cpuCapacity, log).order) == t.cpu
  }

  /** A prompt's step: these reads, these arrivals, and its end. */
  ghost predicate PromptStep(log: seq<Move>, loads: seq<Block>, arrivals: set<Block>, log': seq<Move>) {
    |log'| > 0 && log'[|log'| - 1] == StepEnd && Went(log, loads, arrivals, log'[..|log'| - 1])
  }

  /** Decoding steps: in each at most one block arrives, and nothing is read. */
  ghost predicate TailPart(part: seq<Move>, n: nat)
    decreases n
  {
    if n == 0 then part == []
    else
      |part| > 0 && part[|part| - 1] == StepEnd &&
        (TailPart(part[..|part| - 1], n - 1)
        || (|part| > 1 && part[|part| - 2].Arrive? && TailPart(part[..|part| - 2], n - 1)))
  }

  ghost predicate Tailed(log: seq<Move>, n: nat, arrivals: set<Block>, log': seq<Move>) {
    && |log| <= |log'| && log'[..|log|] == log
    && TailPart(log'[|log|..], n) && ArrivalsOf(log'[|log|..]) == arrivals
  }

  lemma NoTail(log: seq<Move>)
    ensures Tailed(log, 0, {}, log)
  {
  }

  lemma TailedMore(log0: seq<Move>, n: nat, before: set<Block>, log: seq<Move>, more: set<Block>, log': seq<Move>)
    requires Tailed(log0, n, before, log) && OneArrives(log, more, log')
    ensures Tailed(log0, n + 1, before + more, log' + [StepEnd])
  {
    hide ArrivalsOf, Tailed;
    if |log'| == |log| {
      QuietStep(log0, n, before, log);
      assert before + more == before;
    } else {
      assert log' == log + [log'[|log|]];
      ArrivalStep(log0, n, before, log, log'[|log|]);
    }
  }

  lemma QuietStep(log0: seq<Move>, n: nat, before: set<Block>, log: seq<Move>)
    requires Tailed(log0, n, before, log)
    ensures Tailed(log0, n + 1, before, log + [StepEnd])
  {
    hide ArrivalsOf;
    var part, whole := log[|log0|..], (log + [StepEnd])[|log0|..];
    assert whole == part + [StepEnd] && whole[..|whole| - 1] == part;
    LastArrivals(part, StepEnd);
  }

  lemma ArrivalStep(log0: seq<Move>, n: nat, before: set<Block>, log: seq<Move>, m: Move)
    requires Tailed(log0, n, before, log) && m.Arrive?
    ensures Tailed(log0, n + 1, before + {m.block}, log + [m] + [StepEnd])
  {
    hide ArrivalsOf;
    var part, whole := log[|log0|..], (log + [m] + [StepEnd])[|log0|..];
    assert whole == part + [m] + [StepEnd] && whole[..|whole| - 2] == part;
    LastArrivals(part + [m], StepEnd);
    LastArrivals(part, m);
  }

  lemma LastArrivals(part: seq<Move>, m: Move)
    ensures ArrivalsOf(part + [m]) == ArrivalsOf(part) + if m.Arrive? then {m.block} else {}
  {
    assert (part + [m])[..|part|] == part;
  }

  /** What a request does to the CPU tier: its prompt reads, in order, the blocks that are there but not in the cache
      when it reaches them; the evicted blocks arrive; and each new block of its answer is a step of its own. */
  ghost predicate RequestLog(capacity: nat, ranks: map<Block, Rank>, ready: set<Block>, r: Record, evicted: set<Block>,
      log: seq<Move>, log': seq<Move>)
    requires ValidRecord(r)
  {
    exists mid, first, later ::
      && PromptStep(log, CpuHits(capacity, ranks, ready, r.hashes[..PromptFull(r)], PromptFull(r)), first, mid)
      && Tailed(mid, NewSlots(r), later, log') && evicted == first + later
  }

  /** The blocks a request takes after its prompt. */
  function NewSlots(r: Record): nat
    requires ValidRecord(r)
  {
    MoreBlocks(r);
    BlocksFor(r.totalTokens, r.blockSize) - BlocksFor(r.promptTokens, r.blockSize)
  }

  lemma RequestLogged(capacity: nat, ranks: map<Block, Rank>, ready: set<Block>, r: Record, first: set<Block>,
      log: seq<Move>, mid: seq<Move>, later: set<Block>, log': seq<Move>)
    requires ValidRecord(r)
    requires PromptStep(log, CpuHits(capacity, ranks, ready, r.hashes[..PromptFull(r)], PromptFull(r)), first, mid)
    requires Tailed(mid, NewSlots(r), later, log')
    ensures RequestLog(capacity, ranks, ready, r, first + later, log, log')
  {
    hide PromptStep, Tailed, CpuHits;
  }

  /** The full blocks of the first n requests. */
  function AllHashes(records: seq<Record>, n: nat): seq<Block>
    requires n <= |records|
  {
    if n == 0 then [] else AllHashes(records, n - 1) + records[n - 1].hashes
  }

  lemma MoreHashes(records: seq<Record>, n: nat)
    requires n < |records|
    ensures AllHashes(records, n + 1) == AllHashes(records, n) + records[n].hashes
  {
  }

  lemma NothingCounted(f: map<Block, nat>, records: seq<Record>)
    ensures Counted(f, AllHashes(records, 0)) == f
  {
  }

  ghost predicate Step(capacity: nat, cpuCapacity: nat, byFrequency: bool, uses: map<Block, nat>, records: seq<Record>,
      i: nat, tiers: seq<Tiers>, hits: Hits, evicted: set<Block>, logs: seq<seq<Move>>)
    requires i < |records|
  {
    && i + 1 < |tiers| && i + 1 < |logs| && ValidRecord(records[i])
    && PlayedTo(cpuCapacity, logs[i], tiers[i])
    && RequestLog(capacity, tiers[i].ranks, tiers[i].cpu, records[i], evicted, logs[i], logs[i + 1])
    && RankedBy(byFrequency, Counted(uses, AllHashes(records, i)), tiers[i])
    && FoundHits(capacity, tiers[i].ranks, tiers[i].cpu, records[i], hits.hit, hits.effective)
    && Replayed(capacity, cpuCapacity, tiers[i], records[i], i + 1, evicted, tiers[i + 1])
  }

  /** The hits of a prompt, from the tiers when its step begins. */
  ghost predicate FoundHits(capacity: nat, ranks: map<Block, Rank>, ready: set<Block>, r: Record, hit: nat,
      effective: nat)
    requires ValidRecord(r)
  {
    var hashes := r.hashes[..PromptFull(r)];
    && effective == Effective(capacity, ranks, ready, hashes, StrictBlocks(r))
    && hit == |Taken(capacity, ranks, hashes, effective)|
  }

  /** What a whole request leaves: its own blocks are in the cache, and what was evicted ranked below all that stayed.
      How many were is known when none of its blocks was in the cache; where they are, when the CPU tier has room. */
  ghost predicate Replayed(capacity: nat, cpuCapacity: nat, t: Tiers, r: Record, tick: nat, evicted: set<Block>,
      t': Tiers)
    requires ValidRecord(r)
  {
    && evicted <= t.ranks.Keys && t'.ranks.Keys == t.ranks.Keys - evicted + Members(r.hashes)
    && LeftFirst(t.ranks, evicted, t.ranks.Keys - evicted - Members(r.hashes))
    && t'.last == Used(t.last - evicted, r.hashes, |r.hashes|, tick) && Joined(cpuCapacity, t, evicted, t')
    && (Members(r.hashes) !! t.ranks.Keys ==>
          |evicted| == Max(0, |t.ranks| + BlocksFor(r.totalTokens, r.blockSize) - capacity))
  }

  ghost predicate TailMoved(capacity: nat, cpuCapacity: nat, t: Tiers, r: Record, evicted: set<Block>, total: nat,
      t': Tiers, slots: nat)
    requires ValidRecord(r)
  {
    var asked := Members(r.hashes[PromptFull(r)..]);
    && Moved(cpuCapacity, t, asked, evicted, t')
    && (asked !! t.ranks.Keys ==> |t'.ranks| + slots >= total && (evicted != {} ==> |t'.ranks| + slots == capacity))
  }

  lemma MoreBlocks(r: Record)
    requires ValidRecord(r)
    ensures BlocksFor(r.promptTokens, r.blockSize) <= BlocksFor(r.totalTokens, r.blockSize)
    ensures |r.hashes| <= BlocksFor(r.totalTokens, r.blockSize)
  {
    BlocksForMeans(r.promptTokens, r.blockSize);
    BlocksForMeans(r.totalTokens, r.blockSize);
    TailSettles(r.promptTokens, r.totalTokens, r.blockSize);
  }

  /** The prompt, the decoding and the release of a request put together. */
  lemma RequestDone(capacity: nat, cpuCapacity: nat, start: Tiers, r: Record, tick: nat, evicted: set<Block>,
      mid: Tiers, total: nat, more: set<Block>, end: Tiers, slots: nat, t: Tiers)
    requires ValidRecord(r) && slots == BlocksFor(r.totalTokens, r.blockSize) && |end.ranks| + slots <= capacity
    requires Moved(cpuCapacity, start, Members(r.hashes[..PromptFull(r)]), evicted, mid)
    requires evicted != {} ==> total == capacity
    requires TailMoved(capacity, cpuCapacity, mid, r, more, total, end, slots)
    requires t.ranks.Keys == end.ranks.Keys + Members(r.hashes) && t.last == Used(end.last, r.hashes, |r.hashes|, tick)
    requires t.cpu == end.cpu && t.deferred == end.deferred && NoTies(start.last, tick)
    ensures Replayed(capacity, cpuCapacity, start, r, tick, evicted + more, t) && NoTies(t.last, tick + 1)
  {
    hide *;
    TailIs(capacity, cpuCapacity, start, r, evicted, mid, total, more, end, slots);
    ReleaseDone(capacity, cpuCapacity, start, r, tick, evicted + more, end, slots, t);
  }

  lemma TailIs(capacity: nat, cpuCapacity: nat, start: Tiers, r: Record, evicted: set<Block>, mid: Tiers, total: nat,
      more: set<Block>, end: Tiers, slots: nat)
    requires ValidRecord(r) && |end.ranks| + slots <= capacity
    requires Moved(cpuCapacity, start, Members(r.hashes[..PromptFull(r)]), evicted, mid)
    requires evicted != {} ==> total == capacity
    requires TailMoved(capacity, cpuCapacity, mid, r, more, total, end, slots)
    ensures Moved(cpuCapacity, start, Members(r.hashes), evicted + more, end)
    ensures Members(r.hashes) !! start.ranks.Keys && evicted + more != {} ==> |end.ranks| + slots == capacity
  {
    hide PromptFull, Members, Moved;
    var first, rest := Members(r.hashes[..PromptFull(r)]), Members(r.hashes[PromptFull(r)..]);
    MovedOn(cpuCapacity, start, first, evicted, mid, rest, more, end);
    MembersCut(r.hashes, PromptFull(r));
    MovedKeys(cpuCapacity, start, first, evicted, mid);
  }

  lemma ReleaseDone(capacity: nat, cpuCapacity: nat, start: Tiers, r: Record, tick: nat, evicted: set<Block>,
      end: Tiers, slots: nat, t: Tiers)
    requires ValidRecord(r) && slots == BlocksFor(r.totalTokens, r.blockSize) && |end.ranks| + slots <= capacity
    requires Moved(cpuCapacity, start, Members(r.hashes), evicted, end)
    requires Members(r.hashes) !! start.ranks.Keys && evicted != {} ==> |end.ranks| + slots == capacity
    requires t.ranks.Keys == end.ranks.Keys + Members(r.hashes) && t.last == Used(end.last, r.hashes, |r.hashes|, tick)
    requires t.cpu == end.cpu && t.deferred == end.deferred && NoTies(start.last, tick)
    ensures Replayed(capacity, cpuCapacity, start, r, tick, evicted, t) && NoTies(t.last, tick + 1)
  {
    hide BlocksFor, LeftFirst, Joined, NoTies, Used, Members, Moved;
    var asked := Members(r.hashes);
    MovedMeans(cpuCapacity, start, asked, evicted, end);
    StillNoTies(start.last, evicted, r.hashes, tick);
    BackInCache(start.ranks.Keys, evicted, asked, end.ranks.Keys);
    JoinedSame(cpuCapacity, start, evicted, end, t);
    ApartEvicted(capacity, start, asked, evicted, end, slots);
  }

  lemma ApartEvicted(capacity: nat, start: Tiers, asked: set<Block>, evicted: set<Block>, end: Tiers, slots: nat)
    requires evicted <= start.ranks.Keys && end.ranks.Keys == start.ranks.Keys - evicted - asked
    requires |start.ranks| == |start.ranks.Keys| && |end.ranks| == |end.ranks.Keys| && |end.ranks| + slots <= capacity
    requires asked !! start.ranks.Keys && evicted != {} ==> |end.ranks| + slots == capacity
    ensures asked !! start.ranks.Keys ==> |evicted| == Max(0, |start.ranks| + slots - capacity)
  {
    if asked !! start.ranks.Keys {
      BackInCache(start.ranks.Keys, evicted, asked, end.ranks.Keys);
      EvictedCount(capacity, start.ranks.Keys, evicted, end.ranks.Keys, slots);
    }
  }
}
