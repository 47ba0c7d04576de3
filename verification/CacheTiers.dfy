/** The cache and the CPU tier as values: what leaves the cache between two moments, in which order, and where it
    goes. */
module CacheTiers {
  import opened IntFacts
  import opened PrefixHits
  import opened Sequences

  datatype Use = Use(tick: int, depth: int)

  /** What eviction reads and changes. */
  datatype Tiers = Tiers(ranks: map<Block, Rank>, last: map<Block, Use>, cpu: set<Block>, deferred: seq<Block>)

  ghost predicate ByRecency(t: Tiers) {
    forall b | b in t.ranks :: b in t.last && t.ranks[b] == Rank(0, t.last[b].tick, t.last[b].depth, b)
  }

  ghost predicate IsLowest(ranks: map<Block, Rank>, victim: Block) {
    victim in ranks && forall b | b in ranks :: !Leaves(ranks[b], ranks[victim])
  }

  /** None of what stays should have left before any of the evicted. */
  ghost predicate LeftFirst(ranks: map<Block, Rank>, evicted: set<Block>, stay: set<Block>) {
    forall v, b | v in evicted && b in stay && v in ranks && b in ranks :: !Leaves(ranks[b], ranks[v])
  }

  /** The evicted blocks are all in the CPU tier if it has room for them. */
  ghost predicate Joined(cpuCapacity: nat, t: Tiers, evicted: set<Block>, t': Tiers) {
    t.deferred == [] && |t.cpu + evicted| <= cpuCapacity ==> t'.deferred == [] && t'.cpu == t.cpu + evicted
  }

  /** The map m' is m without the blocks that are gone. */
  ghost predicate Lost<V>(m: map<Block, V>, gone: set<Block>, m': map<Block, V>) {
    m'.Keys == m.Keys - gone && forall b | b in m' :: m'[b] == m[b]
  }

  lemma LostOne<V>(m: map<Block, V>, block: Block, m': map<Block, V>)
    requires m'.Keys == m.Keys - {block} && forall b | b in m' :: m'[b] == m[b]
    ensures Lost(m, {block}, m')
  {
  }

  /** From t to t' the cache gave the blocks asked for and evicted some, lowest rank first. */
  ghost predicate Moved(cpuCapacity: nat, t: Tiers, asked: set<Block>, evicted: set<Block>, t': Tiers) {
    && evicted <= t.ranks.Keys && Lost(t.ranks, evicted + asked, t'.ranks) && Lost(t.last, evicted, t'.last)
    && LeftFirst(t.ranks, evicted, t'.ranks.Keys) && Joined(cpuCapacity, t, evicted, t')
  }

  lemma SameCount<V>(m: map<Block, V>)
    ensures |m| == |m.Keys|
  {
  }

  lemma LostOn<V>(m: map<Block, V>, gone: set<Block>, m': map<Block, V>, gone': set<Block>, m'': map<Block, V>)
    requires Lost(m, gone, m') && Lost(m', gone', m'')
    ensures Lost(m, gone + gone', m'')
  {
  }

  lemma Unmoved(cpuCapacity: nat, t: Tiers)
    ensures Moved(cpuCapacity, t, {}, {}, t)
  {
  }

  lemma MovedOn(cpuCapacity: nat, t: Tiers, asked: set<Block>, evicted: set<Block>, t': Tiers, asked': set<Block>,
      evicted': set<Block>, t'': Tiers)
    requires Moved(cpuCapacity, t, asked, evicted, t') && Moved(cpuCapacity, t', asked', evicted', t'')
    ensures Moved(cpuCapacity, t, asked + asked', evicted + evicted', t'')
  {
    hide Lost, Joined, LeftFirst;
    JoinedOn(cpuCapacity, t, evicted, t', evicted', t'');
    LostOn(t.last, evicted, t'.last, evicted', t''.last);
    LostOn(t.ranks, evicted + asked, t'.ranks, evicted' + asked', t''.ranks);
    assert evicted + asked + (evicted' + asked') == evicted + evicted' + (asked + asked');
    LeftOn(t.ranks, evicted + asked, evicted, t'.ranks, evicted' + asked', evicted', t''.ranks);
  }

  lemma LeftOn(ranks: map<Block, Rank>, gone: set<Block>, evicted: set<Block>, ranks': map<Block, Rank>,
      gone': set<Block>, evicted': set<Block>, ranks'': map<Block, Rank>)
    requires Lost(ranks, gone, ranks') && Lost(ranks', gone', ranks'') && evicted' <= ranks'.Keys
    requires LeftFirst(ranks, evicted, ranks'.Keys) && LeftFirst(ranks', evicted', ranks''.Keys)
    ensures LeftFirst(ranks, evicted + evicted', ranks''.Keys) && evicted' <= ranks.Keys
  {
    hide Leaves;
  }

  lemma JoinedOn(cpuCapacity: nat, t: Tiers, evicted: set<Block>, t': Tiers, evicted': set<Block>, t'': Tiers)
    requires Joined(cpuCapacity, t, evicted, t') && Joined(cpuCapacity, t', evicted', t'')
    ensures Joined(cpuCapacity, t, evicted + evicted', t'')
  {
    assert t.cpu + (evicted + evicted') == t.cpu + evicted + evicted';
    SubsetSize(t.cpu + evicted, t.cpu + (evicted + evicted'));
  }

  lemma MovedMore(cpuCapacity: nat, t: Tiers, asked: set<Block>, evicted: set<Block>, t': Tiers, more: set<Block>,
      t'': Tiers)
    requires Moved(cpuCapacity, t, asked, evicted, t') && Moved(cpuCapacity, t', {}, more, t'')
    ensures Moved(cpuCapacity, t, asked, evicted + more, t'')
  {
    hide Moved;
    MovedOn(cpuCapacity, t, asked, evicted, t', {}, more, t'');
    assert asked + {} == asked;
  }

  lemma MovedStill(cpuCapacity: nat, t: Tiers, asked: set<Block>, evicted: set<Block>, t': Tiers, t'': Tiers)
    requires Moved(cpuCapacity, t, asked, evicted, t') && Moved(cpuCapacity, t', {}, {}, t'')
    ensures Moved(cpuCapacity, t, asked, evicted, t'')
  {
    hide Moved;
    MovedMore(cpuCapacity, t, asked, evicted, t', {}, t'');
    assert evicted + {} == evicted;
  }

  /** Nothing leaves the cache, and nothing was waiting that could move between the tiers. */
  lemma Settled(cpuCapacity: nat, t: Tiers, t': Tiers)
    requires t'.ranks == t.ranks && t'.last == t.last
    requires t.deferred == [] ==> t'.deferred == [] && t'.cpu == t.cpu
    ensures Moved(cpuCapacity, t, {}, {}, t')
  {
    assert t.cpu + {} == t.cpu;
  }

  lemma EvictedOne(cpuCapacity: nat, t: Tiers, victim: Block, t': Tiers, t'': Tiers)
    requires IsLowest(t.ranks, victim) && Lost(t.ranks, {victim}, t'.ranks) && t'.last == t.last - {victim}
    requires t'.cpu == t.cpu && t'.deferred == t.deferred && Joined(cpuCapacity, t', {victim}, t'')
    requires t''.ranks == t'.ranks && t''.last == t'.last
    ensures Moved(cpuCapacity, t, {}, {victim}, t'')
  {
    hide Leaves;
  }

  lemma GaveBlock(cpuCapacity: nat, t: Tiers, block: Block, t': Tiers)
    requires Lost(t.ranks, {block}, t'.ranks) && t'.last == t.last && t'.cpu == t.cpu && t'.deferred == t.deferred
    ensures Moved(cpuCapacity, t, {block}, {}, t')
  {
    assert t.cpu + {} == t.cpu;
  }

  lemma AskedAbsent(cpuCapacity: nat, t: Tiers, block: Block, evicted: set<Block>, t': Tiers)
    requires Moved(cpuCapacity, t, {}, evicted, t') && block !in t.ranks
    ensures Moved(cpuCapacity, t, {block}, evicted, t')
  {
  }

  lemma NothingMoved(cpuCapacity: nat, t: Tiers, hashes: seq<Block>, full: nat)
    requires full <= |hashes|
    ensures Moved(cpuCapacity, t, Members(hashes[full..full]), {}, t)
  {
    Unmoved(cpuCapacity, t);
    assert Members(hashes[full..full]) == {};
  }

  lemma MovedBlock(cpuCapacity: nat, t: Tiers, hashes: seq<Block>, full: nat, i: nat, evicted: set<Block>, t': Tiers,
      t'': Tiers)
    requires full <= i < |hashes| && Moved(cpuCapacity, t, Members(hashes[full..i]), evicted, t')
    requires Moved(cpuCapacity, t', {hashes[i]}, {}, t'')
    ensures Moved(cpuCapacity, t, Members(hashes[full..i + 1]), evicted, t'')
  {
    hide Moved, Members;
    MovedOn(cpuCapacity, t, Members(hashes[full..i]), evicted, t', {hashes[i]}, {}, t'');
    MembersMore(hashes[full..], i - full);
    assert hashes[full..][..i - full] == hashes[full..i] && hashes[full..][..i - full + 1] == hashes[full..i + 1];
    assert evicted + {} == evicted;
  }

  lemma MovedKeys(cpuCapacity: nat, t: Tiers, asked: set<Block>, evicted: set<Block>, t': Tiers)
    requires Moved(cpuCapacity, t, asked, evicted, t')
    ensures evicted <= t.ranks.Keys && t'.ranks.Keys == t.ranks.Keys - evicted - asked
    ensures |t.ranks| == |t.ranks.Keys| && |t'.ranks| == |t'.ranks.Keys|
  {
  }

  lemma OnlyCached(cpuCapacity: nat, t: Tiers, asked: set<Block>, evicted: set<Block>, t': Tiers)
    requires Moved(cpuCapacity, t, asked, evicted, t')
    ensures evicted <= t.ranks.Keys
  {
  }

  lemma MovedMeans(cpuCapacity: nat, t: Tiers, asked: set<Block>, evicted: set<Block>, t': Tiers)
    requires Moved(cpuCapacity, t, asked, evicted, t')
    ensures evicted <= t.ranks.Keys && t'.ranks.Keys == t.ranks.Keys - evicted - asked
    ensures LeftFirst(t.ranks, evicted, t.ranks.Keys - evicted - asked) && Joined(cpuCapacity, t, evicted, t')
    ensures t'.last == t.last - evicted && |t.ranks| == |t.ranks.Keys| && |t'.ranks| == |t'.ranks.Keys|
  {
    hide LeftFirst, Joined;
    MovedKeys(cpuCapacity, t, asked, evicted, t');
    LostIs(t.last, evicted, t'.last);
    assert t'.ranks.Keys == t.ranks.Keys - evicted - asked;
  }

  lemma LostIs<V>(m: map<Block, V>, gone: set<Block>, m': map<Block, V>)
    requires Lost(m, gone, m')
    ensures m' == m - gone
  {
  }

  lemma JoinedSame(cpuCapacity: nat, t: Tiers, evicted: set<Block>, t': Tiers, t'': Tiers)
    requires Joined(cpuCapacity, t, evicted, t') && t''.cpu == t'.cpu && t''.deferred == t'.deferred
    ensures Joined(cpuCapacity, t, evicted, t'')
  {
  }

  lemma BackInCache(cache: set<Block>, evicted: set<Block>, asked: set<Block>, cache': set<Block>)
    requires cache' == cache - evicted - asked
    ensures cache' + asked == cache - evicted + asked && (asked !! cache ==> cache' == cache - evicted)
  {
  }

  lemma MembersCut(s: seq<Block>, k: nat)
    requires k <= |s|
    ensures Members(s[..k]) + Members(s[k..]) == Members(s)
  {
    assert s == s[..k] + s[k..];
  }

  lemma EvictedCount(capacity: nat, cache: set<Block>, evicted: set<Block>, cache': set<Block>, slots: nat)
    requires evicted <= cache && cache' == cache - evicted && |cache'| + slots <= capacity
    requires evicted != {} ==> |cache'| + slots == capacity
    ensures |evicted| == Max(0, |cache| + slots - capacity)
  {
    assert cache == cache' + evicted;
  }

  // ---------- the hits of a prompt ----------

  /** The counters after depth blocks. */
  ghost predicate CountingHits(capacity: nat, start: map<Block, Rank>, ready: set<Block>, hashes: seq<Block>,
      depth: nat, strict: nat, sawGap: bool, hit: nat, effective: nat)
    requires depth <= |hashes| && strict <= |hashes|
  {
    && effective == Effective(capacity, start, ready, hashes, Min(depth, strict))
    && hit == |Taken(capacity, start, hashes, effective)| && (depth <= strict ==> (sawGap <==> effective < depth))
  }

  lemma PromptStarts(capacity: nat, cpuCapacity: nat, start: Tiers, ready: set<Block>, hashes: seq<Block>, strict: nat)
    requires strict <= |hashes|
    ensures Moved(cpuCapacity, start, Members(hashes[..0]), {}, start)
    ensures Counting(capacity, start.ranks, hashes, 0, {})
    ensures CountingHits(capacity, start.ranks, ready, hashes, 0, strict, false, 0, 0)
  {
    Unmoved(cpuCapacity, start);
    assert Members(hashes[..0]) == {};
  }

  lemma AllHits(capacity: nat, start: map<Block, Rank>, ready: set<Block>, hashes: seq<Block>, strict: nat,
      sawGap: bool, hit: nat, effective: nat)
    requires strict <= |hashes|
    requires CountingHits(capacity, start, ready, hashes, |hashes|, strict, sawGap, hit, effective)
    ensures effective == Effective(capacity, start, ready, hashes, strict)
    ensures hit == |Taken(capacity, start, hashes, effective)|
  {
  }

  lemma OneMoreHit(capacity: nat, start: map<Block, Rank>, ready: set<Block>, hashes: seq<Block>, depth: nat,
      strict: nat, sawGap: bool, hit: nat, effective: nat, sawGap': bool, hit': nat, effective': nat)
    requires depth < |hashes| && strict <= |hashes|
    requires CountingHits(capacity, start, ready, hashes, depth, strict, sawGap, hit, effective)
    requires var isHit := IsHit(capacity, start, hashes, depth);
             var counts := depth < strict && !sawGap && (isHit || hashes[depth] in ready);
             && hit' == hit + (if counts && isHit then 1 else 0) && effective' == effective + (if counts then 1 else 0)
             && sawGap' == (sawGap || (depth < strict && !counts))
    ensures CountingHits(capacity, start, ready, hashes, depth + 1, strict, sawGap', hit', effective')
  {
    hide IsHit, Taken;
    TakenCount(capacity, start, hashes, depth);
  }

  /** During a prompt the cache and the request fill the capacity once something was evicted. */
  lemma MovedEvicts(capacity: nat, cpuCapacity: nat, t: Tiers, asked: set<Block>, evicted: set<Block>, t': Tiers,
      active: nat)
    requires Moved(cpuCapacity, t, asked, evicted, t')
    requires |t'.ranks| + active <= capacity && (evicted != {} ==> |t'.ranks| + active == capacity)
    ensures Evicting(capacity, t.ranks, asked, active, t'.ranks.Keys, evicted)
  {
  }

  lemma IsHitNow(capacity: nat, cpuCapacity: nat, start: Tiers, hashes: seq<Block>, depth: nat, evicted: set<Block>,
      now: Tiers)
    requires depth < |hashes| && Ranked(start.ranks)
    requires Moved(cpuCapacity, start, Members(hashes[..depth]), evicted, now)
    requires |now.ranks| + depth <= capacity && (evicted != {} ==> |now.ranks| + depth == capacity)
    requires Counting(capacity, start.ranks, hashes, depth, evicted)
    ensures Evicting(capacity, start.ranks, Members(hashes[..depth]), depth, now.ranks.Keys, evicted)
    ensures hashes[depth] in now.ranks <==> IsHit(capacity, start.ranks, hashes, depth)
  {
    hide Moved, Counting, Members, Evicting, IsHit, Ranked;
    MovedEvicts(capacity, cpuCapacity, start, Members(hashes[..depth]), evicted, now, depth);
    StillThere(capacity, start.ranks, hashes, depth, now.ranks.Keys, evicted);
  }

  /** One block of the prompt is asked for. */
  lemma BlockTaken(capacity: nat, cpuCapacity: nat, start: Tiers, hashes: seq<Block>, depth: nat, evicted: set<Block>,
      before: Tiers, more: set<Block>, after: Tiers)
    requires depth < |hashes| && Ranked(start.ranks)
    requires Moved(cpuCapacity, start, Members(hashes[..depth]), evicted, before)
    requires Evicting(capacity, start.ranks, Members(hashes[..depth]), depth, before.ranks.Keys, evicted)
    requires Counting(capacity, start.ranks, hashes, depth, evicted)
    requires Moved(cpuCapacity, before, {hashes[depth]}, more, after) && (hashes[depth] in before.ranks ==> more == {})
    ensures Moved(cpuCapacity, start, Members(hashes[..depth + 1]), evicted + more, after)
    ensures Counting(capacity, start.ranks, hashes, depth + 1, evicted + more)
  {
    hide Moved, Counting, Members, Evicting, Ranked;
    OnlyCached(cpuCapacity, before, {hashes[depth]}, more, after);
    CountsOn(capacity, start.ranks, hashes, depth, before.ranks.Keys, evicted, more);
    MembersMore(hashes, depth);
    MovedOn(cpuCapacity, start, Members(hashes[..depth]), evicted, before, {hashes[depth]}, more, after);
  }

  // ---------- last uses ----------

  /** When each block was last used, once the first n blocks of a request are written down. */
  function Used(last: map<Block, Use>, hashes: seq<Block>, n: nat, tick: nat): map<Block, Use>
    requires n <= |hashes|
  {
    if n == 0 then last else Used(last, hashes, n - 1, tick)[hashes[n - 1] := Use(tick, n - 1)]
  }

  lemma {:induction false} UsedKeys(last: map<Block, Use>, hashes: seq<Block>, n: nat, tick: nat)
    requires n <= |hashes|
    ensures Used(last, hashes, n, tick).Keys == last.Keys + Members(hashes[..n])
  {
    if n > 0 {
      UsedKeys(last, hashes, n - 1, tick);
      assert hashes[..n] == hashes[..n - 1] + [hashes[n - 1]];
    }
  }

  /** Uses are told apart by tick and depth, so no two blocks ever tie. */
  ghost predicate NoTies(last: map<Block, Use>, tick: int) {
    && (forall a, b | a in last && b in last && a != b :: last[a] != last[b])
    && (forall b | b in last :: last[b].tick < tick)
  }

  ghost predicate UsedWithin(u: map<Block, Use>, tick: int, n: int) {
    && (forall a, b | a in u && b in u && a != b :: u[a] != u[b])
    && (forall b | b in u :: u[b].tick < tick || (u[b].tick == tick && u[b].depth < n))
  }

  lemma {:induction false} UsedNoTies(last: map<Block, Use>, hashes: seq<Block>, n: nat, tick: nat)
    requires n <= |hashes| && NoTies(last, tick)
    ensures UsedWithin(Used(last, hashes, n, tick), tick, n)
  {
    if n > 0 {
      UsedNoTies(last, hashes, n - 1, tick);
      OneMoreUse(Used(last, hashes, n - 1, tick), hashes[n - 1], tick, n - 1);
    }
  }

  lemma OneMoreUse(u: map<Block, Use>, b: Block, tick: nat, n: nat)
    requires UsedWithin(u, tick, n)
    ensures UsedWithin(u[b := Use(tick, n)], tick, n + 1)
  {
  }

  lemma StillNoTies(last: map<Block, Use>, gone: set<Block>, hashes: seq<Block>, tick: nat)
    requires NoTies(last, tick)
    ensures NoTies(Used(last - gone, hashes, |hashes|, tick), tick + 1)
  {
    UsedNoTies(last - gone, hashes, |hashes|, tick);
  }

  /** Of two blocks, the one that plain recency keeps longer was used later, or nearer the front of the same
      request: hashes never decide. */
  lemma OldestLeaves(last: map<Block, Use>, tick: int, a: Block, b: Block)
    requires NoTies(last, tick) && a in last && b in last && a != b
    ensures Leaves(Rank(0, last[a].tick, last[a].depth, a), Rank(0, last[b].tick, last[b].depth, b))
            <==> last[a].tick < last[b].tick || (last[a].tick == last[b].tick && last[a].depth > last[b].depth)
  {
    assert last[a] != last[b];
  }

  // ---------- how often blocks were used ----------

  function UsesOf(f: map<Block, nat>, b: Block): nat {
    if b in f then f[b] else 0
  }

  /** One more use for each block of the sequence. */
  function Counted(f: map<Block, nat>, s: seq<Block>): map<Block, nat> {
    if s == [] then f else
      var before, b := Counted(f, s[..|s| - 1]), s[|s| - 1];
      before[b := UsesOf(before, b) + 1]
  }

  lemma CountedNone(f: map<Block, nat>, s: seq<Block>)
    ensures Counted(f, s[..0]) == f
  {
  }

  lemma CountedOne(f: map<Block, nat>, b: Block)
    ensures Counted(f, [b]) == f[b := UsesOf(f, b) + 1]
  {
    assert [b][..0] == [];
  }

  lemma CountedMore(f: map<Block, nat>, s: seq<Block>, k: nat)
    requires k < |s|
    ensures Counted(Counted(f, s[..k]), [s[k]]) == Counted(f, s[..k + 1])
  {
    CountedConcat(f, s[..k], [s[k]]);
    assert s[..k + 1] == s[..k] + [s[k]];
  }

  lemma {:induction false} CountedConcat(f: map<Block, nat>, a: seq<Block>, b: seq<Block>)
    ensures Counted(Counted(f, a), b) == Counted(f, a + b)
    decreases |b|
  {
    if b == [] {
      assert a + b == a;
    } else {
      var n := |b| - 1;
      assert (a + b)[..|a + b| - 1] == a + b[..n];
      CountedConcat(f, a, b[..n]);
    }
  }

  /** A block's count grows by its occurrences. */
  lemma {:induction false} CountedIs(f: map<Block, nat>, s: seq<Block>, b: Block)
    ensures UsesOf(Counted(f, s), b) == UsesOf(f, b) + multiset(s)[b]
  {
    if s != [] {
      CountedIs(f, s[..|s| - 1], b);
      assert s == s[..|s| - 1] + [s[|s| - 1]];
    }
  }

  /** Ranks come from the uses: how often, when that counts, then when and how deep. */
  ghost predicate RankedBy(byFrequency: bool, f: map<Block, nat>, t: Tiers) {
    forall b | b in t.ranks :: b in t.last &&
      t.ranks[b] == Rank(if byFrequency then UsesOf(f, b) else 0, t.last[b].tick, t.last[b].depth, b)
  }

  // ---------- the CPU tier ----------

  /** Least recently used first; waiting are blocks for which the step found no room, arrived those it brought, loaded
      tells whether it also read. */
  datatype Cpu = Cpu(order: seq<Block>, waiting: seq<Block>, arrived: set<Block>, loaded: bool)

  /** What happens to the CPU tier: a block is read, one arrives from the cache, a step ends. */
  datatype Move = Load(block: Block) | Arrive(block: Block) | StepEnd

  /** How many blocks did not arrive in this step. */
  function OldCount(order: seq<Block>, arrived: set<Block>): nat {
    if order == [] then 0 else OldCount(order[1..], arrived) + if order[0] in arrived then 0 else 1
  }

  /** Without the first m of the blocks that did not arrive in this step. */
  function DropOld(order: seq<Block>, arrived: set<Block>, m: nat): seq<Block> {
    if order == [] || m == 0 then order
    else if order[0] in arrived then [order[0]] + DropOld(order[1..], arrived, m)
    else DropOld(order[1..], arrived, m - 1)
  }

  /** A block that arrives becomes the most recent if it was there, takes a free place, or waits. */
  function Arrived(capacity: nat, c: Cpu, b: Block): Cpu {
    if capacity == 0 then c
    else if b in c.order then c.(order := Remove(c.order, b) + [b])
    else if b in c.waiting then c
    else if |c.order| < capacity then c.(order := c.order + [b], arrived := c.arrived + {b})
    else c.(waiting := c.waiting + [b])
  }

  /** At the end of a step that did not read, the blocks that wait replace the oldest that did not arrive in it. */
  function StepEnded(c: Cpu): Cpu {
    var m := Min(|c.waiting|, OldCount(c.order, c.arrived));
    Cpu(if c.loaded then c.order else DropOld(c.order, c.arrived, m) + c.waiting[..m], [], {}, false)
  }

  function Done(capacity: nat, c: Cpu, m: Move): Cpu {
    match m
    case Load(b) => c.(order := Remove(c.order, b) + [b], loaded := true)
    case Arrive(b) => Arrived(capacity, c, b)
    case StepEnd => StepEnded(c)
  }

  /** The tier after a history that began with an empty one. */
  function Play(capacity: nat, log: seq<Move>): Cpu {
    if log == [] then Cpu([], [], {}, false) else Done(capacity, Play(capacity, log[..|log| - 1]), log[|log| - 1])
  }

  lemma PlayMore(capacity: nat, log: seq<Move>, m: Move)
    ensures Play(capacity, log + [m]) == Done(capacity, Play(capacity, log), m)
  {
    assert (log + [m])[..|log|] == log;
  }

  function LoadsOf(part: seq<Move>): seq<Block> {
    if part == [] then [] else
      var m := part[|part| - 1];
      LoadsOf(part[..|part| - 1]) + if m.Load? then [m.block] else []
  }

  function ArrivalsOf(part: seq<Move>): set<Block> {
    if part == [] then {} else
      var m := part[|part| - 1];
      ArrivalsOf(part[..|part| - 1]) + if m.Arrive? then {m.block} else {}
  }

  /** Within a step, a history grew by these loads in order and these arrivals. */
  ghost predicate Went(log: seq<Move>, loads: seq<Block>, arrivals: set<Block>, log': seq<Move>) {
    && |log| <= |log'| && log'[..|log|] == log
    && var part := log'[|log|..]; StepEnd !in part && LoadsOf(part) == loads && ArrivalsOf(part) == arrivals
  }

  /** A history grew by at most one arrival. */
  ghost predicate OneArrives(log: seq<Move>, arrivals: set<Block>, log': seq<Move>) {
    if |log'| == |log| then log' == log && arrivals == {}
    else |log'| == |log| + 1 && log'[..|log|] == log && log'[|log|].Arrive? && arrivals == {log'[|log|].block}
  }

  lemma ArrivalWent(log: seq<Move>, arrivals: set<Block>, log': seq<Move>)
    requires OneArrives(log, arrivals, log')
    ensures Went(log, [], arrivals, log')
  {
    if |log'| == |log| {
      WentNowhere(log);
    } else {
      WentOne(log, log'[|log|]);
      assert log' == log + [log'[|log|]];
    }
  }

  lemma WentNowhere(log: seq<Move>)
    ensures Went(log, [], {}, log)
  {
  }

  lemma WentOne(log: seq<Move>, m: Move)
    requires !m.StepEnd?
    ensures Went(log, if m.Load? then [m.block] else [], if m.Arrive? then {m.block} else {}, log + [m])
  {
    assert (log + [m])[|log|..] == [m] && [m][..0] == [];
  }

  lemma WentOn(log: seq<Move>, loads: seq<Block>, arrivals: set<Block>, log': seq<Move>, loads': seq<Block>,
      arrivals': set<Block>, log'': seq<Move>)
    requires Went(log, loads, arrivals, log') && Went(log', loads', arrivals', log'')
    ensures Went(log, loads + loads', arrivals + arrivals', log'')
  {
    var p, q := log'[|log|..], log''[|log'|..];
    assert log''[|log|..] == p + q;
    PartsConcat(p, q);
  }

  lemma {:induction false} PartsConcat(p: seq<Move>, q: seq<Move>)
    ensures LoadsOf(p + q) == LoadsOf(p) + LoadsOf(q) && ArrivalsOf(p + q) == ArrivalsOf(p) + ArrivalsOf(q)
    decreases |q|
  {
    if q == [] {
      assert p + q == p;
    } else {
      var n := |q| - 1;
      assert (p + q)[..|p + q| - 1] == p + q[..n];
      PartsConcat(p, q[..n]);
    }
  }

  lemma {:induction false} DropFirstOld(order: seq<Block>, arrived: set<Block>, k: nat)
    requires Distinct(order) && k < |order| && order[k] !in arrived && forall i | 0 <= i < k :: order[i] in arrived
    ensures Remove(order, order[k]) == DropOld(order, arrived, 1)
  {
    assert order == [order[0]] + order[1..];
    assert forall i | 0 <= i < |order[1..]| :: order[1..][i] == order[i + 1];
    if k > 0 {
      DropFirstOld(order[1..], arrived, k - 1);
    } else {
      assert order[0] !in order[1..];
    }
  }

  lemma {:induction false} DropOneMore(order: seq<Block>, arrived: set<Block>, m: nat)
    ensures DropOld(DropOld(order, arrived, m), arrived, 1) == DropOld(order, arrived, m + 1)
    ensures OldCount(DropOld(order, arrived, m), arrived) ==
              if m <= OldCount(order, arrived) then OldCount(order, arrived) - m else 0
  {
    if order != [] && m > 0 {
      if order[0] in arrived {
        DropOneMore(order[1..], arrived, m);
        var rest := DropOld(order[1..], arrived, m);
        assert ([order[0]] + rest)[1..] == rest;
      } else {
        DropOneMore(order[1..], arrived, m - 1);
      }
    }
  }

  lemma {:induction false} DropAppended(a: seq<Block>, b: seq<Block>, arrived: set<Block>)
    requires forall x | x in b :: x in arrived
    ensures OldCount(a + b, arrived) == OldCount(a, arrived)
    ensures OldCount(a, arrived) > 0 ==> DropOld(a + b, arrived, 1) == DropOld(a, arrived, 1) + b
  {
    if a == [] {
      assert a + b == b;
      NoneOld(b, arrived);
    } else {
      assert (a + b)[1..] == a[1..] + b;
      DropAppended(a[1..], b, arrived);
    }
  }

  lemma {:induction false} NoneOld(s: seq<Block>, arrived: set<Block>)
    ensures OldCount(s, arrived) == 0 <==> forall x | x in s :: x in arrived
  {
    if s != [] {
      assert s == [s[0]] + s[1..];
      NoneOld(s[1..], arrived);
    }
  }

  lemma {:induction false} DropSame(s: seq<Block>, arrived: set<Block>, more: set<Block>, m: nat)
    requires forall x | x in s :: x !in more
    ensures DropOld(s, arrived + more, m) == DropOld(s, arrived, m)
    ensures OldCount(s, arrived + more) == OldCount(s, arrived)
  {
    if s != [] {
      assert s == [s[0]] + s[1..];
      DropSame(s[1..], arrived, more, m);
      if m > 0 {
        DropSame(s[1..], arrived, more, m - 1);
      }
    }
  }

  lemma {:induction false} DropMembers(s: seq<Block>, arrived: set<Block>, m: nat)
    ensures forall x | x in DropOld(s, arrived, m) :: x in s
  {
    if s != [] && m > 0 {
      assert s == [s[0]] + s[1..];
      DropMembers(s[1..], arrived, m);
      DropMembers(s[1..], arrived, m - 1);
    }
  }

  /** Among what is left and what has come in, only what is left can be old. */
  lemma OldLeft(order: seq<Block>, arrived: set<Block>, come: seq<Block>, m: nat)
    requires forall x | x in come :: x !in order
    ensures var kept, grown := DropOld(order, arrived, m), arrived + Members(come);
            && OldCount(kept + come, grown) == OldCount(kept, arrived)
            && OldCount(kept, arrived) == (if m <= OldCount(order, arrived) then OldCount(order, arrived) - m else 0)
            && (OldCount(kept, arrived) > 0 ==> DropOld(kept + come, grown, 1) == DropOld(order, arrived, m + 1) + come)
  {
    hide OldCount, DropOld;
    var kept, grown := DropOld(order, arrived, m), arrived + Members(come);
    DropOneMore(order, arrived, m);
    DropMembers(order, arrived, m);
    DropSame(kept, arrived, Members(come), 1);
    DropAppended(kept, come, grown);
  }

  /** One waiting block takes the place of the oldest that did not arrive in this step. */
  lemma ReplaceOne(order: seq<Block>, arrived: set<Block>, waiting: seq<Block>, m: nat, now: seq<Block>, k: nat)
    requires m < |waiting| && (forall x | x in waiting :: x !in order) && Distinct(now)
    requires now == DropOld(order, arrived, m) + waiting[..m] && m <= OldCount(order, arrived)
    requires k <= |now| && (forall i | 0 <= i < k :: now[i] in arrived + Members(waiting[..m]))
             && (k < |now| ==> now[k] !in arrived + Members(waiting[..m]))
    ensures k < |now| <==> m < OldCount(order, arrived)
    ensures k < |now| ==> Remove(now, now[k]) + [waiting[m]] == DropOld(order, arrived, m + 1) + waiting[..m + 1]
    ensures arrived + Members(waiting[..m]) + {waiting[m]} == arrived + Members(waiting[..m + 1])
  {
    hide OldCount, DropOld, Remove, Distinct;
    var grown := arrived + Members(waiting[..m]);
    OldLeft(order, arrived, waiting[..m], m);
    NoneOld(now, grown);
    assert k < |now| ==> now[k] in now;
    assert waiting[..m + 1] == waiting[..m] + [waiting[m]];
    if k < |now| {
      DropFirstOld(now, grown, k);
    }
  }

  /** What arrived in this step is not dropped. */
  lemma {:induction false} OnlyOldDropped(s: seq<Block>, arrived: set<Block>, m: int)
    requires m >= 0
    ensures forall x | x in s && x in arrived :: x in DropOld(s, arrived, m)
    ensures forall x | x in DropOld(s, arrived, m) :: x in s
  {
    if s != [] && m > 0 {
      assert s == [s[0]] + s[1..];
      OnlyOldDropped(s[1..], arrived, m);
      OnlyOldDropped(s[1..], arrived, m - 1);
    }
  }

  lemma NothingDropped(order: seq<Block>, arrived: set<Block>)
    ensures DropOld(order, arrived, 0) == order
  {
  }

  /** When all blocks arrived in this step, none is the oldest that did not. */
  lemma NoneToReplace(order: seq<Block>, arrived: set<Block>, waiting: seq<Block>, m: nat, now: seq<Block>, k: nat)
    requires m <= |waiting| && (forall x | x in waiting :: x !in order) && m == OldCount(order, arrived)
    requires now == DropOld(order, arrived, m) + waiting[..m]
    requires k <= |now| && (k < |now| ==> now[k] !in arrived + Members(waiting[..m]))
    ensures k == |now|
  {
    var kept, grown := DropOld(order, arrived, m), arrived + Members(waiting[..m]);
    DropOneMore(order, arrived, m);
    DropMembers(order, arrived, m);
    DropSame(kept, arrived, Members(waiting[..m]), 1);
    DropAppended(kept, waiting[..m], grown);
    NoneOld(now, grown);
  }

  // ---------- the blocks a prompt reads ----------

  /** The first n blocks' reads from the CPU tier, in order. */
  function CpuHits(capacity: nat, start: map<Block, Rank>, ready: set<Block>, hashes: seq<Block>, n: nat): seq<Block>
    requires n <= |hashes|
  {
    if n == 0 then [] else
      CpuHits(capacity, start, ready, hashes, n - 1) +
        if !IsHit(capacity, start, hashes, n - 1) && hashes[n - 1] in ready then [hashes[n - 1]] else []
  }

  lemma NextCpuHit(capacity: nat, start: map<Block, Rank>, ready: set<Block>, hashes: seq<Block>, k: nat)
    requires k < |hashes|
    ensures CpuHits(capacity, start, ready, hashes, k + 1) == CpuHits(capacity, start, ready, hashes, k) +
              if !IsHit(capacity, start, hashes, k) && hashes[k] in ready then [hashes[k]] else []
  {
  }

  lemma NoCpuHits(capacity: nat, start: map<Block, Rank>, ready: set<Block>, hashes: seq<Block>, log: seq<Move>)
    ensures Went(log, CpuHits(capacity, start, ready, hashes, 0), {}, log)
  {
    WentNowhere(log);
  }
}
