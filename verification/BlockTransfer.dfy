/** KV block transfers between the layer-major GPU cache and the block-major CPU pool, pipelined through
    two staging slots while the device works through its stream in order at its own pace. */
module BlockTransfer {
  import opened IntFacts
  import opened Sequences

  const NUM_ATTENTION_LAYERS := 10
  const KV_PLANES := 2
  const STAGING_BLOCKS: nat := 512
  const STAGING_BUFFER_COUNT: nat := 2

  /** All planes of one block, layer by layer. */
  type Record<T> = seq<seq<T>>

  /** Layer-major cache: layer, plane, block. */
  type GpuCache<T> = seq<seq<seq<T>>>

  ghost predicate IsRecord<T>(r: Record<T>) {
    |r| == NUM_ATTENTION_LAYERS && forall l | 0 <= l < |r| :: |r[l]| == KV_PLANES
  }

  ghost predicate IsCache<T>(g: GpuCache<T>, blocks: nat) {
    && |g| == NUM_ATTENTION_LAYERS && (forall l | 0 <= l < |g| :: |g[l]| == KV_PLANES)
    && (forall l, p | 0 <= l < |g| && 0 <= p < |g[l]| :: |g[l][p]| == blocks)
  }

  // ---------- layouts ----------

  /** Gathers block b out of every layer and plane. */
  function PackBlock<T>(g: GpuCache<T>, blocks: nat, b: nat): (r: Record<T>)
    requires IsCache(g, blocks) && b < blocks
    ensures IsRecord(r)
  {
    seq(NUM_ATTENTION_LAYERS, l requires 0 <= l < |g| =>
      seq(KV_PLANES, p requires 0 <= p < KV_PLANES && 0 <= l < |g| => g[l][p][b]))
  }

  /** Writes a record back into block b of every layer and plane. */
  function ScatterBlock<T>(g: GpuCache<T>, blocks: nat, b: nat, r: Record<T>): (g': GpuCache<T>)
    requires IsCache(g, blocks) && b < blocks && IsRecord(r)
    ensures IsCache(g', blocks)
  {
    seq(NUM_ATTENTION_LAYERS, l requires 0 <= l < |g| =>
      seq(KV_PLANES, p requires 0 <= p < KV_PLANES && 0 <= l < |g| => g[l][p][b := r[l][p]]))
  }

  lemma PackAfterScatter<T>(g: GpuCache<T>, blocks: nat, b: nat, r: Record<T>, c: nat)
    requires IsCache(g, blocks) && b < blocks && c < blocks && IsRecord(r)
    ensures PackBlock(ScatterBlock(g, blocks, b, r), blocks, c) == if c == b then r else PackBlock(g, blocks, c)
  {
    var g' := ScatterBlock(g, blocks, b, r);
    var right := if c == b then r else PackBlock(g, blocks, c);
    forall l | 0 <= l < NUM_ATTENTION_LAYERS
      ensures PackBlock(g', blocks, c)[l] == right[l]
    {
      assert |right[l]| == KV_PLANES;
      forall p | 0 <= p < KV_PLANES
        ensures PackBlock(g', blocks, c)[l][p] == right[l][p]
      {
      }
    }
  }

  // ---------- atomic pointwise copies ----------

  ghost predicate InRange(ids: seq<nat>, limit: nat) {
    forall i | 0 <= i < |ids| :: ids[i] < limit
  }

  ghost predicate IsPool<T>(pool: seq<Record<T>>) {
    forall i | 0 <= i < |pool| :: IsRecord(pool[i])
  }

  /** The pool after the first n pairs of the mapping have been copied out. */
  ghost function Stored<T>(pool: seq<Record<T>>, g: GpuCache<T>, blocks: nat, source: seq<nat>, dest: seq<nat>,
      n: nat): (p: seq<Record<T>>)
    requires IsCache(g, blocks) && InRange(source, blocks) && InRange(dest, |pool|) && n <= |source| == |dest|
    ensures |p| == |pool|
    ensures IsPool(pool) ==> IsPool(p)
  {
    if n == 0 then pool else
      Stored(pool, g, blocks, source, dest, n - 1)[dest[n - 1] := PackBlock(g, blocks, source[n - 1])]
  }

  /** The cache after the first n pairs of the mapping have been copied in. */
  ghost function Loaded<T>(g: GpuCache<T>, blocks: nat, pool: seq<Record<T>>, source: seq<nat>, dest: seq<nat>,
      n: nat): (g': GpuCache<T>)
    requires IsCache(g, blocks) && IsPool(pool) && InRange(source, |pool|) && InRange(dest, blocks)
            && n <= |source| == |dest|
    ensures IsCache(g', blocks)
  {
    if n == 0 then g else
      ScatterBlock(Loaded(g, blocks, pool, source, dest, n - 1), blocks, dest[n - 1], pool[source[n - 1]])
  }

  /** Every destination holds its source and every other CPU block is untouched. */
  lemma {:induction false} StoredPointwise<T>(pool: seq<Record<T>>, g: GpuCache<T>, blocks: nat, source: seq<nat>,
      dest: seq<nat>, n: nat, k: nat)
    requires IsCache(g, blocks) && InRange(source, blocks) && InRange(dest, |pool|) && n <= |source| == |dest|
    requires Distinct(dest) && k < |pool|
    ensures forall i | 0 <= i < n && dest[i] == k ::
            Stored(pool, g, blocks, source, dest, n)[k] == PackBlock(g, blocks, source[i])
    ensures k !in dest[..n] ==> Stored(pool, g, blocks, source, dest, n)[k] == pool[k]
  {
    if n > 0 {
      StoredPointwise(pool, g, blocks, source, dest, n - 1, k);
      assert dest[..n] == dest[..n - 1] + [dest[n - 1]];
    }
  }

  /** Every destination holds its source and every other GPU block is untouched. */
  lemma {:induction false} LoadedPointwise<T>(g: GpuCache<T>, blocks: nat, pool: seq<Record<T>>, source: seq<nat>,
      dest: seq<nat>, n: nat, k: nat)
    requires IsCache(g, blocks) && IsPool(pool) && InRange(source, |pool|) && InRange(dest, blocks)
            && n <= |source| == |dest|
    requires Distinct(dest) && k < blocks
    ensures forall i | 0 <= i < n && dest[i] == k ::
            PackBlock(Loaded(g, blocks, pool, source, dest, n), blocks, k) == pool[source[i]]
    ensures k !in dest[..n]
            ==> PackBlock(Loaded(g, blocks, pool, source, dest, n), blocks, k) == PackBlock(g, blocks, k)
  {
    hide PackBlock, ScatterBlock;
    if n > 0 {
      LoadedPointwise(g, blocks, pool, source, dest, n - 1, k);
      PackAfterScatter(Loaded(g, blocks, pool, source, dest, n - 1), blocks, dest[n - 1], pool[source[n - 1]], k);
      assert dest[..n] == dest[..n - 1] + [dest[n - 1]];
    }
  }

  /** Out and back by the inverse mapping restores every block, whatever the GPU held in between. */
  lemma RoundTrip<T>(pool: seq<Record<T>>, g: GpuCache<T>, later: GpuCache<T>, blocks: nat, source: seq<nat>,
      dest: seq<nat>, k: nat)
    requires IsCache(g, blocks) && IsCache(later, blocks) && IsPool(pool)
    requires InRange(source, blocks) && InRange(dest, |pool|) && |source| == |dest| && Distinct(source)
            && Distinct(dest)
    requires k < |source|
    ensures var pool' := Stored(pool, g, blocks, source, dest, |source|);
            PackBlock(Loaded(later, blocks, pool', dest, source, |source|), blocks, source[k]) == PackBlock(g,
                blocks, source[k])
  {
    hide PackBlock;
    StoredPointwise(pool, g, blocks, source, dest, |source|, dest[k]);
    LoadedPointwise(later, blocks, Stored(pool, g, blocks, source, dest, |source|), dest, source, |source|, source[k]);
  }

  /** With every D2H before any H2D, a GPU block that is victim and target in one step is preserved in the
      pool and overwritten with the requested content. */
  lemma VictimPreserved<T>(pool: seq<Record<T>>, g: GpuCache<T>, blocks: nat,
                           outSource: seq<nat>, outDest: seq<nat>, inSource: seq<nat>, inDest: seq<nat>, i: nat, j: nat)
    requires IsCache(g, blocks) && IsPool(pool)
    requires InRange(outSource, blocks) && InRange(outDest, |pool|) && |outSource| == |outDest| && Distinct(outDest)
    requires InRange(inSource, |pool|) && InRange(inDest, blocks) && |inSource| == |inDest| && Distinct(inDest)
    requires forall a, b | 0 <= a < |outDest| && 0 <= b < |inSource| :: outDest[a] != inSource[b]
    requires i < |outSource| && j < |inSource|
    ensures var pool' := Stored(pool, g, blocks, outSource, outDest, |outSource|);
            var g' := Loaded(g, blocks, pool', inSource, inDest, |inSource|);
            pool'[outDest[i]] == PackBlock(g, blocks, outSource[i])
                && PackBlock(g', blocks, inDest[j]) == pool[inSource[j]]
  {
    hide PackBlock;
    StoredPointwise(pool, g, blocks, outSource, outDest, |outSource|, outDest[i]);
    StoredPointwise(pool, g, blocks, outSource, outDest, |outSource|, inSource[j]);
    LoadedPointwise(g, blocks, Stored(pool, g, blocks, outSource, outDest, |outSource|), inSource, inDest,
        |inSource|, inDest[j]);
  }

  /** In the opposite order the victim's old content never reaches the pool, unless the loaded block equals it. */
  lemma OppositeOrderLosesVictim<T>(pool: seq<Record<T>>, g: GpuCache<T>, blocks: nat,
                                    outSource: seq<nat>, outDest: seq<nat>, inSource: seq<nat>, inDest: seq<nat>,
                                        i: nat, j: nat)
    requires IsCache(g, blocks) && IsPool(pool)
    requires InRange(outSource, blocks) && InRange(outDest, |pool|) && |outSource| == |outDest| && Distinct(outDest)
    requires InRange(inSource, |pool|) && InRange(inDest, blocks) && |inSource| == |inDest| && Distinct(inDest)
    requires i < |outSource| && j < |inSource| && outSource[i] == inDest[j]
    ensures var g' := Loaded(g, blocks, pool, inSource, inDest, |inSource|);
            var pool' := Stored(pool, g', blocks, outSource, outDest, |outSource|);
            pool'[outDest[i]] == PackBlock(g, blocks, outSource[i]) <==> pool[inSource[j]] == PackBlock(g, blocks,
                outSource[i])
  {
    hide PackBlock;
    var g' := Loaded(g, blocks, pool, inSource, inDest, |inSource|);
    LoadedPointwise(g, blocks, pool, inSource, inDest, |inSource|, inDest[j]);
    StoredPointwise(pool, g', blocks, outSource, outDest, |outSource|, outDest[i]);
  }

  // ---------- validation ----------

  datatype MappingError =
    | NonPositiveLimit
    | SourceOutOfRange(row: nat)
    | DestinationOutOfRange(row: nat)
    | DuplicateSource(row: nat)
    | DuplicateDestination(row: nat)

  datatype Validated = Valid(source: seq<nat>, dest: seq<nat>) | Invalid(error: MappingError)

  ghost predicate MappingOk(mapping: seq<(int, int)>, sourceLimit: int, destLimit: int) {
    && (forall i | 0 <= i < |mapping| :: 0 <= mapping[i].0 < sourceLimit && 0 <= mapping[i].1 < destLimit)
    && (forall i, j | 0 <= i < j < |mapping| :: mapping[i].0 != mapping[j].0 && mapping[i].1 != mapping[j].1)
  }

  /** Accepts exactly the mappings that are in range and injective on both sides, and blames the first bad row. */
  method ValidateBlockMapping(mapping: seq<(int, int)>, sourceLimit: int, destLimit: int) returns (r: Validated)
    ensures r.Valid? <==> sourceLimit > 0 && destLimit > 0 && MappingOk(mapping, sourceLimit, destLimit)
    ensures r.Valid? ==>
      && |r.source| == |r.dest| == |mapping|
      && (forall i | 0 <= i < |mapping| :: r.source[i] == mapping[i].0 && r.dest[i] == mapping[i].1)
      && InRange(r.source, sourceLimit) && InRange(r.dest, destLimit) && Distinct(r.source) && Distinct(r.dest)
    ensures r.Invalid? && !r.error.NonPositiveLimit? ==>
      && r.error.row < |mapping| && MappingOk(mapping[..r.error.row], sourceLimit, destLimit)
      && !MappingOk(mapping[..r.error.row + 1], sourceLimit, destLimit)
  {
    if sourceLimit <= 0 || destLimit <= 0 {
      return Invalid(NonPositiveLimit);
    }
    var sources: set<int>, dests: set<int> := {}, {};
    var source: seq<nat>, dest: seq<nat> := [], [];
    for row := 0 to |mapping|
      invariant |source| == |dest| == row
      invariant forall i | 0 <= i < row ::
                  source[i] == mapping[i].0 < sourceLimit && dest[i] == mapping[i].1 < destLimit
      invariant forall x :: x in sources <==> exists i :: 0 <= i < row && mapping[i].0 == x
      invariant forall x :: x in dests <==> exists i :: 0 <= i < row && mapping[i].1 == x
      invariant MappingOk(mapping[..row], sourceLimit, destLimit)
    {
      var (s, d) := mapping[row];
      assert mapping[..row + 1][row] == (s, d);
      if !(0 <= s < sourceLimit) {
        return Invalid(SourceOutOfRange(row));
      }
      if !(0 <= d < destLimit) {
        return Invalid(DestinationOutOfRange(row));
      }
      if s in sources {
        BadRow(mapping, row, sourceLimit, destLimit);
        return Invalid(DuplicateSource(row));
      }
      if d in dests {
        BadRow(mapping, row, sourceLimit, destLimit);
        return Invalid(DuplicateDestination(row));
      }
      sources, dests := sources + {s}, dests + {d};
      source, dest := source + [s], dest + [d];
    }
    assert mapping[..|mapping|] == mapping;
    r := Valid(source, dest);
  }

  lemma BadRow(mapping: seq<(int, int)>, row: nat, sourceLimit: int, destLimit: int)
    requires row < |mapping|
    requires exists i :: 0 <= i < row && (mapping[i].0 == mapping[row].0 || mapping[i].1 == mapping[row].1)
    ensures !MappingOk(mapping[..row + 1], sourceLimit, destLimit)
    ensures !MappingOk(mapping, sourceLimit, destLimit)
  {
    var i :| 0 <= i < row && (mapping[i].0 == mapping[row].0 || mapping[i].1 == mapping[row].1);
    assert mapping[..row + 1][i] == mapping[i] && mapping[..row + 1][row] == mapping[row];
  }

  // ---------- the device stream ----------

  /** Memory the device reads and writes: the cache and both staging buffers of each slot. */
  datatype Mem<T> = Mem(gpu: GpuCache<T>, gpuStaging: seq<seq<Record<T>>>, cpuStaging: seq<seq<Record<T>>>)

  datatype Op =
    | Pack(slot: nat, ids: seq<nat>)
    | CopyOut(slot: nat, count: nat)
    | CopyIn(slot: nat, count: nat)
    | Scatter(slot: nat, ids: seq<nat>)
    | EventRecord(slot: nat)

  ghost predicate IsStaging<T>(staging: seq<seq<Record<T>>>) {
    && |staging| == STAGING_BUFFER_COUNT
    && forall s | 0 <= s < |staging| :: |staging[s]| == STAGING_BLOCKS && IsPool(staging[s])
  }

  ghost predicate MemOk<T>(m: Mem<T>, blocks: nat) {
    IsCache(m.gpu, blocks) && IsStaging(m.gpuStaging) && IsStaging(m.cpuStaging)
  }

  ghost predicate OpOk(op: Op, blocks: nat) {
    && op.slot < STAGING_BUFFER_COUNT
    && (op.Pack? || op.Scatter? ==> |op.ids| <= STAGING_BLOCKS && InRange(op.ids, blocks))
    && (op.CopyOut? || op.CopyIn? ==> op.count <= STAGING_BLOCKS)
  }

  ghost predicate QueueOk(q: seq<Op>, blocks: nat) {
    forall i | 0 <= i < |q| :: OpOk(q[i], blocks)
  }

  function PackAll<T>(g: GpuCache<T>, blocks: nat, ids: seq<nat>): (r: seq<Record<T>>)
    requires IsCache(g, blocks) && InRange(ids, blocks)
    ensures |r| == |ids| && IsPool(r)
  {
    seq(|ids|, i requires 0 <= i < |ids| => PackBlock(g, blocks, ids[i]))
  }

  function ScatterAll<T>(g: GpuCache<T>, blocks: nat, ids: seq<nat>, from: seq<Record<T>>, n: nat): (g': GpuCache<T>)
    requires IsCache(g, blocks) && InRange(ids, blocks) && n <= |ids| <= |from| && IsPool(from)
    ensures IsCache(g', blocks)
  {
    if n == 0 then g else ScatterBlock(ScatterAll(g, blocks, ids, from, n - 1), blocks, ids[n - 1], from[n - 1])
  }

  /** The first entries of a buffer replaced. */
  function Overwrite<T>(buffer: seq<Record<T>>, head: seq<Record<T>>): (r: seq<Record<T>>)
    requires |head| <= |buffer| && IsPool(buffer) && IsPool(head)
    ensures |r| == |buffer| && IsPool(r) && r[..|head|] == head
  {
    head + buffer[|head|..]
  }

  function Exec<T>(m: Mem<T>, blocks: nat, op: Op): (m': Mem<T>)
    requires MemOk(m, blocks) && OpOk(op, blocks)
    ensures MemOk(m', blocks)
  {
    match op
    case Pack(s, ids) =>
      m.(gpuStaging := m.gpuStaging[s := Overwrite(m.gpuStaging[s], PackAll(m.gpu, blocks, ids))])
    case CopyOut(s, count) =>
      m.(cpuStaging := m.cpuStaging[s := Overwrite(m.cpuStaging[s], m.gpuStaging[s][..count])])
    case CopyIn(s, count) =>
      m.(gpuStaging := m.gpuStaging[s := Overwrite(m.gpuStaging[s], m.cpuStaging[s][..count])])
    case Scatter(s, ids) =>
      m.(gpu := ScatterAll(m.gpu, blocks, ids, m.gpuStaging[s], |ids|))
    case EventRecord(_) => m
  }

  /** Memory once the stream has drained. */
  ghost function Run<T>(m: Mem<T>, blocks: nat, q: seq<Op>): (m': Mem<T>)
    requires MemOk(m, blocks) && QueueOk(q, blocks)
    ensures MemOk(m', blocks)
    decreases |q|
  {
    if q == [] then m else Run(Exec(m, blocks, q[0]), blocks, q[1..])
  }

  lemma {:induction false} RunAppend<T>(m: Mem<T>, blocks: nat, q: seq<Op>, op: Op)
    requires MemOk(m, blocks) && QueueOk(q, blocks) && OpOk(op, blocks)
    ensures QueueOk(q + [op], blocks)
    ensures Run(m, blocks, q + [op]) == Exec(Run(m, blocks, q), blocks, op)
    decreases |q|
  {
    hide Exec;
    if q == [] {
      assert (q + [op])[1..] == [];
    } else {
      assert (q + [op])[1..] == q[1..] + [op];
      RunAppend(Exec(m, blocks, q[0]), blocks, q[1..], op);
    }
  }

  ghost predicate Untouched(q: seq<Op>, slot: nat) {
    forall i | 0 <= i < |q| :: q[i].slot != slot
  }

  /** Every queued operation on the slot has an event behind it. */
  ghost predicate Sealed(q: seq<Op>, slot: nat) {
    forall i {:trigger q[i..]} | 0 <= i < |q| && q[i].slot == slot :: EventRecord(slot) in q[i..]
  }

  ghost predicate Suffix(q: seq<Op>, all: seq<Op>) {
    |q| <= |all| && q == all[|all| - |q|..]
  }

  /** Waiting for a slot's event clears the slot, because the stream is in order. */
  lemma EventClearsSlot(q: seq<Op>, slot: nat)
    requires Sealed(q, slot) && EventRecord(slot) !in q
    ensures Untouched(q, slot)
  {
    forall i | 0 <= i < |q|
      ensures q[i].slot != slot
    {
      assert forall e | e in q[i..] :: e in q;
    }
  }

  lemma SuffixSealed(q: seq<Op>, all: seq<Op>, slot: nat)
    requires Suffix(q, all) && Sealed(all, slot)
    ensures Sealed(q, slot)
  {
    var d := |all| - |q|;
    forall i | 0 <= i < |q| && q[i].slot == slot
      ensures EventRecord(slot) in q[i..]
    {
      assert all[i + d..] == q[i..];
      assert all[i + d].slot == slot;
    }
  }

  lemma SealAppend(q: seq<Op>, op: Op, slot: nat)
    requires op == EventRecord(slot) || (Sealed(q, slot) && op.slot != slot)
    ensures Sealed(q + [op], slot)
  {
    forall i | 0 <= i < |q + [op]| && (q + [op])[i].slot == slot
      ensures EventRecord(slot) in (q + [op])[i..]
    {
      assert (q + [op])[i..] == q[i..] + [op];
    }
  }

  /** Host writes to a slot no queued operation touches commute with the rest of the stream. */
  lemma {:induction false} UntouchedCommutes<T>(m: Mem<T>, blocks: nat, q: seq<Op>, slot: nat, staging: seq<Record<T>>)
    requires MemOk(m, blocks) && QueueOk(q, blocks) && Untouched(q, slot) && slot < STAGING_BUFFER_COUNT
    requires |staging| == STAGING_BLOCKS && IsPool(staging)
    ensures var m' := m.(cpuStaging := m.cpuStaging[slot := staging]);
            MemOk(m', blocks) &&
            Run(m', blocks, q) == Run(m, blocks, q).(cpuStaging := Run(m, blocks, q).cpuStaging[slot := staging])
    ensures Run(m, blocks, q).cpuStaging[slot] == m.cpuStaging[slot]
    decreases |q|
  {
    if q != [] {
      UntouchedCommutes(Exec(m, blocks, q[0]), blocks, q[1..], slot, staging);
      var m' := m.(cpuStaging := m.cpuStaging[slot := staging]);
      ExecCommutes(m, blocks, q[0], slot, staging);
    }
  }

  lemma ExecCommutes<T>(m: Mem<T>, blocks: nat, op: Op, slot: nat, staging: seq<Record<T>>)
    requires MemOk(m, blocks) && OpOk(op, blocks) && op.slot != slot && slot < STAGING_BUFFER_COUNT
    requires |staging| == STAGING_BLOCKS && IsPool(staging)
    ensures var m' := m.(cpuStaging := m.cpuStaging[slot := staging]);
            MemOk(m', blocks) &&
            Exec(m', blocks, op) == Exec(m, blocks, op).(cpuStaging := Exec(m, blocks, op).cpuStaging[slot := staging])
    ensures Exec(m, blocks, op).cpuStaging[slot] == m.cpuStaging[slot]
  {
    var m' := m.(cpuStaging := m.cpuStaging[slot := staging]);
    if op.CopyOut? {
      var s, x := op.slot, Overwrite(m.cpuStaging[op.slot], m.gpuStaging[op.slot][..op.count]);
      assert m.cpuStaging[slot := staging][s := x] == m.cpuStaging[s := x][slot := staging];
    }
  }

  // ---------- chunks ----------

  lemma ChunkStaged<T>(m: Mem<T>, blocks: nat, slot: nat, ids: seq<nat>)
    requires MemOk(m, blocks) && slot < STAGING_BUFFER_COUNT && |ids| <= STAGING_BLOCKS && InRange(ids, blocks)
    ensures var m' := Exec(Exec(m, blocks, Pack(slot, ids)), blocks, CopyOut(slot, |ids|));
            m'.gpu == m.gpu && m'.cpuStaging == m.cpuStaging[slot := m'.cpuStaging[slot]]
            && m'.cpuStaging[slot][..|ids|] == PackAll(m.gpu, blocks, ids)
  {
  }

  lemma ChunkLoaded<T>(m: Mem<T>, blocks: nat, slot: nat, ids: seq<nat>)
    requires MemOk(m, blocks) && slot < STAGING_BUFFER_COUNT && |ids| <= STAGING_BLOCKS && InRange(ids, blocks)
    ensures var m' := Exec(Exec(m, blocks, CopyIn(slot, |ids|)), blocks, Scatter(slot, ids));
            m'.gpu == ScatterAll(m.gpu, blocks, ids, m.cpuStaging[slot], |ids|) && m'.cpuStaging == m.cpuStaging
  {
    var staged := Overwrite(m.gpuStaging[slot], m.cpuStaging[slot][..|ids|]);
    ScatterPrefix(m.gpu, blocks, ids, staged, m.cpuStaging[slot], |ids|);
  }

  lemma {:induction false} ScatterPrefix<T>(g: GpuCache<T>, blocks: nat, ids: seq<nat>, a: seq<Record<T>>,
      b: seq<Record<T>>, n: nat)
    requires IsCache(g, blocks) && InRange(ids, blocks) && n <= |ids| <= |a| == |b| && IsPool(a) && IsPool(b)
    requires a[..|ids|] == b[..|ids|]
    ensures ScatterAll(g, blocks, ids, a, n) == ScatterAll(g, blocks, ids, b, n)
  {
    hide ScatterBlock;
    if n > 0 {
      ScatterPrefix(g, blocks, ids, a, b, n - 1);
      assert a[..|ids|][n - 1] == b[..|ids|][n - 1];
    }
  }

  /** Scattering a staged chunk of pool records continues the pointwise copy. */
  lemma {:induction false} ScatterIsLoaded<T>(g: GpuCache<T>, blocks: nat, pool: seq<Record<T>>, source: seq<nat>,
      dest: seq<nat>,
                                              start: nat, end: nat, staged: seq<Record<T>>, n: nat)
    requires IsCache(g, blocks) && IsPool(pool) && InRange(source, |pool|) && InRange(dest, blocks)
            && |source| == |dest|
    requires start <= end <= |source| && n <= end - start <= |staged| && IsPool(staged)
    requires forall j | 0 <= j < end - start :: staged[j] == pool[source[start + j]]
    ensures InRange(dest[start..end], blocks)
    ensures ScatterAll(Loaded(g, blocks, pool, source, dest, start), blocks, dest[start..end], staged, n) ==
            Loaded(g, blocks, pool, source, dest, start + n)
  {
    hide ScatterBlock;
    if n > 0 {
      ScatterIsLoaded(g, blocks, pool, source, dest, start, end, staged, n - 1);
    }
  }

  function ChunkEnd(start: nat, total: nat): nat {
    if start + STAGING_BLOCKS < total then start + STAGING_BLOCKS else total
  }

  datatype Pending = NoPending | Pending(slot: nat, start: nat, end: nat)

  class BlockMajorCpuKVCache<T> {
    const blocks: nat
    var mem: Mem<T>
    var queue: seq<Op>
    var pool: seq<Record<T>>
    /** Slots whose CPU staging buffer holds data the host has yet to scatter. */
    ghost var unread: set<nat>

    ghost predicate Valid()
      reads this
    {
      MemOk(mem, blocks) && QueueOk(queue, blocks) && IsPool(pool)
    }

    ghost function Drained(): (m: Mem<T>)
      requires Valid()
      reads this
      ensures MemOk(m, blocks)
    {
      Run(mem, blocks, queue)
    }

    /** The device executes the next operation of its stream. */
    method ExecuteHead()
      requires Valid() && queue != []
      modifies `mem, `queue
      ensures Valid() && queue == old(queue)[1..] && Drained() == old(Drained())
    {
      mem := Exec(mem, blocks, queue[0]);
      queue := queue[1..];
    }

    /** The device advances by any number of operations while the host is between two statements. */
    method Progress()
      requires Valid()
      modifies `mem, `queue
      ensures Valid() && Suffix(queue, old(queue)) && Drained() == old(Drained())
    {
      var n :| 0 <= n <= |queue|;
      while n > 0
        invariant Valid() && 0 <= n <= |queue| && Suffix(queue, old(queue)) && Drained() == old(Drained())
      {
        ExecuteHead();
        n := n - 1;
      }
    }

    /** The host appends an operation. A CPU staging buffer is never overwritten before it has been read. */
    method Issue(op: Op)
      requires Valid() && OpOk(op, blocks)
      requires op.CopyOut? ==> op.slot !in unread
      modifies `mem, `queue, `unread
      ensures Valid() && Suffix(queue, old(queue) + [op])
      ensures Drained() == Exec(old(Drained()), blocks, op)
      ensures unread == old(unread) + if op.CopyOut? then {op.slot} else {}
    {
      RunAppend(mem, blocks, queue, op);
      queue := queue + [op];
      if op.CopyOut? {
        unread := unread + {op.slot};
      }
      Progress();
    }

    method Synchronize(slot: nat)
      requires Valid()
      modifies `mem, `queue
      ensures Valid() && Suffix(queue, old(queue)) && Drained() == old(Drained()) && EventRecord(slot) !in queue
    {
      while EventRecord(slot) in queue
        invariant Valid() && Suffix(queue, old(queue)) && Drained() == old(Drained())
        decreases |queue|
      {
        ExecuteHead();
      }
      Progress();
    }

    /** The final error check waits for the whole stream. */
    method Finish()
      requires Valid()
      modifies `mem, `queue
      ensures Valid() && queue == [] && mem == old(Drained())
    {
      while queue != []
        invariant Valid() && Drained() == old(Drained())
        decreases |queue|
      {
        ExecuteHead();
      }
    }

    /** The host reads a staging buffer that no queued operation touches. */
    method CpuScatter(slot: nat, ids: seq<nat>, ghost g: GpuCache<T>, ghost source: seq<nat>, ghost dest: seq<nat>,
        ghost start: nat,
                      ghost pool0: seq<Record<T>>)
      requires Valid() && slot < STAGING_BUFFER_COUNT && Untouched(queue, slot)
      requires IsCache(g, blocks) && InRange(source, blocks) && |pool| == |pool0| && InRange(dest, |pool0|)
              && |source| == |dest|
      requires start + |ids| <= |source| && |ids| <= STAGING_BLOCKS && ids == dest[start..start + |ids|]
      requires pool == Stored(pool0, g, blocks, source, dest, start) && IsPool(pool0)
      requires Drained().cpuStaging[slot][..|ids|] == PackAll(g, blocks, source[start..start + |ids|])
      modifies `pool, `unread
      ensures Valid() && pool == Stored(pool0, g, blocks, source, dest, start + |ids|)
      ensures unread == old(unread) - {slot}
    {
      hide PackBlock, Exec, Run;
      UntouchedCommutes(mem, blocks, queue, slot, mem.cpuStaging[slot]);
      var staged := mem.cpuStaging[slot];
      assert staged[..|ids|] == PackAll(g, blocks, source[start..start + |ids|]);
      for j := 0 to |ids|
        invariant IsPool(pool) && pool == Stored(pool0, g, blocks, source, dest, start + j) && unread == old(unread)
      {
        assert staged[..|ids|][j] == PackBlock(g, blocks, source[start + j]);
        pool := pool[ids[j] := staged[j]];
      }
      unread := unread - {slot};
    }

    ghost predicate Tidy()
      reads this
    {
      Sealed(queue, 0) && Sealed(queue, 1)
    }

    /** Packs a chunk into one slot and starts its copy to the host. */
    method EnqueueOut(slot: nat, ids: seq<nat>)
      requires Valid() && Tidy() && slot < STAGING_BUFFER_COUNT && |ids| <= STAGING_BLOCKS && InRange(ids, blocks)
      requires slot !in unread
      modifies `mem, `queue, `unread
      ensures Valid() && Tidy() && unread == old(unread) + {slot}
      ensures Untouched(old(queue), 1 - slot) ==> Untouched(queue, 1 - slot)
      ensures Drained().gpu == old(Drained().gpu)
      ensures Drained().cpuStaging[1 - slot] == old(Drained().cpuStaging[1 - slot])
      ensures Drained().cpuStaging[slot][..|ids|] == PackAll(old(Drained().gpu), blocks, ids)
    {
      hide Exec, Run, PackAll, Sealed, Suffix, Untouched;
      ChunkStaged(Drained(), blocks, slot, ids);
      ghost var q0 := queue;
      Issue(Pack(slot, ids));
      OtherSlot(q0, Pack(slot, ids), queue, 1 - slot);
      ghost var q1 := queue;
      Issue(CopyOut(slot, |ids|));
      OtherSlot(q1, CopyOut(slot, |ids|), queue, 1 - slot);
      ghost var q2 := queue;
      EventHasNoEffect(Drained(), blocks, slot);
      Issue(EventRecord(slot));
      OtherSlot(q2, EventRecord(slot), queue, 1 - slot);
      SealAppend(q2, EventRecord(slot), slot);
      SuffixSealed(queue, q2 + [EventRecord(slot)], slot);
    }

    /** Waits for a slot's event and hands the slot's chunk to the pool. */
    method ScatterPending(p: Pending, source: seq<nat>, dest: seq<nat>, ghost g: GpuCache<T>,
        ghost pool0: seq<Record<T>>)
      requires Valid() && Tidy() && p.Pending? && p.slot < STAGING_BUFFER_COUNT
      requires p.start <= p.end <= |source| == |dest| && p.end - p.start <= STAGING_BLOCKS
      requires IsCache(g, blocks) && InRange(source, blocks) && IsPool(pool0) && |pool| == |pool0|
              && InRange(dest, |pool0|)
      requires pool == Stored(pool0, g, blocks, source, dest, p.start)
      requires Drained().cpuStaging[p.slot][..p.end - p.start] == PackAll(g, blocks, source[p.start..p.end])
      modifies `mem, `queue, `pool, `unread
      ensures Valid() && Tidy() && Untouched(queue, p.slot) && Drained() == old(Drained())
      ensures pool == Stored(pool0, g, blocks, source, dest, p.end) && unread == old(unread) - {p.slot}
    {
      hide Exec, Run, PackAll, Sealed, Suffix, Stored;
      ghost var q0 := queue;
      Synchronize(p.slot);
      SuffixSealed(queue, q0, 0);
      SuffixSealed(queue, q0, 1);
      EventClearsSlot(queue, p.slot);
      CpuScatter(p.slot, dest[p.start..p.end], g, source, dest, p.start, pool0);
    }

    /** GPU to CPU. Whatever the device's pace, the pool ends as after an atomic pointwise copy. */
    method SwapOut(source: seq<nat>, dest: seq<nat>)
      requires Valid() && queue == [] && unread == {}
      requires |source| == |dest| && InRange(source, blocks) && InRange(dest, |pool|)
      modifies this
      ensures Valid() && queue == [] && unread == {} && mem.gpu == old(mem.gpu)
      ensures pool == Stored(old(pool), old(mem.gpu), blocks, source, dest, |source|)
    {
      hide Exec, Run, PackAll, Sealed, Stored;
      ghost var pool0, g := pool, mem.gpu;
      DrainedEmpty(mem, blocks);
      SealedEmpty();
      var pending := NoPending;
      var start, slot := 0, 0;
      StoredNone(pool0, g, blocks, source, dest);
      while start < |source|
        invariant 0 <= start <= |source| && 0 <= slot < STAGING_BUFFER_COUNT
        invariant Valid() && Tidy() && Untouched(queue, slot) && |pool| == |pool0| && Drained().gpu == g
        invariant match pending
                  case NoPending => start == 0 && unread == {} && pool == Stored(pool0, g, blocks, source, dest, 0)
                  case Pending(s, b, e) =>
                    s == 1 - slot && unread == {s} && b <= e == start && e - b <= STAGING_BLOCKS
                    && pool == Stored(pool0, g, blocks, source, dest, b)
                    && Drained().cpuStaging[s][..e - b] == PackAll(g, blocks, source[b..e])
        invariant pending.NoPending? ==> queue == []
      {
        var end := ChunkEnd(start, |source|);
        EnqueueOut(slot, source[start..end]);
        if pending.Pending? {
          ScatterPending(pending, source, dest, g, pool0);
        }
        pending := Pending(slot, start, end);
        start, slot := end, 1 - slot;
      }
      if pending.Pending? {
        ScatterPending(pending, source, dest, g, pool0);
      }
      Finish();
    }

    /** The host fills a staging buffer that no queued operation touches. */
    method CpuGather(ids: seq<nat>, slot: nat)
      requires Valid() && slot < STAGING_BUFFER_COUNT && Untouched(queue, slot)
      requires |ids| <= STAGING_BLOCKS && InRange(ids, |pool|)
      modifies `mem
      ensures Valid() && Drained().gpu == old(Drained().gpu)
      ensures forall j | 0 <= j < |ids| :: Drained().cpuStaging[slot][j] == pool[ids[j]]
    {
      hide Exec;
      var head := seq(|ids|, j requires 0 <= j < |ids| reads this => if ids[j] < |pool| then pool[ids[j]] else []);
      var staging := Overwrite(mem.cpuStaging[slot], head);
      assert forall j | 0 <= j < |ids| :: staging[..|ids|][j] == head[j];
      UntouchedCommutes(mem, blocks, queue, slot, staging);
      mem := mem.(cpuStaging := mem.cpuStaging[slot := staging]);
    }

    /** Starts the copy of a filled slot to the device and its scatter into the cache. */
    method EnqueueIn(slot: nat, ids: seq<nat>)
      requires Valid() && Tidy() && slot < STAGING_BUFFER_COUNT && |ids| <= STAGING_BLOCKS && InRange(ids, blocks)
      modifies `mem, `queue, `unread
      ensures Valid() && Tidy() && unread == old(unread)
      ensures Untouched(old(queue), 1 - slot) ==> Untouched(queue, 1 - slot)
      ensures Drained().gpu == ScatterAll(old(Drained().gpu), blocks, ids, old(Drained().cpuStaging)[slot], |ids|)
    {
      hide Exec, Run, ScatterAll, Sealed, Suffix, Untouched;
      ChunkLoaded(Drained(), blocks, slot, ids);
      ghost var q0 := queue;
      Issue(CopyIn(slot, |ids|));
      OtherSlot(q0, CopyIn(slot, |ids|), queue, 1 - slot);
      ghost var q1 := queue;
      Issue(Scatter(slot, ids));
      OtherSlot(q1, Scatter(slot, ids), queue, 1 - slot);
      ghost var q2 := queue;
      EventHasNoEffect(Drained(), blocks, slot);
      Issue(EventRecord(slot));
      OtherSlot(q2, EventRecord(slot), queue, 1 - slot);
      SealAppend(q2, EventRecord(slot), slot);
      SuffixSealed(queue, q2 + [EventRecord(slot)], slot);
    }

    method ClaimSlot(slot: nat)
      requires Valid() && Tidy() && slot < STAGING_BUFFER_COUNT
      modifies `mem, `queue
      ensures Valid() && Tidy() && Untouched(queue, slot) && Drained() == old(Drained())
    {
      ghost var q0 := queue;
      Synchronize(slot);
      SuffixSealed(queue, q0, 0);
      SuffixSealed(queue, q0, 1);
      EventClearsSlot(queue, slot);
    }

    /** CPU to GPU. Whatever the device's pace, the cache ends as after an atomic pointwise copy. */
    method SwapIn(source: seq<nat>, dest: seq<nat>)
      requires Valid() && queue == [] && unread == {}
      requires |source| == |dest| && InRange(source, |pool|) && InRange(dest, blocks)
      modifies this
      ensures Valid() && queue == [] && unread == {} && pool == old(pool)
      ensures mem.gpu == Loaded(old(mem.gpu), blocks, pool, source, dest, |source|)
    {
      hide Exec, Run, ScatterAll, Sealed, Loaded;
      ghost var g := mem.gpu;
      DrainedEmpty(mem, blocks);
      SealedEmpty();
      LoadedNone(g, blocks, pool, source, dest);
      var start, index, slot := 0, 0, 0;
      while start < |source|
        invariant 0 <= start <= |source| && 0 <= slot < STAGING_BUFFER_COUNT
        invariant Valid() && Tidy() && pool == old(pool) && unread == {}
        invariant index < STAGING_BUFFER_COUNT ==> Untouched(queue, slot)
        invariant index == 0 ==> Untouched(queue, 1 - slot)
        invariant Drained().gpu == Loaded(g, blocks, pool, source, dest, start)
      {
        var end := ChunkEnd(start, |source|);
        if index >= STAGING_BUFFER_COUNT {
          ClaimSlot(slot);
        }
        CpuGather(source[start..end], slot);
        ScatterIsLoaded(g, blocks, pool, source, dest, start, end, Drained().cpuStaging[slot], end - start);
        EnqueueIn(slot, dest[start..end]);
        start, index, slot := end, index + 1, 1 - slot;
      }
      Finish();
    }

    /** One worker step: every copy out is complete before any copy in starts. */
    method ExecuteTransfers(outSource: seq<nat>, outDest: seq<nat>, inSource: seq<nat>, inDest: seq<nat>)
      requires Valid() && queue == [] && unread == {}
      requires |outSource| == |outDest| && InRange(outSource, blocks) && InRange(outDest, |pool|)
      requires |inSource| == |inDest| && InRange(inSource, |pool|) && InRange(inDest, blocks)
      modifies this
      ensures Valid() && queue == [] && unread == {}
      ensures pool == Stored(old(pool), old(mem.gpu), blocks, outSource, outDest, |outSource|)
      ensures mem.gpu == Loaded(old(mem.gpu), blocks, pool, inSource, inDest, |inSource|)
    {
      if |outSource| > 0 {
        SwapOut(outSource, outDest);
      }
      if |inSource| > 0 {
        SwapIn(inSource, inDest);
      }
    }
  }

  lemma DrainedEmpty<T>(m: Mem<T>, blocks: nat)
    requires MemOk(m, blocks)
    ensures Run(m, blocks, []) == m
  {
  }

  lemma SealedEmpty()
    ensures Sealed([], 0) && Sealed([], 1)
  {
  }

  lemma StoredNone<T>(pool: seq<Record<T>>, g: GpuCache<T>, blocks: nat, source: seq<nat>, dest: seq<nat>)
    requires IsCache(g, blocks) && InRange(source, blocks) && InRange(dest, |pool|) && |source| == |dest|
    ensures Stored(pool, g, blocks, source, dest, 0) == pool
  {
  }

  lemma LoadedNone<T>(g: GpuCache<T>, blocks: nat, pool: seq<Record<T>>, source: seq<nat>, dest: seq<nat>)
    requires IsCache(g, blocks) && IsPool(pool) && InRange(source, |pool|) && InRange(dest, blocks)
            && |source| == |dest|
    ensures Loaded(g, blocks, pool, source, dest, 0) == g
  {
  }

  lemma EventHasNoEffect<T>(m: Mem<T>, blocks: nat, slot: nat)
    requires MemOk(m, blocks) && slot < STAGING_BUFFER_COUNT
    ensures Exec(m, blocks, EventRecord(slot)) == m
  {
  }

  /** Work on one slot leaves the other slot's part of the stream as it was. */
  lemma OtherSlot(q: seq<Op>, op: Op, q': seq<Op>, other: nat)
    requires op.slot != other && Suffix(q', q + [op])
    ensures Sealed(q, other) ==> Sealed(q', other)
    ensures Untouched(q, other) ==> Untouched(q', other)
  {
    if Sealed(q, other) {
      SealAppend(q, op, other);
      SuffixSealed(q', q + [op], other);
    }
  }
}
