/** How the scheduler plans the prefill of one request: which saved state it resumes from, which states
    it keeps, and how far each step runs. */
module GdnScheduling {
  import opened GdnPolicy
  import opened GdnPrefix
  import opened IntFacts
  import opened Sequences

  /** The part of the configuration that prefill planning reads. */
  datatype Config = Config(blockSize: nat, chunkTokens: nat, mode: RestoreMode, policy: CachePolicy)

  /** What a running scheduler relies on: the restore mode has an alignment, and chunks are whole blocks, as the
      count of new tokens demands. */
  predicate ConfigOk(c: Config) {
    && RestoreAlignment(c.mode, c.blockSize, c.chunkTokens).Alignment?
    && c.chunkTokens > 0 && c.chunkTokens % c.blockSize == 0
  }

  function ReplayAlignment(c: Config): (a: nat)
    requires ConfigOk(c)
    ensures a > 0 && a % c.blockSize == 0
  {
    RestoreAlignment(c.mode, c.blockSize, c.chunkTokens).tokens
  }

  // ---------- fast-forward ----------

  datatype Plan = Plan(logical: int, physical: int) | BadChunkAlignment

  /** Logical progress and physical query tokens of a first step that may resume at a checkpoint. */
  function PlanFastForward(restore: Option<PrefixKey>, computed: int, promptLen: int, nominal: int, remaining: int,
                           B: int, chunkAlignment: Option<int>): Plan
  {
    if restore.None? || computed != 0 || promptLen <= 0 || nominal <= 0 || remaining <= 0 || B <= 0 then
      Plan(nominal, nominal)
    else
      var checkpoint := restore.value.blocks * B;
      if chunkAlignment.Some? && (chunkAlignment.value <= 0 || chunkAlignment.value % B != 0) then BadChunkAlignment
      else
        var unaligned := checkpoint + remaining;
        var limit := if chunkAlignment.None? then unaligned else
                       Min(unaligned, (checkpoint / chunkAlignment.value + 1) * chunkAlignment.value);
        var logical := Min(promptLen, limit);
        var physical := logical - checkpoint;
        if physical <= 0 || physical > remaining then Plan(nominal, nominal)
        else if logical <= nominal && (chunkAlignment.None? || physical >= nominal) then Plan(nominal, nominal)
        else Plan(logical, physical)
  }

  /** Tokens a single prefill sequence may take: all of them, or whole blocks of what is left of the budget. */
  function NumNewTokens(uncomputed: int, remaining: int, B: nat): int
    requires B > 0
  {
    if remaining < uncomputed then (remaining / B) * B else uncomputed
  }

  lemma NumNewTokensFits(uncomputed: int, remaining: nat, B: nat)
    requires B > 0 && uncomputed > 0
    ensures 0 <= NumNewTokens(uncomputed, remaining, B) <= remaining
    ensures NumNewTokens(uncomputed, remaining, B) <= uncomputed
    ensures NumNewTokens(uncomputed, remaining, B) == 0 <==> remaining < Min(B, uncomputed)
    ensures remaining % B == 0 ==> NumNewTokens(uncomputed, remaining, B) == Min(remaining, uncomputed)
    ensures var n := NumNewTokens(uncomputed, remaining, B);
            n == uncomputed || (n % B == 0 && remaining - B < n && remaining < uncomputed)
  {
    MultipleDivides(remaining / B, B);
    assert remaining == (remaining / B) * B + remaining % B;
    MultiplesMonotone(0, remaining / B, B);
  }

  /** Where the budget takes a step from a checkpoint, or the next multiple of the alignment stops it. */
  function Furthest(checkpoint: nat, remaining: nat, alignment: Option<int>): int
    requires alignment.Some? ==> alignment.value > 0
  {
    if alignment.None? then checkpoint + remaining
    else Min(checkpoint + remaining, checkpoint - checkpoint % alignment.value + alignment.value)
  }

  /** A checkpoint strictly inside the prompt: whichever branch is taken, including both fallbacks, the step
      ends past the checkpoint, inside the prompt, and its tokens after the checkpoint fit the budget; it goes as far
      as the budget, the alignment and the prompt let it. */
  lemma FastForwardSafe(key: PrefixKey, promptLen: int, remaining: nat, B: nat, chunkAlignment: Option<int>)
    requires B > 0 && key.blocks > 0 && Boundary(key, B) < promptLen
    requires NumNewTokens(promptLen, remaining, B) > 0
    requires chunkAlignment.Some? ==> chunkAlignment.value > 0 && chunkAlignment.value % B == 0
    ensures var plan := PlanFastForward(Some(key), 0, promptLen, NumNewTokens(promptLen, remaining, B), remaining,
            B, chunkAlignment);
            && plan.Plan?
            && Boundary(key, B) < plan.logical <= promptLen
            && plan.logical - Boundary(key, B) <= plan.physical <= remaining
            && 0 <= plan.logical - plan.physical <= Boundary(key, B)
            && (plan.logical - plan.physical == Boundary(key, B) || plan == Plan(promptLen, promptLen))
            && (remaining % B == 0 ==> plan.logical % B == 0 || plan.logical == promptLen)
            && plan.logical == Min(promptLen, Furthest(Boundary(key, B), remaining, chunkAlignment))
  {
    hide NumNewTokens;
    var checkpoint := Boundary(key, B);
    MultiplesMonotone(1, key.blocks, B);
    NumNewTokensFits(promptLen, remaining, B);
    if chunkAlignment.Some? {
      NextBoundaryAligned(checkpoint, chunkAlignment.value, B);
    }
    if remaining % B == 0 {
      SumAligned(key.blocks, remaining, B);
    }
  }

  lemma SumAligned(blocks: nat, remaining: nat, B: nat)
    requires B > 0 && remaining % B == 0
    ensures (blocks * B + remaining) % B == 0
  {
    var q := remaining / B;
    assert blocks * B + remaining == (blocks + q) * B;
    MultipleDivides(blocks + q, B);
  }

  lemma NextBoundaryAligned(checkpoint: nat, a: nat, B: nat)
    requires a > 0 && B > 0 && a % B == 0
    ensures (checkpoint / a + 1) * a == checkpoint - checkpoint % a + a > checkpoint
    ensures ((checkpoint / a + 1) * a) % B == 0
  {
    assert checkpoint == (checkpoint / a) * a + checkpoint % a;
    assert (checkpoint / a + 1) * a == (checkpoint / a) * a + a;
    MultipleDivides(checkpoint / a + 1, a);
    DividesThrough((checkpoint / a + 1) * a, a, B);
  }

  // ---------- what a request resumes from and what it keeps ----------

  datatype Attached = Attached(restore: Option<PrefixKey>, targets: seq<PrefixKey>)

  function DirectFinal(c: Config, hashes: seq<Digest>, L: int): Option<PrefixKey>
    requires ConfigOk(c)
  {
    if c.mode.Hybrid64? then FinalCaptureKey(hashes, L, c.blockSize, Direct, c.blockSize) else None
  }

  predicate Eligible(k: PrefixKey, c: Config, hashes: seq<Digest>, L: int)
    requires ConfigOk(c)
  {
    RestoreKeyIsEligible(k, L, c.blockSize, c.mode, ReplayAlignment(c), DirectFinal(c, hashes, L))
  }

  function EligibleKeys(keys: seq<PrefixKey>, c: Config, hashes: seq<Digest>, L: int): (r: seq<PrefixKey>)
    requires ConfigOk(c)
    ensures forall k :: k in r <==> k in keys && Eligible(k, c, hashes, L)
  {
    if keys == [] then [] else
      var init, last := keys[..|keys| - 1], keys[|keys| - 1];
      assert keys == init + [last];
      EligibleKeys(init, c, hashes, L) + if Eligible(last, c, hashes, L) then [last] else []
  }

  /** The live, eligible prefix keys of a waiting request, shortest first. */
  function LiveKeys(c: Config, hashes: seq<Digest>, L: int, rawLive: nat): seq<PrefixKey>
    requires ConfigOk(c)
  {
    EligibleKeys(KeysFromBlockHashes(hashes[..MaxLive(c, hashes, L, rawLive)]), c, hashes, L)
  }

  function MaxLive(c: Config, hashes: seq<Digest>, L: int, rawLive: nat): (n: nat)
    requires ConfigOk(c)
    ensures n <= |hashes| && n <= rawLive
  {
    Min(Min(rawLive, |hashes|), StrictPrefixBlockCount(L, c.blockSize))
  }

  function FinalKey(c: Config, hashes: seq<Digest>, L: int): Option<PrefixKey>
    requires ConfigOk(c)
  {
    FinalCaptureKey(hashes, L, c.blockSize, c.mode, ReplayAlignment(c))
  }

  /** Decided once, when the request is admitted. */
  function Attach(c: Config, hashes: seq<Digest>, L: int, rawLive: nat, resident: seq<PrefixKey>): Attached
    requires ConfigOk(c)
  {
    var live := LiveKeys(c, hashes, L, rawLive);
    var restore := SelectRestore(c.policy, resident, live, |live|);
    var resident' := if restore.Some? then MoveToEnd(resident, restore.value) else resident;
    var branch := BranchCandidate(c.policy, resident', live, |live|);
    var targets := if branch.Some? then [branch.value] else [];
    var final := FinalKey(c, hashes, L);
    Attached(restore,
             if final.Some? && final.value !in targets && ShouldCaptureFinal(c.policy, resident', final.value)
             then targets + [final.value] else targets)
  }

  /** A key that names a whole-block prefix of the hashed content. */
  predicate NamesPrefix(k: PrefixKey, hashes: seq<Digest>) {
    0 < k.blocks <= |hashes| && k.digest == hashes[k.blocks - 1]
  }

  predicate Lengthening(keys: seq<PrefixKey>) {
    forall i, j | 0 <= i < j < |keys| :: keys[i].blocks < keys[j].blocks
  }

  lemma {:induction false} LiveAscending(keys: seq<PrefixKey>, c: Config, hashes: seq<Digest>, L: int)
    requires ConfigOk(c) && Lengthening(keys)
    ensures Lengthening(EligibleKeys(keys, c, hashes, L))
  {
    hide Eligible, ConfigOk;
    if keys != [] {
      var init, last := keys[..|keys| - 1], keys[|keys| - 1];
      LiveAscending(init, c, hashes, L);
      var r := EligibleKeys(init, c, hashes, L);
      forall i | 0 <= i < |r|
        ensures r[i].blocks < last.blocks
      {
        assert r[i] in r;
        var k :| 0 <= k < |init| && init[k] == r[i];
        assert keys[k].blocks < keys[|keys| - 1].blocks;
      }
    }
  }

  lemma EligibleInside(k: PrefixKey, c: Config, hashes: seq<Digest>, L: int)
    requires ConfigOk(c) && Eligible(k, c, hashes, L)
    ensures Boundary(k, c.blockSize) < L
    ensures c.mode.Direct? || c.mode.Hybrid64? ==> Boundary(k, c.blockSize) <= L - GDN_DIRECT_MIN_REPLAY_TOKENS
    ensures c.mode.Chunk64? || c.mode.Aligned? ==> Boundary(k, c.blockSize) % ReplayAlignment(c) == 0
  {
  }

  lemma LiveMeaning(c: Config, hashes: seq<Digest>, L: int, rawLive: nat)
    requires ConfigOk(c)
    ensures Lengthening(LiveKeys(c, hashes, L, rawLive))
    ensures forall k | k in LiveKeys(c, hashes, L, rawLive) ::
              NamesPrefix(k, hashes) && k.blocks <= rawLive && Eligible(k, c, hashes, L)
  {
    hide Eligible, ConfigOk;
    var keys := KeysFromBlockHashes(hashes[..MaxLive(c, hashes, L, rawLive)]);
    LiveAscending(keys, c, hashes, L);
    forall k | k in keys
      ensures NamesPrefix(k, hashes) && k.blocks <= rawLive
    {
      var i :| 0 <= i < |keys| && keys[i] == k;
    }
  }

  /** A state may be restored exactly when enough is left to replay and it stands where the mode allows: in direct
      mode anywhere, in hybrid mode on the kernel's grid or at the longest prefix that leaves enough, else on the
      grid of the mode. */
  lemma EligibleExactly(k: PrefixKey, c: Config, hashes: seq<Digest>, L: int)
    requires ConfigOk(c) && NamesPrefix(k, hashes)
    ensures var b, B := Boundary(k, c.blockSize), c.blockSize;
            Eligible(k, c, hashes, L) <==>
              match c.mode
              case Direct => b + 2 <= L
              case Hybrid64 => b + 2 <= L && (b % 64 == 0 || b + B + 2 > L || k.blocks == |hashes|)
              case Chunk64 => b < L && b % 64 == 0
              case Aligned => b < L && b % c.chunkTokens == 0
  {
    if c.mode.Hybrid64? && Boundary(k, c.blockSize) + 2 <= L {
      LongestExactly(k, hashes, L, c.blockSize);
    }
  }

  /** The longest prefix of whole blocks, among those hashed, that leaves two tokens. */
  lemma LongestExactly(k: PrefixKey, hashes: seq<Digest>, L: int, B: nat)
    requires B > 0 && NamesPrefix(k, hashes) && Boundary(k, B) + 2 <= L
    ensures FinalCaptureKey(hashes, L, B, Direct, B) == Some(k) <==>
              Boundary(k, B) + B + 2 > L || k.blocks == |hashes|
  {
    hide FinalCaptureKey;
    var final := FinalCaptureKey(hashes, L, B, Direct, B);
    LongestReplayable(hashes, L, B, k);
    FinalDirectLeaves(hashes, L, B);
    var f := final.value;
    assert f.blocks == k.blocks ==> f == k;
    if k.blocks < f.blocks {
      MultiplesMonotone(k.blocks + 1, f.blocks, B);
      assert (k.blocks + 1) * B == Boundary(k, B) + B;
    }
    if f.blocks < |hashes| && k.blocks <= f.blocks {
      var next := PrefixKey(f.blocks + 1, hashes[f.blocks]);
      assert (f.blocks + 1) * B == Boundary(f, B) + B;
      if Boundary(next, B) + 2 <= L {
        LongestReplayable(hashes, L, B, next);
        assert false;
      }
    }
  }

  lemma FinalDirectLeaves(hashes: seq<Digest>, L: int, B: nat)
    requires B > 0 && FinalCaptureKey(hashes, L, B, Direct, B).Some?
    ensures var k := FinalCaptureKey(hashes, L, B, Direct, B).value;
            NamesPrefix(k, hashes) && Boundary(k, B) + 2 <= L
  {
    var strict, k := StrictPrefixBlockCount(L, B), FinalCaptureKey(hashes, L, B, Direct, B).value;
    assert L - 1 == strict * B + (L - 1) % B;
    MultiplesMonotone(k.blocks, strict, B);
    if k.blocks < strict {
      assert (strict - 1) * B == strict * B - B;
      MultiplesMonotone(k.blocks, strict - 1, B);
    }
  }

  lemma LongestReplayable(hashes: seq<Digest>, L: int, B: nat, k: PrefixKey)
    requires B > 0 && NamesPrefix(k, hashes) && Boundary(k, B) <= L - GDN_DIRECT_MIN_REPLAY_TOKENS
    ensures var final := FinalCaptureKey(hashes, L, B, Direct, B);
            final.Some? && NamesPrefix(final.value, hashes) && k.blocks <= final.value.blocks
  {
    MultiplesMonotone(1, k.blocks, B);
    BlocksBelow(k.blocks, L, B);
  }

  lemma BlocksBelow(blocks: nat, L: int, B: nat)
    requires B > 0 && blocks * B < L && L > 1
    ensures blocks <= StrictPrefixBlockCount(L, B)
  {
    var strict := (L - 1) / B;
    assert L - 1 == strict * B + (L - 1) % B;
    assert (strict + 1) * B == strict * B + B;
    MultiplesOrdered(blocks, strict + 1, B);
  }

  /** The final key is the longest prefix a later request could still resume from. */
  lemma FinalIsLongest(c: Config, hashes: seq<Digest>, L: int, k: PrefixKey)
    requires ConfigOk(c) && NamesPrefix(k, hashes) && Eligible(k, c, hashes, L)
    ensures var final := FinalKey(c, hashes, L);
            final.Some? && NamesPrefix(final.value, hashes) && k.blocks <= final.value.blocks
  {
    hide Eligible;
    EligibleInside(k, c, hashes, L);
    if c.mode.Direct? || c.mode.Hybrid64? {
      LongestReplayable(hashes, L, c.blockSize, k);
      SameForHybrid(c, hashes, L);
    } else {
      MultiplesMonotone(1, k.blocks, c.blockSize);
      LongestAligned(k.blocks, L, ReplayAlignment(c), c.blockSize);
    }
  }

  lemma SameForHybrid(c: Config, hashes: seq<Digest>, L: int)
    requires ConfigOk(c) && (c.mode.Direct? || c.mode.Hybrid64?)
    ensures FinalKey(c, hashes, L) == FinalCaptureKey(hashes, L, c.blockSize, Direct, c.blockSize)
  {
  }

  lemma LongestAligned(blocks: nat, L: int, a: nat, B: nat)
    requires a > 0 && B > 0 && blocks * B < L && (blocks * B) % a == 0
    ensures blocks <= ((L - 1) / a * a) / B
  {
    var p, q := (blocks * B) / a, (L - 1) / a;
    assert blocks * B == p * a;
    assert L - 1 == q * a + (L - 1) % a;
    assert (q + 1) * a == q * a + a;
    MultiplesOrdered(p, q + 1, a);
    MultiplesMonotone(p, q, a);
    var n := q * a / B;
    assert q * a == n * B + (q * a) % B;
    assert (n + 1) * B == n * B + B;
    MultiplesOrdered(blocks, n + 1, B);
  }

  lemma FinalDirectInside(hashes: seq<Digest>, L: int, B: nat)
    requires B > 0 && FinalCaptureKey(hashes, L, B, Direct, B).Some?
    ensures var k := FinalCaptureKey(hashes, L, B, Direct, B).value;
            NamesPrefix(k, hashes) && Boundary(k, B) < L
  {
    var strict, k := StrictPrefixBlockCount(L, B), FinalCaptureKey(hashes, L, B, Direct, B).value;
    assert L - 1 == strict * B + (L - 1) % B;
    MultiplesMonotone(k.blocks, strict, B);
  }

  lemma FinalAlignedInside(hashes: seq<Digest>, L: int, B: nat, mode: RestoreMode, a: nat)
    requires B > 0 && a > 0 && (mode.Chunk64? || mode.Aligned?) && FinalCaptureKey(hashes, L, B, mode, a).Some?
    ensures var k := FinalCaptureKey(hashes, L, B, mode, a).value;
            NamesPrefix(k, hashes) && Boundary(k, B) < L
  {
    var k, q := FinalCaptureKey(hashes, L, B, mode, a).value, (L - 1) / a;
    var n, p := (q * a) / B, q * a;
    assert L - 1 == p + (L - 1) % a;
    assert p == n * B + p % B;
    MultiplesMonotone(k.blocks, n, B);
  }

  lemma FinalInside(c: Config, hashes: seq<Digest>, L: int)
    requires ConfigOk(c) && FinalKey(c, hashes, L).Some?
    ensures NamesPrefix(FinalKey(c, hashes, L).value, hashes)
    ensures Boundary(FinalKey(c, hashes, L).value, c.blockSize) < L
  {
    if c.mode.Direct? || c.mode.Hybrid64? {
      SameForHybrid(c, hashes, L);
      FinalDirectInside(hashes, L, c.blockSize);
    } else {
      FinalAlignedInside(hashes, L, c.blockSize, c.mode, ReplayAlignment(c));
    }
  }

  /** When the whole prompt is hashed, the final key is exactly the longest prefix that may be restored. */
  lemma FinalExactly(c: Config, hashes: seq<Digest>, L: int, k: PrefixKey)
    requires ConfigOk(c) && L > 0 && |hashes| >= (L - 1) / c.blockSize
    ensures FinalKey(c, hashes, L) == Some(k) <==>
              && NamesPrefix(k, hashes) && Eligible(k, c, hashes, L)
              && forall x | NamesPrefix(x, hashes) && Eligible(x, c, hashes, L) :: x.blocks <= k.blocks
  {
    hide Eligible, FinalKey;
    if FinalKey(c, hashes, L).Some? {
      FinalInside(c, hashes, L);
      FinalIsEligible(c, hashes, L);
    }
    forall x | NamesPrefix(x, hashes) && Eligible(x, c, hashes, L)
      ensures FinalKey(c, hashes, L).Some? && x.blocks <= FinalKey(c, hashes, L).value.blocks
    {
      FinalIsLongest(c, hashes, L, x);
    }
  }

  lemma FinalIsEligible(c: Config, hashes: seq<Digest>, L: int)
    requires ConfigOk(c) && L > 0 && |hashes| >= (L - 1) / c.blockSize && FinalKey(c, hashes, L).Some?
    ensures Eligible(FinalKey(c, hashes, L).value, c, hashes, L)
  {
    hide Eligible;
    var k, B := FinalKey(c, hashes, L).value, c.blockSize;
    FinalInside(c, hashes, L);
    EligibleExactly(k, c, hashes, L);
    if c.mode.Direct? || c.mode.Hybrid64? {
      SameForHybrid(c, hashes, L);
      FinalDirectLeaves(hashes, L, B);
      LongestExactly(k, hashes, L, B);
    } else {
      FinalAlignedExactly(hashes, L, B, c.mode, ReplayAlignment(c));
    }
  }

  lemma FinalAlignedExactly(hashes: seq<Digest>, L: int, B: nat, mode: RestoreMode, a: nat)
    requires B > 0 && a > 0 && a % B == 0 && L > 0 && |hashes| >= (L - 1) / B && (mode.Chunk64? || mode.Aligned?)
    requires FinalCaptureKey(hashes, L, B, mode, a).Some?
    ensures Boundary(FinalCaptureKey(hashes, L, B, mode, a).value, B) == (L - 1) / a * a
    ensures ((L - 1) / a * a) % a == 0
  {
    var q := (L - 1) / a;
    var p := q * a;
    MultipleDivides(q, a);
    DividesThrough(p, a, B);
    var n := p / B;
    assert p == n * B;
    assert L - 1 == p + (L - 1) % a;
    var m := (L - 1) / B;
    assert L - 1 == m * B + (L - 1) % B;
    assert (m + 1) * B == m * B + B;
    MultiplesOrdered(n, m + 1, B);
  }

  function RestoreTokens(restore: Option<PrefixKey>, B: nat): nat {
    if restore.Some? then Boundary(restore.value, B) else 0
  }

  /** What planning may rely on once a request is attached. */
  ghost predicate AttachedOk(c: Config, hashes: seq<Digest>, L: int, a: Attached)
    requires ConfigOk(c)
  {
    && |a.targets| <= 2
    && (a.restore.Some? ==> NamesPrefix(a.restore.value, hashes) && Boundary(a.restore.value, c.blockSize) < L)
    && (forall t | t in a.targets :: NamesPrefix(t, hashes) && Boundary(t, c.blockSize) < L)
    && (c.policy.Admission64?
        ==> forall t | t in a.targets :: RestoreTokens(a.restore, c.blockSize) < Boundary(t, c.blockSize))
  }

  lemma BoundariesOrdered(a: PrefixKey, b: PrefixKey, B: nat)
    requires B > 0
    ensures a.blocks < b.blocks ==> Boundary(a, B) < Boundary(b, B)
    ensures 0 < a.blocks ==> 0 < Boundary(a, B)
  {
    if a.blocks < b.blocks {
      MultiplesMonotone(a.blocks + 1, b.blocks, B);
      assert (a.blocks + 1) * B == a.blocks * B + B;
    }
    MultiplesMonotone(0, a.blocks, B);
    if 0 < a.blocks {
      MultiplesMonotone(1, a.blocks, B);
    }
  }

  lemma NewerThanRestore(c: Config, hashes: seq<Digest>, r: PrefixKey, t: PrefixKey)
    requires ConfigOk(c) && NamesPrefix(r, hashes) && NamesPrefix(t, hashes) && r.blocks <= t.blocks && r != t
    ensures Boundary(r, c.blockSize) < Boundary(t, c.blockSize)
  {
    assert r.blocks == t.blocks ==> r == t;
    BoundariesOrdered(r, t, c.blockSize);
  }

  /** Under admission64 every state to be kept lies strictly beyond the state resumed from. */
  lemma AttachMeaning(c: Config, hashes: seq<Digest>, L: int, rawLive: nat, resident: seq<PrefixKey>)
    requires ConfigOk(c)
    ensures var a := Attach(c, hashes, L, rawLive, resident);
            && AttachedOk(c, hashes, L, a)
            && (a.restore.Some? ==> a.restore.value in resident && a.restore.value.blocks <= rawLive)
  {
    hide Eligible, FinalKey, Boundary, LiveKeys;
    var live, a := LiveKeys(c, hashes, L, rawLive), Attach(c, hashes, L, rawLive, resident);
    LiveMeaning(c, hashes, L, rawLive);
    forall k | k in live
      ensures Boundary(k, c.blockSize) < L
    {
      EligibleInside(k, c, hashes, L);
    }
    if FinalKey(c, hashes, L).Some? {
      FinalInside(c, hashes, L);
    }
    assert Prefix(live, |live|) == live;
    if c.policy.Admission64? {
      forall t | t in a.targets
        ensures RestoreTokens(a.restore, c.blockSize) < Boundary(t, c.blockSize)
      {
        if a.restore.Some? {
          var r := a.restore.value;
          assert r in MoveToEnd(resident, r) && t !in MoveToEnd(resident, r);
          FinalIsLongest(c, hashes, L, r);
          if t in live {
            BranchIsLast(live, r, t);
          }
          NewerThanRestore(c, hashes, r, t);
        } else {
          BoundariesOrdered(t, t, c.blockSize);
        }
      }
    }
  }

  /** A prefix whose blocks are still held and whose state may be restored. */
  predicate IsLive(c: Config, hashes: seq<Digest>, L: int, rawLive: nat, k: PrefixKey)
    requires ConfigOk(c)
  {
    NamesPrefix(k, hashes) && k.blocks <= rawLive && Eligible(k, c, hashes, L)
  }

  ghost predicate IsLongestLive(c: Config, hashes: seq<Digest>, L: int, rawLive: nat, k: PrefixKey)
    requires ConfigOk(c)
  {
    IsLive(c, hashes, L, rawLive, k) && forall x | IsLive(c, hashes, L, rawLive, x) :: x.blocks <= k.blocks
  }

  /** The live keys are all of them. */
  lemma LiveComplete(c: Config, hashes: seq<Digest>, L: int, rawLive: nat, k: PrefixKey)
    requires ConfigOk(c) && IsLive(c, hashes, L, rawLive, k)
    ensures k in LiveKeys(c, hashes, L, rawLive)
  {
    hide Eligible;
    EligibleInside(k, c, hashes, L);
    MultiplesMonotone(1, k.blocks, c.blockSize);
    BlocksBelow(k.blocks, L, c.blockSize);
    var keys := KeysFromBlockHashes(hashes[..MaxLive(c, hashes, L, rawLive)]);
    assert keys[k.blocks - 1] == k;
  }

  lemma LiveIsLive(c: Config, hashes: seq<Digest>, L: int, rawLive: nat)
    requires ConfigOk(c)
    ensures forall k :: k in LiveKeys(c, hashes, L, rawLive) <==> IsLive(c, hashes, L, rawLive, k)
    ensures Lengthening(LiveKeys(c, hashes, L, rawLive))
  {
    hide Eligible, ConfigOk, LiveKeys;
    LiveMeaning(c, hashes, L, rawLive);
    forall k | IsLive(c, hashes, L, rawLive, k)
      ensures k in LiveKeys(c, hashes, L, rawLive)
    {
      LiveComplete(c, hashes, L, rawLive, k);
    }
  }

  /** Unless the cache is off, a request resumes from the longest live prefix whose state is saved; and if there is
      one it does resume. */
  lemma RestoreIsLongest(c: Config, hashes: seq<Digest>, L: int, rawLive: nat, resident: seq<PrefixKey>)
    requires ConfigOk(c)
    ensures var restore := Attach(c, hashes, L, rawLive, resident).restore;
            && (c.policy.Off? ==> restore.None?)
            && (restore.Some? ==> IsLive(c, hashes, L, rawLive, restore.value) && restore.value in resident)
            && (!c.policy.Off? ==> forall k | IsLive(c, hashes, L, rawLive, k) && k in resident ::
                  restore.Some? && k.blocks <= restore.value.blocks)
  {
    hide IsLive, LiveKeys, FinalKey;
    var live := LiveKeys(c, hashes, L, rawLive);
    LiveIsLive(c, hashes, L, rawLive);
    if !c.policy.Off? {
      SelectIsLast(c.policy, resident, live, |live|);
      var restore := SelectRestore(c.policy, resident, live, |live|);
      forall k | IsLive(c, hashes, L, rawLive, k) && k in resident
        ensures restore.Some? && k.blocks <= restore.value.blocks
      {
        LastIsLongest(live, resident, restore, k);
      }
    }
  }

  lemma LastIsLongest(live: seq<PrefixKey>, s: seq<PrefixKey>, best: Option<PrefixKey>, k: PrefixKey)
    requires Lengthening(live) && IsLastOf(live, |live|, s, best) && k in live && k in s
    ensures best.Some? && k.blocks <= best.value.blocks
  {
    var j :| 0 <= j < |live| && live[j] == k;
    if best.Some? {
      var i :| 0 <= i < |live| && live[i] == best.value && forall j | i < j < |live| :: live[j] !in s;
    }
  }

  /** The states to keep: under admission64 the longest live prefix and the final one, each unless it is saved already;
      under fine32 the final one. */
  lemma TargetsExactly(c: Config, hashes: seq<Digest>, L: int, rawLive: nat, resident: seq<PrefixKey>)
    requires ConfigOk(c)
    ensures forall t :: t in Attach(c, hashes, L, rawLive, resident).targets <==>
              match c.policy
              case Off => false
              case Admission64 =>
                t !in resident && (IsLongestLive(c, hashes, L, rawLive, t) || FinalKey(c, hashes, L) == Some(t))
              case Fine32 => FinalKey(c, hashes, L) == Some(t)
    ensures Distinct(Attach(c, hashes, L, rawLive, resident).targets)
  {
    hide IsLive, LiveKeys, FinalKey, Eligible, MoveToEnd;
    var live, a := LiveKeys(c, hashes, L, rawLive), Attach(c, hashes, L, rawLive, resident);
    LiveIsLive(c, hashes, L, rawLive);
    SameMembers(resident, a.restore);
    forall t
      ensures IsLongestLive(c, hashes, L, rawLive, t) <==> live != [] && t == live[|live| - 1]
    {
      LongestIsLast(c, hashes, L, rawLive, t);
    }
  }

  lemma SameMembers(s: seq<PrefixKey>, k: Option<PrefixKey>)
    requires k.Some? ==> k.value in s
    ensures k.Some? ==> forall x :: x in MoveToEnd(s, k.value) <==> x in s
  {
  }

  lemma LongestIsLast(c: Config, hashes: seq<Digest>, L: int, rawLive: nat, t: PrefixKey)
    requires ConfigOk(c) && Lengthening(LiveKeys(c, hashes, L, rawLive))
    requires forall k :: k in LiveKeys(c, hashes, L, rawLive) <==> IsLive(c, hashes, L, rawLive, k)
    ensures var live := LiveKeys(c, hashes, L, rawLive);
            IsLongestLive(c, hashes, L, rawLive, t) <==> live != [] && t == live[|live| - 1]
  {
    hide IsLive, LiveKeys;
    var live := LiveKeys(c, hashes, L, rawLive);
    if live != [] {
      var last := live[|live| - 1];
      assert last in live;
      forall x | x in live
        ensures x.blocks <= last.blocks && (x.blocks == last.blocks ==> x == last)
      {
        var i :| 0 <= i < |live| && live[i] == x;
      }
    }
  }

  lemma BranchIsLast(live: seq<PrefixKey>, r: PrefixKey, t: PrefixKey)
    requires Lengthening(live) && r in live && |live| > 0
    ensures t == live[|live| - 1] ==> r.blocks <= t.blocks
  {
    var i :| 0 <= i < |live| && live[i] == r;
  }

  // ---------- the steps of one prefill ----------

  datatype Step = Step(end: int, counted: int) | NotScheduled | StepError

  /** Under admission64 a step stops at the earliest state still to be kept. */
  function CapStep(c: Config, targets: seq<PrefixKey>, computed: int, chunk: int, physical: int): Step {
    if !c.policy.Admission64? || targets == [] then Step(computed + chunk, physical)
    else if chunk <= 0 || physical <= 0 || chunk < physical then StepError
    else
      var end := computed + chunk;
      var start := end - physical;
      var capped := CapEnd(start, end, targets, c.blockSize);
      if capped == end then Step(end, physical)
      else if capped - computed <= 0 || capped - start <= 0 then StepError
      else Step(capped, capped - start)
  }

  function FirstStep(c: Config, a: Attached, L: int, remaining: int): Step
    requires ConfigOk(c)
  {
    var nominal := NumNewTokens(L, remaining, c.blockSize);
    if nominal == 0 then NotScheduled else
      var plan := PlanFastForward(a.restore, 0, L, nominal, remaining, c.blockSize,
                                  if c.mode.Hybrid64? then Some(c.chunkTokens) else None);
      if plan.BadChunkAlignment? then StepError else CapStep(c, a.targets, 0, plan.logical, plan.physical)
  }

  function NextStep(c: Config, a: Attached, L: int, computed: int, remaining: int): Step
    requires ConfigOk(c)
  {
    var n := NumNewTokens(L - computed, remaining, c.blockSize);
    if n == 0 then NotScheduled else CapStep(c, a.targets, computed, n, n)
  }

  /** A good step from physical context ctx: it moves on inside the prompt, fits the budget it counts against,
      passes no state that is still to be kept and, if whole, stays on whole blocks until the prompt ends. */
  ghost predicate GoodStep(c: Config, a: Attached, L: int, ctx: int, remaining: int, whole: bool, s: Step) {
    && s.Step? && ctx < s.end <= L && s.end - ctx <= s.counted <= remaining
    && (whole ==> c.blockSize > 0 && (s.end % c.blockSize == 0 || s.end == L))
    && (c.policy.Admission64? ==> forall t | t in a.targets :: !(ctx < Boundary(t, c.blockSize) < s.end))
  }

  lemma CapStepGood(c: Config, hashes: seq<Digest>, L: int, a: Attached, computed: int, chunk: int, physical: int,
      ctx: int, remaining: nat, whole: bool)
    requires ConfigOk(c) && AttachedOk(c, hashes, L, a)
    requires 0 <= computed && 0 < physical <= chunk && ctx < computed + chunk <= L
    requires computed + chunk - ctx <= physical <= remaining && computed + chunk - physical <= ctx
    requires RestoreTokens(a.restore, c.blockSize) <= ctx
    requires c.policy.Admission64? ==> forall t | t in a.targets ::
               Boundary(t, c.blockSize) <= computed + chunk - physical || ctx < Boundary(t, c.blockSize)
    requires whole ==> (computed + chunk) % c.blockSize == 0 || computed + chunk == L
    ensures GoodStep(c, a, L, ctx, remaining, whole, CapStep(c, a.targets, computed, chunk, physical))
  {
    var end := computed + chunk;
    CapIsEarliest(end - physical, end, a.targets, c.blockSize);
    var capped := CapEnd(end - physical, end, a.targets, c.blockSize);
    if capped != end {
      var t :| t in a.targets && Boundary(t, c.blockSize) == capped;
      MultipleDivides(t.blocks, c.blockSize);
    }
  }

  /** The first step of any request: resumed or not, fast-forwarded or not, capped or not. */
  lemma FirstStepGood(c: Config, hashes: seq<Digest>, L: int, a: Attached, remaining: nat)
    requires ConfigOk(c) && AttachedOk(c, hashes, L, a) && L > 0
    ensures var s := FirstStep(c, a, L, remaining);
            if NumNewTokens(L, remaining, c.blockSize) == 0 then s.NotScheduled?
            else GoodStep(c, a, L, RestoreTokens(a.restore, c.blockSize), remaining, remaining % c.blockSize == 0, s)
  {
    hide CapStep;
    var B, ctx := c.blockSize, RestoreTokens(a.restore, c.blockSize);
    var nominal := NumNewTokens(L, remaining, B);
    NumNewTokensFits(L, remaining, B);
    var chunkAlignment := if c.mode.Hybrid64? then Some(c.chunkTokens) else None;
    var plan := PlanFastForward(a.restore, 0, L, nominal, remaining, B, chunkAlignment);
    if nominal > 0 {
      if a.restore.Some? {
        FastForwardSafe(a.restore.value, L, remaining, B, chunkAlignment);
      }
      CapStepGood(c, hashes, L, a, 0, plan.logical, plan.physical, ctx, remaining, remaining % B == 0);
    }
  }

  /** Every later step; it stays on whole blocks if the prefill and the budget are on whole blocks. */
  lemma NextStepGood(c: Config, hashes: seq<Digest>, L: int, a: Attached, computed: nat, remaining: nat)
    requires ConfigOk(c) && AttachedOk(c, hashes, L, a) && RestoreTokens(a.restore, c.blockSize) <= computed < L
    ensures var s := NextStep(c, a, L, computed, remaining);
            if NumNewTokens(L - computed, remaining, c.blockSize) == 0 then s.NotScheduled?
            else GoodStep(c, a, L, computed, remaining, computed % c.blockSize == 0 && remaining % c.blockSize == 0, s)
  {
    hide CapStep, NumNewTokens, GoodStep, AttachedOk;
    var whole := computed % c.blockSize == 0 && remaining % c.blockSize == 0;
    var n := NumNewTokens(L - computed, remaining, c.blockSize);
    NumNewTokensFits(L - computed, remaining, c.blockSize);
    if whole {
      var q := computed / c.blockSize;
      assert computed == q * c.blockSize;
      SumAligned(q, remaining, c.blockSize);
    }
    if n > 0 {
      CapStepGood(c, hashes, L, a, computed, n, n, computed, remaining, whole);
    }
  }

  /** The context a later step reads from the cache: whole blocks of what has been computed. */
  function PhysicalContext(computed: nat, B: nat): nat
    requires B > 0
  {
    computed / B * B
  }

  /** A later step resumes exactly here: nothing is recomputed and nothing skipped. */
  ghost predicate WholeBlocks(computed: int, B: nat) {
    B > 0 && computed >= 0 && computed % B == 0 && PhysicalContext(computed, B) == computed
  }

  lemma WholeIsContext(computed: nat, B: nat)
    requires B > 0 && computed % B == 0
    ensures WholeBlocks(computed, B)
  {
    assert computed == computed / B * B;
  }

  /** Step ends tile (start, L], on whole blocks if whole, and pass no state still to be kept. */
  ghost predicate Tiles(c: Config, a: Attached, L: int, ends: seq<int>, whole: bool) {
    var start := RestoreTokens(a.restore, c.blockSize);
    && c.blockSize > 0 && Ascending(ends)
    && (forall i | 0 <= i < |ends| :: start < ends[i] <= L)
    && (whole ==> forall i | 0 <= i < |ends| && ends[i] < L :: WholeBlocks(ends[i], c.blockSize))
    && (c.policy.Admission64? ==> forall t, i | t in a.targets && 0 <= i < |ends| ::
          !(StepStart(ends, start, i) < Boundary(t, c.blockSize) < ends[i]))
  }

  lemma NoTilesYet(c: Config, a: Attached, L: int, whole: bool)
    requires c.blockSize > 0
    ensures Tiles(c, a, L, [], whole)
  {
  }

  lemma TileMore(c: Config, a: Attached, L: int, ends: seq<int>, remaining: nat, whole: bool, s: Step)
    requires c.blockSize > 0 && Tiles(c, a, L, ends, whole)
    requires var last := if |ends| == 0 then RestoreTokens(a.restore, c.blockSize) else ends[|ends| - 1];
             GoodStep(c, a, L, last, remaining, whole, s)
    ensures Tiles(c, a, L, ends + [s.end], whole)
  {
    hide Boundary, WholeBlocks;
    var start, more := RestoreTokens(a.restore, c.blockSize), ends + [s.end];
    forall i | 0 <= i < |more|
      ensures StepStart(more, start, i) == if i < |ends| then StepStart(ends, start, i)
                                           else if |ends| == 0 then start else ends[|ends| - 1]
    {
    }
    if whole && s.end < L {
      WholeIsContext(s.end, c.blockSize);
    }
  }

  // ---------- a whole prefill ----------

  predicate EndsAt(s: Step, end: int) {
    s.Step? && s.end == end
  }

  /** Step i of a prefill, under its budget, is the one the planners give. */
  predicate PlannedAt(c: Config, a: Attached, L: int, ends: seq<int>, budgets: nat -> nat, i: nat)
    requires ConfigOk(c) && i < |ends|
  {
    if i == 0 then EndsAt(FirstStep(c, a, L, budgets(0)), ends[0])
    else ends[i - 1] < L && EndsAt(NextStep(c, a, L, ends[i - 1], budgets(i)), ends[i])
  }

  predicate IsPlanned(c: Config, a: Attached, L: int, ends: seq<int>, budgets: nat -> nat)
    requires ConfigOk(c)
  {
    |ends| > 0 && ends[|ends| - 1] == L && forall i | 0 <= i < |ends| :: PlannedAt(c, a, L, ends, budgets, i)
  }

  ghost predicate WholeBudgets(budgets: nat -> nat, B: nat)
    requires B > 0
  {
    forall i :: budgets(i) % B == 0
  }

  /** A whole prefill under any supply of budgets of at least one block. It ends, and its steps tile the
      prompt from the restore point without gap or overlap, on whole blocks if the budgets are. */
  method RunPrefill(c: Config, hashes: seq<Digest>, L: nat, a: Attached, budgets: nat -> nat) returns (ends: seq<int>)
    requires ConfigOk(c) && AttachedOk(c, hashes, L, a) && L > 0
    requires forall i :: budgets(i) >= c.blockSize
    ensures IsPlanned(c, a, L, ends, budgets) && Tiles(c, a, L, ends, WholeBudgets(budgets, c.blockSize))
    ensures forall i | 0 <= i < |ends| ::
              ends[i] - StepStart(ends, RestoreTokens(a.restore, c.blockSize), i) <= budgets(i)
  {
    hide FirstStep, NextStep, AttachedOk, Boundary, Tiles, RestoreTokens, GoodStep, PlannedAt, NumNewTokens;
    var B, start := c.blockSize, RestoreTokens(a.restore, c.blockSize);
    ghost var whole := WholeBudgets(budgets, B);
    FirstTile(c, hashes, L, a, budgets, whole);
    ends := [FirstStep(c, a, L, budgets(0)).end];
    var computed := ends[0];
    while computed < L
      invariant |ends| > 0 && start < computed == ends[|ends| - 1] <= L
      invariant Tiles(c, a, L, ends, whole) && forall i | 0 <= i < |ends| :: PlannedAt(c, a, L, ends, budgets, i)
      invariant forall i | 0 <= i < |ends| :: ends[i] - StepStart(ends, start, i) <= budgets(i)
      decreases L - computed
    {
      ghost var before := ends;
      NextTile(c, hashes, L, a, ends, budgets, whole);
      computed := NextStep(c, a, L, computed, budgets(|ends|)).end;
      ends := ends + [computed];
      forall i | 0 <= i < |ends|
        ensures PlannedAt(c, a, L, ends, budgets, i)
      {
        assert i < |before| ==> PlannedAt(c, a, L, before, budgets, i);
        SamePlan(c, a, L, before, ends, budgets, i);
      }
    }
  }

  lemma SamePlan(c: Config, a: Attached, L: int, ends: seq<int>, more: seq<int>, budgets: nat -> nat, i: nat)
    requires ConfigOk(c) && |more| == |ends| + 1 && more[..|ends|] == ends && i < |more|
    requires i < |ends| ==> PlannedAt(c, a, L, ends, budgets, i)
    requires i == |ends| ==> i > 0 && ends[i - 1] < L && EndsAt(NextStep(c, a, L, ends[i - 1], budgets(i)), more[i])
    ensures PlannedAt(c, a, L, more, budgets, i)
  {
    hide FirstStep, NextStep;
    assert forall k | 0 <= k < |ends| :: more[k] == more[..|ends|][k];
  }

  lemma FirstTile(c: Config, hashes: seq<Digest>, L: nat, a: Attached, budgets: nat -> nat, whole: bool)
    requires ConfigOk(c) && AttachedOk(c, hashes, L, a) && L > 0 && budgets(0) >= c.blockSize
    requires whole ==> budgets(0) % c.blockSize == 0
    ensures var start, s := RestoreTokens(a.restore, c.blockSize), FirstStep(c, a, L, budgets(0));
            && s.Step? && start < s.end <= L && s.end - start <= budgets(0)
            && Tiles(c, a, L, [s.end], whole) && PlannedAt(c, a, L, [s.end], budgets, 0)
  {
    hide FirstStep, AttachedOk, Boundary, Tiles;
    NumNewTokensFits(L, budgets(0), c.blockSize);
    FirstStepGood(c, hashes, L, a, budgets(0));
    var s := FirstStep(c, a, L, budgets(0));
    NoTilesYet(c, a, L, whole);
    TileMore(c, a, L, [], budgets(0), whole, s);
    assert [] + [s.end] == [s.end];
  }

  lemma NextTile(c: Config, hashes: seq<Digest>, L: nat, a: Attached, ends: seq<int>, budgets: nat -> nat, whole: bool)
    requires ConfigOk(c) && AttachedOk(c, hashes, L, a) && |ends| > 0 && ends[|ends| - 1] < L
    requires budgets(|ends|) >= c.blockSize && (whole ==> budgets(|ends|) % c.blockSize == 0)
    requires Tiles(c, a, L, ends, whole)
    ensures var last, s := ends[|ends| - 1], NextStep(c, a, L, ends[|ends| - 1], budgets(|ends|));
            && s.Step? && last < s.end <= L && s.end - last <= budgets(|ends|) && Tiles(c, a, L, ends + [s.end], whole)
  {
    hide NextStep, AttachedOk, Boundary;
    var last := ends[|ends| - 1];
    NumNewTokensFits(L - last, budgets(|ends|), c.blockSize);
    NextStepGood(c, hashes, L, a, last, budgets(|ends|));
    hide Tiles;
    TileMore(c, a, L, ends, budgets(|ends|), whole, NextStep(c, a, L, last, budgets(|ends|)));
  }

  /** Every planned run is such a run. */
  lemma {:induction false} PlannedTiles(c: Config, hashes: seq<Digest>, L: nat, a: Attached, ends: seq<int>,
      budgets: nat -> nat, whole: bool, n: nat)
    requires ConfigOk(c) && AttachedOk(c, hashes, L, a) && L > 0 && IsPlanned(c, a, L, ends, budgets) && n <= |ends|
    requires forall i :: budgets(i) >= c.blockSize && (whole ==> budgets(i) % c.blockSize == 0)
    ensures Tiles(c, a, L, ends[..n], whole)
  {
    hide FirstStep, NextStep, AttachedOk, Tiles, ConfigOk;
    if n == 0 {
      ConfigBlocks(c);
      NoTilesYet(c, a, L, whole);
    } else {
      PlannedTiles(c, hashes, L, a, ends, budgets, whole, n - 1);
      assert PlannedAt(c, a, L, ends, budgets, n - 1);
      assert ends[..n] == ends[..n - 1] + [ends[n - 1]];
      if n == 1 {
        FirstTile(c, hashes, L, a, budgets, whole);
        assert ends[..1] == [FirstStep(c, a, L, budgets(0)).end];
      } else {
        NextTile(c, hashes, L, a, ends[..n - 1], budgets, whole);
      }
    }
  }

  lemma ConfigBlocks(c: Config)
    requires ConfigOk(c)
    ensures c.blockSize > 0 && c.chunkTokens > 0
  {
  }

  /** Each state to be kept is reached by exactly one step, and exactly at that step's end. */
  lemma CapturedOnce(c: Config, hashes: seq<Digest>, L: int, a: Attached, ends: seq<int>, t: PrefixKey) returns (i: nat)
    requires ConfigOk(c) && AttachedOk(c, hashes, L, a) && c.policy.Admission64? && t in a.targets
    requires Tiles(c, a, L, ends, false) && |ends| > 0 && ends[|ends| - 1] == L
    ensures i < |ends| && ends[i] == Boundary(t, c.blockSize)
    ensures var start := RestoreTokens(a.restore, c.blockSize);
            forall j | 0 <= j < |ends| :: StepStart(ends, start, j) < Boundary(t, c.blockSize) <= ends[j] <==> j == i
  {
    i := Locate(ends, RestoreTokens(a.restore, c.blockSize), Boundary(t, c.blockSize));
  }
}
