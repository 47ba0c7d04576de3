/** The run that the segment boundaries are meant to reproduce: an uninterrupted prefill under fine32 and direct, which
    is cut where its steps end and where it captures their states. */
module GdnColdRun {
  import opened GdnPolicy
  import opened GdnPrefix
  import opened GdnProtocol
  import opened GdnScheduling
  import opened GdnSegments
  import opened IntFacts
  import opened Sequences

  /** Nothing to restore, a whole chunk for every step. */
  ghost predicate IsColdRun(c: Config, hashes: seq<Digest>, L: nat, a: Attached, ends: seq<int>)
    requires ConfigOk(c)
  {
    && c.policy.Fine32? && c.mode.Direct? && a.restore.None? && L > 0 && AttachedOk(c, hashes, L, a)
    && |hashes| >= (L - 1) / c.blockSize && IsPlanned(c, a, L, ends, FullBudget(c))
  }

  /** The worker's forward pass is cut at b: a step ends there or captures the state there. */
  ghost predicate IsRunCut(c: Config, hashes: seq<Digest>, a: Attached, ends: seq<int>, b: int)
    requires ConfigOk(c)
  {
    exists i :: 0 <= i < |ends| && StepIsCut(c, hashes, a, ends, b, i)
  }

  ghost predicate StepIsCut(c: Config, hashes: seq<Digest>, a: Attached, ends: seq<int>, b: int, i: nat)
    requires ConfigOk(c) && i < |ends|
  {
    var start := StepStart(ends, 0, i);
    b == ends[i] || (0 <= start < ends[i] &&
      exists p :: p in PointsOf(c, hashes, a, start, ends[i]) && b == start + p.offset)
  }

  /** Its steps end at the multiples of the chunk and at the prompt's end. */
  lemma {:induction false} ColdEnds(c: Config, hashes: seq<Digest>, L: nat, a: Attached, ends: seq<int>, i: nat)
    requires ConfigOk(c) && IsColdRun(c, hashes, L, a, ends) && i < |ends|
    ensures var start := StepStart(ends, 0, i);
            0 <= start < L && start % c.chunkTokens == 0 && ends[i] == Min(L, start + c.chunkTokens)
  {
    hide FirstStep, NextStep, CapStep, AttachedOk;
    var C := c.chunkTokens;
    assert PlannedAt(c, a, L, ends, FullBudget(c), i);
    if i == 0 {
      FirstColdStep(c, L, a);
    } else {
      ColdEnds(c, hashes, L, a, ends, i - 1);
      var s := ends[i - 1];
      MultipleAfter(StepStart(ends, 0, i - 1), C);
      assert s < L;
      LaterEnd(c, L, a, s);
      Uncapped(c, a, s, Min(L, s + C) - s, Min(L, s + C) - s);
    }
  }

  lemma FirstColdStep(c: Config, L: nat, a: Attached)
    requires ConfigOk(c) && c.policy.Fine32? && a.restore.None? && L > 0
    ensures FirstStep(c, a, L, c.chunkTokens) == Step(Min(L, c.chunkTokens), Min(L, c.chunkTokens))
  {
    FullIsWhole(c);
    NumNewTokensFits(L, c.chunkTokens, c.blockSize);
  }

  /** A step captures at most the state at the direct capture boundary of its end. */
  lemma ColdPoint(c: Config, hashes: seq<Digest>, a: Attached, start: nat, e: nat, b: int)
    requires ConfigOk(c) && c.policy.Fine32? && c.mode.Direct? && start < e
    ensures (exists p :: p in PointsOf(c, hashes, a, start, e) && b == start + p.offset) <==>
              start < b <= e && CaptureTokens(hashes, e, c.blockSize) == b
  {
    hide FinalCaptureKey, SelectPoints, FinalKey;
    DirectKey(c, hashes, e);
    var key := FinalKey(c, hashes, e);
    if key.Some? {
      OneTarget(key.value, start, e, c.blockSize);
      var p := CapturePoint(Boundary(key.value, c.blockSize) - start, key.value);
      assert p in [p];
    } else {
      NoTarget(start, e, c.blockSize);
    }
  }

  lemma DirectKey(c: Config, hashes: seq<Digest>, e: nat)
    requires ConfigOk(c) && c.mode.Direct?
    ensures FinalKey(c, hashes, e) == FinalCaptureKey(hashes, e, c.blockSize, Direct, c.blockSize)
  {
  }

  lemma OneTarget(k: PrefixKey, start: nat, e: nat, B: nat)
    ensures SelectPoints([k], start, e, B) ==
              if start < Boundary(k, B) <= e then [CapturePoint(Boundary(k, B) - start, k)] else []
  {
    assert [k][..0] == [];
  }

  lemma NoTarget(start: nat, e: nat, B: nat)
    ensures SelectPoints([], start, e, B) == []
  {
  }

  /** Inside a step the boundaries are the capture of its end alone. */
  lemma OnlyCapture(hashes: seq<Digest>, start: nat, e: nat, B: nat, C: nat, b: int)
    requires B > 0 && C > 0 && C % B == 0 && start % C == 0 && start < b < e <= start + C && |hashes| >= (e - 1) / B
    ensures IsBoundary(hashes, b, e, B, C) <==> CaptureTokens(hashes, e, B) == b
  {
    hide CaptureTokens, Replayable, IsBoundary;
    BoundaryIsCut(hashes, b, e, B, C);
    CaptureIsReplayable(hashes, e, B);
    if b % C == 0 {
      MultiplesApart(start, b, C);
    }
    if (b + Gap(B)) % C == 0 && b + Gap(B) < e {
      MultiplesApart(start, b + Gap(B), C);
    }
  }

  lemma CutIsWarm(c: Config, hashes: seq<Digest>, L: nat, a: Attached, ends: seq<int>, b: int)
    requires ConfigOk(c) && IsColdRun(c, hashes, L, a, ends)
    ensures IsRunCut(c, hashes, a, ends, b) <==> IsWarm(hashes, ends, 0, c.blockSize, c.chunkTokens, b)
  {
    hide IsPlanned, AttachedOk, IsBoundary, CaptureTokens, PointsOf;
    forall i | 0 <= i < |ends|
      ensures StepIsCut(c, hashes, a, ends, b, i) <==>
                WarmInStep(hashes, ends, 0, c.blockSize, c.chunkTokens, b, i)
    {
      StepCutIsWarm(c, hashes, L, a, ends, b, i);
    }
  }

  lemma StepCutIsWarm(c: Config, hashes: seq<Digest>, L: nat, a: Attached, ends: seq<int>, b: int, i: nat)
    requires ConfigOk(c) && IsColdRun(c, hashes, L, a, ends) && i < |ends|
    ensures StepIsCut(c, hashes, a, ends, b, i) <==>
              WarmInStep(hashes, ends, 0, c.blockSize, c.chunkTokens, b, i)
  {
    hide IsPlanned, AttachedOk, IsBoundary, CaptureTokens, PointsOf;
    ColdEnds(c, hashes, L, a, ends, i);
    var start, e := StepStart(ends, 0, i), ends[i];
    ColdPoint(c, hashes, a, start, e, b);
    if start < b < e {
      CoverShorter(hashes, e, L, c.blockSize);
      OnlyCapture(hashes, start, e, c.blockSize, c.chunkTokens, b);
    }
  }

  /** The boundaries reproduce the cuts of the cold run, except in the one case with one-token blocks. */
  lemma BoundariesAreCuts(c: Config, hashes: seq<Digest>, L: nat, a: Attached, ends: seq<int>)
    requires ConfigOk(c) && IsColdRun(c, hashes, L, a, ends)
    ensures (forall b | 0 < b ::
               IsRunCut(c, hashes, a, ends, b) <==> IsCold(hashes, L, c.blockSize, c.chunkTokens, b))
            <==> !MissesBoundary(ends, 0, L, c.blockSize, c.chunkTokens)
  {
    hide IsPlanned, AttachedOk, IsWarm, IsCold, IsRunCut;
    PlannedIsBlockRun(c, hashes, L, a, ends);
    forall i | 0 <= i < |ends|
      ensures ends[i] == L || ends[i] % c.chunkTokens == 0
    {
      ColdEnds(c, hashes, L, a, ends, i);
      MultipleAfter(StepStart(ends, 0, i), c.chunkTokens);
    }
    forall b | 0 < b
      ensures IsRunCut(c, hashes, a, ends, b) <==> IsWarm(hashes, ends, 0, c.blockSize, c.chunkTokens, b)
    {
      CutIsWarm(c, hashes, L, a, ends, b);
    }
    ChunkRunEqualsCold(hashes, ends, 0, L, c.blockSize, c.chunkTokens);
  }

  const ONE_TOKEN_BLOCKS := Config(1, 4, Direct, Fine32)
  const FOUR_HASHES: seq<Digest> := [[1], [2], [3], [4]]

  /** With one-token blocks the cold run of a prompt of five tokens is not cut at three, although the offsets are. */
  lemma ColdRunMissesBoundary()
    ensures ConfigOk(ONE_TOKEN_BLOCKS) && IsColdRun(ONE_TOKEN_BLOCKS, FOUR_HASHES, 5, Attached(None, []), [4, 5])
    ensures IsCold(FOUR_HASHES, 5, 1, 4, 3)
    ensures !IsRunCut(ONE_TOKEN_BLOCKS, FOUR_HASHES, Attached(None, []), [4, 5], 3)
  {
    FiveTokens();
    hide IsRunCut, IsWarm, IsCold, IsColdRun;
    FiveTokensCut();
    CutIsWarm(ONE_TOKEN_BLOCKS, FOUR_HASHES, 5, Attached(None, []), [4, 5], 3);
  }

  lemma FiveTokens()
    ensures ConfigOk(ONE_TOKEN_BLOCKS) && IsColdRun(ONE_TOKEN_BLOCKS, FOUR_HASHES, 5, Attached(None, []), [4, 5])
  {
    var c, a, ends := ONE_TOKEN_BLOCKS, Attached(None, []), [4, 5];
    assert PlannedAt(c, a, 5, ends, FullBudget(c), 0) && PlannedAt(c, a, 5, ends, FullBudget(c), 1);
  }

  lemma FiveTokensCut()
    ensures IsCold(FOUR_HASHES, 5, 1, 4, 3) && !IsWarm(FOUR_HASHES, [4, 5], 0, 1, 4, 3)
  {
    hide IsCold, IsWarm;
    assert IsBlockRun([4, 5], 0, 5, 1);
    WarmIsCut(FOUR_HASHES, [4, 5], 0, 5, 1, 4, 3, 0);
    ColdIsCanonical(FOUR_HASHES, 5, 1, 4, 3);
  }
}
