/** Segment boundaries of the runs the planners really produce: a prefill with whole chunks to spend resumes at a
    checkpoint, stops at the states it has to capture, and is cut like an uninterrupted run or not. */
module GdnSegments {
  import opened GdnPolicy
  import opened GdnPrefix
  import opened GdnScheduling
  import opened IntFacts
  import opened Sequences

  /** Every step has a whole chunk to spend. */
  function FullBudget(c: Config): nat -> nat {
    i => c.chunkTokens
  }

  lemma FullIsWhole(c: Config)
    requires ConfigOk(c)
    ensures forall i :: FullBudget(c)(i) >= c.blockSize && FullBudget(c)(i) % c.blockSize == 0
  {
    MultiplesOrderedBlock(c.chunkTokens, c.blockSize);
  }

  lemma PlannedIsBlockRun(c: Config, hashes: seq<Digest>, L: nat, a: Attached, ends: seq<int>)
    requires ConfigOk(c) && AttachedOk(c, hashes, L, a) && L > 0 && IsPlanned(c, a, L, ends, FullBudget(c))
    ensures IsBlockRun(ends, RestoreTokens(a.restore, c.blockSize), L, c.blockSize)
  {
    hide IsPlanned, AttachedOk, RestoreTokens;
    FullIsWhole(c);
    PlannedEnds(c, a, L, ends, FullBudget(c));
    PlannedTiles(c, hashes, L, a, ends, FullBudget(c), true, |ends|);
    assert ends[..|ends|] == ends;
  }

  lemma PlannedEnds(c: Config, a: Attached, L: int, ends: seq<int>, budgets: nat -> nat)
    requires ConfigOk(c) && IsPlanned(c, a, L, ends, budgets)
    ensures |ends| > 0 && ends[|ends| - 1] == L
  {
  }

  /** The exact condition for a planned run: it cuts the cold boundaries past its checkpoint if and only if each
      of its step ends fits them. */
  lemma PlannedEqualsCold(c: Config, hashes: seq<Digest>, L: nat, a: Attached, ends: seq<int>)
    requires ConfigOk(c) && AttachedOk(c, hashes, L, a) && L > 0 && IsPlanned(c, a, L, ends, FullBudget(c))
    requires |hashes| >= (L - 1) / c.blockSize
    ensures var from := RestoreTokens(a.restore, c.blockSize);
            (forall b | from < b ::
               IsWarm(hashes, ends, from, c.blockSize, c.chunkTokens, b) <==>
                 IsCold(hashes, L, c.blockSize, c.chunkTokens, b))
            <==> forall i | 0 <= i < |ends| ::
                   StepFits(StepStart(ends, from, i), ends[i], L, c.blockSize, c.chunkTokens)
  {
    hide IsPlanned, AttachedOk, IsWarm, IsCold, StepFits;
    PlannedIsBlockRun(c, hashes, L, a, ends);
    WarmEqualsCold(hashes, ends, RestoreTokens(a.restore, c.blockSize), L, c.blockSize, c.chunkTokens);
  }

  /** A step end is a multiple of the chunk or the prompt's end; or it captures a state on a cold boundary, and its
      own capture boundary lies before the step or on a multiple of the chunk. */
  predicate CaptureFits(start: int, e: int, L: int, B: nat, C: nat)
    requires B > 0 && C > 0
  {
    e == L || e % C == 0 || (Canonical(e, L, B, C) && (e - B <= start || (e - B) % C == 0))
  }

  /** With blocks of at least two tokens only the captures off the chunk grid decide. */
  lemma CapturesDecide(c: Config, hashes: seq<Digest>, L: nat, a: Attached, ends: seq<int>)
    requires ConfigOk(c) && AttachedOk(c, hashes, L, a) && L > 0 && IsPlanned(c, a, L, ends, FullBudget(c))
    requires |hashes| >= (L - 1) / c.blockSize && c.blockSize >= 2
    ensures var from, B, C := RestoreTokens(a.restore, c.blockSize), c.blockSize, c.chunkTokens;
            (forall b | from < b :: IsWarm(hashes, ends, from, B, C, b) <==> IsCold(hashes, L, B, C, b))
            <==> forall i | 0 <= i < |ends| :: CaptureFits(StepStart(ends, from, i), ends[i], L, B, C)
  {
    hide IsPlanned, AttachedOk, IsWarm, IsCold, StepFits, RestoreTokens, CaptureFits;
    var from, B, C := RestoreTokens(a.restore, c.blockSize), c.blockSize, c.chunkTokens;
    PlannedEqualsCold(c, hashes, L, a, ends);
    PlannedIsBlockRun(c, hashes, L, a, ends);
    forall i | 0 <= i < |ends|
      ensures StepFits(StepStart(ends, from, i), ends[i], L, B, C) <==>
                CaptureFits(StepStart(ends, from, i), ends[i], L, B, C)
    {
      CaptureFitsIs(StepStart(ends, from, i), ends[i], L, B, C);
    }
  }

  lemma CaptureFitsIs(start: int, e: int, L: int, B: nat, C: nat)
    requires B >= 2 && C > 0 && C % B == 0 && 0 <= start < e <= L && (e == L || e % B == 0)
    ensures StepFits(start, e, L, B, C) <==> CaptureFits(start, e, L, B, C)
  {
    hide StepFits, Canonical;
    if e == L {
      LastStepFits(start, L, B, C);
    } else {
      WhenStepFits(start, e, L, B, C);
    }
  }

  // ---------- where hybrid64 steps end ----------

  function NextMultiple(x: nat, C: nat): nat
    requires C > 0
  {
    (x / C + 1) * C
  }

  lemma NextMultipleIs(x: nat, C: nat)
    requires C > 0
    ensures x < NextMultiple(x, C) <= x + C && NextMultiple(x, C) % C == 0
  {
    var q := x / C;
    assert x == q * C + x % C;
    assert (q + 1) * C == q * C + C;
    MultipleDivides(q + 1, C);
  }

  /** The first step under hybrid64 runs to the next multiple of the chunk, or to the end of the prompt, unless it
      meets a state to capture. */
  lemma HybridFirst(c: Config, hashes: seq<Digest>, L: nat, a: Attached)
    requires ConfigOk(c) && AttachedOk(c, hashes, L, a) && L > 0 && c.mode.Hybrid64?
    ensures var from := RestoreTokens(a.restore, c.blockSize);
            var end := Min(L, NextMultiple(from, c.chunkTokens));
            FirstStep(c, a, L, c.chunkTokens) == CapStep(c, a.targets, 0, end, end - from)
  {
    hide CapStep;
    var B, C, from := c.blockSize, c.chunkTokens, RestoreTokens(a.restore, c.blockSize);
    FullIsWhole(c);
    NumNewTokensFits(L, C, B);
    NextMultipleIs(from, C);
    if a.restore.Some? {
      CheckpointPositive(a.restore.value, B);
    } else {
      NextOfZero(C);
    }
  }

  lemma CheckpointPositive(k: PrefixKey, B: nat)
    requires B > 0 && k.blocks > 0
    ensures Boundary(k, B) > 0 && k.blocks * B == Boundary(k, B)
  {
    MultiplesMonotone(1, k.blocks, B);
  }

  lemma NextOfZero(C: nat)
    requires C > 0
    ensures NextMultiple(0, C) == C
  {
  }

  lemma LaterEnd(c: Config, L: int, a: Attached, computed: nat)
    requires ConfigOk(c) && computed < L
    ensures var end := Min(L, computed + c.chunkTokens);
            NextStep(c, a, L, computed, c.chunkTokens) ==
              CapStep(c, a.targets, computed, end - computed, end - computed)
  {
    hide CapStep;
    FullIsWhole(c);
    NumNewTokensFits(L - computed, c.chunkTokens, c.blockSize);
  }

  predicate Captures(c: Config, a: Attached) {
    c.policy.Admission64? && a.targets != []
  }

  lemma Uncapped(c: Config, a: Attached, computed: int, chunk: int, physical: int)
    requires !Captures(c, a)
    ensures CapStep(c, a.targets, computed, chunk, physical) == Step(computed + chunk, physical)
  {
  }

  lemma MultipleAfter(x: nat, C: nat)
    requires C > 0 && x % C == 0
    ensures (x + C) % C == 0
  {
    NoMultipleBetween(x, C);
  }

  /** Without states to capture every step ends on a multiple of the chunk or at the prompt's end. */
  lemma {:induction false} UncappedEnds(c: Config, hashes: seq<Digest>, L: nat, a: Attached, ends: seq<int>, i: nat)
    requires ConfigOk(c) && AttachedOk(c, hashes, L, a) && L > 0 && c.mode.Hybrid64? && !Captures(c, a)
    requires IsPlanned(c, a, L, ends, FullBudget(c)) && i < |ends|
    ensures ends[i] == L || (ends[i] >= 0 && ends[i] % c.chunkTokens == 0)
  {
    hide FirstStep, NextStep, CapStep, AttachedOk, RestoreTokens, Captures;
    assert PlannedAt(c, a, L, ends, FullBudget(c), i);
    if i == 0 {
      var from := RestoreTokens(a.restore, c.blockSize);
      HybridFirst(c, hashes, L, a);
      NextMultipleIs(from, c.chunkTokens);
      var end := Min(L, NextMultiple(from, c.chunkTokens));
      Uncapped(c, a, 0, end, end - from);
    } else {
      UncappedEnds(c, hashes, L, a, ends, i - 1);
      var s := ends[i - 1];
      LaterEnd(c, L, a, s);
      MultipleAfter(s, c.chunkTokens);
      var end := Min(L, s + c.chunkTokens);
      Uncapped(c, a, s, end - s, end - s);
    }
  }

  /** A resumed run with nothing to capture cuts exactly the cold boundaries past its checkpoint, save for the one
      case with one-token blocks. */
  lemma NothingToCapture(c: Config, hashes: seq<Digest>, L: nat, a: Attached, ends: seq<int>)
    requires ConfigOk(c) && AttachedOk(c, hashes, L, a) && L > 0 && c.mode.Hybrid64? && !Captures(c, a)
    requires IsPlanned(c, a, L, ends, FullBudget(c)) && |hashes| >= (L - 1) / c.blockSize
    ensures var from := RestoreTokens(a.restore, c.blockSize);
            (forall b | from < b ::
               IsWarm(hashes, ends, from, c.blockSize, c.chunkTokens, b) <==>
                 IsCold(hashes, L, c.blockSize, c.chunkTokens, b))
            <==> !MissesBoundary(ends, from, L, c.blockSize, c.chunkTokens)
  {
    hide IsPlanned, AttachedOk, IsWarm, IsCold, Captures;
    PlannedIsBlockRun(c, hashes, L, a, ends);
    forall i | 0 <= i < |ends|
      ensures ends[i] == L || ends[i] % c.chunkTokens == 0
    {
      UncappedEnds(c, hashes, L, a, ends, i);
    }
    ChunkRunEqualsCold(hashes, ends, RestoreTokens(a.restore, c.blockSize), L, c.blockSize, c.chunkTokens);
  }

  // ---------- a pending final state ----------

  /** The one state to capture is the final one: the longest prefix a later request could restore. */
  predicate OnlyFinal(c: Config, hashes: seq<Digest>, L: int, a: Attached)
    requires ConfigOk(c)
  {
    FinalKey(c, hashes, L).Some? && a.targets == [FinalKey(c, hashes, L).value]
  }

  lemma CappedAtOne(c: Config, t: PrefixKey, computed: int, chunk: int, physical: int)
    requires c.policy.Admission64? && 0 < physical <= chunk
    ensures var end, f := computed + chunk, Boundary(t, c.blockSize);
            EndsAt(CapStep(c, [t], computed, chunk, physical), if end - physical < f < end then f else end)
  {
    assert [t][..0] == [];
    assert CapEnd(computed + chunk - physical, computed + chunk, [], c.blockSize) == computed + chunk;
  }

  lemma FinalAt(c: Config, hashes: seq<Digest>, L: int)
    requires ConfigOk(c) && c.mode.Hybrid64? && L > 0 && FinalKey(c, hashes, L).Some?
    requires |hashes| >= (L - 1) / c.blockSize
    ensures var f := Boundary(FinalKey(c, hashes, L).value, c.blockSize);
            0 < f == Replayable(L, c.blockSize) && f % c.blockSize == 0
  {
    hide Replayable;
    SameForHybrid(c, hashes, L);
    CaptureIsReplayable(hashes, L, c.blockSize);
    var k := FinalKey(c, hashes, L).value;
    FinalInside(c, hashes, L);
    CheckpointPositive(k, c.blockSize);
    MultipleDivides(k.blocks, c.blockSize);
  }

  /** With at least two blocks in a chunk the rest of the prompt after the final state is one step. */
  lemma RestIsShort(L: nat, B: nat)
    requires B > 0 && L > 0 && Replayable(L, B) > 0
    ensures 0 < L - Replayable(L, B) <= if B == 1 then 2 else B + 1
  {
    var s := (L - 1) / B;
    assert L - 1 == s * B + (L - 1) % B;
    assert (s - 1) * B == s * B - B;
  }

  ghost predicate FinalShape(e: int, f: int, L: int, C: nat)
    requires C > 0
  {
    e == L || e == f || (e >= 0 && e % C == 0)
  }

  lemma {:induction false} FinalEnds(c: Config, hashes: seq<Digest>, L: nat, a: Attached, ends: seq<int>, i: nat)
    requires ConfigOk(c) && AttachedOk(c, hashes, L, a) && L > 0 && c.mode.Hybrid64? && c.policy.Admission64?
    requires OnlyFinal(c, hashes, L, a) && |hashes| >= (L - 1) / c.blockSize && c.blockSize >= 2
    requires IsPlanned(c, a, L, ends, FullBudget(c)) && i < |ends|
    ensures FinalShape(ends[i], Boundary(a.targets[0], c.blockSize), L, c.chunkTokens)
  {
    hide FirstStep, NextStep, CapStep, AttachedOk, RestoreTokens, Boundary, FinalKey, Replayable;
    assert PlannedAt(c, a, L, ends, FullBudget(c), i);
    var t, C := a.targets[0], c.chunkTokens;
    var f := Boundary(t, c.blockSize);
    FinalAt(c, hashes, L);
    if i == 0 {
      var from := RestoreTokens(a.restore, c.blockSize);
      HybridFirst(c, hashes, L, a);
      NextMultipleIs(from, C);
      var end := Min(L, NextMultiple(from, C));
      RestoreBelow(c, hashes, L, a);
      CappedAtOne(c, t, 0, end, end - from);
    } else {
      FinalEnds(c, hashes, L, a, ends, i - 1);
      var s := ends[i - 1];
      LaterEnd(c, L, a, s);
      var end := Min(L, s + C);
      CappedAtOne(c, t, s, end - s, end - s);
      if s % C == 0 {
        MultipleAfter(s, C);
      } else {
        RestIsShort(L, c.blockSize);
        TwoBlocks(f, c.blockSize, C);
      }
    }
  }

  lemma TwoBlocks(f: nat, B: nat, C: nat)
    requires B > 0 && C > 0 && C % B == 0 && f % B == 0 && f % C != 0
    ensures C >= B + B
  {
    MultiplesOrderedBlock(C, B);
    if C > B {
      DivModUnique(B, 1, 0, B);
      MultiplesApart(B, C, B);
    }
  }

  lemma RestoreBelow(c: Config, hashes: seq<Digest>, L: nat, a: Attached)
    requires ConfigOk(c) && AttachedOk(c, hashes, L, a) && L > 0
    ensures RestoreTokens(a.restore, c.blockSize) < L
    ensures RestoreTokens(a.restore, c.blockSize) % c.blockSize == 0
  {
    if a.restore.Some? {
      MultipleDivides(a.restore.value.blocks, c.blockSize);
    }
  }

  /** A multiple of the chunk, one block past one, or one block past the checkpoint. */
  predicate GoodSpot(f: int, from: int, B: nat, C: nat)
    requires C > 0
  {
    f % C == 0 || (f - B) % C == 0 || f == from + B
  }

  /** While its final state is still to be captured, a resumed run cuts exactly the cold boundaries if and only
      if the final state stands on a good spot. Otherwise the step that stops there adds a boundary of its own. */
  lemma FinalToCapture(c: Config, hashes: seq<Digest>, L: nat, a: Attached, ends: seq<int>)
    requires ConfigOk(c) && AttachedOk(c, hashes, L, a) && L > 0 && c.mode.Hybrid64? && c.policy.Admission64?
    requires OnlyFinal(c, hashes, L, a) && |hashes| >= (L - 1) / c.blockSize && c.blockSize >= 2
    requires IsPlanned(c, a, L, ends, FullBudget(c))
    ensures var from, B, C := RestoreTokens(a.restore, c.blockSize), c.blockSize, c.chunkTokens;
            (forall b | from < b :: IsWarm(hashes, ends, from, B, C, b) <==> IsCold(hashes, L, B, C, b))
            <==> GoodSpot(Boundary(a.targets[0], B), from, B, C)
  {
    hide *;
    FinalFits(c, hashes, L, a, ends);
    PlannedEqualsCold(c, hashes, L, a, ends);
  }

  lemma FinalFits(c: Config, hashes: seq<Digest>, L: nat, a: Attached, ends: seq<int>)
    requires ConfigOk(c) && AttachedOk(c, hashes, L, a) && L > 0 && c.mode.Hybrid64? && c.policy.Admission64?
    requires OnlyFinal(c, hashes, L, a) && |hashes| >= (L - 1) / c.blockSize && c.blockSize >= 2
    requires IsPlanned(c, a, L, ends, FullBudget(c))
    ensures var from, B, C := RestoreTokens(a.restore, c.blockSize), c.blockSize, c.chunkTokens;
            (forall i | 0 <= i < |ends| :: StepFits(StepStart(ends, from, i), ends[i], L, B, C))
            <==> GoodSpot(Boundary(a.targets[0], B), from, B, C)
  {
    hide IsPlanned, AttachedOk, StepFits, Boundary, RestoreTokens, FinalKey, StepStart, GoodSpot;
    var from, B, C := RestoreTokens(a.restore, c.blockSize), c.blockSize, c.chunkTokens;
    var at := FinalIsReached(c, hashes, L, a, ends);
    FinalSpot(c, hashes, L, a, ends, at);
    forall i | 0 <= i < |ends| && i != at
      ensures StepFits(StepStart(ends, from, i), ends[i], L, B, C)
    {
      OtherStepFits(c, hashes, L, a, ends, at, i);
    }
  }

  lemma FinalIsReached(c: Config, hashes: seq<Digest>, L: nat, a: Attached, ends: seq<int>) returns (at: nat)
    requires ConfigOk(c) && AttachedOk(c, hashes, L, a) && L > 0 && c.policy.Admission64? && OnlyFinal(c, hashes, L, a)
    requires IsPlanned(c, a, L, ends, FullBudget(c))
    ensures at < |ends| && ends[at] == Boundary(a.targets[0], c.blockSize)
  {
    hide IsPlanned, AttachedOk, Tiles, FinalKey;
    FullIsWhole(c);
    PlannedEnds(c, a, L, ends, FullBudget(c));
    PlannedTiles(c, hashes, L, a, ends, FullBudget(c), false, |ends|);
    assert ends[..|ends|] == ends;
    at := CapturedOnce(c, hashes, L, a, ends, a.targets[0]);
  }

  lemma OtherStepFits(c: Config, hashes: seq<Digest>, L: nat, a: Attached, ends: seq<int>, at: nat, i: nat)
    requires ConfigOk(c) && AttachedOk(c, hashes, L, a) && L > 0 && c.mode.Hybrid64? && c.policy.Admission64?
    requires OnlyFinal(c, hashes, L, a) && |hashes| >= (L - 1) / c.blockSize && c.blockSize >= 2
    requires IsPlanned(c, a, L, ends, FullBudget(c)) && i < |ends| && at < |ends| && i != at
    requires ends[at] == Boundary(a.targets[0], c.blockSize)
    ensures StepFits(StepStart(ends, RestoreTokens(a.restore, c.blockSize), i), ends[i], L, c.blockSize, c.chunkTokens)
  {
    hide IsPlanned, AttachedOk, StepFits, Boundary, FinalKey, RestoreTokens, OnlyFinal;
    var from, B, C := RestoreTokens(a.restore, c.blockSize), c.blockSize, c.chunkTokens;
    PlannedIsBlockRun(c, hashes, L, a, ends);
    FinalEnds(c, hashes, L, a, ends, i);
    if ends[i] == L {
      LastStepFits(StepStart(ends, from, i), L, B, C);
    } else {
      ChunkStepFits(StepStart(ends, from, i), ends[i], L, B, C);
    }
  }

  /** The step that stops at the final state. */
  lemma FinalSpot(c: Config, hashes: seq<Digest>, L: nat, a: Attached, ends: seq<int>, at: nat)
    requires ConfigOk(c) && AttachedOk(c, hashes, L, a) && L > 0 && c.mode.Hybrid64? && c.policy.Admission64?
    requires OnlyFinal(c, hashes, L, a) && |hashes| >= (L - 1) / c.blockSize && c.blockSize >= 2
    requires IsPlanned(c, a, L, ends, FullBudget(c)) && at < |ends| && ends[at] == Boundary(a.targets[0], c.blockSize)
    ensures var from, B, C := RestoreTokens(a.restore, c.blockSize), c.blockSize, c.chunkTokens;
            StepFits(StepStart(ends, from, at), ends[at], L, B, C) <==> GoodSpot(ends[at], from, B, C)
  {
    hide IsPlanned, AttachedOk, StepFits, Boundary, FinalKey, RestoreTokens, Replayable, GoodSpot;
    var from, B, C := RestoreTokens(a.restore, c.blockSize), c.blockSize, c.chunkTokens;
    PlannedIsBlockRun(c, hashes, L, a, ends);
    FinalAt(c, hashes, L);
    RestIsShort(L, B);
    RestoreBelow(c, hashes, L, a);
    if at > 0 {
      FinalEnds(c, hashes, L, a, ends, at - 1);
    }
    var start := StepStart(ends, from, at);
    StepBefore(start, from, ends[at], L, B, C);
  }

  lemma StepBefore(start: int, from: int, f: int, L: nat, B: nat, C: nat)
    requires B >= 2 && C > 0 && C % B == 0 && 0 <= from <= start < f < L && f == Replayable(L, B)
    requires f % B == 0 && start % B == 0 && (start == from || start % C == 0)
    ensures StepFits(start, f, L, B, C) <==> GoodSpot(f, from, B, C)
  {
    hide StepFits, Replayable;
    WhenStepFits(start, f, L, B, C);
    assert Canonical(f, L, B, C);
    MultiplesApart(start, f, B);
  }

  // ---------- a run that differs ----------

  const HYBRID := Config(16, 64, Hybrid64, Admission64)
  const SIX_BLOCKS: seq<Digest> := [[1], [2], [3], [4], [5], [6]]
  const FOUR := PrefixKey(4, [4])
  const SIX := PrefixKey(6, [6])

  /** With ordinary block sizes the two sets of boundaries can differ. A prompt of 100 tokens resumes at 64 and has
      its longest prefix, at 96, to capture: a step stops there and brings its own capture boundary, at 80. */
  lemma CappedRunAddsBoundary()
    ensures ConfigOk(HYBRID) && Attach(HYBRID, SIX_BLOCKS, 100, 4, [FOUR]) == Attached(Some(FOUR), [SIX])
    ensures IsPlanned(HYBRID, Attached(Some(FOUR), [SIX]), 100, [96, 100], FullBudget(HYBRID))
    ensures IsWarm(SIX_BLOCKS, [96, 100], 64, 16, 64, 80) && !IsCold(SIX_BLOCKS, 100, 16, 64, 80)
  {
    hide *;
    CappedAttach();
    CappedPlan();
    CappedCuts();
  }

  lemma CappedAttach()
    ensures ConfigOk(HYBRID) && Attach(HYBRID, SIX_BLOCKS, 100, 4, [FOUR]) == Attached(Some(FOUR), [SIX])
  {
    hide LiveKeys, FinalKey, MoveToEnd;
    CappedFinal();
    CappedLive();
    assert [FOUR][..0] == [];
    OnlyKeyMoved();
  }

  lemma OnlyKeyMoved()
    ensures MoveToEnd([FOUR], FOUR) == [FOUR]
  {
  }

  lemma CappedFinal()
    ensures ConfigOk(HYBRID) && FinalKey(HYBRID, SIX_BLOCKS, 100) == Some(SIX)
    ensures DirectFinal(HYBRID, SIX_BLOCKS, 100) == Some(SIX) && MaxLive(HYBRID, SIX_BLOCKS, 100, 4) == 4
  {
  }

  lemma CappedLive()
    ensures ConfigOk(HYBRID) && LiveKeys(HYBRID, SIX_BLOCKS, 100, 4) == [FOUR]
  {
    hide DirectFinal, MaxLive, FinalKey;
    CappedFinal();
    var keys := [PrefixKey(1, [1]), PrefixKey(2, [2]), PrefixKey(3, [3]), FOUR];
    assert KeysFromBlockHashes(SIX_BLOCKS[..4]) == keys;
    assert keys[..3][..2] == keys[..2] && keys[..2][..1] == keys[..1] && keys[..1][..0] == [];
    assert EligibleKeys(keys[..1], HYBRID, SIX_BLOCKS, 100) == [];
    assert EligibleKeys(keys[..2], HYBRID, SIX_BLOCKS, 100) == [];
    assert EligibleKeys(keys[..3], HYBRID, SIX_BLOCKS, 100) == [];
  }

  lemma CappedPlan()
    ensures ConfigOk(HYBRID)
    ensures IsPlanned(HYBRID, Attached(Some(FOUR), [SIX]), 100, [96, 100], FullBudget(HYBRID))
  {
    var c, a, ends := HYBRID, Attached(Some(FOUR), [SIX]), [96, 100];
    CappedAtOne(c, SIX, 0, 100, 36);
    CappedAtOne(c, SIX, 96, 4, 4);
    assert FirstStep(c, a, 100, 64) == CapStep(c, [SIX], 0, 100, 36);
    assert NextStep(c, a, 100, 96, 64) == CapStep(c, [SIX], 96, 4, 4);
    assert PlannedAt(c, a, 100, ends, FullBudget(c), 0) && PlannedAt(c, a, 100, ends, FullBudget(c), 1);
  }

  lemma CappedCuts()
    ensures IsWarm(SIX_BLOCKS, [96, 100], 64, 16, 64, 80) && !IsCold(SIX_BLOCKS, 100, 16, 64, 80)
  {
    hide IsCold, IsWarm;
    assert IsBlockRun([96, 100], 64, 100, 16);
    WarmIsCut(SIX_BLOCKS, [96, 100], 64, 100, 16, 64, 80, 0);
    ColdIsCanonical(SIX_BLOCKS, 100, 16, 64, 80);
  }
}
