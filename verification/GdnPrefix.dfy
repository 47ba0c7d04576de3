/** Boundary arithmetic of the recurrent prefix-state cache: which block boundary of a prompt is worth
    a saved state, which saved state may be restored, and where a prefill step is cut. */
module GdnPrefix {
  import opened IntFacts
  import opened Sequences

  /** Content digests are ideal: a block's digest is the token prefix that ends with the block. */
  type Digest = seq<int>

  datatype PrefixKey = PrefixKey(blocks: nat, digest: Digest)

  datatype RestoreMode = Direct | Hybrid64 | Chunk64 | Aligned

  const GDN_KERNEL_CHUNK_TOKENS := 64
  const GDN_DIRECT_MIN_REPLAY_TOKENS := 2

  datatype Alignment = Alignment(tokens: nat) | BadAlignment

  /** The content boundary a restore mode requires. */
  function RestoreAlignment(mode: RestoreMode, blockSize: int, chunkTokens: int): (a: Alignment)
    ensures a.Alignment? ==> blockSize > 0 && a.tokens > 0 && a.tokens % blockSize == 0
    ensures var wanted := match mode
              case Direct => blockSize case Hybrid64 => 64 case Chunk64 => 64 case Aligned => chunkTokens;
            if blockSize > 0 && wanted > 0 && wanted % blockSize == 0 then a == Alignment(wanted) else a.BadAlignment?
  {
    if blockSize <= 0 then BadAlignment
    else if mode.Direct? then
      DivModUnique(blockSize, 1, 0, blockSize);
      Alignment(blockSize)
    else
      var alignment := if mode.Aligned? then chunkTokens else GDN_KERNEL_CHUNK_TOKENS;
      if alignment <= 0 || alignment % blockSize != 0 then BadAlignment else Alignment(alignment)
  }

  function KeysFromBlockHashes(hashes: seq<Digest>): (keys: seq<PrefixKey>)
    ensures |keys| == |hashes|
  {
    seq(|hashes|, i requires 0 <= i < |hashes| => PrefixKey(i + 1, hashes[i]))
  }

  function StrictPrefixBlockCount(tokens: int, B: nat): nat
    requires B > 0
  {
    if tokens <= 1 then 0 else (tokens - 1) / B
  }

  function KeyAt(hashes: seq<Digest>, blocks: int): Option<PrefixKey>
    requires blocks <= |hashes|
  {
    if blocks <= 0 then None else Some(PrefixKey(blocks, hashes[blocks - 1]))
  }

  /** The key whose state is worth keeping at the end of a prompt (or of a prefill step). */
  function FinalCaptureKey(hashes: seq<Digest>, promptTokens: int, B: nat, mode: RestoreMode,
      alignment: int): Option<PrefixKey>
    requires B > 0
  {
    if mode.Direct? || mode.Hybrid64? then
      var count := Min(|hashes|, StrictPrefixBlockCount(promptTokens, B));
      KeyAt(hashes, if count > 0 && promptTokens - count * B < GDN_DIRECT_MIN_REPLAY_TOKENS then count - 1 else count)
    else if alignment <= 0 || alignment % B != 0 || promptTokens <= 1 then None
    else KeyAt(hashes, Min(|hashes|, ((promptTokens - 1) / alignment * alignment) / B))
  }

  /** Whether restoring a key leaves enough tokens to replay and respects the mode's boundaries. */
  predicate RestoreKeyIsEligible(key: PrefixKey, promptTokens: int, B: nat, mode: RestoreMode, alignment: int,
                                 directFinal: Option<PrefixKey>)
    requires B > 0
  {
    var boundary := key.blocks * B;
    var remaining := promptTokens - boundary;
    remaining > 0 &&
    match mode
    case Direct => remaining >= GDN_DIRECT_MIN_REPLAY_TOKENS
    case Hybrid64 =>
      remaining >= GDN_DIRECT_MIN_REPLAY_TOKENS && alignment > 0
          && (boundary % alignment == 0 || directFinal == Some(key))
    case _ => alignment > 0 && boundary % alignment == 0
  }

  /** The tokens a captured state stands for; 0 when nothing is captured. */
  function CaptureTokens(hashes: seq<Digest>, e: int, B: nat): nat
    requires B > 0
  {
    var key := FinalCaptureKey(hashes, e, B, Direct, B);
    if key.None? then 0 else key.value.blocks * B
  }

  // ---------- canonical segment boundaries ----------

  /** Ends of the scheduler steps of an uninterrupted run up to end. */
  predicate IsStepEnd(e: int, end: int, C: nat)
    requires C > 0
  {
    e == end || (0 < e < end && e % C == 0)
  }

  predicate IsCaptureOf(hashes: seq<Digest>, e: int, B: nat, b: int)
    requires B > 0
  {
    b > 0 && CaptureTokens(hashes, e, B) == b
  }

  ghost predicate IsBoundary(hashes: seq<Digest>, b: int, end: int, B: nat, C: nat)
    requires B > 0 && C > 0
  {
    || (0 < b < end && b % C == 0)
    || (exists e :: IsStepEnd(e, end, C) && IsCaptureOf(hashes, e, B, b))
  }

  predicate Ascending(s: seq<int>) {
    forall i, j | 0 <= i < j < |s| :: s[i] < s[j]
  }

  method SortedWithin(boundaries: set<int>, ctx: int, end: int) returns (offsets: seq<int>)
    ensures Ascending(offsets)
    ensures forall o :: o in offsets <==> ctx + o in boundaries && 0 < o < end - ctx
  {
    offsets := [];
    var b := ctx + 1;
    while b < end
      invariant b >= ctx + 1
      invariant Ascending(offsets) && forall i | 0 <= i < |offsets| :: offsets[i] < b - ctx
      invariant forall o :: o in offsets <==> ctx + o in boundaries && 0 < o < end - ctx && ctx + o < b
      decreases end - b
    {
      if b in boundaries {
        offsets := offsets + [b - ctx];
      }
      b := b + 1;
    }
  }

  /** Boundaries contributed by the step ends below e. */
  ghost predicate IsBoundaryBelow(hashes: seq<Digest>, b: int, e: int, B: nat, C: nat)
    requires B > 0 && C > 0
  {
    || (0 < b < e && b % C == 0)
    || (exists s :: 0 < s < e && s % C == 0 && IsCaptureOf(hashes, s, B, b))
  }

  lemma OneStepFurther(hashes: seq<Digest>, b: int, e: nat, B: nat, C: nat)
    requires B > 0 && C > 0 && e > 0 && e % C == 0
    ensures IsBoundaryBelow(hashes, b, e + C, B, C) <==>
            IsBoundaryBelow(hashes, b, e, B, C) || b == e || IsCaptureOf(hashes, e, B, b)
  {
    hide IsCaptureOf;
    NoMultipleBetween(e, C);
  }

  lemma LastStep(hashes: seq<Digest>, b: int, e: nat, end: nat, B: nat, C: nat)
    requires B > 0 && C > 0 && e % C == 0 && 0 < end <= e && e - C < end
    ensures IsBoundary(hashes, b, end, B, C) <==> IsBoundaryBelow(hashes, b, e, B, C) || IsCaptureOf(hashes, end, B, b)
  {
    hide IsCaptureOf;
    var m := e / C;
    assert e == m * C && e - C == (m - 1) * C;
    MultiplesOrdered(0, m, C);
    MultipleDivides(m - 1, C);
    NoMultipleBetween(e - C, C);
    forall s: int | 0 < s && s % C == 0
      ensures s < e <==> s < end
    {
      assert s < e ==> !(e - C < s < e);
    }
    if IsBoundaryBelow(hashes, b, e, B, C) && !(0 < b < e && b % C == 0) {
      var s :| 0 < s < e && s % C == 0 && IsCaptureOf(hashes, s, B, b);
      assert IsStepEnd(s, end, C);
    }
    assert IsStepEnd(end, end, C);
  }

  method CollectBoundaries(hashes: seq<Digest>, end: nat, B: nat, C: nat) returns (boundaries: set<int>)
    requires B > 0 && C > 0 && end > 0
    ensures forall b :: b in boundaries <==> IsBoundary(hashes, b, end, B, C)
  {
    hide CaptureTokens, IsBoundary, IsBoundaryBelow;
    boundaries := {};
    var e := C;
    MultipleDivides(1, C);
    NoneBelow(hashes, B, C);
    while e < end
      invariant e > 0 && e % C == 0 && e - C < end
      invariant forall b :: b in boundaries <==> IsBoundaryBelow(hashes, b, e, B, C)
      decreases end - e
    {
      var tokens := CaptureTokens(hashes, e, B);
      if tokens > 0 {
        boundaries := boundaries + {tokens};
      }
      boundaries := boundaries + {e};
      forall b
        ensures b in boundaries <==> IsBoundaryBelow(hashes, b, e + C, B, C)
      {
        OneStepFurther(hashes, b, e, B, C);
      }
      NoMultipleBetween(e, C);
      e := e + C;
    }
    var tokens := CaptureTokens(hashes, end, B);
    if tokens > 0 {
      boundaries := boundaries + {tokens};
    }
    forall b
      ensures b in boundaries <==> IsBoundary(hashes, b, end, B, C)
    {
      LastStep(hashes, b, e, end, B, C);
    }
  }

  lemma NoneBelow(hashes: seq<Digest>, B: nat, C: nat)
    requires B > 0 && C > 0
    ensures forall b :: !IsBoundaryBelow(hashes, b, C, B, C)
  {
    MultipleDivides(0, C);
    NoMultipleBetween(0, C);
  }

  /** Where a step from ctx to end must be cut to repeat the segments of an uncached run. */
  method CanonicalSegmentOffsets(hashes: seq<Digest>, ctx: nat, end: nat, B: nat, C: nat) returns (offsets: seq<int>)
    requires B > 0 && C > 0 && C % B == 0
    ensures Ascending(offsets)
    ensures forall o :: o in offsets <==> 0 < o < end - ctx && IsBoundary(hashes, ctx + o, end, B, C)
  {
    if end <= ctx {
      return [];
    }
    var boundaries := CollectBoundaries(hashes, end, B, C);
    offsets := SortedWithin(boundaries, ctx, end);
  }

  lemma NoMultipleBetween(e: nat, C: nat)
    requires C > 0 && e % C == 0
    ensures (e + C) % C == 0
    ensures forall s: int | e < s < e + C :: s % C != 0
  {
    var m := e / C;
    assert e == m * C;
    assert e + C == (m + 1) * C;
    MultipleDivides(m + 1, C);
    forall s: int | e < s < e + C
      ensures s % C != 0
    {
      DivModUnique(s, m, s - e, C);
    }
  }

  // ---------- warm runs and the cold boundaries ----------

  /** The steps of a prefill that resumes at c: whole blocks, until the prompt ends. */
  ghost predicate IsBlockRun(ends: seq<int>, c: int, L: int, B: nat)
    requires B > 0
  {
    && |ends| > 0 && Ascending(ends) && 0 <= c < ends[0] && ends[|ends| - 1] == L
    && forall i | 0 <= i < |ends| :: ends[i] == L || ends[i] % B == 0
  }

  function StepStart(ends: seq<int>, c: int, i: nat): int
    requires i < |ends|
  {
    if i == 0 then c else ends[i - 1]
  }

  /** Segment ends of the resumed run, step ends included. */
  ghost predicate IsWarm(hashes: seq<Digest>, ends: seq<int>, c: int, B: nat, C: nat, b: int)
    requires B > 0 && C > 0
  {
    exists i :: 0 <= i < |ends| && WarmInStep(hashes, ends, c, B, C, b, i)
  }

  ghost predicate WarmInStep(hashes: seq<Digest>, ends: seq<int>, c: int, B: nat, C: nat, b: int, i: nat)
    requires B > 0 && C > 0 && i < |ends|
  {
    b == ends[i] || (StepStart(ends, c, i) < b < ends[i] && IsBoundary(hashes, b, ends[i], B, C))
  }

  /** Segment ends of an uninterrupted run. */
  ghost predicate IsCold(hashes: seq<Digest>, L: int, B: nat, C: nat, b: int)
    requires B > 0 && C > 0
  {
    b == L || (b < L && IsBoundary(hashes, b, L, B, C))
  }

  /** CaptureTokens when the hashes cover the prompt. */
  function Replayable(e: int, B: nat): int
    requires B > 0 && e > 0
  {
    var s := (e - 1) / B;
    if (e - 1) % B == 0 && s > 0 then (s - 1) * B else s * B
  }

  lemma CaptureIsReplayable(hashes: seq<Digest>, e: int, B: nat)
    requires B > 0 && e > 0 && |hashes| >= (e - 1) / B
    ensures CaptureTokens(hashes, e, B) == Replayable(e, B)
  {
    var s := (e - 1) / B;
    assert e - 1 == s * B + (e - 1) % B;
    assert (s - 1) * B == s * B - B;
    if s > 0 {
      MultiplesOrdered(0, s, B);
    }
  }

  /** How far below a whole-block step end its capture lies: a block, and never less than the replayed tokens. */
  function Gap(B: nat): nat {
    if B == 1 then GDN_DIRECT_MIN_REPLAY_TOKENS else B
  }

  lemma ReplayableAtMultiple(e: int, B: nat)
    requires B > 0 && e > 0 && e % B == 0
    ensures Replayable(e, B) == if e < Gap(B) then 0 else e - Gap(B)
  {
    var q := e / B;
    assert e == q * B;
    MultiplesOrdered(0, q, B);
    if B >= 2 {
      assert e - 1 == (q - 1) * B + (B - 1);
      DivModUnique(e - 1, q - 1, B - 1, B);
    }
  }

  lemma ReplayableAbove(e: int, L: int, B: nat)
    requires B > 0 && 0 < e < L && e % B == 0
    ensures Replayable(L, B) >= e || (L == e + 1 && Replayable(L, B) == e - B)
  {
    var q, s, r := e / B, (L - 1) / B, (L - 1) % B;
    var low, high, below := q * B, s * B, (s - 1) * B;
    assert e == low && L - 1 == high + r;
    assert below == high - B;
    assert low < (s + 1) * B == high + B;
    MultiplesOrdered(q, s + 1, B);
    MultiplesMonotone(q, s, B);
    if s > q {
      MultiplesMonotone(q, s - 1, B);
    }
    assert Replayable(L, B) == if r == 0 && s > 0 then below else high;
  }

  lemma CoverShorter(hashes: seq<Digest>, e: int, L: int, B: nat)
    requires B > 0 && 0 < e <= L && |hashes| >= (L - 1) / B
    ensures |hashes| >= (e - 1) / B
  {
    var p, q := (e - 1) / B, (L - 1) / B;
    assert e - 1 == p * B + (e - 1) % B && L - 1 == q * B + (L - 1) % B;
    assert (q + 1) * B == q * B + B;
    MultiplesOrdered(p, q + 1, B);
  }

  lemma MultiplesOrderedBlock(C: nat, B: nat)
    requires C > 0 && B > 0 && C % B == 0
    ensures B <= C
  {
    assert C == (C / B) * B;
    MultiplesOrdered(0, C / B, B);
  }

  /** Where a step that runs up to e is cut before e, in numbers. */
  predicate CutBelow(b: int, e: int, B: nat, C: nat)
    requires B > 0 && C > 0
  {
    0 < b < e && (b % C == 0 || b == Replayable(e, B) || ((b + Gap(B)) % C == 0 && b + Gap(B) < e))
  }

  /** The boundaries of the code, which looks at the capture key of every step end, are those numbers. */
  lemma BoundaryIsCut(hashes: seq<Digest>, b: int, e: int, B: nat, C: nat)
    requires B > 0 && C > 0 && C % B == 0 && e > 0 && |hashes| >= (e - 1) / B
    ensures b < e && IsBoundary(hashes, b, e, B, C) <==> CutBelow(b, e, B, C)
  {
    hide CaptureTokens, Replayable, Gap;
    CaptureIsReplayable(hashes, e, B);
    if b < e && IsBoundary(hashes, b, e, B, C) && b % C != 0 {
      var s :| IsStepEnd(s, e, C) && IsCaptureOf(hashes, s, B, b);
      if s != e {
        CaptureAtMultiple(hashes, s, e, B, C);
      }
    }
    if CutBelow(b, e, B, C) {
      if b == Replayable(e, B) {
        assert IsStepEnd(e, e, C) && IsCaptureOf(hashes, e, B, b);
      } else if b % C != 0 {
        var s := b + Gap(B);
        CaptureAtMultiple(hashes, s, e, B, C);
        assert IsStepEnd(s, e, C) && IsCaptureOf(hashes, s, B, b);
      }
    }
  }

  lemma CaptureAtMultiple(hashes: seq<Digest>, s: int, e: int, B: nat, C: nat)
    requires B > 0 && C > 0 && C % B == 0 && 0 < s < e && s % C == 0 && |hashes| >= (e - 1) / B
    ensures CaptureTokens(hashes, s, B) == if s < Gap(B) then 0 else s - Gap(B)
  {
    DividesThrough(s, C, B);
    CoverShorter(hashes, s, e, B);
    CaptureIsReplayable(hashes, s, B);
    ReplayableAtMultiple(s, B);
  }

  /** The boundaries of an uninterrupted run, in numbers. */
  predicate Canonical(b: int, L: int, B: nat, C: nat)
    requires B > 0 && C > 0
  {
    0 < b && (b == L || CutBelow(b, L, B, C))
  }

  /** A step adds nothing to the uninterrupted boundaries and misses none: its end is one of them, so is the
      capture of its end unless that lies before the step, and with one-token blocks none lies just below its end. */
  predicate StepFits(start: int, e: int, L: int, B: nat, C: nat)
    requires B > 0 && C > 0
  {
    || e == L
    || (Canonical(e, L, B, C)
        && (e - Gap(B) <= start || Canonical(e - Gap(B), L, B, C))
        && !(B == 1 && start < e - 1 && (e - 1) % C != 0 && Canonical(e - 1, L, B, C)))
  }

  predicate CutInStep(b: int, e: int, B: nat, C: nat)
    requires B > 0 && C > 0
  {
    b == e || CutBelow(b, e, B, C)
  }

  /** A boundary of the uninterrupted run inside a step is cut by the step, but for the one-token case. */
  lemma CanonicalIsCut(b: int, start: int, e: int, L: int, B: nat, C: nat)
    requires B > 0 && C > 0 && C % B == 0 && 0 <= start < b <= e <= L && (e == L || e % B == 0)
    requires Canonical(b, L, B, C)
    ensures CutInStep(b, e, B, C) || (B == 1 && b == e - 1 && b % C != 0 && e < L)
  {
    if b < e < L && b % C != 0 {
      ReplayableAtMultiple(e, B);
      if b == Replayable(L, B) {
        ReplayableAbove(e, L, B);
      } else {
        var s := b + Gap(B);
        if s > e {
          DividesThrough(s, C, B);
          MultiplesApart(e, s, B);
        }
      }
    }
  }

  lemma StepCutsAgree(start: int, e: int, L: int, B: nat, C: nat)
    requires B > 0 && C > 0 && C % B == 0 && 0 <= start < e <= L && (e == L || e % B == 0)
    ensures (forall b | start < b <= e :: CutInStep(b, e, B, C) <==> Canonical(b, L, B, C))
            <==> StepFits(start, e, L, B, C)
  {
    hide Replayable;
    if e < L {
      ReplayableAtMultiple(e, B);
    }
    if StepFits(start, e, L, B, C) {
      forall b | start < b <= e
        ensures CutInStep(b, e, B, C) <==> Canonical(b, L, B, C)
      {
        if Canonical(b, L, B, C) {
          CanonicalIsCut(b, start, e, L, B, C);
        }
      }
    } else {
      assert CutInStep(e, e, B, C);
      var g := e - Gap(B);
      assert g > start ==> CutInStep(g, e, B, C);
      assert B == 1 && (e - 1) % C != 0 ==> !CutInStep(e - 1, e, B, C);
    }
  }

  /** The step that contains a position past the checkpoint. */
  lemma {:induction false} Locate(ends: seq<int>, c: int, b: int) returns (i: nat)
    requires |ends| > 0 && c < b <= ends[|ends| - 1]
    ensures i < |ends| && StepStart(ends, c, i) < b <= ends[i]
  {
    i := 0;
    while ends[i] < b
      invariant i < |ends| && StepStart(ends, c, i) < b
      decreases |ends| - i
    {
      i := i + 1;
    }
  }

  lemma ColdIsCanonical(hashes: seq<Digest>, L: int, B: nat, C: nat, b: int)
    requires B > 0 && C > 0 && C % B == 0 && L > 0 && b > 0 && |hashes| >= (L - 1) / B
    ensures IsCold(hashes, L, B, C, b) <==> Canonical(b, L, B, C)
  {
    hide IsBoundary, CutBelow;
    BoundaryIsCut(hashes, b, L, B, C);
  }

  /** Inside a step the run cuts what the step cuts. */
  lemma WarmIsCut(hashes: seq<Digest>, ends: seq<int>, c: int, L: int, B: nat, C: nat, b: int, i: nat)
    requires B > 0 && C > 0 && C % B == 0 && IsBlockRun(ends, c, L, B) && |hashes| >= (L - 1) / B
    requires i < |ends| && StepStart(ends, c, i) < b <= ends[i]
    ensures IsWarm(hashes, ends, c, B, C, b) <==> CutInStep(b, ends[i], B, C)
  {
    hide IsBoundary, CutBelow;
    assert ends[i] <= L;
    CoverShorter(hashes, ends[i], L, B);
    BoundaryIsCut(hashes, b, ends[i], B, C);
    if IsWarm(hashes, ends, c, B, C, b) {
      var k :| 0 <= k < |ends| && WarmInStep(hashes, ends, c, B, C, b, k);
      assert k == i;
    }
    assert WarmInStep(hashes, ends, c, B, C, b, i) <==> CutInStep(b, ends[i], B, C);
  }

  /** With blocks of at least two tokens no run that stays on whole blocks misses a cold boundary. */
  lemma ColdIsWarm(hashes: seq<Digest>, ends: seq<int>, c: int, L: int, B: nat, C: nat, b: int)
    requires B >= 2 && C > 0 && C % B == 0 && IsBlockRun(ends, c, L, B) && |hashes| >= (L - 1) / B
    requires c < b && IsCold(hashes, L, B, C, b)
    ensures IsWarm(hashes, ends, c, B, C, b)
  {
    hide IsWarm, IsCold, CutInStep, Canonical;
    ColdInside(hashes, L, B, C, b);
    var i := Locate(ends, c, b);
    ColdIsCanonical(hashes, L, B, C, b);
    CanonicalIsCut(b, StepStart(ends, c, i), ends[i], L, B, C);
    WarmIsCut(hashes, ends, c, L, B, C, b, i);
  }

  lemma ColdInside(hashes: seq<Digest>, L: int, B: nat, C: nat, b: int)
    requires B > 0 && C > 0 && IsCold(hashes, L, B, C, b)
    ensures b <= L
  {
  }

  lemma WarmInside(hashes: seq<Digest>, ends: seq<int>, c: int, L: int, B: nat, C: nat, b: int)
    requires B > 0 && C > 0 && IsBlockRun(ends, c, L, B) && IsWarm(hashes, ends, c, B, C, b)
    ensures b <= L
  {
    var i :| 0 <= i < |ends| && WarmInStep(hashes, ends, c, B, C, b, i);
    assert ends[i] <= L;
  }

  /** A run that resumes at c and stays on whole blocks cuts exactly the cold boundaries past c if and only if
      each of its steps fits them. */
  lemma WarmEqualsCold(hashes: seq<Digest>, ends: seq<int>, c: int, L: int, B: nat, C: nat)
    requires B > 0 && C > 0 && C % B == 0 && IsBlockRun(ends, c, L, B) && |hashes| >= (L - 1) / B
    ensures (forall b | c < b :: IsWarm(hashes, ends, c, B, C, b) <==> IsCold(hashes, L, B, C, b))
            <==> forall i | 0 <= i < |ends| :: StepFits(StepStart(ends, c, i), ends[i], L, B, C)
  {
    hide IsCold, IsWarm, StepFits, CutInStep, Canonical;
    if forall i | 0 <= i < |ends| :: StepFits(StepStart(ends, c, i), ends[i], L, B, C) {
      forall b | c < b
        ensures IsWarm(hashes, ends, c, B, C, b) <==> IsCold(hashes, L, B, C, b)
      {
        if b <= L {
          var i := Locate(ends, c, b);
          StepAgrees(hashes, ends, c, L, B, C, i);
        } else {
          assert !IsCold(hashes, L, B, C, b) by { if IsCold(hashes, L, B, C, b) { ColdInside(hashes, L, B, C, b); } }
          assert !IsWarm(hashes, ends, c, B, C, b) by {
            if IsWarm(hashes, ends, c, B, C, b) { WarmInside(hashes, ends, c, L, B, C, b); }
          }
        }
      }
    } else {
      var i :| 0 <= i < |ends| && !StepFits(StepStart(ends, c, i), ends[i], L, B, C);
      StepAgrees(hashes, ends, c, L, B, C, i);
    }
  }

  lemma StepAgrees(hashes: seq<Digest>, ends: seq<int>, c: int, L: int, B: nat, C: nat, i: nat)
    requires B > 0 && C > 0 && C % B == 0 && IsBlockRun(ends, c, L, B) && |hashes| >= (L - 1) / B && i < |ends|
    ensures c <= StepStart(ends, c, i) < ends[i] <= L
    ensures (forall b | StepStart(ends, c, i) < b <= ends[i] ::
               IsWarm(hashes, ends, c, B, C, b) <==> IsCold(hashes, L, B, C, b))
            <==> StepFits(StepStart(ends, c, i), ends[i], L, B, C)
  {
    hide IsCold, IsWarm, StepFits, CutInStep, Canonical;
    var start, e := StepStart(ends, c, i), ends[i];
    StepCutsAgree(start, e, L, B, C);
    forall b | start < b <= e
      ensures IsWarm(hashes, ends, c, B, C, b) <==> CutInStep(b, e, B, C)
      ensures IsCold(hashes, L, B, C, b) <==> Canonical(b, L, B, C)
    {
      WarmIsCut(hashes, ends, c, L, B, C, b, i);
      ColdIsCanonical(hashes, L, B, C, b);
    }
  }

  /** With blocks of at least two tokens a step that ends on a multiple of the chunk always fits; any other
      fits when it ends on a cold boundary and starts no earlier than its end's capture, or that capture is
      itself a multiple of the chunk. */
  lemma WhenStepFits(start: int, e: int, L: int, B: nat, C: nat)
    requires B >= 2 && C > 0 && C % B == 0 && 0 <= start < e < L && e % B == 0
    ensures StepFits(start, e, L, B, C) <==>
              e % C == 0 || (Canonical(e, L, B, C) && (e - B <= start || (e - B) % C == 0))
  {
    ReplayableAbove(e, L, B);
  }

  /** The one way a run whose steps end on multiples of the chunk can miss a cold boundary. */
  predicate MissesBoundary(ends: seq<int>, c: int, L: int, B: nat, C: nat)
    requires C > 0
  {
    B == 1 && C >= 2 && L % C == 1 && (L - 1) in ends && c < L - 2
  }

  /** Each step ends at a multiple of the chunk or at the prompt's end. */
  ghost predicate IsChunkRun(ends: seq<int>, L: int, C: nat)
    requires C > 0
  {
    forall i | 0 <= i < |ends| :: ends[i] == L || ends[i] % C == 0
  }

  lemma ChunkStepFits(start: int, e: int, L: int, B: nat, C: nat)
    requires B > 0 && C > 0 && C % B == 0 && 0 <= start < e < L && e % C == 0
    ensures StepFits(start, e, L, B, C) <==> !(B == 1 && C >= 2 && e == L - 1 && start < L - 2)
  {
    if B == 1 {
      NoMultipleNext(e, C);
    }
  }

  lemma NoMultipleNext(e: int, C: nat)
    requires C >= 1 && e > 0 && e % C == 0
    ensures C >= 2 ==> (e - 1) % C != 0 && (e + 1) % C != 0
    ensures C == 1 ==> (e - 1) % C == 0
  {
    if C >= 2 {
      NoMultipleBetween(e, C);
      if (e - 1) % C == 0 {
        MultiplesApart(e - 1, e, C);
      }
    }
  }

  /** When every step ends on a multiple of the chunk, as without states to capture on the way, the run cuts
      exactly the cold boundaries, save for one case with one-token blocks. */
  lemma ChunkRunEqualsCold(hashes: seq<Digest>, ends: seq<int>, c: int, L: int, B: nat, C: nat)
    requires B > 0 && C > 0 && C % B == 0 && IsBlockRun(ends, c, L, B) && IsChunkRun(ends, L, C)
    requires |hashes| >= (L - 1) / B
    ensures (forall b | c < b :: IsWarm(hashes, ends, c, B, C, b) <==> IsCold(hashes, L, B, C, b))
            <==> !MissesBoundary(ends, c, L, B, C)
  {
    hide IsCold, IsWarm, StepFits;
    WarmEqualsCold(hashes, ends, c, L, B, C);
    forall i | 0 <= i < |ends|
      ensures StepFits(StepStart(ends, c, i), ends[i], L, B, C) <==>
                !(B == 1 && C >= 2 && ends[i] == L - 1 && StepStart(ends, c, i) < L - 2)
    {
      if ends[i] == L {
        LastStepFits(StepStart(ends, c, i), L, B, C);
      } else {
        ChunkStepFits(StepStart(ends, c, i), ends[i], L, B, C);
      }
    }
    if B == 1 && C >= 2 {
      OneBeforeEnd(ends, c, L, C);
    }
  }

  lemma LastStepFits(start: int, L: int, B: nat, C: nat)
    requires B > 0 && C > 0
    ensures StepFits(start, L, L, B, C)
  {
  }

  lemma OneBeforeEnd(ends: seq<int>, c: int, L: int, C: nat)
    requires C >= 2 && IsBlockRun(ends, c, L, 1) && IsChunkRun(ends, L, C)
    ensures (exists i :: 0 <= i < |ends| && ends[i] == L - 1 && StepStart(ends, c, i) < L - 2) <==>
              MissesBoundary(ends, c, L, 1, C)
  {
    if L - 1 in ends {
      var i :| 0 <= i < |ends| && ends[i] == L - 1;
      var m := (L - 1) / C;
      assert L == m * C + 1;
      DivModUnique(L, m, 1, C);
      if i > 0 {
        assert ends[i - 1] % C == 0;
        MultiplesApart(ends[i - 1], L - 1, C);
      }
      assert c < L - 2 ==> StepStart(ends, c, i) < L - 2;
      assert StepStart(ends, c, i) < L - 2 ==> c < L - 2;
    }
  }

  // ---------- few cuts per step ----------

  lemma CaptureBelow(hashes: seq<Digest>, e: int, B: nat)
    requires B > 0 && e > 0
    ensures CaptureTokens(hashes, e, B) < e
  {
    var s := StrictPrefixBlockCount(e, B);
    if e > 1 {
      assert e - 1 == s * B + (e - 1) % B;
    }
    var key := FinalCaptureKey(hashes, e, B, Direct, B);
    if key.Some? {
      MultiplesMonotone(key.value.blocks, s, B);
    }
  }

  /** The one multiple of C strictly inside a step of at most C tokens, or 0. */
  ghost function InnerMultiple(ctx: int, end: int, C: nat): int
    requires C > 0
  {
    if m: int :| ctx < m < end && m % C == 0 then m else 0
  }

  lemma OnlyMultiple(ctx: int, end: int, C: nat, m: int)
    requires C > 0 && end - ctx <= C && ctx < m < end && m % C == 0
    ensures InnerMultiple(ctx, end, C) == m
  {
    var k := InnerMultiple(ctx, end, C);
    if k < m {
      MultiplesApart(k, m, C);
    } else if m < k {
      MultiplesApart(m, k, C);
    }
  }

  lemma ThreeCandidates(hashes: seq<Digest>, ctx: nat, end: nat, B: nat, C: nat, b: int)
    requires B > 0 && C > 0 && end - ctx <= C && ctx < b < end && IsBoundary(hashes, b, end, B, C)
    ensures var m := InnerMultiple(ctx, end, C);
            b == m || b == CaptureTokens(hashes, m, B) || b == CaptureTokens(hashes, end, B)
  {
    hide CaptureTokens, InnerMultiple;
    if b % C == 0 {
      OnlyMultiple(ctx, end, C, b);
    } else {
      var s :| IsStepEnd(s, end, C) && IsCaptureOf(hashes, s, B, b);
      CaptureBelow(hashes, s, B);
      if s != end {
        OnlyMultiple(ctx, end, C, s);
      }
    }
  }

  /** A step of at most one scheduler chunk is cut at no more than three inner offsets. */
  lemma AtMostThreeCuts(hashes: seq<Digest>, ctx: nat, end: nat, B: nat, C: nat, offsets: seq<int>)
    requires B > 0 && C > 0 && end - ctx <= C && Ascending(offsets)
    requires forall o | o in offsets :: 0 < o < end - ctx && IsBoundary(hashes, ctx + o, end, B, C)
    ensures |offsets| <= 3
  {
    hide IsBoundary, CaptureTokens, InnerMultiple;
    if |offsets| >= 4 {
      assert offsets[0] in offsets && offsets[1] in offsets && offsets[2] in offsets && offsets[3] in offsets;
      ThreeCandidates(hashes, ctx, end, B, C, ctx + offsets[0]);
      ThreeCandidates(hashes, ctx, end, B, C, ctx + offsets[1]);
      ThreeCandidates(hashes, ctx, end, B, C, ctx + offsets[2]);
      ThreeCandidates(hashes, ctx, end, B, C, ctx + offsets[3]);
      assert false;
    }
  }

  // ---------- capture points and capping ----------

  function Boundary(key: PrefixKey, B: nat): nat {
    key.blocks * B
  }

  datatype CapturePoint = CapturePoint(offset: int, key: PrefixKey)

  datatype Points = Points(points: seq<CapturePoint>) | TooManyPoints

  /** Ordered by offset; a later key replaces an earlier one at the same offset. */
  function InsertPoint(points: seq<CapturePoint>, p: CapturePoint): seq<CapturePoint> {
    if points == [] then [p]
    else if p.offset < points[0].offset then [p] + points
    else if p.offset == points[0].offset then [p] + points[1..]
    else [points[0]] + InsertPoint(points[1..], p)
  }

  function SelectPoints(targets: seq<PrefixKey>, ctx: int, end: int, B: nat): seq<CapturePoint> {
    if targets == [] then [] else
      var key := targets[|targets| - 1];
      var rest := SelectPoints(targets[..|targets| - 1], ctx, end, B);
      if ctx < Boundary(key, B) <= end then InsertPoint(rest, CapturePoint(Boundary(key, B) - ctx, key)) else rest
  }

  method CapturePointsForStep(targets: seq<PrefixKey>, ctx: nat, end: nat, B: nat) returns (r: Points)
    ensures var points := SelectPoints(targets, ctx, end, B);
            r == if |points| > 2 then TooManyPoints else Points(points)
  {
    if end <= ctx {
      NoPoints(targets, ctx, end, B);
      return Points([]);
    }
    var selected: seq<CapturePoint> := [];
    for i := 0 to |targets|
      invariant selected == SelectPoints(targets[..i], ctx, end, B)
    {
      assert targets[..i + 1][..i] == targets[..i];
      var boundary := Boundary(targets[i], B);
      if ctx < boundary <= end {
        selected := InsertPoint(selected, CapturePoint(boundary - ctx, targets[i]));
      }
    }
    assert targets[..|targets|] == targets;
    r := if |selected| > 2 then TooManyPoints else Points(selected);
  }

  lemma {:induction false} NoPoints(targets: seq<PrefixKey>, ctx: nat, end: nat, B: nat)
    requires end <= ctx
    ensures SelectPoints(targets, ctx, end, B) == []
  {
    if targets != [] {
      NoPoints(targets[..|targets| - 1], ctx, end, B);
    }
  }

  ghost predicate Sorted(points: seq<CapturePoint>) {
    forall i, j | 0 <= i < j < |points| :: points[i].offset < points[j].offset
  }

  lemma {:induction false} InsertKeeps(points: seq<CapturePoint>, p: CapturePoint)
    requires Sorted(points)
    ensures Sorted(InsertPoint(points, p)) && |InsertPoint(points, p)| <= |points| + 1
    ensures forall q :: q in InsertPoint(points, p) <==> q == p || (q in points && q.offset != p.offset)
  {
    if points != [] {
      var head, rest := points[0], points[1..];
      assert points == [head] + rest;
      LaterPoints(points);
      if p.offset > head.offset {
        InsertKeeps(rest, p);
        Prepended(head, InsertPoint(rest, p));
      } else if p.offset == head.offset {
        Prepended(p, rest);
      } else {
        Prepended(p, points);
      }
    }
  }

  lemma LaterPoints(points: seq<CapturePoint>)
    requires Sorted(points) && points != []
    ensures Sorted(points[1..]) && forall q | q in points[1..] :: q.offset > points[0].offset
  {
  }

  lemma Prepended(p: CapturePoint, points: seq<CapturePoint>)
    requires Sorted(points) && forall q | q in points :: q.offset > p.offset
    ensures Sorted([p] + points)
  {
    assert forall k | 0 <= k < |points| :: points[k] in points;
  }

  /** Each selected point lies in the step, names a target and stands at that target's boundary. */
  lemma {:induction false} SelectSound(targets: seq<PrefixKey>, ctx: int, end: int, B: nat)
    ensures var points := SelectPoints(targets, ctx, end, B);
            && Sorted(points) && |points| <= |targets|
            && forall p | p in points :: p.key in targets && 0 < p.offset <= end - ctx
                && ctx + p.offset == Boundary(p.key, B)
  {
    hide InsertPoint, Boundary;
    if targets != [] {
      var init, key := targets[..|targets| - 1], targets[|targets| - 1];
      SelectSound(init, ctx, end, B);
      assert targets == init + [key];
      if ctx < Boundary(key, B) <= end {
        InsertKeeps(SelectPoints(init, ctx, end, B), CapturePoint(Boundary(key, B) - ctx, key));
      }
    }
  }

  ghost predicate HasPointAt(points: seq<CapturePoint>, offset: int) {
    exists p :: p in points && p.offset == offset
  }

  /** Every target inside the step has a point at its boundary. */
  lemma {:induction false} SelectComplete(targets: seq<PrefixKey>, ctx: int, end: int, B: nat, t: PrefixKey)
    requires t in targets && ctx < Boundary(t, B) <= end
    ensures HasPointAt(SelectPoints(targets, ctx, end, B), Boundary(t, B) - ctx)
  {
    hide InsertPoint, Boundary;
    var init, key := targets[..|targets| - 1], targets[|targets| - 1];
    var rest := SelectPoints(init, ctx, end, B);
    assert targets == init + [key];
    SelectSound(init, ctx, end, B);
    var here := CapturePoint(Boundary(key, B) - ctx, key);
    if ctx < Boundary(key, B) <= end {
      InsertKeeps(rest, here);
      assert here in InsertPoint(rest, here);
    }
    if Boundary(t, B) != Boundary(key, B) {
      SelectComplete(init, ctx, end, B, t);
      var p :| p in rest && p.offset == Boundary(t, B) - ctx;
      assert p in SelectPoints(targets, ctx, end, B);
    }
  }

  function CapEnd(start: int, end: int, targets: seq<PrefixKey>, B: nat): int {
    if targets == [] then end else
      var capped := CapEnd(start, end, targets[..|targets| - 1], B);
      var boundary := Boundary(targets[|targets| - 1], B);
      if start < boundary < capped then boundary else capped
  }

  method CapPrefillEnd(start: nat, end: nat, targets: seq<PrefixKey>, B: nat) returns (capped: int)
    requires start <= end
    ensures capped == CapEnd(start, end, targets, B)
  {
    capped := end;
    for i := 0 to |targets|
      invariant capped == CapEnd(start, end, targets[..i], B)
    {
      assert targets[..i + 1][..i] == targets[..i];
      var boundary := Boundary(targets[i], B);
      if start < boundary < capped {
        capped := boundary;
      }
    }
    assert targets[..|targets|] == targets;
  }

  /** The earliest pending target strictly inside the step, or the end of the step. */
  lemma {:induction false} CapIsEarliest(start: int, end: int, targets: seq<PrefixKey>, B: nat)
    requires start < end
    ensures var capped := CapEnd(start, end, targets, B);
            && start < capped <= end
            && (forall t | t in targets :: !(start < Boundary(t, B) < capped))
            && (capped == end || exists t :: t in targets && Boundary(t, B) == capped)
  {
    if targets != [] {
      var init, key := targets[..|targets| - 1], targets[|targets| - 1];
      CapIsEarliest(start, end, init, B);
      assert targets == init + [key];
    }
  }
}
