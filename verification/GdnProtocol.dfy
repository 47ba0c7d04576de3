/** The prefix-state protocol over whole runs. The scheduler owns an index of saved states and plans steps;
    its actions travel to the worker in a queue and are executed later, in order. One sequence runs at a time,
    so every prefill step has a whole chunk of tokens to spend. */
module GdnProtocol {
  import opened GdnPolicy
  import opened GdnPrefix
  import opened GdnScheduling
  import opened GdnWorker
  import opened IntFacts
  import opened Sequences

  datatype Env = Env(config: Config, model: Model)

  /** A block holds at least a convolution window. */
  predicate EnvOk(e: Env) {
    ConfigOk(e.config) && e.model.window <= e.config.blockSize
  }

  function Hashes(tokens: seq<Token>, B: nat): (h: seq<Digest>)
    requires B > 0
  {
    seq(|tokens| / B, i requires 0 <= i < |tokens| / B => HashAt(tokens, B, i))
  }

  function HashAt(tokens: seq<Token>, B: nat, i: nat): Digest
    requires B > 0 && i < |tokens| / B
  {
    BlockInside(|tokens|, B, i);
    tokens[..(i + 1) * B]
  }

  lemma BlockInside(n: nat, B: nat, i: nat)
    requires B > 0 && i < n / B
    ensures 0 <= (i + 1) * B <= n
  {
    var q := n / B;
    assert n == q * B + n % B;
    MultiplesMonotone(i + 1, q, B);
    MultiplesMonotone(0, i + 1, B);
  }

  /** The request being served: its tokens, the length of the prompt it is (re)computing, how far it got and
      where its latest prefill step started. */
  datatype Phase =
    | Idle
    | Running(tokens: seq<Token>, prompt: nat, attached: Attached, computed: nat, start: nat)
    | Preempted(tokens: seq<Token>)

  datatype Sys = Sys(resident: seq<PrefixKey>, phase: Phase, queue: seq<Action>, worker: Worker)

  /** live is the block manager's answer: how many leading blocks it still holds. */
  datatype Event =
    | Arrive(tokens: seq<Token>, live: nat, segments: seq<int>)
    | Resume(live: nat, segments: seq<int>)
    | Continue(segments: seq<int>)
    | Generate(token: Token)
    | Preempt(pending: seq<Token>)
    | Finish
    | Work

  datatype Outcome = Moved(sys: Sys) | SchedulerFailed | WorkerFailed(error: WorkerError)

  // ---------- one prefill step of the scheduler ----------

  function StepOf(c: Config, L: nat, a: Attached, computed: nat): Step
    requires ConfigOk(c)
  {
    if computed == 0 then FirstStep(c, a, L, c.chunkTokens) else NextStep(c, a, L, computed, c.chunkTokens)
  }

  function ContextOf(c: Config, a: Attached, computed: nat): nat
    requires ConfigOk(c)
  {
    if computed == 0 then RestoreTokens(a.restore, c.blockSize) else PhysicalContext(computed, c.blockSize)
  }

  function TargetsOf(c: Config, hashes: seq<Digest>, a: Attached, end: nat): seq<PrefixKey>
    requires ConfigOk(c)
  {
    if !c.policy.Fine32? then a.targets
    else if FinalKey(c, hashes, end).Some? then [FinalKey(c, hashes, end).value] else []
  }

  function PointsOf(c: Config, hashes: seq<Digest>, a: Attached, ctx: nat, end: nat): seq<CapturePoint>
    requires ConfigOk(c)
  {
    if c.policy.Off? then [] else SelectPoints(TargetsOf(c, hashes, a, end), ctx, end, c.blockSize)
  }

  function AdmissionOf(c: Config, resident: seq<PrefixKey>, points: seq<CapturePoint>): Admission {
    if c.policy.Off? then Admission(resident, []) else Admit(resident, CaptureKeys(points), Capacity(c.policy))
  }

  ghost predicate SegmentsOf(c: Config, hashes: seq<Digest>, ctx: nat, end: nat, segments: seq<int>)
    requires ConfigOk(c)
  {
    if c.mode.Hybrid64? && c.policy.Admission64? then
      && Ascending(segments)
      && forall o :: o in segments <==>
                       0 < o < end - ctx && IsBoundary(hashes, ctx + o, end, c.blockSize, c.chunkTokens)
    else segments == []
  }

  function RestoreOf(a: Attached, computed: nat): Option<PrefixKey> {
    if computed == 0 then a.restore else None
  }

  /** Plan one step of a prefill and send its actions. */
  function SendPrefill(e: Env, s: Sys, tokens: seq<Token>, a: Attached, computed: nat, newSlot: bool,
      segments: seq<int>): Outcome
    requires ConfigOk(e.config)
  {
    var c, hashes := e.config, Hashes(tokens, e.config.blockSize);
    var step := StepOf(c, |tokens|, a, computed);
    if !step.Step? || step.end < 0 then SchedulerFailed
    else
      var ctx := ContextOf(c, a, computed);
      var points := PointsOf(c, hashes, a, ctx, step.end);
      var admission := AdmissionOf(c, s.resident, points);
      if |points| > MAX_CAPTURES then SchedulerFailed
      else
        var action := Prefill(tokens, newSlot, RestoreOf(a, computed), points, admission.evicted, segments, ctx,
            step.end);
        Moved(s.(resident := admission.resident, queue := s.queue + [action],
                 phase := Running(tokens, |tokens|, a, step.end, ctx)))
  }

  /** The step's message asks the block manager again and needs every block of the restored prefix. */
  predicate ExceedsLive(a: Attached, live: nat) {
    a.restore.Some? && a.restore.value.blocks > live
  }

  /** Admit a request: decide what it resumes from and what it keeps, then send its first step. The two questions
      to the block manager in one scheduling step get the same answer. */
  function Start(e: Env, s: Sys, tokens: seq<Token>, live: nat, newSlot: bool, segments: seq<int>): Outcome
    requires ConfigOk(e.config)
  {
    var a := Attach(e.config, Hashes(tokens, e.config.blockSize), |tokens|, live, s.resident);
    var resident := if a.restore.Some? then MoveToEnd(s.resident, a.restore.value) else s.resident;
    if ExceedsLive(a, live) then SchedulerFailed
    else SendPrefill(e, s.(resident := resident), tokens, a, 0, newSlot, segments)
  }

  ghost predicate SentSegments(e: Env, o: Outcome)
    requires ConfigOk(e.config)
  {
    o.Moved? && |o.sys.queue| > 0 && o.sys.queue[|o.sys.queue| - 1].Prefill? ==>
      var a := o.sys.queue[|o.sys.queue| - 1];
      SegmentsOf(e.config, Hashes(a.tokens, e.config.blockSize), a.ctx, a.end, a.segments)
  }

  ghost predicate Enabled(e: Env, s: Sys, ev: Event)
    requires ConfigOk(e.config)
  {
    match ev
    case Arrive(tokens, live, segments) =>
      s.phase.Idle? && |tokens| > 0 && SentSegments(e, Start(e, s, tokens, live, true, segments))
    case Resume(live, segments) =>
      s.phase.Preempted? && SentSegments(e, Start(e, s, s.phase.tokens, live, false, segments))
    case Continue(segments) =>
      && s.phase.Running? && s.phase.computed < s.phase.prompt
      && SentSegments(e, SendPrefill(e, s, s.phase.tokens, s.phase.attached, s.phase.computed, false, segments))
    case Generate(_) => s.phase.Running? && s.phase.computed == s.phase.prompt
    case Preempt(pending) => s.phase.Running? && (s.phase.computed < s.phase.prompt ==> pending == [])
    case Finish => s.phase.Running?
    case Work => |s.queue| > 0
  }

  function Apply(e: Env, s: Sys, ev: Event): Outcome
    requires ConfigOk(e.config)
  {
    match ev
    case Arrive(tokens, live, segments) => Start(e, s, tokens, live, true, segments)
    case Resume(live, segments) =>
      if !s.phase.Preempted? then SchedulerFailed else Start(e, s, s.phase.tokens, live, false, segments)
    case Continue(segments) =>
      if !s.phase.Running? then SchedulerFailed
      else SendPrefill(e, s, s.phase.tokens, s.phase.attached, s.phase.computed, false, segments)
    case Generate(token) =>
      if !s.phase.Running? then SchedulerFailed
      else
        var tokens := s.phase.tokens + [token];
        Moved(s.(phase := s.phase.(tokens := tokens), queue := s.queue + [Decode(tokens)]))
    case Preempt(pending) =>
      if !s.phase.Running? then SchedulerFailed else Moved(s.(phase := Preempted(s.phase.tokens + pending)))
    case Finish => Moved(s.(phase := Idle))
    case Work =>
      if |s.queue| == 0 || !WellFormed(e.model, s.worker) || !ActionShape(s.queue[0]) then SchedulerFailed else
      var r := Execute(e.model, s.worker, s.queue[0]);
      if r.Raised? then WorkerFailed(r.error) else Moved(s.(worker := r.worker, queue := s.queue[1..]))
  }

  // ---------- a planned step passes the worker's checks ----------

  lemma StepPlanned(e: Env, tokens: seq<Token>, a: Attached, computed: nat)
    requires EnvOk(e) && |tokens| > 0 && Resumable(e, tokens, a, computed)
    ensures var c, ctx := e.config, ContextOf(e.config, a, computed);
            && GoodStep(c, a, |tokens|, ctx, c.chunkTokens, true, StepOf(c, |tokens|, a, computed))
            && ctx % c.blockSize == 0
                && ctx == if computed == 0 then RestoreTokens(a.restore, c.blockSize) else computed
  {
    hide FirstStep, NextStep, GoodStep, AttachedOk;
    var c, L := e.config, |tokens|;
    ChunkHoldsBlocks(c);
    if computed == 0 {
      NumNewTokensFits(L, c.chunkTokens, c.blockSize);
      FirstStepGood(c, Hashes(tokens, c.blockSize), L, a, c.chunkTokens);
      RestoreIsWhole(a, c.blockSize);
    } else {
      NumNewTokensFits(L - computed, c.chunkTokens, c.blockSize);
      NextStepGood(c, Hashes(tokens, c.blockSize), L, a, computed, c.chunkTokens);
      assert computed == computed / c.blockSize * c.blockSize;
    }
  }

  lemma RestoreIsWhole(a: Attached, B: nat)
    requires B > 0
    ensures RestoreTokens(a.restore, B) % B == 0
  {
    if a.restore.Some? {
      MultipleDivides(a.restore.value.blocks, B);
    }
  }

  lemma ChunkHoldsBlocks(c: Config)
    requires ConfigOk(c)
    ensures 0 < c.blockSize <= c.chunkTokens && c.chunkTokens % c.blockSize == 0
  {
    MultiplesOrderedBlock(c.chunkTokens, c.blockSize);
  }

  /** A prefill may go on from here: nothing computed yet, or whole blocks past the restore point. */
  ghost predicate Resumable(e: Env, tokens: seq<Token>, a: Attached, computed: nat)
    requires ConfigOk(e.config)
  {
    && AttachedOk(e.config, Hashes(tokens, e.config.blockSize), |tokens|, a)
    && (e.config.policy.Off? ==> a.restore.None?)
    && (computed == 0 || (RestoreTokens(a.restore, e.config.blockSize) <= computed < |tokens|
        && computed % e.config.blockSize == 0))
  }

  lemma NamedPrefix(tokens: seq<Token>, B: nat, k: PrefixKey)
    requires B > 0 && NamesPrefix(k, Hashes(tokens, B))
    ensures Boundary(k, B) <= |tokens| && k.digest == tokens[..Boundary(k, B)]
  {
    BlockInside(|tokens|, B, k.blocks - 1);
  }

  lemma TargetsNamed(e: Env, tokens: seq<Token>, a: Attached, computed: nat, end: nat)
    requires EnvOk(e) && Resumable(e, tokens, a, computed)
    ensures var hashes := Hashes(tokens, e.config.blockSize);
            var targets := TargetsOf(e.config, hashes, a, end);
            |targets| <= MAX_CAPTURES && forall t | t in targets :: NamesPrefix(t, hashes)
  {
    hide FinalKey;
    var hashes := Hashes(tokens, e.config.blockSize);
    if e.config.policy.Fine32? && FinalKey(e.config, hashes, end).Some? {
      FinalInside(e.config, hashes, end);
    }
  }

  lemma WholeBlocksApart(ctx: nat, boundary: nat, B: nat)
    requires B > 0 && ctx % B == 0 && boundary % B == 0 && ctx < boundary
    ensures boundary - ctx >= B
  {
    MultiplesApart(ctx, boundary, B);
  }

  ghost predicate PointsFit(m: Model, tokens: seq<Token>, points: seq<CapturePoint>, ctx: nat, end: nat)
    requires ctx < end <= |tokens|
  {
    && |points| <= MAX_CAPTURES && CaptureError(points, end - ctx).None?
    && forall p | p in points :: m.window <= p.offset <= end - ctx && p.key.digest == tokens[..ctx + p.offset]
  }

  lemma PointsPlanned(e: Env, tokens: seq<Token>, a: Attached, computed: nat, ctx: nat, end: nat)
    requires EnvOk(e) && Resumable(e, tokens, a, computed) && ctx < end <= |tokens| && ctx % e.config.blockSize == 0
    ensures PointsFit(e.model, tokens, PointsOf(e.config, Hashes(tokens, e.config.blockSize), a, ctx, end), ctx, end)
  {
    hide TargetsOf, SelectPoints, AttachedOk, Boundary, Resumable;
    var B, hashes := e.config.blockSize, Hashes(tokens, e.config.blockSize);
    if !e.config.policy.Off? {
      var targets := TargetsOf(e.config, hashes, a, end);
      var points := SelectPoints(targets, ctx, end, B);
      TargetsNamed(e, tokens, a, computed, end);
      SelectSound(targets, ctx, end, B);
      forall p | p in points
        ensures e.model.window <= p.offset && p.key.digest == tokens[..ctx + p.offset]
      {
        NamedPrefix(tokens, B, p.key);
        BoundaryWhole(p.key, B);
        WholeBlocksApart(ctx, ctx + p.offset, B);
      }
    }
  }

  lemma BoundaryWhole(k: PrefixKey, B: nat)
    requires B > 0
    ensures Boundary(k, B) % B == 0
  {
    MultipleDivides(k.blocks, B);
  }

  lemma SegmentsPlanned(c: Config, hashes: seq<Digest>, ctx: nat, end: nat, segments: seq<int>)
    requires ConfigOk(c) && ctx < end && end - ctx <= c.chunkTokens && SegmentsOf(c, hashes, ctx, end, segments)
    ensures SegmentError(segments, end - ctx).None? && |segments| <= 3
  {
    hide IsBoundary;
    if c.mode.Hybrid64? && c.policy.Admission64? {
      AtMostThreeCuts(hashes, ctx, end, c.blockSize, c.chunkTokens, segments);
    }
    DistinctCount(segments);
    assert forall i | 0 <= i < |segments| :: segments[i] in segments;
  }

  /** The index after an admission holds what the worker will hold, and spares a restore that was just used. */
  lemma AdmissionMirrors(c: Config, resident: seq<PrefixKey>, restore: Option<PrefixKey>, points: seq<CapturePoint>,
      a: Action)
    requires Distinct(resident) && |resident| <= Capacity(c.policy) && |points| <= MAX_CAPTURES
    requires c.policy.Off? ==> restore.None? && points == []
    requires restore.Some? ==> |resident| > 0 && resident[|resident| - 1] == restore.value
    requires a.Prefill? && a.captures == points && a.evict == AdmissionOf(c, resident, points).evicted
    ensures var r := AdmissionOf(c, resident, points);
            && Distinct(r.resident) && |r.resident| <= Capacity(c.policy)
            && (restore.Some? ==> restore.value in resident && restore.value !in r.evicted)
            && Members(r.resident) == KeysAfter(Members(resident), a)
  {
    hide Admit, Distinct;
    if !c.policy.Off? {
      var n := if restore.Some? then |resident| - 1 else |resident|;
      assert resident[..n] + resident[n..] == resident;
      AdmitRecent(resident[..n], resident[n..], CaptureKeys(points), Capacity(c.policy));
      if restore.Some? {
        assert resident[n..] == [restore.value];
      }
    }
  }

  // ---------- the queue of actions ----------

  ghost predicate Runs(m: Model, w: Worker, q: seq<Action>)
    decreases |q|
  {
    && WellFormed(m, w)
    && (q == [] || (ActionShape(q[0]) && Execute(m, w, q[0]).Ran? && Runs(m, Execute(m, w, q[0]).worker, q[1..])))
  }

  /** The worker once every action in flight has been executed. */
  ghost function Drained(m: Model, w: Worker, q: seq<Action>): (r: Worker)
    requires Runs(m, w, q)
    ensures WellFormed(m, r)
    decreases |q|
  {
    if q == [] then w else Drained(m, Execute(m, w, q[0]).worker, q[1..])
  }

  /** Every state the worker ever caches on the way is the cold state of the prefix its key names. */
  ghost predicate TrueThroughout(m: Model, w: Worker, q: seq<Action>)
    requires Runs(m, w, q)
    decreases |q|
  {
    CacheTrue(m, w.cache) && (q == [] || TrueThroughout(m, Execute(m, w, q[0]).worker, q[1..]))
  }

  lemma {:induction false} DrainedTrue(m: Model, w: Worker, q: seq<Action>)
    requires Runs(m, w, q) && TrueThroughout(m, w, q)
    ensures CacheTrue(m, Drained(m, w, q).cache)
    decreases |q|
  {
    hide Execute, CacheTrue, WellFormed;
    if q != [] {
      DrainedTrue(m, Execute(m, w, q[0]).worker, q[1..]);
    }
  }

  lemma {:induction false} SendAction(m: Model, w: Worker, q: seq<Action>, a: Action)
    requires Runs(m, w, q) && ActionShape(a)
    requires Execute(m, Drained(m, w, q), a).Ran? && WellFormed(m, Execute(m, Drained(m, w, q), a).worker)
    ensures Runs(m, w, q + [a]) && Drained(m, w, q + [a]) == Execute(m, Drained(m, w, q), a).worker
    ensures TrueThroughout(m, w, q) && CacheTrue(m, Execute(m, Drained(m, w, q), a).worker.cache) ==>
              TrueThroughout(m, w, q + [a])
    decreases |q|
  {
    hide Execute, CacheTrue, WellFormed, ActionShape;
    if q == [] {
      assert q + [a] == [a] && [a][1..] == [];
    } else {
      assert (q + [a])[1..] == q[1..] + [a];
      SendAction(m, Execute(m, w, q[0]).worker, q[1..], a);
    }
  }

  // ---------- invariants ----------

  /** The index is within its capacity, the actions in flight all execute, and they leave the worker with
      exactly the keys of the index. */
  ghost predicate IndexOk(e: Env, s: Sys)
    requires ConfigOk(e.config)
  {
    && Distinct(s.resident) && |s.resident| <= Capacity(e.config.policy)
    && Runs(e.model, s.worker, s.queue)
    && Drained(e.model, s.worker, s.queue).cache.Keys == Members(s.resident)
  }

  ghost predicate PhaseOk(e: Env, phase: Phase)
    requires ConfigOk(e.config)
  {
    match phase
    case Idle => true
    case Preempted(tokens) => |tokens| > 0
    case Running(tokens, prompt, a, computed, start) =>
      && start < computed <= prompt <= |tokens|
      && (computed < prompt ==> prompt == |tokens| && Resumable(e, tokens, a, computed))
  }

  ghost predicate Mirror(e: Env, s: Sys)
    requires ConfigOk(e.config)
  {
    IndexOk(e, s) && PhaseOk(e, s.phase)
  }

  /** What the request slot holds once the actions in flight are done. */
  ghost predicate SlotTrue(m: Model, phase: Phase, slot: Slot) {
    phase.Running? && phase.start <= phase.computed <= phase.prompt <= |phase.tokens| ==>
      var p := phase;
      if p.computed < p.prompt then slot == Cold(m, p.tokens[..p.computed])
      else
        && (WindowFits(m, p.tokens, p.start, p.prompt) ==> slot == Cold(m, p.tokens))
        && (|p.tokens| == p.prompt ==>
              && slot.temporal == Cold(m, p.tokens).temporal
              && (slot == Cold(m, p.tokens) ==> WindowFits(m, p.tokens, p.start, p.prompt)))
  }

  ghost predicate States(e: Env, s: Sys)
    requires ConfigOk(e.config) && Mirror(e, s)
  {
    && TrueThroughout(e.model, s.worker, s.queue)
    && SlotTrue(e.model, s.phase, Drained(e.model, s.worker, s.queue).slot)
  }

  // ---------- sending a prefill step ----------

  /** What may be relied on when a step is about to be planned. */
  ghost predicate Sendable(e: Env, s: Sys, tokens: seq<Token>, a: Attached, computed: nat)
    requires ConfigOk(e.config)
  {
    && IndexOk(e, s) && |tokens| > 0 && Resumable(e, tokens, a, computed)
    && (RestoreOf(a, computed).Some? ==> |s.resident| > 0 && s.resident[|s.resident| - 1] == a.restore.value)
  }

  /** The action a planned step becomes. */
  ghost predicate SentAs(e: Env, s: Sys, tokens: seq<Token>, a: Attached, computed: nat, newSlot: bool, o: Outcome,
      act: Action)
    requires ConfigOk(e.config)
  {
    && o.Moved? && act.Prefill? && ActionShape(act) && act.tokens == tokens && act.newSlot == newSlot
    && o.sys.queue == s.queue + [act] && o.sys.worker == s.worker
    && act.restore == RestoreOf(a, computed) && act.ctx == ContextOf(e.config, a, computed)
    && PointsFit(e.model, tokens, act.captures, act.ctx, act.end)
    && o.sys.phase == Running(tokens, |tokens|, a, act.end, act.ctx)
    && (act.end < |tokens| ==> act.end - act.ctx >= e.model.window)
    && (act.restore.Some? ==> act.restore.value.digest == tokens[..act.ctx])
    && (computed != 0 ==> act.ctx == computed)
  }

  lemma SendIsGood(e: Env, s: Sys, tokens: seq<Token>, a: Attached, computed: nat, newSlot: bool,
      segments: seq<int>) returns (act: Action)
    requires EnvOk(e) && Sendable(e, s, tokens, a, computed)
    requires SentSegments(e, SendPrefill(e, s, tokens, a, computed, newSlot, segments))
    ensures var o := SendPrefill(e, s, tokens, a, computed, newSlot, segments);
            && SentAs(e, s, tokens, a, computed, newSlot, o, act)
            && Distinct(o.sys.resident) && |o.sys.resident| <= Capacity(e.config.policy)
            && PhaseOk(e, o.sys.phase)
            && SegmentError(act.segments, act.end - act.ctx).None?
            && (act.restore.Some? ==> act.restore.value in Members(s.resident) && act.restore.value !in act.evict)
            && Members(o.sys.resident) == KeysAfter(Members(s.resident), act)
  {
    hide StepOf, PointsOf, AdmissionOf, SegmentsOf, Distinct, AttachedOk, CaptureError, KeysAfter, SegmentError,
        Runs, Drained, Members;
    var c, L, hashes := e.config, |tokens|, Hashes(tokens, e.config.blockSize);
    var ctx, step := ContextOf(c, a, computed), StepOf(c, L, a, computed);
    StepPlanned(e, tokens, a, computed);
    PointsPlanned(e, tokens, a, computed, ctx, step.end);
    var o := SendPrefill(e, s, tokens, a, computed, newSlot, segments);
    act := o.sys.queue[|o.sys.queue| - 1];
    SegmentsPlanned(c, hashes, ctx, step.end, segments);
    AdmissionIsGood(e, s, tokens, a, computed, act);
    if step.end < L {
      ChunkHoldsBlocks(c);
      WholeBlocksApart(ctx, step.end, c.blockSize);
    }
    RestoreNamed(e, tokens, a);
  }

  lemma RestoreNamed(e: Env, tokens: seq<Token>, a: Attached)
    requires EnvOk(e) && AttachedOk(e.config, Hashes(tokens, e.config.blockSize), |tokens|, a)
    ensures a.restore.Some? ==> var n := RestoreTokens(a.restore, e.config.blockSize);
              n <= |tokens| && a.restore.value.digest == tokens[..n]
  {
    if a.restore.Some? {
      NamedPrefix(tokens, e.config.blockSize, a.restore.value);
    }
  }

  lemma AdmissionIsGood(e: Env, s: Sys, tokens: seq<Token>, a: Attached, computed: nat, act: Action)
    requires EnvOk(e) && Sendable(e, s, tokens, a, computed) && act.Prefill? && ActionShape(act)
    requires act.captures == PointsOf(e.config, Hashes(tokens, e.config.blockSize), a, act.ctx, act.end)
            && |act.captures| <= MAX_CAPTURES
    requires act.evict == AdmissionOf(e.config, s.resident, act.captures).evicted
            && act.restore == RestoreOf(a, computed)
    ensures var r := AdmissionOf(e.config, s.resident, act.captures);
            && Distinct(r.resident) && |r.resident| <= Capacity(e.config.policy)
            && (act.restore.Some? ==> act.restore.value in Members(s.resident) && act.restore.value !in act.evict)
            && Members(r.resident) == KeysAfter(Members(s.resident), act)
  {
    hide SelectPoints, AdmissionOf, TargetsOf, KeysAfter, Distinct, AttachedOk, Runs, Drained;
    AdmissionMirrors(e.config, s.resident, act.restore, act.captures, act);
  }

  lemma MirrorSent(e: Env, s: Sys, o: Outcome, tokens: seq<Token>, a: Attached, computed: nat, newSlot: bool,
      act: Action)
    requires ConfigOk(e.config) && IndexOk(e, s) && SentAs(e, s, tokens, a, computed, newSlot, o, act)
    requires Distinct(o.sys.resident) && |o.sys.resident| <= Capacity(e.config.policy) && PhaseOk(e, o.sys.phase)
    requires SegmentError(act.segments, act.end - act.ctx).None?
    requires act.restore.Some? ==> act.restore.value in Members(s.resident) && act.restore.value !in act.evict
    requires Members(o.sys.resident) == KeysAfter(Members(s.resident), act)
    ensures Mirror(e, o.sys)
    ensures var d := Drained(e.model, s.worker, s.queue);
            Execute(e.model, d, act).Ran?
                && Drained(e.model, o.sys.worker, o.sys.queue) == Execute(e.model, d, act).worker
  {
    hide Execute, Distinct, PhaseOk, CaptureError, SegmentError, Drained, Runs, KeysAfter, WellFormed,
        CapturesNamed, Members;
    ExecuteRuns(e.model, Drained(e.model, s.worker, s.queue), act);
    SendAction(e.model, s.worker, s.queue, act);
  }

  /** Sending a planned step keeps the mirror, whatever the slot holds. */
  lemma SendKeepsMirror(e: Env, s: Sys, tokens: seq<Token>, a: Attached, computed: nat, newSlot: bool,
      segments: seq<int>)
    requires EnvOk(e) && Sendable(e, s, tokens, a, computed)
    requires SentSegments(e, SendPrefill(e, s, tokens, a, computed, newSlot, segments))
    ensures var o := SendPrefill(e, s, tokens, a, computed, newSlot, segments); o.Moved? && Mirror(e, o.sys)
  {
    hide SendPrefill, IndexOk, Resumable, Distinct, SegmentError, KeysAfter, Members, PhaseOk, Mirror, SentSegments;
    var act := SendIsGood(e, s, tokens, a, computed, newSlot, segments);
    MirrorSent(e, s, SendPrefill(e, s, tokens, a, computed, newSlot, segments), tokens, a, computed, newSlot, act);
  }


  /** Sending a planned step from the true state of its context keeps every state true. */
  lemma SendKeepsStates(e: Env, s: Sys, tokens: seq<Token>, a: Attached, computed: nat, newSlot: bool,
      segments: seq<int>)
    requires EnvOk(e) && Sendable(e, s, tokens, a, computed) && TrueThroughout(e.model, s.worker, s.queue)
    requires SentSegments(e, SendPrefill(e, s, tokens, a, computed, newSlot, segments))
    requires RestoreOf(a, computed).None? ==>
               (if newSlot then Slot(Pads(e.model, e.model.window), e.model.zero)
                else Drained(e.model, s.worker, s.queue).slot) == Cold(e.model, tokens[..computed])
    ensures var o := SendPrefill(e, s, tokens, a, computed, newSlot, segments);
            o.Moved? && Mirror(e, o.sys) && States(e, o.sys)
  {
    hide SendPrefill, IndexOk, Resumable, Distinct, SegmentError, CaptureError, KeysAfter, Members, PhaseOk, Mirror,
        SentSegments, TrueThroughout, Execute, Cold, CacheTrue, Drained;
    var m := e.model;
    var act := SendIsGood(e, s, tokens, a, computed, newSlot, segments);
    var o := SendPrefill(e, s, tokens, a, computed, newSlot, segments);
    MirrorSent(e, s, o, tokens, a, computed, newSlot, act);
    IndexRuns(e, s);
    IndexRuns(e, o.sys);
    DrainedTrue(m, s.worker, s.queue);
    var d := Drained(m, s.worker, s.queue);
    PrefillIsCold(m, d, act);
    SendAction(m, s.worker, s.queue, act);
    assert tokens[..|tokens|] == tokens;
  }

  lemma IndexRuns(e: Env, s: Sys)
    requires ConfigOk(e.config) && (IndexOk(e, s) || Mirror(e, s))
    ensures Runs(e.model, s.worker, s.queue)
  {
    hide Runs, Drained, Distinct, PhaseOk;
  }

  // ---------- every event keeps the invariants ----------

  /** The premise on a request that was preempted for recomputation: it finds a state to restore. */
  predicate Restorable(e: Env, s: Sys, ev: Event)
    requires ConfigOk(e.config)
  {
    ev.Resume? && s.phase.Preempted? ==>
      Attach(e.config, Hashes(s.phase.tokens, e.config.blockSize), |s.phase.tokens|, ev.live, s.resident).restore.Some?
  }

  lemma AttachSendable(e: Env, s: Sys, tokens: seq<Token>, live: nat)
    requires EnvOk(e) && IndexOk(e, s) && |tokens| > 0
    ensures var a := Attach(e.config, Hashes(tokens, e.config.blockSize), |tokens|, live, s.resident);
            var resident := if a.restore.Some? then MoveToEnd(s.resident, a.restore.value) else s.resident;
            Sendable(e, s.(resident := resident), tokens, a, 0) && !ExceedsLive(a, live)
  {
    hide Attach, AttachedOk, Runs, Drained, Distinct, MoveToEnd;
    var a := Attach(e.config, Hashes(tokens, e.config.blockSize), |tokens|, live, s.resident);
    AttachMeaning(e.config, Hashes(tokens, e.config.blockSize), |tokens|, live, s.resident);
    if a.restore.Some? {
      MoveToEndDistinct(s.resident, a.restore.value);
      LastIsMoved(s.resident, a.restore.value);
      assert s.resident != [];
    }
  }

  lemma LastIsMoved(s: seq<PrefixKey>, k: PrefixKey)
    ensures |MoveToEnd(s, k)| > 0 && MoveToEnd(s, k)[|MoveToEnd(s, k)| - 1] == k
  {
  }

  lemma StartKeeps(e: Env, s: Sys, tokens: seq<Token>, live: nat, newSlot: bool, segments: seq<int>)
    requires EnvOk(e) && Mirror(e, s) && |tokens| > 0 && SentSegments(e, Start(e, s, tokens, live, newSlot, segments))
    ensures var o := Start(e, s, tokens, live, newSlot, segments);
            && o.Moved? && Mirror(e, o.sys)
            && var a := Attach(e.config, Hashes(tokens, e.config.blockSize), |tokens|, live, s.resident);
               (States(e, s) && (newSlot || a.restore.Some?) ==> States(e, o.sys))
  {
    hide SendPrefill, Sendable, IndexOk, PhaseOk, SlotTrue, TrueThroughout, Drained, Runs, Attach, MoveToEnd,
        Distinct, SentSegments;
    var a := Attach(e.config, Hashes(tokens, e.config.blockSize), |tokens|, live, s.resident);
    var resident := if a.restore.Some? then MoveToEnd(s.resident, a.restore.value) else s.resident;
    var t := s.(resident := resident);
    AttachSendable(e, s, tokens, live);
    SendKeepsMirror(e, t, tokens, a, 0, newSlot, segments);
    if States(e, s) && (newSlot || a.restore.Some?) {
      IndexRuns(e, s);
      assert tokens[..0] == [];
      SendKeepsStates(e, t, tokens, a, 0, newSlot, segments);
    }
  }

  lemma ContinueKeeps(e: Env, s: Sys, segments: seq<int>)
    requires EnvOk(e) && Mirror(e, s) && Enabled(e, s, Continue(segments))
    ensures var o := Apply(e, s, Continue(segments));
            o.Moved? && Mirror(e, o.sys) && (States(e, s) ==> States(e, o.sys))
  {
    hide SendPrefill, TrueThroughout, Drained, Runs, Distinct, SentSegments, AttachedOk, Cold;
    var p := s.phase;
    SendKeepsMirror(e, s, p.tokens, p.attached, p.computed, false, segments);
    if States(e, s) {
      SendKeepsStates(e, s, p.tokens, p.attached, p.computed, false, segments);
    }
  }

  lemma GenerateKeeps(e: Env, s: Sys, token: Token)
    requires EnvOk(e) && Mirror(e, s) && Enabled(e, s, Generate(token))
    ensures var o := Apply(e, s, Generate(token));
            o.Moved? && Mirror(e, o.sys) && (States(e, s) ==> States(e, o.sys))
  {
    hide Execute, TrueThroughout, Drained, Runs, Distinct, AttachedOk, Cold, WellFormed, CacheTrue, SentSegments;
    var tokens, d := s.phase.tokens + [token], Drained(e.model, s.worker, s.queue);
    assert tokens[..|tokens| - 1] == s.phase.tokens;
    DecodeIsCold(e.model, d, tokens);
    if s.phase.start <= s.phase.prompt {
      FitsLater(e.model, s.phase.tokens, token, s.phase.start, s.phase.prompt);
    }
    ExecuteRuns(e.model, d, Decode(tokens));
    if States(e, s) {
      DrainedTrue(e.model, s.worker, s.queue);
    }
    SendAction(e.model, s.worker, s.queue, Decode(tokens));
  }

  lemma WorkKeeps(e: Env, s: Sys)
    requires EnvOk(e) && Mirror(e, s) && |s.queue| > 0
    ensures var o := Apply(e, s, Work);
            o.Moved? && Mirror(e, o.sys) && (States(e, s) ==> States(e, o.sys))
  {
    hide Execute, Distinct, PhaseOk, SlotTrue, CacheTrue, WellFormed, ActionShape;
  }

  /** One event. The mirror is kept by every event; the states by every event whose resumed request restores. */
  lemma EventKeeps(e: Env, s: Sys, ev: Event)
    requires EnvOk(e) && Mirror(e, s) && Enabled(e, s, ev)
    ensures var o := Apply(e, s, ev);
            o.Moved? && Mirror(e, o.sys) && (States(e, s) && Restorable(e, s, ev) ==> States(e, o.sys))
  {
    match ev
    case Arrive(tokens, live, segments) =>
      hide Start, IndexOk, States, SentSegments;
      StartKeeps(e, s, tokens, live, true, segments);
    case Resume(live, segments) =>
      hide Start, IndexOk, States, SentSegments;
      StartKeeps(e, s, s.phase.tokens, live, false, segments);
    case Continue(segments) =>
      hide *;
      ContinueKeeps(e, s, segments);
    case Generate(token) =>
      hide *;
      GenerateKeeps(e, s, token);
    case Preempt(pending) =>
      hide Runs, Drained, TrueThroughout, Distinct, AttachedOk;
    case Finish =>
      hide Runs, Drained, TrueThroughout, Distinct, AttachedOk;
    case Work =>
      hide Apply, IndexOk, States;
      WorkKeeps(e, s);
  }

  // ---------- whole runs ----------

  ghost predicate Initial(e: Env, s: Sys) {
    s.resident == [] && s.phase == Idle && s.queue == [] && s.worker.cache == map[]
        && |s.worker.slot.conv| == e.model.window
  }

  ghost predicate IsRunOf(e: Env, states: seq<Sys>, events: seq<Event>)
    requires ConfigOk(e.config)
  {
    && |states| == |events| + 1 && Initial(e, states[0])
    && forall i | 0 <= i < |events| :: StepAt(e, states, events, i)
  }

  ghost predicate StepAt(e: Env, states: seq<Sys>, events: seq<Event>, i: nat)
    requires ConfigOk(e.config) && i < |events| < |states|
  {
    Enabled(e, states[i], events[i]) && Apply(e, states[i], events[i]) == Moved(states[i + 1])
  }

  /** No request of the run resumes after preemption without a state to restore. */
  ghost predicate AllRestorable(e: Env, states: seq<Sys>, events: seq<Event>)
    requires ConfigOk(e.config) && |states| == |events| + 1
  {
    forall i | 0 <= i < |events| :: RestorableAt(e, states, events, i)
  }

  predicate RestorableAt(e: Env, states: seq<Sys>, events: seq<Event>, i: nat)
    requires ConfigOk(e.config) && i < |events| < |states|
  {
    Restorable(e, states[i], events[i])
  }

  lemma InitialIsGood(e: Env, s: Sys)
    requires EnvOk(e) && Initial(e, s)
    ensures Mirror(e, s) && States(e, s)
  {
  }

  lemma ShorterRun(e: Env, states: seq<Sys>, events: seq<Event>)
    requires ConfigOk(e.config) && IsRunOf(e, states, events) && |events| > 0
    ensures var n := |events| - 1;
            && IsRunOf(e, states[..n + 1], events[..n])
            && (AllRestorable(e, states, events) ==> AllRestorable(e, states[..n + 1], events[..n]))
  {
    hide Enabled, Apply, Initial, Restorable, ConfigOk;
    var n := |events| - 1;
    var states', events' := states[..n + 1], events[..n];
    forall i | 0 <= i < n
      ensures StepAt(e, states', events', i)
      ensures AllRestorable(e, states, events) ==> RestorableAt(e, states', events', i)
    {
      assert StepAt(e, states, events, i);
      assert AllRestorable(e, states, events) ==> RestorableAt(e, states, events, i);
    }
  }

  lemma {:induction false} RunKeeps(e: Env, states: seq<Sys>, events: seq<Event>)
    requires EnvOk(e) && IsRunOf(e, states, events)
    ensures Mirror(e, states[|events|])
    ensures AllRestorable(e, states, events) ==> States(e, states[|events|])
    decreases |events|
  {
    hide Enabled, Apply, Mirror, States, Restorable, Initial;
    if |events| == 0 {
      InitialIsGood(e, states[0]);
    } else {
      var n := |events| - 1;
      ShorterRun(e, states, events);
      RunKeeps(e, states[..n + 1], events[..n]);
      assert StepAt(e, states, events, n);
      assert AllRestorable(e, states, events) ==> RestorableAt(e, states, events, n);
      EventKeeps(e, states[n], events[n]);
    }
  }

  /** For every run: the index stays within its capacity, and an idle worker holds exactly its keys. */
  lemma RunsMirror(e: Env, states: seq<Sys>, events: seq<Event>)
    requires EnvOk(e) && IsRunOf(e, states, events)
    ensures var s := states[|events|];
            && |s.resident| <= Capacity(e.config.policy)
            && (s.queue == [] ==> s.worker.cache.Keys == Members(s.resident))
  {
    hide StepAt, States, PhaseOk, Distinct, Initial, AllRestorable;
    RunKeeps(e, states, events);
  }

  /** For every run: no event that may come next makes the scheduler or the worker fail. */
  lemma RunsNeverFail(e: Env, states: seq<Sys>, events: seq<Event>, ev: Event)
    requires EnvOk(e) && IsRunOf(e, states, events) && Enabled(e, states[|events|], ev)
    ensures Apply(e, states[|events|], ev).Moved?
  {
    hide Enabled, Apply, StepAt, States, Mirror, Initial, AllRestorable;
    RunKeeps(e, states, events);
    EventKeeps(e, states[|events|], ev);
  }

  /** For every run without unrestored resumptions: each state in the worker's cache is the cold left-to-right
      state of exactly the prefix its key names. */
  lemma CachedStatesAreCold(e: Env, states: seq<Sys>, events: seq<Event>)
    requires EnvOk(e) && IsRunOf(e, states, events) && AllRestorable(e, states, events)
    ensures var cache := states[|events|].worker.cache; forall k | k in cache :: cache[k] == Cold(e.model, k.digest)
  {
    hide Enabled, Apply, PhaseOk, Distinct, IsRunOf, AllRestorable, Cold, Runs, Drained, SlotTrue;
    RunKeeps(e, states, events);
  }

  /** In such a run a request ends its prompt in the cold recurrent state, restored or not; and in the cold
      convolution window too if and only if the window of its last step fits. */
  lemma PromptEndsCold(e: Env, states: seq<Sys>, events: seq<Event>)
    requires EnvOk(e) && IsRunOf(e, states, events) && AllRestorable(e, states, events)
    requires var s := states[|events|];
             s.queue == [] && s.phase.Running? && s.phase.computed == s.phase.prompt == |s.phase.tokens|
    ensures var s, cold := states[|events|], Cold(e.model, states[|events|].phase.tokens);
            && s.worker.slot.temporal == cold.temporal
            && s.phase.start <= s.phase.prompt
            && (s.worker.slot == cold <==> WindowFits(e.model, s.phase.tokens, s.phase.start, s.phase.prompt))
  {
    hide Enabled, Apply, Distinct, IsRunOf, AllRestorable, Cold, Execute, AttachedOk;
    RunKeeps(e, states, events);
  }
}
