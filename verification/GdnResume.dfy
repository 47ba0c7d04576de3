/** A request preempted for recomputation keeps its state slot. What that means for the states of a run, exactly. */
module GdnResume {
  import opened GdnPolicy
  import opened GdnPrefix
  import opened GdnProtocol
  import opened GdnScheduling
  import opened GdnWorker
  import opened Sequences

  // ---------- states that remember how much they have seen ----------

  /** Some size of the recurrent state starts at nothing and grows with every token. */
  ghost predicate Grows(m: Model, size: Temporal -> nat) {
    size(m.zero) == 0 && forall t, xs :: size(m.update(t, xs)) > size(t)
  }

  /** The size is a count of tokens. */
  ghost predicate Counts(m: Model, size: Temporal -> nat) {
    size(m.zero) == 0 && forall t, xs :: size(m.update(t, xs)) == size(t) + 1
  }

  lemma {:induction false} TemporalGrows(m: Model, size: Temporal -> nat, t: Temporal, padded: seq<Vector>, o: nat)
    requires Grows(m, size) && o + m.window <= |padded|
    ensures size(TemporalAt(m, t, padded, o)) >= size(t) + o
  {
    if o > 0 {
      TemporalGrows(m, size, t, padded, o - 1);
    }
  }

  lemma {:induction false} TemporalCounts(m: Model, size: Temporal -> nat, t: Temporal, padded: seq<Vector>, o: nat)
    requires Counts(m, size) && o + m.window <= |padded|
    ensures size(TemporalAt(m, t, padded, o)) == size(t) + o
  {
    if o > 0 {
      TemporalCounts(m, size, t, padded, o - 1);
    }
  }

  lemma {:induction false} ColdCounts(m: Model, size: Temporal -> nat, p: seq<Token>)
    requires Counts(m, size)
    ensures size(Cold(m, p).temporal) == |p|
  {
    if p != [] {
      ColdCounts(m, size, p[..|p| - 1]);
    }
  }

  /** The slot a prefill action starts from. */
  function FromSlot(m: Model, d: Worker, act: Action): Slot
    requires act.Prefill? && (act.restore.Some? ==> act.restore.value in d.cache)
  {
    if act.restore.Some? then d.cache[act.restore.value] else StartSlot(m, d, act)
  }

  lemma FromSlotWide(m: Model, d: Worker, act: Action)
    requires WellFormed(m, d) && act.Prefill? && (act.restore.Some? ==> act.restore.value in d.cache)
    ensures |FromSlot(m, d, act).conv| == m.window
  {
  }

  lemma PrefillTemporal(m: Model, d: Worker, act: Action)
    requires WellFormed(m, d) && act.Prefill? && ActionShape(act) && Execute(m, d, act).Ran?
    requires act.restore.Some? ==> act.restore.value in d.cache && act.restore.value !in act.evict
    ensures var from := FromSlot(m, d, act);
            Execute(m, d, act).worker.slot.temporal ==
              TemporalAt(m, from.temporal, Padded(m, from, act.tokens, act.ctx, act.end), act.end - act.ctx)
  {
    hide Save, CaptureError, SegmentError, TemporalAt, Padded;
  }

  // ---------- what a sent step does to the slot ----------

  /** A planned step, once executed, has run its tokens over the slot it starts from. */
  lemma StepRuns(e: Env, s: Sys, tokens: seq<Token>, a: Attached, computed: nat, newSlot: bool, segments: seq<int>)
      returns (act: Action)
    requires EnvOk(e) && Sendable(e, s, tokens, a, computed)
    requires SentSegments(e, SendPrefill(e, s, tokens, a, computed, newSlot, segments))
    ensures var o := SendPrefill(e, s, tokens, a, computed, newSlot, segments);
            var d := Drained(e.model, s.worker, s.queue);
            && SentAs(e, s, tokens, a, computed, newSlot, o, act) && Mirror(e, o.sys)
            && (act.restore.Some? ==> act.restore.value in d.cache)
            && var from := FromSlot(e.model, d, act);
               |from.conv| == e.model.window && Drained(e.model, o.sys.worker, o.sys.queue).slot.temporal ==
                 TemporalAt(e.model, from.temporal, Padded(e.model, from, tokens, act.ctx, act.end), act.end - act.ctx)
  {
    hide SendPrefill, Resumable, Distinct, SegmentError, CaptureError, KeysAfter, PhaseOk, Mirror, SentSegments,
         Execute, Runs, Drained, TemporalAt, Padded, StartSlot;
    act := SendIsGood(e, s, tokens, a, computed, newSlot, segments);
    MirrorSent(e, s, SendPrefill(e, s, tokens, a, computed, newSlot, segments), tokens, a, computed, newSlot, act);
    PrefillTemporal(e.model, Drained(e.model, s.worker, s.queue), act);
    FromSlotWide(e.model, Drained(e.model, s.worker, s.queue), act);
  }

  // ---------- a slot that has run is not the empty prefix ----------

  /** A running or preempted request has left something in its slot. */
  ghost predicate Touched(e: Env, s: Sys, size: Temporal -> nat)
    requires ConfigOk(e.config) && Mirror(e, s)
  {
    !s.phase.Idle? ==> size(Drained(e.model, s.worker, s.queue).slot.temporal) > 0
  }

  lemma StepTouches(e: Env, s: Sys, tokens: seq<Token>, a: Attached, computed: nat, newSlot: bool, segments: seq<int>,
      size: Temporal -> nat)
    requires EnvOk(e) && Sendable(e, s, tokens, a, computed) && Grows(e.model, size)
    requires SentSegments(e, SendPrefill(e, s, tokens, a, computed, newSlot, segments))
    ensures var o := SendPrefill(e, s, tokens, a, computed, newSlot, segments);
            o.Moved? && Mirror(e, o.sys) && Touched(e, o.sys, size)
  {
    hide SendPrefill, IndexOk, Resumable, Mirror, SentSegments, Execute, Runs, Drained, TemporalAt, StartSlot,
         PointsFit;
    IndexRuns(e, s);
    var act := StepRuns(e, s, tokens, a, computed, newSlot, segments);
    StepMirrors(e, s, tokens, a, computed, newSlot, segments);
    var from := FromSlot(e.model, Drained(e.model, s.worker, s.queue), act);
    TemporalGrows(e.model, size, from.temporal, Padded(e.model, from, tokens, act.ctx, act.end), act.end - act.ctx);
  }

  lemma StepMirrors(e: Env, s: Sys, tokens: seq<Token>, a: Attached, computed: nat, newSlot: bool, segments: seq<int>)
    requires EnvOk(e) && Sendable(e, s, tokens, a, computed)
    requires SentSegments(e, SendPrefill(e, s, tokens, a, computed, newSlot, segments))
    ensures var o := SendPrefill(e, s, tokens, a, computed, newSlot, segments); o.Moved? && Mirror(e, o.sys)
  {
    hide *;
    SendKeepsMirror(e, s, tokens, a, computed, newSlot, segments);
  }

  lemma StartTouches(e: Env, s: Sys, tokens: seq<Token>, live: nat, newSlot: bool, segments: seq<int>,
      size: Temporal -> nat)
    requires EnvOk(e) && Mirror(e, s) && |tokens| > 0 && Grows(e.model, size)
    requires SentSegments(e, Start(e, s, tokens, live, newSlot, segments))
    ensures var o := Start(e, s, tokens, live, newSlot, segments);
            o.Moved? && Mirror(e, o.sys) && Touched(e, o.sys, size)
  {
    hide SendPrefill, Sendable, IndexOk, PhaseOk, Touched, Attach, MoveToEnd, SentSegments, Grows;
    var a := Attach(e.config, Hashes(tokens, e.config.blockSize), |tokens|, live, s.resident);
    var resident := if a.restore.Some? then MoveToEnd(s.resident, a.restore.value) else s.resident;
    AttachSendable(e, s, tokens, live);
    StepTouches(e, s.(resident := resident), tokens, a, 0, newSlot, segments, size);
  }

  /** The slot after a decode, once everything in flight is done. */
  lemma DecodeRuns(e: Env, s: Sys, token: Token)
    requires EnvOk(e) && Mirror(e, s) && Enabled(e, s, Generate(token))
    ensures var o := Apply(e, s, Generate(token));
            && o.Moved? && Mirror(e, o.sys)
            && exists xs :: Drained(e.model, o.sys.worker, o.sys.queue).slot.temporal ==
                            e.model.update(Drained(e.model, s.worker, s.queue).slot.temporal, xs)
  {
    hide TrueThroughout, Drained, Runs, Distinct, AttachedOk, Cold, CacheTrue, SentSegments;
    GenerateKeeps(e, s, token);
    var tokens, d := s.phase.tokens + [token], Drained(e.model, s.worker, s.queue);
    ExecuteRuns(e.model, d, Decode(tokens));
    SendAction(e.model, s.worker, s.queue, Decode(tokens));
    var inputs := d.slot.conv + [e.model.input(tokens)];
    assert Execute(e.model, d, Decode(tokens)).worker.slot.temporal == e.model.update(d.slot.temporal, inputs);
  }

  lemma WorkRuns(e: Env, s: Sys)
    requires EnvOk(e) && Mirror(e, s) && |s.queue| > 0
    ensures var o := Apply(e, s, Work);
            && o.Moved? && Mirror(e, o.sys)
            && Drained(e.model, o.sys.worker, o.sys.queue) == Drained(e.model, s.worker, s.queue)
  {
    hide Execute, Distinct, PhaseOk, WellFormed, ActionShape;
    WorkKeeps(e, s);
  }

  lemma EventTouches(e: Env, s: Sys, ev: Event, size: Temporal -> nat)
    requires EnvOk(e) && Mirror(e, s) && Enabled(e, s, ev) && Touched(e, s, size) && Grows(e.model, size)
    ensures var o := Apply(e, s, ev); o.Moved? && Mirror(e, o.sys) && Touched(e, o.sys, size)
  {
    match ev
    case Arrive(tokens, live, segments) =>
      hide Start, IndexOk, Touched, SentSegments, Grows;
      StartTouches(e, s, tokens, live, true, segments, size);
    case Resume(live, segments) =>
      hide Start, IndexOk, Touched, SentSegments, Grows;
      StartTouches(e, s, s.phase.tokens, live, false, segments, size);
    case Continue(segments) =>
      hide SendPrefill, IndexOk, Touched, SentSegments, Grows, AttachedOk;
      var p := s.phase;
      StepTouches(e, s, p.tokens, p.attached, p.computed, false, segments, size);
    case Generate(token) =>
      hide IndexOk, PhaseOk, Drained;
      DecodeRuns(e, s, token);
    case Work =>
      hide IndexOk, PhaseOk, Drained;
      WorkRuns(e, s);
    case Preempt(pending) =>
      hide Runs, Drained, Distinct, AttachedOk;
    case Finish =>
      hide Runs, Drained, Distinct, AttachedOk;
  }

  lemma {:induction false} RunTouches(e: Env, states: seq<Sys>, events: seq<Event>, size: Temporal -> nat)
    requires EnvOk(e) && IsRunOf(e, states, events) && Grows(e.model, size)
    ensures Mirror(e, states[|events|]) && Touched(e, states[|events|], size)
    decreases |events|
  {
    hide Enabled, Apply, Mirror, Grows, Touched;
    if |events| == 0 {
      InitialIsGood(e, states[0]);
      hide *;
      IdleUntouched(e, states[0], size);
    } else {
      var n := |events| - 1;
      ShorterRun(e, states, events);
      RunTouches(e, states[..n + 1], events[..n], size);
      assert StepAt(e, states, events, n);
      EventTouches(e, states[n], events[n], size);
    }
  }

  lemma IdleUntouched(e: Env, s: Sys, size: Temporal -> nat)
    requires ConfigOk(e.config) && Mirror(e, s) && Initial(e, s)
    ensures Touched(e, s, size)
  {
  }

  // ---------- the start of a resumed request ----------

  /** In any run so far sound, a preempted request that resumes starts its first step from the true state of its
      context if and only if it restores a state. */
  lemma ResumeStart(e: Env, states: seq<Sys>, events: seq<Event>, live: nat, segments: seq<int>, size: Temporal -> nat)
      returns (act: Action)
    requires EnvOk(e) && IsRunOf(e, states, events) && AllRestorable(e, states, events) && Grows(e.model, size)
    requires Enabled(e, states[|events|], Resume(live, segments))
    ensures var s := states[|events|];
            && Mirror(e, s) && StartsAs(e, s, live, segments, act)
            && (RightStart(e, s, act) <==> Restorable(e, s, Resume(live, segments)))
  {
    hide StepAt, Initial, AllRestorable, Grows, Enabled, Mirror, Restorable, StartsAs, RightStart;
    RunKeeps(e, states, events);
    RunTouches(e, states, events, size);
    act := ResumeFrom(e, states[|events|], live, segments, size);
  }

  lemma ResumeFrom(e: Env, s: Sys, live: nat, segments: seq<int>, size: Temporal -> nat) returns (act: Action)
    requires EnvOk(e) && Mirror(e, s) && States(e, s) && Touched(e, s, size) && Grows(e.model, size)
    requires Enabled(e, s, Resume(live, segments))
    ensures StartsAs(e, s, live, segments, act)
    ensures RightStart(e, s, act) <==> Restorable(e, s, Resume(live, segments))
  {
    hide SendPrefill, Runs, Drained, Attach, States, Execute, IndexOk, PhaseOk, Apply;
    act := RestoredFrom(e, s, live, segments);
    assert act.tokens[..0] == [];
  }

  /** The step that a resumption sends. */
  ghost predicate StartsAs(e: Env, s: Sys, live: nat, segments: seq<int>, act: Action)
    requires ConfigOk(e.config) && Mirror(e, s)
  {
    var o := Apply(e, s, Resume(live, segments));
    && o.Moved? && o.sys.queue == s.queue + [act] && act.Prefill? && ActionShape(act)
    && (act.restore.Some? ==> act.restore.value in Drained(e.model, s.worker, s.queue).cache)
    && (act.restore.Some? <==> Restorable(e, s, Resume(live, segments)))
    && (act.restore.None? ==> act.ctx == 0 && !act.newSlot)
  }

  /** It starts from the true state of its context. */
  ghost predicate RightStart(e: Env, s: Sys, act: Action)
    requires ConfigOk(e.config) && Mirror(e, s) && act.Prefill? && ActionShape(act)
    requires act.restore.Some? ==> act.restore.value in Drained(e.model, s.worker, s.queue).cache
  {
    FromSlot(e.model, Drained(e.model, s.worker, s.queue), act) == Cold(e.model, act.tokens[..act.ctx])
  }

  lemma RestoredFrom(e: Env, s: Sys, live: nat, segments: seq<int>) returns (act: Action)
    requires EnvOk(e) && Mirror(e, s) && States(e, s) && Enabled(e, s, Resume(live, segments))
    ensures StartsAs(e, s, live, segments, act)
    ensures Restorable(e, s, Resume(live, segments)) ==> RightStart(e, s, act)
  {
    hide SendPrefill, Runs, Drained, Attach, MoveToEnd, Distinct, TrueThroughout, SlotTrue, PointsFit, KeysAfter,
         SegmentError, ContextOf, Execute, TemporalAt, Padded;
    var tokens := s.phase.tokens;
    var a := Attach(e.config, Hashes(tokens, e.config.blockSize), |tokens|, live, s.resident);
    var t := s.(resident := if a.restore.Some? then MoveToEnd(s.resident, a.restore.value) else s.resident);
    AttachSendable(e, s, tokens, live);
    act := StepRuns(e, t, tokens, a, 0, false, segments);
    DrainedTrue(e.model, s.worker, s.queue);
    NoRestoreAtZero(e.config, a);
  }

  lemma NoRestoreAtZero(c: Config, a: Attached)
    requires ConfigOk(c)
    ensures a.restore.None? ==> ContextOf(c, a, 0) == 0
  {
  }

  // ---------- the end of its prompt ----------

  /** The tokens a running request has run, by the scheduler's account. */
  function Processed(phase: Phase): nat
    requires phase.Running?
  {
    if phase.computed < phase.prompt then phase.computed else |phase.tokens|
  }

  /** The slot of a running request has seen debt tokens too many. */
  ghost predicate Owes(e: Env, s: Sys, size: Temporal -> nat, debt: nat)
    requires ConfigOk(e.config) && Mirror(e, s)
  {
    s.phase.Running? ==> size(Drained(e.model, s.worker, s.queue).slot.temporal) == debt + Processed(s.phase)
  }

  predicate Admits(ev: Event) {
    ev.Arrive? || ev.Resume?
  }

  lemma StepOwes(e: Env, s: Sys, tokens: seq<Token>, a: Attached, computed: nat, newSlot: bool, segments: seq<int>,
      size: Temporal -> nat, debt: nat)
    requires EnvOk(e) && Sendable(e, s, tokens, a, computed) && Counts(e.model, size)
    requires SentSegments(e, SendPrefill(e, s, tokens, a, computed, newSlot, segments))
    requires RestoreOf(a, computed).None? && !newSlot && IndexOk(e, s)
    requires Runs(e.model, s.worker, s.queue)
    requires size(Drained(e.model, s.worker, s.queue).slot.temporal) == debt + computed
    ensures var o := SendPrefill(e, s, tokens, a, computed, newSlot, segments);
            o.Moved? && Mirror(e, o.sys) && Owes(e, o.sys, size, debt)
  {
    hide SendPrefill, IndexOk, Resumable, Mirror, SentSegments, Execute, Runs, Drained, TemporalAt, PointsFit;
    var act := StepRuns(e, s, tokens, a, computed, newSlot, segments);
    StepMirrors(e, s, tokens, a, computed, newSlot, segments);
    var from := FromSlot(e.model, Drained(e.model, s.worker, s.queue), act);
    TemporalCounts(e.model, size, from.temporal, Padded(e.model, from, tokens, act.ctx, act.end), act.end - act.ctx);
    if computed == 0 {
      NoRestoreAtZero(e.config, a);
    }
  }

  /** Without a new admission the debt stays as it is. */
  lemma EventOwes(e: Env, s: Sys, ev: Event, size: Temporal -> nat, debt: nat)
    requires EnvOk(e) && Mirror(e, s) && Enabled(e, s, ev) && Owes(e, s, size, debt) && Counts(e.model, size)
    requires !Admits(ev)
    ensures var o := Apply(e, s, ev); o.Moved? && Mirror(e, o.sys) && Owes(e, o.sys, size, debt)
  {
    match ev
    case Continue(segments) =>
      hide SendPrefill, SentSegments, Counts, AttachedOk, Runs, Drained, Distinct;
      var p := s.phase;
      StepOwes(e, s, p.tokens, p.attached, p.computed, false, segments, size, debt);
    case Generate(token) =>
      hide IndexOk, Drained, AttachedOk;
      DecodeRuns(e, s, token);
    case Work =>
      hide IndexOk, PhaseOk, Drained;
      WorkRuns(e, s);
    case Preempt(pending) =>
      hide Runs, Drained, Distinct, AttachedOk;
    case Finish =>
      hide Runs, Drained, Distinct, AttachedOk;
  }

  /** A resumption without a state to restore owes what its slot had seen before. */
  lemma ResumeOwes(e: Env, s: Sys, live: nat, segments: seq<int>, size: Temporal -> nat)
    requires EnvOk(e) && Mirror(e, s) && Enabled(e, s, Resume(live, segments)) && Counts(e.model, size)
    requires !Restorable(e, s, Resume(live, segments))
    ensures Runs(e.model, s.worker, s.queue)
    ensures var o := Apply(e, s, Resume(live, segments));
            && o.Moved? && Mirror(e, o.sys)
            && Owes(e, o.sys, size, size(Drained(e.model, s.worker, s.queue).slot.temporal))
  {
    hide SendPrefill, IndexOk, Attach, SentSegments, Counts, Drained, Runs, Owes, ExceedsLive, Resumable;
    IndexRuns(e, s);
    var tokens := s.phase.tokens;
    var a := Attach(e.config, Hashes(tokens, e.config.blockSize), |tokens|, live, s.resident);
    AttachSendable(e, s, tokens, live);
    StepOwes(e, s, tokens, a, 0, false, segments, size, size(Drained(e.model, s.worker, s.queue).slot.temporal));
  }

  lemma {:induction false} DebtStays(e: Env, states: seq<Sys>, events: seq<Event>, k: nat, size: Temporal -> nat,
      debt: nat)
    requires EnvOk(e) && IsRunOf(e, states, events) && Counts(e.model, size) && k < |events|
    requires forall i | k < i < |events| :: !Admits(events[i])
    requires Mirror(e, states[k + 1]) && Owes(e, states[k + 1], size, debt)
    ensures Mirror(e, states[|events|]) && Owes(e, states[|events|], size, debt)
    decreases |events|
  {
    hide Enabled, Apply, Mirror, Counts, Owes, Initial, Admits;
    if k + 1 < |events| {
      var n := |events| - 1;
      ShorterRun(e, states, events);
      DebtStays(e, states[..n + 1], events[..n], k, size, debt);
      assert StepAt(e, states, events, n);
      EventOwes(e, states[n], events[n], size, debt);
    }
  }

  lemma CountsGrows(m: Model, size: Temporal -> nat)
    requires Counts(m, size)
    ensures Grows(m, size)
  {
  }

  /** k is the admission of the request that runs now. */
  ghost predicate LastAdmission(events: seq<Event>, k: nat) {
    k < |events| && Admits(events[k]) && forall i | k < i < |events| :: !Admits(events[i])
  }

  /** In a run that was sound until the last admission, the request admitted then ends its prompt in the cold
      recurrent state if and only if it was not a resumption without a state to restore. */
  lemma PromptEndExactly(e: Env, states: seq<Sys>, events: seq<Event>, k: nat, size: Temporal -> nat)
    requires EnvOk(e) && IsRunOf(e, states, events) && Counts(e.model, size) && LastAdmission(events, k)
    requires forall i | 0 <= i < k :: RestorableAt(e, states, events, i)
    requires var s := states[|events|];
             s.queue == [] && s.phase.Running? && s.phase.computed == s.phase.prompt == |s.phase.tokens|
    ensures states[|events|].worker.slot.temporal == Cold(e.model, states[|events|].phase.tokens).temporal
            <==> RestorableAt(e, states, events, k)
  {
    hide Enabled, Apply, Cold, Counts, Initial, Restorable;
    if RestorableAt(e, states, events, k) {
      forall i | 0 <= i < |events|
        ensures RestorableAt(e, states, events, i)
      {
        if i > k {
          NoResumption(e, states, events, i);
        }
      }
      PromptEndsCold(e, states, events);
    } else {
      UnrestoredEnd(e, states, events, k, size);
    }
  }

  lemma NoResumption(e: Env, states: seq<Sys>, events: seq<Event>, i: nat)
    requires ConfigOk(e.config) && i < |events| < |states| && !Admits(events[i])
    ensures RestorableAt(e, states, events, i)
  {
  }

  lemma UnrestoredEnd(e: Env, states: seq<Sys>, events: seq<Event>, k: nat, size: Temporal -> nat)
    requires EnvOk(e) && IsRunOf(e, states, events) && Counts(e.model, size) && LastAdmission(events, k)
    requires !RestorableAt(e, states, events, k)
    requires var s := states[|events|];
             s.queue == [] && s.phase.Running? && s.phase.computed == s.phase.prompt == |s.phase.tokens|
    ensures states[|events|].worker.slot.temporal != Cold(e.model, states[|events|].phase.tokens).temporal
  {
    hide Enabled, Apply, Cold, Counts, Initial, Mirror, Owes, Grows;
    CountsGrows(e.model, size);
    PrefixRun(e, states, events, k);
    RunTouches(e, states[..k + 1], events[..k], size);
    assert StepAt(e, states, events, k);
    ResumeOwes(e, states[k], events[k].live, events[k].segments, size);
    var debt := size(Drained(e.model, states[k].worker, states[k].queue).slot.temporal);
    DebtStays(e, states, events, k, size, debt);
    var s := states[|events|];
    ColdCounts(e.model, size, s.phase.tokens);
    OwesAtEnd(e, s, size, debt);
    OwesSome(e, states[k], size);
  }

  lemma OwesAtEnd(e: Env, s: Sys, size: Temporal -> nat, debt: nat)
    requires ConfigOk(e.config) && Mirror(e, s) && Owes(e, s, size, debt) && s.queue == []
    requires s.phase.Running? && s.phase.computed == s.phase.prompt
    ensures size(s.worker.slot.temporal) == debt + |s.phase.tokens|
  {
  }

  lemma OwesSome(e: Env, s: Sys, size: Temporal -> nat)
    requires ConfigOk(e.config) && Mirror(e, s) && Touched(e, s, size) && s.phase.Preempted?
    ensures size(Drained(e.model, s.worker, s.queue).slot.temporal) > 0
  {
  }

  lemma PrefixRun(e: Env, states: seq<Sys>, events: seq<Event>, k: nat)
    requires ConfigOk(e.config) && IsRunOf(e, states, events) && k <= |events|
    ensures IsRunOf(e, states[..k + 1], events[..k])
  {
    hide Enabled, Apply, Initial, ConfigOk;
    var states', events' := states[..k + 1], events[..k];
    forall i | 0 <= i < k
      ensures StepAt(e, states', events', i)
    {
      assert StepAt(e, states, events, i);
    }
  }

  // ---------- the tokens of a request ----------

  /** The tokens of the request that arrived last: its own, then those it generated, with those still to be written when
      it was preempted. */
  function Spoken(events: seq<Event>): seq<Token> {
    if events == [] then [] else
      var before := events[..|events| - 1];
      match events[|events| - 1]
      case Arrive(tokens, _, _) => tokens
      case Generate(token) => Spoken(before) + [token]
      case Preempt(pending) => Spoken(before) + pending
      case _ => Spoken(before)
  }

  /** Running or preempted, a request keeps all its tokens. */
  lemma {:induction false} RequestTokens(e: Env, states: seq<Sys>, events: seq<Event>)
    requires EnvOk(e) && IsRunOf(e, states, events)
    ensures !states[|events|].phase.Idle? ==> states[|events|].phase.tokens == Spoken(events)
    decreases |events|
  {
    hide Enabled, Apply, Initial, Sent;
    NothingSpoken(e, states[0]);
    if events != [] {
      var n := |events| - 1;
      ShorterRun(e, states, events);
      RequestTokens(e, states[..n + 1], events[..n]);
      assert StepAt(e, states, events, n);
      EventTokens(e, states[n], events[n]);
    }
  }

  lemma NothingSpoken(e: Env, s: Sys)
    ensures Initial(e, s) ==> s.phase.Idle?
  {
  }

  /** Every prefill and every decode step is sent with exactly the tokens there are by then. */
  lemma SentTokens(e: Env, states: seq<Sys>, events: seq<Event>, i: nat)
    requires EnvOk(e) && IsRunOf(e, states, events) && i < |events|
    ensures var q, q' := states[i].queue, states[i + 1].queue;
            if Admits(events[i]) || events[i].Continue? || events[i].Generate? then
              && |q'| == |q| + 1 && q'[..|q|] == q
              && q'[|q|].tokens == Spoken(events[..i + 1]) && q'[|q|].Decode? == events[i].Generate?
            else q' == if events[i].Work? && |q| > 0 then q[1..] else q
  {
    hide Enabled, Apply, Initial;
    PrefixRun(e, states, events, i);
    RequestTokens(e, states[..i + 1], events[..i]);
    assert StepAt(e, states, events, i);
    EventTokens(e, states[i], events[i]);
    assert events[..i + 1][..i] == events[..i];
  }

  lemma EventTokens(e: Env, s: Sys, ev: Event)
    requires EnvOk(e) && Enabled(e, s, ev) && Apply(e, s, ev).Moved?
    ensures var o := Apply(e, s, ev).sys;
            match ev
            case Arrive(tokens, _, _) => o.phase.Running? && o.phase.tokens == tokens && Sent(s, o, false)
            case Generate(token) => o.phase.Running? && s.phase.Running? && o.phase.tokens == s.phase.tokens + [token]
                                    && Sent(s, o, true)
            case Preempt(pending) => s.phase.Running? && o.phase == Preempted(s.phase.tokens + pending)
                                     && o.queue == s.queue
            case Finish => o.phase.Idle? && o.queue == s.queue
            case Work => o.phase == s.phase && |s.queue| > 0 && o.queue == s.queue[1..]
            case _ => !s.phase.Idle? && o.phase.Running? && o.phase.tokens == s.phase.tokens && Sent(s, o, false)
  {
    hide StepOf, ContextOf, PointsOf, AdmissionOf, Attach, MoveToEnd, SentSegments, Execute, WellFormed, ActionShape;
  }

  /** One action more, with all the tokens of the request. */
  ghost predicate Sent(s: Sys, o: Sys, decode: bool)
    requires o.phase.Running?
  {
    && |o.queue| == |s.queue| + 1 && o.queue[..|s.queue|] == s.queue
    && o.queue[|s.queue|].tokens == o.phase.tokens && o.queue[|s.queue|].Decode? == decode
  }

  // ---------- two runs that break without the premise ----------

  /** The model that counts tokens. */
  function Counter(): Model {
    Model(0, [], [], (p: seq<Token>) => [], (t: Temporal, xs: seq<Vector>) => t + [1.0])
  }

  const ONE_TOKEN := Config(16, 64, Direct, Off)

  function OneTokenStep(newSlot: bool): Action {
    Prefill([7], newSlot, None, [], [], [], 0, 1)
  }

  function OneTokenPhase(): Phase {
    Running([7], 1, Attached(None, []), 1, 0)
  }

  function Counted(n: nat): Worker {
    Worker(Slot([], seq(n, _ => 1.0)), map[])
  }

  /** A run that breaks without the premise: a one-token prompt is prefilled, preempted and resumed with
      nothing to restore, and its token is counted twice. */
  lemma ResumedTwice() returns (e: Env, states: seq<Sys>, events: seq<Event>)
    ensures EnvOk(e) && IsRunOf(e, states, events) && !AllRestorable(e, states, events)
    ensures var s := states[|events|];
            && s.queue == [] && s.phase.Running? && s.phase.computed == s.phase.prompt == |s.phase.tokens|
            && s.worker.slot.temporal != Cold(e.model, s.phase.tokens).temporal
  {
    hide Apply, Enabled, Cold, OneTokenStep, Start;
    e := Env(ONE_TOKEN, Counter());
    states := [Sys([], Idle, [], Counted(0)),
               Sys([], OneTokenPhase(), [OneTokenStep(true)], Counted(0)),
               Sys([], OneTokenPhase(), [], Counted(1)),
               Sys([], Preempted([7]), [], Counted(1)),
               Sys([], OneTokenPhase(), [OneTokenStep(false)], Counted(1)),
               Sys([], OneTokenPhase(), [], Counted(2))];
    events := [Arrive([7], 0, []), Work, Preempt([]), Resume(0, []), Work];
    OneTokenStarts(0, Idle, true);
    OneTokenStarts(1, Preempted([7]), false);
    OneTokenRuns(0, true);
    OneTokenRuns(1, false);
    OneTokenPreempted();
    assert !RestorableAt(e, states, events, 3);
  }

  lemma OneTokenStarts(n: nat, phase: Phase, newSlot: bool)
    requires phase == if newSlot then Idle else Preempted([7])
    ensures var e, s := Env(ONE_TOKEN, Counter()), Sys([], phase, [], Counted(n));
            var ev := if newSlot then Arrive([7], 0, []) else Resume(0, []);
            && EnvOk(e) && Enabled(e, s, ev) && Attach(e.config, Hashes([7], 16), 1, 0, []).restore.None?
            && Apply(e, s, ev) == Moved(Sys([], OneTokenPhase(), [OneTokenStep(newSlot)], Counted(n)))
  {
    var c := ONE_TOKEN;
    assert Hashes([7], 16) == [];
    assert Attach(c, [], 1, 0, []) == Attached(None, []);
    assert StepOf(c, 1, Attached(None, []), 0) == Step(1, 1);
  }

  lemma OneTokenRuns(n: nat, newSlot: bool)
    requires newSlot ==> n == 0
    ensures var e, s := Env(ONE_TOKEN, Counter()), Sys([], OneTokenPhase(), [OneTokenStep(newSlot)], Counted(n));
            && Enabled(e, s, Work)
            && Apply(e, s, Work) == Moved(Sys([], OneTokenPhase(), [], Counted(n + 1)))
    ensures Cold(Counter(), [7]).temporal == [1.0]
  {
    var m, w, a := Counter(), Counted(n), OneTokenStep(newSlot);
    var s0 := StartSlot(m, w, a);
    assert Pads(m, 0) == [] && s0 == w.slot;
    CountOne(s0);
    assert seq(n, _ => 1.0) + [1.0] == seq(n + 1, _ => 1.0);
    assert Without(map[], []) == map[];
    assert Save(m, s0, a, map[], 0) == map[];
    assert Execute(m, w, a) == Ran(Counted(n + 1));
    assert Cold(m, [7][..0]) == Slot([], []);
  }

  lemma CountOne(s: Slot)
    requires s.conv == []
    ensures After(Counter(), s, [7], 0, 1) == Slot([], s.temporal + [1.0])
  {
    var m := Counter();
    var padded := Padded(m, s, [7], 0, 1);
    assert TemporalAt(m, s.temporal, padded, 1) == m.update(TemporalAt(m, s.temporal, padded, 0), padded[0..1]);
    assert SavedWindow(m, Inputs(m, [7], 0, 1)) == [];
  }

  lemma OneTokenPreempted()
    ensures var e, s := Env(ONE_TOKEN, Counter()), Sys([], OneTokenPhase(), [], Counted(1));
            EnvOk(e) && Enabled(e, s, Preempt([]))
                && Apply(e, s, Preempt([])) == Moved(Sys([], Preempted([7]), [], Counted(1)))
  {
    assert [7] + [] == [7];
  }

  lemma CounterCounts()
    ensures Counts(Counter(), (t: Temporal) => |t|)
  {
  }

  const FINE := Config(1, 4, Direct, Fine32)
  const THREE: seq<Token> := [7, 8, 9]
  const FIRST := PrefixKey(1, [7])

  function Ones(n: nat): Slot {
    Slot([], seq(n, _ => 1.0))
  }

  function Cached(slot: nat, kept: nat): Worker {
    Worker(Ones(slot), map[FIRST := Ones(kept)])
  }

  /** The first step of a request that restores nothing, and of one that restores the first token's state. */
  function ThreeStep(newSlot: bool): Action {
    Prefill(THREE, newSlot, None, [CapturePoint(1, FIRST)], [], [], 0, 3)
  }

  function RestoredStep(): Action {
    Prefill(THREE, true, Some(FIRST), [], [], [], 1, 3)
  }

  function ThreePhase(): Phase {
    Running(THREE, 3, Attached(None, [FIRST]), 3, 0)
  }

  function RestoredPhase(): Phase {
    Running(THREE, 3, Attached(Some(FIRST), [FIRST]), 3, 1)
  }

  /** A prompt of three tokens is prefilled, preempted and resumed while the block manager holds nothing of it. The
      state captured on the way is wrong and stays in the cache; the next request restores it and ends wrong too. */
  lemma WrongStateTravels() returns (e: Env, states: seq<Sys>, events: seq<Event>)
    ensures EnvOk(e) && IsRunOf(e, states, events) && |events| == 8 && !AllRestorable(e, states, events)
    ensures FIRST in states[6].worker.cache && states[6].worker.cache[FIRST] != Cold(e.model, FIRST.digest)
    ensures events[6].Arrive? && RestorableAt(e, states, events, 6)
    ensures var s := states[8];
            && s.queue == [] && s.phase.Running? && s.phase.computed == s.phase.prompt == |s.phase.tokens|
            && s.worker.slot.temporal != Cold(e.model, s.phase.tokens).temporal
  {
    hide Apply, Enabled, Cold, ThreeStep, RestoredStep, Start;
    e := Env(FINE, Counter());
    var w0 := Worker(Ones(0), map[]);
    states := [Sys([], Idle, [], w0),
               Sys([FIRST], ThreePhase(), [ThreeStep(true)], w0),
               Sys([FIRST], ThreePhase(), [], Cached(3, 1)),
               Sys([FIRST], Preempted(THREE), [], Cached(3, 1)),
               Sys([FIRST], ThreePhase(), [ThreeStep(false)], Cached(3, 1)),
               Sys([FIRST], ThreePhase(), [], Cached(6, 4)),
               Sys([FIRST], Idle, [], Cached(6, 4)),
               Sys([FIRST], RestoredPhase(), [RestoredStep()], Cached(6, 4)),
               Sys([FIRST], RestoredPhase(), [], Cached(6, 4))];
    events := [Arrive(THREE, 0, []), Work, Preempt([]), Resume(0, []), Work, Finish, Arrive(THREE, 1, []), Work];
    ThreeStarts([], w0, Idle, true);
    ThreeRuns(w0, 0, true);
    ThreePreempted();
    ThreeStarts([FIRST], Cached(3, 1), Preempted(THREE), false);
    ThreeRuns(Cached(3, 1), 3, false);
    ThreeFinished();
    RestoredStarts();
    RestoredRuns();
    CounterCounts();
    ColdCounts(Counter(), (t: Temporal) => |t|, FIRST.digest);
    ColdCounts(Counter(), (t: Temporal) => |t|, THREE);
    assert !RestorableAt(e, states, events, 3);
  }

  lemma ThreeHashes()
    ensures Hashes(THREE, 1) == [[7], [7, 8], [7, 8, 9]]
  {
    assert THREE[..1] == [7] && THREE[..2] == [7, 8] && THREE[..3] == [7, 8, 9];
  }

  lemma OneLive(live: nat)
    requires live <= 1
    ensures ConfigOk(FINE) && FinalKey(FINE, Hashes(THREE, 1), 3) == Some(FIRST)
    ensures LiveKeys(FINE, Hashes(THREE, 1), 3, live) == if live == 0 then [] else [FIRST]
  {
    ThreeHashes();
    var h := Hashes(THREE, 1);
    if live == 0 {
      assert KeysFromBlockHashes(h[..0]) == [];
    } else {
      assert MaxLive(FINE, h, 3, 1) == 1;
      assert KeysFromBlockHashes(h[..1]) == [FIRST];
      assert [FIRST][..0] == [] && Eligible(FIRST, FINE, h, 3);
      assert EligibleKeys([FIRST][..0], FINE, h, 3) == [];
    }
  }

  lemma ThreeAttach(resident: seq<PrefixKey>)
    ensures ConfigOk(FINE) && Attach(FINE, Hashes(THREE, 1), 3, 0, resident) == Attached(None, [FIRST])
  {
    hide Hashes, FinalKey, LiveKeys;
    OneLive(0);
  }

  lemma ThreePlan()
    ensures ConfigOk(FINE)
    ensures StepOf(FINE, 3, Attached(None, [FIRST]), 0) == Step(3, 3)
    ensures PointsOf(FINE, Hashes(THREE, 1), Attached(None, [FIRST]), 0, 3) == [CapturePoint(1, FIRST)]
  {
    hide Hashes, FinalKey;
    OneLive(0);
    OnePoint();
  }

  lemma FirstAdmitted(resident: seq<PrefixKey>)
    requires resident == [] || resident == [FIRST]
    ensures AdmissionOf(FINE, resident, [CapturePoint(1, FIRST)]) == Admission([FIRST], [])
  {
    OnePoint();
    assert Admit(resident, [FIRST], 32) == Admission([FIRST], []);
  }

  lemma ThreeStarts(resident: seq<PrefixKey>, w: Worker, phase: Phase, newSlot: bool)
    requires (resident == [] || resident == [FIRST]) && phase == if newSlot then Idle else Preempted(THREE)
    ensures var e, s := Env(FINE, Counter()), Sys(resident, phase, [], w);
            var ev := if newSlot then Arrive(THREE, 0, []) else Resume(0, []);
            && EnvOk(e) && Enabled(e, s, ev) && Attach(FINE, Hashes(THREE, 1), 3, 0, resident).restore.None?
            && Apply(e, s, ev) == Moved(Sys([FIRST], ThreePhase(), [ThreeStep(newSlot)], w))
  {
    hide Hashes, Attach, StepOf, PointsOf, AdmissionOf, MoveToEnd;
    ThreeAttach(resident);
    ThreePlan();
    FirstAdmitted(resident);
  }

  lemma OnePoint()
    ensures SelectPoints([FIRST], 0, 3, 1) == [CapturePoint(1, FIRST)] && SelectPoints([FIRST], 1, 3, 1) == []
    ensures CaptureKeys([CapturePoint(1, FIRST)]) == [FIRST]
  {
    assert [FIRST][..0] == [];
  }

  lemma ThreeRuns(w: Worker, n: nat, newSlot: bool)
    requires w.slot == Ones(n) && w.cache.Keys <= {FIRST} && (newSlot ==> n == 0) && WellFormed(Counter(), w)
    ensures var e, s := Env(FINE, Counter()), Sys([FIRST], ThreePhase(), [ThreeStep(newSlot)], w);
            Enabled(e, s, Work) && Apply(e, s, Work) == Moved(Sys([FIRST], ThreePhase(), [], Cached(n + 3, n + 1)))
  {
    hide Enabled, Apply;
    var m, a := Counter(), ThreeStep(newSlot);
    var s0, kept := StartSlot(m, w, a), Without(w.cache, []);
    assert Pads(m, 0) == [] && s0 == Ones(n);
    assert CaptureError(a.captures, 3).None?;
    FewSegments();
    CountTokens(n, 0, 3);
    CountOffset(n);
    assert Save(m, s0, a, kept, 0) == kept;
    assert Save(m, s0, a, kept, 1) == kept[FIRST := Ones(n + 1)];
    assert kept[FIRST := Ones(n + 1)] == map[FIRST := Ones(n + 1)];
    assert Execute(m, w, a) == Ran(Cached(n + 3, n + 1));
    WorkIs(Sys([FIRST], ThreePhase(), [a], w), Cached(n + 3, n + 1));
  }

  lemma FewSegments()
    ensures SegmentError([], 3).None? && SegmentError([], 2).None?
  {
    var none: seq<int> := [];
    assert Members(none) == {};
  }

  lemma WorkIs(s: Sys, w: Worker)
    requires |s.queue| == 1 && WellFormed(Counter(), s.worker) && ActionShape(s.queue[0])
    requires Execute(Counter(), s.worker, s.queue[0]) == Ran(w)
    ensures var e := Env(FINE, Counter());
            ConfigOk(FINE) && Enabled(e, s, Work) && Apply(e, s, Work) == Moved(s.(worker := w, queue := []))
  {
    hide Execute, WellFormed, ActionShape;
    assert s.queue[1..] == [];
  }

  /** A step of the counting model appends one entry for each of its tokens. */
  lemma CountTokens(n: nat, ctx: nat, end: nat)
    requires ctx <= end <= 3
    ensures After(Counter(), Ones(n), THREE, ctx, end) == Ones(n + (end - ctx))
  {
    var m := Counter();
    CountTo(n, Padded(m, Ones(n), THREE, ctx, end), end - ctx);
    assert SavedWindow(m, Inputs(m, THREE, ctx, end)) == [];
  }

  lemma {:induction false} CountTo(n: nat, padded: seq<Vector>, o: nat)
    requires o <= |padded|
    ensures TemporalAt(Counter(), Ones(n).temporal, padded, o) == Ones(n + o).temporal
  {
    if o > 0 {
      CountTo(n, padded, o - 1);
      assert Ones(n + (o - 1)).temporal + [1.0] == Ones(n + o).temporal;
    }
  }

  lemma CountOffset(n: nat)
    ensures CapturedAt(Counter(), Ones(n), THREE, 0, 3, 1) == Ones(n + 1)
  {
    var m := Counter();
    var padded := Padded(m, Ones(n), THREE, 0, 3);
    CountTo(n, padded, 1);
    assert padded[1..1] == [];
  }

  lemma ThreePreempted()
    ensures var e, s := Env(FINE, Counter()), Sys([FIRST], ThreePhase(), [], Cached(3, 1));
            EnvOk(e) && Enabled(e, s, Preempt([]))
                && Apply(e, s, Preempt([])) == Moved(Sys([FIRST], Preempted(THREE), [], Cached(3, 1)))
  {
    assert THREE + [] == THREE;
  }

  lemma ThreeFinished()
    ensures var e, s := Env(FINE, Counter()), Sys([FIRST], ThreePhase(), [], Cached(6, 4));
            EnvOk(e) && Enabled(e, s, Finish) && Apply(e, s, Finish) == Moved(Sys([FIRST], Idle, [], Cached(6, 4)))
  {
  }

  lemma RestoredAttach()
    ensures ConfigOk(FINE) && Attach(FINE, Hashes(THREE, 1), 3, 1, [FIRST]) == Attached(Some(FIRST), [FIRST])
    ensures MoveToEnd([FIRST], FIRST) == [FIRST]
  {
    hide Hashes, FinalKey, LiveKeys;
    OneLive(1);
    assert LastResident([FIRST], [FIRST]) == Some(FIRST);
    assert MoveToEnd([FIRST], FIRST) == [FIRST];
  }

  lemma RestoredPlan()
    ensures ConfigOk(FINE)
    ensures StepOf(FINE, 3, Attached(Some(FIRST), [FIRST]), 0) == Step(3, 3)
    ensures PointsOf(FINE, Hashes(THREE, 1), Attached(Some(FIRST), [FIRST]), 1, 3) == []
  {
    hide Hashes, FinalKey;
    OneLive(1);
    OnePoint();
  }

  lemma RestoredStarts()
    ensures var e, s := Env(FINE, Counter()), Sys([FIRST], Idle, [], Cached(6, 4));
            var t := Sys([FIRST], RestoredPhase(), [RestoredStep()], Cached(6, 4));
            && EnvOk(e) && Enabled(e, s, Arrive(THREE, 1, []))
            && Apply(e, s, Arrive(THREE, 1, [])) == Moved(t)
  {
    hide Hashes, Attach, StepOf, PointsOf, Admit, MoveToEnd;
    RestoredAttach();
    RestoredPlan();
    NoKeys();
    assert Admit([FIRST], [], 32) == Admission([FIRST], []) by { NothingAdmitted(); }
  }

  lemma NoKeys()
    ensures CaptureKeys([]) == []
  {
  }

  lemma NothingAdmitted()
    ensures Admit([FIRST], [], 32) == Admission([FIRST], [])
  {
  }

  lemma RestoredRuns()
    ensures var e, s := Env(FINE, Counter()), Sys([FIRST], RestoredPhase(), [RestoredStep()], Cached(6, 4));
            && EnvOk(e) && Enabled(e, s, Work)
            && Apply(e, s, Work) == Moved(Sys([FIRST], RestoredPhase(), [], Cached(6, 4)))
  {
    hide Enabled, Apply;
    var m, w, a := Counter(), Cached(6, 4), RestoredStep();
    assert Without(w.cache, []) == w.cache;
    FewSegments();
    CountTokens(4, 1, 3);
    assert Save(m, Ones(4), a, w.cache, 0) == w.cache;
    assert Execute(m, w, a) == Ran(Cached(6, 4));
    WorkIs(Sys([FIRST], RestoredPhase(), [a], w), w);
  }
}
