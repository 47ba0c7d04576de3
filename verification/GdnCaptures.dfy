/** Which states a request leaves behind: what every prefill action captures, and that over a whole prefill each state
    to keep is captured exactly once. */
module GdnCaptures {
  import opened GdnPolicy
  import opened GdnPrefix
  import opened GdnProtocol
  import opened GdnResume
  import opened GdnScheduling
  import opened GdnWorker
  import opened IntFacts
  import opened Sequences

  /** The state of the prefix k is to be kept by a step up to end. */
  predicate Wanted(c: Config, hashes: seq<Digest>, a: Attached, end: nat, k: PrefixKey)
    requires ConfigOk(c)
  {
    match c.policy
    case Off => false
    case Admission64 => k in a.targets
    case Fine32 => FinalKey(c, hashes, end) == Some(k)
  }

  /** A step captures exactly the states to be kept that lie inside it, at their own boundaries. */
  ghost predicate CapturesExactly(c: Config, hashes: seq<Digest>, a: Attached, ctx: nat, end: nat,
      points: seq<CapturePoint>)
    requires ConfigOk(c)
  {
    forall p :: p in points <==>
      && ctx < Boundary(p.key, c.blockSize) <= end && p.offset == Boundary(p.key, c.blockSize) - ctx
      && Wanted(c, hashes, a, end, p.key)
  }

  lemma SamePrefix(hashes: seq<Digest>, a: PrefixKey, b: PrefixKey, B: nat)
    requires B > 0 && NamesPrefix(a, hashes) && NamesPrefix(b, hashes) && Boundary(a, B) == Boundary(b, B)
    ensures a == b
  {
    BoundariesOrdered(a, b, B);
    BoundariesOrdered(b, a, B);
  }

  lemma SelectExactly(hashes: seq<Digest>, targets: seq<PrefixKey>, ctx: nat, end: nat, B: nat, p: CapturePoint)
    requires B > 0 && forall t | t in targets :: NamesPrefix(t, hashes)
    ensures p in SelectPoints(targets, ctx, end, B) <==>
              ctx < Boundary(p.key, B) <= end && p.offset == Boundary(p.key, B) - ctx && p.key in targets
  {
    hide SelectPoints, Boundary, NamesPrefix;
    SelectSound(targets, ctx, end, B);
    if ctx < Boundary(p.key, B) <= end && p.offset == Boundary(p.key, B) - ctx && p.key in targets {
      SelectComplete(targets, ctx, end, B, p.key);
      var q :| q in SelectPoints(targets, ctx, end, B) && q.offset == p.offset;
      SamePrefix(hashes, p.key, q.key, B);
    }
  }

  lemma PointsExactly(e: Env, tokens: seq<Token>, a: Attached, computed: nat, ctx: nat, end: nat)
    requires EnvOk(e) && Resumable(e, tokens, a, computed)
    ensures var hashes := Hashes(tokens, e.config.blockSize);
            CapturesExactly(e.config, hashes, a, ctx, end, PointsOf(e.config, hashes, a, ctx, end))
  {
    hide SelectPoints, FinalKey, Resumable, Boundary;
    var c, hashes := e.config, Hashes(tokens, e.config.blockSize);
    TargetsNamed(e, tokens, a, computed, end);
    forall p: CapturePoint
      ensures !c.policy.Off? ==> (p in PointsOf(c, hashes, a, ctx, end) <==>
                ctx < Boundary(p.key, c.blockSize) <= end && p.offset == Boundary(p.key, c.blockSize) - ctx
                && p.key in TargetsOf(c, hashes, a, end))
    {
      SelectExactly(hashes, TargetsOf(c, hashes, a, end), ctx, end, c.blockSize, p);
    }
  }

  /** Sending a step: the action captures exactly the states to be kept inside it, and the index then holds them. */
  lemma SentCaptures(e: Env, s: Sys, tokens: seq<Token>, a: Attached, computed: nat, newSlot: bool, segments: seq<int>)
      returns (act: Action)
    requires EnvOk(e) && Sendable(e, s, tokens, a, computed)
    requires SentSegments(e, SendPrefill(e, s, tokens, a, computed, newSlot, segments))
    ensures var o := SendPrefill(e, s, tokens, a, computed, newSlot, segments);
            && SentAs(e, s, tokens, a, computed, newSlot, o, act)
            && CapturesExactly(e.config, Hashes(tokens, e.config.blockSize), a, act.ctx, act.end, act.captures)
            && forall p | p in act.captures :: p.key in o.sys.resident
  {
    hide SendPrefill, Resumable, PointsFit, KeysAfter, Members, Distinct, SegmentError, Runs, Drained, CapturesExactly;
    act := SendIsGood(e, s, tokens, a, computed, newSlot, segments);
    var o := SendPrefill(e, s, tokens, a, computed, newSlot, segments);
    SentPoints(e, s, tokens, a, computed, newSlot, segments, act);
    PointsExactly(e, tokens, a, computed, act.ctx, act.end);
    CapturesHeld(o.sys.resident, Members(s.resident), act);
  }

  lemma SentPoints(e: Env, s: Sys, tokens: seq<Token>, a: Attached, computed: nat, newSlot: bool, segments: seq<int>,
      act: Action)
    requires ConfigOk(e.config)
    requires SentAs(e, s, tokens, a, computed, newSlot, SendPrefill(e, s, tokens, a, computed, newSlot, segments), act)
    ensures act.captures == PointsOf(e.config, Hashes(tokens, e.config.blockSize), a, act.ctx, act.end)
  {
    hide StepOf, PointsOf, AdmissionOf, ContextOf, PointsFit;
    var o := SendPrefill(e, s, tokens, a, computed, newSlot, segments);
    assert o.sys.queue[|s.queue|] == act;
  }

  lemma CapturesHeld(resident: seq<PrefixKey>, before: set<PrefixKey>, act: Action)
    requires act.Prefill? && Members(resident) == KeysAfter(before, act)
    ensures forall p | p in act.captures :: p.key in resident
  {
    forall p | p in act.captures
      ensures p.key in resident
    {
      var i :| 0 <= i < |act.captures| && act.captures[i] == p;
      assert CaptureKeys(act.captures)[i] == p.key;
      assert p.key in Members(resident);
    }
  }

  // ---------- over runs ----------

  /** The prefill action an event sends, if any. */
  function SentPrefill(s: Sys, s': Sys): (a: Option<Action>)
    ensures a.Some? ==> a.value.Prefill?
  {
    if |s'.queue| == |s.queue| + 1 && s'.queue[|s.queue|].Prefill? then Some(s'.queue[|s.queue|]) else None
  }

  function Captured(s: Sys, s': Sys, t: PrefixKey): nat {
    var a := SentPrefill(s, s');
    if a.Some? && t in CaptureKeys(a.value.captures) then 1 else 0
  }

  /** How many actions sent from event k on capture the state of t. */
  function CaptureCount(states: seq<Sys>, events: seq<Event>, k: nat, t: PrefixKey): nat
    requires |states| == |events| + 1
    decreases |events|
  {
    if |events| <= k then 0 else
      var n := |events| - 1;
      CaptureCount(states[..n + 1], events[..n], k, t) + Captured(states[n], states[n + 1], t)
  }

  lemma CapturedInside(c: Config, hashes: seq<Digest>, a: Attached, act: Action, t: PrefixKey)
    requires ConfigOk(c) && c.policy.Admission64? && act.Prefill? && ActionShape(act)
    requires CapturesExactly(c, hashes, a, act.ctx, act.end, act.captures)
    ensures t in CaptureKeys(act.captures) <==> t in a.targets && act.ctx < Boundary(t, c.blockSize) <= act.end
  {
    hide Boundary;
    if t in CaptureKeys(act.captures) {
      var i :| 0 <= i < |act.captures| && CaptureKeys(act.captures)[i] == t;
      assert act.captures[i] in act.captures;
    }
    if t in a.targets && act.ctx < Boundary(t, c.blockSize) <= act.end {
      var p := CapturePoint(Boundary(t, c.blockSize) - act.ctx, t);
      assert p in act.captures;
      var i :| 0 <= i < |act.captures| && act.captures[i] == p;
      assert CaptureKeys(act.captures)[i] == t;
    }
  }

  /** What a step captures, under admission64: the targets between its two ends. */
  lemma StepCaptures(e: Env, s: Sys, tokens: seq<Token>, a: Attached, computed: nat, newSlot: bool, segments: seq<int>,
      t: PrefixKey)
    requires EnvOk(e) && Sendable(e, s, tokens, a, computed) && e.config.policy.Admission64?
    requires SentSegments(e, SendPrefill(e, s, tokens, a, computed, newSlot, segments))
    ensures var o, B := SendPrefill(e, s, tokens, a, computed, newSlot, segments), e.config.blockSize;
            && o.Moved? && o.sys.phase.Running? && o.sys.phase.attached == a && o.sys.phase.prompt == |tokens|
            && Captured(s, o.sys, t) ==
                 if t in a.targets && computed < Boundary(t, B) <= o.sys.phase.computed then 1 else 0
  {
    hide SendPrefill, Resumable, PointsFit, CapturesExactly, Boundary, IndexOk, ContextOf;
    var act := SentCaptures(e, s, tokens, a, computed, newSlot, segments);
    var o := SendPrefill(e, s, tokens, a, computed, newSlot, segments);
    assert o.sys.queue[|s.queue|] == act;
    CapturedInside(e.config, Hashes(tokens, e.config.blockSize), a, act, t);
    if computed == 0 {
      BeyondRestore(e, tokens, a, t);
    }
  }

  /** Every target lies past the restore point, so past nothing computed too. */
  lemma BeyondRestore(e: Env, tokens: seq<Token>, a: Attached, t: PrefixKey)
    requires EnvOk(e) && Resumable(e, tokens, a, 0) && e.config.policy.Admission64?
    ensures t in a.targets ==> 0 <= ContextOf(e.config, a, 0) < Boundary(t, e.config.blockSize)
  {
  }

  /** The targets captured so far by the request that runs are those it has passed, each by one action. */
  ghost predicate CountedRight(c: Config, s: Sys, count: PrefixKey -> nat) {
    s.phase.Running? ==>
      forall t :: count(t) == if t in s.phase.attached.targets && Boundary(t, c.blockSize) <= s.phase.computed then 1
                              else 0
  }

  lemma AdmissionCaptures(e: Env, s: Sys, ev: Event, t: PrefixKey)
    requires EnvOk(e) && Mirror(e, s) && Enabled(e, s, ev) && Admits(ev) && e.config.policy.Admission64?
    ensures var o := Apply(e, s, ev);
            && o.Moved? && o.sys.phase.Running?
            && Captured(s, o.sys, t) ==
                 if t in o.sys.phase.attached.targets && Boundary(t, e.config.blockSize) <= o.sys.phase.computed
                 then 1 else 0
  {
    hide SendPrefill, Attach, MoveToEnd, IndexOk, Boundary, SentSegments, Sendable;
    var tokens := if ev.Arrive? then ev.tokens else s.phase.tokens;
    var a := Attach(e.config, Hashes(tokens, e.config.blockSize), |tokens|, ev.live, s.resident);
    var r := s.(resident := if a.restore.Some? then MoveToEnd(s.resident, a.restore.value) else s.resident);
    AttachSendable(e, s, tokens, ev.live);
    StepCaptures(e, r, tokens, a, 0, ev.Arrive?, ev.segments, t);
    PastStart(e, r, tokens, a, t);
  }

  lemma PastStart(e: Env, s: Sys, tokens: seq<Token>, a: Attached, t: PrefixKey)
    requires EnvOk(e) && Sendable(e, s, tokens, a, 0) && e.config.policy.Admission64?
    ensures t in a.targets ==> 0 < Boundary(t, e.config.blockSize)
  {
    hide Boundary, IndexOk, ContextOf, AttachedOk;
    BeyondRestore(e, tokens, a, t);
  }

  lemma LaterCaptures(e: Env, s: Sys, ev: Event, t: PrefixKey)
    requires EnvOk(e) && Mirror(e, s) && Enabled(e, s, ev) && !Admits(ev) && e.config.policy.Admission64?
    ensures var o := Apply(e, s, ev);
            && o.Moved?
            && (o.sys.phase.Running? ==>
                  && s.phase.Running? && o.sys.phase.attached == s.phase.attached
                  && s.phase.computed <= o.sys.phase.computed
                  && Captured(s, o.sys, t) ==
                       if t in s.phase.attached.targets
                          && s.phase.computed < Boundary(t, e.config.blockSize) <= o.sys.phase.computed then 1 else 0)
  {
    hide Boundary, SentSegments;
    EventKeeps(e, s, ev);
    match ev
    case Continue(segments) =>
      hide SendPrefill, IndexOk, AttachedOk;
      var p := s.phase;
      StepCaptures(e, s, p.tokens, p.attached, p.computed, false, segments, t);
      StepMoves(e, s, p.tokens, p.attached, p.computed, segments);
    case Generate(_) =>
    case Preempt(_) =>
    case Finish =>
    case Work =>
  }

  lemma StepMoves(e: Env, s: Sys, tokens: seq<Token>, a: Attached, computed: nat, segments: seq<int>)
    requires EnvOk(e) && Sendable(e, s, tokens, a, computed) && computed > 0
    requires SentSegments(e, SendPrefill(e, s, tokens, a, computed, false, segments))
    ensures var o := SendPrefill(e, s, tokens, a, computed, false, segments);
            o.Moved? && o.sys.phase.Running? && computed < o.sys.phase.computed
  {
    hide SendPrefill, Resumable, PointsFit, IndexOk, ContextOf, Distinct, KeysAfter;
    var act := SendIsGood(e, s, tokens, a, computed, false, segments);
  }

  lemma {:induction false} CountsRight(e: Env, states: seq<Sys>, events: seq<Event>, k: nat)
    requires EnvOk(e) && IsRunOf(e, states, events) && LastAdmission(events, k) && e.config.policy.Admission64?
    ensures CountedRight(e.config, states[|events|], t => CaptureCount(states, events, k, t))
    decreases |events|
  {
    hide Enabled, Apply, Mirror, Initial, Captured, Boundary;
    var n := |events| - 1;
    ShorterRun(e, states, events);
    RunKeeps(e, states[..n + 1], events[..n]);
    assert StepAt(e, states, events, n);
    if k < n {
      CountsRight(e, states[..n + 1], events[..n], k);
    }
    forall t | states[n + 1].phase.Running?
      ensures CaptureCount(states, events, k, t) ==
        if t in states[n + 1].phase.attached.targets && Boundary(t, e.config.blockSize) <= states[n + 1].phase.computed
        then 1 else 0
    {
      if k < n {
        LaterCaptures(e, states[n], events[n], t);
      } else {
        AdmissionCaptures(e, states[n], events[n], t);
      }
    }
  }

  /** Under admission64, when the prompt of the request admitted last has been sent, each of its targets has been
      captured by exactly one action, and nothing else has been captured. */
  lemma EachTargetOnce(e: Env, states: seq<Sys>, events: seq<Event>, k: nat)
    requires EnvOk(e) && IsRunOf(e, states, events) && LastAdmission(events, k) && e.config.policy.Admission64?
    requires states[|events|].phase.Running? && states[|events|].phase.computed == states[|events|].phase.prompt
    ensures forall t :: CaptureCount(states, events, k, t) ==
              if t in states[|events|].phase.attached.targets then 1 else 0
  {
    hide Enabled, Apply, Initial, StepAt, Boundary;
    CountsRight(e, states, events, k);
    TargetsInside(e, states, events, k);
  }

  /** The targets decided at admission lie inside the prompt. */
  lemma {:induction false} TargetsInside(e: Env, states: seq<Sys>, events: seq<Event>, k: nat)
    requires EnvOk(e) && IsRunOf(e, states, events) && LastAdmission(events, k)
    ensures var p := states[|events|].phase;
            p.Running? ==> forall t | t in p.attached.targets :: Boundary(t, e.config.blockSize) < p.prompt
    decreases |events|
  {
    hide Enabled, Apply, Mirror, Initial, Boundary;
    var n := |events| - 1;
    ShorterRun(e, states, events);
    RunKeeps(e, states[..n + 1], events[..n]);
    assert StepAt(e, states, events, n);
    if k < n {
      TargetsInside(e, states[..n + 1], events[..n], k);
      SamePrompt(e, states[n], events[n]);
    } else {
      AdmittedInside(e, states[n], events[n]);
    }
  }

  lemma SamePrompt(e: Env, s: Sys, ev: Event)
    requires EnvOk(e) && Mirror(e, s) && Enabled(e, s, ev) && !Admits(ev) && Apply(e, s, ev).Moved?
    ensures var p := Apply(e, s, ev).sys.phase;
            p.Running? ==> s.phase.Running? && p.attached == s.phase.attached && p.prompt == s.phase.prompt
  {
    hide StepOf, ContextOf, PointsOf, AdmissionOf, IndexOk, AttachedOk, SentSegments;
  }

  lemma AdmittedInside(e: Env, s: Sys, ev: Event)
    requires EnvOk(e) && Mirror(e, s) && Enabled(e, s, ev) && Admits(ev) && Apply(e, s, ev).Moved?
    ensures var p := Apply(e, s, ev).sys.phase;
            p.Running? && forall t | t in p.attached.targets :: Boundary(t, e.config.blockSize) < p.prompt
  {
    hide StepOf, ContextOf, PointsOf, AdmissionOf, IndexOk, Attach, SentSegments, MoveToEnd, Boundary;
    var tokens := if ev.Arrive? then ev.tokens else s.phase.tokens;
    AttachMeaning(e.config, Hashes(tokens, e.config.blockSize), |tokens|, ev.live, s.resident);
  }

  /** What an admission decides, from the index as it stands and what the block manager still holds: the first step
      restores the longest live prefix whose state is saved, and starts there; the states to keep are those of
      TargetsExactly. */
  lemma AdmissionDecides(e: Env, s: Sys, ev: Event) returns (act: Action)
    requires EnvOk(e) && Mirror(e, s) && Enabled(e, s, ev) && Admits(ev)
    ensures var o, c, tokens := Apply(e, s, ev), e.config, if ev.Arrive? then ev.tokens else s.phase.tokens;
            var hashes, L := Hashes(tokens, c.blockSize), |tokens|;
            && o.Moved? && o.sys.queue == s.queue + [act] && act.Prefill? && act.tokens == tokens
            && act.newSlot == ev.Arrive? && act.ctx == RestoreTokens(act.restore, c.blockSize)
            && (c.policy.Off? ==> act.restore.None?)
            && (act.restore.Some? ==>
                  IsLive(c, hashes, L, ev.live, act.restore.value) && act.restore.value in s.resident)
            && (!c.policy.Off? ==> forall k | IsLive(c, hashes, L, ev.live, k) && k in s.resident ::
                  act.restore.Some? && k.blocks <= act.restore.value.blocks)
            && o.sys.phase.Running? && o.sys.phase.prompt == L
            && o.sys.phase.attached == Attach(c, hashes, L, ev.live, s.resident)
  {
    hide SendPrefill, Attach, MoveToEnd, IndexOk, SentSegments, IsLive, PointsFit, Distinct, KeysAfter, Eligible,
         SegmentError, AttachedOk;
    var c := e.config;
    var tokens := if ev.Arrive? then ev.tokens else s.phase.tokens;
    var hashes := Hashes(tokens, c.blockSize);
    var a := Attach(c, hashes, |tokens|, ev.live, s.resident);
    var r := s.(resident := if a.restore.Some? then MoveToEnd(s.resident, a.restore.value) else s.resident);
    AttachSendable(e, s, tokens, ev.live);
    RestoreIsLongest(c, hashes, |tokens|, ev.live, s.resident);
    act := SendIsGood(e, r, tokens, a, 0, ev.Arrive?, ev.segments);
  }

  /** The prefill action sent, if any, captures exactly the states to be kept inside its step, and the index then
      holds them. */
  ghost predicate SentRight(c: Config, s: Sys, s': Sys)
    requires ConfigOk(c)
  {
    var a, p := SentPrefill(s, s'), s'.phase;
    a.Some? ==>
      && p.Running? && a.value.tokens == p.tokens && a.value.end == p.computed
      && CapturesExactly(c, Hashes(p.tokens, c.blockSize), p.attached, a.value.ctx, a.value.end, a.value.captures)
      && forall x | x in a.value.captures :: x.key in s'.resident
  }

  /** Every prefill action of a run captures exactly the states to be kept inside its step: under admission64 the
      targets of its request, under fine32 the final state of the step's end. */
  lemma RunCaptures(e: Env, states: seq<Sys>, events: seq<Event>, i: nat)
    requires EnvOk(e) && IsRunOf(e, states, events) && i < |events|
    ensures SentPrefill(states[i], states[i + 1]).Some? <==> Admits(events[i]) || events[i].Continue?
    ensures SentRight(e.config, states[i], states[i + 1])
  {
    hide Enabled, Apply, Initial, Mirror, States, SentRight;
    assert StepAt(e, states, events, i);
    PrefixRun(e, states, events, i);
    RunKeeps(e, states[..i + 1], events[..i]);
    EventCaptures(e, states[i], events[i]);
  }

  lemma EventCaptures(e: Env, s: Sys, ev: Event)
    requires EnvOk(e) && Mirror(e, s) && Enabled(e, s, ev)
    ensures var o := Apply(e, s, ev);
            && o.Moved? && SentRight(e.config, s, o.sys)
            && (SentPrefill(s, o.sys).Some? <==> Admits(ev) || ev.Continue?)
  {
    hide Start, SentSegments, SendPrefill, IndexOk, AttachedOk, Distinct, SentRight;
    match ev
    case Arrive(tokens, live, segments) =>
      StartCaptures(e, s, tokens, live, true, segments);
    case Resume(live, segments) =>
      StartCaptures(e, s, s.phase.tokens, live, false, segments);
    case Continue(segments) =>
      var p := s.phase;
      StepSent(e, s, p.tokens, p.attached, p.computed, false, segments);
    case _ =>
      NothingSent(e, s, ev);
  }

  lemma NothingSent(e: Env, s: Sys, ev: Event)
    requires EnvOk(e) && Mirror(e, s) && Enabled(e, s, ev) && !Admits(ev) && !ev.Continue?
    ensures var o := Apply(e, s, ev); o.Moved? && SentPrefill(s, o.sys).None? && SentRight(e.config, s, o.sys)
  {
    hide IndexOk, AttachedOk, Execute, Start, SendPrefill, SentSegments;
    EventKeeps(e, s, ev);
  }

  lemma StepSent(e: Env, s: Sys, tokens: seq<Token>, a: Attached, computed: nat, newSlot: bool, segments: seq<int>)
    requires EnvOk(e) && Sendable(e, s, tokens, a, computed)
    requires SentSegments(e, SendPrefill(e, s, tokens, a, computed, newSlot, segments))
    ensures var o := SendPrefill(e, s, tokens, a, computed, newSlot, segments);
            o.Moved? && SentRight(e.config, s, o.sys) && SentPrefill(s, o.sys).Some?
  {
    hide SendPrefill, IndexOk, Resumable, PointsFit, CapturesExactly;
    var act := SentCaptures(e, s, tokens, a, computed, newSlot, segments);
    assert SendPrefill(e, s, tokens, a, computed, newSlot, segments).sys.queue[|s.queue|] == act;
  }

  lemma StartCaptures(e: Env, s: Sys, tokens: seq<Token>, live: nat, newSlot: bool, segments: seq<int>)
    requires EnvOk(e) && Mirror(e, s) && |tokens| > 0 && SentSegments(e, Start(e, s, tokens, live, newSlot, segments))
    ensures var o := Start(e, s, tokens, live, newSlot, segments);
            o.Moved? && SentRight(e.config, s, o.sys) && SentPrefill(s, o.sys).Some?
  {
    hide SendPrefill, Attach, MoveToEnd, IndexOk, SentSegments, CapturesExactly, Sendable, PhaseOk;
    var a := Attach(e.config, Hashes(tokens, e.config.blockSize), |tokens|, live, s.resident);
    var r := s.(resident := if a.restore.Some? then MoveToEnd(s.resident, a.restore.value) else s.resident);
    AttachSendable(e, s, tokens, live);
    StepSent(e, r, tokens, a, 0, newSlot, segments);
  }
}
