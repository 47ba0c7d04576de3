/** What a request that resumed without a state to restore leaves in the worker's cache, exactly. */
module GdnStale {
  import opened GdnPolicy
  import opened GdnPrefix
  import opened GdnProtocol
  import opened GdnResume
  import opened GdnScheduling
  import opened GdnWorker
  import opened Sequences

  /** The states under the keys sent count debt tokens too many; all others are cold. */
  ghost predicate Stale(m: Model, size: Temporal -> nat, cache: map<PrefixKey, Slot>, sent: set<PrefixKey>, debt: nat) {
    forall k | k in cache ::
      if k in sent then size(cache[k].temporal) == debt + |k.digest| else cache[k] == Cold(m, k.digest)
  }

  function PointKeys(points: seq<CapturePoint>): set<PrefixKey> {
    Members(CaptureKeys(points))
  }

  /** The keys that the last action sent captures. */
  function NewKeys(s: Sys, s': Sys): set<PrefixKey> {
    if |s'.queue| == |s.queue| + 1 && s'.queue[|s.queue|].Prefill? then PointKeys(s'.queue[|s.queue|].captures) else {}
  }

  /** The keys captured by the actions sent from event k on. */
  function SentKeys(states: seq<Sys>, events: seq<Event>, k: nat): set<PrefixKey>
    requires |states| == |events| + 1
    decreases |events|
  {
    if |events| <= k then {} else
      var n := |events| - 1;
      SentKeys(states[..n + 1], events[..n], k) + NewKeys(states[n], states[n + 1])
  }

  // ---------- one step ----------

  lemma {:induction false} SavedStale(m: Model, size: Temporal -> nat, s: Slot, a: Action, cache: map<PrefixKey, Slot>,
      n: nat, sent: set<PrefixKey>, debt: nat)
    requires a.Prefill? && ActionShape(a) && |s.conv| == m.window && n <= |a.captures| && Counts(m, size)
    requires CaptureError(a.captures, a.end - a.ctx).None? && CapturesNamed(m, a)
    requires size(s.temporal) == debt + a.ctx && Stale(m, size, cache, sent, debt)
    ensures Stale(m, size, Save(m, s, a, cache, n), sent + PointKeys(a.captures[..n]), debt)
  {
    hide Cold, CapturedAt, Counts, CapturesNamed, CaptureError;
    if n == 0 {
      assert a.captures[..0] == [];
    } else {
      SavedStale(m, size, s, a, cache, n - 1, sent, debt);
      CapturedSize(m, size, s, a, n - 1, debt);
      PointKeysMore(a.captures, n - 1);
    }
  }

  lemma PointKeysMore(points: seq<CapturePoint>, n: nat)
    requires n < |points|
    ensures PointKeys(points[..n + 1]) == PointKeys(points[..n]) + {points[n].key}
  {
    assert CaptureKeys(points[..n + 1]) == CaptureKeys(points[..n]) + [points[n].key];
  }

  lemma CapturedSize(m: Model, size: Temporal -> nat, s: Slot, a: Action, i: nat, debt: nat)
    requires a.Prefill? && ActionShape(a) && |s.conv| == m.window && i < |a.captures| && Counts(m, size)
    requires CaptureError(a.captures, a.end - a.ctx).None? && CapturesNamed(m, a) && size(s.temporal) == debt + a.ctx
    ensures var p := a.captures[i];
            && p.offset <= a.end - a.ctx
            && size(CapturedAt(m, s, a.tokens, a.ctx, a.end, p.offset).temporal) == debt + |p.key.digest|
  {
    var p := a.captures[i];
    assert p in a.captures;
    TemporalCounts(m, size, s.temporal, Padded(m, s, a.tokens, a.ctx, a.end), p.offset);
  }

  lemma ExecuteStale(m: Model, size: Temporal -> nat, d: Worker, act: Action, sent: set<PrefixKey>, debt: nat)
    requires WellFormed(m, d) && act.Prefill? && ActionShape(act) && Execute(m, d, act).Ran? && Counts(m, size)
    requires act.restore.None? && !act.newSlot && CapturesNamed(m, act)
    requires size(d.slot.temporal) == debt + act.ctx && Stale(m, size, d.cache, sent, debt)
    ensures Stale(m, size, Execute(m, d, act).worker.cache, sent + PointKeys(act.captures), debt)
  {
    hide Save, Counts, CapturesNamed, CaptureError, SegmentError, Cold, PointKeys;
    SavedStale(m, size, d.slot, act, Without(d.cache, act.evict), |act.captures|, sent, debt);
    assert act.captures[..|act.captures|] == act.captures;
  }

  lemma StepStale(e: Env, s: Sys, tokens: seq<Token>, a: Attached, computed: nat, segments: seq<int>,
      size: Temporal -> nat, sent: set<PrefixKey>, debt: nat)
    requires EnvOk(e) && Sendable(e, s, tokens, a, computed) && Counts(e.model, size)
    requires SentSegments(e, SendPrefill(e, s, tokens, a, computed, false, segments))
    requires RestoreOf(a, computed).None? && Runs(e.model, s.worker, s.queue)
    requires size(Drained(e.model, s.worker, s.queue).slot.temporal) == debt + computed
    requires Stale(e.model, size, Drained(e.model, s.worker, s.queue).cache, sent, debt)
    ensures var o := SendPrefill(e, s, tokens, a, computed, false, segments);
            && o.Moved? && Mirror(e, o.sys)
            && Stale(e.model, size, Drained(e.model, o.sys.worker, o.sys.queue).cache, sent + NewKeys(s, o.sys), debt)
  {
    hide SendPrefill, Resumable, Distinct, SegmentError, CaptureError, KeysAfter, PhaseOk, Mirror, SentSegments,
         Execute, Runs, Drained, Counts, Stale, PointKeys, CapturesNamed;
    var m := e.model;
    var act := SendIsGood(e, s, tokens, a, computed, false, segments);
    var o := SendPrefill(e, s, tokens, a, computed, false, segments);
    MirrorSent(e, s, o, tokens, a, computed, false, act);
    if computed == 0 {
      NoRestoreAtZero(e.config, a);
    }
    PointsNamed(m, act);
    ExecuteStale(m, size, Drained(m, s.worker, s.queue), act, sent, debt);
  }

  lemma PointsNamed(m: Model, act: Action)
    requires act.Prefill? && ActionShape(act) && PointsFit(m, act.tokens, act.captures, act.ctx, act.end)
    ensures CapturesNamed(m, act)
  {
  }

  // ---------- the events after the resumption ----------

  lemma EventStale(e: Env, s: Sys, ev: Event, size: Temporal -> nat, sent: set<PrefixKey>, debt: nat)
    requires EnvOk(e) && Mirror(e, s) && Enabled(e, s, ev) && Owes(e, s, size, debt) && Counts(e.model, size)
    requires !Admits(ev) && Stale(e.model, size, Drained(e.model, s.worker, s.queue).cache, sent, debt)
    ensures var o := Apply(e, s, ev);
            && o.Moved? && Mirror(e, o.sys)
            && Stale(e.model, size, Drained(e.model, o.sys.worker, o.sys.queue).cache, sent + NewKeys(s, o.sys), debt)
  {
    match ev
    case Continue(segments) =>
      hide SendPrefill, SentSegments, Counts, AttachedOk, Runs, Drained, Distinct, Stale, NewKeys;
      var p := s.phase;
      StepStale(e, s, p.tokens, p.attached, p.computed, segments, size, sent, debt);
    case Generate(token) =>
      hide IndexOk, Drained, AttachedOk, Stale, Mirror;
      DecodeCache(e, s, token);
      assert sent + {} == sent;
    case Work =>
      hide IndexOk, PhaseOk, Drained, Stale;
      WorkRuns(e, s);
      assert sent + {} == sent;
    case Preempt(pending) =>
      hide Runs, Drained, Distinct, AttachedOk, Stale;
      assert sent + {} == sent;
    case Finish =>
      hide Runs, Drained, Distinct, AttachedOk, Stale;
      assert sent + {} == sent;
  }

  lemma DecodeCache(e: Env, s: Sys, token: Token)
    requires EnvOk(e) && Mirror(e, s) && Enabled(e, s, Generate(token))
    ensures var o := Apply(e, s, Generate(token));
            && o.Moved? && Mirror(e, o.sys) && NewKeys(s, o.sys) == {}
            && Drained(e.model, o.sys.worker, o.sys.queue).cache == Drained(e.model, s.worker, s.queue).cache
  {
    hide TrueThroughout, Drained, Runs, Distinct, AttachedOk, Cold, CacheTrue, SentSegments;
    GenerateKeeps(e, s, token);
    var tokens, d := s.phase.tokens + [token], Drained(e.model, s.worker, s.queue);
    ExecuteRuns(e.model, d, Decode(tokens));
    SendAction(e.model, s.worker, s.queue, Decode(tokens));
  }

  /** The resumption itself. */
  lemma ResumeStale(e: Env, s: Sys, live: nat, segments: seq<int>, size: Temporal -> nat)
    requires EnvOk(e) && Mirror(e, s) && States(e, s) && Enabled(e, s, Resume(live, segments)) && Counts(e.model, size)
    requires !Restorable(e, s, Resume(live, segments))
    ensures var o, debt := Apply(e, s, Resume(live, segments)), size(Drained(e.model, s.worker, s.queue).slot.temporal);
            && o.Moved? && Mirror(e, o.sys)
            && Stale(e.model, size, Drained(e.model, o.sys.worker, o.sys.queue).cache, NewKeys(s, o.sys), debt)
  {
    hide SendPrefill, IndexOk, Attach, SentSegments, Counts, Drained, Runs, TrueThroughout, ExceedsLive, Resumable,
         Cold;
    IndexRuns(e, s);
    var tokens := s.phase.tokens;
    var a := Attach(e.config, Hashes(tokens, e.config.blockSize), |tokens|, live, s.resident);
    AttachSendable(e, s, tokens, live);
    DrainedTrue(e.model, s.worker, s.queue);
    StepStale(e, s, tokens, a, 0, segments, size, {}, size(Drained(e.model, s.worker, s.queue).slot.temporal));
    var o := Apply(e, s, Resume(live, segments));
    assert {} + NewKeys(s, o.sys) == NewKeys(s, o.sys);
  }

  lemma {:induction false} StaleStays(e: Env, states: seq<Sys>, events: seq<Event>, k: nat, size: Temporal -> nat,
      debt: nat)
    requires EnvOk(e) && IsRunOf(e, states, events) && Counts(e.model, size) && LastAdmission(events, k)
    requires Mirror(e, states[k + 1]) && Owes(e, states[k + 1], size, debt)
    requires var s := states[k + 1];
             Stale(e.model, size, Drained(e.model, s.worker, s.queue).cache, NewKeys(states[k], s), debt)
    ensures var s := states[|events|];
            Mirror(e, s) && Stale(e.model, size, Drained(e.model, s.worker, s.queue).cache,
                SentKeys(states, events, k), debt)
    decreases |events|
  {
    hide Enabled, Apply, Mirror, Counts, Owes, Initial, Admits, Stale, Drained, NewKeys;
    var n := |events| - 1;
    ShorterRun(e, states, events);
    if k < n {
      StaleStays(e, states[..n + 1], events[..n], k, size, debt);
      DebtStays(e, states[..n + 1], events[..n], k, size, debt);
      assert StepAt(e, states, events, n);
      EventStale(e, states[n], events[n], size, SentKeys(states[..n + 1], events[..n], k), debt);
    } else {
      assert {} + NewKeys(states[k], states[k + 1]) == NewKeys(states[k], states[k + 1]);
    }
  }

  /** In a run that was sound until the last admission, the states the worker holds once all actions in flight are
      done are cold if and only if that admission was not a resumption without a state to restore, or nothing
      captured since is still held. */
  lemma CacheEndExactly(e: Env, states: seq<Sys>, events: seq<Event>, k: nat, size: Temporal -> nat)
    requires EnvOk(e) && IsRunOf(e, states, events) && Counts(e.model, size) && LastAdmission(events, k)
    requires forall i | 0 <= i < k :: RestorableAt(e, states, events, i)
    ensures var s := states[|events|];
            Mirror(e, s) && (CacheTrue(e.model, Drained(e.model, s.worker, s.queue).cache) <==>
              RestorableAt(e, states, events, k) || SentKeys(states, events, k) !! Members(s.resident))
  {
    hide Enabled, Apply, Cold, Counts, Initial, Restorable, Mirror, CacheTrue, SentKeys, Drained, States;
    RunKeeps(e, states, events);
    if RestorableAt(e, states, events, k) {
      SoundCache(e, states, events, k);
    } else {
      var debt := UnrestoredCache(e, states, events, k, size);
      StaleOrCold(e, states[|events|], size, SentKeys(states, events, k), debt);
    }
  }

  lemma SoundCache(e: Env, states: seq<Sys>, events: seq<Event>, k: nat)
    requires EnvOk(e) && IsRunOf(e, states, events) && LastAdmission(events, k)
    requires forall i | 0 <= i <= k :: RestorableAt(e, states, events, i)
    ensures var s := states[|events|];
            Mirror(e, s) && CacheTrue(e.model, Drained(e.model, s.worker, s.queue).cache)
  {
    hide Enabled, Apply, Cold, Initial, Restorable, Drained, CacheTrue, SlotTrue;
    forall i | 0 <= i < |events|
      ensures RestorableAt(e, states, events, i)
    {
      if i > k {
        NoResumption(e, states, events, i);
      }
    }
    RunKeeps(e, states, events);
    var s := states[|events|];
    DrainedTrue(e.model, s.worker, s.queue);
  }

  lemma UnrestoredCache(e: Env, states: seq<Sys>, events: seq<Event>, k: nat, size: Temporal -> nat)
      returns (debt: nat)
    requires EnvOk(e) && IsRunOf(e, states, events) && Counts(e.model, size) && LastAdmission(events, k)
    requires forall i | 0 <= i < k :: RestorableAt(e, states, events, i)
    requires !RestorableAt(e, states, events, k)
    ensures var s := states[|events|];
            debt > 0 && Mirror(e, s) &&
              Stale(e.model, size, Drained(e.model, s.worker, s.queue).cache, SentKeys(states, events, k), debt)
  {
    hide Enabled, Apply, Cold, Counts, Initial, Mirror, Owes, Grows, Stale, States, Drained, SentKeys;
    CountsGrows(e.model, size);
    PrefixRun(e, states, events, k);
    var states', events' := states[..k + 1], events[..k];
    forall i | 0 <= i < k
      ensures RestorableAt(e, states', events', i)
    {
      assert RestorableAt(e, states, events, i);
    }
    RunKeeps(e, states', events');
    RunTouches(e, states', events', size);
    assert StepAt(e, states, events, k);
    ResumeOwes(e, states[k], events[k].live, events[k].segments, size);
    ResumeStale(e, states[k], events[k].live, events[k].segments, size);
    debt := size(Drained(e.model, states[k].worker, states[k].queue).slot.temporal);
    StaleStays(e, states, events, k, size, debt);
    OwesSome(e, states[k], size);
  }

  lemma StaleOrCold(e: Env, s: Sys, size: Temporal -> nat, sent: set<PrefixKey>, debt: nat)
    requires ConfigOk(e.config) && Mirror(e, s) && Counts(e.model, size) && debt > 0
    requires Stale(e.model, size, Drained(e.model, s.worker, s.queue).cache, sent, debt)
    ensures CacheTrue(e.model, Drained(e.model, s.worker, s.queue).cache) <==> sent !! Members(s.resident)
  {
    hide Counts, Cold, Drained, Runs, PhaseOk, Members, Distinct;
    var cache := Drained(e.model, s.worker, s.queue).cache;
    forall k | k in cache && k in sent
      ensures cache[k] != Cold(e.model, k.digest)
    {
      ColdCounts(e.model, size, k.digest);
    }
    assert sent !! Members(s.resident) <==> forall k | k in cache :: k !in sent;
  }
}
