/** What the scheduler does depends on the events alone, not on the model that runs. So a schedule can be judged for
    all models with the same window at once. */
module GdnEveryModel {
  import opened GdnPolicy
  import opened GdnPrefix
  import opened GdnProtocol
  import opened GdnResume
  import opened GdnScheduling
  import opened GdnWorker
  import opened Sequences

  /** Another model under the same configuration. */
  ghost predicate Alike(e: Env, e': Env) {
    e'.config == e.config && e'.model.window == e.model.window
  }

  /** The scheduler's side is the same; the workers may differ. */
  predicate SameSide(s: Sys, s': Sys) {
    s'.resident == s.resident && s'.phase == s.phase && s'.queue == s.queue
  }

  lemma SameSend(e: Env, e': Env, s: Sys, s': Sys, tokens: seq<Token>, a: Attached, computed: nat, newSlot: bool,
      segments: seq<int>)
    requires ConfigOk(e.config) && Alike(e, e') && SameSide(s, s')
    ensures SameOutcome(SendPrefill(e, s, tokens, a, computed, newSlot, segments),
                        SendPrefill(e', s', tokens, a, computed, newSlot, segments))
  {
    hide StepOf, ContextOf, PointsOf, AdmissionOf;
  }

  predicate SameOutcome(o: Outcome, o': Outcome) {
    o.Moved? ==> o'.Moved? && SameSide(o.sys, o'.sys)
  }

  lemma SameStart(e: Env, e': Env, s: Sys, s': Sys, tokens: seq<Token>, live: nat, newSlot: bool, segments: seq<int>)
    requires ConfigOk(e.config) && Alike(e, e') && SameSide(s, s')
    ensures SameOutcome(Start(e, s, tokens, live, newSlot, segments), Start(e', s', tokens, live, newSlot, segments))
    ensures Start(e, s, tokens, live, newSlot, segments).Moved? &&
              SentSegments(e, Start(e, s, tokens, live, newSlot, segments)) ==>
              SentSegments(e', Start(e', s', tokens, live, newSlot, segments))
  {
    hide SendPrefill, Attach, SegmentsOf;
    var a := Attach(e.config, Hashes(tokens, e.config.blockSize), |tokens|, live, s.resident);
    var resident := if a.restore.Some? then MoveToEnd(s.resident, a.restore.value) else s.resident;
    SameSend(e, e', s.(resident := resident), s'.(resident := resident), tokens, a, 0, newSlot, segments);
  }

  /** Whatever may happen next under one model may happen under the other, with the same effect on the scheduler. */
  lemma SameEvent(e: Env, e': Env, s: Sys, s': Sys, ev: Event)
    requires EnvOk(e) && Alike(e, e') && Mirror(e, s) && Mirror(e', s') && SameSide(s, s') && Enabled(e, s, ev)
    ensures Enabled(e', s', ev)
    ensures var o, o' := Apply(e, s, ev), Apply(e', s', ev);
            o.Moved? && o'.Moved? && Mirror(e', o'.sys) && SameSide(o.sys, o'.sys)
  {
    hide Start, SendPrefill, Mirror, SegmentsOf, Execute, WellFormed, ActionShape;
    EventKeeps(e, s, ev);
    match ev {
      case Arrive(tokens, live, segments) =>
        SameStart(e, e', s, s', tokens, live, true, segments);
      case Resume(live, segments) =>
        SameStart(e, e', s, s', s.phase.tokens, live, false, segments);
      case Continue(segments) =>
        var p := s.phase;
        SameSend(e, e', s, s', p.tokens, p.attached, p.computed, false, segments);
      case _ =>
    }
    EventKeeps(e', s', ev);
  }

  // ---------- runs of one schedule ----------

  /** A run of another model on the same events. */
  ghost predicate SameRun(e: Env, e': Env, states': seq<Sys>, events: seq<Event>)
    requires ConfigOk(e.config)
  {
    Alike(e, e') && IsRunOf(e', states', events)
  }

  lemma {:induction false} SameRuns(e: Env, states: seq<Sys>, e': Env, states': seq<Sys>, events: seq<Event>)
    requires EnvOk(e) && IsRunOf(e, states, events) && SameRun(e, e', states', events)
    ensures SameSide(states[|events|], states'[|events|])
    decreases |events|
  {
    hide Enabled, Apply, Mirror;
    if |events| > 0 {
      var n := |events| - 1;
      ShorterRun(e, states, events);
      ShorterRun(e', states', events);
      SameRuns(e, states[..n + 1], e', states'[..n + 1], events[..n]);
      RunKeeps(e, states[..n + 1], events[..n]);
      RunKeeps(e', states'[..n + 1], events[..n]);
      assert StepAt(e, states, events, n) && StepAt(e', states', events, n);
      SameEvent(e, e', states[n], states'[n], events[n]);
    }
  }

  lemma SameRunsAt(e: Env, states: seq<Sys>, e': Env, states': seq<Sys>, events: seq<Event>, i: nat)
    requires EnvOk(e) && IsRunOf(e, states, events) && SameRun(e, e', states', events) && i <= |events|
    ensures SameSide(states[i], states'[i])
    ensures i < |events| ==> (RestorableAt(e, states, events, i) <==> RestorableAt(e', states', events, i))
  {
    PrefixRun(e, states, events, i);
    PrefixRun(e', states', events, i);
    SameRuns(e, states[..i + 1], e', states'[..i + 1], events[..i]);
  }

  /** Every schedule of one model is one of the other. */
  lemma {:induction false} Mimic(e: Env, e': Env, states: seq<Sys>, events: seq<Event>) returns (states': seq<Sys>)
    requires EnvOk(e) && Alike(e, e') && IsRunOf(e, states, events)
    ensures SameRun(e, e', states', events)
    decreases |events|
  {
    hide Enabled, Apply, Mirror;
    if |events| == 0 {
      var m := e'.model;
      states' := [Sys([], Idle, [], Worker(Slot(Pads(m, m.window), m.zero), map[]))];
    } else {
      var n := |events| - 1;
      ShorterRun(e, states, events);
      var before := Mimic(e, e', states[..n + 1], events[..n]);
      SameRuns(e, states[..n + 1], e', before, events[..n]);
      RunKeeps(e, states[..n + 1], events[..n]);
      RunKeeps(e', before, events[..n]);
      assert StepAt(e, states, events, n);
      SameEvent(e, e', states[n], before[n], events[n]);
      states' := before + [Apply(e', before[n], events[n]).sys];
      LongerRun(e', before, states'[n + 1], events);
    }
  }

  lemma LongerRun(e: Env, before: seq<Sys>, s: Sys, events: seq<Event>)
    requires ConfigOk(e.config) && |events| > 0 && IsRunOf(e, before, events[..|events| - 1])
    requires Enabled(e, before[|events| - 1], events[|events| - 1])
    requires Apply(e, before[|events| - 1], events[|events| - 1]) == Moved(s)
    ensures IsRunOf(e, before + [s], events)
  {
    hide Enabled, Apply;
    var states := before + [s];
    forall i | 0 <= i < |events|
      ensures StepAt(e, states, events, i)
    {
      if i < |events| - 1 {
        assert StepAt(e, before, events[..|events| - 1], i);
      }
    }
  }

  // ---------- judged for all models ----------

  /** The model that counts its tokens. */
  function Counting(window: nat): Model {
    Model(window, [], [], (p: seq<Token>) => [], (t: Temporal, xs: seq<Vector>) => t + [1.0])
  }

  function Size(): Temporal -> nat {
    t => |t|
  }

  lemma CountingCounts(window: nat)
    ensures Counts(Counting(window), Size()) && Grows(Counting(window), Size())
  {
  }

  ghost predicate StartsRight(e: Env, s: Sys, live: nat, segments: seq<int>)
    requires ConfigOk(e.config)
  {
    Mirror(e, s) && exists act :: StartsAs(e, s, live, segments, act) && RightStart(e, s, act)
  }

  /** A preempted request starts its first step from the true state under every model on the same schedule if and
      only if it restores a state. */
  lemma ResumeUnderEveryModel(e: Env, states: seq<Sys>, events: seq<Event>, live: nat, segments: seq<int>)
    requires EnvOk(e) && IsRunOf(e, states, events) && AllRestorable(e, states, events)
    requires Enabled(e, states[|events|], Resume(live, segments))
    ensures Restorable(e, states[|events|], Resume(live, segments)) <==>
              forall e', states' | SameRun(e, e', states', events) ::
                StartsRight(e', states'[|events|], live, segments)
  {
    hide StepAt, Initial, Enabled, Apply, Mirror, Restorable, StartsAs, RightStart, States, Counting, Size,
         AllRestorable;
    if Restorable(e, states[|events|], Resume(live, segments)) {
      forall e', states' | SameRun(e, e', states', events)
        ensures StartsRight(e', states'[|events|], live, segments)
      {
        ResumesThere(e, states, e', states', events, live, segments);
        var act := RestoredFrom(e', states'[|events|], live, segments);
      }
    } else {
      var e' := Env(e.config, Counting(e.model.window));
      assert Alike(e, e') by { CountingWindow(e.model.window); }
      var states' := Mimic(e, e', states, events);
      ResumesThere(e, states, e', states', events, live, segments);
      CountingCounts(e.model.window);
      var act := ResumeStart(e', states', events, live, segments, Size());
      OneStart(e', states'[|events|], live, segments, act);
    }
  }

  lemma CountingWindow(window: nat)
    ensures Counting(window).window == window
  {
  }

  lemma OneStart(e: Env, s: Sys, live: nat, segments: seq<int>, act: Action)
    requires ConfigOk(e.config) && Mirror(e, s) && StartsAs(e, s, live, segments, act) && !RightStart(e, s, act)
    ensures !StartsRight(e, s, live, segments)
  {
    hide Mirror, RightStart, Apply, Restorable, ActionShape;
    forall other | StartsAs(e, s, live, segments, other)
      ensures other == act
    {
      assert (s.queue + [other])[|s.queue|] == (s.queue + [act])[|s.queue|];
    }
  }

  /** What holds of the schedule holds of each of its runs. */
  lemma ResumesThere(e: Env, states: seq<Sys>, e': Env, states': seq<Sys>, events: seq<Event>, live: nat,
      segments: seq<int>)
    requires EnvOk(e) && IsRunOf(e, states, events) && AllRestorable(e, states, events)
    requires SameRun(e, e', states', events) && Enabled(e, states[|events|], Resume(live, segments))
    ensures EnvOk(e') && AllRestorable(e', states', events)
    ensures Mirror(e', states'[|events|]) && States(e', states'[|events|])
    ensures Enabled(e', states'[|events|], Resume(live, segments))
    ensures Restorable(e', states'[|events|], Resume(live, segments)) <==>
              Restorable(e, states[|events|], Resume(live, segments))
  {
    hide Enabled, Apply, Mirror, States, StepAt, Initial;
    forall i | 0 <= i < |events|
      ensures RestorableAt(e', states', events, i)
    {
      SameRunsAt(e, states, e', states', events, i);
      assert RestorableAt(e, states, events, i);
    }
    SameRuns(e, states, e', states', events);
    RunKeeps(e, states, events);
    RunKeeps(e', states', events);
    SameEvent(e, e', states[|events|], states'[|events|], Resume(live, segments));
  }

  /** A request ends its prompt in the cold recurrent state under every model on the same schedule if and only if
      it was not a resumption without a state to restore. */
  lemma PromptUnderEveryModel(e: Env, states: seq<Sys>, events: seq<Event>, k: nat)
    requires EnvOk(e) && IsRunOf(e, states, events) && LastAdmission(events, k)
    requires forall i | 0 <= i < k :: RestorableAt(e, states, events, i)
    requires AtPromptEnd(states[|events|])
    ensures RestorableAt(e, states, events, k) <==>
              forall e', states' | SameRun(e, e', states', events) :: EndsCold(e', states'[|events|])
  {
    hide StepAt, Initial, Enabled, Apply, Restorable, Counting, Size, Cold;
    if RestorableAt(e, states, events, k) {
      forall e', states' | SameRun(e, e', states', events)
        ensures EndsCold(e', states'[|events|])
      {
        PromptThere(e, states, e', states', events, k);
        CountedPrompt(e', states', events, k);
      }
    } else {
      var e' := Env(e.config, Counting(e.model.window));
      assert Alike(e, e') by { CountingWindow(e.model.window); }
      var states' := Mimic(e, e', states, events);
      PromptThere(e, states, e', states', events, k);
      CountingCounts(e.model.window);
      PromptEndExactly(e', states', events, k, Size());
    }
  }

  ghost predicate AtPromptEnd(s: Sys) {
    s.queue == [] && s.phase.Running? && s.phase.computed == s.phase.prompt == |s.phase.tokens|
  }

  ghost predicate EndsCold(e: Env, s: Sys) {
    s.phase.Running? && s.worker.slot.temporal == Cold(e.model, s.phase.tokens).temporal
  }

  lemma PromptThere(e: Env, states: seq<Sys>, e': Env, states': seq<Sys>, events: seq<Event>, k: nat)
    requires EnvOk(e) && IsRunOf(e, states, events) && SameRun(e, e', states', events) && k < |events|
    requires (forall i | 0 <= i < k :: RestorableAt(e, states, events, i)) && AtPromptEnd(states[|events|])
    ensures EnvOk(e') && AtPromptEnd(states'[|events|])
    ensures forall i | 0 <= i < k :: RestorableAt(e', states', events, i)
    ensures RestorableAt(e', states', events, k) <==> RestorableAt(e, states, events, k)
  {
    hide Enabled, Apply, Restorable, StepAt, Initial;
    SameRuns(e, states, e', states', events);
    forall i | 0 <= i <= k
      ensures RestorableAt(e', states', events, i) <==> RestorableAt(e, states, events, i)
    {
      SameRunsAt(e, states, e', states', events, i);
    }
  }

  lemma CountedPrompt(e: Env, states: seq<Sys>, events: seq<Event>, k: nat)
    requires EnvOk(e) && IsRunOf(e, states, events) && LastAdmission(events, k) && AtPromptEnd(states[|events|])
    requires forall i | 0 <= i <= k :: RestorableAt(e, states, events, i)
    ensures EndsCold(e, states[|events|])
  {
    hide Enabled, Apply, Cold, Initial, Restorable;
    forall i | 0 <= i < |events|
      ensures RestorableAt(e, states, events, i)
    {
      if i > k {
        NoResumption(e, states, events, i);
      }
    }
    PromptEndsCold(e, states, events);
  }
}
