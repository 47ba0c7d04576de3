/** A prompt whose last step is shorter than the convolution window. */
module GdnWindow {
  import opened GdnPolicy
  import opened GdnPrefix
  import opened GdnProtocol
  import opened GdnScheduling
  import opened GdnWorker
  import opened Sequences

  /** A window of two inputs, none of them zero. */
  function Windowed(): Model {
    Model(2, [], [], (p: seq<Token>) => [1.0], (t: Temporal, xs: seq<Vector>) => t + [1.0])
  }

  const SHORT := Config(2, 2, Direct, Off)
  const PROMPT: seq<Token> := [7, 8, 9]

  function Step(newSlot: bool, ctx: nat, end: nat): Action {
    Prefill(PROMPT, newSlot, None, [], [], [], ctx, end)
  }

  function At(computed: nat, start: nat): Phase {
    Running(PROMPT, 3, Attached(None, []), computed, start)
  }

  function Held(conv: seq<Vector>, n: nat): Worker {
    Worker(Slot(conv, seq(n, _ => 1.0)), map[])
  }

  const ZEROS: seq<Vector> := [[], []]
  const ONES: seq<Vector> := [[1.0], [1.0]]
  const MIXED: seq<Vector> := [[], [1.0]]

  /** A prompt of three tokens runs in steps of two and one. The second step saves a zero where the window should
      hold the second token's input. */
  lemma ShortLastStep() returns (e: Env, states: seq<Sys>, events: seq<Event>)
    ensures EnvOk(e) && IsRunOf(e, states, events) && AllRestorable(e, states, events)
    ensures var s := states[|events|];
            && s.queue == [] && s.phase.Running? && s.phase.computed == s.phase.prompt == |s.phase.tokens|
            && s.worker.slot.temporal == Cold(e.model, s.phase.tokens).temporal
            && s.worker.slot.conv != Cold(e.model, s.phase.tokens).conv
  {
    hide Apply, Enabled, Cold, Step, Start;
    e := Env(SHORT, Windowed());
    states := [Sys([], Idle, [], Held(ZEROS, 0)),
               Sys([], At(2, 0), [Step(true, 0, 2)], Held(ZEROS, 0)),
               Sys([], At(2, 0), [], Held(ONES, 2)),
               Sys([], At(3, 2), [Step(false, 2, 3)], Held(ONES, 2)),
               Sys([], At(3, 2), [], Held(MIXED, 3))];
    events := [Arrive(PROMPT, 0, []), Work, Continue([]), Work];
    FirstSent();
    FirstRuns();
    SecondSent();
    SecondRuns();
    ColdWindow();
  }

  lemma FirstSent()
    ensures var e, s := Env(SHORT, Windowed()), Sys([], Idle, [], Held(ZEROS, 0));
            && EnvOk(e) && Enabled(e, s, Arrive(PROMPT, 0, []))
            && Apply(e, s, Arrive(PROMPT, 0, [])) == Moved(Sys([], At(2, 0), [Step(true, 0, 2)], Held(ZEROS, 0)))
  {
    assert EligibleKeys(KeysFromBlockHashes([]), SHORT, Hashes(PROMPT, 2), 3) == [];
    assert Attach(SHORT, Hashes(PROMPT, 2), 3, 0, []) == Attached(None, []);
    assert StepOf(SHORT, 3, Attached(None, []), 0) == GdnScheduling.Step(2, 2);
  }

  lemma SecondSent()
    ensures var e, s := Env(SHORT, Windowed()), Sys([], At(2, 0), [], Held(ONES, 2));
            && EnvOk(e) && Enabled(e, s, Continue([]))
            && Apply(e, s, Continue([])) == Moved(Sys([], At(3, 2), [Step(false, 2, 3)], Held(ONES, 2)))
  {
    assert StepOf(SHORT, 3, Attached(None, []), 2) == GdnScheduling.Step(3, 1);
  }

  lemma FirstRuns()
    ensures var e, s := Env(SHORT, Windowed()), Sys([], At(2, 0), [Step(true, 0, 2)], Held(ZEROS, 0));
            EnvOk(e) && Enabled(e, s, Work) && Apply(e, s, Work) == Moved(Sys([], At(2, 0), [], Held(ONES, 2)))
  {
    hide Enabled, Apply;
    var m, w, a := Windowed(), Held(ZEROS, 0), Step(true, 0, 2);
    var s0 := StartSlot(m, w, a);
    assert Pads(m, 2) == ZEROS && s0.temporal == [];
    NothingSaved(s0, a);
    Counts(s0, 0, 2);
    assert SavedWindow(m, Inputs(m, PROMPT, 0, 2)) == ONES;
    assert Execute(m, w, a) == Ran(Held(ONES, 2));
    WorkIs(Sys([], At(2, 0), [a], w), Held(ONES, 2));
  }

  lemma SecondRuns()
    ensures var e, s := Env(SHORT, Windowed()), Sys([], At(3, 2), [Step(false, 2, 3)], Held(ONES, 2));
            EnvOk(e) && Enabled(e, s, Work) && Apply(e, s, Work) == Moved(Sys([], At(3, 2), [], Held(MIXED, 3)))
  {
    hide Enabled, Apply;
    var m, w, a := Windowed(), Held(ONES, 2), Step(false, 2, 3);
    NothingSaved(w.slot, a);
    Counts(w.slot, 2, 3);
    assert SavedWindow(m, Inputs(m, PROMPT, 2, 3)) == MIXED;
    assert seq(2, _ => 1.0) + [1.0] == seq(3, _ => 1.0);
    assert Execute(m, w, a) == Ran(Held(MIXED, 3));
    WorkIs(Sys([], At(3, 2), [a], w), Held(MIXED, 3));
  }

  lemma WorkIs(s: Sys, w: Worker)
    requires |s.queue| == 1 && WellFormed(Windowed(), s.worker) && ActionShape(s.queue[0])
    requires Execute(Windowed(), s.worker, s.queue[0]) == Ran(w)
    ensures var e := Env(SHORT, Windowed());
            ConfigOk(SHORT) && Enabled(e, s, Work) && Apply(e, s, Work) == Moved(s.(worker := w, queue := []))
  {
    hide Execute, WellFormed, ActionShape;
    assert s.queue[1..] == [];
  }

  lemma NothingSaved(s: Slot, a: Action)
    requires a.Prefill? && a.captures == [] && ActionShape(a) && |s.conv| == 2
    ensures CaptureError(a.captures, a.end - a.ctx).None? && Save(Windowed(), s, a, map[], 0) == map[]
    ensures Without(map[], []) == map[] && SegmentError([], a.end - a.ctx).None?
  {
    var none: seq<int> := [];
    assert Members(none) == {};
  }

  lemma Counts(s: Slot, ctx: nat, end: nat)
    requires ctx <= end <= 3 && |s.conv| == 2
    ensures After(Windowed(), s, PROMPT, ctx, end).temporal == s.temporal + seq(end - ctx, _ => 1.0)
  {
    CountsTo(s.temporal, Padded(Windowed(), s, PROMPT, ctx, end), end - ctx);
  }

  lemma {:induction false} CountsTo(t: Temporal, padded: seq<Vector>, o: nat)
    requires o + 2 <= |padded|
    ensures TemporalAt(Windowed(), t, padded, o) == t + seq(o, _ => 1.0)
  {
    if o > 0 {
      CountsTo(t, padded, o - 1);
      assert seq(o - 1, _ => 1.0) + [1.0] == seq(o, _ => 1.0);
    }
  }

  lemma ColdWindow()
    ensures Cold(Windowed(), PROMPT) == Slot(ONES, seq(3, _ => 1.0))
  {
    var m := Windowed();
    assert PROMPT[..2] == [7, 8] && [7, 8][..1] == [7] && [7][..0] == [];
    assert Cold(m, []) == Slot(ZEROS, []);
    assert Cold(m, [7]) == Slot(MIXED, [1.0]);
    assert Cold(m, [7, 8]) == Slot(ONES, [1.0, 1.0]);
  }
}
