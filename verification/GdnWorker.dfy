/** The worker's side of the prefix-state cache: one prefill step over a request slot, the states it saves
    inside the step, and the actions it takes before and after the step. */
module GdnWorker {
  import opened GdnPrefix
  import opened Sequences

  type Token = int
  type Temporal = seq<real>
  type Vector = seq<real>

  /** A recurrent layer as the cache sees it: the convolution input of a token may depend on everything
      before it; the state is updated from a window of window + 1 inputs. */
  datatype Model = Model(window: nat, zero: Temporal, pad: Vector,
                         input: seq<Token> -> Vector, update: (Temporal, seq<Vector>) -> Temporal)

  /** What a request slot holds: the last inputs and the recurrent state. */
  datatype Slot = Slot(conv: seq<Vector>, temporal: Temporal)

  function Pads(m: Model, n: nat): seq<Vector> {
    seq(n, _ => m.pad)
  }

  // ---------- the cold, left-to-right recurrence ----------

  function Cold(m: Model, p: seq<Token>): (s: Slot)
    ensures |s.conv| == m.window
  {
    if p == [] then Slot(Pads(m, m.window), m.zero) else
      var before := Cold(m, p[..|p| - 1]);
      var inputs := before.conv + [m.input(p)];
      Slot(inputs[1..], m.update(before.temporal, inputs))
  }

  // ---------- one forward pass over tokens[ctx..end] ----------

  function Inputs(m: Model, tokens: seq<Token>, ctx: nat, end: nat): (xs: seq<Vector>)
    requires ctx <= end <= |tokens|
    ensures |xs| == end - ctx
  {
    seq(end - ctx, i requires 0 <= i < end - ctx => m.input(tokens[..ctx + i + 1]))
  }

  /** The inputs of the step, preceded by those the slot carried over. */
  function Padded(m: Model, s: Slot, tokens: seq<Token>, ctx: nat, end: nat): seq<Vector>
    requires ctx <= end <= |tokens|
  {
    s.conv + Inputs(m, tokens, ctx, end)
  }

  /** The recurrent state after the first o tokens of the step. */
  function TemporalAt(m: Model, temporal: Temporal, padded: seq<Vector>, o: nat): Temporal
    requires o + m.window <= |padded|
  {
    if o == 0 then temporal else m.update(TemporalAt(m, temporal, padded, o - 1), padded[o - 1..o + m.window])
  }

  /** The window saved at the end of a step: a step shorter than the window fills up with zeros. */
  function SavedWindow(m: Model, xs: seq<Vector>): seq<Vector> {
    if |xs| >= m.window then xs[|xs| - m.window..] else Pads(m, m.window - |xs|) + xs
  }

  function After(m: Model, s: Slot, tokens: seq<Token>, ctx: nat, end: nat): (r: Slot)
    requires ctx <= end <= |tokens| && |s.conv| == m.window
    ensures |r.conv| == m.window
  {
    Slot(SavedWindow(m, Inputs(m, tokens, ctx, end)), TemporalAt(m, s.temporal, Padded(m, s, tokens, ctx, end),
        end - ctx))
  }

  /** What is captured at an offset: inside the step from the padded inputs, at its end from the slot. */
  function CapturedAt(m: Model, s: Slot, tokens: seq<Token>, ctx: nat, end: nat, o: nat): Slot
    requires ctx <= end <= |tokens| && |s.conv| == m.window && o <= end - ctx
  {
    var padded := Padded(m, s, tokens, ctx, end);
    if o == end - ctx then After(m, s, tokens, ctx, end)
    else Slot(padded[o..o + m.window], TemporalAt(m, s.temporal, padded, o))
  }

  /** From the true state of the context, every position of the step has its true state and window. */
  lemma {:induction false} ForwardIsCold(m: Model, tokens: seq<Token>, ctx: nat, end: nat, o: nat)
    requires ctx + o <= end <= |tokens|
    ensures var s := Cold(m, tokens[..ctx]);
            var padded := Padded(m, s, tokens, ctx, end);
            Cold(m, tokens[..ctx + o]) == Slot(padded[o..o + m.window], TemporalAt(m, s.temporal, padded, o))
  {
    var s := Cold(m, tokens[..ctx]);
    var padded := Padded(m, s, tokens, ctx, end);
    if o == 0 {
      assert padded[..m.window] == s.conv;
    } else {
      ForwardIsCold(m, tokens, ctx, end, o - 1);
      var p := tokens[..ctx + o];
      assert p[..|p| - 1] == tokens[..ctx + (o - 1)];
      assert padded[o - 1..o - 1 + m.window] + [m.input(p)] == padded[o - 1..o + m.window];
      assert padded[o - 1..o + m.window][1..] == padded[o..o + m.window];
    }
  }

  /** The saved window is the true one exactly when the step has at least window tokens, or the entries it
      should have kept from the previous window are zero anyway. */
  lemma WindowKept(m: Model, conv: seq<Vector>, xs: seq<Vector>)
    requires |conv| == m.window
    ensures SavedWindow(m, xs) == (conv + xs)[|xs|..] <==>
            |xs| >= m.window || conv[|xs|..] == Pads(m, m.window - |xs|)
  {
    var kept := (conv + xs)[|xs|..];
    if |xs| >= m.window {
      assert kept == xs[|xs| - m.window..];
    } else {
      assert kept == conv[|xs|..] + xs;
      var n := m.window - |xs|;
      assert (Pads(m, n) + xs)[..n] == Pads(m, n) && (conv[|xs|..] + xs)[..n] == conv[|xs|..];
    }
  }

  /** The window saved at the end of a step is the true one: the step holds a window of tokens, or what it drops
      of the context's window was zero. */
  ghost predicate WindowFits(m: Model, tokens: seq<Token>, ctx: nat, end: nat)
    requires ctx <= end <= |tokens|
  {
    end - ctx >= m.window || Cold(m, tokens[..ctx]).conv[end - ctx..] == Pads(m, m.window - (end - ctx))
  }

  /** The end of a step that starts from the true state: the recurrent state is always true, the window
      exactly if it fits. */
  lemma StepEndState(m: Model, tokens: seq<Token>, ctx: nat, end: nat)
    requires ctx <= end <= |tokens|
    ensures var s := Cold(m, tokens[..ctx]);
            var r := After(m, s, tokens, ctx, end);
            && r.temporal == Cold(m, tokens[..end]).temporal
            && (r == Cold(m, tokens[..end]) <==> WindowFits(m, tokens, ctx, end))
  {
    var s := Cold(m, tokens[..ctx]);
    ForwardIsCold(m, tokens, ctx, end, end - ctx);
    var xs := Inputs(m, tokens, ctx, end);
    WindowKept(m, s.conv, xs);
    assert (s.conv + xs)[|xs|..] == Padded(m, s, tokens, ctx, end)[end - ctx..end - ctx + m.window];
  }

  lemma CaptureIsTrue(m: Model, tokens: seq<Token>, ctx: nat, end: nat, o: nat)
    requires ctx + o <= end <= |tokens| && o >= m.window
    ensures CapturedAt(m, Cold(m, tokens[..ctx]), tokens, ctx, end, o) == Cold(m, tokens[..ctx + o])
  {
    ForwardIsCold(m, tokens, ctx, end, o);
    StepEndState(m, tokens, ctx, end);
  }

  // ---------- the worker ----------

  datatype Action =
    | Prefill(tokens: seq<Token>, newSlot: bool, restore: Option<PrefixKey>, captures: seq<CapturePoint>,
              evict: seq<PrefixKey>, segments: seq<int>, ctx: nat, end: nat)
    | Decode(tokens: seq<Token>)

  datatype Worker = Worker(slot: Slot, cache: map<PrefixKey, Slot>)

  datatype WorkerError = MissingState | BadCaptureOffset | TooManyCaptures | BadSegmentOffset | TooManySegments

  datatype Executed = Ran(worker: Worker) | Raised(error: WorkerError)

  const MAX_CAPTURES := 2
  const MAX_SEGMENTS := 128

  predicate WellFormed(m: Model, w: Worker) {
    |w.slot.conv| == m.window && forall k | k in w.cache :: |w.cache[k].conv| == m.window
  }

  predicate ActionShape(a: Action) {
    match a
    case Decode(tokens) => |tokens| > 0
    case Prefill(tokens, _, _, _, _, _, ctx, end) => ctx < end <= |tokens|
  }

  function CaptureError(captures: seq<CapturePoint>, q: nat): Option<WorkerError> {
    if exists i | 0 <= i < |captures| :: !(0 < captures[i].offset <= q) then Some(BadCaptureOffset)
    else if exists i, j | 0 <= i < j < |captures| :: captures[i].offset == captures[j].offset
    then Some(BadCaptureOffset)
    else if |captures| > MAX_CAPTURES then Some(TooManyCaptures)
    else None
  }

  function SegmentError(segments: seq<int>, q: nat): Option<WorkerError> {
    if exists i | 0 <= i < |segments| :: !(0 < segments[i] < q) then Some(BadSegmentOffset)
    else if |Members(segments)| > MAX_SEGMENTS then Some(TooManySegments)
    else None
  }

  /** A new request finds a zeroed slot; a known one finds what its last run left. */
  function StartSlot(m: Model, w: Worker, a: Action): Slot
    requires a.Prefill?
  {
    if a.newSlot then Slot(Pads(m, m.window), m.zero) else w.slot
  }

  function Without(cache: map<PrefixKey, Slot>, evict: seq<PrefixKey>): map<PrefixKey, Slot> {
    map k | k in cache && k !in evict :: cache[k]
  }

  function Save(m: Model, s: Slot, a: Action, cache: map<PrefixKey, Slot>, n: nat): (r: map<PrefixKey, Slot>)
    requires a.Prefill? && ActionShape(a) && |s.conv| == m.window && n <= |a.captures|
    requires CaptureError(a.captures, a.end - a.ctx).None?
  {
    if n == 0 then cache else
      Save(m, s, a, cache, n - 1)[a.captures[n - 1].key := CapturedAt(m, s, a.tokens, a.ctx, a.end,
          a.captures[n - 1].offset)]
  }

  /** Evict, restore, run, capture. */
  function Execute(m: Model, w: Worker, a: Action): Executed
    requires WellFormed(m, w) && ActionShape(a)
  {
    match a
    case Decode(tokens) =>
      var inputs := w.slot.conv + [m.input(tokens)];
      Ran(w.(slot := Slot(inputs[1..], m.update(w.slot.temporal, inputs))))
    case Prefill(tokens, _, restore, captures, evict, segments, ctx, end) =>
      var kept := Without(w.cache, evict);
      var q := end - ctx;
      if restore.Some? && restore.value !in kept then Raised(MissingState)
      else if CaptureError(captures, q).Some? then Raised(CaptureError(captures, q).value)
      else if SegmentError(segments, q).Some? then Raised(SegmentError(segments, q).value)
      else
        var s := if restore.Some? then kept[restore.value] else StartSlot(m, w, a);
        Ran(Worker(After(m, s, tokens, ctx, end), Save(m, s, a, kept, |captures|)))
  }

  // ---------- what executing an action keeps ----------

  ghost predicate CacheTrue(m: Model, cache: map<PrefixKey, Slot>) {
    forall k | k in cache :: cache[k] == Cold(m, k.digest)
  }

  function CaptureKeys(points: seq<CapturePoint>): (keys: seq<PrefixKey>)
    ensures |keys| == |points|
  {
    seq(|points|, i requires 0 <= i < |points| => points[i].key)
  }

  /** The keys a worker holds after an action. */
  ghost function KeysAfter(keys: set<PrefixKey>, a: Action): set<PrefixKey> {
    if a.Decode? then keys else
      (set k | k in keys && k !in a.evict) + (set k | k in CaptureKeys(a.captures))
  }

  ghost predicate KeyedBy(cache: map<PrefixKey, Slot>, kept: map<PrefixKey, Slot>, keys: seq<PrefixKey>, n: nat)
    requires n <= |keys|
  {
    forall k :: k in cache <==> k in kept || k in keys[..n]
  }

  lemma {:induction false} SavedKeys(m: Model, s: Slot, a: Action, kept: map<PrefixKey, Slot>, n: nat)
    requires a.Prefill? && ActionShape(a) && |s.conv| == m.window && n <= |a.captures|
    requires CaptureError(a.captures, a.end - a.ctx).None? && (forall k | k in kept :: |kept[k].conv| == m.window)
    ensures var r := Save(m, s, a, kept, n);
            KeyedBy(r, kept, CaptureKeys(a.captures), n) && forall k | k in r :: |r[k].conv| == m.window
  {
    if n > 0 {
      SavedKeys(m, s, a, kept, n - 1);
      var keys := CaptureKeys(a.captures);
      assert keys[..n] == keys[..n - 1] + [a.captures[n - 1].key];
    }
  }

  /** An action raises nothing when its restore is held and not evicted and its offsets pass the checks;
      it then leaves the worker with the keys it announced. */
  lemma ExecuteRuns(m: Model, w: Worker, a: Action)
    requires WellFormed(m, w) && ActionShape(a)
    requires a.Prefill? ==>
               CaptureError(a.captures, a.end - a.ctx).None? && SegmentError(a.segments, a.end - a.ctx).None?
    requires a.Prefill? && a.restore.Some? ==> a.restore.value in w.cache && a.restore.value !in a.evict
    ensures var r := Execute(m, w, a);
            r.Ran? && WellFormed(m, r.worker) && r.worker.cache.Keys == KeysAfter(w.cache.Keys, a)
  {
    hide CaptureError, SegmentError, After, Save;
    if a.Prefill? {
      var kept := Without(w.cache, a.evict);
      var s := if a.restore.Some? then kept[a.restore.value] else StartSlot(m, w, a);
      SavedKeys(m, s, a, kept, |a.captures|);
      var keys := CaptureKeys(a.captures);
      assert keys[..|keys|] == keys;
    }
  }

  /** Every capture names the prefix it stands at, at least a window into the step. */
  ghost predicate CapturesNamed(m: Model, a: Action)
    requires a.Prefill? && ActionShape(a)
  {
    forall p | p in a.captures :: m.window <= p.offset <= a.end - a.ctx && p.key.digest == a.tokens[..a.ctx + p.offset]
  }

  lemma {:induction false} SavedTrue(m: Model, s: Slot, a: Action, cache: map<PrefixKey, Slot>, n: nat)
    requires a.Prefill? && ActionShape(a) && |s.conv| == m.window && n <= |a.captures|
    requires CaptureError(a.captures, a.end - a.ctx).None? && CapturesNamed(m, a)
    requires s == Cold(m, a.tokens[..a.ctx]) && CacheTrue(m, cache)
    ensures CacheTrue(m, Save(m, s, a, cache, n))
  {
    hide CaptureError, Cold, CapturedAt;
    if n > 0 {
      SavedTrue(m, s, a, cache, n - 1);
      var p := a.captures[n - 1];
      assert p in a.captures;
      CaptureIsTrue(m, a.tokens, a.ctx, a.end, p.offset);
    }
  }

  /** From the true state of its context, a prefill step keeps every cached state true and ends in the true
      recurrent state; its window is true as well exactly if it fits. */
  lemma PrefillIsCold(m: Model, w: Worker, a: Action)
    requires WellFormed(m, w) && ActionShape(a) && a.Prefill? && CapturesNamed(m, a) && CacheTrue(m, w.cache)
    requires if a.restore.Some? then a.restore.value.digest == a.tokens[..a.ctx]
             else StartSlot(m, w, a) == Cold(m, a.tokens[..a.ctx])
    ensures var r := Execute(m, w, a);
            r.Ran? ==> && CacheTrue(m, r.worker.cache)
                       && r.worker.slot.temporal == Cold(m, a.tokens[..a.end]).temporal
                       && (r.worker.slot == Cold(m, a.tokens[..a.end]) <==> WindowFits(m, a.tokens, a.ctx, a.end))
  {
    hide Save, After, CaptureError, SegmentError, Cold;
    var kept := Without(w.cache, a.evict);
    if Execute(m, w, a).Ran? {
      var s := if a.restore.Some? then kept[a.restore.value] else StartSlot(m, w, a);
      SavedTrue(m, s, a, kept, |a.captures|);
      StepEndState(m, a.tokens, a.ctx, a.end);
    }
  }

  lemma {:induction false} ColdEntry(m: Model, p: seq<Token>, j: nat)
    requires j < m.window
    ensures var i := |p| + j - m.window; Cold(m, p).conv[j] == if i >= 0 then m.input(p[..i + 1]) else m.pad
  {
    if p != [] {
      var init := p[..|p| - 1];
      if j + 1 < m.window {
        ColdEntry(m, init, j + 1);
        var i := |p| + j - m.window;
        assert i >= 0 ==> init[..i + 1] == p[..i + 1];
      } else {
        assert p[..|p|] == p;
      }
    }
  }

  function InputAt(m: Model, tokens: seq<Token>, i: nat): Vector
    requires i < |tokens|
  {
    m.input(tokens[..i + 1])
  }

  /** In terms of the inputs: those of the context that belong into the window at the end of the step are zero. */
  lemma FitsMeans(m: Model, tokens: seq<Token>, ctx: nat, end: nat)
    requires ctx <= end <= |tokens|
    ensures WindowFits(m, tokens, ctx, end) <==>
              forall i: nat | end - m.window <= i < ctx :: InputAt(m, tokens, i) == m.pad
  {
    var n, p := end - ctx, tokens[..ctx];
    if n < m.window {
      var kept := Cold(m, p).conv[n..];
      forall k | 0 <= k < m.window - n
        ensures var i := end - m.window + k; kept[k] == if i >= 0 then InputAt(m, tokens, i) else m.pad
      {
        ColdEntry(m, p, n + k);
        var i := end - m.window + k;
        assert i >= 0 ==> p[..i + 1] == tokens[..i + 1];
      }
      if WindowFits(m, tokens, ctx, end) {
        forall i: nat | end - m.window <= i < ctx
          ensures InputAt(m, tokens, i) == m.pad
        {
          assert kept[i - (end - m.window)] == m.pad;
        }
      }
      if forall i: nat | end - m.window <= i < ctx :: InputAt(m, tokens, i) == m.pad {
        assert forall k | 0 <= k < m.window - n :: kept[k] == m.pad;
        assert kept == Pads(m, m.window - n);
      }
    }
  }

  /** Decoding does not change what the window of the prompt's last step was. */
  lemma FitsLater(m: Model, tokens: seq<Token>, token: Token, ctx: nat, end: nat)
    requires ctx <= end <= |tokens|
    ensures WindowFits(m, tokens + [token], ctx, end) <==> WindowFits(m, tokens, ctx, end)
  {
    assert (tokens + [token])[..ctx] == tokens[..ctx];
  }

  lemma DecodeIsCold(m: Model, w: Worker, tokens: seq<Token>)
    requires WellFormed(m, w) && |tokens| > 0
    ensures var r := Execute(m, w, Decode(tokens));
            && r.Ran? && r.worker.cache == w.cache
            && (w.slot == Cold(m, tokens[..|tokens| - 1]) ==> r.worker.slot == Cold(m, tokens))
  {
  }

  // ---------- the worker's loops ----------

  predicate RangeError(captures: seq<CapturePoint>, n: nat, q: nat)
    requires n <= |captures|
  {
    || (exists i | 0 <= i < n :: !(0 < captures[i].offset <= q))
    || exists i, j | 0 <= i < j < n :: captures[i].offset == captures[j].offset
  }

  method CheckCaptures(captures: seq<CapturePoint>, q: nat) returns (error: Option<WorkerError>)
    ensures error == CaptureError(captures, q)
    ensures var fine := (forall i | 0 <= i < |captures| :: 0 < captures[i].offset <= q)
                        && forall i, j | 0 <= i < j < |captures| :: captures[i].offset != captures[j].offset;
            error == if !fine then Some(BadCaptureOffset) else if |captures| > 2 then Some(TooManyCaptures) else None
  {
    var seen: set<int> := {};
    for n := 0 to |captures|
      invariant !RangeError(captures, n, q)
      invariant forall o :: o in seen <==> exists i :: 0 <= i < n && captures[i].offset == o
      invariant |seen| == n
    {
      var offset := captures[n].offset;
      if !(0 < offset <= q) || offset in seen {
        return Some(BadCaptureOffset);
      }
      seen := seen + {offset};
    }
    error := if |seen| > MAX_CAPTURES then Some(TooManyCaptures) else None;
  }

  method CheckSegments(segments: seq<int>, q: nat) returns (error: Option<WorkerError>)
    ensures error == SegmentError(segments, q)
    ensures var fine := forall i | 0 <= i < |segments| :: 0 < segments[i] < q;
            error == if !fine then Some(BadSegmentOffset)
                     else if |Members(segments)| > 128 then Some(TooManySegments) else None
  {
    var seen: set<int> := {};
    for n := 0 to |segments|
      invariant forall i | 0 <= i < n :: 0 < segments[i] < q
      invariant seen == Members(segments[..n])
    {
      if !(0 < segments[n] < q) {
        return Some(BadSegmentOffset);
      }
      assert segments[..n + 1] == segments[..n] + [segments[n]];
      seen := seen + {segments[n]};
    }
    assert segments[..|segments|] == segments;
    error := if |seen| > MAX_SEGMENTS then Some(TooManySegments) else None;
  }

  class PrefixStateWorker {
    const model: Model
    var slot: Slot
    var cache: map<PrefixKey, Slot>

    function State(): Worker
      reads this
    {
      Worker(slot, cache)
    }

    constructor (model: Model)
      ensures this.model == model && WellFormed(model, State()) && cache == map[]
    {
      this.model := model;
      slot := Slot(Pads(model, model.window), model.zero);
      cache := map[];
    }

    method Evict(keys: seq<PrefixKey>)
      modifies this`cache
      ensures cache == Without(old(cache), keys)
    {
      for i := 0 to |keys|
        invariant cache == Without(old(cache), keys[..i])
      {
        assert keys[..i + 1] == keys[..i] + [keys[i]];
        cache := cache - {keys[i]};
      }
      assert keys[..|keys|] == keys;
    }

    /** One prefill step. When a check fails the evictions have already happened. */
    method Prefill(a: Action) returns (error: Option<WorkerError>)
      requires a.Prefill? && ActionShape(a) && WellFormed(model, State())
      modifies this
      ensures match Execute(model, old(State()), a)
              case Ran(w) => error.None? && State() == w
              case Raised(e) => error == Some(e) && cache == Without(old(cache), a.evict)
    {
      hide SegmentError, After, CapturedAt;
      Evict(a.evict);
      var from := if a.newSlot then Slot(Pads(model, model.window), model.zero) else slot;
      if a.restore.Some? {
        if a.restore.value !in cache {
          return Some(MissingState);
        }
        from := cache[a.restore.value];
      }
      error := CheckCaptures(a.captures, a.end - a.ctx);
      if error.Some? {
        return;
      }
      error := CheckSegments(a.segments, a.end - a.ctx);
      if error.Some? {
        return;
      }
      slot := After(model, from, a.tokens, a.ctx, a.end);
      ghost var kept := cache;
      for i := 0 to |a.captures|
        invariant cache == Save(model, from, a, kept, i) && slot == After(model, from, a.tokens, a.ctx, a.end)
      {
        var p := a.captures[i];
        cache := cache[p.key := CapturedAt(model, from, a.tokens, a.ctx, a.end, p.offset)];
      }
    }
  }
}
