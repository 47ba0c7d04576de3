/** A request's tokens live twice: in the scheduler and in the worker. The worker gets everything at the first
    prefill step and only what is new afterwards. */
module SequenceReplication {
  import opened Sequences

  type Token = int

  datatype Stage = PrefillStage | DecodeStage

  /** unsent are the output tokens appended since the last delta; cached is prompt and output together. */
  datatype Data = Data(prompt: seq<Token>, output: seq<Token>, cached: seq<Token>, logprob: real, computed: nat,
      stage: Stage,
                       unsent: seq<Token>)

  function Fresh(prompt: seq<Token>): Data {
    Data(prompt, [], prompt, 0.0, 0, PrefillStage, [])
  }

  function Len(d: Data): nat {
    |d.prompt| + |d.output|
  }

  datatype Delta = Delta(tokens: seq<Token>, logprob: real, computed: nat, stage: Stage)

  function Appended(d: Data, token: Token, logprob: real): Data {
    d.(output := d.output + [token], unsent := d.unsent + [token], cached := d.cached + [token],
        logprob := d.logprob + logprob)
  }

  function Advanced(d: Data, n: nat): Data {
    d.(computed := d.computed + n, stage := if d.computed + n == Len(d) then DecodeStage else d.stage)
  }

  function Reset(d: Data): Data {
    d.(computed := 0, stage := PrefillStage, unsent := [])
  }

  function DeltaOf(d: Data): Delta {
    Delta(d.unsent, d.logprob, d.computed, d.stage)
  }

  function Applied(d: Data, delta: Delta): Data {
    d.(computed := delta.computed, logprob := delta.logprob, stage := delta.stage, output := d.output + delta.tokens,
       cached := d.cached + delta.tokens)
  }

  /** The replicated fields; the worker does not use unsent. */
  ghost predicate Agree(a: Data, b: Data) {
    a.(unsent := []) == b.(unsent := [])
  }

  // ---------- the object both sides hold ----------

  class SequenceData {
    const prompt: seq<Token>
    var output: seq<Token>
    var cached: seq<Token>
    var logprob: real
    var computed: nat
    var stage: Stage
    var unsent: seq<Token>

    function Value(): Data
      reads this
    {
      Data(prompt, output, cached, logprob, computed, stage, unsent)
    }

    constructor (prompt: seq<Token>)
      ensures Value() == Fresh(prompt)
    {
      this.prompt := prompt;
      output, cached, logprob, computed, stage, unsent := [], prompt, 0.0, 0, PrefillStage, [];
    }

    method AppendToken(token: Token, logprob: real)
      modifies this
      ensures Value() == Appended(old(Value()), token, logprob)
    {
      output := output + [token];
      unsent := unsent + [token];
      cached := cached + [token];
      this.logprob := this.logprob + logprob;
    }

    /** False when more would be computed than there is. */
    method UpdateComputed(n: nat) returns (ok: bool)
      modifies this
      ensures ok == (old(computed) + n <= Len(old(Value())))
      ensures ok ==> Value() == Advanced(old(Value()), n)
      ensures ok ==> computed == old(computed) + n && output == old(output) && cached == old(cached)
                     && logprob == old(logprob) && unsent == old(unsent)
      ensures ok ==> stage == if computed == |prompt| + |output| then DecodeStage else old(stage)
    {
      computed := computed + n;
      if computed > |output| + |prompt| {
        return false;
      }
      if |output| + |prompt| - computed == 0 {
        stage := DecodeStage;
      }
      ok := true;
    }

    method ResetForRecompute()
      modifies this
      ensures Value() == Reset(old(Value()))
    {
      computed, stage, unsent := 0, PrefillStage, [];
    }

    method GetDeltaAndReset() returns (delta: Delta)
      modifies this
      ensures delta == DeltaOf(old(Value())) && Value() == old(Value()).(unsent := [])
    {
      delta := Delta(unsent, logprob, computed, stage);
      unsent := [];
    }

    method ApplyDelta(delta: Delta)
      modifies this
      ensures Value() == Applied(old(Value()), delta)
    {
      computed := delta.computed;
      logprob := delta.logprob;
      stage := delta.stage;
      output := output + delta.tokens;
      cached := cached + delta.tokens;
    }
  }

  // ---------- runs ----------

  /** sent: the worker has been told about this request since it last started from the beginning. */
  datatype Pair = Pair(scheduler: Data, worker: Option<Data>, sent: bool)

  datatype Event = Append(token: Token, logprob: real) | Compute(n: nat) | Recompute | Exchange

  /** One step's message: everything at the first prefill step, a delta afterwards. */
  function Exchanged(p: Pair, sendDelta: bool): Option<Pair> {
    if p.scheduler.computed == 0 || !sendDelta then Some(Pair(p.scheduler, Some(p.scheduler), true))
    else if p.worker.None? then None
    else Some(Pair(p.scheduler.(unsent := []), Some(Applied(p.worker.value, DeltaOf(p.scheduler))), true))
  }

  /** Tokens are sampled only by a step that computed something, and a step computes only what it was sent. */
  predicate Enabled(p: Pair, e: Event) {
    match e
    case Append(_, _) => p.scheduler.computed > 0
    case Compute(n) => p.sent && 0 < n && p.scheduler.computed + n <= Len(p.scheduler)
    case Recompute => true
    case Exchange => true
  }

  function Next(p: Pair, e: Event): Option<Pair> {
    match e
    case Append(t, l) => Some(p.(scheduler := Appended(p.scheduler, t, l)))
    case Compute(n) => Some(p.(scheduler := Advanced(p.scheduler, n)))
    case Recompute => Some(p.(scheduler := Reset(p.scheduler), sent := false))
    case Exchange => Exchanged(p, true)
  }

  /** The worker's output followed by the unsent tokens is the scheduler's output. */
  ghost predicate Follows(p: Pair) {
    p.worker.Some? && p.worker.value.prompt == p.scheduler.prompt
        && p.worker.value.output + p.scheduler.unsent == p.scheduler.output
    && p.worker.value.cached == p.worker.value.prompt + p.worker.value.output
  }

  ghost predicate Inv(p: Pair) {
    && p.scheduler.cached == p.scheduler.prompt + p.scheduler.output
    && p.scheduler.computed <= Len(p.scheduler)
    && (p.scheduler.computed == 0 ==> p.scheduler.unsent == [])
    && (p.scheduler.computed > 0 ==> p.sent)
    && (p.sent ==> Follows(p))
  }

  lemma EventKeeps(p: Pair, e: Event)
    requires Inv(p) && Enabled(p, e)
    ensures Next(p, e).Some? && Inv(Next(p, e).value)
    ensures e.Exchange? ==> var r := Next(p, e).value; r.worker.Some? && Agree(r.worker.value, r.scheduler)
  {
    match e
    case Append(t, _) =>
      assert p.worker.value.output + (p.scheduler.unsent + [t]) == p.worker.value.output + p.scheduler.unsent + [t];
      assert p.scheduler.prompt + (p.scheduler.output + [t]) == p.scheduler.prompt + p.scheduler.output + [t];
    case Exchange =>
      if p.scheduler.computed > 0 {
        var w, s := p.worker.value, p.scheduler;
        assert w.cached + s.unsent == w.prompt + (w.output + s.unsent);
      }
    case Compute(_) =>
    case Recompute =>
  }

  ghost predicate IsRun(prompt: seq<Token>, states: seq<Pair>, events: seq<Event>) {
    && |states| == |events| + 1 && states[0] == Pair(Fresh(prompt), None, false)
    && forall i | 0 <= i < |events| :: Enabled(states[i], events[i])
        && Next(states[i], events[i]) == Some(states[i + 1])
  }

  /** For every run: a message can always be formed, all replicated fields agree right after it, and between
      messages the worker only lacks the unsent tokens. */
  lemma {:induction false} RunReplicates(prompt: seq<Token>, states: seq<Pair>, events: seq<Event>)
    requires IsRun(prompt, states, events)
    ensures var p := states[|events|];
            && Inv(p) && Exchanged(p, true).Some?
            && (p.sent ==> p.worker.Some? && p.worker.value.output + p.scheduler.unsent == p.scheduler.output)
            && (|events| > 0 && events[|events| - 1].Exchange? ==> p.worker.Some? && Agree(p.worker.value, p.scheduler))
    decreases |events|
  {
    hide Next, Enabled, Agree;
    if |events| > 0 {
      var n := |events| - 1;
      RunReplicates(prompt, states[..n + 1], events[..n]);
      EventKeeps(states[n], events[n]);
    }
  }

  // ---------- what a run amounts to ----------

  /** The tokens sampled so far. */
  function Sampled(events: seq<Event>): seq<Token> {
    if events == [] then [] else
      var n := |events| - 1;
      Sampled(events[..n]) + if events[n].Append? then [events[n].token] else []
  }

  function LogprobOf(events: seq<Event>): real {
    if events == [] then 0.0 else
      var n := |events| - 1;
      LogprobOf(events[..n]) + if events[n].Append? then events[n].logprob else 0.0
  }

  /** The tokens computed since the request last started from the beginning. */
  function Progress(events: seq<Event>): nat {
    if events == [] || events[|events| - 1].Recompute? then 0 else
      var n := |events| - 1;
      Progress(events[..n]) + if events[n].Compute? then events[n].n else 0
  }

  /** Event j computed the last token there was, and nothing has started from the beginning since. */
  ghost predicate ReachedEnd(prompt: seq<Token>, events: seq<Event>, j: nat) {
    && j < |events| && events[j].Compute? && Progress(events[..j + 1]) == |prompt| + |Sampled(events[..j + 1])|
    && forall i | j < i < |events| :: !events[i].Recompute?
  }

  /** The scheduler's data in any run: the prompt, what was sampled, what was computed since the last restart; and
      the request decodes if and only if it has reached its end since then. */
  lemma {:induction false} RunAmountsTo(prompt: seq<Token>, states: seq<Pair>, events: seq<Event>)
    requires IsRun(prompt, states, events)
    ensures var d := states[|events|].scheduler;
            && d.prompt == prompt && d.output == Sampled(events) && d.cached == prompt + Sampled(events)
            && d.logprob == LogprobOf(events) && d.computed == Progress(events)
            && (d.stage.DecodeStage? <==> exists j :: ReachedEnd(prompt, events, j))
    decreases |events|
  {
    if |events| == 0 {
      assert prompt + [] == prompt;
    } else {
      var n := |events| - 1;
      RunAmountsTo(prompt, states[..n + 1], events[..n]);
      StageKept(prompt, states[n].scheduler, states[n + 1].scheduler, events);
    }
  }

  lemma StageKept(prompt: seq<Token>, d: Data, d': Data, events: seq<Event>)
    requires |events| > 0
    requires var n := |events| - 1;
             && d.prompt == prompt && d.output == Sampled(events[..n]) && d.computed == Progress(events[..n])
             && (d.stage.DecodeStage? <==> exists j :: ReachedEnd(prompt, events[..n], j))
             && match events[n]
                case Append(t, l) => d' == Appended(d, t, l)
                case Compute(k) => d' == Advanced(d, k)
                case Recompute => d' == Reset(d)
                case Exchange => d' == d || d' == d.(unsent := [])
    ensures d'.stage.DecodeStage? <==> exists j :: ReachedEnd(prompt, events, j)
  {
    var n := |events| - 1;
    var before := events[..n];
    assert events[..n + 1] == events;
    forall j: nat | j < n
      ensures ReachedEnd(prompt, events, j) <==> ReachedEnd(prompt, before, j) && !events[n].Recompute?
    {
      assert before[..j + 1] == events[..j + 1];
    }
    if d'.stage.DecodeStage? {
      if events[n].Compute? && Progress(events) == |prompt| + |Sampled(events)| {
        assert ReachedEnd(prompt, events, n);
      } else {
        var j :| ReachedEnd(prompt, before, j);
        assert ReachedEnd(prompt, events, j);
      }
    }
  }

  /** The full message does not clear the unsent tokens: it leaves the two sides in step exactly when there
      are none, that is, when nothing was appended before the first prefill step was sent. */
  lemma FullMessageFollows(p: Pair)
    requires p.scheduler.computed == 0 && p.scheduler.cached == p.scheduler.prompt + p.scheduler.output
    ensures Follows(Exchanged(p, true).value) <==> p.scheduler.unsent == []
  {
    var s := p.scheduler;
    assert s.unsent == [] ==> s.output + s.unsent == s.output;
    assert |s.output + s.unsent| == |s.output| + |s.unsent|;
  }

  /** A token appended before the first message reaches the worker twice. */
  lemma AppendedTooEarly()
    ensures var p0 := Pair(Fresh([1]), None, false);
            var p1 := Next(p0, Append(2, 0.0)).value;
            !Enabled(p0, Append(2, 0.0)) && var p2 := Next(p1, Exchange).value;
            Enabled(p2, Compute(1)) && var p3 := Next(p2, Compute(1)).value;
            Next(p3, Exchange).value.worker.value.output == [2, 2] && p3.scheduler.output == [2]
  {
  }

  // ---------- output returned to the client ----------

  /** What one call returns: a single new token comes bare, otherwise a list. */
  datatype Returned = Bare(token: Token) | Listed(tokens: seq<Token>)

  function Tokens(r: Returned): seq<Token> {
    match r
    case Bare(t) => [t]
    case Listed(ts) => ts
  }

  /** Indexing from the end: a count of zero means the whole list. */
  function FromEnd(s: seq<Token>, n: nat): seq<Token>
    requires n <= |s|
  {
    if n == 0 then s else s[|s| - n..]
  }

  lemma FromEndIsTail(front: seq<Token>, back: seq<Token>, n: nat)
    requires n <= |back|
    ensures FromEnd(front + back, n) == back[|back| - n..] <==> n > 0 || front + back == []
  {
    var s := front + back;
    if n > 0 {
      assert s[|s| - n..] == back[|back| - n..];
    } else {
      assert back[|back|..] == [];
    }
  }

  class Stream {
    const data: SequenceData
    var offset: nat
    /** All tokens returned so far. */
    ghost var streamed: seq<Token>

    ghost predicate Valid()
      reads this, data
    {
      && data.cached == data.prompt + data.output
      && offset <= |data.output| && streamed == data.output[..offset]
    }

    constructor (data: SequenceData)
      requires data.cached == data.prompt + data.output
      ensures Valid() && this.data == data && streamed == []
    {
      this.data := data;
      offset := 0;
      streamed := [];
    }

    /** The deltas returned so far concatenate to the whole output. */
    method OutputToReturn() returns (r: Returned)
      requires Valid()
      modifies this
      ensures Valid() && offset == |data.output| && streamed == old(streamed) + Tokens(r) == data.output
      ensures Tokens(r) == data.output[old(offset)..]
      ensures r.Bare? <==> |data.output| == old(offset) + 1
    {
      var n := |data.output| - offset;
      assert data.output == data.output[..offset] + data.output[offset..];
      offset := |data.output|;
      FromEndIsTail(data.prompt, data.output, n);
      if n == 0 {
        r := Listed([]);
      } else if n == 1 {
        r := Bare(data.cached[|data.cached| - 1]);
      } else {
        r := Listed(FromEnd(data.cached, n));
      }
      assert Tokens(r) == data.output[old(offset)..];
      streamed := streamed + Tokens(r);
      assert data.output[..offset] == data.output;
    }
  }
}
