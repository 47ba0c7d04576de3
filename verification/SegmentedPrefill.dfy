/** One prefill step of a linear-attention layer: the step is cut at kernel boundaries and at the
    offsets the scheduler asks for, the state is chained through the segments, and the state at
    each requested offset is kept. */
module SegmentedPrefill {
  import opened DeltaRule
  import opened RealSums

  /** Where a step is cut: multiples of the sub-sequence size, requested offsets, the end. */
  predicate IsCut(i: int, seqLen: nat, size: nat, offsets: set<int>)
    requires size > 0
  {
    i == seqLen || (0 < i < seqLen && (i % size == 0 || i in offsets))
  }

  function SegmentEnds(upTo: nat, seqLen: nat, size: nat, offsets: set<int>): (ends: seq<nat>)
    requires size > 0
    ensures forall i :: i in ends <==> 0 < i <= upTo && (i == seqLen || (i < seqLen && (i % size == 0 || i in offsets)))
    ensures forall a | 0 <= a < |ends| :: 0 < ends[a] <= upTo
    ensures forall a, b | 0 <= a < b < |ends| :: ends[a] < ends[b]
  {
    if upTo == 0 then [] else
      SegmentEnds(upTo - 1, seqLen, size, offsets) + if IsCut(upTo, seqLen, size, offsets) then [upTo] else []
  }

  /** Exactly the requested offsets up to start have been captured, each with the true state. */
  ghost predicate Captured(exp: real -> real, d: nat, s: seq<real>, ts: seq<Token>, captures: set<int>,
                           start: nat, captured: map<int, seq<real>>)
  {
    && start <= |ts|
    && captured.Keys == (set o | o in captures && 0 < o <= start)
    && forall o | o in captured :: captured[o] == State(exp, d, s, ts[..o])
  }

  lemma CaptureNext(exp: real -> real, d: nat, s: seq<real>, ts: seq<Token>, captures: set<int>,
                    start: nat, end: nat, captured: map<int, seq<real>>)
    requires start < end <= |ts| && Captured(exp, d, s, ts, captures, start, captured)
    requires forall o | o in captures && start < o :: end <= o
    ensures Captured(exp, d, s, ts, captures, end,
                     if end in captures then captured[end := State(exp, d, s, ts[..end])] else captured)
  {
  }

  lemma NoCutBetween(seqLen: nat, size: nat, offsets: set<int>, ends: seq<nat>, i: nat, o: int)
    requires size > 0 && ends == SegmentEnds(seqLen, seqLen, size, offsets) && i < |ends|
    requires o in offsets && o > if i == 0 then 0 else ends[i - 1]
    ensures ends[i] <= o
  {
    assert ends[i] <= seqLen;
    assert 0 < o <= seqLen ==> o in ends;
  }

  /** The loop over segments. Neither outputs nor states depend on where the step is cut. */
  method Prefill(exp: real -> real, d: nat, ts: seq<Token>, chunkSize: nat, size: nat,
                 captures: set<int>, offsets: set<int>, initial: seq<real>)
    returns (coreOut: seq<real>, state: seq<real>, captured: map<int, seq<real>>)
    requires IsExp(exp) && chunkSize > 0 && size > 0 && |initial| == d
    ensures Reached(exp, d, initial, ts, |ts|, coreOut, state)
    ensures Captured(exp, d, initial, ts, captures, |ts|, captured)
  {
    hide State, Outputs;
    var ends := SegmentEnds(|ts|, |ts|, size, captures + offsets);
    coreOut, state, captured := [], initial, map[];
    ReachedNone(exp, d, initial, ts);
    var start := 0;
    for i := 0 to |ends|
      invariant start == if i == 0 then 0 else ends[i - 1]
      invariant |state| == d && Reached(exp, d, initial, ts, start, coreOut, state)
      invariant Captured(exp, d, initial, ts, captures, start, captured)
    {
      var end := ends[i];
      forall o | o in captures && start < o
        ensures end <= o
      {
        NoCutBetween(|ts|, size, captures + offsets, ends, i, o);
      }
      var more, next := ChunkedRule(exp, d, ts[start..end], chunkSize, state);
      ReachNext(exp, d, initial, ts, start, end, coreOut, state, more, next);
      StateWidth(exp, d, state, ts[start..end]);
      CaptureNext(exp, d, initial, ts, captures, start, end, captured);
      coreOut, state := coreOut + more, next;
      if end in captures {
        captured := captured[end := state];
      }
      start := end;
    }
    LastEnd(|ts|, size, captures + offsets, ends);
  }

  lemma LastEnd(seqLen: nat, size: nat, offsets: set<int>, ends: seq<nat>)
    requires size > 0 && ends == SegmentEnds(seqLen, seqLen, size, offsets)
    ensures seqLen == if |ends| == 0 then 0 else ends[|ends| - 1]
  {
    if seqLen > 0 {
      assert seqLen in ends;
    }
  }
}
