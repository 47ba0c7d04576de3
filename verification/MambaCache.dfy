/** The manager of recurrent-state slots: each (request, sequence) pair owns one slot of the state
    tensor, and before every run the running pairs are permuted in place into the first slots. */
module MambaCache {
  import opened Sequences

  datatype Pair = Pair(requestId: string, seqId: int)

  /** One item of the nested request -> sequence -> slot dictionary. The items of one request stand in
      insertion order, which is all the order the manager looks at. */
  datatype Entry = Entry(pair: Pair, slot: nat)

  datatype Outcome = Done | NoFreeSlot | MissingSwapIndices

  function PairsOf(es: seq<Entry>): seq<Pair> {
    seq(|es|, i requires 0 <= i < |es| => es[i].pair)
  }

  function SlotsOf(es: seq<Entry>): seq<nat> {
    seq(|es|, i requires 0 <= i < |es| => es[i].slot)
  }

  /** No pair twice, no slot twice, every slot inside the tensor. */
  ghost predicate WellFormed(es: seq<Entry>, capacity: nat) {
    && (forall i, j | 0 <= i < j < |es| :: es[i].pair != es[j].pair && es[i].slot != es[j].slot)
    && (forall i | 0 <= i < |es| :: es[i].slot < capacity)
  }

  /** The first position whose pair satisfies the test, or the length. */
  function Find(es: seq<Entry>, test: Pair -> bool, from: nat := 0): (i: nat)
    requires from <= |es|
    ensures from <= i <= |es|
    ensures i < |es| ==> test(es[i].pair)
    ensures forall k | from <= k < i :: !test(es[k].pair)
    decreases |es| - from
  {
    if from == |es| || test(es[from].pair) then from else Find(es, test, from + 1)
  }

  function FindPair(es: seq<Entry>, p: Pair): (i: nat)
    ensures i <= |es|
    ensures i < |es| ==> es[i].pair == p
  {
    Find(es, q => q == p)
  }

  /** The request's first sequence. */
  function FindRequest(es: seq<Entry>, requestId: string): nat {
    Find(es, (q: Pair) => q.requestId == requestId)
  }

  /** The state a pair must have after a run: its own, else its request's first sequence's, else zero. */
  ghost function Expected<S>(es: seq<Entry>, states: seq<S>, zero: S, p: Pair): S
    requires WellFormed(es, |states|)
  {
    if FindPair(es, p) < |es| then states[es[FindPair(es, p)].slot]
    else if FindRequest(es, p.requestId) < |es| then states[es[FindRequest(es, p.requestId)].slot]
    else zero
  }

  /** Same pairs in the same order, each with its state. */
  ghost predicate SameStates<S>(es: seq<Entry>, states: seq<S>, es': seq<Entry>, states': seq<S>) {
    && WellFormed(es, |states|) && WellFormed(es', |states'|) && |states'| == |states|
    && PairsOf(es') == PairsOf(es)
    && forall i | 0 <= i < |es| && i < |es'| :: states'[es'[i].slot] == states[es[i].slot]
  }

  // ---------- counting slots ----------

  /** If every slot is taken there are at least as many entries as slots. */
  lemma FullMeansMany(es: seq<Entry>, capacity: nat)
    requires forall i | 0 <= i < capacity :: i in SlotsOf(es)
    ensures capacity <= |es|
  {
    var range: seq<nat>, taken := seq(capacity, i => i), SlotsOf(es);
    assert forall i, j | 0 <= i < j < |range| :: range[i] != range[j];
    DistinctCount(range);
    DistinctCount(taken);
    assert Members(range) <= Members(taken);
    Contained(Members(range), Members(taken));
  }

  lemma {:induction false} Contained<T>(a: set<T>, b: set<T>)
    requires a <= b
    ensures |a| <= |b|
  {
    if a != {} {
      var x :| x in a;
      Contained(a - {x}, b - {x});
    }
  }

  /** The pairs known before the run and the pairs of the batch together fit the tensor. */
  ghost predicate Enough(es: seq<Entry>, batch: seq<Pair>, capacity: nat) {
    |Members(PairsOf(es)) + Members(batch)| <= capacity
  }

  // ---------- moving slots ----------

  function SwapSlots(es: seq<Entry>, a: nat, b: nat): (r: seq<Entry>)
    ensures |r| == |es|
  {
    seq(|es|, i requires 0 <= i < |es| =>
      es[i].(slot := if es[i].slot == a then b else if es[i].slot == b then a else es[i].slot))
  }

  ghost predicate IsFirstFree(es: seq<Entry>, slot: nat) {
    slot !in SlotsOf(es) && forall i | 0 <= i < slot :: i in SlotsOf(es)
  }

  function MoveSlot(es: seq<Entry>, a: nat, b: nat): (r: seq<Entry>)
    ensures |r| == |es|
  {
    seq(|es|, i requires 0 <= i < |es| => if es[i].slot == a then es[i].(slot := b) else es[i])
  }

  /** The lowest slot that no pair holds. */
  function LowestFree(es: seq<Entry>, from: nat := 0): nat
    decreases |es| - from
  {
    if from >= |es| || from !in SlotsOf(es) then from else LowestFree(es, from + 1)
  }

  lemma {:induction false} LowestFreeIs(es: seq<Entry>, slot: nat, from: nat)
    requires IsFirstFree(es, slot) && from <= slot
    ensures LowestFree(es, from) == slot
    decreases slot - from
  {
    hide SlotsOf;
    FullMeansMany(es, slot);
    if from < slot {
      LowestFreeIs(es, slot, from + 1);
    }
  }

  // ---------- where the pairs go ----------

  /** Where everyone sits once p has been brought into slot dest: a known pair changes places with the occupant, for
      a new one the occupant moves to the lowest free slot. */
  function Placed(es: seq<Entry>, p: Pair, dest: nat): seq<Entry> {
    var at := FindPair(es, p);
    if at < |es| then if es[at].slot == dest then es else SwapSlots(es, es[at].slot, dest)
    else MadeRoom(es, dest) + [Entry(p, dest)]
  }

  /** The occupant of a slot, if any, moves to the lowest free slot. */
  function MadeRoom(es: seq<Entry>, slot: nat): seq<Entry> {
    if slot in SlotsOf(es) then MoveSlot(es, slot, LowestFree(es)) else es
  }

  /** And once the first n pairs of the batch have been, finished ones aside. */
  function PlacedAll(es: seq<Entry>, batch: seq<Pair>, finished: set<string>, n: nat): seq<Entry>
    requires n <= |batch|
  {
    if n == 0 then es else
      var before := PlacedAll(es, batch, finished, n - 1);
      if batch[n - 1].requestId in finished then before else Placed(before, batch[n - 1], n - 1)
  }

  /** The slot of a finished pair of the batch is held by someone once the others have been placed. */
  predicate LeavesOccupied(es: seq<Entry>, batch: seq<Pair>, finished: set<string>) {
    exists i | 0 <= i < |batch| ::
      batch[i].requestId in finished && i in SlotsOf(PlacedAll(es, batch, finished, |batch|))
  }

  lemma MoveToFree(es: seq<Entry>, a: nat, b: nat)
    requires b !in SlotsOf(es)
    ensures MoveSlot(es, a, b) == SwapSlots(es, a, b)
  {
    forall i | 0 <= i < |es|
      ensures MoveSlot(es, a, b)[i] == SwapSlots(es, a, b)[i]
    {
      assert es[i].slot == SlotsOf(es)[i];
    }
  }

  /** Renaming two slots and exchanging what the taken ones hold moves no state between pairs. */
  lemma SwapKeepsStates<S>(es: seq<Entry>, states: seq<S>, states': seq<S>, a: nat, b: nat)
    requires WellFormed(es, |states|) && a < |states| && b < |states| == |states'|
    requires states'[b] == states[a]
    requires b in SlotsOf(es) ==> states'[a] == states[b]
    requires forall i | 0 <= i < |states| && i != a && i != b :: states'[i] == states[i]
    ensures SameStates(es, states, SwapSlots(es, a, b), states')
    ensures forall i | 0 <= i < |es| && es[i].slot != a && es[i].slot != b :: SwapSlots(es, a, b)[i].slot == es[i].slot
  {
    var r := SwapSlots(es, a, b);
    forall i, j | 0 <= i < j < |r|
      ensures r[i].pair != r[j].pair && r[i].slot != r[j].slot
    {
      assert es[i].pair != es[j].pair;
    }
    forall i | 0 <= i < |es|
      ensures states'[r[i].slot] == states[es[i].slot]
    {
      assert es[i].slot == SlotsOf(es)[i];
    }
    assert PairsOf(r) == PairsOf(es);
  }

  // ---------- one run ----------

  /** Pairs of es0 first and in order, then pairs of the batch; every state is the expected one. */
  ghost predicate Refines<S>(es0: seq<Entry>, states0: seq<S>, zero: S, es: seq<Entry>, states: seq<S>,
      batch: seq<Pair>)
    requires WellFormed(es0, |states0|)
  {
    && WellFormed(es, |states|) && |es0| <= |es|
    && (forall k | 0 <= k < |es0| :: es[k].pair == es0[k].pair)
    && (forall k | |es0| <= k < |es| :: es[k].pair in batch)
    && (forall k | 0 <= k < |es| :: states[es[k].slot] == Expected(es0, states0, zero, es[k].pair))
  }

  lemma FindPairAt(es: seq<Entry>, capacity: nat, k: nat)
    requires WellFormed(es, capacity) && k < |es|
    ensures FindPair(es, es[k].pair) == k
  {
  }

  lemma {:induction false} FindAgrees(es: seq<Entry>, es': seq<Entry>, test: Pair -> bool, from: nat)
    requires from <= |es| <= |es'|
    requires forall k | 0 <= k < |es| :: es'[k].pair == es[k].pair
    ensures Find(es, test, from) < |es| ==> Find(es', test, from) == Find(es, test, from)
    ensures Find(es, test, from) == |es| ==> Find(es', test, from) >= |es|
    decreases |es| - from
  {
    if from < |es| {
      FindAgrees(es, es', test, from + 1);
    }
  }

  lemma RunStarts<S>(es: seq<Entry>, states: seq<S>, zero: S)
    requires WellFormed(es, |states|)
    ensures Refines(es, states, zero, es, states, [])
  {
    forall k | 0 <= k < |es|
      ensures states[es[k].slot] == Expected(es, states, zero, es[k].pair)
    {
      FindPairAt(es, |states|, k);
    }
  }

  /** A pair that is new gets the same state whether judged from the start of the run or from now. */
  lemma ExpectedStable<S>(es0: seq<Entry>, states0: seq<S>, zero: S, es: seq<Entry>, states: seq<S>,
      batch: seq<Pair>, p: Pair)
    requires WellFormed(es0, |states0|) && Refines(es0, states0, zero, es, states, batch)
    requires FindPair(es, p) == |es|
    ensures FindPair(es0, p) == |es0|
    ensures Expected(es, states, zero, p) == Expected(es0, states0, zero, p)
  {
    FindAgrees(es0, es, q => q == p, 0);
    var same := (q: Pair) => q.requestId == p.requestId;
    FindAgrees(es0, es, same, 0);
    var k := Find(es, same);
    if k < |es| {
      var q := es[k].pair;
      if k < |es0| {
        FindPairAt(es0, |states0|, k);
      } else {
        var own := (x: Pair) => x.requestId == q.requestId;
        FindAgrees(es0, es, own, 0);
        assert forall x :: own(x) == same(x);
        SameTest(es0, own, same, 0);
        assert Find(es0, x => x == q) == |es0|;
      }
    }
  }

  lemma {:induction false} SameTest(es: seq<Entry>, f: Pair -> bool, g: Pair -> bool, from: nat)
    requires from <= |es| && forall x :: f(x) == g(x)
    ensures Find(es, f, from) == Find(es, g, from)
    decreases |es| - from
  {
    if from < |es| {
      SameTest(es, f, g, from + 1);
    }
  }

  /** What assigning p to slot dest leaves behind. */
  ghost predicate Assigned<S>(es: seq<Entry>, states: seq<S>, zero: S, es': seq<Entry>, states': seq<S>, p: Pair,
      dest: nat)
    requires WellFormed(es, |states|)
  {
    var n := if FindPair(es, p) < |es| then |es| else |es| + 1;
    && WellFormed(es', |states'|) && |es'| == n && |states'| == |states|
    && Entry(p, dest) in es'
    && (forall k | 0 <= k < |es| :: es'[k].pair == es[k].pair)
    && (forall k | 0 <= k < |es| :: states'[es'[k].slot] == states[es[k].slot])
    && (forall k | 0 <= k < |es| && es[k].slot != dest && es[k].pair != p :: es'[k].slot == es[k].slot)
    && (n == |es| + 1 ==> es'[|es|] == Entry(p, dest) && states'[dest] == Expected(es, states, zero, p))
  }

  lemma AssignedRefines<S>(es0: seq<Entry>, states0: seq<S>, zero: S, es: seq<Entry>, states: seq<S>,
                           es': seq<Entry>, states': seq<S>, batch: seq<Pair>, i: nat)
    requires i < |batch| && WellFormed(es0, |states0|) && Refines(es0, states0, zero, es, states, batch[..i])
    requires Assigned(es, states, zero, es', states', batch[i], i)
    ensures Refines(es0, states0, zero, es', states', batch[..i + 1])
  {
    hide Expected, FindPair, FindRequest, Find;
    if FindPair(es, batch[i]) == |es| {
      ExpectedStable(es0, states0, zero, es, states, batch[..i], batch[i]);
    }
    assert batch[..i + 1] == batch[..i] + [batch[i]];
  }

  // ---------- who stays where during a run ----------

  predicate RunsIn(batch: seq<Pair>, finished: set<string>, p: Pair) {
    p in batch && p.requestId !in finished
  }

  /** Slot i belongs to a pair of the batch that runs. */
  predicate RunningSlot(batch: seq<Pair>, finished: set<string>, i: nat) {
    i < |batch| && batch[i].requestId !in finished
  }

  /** Slot i belongs to a pair of the batch that has finished, so nothing is placed there. */
  predicate FinishedSlot(batch: seq<Pair>, finished: set<string>, i: nat) {
    i < |batch| && batch[i].requestId in finished
  }

  /** A pair that does not run sits in slot i. */
  ghost predicate IdleAt(es: seq<Entry>, batch: seq<Pair>, finished: set<string>, i: nat) {
    exists k :: 0 <= k < |es| && es[k].slot == i && !RunsIn(batch, finished, es[k].pair)
  }

  /** A pair that does not run sits in the slot of a finished pair of the batch. */
  ghost predicate IdleAtFinished(es: seq<Entry>, batch: seq<Pair>, finished: set<string>) {
    exists i :: FinishedSlot(batch, finished, i) && IdleAt(es, batch, finished, i)
  }

  /** A pair that does not run sits in the slot of a running one. */
  ghost predicate IdleAtRunning(es: seq<Entry>, batch: seq<Pair>, finished: set<string>) {
    exists i :: RunningSlot(batch, finished, i) && IdleAt(es, batch, finished, i)
  }

  /** Pairs that do not run keep a slot no running pair wants; every new entry runs. */
  ghost predicate IdleStay(es0: seq<Entry>, es: seq<Entry>, batch: seq<Pair>, finished: set<string>) {
    && |es0| <= |es| && (forall k | 0 <= k < |es0| :: es[k].pair == es0[k].pair)
    && (forall k | 0 <= k < |es0| && !RunsIn(batch, finished, es0[k].pair) ::
          RunningSlot(batch, finished, es0[k].slot) || es[k].slot == es0[k].slot)
    && (forall k | |es0| <= k < |es| :: RunsIn(batch, finished, es[k].pair))
  }

  lemma IdleAtStart(es: seq<Entry>, batch: seq<Pair>, finished: set<string>)
    ensures IdleStay(es, es, batch, finished)
  {
  }

  lemma IdleStayMore<S>(es0: seq<Entry>, es: seq<Entry>, states: seq<S>, zero: S, es': seq<Entry>, states': seq<S>,
                        batch: seq<Pair>, finished: set<string>, i: nat)
    requires WellFormed(es, |states|) && IdleStay(es0, es, batch, finished) && RunningSlot(batch, finished, i)
    requires Assigned(es, states, zero, es', states', batch[i], i)
    ensures IdleStay(es0, es', batch, finished)
  {
    hide Expected, FindPair;
  }

  /** A running pair sits in its own slot, so no slot of a finished pair holds one. */
  lemma PlacedElsewhere(es: seq<Entry>, capacity: nat, batch: seq<Pair>, finished: set<string>, i: nat, k: nat)
    requires WellFormed(es, capacity) && AllPlaced(es, batch, finished, |batch|) && FinishedSlot(batch, finished, i)
    requires k < |es| && es[k].slot == i
    ensures !RunsIn(batch, finished, es[k].pair)
  {
  }

  /** A pair that does not run and sits where a finished pair of the batch stands is still there after the run;
      and when no such pair sits where a running one stands, nothing else is found there. */
  lemma IdleDecides(es0: seq<Entry>, es: seq<Entry>, capacity: nat, batch: seq<Pair>, finished: set<string>, i: nat)
    requires WellFormed(es, capacity) && IdleStay(es0, es, batch, finished) && AllPlaced(es, batch, finished, |batch|)
    requires FinishedSlot(batch, finished, i)
    ensures IdleAt(es0, batch, finished, i) ==> i in SlotsOf(es)
    ensures !IdleAtRunning(es0, batch, finished) && i in SlotsOf(es) ==> IdleAt(es0, batch, finished, i)
  {
    if IdleAt(es0, batch, finished, i) {
      var k :| 0 <= k < |es0| && es0[k].slot == i && !RunsIn(batch, finished, es0[k].pair);
      assert SlotsOf(es)[k] == i;
    }
    if i in SlotsOf(es) && !IdleAtRunning(es0, batch, finished) {
      var k :| 0 <= k < |es| && SlotsOf(es)[k] == i;
      PlacedElsewhere(es, capacity, batch, finished, i, k);
      assert es0[k].slot == i || RunningSlot(batch, finished, es0[k].slot);
      if RunningSlot(batch, finished, es0[k].slot) {
        assert IdleAt(es0, batch, finished, es0[k].slot);
      }
    }
  }

  class MambaCacheManager<S(==)> {
    const zero: S
    var states: array<S>
    var entries: seq<Entry>

    ghost predicate Valid()
      reads this, states
    {
      WellFormed(entries, states.Length)
    }

    constructor (states: array<S>, zero: S)
      ensures Valid() && entries == [] && this.states == states && this.zero == zero
    {
      this.states, this.zero := states, zero;
      entries := [];
    }

    method FirstFree() returns (slot: nat, found: bool)
      ensures found ==> slot < states.Length && IsFirstFree(entries, slot)
      ensures !found ==> states.Length <= |entries|
    {
      slot, found := 0, false;
      while slot < states.Length
        invariant 0 <= slot <= states.Length
        invariant forall i | 0 <= i < slot :: i in SlotsOf(entries)
      {
        if slot !in SlotsOf(entries) {
          found := true;
          return;
        }
        slot := slot + 1;
      }
      FullMeansMany(entries, states.Length);
    }

    /** Moves the occupant of a slot, if any, to the first free slot. */
    method MoveOutIfOccupied(index: nat) returns (ok: bool)
      requires Valid() && index < states.Length
      modifies this, states
      ensures Valid() && states == old(states)
      ensures ok ==> SameStates(old(entries), old(states[..]), entries, states[..])
      ensures ok ==> index !in SlotsOf(entries)
      ensures ok ==> if index in SlotsOf(old(entries))
                     then IsFirstFree(old(entries), LowestFree(old(entries)))
                     else entries == old(entries) && states[..] == old(states[..])
      ensures ok ==> entries == MadeRoom(old(entries), index)
      ensures ok ==> forall i | 0 <= i < |entries| ::
                       entries[i].slot == old(entries)[i].slot || old(entries)[i].slot == index
      ensures !ok ==> states.Length <= |entries| && entries == old(entries) && states[..] == old(states[..])
    {
      ok := true;
      if index in SlotsOf(entries) {
        var free, found := FirstFree();
        if !found {
          return false;
        }
        LowestFreeIs(entries, free, 0);
        MoveToFree(entries, index, free);
        states[free] := states[index];
        SwapKeepsStates(entries, old(states[..]), states[..], index, free);
        entries := MoveSlot(entries, index, free);
      }
    }

    method SwapPair(from: nat, to: nat)
      requires Valid() && from < states.Length && to < states.Length && from != to
      modifies this, states
      ensures Valid() && states == old(states)
      ensures SameStates(old(entries), old(states[..]), entries, states[..])
      ensures entries == SwapSlots(old(entries), from, to)
    {
      states[from], states[to] := states[to], states[from];
      SwapKeepsStates(entries, old(states[..]), states[..], from, to);
      entries := SwapSlots(entries, from, to);
    }

    /** Puts p into slot dest: a new request starts at zero, a new sibling as a copy of its request's
        first sequence, a known pair brings its state along. */
    method Assign(p: Pair, dest: nat) returns (ok: bool)
      requires Valid() && dest < states.Length
      modifies this, states
      ensures Valid() && states == old(states)
      ensures ok ==> Assigned(old(entries), old(states[..]), zero, entries, states[..], p, dest)
      ensures ok ==> entries == Placed(old(entries), p, dest)
      ensures !ok ==> FindPair(old(entries), p) == |old(entries)| && states.Length <= |old(entries)|
    {
      ghost var es0, states0 := entries, states[..];
      ok := true;
      var at := FindPair(entries, p);
      if at < |entries| {
        var from := entries[at].slot;
        if from != dest {
          SwapPair(from, dest);
        }
        assert entries[at] == Entry(p, dest);
      } else {
        ok := AssignNew(p, dest);
      }
    }

    method AssignNew(p: Pair, dest: nat) returns (ok: bool)
      requires Valid() && dest < states.Length && FindPair(entries, p) == |entries|
      modifies this, states
      ensures Valid() && states == old(states)
      ensures ok ==> Assigned(old(entries), old(states[..]), zero, entries, states[..], p, dest)
      ensures ok ==> entries == MadeRoom(old(entries), dest) + [Entry(p, dest)]
      ensures !ok ==> states.Length <= |old(entries)|
    {
      hide FindPair, FindRequest, Find, LowestFree, IsFirstFree, MadeRoom, Assigned, SameStates, Expected;
      ghost var es0, states0 := entries, states[..];
      ok := MoveOutIfOccupied(dest);
      if !ok {
        return;
      }
      ghost var es1, states1 := entries, states[..];
      NewFits(es0, states0, es1, states1, p, dest);
      var first := FindRequest(entries, p.requestId);
      if first == |entries| {
        states[dest] := zero;
      } else {
        states[dest] := states[entries[first].slot];
      }
      entries := entries + [Entry(p, dest)];
      NewAssigned(es0, states0, zero, es1, states1, p, dest, states[dest]);
      assert states[..] == states1[dest := states[dest]];
    }

    method Release(finished: set<string>)
      requires Valid()
      modifies this
      ensures Valid() && states == old(states)
      ensures entries == Kept(old(entries), finished)
    {
      KeptWellFormed(entries, finished, states.Length);
      entries := Kept(entries, finished);
    }

    /** Brings pair i of the batch into slot i. Pairs of finished requests are skipped; if one of their
        slots is still occupied afterwards, the clean-up calls a method the class does not have. */
    method PrepareCurrentRun(batch: seq<Pair>, finished: set<string>) returns (outcome: Outcome)
      requires Valid() && Distinct(batch) && |batch| <= states.Length
      modifies this, states
      ensures Valid() && states == old(states)
      ensures outcome != NoFreeSlot ==>
        Refines(old(entries), old(states[..]), zero, entries, states[..], batch)
            && AllPlaced(entries, batch, finished, |batch|)
      ensures outcome != NoFreeSlot ==>
        && entries == PlacedAll(old(entries), batch, finished, |batch|)
        && (outcome == MissingSwapIndices <==> LeavesOccupied(old(entries), batch, finished))
      ensures outcome != NoFreeSlot ==>
        (outcome == MissingSwapIndices <==>
          exists i :: 0 <= i < |batch| && batch[i].requestId in finished && i in SlotsOf(entries))
      ensures outcome != NoFreeSlot && IdleAtFinished(old(entries), batch, finished) ==> outcome == MissingSwapIndices
      ensures outcome != NoFreeSlot && !IdleAtRunning(old(entries), batch, finished) ==>
        (outcome == MissingSwapIndices <==> IdleAtFinished(old(entries), batch, finished))
      ensures Enough(old(entries), batch, states.Length) ==> outcome != NoFreeSlot
      ensures Enough(old(entries), batch, states.Length) && (forall p | p in batch :: p.requestId !in finished) ==>
        outcome == Done && forall i | 0 <= i < |batch| :: Entry(batch[i], i) in entries
      ensures (forall k | 0 <= k < |batch| :: batch[k].requestId in finished) ==>
        outcome != NoFreeSlot && entries == old(entries)
    {
      hide Expected, FindPair, FindRequest, Find, Enough, Assigned, Refines, WellFormed, IdleStay, IdleAt, Placed;
      IdleAtStart(entries, batch, finished);
      ghost var es0, states0 := entries, states[..];
      RunStarts(es0, states0, zero);
      var running: seq<nat> := [];
      var i := 0;
      while i < |batch|
        invariant forall k | 0 <= k < |batch| :: k in running <==> k < i && batch[k].requestId !in finished
        invariant 0 <= i <= |batch| && Valid() && states == old(states)
        invariant Refines(es0, states0, zero, entries, states[..], batch[..i])
        invariant AllPlaced(entries, batch, finished, i) && IdleStay(es0, entries, batch, finished)
        invariant entries == PlacedAll(es0, batch, finished, i)
        invariant (forall k | 0 <= k < i :: batch[k].requestId in finished) ==> entries == es0
      {
        if batch[i].requestId in finished {
          RefinesMore(es0, states0, zero, entries, states[..], batch, i);
        } else {
          ghost var es1, states1 := entries, states[..];
          var ok := Assign(batch[i], i);
          if !ok {
            EnoughFits(es0, states0, zero, es1, states1, batch, i);
            return NoFreeSlot;
          }
          AssignedRefines(es0, states0, zero, es1, states1, entries, states[..], batch, i);
          PlacedStay(es1, states1, zero, entries, states[..], batch, finished, i);
          IdleStayMore(es0, es1, states1, zero, entries, states[..], batch, finished, i);
          running := running + [i];
        }
        i := i + 1;
      }
      assert batch[..|batch|] == batch;
      outcome := CleanUpFirstBlocks(|batch|, running);
      forall k | FinishedSlot(batch, finished, k)
        ensures IdleAt(es0, batch, finished, k) ==> k in SlotsOf(entries)
        ensures !IdleAtRunning(es0, batch, finished) && k in SlotsOf(entries) ==> IdleAt(es0, batch, finished, k)
      {
        IdleDecides(es0, entries, states.Length, batch, finished, k);
      }
    }

    method CleanUpFirstBlocks(batchSize: nat, running: seq<nat>) returns (outcome: Outcome)
      ensures outcome != NoFreeSlot
      ensures outcome == MissingSwapIndices <==> exists i | 0 <= i < batchSize :: i !in running && i in SlotsOf(entries)
    {
      for i := 0 to batchSize
        invariant forall k | 0 <= k < i :: k in running || k !in SlotsOf(entries)
      {
        if i in SlotsOf(entries) && i !in running {
          return MissingSwapIndices;
        }
      }
      outcome := Done;
    }

    /** One model run: finished requests give up their slots first. */
    method CurrentRun(batch: seq<Pair>, finished: set<string>) returns (outcome: Outcome)
      requires Valid() && Distinct(batch) && |batch| <= states.Length
      modifies this, states
      ensures Valid() && states == old(states)
      ensures WellFormed(Kept(old(entries), finished), states.Length)
      ensures outcome != NoFreeSlot ==>
        Refines(Kept(old(entries), finished), old(states[..]), zero, entries, states[..], batch)
        && AllPlaced(entries, batch, finished, |batch|)
        && entries == PlacedAll(Kept(old(entries), finished), batch, finished, |batch|)
        && (outcome == MissingSwapIndices <==> LeavesOccupied(Kept(old(entries), finished), batch, finished))
      ensures Enough(Kept(old(entries), finished), batch, states.Length) ==> outcome != NoFreeSlot
      ensures Enough(Kept(old(entries), finished), batch, states.Length)
              && (forall p | p in batch :: p.requestId !in finished) ==>
        outcome == Done
    {
      Release(finished);
      outcome := PrepareCurrentRun(batch, finished);
    }
  }

  /** What a run leaves in the slots, spelled out: survivors keep their state, the pair of batch position
      i sits in slot i, a new request starts at zero, a new sibling as a copy of the first sequence. */
  lemma RunMeaning<S>(es0: seq<Entry>, states0: seq<S>, zero: S, es: seq<Entry>, states: seq<S>, batch: seq<Pair>,
      i: nat)
    requires WellFormed(es0, |states0|) && Refines(es0, states0, zero, es, states, batch)
    requires AllPlaced(es, batch, {}, |batch|) && i < |batch|
    ensures forall k | 0 <= k < |es0| :: es[k].pair == es0[k].pair && states[es[k].slot] == states0[es0[k].slot]
    ensures i < |states| && (Entry(batch[i], i) in es)
    ensures (forall k | 0 <= k < |es0| :: es0[k].pair.requestId != batch[i].requestId) ==> states[i] == zero
    ensures forall f | 0 <= f < |es0| && es0[f].pair.requestId == batch[i].requestId
                       && (forall k | 0 <= k < f :: es0[k].pair.requestId != batch[i].requestId)
                       && (forall k | 0 <= k < |es0| :: es0[k].pair != batch[i]) ::
              states[i] == states0[es0[f].slot]
  {
    forall k | 0 <= k < |es0|
      ensures states[es[k].slot] == states0[es0[k].slot]
    {
      FindPairAt(es0, |states0|, k);
    }
    var k :| 0 <= k < |es| && es[k] == Entry(batch[i], i);
    assert states[i] == Expected(es0, states0, zero, batch[i]);
  }

  /** A request that is in the batch and finished at once does reach the missing method, when a pair that does not
      run holds its slot. */
  method FinishedInBatch() returns (outcome: Outcome)
    ensures outcome == MissingSwapIndices
  {
    var states := new int[2](_ => 0);
    var manager := new MambaCacheManager(states, 0);
    var a, b := Pair("a", 0), Pair("b", 0);
    hide Refines, Expected, Enough, WellFormed;
    outcome := manager.PrepareCurrentRun([a], {});
    OnePairFits(a);
    assert a in [a];
    ghost var es := manager.entries;
    assert Entry([a][0], 0) in es;
    ghost var k :| 0 <= k < |es| && es[k] == Entry(a, 0);
    assert SlotsOf(es)[k] == 0;
    assert forall j | 0 <= j < |[b]| :: [b][j].requestId in {"b"};
    outcome := manager.PrepareCurrentRun([b], {"b"});
    assert manager.entries == es && [b][0].requestId in {"b"} && 0 in SlotsOf(es);
  }

  const A := Pair("a", 0)
  const B := Pair("b", 0)
  const C := Pair("c", 0)
  const X := Pair("x", 0)

  /** And also when such a pair is only moved there: here c makes room for b and lands in the slot of a. */
  method MovedIntoFinished() returns (outcome: Outcome, ghost before: seq<Entry>)
    ensures outcome == MissingSwapIndices && !IdleAtFinished(before, [A, B], {"x", "a"})
  {
    hide Refines, Expected, Enough, WellFormed, PlacedAll, LeavesOccupied, AllPlaced, Kept, IdleAtFinished;
    var states := new int[3](_ => 0);
    var manager := new MambaCacheManager(states, 0);
    TwoPairsFit();
    OnlyCKept();
    assert [X, C][0] != [X, C][1] && [A, B][0] != [A, B][1];
    outcome := manager.CurrentRun([X, C], {});
    TwoPlaced();
    RoomMoves();
    before := Kept(manager.entries, {"x", "a"});
    outcome := manager.CurrentRun([A, B], {"x", "a"});
  }

  lemma TwoPairsFit()
    ensures Enough([], [X, C], 3) && Enough([Entry(C, 1)], [A, B], 3)
  {
    assert PairsOf([Entry(C, 1)]) == [C];
    assert Members(PairsOf([])) + Members([X, C]) == {X, C};
    assert Members([C]) + Members([A, B]) == {A, B, C};
  }

  lemma OnlyCKept()
    ensures Kept([], {}) == [] && Kept([Entry(X, 0), Entry(C, 1)], {"x", "a"}) == [Entry(C, 1)]
  {
    var es := [Entry(X, 0), Entry(C, 1)];
    assert es[..1] == [Entry(X, 0)] && es[..1][..0] == [];
    assert Kept(es[..1], {"x", "a"}) == [];
  }

  lemma TwoPlaced()
    ensures PlacedAll([], [X, C], {}, 2) == [Entry(X, 0), Entry(C, 1)]
  {
    assert FindPair([], X) == 0 && FindPair([Entry(X, 0)], C) == 1;
    assert Placed([], X, 0) == [Entry(X, 0)] && SlotsOf([Entry(X, 0)]) == [0];
    assert PlacedAll([], [X, C], {}, 1) == [Entry(X, 0)];
  }

  lemma RoomMoves()
    ensures LeavesOccupied([Entry(C, 1)], [A, B], {"x", "a"})
    ensures !IdleAtFinished([Entry(C, 1)], [A, B], {"x", "a"})
  {
    var es, fin := [Entry(C, 1)], {"x", "a"};
    assert FindPair(es, B) == 1 && SlotsOf(es) == [1] && LowestFree(es) == 0;
    assert Placed(es, B, 1) == [Entry(C, 0), Entry(B, 1)];
    assert PlacedAll(es, [A, B], fin, 1) == es && PlacedAll(es, [A, B], fin, 2) == Placed(es, B, 1);
    assert SlotsOf(Placed(es, B, 1))[0] == 0 && [A, B][0].requestId in fin;
  }

  lemma OnePairFits(a: Pair)
    ensures Enough([], [a], 2)
  {
    assert Members(PairsOf([])) + Members([a]) == {a};
  }

  function Kept(es: seq<Entry>, finished: set<string>): seq<Entry> {
    if es == [] then [] else
      Kept(es[..|es| - 1], finished) +
      if es[|es| - 1].pair.requestId in finished then [] else [es[|es| - 1]]
  }

  lemma {:induction false} KeptMembers(es: seq<Entry>, finished: set<string>)
    ensures forall e :: e in Kept(es, finished) <==> e in es && e.pair.requestId !in finished
  {
    if es != [] {
      var init, last := es[..|es| - 1], es[|es| - 1];
      KeptMembers(init, finished);
      assert es == init + [last];
      assert forall e :: e in es <==> e in init || e == last;
    }
  }

  /** Releasing drops exactly the finished requests. */
  lemma {:induction false} KeptWellFormed(es: seq<Entry>, finished: set<string>, capacity: nat)
    requires WellFormed(es, capacity)
    ensures WellFormed(Kept(es, finished), capacity)
  {
    if es != [] {
      var init, last := es[..|es| - 1], es[|es| - 1];
      KeptWellFormed(init, finished, capacity);
      KeptMembers(init, finished);
      var kept := Kept(init, finished);
      forall k | 0 <= k < |kept|
        ensures kept[k].pair != last.pair && kept[k].slot != last.slot
      {
        assert kept[k] in kept;
        var i :| 0 <= i < |init| && init[i] == kept[k];
        assert es[i].pair != es[|es| - 1].pair;
      }
      OneMore(kept, last, capacity);
    }
  }

  lemma OneMore(es: seq<Entry>, e: Entry, capacity: nat)
    requires WellFormed(es, capacity) && e.slot < capacity
    requires forall k | 0 <= k < |es| :: es[k].pair != e.pair && es[k].slot != e.slot
    ensures WellFormed(es + [e], capacity)
  {
  }

  /** Pair j of the batch sits in slot j, for every running pair among the first n. */
  ghost predicate AllPlaced(es: seq<Entry>, batch: seq<Pair>, finished: set<string>, n: nat)
    requires n <= |batch|
  {
    forall j | 0 <= j < n :: batch[j].requestId in finished || Entry(batch[j], j) in es
  }

  lemma PlacedStay<S>(es: seq<Entry>, states: seq<S>, zero: S, es': seq<Entry>, states': seq<S>,
                      batch: seq<Pair>, finished: set<string>, i: nat)
    requires i < |batch| && Distinct(batch) && AllPlaced(es, batch, finished, i)
    requires WellFormed(es, |states|) && Assigned(es, states, zero, es', states', batch[i], i)
    ensures AllPlaced(es', batch, finished, i + 1)
  {
    hide Expected, FindPair;
    forall j | 0 <= j < i && batch[j].requestId !in finished
      ensures Entry(batch[j], j) in es'
    {
      var k :| 0 <= k < |es| && es[k] == Entry(batch[j], j);
      assert es'[k] == Entry(batch[j], j);
    }
  }

  lemma RefinesMore<S>(es0: seq<Entry>, states0: seq<S>, zero: S, es: seq<Entry>, states: seq<S>, batch: seq<Pair>,
      i: nat)
    requires i < |batch| && WellFormed(es0, |states0|) && Refines(es0, states0, zero, es, states, batch[..i])
    ensures Refines(es0, states0, zero, es, states, batch[..i + 1])
  {
    hide Expected;
    assert batch[..i + 1] == batch[..i] + [batch[i]];
  }

  /** While a pair of the batch is still missing, fewer slots are taken than the run needs in all. */
  lemma EnoughFits<S>(es0: seq<Entry>, states0: seq<S>, zero: S, es: seq<Entry>, states: seq<S>, batch: seq<Pair>,
      i: nat)
    requires i < |batch| && WellFormed(es0, |states0|) && Refines(es0, states0, zero, es, states, batch[..i])
    requires FindPair(es, batch[i]) == |es| && |states| <= |es|
    ensures !Enough(es0, batch, |states|)
  {
    hide Expected;
    var needed, have := Members(PairsOf(es0)) + Members(batch), Members(PairsOf(es));
    assert forall k | 0 <= k < |es| :: PairsOf(es)[k] == es[k].pair;
    DistinctCount(PairsOf(es));
    forall p | p in have
      ensures p in needed - {batch[i]}
    {
      var k :| 0 <= k < |es| && es[k].pair == p;
      FindPairAt(es, |states|, k);
      if k < |es0| {
        assert PairsOf(es0)[k] == p;
      }
    }
    Contained(have, needed - {batch[i]});
  }

  lemma PairsDecide(es: seq<Entry>, es': seq<Entry>, p: Pair)
    requires PairsOf(es') == PairsOf(es)
    ensures FindPair(es', p) == FindPair(es, p)
    ensures FindRequest(es', p.requestId) == FindRequest(es, p.requestId) <= |es| == |es'|
    ensures forall k | 0 <= k < |es| :: es'[k].pair == es[k].pair
  {
    forall k | 0 <= k < |es|
      ensures es'[k].pair == es[k].pair
    {
      assert PairsOf(es')[k] == PairsOf(es)[k];
    }
    FindAgrees(es, es', q => q == p, 0);
    FindAgrees(es, es', (q: Pair) => q.requestId == p.requestId, 0);
  }

  lemma NewFits<S>(es0: seq<Entry>, states0: seq<S>, es: seq<Entry>, states: seq<S>, p: Pair, dest: nat)
    requires SameStates(es0, states0, es, states) && FindPair(es0, p) == |es0|
    requires dest < |states| && dest !in SlotsOf(es)
    ensures FindPair(es, p) == |es| && WellFormed(es + [Entry(p, dest)], |states|)
    ensures FindRequest(es, p.requestId) == FindRequest(es0, p.requestId) <= |es| && WellFormed(es, |states|)
  {
    PairsDecide(es0, es, p);
    AppendWellFormed(es, |states|, p, dest);
  }

  /** A new pair in an empty slot, with the state it must have. */
  lemma NewAssigned<S>(es0: seq<Entry>, states0: seq<S>, zero: S, es: seq<Entry>, states: seq<S>, p: Pair, dest: nat,
      state: S)
    requires SameStates(es0, states0, es, states) && FindPair(es0, p) == |es0|
    requires dest < |states| && dest !in SlotsOf(es)
    requires forall i | 0 <= i < |es| && i < |es0| :: es[i].slot == es0[i].slot || es0[i].slot == dest
    requires var first := FindRequest(es, p.requestId);
             first <= |es| && state == if first == |es| then zero else states[es[first].slot]
    ensures Assigned(es0, states0, zero, es + [Entry(p, dest)], states[dest := state], p, dest)
  {
    hide FindPair, FindRequest, Find;
    PairsDecide(es0, es, p);
    AppendWellFormed(es, |states|, p, dest);
    assert (es + [Entry(p, dest)])[|es|] == Entry(p, dest);
  }

  lemma AppendWellFormed(es: seq<Entry>, capacity: nat, p: Pair, dest: nat)
    requires WellFormed(es, capacity) && dest < capacity && dest !in SlotsOf(es) && FindPair(es, p) == |es|
    ensures WellFormed(es + [Entry(p, dest)], capacity)
    ensures forall k | 0 <= k < |es| :: es[k].slot != dest
  {
    forall k | 0 <= k < |es|
      ensures es[k].slot != dest && es[k].pair != p
    {
      assert SlotsOf(es)[k] == es[k].slot;
    }
  }
}
