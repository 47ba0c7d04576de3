/** The decisions of one scheduling step, one by one: what each group of a queue found when its turn came and what
    became of it. */
module BatchDecisions {
  import opened GdnPrefix
  import opened GdnScheduling
  import opened IntFacts
  import opened SchedulerQueues
  import opened SchedulingBudgets
  import opened Sequences

  /** lora is 0 for the base model. */
  datatype Group = Group(prefill: bool, length: nat, computed: nat, lora: int)

  predicate GroupOk(g: Group) {
    g.prefill ==> g.computed < g.length
  }

  function NewTokens(g: Group): (n: nat)
    requires GroupOk(g)
    ensures n > 0
  {
    if g.prefill then g.length - g.computed else 1
  }

  datatype Scheduled = Scheduled(id: Id, chunk: int)

  function Ids(s: seq<Scheduled>): (ids: seq<Id>)
    ensures |ids| == |s|
  {
    seq(|s|, i requires 0 <= i < |s| => s[i].id)
  }

  datatype Allocation = Now | Later | Never

  /** What the block manager and the clock answer in one step: for a waiting group, for a swapped one, whether a running
      group can grow after so many groups have made room for it, and whether the delay has passed at the turn. */
  datatype Answers = Answers(canAllocate: Id -> Allocation, canSwapIn: Id -> Allocation, canAppend: (Id, nat) -> bool,
                             delayPassed: nat -> bool)

  /** What limits a step. */
  datatype Limits = Limits(config: Config, maxSeqs: nat, promptLimit: nat, loraEnabled: bool, maxLoras: nat)

  /** What a step has used up when a group's turn comes. */
  datatype Spent = Spent(physical: int, seqs: int, loras: set<int>)

  /** tokens is what the budget is charged, chunk the progress reported. */
  datatype Decision = Decision(id: Id, before: Spent, fate: Fate, chunk: int, tokens: int)

  function With(loras: set<int>, lora: int): set<int> {
    if lora > 0 then loras + {lora} else loras
  }

  /** A group that is taken uses its tokens, one sequence and its adapter. */
  function SpentBy(d: Decision, lora: int): Spent {
    if d.fate == Taken then Spent(d.before.physical + d.tokens, d.before.seqs + 1, With(d.before.loras, lora))
    else d.before
  }

  /** The adapter a group needs, if adapters are in use. */
  function LoraOf(l: Limits, g: Group): int {
    if l.loraEnabled then g.lora else 0
  }

  /** What is used up after the decisions of a log. */
  function SpentAfter(log: seq<Decision>, start: Spent, l: Limits, groups: Id -> Group): Spent {
    if log == [] then start else
      var d := log[|log| - 1];
      SpentBy(d.(before := SpentAfter(log[..|log| - 1], start, l, groups)), LoraOf(l, groups(d.id)))
  }

  /** Each decision was taken on what the ones before it had left. */
  ghost predicate Chained(log: seq<Decision>, start: Spent, l: Limits, groups: Id -> Group) {
    forall i | 0 <= i < |log| :: log[i].before == SpentAfter(log[..i], start, l, groups)
  }

  function LogIds(log: seq<Decision>): (ids: seq<Id>)
    ensures |ids| == |log|
  {
    seq(|log|, i requires 0 <= i < |log| => log[i].id)
  }

  function LogFates(log: seq<Decision>): (fates: seq<Fate>)
    ensures |fates| == |log|
  {
    seq(|log|, i requires 0 <= i < |log| => log[i].fate)
  }

  /** The groups of one fate, in order. */
  function Chosen(log: seq<Decision>, f: Fate): seq<Id> {
    Select(LogIds(log), LogFates(log), f)
  }

  /** The batch entries of the groups taken, prefills or decodes, in order. */
  function LogBatch(log: seq<Decision>, groups: Id -> Group, prefill: bool): seq<Scheduled> {
    if log == [] then [] else
      var d := log[|log| - 1];
      LogBatch(log[..|log| - 1], groups, prefill) +
        if d.fate == Taken && groups(d.id).prefill == prefill then [Scheduled(d.id, d.chunk)] else []
  }

  lemma LogMore(log: seq<Decision>, d: Decision, start: Spent, l: Limits, groups: Id -> Group)
    requires Chained(log, start, l, groups) && d.before == SpentAfter(log, start, l, groups)
    ensures Chained(log + [d], start, l, groups)
    ensures SpentAfter(log + [d], start, l, groups) == SpentBy(d, LoraOf(l, groups(d.id)))
    ensures LogIds(log + [d]) == LogIds(log) + [d.id] && LogFates(log + [d]) == LogFates(log) + [d.fate]
    ensures forall p :: LogBatch(log + [d], groups, p) == LogBatch(log, groups, p) +
              if d.fate == Taken && groups(d.id).prefill == p then [Scheduled(d.id, d.chunk)] else []
  {
    var more := log + [d];
    assert more[..|log|] == log;
    assert forall i | 0 <= i < |log| :: more[..i] == log[..i];
  }

  // ---------- what each decision rests on ----------

  /** No adapter slot is left for the group. */
  predicate NoLoraSlot(l: Limits, loras: set<int>, g: Group) {
    l.loraEnabled && g.lora > 0 && g.lora !in loras && |loras| >= l.maxLoras
  }

  predicate Fits(l: Limits, s: Spent, tokens: int) {
    tokens > 0 && s.physical + tokens <= l.config.chunkTokens && s.seqs + 1 <= l.maxSeqs
  }

  /** The tokens a group may take from what is left. */
  function Ask(l: Limits, s: Spent, g: Group): int
    requires ConfigOk(l.config) && GroupOk(g)
  {
    NumNewTokens(NewTokens(g), l.config.chunkTokens - s.physical, l.config.blockSize)
  }

  /** A waiting group is ignored if its chunk is over the prompt limit or it can never be allocated, skipped if only
      an adapter slot is missing, taken if it also fits the budget; its chunk is then its planned first step. */
  ghost predicate DecidedNew(l: Limits, a: Answers, g: Group, attached: Attached, d: Decision)
    requires ConfigOk(l.config) && GroupOk(g)
  {
    var n, s, status := Ask(l, d.before, g), d.before, a.canAllocate(d.id);
    match d.fate
    case Ignored => n > l.promptLimit || status == Never
    case Skipped => n <= l.promptLimit && status == Now && NoLoraSlot(l, s.loras, g)
    case Taken =>
      && n <= l.promptLimit && status == Now && !NoLoraSlot(l, s.loras, g) && Fits(l, s, n)
      && FirstStep(l.config, attached, g.length, l.config.chunkTokens - s.physical) == Step(d.chunk, d.tokens)
  }

  /** The pass over the waiting queue stops when the queue is empty, the delay has not passed, the next group has to
      wait for blocks, or the budget or the number of sequences is used up. */
  ghost predicate StoppedNew(l: Limits, a: Answers, groups: Id -> Group, rest: seq<Id>, s: Spent, turn: nat)
    requires ConfigOk(l.config) && forall id :: GroupOk(groups(id))
  {
    rest == [] || !a.delayPassed(turn) ||
      var id, g := rest[0], groups(rest[0]);
      var n := Ask(l, s, g);
      n <= l.promptLimit && (a.canAllocate(id) == Later ||
        (a.canAllocate(id) == Now && !NoLoraSlot(l, s.loras, g) && !Fits(l, s, n)))
  }

  /** A swapped group is reported if it can never come back, skipped if only an adapter slot is missing, taken whole if
      it also fits the budget. */
  ghost predicate DecidedSwapped(l: Limits, a: Answers, g: Group, d: Decision)
    requires GroupOk(g)
  {
    var s, status := d.before, a.canSwapIn(d.id);
    match d.fate
    case Ignored => status == Never
    case Skipped => status == Now && NoLoraSlot(l, s.loras, g)
    case Taken =>
      && status == Now && !NoLoraSlot(l, s.loras, g) && Fits(l, s, NewTokens(g))
      && d.chunk == d.tokens == NewTokens(g)
  }

  ghost predicate StoppedSwapped(l: Limits, a: Answers, groups: Id -> Group, rest: seq<Id>, s: Spent)
    requires forall id :: GroupOk(groups(id))
  {
    rest == [] ||
      var id, g := rest[0], groups(rest[0]);
      a.canSwapIn(id) == Later || (a.canSwapIn(id) == Now && !NoLoraSlot(l, s.loras, g) && !Fits(l, s, NewTokens(g)))
  }

  // ---------- running groups ----------

  /** behind are the groups that made room, last of the queue first; alone: the group had to leave itself. */
  datatype Turn = Turn(id: Id, before: Spent, behind: seq<Id>, alone: bool, chunk: int)

  /** A group that needed room gives its adapter back; one that stays in the batch takes its tokens. */
  function SpentByTurn(t: Turn, lora: int): Spent {
    var loras := if lora > 0 && (t.alone || t.behind != []) then t.before.loras - {lora} else t.before.loras;
    if t.alone then t.before.(loras := loras)
    else Spent(t.before.physical + t.chunk, t.before.seqs + 1, With(loras, lora))
  }

  function SpentAfterTurns(turns: seq<Turn>, start: Spent, groups: Id -> Group): Spent {
    if turns == [] then start else
      var t := turns[|turns| - 1];
      SpentByTurn(t.(before := SpentAfterTurns(turns[..|turns| - 1], start, groups)), groups(t.id).lora)
  }

  ghost predicate ChainedTurns(turns: seq<Turn>, start: Spent, groups: Id -> Group) {
    forall i | 0 <= i < |turns| :: turns[i].before == SpentAfterTurns(turns[..i], start, groups)
  }

  /** The groups that stayed, in order, and all that left, in the order they left. */
  function Stayed(turns: seq<Turn>): seq<Id> {
    if turns == [] then [] else
      var t := turns[|turns| - 1];
      Stayed(turns[..|turns| - 1]) + if t.alone then [] else [t.id]
  }

  function Victims(behind: seq<Id>, id: Id, alone: bool): seq<Id> {
    if alone then behind + [id] else behind
  }

  function Left(turns: seq<Turn>): seq<Id> {
    if turns == [] then [] else
      var t := turns[|turns| - 1];
      Left(turns[..|turns| - 1]) + Victims(t.behind, t.id, t.alone)
  }

  function TurnBatch(turns: seq<Turn>, groups: Id -> Group, prefill: bool): seq<Scheduled> {
    if turns == [] then [] else
      var t := turns[|turns| - 1];
      TurnBatch(turns[..|turns| - 1], groups, prefill) +
        if !t.alone && groups(t.id).prefill == prefill then [Scheduled(t.id, t.chunk)] else []
  }

  /** A running group has tokens left for it; groups leave one by one exactly while it cannot grow; its chunk is its
      planned later step, or one token. */
  ghost predicate DecidedTurn(l: Limits, a: Answers, g: Group, attached: Attached, t: Turn)
    requires ConfigOk(l.config) && GroupOk(g)
  {
    && Ask(l, t.before, g) > 0
    && (forall k | 0 <= k < |t.behind| :: !a.canAppend(t.id, k))
    && a.canAppend(t.id, |t.behind|) == !t.alone
    && if g.prefill then
         EndsAt(NextStep(l.config, attached, g.length, g.computed, l.config.chunkTokens - t.before.physical),
                g.computed + t.chunk)
       else t.chunk == 1
  }

  /** The pass over the running queue stops when the queue is empty or no tokens are left for the next group. */
  ghost predicate StoppedRunning(l: Limits, groups: Id -> Group, rest: seq<Id>, s: Spent)
    requires ConfigOk(l.config) && forall id :: GroupOk(groups(id))
  {
    rest == [] || Ask(l, s, groups(rest[0])) == 0
  }

  lemma TurnMore(turns: seq<Turn>, t: Turn, start: Spent, groups: Id -> Group)
    requires ChainedTurns(turns, start, groups) && t.before == SpentAfterTurns(turns, start, groups)
    ensures ChainedTurns(turns + [t], start, groups)
    ensures SpentAfterTurns(turns + [t], start, groups) == SpentByTurn(t, groups(t.id).lora)
    ensures Stayed(turns + [t]) == Stayed(turns) + if t.alone then [] else [t.id]
    ensures Left(turns + [t]) == Left(turns) + Victims(t.behind, t.id, t.alone)
    ensures forall p :: TurnBatch(turns + [t], groups, p) == TurnBatch(turns, groups, p) +
              if !t.alone && groups(t.id).prefill == p then [Scheduled(t.id, t.chunk)] else []
  {
    var more := turns + [t];
    assert more[..|turns|] == turns;
    assert forall i | 0 <= i < |turns| :: more[..i] == turns[..i];
  }

  // ---------- what a log uses up ----------

  ghost predicate TakenWith(log: seq<Decision>, groups: Id -> Group, lora: int) {
    exists d :: d in log && d.fate == Taken && groups(d.id).lora == lora
  }

  /** One sequence for each group in the batch, its adapter, and no fewer tokens than before. */
  lemma {:induction false} SpentMeans(log: seq<Decision>, start: Spent, l: Limits, groups: Id -> Group)
    ensures var s := SpentAfter(log, start, l, groups);
            && s.seqs == start.seqs + |LogBatch(log, groups, false)| + |LogBatch(log, groups, true)|
            && forall x :: x in s.loras <==> x in start.loras || (l.loraEnabled && x > 0 && TakenWith(log, groups, x))
  {
    if log != [] {
      var n := |log| - 1;
      SpentMeans(log[..n], start, l, groups);
      assert log == log[..n] + [log[n]];
    }
  }

  lemma {:induction false} SpentByTurns(turns: seq<Turn>, start: Spent, groups: Id -> Group)
    ensures var s := SpentAfterTurns(turns, start, groups);
            && s.seqs == start.seqs + |TurnBatch(turns, groups, false)| + |TurnBatch(turns, groups, true)|
            && s.physical == start.physical + TurnTokens(turns)
  {
    if turns != [] {
      SpentByTurns(turns[..|turns| - 1], start, groups);
    }
  }

  /** The tokens of the groups that stayed. */
  function TurnTokens(turns: seq<Turn>): int {
    if turns == [] then 0 else
      var t := turns[|turns| - 1];
      TurnTokens(turns[..|turns| - 1]) + if t.alone then 0 else t.chunk
  }

  /** A group that stayed holds its adapter, unless a later one of the same adapter had to leave itself. */
  ghost predicate Held(turns: seq<Turn>, groups: Id -> Group, x: int) {
    exists i :: 0 <= i < |turns| && !turns[i].alone && groups(turns[i].id).lora == x
                && forall j | i < j < |turns| && turns[j].alone :: groups(turns[j].id).lora != x
  }

  lemma HeldMore(turns: seq<Turn>, t: Turn, groups: Id -> Group, x: int)
    ensures Held(turns + [t], groups, x) <==>
              if groups(t.id).lora == x then !t.alone else Held(turns, groups, x)
  {
    var more := turns + [t];
    assert more[|turns|] == t;
    if Held(turns, groups, x) && groups(t.id).lora != x {
      var i :| 0 <= i < |turns| && !turns[i].alone && groups(turns[i].id).lora == x
               && forall j | i < j < |turns| && turns[j].alone :: groups(turns[j].id).lora != x;
      assert more[i] == turns[i];
    }
    if Held(more, groups, x) && groups(t.id).lora != x {
      var i :| 0 <= i < |more| && !more[i].alone && groups(more[i].id).lora == x
               && forall j | i < j < |more| && more[j].alone :: groups(more[j].id).lora != x;
      assert turns[i] == more[i];
      assert forall j | i < j < |turns| :: turns[j] == more[j];
    }
  }

  lemma NoneHeld(groups: Id -> Group, x: int)
    ensures !Held([], groups, x)
  {
  }

  lemma {:induction false} AdaptersHeld(turns: seq<Turn>, start: Spent, groups: Id -> Group, x: int)
    requires start.loras == {}
    ensures x in SpentAfterTurns(turns, start, groups).loras <==> x > 0 && Held(turns, groups, x)
  {
    hide Held;
    NoneHeld(groups, x);
    if turns != [] {
      var n := |turns| - 1;
      AdaptersHeld(turns[..n], start, groups, x);
      HeldMore(turns[..n], turns[n], groups, x);
      assert turns == turns[..n] + [turns[n]];
    }
  }

  /** No more adapters than allowed once a group brought a new one. */
  lemma {:induction false} AdaptersWithin(log: seq<Decision>, start: Spent, l: Limits, groups: Id -> Group)
    requires Chained(log, start, l, groups)
    requires forall i | 0 <= i < |log| && log[i].fate == Taken && LoraOf(l, groups(log[i].id)) > 0 ::
               LoraOf(l, groups(log[i].id)) in log[i].before.loras || |log[i].before.loras| < l.maxLoras
    ensures var s := SpentAfter(log, start, l, groups); s.loras == start.loras || |s.loras| <= l.maxLoras
  {
    if log != [] {
      var n := |log| - 1;
      assert forall i | 0 <= i < n :: log[..n][..i] == log[..i] && log[..n][i] == log[i];
      AdaptersWithin(log[..n], start, l, groups);
      OneAdapter(log[n].before.loras, LoraOf(l, groups(log[n].id)));
    }
  }

  lemma OneAdapter(loras: set<int>, lora: int)
    ensures With(loras, lora) == loras || (lora > 0 && lora !in loras && |With(loras, lora)| == |loras| + 1)
  {
    assert lora in loras ==> loras + {lora} == loras;
  }

  /** No more sequences than allowed once a group was taken. */
  lemma {:induction false} SeqsWithin(log: seq<Decision>, start: Spent, l: Limits, groups: Id -> Group)
    requires Chained(log, start, l, groups)
    requires forall d | d in log && d.fate == Taken :: d.before.seqs + 1 <= l.maxSeqs
    ensures var s := SpentAfter(log, start, l, groups); s.seqs == start.seqs || s.seqs <= l.maxSeqs
  {
    if log != [] {
      var n := |log| - 1;
      assert forall i | 0 <= i < n :: log[..n][..i] == log[..i];
      SeqsWithin(log[..n], start, l, groups);
      assert log == log[..n] + [log[n]];
      assert log[n].before == SpentAfter(log[..n], start, l, groups);
    }
  }
}
