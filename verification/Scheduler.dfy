/** One chunked-prefill scheduling step over the waiting, running and swapped queues. Groups hold one
    sequence; the block manager, the clock and the prefix index may answer anything. */
module ChunkedScheduler {
  import opened BatchDecisions
  import opened GdnPrefix
  import opened GdnScheduling
  import opened SchedulerQueues
  import opened SchedulingBudgets
  import opened Sequences

  function Total(s: seq<Scheduled>): int {
    if s == [] then 0 else Total(s[..|s| - 1]) + s[|s| - 1].chunk
  }

  lemma {:induction false} TotalAppend(a: seq<Scheduled>, b: seq<Scheduled>)
    ensures Total(a + b) == Total(a) + Total(b)
  {
    if b == [] {
      assert a + b == a;
    } else {
      var n := |b| - 1;
      assert (a + b)[..|a + b| - 1] == a + b[..n];
      TotalAppend(a, b[..n]);
    }
  }

  lemma OneMore(s: seq<Scheduled>, x: Scheduled)
    ensures Total(s + [x]) == Total(s) + x.chunk && Ids(s + [x]) == Ids(s) + [x.id]
  {
    assert (s + [x])[..|s|] == s;
  }

  /** A chunk never runs past the prompt it belongs to; a decode is one token. */
  ghost predicate ChunksFit(s: seq<Scheduled>, groups: Id -> Group) {
    forall x | x in s :: 0 < x.chunk
        && (if groups(x.id).prefill then groups(x.id).computed + x.chunk <= groups(x.id).length
                                         else x.chunk == 1)
  }

  ghost predicate Stage(s: seq<Scheduled>, groups: Id -> Group, prefill: bool) {
    forall x | x in s :: groups(x.id).prefill == prefill
  }

  datatype SchedulerOutputs = SchedulerOutputs(scheduled: seq<Scheduled>, prefillGroups: nat, batchedTokens: int,
                                               ignored: seq<Id>, preempted: nat)

  // ---------- planning never fails inside a step ----------

  lemma CapStepShrinks(c: Config, targets: seq<PrefixKey>, computed: nat, chunk: int, physical: int)
    requires 0 < physical <= chunk
    ensures var s := CapStep(c, targets, computed, chunk, physical);
            s.Step? && computed < s.end <= computed + chunk && 0 < s.counted <= physical
                && s.counted <= s.end - computed
            && (physical == chunk ==> s.counted == s.end - computed)
  {
    CapIsEarliest(computed + chunk - physical, computed + chunk, targets, c.blockSize);
  }

  /** Whatever prefix is restored, the tokens a first step runs fit what is left of the budget and never
      exceed its logical progress, and that progress stays inside the prompt. */
  lemma PlanWithinBudget(c: Config, restore: Option<PrefixKey>, g: Group, nominal: int, remaining: int)
    requires ConfigOk(c) && GroupOk(g) && g.prefill && 0 < nominal <= remaining && nominal <= g.length - g.computed
    ensures var plan := PlanFastForward(restore, g.computed, g.length, nominal, remaining, c.blockSize,
                                        if c.mode.Hybrid64? then Some(c.chunkTokens) else None);
            plan.Plan? && 0 < plan.physical <= plan.logical && plan.physical <= remaining
                && g.computed + plan.logical <= g.length
  {
    if restore.Some? {
      CheckpointNotNegative(restore.value, c.blockSize);
    }
  }

  lemma CheckpointNotNegative(k: PrefixKey, B: nat)
    ensures k.blocks * B >= 0
  {
  }

  // ---------- chunks come from the planners ----------

  /** The chunk is what the planner of first steps gives for some remaining budget. */
  ghost predicate PlannedFirst(c: Config, g: Group, a: Attached, chunk: int, limit: int)
    requires ConfigOk(c)
  {
    exists r :: 0 <= r <= limit && FirstStep(c, a, g.length, r).Step? && FirstStep(c, a, g.length, r).end == chunk
  }

  /** The same for a later step. */
  ghost predicate PlannedNext(c: Config, g: Group, a: Attached, chunk: int, limit: int)
    requires ConfigOk(c)
  {
    exists r :: 0 <= r <= limit && NextStep(c, a, g.length, g.computed, r).Step?
                && NextStep(c, a, g.length, g.computed, r).end == g.computed + chunk
  }

  ghost predicate AllFirst(s: seq<Scheduled>, c: Config, groups: Id -> Group, attach: Id -> Attached, limit: int)
    requires ConfigOk(c)
  {
    forall x | x in s :: PlannedFirst(c, groups(x.id), attach(x.id), x.chunk, limit)
  }

  ghost predicate AllNext(s: seq<Scheduled>, c: Config, groups: Id -> Group, attach: Id -> Attached, limit: int)
    requires ConfigOk(c)
  {
    forall x | x in s :: PlannedNext(c, groups(x.id), attach(x.id), x.chunk, limit)
  }

  lemma FirstIsPlanned(c: Config, g: Group, a: Attached, n: int, r: nat, limit: int)
    requires ConfigOk(c) && GroupOk(g) && g.prefill && g.computed == 0 && r <= limit
    requires n == NumNewTokens(NewTokens(g), r, c.blockSize) && 0 < n <= r
    ensures var plan := PlanFastForward(a.restore, 0, g.length, n, r, c.blockSize,
                                        if c.mode.Hybrid64? then Some(c.chunkTokens) else None);
            var step := CapStep(c, a.targets, 0, plan.logical, plan.physical);
            && plan.Plan? && step.Step? && 0 < step.end <= g.length && 0 < step.counted <= r && step.counted <= step.end
            && FirstStep(c, a, g.length, r) == step && PlannedFirst(c, g, a, step.end, limit)
  {
    hide PlanFastForward, CapStep, NumNewTokens;
    NumNewTokensFits(g.length, r, c.blockSize);
    PlanWithinBudget(c, a.restore, g, n, r);
    var plan := PlanFastForward(a.restore, 0, g.length, n, r, c.blockSize,
                                if c.mode.Hybrid64? then Some(c.chunkTokens) else None);
    CapStepShrinks(c, a.targets, 0, plan.logical, plan.physical);
    assert FirstStep(c, a, g.length, r) == CapStep(c, a.targets, 0, plan.logical, plan.physical);
  }

  lemma NextIsPlanned(c: Config, g: Group, a: Attached, n: int, r: nat, limit: int)
    requires ConfigOk(c) && GroupOk(g) && g.prefill && r <= limit
    requires n == NumNewTokens(NewTokens(g), r, c.blockSize) && 0 < n
    ensures var step := CapStep(c, a.targets, g.computed, n, n);
            && step.Step? && g.computed < step.end <= g.computed + n && NextStep(c, a, g.length, g.computed, r) == step
            && PlannedNext(c, g, a, step.end - g.computed, limit)
  {
    hide CapStep, NumNewTokens;
    CapStepShrinks(c, a.targets, g.computed, n, n);
    assert NextStep(c, a, g.length, g.computed, r) == CapStep(c, a.targets, g.computed, n, n);
  }

  // ---------- the scheduler ----------

  /** What one pass over a queue has added to the batch. */
  ghost predicate Batched(b0: Budget, b: Budget, decodes: seq<Scheduled>, prefills: seq<Scheduled>, limit: int) {
    && b.tokenRequests == b0.tokenRequests + Members(Ids(decodes)) + Members(Ids(prefills))
    && b.scheduled == b0.scheduled + Total(decodes) + Total(prefills)
    && b.physical - b0.physical <= b.scheduled - b0.scheduled
    && b0.physical <= b.physical <= limit
  }

  lemma BatchStarts(b: Budget, limit: int)
    requires b.physical <= limit
    ensures Batched(b, b, [], [], limit)
  {
  }

  lemma DecodeBatched(b0: Budget, b: Budget, decodes: seq<Scheduled>, prefills: seq<Scheduled>, limit: int,
      x: Scheduled, tokens: int)
    requires Batched(b0, b, decodes, prefills, limit) && x.id !in b.tokenRequests && 0 <= tokens <= x.chunk
            && b.physical + tokens <= limit
    ensures Batched(b0, SeqsAdded(Added(b, x.id, tokens, x.chunk), x.id, 1), decodes + [x], prefills, limit)
  {
    OneMore(decodes, x);
    MemberMore(Ids(decodes), x.id);
  }

  lemma PrefillBatched(b0: Budget, b: Budget, decodes: seq<Scheduled>, prefills: seq<Scheduled>, limit: int,
      x: Scheduled, tokens: int)
    requires Batched(b0, b, decodes, prefills, limit) && x.id !in b.tokenRequests && 0 <= tokens <= x.chunk
            && b.physical + tokens <= limit
    ensures Batched(b0, SeqsAdded(Added(b, x.id, tokens, x.chunk), x.id, 1), decodes, prefills + [x], limit)
  {
    OneMore(prefills, x);
    MemberMore(Ids(prefills), x.id);
  }

  lemma MemberMore(s: seq<Id>, id: Id)
    ensures Members(s + [id]) == Members(s) + {id}
  {
  }

  lemma DistinctParts(a: seq<Id>, b: seq<Id>, c: seq<Id>)
    requires Distinct(a + b + c)
    ensures Distinct(a) && Distinct(b) && Distinct(c)
    ensures Members(a) !! Members(b) && Members(a) !! Members(c) && Members(b) !! Members(c)
  {
    var all := a + b + c;
    assert forall i | 0 <= i < |a| :: all[i] == a[i];
    assert forall i | 0 <= i < |b| :: all[|a| + i] == b[i];
    assert forall i | 0 <= i < |c| :: all[|a| + |b| + i] == c[i];
  }

  class Scheduler {
    const config: Config
    const maxSeqs: nat
    const promptLimit: nat
    const loraEnabled: bool
    const maxLoras: nat
    /** Whether preempted groups are recomputed; else they are swapped out. */
    const recompute: bool
    const groups: Id -> Group
    /** What the prefix index attaches to a request when it is admitted: any restore, any targets. */
    const attach: Id -> Attached
    var waiting: seq<Id>
    var running: seq<Id>
    var swapped: seq<Id>

    ghost predicate GroupsOk()
    {
      ConfigOk(config) && forall id :: GroupOk(groups(id))
    }

    ghost predicate Ready()
      reads this
    {
      && GroupsOk() && Distinct(waiting + running + swapped)
      && forall id | id in waiting :: groups(id).prefill && groups(id).computed == 0
    }

    function Bounds(): Limits {
      Limits(config, maxSeqs, promptLimit, loraEnabled, maxLoras)
    }

    constructor (config: Config, maxSeqs: nat, promptLimit: nat, loraEnabled: bool, maxLoras: nat, recompute: bool,
                 groups: Id -> Group, attach: Id -> Attached)
      ensures waiting == [] && running == [] && swapped == []
      ensures this.groups == groups && this.attach == attach && this.recompute == recompute
      ensures Bounds() == Limits(config, maxSeqs, promptLimit, loraEnabled, maxLoras)
    {
      this.config, this.maxSeqs, this.promptLimit := config, maxSeqs, promptLimit;
      this.loraEnabled, this.maxLoras := loraEnabled, maxLoras;
      this.recompute, this.groups, this.attach := recompute, groups, attach;
      waiting, running, swapped := [], [], [];
    }

    /** Turn by turn: groups are taken from the left of the queue, those that make room leave from its right. */
    ghost predicate RanSoFar(start: seq<Id>, rest: seq<Id>, before: Spent, after: Spent, answers: Answers,
        turns: seq<Turn>)
      requires GroupsOk()
    {
      && start == Stayed(turns) + rest + Reverse(Left(turns))
      && ChainedTurns(turns, before, groups) && after == SpentAfterTurns(turns, before, groups)
      && forall t | t in turns :: DecidedTurn(Bounds(), answers, groups(t.id), attach(t.id), t)
    }

    ghost predicate RanAs(start: seq<Id>, rest: seq<Id>, before: Spent, after: Spent, answers: Answers,
        turns: seq<Turn>)
      requires GroupsOk()
    {
      RanSoFar(start, rest, before, after, answers, turns) && StoppedRunning(Bounds(), groups, rest, after)
    }

    lemma NothingRun(start: seq<Id>, before: Spent, answers: Answers)
      requires GroupsOk()
      ensures RanSoFar(start, start, before, before, answers, [])
      ensures TurnBatch([], groups, false) == [] && TurnBatch([], groups, true) == [] && Left([]) == [] == Stayed([])
    {
      assert [] + start + [] == start;
    }

    lemma RanStart(start: seq<Id>, rest: seq<Id>, before: Spent, after: Spent, answers: Answers, turns: seq<Turn>)
      requires GroupsOk() && RanSoFar(start, rest, before, after, answers, turns)
      ensures start == Stayed(turns) + rest + Reverse(Left(turns))
    {
    }

    /** The group at the head of the queue has not had its turn. */
    lemma HeadRuns(start: seq<Id>, rest: seq<Id>, before: Spent, after: Spent, answers: Answers, turns: seq<Turn>)
      requires GroupsOk() && Distinct(start) && |rest| > 0 && RanSoFar(start, rest, before, after, answers, turns)
      ensures rest[0] !in Members(Stayed(turns)) && after == SpentAfterTurns(turns, before, groups)
    {
      HeadIsNew(start, Stayed(turns), rest, Reverse(Left(turns)));
    }

    lemma RanOneMore(start: seq<Id>, before: seq<Id>, rest: seq<Id>, from: Spent, after: Spent, answers: Answers,
        turns: seq<Turn>, t: Turn)
      requires GroupsOk() && RanSoFar(start, [t.id] + before, from, t.before, answers, turns)
      requires before == rest + Reverse(t.behind) && (t.alone ==> rest == [])
      requires DecidedTurn(Bounds(), answers, groups(t.id), attach(t.id), t)
      requires after == SpentByTurn(t, groups(t.id).lora)
      ensures RanSoFar(start, rest, from, after, answers, turns + [t])
      ensures forall p :: TurnBatch(turns + [t], groups, p) ==
                if !t.alone && groups(t.id).prefill == p then TurnBatch(turns, groups, p) + [Scheduled(t.id, t.chunk)]
                else TurnBatch(turns, groups, p)
      ensures Left(turns + [t]) == Left(turns) + Victims(t.behind, t.id, t.alone)
      ensures Stayed(turns + [t]) == if t.alone then Stayed(turns) else Stayed(turns) + [t.id]
    {
      hide Reverse, DecidedTurn, ConfigOk;
      TurnMore(turns, t, from, groups);
      QueueMoves(start, Stayed(turns), t.id, rest, Left(turns), t.behind, t.alone);
    }

    method Preempt(victim: Id, preempted: seq<Id>, swappedOut: seq<Id>, ghost victims: seq<Id>)
        returns (preempted': seq<Id>, swappedOut': seq<Id>)
      requires OneMode(victims, recompute, preempted, swappedOut)
      ensures OneMode(victims + [victim], recompute, preempted', swappedOut')
    {
      preempted', swappedOut' := preempted, swappedOut;
      if recompute {
        preempted' := preempted' + [victim];
      } else {
        swappedOut' := swappedOut' + [victim];
      }
    }

    /** Room is made by preempting from the right end of the running queue, or the group itself when it is
        the last one. Nothing was counted for the group yet, so there is nothing to take back. */
    method MakeRoom(id: Id, budget: SchedulingBudget, n: int, loras: set<int>, answers: Answers)
        returns (preempted: seq<Id>, swappedOut: seq<Id>, loras': set<int>, alone: bool, ghost behind: seq<Id>)
      requires budget.Valid() && id !in budget.tokenRequests && id !in budget.seqRequests
      modifies this`running, budget
      ensures budget.Valid() && budget.Value() == old(budget.Value())
      ensures old(running) == running + Reverse(behind) && (alone ==> running == [])
      ensures OneMode(Victims(behind, id, alone), recompute, preempted, swappedOut)
      ensures (forall k | 0 <= k < |behind| :: !answers.canAppend(id, k))
              && answers.canAppend(id, |behind|) == !alone
      ensures loras' == if groups(id).lora > 0 && (alone || behind != []) then loras - {groups(id).lora} else loras
    {
      hide Reverse, OneMode;
      preempted, swappedOut, loras', alone, behind := [], [], loras, false, [];
      NothingPreempted();
      var asked := 0;
      var fits := answers.canAppend(id, asked);
      while !fits && !alone
        invariant budget.Valid() && budget.Value() == old(budget.Value())
        invariant old(running) == running + Reverse(behind) && (alone ==> running == [])
        invariant OneMode(Victims(behind, id, alone), recompute, preempted, swappedOut)
        invariant asked == |behind| && forall k | 0 <= k < asked :: !answers.canAppend(id, k)
        invariant answers.canAppend(id, |behind|) == fits && (alone ==> !fits)
        invariant loras' == if groups(id).lora > 0 && (alone || behind != []) then loras - {groups(id).lora} else loras
        decreases |running|, if alone then 0 else 1
      {
        budget.SubtractTokens(id, n);
        budget.SubtractSeqs(id, 1);
        if groups(id).lora > 0 {
          loras' := loras' - {groups(id).lora};
        }
        ghost var before := Victims(behind, id, alone);
        var victim := id;
        if |running| > 0 {
          victim := running[|running| - 1];
          TakeLast(old(running), running, behind, victim);
          running := running[..|running| - 1];
          behind, asked := behind + [victim], asked + 1;
        } else {
          alone := true;
        }
        preempted, swappedOut := Preempt(victim, preempted, swappedOut, before);
        assert Victims(behind, id, alone) == before + [victim];
        fits := answers.canAppend(id, asked);
      }
    }

    /** A group joins the batch, with its tokens and its one sequence. */
    method Record(id: Id, n: int, budget: SchedulingBudget, decodes: seq<Scheduled>, prefills: seq<Scheduled>,
        ghost b0: Budget)
        returns (decodes': seq<Scheduled>, prefills': seq<Scheduled>)
      requires GroupsOk() && 0 < n <= NewTokens(groups(id)) && n <= budget.Remaining()
      requires budget.Valid() && id !in budget.tokenRequests && id !in budget.seqRequests
      requires Batched(b0, budget.Value(), decodes, prefills, budget.tokenBudget)
      requires ChunksFit(decodes, groups) && ChunksFit(prefills, groups) && Stage(decodes, groups, false)
              && Stage(prefills, groups, true)
      requires AllNext(prefills, config, groups, attach, budget.tokenBudget)
      requires groups(id).prefill ==> PlannedNext(config, groups(id), attach(id), n, budget.tokenBudget)
      modifies budget
      ensures AllNext(prefills', config, groups, attach, budget.tokenBudget)
      ensures budget.Valid() && Batched(b0, budget.Value(), decodes', prefills', budget.tokenBudget)
      ensures budget.tokenRequests == old(budget.tokenRequests) + {id}
              && budget.seqRequests == old(budget.seqRequests) + {id}
      ensures multiset(Ids(decodes')) + multiset(Ids(prefills'))
              == multiset(Ids(decodes)) + multiset(Ids(prefills)) + multiset{id}
      ensures ChunksFit(decodes', groups) && ChunksFit(prefills', groups) && Stage(decodes', groups, false)
              && Stage(prefills', groups, true)
      ensures var x := Scheduled(id, if groups(id).prefill then n else 1);
              && decodes' == (if groups(id).prefill then decodes else decodes + [x])
              && prefills' == if groups(id).prefill then prefills + [x] else prefills
      ensures budget.physical == old(budget.physical) + n && budget.seqs == old(budget.seqs) + 1
    {
      hide Batched, Total, Ids, PlannedNext;
      var g := groups(id);
      var x := Scheduled(id, if g.prefill then n else 1);
      decodes', prefills' := decodes, prefills;
      ghost var b := budget.Value();
      budget.AddTokens(id, n, n);
      budget.AddSeqs(id, 1);
      if g.prefill {
        PrefillBatched(b0, b, decodes, prefills, budget.tokenBudget, x, n);
        OneMore(prefills, x);
        prefills' := prefills + [x];
      } else {
        DecodeBatched(b0, b, decodes, prefills, budget.tokenBudget, x, n);
        OneMore(decodes, x);
        decodes' := decodes + [x];
      }
    }

    /** The pass over the running queue under way. */
    ghost predicate Midway(budget: SchedulingBudget, start: seq<Id>, loras: set<int>, loras': set<int>,
        answers: Answers, turns: seq<Turn>, decodes: seq<Scheduled>, prefills: seq<Scheduled>, preempted: seq<Id>,
        swappedOut: seq<Id>)
      reads this`running, budget
    {
      && GroupsOk() && budget.Valid() && budget.tokenBudget == config.chunkTokens
      && Batched(Budget({}, {}, 0, 0, map[], 0), budget.Value(), decodes, prefills, budget.tokenBudget)
      && budget.seqRequests == budget.tokenRequests == Members(Stayed(turns))
      && multiset(Ids(decodes)) + multiset(Ids(prefills)) == multiset(Stayed(turns))
      && AllNext(prefills, config, groups, attach, budget.tokenBudget)
      && RanSoFar(start, running, Spent(0, 0, loras), Spent(budget.physical, budget.seqs, loras'), answers, turns)
      && decodes == TurnBatch(turns, groups, false) && prefills == TurnBatch(turns, groups, true)
      && OneMode(Left(turns), recompute, preempted, swappedOut)
      && ChunksFit(decodes, groups) && ChunksFit(prefills, groups)
      && Stage(decodes, groups, false) && Stage(prefills, groups, true)
    }

    lemma NothingYet(budget: SchedulingBudget, loras: set<int>, answers: Answers)
      requires GroupsOk() && budget.Valid() && budget.tokenBudget == config.chunkTokens
      requires budget.Value() == Budget({}, {}, 0, 0, map[], 0)
      ensures Midway(budget, running, loras, loras, answers, [], [], [], [], [])
    {
      BatchStarts(budget.Value(), budget.tokenBudget);
      NothingPreempted();
      NothingStaged(groups);
      NothingPlanned(config, groups, attach, budget.tokenBudget);
      NothingRun(running, Spent(0, 0, loras), answers);
    }

    lemma TurnDecided(answers: Answers, t: Turn, n: int)
      requires GroupsOk() && n == Ask(Bounds(), t.before, groups(t.id)) && n > 0
      requires (forall k | 0 <= k < |t.behind| :: !answers.canAppend(t.id, k))
               && answers.canAppend(t.id, |t.behind|) == !t.alone
      requires var g := groups(t.id);
               if g.prefill then
                 EndsAt(NextStep(config, attach(t.id), g.length, g.computed, config.chunkTokens - t.before.physical),
                        g.computed + t.chunk)
               else t.chunk == 1
      ensures DecidedTurn(Bounds(), answers, groups(t.id), attach(t.id), t)
    {
    }

    /** The head of the running queue has its turn. */
    method TakeTurn(budget: SchedulingBudget, n: int, ghost start: seq<Id>, ghost loras: set<int>, before: set<int>,
        answers: Answers, ghost turns: seq<Turn>, decodes: seq<Scheduled>, prefills: seq<Scheduled>,
        preempted: seq<Id>, swappedOut: seq<Id>)
        returns (decodes': seq<Scheduled>, prefills': seq<Scheduled>, preempted': seq<Id>, swappedOut': seq<Id>,
            loras': set<int>, ghost turns': seq<Turn>)
      requires Midway(budget, start, loras, before, answers, turns, decodes, prefills, preempted, swappedOut)
      requires |running| > 0 && Distinct(start) && n > 0
      requires n == NumNewTokens(NewTokens(groups(running[0])), budget.Remaining(), config.blockSize)
      modifies this`running, budget
      ensures |running| < old(|running|)
      ensures Midway(budget, start, loras, loras', answers, turns', decodes', prefills', preempted', swappedOut')
    {
      hide Batched, Reverse, CapStep, Total, Distinct, Select, Ids, Members, NumNewTokens, ChunksFit,
          Stage, Subsequence, PlannedNext, AllNext, RanSoFar, TurnBatch, Left, Stayed, OneMode, Victims, DecidedTurn,
          NextStep;
      ghost var b0 := Budget({}, {}, 0, 0, map[], 0);
      var id := running[0];
      var g := groups(id);
      var chunk := n;
      RunningTokens(config, b0, budget.Value(), decodes, prefills, g, budget.tokenBudget);
      if g.prefill {
        WithinBudget(b0, budget.Value(), decodes, prefills, budget.tokenBudget);
        NextIsPlanned(config, g, attach(id), n, budget.Remaining(), budget.tokenBudget);
        var step := CapStep(config, attach(id).targets, g.computed, n, n);
        chunk := step.end - g.computed;
      }
      ghost var spent := Spent(budget.physical, budget.seqs, before);
      HeadRuns(start, running, Spent(0, 0, loras), spent, answers, turns);
      assert running == [id] + running[1..];
      running := running[1..];
      ghost var rest := running;
      var p, s, alone;
      ghost var behind;
      p, s, loras', alone, behind := MakeRoom(id, budget, chunk, before, answers);
      ghost var turn := Turn(id, spent, behind, alone, if g.prefill then chunk else 1);
      TurnDecided(answers, turn, n);
      OneModeOn(Left(turns), Victims(behind, id, alone), recompute, preempted, swappedOut, p, s);
      preempted', swappedOut', decodes', prefills' := preempted + p, swappedOut + s, decodes, prefills;
      if !alone {
        decodes', prefills' := Record(id, chunk, budget, decodes, prefills, b0);
        MemberMore(Stayed(turns), id);
        if g.lora > 0 {
          loras' := loras' + {g.lora};
        }
      }
      RanOneMore(start, rest, running, Spent(0, 0, loras), Spent(budget.physical, budget.seqs, loras'), answers,
        turns, turn);
      turns' := turns + [turn];
    }

    /** Running groups are taken from the left while tokens are left; victims leave from the right. */
    method ScheduleRunning(budget: SchedulingBudget, loras: set<int>, answers: Answers)
        returns (decodes: seq<Scheduled>, prefills: seq<Scheduled>, preempted: seq<Id>, swappedOut: seq<Id>,
            loras': set<int>, ghost turns: seq<Turn>)
      requires GroupsOk() && Distinct(running) && budget.Valid()
              && budget.Value() == Budget({}, {}, 0, 0, map[], 0) && budget.tokenBudget == config.chunkTokens
      modifies this`running, budget
      ensures budget.Valid() && Batched(old(budget.Value()), budget.Value(), decodes, prefills, budget.tokenBudget)
      ensures budget.seqRequests == budget.tokenRequests <= Members(old(running))
      ensures multiset(old(running)) == multiset(running) + multiset(Ids(decodes)) + multiset(Ids(prefills))
                                        + multiset(preempted) + multiset(swappedOut)
      ensures Subsequence(Reverse(preempted), old(running)) && Subsequence(Reverse(swappedOut), old(running))
      ensures AllNext(prefills, config, groups, attach, budget.tokenBudget)
      ensures ChunksFit(decodes, groups) && ChunksFit(prefills, groups) && Stage(decodes, groups, false)
              && Stage(prefills, groups, true)
      ensures RanAs(old(running), running, Spent(0, 0, loras), Spent(budget.physical, budget.seqs, loras'), answers,
                    turns)
      ensures decodes == TurnBatch(turns, groups, false) && prefills == TurnBatch(turns, groups, true)
      ensures OneMode(Left(turns), recompute, preempted, swappedOut)
    {
      hide Batched, Reverse, Distinct, Ids, Members, NumNewTokens, ChunksFit, Stage, Subsequence, AllNext, RanSoFar,
          TurnBatch, Left, Stayed, OneMode;
      decodes, prefills, preempted, swappedOut, loras' := [], [], [], [], loras;
      ghost var start := running;
      turns := [];
      NothingYet(budget, loras, answers);
      while |running| > 0
        invariant Midway(budget, start, loras, loras', answers, turns, decodes, prefills, preempted, swappedOut)
        decreases |running|
      {
        var n := NumNewTokens(NewTokens(groups(running[0])), budget.Remaining(), config.blockSize);
        RunningTokens(config, Budget({}, {}, 0, 0, map[], 0), budget.Value(), decodes, prefills, groups(running[0]),
          budget.tokenBudget);
        if n == 0 {
          break;
        }
        decodes, prefills, preempted, swappedOut, loras', turns :=
          TakeTurn(budget, n, start, loras, loras', answers, turns, decodes, prefills, preempted, swappedOut);
      }
      RanStart(start, running, Spent(0, 0, loras), Spent(budget.physical, budget.seqs, loras'), answers, turns);
      RunningSplit(start, Stayed(turns), running, Left(turns), recompute, preempted, swappedOut,
          multiset(Ids(decodes)), multiset(Ids(prefills)));
    }

    /** Decision by decision: groups are taken from the left of the queue. */
    ghost predicate Logged(start: seq<Id>, rest: seq<Id>, before: Spent, after: Spent, log: seq<Decision>)
    {
      && start == LogIds(log) + rest
      && Chained(log, before, Bounds(), groups) && after == SpentAfter(log, before, Bounds(), groups)
    }

    lemma NothingLogged(start: seq<Id>, before: Spent)
      ensures Logged(start, start, before, before, [])
      ensures LogBatch([], groups, false) == [] && LogBatch([], groups, true) == []
      ensures LogIds([]) == [] && LogFates([]) == []
    {
      assert [] + start == start;
    }

    lemma LogOne(start: seq<Id>, rest: seq<Id>, before: Spent, log: seq<Decision>, d: Decision)
      requires |rest| > 0 && d.id == rest[0] && Logged(start, rest, before, d.before, log)
      ensures Logged(start, rest[1..], before, SpentBy(d, LoraOf(Bounds(), groups(d.id))), log + [d])
      ensures LogIds(log + [d]) == LogIds(log) + [d.id] && LogFates(log + [d]) == LogFates(log) + [d.fate]
      ensures forall p :: LogBatch(log + [d], groups, p) ==
                if d.fate == Taken && groups(d.id).prefill == p
                then LogBatch(log, groups, p) + [Scheduled(d.id, d.chunk)] else LogBatch(log, groups, p)
    {
      LogMore(log, d, before, Bounds(), groups);
      assert rest == [rest[0]] + rest[1..];
    }

    /** The pass over the swapped queue under way: it began at start with b0 and s0. */
    ghost predicate SwapMidway(budget: SchedulingBudget, b0: Budget, s0: Spent, start: seq<Id>, answers: Answers,
        loras: set<int>, leftover: seq<Id>, log: seq<Decision>, infeasible: seq<Id>, decodes: seq<Scheduled>,
        prefills: seq<Scheduled>)
      reads this`swapped, budget
    {
      && GroupsOk() && budget.Valid() && budget.tokenBudget == config.chunkTokens && budget.maxSeqs == maxSeqs
      && Batched(b0, budget.Value(), decodes, prefills, budget.tokenBudget) && budget.physical >= 0
      && budget.seqRequests == budget.tokenRequests && budget.tokenRequests !! Members(swapped) && Distinct(swapped)
      && Passed(start, swapped, leftover, LogIds(log), LogFates(log), infeasible, decodes, prefills)
      && Logged(start, swapped, s0, Spent(budget.physical, budget.seqs, loras), log)
      && decodes == LogBatch(log, groups, false) && prefills == LogBatch(log, groups, true)
      && (forall d | d in log :: DecidedSwapped(Bounds(), answers, groups(d.id), d))
      && ChunksFit(decodes, groups) && ChunksFit(prefills, groups)
      && Stage(decodes, groups, false) && Stage(prefills, groups, true)
    }

    lemma SwapStarts(budget: SchedulingBudget, answers: Answers, loras: set<int>)
      requires GroupsOk() && budget.Valid() && budget.tokenBudget == config.chunkTokens && budget.maxSeqs == maxSeqs
      requires Distinct(swapped) && budget.tokenRequests !! Members(swapped)
      requires budget.seqRequests == budget.tokenRequests && 0 <= budget.physical <= budget.tokenBudget
      ensures SwapMidway(budget, budget.Value(), Spent(budget.physical, budget.seqs, loras), swapped, answers, loras,
                         [], [], [], [], [])
    {
      BatchStarts(budget.Value(), budget.tokenBudget);
      NothingPassed(swapped);
      NothingLogged(swapped, Spent(budget.physical, budget.seqs, loras));
      NothingStaged(groups);
    }

    /** The head of the swapped queue is passed over. */
    method PassSwapped(budget: SchedulingBudget, ghost b0: Budget, ghost s0: Spent, ghost start: seq<Id>,
        ghost answers: Answers, ghost loras: set<int>, leftover: seq<Id>, ghost log: seq<Decision>,
        infeasible: seq<Id>, ghost decodes: seq<Scheduled>, ghost prefills: seq<Scheduled>, skipped: bool)
        returns (leftover': seq<Id>, infeasible': seq<Id>, ghost log': seq<Decision>)
      requires SwapMidway(budget, b0, s0, start, answers, loras, leftover, log, infeasible, decodes, prefills)
      requires |swapped| > 0
      requires DecidedSwapped(Bounds(), answers, groups(swapped[0]), Decision(swapped[0],
          Spent(budget.physical, budget.seqs, loras), if skipped then Skipped else Ignored, 0, 0))
      modifies this`swapped
      ensures swapped == old(swapped)[1..]
      ensures SwapMidway(budget, b0, s0, start, answers, loras, leftover', log', infeasible', decodes, prefills)
    {
      hide Logged, LogBatch, Batched, Passed, Total, Distinct, Reverse, Ids, DecidedSwapped, ChunksFit, Stage, Members;
      var id := swapped[0];
      ghost var fate := if skipped then Skipped else Ignored;
      ghost var d := Decision(id, Spent(budget.physical, budget.seqs, loras), fate, 0, 0);
      PassOne(start, swapped, leftover, LogIds(log), LogFates(log), infeasible, decodes, prefills, fate);
      LogOne(start, swapped, s0, log, d);
      HeadLeaves(swapped);
      if skipped {
        leftover', infeasible' := [id] + leftover, infeasible;
      } else {
        leftover', infeasible' := leftover, infeasible + [id];
      }
      log' := log + [d];
      swapped := swapped[1..];
    }

    /** The head of the swapped queue comes back. */
    method TakeSwapped(budget: SchedulingBudget, ghost b0: Budget, ghost s0: Spent, ghost start: seq<Id>,
        ghost answers: Answers, loras: set<int>, ghost leftover: seq<Id>, ghost log: seq<Decision>,
        ghost infeasible: seq<Id>, decodes: seq<Scheduled>, prefills: seq<Scheduled>)
        returns (loras': set<int>, decodes': seq<Scheduled>, prefills': seq<Scheduled>, ghost log': seq<Decision>)
      requires SwapMidway(budget, b0, s0, start, answers, loras, leftover, log, infeasible, decodes, prefills)
      requires |swapped| > 0 && var n := NewTokens(groups(swapped[0]));
               DecidedSwapped(Bounds(), answers, groups(swapped[0]),
                              Decision(swapped[0], Spent(budget.physical, budget.seqs, loras), Taken, n, n))
      modifies this`swapped, budget
      ensures swapped == old(swapped)[1..]
      ensures SwapMidway(budget, b0, s0, start, answers, loras', leftover, log', infeasible, decodes', prefills')
    {
      hide Logged, LogBatch, Batched, Passed, Total, Distinct, Reverse, Ids, Members;
      var id := swapped[0];
      var g := groups(id);
      var n := NewTokens(g);
      var x := Scheduled(id, n);
      ghost var d := Decision(id, Spent(budget.physical, budget.seqs, loras), Taken, n, n);
      PassTaken(start, swapped, leftover, LogIds(log), LogFates(log), infeasible, decodes, prefills, x, g.prefill);
      LogOne(start, swapped, s0, log, d);
      HeadLeaves(swapped);
      loras' := if loraEnabled && g.lora > 0 then loras + {g.lora} else loras;
      log' := log + [d];
      swapped := swapped[1..];
      ghost var b := budget.Value();
      budget.AddTokens(id, n, n);
      budget.AddSeqs(id, 1);
      decodes', prefills' := decodes, prefills;
      if g.prefill {
        PrefillBatched(b0, b, decodes, prefills, budget.tokenBudget, x, n);
        prefills' := prefills + [x];
      } else {
        DecodeBatched(b0, b, decodes, prefills, budget.tokenBudget, x, n);
        decodes' := decodes + [x];
      }
    }

    /** Swapped groups come back from the left, whole, while they fit the budget. */
    method ScheduleSwapped(budget: SchedulingBudget, loras: set<int>, answers: Answers)
        returns (decodes: seq<Scheduled>, prefills: seq<Scheduled>, infeasible: seq<Id>, loras': set<int>,
            ghost log: seq<Decision>, ghost rest: seq<Id>)
      requires GroupsOk() && Distinct(swapped) && budget.Valid() && budget.tokenRequests !! Members(swapped)
              && budget.seqRequests == budget.tokenRequests
      requires 0 <= budget.physical <= budget.tokenBudget == config.chunkTokens && budget.maxSeqs == maxSeqs
      modifies this`swapped, budget
      ensures budget.Valid() && Batched(old(budget.Value()), budget.Value(), decodes, prefills, budget.tokenBudget)
      ensures budget.seqRequests == budget.tokenRequests <= old(budget.tokenRequests) + Members(old(swapped))
      ensures multiset(old(swapped))
              == multiset(swapped) + multiset(infeasible) + multiset(Ids(decodes)) + multiset(Ids(prefills))
      ensures Subsequence(swapped, old(swapped))
      ensures ChunksFit(decodes, groups) && ChunksFit(prefills, groups) && Stage(decodes, groups, false)
              && Stage(prefills, groups, true)
      ensures Logged(old(swapped), rest, Spent(old(budget.physical), old(budget.seqs), loras),
                     Spent(budget.physical, budget.seqs, loras'), log)
      ensures swapped == Chosen(log, Skipped) + rest && infeasible == Chosen(log, Ignored)
      ensures decodes == LogBatch(log, groups, false) && prefills == LogBatch(log, groups, true)
      ensures forall d | d in log :: DecidedSwapped(Bounds(), answers, groups(d.id), d)
      ensures StoppedSwapped(Bounds(), answers, groups, rest, Spent(budget.physical, budget.seqs, loras'))
    {
      hide Logged, LogBatch, Chosen, Batched, Passed, Total, Distinct, Select, Reverse, Subsequence, ExtendLeft, Ids,
          Members, SwapMidway, ChunksFit, Stage;
      decodes, prefills, infeasible, loras' := [], [], [], loras;
      var leftover: seq<Id> := [];
      ghost var start, b0, s0 := swapped, budget.Value(), Spent(budget.physical, budget.seqs, loras);
      log := [];
      SwapStarts(budget, answers, loras);
      while |swapped| > 0
        invariant SwapMidway(budget, b0, s0, start, answers, loras', leftover, log, infeasible, decodes, prefills)
        decreases |swapped|
      {
        SwapMeans(budget, b0, s0, start, answers, loras', leftover, log, infeasible, decodes, prefills);
        var id := swapped[0];
        var g := groups(id);
        var status := answers.canSwapIn(id);
        if status.Later? {
          break;
        }
        if status.Never? {
          leftover, infeasible, log := PassSwapped(budget, b0, s0, start, answers, loras', leftover, log, infeasible,
            decodes, prefills, false);
          continue;
        }
        if loraEnabled && g.lora > 0 && g.lora !in loras' && |loras'| >= maxLoras {
          leftover, infeasible, log := PassSwapped(budget, b0, s0, start, answers, loras', leftover, log, infeasible,
            decodes, prefills, true);
          continue;
        }
        if !budget.CanSchedule(NewTokens(g), 1) {
          break;
        }
        loras', decodes, prefills, log := TakeSwapped(budget, b0, s0, start, answers, loras', leftover, log,
          infeasible, decodes, prefills);
      }
      SwapMeans(budget, b0, s0, start, answers, loras', leftover, log, infeasible, decodes, prefills);
      PassEnds(start, swapped, leftover, LogIds(log), LogFates(log), infeasible, decodes, prefills);
      PassChosen(start, swapped, leftover, log, infeasible, decodes, prefills);
      BatchOf(b0, budget.Value(), decodes, prefills, budget.tokenBudget);
      rest := swapped;
      swapped := ExtendLeft(swapped, leftover);
    }

    lemma SwapMeans(budget: SchedulingBudget, b0: Budget, s0: Spent, start: seq<Id>, answers: Answers,
        loras: set<int>, leftover: seq<Id>, log: seq<Decision>, infeasible: seq<Id>, decodes: seq<Scheduled>,
        prefills: seq<Scheduled>)
      requires SwapMidway(budget, b0, s0, start, answers, loras, leftover, log, infeasible, decodes, prefills)
      ensures GroupsOk() && budget.Valid() && budget.tokenBudget == config.chunkTokens && budget.maxSeqs == maxSeqs
      ensures Batched(b0, budget.Value(), decodes, prefills, budget.tokenBudget)
      ensures budget.seqRequests == budget.tokenRequests
      ensures Passed(start, swapped, leftover, LogIds(log), LogFates(log), infeasible, decodes, prefills)
      ensures Logged(start, swapped, s0, Spent(budget.physical, budget.seqs, loras), log)
      ensures decodes == LogBatch(log, groups, false) && prefills == LogBatch(log, groups, true)
      ensures forall d | d in log :: DecidedSwapped(Bounds(), answers, groups(d.id), d)
      ensures ChunksFit(decodes, groups) && ChunksFit(prefills, groups)
      ensures Stage(decodes, groups, false) && Stage(prefills, groups, true)
    {
    }

    /** The pass over the waiting queue under way. */
    ghost predicate NewMidway(budget: SchedulingBudget, b0: Budget, s0: Spent, start: seq<Id>, answers: Answers,
        loras: set<int>, leftover: seq<Id>, log: seq<Decision>, ignored: seq<Id>, prefills: seq<Scheduled>)
      reads this`waiting, budget
    {
      && GroupsOk() && budget.Valid() && budget.tokenBudget == config.chunkTokens && budget.maxSeqs == maxSeqs
      && Batched(b0, budget.Value(), [], prefills, budget.tokenBudget) && budget.physical >= 0
      && budget.seqRequests == budget.tokenRequests && budget.tokenRequests !! Members(waiting) && Distinct(waiting)
      && (forall id | id in waiting :: groups(id).prefill && groups(id).computed == 0)
      && Passed(start, waiting, leftover, LogIds(log), LogFates(log), ignored, [], prefills)
      && Logged(start, waiting, s0, Spent(budget.physical, budget.seqs, loras), log)
      && prefills == LogBatch(log, groups, true)
      && (forall d | d in log :: DecidedNew(Bounds(), answers, groups(d.id), attach(d.id), d))
      && (forall i | 0 <= i < |log| :: answers.delayPassed(i))
      && AllFirst(prefills, config, groups, attach, budget.tokenBudget)
      && ChunksFit(prefills, groups) && Stage(prefills, groups, true)
    }

    lemma NewStarts(budget: SchedulingBudget, answers: Answers, loras: set<int>)
      requires GroupsOk() && budget.Valid() && budget.tokenBudget == config.chunkTokens && budget.maxSeqs == maxSeqs
      requires Distinct(waiting) && budget.tokenRequests !! Members(waiting)
      requires forall id | id in waiting :: groups(id).prefill && groups(id).computed == 0
      requires budget.seqRequests == budget.tokenRequests && 0 <= budget.physical <= budget.tokenBudget
      ensures NewMidway(budget, budget.Value(), Spent(budget.physical, budget.seqs, loras), waiting, answers, loras, [],
                        [], [], [])
    {
      BatchStarts(budget.Value(), budget.tokenBudget);
      NothingPassed(waiting);
      NothingLogged(waiting, Spent(budget.physical, budget.seqs, loras));
      NothingStaged(groups);
    }

    /** The head of the waiting queue is passed over. */
    method PassNew(budget: SchedulingBudget, ghost b0: Budget, ghost s0: Spent, ghost start: seq<Id>,
        ghost answers: Answers, ghost loras: set<int>, leftover: seq<Id>, ghost log: seq<Decision>,
        ignored: seq<Id>, ghost prefills: seq<Scheduled>, skipped: bool)
        returns (leftover': seq<Id>, ignored': seq<Id>, ghost log': seq<Decision>)
      requires NewMidway(budget, b0, s0, start, answers, loras, leftover, log, ignored, prefills)
      requires |waiting| > 0 && answers.delayPassed(|log|)
      requires DecidedNew(Bounds(), answers, groups(waiting[0]), attach(waiting[0]), Decision(waiting[0],
          Spent(budget.physical, budget.seqs, loras), if skipped then Skipped else Ignored, 0, 0))
      modifies this`waiting
      ensures waiting == old(waiting)[1..] && |log'| == |log| + 1
      ensures NewMidway(budget, b0, s0, start, answers, loras, leftover', log', ignored', prefills)
    {
      hide Logged, LogBatch, Batched, Passed, Total, Distinct, Reverse, Ids, DecidedNew, ChunksFit, Stage, AllFirst,
          Members;
      var id := waiting[0];
      ghost var fate := if skipped then Skipped else Ignored;
      ghost var d := Decision(id, Spent(budget.physical, budget.seqs, loras), fate, 0, 0);
      PassOne(start, waiting, leftover, LogIds(log), LogFates(log), ignored, [], prefills, fate);
      LogOne(start, waiting, s0, log, d);
      HeadLeaves(waiting);
      if skipped {
        leftover', ignored' := [id] + leftover, ignored;
      } else {
        leftover', ignored' := leftover, ignored + [id];
      }
      log' := log + [d];
      waiting := waiting[1..];
    }

    /** The head of the waiting queue starts its prefill: it may resume at a saved state, and stops at the first state
        it has to leave behind. */
    method TakeNew(budget: SchedulingBudget, n: int, ghost b0: Budget, ghost s0: Spent, ghost start: seq<Id>,
        ghost answers: Answers, loras: set<int>, ghost leftover: seq<Id>, ghost log: seq<Decision>,
        ghost ignored: seq<Id>, prefills: seq<Scheduled>)
        returns (loras': set<int>, prefills': seq<Scheduled>, ghost log': seq<Decision>)
      requires NewMidway(budget, b0, s0, start, answers, loras, leftover, log, ignored, prefills)
      requires |waiting| > 0 && answers.delayPassed(|log|)
      requires var g, spent := groups(waiting[0]), Spent(budget.physical, budget.seqs, loras);
               && n == Ask(Bounds(), spent, g) && n <= promptLimit && answers.canAllocate(waiting[0]) == Now
               && !NoLoraSlot(Bounds(), loras, g) && BatchDecisions.Fits(Bounds(), spent, n)
      modifies this`waiting, budget
      ensures waiting == old(waiting)[1..] && |log'| == |log| + 1
      ensures NewMidway(budget, b0, s0, start, answers, loras', leftover, log', ignored, prefills')
    {
      hide Logged, LogBatch, Batched, Passed, Total, Distinct, Reverse, Ids, Members, PlanFastForward, CapStep,
          NumNewTokens, PlannedFirst, FirstStep;
      var id := waiting[0];
      var g, a := groups(id), attach(id);
      FirstIsPlanned(config, g, a, n, budget.Remaining(), budget.tokenBudget);
      var plan := PlanFastForward(a.restore, g.computed, g.length, n, budget.Remaining(), config.blockSize,
                                  if config.mode.Hybrid64? then Some(config.chunkTokens) else None);
      var step := CapStep(config, a.targets, g.computed, plan.logical, plan.physical);
      var x := Scheduled(id, step.end - g.computed);
      ghost var d := Decision(id, Spent(budget.physical, budget.seqs, loras), Taken, x.chunk, step.counted);
      PassTaken(start, waiting, leftover, LogIds(log), LogFates(log), ignored, [], prefills, x, true);
      LogOne(start, waiting, s0, log, d);
      HeadLeaves(waiting);
      loras' := if loraEnabled && g.lora > 0 then loras + {g.lora} else loras;
      log' := log + [d];
      waiting := waiting[1..];
      ghost var b := budget.Value();
      budget.AddTokens(id, step.counted, x.chunk);
      budget.AddSeqs(id, 1);
      PrefillBatched(b0, b, [], prefills, budget.tokenBudget, x, step.counted);
      prefills' := prefills + [x];
    }

    /** New prefills start from the left of the waiting queue. */
    method SchedulePrefills(budget: SchedulingBudget, loras: set<int>, answers: Answers)
        returns (prefills: seq<Scheduled>, ignored: seq<Id>, ghost log: seq<Decision>, ghost rest: seq<Id>,
            ghost after: Spent)
      requires GroupsOk() && Distinct(waiting)
      requires forall id | id in waiting :: groups(id).prefill && groups(id).computed == 0
      requires budget.Valid() && budget.tokenRequests !! Members(waiting) && budget.seqRequests == budget.tokenRequests
      requires 0 <= budget.physical <= budget.tokenBudget == config.chunkTokens && budget.maxSeqs == maxSeqs
      modifies this`waiting, budget
      ensures budget.Valid() && Batched(old(budget.Value()), budget.Value(), [], prefills, budget.tokenBudget)
      ensures multiset(old(waiting)) == multiset(waiting) + multiset(ignored) + multiset(Ids(prefills))
      ensures Subsequence(waiting, old(waiting))
      ensures AllFirst(prefills, config, groups, attach, budget.tokenBudget)
      ensures ChunksFit(prefills, groups) && Stage(prefills, groups, true)
      ensures Logged(old(waiting), rest, Spent(old(budget.physical), old(budget.seqs), loras), after, log)
      ensures after.physical == budget.physical && after.seqs == budget.seqs
      ensures waiting == Chosen(log, Skipped) + rest && ignored == Chosen(log, Ignored)
      ensures prefills == LogBatch(log, groups, true)
      ensures forall d | d in log :: DecidedNew(Bounds(), answers, groups(d.id), attach(d.id), d)
      ensures forall i | 0 <= i < |log| :: answers.delayPassed(i)
      ensures StoppedNew(Bounds(), answers, groups, rest, after, |log|)
    {
      hide Logged, LogBatch, Chosen, Batched, Passed, Total, Distinct, Select, Reverse, Subsequence, ExtendLeft, Ids,
          Members, NewMidway, ChunksFit, Stage, AllFirst, StoppedNew, DecidedNew;
      NoIds();
      prefills, ignored := [], [];
      var leftover: seq<Id>, curr, turn, stuck := [], loras, 0, false;
      ghost var start, b0, s0 := waiting, budget.Value(), Spent(budget.physical, budget.seqs, loras);
      log := [];
      NewStarts(budget, answers, loras);
      while !stuck && answers.delayPassed(turn) && |waiting| > 0
        invariant turn == |log|
        invariant NewMidway(budget, b0, s0, start, answers, curr, leftover, log, ignored, prefills)
        invariant stuck ==>
            StoppedNew(Bounds(), answers, groups, waiting, Spent(budget.physical, budget.seqs, curr), |log|)
        decreases |waiting|, if stuck then 0 else 1
      {
        stuck, curr, leftover, ignored, prefills, log :=
          OneNew(budget, b0, s0, start, answers, curr, leftover, log, ignored, prefills);
        if !stuck {
          turn := turn + 1;
        }
      }
      NewMeans(budget, b0, s0, start, answers, curr, leftover, log, ignored, prefills);
      PassEnds(start, waiting, leftover, LogIds(log), LogFates(log), ignored, [], prefills);
      PassChosen(start, waiting, leftover, log, ignored, [], prefills);
      rest, after := waiting, Spent(budget.physical, budget.seqs, curr);
      if !stuck {
        NothingLeft(answers, rest, after, turn);
      }
      waiting := ExtendLeft(waiting, leftover);
    }

    lemma NothingLeft(answers: Answers, rest: seq<Id>, after: Spent, turn: nat)
      requires GroupsOk() && (rest == [] || !answers.delayPassed(turn))
      ensures StoppedNew(Bounds(), answers, groups, rest, after, turn)
    {
    }

    /** What becomes of the head of the waiting queue; stuck if the pass has to stop at it. */
    method OneNew(budget: SchedulingBudget, ghost b0: Budget, ghost s0: Spent, ghost start: seq<Id>, answers: Answers,
        loras: set<int>, leftover: seq<Id>, ghost log: seq<Decision>, ignored: seq<Id>, prefills: seq<Scheduled>)
        returns (stuck: bool, loras': set<int>, leftover': seq<Id>, ignored': seq<Id>, prefills': seq<Scheduled>,
            ghost log': seq<Decision>)
      requires NewMidway(budget, b0, s0, start, answers, loras, leftover, log, ignored, prefills)
      requires |waiting| > 0 && answers.delayPassed(|log|)
      modifies this`waiting, budget
      ensures NewMidway(budget, b0, s0, start, answers, loras', leftover', log', ignored', prefills')
      ensures if stuck then waiting == old(waiting) && log' == log
              else |waiting| < old(|waiting|) && |log'| == |log| + 1
      ensures stuck ==>
                StoppedNew(Bounds(), answers, groups, waiting, Spent(budget.physical, budget.seqs, loras'), |log|)
    {
      hide Logged, LogBatch, Batched, Passed, Total, Distinct, Reverse, NumNewTokens, Ids, Members, NewMidway,
          ChunksFit, Stage, AllFirst;
      NewMeans(budget, b0, s0, start, answers, loras, leftover, log, ignored, prefills);
      stuck, loras', leftover', ignored', prefills', log' := false, loras, leftover, ignored, prefills, log;
      var id := waiting[0];
      var g := groups(id);
      var n := NumNewTokens(NewTokens(g), budget.Remaining(), config.blockSize);
      RunningTokens(config, b0, budget.Value(), [], prefills, g, budget.tokenBudget);
      var status := answers.canAllocate(id);
      if n <= promptLimit && status.Later? {
        stuck := true;
      } else if n > promptLimit || status.Never? {
        leftover', ignored', log' := PassNew(budget, b0, s0, start, answers, loras, leftover, log, ignored, prefills,
          false);
      } else if loraEnabled && g.lora > 0 && g.lora !in loras && |loras| >= maxLoras {
        leftover', ignored', log' := PassNew(budget, b0, s0, start, answers, loras, leftover, log, ignored, prefills,
          true);
      } else if n == 0 || !budget.CanSchedule(n, 1) {
        stuck := true;
      } else {
        loras', prefills', log' := TakeNew(budget, n, b0, s0, start, answers, loras, leftover, log, ignored, prefills);
      }
    }

    lemma NewMeans(budget: SchedulingBudget, b0: Budget, s0: Spent, start: seq<Id>, answers: Answers,
        loras: set<int>, leftover: seq<Id>, log: seq<Decision>, ignored: seq<Id>, prefills: seq<Scheduled>)
      requires NewMidway(budget, b0, s0, start, answers, loras, leftover, log, ignored, prefills)
      ensures GroupsOk() && budget.Valid() && budget.tokenBudget == config.chunkTokens && budget.maxSeqs == maxSeqs
      ensures Batched(b0, budget.Value(), [], prefills, budget.tokenBudget)
      ensures Passed(start, waiting, leftover, LogIds(log), LogFates(log), ignored, [], prefills)
      ensures Logged(start, waiting, s0, Spent(budget.physical, budget.seqs, loras), log)
      ensures prefills == LogBatch(log, groups, true)
      ensures forall d | d in log :: DecidedNew(Bounds(), answers, groups(d.id), attach(d.id), d)
      ensures forall i | 0 <= i < |log| :: answers.delayPassed(i)
      ensures AllFirst(prefills, config, groups, attach, budget.tokenBudget)
      ensures ChunksFit(prefills, groups) && Stage(prefills, groups, true)
    {
    }

    /** Each pass of a step decides group by group on what the passes before it left; swapped groups come back only if
        none had to make room. */
    ghost predicate StepDecided(W: seq<Id>, R: seq<Id>, S: seq<Id>, answers: Answers, log: StepLog)
      requires GroupsOk()
    {
      && RanAs(R, log.running, Spent(0, 0, {}), log.ran, answers, log.turns)
      && (if Left(log.turns) == [] then
            && Logged(S, log.swapped, log.ran, log.swappedIn, log.back)
            && (forall d | d in log.back :: DecidedSwapped(Bounds(), answers, groups(d.id), d))
            && StoppedSwapped(Bounds(), answers, groups, log.swapped, log.swappedIn)
          else log.back == [] && log.swapped == S && log.swappedIn == log.ran)
      && Logged(W, log.waiting, log.swappedIn, log.started, log.begun)
      && (forall d | d in log.begun :: DecidedNew(Bounds(), answers, groups(d.id), attach(d.id), d))
      && (forall i | 0 <= i < |log.begun| :: answers.delayPassed(i))
      && StoppedNew(Bounds(), answers, groups, log.waiting, log.started, |log.begun|)
    }

    /** The pass over the swapped queue, unless a group had to make room. */
    method SwapBack(budget: SchedulingBudget, loras: set<int>, answers: Answers, roomMade: bool)
        returns (decodes: seq<Scheduled>, prefills: seq<Scheduled>, infeasible: seq<Id>, loras': set<int>,
            ghost log: seq<Decision>, ghost rest: seq<Id>)
      requires GroupsOk() && Distinct(swapped) && budget.Valid() && budget.tokenRequests !! Members(swapped)
              && budget.seqRequests == budget.tokenRequests
      requires 0 <= budget.physical <= budget.tokenBudget == config.chunkTokens && budget.maxSeqs == maxSeqs
      modifies this`swapped, budget
      ensures budget.Valid() && Batched(old(budget.Value()), budget.Value(), decodes, prefills, budget.tokenBudget)
      ensures budget.seqRequests == budget.tokenRequests <= old(budget.tokenRequests) + Members(old(swapped))
      ensures multiset(old(swapped))
              == multiset(swapped) + multiset(infeasible) + multiset(Ids(decodes)) + multiset(Ids(prefills))
      ensures Subsequence(swapped, old(swapped))
      ensures ChunksFit(decodes, groups) && ChunksFit(prefills, groups) && Stage(decodes, groups, false)
              && Stage(prefills, groups, true)
      ensures swapped == Chosen(log, Skipped) + rest && infeasible == Chosen(log, Ignored)
      ensures decodes == LogBatch(log, groups, false) && prefills == LogBatch(log, groups, true)
      ensures var before, after := Spent(old(budget.physical), old(budget.seqs), loras),
                                   Spent(budget.physical, budget.seqs, loras');
              if roomMade then log == [] && rest == old(swapped) && after == before
              else
                && Logged(old(swapped), rest, before, after, log)
                && (forall d | d in log :: DecidedSwapped(Bounds(), answers, groups(d.id), d))
                && StoppedSwapped(Bounds(), answers, groups, rest, after)
    {
      hide Batched, Total, Distinct, Subsequence, Ids, Members, ChunksFit, Stage, Logged, DecidedSwapped,
          StoppedSwapped, LogBatch, Chosen;
      if roomMade {
        decodes, prefills, infeasible, loras', log, rest := [], [], [], loras, [], swapped;
        NothingStaged(groups);
        BatchStarts(budget.Value(), budget.tokenBudget);
        NothingSwapped(swapped);
        NoneBack(groups, swapped);
      } else {
        decodes, prefills, infeasible, loras', log, rest := ScheduleSwapped(budget, loras, answers);
      }
    }

    /** The three passes of one step: running groups, then swapped ones unless something was preempted, then
        new prefills. */
    method FillBatch(budget: SchedulingBudget, answers: Answers) returns (batch: Batch, ghost log: StepLog)
      requires Ready() && budget.Valid() && budget.Value() == Budget({}, {}, 0, 0, map[], 0)
              && budget.tokenBudget == config.chunkTokens && budget.maxSeqs == maxSeqs
      modifies this, budget
      ensures Split(old(waiting), old(running), old(swapped), waiting, running, swapped, batch)
      ensures InOrder(old(waiting), old(running), old(swapped), waiting, swapped, batch)
      ensures Staged(batch, groups)
      ensures budget.scheduled == Total(AllScheduled(batch)) && budget.physical <= budget.tokenBudget
              && budget.physical <= budget.scheduled
      ensures StepDecided(old(waiting), old(running), old(swapped), answers, log) && BatchIs(batch, log)
      ensures waiting == Chosen(log.begun, Skipped) + log.waiting && running == log.running
              && swapped == Chosen(log.back, Skipped) + log.swapped && budget.physical == log.started.physical
    {
      hide Batched, Total, Distinct, Reverse, ConfigOk, Subsequence, Ids, GroupOk, ChunksFit, Stage, AllScheduled,
          RanAs, Logged, DecidedSwapped, DecidedNew, StoppedSwapped, StoppedNew, LogBatch, TurnBatch, Left, OneMode,
          Chosen;
      DistinctParts(waiting, running, swapped);
      var decodes, prefills, preempted, swappedOut, loras, sDecodes, sPrefills, infeasible;
      ghost var turns, back, backRest, begun, begunRest, started;
      decodes, prefills, preempted, swappedOut, loras, turns := ScheduleRunning(budget, {}, answers);
      ghost var b1, ran := budget.Value(), Spent(budget.physical, budget.seqs, loras);
      WithinBudget(Budget({}, {}, 0, 0, map[], 0), b1, decodes, prefills, budget.tokenBudget);
      ModeCounts(Left(turns), recompute, preempted, swappedOut);
      sDecodes, sPrefills, infeasible, loras, back, backRest :=
        SwapBack(budget, loras, answers, |preempted| + |swappedOut| > 0);
      ghost var b2, swappedIn := budget.Value(), Spent(budget.physical, budget.seqs, loras);
      WithinBudget(b1, b2, sDecodes, sPrefills, budget.tokenBudget);
      var nPrefills, ignored;
      nPrefills, ignored, begun, begunRest, started := SchedulePrefills(budget, loras, answers);
      batch := Batch(decodes, prefills, sDecodes, sPrefills, nPrefills, preempted, swappedOut, ignored, infeasible);
      BatchTotal(b1, b2, budget.Value(), batch, budget.tokenBudget);
      log := StepLog(turns, running, ran, back, backRest, swappedIn, begun, begunRest, started);
    }

    /** What the passes collected, by their decisions. */
    ghost predicate BatchIs(b: Batch, log: StepLog) {
      && b.decodes == TurnBatch(log.turns, groups, false) && b.prefills == TurnBatch(log.turns, groups, true)
      && b.sDecodes == LogBatch(log.back, groups, false) && b.sPrefills == LogBatch(log.back, groups, true)
      && b.nPrefills == LogBatch(log.begun, groups, true)
      && b.ignored == Chosen(log.begun, Ignored) && b.infeasible == Chosen(log.back, Ignored)
      && OneMode(Left(log.turns), recompute, b.preempted, b.swappedOut)
    }

    /** Each group of the batch is one sequence, and none comes back or begins beyond the limit. */
    lemma SeqsUsed(W: seq<Id>, R: seq<Id>, S: seq<Id>, answers: Answers, log: StepLog)
      requires GroupsOk() && StepDecided(W, R, S, answers, log) && forall id | id in W :: groups(id).prefill
      ensures log.started.seqs == |TurnBatch(log.turns, groups, false)| + |TurnBatch(log.turns, groups, true)|
                + |LogBatch(log.back, groups, false)| + |LogBatch(log.back, groups, true)|
                + |LogBatch(log.begun, groups, true)|
      ensures log.started.seqs <= maxSeqs || (LogBatch(log.back, groups, false) == []
                && LogBatch(log.back, groups, true) == [] && LogBatch(log.begun, groups, true) == [])
    {
      hide TurnBatch, LogBatch, SpentAfter, SpentAfterTurns, StoppedNew, StoppedSwapped, StoppedRunning;
      SpentByTurns(log.turns, Spent(0, 0, {}), groups);
      SpentMeans(log.back, log.ran, Bounds(), groups);
      SpentMeans(log.begun, log.swappedIn, Bounds(), groups);
      NoneBack(groups, S);
      forall d | d in log.begun
        ensures groups(d.id).prefill
      {
        var i :| 0 <= i < |log.begun| && log.begun[i] == d;
        assert W[i] == LogIds(log.begun)[i] == d.id;
      }
      OnlyPrefills(log.begun, groups);
      if Left(log.turns) == [] {
        SeqsWithin(log.back, log.ran, Bounds(), groups);
      }
      SeqsWithin(log.begun, log.swappedIn, Bounds(), groups);
    }

    /** What becomes of the waiting group at position i once the pass has come so far, from what is used up by then and
        the answers alone. */
    lemma WaitingFate(W: seq<Id>, R: seq<Id>, S: seq<Id>, answers: Answers, log: StepLog, i: nat)
      requires GroupsOk() && StepDecided(W, R, S, answers, log) && i <= |log.begun| && i < |W|
      ensures var g, reached := groups(W[i]), i < |log.begun|;
              var s := if reached then log.begun[i].before else log.started;
              var left, wanted := config.chunkTokens - s.physical, if g.prefill then g.length - g.computed else 1;
              var n := if left < wanted then left / config.blockSize * config.blockSize else wanted;
              if !answers.delayPassed(i) then !reached
              else if n > promptLimit || answers.canAllocate(W[i]) == Never then
                reached && log.begun[i].fate == Ignored
              else if answers.canAllocate(W[i]) == Later then !reached
              else if loraEnabled && g.lora > 0 && g.lora !in s.loras && |s.loras| >= maxLoras then
                reached && log.begun[i].fate == Skipped
              else if 0 < n <= left && s.seqs < maxSeqs then
                && reached && log.begun[i].fate == Taken
                && FirstStep(config, attach(W[i]), g.length, left) == Step(log.begun[i].chunk, log.begun[i].tokens)
              else !reached
    {
      hide RanAs, FirstStep, SpentAfter, Chained, DecidedSwapped, StoppedSwapped, LogBatch, TurnBatch;
      if i < |log.begun| {
        var d := log.begun[i];
        assert W[i] == LogIds(log.begun)[i] == d.id && d in log.begun;
        assert DecidedNew(Bounds(), answers, groups(d.id), attach(d.id), d);
      } else {
        assert W[i] == log.waiting[0];
      }
    }

    /** The same for a swapped group, in a step in which no group had to make room. */
    lemma SwappedFate(W: seq<Id>, R: seq<Id>, S: seq<Id>, answers: Answers, log: StepLog, i: nat)
      requires GroupsOk() && StepDecided(W, R, S, answers, log) && Left(log.turns) == []
      requires i <= |log.back| && i < |S|
      ensures var g, reached := groups(S[i]), i < |log.back|;
              var s := if reached then log.back[i].before else log.swappedIn;
              var n := if g.prefill then g.length - g.computed else 1;
              if answers.canSwapIn(S[i]) == Never then reached && log.back[i].fate == Ignored
              else if answers.canSwapIn(S[i]) == Later then !reached
              else if loraEnabled && g.lora > 0 && g.lora !in s.loras && |s.loras| >= maxLoras then
                reached && log.back[i].fate == Skipped
              else if n <= config.chunkTokens - s.physical && s.seqs < maxSeqs then
                reached && log.back[i].fate == Taken && log.back[i].chunk == log.back[i].tokens == n
              else !reached
    {
      hide RanAs, SpentAfter, Chained, DecidedNew, StoppedNew, LogBatch, TurnBatch;
      if i < |log.back| {
        var d := log.back[i];
        assert S[i] == LogIds(log.back)[i] == d.id && d in log.back;
      } else {
        assert S[i] == log.swapped[0];
      }
    }

    /** Adapters: those of the running groups that stayed, then one more per group that brings its own, never beyond
        the limit. */
    lemma AdaptersUsed(W: seq<Id>, R: seq<Id>, S: seq<Id>, answers: Answers, log: StepLog)
      requires GroupsOk() && StepDecided(W, R, S, answers, log)
      ensures forall x :: x in log.ran.loras <==> x > 0 && Held(log.turns, groups, x)
      ensures log.started.loras == log.ran.loras || |log.started.loras| <= maxLoras
      ensures forall x :: x in log.started.loras <==>
                x in log.ran.loras
                || (loraEnabled && x > 0 && (TakenWith(log.back, groups, x) || TakenWith(log.begun, groups, x)))
    {
      hide SpentAfter, SpentAfterTurns, StoppedNew, StoppedSwapped, StoppedRunning, Held, Fits, TurnBatch, LogBatch;
      forall x
        ensures x in log.ran.loras <==> x > 0 && Held(log.turns, groups, x)
      {
        AdaptersHeld(log.turns, Spent(0, 0, {}), groups, x);
      }
      SpentMeans(log.back, log.ran, Bounds(), groups);
      SpentMeans(log.begun, log.swappedIn, Bounds(), groups);
      if Left(log.turns) == [] {
        AdaptersWithin(log.back, log.ran, Bounds(), groups);
      }
      AdaptersWithin(log.begun, log.swappedIn, Bounds(), groups);
    }

    /** One scheduling step. Its decisions are those of StepDecided; the queues and the batch are put together from
        them. */
    method ScheduleChunkedPrefill(answers: Answers)
        returns (out: SchedulerOutputs, budget: SchedulingBudget, ghost log: StepLog)
      requires Ready()
      modifies this
      ensures StepDecided(old(waiting), old(running), old(swapped), answers, log)
      ensures waiting == (if recompute then Reverse(Left(log.turns)) else [])
                + (Chosen(log.begun, Skipped) + log.waiting)
      ensures swapped == Chosen(log.back, Skipped) + log.swapped + if recompute then [] else Left(log.turns)
      ensures running == log.running
                + Ids(LogBatch(log.back, groups, false)) + Ids(LogBatch(log.back, groups, true))
                + Ids(TurnBatch(log.turns, groups, false)) + Ids(TurnBatch(log.turns, groups, true))
                + Ids(LogBatch(log.begun, groups, true))
      ensures out.scheduled == LogBatch(log.begun, groups, true) + TurnBatch(log.turns, groups, true)
                + LogBatch(log.back, groups, true) + TurnBatch(log.turns, groups, false)
                + LogBatch(log.back, groups, false)
      ensures out.ignored == Chosen(log.begun, Ignored) + Chosen(log.back, Ignored)
      ensures out.preempted == |Left(log.turns)|
      ensures multiset(waiting) + multiset(running) + multiset(swapped) + multiset(out.ignored)
              == old(multiset(waiting) + multiset(running) + multiset(swapped))
      ensures exists k: nat, j: nat :: k + j == out.preempted && WaitingOrder(waiting, k, old(running), old(waiting))
                             && SwappedOrder(swapped, j, old(running), old(swapped))
      ensures forall x | x in out.scheduled :: x.id in running
      ensures ChunksFit(out.scheduled, groups)
      ensures out.prefillGroups <= |out.scheduled| && Stage(out.scheduled[..out.prefillGroups], groups, true)
              && Stage(out.scheduled[out.prefillGroups..], groups, false)
      ensures out.batchedTokens == Total(out.scheduled)
      ensures budget.physical == log.started.physical <= config.chunkTokens && budget.physical <= out.batchedTokens
    {
      hide Total, Distinct, Reverse, ConfigOk, Subsequence, WaitingOrder, SwappedOrder, ExtendLeft, Ids, GroupOk,
          ChunksFit, Stage, Split, InOrder, StepDecided, LogBatch, TurnBatch, Left, OneMode, Chosen;
      budget := new SchedulingBudget(config.chunkTokens, maxSeqs);
      ghost var W, R, S := waiting, running, swapped;
      var batch;
      batch, log := FillBatch(budget, answers);
      QueuesConserved(W, R, S, waiting, running, swapped, batch);
      OrderKept(W, R, S, waiting, swapped, batch);
      AllRunning(running, batch);
      PrefillsFirst(groups, batch);
      ModeCounts(Left(log.turns), recompute, batch.preempted, batch.swappedOut);
      Requeued(Left(log.turns), recompute, batch.preempted, waiting);
      waiting := ExtendLeft(waiting, batch.preempted);
      running := running + Ids(batch.sDecodes) + Ids(batch.sPrefills)
                 + Ids(batch.decodes) + Ids(batch.prefills) + Ids(batch.nPrefills);
      swapped := swapped + batch.swappedOut;
      out := SchedulerOutputs(AllScheduled(batch), |batch.nPrefills| + |batch.sPrefills| + |batch.prefills|,
          budget.scheduled, batch.ignored + batch.infeasible, |batch.preempted| + |batch.swappedOut|);
    }
  }

  /** The decisions of one step: the turns of the running groups, the swapped groups that came back and the fresh ones;
      with what each pass left of its queue and had used up. */
  datatype StepLog = StepLog(turns: seq<Turn>, running: seq<Id>, ran: Spent, back: seq<Decision>, swapped: seq<Id>,
                             swappedIn: Spent, begun: seq<Decision>, waiting: seq<Id>, started: Spent)

  lemma {:induction false} OnlyPrefills(log: seq<Decision>, groups: Id -> Group)
    requires forall d | d in log :: groups(d.id).prefill
    ensures LogBatch(log, groups, false) == []
  {
    if log != [] {
      assert log == log[..|log| - 1] + [log[|log| - 1]];
      OnlyPrefills(log[..|log| - 1], groups);
    }
  }

  lemma NoneBack(groups: Id -> Group, S: seq<Id>)
    ensures LogBatch([], groups, false) == [] && LogBatch([], groups, true) == []
    ensures Chosen([], Skipped) + S == S && Chosen([], Ignored) == []
  {
    assert [] + S == S;
  }

  lemma ModeCounts(victims: seq<Id>, recompute: bool, preempted: seq<Id>, swappedOut: seq<Id>)
    requires OneMode(victims, recompute, preempted, swappedOut)
    ensures |preempted| + |swappedOut| == |victims| && (|victims| == 0 <==> victims == [])
    ensures swappedOut == if recompute then [] else victims
    ensures preempted == if recompute then victims else []
  {
  }

  lemma Requeued(victims: seq<Id>, recompute: bool, preempted: seq<Id>, waiting: seq<Id>)
    requires preempted == if recompute then victims else []
    ensures ExtendLeft(waiting, preempted) == (if recompute then Reverse(victims) else []) + waiting
  {
  }

  lemma NothingPlanned(c: Config, groups: Id -> Group, attach: Id -> Attached, limit: int)
    requires ConfigOk(c)
    ensures AllNext([], c, groups, attach, limit)
  {
  }

  lemma NothingStaged(groups: Id -> Group)
    ensures ChunksFit([], groups) && Stage([], groups, true) && Stage([], groups, false)
  {
  }

  lemma NoIds()
    ensures Ids([]) == []
  {
  }

  /** The swapped queue when nothing is swapped in. */
  lemma NothingSwapped(S: seq<Id>)
    ensures multiset(S) == multiset(S) + multiset([]) + multiset(Ids([])) + multiset(Ids([])) && Subsequence(S, S)
  {
    EmptySubsequence([]);
    SubsequenceAppend([], [], S);
    assert [] + S == S;
  }

  /** What the passes of one step collected; s for swapped in, n for new. */
  datatype Batch = Batch(decodes: seq<Scheduled>, prefills: seq<Scheduled>, sDecodes: seq<Scheduled>,
      sPrefills: seq<Scheduled>,
                         nPrefills: seq<Scheduled>, preempted: seq<Id>, swappedOut: seq<Id>, ignored: seq<Id>,
                             infeasible: seq<Id>)

  function AllScheduled(b: Batch): seq<Scheduled> {
    b.nPrefills + b.prefills + b.sPrefills + b.decodes + b.sDecodes
  }

  ghost predicate Split(W: seq<Id>, R: seq<Id>, S: seq<Id>, waiting: seq<Id>, running: seq<Id>, swapped: seq<Id>,
      b: Batch) {
    && multiset(R) == multiset(running) + multiset(Ids(b.decodes)) + multiset(Ids(b.prefills))
                      + multiset(b.preempted) + multiset(b.swappedOut)
    && multiset(S) == multiset(swapped) + multiset(b.infeasible) + multiset(Ids(b.sDecodes))
                      + multiset(Ids(b.sPrefills))
    && multiset(W) == multiset(waiting) + multiset(b.ignored) + multiset(Ids(b.nPrefills))
  }

  ghost predicate InOrder(W: seq<Id>, R: seq<Id>, S: seq<Id>, waiting: seq<Id>, swapped: seq<Id>, b: Batch) {
    && Subsequence(Reverse(b.preempted), R) && Subsequence(Reverse(b.swappedOut), R)
    && Subsequence(waiting, W) && Subsequence(swapped, S)
  }

  ghost predicate Staged(b: Batch, groups: Id -> Group) {
    && Stage(b.nPrefills, groups, true) && Stage(b.prefills, groups, true) && Stage(b.sPrefills, groups, true)
    && Stage(b.decodes, groups, false) && Stage(b.sDecodes, groups, false)
    && ChunksFit(b.nPrefills, groups) && ChunksFit(b.prefills, groups) && ChunksFit(b.sPrefills, groups)
    && ChunksFit(b.decodes, groups) && ChunksFit(b.sDecodes, groups)
  }

  /** Nothing is lost and nothing appears twice. */
  lemma QueuesConserved(W: seq<Id>, R: seq<Id>, S: seq<Id>, waiting: seq<Id>, running: seq<Id>, swapped: seq<Id>,
      b: Batch)
    requires Split(W, R, S, waiting, running, swapped, b)
    ensures multiset(ExtendLeft(waiting, b.preempted))
            + multiset(running + Ids(b.sDecodes) + Ids(b.sPrefills) + Ids(b.decodes) + Ids(b.prefills)
                       + Ids(b.nPrefills))
            + multiset(swapped + b.swappedOut) + multiset(b.ignored + b.infeasible)
            == multiset(W) + multiset(R) + multiset(S)
  {
    hide Reverse, Ids;
    ReverseKeeps(b.preempted);
    var d: seq<Id>, p: seq<Id>, sd: seq<Id>, sp: seq<Id>, np: seq<Id> := Ids(b.decodes), Ids(b.prefills),
        Ids(b.sDecodes), Ids(b.sPrefills), Ids(b.nPrefills);
    forall id: Id
      ensures (multiset(Reverse(b.preempted)) + multiset(waiting))[id]
              + (multiset(running) + multiset(sd) + multiset(sp) + multiset(d) + multiset(p) + multiset(np))[id]
              + (multiset(swapped) + multiset(b.swappedOut))[id] + (multiset(b.ignored) + multiset(b.infeasible))[id]
              == multiset(W)[id] + multiset(R)[id] + multiset(S)[id]
    {
    }
  }

  lemma OrderKept(W: seq<Id>, R: seq<Id>, S: seq<Id>, waiting: seq<Id>, swapped: seq<Id>, b: Batch)
    requires InOrder(W, R, S, waiting, swapped, b)
    ensures WaitingOrder(ExtendLeft(waiting, b.preempted), |b.preempted|, R, W)
    ensures SwappedOrder(swapped + b.swappedOut, |b.swappedOut|, R, S)
  {
    hide Subsequence, Reverse;
    var w, s := ExtendLeft(waiting, b.preempted), swapped + b.swappedOut;
    assert w[..|b.preempted|] == Reverse(b.preempted) && w[|b.preempted|..] == waiting;
    assert s[..|swapped|] == swapped && s[|swapped|..] == b.swappedOut;
  }

  lemma BatchTotal(b1: Budget, b2: Budget, b3: Budget, b: Batch, limit: int)
    requires Batched(Budget({}, {}, 0, 0, map[], 0), b1, b.decodes, b.prefills, limit)
    requires Batched(b1, b2, b.sDecodes, b.sPrefills, limit) && Batched(b2, b3, [], b.nPrefills, limit)
    ensures b3.scheduled == Total(AllScheduled(b)) && b3.physical <= limit && b3.physical <= b3.scheduled
  {
    TotalAppend(b.nPrefills, b.prefills);
    TotalAppend(b.nPrefills + b.prefills, b.sPrefills);
    TotalAppend(b.nPrefills + b.prefills + b.sPrefills, b.decodes);
    TotalAppend(b.nPrefills + b.prefills + b.sPrefills + b.decodes, b.sDecodes);
    hide Ids;
  }

  lemma AllRunning(left: seq<Id>, b: Batch)
    ensures forall x | x in AllScheduled(b) ::
              x.id in left + Ids(b.sDecodes) + Ids(b.sPrefills) + Ids(b.decodes) + Ids(b.prefills) + Ids(b.nPrefills)
  {
    IdOf(b.decodes);
    IdOf(b.prefills);
    IdOf(b.sDecodes);
    IdOf(b.sPrefills);
    IdOf(b.nPrefills);
    hide Ids;
  }

  /** The batch lists every prefill before every decode. */
  lemma PrefillsFirst(groups: Id -> Group, b: Batch)
    requires Staged(b, groups)
    ensures var s, n := AllScheduled(b), |b.nPrefills| + |b.sPrefills| + |b.prefills|;
            ChunksFit(s, groups) && Stage(s[..n], groups, true) && Stage(s[n..], groups, false)
  {
    var prefills, decodes := b.nPrefills + b.prefills + b.sPrefills, b.decodes + b.sDecodes;
    var s := AllScheduled(b);
    assert s == prefills + decodes;
    assert s[..|prefills|] == prefills && s[|prefills|..] == decodes;
  }

  lemma IdOf(s: seq<Scheduled>)
    ensures forall x | x in s :: x.id in Ids(s)
  {
    assert forall i | 0 <= i < |s| :: Ids(s)[i] == s[i].id;
  }

  lemma WithinBudget(b0: Budget, b: Budget, decodes: seq<Scheduled>, prefills: seq<Scheduled>, limit: int)
    requires Batched(b0, b, decodes, prefills, limit)
    ensures b0.physical <= b.physical <= limit
  {
  }

  lemma BatchOf(b0: Budget, b: Budget, decodes: seq<Scheduled>, prefills: seq<Scheduled>, limit: int)
    requires Batched(b0, b, decodes, prefills, limit)
    ensures b.tokenRequests == b0.tokenRequests + Members(Ids(decodes)) + Members(Ids(prefills))
  {
  }

  lemma HeadLeaves(queue: seq<Id>)
    requires |queue| > 0 && Distinct(queue)
    ensures Distinct(queue[1..]) && queue[0] in Members(queue)
    ensures Members(queue[1..]) == Members(queue) - {queue[0]}
  {
    assert queue == [queue[0]] + queue[1..];
    assert forall i | 0 <= i < |queue[1..]| :: queue[1..][i] == queue[i + 1];
  }

  /** A pass returns every group of its queue exactly once, and what it skipped goes back in its old order. */
  lemma PassEnds(start: seq<Id>, queue: seq<Id>, leftover: seq<Id>, processed: seq<Id>, fates: seq<Fate>,
      ignored: seq<Id>,
                 decodes: seq<Scheduled>, prefills: seq<Scheduled>)
    requires Passed(start, queue, leftover, processed, fates, ignored, decodes, prefills)
    ensures var after := ExtendLeft(queue, leftover);
            && multiset(start) == multiset(after) + multiset(ignored) + multiset(Ids(decodes)) + multiset(Ids(prefills))
            && Subsequence(after, start)
    ensures Members(Ids(decodes)) <= Members(start) && Members(Ids(prefills)) <= Members(start)
  {
    hide Select, Subsequence;
    SelectSplits(processed, fates);
    SelectInOrder(processed, fates, Skipped);
    SubsequenceAppend(Select(processed, fates, Skipped), processed, queue);
    forall id | id in Ids(decodes) || id in Ids(prefills)
      ensures id in start
    {
      assert id in multiset(Ids(decodes)) + multiset(Ids(prefills));
      assert id in Count(processed, fates, Taken);
      assert id in multiset(processed);
    }
  }

  lemma PassChosen(start: seq<Id>, queue: seq<Id>, leftover: seq<Id>, log: seq<Decision>, ignored: seq<Id>,
      decodes: seq<Scheduled>, prefills: seq<Scheduled>)
    requires Passed(start, queue, leftover, LogIds(log), LogFates(log), ignored, decodes, prefills)
    ensures ExtendLeft(queue, leftover) == Chosen(log, Skipped) + queue && ignored == Chosen(log, Ignored)
  {
    hide Select, Reverse;
  }

  /** The victims' requests go back in their old running order. */
  lemma RunningSplit(start: seq<Id>, taken: seq<Id>, running: seq<Id>, victims: seq<Id>, recompute: bool,
                     preempted: seq<Id>, swappedOut: seq<Id>, d: multiset<Id>, p: multiset<Id>)
    requires start == taken + running + Reverse(victims) && OneMode(victims, recompute, preempted, swappedOut)
    requires d + p == multiset(taken)
    ensures multiset(start) == multiset(running) + d + p + multiset(preempted) + multiset(swappedOut)
    ensures Subsequence(Reverse(preempted), start) && Subsequence(Reverse(swappedOut), start)
    ensures Members(taken) <= Members(start)
  {
    hide Subsequence, Reverse;
    ReverseKeeps(victims);
    NothingReversed();
    EmptySubsequence(start);
    SubsequenceItself(Reverse(victims));
    SubsequenceLeft(Reverse(victims), taken + running, Reverse(victims));
    forall id | id in taken
      ensures id in start
    {
      assert id in taken + running;
    }
  }

  lemma SubsequenceItself(s: seq<Id>)
    ensures Subsequence(s, s)
  {
    EmptySubsequence([]);
    SubsequenceAppend([], [], s);
    assert [] + s == s;
  }

  /** A running group asks for no more than is left; a decode asks for its one token or nothing. */
  lemma RunningTokens(c: Config, b0: Budget, b: Budget, decodes: seq<Scheduled>, prefills: seq<Scheduled>, g: Group,
      limit: nat)
    requires ConfigOk(c) && GroupOk(g) && Batched(b0, b, decodes, prefills, limit)
    ensures var n := NumNewTokens(NewTokens(g), limit - b.physical, c.blockSize);
            0 <= n <= NewTokens(g) && n <= limit - b.physical
  {
    NumNewTokensFits(NewTokens(g), limit - b.physical, c.blockSize);
  }

  lemma HeadIsNew(start: seq<Id>, taken: seq<Id>, running: seq<Id>, back: seq<Id>)
    requires Distinct(start) && start == taken + running + back && |running| > 0
    ensures running[0] !in Members(taken)
  {
    assert forall i | 0 <= i < |taken| :: start[i] == taken[i];
    assert start[|taken|] == running[0];
  }

  /** The running queue after the victims behind id have left: id is taken, or is the last victim itself. */
  lemma QueueMoves(start: seq<Id>, taken: seq<Id>, id: Id, running: seq<Id>, victims: seq<Id>, behind: seq<Id>,
      alone: bool)
    requires start == taken + ([id] + (running + Reverse(behind))) + Reverse(victims) && (alone ==> running == [])
    ensures var all := victims + Victims(behind, id, alone);
            start == (if alone then taken else taken + [id]) + running + Reverse(all)
  {
    hide Reverse;
    ReverseConcat(victims, behind);
    if alone {
      ReverseAppend(victims + behind, id);
      assert victims + (behind + [id]) == (victims + behind) + [id];
    }
  }

  /** What a pass over a queue from the left leaves: it stops somewhere, and puts back what it skipped. */
  ghost predicate Passed(start: seq<Id>, queue: seq<Id>, leftover: seq<Id>, processed: seq<Id>, fates: seq<Fate>,
      ignored: seq<Id>,
                         decodes: seq<Scheduled>, prefills: seq<Scheduled>)
  {
    && start == processed + queue && |fates| == |processed|
    && Reverse(leftover) == Select(processed, fates, Skipped) && ignored == Select(processed, fates, Ignored)
    && multiset(Ids(decodes)) + multiset(Ids(prefills)) == Count(processed, fates, Taken)
  }

  lemma NothingPassed(start: seq<Id>)
    ensures Passed(start, start, [], [], [], [], [], [])
  {
  }

  lemma PassOne(start: seq<Id>, queue: seq<Id>, leftover: seq<Id>, processed: seq<Id>, fates: seq<Fate>,
      ignored: seq<Id>,
                decodes: seq<Scheduled>, prefills: seq<Scheduled>, fate: Fate)
    requires Passed(start, queue, leftover, processed, fates, ignored, decodes, prefills) && |queue| > 0
    requires fate == Skipped || fate == Ignored
    ensures var id := queue[0];
            Passed(start, queue[1..], if fate == Skipped then [id] + leftover else leftover, processed + [id],
                fates + [fate],
                   if fate == Ignored then ignored + [id] else ignored, decodes, prefills)
  {
    hide Select;
    var id := queue[0];
    FateSelected(start, queue, processed, fates, fate);
    assert Select(processed, fates, Skipped) + [] == Select(processed, fates, Skipped) && ignored + [] == ignored;
    assert Select(processed, fates, Taken) + [] == Select(processed, fates, Taken);
    assert ([id] + leftover)[1..] == leftover;
  }

  lemma PassTaken(start: seq<Id>, queue: seq<Id>, leftover: seq<Id>, processed: seq<Id>, fates: seq<Fate>,
      ignored: seq<Id>,
                  decodes: seq<Scheduled>, prefills: seq<Scheduled>, x: Scheduled, prefill: bool)
    requires Passed(start, queue, leftover, processed, fates, ignored, decodes, prefills) && |queue| > 0
            && x.id == queue[0]
    ensures Passed(start, queue[1..], leftover, processed + [x.id], fates + [Taken], ignored,
                   if prefill then decodes else decodes + [x], if prefill then prefills + [x] else prefills)
  {
    hide Select, Reverse, Ids;
    FateSelected(start, queue, processed, fates, Taken);
    assert Select(processed, fates, Skipped) + [] == Select(processed, fates, Skipped) && ignored + [] == ignored;
    OneMore(decodes, x);
    OneMore(prefills, x);
  }

  lemma FateSelected(start: seq<Id>, queue: seq<Id>, processed: seq<Id>, fates: seq<Fate>, fate: Fate)
    requires |queue| > 0 && start == processed + queue && |fates| == |processed|
    ensures start == processed + [queue[0]] + queue[1..]
    ensures forall f :: Select(processed + [queue[0]], fates + [fate], f) == Select(processed, fates,
            f) + if fate == f then [queue[0]] else []
  {
    hide Select;
    assert queue == [queue[0]] + queue[1..];
    forall f
      ensures Select(processed + [queue[0]], fates + [fate], f) == Select(processed, fates,
              f) + if fate == f then [queue[0]] else []
    {
      SelectMore(processed, fates, queue[0], fate, f);
    }
  }

  /** All victims are preempted in one way. */
  ghost predicate OneMode(victims: seq<Id>, recompute: bool, preempted: seq<Id>, swappedOut: seq<Id>) {
    if recompute then preempted == victims && swappedOut == [] else preempted == [] && swappedOut == victims
  }

  lemma OneModeOn(v: seq<Id>, w: seq<Id>, recompute: bool, p: seq<Id>, s: seq<Id>, p': seq<Id>, s': seq<Id>)
    requires OneMode(v, recompute, p, s) && OneMode(w, recompute, p', s')
    ensures OneMode(v + w, recompute, p + p', s + s')
  {
  }

  lemma NothingPreempted()
    ensures Reverse([]) == []
    ensures forall r :: OneMode([], r, [], [])
  {
  }

  lemma TakeLast(start: seq<Id>, running: seq<Id>, behind: seq<Id>, victim: Id)
    requires start == running + Reverse(behind) && |running| > 0 && victim == running[|running| - 1]
    ensures start == running[..|running| - 1] + Reverse(behind + [victim])
  {
    hide Reverse;
    ReverseAppend(behind, victim);
    assert running == running[..|running| - 1] + [victim];
  }

  /** The first k groups were preempted for recomputation and stand in their old running order; the others keep
      their order behind them. */
  ghost predicate WaitingOrder(waiting: seq<Id>, k: nat, running: seq<Id>, before: seq<Id>) {
    k <= |waiting| && Subsequence(waiting[..k], running) && Subsequence(waiting[k..], before)
  }

  /** The last k groups were swapped out now, rightmost of the running queue first. */
  ghost predicate SwappedOrder(swapped: seq<Id>, k: nat, running: seq<Id>, before: seq<Id>) {
    k <= |swapped| && var n := |swapped| - k;
    Subsequence(swapped[..n], before) && Subsequence(Reverse(swapped[n..]), running)
  }
}
