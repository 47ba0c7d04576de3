/** The token and sequence budget of one scheduling step. */
module SchedulingBudgets {

  /** A request identifier. */
  type Id = nat

  /** physical counts tokens the worker will run, scheduled the logical progress reported for them. */
  datatype Budget = Budget(tokenRequests: set<Id>, seqRequests: set<Id>, physical: int, scheduled: int,
                           perRequest: map<Id, int>, seqs: int)

  function Added(b: Budget, id: Id, tokens: int, logical: int): Budget {
    if id in b.tokenRequests then b
    else b.(tokenRequests := b.tokenRequests + {id}, physical := b.physical + tokens,
            scheduled := b.scheduled + logical, perRequest := b.perRequest[id := logical])
  }

  function Subtracted(b: Budget, id: Id, tokens: int): Budget
    requires b.tokenRequests == b.perRequest.Keys
  {
    if id !in b.tokenRequests then b
    else b.(tokenRequests := b.tokenRequests - {id}, physical := b.physical - tokens,
            scheduled := b.scheduled - b.perRequest[id], perRequest := b.perRequest - {id})
  }

  function SeqsAdded(b: Budget, id: Id, n: int): Budget {
    if id in b.seqRequests then b else b.(seqRequests := b.seqRequests + {id}, seqs := b.seqs + n)
  }

  function SeqsSubtracted(b: Budget, id: Id, n: int): Budget {
    if id !in b.seqRequests then b else b.(seqRequests := b.seqRequests - {id}, seqs := b.seqs - n)
  }

  /** What a request adds counts once, however often it is added; taking it back restores the budget, although only
      the physical count is passed. */
  lemma TakingBack(b: Budget, id: Id, tokens: int, logical: int, n: int)
    requires b.tokenRequests == b.perRequest.Keys && id !in b.tokenRequests && id !in b.seqRequests
    ensures var a := SeqsAdded(Added(b, id, tokens, logical), id, n);
            && a.physical == b.physical + tokens && a.scheduled == b.scheduled + logical && a.seqs == b.seqs + n
            && (forall t, l :: Added(a, id, t, l) == a) && (forall k :: SeqsAdded(a, id, k) == a)
            && SeqsSubtracted(Subtracted(a, id, tokens), id, n) == b
  {
    assert b.perRequest[id := logical] - {id} == b.perRequest;
    assert b.tokenRequests + {id} - {id} == b.tokenRequests && b.seqRequests + {id} - {id} == b.seqRequests;
  }

  class SchedulingBudget {
    const tokenBudget: nat
    const maxSeqs: nat
    var tokenRequests: set<Id>
    var seqRequests: set<Id>
    var physical: int
    var scheduled: int
    var perRequest: map<Id, int>
    var seqs: int

    ghost function Value(): Budget
      reads this
    {
      Budget(tokenRequests, seqRequests, physical, scheduled, perRequest, seqs)
    }

    ghost predicate Valid()
      reads this
    {
      tokenRequests == perRequest.Keys
    }

    constructor (tokenBudget: nat, maxSeqs: nat)
      ensures Valid() && this.tokenBudget == tokenBudget && this.maxSeqs == maxSeqs
      ensures Value() == Budget({}, {}, 0, 0, map[], 0)
    {
      this.tokenBudget, this.maxSeqs := tokenBudget, maxSeqs;
      tokenRequests, seqRequests, physical, scheduled, perRequest, seqs := {}, {}, 0, 0, map[], 0;
    }

    function Remaining(): int
      reads this
    {
      tokenBudget - physical
    }

    predicate CanSchedule(tokens: int, newSeqs: int)
      requires tokens != 0 && newSeqs != 0
      reads this
    {
      physical + tokens <= tokenBudget && seqs + newSeqs <= maxSeqs
    }

    method AddTokens(id: Id, tokens: int, logical: int)
      requires Valid()
      modifies this
      ensures Valid() && Value() == Added(old(Value()), id, tokens, logical)
    {
      if id in tokenRequests {
        return;
      }
      tokenRequests := tokenRequests + {id};
      physical := physical + tokens;
      scheduled := scheduled + logical;
      perRequest := perRequest[id := logical];
    }

    method SubtractTokens(id: Id, tokens: int)
      requires Valid()
      modifies this
      ensures Valid() && Value() == Subtracted(old(Value()), id, tokens)
    {
      if id in tokenRequests {
        tokenRequests := tokenRequests - {id};
        physical := physical - tokens;
        scheduled := scheduled - perRequest[id];
        perRequest := perRequest - {id};
      }
    }

    method AddSeqs(id: Id, n: int)
      requires Valid()
      modifies this
      ensures Valid() && Value() == SeqsAdded(old(Value()), id, n)
    {
      if id in seqRequests {
        return;
      }
      seqRequests := seqRequests + {id};
      seqs := seqs + n;
    }

    method SubtractSeqs(id: Id, n: int)
      requires Valid()
      modifies this
      ensures Valid() && Value() == SeqsSubtracted(old(Value()), id, n)
    {
      if id in seqRequests {
        seqRequests := seqRequests - {id};
        seqs := seqs - n;
      }
    }
  }
}
