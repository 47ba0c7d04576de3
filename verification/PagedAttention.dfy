/** Prefix attention over a paged cache for one head and one value column: the query is split at the
    strict prefix boundary, context and current keys are visited in tiles, and each row keeps a running
    maximum, sum and output (online softmax). */
module PagedAttention {
  import opened IntFacts
  import opened RealSums

  datatype KV = KV(key: seq<real>, value: real)

  /** A score, or minus infinity where the causal mask applies. */
  datatype Score = NegInf | Finite(x: real)

  datatype Acc = Acc(max: Score, sum: real, out: real)

  const FRESH := Acc(NegInf, 0.0, 0.0)

  // ---------- full causal attention ----------

  datatype Seen = Seen(score: Score, value: real)

  function Weight(exp: real -> real, s: Score): real {
    if s.Finite? then exp(s.x) else 0.0
  }

  function TotalWeight(exp: real -> real, ks: seq<Seen>): real {
    if ks == [] then 0.0 else TotalWeight(exp, ks[..|ks| - 1]) + Weight(exp, ks[|ks| - 1].score)
  }

  function TotalValue(exp: real -> real, ks: seq<Seen>): real {
    if ks == [] then 0.0 else
      TotalValue(exp, ks[..|ks| - 1]) + Weight(exp, ks[|ks| - 1].score) * ks[|ks| - 1].value
  }

  /** How a query sees keys numbered from base; keys after limit are masked. */
  function See(d: nat, q: seq<real>, kvs: seq<KV>, base: nat, limit: nat): (ks: seq<Seen>)
    ensures |ks| == |kvs|
  {
    seq(|kvs|, i requires 0 <= i < |kvs| =>
      Seen(if base + i <= limit then Finite(Dot(d, q, kvs[i].key)) else NegInf, kvs[i].value))
  }

  /** Softmax-weighted mean of all given values. */
  ghost function Attention(exp: real -> real, d: nat, q: seq<real>, kvs: seq<KV>): real {
    var ks := See(d, q, kvs, 0, |kvs|);
    if TotalWeight(exp, ks) == 0.0 then 0.0 else TotalValue(exp, ks) / TotalWeight(exp, ks)
  }

  lemma {:induction false} TotalsAppend(exp: real -> real, a: seq<Seen>, b: seq<Seen>)
    ensures TotalWeight(exp, a + b) == TotalWeight(exp, a) + TotalWeight(exp, b)
    ensures TotalValue(exp, a + b) == TotalValue(exp, a) + TotalValue(exp, b)
  {
    if b == [] {
      assert a + b == a;
    } else {
      assert (a + b)[..|a + b| - 1] == a + b[..|b| - 1];
      TotalsAppend(exp, a, b[..|b| - 1]);
    }
  }

  lemma {:induction false} MaskedVanish(exp: real -> real, ks: seq<Seen>)
    requires forall i | 0 <= i < |ks| :: ks[i].score == NegInf
    ensures TotalWeight(exp, ks) == 0.0 && TotalValue(exp, ks) == 0.0
  {
    if ks != [] {
      MaskedVanish(exp, ks[..|ks| - 1]);
    }
  }

  lemma {:induction false} WeightsPositive(exp: real -> real, ks: seq<Seen>)
    requires IsExp(exp)
    ensures TotalWeight(exp, ks) >= 0.0
    ensures (exists i | 0 <= i < |ks| :: ks[i].score.Finite?) ==> TotalWeight(exp, ks) > 0.0
  {
    if ks != [] {
      WeightsPositive(exp, ks[..|ks| - 1]);
      var last := ks[|ks| - 1].score;
      assert last.Finite? ==> ExpPositive(exp, last.x);
    }
  }

  // ---------- online softmax ----------

  function Larger(a: Score, b: Score): Score {
    if a.NegInf? then b else if b.NegInf? then a else if a.x < b.x then b else a
  }

  function MaxScore(ks: seq<Seen>): Score {
    if ks == [] then NegInf else Larger(MaxScore(ks[..|ks| - 1]), ks[|ks| - 1].score)
  }

  /** exp(a - b); b is never minus infinity, so the difference is always defined. */
  function ExpDiff(exp: real -> real, a: Score, b: Score): real
    requires b.Finite?
  {
    if a.Finite? then exp(a.x - b.x) else 0.0
  }

  function SumExp(exp: real -> real, ks: seq<Seen>, max: Score): real
    requires max.Finite?
  {
    if ks == [] then 0.0 else SumExp(exp, ks[..|ks| - 1], max) + ExpDiff(exp, ks[|ks| - 1].score, max)
  }

  function SumExpValue(exp: real -> real, ks: seq<Seen>, max: Score): real
    requires max.Finite?
  {
    if ks == [] then 0.0 else
      SumExpValue(exp, ks[..|ks| - 1], max) + ExpDiff(exp, ks[|ks| - 1].score, max) * ks[|ks| - 1].value
  }

  function NewMax(a: Acc, ks: seq<Seen>): Score {
    Larger(a.max, MaxScore(ks))
  }

  /** One tile folded into the accumulator of one row. */
  function Update(exp: real -> real, a: Acc, ks: seq<Seen>): Acc
    requires NewMax(a, ks).Finite?
  {
    var max := NewMax(a, ks);
    var correction := ExpDiff(exp, a.max, max);
    Acc(max, a.sum * correction + SumExp(exp, ks, max), a.out * correction + SumExpValue(exp, ks, max))
  }

  /** The accumulator stands for all keys seen so far, rescaled by the running maximum. */
  ghost predicate Represents(exp: real -> real, a: Acc, ks: seq<Seen>) {
    && a.max == MaxScore(ks)
    && a.sum * Weight(exp, a.max) == TotalWeight(exp, ks)
    && a.out * Weight(exp, a.max) == TotalValue(exp, ks)
    && (a.max.NegInf? ==> a.sum == 0.0 && a.out == 0.0)
  }

  lemma {:induction false} MaxAppend(a: seq<Seen>, b: seq<Seen>)
    ensures MaxScore(a + b) == Larger(MaxScore(a), MaxScore(b))
  {
    if b == [] {
      assert a + b == a;
    } else {
      assert (a + b)[..|a + b| - 1] == a + b[..|b| - 1];
      MaxAppend(a, b[..|b| - 1]);
    }
  }

  lemma {:induction false} MaxFinite(ks: seq<Seen>, i: nat)
    requires i < |ks| && ks[i].score.Finite?
    ensures MaxScore(ks).Finite?
  {
    if i < |ks| - 1 {
      MaxFinite(ks[..|ks| - 1], i);
    }
  }

  /** The maximum is the largest finite score: no other is above it, and some key has it. */
  lemma {:induction false} MaxIsLargest(ks: seq<Seen>)
    ensures forall i | 0 <= i < |ks| && ks[i].score.Finite? :: MaxScore(ks).Finite? && ks[i].score.x <= MaxScore(ks).x
    ensures MaxScore(ks).Finite? ==> exists i :: 0 <= i < |ks| && ks[i].score == MaxScore(ks)
  {
    if ks != [] {
      var n := |ks| - 1;
      MaxIsLargest(ks[..n]);
      assert forall i | 0 <= i < n :: ks[i] == ks[..n][i];
      assert MaxScore(ks) == ks[n].score || MaxScore(ks) == MaxScore(ks[..n]);
    }
  }

  lemma Rescale(exp: real -> real, s: Score, max: Score)
    requires IsExp(exp) && max.Finite?
    ensures ExpDiff(exp, s, max) * Weight(exp, max) == Weight(exp, s)
  {
    if s.Finite? {
      assert ExpAdds(exp, s.x - max.x, max.x);
    }
  }

  lemma {:induction false} SumsRescale(exp: real -> real, ks: seq<Seen>, max: Score)
    requires IsExp(exp) && max.Finite?
    ensures SumExp(exp, ks, max) * Weight(exp, max) == TotalWeight(exp, ks)
    ensures SumExpValue(exp, ks, max) * Weight(exp, max) == TotalValue(exp, ks)
  {
    if ks != [] {
      var init, last := ks[..|ks| - 1], ks[|ks| - 1];
      SumsRescale(exp, init, max);
      Rescale(exp, last.score, max);
      var e, w := ExpDiff(exp, last.score, max), Weight(exp, max);
      Distribute(SumExp(exp, init, max), e, w);
      Distribute(SumExpValue(exp, init, max), e * last.value, w);
      assert e * last.value * w == (e * w) * last.value;
    }
  }

  lemma Carry(x: real, c: real, y: real, w: real, w': real, t: real, u: real)
    requires x * w == t && c * w' == w && y * w' == u
    ensures (x * c + y) * w' == t + u
  {
    assert (x * c + y) * w' == x * (c * w') + y * w';
  }

  /** Folding a tile in keeps the meaning of the accumulator. */
  lemma UpdateRepresents(exp: real -> real, a: Acc, seen: seq<Seen>, ks: seq<Seen>)
    requires IsExp(exp) && Represents(exp, a, seen) && NewMax(a, ks).Finite?
    ensures Represents(exp, Update(exp, a, ks), seen + ks)
  {
    hide MaxScore, TotalWeight, TotalValue, SumExp, SumExpValue, Weight, ExpDiff, IsExp;
    var max := NewMax(a, ks);
    MaxAppend(seen, ks);
    TotalsAppend(exp, seen, ks);
    SumsRescale(exp, ks, max);
    Rescale(exp, a.max, max);
    var c, w, w' := ExpDiff(exp, a.max, max), Weight(exp, a.max), Weight(exp, max);
    Carry(a.sum, c, SumExp(exp, ks, max), w, w', TotalWeight(exp, seen), TotalWeight(exp, ks));
    Carry(a.out, c, SumExpValue(exp, ks, max), w, w', TotalValue(exp, seen), TotalValue(exp, ks));
  }

  /** Dividing output by sum undoes the rescaling. */
  lemma QuotientIsSoftmax(exp: real -> real, a: Acc, seen: seq<Seen>)
    requires IsExp(exp) && Represents(exp, a, seen) && a.max.Finite?
    requires TotalWeight(exp, seen) > 0.0
    ensures a.sum != 0.0 && a.out / a.sum == TotalValue(exp, seen) / TotalWeight(exp, seen)
  {
    hide TotalWeight, TotalValue, MaxScore;
    assert ExpPositive(exp, a.max.x);
    var w := Weight(exp, a.max);
    CancelFactor(a.out, a.sum, w);
  }

  lemma CancelFactor(x: real, y: real, w: real)
    requires w > 0.0 && y * w > 0.0
    ensures y != 0.0 && (x * w) / (y * w) == x / y
  {
    assert y != 0.0;
    var q := x / y;
    assert x == q * y;
    assert x * w == q * (y * w);
  }

  // ---------- the running buffers of a segment ----------

  /** Row r of a segment whose first query has limit0 keys before it sees key j when j <= limit0 + r. */
  ghost predicate RowsRepresent(exp: real -> real, d: nat, qs: seq<seq<real>>, kvs: seq<KV>, limit0: nat,
      accs: seq<Acc>) {
    && |accs| == |qs|
    && forall r | 0 <= r < |qs| :: Represents(exp, accs[r], See(d, qs[r], kvs, 0, limit0 + r))
  }

  lemma SeeAppend(d: nat, q: seq<real>, a: seq<KV>, b: seq<KV>, limit: nat)
    ensures See(d, q, a + b, 0, limit) == See(d, q, a, 0, limit) + See(d, q, b, |a|, limit)
  {
  }

  /** The first key is never masked, so the running maximum is finite from the first tile on; and no update takes the
      exponential of a positive number, be it for a key of the tile or for the correction. */
  lemma NeverUndefined(exp: real -> real, d: nat, q: seq<real>, seen: seq<KV>, tile: seq<KV>, limit: nat, a: Acc)
    requires Represents(exp, a, See(d, q, seen, 0, limit)) && |tile| > 0
    ensures var ks := See(d, q, tile, |seen|, limit);
            && NewMax(a, ks).Finite?
            && (a.max.Finite? ==> a.max.x - NewMax(a, ks).x <= 0.0)
            && forall i | 0 <= i < |ks| && ks[i].score.Finite? :: ks[i].score.x - NewMax(a, ks).x <= 0.0
  {
    MaxIsLargest(See(d, q, tile, |seen|, limit));
    var all := See(d, q, seen + tile, 0, limit);
    SeeAppend(d, q, seen, tile, limit);
    MaxAppend(See(d, q, seen, 0, limit), See(d, q, tile, |seen|, limit));
    MaxFinite(all, 0);
  }

  /** One tile of keys numbered from base, folded into the accumulator of a row that sees keys up to limit. */
  function RowUpdate(exp: real -> real, d: nat, q: seq<real>, limit: nat, base: nat, a: Acc, tile: seq<KV>): Acc {
    var ks := See(d, q, tile, base, limit);
    if NewMax(a, ks).Finite? then Update(exp, a, ks) else a
  }

  class Buffers {
    var accs: array<Acc>

    constructor (rows: nat)
      ensures fresh(accs) && accs.Length == rows
      ensures forall r | 0 <= r < rows :: accs[r] == FRESH
    {
      accs := new Acc[rows](_ => FRESH);
    }

    /** Updates every row's maximum, sum and output in place. No row ever subtracts minus infinity
        from minus infinity: that is the precondition of Update, met at each call. */
    method UpdateOnlineSoftmax(exp: real -> real, d: nat, qs: seq<seq<real>>, tile: seq<KV>, base: nat, limit0: nat,
                               ghost seen: seq<KV>)
      requires IsExp(exp) && |tile| > 0 && base == |seen|
      requires RowsRepresent(exp, d, qs, seen, limit0, accs[..])
      modifies accs
      ensures accs == old(accs)
      ensures RowsRepresent(exp, d, qs, seen + tile, limit0, accs[..])
      ensures forall r | 0 <= r < accs.Length ::
                accs[r] == RowUpdate(exp, d, qs[r], limit0 + r, base, old(accs[r]), tile)
    {
      hide Represents, Update, MaxScore;
      for r := 0 to accs.Length
        invariant forall k | 0 <= k < r :: accs[k] == RowUpdate(exp, d, qs[k], limit0 + k, base, old(accs[k]), tile)
        invariant forall k | r <= k < accs.Length :: accs[k] == old(accs[k])
        invariant forall k | 0 <= k < r :: Represents(exp, accs[k], See(d, qs[k], seen + tile, 0, limit0 + k))
        invariant forall k | r <= k < accs.Length :: Represents(exp, accs[k], See(d, qs[k], seen, 0, limit0 + k))
      {
        var scores := See(d, qs[r], tile, base, limit0 + r);
        NeverUndefined(exp, d, qs[r], seen, tile, limit0 + r, accs[r]);
        UpdateRepresents(exp, accs[r], See(d, qs[r], seen, 0, limit0 + r), scores);
        SeeAppend(d, qs[r], seen, tile, limit0 + r);
        accs[r] := Update(exp, accs[r], scores);
      }
    }
  }

  // ---------- the paged context ----------

  /** Physical blocks of B entries each, and a block table long enough for n tokens. */
  predicate Covers(cache: seq<seq<KV>>, table: seq<nat>, B: nat, n: nat) {
    && B > 0 && (n + B - 1) / B <= |table|
    && (forall i | 0 <= i < |table| :: table[i] < |cache|)
    && (forall b | 0 <= b < |cache| :: |cache[b]| == B)
  }

  lemma BlockOf(B: nat, n: nat, p: nat, blocks: nat)
    requires B > 0 && p < n && (n + B - 1) / B <= blocks
    ensures 0 <= p / B < blocks && 0 <= p % B < B
  {
    assert p == (p / B) * B + p % B;
    assert n + B - 1 == ((n + B - 1) / B) * B + (n + B - 1) % B;
    MultiplesOrdered(p / B, (n + B - 1) / B, B);
  }

  /** The entry of logical token p. */
  function Entry(cache: seq<seq<KV>>, table: seq<nat>, B: nat, n: nat, p: nat): KV
    requires Covers(cache, table, B, n) && p < n
  {
    BlockOf(B, n, p, |table|);
    cache[table[p / B]][p % B]
  }

  function Context(cache: seq<seq<KV>>, table: seq<nat>, B: nat, n: nat): (c: seq<KV>)
    requires Covers(cache, table, B, n)
    ensures |c| == n
  {
    seq(n, p requires 0 <= p < n => Entry(cache, table, B, n, p))
  }

  /** The concatenation of the blocks first, ..., j - 1 of the table. */
  ghost predicate Gathered(cache: seq<seq<KV>>, table: seq<nat>, B: nat, n: nat, first: nat, j: nat, blocks: seq<KV>)
    requires Covers(cache, table, B, n)
  {
    && first <= j && |blocks| == (j - first) * B
    && forall i | 0 <= i < |blocks| && first * B + i < n :: blocks[i] == Entry(cache, table, B, n, first * B + i)
  }

  /** Gathers whole blocks and cuts the tokens [start, end) out of them. */
  method GatherTile(cache: seq<seq<KV>>, table: seq<nat>, B: nat, n: nat, start: nat, end: nat) returns (tile: seq<KV>)
    requires Covers(cache, table, B, n) && start < end <= n
    ensures tile == Context(cache, table, B, n)[start..end]
  {
    hide Gathered, Context, Entry;
    var first, last := start / B, (end + B - 1) / B;
    BlocksSpan(B, n, start, end);
    var blocks: seq<KV> := [];
    NothingGathered(cache, table, B, n, first);
    for j := first to last
      invariant Gathered(cache, table, B, n, first, j, blocks)
    {
      NextBlock(cache, table, B, n, first, j, blocks);
      blocks := blocks + cache[table[j]];
    }
    CutTile(cache, table, B, n, first, last, blocks, start, end);
    var offset := start - first * B;
    tile := blocks[offset..offset + (end - start)];
  }

  lemma NothingGathered(cache: seq<seq<KV>>, table: seq<nat>, B: nat, n: nat, first: nat)
    requires Covers(cache, table, B, n)
    ensures Gathered(cache, table, B, n, first, first, [])
  {
  }

  lemma CutTile(cache: seq<seq<KV>>, table: seq<nat>, B: nat, n: nat, first: nat, last: nat, blocks: seq<KV>,
      start: nat, end: nat)
    requires Covers(cache, table, B, n) && Gathered(cache, table, B, n, first, last, blocks)
    requires first * B <= start <= end <= n && end - first * B <= (last - first) * B
    ensures end - first * B <= |blocks|
    ensures blocks[start - first * B..start - first * B + (end - start)] == Context(cache, table, B, n)[start..end]
  {
    var offset := start - first * B;
    forall i | 0 <= i < end - start
      ensures blocks[offset..offset + (end - start)][i] == Context(cache, table, B, n)[start..end][i]
    {
      assert first * B + (offset + i) == start + i;
    }
  }

  lemma BlocksSpan(B: nat, n: nat, start: nat, end: nat)
    requires B > 0 && start < end <= n
    ensures var first, last := start / B, (end + B - 1) / B;
            first <= last <= (n + B - 1) / B && first * B <= start && end <= last * B
            && end - first * B <= (last - first) * B
  {
    var first, last, all := start / B, (end + B - 1) / B, (n + B - 1) / B;
    assert start == first * B + start % B;
    assert end + B - 1 == last * B + (end + B - 1) % B;
    assert n + B - 1 == all * B + (n + B - 1) % B;
    MultiplesOrdered(first, last, B);
    assert last * B < (all + 1) * B;
    MultiplesOrdered(last, all + 1, B);
    assert (last - first) * B == last * B - first * B;
  }

  lemma NextBlock(cache: seq<seq<KV>>, table: seq<nat>, B: nat, n: nat, first: nat, j: nat, blocks: seq<KV>)
    requires Covers(cache, table, B, n) && j < (n + B - 1) / B && Gathered(cache, table, B, n, first, j, blocks)
    ensures Gathered(cache, table, B, n, first, j + 1, blocks + cache[table[j]])
  {
    assert (j + 1 - first) * B == (j - first) * B + B;
    assert first * B + |blocks| == j * B;
    forall i | |blocks| <= i < |blocks| + B && first * B + i < n
      ensures (blocks + cache[table[j]])[i] == Entry(cache, table, B, n, first * B + i)
    {
      DivModUnique(first * B + i, j, i - |blocks|, B);
    }
  }

  // ---------- tiles ----------

  datatype Span = Span(blockStart: nat, blockEnd: nat, prefixStart: nat, prefixEnd: nat)

  function Past(a: nat, b: nat): nat {
    if a < b then 0 else a - b
  }

  function SpanAt(contextLen: nat, prefixLen: nat, T: nat, start: nat): Span {
    var end := Min(start + T, contextLen + prefixLen);
    Span(Min(start, contextLen), Min(end, contextLen), Past(start, contextLen), Past(end, contextLen))
  }

  method ContextTileSpans(contextLen: nat, prefixLen: nat, T: nat) returns (spans: seq<Span>)
    requires T > 0
    ensures spans == SpansFrom(contextLen, prefixLen, T, 0)
  {
    spans := [];
    var start := 0;
    while start < contextLen + prefixLen
      invariant spans + SpansFrom(contextLen, prefixLen, T, start) == SpansFrom(contextLen, prefixLen, T, 0)
      decreases contextLen + prefixLen - start
    {
      var end := Min(start + T, contextLen + prefixLen);
      spans := spans + [Span(Min(start, contextLen), Min(end, contextLen), Past(start, contextLen), Past(end,
          contextLen))];
      start := start + T;
    }
  }

  function SpansFrom(contextLen: nat, prefixLen: nat, T: nat, start: nat): seq<Span>
    requires T > 0
    decreases contextLen + prefixLen - start
  {
    if start >= contextLen + prefixLen then [] else
      [SpanAt(contextLen, prefixLen, T, start)] + SpansFrom(contextLen, prefixLen, T, start + T)
  }

  /** Keys cut at absolute multiples of T. */
  function TilesFrom(kvs: seq<KV>, T: nat, start: nat): seq<seq<KV>>
    requires T > 0
    decreases |kvs| - start
  {
    if start >= |kvs| then [] else [kvs[start..Min(start + T, |kvs|)]] + TilesFrom(kvs, T, start + T)
  }

  /** What one span selects: cached context tokens, then earlier tokens of the same query. */
  function Selected(context: seq<KV>, prefix: seq<KV>, s: Span): seq<KV>
    requires s.blockStart <= s.blockEnd <= |context| && s.prefixStart <= s.prefixEnd <= |prefix|
  {
    context[s.blockStart..s.blockEnd] + prefix[s.prefixStart..s.prefixEnd]
  }

  /** Concatenating both ranges of a span rebuilds one tile of the logical context. */
  lemma SpanIsTile(context: seq<KV>, prefix: seq<KV>, T: nat, start: nat)
    requires T > 0 && start < |context| + |prefix|
    ensures var s := SpanAt(|context|, |prefix|, T, start);
            s.blockStart <= s.blockEnd <= |context| && s.prefixStart <= s.prefixEnd <= |prefix| &&
            Selected(context, prefix, s) == (context + prefix)[start..Min(start + T, |context| + |prefix|)]
  {
  }

  /** The key tiles of the context scan, in order. */
  function ContextTiles(context: seq<KV>, prefix: seq<KV>, T: nat, start: nat): seq<seq<KV>>
    requires T > 0
    decreases |context| + |prefix| - start
  {
    if start >= |context| + |prefix| then [] else
      SpanIsTile(context, prefix, T, start);
      [Selected(context, prefix, SpanAt(|context|, |prefix|, T, start))] + ContextTiles(context, prefix, T, start + T)
  }

  lemma NextContextTile(context: seq<KV>, prefix: seq<KV>, T: nat, start: nat)
    requires T > 0 && start < |context| + |prefix|
    ensures ContextTiles(context, prefix, T, start) ==
              [(context + prefix)[start..Min(start + T, |context| + |prefix|)]]
                + ContextTiles(context, prefix, T, start + T)
  {
    SpanIsTile(context, prefix, T, start);
  }

  lemma NoMoreTiles(context: seq<KV>, prefix: seq<KV>, T: nat)
    requires T > 0
    ensures forall start: nat | start >= |context| + |prefix| :: ContextTiles(context, prefix, T, start) == []
  {
  }

  lemma {:induction false} ContextTilesAreTiles(context: seq<KV>, prefix: seq<KV>, T: nat, start: nat)
    requires T > 0
    ensures ContextTiles(context, prefix, T, start) == TilesFrom(context + prefix, T, start)
    decreases |context| + |prefix| - start
  {
    if start < |context| + |prefix| {
      SpanIsTile(context, prefix, T, start);
      ContextTilesAreTiles(context, prefix, T, start + T);
    }
  }

  // ---------- what a row computes from its tiles ----------

  function Fold<A>(op: (A, seq<KV>) -> A, a: A, tiles: seq<seq<KV>>): A {
    if tiles == [] then a else Fold(op, op(a, tiles[0]), tiles[1..])
  }

  lemma {:induction false} FoldAppend<A>(op: (A, seq<KV>) -> A, a: A, tiles: seq<seq<KV>>, t: seq<KV>)
    ensures Fold(op, a, tiles + [t]) == op(Fold(op, a, tiles), t)
  {
    if tiles == [] {
      assert tiles + [t] == [t] && [t][1..] == [];
    } else {
      assert (tiles + [t])[1..] == tiles[1..] + [t];
      FoldAppend(op, op(a, tiles[0]), tiles[1..], t);
    }
  }

  /** A row's accumulator and the number of keys it has passed. */
  datatype Row = Row(acc: Acc, passed: nat)

  function RowOp(exp: real -> real, d: nat, q: seq<real>, limit: nat): (Row, seq<KV>) -> Row {
    (row: Row, tile: seq<KV>) => Row(RowUpdate(exp, d, q, limit, row.passed, row.acc, tile), row.passed + |tile|)
  }

  /** Every row's accumulator is the fold of its updates over the tiles, in order. */
  ghost predicate RowsFold(exp: real -> real, d: nat, qs: seq<seq<real>>, limit0: nat, accs: seq<Acc>,
      tiles: seq<seq<KV>>, passed: nat) {
    |accs| == |qs| &&
    forall r | 0 <= r < |qs| :: Fold(RowOp(exp, d, qs[r], limit0 + r), Row(FRESH, 0), tiles) == Row(accs[r], passed)
  }

  lemma NothingFolded(exp: real -> real, d: nat, qs: seq<seq<real>>, limit0: nat, accs: seq<Acc>)
    requires |accs| == |qs| && forall r | 0 <= r < |qs| :: accs[r] == FRESH
    ensures RowsFold(exp, d, qs, limit0, accs, [], 0)
  {
  }

  lemma FoldMore(exp: real -> real, d: nat, qs: seq<seq<real>>, limit0: nat, accs: seq<Acc>, accs': seq<Acc>,
      tiles: seq<seq<KV>>, passed: nat, tile: seq<KV>)
    requires RowsFold(exp, d, qs, limit0, accs, tiles, passed) && |accs'| == |accs|
    requires forall r | 0 <= r < |accs| :: accs'[r] == RowUpdate(exp, d, qs[r], limit0 + r, passed, accs[r], tile)
    ensures RowsFold(exp, d, qs, limit0, accs', tiles + [tile], passed + |tile|)
  {
    hide RowUpdate, Fold;
    forall r | 0 <= r < |qs|
      ensures Fold(RowOp(exp, d, qs[r], limit0 + r), Row(FRESH, 0), tiles + [tile]) == Row(accs'[r], passed + |tile|)
    {
      FoldAppend(RowOp(exp, d, qs[r], limit0 + r), Row(FRESH, 0), tiles, tile);
    }
  }

  // ---------- one segment ----------

  /** The outputs are the quotients of accumulators folded over the tiles. */
  ghost predicate Computes(exp: real -> real, d: nat, qs: seq<seq<real>>, limit0: nat, tiles: seq<seq<KV>>,
      output: seq<real>) {
    |output| == |qs| && forall r | 0 <= r < |qs| ::
      var acc := Fold(RowOp(exp, d, qs[r], limit0 + r), Row(FRESH, 0), tiles).acc;
      acc.sum != 0.0 && output[r] == acc.out / acc.sum
  }

  method ForwardSegment(exp: real -> real, d: nat, qs: seq<seq<real>>, keys: seq<KV>, prefix: seq<KV>,
                        cache: seq<seq<KV>>, table: seq<nat>, contextLen: nat, B: nat, T: nat)
    returns (output: seq<real>, ghost tiles: seq<seq<KV>>)
    requires IsExp(exp) && |qs| == |keys| && T > 0 && Covers(cache, table, B, contextLen)
    ensures tiles == ContextTiles(Context(cache, table, B, contextLen), prefix, T, 0) + TilesFrom(keys, T, 0)
    ensures Computes(exp, d, qs, contextLen + |prefix|, tiles, output)
    ensures |output| == |qs|
    ensures forall r | 0 <= r < |qs| ::
      output[r] == Attention(exp, d, qs[r],
                             (Context(cache, table, B, contextLen) + prefix + keys)[..contextLen + |prefix| + r + 1])
  {
    hide RowsRepresent, Attention, Context, RowsFold, Fold, RowOp, ContextTiles, TilesFrom;
    ghost var past := Context(cache, table, B, contextLen) + prefix;
    var limit0 := contextLen + |prefix|;
    var buffers := new Buffers(|qs|);
    NothingSeen(exp, d, qs, limit0, buffers.accs[..]);
    NothingFolded(exp, d, qs, limit0, buffers.accs[..]);
    tiles := ScanContext(exp, d, qs, prefix, cache, table, contextLen, B, T, buffers);
    tiles := ScanKeys(exp, d, qs, keys, limit0, past, T, buffers, tiles);
    var accs := buffers.accs[..];
    FoldedRows(exp, d, qs, limit0, accs, tiles, limit0 + |keys|);
    output := [];
    for r := 0 to |qs|
      invariant |output| == r
      invariant forall k | 0 <= k < r :: output[k] == Attention(exp, d, qs[k], (past + keys)[..limit0 + k + 1])
      invariant forall k | 0 <= k < r :: accs[k].sum != 0.0 && output[k] == accs[k].out / accs[k].sum
    {
      RowResult(exp, d, qs, past + keys, limit0, accs, r);
      output := output + [accs[r].out / accs[r].sum];
    }
  }

  lemma FoldedRows(exp: real -> real, d: nat, qs: seq<seq<real>>, limit0: nat, accs: seq<Acc>, tiles: seq<seq<KV>>,
      passed: nat)
    requires RowsFold(exp, d, qs, limit0, accs, tiles, passed)
    ensures |accs| == |qs|
    ensures forall r | 0 <= r < |qs| :: Fold(RowOp(exp, d, qs[r], limit0 + r), Row(FRESH, 0), tiles).acc == accs[r]
  {
  }

  /** The keys after the row's own position carry no weight; all keys up to it are counted once. */
  lemma RowResult(exp: real -> real, d: nat, qs: seq<seq<real>>, kvs: seq<KV>, limit0: nat, accs: seq<Acc>, r: nat)
    requires IsExp(exp) && r < |qs| && limit0 + r < |kvs| && RowsRepresent(exp, d, qs, kvs, limit0, accs)
    ensures r < |accs| && accs[r].sum != 0.0
    ensures accs[r].out / accs[r].sum == Attention(exp, d, qs[r], kvs[..limit0 + r + 1])
  {
    hide TotalWeight, TotalValue, MaxScore;
    var q, limit := qs[r], limit0 + r;
    var visible, masked := kvs[..limit + 1], kvs[limit + 1..];
    assert kvs == visible + masked;
    SeeAppend(d, q, visible, masked, limit);
    TotalsAppend(exp, See(d, q, visible, 0, limit), See(d, q, masked, limit + 1, limit));
    MaskedVanish(exp, See(d, q, masked, limit + 1, limit));
    assert See(d, q, visible, 0, limit) == See(d, q, visible, 0, |visible|);
    var ks := See(d, q, kvs, 0, limit);
    assert ks[0].score.Finite?;
    MaxFinite(ks, 0);
    WeightsPositive(exp, ks);
    QuotientIsSoftmax(exp, accs[r], ks);
  }

  lemma NothingSeen(exp: real -> real, d: nat, qs: seq<seq<real>>, limit0: nat, accs: seq<Acc>)
    requires |accs| == |qs| && forall r | 0 <= r < |qs| :: accs[r] == FRESH
    ensures RowsRepresent(exp, d, qs, [], limit0, accs)
  {
  }

  method SelectTile(prefix: seq<KV>, cache: seq<seq<KV>>, table: seq<nat>, contextLen: nat, B: nat, T: nat,
                    start: nat, s: Span) returns (tile: seq<KV>)
    requires T > 0 && Covers(cache, table, B, contextLen) && start < contextLen + |prefix|
    requires s == SpanAt(contextLen, |prefix|, T, start)
    ensures tile == (Context(cache, table, B, contextLen) + prefix)[start..Min(start + T, contextLen + |prefix|)]
  {
    SpanIsTile(Context(cache, table, B, contextLen), prefix, T, start);
    tile := [];
    if s.blockEnd > s.blockStart {
      tile := GatherTile(cache, table, B, contextLen, s.blockStart, s.blockEnd);
    }
    tile := tile + prefix[s.prefixStart..s.prefixEnd];
    assert tile == Selected(Context(cache, table, B, contextLen), prefix, s);
  }

  method ScanContext(exp: real -> real, d: nat, qs: seq<seq<real>>, prefix: seq<KV>,
                     cache: seq<seq<KV>>, table: seq<nat>, contextLen: nat, B: nat, T: nat, buffers: Buffers)
    returns (ghost tiles: seq<seq<KV>>)
    requires IsExp(exp) && T > 0 && Covers(cache, table, B, contextLen)
    requires RowsRepresent(exp, d, qs, [], contextLen + |prefix|, buffers.accs[..])
    requires RowsFold(exp, d, qs, contextLen + |prefix|, buffers.accs[..], [], 0)
    modifies buffers.accs
    ensures tiles == ContextTiles(Context(cache, table, B, contextLen), prefix, T, 0)
    ensures RowsFold(exp, d, qs, contextLen + |prefix|, buffers.accs[..], tiles, contextLen + |prefix|)
    ensures buffers.accs == old(buffers.accs)
    ensures RowsRepresent(exp, d, qs, Context(cache, table, B, contextLen) + prefix, contextLen + |prefix|,
            buffers.accs[..])
  {
    hide RowsRepresent, Context, RowsFold, RowUpdate, ContextTiles;
    tiles := [];
    NoMoreTiles(Context(cache, table, B, contextLen), prefix, T);
    ghost var context := Context(cache, table, B, contextLen);
    ghost var past := context + prefix;
    var spans := ContextTileSpans(contextLen, |prefix|, T);
    var start := 0;
    assert past[..0] == [];
    for i := 0 to |spans|
      invariant spans[i..] == SpansFrom(contextLen, |prefix|, T, start)
      invariant RowsRepresent(exp, d, qs, past[..Min(start, |past|)], contextLen + |prefix|, buffers.accs[..])
      invariant tiles + ContextTiles(context, prefix, T, start) == ContextTiles(context, prefix, T, 0)
      invariant RowsFold(exp, d, qs, contextLen + |prefix|, buffers.accs[..], tiles, Min(start, |past|))
    {
      assert spans[i + 1..] == spans[i..][1..];
      ghost var before := buffers.accs[..];
      var tile := SelectTile(prefix, cache, table, contextLen, B, T, start, spans[i]);
      assert past[..start] + tile == past[..Min(start + T, |past|)];
      buffers.UpdateOnlineSoftmax(exp, d, qs, tile, start, contextLen + |prefix|, past[..start]);
      NextContextTile(context, prefix, T, start);
      FoldMore(exp, d, qs, contextLen + |prefix|, before, buffers.accs[..], tiles, start, tile);
      tiles := tiles + [tile];
      start := start + T;
    }
    assert past[..|past|] == past;
  }

  method ScanKeys(exp: real -> real, d: nat, qs: seq<seq<real>>, keys: seq<KV>, limit0: nat, ghost past: seq<KV>,
                  T: nat, buffers: Buffers, ghost before: seq<seq<KV>>)
    returns (ghost tiles: seq<seq<KV>>)
    requires IsExp(exp) && T > 0 && limit0 == |past| && RowsRepresent(exp, d, qs, past, limit0, buffers.accs[..])
    requires RowsFold(exp, d, qs, limit0, buffers.accs[..], before, limit0)
    modifies buffers.accs
    ensures tiles == before + TilesFrom(keys, T, 0)
    ensures RowsFold(exp, d, qs, limit0, buffers.accs[..], tiles, limit0 + |keys|)
    ensures buffers.accs == old(buffers.accs)
    ensures RowsRepresent(exp, d, qs, past + keys, limit0, buffers.accs[..])
  {
    hide RowsRepresent, RowsFold, RowUpdate;
    var start := 0;
    tiles := before;
    assert past + keys[..0] == past;
    while start < |keys|
      invariant RowsRepresent(exp, d, qs, past + keys[..Min(start, |keys|)], limit0, buffers.accs[..])
      invariant tiles + TilesFrom(keys, T, start) == before + TilesFrom(keys, T, 0)
      invariant RowsFold(exp, d, qs, limit0, buffers.accs[..], tiles, limit0 + Min(start, |keys|))
      invariant buffers.accs == old(buffers.accs)
      decreases |keys| - start
    {
      var end := Min(start + T, |keys|);
      assert past + keys[..start] + keys[start..end] == past + keys[..end];
      ghost var accs := buffers.accs[..];
      buffers.UpdateOnlineSoftmax(exp, d, qs, keys[start..end], limit0 + start, limit0, past + keys[..start]);
      FoldMore(exp, d, qs, limit0, accs, buffers.accs[..], tiles, limit0 + start, keys[start..end]);
      tiles := tiles + [keys[start..end]];
      start := start + T;
    }
    assert keys[..|keys|] == keys;
  }

  // ---------- the whole query ----------

  datatype Segment = Segment(start: nat, end: nat, contextLen: nat)

  function StrictPrefixLen(total: nat, B: nat): nat
    requires total > 0 && B > 0
  {
    StrictBelow(total, B);
    ((total - 1) / B) * B
  }

  lemma StrictBelow(total: nat, B: nat)
    requires total > 0 && B > 0
    ensures 0 <= ((total - 1) / B) * B < total
  {
    assert total - 1 == ((total - 1) / B) * B + (total - 1) % B;
  }

  /** Splits a query at the strict prefix boundary if it crosses it. */
  function QuerySegments(contextLen: nat, queryLen: nat, B: nat): seq<Segment>
    requires B > 0
  {
    if queryLen == 0 then [] else
      var strict := StrictPrefixLen(contextLen + queryLen, B);
      if 0 < strict - contextLen < queryLen then
        [Segment(0, strict - contextLen, contextLen), Segment(strict - contextLen, queryLen, strict)]
      else [Segment(0, queryLen, contextLen)]
  }

  /** The key tiles a segment runs, in order: context tiles, then tiles of its own keys. */
  function SegmentTiles(all: seq<KV>, cached: nat, s: Segment, T: nat): seq<seq<KV>>
    requires T > 0 && s.start <= s.end && cached + s.end <= |all|
  {
    ContextTiles(all[..cached], all[cached..cached + s.start], T, 0) +
    TilesFrom(all[cached + s.start..cached + s.end], T, 0)
  }

  /** Each segment ran its tiles, and its rows of the output are computed from them. */
  ghost predicate RanSegments(exp: real -> real, d: nat, qs: seq<seq<real>>, all: seq<KV>, cached: nat,
      segments: seq<Segment>, T: nat, ran: seq<seq<seq<KV>>>, output: seq<real>)
    requires T > 0
  {
    && |ran| == |segments|
    && forall i | 0 <= i < |segments| ::
         RanSegment(exp, d, qs, all, cached, segments[i], T, ran[i], output)
  }

  ghost predicate RanSegment(exp: real -> real, d: nat, qs: seq<seq<real>>, all: seq<KV>, cached: nat, s: Segment,
      T: nat, tiles: seq<seq<KV>>, output: seq<real>)
    requires T > 0
  {
    && s.start <= s.end <= |qs| && s.end <= |output| && cached + s.end <= |all|
    && tiles == SegmentTiles(all, cached, s, T)
    && Computes(exp, d, qs[s.start..s.end], cached + s.start, tiles, output[s.start..s.end])
  }

  lemma RanStays(exp: real -> real, d: nat, qs: seq<seq<real>>, all: seq<KV>, cached: nat, s: Segment, T: nat,
      tiles: seq<seq<KV>>, output: seq<real>, part: seq<real>)
    requires T > 0 && RanSegment(exp, d, qs, all, cached, s, T, tiles, output)
    ensures RanSegment(exp, d, qs, all, cached, s, T, tiles, output + part)
  {
    hide Computes, SegmentTiles;
    assert (output + part)[s.start..s.end] == output[s.start..s.end];
  }

  lemma RanNow(exp: real -> real, d: nat, qs: seq<seq<real>>, context: seq<KV>, keys: seq<KV>, s: Segment, T: nat,
      output: seq<real>, part: seq<real>, tiles: seq<seq<KV>>)
    requires T > 0 && |qs| == |keys| && s.start == |output| && s.start <= s.end <= |qs| && |part| == s.end - s.start
    requires tiles == ContextTiles(context, keys[..s.start], T, 0) + TilesFrom(keys[s.start..s.end], T, 0)
    requires Computes(exp, d, qs[s.start..s.end], |context| + s.start, tiles, part)
    ensures RanSegment(exp, d, qs, context + keys, |context|, s, T, tiles, output + part)
  {
    hide Computes, SegmentTiles, ContextTiles, TilesFrom;
    var all, n := context + keys, |context|;
    assert all[..n] == context;
    KeysAfter(context, keys, 0, s.start);
    KeysAfter(context, keys, s.start, s.end);
    assert keys[0..s.start] == keys[..s.start];
    TilesAre(all, n, s, T, context, keys[..s.start], keys[s.start..s.end]);
    LastPart(output, part);
  }

  lemma TilesAre(all: seq<KV>, n: nat, s: Segment, T: nat, context: seq<KV>, earlier: seq<KV>, own: seq<KV>)
    requires T > 0 && s.start <= s.end && n + s.end <= |all|
    requires all[..n] == context && all[n..n + s.start] == earlier && all[n + s.start..n + s.end] == own
    ensures SegmentTiles(all, n, s, T) == ContextTiles(context, earlier, T, 0) + TilesFrom(own, T, 0)
  {
    hide ContextTiles, TilesFrom;
  }

  lemma KeysAfter(context: seq<KV>, keys: seq<KV>, a: nat, b: nat)
    requires a <= b <= |keys|
    ensures (context + keys)[|context| + a..|context| + b] == keys[a..b]
  {
  }

  lemma LastPart(output: seq<real>, part: seq<real>)
    ensures (output + part)[|output|..|output| + |part|] == part
  {
  }

  /** Row r of the query gets full causal softmax attention over exactly the keys at positions up to its own. */
  method ForwardPrefix(exp: real -> real, d: nat, qs: seq<seq<real>>, keys: seq<KV>,
                       cache: seq<seq<KV>>, table: seq<nat>, contextLen: nat, B: nat, T: nat)
    returns (output: seq<real>, ghost ran: seq<seq<seq<KV>>>)
    requires IsExp(exp) && |qs| == |keys| && T > 0 && Covers(cache, table, B, contextLen)
    ensures |output| == |qs|
    ensures RanSegments(exp, d, qs, Context(cache, table, B, contextLen) + keys, contextLen,
                        QuerySegments(contextLen, |qs|, B), T, ran, output)
    ensures forall r | 0 <= r < |qs| ::
      output[r] == Attention(exp, d, qs[r], (Context(cache, table, B, contextLen) + keys)[..contextLen + r + 1])
  {
    hide Attention, Context, Computes, SegmentTiles, RanSegments, ContextTiles, TilesFrom;
    NothingRan(exp, d, qs, Context(cache, table, B, contextLen) + keys, contextLen, T);
    ran := [];
    ghost var context := Context(cache, table, B, contextLen);
    var segments := QuerySegments(contextLen, |qs|, B);
    output := [];
    for i := 0 to |segments|
      invariant |output| == if i == 0 then 0 else segments[i - 1].end
      invariant forall r | 0 <= r < |output| :: output[r] == Attention(exp, d, qs[r],
              (context + keys)[..contextLen + r + 1])
      invariant RanSegments(exp, d, qs, context + keys, contextLen, segments[..i], T, ran, output)
    {
      var s := segments[i];
      var part;
      ghost var tiles;
      part, tiles := ForwardSegment(exp, d, qs[s.start..s.end], keys[s.start..s.end], keys[..s.start],
                                 cache, table, contextLen, B, T);
      forall r | 0 <= r < s.end - s.start
        ensures part[r] == Attention(exp, d, qs[s.start + r], (context + keys)[..contextLen + (s.start + r) + 1])
      {
        assert (context + keys[..s.start] + keys[s.start..s.end])[..contextLen + s.start + r + 1] ==
               (context + keys)[..contextLen + (s.start + r) + 1];
      }
      SegmentRan(exp, d, qs, context, keys, segments, i, T, ran, output, part, tiles);
      output := output + part;
      ran := ran + [tiles];
    }
    assert segments[..|segments|] == segments;
  }

  lemma NothingRan(exp: real -> real, d: nat, qs: seq<seq<real>>, all: seq<KV>, cached: nat, T: nat)
    requires T > 0
    ensures RanSegments(exp, d, qs, all, cached, [], T, [], [])
  {
  }

  lemma SegmentRan(exp: real -> real, d: nat, qs: seq<seq<real>>, context: seq<KV>, keys: seq<KV>,
      segments: seq<Segment>, i: nat, T: nat, ran: seq<seq<seq<KV>>>, output: seq<real>, part: seq<real>,
      tiles: seq<seq<KV>>)
    requires T > 0 && i < |segments| && |qs| == |keys|
    requires RanSegments(exp, d, qs, context + keys, |context|, segments[..i], T, ran, output)
    requires var s := segments[i];
             && s.start == |output| && s.start <= s.end <= |qs| && |part| == s.end - s.start
             && tiles == ContextTiles(context, keys[..s.start], T, 0) + TilesFrom(keys[s.start..s.end], T, 0)
             && Computes(exp, d, qs[s.start..s.end], |context| + s.start, tiles, part)
    ensures RanSegments(exp, d, qs, context + keys, |context|, segments[..i + 1], T, ran + [tiles], output + part)
  {
    hide RanSegment, Computes, ContextTiles, TilesFrom;
    RanNow(exp, d, qs, context, keys, segments[i], T, output, part, tiles);
    forall k | 0 <= k < i
      ensures RanSegment(exp, d, qs, context + keys, |context|, segments[k], T, ran[k], output + part)
    {
      assert segments[..i][k] == segments[k];
      RanStays(exp, d, qs, context + keys, |context|, segments[k], T, ran[k], output, part);
    }
  }

  // ---------- the same tiles, warm or cold ----------

  /** The strict boundary is the last multiple of the block size that leaves a token. For every cached context at or
      below it the last segment starts at the boundary and runs the tiles of a warm request that has exactly the
      boundary cached, so any update operator, associative or not, leaves the same accumulators. */
  lemma WarmTilesEqualCold<A>(all: seq<KV>, cached: nat, strict: nat, B: nat, T: nat, op: (A, seq<KV>) -> A, a: A)
    requires B > 0 && T > 0 && strict % B == 0 && strict < |all| <= strict + B && cached <= strict
    ensures var cold, warm := QuerySegments(cached, |all| - cached, B), QuerySegments(strict, |all| - strict, B);
            && |cold| > 0 && warm == [Segment(0, |all| - strict, strict)]
            && var last := cold[|cold| - 1];
               last.end == |all| - cached && cached + last.start == strict && last.contextLen == strict
               && SegmentTiles(all, cached, last, T) == SegmentTiles(all, strict, warm[0], T)
               && Fold(op, a, SegmentTiles(all, cached, last, T)) == Fold(op, a, SegmentTiles(all, strict, warm[0], T))
  {
    hide Fold, TilesFrom, ContextTiles;
    StrictIs(|all|, strict, B);
    var cold := QuerySegments(cached, |all| - cached, B);
    var last := cold[|cold| - 1];
    ContextTilesAreTiles(all[..cached], all[cached..strict], T, 0);
    ContextTilesAreTiles(all[..strict], all[strict..strict], T, 0);
    assert all[..cached] + all[cached..strict] == all[..strict] + all[strict..strict];
    assert last.start == strict - cached;
    assert cached + last.end == |all|;
  }

  /** Hence the rows past the boundary come out the same, cold or warm, whatever function exp is. */
  lemma WarmOutputsEqualCold(exp: real -> real, d: nat, all: seq<KV>, cached: nat, strict: nat, B: nat, T: nat,
      qs: seq<seq<real>>, ran: seq<seq<seq<KV>>>, output: seq<real>, warmRan: seq<seq<seq<KV>>>,
      warmOutput: seq<real>)
    requires B > 0 && T > 0 && strict % B == 0 && strict < |all| <= strict + B && cached <= strict
    requires |qs| == |all| - cached == |output|
    requires RanSegments(exp, d, qs, all, cached, QuerySegments(cached, |qs|, B), T, ran, output)
    requires var late := qs[strict - cached..];
             |warmOutput| == |late|
             && RanSegments(exp, d, late, all, strict, QuerySegments(strict, |late|, B), T, warmRan, warmOutput)
    ensures output[strict - cached..] == warmOutput
  {
    hide SegmentTiles, QuerySegments, Fold, RowOp;
    var late := qs[strict - cached..];
    WarmTilesEqualCold(all, cached, strict, B, T, (a: int, t: seq<KV>) => a, 0);
    var cold, warm := QuerySegments(cached, |qs|, B), QuerySegments(strict, |late|, B);
    var n := |cold| - 1;
    assert RanSegment(exp, d, qs, all, cached, cold[n], T, ran[n], output);
    assert RanSegment(exp, d, late, all, strict, warm[0], T, warmRan[0], warmOutput);
    assert late[0..|late|] == late == qs[cold[n].start..cold[n].end];
    assert warmOutput[0..|late|] == warmOutput && output[cold[n].start..cold[n].end] == output[strict - cached..];
  }

  lemma StrictIs(total: nat, strict: nat, B: nat)
    requires B > 0 && strict % B == 0 && strict < total <= strict + B
    ensures StrictPrefixLen(total, B) == strict
  {
    assert strict == (strict / B) * B;
    DivModUnique(total - 1, strict / B, total - 1 - strict, B);
  }
}
