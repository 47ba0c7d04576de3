/** The gated delta rule of the linear-attention layers for one head and one value column:
    the token-by-token form, the chunked form, and the proof that they agree over the reals. */
module DeltaRule {
  import opened IntFacts
  import opened RealSums

  /** One token after normalisation and query scaling: its gate g is the logarithm of the decay. */
  datatype Token = Token(q: seq<real>, k: seq<real>, v: real, g: real, beta: real)

  const PADDING := Token([], [], 0.0, 0.0, 0.0)

  // ---------- the token-by-token rule ----------

  function Decayed(exp: real -> real, d: nat, s: seq<real>, t: Token): seq<real> {
    seq(d, c => At(s, c) * exp(t.g))
  }

  function Delta(exp: real -> real, d: nat, s: seq<real>, t: Token): real {
    (t.v - Dot(d, Decayed(exp, d, s, t), t.k)) * t.beta
  }

  function Step(exp: real -> real, d: nat, s: seq<real>, t: Token): seq<real> {
    seq(d, c => At(Decayed(exp, d, s, t), c) + At(t.k, c) * Delta(exp, d, s, t))
  }

  /** The state after all tokens, read from left to right. */
  function State(exp: real -> real, d: nat, s: seq<real>, ts: seq<Token>): seq<real> {
    if ts == [] then s else Step(exp, d, State(exp, d, s, ts[..|ts| - 1]), ts[|ts| - 1])
  }

  /** One output per token: the state after the token, read through its query. */
  function Outputs(exp: real -> real, d: nat, s: seq<real>, ts: seq<Token>): (o: seq<real>)
    ensures |o| == |ts|
  {
    if ts == [] then [] else
      Outputs(exp, d, s, ts[..|ts| - 1]) + [Dot(d, State(exp, d, s, ts), ts[|ts| - 1].q)]
  }

  method RecurrentRule(exp: real -> real, d: nat, ts: seq<Token>, initial: seq<real>)
    returns (coreOut: seq<real>, lastState: seq<real>)
    ensures coreOut == Outputs(exp, d, initial, ts)
    ensures lastState == State(exp, d, initial, ts)
  {
    coreOut, lastState := [], initial;
    for t := 0 to |ts|
      invariant coreOut == Outputs(exp, d, initial, ts[..t])
      invariant lastState == State(exp, d, initial, ts[..t])
    {
      var tok := ts[t];
      var decayed := seq(d, c => At(lastState, c) * exp(tok.g));
      assert decayed == Decayed(exp, d, lastState, tok);
      var kvMem := Dot(d, decayed, tok.k);
      var delta := (tok.v - kvMem) * tok.beta;
      var next := seq(d, c => At(decayed, c) + At(tok.k, c) * delta);
      assert delta == Delta(exp, d, lastState, tok);
      assert next == Step(exp, d, lastState, tok);
      assert ts[..t + 1][..t] == ts[..t];
      lastState := next;
      coreOut := coreOut + [Dot(d, lastState, tok.q)];
    }
    assert ts[..|ts|] == ts;
  }

  /** Cutting the tokens anywhere and chaining the state changes nothing. */
  lemma {:induction false} CutAnywhere(exp: real -> real, d: nat, s: seq<real>, a: seq<Token>, b: seq<Token>)
    ensures State(exp, d, s, a + b) == State(exp, d, State(exp, d, s, a), b)
    ensures Outputs(exp, d, s, a + b) == Outputs(exp, d, s, a) + Outputs(exp, d, State(exp, d, s, a), b)
  {
    if b == [] {
      assert a + b == a;
    } else {
      var b' := b[..|b| - 1];
      assert (a + b)[..|a + b| - 1] == a + b';
      CutAnywhere(exp, d, s, a, b');
    }
  }

  // ---------- forward substitution ----------

  /** Entry (i, c) of the strictly lower triangular result of the substitution loop on N. */
  function Substituted(N: (int, int) -> real, i: int, c: int): real
    decreases i
  {
    if 0 <= c < i then
      N(i, c) + Sum(i, m => if 0 <= m < i then N(i, m) * Substituted(N, m, c) else 0.0)
    else 0.0
  }

  function Completed(N: (int, int) -> real, i: int, c: int): real {
    Substituted(N, i, c) + if i == c then 1.0 else 0.0
  }

  ghost function Filled(N: (int, int) -> real): (int, int) -> real {
    (m, c) => Substituted(N, m, c)
  }

  ghost function Inverse(N: (int, int) -> real): (int, int) -> real {
    (i, c) => Completed(N, i, c)
  }

  /** Row i of the finished matrix (identity added) applied to u. */
  ghost function Solved(N: (int, int) -> real, n: nat, u: int -> real): int -> real {
    TimesColumn(n, Inverse(N), u)
  }

  lemma IdentityAdds(F: int -> real, C: int -> real, n: nat, u: int -> real, i: nat)
    requires i < n
    requires forall c | 0 <= c < n :: C(c) == F(c) + if i == c then 1.0 else 0.0
    requires forall c | i <= c < n :: F(c) == 0.0
    ensures Inner(n, C, u) == u(i) + Inner(i, F, u)
  {
    var e := c => if i == c then 1.0 else 0.0;
    InnerAdd(n, F, e, C, u);
    InnerTail(i, n, F, u);
    InnerUnit(n, i, e, u);
  }

  lemma SolvedSplit(N: (int, int) -> real, n: nat, u: int -> real, i: nat, m: nat)
    requires i < n && i <= m <= n
    ensures Solved(N, n, u)(i) == u(i) + TimesColumn(m, Filled(N), u)(i)
  {
    RowAsInner(n, Inverse(N), u, i);
    RowAsInner(m, Filled(N), u, i);
    IdentityAdds(Row(Filled(N), i), Row(Inverse(N), i), n, u, i);
    InnerTail(i, m, Row(Filled(N), i), u);
  }

  lemma FilledRow(N: (int, int) -> real, i: nat, c: int)
    requires 0 <= c < i
    ensures Filled(N)(i, c) == N(i, c) + RowTimes(i, Row(N, i), Filled(N))(c)
  {
    var f := m => if 0 <= m < i then N(i, m) * Substituted(N, m, c) else 0.0;
    var g := m => Row(N, i)(m) * Filled(N)(m, c);
    forall m | 0 <= m < i
      ensures f(m) == g(m)
    {
      assert Row(N, i)(m) == N(i, m);
    }
    SumExt(i, f, g);
  }

  /** The linear algebra of one row: x = u + F u and F_i = N_i + N_i F give x_i = u_i + N_i x. */
  lemma SubstitutionRow(i: nat, row: int -> real, F: (int, int) -> real, u: int -> real, x: int -> real)
    requires forall c | 0 <= c < i :: F(i, c) == row(c) + RowTimes(i, row, F)(c)
    requires forall m | 0 <= m <= i :: x(m) == u(m) + TimesColumn(i, F, u)(m)
    ensures x(i) == u(i) + Inner(i, row, x)
  {
    var rest := TimesColumn(i, F, u);
    InnerAdd(i, row, RowTimes(i, row, F), Row(F, i), u);
    InnerAssociates(i, i, row, F, u);
    RowAsInner(i, F, u, i);
    InnerAdd(i, u, rest, x, row);
    InnerSymmetric(i, u, row);
    InnerSymmetric(i, rest, row);
    InnerSymmetric(i, x, row);
  }

  /** The substitution solves the triangular system x = u + N x. */
  lemma SolvesSystem(N: (int, int) -> real, n: nat, u: int -> real, i: nat)
    requires i < n
    ensures Solved(N, n, u)(i) == u(i) + Inner(i, Row(N, i), Solved(N, n, u))
  {
    forall c | 0 <= c < i
      ensures Filled(N)(i, c) == Row(N, i)(c) + RowTimes(i, Row(N, i), Filled(N))(c)
    {
      FilledRow(N, i, c);
    }
    forall m | 0 <= m <= i
      ensures Solved(N, n, u)(m) == u(m) + TimesColumn(i, Filled(N), u)(m)
    {
      SolvedSplit(N, n, u, m, i);
    }
    SubstitutionRow(i, Row(N, i), Filled(N), u, Solved(N, n, u));
  }

  /** A triangular system has one solution, so whatever satisfies it is what the loop computes. */
  lemma {:induction false} SolutionUnique(N: (int, int) -> real, n: nat, u: int -> real, x: int -> real, i: nat)
    requires i < n
    requires forall j | 0 <= j < n :: x(j) == u(j) + Inner(j, Row(N, j), x)
    ensures x(i) == Solved(N, n, u)(i)
  {
    var solved := Solved(N, n, u);
    forall m | 0 <= m < i
      ensures x(m) == solved(m)
    {
      SolutionUnique(N, n, u, x, m);
    }
    InnerExt(i, Row(N, i), Row(N, i), x, solved);
    SolvesSystem(N, n, u, i);
  }

  // ---------- the closed form of the state inside a chunk ----------

  /** The gates summed over the first i tokens of the chunk. */
  function Cumulative(ts: seq<Token>, i: int): real {
    if 0 < i <= |ts| then Cumulative(ts, i - 1) + ts[i - 1].g else 0.0
  }

  /** What remains at token i of a write made at token j. */
  function Decay(exp: real -> real, ts: seq<Token>, i: int, j: int): real {
    exp(Cumulative(ts, i + 1) - Cumulative(ts, j + 1))
  }

  function Key(ts: seq<Token>, j: int): seq<real> {
    if 0 <= j < |ts| then ts[j].k else []
  }

  /** Keys as they look after token i - 1. */
  ghost function DecayedKeys(exp: real -> real, ts: seq<Token>, i: int): (int, int) -> real {
    (j, c) => Decay(exp, ts, i - 1, j) * At(Key(ts, j), c)
  }

  function Carried(exp: real -> real, s: seq<real>, ts: seq<Token>, i: int): int -> real {
    c => exp(Cumulative(ts, i)) * At(s, c)
  }

  /** Component c after i tokens, counting the first n writes w: every part is decayed to token i. */
  ghost function Closed(exp: real -> real, s: seq<real>, ts: seq<Token>, w: int -> real, n: nat, i: int): int -> real {
    c => Carried(exp, s, ts, i)(c) + RowTimes(n, w, DecayedKeys(exp, ts, i))(c)
  }

  lemma DecaySteps(exp: real -> real, ts: seq<Token>, i: nat, j: int)
    requires IsExp(exp) && i < |ts|
    ensures Decay(exp, ts, i, j) == exp(ts[i].g) * Decay(exp, ts, i - 1, j)
    ensures Decay(exp, ts, i, i) == 1.0
    ensures exp(Cumulative(ts, i + 1)) == exp(ts[i].g) * exp(Cumulative(ts, i))
  {
    assert ExpAdds(exp, ts[i].g, Cumulative(ts, i) - Cumulative(ts, j + 1));
    assert ExpAdds(exp, ts[i].g, Cumulative(ts, i));
    assert ts[i].g + (Cumulative(ts, i) - Cumulative(ts, j + 1)) == Cumulative(ts, i + 1) - Cumulative(ts, j + 1);
  }

  lemma KeyDecays(exp: real -> real, ts: seq<Token>, i: nat, j: int, c: int)
    requires IsExp(exp) && i < |ts|
    ensures DecayedKeys(exp, ts, i + 1)(j, c) == exp(ts[i].g) * DecayedKeys(exp, ts, i)(j, c)
  {
    DecaySteps(exp, ts, i, j);
    Associate(exp(ts[i].g), Decay(exp, ts, i - 1, j), At(Key(ts, j), c));
  }

  lemma RowDecays(exp: real -> real, ts: seq<Token>, w: int -> real, i: nat, c: int)
    requires IsExp(exp) && i < |ts|
    ensures RowTimes(i, w, DecayedKeys(exp, ts, i + 1))(c) == exp(ts[i].g) * RowTimes(i, w, DecayedKeys(exp, ts, i))(c)
  {
    var x, before, after := exp(ts[i].g), DecayedKeys(exp, ts, i), DecayedKeys(exp, ts, i + 1);
    forall j | 0 <= j < i
      ensures after(j, c) == x * before(j, c)
    {
      KeyDecays(exp, ts, i, j, c);
    }
    RowScales(i, x, w, before, after, c);
  }

  /** One more token decays the closed form of the old state and leaves its writes in place. */
  lemma ClosedDecays(exp: real -> real, s: seq<real>, ts: seq<Token>, w: int -> real, i: nat, c: int)
    requires IsExp(exp) && i < |ts|
    ensures Closed(exp, s, ts, w, i, i + 1)(c) == Closed(exp, s, ts, w, i, i)(c) * exp(ts[i].g)
  {
    RowDecays(exp, ts, w, i, c);
    CarriedDecays(exp, s, ts, i, c);
    FactorOut(exp(ts[i].g), Carried(exp, s, ts, i)(c), RowTimes(i, w, DecayedKeys(exp, ts, i))(c),
              Carried(exp, s, ts, i + 1)(c), RowTimes(i, w, DecayedKeys(exp, ts, i + 1))(c));
  }

  lemma CarriedDecays(exp: real -> real, s: seq<real>, ts: seq<Token>, i: nat, c: int)
    requires IsExp(exp) && i < |ts|
    ensures Carried(exp, s, ts, i + 1)(c) == exp(ts[i].g) * Carried(exp, s, ts, i)(c)
  {
    DecaySteps(exp, ts, i, i);
    Associate(exp(ts[i].g), exp(Cumulative(ts, i)), At(s, c));
  }

  lemma FactorOut(x: real, a: real, b: real, a': real, b': real)
    requires a' == x * a && b' == x * b
    ensures a' + b' == (a + b) * x
  {
  }

  lemma ClosedExtends(exp: real -> real, s: seq<real>, ts: seq<Token>, w: int -> real, i: nat, c: int)
    requires IsExp(exp) && i < |ts|
    ensures Closed(exp, s, ts, w, i + 1, i + 1)(c) == Closed(exp, s, ts, w, i, i + 1)(c) + At(ts[i].k, c) * w(i)
  {
    DecaySteps(exp, ts, i, i);
    var x := At(Key(ts, i), c);
    assert DecayedKeys(exp, ts, i + 1)(i, c) == Decay(exp, ts, i, i) * x == x;
    RowTimesStep(i, w, DecayedKeys(exp, ts, i + 1), c);
  }

  /** Token j turns states[j] into states[j + 1] and writes w(j) along its key. */
  ghost predicate RunStep(exp: real -> real, d: nat, ts: seq<Token>, states: seq<seq<real>>, w: int -> real, j: int) {
    0 <= j < |ts| && j + 1 < |states| ==>
      states[j + 1] == Step(exp, d, states[j], ts[j]) && w(j) == Delta(exp, d, states[j], ts[j])
  }

  ghost predicate IsRun(exp: real -> real, d: nat, s: seq<real>, ts: seq<Token>, states: seq<seq<real>>,
      w: int -> real) {
    && |states| == |ts| + 1 && states[0] == s && |s| == d
    && forall j {:trigger RunStep(exp, d, ts, states, w, j)} :: RunStep(exp, d, ts, states, w, j)
  }

  lemma {:induction false} StateClosedForm(exp: real -> real, d: nat, s: seq<real>, ts: seq<Token>,
                                           states: seq<seq<real>>, w: int -> real, i: nat, c: int)
    requires IsExp(exp) && IsRun(exp, d, s, ts, states, w)
    requires i <= |ts| && 0 <= c < d
    ensures At(states[i], c) == Closed(exp, s, ts, w, i, i)(c)
  {
    if i == 0 {
      RowTimesStep(0, w, DecayedKeys(exp, ts, 0), c);
    } else {
      StateClosedForm(exp, d, s, ts, states, w, i - 1, c);
      ClosedDecays(exp, s, ts, w, i - 1, c);
      ClosedExtends(exp, s, ts, w, i - 1, c);
      assert RunStep(exp, d, ts, states, w, i - 1);
      StepAt(exp, d, states[i - 1], ts[i - 1], c);
    }
  }

  lemma StepAt(exp: real -> real, d: nat, s: seq<real>, t: Token, c: int)
    requires 0 <= c < d
    ensures At(Step(exp, d, s, t), c) == At(s, c) * exp(t.g) + At(t.k, c) * Delta(exp, d, s, t)
  {
  }

  // ---------- the triangular system of a chunk ----------

  lemma KeysReadBy(exp: real -> real, d: nat, ts: seq<Token>, i: int, x: int -> real, j: int)
    ensures TimesColumn(d, DecayedKeys(exp, ts, i), x)(j) == Overlap(exp, d, ts, i, x)(j)
  {
    RowAsInner(d, DecayedKeys(exp, ts, i), x, j);
    InnerScale(d, Decay(exp, ts, i - 1, j), Vector(Key(ts, j)), Row(DecayedKeys(exp, ts, i), j), x);
  }

  /** How strongly the write of token j shows when x reads the state after token i - 1. */
  ghost function Overlap(exp: real -> real, d: nat, ts: seq<Token>, i: int, x: int -> real): int -> real {
    j => Decay(exp, ts, i - 1, j) * Inner(d, Vector(Key(ts, j)), x)
  }

  lemma ReadClosed(exp: real -> real, d: nat, s: seq<real>, ts: seq<Token>, w: int -> real, n: nat, i: int,
      x: int -> real)
    ensures Inner(d, Closed(exp, s, ts, w, n, i), x) ==
            Inner(d, Carried(exp, s, ts, i), x) + Inner(n, w, Overlap(exp, d, ts, i, x))
  {
    var keys := DecayedKeys(exp, ts, i);
    InnerAdd(d, Carried(exp, s, ts, i), RowTimes(n, w, keys), Closed(exp, s, ts, w, n, i), x);
    InnerAssociates(n, d, w, keys, x);
    forall j | 0 <= j < n
      ensures TimesColumn(d, keys, x)(j) == Overlap(exp, d, ts, i, x)(j)
    {
      KeysReadBy(exp, d, ts, i, x, j);
    }
    InnerExt(n, w, w, TimesColumn(d, keys, x), Overlap(exp, d, ts, i, x));
  }

  function ScaledKey(d: nat, ts: seq<Token>, i: int): seq<real> {
    if 0 <= i < |ts| then seq(d, c => At(ts[i].k, c) * ts[i].beta) else []
  }

  /** The masked matrix before substitution: minus beta-scaled key overlaps, decayed. */
  function Interaction(exp: real -> real, d: nat, ts: seq<Token>): (int, int) -> real {
    (i, j) => if 0 <= j < i then -(Dot(d, ScaledKey(d, ts, i), Key(ts, j)) * Decay(exp, ts, i, j)) else 0.0
  }

  /** beta-scaled keys decayed from the start of the chunk, and what they recall of the old state. */
  function CumulativeKeys(exp: real -> real, d: nat, ts: seq<Token>): (int, int) -> real {
    (i, c) => At(ScaledKey(d, ts, i), c) * exp(Cumulative(ts, i + 1))
  }

  function ScaledValue(ts: seq<Token>): int -> real {
    i => if 0 <= i < |ts| then ts[i].v * ts[i].beta else 0.0
  }

  ghost function Target(exp: real -> real, d: nat, s: seq<real>, ts: seq<Token>): int -> real {
    i => ScaledValue(ts)(i) - TimesColumn(d, CumulativeKeys(exp, d, ts), Vector(s))(i)
  }

  lemma RecallTerm(exp: real -> real, d: nat, s: seq<real>, ts: seq<Token>, i: nat, c: nat)
    requires i < |ts| && c < d
    ensures CumulativeKeys(exp, d, ts)(i, c) * Vector(s)(c) ==
            ts[i].beta * (Carried(exp, s, ts, i + 1)(c) * Vector(ts[i].k)(c))
  {
    assert At(ScaledKey(d, ts, i), c) == At(ts[i].k, c) * ts[i].beta;
    Rearrange(At(ts[i].k, c), ts[i].beta, exp(Cumulative(ts, i + 1)), At(s, c));
  }

  lemma Rearrange(x: real, b: real, e: real, y: real)
    ensures ((x * b) * e) * y == b * ((e * y) * x)
  {
  }

  lemma RecallIsScaled(exp: real -> real, d: nat, s: seq<real>, ts: seq<Token>, i: nat)
    requires i < |ts|
    ensures TimesColumn(d, CumulativeKeys(exp, d, ts), Vector(s))(i) ==
            ts[i].beta * Inner(d, Carried(exp, s, ts, i + 1), Vector(ts[i].k))
  {
    var x, y, M, u := Carried(exp, s, ts, i + 1), Vector(ts[i].k), CumulativeKeys(exp, d, ts), Vector(s);
    forall c | 0 <= c < d
      ensures M(i, c) * u(c) == ts[i].beta * (x(c) * y(c))
    {
      RecallTerm(exp, d, s, ts, i, c);
    }
    ColumnScale(d, M, u, i, ts[i].beta, x, y);
  }

  function Gain(ts: seq<Token>, i: int): real {
    if 0 <= i < |ts| then -ts[i].beta else 0.0
  }

  lemma InteractionIsScaled(exp: real -> real, d: nat, ts: seq<Token>, i: nat, j: nat)
    requires j < i < |ts|
    ensures Row(Interaction(exp, d, ts), i)(j) == Gain(ts, i) * Overlap(exp, d, ts, i + 1, Vector(ts[i].k))(j)
  {
    var b, k := ts[i].beta, ts[i].k;
    InnerScale(d, b, Vector(k), Vector(ScaledKey(d, ts, i)), Vector(Key(ts, j)));
    InnerSymmetric(d, Vector(k), Vector(Key(ts, j)));
    NegatedProduct(b, Inner(d, Vector(Key(ts, j)), Vector(k)), Decay(exp, ts, i, j));
  }

  lemma NegatedProduct(b: real, x: real, y: real)
    ensures -((b * x) * y) == -b * (y * x)
  {
  }

  /** The write of token i, with the decayed state in closed form. */
  lemma WriteClosed(exp: real -> real, d: nat, s: seq<real>, ts: seq<Token>,
                    states: seq<seq<real>>, w: int -> real, i: nat)
    requires IsExp(exp) && IsRun(exp, d, s, ts, states, w) && i < |ts|
    ensures w(i) == (ts[i].v - Inner(d, Closed(exp, s, ts, w, i, i + 1), Vector(ts[i].k))) * ts[i].beta
  {
    assert RunStep(exp, d, ts, states, w, i);
    var left, right := Vector(Decayed(exp, d, states[i], ts[i])), Closed(exp, s, ts, w, i, i + 1);
    forall c | 0 <= c < d
      ensures left(c) == right(c)
    {
      StateClosedForm(exp, d, s, ts, states, w, i, c);
      ClosedDecays(exp, s, ts, w, i, c);
    }
    InnerExt(d, left, right, Vector(ts[i].k), Vector(ts[i].k));
  }

  lemma InteractionRow(exp: real -> real, d: nat, ts: seq<Token>, i: nat)
    requires i < |ts|
    ensures forall j | 0 <= j < i ::
      Row(Interaction(exp, d, ts), i)(j) == Gain(ts, i) * Overlap(exp, d, ts, i + 1, Vector(ts[i].k))(j)
  {
    forall j | 0 <= j < i
      ensures Row(Interaction(exp, d, ts), i)(j) == Gain(ts, i) * Overlap(exp, d, ts, i + 1, Vector(ts[i].k))(j)
    {
      InteractionIsScaled(exp, d, ts, i, j);
    }
  }

  lemma InteractionSum(exp: real -> real, d: nat, ts: seq<Token>, w: int -> real, i: nat)
    requires i < |ts|
    ensures Inner(i, Row(Interaction(exp, d, ts), i), w) ==
            Gain(ts, i) * Inner(i, w, Overlap(exp, d, ts, i + 1, Vector(ts[i].k)))
  {
    hide *;
    InteractionRow(exp, d, ts, i);
    InnerScaleSwap(i, Gain(ts, i), Overlap(exp, d, ts, i + 1, Vector(ts[i].k)), Row(Interaction(exp, d, ts), i), w);
  }

  lemma WriteSplit(exp: real -> real, d: nat, s: seq<real>, ts: seq<Token>,
                   states: seq<seq<real>>, w: int -> real, i: nat)
    requires IsExp(exp) && IsRun(exp, d, s, ts, states, w) && i < |ts|
    ensures w(i) == (ts[i].v - (Inner(d, Carried(exp, s, ts, i + 1), Vector(ts[i].k)) +
                                Inner(i, w, Overlap(exp, d, ts, i + 1, Vector(ts[i].k))))) * ts[i].beta
  {
    WriteClosed(exp, d, s, ts, states, w, i);
    ReadClosed(exp, d, s, ts, w, i, i + 1, Vector(ts[i].k));
  }

  lemma TargetSplit(exp: real -> real, d: nat, s: seq<real>, ts: seq<Token>, i: nat)
    requires i < |ts|
    ensures Target(exp, d, s, ts)(i) ==
            ts[i].v * ts[i].beta - ts[i].beta * Inner(d, Carried(exp, s, ts, i + 1), Vector(ts[i].k))
    ensures Gain(ts, i) == -ts[i].beta
  {
    RecallIsScaled(exp, d, s, ts, i);
  }

  lemma Residual(w: real, t: real, r: real, v: real, b: real, gain: real, x: real, y: real)
    requires gain == -b && w == (v - (x + y)) * b && t == v * b - b * x && r == gain * y
    ensures w == t + r
  {
  }

  /** The writes of the token-by-token rule satisfy the chunk's triangular system. */
  lemma WritesSatisfySystem(exp: real -> real, d: nat, s: seq<real>, ts: seq<Token>,
                            states: seq<seq<real>>, w: int -> real, i: nat)
    requires IsExp(exp) && IsRun(exp, d, s, ts, states, w) && i < |ts|
    ensures w(i) == Target(exp, d, s, ts)(i) + Inner(i, Row(Interaction(exp, d, ts), i), w)
  {
    hide *;
    WriteSplit(exp, d, s, ts, states, w, i);
    TargetSplit(exp, d, s, ts, i);
    InteractionSum(exp, d, ts, w, i);
    Residual(w(i), Target(exp, d, s, ts)(i), Inner(i, Row(Interaction(exp, d, ts), i), w), ts[i].v, ts[i].beta,
             Gain(ts, i), Inner(d, Carried(exp, s, ts, i + 1), Vector(ts[i].k)),
             Inner(i, w, Overlap(exp, d, ts, i + 1, Vector(ts[i].k))));
  }

  /** So the substitution recovers every write of the chunk at once. */
  lemma WritesAreSolved(exp: real -> real, d: nat, s: seq<real>, ts: seq<Token>,
                        states: seq<seq<real>>, w: int -> real, i: nat)
    requires IsExp(exp) && IsRun(exp, d, s, ts, states, w) && i < |ts|
    ensures w(i) == Solved(Interaction(exp, d, ts), |ts|, Target(exp, d, s, ts))(i)
  {
    forall j | 0 <= j < |ts|
      ensures w(j) == Target(exp, d, s, ts)(j) + Inner(j, Row(Interaction(exp, d, ts), j), w)
    {
      WritesSatisfySystem(exp, d, s, ts, states, w, j);
    }
    SolutionUnique(Interaction(exp, d, ts), |ts|, Target(exp, d, s, ts), w, i);
  }

  // ---------- what the chunk code computes ----------

  /** v_new of the chunk: the solved values minus what the old state already recalls. */
  ghost function NewValues(exp: real -> real, d: nat, s: seq<real>, ts: seq<Token>): int -> real {
    var T := Inverse(Interaction(exp, d, ts));
    i => TimesColumn(|ts|, T, ScaledValue(ts))(i) -
         TimesColumn(d, MatrixProduct(|ts|, T, CumulativeKeys(exp, d, ts)), Vector(s))(i)
  }

  lemma NewValuesAreSolved(exp: real -> real, d: nat, s: seq<real>, ts: seq<Token>, i: nat)
    requires i < |ts|
    ensures NewValues(exp, d, s, ts)(i) == Solved(Interaction(exp, d, ts), |ts|, Target(exp, d, s, ts))(i)
  {
    var n, T, K := |ts|, Inverse(Interaction(exp, d, ts)), CumulativeKeys(exp, d, ts);
    ProductAssociates(n, d, T, K, Vector(s), i);
    var value, recall, target := ScaledValue(ts), TimesColumn(d, K, Vector(s)), Target(exp, d, s, ts);
    RowAsInner(n, T, value, i);
    RowAsInner(n, T, recall, i);
    RowAsInner(n, T, target, i);
    InnerAdd(n, target, recall, value, Row(T, i));
    InnerSymmetric(n, target, Row(T, i));
    InnerSymmetric(n, recall, Row(T, i));
    InnerSymmetric(n, value, Row(T, i));
  }

  /** Query overlaps with the keys up to the token itself, decayed. */
  function QueryMask(exp: real -> real, d: nat, ts: seq<Token>): (int, int) -> real {
    (i, j) => if 0 <= j <= i < |ts| then Dot(d, ts[i].q, Key(ts, j)) * Decay(exp, ts, i, j) else 0.0
  }

  function DecayedQueries(exp: real -> real, ts: seq<Token>): (int, int) -> real {
    (i, c) => if 0 <= i < |ts| then At(ts[i].q, c) * exp(Cumulative(ts, i + 1)) else 0.0
  }

  ghost function ChunkOutput(exp: real -> real, d: nat, s: seq<real>, ts: seq<Token>, w: int -> real): int -> real {
    i => TimesColumn(d, DecayedQueries(exp, ts), Vector(s))(i) + TimesColumn(|ts|, QueryMask(exp, d, ts), w)(i)
  }

  lemma MaskTerm(exp: real -> real, d: nat, ts: seq<Token>, i: nat, j: nat)
    requires j <= i < |ts|
    ensures Row(QueryMask(exp, d, ts), i)(j) == Overlap(exp, d, ts, i + 1, Vector(ts[i].q))(j)
  {
    InnerSymmetric(d, Vector(ts[i].q), Vector(Key(ts, j)));
  }

  lemma MaskRow(exp: real -> real, d: nat, ts: seq<Token>, i: nat)
    requires i < |ts|
    ensures forall j | 0 <= j < i + 1 ::
      Row(QueryMask(exp, d, ts), i)(j) == Overlap(exp, d, ts, i + 1, Vector(ts[i].q))(j)
    ensures forall j | i + 1 <= j < |ts| :: Row(QueryMask(exp, d, ts), i)(j) == 0.0
  {
    forall j | 0 <= j < i + 1
      ensures Row(QueryMask(exp, d, ts), i)(j) == Overlap(exp, d, ts, i + 1, Vector(ts[i].q))(j)
    {
      MaskTerm(exp, d, ts, i, j);
    }
  }

  lemma MaskedSum(exp: real -> real, d: nat, ts: seq<Token>, w: int -> real, i: nat)
    requires i < |ts|
    ensures TimesColumn(|ts|, QueryMask(exp, d, ts), w)(i) == Inner(i + 1, w, Overlap(exp, d, ts, i + 1,
            Vector(ts[i].q)))
  {
    RowAsInner(|ts|, QueryMask(exp, d, ts), w, i);
    MaskRow(exp, d, ts, i);
    InnerTail(i + 1, |ts|, Row(QueryMask(exp, d, ts), i), w);
    InnerExt(i + 1, Row(QueryMask(exp, d, ts), i), Overlap(exp, d, ts, i + 1, Vector(ts[i].q)), w, w);
    InnerSymmetric(i + 1, Overlap(exp, d, ts, i + 1, Vector(ts[i].q)), w);
  }

  lemma DecayedQuerySum(exp: real -> real, d: nat, s: seq<real>, ts: seq<Token>, i: nat)
    requires i < |ts|
    ensures TimesColumn(d, DecayedQueries(exp, ts), Vector(s))(i) == Inner(d, Carried(exp, s, ts, i + 1),
            Vector(ts[i].q))
  {
    var x, y, M, u := Carried(exp, s, ts, i + 1), Vector(ts[i].q), DecayedQueries(exp, ts), Vector(s);
    forall c | 0 <= c < d
      ensures M(i, c) * u(c) == 1.0 * (x(c) * y(c))
    {
      Rearrange(At(ts[i].q, c), 1.0, exp(Cumulative(ts, i + 1)), At(s, c));
    }
    ColumnScale(d, M, u, i, 1.0, x, y);
  }

  /** Reading the chunk's writes through the mask gives the token-by-token output. */
  lemma ChunkOutputCorrect(exp: real -> real, d: nat, s: seq<real>, ts: seq<Token>,
                           states: seq<seq<real>>, w: int -> real, i: nat)
    requires IsExp(exp) && IsRun(exp, d, s, ts, states, w) && i < |ts|
    ensures ChunkOutput(exp, d, s, ts, w)(i) == Dot(d, states[i + 1], ts[i].q)
  {
    MaskedSum(exp, d, ts, w, i);
    DecayedQuerySum(exp, d, s, ts, i);
    ReadClosed(exp, d, s, ts, w, i + 1, i + 1, Vector(ts[i].q));
    var left, right := Vector(states[i + 1]), Closed(exp, s, ts, w, i + 1, i + 1);
    forall c | 0 <= c < d
      ensures left(c) == right(c)
    {
      StateClosedForm(exp, d, s, ts, states, w, i + 1, c);
    }
    InnerExt(d, left, right, Vector(ts[i].q), Vector(ts[i].q));
  }

  function KeysTransposed(exp: real -> real, ts: seq<Token>): (int, int) -> real {
    (c, j) => At(Key(ts, j), c) * Decay(exp, ts, |ts| - 1, j)
  }

  lemma TransposedTerm(exp: real -> real, ts: seq<Token>, w: int -> real, c: int, j: int)
    ensures KeysTransposed(exp, ts)(c, j) * w(j) == w(j) * DecayedKeys(exp, ts, |ts|)(j, c)
  {
  }

  lemma TransposedSum(exp: real -> real, ts: seq<Token>, w: int -> real, c: int)
    ensures TimesColumn(|ts|, KeysTransposed(exp, ts), w)(c) == RowTimes(|ts|, w, DecayedKeys(exp, ts, |ts|))(c)
  {
    var M, K := KeysTransposed(exp, ts), DecayedKeys(exp, ts, |ts|);
    var f, g := j => M(c, j) * w(j), j => w(j) * K(j, c);
    forall j | 0 <= j < |ts|
      ensures f(j) == g(j)
    {
      TransposedTerm(exp, ts, w, c, j);
    }
    SumExt(|ts|, f, g);
  }

  lemma ChunkStateCorrect(exp: real -> real, d: nat, s: seq<real>, ts: seq<Token>,
                          states: seq<seq<real>>, w: int -> real, c: nat)
    requires IsExp(exp) && IsRun(exp, d, s, ts, states, w) && c < d
    ensures At(states[|ts|], c) ==
            Carried(exp, s, ts, |ts|)(c) + TimesColumn(|ts|, KeysTransposed(exp, ts), w)(c)
  {
    StateClosedForm(exp, d, s, ts, states, w, |ts|, c);
    TransposedSum(exp, ts, w, c);
  }

  // ---------- the runs of the token-by-token rule ----------

  ghost function StatesOf(exp: real -> real, d: nat, s: seq<real>, ts: seq<Token>): seq<seq<real>> {
    seq(|ts| + 1, j requires 0 <= j <= |ts| => State(exp, d, s, ts[..j]))
  }

  ghost function WritesOf(exp: real -> real, d: nat, s: seq<real>, ts: seq<Token>): int -> real {
    j => if 0 <= j < |ts| then Delta(exp, d, State(exp, d, s, ts[..j]), ts[j]) else 0.0
  }

  lemma TokensRun(exp: real -> real, d: nat, s: seq<real>, ts: seq<Token>)
    requires |s| == d
    ensures IsRun(exp, d, s, ts, StatesOf(exp, d, s, ts), WritesOf(exp, d, s, ts))
  {
    var states, w := StatesOf(exp, d, s, ts), WritesOf(exp, d, s, ts);
    assert ts[..0] == [];
    forall j
      ensures RunStep(exp, d, ts, states, w, j)
    {
      if 0 <= j < |ts| {
        assert ts[..j + 1][..j] == ts[..j];
      }
    }
  }

  lemma {:induction false} OutputsAt(exp: real -> real, d: nat, s: seq<real>, ts: seq<Token>, i: nat)
    requires i < |ts|
    ensures Outputs(exp, d, s, ts)[i] == Dot(d, State(exp, d, s, ts[..i + 1]), ts[i].q)
  {
    var n := |ts| - 1;
    if i == n {
      assert ts[..i + 1] == ts;
    } else {
      OutputsAt(exp, d, s, ts[..n], i);
      assert ts[..n][..i + 1] == ts[..i + 1];
    }
  }

  ghost predicate IsNewValues(exp: real -> real, d: nat, s: seq<real>, ts: seq<Token>, v: int -> real) {
    forall i | 0 <= i < |ts| :: v(i) == NewValues(exp, d, s, ts)(i)
  }

  lemma NewValuesAreWrites(exp: real -> real, d: nat, s: seq<real>, ts: seq<Token>, v: int -> real)
    requires IsExp(exp) && |s| == d && IsNewValues(exp, d, s, ts, v)
    ensures forall i | 0 <= i < |ts| :: v(i) == WritesOf(exp, d, s, ts)(i)
  {
    TokensRun(exp, d, s, ts);
    forall i | 0 <= i < |ts|
      ensures v(i) == WritesOf(exp, d, s, ts)(i)
    {
      NewValuesAreSolved(exp, d, s, ts, i);
      WritesAreSolved(exp, d, s, ts, StatesOf(exp, d, s, ts), WritesOf(exp, d, s, ts), i);
    }
  }

  /** Each output of the chunk code is the output of the token-by-token rule. */
  lemma ChunkOutputsAgree(exp: real -> real, d: nat, s: seq<real>, ts: seq<Token>, v: int -> real, i: nat)
    requires IsExp(exp) && |s| == d && IsNewValues(exp, d, s, ts, v) && i < |ts|
    ensures Outputs(exp, d, s, ts)[i] == ChunkOutput(exp, d, s, ts, v)(i)
  {
    TokensRun(exp, d, s, ts);
    NewValuesAreWrites(exp, d, s, ts, v);
    OutputsAt(exp, d, s, ts, i);
    ChunkOutputCorrect(exp, d, s, ts, StatesOf(exp, d, s, ts), WritesOf(exp, d, s, ts), i);
    ColumnExt(|ts|, QueryMask(exp, d, ts), v, WritesOf(exp, d, s, ts), i);
  }

  /** The state the chunk code leaves is the state of the token-by-token rule. */
  lemma ChunkStateAgrees(exp: real -> real, d: nat, s: seq<real>, ts: seq<Token>, v: int -> real, c: nat)
    requires IsExp(exp) && |s| == d && IsNewValues(exp, d, s, ts, v) && c < d
    ensures At(State(exp, d, s, ts), c) ==
            Carried(exp, s, ts, |ts|)(c) + TimesColumn(|ts|, KeysTransposed(exp, ts), v)(c)
  {
    TokensRun(exp, d, s, ts);
    NewValuesAreWrites(exp, d, s, ts, v);
    FullState(exp, d, s, ts);
    ChunkStateCorrect(exp, d, s, ts, StatesOf(exp, d, s, ts), WritesOf(exp, d, s, ts), c);
    ColumnExt(|ts|, KeysTransposed(exp, ts), v, WritesOf(exp, d, s, ts), c);
  }

  lemma FullState(exp: real -> real, d: nat, s: seq<real>, ts: seq<Token>)
    ensures StatesOf(exp, d, s, ts)[|ts|] == State(exp, d, s, ts)
  {
    assert ts[..|ts|] == ts;
  }

  // ---------- the chunked rule ----------

  ghost predicate Holds(a: array2<real>, M: (int, int) -> real)
    reads a
  {
    forall i, j | 0 <= i < a.Length0 && 0 <= j < a.Length1 :: a[i, j] == M(i, j)
  }

  /** Rows below i are finished, the others still hold N. */
  ghost function Progress(N: (int, int) -> real, i: int): (int, int) -> real {
    (r, c) => if r < i then Substituted(N, r, c) else N(r, c)
  }

  /** Rows are finished from the top; row i reads a copy of itself and the finished rows above. */
  method SubstituteInPlace(attn: array2<real>, ghost N: (int, int) -> real)
    requires attn.Length0 == attn.Length1 && Holds(attn, N)
    requires forall i, c | i <= c :: N(i, c) == 0.0
    modifies attn
    ensures Holds(attn, Filled(N))
  {
    for i := 0 to attn.Length0
      invariant Holds(attn, Progress(N, i))
    {
      FinishRow(attn, N, i);
    }
  }

  method FinishRow(attn: array2<real>, ghost N: (int, int) -> real, i: nat)
    requires attn.Length0 == attn.Length1 && i < attn.Length0 && Holds(attn, Progress(N, i))
    requires forall i, c | i <= c :: N(i, c) == 0.0
    modifies attn
    ensures Holds(attn, Progress(N, i + 1))
  {
    var n := attn.Length0;
    var row := seq(n, c requires 0 <= c < n reads attn => attn[i, c]);
    for c := 0 to i
      invariant forall r, k | 0 <= r < n && 0 <= k < n ::
        attn[r, k] == if r == i && k < c then Substituted(N, i, k) else Progress(N, i)(r, k)
    {
      var update := ColumnAbove(attn, row, i, c, N);
      attn[i, c] := row[c] + update;
    }
  }

  method ColumnAbove(attn: array2<real>, row: seq<real>, i: nat, c: nat, ghost N: (int, int) -> real) returns (x: real)
    requires attn.Length0 == attn.Length1 == |row| && c < i < |row|
    requires forall k | 0 <= k < i :: row[k] == N(i, k)
    requires forall r, k | 0 <= r < i && 0 <= k < |row| :: attn[r, k] == Substituted(N, r, k)
    ensures N(i, c) + x == Substituted(N, i, c)
  {
    ghost var f := m => if 0 <= m < i then N(i, m) * Substituted(N, m, c) else 0.0;
    x := 0.0;
    for m := 0 to i
      invariant x == Sum(m, f)
    {
      x := x + row[m] * attn[m, c];
    }
    SumExt(i, f, m => if 0 <= m < i then N(i, m) * Substituted(N, m, c) else 0.0);
  }

  method Apply(a: array2<real>, ghost A: (int, int) -> real, u: seq<real>) returns (r: seq<real>)
    requires Holds(a, A)
    ensures |r| == a.Length0
    ensures forall i | 0 <= i < |r| :: r[i] == TimesColumn(a.Length1, A, Vector(u))(i)
  {
    r := [];
    for i := 0 to a.Length0
      invariant |r| == i
      invariant forall k | 0 <= k < i :: r[k] == TimesColumn(a.Length1, A, Vector(u))(k)
    {
      ghost var x := Vector(u);
      ghost var f := j => A(i, j) * x(j);
      var acc := 0.0;
      for j := 0 to a.Length1
        invariant acc == Sum(j, f)
      {
        acc := acc + a[i, j] * At(u, j);
      }
      r := r + [acc];
    }
  }

  method MatMul(a: array2<real>, ghost A: (int, int) -> real, b: array2<real>, ghost B: (int, int) -> real)
    returns (p: array2<real>)
    requires Holds(a, A) && Holds(b, B) && a.Length1 == b.Length0
    ensures fresh(p) && p.Length0 == a.Length0 && p.Length1 == b.Length1
    ensures Holds(p, MatrixProduct(a.Length1, A, B))
  {
    ghost var P := MatrixProduct(a.Length1, A, B);
    p := new real[a.Length0, b.Length1];
    var i := 0;
    while i < a.Length0
      invariant 0 <= i <= a.Length0
      invariant forall r, c | 0 <= r < i && 0 <= c < b.Length1 :: p[r, c] == P(r, c)
    {
      var j := 0;
      while j < b.Length1
        invariant 0 <= j <= b.Length1
        invariant forall r, c | 0 <= r < i && 0 <= c < b.Length1 :: p[r, c] == P(r, c)
        invariant forall c | 0 <= c < j :: p[i, c] == P(i, c)
      {
        p[i, j] := Cell(a, A, b, B, i, j);
        j := j + 1;
      }
      i := i + 1;
    }
  }

  method Cell(a: array2<real>, ghost A: (int, int) -> real, b: array2<real>, ghost B: (int, int) -> real, i: nat,
      j: nat)
    returns (x: real)
    requires Holds(a, A) && Holds(b, B) && a.Length1 == b.Length0 && i < a.Length0 && j < b.Length1
    ensures x == MatrixProduct(a.Length1, A, B)(i, j)
  {
    ghost var f := k => A(i, k) * B(k, j);
    x := 0.0;
    for k := 0 to a.Length1
      invariant x == Sum(k, f)
    {
      x := x + a[i, k] * b[k, j];
    }
  }

  method AddIdentity(attn: array2<real>, ghost N: (int, int) -> real)
    requires attn.Length0 == attn.Length1 && Holds(attn, Filled(N))
    modifies attn
    ensures Holds(attn, Inverse(N))
  {
    for i := 0 to attn.Length0
      invariant forall r, c | 0 <= r < attn.Length0 && 0 <= c < attn.Length0 ::
        attn[r, c] == if r == c < i then Substituted(N, r, c) + 1.0 else Substituted(N, r, c)
    {
      attn[i, i] := attn[i, i] + 1.0;
    }
  }

  method FinishedMatrix(exp: real -> real, d: nat, ts: seq<Token>) returns (attn: array2<real>)
    ensures fresh(attn) && attn.Length0 == attn.Length1 == |ts|
    ensures Holds(attn, Inverse(Interaction(exp, d, ts)))
  {
    var N := Interaction(exp, d, ts);
    attn := new real[|ts|, |ts|]((i, j) => N(i, j));
    SubstituteInPlace(attn, N);
    AddIdentity(attn, N);
  }

  method SolvedValues(attn: array2<real>, ghost T: (int, int) -> real, ts: seq<Token>) returns (value: seq<real>)
    requires attn.Length0 == attn.Length1 == |ts| && Holds(attn, T)
    ensures |value| == |ts|
    ensures forall i | 0 <= i < |ts| :: value[i] == TimesColumn(|ts|, T, ScaledValue(ts))(i)
  {
    var vBeta := seq(|ts|, i => ScaledValue(ts)(i));
    value := Apply(attn, T, vBeta);
    forall i | 0 <= i < |ts|
      ensures value[i] == TimesColumn(|ts|, T, ScaledValue(ts))(i)
    {
      ColumnExt(|ts|, T, Vector(vBeta), ScaledValue(ts), i);
    }
  }

  method RecalledValues(attn: array2<real>, ghost T: (int, int) -> real, exp: real -> real, d: nat,
                        ts: seq<Token>, s: seq<real>) returns (vPrime: seq<real>)
    requires attn.Length0 == attn.Length1 == |ts| && Holds(attn, T)
    ensures |vPrime| == |ts|
    ensures forall i | 0 <= i < |ts| ::
      vPrime[i] == TimesColumn(d, MatrixProduct(|ts|, T, CumulativeKeys(exp, d, ts)), Vector(s))(i)
  {
    var K := CumulativeKeys(exp, d, ts);
    var kBeta := new real[|ts|, d]((i, c) => K(i, c));
    var kCumDecay := MatMul(attn, T, kBeta, K);
    vPrime := Apply(kCumDecay, MatrixProduct(|ts|, T, K), s);
  }

  /** The part of the chunk code that does not read queries: substitution, then v_new. */
  method SolveChunk(exp: real -> real, d: nat, ts: seq<Token>, s: seq<real>) returns (vNew: seq<real>)
    ensures |vNew| == |ts| && IsNewValues(exp, d, s, ts, Vector(vNew))
  {
    ghost var T := Inverse(Interaction(exp, d, ts));
    var attn := FinishedMatrix(exp, d, ts);
    var value := SolvedValues(attn, T, ts);
    var vPrime := RecalledValues(attn, T, exp, d, ts, s);
    vNew := seq(|ts|, i requires 0 <= i < |ts| => value[i] - vPrime[i]);
  }

  method ReadQueries(exp: real -> real, d: nat, ts: seq<Token>, s: seq<real>, vNew: seq<real>)
      returns (coreOut: seq<real>)
    ensures |coreOut| == |ts|
    ensures forall i | 0 <= i < |ts| :: coreOut[i] == ChunkOutput(exp, d, s, ts, Vector(vNew))(i)
  {
    var M, Q := QueryMask(exp, d, ts), DecayedQueries(exp, ts);
    var attn := new real[|ts|, |ts|]((i, j) => M(i, j));
    var decayedQ := new real[|ts|, d]((i, c) => Q(i, c));
    var inter := Apply(decayedQ, Q, s);
    var inner := Apply(attn, M, vNew);
    coreOut := seq(|ts|, i requires 0 <= i < |ts| => inter[i] + inner[i]);
  }

  method UpdateState(exp: real -> real, d: nat, ts: seq<Token>, s: seq<real>, vNew: seq<real>) returns (next: seq<real>)
    ensures |next| == d
    ensures forall c | 0 <= c < d :: next[c] ==
              Carried(exp, s, ts, |ts|)(c) + TimesColumn(|ts|, KeysTransposed(exp, ts), Vector(vNew))(c)
  {
    var K, old' := KeysTransposed(exp, ts), Carried(exp, s, ts, |ts|);
    var keysT := new real[d, |ts|]((c, j) => K(c, j));
    var update := Apply(keysT, K, vNew);
    next := seq(d, c requires 0 <= c < d => old'(c) + update[c]);
  }

  /** One chunk: outputs and state are those of the token-by-token rule. */
  method Chunk(exp: real -> real, d: nat, ts: seq<Token>, s: seq<real>) returns (coreOut: seq<real>, next: seq<real>)
    requires IsExp(exp) && |s| == d
    ensures coreOut == Outputs(exp, d, s, ts)
    ensures next == State(exp, d, s, ts) && |next| == d
  {
    var vNew := SolveChunk(exp, d, ts, s);
    coreOut := ReadQueries(exp, d, ts, s, vNew);
    next := UpdateState(exp, d, ts, s, vNew);
    forall i | 0 <= i < |ts|
      ensures coreOut[i] == Outputs(exp, d, s, ts)[i]
    {
      ChunkOutputsAgree(exp, d, s, ts, Vector(vNew), i);
    }
    StateWidth(exp, d, s, ts);
    forall c | 0 <= c < d
      ensures next[c] == State(exp, d, s, ts)[c]
    {
      ChunkStateAgrees(exp, d, s, ts, Vector(vNew), c);
    }
  }

  lemma {:induction false} StateWidth(exp: real -> real, d: nat, s: seq<real>, ts: seq<Token>)
    requires |s| == d
    ensures |State(exp, d, s, ts)| == d
  {
  }

  lemma {:induction false} PaddingKeepsState(exp: real -> real, d: nat, s: seq<real>, pad: nat)
    requires IsExp(exp) && |s| == d
    ensures State(exp, d, s, seq(pad, _ => PADDING)) == s
  {
    if pad > 0 {
      var ts := seq(pad, _ => PADDING);
      assert ts[..pad - 1] == seq(pad - 1, _ => PADDING);
      PaddingKeepsState(exp, d, s, pad - 1);
      forall c | 0 <= c < d
        ensures Step(exp, d, s, PADDING)[c] == s[c]
      {
        StepAt(exp, d, s, PADDING, c);
      }
    }
  }

  /** Outputs and state of the first i tokens. */
  ghost predicate Reached(exp: real -> real, d: nat, s: seq<real>, ts: seq<Token>, i: nat, out: seq<real>,
      state: seq<real>) {
    i <= |ts| && out == Outputs(exp, d, s, ts[..i]) && state == State(exp, d, s, ts[..i])
  }

  lemma ReachedNone(exp: real -> real, d: nat, s: seq<real>, ts: seq<Token>)
    ensures Reached(exp, d, s, ts, 0, [], s)
  {
    assert ts[..0] == [];
  }

  lemma ReachNext(exp: real -> real, d: nat, s: seq<real>, ts: seq<Token>, start: nat, end: nat,
                  out: seq<real>, state: seq<real>, more: seq<real>, next: seq<real>)
    requires start <= end <= |ts| && Reached(exp, d, s, ts, start, out, state)
    requires more == Outputs(exp, d, state, ts[start..end]) && next == State(exp, d, state, ts[start..end])
    ensures Reached(exp, d, s, ts, end, out + more, next)
  {
    assert ts[..end] == ts[..start] + ts[start..end];
    CutAnywhere(exp, d, s, ts[..start], ts[start..end]);
  }

  lemma DropPadding(exp: real -> real, d: nat, s: seq<real>, ts: seq<Token>, pad: nat)
    requires IsExp(exp) && |s| == d
    ensures State(exp, d, s, ts + seq(pad, _ => PADDING)) == State(exp, d, s, ts)
    ensures Outputs(exp, d, s, ts + seq(pad, _ => PADDING))[..|ts|] == Outputs(exp, d, s, ts)
  {
    CutAnywhere(exp, d, s, ts, seq(pad, _ => PADDING));
    StateWidth(exp, d, s, ts);
    PaddingKeepsState(exp, d, State(exp, d, s, ts), pad);
  }

  method ChainChunks(exp: real -> real, d: nat, padded: seq<Token>, chunkSize: nat, initial: seq<real>)
    returns (coreOut: seq<real>, lastState: seq<real>)
    requires IsExp(exp) && chunkSize > 0 && |padded| % chunkSize == 0 && |initial| == d
    ensures Reached(exp, d, initial, padded, |padded|, coreOut, lastState)
  {
    hide State, Outputs;
    coreOut, lastState := [], initial;
    ReachedNone(exp, d, initial, padded);
    var start := 0;
    while start < |padded|
      invariant 0 <= start <= |padded| && start % chunkSize == 0 && |lastState| == d
      invariant Reached(exp, d, initial, padded, start, coreOut, lastState)
    {
      NextChunkFits(start, |padded|, chunkSize);
      var end := start + chunkSize;
      var more, next := Chunk(exp, d, padded[start..end], lastState);
      ReachNext(exp, d, initial, padded, start, end, coreOut, lastState, more, next);
      coreOut, lastState, start := coreOut + more, next, end;
    }
  }

  /** Pads to whole chunks, chains the chunks through the state and drops the padded outputs:
      the result is that of the token-by-token rule for every length and chunk size. */
  method ChunkedRule(exp: real -> real, d: nat, ts: seq<Token>, chunkSize: nat, initial: seq<real>)
    returns (coreOut: seq<real>, lastState: seq<real>)
    requires IsExp(exp) && chunkSize > 0 && |initial| == d
    ensures coreOut == Outputs(exp, d, initial, ts)
    ensures lastState == State(exp, d, initial, ts)
  {
    var pad := (chunkSize - |ts| % chunkSize) % chunkSize;
    PadFills(|ts|, chunkSize);
    var padded := ts + seq(pad, _ => PADDING);
    coreOut, lastState := ChainChunks(exp, d, padded, chunkSize, initial);
    assert padded[..|padded|] == padded;
    DropPadding(exp, d, initial, ts, pad);
    coreOut := coreOut[..|ts|];
  }
}
