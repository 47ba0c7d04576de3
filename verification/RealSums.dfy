/** Finite sums and inner products over the exact reals, and the only facts about the
    exponential that the kernels of the runtime rely on. */
module RealSums {

  function Sum(n: nat, f: int -> real): real {
    if n == 0 then 0.0 else Sum(n - 1, f) + f(n - 1)
  }

  function Inner(n: nat, x: int -> real, y: int -> real): real {
    Sum(n, i => x(i) * y(i))
  }

  /** Reading past the end of a vector gives 0, as zero padding does. */
  function At(v: seq<real>, i: int): real {
    if 0 <= i < |v| then v[i] else 0.0
  }

  function Vector(v: seq<real>): int -> real {
    i => At(v, i)
  }

  function Dot(d: nat, x: seq<real>, y: seq<real>): real {
    Inner(d, Vector(x), Vector(y))
  }

  lemma {:induction false} SumExt(n: nat, f: int -> real, g: int -> real)
    requires forall i | 0 <= i < n :: f(i) == g(i)
    ensures Sum(n, f) == Sum(n, g)
  {
    if n > 0 {
      SumExt(n - 1, f, g);
    }
  }

  lemma {:induction false} SumZero(n: nat, f: int -> real)
    requires forall i | 0 <= i < n :: f(i) == 0.0
    ensures Sum(n, f) == 0.0
  {
    if n > 0 {
      SumZero(n - 1, f);
    }
  }

  /** Terms beyond m that vanish do not change the sum. */
  lemma {:induction false} SumTail(m: nat, n: nat, f: int -> real)
    requires m <= n
    requires forall i | m <= i < n :: f(i) == 0.0
    ensures Sum(n, f) == Sum(m, f)
  {
    if m < n {
      SumTail(m, n - 1, f);
    }
  }

  lemma {:induction false} SumAdd(n: nat, f: int -> real, g: int -> real, h: int -> real)
    requires forall i | 0 <= i < n :: h(i) == f(i) + g(i)
    ensures Sum(n, h) == Sum(n, f) + Sum(n, g)
  {
    if n > 0 {
      SumAdd(n - 1, f, g, h);
    }
  }

  lemma {:induction false} SumScale(n: nat, c: real, f: int -> real, h: int -> real)
    requires forall i | 0 <= i < n :: h(i) == c * f(i)
    ensures Sum(n, h) == c * Sum(n, f)
  {
    if n > 0 {
      SumScale(n - 1, c, f, h);
    }
  }

  /** Interchange of two finite sums. */
  lemma {:induction false} SumSwap(m: nat, n: nat, h: (int, int) -> real, rows: int -> real, cols: int -> real)
    requires forall i | 0 <= i < m :: rows(i) == Sum(n, j => h(i, j))
    requires forall j | 0 <= j < n :: cols(j) == Sum(m, i => h(i, j))
    ensures Sum(m, rows) == Sum(n, cols)
  {
    if m == 0 {
      SumZero(n, cols);
    } else {
      var cols' := j => Sum(m - 1, i => h(i, j));
      SumSwap(m - 1, n, h, rows, cols');
      var last := j => h(m - 1, j);
      SumExt(n, last, j => h(m - 1, j));
      SumAdd(n, cols', last, cols);
    }
  }

  lemma InnerExt(n: nat, x: int -> real, x': int -> real, y: int -> real, y': int -> real)
    requires forall i | 0 <= i < n :: x(i) == x'(i) && y(i) == y'(i)
    ensures Inner(n, x, y) == Inner(n, x', y')
  {
    SumExt(n, i => x(i) * y(i), i => x'(i) * y'(i));
  }

  lemma InnerSymmetric(n: nat, x: int -> real, y: int -> real)
    ensures Inner(n, x, y) == Inner(n, y, x)
  {
    SumExt(n, i => x(i) * y(i), i => y(i) * x(i));
  }

  /** The inner product is linear in its first argument. */
  lemma InnerAdd(n: nat, x: int -> real, y: int -> real, z: int -> real, u: int -> real)
    requires forall i | 0 <= i < n :: z(i) == x(i) + y(i)
    ensures Inner(n, z, u) == Inner(n, x, u) + Inner(n, y, u)
  {
    var f, g, h := i => x(i) * u(i), i => y(i) * u(i), i => z(i) * u(i);
    forall i | 0 <= i < n
      ensures h(i) == f(i) + g(i)
    {
      Distribute(x(i), y(i), u(i));
    }
    SumAdd(n, f, g, h);
  }

  lemma InnerScale(n: nat, c: real, x: int -> real, z: int -> real, u: int -> real)
    requires forall i | 0 <= i < n :: z(i) == c * x(i)
    ensures Inner(n, z, u) == c * Inner(n, x, u)
  {
    var f, h := i => x(i) * u(i), i => z(i) * u(i);
    forall i | 0 <= i < n
      ensures h(i) == c * f(i)
    {
      Associate(c, x(i), u(i));
    }
    SumScale(n, c, f, h);
  }

  lemma InnerTail(m: nat, n: nat, x: int -> real, u: int -> real)
    requires m <= n
    requires forall c | m <= c < n :: x(c) == 0.0
    ensures Inner(n, x, u) == Inner(m, x, u)
  {
    SumTail(m, n, c => x(c) * u(c));
  }

  /** The inner product with row i of the identity picks component i. */
  lemma InnerUnit(n: nat, i: nat, e: int -> real, u: int -> real)
    requires i < n
    requires forall c | 0 <= c < n :: e(c) == if i == c then 1.0 else 0.0
    ensures Inner(n, e, u) == u(i)
  {
    InnerTail(i + 1, n, e, u);
    SumZero(i, c => e(c) * u(c));
  }

  lemma InnerScaleSwap(n: nat, c: real, x: int -> real, z: int -> real, u: int -> real)
    requires forall i | 0 <= i < n :: z(i) == c * x(i)
    ensures Inner(n, z, u) == c * Inner(n, u, x)
  {
    InnerScale(n, c, x, z, u);
    InnerSymmetric(n, x, u);
  }

  lemma Distribute(x: real, y: real, z: real)
    ensures (x + y) * z == x * z + y * z
  {
  }

  lemma Associate(x: real, y: real, z: real)
    ensures x * (y * z) == (x * y) * z
  {
  }

  /** A row vector times a matrix, and a matrix times a column vector. */
  function RowTimes(m: nat, a: int -> real, M: (int, int) -> real): int -> real {
    j => Sum(m, i => a(i) * M(i, j))
  }

  function TimesColumn(n: nat, M: (int, int) -> real, u: int -> real): int -> real {
    i => Sum(n, j => M(i, j) * u(j))
  }

  lemma ColumnScale(n: nat, M: (int, int) -> real, u: int -> real, i: int, b: real, x: int -> real, y: int -> real)
    requires forall c | 0 <= c < n :: M(i, c) * u(c) == b * (x(c) * y(c))
    ensures TimesColumn(n, M, u)(i) == b * Inner(n, x, y)
  {
    SumScale(n, b, c => x(c) * y(c), j => M(i, j) * u(j));
  }

  lemma RowTimesStep(n: nat, a: int -> real, M: (int, int) -> real, c: int)
    ensures RowTimes(n + 1, a, M)(c) == RowTimes(n, a, M)(c) + a(n) * M(n, c)
    ensures RowTimes(0, a, M)(c) == 0.0
  {
  }

  lemma RowScales(n: nat, x: real, a: int -> real, M: (int, int) -> real, M': (int, int) -> real, c: int)
    requires forall j | 0 <= j < n :: M'(j, c) == x * M(j, c)
    ensures RowTimes(n, a, M')(c) == x * RowTimes(n, a, M)(c)
  {
    var f, h := j => a(j) * M(j, c), j => a(j) * M'(j, c);
    forall j | 0 <= j < n
      ensures h(j) == x * f(j)
    {
      Associate(x, M(j, c), a(j));
    }
    SumScale(n, x, f, h);
  }

  function MatrixProduct(n: nat, A: (int, int) -> real, B: (int, int) -> real): (int, int) -> real {
    (i, j) => Sum(n, k => A(i, k) * B(k, j))
  }

  function Row(M: (int, int) -> real, i: int): int -> real {
    c => M(i, c)
  }

  lemma RowAsInner(n: nat, M: (int, int) -> real, u: int -> real, i: int)
    ensures TimesColumn(n, M, u)(i) == Inner(n, Row(M, i), u)
  {
    SumExt(n, c => M(i, c) * u(c), c => Row(M, i)(c) * u(c));
  }

  lemma ColumnExt(n: nat, M: (int, int) -> real, u: int -> real, v: int -> real, i: int)
    requires forall j | 0 <= j < n :: u(j) == v(j)
    ensures TimesColumn(n, M, u)(i) == TimesColumn(n, M, v)(i)
  {
    SumExt(n, j => M(i, j) * u(j), j => M(i, j) * v(j));
  }

  /** (A B) u == A (B u), row by row. */
  lemma ProductAssociates(m: nat, n: nat, A: (int, int) -> real, B: (int, int) -> real, u: int -> real, i: int)
    ensures TimesColumn(n, MatrixProduct(m, A, B), u)(i) == TimesColumn(m, A, TimesColumn(n, B, u))(i)
  {
    RowAsInner(n, MatrixProduct(m, A, B), u, i);
    RowAsInner(m, A, TimesColumn(n, B, u), i);
    InnerAssociates(m, n, Row(A, i), B, u);
    var left, right := Row(MatrixProduct(m, A, B), i), RowTimes(m, Row(A, i), B);
    forall j | 0 <= j < n
      ensures left(j) == right(j)
    {
      SumExt(m, k => A(i, k) * B(k, j), k => Row(A, i)(k) * B(k, j));
    }
    InnerExt(n, left, right, u, u);
  }

  /** (a M) u == a (M u). */
  lemma InnerAssociates(m: nat, n: nat, a: int -> real, M: (int, int) -> real, u: int -> real)
    ensures Inner(n, RowTimes(m, a, M), u) == Inner(m, a, TimesColumn(n, M, u))
  {
    var h := (i: int, j: int) => a(i) * M(i, j) * u(j);
    var rows := i => a(i) * TimesColumn(n, M, u)(i);
    var cols := j => RowTimes(m, a, M)(j) * u(j);
    forall i | 0 <= i < m
      ensures rows(i) == Sum(n, j => h(i, j))
    {
      var f := j => M(i, j) * u(j);
      var g := j => h(i, j);
      forall j | 0 <= j < n
        ensures g(j) == a(i) * f(j)
      {
        Associate(a(i), M(i, j), u(j));
      }
      SumScale(n, a(i), f, g);
    }
    forall j | 0 <= j < n
      ensures cols(j) == Sum(m, i => h(i, j))
    {
      var f := i => a(i) * M(i, j);
      var g := i => h(i, j);
      SumScale(m, u(j), f, g);
    }
    SumSwap(m, n, h, rows, cols);
  }

  /** All that is used of the exponential: it is positive and turns sums into products. */
  ghost predicate IsExp(exp: real -> real) {
    && exp(0.0) == 1.0
    && (forall x, y {:trigger ExpAdds(exp, x, y)} :: ExpAdds(exp, x, y))
    && (forall x {:trigger ExpPositive(exp, x)} :: ExpPositive(exp, x))
  }

  ghost predicate ExpAdds(exp: real -> real, x: real, y: real) {
    exp(x + y) == exp(x) * exp(y)
  }

  ghost predicate ExpPositive(exp: real -> real, x: real) {
    exp(x) > 0.0
  }
}
