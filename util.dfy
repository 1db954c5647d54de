/** The matrix-building helpers of `rust_robotics_algo::util`: block assembly through the
    `Block` trait (plain matrices, `Horizontal`, `Vertical` and `Diagonal` wrappers), the
    `zeros!`, `ones!`, `diag!`, `eye!` and `dot!` macros, string `join!`, `hypot` and the
    `Point` getters. */
module Util {
  import opened Base
  import opened Linalg

  /** `hypot(x, y)`: the square root of `x*x + y*y`. */
  function Hypot(num: Numerics, x: real, y: real): real
  {
    num.sqrt(x * x + y * y)
  }

  /** `hypot` does not depend on the order of its arguments nor on their signs, so a
      distance is the same measured from either end. */
  lemma HypotSymmetric(num: Numerics, x: real, y: real)
    ensures Hypot(num, x, y) == Hypot(num, y, x)
    ensures Hypot(num, -x, y) == Hypot(num, x, y) && Hypot(num, x, -y) == Hypot(num, x, y)
  {
    assert (-x) * (-x) == x * x;
    assert (-y) * (-y) == y * y;
  }

  /** `Point::x` on a 2-vector. The `expect` never fires: a `Vector2` has two entries. */
  function PointX(p: Vector2): real
  {
    p[0]
  }

  /** `Point::y` on a 2-vector. */
  function PointY(p: Vector2): real
  {
    p[1]
  }

  /** The two `Point` getters read the two coordinates and together give back the point. */
  lemma PointCoordinates(p: Vector2)
    ensures p == [PointX(p), PointY(p)]
  {
  }

  // ---------------------------------------------------------------------------------------
  // zeros!, ones!, diag!, eye!(n)

  /** `zeros!(rows, cols)`. */
  function Zeros(rows: nat, cols: nat): (m: Matrix)
    ensures IsMatrix(m, rows, cols)
    ensures forall i, j :: 0 <= i < rows && 0 <= j < cols ==> m[i][j] == 0.0
  {
    seq(rows, _ => ZeroVector(cols))
  }

  /** `ones!(rows, cols)`. */
  function Ones(rows: nat, cols: nat): (m: Matrix)
    ensures IsMatrix(m, rows, cols)
    ensures forall i, j :: 0 <= i < rows && 0 <= j < cols ==> m[i][j] == 1.0
  {
    seq(rows, _ => seq(cols, _ => 1.0))
  }

  /** `diag!(v0, v1, ...)`: the square matrix with `v` on its diagonal. */
  function Diag(v: Vector): (m: Matrix)
    ensures IsMatrix(m, |v|, |v|)
    ensures forall i, j :: 0 <= i < |v| && 0 <= j < |v| ==> m[i][j] == if i == j then v[i] else 0.0
  {
    seq(|v|, i requires 0 <= i < |v| => seq(|v|, j requires 0 <= j < |v| => if i == j then v[i] else 0.0))
  }

  /** `eye!(n)`: the diagonal matrix built from a vector of ones. */
  function Identity(n: nat): (m: Matrix)
    ensures IsMatrix(m, n, n)
    ensures forall i, j :: 0 <= i < n && 0 <= j < n ==> m[i][j] == if i == j then 1.0 else 0.0
  {
    Diag(seq(n, _ => 1.0))
  }

  lemma {:induction false} DotZeroLeft(u: Vector, v: Vector)
    requires forall j :: 0 <= j < |u| ==> u[j] == 0.0
    ensures DotProduct(u, v) == 0.0
  {
    if |u| > 0 && |v| > 0 {
      DotZeroLeft(u[1..], v[1..]);
    }
  }

  lemma {:induction false} DotUnit(u: Vector, v: Vector, k: nat)
    requires |u| == |v| && k < |u|
    requires forall j :: 0 <= j < |u| ==> u[j] == if j == k then 1.0 else 0.0
    ensures DotProduct(u, v) == v[k]
  {
    if k == 0 {
      DotZeroLeft(u[1..], v[1..]);
    } else {
      DotUnit(u[1..], v[1..], k - 1);
    }
  }

  /** The identity of `eye!(n)` leaves every n-vector unchanged. */
  lemma IdentityMatVec(v: Vector)
    ensures MatVec(Identity(|v|), v) == v
  {
    var id := Identity(|v|);
    forall i | 0 <= i < |v|
      ensures MatVec(id, v)[i] == v[i]
    {
      DotUnit(id[i], v, i);
    }
  }

  // ---------------------------------------------------------------------------------------
  // eye!(n, k) and dot!(M, v)

  /** nalgebra's panic message for `row(i)` past the last row. */
  const ROW_OUT_OF_BOUNDS: string := "Matrix slicing out of bounds."

  /** nalgebra's panic message for a dot product of vectors of different lengths. */
  const DOT_MISMATCH: string := "Dot product dimensions mismatch"

  /** `eye!(n, k)`: an n-by-n matrix with ones on the k-th diagonal, counted upwards
      (row `i - k`, column `i` for `k > 0`; row `i + |k|`, column `i` otherwise). For
      `k < -n` the `usize` subtraction `n - |k|` panics before anything is written; for
      `k > n` the loop is empty and the result is all zeros. */
  method Eye(n: nat, k: int) returns (r: Outcome<Matrix>)
    ensures r.Panic? <==> k < 0 && -k > n
    ensures r.Panic? ==> r.message == SUBTRACT_OVERFLOW
    ensures r.Ok? ==> IsMatrix(r.value, n, n)
    ensures r.Ok? ==> forall i, j :: 0 <= i < n && 0 <= j < n ==>
      r.value[i][j] == if j - i == k then 1.0 else 0.0
    ensures k == 0 ==> r == Ok(Identity(n))
  {
    var out := Zeros(n, n);
    var offset: nat := if k < 0 then -k else k;
    if k > 0 {
      var i := offset;
      while i < n
        invariant offset <= i
        invariant IsMatrix(out, n, n)
        invariant forall row, col :: 0 <= row < n && 0 <= col < n ==>
          out[row][col] == if col - row == k && col < i then 1.0 else 0.0
      {
        out := out[i - offset := out[i - offset][i := 1.0]];
        i := i + 1;
      }
    } else {
      if offset > n {
        return Panic(SUBTRACT_OVERFLOW);
      }
      var i := 0;
      while i < n - offset
        invariant i <= n - offset
        invariant IsMatrix(out, n, n)
        invariant forall row, col :: 0 <= row < n && 0 <= col < n ==>
          out[row][col] == if col - row == k && col < i then 1.0 else 0.0
      {
        out := out[i + offset := out[i + offset][i := 1.0]];
        i := i + 1;
      }
    }
    if k == 0 {
      forall row | 0 <= row < n
        ensures out[row] == Identity(n)[row]
      {
        assert forall col :: 0 <= col < n ==> out[row][col] == Identity(n)[row][col];
      }
      assert out == Identity(n);
    }
    r := Ok(out);
  }

  /** `dot!(M, v)`: a copy of `v` whose i-th entry is replaced by row i of M dotted with v.
      The loop panics at the first `i` whose row is missing (`row(i)`) or differs in length
      from `v` (`dot`). */
  method Dot(m: Matrix, v: Vector) returns (r: Outcome<Vector>)
    ensures r.Ok? <==> |v| <= |m| && forall i :: 0 <= i < |v| ==> |m[i]| == |v|
    ensures r.Panic? ==> r.message == ROW_OUT_OF_BOUNDS || r.message == DOT_MISMATCH
    ensures r.Panic? ==>
      (r.message == ROW_OUT_OF_BOUNDS <==> forall i :: 0 <= i < |v| && i < |m| ==> |m[i]| == |v|)
    ensures r.Ok? ==> |r.value| == |v|
    ensures r.Ok? ==> forall i :: 0 <= i < |v| ==> r.value[i] == DotProduct(m[i], v)
    ensures r.Ok? && |m| == |v| ==> r.value == MatVec(m, v)
  {
    var out := v;
    var i := 0;
    while i < |out|
      invariant i <= |out| == |v|
      invariant i <= |m|
      invariant forall j :: 0 <= j < i ==> |m[j]| == |v| && out[j] == DotProduct(m[j], v)
    {
      if i >= |m| {
        return Panic(ROW_OUT_OF_BOUNDS);
      }
      if |m[i]| != |v| {
        return Panic(DOT_MISMATCH);
      }
      out := out[i := DotProduct(m[i], v)];
      i := i + 1;
    }
    r := Ok(out);
  }

  // ---------------------------------------------------------------------------------------
  // join!

  /** The concatenation of `parts`, in order. */
  function Concat(parts: seq<string>): string
  {
    if |parts| == 0 then "" else parts[0] + Concat(parts[1..])
  }

  /** Where part `k` starts in `Concat(parts)`. */
  function Offset(parts: seq<string>, k: nat): nat
    requires k <= |parts|
  {
    if k == 0 then 0 else Offset(parts, k - 1) + |parts[k - 1]|
  }

  lemma {:induction false} OffsetShift(parts: seq<string>, k: nat)
    requires 0 < |parts| && k < |parts|
    ensures Offset(parts, k + 1) == |parts[0]| + Offset(parts[1..], k)
  {
    if k > 0 {
      OffsetShift(parts, k - 1);
    }
  }

  /** `Concat(parts)` is as long as all the parts together. */
  lemma {:induction false} ConcatLength(parts: seq<string>)
    ensures |Concat(parts)| == Offset(parts, |parts|)
  {
    if |parts| > 0 {
      ConcatLength(parts[1..]);
      OffsetShift(parts, |parts| - 1);
    }
  }

  lemma SliceAfterPrefix(a: string, b: string, i: nat, j: nat)
    requires i <= j <= |b|
    ensures (a + b)[|a| + i..|a| + j] == b[i..j]
  {
    var s := (a + b)[|a| + i..|a| + j];
    forall t | 0 <= t < j - i
      ensures s[t] == b[i..j][t]
    {
    }
  }

  /** Part `k` sits in `Concat(parts)` at `Offset(parts, k)`. */
  lemma {:induction false} PartAt(parts: seq<string>, k: nat)
    requires k < |parts|
    ensures Offset(parts, k) + |parts[k]| <= |Concat(parts)|
    ensures Concat(parts)[Offset(parts, k)..Offset(parts, k) + |parts[k]|] == parts[k]
  {
    var rest := parts[1..];
    var c := Concat(parts);
    assert c == parts[0] + Concat(rest);
    if k == 0 {
      assert c[..|parts[0]|] == parts[0];
    } else {
      PartAt(rest, k - 1);
      OffsetShift(parts, k - 1);
      var o := Offset(rest, k - 1);
      assert rest[k - 1] == parts[k];
      SliceAfterPrefix(parts[0], Concat(rest), o, o + |parts[k]|);
    }
  }

  /** `join!(first, second, rest...)`: the string forms of the arguments (given here as
      strings) concatenated in order; `join!(last)` is the string form alone. */
  function Join(parts: seq<string>): (r: string)
    requires |parts| >= 1
    ensures r == Concat(parts)
  {
    if |parts| == 1 then
      parts[0]
    else
      assert parts[1..][1..] == parts[2..];
      parts[0] + parts[1] + Concat(parts[2..])
  }

  // ---------------------------------------------------------------------------------------
  // Block assembly

  /** A block expression: a plain matrix (with its shape), or the `Horizontal`, `Vertical`
      and `Diagonal` wrappers around a one- or two-element tuple of blocks. */
  datatype Block =
    | Mat(rows: nat, cols: nat, entries: Matrix)
    | Horizontal1(inner: Block)
    | Horizontal2(left: Block, right: Block)
    | Vertical2(top: Block, bottom: Block)
    | Diagonal1(inner: Block)
    | Diagonal2(first: Block, second: Block)

  /** `Block::shape`: (rows, columns). A horizontal pair takes its row count from its first
      block; a vertical pair takes its column count from its first block. */
  function Shape(b: Block): (nat, nat)
  {
    match b
    case Mat(r, c, _) => (r, c)
    case Horizontal1(x) => Shape(x)
    case Horizontal2(x, y) => (Shape(x).0, Shape(x).1 + Shape(y).1)
    case Vertical2(x, y) => (Shape(x).0 + Shape(y).0, Shape(x).1)
    case Diagonal1(x) => Shape(x)
    case Diagonal2(x, y) => (Shape(x).0 + Shape(y).0, Shape(x).1 + Shape(y).1)
  }

  /** Every plain matrix in `b` has the shape it declares (nalgebra guarantees it). */
  predicate WellFormed(b: Block)
  {
    match b
    case Mat(r, c, m) => IsMatrix(m, r, c)
    case Horizontal1(x) => WellFormed(x)
    case Horizontal2(x, y) => WellFormed(x) && WellFormed(y)
    case Vertical2(x, y) => WellFormed(x) && WellFormed(y)
    case Diagonal1(x) => WellFormed(x)
    case Diagonal2(x, y) => WellFormed(x) && WellFormed(y)
  }

  /** The `assert_eq!` checks made while populating: the two blocks of every horizontal
      pair have equal row counts, those of every vertical pair equal column counts. */
  predicate ShapesAgree(b: Block)
  {
    match b
    case Mat(_, _, _) => true
    case Horizontal1(x) => ShapesAgree(x)
    case Horizontal2(x, y) => Shape(x).0 == Shape(y).0 && ShapesAgree(x) && ShapesAgree(y)
    case Vertical2(x, y) => Shape(x).1 == Shape(y).1 && ShapesAgree(x) && ShapesAgree(y)
    case Diagonal1(x) => ShapesAgree(x)
    case Diagonal2(x, y) => ShapesAgree(x) && ShapesAgree(y)
  }

  /** The rows of `l` and `r` joined pairwise: `l` on the left, `r` on the right. */
  function SideBySide(l: Matrix, r: Matrix, rows: nat, cl: nat, cr: nat): (m: Matrix)
    requires IsMatrix(l, rows, cl) && IsMatrix(r, rows, cr)
    ensures IsMatrix(m, rows, cl + cr)
    ensures forall i, j :: 0 <= i < rows && 0 <= j < cl + cr ==>
      m[i][j] == if j < cl then l[i][j] else r[i][j - cl]
  {
    seq(rows, i requires 0 <= i < rows => l[i] + r[i])
  }

  /** The rows of `t` followed by the rows of `u`. */
  function Stacked(t: Matrix, u: Matrix, rt: nat, ru: nat, cols: nat): (m: Matrix)
    requires IsMatrix(t, rt, cols) && IsMatrix(u, ru, cols)
    ensures IsMatrix(m, rt + ru, cols)
    ensures forall i, j :: 0 <= i < rt + ru && 0 <= j < cols ==>
      m[i][j] == if i < rt then t[i][j] else u[i - rt][j]
  {
    t + u
  }

  /** `a` in the top-left corner, `d` in the bottom-right corner, zeros elsewhere. */
  function DiagonalPair(a: Matrix, d: Matrix, ra: nat, ca: nat, rd: nat, cd: nat): (m: Matrix)
    requires IsMatrix(a, ra, ca) && IsMatrix(d, rd, cd)
    ensures IsMatrix(m, ra + rd, ca + cd)
    ensures forall i, j :: 0 <= i < ra + rd && 0 <= j < ca + cd ==>
      m[i][j] ==
        if i < ra && j < ca then a[i][j]
        else if ra <= i && ca <= j then d[i - ra][j - ca]
        else 0.0
  {
    Stacked(SideBySide(a, Zeros(ra, cd), ra, ca, cd), SideBySide(Zeros(rd, ca), d, rd, ca, cd), ra, rd, ca + cd)
  }

  /** The matrix a block expression denotes: side by side, one above the other, or on the
      diagonal with zero off-diagonal blocks. */
  function Assemble(b: Block): (m: Matrix)
    requires WellFormed(b) && ShapesAgree(b)
    ensures IsMatrix(m, Shape(b).0, Shape(b).1)
  {
    match b
    case Mat(_, _, m) => m
    case Horizontal1(x) => Assemble(x)
    case Horizontal2(x, y) => SideBySide(Assemble(x), Assemble(y), Shape(x).0, Shape(x).1, Shape(y).1)
    case Vertical2(x, y) => Stacked(Assemble(x), Assemble(y), Shape(x).0, Shape(y).0, Shape(x).1)
    case Diagonal1(x) => Assemble(x)
    case Diagonal2(x, y) => DiagonalPair(Assemble(x), Assemble(y), Shape(x).0, Shape(x).1, Shape(y).0, Shape(y).1)
  }

  /** Entry (i, j) of a diagonal pair: from the first block in its corner, from the second
      block past both offsets, zero in the two off-diagonal blocks. */
  lemma DiagonalEntry(x: Block, y: Block, i: nat, j: nat)
    requires WellFormed(x) && WellFormed(y) && ShapesAgree(x) && ShapesAgree(y)
    requires i < Shape(x).0 + Shape(y).0 && j < Shape(x).1 + Shape(y).1
    ensures Assemble(Diagonal2(x, y))[i][j] ==
      if i < Shape(x).0 && j < Shape(x).1 then Assemble(x)[i][j]
      else if Shape(x).0 <= i && Shape(x).1 <= j then Assemble(y)[i - Shape(x).0][j - Shape(x).1]
      else 0.0
  {
  }

  /** Whether `populate` writes cell (i, j) of the block's window: every cell except those
      in the off-diagonal blocks of a diagonal pair. */
  predicate Written(b: Block, i: nat, j: nat)
  {
    match b
    case Mat(_, _, _) => true
    case Horizontal1(x) => Written(x, i, j)
    case Horizontal2(x, y) => if j < Shape(x).1 then Written(x, i, j) else Written(y, i, j - Shape(x).1)
    case Vertical2(x, y) => if i < Shape(x).0 then Written(x, i, j) else Written(y, i - Shape(x).0, j)
    case Diagonal1(x) => Written(x, i, j)
    case Diagonal2(x, y) =>
      if i < Shape(x).0 && j < Shape(x).1 then Written(x, i, j)
      else if Shape(x).0 <= i && Shape(x).1 <= j then Written(y, i - Shape(x).0, j - Shape(x).1)
      else false
  }

  /** Every cell that `populate` leaves alone is zero in the assembled matrix, so populating
      a zero matrix yields exactly the assembled matrix. */
  lemma {:induction false} UnwrittenIsZero(b: Block, i: nat, j: nat)
    requires WellFormed(b) && ShapesAgree(b)
    requires i < Shape(b).0 && j < Shape(b).1 && !Written(b, i, j)
    ensures Assemble(b)[i][j] == 0.0
  {
    match b
    case Mat(_, _, _) =>
    case Horizontal1(x) => UnwrittenIsZero(x, i, j);
    case Horizontal2(x, y) =>
      if j < Shape(x).1 { UnwrittenIsZero(x, i, j); } else { UnwrittenIsZero(y, i, j - Shape(x).1); }
    case Vertical2(x, y) =>
      if i < Shape(x).0 { UnwrittenIsZero(x, i, j); } else { UnwrittenIsZero(y, i - Shape(x).0, j); }
    case Diagonal1(x) => UnwrittenIsZero(x, i, j);
    case Diagonal2(x, y) =>
      if i < Shape(x).0 && j < Shape(x).1 {
        UnwrittenIsZero(x, i, j);
      } else if Shape(x).0 <= i && Shape(x).1 <= j {
        UnwrittenIsZero(y, i - Shape(x).0, j - Shape(x).1);
      }
  }

  /** Cell (i, j) of `out` lies in the window of `rows` by `cols` cells at (r0, c0). */
  predicate InWindow(i: int, j: int, r0: nat, c0: nat, rows: nat, cols: nat)
  {
    r0 <= i < r0 + rows && c0 <= j < c0 + cols
  }

  /** `Block::populate` into the window of `out` at (r0, c0): a plain matrix copies itself,
      a one-element wrapper populates its block, a pair populates its first block at the
      window's corner and its second block at the column offset (horizontal), the row
      offset (vertical) or both offsets (diagonal). `ok` is false where an `assert_eq!`
      fails (the program then aborts, leaving the window partly written); cells outside the
      window never change. */
  method Populate(b: Block, out: array2<real>, r0: nat, c0: nat) returns (ok: bool)
    requires WellFormed(b)
    requires r0 + Shape(b).0 <= out.Length0 && c0 + Shape(b).1 <= out.Length1
    modifies out
    ensures ok == ShapesAgree(b)
    ensures forall i, j | 0 <= i < out.Length0 && 0 <= j < out.Length1 ::
      !InWindow(i, j, r0, c0, Shape(b).0, Shape(b).1) ==> out[i, j] == old(out[i, j])
    ensures ok ==> forall i, j | 0 <= i < out.Length0 && 0 <= j < out.Length1 ::
      InWindow(i, j, r0, c0, Shape(b).0, Shape(b).1) ==>
        out[i, j] == if Written(b, i - r0, j - c0) then Assemble(b)[i - r0][j - c0] else old(out[i, j])
    decreases b, 1
  {
    match b
    case Mat(rows, cols, m) =>
      CopyInto(m, rows, cols, out, r0, c0);
      ok := true;
    case Horizontal1(x) =>
      ok := Populate(x, out, r0, c0);
    case Diagonal1(x) =>
      ok := Populate(x, out, r0, c0);
    case Horizontal2(x, y) =>
      ok := PopulateHorizontal(x, y, out, r0, c0);
    case Vertical2(x, y) =>
      ok := PopulateVertical(x, y, out, r0, c0);
    case Diagonal2(x, y) =>
      ok := PopulateDiagonal(x, y, out, r0, c0);
  }

  /** `Horizontal((x, y)).populate`: checks the row counts, then x at (r0, c0) and y at
      (r0, c0 + cols of x). */
  method PopulateHorizontal(x: Block, y: Block, out: array2<real>, r0: nat, c0: nat) returns (ok: bool)
    requires WellFormed(x) && WellFormed(y)
    requires r0 + Shape(x).0 <= out.Length0 && c0 + Shape(x).1 + Shape(y).1 <= out.Length1
    modifies out
    ensures ok == ShapesAgree(Horizontal2(x, y))
    ensures forall i, j | 0 <= i < out.Length0 && 0 <= j < out.Length1 ::
      !InWindow(i, j, r0, c0, Shape(x).0, Shape(x).1 + Shape(y).1) ==> out[i, j] == old(out[i, j])
    ensures ok ==> forall i, j | 0 <= i < out.Length0 && 0 <= j < out.Length1 ::
      InWindow(i, j, r0, c0, Shape(x).0, Shape(x).1 + Shape(y).1) ==>
        out[i, j] ==
          if Written(Horizontal2(x, y), i - r0, j - c0) then Assemble(Horizontal2(x, y))[i - r0][j - c0]
          else old(out[i, j])
    decreases Horizontal2(x, y), 0
  {
    if Shape(x).0 != Shape(y).0 {
      return false;
    }
    ok := Populate(x, out, r0, c0);
    if !ok {
      return;
    }
    ok := Populate(y, out, r0, c0 + Shape(x).1);
  }

  /** `Vertical((x, y)).populate`: checks the column counts, then x at (r0, c0) and y at
      (r0 + rows of x, c0). */
  method PopulateVertical(x: Block, y: Block, out: array2<real>, r0: nat, c0: nat) returns (ok: bool)
    requires WellFormed(x) && WellFormed(y)
    requires r0 + Shape(x).0 + Shape(y).0 <= out.Length0 && c0 + Shape(x).1 <= out.Length1
    modifies out
    ensures ok == ShapesAgree(Vertical2(x, y))
    ensures forall i, j | 0 <= i < out.Length0 && 0 <= j < out.Length1 ::
      !InWindow(i, j, r0, c0, Shape(x).0 + Shape(y).0, Shape(x).1) ==> out[i, j] == old(out[i, j])
    ensures ok ==> forall i, j | 0 <= i < out.Length0 && 0 <= j < out.Length1 ::
      InWindow(i, j, r0, c0, Shape(x).0 + Shape(y).0, Shape(x).1) ==>
        out[i, j] ==
          if Written(Vertical2(x, y), i - r0, j - c0) then Assemble(Vertical2(x, y))[i - r0][j - c0]
          else old(out[i, j])
    decreases Vertical2(x, y), 0
  {
    if Shape(x).1 != Shape(y).1 {
      return false;
    }
    ok := Populate(x, out, r0, c0);
    if !ok {
      return;
    }
    ok := Populate(y, out, r0 + Shape(x).0, c0);
  }

  /** `Diagonal((x, y)).populate`: x at (r0, c0) and y at (r0 + rows of x, c0 + cols of x);
      the off-diagonal blocks are not written. */
  method PopulateDiagonal(x: Block, y: Block, out: array2<real>, r0: nat, c0: nat) returns (ok: bool)
    requires WellFormed(x) && WellFormed(y)
    requires r0 + Shape(x).0 + Shape(y).0 <= out.Length0 && c0 + Shape(x).1 + Shape(y).1 <= out.Length1
    modifies out
    ensures ok == ShapesAgree(Diagonal2(x, y))
    ensures forall i, j | 0 <= i < out.Length0 && 0 <= j < out.Length1 ::
      !InWindow(i, j, r0, c0, Shape(x).0 + Shape(y).0, Shape(x).1 + Shape(y).1) ==> out[i, j] == old(out[i, j])
    ensures ok ==> forall i, j | 0 <= i < out.Length0 && 0 <= j < out.Length1 ::
      InWindow(i, j, r0, c0, Shape(x).0 + Shape(y).0, Shape(x).1 + Shape(y).1) ==>
        out[i, j] ==
          if Written(Diagonal2(x, y), i - r0, j - c0) then Assemble(Diagonal2(x, y))[i - r0][j - c0]
          else old(out[i, j])
    decreases Diagonal2(x, y), 0
  {
    ok := Populate(x, out, r0, c0);
    if !ok {
      return;
    }
    ok := Populate(y, out, r0 + Shape(x).0, c0 + Shape(x).1);
  }

  /** `output.copy_from(self)` for a plain `rows` by `cols` matrix. */
  method CopyInto(m: Matrix, rows: nat, cols: nat, out: array2<real>, r0: nat, c0: nat)
    requires IsMatrix(m, rows, cols)
    requires r0 + rows <= out.Length0 && c0 + cols <= out.Length1
    modifies out
    ensures forall i, j :: 0 <= i < out.Length0 && 0 <= j < out.Length1 ==>
      out[i, j] == if InWindow(i, j, r0, c0, rows, cols) then m[i - r0][j - c0] else old(out[i, j])
  {
    var i := 0;
    while i < rows
      invariant i <= rows
      invariant forall a, c :: 0 <= a < out.Length0 && 0 <= c < out.Length1 ==>
        out[a, c] == if InWindow(a, c, r0, c0, i, cols) then m[a - r0][c - c0] else old(out[a, c])
    {
      var j := 0;
      while j < cols
        invariant j <= cols
        invariant forall a, c :: 0 <= a < out.Length0 && 0 <= c < out.Length1 ==>
          out[a, c] ==
            if InWindow(a, c, r0, c0, i, cols) || InWindow(a, c, r0 + i, c0, 1, j) then m[a - r0][c - c0]
            else old(out[a, c])
      {
        out[r0 + i, c0 + j] := m[i][j];
        j := j + 1;
      }
      i := i + 1;
    }
  }

  /** `allocate_block_output`: a zero matrix of the block's shape. */
  method AllocateBlockOutput(b: Block) returns (out: array2<real>)
    ensures fresh(out) && out.Length0 == Shape(b).0 && out.Length1 == Shape(b).1
    ensures forall i, j :: 0 <= i < out.Length0 && 0 <= j < out.Length1 ==> out[i, j] == 0.0
  {
    out := new real[Shape(b).0, Shape(b).1]((i, j) => 0.0);
  }

  /** The body shared by the `*_pair!` macros: allocate a zero output, populate it. On
      success the output is exactly the assembled block matrix. */
  method Build(b: Block) returns (ok: bool, out: array2<real>)
    requires WellFormed(b)
    ensures fresh(out)
    ensures out.Length0 == Shape(b).0 && out.Length1 == Shape(b).1
    ensures ok == ShapesAgree(b)
    ensures ok ==> forall i, j :: 0 <= i < out.Length0 && 0 <= j < out.Length1 ==>
      out[i, j] == Assemble(b)[i][j]
  {
    out := AllocateBlockOutput(b);
    ok := Populate(b, out, 0, 0);
    if ok {
      forall i, j | 0 <= i < out.Length0 && 0 <= j < out.Length1
        ensures out[i, j] == Assemble(b)[i][j]
      {
        assert InWindow(i, j, 0, 0, Shape(b).0, Shape(b).1);
        if !Written(b, i, j) {
          UnwrittenIsZero(b, i, j);
        }
      }
    }
  }

  /** `hstack_pair!(x, y)`: shape (rows of x, cols of x + cols of y); x at column 0 and y at
      column offset `cols of x`; aborts unless the row counts agree. */
  method HStackPair(x: Block, y: Block) returns (ok: bool, out: array2<real>)
    requires WellFormed(x) && WellFormed(y)
    ensures fresh(out)
    ensures out.Length0 == Shape(x).0 && out.Length1 == Shape(x).1 + Shape(y).1
    ensures ok <==> Shape(x).0 == Shape(y).0 && ShapesAgree(x) && ShapesAgree(y)
    ensures ok ==> forall i, j :: 0 <= i < out.Length0 && 0 <= j < out.Length1 ==>
      out[i, j] == if j < Shape(x).1 then Assemble(x)[i][j] else Assemble(y)[i][j - Shape(x).1]
  {
    ok, out := Build(Horizontal2(x, y));
  }

  /** `vstack_pair!(x, y)`: shape (rows of x + rows of y, cols of x); y at row offset
      `rows of x`; aborts unless the column counts agree. */
  method VStackPair(x: Block, y: Block) returns (ok: bool, out: array2<real>)
    requires WellFormed(x) && WellFormed(y)
    ensures fresh(out)
    ensures out.Length0 == Shape(x).0 + Shape(y).0 && out.Length1 == Shape(x).1
    ensures ok <==> Shape(x).1 == Shape(y).1 && ShapesAgree(x) && ShapesAgree(y)
    ensures ok ==> forall i, j :: 0 <= i < out.Length0 && 0 <= j < out.Length1 ==>
      out[i, j] == if i < Shape(x).0 then Assemble(x)[i][j] else Assemble(y)[i - Shape(x).0][j]
  {
    ok, out := Build(Vertical2(x, y));
  }

  /** `block_diag_pair!(x, y)`: shape (rows x + rows y, cols x + cols y), x at the corner,
      y at (rows of x, cols of x), zero elsewhere. */
  method BlockDiagPair(x: Block, y: Block) returns (ok: bool, out: array2<real>)
    requires WellFormed(x) && WellFormed(y)
    ensures fresh(out)
    ensures out.Length0 == Shape(x).0 + Shape(y).0 && out.Length1 == Shape(x).1 + Shape(y).1
    ensures ok <==> ShapesAgree(x) && ShapesAgree(y)
    ensures ok ==> forall i, j :: 0 <= i < out.Length0 && 0 <= j < out.Length1 ==>
      out[i, j] ==
        if i < Shape(x).0 && j < Shape(x).1 then Assemble(x)[i][j]
        else if Shape(x).0 <= i && Shape(x).1 <= j then Assemble(y)[i - Shape(x).0][j - Shape(x).1]
        else 0.0
  {
    ok, out := Build(Diagonal2(x, y));
    if ok {
      forall i, j | 0 <= i < out.Length0 && 0 <= j < out.Length1
        ensures out[i, j] ==
          if i < Shape(x).0 && j < Shape(x).1 then Assemble(x)[i][j]
          else if Shape(x).0 <= i && Shape(x).1 <= j then Assemble(y)[i - Shape(x).0][j - Shape(x).1]
          else 0.0
      {
        DiagonalEntry(x, y, i, j);
      }
    }
  }
}
