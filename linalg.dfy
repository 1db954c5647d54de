/** The fixed-size matrix arithmetic of nalgebra that the algorithms rely on, over reals.
    Matrices are sequences of rows. Every operation is total: an entry that one operand lacks
    reads as zero, so on operands of matching shapes each operation is the usual one and no
    shape precondition has to be carried through the solvers. */
module Linalg {

  type Vector = seq<real>
  type Matrix = seq<seq<real>>

  type Vector2 = v: Vector | |v| == 2 witness [0.0, 0.0]
  type Vector3 = v: Vector | |v| == 3 witness [0.0, 0.0, 0.0]
  type Vector4 = v: Vector | |v| == 4 witness [0.0, 0.0, 0.0, 0.0]

  /** `m` has `rows` rows, each of `cols` entries. */
  predicate IsMatrix(m: Matrix, rows: nat, cols: nat)
  {
    |m| == rows && forall i :: 0 <= i < rows ==> |m[i]| == cols
  }

  /** Number of columns, read off the first row. */
  function Cols(m: Matrix): nat
  {
    if |m| == 0 then 0 else |m[0]|
  }

  /** Entry (i, j), or zero where `m` has none. */
  function Entry(m: Matrix, i: nat, j: nat): real
  {
    if i < |m| && j < |m[i]| then m[i][j] else 0.0
  }

  function Abs(x: real): real
  {
    if x < 0.0 then -x else x
  }

  function Max(x: real, y: real): real
  {
    if x < y then y else x
  }

  /** Inner product over the common prefix of `a` and `b`. */
  function DotProduct(a: Vector, b: Vector): real
    decreases |a|
  {
    if |a| == 0 || |b| == 0 then 0.0 else a[0] * b[0] + DotProduct(a[1..], b[1..])
  }

  function Column(m: Matrix, j: nat): (c: Vector)
    ensures |c| == |m|
  {
    seq(|m|, i requires 0 <= i < |m| => Entry(m, i, j))
  }

  function Transpose(m: Matrix): (t: Matrix)
    ensures |t| == Cols(m)
    ensures forall j :: 0 <= j < |t| ==> |t[j]| == |m|
  {
    seq(Cols(m), j requires 0 <= j < Cols(m) => Column(m, j))
  }

  function Mul(a: Matrix, b: Matrix): (c: Matrix)
    ensures |c| == |a|
    ensures forall i :: 0 <= i < |c| ==> |c[i]| == Cols(b)
  {
    seq(|a|, i requires 0 <= i < |a| => seq(Cols(b), j requires 0 <= j < Cols(b) => DotProduct(a[i], Column(b, j))))
  }

  /** Entrywise sum; the shape is that of `a`. */
  function Add(a: Matrix, b: Matrix): (c: Matrix)
    ensures |c| == |a|
    ensures forall i :: 0 <= i < |c| ==> |c[i]| == |a[i]|
    ensures forall i, j :: 0 <= i < |a| && 0 <= j < |a[i]| ==> c[i][j] == a[i][j] + Entry(b, i, j)
  {
    seq(|a|, i requires 0 <= i < |a| =>
      seq(|a[i]|, j requires 0 <= j < |a[i]| => a[i][j] + Entry(b, i, j)))
  }

  /** Entrywise difference; the shape is that of `a`. */
  function Sub(a: Matrix, b: Matrix): (c: Matrix)
    ensures |c| == |a|
    ensures forall i :: 0 <= i < |c| ==> |c[i]| == |a[i]|
    ensures forall i, j :: 0 <= i < |a| && 0 <= j < |a[i]| ==> c[i][j] == a[i][j] - Entry(b, i, j)
  {
    seq(|a|, i requires 0 <= i < |a| =>
      seq(|a[i]|, j requires 0 <= j < |a[i]| => a[i][j] - Entry(b, i, j)))
  }

  function Scale(s: real, a: Matrix): (c: Matrix)
    ensures |c| == |a|
    ensures forall i :: 0 <= i < |c| ==> |c[i]| == |a[i]|
    ensures forall i, j :: 0 <= i < |a| && 0 <= j < |a[i]| ==> c[i][j] == s * a[i][j]
  {
    seq(|a|, i requires 0 <= i < |a| => seq(|a[i]|, j requires 0 <= j < |a[i]| => s * a[i][j]))
  }

  /** Unary minus. */
  function Neg(a: Matrix): (c: Matrix)
    ensures |c| == |a|
    ensures forall i :: 0 <= i < |c| ==> |c[i]| == |a[i]|
  {
    seq(|a|, i requires 0 <= i < |a| => seq(|a[i]|, j requires 0 <= j < |a[i]| => -a[i][j]))
  }

  /** Matrix times column vector. */
  function MatVec(m: Matrix, v: Vector): (r: Vector)
    ensures |r| == |m|
    ensures forall i :: 0 <= i < |m| ==> r[i] == DotProduct(m[i], v)
  {
    seq(|m|, i requires 0 <= i < |m| => DotProduct(m[i], v))
  }

  function VecAdd(a: Vector, b: Vector): (r: Vector)
    requires |a| == |b|
    ensures |r| == |a|
    ensures forall i :: 0 <= i < |a| ==> r[i] == a[i] + b[i]
  {
    seq(|a|, i requires 0 <= i < |a| => a[i] + b[i])
  }

  function VecSub(a: Vector, b: Vector): (r: Vector)
    requires |a| == |b|
    ensures |r| == |a|
    ensures forall i :: 0 <= i < |a| ==> r[i] == a[i] - b[i]
  {
    seq(|a|, i requires 0 <= i < |a| => a[i] - b[i])
  }

  function ScaleVec(s: real, v: Vector): (r: Vector)
    ensures |r| == |v|
    ensures forall i :: 0 <= i < |v| ==> r[i] == s * v[i]
  {
    seq(|v|, i requires 0 <= i < |v| => s * v[i])
  }

  /** The outer product `a * b^T`. */
  function Outer(a: Vector, b: Vector): (m: Matrix)
    ensures IsMatrix(m, |a|, |b|)
  {
    seq(|a|, i requires 0 <= i < |a| => seq(|b|, j requires 0 <= j < |b| => a[i] * b[j]))
  }

  /** Sum of the entries, accumulated from the front. */
  function Sum(s: seq<real>): real
  {
    if |s| == 0 then 0.0 else Sum(s[..|s| - 1]) + s[|s| - 1]
  }

  /** Largest absolute entry of one row (zero for an empty row). */
  function MaxAbsRow(r: seq<real>): real
  {
    if |r| == 0 then 0.0 else Max(MaxAbsRow(r[..|r| - 1]), Abs(r[|r| - 1]))
  }

  /** nalgebra's `abs().amax()`: the largest absolute entry, zero for an empty matrix. */
  function MaxAbs(m: Matrix): real
  {
    if |m| == 0 then 0.0 else Max(MaxAbs(m[..|m| - 1]), MaxAbsRow(m[|m| - 1]))
  }

  lemma {:induction false} MaxAbsRowBelow(r: seq<real>, eps: real)
    requires eps > 0.0
    ensures MaxAbsRow(r) < eps <==> forall j :: 0 <= j < |r| ==> Abs(r[j]) < eps
  {
    if |r| > 0 {
      MaxAbsRowBelow(r[..|r| - 1], eps);
      assert forall j :: 0 <= j < |r| - 1 ==> r[..|r| - 1][j] == r[j];
    }
  }

  /** The convergence test `(Pn - P).abs().amax() < eps` holds exactly when every entry of
      the matrix is below `eps` in absolute value. */
  lemma {:induction false} MaxAbsBelow(m: Matrix, eps: real)
    requires eps > 0.0
    ensures MaxAbs(m) < eps <==>
      forall i, j :: 0 <= i < |m| && 0 <= j < |m[i]| ==> Abs(m[i][j]) < eps
  {
    if |m| > 0 {
      var front := m[..|m| - 1];
      MaxAbsBelow(front, eps);
      MaxAbsRowBelow(m[|m| - 1], eps);
      assert forall i :: 0 <= i < |m| - 1 ==> front[i] == m[i];
    }
  }

  function ZeroVector(n: nat): (v: Vector)
    ensures |v| == n
  {
    seq(n, _ => 0.0)
  }

  lemma {:induction false} DotWithZero(a: Vector, n: nat)
    ensures DotProduct(a, ZeroVector(n)) == 0.0
  {
    if |a| > 0 && n > 0 {
      assert ZeroVector(n)[1..] == ZeroVector(n - 1);
      DotWithZero(a[1..], n - 1);
    }
  }

  /** Any matrix applied to the zero vector gives the zero vector. */
  lemma MatVecZero(m: Matrix, n: nat)
    ensures MatVec(m, ZeroVector(n)) == ZeroVector(|m|)
  {
    forall i | 0 <= i < |m|
      ensures MatVec(m, ZeroVector(n))[i] == 0.0
    {
      DotWithZero(m[i], n);
    }
  }

  /** Unfolds the inner product of two 4-vectors. */
  lemma Dot4(a: Vector, b: Vector)
    requires |a| == 4 && |b| == 4
    ensures DotProduct(a, b) == a[0] * b[0] + a[1] * b[1] + a[2] * b[2] + a[3] * b[3]
  {
    var a1, b1 := a[1..], b[1..];
    var a2, b2 := a1[1..], b1[1..];
    var a3, b3 := a2[1..], b2[1..];
    assert DotProduct(a3[1..], b3[1..]) == 0.0;
    assert DotProduct(a3, b3) == a[3] * b[3];
    assert DotProduct(a2, b2) == a[2] * b[2] + a[3] * b[3];
    assert DotProduct(a1, b1) == a[1] * b[1] + a[2] * b[2] + a[3] * b[3];
  }

  /** Unfolds the inner product of two 2-vectors. */
  lemma Dot2(a: Vector, b: Vector)
    requires |a| == 2 && |b| == 2
    ensures DotProduct(a, b) == a[0] * b[0] + a[1] * b[1]
  {
    assert a[1..][1..] == [];
    assert DotProduct(a[1..], b[1..]) == a[1] * b[1];
  }

  /** Scaling the right operand scales the inner product. */
  lemma {:induction false} DotScale(a: Vector, s: real, v: Vector)
    ensures DotProduct(a, ScaleVec(s, v)) == s * DotProduct(a, v)
  {
    if |a| > 0 && |v| > 0 {
      var l, r := ScaleVec(s, v)[1..], ScaleVec(s, v[1..]);
      forall i | 0 <= i < |l|
        ensures l[i] == r[i]
      {
        assert l[i] == ScaleVec(s, v)[i + 1];
      }
      assert l == r;
      DotScale(a[1..], s, v[1..]);
    }
  }

  /** Adding right operands adds the inner products. */
  lemma {:induction false} DotAdd(a: Vector, u: Vector, v: Vector)
    requires |u| == |v|
    ensures DotProduct(a, VecAdd(u, v)) == DotProduct(a, u) + DotProduct(a, v)
  {
    if |a| > 0 && |u| > 0 {
      assert VecAdd(u, v)[1..] == VecAdd(u[1..], v[1..]);
      DotAdd(a[1..], u[1..], v[1..]);
    }
  }

  /** Negating the left operand negates the inner product. */
  lemma {:induction false} DotNeg(a: Vector, v: Vector)
    ensures DotProduct(seq(|a|, i requires 0 <= i < |a| => -a[i]), v) == -DotProduct(a, v)
  {
    var na := seq(|a|, i requires 0 <= i < |a| => -a[i]);
    if |a| > 0 && |v| > 0 {
      assert na[1..] == seq(|a| - 1, i requires 0 <= i < |a| - 1 => -a[1..][i]);
      DotNeg(a[1..], v[1..]);
    }
  }

  /** `m` is square and equal to its transpose. */
  predicate Symmetric(m: Matrix)
  {
    IsMatrix(m, |m|, |m|) && forall i, j :: 0 <= i < |m| && 0 <= j < |m| ==> m[i][j] == m[j][i]
  }

  lemma ScaleSymmetric(s: real, m: Matrix)
    requires Symmetric(m)
    ensures Symmetric(Scale(s, m))
  {
    var c := Scale(s, m);
    forall i, j | 0 <= i < |c| && 0 <= j < |c|
      ensures c[i][j] == c[j][i]
    {
      assert c[i][j] == s * m[i][j];
      assert c[j][i] == s * m[j][i];
    }
  }

  lemma AddSymmetric(a: Matrix, b: Matrix)
    requires Symmetric(a) && Symmetric(b) && |a| == |b|
    ensures Symmetric(Add(a, b))
  {
    var c := Add(a, b);
    forall i, j | 0 <= i < |c| && 0 <= j < |c|
      ensures c[i][j] == c[j][i]
    {
      assert c[i][j] == a[i][j] + b[i][j];
      assert c[j][i] == a[j][i] + b[j][i];
    }
  }

  lemma OuterSymmetric(d: Vector)
    ensures Symmetric(Outer(d, d))
  {
    var m := Outer(d, d);
    forall i, j | 0 <= i < |d| && 0 <= j < |d|
      ensures m[i][j] == m[j][i]
    {
      assert m[i][j] == d[i] * d[j];
    }
  }
}
