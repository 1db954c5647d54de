/** The default methods of the `LQR` trait: the discrete algebraic Riccati equation solved
    by fixed-point iteration (`solve_DARE`), the gain computed from its solution (`dlqr`)
    and the linear state feedback built on them (`control`). */
module Lqr {
  import opened Base
  import opened Linalg

  /** nalgebra's `pseudo_inverse(eps)`: a matrix, or `None` when the decomposition fails. */
  type PseudoInverse = (Matrix, real) -> Option<Matrix>

  /** What an implementor of the trait supplies: the weights `Q` and `R`, the tolerance
      (used both for the pseudo-inverse and for convergence) and the iteration bound. */
  datatype Config = Config(Q: Matrix, R: Matrix, epsilon: real, maxIter: nat)

  /** The message of the `expect` on every pseudo-inverse. */
  const INVERSE_FAILED: string := "Matrix inverse failed for DARE"

  /** One Riccati update from `P`: `Aᵀ P A − (Aᵀ P B) · pinv(R + Bᵀ P B) · (Bᵀ P A) + Q`,
      or `None` when the pseudo-inverse fails. */
  function RiccatiStep(A: Matrix, B: Matrix, P: Matrix, cfg: Config, pinv: PseudoInverse): Option<Matrix>
  {
    var AT, BT := Transpose(A), Transpose(B);
    match pinv(Add(cfg.R, Mul(Mul(BT, P), B)), cfg.epsilon)
    case None => None
    case Some(inv) =>
      Some(Add(Sub(Mul(Mul(AT, P), A), Mul(Mul(Mul(Mul(AT, P), B), inv), Mul(Mul(BT, P), A))), cfg.Q))
  }

  /** `(Pn - P).abs().amax()`: the largest entrywise change between two iterates. */
  function Change(Pn: Matrix, P: Matrix): real
  {
    MaxAbs(Sub(Pn, P))
  }

  /** The stopping test `(Pn - P).abs().amax() < eps`. */
  predicate Converged(Pn: Matrix, P: Matrix, eps: real)
  {
    Change(Pn, P) < eps
  }

  /** One round of an iteration: the next iterate, or `None` when it cannot be computed. */
  type Update = Matrix -> Option<Matrix>

  /** The Riccati update for a fixed system and configuration. */
  function Riccati(A: Matrix, B: Matrix, cfg: Config, pinv: PseudoInverse): Update
  {
    P => RiccatiStep(A, B, P, cfg, pinv)
  }

  /** The rest of the `solve_DARE` loop from `P` with `remaining` rounds left: a failed
      round aborts, a round within `eps` of its predecessor returns, the last round's
      iterate is returned when the rounds run out. */
  function Run(step: Update, P: Matrix, eps: real, remaining: nat): Outcome<Matrix>
    decreases remaining
  {
    if remaining == 0 then
      Ok(P)
    else
      match step(P)
      case None => Panic(INVERSE_FAILED)
      case Some(Pn) => if Converged(Pn, P, eps) then Ok(Pn) else Run(step, Pn, eps, remaining - 1)
  }

  /** What `solve_DARE` returns: the loop from `P = Q` with `max_iter` rounds. */
  function Dare(A: Matrix, B: Matrix, cfg: Config, pinv: PseudoInverse): Outcome<Matrix>
  {
    Run(Riccati(A, B, cfg, pinv), cfg.Q, cfg.epsilon, cfg.maxIter)
  }

  /** The k-th iterate from `P0`, ignoring the stopping test. */
  function Iterate(step: Update, P0: Matrix, k: nat): Option<Matrix>
  {
    if k == 0 then
      Some(P0)
    else
      match Iterate(step, P0, k - 1)
      case None => None
      case Some(P) => step(P)
  }

  /** Round `j` computes iterate `j + 1` and does not stop there. */
  predicate Continues(step: Update, P0: Matrix, eps: real, j: nat)
  {
    var P, Pn := Iterate(step, P0, j), Iterate(step, P0, j + 1);
    P.Some? && Pn.Some? && !Converged(Pn.value, P.value, eps)
  }

  /** After k rounds that neither failed nor stopped, the loop holds iterate k. */
  lemma {:induction false} RunAfter(step: Update, P0: Matrix, eps: real, n: nat, k: nat)
    requires k <= n
    requires forall j :: 0 <= j < k ==> Continues(step, P0, eps, j)
    ensures Iterate(step, P0, k).Some?
    ensures Run(step, P0, eps, n) == Run(step, Iterate(step, P0, k).value, eps, n - k)
  {
    if k > 0 {
      RunAfter(step, P0, eps, n, k - 1);
      assert Continues(step, P0, eps, k - 1);
    }
  }

  /** With `max_iter = 0` the loop never runs and the result is `Q`. */
  lemma NoIterations(A: Matrix, B: Matrix, cfg: Config, pinv: PseudoInverse)
    requires cfg.maxIter == 0
    ensures Dare(A, B, cfg, pinv) == Ok(cfg.Q)
  {
  }

  /** Without convergence and without failure, the result is the last iterate. */
  lemma DareExhausted(A: Matrix, B: Matrix, cfg: Config, pinv: PseudoInverse)
    requires forall j :: 0 <= j < cfg.maxIter ==> Continues(Riccati(A, B, cfg, pinv), cfg.Q, cfg.epsilon, j)
    ensures Iterate(Riccati(A, B, cfg, pinv), cfg.Q, cfg.maxIter).Some?
    ensures Dare(A, B, cfg, pinv) == Ok(Iterate(Riccati(A, B, cfg, pinv), cfg.Q, cfg.maxIter).value)
  {
    RunAfter(Riccati(A, B, cfg, pinv), cfg.Q, cfg.epsilon, cfg.maxIter, cfg.maxIter);
  }

  /** The result is the first iterate that passes the stopping test. */
  lemma DareStopsAtFirst(A: Matrix, B: Matrix, cfg: Config, pinv: PseudoInverse, k: nat)
    requires k < cfg.maxIter
    requires forall j :: 0 <= j < k ==> Continues(Riccati(A, B, cfg, pinv), cfg.Q, cfg.epsilon, j)
    requires Iterate(Riccati(A, B, cfg, pinv), cfg.Q, k).Some? && Iterate(Riccati(A, B, cfg, pinv), cfg.Q, k + 1).Some?
    requires Converged(Iterate(Riccati(A, B, cfg, pinv), cfg.Q, k + 1).value, Iterate(Riccati(A, B, cfg, pinv), cfg.Q, k).value, cfg.epsilon)
    ensures Dare(A, B, cfg, pinv) == Ok(Iterate(Riccati(A, B, cfg, pinv), cfg.Q, k + 1).value)
  {
    RunAfter(Riccati(A, B, cfg, pinv), cfg.Q, cfg.epsilon, cfg.maxIter, k);
  }

  /** A pseudo-inverse failure in any round aborts the solver. */
  lemma DareFailure(A: Matrix, B: Matrix, cfg: Config, pinv: PseudoInverse, k: nat)
    requires k < cfg.maxIter
    requires forall j :: 0 <= j < k ==> Continues(Riccati(A, B, cfg, pinv), cfg.Q, cfg.epsilon, j)
    requires Iterate(Riccati(A, B, cfg, pinv), cfg.Q, k).Some? && Iterate(Riccati(A, B, cfg, pinv), cfg.Q, k + 1).None?
    ensures Dare(A, B, cfg, pinv) == Panic(INVERSE_FAILED)
  {
    RunAfter(Riccati(A, B, cfg, pinv), cfg.Q, cfg.epsilon, cfg.maxIter, k);
  }

  /** The only way the loop aborts is with the pseudo-inverse message. */
  lemma {:induction false} RunPanicMessage(step: Update, P: Matrix, eps: real, remaining: nat)
    ensures Run(step, P, eps, remaining).Panic? ==> Run(step, P, eps, remaining).message == INVERSE_FAILED
    decreases remaining
  {
    if remaining > 0 {
      match step(P)
      case None =>
      case Some(Pn) => RunPanicMessage(step, Pn, eps, remaining - 1);
    }
  }

  /** `solve_DARE`: start from `P = Q`; in each of at most `max_iter` rounds compute the next
      iterate (aborting when the pseudo-inverse fails), return it as soon as it is within
      `epsilon` of the previous one, otherwise continue from it; after the last round
      return the last iterate. */
  method SolveDare(A: Matrix, B: Matrix, cfg: Config, pinv: PseudoInverse) returns (r: Outcome<Matrix>)
    ensures r == Dare(A, B, cfg, pinv)
  {
    var P := cfg.Q;
    for k := 0 to cfg.maxIter
      invariant Run(Riccati(A, B, cfg, pinv), P, cfg.epsilon, cfg.maxIter - k) == Dare(A, B, cfg, pinv)
    {
      var next := RiccatiStep(A, B, P, cfg, pinv);
      if next.None? {
        return Panic(INVERSE_FAILED);
      }
      var Pn := next.value;
      if Converged(Pn, P, cfg.epsilon) {
        return Ok(Pn);
      }
      P := Pn;
    }
    return Ok(P);
  }

  /** The matrix `dlqr` pseudo-inverts: `Bᵀ P B + R`. */
  function GainDenominator(B: Matrix, P: Matrix, cfg: Config): Matrix
  {
    Add(Mul(Mul(Transpose(B), P), B), cfg.R)
  }

  /** `dlqr`: `K = pinv(Bᵀ P B + R) · (Bᵀ P A)` with `P` from `solve_DARE`; it aborts when
      the solver aborts or when this pseudo-inverse fails. */
  function Dlqr(A: Matrix, B: Matrix, cfg: Config, pinv: PseudoInverse): (r: Outcome<Matrix>)
    ensures r.Ok? <==> Dare(A, B, cfg, pinv).Ok? && pinv(GainDenominator(B, Dare(A, B, cfg, pinv).value, cfg), cfg.epsilon).Some?
    ensures r.Panic? ==> r.message == INVERSE_FAILED
    ensures r.Ok? ==> |r.value| == |pinv(GainDenominator(B, Dare(A, B, cfg, pinv).value, cfg), cfg.epsilon).value|
  {
    match Dare(A, B, cfg, pinv)
    case Panic(msg) =>
      RunPanicMessage(Riccati(A, B, cfg, pinv), cfg.Q, cfg.epsilon, cfg.maxIter);
      Panic(msg)
    case Ok(P) =>
      match pinv(GainDenominator(B, P, cfg), cfg.epsilon)
      case None => Panic(INVERSE_FAILED)
      case Some(inv) => Ok(Mul(inv, Mul(Mul(Transpose(B), P), A)))
  }

  /** The state feedback `u = −K x`. */
  function Feedback(K: Matrix, x: Vector): (u: Vector)
    ensures |u| == |K|
  {
    MatVec(Neg(K), x)
  }

  /** `control`: discretise with the model at `dt`, compute the gain, return `u = −K x`. */
  function Control(x: Vector, dt: real, model: real -> (Matrix, Matrix), cfg: Config, pinv: PseudoInverse): (r: Outcome<Vector>)
    ensures r.Ok? <==> Dlqr(model(dt).0, model(dt).1, cfg, pinv).Ok?
    ensures r.Ok? ==> r.value == Feedback(Dlqr(model(dt).0, model(dt).1, cfg, pinv).value, x)
  {
    var (Ad, Bd) := model(dt);
    match Dlqr(Ad, Bd, cfg, pinv)
    case Panic(msg) => Panic(msg)
    case Ok(K) => Ok(Feedback(K, x))
  }

  /** Entry i of the input is minus row i of the gain applied to the state. */
  lemma FeedbackEntry(K: Matrix, x: Vector, i: nat)
    requires i < |K|
    ensures Feedback(K, x)[i] == -DotProduct(K[i], x)
  {
    assert Neg(K)[i] == seq(|K[i]|, j requires 0 <= j < |K[i]| => -K[i][j]);
    DotNeg(K[i], x);
  }

  /** Linear feedback maps the zero state to the zero input. */
  lemma FeedbackZero(K: Matrix, n: nat)
    ensures Feedback(K, ZeroVector(n)) == ZeroVector(|K|)
  {
    MatVecZero(Neg(K), n);
  }

  /** Scaling the state scales the input by the same factor. */
  lemma FeedbackScales(K: Matrix, s: real, x: Vector)
    ensures Feedback(K, ScaleVec(s, x)) == ScaleVec(s, Feedback(K, x))
  {
    var nK := Neg(K);
    forall i | 0 <= i < |nK|
      ensures MatVec(nK, ScaleVec(s, x))[i] == ScaleVec(s, MatVec(nK, x))[i]
    {
      DotScale(nK[i], s, x);
    }
  }

  /** The input for the sum of two states is the sum of their inputs. */
  lemma FeedbackAdds(K: Matrix, x: Vector, y: Vector)
    requires |x| == |y|
    ensures Feedback(K, VecAdd(x, y)) == VecAdd(Feedback(K, x), Feedback(K, y))
  {
    var nK := Neg(K);
    forall i | 0 <= i < |nK|
      ensures MatVec(nK, VecAdd(x, y))[i] == VecAdd(MatVec(nK, x), MatVec(nK, y))[i]
    {
      DotAdd(nK[i], x, y);
    }
  }

  /** Whatever gain the solver produces, `control` of the zero state is the zero input. */
  lemma ControlZeroState(n: nat, dt: real, model: real -> (Matrix, Matrix), cfg: Config, pinv: PseudoInverse)
    requires Control(ZeroVector(n), dt, model, cfg, pinv).Ok?
    ensures Control(ZeroVector(n), dt, model, cfg, pinv).value ==
      ZeroVector(|Control(ZeroVector(n), dt, model, cfg, pinv).value|)
  {
    FeedbackZero(Dlqr(model(dt).0, model(dt).1, cfg, pinv).value, n);
  }

  /** `control` is linear in the state: it commutes with scaling and with addition. */
  lemma ControlLinear(x: Vector, y: Vector, s: real, dt: real, model: real -> (Matrix, Matrix), cfg: Config, pinv: PseudoInverse)
    requires |x| == |y|
    requires Control(x, dt, model, cfg, pinv).Ok?
    ensures Control(ScaleVec(s, x), dt, model, cfg, pinv) == Ok(ScaleVec(s, Control(x, dt, model, cfg, pinv).value))
    ensures Control(VecAdd(x, y), dt, model, cfg, pinv) ==
      Ok(VecAdd(Control(x, dt, model, cfg, pinv).value, Control(y, dt, model, cfg, pinv).value))
  {
    var K := Dlqr(model(dt).0, model(dt).1, cfg, pinv).value;
    FeedbackScales(K, s, x);
    FeedbackAdds(K, x, y);
  }
}
