/** The stand-alone LQR controller of `control::inverted_pendulum_lqr_control`: a fixed
    cart-pole (bar 2 m, masses 1 kg, gravity 9.8) discretised by forward Euler, with the
    Riccati solver and gain of the `LQR` trait at tolerance 0.01 and 150 rounds. */
module PendulumLqr {
  import opened Base
  import opened Linalg
  import Util
  import Lqr
  import Pendulum

  /** Bar length [m]. */
  const L_BAR: real := 2.0
  /** Cart mass [kg]. */
  const CART_MASS: real := 1.0
  /** Ball mass [kg]. */
  const BALL_MASS: real := 1.0
  /** Gravity [m/s^2] of this controller (the `inverted_pendulum` model uses 9.81). */
  const G: real := 9.8

  /** Number of states and inputs. */
  const NX: nat := 4
  const NU: nat := 1

  /** Iteration bound of the Riccati solver. */
  const MAX_ITER: nat := 150
  /** Tolerance of the pseudo-inverse and of the convergence test. */
  const EPS: real := 0.01

  /** The plant these constants describe. */
  const PLANT: Pendulum.Model := Pendulum.Model(L_BAR, CART_MASS, BALL_MASS)

  /** `get_model_matrix(dt)`: `(eye!(4) + A dt, B dt)` for the fixed plant. */
  function GetModelMatrix(dt: real): (Matrix, Vector)
  {
    Pendulum.Discretize(Pendulum.ContinuousA(G, PLANT), Pendulum.ContinuousB(PLANT), dt)
  }

  /** With these constants both couplings are 9.8, so `Ad` and `Bd` are explicit. */
  lemma ModelMatrix(dt: real)
    ensures GetModelMatrix(dt).0 ==
      [[1.0, dt, 0.0, 0.0],
       [0.0, 1.0, dt * 9.8, 0.0],
       [0.0, 0.0, 1.0, dt],
       [0.0, 0.0, dt * 9.8, 1.0]]
    ensures GetModelMatrix(dt).1 == [0.0, dt, 0.0, dt / 2.0]
  {
    Pendulum.DiscretizedState(G, PLANT, dt);
    Pendulum.DiscretizedInput(G, PLANT, dt);
    assert PLANT.CartCoupling(G) == 9.8 && PLANT.BarCoupling(G) == 9.8;
  }

  /** A 4-vector as a 4-by-1 matrix, the shape `Vector4` has in nalgebra products. */
  function AsColumn(v: Vector): (m: Matrix)
    ensures IsMatrix(m, |v|, 1)
    ensures forall i :: 0 <= i < |v| ==> m[i][0] == v[i]
  {
    seq(|v|, i requires 0 <= i < |v| => [v[i]])
  }

  /** The solver settings of this file. */
  function Settings(Q: Matrix, R: Matrix): Lqr.Config
  {
    Lqr.Config(Q, R, EPS, MAX_ITER)
  }

  /** `solve_DARE(A, B, Q, R)`: the loop of the `LQR` trait with `eps = 0.01` and
      `max_iter = 150`, on the input vector taken as a column. */
  method SolveDare(A: Matrix, B: Vector, Q: Matrix, R: Matrix, pinv: Lqr.PseudoInverse) returns (r: Outcome<Matrix>)
    ensures r == Lqr.Dare(A, AsColumn(B), Settings(Q, R), pinv)
  {
    r := Lqr.SolveDare(A, AsColumn(B), Settings(Q, R), pinv);
  }

  /** `dlqr(A, B, Q, R)`: the gain of the `LQR` trait for these settings. */
  function Dlqr(A: Matrix, B: Vector, Q: Matrix, R: Matrix, pinv: Lqr.PseudoInverse): Outcome<Matrix>
  {
    Lqr.Dlqr(A, AsColumn(B), Settings(Q, R), pinv)
  }

  /** The weights of `lqr_control`: `Q = diag(0, 1, 1, 0)` and `R = diag(0.01)`. */
  const Q_WEIGHT: Matrix := Util.Diag([0.0, 1.0, 1.0, 0.0])
  const R_WEIGHT: Matrix := Util.Diag([0.01])

  /** The pseudo-inverse of an n-by-m matrix, when it exists, is m-by-n. */
  ghost predicate PseudoInverseShape(pinv: Lqr.PseudoInverse)
  {
    forall a: Matrix, e: real :: pinv(a, e).Some? ==> IsMatrix(pinv(a, e).value, Cols(a), |a|)
  }

  /** The gain `lqr_control` uses at step `dt`. */
  function Gain(dt: real, pinv: Lqr.PseudoInverse): Outcome<Matrix>
  {
    var (Ad, Bd) := GetModelMatrix(dt);
    Dlqr(Ad, Bd, Q_WEIGHT, R_WEIGHT, pinv)
  }

  /** With a single input the gain has a single row. */
  lemma GainIsRow(dt: real, pinv: Lqr.PseudoInverse)
    requires PseudoInverseShape(pinv)
    requires Gain(dt, pinv).Ok?
    ensures |Gain(dt, pinv).value| == 1
  {
    var (Ad, Bd) := GetModelMatrix(dt);
    ModelMatrix(dt);
    var B := AsColumn(Bd);
    var cfg := Settings(Q_WEIGHT, R_WEIGHT);
    var P := Lqr.Dare(Ad, B, cfg, pinv).value;
    var den := Lqr.GainDenominator(B, P, cfg);
    assert Cols(B) == 1;
    assert |Transpose(B)| == 1;
    assert |den| == 1 && |den[0]| == 1;
  }

  /** `lqr_control(x, dt)`: the single entry of `−K x`, with `K` from `dlqr` on the
      discretised plant and the weights above; aborts when a pseudo-inverse fails. */
  function LqrControl(x: Vector4, dt: real, pinv: Lqr.PseudoInverse): (r: Outcome<real>)
    requires PseudoInverseShape(pinv)
    ensures r.Ok? <==> Gain(dt, pinv).Ok?
    ensures r.Panic? ==> r.message == Lqr.INVERSE_FAILED
    ensures r.Ok? ==> r.value == -DotProduct(Gain(dt, pinv).value[0], x)
  {
    match Gain(dt, pinv)
    case Panic(msg) => Panic(msg)
    case Ok(K) =>
      GainIsRow(dt, pinv);
      Lqr.FeedbackEntry(K, x, 0);
      Ok(Lqr.Feedback(K, x)[0])
  }

  /** The zero state gives zero force. */
  lemma ZeroStateZeroForce(dt: real, pinv: Lqr.PseudoInverse)
    requires PseudoInverseShape(pinv)
    requires LqrControl([0.0, 0.0, 0.0, 0.0], dt, pinv).Ok?
    ensures LqrControl([0.0, 0.0, 0.0, 0.0], dt, pinv).value == 0.0
  {
    GainIsRow(dt, pinv);
    Lqr.FeedbackZero(Gain(dt, pinv).value, 4);
    assert ZeroVector(4) == [0.0, 0.0, 0.0, 0.0];
  }
}
