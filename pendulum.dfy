/** The cart-pole model of `control::inverted_pendulum`: its parameters and the forward-Euler
    discretisation `(I + A dt, B dt)` of the linearised dynamics. */
module Pendulum {
  import opened Linalg
  import Util

  /** Gravity [m/s^2] used by this model. */
  const G: real := 9.81

  /** Number of states (cart position, cart speed, bar angle, bar angular speed). */
  const NX: nat := 4

  /** Number of inputs (the force on the cart). */
  const NU: nat := 1

  /** Bar length [m], cart mass [kg] and ball mass [kg]. */
  datatype Model = Model(lBar: real, M: real, m: real)
  {
    /** Both divisors of the linearised dynamics are nonzero. */
    predicate Valid()
    {
      M != 0.0 && lBar != 0.0
    }

    /** Entry (1,2) of the continuous state matrix: `m g / M`. */
    function CartCoupling(g: real): real
      requires Valid()
    {
      m * g / M
    }

    /** Entry (3,2) of the continuous state matrix: `g (M + m) / (l_bar M)`. */
    function BarCoupling(g: real): real
      requires Valid()
    {
      g * (M + m) / (lBar * M)
    }

    /** `get_model_matrix(dt)`: the discretised state matrix and input vector. */
    function GetModelMatrix(dt: real): (Matrix, Vector)
      requires Valid()
    {
      Discretize(ContinuousA(G, this), ContinuousB(this), dt)
    }
  }

  /** `Model::default()`. */
  const DEFAULT: Model := Model(2.0, 1.0, 1.0)

  /** The continuous-time state matrix for gravity `g`: ones at (0,1) and (2,3), `m g / M`
      at (1,2), `g (M + m) / (l_bar M)` at (3,2), zeros elsewhere. */
  function ContinuousA(g: real, model: Model): Matrix
    requires model.Valid()
  {
    [[0.0, 1.0, 0.0, 0.0],
     [0.0, 0.0, model.CartCoupling(g), 0.0],
     [0.0, 0.0, 0.0, 1.0],
     [0.0, 0.0, model.BarCoupling(g), 0.0]]
  }

  /** The continuous-time input vector `[0, 1/M, 0, 1/(l_bar M)]`. */
  function ContinuousB(model: Model): Vector
    requires model.Valid()
  {
    [0.0, 1.0 / model.M, 0.0, 1.0 / (model.lBar * model.M)]
  }

  /** Forward Euler with step `dt`: `(eye!(4) + A * dt, B * dt)`. */
  function Discretize(A: Matrix, B: Vector, dt: real): (Matrix, Vector)
  {
    (Add(Util.Identity(NX), Scale(dt, A)), ScaleVec(dt, B))
  }

  /** Entry by entry, the discretised state matrix. */
  lemma DiscretizedState(g: real, model: Model, dt: real)
    requires model.Valid()
    ensures Discretize(ContinuousA(g, model), ContinuousB(model), dt).0 ==
      [[1.0, dt, 0.0, 0.0],
       [0.0, 1.0, dt * model.CartCoupling(g), 0.0],
       [0.0, 0.0, 1.0, dt],
       [0.0, 0.0, dt * model.BarCoupling(g), 1.0]]
  {
    var A := ContinuousA(g, model);
    var Ad := Discretize(A, ContinuousB(model), dt).0;
    var E := [[1.0, dt, 0.0, 0.0],
              [0.0, 1.0, dt * model.CartCoupling(g), 0.0],
              [0.0, 0.0, 1.0, dt],
              [0.0, 0.0, dt * model.BarCoupling(g), 1.0]];
    forall i, j | 0 <= i < 4 && 0 <= j < 4
      ensures Ad[i][j] == E[i][j]
    {
      assert Ad[i][j] == (if i == j then 1.0 else 0.0) + dt * A[i][j];
    }
    forall i | 0 <= i < 4
      ensures Ad[i] == E[i]
    {
    }
  }

  /** Entry by entry, the discretised input vector. */
  lemma DiscretizedInput(g: real, model: Model, dt: real)
    requires model.Valid()
    ensures Discretize(ContinuousA(g, model), ContinuousB(model), dt).1 ==
      [0.0, dt / model.M, 0.0, dt / (model.lBar * model.M)]
  {
    var Bd := Discretize(ContinuousA(g, model), ContinuousB(model), dt).1;
    assert Bd[0] == 0.0 && Bd[2] == 0.0;
    assert Bd[1] == dt / model.M && Bd[3] == dt / (model.lBar * model.M);
  }

  /** `get_model_matrix(dt)` returns `Ad = I + A dt` with `A` nonzero only at (0,1) = 1,
      (1,2) = `m g / M`, (2,3) = 1 and (3,2) = `g (M + m) / (l_bar M)`, and
      `Bd = dt [0, 1/M, 0, 1/(l_bar M)]`, with `g = 9.81`. */
  lemma ModelMatrix(model: Model, dt: real)
    requires model.Valid()
    ensures model.GetModelMatrix(dt).0 ==
      [[1.0, dt, 0.0, 0.0],
       [0.0, 1.0, dt * model.CartCoupling(G), 0.0],
       [0.0, 0.0, 1.0, dt],
       [0.0, 0.0, dt * model.BarCoupling(G), 1.0]]
    ensures model.GetModelMatrix(dt).1 == [0.0, dt / model.M, 0.0, dt / (model.lBar * model.M)]
  {
    DiscretizedState(G, model, dt);
    DiscretizedInput(G, model, dt);
  }

  /** Every diagonal entry of the discretised state matrix is 1, whatever the step. */
  lemma DiagonalIsOne(model: Model, dt: real)
    requires model.Valid()
    ensures forall i :: 0 <= i < NX ==> model.GetModelMatrix(dt).0[i][i] == 1.0
  {
    ModelMatrix(model, dt);
  }

  /** A zero step gives the identity and a zero input vector. */
  lemma ZeroStep(model: Model)
    requires model.Valid()
    ensures model.GetModelMatrix(0.0) == (Util.Identity(NX), ZeroVector(NX))
  {
    ModelMatrix(model, 0.0);
    var I := Util.Identity(NX);
    assert I == [[1.0, 0.0, 0.0, 0.0], [0.0, 1.0, 0.0, 0.0], [0.0, 0.0, 1.0, 0.0], [0.0, 0.0, 0.0, 1.0]] by {
      assert I[0] == [1.0, 0.0, 0.0, 0.0];
      assert I[1] == [0.0, 1.0, 0.0, 0.0];
      assert I[2] == [0.0, 0.0, 1.0, 0.0];
      assert I[3] == [0.0, 0.0, 0.0, 1.0];
    }
    assert 0.0 * model.CartCoupling(G) == 0.0 && 0.0 * model.BarCoupling(G) == 0.0;
    assert 0.0 / model.M == 0.0 && 0.0 / (model.lBar * model.M) == 0.0;
    assert ZeroVector(NX) == [0.0, 0.0, 0.0, 0.0];
  }

  /** The default model: bar 2 m, both masses 1 kg. */
  lemma DefaultModel()
    ensures DEFAULT.Valid()
    ensures DEFAULT.GetModelMatrix(0.1).0[1][2] == 0.981
    ensures DEFAULT.GetModelMatrix(0.1).0[3][2] == 0.981
  {
  }
}
