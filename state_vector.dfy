/** The `StateVector` getters of `localization`: named access to the four components
    (x, y, heading, speed) of a planar vehicle state. */
module StateVector {
  import opened Linalg

  /** X position [m]: component 0. */
  function X(s: Vector4): real
  {
    s[0]
  }

  /** Y position [m]: component 1. */
  function Y(s: Vector4): real
  {
    s[1]
  }

  /** Heading angle [rad]: component 2. */
  function Phi(s: Vector4): real
  {
    s[2]
  }

  /** Speed [m/s]: component 3. */
  function V(s: Vector4): real
  {
    s[3]
  }

  /** The four getters are total on a 4-vector and together recover it, each reading its
      own component. */
  lemma Decompose(s: Vector4)
    ensures s == [X(s), Y(s), Phi(s), V(s)]
  {
  }
}
