/** The particle filter of `localization::particle_filter`: the simulated sensor
    (`observation`), the vehicle motion model, the weight update, the weighted estimate and
    its covariance, and systematic resampling. Random draws are parameters. */
module ParticleFilter {
  import opened Base
  import opened Linalg
  import opened Util
  import opened StateVector

  /** Maximum observation range [m]; a landmark at exactly this distance is observed. */
  const MAX_RANGE: real := 20.0

  /** Number of particles. */
  const NP: nat := 100

  /** Resampling threshold on the effective particle count: `NP / 2`. */
  const NTH: real := 50.0

  /** Variance of the simulated range noise (`Q_sim = diag![0.2]`). */
  const Q_SIM: real := 0.2

  /** Variances of the simulated input noise (`R_sim = diag![1.0, 30°]`). */
  const R_SIM: Matrix := Diag([1.0, ToRadians(30.0)])

  /** Variance of the range error in the likelihood (`Q = diag![0.2]`). */
  const Q: real := 0.2

  /** Variances of the per-particle input noise (`R = diag![2.0, 40°]`). */
  const R: Matrix := Diag([2.0, ToRadians(40.0)])

  /** `calc_input`: speed 1 m/s, yaw rate 0.1 rad/s. */
  function CalcInput(): Vector2
  {
    [1.0, 0.1]
  }

  // ---------------------------------------------------------------------------------------
  // Observation getters: a reading is (range, landmark x, landmark y).

  /** `Observation::d`: the measured range, component 0. */
  function ObsD(z: Vector3): real
  {
    z[0]
  }

  /** `Observation::x`: the landmark's x, component 1. */
  function ObsX(z: Vector3): real
  {
    z[1]
  }

  /** `Observation::y`: the landmark's y, component 2. */
  function ObsY(z: Vector3): real
  {
    z[2]
  }

  // ---------------------------------------------------------------------------------------
  // Motion model

  /** The state matrix of the motion model, `diag(1, 1, 1, 0)`: position and heading are
      kept, the old speed is dropped. */
  function MotionF(): Matrix
  {
    Diag([1.0, 1.0, 1.0, 0.0])
  }

  /** The input matrix of the motion model, `[[cos(phi) dt, 0], [sin(phi) dt, 0], [0, dt], [1, 0]]`. */
  function MotionB(num: Numerics, x: Vector4, dt: real): Matrix
  {
    [[num.cos(Phi(x)) * dt, 0.0],
     [num.sin(Phi(x)) * dt, 0.0],
     [0.0, dt],
     [1.0, 0.0]]
  }

  /** `motion_model`: `F x + B u`. */
  function MotionModel(num: Numerics, x: Vector4, u: Vector2, dt: real): Vector4
  {
    VecAdd(MatVec(MotionF(), x), MatVec(MotionB(num, x, dt), u))
  }

  /** `F x` keeps position and heading and zeroes the speed. */
  lemma MotionFApplied(x: Vector4)
    ensures MatVec(MotionF(), x) == [X(x), Y(x), Phi(x), 0.0]
  {
    var F := MotionF();
    assert F[0] == [1.0, 0.0, 0.0, 0.0] && F[1] == [0.0, 1.0, 0.0, 0.0];
    assert F[2] == [0.0, 0.0, 1.0, 0.0] && F[3] == [0.0, 0.0, 0.0, 0.0];
    Dot4(F[0], x);
    Dot4(F[1], x);
    Dot4(F[2], x);
    Dot4(F[3], x);
  }

  /** `B u` moves along the heading by `dt` times the speed, turns by `dt` times the yaw rate
      and carries the speed into the state. */
  lemma MotionBApplied(num: Numerics, x: Vector4, u: Vector2, dt: real)
    ensures MatVec(MotionB(num, x, dt), u) ==
      [num.cos(Phi(x)) * dt * u[0], num.sin(Phi(x)) * dt * u[0], dt * u[1], u[0]]
  {
    var B := MotionB(num, x, dt);
    var Bu := MatVec(B, u);
    Dot2(B[0], u);
    Dot2(B[1], u);
    Dot2(B[2], u);
    Dot2(B[3], u);
    assert Bu[0] == num.cos(Phi(x)) * dt * u[0];
    assert Bu[1] == num.sin(Phi(x)) * dt * u[0];
    assert Bu[2] == dt * u[1];
    assert Bu[3] == u[0];
  }

  /** The motion model moves x and y by `dt v cos(phi)` and `dt v sin(phi)` of the old
      heading, turns the heading by `dt` times the yaw rate, and takes the input speed. */
  lemma MotionModelClosedForm(num: Numerics, x: Vector4, u: Vector2, dt: real)
    ensures MotionModel(num, x, u, dt) ==
      [X(x) + num.cos(Phi(x)) * dt * u[0],
       Y(x) + num.sin(Phi(x)) * dt * u[0],
       Phi(x) + dt * u[1],
       u[0]]
  {
    MotionFApplied(x);
    MotionBApplied(num, x, u, dt);
    var r := MotionModel(num, x, u, dt);
    assert r[0] == X(x) + num.cos(Phi(x)) * dt * u[0];
    assert r[1] == Y(x) + num.sin(Phi(x)) * dt * u[0];
  }

  // ---------------------------------------------------------------------------------------
  // Observation

  /** The true distance from the vehicle to a landmark. */
  function Distance(num: Numerics, x: Vector4, lm: Vector2): real
  {
    Hypot(num, X(x) - PointX(lm), Y(x) - PointY(lm))
  }

  /** The sensor sees a landmark iff its distance is at most `MAX_RANGE`. */
  predicate InRange(num: Numerics, x: Vector4, lm: Vector2)
  {
    Distance(num, x, lm) <= MAX_RANGE
  }

  /** The reading for one visible landmark: the distance plus the noise draw scaled by
      `sqrt(Q_sim)`, and the landmark's position. */
  function Reading(num: Numerics, x: Vector4, lm: Vector2, noise: real): Vector3
  {
    [Distance(num, x, lm) + noise * num.sqrt(Q_SIM), PointX(lm), PointY(lm)]
  }

  /** The readings pushed for the landmarks `rfId` in order, `noise[i]` being the draw made
      for landmark i. */
  function Detections(num: Numerics, x: Vector4, rfId: seq<Vector2>, noise: seq<real>): seq<Vector3>
    requires |noise| == |rfId|
  {
    if |rfId| == 0 then
      []
    else
      var n := |rfId| - 1;
      Detections(num, x, rfId[..n], noise[..n]) +
        (if InRange(num, x, rfId[n]) then [Reading(num, x, rfId[n], noise[n])] else [])
  }

  /** The indices of the visible landmarks, in increasing order; an index appears exactly
      when its landmark is in range. */
  function Visible(num: Numerics, x: Vector4, rfId: seq<Vector2>): (idx: seq<nat>)
    ensures forall k :: 0 <= k < |idx| ==> idx[k] < |rfId|
    ensures forall k, l :: 0 <= k < l < |idx| ==> idx[k] < idx[l]
    ensures forall i :: 0 <= i < |rfId| ==> (i in idx <==> InRange(num, x, rfId[i]))
  {
    if |rfId| == 0 then
      []
    else
      var n := |rfId| - 1;
      var front := Visible(num, x, rfId[..n]);
      assert forall i :: 0 <= i < n ==> rfId[..n][i] == rfId[i];
      front + (if InRange(num, x, rfId[n]) then [n] else [])
  }

  /** One reading per visible landmark, in landmark order: reading k is the reading of the
      k-th visible landmark with that landmark's noise draw. */
  lemma {:induction false} DetectionsAreVisible(num: Numerics, x: Vector4, rfId: seq<Vector2>, noise: seq<real>)
    requires |noise| == |rfId|
    ensures |Detections(num, x, rfId, noise)| == |Visible(num, x, rfId)|
    ensures forall k :: 0 <= k < |Visible(num, x, rfId)| ==>
      Detections(num, x, rfId, noise)[k] ==
        Reading(num, x, rfId[Visible(num, x, rfId)[k]], noise[Visible(num, x, rfId)[k]])
  {
    if |rfId| > 0 {
      var n := |rfId| - 1;
      var rf, nz := rfId[..n], noise[..n];
      DetectionsAreVisible(num, x, rf, nz);
      var front := Visible(num, x, rf);
      var d := Detections(num, x, rfId, noise);
      var v := Visible(num, x, rfId);
      assert v == front + (if InRange(num, x, rfId[n]) then [n] else []);
      assert d == Detections(num, x, rf, nz) + (if InRange(num, x, rfId[n]) then [Reading(num, x, rfId[n], noise[n])] else []);
      forall k | 0 <= k < |v|
        ensures d[k] == Reading(num, x, rfId[v[k]], noise[v[k]])
      {
        if k < |front| {
          assert rf[front[k]] == rfId[front[k]] && nz[front[k]] == noise[front[k]];
        }
      }
    }
  }

  /** Reading one more landmark appends its reading exactly when it is in range. */
  lemma DetectionsStep(num: Numerics, x: Vector4, rfId: seq<Vector2>, noise: seq<real>, i: nat)
    requires |noise| == |rfId| && i < |rfId|
    ensures Detections(num, x, rfId[..i + 1], noise[..i + 1]) ==
      Detections(num, x, rfId[..i], noise[..i]) +
        (if InRange(num, x, rfId[i]) then [Reading(num, x, rfId[i], noise[i])] else [])
  {
    assert rfId[..i + 1][..i] == rfId[..i] && noise[..i + 1][..i] == noise[..i];
    assert rfId[..i + 1][i] == rfId[i] && noise[..i + 1][i] == noise[i];
  }

  /** The input seen by dead reckoning: each component plus its noise draw scaled by the
      square root of its variance. */
  function NoisyInput(num: Numerics, u: Vector2, variances: Matrix, noise: Vector2): Vector2
    requires IsMatrix(variances, 2, 2)
  {
    [u[0] + noise[0] * num.sqrt(variances[0][0]), u[1] + noise[1] * num.sqrt(variances[1][1])]
  }

  /** `observation`: advance the true state with the motion model, read every landmark
      within range (in order, each with its own noise draw), then advance the dead-reckoning
      state with the noisy input, which is returned with the readings. */
  method Observation(num: Numerics, xTrue: Vector4, xd: Vector4, u: Vector2, rfId: seq<Vector2>, dt: real,
                     rangeNoise: seq<real>, inputNoise: Vector2)
    returns (xTrue': Vector4, xd': Vector4, z: seq<Vector3>, ud: Vector2)
    requires |rangeNoise| == |rfId|
    ensures xTrue' == MotionModel(num, xTrue, u, dt)
    ensures z == Detections(num, xTrue', rfId, rangeNoise)
    ensures ud == NoisyInput(num, u, R_SIM, inputNoise)
    ensures xd' == MotionModel(num, xd, ud, dt)
  {
    xTrue' := MotionModel(num, xTrue, u, dt);
    z := [];
    for i := 0 to |rfId|
      invariant z == Detections(num, xTrue', rfId[..i], rangeNoise[..i])
    {
      DetectionsStep(num, xTrue', rfId, rangeNoise, i);
      var lm := rfId[i];
      var d := Distance(num, xTrue', lm);
      if d <= MAX_RANGE {
        z := z + [Reading(num, xTrue', lm, rangeNoise[i])];
      }
    }
    assert rfId[..|rfId|] == rfId && rangeNoise[..|rfId|] == rangeNoise;
    ud := NoisyInput(num, u, R_SIM, inputNoise);
    xd' := MotionModel(num, xd, ud, dt);
  }

  // ---------------------------------------------------------------------------------------
  // Prediction and weighting

  /** One particle's prediction: the motion model driven by the input plus that particle's
      noise draws, scaled by the square roots of the variances in `R`. */
  function Predict(num: Numerics, x: Vector4, u: Vector2, dt: real, noise: Vector2): Vector4
  {
    MotionModel(num, x, NoisyInput(num, u, R, noise), dt)
  }

  /** The Gaussian likelihood of one reading for a particle at `x`: the density of the
      difference between the predicted and the measured range, with deviation `sqrt(Q)`. */
  function ReadingLikelihood(num: Numerics, x: Vector4, zi: Vector3): real
  {
    num.gaussLikelihood(Hypot(num, X(x) - ObsX(zi), Y(x) - ObsY(zi)) - ObsD(zi), num.sqrt(Q))
  }

  /** The weight `w` multiplied, reading by reading in order, by each reading's likelihood. */
  function Weight(num: Numerics, x: Vector4, w: real, z: seq<Vector3>): real
  {
    if |z| == 0 then w else Weight(num, x, w, z[..|z| - 1]) * ReadingLikelihood(num, x, z[|z| - 1])
  }

  /** The weight update is linear in the prior weight: it is the prior times the joint
      likelihood of all readings. */
  lemma {:induction false} WeightScales(num: Numerics, x: Vector4, w: real, z: seq<Vector3>)
    ensures Weight(num, x, w, z) == w * Weight(num, x, 1.0, z)
  {
    if |z| > 0 {
      WeightScales(num, x, w, z[..|z| - 1]);
    }
  }

  /** A reading whose likelihood is zero sends the particle's weight to zero, whatever the
      other readings are. */
  lemma {:induction false} ImpossibleReadingZeroWeight(num: Numerics, x: Vector4, w: real, z: seq<Vector3>, k: nat)
    requires k < |z| && ReadingLikelihood(num, x, z[k]) == 0.0
    ensures Weight(num, x, w, z) == 0.0
  {
    var n := |z| - 1;
    if k < n {
      assert z[..n][k] == z[k];
      ImpossibleReadingZeroWeight(num, x, w, z[..n], k);
    }
  }

  /** Taking one more reading multiplies the weight by that reading's likelihood. */
  lemma WeightStep(num: Numerics, x: Vector4, w: real, z: seq<Vector3>, k: nat)
    requires k < |z|
    ensures Weight(num, x, w, z[..k + 1]) == Weight(num, x, w, z[..k]) * ReadingLikelihood(num, x, z[k])
  {
    assert z[..k + 1][..k] == z[..k] && z[..k + 1][k] == z[k];
  }

  /** The inner loop of `pf_localization` over the readings: multiplies the weight by the
      likelihood of each reading. */
  method Reweigh(num: Numerics, x: Vector4, w: real, z: seq<Vector3>) returns (w': real)
    ensures w' == Weight(num, x, w, z)
  {
    w' := w;
    for k := 0 to |z|
      invariant w' == Weight(num, x, w, z[..k])
    {
      WeightStep(num, x, w, z, k);
      var zi := z[k];
      var dx := X(x) - ObsX(zi);
      var dy := Y(x) - ObsY(zi);
      var preZ := Hypot(num, dx, dy);
      var dz := preZ - ObsD(zi);
      assert num.gaussLikelihood(dz, num.sqrt(Q)) == ReadingLikelihood(num, x, zi);
      w' := w' * num.gaussLikelihood(dz, num.sqrt(Q));
    }
    assert z[..|z|] == z;
  }

  /** Every particle advanced by `Predict` with its own noise draws. */
  function Predicted(num: Numerics, ps: seq<Vector4>, u: Vector2, dt: real, noise: seq<Vector2>): (r: seq<Vector4>)
    requires |noise| == |ps|
    ensures |r| == |ps|
  {
    seq(|ps|, i requires 0 <= i < |ps| => Predict(num, ps[i], u, dt, noise[i]))
  }

  /** Every weight updated by the readings, for the particle at the same index. */
  function Reweighted(num: Numerics, ps: seq<Vector4>, ws: seq<real>, z: seq<Vector3>): (r: seq<real>)
    requires |ps| == |ws|
    ensures |r| == |ws|
  {
    seq(|ws|, i requires 0 <= i < |ws| => Weight(num, ps[i], ws[i], z))
  }

  /** The body of the loop below for particle `i` of the cloud `ps` with weights `ws`: the
      motion model with that particle's noisy input, then the weight update at the new
      position. */
  method MoveParticle(num: Numerics, ghost ps: seq<Vector4>, ghost ws: seq<real>, noise: seq<Vector2>, i: nat,
                      x: Vector4, w: real, z: seq<Vector3>, u: Vector2, dt: real) returns (x': Vector4, w': real)
    requires |ps| == |ws| == |noise| && i < |ps|
    requires x == ps[i] && w == ws[i]
    ensures x' == Predicted(num, ps, u, dt, noise)[i]
    ensures w' == Reweighted(num, Predicted(num, ps, u, dt, noise), ws, z)[i]
  {
    var ud := NoisyInput(num, u, R, noise[i]);
    x' := MotionModel(num, x, ud, dt);
    w' := Reweigh(num, x', w, z);
  }

  /** The loop of `pf_localization` over the particles: each particle is moved by the motion
      model with its own noisy input and its weight is multiplied by the readings'
      likelihoods at the new position. */
  method PredictAndWeigh(num: Numerics, px: array<Vector4>, pw: array<real>, z: seq<Vector3>, u: Vector2,
                         dt: real, inputNoise: seq<Vector2>)
    requires px.Length == NP && pw.Length == NP && |inputNoise| == NP
    modifies px, pw
    ensures px[..] == Predicted(num, old(px[..]), u, dt, inputNoise)
    ensures pw[..] == Reweighted(num, px[..], old(pw[..]), z)
  {
    ghost var particles := px[..];
    ghost var weights := pw[..];
    ghost var moved := Predicted(num, particles, u, dt, inputNoise);
    ghost var weighed := Reweighted(num, moved, weights, z);
    for ip := 0 to NP
      invariant forall k {:trigger px[k]} :: 0 <= k < ip ==> px[k] == moved[k]
      invariant forall k {:trigger px[k]} :: ip <= k < NP ==> px[k] == particles[k]
      invariant forall k {:trigger pw[k]} :: 0 <= k < ip ==> pw[k] == weighed[k]
      invariant forall k {:trigger pw[k]} :: ip <= k < NP ==> pw[k] == weights[k]
    {
      var x, w := MoveParticle(num, particles, weights, inputNoise, ip, px[ip], pw[ip], z, u, dt);
      px[ip] := x;
      pw[ip] := w;
    }
    assert px[..] == moved;
    assert pw[..] == weighed;
  }

  // ---------------------------------------------------------------------------------------
  // Normalisation, estimate and covariance

  /** `pw /= pw.sum()`: every weight divided by the total. */
  function Normalize(ws: seq<real>): (r: seq<real>)
    requires Sum(ws) != 0.0
    ensures |r| == |ws|
  {
    seq(|ws|, i requires 0 <= i < |ws| => ws[i] / Sum(ws))
  }

  /** Each normalised weight times the total gives back the weight: the weights keep their
      proportions. */
  lemma NormalizeScales(ws: seq<real>)
    requires Sum(ws) != 0.0
    ensures forall i :: 0 <= i < |ws| ==> Normalize(ws)[i] * Sum(ws) == ws[i]
  {
    var total := Sum(ws);
    forall i | 0 <= i < |ws|
      ensures Normalize(ws)[i] * total == ws[i]
    {
      DivisionUndone(ws[i], total);
    }
  }

  /** Dividing by a nonzero number and multiplying back gives the number. */
  lemma DivisionUndone(a: real, b: real)
    requires b != 0.0
    ensures a / b * b == a
  {
  }

  /** Dividing every entry by `c` divides the sum by `c`. */
  lemma {:induction false} SumDivided(s: seq<real>, c: real)
    requires c != 0.0
    ensures Sum(seq(|s|, i requires 0 <= i < |s| => s[i] / c)) == Sum(s) / c
  {
    var t := seq(|s|, i requires 0 <= i < |s| => s[i] / c);
    if |s| > 0 {
      var n := |s| - 1;
      SumDivided(s[..n], c);
      assert t[..n] == seq(n, i requires 0 <= i < n => s[..n][i] / c);
      assert Sum(t) == Sum(s[..n]) / c + s[n] / c;
    }
  }

  /** Normalised weights sum to one. */
  lemma NormalizedSumIsOne(ws: seq<real>)
    requires Sum(ws) != 0.0
    ensures Sum(Normalize(ws)) == 1.0
  {
    SumDivided(ws, Sum(ws));
    assert Sum(ws) / Sum(ws) == 1.0;
    assert Normalize(ws) == seq(|ws|, i requires 0 <= i < |ws| => ws[i] / Sum(ws));
  }

  /** The in-place normalisation of the weights. */
  method NormalizeWeights(pw: array<real>)
    requires Sum(pw[..]) != 0.0
    modifies pw
    ensures pw[..] == Normalize(old(pw[..]))
  {
    var total := Sum(pw[..]);
    forall i | 0 <= i < pw.Length {
      pw[i] := pw[i] / total;
    }
  }

  /** `px * pw^T`: the weighted sum of the particles. */
  function WeightedMean(ps: seq<Vector4>, ws: seq<real>): Vector4
    requires |ps| == |ws|
  {
    if |ps| == 0 then
      ZeroVector(4)
    else
      var n := |ps| - 1;
      VecAdd(WeightedMean(ps[..n], ws[..n]), ScaleVec(ws[n], ps[n]))
  }

  /** When every particle sits at `p`, the weighted sum is `p` scaled by the total weight. */
  lemma {:induction false} MeanOfIdentical(ps: seq<Vector4>, ws: seq<real>, p: Vector4)
    requires |ps| == |ws|
    requires forall i :: 0 <= i < |ps| ==> ps[i] == p
    ensures WeightedMean(ps, ws) == ScaleVec(Sum(ws), p)
  {
    if |ps| > 0 {
      var n := |ps| - 1;
      MeanOfIdentical(ps[..n], ws[..n], p);
      var m := WeightedMean(ps, ws);
      forall k | 0 <= k < 4
        ensures m[k] == Sum(ws) * p[k]
      {
        assert m[k] == Sum(ws[..n]) * p[k] + ws[n] * p[k];
        assert Sum(ws) == Sum(ws[..n]) + ws[n];
        assert Sum(ws) * p[k] == Sum(ws[..n]) * p[k] + ws[n] * p[k];
        assert ScaleVec(Sum(ws), p)[k] == Sum(ws) * p[k];
      }
      assert |m| == 4 && |ScaleVec(Sum(ws), p)| == 4;
      assert m == ScaleVec(Sum(ws), p);
    }
  }

  /** With normalised weights, the estimate of a cloud whose particles coincide is that
      point. */
  lemma EstimateOfIdentical(ps: seq<Vector4>, ws: seq<real>, p: Vector4)
    requires |ps| == |ws| && Sum(ws) == 1.0
    requires forall i :: 0 <= i < |ps| ==> ps[i] == p
    ensures WeightedMean(ps, ws) == p
  {
    MeanOfIdentical(ps, ws, p);
  }

  /** `dx.rows(0, 3)` with `dx = p - x_est`: the position and heading error of one particle. */
  function Deviation(xEst: Vector4, p: Vector4): (d: Vector3)
    ensures forall k :: 0 <= k < 3 ==> d[k] == p[k] - xEst[k]
  {
    [p[0] - xEst[0], p[1] - xEst[1], p[2] - xEst[2]]
  }

  /** The weighted sum of the outer products of the particles' deviations. */
  function Spread(xEst: Vector4, ps: seq<Vector4>, ws: seq<real>): (m: Matrix)
    requires |ps| == |ws|
    ensures IsMatrix(m, 3, 3)
  {
    if |ps| == 0 then
      Zeros(3, 3)
    else
      var n := |ps| - 1;
      var d := Deviation(xEst, ps[n]);
      Add(Spread(xEst, ps[..n], ws[..n]), Scale(ws[n], Outer(d, d)))
  }

  /** The spread is symmetric: each term `w d d^T` is. */
  lemma {:induction false} SpreadSymmetric(xEst: Vector4, ps: seq<Vector4>, ws: seq<real>)
    requires |ps| == |ws|
    ensures Symmetric(Spread(xEst, ps, ws))
  {
    if |ps| > 0 {
      var n := |ps| - 1;
      SpreadSymmetric(xEst, ps[..n], ws[..n]);
      var d := Deviation(xEst, ps[n]);
      OuterSymmetric(d);
      ScaleSymmetric(ws[n], Outer(d, d));
      AddSymmetric(Spread(xEst, ps[..n], ws[..n]), Scale(ws[n], Outer(d, d)));
    }
  }

  /** When every particle agrees with the estimate in position and heading, the spread is
      zero. */
  lemma {:induction false} SpreadOfCentered(xEst: Vector4, ps: seq<Vector4>, ws: seq<real>)
    requires |ps| == |ws|
    requires forall i, k :: 0 <= i < |ps| && 0 <= k < 3 ==> ps[i][k] == xEst[k]
    ensures Spread(xEst, ps, ws) == Zeros(3, 3)
  {
    if |ps| > 0 {
      var n := |ps| - 1;
      SpreadOfCentered(xEst, ps[..n], ws[..n]);
      var d := Deviation(xEst, ps[n]);
      var s := Spread(xEst, ps[..n], ws[..n]);
      var t := Scale(ws[n], Outer(d, d));
      var m := Spread(xEst, ps, ws);
      assert m == Add(s, t);
      forall i, j | 0 <= i < 3 && 0 <= j < 3
        ensures m[i][j] == 0.0
      {
        assert d[i] == 0.0;
        assert Outer(d, d)[i][j] == 0.0;
        assert t[i][j] == ws[n] * 0.0;
      }
      forall i | 0 <= i < 3
        ensures m[i] == Zeros(3, 3)[i]
      {
      }
    }
  }

  /** `calc_covariance`: the spread scaled by `1 / (1 - sum of squared weights)`; `None` when
      that denominator is zero and the f32 result would not be finite. */
  function Covariance(xEst: Vector4, ps: seq<Vector4>, ws: seq<real>): Option<Matrix>
    requires |ps| == |ws|
  {
    var denom := 1.0 - DotProduct(ws, ws);
    if denom == 0.0 then None else Some(Scale(1.0 / denom, Spread(xEst, ps, ws)))
  }

  /** The covariance, when finite, is a symmetric 3x3 matrix. */
  lemma CovarianceSymmetric(xEst: Vector4, ps: seq<Vector4>, ws: seq<real>)
    requires |ps| == |ws|
    ensures Covariance(xEst, ps, ws).Some? ==>
      IsMatrix(Covariance(xEst, ps, ws).value, 3, 3) && Symmetric(Covariance(xEst, ps, ws).value)
  {
    SpreadSymmetric(xEst, ps, ws);
    if DotProduct(ws, ws) != 1.0 {
      ScaleSymmetric(1.0 / (1.0 - DotProduct(ws, ws)), Spread(xEst, ps, ws));
    }
  }

  /** Accumulating one more particle adds its weighted outer product. */
  lemma SpreadStep(xEst: Vector4, ps: seq<Vector4>, ws: seq<real>, i: nat)
    requires |ps| == |ws| && i < |ps|
    ensures Spread(xEst, ps[..i + 1], ws[..i + 1]) ==
      Add(Spread(xEst, ps[..i], ws[..i]), Scale(ws[i], Outer(Deviation(xEst, ps[i]), Deviation(xEst, ps[i]))))
  {
    assert ps[..i + 1][..i] == ps[..i] && ws[..i + 1][..i] == ws[..i];
    assert ps[..i + 1][i] == ps[i] && ws[..i + 1][i] == ws[i];
  }

  /** The loop of `calc_covariance`. */
  method CalcCovariance(xEst: Vector4, px: array<Vector4>, pw: array<real>) returns (cov: Option<Matrix>)
    requires px.Length == pw.Length
    ensures cov == Covariance(xEst, px[..], pw[..])
  {
    var acc := Zeros(3, 3);
    for i := 0 to px.Length
      invariant acc == Spread(xEst, px[..i], pw[..i])
    {
      SpreadStep(xEst, px[..], pw[..], i);
      var dx := Deviation(xEst, px[i]);
      acc := Add(acc, Scale(pw[i], Outer(dx, dx)));
    }
    assert px[..px.Length] == px[..] && pw[..pw.Length] == pw[..];
    var denom := 1.0 - DotProduct(pw[..], pw[..]);
    if denom == 0.0 {
      cov := None;
    } else {
      cov := Some(Scale(1.0 / denom, acc));
    }
  }

  // ---------------------------------------------------------------------------------------
  // Effective particle count

  /** `N_eff = 1 / (pw pw^T) < NTh`. A zero sum of squares makes `N_eff` infinite in f32,
      which is never below the threshold. */
  predicate NeedsResampling(ws: seq<real>)
  {
    var s := DotProduct(ws, ws);
    s != 0.0 && 1.0 / s < NTH
  }

  /** `ones!(1, NP) * (1 / NP)`: every weight `1 / NP`. */
  function Uniform(n: nat): (ws: seq<real>)
    ensures |ws| == n
  {
    seq(n, _ => 1.0 / NP as real)
  }

  /** The sum of squares of `n` equal weights `c` is `n c^2`. */
  lemma {:induction false} SquaresOfConstant(n: nat, c: real)
    ensures DotProduct(seq(n, _ => c), seq(n, _ => c)) == n as real * c * c
  {
    if n > 0 {
      assert seq(n, _ => c)[1..] == seq(n - 1, _ => c);
      SquaresOfConstant(n - 1, c);
    }
  }

  /** The sum of `n` equal weights `c` is `n c`. */
  lemma {:induction false} SumOfConstant(n: nat, c: real)
    ensures Sum(seq(n, _ => c)) == n as real * c
  {
    if n > 0 {
      assert seq(n, _ => c)[..n - 1] == seq(n - 1, _ => c);
      SumOfConstant(n - 1, c);
    }
  }

  /** Uniform weights sum to one and give `N_eff = NP`, so a freshly reset cloud is not
      resampled. */
  lemma UniformWeights()
    ensures Sum(Uniform(NP)) == 1.0
    ensures DotProduct(Uniform(NP), Uniform(NP)) == 1.0 / NP as real
    ensures !NeedsResampling(Uniform(NP))
  {
    SumOfConstant(NP, 1.0 / NP as real);
    SquaresOfConstant(NP, 1.0 / NP as real);
  }

  /** All weight on particle `k`. */
  function OneHot(n: nat, k: nat): (ws: seq<real>)
    ensures |ws| == n
  {
    seq(n, i => if i == k then 1.0 else 0.0)
  }

  /** The sum of squares of a one-hot weight vector is one. */
  lemma {:induction false} SquaresOfOneHot(n: nat, k: nat)
    requires k < n
    ensures DotProduct(OneHot(n, k), OneHot(n, k)) == 1.0
  {
    var ws := OneHot(n, k);
    if k == 0 {
      assert ws[1..] == ZeroVector(n - 1);
      DotWithZero(ws[1..], n - 1);
    } else {
      assert ws[1..] == OneHot(n - 1, k - 1);
      SquaresOfOneHot(n - 1, k - 1);
    }
  }

  /** A cloud with all its weight on one particle has `N_eff = 1` and is resampled. */
  lemma DegenerateCloudResampled(k: nat)
    requires k < NP
    ensures NeedsResampling(OneHot(NP, k))
  {
    SquaresOfOneHot(NP, k);
  }

  // ---------------------------------------------------------------------------------------
  // Systematic resampling

  /** Prefix sums of the weights. */
  function Cumulative(ws: seq<real>): (c: seq<real>)
    ensures |c| == |ws|
  {
    seq(|ws|, i requires 0 <= i < |ws| => Sum(ws[..i + 1]))
  }

  /** The `scan` that builds `w_cum`. */
  method CumulativeWeights(ws: seq<real>) returns (c: seq<real>)
    ensures c == Cumulative(ws)
  {
    c := [];
    var acc := 0.0;
    for i := 0 to |ws|
      invariant |c| == i && acc == Sum(ws[..i])
      invariant forall k :: 0 <= k < i ==> c[k] == Sum(ws[..k + 1])
    {
      assert ws[..i + 1][..i] == ws[..i];
      acc := acc + ws[i];
      c := c + [acc];
    }
  }

  /** Consecutive prefix sums differ by the weight in between, so they never decrease when
      the weights are nonnegative, and the last one is the total. */
  lemma CumulativeSteps(ws: seq<real>)
    ensures forall i :: 0 < i < |ws| ==> Cumulative(ws)[i] == Cumulative(ws)[i - 1] + ws[i]
    ensures |ws| > 0 ==> Cumulative(ws)[|ws| - 1] == Sum(ws)
  {
    var c := Cumulative(ws);
    forall i | 0 < i < |ws|
      ensures c[i] == c[i - 1] + ws[i]
    {
      assert ws[..i + 1][..i] == ws[..i];
    }
    assert |ws| > 0 ==> ws[..|ws|] == ws;
  }

  /** The resampling positions: `ip / NP` plus a draw from `[0, 1/NP)`. */
  function Points(jitter: seq<real>): (pts: seq<real>)
    ensures |pts| == |jitter|
  {
    seq(|jitter|, i requires 0 <= i < |jitter| => i as real / NP as real + jitter[i])
  }

  /** With every draw in `[0, 1/NP)` the positions strictly increase and lie in `[0, 1)`
      when there are at most `NP` of them. */
  lemma PointsIncrease(jitter: seq<real>)
    requires forall i :: 0 <= i < |jitter| ==> 0.0 <= jitter[i] < 1.0 / NP as real
    ensures forall i, j :: 0 <= i < j < |jitter| ==> Points(jitter)[i] < Points(jitter)[j]
    ensures |jitter| <= NP ==> forall i :: 0 <= i < |jitter| ==> 0.0 <= Points(jitter)[i] < 1.0
  {
  }

  /** The cursor advance of `re_sampling`: from `ind`, the first index whose cumulative
      weight reaches `p`, or the last index if none does. */
  function Advance(c: seq<real>, p: real, ind: nat): (j: nat)
    requires ind < |c|
    ensures ind <= j < |c|
    ensures p <= c[j] || j == |c| - 1
    decreases |c| - ind
  {
    if p > c[ind] && ind < |c| - 1 then Advance(c, p, ind + 1) else ind
  }

  /** Every index the cursor moves past has a cumulative weight below `p`. */
  lemma {:induction false} AdvanceSkipsBelow(c: seq<real>, p: real, ind: nat)
    requires ind < |c|
    ensures forall k :: ind <= k < Advance(c, p, ind) ==> c[k] < p
    decreases |c| - ind
  {
    if p > c[ind] && ind < |c| - 1 {
      AdvanceSkipsBelow(c, p, ind + 1);
    }
  }

  /** The particle copied into slot `k`: the cursor is never reset between slots. */
  function Select(c: seq<real>, pts: seq<real>, k: nat): (j: nat)
    requires 0 < |c| && k < |pts|
    ensures j < |c|
  {
    Advance(c, pts[k], if k == 0 then 0 else Select(c, pts, k - 1))
  }

  /** The chosen indices never decrease from one slot to the next. */
  lemma {:induction false} SelectMonotone(c: seq<real>, pts: seq<real>, k: nat, l: nat)
    requires 0 < |c| && k <= l < |pts|
    ensures Select(c, pts, k) <= Select(c, pts, l)
    decreases l
  {
    if k < l {
      SelectMonotone(c, pts, k, l - 1);
    }
  }

  /** With non-decreasing positions, slot `k` takes the first particle whose cumulative
      weight reaches `pts[k]` (the inverse of the cumulative distribution), or the last
      particle when none does. */
  lemma {:induction false} SelectIsFirst(c: seq<real>, pts: seq<real>, k: nat)
    requires 0 < |c| && k < |pts|
    requires forall i, j :: 0 <= i < j < |pts| ==> pts[i] <= pts[j]
    ensures pts[k] <= c[Select(c, pts, k)] || Select(c, pts, k) == |c| - 1
    ensures forall j :: 0 <= j < Select(c, pts, k) ==> c[j] < pts[k]
  {
    AdvanceSkipsBelow(c, pts[k], if k == 0 then 0 else Select(c, pts, k - 1));
    if k > 0 {
      SelectIsFirst(c, pts, k - 1);
      assert pts[k - 1] <= pts[k];
    }
  }

  /** A particle of zero weight, neither the first nor the last, is never copied. */
  lemma NeverSelectsZeroWeight(ws: seq<real>, pts: seq<real>, j: nat, k: nat)
    requires 0 < j < |ws| - 1 && ws[j] == 0.0 && k < |pts|
    requires forall i, l :: 0 <= i < l < |pts| ==> pts[i] <= pts[l]
    ensures Select(Cumulative(ws), pts, k) != j
  {
    var c := Cumulative(ws);
    CumulativeSteps(ws);
    SelectIsFirst(c, pts, k);
    var s := Select(c, pts, k);
    assert c[j] == c[j - 1];
    assert j - 1 < s ==> c[j - 1] < pts[k];
  }

  /** The cloud after resampling: slot `k` holds the particle `Select` chooses. */
  function Resampled(ps: seq<Vector4>, ws: seq<real>, jitter: seq<real>): (r: seq<Vector4>)
    requires 0 < |ps| == |ws|
    ensures |r| == |jitter|
  {
    seq(|jitter|, k requires 0 <= k < |jitter| => ps[Select(Cumulative(ws), Points(jitter), k)])
  }

  /** The `while` loop of `re_sampling` that moves the cursor forward. */
  method AdvanceCursor(c: seq<real>, p: real, start: nat) returns (ind: nat)
    requires start < |c|
    ensures ind == Advance(c, p, start)
  {
    ind := start;
    while p > c[ind] && ind < |c| - 1
      invariant start <= ind < |c|
      invariant Advance(c, p, ind) == Advance(c, p, start)
      decreases |c| - ind
    {
      ind := ind + 1;
    }
  }

  /** The selection loop of `re_sampling`: one cursor walks forward over the cumulative
      weights, and slot `ip` receives the particle it rests on for position `ip`. */
  method SelectParticles(px: array<Vector4>, wCum: seq<real>, resampleId: seq<real>) returns (pxNew: array<Vector4>)
    requires 0 < px.Length == |wCum|
    ensures fresh(pxNew) && pxNew.Length == |resampleId|
    ensures forall k :: 0 <= k < |resampleId| ==> pxNew[k] == px[Select(wCum, resampleId, k)]
  {
    var ind := 0;
    ghost var particles := px[..];
    pxNew := new Vector4[|resampleId|](_ => [0.0, 0.0, 0.0, 0.0]);
    for ip := 0 to |resampleId|
      invariant ind < |wCum|
      invariant ip == 0 ==> ind == 0
      invariant ip > 0 ==> ind == Select(wCum, resampleId, ip - 1)
      invariant forall k {:trigger pxNew[k]} :: 0 <= k < ip ==> pxNew[k] == particles[Select(wCum, resampleId, k)]
    {
      assert Select(wCum, resampleId, ip) == Advance(wCum, resampleId[ip], ind);
      ind := AdvanceCursor(wCum, resampleId[ip], ind);
      pxNew[ip] := px[ind];
    }
  }

  /** `re_sampling`: copy the chosen particles in slot order and reset every weight to
      `1 / NP`. */
  method ReSampling(px: array<Vector4>, pw: array<real>, jitter: seq<real>)
    requires px.Length == NP && pw.Length == NP && |jitter| == NP
    modifies px, pw
    ensures px[..] == Resampled(old(px[..]), old(pw[..]), jitter)
    ensures pw[..] == Uniform(NP)
  {
    var wCum := CumulativeWeights(pw[..]);
    var resampleId := Points(jitter);
    var pxNew := SelectParticles(px, wCum, resampleId);
    assert pxNew[..] == Resampled(px[..], pw[..], jitter);
    forall i | 0 <= i < NP {
      px[i] := pxNew[i];
    }
    forall i | 0 <= i < NP {
      pw[i] := 1.0 / NP as real;
    }
  }

  // ---------------------------------------------------------------------------------------
  // One filter step

  /** What one step of the filter returns. */
  datatype Estimate = Estimate(xEst: Vector4, pEst: Option<Matrix>, resampled: bool)

  /** `pf_localization`: predict and weigh every particle, normalise the weights, estimate
      the state and its covariance from the normalised cloud, and resample when the
      effective particle count falls below `NTh`. When the new weights sum to zero the f32
      code would divide by zero and carry NaN onwards; the model stops there and returns
      `None`, leaving the predicted particles and their unnormalised weights. */
  method PfLocalization(num: Numerics, px: array<Vector4>, pw: array<real>, z: seq<Vector3>, u: Vector2,
                        dt: real, inputNoise: seq<Vector2>, jitter: seq<real>)
    returns (r: Option<Estimate>)
    requires px.Length == NP && pw.Length == NP && |inputNoise| == NP && |jitter| == NP
    modifies px, pw
    ensures var ps := Predicted(num, old(px[..]), u, dt, inputNoise);
      var ws := Reweighted(num, ps, old(pw[..]), z);
      if Sum(ws) == 0.0 then
        r == None && px[..] == ps && pw[..] == ws
      else
        var wn := Normalize(ws);
        var xEst := WeightedMean(ps, wn);
        r == Some(Estimate(xEst, Covariance(xEst, ps, wn), NeedsResampling(wn))) &&
        (NeedsResampling(wn) ==> px[..] == Resampled(ps, wn, jitter) && pw[..] == Uniform(NP)) &&
        (!NeedsResampling(wn) ==> px[..] == ps && pw[..] == wn)
  {
    PredictAndWeigh(num, px, pw, z, u, dt, inputNoise);
    if Sum(pw[..]) == 0.0 {
      return None;
    }
    NormalizeWeights(pw);
    var xEst := WeightedMean(px[..], pw[..]);
    var pEst := CalcCovariance(xEst, px, pw);
    var sumSquares := DotProduct(pw[..], pw[..]);
    var resample := sumSquares != 0.0 && 1.0 / sumSquares < NTH;
    if resample {
      ReSampling(px, pw, jitter);
    }
    r := Some(Estimate(xEst, pEst, resample));
  }
}
