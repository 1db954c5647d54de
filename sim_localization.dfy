/** The particle-filter window of the simulator (`simulator::localization`): a vehicle
    driven around four landmarks, its dead-reckoning and filtered estimates, the particle
    cloud, and a bounded history of the three states. */
module SimLocalization {
  import opened Base
  import opened Linalg
  import opened Util
  import opened StateVector
  import opened ParticleFilter

  /** Most states each history keeps. */
  const N: nat := 1000

  /** The landmark positions the vehicle observes. */
  const MARKERS: seq<Vector2> := [[10.0, 0.0], [10.0, 10.0], [0.0, 15.0], [-5.0, 20.0]]

  /** What another simulation exposes through `get_state`: a vehicle state, or a value of
      some other type that the downcast rejects. */
  datatype SharedState = VehicleState(state: Vector4) | OtherState

  /** A history after one more state: appended, and its oldest entry dropped once it holds
      more than `N`. */
  function Pushed(h: seq<Vector4>, x: Vector4): seq<Vector4>
  {
    var grown := h + [x];
    if |grown| > N then grown[1..] else grown
  }

  /** A history of one to `N` states keeps that bound, ends with the new state and keeps
      the newest earlier states in order. */
  lemma PushedBounded(h: seq<Vector4>, x: Vector4)
    requires 1 <= |h| <= N
    ensures var p := Pushed(h, x);
      1 <= |p| <= N && p[|p| - 1] == x && p[..|p| - 1] == h[|h| - (|p| - 1)..]
  {
    var p := Pushed(h, x);
    if |h| + 1 > N {
      assert p[..|p| - 1] == h[1..];
    } else {
      assert p[..|p| - 1] == h;
    }
  }

  /** `is_detected`: a marker is drawn as seen when it is within `MAX_RANGE` of the
      vehicle. */
  predicate IsDetected(num: Numerics, marker: Vector2, state: Vector4): (seen: bool)
    ensures seen <==> InRange(num, state, marker)
  {
    var dx := X(state) - PointX(marker);
    var dy := Y(state) - PointY(marker);
    Hypot(num, dx, dy) <= MAX_RANGE
  }

  /** The window shows a marker as seen exactly when `observation` takes a reading of it:
      marker `i` is detected iff `i` is among the visible landmarks, and there is one reading
      per detected marker. */
  lemma DetectedIffObserved(num: Numerics, state: Vector4, noise: seq<real>, i: nat)
    requires i < |MARKERS| && |noise| == |MARKERS|
    ensures IsDetected(num, MARKERS[i], state) <==> i in Visible(num, state, MARKERS)
    ensures |Detections(num, state, MARKERS, noise)| == |Visible(num, state, MARKERS)|
  {
    assert IsDetected(num, MARKERS[i], state) == InRange(num, state, MARKERS[i]);
    DetectionsAreVisible(num, state, MARKERS, noise);
  }

  /** The state of the simulation window. */
  class ParticleFilterSim {
    var xEst: Vector4
    var xTrue: Vector4
    var xDr: Vector4
    /** The last covariance estimate; `None` where the f32 program would hold a non-finite
        matrix. */
    var pEst: Option<Matrix>
    const pw: array<real>
    const px: array<Vector4>
    var hEst: seq<Vector4>
    var hTrue: seq<Vector4>
    var hDr: seq<Vector4>
    const id: nat
    const initTime: real
    /** The landmarks observed, `MARKERS` from construction on. */
    const markers: seq<Vector2>

    /** The cloud has `NP` particles and weights; the three histories have equal lengths
        between one and `N`. */
    predicate Valid()
      reads this
    {
      px.Length == NP && pw.Length == NP && |markers| == |MARKERS| &&
      |hEst| == |hTrue| == |hDr| && 1 <= |hEst| <= N
    }

    /** `new`: all states zero, particles at the origin with equal weights `1/NP`, and each
        history holding one zero state. */
    constructor (id: nat, time: real)
      ensures Valid()
      ensures xEst == ZeroVector(4) && xTrue == ZeroVector(4) && xDr == ZeroVector(4)
      ensures pEst == Some(Zeros(3, 3))
      ensures fresh(px) && fresh(pw)
      ensures px[..] == seq(NP, _ => ZeroVector(4)) && pw[..] == Uniform(NP)
      ensures hEst == [ZeroVector(4)] && hTrue == [ZeroVector(4)] && hDr == [ZeroVector(4)]
      ensures this.id == id && initTime == time && markers == MARKERS
    {
      xEst := ZeroVector(4);
      xTrue := ZeroVector(4);
      xDr := ZeroVector(4);
      pEst := Some(Zeros(3, 3));
      pw := new real[NP](_ => 1.0 / NP as real);
      px := new Vector4[NP](_ => ZeroVector(4));
      hEst := [ZeroVector(4)];
      hTrue := [ZeroVector(4)];
      hDr := [ZeroVector(4)];
      this.id := id;
      initTime := time;
      markers := MARKERS;
    }

    /** `update_history`: the three current states appended in lockstep, the oldest entry
        of all three dropped once they hold more than `N`. */
    method UpdateHistory()
      requires Valid()
      modifies this
      ensures Valid()
      ensures hEst == Pushed(old(hEst), xEst) && hTrue == Pushed(old(hTrue), xTrue) && hDr == Pushed(old(hDr), xDr)
      ensures xEst == old(xEst) && xTrue == old(xTrue) && xDr == old(xDr) && pEst == old(pEst)
    {
      hEst := hEst + [xEst];
      hTrue := hTrue + [xTrue];
      hDr := hDr + [xDr];
      if |hEst| > N {
        hEst := hEst[1..];
        hTrue := hTrue[1..];
        hDr := hDr[1..];
      }
    }

    /** `get_state`: the true vehicle state. */
    function GetState(): (s: SharedState)
      reads this
      ensures s.VehicleState? && s.state == xTrue
    {
      VehicleState(xTrue)
    }

    /** `match_state_with`: takes the other simulation's state as the true state when it is
        a vehicle state; otherwise nothing changes. */
    method MatchStateWith(other: SharedState)
      modifies this
      ensures xTrue == if other.VehicleState? then other.state else old(xTrue)
      ensures xEst == old(xEst) && xDr == old(xDr) && pEst == old(pEst)
      ensures hEst == old(hEst) && hTrue == old(hTrue) && hDr == old(hDr)
    {
      if other.VehicleState? {
        xTrue := other.state;
      }
    }

    /** The filter part of `step`: one `pf_localization` on the readings `z` and the noisy
        input `ud`, its estimate and covariance stored. When the weights sum to zero the f32
        program would store non-finite values; the model keeps the previous estimate and
        records the covariance as `None`. */
    method Localize(num: Numerics, z: seq<Vector3>, ud: Vector2, dt: real, particleNoise: seq<Vector2>,
                    jitter: seq<real>)
      requires Valid()
      requires |particleNoise| == NP && |jitter| == NP
      modifies this, px, pw
      ensures Valid()
      ensures xTrue == old(xTrue) && xDr == old(xDr)
      ensures hEst == old(hEst) && hTrue == old(hTrue) && hDr == old(hDr)
      ensures var ps := Predicted(num, old(px[..]), ud, dt, particleNoise);
        var ws := Reweighted(num, ps, old(pw[..]), z);
        if Sum(ws) == 0.0 then
          xEst == old(xEst) && pEst == None && px[..] == ps && pw[..] == ws
        else
          var wn := Normalize(ws);
          xEst == WeightedMean(ps, wn) && pEst == Covariance(xEst, ps, wn) &&
          (NeedsResampling(wn) ==> px[..] == Resampled(ps, wn, jitter) && pw[..] == Uniform(NP)) &&
          (!NeedsResampling(wn) ==> px[..] == ps && pw[..] == wn)
    {
      var est := PfLocalization(num, px, pw, z, ud, dt, particleNoise, jitter);
      match est {
        case Some(e) =>
          xEst := e.xEst;
          pEst := e.pEst;
        case None =>
          pEst := None;
      }
    }

    /** `step`: the true and dead-reckoning states advanced by `observation` with the
        fixed input, one filter step on its readings and noisy input, then the history
        updated. The random draws are parameters: one range noise per marker, one input
        noise for dead reckoning, one input noise per particle and the resampling jitter. */
    method Step(num: Numerics, dt: real, rangeNoise: seq<real>, inputNoise: Vector2,
                particleNoise: seq<Vector2>, jitter: seq<real>)
      returns (ghost z: seq<Vector3>, ghost ud: Vector2)
      requires Valid()
      requires |rangeNoise| == |markers| && |particleNoise| == NP && |jitter| == NP
      modifies this, px, pw
      ensures Valid()
      ensures xTrue == MotionModel(num, old(xTrue), CalcInput(), dt)
      ensures z == Detections(num, xTrue, markers, rangeNoise)
      ensures ud == NoisyInput(num, CalcInput(), R_SIM, inputNoise)
      ensures xDr == MotionModel(num, old(xDr), ud, dt)
      ensures var ps := Predicted(num, old(px[..]), ud, dt, particleNoise);
        var ws := Reweighted(num, ps, old(pw[..]), z);
        if Sum(ws) == 0.0 then
          xEst == old(xEst) && pEst == None && px[..] == ps && pw[..] == ws
        else
          var wn := Normalize(ws);
          xEst == WeightedMean(ps, wn) && pEst == Covariance(xEst, ps, wn) &&
          (NeedsResampling(wn) ==> px[..] == Resampled(ps, wn, jitter) && pw[..] == Uniform(NP)) &&
          (!NeedsResampling(wn) ==> px[..] == ps && pw[..] == wn)
      ensures hEst == Pushed(old(hEst), xEst) && hTrue == Pushed(old(hTrue), xTrue) && hDr == Pushed(old(hDr), xDr)
    {
      var u := CalcInput();
      var readings, input;
      xTrue, xDr, readings, input := Observation(num, xTrue, xDr, u, markers, dt, rangeNoise, inputNoise);
      z, ud := readings, input;
      Localize(num, readings, input, dt, particleNoise, jitter);
      UpdateHistory();
    }
  }
}
