/** The PID controller of `control::inverted_pendulum::pid`: three gains and the two pieces
    of memory (integrated error, previous error) that each `control` call updates. */
module Pid {
  import opened Linalg

  /** The proportional, integral and derivative gains. */
  datatype Gains = Gains(P: real, I: real, D: real)

  /** The controller's memory: the integrated error and the error of the previous call. */
  datatype Memory = Memory(errInt: real, errPrev: real)

  /** The gains of `PID::default()`: a pure proportional controller with unit gain. */
  const DEFAULT_GAINS: Gains := Gains(1.0, 0.0, 0.0)

  /** The memory of a fresh or reset controller. */
  const AT_REST: Memory := Memory(0.0, 0.0)

  /** The memory after one `control(err, dt)` call: the integral grows by `err dt` and
      `err` becomes the previous error. */
  function Next(s: Memory, err: real, dt: real): Memory
  {
    Memory(s.errInt + err * dt, err)
  }

  /** The output of one `control(err, dt)` call:
      `P err + I (grown integral) + D (err − previous err) / dt`. */
  function Output(g: Gains, s: Memory, err: real, dt: real): real
    requires dt != 0.0
  {
    g.P * err + g.I * Next(s, err, dt).errInt + g.D * (err - s.errPrev) / dt
  }

  /** The memory after a sequence of calls with the same step `dt`. */
  function Final(s: Memory, errs: seq<real>, dt: real): Memory
  {
    if |errs| == 0 then s else Next(Final(s, errs[..|errs| - 1], dt), errs[|errs| - 1], dt)
  }

  /** The outputs of a sequence of calls with the same step `dt`, in order. */
  function Outputs(g: Gains, s: Memory, errs: seq<real>, dt: real): seq<real>
    requires dt != 0.0
  {
    if |errs| == 0 then
      []
    else
      var front := errs[..|errs| - 1];
      Outputs(g, s, front, dt) + [Output(g, Final(s, front, dt), errs[|errs| - 1], dt)]
  }

  /** After a sequence of calls the integral has grown by `dt` times the sum of the errors
      and the previous error is the last error. */
  lemma {:induction false} FinalMemory(s: Memory, errs: seq<real>, dt: real)
    ensures Final(s, errs, dt).errInt == s.errInt + Sum(errs) * dt
    ensures Final(s, errs, dt).errPrev == if |errs| == 0 then s.errPrev else errs[|errs| - 1]
  {
    if |errs| > 0 {
      var front := errs[..|errs| - 1];
      FinalMemory(s, front, dt);
      var e := errs[|errs| - 1];
      assert (Sum(front) + e) * dt == Sum(front) * dt + e * dt;
    }
  }

  /** A controller at rest that sees only zero errors outputs zeros and stays at rest. */
  lemma {:induction false} ZeroErrorsStayAtRest(g: Gains, errs: seq<real>, dt: real)
    requires dt != 0.0
    requires forall i :: 0 <= i < |errs| ==> errs[i] == 0.0
    ensures Final(AT_REST, errs, dt) == AT_REST
    ensures Outputs(g, AT_REST, errs, dt) == ZeroVector(|errs|)
  {
    if |errs| > 0 {
      var front := errs[..|errs| - 1];
      ZeroErrorsStayAtRest(g, front, dt);
      assert Output(g, AT_REST, 0.0, dt) == 0.0;
      assert ZeroVector(|front|) + [0.0] == ZeroVector(|errs|);
    }
  }

  /** With zero integral and derivative gains the output is `P err`, whatever the memory. */
  lemma ProportionalOnly(g: Gains, s: Memory, err: real, dt: real)
    requires dt != 0.0 && g.I == 0.0 && g.D == 0.0
    ensures Output(g, s, err, dt) == g.P * err
  {
  }

  /** A PID controller whose gains are public and whose memory each call updates. */
  class PID {
    var P: real
    var I: real
    var D: real
    var errInt: real
    var errPrev: real

    /** The current gains. */
    function GainsOf(): Gains
      reads this
    {
      Gains(P, I, D)
    }

    /** The current memory. */
    function MemoryOf(): Memory
      reads this
    {
      Memory(errInt, errPrev)
    }

    /** `PID::new()` / `PID::default()`: gains (1, 0, 0), memory at rest. */
    constructor ()
      ensures GainsOf() == DEFAULT_GAINS && MemoryOf() == AT_REST
    {
      P, I, D := 1.0, 0.0, 0.0;
      errInt, errPrev := 0.0, 0.0;
    }

    /** `PID::with_gains(P, I, D)`: exactly the given gains, memory at rest. */
    constructor WithGains(p: real, i: real, d: real)
      ensures GainsOf() == Gains(p, i, d) && MemoryOf() == AT_REST
    {
      P, I, D := p, i, d;
      errInt, errPrev := 0.0, 0.0;
    }

    /** `reset_state`: memory back to rest, gains unchanged. */
    method ResetState()
      modifies this
      ensures MemoryOf() == AT_REST
      ensures GainsOf() == old(GainsOf())
    {
      errInt := 0.0;
      errPrev := 0.0;
    }

    /** `control(err, dt)`: the output and new memory of one call; the gains never change.
        The derivative term divides by `dt`. */
    method Control(err: real, dt: real) returns (u: real)
      requires dt != 0.0
      modifies this
      ensures MemoryOf() == Next(old(MemoryOf()), err, dt)
      ensures u == Output(old(GainsOf()), old(MemoryOf()), err, dt)
      ensures GainsOf() == old(GainsOf())
    {
      errInt := errInt + err * dt;
      u := P * err + I * errInt + D * (err - errPrev) / dt;
      errPrev := err;
    }
  }
}
