# rust_robotics: particle-filter localisation, LQR and PID control, time-indexed data

This project models the algorithmic core of `rust_robotics` in Dafny and proves properties
of the model:

- the particle filter of `rust_robotics_algo::localization` (module `ParticleFilter`): the
  simulated range sensor `observation`, the vehicle `motion_model`, the weight update with
  the Gaussian likelihood, weight normalisation, the weighted state estimate and its
  covariance `calc_covariance`, the effective-particle-count test, systematic
  `re_sampling`, and `pf_localization`, which strings them together. It works in place on
  the particle and weight buffers, modelled as arrays of `NP = 100` entries;
- the `StateVector` getters (module `StateVector`);
- the default methods of the `LQR` trait in `control` (module `Lqr`): the fixed-point
  solver `solve_DARE` of the discrete algebraic Riccati equation, the gain `dlqr` and the
  state feedback `control`;
- the stand-alone controller `inverted_pendulum_lqr_control` (module `PendulumLqr`) and the
  cart-pole model `inverted_pendulum::Model` (module `Pendulum`);
- the `PID` controller (module `Pid`), a class whose memory each call updates;
- the matrix helpers of `util` (module `Util`): `zeros!`, `ones!`, `diag!`, `eye!`, `dot!`,
  `join!`, `hypot`, the `Point` getters and block assembly through the `Block` trait and
  the `hstack_pair!`, `vstack_pair!` and `block_diag_pair!` macros, written into a
  two-dimensional array;
- the simulator's time-indexed buffers `Timeline`, `ColumnData`, `TimeTable` and
  `TimeSeries` (module `Data`);
- the particle-filter window of the simulator (module `SimLocalization`): its state, history
  and `step`.

`f32` numbers are modelled as mathematical reals. `sqrt`, `sin`, `cos` and
`gauss_likelihood` are left uninterpreted: they are fields of a `Numerics` value passed in,
so every statement holds whatever those functions return. The random draws (`rand()`,
`rand_unifrom`) are parameters: one range-noise draw per landmark, one input-noise pair per
particle, one jitter per resampling slot. nalgebra's `pseudo_inverse` is also a parameter; it
returns `None` where the decomposition fails. A Rust panic whose program goes on returning a
value is modelled as `Outcome.Panic(message)` with the program's message. Examples are the
`expect` on the pseudo-inverse, the `usize` subtractions in `get_index_under` and
`eye!(n, k)`, a missing or mismatched row in `dot!`, a reversed or out-of-range slice, and
`TimeSeries::new` on unequal lengths. `Vec::remove(0)` on an empty
vector inside a mutating method becomes a precondition.

Linear algebra (module `Linalg`) is total: matrices are sequences of rows, and a missing
entry reads as zero. It agrees with nalgebra on well-shaped operands.

## Model

| member | source | states |
|---|---|---|
| StateVector.Decompose | rust_robotics_algo/src/localization/mod.rs:17-30 | `x`, `y`, `phi`, `v` read components 0 to 3 and together recover the state |
| ParticleFilter.MotionFApplied | rust_robotics_algo/src/localization/particle_filter.rs:64 | `F = diag(1,1,1,0)` keeps position and heading and zeroes the speed |
| ParticleFilter.MotionBApplied | rust_robotics_algo/src/localization/particle_filter.rs:66-69 | `B u` moves along the heading by `dt v`, turns by `dt` times the yaw rate and carries the input speed |
| ParticleFilter.MotionModelClosedForm | rust_robotics_algo/src/localization/particle_filter.rs:63-72 | `motion_model` yields `[x + cos(phi) dt v, y + sin(phi) dt v, phi + dt yaw, v]` |
| ParticleFilter.Visible | rust_robotics_algo/src/localization/particle_filter.rs:44-53 | the landmarks read are those in increasing index order whose distance is at most `MAX_RANGE` (both directions) |
| ParticleFilter.DetectionsAreVisible | rust_robotics_algo/src/localization/particle_filter.rs:44-53 | one reading per visible landmark, in landmark order; reading k is the k-th visible landmark's distance plus noise and its position |
| ParticleFilter.DetectionsStep | rust_robotics_algo/src/localization/particle_filter.rs:44-53 | each landmark adds a reading exactly when it is in range |
| ParticleFilter.Observation | rust_robotics_algo/src/localization/particle_filter.rs:31-61 | the true state is advanced with `u`; the readings are those of the in-range landmarks at the new state; the dead-reckoning state is advanced with the noisy input, which is returned |
| ParticleFilter.WeightScales | rust_robotics_algo/src/localization/particle_filter.rs:109-115 | the updated weight is the prior weight times the joint likelihood of all readings |
| ParticleFilter.ImpossibleReadingZeroWeight | rust_robotics_algo/src/localization/particle_filter.rs:109-115 | one reading of likelihood zero sends the weight to zero |
| ParticleFilter.WeightStep | rust_robotics_algo/src/localization/particle_filter.rs:109-115 | each reading multiplies the weight by its likelihood |
| ParticleFilter.Reweigh | rust_robotics_algo/src/localization/particle_filter.rs:109-115 | the reading loop computes the weight update `Weight` |
| ParticleFilter.MoveParticle | rust_robotics_algo/src/localization/particle_filter.rs:101-117 | one particle's new position and weight are entry `i` of the predicted cloud and of its reweighted weights |
| ParticleFilter.PredictAndWeigh | rust_robotics_algo/src/localization/particle_filter.rs:100-118 | every particle is moved with its own noisy input and its weight updated at the new position; nothing else in the buffers changes |
| ParticleFilter.NormalizeScales | rust_robotics_algo/src/localization/particle_filter.rs:120 | normalised weights times the total give back the weights, so the weights keep their proportions |
| ParticleFilter.SumDivided | rust_robotics_algo/src/localization/particle_filter.rs:120 | dividing every weight by `c` divides the sum by `c` |
| ParticleFilter.NormalizedSumIsOne | rust_robotics_algo/src/localization/particle_filter.rs:120 | normalised weights sum to one |
| ParticleFilter.NormalizeWeights | rust_robotics_algo/src/localization/particle_filter.rs:120 | `pw /= pw.sum()` in place yields the normalised weights |
| ParticleFilter.MeanOfIdentical | rust_robotics_algo/src/localization/particle_filter.rs:123 | `px pwᵀ` of coinciding particles is that point scaled by the total weight |
| ParticleFilter.EstimateOfIdentical | rust_robotics_algo/src/localization/particle_filter.rs:123 | with normalised weights, the estimate of coinciding particles is that point |
| ParticleFilter.Deviation | rust_robotics_algo/src/localization/particle_filter.rs:81-82 | `dx.rows(0, 3)` is the position and heading error of the particle |
| ParticleFilter.Spread | rust_robotics_algo/src/localization/particle_filter.rs:79-84 | the accumulated sum of weighted outer products is 3x3 |
| ParticleFilter.SpreadSymmetric | rust_robotics_algo/src/localization/particle_filter.rs:79-84 | the accumulated sum is symmetric |
| ParticleFilter.SpreadOfCentered | rust_robotics_algo/src/localization/particle_filter.rs:79-84 | particles agreeing with the estimate in position and heading give a zero sum |
| ParticleFilter.CovarianceSymmetric | rust_robotics_algo/src/localization/particle_filter.rs:78-87 | the covariance, when finite, is a symmetric 3x3 matrix |
| ParticleFilter.SpreadStep | rust_robotics_algo/src/localization/particle_filter.rs:80-84 | each particle adds `w dx dxᵀ` |
| ParticleFilter.CalcCovariance | rust_robotics_algo/src/localization/particle_filter.rs:78-87 | the loop computes the weighted spread scaled by `1/(1 - Σw²)`, or `None` when that denominator is zero |
| ParticleFilter.Uniform | rust_robotics_algo/src/localization/particle_filter.rs:155 | `ones!(1, NP) / NP` has `NP` entries |
| ParticleFilter.SquaresOfConstant | rust_robotics_algo/src/localization/particle_filter.rs:126 | the sum of squares of `n` equal weights `c` is `n c²` |
| ParticleFilter.SumOfConstant | rust_robotics_algo/src/localization/particle_filter.rs:120 | the sum of `n` equal weights `c` is `n c` |
| ParticleFilter.UniformWeights | rust_robotics_algo/src/localization/particle_filter.rs:126-129 | uniform weights sum to one and give `N_eff = NP`, so they are not resampled |
| ParticleFilter.OneHot | rust_robotics_algo/src/localization/particle_filter.rs:126-129 | a one-hot weight vector has `n` entries |
| ParticleFilter.SquaresOfOneHot | rust_robotics_algo/src/localization/particle_filter.rs:126 | a one-hot weight vector has sum of squares one |
| ParticleFilter.DegenerateCloudResampled | rust_robotics_algo/src/localization/particle_filter.rs:126-129 | a cloud with all its weight on one particle has `N_eff = 1 < NTh` and is resampled |
| ParticleFilter.Cumulative | rust_robotics_algo/src/localization/particle_filter.rs:134-141 | `w_cum` has one prefix sum per weight |
| ParticleFilter.CumulativeWeights | rust_robotics_algo/src/localization/particle_filter.rs:134-141 | the `scan` computes the prefix sums `w_cum[i] = w[0] + … + w[i]` |
| ParticleFilter.CumulativeSteps | rust_robotics_algo/src/localization/particle_filter.rs:134-141 | consecutive prefix sums differ by the weight in between, and the last is the total |
| ParticleFilter.Points | rust_robotics_algo/src/localization/particle_filter.rs:143-144 | one resampling position per draw |
| ParticleFilter.PointsIncrease | rust_robotics_algo/src/localization/particle_filter.rs:143-144 | with draws in `[0, 1/NP)` the positions strictly increase and lie in `[0, 1)` |
| ParticleFilter.Advance | rust_robotics_algo/src/localization/particle_filter.rs:149-151 | the cursor stops at an index whose cumulative weight reaches the position, or at the last index, never moving back |
| ParticleFilter.AdvanceSkipsBelow | rust_robotics_algo/src/localization/particle_filter.rs:149-151 | every index skipped has cumulative weight below the position |
| ParticleFilter.Select | rust_robotics_algo/src/localization/particle_filter.rs:146-153 | the index copied into each slot is a valid particle index |
| ParticleFilter.SelectMonotone | rust_robotics_algo/src/localization/particle_filter.rs:146-153 | the chosen indices never decrease from slot to slot |
| ParticleFilter.SelectIsFirst | rust_robotics_algo/src/localization/particle_filter.rs:146-153 | with non-decreasing positions each slot takes the first particle whose cumulative weight reaches its position (the inverse CDF), or the last |
| ParticleFilter.NeverSelectsZeroWeight | rust_robotics_algo/src/localization/particle_filter.rs:133-156 | an inner particle of zero weight is never copied |
| ParticleFilter.Resampled | rust_robotics_algo/src/localization/particle_filter.rs:146-154 | the resampled cloud has one particle per slot |
| ParticleFilter.AdvanceCursor | rust_robotics_algo/src/localization/particle_filter.rs:149-151 | the `while` loop computes `Advance` |
| ParticleFilter.SelectParticles | rust_robotics_algo/src/localization/particle_filter.rs:146-153 | slot `ip` of the new cloud holds the particle `Select` chooses |
| ParticleFilter.ReSampling | rust_robotics_algo/src/localization/particle_filter.rs:133-156 | the cloud becomes the resampled cloud and every weight `1/NP` |
| ParticleFilter.PfLocalization | rust_robotics_algo/src/localization/particle_filter.rs:89-131 | predict and weigh, normalise, estimate and covariance from the normalised cloud, resample exactly when `N_eff < NTh`; `None` when the new weights sum to zero |
| Lqr.RunAfter | rust_robotics_algo/src/control/mod.rs:61-83 | after k rounds that neither failed nor stopped, the loop holds the k-th Riccati iterate |
| Lqr.NoIterations | rust_robotics_algo/src/control/mod.rs:61-83 | with `max_iter = 0` the solver returns `Q` |
| Lqr.DareExhausted | rust_robotics_algo/src/control/mod.rs:61-83 | without convergence or failure the result is iterate `max_iter` |
| Lqr.DareStopsAtFirst | rust_robotics_algo/src/control/mod.rs:70-78 | the result is the first iterate within `epsilon` of its predecessor |
| Lqr.DareFailure | rust_robotics_algo/src/control/mod.rs:71-73 | a pseudo-inverse failure in any round aborts with "Matrix inverse failed for DARE" |
| Lqr.RunPanicMessage | rust_robotics_algo/src/control/mod.rs:71-73 | the solver aborts only with that message |
| Lqr.SolveDare | rust_robotics_algo/src/control/mod.rs:61-83 | the loop computes `Dare`: start from `Q`, stop at convergence, abort on failure, return the last iterate |
| Lqr.Dlqr | rust_robotics_algo/src/control/mod.rs:39-53 | the gain exists exactly when the solver succeeds and `Bᵀ P B + R` pseudo-inverts; otherwise it aborts with the same message |
| Lqr.Feedback | rust_robotics_algo/src/control/mod.rs:35 | `-K x` has one entry per row of `K` |
| Lqr.Control | rust_robotics_algo/src/control/mod.rs:32-37 | `control` succeeds exactly when `dlqr` on the model at `dt` does, and returns `-K x` |
| Lqr.FeedbackEntry | rust_robotics_algo/src/control/mod.rs:35 | entry i of `-K x` is minus row i of `K` dotted with `x` |
| Lqr.FeedbackZero | rust_robotics_algo/src/control/mod.rs:35 | the zero state gives the zero input |
| Lqr.FeedbackScales | rust_robotics_algo/src/control/mod.rs:35 | scaling the state scales the input |
| Lqr.FeedbackAdds | rust_robotics_algo/src/control/mod.rs:35 | the input of a sum of states is the sum of their inputs |
| Lqr.ControlZeroState | rust_robotics_algo/src/control/mod.rs:32-37 | `control` of the zero state is zero |
| Lqr.ControlLinear | rust_robotics_algo/src/control/mod.rs:32-37 | `control` is linear in the state |
| Pendulum.DiscretizedState | rust_robotics_algo/src/control/inverted_pendulum/mod.rs:39-46 | `I + A dt` entry by entry |
| Pendulum.DiscretizedInput | rust_robotics_algo/src/control/inverted_pendulum/mod.rs:44-46 | `B dt = [0, dt/M, 0, dt/(l_bar M)]` |
| Pendulum.ModelMatrix | rust_robotics_algo/src/control/inverted_pendulum/mod.rs:36-47 | `get_model_matrix` with `g = 9.81` gives the explicit `Ad` and `Bd` |
| Pendulum.DiagonalIsOne | rust_robotics_algo/src/control/inverted_pendulum/mod.rs:46 | the diagonal of `Ad` is all ones for any step |
| Pendulum.ZeroStep | rust_robotics_algo/src/control/inverted_pendulum/mod.rs:36-47 | a zero step gives the identity and a zero input vector |
| Pendulum.DefaultModel | rust_robotics_algo/src/control/inverted_pendulum/mod.rs:24-33 | the default model (bar 2 m, masses 1 kg) is valid and its couplings at `dt = 0.1` are 0.981 |
| PendulumLqr.ModelMatrix | rust_robotics_algo/src/control/inverted_pendulum_lqr_control.rs:23-32 | with bar 2 m, masses 1 kg and `g = 9.8`, `Ad` has couplings `9.8 dt` and `Bd = [0, dt, 0, dt/2]` |
| PendulumLqr.AsColumn | rust_robotics_algo/src/control/inverted_pendulum_lqr_control.rs:34 | a `Vector4` taken as a 4x1 matrix keeps its entries |
| PendulumLqr.SolveDare | rust_robotics_algo/src/control/inverted_pendulum_lqr_control.rs:55-73 | the solver of the trait with `eps = 0.01` and 150 rounds |
| PendulumLqr.GainIsRow | rust_robotics_algo/src/control/inverted_pendulum_lqr_control.rs:34-47 | with a single input the gain is a single row |
| PendulumLqr.LqrControl | rust_robotics_algo/src/control/inverted_pendulum_lqr_control.rs:14-21 | the force is `-K x` for the gain at `dt`, and the call aborts exactly when the gain does |
| PendulumLqr.ZeroStateZeroForce | rust_robotics_algo/src/control/inverted_pendulum_lqr_control.rs:14-21 | the zero state gives zero force |
| Pid.FinalMemory | rust_robotics_algo/src/control/inverted_pendulum/pid.rs:43-48 | after a run of calls the integral has grown by `dt` times the sum of errors and the previous error is the last error |
| Pid.ZeroErrorsStayAtRest | rust_robotics_algo/src/control/inverted_pendulum/pid.rs:43-48 | a controller at rest that sees zero errors outputs zeros and stays at rest |
| Pid.ProportionalOnly | rust_robotics_algo/src/control/inverted_pendulum/pid.rs:43-48 | with zero integral and derivative gains the output is `P err` |
| Pid.PID.constructor | rust_robotics_algo/src/control/inverted_pendulum/pid.rs:16-31 | `new`/`default`: gains (1, 0, 0), memory at rest |
| Pid.PID.WithGains | rust_robotics_algo/src/control/inverted_pendulum/pid.rs:32-38 | the given gains, memory at rest |
| Pid.PID.ResetState | rust_robotics_algo/src/control/inverted_pendulum/pid.rs:39-42 | memory back to rest, gains unchanged |
| Pid.PID.Control | rust_robotics_algo/src/control/inverted_pendulum/pid.rs:43-48 | output `P e + I (∫ + e dt) + D (e - e_prev)/dt`, memory advanced, gains unchanged |
| Util.HypotSymmetric | rust_robotics_algo/src/util.rs:57-59 | `hypot(x, y)` is unchanged by swapping its arguments or negating either one |
| Util.PointCoordinates | rust_robotics_algo/src/util.rs:35-47 | `x()` and `y()` read the two coordinates and together give back the point |
| Util.Zeros | rust_robotics_algo/src/util.rs:414-437 | a rows-by-cols matrix of zeros |
| Util.Ones | rust_robotics_algo/src/util.rs:439-462 | a rows-by-cols matrix of ones |
| Util.Diag | rust_robotics_algo/src/util.rs:354-364 | square, `v` on the diagonal, zeros elsewhere |
| Util.Identity | rust_robotics_algo/src/util.rs:366-373 | the identity matrix |
| Util.IdentityMatVec | rust_robotics_algo/src/util.rs:366-373 | the identity maps every vector to itself |
| Util.Eye | rust_robotics_algo/src/util.rs:366-393 | panics with the subtraction overflow iff `k < -n`; otherwise ones exactly on the k-th diagonal and zeros elsewhere (all zeros for `k > n`); `eye!(n, 0)` is the identity |
| Util.Dot | rust_robotics_algo/src/util.rs:395-405 | succeeds iff the matrix has a row of the vector's length for every entry, else panics with the message of the first missing (`row(i)`) or mismatched (`dot`) row; entry i is row i dotted with the vector; for a square matrix this is the matrix-vector product |
| Util.ConcatLength | rust_robotics_algo/src/util.rs:464-480 | the joined string is as long as its parts together |
| Util.PartAt | rust_robotics_algo/src/util.rs:464-480 | each part appears in the joined string at its offset, in order |
| Util.Join | rust_robotics_algo/src/util.rs:464-480 | `join!` is the in-order concatenation of its arguments |
| Util.SideBySide | rust_robotics_algo/src/util.rs:128-160 | a horizontal pair's entries come from the left block, then the right block shifted by its column count |
| Util.Stacked | rust_robotics_algo/src/util.rs:162-194 | a vertical pair's entries come from the top block, then the bottom block shifted by its row count |
| Util.DiagonalPair | rust_robotics_algo/src/util.rs:216-246 | a diagonal pair has the blocks in the two corners and zeros off the diagonal |
| Util.Assemble | rust_robotics_algo/src/util.rs:69-246 | the assembled block has the shape `Block::shape` computes |
| Util.DiagonalEntry | rust_robotics_algo/src/util.rs:216-246 | each entry of a diagonal pair, by region |
| Util.UnwrittenIsZero | rust_robotics_algo/src/util.rs:216-246 | every cell `populate` leaves alone is zero in the assembled matrix |
| Util.Populate | rust_robotics_algo/src/util.rs:69-246 | `populate` succeeds exactly when every pair's shapes agree; it writes the assembled block into its window and nothing outside it |
| Util.PopulateHorizontal | rust_robotics_algo/src/util.rs:146-159 | the row-count check, then the two blocks at column offsets 0 and `cols of x` |
| Util.PopulateVertical | rust_robotics_algo/src/util.rs:180-193 | the column-count check, then the two blocks at row offsets 0 and `rows of x` |
| Util.PopulateDiagonal | rust_robotics_algo/src/util.rs:234-245 | the two blocks at the corner and at both offsets; the off-diagonal cells are untouched |
| Util.CopyInto | rust_robotics_algo/src/util.rs:95-101 | `copy_from` writes the matrix into its window and nothing else |
| Util.AllocateBlockOutput | rust_robotics_algo/src/util.rs:248-256 | a fresh zero matrix of the block's shape |
| Util.Build | rust_robotics_algo/src/util.rs:259-271 | allocate and populate: on success the output is exactly the assembled block |
| Util.HStackPair | rust_robotics_algo/src/util.rs:273-283 | `hstack_pair!` places x left of y; it succeeds iff the row counts agree |
| Util.VStackPair | rust_robotics_algo/src/util.rs:300-310 | `vstack_pair!` places x above y; it succeeds iff the column counts agree |
| Util.BlockDiagPair | rust_robotics_algo/src/util.rs:327-337 | `block_diag_pair!` places x and y on the diagonal with zeros elsewhere |
| Data.Position | rust_robotics_sim/src/data.rs:132-164 | `position` finds the first element passing the test, or reports that none does |
| Data.IndexAtOrAfterIsFirst | rust_robotics_sim/src/data.rs:132-142 | `get_index` gives the first index whose time is at or after `t`; every earlier time is before `t` |
| Data.IndexUnderIsLastBefore | rust_robotics_sim/src/data.rs:150-164 | `get_index_under` panics iff the first time is after `t`, is `None` iff no time is after `t`, else gives the index before the first later time |
| Data.RangeInBounds | rust_robotics_sim/src/data.rs:167-176 | a found range never reaches past the timeline and is reversed by at most one |
| Data.RangeIsWithin | rust_robotics_sim/src/data.rs:167-176 | on a sorted timeline the range holds exactly the times within `[start, end]` |
| Data.RangeNeedsLaterTime | rust_robotics_sim/src/data.rs:150-176 | a range whose end is at or after every time is `None` |
| Data.RangeBeforeFirstTimePanics | rust_robotics_sim/src/data.rs:150-176 | a range ending before the first time panics on the subtraction |
| Data.Timeline.constructor | rust_robotics_sim/src/data.rs:93-98 | the timeline holds the given times |
| Data.Timeline.Len | rust_robotics_sim/src/data.rs:184-186 | the number of times |
| Data.Timeline.Last | rust_robotics_sim/src/data.rs:109-111 | `0.0` when there are no times, else the final time, which on sorted times is the largest |
| Data.Timeline.Add | rust_robotics_sim/src/data.rs:105-107 | appends the time, which becomes `last` |
| Data.Timeline.PopFirst | rust_robotics_sim/src/data.rs:113-118 | drops the earliest time, the rest keep their order |
| Data.Timeline.PositionOf | rust_robotics_sim/src/data.rs:132-164 | the scan computes `Position` |
| Data.Timeline.GetIndex | rust_robotics_sim/src/data.rs:132-142 | the first index at or after the time |
| Data.Timeline.GetIndexUnder | rust_robotics_sim/src/data.rs:150-164 | the index before the first later time, panicking at index 0 |
| Data.Timeline.GetRange | rust_robotics_sim/src/data.rs:167-176 | the inclusive index range for `start < end`, in bounds |
| Data.Timeline.GetRangeRaw | rust_robotics_sim/src/data.rs:178-181 | the times inside the range |
| Data.Column.Get | rust_robotics_sim/src/data.rs:58-60 | the sample at the index iff it exists |
| Data.Column.GetBetween | rust_robotics_sim/src/data.rs:62-64 | the samples from `a` to `b` inclusive; panics when the range starts after it ends (checked first) or `b` is past the end, and only then |
| Data.Column.Add | rust_robotics_sim/src/data.rs:54-56 | appends the sample, name kept |
| Data.Column.PopFirst | rust_robotics_sim/src/data.rs:50-52 | drops the oldest sample, the rest shift down, name kept |
| Data.Column.Reset | rust_robotics_sim/src/data.rs:66-68 | empties the column, name kept |
| Data.FromVec | rust_robotics_sim/src/data.rs:31-36 | an unnamed column of the given samples |
| Data.WithName | rust_robotics_sim/src/data.rs:25-30 | an empty column with the name |
| Data.Appended | rust_robotics_sim/src/data.rs:311-314 | the zip gives column i the sample i, as far as both reach; other columns unchanged |
| Data.PoppedAll | rust_robotics_sim/src/data.rs:248-251 | every column drops its oldest sample |
| Data.ResetAll | rust_robotics_sim/src/data.rs:252-255 | every column emptied, names kept |
| Data.Names | rust_robotics_sim/src/data.rs:239-244 | each column's name, or the empty string |
| Data.TimeTable.InitWithNames | rust_robotics_sim/src/data.rs:296-305 | no rows, one empty column per name |
| Data.TimeTable.FromTimeSeries | rust_robotics_sim/src/data.rs:233-238 | the series' timeline and its single column |
| Data.TimeTable.Nrow | rust_robotics_sim/src/data.rs:306-308 | the number of times; a table without rows reports `0.0` as its latest time |
| Data.TimeTable.Ncols | rust_robotics_sim/src/data.rs:245-247 | the number of columns, one per display name |
| Data.TimeTable.TimeLast | rust_robotics_sim/src/data.rs:282-284 | `0.0` for an empty table, else the final time, which on sorted times is the largest |
| Data.TimeTable.GetColumn | rust_robotics_sim/src/data.rs:257-259 | the column iff it exists |
| Data.TimeTable.PopFirst | rust_robotics_sim/src/data.rs:248-251 | drops the oldest time and the oldest sample of every column |
| Data.TimeTable.Clear | rust_robotics_sim/src/data.rs:252-255 | a new empty timeline; columns emptied with names kept |
| Data.TimeTable.Add | rust_robotics_sim/src/data.rs:309-319 | appends the time and the zipped samples, then drops the oldest row beyond `LIMIT`; the new time is last |
| Data.TimeTable.GetAtTime | rust_robotics_sim/src/data.rs:267-276 | the column's sample at the first time at or after `t`, iff both exist |
| Data.TimeTable.GetTimeRange | rust_robotics_sim/src/data.rs:278-280 | the times inside the range |
| Data.TimeTable.GetRange | rust_robotics_sim/src/data.rs:287-295 | the column's samples inside the range; `None` without a range or column; a panic from the lookup or the slice |
| Data.TrimKeepsLatest | rust_robotics_sim/src/data.rs:309-319 | a table of at most `LIMIT` rows stays within `LIMIT` and keeps its latest rows |
| Data.TimeSeries.constructor | rust_robotics_sim/src/data.rs:329-337 | the series holds the timeline and column |
| Data.TimeSeries.Empty | rust_robotics_sim/src/data.rs:349-357 | no times, no samples, no name |
| Data.TimeSeries.WithName | rust_robotics_sim/src/data.rs:343-347 | names the column, nothing else changes |
| Data.TimeSeries.Add | rust_robotics_sim/src/data.rs:359-362 | appends the time and the sample, keeping one sample per time |
| Data.TimeSeries.TimeLast | rust_robotics_sim/src/data.rs:364-366 | `0.0` for an empty series, else the final time, which on sorted times is the largest |
| Data.TimeSeries.GetAtTime | rust_robotics_sim/src/data.rs:369-374 | the sample at the first time at or after `t`, iff that time exists |
| Data.TimeSeries.GetRange | rust_robotics_sim/src/data.rs:377-381 | the samples inside the range; a valid series never panics on the slice |
| Data.NewTimeSeries | rust_robotics_sim/src/data.rs:329-337 | succeeds iff there is one sample per time, else panics with the size message |
| Data.NewTimeTable | rust_robotics_sim/src/data.rs:229-232 | the series as a one-column table, panicking the same way |
| Data.CheckIndices | rust_robotics_sim/src/data.rs:416-421 | `get_index` on times 0..4 gives 1, 3, 3, 3 for 1.0, 2.1, 2.9, 3.0 |
| Data.CheckRange | rust_robotics_sim/src/data.rs:422-423 | the ranges (1.0, 2.9) and (1.0, 3.0) select `[3, 6]` and `[3, 6, 9]` |
| Data.CheckIndex | rust_robotics_sim/src/data.rs:406-413 | `get_index` gives 1 for 0.02 and 0.015 on times 0..4 |
| SimLocalization.PushedBounded | rust_robotics_sim/src/simulator/localization.rs:54-64 | a history of 1 to `N` states stays within that bound, ends with the new state and keeps the newest earlier states in order |
| SimLocalization.IsDetected | rust_robotics_sim/src/simulator/localization.rs:118-123 | a marker is drawn as seen exactly when it passes the sensor's range gate |
| SimLocalization.DetectedIffObserved | rust_robotics_sim/src/simulator/localization.rs:118-123 | a marker is drawn as detected iff the sensor reads it, with one reading per detected marker |
| SimLocalization.ParticleFilterSim.constructor | rust_robotics_sim/src/simulator/localization.rs:38-52 | zero states, zero covariance, particles at the origin with weights `1/NP`, one zero state per history |
| SimLocalization.ParticleFilterSim.UpdateHistory | rust_robotics_sim/src/simulator/localization.rs:54-64 | each history gets its current state, the oldest dropped past `N`, states unchanged |
| SimLocalization.ParticleFilterSim.GetState | rust_robotics_sim/src/simulator/localization.rs:67-69 | the shared state is the window's true vehicle state, so another window's downcast to `State` succeeds |
| SimLocalization.ParticleFilterSim.MatchStateWith | rust_robotics_sim/src/simulator/localization.rs:71-76 | copies another simulation's state iff it is a vehicle state, nothing else changes |
| SimLocalization.ParticleFilterSim.Localize | rust_robotics_sim/src/simulator/localization.rs:80 | stores the estimate and covariance of one filter step on the particle buffers |
| SimLocalization.ParticleFilterSim.Step | rust_robotics_sim/src/simulator/localization.rs:77-83 | observation with the fixed input, one filter step on its readings, then the history update |

## Left out

- Floating point: `f32` rounding, NaN and infinity are not modelled. Where the program would
  carry a non-finite value, the model says so with an explicit case:
  - `calc_covariance` with `1 - Σw² = 0` gives `None`;
  - `N_eff` with `Σw² = 0` counts as not below the threshold;
  - `pf_localization` with weights summing to zero returns `None`.
- ParticleFilter.PfLocalization: when the new weights sum to zero it stops after the
  prediction step. The `f32` program would normalise by zero and carry NaN into the
  estimate, the covariance and the weights.
- SimLocalization.ParticleFilterSim.Localize: in the same zero-sum case it keeps the previous
  estimate and records the covariance as `None`. The program would store NaN values.
- `sqrt`, `sin`, `cos`, `exp` and the body of `gauss_likelihood` are uninterpreted
  parameters. Properties that depend on their values, such as the likelihood being positive,
  are not stated.
- `rand()` and `rand_unifrom` are draws passed in as parameters, and their distributions
  are not modelled. The per-particle input noise is indexed by particle, not by the order of
  draws.
- nalgebra's `pseudo_inverse` is a parameter. The eigenvalue computation in `dlqr` is not
  modelled because its result is discarded.
- Lqr: the `StateSpace`/`LQR` traits become a `Config` value and a model function.
  Dimensions are not type-level constants; matrix operations are total instead.
- `kron!`, `disp!`, `block!` and the n-ary forms of `hstack!`, `vstack!` and `block_diag!`
  are not modelled. `kron!` is a direct nalgebra call and `disp!` only prints. The n-ary
  forms fold the pair macros, which are modelled.
- The `Block` trait's type-level dimensions are values here. A shape mismatch that Rust
  rejects at compile time is modelled like the `assert_eq!` checks, as `ok == false`.
- Util.Eye: for `k < -n` the model gives the debug-build panic of the `usize` subtraction.
  A release build would wrap around and then panic on the out-of-range index, with another
  message.
- Util.Dot: a row whose length differs from the vector's is rejected at compile time for
  nalgebra's fixed-size types. The model treats it like nalgebra's run-time dimension check,
  as a panic.
- `mpc.rs` and `control/inverted_pendulum/lqr.rs` are not part of this model.
- Data.Timeline: the `EPSILON` and `time_changed` cache of the lookups is left out. The
  program never writes that cache, so every lookup scans.
- Data.Timeline.GetIndexUnder: a lookup that lands before the first time is modelled as the
  debug-build panic of the `usize` subtraction. A release build would wrap around instead.
- Data.Column: `ColumnData` is modelled as a value that the table reassigns, not as a
  mutable object. Its `iter`, `len` and `name` accessors, and `TimeTable::zipped_iter`, are
  plain field reads or iterators and are not separate members.
- Data.TimeTable.Add: requires that trimming never pops an empty column. `Vec::remove(0)`
  would panic there.
- Data.TimeTable.PopFirst requires a non-empty timeline and non-empty columns, and
  Data.Timeline.PopFirst requires a non-empty timeline, for the same reason.
- Data.CheckIndex: the module's `check_index` test expects index 2 for 0.02 and 0.015 on the
  times 0 to 4. The code returns 1 for both, and the model follows the code.
- The `IntoValues` and `VehiclePlot` conversions, drawing (`Draw`, egui, `scene`,
  `values_from_marker_state`, `marker_values`) and the simulator's `reset_state`/`reset_all`
  (both empty) are user-interface code and are not modelled.
- SimLocalization.ParticleFilterSim.Step: the readings and noisy input it computes are
  returned as ghost values so that the contract can name them. The program keeps them local.
