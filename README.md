# OCS2 optimal-control core in Dafny

This project models a slice of OCS2, a C++ toolbox for switched-system
optimal control. The slice covers seven pieces:

- **Cost terms and cost collections.** `StateInputCost` terms carry an
  activity flag. A `CostCollection` is a name-keyed map of terms. It sums
  the values and the quadratic approximations of its active terms, and it
  rejects a duplicate name.
- **A time-invariant linear system.** It is x' = A x + B u, with the jump
  map x+ = G x. G and H default to zero when they are given empty.
- **The linear-quadratic approximator.** At one time sample it fills a
  `ModelData` record:
  - the dynamics and their covariance;
  - the constraints;
  - the cost, which is the state-input cost plus the state cost and their
    soft constraints.

  It works at intermediate, event and final times. When enabled, it runs
  the record's numerical checks.
- **The loopshaping constraint, "eliminate pattern" variant.** The filter
  output is substituted for the system input, and the constraint
  approximations are mapped to the augmented state and input. This
  includes the block assembly of the inequality Hessians.
- **The multiple-shooting transcription of one interval.** It sets up an
  intermediate node and a terminal node:
  - the dynamics defect;
  - the cost, with an optional inequality penalty;
  - an optional projection of the state-input equalities;
  - the performance index of the interval.
- **The SLQ solver's own part of a DDP iteration.** DDP is differential
  dynamic programming; SLQ is its sequential linear-quadratic variant.
  This part covers:
  - validating the settings at construction;
  - the per-thread Riccati equation stock;
  - the worker loop that approximates every time sample;
  - the projection claim loop;
  - the backward Riccati pass, over the nominal time nodes or adaptively,
    in normalised (negated, reversed) time, then de-normalised;
  - the controller assembly, with its numerical-stability check.

## How the C++ maps to Dafny

- **Linear algebra.** Eigen matrices and vectors are `seq<seq<real>>` and
  `seq<real>` (module `LinAlg`). Conformable dimensions, which Eigen
  asserts, are preconditions.
- **Plain structs** become datatypes: the approximations (`ScalarQuad`,
  `VectorLinear`, `VectorQuad`) and the `ModelData` record.
- **Output parameters.** A C++ function that writes through a reference
  returns the new value instead.
- **Exceptions** become an `Outcome` (`Pass` or `Throw(error)`) or a
  `Result`. The error keeps its kind (`runtime_error` or `out_of_range`)
  and its message.
- **Objects whose members are updated in place are classes:**
  - the cost terms, whose activity flag changes;
  - the cost collections, whose term map changes;
  - the SLQ solver, whose trajectory stocks and worker counters change.
- **Virtual calls and library functions are function-typed parameters:**
  - cost kernels;
  - the system dynamics and constraints;
  - the ODE integrators;
  - the Riccati jump map;
  - the time normalisation;
  - the interpolation;
  - the projection;
  - `allFinite`.

## Model

| member | source | states |
|---|---|---|
| CostTerms.StateInputCost.constructor | ocs2_core/include/ocs2_core/cost/StateInputCost.h:41-64 | a new term is active and carries the given value and approximation kernels |
| CostTerms.StateInputCost.SetActivity | ocs2_core/include/ocs2_core/cost/StateInputCost.h:46-47 | after the call the term is active exactly when `activity` is true, and only the flag changes |
| CostTerms.StateInputCost.Clone | ocs2_core/include/ocs2_core/cost/StateInputCost.h:43-61 | the clone is a new object with the same activity and the same kernels |
| CostTerms.StateCost.constructor | ocs2_core/src/cost/CostCollection.cpp:110-113 | a new state-only term is active and carries its kernels; the cited lines are a use site (`isActive` on each term), since the term's own header is not part of this model, and its behaviour mirrors StateInputCost.h lines 41-64 |
| CostTerms.StateCost.SetActivity | ocs2_core/src/cost/CostCollection.cpp:132-138 | after the call the state-only term is active exactly when `activity` is true, and only the flag changes; the cited lines are a use site (the flag read by the approximation loop), and the behaviour mirrors StateInputCost.h lines 46-50 |
| CostTerms.StateCost.Clone | ocs2_core/src/cost/CostCollection.cpp:44-49 | the clone of a state-only term is a new object with the same activity and the same kernels; the cited lines are a use site (the copy constructor cloning each term), and the behaviour mirrors StateInputCost.h lines 44 and 61 |
| CostCollection.StateInputCostCollection.constructor | ocs2_core/test/cost/testCostCollection.cpp:85-89 | a default collection holds no terms |
| CostCollection.StateInputCostCollection.Move | ocs2_core/src/cost/CostCollection.cpp:38 | the new collection takes over the source's map and total cost at every point; the source is left empty |
| CostCollection.StateInputCostCollection.Copy | ocs2_core/src/cost/CostCollection.cpp:43-50 | the copy has the same names, each bound to a fresh clone with the same activity and kernels |
| CostCollection.StateInputCostCollection.MoveAssign | ocs2_core/test/cost/testCostCollection.cpp:149-154 | after move assignment the target holds the source's map and total cost; the source is empty |
| CostCollection.StateInputCostCollection.Add | ocs2_core/src/cost/CostCollection.cpp:55-61 | a new name is inserted; an existing name raises the duplicate-name `runtime_error` and leaves the map unchanged |
| CostCollection.StateInputCostCollection.Get | ocs2_core/test/cost/testCostCollection.cpp:113-124 | returns the term stored under the name exactly when the name is present; otherwise `out_of_range` |
| CostCollection.StateInputCostCollection.GetValue | ocs2_core/src/cost/CostCollection.cpp:68-80 | the result is the sum of the values of the active terms |
| CostCollection.StateInputCostCollection.GetQuadraticApproximation | ocs2_core/src/cost/CostCollection.cpp:87-99 | the result has the state and input dimensions and is the sum of the active terms' approximations, starting from zero |
| CostCollection.InactiveCollectionSumsToZero | ocs2_core/test/cost/testCostCollection.cpp:136-141 | a collection whose terms are all deactivated costs zero |
| CostCollection.SingleActiveTerm | ocs2_core/test/cost/testCostCollection.cpp:98-111 | a collection of one active term has that term's value and approximation |
| CostCollection.StateCostCollection.constructor | ocs2_core/test/cost/testCostCollection.cpp:199-203 | a default state-cost collection holds no terms |
| CostCollection.StateCostCollection.Move | ocs2_core/src/cost/CostCollection.cpp:38 | the new state-cost collection takes over the source's map; the source is left empty |
| CostCollection.StateCostCollection.Copy | ocs2_core/src/cost/CostCollection.cpp:44-49 | the copy binds the same names to fresh clones with the same activity and kernels |
| CostCollection.StateCostCollection.Add | ocs2_core/src/cost/CostCollection.cpp:56-60 | inserts a new name; a duplicate raises the duplicate-name error and changes nothing |
| CostCollection.StateCostCollection.GetValue | ocs2_core/src/cost/CostCollection.cpp:106-117 | the result is the sum of the active state terms' values |
| CostCollection.StateCostCollection.GetQuadraticApproximation | ocs2_core/src/cost/CostCollection.cpp:124-142 | the value, state gradient and state Hessian are the sums over the active terms; the input parts stay empty |
| CostCollection.SingleActiveStateTerm | ocs2_core/test/cost/testCostCollection.cpp:211-214 | a state collection of one active term has that term's value |
| LinearSystemDynamics.Make | ocs2_core/src/dynamics/LinearSystemDynamics.cpp:37-46 | the state dimension is the row count of A; an empty G or H becomes a zero matrix of the system's dimensions, and a given one is kept |
| LinearSystemDynamics.FlowMap | ocs2_core/src/dynamics/LinearSystemDynamics.cpp:58-60 | the flow map has the state dimension |
| LinearSystemDynamics.JumpMap | ocs2_core/src/dynamics/LinearSystemDynamics.cpp:65-67 | the jump map has the state dimension |
| LinearSystemDynamics.MakeWellFormed | ocs2_core/src/dynamics/LinearSystemDynamics.cpp:37-46 | well-shaped A and B, with G and H empty or well-shaped, give a well-formed system |
| LinearSystemDynamics.DefaultJumpMapIsZero | ocs2_core/src/dynamics/LinearSystemDynamics.cpp:40-67 | with the default G, the jump map sends every state to zero |
| LinearSystemDynamics.FlowMapDerivatives | ocs2_core/src/dynamics/LinearSystemDynamics.cpp:79-88 | the flow-map getters are the exact derivatives: a step (dx, du) changes the flow by A dx + B du, at any time |
| LinearSystemDynamics.JumpMapDerivative | ocs2_core/src/dynamics/LinearSystemDynamics.cpp:93-95 | the jump-map state getter is the exact derivative of the jump map |
| LoopshapingConstraint.StateInputEqualityConstraint | ocs2_core/src/loopshaping/constraint/LoopshapingConstraintEliminatePattern.cpp:99-103 | the constraint is the system constraint at the system state and the filtered input |
| LoopshapingConstraint.StateInputEqualityConstraintLinearApproximation | ocs2_core/src/loopshaping/constraint/LoopshapingConstraintEliminatePattern.cpp:105-135 | the state Jacobian is [Jx, Ju·C] and the input Jacobian is Ju·D, with the diagonal or dense filter matrices |
| LoopshapingConstraint.LinearApproximationValue | ocs2_core/src/loopshaping/constraint/LoopshapingConstraintEliminatePattern.cpp:114-118 | the value of the linear approximation equals the constraint value when the system approximation is consistent |
| LoopshapingConstraint.AssembleHessians | ocs2_core/src/loopshaping/constraint/LoopshapingConstraintEliminatePattern.cpp:62-94 | row i of each output Hessian is the block assembly of row i's system Hessians |
| LoopshapingConstraint.InequalityConstraintQuadraticApproximation | ocs2_core/src/loopshaping/constraint/LoopshapingConstraintEliminatePattern.cpp:34-97 | the value and first derivatives are mapped through the filter, and the Hessians are assembled row by row |
| LoopshapingConstraint.StateHessianBlocks | ocs2_core/src/loopshaping/constraint/LoopshapingConstraintEliminatePattern.cpp:65-76 | the state Hessian is (nxs + nf) square; its top-left block is the system Hessian, and its off-diagonal blocks transpose each other |
| LoopshapingConstraint.StateHessianSymmetric | ocs2_core/src/loopshaping/constraint/LoopshapingConstraintEliminatePattern.cpp:65-76 | the assembled state Hessian is symmetric when the system's state and input Hessians are; the filter block's symmetry is derived, not assumed |
| LinAlg.CongruenceSymmetric | ocs2_core/src/loopshaping/constraint/LoopshapingConstraintEliminatePattern.cpp:69-73 | Cᵀ (H C) is symmetric for every symmetric H, the fact behind the filter block's symmetry |
| LoopshapingConstraint.InputHessianIsCongruence | ocs2_core/src/loopshaping/constraint/LoopshapingConstraintEliminatePattern.cpp:79-83 | in both the dense and the diagonal case the input Hessian is Dᵀ H D |
| LoopshapingConstraint.BottomRightIsCongruence | ocs2_core/src/loopshaping/constraint/LoopshapingConstraintEliminatePattern.cpp:69-73 | the filter-state block of the state Hessian is Cᵀ H C |
| LoopshapingConstraint.MixedHessianBlocks | ocs2_core/src/loopshaping/constraint/LoopshapingConstraintEliminatePattern.cpp:86-93 | the mixed Hessian has one row per augmented input and one column per augmented state, with the blocks the source writes |
| LoopshapingConstraint.EffectiveShapes | ocs2_core/src/loopshaping/constraint/LoopshapingConstraintEliminatePattern.cpp:105-135 | the filter matrices actually multiplied, diagonal or dense, have the input-by-filter dimensions |
| LqApproximator.Checked | ocs2_oc/src/approximate_model/LinearQuadraticApproximator.cpp:117-127 | a check raises exactly when it is enabled and reports a diagnostic; the diagnostic becomes the `runtime_error` message |
| LqApproximator.IntermediateCost | ocs2_oc/src/approximate_model/LinearQuadraticApproximator.cpp:175-183 | the cost is the state-input cost plus its soft constraint, with the state terms added to the value and the state derivatives only |
| LqApproximator.IntermediateCostIsSum | ocs2_oc/src/approximate_model/LinearQuadraticApproximator.cpp:175-183 | adding the state terms only to the state parts equals adding them padded with zero input parts: the cost is the sum of all four terms |
| LqApproximator.ApproximateDynamics | ocs2_oc/src/approximate_model/LinearQuadraticApproximator.cpp:110-128 | writes the dynamics and their covariance and nothing else; raises exactly when the enabled check reports |
| LqApproximator.ApproximateConstraints | ocs2_oc/src/approximate_model/LinearQuadraticApproximator.cpp:133-164 | writes the state-input equality, the state-only equality, then the inequality constraint; an equality with more rows than inputs raises its own message and stops the later writes; otherwise the enabled check runs; the dynamics and the cost stay unchanged |
| LqApproximator.ApproximateCost | ocs2_oc/src/approximate_model/LinearQuadraticApproximator.cpp:169-203 | writes the intermediate cost and nothing else; raises exactly when the enabled check reports |
| LqApproximator.ApproximateLQProblem | ocs2_oc/src/approximate_model/LinearQuadraticApproximator.cpp:40-53 | dynamics, then constraints, then cost; a failing dynamics check raises its diagnostic with only the dynamics written; too many state-input or state-only equality rows raise the matching message with the later fields untouched; a failing constraint check leaves the cost as it was; otherwise the cost is written and its check decides; without checks it completes exactly when the constraint rows fit |
| LqApproximator.LQOutcomeWithoutChecks | ocs2_oc/src/approximate_model/LinearQuadraticApproximator.cpp:133-164 | without the numerical checks, the approximation raises exactly when an equality constraint has more rows than the input, with the message of the state-input constraint when it is that one, else of the state-only one |
| LqApproximator.ApproximateUnconstrainedLQProblem | ocs2_oc/src/approximate_model/LinearQuadraticApproximator.cpp:58-68 | writes the dynamics and the cost; the constraint fields are untouched; a failing dynamics check raises its diagnostic before the cost is written; without checks it never raises |
| LqApproximator.ApproximateLQProblemAtEventTime | ocs2_oc/src/approximate_model/LinearQuadraticApproximator.cpp:73-89 | the jump map is the dynamics, the pre-jump constraint and cost are written, and the other fields are untouched |
| LqApproximator.ApproximateLQProblemAtFinalTime | ocs2_oc/src/approximate_model/LinearQuadraticApproximator.cpp:94-105 | only the final constraint and the final cost are written; the dynamics keep their old value |
| MultipleShooting.ZeroPerformance | ocs2_sqp/ocs2_sqp/src/MultipleShootingTranscription.cpp:101-104 | a default performance index has every field zero |
| MultipleShooting.IntermediatePerformanceNonNegative | ocs2_sqp/ocs2_sqp/src/MultipleShootingTranscription.cpp:101-133 | over an interval of non-negative length, every integrated squared violation is non-negative |
| MultipleShooting.ComputeIntermediatePerformance | ocs2_sqp/ocs2_sqp/src/MultipleShootingTranscription.cpp:101-133 | the performance is dt times the cost, the defect's squared norm and the equality and inequality violations, with the penalty only when it applies |
| MultipleShooting.SetupIntermediateNode | ocs2_sqp/ocs2_sqp/src/MultipleShootingTranscription.cpp:39-99 | the dynamics defect is the sensitivity minus the next state; the cost is scaled by dt and projected when requested; the performance is the one read off the approximations |
| MultipleShooting.NodePerformanceNonNegative | ocs2_sqp/ocs2_sqp/src/MultipleShootingTranscription.cpp:39-99 | over an interval of non-negative length, the integrated squared violations a node setup records are non-negative |
| MultipleShooting.NodePerformanceConsistent | ocs2_sqp/ocs2_sqp/src/MultipleShootingTranscription.cpp:101-133 | with consistent oracles, the performance a node setup records equals the value-based performance |
| MultipleShooting.TerminalPerformance | ocs2_sqp/ocs2_sqp/src/MultipleShootingTranscription.cpp:155-160 | the terminal performance records the final cost and nothing else |
| MultipleShooting.SetupTerminalNode | ocs2_sqp/ocs2_sqp/src/MultipleShootingTranscription.cpp:135-153 | the final cost approximation when there is one, otherwise a zero one; the constraints have no rows |
| MultipleShooting.ComputeTerminalPerformance | ocs2_sqp/ocs2_sqp/src/MultipleShootingTranscription.cpp:155-160 | the computed performance is the terminal performance |
| SlqRiccati.NegateReverse | ocs2_ddp/src/SLQ.cpp:273-281 | entry k of the result is the negation of entry n-1-k of the input |
| SlqRiccati.NegateReverseInvolution | ocs2_ddp/src/SLQ.cpp:273-281 | normalising twice gives back the original time |
| SlqRiccati.NegateReverseMonotone | ocs2_ddp/src/SLQ.cpp:250-256 | a forward-running time normalises to a forward-running time |
| SlqRiccati.NominalSwitchingIndices | ocs2_ddp/src/SLQ.cpp:312-319 | there are two more switching indices than events |
| SlqRiccati.NominalSwitchingIndicesValid | ocs2_ddp/src/SLQ.cpp:312-319 | for sorted events inside the partition, the indices start at 0, end at n, lie in [0, n] and cut it into ordered ranges |
| SlqRiccati.BuildNominalSwitchingIndices | ocs2_ddp/src/SLQ.cpp:312-319 | the loop builds the switching indices |
| SlqRiccati.AdaptiveSwitchingTimes | ocs2_ddp/src/SLQ.cpp:358-365 | there are two more switching times than events |
| SlqRiccati.AdaptiveSwitchingTimesMonotone | ocs2_ddp/src/SLQ.cpp:358-365 | for forward-running times and sorted events, the normalised switching times run forwards |
| SlqRiccati.BuildAdaptiveSwitchingTimes | ocs2_ddp/src/SLQ.cpp:358-365 | the loop builds the switching times |
| SlqRiccati.NominalSweepLength | ocs2_ddp/src/SLQ.cpp:321-340 | with one observer sample per node, the sweep records one sample per normalised time |
| SlqRiccati.SweepRanges | ocs2_ddp/src/SLQ.cpp:321-335 | the loop integrates range after range between the switching indices, jumping between ranges, and yields the sweep |
| SlqRiccati.IntegrateRiccatiEquationNominalTime | ocs2_ddp/src/SLQ.cpp:297-341 | the output is the normalisation plus the range-by-range sweep with jumps; raises the size error exactly when the sample count differs from the time count, which never happens with one sample per node |
| SlqRiccati.Times | ocs2_ddp/src/SLQ.cpp:375-378 | one recorded time per observation |
| SlqRiccati.Samples | ocs2_ddp/src/SLQ.cpp:375-378 | one recorded sample per observation |
| SlqRiccati.AdaptiveSweepShape | ocs2_ddp/src/SLQ.cpp:371-386 | one post-event index per interval but the last; times and samples stay paired, and the indices are sorted and point inside the trajectory |
| SlqRiccati.IntegrateRiccatiEquationAdaptiveTime | ocs2_ddp/src/SLQ.cpp:346-387 | the output is the adaptive sweep; it has one post-event index per event, sorted and within (0, size]; times and samples are equal in number and non-empty |
| SlqRiccati.Denormalize | ocs2_ddp/src/SLQ.cpp:273-281 | entry k of every output comes from normalised sample n-1-k, and the time is the negated reversed normalised time |
| SlqRiccati.DenormalizedNominalTime | ocs2_ddp/src/SLQ.cpp:250-281 | when normalisation negates and reverses, the de-normalised time is the nominal time |
| SlqRiccati.BackwardPass | ocs2_ddp/src/SLQ.cpp:261-281 | nominal or adaptive integration followed by de-normalisation; the nominal pass reproduces the nominal time, and the adaptive pass never raises |
| SlqRiccati.BackwardPassResultOnThrow | ocs2_ddp/src/SLQ.cpp:261-281 | when the pass raises, any value function trajectory satisfies the result, so the caller may keep the one it had |
| Slq.ConstructionOutcome | ocs2_ddp/src/SLQ.cpp:44-59 | construction succeeds exactly for the SLQ algorithm with an ODE45 or Bulirsch-Stoer integrator; otherwise it raises one of the two messages, the algorithm check first |
| Slq.Resize | ocs2_ddp/src/SLQ.cpp:186-187 | a resized sequence keeps the first entries and pads with the default value |
| Slq.ApproximateSample | ocs2_ddp/src/SLQ.cpp:85-88 | on completion the record is the full LQ approximation; the outcome is `LQOutcome`, the exception of the first failing step; without checks it completes exactly when the constraint rows fit, and otherwise raises the row-count message of the first constraint that does not |
| Slq.SamplesPassWithoutChecks | ocs2_ddp/src/SLQ.cpp:85-88 | without the numerical checks, no sample of the sweep raises exactly when every sample's constraint rows fit the input |
| Slq.LastNonEmpty | ocs2_ddp/src/SLQ.cpp:182-207 | the last partition with a non-empty time, or -1 when all are empty (the partition whose claim loop leaves the counters as they end) |
| Slq.ProjectedFeedback | ocs2_ddp/src/SLQ.cpp:144-146 | the projected feedback has one row per projected input and one column per state |
| Slq.ProjectedFeedforward | ocs2_ddp/src/SLQ.cpp:148-150 | the projected feedforward has one entry per projected input |
| Slq.Gain | ocs2_ddp/src/SLQ.cpp:152-154 | the gain has one row per input and one column per state |
| Slq.Bias | ocs2_ddp/src/SLQ.cpp:156-158 | the bias has one entry per input |
| Slq.DeltaBias | ocs2_ddp/src/SLQ.cpp:159-160 | the bias correction has one entry per input |
| Slq.Control | ocs2_ddp/src/SLQ.cpp:156-158 | the affine control has one entry per input |
| Slq.ControlAroundNominal | ocs2_ddp/src/SLQ.cpp:152-158 | the controller reproduces the nominal input at the nominal state; elsewhere it is the nominal input plus the gain times the state deviation |
| Slq.GainWithoutModification | ocs2_ddp/src/SLQ.cpp:144-154 | with no Riccati modification, no cross term and no constraint, the gain is Qu·(-Bmᵀ·Sm) |
| Slq.StabilityCheck | ocs2_ddp/src/SLQ.cpp:162-173 | an error arises exactly when stability checking is enabled and the gain or the bias correction is not finite; the gain is checked first |
| Slq.Slq.constructor | ocs2_ddp/src/SLQ.cpp:48-67 | one Riccati equations instance per thread, configured from the settings; one integrator of the configured type per thread |
| Slq.Slq.Create | ocs2_ddp/src/SLQ.cpp:38-70 | the settings' construction outcome; a solver exists exactly when that outcome passes |
| Slq.Slq.ApproximateIntermediateLQ | ocs2_ddp/src/SLQ.cpp:75-93 | resets the counters; every claimed sample before the failing one is approximated, only the raising index is also overwritten, every other record is untouched, the sweep completes exactly when no sample raises and otherwise stops at the first sample that raises, with that sample's exception; without checks it completes exactly when every sample's constraint rows fit, and otherwise raises the row-count message of the first sample whose rows do not |
| Slq.Slq.ProjectPartition | ocs2_ddp/src/SLQ.cpp:188-205 | every sample of the partition is projected in place; the other partitions are unchanged |
| Slq.Slq.SolveSequentialRiccatiEquations | ocs2_ddp/src/SLQ.cpp:180-211 | resizes the projected stocks to the nominal sizes and projects each non-empty partition; returns the sequential solve |
| Slq.Slq.RiccatiEquationsWorker | ocs2_ddp/src/SLQ.cpp:223-292 | writes the backward-pass result of its partition into the stocks, leaves the other partitions unchanged, and reproduces the nominal time in the nominal case |
| Slq.Slq.StoreNormalized | ocs2_ddp/src/SLQ.cpp:237-249 | only partition p's normalised time and post-event indices are replaced |
| Slq.Slq.StoreValueFunction | ocs2_ddp/src/SLQ.cpp:273-281 | only partition p's time, Sm, Sv and s trajectories are replaced |
| Slq.Slq.CalculateControllerWorker | ocs2_ddp/src/SLQ.cpp:98-175 | writes the gain, bias and bias correction at (i, k) from the interpolated terms; the caught exception is the stability check's |

## Left out

- The thread pool. The parallel workers run as one sequential worker over
  the same claim counters. Interleavings and an exception raised inside a
  worker thread are not modelled.
- The ODE integrators, the Riccati right-hand side and jump map, and the
  packing of (Sm, Sv, s) into one vector. These are function parameters
  with the few properties the model relies on, such as "the observer
  records the start".
- `computeNormalizedTime` lives in the DDP base class, which is not part of
  this model. It is a function parameter. The negate-and-reverse property
  is proved for the case where that parameter negates and reverses.
- The interpolation of nominal and model-data trajectories
  (`LinearInterpolation`). It is a function parameter.
- `allFinite` and the numerical property checks of the model data. These
  are function parameters.
- `numerics::almost_eq` on the risk-sensitivity coefficient. It is modelled
  as an exact comparison with zero.
- Floating point. Arithmetic is on mathematical reals, so rounding,
  overflow and non-finite values are not modelled.
- Printing to `std::cerr`. The caught exception of the stability check is
  returned instead.
- Integrator settings: `maxNumSteps`, tolerances and the minimum time step.
- Function-call counters such as `resetNumFunctionCalls`.
- `computeHamiltonianHessian` (SLQ.cpp:216-218). It delegates to the search
  strategy's `augmentHamiltonianHessian`, passing it the model data and the
  cost's input Hessian `dfduu`; the search strategy is not part of this model.
- `solveSequentialRiccatiEquationsImpl` (the DDP base class). It is the
  `solve` parameter.
- `setCurrentStateAndControl`, `setData` and the pre-computation requests.
  They only delegate to the problem objects.
- The `LinearSystemDynamics` clone. The system is a value.
- `StateCost.h` is not part of this model. `StateCost` mirrors
  `StateInputCost`.
- A moved-from collection is modelled as empty.
- The problem terms of the approximator (dynamics, constraints, costs,
  soft constraints). They are function parameters.
- The fields of the Riccati modification that the controller does not read
  (`deltaQm`, the range-space projector).
- Algorithm and integrator names are spelled as their enumerators.
- Desired trajectories and pre-computation objects passed to cost kernels.
  They are folded into the kernels.
- Slq.Slq.constructor: `Eigen::initParallel` is not modelled.
- Slq.Slq.CalculateControllerWorker: the stability check's outcome is
  returned rather than printed.
