/** The SLQ solver's own part of the DDP iteration: its construction (the
    per-thread Riccati equations and integrators), the LQ approximation of
    the nominal trajectory, the projection of the LQ data before the
    backward pass, the backward pass of one partition, and the assembly of
    the feedback controller from the value function.

    The solver is a class whose fields are the trajectory stocks it shares
    with the rest of the DDP iteration, one entry per time partition. Work
    the library spreads over a thread pool is done here by one worker that
    claims the time indices one after the other through the same counters
    (`nextTimeIndex`, `nextTaskId`). */
module Slq {
  import opened LinAlg
  import opened Approximation
  import opened LqApproximator
  import opened SlqRiccati

  // ---------------------------------------------------------------------------
  // Settings and construction

  datatype Algorithm = SLQ | ILQR

  datatype IntegratorType =
    | Euler | Ode45 | Ode45Ocs2 | AdamsBashforth | BulirschStoer
    | ModifiedMidpoint | Rk4 | AdamsBashforthMoulton

  datatype SearchStrategy = LineSearch | LevenbergMarquardt

  /** The DDP settings the SLQ part reads. */
  datatype Settings = Settings(
    algorithm: Algorithm,
    nThreads: nat,
    backwardPassIntegratorType: IntegratorType,
    preComputeRiccatiTerms: bool,
    strategy: SearchStrategy,
    riskSensitiveCoeff: real,
    useNominalTimeForBackwardPass: bool,
    checkNumericalStability: bool)

  function AlgorithmName(a: Algorithm): string {
    match a
    case SLQ => "SLQ"
    case ILQR => "ILQR"
  }

  function IntegratorName(t: IntegratorType): string {
    match t
    case Euler => "EULER"
    case Ode45 => "ODE45"
    case Ode45Ocs2 => "ODE45_OCS2"
    case AdamsBashforth => "ADAMS_BASHFORTH"
    case BulirschStoer => "BULIRSCH_STOER"
    case ModifiedMidpoint => "MODIFIED_MIDPOINT"
    case Rk4 => "RK4"
    case AdamsBashforthMoulton => "ADAMS_BASHFORTH_MOULTON"
  }

  /** The Riccati equations only support the two adaptive integrators. */
  predicate SupportedRiccatiIntegrator(t: IntegratorType) {
    t == Ode45 || t == BulirschStoer
  }

  /** Construction fails when the settings name another algorithm, then
      when the backward-pass integrator is not supported. */
  function ConstructionOutcome(s: Settings): (o: Outcome)
    ensures o.Pass? <==> s.algorithm == SLQ && SupportedRiccatiIntegrator(s.backwardPassIntegratorType)
    ensures s.algorithm != SLQ ==>
              o == Throw(RuntimeError("In DDP setting the algorithm name is set \"" + AlgorithmName(s.algorithm) +
                                      "\" while SLQ is instantiated!"))
    ensures s.algorithm == SLQ && !SupportedRiccatiIntegrator(s.backwardPassIntegratorType) ==>
              o == Throw(RuntimeError("Unsupported Riccati equation integrator type: " +
                                      IntegratorName(s.backwardPassIntegratorType)))
  {
    if s.algorithm != SLQ then
      Throw(RuntimeError("In DDP setting the algorithm name is set \"" + AlgorithmName(s.algorithm) +
                         "\" while SLQ is instantiated!"))
    else if !SupportedRiccatiIntegrator(s.backwardPassIntegratorType) then
      Throw(RuntimeError("Unsupported Riccati equation integrator type: " +
                         IntegratorName(s.backwardPassIntegratorType)))
    else Pass
  }

  /** The configuration of one `ContinuousTimeRiccatiEquations` instance. */
  datatype RiccatiEquations = RiccatiEquations(preComputeRiccatiTerms: bool, isRiskSensitive: bool,
                                               riskSensitiveCoefficient: real)

  /** Every thread's Riccati equations: pre-computation only under the line
      search strategy, risk sensitivity whenever the coefficient is not zero. */
  function ThreadRiccatiEquations(s: Settings): RiccatiEquations {
    RiccatiEquations(s.preComputeRiccatiTerms && s.strategy == LineSearch,
                     s.riskSensitiveCoeff != 0.0, s.riskSensitiveCoeff)
  }

  // ---------------------------------------------------------------------------
  // Per-sample records

  /** The Riccati modification of one time sample (the terms the controller
      assembly reads). */
  datatype RiccatiModification = RiccatiModification(constraintNullProjector: Matrix, deltaGm: Matrix, deltaGv: Vector)

  /** A default-constructed Riccati modification: empty matrices. */
  const EmptyModification := RiccatiModification([], [], [])

  /** A default-constructed model data record: empty matrices, zero cost. */
  const EmptyModelData :=
    ModelData(VectorLinear([], [], []), [], ScalarQuad(0.0, [], [], [], [], []),
              VectorLinear([], [], []), VectorLinear([], [], []), VectorQuad([], [], [], [], [], []))

  /** `std::vector::resize`: keeps the first `n` entries and pads with `d`. */
  function Resize<T>(s: seq<T>, n: nat, d: T): (r: seq<T>)
    ensures |r| == n
    ensures forall k :: 0 <= k < n && k < |s| ==> r[k] == s[k]
    ensures forall k :: |s| <= k < n ==> r[k] == d
  {
    if n <= |s| then s[..n] else s + seq(n - |s|, _ => d)
  }

  /** The LQ record `approximateLQProblem` writes when it completes. */
  function LqModelData(a: Approximator, t: real, x: Vector, u: Vector): ModelData
    requires CostShaped(a.problem, t, x, u)
  {
    ModelData(a.problem.dynamics(t, x, u), a.problem.dynamicsCovariance(t, x, u),
              IntermediateCost(a.problem, t, x, u), a.problem.equalityConstraint(t, x, u),
              a.problem.stateEqualityConstraint(t, x), a.problem.inequalityConstraint(t, x, u))
  }

  /** `md` is the completed LQ approximation at (t, x, u). */
  predicate Approximated(a: Approximator, t: real, x: Vector, u: Vector, md: ModelData) {
    CostShaped(a.problem, t, x, u) && md == LqModelData(a, t, x, u)
  }

  /** After a sweep over samples 0..done-1 of `times`: those records are
      approximated, the record at `done` was overwritten if the sweep
      `raised` there, and every other record is as it was `before`. */
  ghost predicate Swept(a: Approximator, times: seq<real>, states: seq<Vector>, inputs: seq<Vector>,
                        now: seq<ModelData>, before: seq<ModelData>, done: nat, raised: bool)
    requires done <= |times| <= |states| && |times| <= |inputs| && |now| == |before|
  {
    forall k :: 0 <= k < |now| ==>
      if k < done then Approximated(a, times[k], states[k], inputs[k], now[k])
      else (raised && k == done) || now[k] == before[k]
  }

  /** Writing an approximated record at `done` extends a sweep by one
      sample, or, with `raised`, ends it there. */
  lemma SweptStep(a: Approximator, times: seq<real>, states: seq<Vector>, inputs: seq<Vector>,
                  now: seq<ModelData>, before: seq<ModelData>, done: nat, md: ModelData, passed: bool)
    requires done < |times| <= |states| && |times| <= |inputs| && |now| == |before| && done < |now|
    requires Swept(a, times, states, inputs, now, before, done, false)
    requires passed ==> Approximated(a, times[done], states[done], inputs[done], md)
    ensures passed ==> Swept(a, times, states, inputs, now[done := md], before, done + 1, false)
    ensures Swept(a, times, states, inputs, now[done := md], before, done, true)
  {
  }

  /** The rows of both equality constraints at (t, x, u) fit the input. */
  predicate ConstraintRowsFit(a: Approximator, t: real, x: Vector, u: Vector) {
    |a.problem.equalityConstraint(t, x, u).f| <= |u| && |a.problem.stateEqualityConstraint(t, x).f| <= |u|
  }

  /** One `approximateLQProblem` call, summarised: on completion the record
      is the whole LQ approximation; the exception is the one of the first
      failing step; with the numerical checks off it completes exactly when
      the constraint rows fit the input, and otherwise raises the row-count
      message of the first constraint that does not fit. */
  method ApproximateSample(a: Approximator, t: real, x: Vector, u: Vector, md: ModelData)
    returns (md': ModelData, out: Outcome)
    requires CostShaped(a.problem, t, x, u)
    ensures out.Pass? ==> Approximated(a, t, x, u, md')
    ensures md'.dynamics == a.problem.dynamics(t, x, u)
    ensures out == LQOutcome(a, t, x, u, md)
    ensures !a.checkNumericalCharacteristics ==> (out.Pass? <==> ConstraintRowsFit(a, t, x, u))
    ensures !a.checkNumericalCharacteristics && out.Throw? ==>
              out == Throw(RuntimeError(RowsMessage(a, t, x, u)))
  {
    md', out := ApproximateLQProblem(a, t, x, u, md);
    if !a.checkNumericalCharacteristics {
      LQOutcomeWithoutChecks(a, t, x, u, md);
    }
  }

  /** The message raised when the constraint rows at (t, x, u) do not fit:
      the state-input constraint is checked first. */
  function RowsMessage(a: Approximator, t: real, x: Vector, u: Vector): string {
    if |a.problem.equalityConstraint(t, x, u).f| > |u| then StateInputRowsMessage else StateOnlyRowsMessage
  }

  /** `approximateLQProblem` raises at none of samples 0..n-1, each on the
      record it had `before` the sweep. */
  predicate SamplesPass(a: Approximator, times: seq<real>, states: seq<Vector>, inputs: seq<Vector>,
                        before: seq<ModelData>, n: nat)
    requires n <= |times| <= |states| && |times| <= |inputs| && |times| <= |before|
    requires forall k :: 0 <= k < |times| ==> CostShaped(a.problem, times[k], states[k], inputs[k])
  {
    forall k :: 0 <= k < n ==> LQOutcome(a, times[k], states[k], inputs[k], before[k]).Pass?
  }

  /** Without the numerical checks, no sample of a sweep raises exactly when
      every sample's constraint rows fit. */
  lemma SamplesPassWithoutChecks(a: Approximator, times: seq<real>, states: seq<Vector>, inputs: seq<Vector>,
                                 before: seq<ModelData>, n: nat)
    requires n <= |times| <= |states| && |times| <= |inputs| && |times| <= |before|
    requires forall k :: 0 <= k < |times| ==> CostShaped(a.problem, times[k], states[k], inputs[k])
    requires !a.checkNumericalCharacteristics
    ensures SamplesPass(a, times, states, inputs, before, n) <==>
            forall k :: 0 <= k < n ==> ConstraintRowsFit(a, times[k], states[k], inputs[k])
  {
    forall k | 0 <= k < n
      ensures LQOutcome(a, times[k], states[k], inputs[k], before[k]).Pass? <==>
              ConstraintRowsFit(a, times[k], states[k], inputs[k])
    {
      LQOutcomeWithoutChecks(a, times[k], states[k], inputs[k], before[k]);
    }
  }

  /** The projection of one sample's model data, with its Riccati
      modification, as computed before the backward pass. */
  type Projection = ModelData -> (ModelData, RiccatiModification)

  /** Samples 0..n-1 of a partition are projected from its model data. */
  predicate ProjectsPartition(projected: seq<ModelData>, modifications: seq<RiccatiModification>,
                              modelData: seq<ModelData>, n: nat, project: Projection)
  {
    |projected| == n && |modifications| == n && n <= |modelData| &&
    forall k :: 0 <= k < n ==> (projected[k], modifications[k]) == project(modelData[k])
  }

  /** The last partition below `n` with a non-empty nominal time, or -1. */
  function LastNonEmpty(times: seq<seq<real>>, n: nat): (j: int)
    requires n <= |times|
    ensures -1 <= j < n
    ensures j >= 0 ==> |times[j]| > 0 && forall q :: j < q < n ==> |times[q]| == 0
    ensures j < 0 ==> forall q :: 0 <= q < n ==> |times[q]| == 0
  {
    if n == 0 then -1 else if |times[n - 1]| > 0 then n - 1 else LastNonEmpty(times, n - 1)
  }

  // ---------------------------------------------------------------------------
  // Controller assembly

  /** A time-varying affine controller u(x) = bias[k] + gain[k]·x. */
  datatype LinearController = LinearController(gainArray: seq<Matrix>, biasArray: seq<Vector>, deltaBiasArray: seq<Vector>)

  /** The terms interpolated at one time of the backward pass: the nominal
      state and input, the projected LQ terms (Bm, Pm, Rv, Ev, Cm) and the
      Riccati modification terms (Qu, deltaGm, deltaGv). */
  datatype Interpolated = Interpolated(
    nominalState: Vector, nominalInput: Vector,
    Bm: Matrix, Pm: Matrix, Rv: Vector, Ev: Vector, Cm: Matrix,
    Qu: Matrix, deltaGm: Matrix, deltaGv: Vector)

  /** Conformable terms for a state of dimension nx = |Sv|, an input of
      dimension nu = |nominalInput| and a projected input of dimension
      np = |Rv|. */
  predicate ControllerShaped(ip: Interpolated, Sm: Matrix, Sv: Vector) {
    var nx, nu, np := |Sv|, |ip.nominalInput|, |ip.Rv|;
    |ip.nominalState| == nx && IsMat(Sm, nx, nx) &&
    IsMat(ip.Bm, nx, np) && IsMat(ip.Pm, np, nx) && |ip.Ev| == nu && IsMat(ip.Cm, nu, nx) &&
    IsMat(ip.Qu, nu, np) && IsMat(ip.deltaGm, np, nx) && |ip.deltaGv| == np
  }

  /** Projected feedback: -(deltaGm + Pm) - Bmᵀ·Sm. */
  function ProjectedFeedback(ip: Interpolated, Sm: Matrix, Sv: Vector): (k: Matrix)
    requires ControllerShaped(ip, Sm, Sv)
    ensures IsMat(k, |ip.Rv|, |Sv|)
  {
    MSub(MNeg(MAdd(ip.deltaGm, ip.Pm)), MatMul(Transpose(ip.Bm, |ip.Rv|), Sm, |Sv|))
  }

  /** Projected feedforward: -(deltaGv + Rv) - Bmᵀ·Sv. */
  function ProjectedFeedforward(ip: Interpolated, Sm: Matrix, Sv: Vector): (l: Vector)
    requires ControllerShaped(ip, Sm, Sv)
    ensures |l| == |ip.Rv|
  {
    VSub(VNeg(VAdd(ip.deltaGv, ip.Rv)), MatVec(Transpose(ip.Bm, |ip.Rv|), Sv))
  }

  /** Feedback gain: -Cm + Qu·(projected feedback). */
  function Gain(ip: Interpolated, Sm: Matrix, Sv: Vector): (g: Matrix)
    requires ControllerShaped(ip, Sm, Sv)
    ensures IsMat(g, |ip.nominalInput|, |Sv|)
  {
    MAdd(MNeg(ip.Cm), MatMul(ip.Qu, ProjectedFeedback(ip, Sm, Sv), |Sv|))
  }

  /** Bias: the nominal input minus the gain applied to the nominal state. */
  function Bias(ip: Interpolated, gain: Matrix): (b: Vector)
    requires RowsOfLength(gain, |ip.nominalState|) && |gain| == |ip.nominalInput|
    ensures |b| == |ip.nominalInput|
  {
    VSub(ip.nominalInput, MatVec(gain, ip.nominalState))
  }

  /** Feedforward correction: -Ev + Qu·(projected feedforward). */
  function DeltaBias(ip: Interpolated, Sm: Matrix, Sv: Vector): (d: Vector)
    requires ControllerShaped(ip, Sm, Sv)
    ensures |d| == |ip.nominalInput|
  {
    VAdd(VNeg(ip.Ev), MatVec(ip.Qu, ProjectedFeedforward(ip, Sm, Sv)))
  }

  /** The affine control law of one controller sample. */
  function Control(bias: Vector, gain: Matrix, x: Vector): (u: Vector)
    requires RowsOfLength(gain, |x|) && |gain| == |bias|
    ensures |u| == |bias|
  {
    VAdd(bias, MatVec(gain, x))
  }

  /** The assembled controller reproduces the nominal input at the nominal
      state, and away from it deviates by the gain times the state error:
      u(x) = nominalInput + gain·(x - nominalState). */
  lemma ControlAroundNominal(ip: Interpolated, gain: Matrix, x: Vector)
    requires RowsOfLength(gain, |ip.nominalState|) && |gain| == |ip.nominalInput|
    requires |x| == |ip.nominalState|
    ensures Control(Bias(ip, gain), gain, ip.nominalState) == ip.nominalInput
    ensures Control(Bias(ip, gain), gain, x) ==
            VAdd(ip.nominalInput, MatVec(gain, VSub(x, ip.nominalState)))
  {
    var xn := ip.nominalState;
    var d := VSub(x, xn);
    assert x == VAdd(xn, d);
    MatVecAdd(gain, xn, d);
  }

  /** With no Riccati modification, no projected input terms and no
      constraint, the feedback is the congruence Qu·(-Bmᵀ·Sm) alone. */
  lemma GainWithoutModification(ip: Interpolated, Sm: Matrix, Sv: Vector)
    requires ControllerShaped(ip, Sm, Sv)
    requires ip.deltaGm == ZeroMat(|ip.Rv|, |Sv|) && ip.Pm == ZeroMat(|ip.Rv|, |Sv|)
    requires ip.Cm == ZeroMat(|ip.nominalInput|, |Sv|)
    ensures Gain(ip, Sm, Sv) ==
            MatMul(ip.Qu, MNeg(MatMul(Transpose(ip.Bm, |ip.Rv|), Sm, |Sv|)), |Sv|)
  {
    var np, nx := |ip.Rv|, |Sv|;
    var bs := MatMul(Transpose(ip.Bm, np), Sm, nx);
    var pf := ProjectedFeedback(ip, Sm, Sv);
    forall i | 0 <= i < np
      ensures pf[i] == MNeg(bs)[i]
    {
      assert |pf[i]| == nx == |MNeg(bs)[i]|;
      forall j | 0 <= j < nx
        ensures pf[i][j] == MNeg(bs)[i][j]
      {
        assert MAdd(ip.deltaGm, ip.Pm)[i][j] == 0.0;
      }
    }
    assert pf == MNeg(bs);
    var q := MatMul(ip.Qu, MNeg(bs), nx);
    var g := Gain(ip, Sm, Sv);
    forall i | 0 <= i < |ip.nominalInput|
      ensures g[i] == q[i]
    {
      assert |g[i]| == nx == |q[i]|;
      forall j | 0 <= j < nx
        ensures g[i][j] == q[i][j]
      {
        assert MNeg(ip.Cm)[i][j] == 0.0;
      }
    }
  }

  /** The stability check of the assembled controller: the exception it
      raises (and catches), if any. */
  function StabilityCheck(enabled: bool, gainFinite: bool, deltaBiasFinite: bool): (o: Outcome)
    ensures o.Pass? <==> !enabled || (gainFinite && deltaBiasFinite)
    ensures o.Throw? && !gainFinite ==> o.error == RuntimeError("Feedback gains are unstable.")
    ensures o.Throw? && gainFinite ==> o.error == RuntimeError("feedForwardControl is unstable.")
  {
    if !enabled then Pass
    else if !gainFinite then Throw(RuntimeError("Feedback gains are unstable."))
    else if !deltaBiasFinite then Throw(RuntimeError("feedForwardControl is unstable."))
    else Pass
  }

  // ---------------------------------------------------------------------------
  // The solver

  class Slq {
    const settings: Settings

    /** One Riccati equations instance and one integrator per thread. */
    var riccatiEquationsStock: seq<RiccatiEquations>
    var riccatiIntegratorStock: seq<IntegratorType>

    /** The counters through which workers claim time indices and task ids. */
    var nextTimeIndex: int
    var nextTaskId: int

    /** Per-partition stocks. */
    var numPartitions: nat
    var nominalTimeTrajectoriesStock: seq<seq<real>>
    var nominalPostEventIndicesStock: seq<seq<int>>
    var modelDataTrajectoriesStock: seq<seq<ModelData>>
    var projectedModelDataTrajectoriesStock: seq<seq<ModelData>>
    var riccatiModificationTrajectoriesStock: seq<seq<RiccatiModification>>
    var ssNormalizedTimeTrajectoryStock: seq<seq<real>>
    var ssNormalizedEventsPastTheEndIndicesStock: seq<seq<int>>
    var ssTimeTrajectoryStock: seq<seq<real>>
    var smTrajectoryStock: seq<seq<Matrix>>
    var svTrajectoryStock: seq<seq<Vector>>
    var sTrajectoryStock: seq<seq<real>>
    var nominalControllersStock: seq<LinearController>

    /** Valid settings give one identically configured Riccati equations
        instance and one integrator of the configured type per thread. */
    constructor (settings: Settings)
      requires ConstructionOutcome(settings).Pass?
      ensures this.settings == settings
      ensures |riccatiEquationsStock| == settings.nThreads && |riccatiIntegratorStock| == settings.nThreads
      ensures forall i :: 0 <= i < settings.nThreads ==>
                riccatiEquationsStock[i] == ThreadRiccatiEquations(settings) &&
                riccatiIntegratorStock[i] == settings.backwardPassIntegratorType
      ensures nextTimeIndex == 0 && nextTaskId == 0 && numPartitions == 0
      ensures nominalTimeTrajectoriesStock == [] && nominalControllersStock == []
    {
      var equations, integrators := [], [];
      var i := 0;
      while i < settings.nThreads
        invariant 0 <= i <= settings.nThreads
        invariant |equations| == i && |integrators| == i
        invariant forall j :: 0 <= j < i ==>
                    equations[j] == ThreadRiccatiEquations(settings) &&
                    integrators[j] == settings.backwardPassIntegratorType
      {
        var preCompute := settings.preComputeRiccatiTerms && settings.strategy == LineSearch;
        var isRiskSensitive := settings.riskSensitiveCoeff != 0.0;
        equations := equations + [RiccatiEquations(preCompute, isRiskSensitive, settings.riskSensitiveCoeff)];
        integrators := integrators + [settings.backwardPassIntegratorType];
        i := i + 1;
      }
      this.settings := settings;
      riccatiEquationsStock, riccatiIntegratorStock := equations, integrators;
      nextTimeIndex, nextTaskId, numPartitions := 0, 0, 0;
      nominalTimeTrajectoriesStock, nominalPostEventIndicesStock := [], [];
      modelDataTrajectoriesStock, projectedModelDataTrajectoriesStock := [], [];
      riccatiModificationTrajectoriesStock := [];
      ssNormalizedTimeTrajectoryStock, ssNormalizedEventsPastTheEndIndicesStock := [], [];
      ssTimeTrajectoryStock, smTrajectoryStock, svTrajectoryStock, sTrajectoryStock := [], [], [], [];
      nominalControllersStock := [];
    }

    /** The SLQ constructor: the exception it raises for unusable settings,
        or a new solver. */
    static method Create(settings: Settings) returns (slq: Slq?, out: Outcome)
      ensures out == ConstructionOutcome(settings)
      ensures out.Pass? <==> slq != null
      ensures slq != null ==>
                fresh(slq) && slq.settings == settings && |slq.riccatiEquationsStock| == settings.nThreads &&
                |slq.riccatiIntegratorStock| == settings.nThreads &&
                forall i :: 0 <= i < settings.nThreads ==>
                  slq.riccatiEquationsStock[i] == ThreadRiccatiEquations(settings) &&
                  slq.riccatiIntegratorStock[i] == settings.backwardPassIntegratorType
    {
      out := ConstructionOutcome(settings);
      if out.Throw? {
        slq := null;
      } else {
        slq := new Slq(settings);
      }
    }

    // -------------------------------------------------------------------------
    // LQ approximation of the nominal trajectory

    /** `approximateIntermediateLQ`: resets the counters, then claims the
        time indices one by one and approximates the LQ problem at each,
        writing the record of that index only. An exception from the
        approximator ends the sweep at the index that raised it. */
    method ApproximateIntermediateLQ(a: Approximator, timeTrajectory: seq<real>, postEventIndices: seq<int>,
                                     stateTrajectory: seq<Vector>, inputTrajectory: seq<Vector>,
                                     modelData: array<ModelData>)
      returns (out: Outcome)
      requires |timeTrajectory| <= |stateTrajectory| && |timeTrajectory| <= |inputTrajectory|
      requires |timeTrajectory| <= modelData.Length
      requires forall k :: 0 <= k < |timeTrajectory| ==>
                 CostShaped(a.problem, timeTrajectory[k], stateTrajectory[k], inputTrajectory[k])
      modifies this`nextTimeIndex, this`nextTaskId, modelData
      ensures nextTaskId == 1
      ensures out.Pass? ==> nextTimeIndex == |timeTrajectory| + 1
      ensures out.Throw? ==> 0 < nextTimeIndex <= |timeTrajectory|
      ensures Swept(a, timeTrajectory, stateTrajectory, inputTrajectory, modelData[..], old(modelData[..]),
                    if out.Pass? then |timeTrajectory| else nextTimeIndex - 1, out.Throw?)
      ensures out.Throw? ==>
                var k := nextTimeIndex - 1;
                modelData[k].dynamics == a.problem.dynamics(timeTrajectory[k], stateTrajectory[k], inputTrajectory[k])
      // The sweep completes exactly when no sample raises; otherwise it
      // stops at the first sample that raises, with that sample's exception.
      ensures out.Pass? <==>
              SamplesPass(a, timeTrajectory, stateTrajectory, inputTrajectory, old(modelData[..]), |timeTrajectory|)
      ensures out.Throw? ==>
                var k := nextTimeIndex - 1;
                SamplesPass(a, timeTrajectory, stateTrajectory, inputTrajectory, old(modelData[..]), k) &&
                out == LQOutcome(a, timeTrajectory[k], stateTrajectory[k], inputTrajectory[k], old(modelData[k]))
      // Without the checks: it completes exactly when every sample's rows
      // fit, and otherwise raises the row-count message of the first that does not.
      ensures !a.checkNumericalCharacteristics ==>
                (out.Pass? <==> forall k :: 0 <= k < |timeTrajectory| ==>
                                  ConstraintRowsFit(a, timeTrajectory[k], stateTrajectory[k], inputTrajectory[k]))
      ensures !a.checkNumericalCharacteristics && out.Throw? ==>
                var k := nextTimeIndex - 1;
                (forall j :: 0 <= j < k ==>
                   ConstraintRowsFit(a, timeTrajectory[j], stateTrajectory[j], inputTrajectory[j])) &&
                !ConstraintRowsFit(a, timeTrajectory[k], stateTrajectory[k], inputTrajectory[k]) &&
                out == Throw(RuntimeError(RowsMessage(a, timeTrajectory[k], stateTrajectory[k], inputTrajectory[k])))
    {
      nextTimeIndex := 0;
      nextTaskId := 0;
      var taskId := nextTaskId;
      nextTaskId := nextTaskId + 1;
      var timeIndex := nextTimeIndex;
      nextTimeIndex := nextTimeIndex + 1;
      while timeIndex < |timeTrajectory|
        invariant 0 <= timeIndex <= |timeTrajectory|
        invariant nextTimeIndex == timeIndex + 1 && nextTaskId == 1
        invariant Swept(a, timeTrajectory, stateTrajectory, inputTrajectory, modelData[..], old(modelData[..]),
                        timeIndex, false)
        invariant SamplesPass(a, timeTrajectory, stateTrajectory, inputTrajectory, old(modelData[..]), timeIndex)
        decreases |timeTrajectory| - timeIndex
      {
        var t, x, u := timeTrajectory[timeIndex], stateTrajectory[timeIndex], inputTrajectory[timeIndex];
        assert modelData[timeIndex] == old(modelData[timeIndex]);
        var md, o := ApproximateSample(a, t, x, u, modelData[timeIndex]);
        SweptStep(a, timeTrajectory, stateTrajectory, inputTrajectory, modelData[..], old(modelData[..]),
                  timeIndex, md, o.Pass?);
        modelData[timeIndex] := md;
        if o.Throw? {
          if !a.checkNumericalCharacteristics {
            SamplesPassWithoutChecks(a, timeTrajectory, stateTrajectory, inputTrajectory, old(modelData[..]),
                                     timeIndex);
          }
          return o;
        }
        timeIndex := nextTimeIndex;
        nextTimeIndex := nextTimeIndex + 1;
      }
      out := Pass;
      if !a.checkNumericalCharacteristics {
        SamplesPassWithoutChecks(a, timeTrajectory, stateTrajectory, inputTrajectory, old(modelData[..]),
                                 |timeTrajectory|);
      }
    }

    // -------------------------------------------------------------------------
    // Projection before the backward pass

    /** The claim loop of one non-empty partition: projects every sample of
        partition `i` in place. */
    method ProjectPartition(i: nat, project: Projection)
      requires i < |nominalTimeTrajectoriesStock| && i < |modelDataTrajectoriesStock|
      requires i < |projectedModelDataTrajectoriesStock| && i < |riccatiModificationTrajectoriesStock|
      requires |projectedModelDataTrajectoriesStock[i]| == |nominalTimeTrajectoriesStock[i]|
      requires |riccatiModificationTrajectoriesStock[i]| == |nominalTimeTrajectoriesStock[i]|
      requires 0 < |nominalTimeTrajectoriesStock[i]| <= |modelDataTrajectoriesStock[i]|
      modifies this`projectedModelDataTrajectoriesStock, this`riccatiModificationTrajectoriesStock
      modifies this`nextTimeIndex, this`nextTaskId
      ensures |projectedModelDataTrajectoriesStock| == old(|projectedModelDataTrajectoriesStock|)
      ensures |riccatiModificationTrajectoriesStock| == old(|riccatiModificationTrajectoriesStock|)
      ensures ProjectsPartition(projectedModelDataTrajectoriesStock[i], riccatiModificationTrajectoriesStock[i],
                                modelDataTrajectoriesStock[i], |nominalTimeTrajectoriesStock[i]|, project)
      ensures forall j :: 0 <= j < |projectedModelDataTrajectoriesStock| && j != i ==>
                projectedModelDataTrajectoriesStock[j] == old(projectedModelDataTrajectoriesStock[j])
      ensures forall j :: 0 <= j < |riccatiModificationTrajectoriesStock| && j != i ==>
                riccatiModificationTrajectoriesStock[j] == old(riccatiModificationTrajectoriesStock[j])
      ensures nextTimeIndex == |nominalTimeTrajectoriesStock[i]| + 1 && nextTaskId == 1
    {
      var n := |nominalTimeTrajectoriesStock[i]|;
      nextTimeIndex := 0;
      nextTaskId := 0;
      var taskId := nextTaskId;
      nextTaskId := nextTaskId + 1;
      var timeIndex := nextTimeIndex;
      nextTimeIndex := nextTimeIndex + 1;
      while timeIndex < n
        invariant 0 <= timeIndex <= n
        invariant nextTimeIndex == timeIndex + 1 && nextTaskId == 1
        invariant |projectedModelDataTrajectoriesStock| == old(|projectedModelDataTrajectoriesStock|)
        invariant |riccatiModificationTrajectoriesStock| == old(|riccatiModificationTrajectoriesStock|)
        invariant |projectedModelDataTrajectoriesStock[i]| == n && |riccatiModificationTrajectoriesStock[i]| == n
        invariant forall k :: 0 <= k < timeIndex ==>
                    (projectedModelDataTrajectoriesStock[i][k], riccatiModificationTrajectoriesStock[i][k]) ==
                    project(modelDataTrajectoriesStock[i][k])
        invariant forall j :: 0 <= j < |projectedModelDataTrajectoriesStock| && j != i ==>
                    projectedModelDataTrajectoriesStock[j] == old(projectedModelDataTrajectoriesStock[j])
        invariant forall j :: 0 <= j < |riccatiModificationTrajectoriesStock| && j != i ==>
                    riccatiModificationTrajectoriesStock[j] == old(riccatiModificationTrajectoriesStock[j])
        decreases n - timeIndex
      {
        var r := project(modelDataTrajectoriesStock[i][timeIndex]);
        projectedModelDataTrajectoriesStock :=
          projectedModelDataTrajectoriesStock[i := projectedModelDataTrajectoriesStock[i][timeIndex := r.0]];
        riccatiModificationTrajectoriesStock :=
          riccatiModificationTrajectoriesStock[i := riccatiModificationTrajectoriesStock[i][timeIndex := r.1]];
        timeIndex := nextTimeIndex;
        nextTimeIndex := nextTimeIndex + 1;
      }
    }

    /** `solveSequentialRiccatiEquations`: sizes the projected model data
        and the Riccati modifications of every partition to its nominal
        time, projects every sample of the non-empty partitions, then runs
        the sequential backward pass (`solve`). */
    method SolveSequentialRiccatiEquations(SmFinal: Matrix, SvFinal: Vector, sFinal: real,
                                           project: Projection, solve: (Matrix, Vector, real) -> real)
      returns (r: real)
      requires numPartitions <= |nominalTimeTrajectoriesStock| && numPartitions <= |modelDataTrajectoriesStock|
      requires numPartitions <= |projectedModelDataTrajectoriesStock|
      requires numPartitions <= |riccatiModificationTrajectoriesStock|
      requires forall i :: 0 <= i < numPartitions ==>
                 |nominalTimeTrajectoriesStock[i]| <= |modelDataTrajectoriesStock[i]|
      modifies this`projectedModelDataTrajectoriesStock, this`riccatiModificationTrajectoriesStock
      modifies this`nextTimeIndex, this`nextTaskId
      ensures r == solve(SmFinal, SvFinal, sFinal)
      ensures |projectedModelDataTrajectoriesStock| == old(|projectedModelDataTrajectoriesStock|)
      ensures |riccatiModificationTrajectoriesStock| == old(|riccatiModificationTrajectoriesStock|)
      ensures forall i :: 0 <= i < numPartitions ==>
                ProjectsPartition(projectedModelDataTrajectoriesStock[i], riccatiModificationTrajectoriesStock[i],
                                  modelDataTrajectoriesStock[i], |nominalTimeTrajectoriesStock[i]|, project)
      ensures forall i :: numPartitions <= i < |projectedModelDataTrajectoriesStock| ==>
                projectedModelDataTrajectoriesStock[i] == old(projectedModelDataTrajectoriesStock[i])
      ensures forall i :: numPartitions <= i < |riccatiModificationTrajectoriesStock| ==>
                riccatiModificationTrajectoriesStock[i] == old(riccatiModificationTrajectoriesStock[i])
      ensures var j := LastNonEmpty(nominalTimeTrajectoriesStock, numPartitions);
              if j < 0 then nextTimeIndex == old(nextTimeIndex) && nextTaskId == old(nextTaskId)
              else nextTimeIndex == |nominalTimeTrajectoriesStock[j]| + 1 && nextTaskId == 1
    {
      var i := 0;
      while i < numPartitions
        invariant 0 <= i <= numPartitions
        invariant |projectedModelDataTrajectoriesStock| == old(|projectedModelDataTrajectoriesStock|)
        invariant |riccatiModificationTrajectoriesStock| == old(|riccatiModificationTrajectoriesStock|)
        invariant forall q :: 0 <= q < i ==>
                    ProjectsPartition(projectedModelDataTrajectoriesStock[q], riccatiModificationTrajectoriesStock[q],
                                      modelDataTrajectoriesStock[q], |nominalTimeTrajectoriesStock[q]|, project)
        invariant forall q :: i <= q < |projectedModelDataTrajectoriesStock| ==>
                    projectedModelDataTrajectoriesStock[q] == old(projectedModelDataTrajectoriesStock[q])
        invariant forall q :: i <= q < |riccatiModificationTrajectoriesStock| ==>
                    riccatiModificationTrajectoriesStock[q] == old(riccatiModificationTrajectoriesStock[q])
        invariant var j := LastNonEmpty(nominalTimeTrajectoriesStock, i);
                  if j < 0 then nextTimeIndex == old(nextTimeIndex) && nextTaskId == old(nextTaskId)
                  else nextTimeIndex == |nominalTimeTrajectoriesStock[j]| + 1 && nextTaskId == 1
      {
        var n := |nominalTimeTrajectoriesStock[i]|;
        riccatiModificationTrajectoriesStock :=
          riccatiModificationTrajectoriesStock[i := Resize(riccatiModificationTrajectoriesStock[i], n, EmptyModification)];
        projectedModelDataTrajectoriesStock :=
          projectedModelDataTrajectoriesStock[i := Resize(projectedModelDataTrajectoriesStock[i], n, EmptyModelData)];
        if n > 0 {
          ProjectPartition(i, project);
        }
        i := i + 1;
      }
      r := solve(SmFinal, SvFinal, sFinal);
    }

    // -------------------------------------------------------------------------
    // Backward pass of one partition

    /** `riccatiEquationsWorker`: integrates the Riccati equations of one
        partition backwards from the packed final value function, stores
        the normalised time and post-event indices of the partition, and,
        when the pass completes, its de-normalised value function
        trajectory. An exception leaves the value function trajectory as
        it was. */
    method RiccatiEquationsWorker(workerIndex: nat, partitionIndex: nat,
                                  SmFinal: Matrix, SvFinal: Vector, sFinal: real,
                                  pack: (Matrix, Vector, real) -> Vector, unpack: Unpack,
                                  normalize: (seq<real>, seq<int>) -> (seq<real>, seq<int>),
                                  integrateTimes: IntegrateTimes, integrateAdaptive: IntegrateAdaptive,
                                  jump: JumpMap)
      returns (out: Outcome)
      requires partitionIndex < |nominalTimeTrajectoriesStock| && partitionIndex < |nominalPostEventIndicesStock|
      requires partitionIndex < |ssNormalizedTimeTrajectoryStock|
      requires partitionIndex < |ssNormalizedEventsPastTheEndIndicesStock|
      requires partitionIndex < |ssTimeTrajectoryStock| && partitionIndex < |smTrajectoryStock|
      requires partitionIndex < |svTrajectoryStock| && partitionIndex < |sTrajectoryStock|
      requires |nominalTimeTrajectoriesStock[partitionIndex]| > 0
      requires EventsInside(nominalPostEventIndicesStock[partitionIndex], |nominalTimeTrajectoriesStock[partitionIndex]|)
      requires |normalize(nominalTimeTrajectoriesStock[partitionIndex], nominalPostEventIndicesStock[partitionIndex]).0|
               == |nominalTimeTrajectoriesStock[partitionIndex]|
      requires ObservesNonEmpty(integrateTimes) && ObservesStart(integrateAdaptive)
      modifies this`ssNormalizedTimeTrajectoryStock, this`ssNormalizedEventsPastTheEndIndicesStock
      modifies this`ssTimeTrajectoryStock, this`smTrajectoryStock, this`svTrajectoryStock, this`sTrajectoryStock
      ensures |ssNormalizedTimeTrajectoryStock| == old(|ssNormalizedTimeTrajectoryStock|)
      ensures |ssNormalizedEventsPastTheEndIndicesStock| == old(|ssNormalizedEventsPastTheEndIndicesStock|)
      ensures |ssTimeTrajectoryStock| == old(|ssTimeTrajectoryStock|) && |smTrajectoryStock| == old(|smTrajectoryStock|)
      ensures |svTrajectoryStock| == old(|svTrajectoryStock|) && |sTrajectoryStock| == old(|sTrajectoryStock|)
      ensures ssNormalizedTimeTrajectoryStock ==
                old(ssNormalizedTimeTrajectoryStock)[partitionIndex := ssNormalizedTimeTrajectoryStock[partitionIndex]]
      ensures ssNormalizedEventsPastTheEndIndicesStock ==
                old(ssNormalizedEventsPastTheEndIndicesStock)[partitionIndex :=
                  ssNormalizedEventsPastTheEndIndicesStock[partitionIndex]]
      ensures var p := partitionIndex;
              BackwardPassResult(settings.useNominalTimeForBackwardPass,
                                 nominalTimeTrajectoriesStock[p], nominalPostEventIndicesStock[p],
                                 pack(SmFinal, SvFinal, sFinal), unpack, normalize,
                                 integrateTimes, integrateAdaptive, jump,
                                 ssNormalizedTimeTrajectoryStock[p], ssNormalizedEventsPastTheEndIndicesStock[p],
                                 ValueFunctionTrajectory(ssTimeTrajectoryStock[p], smTrajectoryStock[p],
                                                         svTrajectoryStock[p], sTrajectoryStock[p]),
                                 out)
      ensures out.Throw? ==>
                ssTimeTrajectoryStock == old(ssTimeTrajectoryStock) && smTrajectoryStock == old(smTrajectoryStock) &&
                svTrajectoryStock == old(svTrajectoryStock) && sTrajectoryStock == old(sTrajectoryStock)
      ensures out.Pass? ==>
                ssTimeTrajectoryStock == old(ssTimeTrajectoryStock)[partitionIndex := ssTimeTrajectoryStock[partitionIndex]] &&
                smTrajectoryStock == old(smTrajectoryStock)[partitionIndex := smTrajectoryStock[partitionIndex]] &&
                svTrajectoryStock == old(svTrajectoryStock)[partitionIndex := svTrajectoryStock[partitionIndex]] &&
                sTrajectoryStock == old(sTrajectoryStock)[partitionIndex := sTrajectoryStock[partitionIndex]]
      ensures settings.useNominalTimeForBackwardPass && out.Pass? &&
              normalize(nominalTimeTrajectoriesStock[partitionIndex], nominalPostEventIndicesStock[partitionIndex]).0
                == NegateReverse(nominalTimeTrajectoriesStock[partitionIndex])
              ==> ssTimeTrajectoryStock[partitionIndex] == nominalTimeTrajectoriesStock[partitionIndex]
    {
      var p := partitionIndex;
      var allSsFinal := pack(SmFinal, SvFinal, sFinal);
      StoreNormalized(p, [], []);

      var normalizedTime, normalizedEvents, output;
      normalizedTime, normalizedEvents, output, out :=
        BackwardPass(settings.useNominalTimeForBackwardPass, nominalTimeTrajectoriesStock[p],
                     nominalPostEventIndicesStock[p], allSsFinal, unpack, normalize,
                     integrateTimes, integrateAdaptive, jump);
      StoreNormalized(p, normalizedTime, normalizedEvents);
      if out.Pass? {
        StoreValueFunction(p, output);
      } else {
        BackwardPassResultOnThrow(settings.useNominalTimeForBackwardPass, nominalTimeTrajectoriesStock[p],
                                  nominalPostEventIndicesStock[p], allSsFinal, unpack, normalize,
                                  integrateTimes, integrateAdaptive, jump, normalizedTime, normalizedEvents, output, out,
                                  ValueFunctionTrajectory(ssTimeTrajectoryStock[p], smTrajectoryStock[p],
                                                          svTrajectoryStock[p], sTrajectoryStock[p]));
      }
    }

    /** Stores the normalised time and post-event indices of partition `p`. */
    method StoreNormalized(p: nat, normalizedTime: seq<real>, normalizedEvents: seq<int>)
      requires p < |ssNormalizedTimeTrajectoryStock| && p < |ssNormalizedEventsPastTheEndIndicesStock|
      modifies this`ssNormalizedTimeTrajectoryStock, this`ssNormalizedEventsPastTheEndIndicesStock
      ensures ssNormalizedTimeTrajectoryStock == old(ssNormalizedTimeTrajectoryStock)[p := normalizedTime]
      ensures ssNormalizedEventsPastTheEndIndicesStock == old(ssNormalizedEventsPastTheEndIndicesStock)[p := normalizedEvents]
    {
      ssNormalizedTimeTrajectoryStock := ssNormalizedTimeTrajectoryStock[p := normalizedTime];
      ssNormalizedEventsPastTheEndIndicesStock := ssNormalizedEventsPastTheEndIndicesStock[p := normalizedEvents];
    }

    /** Stores the de-normalised value function trajectory of partition `p`. */
    method StoreValueFunction(p: nat, output: ValueFunctionTrajectory)
      requires p < |ssTimeTrajectoryStock| && p < |smTrajectoryStock|
      requires p < |svTrajectoryStock| && p < |sTrajectoryStock|
      modifies this`ssTimeTrajectoryStock, this`smTrajectoryStock, this`svTrajectoryStock, this`sTrajectoryStock
      ensures ssTimeTrajectoryStock == old(ssTimeTrajectoryStock)[p := output.time]
      ensures smTrajectoryStock == old(smTrajectoryStock)[p := output.Sm]
      ensures svTrajectoryStock == old(svTrajectoryStock)[p := output.Sv]
      ensures sTrajectoryStock == old(sTrajectoryStock)[p := output.s]
    {
      ssTimeTrajectoryStock := ssTimeTrajectoryStock[p := output.time];
      smTrajectoryStock := smTrajectoryStock[p := output.Sm];
      svTrajectoryStock := svTrajectoryStock[p := output.Sv];
      sTrajectoryStock := sTrajectoryStock[p := output.s];
    }

    // -------------------------------------------------------------------------
    // Controller assembly

    /** `calculateControllerWorker`: assembles the controller of partition
        `i` at time index `k` from the terms interpolated at that time of
        the backward pass and the value function there. A non-finite gain
        or feedforward raises an exception that is caught and only logged;
        `caught` is that exception. */
    method CalculateControllerWorker(workerIndex: nat, i: nat, k: nat,
                                     interpolate: (nat, real) -> Interpolated,
                                     matrixFinite: Matrix -> bool, vectorFinite: Vector -> bool)
      returns (caught: Outcome)
      requires i < |ssTimeTrajectoryStock| && k < |ssTimeTrajectoryStock[i]|
      requires i < |smTrajectoryStock| && k < |smTrajectoryStock[i]|
      requires i < |svTrajectoryStock| && k < |svTrajectoryStock[i]|
      requires i < |nominalControllersStock|
      requires k < |nominalControllersStock[i].gainArray| && k < |nominalControllersStock[i].biasArray|
      requires k < |nominalControllersStock[i].deltaBiasArray|
      requires ControllerShaped(interpolate(i, ssTimeTrajectoryStock[i][k]), smTrajectoryStock[i][k], svTrajectoryStock[i][k])
      modifies this`nominalControllersStock
      ensures var ip := interpolate(i, ssTimeTrajectoryStock[i][k]);
              var Sm, Sv := smTrajectoryStock[i][k], svTrajectoryStock[i][k];
              var gain := Gain(ip, Sm, Sv);
              var c := old(nominalControllersStock[i]);
              nominalControllersStock == old(nominalControllersStock)[i := LinearController(
                                           c.gainArray[k := gain],
                                           c.biasArray[k := Bias(ip, gain)],
                                           c.deltaBiasArray[k := DeltaBias(ip, Sm, Sv)])] &&
              Control(nominalControllersStock[i].biasArray[k], gain, ip.nominalState) == ip.nominalInput &&
              caught == StabilityCheck(settings.checkNumericalStability, matrixFinite(gain),
                                       vectorFinite(DeltaBias(ip, Sm, Sv)))
    {
      var time := ssTimeTrajectoryStock[i][k];
      var ip := interpolate(i, time);
      var Sm, Sv := smTrajectoryStock[i][k], svTrajectoryStock[i][k];

      var gain := Gain(ip, Sm, Sv);
      var bias := Bias(ip, gain);
      var deltaBias := DeltaBias(ip, Sm, Sv);
      var c := nominalControllersStock[i];
      nominalControllersStock := nominalControllersStock[i := LinearController(
                                   c.gainArray[k := gain], c.biasArray[k := bias], c.deltaBiasArray[k := deltaBias])];
      ControlAroundNominal(ip, gain, ip.nominalState);

      caught := Pass;
      if settings.checkNumericalStability {
        if !matrixFinite(gain) {
          caught := Throw(RuntimeError("Feedback gains are unstable."));
        } else if !vectorFinite(deltaBias) {
          caught := Throw(RuntimeError("feedForwardControl is unstable."));
        }
      }
    }
  }
}
