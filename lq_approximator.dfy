/** The linear-quadratic approximator: at one time sample it fills the
    fields of a `ModelData` record from the optimal-control problem's
    dynamics, constraint and cost terms, in one of four request modes. The
    record is an out-parameter in the library; here a method takes the
    record as it was and returns it as it is afterwards, together with the
    exception, if any, that ended the call. The problem's terms, and the
    record's numerical checks, are functions supplied with the approximator. */
module LqApproximator {
  import opened LinAlg
  import opened Approximation

  /** The problem terms the approximator evaluates, each as the function
      its `getLinearApproximation` / `getQuadraticApproximation` computes. */
  datatype Problem = Problem(
    dynamics: (real, Vector, Vector) -> VectorLinear,
    dynamicsCovariance: (real, Vector, Vector) -> Matrix,
    jumpMap: (real, Vector) -> VectorLinear,
    equalityConstraint: (real, Vector, Vector) -> VectorLinear,
    stateEqualityConstraint: (real, Vector) -> VectorLinear,
    inequalityConstraint: (real, Vector, Vector) -> VectorQuad,
    preJumpEqualityConstraint: (real, Vector) -> VectorLinear,
    finalEqualityConstraint: (real, Vector) -> VectorLinear,
    cost: (real, Vector, Vector) -> ScalarQuad,
    softConstraint: (real, Vector, Vector) -> ScalarQuad,
    stateCost: (real, Vector) -> ScalarQuad,
    stateSoftConstraint: (real, Vector) -> ScalarQuad,
    preJumpCost: (real, Vector) -> ScalarQuad,
    preJumpSoftConstraint: (real, Vector) -> ScalarQuad,
    finalCost: (real, Vector) -> ScalarQuad,
    finalSoftConstraint: (real, Vector) -> ScalarQuad)

  /** The record's property checks; each returns an empty string when the
      record passes and a diagnostic otherwise. */
  datatype Checks = Checks(dynamics: ModelData -> string,
                           constraints: ModelData -> string,
                           cost: ModelData -> string)

  datatype Approximator = Approximator(problem: Problem, checkNumericalCharacteristics: bool, checks: Checks)

  const StateInputRowsMessage :=
    "Number of active state-input equality constraints should be less-equal to the input dimension."
  const StateOnlyRowsMessage :=
    "Number of active state-only equality constraints should be less-equal to the input dimension."

  /** A check that runs only when `checkNumericalCharacteristics` is set and
      raises its diagnostic as a runtime error. */
  function Checked(enabled: bool, diagnostic: string): (o: Outcome)
    ensures o.Throw? <==> enabled && diagnostic != ""
    ensures o.Throw? ==> o.error == RuntimeError(diagnostic)
  {
    if enabled && diagnostic != "" then Throw(RuntimeError(diagnostic)) else Pass
  }

  // ---------------------------------------------------------------------------
  // The cost at an intermediate time

  /** The cost terms have the dimensions the `+=` of the approximations
      needs: the state-input cost and its soft constraint are (|x|, |u|)
      approximations, the state cost and its soft constraint agree with
      each other and have |x| state derivatives. */
  predicate CostShaped(p: Problem, t: real, x: Vector, u: Vector) {
    var sc := p.stateCost(t, x);
    QuadShape(p.cost(t, x, u), |x|, |u|) && QuadShape(p.softConstraint(t, x, u), |x|, |u|) &&
    QuadShape(sc, |x|, |sc.dfdu|) && QuadShape(p.stateSoftConstraint(t, x), |x|, |sc.dfdu|)
  }

  /** What `approximateCost` writes into `cost_`: the state-input cost plus
      its soft constraint, then the state cost plus its soft constraint
      added to the value, the state gradient and the state Hessian only. */
  function IntermediateCost(p: Problem, t: real, x: Vector, u: Vector): (c: ScalarQuad)
    requires CostShaped(p, t, x, u)
    ensures QuadShape(c, |x|, |u|)
    ensures var inputPart := QuadAdd(p.cost(t, x, u), p.softConstraint(t, x, u), |x|, |u|);
            c.dfdu == inputPart.dfdu && c.dfduu == inputPart.dfduu && c.dfdux == inputPart.dfdux
  {
    var base := QuadAdd(p.cost(t, x, u), p.softConstraint(t, x, u), |x|, |u|);
    var sc := p.stateCost(t, x);
    var stateCost := QuadAdd(sc, p.stateSoftConstraint(t, x), |x|, |sc.dfdu|);
    base.(f := base.f + stateCost.f, dfdx := VAdd(base.dfdx, stateCost.dfdx),
          dfdxx := MAdd(base.dfdxx, stateCost.dfdxx))
  }

  /** The state part padded to an (nx, nu) approximation whose input
      derivatives are zero. */
  function PaddedStatePart(q: ScalarQuad, nx: nat, nu: nat): (r: ScalarQuad)
    requires |q.dfdx| == nx && IsMat(q.dfdxx, nx, nx)
    ensures QuadShape(r, nx, nu)
  {
    ScalarQuad(q.f, q.dfdx, Zeros(nu), q.dfdxx, ZeroMat(nu, nu), ZeroMat(nu, nx))
  }

  lemma VAddZeros(a: Vector)
    ensures VAdd(a, Zeros(|a|)) == a
  {
  }

  lemma MAddZeros(a: Matrix, rows: nat, cols: nat)
    requires IsMat(a, rows, cols)
    ensures MAdd(a, ZeroMat(rows, cols)) == a
  {
    forall i | 0 <= i < rows
      ensures MAdd(a, ZeroMat(rows, cols))[i] == a[i]
    {
      VAddZeros(a[i]);
    }
  }

  /** Adding the state terms to the value and the state derivatives only is
      adding them as a full approximation with zero input derivatives: the
      cost is the sum of all four terms. */
  lemma IntermediateCostIsSum(p: Problem, t: real, x: Vector, u: Vector)
    requires CostShaped(p, t, x, u)
    ensures var sc := p.stateCost(t, x);
            var stateCost := QuadAdd(sc, p.stateSoftConstraint(t, x), |x|, |sc.dfdu|);
            IntermediateCost(p, t, x, u)
              == QuadAdd(QuadAdd(p.cost(t, x, u), p.softConstraint(t, x, u), |x|, |u|),
                         PaddedStatePart(stateCost, |x|, |u|), |x|, |u|)
  {
    var base := QuadAdd(p.cost(t, x, u), p.softConstraint(t, x, u), |x|, |u|);
    VAddZeros(base.dfdu);
    MAddZeros(base.dfduu, |u|, |u|);
    MAddZeros(base.dfdux, |u|, |x|);
  }

  /** The record once `approximateDynamics` has written both dynamics fields. */
  function WithDynamics(a: Approximator, t: real, x: Vector, u: Vector, md: ModelData): ModelData {
    md.(dynamics := a.problem.dynamics(t, x, u), dynamicsCovariance := a.problem.dynamicsCovariance(t, x, u))
  }

  /** The record once `approximateConstraints` has written all three constraints. */
  function WithConstraints(a: Approximator, t: real, x: Vector, u: Vector, md: ModelData): ModelData {
    md.(stateInputEqConstr := a.problem.equalityConstraint(t, x, u),
        stateEqConstr := a.problem.stateEqualityConstraint(t, x),
        ineqConstr := a.problem.inequalityConstraint(t, x, u))
  }

  /** The dynamics check of the record after the dynamics step fails. */
  predicate DynamicsCheckFails(a: Approximator, t: real, x: Vector, u: Vector, md: ModelData) {
    a.checkNumericalCharacteristics && a.checks.dynamics(WithDynamics(a, t, x, u, md)) != ""
  }

  /** The exception `approximateLQProblem` raises at (t, x, u) on the record
      `md`, or none: the first step to fail, in the order dynamics check,
      state-input rows, state-only rows, constraint check, cost check. */
  function LQOutcome(a: Approximator, t: real, x: Vector, u: Vector, md: ModelData): Outcome
    requires CostShaped(a.problem, t, x, u)
  {
    var d := WithDynamics(a, t, x, u, md);
    var c := WithConstraints(a, t, x, u, d);
    var check := a.checkNumericalCharacteristics;
    if DynamicsCheckFails(a, t, x, u, md) then Throw(RuntimeError(a.checks.dynamics(d)))
    else if |a.problem.equalityConstraint(t, x, u).f| > |u| then Throw(RuntimeError(StateInputRowsMessage))
    else if |a.problem.stateEqualityConstraint(t, x).f| > |u| then Throw(RuntimeError(StateOnlyRowsMessage))
    else if check && a.checks.constraints(c) != "" then Throw(RuntimeError(a.checks.constraints(c)))
    else Checked(check, a.checks.cost(c.(cost := IntermediateCost(a.problem, t, x, u))))
  }

  /** Without the numerical checks, `approximateLQProblem` raises exactly
      when an equality constraint has more rows than the input has entries,
      and the message names the first such constraint. */
  lemma LQOutcomeWithoutChecks(a: Approximator, t: real, x: Vector, u: Vector, md: ModelData)
    requires CostShaped(a.problem, t, x, u) && !a.checkNumericalCharacteristics
    ensures var eqRows := |a.problem.equalityConstraint(t, x, u).f|;
            var stateRows := |a.problem.stateEqualityConstraint(t, x).f|;
            (LQOutcome(a, t, x, u, md).Pass? <==> eqRows <= |u| && stateRows <= |u|) &&
            (LQOutcome(a, t, x, u, md).Throw? ==>
               LQOutcome(a, t, x, u, md)
                 == Throw(RuntimeError(if eqRows > |u| then StateInputRowsMessage else StateOnlyRowsMessage)))
  {
  }

  // ---------------------------------------------------------------------------
  // The three building blocks

  /** `approximateDynamics`: writes the dynamics and their covariance, then
      runs the dynamics check when enabled. */
  method ApproximateDynamics(a: Approximator, t: real, x: Vector, u: Vector, md: ModelData)
    returns (md': ModelData, out: Outcome)
    ensures md' == md.(dynamics := a.problem.dynamics(t, x, u),
                       dynamicsCovariance := a.problem.dynamicsCovariance(t, x, u))
    ensures out.Throw? <==> a.checkNumericalCharacteristics && a.checks.dynamics(md') != ""
    ensures out.Throw? ==> out.error == RuntimeError(a.checks.dynamics(md'))
  {
    md' := md.(dynamics := a.problem.dynamics(t, x, u));
    md' := md'.(dynamicsCovariance := a.problem.dynamicsCovariance(t, x, u));
    out := Checked(a.checkNumericalCharacteristics, a.checks.dynamics(md'));
  }

  /** `approximateConstraints`: the state-input equality constraint, the
      state-only equality constraint and the inequality constraint, in that
      order; each equality constraint with more rows than the input has
      inputs is rejected as soon as it is written. */
  method ApproximateConstraints(a: Approximator, t: real, x: Vector, u: Vector, md: ModelData)
    returns (md': ModelData, out: Outcome)
    ensures md'.dynamics == md.dynamics && md'.dynamicsCovariance == md.dynamicsCovariance
    ensures md'.cost == md.cost
    ensures md'.stateInputEqConstr == a.problem.equalityConstraint(t, x, u)
    ensures var rows := |a.problem.equalityConstraint(t, x, u).f|;
            rows > |u| ==>
              out == Throw(RuntimeError(StateInputRowsMessage)) &&
              md'.stateEqConstr == md.stateEqConstr && md'.ineqConstr == md.ineqConstr
    ensures var rows := |a.problem.equalityConstraint(t, x, u).f|;
            var stateRows := |a.problem.stateEqualityConstraint(t, x).f|;
            rows <= |u| ==>
              md'.stateEqConstr == a.problem.stateEqualityConstraint(t, x) &&
              (stateRows > |u| ==>
                 out == Throw(RuntimeError(StateOnlyRowsMessage)) && md'.ineqConstr == md.ineqConstr) &&
              (stateRows <= |u| ==>
                 md'.ineqConstr == a.problem.inequalityConstraint(t, x, u) &&
                 out == Checked(a.checkNumericalCharacteristics, a.checks.constraints(md')))
  {
    md' := md.(stateInputEqConstr := a.problem.equalityConstraint(t, x, u));
    if |md'.stateInputEqConstr.f| > |u| {
      return md', Throw(RuntimeError(StateInputRowsMessage));
    }
    md' := md'.(stateEqConstr := a.problem.stateEqualityConstraint(t, x));
    if |md'.stateEqConstr.f| > |u| {
      return md', Throw(RuntimeError(StateOnlyRowsMessage));
    }
    md' := md'.(ineqConstr := a.problem.inequalityConstraint(t, x, u));
    out := Checked(a.checkNumericalCharacteristics, a.checks.constraints(md'));
  }

  /** `approximateCost`: writes the intermediate cost, then runs the cost
      check when enabled. */
  method ApproximateCost(a: Approximator, t: real, x: Vector, u: Vector, md: ModelData)
    returns (md': ModelData, out: Outcome)
    requires CostShaped(a.problem, t, x, u)
    ensures md' == md.(cost := IntermediateCost(a.problem, t, x, u))
    ensures out.Throw? <==> a.checkNumericalCharacteristics && a.checks.cost(md') != ""
    ensures out.Throw? ==> out.error == RuntimeError(a.checks.cost(md'))
  {
    var p := a.problem;
    var base := QuadAdd(p.cost(t, x, u), p.softConstraint(t, x, u), |x|, |u|);
    var sc := p.stateCost(t, x);
    var stateCost := QuadAdd(sc, p.stateSoftConstraint(t, x), |x|, |sc.dfdu|);
    var c := base;
    c := c.(f := c.f + stateCost.f);
    c := c.(dfdx := VAdd(c.dfdx, stateCost.dfdx));
    c := c.(dfdxx := MAdd(c.dfdxx, stateCost.dfdxx));
    md' := md.(cost := c);
    out := Checked(a.checkNumericalCharacteristics, a.checks.cost(md'));
  }

  // ---------------------------------------------------------------------------
  // The four request modes

  /** `approximateLQProblem`: dynamics, then constraints, then cost; an
      exception from one step skips the later ones. */
  method ApproximateLQProblem(a: Approximator, t: real, x: Vector, u: Vector, md: ModelData)
    returns (md': ModelData, out: Outcome)
    requires CostShaped(a.problem, t, x, u)
    ensures md'.dynamics == a.problem.dynamics(t, x, u)
    ensures md'.dynamicsCovariance == a.problem.dynamicsCovariance(t, x, u)
    ensures out.Pass? ==>
              md'.stateInputEqConstr == a.problem.equalityConstraint(t, x, u) &&
              md'.stateEqConstr == a.problem.stateEqualityConstraint(t, x) &&
              md'.ineqConstr == a.problem.inequalityConstraint(t, x, u) &&
              md'.cost == IntermediateCost(a.problem, t, x, u) &&
              |md'.stateInputEqConstr.f| <= |u| && |md'.stateEqConstr.f| <= |u|
    ensures |a.problem.equalityConstraint(t, x, u).f| > |u| ==> out.Throw?
    ensures !a.checkNumericalCharacteristics ==>
              (out.Pass? <==> |a.problem.equalityConstraint(t, x, u).f| <= |u| &&
                              |a.problem.stateEqualityConstraint(t, x).f| <= |u|)
    ensures md'.cost != md.cost ==> md'.cost == IntermediateCost(a.problem, t, x, u)
    ensures out == LQOutcome(a, t, x, u, md)
    // A failing dynamics check ends the call with only the dynamics written.
    ensures var d := WithDynamics(a, t, x, u, md);
            DynamicsCheckFails(a, t, x, u, md) ==>
              md' == d && out == Throw(RuntimeError(a.checks.dynamics(d)))
    // Too many state-input equality rows: that constraint is the last field written.
    ensures var d := WithDynamics(a, t, x, u, md);
            var eq := a.problem.equalityConstraint(t, x, u);
            !DynamicsCheckFails(a, t, x, u, md) && |eq.f| > |u| ==>
              md' == d.(stateInputEqConstr := eq) && out == Throw(RuntimeError(StateInputRowsMessage))
    // Too many state-only equality rows: both equality constraints written, nothing after.
    ensures var d := WithDynamics(a, t, x, u, md);
            var eq := a.problem.equalityConstraint(t, x, u);
            var stateEq := a.problem.stateEqualityConstraint(t, x);
            !DynamicsCheckFails(a, t, x, u, md) && |eq.f| <= |u| && |stateEq.f| > |u| ==>
              md' == d.(stateInputEqConstr := eq, stateEqConstr := stateEq) &&
              out == Throw(RuntimeError(StateOnlyRowsMessage))
    // The rows fit: a failing constraint check leaves the cost as it was;
    // otherwise the cost is written and its check decides the outcome.
    ensures var c := WithConstraints(a, t, x, u, WithDynamics(a, t, x, u, md));
            var check := a.checkNumericalCharacteristics;
            !DynamicsCheckFails(a, t, x, u, md) &&
            |a.problem.equalityConstraint(t, x, u).f| <= |u| && |a.problem.stateEqualityConstraint(t, x).f| <= |u| ==>
              (check && a.checks.constraints(c) != "" ==>
                 md' == c && out == Throw(RuntimeError(a.checks.constraints(c)))) &&
              (!(check && a.checks.constraints(c) != "") ==>
                 md' == c.(cost := IntermediateCost(a.problem, t, x, u)) &&
                 out == Checked(check, a.checks.cost(md')))
  {
    md', out := ApproximateDynamics(a, t, x, u, md);
    if out.Throw? {
      return;
    }
    md', out := ApproximateConstraints(a, t, x, u, md');
    if out.Throw? {
      return;
    }
    md', out := ApproximateCost(a, t, x, u, md');
  }

  /** `approximateUnconstrainedLQProblem`: dynamics, then cost; the three
      constraint fields are never written. */
  method ApproximateUnconstrainedLQProblem(a: Approximator, t: real, x: Vector, u: Vector, md: ModelData)
    returns (md': ModelData, out: Outcome)
    requires CostShaped(a.problem, t, x, u)
    ensures md'.stateInputEqConstr == md.stateInputEqConstr
    ensures md'.stateEqConstr == md.stateEqConstr
    ensures md'.ineqConstr == md.ineqConstr
    ensures md'.dynamics == a.problem.dynamics(t, x, u)
    ensures md'.dynamicsCovariance == a.problem.dynamicsCovariance(t, x, u)
    ensures out.Pass? ==> md'.cost == IntermediateCost(a.problem, t, x, u)
    ensures !a.checkNumericalCharacteristics ==> out.Pass?
    ensures var d := WithDynamics(a, t, x, u, md);
            DynamicsCheckFails(a, t, x, u, md) ==>
              md' == d && out == Throw(RuntimeError(a.checks.dynamics(d)))
    ensures !DynamicsCheckFails(a, t, x, u, md) ==>
              md' == WithDynamics(a, t, x, u, md).(cost := IntermediateCost(a.problem, t, x, u)) &&
              out == Checked(a.checkNumericalCharacteristics, a.checks.cost(md'))
  {
    md', out := ApproximateDynamics(a, t, x, u, md);
    if out.Throw? {
      return;
    }
    md', out := ApproximateCost(a, t, x, u, md');
  }

  /** The pre-jump (or final) cost plus its soft constraint have the same dimensions. */
  predicate EndCostShaped(cost: ScalarQuad, soft: ScalarQuad, nx: nat) {
    QuadShape(cost, nx, |cost.dfdu|) && QuadShape(soft, nx, |cost.dfdu|)
  }

  /** `approximateLQProblemAtEventTime`: the jump map as dynamics, the
      pre-jump equality constraint as state-only constraint, the pre-jump
      cost plus its soft constraint as cost; nothing else is written and
      nothing is thrown. */
  method ApproximateLQProblemAtEventTime(a: Approximator, t: real, x: Vector, md: ModelData)
    returns (md': ModelData)
    requires EndCostShaped(a.problem.preJumpCost(t, x), a.problem.preJumpSoftConstraint(t, x), |x|)
    ensures md'.dynamics == a.problem.jumpMap(t, x)
    ensures md'.stateEqConstr == a.problem.preJumpEqualityConstraint(t, x)
    ensures var c := a.problem.preJumpCost(t, x);
            md'.cost == QuadAdd(c, a.problem.preJumpSoftConstraint(t, x), |x|, |c.dfdu|)
    ensures md'.stateInputEqConstr == md.stateInputEqConstr
    ensures md'.dynamicsCovariance == md.dynamicsCovariance && md'.ineqConstr == md.ineqConstr
  {
    md' := md.(dynamics := a.problem.jumpMap(t, x));
    md' := md'.(stateEqConstr := a.problem.preJumpEqualityConstraint(t, x));
    var c := a.problem.preJumpCost(t, x);
    md' := md'.(cost := c);
    md' := md'.(cost := QuadAdd(md'.cost, a.problem.preJumpSoftConstraint(t, x), |x|, |c.dfdu|));
  }

  /** `approximateLQProblemAtFinalTime`: only the state-only constraint and
      the cost are written; the dynamics keep whatever they held. */
  method ApproximateLQProblemAtFinalTime(a: Approximator, t: real, x: Vector, md: ModelData)
    returns (md': ModelData)
    requires EndCostShaped(a.problem.finalCost(t, x), a.problem.finalSoftConstraint(t, x), |x|)
    ensures md'.stateEqConstr == a.problem.finalEqualityConstraint(t, x)
    ensures var c := a.problem.finalCost(t, x);
            md'.cost == QuadAdd(c, a.problem.finalSoftConstraint(t, x), |x|, |c.dfdu|)
    ensures md'.dynamics == md.dynamics && md'.dynamicsCovariance == md.dynamicsCovariance
    ensures md'.stateInputEqConstr == md.stateInputEqConstr && md'.ineqConstr == md.ineqConstr
  {
    md' := md.(stateEqConstr := a.problem.finalEqualityConstraint(t, x));
    var c := a.problem.finalCost(t, x);
    md' := md'.(cost := c);
    md' := md'.(cost := QuadAdd(md'.cost, a.problem.finalSoftConstraint(t, x), |x|, |c.dfdu|));
  }
}
