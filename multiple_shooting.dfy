/** The multiple-shooting transcription of one shooting interval (an
    intermediate node) and of the final node: the discretised dynamics
    become an equality between consecutive nodes, the running cost is
    integrated with forward Euler, inequalities become a penalty, and the
    state-input equalities are either kept or projected out. Alongside, the
    performance index of the node accumulates the integrated cost and the
    integrated squared constraint violations (ISE). */
module MultipleShooting {
  import opened LinAlg
  import opened Approximation

  datatype Option<T> = None | Some(value: T)

  /** The fields of the performance index a node contributes to. */
  datatype PerformanceIndex = PerformanceIndex(totalCost: real,
                                               stateEqConstraintISE: real,
                                               stateInputEqConstraintISE: real,
                                               inequalityConstraintISE: real,
                                               inequalityConstraintPenalty: real)

  /** A default-constructed performance index. */
  function ZeroPerformance(): (p: PerformanceIndex)
    ensures p.totalCost == 0.0 && p.stateEqConstraintISE == 0.0 && p.stateInputEqConstraintISE == 0.0
    ensures p.inequalityConstraintISE == 0.0 && p.inequalityConstraintPenalty == 0.0
  {
    PerformanceIndex(0.0, 0.0, 0.0, 0.0, 0.0)
  }

  /** A default-constructed linear approximation: everything empty. */
  const EmptyLinear := VectorLinear([], [], [])

  datatype Transcription = Transcription(performance: PerformanceIndex, dynamics: VectorLinear,
                                         cost: ScalarQuad, constraints: VectorLinear,
                                         constraintsProjection: VectorLinear)

  datatype TerminalTranscription = TerminalTranscription(performance: PerformanceIndex, cost: ScalarQuad,
                                                         constraints: VectorLinear)

  /** The constraint object: values and approximations of the state-input
      equalities and of the inequalities. */
  datatype Constraint = Constraint(
    stateInputEquality: (real, Vector, Vector) -> Vector,
    stateInputEqualityLinear: (real, Vector, Vector) -> VectorLinear,
    inequality: (real, Vector, Vector) -> Vector,
    inequalityQuadratic: (real, Vector, Vector) -> VectorQuad)

  /** The soft-constraint penalty on the inequalities: its value and its
      quadratic approximation. */
  datatype Penalty = Penalty(value: Vector -> real, approx: VectorQuad -> ScalarQuad)

  /** Everything an intermediate node is built from: the system dynamics
      through the discretizer (its value, and its sensitivity for the
      linearised version), the cost function, the optional constraint and
      penalty (each possibly absent in the library), the constraint projection and
      the change of input variables it induces. */
  datatype Node = Node(
    discretize: (real, Vector, Vector, real) -> Vector,
    sensitivity: (real, Vector, Vector, real) -> VectorLinear,
    cost: (real, Vector, Vector) -> real,
    costApprox: (real, Vector, Vector) -> ScalarQuad,
    constraint: Option<Constraint>,
    penalty: Option<Penalty>,
    projection: VectorLinear -> VectorLinear,
    changeDynamics: (VectorLinear, VectorLinear) -> VectorLinear,
    changeCost: (ScalarQuad, VectorLinear) -> ScalarQuad)

  /** The terminal cost function. */
  datatype TerminalCost = TerminalCost(value: (real, Vector) -> real, approx: (real, Vector) -> ScalarQuad)

  // ---------------------------------------------------------------------------
  // The performance of an intermediate node

  /** Whether the inequalities are penalised at a node: a constraint and a
      penalty are present and there is at least one inequality. */
  predicate PenaltyApplies(n: Node, t: real, x: Vector, u: Vector) {
    n.constraint.Some? && n.penalty.Some? && |n.constraint.value.inequality(t, x, u)| > 0
  }

  /** The performance an intermediate node contributes over an interval of
      length dt: the Euler-integrated cost, the integrated squared dynamics
      gap, the integrated squared state-input equality violation (zero
      without a constraint), and, where the penalty applies, the integrated
      squared inequality violation and the integrated penalty. */
  function IntermediatePerformance(n: Node, t: real, dt: real, x: Vector, xNext: Vector, u: Vector): PerformanceIndex
    requires |n.discretize(t, x, u, dt)| == |xNext|
  {
    var gap := VSub(n.discretize(t, x, u, dt), xNext);
    var eq := if n.constraint.Some? then n.constraint.value.stateInputEquality(t, x, u) else [];
    var applies := PenaltyApplies(n, t, x, u);
    var h := if applies then n.constraint.value.inequality(t, x, u) else [];
    PerformanceIndex(dt * n.cost(t, x, u),
                     dt * SquaredNorm(gap),
                     dt * SquaredNorm(eq),
                     if applies then dt * SquaredNorm(MinZero(h)) else 0.0,
                     if applies then dt * n.penalty.value.value(h) else 0.0)
  }

  /** Over an interval of non-negative length every integrated squared
      violation is non-negative. */
  lemma IntermediatePerformanceNonNegative(n: Node, t: real, dt: real, x: Vector, xNext: Vector, u: Vector)
    requires |n.discretize(t, x, u, dt)| == |xNext| && dt >= 0.0
    ensures var p := IntermediatePerformance(n, t, dt, x, xNext, u);
            p.stateEqConstraintISE >= 0.0 && p.stateInputEqConstraintISE >= 0.0 &&
            p.inequalityConstraintISE >= 0.0
  {
    ScaledSquaredNormNonNegative(dt, VSub(n.discretize(t, x, u, dt), xNext));
    if n.constraint.Some? {
      ScaledSquaredNormNonNegative(dt, n.constraint.value.stateInputEquality(t, x, u));
    }
    if PenaltyApplies(n, t, x, u) {
      ScaledSquaredNormNonNegative(dt, MinZero(n.constraint.value.inequality(t, x, u)));
    }
  }

  /** `computeIntermediatePerformance`: starting from the zero index, adds
      the dynamics gap, the cost and, with a constraint, the equality and
      (with a penalty and at least one inequality) the inequality terms. */
  method ComputeIntermediatePerformance(n: Node, t: real, dt: real, x: Vector, xNext: Vector, u: Vector)
    returns (performance: PerformanceIndex)
    requires |n.discretize(t, x, u, dt)| == |xNext|
    ensures performance == IntermediatePerformance(n, t, dt, x, xNext, u)
  {
    performance := ZeroPerformance();
    var dynamicsGap := VSub(n.discretize(t, x, u, dt), xNext);
    performance := performance.(stateEqConstraintISE := performance.stateEqConstraintISE + dt * SquaredNorm(dynamicsGap));
    performance := performance.(totalCost := performance.totalCost + dt * n.cost(t, x, u));
    if n.constraint.Some? {
      var c := n.constraint.value;
      var constraints := c.stateInputEquality(t, x, u);
      if |constraints| > 0 {
        performance := performance.(stateInputEqConstraintISE :=
                                      performance.stateInputEqConstraintISE + dt * SquaredNorm(constraints));
      }
      if n.penalty.Some? {
        var ineqConstraints := c.inequality(t, x, u);
        if |ineqConstraints| > 0 {
          var penaltyCost := n.penalty.value.value(ineqConstraints);
          performance := performance.(inequalityConstraintISE :=
                                        performance.inequalityConstraintISE + dt * SquaredNorm(MinZero(ineqConstraints)));
          performance := performance.(inequalityConstraintPenalty :=
                                        performance.inequalityConstraintPenalty + dt * penaltyCost);
        }
      }
    }
  }

  // ---------------------------------------------------------------------------
  // The transcription of an intermediate node

  /** The value oracles and the approximation oracles agree: the discretised
      state is the value of the sensitivity, the cost is the value of its
      approximation, and likewise for the constraints and the penalty. */
  predicate Consistent(n: Node, t: real, dt: real, x: Vector, u: Vector) {
    n.discretize(t, x, u, dt) == n.sensitivity(t, x, u, dt).f &&
    n.cost(t, x, u) == n.costApprox(t, x, u).f &&
    (n.constraint.Some? ==>
       var c := n.constraint.value;
       c.stateInputEquality(t, x, u) == c.stateInputEqualityLinear(t, x, u).f &&
       c.inequality(t, x, u) == c.inequalityQuadratic(t, x, u).f &&
       (n.penalty.Some? ==>
          n.penalty.value.value(c.inequality(t, x, u)) == n.penalty.value.approx(c.inequalityQuadratic(t, x, u)).f))
  }

  /** Whether the quadratic penalty is added to the cost: a constraint and a
      penalty are present and the inequality approximation has a row. */
  predicate PenaltyApproxApplies(n: Node, t: real, x: Vector, u: Vector) {
    n.constraint.Some? && n.penalty.Some? && |n.constraint.value.inequalityQuadratic(t, x, u).f| > 0
  }

  /** Whether the state-input equalities are projected out. */
  predicate Projects(n: Node, project: bool, t: real, x: Vector, u: Vector) {
    n.constraint.Some? && project && |n.constraint.value.stateInputEqualityLinear(t, x, u).f| > 0
  }

  /** The dimensions the subtraction of the next state and the `+=` of the
      penalty need. */
  predicate SetupShaped(n: Node, t: real, dt: real, x: Vector, xNext: Vector, u: Vector) {
    var cost := n.costApprox(t, x, u);
    |n.sensitivity(t, x, u, dt).f| == |xNext| &&
    (PenaltyApproxApplies(n, t, x, u) ==>
       QuadShape(cost, |cost.dfdx|, |cost.dfdu|) &&
       QuadShape(n.penalty.value.approx(n.constraint.value.inequalityQuadratic(t, x, u)), |cost.dfdx|, |cost.dfdu|))
  }

  /** The cost before the dt scaling and before any projection: the cost
      approximation plus, where it applies, the penalty approximation. */
  function PenalisedCost(n: Node, t: real, x: Vector, u: Vector): ScalarQuad
    requires PenaltyApproxApplies(n, t, x, u) ==>
               var cost := n.costApprox(t, x, u);
               QuadShape(cost, |cost.dfdx|, |cost.dfdu|) &&
               QuadShape(n.penalty.value.approx(n.constraint.value.inequalityQuadratic(t, x, u)), |cost.dfdx|, |cost.dfdu|)
  {
    var cost := n.costApprox(t, x, u);
    if PenaltyApproxApplies(n, t, x, u) then
      QuadAdd(cost, n.penalty.value.approx(n.constraint.value.inequalityQuadratic(t, x, u)), |cost.dfdx|, |cost.dfdu|)
    else cost
  }

  /** The performance `setupIntermediateNode` records, from the
      approximations: the integrated cost value, the integrated squared
      dynamics gap and state-input equality violation, and, where the
      penalty applies, the integrated squared inequality violation and the
      integrated penalty value. */
  function NodePerformance(n: Node, t: real, dt: real, x: Vector, xNext: Vector, u: Vector): PerformanceIndex
    requires |n.sensitivity(t, x, u, dt).f| == |xNext|
  {
    var gap := VSub(n.sensitivity(t, x, u, dt).f, xNext);
    var eq := if n.constraint.Some? then n.constraint.value.stateInputEqualityLinear(t, x, u).f else [];
    var applies := PenaltyApproxApplies(n, t, x, u);
    var h := if applies then n.constraint.value.inequalityQuadratic(t, x, u) else VectorQuad([], [], [], [], [], []);
    PerformanceIndex(dt * n.costApprox(t, x, u).f,
                     dt * SquaredNorm(gap),
                     dt * SquaredNorm(eq),
                     if applies then dt * SquaredNorm(MinZero(h.f)) else 0.0,
                     if applies then dt * n.penalty.value.approx(h).f else 0.0)
  }

  /** Over an interval of non-negative length the node's integrated squared
      violations are non-negative. */
  lemma NodePerformanceNonNegative(n: Node, t: real, dt: real, x: Vector, xNext: Vector, u: Vector)
    requires |n.sensitivity(t, x, u, dt).f| == |xNext| && dt >= 0.0
    ensures var p := NodePerformance(n, t, dt, x, xNext, u);
            p.stateEqConstraintISE >= 0.0 && p.stateInputEqConstraintISE >= 0.0 &&
            p.inequalityConstraintISE >= 0.0
  {
    ScaledSquaredNormNonNegative(dt, VSub(n.sensitivity(t, x, u, dt).f, xNext));
    if n.constraint.Some? {
      ScaledSquaredNormNonNegative(dt, n.constraint.value.stateInputEqualityLinear(t, x, u).f);
    }
    if PenaltyApproxApplies(n, t, x, u) {
      ScaledSquaredNormNonNegative(dt, MinZero(n.constraint.value.inequalityQuadratic(t, x, u).f));
    }
  }

  /** With consistent oracles the transcription records the same
      performance as `computeIntermediatePerformance`. */
  lemma NodePerformanceConsistent(n: Node, t: real, dt: real, x: Vector, xNext: Vector, u: Vector)
    requires |n.sensitivity(t, x, u, dt).f| == |xNext| && Consistent(n, t, dt, x, u)
    ensures NodePerformance(n, t, dt, x, xNext, u) == IntermediatePerformance(n, t, dt, x, xNext, u)
  {
  }

  /** `setupIntermediateNode`. */
  method SetupIntermediateNode(n: Node, projectStateInputEqualityConstraints: bool,
                               t: real, dt: real, x: Vector, xNext: Vector, u: Vector)
    returns (tr: Transcription)
    requires SetupShaped(n, t, dt, x, xNext, u)
    // Dynamics: the discretised sensitivity, shifted so that it maps to the
    // deviation of the next node; projected when the equalities are.
    ensures var s := n.sensitivity(t, x, u, dt);
            var shifted := s.(f := VSub(s.f, xNext));
            tr.dynamics == if Projects(n, projectStateInputEqualityConstraints, t, x, u)
                           then n.changeDynamics(shifted, tr.constraintsProjection) else shifted
    // Constraints: kept unless projected; the projection is stored instead.
    ensures Projects(n, projectStateInputEqualityConstraints, t, x, u) ==>
              tr.constraintsProjection == n.projection(n.constraint.value.stateInputEqualityLinear(t, x, u)) &&
              tr.constraints == EmptyLinear
    ensures !Projects(n, projectStateInputEqualityConstraints, t, x, u) ==>
              tr.constraintsProjection == EmptyLinear &&
              tr.constraints == (if n.constraint.Some? then n.constraint.value.stateInputEqualityLinear(t, x, u)
                                 else EmptyLinear)
    // Cost: penalised, projected when the equalities are, and scaled by dt
    // in all six fields last.
    ensures tr.cost == QuadScale(if Projects(n, projectStateInputEqualityConstraints, t, x, u)
                                 then n.changeCost(PenalisedCost(n, t, x, u), tr.constraintsProjection)
                                 else PenalisedCost(n, t, x, u), dt)
    // Performance: the cost integrated from the unpenalised value, the
    // penalty tracked on its own.
    ensures tr.performance == NodePerformance(n, t, dt, x, xNext, u)
  {
    var performance := ZeroPerformance();
    var dynamics := n.sensitivity(t, x, u, dt);
    dynamics := dynamics.(f := VSub(dynamics.f, xNext));
    performance := performance.(stateEqConstraintISE := performance.stateEqConstraintISE + dt * SquaredNorm(dynamics.f));
    var cost := n.costApprox(t, x, u);
    performance := performance.(totalCost := performance.totalCost + dt * cost.f);
    var constraints := EmptyLinear;
    var projection := EmptyLinear;
    if n.constraint.Some? {
      var c := n.constraint.value;
      if n.penalty.Some? {
        var ineqConstraints := c.inequalityQuadratic(t, x, u);
        if |ineqConstraints.f| > 0 {
          var penaltyCost := n.penalty.value.approx(ineqConstraints);
          cost := QuadAdd(cost, penaltyCost, |cost.dfdx|, |cost.dfdu|);
          performance := performance.(inequalityConstraintISE :=
                                        performance.inequalityConstraintISE + dt * SquaredNorm(MinZero(ineqConstraints.f)));
          performance := performance.(inequalityConstraintPenalty :=
                                        performance.inequalityConstraintPenalty + dt * penaltyCost.f);
        }
      }
      constraints := c.stateInputEqualityLinear(t, x, u);
      if |constraints.f| > 0 {
        performance := performance.(stateInputEqConstraintISE :=
                                      performance.stateInputEqConstraintISE + dt * SquaredNorm(constraints.f));
        if projectStateInputEqualityConstraints {
          projection := n.projection(constraints);
          constraints := EmptyLinear;
          dynamics := n.changeDynamics(dynamics, projection);
          cost := n.changeCost(cost, projection);
        }
      }
    }
    cost := cost.(dfdxx := MScale(cost.dfdxx, dt));
    cost := cost.(dfdux := MScale(cost.dfdux, dt));
    cost := cost.(dfduu := MScale(cost.dfduu, dt));
    cost := cost.(dfdx := VScale(cost.dfdx, dt));
    cost := cost.(dfdu := VScale(cost.dfdu, dt));
    cost := cost.(f := cost.f * dt);
    tr := Transcription(performance, dynamics, cost, constraints, projection);
  }

  // ---------------------------------------------------------------------------
  // The final node

  /** What `computeTerminalPerformance` records: the final cost, nothing else. */
  function TerminalPerformance(c: TerminalCost, t: real, x: Vector): (p: PerformanceIndex)
    ensures p.totalCost == c.value(t, x)
    ensures p.stateEqConstraintISE == 0.0 && p.stateInputEqConstraintISE == 0.0
    ensures p.inequalityConstraintISE == 0.0 && p.inequalityConstraintPenalty == 0.0
  {
    ZeroPerformance().(totalCost := c.value(t, x))
  }

  /** `setupTerminalNode`: the final cost approximation when there is a
      final cost (its value counted in the performance), the zero (|x|, 0)
      approximation otherwise; the constraints always have no rows. */
  method SetupTerminalNode(terminalCost: Option<TerminalCost>, t: real, x: Vector)
    returns (tr: TerminalTranscription)
    ensures terminalCost.Some? ==> tr.cost == terminalCost.value.approx(t, x) &&
                                   tr.performance.totalCost == terminalCost.value.approx(t, x).f
    ensures terminalCost.None? ==> tr.cost == ZeroQuad(|x|, 0) && tr.performance == ZeroPerformance()
    ensures LinearShape(tr.constraints, 0, |x|, 0)
    ensures tr.performance.stateEqConstraintISE == 0.0 && tr.performance.stateInputEqConstraintISE == 0.0
    ensures tr.performance.inequalityConstraintISE == 0.0 && tr.performance.inequalityConstraintPenalty == 0.0
    // With a consistent final cost it records what `computeTerminalPerformance` does.
    ensures terminalCost.Some? && terminalCost.value.value(t, x) == terminalCost.value.approx(t, x).f ==>
              tr.performance == TerminalPerformance(terminalCost.value, t, x)
  {
    var performance := ZeroPerformance();
    var cost;
    if terminalCost.Some? {
      cost := terminalCost.value.approx(t, x);
      performance := performance.(totalCost := performance.totalCost + cost.f);
    } else {
      cost := ZeroQuad(|x|, 0);
    }
    var constraints := VectorLinear(Zeros(0), ZeroMat(0, |x|), ZeroMat(0, 0));
    tr := TerminalTranscription(performance, cost, constraints);
  }

  /** `computeTerminalPerformance`; the library dereferences the final cost
      unconditionally, so one must be given. */
  method ComputeTerminalPerformance(terminalCost: TerminalCost, t: real, x: Vector)
    returns (performance: PerformanceIndex)
    ensures performance == TerminalPerformance(terminalCost, t, x)
  {
    performance := ZeroPerformance();
    performance := performance.(totalCost := performance.totalCost + terminalCost.value(t, x));
  }
}
