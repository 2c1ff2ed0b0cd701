/** Cost terms: a user-supplied cost function of (t, x, u) or of (t, x)
    together with the one piece of state every term carries, its activity
    flag. The term's value and quadratic approximation are the virtual
    functions a concrete term overrides; here they are the term's kernel,
    fixed when the term is built. */
module CostTerms {
  import opened LinAlg
  import opened Approximation

  /** A state-input cost term (`StateInputCost`). */
  class StateInputCost {
    /** `active_`, the only mutable member. */
    var active: bool
    /** `getValue(t, x, u, desiredTrajectory)` of the concrete term. */
    const value: (real, Vector, Vector) -> real
    /** `getQuadraticApproximation(t, x, u, desiredTrajectory)` of the concrete term. */
    const approx: (real, Vector, Vector) -> ScalarQuad

    /** A newly built term is active. */
    constructor (value: (real, Vector, Vector) -> real, approx: (real, Vector, Vector) -> ScalarQuad)
      ensures IsActive()
      ensures this.value == value && this.approx == approx
    {
      this.value := value;
      this.approx := approx;
      active := true;
    }

    /** `setActivity`: writes the flag and nothing else. */
    method SetActivity(activity: bool)
      modifies this`active
      ensures IsActive() == activity
    {
      active := activity;
    }

    predicate IsActive()
      reads this
    {
      active
    }

    /** `clone()` through the defaulted copy constructor: a new term with the
        same kernel and the same activity. */
    method Clone() returns (c: StateInputCost)
      ensures fresh(c)
      ensures c.IsActive() == IsActive()
      ensures c.value == value && c.approx == approx
    {
      c := new StateInputCost(value, approx);
      c.active := active;
    }
  }

  /** A state-only cost term (`StateCost`), with the same activity flag. */
  class StateCost {
    var active: bool
    /** `getValue(t, x, desiredTrajectory)` of the concrete term. */
    const value: (real, Vector) -> real
    /** `getQuadraticApproximation(t, x, desiredTrajectory)` of the concrete term. */
    const approx: (real, Vector) -> ScalarQuad

    constructor (value: (real, Vector) -> real, approx: (real, Vector) -> ScalarQuad)
      ensures IsActive()
      ensures this.value == value && this.approx == approx
    {
      this.value := value;
      this.approx := approx;
      active := true;
    }

    method SetActivity(activity: bool)
      modifies this`active
      ensures IsActive() == activity
    {
      active := activity;
    }

    predicate IsActive()
      reads this
    {
      active
    }

    method Clone() returns (c: StateCost)
      ensures fresh(c)
      ensures c.IsActive() == IsActive()
      ensures c.value == value && c.approx == approx
    {
      c := new StateCost(value, approx);
      c.active := active;
    }
  }
}
